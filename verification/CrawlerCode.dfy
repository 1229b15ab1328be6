/** The code of the selector, of a worker and of the output writer, one call at a time: each call is a
    sequence of the machine's steps. */
module CrawlerCode {
  import opened Machine
  import opened UserAgents
  import opened Peers
  import opened PeerStores
  import opened Crawler
  import opened CrawlerOutput

  /** The output file and the channel that feeds it. */
  class Output {
    const capacity: nat
    var workchan: seq<Peer>
    var closed: bool
    var file: seq<Line>

    constructor (capacity: nat)
      ensures this.capacity == capacity && workchan == [] && !closed && file == []
    {
      this.capacity, workchan, closed, file := capacity, [], false, [];
    }

    /** Sending blocks while the channel is full, and panics on a closed one. */
    method Send(record: Peer)
      requires !closed && |workchan| < capacity
      modifies this`workchan
      ensures workchan == old(workchan) + [record]
    {
      workchan := workchan + [record];
    }

    /** Receiving blocks on an open empty channel; from a closed one it yields nil at once. */
    method Receive()
      requires workchan != [] || closed
      modifies this`workchan, this`file
      ensures old(workchan) != [] ==> workchan == old(workchan)[1..] && file == old(file) + [Data(old(workchan)[0])]
      ensures old(workchan) == [] ==> workchan == [] && file == old(file) + [Null]
    {
      if workchan != [] {
        file := file + [Data(workchan[0])];
        workchan := workchan[1..];
      } else {
        file := file + [Null];
      }
    }

    /** The drain loop. Until the channel is closed, the workers go on sending, in between the receives:
        `arriving` is what they will still send. Everything is written once, in the order of sending. */
    method Drain(arriving: seq<Peer>)
      requires closed || capacity == 0 ==> arriving == []
      modifies this
      ensures file == old(file) + DataLines(old(workchan) + arriving)
      ensures workchan == [] && closed
    {
      ghost var before, all := file, workchan + arriving;
      var rest := arriving;
      assert Accounted(before, all, file, workchan + rest) by { NothingWritten(before, all); }
      while workchan != [] || rest != []
        invariant Accounted(before, all, file, workchan + rest)
        invariant closed || capacity == 0 ==> rest == []
        decreases |workchan| + |rest|, |rest|
      {
        hide Accounted;
        var sends: bool :| (workchan == [] ==> sends) && (|workchan| >= capacity ==> !sends);
        if sends && rest != [] {
          assert workchan + [rest[0]] + rest[1..] == workchan + rest;
          Send(rest[0]);
          rest := rest[1..];
        } else if workchan != [] {
          LineWritten(before, all, file, workchan + rest);
          assert (workchan + rest)[0] == workchan[0] && (workchan + rest)[1..] == workchan[1..] + rest;
          Receive();
        }
      }
      assert workchan + rest == [];
      AllWritten(before, all, file);
      closed := true;
    }
  }

  /** Of all records, those that are not left have been written after what was in the file before. */
  ghost predicate Accounted(before: seq<Line>, all: seq<Peer>, file: seq<Line>, left: seq<Peer>) {
    && |left| <= |all| && left == all[|all| - |left|..]
    && file == before + DataLines(all[..|all| - |left|])
  }

  lemma NothingWritten(before: seq<Line>, all: seq<Peer>)
    ensures Accounted(before, all, before, all)
  {
  }

  lemma LineWritten(before: seq<Line>, all: seq<Peer>, file: seq<Line>, left: seq<Peer>)
    requires Accounted(before, all, file, left) && left != []
    ensures Accounted(before, all, file + [Data(left[0])], left[1..])
  {
    var at := |all| - |left|;
    assert left[0] == all[at];
    assert DataLines(all[..at + 1]) == DataLines(all[..at]) + [Data(all[at])];
  }

  lemma AllWritten(before: seq<Line>, all: seq<Peer>, file: seq<Line>)
    requires Accounted(before, all, file, [])
    ensures file == before + DataLines(all)
  {
    assert all[..|all|] == all;
  }

  lemma OthersStay(s: State, t: nat, attempts: seq<Attempt>)
    requires t in s.live && s.live[t].place.Collecting?
    ensures var s' := GatheredState(s, t, attempts);
            && s'.docs == s.docs && s'.writes == s.writes && s'.channel == s.channel && t in s'.live
            && (s'.live[t].place.Sending? || s'.live[t].place.Storing?)
            && (s'.live[t].place.Sending? <==> Collect(s.live[t].peer, attempts).1)
            && s'.live[t].peer == Judge(Collect(s.live[t].peer, attempts).0, s'.live[t].place.Sending?, s.now)
            && (s'.live[t].place.Sending? ==>
                  var s'' := SentState(s', t);
                  && s''.docs == s.docs && s''.writes == s.writes && s''.channel == s.channel + [s'.live[t].peer]
                  && t in s''.live && s''.live[t].place.Storing? && s''.live[t].peer == s'.live[t].peer)
  {
    hide Collect, Judge, Refused;
  }

  lemma StoringWrites(s: State, t: nat, outcome: Outcome)
    requires t in s.live && s.live[t].place.Storing?
    ensures var (s', p) := (StoredState(s, t, outcome), s.live[t].peer);
            && s'.channel == s.channel
            && s'.docs == (if !Applied(outcome) then s.docs
                           else if p.score <= SCORE_BAD then Removed(s.docs, p.id)
                           else Replaced(s.docs, p, s.writes + 1))
            && s'.writes == if Applied(outcome) && p.score > SCORE_BAD && p.id in s.docs then s.writes + 1 else s.writes
  {
  }

  /** A job: collect the node's information, send a record if that worked, and write the document back
      or delete it. Run undisturbed, it is the machine's steps Gather, Send (if connectable) and Store;
      it is blocked, with the record in hand and nothing written, exactly if the machine's step Send is
      not enabled because the output channel is full. */
  method UpdatePeerInfo(c: Config, store: MongoStore, output: Output, peer: PeerRecord, order: seq<Client>,
        attempts: seq<Attempt>, now: int, outcome: Outcome, ghost s: State, ghost t: nat)
    returns (blocked: bool)
    requires IsOrder(order) && |attempts| == c.retries && !output.closed && output.capacity == c.concurrency
    requires t in s.live && s.live[t].place.Collecting? && s.live[t].peer == peer.Value() && s.now == now
    requires s.docs == store.docs && s.writes == store.writes && s.channel == output.workchan
    modifies peer, store, output`workchan
    ensures var gathered := GatheredState(s, t, attempts);
            && (blocked <==> gathered.live[t].place.Sending? && !Enabled(c, gathered, Send(t)))
            && (blocked ==>
                  && store.docs == gathered.docs && store.writes == gathered.writes
                  && output.workchan == gathered.channel && peer.Value() == gathered.live[t].peer)
            && (!blocked ==>
                  var sent := if gathered.live[t].place.Sending? then SentState(gathered, t) else gathered;
                  var stored := StoredState(sent, t, outcome);
                  && store.docs == stored.docs && store.writes == stored.writes
                  && output.workchan == stored.channel && peer.Value() == sent.live[t].peer)
  {
    hide IsOrder, Collect, Refused, Succeeds, Carries, GatheredState, SentState, StoredState;
    OthersStay(s, t, attempts);
    ghost var gathered := GatheredState(s, t, attempts);
    assert gathered.live[t].place.Sending? ==> (Enabled(c, gathered, Send(t)) <==> |s.channel| < c.concurrency);
    hide Enabled;
    ghost var sent := if gathered.live[t].place.Sending? then SentState(gathered, t) else gathered;
    StoringWrites(sent, t, outcome);
    assert attempts[..c.retries] == attempts;
    var isConnectable := CollectNodeInfo(peer, order, c.retries, attempts);
    if isConnectable {
      peer.SetConnectionStatus(true, now);
      peer.score := SCORE_GOOD;
      peer.lastConnected := now;
      if |output.workchan| >= output.capacity {
        return true;
      }
      output.Send(peer.Value());
    } else {
      peer.score := peer.score - 1;
    }
    blocked := false;
    if peer.score <= SCORE_BAD {
      if outcome.Done? || outcome.applied {
        store.Delete(peer.id);
      }
    } else if outcome.Done? || outcome.applied {
      store.Update(peer.Value());
    }
  }

  /** The jobs that the first `n` peers of a batch lead to: those whose update the store has confirmed. */
  function Jobs(peers: seq<Peer>, times: seq<int>, outcomes: seq<Outcome>, n: nat): seq<Peer>
    requires n <= |peers| <= |times| && |peers| <= |outcomes|
  {
    if n == 0 then []
    else
      var before := Jobs(peers, times, outcomes, n - 1);
      if outcomes[n - 1].Done? then before + [peers[n - 1].(lastUpdated := times[n - 1])] else before
  }

  lemma JobsMore(peers: seq<Peer>, times: seq<int>, outcomes: seq<Outcome>, n: nat)
    requires n < |peers| <= |times| && |peers| <= |outcomes|
    ensures Jobs(peers, times, outcomes, n + 1) == Jobs(peers, times, outcomes, n)
              + if outcomes[n].Done? then [peers[n].(lastUpdated := times[n])] else []
  {
  }

  /** Documents and number of writes once the first `n` peers of a batch have been updated. */
  function Updated(docs: Documents, writes: nat, peers: seq<Peer>, times: seq<int>, outcomes: seq<Outcome>,
        n: nat): (Documents, nat)
    requires n <= |peers| <= |times| && |peers| <= |outcomes|
  {
    if n == 0 then (docs, writes)
    else
      var (before, count) := Updated(docs, writes, peers, times, outcomes, n - 1);
      if !Applied(outcomes[n - 1]) then (before, count)
      else
        (Replaced(before, peers[n - 1].(lastUpdated := times[n - 1]), count + 1),
         if peers[n - 1].id in before then count + 1 else count)
  }

  /** Each peer whose update was applied has its selection time and is otherwise what was listed; no
      other document has changed, and none has come or gone. */
  lemma {:induction false} OnlySelectionTimes(docs: Documents, writes: nat, peers: seq<Peer>, times: seq<int>,
        outcomes: seq<Outcome>, n: nat)
    requires n <= |peers| <= |times| && |peers| <= |outcomes|
    requires forall i, j :: 0 <= i < j < |peers| ==> peers[i].id != peers[j].id
    requires forall i :: 0 <= i < |peers| ==> peers[i].id in docs
    ensures var docs' := Updated(docs, writes, peers, times, outcomes, n).0;
            && docs'.Keys == docs.Keys
            && (forall i :: 0 <= i < n && Applied(outcomes[i]) ==>
                  docs'[peers[i].id].peer == peers[i].(lastUpdated := times[i]))
            && (forall id :: id in docs && (forall i :: 0 <= i < n && Applied(outcomes[i]) ==> peers[i].id != id) ==>
                  docs'[id] == docs[id])
  {
    if n > 0 {
      OnlySelectionTimes(docs, writes, peers, times, outcomes, n - 1);
      var docs', docs'' := Updated(docs, writes, peers, times, outcomes, n - 1).0,
            Updated(docs, writes, peers, times, outcomes, n).0;
      assert peers[n - 1].id in docs;
      forall id | id in docs && forall i :: 0 <= i < n && Applied(outcomes[i]) ==> peers[i].id != id
        ensures docs''[id] == docs[id]
      {
        assert Applied(outcomes[n - 1]) ==> peers[n - 1].id != id;
      }
    }
  }

  function Ids(peers: seq<Peer>): seq<ID> {
    seq(|peers|, i requires 0 <= i < |peers| => peers[i].id)
  }

  /** How a round ends: after its last peer, giving up at a cancelled context, or waiting for room in the
      jobs channel. In the last two cases a peer has been updated that has not become a job. */
  datatype Ending = Completed | GaveUp | Blocked

  function Sent(done: nat, ending: Ending): nat
    requires !ending.Completed? ==> done > 0
  {
    if ending.Completed? then done else done - 1
  }

  /** The round ends at the first confirmed peer after which it finds the context cancelled, or else the
      channel full, `room` being the number of jobs that the channel takes. */
  ghost predicate EndsRight(outcomes: seq<Outcome>, cancelled: seq<bool>, room: nat, done: nat, ending: Ending,
        jobs: nat) {
    && done <= |outcomes| == |cancelled| && jobs <= room
    && (!ending.Completed? ==> done > 0 && outcomes[done - 1].Done?)
    && (ending.GaveUp? ==> cancelled[done - 1])
    && (ending.Blocked? ==> !cancelled[done - 1] && jobs == room)
    && (forall i :: 0 <= i < Sent(done, ending) && outcomes[i].Done? ==> !cancelled[i])
  }

  lemma OnePeerOn(outcomes: seq<Outcome>, cancelled: seq<bool>, room: nat, done: nat, jobs: nat)
    requires done < |outcomes| && EndsRight(outcomes, cancelled, room, done, Completed, jobs)
    ensures !outcomes[done].Done? ==> EndsRight(outcomes, cancelled, room, done + 1, Completed, jobs)
    ensures outcomes[done].Done? && cancelled[done] ==> EndsRight(outcomes, cancelled, room, done + 1, GaveUp, jobs)
    ensures outcomes[done].Done? && !cancelled[done] && jobs < room ==>
              EndsRight(outcomes, cancelled, room, done + 1, Completed, jobs + 1)
    ensures outcomes[done].Done? && !cancelled[done] && jobs == room ==>
              EndsRight(outcomes, cancelled, room, done + 1, Blocked, jobs)
  {
  }

  /** The selector's round: `times` are its clock readings, `outcomes` the store's answers and `cancelled`
      what it sees of the context, peer by peer; `yielded` says where the cursor fails, if it does, and
      the channel takes `room` jobs before a send blocks for good. The batch is what the store lists;
      each peer in turn gets its selection time and, when the store confirms, becomes a job; an error
      skips that peer only. */
  method SelectPendingAndExecute(c: Config, store: MongoStore, now: int, yielded: Option<nat>, times: seq<int>,
        outcomes: seq<Outcome>, cancelled: seq<bool>, room: nat)
    returns (peers: seq<Peer>, jobs: seq<Peer>, done: nat, ending: Ending)
    requires |times| == |outcomes| == |cancelled| == c.concurrency
    requires forall id :: id in store.docs ==> store.docs[id].peer.id == id
    modifies store
    ensures IsPart(old(store.docs), now - c.updateFreq, c.concurrency, Ids(peers))
    ensures yielded.None? ==> IsListing(old(store.docs), now - c.updateFreq, c.concurrency, Ids(peers))
    ensures forall i :: 0 <= i < |peers| ==>
              peers[i].id in old(store.docs) && peers[i] == old(store.docs)[peers[i].id].peer
    ensures done <= |peers| <= c.concurrency
    ensures (store.docs, store.writes) == Updated(old(store.docs), old(store.writes), peers, times, outcomes, done)
    ensures EndsRight(outcomes, cancelled, room, done, ending, |jobs|)
    ensures ending.Completed? ==> done == |peers|
    ensures jobs == Jobs(peers, times, outcomes, Sent(done, ending))
  {
    hide IsPart, IsListing;
    var before := store.docs;
    var ids := store.ListForJob(now - c.updateFreq, c.concurrency, yielded);
    ListingIsDistinct(before, now - c.updateFreq, c.concurrency, ids);
    peers := seq(|ids|, i requires 0 <= i < |ids| => before[ids[i]].peer);
    assert Ids(peers) == ids;
    jobs, done, ending := [], 0, Completed;
    ghost var writes := store.writes;
    while done < |peers| && ending.Completed?
      invariant done <= |peers|
      invariant (store.docs, store.writes) == Updated(before, writes, peers, times, outcomes, done)
      invariant EndsRight(outcomes, cancelled, room, done, ending, |jobs|)
      invariant !ending.Completed? ==> done > 0
      invariant jobs == Jobs(peers, times, outcomes, Sent(done, ending))
      decreases |peers| - done
    {
      assert |jobs| <= room;
      hide Replaced, Jobs, EndsRight;
      JobsMore(peers, times, outcomes, done);
      OnePeerOn(outcomes, cancelled, room, done, |jobs|);
      var req := peers[done].(lastUpdated := times[done]);
      if outcomes[done].Done? || outcomes[done].applied {
        store.Update(req);
      }
      if outcomes[done].Done? {
        if cancelled[done] {
          ending := GaveUp;
        } else if |jobs| < room {
          jobs := jobs + [req];
        } else {
          ending := Blocked;
        }
      }
      done := done + 1;
    }
  }

  lemma ListingIsDistinct(docs: Documents, before: int, limit: nat, ids: seq<ID>)
    requires IsPart(docs, before, limit, ids)
    ensures |ids| <= limit && forall i :: 0 <= i < |ids| ==> ids[i] in docs
    ensures forall i, j :: 0 <= i < j < |ids| ==> ids[i] != ids[j]
  {
    assert forall i :: 0 <= i < |ids| ==> Due(docs, before, ids[i]);
  }
}
