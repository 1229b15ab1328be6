/** store/peerstore/mongo/mongo.go: the collection of peer documents, keyed by peer ID. */
module PeerStores {
  import opened Machine
  import opened Peers

  /** A document, and the number of the write that put it there. */
  datatype Stored = Stored(peer: Peer, version: nat)

  type Documents = map<ID, Stored>

  /** InsertOne, for an ID that was looked up and not found. */
  function Inserted(docs: Documents, p: Peer, version: nat): Documents {
    if p.id in docs then docs else docs[p.id := Stored(p, version)]
  }

  /** ReplaceOne without upsert: a document that is gone stays gone. */
  function Replaced(docs: Documents, p: Peer, version: nat): Documents {
    if p.id in docs then docs[p.id := Stored(p, version)] else docs
  }

  function Removed(docs: Documents, id: ID): Documents {
    docs - {id}
  }

  predicate Due(docs: Documents, before: int, id: ID) {
    id in docs && docs[id].peer.lastUpdated < before
  }

  function Age(docs: Documents, id: ID): int
    requires id in docs
  {
    docs[id].peer.lastUpdated
  }

  /** Distinct IDs of documents last updated before the given time, no more than the limit, the least
      recently updated first, and none passed over for a younger one. */
  ghost predicate IsPart(docs: Documents, before: int, limit: nat, ids: seq<ID>) {
    && |ids| <= limit
    && (forall i :: 0 <= i < |ids| ==> Due(docs, before, ids[i]))
    && (forall i, j :: 0 <= i < j < |ids| ==> ids[i] != ids[j] && Age(docs, ids[i]) <= Age(docs, ids[j]))
    && (forall id :: Due(docs, before, id) && id !in ids ==> forall i :: 0 <= i < |ids| ==>
          Age(docs, ids[i]) <= Age(docs, id))
  }

  /** A whole answer to the job query: as many as there are, up to the limit. */
  ghost predicate IsListing(docs: Documents, before: int, limit: nat, ids: seq<ID>) {
    && IsPart(docs, before, limit, ids)
    && (forall id :: Due(docs, before, id) && id !in ids ==> |ids| == limit)
  }

  class MongoStore {
    var docs: Documents
    var writes: nat

    constructor ()
      ensures docs == map[] && writes == 0
    {
      docs, writes := map[], 0;
    }

    method Create(p: Peer)
      modifies this
      ensures docs == Inserted(old(docs), p, old(writes) + 1)
      ensures writes == if p.id in old(docs) then old(writes) else old(writes) + 1
    {
      if p.id !in docs {
        writes := writes + 1;
        docs := docs[p.id := Stored(p, writes)];
      }
    }

    method Update(p: Peer)
      modifies this
      ensures docs == Replaced(old(docs), p, old(writes) + 1)
      ensures writes == if p.id in old(docs) then old(writes) + 1 else old(writes)
    {
      if p.id in docs {
        writes := writes + 1;
        docs := docs[p.id := Stored(p, writes)];
      }
    }

    method Delete(id: ID)
      modifies this`docs
      ensures docs == Removed(old(docs), id)
    {
      docs := docs - {id};
    }

    /** Sorting by age and cutting off at the limit, as repeated selection of an oldest document, and
        then the loop over the cursor. A cursor that fails, after `yielded` documents, just ends it. */
    method ListForJob(before: int, limit: nat, yielded: Option<nat>) returns (ids: seq<ID>)
      ensures IsPart(docs, before, limit, ids)
      ensures yielded.None? || |ids| < yielded.value ==> IsListing(docs, before, limit, ids)
      ensures yielded.Some? ==> |ids| <= yielded.value
    {
      var found := [];
      var left := set id | id in docs && Due(docs, before, id);
      while |found| < limit && left != {}
        invariant |found| <= limit
        invariant IsSelection(docs, before, found, left)
        decreases left
      {
        hide IsSelection, Due;
        OnlyDue(docs, before, found, left);
        var next := PickOldest(docs, left);
        SelectionGrows(docs, before, found, left, next);
        left := left - {next};
        found := found + [next];
      }
      SelectionIsListing(docs, before, limit, found, left);
      hide IsPart, IsListing;
      ids := [];
      while |ids| < |found| && (yielded.None? || |ids| < yielded.value)
        invariant |ids| <= |found| && ids == found[..|ids|]
        invariant yielded.Some? ==> |ids| <= yielded.value
      {
        ids := ids + [found[|ids|]];
      }
      PartOfListing(docs, before, limit, found, |ids|);
      assert |ids| == |found| ==> ids == found;
    }
  }

  lemma SelectionIsListing(docs: Documents, before: int, limit: nat, ids: seq<ID>, left: set<ID>)
    requires IsSelection(docs, before, ids, left) && |ids| <= limit && (|ids| == limit || left == {})
    ensures IsListing(docs, before, limit, ids)
  {
  }

  lemma PartOfListing(docs: Documents, before: int, limit: nat, ids: seq<ID>, n: nat)
    requires IsListing(docs, before, limit, ids) && n <= |ids|
    ensures IsPart(docs, before, limit, ids[..n])
  {
    var part := ids[..n];
    forall id | Due(docs, before, id) && id !in part
      ensures forall i :: 0 <= i < |part| ==> Age(docs, part[i]) <= Age(docs, id)
    {
      if id in ids {
        var j :| 0 <= j < |ids| && ids[j] == id;
        assert j >= n;
      }
    }
  }

  /** The IDs selected so far are the oldest of those due, and the others are left. */
  ghost predicate IsSelection(docs: Documents, before: int, ids: seq<ID>, left: set<ID>) {
    && (forall id :: Due(docs, before, id) <==> id in left || id in ids)
    && (forall id :: id in left ==> id in docs)
    && (forall i :: 0 <= i < |ids| ==> ids[i] !in left && Due(docs, before, ids[i]))
    && (forall i, j :: 0 <= i < j < |ids| ==> ids[i] != ids[j] && Age(docs, ids[i]) <= Age(docs, ids[j]))
    && (forall i, id :: 0 <= i < |ids| && id in left ==> Age(docs, ids[i]) <= Age(docs, id))
  }

  lemma OnlyDue(docs: Documents, before: int, ids: seq<ID>, left: set<ID>)
    requires IsSelection(docs, before, ids, left)
    ensures forall id :: id in left ==> id in docs
  {
  }

  lemma SelectionGrows(docs: Documents, before: int, ids: seq<ID>, left: set<ID>, next: ID)
    requires IsSelection(docs, before, ids, left) && next in left
    requires forall id :: id in left ==> id in docs && Age(docs, next) <= Age(docs, id)
    ensures IsSelection(docs, before, ids + [next], left - {next})
  {
    var ids' := ids + [next];
    forall id
      ensures Due(docs, before, id) <==> id in left - {next} || id in ids'
    {
      assert id in ids' <==> id in ids || id == next;
    }
  }

  method PickOldest(docs: Documents, ids: set<ID>) returns (oldest: ID)
    requires ids != {} && forall id :: id in ids ==> id in docs
    ensures oldest in ids && forall id :: id in ids ==> Age(docs, oldest) <= Age(docs, id)
  {
    OldestExists(docs, ids);
    oldest :| oldest in ids && forall id :: id in ids ==> Age(docs, oldest) <= Age(docs, id);
  }

  lemma {:induction false} OldestExists(docs: Documents, ids: set<ID>)
    requires ids != {} && forall id :: id in ids ==> id in docs
    ensures exists oldest :: oldest in ids && forall id :: id in ids ==> Age(docs, oldest) <= Age(docs, id)
    decreases ids
  {
    var some :| some in ids;
    var others := ids - {some};
    if others == {} {
      assert ids == {some};
    } else {
      OldestExists(docs, others);
      var o :| o in others && forall id :: id in others ==> Age(docs, o) <= Age(docs, id);
      var oldest := if Age(docs, o) <= Age(docs, some) then o else some;
      assert oldest in ids && forall id :: id in ids ==> Age(docs, oldest) <= Age(docs, id);
    }
  }
}
