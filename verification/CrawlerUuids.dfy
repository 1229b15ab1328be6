/** The UUID of an output record is the hash of the peer's ID and the selection time: no two records
    sent in a run hash the same bytes. */
module CrawlerUuids {
  import opened Machine
  import opened Peers
  import opened PeerStores
  import opened Crawler
  import opened CrawlerDocuments
  import opened CrawlerOutput
  import opened CrawlerRecords
  import opened CrawlerRuns

  /** Go's conversion of an int64 to a uint64. */
  function ToUint64(x: Int64): Uint64 {
    if x < 0 then x + TWO_64 else x
  }

  /** The `n` low bytes of `x`, the least significant first. */
  function LittleEndian(x: nat, n: nat): (bytes: seq<Byte>)
    ensures |bytes| == n
    decreases n
  {
    if n == 0 then [] else [x % 256] + LittleEndian(x / 256, n - 1)
  }

  /** The bytes that are hashed. */
  function Preimage(id: ID, lastUpdated: Int64): seq<Byte> {
    id + LittleEndian(ToUint64(lastUpdated), 8)
  }

  lemma {:induction false} BytesDetermine(x: nat, y: nat, n: nat)
    requires x < Pow(256, n) && y < Pow(256, n)
    requires LittleEndian(x, n) == LittleEndian(y, n)
    ensures x == y
    decreases n
  {
    if n > 0 {
      var a, b := LittleEndian(x / 256, n - 1), LittleEndian(y / 256, n - 1);
      assert ([x % 256] + a)[0] == ([y % 256] + b)[0];
      assert a == ([x % 256] + a)[1..] == ([y % 256] + b)[1..] == b;
      BytesDetermine(x / 256, y / 256, n - 1);
    }
  }

  lemma EightBytes()
    ensures Pow(256, 8) == TWO_64
  {
    assert Pow(256, 2) == 0x1_0000;
    assert Pow(256, 4) == 0x1_0000_0000;
    assert Pow(256, 6) == 0x1_0000_0000_0000;
  }

  lemma {:induction false} ByteAt(x: nat, n: nat, k: nat)
    requires k < n
    ensures Pow(256, k) > 0 && LittleEndian(x, n)[k] == x / Pow(256, k) % 256
    decreases n
  {
    if k > 0 {
      PowPositive(256, k - 1);
      ByteAt(x / 256, n - 1, k - 1);
      DivideTwice(x, 256, Pow(256, k - 1));
    }
  }

  lemma {:induction false} PowSplit(n: nat, k: nat)
    requires k < n
    ensures Pow(256, n) == Pow(256, k) * (256 * Pow(256, n - k - 1))
  {
    if k > 0 {
      PowSplit(n - 1, k - 1);
      Regroup(256, Pow(256, k - 1), 256 * Pow(256, n - k - 1));
    }
  }

  lemma Regroup(a: nat, b: nat, c: nat)
    ensures a * (b * c) == (a * b) * c
  {
  }

  /** Adding 256 to the power of `n` leaves the `n` low bytes what they were. */
  lemma LowBytesStay(x: int, n: nat, k: nat)
    requires k < n
    ensures Pow(256, k) > 0
    ensures (x + Pow(256, n)) / Pow(256, k) % 256 == x / Pow(256, k) % 256
  {
    hide Pow;
    PowPositive(256, k);
    PowSplit(n, k);
    AddMultiple(x, Pow(256, k), Pow(256, n - k - 1));
  }

  lemma AddMultiple(x: int, d: nat, m: nat)
    requires d > 0
    ensures (x + d * (256 * m)) / d % 256 == x / d % 256
  {
    var q := x / d;
    assert q * d <= x < q * d + d;
    Expand(q, 256 * m, d);
    QuotientIs(x + d * (256 * m), d, q + 256 * m);
    assert (q + 256 * m) % 256 == q % 256;
  }

  lemma Expand(q: int, a: int, d: int)
    ensures (q + a) * d == q * d + d * a && (q + a + 1) * d == q * d + d * a + d
  {
  }

  /** The bytes hashed are those of the ID and then eight bytes of the time, in two's complement and the
      least significant first. */
  lemma PreimageBytes(id: ID, time: Int64, k: nat)
    requires k < 8
    ensures |Preimage(id, time)| == |id| + 8 && Preimage(id, time)[..|id|] == id
    ensures Pow(256, k) > 0 && Preimage(id, time)[|id| + k] == time / Pow(256, k) % 256
  {
    hide Pow;
    ByteAt(ToUint64(time), 8, k);
    EightBytes();
    LowBytesStay(time, 8, k);
  }

  /** IDs differ in length, yet the bytes hashed determine both the ID and the time. */
  lemma PreimageDetermines(id: ID, time: Int64, id': ID, time': Int64)
    requires Preimage(id, time) == Preimage(id', time')
    ensures id == id' && time == time'
  {
    var a, b := LittleEndian(ToUint64(time), 8), LittleEndian(ToUint64(time'), 8);
    assert id == (id + a)[..|id + a| - 8] == (id' + b)[..|id' + b| - 8] == id';
    assert a == (id + a)[|id + a| - 8..] == (id' + b)[|id' + b| - 8..] == b;
    EightBytes();
    BytesDetermine(ToUint64(time), ToUint64(time'), 8);
  }

  ghost predicate SelectedSince(start: int, s: State) {
    start <= s.now && forall k :: k in s.issued ==> start <= k.1
  }

  lemma SelectedSinceStep(c: Config, s: State, a: Action, start: int)
    requires SelectedSince(start, s) && Enabled(c, s, a)
    ensures SelectedSince(start, Apply(c, s, a))
  {
    hide Busy, IsListing, IsPart, Inserted, Replaced, Removed, Collect, Judge, Refused;
  }

  lemma {:induction false} SelectedSinceAlong(c: Config, s: State, run: seq<Action>, start: int)
    requires SelectedSince(start, s) && Legal(c, s, run)
    ensures SelectedSince(start, After(c, s, run))
    decreases |run|
  {
    hide Enabled, Apply, SelectedSince;
    if run != [] {
      SelectedSinceStep(c, s, run[0], start);
      SelectedSinceAlong(c, Apply(c, s, run[0]), run[1..], start);
    }
  }

  /** In every run within the range of the clock, all records sent hash different bytes. */
  lemma UuidsNeverRepeat(c: Config, s: State, run: seq<Action>)
    requires Init(s) && Legal(c, s, run)
    requires -TWO_63 <= s.now && After(c, s, run).now < TWO_63
    ensures var sent := After(c, s, run).sent;
            && (forall i :: 0 <= i < |sent| ==> -TWO_63 <= sent[i].lastUpdated < TWO_63)
            && (forall i, j :: 0 <= i < j < |sent| ==>
                  Preimage(sent[i].id, sent[i].lastUpdated) != Preimage(sent[j].id, sent[j].lastUpdated))
  {
    hide Enabled, Apply, DocumentsOk, PipelineOk, Preimage;
    SafeInit(c, s);
    SafeAlong(c, s, run);
    SelectedSinceAlong(c, s, run, s.now);
    var s' := After(c, s, run);
    assert forall i :: 0 <= i < |s'.sent| ==> Key(s'.sent[i]) in s'.issued;
    forall i, j | 0 <= i < j < |s'.sent|
      ensures Preimage(s'.sent[i].id, s'.sent[i].lastUpdated) != Preimage(s'.sent[j].id, s'.sent[j].lastUpdated)
    {
      var p, q := s'.sent[i], s'.sent[j];
      assert Key(p) != Key(q);
      if Preimage(p.id, p.lastUpdated) == Preimage(q.id, q.lastUpdated) {
        PreimageDetermines(p.id, p.lastUpdated, q.id, q.lastUpdated);
      }
    }
  }
}
