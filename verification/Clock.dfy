/** utils/clock/clock.go: slots and epochs, and the two chained tickers. */
module Clocks {
  datatype Clock = Clock(genesisTime: int, secondsPerSlot: int, slotsPerEpoch: int) {
    predicate Valid() {
      secondsPerSlot > 0 && slotsPerEpoch > 0
    }

    function SlotInSeconds(slot: int): int {
      slot * secondsPerSlot + genesisTime
    }

    function CurrentSlot(currentTime: int): (slot: int)
      requires Valid()
      ensures slot >= 0
    {
      var diff := currentTime - genesisTime;
      if diff < 0 then 0 else diff / secondsPerSlot
    }

    /** Defined for the slots a clock yields, on which Go's truncating division is Euclidean. */
    function EpochForSlot(slot: nat): (epoch: nat)
      requires Valid()
    {
      slot / slotsPerEpoch
    }
  }

  lemma MultiplyStrict(a: int, b: int, k: int)
    requires k > 0
    ensures a < b <==> a * k < b * k
    ensures a <= b <==> a * k <= b * k
  {
  }

  /** From genesis on, the current slot is the one slot whose time span includes the given time; before,
      it is slot 0. */
  lemma CurrentSlotIsUnique(c: Clock, time: int, slot: int)
    requires c.Valid()
    ensures time >= c.genesisTime ==>
              (slot == c.CurrentSlot(time) <==> c.SlotInSeconds(slot) <= time < c.SlotInSeconds(slot + 1))
    ensures time < c.genesisTime ==> (slot == c.CurrentSlot(time) <==> slot == 0)
  {
    if time < c.genesisTime {
      return;
    }
    var diff, k := time - c.genesisTime, c.secondsPerSlot;
    var current := diff / k;
    assert current * k <= diff < (current + 1) * k;
    if slot * k <= diff < (slot + 1) * k {
      MultiplyStrict(slot, current + 1, k);
      MultiplyStrict(current, slot + 1, k);
    }
  }

  /** The epoch of a slot is the one whose slots include it. */
  lemma EpochIsUnique(c: Clock, slot: nat, epoch: int)
    requires c.Valid()
    ensures epoch == c.EpochForSlot(slot) <==> epoch * c.slotsPerEpoch <= slot < (epoch + 1) * c.slotsPerEpoch
  {
    var k := c.slotsPerEpoch;
    var e := slot / k;
    assert e * k <= slot < (e + 1) * k;
    if epoch * k <= slot < (epoch + 1) * k {
      MultiplyStrict(epoch, e + 1, k);
      MultiplyStrict(e, epoch + 1, k);
    }
  }

  /** The seconds that the ticker sleeps after reading the time. */
  function Wait(c: Clock, now: int): int
    requires c.Valid()
  {
    c.SlotInSeconds(c.CurrentSlot(now) + 1) - now
  }

  /** The sleep is positive and ends in the very second in which the next slot begins. */
  lemma SleepEndsWithSlot(c: Clock, now: int)
    requires c.Valid()
    ensures Wait(c, now) > 0
    ensures c.CurrentSlot(now + Wait(c, now)) == c.CurrentSlot(now) + 1
    ensures c.CurrentSlot(now + Wait(c, now) - 1) == c.CurrentSlot(now)
  {
    var (slot, k) := (c.CurrentSlot(now), c.secondsPerSlot);
    var begins := c.SlotInSeconds(slot + 1);
    MultiplyStrict(0, slot + 1, k);
    CurrentSlotIsUnique(c, now, slot);
    CurrentSlotIsUnique(c, begins, slot + 1);
    CurrentSlotIsUnique(c, begins - 1, slot);
  }

  /** The ticker never sleeps less than it asked for. It may sleep longer, and it may have been held up
      by a slow consumer before. */
  ghost predicate NeverEarly(c: Clock, readings: seq<int>)
    requires c.Valid()
  {
    forall i :: 0 <= i < |readings| - 1 ==> readings[i + 1] - readings[i] >= Wait(c, readings[i])
  }

  /** After the sleep a later slot has begun: the next one, unless the sleep was a slot too long. */
  lemma NextSlotBegun(c: Clock, now: int, later: int)
    requires c.Valid() && later - now >= Wait(c, now)
    ensures c.CurrentSlot(later) > c.CurrentSlot(now)
    ensures c.CurrentSlot(later) == c.CurrentSlot(now) + 1 <==> later < c.SlotInSeconds(c.CurrentSlot(now) + 2)
  {
    var (slot, k) := (c.CurrentSlot(now), c.secondsPerSlot);
    MultiplyStrict(0, slot + 1, k);
    assert later >= c.genesisTime;
    CurrentSlotIsUnique(c, later, c.CurrentSlot(later));
    CurrentSlotIsUnique(c, later, slot + 1);
    MultiplyStrict(slot + 1, c.CurrentSlot(later) + 1, k);
  }

  ghost predicate Increasing(s: seq<int>) {
    forall i, j :: 0 <= i < j < |s| ==> s[i] < s[j]
  }

  /** The slot ticker, over the times it reads. Slots increase strictly, even before genesis and behind
      a slow consumer, and one is left out only by a sleep that was a slot too long. */
  method TickSlots(c: Clock, readings: seq<int>) returns (slots: seq<nat>)
    requires c.Valid() && NeverEarly(c, readings)
    ensures |slots| == |readings| && Increasing(slots)
    ensures forall i :: 0 <= i < |slots| ==> slots[i] == c.CurrentSlot(readings[i])
    ensures forall i :: 0 <= i < |slots| - 1 ==>
              (slots[i + 1] == slots[i] + 1 <==> readings[i + 1] < c.SlotInSeconds(slots[i] + 2))
  {
    slots := [];
    for i := 0 to |readings|
      invariant |slots| == i && Increasing(slots)
      invariant forall j :: 0 <= j < i ==> slots[j] == c.CurrentSlot(readings[j])
      invariant forall j :: 0 <= j < i - 1 ==>
                  (slots[j + 1] == slots[j] + 1 <==> readings[j + 1] < c.SlotInSeconds(slots[j] + 2))
    {
      var now := readings[i];
      var currentSlot := c.CurrentSlot(now);
      if i > 0 {
        NextSlotBegun(c, readings[i - 1], now);
      }
      slots := slots + [currentSlot];
    }
  }

  /** The epoch ticker: the epoch of the first slot, and then each epoch that exceeds the last. If no
      slot comes at all, receiving from the closed channel yields slot 0. On increasing slots it yields
      each of their epochs exactly once, in order. */
  method TickEpochs(c: Clock, slots: seq<nat>) returns (epochs: seq<nat>)
    requires c.Valid() && Increasing(slots)
    ensures Increasing(epochs) && epochs != []
    ensures slots == [] ==> epochs == [0]
    ensures slots != [] ==> forall e :: e in epochs <==> exists i :: 0 <= i < |slots| && e == c.EpochForSlot(slots[i])
    ensures slots != [] ==> epochs[0] == c.EpochForSlot(slots[0])
    ensures slots != [] ==> epochs[|epochs| - 1] == c.EpochForSlot(slots[|slots| - 1])
  {
    var currentSlot := if slots == [] then 0 else slots[0];
    var currentEpoch := c.EpochForSlot(currentSlot);
    epochs := [currentEpoch];
    var k := 1;
    while k < |slots|
      invariant slots == [] || 1 <= k <= |slots|
      invariant slots == [] ==> epochs == [0]
      invariant Increasing(epochs) && epochs != []
      invariant slots != [] ==> epochs[0] == c.EpochForSlot(slots[0])
      invariant slots != [] ==> epochs[|epochs| - 1] == currentEpoch == c.EpochForSlot(slots[k - 1])
      invariant slots != [] ==> forall e :: e in epochs <==> exists i :: 0 <= i < k && e == c.EpochForSlot(slots[i])
    {
      var epoch := c.EpochForSlot(slots[k]);
      EpochsFollowSlots(c, slots[k - 1], slots[k]);
      if epoch > currentEpoch {
        currentEpoch := epoch;
        epochs := epochs + [currentEpoch];
      }
      k := k + 1;
    }
  }

  lemma SlotsFollowTime(c: Clock, a: int, b: int)
    requires c.Valid() && a <= b
    ensures c.CurrentSlot(a) <= c.CurrentSlot(b)
  {
    if c.genesisTime <= a {
      var (x, y, k) := ((a - c.genesisTime) / c.secondsPerSlot, (b - c.genesisTime) / c.secondsPerSlot,
            c.secondsPerSlot);
      MultiplyStrict(x, y + 1, k);
    }
  }

  lemma EpochsFollowSlots(c: Clock, a: nat, b: nat)
    requires c.Valid() && a <= b
    ensures c.EpochForSlot(a) <= c.EpochForSlot(b)
  {
    var (x, y, k) := (a / c.slotsPerEpoch, b / c.slotsPerEpoch, c.slotsPerEpoch);
    MultiplyStrict(x, y + 1, k);
  }
}
