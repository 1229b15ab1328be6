/** utils/fork/fork.go: the fork digest that goes with the current epoch. */
module Forks {
  import opened Peers
  import opened Clocks

  datatype Upgrade = Upgrade(forkEpoch: int, supported: bool, forkDigest: Digest)

  datatype ForkConfig = ForkConfig(altair: Upgrade, bellatrix: Upgrade, capella: Upgrade, deneb: Upgrade,
        electra: Upgrade)

  const ZERO_DIGEST: Digest := [0, 0, 0, 0]

  /** The upgrades in the order in which they were designed to follow each other. */
  function Upgrades(c: ForkConfig): (u: seq<Upgrade>)
    ensures |u| == 5
  {
    [c.altair, c.bellatrix, c.capella, c.deneb, c.electra]
  }

  predicate InForce(u: Upgrade, epoch: int) {
    u.supported && epoch >= u.forkEpoch
  }

  /** The number of the last upgrade in force at an epoch, or zero. */
  function Reached(upgrades: seq<Upgrade>, epoch: int): (n: nat)
    ensures n <= |upgrades|
    ensures n > 0 ==> InForce(upgrades[n - 1], epoch)
    ensures forall i :: n <= i < |upgrades| ==> !InForce(upgrades[i], epoch)
  {
    if upgrades == [] then 0
    else if InForce(upgrades[|upgrades| - 1], epoch) then |upgrades|
    else Reached(upgrades[..|upgrades| - 1], epoch)
  }

  /** The digest the schedule has for an epoch. */
  function Scheduled(c: ForkConfig, epoch: int): Digest {
    var n := Reached(Upgrades(c), epoch);
    if n == 0 then ZERO_DIGEST else Upgrades(c)[n - 1].forkDigest
  }

  lemma ScheduledIs(c: ForkConfig, epoch: int, n: nat)
    requires n <= 5 && (n > 0 ==> InForce(Upgrades(c)[n - 1], epoch))
    requires forall i :: n <= i < 5 ==> !InForce(Upgrades(c)[i], epoch)
    ensures Scheduled(c, epoch) == if n == 0 then ZERO_DIGEST else Upgrades(c)[n - 1].forkDigest
  {
    hide Reached;
    assert Reached(Upgrades(c), epoch) == n;
  }

  lemma ReachedNeverFalls(upgrades: seq<Upgrade>, epoch: int, later: int)
    requires epoch <= later
    ensures Reached(upgrades, epoch) <= Reached(upgrades, later)
  {
    var n := Reached(upgrades, epoch);
    assert n > 0 ==> InForce(upgrades[n - 1], later);
  }

  /** Of the supported upgrades that have been activated, none was activated after the `n`th. */
  ghost predicate IsLatest(upgrades: seq<Upgrade>, epoch: int, n: nat)
    requires n <= |upgrades|
  {
    forall i :: 0 <= i < |upgrades| && InForce(upgrades[i], epoch) ==>
      n > 0 && InForce(upgrades[n - 1], epoch) && upgrades[i].forkEpoch <= upgrades[n - 1].forkEpoch
  }

  ghost predicate AlwaysLatest(upgrades: seq<Upgrade>) {
    forall epoch: int :: IsLatest(upgrades, epoch, Reached(upgrades, epoch))
  }

  /** A supported upgrade that is scheduled before one listed earlier is followed by one that is
      scheduled together with that. Upgrades scheduled in order have no such pair at all. */
  ghost predicate NoneOvertaken(upgrades: seq<Upgrade>) {
    forall i, j :: 0 <= i < j < |upgrades| && upgrades[i].supported && upgrades[j].supported
                   && upgrades[j].forkEpoch < upgrades[i].forkEpoch ==>
      exists k :: j < k < |upgrades| && upgrades[k].supported && upgrades[k].forkEpoch == upgrades[i].forkEpoch
  }

  /** The upgrade chosen is the latest one activated, at every epoch, exactly if the schedule has no
      supported upgrade overtaken by a later one. */
  lemma ChosenIsLatestIff(upgrades: seq<Upgrade>)
    ensures AlwaysLatest(upgrades) <==> NoneOvertaken(upgrades)
  {
    hide IsLatest, NoneOvertaken, Reached;
    if NoneOvertaken(upgrades) {
      forall epoch: int
        ensures IsLatest(upgrades, epoch, Reached(upgrades, epoch))
      {
        ChosenLatestIf(upgrades, epoch);
      }
    } else if AlwaysLatest(upgrades) {
      ChosenLatestOnlyIf(upgrades);
    }
  }

  lemma ChosenLatestIf(upgrades: seq<Upgrade>, epoch: int)
    requires NoneOvertaken(upgrades)
    ensures IsLatest(upgrades, epoch, Reached(upgrades, epoch))
  {
    hide Reached;
    var n := Reached(upgrades, epoch);
    forall i | 0 <= i < |upgrades| && InForce(upgrades[i], epoch)
      ensures n > 0 && upgrades[i].forkEpoch <= upgrades[n - 1].forkEpoch
    {
      assert i < n;
    }
  }

  lemma ChosenLatestOnlyIf(upgrades: seq<Upgrade>)
    requires AlwaysLatest(upgrades)
    ensures NoneOvertaken(upgrades)
  {
    hide Reached;
    forall i, j | 0 <= i < j < |upgrades| && upgrades[i].supported && upgrades[j].supported
                  && upgrades[j].forkEpoch < upgrades[i].forkEpoch
      ensures exists k :: j < k < |upgrades| && upgrades[k].supported && upgrades[k].forkEpoch == upgrades[i].forkEpoch
    {
      var epoch := upgrades[i].forkEpoch;
      var n := Reached(upgrades, epoch);
      assert IsLatest(upgrades, epoch, n);
      assert InForce(upgrades[i], epoch) && InForce(upgrades[j], epoch);
      assert j < n - 1 && upgrades[n - 1].supported && upgrades[n - 1].forkEpoch == epoch;
    }
  }

  lemma InOrderIsFine(upgrades: seq<Upgrade>, epoch: int)
    requires forall i, j :: 0 <= i < j < |upgrades| ==> upgrades[i].forkEpoch <= upgrades[j].forkEpoch
    ensures IsLatest(upgrades, epoch, Reached(upgrades, epoch))
  {
    ChosenLatestIf(upgrades, epoch);
  }

  /** Whether a supported upgrade has been activated at a time: before genesis and in the first epoch, those
      scheduled for it or earlier; after that, those whose first slot has begun. */
  predicate Active(clock: Clock, u: Upgrade, time: int) {
    && u.supported
    && (u.forkEpoch <= 0
        || clock.genesisTime + u.forkEpoch * clock.slotsPerEpoch * clock.secondsPerSlot <= time)
  }

  lemma ActiveIff(clock: Clock, u: Upgrade, time: int)
    requires clock.Valid()
    ensures InForce(u, clock.EpochForSlot(clock.CurrentSlot(time))) <==> Active(clock, u, time)
  {
    var slot := clock.CurrentSlot(time);
    var (epoch, first) := (clock.EpochForSlot(slot), u.forkEpoch * clock.slotsPerEpoch);
    EpochIsUnique(clock, slot, epoch);
    CurrentSlotIsUnique(clock, time, slot);
    MultiplyStrict(u.forkEpoch, epoch, clock.slotsPerEpoch);
    MultiplyStrict(u.forkEpoch, epoch + 1, clock.slotsPerEpoch);
    MultiplyStrict(first, slot, clock.secondsPerSlot);
    MultiplyStrict(first, slot + 1, clock.secondsPerSlot);
    MultiplyStrict(0, u.forkEpoch, clock.slotsPerEpoch);
    MultiplyStrict(0, first, clock.secondsPerSlot);
  }

  /** The digest is that of the newest upgrade among the active ones, in the order Altair, Bellatrix,
      Capella, Deneb, Electra; or zero, if none is active. */
  ghost predicate OfNewest(c: ForkConfig, active: Upgrade -> bool, digest: Digest) {
    && (active(c.electra) ==> digest == c.electra.forkDigest)
    && (active(c.deneb) && !active(c.electra) ==> digest == c.deneb.forkDigest)
    && (active(c.capella) && !active(c.deneb) && !active(c.electra) ==> digest == c.capella.forkDigest)
    && (active(c.bellatrix) && !active(c.capella) && !active(c.deneb) && !active(c.electra) ==>
          digest == c.bellatrix.forkDigest)
    && (active(c.altair) && !active(c.bellatrix) && !active(c.capella) && !active(c.deneb) && !active(c.electra) ==>
          digest == c.altair.forkDigest)
    && (!active(c.altair) && !active(c.bellatrix) && !active(c.capella) && !active(c.deneb) && !active(c.electra) ==>
          digest == [0, 0, 0, 0])
  }

  lemma ScheduledOfNewest(c: ForkConfig, epoch: int)
    ensures OfNewest(c, u => InForce(u, epoch), Scheduled(c, epoch))
  {
    hide Reached;
    var u := Upgrades(c);
    assert u[0] == c.altair && u[1] == c.bellatrix && u[2] == c.capella && u[3] == c.deneb && u[4] == c.electra;
  }

  predicate IsUpgrade(c: ForkConfig, u: Upgrade) {
    u == c.altair || u == c.bellatrix || u == c.capella || u == c.deneb || u == c.electra
  }

  predicate ScheduledInOrder(c: ForkConfig) {
    c.altair.forkEpoch <= c.bellatrix.forkEpoch <= c.capella.forkEpoch <= c.deneb.forkEpoch <= c.electra.forkEpoch
  }

  /** The upgrade is active, and no active one has a greater activation epoch. */
  ghost predicate IsGreatest(c: ForkConfig, active: Upgrade -> bool, u: Upgrade) {
    && IsUpgrade(c, u) && active(u)
    && forall v :: IsUpgrade(c, v) && active(v) ==> v.forkEpoch <= u.forkEpoch
  }

  /** The digest is that of an active upgrade with the greatest activation epoch, or zero if none is active. */
  ghost predicate OfGreatest(c: ForkConfig, active: Upgrade -> bool, digest: Digest) {
    || (exists u :: IsGreatest(c, active, u) && digest == u.forkDigest)
    || (digest == [0, 0, 0, 0] && forall u :: IsUpgrade(c, u) ==> !active(u))
  }

  /** When the upgrades are scheduled in that order, the newest active one has the greatest epoch. */
  lemma NewestIsGreatest(c: ForkConfig, active: Upgrade -> bool, digest: Digest)
    requires ScheduledInOrder(c) && OfNewest(c, active, digest)
    ensures OfGreatest(c, active, digest)
  {
    var newest := if active(c.electra) then c.electra
                  else if active(c.deneb) then c.deneb
                  else if active(c.capella) then c.capella
                  else if active(c.bellatrix) then c.bellatrix
                  else c.altair;
    if active(newest) {
      assert IsGreatest(c, active, newest);
    }
  }

  lemma NewestAtEpoch(c: ForkConfig, epoch: int)
    ensures var inForce := (u: Upgrade) => u.supported && u.forkEpoch <= epoch;
            && OfNewest(c, inForce, Scheduled(c, epoch))
            && (ScheduledInOrder(c) ==> OfGreatest(c, inForce, Scheduled(c, epoch)))
  {
    hide Scheduled, OfGreatest;
    ScheduledOfNewest(c, epoch);
    if ScheduledInOrder(c) {
      NewestIsGreatest(c, (u: Upgrade) => u.supported && u.forkEpoch <= epoch, Scheduled(c, epoch));
    }
  }

  lemma NewestAtTime(c: ForkConfig, clock: Clock, time: int)
    requires clock.Valid()
    ensures var active := (u: Upgrade) => Active(clock, u, time);
            var digest := Scheduled(c, clock.EpochForSlot(clock.CurrentSlot(time)));
            && OfNewest(c, active, digest) && (ScheduledInOrder(c) ==> OfGreatest(c, active, digest))
  {
    hide Scheduled, InForce, Active, OfGreatest;
    ScheduledOfNewest(c, clock.EpochForSlot(clock.CurrentSlot(time)));
    ActiveIff(clock, c.altair, time);
    ActiveIff(clock, c.bellatrix, time);
    ActiveIff(clock, c.capella, time);
    ActiveIff(clock, c.deneb, time);
    ActiveIff(clock, c.electra, time);
    if ScheduledInOrder(c) {
      NewestIsGreatest(c, (u: Upgrade) => Active(clock, u, time),
                       Scheduled(c, clock.EpochForSlot(clock.CurrentSlot(time))));
    }
  }

  /** How often a sequence changes its value, beginning from `first`. */
  function Switches(first: Digest, digests: seq<Digest>): nat
    decreases |digests|
  {
    if digests == [] then 0
    else (if digests[0] != first then 1 else 0) + Switches(digests[0], digests[1..])
  }

  /** Over rising epochs the digest changes at most once for each upgrade still to come. */
  lemma {:induction false} SwitchesLimited(c: ForkConfig, epoch: int, epochs: seq<int>, digests: seq<Digest>)
    requires |epochs| == |digests| && forall i :: 0 <= i < |epochs| ==> digests[i] == Scheduled(c, epochs[i])
    requires Increasing(epochs) && (epochs != [] ==> epoch <= epochs[0])
    ensures Switches(Scheduled(c, epoch), digests) <= 5 - Reached(Upgrades(c), epoch)
    decreases |epochs|
  {
    if epochs != [] {
      ReachedNeverFalls(Upgrades(c), epoch, epochs[0]);
      SwitchesLimited(c, epochs[0], epochs[1..], digests[1..]);
    }
  }

  class ForkChoice {
    const clock: Clock
    const forkConfig: ForkConfig
    var currentEpoch: int
    var currentForkDigest: Digest

    ghost predicate Valid()
      reads this
    {
      clock.Valid() && currentForkDigest == Scheduled(forkConfig, currentEpoch)
    }

    /** Start: the digest of the epoch at the time of the start. */
    constructor (clock: Clock, forkConfig: ForkConfig, now: int)
      requires clock.Valid()
      ensures Valid() && this.clock == clock && this.forkConfig == forkConfig
      ensures currentEpoch == clock.EpochForSlot(clock.CurrentSlot(now))
    {
      this.clock, this.forkConfig := clock, forkConfig;
      currentEpoch := clock.EpochForSlot(clock.CurrentSlot(now));
      currentForkDigest := ZERO_DIGEST;
      new;
      currentForkDigest := GetForkForEpoch(currentEpoch);
    }

    /** The epoch asked for is ignored: the answer is for the current epoch. */
    method GetForkForEpoch(epoch: int) returns (digest: Digest)
      ensures digest == Scheduled(forkConfig, currentEpoch)
      ensures var e := currentEpoch;
              var inForce := (u: Upgrade) => u.supported && u.forkEpoch <= e;
              && OfNewest(forkConfig, inForce, digest)
              && (ScheduledInOrder(forkConfig) ==> OfGreatest(forkConfig, inForce, digest))
    {
      hide Scheduled, OfNewest, OfGreatest;
      NewestAtEpoch(forkConfig, currentEpoch);
      ghost var n := 0;
      digest := ZERO_DIGEST;
      if currentEpoch >= forkConfig.electra.forkEpoch && forkConfig.electra.supported {
        digest, n := forkConfig.electra.forkDigest, 5;
      } else if currentEpoch >= forkConfig.deneb.forkEpoch && forkConfig.deneb.supported {
        digest, n := forkConfig.deneb.forkDigest, 4;
      } else if currentEpoch >= forkConfig.capella.forkEpoch && forkConfig.capella.supported {
        digest, n := forkConfig.capella.forkDigest, 3;
      } else if currentEpoch >= forkConfig.bellatrix.forkEpoch && forkConfig.bellatrix.supported {
        digest, n := forkConfig.bellatrix.forkDigest, 2;
      } else if currentEpoch >= forkConfig.altair.forkEpoch && forkConfig.altair.supported {
        digest, n := forkConfig.altair.forkDigest, 1;
      }
      ScheduledIs(forkConfig, currentEpoch, n);
    }

    /** The loop over the epoch ticker; `digests` records the digest stored after each tick. */
    method MonitorForkChange(epochs: seq<int>) returns (digests: seq<Digest>)
      requires Valid()
      modifies this
      ensures Valid()
      ensures epochs == [] ==> currentEpoch == old(currentEpoch)
      ensures epochs != [] ==> currentEpoch == epochs[|epochs| - 1]
      ensures |digests| == |epochs| && forall i :: 0 <= i < |epochs| ==> digests[i] == Scheduled(forkConfig, epochs[i])
    {
      hide Scheduled;
      digests := [];
      for i := 0 to |epochs|
        invariant Valid()
        invariant currentEpoch == if i == 0 then old(currentEpoch) else epochs[i - 1]
        invariant |digests| == i && forall j :: 0 <= j < i ==> digests[j] == Scheduled(forkConfig, epochs[j])
      {
        currentEpoch := epochs[i];
        var digest := GetForkForEpoch(epochs[i]);
        if digest != currentForkDigest {
          currentForkDigest := digest;
        }
        digests := digests + [currentForkDigest];
      }
    }
  }

  /** From clock readings to the digest: once the tickers have passed everything on, the digest stored
      is that of the epoch of the last reading, and on the way it changed at most five times. */
  method FollowClock(clock: Clock, forkConfig: ForkConfig, start: int, readings: seq<int>)
    returns (choice: ForkChoice, digests: seq<Digest>)
    requires clock.Valid() && NeverEarly(clock, readings) && readings != [] && start <= readings[0]
    ensures choice.currentForkDigest
            == Scheduled(forkConfig, clock.EpochForSlot(clock.CurrentSlot(readings[|readings| - 1])))
    ensures var active := (u: Upgrade) => Active(clock, u, readings[|readings| - 1]);
            && OfNewest(forkConfig, active, choice.currentForkDigest)
            && (ScheduledInOrder(forkConfig) ==> OfGreatest(forkConfig, active, choice.currentForkDigest))
    ensures digests != [] && digests[|digests| - 1] == choice.currentForkDigest
    ensures Switches(Scheduled(forkConfig, clock.EpochForSlot(clock.CurrentSlot(start))), digests) <= 5
  {
    hide Scheduled, NeverEarly, Wait, OfNewest, OfGreatest, Active;
    NewestAtTime(forkConfig, clock, readings[|readings| - 1]);
    choice := new ForkChoice(clock, forkConfig, start);
    var first := choice.currentEpoch;
    var slots := TickSlots(clock, readings);
    var epochs := TickEpochs(clock, slots);
    SlotsFollowTime(clock, start, readings[0]);
    EpochsFollowSlots(clock, clock.CurrentSlot(start), slots[0]);
    digests := choice.MonitorForkChange(epochs);
    SwitchesLimited(forkConfig, first, epochs, digests);
  }
}
