/**
 The pet trackers near the water bowl: who is there, for how long, and how the water drunk is shared out.
 */
module WaterSplit {
  import opened Common

  const WORD := 0x1_0000_0000
  const SLOTS := 20
  const ID_LENGTH := 31
  const TIMEOUT := 5000
  const PERIOD := 100

  datatype Device = Device(
    id: string, totalTime: nat, time: nat, disableTime: nat, diffTime: nat, enabled: bool, intake: nat)

  datatype Slot = Empty | Used(device: Device)

  predicate Words(d: Device) {
    d.totalTime < WORD && d.time < WORD && d.disableTime < WORD && d.diffTime < WORD && d.intake < WORD
  }

  // -------------------------------------------------------------------- what one slot goes through

  function Disabled(d: Device): Device {
    d.(totalTime := (d.totalTime + d.time) % WORD, diffTime := d.time, enabled := false, time := 0)
  }

  function DisabledSlot(o: Slot): Slot {
    if o.Used? && o.device.enabled then Used(Disabled(o.device)) else o
  }

  /** A contributor's part of the water, computed in 64 bits and cut to 32. */
  function Share(time: nat, weight: nat, total: nat): nat
    requires total > 0
  {
    (time * weight) / total % WORD
  }

  function SharedSlot(o: Slot, weight: nat, total: nat): Slot
    requires total > 0
  {
    if o.Used? && o.device.diffTime > 0 then
      Used(o.device.(intake := (o.device.intake + Share(o.device.diffTime, weight, total)) % WORD, diffTime := 0))
    else o
  }

  function TickedSlot(o: Slot): Slot {
    if o.Used? && o.device.enabled then
      var late := o.device.(disableTime := (o.device.disableTime + PERIOD) % WORD);
      Used(if late.disableTime >= TIMEOUT then Disabled(late) else late)
    else o
  }

  // ------------------------------------------------------------------------------- all the slots

  function DiffOf(o: Slot): nat {
    if o.Used? then o.device.diffTime else 0
  }

  function SumDiff(s: seq<Slot>): nat {
    if s == [] then 0 else SumDiff(s[..|s| - 1]) + DiffOf(s[|s| - 1])
  }

  /** How many have a time to settle. */
  function Contributors(s: seq<Slot>): nat {
    if s == [] then 0 else Contributors(s[..|s| - 1]) + if DiffOf(s[|s| - 1]) > 0 then 1 else 0
  }

  /** What the shares come to, when times are divided by the given total. */
  function SumShares(s: seq<Slot>, weight: nat, total: nat): nat
    requires total > 0
  {
    if s == [] then 0 else SumShares(s[..|s| - 1], weight, total) + Share(DiffOf(s[|s| - 1]), weight, total)
  }

  function AllDisabled(s: seq<Slot>): (r: seq<Slot>)
    ensures |r| == |s|
  {
    seq(|s|, i requires 0 <= i < |s| => DisabledSlot(s[i]))
  }

  function AllShared(s: seq<Slot>, weight: nat, total: nat): (r: seq<Slot>)
    requires total > 0
    ensures |r| == |s|
  {
    seq(|s|, i requires 0 <= i < |s| => SharedSlot(s[i], weight, total))
  }

  /** The slots and the water of nobody known, after a settlement. The total time is a 32-bit sum. */
  function Settled(s: seq<Slot>, unknown: nat, weight: nat): (r: (seq<Slot>, nat))
    ensures |r.0| == |s|
  {
    var off := AllDisabled(s);
    var total := SumDiff(off) % WORD;
    if total == 0 then (off, (unknown + weight) % WORD) else (AllShared(off, weight, total), unknown)
  }

  /** What a settlement hands out to the devices. */
  function Handed(s: seq<Slot>, weight: nat): nat {
    var total := SumDiff(s) % WORD;
    if total == 0 then 0 else SumShares(s, weight, total)
  }

  // ------------------------------------------------------------------------------- the arithmetic

  lemma Cancel(a: nat, b: nat, c: nat)
    requires a * c < b * c
    ensures a < b
  {
  }

  lemma QuotientAtMost(a: nat, b: nat, q: nat)
    requires b > 0 && a <= q * b
    ensures a / b <= q
  {
  }

  /** A part of the total time gets at most all the water, so that nothing is cut off. */
  lemma ShareIsQuotient(time: nat, weight: nat, total: nat)
    requires 0 < total && time <= total && weight < WORD
    ensures Share(time, weight, total) == time * weight / total <= weight
  {
    MulOrder(time, total, weight);
    assert total * weight == weight * total;
    QuotientAtMost(time * weight, total, weight);
  }

  /** Who was there longer gets no less. */
  lemma LongerGetsNoLess(time: nat, longer: nat, weight: nat, total: nat)
    requires 0 < total && time <= longer <= total && weight < WORD
    ensures Share(time, weight, total) <= Share(longer, weight, total)
  {
    ShareIsQuotient(time, weight, total);
    ShareIsQuotient(longer, weight, total);
    MulOrder(time, longer, weight);
    DivisionBounds(longer * weight, total);
    DivisionBounds(time * weight, total);
    var q := longer * weight / total;
    assert (q + 1) * total == q * total + total;
    Cancel(time * weight / total, q + 1, total);
  }

  /** The shares times the total are the times of the weight, short of less than one total for each contributor. */
  predicate Between(shares: nat, sum: nat, n: nat, weight: nat, total: nat)
    requires total > 0
  {
    shares * total <= sum * weight <= shares * total + n * (total - 1)
  }

  lemma BetweenNext(shares: nat, sum: nat, n: nat, time: nat, weight: nat, total: nat)
    requires total > 0 && Between(shares, sum, n, weight, total)
    ensures Between(shares + time * weight / total, sum + time, n + 1, weight, total)
  {
  }

  lemma ZeroShare(weight: nat, total: nat)
    requires total > 0
    ensures Share(0, weight, total) == 0
  {
  }

  lemma {:induction false} SharesTimesTotal(s: seq<Slot>, weight: nat, total: nat)
    requires 0 < total && weight < WORD && SumDiff(s) <= total
    ensures Between(SumShares(s, weight, total), SumDiff(s), Contributors(s), weight, total)
  {
    if s != [] {
      var before, d := s[..|s| - 1], DiffOf(s[|s| - 1]);
      SharesTimesTotal(before, weight, total);
      if d > 0 {
        ShareIsQuotient(d, weight, total);
        BetweenNext(SumShares(before, weight, total), SumDiff(before), Contributors(before), d, weight, total);
      } else {
        ZeroShare(weight, total);
      }
    }
  }

  lemma BetweenBounds(shares: nat, n: nat, weight: nat, total: nat)
    requires 0 < total && 0 < n && Between(shares, total, n, weight, total)
    ensures shares <= weight < shares + n
  {
  }

  /** At most all the water is handed out, and less than one unit per contributor is lost. */
  ghost predicate Conserves(s: seq<Slot>, weight: nat) {
    Contributors(s) > 0 ==> Handed(s, weight) <= weight < Handed(s, weight) + Contributors(s)
  }

  lemma {:induction false} ContributorsMean(s: seq<Slot>)
    ensures Contributors(s) == 0 <==> SumDiff(s) == 0
    ensures Contributors(s) <= |s| && Contributors(s) <= SumDiff(s)
  {
    if s != [] {
      ContributorsMean(s[..|s| - 1]);
    }
  }

  lemma SharesAreFair(s: seq<Slot>, weight: nat, total: nat, n: nat)
    requires total == SumDiff(s) && n == Contributors(s) && 0 < total && 0 < n && weight < WORD
    ensures SumShares(s, weight, total) <= weight < SumShares(s, weight, total) + n
  {
    SharesTimesTotal(s, weight, total);
    BetweenBounds(SumShares(s, weight, total), n, weight, total);
  }

  lemma ConservesWithoutOverflow(s: seq<Slot>, weight: nat)
    requires SumDiff(s) < WORD && weight < WORD
    ensures Conserves(s, weight)
  {
    ContributorsMean(s);
    var total := SumDiff(s);
    if total > 0 {
      SharesAreFair(s, weight, total, Contributors(s));
      assert total % WORD == total;
    }
  }

  /** With as much water as the wrapped total, every contributor is given their time in water. */
  lemma {:induction false} SharesAreTimes(s: seq<Slot>, total: nat)
    requires 0 < total && forall i :: 0 <= i < |s| ==> DiffOf(s[i]) < WORD
    ensures SumShares(s, total, total) == SumDiff(s)
  {
    if s != [] {
      var before, d := s[..|s| - 1], DiffOf(s[|s| - 1]);
      assert s == before + [s[|s| - 1]];
      SharesAreTimes(before, total);
      ShareIsTime(d, total);
    }
  }

  lemma ShareIsTime(time: nat, total: nat)
    requires 0 < total && time < WORD
    ensures Share(time, total, total) == time
  {
    var q := time * total / total;
    DivisionBounds(time * total, total);
    assert (q + 1) * total == q * total + total && (time + 1) * total == time * total + total;
    Cancel(q, time + 1, total);
    Cancel(time, q + 1, total);
  }

  /** A settlement conserves the water, whatever its amount, if and only if the times add up in 32 bits. */
  lemma ConservesIff(s: seq<Slot>)
    requires |s| <= SLOTS && forall i :: 0 <= i < |s| ==> DiffOf(s[i]) < WORD
    ensures (forall weight: nat :: weight < WORD ==> Conserves(s, weight)) <==> SumDiff(s) < WORD
  {
    if SumDiff(s) < WORD {
      forall weight: nat | weight < WORD
        ensures Conserves(s, weight)
      {
        ConservesWithoutOverflow(s, weight);
      }
    } else {
      ContributorsMean(s);
      var total := SumDiff(s) % WORD;
      if total > 0 {
        SharesAreTimes(s, total);
        assert !Conserves(s, total);
      } else {
        assert Handed(s, WORD - 1) == 0;
        assert !Conserves(s, WORD - 1);
      }
    }
  }

  // ------------------------------------------------------------------------- a whole settlement

  function IntakeOf(o: Slot): nat {
    if o.Used? then o.device.intake else 0
  }

  /** By how much a 32-bit meter has gone up, the way a reader of it takes the difference. */
  function Growth(before: nat, after: nat): nat {
    (after - before) % WORD
  }

  /** What all the meters have gone up by. */
  function SumGrowth(s: seq<Slot>, t: seq<Slot>): nat
    requires |s| == |t|
  {
    if s == [] then 0
    else SumGrowth(s[..|s| - 1], t[..|s| - 1]) + Growth(IntakeOf(s[|s| - 1]), IntakeOf(t[|s| - 1]))
  }

  lemma SlotGrowsByShare(o: Slot, weight: nat, total: nat)
    requires 0 < total
    ensures Growth(IntakeOf(o), IntakeOf(SharedSlot(o, weight, total))) == Share(DiffOf(o), weight, total)
    ensures DiffOf(SharedSlot(o, weight, total)) == 0
  {
    ZeroShare(weight, total);
    GrowthOf(IntakeOf(o), Share(DiffOf(o), weight, total));
    hide Growth, Share;
  }

  lemma GrowthOf(before: nat, part: nat)
    requires part < WORD
    ensures Growth(before, (before + part) % WORD) == part
  {
    assert ((before + part) % WORD - before) % WORD == part % WORD;
  }

  lemma {:induction false} MetersGrowByShares(s: seq<Slot>, weight: nat, total: nat)
    requires 0 < total
    ensures SumGrowth(s, AllShared(s, weight, total)) == SumShares(s, weight, total)
  {
    if s != [] {
      var before, last := s[..|s| - 1], s[|s| - 1];
      assert AllShared(s, weight, total)[..|s| - 1] == AllShared(before, weight, total);
      MetersGrowByShares(before, weight, total);
      SlotGrowsByShare(last, weight, total);
    }
  }

  lemma TimesAreSettled(s: seq<Slot>, weight: nat, total: nat)
    requires 0 < total
    ensures forall i :: 0 <= i < |s| ==> DiffOf(AllShared(s, weight, total)[i]) == 0
  {
  }

  /** Disabling moves no water. */
  lemma {:induction false} GrowthAfterDisabling(s: seq<Slot>, t: seq<Slot>)
    requires |s| == |t|
    ensures SumGrowth(AllDisabled(s), t) == SumGrowth(s, t)
    ensures SumGrowth(s, AllDisabled(s)) == 0
  {
    if s != [] {
      var before, last := s[..|s| - 1], s[|s| - 1];
      assert AllDisabled(s)[..|s| - 1] == AllDisabled(before);
      GrowthAfterDisabling(before, t[..|s| - 1]);
    }
  }

  lemma NobodyHasTime(s: seq<Slot>)
    requires SumDiff(s) == 0
    ensures forall i :: 0 <= i < |s| ==> DiffOf(s[i]) == 0
  {
  }

  /**
   The water that comes in shows up in the devices' meters and that of nobody known, be they about to wrap or not:
   all of it with no contributor, else all but less than one unit per contributor; and every time is settled.
   */
  lemma SettlementAccounts(s: seq<Slot>, unknown: nat, weight: nat)
    requires weight < WORD && SumDiff(AllDisabled(s)) < WORD
    ensures var (after, n) := (Settled(s, unknown, weight), Contributors(AllDisabled(s)));
            var grown := SumGrowth(s, after.0);
            && (n == 0 ==> grown == 0 && Growth(unknown, after.1) == weight)
            && (n > 0 ==> after.1 == unknown && grown <= weight < grown + n)
            && forall i :: 0 <= i < |after.0| ==> DiffOf(after.0[i]) == 0
  {
    var off := AllDisabled(s);
    var total := SumDiff(off);
    ContributorsMean(off);
    SettledIs(s, unknown, weight);
    if total > 0 {
      GrowthAfterDisabling(s, AllShared(off, weight, total));
      MetersGrowByShares(off, weight, total);
      SharesAreFair(off, weight, total, Contributors(off));
      TimesAreSettled(off, weight, total);
    } else {
      GrowthAfterDisabling(s, off);
      NobodyHasTime(off);
    }
  }

  lemma SettledIs(s: seq<Slot>, unknown: nat, weight: nat)
    requires SumDiff(AllDisabled(s)) < WORD
    ensures var off := AllDisabled(s);
            Settled(s, unknown, weight)
              == if SumDiff(off) == 0 then (off, (unknown + weight) % WORD)
                 else (AllShared(off, weight, SumDiff(off)), unknown)
  {
    assert SumDiff(AllDisabled(s)) % WORD == SumDiff(AllDisabled(s));
  }

  /** The time a settlement counts for a slot: an enabled device's own, else what it was disabled with. */
  function TimeOf(o: Slot): nat {
    if o.Used? then if o.device.enabled then o.device.time else o.device.diffTime else 0
  }

  /** The exact share of each: the water in proportion to its time, rounded down, and its other fields settled. */
  lemma EachShare(s: seq<Slot>, unknown: nat, weight: nat, i: nat)
    requires weight < WORD && i < |s| && 0 < SumDiff(AllDisabled(s)) < WORD
    ensures var total, was, slot := SumDiff(AllDisabled(s)), s[i], Settled(s, unknown, weight).0[i];
            var grown := Growth(IntakeOf(was), IntakeOf(slot));
            && grown * total <= TimeOf(was) * weight < grown * total + total
            && (was.Empty? ==> slot.Empty?)
            && (was.Used? ==>
                  var d := was.device;
                  slot == Used(d.(intake := IntakeOf(slot), diffTime := 0, enabled := false,
                                  totalTime := if d.enabled then (d.totalTime + d.time) % WORD else d.totalTime,
                                  time := if d.enabled then 0 else d.time)))
  {
    var off, total := AllDisabled(s), SumDiff(AllDisabled(s));
    SettledIs(s, unknown, weight);
    assert DiffOf(off[i]) == TimeOf(s[i]) && IntakeOf(off[i]) == IntakeOf(s[i]);
    PartOfSum(off, i);
    ShareIsQuotient(TimeOf(s[i]), weight, total);
    DivisionBounds(TimeOf(s[i]) * weight, total);
    SlotGrowsByShare(off[i], weight, total);
  }

  lemma {:induction false} PartOfSum(s: seq<Slot>, i: nat)
    requires i < |s|
    ensures DiffOf(s[i]) <= SumDiff(s)
  {
    if i < |s| - 1 {
      PartOfSum(s[..|s| - 1], i);
    }
  }

  /** A time sum of exactly 2^32 settles as though nobody had come: the water goes to nobody known, the times stay. */
  lemma RoundSumIsNobody(s: seq<Slot>, unknown: nat, weight: nat)
    requires SumDiff(AllDisabled(s)) == WORD
    ensures Settled(s, unknown, weight) == (AllDisabled(s), (unknown + weight) % WORD)
  {
  }

  /** Disabled twice before a settlement, a device is settled for its last stretch only. */
  lemma OnlyTheLastStretch(d: Device, again: nat)
    requires d.enabled && d.time > 0
    ensures var back := Disabled(d).(enabled := true, time := again);
            Disabled(back).diffTime == again && Disabled(back).totalTime == (d.totalTime + d.time + again) % WORD
  {
  }

  // ------------------------------------------------------- what a device is settled for

  /** Word from the device, 100 ms of contribution, a timeout, and a settlement that settles its time. */
  datatype Happening = Comes | Gathers | Goes | Settles

  function Happens(d: Device, e: Happening): Device {
    match e
    case Comes => d.(enabled := true, disableTime := 0)
    case Gathers => if d.enabled then d.(time := (d.time + PERIOD) % WORD) else d
    case Goes => if d.enabled then Disabled(d) else d
    case Settles => (if d.enabled then Disabled(d) else d).(diffTime := 0)
  }

  /** The device after a run, latest event last. */
  function Lived(d: Device, events: seq<Happening>): Device {
    if events == [] then d else Happens(Lived(d, events[..|events| - 1]), events[|events| - 1])
  }

  /** The time it has gathered since the latest settlement, and the part of it that was overwritten. */
  function Owed(d: Device, events: seq<Happening>): nat {
    if events == [] || events[|events| - 1].Settles? then 0
    else
      var rest, last := events[..|events| - 1], events[|events| - 1];
      Owed(d, rest) + if last.Gathers? && Lived(d, rest).enabled then PERIOD else 0
  }

  function Lost(d: Device, events: seq<Happening>): nat {
    if events == [] || events[|events| - 1].Settles? then 0
    else
      var rest, last := events[..|events| - 1], events[|events| - 1];
      Lost(d, rest) + if Overwrites(Lived(d, rest), last) then Lived(d, rest).diffTime else 0
  }

  /** A device is disabled while an earlier stretch is not settled: that one is gone, however long the new one is. */
  predicate Overwrites(d: Device, e: Happening) {
    (e.Goes? || e.Settles?) && d.enabled && d.diffTime > 0
  }

  predicate Unworked(d: Device) {
    d.time == 0 && d.diffTime == 0
  }

  lemma {:induction false} OffIsTimeless(d: Device, events: seq<Happening>)
    requires Unworked(d)
    ensures !Lived(d, events).enabled ==> Lived(d, events).time == 0
  {
    if events != [] {
      OffIsTimeless(d, events[..|events| - 1]);
    }
  }

  lemma {:induction false} TimeIsAccounted(d: Device, events: seq<Happening>)
    requires Unworked(d) && Owed(d, events) < WORD
    ensures var l := Lived(d, events);
            l.diffTime + l.time + Lost(d, events) == Owed(d, events)
  {
    OffIsTimeless(d, events);
    if events != [] && !events[|events| - 1].Settles? {
      TimeIsAccounted(d, events[..|events| - 1]);
    }
  }

  /** Event k overwrites an earlier stretch, and no settlement has come since. */
  predicate LosesAt(d: Device, events: seq<Happening>, k: nat) {
    && k < |events| && Overwrites(Lived(d, events[..k]), events[k])
    && forall i :: k <= i < |events| ==> !events[i].Settles?
  }

  lemma {:induction false} LostIff(d: Device, events: seq<Happening>)
    ensures Lost(d, events) > 0 <==> exists k :: LosesAt(d, events, k)
  {
    if events != [] && !events[|events| - 1].Settles? {
      var rest, n := events[..|events| - 1], |events| - 1;
      LostIff(d, rest);
      forall k: nat | k < n
        ensures LosesAt(d, events, k) == LosesAt(d, rest, k)
      {
        assert rest[..k] == events[..k];
      }
      if Overwrites(Lived(d, rest), events[n]) {
        assert LosesAt(d, events, n);
      }
      if k: nat :| LosesAt(d, rest, k) {
        assert LosesAt(d, events, k);
      }
    }
  }

  /**
   Over every run: the next settlement settles a device for all it has gathered since the latest one, if and only if
   no time it was disabled an earlier stretch was still unsettled, the settlement's own disabling included.
   */
  lemma SettledInFullIff(d: Device, events: seq<Happening>)
    requires Unworked(d) && Owed(d, events) < WORD
    ensures var l := Lived(d, events);
            (if l.enabled then Disabled(l) else l).diffTime == Owed(d, events)
            <==> !Overwrites(l, Settles) && forall k :: !LosesAt(d, events, k)
  {
    TimeIsAccounted(d, events);
    OffIsTimeless(d, events);
    LostIff(d, events);
  }

  // ------------------------------------------------------------------------------------ arrivals

  function StoredId(id: string): string {
    if |id| <= ID_LENGTH then id else id[..ID_LENGTH]
  }

  function Named(o: Slot, id: string): bool {
    o.Used? && o.device.id == id
  }

  /** The first slot at or after i with the id, and the first one empty; |s| where there is none. */
  function FindId(s: seq<Slot>, id: string, i: nat): (r: nat)
    requires i <= |s|
    ensures i <= r <= |s| && (forall k :: i <= k < r ==> !Named(s[k], id)) && (r < |s| ==> Named(s[r], id))
    decreases |s| - i
  {
    if i == |s| || Named(s[i], id) then i else FindId(s, id, i + 1)
  }

  function FindEmpty(s: seq<Slot>, i: nat): (r: nat)
    requires i <= |s|
    ensures i <= r <= |s| && (forall k :: i <= k < r ==> s[k].Used?) && (r < |s| ==> s[r].Empty?)
    decreases |s| - i
  {
    if i == |s| || s[i].Empty? then i else FindEmpty(s, i + 1)
  }

  function Newcomer(id: string): Device {
    Device(StoredId(id), 0, 0, 0, 0, true, 0)
  }

  function Arrived(s: seq<Slot>, id: string): (r: seq<Slot>)
    ensures |r| == |s|
  {
    var known, free := FindId(s, id, 0), FindEmpty(s, 0);
    if known < |s| then s[known := Used(s[known].device.(enabled := true, disableTime := 0))]
    else if free < |s| then s[free := Used(Newcomer(id))]
    else s
  }

  ghost predicate FirstNamed(s: seq<Slot>, i: nat, id: string) {
    i < |s| && Named(s[i], id) && forall k :: 0 <= k < i ==> !Named(s[k], id)
  }

  ghost predicate FirstFree(s: seq<Slot>, i: nat) {
    i < |s| && s[i].Empty? && forall k :: 0 <= k < i ==> s[k].Used?
  }

  /**
   What word from a device does to each slot: the first with its id is enabled and its silence starts over; if none
   has it, the first empty one takes the newcomer, enabled and with nothing on its meters; every other slot stays.
   */
  lemma ArrivalIff(s: seq<Slot>, id: string, i: nat)
    requires i < |s|
    ensures Arrived(s, id)[i] ==
      if FirstNamed(s, i, id) then Used(s[i].device.(enabled := true, disableTime := 0))
      else if FirstFree(s, i) && forall k :: 0 <= k < |s| ==> !Named(s[k], id) then
        Used(Device(if |id| <= ID_LENGTH then id else id[..ID_LENGTH], 0, 0, 0, 0, true, 0))
      else s[i]
  {
    var known, free := FindId(s, id, 0), FindEmpty(s, 0);
    assert FirstNamed(s, i, id) <==> i == known;
    assert FirstFree(s, i) <==> i == free;
    assert known == |s| <==> forall k :: 0 <= k < |s| ==> !Named(s[k], id);
  }

  ghost predicate DistinctIds(s: seq<Slot>) {
    forall i, j :: 0 <= i < j < |s| && s[i].Used? && s[j].Used? ==> s[i].device.id != s[j].device.id
  }

  /** No slot holds an id longer than its field. */
  ghost predicate IdsFit(s: seq<Slot>) {
    forall i :: 0 <= i < |s| && s[i].Used? ==> |s[i].device.id| <= ID_LENGTH
  }

  lemma ReturnKeepsIds(s: seq<Slot>, i: nat)
    requires DistinctIds(s) && IdsFit(s) && i < |s| && s[i].Used?
    ensures var r := s[i := Used(s[i].device.(enabled := true, disableTime := 0))]; DistinctIds(r) && IdsFit(r)
  {
  }

  lemma NewcomerKeepsIdsIff(s: seq<Slot>, i: nat, id: string)
    requires DistinctIds(s) && IdsFit(s) && i < |s| && s[i].Empty?
    ensures var r := s[i := Used(Newcomer(id))];
            IdsFit(r) && (DistinctIds(r) <==> FindId(s, StoredId(id), 0) == |s|)
  {
    var same, r := FindId(s, StoredId(id), 0), s[i := Used(Newcomer(id))];
    if same < |s| {
      assert r[same] == s[same] && r[i].device.id == r[same].device.id;
    } else {
      assert forall k :: 0 <= k < |s| && s[k].Used? ==> !Named(s[k], StoredId(id));
    }
  }

  /**
   An arrival keeps the ids apart unless the id is too long for its field, there is room, and the part that fits
   is taken already: a long id is never recognised.
   */
  lemma ArrivalKeepsDistinctIff(s: seq<Slot>, id: string)
    requires DistinctIds(s) && IdsFit(s)
    ensures IdsFit(Arrived(s, id))
    ensures DistinctIds(Arrived(s, id))
            <==> |id| <= ID_LENGTH || FindEmpty(s, 0) == |s| || FindId(s, StoredId(id), 0) == |s|
  {
    var known, free := FindId(s, id, 0), FindEmpty(s, 0);
    if known < |s| {
      ReturnKeepsIds(s, known);
    } else if free < |s| {
      NewcomerKeepsIdsIff(s, free, id);
    }
  }

  // ------------------------------------------------------------------------------------- timeout

  function TickedTimes(o: Slot, n: nat): Slot {
    if n == 0 then o else TickedSlot(TickedTimes(o, n - 1))
  }

  /** Without word from it a device stays enabled exactly until its silence has lasted five seconds. */
  lemma {:induction false} EnabledUntilTimeout(d: Device, n: nat)
    requires Words(d) && d.enabled && d.disableTime < TIMEOUT
    ensures var after := TickedTimes(Used(d), n);
            && after.Used?
            && (after.device.enabled <==> n == 0 || d.disableTime + PERIOD * n < TIMEOUT)
            && after.device == (if after.device.enabled then d.(disableTime := d.disableTime + PERIOD * n)
                                else Disabled(d).(disableTime := after.device.disableTime))
  {
    if n > 0 {
      EnabledUntilTimeout(d, n - 1);
    }
  }

  // ----------------------------------------------------------------------------------- the object

  class Tracker {
    const slots: array<Slot>
    var unknownIntake: nat

    ghost predicate Valid()
      reads this, slots
    {
      slots.Length == SLOTS && forall i :: 0 <= i < SLOTS && slots[i].Used? ==> Words(slots[i].device)
    }

    constructor ()
      ensures Valid() && fresh(slots) && unknownIntake == 0
      ensures forall i :: 0 <= i < SLOTS ==> slots[i] == Empty
    {
      slots := new Slot[SLOTS](_ => Empty);
      unknownIntake := 0;
    }

    method DisableDevice(i: int)
      requires Valid() && (0 <= i < SLOTS ==> slots[i].Used?)
      modifies slots
      ensures Valid()
      ensures slots[..] == if 0 <= i < SLOTS then old(slots[..])[i := Used(Disabled(old(slots[i].device)))]
                           else old(slots[..])
    {
      if i >= SLOTS || i < 0 {
        return;
      }
      var d := slots[i].device;
      d := d.(totalTime := (d.totalTime + d.time) % WORD);
      d := d.(diffTime := d.time);
      d := d.(enabled := false);
      d := d.(time := 0);
      slots[i] := Used(d);
    }

    method AddTime(i: nat) returns (added: bool)
      requires Valid() && i < SLOTS
      modifies slots
      ensures Valid() && added == (old(slots[i]).Used? && old(slots[i]).device.enabled)
      ensures slots[..] == if !added then old(slots[..])
                           else var d := old(slots[i]).device;
                                old(slots[..])[i := Used(d.(time := (d.time + PERIOD) % WORD))]
    {
      added := false;
      if slots[i].Used? {
        if slots[i].device.enabled {
          slots[i] := Used(slots[i].device.(time := (slots[i].device.time + PERIOD) % WORD));
          added := true;
        }
      }
    }

    method DisableEach()
      requires Valid()
      modifies slots
      ensures Valid() && slots[..] == AllDisabled(old(slots[..]))
    {
      for i := 0 to SLOTS
        invariant Valid()
        invariant forall k :: 0 <= k < i ==> slots[k] == DisabledSlot(old(slots[k]))
        invariant forall k :: i <= k < SLOTS ==> slots[k] == old(slots[k])
      {
        if slots[i].Used? {
          if slots[i].device.enabled {
            DisableDevice(i);
          }
        }
      }
    }

    method AddUpTimes() returns (total: nat)
      requires Valid()
      ensures total == SumDiff(slots[..]) % WORD
    {
      total := 0;
      for i := 0 to SLOTS
        invariant total == SumDiff(slots[..i]) % WORD
      {
        assert slots[..i + 1][..i] == slots[..i];
        if slots[i].Used? {
          total := (total + slots[i].device.diffTime) % WORD;
        }
      }
      assert slots[..SLOTS] == slots[..];
    }

    method HandOut(weight: nat, total: nat)
      requires Valid() && 0 < total && weight < WORD
      modifies slots
      ensures Valid() && slots[..] == AllShared(old(slots[..]), weight, total)
    {
      for i := 0 to SLOTS
        invariant Valid()
        invariant forall k :: 0 <= k < i ==> slots[k] == SharedSlot(old(slots[k]), weight, total)
        invariant forall k :: i <= k < SLOTS ==> slots[k] == old(slots[k])
      {
        if slots[i].Used? && slots[i].device.diffTime > 0 {
          var d := slots[i].device;
          var water := (d.diffTime * weight) / total % WORD;
          d := d.(intake := (d.intake + water) % WORD);
          d := d.(diffTime := 0);
          slots[i] := Used(d);
        }
      }
    }

    method EndIntake(weight: nat)
      requires Valid() && weight < WORD
      modifies this, slots
      ensures Valid()
      ensures (slots[..], unknownIntake) == Settled(old(slots[..]), old(unknownIntake), weight)
    {
      DisableEach();
      var total := AddUpTimes();
      if total == 0 {
        unknownIntake := (unknownIntake + weight) % WORD;
        return;
      }
      HandOut(weight, total);
    }

    method Arrive(id: string)
      requires Valid()
      modifies slots
      ensures Valid() && slots[..] == Arrived(old(slots[..]), id)
    {
      var target := -1;
      for i := 0 to SLOTS
        invariant slots[..] == old(slots[..])
        invariant forall k :: 0 <= k < i ==> !Named(slots[k], id)
        invariant if target == -1 then forall k :: 0 <= k < i ==> slots[k].Used?
                  else 0 <= target < i && slots[target].Empty? && forall k :: 0 <= k < target ==> slots[k].Used?
      {
        if slots[i].Used? {
          if slots[i].device.id == id {
            assert i == FindId(slots[..], id, 0);
            slots[i] := Used(slots[i].device.(enabled := true, disableTime := 0));
            return;
          }
        } else if target == -1 {
          target := i;
        }
      }
      assert FindId(slots[..], id, 0) == SLOTS;
      if target == -1 {
        return;
      }
      assert target == FindEmpty(slots[..], 0);
      slots[target] := Used(Newcomer(id));
    }

    /** Every 100 ms. */
    method Tick()
      requires Valid()
      modifies slots
      ensures Valid()
      ensures forall k :: 0 <= k < SLOTS ==> slots[k] == TickedSlot(old(slots[k]))
    {
      for i := 0 to SLOTS
        invariant Valid()
        invariant forall k :: 0 <= k < i ==> slots[k] == TickedSlot(old(slots[k]))
        invariant forall k :: i <= k < SLOTS ==> slots[k] == old(slots[k])
      {
        if slots[i].Used? {
          if slots[i].device.enabled {
            var d := slots[i].device;
            slots[i] := Used(d.(disableTime := (d.disableTime + PERIOD) % WORD));
            if slots[i].device.disableTime >= TIMEOUT {
              DisableDevice(i);
            }
          }
        }
      }
    }
  }
}
