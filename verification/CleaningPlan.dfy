/**
 The acts a cleaning is made of, part by part, and what it means that a run has only begun them.
 */
module CleaningPlan {
  import opened CleaningLog
  import opened Common

  // ----------------------------------------------------------------- the scenario

  function Spinning(angle: nat, direction: Direction, speed: nat, timeout: nat): Step {
    Command(ScoopSpin, direction, angle, speed, timeout)
  }

  function Scooping(direction: Direction, timeout: nat): Step {
    Command(ScoopInOut, direction, 0, 0, timeout)
  }

  function Wasting(direction: Direction, timeout: nat): Step {
    Command(WasteCover, direction, 0, 0, timeout)
  }

  function Covering(direction: Direction, speed: nat): Step {
    Command(MainCover, direction, 0, speed, 0)
  }

  function Delays(n: nat): seq<Step> {
    seq(n, i => Slept(false))
  }

  function Ramp(direction: Direction, duty: nat, target: nat): seq<Step>
    decreases target + 10 - duty
  {
    if duty > target then [] else [Covering(direction, duty)] + Ramp(direction, duty + 10, target)
  }

  /** The main cover starts at full speed and then ramps up from 70 or less. */
  function DriveActs(direction: Direction, target: nat): seq<Step> {
    [Covering(direction, 100)] + Ramp(direction, if target < 70 then target else 70, target)
  }

  lemma FullDrive(direction: Direction)
    ensures DriveActs(direction, 100) == [Covering(direction, 100), Covering(direction, 70), Covering(direction, 80),
                                          Covering(direction, 90), Covering(direction, 100)]
  {
  }

  function ReachActs(first: bool): seq<Step> {
    (if first then [Spinning(220, Forward, 140, 5000)] else []) + Delays(50) + [Scooping(Forward, 15000)]
  }

  function DigActs(first: bool): seq<Step> {
    ReachActs(first) + Delays(900) + [Spinning(80, Reverse, 100, 10000)]
  }

  function DumpActs(): seq<Step> {
    [Wasting(Forward, 15000)] + [Scooping(Reverse, CYCLE_RETRACT_MS)] + [Spinning(160, Reverse, 100, 10000)]
    + [Spinning(70, Forward, 100, 5000)]
  }

  /** The scoop goes out a second time when it was not read there. */
  function PutBackActs(again: bool): seq<Step> {
    [Scooping(Forward, 15000)] + if again then [Scooping(Forward, 15000)] else []
  }

  function Retries(n: nat): seq<Step> {
    if n == 0 then [] else Retries(n - 1) + [Wasting(Forward, 3000), Wasting(Reverse, 15000)]
  }

  function CloseWasteActs(first: bool, retries: nat): seq<Step> {
    [Wasting(Reverse, 15000)] + (if first then [Spinning(170, Forward, 140, 5000)] else []) + Retries(retries)
  }

  function CycleActs(first: bool, again: bool, retries: nat): seq<Step> {
    DigActs(first) + DumpActs() + PutBackActs(again) + CloseWasteActs(first, retries)
  }

  function StowActs(): seq<Step> {
    [Scooping(Reverse, 25000)] + [Spinning(0, Reverse, 100, 8000)]
  }

  function SeatActs(inPlace: bool): seq<Step> {
    if inPlace then [] else [Spinning(90, Forward, 100, 10000)] + [Scooping(Reverse, 15000)]
  }

  /** A scoop that is not read in place is brought in once more. */
  function CalibrationActs(inPlace: bool): seq<Step> {
    SeatActs(inPlace) + [Spinning(70, Reverse, 100, 10000)]
  }

  function OpeningActs(): seq<Step> {
    [Command(Plate, Forward, 0, 0, 0)] + DriveActs(Forward, 100)
  }

  function PutAwayActs(inPlace: bool): seq<Step> {
    StowActs() + CalibrationActs(inPlace) + DriveActs(Reverse, 100)
  }

  /** What the sensors decide. */
  datatype Course = Course(again1: bool, retries1: nat, again2: bool, retries2: nat, inPlace: bool)

  /** The whole scenario: opening, two cycles, stowing, calibration, closing. */
  function ScenarioActs(c: Course): seq<Step> {
    OpeningActs() + CycleActs(true, c.again1, c.retries1) + CycleActs(false, c.again2, c.retries2)
    + [Spinning(50, Forward, 100, 8000)] + PutAwayActs(c.inPlace)
  }

  /** The recovery: the waste cover first, the calibration, the scoop and the main cover where they are not in place. */
  function RecoveryActs(closed: bool, scoopIn: bool, coverOpen: bool): seq<Step> {
    (if closed then [] else [Wasting(Reverse, 15000)]) + RecoveryCalibrationActs() + PlaceActs(scoopIn, coverOpen)
  }

  function PlaceActs(scoopIn: bool, coverOpen: bool): seq<Step> {
    (if scoopIn then [] else [Scooping(Reverse, 15000)]) + if coverOpen then DriveActs(Reverse, 100) else []
  }

  function RecoveryCalibrationActs(): seq<Step> {
    [Spinning(75, Forward, 100, 10000)] + [Scooping(Reverse, 15000)] + [Spinning(70, Reverse, 100, 10000)]
  }

  // ------------------------------------------------------------ what has only been begun

  /** The acts so far are the beginning of others. */
  ghost predicate Begins(acts: seq<Step>, whole: seq<Step>) {
    acts <= whole
  }

  /** A stage on the way to the whole: it begins the whole, and so does whatever begins the stage. */
  ghost predicate StageOf(stage: seq<Step>, whole: seq<Step>) {
    && Begins(stage, whole)
    && forall acts :: Begins(acts, stage) ==> Begins(acts, whole)
  }

  lemma LongerIsWhole(stage: seq<Step>, more: seq<Step>)
    ensures StageOf(stage, stage + more)
    ensures StageOf(stage, stage)
  {
  }

  lemma NoMore(s: seq<Step>)
    ensures s + [] == s
  {
  }

  lemma NoMoreBefore(s: seq<Step>)
    ensures [] + s == s
  {
  }

  lemma Stages2(s: seq<Step>, a: seq<Step>, b: seq<Step>)
    ensures (s + a) + b == s + (a + b)
    ensures StageOf(s, s + (a + b)) && StageOf(s + a, s + (a + b)) && StageOf(s + (a + b), s + (a + b))
  {
    Regroup(s, a, b);
    LongerIsWhole(s, a + b);
    LongerIsWhole(s + a, b);
    LongerIsWhole(s + (a + b), []);
  }

  lemma Stages3(s: seq<Step>, a: seq<Step>, b: seq<Step>, c: seq<Step>)
    ensures ((s + a) + b) + c == s + (a + b + c)
    ensures StageOf(s, s + (a + b + c)) && StageOf(s + a, s + (a + b + c)) && StageOf((s + a) + b, s + (a + b + c))
    ensures StageOf(s + (a + b + c), s + (a + b + c))
  {
    Stages2(s, a, b);
    Stages2(s, a + b, c);
    hide Begins;
  }

  lemma Stages4(s: seq<Step>, a: seq<Step>, b: seq<Step>, c: seq<Step>, d: seq<Step>)
    ensures (((s + a) + b) + c) + d == s + (a + b + c + d)
    ensures StageOf(s, s + (a + b + c + d)) && StageOf(s + a, s + (a + b + c + d))
    ensures StageOf((s + a) + b, s + (a + b + c + d)) && StageOf(((s + a) + b) + c, s + (a + b + c + d))
    ensures StageOf(s + (a + b + c + d), s + (a + b + c + d))
  {
    Stages3(s, a, b, c);
    Stages2(s, a + b + c, d);
    hide Begins;
  }

  lemma DelaysNext(s: seq<Step>, n: nat)
    ensures (s + Delays(n)) + [Slept(false)] == s + Delays(n + 1)
  {
  }

  lemma FewerDelays(s: seq<Step>, k: nat, n: nat)
    requires k <= n
    ensures Begins(s + Delays(k), s + Delays(n))
  {
  }

  lemma NextRamp(s: seq<Step>, direction: Direction, duty: nat, target: nat)
    requires duty <= target
    ensures (s + [Covering(direction, duty)]) + Ramp(direction, duty + 10, target) == s + Ramp(direction, duty, target)
  {
    Regroup(s, [Covering(direction, duty)], Ramp(direction, duty + 10, target));
  }

  lemma RampOver(s: seq<Step>, direction: Direction, duty: nat, target: nat)
    requires duty > target
    ensures s + Ramp(direction, duty, target) == s
  {
  }

  lemma DriveStart(s: seq<Step>, direction: Direction, target: nat)
    ensures (s + [Covering(direction, 100)]) + Ramp(direction, if target < 70 then target else 70, target)
         == s + DriveActs(direction, target)
  {
    Regroup(s, [Covering(direction, 100)], Ramp(direction, if target < 70 then target else 70, target));
  }

  lemma RampLength(direction: Direction, duty: nat, target: nat)
    ensures |Ramp(direction, duty, target)| == if duty > target then 0 else 1 + |Ramp(direction, duty + 10, target)|
  {
  }

  lemma DriveParts(direction: Direction, target: nat)
    ensures [Covering(direction, 100)] + Ramp(direction, if target < 70 then target else 70, target)
         == DriveActs(direction, target)
    ensures |DriveActs(direction, target)| >= 1
  {
  }

  lemma ReachStages(s: seq<Step>, first: bool)
    ensures var start := if first then s + [Spinning(220, Forward, 140, 5000)] else s;
            var whole := s + ReachActs(first);
            && (start + Delays(50)) + [Scooping(Forward, 15000)] == whole
            && StageOf(start, whole) && StageOf(start + Delays(50), whole) && StageOf(whole, whole)
  {
    var spin := if first then [Spinning(220, Forward, 140, 5000)] else [];
    NoMore(s);
    Stages3(s, spin, Delays(50), [Scooping(Forward, 15000)]);
  }

  lemma DigStages(s: seq<Step>, first: bool)
    ensures var whole := s + DigActs(first);
            && ((s + ReachActs(first)) + Delays(900)) + [Spinning(80, Reverse, 100, 10000)] == whole
            && StageOf(s + ReachActs(first), whole) && StageOf((s + ReachActs(first)) + Delays(900), whole)
            && StageOf(whole, whole)
  {
    Stages3(s, ReachActs(first), Delays(900), [Spinning(80, Reverse, 100, 10000)]);
  }

  lemma DumpStages(s: seq<Step>)
    ensures var ready, whole := s + [Wasting(Forward, 15000)], s + DumpActs();
            var taken := ready + [Scooping(Reverse, CYCLE_RETRACT_MS)];
            && (taken + [Spinning(160, Reverse, 100, 10000)]) + [Spinning(70, Forward, 100, 5000)] == whole
            && StageOf(ready, whole) && StageOf(taken, whole)
            && StageOf(taken + [Spinning(160, Reverse, 100, 10000)], whole) && StageOf(whole, whole)
  {
    Stages4(s, [Wasting(Forward, 15000)], [Scooping(Reverse, CYCLE_RETRACT_MS)], [Spinning(160, Reverse, 100, 10000)],
            [Spinning(70, Forward, 100, 5000)]);
  }

  lemma PutBackStages(s: seq<Step>)
    ensures s + PutBackActs(false) == s + [Scooping(Forward, 15000)]
    ensures s + PutBackActs(true) == (s + [Scooping(Forward, 15000)]) + [Scooping(Forward, 15000)]
  {
    Regroup(s, [Scooping(Forward, 15000)], [Scooping(Forward, 15000)]);
    NoMore([Scooping(Forward, 15000)]);
  }

  lemma CloseStart(s: seq<Step>, first: bool)
    ensures var closing := s + [Wasting(Reverse, 15000)];
            (if first then closing + [Spinning(170, Forward, 140, 5000)] else closing) == s + CloseWasteActs(first, 0)
  {
    var a, b := [Wasting(Reverse, 15000)], if first then [Spinning(170, Forward, 140, 5000)] else [];
    NoMore(a + b);
    NoMore(s + a);
    Regroup(s, a, b);
  }

  lemma CloseGroup(first: bool)
    ensures var shut := [Wasting(Reverse, 15000)];
            (if first then shut + [Spinning(170, Forward, 140, 5000)] else shut) == CloseWasteActs(first, 0)
  {
  }

  lemma CloseBegins(first: bool)
    ensures var group := CloseWasteActs(first, 2);
            && [Wasting(Reverse, 15000)] <= group && CloseWasteActs(first, 0) <= group
            && (first ==> [Wasting(Reverse, 15000)] + [Spinning(170, Forward, 140, 5000)] <= group)
  {
  }

  lemma CloseGoesOn(first: bool, retries: nat)
    requires retries <= 1
    ensures var again := (CloseWasteActs(first, retries) + [Wasting(Forward, 3000)]) + [Wasting(Reverse, 15000)];
            again == CloseWasteActs(first, retries + 1) && again <= CloseWasteActs(first, 2)
  {
    CloseNext([], first, retries);
    NoMoreBefore(CloseWasteActs(first, retries));
    NoMoreBefore(CloseWasteActs(first, retries + 1));
  }

  lemma CloseNext(s: seq<Step>, first: bool, retries: nat)
    ensures ((s + CloseWasteActs(first, retries)) + [Wasting(Forward, 3000)]) + [Wasting(Reverse, 15000)]
         == s + CloseWasteActs(first, retries + 1)
  {
    var a, b := [Wasting(Reverse, 15000)], if first then [Spinning(170, Forward, 140, 5000)] else [];
    var w, v := [Wasting(Forward, 3000)], [Wasting(Reverse, 15000)];
    assert w + v == [Wasting(Forward, 3000), Wasting(Reverse, 15000)];
    Regroup(s + (a + b + Retries(retries)), w, v);
    Regroup(s, a + b + Retries(retries), w + v);
    Regroup(a + b, Retries(retries), w + v);
  }

  lemma CycleStages(s: seq<Step>, first: bool, again: bool, retries: nat)
    ensures var dug, whole := s + DigActs(first), s + CycleActs(first, again, retries);
            && ((dug + DumpActs()) + PutBackActs(again)) + CloseWasteActs(first, retries) == whole
            && StageOf(dug, whole) && StageOf(dug + DumpActs(), whole)
            && StageOf((dug + DumpActs()) + PutBackActs(again), whole) && StageOf(whole, whole)
  {
    Stages4(s, DigActs(first), DumpActs(), PutBackActs(again), CloseWasteActs(first, retries));
  }

  lemma SeatStages(s: seq<Step>)
    ensures var up, whole := s + [Spinning(90, Forward, 100, 10000)], s + SeatActs(false);
            && up + [Scooping(Reverse, 15000)] == whole
            && StageOf(s, whole) && StageOf(up, whole) && StageOf(whole, whole)
    ensures s + SeatActs(true) == s
  {
    Stages2(s, [Spinning(90, Forward, 100, 10000)], [Scooping(Reverse, 15000)]);
    NoMore(s);
  }

  lemma CalibrationStages(s: seq<Step>, inPlace: bool)
    ensures var whole := s + CalibrationActs(inPlace);
            && (s + SeatActs(inPlace)) + [Spinning(70, Reverse, 100, 10000)] == whole
            && StageOf(s + SeatActs(inPlace), whole) && StageOf(whole, whole)
  {
    Stages2(s, SeatActs(inPlace), [Spinning(70, Reverse, 100, 10000)]);
  }

  lemma StowStages(s: seq<Step>)
    ensures var taken, whole := s + [Scooping(Reverse, 25000)], s + StowActs();
            && taken + [Spinning(0, Reverse, 100, 8000)] == whole
            && StageOf(s, whole) && StageOf(taken, whole) && StageOf(whole, whole)
  {
    Stages2(s, [Scooping(Reverse, 25000)], [Spinning(0, Reverse, 100, 8000)]);
  }

  lemma PutAwayStages(s: seq<Step>, inPlace: bool)
    ensures var whole := s + PutAwayActs(inPlace);
            && ((s + StowActs()) + CalibrationActs(inPlace)) + DriveActs(Reverse, 100) == whole
            && StageOf(s + StowActs(), whole) && StageOf((s + StowActs()) + CalibrationActs(inPlace), whole)
            && StageOf(whole, whole)
  {
    Stages3(s, StowActs(), CalibrationActs(inPlace), DriveActs(Reverse, 100));
  }

  /** The stages of the whole scenario, up to each cycle, the last turn and the putting away. */
  lemma ScenarioStages(c: Course)
    ensures var ready, whole := OpeningActs(), ScenarioActs(c);
            var one := ready + CycleActs(true, c.again1, c.retries1);
            var two := one + CycleActs(false, c.again2, c.retries2);
            var turned := two + [Spinning(50, Forward, 100, 8000)];
            && turned + PutAwayActs(c.inPlace) == whole
            && StageOf(ready, whole) && StageOf(one, whole) && StageOf(two, whole) && StageOf(turned, whole)
            && StageOf(whole, whole)
  {
    var ready := OpeningActs();
    Stages4(ready, CycleActs(true, c.again1, c.retries1), CycleActs(false, c.again2, c.retries2),
            [Spinning(50, Forward, 100, 8000)], PutAwayActs(c.inPlace));
  }

  lemma PlaceStages(s: seq<Step>, scoopIn: bool, coverOpen: bool)
    ensures var placed := if scoopIn then s else s + [Scooping(Reverse, 15000)];
            var whole := s + PlaceActs(scoopIn, coverOpen);
            && (if coverOpen then placed + DriveActs(Reverse, 100) else placed) == whole
            && StageOf(s, whole) && StageOf(placed, whole) && StageOf(whole, whole)
  {
    hide DriveActs;
    var c := if scoopIn then [] else [Scooping(Reverse, 15000)];
    var d := if coverOpen then DriveActs(Reverse, 100) else [];
    NoMore(s);
    NoMore(s + c);
    Stages2(s, c, d);
  }

  lemma RecoveryCalibrationStages(s: seq<Step>)
    ensures var up, whole := s + [Spinning(75, Forward, 100, 10000)], s + RecoveryCalibrationActs();
            && (up + [Scooping(Reverse, 15000)]) + [Spinning(70, Reverse, 100, 10000)] == whole
            && StageOf(s, whole) && StageOf(up, whole) && StageOf(up + [Scooping(Reverse, 15000)], whole)
            && StageOf(whole, whole)
  {
    Stages3(s, [Spinning(75, Forward, 100, 10000)], [Scooping(Reverse, 15000)], [Spinning(70, Reverse, 100, 10000)]);
  }
}
