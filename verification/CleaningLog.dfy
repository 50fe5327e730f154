/**
 The log of one cleaning run: the motor commands that were sent, by the sequencer or by the tasks that may
 interrupt it, and what the sequencer read. The interlocks are rules over such logs.
 */
module CleaningLog {
  import opened Common

  datatype Motor = Plate | MainCover | ScoopInOut | ScoopSpin | WasteCover

  datatype Direction = Forward | Reverse | Stop

  /** The bits of the photo-sensor word. */
  datatype Word = Word(spinStart: bool, scoopOut: bool, wasteClose: bool, mainOpen: bool, spinEnd: bool,
                       scoopIn: bool, wasteOpen: bool, reed: bool, mainClose: bool)

  /** emergency_stop_flag, clean_pause_flag and clean_resume_recovery_requested. */
  datatype Flags = Flags(stop: bool, paused: bool, asked: bool)

  const Unpressed := Flags(false, false, false)

  /** Flagged is how the flags stand from there on; Left is the exit, which puts the pause and the request back. */
  datatype Step =
    | Command(motor: Motor, direction: Direction, angle: nat, speed: nat, timeout: nat)
    | Saw(word: Word)
    | SawMotor(motor: Motor, running: bool, elapsedMs: int)
    | TofCheck(distance: int)
    | Slept(paused: bool)
    | Flagged(flags: Flags)
    | Left

  const TOF_LIMIT_MM := 550

  /** How long a retract within a cycle may take; the final one and those of the calibrations take longer. */
  const CYCLE_RETRACT_MS := 10000

  /** The sensors of the closed or inner limit of a motor, and of the open or outer one. */
  predicate AtClosed(motor: Motor, w: Word) {
    (motor == WasteCover && w.wasteClose) || (motor == MainCover && w.mainClose) || (motor == ScoopInOut && w.scoopIn)
  }

  predicate AtOpen(motor: Motor, w: Word) {
    || (motor == WasteCover && w.wasteOpen) || (motor == MainCover && w.mainOpen)
    || (motor == ScoopInOut && w.scoopOut) || (motor == ScoopSpin && w.spinStart && w.spinEnd)
  }

  /** pt_check: -1 at the closed or inner limit, which is looked at first, 1 at the open or outer one, 0 elsewhere. */
  function PtCheck(motor: Motor, w: Word): (r: int)
    ensures r == -1 <==> AtClosed(motor, w)
    ensures r == 1 <==> AtOpen(motor, w) && !AtClosed(motor, w)
    ensures r == -1 || r == 0 || r == 1
  {
    match motor
    case WasteCover => if w.wasteClose then -1 else if w.wasteOpen then 1 else 0
    case ScoopSpin => if w.spinStart && w.spinEnd then 1 else 0
    case MainCover => if w.mainClose then -1 else if w.mainOpen then 1 else 0
    case ScoopInOut => if w.scoopIn then -1 else if w.scoopOut then 1 else 0
    case Plate => 0
  }

  predicate Moves(s: Step, motor: Motor) {
    s.Command? && s.motor == motor && s.direction != Stop
  }

  predicate MovesTo(s: Step, motor: Motor, direction: Direction) {
    Moves(s, motor) && s.direction == direction
  }

  predicate ShowsOpen(s: Step) {
    s.Saw? && PtCheck(MainCover, s.word) == 1
  }

  predicate ShowsWasteClosed(s: Step) {
    s.Saw? && PtCheck(WasteCover, s.word) == -1
  }

  predicate Obstacle(distance: int) {
    0 < distance <= TOF_LIMIT_MM
  }

  /** The limit that the latest motion heads for is read. */
  predicate LimitRead(motor: Motor, latest: Option<Direction>, w: Word) {
    (latest == Some(Forward) && PtCheck(motor, w) == 1) || (latest == Some(Reverse) && PtCheck(motor, w) == -1)
  }

  /** The motor is seen standing more than 300 ms into a wait. */
  predicate SeenStanding(s: Step, motor: Motor) {
    s.SawMotor? && s.motor == motor && !s.running && s.elapsedMs > 300
  }

  /** The latest motion of the motor, if there was one, is over as far as the sensors tell. */
  predicate Settles(s: Step, motor: Motor, latest: Option<Direction>) {
    (s.Saw? && LimitRead(motor, latest, s.word)) || SeenStanding(s, motor)
  }

  // ------------------------------------------------------------ a running summary

  /** Whether the latest command of each motor was STOP. */
  datatype Stops = Stops(plate: bool, mainCover: bool, scoopInOut: bool, scoopSpin: bool, wasteCover: bool)

  function SetStop(s: Stops, motor: Motor, stop: bool): Stops {
    match motor
    case Plate => s.(plate := stop)
    case MainCover => s.(mainCover := stop)
    case ScoopInOut => s.(scoopInOut := stop)
    case ScoopSpin => s.(scoopSpin := stop)
    case WasteCover => s.(wasteCover := stop)
  }

  /**
   What the rules need to remember of the steps so far, how many delays and waste motions there were, and the start
   sensor as last read.
   */
  datatype Summary = Summary(
    openSeen: bool,
    scoop: Option<Direction>,
    waste: Option<Direction>,
    wasteClosedSeen: bool,
    scoopUnderway: bool,
    wasteUnderway: bool,
    tof: Option<int>,
    wasteMotions: nat,
    naps: nat,
    pausedNaps: nat,
    onStart: bool,
    stops: Stops)

  const Fresh := Summary(false, None, None, false, false, false, None, 0, 0, 0, false,
                         Stops(false, false, false, false, false))

  function Advance(s: Summary, step: Step): Summary {
    Summary(
      s.openSeen || ShowsOpen(step),
      if Moves(step, ScoopInOut) then Some(step.direction) else s.scoop,
      if Moves(step, WasteCover) then Some(step.direction) else s.waste,
      !Moves(step, WasteCover) && (s.wasteClosedSeen || ShowsWasteClosed(step)),
      Moves(step, ScoopInOut) || (s.scoopUnderway && !Settles(step, ScoopInOut, s.scoop)),
      Moves(step, WasteCover) || (s.wasteUnderway && !Settles(step, WasteCover, s.waste)),
      if step.TofCheck? then Some(step.distance) else if MovesTo(step, ScoopInOut, Forward) then None else s.tof,
      if Moves(step, WasteCover) then s.wasteMotions + 1 else s.wasteMotions,
      if step == Slept(false) then s.naps + 1 else s.naps,
      if step == Slept(true) then s.pausedNaps + 1 else s.pausedNaps,
      if step.Saw? then step.word.spinStart else s.onStart,
      if step.Command? then SetStop(s.stops, step.motor, step.direction == Stop) else s.stops)
  }

  /** The summary of the first k steps. */
  function Summarize(log: seq<Step>, k: nat): Summary
    requires k <= |log|
  {
    if k == 0 then Fresh else Advance(Summarize(log, k - 1), log[k - 1])
  }

  lemma {:induction false} SummarizePrefix(log: seq<Step>, step: Step, k: nat)
    requires k <= |log|
    ensures Summarize(log + [step], k) == Summarize(log, k)
  {
    if k > 0 {
      SummarizePrefix(log, step, k - 1);
    }
  }

  // ------------------------------------------------------------------- the rules

  /**
   OpenFirst: the scoop and the waste cover stay put until the main cover has been read open.
   CloseOverOut: the waste cover closes only with the scoop last sent out.
   RetractByCover: within a cycle the scoop comes in only with the waste cover last sent open, and after the cycles
   only with the waste cover last sent shut and read shut since.
   TofChecked: the scoop comes in only after a distance check made since it was last sent out.
   OneAtATime: nothing is set going while the scoop is on its way in or out, nor the scoop while the waste cover moves.
   TofClear: that check saw no obstacle.
   TofAbove: it measured more than the limit. A check without an answer sees no obstacle, and measures nothing.
   Answered: every distance check had an answer.
   */
  datatype Rule = OpenFirst | CloseOverOut | RetractByCover | TofChecked | OneAtATime | TofClear | TofAbove | Answered

  /** Where the waste cover has to be for a retract, told by the time the retract may take. */
  predicate CoverPlaced(s: Summary, timeout: nat) {
    if timeout == CYCLE_RETRACT_MS then s.waste == Some(Forward)
    else s.waste == Some(Reverse) && s.wasteClosedSeen
  }

  predicate Obeys(rule: Rule, s: Summary, step: Step) {
    match rule
    case OpenFirst => Moves(step, ScoopInOut) || Moves(step, ScoopSpin) || Moves(step, WasteCover) ==> s.openSeen
    case CloseOverOut => MovesTo(step, WasteCover, Reverse) ==> s.scoop == Some(Forward)
    case RetractByCover => MovesTo(step, ScoopInOut, Reverse) ==> CoverPlaced(s, step.timeout)
    case TofChecked => MovesTo(step, ScoopInOut, Reverse) ==> s.tof.Some?
    case OneAtATime =>
      step.Command? && step.direction != Stop ==> !s.scoopUnderway && (step.motor == ScoopInOut ==> !s.wasteUnderway)
    case TofClear => MovesTo(step, ScoopInOut, Reverse) ==> s.tof.Some? && !Obstacle(s.tof.value)
    case TofAbove => MovesTo(step, ScoopInOut, Reverse) ==> s.tof.Some? && s.tof.value > TOF_LIMIT_MM
    case Answered => step.TofCheck? ==> step.distance > 0
  }

  ghost predicate ObeysAt(rule: Rule, log: seq<Step>, k: nat)
    requires k < |log|
  {
    Obeys(rule, Summarize(log, k), log[k])
  }

  ghost predicate Holds(rule: Rule, log: seq<Step>) {
    forall k :: 0 <= k < |log| ==> ObeysAt(rule, log, k)
  }

  ghost predicate Interlocked(log: seq<Step>) {
    && Holds(OpenFirst, log) && Holds(CloseOverOut, log) && Holds(RetractByCover, log)
    && Holds(TofChecked, log) && Holds(OneAtATime, log)
  }

  lemma ObeysAtPrefix(rule: Rule, log: seq<Step>, step: Step, k: nat)
    requires k < |log|
    ensures ObeysAt(rule, log + [step], k) <==> ObeysAt(rule, log, k)
  {
    SummarizePrefix(log, step, k);
  }

  lemma ObeysAtLast(rule: Rule, log: seq<Step>, step: Step)
    ensures ObeysAt(rule, log + [step], |log|) <==> Obeys(rule, Summarize(log, |log|), step)
  {
    SummarizePrefix(log, step, |log|);
  }

  lemma HoldsSooner(rule: Rule, log: seq<Step>, step: Step)
    requires Holds(rule, log + [step])
    ensures Holds(rule, log) && ObeysAt(rule, log + [step], |log|)
  {
    forall k | 0 <= k < |log|
      ensures ObeysAt(rule, log, k)
    {
      ObeysAtPrefix(rule, log, step, k);
      assert ObeysAt(rule, log + [step], k);
    }
  }

  lemma HoldsOn(rule: Rule, log: seq<Step>, step: Step)
    requires Holds(rule, log) && ObeysAt(rule, log + [step], |log|)
    ensures Holds(rule, log + [step])
  {
    forall k | 0 <= k < |log + [step]|
      ensures ObeysAt(rule, log + [step], k)
    {
      if k < |log| {
        ObeysAtPrefix(rule, log, step, k);
      }
    }
  }

  lemma HoldsNext(rule: Rule, log: seq<Step>, step: Step)
    ensures Holds(rule, log + [step]) <==> Holds(rule, log) && Obeys(rule, Summarize(log, |log|), step)
  {
    ObeysAtLast(rule, log, step);
    if Holds(rule, log + [step]) {
      HoldsSooner(rule, log, step);
    } else if Holds(rule, log) && ObeysAt(rule, log + [step], |log|) {
      HoldsOn(rule, log, step);
    }
  }

  // --------------------------------------------- the rules, told without the summary

  /** The latest step before k that satisfies the test is j. */
  ghost predicate LatestMotion(log: seq<Step>, k: nat, motor: Motor, j: nat)
    requires k <= |log|
  {
    j < k && Moves(log[j], motor) && forall i :: j < i < k ==> !Moves(log[i], motor)
  }

  lemma {:induction false} SummaryOpen(log: seq<Step>, k: nat) returns (j: nat)
    requires k <= |log| && Summarize(log, k).openSeen
    ensures j < k && ShowsOpen(log[j])
  {
    if ShowsOpen(log[k - 1]) {
      j := k - 1;
    } else {
      j := SummaryOpen(log, k - 1);
    }
  }

  lemma {:induction false} SummaryScoop(log: seq<Step>, k: nat) returns (j: nat)
    requires k <= |log| && Summarize(log, k).scoop.Some?
    ensures LatestMotion(log, k, ScoopInOut, j) && log[j].direction == Summarize(log, k).scoop.value
  {
    if Moves(log[k - 1], ScoopInOut) {
      j := k - 1;
    } else {
      j := SummaryScoop(log, k - 1);
    }
  }

  lemma {:induction false} SummaryWaste(log: seq<Step>, k: nat) returns (j: nat)
    requires k <= |log| && Summarize(log, k).waste.Some?
    ensures LatestMotion(log, k, WasteCover, j) && log[j].direction == Summarize(log, k).waste.value
    ensures Summarize(log, k).wasteClosedSeen ==> exists i :: j < i < k && ShowsWasteClosed(log[i])
  {
    if Moves(log[k - 1], WasteCover) {
      j := k - 1;
    } else {
      j := SummaryWaste(log, k - 1);
      if Summarize(log, k).wasteClosedSeen && !ShowsWasteClosed(log[k - 1]) {
        var i :| j < i < k - 1 && ShowsWasteClosed(log[i]);
      }
    }
  }

  lemma {:induction false} SummaryTof(log: seq<Step>, k: nat) returns (j: nat)
    requires k <= |log| && Summarize(log, k).tof.Some?
    ensures j < k && log[j] == TofCheck(Summarize(log, k).tof.value)
    ensures forall i :: j < i < k ==> !log[i].TofCheck? && !MovesTo(log[i], ScoopInOut, Forward)
  {
    if log[k - 1].TofCheck? {
      j := k - 1;
    } else {
      j := SummaryTof(log, k - 1);
    }
  }

  /** No scoop or waste motion comes before a reading of the open main cover. */
  lemma OpenFirstMeans(log: seq<Step>, k: nat) returns (j: nat)
    requires Interlocked(log) && k < |log|
    requires Moves(log[k], ScoopInOut) || Moves(log[k], ScoopSpin) || Moves(log[k], WasteCover)
    ensures j < k && ShowsOpen(log[j])
  {
    assert ObeysAt(OpenFirst, log, k);
    j := SummaryOpen(log, k);
  }

  /** Every closing of the waste cover is issued while the latest scoop motion is the one out. */
  lemma CloseOverOutMeans(log: seq<Step>, k: nat) returns (j: nat)
    requires Interlocked(log) && k < |log| && MovesTo(log[k], WasteCover, Reverse)
    ensures LatestMotion(log, k, ScoopInOut, j) && log[j].direction == Forward
  {
    assert ObeysAt(CloseOverOut, log, k);
    j := SummaryScoop(log, k);
  }

  /**
   Every retract within a cycle has the waste cover last sent open; any later one has it last sent shut, and read
   shut since.
   */
  lemma RetractMeans(log: seq<Step>, k: nat) returns (j: nat)
    requires Interlocked(log) && k < |log| && MovesTo(log[k], ScoopInOut, Reverse)
    ensures LatestMotion(log, k, WasteCover, j)
    ensures log[k].timeout == CYCLE_RETRACT_MS ==> log[j].direction == Forward
    ensures log[k].timeout != CYCLE_RETRACT_MS ==>
              log[j].direction == Reverse && exists i :: j < i < k && ShowsWasteClosed(log[i])
  {
    assert ObeysAt(RetractByCover, log, k);
    j := SummaryWaste(log, k);
  }

  /** Every retract has a distance check after the scoop was last sent out. */
  lemma TofCheckedMeans(log: seq<Step>, k: nat) returns (j: nat)
    requires Interlocked(log) && k < |log| && MovesTo(log[k], ScoopInOut, Reverse)
    ensures j < k && log[j].TofCheck? && forall i :: j < i < k ==> !MovesTo(log[i], ScoopInOut, Forward)
  {
    assert ObeysAt(TofChecked, log, k);
    j := SummaryTof(log, k);
  }

  /** Between a motion and the scoop motion before it, the scoop was read at its limit or its motor seen standing. */
  lemma ScoopSettledMeans(log: seq<Step>, k: nat, j: nat) returns (i: nat)
    requires Interlocked(log) && k < |log| && log[k].Command? && log[k].direction != Stop
    requires LatestMotion(log, k, ScoopInOut, j)
    ensures j < i < k && Settles(log[i], ScoopInOut, Some(log[j].direction))
  {
    assert ObeysAt(OneAtATime, log, k);
    i := SettledSince(log, k, ScoopInOut, j);
  }

  /** Between a scoop motion and the waste motion before it, the same holds of the waste cover. */
  lemma WasteSettledMeans(log: seq<Step>, k: nat, j: nat) returns (i: nat)
    requires Interlocked(log) && k < |log| && Moves(log[k], ScoopInOut)
    requires LatestMotion(log, k, WasteCover, j)
    ensures j < i < k && Settles(log[i], WasteCover, Some(log[j].direction))
  {
    assert ObeysAt(OneAtATime, log, k);
    i := SettledSince(log, k, WasteCover, j);
  }

  function Underway(s: Summary, motor: Motor): bool {
    if motor == ScoopInOut then s.scoopUnderway else s.wasteUnderway
  }

  function Latest(s: Summary, motor: Motor): Option<Direction> {
    if motor == ScoopInOut then s.scoop else s.waste
  }

  lemma {:induction false} LatestIs(log: seq<Step>, k: nat, motor: Motor, j: nat)
    requires k <= |log| && (motor == ScoopInOut || motor == WasteCover) && LatestMotion(log, k, motor, j)
    ensures Latest(Summarize(log, k), motor) == Some(log[j].direction)
  {
    if j < k - 1 {
      LatestIs(log, k - 1, motor, j);
    }
  }

  lemma {:induction false} SettledSince(log: seq<Step>, k: nat, motor: Motor, j: nat) returns (i: nat)
    requires k <= |log| && (motor == ScoopInOut || motor == WasteCover) && LatestMotion(log, k, motor, j)
    requires !Underway(Summarize(log, k), motor)
    ensures j < i < k && Settles(log[i], motor, Some(log[j].direction))
  {
    assert j < k - 1;
    LatestIs(log, k - 1, motor, j);
    if Settles(log[k - 1], motor, Some(log[j].direction)) {
      i := k - 1;
    } else {
      i := SettledSince(log, k - 1, motor, j);
    }
  }

  /** With the last rule as well, the latest distance before every retract was clear. */
  lemma TofClearMeans(log: seq<Step>, k: nat) returns (j: nat)
    requires Holds(TofClear, log) && k < |log| && MovesTo(log[k], ScoopInOut, Reverse)
    ensures j < k && log[j].TofCheck? && !Obstacle(log[j].distance)
    ensures forall i :: j < i < k ==> !log[i].TofCheck? && !MovesTo(log[i], ScoopInOut, Forward)
  {
    assert ObeysAt(TofClear, log, k);
    j := SummaryTof(log, k);
  }

  /** And with the one after it, that distance was measured, and above the limit. */
  lemma TofAboveMeans(log: seq<Step>, k: nat) returns (j: nat)
    requires Holds(TofAbove, log) && k < |log| && MovesTo(log[k], ScoopInOut, Reverse)
    ensures j < k && log[j].TofCheck? && log[j].distance > TOF_LIMIT_MM
    ensures forall i :: j < i < k ==> !log[i].TofCheck? && !MovesTo(log[i], ScoopInOut, Forward)
  {
    assert ObeysAt(TofAbove, log, k);
    j := SummaryTof(log, k);
  }

  predicate Stopped(s: Summary, motor: Motor) {
    StopOf(s.stops, motor)
  }

  /** All motors but the turning one, which is left as its last turn left it. */
  predicate FourStopped(s: Summary) {
    Stopped(s, Plate) && Stopped(s, MainCover) && Stopped(s, ScoopInOut) && Stopped(s, WasteCover)
  }

  predicate AllStopped(s: Summary) {
    s.stops == Stops(true, true, true, true, true)
  }

  lemma StoppedAfter(s: Summary, step: Step, motor: Motor)
    ensures Stopped(Advance(s, step), motor)
            <==> if step.Command? && step.motor == motor then step.direction == Stop else Stopped(s, motor)
  {
  }

  function StopOf(s: Stops, motor: Motor): bool {
    match motor
    case Plate => s.plate
    case MainCover => s.mainCover
    case ScoopInOut => s.scoopInOut
    case ScoopSpin => s.scoopSpin
    case WasteCover => s.wasteCover
  }

  /** The latest command to the motor before k is step j. */
  ghost predicate LatestCommand(log: seq<Step>, k: nat, motor: Motor, j: nat)
    requires k <= |log|
  {
    && j < k && log[j].Command? && log[j].motor == motor
    && forall i :: j < i < k ==> !(log[i].Command? && log[i].motor == motor)
  }

  lemma {:induction false} StopIsLatest(log: seq<Step>, k: nat, motor: Motor, j: nat)
    requires k <= |log| && LatestCommand(log, k, motor, j)
    ensures Stopped(Summarize(log, k), motor) <==> log[j].direction == Stop
  {
    StoppedAfter(Summarize(log, k - 1), log[k - 1], motor);
    if j < k - 1 {
      StopIsLatest(log, k - 1, motor, j);
    }
  }

  lemma {:induction false} SomeCommand(log: seq<Step>, k: nat, motor: Motor) returns (j: nat)
    requires k <= |log| && Stopped(Summarize(log, k), motor)
    ensures LatestCommand(log, k, motor, j)
  {
    StoppedAfter(Summarize(log, k - 1), log[k - 1], motor);
    if log[k - 1].Command? && log[k - 1].motor == motor {
      j := k - 1;
    } else {
      j := SomeCommand(log, k - 1, motor);
    }
  }

  /** A motor counts as stopped exactly when there was a command to it and the latest one was STOP. */
  lemma StoppedMeans(log: seq<Step>, k: nat, motor: Motor)
    requires k <= |log|
    ensures Stopped(Summarize(log, k), motor)
            <==> exists j: nat :: LatestCommand(log, k, motor, j) && log[j].direction == Stop
  {
    if Stopped(Summarize(log, k), motor) {
      var j := SomeCommand(log, k, motor);
      StopIsLatest(log, k, motor, j);
    } else {
      forall j: nat | LatestCommand(log, k, motor, j)
        ensures log[j].direction != Stop
      {
        StopIsLatest(log, k, motor, j);
      }
    }
  }

  /** The 100 ms delays among the first k steps: the paused ones, or the others. */
  function Naps(log: seq<Step>, k: nat, paused: bool): nat
    requires k <= |log|
  {
    if k == 0 then 0 else Naps(log, k - 1, paused) + if log[k - 1] == Slept(paused) then 1 else 0
  }

  lemma {:induction false} NapsMeans(log: seq<Step>, k: nat)
    requires k <= |log|
    ensures Summarize(log, k).naps == Naps(log, k, false) && Summarize(log, k).pausedNaps == Naps(log, k, true)
  {
    if k > 0 {
      NapsMeans(log, k - 1);
    }
  }

  // --------------------------------------------------------- the account of a log

  /** Which rules have held so far. */
  datatype Verdict = Verdict(
    openFirst: bool, closeOverOut: bool, retract: bool, tofChecked: bool, oneAtATime: bool, tofClear: bool,
    tofAbove: bool, answered: bool)

  /**
   What the scenario is made of: the motions, but for the full turns that look for the start sensor, and the
   unpaused delays.
   */
  predicate IsAct(s: Step) {
    || (s.Command? && s.direction != Stop && !(s.motor == ScoopSpin && s.angle == 360))
    || s == Slept(false)
  }

  function ActsOf(log: seq<Step>): seq<Step> {
    if log == [] then []
    else ActsOf(log[..|log| - 1]) + if IsAct(log[|log| - 1]) then [log[|log| - 1]] else []
  }

  datatype Account = Account(sum: Summary, ok: Verdict, acts: seq<Step>)

  const Blank := Account(Fresh, Verdict(true, true, true, true, true, true, true, true), [])

  function Judge(v: Verdict, s: Summary, step: Step): Verdict {
    Verdict(v.openFirst && Obeys(OpenFirst, s, step),
            v.closeOverOut && Obeys(CloseOverOut, s, step),
            v.retract && Obeys(RetractByCover, s, step),
            v.tofChecked && Obeys(TofChecked, s, step),
            v.oneAtATime && Obeys(OneAtATime, s, step),
            v.tofClear && Obeys(TofClear, s, step),
            v.tofAbove && Obeys(TofAbove, s, step),
            v.answered && Obeys(Answered, s, step))
  }

  function Tally(a: Account, step: Step): Account {
    Account(Advance(a.sum, step), Judge(a.ok, a.sum, step), a.acts + if IsAct(step) then [step] else [])
  }

  lemma TallyActs(a: Account, step: Step)
    ensures Tally(a, step).acts == if IsAct(step) then a.acts + [step] else a.acts
  {
    hide Advance, Judge;
    assert a.acts + [] == a.acts;
  }

  function AccountOf(log: seq<Step>): Account {
    if log == [] then Blank else Tally(AccountOf(log[..|log| - 1]), log[|log| - 1])
  }

  lemma {:induction false} SummarizeBefore(log: seq<Step>, k: nat, n: nat)
    requires k <= n <= |log|
    ensures Summarize(log[..n], k) == Summarize(log, k)
  {
    if k > 0 {
      SummarizeBefore(log, k - 1, n);
    }
  }

  /** Which rules hold of a whole log. */
  ghost function VerdictOn(log: seq<Step>): Verdict {
    Verdict(Holds(OpenFirst, log), Holds(CloseOverOut, log), Holds(RetractByCover, log),
            Holds(TofChecked, log), Holds(OneAtATime, log), Holds(TofClear, log),
            Holds(TofAbove, log), Holds(Answered, log))
  }

  lemma VerdictNext(log: seq<Step>, step: Step)
    ensures VerdictOn(log + [step]) == Judge(VerdictOn(log), Summarize(log, |log|), step)
  {
    hide Holds, Obeys, Summarize;
    HoldsNext(OpenFirst, log, step);
    HoldsNext(CloseOverOut, log, step);
    HoldsNext(RetractByCover, log, step);
    HoldsNext(TofChecked, log, step);
    HoldsNext(OneAtATime, log, step);
    HoldsNext(TofClear, log, step);
    HoldsNext(TofAbove, log, step);
    HoldsNext(Answered, log, step);
  }

  lemma NoVerdictYet()
    ensures VerdictOn([]) == Blank.ok
  {
  }

  /** The verdict is about the rules as stated over the whole log. */
  lemma {:induction false} AccountMeans(log: seq<Step>)
    ensures AccountOf(log).sum == Summarize(log, |log|) && AccountOf(log).acts == ActsOf(log)
    ensures AccountOf(log).ok == VerdictOn(log)
  {
    hide VerdictOn, Advance, Judge;
    if log == [] {
      NoVerdictYet();
    } else {
      var before, step := log[..|log| - 1], log[|log| - 1];
      assert log == before + [step];
      AccountMeans(before);
      SummarizePrefix(before, step, |before|);
      VerdictNext(before, step);
    }
  }

  /** A trail holds the account of every beginning of the log. */
  ghost predicate Recorded(trail: seq<Account>, log: seq<Step>) {
    && |trail| == |log| + 1 && trail[0] == Blank
    && forall k :: 0 <= k < |log| ==> trail[k + 1] == Tally(trail[k], log[k])
  }

  lemma FirstRecord(trail: seq<Account>, log: seq<Step>)
    requires Recorded(trail, log)
    ensures |trail| == |log| + 1 && trail[0] == Blank
  {
  }

  lemma RecordedNext(trail: seq<Account>, log: seq<Step>, step: Step)
    requires Recorded(trail, log)
    ensures Recorded(trail + [Tally(trail[|log|], step)], log + [step])
  {
  }

  lemma {:induction false} RecordedMeans(trail: seq<Account>, log: seq<Step>)
    requires Recorded(trail, log)
    ensures trail[|log|] == AccountOf(log)
  {
    if log != [] {
      RecordedMeans(trail[..|log|], log[..|log| - 1]);
    }
  }

  lemma {:induction false} RecordedBefore(trail: seq<Account>, log: seq<Step>, k: nat)
    requires Recorded(trail, log) && k <= |log|
    ensures trail[k] == AccountOf(log[..k])
  {
    RecordedMeans(trail[..k + 1], log[..k]);
  }
}
