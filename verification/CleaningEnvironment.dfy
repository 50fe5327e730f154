/**
 What the cleaning sequencer runs against: a finite script of instants. Each time the sequencer looks at a sensor
 or a flag, or lets a delay go by between two commands, it uses up one; when the script is over the run is cut short.
 A run that never ends is covered by its cut-short beginnings, so what holds of every script holds of every run.
 */
module CleaningEnvironment {
  import opened CleaningAccounts
  import opened CleaningGuard
  import opened CleaningLog
  import opened CleaningPlan
  import opened Common

  /**
   What the other tasks do: the emergency stop, any other command, which clears it, and the pause button. The console's
   resume command is the second and then the third.
   */
  datatype Press = EmergencyStop | ClearStop | PauseButton

  /** All that was pressed since the sequencer looked last, in its order, and what there is to see. */
  datatype Instant = Instant(presses: seq<Press>, word: Word, running: map<Motor, bool>, tof: int, clockUs: int)

  /** Abort is the jump to the exit of the scenario; Cut is the end of the script. */
  datatype Outcome = Done | Abort | Cut {
    predicate IsFailure() { !Done? }
    function PropagateFailure(): Outcome requires IsFailure() { this }
  }

  datatype Target = Open | Close | Middle

  // ---------------------------------------------------------------------------- the flags

  /** What makes the scenario leave at its next look. */
  predicate Requested(f: Flags) {
    f.stop || f.asked
  }

  /** The second press of the pause button asks for the recovery. */
  function Touched(f: Flags, p: Press): Flags {
    match p
    case EmergencyStop => f.(stop := true)
    case ClearStop => f.(stop := false)
    case PauseButton => if f.paused then f.(paused := false, asked := true) else f.(paused := true)
  }

  function Pressed(f: Flags, presses: seq<Press>): Flags
    decreases |presses|
  {
    if presses == [] then f else Pressed(Touched(f, presses[0]), presses[1..])
  }

  /** A stop stands at the end if and only if no clearing came after it. */
  lemma {:induction false} StopStandsIff(f: Flags, presses: seq<Press>)
    ensures Pressed(f, presses).stop
            <==> (f.stop && ClearStop !in presses)
                 || exists i :: 0 <= i < |presses| && presses[i] == EmergencyStop && ClearStop !in presses[i..]
    decreases |presses|
  {
    if presses != [] {
      var first, rest := presses[0], presses[1..];
      StopStandsIff(Touched(f, first), rest);
      assert presses[0..] == presses && presses == [first] + rest;
      forall i | 0 <= i < |rest|
        ensures presses[i + 1..] == rest[i..]
      {
      }
      if exists i :: 0 <= i < |presses| && presses[i] == EmergencyStop && ClearStop !in presses[i..] {
        var i :| 0 <= i < |presses| && presses[i] == EmergencyStop && ClearStop !in presses[i..];
        if i > 0 {
          assert rest[i - 1] == EmergencyStop && ClearStop !in rest[i - 1..];
        }
      }
    }
  }

  /** How often the pause button is pressed. */
  function Presses(presses: seq<Press>): nat {
    if presses == [] then 0 else (if presses[0] == PauseButton then 1 else 0) + Presses(presses[1..])
  }

  /** The recovery is asked for by the second press, or by the first one in a pause, and nothing takes that back. */
  lemma {:induction false} AskedIff(f: Flags, presses: seq<Press>)
    ensures Pressed(f, presses).asked
            <==> f.asked || Presses(presses) >= 2 || (f.paused && Presses(presses) == 1)
    decreases |presses|
  {
    if presses != [] {
      AskedIff(Touched(f, presses[0]), presses[1..]);
    }
  }

  /** What every number of presses leaves as it is, or leaves behind. */
  lemma {:induction false} PressesKeep(f: Flags, presses: seq<Press>)
    ensures var after := Pressed(f, presses);
            && (f.asked ==> after.asked)
            && (f.paused && !after.paused ==> after.asked)
            && (f.stop && ClearStop !in presses ==> after.stop)
    decreases |presses|
  {
    if presses != [] {
      PressesKeep(Touched(f, presses[0]), presses[1..]);
    }
  }

  lemma OnePress(f: Flags, p: Press)
    ensures Pressed(f, [p]) == Touched(f, p)
  {
    assert [p][1..] == [];
  }

  /** No command clears the emergency stop. */
  ghost predicate Lasting(script: seq<Instant>) {
    forall i :: 0 <= i < |script| ==> ClearStop !in script[i].presses
  }

  lemma LastingNext(script: seq<Instant>)
    requires script != []
    ensures Lasting(script) ==> Lasting(script[1..]) && ClearStop !in script[0].presses
  {
  }

  /** A stop or a request stands when a wait first looks at the flags, which it does at its second instant. */
  predicate LeavesAtOnce(f: Flags, script: seq<Instant>) {
    |script| >= 2 && Requested(Pressed(Pressed(f, script[0].presses), script[1].presses))
  }

  /**
   A pause comes to a good end: the presses of some instant lift it, and until then none of them leaves a stop or a
   request.
   */
  predicate Resumes(script: seq<Instant>) {
    && script != []
    && var f := Pressed(Flags(false, true, false), script[0].presses);
       !f.paused || (!Requested(f) && Resumes(script[1..]))
  }

  /** At no look a stop stands. */
  predicate NeverStopped(f: Flags, script: seq<Instant>)
    decreases |script|
  {
    script == [] || (var g := Pressed(f, script[0].presses); !g.stop && NeverStopped(g, script[1..]))
  }

  // ---------------------------------------------------------------------------- time

  /** The clock never runs back, and every second look at it is at least a millisecond later. */
  ghost predicate Ticking(script: seq<Instant>) {
    && (forall i, j :: 0 <= i <= j < |script| ==> script[i].clockUs <= script[j].clockUs)
    && (forall i, j :: 0 <= i < j - 1 < |script| - 1 ==> script[i].clockUs + 1000 <= script[j].clockUs)
  }

  /** What is left of a script once its first instants are used up. */
  ghost predicate Rest(script: seq<Instant>, whole: seq<Instant>) {
    |script| <= |whole| && script == whole[|whole| - |script|..]
  }

  lemma RestOfRest(script: seq<Instant>, middle: seq<Instant>, whole: seq<Instant>)
    requires Rest(script, middle) && Rest(middle, whole)
    ensures Rest(script, whole)
  {
  }

  lemma RestFirst(script: seq<Instant>, whole: seq<Instant>)
    requires Rest(script, whole) && script != []
    ensures |script| <= |whole| && script[0] == whole[|whole| - |script|]
  {
  }

  lemma RestSecond(script: seq<Instant>, whole: seq<Instant>)
    requires Rest(script, whole) && script != []
    ensures |script| > 1 ==> script[1] == whole[|whole| - |script| + 1]
  {
  }

  /** The first n instants are used up. */
  ghost predicate Used(whole: seq<Instant>, script: seq<Instant>, n: nat) {
    n <= |whole| && script == whole[n..]
  }

  lemma UsedLength(whole: seq<Instant>, script: seq<Instant>, n: nat)
    ensures Used(whole, script, n) ==> |script| == |whole| - n
  {
  }

  lemma UsedWords(whole: seq<Instant>, script: seq<Instant>)
    requires Used(whole, script, 1)
    ensures |script| == |whole| - 1 && (|script| > 1 ==> script[1] == whole[2])
  {
  }

  lemma UsedFirst(whole: seq<Instant>, script: seq<Instant>)
    requires Used(whole, script, 1)
    ensures |script| == |whole| - 1 && (script != [] ==> script[0] == whole[1])
  {
  }

  lemma UsedIs(whole: seq<Instant>, script: seq<Instant>)
    ensures Used(whole, script, 1) ==> script == whole[1..]
  {
  }

  lemma UsedOne(script: seq<Instant>)
    ensures script != [] ==> Used(script, script[1..], 1)
  {
  }

  lemma UsedNone(script: seq<Instant>)
    ensures Used(script, script, 0)
  {
  }

  lemma UsedTwice(whole: seq<Instant>, middle: seq<Instant>, script: seq<Instant>)
    requires |script| <= |middle| <= |whole|
    requires Used(whole, middle, |whole| - |middle|) && Used(middle, script, |middle| - |script|)
    ensures Used(whole, script, |whole| - |script|)
  {
  }

  lemma UsedIsRest(script: seq<Instant>, whole: seq<Instant>)
    requires Rest(script, whole)
    ensures |script| <= |whole| && Used(whole, script, |whole| - |script|)
  {
  }

  lemma LastTwo(script: seq<Instant>, whole: seq<Instant>)
    requires Rest(script, whole)
    ensures |script| == |whole| - 2 ==> Used(whole, script, 2)
  {
  }

  lemma RestIs(script: seq<Instant>, whole: seq<Instant>)
    requires Rest(script, whole)
    ensures |script| <= |whole| && script == whole[|whole| - |script|..]
  {
  }

  lemma RestShorter(script: seq<Instant>, whole: seq<Instant>)
    requires Rest(script, whole)
    ensures |script| <= |whole|
  {
  }

  lemma RestEnd(script: seq<Instant>, whole: seq<Instant>)
    requires script == []
    ensures Rest(script, whole)
  {
  }

  lemma LastThree(script: seq<Instant>, whole: seq<Instant>)
    requires Rest(script, whole)
    ensures |script| == |whole| - 3 ==> Used(whole, script, 3)
  {
  }

  lemma RestNext(script: seq<Instant>)
    ensures script != [] ==> Rest(script[1..], script)
    ensures Rest(script, script)
  {
  }

  lemma {:induction false} TicksBy(script: seq<Instant>, i: nat)
    requires Ticking(script) && i < |script|
    ensures script[i].clockUs >= script[0].clockUs + 1000 * (i / 2)
  {
    if i >= 2 {
      TicksBy(script, i - 2);
      assert script[i - 2].clockUs + 1000 <= script[i].clockUs;
    }
  }

  /** Division as C does it. */
  function ElapsedMs(startUs: int, nowUs: int): (ms: int)
    ensures nowUs >= startUs ==> ms == (nowUs - startUs) / 1000
  {
    if nowUs >= startUs then (nowUs - startUs) / 1000 else -((startUs - nowUs) / 1000)
  }

  /** 30 s have gone by from the first instant to the last one used up. */
  predicate TimeUp(before: seq<Instant>, after: seq<Instant>) {
    && |after| < |before|
    && ElapsedMs(before[0].clockUs, before[|before| - |after| - 1].clockUs) >= 30000
  }

  // ------------------------------------------- the search for the start sensor

  /** A search that sets out at the first look is over at look i: its time is up, or the sensor reads as wanted. */
  predicate EndsAt(script: seq<Instant>, wanted: bool, i: nat) {
    && i < |script|
    && if i % 2 == 1 then ElapsedMs(script[0].clockUs, script[i].clockUs) >= 30000
       else i > 0 && script[i].word.spinStart == wanted
  }

  /** The first such look from i on. */
  function EndFrom(script: seq<Instant>, wanted: bool, i: nat): (r: Option<nat>)
    ensures r.Some? ==> i <= r.value && EndsAt(script, wanted, r.value)
    ensures r.Some? ==> forall j :: i <= j < r.value ==> !EndsAt(script, wanted, j)
    ensures r.None? ==> forall j :: i <= j ==> !EndsAt(script, wanted, j)
    decreases |script| - i
  {
    if i >= |script| then None else if EndsAt(script, wanted, i) then Some(i) else EndFrom(script, wanted, i + 1)
  }

  lemma EndStart(script: seq<Instant>, wanted: bool)
    ensures script != [] ==> EndFrom(script, wanted, 0) == EndFrom(script, wanted, 1)
  {
  }

  lemma EndStep(script: seq<Instant>, wanted: bool, i: nat)
    ensures EndFrom(script, wanted, i)
         == if i >= |script| then None else if EndsAt(script, wanted, i) then Some(i)
            else EndFrom(script, wanted, i + 1)
  {
  }

  /** What is left when the search is over, if it ever is. */
  function AfterSearch(script: seq<Instant>, wanted: bool): (r: Option<seq<Instant>>)
    ensures r.Some? ==> |r.value| < |script|
  {
    match EndFrom(script, wanted, 0)
    case None => None
    case Some(i) => Some(script[i + 1..])
  }

  /** And when the emergency stop has been looked at once more. */
  function AfterCheckedSearch(script: seq<Instant>, wanted: bool): (r: Option<seq<Instant>>)
    ensures r.Some? ==> |r.value| < |script|
  {
    match AfterSearch(script, wanted)
    case None => None
    case Some(rest) => if rest == [] then None else Some(rest[1..])
  }

  /** A turn off the sensor and one back onto it. */
  function AfterReseat(script: seq<Instant>): Option<seq<Instant>> {
    match AfterCheckedSearch(script, false)
    case None => None
    case Some(rest) => AfterSearch(rest, true)
  }

  /**
   What is left when the whole search is over, without a stop: it starts over as long as the sensor is not read when
   it looks, which it does right after a look at the stop.
   */
  function AfterOrigin(script: seq<Instant>): Option<seq<Instant>>
    decreases |script|, 1
  {
    if script == [] then None else AfterLook(script[1..])
  }

  function AfterLook(script: seq<Instant>): Option<seq<Instant>>
    decreases |script|, 0
  {
    if script == [] then None
    else if script[0].word.spinStart then AfterReseat(script[1..])
    else
      match AfterCheckedSearch(script[1..], true)
      case None => None
      case Some(rest) => AfterOrigin(rest)
  }

  lemma OriginEndsWell(script: seq<Instant>)
    ensures AfterOrigin(script) == if script == [] then None else AfterLook(script[1..])
  {
  }

  lemma LookEndsWell(script: seq<Instant>)
    ensures script == [] ==> AfterLook(script).None?
    ensures script != [] && script[0].word.spinStart ==> AfterLook(script) == AfterReseat(script[1..])
  {
  }

  /** It has come to its good end exactly if there is such a rest, and left that. */
  predicate Ended(o: Outcome, script: seq<Instant>, after: Option<seq<Instant>>) {
    if after.Some? then o == Done && script == after.value else o == Cut
  }

  lemma SearchEndsIff(script: seq<Instant>, wanted: bool)
    ensures AfterSearch(script, wanted).Some? <==> exists i :: EndsAt(script, wanted, i)
  {
  }

  /** Without a reading of the sensor the whole search never ends. */
  lemma {:induction false} NeverReadNeverEnds(script: seq<Instant>)
    requires forall i :: 1 <= i < |script| ==> !script[i].word.spinStart
    ensures AfterOrigin(script).None?
    decreases |script|
  {
    if |script| >= 2 {
      var whole, rest := script[1..][1..], AfterCheckedSearch(script[1..][1..], true);
      assert whole == script[2..];
      if rest.Some? {
        var i := EndFrom(whole, true, 0).value;
        assert rest.value == script[i + 4..];
        NeverReadNeverEnds(rest.value);
      }
    }
  }

  /** How many 100 ms delays wait_duration makes of a number of milliseconds. */
  function Hundreds(ms: nat): nat {
    ms / 100 + if ms % 100 != 0 then 1 else 0
  }

  // ------------------------------------------------------------------------ sensors

  /** get_dcmotor_run and get_stepmotor_run. */
  predicate Runs(now: Instant, motor: Motor) {
    motor in now.running && now.running[motor]
  }

  /** The distance as get_fresh_tof_distance answers it. */
  function Distance(now: Instant): int {
    if 0 <= now.tof <= 2000 then now.tof else -1
  }

  predicate AtTarget(motor: Motor, target: Target, w: Word) {
    (PtCheck(motor, w) == 1 && target == Open) || (PtCheck(motor, w) == -1 && target == Close)
  }

  /** Why a wait may end well: the wanted limit was read, or the motor was seen standing after 300 ms. */
  predicate Arrived(motor: Motor, target: Target, s: Step) {
    || (s.Saw? && AtTarget(motor, target, s.word))
    || (s.SawMotor? && s.motor == motor && !s.running && s.elapsedMs > 300)
  }

  /** The wait was for the motion that is underway. */
  predicate Heads(latest: Option<Direction>, target: Target) {
    (latest == Some(Forward) && target == Open) || (latest == Some(Reverse) && target == Close)
  }

  /** What a good end of a wait says of the motion waited for. */
  predicate Over(motor: Motor, target: Target, s: Summary) {
    && (motor == ScoopInOut && Heads(s.scoop, target) ==> !s.scoopUnderway)
    && (motor == WasteCover && Heads(s.waste, target) ==> !s.wasteUnderway)
  }

  lemma OverAtTarget(motor: Motor, target: Target, s: Summary, w: Word)
    requires AtTarget(motor, target, w)
    ensures Over(motor, target, Seen(s, w))
  {
  }

  lemma OverStays(motor: Motor, target: Target, a: Account, b: Account)
    requires Over(motor, target, a.sum) && Waited(a, b)
    ensures Over(motor, target, b.sum)
  {
  }

  ghost predicate ArrivedWithin(motor: Motor, target: Target, log: seq<Step>, from: nat) {
    exists k :: from <= k < |log| && Arrived(motor, target, log[k])
  }

  lemma ArrivedLast(motor: Motor, target: Target, log: seq<Step>, from: nat)
    requires log != [] && from < |log|
    ensures Arrived(motor, target, log[|log| - 1]) ==> ArrivedWithin(motor, target, log, from)
  {
  }

  lemma ArrivedNext(motor: Motor, target: Target, log: seq<Step>, step: Step, from: nat)
    requires from <= |log|
    ensures ArrivedWithin(motor, target, log, from) || Arrived(motor, target, step)
            ==> ArrivedWithin(motor, target, log + [step], from)
  {
    var longer := log + [step];
    if Arrived(motor, target, step) {
      assert Arrived(motor, target, longer[|log|]);
    } else if ArrivedWithin(motor, target, log, from) {
      var k :| from <= k < |log| && Arrived(motor, target, log[k]);
      assert Arrived(motor, target, longer[k]);
    }
  }

  // ------------------------------------------------------------- a wait for a motor

  /** A wait: the flags it finds, what it waits for and how long, and the script from there on. */
  datatype Wait = Wait(flags: Flags, motor: Motor, timeout: nat, target: Target, script: seq<Instant>)

  /** The flags after the first n instants. */
  function Later(f: Flags, script: seq<Instant>, n: nat): Flags
    requires n <= |script|
  {
    if n == 0 then f else Pressed(Later(f, script, n - 1), script[n - 1].presses)
  }

  function Gone(w: Wait, i: nat): int
    requires i < |w.script|
  {
    ElapsedMs(w.script[0].clockUs, w.script[i].clockUs)
  }

  /** At look i the wanted limit is read, or more than 300 ms have gone and the motor stands. */
  predicate Arrives(w: Wait, i: nat)
    requires i < |w.script|
  {
    AtTarget(w.motor, w.target, w.script[i].word) || (Gone(w, i) > 300 && !Runs(w.script[i], w.motor))
  }

  /**
   The first instant sets the clock; from then on each odd look is at the flags and each even one at the sensors and
   the clock. Look i settles the wait: a stop, a request or a pause stands, or the motor has arrived or its time is up.
   */
  predicate Settles(w: Wait, i: nat) {
    && 0 < i < |w.script|
    && if i % 2 == 1 then var f := Later(w.flags, w.script, i + 1); Requested(f) || f.paused
       else Arrives(w, i) || Gone(w, i) >= w.timeout
  }

  /** No look before the n-th settles it. */
  ghost predicate Unsettled(w: Wait, n: nat) {
    forall i :: 0 <= i < n ==> !Settles(w, i)
  }

  /** The first look from i on to settle it. */
  function SettlesFrom(w: Wait, i: nat): (r: Option<nat>)
    ensures r.Some? ==> i <= r.value && Settles(w, r.value)
    ensures r.Some? ==> forall j :: i <= j < r.value ==> !Settles(w, j)
    ensures r.None? ==> forall j :: i <= j ==> !Settles(w, j)
    decreases |w.script| - i
  {
    if i >= |w.script| then None else if Settles(w, i) then Some(i) else SettlesFrom(w, i + 1)
  }

  lemma SettlesFirst(w: Wait, i: nat)
    requires Settles(w, i) && Unsettled(w, i)
    ensures SettlesFrom(w, 0) == Some(i)
  {
    hide Settles;
  }

  lemma SettlesNever(w: Wait)
    requires Unsettled(w, |w.script|)
    ensures SettlesFrom(w, 0) == None
  {
  }

  /** How a wait that look i settles ends, and what it leaves. A pause is sat out and never ends it well. */
  ghost predicate SettledAt(w: Wait, i: nat, o: Outcome, left: seq<Instant>, g: Flags) {
    && i < |w.script|
    && var f := Later(w.flags, w.script, i + 1);
       if i % 2 == 0 then o == (if Arrives(w, i) then Done else Abort) && Used(w.script, left, i + 1) && g == f
       else if Requested(f) then o == Abort && Used(w.script, left, i + 1) && g == f
       else o != Done && |left| < |w.script| - i && (o == Abort ==> |left| < |w.script| - i - 1)
  }

  /**
   Done if and only if the first look to settle the wait finds the motor arrived; Abort if it finds the time up, or a
   stop or a request; and Cut if none settles it. All but a pause uses up exactly the script to there.
   */
  ghost predicate WaitTells(w: Wait, o: Outcome, left: seq<Instant>, g: Flags) {
    match SettlesFrom(w, 0)
    case None => o == Cut
    case Some(i) => SettledAt(w, i, o, left, g)
  }

  /** Between two turns of the wait, and between its look at the flags and the one at the sensors. */
  ghost predicate BeforeLook(w: Wait, script: seq<Instant>, f: Flags, parity: nat) {
    && Rest(script, w.script)
    && var n := |w.script| - |script|;
       n > 0 && n % 2 == parity && f == Later(w.flags, w.script, n) && Unsettled(w, n)
  }

  lemma WaitStarts(w: Wait)
    requires w.script != []
    ensures BeforeLook(w, w.script[1..], Pressed(w.flags, w.script[0].presses), 1)
  {
    assert Later(w.flags, w.script, 0) == w.flags;
  }

  lemma SettledTells(w: Wait, i: nat, o: Outcome, left: seq<Instant>, g: Flags)
    requires Settles(w, i) && Unsettled(w, i) && SettledAt(w, i, o, left, g)
    ensures WaitTells(w, o, left, g)
  {
    SettlesFirst(w, i);
  }

  lemma NeverSettled(w: Wait, left: seq<Instant>, g: Flags)
    requires Unsettled(w, |w.script|)
    ensures WaitTells(w, Cut, left, g)
  {
    SettlesNever(w);
  }

  /** What the look at the flags does. */
  ghost predicate Passes(f: Flags, script: seq<Instant>, o: Outcome, left: seq<Instant>, g: Flags) {
    if script == [] then o == Cut
    else
      var h := Pressed(f, script[0].presses);
      if Requested(h) then o == Abort && |left| == |script| - 1 && g == h
      else if h.paused then o != Done && |left| < |script| && (o == Abort ==> |left| < |script| - 1)
      else o == Done && |left| == |script| - 1 && g == h
  }

  lemma TurnPasses(w: Wait, script: seq<Instant>, f: Flags, o: Outcome, left: seq<Instant>, g: Flags)
    requires BeforeLook(w, script, f, 1) && Passes(f, script, o, left, g) && Rest(left, script)
    ensures if o == Done then BeforeLook(w, left, g, 0) else WaitTells(w, o, left, g)
  {
    var n := |w.script| - |script|;
    RestOfRest(left, script, w.script);
    if script == [] {
      NeverSettled(w, left, g);
    } else {
      RestFirst(script, w.script);
      assert Later(w.flags, w.script, n + 1) == Pressed(f, script[0].presses);
      if o != Done {
        SettledTells(w, n, o, left, g);
      }
    }
  }

  /** What the look at the sensors and the clock does. */
  ghost predicate Looks(w: Wait, f: Flags, script: seq<Instant>, o: Outcome, again: bool, left: seq<Instant>, g: Flags)
    requires script != [] ==> Rest(script, w.script)
  {
    if script == [] then o == Cut
    else
      var i := |w.script| - |script|;
      && |left| == |script| - 1 && g == Pressed(f, script[0].presses)
      && if Arrives(w, i) then o == Done && !again
         else if Gone(w, i) >= w.timeout then o == Abort
         else o == Done && again
  }

  lemma TurnLooks(w: Wait, script: seq<Instant>, f: Flags, o: Outcome, again: bool, left: seq<Instant>, g: Flags)
    requires BeforeLook(w, script, f, 0) && Looks(w, f, script, o, again, left, g) && Rest(left, script)
    ensures if o == Done && again then BeforeLook(w, left, g, 1) else WaitTells(w, o, left, g)
  {
    var n := |w.script| - |script|;
    RestOfRest(left, script, w.script);
    if script == [] {
      NeverSettled(w, left, g);
    } else {
      RestFirst(script, w.script);
      assert Later(w.flags, w.script, n + 1) == Pressed(f, script[0].presses);
      if !(o == Done && again) {
        SettledTells(w, n, o, left, g);
      }
    }
  }

  lemma LookIsRest(w: Wait, script: seq<Instant>, f: Flags, parity: nat)
    requires BeforeLook(w, script, f, parity)
    ensures Rest(script, w.script)
  {
  }

  /** The first look at the flags ends a wait if and only if a stop or a request stands by then. */
  lemma FirstLook(w: Wait, o: Outcome, left: seq<Instant>, g: Flags)
    requires WaitTells(w, o, left, g) && |left| <= |w.script|
    ensures o == Abort && |left| == |w.script| - 2 <==> LeavesAtOnce(w.flags, w.script)
  {
    if |w.script| >= 2 {
      assert Later(w.flags, w.script, 0) == w.flags;
      assert Later(w.flags, w.script, 1) == Pressed(w.flags, w.script[0].presses);
      assert LeavesAtOnce(w.flags, w.script) <==> Requested(Later(w.flags, w.script, 2));
    }
    if LeavesAtOnce(w.flags, w.script) {
      SettlesFirst(w, 1);
    }
  }

  /** With a clock that ticks, so many looks at most leave it open. */
  lemma TurnsWithin(w: Wait, script: seq<Instant>, f: Flags)
    requires BeforeLook(w, script, f, 1) && Ticking(w.script) && w.timeout > 0
    ensures |w.script| - |script| <= 2 * w.timeout
  {
    var n := |w.script| - |script|;
    if n >= 3 {
      assert !Settles(w, n - 1);
      TicksBy(w.script, n - 1);
    }
  }

  // ------------------------------------------------------------------ delays

  /** Look i finds a stop, a request or a pause. */
  predicate Troubled(f: Flags, script: seq<Instant>, i: nat) {
    i < |script| && var g := Later(f, script, i + 1); Requested(g) || g.paused
  }

  ghost predicate CalmTo(f: Flags, script: seq<Instant>, n: nat) {
    forall i :: 0 <= i < n ==> !Troubled(f, script, i)
  }

  /**
   So many delays, each after a look at the flags: they end well, in as many looks, if none of these finds anything.
   The first to find a stop or a request ends them there; one that finds a pause does not let them end well, unless it
   is the last.
   */
  ghost predicate DelaysTell(f: Flags, script: seq<Instant>, n: nat, o: Outcome, left: seq<Instant>) {
    && (forall i: nat :: i < n && Troubled(f, script, i) && CalmTo(f, script, i) ==>
          if Requested(Later(f, script, i + 1)) then o == Abort && Used(script, left, i + 1)
          else i + 1 < n ==> o != Done)
    && (CalmTo(f, script, n) ==> if n <= |script| then o == Done && Used(script, left, n) else o == Cut)
  }

  /** What one look and its delay do. */
  ghost predicate DelayTells(f: Flags, script: seq<Instant>, o: Outcome, left: seq<Instant>, g: Flags) {
    if script == [] then o == Cut
    else
      var h := Pressed(f, script[0].presses);
      if Requested(h) then o == Abort && left == script[1..]
      else if h.paused then o == Done ==> g.asked
      else o == Done && left == script[1..] && g == h
  }

  /** After k of them. */
  ghost predicate DelaysSoFar(f: Flags, script: seq<Instant>, k: nat, left: seq<Instant>, g: Flags) {
    if CalmTo(f, script, k) then k <= |script| && left == script[k..] && g == Later(f, script, k)
    else g.asked && forall i :: 0 <= i < k && Troubled(f, script, i) && CalmTo(f, script, i) ==>
                      i + 1 == k && !Requested(Later(f, script, i + 1))
  }

  lemma NoDelays(f: Flags, script: seq<Instant>)
    ensures DelaysSoFar(f, script, 0, script, f)
  {
    assert Later(f, script, 0) == f;
  }

  /** One that ends them: none lets them end well once the recovery is asked for. */
  lemma DelaysEnd(f: Flags, script: seq<Instant>, n: nat, k: nat, left: seq<Instant>, g: Flags, o: Outcome,
                  last: seq<Instant>, h: Flags)
    requires k < n && DelaysSoFar(f, script, k, left, g) && DelayTells(g, left, o, last, h) && o != Done
    ensures DelaysTell(f, script, n, o, last)
  {
    if CalmTo(f, script, k) {
      if left != [] {
        assert left[0] == script[k] && Later(f, script, k + 1) == Pressed(g, left[0].presses);
        assert Troubled(f, script, k);
      } else {
        assert CalmTo(f, script, n);
      }
    } else {
      var i := FirstTrouble(f, script, k);
    }
  }

  lemma FirstTrouble(f: Flags, script: seq<Instant>, n: nat) returns (i: nat)
    requires !CalmTo(f, script, n)
    ensures i < n && Troubled(f, script, i) && CalmTo(f, script, i)
  {
    hide Troubled;
    i := 0;
    while i < n && !Troubled(f, script, i)
      invariant i <= n && CalmTo(f, script, i)
    {
      i := i + 1;
    }
  }

  lemma OneMoreDelay(f: Flags, script: seq<Instant>, k: nat, left: seq<Instant>, g: Flags, last: seq<Instant>, h: Flags)
    requires DelaysSoFar(f, script, k, left, g) && DelayTells(g, left, Done, last, h) && !g.asked
    ensures DelaysSoFar(f, script, k + 1, last, h)
  {
    assert left[0] == script[k] && Later(f, script, k + 1) == Pressed(g, left[0].presses);
    if Troubled(f, script, k) {
      assert !CalmTo(f, script, k + 1);
    } else {
      assert CalmTo(f, script, k + 1);
    }
  }

  lemma DelaysOver(f: Flags, script: seq<Instant>, n: nat, left: seq<Instant>, g: Flags)
    requires DelaysSoFar(f, script, n, left, g)
    ensures DelaysTell(f, script, n, Done, left)
  {
  }

  /** So many instants have gone by, as far as the script has them, and left this script and these flags. */
  ghost predicate GoneBy(f: Flags, whole: seq<Instant>, n: nat, script: seq<Instant>, g: Flags) {
    var k := if n <= |whole| then n else |whole|;
    script == whole[k..] && g == Later(f, whole, k)
  }

  lemma OneGone(f: Flags, script: seq<Instant>)
    ensures if script == [] then GoneBy(f, script, 1, script, f)
            else GoneBy(f, script, 1, script[1..], Pressed(f, script[0].presses))
  {
    assert script != [] ==> Later(f, script, 0) == f;
  }

  lemma LaterNext(f: Flags, script: seq<Instant>, n: nat)
    requires n < |script|
    ensures Later(f, script, 0) == f
    ensures Later(f, script, n + 1) == Pressed(Later(f, script, n), script[n].presses)
  {
  }

  lemma OneMoreGone(f: Flags, whole: seq<Instant>, n: nat, m: seq<Instant>, g: Flags, script: seq<Instant>, h: Flags)
    requires GoneBy(f, whole, n, m, g) && GoneBy(g, m, 1, script, h)
    ensures GoneBy(f, whole, n + 1, script, h)
  {
    if n < |whole| {
      assert m[0] == whole[n] && m[1..] == whole[n + 1..];
      LaterNext(f, whole, n);
      LaterNext(g, m, 0);
    } else {
      assert m == [] && Later(g, m, 0) == g;
    }
    hide Later, Pressed;
  }

  lemma GoneIsRest(f: Flags, whole: seq<Instant>, n: nat, script: seq<Instant>, g: Flags)
    requires GoneBy(f, whole, n, script, g)
    ensures Rest(script, whole)
  {
  }

  /** The wait of a drive of the main cover, which begins after the six delays of the drive. */
  ghost predicate CoverTells(f: Flags, whole: seq<Instant>, timeout: nat, target: Target, o: Outcome,
                             left: seq<Instant>, g: Flags) {
    forall script, h :: GoneBy(f, whole, 6, script, h) ==>
      WaitTells(Wait(h, MainCover, timeout, target, script), o, left, g)
  }

  lemma CoverWaits(f: Flags, whole: seq<Instant>, script: seq<Instant>, h: Flags, timeout: nat, target: Target,
                   o: Outcome, left: seq<Instant>, g: Flags)
    requires GoneBy(f, whole, 6, script, h) && WaitTells(Wait(h, MainCover, timeout, target, script), o, left, g)
    ensures CoverTells(f, whole, timeout, target, o, left, g)
  {
    hide WaitTells;
  }

  /** A wait and the reading that has to confirm its good end, told by what settles the wait. */
  ghost predicate ConfirmedTells(w: Wait, reading: int, o: Outcome, left: seq<Instant>) {
    match SettlesFrom(w, 0)
    case None => o == Cut
    case Some(i) =>
      if i % 2 == 0 && Arrives(w, i) then
        if i + 1 == |w.script| then o == Cut
        else
          && o == (if PtCheck(w.motor, w.script[i + 1].word) == reading then Done else Abort)
          && Used(w.script, left, i + 2)
      else o != Done
  }

  lemma NotConfirmed(w: Wait, reading: int, o: Outcome, left: seq<Instant>, g: Flags)
    requires WaitTells(w, o, left, g) && o != Done
    ensures ConfirmedTells(w, reading, o, left)
  {
  }

  lemma ArrivedThenLook(w: Wait, reading: int, middle: seq<Instant>, g: Flags, o: Outcome, left: seq<Instant>)
    requires WaitTells(w, Done, middle, g)
    requires if middle == [] then o == Cut
             else o == (if PtCheck(w.motor, middle[0].word) == reading then Done else Abort) && left == middle[1..]
    ensures ConfirmedTells(w, reading, o, left)
  {
    hide SettlesFrom;
  }

  /** The main cover has 20 s to open, and has to be read open then. */
  ghost predicate OpeningTells(f: Flags, script: seq<Instant>, o: Outcome, left: seq<Instant>) {
    ConfirmedTells(Wait(f, MainCover, 20000, Open, script), 1, o, left)
  }

  /** The scoop goes out a second time if and only if it is not read out after the first. */
  ghost predicate PutBackTells(f: Flags, script: seq<Instant>, o: Outcome, again: bool) {
    o == Done || again ==>
      exists middle: seq<Instant>, g: Flags ::
        && WaitTells(Wait(f, ScoopInOut, 15000, Open, script), Done, middle, g)
        && middle != [] && (again <==> PtCheck(ScoopInOut, middle[0].word) != 1)
  }

  lemma PutBackSaw(f: Flags, script: seq<Instant>, middle: seq<Instant>, g: Flags, o: Outcome, again: bool)
    requires WaitTells(Wait(f, ScoopInOut, 15000, Open, script), Done, middle, g)
    requires middle != [] && (again <==> PtCheck(ScoopInOut, middle[0].word) != 1)
    ensures PutBackTells(f, script, o, again)
  {
    hide WaitTells;
  }

  /** The cover is found open, or not, once the scoop is in: right away, or when the wait for it has ended well. */
  ghost predicate PlaceTells(f: Flags, script: seq<Instant>, o: Outcome, scoopIn: bool, coverOpen: bool) {
    && (script != [] ==> scoopIn == script[0].word.scoopIn)
    && (o == Done || coverOpen ==> script != [])
    && ((o == Done || coverOpen) && scoopIn ==> |script| >= 2 && coverOpen == script[1].word.mainOpen)
    && ((o == Done || coverOpen) && !scoopIn ==>
          script != [] && exists middle: seq<Instant>, g: Flags ::
            && WaitTells(Wait(Pressed(f, script[0].presses), ScoopInOut, 15000, Close, script[1..]), Done, middle, g)
            && middle != [] && coverOpen == middle[0].word.mainOpen)
  }

  lemma PlaceSeen(f: Flags, script: seq<Instant>, o: Outcome, middle: seq<Instant>, g: Flags, coverOpen: bool)
    requires script != [] && !script[0].word.scoopIn
    requires WaitTells(Wait(Pressed(f, script[0].presses), ScoopInOut, 15000, Close, script[1..]), Done, middle, g)
    requires middle != [] && coverOpen == middle[0].word.mainOpen
    ensures PlaceTells(f, script, o, false, coverOpen)
  {
    hide WaitTells, Pressed;
  }

  /** The same after the six delays of the drive. */
  ghost predicate OpensAsTold(f: Flags, whole: seq<Instant>, o: Outcome, left: seq<Instant>) {
    forall script, h :: GoneBy(f, whole, 6, script, h) ==> OpeningTells(h, script, o, left)
  }

  lemma OpensAfter(f: Flags, whole: seq<Instant>, script: seq<Instant>, h: Flags, o: Outcome, left: seq<Instant>)
    requires GoneBy(f, whole, 6, script, h) && OpeningTells(h, script, o, left)
    ensures OpensAsTold(f, whole, o, left)
  {
    hide OpeningTells;
  }

  /** Until look i nothing is pressed, and the cover is still on its way within its time. */
  ghost predicate OnItsWay(script: seq<Instant>, i: nat) {
    && i < |script| && (forall k :: 0 <= k <= i ==> script[k].presses == [])
    && forall k :: 0 < k < i && k % 2 == 0 ==>
         && PtCheck(MainCover, script[k].word) != 1 && Runs(script[k], MainCover)
         && ElapsedMs(script[0].clockUs, script[k].clockUs) < 20000
  }

  lemma {:induction false} NothingPressed(f: Flags, script: seq<Instant>, n: nat)
    requires n <= |script| && forall k :: 0 <= k < n ==> script[k].presses == []
    ensures Later(f, script, n) == f
  {
    if n > 0 {
      NothingPressed(f, script, n - 1);
    }
  }

  /** A cover that is read open at last opens, five seconds or any time short of twenty later. */
  lemma OpensLate(script: seq<Instant>, i: nat, o: Outcome, left: seq<Instant>)
    requires OpeningTells(Unpressed, script, o, left)
    requires i >= 2 && i % 2 == 0 && OnItsWay(script, i) && i + 1 < |script|
    requires PtCheck(MainCover, script[i].word) == 1 && PtCheck(MainCover, script[i + 1].word) == 1
    ensures o == Done && Used(script, left, i + 2)
  {
    var w := Wait(Unpressed, MainCover, 20000, Open, script);
    forall k | 0 <= k < i
      ensures !Settles(w, k)
    {
      NothingPressed(Unpressed, script, k + 1);
    }
    assert Arrives(w, i) && Settles(w, i) && Unsettled(w, i);
    SettlesFirst(w, i);
  }

  // --------------------------------------------------------------- particular scripts

  /** What was pressed comes to nothing: nothing at all was, or a stop that was cleared before the look. */
  predicate IsQuiet(now: Instant) {
    Pressed(Unpressed, now.presses) == Unpressed
  }

  /** Turning motor on its start sensor, waste cover shut, main cover open, scoop in. */
  const EASY := Word(true, false, true, true, false, true, false, false, false)

  predicate IsEasy(now: Instant) {
    IsQuiet(now) && now.word == EASY && now.running == map[] && now.tof == 1000
  }

  /** For n instants nothing interferes, no motor runs, and the clock makes leaps of 40 s: no wait takes long. */
  ghost predicate Swift(script: seq<Instant>, n: nat) {
    && n <= |script|
    && (forall i :: 0 <= i < n ==> IsEasy(script[i]))
    && (forall i, j :: 0 <= i < j < n ==> script[i].clockUs + 40_000_000 <= script[j].clockUs)
  }

  lemma SwiftStart(script: seq<Instant>, n: nat)
    ensures Swift(script, n) ==> n <= |script| && forall i :: 0 <= i < n ==> IsEasy(script[i])
  {
  }

  lemma SwiftDistance(script: seq<Instant>)
    ensures Swift(script, 1) ==>
              script != [] && IsQuiet(script[0]) && Distance(script[0]) == 1000 && Used(script, script[1..], 1)
  {
  }

  lemma EasyIsShut()
    ensures PtCheck(WasteCover, EASY) == -1 && PtCheck(ScoopInOut, EASY) != 1
  {
  }

  lemma SwiftTwo(script: seq<Instant>)
    ensures Swift(script, 2) ==>
              && |script| >= 2 && IsEasy(script[0]) && IsEasy(script[1])
              && script[0].clockUs + 40_000_000 <= script[1].clockUs
  {
  }

  lemma SwiftThree(script: seq<Instant>)
    ensures Swift(script, 3) ==>
              && |script| >= 3 && IsEasy(script[0]) && IsEasy(script[1]) && IsEasy(script[2])
              && script[0].clockUs + 40_000_000 <= script[2].clockUs
  {
  }

  /** A wait on such a script is over at its first look at the clock. */
  lemma SwiftWait(w: Wait, o: Outcome, left: seq<Instant>, g: Flags)
    requires Swift(w.script, 3) && w.flags == Unpressed && WaitTells(w, o, left, g)
    ensures o == Done && Used(w.script, left, 3) && g == Unpressed
  {
    assert IsEasy(w.script[0]) && IsEasy(w.script[1]) && IsEasy(w.script[2]);
    assert Later(w.flags, w.script, 0) == Unpressed && Later(w.flags, w.script, 1) == Unpressed;
    assert Later(w.flags, w.script, 2) == Unpressed && Later(w.flags, w.script, 3) == Unpressed;
    assert Arrives(w, 2) && Settles(w, 2) && Unsettled(w, 2);
    SettlesFirst(w, 2);
  }

  lemma {:induction false} SwiftLater(script: seq<Instant>, n: nat, k: nat)
    requires Swift(script, n) && k <= n
    ensures Later(Unpressed, script, k) == Unpressed
  {
    if k > 0 {
      SwiftLater(script, n, k - 1);
      assert IsEasy(script[k - 1]);
    }
  }

  lemma SwiftGone(whole: seq<Instant>, n: nat, script: seq<Instant>, g: Flags)
    requires GoneBy(Unpressed, whole, n, script, g)
    ensures Swift(whole, n) ==> g == Unpressed && Used(whole, script, n)
  {
    if Swift(whole, n) {
      SwiftLater(whole, n, n);
    }
  }

  lemma HundredsIs(ms: nat, n: nat)
    requires n == if ms % 100 != 0 then ms / 100 + 1 else ms / 100
    ensures n == Hundreds(ms) && (ms >= 100 ==> n > 0)
  {
  }

  /** Using up n and then m instants is using up n + m. */
  lemma UsedSplit(whole: seq<Instant>, n: nat, m: nat)
    ensures forall script, last :: Used(whole, script, n) && Used(script, last, m) ==> Used(whole, last, n + m)
  {
  }

  lemma SwiftSplit(whole: seq<Instant>, n: nat, m: nat)
    ensures Swift(whole, n + m) ==>
              Swift(whole, n) && forall script :: Used(whole, script, n) ==> Swift(script, m)
    ensures forall script, last :: Used(whole, script, n) && Used(script, last, m) ==> Used(whole, last, n + m)
  {
    UsedSplit(whole, n, m);
    if Swift(whole, n + m) {
      forall script: seq<Instant> | Used(whole, script, n)
        ensures Swift(script, m)
      {
        forall i, j | 0 <= i < j < m
          ensures script[i].clockUs + 40_000_000 <= script[j].clockUs
        {
          assert whole[n + i].clockUs + 40_000_000 <= whole[n + j].clockUs;
        }
      }
    }
  }

  /** Nothing is pressed, the start sensor does not read, and the clock makes leaps of 40 s. */
  ghost predicate Dark(script: seq<Instant>) {
    && (forall i :: 0 <= i < |script| ==> script[i].presses == [] && !script[i].word.spinStart)
    && (forall i, j :: 0 <= i < j < |script| ==> script[i].clockUs + 40_000_000 <= script[j].clockUs)
  }

  lemma {:induction false} DarkIsCalm(f: Flags, script: seq<Instant>)
    requires !f.stop && Dark(script)
    ensures NeverStopped(f, script)
    decreases |script|
  {
    if script != [] {
      DarkRest(script, 1);
      DarkIsCalm(f, script[1..]);
    }
  }

  lemma DarkRestOf(script: seq<Instant>, whole: seq<Instant>)
    requires Rest(script, whole)
    ensures Dark(whole) && script != [] ==> script[0].presses == []
  {
  }

  lemma DarkGoesOn(f: Flags, g: Flags, script: seq<Instant>)
    requires script != [] && g == Pressed(f, script[0].presses)
    ensures Dark(script) && !f.stop ==> g == f && NeverStopped(g, script[1..]) && Dark(script[1..])
    ensures |script| >= 4 ==> script[1..][3..] == script[4..]
  {
    if Dark(script) && !f.stop {
      DarkRest(script, 1);
      DarkIsCalm(g, script[1..]);
    }
  }

  lemma DarkSearch(script: seq<Instant>)
    ensures Dark(script) ==> AfterSearch(script, true) == if |script| < 2 then None else Some(script[2..])
    ensures Dark(script) ==>
              AfterCheckedSearch(script, true) == if |script| < 3 then None else Some(script[3..])
  {
    if Dark(script) && |script| >= 2 {
      assert EndsAt(script, true, 1);
      assert !EndsAt(script, true, 0);
      assert |script| >= 3 ==> script[2..][1..] == script[3..];
    }
  }

  /** A search that never finds the sensor, and a stop pressed at the last look of the script. */
  ghost predicate Caught(script: seq<Instant>) {
    && script != [] && script[|script| - 1].presses == [EmergencyStop]
    && (forall i :: 0 <= i < |script| ==> !script[i].word.spinStart && !script[i].word.scoopIn)
    && (forall i :: 0 <= i < |script| - 1 ==> script[i].presses == [])
  }

  ghost predicate CaughtIn(script: seq<Instant>, n: nat) {
    |script| == n && Caught(script)
  }

  lemma CaughtIs(script: seq<Instant>)
    ensures CaughtIn(script, 1) ==> script[1..] == [] && !script[0].word.spinStart
    ensures CaughtIn(script, 2) ==> script[0].presses == [] && CaughtIn(script[1..], 1)
  {
  }

  lemma CaughtRest(script: seq<Instant>)
    ensures Caught(script) && |script| > 1 ==> Caught(script[1..])
  {
  }

  /** How many full turns a search makes on such a script. */
  function DarkTurns(n: nat): nat {
    if n < 2 then 0 else if n < 5 then 1 else 1 + DarkTurns(n - 5)
  }

  lemma DarkRest(script: seq<Instant>, n: nat)
    ensures Dark(script) && n <= |script| ==> Dark(script[n..])
  {
    if Dark(script) && n <= |script| {
      forall i, j | 0 <= i < j < |script| - n
        ensures script[n..][i].clockUs + 40_000_000 <= script[n..][j].clockUs
      {
        assert script[n + i].clockUs + 40_000_000 <= script[n + j].clockUs;
      }
    }
  }

  lemma SwiftBegins(whole: seq<Instant>, n: nat, m: nat)
    ensures Swift(whole, n + m) ==> Swift(whole, n)
  {
  }

  lemma SwiftGoesOn(whole: seq<Instant>, script: seq<Instant>, n: nat, m: nat)
    ensures Swift(whole, n + m) && Used(whole, script, n) ==> Swift(script, m)
  {
    SwiftSplit(whole, n, m);
  }

  lemma UsedOn(whole: seq<Instant>, script: seq<Instant>, last: seq<Instant>, n: nat, m: nat)
    ensures Used(whole, script, n) && Used(script, last, m) ==> Used(whole, last, n + m)
  {
  }

  /** A wait that is paused and then resumed before it has looked at anything. */
  predicate PressedTwice(script: seq<Instant>) {
    && |script| >= 3 && IsQuiet(script[0])
    && script[1].presses == [PauseButton] && script[2].presses == [PauseButton]
  }

  predicate BeginsPaused(script: seq<Instant>) {
    |script| >= 2 && script[0].presses == [PauseButton] && script[1].presses == [PauseButton]
  }

  /** A distance check that finds an obstacle, and a press that ends the pause it makes. */
  predicate BlockedOnce(script: seq<Instant>) {
    && |script| >= 2 && IsQuiet(script[0]) && Obstacle(Distance(script[0]))
    && script[1].presses == [PauseButton]
  }

  /** A distance check that has no answer. */
  predicate Unanswered(script: seq<Instant>) {
    script != [] && IsQuiet(script[0]) && Distance(script[0]) <= 0
  }

  lemma PressFacts(script: seq<Instant>)
    ensures Swift(script, 3) ==>
              && |script| >= 3 && IsQuiet(script[0]) && IsQuiet(script[1]) && IsQuiet(script[2])
    ensures PressedTwice(script) ==>
              && |script| >= 3 && IsQuiet(script[0])
              && script[1].presses == [PauseButton] && script[2].presses == [PauseButton]
  {
    SwiftThree(script);
  }

  /** The same after n swift instants. */
  ghost predicate PressedAfter(script: seq<Instant>, n: nat) {
    Swift(script, n) && PressedTwice(script[n..])
  }

  ghost predicate BlockedAfter(script: seq<Instant>, n: nat) {
    Swift(script, n) && BlockedOnce(script[n..])
  }

  ghost predicate UnansweredAfter(script: seq<Instant>, n: nat) {
    Swift(script, n) && Unanswered(script[n..])
  }

  /** The pause button is pressed right after n swift instants. */
  ghost predicate PausedAt(script: seq<Instant>, n: nat) {
    Swift(script, n) && n < |script| && script[n].presses == [PauseButton]
  }

  lemma PausedBegins(whole: seq<Instant>, n: nat)
    ensures PausedAt(whole, n) ==> Swift(whole, n)
  {
  }

  lemma PausedGoesOn(whole: seq<Instant>, script: seq<Instant>, n: nat)
    ensures PausedAt(whole, n) && Used(whole, script, n) ==> script != [] && script[0].presses == [PauseButton]
  {
  }

  lemma PressedSplit(whole: seq<Instant>, n: nat, m: nat)
    ensures PressedAfter(whole, n + m) ==>
              Swift(whole, n) && forall script :: Used(whole, script, n) ==> PressedAfter(script, m)
  {
    SwiftSplit(whole, n, m);
    forall script: seq<Instant> | PressedAfter(whole, n + m) && Used(whole, script, n)
      ensures PressedAfter(script, m)
    {
      assert script[m..] == whole[n + m..];
    }
  }

  /**
   What particular scripts lead to. Pressed twice in the first wait, nothing has moved but the main cover and the plate
   when the recovery looks at its first word; pressed twice while the scoop goes out, it is still on its way; with
   nothing in its way the recovery takes the scoop in; a press over an obstacle resumes the scenario; and a check
   without an answer lets it go on.
   */
  ghost predicate AsScripted(script: seq<Instant>, left: Summary, recovered: bool, resumed: bool, found: Findings) {
    && (PressedAfter(script, 6) && |script| > 9 ==>
          recovered && found.looked == Some(script[9].word) && Untouched(left))
    && (PressedAfter(script, 6) && Swift(script[9..], 14) ==> found.retract.Some?)
    && (PressedAfter(script, 61) && |script| > 64 ==>
          recovered && found.looked == Some(script[64].word) && left.scoopUnderway)
    && (BlockedAfter(script, 972) ==> resumed)
  }

  /** Where the recovery takes over. */
  ghost predicate LeftOn(whole: seq<Instant>, script: seq<Instant>, left: Summary, recovered: bool, resumed: bool) {
    && (PressedAfter(whole, 6) ==> recovered && Used(whole, script, 9) && Untouched(left))
    && (PressedAfter(whole, 61) ==> recovered && Used(whole, script, 64) && left.scoopUnderway)
    && (BlockedAfter(whole, 972) ==> resumed)
  }

  lemma NotRecovered(whole: seq<Instant>, script: seq<Instant>, left: Summary, resumed: bool)
    requires LeftOn(whole, script, left, false, resumed)
    ensures AsScripted(whole, left, false, resumed, NothingFound)
  {
    hide Swift;
  }

  lemma ScriptedOn(whole: seq<Instant>, script: seq<Instant>, left: Summary, resumed: bool, found: Findings)
    requires LeftOn(whole, script, left, true, resumed)
    requires script != [] ==> found.looked == Some(script[0].word)
    requires PressedAfter(whole, 6) && Swift(script, 14) ==> found.retract.Some?
    ensures AsScripted(whole, left, true, resumed, found)
  {
    hide Swift;
  }

  lemma PressedNow(script: seq<Instant>)
    ensures PressedAfter(script, 0) ==> PressedTwice(script)
  {
    assert script[0..] == script;
  }

  lemma BlockedNow(script: seq<Instant>)
    ensures BlockedAfter(script, 0) ==>
              && BlockedOnce(script) && script != [] && IsQuiet(script[0])
              && Obstacle(Distance(script[0])) && Resumes(script[1..])
  {
    assert script[0..] == script;
    OnePress(Flags(false, true, false), PauseButton);
  }

  lemma UnansweredNow(script: seq<Instant>)
    ensures UnansweredAfter(script, 0) ==> script != [] && IsQuiet(script[0]) && Distance(script[0]) <= 0
  {
    assert script[0..] == script;
  }

  lemma UnansweredSplit(whole: seq<Instant>, n: nat, m: nat)
    ensures UnansweredAfter(whole, n + m) ==>
              Swift(whole, n) && forall script :: Used(whole, script, n) ==> UnansweredAfter(script, m)
  {
    SwiftSplit(whole, n, m);
    forall script: seq<Instant> | UnansweredAfter(whole, n + m) && Used(whole, script, n)
      ensures UnansweredAfter(script, m)
    {
      assert script[m..] == whole[n + m..];
    }
  }

  lemma BlockedSplit(whole: seq<Instant>, n: nat, m: nat)
    ensures BlockedAfter(whole, n + m) ==>
              Swift(whole, n) && forall script :: Used(whole, script, n) ==> BlockedAfter(script, m)
  {
    SwiftSplit(whole, n, m);
    forall script: seq<Instant> | BlockedAfter(whole, n + m) && Used(whole, script, n)
      ensures BlockedAfter(script, m)
    {
      assert script[m..] == whole[n + m..];
    }
  }

  // ------------------------------------------- full turns under the flags

  function FullTurn(direction: Direction): Step {
    Spinning(360, direction, 100, 30000)
  }

  /** One search under the flags: its turn counts, and is the one full turn that a stop lets out. */
  ghost predicate TurnTells(f: Flags, direction: Direction, a: Guard, b: Guard, script: seq<Instant>) {
    && (Dark(script) && !f.stop ==> Added(a, b, f, 1))
    && (script == [] && f.stop && a.underStop == [] ==> b.underStop == [FullTurn(direction)])
  }

  /** The turn goes out, and nothing more. */
  lemma TurnFrom(f: Flags, direction: Direction, a: Guard, m: Guard, b: Guard, script: seq<Instant>)
    requires Added(a, m, f, 1) && (Dark(script) ==> SameUnder(m, b))
    requires a.underStop == [] && m.underStop == if f.stop then [FullTurn(direction)] else []
    ensures TurnTells(f, direction, a, b, script)
  {
  }

  lemma TurnCounts(f: Flags, direction: Direction, a: Guard, m: Guard, b: Guard, whole: seq<Instant>,
                   left: seq<Instant>)
    requires TurnTells(f, direction, a, m, whole) && Rest(left, whole) && |left| < |whole|
    requires left == [] || left[0].presses == [] ==> SameUnder(m, b)
    ensures TurnTells(f, direction, a, b, whole)
    ensures Dark(whole) && left != [] ==> left[0].presses == []
  {
  }

  /** The whole search from its look at the sensor on. */
  ghost predicate LookTells(f: Flags, direction: Direction, a: Guard, b: Guard, script: seq<Instant>) {
    && (Dark(script) && !f.stop ==> Added(a, b, f, DarkTurns(|script| + 1)))
    && (Caught(script) && |script| == 1 && !f.stop ==> b.underStop == [FullTurn(direction)])
  }

  /** And from its look at the stop on. */
  ghost predicate OriginTells(f: Flags, direction: Direction, a: Guard, b: Guard, script: seq<Instant>) {
    && (Dark(script) && !f.stop ==> Added(a, b, f, DarkTurns(|script|)))
    && (Caught(script) && |script| == 2 && !f.stop ==> b.underStop == [FullTurn(direction)])
  }

  lemma OriginEnds(f: Flags, direction: Direction, a: Guard, b: Guard, script: seq<Instant>)
    requires if script == [] then SameUnder(a, b) else script[0].presses != [] || f.stop
    ensures OriginTells(f, direction, a, b, script)
  {
  }

  lemma OriginFromLook(f: Flags, g: Flags, direction: Direction, a: Guard, m: Guard, b: Guard, script: seq<Instant>)
    requires script != [] && (script[0].presses == [] ==> SameUnder(a, m) && g == f)
    requires LookTells(g, direction, m, b, script[1..])
    ensures OriginTells(f, direction, a, b, script)
  {
    DarkRest(script, 1);
    CaughtRest(script);
    hide Dark;
  }

  lemma LookEnds(f: Flags, direction: Direction, a: Guard, b: Guard, script: seq<Instant>)
    requires if script == [] then SameUnder(a, b) else script[0].word.spinStart
    ensures LookTells(f, direction, a, b, script)
  {
  }

  /** A look, and then a search that so many turns count in. */
  lemma LookAdds(f: Flags, a: Guard, m: Guard, b: Guard, n: nat)
    requires SameUnder(a, m) && Added(m, b, f, n)
    ensures Added(a, b, f, n)
  {
  }

  lemma LookIs(f: Flags, direction: Direction, a: Guard, b: Guard, script: seq<Instant>)
    requires Dark(script) && !f.stop ==> Added(a, b, f, DarkTurns(|script| + 1))
    requires Caught(script) && |script| == 1 && !f.stop ==> b.underStop == [FullTurn(direction)]
    ensures LookTells(f, direction, a, b, script)
  {
  }

  lemma CaughtNow(f: Flags, g: Flags, direction: Direction, m: Guard, b: Guard, script: seq<Instant>)
    requires script != [] && m.underStop == [] && g == Pressed(f, script[0].presses)
    requires TurnTells(g, direction, m, b, script[1..])
    ensures Caught(script) && |script| == 1 ==> b.underStop == [FullTurn(direction)]
  {
    if Caught(script) && |script| == 1 {
      assert script[0].presses == [EmergencyStop] && script[1..] == [];
      OnePress(f, EmergencyStop);
      hide Pressed, Dark;
    }
  }

  lemma DarkNow(f: Flags, g: Flags, direction: Direction, a: Guard, m: Guard, b: Guard, script: seq<Instant>)
    requires script != [] && g == Pressed(f, script[0].presses) && (script[0].presses == [] ==> SameUnder(a, m))
    requires TurnTells(g, direction, m, b, script[1..])
    ensures Dark(script) && !f.stop ==> Added(a, b, f, 1)
  {
    DarkRest(script, 1);
    assert Dark(script) ==> script[0].presses == [];
    hide Dark, Caught, Added, SameUnder;
    if Dark(script) && !f.stop {
      assert g == f;
      LookAdds(f, a, m, b, 1);
    }
  }

  /** A look, one search, and the script ends with it. */
  lemma LookThenCut(f: Flags, g: Flags, direction: Direction, a: Guard, m: Guard, b: Guard, script: seq<Instant>)
    requires script != [] && m.underStop == [] && g == Pressed(f, script[0].presses)
    requires script[0].presses == [] ==> SameUnder(a, m)
    requires TurnTells(g, direction, m, b, script[1..]) && (Dark(script) && !f.stop ==> |script| < 4)
    ensures LookTells(f, direction, a, b, script)
  {
    hide Dark, Caught, Added, SameUnder, LookTells, TurnTells, Pressed;
    CaughtNow(f, g, direction, m, b, script);
    DarkNow(f, g, direction, a, m, b, script);
    assert 1 <= |script| < 4 ==> DarkTurns(|script| + 1) == 1;
    LookIs(f, direction, a, b, script);
  }

  /** A look, one search, and the whole over again. */
  lemma LookThenOrigin(f: Flags, g: Flags, h: Flags, direction: Direction, a: Guard, m: Guard, n: Guard, b: Guard,
                       script: seq<Instant>)
    requires |script| >= 2 && g == Pressed(f, script[0].presses) && (script[0].presses == [] ==> SameUnder(a, m))
    requires TurnTells(g, direction, m, n, script[1..]) && (Dark(script[1..]) ==> h == g)
    requires Dark(script) && !f.stop ==> |script| >= 4 && OriginTells(h, direction, n, b, script[4..])
    ensures LookTells(f, direction, a, b, script)
  {
    DarkNow(f, g, direction, a, m, n, script);
    DarkRest(script, 1);
    DarkRest(script, 4);
    assert Dark(script) ==> script[0].presses == [];
    hide Dark, Caught, Added, SameUnder, LookTells, TurnTells;
    if Dark(script) && !f.stop {
      assert g == f == h;
      AddedTwice(a, n, b, f, 1, DarkTurns(|script| - 4));
      assert DarkTurns(|script| + 1) == 1 + DarkTurns(|script| - 4);
    }
    LookIs(f, direction, a, b, script);
  }

  /** So many motions, all of them full turns, are under whichever of the request and the pause stands. */
  predicate UnderTurns(b: Guard, f: Flags, n: nat) {
    && Turning(b)
    && |b.underRequest| == (if f.asked then n else 0)
    && |b.underPause| == (if f.paused then n else 0)
  }

  /**
   A search for the start sensor that began with nothing under the flags: it goes on for as long as the script, in
   full turns, or ends with the one that a stop lets out.
   */
  ghost predicate SoughtTells(f: Flags, a: Guard, b: Guard, o: Outcome, script: seq<Instant>) {
    && (Dark(script) && !f.stop ==> o == Cut && UnderTurns(b, f, DarkTurns(|script|)))
    && (CaughtIn(script, 2) && !f.stop ==> o == Cut && b.underStop == [FullTurn(Reverse)])
  }

  lemma SoughtNow(f: Flags, a: Guard, b: Guard, o: Outcome, rest: seq<Instant>, script: seq<Instant>)
    requires Clear(a) && Turning(b) && OriginTells(f, Reverse, a, b, script)
    requires !f.stop && NeverStopped(f, script) ==> Ended(o, rest, AfterOrigin(script))
    requires CaughtIn(script, 2) && !f.stop ==> o == Cut
    ensures SoughtTells(f, a, b, o, script)
  {
    if Dark(script) && !f.stop {
      DarkIsCalm(f, script);
      NeverReadNeverEnds(script);
      hide AfterOrigin;
    }
  }

  /** What ended well was none of these. */
  lemma SoughtDone(f: Flags, a: Guard, b: Guard, c: Guard, o: Outcome, script: seq<Instant>)
    requires SoughtTells(f, a, b, Done, script)
    ensures SoughtTells(f, a, c, o, script)
  {
  }

  /** The calibration of a scoop that is not in: a look, and such a search. */
  ghost predicate SeatTells(f: Flags, b: Guard, o: Outcome, script: seq<Instant>) {
    script != [] && !script[0].word.scoopIn ==>
      var g, rest := Pressed(f, script[0].presses), script[1..];
      && (Dark(rest) && !g.stop ==> o == Cut && UnderTurns(b, g, DarkTurns(|rest|)))
      && (CaughtIn(rest, 2) && !g.stop ==> o == Cut && b.underStop == [FullTurn(Reverse)])
  }

  lemma SeatNot(f: Flags, b: Guard, o: Outcome, script: seq<Instant>)
    requires script == [] || script[0].word.scoopIn
    ensures SeatTells(f, b, o, script)
  {
  }

  lemma SeatFromOrigin(f: Flags, g: Flags, a: Guard, b: Guard, o: Outcome, script: seq<Instant>)
    requires script != [] && SoughtTells(g, a, b, o, script[1..])
    ensures g == Pressed(f, script[0].presses) ==> SeatTells(f, b, o, script)
  {
  }

  lemma SeatTellsDone(f: Flags, b: Guard, c: Guard, o: Outcome, script: seq<Instant>)
    ensures SeatTells(f, b, Done, script) ==> SeatTells(f, c, o, script)
  {
  }

  lemma SeatTellsCut(f: Flags, b: Guard, c: Guard, o: Outcome, script: seq<Instant>)
    requires o != Cut
    ensures SeatTells(f, b, o, script) ==> SeatTells(f, c, o, script)
  {
  }

  /** The same after n swift instants. */
  ghost predicate SeatAfter(script: seq<Instant>, n: nat, b: Guard, o: Outcome) {
    Swift(script, n) ==> SeatTells(Unpressed, b, o, script[n..])
  }

  lemma SeatNone(whole: seq<Instant>, n: nat, m: nat, b: Guard, o: Outcome)
    requires !Swift(whole, n)
    ensures SeatAfter(whole, n + m, b, o)
  {
    SwiftSplit(whole, n, m);
  }

  lemma SeatFirst(whole: seq<Instant>, script: seq<Instant>, n: nat, b: Guard, o: Outcome)
    requires Swift(whole, n) ==> Used(whole, script, n) && SeatTells(Unpressed, b, o, script)
    ensures SeatAfter(whole, n, b, o)
  {
  }

  lemma SeatLater(whole: seq<Instant>, script: seq<Instant>, n: nat, m: nat, b: Guard, o: Outcome)
    requires Swift(whole, n + m) ==> Used(whole, script, n) && SeatAfter(script, m, b, o)
    ensures SeatAfter(whole, n + m, b, o)
  {
    SwiftSplit(whole, n, m);
    if Swift(whole, n + m) {
      assert script[m..] == whole[n + m..];
    }
    hide SeatTells;
  }

  lemma SeatAfterDone(whole: seq<Instant>, n: nat, b: Guard, c: Guard, o: Outcome)
    requires SeatAfter(whole, n, b, Done)
    ensures SeatAfter(whole, n, c, o)
  {
    if Swift(whole, n) {
      SeatTellsDone(Unpressed, b, c, o, whole[n..]);
    }
  }

  lemma SeatAfterCut(whole: seq<Instant>, n: nat, b: Guard, c: Guard, o: Outcome)
    requires SeatAfter(whole, n, b, o) && (o == Cut ==> b == c)
    ensures SeatAfter(whole, n, c, o)
  {
    if Swift(whole, n) && o != Cut {
      SeatTellsCut(Unpressed, b, c, o, whole[n..]);
    }
  }
}
