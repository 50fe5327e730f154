/**
 What goes out although the emergency stop, the request for the recovery or the pause stands: for each of the three
 flags the motions sent since it does, and the list of what they can be.
 */
module CleaningGuard {
  import opened CleaningLog
  import opened CleaningPlan
  import opened Common

  // ----------------------------------------------------------------- told by the log

  datatype Flag = StopFlag | RequestFlag | PauseFlag

  predicate Stands(f: Flags, which: Flag) {
    match which
    case StopFlag => f.stop
    case RequestFlag => f.asked
    case PauseFlag => f.paused
  }

  predicate IsMotion(s: Step) {
    s.Command? && s.direction != Stop
  }

  /** The flags at the end of the log. */
  function FlagsOf(log: seq<Step>): Flags {
    if log == [] then Unpressed
    else
      var before, step := FlagsOf(log[..|log| - 1]), log[|log| - 1];
      if step.Flagged? then step.flags else if step.Left? then before.(paused := false, asked := false) else before
  }

  predicate HasLeft(log: seq<Step>) {
    Left in log
  }

  /** The motions that went out since the flag stands, or since the exit if it stood there already. */
  function Since(log: seq<Step>, which: Flag): seq<Step> {
    if log == [] || log[|log| - 1].Left? || !Stands(FlagsOf(log), which) then []
    else Since(log[..|log| - 1], which) + if IsMotion(log[|log| - 1]) then [log[|log| - 1]] else []
  }

  /** What neither moves nor looks: a delay of a pause, a STOP, a change of the flags. */
  predicate Idles(s: Step) {
    s == Slept(true) || s.Flagged? || (s.Command? && s.direction == Stop)
  }

  predicate SeesObstacle(s: Step) {
    s.TofCheck? && Obstacle(s.distance)
  }

  /** The log ends in a distance check that saw an obstacle, and a pause. */
  predicate Blocked(log: seq<Step>) {
    && log != []
    && var step := log[|log| - 1];
       SeesObstacle(step) || (Idles(step) && Blocked(log[..|log| - 1]))
  }

  /** A retract follows such a pause as the next command. */
  predicate ResumedOver(log: seq<Step>) {
    exists i, k :: 0 <= i < k < |log| && ResumedAt(log, i, k)
  }

  predicate ResumedAt(log: seq<Step>, i: nat, k: nat)
    requires i < k < |log|
  {
    && SeesObstacle(log[i]) && MovesTo(log[k], ScoopInOut, Reverse)
    && forall j :: i < j < k ==> Idles(log[j])
  }

  /** It does so with the check at step i. */
  predicate BlockedFrom(log: seq<Step>, i: nat) {
    i < |log| && SeesObstacle(log[i]) && forall j :: i < j < |log| ==> Idles(log[j])
  }

  lemma {:induction false} BlockedMeans(log: seq<Step>)
    ensures Blocked(log) <==> exists i :: BlockedFrom(log, i)
  {
    if log != [] {
      var before, n := log[..|log| - 1], |log| - 1;
      BlockedMeans(before);
      assert log == before + [log[n]];
      if Blocked(log) {
        if SeesObstacle(log[n]) {
          assert BlockedFrom(log, n);
        } else {
          var i :| BlockedFrom(before, i);
          assert BlockedFrom(log, i);
        }
      }
      if i: nat :| BlockedFrom(log, i) {
        if i < n {
          BlockedBefore(log, i);
        }
      }
    }
  }

  lemma BlockedBefore(log: seq<Step>, i: nat)
    requires i < |log| - 1 && BlockedFrom(log, i)
    ensures BlockedFrom(log[..|log| - 1], i) && Idles(log[|log| - 1])
  {
  }

  lemma ResumedOverNext(log: seq<Step>, step: Step)
    ensures ResumedOver(log + [step]) <==> ResumedOver(log) || (MovesTo(step, ScoopInOut, Reverse) && Blocked(log))
  {
    var longer := log + [step];
    BlockedMeans(log);
    if i, k :| 0 <= i < k < |longer| && ResumedAt(longer, i, k) {
      if k < |log| {
        assert forall j :: i < j < k ==> longer[j] == log[j];
        assert ResumedAt(log, i, k);
      } else {
        assert forall j :: i < j < |log| ==> longer[j] == log[j];
        assert BlockedFrom(log, i);
      }
    }
    if i, k :| 0 <= i < k < |log| && ResumedAt(log, i, k) {
      assert forall j :: i < j < k ==> longer[j] == log[j];
      assert ResumedAt(longer, i, k);
    }
    if MovesTo(step, ScoopInOut, Reverse) && Blocked(log) {
      var i :| BlockedFrom(log, i);
      assert ResumedAt(longer, i, |log|);
    }
  }

  /** The flag stands after the first k steps, and the last of them is not the exit. */
  predicate StandsAt(log: seq<Step>, k: nat, which: Flag)
    requires 0 < k <= |log|
  {
    !log[k - 1].Left? && Stands(FlagsOf(log[..k]), which)
  }

  /** It has stood since after the first i steps, and no longer. */
  ghost predicate StoodSince(log: seq<Step>, i: nat, which: Flag) {
    && i <= |log| && (i == 0 || !StandsAt(log, i, which))
    && forall k :: i < k <= |log| ==> StandsAt(log, k, which)
  }

  lemma StandsBefore(log: seq<Step>, k: nat, which: Flag)
    requires 0 < k < |log|
    ensures StandsAt(log[..|log| - 1], k, which) == StandsAt(log, k, which)
  {
    assert log[..|log| - 1][..k] == log[..k];
  }

  /** What Since is: all the motions from the point on at which the flag was set, or at which the exit was. */
  lemma {:induction false} SinceMeans(log: seq<Step>, i: nat, which: Flag)
    requires StoodSince(log, i, which)
    ensures Since(log, which) == Motions(log[i..])
    decreases |log|
  {
    assert log[..|log|] == log;
    if i == |log| {
      assert log[i..] == [];
    } else {
      var before := log[..|log| - 1];
      assert StandsAt(log, |log|, which);
      forall k | 0 < k <= |before|
        ensures StandsAt(before, k, which) == StandsAt(log, k, which)
      {
        StandsBefore(log, k, which);
      }
      hide StandsAt;
      SinceMeans(before, i, which);
      assert log[i..][..|log| - 1 - i] == before[i..];
    }
  }

  function Motions(steps: seq<Step>): seq<Step> {
    if steps == [] then []
    else Motions(steps[..|steps| - 1]) + if IsMotion(steps[|steps| - 1]) then [steps[|steps| - 1]] else []
  }

  // ----------------------------------------------------------------- what it can be

  /** The acts are some of a group, one after the other. */
  ghost predicate PartOf(acts: seq<Step>, group: seq<Step>) {
    exists i :: 0 <= i <= |group| && acts <= group[i..]
  }

  /** The motions that go out without a look at the flags between them. */
  predicate IsGroup(left: bool, group: seq<Step>) {
    || group == DriveActs(Reverse, 100)
    || (!left && (group == DriveActs(Forward, 100) || group == CloseWasteActs(true, 2)
                  || group == CloseWasteActs(false, 2)))
  }

  ghost predicate InGroup(left: bool, acts: seq<Step>) {
    exists group :: IsGroup(left, group) && PartOf(acts, group)
  }

  /** The motions that each have a look at the flags behind them: those of the scenario, and those of the recovery. */
  predicate IsSingle(left: bool, s: Step) {
    if left then
      || s == Wasting(Reverse, 15000) || s == Scooping(Reverse, 15000)
      || s == Spinning(75, Forward, 100, 10000) || s == Spinning(70, Reverse, 100, 10000)
    else
      || s == Spinning(220, Forward, 140, 5000) || s == Scooping(Forward, 15000) || s == Wasting(Forward, 15000)
      || s == Scooping(Reverse, CYCLE_RETRACT_MS) || s == Spinning(160, Reverse, 100, 10000)
      || s == Spinning(70, Forward, 100, 5000) || s == Spinning(50, Forward, 100, 8000)
      || s == Scooping(Reverse, 25000) || s == Spinning(0, Reverse, 100, 8000)
  }

  /** The same where the look before it was at the stop alone, or at the stop and the request. */
  predicate IsSingleUnder(left: bool, which: Flag, s: Step) {
    || IsSingle(left, s)
    || (!left && which != StopFlag && s == Scooping(Reverse, 15000))
    || (!left && which == PauseFlag && s == Spinning(80, Reverse, 100, 10000))
  }

  /** A full turn of the search for the start sensor. */
  predicate IsTurn(s: Step) {
    s == Spinning(360, Forward, 100, 30000) || s == Spinning(360, Reverse, 100, 30000)
  }

  predicate AllTurns(acts: seq<Step>) {
    forall i :: 0 <= i < |acts| ==> IsTurn(acts[i])
  }

  /** What a search goes on to once it has ended. */
  predicate FollowsSearch(left: bool, s: Step) {
    || s == Spinning(if left then 75 else 90, Forward, 100, 10000)
    || s == Spinning(70, Reverse, 100, 10000)
  }

  predicate IsSearch(left: bool, acts: seq<Step>) {
    AllTurns(acts) || (acts != [] && AllTurns(acts[..|acts| - 1]) && FollowsSearch(left, acts[|acts| - 1]))
  }

  /**
   What can go out under a flag, in the scenario and after it has been left: some of a group, or one motion; under the
   stop, or one full turn; under the request and the pause, or any number of full turns and one motion behind them.
   */
  ghost predicate MayFollow(left: bool, which: Flag, acts: seq<Step>) {
    || InGroup(left, acts)
    || (|acts| == 1 && IsSingleUnder(left, which, acts[0]))
    || (which == StopFlag && |acts| == 1 && IsTurn(acts[0]))
    || (which != StopFlag && IsSearch(left, acts))
  }

  /** At no point of the log has anything else gone out under a flag. */
  ghost predicate Orderly(log: seq<Step>) {
    forall k, which :: 0 <= k <= |log| ==> OrderlyAt(log, k, which)
  }

  ghost predicate OrderlyAt(log: seq<Step>, k: nat, which: Flag)
    requires k <= |log|
  {
    MayFollow(HasLeft(log[..k]), which, Since(log[..k], which))
  }

  /**
   What it says of the log: whatever went out from the point on at which the flag was set, or at which the exit was, up
   to any later point is on the list.
   */
  lemma OrderlyMeans(log: seq<Step>, i: nat, n: nat, which: Flag)
    requires Orderly(log) && i <= n <= |log| && StoodSince(log[..n], i, which)
    ensures MayFollow(HasLeft(log[..n]), which, Motions(log[i..n]))
  {
    SinceMeans(log[..n], i, which);
    assert log[..n][i..] == log[i..n];
    assert OrderlyAt(log, n, which);
  }

  /** Under a stop that stands no more than six motions go out, those of a waste cover closed in three tries. */
  lemma FewUnderStop(left: bool, acts: seq<Step>)
    requires MayFollow(left, StopFlag, acts)
    ensures |acts| <= 6
  {
    if InGroup(left, acts) {
      var group :| IsGroup(left, group) && PartOf(acts, group);
      FullDrive(Forward);
      FullDrive(Reverse);
      assert |CloseWasteActs(true, 2)| == 6 && |CloseWasteActs(false, 2)| == 5;
    }
  }

  // ----------------------------------------------------------------- kept step by step

  datatype Guard = Guard(
    flags: Flags, left: bool, underStop: seq<Step>, underRequest: seq<Step>, underPause: seq<Step>,
    blocked: bool, over: bool)

  function Under(g: Guard, which: Flag): seq<Step> {
    match which
    case StopFlag => g.underStop
    case RequestFlag => g.underRequest
    case PauseFlag => g.underPause
  }

  function GuardOf(log: seq<Step>): Guard {
    Guard(FlagsOf(log), HasLeft(log), Since(log, StopFlag), Since(log, RequestFlag), Since(log, PauseFlag),
          Blocked(log), ResumedOver(log))
  }

  /** What a motion under a flag adds to. */
  function Joined(acts: seq<Step>, stands: bool, step: Step): seq<Step> {
    if !stands then [] else if IsMotion(step) then acts + [step] else acts
  }

  function FlagsNext(f: Flags, step: Step): Flags {
    if step.Flagged? then step.flags else if step.Left? then f.(paused := false, asked := false) else f
  }

  function GuardNext(g: Guard, step: Step): Guard {
    var f := FlagsNext(g.flags, step);
    Guard(f, g.left || step.Left?,
          if step.Left? then [] else Joined(g.underStop, f.stop, step),
          Joined(g.underRequest, f.asked, step),
          Joined(g.underPause, f.paused, step),
          SeesObstacle(step) || (Idles(step) && g.blocked),
          g.over || (MovesTo(step, ScoopInOut, Reverse) && g.blocked))
  }

  lemma SinceNext(log: seq<Step>, step: Step, which: Flag)
    ensures FlagsOf(log + [step]) == FlagsNext(FlagsOf(log), step)
    ensures Since(log + [step], which)
         == if step.Left? then [] else Joined(Since(log, which), Stands(FlagsOf(log + [step]), which), step)
  {
    assert (log + [step])[..|log|] == log;
    assert Since(log, which) + [] == Since(log, which);
  }

  lemma GuardGrows(log: seq<Step>, step: Step)
    ensures GuardOf(log + [step]) == GuardNext(GuardOf(log), step)
  {
    assert (log + [step])[..|log|] == log;
    ResumedOverNext(log, step);
    SinceNext(log, step, StopFlag);
    SinceNext(log, step, RequestFlag);
    SinceNext(log, step, PauseFlag);
    hide Since, FlagsOf, ResumedOver;
  }

  /** The step would leave the guard within the lists. */
  ghost predicate Admits(g: Guard, step: Step) {
    Listed(GuardNext(g, step))
  }

  ghost predicate Listed(g: Guard) {
    forall which :: MayFollow(g.left, which, Under(g, which))
  }

  lemma OrderlyNext(log: seq<Step>, step: Step)
    requires Orderly(log) && Listed(GuardOf(log + [step]))
    ensures Orderly(log + [step])
  {
    var longer := log + [step];
    forall k, which | 0 <= k <= |longer|
      ensures OrderlyAt(longer, k, which)
    {
      if k <= |log| {
        assert longer[..k] == log[..k];
        assert OrderlyAt(log, k, which);
      } else {
        assert longer[..k] == longer;
        assert MayFollow(HasLeft(longer), which, Under(GuardOf(longer), which));
      }
    }
  }

  lemma OrderlyEnd(log: seq<Step>)
    requires Orderly(log)
    ensures Listed(GuardOf(log))
  {
    forall which
      ensures MayFollow(HasLeft(log), which, Under(GuardOf(log), which))
    {
      assert log[..|log|] == log;
      assert OrderlyAt(log, |log|, which);
    }
  }

  /** The guard of a log so far, with the flags as they are. */
  ghost predicate Guarded(g: Guard, log: seq<Step>, f: Flags) {
    g == GuardOf(log) && g.flags == f && Orderly(log) && (g.left ==> !g.blocked)
  }

  lemma GuardedNext(g: Guard, log: seq<Step>, f: Flags, step: Step)
    requires Guarded(g, log, f) && Admits(g, step) && (step.TofCheck? ==> !g.left)
    ensures Guarded(GuardNext(g, step), log + [step], FlagsNext(f, step))
  {
    GuardGrows(log, step);
    OrderlyNext(log, step);
    hide GuardOf, Orderly, Listed;
  }

  /** Nothing is under a flag that does not stand. */
  predicate Sound(g: Guard) {
    && (!g.flags.stop ==> g.underStop == []) && (!g.flags.asked ==> g.underRequest == [])
    && (!g.flags.paused ==> g.underPause == [])
  }

  lemma GuardedEnd(g: Guard, log: seq<Step>, f: Flags)
    requires Guarded(g, log, f)
    ensures Listed(g) && Sound(g)
  {
    OrderlyEnd(log);
  }

  lemma FirstGuard(f: Flags)
    ensures Guarded(Guard(f, false, [], [], [], false, false), [Flagged(f)], f)
  {
    var log := [Flagged(f)];
    assert log[..0] == [] && log[..1] == log == [] + [Flagged(f)];
    forall k, which | 0 <= k <= |log|
      ensures OrderlyAt(log, k, which)
    {
      assert log[..k] == [] || log[..k] == log;
      assert Since(log[..k], which) == [];
      NothingFollows(HasLeft(log[..k]), which);
      hide MayFollow;
    }
    GuardGrows([], Flagged(f));
    assert !ResumedOver([]);
  }

  lemma FlagsLeaveNothing(f: Flags)
    ensures var g := GuardOf([Flagged(f)]); Ready(g) && !g.over
  {
    SinceNext([], Flagged(f), StopFlag);
    SinceNext([], Flagged(f), RequestFlag);
    SinceNext([], Flagged(f), PauseFlag);
    assert [] + [Flagged(f)] == [Flagged(f)];
  }

  lemma NothingFollows(left: bool, which: Flag)
    ensures MayFollow(left, which, [])
  {
    assert IsGroup(left, DriveActs(Reverse, 100)) && PartOf([], DriveActs(Reverse, 100)) by {
      assert [] <= DriveActs(Reverse, 100)[0..];
    }
  }

  // ----------------------------------------------------------------- what a stretch of the run does to it

  /** Nothing went out: under each flag there is what there was, or nothing any more. */
  predicate Faded(a: Guard, b: Guard) {
    && b.left == a.left && b.over == a.over
    && (b.underStop == a.underStop || b.underStop == [])
    && (b.underRequest == a.underRequest || b.underRequest == [])
    && (b.underPause == a.underPause || b.underPause == [])
  }

  /** Nothing has gone out under any flag that stands. */
  predicate Clear(g: Guard) {
    g.underStop == [] && g.underRequest == [] && g.underPause == []
  }

  /** Nothing has under the stop or the request. */
  predicate Unasked(g: Guard) {
    g.underStop == [] && g.underRequest == []
  }

  /** Clear, in the scenario. */
  predicate Ready(g: Guard) {
    !g.left && Clear(g)
  }

  /** Clear, in the recovery. */
  predicate Exited(g: Guard) {
    g.left && Clear(g)
  }

  /** Nothing under the stop, and full turns alone under the other flags. */
  predicate Turned(g: Guard) {
    g.underStop == [] && Turning(g)
  }

  predicate Turning(g: Guard) {
    AllTurns(g.underRequest) && AllTurns(g.underPause)
  }

  /** The acts are the last ones of a group, from some point on. */
  ghost predicate EndsWith(acts: seq<Step>, group: seq<Step>) {
    |acts| <= |group| && acts == group[|group| - |acts|..]
  }

  /** What is under the flags is the end of what was sent of a group. */
  ghost predicate Ending(g: Guard, sent: seq<Step>) {
    EndsWith(g.underStop, sent) && EndsWith(g.underRequest, sent) && EndsWith(g.underPause, sent)
  }

  predicate SameUnder(a: Guard, b: Guard) {
    b.underStop == a.underStop && b.underRequest == a.underRequest && b.underPause == a.underPause
  }

  /** So many motions went out, under whichever of the request and the pause stands. */
  predicate Added(a: Guard, b: Guard, f: Flags, n: nat) {
    && |b.underRequest| == |a.underRequest| + (if f.asked then n else 0)
    && |b.underPause| == |a.underPause| + (if f.paused then n else 0)
  }

  lemma StillSame(g: Guard, step: Step)
    requires Sound(g) && !IsMotion(step) && !step.Flagged? && !step.Left?
    ensures SameUnder(g, GuardNext(g, step))
  {
  }

  lemma SameStill(a: Guard, b: Guard, c: Guard)
    ensures SameUnder(a, b) && SameUnder(b, c) ==> SameUnder(a, c)
  {
  }

  lemma NotSame(g: Guard)
    ensures SameUnder(g, g)
  {
  }

  lemma SoughtTurned(g: Guard)
    requires Turning(g) && g.underStop == []
    ensures Turned(g)
  {
  }

  lemma TurnedStops(g: Guard)
    requires Turned(g)
    ensures g.underStop == []
  {
  }

  /** A motion under the stop, with nothing there before. */
  lemma StopCatches(g: Guard, step: Step)
    requires IsMotion(step) && g.underStop == []
    ensures GuardNext(g, step).underStop == if g.flags.stop then [step] else []
  {
  }

  lemma AddedTwice(a: Guard, b: Guard, c: Guard, f: Flags, n: nat, m: nat)
    requires Added(a, b, f, n) && Added(b, c, f, m)
    ensures Added(a, c, f, n + m)
  {
  }

  lemma MotionAdds(g: Guard, step: Step)
    requires IsMotion(step) && (!g.flags.asked ==> g.underRequest == []) && (!g.flags.paused ==> g.underPause == [])
    ensures Added(g, GuardNext(g, step), g.flags, 1)
  {
  }

  /** Neither was left or resumed, or both were. */
  predicate SameSide(a: Guard, b: Guard) {
    b.left == a.left && b.over == a.over
  }

  lemma SidesMeet(a: Guard, b: Guard, c: Guard)
    requires SameSide(a, b) && SameSide(b, c)
    ensures SameSide(a, c)
  {
  }

  lemma BeginsWith(a: seq<Step>, b: seq<Step>, whole: seq<Step>)
    requires a + b == whole
    ensures a <= whole && [] + a == a
  {
  }

  lemma FadedTwice(a: Guard, b: Guard, c: Guard)
    requires Faded(a, b) && Faded(b, c)
    ensures Faded(a, c)
  {
  }

  lemma NotFaded(g: Guard)
    ensures Faded(g, g)
  {
  }

  lemma FadedEnding(a: Guard, b: Guard, sent: seq<Step>)
    requires Faded(a, b) && Ending(a, sent)
    ensures Ending(b, sent)
  {
  }

  lemma FadedTurns(a: Guard, b: Guard)
    requires Faded(a, b)
    ensures (Clear(a) ==> Clear(b)) && (Turned(a) ==> Turned(b)) && (Turning(a) ==> Turning(b))
    ensures (Unasked(a) ==> Unasked(b)) && (a.underStop == [] ==> b.underStop == [])
    ensures b.left == a.left && b.over == a.over && SameSide(a, b)
    ensures Clear(b) && !a.left ==> Ready(b)
  {
  }

  lemma ClearTurned(g: Guard)
    requires Clear(g)
    ensures Turned(g)
  {
  }

  lemma ClearEnding(g: Guard, sent: seq<Step>)
    requires Clear(g)
    ensures Ending(g, sent)
  {
  }

  /** A step that moves nothing is always admitted. */
  lemma StillAdmitted(g: Guard, step: Step)
    requires Listed(g) && !IsMotion(step)
    ensures Admits(g, step)
    ensures !step.Left? ==> Faded(g, GuardNext(g, step))
    ensures Idles(step) ==> GuardNext(g, step).blocked == g.blocked
  {
    var next := GuardNext(g, step);
    forall which
      ensures MayFollow(next.left, which, Under(next, which))
    {
      assert MayFollow(g.left, which, Under(g, which));
      NothingFollows(next.left, which);
      hide MayFollow;
    }
  }

  lemma LeftClears(g: Guard)
    ensures var next := GuardNext(g, Left);
            Clear(next) && next.left && next.over == g.over && !next.blocked
  {
  }

  /** One motion, where what stands is no flag that forbids it. */
  lemma OneAdmitted(g: Guard, step: Step)
    requires Clear(g) && IsMotion(step)
    requires forall which :: Stands(g.flags, which) ==> IsSingleUnder(g.left, which, step)
    ensures Admits(g, step)
  {
    var next := GuardNext(g, step);
    forall which
      ensures MayFollow(next.left, which, Under(next, which))
    {
      NothingFollows(next.left, which);
      hide InGroup;
    }
  }

  lemma SingleAdmitted(g: Guard, step: Step)
    requires Clear(g) && IsSingle(g.left, step)
    ensures Admits(g, step)
  {
    OneAdmitted(g, step);
  }

  lemma TurnAdmitted(g: Guard, step: Step)
    requires Turned(g) && IsTurn(step)
    ensures Admits(g, step) && Turning(GuardNext(g, step))
    ensures !g.flags.stop ==> GuardNext(g, step).underStop == []
  {
    var next := GuardNext(g, step);
    TurnsGoOn(g.underRequest, g.flags.asked, step);
    TurnsGoOn(g.underPause, g.flags.paused, step);
    forall which
      ensures MayFollow(next.left, which, Under(next, which))
    {
      NothingFollows(next.left, which);
      hide InGroup, AllTurns;
    }
  }

  lemma TurnsGoOn(acts: seq<Step>, stands: bool, step: Step)
    requires AllTurns(acts) && IsTurn(step)
    ensures AllTurns(Joined(acts, stands, step))
  {
  }

  /** The motion that comes after a search; in the scenario the stop has been looked at by then. */
  lemma FollowAdmitted(g: Guard, step: Step)
    requires Turned(g) && FollowsSearch(g.left, step) && (g.left || !g.flags.stop)
    ensures Admits(g, step)
  {
    var next := GuardNext(g, step);
    SearchEnds(g.left, g.underRequest, g.flags.asked, step);
    SearchEnds(g.left, g.underPause, g.flags.paused, step);
    forall which
      ensures MayFollow(next.left, which, Under(next, which))
    {
      NothingFollows(next.left, which);
      hide InGroup, IsSearch, AllTurns;
    }
  }

  lemma SearchEnds(left: bool, acts: seq<Step>, stands: bool, step: Step)
    requires AllTurns(acts) && FollowsSearch(left, step)
    ensures IsSearch(left, Joined(acts, stands, step))
  {
    assert (acts + [step])[..|acts|] == acts;
  }

  lemma MotionStays(g: Guard, step: Step)
    requires !step.Left? && !MovesTo(step, ScoopInOut, Reverse)
    ensures var next := GuardNext(g, step); next.left == g.left && next.over == g.over
  {
  }

  lemma RetractPasses(g: Guard, timeout: nat)
    ensures var next := GuardNext(g, Scooping(Reverse, timeout));
            next.left == g.left && next.over == (g.over || g.blocked)
  {
  }

  /** Before anything else, and with no flag set, the plate. */
  lemma OpeningAdmitted(g: Guard)
    requires Ready(g) && !g.flags.stop && !g.flags.asked && !g.flags.paused
    ensures var step := Command(Plate, Forward, 0, 0, 0);
            Admits(g, step) && Ready(GuardNext(g, step)) && GuardNext(g, step).over == g.over
    ensures IsGroup(false, DriveActs(Forward, 100))
  {
    OneAdmitted(g, Command(Plate, Forward, 0, 0, 0));
    hide Admits, DriveActs;
  }

  lemma CloseIsGroup(first: bool)
    ensures IsGroup(false, CloseWasteActs(first, 2))
  {
  }

  /** The next motion of a group. */
  lemma GroupAdmitted(g: Guard, sent: seq<Step>, step: Step, group: seq<Step>)
    requires Ending(g, sent) && sent + [step] <= group && IsGroup(g.left, group) && IsMotion(step)
    ensures Admits(g, step) && Ending(GuardNext(g, step), sent + [step])
  {
    var next := GuardNext(g, step);
    EndGrows(g.underStop, g.flags.stop, sent, step, group);
    EndGrows(g.underRequest, g.flags.asked, sent, step, group);
    EndGrows(g.underPause, g.flags.paused, sent, step, group);
    forall which
      ensures MayFollow(next.left, which, Under(next, which))
    {
      hide IsGroup, PartOf, EndsWith;
      assert InGroup(next.left, Under(next, which));
    }
  }

  lemma EndGrows(acts: seq<Step>, stands: bool, sent: seq<Step>, step: Step, group: seq<Step>)
    requires EndsWith(acts, sent) && sent + [step] <= group && IsMotion(step)
    ensures var next := Joined(acts, stands, step); EndsWith(next, sent + [step]) && PartOf(next, group)
  {
    EndIsPart(Joined(acts, stands, step), sent + [step], group);
  }

  lemma EndIsPart(acts: seq<Step>, sent: seq<Step>, group: seq<Step>)
    requires sent <= group
    ensures EndsWith(acts, sent) ==> PartOf(acts, group)
  {
    if EndsWith(acts, sent) {
      assert acts <= group[|sent| - |acts|..];
    }
  }
}
