/**
 How the account of a log changes: by one command, by a stretch that only looks and waits, by the turns that search
 for the start sensor, and by the recovery.
 */
module CleaningAccounts {
  import opened CleaningGuard
  import opened CleaningLog
  import opened CleaningPlan
  import opened Common

  // ------------------------------------------------------------ what a stretch of the run can change

  /** Looking, sleeping and turning the other motors leave what the interlocks remember as it was. */
  ghost predicate Steady(a: Summary, b: Summary) {
    && b.scoop == a.scoop && b.waste == a.waste && b.tof == a.tof && b.wasteMotions == a.wasteMotions
    && (a.openSeen ==> b.openSeen)
    && (a.wasteClosedSeen ==> b.wasteClosedSeen)
    && (!a.scoopUnderway ==> !b.scoopUnderway)
    && (!a.wasteUnderway ==> !b.wasteUnderway)
  }

  /** Neither the scoop nor the waste cover is on its way. */
  predicate AtRest(s: Summary) {
    !s.scoopUnderway && !s.wasteUnderway
  }

  ghost predicate KeepsStopped(a: Stops, b: Stops) {
    && (a.plate ==> b.plate) && (a.mainCover ==> b.mainCover) && (a.scoopInOut ==> b.scoopInOut)
    && (a.scoopSpin ==> b.scoopSpin) && (a.wasteCover ==> b.wasteCover)
  }

  function WithStops(a: Account, stops: Stops): Account {
    a.(sum := a.sum.(stops := stops))
  }

  /** Motors were stopped, and nothing else. */
  ghost predicate Halted(a: Account, b: Account) {
    b == WithStops(a, b.sum.stops) && KeepsStopped(a.sum.stops, b.sum.stops)
  }

  /** Motors were stopped and a pause was sat out, without a look at the sensors. */
  ghost predicate Paused(a: Account, b: Account) {
    && b == a.(sum := a.sum.(stops := b.sum.stops, pausedNaps := b.sum.pausedNaps))
    && KeepsStopped(a.sum.stops, b.sum.stops)
  }

  /** Nothing but looking, sleeping and stopping went on: no rule can have been broken, no stopped motor runs again. */
  ghost predicate Calm(a: Account, b: Account) {
    b.ok == a.ok && b.acts == a.acts && Steady(a.sum, b.sum) && KeepsStopped(a.sum.stops, b.sum.stops)
  }

  /** The same, but for delays. */
  ghost predicate Idle(a: Account, b: Account) {
    Calm(a, b.(acts := a.acts))
  }

  ghost predicate NoNaps(a: Account, b: Account) {
    b.sum.naps == a.sum.naps && b.sum.pausedNaps == a.sum.pausedNaps
  }

  /** Calm, but for one motor that may have been moved. */
  ghost predicate CalmBut(a: Account, b: Account, motor: Motor) {
    && b.ok == a.ok && b.acts == a.acts && Steady(a.sum, b.sum)
    && KeepsStopped(SetStop(a.sum.stops, motor, false), b.sum.stops)
  }

  /** Calm, but for the latest distance. */
  ghost predicate CalmButTof(a: Account, b: Account) {
    && b.ok == a.ok.(answered := b.ok.answered) && b.acts == a.acts && Steady(a.sum.(tof := b.sum.tof), b.sum)
    && KeepsStopped(a.sum.stops, b.sum.stops)
  }

  /** A check of the distance. */
  function AfterCheck(a: Account, distance: int): Account {
    a.(sum := a.sum.(tof := Some(distance)), ok := a.ok.(answered := a.ok.answered && distance > 0))
  }

  lemma IdleTwice(a: Account, b: Account, c: Account)
    requires Idle(a, b) && Idle(b, c)
    ensures Idle(a, c)
  {
  }

  lemma IdleKeeps(a: Account, b: Account)
    requires Idle(a, b)
    ensures b.ok == a.ok && Steady(a.sum, b.sum)
  {
  }

  lemma HaltedIdles(a: Account, b: Account)
    requires Halted(a, b)
    ensures Idle(a, b) && NoNaps(a, b) && b.acts == a.acts
  {
  }

  lemma PausedIdles(a: Account, b: Account)
    requires Paused(a, b)
    ensures Idle(a, b) && b.sum.naps == a.sum.naps && b.acts == a.acts
  {
  }

  lemma SleptIdles(a: Account, b: Account)
    requires b == Account(a.sum.(naps := b.sum.naps, pausedNaps := b.sum.pausedNaps), a.ok, b.acts)
    ensures Idle(a, b)
  {
  }

  lemma DelaysStart(a: Account)
    ensures Idle(a, a) && a.acts == a.acts + Delays(0)
  {
  }

  lemma SteadyFromHalted(a: Account, b: Account)
    requires Halted(a, b)
    ensures Steady(a.sum, b.sum)
  {
  }

  lemma SteadyTwice(a: Summary, b: Summary, c: Summary)
    requires Steady(a, b) && Steady(b, c)
    ensures Steady(a, c)
  {
  }

  lemma SteadyReady(a: Summary, b: Summary)
    requires Steady(a, b)
    ensures a.openSeen ==> b.openSeen
    ensures AtRest(a) ==> AtRest(b)
    ensures !a.wasteUnderway ==> !b.wasteUnderway
    ensures b.scoop == a.scoop && b.waste == a.waste && b.tof == a.tof
  {
  }

  /** What a turn of the scoop leaves of a cleaning whose waste cover is shut. */
  lemma TurnedKeeps(a: Account, b: Account)
    requires Steady(a.sum, b.sum) && KeepsStopped(a.sum.stops.(scoopSpin := false), b.sum.stops)
    ensures (a.sum.openSeen ==> b.sum.openSeen) && (AtRest(a.sum) ==> AtRest(b.sum)) && b.sum.waste == a.sum.waste
    ensures a.sum.wasteClosedSeen ==> b.sum.wasteClosedSeen
    ensures Stopped(a.sum, WasteCover) ==> Stopped(b.sum, WasteCover)
  {
  }

  lemma PassedKeeps(a: Account, b: Account)
    requires Halted(a, b)
    ensures b.ok == a.ok && b.acts == a.acts
    ensures b.sum.openSeen == a.sum.openSeen && AtRest(a.sum) == AtRest(b.sum) && b.sum.waste == a.sum.waste
    ensures b.sum.wasteClosedSeen == a.sum.wasteClosedSeen
    ensures Stopped(a.sum, WasteCover) ==> Stopped(b.sum, WasteCover)
  {
  }

  lemma CalmTwice(a: Account, b: Account, c: Account)
    requires Calm(a, b) && Calm(b, c)
    ensures Calm(a, c)
  {
  }

  lemma HaltedTwice(a: Account, b: Account, c: Account)
    requires Halted(a, b) && Halted(b, c)
    ensures Halted(a, c)
  {
  }

  lemma NotHalted(a: Account)
    ensures Halted(a, a)
  {
  }

  lemma HaltedKeeps(a: Account, b: Account)
    requires Halted(a, b)
    ensures b.ok == a.ok && b.acts == a.acts && b.sum == a.sum.(stops := b.sum.stops)
    ensures KeepsStopped(a.sum.stops, b.sum.stops)
  {
  }

  lemma PausedStart(a: Account)
    ensures Paused(a, a)
  {
  }

  lemma PausedTwice(a: Account, b: Account, c: Account)
    requires Paused(a, b) && Paused(b, c)
    ensures Paused(a, c)
  {
  }

  /** Calm, with no delay but those of pauses. */
  ghost predicate Waited(a: Account, b: Account) {
    Calm(a, b) && b.sum.naps == a.sum.naps && a.sum.pausedNaps <= b.sum.pausedNaps
  }

  lemma WaitedTwice(a: Account, b: Account, c: Account)
    requires Waited(a, b) && Waited(b, c)
    ensures Waited(a, c) && a.sum.pausedNaps <= b.sum.pausedNaps <= c.sum.pausedNaps
  {
  }

  lemma HaltedWaited(a: Account, b: Account)
    requires Halted(a, b)
    ensures Waited(a, b) && Paused(a, b) && b.sum.pausedNaps == a.sum.pausedNaps
  {
  }

  lemma PausedWaited(a: Account, b: Account)
    requires Paused(a, b) && a.sum.pausedNaps <= b.sum.pausedNaps
    ensures Waited(a, b)
  {
  }

  lemma SeenWaited(a: Account, w: Word)
    ensures Waited(a, a.(sum := Seen(a.sum, w)))
  {
  }

  lemma WaitedCalm(a: Account, b: Account)
    requires Waited(a, b)
    ensures Calm(a, b)
  {
  }

  lemma ReadOrHaltedCalm(a: Account, b: Account, w: Word)
    ensures Read(a, b, w) || Halted(a, b) ==> Calm(a, b)
    ensures Read(a, b, w) && PtCheck(MainCover, w) == 1 ==> b.sum.openSeen
    ensures Read(a, b, w) && PtCheck(WasteCover, w) == -1 ==> b.sum.wasteClosedSeen
  {
    hide PtCheck, LimitRead;
  }

  /** A check of the distance, but for the motors that were stopped meanwhile. */
  ghost predicate Measured(a: Account, b: Account, distance: int) {
    b == AfterCheck(WithStops(a, b.sum.stops), distance) && KeepsStopped(a.sum.stops, b.sum.stops)
  }

  lemma HaltedMeasured(a: Account, b: Account, distance: int)
    requires Halted(a, b)
    ensures Measured(a, AfterCheck(b, distance), distance)
  {
  }

  /** A check of the distance, and what may follow it. */
  lemma CheckedCalm(a: Account, b: Account, c: Account, distance: int)
    requires Measured(a, b, distance) && Paused(b, c)
    ensures CalmButTof(a, c) && c.sum.tof == Some(distance)
    ensures c.ok.answered == (a.ok.answered && distance > 0)
  {
  }

  lemma HaltedUnchecked(a: Account, b: Account)
    requires Halted(a, b)
    ensures CalmButTof(a, b) && b.ok.answered == a.ok.answered
  {
  }

  lemma CheckedKeeps(a: Account, b: Account)
    requires CalmButTof(a, b)
    ensures b.ok == a.ok.(answered := b.ok.answered) && b.acts == a.acts
    ensures (a.sum.openSeen ==> b.sum.openSeen) && (AtRest(a.sum) ==> AtRest(b.sum)) && b.sum.waste == a.sum.waste
    ensures a.sum.wasteClosedSeen ==> b.sum.wasteClosedSeen
    ensures Stopped(a.sum, WasteCover) ==> Stopped(b.sum, WasteCover)
  {
  }

  /** What a look at the sensors, or the end of the script, says of the account. */
  lemma LookedCalm(a: Account, b: Account, w: Word)
    ensures Read(a, b, w) || Halted(a, b) ==> Calm(a, b)
    ensures Read(a, b, w) && PtCheck(WasteCover, w) == -1 ==> b.sum.wasteClosedSeen
  {
    ReadOrHaltedCalm(a, b, w);
  }

  lemma CalmMeans(a: Account, b: Account)
    requires Calm(a, b)
    ensures Steady(a.sum, b.sum) && KeepsStopped(a.sum.stops, b.sum.stops)
  {
  }

  lemma StoppedHalted(a: Account, motor: Motor)
    ensures Halted(a, WithStops(a, SetStop(a.sum.stops, motor, true)))
  {
  }

  /** Nothing was read, checked or moved but the main cover and the plate. */
  predicate Untouched(s: Summary) {
    s == Fresh.(stops := s.stops, pausedNaps := s.pausedNaps)
  }

  // -------------------------------------------------------- what one command does to the account

  function ActOf(step: Step): seq<Step> {
    if IsAct(step) then [step] else []
  }

  /** A motor that no interlock but OneAtATime is about. */
  function AfterOther(a: Account, stops: Stops, step: Step): Account
    requires step.Command?
  {
    Account(a.sum.(stops := stops),
            a.ok.(oneAtATime := a.ok.oneAtATime && (step.direction == Stop || !a.sum.scoopUnderway)),
            a.acts + ActOf(step))
  }

  /** The main cover was set going, and other motors may have been stopped. */
  ghost predicate Driven(a: Account, b: Account) {
    && b.sum == a.sum.(stops := b.sum.stops) && KeepsStopped(a.sum.stops.(mainCover := false), b.sum.stops)
    && b.ok == a.ok.(oneAtATime := a.ok.oneAtATime && !a.sum.scoopUnderway)
  }

  lemma DrivenNext(a: Account, direction: Direction, speed: nat)
    requires direction != Stop
    ensures var next := AfterOther(a, a.sum.stops.(mainCover := false), Covering(direction, speed));
            next.acts == a.acts + [Covering(direction, speed)] && Driven(a, next)
  {
  }

  lemma DrivenThenHalted(a: Account, b: Account, c: Account)
    requires Driven(a, b) && Halted(b, c)
    ensures Driven(a, c)
  {
  }

  /** The main cover is about to be set going, or on its way already. */
  ghost predicate Coming(a: Account, b: Account) {
    Driven(a, b) || Halted(a, b.(acts := a.acts))
  }

  lemma HaltedDriven(a: Account, b: Account)
    requires Halted(a, b)
    ensures Coming(a, b)
  {
  }

  lemma DrivenIsComing(a: Account, b: Account)
    requires Driven(a, b)
    ensures Coming(a, b)
  {
  }

  lemma ComingThenDriven(a: Account, b: Account, c: Account)
    requires Coming(a, b) && Driven(b, c)
    ensures Driven(a, c)
  {
  }

  function AfterSpin(a: Account, step: Step): Account
    requires step.Command?
  {
    Account(a.sum.(stops := a.sum.stops.(scoopSpin := step.direction == Stop)),
            a.ok.(openFirst := a.ok.openFirst && (step.direction == Stop || a.sum.openSeen),
                  oneAtATime := a.ok.oneAtATime && (step.direction == Stop || !a.sum.scoopUnderway)),
            a.acts + ActOf(step))
  }

  function AfterScoopOut(a: Account, timeout: nat): Account {
    Account(a.sum.(scoop := Some(Forward), scoopUnderway := true, tof := None,
                   stops := a.sum.stops.(scoopInOut := false)),
            a.ok.(openFirst := a.ok.openFirst && a.sum.openSeen, oneAtATime := a.ok.oneAtATime && AtRest(a.sum)),
            a.acts + [Scooping(Forward, timeout)])
  }

  lemma PlateIs(a: Account, direction: Direction)
    requires direction != Stop
    ensures var step := Command(Plate, direction, 0, 0, 0);
            Tally(a, step) == AfterOther(a, a.sum.stops.(plate := false), step)
  {
  }

  lemma CoverIs(a: Account, direction: Direction, speed: nat)
    requires direction != Stop
    ensures var step := Covering(direction, speed);
            Tally(a, step) == AfterOther(a, a.sum.stops.(mainCover := false), step)
  {
  }

  lemma SpinIs(a: Account, angle: nat, direction: Direction, speed: nat, timeout: nat)
    requires direction != Stop
    ensures var step := Spinning(angle, direction, speed, timeout); Tally(a, step) == AfterSpin(a, step)
  {
  }

  lemma ScoopOutIs(a: Account, timeout: nat)
    ensures Tally(a, Scooping(Forward, timeout)) == AfterScoopOut(a, timeout)
  {
  }

  lemma WasteIs(a: Account, direction: Direction, timeout: nat)
    requires direction != Stop
    ensures Tally(a, Wasting(direction, timeout)) == AfterWaste(a, direction, timeout)
  {
  }

  lemma StopIs(a: Account, motor: Motor)
    ensures Tally(a, Command(motor, Stop, 0, 0, 0)) == WithStops(a, SetStop(a.sum.stops, motor, true))
  {
    TallyActs(a, Command(motor, Stop, 0, 0, 0));
  }

  lemma ScoopInIs(a: Account, timeout: nat)
    ensures Tally(a, Scooping(Reverse, timeout)) == AfterScoopIn(a, timeout)
  {
  }

  lemma RetractedVerdict(a: Account, timeout: nat)
    requires MayRetract(a.sum, timeout)
    ensures var b := AfterScoopIn(a, timeout);
            && b.ok == a.ok.(tofClear := a.ok.tofClear && !Obstacle(a.sum.tof.value),
                             tofAbove := a.ok.tofAbove && a.sum.tof.value > TOF_LIMIT_MM)
            && b.acts == a.acts + [Scooping(Reverse, timeout)]
            && b.sum.stops == a.sum.stops.(scoopInOut := false)
            && b.sum.scoop == Some(Reverse) && b.sum.tof == a.sum.tof && !b.sum.wasteUnderway
  {
  }

  lemma Retracted(a: Account, b: Account, timeout: nat)
    requires Steady(AfterScoopIn(a, timeout).sum, b.sum)
    ensures a.sum.openSeen ==> b.sum.openSeen
    ensures b.sum.tof == a.sum.tof && b.sum.waste == a.sum.waste
    ensures a.sum.wasteClosedSeen ==> b.sum.wasteClosedSeen
  {
  }

  /** The latest distance is one to an obstacle. */
  predicate ObstacleAhead(s: Summary) {
    s.tof.Some? && Obstacle(s.tof.value)
  }

  /** While the run idles the latest distance stays. */
  lemma StaysBlocked(g: Guard, a: Account, step: Step)
    requires g.blocked ==> ObstacleAhead(a.sum)
    ensures GuardNext(g, step).blocked ==> ObstacleAhead(Tally(a, step).sum)
  {
    hide Judge;
  }

  lemma CheckBlocks(g: Guard, distance: int)
    ensures GuardNext(g, TofCheck(distance)).blocked == Obstacle(distance)
  {
  }

  lemma CheckIs(a: Account, distance: int)
    ensures Tally(a, TofCheck(distance)) == AfterCheck(a, distance)
  {
    TallyActs(a, TofCheck(distance));
  }

  lemma FlaggedKeeps(a: Account, f: Flags)
    ensures Tally(a, Flagged(f)) == a
  {
    TallyActs(a, Flagged(f));
  }

  lemma LeftKeeps(a: Account)
    ensures Tally(a, Left) == a
  {
    TallyActs(a, Left);
  }

  lemma FirstAccount(f: Flags)
    ensures Recorded([Blank, Blank], [Flagged(f)])
  {
    FlaggedKeeps(Blank, f);
  }

  /** What is known of a log so far: its account, those of its beginnings, and its guard. */
  ghost predicate Kept(log: seq<Step>, account: Account, trail: seq<Account>, guard: Guard, flags: Flags) {
    && Guarded(guard, log, flags) && (guard.blocked ==> ObstacleAhead(account.sum))
    && Recorded(trail, log) && account == trail[|log|]
  }

  /** Where it was marked, it had those accounts. */
  ghost predicate Marked(log: seq<Step>, trail: seq<Account>, leftAt: nat, leaving: Account, took: bool, tookAt: nat,
                         taking: Account) {
    && |trail| == |log| + 1 && leftAt <= |log| && leaving == trail[leftAt]
    && (took ==> leftAt <= tookAt < |log| && log[tookAt] == Scooping(Reverse, 15000) && taking == trail[tookAt])
  }

  lemma KeptNext(log: seq<Step>, account: Account, trail: seq<Account>, guard: Guard, flags: Flags, step: Step)
    requires Kept(log, account, trail, guard, flags) && Admits(guard, step) && (step.TofCheck? ==> !guard.left)
    ensures Kept(log + [step], Tally(account, step), trail + [Tally(account, step)], GuardNext(guard, step),
                 FlagsNext(flags, step))
  {
    StaysBlocked(guard, account, step);
    FirstRecord(trail, log);
    RecordedNext(trail, log, step);
    GuardedNext(guard, log, flags, step);
    hide Guarded, Recorded, ObstacleAhead, Tally, GuardNext, Admits, FlagsNext;
  }

  lemma MarkedNext(log: seq<Step>, trail: seq<Account>, leftAt: nat, leaving: Account, took: bool, tookAt: nat,
                   taking: Account, step: Step, next: Account)
    requires Marked(log, trail, leftAt, leaving, took, tookAt, taking)
    ensures Marked(log + [step], trail + [next], leftAt, leaving, took, tookAt, taking)
  {
  }

  /** Before anything but the flags was logged. */
  lemma KeptFirst(log: seq<Step>, account: Account, trail: seq<Account>, guard: Guard, flags: Flags)
    requires Kept(log, account, trail, guard, flags) && log == [Flagged(flags)]
    ensures account == Blank && Ready(guard) && !guard.over
  {
    FlaggedKeeps(Blank, flags);
    FlagsLeaveNothing(flags);
  }

  lemma KeptMeans(log: seq<Step>, account: Account, trail: seq<Account>, guard: Guard, flags: Flags)
    requires Kept(log, account, trail, guard, flags)
    ensures account == AccountOf(log) && guard == GuardOf(log) && Orderly(log) && |trail| == |log| + 1
    ensures account == trail[|log|]
  {
    FirstRecord(trail, log);
    RecordedMeans(trail, log);
  }

  lemma KeptTrail(log: seq<Step>, account: Account, trail: seq<Account>, guard: Guard, flags: Flags)
    requires Kept(log, account, trail, guard, flags)
    ensures |trail| == |log| + 1 && account == trail[|log|]
  {
    FirstRecord(trail, log);
  }

  lemma OverMeans(log: seq<Step>, account: Account, trail: seq<Account>, guard: Guard, flags: Flags)
    requires Kept(log, account, trail, guard, flags)
    ensures Orderly(log) && guard.over == ResumedOver(log)
  {
  }

  lemma MarkedHere(log: seq<Step>, trail: seq<Account>)
    requires |trail| == |log| + 1
    ensures forall tookAt, taking :: Marked(log, trail, |log|, trail[|log|], false, tookAt, taking)
  {
  }

  lemma KeptListed(log: seq<Step>, account: Account, trail: seq<Account>, guard: Guard, flags: Flags)
    requires Kept(log, account, trail, guard, flags)
    ensures Listed(guard) && Sound(guard) && guard.flags == flags
    ensures guard.blocked ==> ObstacleAhead(account.sum)
  {
    GuardedEnd(guard, log, flags);
  }

  lemma TakenActs(a: Account)
    ensures AfterScoopIn(a, 15000).acts == a.acts + [Scooping(Reverse, 15000)]
    ensures AfterScoopIn(a, 15000).sum.scoop == Some(Reverse)
  {
  }

  lemma RetractedOpen(a: Account, b: Account, timeout: nat)
    requires Steady(AfterScoopIn(a, timeout).sum, b.sum)
    ensures (a.sum.openSeen ==> b.sum.openSeen) && b.sum.waste == a.sum.waste
    ensures !a.sum.wasteUnderway ==> !b.sum.wasteUnderway
  {
  }

  predicate ClearAhead(s: Summary) {
    s.tof.Some? && !Obstacle(s.tof.value)
  }

  predicate AboveAhead(s: Summary) {
    s.tof.Some? && s.tof.value > TOF_LIMIT_MM
  }

  /** What a retract does to the verdict. */
  function RetractVerdict(v: Verdict, s: Summary, timeout: nat): Verdict {
    Verdict(v.openFirst && s.openSeen, v.closeOverOut, v.retract && CoverPlaced(s, timeout),
            v.tofChecked && s.tof.Some?, v.oneAtATime && AtRest(s), v.tofClear && ClearAhead(s),
            v.tofAbove && AboveAhead(s), v.answered)
  }

  function AfterScoopIn(a: Account, timeout: nat): Account {
    Account(a.sum.(scoop := Some(Reverse), scoopUnderway := true, stops := a.sum.stops.(scoopInOut := false)),
            RetractVerdict(a.ok, a.sum, timeout), a.acts + [Scooping(Reverse, timeout)])
  }

  /** What a motion of the waste cover does to the verdict. */
  function WasteVerdict(v: Verdict, s: Summary, direction: Direction): Verdict {
    v.(openFirst := v.openFirst && s.openSeen,
       oneAtATime := v.oneAtATime && !s.scoopUnderway,
       closeOverOut := v.closeOverOut && (direction == Reverse ==> s.scoop == Some(Forward)))
  }

  function AfterWaste(a: Account, direction: Direction, timeout: nat): Account
    requires direction != Stop
  {
    Account(a.sum.(waste := Some(direction), wasteUnderway := true, wasteClosedSeen := false,
                   wasteMotions := a.sum.wasteMotions + 1, stops := a.sum.stops.(wasteCover := false)),
            WasteVerdict(a.ok, a.sum, direction), a.acts + [Wasting(direction, timeout)])
  }

  lemma ShutKeeps(a: Account)
    requires a.sum.openSeen && a.sum.scoop == Some(Forward) && !a.sum.scoopUnderway
    ensures var b := AfterWaste(a, Reverse, 15000);
            && b.ok == a.ok && b.acts == a.acts + [Wasting(Reverse, 15000)]
            && b.sum.openSeen && !b.sum.scoopUnderway && b.sum.stops.scoopInOut == a.sum.stops.scoopInOut
  {
  }

  /** The waste cover was sent shut, so many times once more, and all that went out is of that group. */
  ghost predicate Closing(a: Account, g: Guard, b: Account, h: Guard, first: bool, retries: nat) {
    && b.ok == a.ok && b.sum.openSeen && b.sum.scoop == Some(Forward) && b.sum.waste == Some(Reverse)
    && !b.sum.scoopUnderway && b.sum.tof == a.sum.tof
    && b.acts == a.acts + CloseWasteActs(first, retries)
    && b.sum.wasteMotions == a.sum.wasteMotions + 2 * retries + 1
    && (a.sum.stops.scoopInOut ==> b.sum.stops.scoopInOut)
    && Ending(h, CloseWasteActs(first, retries)) && !h.left && h.over == g.over
  }

  lemma ClosingStarts(a: Account, g: Guard, b: Account, h: Guard, first: bool)
    requires a.sum.openSeen && a.sum.scoop == Some(Forward) && !a.sum.scoopUnderway && !g.left
    requires b.ok == a.ok && b.acts == a.acts + CloseWasteActs(first, 0)
    requires Steady(AfterWaste(a, Reverse, 15000).sum, b.sum)
    requires a.sum.stops.scoopInOut ==> b.sum.stops.scoopInOut
    requires Ending(h, CloseWasteActs(first, 0)) && SameSide(g, h)
    ensures Closing(a, g, b, h, first, 0)
  {
    hide Ending, CloseWasteActs;
  }

  lemma ClosingStays(a: Account, g: Guard, b: Account, h: Guard, c: Account, i: Guard, first: bool, retries: nat)
    requires Closing(a, g, b, h, first, retries) && Calm(b, c) && Faded(h, i)
    ensures Closing(a, g, c, i, first, retries) && b.sum.waste == Some(Reverse)
  {
    FadedEnding(h, i, CloseWasteActs(first, retries));
    hide Ending, CloseWasteActs;
  }

  lemma ClosingAgain(a: Account, g: Guard, b: Account, h: Guard, c: Account, i: Guard, first: bool, retries: nat)
    requires Closing(a, g, b, h, first, retries) && c.ok == b.ok
    requires c.acts == a.acts + CloseWasteActs(first, retries + 1)
    requires Steady(b.sum.(waste := Some(Reverse), wasteUnderway := true, wasteClosedSeen := false,
                           wasteMotions := b.sum.wasteMotions + 2), c.sum)
    requires b.sum.stops.scoopInOut ==> c.sum.stops.scoopInOut
    requires Ending(i, CloseWasteActs(first, retries + 1)) && SameSide(h, i)
    ensures Closing(a, g, c, i, first, retries + 1)
  {
    hide Ending, CloseWasteActs;
  }

  lemma ClosingMeans(a: Account, g: Guard, b: Account, h: Guard, first: bool, retries: nat)
    requires Closing(a, g, b, h, first, retries)
    ensures b.ok == a.ok && b.sum.openSeen && b.sum.scoop == Some(Forward) && b.sum.waste == Some(Reverse)
    ensures !b.sum.scoopUnderway && b.sum.tof == a.sum.tof && b.acts == a.acts + CloseWasteActs(first, retries)
    ensures b.sum.wasteMotions == a.sum.wasteMotions + 2 * retries + 1
    ensures a.sum.stops.scoopInOut ==> b.sum.stops.scoopInOut
    ensures Ending(h, CloseWasteActs(first, retries)) && !h.left && h.over == g.over
  {
  }

  /** A turn of the scoop with the main cover read open and the scoop in place breaks no rule. */
  lemma SpinKeeps(a: Account, step: Step)
    requires a.sum.openSeen && !a.sum.scoopUnderway && step.Command? && IsAct(step)
    ensures var b := AfterSpin(a, step);
            && b.ok == a.ok && b.acts == a.acts + [step] && Steady(a.sum, b.sum)
            && b.sum.stops.scoopInOut == a.sum.stops.scoopInOut
  {
  }

  /** All that a retract needs but a clear distance. */
  predicate MayRetract(s: Summary, timeout: nat) {
    s.openSeen && AtRest(s) && CoverPlaced(s, timeout) && s.tof.Some?
  }

  /** One more retract breaks no rule that holds so far. */
  predicate MayRepeat(a: Account) {
    MayRetract(a.sum, 15000) && !Obstacle(a.sum.tof.value) && (a.ok.tofAbove ==> AboveAhead(a.sum))
  }

  /** After the final retract, and after the turn behind it. */
  lemma StowedOnce(a: Account, b: Account)
    requires MayRetract(a.sum, 25000) && Steady(AfterScoopIn(a, 25000).sum, b.sum) && AtRest(b.sum)
    requires Stopped(a.sum, WasteCover) && KeepsStopped(a.sum.stops.(scoopInOut := false), b.sum.stops)
    ensures b.sum.openSeen && b.sum.tof == a.sum.tof && MayRetract(b.sum, 15000) && Stopped(b.sum, WasteCover)
    ensures a.sum.tof.Some?
  {
  }

  lemma StowedTwice(a: Account, b: Account, c: Account)
    requires MayRetract(b.sum, 15000) && b.sum.tof == a.sum.tof && Steady(b.sum, c.sum)
    requires Stopped(b.sum, WasteCover) && Stopped(b.sum, ScoopInOut)
    requires KeepsStopped(b.sum.stops.(scoopSpin := false), c.sum.stops)
    ensures MayRetract(c.sum, 15000) && c.sum.tof == a.sum.tof && c.sum.tof.Some?
    ensures Stopped(c.sum, ScoopInOut) && Stopped(c.sum, WasteCover)
  {
  }

  lemma SightStays(a: Account)
    requires MayRepeat(a)
    ensures a.ok.(tofClear := a.ok.tofClear && !Obstacle(a.sum.tof.value),
                  tofAbove := a.ok.tofAbove && a.sum.tof.value > TOF_LIMIT_MM)
         == a.ok
  {
  }

  /**
   The verdict on a cleaning: nothing was broken, unless a retract went out over an obstacle, or after a check that had
   no answer.
   */
  function Judged(resumed: bool, answered: bool): Verdict {
    Blank.ok.(tofClear := !resumed, tofAbove := !resumed && answered, answered := answered)
  }

  lemma NotYetJudged()
    ensures Judged(false, true) == Blank.ok
  {
  }

  lemma JudgedMeans(log: seq<Step>, resumed: bool)
    ensures VerdictOn(log) == Judged(resumed, Holds(Answered, log)) ==>
              && Interlocked(log) && (Holds(TofClear, log) <==> !resumed)
              && (Holds(TofAbove, log) <==> !resumed && Holds(Answered, log))
  {
    hide Holds;
  }

  /** What the account at the end of a scenario says of its log. */
  lemma AccountTells(log: seq<Step>, a: Account, resumed: bool)
    requires a == AccountOf(log) && a.ok == Judged(resumed, a.ok.answered)
    ensures a.sum == Summarize(log, |log|) && a.acts == ActsOf(log) && a.ok.answered == Holds(Answered, log)
    ensures VerdictOn(log) == Judged(resumed, Holds(Answered, log)) && Interlocked(log)
    ensures Holds(TofClear, log) <==> !resumed
    ensures Holds(TofAbove, log) <==> !resumed && Holds(Answered, log)
  {
    AccountMeans(log);
    JudgedMeans(log, resumed);
    hide Holds, Interlocked, Judged, AccountOf, Summarize, ActsOf;
  }

  // ------------------------------------------------------------------------- turns of the scoop

  /** Full turns of the scoop from a on: the first of them decides, as what it asks for stays so. */
  ghost predicate SpinOnly(a: Account, b: Account) {
    && Steady(a.sum, b.sum) && KeepsStopped(a.sum.stops.(scoopSpin := false), b.sum.stops) && b.acts == a.acts
    && b.ok == a.ok.(openFirst := a.ok.openFirst && a.sum.openSeen,
                     oneAtATime := a.ok.oneAtATime && !a.sum.scoopUnderway)
  }

  /** The summary after one more reading. */
  function Seen(s: Summary, w: Word): Summary {
    s.(openSeen := s.openSeen || PtCheck(MainCover, w) == 1,
       wasteClosedSeen := s.wasteClosedSeen || PtCheck(WasteCover, w) == -1,
       scoopUnderway := s.scoopUnderway && !LimitRead(ScoopInOut, s.scoop, w),
       wasteUnderway := s.wasteUnderway && !LimitRead(WasteCover, s.waste, w),
       onStart := w.spinStart)
  }

  lemma SeenIs(s: Summary, w: Word)
    ensures Seen(s, w) == Advance(s, Saw(w))
  {
    hide PtCheck, LimitRead, SetStop;
    var step := Saw(w);
    assert ShowsOpen(step) <==> PtCheck(MainCover, w) == 1;
    assert ShowsWasteClosed(step) <==> PtCheck(WasteCover, w) == -1;
    assert Settles(step, ScoopInOut, s.scoop) <==> LimitRead(ScoopInOut, s.scoop, w);
    assert Settles(step, WasteCover, s.waste) <==> LimitRead(WasteCover, s.waste, w);
    hide ShowsOpen, ShowsWasteClosed, Settles;
  }

  lemma SeenKeeps(s: Summary, w: Word)
    ensures Seen(s, w).scoop == s.scoop && Seen(s, w).waste == s.waste && Seen(s, w).tof == s.tof
  {
  }

  /** The verdict after a search that read the word before its first turn, or that made none. */
  function SpinVerdict(v: Verdict, s: Summary, read: Option<Word>): Verdict {
    if read.None? then v
    else v.(openFirst := v.openFirst && Seen(s, read.value).openSeen,
            oneAtATime := v.oneAtATime && !Seen(s, read.value).scoopUnderway)
  }

  /** A search for the start sensor: a reading and full turns, or neither. */
  ghost predicate Spun(a: Account, b: Account, read: Option<Word>) {
    && Steady(a.sum, b.sum) && KeepsStopped(a.sum.stops.(scoopSpin := false), b.sum.stops) && b.acts == a.acts
    && b.ok == SpinVerdict(a.ok, a.sum, read)
    && (read.Some? && Seen(a.sum, read.value).openSeen ==> b.sum.openSeen)
    && (read.Some? && !Seen(a.sum, read.value).scoopUnderway ==> !b.sum.scoopUnderway)
  }

  /** One reading, but for the motors that were stopped meanwhile. */
  ghost predicate Read(a: Account, b: Account, w: Word) {
    b == a.(sum := Seen(a.sum, w).(stops := b.sum.stops)) && KeepsStopped(a.sum.stops, b.sum.stops)
  }

  lemma HaltedThenRead(a: Account, b: Account, w: Word)
    requires Halted(a, b)
    ensures Read(a, b.(sum := Seen(b.sum, w)), w)
  {
    hide PtCheck, LimitRead;
  }

  lemma SpinThenCalm(a: Account, b: Account, c: Account)
    requires SpinOnly(a, b) && Calm(b, c)
    ensures SpinOnly(a, c)
  {
  }

  lemma SpinOnlyStart(a: Account, direction: Direction)
    requires direction != Stop
    ensures SpinOnly(a, AfterSpin(a, Spinning(360, direction, 100, 30000)))
  {
  }

  lemma ReadOnStart(a: Account, b: Account, w: Word)
    ensures Read(a, b, w) ==> b.sum.onStart == w.spinStart
  {
  }

  /** A look spoils nothing of what a retract needs. */
  lemma LookedMayRetract(a: Account, b: Account, w: Word)
    ensures Read(a, b, w) || Halted(a, b) ==>
              && b.ok == a.ok && b.acts == a.acts && KeepsStopped(a.sum.stops, b.sum.stops)
              && (a.sum.openSeen ==> b.sum.openSeen) && b.sum.tof == a.sum.tof
              && (MayRepeat(a) ==> MayRepeat(b))
  {
    hide PtCheck, LimitRead;
  }

  lemma SpinTwice(a: Account, b: Account, c: Account)
    requires SpinOnly(a, b) && SpinOnly(b, c)
    ensures SpinOnly(a, c)
  {
  }

  lemma SpinThenSearch(a: Account, b: Account, c: Account, read: Option<Word>)
    requires SpinOnly(a, b) && Spun(b, c, read)
    ensures SpinOnly(a, c)
  {
  }

  lemma ReadThenSpin(a: Account, b: Account, c: Account, w: Word)
    requires Read(a, b, w) && SpinOnly(b, c)
    ensures Spun(a, c, Some(w))
  {
    hide PtCheck, LimitRead;
  }

  lemma CalmIsNoSearch(a: Account, b: Account)
    requires Calm(a, b)
    ensures Spun(a, b, None)
  {
  }

  lemma HaltedThenSpun(a: Account, b: Account, c: Account, read: Option<Word>)
    requires Halted(a, b) && Spun(b, c, read)
    ensures Spun(a, c, read)
  {
    if read.Some? {
      SeenWhenHalted(a, b, read.value);
    }
    hide Seen;
  }

  lemma SeenWhenHalted(a: Account, b: Account, w: Word)
    requires Halted(a, b)
    ensures Seen(b.sum, w) == Seen(a.sum, w).(stops := b.sum.stops)
  {
    hide PtCheck, LimitRead;
  }

  /** With the main cover read open and the scoop in place a search breaks no rule. */
  lemma SafeSearch(a: Account, b: Account, read: Option<Word>)
    requires Spun(a, b, read) && a.sum.openSeen && !a.sum.scoopUnderway
    ensures CalmBut(a, b, ScoopSpin)
  {
  }

  // ---------------------------------------------------------------------------- the recovery

  /**
   What a recovery met with: the word it looked at first, the word before the first turn of the scoop, and the
   summary when it first took the scoop in.
   */
  datatype Findings = Findings(looked: Option<Word>, search: Option<Word>, retract: Option<Summary>)

  const NothingFound := Findings(None, None, None)

  predicate FoundClosed(f: Findings) {
    f.looked.Some? && f.looked.value.wasteClose
  }

  predicate FoundNotClosed(f: Findings) {
    f.looked.Some? && !f.looked.value.wasteClose
  }

  /** A waste cover that is not read closed is sent shut at once. */
  function VerdictOnCover(v: Verdict, s: Summary, f: Findings): Verdict {
    if FoundNotClosed(f) then WasteVerdict(v, Seen(s, f.looked.value), Reverse) else v
  }

  /** With the cover closed the first motion is the turn that searches for the start sensor. */
  function VerdictOnSearch(v: Verdict, s: Summary, f: Findings): Verdict {
    if FoundClosed(f) then SpinVerdict(v, Seen(s, f.looked.value), f.search) else v
  }

  function VerdictOnRetract(v: Verdict, f: Findings): Verdict {
    if f.retract.None? then v
    else RetractVerdict(v, f.retract.value, 15000).(openFirst := v.openFirst)
  }

  /**
   The verdict after a recovery that set out from this summary and this verdict. The motions named here decide;
   those that come later ask for nothing that they did not.
   */
  function RecoveryVerdict(v: Verdict, s: Summary, f: Findings): Verdict {
    VerdictOnRetract(VerdictOnSearch(VerdictOnCover(v, s, f), s, f), f)
  }

  /** What the findings owe to the summary that the recovery set out from. */
  predicate FoundFrom(s: Summary, f: Findings) {
    && (f.search.Some? ==> f.looked.Some?)
    && (f.retract.Some? ==>
        && f.search.Some? && f.retract.value.tof == s.tof
        && (FoundClosed(f) ==> f.retract.value.waste == s.waste && f.retract.value.wasteClosedSeen)
        && (FoundNotClosed(f) ==> f.retract.value.waste == Some(Reverse) && !f.retract.value.wasteUnderway))
  }

  /** A recovery that set out from a and has come to b: the verdict, and what makes later motions harmless. */
  ghost predicate Recovering(a: Account, b: Account, f: Findings) {
    && b.ok == RecoveryVerdict(a.ok, a.sum, f) && FoundFrom(a.sum, f) && b.sum.tof == a.sum.tof
    && (FoundNotClosed(f) ==>
        && (Seen(a.sum, f.looked.value).openSeen ==> b.sum.openSeen)
        && b.sum.waste == Some(Reverse))
    && (FoundClosed(f) ==> b.sum.waste == a.sum.waste && b.sum.wasteClosedSeen)
    && (FoundClosed(f) && f.search.None? ==> b.sum == Seen(a.sum, f.looked.value).(stops := b.sum.stops))
    && (FoundClosed(f) && f.search.Some? ==>
        Seen(Seen(a.sum, f.looked.value), f.search.value).openSeen ==> b.sum.openSeen)
    && (f.retract.None? ==>
        && (FoundNotClosed(f) ==> b.sum.scoopUnderway ==> Seen(a.sum, f.looked.value).scoopUnderway)
        && (FoundClosed(f) && f.search.Some? ==>
            b.sum.scoopUnderway ==> Seen(Seen(a.sum, f.looked.value), f.search.value).scoopUnderway))
    && (f.retract.Some? ==>
        && b.sum.scoop == Some(Reverse)
        && (!f.retract.value.wasteUnderway ==> !b.sum.wasteUnderway)
        && (CoverPlaced(f.retract.value, 15000) ==> CoverPlaced(b.sum, 15000)))
  }

  lemma FoundOpen(a: Account, b: Account, w: Word)
    requires Read(a, b, w) && !w.wasteClose
    ensures Recovering(a, AfterWaste(b, Reverse, 15000), Findings(Some(w), None, None))
  {
  }

  lemma FoundShut(a: Account, b: Account, w: Word)
    requires Read(a, b, w) && w.wasteClose
    ensures Recovering(a, b, Findings(Some(w), None, None))
  {
  }

  lemma NothingDone(a: Account, b: Account)
    requires Halted(a, b)
    ensures Recovering(a, b, NothingFound)
  {
  }

  lemma HaltedRecovering(a: Account, b: Account, c: Account, f: Findings)
    requires Recovering(a, b, f) && Halted(b, c)
    ensures Recovering(a, c, f)
  {
  }

  /** Waiting changes nothing, except before the first search over a closed cover, where there is no wait. */
  lemma CalmRecovering(a: Account, b: Account, c: Account, f: Findings)
    requires Recovering(a, b, f) && Calm(b, c) && (FoundNotClosed(f) || f.search.Some?)
    ensures Recovering(a, c, f)
  {
  }

  lemma ReadKeeps(a: Account, b: Account, w: Word)
    requires Read(a, b, w)
    ensures b.ok == a.ok && b.acts == a.acts && b.sum.scoop == a.sum.scoop
  {
    hide PtCheck, LimitRead;
  }

  lemma CalmKeeps(a: Account, b: Account)
    requires Calm(a, b)
    ensures b.ok == a.ok && b.acts == a.acts
  {
  }

  lemma SpunKeeps(a: Account, b: Account, read: Option<Word>)
    requires Spun(a, b, read)
    ensures b.acts == a.acts && Steady(a.sum, b.sum)
  {
  }

  lemma RecoveringMeans(a: Account, b: Account, f: Findings)
    requires Recovering(a, b, f)
    ensures b.ok == RecoveryVerdict(a.ok, a.sum, f) && FoundFrom(a.sum, f)
  {
  }

  /** The first search. */
  lemma SearchRecovering(a: Account, b: Account, c: Account, f: Findings, read: Option<Word>)
    requires Recovering(a, b, f) && f.looked.Some? && f.search.None? && f.retract.None? && Spun(b, c, read)
    requires FoundClosed(f) && read.None? ==> Halted(b, c)
    ensures Recovering(a, c, f.(search := read))
  {
  }

  /** Whatever else is set going, the first motions have decided already. */
  ghost predicate Decided(a: Account, b: Account, f: Findings) {
    && Recovering(a, b, f) && f.search.Some? && f.looked.Some?
    && (f.retract.Some? ==> !b.sum.scoopUnderway)
  }

  lemma DecidedMeans(a: Account, b: Account, f: Findings)
    requires Decided(a, b, f)
    ensures b.ok.openFirst ==> b.sum.openSeen
    ensures b.ok.oneAtATime ==> !b.sum.scoopUnderway
  {
  }

  lemma CalmDecided(a: Account, b: Account, c: Account, f: Findings)
    requires Decided(a, b, f) && Calm(b, c)
    ensures Decided(a, c, f)
  {
    CalmRecovering(a, b, c, f);
  }

  lemma SearchDecided(a: Account, b: Account, c: Account, f: Findings, read: Option<Word>)
    requires Decided(a, b, f) && Spun(b, c, read)
    ensures Decided(a, c, f)
  {
    hide PtCheck, LimitRead;
    DecidedMeans(a, b, f);
  }

  lemma SpinDecided(a: Account, b: Account, f: Findings, step: Step)
    requires Decided(a, b, f) && step.Command?
    ensures Decided(a, AfterSpin(b, step), f)
  {
    hide PtCheck, LimitRead;
    DecidedMeans(a, b, f);
  }

  lemma CoverDecided(a: Account, b: Account, c: Account, f: Findings)
    requires Decided(a, b, f) && c.sum == b.sum.(stops := c.sum.stops)
    requires c.ok == b.ok.(oneAtATime := b.ok.oneAtATime && !b.sum.scoopUnderway)
    ensures Decided(a, c, f)
  {
    hide PtCheck, LimitRead;
    DecidedMeans(a, b, f);
  }

  /** The first time the scoop is taken in. */
  lemma RetractRecovering(a: Account, b: Account, f: Findings)
    requires Decided(a, b, f) && f.retract.None? && (FoundNotClosed(f) ==> !b.sum.wasteUnderway)
    ensures Recovering(a, AfterScoopIn(b, 15000), f.(retract := Some(b.sum)))
  {
    hide PtCheck, LimitRead;
    DecidedMeans(a, b, f);
  }

  /** And once more. */
  lemma RetractAgain(a: Account, b: Account, f: Findings)
    requires Decided(a, b, f) && f.retract.Some?
    ensures Recovering(a, AfterScoopIn(b, 15000), f)
  {
    hide PtCheck, LimitRead;
    DecidedMeans(a, b, f);
  }

  /** The main cover has been read open by the first motion of the recovery. */
  predicate OpenByThen(s: Summary, f: Findings) {
    && (FoundNotClosed(f) ==> Seen(s, f.looked.value).openSeen)
    && (FoundClosed(f) && f.search.Some? ==> Seen(Seen(s, f.looked.value), f.search.value).openSeen)
  }

  /** The scoop is no longer on its way by then, and at its retract nothing is. */
  predicate SettledByThen(s: Summary, f: Findings) {
    && (FoundNotClosed(f) ==> !Seen(s, f.looked.value).scoopUnderway)
    && (FoundClosed(f) && f.search.Some? ==> !Seen(Seen(s, f.looked.value), f.search.value).scoopUnderway)
    && (f.retract.Some? ==> AtRest(f.retract.value))
  }

  /** What the waste cover decides. */
  lemma CoverDecides(v: Verdict, s: Summary, f: Findings)
    ensures var after := VerdictOnCover(v, s, f);
            if !FoundNotClosed(f) then after == v
            else
              var seen := Seen(s, f.looked.value);
              after == Verdict(v.openFirst && seen.openSeen, v.closeOverOut && s.scoop == Some(Forward), v.retract,
                               v.tofChecked, v.oneAtATime && !seen.scoopUnderway, v.tofClear, v.tofAbove, v.answered)
  {
    if f.looked.Some? {
      SeenKeeps(s, f.looked.value);
    }
    hide Seen;
  }

  /** What the first search decides. */
  lemma SearchDecides(v: Verdict, s: Summary, f: Findings)
    ensures var after := VerdictOnSearch(v, s, f);
            if !FoundClosed(f) || f.search.None? then after == v
            else
              var seen := Seen(Seen(s, f.looked.value), f.search.value);
              after == Verdict(v.openFirst && seen.openSeen, v.closeOverOut, v.retract, v.tofChecked,
                               v.oneAtATime && !seen.scoopUnderway, v.tofClear, v.tofAbove, v.answered)
  {
    hide Seen;
  }

  /** What the retract decides. */
  lemma TakingDecides(v: Verdict, f: Findings)
    ensures var after := VerdictOnRetract(v, f);
            if f.retract.None? then after == v
            else
              var s := f.retract.value;
              after == Verdict(v.openFirst, v.closeOverOut, v.retract && CoverPlaced(s, 15000),
                               v.tofChecked && s.tof.Some?, v.oneAtATime && AtRest(s), v.tofClear && ClearAhead(s),
                               v.tofAbove && AboveAhead(s), v.answered)
  {
    hide AtRest, CoverPlaced, ClearAhead, AboveAhead;
  }

  lemma FirstMotionDecides(v: Verdict, s: Summary, f: Findings)
    ensures var after := RecoveryVerdict(v, s, f);
            && (after.closeOverOut <==> v.closeOverOut && (FoundNotClosed(f) ==> s.scoop == Some(Forward)))
            && (after.openFirst <==> v.openFirst && OpenByThen(s, f))
            && (after.oneAtATime <==> v.oneAtATime && SettledByThen(s, f))
  {
    hide Seen, AtRest, CoverPlaced, ClearAhead, AboveAhead, VerdictOnCover, VerdictOnSearch, VerdictOnRetract;
    var covered := VerdictOnCover(v, s, f);
    CoverDecides(v, s, f);
    SearchDecides(covered, s, f);
    TakingDecides(VerdictOnSearch(covered, s, f), f);
  }

  lemma RetractDecides(v: Verdict, s: Summary, f: Findings)
    requires FoundFrom(s, f)
    ensures var after := RecoveryVerdict(v, s, f);
            && (after.tofChecked <==> v.tofChecked && (f.retract.Some? ==> s.tof.Some?))
            && (after.tofClear <==> v.tofClear && (f.retract.Some? ==> ClearAhead(s)))
            && (after.tofAbove <==> v.tofAbove && (f.retract.Some? ==> AboveAhead(s)))
            && (after.answered <==> v.answered)
            && (after.retract <==> v.retract && (f.retract.Some? ==> CoverPlaced(f.retract.value, 15000)))
            && (FoundClosed(f) && f.retract.Some? ==>
                  (CoverPlaced(f.retract.value, 15000) <==> s.waste == Some(Reverse)))
  {
    hide Seen, AtRest, VerdictOnCover, VerdictOnSearch, VerdictOnRetract;
    var covered := VerdictOnCover(v, s, f);
    CoverDecides(v, s, f);
    SearchDecides(covered, s, f);
    TakingDecides(VerdictOnSearch(covered, s, f), f);
  }

  /**
   Which rules a recovery keeps, told by what it set out from and what it met: the first motion is that of the
   waste cover or the first turn of the scoop, and the retract asks for what it asks for after the cycles.
   */
  lemma RecoveryKeepsIff(v: Verdict, s: Summary, f: Findings)
    requires FoundFrom(s, f)
    ensures var after := RecoveryVerdict(v, s, f);
            && (after.closeOverOut <==> v.closeOverOut && (FoundNotClosed(f) ==> s.scoop == Some(Forward)))
            && (after.openFirst <==> v.openFirst && OpenByThen(s, f))
            && (after.oneAtATime <==> v.oneAtATime && SettledByThen(s, f))
            && (after.tofChecked <==> v.tofChecked && (f.retract.Some? ==> s.tof.Some?))
            && (after.tofClear <==> v.tofClear && (f.retract.Some? ==> ClearAhead(s)))
            && (after.tofAbove <==> v.tofAbove && (f.retract.Some? ==> AboveAhead(s)))
            && (after.answered <==> v.answered)
            && (after.retract <==> v.retract && (f.retract.Some? ==> CoverPlaced(f.retract.value, 15000)))
            && (FoundClosed(f) && f.retract.Some? ==>
                  (CoverPlaced(f.retract.value, 15000) <==> s.waste == Some(Reverse)))
  {
    hide RecoveryVerdict, OpenByThen, SettledByThen, CoverPlaced, ClearAhead, AboveAhead, FoundFrom;
    FirstMotionDecides(v, s, f);
    RetractDecides(v, s, f);
  }

  // ------------------------------------------------------------ what is said of a whole log

  /** The scenario was left after so many steps, with its interlocks kept. */
  ghost predicate LeftWith(log: seq<Step>, k: nat, resumed: bool, course: Course) {
    && k <= |log| && VerdictOn(log[..k]) == Judged(resumed, Holds(Answered, log[..k]))
    && ActsOf(log[..k]) <= ScenarioActs(course)
  }

  /** What came after those steps was a recovery that met these findings, and it decides about the whole log. */
  ghost predicate RecoveredFrom(log: seq<Step>, k: nat, resumed: bool, found: Findings) {
    && k <= |log| && FoundFrom(Summarize(log, k), found)
    && VerdictOn(log) == RecoveryVerdict(Judged(resumed, Holds(Answered, log[..k])), Summarize(log, k), found)
  }

  /** The retract that the findings tell of is step j, with the summary they give. */
  ghost predicate RetractedAt(log: seq<Step>, j: nat, found: Findings) {
    j < |log| && log[j] == Scooping(Reverse, 15000) && found.retract == Some(Summarize(log, j))
  }

  /** The acts are a beginning of those before and a recovery's. */
  ghost predicate BeginsRecovery(acts: seq<Step>, before: seq<Step>) {
    exists closed, scoopIn, coverOpen :: Begins(acts, before + RecoveryActs(closed, scoopIn, coverOpen))
  }

  ghost predicate EndsRecovery(acts: seq<Step>, before: seq<Step>) {
    exists closed, scoopIn, coverOpen :: acts == before + RecoveryActs(closed, scoopIn, coverOpen)
  }

  lemma BeginsMeans(acts: seq<Step>, before: seq<Step>, closed: bool, scoopIn: bool, coverOpen: bool)
    requires Begins(acts, before + RecoveryActs(closed, scoopIn, coverOpen))
    ensures BeginsRecovery(acts, before)
    ensures acts == before + RecoveryActs(closed, scoopIn, coverOpen) ==> EndsRecovery(acts, before)
  {
  }

  /** What the recovery has done about the waste cover. */
  function CoverActs(f: Findings): seq<Step> {
    if FoundNotClosed(f) then [Wasting(Reverse, 15000)] else []
  }

  lemma RecoveryStages(s: seq<Step>, closed: bool, scoopIn: bool, coverOpen: bool, f: Findings)
    requires FoundNotClosed(f) ==> !closed
    ensures var whole := s + RecoveryActs(closed, scoopIn, coverOpen);
            var covered := s + CoverActs(f);
            && StageOf(covered, whole)
            && (f.looked.Some? && (closed <==> FoundClosed(f)) ==>
                && StageOf(covered + RecoveryCalibrationActs(), whole)
                && (covered + RecoveryCalibrationActs()) + PlaceActs(scoopIn, coverOpen) == whole)
            && StageOf(whole, whole)
  {
    hide RecoveryCalibrationActs, PlaceActs;
    var c := if closed then [] else [Wasting(Reverse, 15000)];
    NoMore(s);
    Stages3(s, c, RecoveryCalibrationActs(), PlaceActs(scoopIn, coverOpen));
  }
}
