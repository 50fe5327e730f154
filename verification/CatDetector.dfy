/**
 Cat detection on the load cell: a ring of weights with a running sum, and the state machine that orders a
 cleaning after a visit. Weights are real numbers.
 */
module CatDetector {

  const RING_SIZE := 200
  const INIT_SAMPLES := 30
  const ENTRY_THRESHOLD := 1000.0
  const EXIT_THRESHOLD := 300.0
  const CLEAN_DELAY_SEC := 180
  const SECOND := 1_000_000

  // -------------------------------------------------------------------------- the moving mean

  /** The sum of the weights from one position to another. */
  function SumOf(s: seq<real>, from: nat, to: nat): real
    requires from <= to <= |s|
  {
    if from == to then 0.0 else SumOf(s, from, to - 1) + s[to - 1]
  }

  lemma {:induction false} SumFirst(s: seq<real>, from: nat, to: nat)
    requires from < to <= |s|
    ensures SumOf(s, from, to) == s[from] + SumOf(s, from + 1, to)
  {
    if from + 1 < to {
      SumFirst(s, from, to - 1);
    } else {
      assert SumOf(s, from, from) == 0.0;
    }
  }

  lemma {:induction false} SumSame(s: seq<real>, t: seq<real>, from: nat, to: nat)
    requires from <= to <= |s| && to <= |t| && forall k :: from <= k < to ==> s[k] == t[k]
    ensures SumOf(s, from, to) == SumOf(t, from, to)
  {
    if from < to {
      SumSame(s, t, from, to - 1);
    }
  }

  /** Where the latest weights begin, of which there are at most as many as the ring holds. */
  function Oldest(pushes: seq<real>): (n: nat)
    ensures n <= |pushes|
  {
    if |pushes| <= RING_SIZE then 0 else |pushes| - RING_SIZE
  }

  function Held(pushes: seq<real>): nat {
    |pushes| - Oldest(pushes)
  }

  function RecentSum(pushes: seq<real>): real {
    SumOf(pushes, Oldest(pushes), |pushes|)
  }

  function RecentMean(pushes: seq<real>): real
    requires pushes != []
  {
    RecentSum(pushes) / Held(pushes) as real
  }

  /** One weight joins the sum, and the oldest leaves it once the ring is full. */
  lemma RecentSumNext(pushes: seq<real>, x: real)
    ensures RecentSum(pushes + [x])
         == RecentSum(pushes) - (if |pushes| < RING_SIZE then 0.0 else pushes[Oldest(pushes)]) + x
  {
    var n, longer := |pushes|, pushes + [x];
    SumSame(pushes, longer, Oldest(longer), n);
    if n >= RING_SIZE {
      SumFirst(pushes, Oldest(pushes), n);
    }
  }

  // ------------------------------------------------------------------------- the state machine

  datatype State = Init | Idle | Occupied | WaitClean

  /** pushes are all the weights pushed since the last reset. */
  datatype Detector = Detector(state: State, pushes: seq<real>, baseline: real, exitTime: int, wasRunning: bool)

  /** A weight sample, with the flags and the clock in microseconds as it finds them; or a tare. */
  datatype Event = Sample(weight: real, running: bool, paused: bool, recovering: bool, now: int) | Tare

  const Start := Detector(Init, [], 0.0, 0, false)

  function Reset(d: Detector): Detector {
    d.(state := Init, pushes := [], baseline := 0.0)
  }

  function Push(d: Detector, weight: real): Detector {
    d.(pushes := d.pushes + [weight], baseline := RecentMean(d.pushes + [weight]))
  }

  /** Division of C. */
  function Truncated(a: int, b: int): int
    requires b > 0
  {
    if a >= 0 then a / b else -(-a / b)
  }

  predicate Ended(d: Detector, e: Event) {
    e.Sample? && d.wasRunning && !e.running
  }

  /** A sample reaches the state machine only when no cleaning runs, is paused or awaits recovery. */
  predicate Processed(e: Event) {
    e.Sample? && !e.running && !e.paused && !e.recovering
  }

  function Judge(d: Detector, weight: real, now: int): (Detector, bool) {
    match d.state
    case Init =>
      var p := Push(d, weight);
      (if Held(p.pushes) >= INIT_SAMPLES then p.(state := Idle) else p, false)
    case Idle =>
      if weight <= d.baseline - ENTRY_THRESHOLD then (Reset(d), false)
      else
        var p := Push(d, weight);
        (if weight >= p.baseline + ENTRY_THRESHOLD then p.(state := Occupied) else p, false)
    case Occupied =>
      (if weight <= d.baseline + EXIT_THRESHOLD then d.(state := WaitClean, exitTime := now) else d, false)
    case WaitClean =>
      var p := Push(d, weight);
      if weight >= p.baseline + ENTRY_THRESHOLD then (p.(state := Occupied), false)
      else if Truncated(now - d.exitTime, SECOND) >= CLEAN_DELAY_SEC then (p.(state := Idle), true)
      else (p, false)
  }

  /** The detector after an event, and whether it orders a cleaning. */
  function Step(d: Detector, e: Event): (Detector, bool) {
    if e.Tare? then (Reset(d), false)
    else
      var noted := (if Ended(d, e) then Reset(d) else d).(wasRunning := e.running);
      if Processed(e) then Judge(noted, e.weight, e.now) else (noted, false)
  }

  /** The detector after the first n events. */
  function After(events: seq<Event>, n: nat): Detector
    requires n <= |events|
  {
    if n == 0 then Start else Step(After(events, n - 1), events[n - 1]).0
  }

  /** Event k orders a cleaning. */
  predicate Orders(events: seq<Event>, k: nat)
    requires k < |events|
  {
    Step(After(events, k), events[k]).1
  }

  // ------------------------------------------------------------------------- over every run

  /** The baseline is the mean of the latest weights, frozen or not; all states but the first have enough of them. */
  ghost predicate Sound(d: Detector) {
    && (d.pushes != [] ==> d.baseline == RecentMean(d.pushes))
    && (d.pushes == [] ==> d.baseline == 0.0)
    && (d.state == Init <==> Held(d.pushes) < INIT_SAMPLES)
  }

  lemma StepKeepsSound(d: Detector, e: Event)
    requires Sound(d)
    ensures Sound(Step(d, e).0)
  {
  }

  lemma {:induction false} EveryRunIsSound(events: seq<Event>, n: nat)
    requires n <= |events|
    ensures Sound(After(events, n))
  {
    if n > 0 {
      EveryRunIsSound(events, n - 1);
      StepKeepsSound(After(events, n - 1), events[n - 1]);
    }
  }

  // ------------------------------------------------------------------ the history, without the states

  /** What an event was: a cat came, or left at some time, or a reset, or a cleaning due, or nothing of the kind. */
  datatype Mark = Came | Left(at: int) | Cleared | Due | Nothing

  /** Of all that has been, the latest coming, with no leaving and no reset since. */
  ghost predicate InsideSince(past: seq<Mark>, i: nat) {
    && i < |past| && past[i] == Came
    && forall l :: i < l < |past| ==> !past[l].Left? && past[l] != Cleared
  }

  ghost predicate Inside(past: seq<Mark>) {
    exists i: nat :: InsideSince(past, i)
  }

  /** Of all that has been, the latest leaving, with no coming, no cleaning and no reset since. */
  ghost predicate WaitsSince(past: seq<Mark>, j: nat) {
    && j < |past| && past[j].Left?
    && forall l :: j < l < |past| ==> past[l] != Came && past[l] != Due && past[l] != Cleared
  }

  ghost predicate Waiting(past: seq<Mark>) {
    exists j: nat :: WaitsSince(past, j)
  }

  /** The latest sample before event k found a cleaning running. */
  ghost predicate RunningBefore(events: seq<Event>, k: nat)
    requires k <= |events|
  {
    exists j: nat :: j < k && events[j].Sample? && events[j].running && forall l :: j < l < k ==> events[l].Tare?
  }

  ghost predicate CleaningEnds(events: seq<Event>, k: nat)
    requires k < |events|
  {
    events[k].Sample? && !events[k].running && RunningBefore(events, k)
  }

  /** The weights in the mean: those processed since the latest reset, without the ones read with a cat inside. */
  ghost function Weights(events: seq<Event>, past: seq<Mark>): seq<real>
    requires |past| <= |events|
  {
    if past == [] then []
    else
      var (k, before) := (|past| - 1, past[..|past| - 1]);
      var kept := if past[k] == Cleared then [] else Weights(events, before);
      if Processed(events[k]) && (CleaningEnds(events, k) || (past[k] != Cleared && !Inside(before)))
      then kept + [events[k].weight]
      else kept
  }

  /** The sample after the past is judged, with all that was gathered before it. */
  ghost predicate Judged(events: seq<Event>, past: seq<Mark>) {
    |past| < |events| && Processed(events[|past|]) && !CleaningEnds(events, |past|)
  }

  /** Judged with enough weights gathered and no cat inside. */
  ghost predicate Empty(events: seq<Event>, past: seq<Mark>) {
    Judged(events, past) && |Weights(events, past)| >= INIT_SAMPLES && !Inside(past)
  }

  /** A thousand grams below the mean, with no cat about. */
  ghost predicate Drops(events: seq<Event>, past: seq<Mark>) {
    && Empty(events, past) && !Waiting(past)
    && events[|past|].weight <= RecentMean(Weights(events, past)) - ENTRY_THRESHOLD
  }

  /** A cat comes: a thousand grams above the mean that the sample has itself moved. */
  ghost predicate Comes(events: seq<Event>, past: seq<Mark>) {
    && Empty(events, past) && !Drops(events, past)
    && var w := events[|past|].weight; w >= RecentMean(Weights(events, past) + [w]) + ENTRY_THRESHOLD
  }

  /** The cat leaves: back within 300 grams of the mean from before it came. */
  ghost predicate Leaves(events: seq<Event>, past: seq<Mark>) {
    && Judged(events, past) && Inside(past) && Weights(events, past) != []
    && events[|past|].weight <= RecentMean(Weights(events, past)) + EXIT_THRESHOLD
  }

  /** A sample at which 180 seconds have gone since the cat left, and which does not show a cat. */
  ghost predicate IsDue(events: seq<Event>, past: seq<Mark>) {
    && Judged(events, past) && !Comes(events, past)
    && exists j: nat :: WaitsSince(past, j) && events[|past|].now - past[j].at >= CLEAN_DELAY_SEC * SECOND
  }

  ghost function MarkOf(events: seq<Event>, past: seq<Mark>): Mark
    requires |past| < |events|
  {
    var k := |past|;
    if events[k].Tare? || CleaningEnds(events, k) || Drops(events, past) then Cleared
    else if Comes(events, past) then Came
    else if Leaves(events, past) then Left(events[k].now)
    else if IsDue(events, past) then Due
    else Nothing
  }

  /** What the first n events were. */
  ghost function History(events: seq<Event>, n: nat): (past: seq<Mark>)
    requires n <= |events|
    ensures |past| == n
  {
    if n == 0 then [] else History(events, n - 1) + [MarkOf(events, History(events, n - 1))]
  }

  // --------------------------------------------------------------- the machine tells the history

  lemma InsideNext(past: seq<Mark>, mark: Mark)
    ensures Inside(past + [mark]) <==> mark == Came || (Inside(past) && !mark.Left? && mark != Cleared)
  {
    var longer := past + [mark];
    if mark == Came {
      assert InsideSince(longer, |past|);
    } else if Inside(past) && !mark.Left? && mark != Cleared {
      var i: nat :| InsideSince(past, i);
      assert InsideSince(longer, i);
    }
    if Inside(longer) && mark != Came {
      var i: nat :| InsideSince(longer, i);
      assert longer[|past|] == mark && forall l :: i < l < |past| ==> longer[l] == past[l];
      assert InsideSince(past, i);
    }
  }

  lemma WaitingNext(past: seq<Mark>, mark: Mark)
    ensures forall j: nat :: WaitsSince(past + [mark], j) <==>
      if j == |past| then mark.Left? else WaitsSince(past, j) && mark != Came && mark != Due && mark != Cleared
    ensures Waiting(past + [mark])
       <==> mark.Left? || (Waiting(past) && mark != Came && mark != Due && mark != Cleared)
  {
    var longer := past + [mark];
    forall j: nat
      ensures WaitsSince(longer, j) <==>
        if j == |past| then mark.Left? else WaitsSince(past, j) && mark != Came && mark != Due && mark != Cleared
    {
      assert longer[|past|] == mark && forall l :: j < l < |past| ==> longer[l] == past[l];
    }
    if Waiting(past) {
      var j: nat :| WaitsSince(past, j);
      assert WaitsSince(longer, j) <==> mark != Came && mark != Due && mark != Cleared;
    }
    assert mark.Left? ==> WaitsSince(longer, |past|);
  }

  lemma RunningNext(events: seq<Event>, k: nat)
    requires k < |events|
    ensures RunningBefore(events, k + 1)
       <==> if events[k].Sample? then events[k].running else RunningBefore(events, k)
  {
    if events[k].Tare? && RunningBefore(events, k) {
      var j: nat :| j < k && events[j].Sample? && events[j].running && forall l :: j < l < k ==> events[l].Tare?;
      assert forall l :: j < l < k + 1 ==> events[l].Tare?;
    }
  }

  lemma WeightsNext(events: seq<Event>, past: seq<Mark>, mark: Mark)
    requires |past| < |events|
    ensures Weights(events, past + [mark]) ==
      var (k, kept) := (|past|, if mark == Cleared then [] else Weights(events, past));
      if Processed(events[k]) && (CleaningEnds(events, k) || (mark != Cleared && !Inside(past)))
      then kept + [events[k].weight] else kept
  {
    assert (past + [mark])[..|past|] == past;
  }

  /** What the fields of the detector tell of what has been. */
  ghost predicate Tells(d: Detector, events: seq<Event>, past: seq<Mark>)
    requires |past| <= |events|
  {
    && d.pushes == Weights(events, past)
    && (d.wasRunning <==> RunningBefore(events, |past|))
    && (d.state == Init <==> |Weights(events, past)| < INIT_SAMPLES)
    && (d.state == Occupied <==> Inside(past))
    && (d.state == WaitClean <==> Waiting(past))
    && (forall j: nat :: WaitsSince(past, j) ==> d.exitTime == past[j].at)
  }

  lemma MarkTold(d: Detector, events: seq<Event>, past: seq<Mark>)
    requires |past| < |events| && Tells(d, events, past) && Sound(d)
    ensures Drops(events, past) <==> d.state == Idle && Judged(events, past)
                                      && events[|past|].weight <= d.baseline - ENTRY_THRESHOLD
    ensures Comes(events, past) <==>
      && (d.state == Idle || d.state == WaitClean) && !Drops(events, past) && Judged(events, past)
      && var w := events[|past|].weight; w >= RecentMean(d.pushes + [w]) + ENTRY_THRESHOLD
    ensures Leaves(events, past) <==> d.state == Occupied && Judged(events, past)
                                       && events[|past|].weight <= d.baseline + EXIT_THRESHOLD
    ensures IsDue(events, past) <==> d.state == WaitClean && Judged(events, past) && !Comes(events, past)
                                      && events[|past|].now - d.exitTime >= CLEAN_DELAY_SEC * SECOND
  {
    hide Inside, WaitsSince, Weights, RecentMean;
  }

  lemma StepTells(d: Detector, events: seq<Event>, past: seq<Mark>)
    requires |past| < |events| && Tells(d, events, past) && Sound(d)
    ensures Tells(Step(d, events[|past|]).0, events, past + [MarkOf(events, past)])
    ensures Step(d, events[|past|]).1 <==> IsDue(events, past)
  {
    var mark := MarkOf(events, past);
    MarkTold(d, events, past);
    InsideNext(past, mark);
    WaitingNext(past, mark);
    RunningNext(events, |past|);
    WeightsNext(events, past, mark);
    StepKeepsSound(d, events[|past|]);
    hide Comes, Leaves, Drops, IsDue, Inside, Waiting, WaitsSince, RunningBefore, RecentMean, Weights, Oldest;
    assert Ended(d, events[|past|]) <==> CleaningEnds(events, |past|);
  }

  /** Over every run the state is exactly what the history says. */
  lemma {:induction false} StateIsHistory(events: seq<Event>, n: nat)
    requires n <= |events|
    ensures Tells(After(events, n), events, History(events, n))
  {
    if n > 0 {
      StateIsHistory(events, n - 1);
      EveryRunIsSound(events, n - 1);
      StepTells(After(events, n - 1), events, History(events, n - 1));
    }
  }

  /**
   A cleaning is ordered exactly when a cat left at an earlier event, at least 180 seconds ago by the clock, with no
   cat, no order and no reset since, and the sample at hand is judged and does not show a cat. No state is named.
   */
  lemma OrdersIff(events: seq<Event>, k: nat)
    requires k < |events|
    ensures Orders(events, k) <==> IsDue(events, History(events, k))
  {
    StateIsHistory(events, k);
    EveryRunIsSound(events, k);
    StepTells(After(events, k), events, History(events, k));
  }

  /**
   The coming is noticed: a sample leads into Occupied exactly when it shows a cat, or one is inside already and
   neither its leaving nor a reset shows. The leaving is noticed: it leads into WaitClean exactly when it shows the
   leaving, or the wait goes on.
   */
  lemma NoticesIff(events: seq<Event>, k: nat)
    requires k < |events|
    ensures var (past, was, next) := (History(events, k), After(events, k).state, After(events, k + 1).state);
      && (was == Idle || was == WaitClean ==> (next == Occupied <==> Comes(events, past)))
      && (was == Occupied ==> (next == WaitClean <==> Leaves(events, past)))
      && (was == Occupied ==> (next == Occupied <==> !Leaves(events, past) && !IsReset(events, k)))
  {
    var past := History(events, k);
    StateIsHistory(events, k);
    StateIsHistory(events, k + 1);
    EveryRunIsSound(events, k);
    MarkTold(After(events, k), events, past);
    InsideNext(past, MarkOf(events, past));
    WaitingNext(past, MarkOf(events, past));
  }

  /** A tare, or a sample that finds a cleaning ended. */
  ghost predicate IsReset(events: seq<Event>, k: nat)
    requires k < |events|
  {
    events[k].Tare? || CleaningEnds(events, k)
  }

  lemma {:induction false} HistoryBegins(events: seq<Event>, i: nat, n: nat)
    requires i <= n <= |events|
    ensures History(events, n)[..i] == History(events, i)
    ensures i < n ==> History(events, n)[i] == MarkOf(events, History(events, i))
  {
    hide MarkOf;
    if i < n {
      HistoryBegins(events, i, n - 1);
    }
  }

  lemma WaitsBefore(past: seq<Mark>, j: nat, n: nat)
    requires WaitsSince(past, j) && j < n <= |past|
    ensures WaitsSince(past[..n], j)
  {
  }

  lemma InsideBefore(past: seq<Mark>, i: nat, n: nat)
    requires InsideSince(past, i) && i < n <= |past|
    ensures InsideSince(past[..n], i)
  {
  }

  /** A sample that is no reset and, if processed, below the mean that it moves plus the threshold. */
  ghost predicate Calm(events: seq<Event>, i: nat)
    requires i < |events|
  {
    && !IsReset(events, i)
    && (Processed(events[i]) ==>
          events[i].weight < RecentMean(Weights(events, History(events, i)) + [events[i].weight]) + ENTRY_THRESHOLD)
  }

  lemma WaitHasWeights(events: seq<Event>, n: nat)
    requires n <= |events| && Waiting(History(events, n))
    ensures |Weights(events, History(events, n))| >= INIT_SAMPLES
  {
    StateIsHistory(events, n);
  }

  lemma WaitsAt(events: seq<Event>, j: nat, k: nat, i: nat)
    requires j < i <= k <= |events| && WaitsSince(History(events, k), j)
    ensures WaitsSince(History(events, i), j)
  {
    hide WaitsSince;
    HistoryBegins(events, i, k);
    WaitsBefore(History(events, k), j, i);
  }

  lemma WaitIsCalm(events: seq<Event>, past: seq<Mark>, j: nat)
    requires |past| < |events| && WaitsSince(past, j) && |Weights(events, past)| >= INIT_SAMPLES
    requires past == History(events, |past|) && MarkOf(events, past) != Cleared && MarkOf(events, past) != Came
    ensures Calm(events, |past|)
  {
    MarkOfWaiting(events, past, j);
    NotBoth(past);
    assert Waiting(past);
    hide Inside, Waiting, WaitsSince, Weights, RecentMean, History, CleaningEnds, MarkOf;
  }

  lemma WaitedMark(events: seq<Event>, j: nat, k: nat, i: nat)
    requires j < i <= k < |events| && WaitsSince(History(events, k), j) && IsDue(events, History(events, k))
    ensures var mark := MarkOf(events, History(events, i)); mark != Cleared && mark != Came
  {
    hide WaitsSince, MarkOf, IsDue;
    var past := History(events, i);
    if i < k {
      WaitsAt(events, j, k, i + 1);
      WaitingNext(past, MarkOf(events, past));
    } else {
      DueIsMarked(events, past);
    }
  }

  lemma OrderIsCalm(events: seq<Event>, j: nat, k: nat, i: nat)
    requires j < i <= k < |events| && WaitsSince(History(events, k), j) && IsDue(events, History(events, k))
    ensures Calm(events, i)
  {
    hide MarkOf, IsDue, WaitsSince, Calm, Weights;
    var past := History(events, i);
    WaitsAt(events, j, k, i);
    assert Waiting(past);
    WaitHasWeights(events, i);
    WaitedMark(events, j, k, i);
    WaitIsCalm(events, past, j);
  }

  /** Since the cat left there was no reset, and every sample processed was below its mean plus the threshold. */
  lemma SafeAutoClean(events: seq<Event>, k: nat) returns (j: nat)
    requires k < |events| && Orders(events, k)
    ensures j < k && Leaves(events, History(events, j)) && WaitsSince(History(events, k), j)
    ensures events[j].Sample? && events[k].now - events[j].now >= CLEAN_DELAY_SEC * SECOND
    ensures forall i :: j < i <= k ==> Calm(events, i)
    ensures |Weights(events, History(events, k))| >= INIT_SAMPLES
  {
    OrdersIff(events, k);
    var past := History(events, k);
    j :| WaitsSince(past, j) && events[k].now - past[j].at >= CLEAN_DELAY_SEC * SECOND;
    HistoryBegins(events, j, k);
    forall i | j < i <= k
      ensures Calm(events, i)
    {
      OrderIsCalm(events, j, k, i);
    }
    StateIsHistory(events, k);
  }

  /** A cat that has left and does not come again is cleaned up after by the first sample judged 180 seconds later. */
  lemma EveryVisitIsCleaned(events: seq<Event>, j: nat, k: nat) returns (i: nat)
    requires j < k < |events| && Leaves(events, History(events, j))
    requires forall l :: j < l <= k ==> !IsReset(events, l) && !Comes(events, History(events, l))
    requires Processed(events[k]) && events[k].now - events[j].now >= CLEAN_DELAY_SEC * SECOND
    ensures j < i <= k && Orders(events, i)
    decreases k
  {
    if l: nat :| j < l < k && Orders(events, l) {
      i := l;
    } else {
      LeftIsWaiting(events, j, k);
      i := k;
      OrdersIff(events, k);
    }
  }

  lemma LeavesIsMarked(events: seq<Event>, past: seq<Mark>)
    requires Leaves(events, past)
    ensures MarkOf(events, past) == Left(events[|past|].now)
  {
    hide Inside, Waiting, Weights, RecentMean, CleaningEnds;
  }

  lemma MarkOfWaiting(events: seq<Event>, past: seq<Mark>, j: nat)
    requires |past| < |events| && WaitsSince(past, j)
    ensures MarkOf(events, past) == Cleared <==> IsReset(events, |past|)
    ensures MarkOf(events, past) == Came <==> !IsReset(events, |past|) && Comes(events, past)
    ensures MarkOf(events, past) == Due ==> IsDue(events, past)
  {
    assert Waiting(past);
    hide Inside, Waiting, WaitsSince, Weights, RecentMean, Comes, Leaves, IsDue, CleaningEnds;
  }

  lemma {:induction false} LeftIsWaiting(events: seq<Event>, j: nat, k: nat)
    requires j < k < |events| && Leaves(events, History(events, j))
    requires forall l :: j < l < k ==> !IsReset(events, l) && !Comes(events, History(events, l)) && !Orders(events, l)
    ensures WaitsSince(History(events, k), j) && History(events, k)[j].at == events[j].now
  {
    hide Leaves, Comes, IsDue, IsReset, MarkOf, Orders;
    var before := History(events, k - 1);
    WaitingNext(before, MarkOf(events, before));
    if j + 1 < k {
      LeftIsWaiting(events, j, k - 1);
      OrdersIff(events, k - 1);
      MarkOfWaiting(events, before, j);
    } else {
      LeavesIsMarked(events, before);
    }
  }

  lemma LeavesIsInside(events: seq<Event>, past: seq<Mark>)
    requires Leaves(events, past)
    ensures Inside(past)
  {
  }

  lemma CameIsComing(events: seq<Event>, past: seq<Mark>)
    requires |past| < |events| && MarkOf(events, past) == Came
    ensures Comes(events, past)
  {
    hide Comes;
  }

  lemma NotBoth(past: seq<Mark>)
    ensures !(Waiting(past) && Inside(past))
  {
  }

  lemma DueIsMarked(events: seq<Event>, past: seq<Mark>)
    requires IsDue(events, past)
    ensures Waiting(past) && !Inside(past) && MarkOf(events, past) == Due
  {
    var j: nat :| WaitsSince(past, j);
    assert Waiting(past);
    NotBoth(past);
    hide Inside, Waiting, WaitsSince, Weights, RecentMean, CleaningEnds;
  }

  /** One cleaning for a visit: between two orders a cat comes and leaves. */
  lemma OneOrderForAVisit(events: seq<Event>, first: nat, second: nat) returns (came: nat, left: nat)
    requires first < second < |events| && Orders(events, first) && Orders(events, second)
    ensures first < came < left < second
    ensures Comes(events, History(events, came)) && Leaves(events, History(events, left))
    ensures InsideSince(History(events, left), came) && WaitsSince(History(events, second), left)
  {
    hide Comes, Leaves, IsDue, MarkOf, Orders, After, Calm, Tells;
    left := SafeAutoClean(events, second);
    LeavesIsInside(events, History(events, left));
    came :| InsideSince(History(events, left), came);
    HistoryBegins(events, came, left);
    CameIsComing(events, History(events, came));
    OrdersIff(events, first);
    DueIsMarked(events, History(events, first));
    HistoryBegins(events, first, second);
    hide History;
    if came < first <= left {
      HistoryBegins(events, first, left);
      InsideBefore(History(events, left), came, first);
    }
  }

  // ------------------------------------------------------------------------------------ one visit

  /** Samples that all are processed, the first thirty of an even weight. */
  ghost predicate Settles(events: seq<Event>, weight: real) {
    && |events| >= INIT_SAMPLES
    && (forall k :: 0 <= k < |events| ==> Processed(events[k]))
    && forall k :: 0 <= k < INIT_SAMPLES ==> Processed(events[k]) && events[k].weight == weight
  }

  lemma {:induction false} SumOfEven(s: seq<real>, weight: real, n: nat)
    requires n <= |s| && forall k :: 0 <= k < n ==> s[k] == weight
    ensures SumOf(s, 0, n) == n as real * weight
  {
    if n > 0 {
      SumOfEven(s, weight, n - 1);
    }
  }

  lemma NothingYet(events: seq<Event>, past: seq<Mark>)
    requires Judged(events, past) && |Weights(events, past)| < INIT_SAMPLES && !Inside(past)
    ensures MarkOf(events, past) != Came && !MarkOf(events, past).Left? && MarkOf(events, past) != Cleared
  {
    hide Inside, Waiting, Weights, RecentMean, CleaningEnds;
  }

  lemma {:induction false} SettledAt(events: seq<Event>, weight: real, n: nat)
    requires Settles(events, weight) && n <= INIT_SAMPLES
    ensures var w := Weights(events, History(events, n)); |w| == n && forall k :: 0 <= k < n ==> w[k] == weight
    ensures !Inside(History(events, n))
  {
    if n > 0 {
      SettledAt(events, weight, n - 1);
      var past := History(events, n - 1);
      NothingYet(events, past);
      WeightsNext(events, past, MarkOf(events, past));
      InsideNext(past, MarkOf(events, past));
      hide Inside, MarkOf, Processed, CleaningEnds;
    }
  }

  lemma {:induction false} SumAtLeast(s: seq<real>, weight: real, from: nat, to: nat)
    requires from <= to <= |s| && forall x :: x in s ==> x >= weight
    ensures SumOf(s, from, to) >= (to - from) as real * weight
  {
    if from < to {
      SumAtLeast(s, weight, from, to - 1);
      assert s[to - 1] in s;
    }
  }

  lemma MeanAtLeast(s: seq<real>, weight: real)
    requires s != [] && forall x :: x in s ==> x >= weight
    ensures RecentMean(s) >= weight
  {
    SumAtLeast(s, weight, Oldest(s), |s|);
  }

  lemma {:induction false} WeightsAtLeast(events: seq<Event>, weight: real, n: nat)
    requires n <= |events| && forall k :: 0 <= k < n ==> events[k].Sample? && events[k].weight >= weight
    ensures forall w :: w in Weights(events, History(events, n)) ==> w >= weight
  {
    if n > 0 {
      WeightsAtLeast(events, weight, n - 1);
      var past := History(events, n - 1);
      WeightsNext(events, past, MarkOf(events, past));
    }
  }

  lemma SettledMean(w: seq<real>, weight: real, x: real)
    requires |w| == INIT_SAMPLES && forall k :: 0 <= k < |w| ==> w[k] == weight
    requires x >= weight + 1034.0
    ensures x > RecentMean(w) - ENTRY_THRESHOLD && x >= RecentMean(w + [x]) + ENTRY_THRESHOLD
  {
    SumOfEven(w, weight, INIT_SAMPLES);
    RecentSumNext(w, x);
    assert RecentMean(w + [x]) == (30.0 * weight + x) / 31.0;
  }

  /** A cat of 1034 grams that steps onto a settled scale shows. */
  lemma CatShows(events: seq<Event>, weight: real)
    requires Settles(events, weight) && INIT_SAMPLES < |events|
    requires events[INIT_SAMPLES].weight >= weight + 1034.0
    ensures Comes(events, History(events, INIT_SAMPLES))
  {
    var past, x := History(events, INIT_SAMPLES), events[INIT_SAMPLES].weight;
    SettledAt(events, weight, INIT_SAMPLES);
    SettledMean(Weights(events, past), weight, x);
    hide History, Inside, Waiting, Weights, RecentMean;
  }

  /**
   A cat of 1034 grams that steps onto a settled scale and off it again is cleaned up after: by a sample of the settled
   weight 180 seconds after it left, if nothing but that weight is read in between.
   */
  lemma OneVisit(events: seq<Event>, weight: real, k: nat) returns (i: nat)
    requires Settles(events, weight) && INIT_SAMPLES + 1 < k < |events|
    requires events[INIT_SAMPLES].weight >= weight + 1034.0
    requires forall l :: INIT_SAMPLES < l <= k ==> Processed(events[l]) && events[l].weight == weight
    requires events[k].now - events[INIT_SAMPLES + 1].now >= CLEAN_DELAY_SEC * SECOND
    ensures INIT_SAMPLES + 1 < i <= k && Orders(events, i)
  {
    var j := INIT_SAMPLES + 1;
    var past := History(events, INIT_SAMPLES);
    CatShows(events, weight);
    InsideNext(past, MarkOf(events, past));
    WeightsNext(events, past, MarkOf(events, past));
    WeightsAtLeast(events, weight, j);
    MeanAtLeast(Weights(events, History(events, j)), weight);
    assert Leaves(events, History(events, j));
    forall l | j < l <= k
      ensures !Comes(events, History(events, l))
    {
      WeightsAtLeast(events, weight, l);
      MeanAtLeast(Weights(events, History(events, l)) + [weight], weight);
    }
    i := EveryVisitIsCleaned(events, j, k);
  }

  // ----------------------------------------------------------------------------------- the ring

  /** The ring read from its head on around. */
  function Unrolled(ring: seq<real>, head: nat): (u: seq<real>)
    requires head < |ring|
    ensures |u| == |ring| && u[0] == ring[head]
  {
    ring[head..] + ring[..head]
  }

  lemma Rotated(ring: seq<real>, head: nat, x: real)
    requires head < |ring| == RING_SIZE
    ensures Unrolled(ring[head := x], (head + 1) % RING_SIZE) == Unrolled(ring, head)[1..] + [x]
  {
  }

  lemma RecentNext(pushes: seq<real>, x: real)
    ensures var (oldest, longer) := (Oldest(pushes), pushes + [x]);
            longer[Oldest(longer)..]
              == (if |pushes| < RING_SIZE then pushes[oldest..] else pushes[oldest..][1..]) + [x]
  {
  }

  class LoadCell {
    const ring: array<real>
    var head: nat
    var count: nat
    var sum: real
    var baseline: real
    var state: State
    var exitTime: int
    var wasRunning: bool
    ghost var pushes: seq<real>

    /** The latest weights stand in the ring, from the head on around it. */
    ghost predicate Valid()
      reads this, ring
    {
      && ring.Length == RING_SIZE
      && head == |pushes| % RING_SIZE
      && count == Held(pushes)
      && Window() == pushes[Oldest(pushes)..]
      && sum == RecentSum(pushes)
    }

    ghost function Window(): seq<real>
      reads this, ring
      requires head < ring.Length
    {
      if count < RING_SIZE then ring[..head] else Unrolled(ring[..], head)
    }

    ghost function View(): Detector
      reads this
    {
      Detector(state, pushes, baseline, exitTime, wasRunning)
    }

    constructor ()
      ensures Valid() && View() == Start && fresh(ring)
    {
      ring := new real[RING_SIZE](_ => 0.0);
      head, count, sum, baseline, state, exitTime, wasRunning, pushes := 0, 0, 0.0, 0.0, Init, 0, false, [];
    }

    method ResetRing()
      requires Valid()
      modifies this, ring
      ensures Valid() && View() == Reset(old(View()))
    {
      ClearRing();
      head, count, sum, baseline, state, pushes := 0, 0, 0.0, 0.0, Init, [];
    }

    method ClearRing()
      modifies ring
      ensures forall k :: 0 <= k < ring.Length ==> ring[k] == 0.0
    {
      for i := 0 to ring.Length
        invariant forall k :: 0 <= k < i ==> ring[k] == 0.0
      {
        ring[i] := 0.0;
      }
    }

    method PushRing(weight: real) returns (mean: real)
      requires Valid()
      modifies this`head, this`count, this`sum, this`pushes, ring
      ensures Valid() && pushes == old(pushes) + [weight] && mean == RecentMean(pushes)
    {
      RecentSumNext(pushes, weight);
      RecentNext(pushes, weight);
      if count < RING_SIZE {
        Fill(weight);
      } else {
        Replace(weight);
      }
      mean := sum / count as real;
    }

    method Fill(weight: real)
      requires Valid() && count < RING_SIZE
      requires RecentSum(pushes + [weight]) == RecentSum(pushes) + weight
      modifies this`head, this`count, this`sum, this`pushes, ring
      ensures Valid() && pushes == old(pushes) + [weight]
    {
      ghost var was := ring[..head];
      ring[head] := weight;
      sum := sum + weight;
      count := count + 1;
      assert ring[..count] == was + [weight];
      head := (head + 1) % RING_SIZE;
      pushes := pushes + [weight];
      if count == RING_SIZE {
        assert Unrolled(ring[..], head) == ring[..count];
      }
    }

    method Replace(weight: real)
      requires Valid() && count == RING_SIZE
      requires RecentSum(pushes + [weight]) == RecentSum(pushes) - pushes[Oldest(pushes)] + weight
      requires (pushes + [weight])[Oldest(pushes + [weight])..] == pushes[Oldest(pushes)..][1..] + [weight]
      modifies this`head, this`count, this`sum, this`pushes, ring
      ensures Valid() && pushes == old(pushes) + [weight]
    {
      hide RecentSum;
      assert ring[head] == Window()[0] == pushes[Oldest(pushes)..][0];
      Rotated(ring[..], head, weight);
      ghost var next := ring[..][head := weight];
      sum := sum - ring[head];
      ring[head] := weight;
      assert ring[..] == next;
      sum := sum + weight;
      head := (head + 1) % RING_SIZE;
      pushes := pushes + [weight];
    }

    method PushWeight(weight: real)
      requires Valid()
      modifies this, ring
      ensures Valid() && View() == Push(old(View()), weight)
    {
      baseline := PushRing(weight);
    }

    method Process(weight: real, running: bool, paused: bool, recovering: bool, now: int) returns (ordered: bool)
      requires Valid()
      modifies this, ring
      ensures Valid() && (View(), ordered) == Step(old(View()), Sample(weight, running, paused, recovering, now))
    {
      ordered := false;
      if wasRunning && !running {
        ResetRing();
      }
      wasRunning := running;
      if running || paused || recovering {
        return;
      }
      ordered := Decide(weight, now);
    }

    method Decide(weight: real, now: int) returns (ordered: bool)
      requires Valid()
      modifies this, ring
      ensures Valid() && (View(), ordered) == Judge(old(View()), weight, now)
    {
      ordered := false;
      match state {
        case Init =>
          PushWeight(weight);
          if count >= INIT_SAMPLES {
            state := Idle;
          }
        case Idle =>
          if weight <= baseline - ENTRY_THRESHOLD {
            ResetRing();
            return;
          }
          PushWeight(weight);
          if weight >= baseline + ENTRY_THRESHOLD {
            state := Occupied;
          }
        case Occupied =>
          if weight <= baseline + EXIT_THRESHOLD {
            state := WaitClean;
            exitTime := now;
          }
        case WaitClean =>
          PushWeight(weight);
          if weight >= baseline + ENTRY_THRESHOLD {
            state := Occupied;
            return;
          }
          var elapsed := Truncated(now - exitTime, SECOND);
          if elapsed >= CLEAN_DELAY_SEC {
            state := Idle;
            ordered := true;
          }
      }
    }

    method ExecuteTare()
      requires Valid()
      modifies this, ring
      ensures Valid() && View() == Step(old(View()), Tare).0
    {
      ResetRing();
    }
  }
}
