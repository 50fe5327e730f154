/**
 The button driver's periodic handler: debounce and the state machine that turns levels into events.
 A level is modelled by whether it is the active one.
 */
module ButtonHandler {

  const WORD := 0x1_0000_0000

  datatype Event =
    | PressDown
    | PressUp
    | PressRepeat
    | RepeatDone
    | SingleClick
    | DoubleClick
    | MultipleClick(clicks: nat)
    | LongPressStart
    | LongPressHold
    | LongPressUp
    | PressEnd

  datatype Config = Config(debounceTicks: nat, serialTicks: nat)

  /** The fields of a button: phase is its state 0..4, pressed says that the debounced level is the active one. */
  datatype Button = Button(
    ticks: nat, longPressTicks: nat, shortPressTicks: nat, holdCount: nat,
    repeat: nat, phase: nat, debounceCount: nat, pressed: bool)

  function Created(longPressTicks: nat, shortPressTicks: nat): Button {
    Button(0, longPressTicks, shortPressTicks, 0, 0, 0, 0, false)
  }

  /** debounce_cnt has three bits. */
  function Debounced(cfg: Config, b: Button, active: bool): Button {
    if active != b.pressed then
      var count := (b.debounceCount + 1) % 8;
      if count >= cfg.debounceTicks then b.(pressed := active, debounceCount := 0) else b.(debounceCount := count)
    else b.(debounceCount := 0)
  }

  function ClickEvents(repeat: nat): seq<Event> {
    (if repeat == 1 then [SingleClick] else if repeat == 2 then [DoubleClick] else [])
    + [MultipleClick(repeat), RepeatDone, PressEnd]
  }

  /** The state machine on a debounced button; the counter of presses has eight bits. */
  function React(cfg: Config, b: Button): (Button, seq<Event>) {
    match b.phase
    case 0 =>
      if b.pressed then (b.(ticks := 0, repeat := 1, phase := 1), [PressDown]) else (b, [])
    case 1 =>
      if !b.pressed then (b.(ticks := 0, phase := 2), [PressUp])
      else if b.ticks >= b.longPressTicks then (b.(phase := 4), [LongPressStart])
      else (b, [])
    case 2 =>
      if b.pressed then (b.(ticks := 0, repeat := (b.repeat + 1) % 0x100, phase := 3), [PressDown, PressRepeat])
      else if b.ticks > b.shortPressTicks then (b.(repeat := 0, phase := 0), ClickEvents(b.repeat))
      else (b, [])
    case 3 =>
      if b.pressed then (b, [])
      else if b.ticks < b.shortPressTicks then (b.(ticks := 0, phase := 2), [PressUp])
      else (b.(phase := 0), [PressUp, PressEnd])
    case 4 =>
      if !b.pressed then (b.(phase := 0, holdCount := 0), [LongPressUp, PressUp, PressEnd])
      else if b.ticks >= ((b.holdCount + 1) * cfg.serialTicks + b.longPressTicks) % WORD
      then (b.(holdCount := (b.holdCount + 1) % WORD), [LongPressHold])
      else (b, [])
    case _ => (b, [])
  }

  function Step(cfg: Config, b: Button, active: bool): (Button, seq<Event>) {
    React(cfg, Debounced(cfg, if b.phase > 0 then b.(ticks := (b.ticks + 1) % WORD) else b, active))
  }

  /** The button after the first n samples of a stream. */
  function After(cfg: Config, b: Button, samples: seq<bool>, n: nat): Button
    requires n <= |samples|
  {
    if n == 0 then b else Step(cfg, After(cfg, b, samples, n - 1), samples[n - 1]).0
  }

  /** What it emits with sample k, and with the first n. */
  function EventsAt(cfg: Config, b: Button, samples: seq<bool>, k: nat): seq<Event>
    requires k < |samples|
  {
    Step(cfg, After(cfg, b, samples, k), samples[k]).1
  }

  function Trace(cfg: Config, b: Button, samples: seq<bool>, n: nat): seq<Event>
    requires n <= |samples|
  {
    if n == 0 then [] else Trace(cfg, b, samples, n - 1) + EventsAt(cfg, b, samples, n - 1)
  }

  // -------------------------------------------------------------- what a session is

  datatype Edge = NoEdge | DownEdge | UpEdge

  /**
   What can be said of a stretch of events: the latest of PRESS_DOWN and PRESS_UP, whether these alternate from a
   PRESS_DOWN on, how many PRESS_DOWN and PRESS_END there are, which clicks were reported, whether the press was long,
   and how often it was reported held.
   */
  datatype Facts = Facts(
    edge: Edge, alternates: bool, downs: nat, ends: nat,
    single: bool, double: bool, reports: nat, reported: nat, click: bool, long: bool, holds: nat)

  const Nothing := Facts(NoEdge, true, 0, 0, false, false, 0, 0, false, false, 0)

  function Learn(f: Facts, e: Event): Facts {
    Facts(
      if e.PressDown? then DownEdge else if e.PressUp? then UpEdge else f.edge,
      f.alternates && !(e.PressDown? && f.edge == DownEdge) && !(e.PressUp? && f.edge != DownEdge),
      if e.PressDown? then f.downs + 1 else f.downs,
      if e.PressEnd? then f.ends + 1 else f.ends,
      f.single || e.SingleClick?,
      f.double || e.DoubleClick?,
      if e.MultipleClick? then f.reports + 1 else f.reports,
      if e.MultipleClick? then e.clicks else f.reported,
      f.click || IsClick(e),
      f.long || IsLong(e),
      if e.LongPressHold? then f.holds + 1 else f.holds)
  }

  function FactsOf(s: seq<Event>): Facts {
    if s == [] then Nothing else Learn(FactsOf(s[..|s| - 1]), s[|s| - 1])
  }

  lemma FactsNext(s: seq<Event>, e: Event)
    ensures FactsOf(s + [e]) == Learn(FactsOf(s), e)
  {
  }

  predicate OpensDown(s: seq<Event>) {
    s != [] ==> s[0] == PressDown
  }

  /**
   A whole session: it opens with PRESS_DOWN, its edges alternate, it ends up, and PRESS_END closes it and occurs
   nowhere else. It has a click or a long press, or neither, never both; a long press has one press. A click
   reports the number of presses once, as an 8-bit counter holds it, and SINGLE and DOUBLE go with exactly one
   and two of that.
   */
  predicate Session(s: seq<Event>) {
    && s != [] && s[0] == PressDown && s[|s| - 1] == PressEnd
    && Closed(FactsOf(s))
  }

  predicate Closed(f: Facts) {
    && f.ends == 1 && f.alternates && f.edge == UpEdge
    && !(f.click && f.long) && (f.long ==> f.downs == 1)
    && f.reports == (if f.click then 1 else 0) && (f.click ==> f.reported == f.downs % 0x100)
    && (f.single <==> f.click && f.downs % 0x100 == 1)
    && (f.double <==> f.click && f.downs % 0x100 == 2)
  }

  // ------------------------------------------------- the facts, told by the events themselves

  predicate IsEdge(e: Event) {
    e == PressDown || e == PressUp
  }

  predicate IsClick(e: Event) {
    e.SingleClick? || e.DoubleClick? || e.MultipleClick? || e.RepeatDone?
  }

  predicate IsLong(e: Event) {
    e.LongPressStart? || e.LongPressHold? || e.LongPressUp?
  }

  /** How many MULTIPLE_CLICK events there are. */
  function Reports(s: seq<Event>): nat {
    if s == [] then 0 else Reports(s[..|s| - 1]) + if s[|s| - 1].MultipleClick? then 1 else 0
  }

  /** The latest of them is event j. */
  ghost predicate LatestReport(s: seq<Event>, j: nat) {
    j < |s| && s[j].MultipleClick? && forall i :: j < i < |s| ==> !s[i].MultipleClick?
  }

  /** The reports are those events, and what is reported is what the latest of them says. */
  lemma {:induction false} ReportsMean(s: seq<Event>)
    ensures FactsOf(s).reports == Reports(s)
    ensures forall j: nat :: LatestReport(s, j) ==> FactsOf(s).reported == s[j].clicks
  {
    if s != [] {
      var before, e := s[..|s| - 1], s[|s| - 1];
      ReportsMean(before);
      forall j: nat | LatestReport(s, j)
        ensures FactsOf(s).reported == s[j].clicks
      {
        assert e.MultipleClick? || LatestReport(before, j);
      }
    }
  }

  /** Each other fact is what the events say: which of them occur, and how often PRESS_DOWN and PRESS_END do. */
  lemma {:induction false} FactsMean(s: seq<Event>)
    ensures var f := FactsOf(s);
            && (f.single <==> SingleClick in s) && (f.double <==> DoubleClick in s)
            && (f.click <==> exists k :: 0 <= k < |s| && IsClick(s[k]))
            && (f.long <==> exists k :: 0 <= k < |s| && IsLong(s[k]))
            && f.ends == Occurrences(s, PressEnd) && (f.ends == 0 <==> PressEnd !in s)
  {
    if s != [] {
      var before, e := s[..|s| - 1], s[|s| - 1];
      FactsMean(before);
      assert s == before + [e];
      if IsClick(e) {
        assert IsClick(s[|s| - 1]);
      }
      if IsLong(e) {
        assert IsLong(s[|s| - 1]);
      }
      assert forall k :: 0 <= k < |before| ==> before[k] == s[k];
    }
  }

  lemma {:induction false} CountsMean(s: seq<Event>)
    ensures var f := FactsOf(s);
            f.downs == Occurrences(s, PressDown) && f.holds == Occurrences(s, LongPressHold)
  {
    if s != [] {
      CountsMean(s[..|s| - 1]);
    }
  }

  function Occurrences(s: seq<Event>, e: Event): nat {
    if s == [] then 0 else Occurrences(s[..|s| - 1], e) + if s[|s| - 1] == e then 1 else 0
  }

  /** The latest edge before position k is at j. */
  ghost predicate LatestEdge(s: seq<Event>, k: nat, j: nat)
    requires k <= |s|
  {
    j < k && IsEdge(s[j]) && forall i :: j < i < k ==> !IsEdge(s[i])
  }

  lemma {:induction false} EdgeMeans(s: seq<Event>, k: nat) returns (j: nat)
    requires k <= |s| && FactsOf(s[..k]).edge != NoEdge
    ensures LatestEdge(s, k, j) && s[j] == if FactsOf(s[..k]).edge == DownEdge then PressDown else PressUp
  {
    assert s[..k][..k - 1] == s[..k - 1];
    if IsEdge(s[k - 1]) {
      j := k - 1;
    } else {
      j := EdgeMeans(s, k - 1);
    }
  }

  lemma {:induction false} AlternatesSoFar(s: seq<Event>, k: nat)
    requires k <= |s| && FactsOf(s).alternates
    ensures FactsOf(s[..k]).alternates
    decreases |s| - k
  {
    if k < |s| {
      AlternatesSoFar(s, k + 1);
      assert s[..k + 1][..k] == s[..k];
    } else {
      assert s[..k] == s;
    }
  }

  /** In a session every PRESS_UP comes directly after a PRESS_DOWN, as far as edges go. */
  lemma UpFollowsDown(s: seq<Event>, k: nat) returns (j: nat)
    requires Session(s) && k < |s| && s[k] == PressUp
    ensures LatestEdge(s, k, j) && s[j] == PressDown
  {
    AlternatesSoFar(s, k + 1);
    assert s[..k + 1][..k] == s[..k];
    j := EdgeMeans(s, k);
  }

  /** And no PRESS_DOWN comes directly after another. */
  lemma DownFollowsUp(s: seq<Event>, k: nat, j: nat)
    requires Session(s) && k < |s| && s[k] == PressDown && LatestEdge(s, k, j)
    ensures s[j] == PressUp
  {
    AlternatesSoFar(s, k + 1);
    assert s[..k + 1][..k] == s[..k];
    if FactsOf(s[..k]).edge == NoEdge {
      SomeEdge(s, k, j);
    } else {
      var j' := EdgeMeans(s, k);
      assert j' == j;
    }
  }

  lemma {:induction false} SomeEdge(s: seq<Event>, k: nat, j: nat)
    requires j < k <= |s| && IsEdge(s[j])
    ensures FactsOf(s[..k]).edge != NoEdge
  {
    assert s[..k][..k - 1] == s[..k - 1];
    if j < k - 1 {
      SomeEdge(s, k - 1, j);
    }
  }

  // ------------------------------------------------------------------ cutting a trace up

  /** The finished sessions of a trace, and the one underway. */
  datatype Split = Split(done: seq<seq<Event>>, current: seq<Event>)

  function Cut(t: seq<Event>): Split {
    if t == [] then Split([], []) else Add(Cut(t[..|t| - 1]), t[|t| - 1])
  }

  function Add(r: Split, e: Event): Split {
    if e == PressEnd then Split(r.done + [r.current + [e]], []) else Split(r.done, r.current + [e])
  }

  /** Cutting loses nothing. */
  function Joined(done: seq<seq<Event>>): seq<Event> {
    if done == [] then [] else Joined(done[..|done| - 1]) + done[|done| - 1]
  }

  lemma CutNext(t: seq<Event>, e: Event)
    ensures Cut(t + [e]) == Add(Cut(t), e)
  {
  }

  lemma AddJoins(r: Split, e: Event)
    ensures Whole(Add(r, e)) == Whole(r) + [e]
  {
  }

  function Whole(r: Split): seq<Event> {
    Joined(r.done) + r.current
  }

  lemma CutJoinsNext(t: seq<Event>, e: Event)
    requires Whole(Cut(t)) == t
    ensures Whole(Cut(t + [e])) == t + [e]
  {
    CutNext(t, e);
    AddJoins(Cut(t), e);
  }

  lemma {:induction false} CutJoins(t: seq<Event>)
    ensures Whole(Cut(t)) == t
  {
    if t == [] {
      assert Joined([]) == [];
    } else {
      var before, e := t[..|t| - 1], t[|t| - 1];
      assert before + [e] == t;
      CutJoins(before);
      CutJoinsNext(before, e);
    }
  }

  // ------------------------------------------------------------------ where the fields stand

  /** How the fields of the button stand to the session underway. */
  predicate Tracks(b: Button, s: seq<Event>) {
    OpensDown(s) && (b.phase == 0 <==> s == []) && Stands(b, FactsOf(s))
  }

  predicate Stands(b: Button, f: Facts) {
    && f.alternates && f.ends == 0 && !f.click && !f.single && !f.double && f.reports == 0
    && b.phase <= 4
    && (b.pressed <==> b.phase == 1 || b.phase == 3 || b.phase == 4)
    && (b.phase == 0 ==> f == Nothing)
    && (b.phase == 1 ==> f.downs == 1 && b.repeat == 1 && f.edge == DownEdge && !f.long)
    && (b.phase == 2 ==> b.repeat == f.downs % 0x100 && f.downs >= 1 && f.edge == UpEdge && !f.long)
    && (b.phase == 3 ==> b.repeat == f.downs % 0x100 && f.downs >= 2 && f.edge == DownEdge && !f.long)
    && (b.phase == 4 ==> f.downs == 1 && f.edge == DownEdge && f.long)
    && b.holdCount == f.holds % WORD && (b.phase != 4 ==> f.holds == 0)
  }

  /** Every finished session is whole, and the fields stand where the session underway is. */
  ghost predicate InOrder(r: Split, b: Button) {
    (forall i :: 0 <= i < |r.done| ==> Session(r.done[i])) && Tracks(b, r.current)
  }

  /** The facts after several events. */
  function LearnAll(f: Facts, es: seq<Event>): Facts {
    if es == [] then f else Learn(LearnAll(f, es[..|es| - 1]), es[|es| - 1])
  }

  // ------------------------------------------------------------------------- every step

  /** What one step owes: it carries the session underway on, or completes it and starts afresh. */
  predicate Continues(b': Button, f: Facts, es: seq<Event>) {
    if es != [] && es[|es| - 1] == PressEnd
    then Closed(LearnAll(f, es)) && Stands(b', Nothing) && b'.phase == 0
    else Stands(b', LearnAll(f, es)) && (b'.phase == 0 ==> es == [])
  }

  predicate EndsOnlyLast(es: seq<Event>) {
    forall k :: 0 <= k < |es| - 1 ==> es[k] != PressEnd
  }

  lemma LearnNext(f: Facts, es: seq<Event>, e: Event)
    ensures LearnAll(f, es + [e]) == Learn(LearnAll(f, es), e)
  {
  }

  lemma LearnTwo(f: Facts, a: Event, b: Event)
    ensures LearnAll(f, [a]) == Learn(f, a)
    ensures LearnAll(f, [a, b]) == Learn(Learn(f, a), b)
  {
  }

  lemma LearnThree(f: Facts, a: Event, b: Event, c: Event)
    ensures LearnAll(f, [a, b, c]) == Learn(Learn(Learn(f, a), b), c)
  {
    assert [a, b] + [c] == [a, b, c];
    LearnTwo(f, a, b);
    LearnNext(f, [a, b], c);
  }

  lemma LearnFour(f: Facts, a: Event, b: Event, c: Event, d: Event)
    ensures LearnAll(f, [a, b, c, d]) == Learn(Learn(Learn(Learn(f, a), b), c), d)
  {
    assert [a, b, c] + [d] == [a, b, c, d];
    LearnThree(f, a, b, c);
    LearnNext(f, [a, b, c], d);
  }

  lemma LearnClick(f: Facts, repeat: nat)
    ensures LearnAll(f, ClickEvents(repeat))
         == Facts(f.edge, f.alternates, f.downs, f.ends + 1, f.single || repeat == 1, f.double || repeat == 2,
                  f.reports + 1, repeat, true, f.long, f.holds)
  {
    if repeat == 1 || repeat == 2 {
      var named := if repeat == 1 then SingleClick else DoubleClick;
      assert ClickEvents(repeat) == [named, MultipleClick(repeat), RepeatDone, PressEnd];
      LearnFour(f, named, MultipleClick(repeat), RepeatDone, PressEnd);
    } else {
      assert ClickEvents(repeat) == [MultipleClick(repeat), RepeatDone, PressEnd];
      LearnThree(f, MultipleClick(repeat), RepeatDone, PressEnd);
    }
  }

  lemma IdleContinues(cfg: Config, b: Button, f: Facts, pressed: bool)
    requires Stands(b, f) && b.phase == 0
    ensures var (b', es) := React(cfg, b.(pressed := pressed)); Continues(b', f, es) && EndsOnlyLast(es)
  {
  }

  lemma PressContinues(cfg: Config, b: Button, f: Facts, pressed: bool)
    requires Stands(b, f) && b.phase == 1
    ensures var (b', es) := React(cfg, b.(pressed := pressed)); Continues(b', f, es) && EndsOnlyLast(es)
  {
  }

  lemma PauseContinues(cfg: Config, b: Button, f: Facts, pressed: bool)
    requires Stands(b, f) && b.phase == 2
    ensures var (b', es) := React(cfg, b.(pressed := pressed)); Continues(b', f, es) && EndsOnlyLast(es)
  {
    if pressed {
      LearnTwo(f, PressDown, PressRepeat);
    } else {
      LearnClick(f, b.repeat);
    }
  }

  lemma RepeatContinues(cfg: Config, b: Button, f: Facts, pressed: bool)
    requires Stands(b, f) && b.phase == 3
    ensures var (b', es) := React(cfg, b.(pressed := pressed)); Continues(b', f, es) && EndsOnlyLast(es)
  {
    LearnTwo(f, PressUp, PressEnd);
  }

  lemma NextWord(n: nat)
    ensures (n % WORD + 1) % WORD == (n + 1) % WORD
  {
  }

  lemma HoldContinues(cfg: Config, b: Button, f: Facts, pressed: bool)
    requires Stands(b, f) && b.phase == 4
    ensures var (b', es) := React(cfg, b.(pressed := pressed)); Continues(b', f, es) && EndsOnlyLast(es)
  {
    LearnThree(f, LongPressUp, PressUp, PressEnd);
    LearnTwo(f, LongPressHold, PressEnd);
    NextWord(f.holds);
  }

  lemma ReactContinues(cfg: Config, b: Button, f: Facts, pressed: bool)
    requires Stands(b, f)
    ensures var (b', es) := React(cfg, b.(pressed := pressed)); Continues(b', f, es) && EndsOnlyLast(es)
  {
    if b.phase == 0 {
      IdleContinues(cfg, b, f, pressed);
    } else if b.phase == 1 {
      PressContinues(cfg, b, f, pressed);
    } else if b.phase == 2 {
      PauseContinues(cfg, b, f, pressed);
    } else if b.phase == 3 {
      RepeatContinues(cfg, b, f, pressed);
    } else {
      HoldContinues(cfg, b, f, pressed);
    }
  }

  lemma StepContinues(cfg: Config, b: Button, f: Facts, active: bool)
    requires Stands(b, f)
    ensures var (b', es) := Step(cfg, b, active); Continues(b', f, es) && EndsOnlyLast(es)
    ensures b.phase == 0 && Step(cfg, b, active).1 != [] ==> Step(cfg, b, active).1[0] == PressDown
    ensures b.phase != 0 ==> Step(cfg, b, active).0.phase != 0 || Step(cfg, b, active).1 != []
  {
    var ticked := if b.phase > 0 then b.(ticks := (b.ticks + 1) % WORD) else b;
    var d := Debounced(cfg, ticked, active);
    var same := d.(pressed := b.pressed);
    assert same.(pressed := d.pressed) == d;
    ReactContinues(cfg, same, f, d.pressed);
  }

  lemma Regroup(a: seq<Event>, es: seq<Event>)
    requires es != []
    ensures a + es == (a + es[..|es| - 1]) + [es[|es| - 1]]
  {
  }

  lemma {:induction false} LearnMany(s: seq<Event>, es: seq<Event>)
    ensures FactsOf(s + es) == LearnAll(FactsOf(s), es)
  {
    if es == [] {
      assert s + es == s;
    } else {
      LearnMany(s, es[..|es| - 1]);
      Regroup(s, es);
      FactsNext(s + es[..|es| - 1], es[|es| - 1]);
    }
  }

  lemma {:induction false} CutMany(t: seq<Event>, es: seq<Event>)
    requires PressEnd !in es
    ensures Cut(t + es) == Split(Cut(t).done, Cut(t).current + es)
  {
    if es == [] {
      assert t + es == t && Cut(t).current + es == Cut(t).current;
    } else {
      CutMany(t, es[..|es| - 1]);
      Regroup(t, es);
      Regroup(Cut(t).current, es);
      CutNext(t + es[..|es| - 1], es[|es| - 1]);
    }
  }

  lemma CutStep(t: seq<Event>, es: seq<Event>)
    requires es != [] && EndsOnlyLast(es)
    ensures Cut(t + es) == (if es[|es| - 1] == PressEnd then Split(Cut(t).done + [Cut(t).current + es], [])
                            else Split(Cut(t).done, Cut(t).current + es))
    ensures FactsOf(Cut(t).current + es) == LearnAll(FactsOf(Cut(t).current), es)
  {
    LearnMany(Cut(t).current, es);
    CutMany(t, es[..|es| - 1]);
    Regroup(t, es);
    Regroup(Cut(t).current, es);
    CutNext(t + es[..|es| - 1], es[|es| - 1]);
  }

  lemma InOrderAdd(r: Split, es: seq<Event>, s: seq<Event>, b': Button)
    requires forall i :: 0 <= i < |r.done| ==> Session(r.done[i])
    requires es != [] && s != [] && s[0] == PressDown && s[|s| - 1] == es[|es| - 1]
    requires Continues(b', FactsOf(r.current), es) && FactsOf(s) == LearnAll(FactsOf(r.current), es)
    ensures InOrder(if es[|es| - 1] == PressEnd then Split(r.done + [s], []) else Split(r.done, s), b')
  {
  }

  lemma InOrderNext(t: seq<Event>, cfg: Config, b: Button, active: bool)
    requires InOrder(Cut(t), b)
    ensures var (b', es) := Step(cfg, b, active); InOrder(Cut(t + es), b')
  {
    var r := Cut(t);
    var es := Step(cfg, b, active).1;
    StepContinues(cfg, b, FactsOf(r.current), active);
    if es == [] {
      assert t + es == t;
    } else {
      CutStep(t, es);
      InOrderAdd(r, es, r.current + es, Step(cfg, b, active).0);
    }
  }

  lemma {:induction false} SessionsFrom(cfg: Config, b: Button, samples: seq<bool>, n: nat)
    requires n <= |samples| && InOrder(Split([], []), b)
    ensures InOrder(Cut(Trace(cfg, b, samples, n)), After(cfg, b, samples, n))
  {
    hide InOrder, Step, Add;
    if n > 0 {
      var t, a, active := Trace(cfg, b, samples, n - 1), After(cfg, b, samples, n - 1), samples[n - 1];
      assert InOrder(Cut(t), a) by {
        SessionsFrom(cfg, b, samples, n - 1);
      }
      InOrderNext(t, cfg, a, active);
    }
  }

  /**
   Over every stream of samples the emitted events fall into whole sessions and one underway, which is where
   the button's fields stand.
   */
  lemma EverySessionIsWhole(cfg: Config, longPressTicks: nat, shortPressTicks: nat, samples: seq<bool>, n: nat)
    requires n <= |samples|
    ensures var b := Created(longPressTicks, shortPressTicks);
            InOrder(Cut(Trace(cfg, b, samples, n)), After(cfg, b, samples, n))
  {
    SessionsFrom(cfg, Created(longPressTicks, shortPressTicks), samples, n);
  }

  // ------------------------------------------------------------------------- debounce

  /** The last n samples before position k were all active. */
  ghost predicate ActiveFor(samples: seq<bool>, k: nat, n: nat)
    requires k <= |samples|
  {
    n <= k && forall i :: k - n <= i < k ==> samples[i]
  }

  /** The state says whether the button is pressed, and the counter counts active samples while it is not. */
  ghost predicate Counts(samples: seq<bool>, k: nat, b: Button)
    requires k <= |samples|
  {
    && b.debounceCount < 8 && b.phase <= 4
    && (b.pressed <==> b.phase == 1 || b.phase == 3 || b.phase == 4)
    && (!b.pressed ==> ActiveFor(samples, k, b.debounceCount))
  }

  lemma CountsNext(cfg: Config, samples: seq<bool>, k: nat, b: Button)
    requires k < |samples| && Counts(samples, k, b)
    ensures Counts(samples, k + 1, Step(cfg, b, samples[k]).0)
  {
  }

  lemma {:induction false} CountsSamples(cfg: Config, b: Button, samples: seq<bool>, n: nat)
    requires n <= |samples| && b.phase == 0 && !b.pressed && b.debounceCount == 0
    ensures Counts(samples, n, After(cfg, b, samples, n))
  {
    hide Step;
    if n > 0 {
      CountsSamples(cfg, b, samples, n - 1);
      CountsNext(cfg, samples, n - 1, After(cfg, b, samples, n - 1));
    }
  }

  /** Every PRESS_DOWN comes with the last of at least debounceTicks active samples in a row. */
  lemma DownIsDebounced(cfg: Config, longPressTicks: nat, shortPressTicks: nat, samples: seq<bool>, k: nat)
    requires k < |samples|
    requires PressDown in EventsAt(cfg, Created(longPressTicks, shortPressTicks), samples, k)
    ensures ActiveFor(samples, k + 1, if cfg.debounceTicks == 0 then 1 else cfg.debounceTicks)
    ensures cfg.debounceTicks <= 7
  {
    CountsSamples(cfg, Created(longPressTicks, shortPressTicks), samples, k);
  }

  lemma HeldStep(cfg: Config, b: Button)
    requires b.phase == 0 && !b.pressed && b.debounceCount + 1 < cfg.debounceTicks <= 7
    ensures Step(cfg, b, true).0 == b.(debounceCount := b.debounceCount + 1)
  {
  }

  lemma {:induction false} HeldDown(cfg: Config, b: Button, samples: seq<bool>, n: nat)
    requires b.phase == 0 && !b.pressed && b.debounceCount == 0
    requires n < cfg.debounceTicks <= 7 && n <= |samples| && forall i :: 0 <= i < n ==> samples[i]
    ensures After(cfg, b, samples, n) == b.(debounceCount := n)
  {
    hide Step;
    if n > 0 {
      HeldDown(cfg, b, samples, n - 1);
      HeldStep(cfg, b.(debounceCount := n - 1));
    }
  }

  lemma LastSample(cfg: Config, b: Button)
    requires b.phase == 0 && !b.pressed && b.debounceCount < 7 && b.debounceCount + 1 >= cfg.debounceTicks
    ensures Step(cfg, b, true).1 == [PressDown]
  {
  }

  lemma PressesWhenItFits(cfg: Config, longPressTicks: nat, shortPressTicks: nat) returns (samples: seq<bool>)
    requires cfg.debounceTicks <= 7
    ensures PressDown in Trace(cfg, Created(longPressTicks, shortPressTicks), samples, |samples|)
  {
    var b := Created(longPressTicks, shortPressTicks);
    var n := if cfg.debounceTicks == 0 then 0 else cfg.debounceTicks - 1;
    samples := seq(n + 1, i => true);
    if cfg.debounceTicks > 0 {
      HeldDown(cfg, b, samples, n);
    }
    LastSample(cfg, After(cfg, b, samples, n));
    assert PressDown in EventsAt(cfg, b, samples, n);
  }

  /**
   The button works at all if and only if the configured count fits the three bits of its counter. A count of 8,
   which the source calls the maximum, is never reached: no stream of samples makes a PRESS_DOWN.
   */
  lemma PressesAtAllIff(cfg: Config, longPressTicks: nat, shortPressTicks: nat)
    ensures (exists samples :: PressDown in Trace(cfg, Created(longPressTicks, shortPressTicks), samples, |samples|))
            <==> cfg.debounceTicks <= 7
  {
    if cfg.debounceTicks <= 7 {
      var samples := PressesWhenItFits(cfg, longPressTicks, shortPressTicks);
    } else {
      forall samples
        ensures PressDown !in Trace(cfg, Created(longPressTicks, shortPressTicks), samples, |samples|)
      {
        NeverPressed(cfg, Created(longPressTicks, shortPressTicks), samples, |samples|);
      }
    }
  }

  lemma NeverStep(cfg: Config, b: Button, active: bool)
    requires b.phase == 0 && !b.pressed && cfg.debounceTicks >= 8
    ensures var (next, es) := Step(cfg, b, active); es == [] && next.phase == 0 && !next.pressed
  {
  }

  lemma {:induction false} NeverPressed(cfg: Config, b: Button, samples: seq<bool>, n: nat)
    requires n <= |samples| && b.phase == 0 && !b.pressed && cfg.debounceTicks >= 8
    ensures Trace(cfg, b, samples, n) == []
    ensures After(cfg, b, samples, n).phase == 0 && !After(cfg, b, samples, n).pressed
  {
    hide Step;
    if n > 0 {
      NeverPressed(cfg, b, samples, n - 1);
      NeverStep(cfg, After(cfg, b, samples, n - 1), samples[n - 1]);
    }
  }

  // ------------------------------------------------------------------------------ timing

  predicate HasEdge(es: seq<Event>) {
    PressDown in es || PressUp in es
  }

  /** The events of the first n samples, sample by sample. */
  function Outputs(cfg: Config, b: Button, samples: seq<bool>, n: nat): (e: seq<seq<Event>>)
    requires n <= |samples|
    ensures |e| == n
  {
    if n == 0 then [] else Outputs(cfg, b, samples, n - 1) + [EventsAt(cfg, b, samples, n - 1)]
  }

  /** The latest press or release so far came with sample j. */
  ghost predicate LatestEdgeAt(outputs: seq<seq<Event>>, j: nat) {
    && j < |outputs| && HasEdge(outputs[j])
    && forall i :: j < i < |outputs| ==> !HasEdge(outputs[i])
  }

  /** The tick counter counts the samples since the latest edge, and no deadline has gone by unnoticed. */
  predicate Timed(b: Button, age: nat) {
    && b.ticks == age % WORD
    && (b.phase == 1 ==> age == 0 || age < b.longPressTicks)
    && (b.phase == 2 ==> age <= b.shortPressTicks)
  }

  /** The limits are machine words, the short one not the largest. */
  predicate Limits(b: Button) {
    b.longPressTicks < WORD && b.shortPressTicks < WORD - 1
  }

  predicate OnTime(b: Button, b': Button, es: seq<Event>, age: nat) {
    && b'.longPressTicks == b.longPressTicks && b'.shortPressTicks == b.shortPressTicks
    && (b'.phase != 0 ==> Timed(b', if HasEdge(es) then 0 else age + 1))
    && (b'.phase == 1 ==> !HasEdge(es) && b.phase == 1)
    && (b'.phase == 2 ==> PressUp in es || (!HasEdge(es) && b.phase == 2))
    && (LongPressStart in es ==> b.phase == 1 && age + 1 == if b.longPressTicks == 0 then 1 else b.longPressTicks)
    && (RepeatDone in es ==> b.phase == 2 && age == b.shortPressTicks)
  }

  lemma PressOnTime(cfg: Config, b: Button, active: bool, age: nat)
    requires Limits(b) && b.phase == 1 && Timed(b, age)
    ensures OnTime(b, Step(cfg, b, active).0, Step(cfg, b, active).1, age)
  {
  }

  lemma PauseOnTime(cfg: Config, b: Button, active: bool, age: nat)
    requires Limits(b) && b.phase == 2 && Timed(b, age)
    ensures OnTime(b, Step(cfg, b, active).0, Step(cfg, b, active).1, age)
  {
  }

  lemma RepeatOnTime(cfg: Config, b: Button, active: bool, age: nat)
    requires Limits(b) && (b.phase == 3 || b.phase == 4) && Timed(b, age)
    ensures OnTime(b, Step(cfg, b, active).0, Step(cfg, b, active).1, age)
  {
    NextWord(age);
  }

  lemma IdleOnTime(cfg: Config, b: Button, active: bool)
    requires Limits(b) && b.phase == 0
    ensures var (b', es) := Step(cfg, b, active);
            && Limits(b') && (b'.phase != 0 ==> b'.phase == 1 && es == [PressDown] && Timed(b', 0))
            && LongPressStart !in es && RepeatDone !in es
  {
  }

  lemma StepOnTime(cfg: Config, b: Button, active: bool, age: nat)
    requires Limits(b) && 1 <= b.phase <= 4 && Timed(b, age)
    ensures OnTime(b, Step(cfg, b, active).0, Step(cfg, b, active).1, age)
  {
    if b.phase == 1 {
      PressOnTime(cfg, b, active, age);
    } else if b.phase == 2 {
      PauseOnTime(cfg, b, active, age);
    } else {
      RepeatOnTime(cfg, b, active, age);
    }
  }

  /** The counter is the age of the latest edge, which in phase 1 is a press and in phase 2 a release. */
  ghost predicate Aged(b: Button, outputs: seq<seq<Event>>, j: nat) {
    && LatestEdgeAt(outputs, j) && Timed(b, |outputs| - 1 - j)
    && (b.phase == 1 ==> PressDown in outputs[j])
    && (b.phase == 2 ==> PressUp in outputs[j])
  }

  lemma AgedNext(b: Button, outputs: seq<seq<Event>>, j: nat, b': Button, es: seq<Event>)
    requires b.phase != 0 && b'.phase != 0 && Aged(b, outputs, j) && OnTime(b, b', es, |outputs| - 1 - j)
    ensures Aged(b', outputs + [es], if HasEdge(es) then |outputs| else j)
  {
  }

  lemma AgedFirst(outputs: seq<seq<Event>>, b': Button, es: seq<Event>)
    requires b'.phase == 1 && es == [PressDown] && Timed(b', 0)
    ensures Aged(b', outputs + [es], |outputs|)
  {
    assert (outputs + [es])[|outputs|] == es;
  }

  lemma {:induction false} LimitsStay(cfg: Config, b: Button, samples: seq<bool>, n: nat)
    requires n <= |samples|
    ensures var a := After(cfg, b, samples, n);
            a.longPressTicks == b.longPressTicks && a.shortPressTicks == b.shortPressTicks
  {
    if n > 0 {
      LimitsStay(cfg, b, samples, n - 1);
    }
  }

  lemma {:induction false} EveryRunIsOnTime(cfg: Config, b: Button, samples: seq<bool>, n: nat) returns (j: nat)
    requires n <= |samples| && b.phase == 0 && !b.pressed && b.debounceCount == 0 && Limits(b)
    ensures After(cfg, b, samples, n).phase != 0 ==> Aged(After(cfg, b, samples, n), Outputs(cfg, b, samples, n), j)
  {
    hide Step, Aged;
    j := 0;
    if n > 0 {
      var before := EveryRunIsOnTime(cfg, b, samples, n - 1);
      LimitsStay(cfg, b, samples, n - 1);
      CountsSamples(cfg, b, samples, n - 1);
      j := EdgeNext(cfg, After(cfg, b, samples, n - 1), samples[n - 1], Outputs(cfg, b, samples, n - 1), before);
    }
  }

  lemma EdgeNext(cfg: Config, b: Button, active: bool, outputs: seq<seq<Event>>, before: nat) returns (j: nat)
    requires Limits(b) && b.phase <= 4 && (b.phase != 0 ==> Aged(b, outputs, before))
    ensures var (b', es) := Step(cfg, b, active); b'.phase != 0 ==> Aged(b', outputs + [es], j)
  {
    var (b', es) := Step(cfg, b, active);
    if b.phase == 0 {
      IdleOnTime(cfg, b, active);
      j := |outputs|;
      if b'.phase != 0 {
        AgedFirst(outputs, b', es);
      }
    } else {
      StepOnTime(cfg, b, active, |outputs| - 1 - before);
      j := if HasEdge(es) then |outputs| else before;
      if b'.phase != 0 {
        AgedNext(b, outputs, before, b', es);
      }
    }
  }

  /** A long press starts exactly as many samples after its PRESS_DOWN as are configured. */
  lemma LongPressTiming(cfg: Config, longPressTicks: nat, shortPressTicks: nat, samples: seq<bool>, k: nat)
    returns (j: nat)
    requires k < |samples| && longPressTicks < WORD && shortPressTicks < WORD - 1
    requires LongPressStart in EventsAt(cfg, Created(longPressTicks, shortPressTicks), samples, k)
    ensures var outputs := Outputs(cfg, Created(longPressTicks, shortPressTicks), samples, k);
            LatestEdgeAt(outputs, j) && PressDown in outputs[j]
    ensures k - j == if longPressTicks == 0 then 1 else longPressTicks
  {
    var b := Created(longPressTicks, shortPressTicks);
    j := EveryRunIsOnTime(cfg, b, samples, k);
    LimitsStay(cfg, b, samples, k);
    CountsSamples(cfg, b, samples, k);
    DeadlineMet(cfg, After(cfg, b, samples, k), samples[k], Outputs(cfg, b, samples, k), j);
  }

  /** Clicks are reported exactly one sample after the short press time has passed since the PRESS_UP. */
  lemma ClickTiming(cfg: Config, longPressTicks: nat, shortPressTicks: nat, samples: seq<bool>, k: nat) returns (j: nat)
    requires k < |samples| && longPressTicks < WORD && shortPressTicks < WORD - 1
    requires RepeatDone in EventsAt(cfg, Created(longPressTicks, shortPressTicks), samples, k)
    ensures var outputs := Outputs(cfg, Created(longPressTicks, shortPressTicks), samples, k);
            LatestEdgeAt(outputs, j) && PressUp in outputs[j]
    ensures k - j == shortPressTicks + 1
  {
    var b := Created(longPressTicks, shortPressTicks);
    j := EveryRunIsOnTime(cfg, b, samples, k);
    LimitsStay(cfg, b, samples, k);
    CountsSamples(cfg, b, samples, k);
    DeadlineMet(cfg, After(cfg, b, samples, k), samples[k], Outputs(cfg, b, samples, k), j);
  }

  lemma DeadlineMet(cfg: Config, b: Button, active: bool, outputs: seq<seq<Event>>, j: nat)
    requires Limits(b) && b.phase <= 4 && (b.phase != 0 ==> Aged(b, outputs, j))
    ensures LongPressStart in Step(cfg, b, active).1 ==>
              && b.phase == 1 && Aged(b, outputs, j)
              && |outputs| - j == if b.longPressTicks == 0 then 1 else b.longPressTicks
    ensures RepeatDone in Step(cfg, b, active).1 ==>
              b.phase == 2 && Aged(b, outputs, j) && |outputs| - j == b.shortPressTicks + 1
  {
    if b.phase == 0 {
      IdleOnTime(cfg, b, active);
    } else {
      StepOnTime(cfg, b, active, |outputs| - 1 - j);
    }
  }

  // ---------------------------------------------------- each event, told by levels and earlier events

  /** Samples k - n to k - 1 all find the level. */
  ghost predicate AllAre(samples: seq<bool>, k: nat, n: nat, level: bool)
    requires k <= |samples|
  {
    n <= k && forall i :: k - n <= i < k ==> samples[i] == level
  }

  /** The counter counts the samples in a row that differ from the debounced level. */
  ghost predicate CountsRun(samples: seq<bool>, k: nat, b: Button)
    requires k <= |samples|
  {
    && b.debounceCount <= k && AllAre(samples, k, b.debounceCount, !b.pressed)
    && (b.debounceCount < k ==> samples[k - b.debounceCount - 1] == b.pressed)
  }

  lemma RunStep(cfg: Config, samples: seq<bool>, k: nat, b: Button)
    requires k < |samples| && CountsRun(samples, k, b)
    requires b.debounceCount == 0 || b.debounceCount < cfg.debounceTicks <= 7
    requires cfg.debounceTicks <= 7
    ensures var next := Step(cfg, b, samples[k]).0;
      && CountsRun(samples, k + 1, next) && (next.debounceCount == 0 || next.debounceCount < cfg.debounceTicks)
      && (next.pressed != b.pressed <==>
            AllAre(samples, k + 1, if cfg.debounceTicks == 0 then 1 else cfg.debounceTicks, !b.pressed))
  {
  }

  lemma {:induction false} RunIsCounted(cfg: Config, b: Button, samples: seq<bool>, n: nat)
    requires n <= |samples| && b.debounceCount == 0 && cfg.debounceTicks <= 7
    ensures var a := After(cfg, b, samples, n);
            CountsRun(samples, n, a) && (a.debounceCount == 0 || a.debounceCount < cfg.debounceTicks)
  {
    hide Step;
    if n > 0 {
      RunIsCounted(cfg, b, samples, n - 1);
      RunStep(cfg, samples, n - 1, After(cfg, b, samples, n - 1));
    }
  }

  /**
   The debounced level changes with a sample exactly when that is the last of as many in a row as configured that
   differ from it, and never when the count does not fit its three bits.
   */
  lemma LevelChangesIff(cfg: Config, longPressTicks: nat, shortPressTicks: nat, samples: seq<bool>, k: nat)
    requires k < |samples|
    ensures var b := Created(longPressTicks, shortPressTicks);
            var was, next := After(cfg, b, samples, k).pressed, After(cfg, b, samples, k + 1).pressed;
            next != was <==>
              && cfg.debounceTicks <= 7
              && AllAre(samples, k + 1, if cfg.debounceTicks == 0 then 1 else cfg.debounceTicks, !was)
  {
    var b := Created(longPressTicks, shortPressTicks);
    if cfg.debounceTicks <= 7 {
      RunIsCounted(cfg, b, samples, k);
      RunStep(cfg, samples, k, After(cfg, b, samples, k));
    }
  }

  /** What has been in the session underway: whether there is one, its presses and holds, and whether it is long. */
  datatype Past = Past(open: bool, presses: nat, holds: nat, long: bool)

  ghost function PastOf(s: seq<Event>): Past {
    Past(s != [], Occurrences(s, PressDown), Occurrences(s, LongPressHold), exists i :: 0 <= i < |s| && IsLong(s[i]))
  }

  /**
   With such a session underway whose latest edge was age samples ago, and the level going from was to now, these
   are the events that come: each if and only if its cause is there.
   */
  ghost predicate Caused(es: seq<Event>, past: Past, age: nat, was: bool, now: bool, cfg: Config,
                         longTicks: nat, shortTicks: nat) {
    var clicked := past.open && !was && !now && age == shortTicks + 1;
    var late := past.presses >= 2 && age % WORD >= shortTicks;
    && (PressDown in es <==> !was && now)
    && (PressUp in es <==> was && !now)
    && (PressRepeat in es <==> !was && now && past.open)
    && (LongPressStart in es <==>
          && was && now && past.presses == 1 && !past.long
          && age == if longTicks == 0 then 1 else longTicks)
    && (LongPressHold in es <==>
          && was && now && past.long
          && age % WORD >= ((past.holds % WORD + 1) * cfg.serialTicks + longTicks) % WORD)
    && (LongPressUp in es <==> was && !now && past.long)
    && (RepeatDone in es <==> clicked)
    && (SingleClick in es <==> clicked && past.presses % 0x100 == 1)
    && (DoubleClick in es <==> clicked && past.presses % 0x100 == 2)
    && (forall n: nat :: MultipleClick(n) in es <==> clicked && n == past.presses % 0x100)
    && (PressEnd in es <==> clicked || (was && !now && (past.long || late)))
    && InSourceOrder(es)
  }

  /** The place of an event among those that come with one sample. */
  function Place(e: Event): nat {
    match e
    case PressDown => 0
    case LongPressUp => 0
    case PressRepeat => 1
    case PressUp => 1
    case SingleClick => 1
    case DoubleClick => 1
    case MultipleClick(_) => 2
    case RepeatDone => 3
    case PressEnd => 4
    case _ => 0
  }

  /** Each at most once, a click before its count, PRESS_REPEAT_DONE after it, and PRESS_END last. */
  ghost predicate InSourceOrder(es: seq<Event>) {
    forall i, k :: 0 <= i < k < |es| ==> Place(es[i]) < Place(es[k])
  }

  ghost predicate Recalls(b: Button, past: Past) {
    exists f :: Stands(b, f) && past == Past(b.phase != 0, f.downs, f.holds, f.long)
  }

  lemma IdleCauses(cfg: Config, b: Button, past: Past, now: bool, age: nat)
    requires Limits(b) && Recalls(b, past) && b.phase == 0
    ensures Caused(React(cfg, b.(pressed := now)).1, past, age, false, now, cfg, b.longPressTicks, b.shortPressTicks)
  {
  }

  lemma ClicksHave(repeat: nat)
    ensures var es := ClickEvents(repeat);
            && PressEnd in es && RepeatDone in es && InSourceOrder(es)
            && (SingleClick in es <==> repeat == 1) && (DoubleClick in es <==> repeat == 2)
            && (forall n: nat :: MultipleClick(n) in es <==> n == repeat)
            && forall e :: e in es ==> e == PressEnd || IsClick(e)
  {
    var es := ClickEvents(repeat);
    var n := |es|;
    assert es[n - 1] == PressEnd && es[n - 2] == RepeatDone && es[n - 3] == MultipleClick(repeat);
  }

  lemma ClickCauses(cfg: Config, b: Button, past: Past, age: nat)
    requires Recalls(b, past) && b.phase == 2 && age == b.shortPressTicks + 1
    ensures Caused(ClickEvents(b.repeat), past, age, false, false, cfg, b.longPressTicks, b.shortPressTicks)
  {
    ClicksHave(b.repeat);
    hide InSourceOrder, ClickEvents;
  }

  lemma PauseCauses(cfg: Config, b: Button, past: Past, now: bool, age: nat)
    requires Limits(b) && Recalls(b, past) && b.phase == 2
    requires b.ticks == age % WORD && age <= b.shortPressTicks + 1
    ensures Caused(React(cfg, b.(pressed := now)).1, past, age, false, now, cfg, b.longPressTicks, b.shortPressTicks)
  {
    hide ClickEvents;
    if !now && age == b.shortPressTicks + 1 {
      ClickCauses(cfg, b, past, age);
      hide Caused;
    }
  }

  lemma PressCauses(cfg: Config, b: Button, past: Past, now: bool, age: nat)
    requires Limits(b) && Recalls(b, past) && b.phase == 1
    requires b.ticks == age % WORD && 0 < age && (age == 1 || age <= b.longPressTicks)
    ensures Caused(React(cfg, b.(pressed := now)).1, past, age, true, now, cfg, b.longPressTicks, b.shortPressTicks)
  {
  }

  lemma RepeatCauses(cfg: Config, b: Button, past: Past, now: bool, age: nat)
    requires Limits(b) && Recalls(b, past) && b.phase == 3 && b.ticks == age % WORD
    ensures Caused(React(cfg, b.(pressed := now)).1, past, age, true, now, cfg, b.longPressTicks, b.shortPressTicks)
  {
  }

  lemma HoldCauses(cfg: Config, b: Button, past: Past, now: bool, age: nat)
    requires Limits(b) && Recalls(b, past) && b.phase == 4 && b.ticks == age % WORD
    ensures Caused(React(cfg, b.(pressed := now)).1, past, age, true, now, cfg, b.longPressTicks, b.shortPressTicks)
  {
  }

  /** A step is the state machine on the button one tick later, with the level that the debouncing leaves. */
  lemma StepReacts(cfg: Config, b: Button, active: bool) returns (same: Button)
    ensures var (next, es) := Step(cfg, b, active);
            && es == React(cfg, same.(pressed := next.pressed)).1
            && same == b.(ticks := same.ticks, debounceCount := same.debounceCount)
            && same.ticks == if b.phase > 0 then (b.ticks + 1) % WORD else b.ticks
  {
    var ticked := if b.phase > 0 then b.(ticks := (b.ticks + 1) % WORD) else b;
    var d := Debounced(cfg, ticked, active);
    same := d.(pressed := b.pressed);
    assert same.(pressed := d.pressed) == d;
    assert React(cfg, d).0.pressed == d.pressed;
  }

  lemma StepCauses(cfg: Config, b: Button, past: Past, active: bool, age: nat)
    requires Limits(b) && Recalls(b, past) && b.phase <= 4 && (past.open <==> b.phase != 0)
    requires past.open ==> age > 0 && Timed(b, age - 1)
    requires b.pressed <==> b.phase == 1 || b.phase == 3 || b.phase == 4
    ensures var (next, es) := Step(cfg, b, active);
            Caused(es, past, age, b.pressed, next.pressed, cfg, b.longPressTicks, b.shortPressTicks)
  {
    var same := StepReacts(cfg, b, active);
    var now := Step(cfg, b, active).0.pressed;
    var f :| Stands(b, f) && past == Past(b.phase != 0, f.downs, f.holds, f.long);
    assert Stands(same, f);
    assert Recalls(same, past);
    if past.open {
      NextWord(age - 1);
    }
    hide Caused, React, Stands, Step, Recalls;
    if b.phase == 0 {
      IdleCauses(cfg, same, past, now, age);
    } else if b.phase == 2 {
      PauseCauses(cfg, same, past, now, age);
    } else if b.phase == 1 {
      PressCauses(cfg, same, past, now, age);
    } else if b.phase == 3 {
      RepeatCauses(cfg, same, past, now, age);
    } else {
      HoldCauses(cfg, same, past, now, age);
    }
  }

  lemma TracksRecalls(b: Button, s: seq<Event>)
    requires Tracks(b, s)
    ensures Recalls(b, PastOf(s))
  {
    FactsMean(s);
    CountsMean(s);
    assert Stands(b, FactsOf(s));
  }

  lemma PastRecalled(cfg: Config, longPressTicks: nat, shortPressTicks: nat, samples: seq<bool>, k: nat)
    requires k <= |samples|
    ensures var b := Created(longPressTicks, shortPressTicks);
            var a, past := After(cfg, b, samples, k), PastOf(Cut(Trace(cfg, b, samples, k)).current);
            && Recalls(a, past) && a.phase <= 4 && (past.open <==> a.phase != 0)
            && (a.pressed <==> a.phase == 1 || a.phase == 3 || a.phase == 4)
  {
    EverySessionIsWhole(cfg, longPressTicks, shortPressTicks, samples, k);
    var b := Created(longPressTicks, shortPressTicks);
    TracksRecalls(After(cfg, b, samples, k), Cut(Trace(cfg, b, samples, k)).current);
  }

  lemma AgedMeans(b: Button, outputs: seq<seq<Event>>, j: nat)
    requires Aged(b, outputs, j)
    ensures LatestEdgeAt(outputs, j) && Timed(b, |outputs| - 1 - j)
  {
  }

  /** The level after sample k, or before the first. */
  function Level(cfg: Config, b: Button, samples: seq<bool>, k: nat): bool
    requires k <= |samples|
  {
    After(cfg, b, samples, k).pressed
  }

  /**
   Over every stream of samples each event comes if and only if its cause is there: the levels before and after, the
   events of the session underway, and the number of samples since the latest press or release. A click is reported,
   with the number of presses, exactly when the button has been up for the short press time since the latest release
   of a session not closed yet; a long press starts exactly when the first press has lasted as long as configured; and
   a release closes a session exactly after a long press, or after a further press of at least the short press time.
   */
  lemma EventsIff(cfg: Config, longPressTicks: nat, shortPressTicks: nat, samples: seq<bool>, k: nat) returns (j: nat)
    requires k < |samples| && longPressTicks < WORD && shortPressTicks < WORD - 1
    ensures var b := Created(longPressTicks, shortPressTicks);
            var past := PastOf(Cut(Trace(cfg, b, samples, k)).current);
            && j <= k && (past.open ==> LatestEdgeAt(Outputs(cfg, b, samples, k), j))
            && Caused(EventsAt(cfg, b, samples, k), past, k - j,
                      Level(cfg, b, samples, k), Level(cfg, b, samples, k + 1),
                      cfg, longPressTicks, shortPressTicks)
  {
    hide Caused, Step, PastOf, Cut, Recalls, Aged, InOrder, Counts, Stands;
    var b := Created(longPressTicks, shortPressTicks);
    var a, past := After(cfg, b, samples, k), PastOf(Cut(Trace(cfg, b, samples, k)).current);
    PastRecalled(cfg, longPressTicks, shortPressTicks, samples, k);
    LimitsStay(cfg, b, samples, k);
    j := EveryRunIsOnTime(cfg, b, samples, k);
    if past.open {
      AgedMeans(a, Outputs(cfg, b, samples, k), j);
    } else {
      j := 0;
    }
    StepCauses(cfg, a, past, samples[k], k - j);
  }

  /** Sample j is a release that leaves its session open, and the button stays up until before sample k. */
  ghost predicate UpSince(cfg: Config, b: Button, samples: seq<bool>, j: nat, k: nat)
    requires k <= |samples|
  {
    && j < k && PressUp in EventsAt(cfg, b, samples, j) && PressEnd !in EventsAt(cfg, b, samples, j)
    && forall i :: j + 1 < i <= k ==> !Level(cfg, b, samples, i)
  }

  lemma OpenStays(t: seq<Event>, es: seq<Event>)
    requires PressEnd !in es && (es != [] || Cut(t).current != [])
    ensures Cut(t + es).current != []
  {
    CutMany(t, es);
  }

  lemma QuietCauses(es: seq<Event>, past: Past, age: nat, was: bool, now: bool, cfg: Config, longTicks: nat,
                    shortTicks: nat)
    requires Caused(es, past, age, was, now, cfg, longTicks, shortTicks)
    ensures PressUp in es ==> !now
    ensures !was && !now && age <= shortTicks ==> !HasEdge(es) && PressEnd !in es
    ensures !was && !now && age == shortTicks + 1 && past.open ==> MultipleClick(past.presses % 0x100) in es
  {
  }

  lemma EdgeStays(outputs: seq<seq<Event>>, es: seq<Event>, j: nat)
    requires if j == |outputs| then HasEdge(es) else LatestEdgeAt(outputs, j) && !HasEdge(es)
    ensures LatestEdgeAt(outputs + [es], j)
  {
  }

  lemma {:induction false} StaysOpen(cfg: Config, longPressTicks: nat, shortPressTicks: nat, samples: seq<bool>, j: nat,
                                     k: nat)
    requires k <= |samples| && longPressTicks < WORD && shortPressTicks < WORD - 1 && k - j <= shortPressTicks + 1
    requires UpSince(cfg, Created(longPressTicks, shortPressTicks), samples, j, k)
    ensures var b := Created(longPressTicks, shortPressTicks);
            && Cut(Trace(cfg, b, samples, k)).current != [] && !Level(cfg, b, samples, k)
            && LatestEdgeAt(Outputs(cfg, b, samples, k), j)
    decreases k
  {
    hide Step, Cut, Caused, LatestEdgeAt, Level, Created;
    var b := Created(longPressTicks, shortPressTicks);
    var t, es := Trace(cfg, b, samples, k - 1), EventsAt(cfg, b, samples, k - 1);
    var outputs := Outputs(cfg, b, samples, k - 1);
    var latest := EventsIff(cfg, longPressTicks, shortPressTicks, samples, k - 1);
    QuietCauses(es, PastOf(Cut(t).current), k - 1 - latest, Level(cfg, b, samples, k - 1), Level(cfg, b, samples, k),
                cfg, longPressTicks, shortPressTicks);
    if k > j + 1 {
      StaysOpen(cfg, longPressTicks, shortPressTicks, samples, j, k - 1);
      OneLatest(outputs, latest, j);
    }
    OpenStays(t, es);
    EdgeStays(outputs, es, j);
  }

  lemma OneLatest(outputs: seq<seq<Event>>, i: nat, j: nat)
    requires LatestEdgeAt(outputs, i) && LatestEdgeAt(outputs, j)
    ensures i == j
  {
  }

  /** Every click is answered: a button that stays up for the short press time after such a release has it counted. */
  lemma QuietIsClick(cfg: Config, longPressTicks: nat, shortPressTicks: nat, samples: seq<bool>, j: nat)
    requires longPressTicks < WORD && shortPressTicks < WORD - 1 && j + shortPressTicks + 2 <= |samples|
    requires UpSince(cfg, Created(longPressTicks, shortPressTicks), samples, j, j + shortPressTicks + 2)
    ensures var (b, k) := (Created(longPressTicks, shortPressTicks), j + shortPressTicks + 1);
            var presses := Occurrences(Cut(Trace(cfg, b, samples, k)).current, PressDown);
            MultipleClick(presses % 0x100) in EventsAt(cfg, b, samples, k)
  {
    hide Step, Cut, Caused, LatestEdgeAt, Level, Created, EventsAt;
    var b, k := Created(longPressTicks, shortPressTicks), j + shortPressTicks + 1;
    StaysOpen(cfg, longPressTicks, shortPressTicks, samples, j, k);
    var latest := EventsIff(cfg, longPressTicks, shortPressTicks, samples, k);
    OneLatest(Outputs(cfg, b, samples, k), latest, j);
    QuietCauses(EventsAt(cfg, b, samples, k), PastOf(Cut(Trace(cfg, b, samples, k)).current), k - j,
                Level(cfg, b, samples, k), Level(cfg, b, samples, k + 1), cfg, longPressTicks, shortPressTicks);
  }

  // -------------------------------------------------------------------------- the object

  /** The button object: the handler samples the level once and changes the fields in place. */
  class ButtonDevice {
    const debounceTicks: nat
    const serialTicks: nat
    const longPressTicks: nat
    const shortPressTicks: nat
    var ticks: nat
    var longPressHoldCount: nat
    var repeat: nat
    var state: nat
    var debounceCount: nat
    var pressed: bool
    var fired: seq<Event>

    ghost function View(): Button
      reads this
    {
      Button(ticks, longPressTicks, shortPressTicks, longPressHoldCount, repeat, state, debounceCount, pressed)
    }

    ghost function Settings(): Config {
      Config(debounceTicks, serialTicks)
    }

    constructor (debounceTicks: nat, serialTicks: nat, longPressTicks: nat, shortPressTicks: nat)
      ensures View() == Created(longPressTicks, shortPressTicks) && Settings() == Config(debounceTicks, serialTicks)
      ensures fired == []
    {
      this.debounceTicks, this.serialTicks := debounceTicks, serialTicks;
      this.longPressTicks, this.shortPressTicks := longPressTicks, shortPressTicks;
      ticks, longPressHoldCount, repeat, state, debounceCount, pressed := 0, 0, 0, 0, 0, false;
      fired := [];
    }

    method Fire(e: Event)
      modifies this`fired
      ensures fired == old(fired) + [e]
    {
      fired := fired + [e];
    }

    method Debounce(active: bool)
      modifies this`pressed, this`debounceCount
      ensures View() == Debounced(Settings(), old(View()), active)
    {
      if active != pressed {
        debounceCount := (debounceCount + 1) % 8;
        if debounceCount >= debounceTicks {
          pressed := active;
          debounceCount := 0;
        }
      } else {
        debounceCount := 0;
      }
    }

    method Handle(active: bool)
      requires state <= 4
      modifies this
      ensures View() == Step(Settings(), old(View()), active).0
      ensures fired == old(fired) + Step(Settings(), old(View()), active).1
    {
      if state > 0 {
        ticks := (ticks + 1) % WORD;
      }
      Debounce(active);
      match state {
        case 0 =>
          if pressed {
            Fire(PressDown);
            ticks, repeat, state := 0, 1, 1;
          }
        case 1 =>
          if !pressed {
            Fire(PressUp);
            ticks, state := 0, 2;
          } else if ticks >= longPressTicks {
            state := 4;
            Fire(LongPressStart);
          }
        case 2 =>
          if pressed {
            Fire(PressDown);
            repeat := (repeat + 1) % 0x100;
            Fire(PressRepeat);
            ticks, state := 0, 3;
          } else if ticks > shortPressTicks {
            ReportClicks();
          }
        case 3 =>
          if !pressed {
            Fire(PressUp);
            if ticks < shortPressTicks {
              ticks, state := 0, 2;
            } else {
              state := 0;
              Fire(PressEnd);
            }
          }
        case 4 =>
          HoldOrRelease();
        case _ =>
      }
    }

    method HoldOrRelease()
      requires state == 4
      modifies this`fired, this`state, this`longPressHoldCount
      ensures View() == React(Settings(), old(View())).0
      ensures fired == old(fired) + React(Settings(), old(View())).1
    {
      if pressed {
        if ticks >= ((longPressHoldCount + 1) * serialTicks + longPressTicks) % WORD {
          longPressHoldCount := (longPressHoldCount + 1) % WORD;
          Fire(LongPressHold);
        }
      } else {
        Fire(LongPressUp);
        Fire(PressUp);
        state, longPressHoldCount := 0, 0;
        Fire(PressEnd);
      }
    }

    method ReportClicks()
      modifies this`fired, this`repeat, this`state
      ensures fired == old(fired) + ClickEvents(old(repeat)) && repeat == 0 && state == 0
    {
      if repeat == 1 {
        Fire(SingleClick);
      } else if repeat == 2 {
        Fire(DoubleClick);
      }
      Fire(MultipleClick(repeat));
      Fire(RepeatDone);
      repeat, state := 0, 0;
      Fire(PressEnd);
    }
  }
}
