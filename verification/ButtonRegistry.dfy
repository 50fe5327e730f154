/**
 The table of callbacks of a button that hang on a key: the press time for long presses, the number of clicks
 for multiple clicks. The driver keeps it sorted by inserting in place.
 */
module ButtonRegistry {
  import opened Common

  const WORD := 0x1_0000_0000

  /** A table entry: its key, the callback and the callback's own data. */
  datatype Entry = Entry(key: nat, callback: nat, userData: nat)

  // ------------------------------------------------------------------------- specification

  /** The entry goes behind every entry whose key is no larger. */
  function InsertSorted(s: seq<Entry>, e: Entry): (r: seq<Entry>)
    ensures |r| == |s| + 1
  {
    if s == [] || s[|s| - 1].key <= e.key then s + [e]
    else InsertSorted(s[..|s| - 1], e) + [s[|s| - 1]]
  }

  ghost predicate Sorted(s: seq<Entry>) {
    forall i, j :: 0 <= i < j < |s| ==> s[i].key <= s[j].key
  }

  /** The entries with a key, in table order. */
  function Matching(s: seq<Entry>, key: nat): (r: seq<Entry>)
    ensures forall k :: 0 <= k < |r| ==> r[k].key == key
  {
    if s == [] then []
    else Matching(s[..|s| - 1], key) + if s[|s| - 1].key == key then [s[|s| - 1]] else []
  }

  lemma MatchingNext(s: seq<Entry>, e: Entry, key: nat)
    ensures Matching(s + [e], key) == Matching(s, key) + if e.key == key then [e] else []
  {
  }

  lemma {:induction false} InsertBound(s: seq<Entry>, e: Entry, bound: nat)
    requires e.key <= bound && forall i :: 0 <= i < |s| ==> s[i].key <= bound
    ensures forall i :: 0 <= i <= |s| ==> InsertSorted(s, e)[i].key <= bound
  {
    if s != [] && s[|s| - 1].key > e.key {
      InsertBound(s[..|s| - 1], e, bound);
    }
  }

  /** Where the entry goes: in front of the larger keys at the end. */
  lemma {:induction false} InsertPoint(s: seq<Entry>, e: Entry, at: nat)
    requires at <= |s| && (at > 0 ==> s[at - 1].key <= e.key)
    requires forall k :: at <= k < |s| ==> s[k].key > e.key
    ensures InsertSorted(s, e) == s[..at] + [e] + s[at..]
  {
    if at == |s| {
      assert s[..at] == s && s[at..] == [];
    } else {
      var before, last := s[..|s| - 1], s[|s| - 1];
      assert before[..at] == s[..at] && s[at..] == before[at..] + [last];
      InsertPoint(before, e, at);
    }
  }

  lemma InsertedAt(t: seq<Entry>, s: seq<Entry>, e: Entry, at: nat)
    requires at <= |s| && (at > 0 ==> s[at - 1].key <= e.key)
    requires forall k :: at <= k < |s| ==> s[k].key > e.key
    requires |t| == |s| + 1 && t[at] == e
    requires forall k :: 0 <= k < at ==> t[k] == s[k]
    requires forall k :: at < k < |t| ==> t[k] == s[k - 1]
    ensures t == InsertSorted(s, e)
  {
    assert t == s[..at] + [e] + s[at..];
    InsertPoint(s, e, at);
  }

  /** Inserting keeps the table sorted. */
  lemma {:induction false} InsertKeepsSorted(s: seq<Entry>, e: Entry)
    requires Sorted(s)
    ensures Sorted(InsertSorted(s, e))
  {
    if s != [] && s[|s| - 1].key > e.key {
      InsertKeepsSorted(s[..|s| - 1], e);
      InsertBound(s[..|s| - 1], e, s[|s| - 1].key);
    }
  }

  /** And puts the entry behind those of its own key, leaving the entries of every key in their order. */
  lemma {:induction false} InsertIsStable(s: seq<Entry>, e: Entry, key: nat)
    ensures Matching(InsertSorted(s, e), key) == Matching(s + [e], key)
  {
    MatchingNext(s, e, key);
    if s != [] && s[|s| - 1].key > e.key {
      var before, last := s[..|s| - 1], s[|s| - 1];
      assert s == before + [last];
      MatchingNext(before, last, key);
      MatchingNext(before, e, key);
      InsertIsStable(before, e, key);
      MatchingNext(InsertSorted(before, e), last, key);
    }
  }

  // ----------------------------------------------------------------------- runs of requests

  /** The table after registering the entries one after the other. */
  function Registered(requests: seq<Entry>): seq<Entry> {
    if requests == [] then [] else InsertSorted(Registered(requests[..|requests| - 1]), requests[|requests| - 1])
  }

  lemma RegisteredNext(requests: seq<Entry>, e: Entry)
    ensures Registered(requests + [e]) == InsertSorted(Registered(requests), e)
  {
  }

  /** The table is a stable sort of the requests: sorted, and for every key its requests in their order. */
  lemma {:induction false} RegisteredIsStableSort(requests: seq<Entry>)
    ensures Sorted(Registered(requests)) && |Registered(requests)| == |requests|
    ensures forall key :: Matching(Registered(requests), key) == Matching(requests, key)
  {
    if requests != [] {
      var before, last := requests[..|requests| - 1], requests[|requests| - 1];
      assert requests == before + [last];
      RegisteredIsStableSort(before);
      InsertKeepsSorted(Registered(before), last);
      forall key
        ensures Matching(Registered(requests), key) == Matching(requests, key)
      {
        InsertIsStable(Registered(before), last, key);
        MatchingNext(Registered(before), last, key);
        MatchingNext(before, last, key);
      }
    }
  }

  lemma {:induction false} MatchingHolds(s: seq<Entry>, i: nat)
    requires i < |s|
    ensures s[i] in Matching(s, s[i].key)
  {
    if i < |s| - 1 {
      MatchingHolds(s[..|s| - 1], i);
    }
  }

  lemma {:induction false} MatchingComesFrom(s: seq<Entry>, key: nat)
    ensures forall e :: e in Matching(s, key) ==> e in s
  {
    if s != [] {
      MatchingComesFrom(s[..|s| - 1], key);
    }
  }

  lemma LastIsLargest(s: seq<Entry>, t: seq<Entry>)
    requires Sorted(t) && s != []
    requires Matching(s, s[|s| - 1].key) == Matching(t, s[|s| - 1].key)
    ensures t != [] && s[|s| - 1].key <= t[|t| - 1].key
  {
    MatchingHolds(s, |s| - 1);
    MatchingComesFrom(t, s[|s| - 1].key);
  }

  /** A sorted table is settled by the entries of each key. */
  lemma {:induction false} SortedIsUnique(s: seq<Entry>, t: seq<Entry>)
    requires Sorted(s) && Sorted(t)
    requires forall key :: Matching(s, key) == Matching(t, key)
    ensures s == t
  {
    if s == [] {
      if t != [] {
        LastIsLargest(t, s);
      }
    } else {
      LastIsLargest(s, t);
      LastIsLargest(t, s);
      var s0, t0, e, e' := s[..|s| - 1], t[..|t| - 1], s[|s| - 1], t[|t| - 1];
      assert s == s0 + [e] && t == t0 + [e'];
      MatchingNext(s0, e, e.key);
      MatchingNext(t0, e', e.key);
      assert Matching(s, e.key)[|Matching(s, e.key)| - 1] == e;
      assert Matching(t, e.key)[|Matching(t, e.key)| - 1] == e';
      forall key
        ensures Matching(s0, key) == Matching(t0, key)
      {
        MatchingNext(s0, e, key);
        MatchingNext(t0, e, key);
        assert Matching(s0, key) == Matching(s, key)[..|Matching(s0, key)|];
        assert Matching(t0, key) == Matching(t, key)[..|Matching(t0, key)|];
      }
      SortedIsUnique(s0, t0);
    }
  }

  /** So the order in which requests with different keys arrive does not show in the table. */
  lemma OrderDoesNotShow(requests: seq<Entry>, others: seq<Entry>)
    requires forall key :: Matching(requests, key) == Matching(others, key)
    ensures Registered(requests) == Registered(others)
  {
    RegisteredIsStableSort(requests);
    RegisteredIsStableSort(others);
    SortedIsUnique(Registered(requests), Registered(others));
  }

  // ------------------------------------------------------------------- which requests are taken

  predicate Taken(pressTime: nat, shortPressTicks: nat, interval: nat)
    requires interval > 0
  {
    pressTime / interval > shortPressTicks
  }

  /** Refused only by the second check, after the table has grown. */
  predicate InGap(pressTime: nat, shortPressTicks: nat, interval: nat)
    requires interval > 0
  {
    pressTime > shortPressTicks * interval && !Taken(pressTime, shortPressTicks, interval)
  }

  /** The gap is the tick after the short press time, without its first and past its last millisecond. */
  lemma GapIs(pressTime: nat, shortPressTicks: nat, interval: nat)
    requires interval > 0
    ensures Taken(pressTime, shortPressTicks, interval) <==> pressTime >= (shortPressTicks + 1) * interval
    ensures InGap(pressTime, shortPressTicks, interval)
            <==> shortPressTicks * interval < pressTime < (shortPressTicks + 1) * interval
  {
    var q := pressTime / interval;
    assert q * interval <= pressTime < (q + 1) * interval by {
      DivisionBounds(pressTime, interval);
    }
    if q > shortPressTicks {
      MulOrder(shortPressTicks + 1, q, interval);
    } else {
      MulOrder(q + 1, shortPressTicks + 1, interval);
    }
    assert shortPressTicks * interval < (shortPressTicks + 1) * interval;
  }

  datatype Table = Table(entries: seq<Entry>, longPressTicks: nat)

  /** A long-press request as the driver treats it; leftover is the key that the grown memory happens to hold. */
  function Requested(t: Table, e: Entry, leftover: nat, shortPressTicks: nat, interval: nat): Table
    requires interval > 0
  {
    if Taken(e.key, shortPressTicks, interval) then
      var ticks := TicksOf(e, interval);
      Table(InsertSorted(t.entries, e), if ticks < t.longPressTicks then ticks else t.longPressTicks)
    else if InGap(e.key, shortPressTicks, interval) then
      Table(t.entries + [e.(key := if t.entries == [] then 0 else leftover)], t.longPressTicks)
    else t
  }

  /** A refused request leaves the table alone if and only if it is at most the short press time. */
  lemma RefusalSparesIff(t: Table, e: Entry, leftover: nat, shortPressTicks: nat, interval: nat)
    requires interval > 0 && !Taken(e.key, shortPressTicks, interval)
    ensures Requested(t, e, leftover, shortPressTicks, interval) == t <==> e.key <= shortPressTicks * interval
  {
  }

  /** With a 5 ms tick and a short press of 36 ticks, a long press of 183 ms is refused and yet leaves an entry. */
  lemma RefusedButKept()
    ensures Requested(Table([], 300), Entry(183, 1, 2), 0, 36, 5) == Table([Entry(0, 1, 2)], 300)
  {
  }

  /** A run of long-press requests, each with what its grown memory held. */
  function AllRequested(t: Table, run: seq<(Entry, nat)>, shortPressTicks: nat, interval: nat): Table
    requires interval > 0
  {
    if run == [] then t
    else
      var last := run[|run| - 1];
      Requested(AllRequested(t, run[..|run| - 1], shortPressTicks, interval), last.0, last.1, shortPressTicks, interval)
  }

  function TakenOf(run: seq<(Entry, nat)>, shortPressTicks: nat, interval: nat): seq<Entry>
    requires interval > 0
  {
    if run == [] then []
    else
      var last := run[|run| - 1];
      TakenOf(run[..|run| - 1], shortPressTicks, interval)
      + if Taken(last.0.key, shortPressTicks, interval) then [last.0] else []
  }

  ghost predicate NoneInGap(run: seq<(Entry, nat)>, shortPressTicks: nat, interval: nat)
    requires interval > 0
  {
    forall k :: 0 <= k < |run| ==> !InGap(run[k].0.key, shortPressTicks, interval)
  }

  lemma {:induction false} RunIsExact(ticks: nat, run: seq<(Entry, nat)>, shortPressTicks: nat, interval: nat)
    requires interval > 0 && NoneInGap(run, shortPressTicks, interval)
    ensures var t := AllRequested(Table([], ticks), run, shortPressTicks, interval);
            t.entries == Registered(TakenOf(run, shortPressTicks, interval))
  {
    if run != [] {
      var before, last := run[..|run| - 1], run[|run| - 1];
      assert run == before + [last];
      RunIsExact(ticks, before, shortPressTicks, interval);
      var kept := TakenOf(before, shortPressTicks, interval);
      if Taken(last.0.key, shortPressTicks, interval) {
        RegisteredNext(kept, last.0);
        assert TakenOf(run, shortPressTicks, interval) == kept + [last.0];
      } else {
        assert TakenOf(run, shortPressTicks, interval) == kept;
        assert !InGap(run[|run| - 1].0.key, shortPressTicks, interval);
      }
    }
  }

  lemma {:induction false} RunGrows(ticks: nat, run: seq<(Entry, nat)>, shortPressTicks: nat, interval: nat)
    requires interval > 0
    ensures var t := AllRequested(Table([], ticks), run, shortPressTicks, interval);
            && |t.entries| >= |TakenOf(run, shortPressTicks, interval)|
            && (!NoneInGap(run, shortPressTicks, interval) ==> |t.entries| > |TakenOf(run, shortPressTicks, interval)|)
  {
    if run != [] {
      var before, last := run[..|run| - 1], run[|run| - 1];
      assert run == before + [last];
      RunGrows(ticks, before, shortPressTicks, interval);
      if !InGap(last.0.key, shortPressTicks, interval) && NoneInGap(before, shortPressTicks, interval) {
        assert NoneInGap(run, shortPressTicks, interval);
      }
    }
  }

  /** Over every run of requests the table is the stable sort of those taken if and only if none fell in the gap. */
  lemma TableIsTakenIff(ticks: nat, run: seq<(Entry, nat)>, shortPressTicks: nat, interval: nat)
    requires interval > 0
    ensures AllRequested(Table([], ticks), run, shortPressTicks, interval).entries
              == Registered(TakenOf(run, shortPressTicks, interval))
            <==> NoneInGap(run, shortPressTicks, interval)
  {
    if NoneInGap(run, shortPressTicks, interval) {
      RunIsExact(ticks, run, shortPressTicks, interval);
    } else {
      RunGrows(ticks, run, shortPressTicks, interval);
      RegisteredIsStableSort(TakenOf(run, shortPressTicks, interval));
    }
  }

  function TicksOf(e: Entry, interval: nat): nat
    requires interval > 0
  {
    e.key / interval
  }

  /** Ticks are the least of the starting value and the ticks of the entries. */
  ghost predicate Least(ticks: nat, start: nat, taken: seq<Entry>, interval: nat)
    requires interval > 0
  {
    && ticks <= start
    && (forall k :: 0 <= k < |taken| ==> ticks <= TicksOf(taken[k], interval))
    && (ticks == start || exists k :: 0 <= k < |taken| && ticks == TicksOf(taken[k], interval))
  }

  lemma LeastNext(ticks: nat, start: nat, taken: seq<Entry>, e: Entry, interval: nat)
    requires interval > 0 && Least(ticks, start, taken, interval)
    ensures Least(if TicksOf(e, interval) < ticks then TicksOf(e, interval) else ticks, start, taken + [e], interval)
  {
    var all := taken + [e];
    assert all[|taken|] == e;
    if ticks != start {
      var k :| 0 <= k < |taken| && ticks == TicksOf(taken[k], interval);
      assert all[k] == taken[k];
    }
  }

  /** The long press starts at the earliest press time taken, or at the configured one if that is earlier. */
  lemma {:induction false} LongPressIsEarliest(ticks: nat, run: seq<(Entry, nat)>, shortPressTicks: nat, interval: nat)
    requires interval > 0
    ensures Least(AllRequested(Table([], ticks), run, shortPressTicks, interval).longPressTicks, ticks,
                  TakenOf(run, shortPressTicks, interval), interval)
  {
    if run != [] {
      var before, last := run[..|run| - 1], run[|run| - 1];
      LongPressIsEarliest(ticks, before, shortPressTicks, interval);
      var t0 := AllRequested(Table([], ticks), before, shortPressTicks, interval);
      LeastNext(t0.longPressTicks, ticks, TakenOf(before, shortPressTicks, interval), last.0, interval);
    }
  }

  // ----------------------------------------------------------------------------- the object

  class Callbacks {
    const interval: nat
    const shortPressTicks: nat
    var longPressTicks: nat
    var table: array<Entry>

    /** The short press time in milliseconds was a machine word before it was divided into ticks. */
    ghost predicate Valid()
      reads this
    {
      interval > 0 && shortPressTicks * interval < WORD
    }

    ghost function View(): Table
      reads this, table
    {
      Table(table[..], longPressTicks)
    }

    constructor (interval: nat, shortPressTicks: nat, longPressTicks: nat)
      requires interval > 0 && shortPressTicks * interval < WORD
      ensures Valid() && View() == Table([], longPressTicks) && fresh(table)
      ensures this.interval == interval && this.shortPressTicks == shortPressTicks
    {
      this.interval, this.shortPressTicks, this.longPressTicks := interval, shortPressTicks, longPressTicks;
      table := new Entry[0];
    }

    /** Room for one more entry; its key is whatever the memory held, zero where there was no table yet. */
    method Grow(callback: nat, userData: nat, leftover: nat)
      modifies this`table
      ensures fresh(table)
      ensures table[..] == old(table[..]) + [Entry(if old(table.Length) == 0 then 0 else leftover, callback, userData)]
    {
      var size := table.Length;
      var grown := new Entry[size + 1];
      for i := 0 to size
        invariant table == old(table) && table[..] == old(table[..])
        invariant forall k :: 0 <= k < i ==> grown[k] == table[k]
      {
        grown[i] := table[i];
      }
      grown[size] := Entry(if size == 0 then 0 else leftover, callback, userData);
      table := grown;
    }

    /** The entry moves down from the end, one shift at a time, to behind the last key that is no larger. */
    method InsertInPlace(e: Entry)
      requires table.Length > 0
      modifies table
      ensures table[..] == InsertSorted(old(table[..table.Length - 1]), e)
    {
      var size := table.Length;
      ghost var before := table[..size - 1];
      if size >= 2 {
        var i := size - 2;
        while i >= 0
          invariant -1 <= i <= size - 2
          invariant forall k :: 0 <= k <= i ==> table[k] == before[k]
          invariant forall k :: i + 1 < k < size ==> table[k] == before[k - 1]
          invariant i < size - 2 ==> table[i + 1] == e
          invariant forall k :: i < k < size - 1 ==> before[k].key > e.key
          decreases i
        {
          if table[i].key > e.key {
            table[i + 1] := table[i];
            table[i] := e;
          } else {
            table[i + 1] := e;
            break;
          }
          i := i - 1;
        }
        InsertedAt(table[..], before, e, i + 1);
      } else {
        table[size - 1] := e;
        assert before == [];
      }
    }

    method RegisterLongPress(pressTime: nat, callback: nat, userData: nat, leftover: nat) returns (ok: bool)
      requires Valid()
      modifies this, table
      ensures Valid()
      ensures View()
           == Requested(old(View()), Entry(pressTime, callback, userData), leftover, shortPressTicks, interval)
      ensures ok <==> Taken(pressTime, shortPressTicks, interval)
    {
      GapIs(pressTime, shortPressTicks, interval);
      if pressTime <= shortPressTicks * interval {
        return false;
      }
      Grow(callback, userData, leftover);
      if pressTime / interval <= shortPressTicks {
        return false;
      }
      assert table[..table.Length - 1] == old(table[..]);
      InsertInPlace(Entry(pressTime, callback, userData));
      var pressTicks := pressTime / interval;
      if shortPressTicks < pressTicks && pressTicks < longPressTicks {
        longPressTicks := pressTicks;
      }
      return true;
    }

    method RegisterMultipleClick(clicks: nat, callback: nat, userData: nat, leftover: nat) returns (ok: bool)
      modifies this`table, table
      ensures ok <==> clicks != 0
      ensures table[..]
           == if ok then InsertSorted(old(table[..]), Entry(clicks, callback, userData)) else old(table[..])
    {
      if clicks == 0 {
        return false;
      }
      Grow(callback, userData, leftover);
      assert table[..table.Length - 1] == old(table[..]);
      InsertInPlace(Entry(clicks, callback, userData));
      return true;
    }

    /** When a number of clicks is reported: the callbacks called, in order. */
    method Dispatch(repeat: nat) returns (called: seq<Entry>)
      ensures called == Matching(table[..], repeat)
    {
      called := [];
      var i := 0;
      while i < table.Length
        invariant 0 <= i <= table.Length + 1
        invariant called == Matching(table[..if i < table.Length then i else table.Length], repeat)
      {
        if table[i].key == repeat {
          MatchingStep(table[..], i, repeat);
          called := called + [table[i]];
          i := i + 1;
          while i < table.Length && table[i].key == repeat
            invariant 0 < i <= table.Length
            invariant called == Matching(table[..i], repeat)
          {
            MatchingStep(table[..], i, repeat);
            called := called + [table[i]];
            i := i + 1;
          }
        }
        if i < table.Length {
          MatchingStep(table[..], i, repeat);
        }
        i := i + 1;
      }
      assert table[..table.Length] == table[..];
    }
  }

  lemma MatchingStep(s: seq<Entry>, i: nat, key: nat)
    requires i < |s|
    ensures Matching(s[..i + 1], key) == Matching(s[..i], key) + if s[i].key == key then [s[i]] else []
  {
    assert s[..i + 1] == s[..i] + [s[i]];
    MatchingNext(s[..i], s[i], key);
  }
}
