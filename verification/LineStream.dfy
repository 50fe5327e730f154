/**
 Reassembly of the sensor board's byte stream into lines: the UART reader's carry buffer and the line parser.
 */
module LineStream {
  import opened Common

  const CAPACITY := 512

  // ------------------------------------------------------------------ strings and their lines

  /** The position of the first c, or the length. */
  function FirstAt(s: string, c: char): (n: nat)
    ensures n <= |s| && c !in s[..n] && (n < |s| ==> s[n] == c)
  {
    if s == [] || s[0] == c then 0
    else
      var n := FirstAt(s[1..], c);
      assert s[..n + 1] == [s[0]] + s[1..][..n];
      n + 1
  }

  lemma FirstIs(s: string, c: char, n: nat)
    requires n <= |s| && c !in s[..n] && (n < |s| ==> s[n] == c)
    ensures FirstAt(s, c) == n
  {
  }

  /** A C string in a buffer: what precedes the first NUL. */
  function Text(s: string): string {
    s[..FirstAt(s, '\0')]
  }

  /** The complete lines of a stream, without their newlines. */
  function LinesOf(s: string): seq<string>
    decreases |s|
  {
    var n := FirstAt(s, '\n');
    if n == |s| then [] else [s[..n]] + LinesOf(s[n + 1..])
  }

  /** The position behind the last newline. */
  function SplitPoint(s: string): (p: nat)
    ensures p <= |s|
    decreases |s|
  {
    var n := FirstAt(s, '\n');
    if n == |s| then 0 else n + 1 + SplitPoint(s[n + 1..])
  }

  function Rest(s: string): string {
    s[SplitPoint(s)..]
  }

  function Terminated(lines: seq<string>): string {
    if lines == [] then [] else lines[0] + "\n" + Terminated(lines[1..])
  }

  ghost predicate NewlineFree(lines: seq<string>) {
    forall k :: 0 <= k < |lines| ==> '\n' !in lines[k]
  }

  /** A line in front of a stream. */
  lemma JoinLine(line: string, tail: string)
    requires '\n' !in line
    ensures var s := line + "\n" + tail;
            && LinesOf(s) == [line] + LinesOf(tail) && SplitPoint(s) == |line| + 1 + SplitPoint(tail)
            && Rest(s) == Rest(tail)
  {
    var s := line + "\n" + tail;
    assert s[..|line|] == line && s[|line| + 1..] == tail;
    FirstIs(s, '\n', |line|);
  }

  lemma DropPast(a: string, b: string, q: nat)
    requires q <= |b|
    ensures (a + b)[|a| + q..] == b[q..]
  {
  }

  lemma NoLine(s: string)
    requires '\n' !in s
    ensures LinesOf(s) == [] && SplitPoint(s) == 0 && Rest(s) == s
  {
  }

  lemma TerminatedNext(line: string, lines: seq<string>)
    ensures Terminated([line] + lines) == line + "\n" + Terminated(lines)
  {
  }

  /** Every stream with a newline is a line in front of a stream. */
  lemma FirstLine(s: string) returns (line: string, tail: string)
    requires '\n' in s
    ensures '\n' !in line && s == line + "\n" + tail
  {
    var n := FirstAt(s, '\n');
    line, tail := s[..n], s[n + 1..];
  }

  /** Lines and rest make up the stream, and no newline is left in them. */
  ghost predicate MadeUp(s: string) {
    s == Terminated(LinesOf(s)) + Rest(s) && NewlineFree(LinesOf(s)) && '\n' !in Rest(s)
  }

  lemma MadeUpStep(line: string, tail: string)
    requires '\n' !in line && MadeUp(tail)
    ensures MadeUp(line + "\n" + tail)
  {
    JoinLine(line, tail);
    TerminatedNext(line, LinesOf(tail));
    Regroup(line + "\n", Terminated(LinesOf(tail)), Rest(tail));
  }

  lemma {:induction false} LinesMakeUp(s: string)
    ensures MadeUp(s)
    decreases |s|
  {
    if '\n' in s {
      var line, tail := FirstLine(s);
      LinesMakeUp(tail);
      MadeUpStep(line, tail);
    } else {
      NoLine(s);
    }
  }

  /** And there is only one way to do that. */
  lemma {:induction false} LinesAreUnique(lines: seq<string>, rest: string)
    requires NewlineFree(lines) && '\n' !in rest
    ensures LinesOf(Terminated(lines) + rest) == lines && Rest(Terminated(lines) + rest) == rest
    decreases |lines|
  {
    if lines == [] {
      assert Terminated(lines) + rest == rest;
      NoLine(rest);
    } else {
      assert lines == [lines[0]] + lines[1..];
      LinesAreUnique(lines[1..], rest);
      JoinLine(lines[0], Terminated(lines[1..]) + rest);
      Regroup(lines[0] + "\n", Terminated(lines[1..]), rest);
    }
  }

  predicate JoinsTo(a: string, b: string) {
    && LinesOf(a + b) == LinesOf(a) + LinesOf(Rest(a) + b)
    && SplitPoint(a + b) == SplitPoint(a) + SplitPoint(Rest(a) + b)
  }

  lemma JoinStep(line: string, tail: string, b: string)
    requires '\n' !in line && JoinsTo(tail, b)
    ensures JoinsTo(line + "\n" + tail, b)
  {
    var a, ab := line + "\n" + tail, line + "\n" + (tail + b);
    assert a + b == ab by {
      Regroup(line + "\n", tail, b);
    }
    assert LinesOf(a) == [line] + LinesOf(tail) && Rest(a) == Rest(tail)
           && SplitPoint(a) == |line| + 1 + SplitPoint(tail) by {
      JoinLine(line, tail);
    }
    assert LinesOf(ab) == [line] + LinesOf(tail + b) && SplitPoint(ab) == |line| + 1 + SplitPoint(tail + b) by {
      JoinLine(line, tail + b);
    }
    Regroup([line], LinesOf(tail), LinesOf(Rest(tail) + b));
  }

  /** The lines of a longer stream: those of the first part, then those of its rest and the second part. */
  lemma {:induction false} LinesOfJoin(a: string, b: string)
    ensures JoinsTo(a, b)
    decreases |a|
  {
    if '\n' in a {
      var line, tail := FirstLine(a);
      LinesOfJoin(tail, b);
      JoinStep(line, tail, b);
    } else {
      NoLine(a);
    }
  }

  // --------------------------------------------------------------------------- runs of chunks

  /** The UART reader between two reads: what it has handed to the dispatcher, and the bytes carried over. */
  datatype Stream = Stream(lines: seq<string>, carry: string)

  predicate Overflows(carry: string, chunk: string) {
    |carry| + |chunk| > CAPACITY
  }

  function Buffered(carry: string, chunk: string): string {
    if Overflows(carry, chunk) then chunk else carry + chunk
  }

  /** A full buffer without a NUL: the parser's first strlen runs past its end, and nothing is defined any more. */
  predicate RunsOff(carry: string, chunk: string) {
    var buf := Buffered(carry, chunk);
    CAPACITY <= |buf| && '\0' !in buf
  }

  function Receive(st: Stream, chunk: string): Option<Stream> {
    if RunsOff(st.carry, chunk) then None
    else
      var buf := Buffered(st.carry, chunk);
      Some(Stream(st.lines + LinesOf(Text(buf)), CarryOf(buf)))
  }

  /** The reader after so many reads, if all of them stayed inside the buffer. */
  function After(chunks: seq<string>): Option<Stream> {
    if chunks == [] then Some(Stream([], []))
    else
      var before := After(chunks[..|chunks| - 1]);
      if before.None? then None else Receive(before.value, chunks[|chunks| - 1])
  }

  function Carry(chunks: seq<string>): string {
    if After(chunks).Some? then After(chunks).value.carry else []
  }

  function Joined(chunks: seq<string>): string {
    if chunks == [] then [] else Joined(chunks[..|chunks| - 1]) + chunks[|chunks| - 1]
  }

  ghost predicate NeverOverflows(chunks: seq<string>) {
    forall k :: 0 <= k < |chunks| ==> !Overflows(Carry(chunks[..k]), chunks[k])
  }

  /** The stream without the carries that were thrown away. */
  function Kept(chunks: seq<string>): string {
    if chunks == [] then []
    else
      var before, chunk := chunks[..|chunks| - 1], chunks[|chunks| - 1];
      var kept, carry := Kept(before), Carry(before);
      (if Overflows(carry, chunk) && |carry| <= |kept| then kept[..|kept| - |carry|] else kept) + chunk
  }

  /** What follows the lines up to the first NUL. */
  function CarryOf(s: string): string {
    s[SplitPoint(Text(s))..]
  }

  /** Lines up to the first NUL, and everything after them. */
  predicate Splits(st: Stream, s: string) {
    st.lines == LinesOf(Text(s)) && st.carry == CarryOf(s)
  }

  lemma TextOfJoin(a: string, b: string)
    ensures Text(a + b) == if '\0' in a then Text(a) else a + Text(b)
  {
    if '\0' in a {
      var n := FirstAt(a, '\0');
      assert n < |a|;
      assert (a + b)[..n] == a[..n];
      FirstIs(a + b, '\0', n);
    } else {
      var n := FirstAt(b, '\0');
      assert (a + b)[..|a| + n] == a + b[..n];
      FirstIs(a + b, '\0', |a| + n);
    }
  }

  /** Appending to the carry is as good as appending to all that came before. */
  lemma CarryStandsForAll(s: string, chunk: string)
    ensures var carry := s[SplitPoint(Text(s))..];
            && LinesOf(Text(s + chunk)) == LinesOf(Text(s)) + LinesOf(Text(carry + chunk))
            && SplitPoint(Text(s + chunk)) == SplitPoint(Text(s)) + SplitPoint(Text(carry + chunk))
            && s + chunk == s[..SplitPoint(Text(s))] + (carry + chunk)
  {
    var t := Text(s);
    var p := SplitPoint(t);
    var carry := s[p..];
    LinesMakeUp(t);
    assert s + chunk == s[..p] + (carry + chunk);
    assert s[..p] == t[..p];
    TextOfJoin(s[..p], carry + chunk);
    assert '\0' !in s[..p];
    var more := Text(carry + chunk);
    assert Text(s + chunk) == t[..p] + more;
    RestLeavesNothing(t);
    LinesOfJoin(t[..p], more);
    assert Rest(t[..p]) + more == more;
  }

  /** Up to its last newline a stream consists of lines alone. */
  lemma RestLeavesNothing(t: string)
    ensures LinesOf(t[..SplitPoint(t)]) == LinesOf(t) && Rest(t[..SplitPoint(t)]) == []
    ensures SplitPoint(t[..SplitPoint(t)]) == SplitPoint(t)
  {
    LinesMakeUp(t);
    var lines := Terminated(LinesOf(t));
    assert |lines| == SplitPoint(t);
    assert t[..SplitPoint(t)] == lines + [];
    LinesAreUnique(LinesOf(t), []);
  }

  /** Without its carry, a stream is made of complete lines, and a new chunk starts a new line. */
  lemma DroppedCarry(s: string, chunk: string)
    ensures var lines, t := s[..SplitPoint(Text(s))], Text(chunk);
            && LinesOf(Text(lines + chunk)) == LinesOf(Text(s)) + LinesOf(t)
            && SplitPoint(Text(lines + chunk)) == |lines| + SplitPoint(t)
  {
    var t := Text(s);
    var lines := t[..SplitPoint(t)];
    RestLeavesNothing(t);
    assert s[..SplitPoint(t)] == lines && '\0' !in lines;
    TextOfJoin(lines, chunk);
    LinesOfJoin(lines, Text(chunk));
    assert Rest(lines) + Text(chunk) == Text(chunk);
  }

  lemma AppendSplits(st: Stream, kept: string, chunk: string)
    requires Splits(st, kept) && !Overflows(st.carry, chunk) && !RunsOff(st.carry, chunk)
    ensures Splits(Receive(st, chunk).value, kept + chunk)
  {
    hide LinesOf, SplitPoint, FirstAt;
    var joint := st.carry + chunk;
    CarryStandsForAll(kept, chunk);
    DropPast(kept[..SplitPoint(Text(kept))], joint, SplitPoint(Text(joint)));
  }

  lemma OverflowSplits(st: Stream, kept: string, chunk: string)
    requires Splits(st, kept) && Overflows(st.carry, chunk) && !RunsOff(st.carry, chunk)
    ensures |st.carry| <= |kept| && Splits(Receive(st, chunk).value, kept[..|kept| - |st.carry|] + chunk)
  {
    hide LinesOf, SplitPoint, FirstAt;
    DroppedCarry(kept, chunk);
    DropPast(kept[..SplitPoint(Text(kept))], chunk, SplitPoint(Text(chunk)));
  }

  lemma StartSplits()
    ensures Splits(Stream([], []), [])
  {
    assert Text([]) == [];
  }

  /**
   Whatever the bytes and however they were cut into chunks: as long as no read runs the parser off the buffer,
   the reader splits the stream it has kept.
   */
  lemma {:induction false} ReaderSplitsKept(chunks: seq<string>)
    ensures After(chunks).Some? ==> Splits(After(chunks).value, Kept(chunks))
    decreases |chunks|
  {
    hide Splits, CarryOf, LinesOf, Text;
    if chunks == [] {
      StartSplits();
    } else {
      var before, chunk := chunks[..|chunks| - 1], chunks[|chunks| - 1];
      ReaderSplitsKept(before);
      if After(chunks).Some? {
        var st := After(before).value;
        if Overflows(st.carry, chunk) {
          OverflowSplits(st, Kept(before), chunk);
        } else {
          AppendSplits(st, Kept(before), chunk);
        }
      }
    }
  }

  lemma {:induction false} KeptIsAll(chunks: seq<string>)
    ensures |Kept(chunks)| <= |Joined(chunks)|
    ensures NeverOverflows(chunks) ==> Kept(chunks) == Joined(chunks)
    ensures !NeverOverflows(chunks) && (forall k :: 0 <= k < |chunks| ==> |chunks[k]| <= CAPACITY)
            ==> |Kept(chunks)| < |Joined(chunks)|
    decreases |chunks|
  {
    if chunks != [] {
      var before, chunk := chunks[..|chunks| - 1], chunks[|chunks| - 1];
      assert chunks == before + [chunk];
      OverflowNext(before, chunk);
      ReaderSplitsKept(before);
      KeptIsAll(before);
    }
  }

  lemma OverflowNext(before: seq<string>, chunk: string)
    ensures NeverOverflows(before + [chunk]) <==> NeverOverflows(before) && !Overflows(Carry(before), chunk)
  {
    var chunks := before + [chunk];
    assert forall k :: 0 <= k <= |before| ==> chunks[..k] == before[..k];
    assert before[..|before|] == before;
    if NeverOverflows(chunks) {
      assert forall k :: 0 <= k < |before| ==> chunks[k] == before[k];
      assert chunks[|before|] == chunk;
    }
  }

  /** A read behind this carry fits into the buffer, and the parser finds a NUL there. */
  predicate Fits(carry: string, chunk: string) {
    |carry| + |chunk| < CAPACITY || (|carry| + |chunk| == CAPACITY && '\0' in carry + chunk)
  }

  /** The same of every read, told by the stream alone. */
  ghost predicate AlwaysFits(chunks: seq<string>) {
    forall k :: 0 <= k < |chunks| ==> Fits(CarryOf(Joined(chunks[..k])), chunks[k])
  }

  lemma FitsNext(before: seq<string>, chunk: string)
    ensures AlwaysFits(before + [chunk]) <==> AlwaysFits(before) && Fits(CarryOf(Joined(before)), chunk)
  {
    var chunks := before + [chunk];
    assert forall k :: 0 <= k <= |before| ==> chunks[..k] == before[..k];
    assert before[..|before|] == before;
    if AlwaysFits(chunks) {
      assert forall k :: 0 <= k < |before| ==> chunks[k] == before[k];
      assert chunks[|before|] == chunk;
    }
  }

  /** Every read fits if and only if the reader gets through them all without an overflow. */
  lemma {:induction false} FitsIff(chunks: seq<string>)
    ensures AlwaysFits(chunks) <==> After(chunks).Some? && NeverOverflows(chunks)
    decreases |chunks|
  {
    if chunks != [] {
      var before, chunk := chunks[..|chunks| - 1], chunks[|chunks| - 1];
      assert chunks == before + [chunk];
      FitsIff(before);
      FitsNext(before, chunk);
      OverflowNext(before, chunk);
      ReaderSplitsKept(before);
      KeptIsAll(before);
    }
  }

  /** No newline follows the first NUL. */
  predicate NulHidesNoLine(s: string) {
    SplitPoint(Text(s)) == SplitPoint(s)
  }

  lemma SplitOfText(s: string)
    ensures NulHidesNoLine(s) <==> '\n' !in s[|Text(s)|..]
    ensures NulHidesNoLine(s) ==> LinesOf(Text(s)) == LinesOf(s)
  {
    var t, tail := Text(s), s[|Text(s)|..];
    assert s == t + tail;
    LinesOfJoin(t, tail);
    var joint := Rest(t) + tail;
    LinesMakeUp(t);
    if '\n' in tail {
      var line, more := FirstLine(joint);
      JoinLine(line, more);
    } else {
      NoLine(joint);
    }
  }

  /**
   The reader hands over exactly the lines of the stream, and carries exactly what follows the last newline, if
   and only if every read fits behind its carry, with a NUL in a buffer that it fills, and no newline follows the
   first NUL byte.
   */
  lemma ExactIff(chunks: seq<string>)
    requires forall k :: 0 <= k < |chunks| ==> |chunks[k]| <= CAPACITY
    ensures After(chunks) == Some(Stream(LinesOf(Joined(chunks)), Rest(Joined(chunks))))
            <==> AlwaysFits(chunks) && '\n' !in Joined(chunks)[|Text(Joined(chunks))|..]
  {
    var s, st := Joined(chunks), After(chunks);
    ReaderSplitsKept(chunks);
    KeptIsAll(chunks);
    FitsIff(chunks);
    SplitOfText(s);
    if AlwaysFits(chunks) {
      if st.value.carry == Rest(s) {
        assert |s| - SplitPoint(Text(s)) == |s| - SplitPoint(s);
      }
    } else if st == Some(Stream(LinesOf(s), Rest(s))) {
      StreamLength(Kept(chunks));
      LinesMakeUp(s);
    }
  }

  /** Lines and carry add up to what was kept. */
  lemma StreamLength(s: string)
    ensures |Terminated(LinesOf(Text(s)))| + |CarryOf(s)| == |s|
  {
    LinesMakeUp(Text(s));
  }

  /** So two ways of cutting one stream into chunks that fit come to the same lines and the same carry. */
  lemma ChunkingDoesNotShow(chunks: seq<string>, others: seq<string>)
    requires Joined(chunks) == Joined(others) && AlwaysFits(chunks) && AlwaysFits(others)
    ensures After(chunks).Some? && After(chunks) == After(others)
  {
    FitsIff(chunks);
    FitsIff(others);
    ReaderSplitsKept(chunks);
    ReaderSplitsKept(others);
    KeptIsAll(chunks);
    KeptIsAll(others);
  }

  /** One read of 512 bytes without a NUL, newlines or not, is enough to run the parser off the buffer. */
  lemma FullReadRunsOff(chunk: string)
    requires |chunk| == CAPACITY && '\0' !in chunk
    ensures After([chunk]) == None && !AlwaysFits([chunk])
  {
    assert [chunk][..0] == [];
    assert After([]) == Some(Stream([], []));
    FitsIff([chunk]);
  }

  // ------------------------------------------------------------------------- the C library

  method Fill(a: array<char>)
    modifies a
    ensures forall k :: 0 <= k < a.Length ==> a[k] == '\0'
  {
    for i := 0 to a.Length
      invariant forall k :: 0 <= k < i ==> a[k] == '\0'
    {
      a[i] := '\0';
    }
  }

  method Copy(dst: array<char>, at: nat, src: array<char>, from: nat, n: nat)
    requires dst != src && at + n <= dst.Length && from + n <= src.Length
    modifies dst
    ensures forall k :: at <= k < at + n ==> dst[k] == src[from + k - at]
    ensures forall k :: 0 <= k < dst.Length && !(at <= k < at + n) ==> dst[k] == old(dst[k])
  {
    for i := 0 to n
      invariant forall k :: at <= k < at + i ==> dst[k] == src[from + k - at]
      invariant forall k :: 0 <= k < dst.Length && !(at <= k < at + i) ==> dst[k] == old(dst[k])
    {
      dst[at + i] := src[from + i];
    }
  }

  /** The first NUL from a position on; n reaches the end of the buffer exactly when there is none. */
  method StrLen(a: array<char>, from: nat) returns (n: nat)
    requires from <= a.Length
    ensures n == FirstAt(a[from..], '\0') && from + n <= a.Length
  {
    n := 0;
    while from + n < a.Length && a[from + n] != '\0'
      invariant from + n <= a.Length
      invariant forall k :: from <= k < from + n ==> a[k] != '\0'
    {
      n := n + 1;
    }
    FirstIs(a[from..], '\0', n);
  }

  // ---------------------------------------------------------------------------- the parser

  /** Copies the first line of a stretch of the buffer; answers its length and newline, or -1 if there is none. */
  method GetLine(a: array<char>, from: nat, limit: nat, line: array<char>) returns (r: int)
    requires a != line && from + limit <= a.Length && limit <= line.Length
    modifies line
    ensures var n := FirstAt(a[from..from + limit], '\n');
            if n == limit then r == -1 && line[..] == old(line[..])
            else r == n + 1 && (forall k :: 0 <= k < n ==> line[k] == a[from + k])
                 && forall k :: n <= k < line.Length ==> line[k] == old(line[k])
  {
    var i := 0;
    while i < limit && a[from + i] != '\n'
      invariant 0 <= i <= limit
      invariant forall k :: from <= k < from + i ==> a[k] != '\n'
    {
      i := i + 1;
    }
    FirstIs(a[from..from + limit], '\n', i);
    if i >= limit {
      return -1;
    }
    Copy(line, 0, a, from, i);
    return i + 1;
  }

  /** The line sits at the front of the zeroed buffer. */
  ghost predicate Holds(a: array<char>, line: string)
    reads a
  {
    && |line| < a.Length
    && (forall k :: 0 <= k < |line| ==> a[k] == line[k])
    && forall k :: |line| <= k < a.Length ==> a[k] == '\0'
  }

  /** Fetches the next line from what is left of the text, if it has one. */
  method NextLine(copy: array<char>, ghost t: string, ptr: nat, str: array<char>) returns (r: int)
    requires copy[..] == t + "\0" && '\0' !in t && copy != str && str.Length == CAPACITY && ptr <= |t| < CAPACITY
    modifies str
    ensures if '\n' in t[ptr..] then r == FirstAt(t[ptr..], '\n') + 1 && Holds(str, t[ptr..][..r - 1]) else r <= 0
  {
    Remaining(copy[..], t, ptr);
    assert copy[..][ptr..] == copy[ptr..] && copy[..][ptr..|t|] == copy[ptr..|t|];
    var len := StrLen(copy, ptr);
    if len <= 0 {
      return 0;
    }
    Fill(str);
    r := GetLine(copy, ptr, len, str);
    if r > 0 {
      assert forall k :: 0 <= k < r - 1 ==> str[k] == t[ptr..][..r - 1][k];
    }
  }

  class SensorReader {
    const data: array<char>
    const buf: array<char>
    var idx: nat
    var lines: seq<string>

    ghost predicate Valid()
      reads this, buf
    {
      && data != buf && data.Length == CAPACITY && buf.Length == CAPACITY && idx <= CAPACITY
      && forall k :: idx <= k < CAPACITY ==> buf[k] == '\0'
    }

    ghost function View(): Stream
      reads this, buf
      requires Valid()
    {
      Stream(lines, buf[..idx])
    }

    constructor ()
      ensures Valid() && After([]) == Some(View()) && fresh(data) && fresh(buf)
    {
      data, buf := new char[CAPACITY], new char[CAPACITY];
      idx, lines := 0, [];
      new;
      Fill(buf);
      assert buf[..0] == [];
    }

    /** Hands one line over, as the C string that the line buffer holds. */
    method Dispatch(str: array<char>, ghost line: string)
      requires Holds(str, line) && '\0' !in line
      modifies this`lines
      ensures lines == old(lines) + [line]
    {
      assert str[0..] == str[..];
      assert str[..][|line|] == '\0';
      var n := StrLen(str, 0);
      assert str[..][..|line|] == line;
      FirstIs(str[..], '\0', |line|);
      lines := lines + [str[..n]];
    }

    /** Fails exactly when the buffer has no NUL: the source then reads on behind it. */
    method Parse() returns (ok: bool, used: nat)
      requires Valid()
      modifies this`lines
      ensures ok <==> idx < CAPACITY || '\0' in buf[..idx]
      ensures ok ==> lines == old(lines) + LinesOf(Text(buf[..idx])) && used == SplitPoint(Text(buf[..idx]))
      ensures !ok ==> lines == old(lines)
    {
      ghost var t := Text(buf[..idx]);
      PaddedText(buf[..], idx);
      assert buf[..][..idx] == buf[..idx] && buf[0..] == buf[..];
      var len := StrLen(buf, 0);
      ok, used := len < buf.Length, 0;
      if !ok || len == 0 {
        return;
      }
      used := ParseString(len, t);
    }

    method ParseString(len: nat, ghost t: string) returns (used: nat)
      requires 0 < len < buf.Length <= CAPACITY && t == buf[..len] && buf[len] == '\0' && '\0' !in t
      modifies this`lines
      ensures lines == old(lines) + LinesOf(t) && used == SplitPoint(t)
    {
      var copy := Duplicate(buf, len, t);
      var str := new char[CAPACITY];
      Fill(str);
      assert copy[0..0 + len] == t;
      var r := GetLine(copy, 0, len, str);
      used := 0;
      if r > 0 {
        used := ParseLines(copy, t, str, r);
      }
    }

    /** One turn of the parser's loop: the line in the line buffer is handed over, and the next one fetched. */
    method NextTurn(copy: array<char>, ghost t: string, str: array<char>, ghost line: string, ptr: nat) returns (r: int)
      requires copy[..] == t + "\0" && '\0' !in t && copy != str && str.Length == CAPACITY && ptr <= |t| < CAPACITY
      requires Holds(str, line) && '\0' !in line
      modifies this`lines, str
      ensures lines == old(lines) + [line]
      ensures if '\n' in t[ptr..] then r == FirstAt(t[ptr..], '\n') + 1 && Holds(str, t[ptr..][..r - 1]) else r <= 0
    {
      Dispatch(str, line);
      r := NextLine(copy, t, ptr, str);
    }

    /** The loop of the parser, entered with the first line in the line buffer. */
    method ParseLines(copy: array<char>, ghost t: string, str: array<char>, first: nat) returns (used: nat)
      requires copy[..] == t + "\0" && '\0' !in t && copy != str && str.Length == CAPACITY && |t| < CAPACITY
      requires '\n' in t && first == FirstAt(t, '\n') + 1 && Holds(str, t[..first - 1])
      modifies this`lines, str
      ensures lines == old(lines) + LinesOf(t) && used == SplitPoint(t)
    {
      hide LinesOf, SplitPoint, FirstAt;
      var r: int := first;
      used := 0;
      assert t[0..] == t;
      while r > 0
        invariant used <= |t|
        invariant if '\n' !in t[used..] then r <= 0
                  else r == FirstAt(t[used..], '\n') + 1 && Holds(str, t[used..][..r - 1])
        invariant Accounted(old(lines), lines, t, used)
        decreases |t| - used
      {
        AccountNext(old(lines), lines, t, used, r);
        ghost var line := t[used..][..r - 1];
        used := used + r;
        r := NextTurn(copy, t, str, line, used);
      }
      AccountEnd(old(lines), lines, t, used);
    }

    /** One read of the UART: data holds len fresh bytes. The turn ends well exactly when its step is defined. */
    method TakeIn(len: nat) returns (ok: bool)
      requires Valid() && 0 < len <= CAPACITY
      modifies this, data, buf
      ensures var next := Receive(old(View()), old(data[..len]));
              (ok <==> next.Some?) && (ok ==> Valid() && View() == next.value)
    {
      Append(len);
      var used;
      ok, used := Parse();
      if ok && used > 0 {
        Shift(used);
      }
    }

    /** The bytes read go behind the carry, or in its place. */
    method Append(len: nat)
      requires Valid() && 0 < len <= CAPACITY
      modifies this`idx, buf
      ensures Valid() && buf[..idx] == Buffered(old(buf[..idx]), data[..len])
    {
      ghost var carry := buf[..idx];
      if idx + len <= CAPACITY {
        Copy(buf, idx, data, 0, len);
        idx := idx + len;
        assert buf[..idx] == carry + data[..len];
      } else {
        idx := 0;
        Fill(buf);
        Copy(buf, idx, data, 0, len);
        idx := idx + len;
        assert buf[..idx] == data[..len];
      }
    }

    /** What follows the lines moves to the front, by way of the read buffer. */
    method Shift(used: nat)
      requires Valid() && 0 < used <= idx
      modifies this`idx, data, buf
      ensures Valid() && buf[..idx] == old(buf[..idx])[used..]
    {
      ghost var was := buf[..];
      if idx != used {
        Copy(data, 0, buf, used, idx - used);
        Fill(buf);
        Copy(buf, 0, data, 0, idx - used);
        idx := idx - used;
      } else {
        Fill(buf);
        idx := 0;
      }
      assert forall k :: 0 <= k < idx ==> buf[k] == was[used + k];
    }
  }

  method Duplicate(a: array<char>, len: nat, ghost t: string) returns (copy: array<char>)
    requires len < a.Length && t == a[..len] && a[len] == '\0'
    ensures fresh(copy) && copy[..] == t + "\0"
  {
    copy := new char[len + 1];
    Copy(copy, 0, a, 0, len + 1);
    assert forall k :: 0 <= k < len ==> copy[k] == a[..len][k];
  }

  /** The lines handed over and those still in the text add up. */
  ghost predicate Accounted(start: seq<string>, lines: seq<string>, t: string, used: nat) {
    && used <= |t|
    && lines + LinesOf(t[used..]) == start + LinesOf(t)
    && used + SplitPoint(t[used..]) == SplitPoint(t)
  }

  lemma AccountNext(start: seq<string>, lines: seq<string>, t: string, used: nat, r: nat)
    requires Accounted(start, lines, t, used)
    requires '\0' !in t && used < |t| && r == FirstAt(t[used..], '\n') + 1 <= |t| - used
    ensures '\0' !in t[used..][..r - 1]
    ensures Accounted(start, lines + [t[used..][..r - 1]], t, used + r)
  {
    var line := t[used..][..r - 1];
    assert line == t[used..used + r - 1];
    assert t[used..][r..] == t[used + r..];
    assert LinesOf(t[used..]) == [line] + LinesOf(t[used + r..]);
    Regroup(lines, [line], LinesOf(t[used + r..]));
  }

  lemma AccountEnd(start: seq<string>, lines: seq<string>, t: string, used: nat)
    requires Accounted(start, lines, t, used) && '\n' !in t[used..]
    ensures lines == start + LinesOf(t) && used == SplitPoint(t)
  {
  }

  lemma Remaining(copy: string, t: string, ptr: nat)
    requires copy == t + "\0" && '\0' !in t && ptr <= |t|
    ensures '\0' in copy[ptr..] && FirstAt(copy[ptr..], '\0') == |t| - ptr
    ensures copy[ptr..|t|] == t[ptr..]
  {
    var s, n := copy[ptr..], |t| - ptr;
    assert s[n] == '\0';
    assert forall k :: 0 <= k < n ==> s[k] == t[ptr + k];
    FirstIs(s, '\0', n);
  }

  /** Zeros behind the text do not change it. */
  lemma PaddedText(a: string, n: nat)
    requires n <= |a| && forall k :: n <= k < |a| ==> a[k] == '\0'
    ensures Text(a) == Text(a[..n])
    ensures FirstAt(a, '\0') < |a| <==> n < |a| || '\0' in a[..n]
  {
    assert a == a[..n] + a[n..];
    TextOfJoin(a[..n], a[n..]);
    if n < |a| {
      assert a[n] == '\0';
      if '\0' !in a[..n] {
        FirstIs(a[n..], '\0', 0);
        FirstIs(a[..n], '\0', n);
      }
    }
  }
}
