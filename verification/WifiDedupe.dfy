/**
 The list of access points: duplicates are removed in place, keeping the strongest, and up to three scans are merged.
 */
module WifiDedupe {
  import opened Common

  const CAPACITY := 30

  /** An access point as a scan reports it; details stands for the fields that play no part here. */
  datatype Record = Record(ssid: string, rssi: int, details: nat)

  // ------------------------------------------------------------------------- specification

  /** The first position of a record with the name, or the length. */
  function FirstOf(s: seq<Record>, ssid: string): (n: nat)
    ensures n <= |s| && (n < |s| ==> s[n].ssid == ssid)
    ensures forall k :: 0 <= k < n ==> s[k].ssid != ssid
  {
    if s == [] then 0
    else
      var n := FirstOf(s[..|s| - 1], ssid);
      if n < |s| - 1 || s[|s| - 1].ssid == ssid then n else |s|
  }

  /** One more record: it replaces a weaker one of its name, or joins the end if its name is new. */
  function Put(list: seq<Record>, r: Record): seq<Record> {
    var k := FirstOf(list, r.ssid);
    if k == |list| then list + [r] else if r.rssi > list[k].rssi then list[k := r] else list
  }

  function PutAll(list: seq<Record>, s: seq<Record>): seq<Record> {
    if s == [] then list else Put(PutAll(list, s[..|s| - 1]), s[|s| - 1])
  }

  function Dedupe(s: seq<Record>): seq<Record> {
    PutAll([], s)
  }

  ghost predicate Distinct(list: seq<Record>) {
    forall i, j :: 0 <= i < j < |list| ==> list[i].ssid != list[j].ssid
  }

  /** The record at i is the earliest of the strongest with its name. */
  ghost predicate EarliestStrongest(s: seq<Record>, i: nat) {
    && i < |s|
    && forall k :: 0 <= k < |s| && s[k].ssid == s[i].ssid ==>
                     s[k].rssi <= s[i].rssi && (k < i ==> s[k].rssi < s[i].rssi)
  }

  ghost predicate Stands(r: Record, s: seq<Record>) {
    exists i :: 0 <= i < |s| && s[i] == r && EarliestStrongest(s, i)
  }

  ghost predicate AllStand(list: seq<Record>, s: seq<Record>) {
    forall k :: 0 <= k < |list| ==> Stands(list[k], s)
  }

  ghost predicate Covers(list: seq<Record>, s: seq<Record>) {
    forall i :: 0 <= i < |s| ==> FirstOf(list, s[i].ssid) < |list|
  }

  ghost predicate FirstSeenOrder(list: seq<Record>, s: seq<Record>) {
    && (forall k :: 0 <= k < |list| ==> FirstOf(s, list[k].ssid) < |s|)
    && (forall k, l :: 0 <= k < l < |list| ==> FirstOf(s, list[k].ssid) < FirstOf(s, list[l].ssid))
  }

  /** What the records come to: every name once, in the order first seen, by its earliest strongest record. */
  ghost predicate Represents(list: seq<Record>, s: seq<Record>) {
    Distinct(list) && Covers(list, s) && FirstSeenOrder(list, s) && AllStand(list, s)
  }

  lemma FirstIs(s: seq<Record>, ssid: string, n: nat)
    requires n <= |s| && (n < |s| ==> s[n].ssid == ssid) && forall k :: 0 <= k < n ==> s[k].ssid != ssid
    ensures FirstOf(s, ssid) == n
  {
  }

  lemma FirstNext(s: seq<Record>, r: Record, ssid: string)
    ensures FirstOf(s + [r], ssid)
         == if FirstOf(s, ssid) < |s| || r.ssid != ssid
            then (if FirstOf(s, ssid) < |s| then FirstOf(s, ssid) else |s| + 1)
            else |s|
  {
  }

  lemma PutKeepsDistinct(list: seq<Record>, r: Record)
    requires Distinct(list)
    ensures Distinct(Put(list, r))
  {
  }

  lemma {:induction false} PutAllKeepsDistinct(list: seq<Record>, s: seq<Record>)
    requires Distinct(list)
    ensures Distinct(PutAll(list, s))
  {
    if s != [] {
      PutAllKeepsDistinct(list, s[..|s| - 1]);
      PutKeepsDistinct(PutAll(list, s[..|s| - 1]), s[|s| - 1]);
    }
  }

  // ------------------------------------------------------------- the list represents the records

  lemma OthersStand(r: Record, s: seq<Record>, last: Record)
    requires Stands(r, s) && (last.ssid != r.ssid || last.rssi <= r.rssi)
    ensures Stands(r, s + [last])
  {
    var i :| 0 <= i < |s| && s[i] == r && EarliestStrongest(s, i);
    var longer := s + [last];
    assert longer[i] == r && EarliestStrongest(longer, i);
  }

  lemma LastStands(s: seq<Record>, last: Record)
    requires forall k :: 0 <= k < |s| && s[k].ssid == last.ssid ==> s[k].rssi < last.rssi
    ensures Stands(last, s + [last])
  {
    var longer := s + [last];
    assert longer[|s|] == last && EarliestStrongest(longer, |s|);
  }

  lemma StandsIsStrongest(r: Record, s: seq<Record>, k: nat)
    requires Stands(r, s) && k < |s| && s[k].ssid == r.ssid
    ensures s[k].rssi <= r.rssi
  {
  }

  lemma NewName(list: seq<Record>, s: seq<Record>, ssid: string)
    requires Covers(list, s) && FirstOf(list, ssid) == |list|
    ensures FirstOf(s, ssid) == |s|
  {
  }

  lemma PutName(list: seq<Record>, r: Record, i: nat)
    requires i < |Put(list, r)|
    ensures if i < |list| then Put(list, r)[i].ssid == list[i].ssid
            else i == |list| == FirstOf(list, r.ssid) && Put(list, r)[i] == r
  {
  }

  /** A name keeps its place of first sight, and a new name is first seen last. */
  lemma PutFirstSeen(list: seq<Record>, s: seq<Record>, r: Record, i: nat)
    requires Covers(list, s) && FirstSeenOrder(list, s) && i < |Put(list, r)|
    ensures FirstOf(s + [r], Put(list, r)[i].ssid) == if i < |list| then FirstOf(s, list[i].ssid) else |s|
  {
    PutName(list, r, i);
    if i < |list| {
      FirstNext(s, r, list[i].ssid);
    } else {
      NewName(list, s, r.ssid);
      FirstNext(s, r, r.ssid);
    }
  }

  lemma PutKeepsOrder(list: seq<Record>, s: seq<Record>, r: Record)
    requires Covers(list, s) && FirstSeenOrder(list, s)
    ensures FirstSeenOrder(Put(list, r), s + [r])
  {
    var longer, after := s + [r], Put(list, r);
    forall k | 0 <= k < |after|
      ensures FirstOf(longer, after[k].ssid) < |longer|
    {
      PutFirstSeen(list, s, r, k);
    }
    forall k, l | 0 <= k < l < |after|
      ensures FirstOf(longer, after[k].ssid) < FirstOf(longer, after[l].ssid)
    {
      PutFirstSeen(list, s, r, k);
      PutFirstSeen(list, s, r, l);
    }
  }

  lemma PutCovers(list: seq<Record>, s: seq<Record>, r: Record)
    requires Covers(list, s)
    ensures Covers(Put(list, r), s + [r])
  {
    forall i | 0 <= i < |s + [r]|
      ensures FirstOf(Put(list, r), (s + [r])[i].ssid) < |Put(list, r)|
    {
      if i < |s| {
        assert FirstOf(list, s[i].ssid) < |list|;
      }
      PutFinds(list, r, (s + [r])[i].ssid);
    }
  }

  lemma PutFinds(list: seq<Record>, r: Record, ssid: string)
    requires FirstOf(list, ssid) < |list| || ssid == r.ssid
    ensures FirstOf(Put(list, r), ssid) < |Put(list, r)|
  {
    var after := Put(list, r);
    var at := FirstOf(list, ssid);
    assert at < |after| && after[at].ssid == ssid;
  }

  lemma PutStands(list: seq<Record>, s: seq<Record>, r: Record)
    requires Distinct(list) && Covers(list, s) && AllStand(list, s)
    ensures AllStand(Put(list, r), s + [r])
  {
    var k, after := FirstOf(list, r.ssid), Put(list, r);
    forall i | 0 <= i < |after|
      ensures Stands(after[i], s + [r])
    {
      if i == k && after[i] == r && (k == |list| || r.rssi > list[k].rssi) {
        forall j | 0 <= j < |s| && s[j].ssid == r.ssid
          ensures s[j].rssi < r.rssi
        {
          assert FirstOf(list, s[j].ssid) == k;
          StandsIsStrongest(list[k], s, j);
        }
        LastStands(s, r);
      } else {
        assert i < |list| && after[i] == list[i];
        assert i != k ==> list[i].ssid != r.ssid;
        OthersStand(list[i], s, r);
      }
    }
  }

  lemma PutRepresents(list: seq<Record>, s: seq<Record>, r: Record)
    requires Represents(list, s)
    ensures Represents(Put(list, r), s + [r])
  {
    PutKeepsDistinct(list, r);
    PutCovers(list, s, r);
    PutKeepsOrder(list, s, r);
    PutStands(list, s, r);
  }

  /** What removing duplicates means. */
  lemma {:induction false} DedupeRepresents(s: seq<Record>)
    ensures Represents(Dedupe(s), s)
  {
    if s != [] {
      var before, last := s[..|s| - 1], s[|s| - 1];
      assert s == before + [last];
      DedupeRepresents(before);
      PutRepresents(Dedupe(before), before, last);
    }
  }

  // ------------------------------------------------------------------- one scan after the other

  lemma PutAllNext(list: seq<Record>, s: seq<Record>, r: Record)
    ensures PutAll(list, s + [r]) == Put(PutAll(list, s), r)
  {
  }

  lemma {:induction false} PutAllJoin(list: seq<Record>, a: seq<Record>, b: seq<Record>)
    ensures PutAll(list, a + b) == PutAll(PutAll(list, a), b)
  {
    if b == [] {
      assert a + b == a;
    } else {
      var before, last := b[..|b| - 1], b[|b| - 1];
      assert a + b == (a + before) + [last];
      PutAllJoin(list, a, before);
      PutAllNext(list, a + before, last);
    }
  }

  lemma {:induction false} DistinctStays(list: seq<Record>)
    requires Distinct(list)
    ensures Dedupe(list) == list
  {
    if list != [] {
      var before, last := list[..|list| - 1], list[|list| - 1];
      assert list == before + [last];
      DistinctStays(before);
      assert forall k :: 0 <= k < |before| ==> before[k] == list[k];
      FirstIs(before, last.ssid, |before|);
    }
  }

  /** Removing duplicates now and again later is removing them once. */
  lemma DedupeInSteps(a: seq<Record>, b: seq<Record>)
    ensures Dedupe(Dedupe(a) + b) == Dedupe(a + b)
  {
    PutAllJoin([], a, b);
    PutAllJoin([], Dedupe(a), b);
    PutAllKeepsDistinct([], a);
    DistinctStays(Dedupe(a));
  }

  lemma {:induction false} DedupeShrinks(list: seq<Record>, s: seq<Record>)
    ensures |PutAll(list, s)| <= |list| + |s|
  {
    if s != [] {
      DedupeShrinks(list, s[..|s| - 1]);
    }
  }

  // --------------------------------------------------------------------------- up to three scans

  datatype Scan = Failed | Found(records: seq<Record>)

  /** The records of a scan that the buffer has room for. */
  function Taken(list: seq<Record>, records: seq<Record>): (r: seq<Record>)
    ensures r <= records
  {
    if |list| + |records| <= CAPACITY then records
    else if |list| <= CAPACITY then records[..CAPACITY - |list|]
    else []
  }

  function Merged(list: seq<Record>, records: seq<Record>): seq<Record> {
    if records == [] then list else Dedupe(list + Taken(list, records))
  }

  /** A full list stops the scanning. */
  function Collected(list: seq<Record>, scans: seq<Scan>): seq<Record>
    decreases |scans|
  {
    if scans == [] then list
    else if scans[0].Failed? then Collected(list, scans[1..])
    else
      var merged := Merged(list, scans[0].records);
      if |merged| >= CAPACITY then merged else Collected(merged, scans[1..])
  }

  /** All that was put into the buffer along the way. */
  function AllTaken(list: seq<Record>, scans: seq<Scan>): seq<Record>
    decreases |scans|
  {
    if scans == [] then []
    else if scans[0].Failed? then AllTaken(list, scans[1..])
    else
      var merged := Merged(list, scans[0].records);
      Taken(list, scans[0].records) + if |merged| >= CAPACITY then [] else AllTaken(merged, scans[1..])
  }

  function AllFound(scans: seq<Scan>): seq<Record> {
    if scans == [] then [] else (if scans[0].Failed? then [] else scans[0].records) + AllFound(scans[1..])
  }

  /** No scan finds more than the buffer has room for; a full list has room for nothing. */
  ghost predicate NeverOverflows(list: seq<Record>, scans: seq<Scan>)
    decreases |scans|
  {
    if scans == [] then true
    else if scans[0].Failed? then NeverOverflows(list, scans[1..])
    else |list| + |scans[0].records| <= CAPACITY && NeverOverflows(Merged(list, scans[0].records), scans[1..])
  }

  /** However many scans there are: the list is one removal of duplicates from all that was taken, never too long. */
  lemma {:induction false} CollectedIsDedupe(before: seq<Record>, scans: seq<Scan>)
    requires |Dedupe(before)| <= CAPACITY
    ensures var list := Dedupe(before);
            Collected(list, scans) == Dedupe(before + AllTaken(list, scans)) && |Collected(list, scans)| <= CAPACITY
    decreases |scans|
  {
    var list := Dedupe(before);
    if scans == [] {
      assert before + [] == before;
    } else if scans[0].Failed? {
      CollectedIsDedupe(before, scans[1..]);
    } else {
      var records := scans[0].records;
      var more := Taken(list, records);
      MergeIsDedupe(before, records);
      if |Merged(list, records)| >= CAPACITY {
        assert AllTaken(list, scans) == more + [] == more;
      } else {
        CollectedIsDedupe(before + more, scans[1..]);
        Regroup(before, more, AllTaken(Merged(list, records), scans[1..]));
      }
    }
  }

  lemma MergeIsDedupe(before: seq<Record>, records: seq<Record>)
    requires |Dedupe(before)| <= CAPACITY
    ensures var list := Dedupe(before);
            Merged(list, records) == Dedupe(before + Taken(list, records)) && |Merged(list, records)| <= CAPACITY
  {
    var list := Dedupe(before);
    if records == [] {
      assert before + Taken(list, records) == before;
    } else {
      DedupeInSteps(before, Taken(list, records));
      DedupeShrinks([], list + Taken(list, records));
    }
  }

  lemma {:induction false} NothingIsCut(list: seq<Record>, scans: seq<Scan>)
    requires NeverOverflows(list, scans)
    ensures AllTaken(list, scans) == AllFound(scans)
    decreases |scans|
  {
    if scans != [] {
      if scans[0].Failed? {
        NothingIsCut(list, scans[1..]);
        assert [] + AllFound(scans[1..]) == AllFound(scans[1..]);
      } else {
        var merged := Merged(list, scans[0].records);
        NothingIsCut(merged, scans[1..]);
        if |merged| >= CAPACITY {
          FullFindsNothing(merged, scans[1..]);
        }
      }
    }
  }

  lemma {:induction false} FullFindsNothing(list: seq<Record>, scans: seq<Scan>)
    requires |list| >= CAPACITY && NeverOverflows(list, scans)
    ensures AllFound(scans) == []
    decreases |scans|
  {
    if scans != [] {
      FullFindsNothing(list, scans[1..]);
    }
  }

  lemma {:induction false} FullTakesNothing(list: seq<Record>, scans: seq<Scan>)
    requires |list| == CAPACITY && !NeverOverflows(list, scans)
    ensures |AllFound(scans)| > 0
    decreases |scans|
  {
    if scans[0].Failed? || scans[0].records == [] {
      FullTakesNothing(list, scans[1..]);
    }
  }

  lemma {:induction false} TakenIsShort(list: seq<Record>, scans: seq<Scan>)
    requires |list| <= CAPACITY
    ensures |AllTaken(list, scans)| <= |AllFound(scans)|
    ensures !NeverOverflows(list, scans) ==> |AllTaken(list, scans)| < |AllFound(scans)|
    decreases |scans|
  {
    if scans != [] {
      if scans[0].Failed? {
        TakenIsShort(list, scans[1..]);
      } else {
        var records := scans[0].records;
        var merged := Merged(list, records);
        DedupeShrinks([], list + Taken(list, records));
        if |merged| < CAPACITY {
          TakenIsShort(merged, scans[1..]);
        } else if !NeverOverflows(merged, scans[1..]) {
          FullTakesNothing(merged, scans[1..]);
        }
      }
    }
  }

  /** Every record found comes to be considered if and only if no scan finds more than there is room for. */
  lemma AllConsideredIff(scans: seq<Scan>)
    ensures AllTaken([], scans) == AllFound(scans) <==> NeverOverflows([], scans)
  {
    if NeverOverflows([], scans) {
      NothingIsCut([], scans);
    } else {
      TakenIsShort([], scans);
    }
  }

  /** As long as no scan overflows the buffer, merging scan by scan is removing the duplicates of all found at once. */
  lemma IncrementalIsBatch(scans: seq<Scan>)
    requires NeverOverflows([], scans)
    ensures Collected([], scans) == Dedupe(AllFound(scans)) && Represents(Collected([], scans), AllFound(scans))
  {
    CollectedIsDedupe([], scans);
    NothingIsCut([], scans);
    assert [] + AllFound(scans) == AllFound(scans);
    DedupeRepresents(AllFound(scans));
  }

  // ------------------------------------------------------------ when cutting does not matter

  /** The list has every one of these names, by a record at least as strong. */
  ghost predicate Stronger(list: seq<Record>, records: seq<Record>) {
    forall i :: 0 <= i < |records| ==>
      var k := FirstOf(list, records[i].ssid);
      k < |list| && records[i].rssi <= list[k].rssi
  }

  /** After each scan the list has all that the scan found, what was cut off included. */
  ghost predicate ListHasAll(list: seq<Record>, scans: seq<Scan>)
    decreases |scans|
  {
    if scans == [] then true
    else if scans[0].Failed? then ListHasAll(list, scans[1..])
    else
      var merged := Merged(list, scans[0].records);
      Stronger(merged, scans[0].records) && ListHasAll(merged, scans[1..])
  }

  /** A record of that name, at least as strong, is among these. */
  ghost predicate HasNamesake(records: seq<Record>, r: Record) {
    exists k :: 0 <= k < |records| && records[k].ssid == r.ssid && r.rssi <= records[k].rssi
  }

  /** Each record cut off has a namesake at least as strong among those taken by then. */
  ghost predicate NothingMissed(taken: seq<Record>, scans: seq<Scan>)
    decreases |scans|
  {
    if scans == [] then true
    else if scans[0].Failed? then NothingMissed(taken, scans[1..])
    else
      var records := scans[0].records;
      var more := Taken(Dedupe(taken), records);
      && (forall i :: |more| <= i < |records| ==> HasNamesake(taken + more, records[i]))
      && NothingMissed(taken + more, scans[1..])
  }

  lemma {:induction false} StrongerStays(list: seq<Record>, s: seq<Record>)
    requires Stronger(list, s)
    ensures PutAll(list, s) == list
  {
    if s != [] {
      var before, last := s[..|s| - 1], s[|s| - 1];
      forall i | 0 <= i < |before|
        ensures var k := FirstOf(list, before[i].ssid); k < |list| && before[i].rssi <= list[k].rssi
      {
        assert before[i] == s[i];
      }
      StrongerStays(list, before);
    }
  }

  lemma DedupeIsStronger(s: seq<Record>)
    ensures Stronger(Dedupe(s), s)
  {
    DedupeRepresents(s);
    forall i | 0 <= i < |s|
      ensures var k := FirstOf(Dedupe(s), s[i].ssid); k < |Dedupe(s)| && s[i].rssi <= Dedupe(s)[k].rssi
    {
      StandsIsStrongest(Dedupe(s)[FirstOf(Dedupe(s), s[i].ssid)], s, i);
    }
  }

  /** The list without duplicates has a record's name at its strength if and only if the records themselves have. */
  lemma NamesakeIff(s: seq<Record>, r: Record)
    ensures HasNamesake(s, r)
            <==> FirstOf(Dedupe(s), r.ssid) < |Dedupe(s)| && r.rssi <= Dedupe(s)[FirstOf(Dedupe(s), r.ssid)].rssi
  {
    var k := FirstOf(Dedupe(s), r.ssid);
    DedupeRepresents(s);
    DedupeIsStronger(s);
    if k < |Dedupe(s)| && r.rssi <= Dedupe(s)[k].rssi {
      assert Stands(Dedupe(s)[k], s);
    }
  }

  /** Asking the list after each scan is asking the records taken by then. */
  lemma {:induction false} MissedIff(taken: seq<Record>, scans: seq<Scan>)
    requires |Dedupe(taken)| <= CAPACITY
    ensures NothingMissed(taken, scans) <==> ListHasAll(Dedupe(taken), scans)
    decreases |scans|
  {
    if scans != [] {
      if scans[0].Failed? {
        MissedIff(taken, scans[1..]);
      } else {
        var records := scans[0].records;
        var more := Taken(Dedupe(taken), records);
        MergeIsDedupe(taken, records);
        MissedIff(taken + more, scans[1..]);
        forall i | 0 <= i < |records|
          ensures i < |more| ==> HasNamesake(taken + more, records[i])
          ensures HasNamesake(taken + more, records[i]) <==>
                  var k := FirstOf(Dedupe(taken + more), records[i].ssid);
                  k < |Dedupe(taken + more)| && records[i].rssi <= Dedupe(taken + more)[k].rssi
        {
          NamesakeIff(taken + more, records[i]);
          assert i < |more| ==> (taken + more)[|taken| + i] == records[i];
        }
      }
    }
  }

  /** One scan: cutting it off made no difference if and only if the list has all it found. */
  lemma MergeMissesIff(before: seq<Record>, records: seq<Record>)
    requires |Dedupe(before)| <= CAPACITY
    ensures var merged := Merged(Dedupe(before), records);
            merged == Dedupe(before + records) <==> Stronger(merged, records)
  {
    var merged, taken := Merged(Dedupe(before), records), Taken(Dedupe(before), records);
    var rest := records[|taken|..];
    MergeIsDedupe(before, records);
    assert before + records == (before + taken) + rest;
    PutAllJoin([], before + taken, rest);
    if Stronger(merged, records) {
      forall i | 0 <= i < |rest|
        ensures var k := FirstOf(merged, rest[i].ssid); k < |merged| && rest[i].rssi <= merged[k].rssi
      {
        assert rest[i] == records[|taken| + i];
      }
      StrongerStays(merged, rest);
    }
    if merged == Dedupe(before + records) {
      DedupeIsStronger(before + records);
      forall i | 0 <= i < |records|
        ensures var k := FirstOf(merged, records[i].ssid); k < |merged| && records[i].rssi <= merged[k].rssi
      {
        assert (before + records)[|before| + i] == records[i];
      }
    }
  }

  /** The list is the batch result after every scan. */
  ghost predicate BatchThroughout(list: seq<Record>, before: seq<Record>, scans: seq<Scan>) {
    forall n :: 0 <= n <= |scans| ==> BatchAfter(list, before, scans, n)
  }

  ghost predicate BatchAfter(list: seq<Record>, before: seq<Record>, scans: seq<Scan>, n: nat)
    requires n <= |scans|
  {
    Collected(list, scans[..n]) == Dedupe(before + AllFound(scans[..n]))
  }

  lemma {:induction false} FullStays(list: seq<Record>, scans: seq<Scan>)
    requires |list| == CAPACITY && Distinct(list)
    ensures Collected(list, scans) == list
    decreases |scans|
  {
    if scans != [] {
      if scans[0].Failed? {
        FullStays(list, scans[1..]);
      } else {
        FullMerges(list, scans[0].records);
      }
    }
  }

  // --------------------------------------------------------------- how much of each scan is taken

  function Records(scan: Scan): seq<Record> {
    if scan.Failed? then [] else scan.records
  }

  function Joined(parts: seq<seq<Record>>): seq<Record> {
    if parts == [] then [] else Joined(parts[..|parts| - 1]) + parts[|parts| - 1]
  }

  function Least(a: int, b: int): int {
    if a <= b then a else b
  }

  /** Of scan i the part is its beginning: all of it, or as much as the distinct names so far leave room for. */
  ghost predicate FillsAt(scans: seq<Scan>, parts: seq<seq<Record>>, i: nat)
    requires i < |scans| == |parts|
  {
    && parts[i] <= Records(scans[i])
    && |parts[i]| == Least(|Records(scans[i])|, CAPACITY - |Dedupe(Joined(parts[..i]))|)
  }

  ghost predicate Fills(scans: seq<Scan>, parts: seq<seq<Record>>) {
    |scans| == |parts| && forall i :: 0 <= i < |scans| ==> FillsAt(scans, parts, i)
  }

  lemma TakenFills(scans: seq<Scan>, parts: seq<seq<Record>>, i: nat)
    requires Fills(scans, parts) && i < |scans| && |Dedupe(Joined(parts[..i]))| <= CAPACITY
    ensures var list := Dedupe(Joined(parts[..i]));
            && Taken(list, Records(scans[i])) == parts[i]
            && Joined(parts[..i + 1]) == Joined(parts[..i]) + parts[i]
            && Merged(list, Records(scans[i])) == Dedupe(Joined(parts[..i + 1]))
            && |Dedupe(Joined(parts[..i + 1]))| <= CAPACITY
  {
    assert FillsAt(scans, parts, i);
    assert parts[..i + 1][..i] == parts[..i];
    MergeIsDedupe(Joined(parts[..i]), Records(scans[i]));
    hide Merged, Dedupe, Joined, Fills;
  }

  lemma DedupeIsDistinct(s: seq<Record>)
    ensures Distinct(Dedupe(s))
  {
    PutAllKeepsDistinct([], s);
  }

  lemma {:induction false} FullTakesNoMore(list: seq<Record>, scans: seq<Scan>)
    requires |list| == CAPACITY && Distinct(list)
    ensures AllTaken(list, scans) == []
    decreases |scans|
  {
    if scans != [] {
      if scans[0].Failed? {
        FullTakesNoMore(list, scans[1..]);
      } else {
        FullMerges(list, scans[0].records);
      }
    }
  }

  lemma ScanJoins(list: seq<Record>, scans: seq<Scan>)
    requires scans != [] && |list| <= CAPACITY && Distinct(list)
    ensures var merged := Merged(list, Records(scans[0]));
            && Collected(list, scans) == Collected(merged, scans[1..])
            && AllTaken(list, scans) == Taken(list, Records(scans[0])) + AllTaken(merged, scans[1..])
  {
    var merged := Merged(list, Records(scans[0]));
    if scans[0].Failed? {
      assert [] + AllTaken(list, scans[1..]) == AllTaken(list, scans[1..]);
    } else if |merged| >= CAPACITY {
      DedupeIsDistinct(list + Taken(list, Records(scans[0])));
      DedupeShrinks([], list + Taken(list, Records(scans[0])));
      FullStays(merged, scans[1..]);
      FullTakesNoMore(merged, scans[1..]);
    }
  }

  lemma {:induction false} CollectedFrom(scans: seq<Scan>, parts: seq<seq<Record>>, n: nat)
    requires Fills(scans, parts) && n <= |scans| && |Dedupe(Joined(parts[..n]))| <= CAPACITY
    ensures var (before, rest) := (Joined(parts[..n]), scans[n..]);
            && Collected(Dedupe(before), rest) == Dedupe(Joined(parts))
            && before + AllTaken(Dedupe(before), rest) == Joined(parts)
    decreases |scans| - n
  {
    var before := Joined(parts[..n]);
    if n == |scans| {
      assert parts[..n] == parts;
    } else {
      hide Dedupe, Joined, Collected, AllTaken, Merged, Taken, Records, Fills, Distinct;
      TakenFills(scans, parts, n);
      CollectedFrom(scans, parts, n + 1);
      assert scans[n..][1..] == scans[n + 1..];
      DedupeIsDistinct(before);
      ScanJoins(Dedupe(before), scans[n..]);
      Regroup(before, parts[n], AllTaken(Dedupe(Joined(parts[..n + 1])), scans[n + 1..]));
    }
  }

  /**
   Whatever the scans find: the list is one removal of duplicates from the parts taken, and the part of each scan is
   its beginning, cut off only where the distinct names collected before it and the part itself fill the buffer.
   */
  lemma CollectedFills(scans: seq<Scan>, parts: seq<seq<Record>>)
    requires Fills(scans, parts)
    ensures Collected([], scans) == Dedupe(Joined(parts)) && AllTaken([], scans) == Joined(parts)
  {
    CollectedFrom(scans, parts, 0);
    assert Joined(parts[..0]) == [] && scans[0..] == scans && [] + AllTaken([], scans) == AllTaken([], scans);
  }

  /** Such parts there are for all scans. */
  lemma {:induction false} PartsOf(scans: seq<Scan>) returns (parts: seq<seq<Record>>)
    ensures Fills(scans, parts)
  {
    if scans == [] {
      parts := [];
    } else {
      var before, last := |scans| - 1, Records(scans[|scans| - 1]);
      var shorter := PartsOf(scans[..before]);
      CollectedFills(scans[..before], shorter);
      CollectedIsDedupe([], scans[..before]);
      var taken := last[..Least(|last|, CAPACITY - |Dedupe(Joined(shorter))|)];
      parts := shorter + [taken];
      forall i | 0 <= i < |scans|
        ensures FillsAt(scans, parts, i)
      {
        assert parts[..i] == shorter[..i];
        if i < before {
          assert FillsAt(scans[..before], shorter, i);
        } else {
          assert shorter[..i] == shorter;
        }
      }
    }
  }

  /** A first scan of thirty or more different names gives exactly its first thirty, and the later scans nothing. */
  lemma FirstThirty(scans: seq<Scan>)
    requires scans != [] && |Records(scans[0])| >= CAPACITY && Distinct(Records(scans[0])[..CAPACITY])
    ensures Collected([], scans) == Records(scans[0])[..CAPACITY]
  {
    var first := Records(scans[0])[..CAPACITY];
    DistinctStays(first);
    assert [] + Taken([], Records(scans[0])) == first;
  }

  lemma FullMerges(list: seq<Record>, records: seq<Record>)
    requires |list| == CAPACITY && Distinct(list)
    ensures Merged(list, records) == list
  {
    DistinctStays(list);
    if records != [] {
      assert list + Taken(list, records) == list;
    }
  }

  lemma BatchNext(before: seq<Record>, scans: seq<Scan>, n: nat)
    requires |Dedupe(before)| <= CAPACITY && n < |scans|
    ensures var list := Dedupe(before);
            if scans[0].Failed? then BatchAfter(list, before, scans, n + 1) <==> BatchAfter(list, before, scans[1..], n)
            else
              var merged, all := Merged(list, scans[0].records), before + scans[0].records;
              BatchAfter(list, before, scans, n + 1) <==> BatchAfter(merged, all, scans[1..], n)
  {
    var s, tail := scans[..n + 1], scans[1..][..n];
    assert s[0] == scans[0] && s[1..] == tail;
    if scans[0].Failed? {
      assert [] + AllFound(tail) == AllFound(tail);
    } else {
      var merged := Merged(Dedupe(before), scans[0].records);
      Regroup(before, scans[0].records, AllFound(tail));
      MergeIsDedupe(before, scans[0].records);
      if |merged| == CAPACITY {
        PutAllKeepsDistinct([], before + Taken(Dedupe(before), scans[0].records));
        FullStays(merged, tail);
      }
    }
  }

  lemma {:induction false} ThroughoutIff(before: seq<Record>, scans: seq<Scan>)
    requires |Dedupe(before)| <= CAPACITY
    ensures BatchThroughout(Dedupe(before), before, scans) <==> ListHasAll(Dedupe(before), scans)
    decreases |scans|
  {
    var list := Dedupe(before);
    assert scans[..0] == [] && before + [] == before;
    assert BatchAfter(list, before, scans, 0);
    if scans != [] {
      forall n | 0 <= n < |scans|
        ensures if scans[0].Failed?
                then BatchAfter(list, before, scans, n + 1) <==> BatchAfter(list, before, scans[1..], n)
                else BatchAfter(list, before, scans, n + 1)
                     <==> BatchAfter(Merged(list, scans[0].records), before + scans[0].records, scans[1..], n)
      {
        BatchNext(before, scans, n);
      }
      if scans[0].Failed? {
        ThroughoutIff(before, scans[1..]);
        ThroughoutNext(list, before, list, before, scans);
      } else {
        var merged, all := Merged(list, scans[0].records), before + scans[0].records;
        ThroughoutNext(list, before, merged, all, scans);
        MergeMissesIff(before, scans[0].records);
        MergeIsDedupe(before, scans[0].records);
        assert scans[1..][..0] == [] && all + [] == all;
        assert BatchAfter(merged, all, scans[1..], 0) <==> merged == Dedupe(all);
        if merged == Dedupe(all) {
          ThroughoutIff(all, scans[1..]);
        }
      }
    }
  }

  lemma ThroughoutNext(list: seq<Record>, before: seq<Record>, next: seq<Record>, all: seq<Record>, scans: seq<Scan>)
    requires scans != [] && BatchAfter(list, before, scans, 0)
    requires forall n :: 0 <= n < |scans| ==>
               (BatchAfter(list, before, scans, n + 1) <==> BatchAfter(next, all, scans[1..], n))
    ensures BatchThroughout(list, before, scans) <==> BatchThroughout(next, all, scans[1..])
  {
    if BatchThroughout(list, before, scans) {
      forall n | 0 <= n <= |scans[1..]|
        ensures BatchAfter(next, all, scans[1..], n)
      {
        assert BatchAfter(list, before, scans, n + 1);
      }
    }
    if BatchThroughout(next, all, scans[1..]) {
      forall n | 0 <= n <= |scans|
        ensures BatchAfter(list, before, scans, n)
      {
        if n > 0 {
          assert BatchAfter(next, all, scans[1..], n - 1);
        }
      }
    }
  }

  /**
   After every scan the list is what removing the duplicates of all records found so far comes to, if and only if
   each record cut off has a namesake at least as strong among those taken by then.
   */
  lemma BatchIff(scans: seq<Scan>)
    ensures (forall n :: 0 <= n <= |scans| ==> Collected([], scans[..n]) == Dedupe(AllFound(scans[..n])))
            <==> NothingMissed([], scans)
  {
    ThroughoutIff([], scans);
    MissedIff([], scans);
    forall n | 0 <= n <= |scans|
      ensures BatchAfter([], [], scans, n) <==> Collected([], scans[..n]) == Dedupe(AllFound(scans[..n]))
    {
      assert [] + AllFound(scans[..n]) == AllFound(scans[..n]);
    }
  }

  // ------------------------------------------------------------------- the list in the end

  /** Of any two of these records, the same one's name is seen first among s and among t. */
  ghost predicate SameFirstSeen(records: seq<Record>, s: seq<Record>, t: seq<Record>) {
    forall q, r :: q in records && r in records ==>
      (FirstOf(s, q.ssid) < FirstOf(s, r.ssid) <==> FirstOf(t, q.ssid) < FirstOf(t, r.ssid))
  }

  lemma LastIsSame(a: seq<Record>, b: seq<Record>, s: seq<Record>, t: seq<Record>)
    requires a != [] && b != [] && FirstSeenOrder(a, s) && FirstSeenOrder(b, t)
    requires (forall r :: r in a <==> r in b) && SameFirstSeen(a, s, t)
    ensures a[|a| - 1] == b[|b| - 1]
  {
    hide FirstOf;
    var p, q := a[|a| - 1], b[|b| - 1];
    assert p in a && q in b;
    var i :| 0 <= i < |a| && a[i] == q;
    var j :| 0 <= j < |b| && b[j] == p;
    assert FirstOf(s, q.ssid) <= FirstOf(s, p.ssid) && FirstOf(t, p.ssid) <= FirstOf(t, q.ssid);
  }

  lemma LastIsOnce(a: seq<Record>, s: seq<Record>, r: Record)
    requires a != [] && FirstSeenOrder(a, s)
    ensures r in a[..|a| - 1] <==> r in a && r != a[|a| - 1]
  {
    if r in a && r != a[|a| - 1] {
      var i :| 0 <= i < |a| && a[i] == r;
      assert a[..|a| - 1][i] == r;
    }
  }

  lemma WithoutLast(a: seq<Record>, b: seq<Record>, s: seq<Record>, t: seq<Record>)
    requires a != [] && b != [] && FirstSeenOrder(a, s) && FirstSeenOrder(b, t) && SameFirstSeen(a, s, t)
    ensures FirstSeenOrder(a[..|a| - 1], s) && FirstSeenOrder(b[..|b| - 1], t) && SameFirstSeen(a[..|a| - 1], s, t)
  {
    hide FirstOf;
    assert forall r :: r in a[..|a| - 1] ==> r in a;
  }

  /** Two lists of the same records in the same order are the same. */
  lemma {:induction false} SameOrderSameList(a: seq<Record>, b: seq<Record>, s: seq<Record>, t: seq<Record>)
    requires FirstSeenOrder(a, s) && FirstSeenOrder(b, t)
    requires (forall r :: r in a <==> r in b) && SameFirstSeen(a, s, t)
    ensures a == b
  {
    hide FirstOf, FirstSeenOrder, SameFirstSeen;
    assert a == [] <==> b == [] by {
      assert a != [] ==> a[0] in b;
      assert b != [] ==> b[0] in a;
    }
    if a != [] {
      LastIsSame(a, b, s, t);
      var last, a', b' := a[|a| - 1], a[..|a| - 1], b[..|b| - 1];
      WithoutLast(a, b, s, t);
      forall r
        ensures r in a' <==> r in b'
      {
        LastIsOnce(a, s, r);
        LastIsOnce(b, t, r);
      }
      SameOrderSameList(a', b', s, t);
      assert a == a' + [last] && b == b' + [last];
    }
  }

  lemma OrderAgrees(list: seq<Record>, s: seq<Record>, t: seq<Record>)
    requires FirstSeenOrder(list, s) && FirstSeenOrder(list, t)
    ensures SameFirstSeen(list, s, t)
  {
    hide FirstOf;
    forall q, r | q in list && r in list
      ensures FirstOf(s, q.ssid) < FirstOf(s, r.ssid) <==> FirstOf(t, q.ssid) < FirstOf(t, r.ssid)
    {
      var i :| 0 <= i < |list| && list[i] == q;
      var j :| 0 <= j < |list| && list[j] == r;
    }
  }

  lemma StandsIsListed(s: seq<Record>, r: Record)
    ensures Stands(r, s) <==> r in Dedupe(s)
  {
    DedupeRepresents(s);
    if Stands(r, s) {
      var i :| 0 <= i < |s| && s[i] == r && EarliestStrongest(s, i);
      var k := FirstOf(Dedupe(s), s[i].ssid);
      var kept := Dedupe(s)[k];
      assert Stands(kept, s);
      var j :| 0 <= j < |s| && s[j] == kept && EarliestStrongest(s, j);
      assert i == j;
    }
  }

  /** Two lists of records come to the same if and only if they agree on the earliest strongest ones and their order. */
  lemma SameDedupeIff(s: seq<Record>, t: seq<Record>)
    ensures Dedupe(s) == Dedupe(t)
            <==> (forall r :: Stands(r, s) <==> Stands(r, t)) && SameFirstSeen(Dedupe(s), s, t)
  {
    hide FirstOf, Dedupe, Stands, Distinct, Covers, AllStand, FirstSeenOrder, SameFirstSeen;
    DedupeRepresents(s);
    DedupeRepresents(t);
    forall r
      ensures Stands(r, s) <==> r in Dedupe(s)
      ensures Stands(r, t) <==> r in Dedupe(t)
    {
      StandsIsListed(s, r);
      StandsIsListed(t, r);
    }
    if (forall r :: Stands(r, s) <==> Stands(r, t)) && SameFirstSeen(Dedupe(s), s, t) {
      SameOrderSameList(Dedupe(s), Dedupe(t), s, t);
    }
    if Dedupe(s) == Dedupe(t) {
      OrderAgrees(Dedupe(s), s, t);
    }
  }

  /**
   The list in the end, whatever was missed on the way: it is the batch result if and only if the records taken and
   the records found agree on the earliest strongest record of every name and on the order the names were first seen.
   */
  lemma FinalIff(scans: seq<Scan>)
    ensures var taken, found := AllTaken([], scans), AllFound(scans);
            Collected([], scans) == Dedupe(found)
            <==> (forall r :: Stands(r, taken) <==> Stands(r, found)) && SameFirstSeen(Dedupe(taken), taken, found)
  {
    CollectedIsDedupe([], scans);
    assert [] + AllTaken([], scans) == AllTaken([], scans);
    SameDedupeIff(AllTaken([], scans), AllFound(scans));
  }

  /**
   And it has every name found, at the strength of its strongest record, if and only if each record found has a
   namesake at least as strong among those taken, then or later.
   */
  lemma FinalStrengthsIff(scans: seq<Scan>)
    ensures Stronger(Collected([], scans), AllFound(scans))
            <==> forall r :: r in AllFound(scans) ==> HasNamesake(AllTaken([], scans), r)
  {
    hide FirstOf, AllFound, AllTaken, HasNamesake;
    var found, taken := AllFound(scans), AllTaken([], scans);
    CollectedIsDedupe([], scans);
    assert [] + taken == taken;
    hide Dedupe, Collected;
    forall r
      ensures HasNamesake(taken, r)
              <==> FirstOf(Dedupe(taken), r.ssid) < |Dedupe(taken)|
                   && r.rssi <= Dedupe(taken)[FirstOf(Dedupe(taken), r.ssid)].rssi
    {
      NamesakeIff(taken, r);
    }
    if Stronger(Dedupe(taken), found) {
      forall r | r in found
        ensures HasNamesake(taken, r)
      {
        var i :| 0 <= i < |found| && found[i] == r;
      }
    }
  }

  /** With one place left, a weaker record of a known name crowds out a new name that the list had room for. */
  lemma KnownNameCrowdsOut(list: seq<Record>, known: Record, novel: Record)
    requires Distinct(list) && |list| == CAPACITY - 1
    requires var k := FirstOf(list, known.ssid); k < |list| && known.rssi <= list[k].rssi
    requires FirstOf(list, novel.ssid) == |list|
    ensures Merged(list, [known, novel]) == list
    ensures Dedupe(list + [known, novel]) == list + [novel] && |list + [novel]| == CAPACITY
  {
    DistinctStays(list);
    PutAllNext([], list, known);
    PutAllNext([], list + [known], novel);
    assert list + [known] + [novel] == list + [known, novel];
    assert Taken(list, [known, novel]) == [known];
  }

  lemma {:induction false} NovelIsMissed(list: seq<Record>, known: Record, novel: Record, rest: seq<Scan>)
    requires |Dedupe(list)| == CAPACITY - 1 && known.ssid != novel.ssid
    requires FirstOf(list, novel.ssid) == |list|
    ensures !NothingMissed(list, [Found([known, novel])] + rest)
  {
    hide FirstOf, Dedupe;
    var records := [known, novel];
    assert Taken(Dedupe(list), records) == [known];
    assert !HasNamesake(list + [known], records[1]);
  }

  lemma {:induction false} OneScan(list: seq<Record>, records: seq<Record>, rest: seq<Scan>)
    requires |Merged(list, records)| < CAPACITY || rest == []
    ensures Collected(list, [Found(records)] + rest) == Collected(Merged(list, records), rest)
    ensures AllFound([Found(records)] + rest) == records + AllFound(rest)
  {
    hide Merged;
    assert ([Found(records)] + rest)[1..] == rest;
  }

  lemma NoScans(list: seq<Record>)
    ensures Collected(list, []) == list && AllFound([]) == []
  {
  }

  /** The next scan brings the new name back, and nothing shows in the end. */
  lemma {:induction false} BroughtBack(list: seq<Record>, known: Record, novel: Record)
    requires Distinct(list) && |list| == CAPACITY - 1
    requires var k := FirstOf(list, known.ssid); k < |list| && known.rssi <= list[k].rssi
    requires FirstOf(list, novel.ssid) == |list|
    ensures var scans := [Found([known, novel]), Found([novel])];
            && !NothingMissed(list, scans)
            && Collected(list, scans) == list + [novel] == Dedupe(list + AllFound(scans))
  {
    KnownNameCrowdsOut(list, known, novel);
    DistinctStays(list);
    PutAllNext([], list, novel);
    assert Merged(list, [novel]) == list + [novel];
    PutAllNext([], list + [known, novel], novel);
    hide NothingMissed, Dedupe, Merged, Collected, AllFound;
    assert [Found([known, novel]), Found([novel])] == [Found([known, novel])] + [Found([novel])];
    NovelIsMissed(list, known, novel, [Found([novel])]);
    OneScan(list, [known, novel], [Found([novel])]);
    OneScan(list, [novel], []);
    assert [Found([novel])] + [] == [Found([novel])];
    NoScans(list + [novel]);
    assert list + ([known, novel] + ([novel] + [])) == (list + [known, novel]) + [novel];
  }

  // -------------------------------------------------------------------------------- in place

  lemma NothingPut()
    ensures Dedupe([]) == []
  {
  }

  /** Removes the duplicates among the first count records; the rest of the buffer stays. */
  method RemoveDuplicates(list: array<Record>, count: nat) returns (newCount: nat)
    requires count <= list.Length
    modifies list
    ensures newCount <= count && list[..newCount] == Dedupe(old(list[..count]))
    ensures list[count..] == old(list[count..])
  {
    hide FirstOf, PutAll;
    newCount := 0;
    NothingPut();
    for i := 0 to count
      invariant newCount <= i
      invariant list[..newCount] == Dedupe(old(list[..i]))
      invariant forall k :: i <= k < list.Length ==> list[k] == old(list[k])
    {
      ghost var kept := list[..newCount];
      assert old(list[..i + 1]) == old(list[..i]) + [list[i]];
      PutAllNext([], old(list[..i]), list[i]);
      var found := FindName(list, newCount, list[i].ssid);
      if found >= 0 {
        if list[i].rssi > list[found].rssi {
          list[found] := list[i];
        }
      } else {
        if i != newCount {
          list[newCount] := list[i];
        }
        newCount := newCount + 1;
      }
    }
  }

  method FindName(list: array<Record>, count: nat, ssid: string) returns (found: int)
    requires count <= list.Length
    ensures var k := FirstOf(list[..count], ssid); found == if k == count then -1 else k
  {
    found := -1;
    var j := 0;
    while j < count
      invariant j <= count && forall k :: 0 <= k < j ==> list[..count][k].ssid != ssid
    {
      if list[j].ssid == ssid {
        FirstIs(list[..count], ssid, j);
        return j;
      }
      j := j + 1;
    }
    FirstIs(list[..count], ssid, count);
  }

  /** Copies what fits behind the records held. */
  method Append(list: array<Record>, count: nat, records: seq<Record>) returns (total: nat)
    requires list.Length == CAPACITY && count <= CAPACITY
    modifies list
    ensures total == Least(count + |records|, CAPACITY)
    ensures list[..total] == old(list[..count]) + records[..total - count]
  {
    ghost var held := list[..count];
    total := count;
    var i := 0;
    while i < |records|
      invariant i <= |records| && total == count + i <= CAPACITY
      invariant list[..total] == held + records[..i]
    {
      if total < CAPACITY {
        list[total] := records[i];
        total := total + 1;
      } else {
        break;
      }
      i := i + 1;
    }
  }

  /** The scans that the radio would answer with, at most three of them, and the list they come to. */
  method ScanStart(scans: seq<Scan>) returns (found: seq<Record>)
    requires |scans| == 3
    ensures found == Collected([], scans) && |found| <= CAPACITY
    ensures forall parts :: Fills(scans, parts) ==> found == Dedupe(Joined(parts))
  {
    var list := new Record[CAPACITY](_ => Record("", 0, 0));
    var total := 0;
    CollectedIsDedupe([], scans);
    var scan := 0;
    while scan < 3
      invariant scan <= 3 && total < CAPACITY && Distinct(list[..total])
      invariant Collected(list[..total], scans[scan..]) == Collected([], scans)
    {
      if scans[scan].Found? {
        var records := scans[scan].records;
        ghost var before := list[..total];
        if records != [] {
          total := Append(list, total, records);
          assert list[..total] == before + Taken(before, records);
          total := RemoveDuplicates(list, total);
          PutAllKeepsDistinct([], before + Taken(before, records));
        }
        assert list[..total] == Merged(before, records);
        if total >= CAPACITY {
          break;
        }
      }
      scan := scan + 1;
    }
    found := list[..total];
    forall parts | Fills(scans, parts)
      ensures found == Dedupe(Joined(parts))
    {
      CollectedFills(scans, parts);
    }
  }
}
