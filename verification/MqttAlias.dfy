/**
 Topic aliases of incoming PUBLISH packets: a list of alias and topic pairs that stands for a map, and the
 topic each packet resolves to over a whole sequence of packets and reconnects.
 */
module MqttAlias {
  import opened Common

  type byte = bv8
  type Topic = seq<byte>

  datatype Pair = Pair(alias: nat, topic: Topic)

  /** The position of the first pair with this alias, or |pairs|. */
  function Position(pairs: seq<Pair>, alias: nat): (i: nat)
    ensures i <= |pairs|
    ensures i < |pairs| ==> pairs[i].alias == alias
    ensures forall j :: 0 <= j < i ==> pairs[j].alias != alias
  {
    if pairs == [] || pairs[0].alias == alias then 0 else 1 + Position(pairs[1..], alias)
  }

  ghost predicate UniqueAliases(pairs: seq<Pair>) {
    forall i, j :: 0 <= i < j < |pairs| ==> pairs[i].alias != pairs[j].alias
  }

  /** The map the list stands for. */
  ghost function AsMap(pairs: seq<Pair>): map<nat, Topic> {
    if pairs == [] then map[] else AsMap(pairs[1..])[pairs[0].alias := pairs[0].topic]
  }

  lemma {:induction false} AsMapAt(pairs: seq<Pair>, alias: nat)
    ensures alias in AsMap(pairs) <==> Position(pairs, alias) < |pairs|
    ensures alias in AsMap(pairs) ==> AsMap(pairs)[alias] == pairs[Position(pairs, alias)].topic
  {
    if pairs != [] {
      AsMapAt(pairs[1..], alias);
    }
  }

  lemma {:induction false} AsMapAppend(pairs: seq<Pair>, alias: nat, topic: Topic)
    requires Position(pairs, alias) == |pairs|
    ensures AsMap(pairs + [Pair(alias, topic)]) == AsMap(pairs)[alias := topic]
  {
    if pairs == [] {
      assert ([] + [Pair(alias, topic)])[1..] == [];
    } else {
      assert (pairs + [Pair(alias, topic)])[1..] == pairs[1..] + [Pair(alias, topic)];
      AsMapAppend(pairs[1..], alias, topic);
    }
  }

  lemma {:induction false} AsMapUpdate(pairs: seq<Pair>, i: nat, topic: Topic)
    requires i < |pairs| && i == Position(pairs, pairs[i].alias)
    ensures AsMap(pairs[i := Pair(pairs[i].alias, topic)]) == AsMap(pairs)[pairs[i].alias := topic]
  {
    var alias := pairs[i].alias;
    if i == 0 {
      assert pairs[0 := Pair(alias, topic)][1..] == pairs[1..];
    } else {
      assert pairs[i := Pair(alias, topic)][1..] == pairs[1..][i - 1 := Pair(alias, topic)];
      AsMapUpdate(pairs[1..], i - 1, topic);
    }
  }

  predicate NulFree(topic: Topic) {
    0 !in topic
  }

  /** strncmp over n bytes: a zero byte common to both ends the comparison early. */
  predicate EqualUpTo(a: Topic, b: Topic, n: nat)
    requires n <= |a| && n <= |b|
    decreases n
  {
    n == 0 || (a[0] == b[0] && (a[0] == 0 || EqualUpTo(a[1..], b[1..], n - 1)))
  }

  lemma {:induction false} EqualUpToIsEqual(a: Topic, b: Topic)
    requires NulFree(a) && |a| == |b|
    ensures EqualUpTo(a, b, |a|) <==> a == b
  {
    if a != [] {
      EqualUpToIsEqual(a[1..], b[1..]);
      assert a == [a[0]] + a[1..] && b == [b[0]] + b[1..];
    }
  }

  /** What counts as no change: equal lengths, and no difference before a common zero byte. */
  predicate SameTopic(a: Topic, b: Topic) {
    |a| == |b| && EqualUpTo(a, b, |a|)
  }

  /** The map with the alias set, unless it has the same topic already. */
  function With(m: map<nat, Topic>, alias: nat, topic: Topic): map<nat, Topic> {
    if alias in m && SameTopic(topic, m[alias]) then m else m[alias := topic]
  }

  /** For topics as section 1.5.4 of MQTT 5.0 wants them the alias has that topic afterwards. */
  lemma WithNulFree(m: map<nat, Topic>, alias: nat, topic: Topic)
    requires NulFree(topic)
    ensures With(m, alias, topic) == m[alias := topic]
  {
    if alias in m && |m[alias]| == |topic| {
      EqualUpToIsEqual(topic, m[alias]);
    }
  }

  class AliasTable {
    var pairs: seq<Pair>

    ghost predicate Valid()
      reads this
    {
      UniqueAliases(pairs)
    }

    constructor ()
      ensures Valid() && AsMap(pairs) == map[]
    {
      pairs := [];
    }

    method Find(alias: nat) returns (i: nat)
      ensures i == Position(pairs, alias)
    {
      i := 0;
      while i < |pairs| && pairs[i].alias != alias
        invariant i <= |pairs|
        invariant forall j :: 0 <= j < i ==> pairs[j].alias != alias
      {
        i := i + 1;
      }
    }

    method Update(alias: nat, topic: Topic)
      requires Valid()
      modifies this
      ensures Valid() && AsMap(pairs) == With(AsMap(old(pairs)), alias, topic)
      ensures NulFree(topic) ==> AsMap(pairs) == AsMap(old(pairs))[alias := topic]
    {
      if NulFree(topic) {
        WithNulFree(AsMap(pairs), alias, topic);
      }
      var i := Find(alias);
      AsMapAt(pairs, alias);
      if i < |pairs| {
        if !SameTopic(topic, pairs[i].topic) {
          AsMapUpdate(pairs, i, topic);
          pairs := pairs[i := Pair(pairs[i].alias, topic)];
        }
      } else {
        AsMapAppend(pairs, alias, topic);
        pairs := pairs + [Pair(alias, topic)];
      }
    }

    method Get(alias: nat) returns (topic: Option<Topic>)
      ensures topic == if alias in AsMap(pairs) then Some(AsMap(pairs)[alias]) else None
    {
      var i := Find(alias);
      AsMapAt(pairs, alias);
      return if i < |pairs| then Some(pairs[i].topic) else None;
    }

    /** The alias part of reading an incoming PUBLISH; None drops the connection. */
    method ResolveTopic(aliasMaximum: nat, alias: nat, topic: Topic) returns (resolved: Option<Topic>)
      requires Valid()
      modifies this
      ensures Valid()
      ensures NulFree(topic) ==> AsMap(pairs) == Learned(aliasMaximum, AsMap(old(pairs)), Packet(alias, topic))
      ensures AsMap(pairs) == if 0 < alias <= aliasMaximum && topic != [] then With(AsMap(old(pairs)), alias, topic)
                              else AsMap(old(pairs))
      ensures resolved == Resolved(aliasMaximum, AsMap(old(pairs)), Packet(alias, topic))
    {
      if alias > aliasMaximum {
        return None;
      }
      if alias != 0 {
        if topic == [] {
          resolved := Get(alias);
          return resolved;
        }
        Update(alias, topic);
      }
      return Some(topic);
    }
  }

  // -------------------------------------------------- sequences of packets

  datatype Event = Packet(alias: nat, topic: Topic) | Reconnect

  function Learned(aliasMaximum: nat, m: map<nat, Topic>, e: Event): map<nat, Topic> {
    if e.Packet? && 0 < e.alias <= aliasMaximum && e.topic != [] then m[e.alias := e.topic] else m
  }

  function Resolved(aliasMaximum: nat, m: map<nat, Topic>, e: Event): Option<Topic>
    requires e.Packet?
  {
    if e.alias > aliasMaximum then None
    else if e.alias == 0 || e.topic != [] then Some(e.topic)
    else if e.alias in m then Some(m[e.alias])
    else None
  }

  /** The aliases held before event k. The list outlives a reconnect. */
  function Table(aliasMaximum: nat, events: seq<Event>, k: nat): map<nat, Topic>
    requires k <= |events|
  {
    if k == 0 then map[] else Learned(aliasMaximum, Table(aliasMaximum, events, k - 1), events[k - 1])
  }

  predicate Sets(aliasMaximum: nat, e: Event, alias: nat) {
    e.Packet? && e.alias == alias && 0 < alias <= aliasMaximum && e.topic != []
  }

  /** The latest event before k that set the alias, or |events| when none did. */
  ghost predicate LatestSetting(aliasMaximum: nat, events: seq<Event>, k: nat, alias: nat, j: nat)
    requires k <= |events|
  {
    && j < k && Sets(aliasMaximum, events[j], alias)
    && forall i :: j < i < k ==> !Sets(aliasMaximum, events[i], alias)
  }

  lemma {:induction false} TableIsLatest(aliasMaximum: nat, events: seq<Event>, k: nat, alias: nat)
    requires k <= |events|
    ensures alias in Table(aliasMaximum, events, k) <==> exists j :: 0 <= j < k && Sets(aliasMaximum, events[j], alias)
    ensures forall j :: 0 <= j < k && LatestSetting(aliasMaximum, events, k, alias, j) ==>
              alias in Table(aliasMaximum, events, k) && Table(aliasMaximum, events, k)[alias] == events[j].topic
  {
    if k > 0 {
      TableIsLatest(aliasMaximum, events, k - 1, alias);
      if Sets(aliasMaximum, events[k - 1], alias) {
        assert alias in Table(aliasMaximum, events, k);
      } else {
        forall j | 0 <= j < k && LatestSetting(aliasMaximum, events, k, alias, j)
          ensures alias in Table(aliasMaximum, events, k) && Table(aliasMaximum, events, k)[alias] == events[j].topic
        {
          assert LatestSetting(aliasMaximum, events, k - 1, alias, j);
        }
      }
    }
  }

  /** A packet without a topic resolves to the topic last sent with its alias, whatever came between. */
  lemma EmptyTopicResolves(aliasMaximum: nat, events: seq<Event>, k: nat, j: nat)
    requires k < |events| && events[k].Packet? && events[k].topic == [] && events[k].alias != 0
    requires j < k && LatestSetting(aliasMaximum, events, k, events[k].alias, j)
    ensures Resolved(aliasMaximum, Table(aliasMaximum, events, k), events[k]) == Some(events[j].topic)
  {
    TableIsLatest(aliasMaximum, events, k, events[k].alias);
  }

  /**
   What each packet of a run resolves to, told by the packets alone: its own topic if it has one or no alias, else the
   topic last sent with its alias; and nothing exactly when its alias is out of range, or was never set.
   */
  lemma ResolvesIff(aliasMaximum: nat, events: seq<Event>, k: nat, topic: Topic)
    requires k < |events| && events[k].Packet?
    ensures var e, resolved := events[k], Resolved(aliasMaximum, Table(aliasMaximum, events, k), events[k]);
            && (resolved == Some(topic) <==>
                  && e.alias <= aliasMaximum
                  && if e.topic != [] || e.alias == 0 then topic == e.topic
                     else exists j: nat :: LatestSetting(aliasMaximum, events, k, e.alias, j)
                                        && topic == events[j].topic)
            && (resolved == None <==>
                  || e.alias > aliasMaximum
                  || (e.topic == [] && e.alias != 0
                      && forall j :: 0 <= j < k ==> !Sets(aliasMaximum, events[j], e.alias)))
  {
    var alias := events[k].alias;
    TableIsLatest(aliasMaximum, events, k, alias);
    if j: nat :| j < k && Sets(aliasMaximum, events[j], alias) {
      var latest := LatestOf(aliasMaximum, events, k, alias, j);
    }
  }

  lemma {:induction false} LatestOf(aliasMaximum: nat, events: seq<Event>, k: nat, alias: nat, j: nat) returns (l: nat)
    requires j < k <= |events| && Sets(aliasMaximum, events[j], alias)
    ensures LatestSetting(aliasMaximum, events, k, alias, l)
  {
    if Sets(aliasMaximum, events[k - 1], alias) {
      l := k - 1;
    } else {
      l := LatestOf(aliasMaximum, events, k - 1, alias, j);
    }
  }

  /** Section 3.3.2.3.4 of MQTT 5.0: an alias stands for a topic only on the connection it was set on. */
  ghost function ByTheStandard(aliasMaximum: nat, events: seq<Event>, k: nat): map<nat, Topic>
    requires k <= |events|
  {
    if k == 0 || events[k - 1].Reconnect? then map[]
    else Learned(aliasMaximum, ByTheStandard(aliasMaximum, events, k - 1), events[k - 1])
  }

  lemma {:induction false} StandardIsPartOfTable(aliasMaximum: nat, events: seq<Event>, k: nat, alias: nat)
    requires k <= |events|
    ensures alias in ByTheStandard(aliasMaximum, events, k) ==>
              && alias in Table(aliasMaximum, events, k)
              && Table(aliasMaximum, events, k)[alias] == ByTheStandard(aliasMaximum, events, k)[alias]
  {
    if k > 0 {
      StandardIsPartOfTable(aliasMaximum, events, k - 1, alias);
    }
  }

  /**
   The client agrees with the standard on a packet without a topic if and only if its alias was set on this
   connection, or on none at all: an alias left over from an earlier connection is still honoured.
   */
  lemma AgreesWithStandardIff(aliasMaximum: nat, events: seq<Event>, k: nat)
    requires k < |events| && events[k].Packet? && events[k].topic == [] && 0 < events[k].alias <= aliasMaximum
    ensures var alias := events[k].alias;
            Resolved(aliasMaximum, Table(aliasMaximum, events, k), events[k])
              == Resolved(aliasMaximum, ByTheStandard(aliasMaximum, events, k), events[k])
            <==> (alias in ByTheStandard(aliasMaximum, events, k)
                  || forall j :: 0 <= j < k ==> !Sets(aliasMaximum, events[j], alias))
  {
    StandardIsPartOfTable(aliasMaximum, events, k, events[k].alias);
    TableIsLatest(aliasMaximum, events, k, events[k].alias);
  }
}
