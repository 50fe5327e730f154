/**
 What becomes of a packet in the outbox: when it goes out, when it is sent again and again, and when the
 counter keeps a place for it that nothing gives back.
 */
module MqttProgress {
  import opened MqttOutbox
  import opened MqttRequeue
  import opened MqttDelivery

  /** A turn of the loop whose write succeeds. */
  predicate Writes(e: Event) {
    e.Pump? && e.written
  }

  // -------------------------------------------------- identifiers drawn twice

  /** Sending marks the first packet with the identifier, which need not be the one that was sent. */
  lemma SentStaysQueuedIff(c: Client, i: nat, now: int)
    requires i < |c.items| && c.items[i].pending == Queued && !(c.items[i].kind == Publish && c.items[i].qos == 0)
    ensures var after := Sent(c, i, now).items;
            && |after| == |c.items|
            && (after[i].pending == Queued <==> !LeadsItsId(c.items, i))
            && (!LeadsItsId(c.items, i) ==> after[i] == c.items[i])
  {
    var id := c.items[i].id;
    var f := First(c.items, ById(id));
    FirstAtMost(c.items, ById(id), i);
    var ticked := c.items[f := c.items[f].(tick := now)];
    FirstIs(ticked, ById(id), f);
    assert f == i <==> LeadsItsId(c.items, i) by {
      assert f < i ==> c.items[f].id == id;
    }
  }

  /** So a publish call whose packet is written at once leaves it queued, if its identifier is in use already. */
  lemma PublishedStaysQueuedIff(c: Client, m: Message, now: int, sentAt: int)
    requires Accepted(m) && m.qos > 0 && !OverLimit(c, m.length) && c.phase == Connected && !WindowFull(c)
    ensures var after := Published(c, m, now, sentAt, true).items;
            && |after| == |c.items| + 1
            && (after[|c.items|].pending == Queued <==> Has(c.items, ById(m.id)))
  {
    var stored := Enqueued(c, m.id, Publish, m.qos, m.data, now);
    var n, f := |c.items|, First(stored.items, ById(m.id));
    FirstAtMost(stored.items, ById(m.id), n);
    if Has(c.items, ById(m.id)) {
      FirstAtMost(stored.items, ById(m.id), First(c.items, ById(m.id)));
    } else {
      FirstIs(stored.items, ById(m.id), n);
    }
    FirstIs(SetTick(stored.items, m.id, sentAt), ById(m.id), f);
  }

  /** The first queued packet, of QoS 1 or 2, stands behind another with its identifier. */
  ghost predicate Shadowed(items: seq<Item>, i: nat) {
    && i < |items| && IsCounted(items[i]) && items[i].pending == Queued && !LeadsItsId(items, i)
    && (forall j :: 0 <= j < i ==> items[j].pending != Queued)
  }

  lemma StaysShadowed(c: Client, i: nat, e: Event)
    requires c.phase == Connected && Shadowed(c.items, i) && Writes(e) && !WindowFull(c)
    ensures NextToSend(c) == i
    ensures |Next(c, e).items| == |c.items|
    ensures Shadowed(Next(c, e).items, i) && Next(c, e).items[i] == c.items[i]
    ensures Next(c, e).phase == Connected && Next(c, e).receiveMaximum == c.receiveMaximum
    ensures Next(c, e).count == Increment(c.count)
  {
    FirstIs(c.items, ByState(Queued), i);
    SentStaysQueuedIff(c, i, e.now);
    var j :| 0 <= j < i && c.items[j].id == c.items[i].id;
    assert Next(c, e).items[j].id == c.items[i].id;
  }

  /** Such a packet is written once for every place left in the window, and is still queued then. */
  lemma {:induction false} SentUntilFull(c: Client, w: Wire, i: nat, pumps: seq<Event>)
    requires c.phase == Connected && Shadowed(c.items, i) && forall e :: e in pumps ==> Writes(e)
    requires c.count + |pumps| == c.receiveMaximum < 0x1_0000
    ensures var after, seen := Run(c, pumps), Watch(c, w, pumps);
            && |after.items| == |c.items| && Shadowed(after.items, i) && after.items[i] == c.items[i]
            && after.count == after.receiveMaximum == c.receiveMaximum
            && (pumps != [] ==>
                && seen.open == w.open + {c.items[i].id} && seen.taken == w.taken
                && seen.leaked == w.leaked + |pumps| - (if c.items[i].id in w.open then 0 else 1))
    decreases |pumps|
  {
    if pumps != [] {
      var e := pumps[0];
      StaysShadowed(c, i, e);
      SentUntilFull(Next(c, e), Observe(c, w, e), i, pumps[1..]);
    }
  }

  lemma EventFirst(c: Client, w: Wire, e: Event, rest: seq<Event>)
    ensures Run(c, [e] + rest) == Run(Next(c, e), rest)
    ensures Watch(c, w, [e] + rest) == Watch(Next(c, e), Observe(c, w, e), rest)
  {
    assert ([e] + rest)[1..] == rest;
  }

  lemma ThreeFirst(c: Client, w: Wire, a: Event, b: Event, d: Event, rest: seq<Event>)
    ensures Run(c, [a, b, d] + rest) == Run(Next(Next(Next(c, a), b), d), rest)
    ensures Watch(c, w, [a, b, d] + rest)
            == Watch(Next(Next(Next(c, a), b), d),
                     Observe(Next(Next(c, a), b), Observe(Next(c, a), Observe(c, w, a), b), d), rest)
  {
    hide Next, Observe;
    EventFirst(c, w, a, [b, d] + rest);
    EventFirst(Next(c, a), Observe(c, w, a), b, [d] + rest);
    EventFirst(Next(Next(c, a), b), Observe(Next(c, a), Observe(c, w, a), b), d, rest);
    assert [a, b, d] + rest == [a] + ([b, d] + rest) && [b, d] + rest == [b] + ([d] + rest);
  }

  /** A client that has drawn the identifier 5 for a packet sent and for one queued. */
  lemma Drawn5Twice() returns (events: seq<Event>)
    ensures events == [Connect(true, 10), PublishCall(Small(5, 1), 0, 0, true), EnqueueCall(Small(5, 1), 0, false)]
    ensures Run(Start0(0), events) ==
              Client([Item(5, Publish, 1, 0, Transmitted, []), Item(5, Publish, 1, 0, Queued, [])], 1, 10, Connected, 0)
    ensures Watch(Start0(0), NothingSeen, events) == Wire({5}, 0, 0)
  {
    var connect, publish := Connect(true, 10), PublishCall(Small(5, 1), 0, 0, true);
    var enqueue := EnqueueCall(Small(5, 1), 0, false);
    events := [connect, publish, enqueue];
    var sent, queued := Item(5, Publish, 1, 0, Transmitted, []), Item(5, Publish, 1, 0, Queued, []);
    var c1, c2 := Client([], 0, 10, Connected, 0), Client([sent], 1, 10, Connected, 0);
    assert Next(Start0(0), connect) == c1;
    PublishSmall(c1, NothingSeen, 5, 1);
    assert c1.items + [sent] == [sent] && {} + {5} == {5};
    assert Next(c1, publish) == c2 && Observe(c1, NothingSeen, publish) == Wire({5}, 0, 0);
    assert Next(c2, enqueue) == c2.(items := [sent, queued]) by {
      assert [sent] + [queued] == [sent, queued];
    }
    hide Next, Observe;
    ThreeFirst(Start0(0), NothingSeen, connect, publish, enqueue, []);
    assert events + [] == events;
  }

  /** The same identifier drawn twice: the second packet fills a window of ten by itself. */
  lemma DrawnTwice(pumps: seq<Event>) returns (events: seq<Event>)
    requires |pumps| == 9 && forall e :: e in pumps ==> Writes(e)
    ensures events == [Connect(true, 10), PublishCall(Small(5, 1), 0, 0, true), EnqueueCall(Small(5, 1), 0, false)]
    ensures Run(Start0(0), events).items ==
              [Item(5, Publish, 1, 0, Transmitted, []), Item(5, Publish, 1, 0, Queued, [])]
    ensures var c, w := Run(Start0(0), events + pumps), Watch(Start0(0), NothingSeen, events + pumps);
            |c.items| == 2 && c.items[1].pending == Queued && WindowFull(c) && w == Wire({5}, 0, 9)
  {
    events := Drawn5Twice();
    var c := Run(Start0(0), events);
    hide Run, Watch;
    assert c.items[0].id == c.items[1].id;
    RunOn(Start0(0), NothingSeen, events, pumps);
    SentUntilFull(c, Wire({5}, 0, 0), 1, pumps);
    assert {5} + {5} == {5};
  }

  /**
   A subscription is marked before it is written, and marks the first packet with its identifier: it stays queued if
   the identifier is in use, and the packet that has it counts as sent, whether it was or not.
   */
  lemma SubscribedMarksIff(c: Client, kind: PacketType, id: nat, data: seq<byte>, now: int)
    requires c.phase == Connected && kind != Publish
    requires kind == Subscribe && c.outboxLimit > 0 ==> TotalLen(c.items) <= c.outboxLimit
    ensures var after := Subscribed(c, true, kind, id, data, now).items;
            && |after| == |c.items| + 1
            && (after[|c.items|].pending == Queued <==> Has(c.items, ById(id)))
            && forall i :: 0 <= i < |c.items| ==>
                 after[i] == if c.items[i].id == id && LeadsItsId(c.items, i)
                             then c.items[i].(pending := Transmitted) else c.items[i]
  {
    var stored := Enqueued(c, id, kind, 0, data, now).items;
    var n, f := |c.items|, First(stored, ById(id));
    FirstAtMost(stored, ById(id), n);
    if Has(c.items, ById(id)) {
      FirstAtMost(stored, ById(id), First(c.items, ById(id)));
      FirstIs(c.items, ById(id), f);
    } else {
      FirstIs(stored, ById(id), n);
    }
  }

  /** So a publish that is still queued counts as sent, and nothing is open. */
  lemma MarkedUnsent() returns (events: seq<Event>)
    ensures events == [Connect(true, 10), EnqueueCall(Small(5, 1), 0, false), SubscribeCall(true, Subscribe, 5, [], 0)]
    ensures var c, w := Run(Start0(0), events), Watch(Start0(0), NothingSeen, events);
            && c.items == [Item(5, Publish, 1, 0, Transmitted, []), Item(5, Subscribe, 0, 0, Queued, [])]
            && w == NothingSeen
  {
    var connect, enqueue := Connect(true, 10), EnqueueCall(Small(5, 1), 0, false);
    var subscribe := SubscribeCall(true, Subscribe, 5, [], 0);
    events := [connect, enqueue, subscribe];
    var queued := Item(5, Publish, 1, 0, Queued, []);
    var c1, c2 := Client([], 0, 10, Connected, 0), Client([queued], 0, 10, Connected, 0);
    assert Next(Start0(0), connect) == c1;
    assert Next(c1, enqueue) == c2 by {
      assert [] + [queued] == [queued];
    }
    SubscribedMarksIff(c2, Subscribe, 5, [], 0);
    var c3 := Next(c2, subscribe);
    assert c3.items == [Item(5, Publish, 1, 0, Transmitted, []), Item(5, Subscribe, 0, 0, Queued, [])];
    hide Next, Observe;
    ThreeFirst(Start0(0), NothingSeen, connect, enqueue, subscribe, []);
    assert events + [] == events;
  }

  // ------------------------------------------------------------ going out

  predicate Waits(item: Item, counted: bool) {
    item.pending == Queued && (counted ==> IsCounted(item))
  }

  /** How many packets are queued; with counted, only those of QoS 1 and 2. */
  function Waiting(items: seq<Item>, counted: bool): nat {
    if items == [] then 0 else (if Waits(items[0], counted) then 1 else 0) + Waiting(items[1..], counted)
  }

  lemma {:induction false} WaitingConcat(a: seq<Item>, b: seq<Item>, counted: bool)
    ensures Waiting(a + b, counted) == Waiting(a, counted) + Waiting(b, counted)
  {
    if a == [] {
      assert a + b == b;
    } else {
      assert (a + b)[1..] == a[1..] + b;
      WaitingConcat(a[1..], b, counted);
    }
  }

  lemma WaitingSplit(items: seq<Item>, i: nat, counted: bool)
    requires i < |items|
    ensures Waiting(items, counted)
            == Waiting(items[..i], counted) + (if Waits(items[i], counted) then 1 else 0)
               + Waiting(items[i + 1..], counted)
  {
    assert items == items[..i] + items[i..] && items[i..][1..] == items[i + 1..];
    WaitingConcat(items[..i], items[i..], counted);
  }

  lemma WaitingWithout(items: seq<Item>, i: nat, counted: bool)
    requires i < |items|
    ensures Waiting(Without(items, i), counted)
            == Waiting(items, counted) - if Waits(items[i], counted) then 1 else 0
  {
    WaitingSplit(items, i, counted);
    WaitingConcat(items[..i], items[i + 1..], counted);
  }

  lemma WaitingUpdate(items: seq<Item>, i: nat, item: Item, counted: bool)
    requires i < |items| && !Waits(item, counted)
    ensures Waiting(items[i := item], counted)
            == Waiting(items, counted) - if Waits(items[i], counted) then 1 else 0
  {
    var r := items[i := item];
    assert r[..i] == items[..i] && r[i + 1..] == items[i + 1..];
    WaitingSplit(items, i, counted);
    WaitingSplit(r, i, counted);
  }

  lemma {:induction false} WaitingIsHas(items: seq<Item>)
    ensures Waiting(items, false) > 0 <==> Has(items, ByState(Queued))
    ensures Waiting(items, true) <= Waiting(items, false)
  {
    if items != [] {
      WaitingIsHas(items[1..]);
    }
  }

  /** Every queued packet with an identifier leads it. */
  ghost predicate QueueLeads(items: seq<Item>) {
    forall i :: 0 <= i < |items| && items[i].pending == Queued && items[i].id != 0 ==> LeadsItsId(items, i)
  }

  ghost predicate Numbered(items: seq<Item>) {
    forall i :: 0 <= i < |items| ==> WellNumbered(items[i])
  }

  lemma MarkLeading(c: Client, i: nat, counted: bool, now: int)
    requires i < |c.items| && LeadsItsId(c.items, i)
    ensures Transmit(c, c.items[i].id, counted, now)
            == c.(items := c.items[i := c.items[i].(tick := now, pending := Transmitted)],
                  count := if counted then Increment(c.count) else c.count)
  {
    var id, ticked := c.items[i].id, c.items[i := c.items[i].(tick := now)];
    FirstIs(c.items, ById(id), i);
    FirstIs(ticked, ById(id), i);
  }

  lemma QueueWithout(items: seq<Item>, i: nat)
    requires i < |items| && Numbered(items) && QueueLeads(items)
    ensures Numbered(Without(items, i)) && QueueLeads(Without(items, i))
  {
    var r := Without(items, i);
    forall k | 0 <= k < |r| && r[k].pending == Queued && r[k].id != 0
      ensures LeadsItsId(r, k)
    {
      assert LeadsItsId(items, if k < i then k else k + 1);
    }
  }

  lemma QueueUpdate(items: seq<Item>, i: nat, item: Item)
    requires i < |items| && Numbered(items) && QueueLeads(items)
    requires item.id == items[i].id && item.kind == items[i].kind && item.qos == items[i].qos && item.pending != Queued
    ensures Numbered(items[i := item]) && QueueLeads(items[i := item])
  {
    var r := items[i := item];
    forall k | 0 <= k < |r| && r[k].pending == Queued && r[k].id != 0
      ensures LeadsItsId(r, k)
    {
      assert LeadsItsId(items, k);
    }
  }

  /** What one send leaves of an outbox whose queue leads. */
  lemma SendOne(c: Client, e: Event)
    requires c.phase == Connected && Writes(e) && Numbered(c.items) && QueueLeads(c.items)
    requires Waiting(c.items, false) > 0 && c.count + Waiting(c.items, true) <= c.receiveMaximum < 0x1_0000
    ensures var next := Next(c, e);
            && next.phase == Connected && next.receiveMaximum == c.receiveMaximum
            && Numbered(next.items) && QueueLeads(next.items)
            && Waiting(next.items, false) == Waiting(c.items, false) - 1
            && next.count + Waiting(next.items, true) == c.count + Waiting(c.items, true)
  {
    hide Waiting, Without, Transmit;
    WaitingIsHas(c.items);
    var i := First(c.items, ByState(Queued));
    var item := c.items[i];
    WaitingSplit(c.items, i, true);
    assert NextToSend(c) == i;
    if item.kind == Publish && item.qos == 0 {
      WaitingWithout(c.items, i, false);
      WaitingWithout(c.items, i, true);
      QueueWithout(c.items, i);
    } else {
      assert LeadsItsId(c.items, i);
      var marked := item.(tick := e.now, pending := Transmitted);
      MarkLeading(c, i, item.kind == Publish, e.now);
      WaitingUpdate(c.items, i, marked, false);
      WaitingUpdate(c.items, i, marked, true);
      QueueUpdate(c.items, i, marked);
    }
  }

  /** With nothing queued, a turn of the loop queues nothing. */
  lemma NoneQueued(c: Client, e: Event)
    requires Writes(e) && Waiting(c.items, false) == 0
    ensures Waiting(Next(c, e).items, false) == 0
  {
    WaitingIsHas(c.items);
    var t := First(c.items, ByState(Transmitted));
    if t < |c.items| {
      WaitingUpdate(c.items, t, Duplicate(c.items[t]), false);
    }
  }

  lemma {:induction false} NothingQueued(c: Client, pumps: seq<Event>)
    requires Waiting(c.items, false) == 0 && forall e :: e in pumps ==> Writes(e)
    ensures Waiting(Run(c, pumps).items, false) == 0
    decreases |pumps|
  {
    if pumps != [] {
      NoneQueued(c, pumps[0]);
      NothingQueued(Next(c, pumps[0]), pumps[1..]);
    }
  }

  lemma {:induction false} QueueGoesOut(c: Client, pumps: seq<Event>)
    requires c.phase == Connected && Numbered(c.items) && QueueLeads(c.items)
    requires c.count + Waiting(c.items, true) <= c.receiveMaximum < 0x1_0000
    requires forall e :: e in pumps ==> Writes(e)
    ensures |pumps| >= Waiting(c.items, false) ==> Waiting(Run(c, pumps).items, false) == 0
    ensures |pumps| <= Waiting(c.items, false) ==>
              && Waiting(Run(c, pumps).items, false) == Waiting(c.items, false) - |pumps|
              && Run(c, pumps).phase == Connected
    decreases |pumps|
  {
    if pumps != [] {
      if Waiting(c.items, false) > 0 {
        SendOne(c, pumps[0]);
        QueueGoesOut(Next(c, pumps[0]), pumps[1..]);
      } else {
        NothingQueued(c, pumps);
      }
    }
  }

  /** Packet i is queued behind packet j, which has its identifier. */
  ghost predicate Behind(items: seq<Item>, i: nat, j: nat) {
    && Numbered(items)
    && j < i < |items| && items[i].pending == Queued && items[i].id != 0 && items[j].id == items[i].id
  }

  lemma BehindIsStuck(items: seq<Item>, i: nat, j: nat)
    requires Behind(items, i, j)
    ensures !QueueLeads(items)
  {
    assert !LeadsItsId(items, i);
  }

  /** A change that leaves every number alone, and packet i itself. */
  lemma BehindUpdate(items: seq<Item>, k: nat, item: Item, i: nat, j: nat)
    requires Behind(items, i, j) && k < |items| && (k == i ==> item.pending == Queued)
    requires item.id == items[k].id && item.kind == items[k].kind && item.qos == items[k].qos
    ensures Behind(items[k := item], i, j)
  {
  }

  lemma BehindTransmit(c: Client, id: nat, counted: bool, now: int, i: nat, j: nat)
    requires Behind(c.items, i, j)
    ensures Behind(Transmit(c, id, counted, now).items, i, j)
  {
    var f := First(c.items, ById(id));
    if f < |c.items| {
      var ticked := c.items[f := c.items[f].(tick := now)];
      BehindUpdate(c.items, f, c.items[f].(tick := now), i, j);
      FirstIs(ticked, ById(id), f);
      if c.items[i].id == id {
        FirstAtMost(c.items, ById(id), j);
      }
      BehindUpdate(ticked, f, ticked[f].(pending := Transmitted), i, j);
    }
  }

  lemma BehindWithout(items: seq<Item>, k: nat, i: nat, j: nat)
    requires Behind(items, i, j) && k < |items| && items[k].kind == Publish && items[k].qos == 0
    ensures Behind(Without(items, k), if k < i then i - 1 else i, if k < j then j - 1 else j)
  {
    assert WellNumbered(items[k]);
  }

  lemma BehindRetransmit(c: Client, e: Event, i: nat, j: nat)
    requires Writes(e) && Behind(c.items, i, j)
    ensures Behind(Retransmitted(c, e.now, e.timeout, e.resent, e.released).items, i, j)
  {
    var t := First(c.items, ByState(Transmitted));
    if t < |c.items| {
      BehindUpdate(c.items, t, Duplicate(c.items[t]), i, j);
    }
  }

  lemma BehindNext(c: Client, e: Event, i: nat, j: nat) returns (i': nat, j': nat)
    requires Writes(e) && Behind(c.items, i, j)
    ensures Behind(Next(c, e).items, i', j')
  {
    hide Behind, Transmit, Without, First;
    var s := NextToSend(c);
    i', j' := i, j;
    if c.phase == Connected && s < |c.items| {
      if c.items[s].kind == Publish && c.items[s].qos == 0 {
        i', j' := if s < i then i - 1 else i, if s < j then j - 1 else j;
        BehindWithout(c.items, s, i, j);
      } else {
        BehindTransmit(c, c.items[s].id, c.items[s].kind == Publish, e.now, i, j);
      }
    } else if c.phase == Connected {
      BehindRetransmit(c, e, i, j);
    }
  }

  /** Turns of the loop alone never mark a packet behind another with its identifier. */
  lemma StaysBehind(c: Client, e: Event)
    requires Writes(e) && Numbered(c.items) && !QueueLeads(c.items)
    ensures Numbered(Next(c, e).items) && !QueueLeads(Next(c, e).items)
  {
    var i :| 0 <= i < |c.items| && c.items[i].pending == Queued && c.items[i].id != 0 && !LeadsItsId(c.items, i);
    var j :| 0 <= j < i && c.items[j].id == c.items[i].id;
    hide Next;
    var i', j' := BehindNext(c, e, i, j);
    BehindIsStuck(Next(c, e).items, i', j');
  }

  lemma {:induction false} StaysInQueue(c: Client, pumps: seq<Event>)
    requires Numbered(c.items) && !QueueLeads(c.items) && forall e :: e in pumps ==> Writes(e)
    ensures !QueueLeads(Run(c, pumps).items)
    decreases |pumps|
  {
    if pumps != [] {
      StaysBehind(c, pumps[0]);
      StaysInQueue(Next(c, pumps[0]), pumps[1..]);
    }
  }

  /**
   With room in the window and writes that succeed, the queue is empty after as many turns of the loop as there were
   packets in it, if and only if every queued packet with an identifier is the first one with it.
   */
  lemma AllGoOutIff(c: Client, pumps: seq<Event>)
    requires c.phase == Connected && Numbered(c.items)
    requires c.count + Waiting(c.items, true) <= c.receiveMaximum < 0x1_0000
    requires forall e :: e in pumps ==> Writes(e)
    requires |pumps| >= Waiting(c.items, false)
    ensures !Has(Run(c, pumps).items, ByState(Queued)) <==> QueueLeads(c.items)
  {
    var after := Run(c, pumps).items;
    WaitingIsHas(after);
    if QueueLeads(c.items) {
      QueueGoesOut(c, pumps);
    } else {
      StaysInQueue(c, pumps);
      assert Has(after, ByState(Queued)) by {
        var i :| 0 <= i < |after| && after[i].pending == Queued;
        assert Matches(ByState(Queued), after[i]);
      }
    }
  }

  // ------------------------------------------------------- sent once more

  /** In the outbox, of QoS 1 or 2, and not yet at the stage of PUBREL. */
  ghost predicate Unacknowledged(items: seq<Item>, id: nat) {
    exists i :: 0 <= i < |items| && items[i].id == id && IsCounted(items[i])
                && (items[i].pending == Queued || items[i].pending == Transmitted)
  }

  lemma UnacknowledgedUpdate(items: seq<Item>, k: nat, item: Item, id: nat)
    requires Unacknowledged(items, id) && k < |items| && item.id == items[k].id
    requires item.kind == items[k].kind && item.qos == items[k].qos
    requires item.pending == items[k].pending || item.pending == Transmitted
    ensures Unacknowledged(items[k := item], id)
  {
    var i :| 0 <= i < |items| && items[i].id == id && IsCounted(items[i])
             && (items[i].pending == Queued || items[i].pending == Transmitted);
    assert items[k := item][i].id == id;
  }

  lemma UnacknowledgedWithout(items: seq<Item>, k: nat, id: nat)
    requires Unacknowledged(items, id) && k < |items| && !IsCounted(items[k])
    ensures Unacknowledged(Without(items, k), id)
  {
    var i :| 0 <= i < |items| && items[i].id == id && IsCounted(items[i])
             && (items[i].pending == Queued || items[i].pending == Transmitted);
    assert Without(items, k)[if i < k then i else i - 1] == items[i];
  }

  lemma PumpLeavesUnacknowledged(c: Client, e: Event, id: nat)
    requires Writes(e) && Unacknowledged(c.items, id)
    ensures Unacknowledged(Next(c, e).items, id)
  {
    hide Unacknowledged, First, Without;
    var s := NextToSend(c);
    if c.phase == Connected && s < |c.items| {
      if c.items[s].kind == Publish && c.items[s].qos == 0 {
        UnacknowledgedWithout(c.items, s, id);
      } else {
        var f := First(c.items, ById(c.items[s].id));
        if f < |c.items| {
          UnacknowledgedUpdate(c.items, f, c.items[f].(tick := e.now), id);
        }
        var ticked := SetTick(c.items, c.items[s].id, e.now);
        var g := First(ticked, ById(c.items[s].id));
        if g < |ticked| {
          UnacknowledgedUpdate(ticked, g, ticked[g].(pending := Transmitted), id);
        }
      }
    } else if c.phase == Connected {
      var t := First(c.items, ByState(Transmitted));
      if t < |c.items| {
        UnacknowledgedUpdate(c.items, t, Duplicate(c.items[t]), id);
      }
    }
  }

  lemma {:induction false} PumpsLeaveUnacknowledged(c: Client, pumps: seq<Event>, id: nat)
    requires Unacknowledged(c.items, id) && forall e :: e in pumps ==> Writes(e)
    ensures Unacknowledged(Run(c, pumps).items, id)
    decreases |pumps|
  {
    if pumps != [] {
      PumpLeavesUnacknowledged(c, pumps[0], id);
      PumpsLeaveUnacknowledged(Next(c, pumps[0]), pumps[1..], id);
    }
  }

  lemma {:induction false} PumpsAreAdmissible(c: Client, pumps: seq<Event>)
    requires forall e :: e in pumps ==> Writes(e)
    ensures AdmissibleRun(c, pumps)
    decreases |pumps|
  {
    if pumps != [] {
      assert Writes(pumps[0]);
      PumpsAreAdmissible(Next(c, pumps[0]), pumps[1..]);
    }
  }

  lemma QueueOfUnique(items: seq<Item>)
    requires OutboxInv(items)
    ensures Numbered(items) && QueueLeads(items)
  {
  }

  lemma RequeuedUnacknowledged(items: seq<Item>, id: nat)
    requires Unacknowledged(items, id)
    ensures Unacknowledged(Requeued(items), id)
  {
    var i :| 0 <= i < |items| && items[i].id == id && IsCounted(items[i])
             && (items[i].pending == Queued || items[i].pending == Transmitted);
    assert Requeued(items)[i].id == id;
  }

  lemma UnacknowledgedIsOpen(items: seq<Item>, open: set<nat>, id: nat)
    requires Unacknowledged(items, id) && !Has(items, ByState(Queued)) && OpenInv(items, open)
    ensures id in open
  {
    var i :| 0 <= i < |items| && items[i].id == id && IsCounted(items[i])
             && (items[i].pending == Queued || items[i].pending == Transmitted);
    assert !Matches(ByState(Queued), items[i]);
  }

  /**
   Whatever happened before, on the next connection every QoS 1 or 2 packet that was not acknowledged goes out, and
   so does all else that is queued, within as many turns of the loop as there are packets, when the window has room
   for them and the writes succeed.
   */
  lemma ReconnectSendsAll(c: Client, w: Wire, receiveMaximum: nat, pumps: seq<Event>)
    requires Inv(c, w) && c.phase == Init
    requires Waiting(Requeued(c.items), true) <= receiveMaximum < 0x1_0000
    requires |pumps| == Waiting(Requeued(c.items), false) && forall e :: e in pumps ==> Writes(e)
    ensures var connack := Connect(true, receiveMaximum);
            var c1, w1 := Next(c, connack), Observe(c, w, connack);
            && w1 == NothingSeen
            && Run(c1, pumps).phase == Connected && !Has(Run(c1, pumps).items, ByState(Queued))
            && forall id :: Unacknowledged(c.items, id) ==> id in Watch(c1, w1, pumps).open
  {
    var connack := Connect(true, receiveMaximum);
    var c1, w1 := Next(c, connack), Observe(c, w, connack);
    StepKeeps(c, w, connack);
    QueueOfUnique(c1.items);
    QueueGoesOut(c1, pumps);
    var last := Run(c1, pumps);
    WaitingIsHas(last.items);
    PumpsAreAdmissible(c1, pumps);
    RunKeeps(c1, w1, pumps);
    forall id | Unacknowledged(c.items, id)
      ensures id in Watch(c1, w1, pumps).open
    {
      RequeuedUnacknowledged(c.items, id);
      PumpsLeaveUnacknowledged(c1, pumps, id);
      UnacknowledgedIsOpen(last.items, Watch(c1, w1, pumps).open, id);
    }
  }

  // ------------------------------------------------------- what never leaks

  /** The outbox holds the packet in flight. */
  predicate Held(items: seq<Item>, id: nat) {
    var i := First(items, ById(id));
    i < |items| && AwaitsCompletion(items[i])
  }

  ghost predicate AllHeld(items: seq<Item>, open: set<nat>) {
    forall id :: id in open ==> Held(items, id)
  }

  /** No open packet expires while the connection stands. */
  ghost predicate ExpiresNoneOpen(c: Client, w: Wire, e: Event) {
    e.Expire? && c.phase == Connected ==>
      forall item :: item in c.items && AwaitsCompletion(item) && item.id in w.open ==>
                       !Expired(item, e.now, EXPIRED_TIMEOUT_MS)
  }

  ghost predicate NoneOpenExpires(c: Client, w: Wire, events: seq<Event>)
    decreases |events|
  {
    events == []
    || (ExpiresNoneOpen(c, w, events[0]) && NoneOpenExpires(Next(c, events[0]), Observe(c, w, events[0]), events[1..]))
  }

  lemma HeldUpdate(items: seq<Item>, i: nat, item: Item, id: nat)
    requires i < |items| && Held(items, id)
    requires item.id == items[i].id && (IsCounted(item) <==> IsCounted(items[i]))
    requires InFlight(items[i]) ==> InFlight(item)
    ensures Held(items[i := item], id)
  {
    FirstIs(items[i := item], ById(id), First(items, ById(id)));
  }

  lemma HeldSetPending(items: seq<Item>, k: nat, pending: Pending, id: nat)
    requires Held(items, id) && (pending == Transmitted || pending == Acknowledged)
    ensures Held(SetPending(items, k, pending), id)
  {
    var i := First(items, ById(k));
    if i < |items| {
      HeldUpdate(items, i, items[i].(pending := pending), id);
    }
  }

  lemma HeldTransmit(c: Client, k: nat, counted: bool, now: int, id: nat)
    requires Held(c.items, id)
    ensures Held(Transmit(c, k, counted, now).items, id)
  {
    var i := First(c.items, ById(k));
    if i < |c.items| {
      HeldUpdate(c.items, i, c.items[i].(tick := now), id);
    }
    HeldSetPending(SetTick(c.items, k, now), k, Transmitted, id);
  }

  lemma HeldAppend(items: seq<Item>, item: Item, id: nat)
    requires Held(items, id)
    ensures Held(items + [item], id)
  {
    FirstIs(items + [item], ById(id), First(items, ById(id)));
  }

  lemma WithoutAt(items: seq<Item>, k: nat, j: nat)
    requires k < |items| && j < |items| - 1
    ensures |Without(items, k)| == |items| - 1 && Without(items, k)[j] == items[if j < k then j else j + 1]
  {
  }

  lemma FirstWithout(items: seq<Item>, k: nat, q: Query)
    requires Has(items, q) && k < |items| && k != First(items, q)
    ensures var i := First(items, q);
            var i' := if k < i then i - 1 else i;
            First(Without(items, k), q) == i' && i' < |Without(items, k)| && Without(items, k)[i'] == items[i]
  {
    hide First, Without, Matches;
    var i, r := First(items, q), Without(items, k);
    var i' := if k < i then i - 1 else i;
    WithoutAt(items, k, i');
    forall j | 0 <= j < i'
      ensures !Matches(q, r[j])
    {
      WithoutAt(items, k, j);
    }
    FirstIs(r, q, i');
  }

  lemma HeldWithout(items: seq<Item>, k: nat, id: nat)
    requires Held(items, id) && k < |items| && k != First(items, ById(id))
    ensures Held(Without(items, k), id)
  {
    hide First, Without;
    FirstWithout(items, k, ById(id));
  }

  lemma {:induction false} HeldUnexpired(items: seq<Item>, now: int, timeout: int, id: nat)
    requires Held(items, id) && !Expired(items[First(items, ById(id))], now, timeout)
    ensures Held(Unexpired(items, now, timeout), id)
  {
    var left := Unexpired(items[1..], now, timeout);
    if items[0].id == id {
      assert Unexpired(items, now, timeout)[0] == items[0];
    } else {
      HeldUnexpired(items[1..], now, timeout, id);
      assert ([items[0]] + left)[1..] == left;
      assert Unexpired(items, now, timeout) == if Expired(items[0], now, timeout) then left else [items[0]] + left;
    }
  }

  /** Marked as sent, the packet is held. */
  lemma SentIsHeld(c: Client, k: nat, now: int)
    requires Has(c.items, ById(k)) && IsCounted(c.items[First(c.items, ById(k))])
    ensures Held(Transmit(c, k, true, now).items, k)
  {
    var i := First(c.items, ById(k));
    var ticked := c.items[i := c.items[i].(tick := now)];
    FirstIs(ticked, ById(k), i);
    FirstIs(ticked[i := ticked[i].(pending := Transmitted)], ById(k), i);
  }

  lemma UnusedIsNotOpen(items: seq<Item>, open: set<nat>, id: nat)
    requires AllHeld(items, open) && !Has(items, ById(id))
    ensures id !in open
  {
  }

  lemma HeldPublish(c: Client, w: Wire, e: Event)
    requires Inv(c, w) && c.phase == Connected && AllHeld(c.items, w.open) && e.PublishCall? && Admissible(c, e)
    ensures AllHeld(Next(c, e).items, Observe(c, w, e).open) && Observe(c, w, e).leaked == w.leaked
  {
    var m := e.message;
    var stored := Enqueued(c, m.id, Publish, m.qos, m.data, e.now);
    if Transmits(c, e, m.id) {
      UnusedIsNotOpen(c.items, w.open, m.id);
      FirstIs(stored.items, ById(m.id), |c.items|);
      SentIsHeld(stored, m.id, e.sentAt);
    }
    hide Transmit, Held, First, Inv, TotalLen;
    forall id | id in w.open
      ensures Held(stored.items, id) && Held(Transmit(stored, m.id, true, e.sentAt).items, id)
    {
      HeldAppend(c.items, Item(m.id, Publish, m.qos, e.now, Queued, m.data), id);
      HeldTransmit(stored, m.id, true, e.sentAt, id);
    }
  }

  lemma HeldStore(c: Client, w: Wire, e: Event)
    requires c.phase == Connected && AllHeld(c.items, w.open) && (e.EnqueueCall? || e.SubscribeCall?)
    ensures AllHeld(Next(c, e).items, w.open)
  {
    forall id | id in w.open
      ensures Held(Next(c, e).items, id)
    {
      if e.EnqueueCall? {
        HeldAppend(c.items, Item(e.message.id, Publish, e.message.qos, e.now, Queued, e.message.data), id);
      } else {
        var item := Item(e.id, e.kind, 0, e.now, Queued, e.data);
        HeldAppend(c.items, item, id);
        HeldSetPending(c.items + [item], e.id, Transmitted, id);
      }
    }
  }

  lemma HeldDelete(items: seq<Item>, k: nat, kind: PacketType, id: nat)
    requires Held(items, id) && (k != id || kind != Publish)
    ensures Held(Delete(items, k, kind), id)
  {
    var i := First(items, ByIdAndType(k, kind));
    if i < |items| {
      HeldWithout(items, i, id);
    }
  }

  lemma HeldReceive(c: Client, w: Wire, e: Event)
    requires c.phase == Connected && AllHeld(c.items, w.open) && e.Receive?
    ensures AllHeld(Next(c, e).items, Observe(c, w, e).open) && Observe(c, w, e).leaked == w.leaked
  {
    var p := e.packet;
    forall id | id in Observe(c, w, e).open
      ensures Held(Next(c, e).items, id)
    {
      match p
      case PubRec(k) => HeldSetPending(c.items, k, Acknowledged, id);
      case SubAck(k) => HeldDelete(c.items, k, Subscribe, id);
      case UnsubAck(k) => HeldDelete(c.items, k, Unsubscribe, id);
      case OtherPacket =>
      case PubAck(k) => HeldDelete(c.items, k, Publish, id);
      case PubComp(k) => HeldDelete(c.items, k, Publish, id);
    }
    if IsCompletion(c, e) && p.id in w.open {
      FirstAtMost(c.items, ByIdAndType(p.id, Publish), First(c.items, ById(p.id)));
    }
  }

  lemma QueuedIsNotOpen(items: seq<Item>, open: set<nat>, i: nat)
    requires OutboxInv(items) && AllHeld(items, open)
    requires i < |items| && items[i].pending == Queued && !(items[i].kind == Publish && items[i].qos == 0)
    ensures First(items, ById(items[i].id)) == i && items[i].id !in open
  {
    assert WellNumbered(items[i]);
    FirstIs(items, ById(items[i].id), i);
  }

  lemma HeldSend(c: Client, w: Wire, e: Event)
    requires Inv(c, w) && c.phase == Connected && AllHeld(c.items, w.open)
    requires e.Pump? && e.written && NextToSend(c) < |c.items|
    ensures AllHeld(Next(c, e).items, Observe(c, w, e).open) && Observe(c, w, e).leaked == w.leaked
  {
    var i := NextToSend(c);
    var item := c.items[i];
    if item.kind == Publish && item.qos == 0 {
      forall id | id in w.open
        ensures Held(Without(c.items, i), id)
      {
        HeldWithout(c.items, i, id);
      }
    } else {
      QueuedIsNotOpen(c.items, w.open, i);
      if item.kind == Publish {
        SentIsHeld(c, item.id, e.now);
      }
      hide Transmit, Held, First, Inv;
      forall id | id in w.open
        ensures Held(Next(c, e).items, id)
      {
        HeldTransmit(c, item.id, item.kind == Publish, e.now, id);
      }
    }
  }

  lemma HeldRetransmit(c: Client, w: Wire, e: Event)
    requires c.phase == Connected && AllHeld(c.items, w.open) && e.Pump? && NextToSend(c) == |c.items|
    ensures AllHeld(Next(c, e).items, w.open)
  {
    var t := First(c.items, ByState(Transmitted));
    forall id | id in w.open
      ensures Held(Next(c, e).items, id)
    {
      if t < |c.items| {
        HeldUpdate(c.items, t, Duplicate(c.items[t]), id);
      }
    }
  }

  lemma HeldExpire(c: Client, w: Wire, now: int)
    requires c.phase == Connected && AllHeld(c.items, w.open) && ExpiresNoneOpen(c, w, Expire(now))
    ensures AllHeld(Next(c, Expire(now)).items, w.open)
  {
    forall id | id in w.open
      ensures Held(Unexpired(c.items, now, EXPIRED_TIMEOUT_MS), id)
    {
      assert c.items[First(c.items, ById(id))] in c.items;
      HeldUnexpired(c.items, now, EXPIRED_TIMEOUT_MS, id);
    }
  }

  /** As long as no open packet expires, the outbox holds every open packet, and the counter keeps no other. */
  lemma StaysHeld(c: Client, w: Wire, e: Event)
    requires Inv(c, w) && Admissible(c, e) && (c.phase == Connected ==> AllHeld(c.items, w.open))
    requires ExpiresNoneOpen(c, w, e)
    ensures Next(c, e).phase == Connected ==> AllHeld(Next(c, e).items, Observe(c, w, e).open)
    ensures Observe(c, w, e).leaked == if e.Connect? && e.accepted && c.phase == Init then 0 else w.leaked
  {
    if c.phase == Connected {
      match e
      case PublishCall(_, _, _, _) => HeldPublish(c, w, e);
      case EnqueueCall(_, _, _) => HeldStore(c, w, e);
      case SubscribeCall(_, _, _, _, _) => HeldStore(c, w, e);
      case Expire(now) => HeldExpire(c, w, now);
      case Receive(_) => HeldReceive(c, w, e);
      case Pump(_, written, _, _, _, _) =>
        if NextToSend(c) < |c.items| {
          if written {
            HeldSend(c, w, e);
          }
        } else {
          HeldRetransmit(c, w, e);
        }
      case _ =>
    }
  }

  lemma {:induction false} HeldThroughout(c: Client, w: Wire, events: seq<Event>)
    requires Inv(c, w) && AdmissibleRun(c, events) && NoneOpenExpires(c, w, events) && w.leaked == 0
    requires c.phase == Connected ==> AllHeld(c.items, w.open)
    ensures var after, seen := Run(c, events), Watch(c, w, events);
            seen.leaked == 0 && (after.phase == Connected ==> AllHeld(after.items, seen.open))
    decreases |events|
  {
    if events != [] {
      hide Inv, AllHeld, Next, Observe, Admissible, ExpiresNoneOpen;
      StepKeeps(c, w, events[0]);
      StaysHeld(c, w, events[0]);
      HeldThroughout(Next(c, events[0]), Observe(c, w, events[0]), events[1..]);
    }
  }

  /**
   In every run in which no open packet expires, the outbox holds each of them, nothing leaks, and with an honest
   broker the counter is the number of open packets: what was completed has given its place back.
   */
  lemma NothingLeaks(outboxLimit: nat, events: seq<Event>)
    requires AdmissibleRun(Start0(outboxLimit), events)
    requires NoneOpenExpires(Start0(outboxLimit), NothingSeen, events)
    ensures var c, w := Run(Start0(outboxLimit), events), Watch(Start0(outboxLimit), NothingSeen, events);
            && w.leaked == 0
            && (c.phase == Connected ==> AllHeld(c.items, w.open))
            && (Honest(Start0(outboxLimit), NothingSeen, events) ==> c.count == |w.open|)
  {
    HeldThroughout(Start0(outboxLimit), NothingSeen, events);
    RunKeeps(Start0(outboxLimit), NothingSeen, events);
    if Honest(Start0(outboxLimit), NothingSeen, events) {
      HonestTakesNothing(Start0(outboxLimit), NothingSeen, events);
    }
  }

  lemma {:induction false} NoneExpiredLeft(items: seq<Item>, now: int, timeout: int)
    ensures forall item :: item in Unexpired(items, now, timeout) ==> !Expired(item, now, timeout)
  {
    if items != [] {
      NoneExpiredLeft(items[1..], now, timeout);
    }
  }

  lemma ExpiredIsGone(items: seq<Item>, item: Item, now: int)
    requires UniqueIds(items) && item in items && item.id != 0 && Expired(item, now, EXPIRED_TIMEOUT_MS)
    ensures !Has(Unexpired(items, now, EXPIRED_TIMEOUT_MS), ByIdAndType(item.id, Publish))
  {
    var left := Unexpired(items, now, EXPIRED_TIMEOUT_MS);
    var i :| 0 <= i < |items| && items[i] == item;
    NoneExpiredLeft(items, now, EXPIRED_TIMEOUT_MS);
    UnexpiredIsPart(items, now, EXPIRED_TIMEOUT_MS);
    forall k | 0 <= k < |left|
      ensures !Matches(ByIdAndType(item.id, Publish), left[k])
    {
      assert left[k] in items;
      var j :| 0 <= j < |items| && items[j] == left[k];
      assert j != i;
    }
  }

  /** After an expiry some completion leaks if and only if an open packet was among what expired. */
  lemma ExpiryLeaksIff(c: Client, w: Wire, now: int)
    requires Inv(c, w) && c.phase == Connected && AllHeld(c.items, w.open)
    ensures var next := Next(c, Expire(now));
            (exists id :: Observe(next, w, Receive(PubAck(id))).leaked > w.leaked)
            <==> !ExpiresNoneOpen(c, w, Expire(now))
  {
    var next := Next(c, Expire(now));
    if ExpiresNoneOpen(c, w, Expire(now)) {
      HeldExpire(c, w, now);
      forall id
        ensures Observe(next, w, Receive(PubAck(id))).leaked == w.leaked
      {
        HeldReceive(next, w, Receive(PubAck(id)));
      }
    } else {
      var item :| item in c.items && AwaitsCompletion(item) && item.id in w.open
                  && Expired(item, now, EXPIRED_TIMEOUT_MS);
      ExpiredIsGone(c.items, item, now);
      assert Observe(next, w, Receive(PubAck(item.id))).leaked == w.leaked + 1;
    }
  }
}
