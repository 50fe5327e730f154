/**
 What each step of the delivery engine leaves of the outbox, the counter and the connection, told packet by packet
 by positions, bytes and clocks, and by none of the functions that make up the steps.
 */
module MqttTurns {
  import opened MqttOutbox
  import opened MqttDelivery

  // -------------------------------------------------------------------------- which packet

  ghost predicate IsFirst(items: seq<Item>, i: nat, pending: Pending) {
    i < |items| && items[i].pending == pending && forall j :: 0 <= j < i ==> items[j].pending != pending
  }

  ghost predicate HasIdFirst(items: seq<Item>, i: nat, id: nat) {
    i < |items| && items[i].id == id && forall j :: 0 <= j < i ==> items[j].id != id
  }

  ghost predicate IsQos0(item: Item) {
    item.kind == Publish && item.qos == 0
  }

  /** The window is full and the earliest packet queued is of QoS 1 or 2. */
  ghost predicate HeldBack(c: Client) {
    c.count >= c.receiveMaximum && exists i: nat :: IsFirst(c.items, i, Queued) && IsCounted(c.items[i])
  }

  /** The earliest packet queued goes; if it is held back, the first packet without identifier, when that is queued. */
  ghost predicate Goes(c: Client, i: nat) {
    if HeldBack(c) then HasIdFirst(c.items, i, 0) && c.items[i].pending == Queued && IsQos0(c.items[i])
    else IsFirst(c.items, i, Queued)
  }

  lemma FirstIsFirst(items: seq<Item>, i: nat, pending: Pending)
    ensures IsFirst(items, i, pending) <==> i == First(items, ByState(pending)) < |items|
  {
    if IsFirst(items, i, pending) {
      FirstIs(items, ByState(pending), i);
    }
  }

  lemma FirstHasId(items: seq<Item>, i: nat, id: nat)
    ensures HasIdFirst(items, i, id) <==> i == First(items, ById(id)) < |items|
  {
    if HasIdFirst(items, i, id) {
      FirstIs(items, ById(id), i);
    }
  }

  /** The packet that a turn of the loop sends is the one that may go, and it sends none only when none may go. */
  lemma GoesIff(c: Client)
    ensures forall i: nat :: Goes(c, i) <==> i == NextToSend(c) < |c.items|
  {
    var first := First(c.items, ByState(Queued));
    FirstIsFirst(c.items, first, Queued);
    assert HeldBack(c) <==> WindowFull(c) && first < |c.items| && IsCounted(c.items[first]) by {
      if HeldBack(c) {
        var k: nat :| IsFirst(c.items, k, Queued) && IsCounted(c.items[k]);
        FirstIsFirst(c.items, k, Queued);
      }
    }
    forall i: nat
      ensures Goes(c, i) <==> i == NextToSend(c) < |c.items|
    {
      FirstIsFirst(c.items, i, Queued);
      FirstHasId(c.items, i, 0);
    }
  }

  // ------------------------------------------------------------------------------ one turn

  /** The first packet with the identifier is marked and takes the time; all others are as they were. */
  ghost predicate MarksOne(was: seq<Item>, items: seq<Item>, id: nat, now: int) {
    |items| == |was| && forall j :: 0 <= j < |was| ==>
      items[j] == if HasIdFirst(was, j, id) then was[j].(tick := now, pending := Transmitted) else was[j]
  }

  /** The packet at i is gone; all others are as they were. */
  ghost predicate DropsOne(was: seq<Item>, items: seq<Item>, i: nat) {
    && i < |was| == |items| + 1
    && forall j :: 0 <= j < |items| ==> items[j] == was[if j < i then j else j + 1]
  }

  /** Bit 3 of the first byte is set, every other bit and byte is the same. */
  ghost predicate DupIsSet(was: seq<byte>, data: seq<byte>) {
    && |data| == |was| && (forall b :: 0 < b < |was| ==> data[b] == was[b])
    && (was != [] ==> data[0] & 8 == 8 && data[0] & 0xF7 == was[0] & 0xF7)
  }

  /** The packet to be repeated: the first TRANSMITTED one if it is older than the timeout. */
  ghost predicate IsOld(items: seq<Item>, i: nat, pending: Pending, now: int, timeout: int) {
    IsFirst(items, i, pending) && now - items[i].tick > timeout
  }

  ghost predicate FailsToRepeat(c: Client, now: int, timeout: int, resent: bool, released: bool) {
    || (!resent && exists t: nat :: IsOld(c.items, t, Transmitted, now, timeout))
    || (!released && exists a: nat :: IsOld(c.items, a, Acknowledged, now, timeout))
  }

  /**
   What repeating leaves: the DUP flag is set on the first TRANSMITTED packet if that is old and a PUBLISH of QoS 1 or
   2, and on no other; the connection drops exactly when the write of that packet fails, or of the PUBREL for the
   first ACKNOWLEDGED packet when that is old.
   */
  ghost predicate Repeats(c: Client, next: Client, now: int, timeout: int, resent: bool, released: bool) {
    && |next.items| == |c.items|
    && (forall j :: 0 <= j < |c.items| ==>
          && next.items[j] == c.items[j].(data := next.items[j].data)
          && if IsOld(c.items, j, Transmitted, now, timeout) && IsCounted(c.items[j])
             then DupIsSet(c.items[j].data, next.items[j].data)
             else next.items[j].data == c.items[j].data)
    && next.phase == (if FailsToRepeat(c, now, timeout, resent, released) then WaitReconnect else c.phase)
    && next == c.(items := next.items, phase := next.phase)
  }

  lemma OldIff(items: seq<Item>, pending: Pending, now: int, timeout: int)
    ensures forall i: nat :: IsOld(items, i, pending, now, timeout) <==>
              i == First(items, ByState(pending)) < |items| && Expired(items[i], now, timeout)
    ensures (exists i: nat :: IsOld(items, i, pending, now, timeout)) <==>
              var i := First(items, ByState(pending)); i < |items| && Expired(items[i], now, timeout)
  {
    forall i: nat
      ensures IsFirst(items, i, pending) <==> i == First(items, ByState(pending)) < |items|
    {
      FirstIsFirst(items, i, pending);
    }
    var i := First(items, ByState(pending));
    assert IsOld(items, i, pending, now, timeout) <==> i < |items| && Expired(items[i], now, timeout);
  }

  lemma SameFirst(was: seq<Item>, items: seq<Item>, pending: Pending)
    requires |was| == |items| && forall j :: 0 <= j < |was| ==> items[j].pending == was[j].pending
    ensures First(was, ByState(pending)) == First(items, ByState(pending))
  {
    FirstIs(items, ByState(pending), First(was, ByState(pending)));
  }

  lemma DupIsBitThree(data: seq<byte>)
    ensures DupIsSet(data, WithDup(data))
  {
    if data != [] {
      assert (data[0] | 8) & 8 == 8 && (data[0] | 8) & 0xF7 == data[0] & 0xF7;
    }
  }

  lemma RepeatedAt(c: Client, t: nat, phase: Phase, now: int, timeout: int, resent: bool, released: bool)
    requires t == First(c.items, ByState(Transmitted)) < |c.items| && Expired(c.items[t], now, timeout)
    requires phase == if FailsToRepeat(c, now, timeout, resent, released) then WaitReconnect else c.phase
    ensures Repeats(c, c.(items := c.items[t := Duplicate(c.items[t])], phase := phase),
                    now, timeout, resent, released)
  {
    OldIff(c.items, Transmitted, now, timeout);
    DupIsBitThree(c.items[t].data);
    hide First, IsOld, DupIsSet, FailsToRepeat, WithDup;
  }

  lemma NotRepeated(c: Client, phase: Phase, now: int, timeout: int, resent: bool, released: bool)
    requires var t := First(c.items, ByState(Transmitted)); t == |c.items| || !Expired(c.items[t], now, timeout)
    requires phase == if FailsToRepeat(c, now, timeout, resent, released) then WaitReconnect else c.phase
    ensures Repeats(c, c.(phase := phase), now, timeout, resent, released)
  {
    OldIff(c.items, Transmitted, now, timeout);
    hide First, IsOld, DupIsSet, FailsToRepeat, WithDup;
  }

  lemma RepeatEffect(c: Client, now: int, timeout: int, resent: bool, released: bool)
    ensures Repeats(c, Retransmitted(c, now, timeout, resent, released), now, timeout, resent, released)
  {
    var next := Retransmitted(c, now, timeout, resent, released);
    var t := First(c.items, ByState(Transmitted));
    OldIff(c.items, Transmitted, now, timeout);
    OldIff(c.items, Acknowledged, now, timeout);
    SameFirst(c.items, next.items, Acknowledged);
    hide First, IsOld, DupIsSet, Repeats, WithDup;
    if t < |c.items| && Expired(c.items[t], now, timeout) {
      RepeatedAt(c, t, next.phase, now, timeout, resent, released);
    } else {
      NotRepeated(c, next.phase, now, timeout, resent, released);
    }
  }

  /** The bytes 0x32 of a PUBLISH of QoS 1 become 0x3A when it is repeated. */
  lemma RepeatedWithDup(id: nat, rest: seq<byte>)
    ensures var sent := Item(id, Publish, 1, 0, Transmitted, [0x32] + rest);
            var c := Client([sent], 1, 1, Connected, 0);
            Next(c, Pump(2000, true, true, 1000, true, true)) == c.(items := [sent.(data := [0x3A] + rest)])
  {
    var data: seq<byte> := [0x32] + rest;
    var sent := Item(id, Publish, 1, 0, Transmitted, data);
    assert (0x32 as byte) | 8 == 0x3A;
    assert data[0 := data[0] | 8] == [0x3A] + rest;
    FirstIs([sent], ByState(Queued), 1);
    FirstIs([sent], ByState(Transmitted), 0);
    assert Duplicate(sent) == sent.(data := [0x3A] + rest);
    FirstIs([Duplicate(sent)], ByState(Acknowledged), 1);
  }

  /**
   What sending packet i leaves: a QoS 0 packet is gone, of any other the first with its identifier is marked, and one
   of QoS 1 or 2 is counted; a write that fails drops the connection and does nothing else.
   */
  ghost predicate Sends(c: Client, next: Client, i: nat, written: bool, now: int)
    requires i < |c.items|
  {
    if !written then next == c.(phase := WaitReconnect)
    else
      && next == c.(items := next.items, count := next.count)
      && if IsQos0(c.items[i]) then DropsOne(c.items, next.items, i) && next.count == c.count
         else
           && MarksOne(c.items, next.items, c.items[i].id, now)
           && next.count == if IsCounted(c.items[i]) then (c.count + 1) % 0x1_0000 else c.count
  }

  /** A turn of the loop on a connection, told by the packet that goes, or by those that are repeated. */
  ghost predicate Turns(c: Client, next: Client, e: Event)
    requires e.Pump?
  {
    && (forall i: nat :: Goes(c, i) ==> Sends(c, next, i, e.written, e.now))
    && ((forall i: nat :: !Goes(c, i)) ==>
          if e.due then Repeats(c, next, e.now, e.timeout, e.resent, e.released) else next == c)
  }

  lemma MarkEffect(items: seq<Item>, id: nat, now: int)
    ensures MarksOne(items, SetPending(SetTick(items, id, now), id, Transmitted), id, now)
  {
    var f := First(items, ById(id));
    if f < |items| {
      FirstIs(SetTick(items, id, now), ById(id), f);
    }
    forall j: nat
      ensures HasIdFirst(items, j, id) <==> j == f < |items|
    {
      FirstHasId(items, j, id);
    }
  }

  lemma DropEffect(items: seq<Item>, i: nat)
    requires i < |items|
    ensures DropsOne(items, Without(items, i), i)
  {
  }

  lemma SentEffect(c: Client, i: nat, now: int)
    requires i < |c.items|
    ensures Sends(c, Sent(c, i, now), i, true, now)
  {
    DropEffect(c.items, i);
    MarkEffect(c.items, c.items[i].id, now);
    hide MarksOne, DropsOne, Without, SetPending, SetTick;
  }

  lemma FailEffect(c: Client, i: nat, now: int)
    requires i < |c.items|
    ensures Sends(c, c.(phase := WaitReconnect), i, false, now)
  {
  }

  lemma TurnEffect(c: Client, e: Event)
    requires e.Pump? && c.phase == Connected
    ensures Turns(c, Next(c, e), e)
  {
    GoesIff(c);
    hide NextToSend, Repeats, Goes, Sends, Sent, Retransmitted;
    var i := NextToSend(c);
    if i < |c.items| {
      assert Goes(c, i);
      SentEffect(c, i, e.now);
      FailEffect(c, i, e.now);
    } else {
      RepeatEffect(c, e.now, e.timeout, e.resent, e.released);
    }
  }

  // ----------------------------------------------------------------------------- the calls

  /** A limit of 0 is none. */
  predicate Fits(c: Client, length: nat) {
    c.outboxLimit == 0 || length + TotalLen(c.items) <= c.outboxLimit
  }

  /**
   A publish call: what it adds, whether that counts as sent, and that only a failed write drops the connection. A QoS
   0 packet passes the limits of the outbox and of the window and leaves no trace.
   */
  ghost predicate Publishes(c: Client, next: Client, m: Message, now: int, sentAt: int, written: bool) {
    var taken := m.checked && m.composed && (m.qos > 0 ==> Fits(c, m.length));
    var tried := taken && c.phase == Connected && (m.qos > 0 ==> c.count < c.receiveMaximum);
    var counted := tried && written && m.qos > 0;
    var stored := if taken && m.qos > 0 then c.items + [Item(m.id, Publish, m.qos, now, Queued, m.data)] else c.items;
    && next == c.(items := next.items, count := next.count, phase := next.phase)
    && (if counted then MarksOne(stored, next.items, m.id, sentAt) else next.items == stored)
    && next.count == (if counted then (c.count + 1) % 0x1_0000 else c.count)
    && next.phase == if tried && !written then WaitReconnect else c.phase
  }

  lemma PublishEffect(c: Client, m: Message, now: int, sentAt: int, written: bool)
    ensures Publishes(c, Next(c, PublishCall(m, now, sentAt, written)), m, now, sentAt, written)
  {
    MarkEffect(c.items + [Item(m.id, Publish, m.qos, now, Queued, m.data)], m.id, sentAt);
    hide MarksOne, SetPending, SetTick;
  }

  /** The other two calls: when each adds its packet, what a subscription marks, and that a refused one does nothing. */
  lemma CallIff(c: Client, m: Message, now: int, store: bool, composed: bool, kind: PacketType, id: nat)
    ensures var next := Next(c, EnqueueCall(m, now, store));
            next == if m.checked && m.composed && Fits(c, m.length) && (m.qos > 0 || store)
                    then c.(items := c.items + [Item(m.id, Publish, m.qos, now, Queued, m.data)]) else c
    ensures var next := Next(c, SubscribeCall(composed, kind, id, m.data, now));
            if c.phase == Connected && composed && (kind == Subscribe ==> Fits(c, 0)) then
              var stored := c.items + [Item(id, kind, 0, now, Queued, m.data)];
              && next == c.(items := next.items) && |next.items| == |stored|
              && forall j :: 0 <= j < |stored| ==>
                   next.items[j] == if HasIdFirst(stored, j, id) then stored[j].(pending := Transmitted) else stored[j]
            else next == c
  {
    MarkedAs(c.items + [Item(id, kind, 0, now, Queued, m.data)], id, Transmitted);
    hide SetPending;
  }

  lemma MarkedAs(items: seq<Item>, id: nat, pending: Pending)
    ensures var after := SetPending(items, id, pending);
            |after| == |items| && forall j :: 0 <= j < |items| ==>
              after[j] == if HasIdFirst(items, j, id) then items[j].(pending := pending) else items[j]
  {
    forall j: nat
      ensures HasIdFirst(items, j, id) <==> j == First(items, ById(id)) < |items|
    {
      FirstHasId(items, j, id);
    }
  }

  // ------------------------------------------------------------------------- what comes in

  ghost predicate IsFirstOf(items: seq<Item>, i: nat, id: nat, kind: PacketType) {
    && i < |items| && items[i].id == id && items[i].kind == kind
    && forall j :: 0 <= j < i ==> !(items[j].id == id && items[j].kind == kind)
  }

  /** The first packet of the type with the identifier is gone and nothing else, or there was none. */
  ghost predicate Loses(was: seq<Item>, items: seq<Item>, id: nat, kind: PacketType) {
    if i: nat :| IsFirstOf(was, i, id, kind) then DropsOne(was, items, i) else items == was
  }

  /** An acknowledgement: it completes or marks one packet and gives one place back. */
  ghost predicate Acknowledges(c: Client, next: Client, p: Packet) {
    && next == c.(items := next.items, count := next.count)
    && match p
       case PubAck(id) => CompletesOne(c, next, id)
       case PubComp(id) => CompletesOne(c, next, id)
       case PubRec(id) =>
         && next.count == c.count && |next.items| == |c.items|
         && forall j :: 0 <= j < |c.items| ==>
              next.items[j] == if HasIdFirst(c.items, j, id) then c.items[j].(pending := Acknowledged) else c.items[j]
       case SubAck(id) => next.count == c.count && Loses(c.items, next.items, id, Subscribe)
       case UnsubAck(id) => next.count == c.count && Loses(c.items, next.items, id, Unsubscribe)
       case OtherPacket => next == c
  }

  ghost predicate CompletesOne(c: Client, next: Client, id: nat) {
    && Loses(c.items, next.items, id, Publish)
    && next.count ==
         if c.count > 0 && exists i :: 0 <= i < |c.items| && c.items[i].id == id && c.items[i].kind == Publish
         then c.count - 1 else c.count
  }

  lemma FirstIsFirstOf(items: seq<Item>, i: nat, id: nat, kind: PacketType)
    ensures IsFirstOf(items, i, id, kind) <==> i == First(items, ByIdAndType(id, kind)) < |items|
  {
    if IsFirstOf(items, i, id, kind) {
      FirstIs(items, ByIdAndType(id, kind), i);
    }
  }

  lemma HasIff(items: seq<Item>, id: nat, kind: PacketType)
    ensures Has(items, ByIdAndType(id, kind)) <==>
              exists i :: 0 <= i < |items| && items[i].id == id && items[i].kind == kind
  {
    if i :| 0 <= i < |items| && items[i].id == id && items[i].kind == kind {
      FirstAtMost(items, ByIdAndType(id, kind), i);
    }
  }

  lemma LoseEffect(items: seq<Item>, id: nat, kind: PacketType)
    ensures Loses(items, Delete(items, id, kind), id, kind)
    ensures Has(items, ByIdAndType(id, kind)) <==>
              exists i :: 0 <= i < |items| && items[i].id == id && items[i].kind == kind
  {
    HasIff(items, id, kind);
    forall i: nat
      ensures IsFirstOf(items, i, id, kind) <==> i == First(items, ByIdAndType(id, kind)) < |items|
    {
      FirstIsFirstOf(items, i, id, kind);
    }
    var f := First(items, ByIdAndType(id, kind));
    assert f < |items| ==> IsFirstOf(items, f, id, kind) && DropsOne(items, Without(items, f), f);
    hide First, IsFirstOf, DropsOne, Without;
  }

  lemma CompleteEffect(c: Client, id: nat)
    ensures CompletesOne(c, Completed(c, id), id) && Completed(c, id).(items := c.items, count := c.count) == c
  {
    LoseEffect(c.items, id, Publish);
    hide Loses, First;
  }

  lemma AcknowledgeEffect(c: Client, p: Packet)
    requires c.phase == Connected
    ensures Acknowledges(c, Next(c, Receive(p)), p)
  {
    hide Loses, SetPending, Delete, Completed, CompletesOne;
    match p
    case PubAck(id) => CompleteEffect(c, id);
    case PubComp(id) => CompleteEffect(c, id);
    case PubRec(id) => MarkedAs(c.items, id, Acknowledged);
    case SubAck(id) => LoseEffect(c.items, id, Subscribe);
    case UnsubAck(id) => LoseEffect(c.items, id, Unsubscribe);
    case OtherPacket =>
  }

  // ------------------------------------------------------------------------------- expiry

  /** Which positions stay, in their order. */
  ghost predicate KeepsThose(was: seq<Item>, items: seq<Item>, kept: seq<nat>) {
    && |items| == |kept| && (forall j :: 0 <= j < |kept| ==> kept[j] < |was| && items[j] == was[kept[j]])
    && (forall j, k :: 0 <= j < k < |kept| ==> kept[j] < kept[k])
  }

  function Later(kept: seq<nat>): (later: seq<nat>)
    ensures |later| == |kept| && forall j :: 0 <= j < |kept| ==> later[j] == kept[j] + 1
  {
    seq(|kept|, j requires 0 <= j < |kept| => kept[j] + 1)
  }

  lemma LaterHas(kept: seq<nat>, i: nat)
    ensures i in Later(kept) <==> i > 0 && i - 1 in kept
  {
    if i > 0 && i - 1 in kept {
      var j :| 0 <= j < |kept| && kept[j] == i - 1;
      assert Later(kept)[j] == i;
    }
  }

  lemma KeepsLater(first: Item, was: seq<Item>, items: seq<Item>, kept: seq<nat>)
    requires KeepsThose(was, items, kept)
    ensures KeepsThose([first] + was, items, Later(kept))
    ensures KeepsThose([first] + was, [first] + items, [0] + Later(kept))
  {
  }

  ghost predicate KeepsFresh(was: seq<Item>, kept: seq<nat>, now: int, timeout: int) {
    forall i :: 0 <= i < |was| ==> (i in kept <==> now - was[i].tick <= timeout)
  }

  lemma FreshLater(first: Item, was: seq<Item>, kept: seq<nat>, now: int, timeout: int)
    requires KeepsFresh(was, kept, now, timeout)
    ensures KeepsFresh([first] + was, (if Expired(first, now, timeout) then [] else [0]) + Later(kept), now, timeout)
  {
    var all := (if Expired(first, now, timeout) then [] else [0]) + Later(kept);
    forall i | 0 <= i < |was| + 1
      ensures i in all <==> now - ([first] + was)[i].tick <= timeout
    {
      LaterHas(kept, i);
      assert i in all <==> i in Later(kept) || (i == 0 && !Expired(first, now, timeout));
    }
  }

  lemma {:induction false} UnexpiredKeeps(was: seq<Item>, now: int, timeout: int) returns (kept: seq<nat>)
    ensures KeepsThose(was, Unexpired(was, now, timeout), kept) && KeepsFresh(was, kept, now, timeout)
  {
    if was == [] {
      kept := [];
    } else {
      var rest := UnexpiredKeeps(was[1..], now, timeout);
      assert [was[0]] + was[1..] == was;
      KeepsLater(was[0], was[1..], Unexpired(was[1..], now, timeout), rest);
      FreshLater(was[0], was[1..], rest, now, timeout);
      hide KeepsThose, KeepsFresh;
      kept := (if Expired(was[0], now, timeout) then [] else [0]) + Later(rest);
      assert [] + Later(rest) == Later(rest);
      assert [] + Unexpired(was[1..], now, timeout) == Unexpired(was[1..], now, timeout);
    }
  }

  /** Expiry keeps exactly the packets of at most 30 s, unchanged and in their order, and nothing else changes. */
  lemma ExpireEffect(c: Client, now: int) returns (kept: seq<nat>)
    ensures var next := Next(c, Expire(now));
            && next == c.(items := next.items) && KeepsThose(c.items, next.items, kept)
            && KeepsFresh(c.items, kept, now, 30000)
  {
    kept := UnexpiredKeeps(c.items, now, EXPIRED_TIMEOUT_MS);
  }

  // ---------------------------------------------------------------------- the connection

  /** The write that a step tries, if it tries one, fails. */
  ghost predicate WriteFails(c: Client, e: Event) {
    match e
    case PublishCall(m, _, _, written) =>
      !written && m.checked && m.composed && (m.qos > 0 ==> Fits(c, m.length) && c.count < c.receiveMaximum)
    case Pump(now, written, due, timeout, resent, released) =>
      if exists i: nat :: Goes(c, i) then !written else due && FailsToRepeat(c, now, timeout, resent, released)
    case _ => false
  }

  /**
   What leads into each phase and out of it: only an accepted CONNECT leads to CONNECTED, and out of it lead exactly a
   failed write, an abort, a refresh and a stop.
   */
  lemma PhaseIff(c: Client, e: Event)
    ensures var next := Next(c, e).phase;
      && (next == Connected <==>
            if c.phase == Connected then !e.Abort? && !e.Refresh? && !e.Stop? && !WriteFails(c, e)
            else c.phase == Phase.Init && e.Connect? && e.accepted)
      && (next == Disconnected <==> e.Stop? || (c.phase == Disconnected && !e.Start?))
      && (next == Phase.Init <==>
            if c.phase == Phase.Init then !e.Connect? && !e.Stop?
            else (c.phase == Disconnected && e.Start?) || (c.phase == WaitReconnect && (e.Retry? || e.Refresh?))
                 || (c.phase == Connected && e.Refresh?))
  {
    if e.PublishCall? {
      PublishEffect(c, e.message, e.now, e.sentAt, e.written);
    }
    if e.Pump? && c.phase == Connected {
      TurnEffect(c, e);
    }
    hide Goes, FailsToRepeat, MarksOne, DropsOne, Pumped, Published, Subscribed, Stored, Received;
  }
}
