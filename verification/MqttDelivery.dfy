/**
 The delivery engine of the MQTT 5.0 client as a machine of atomic steps: API calls,
 parts of the client's loop, incoming packets, expiry and reconnects, in any order.
 The theorems hold over every run.
 */
module MqttDelivery {
  import opened MqttOutbox
  import opened MqttRequeue

  datatype Phase = Init | Disconnected | Connected | WaitReconnect

  /** count is send_publish_packet_count, a 16-bit field; receiveMaximum is the broker's limit, also 16 bits. */
  datatype Client = Client(items: seq<Item>, count: nat, receiveMaximum: nat, phase: Phase, outboxLimit: nat)

  datatype Packet =
    PubAck(id: nat) | PubRec(id: nat) | PubComp(id: nat) | SubAck(id: nat) | UnsubAck(id: nat) | OtherPacket

  /** A PUBLISH about to be handed over: whether the check of its properties and the message builder let it through. */
  datatype Message = Message(checked: bool, composed: bool, id: nat, qos: nat, length: nat, data: seq<byte>)

  predicate Accepted(m: Message) {
    m.checked && m.composed
  }

  datatype Event =
    | PublishCall(message: Message, now: int, sentAt: int, written: bool)
    | EnqueueCall(message: Message, now: int, store: bool)
    | SubscribeCall(composed: bool, kind: PacketType, id: nat, data: seq<byte>, now: int)
    | Expire(now: int)
    | Receive(packet: Packet)
    | Pump(now: int, written: bool, due: bool, timeout: int, resent: bool, released: bool)
    | Abort
    | Refresh
    | Retry
    | Connect(accepted: bool, receiveMaximum: nat)
    | Stop
    | Start

  const EXPIRED_TIMEOUT_MS := 30000

  // ---------------------------------------------------------------- one step

  function Increment(count: nat): nat {
    (count + 1) % 0x1_0000
  }

  function Decrement(count: nat): nat {
    if count > 0 then count - 1 else 0
  }

  predicate WindowFull(c: Client) {
    c.count >= c.receiveMaximum
  }

  function Enqueued(c: Client, id: nat, kind: PacketType, qos: nat, data: seq<byte>, now: int): Client {
    c.(items := c.items + [Item(id, kind, qos, now, Queued, data)])
  }

  /** Bookkeeping after a packet of QoS 1 or 2, or a subscription, went out. */
  function Transmit(c: Client, id: nat, counted: bool, now: int): Client {
    c.(items := SetPending(SetTick(c.items, id, now), id, Transmitted),
       count := if counted then Increment(c.count) else c.count)
  }

  predicate OverLimit(c: Client, length: nat) {
    c.outboxLimit > 0 && length + TotalLen(c.items) > c.outboxLimit
  }

  function Published(c: Client, m: Message, now: int, sentAt: int, written: bool): Client {
    if !Accepted(m) || (m.qos > 0 && OverLimit(c, m.length)) then c
    else
      var stored := if m.qos > 0 then Enqueued(c, m.id, Publish, m.qos, m.data, now) else c;
      if c.phase != Connected || (m.qos > 0 && WindowFull(c)) then stored
      else if !written then stored.(phase := WaitReconnect)
      else if m.qos > 0 then Transmit(stored, m.id, true, sentAt)
      else stored
  }

  function Stored(c: Client, m: Message, now: int, store: bool): Client {
    if OverLimit(c, m.length) || !Accepted(m) || (m.qos == 0 && !store) then c
    else Enqueued(c, m.id, Publish, m.qos, m.data, now)
  }

  function Subscribed(c: Client, composed: bool, kind: PacketType, id: nat, data: seq<byte>, now: int): Client {
    if c.phase != Connected || !composed
       || (kind == Subscribe && c.outboxLimit > 0 && TotalLen(c.items) > c.outboxLimit)
    then c
    else
      var stored := Enqueued(c, id, kind, 0, data, now);
      stored.(items := SetPending(stored.items, id, Transmitted))
  }

  /** PUBACK and PUBCOMP complete a PUBLISH; PUBREC only marks it. */
  function Completed(c: Client, id: nat): Client {
    if Has(c.items, ByIdAndType(id, Publish))
    then c.(items := Delete(c.items, id, Publish), count := Decrement(c.count))
    else c
  }

  function Received(c: Client, p: Packet): Client {
    match p
    case PubAck(id) => Completed(c, id)
    case PubComp(id) => Completed(c, id)
    case PubRec(id) => c.(items := SetPending(c.items, id, Acknowledged))
    case SubAck(id) => c.(items := Delete(c.items, id, Subscribe))
    case UnsubAck(id) => c.(items := Delete(c.items, id, Unsubscribe))
    case OtherPacket => c
  }

  /** A QoS 0 PUBLISH that may overtake a window that is full; |items| when there is none. */
  function QueuedQos0(items: seq<Item>): (i: nat)
    ensures i <= |items|
  {
    var i := First(items, ById(0));
    if i < |items| && items[i].pending == Queued && items[i].kind == Publish && items[i].qos == 0 then i else |items|
  }

  /** The next packet to send, or |items|. */
  function NextToSend(c: Client): (i: nat)
    ensures i <= |c.items|
  {
    var i := First(c.items, ByState(Queued));
    if i < |c.items| && WindowFull(c) && IsCounted(c.items[i]) then QueuedQos0(c.items) else i
  }

  function Sent(c: Client, i: nat, now: int): Client
    requires i < |c.items|
  {
    var item := c.items[i];
    if item.kind == Publish && item.qos == 0 then c.(items := Without(c.items, i))
    else Transmit(c, item.id, item.kind == Publish, now)
  }

  function Retransmitted(c: Client, now: int, timeout: int, resent: bool, released: bool): Client {
    var t := First(c.items, ByState(Transmitted));
    var c1 := if t < |c.items| && Expired(c.items[t], now, timeout)
              then c.(items := c.items[t := Duplicate(c.items[t])], phase := if resent then c.phase else WaitReconnect)
              else c;
    var a := First(c1.items, ByState(Acknowledged));
    if a < |c1.items| && Expired(c1.items[a], now, timeout) && !released then c1.(phase := WaitReconnect) else c1
  }

  function Pumped(c: Client, now: int, written: bool, due: bool, timeout: int, resent: bool, released: bool): Client {
    var i := NextToSend(c);
    if i < |c.items| then
      if written then Sent(c, i, now) else c.(phase := WaitReconnect)
    else if due then Retransmitted(c, now, timeout, resent, released)
    else c
  }

  function Connecting(c: Client, accepted: bool, receiveMaximum: nat): Client {
    if accepted
    then c.(items := Requeued(c.items), count := 0, receiveMaximum := receiveMaximum, phase := Connected)
    else c.(receiveMaximum := receiveMaximum, phase := WaitReconnect)
  }

  function Next(c: Client, e: Event): Client {
    match e
    case PublishCall(m, now, sentAt, written) => Published(c, m, now, sentAt, written)
    case EnqueueCall(m, now, store) => Stored(c, m, now, store)
    case SubscribeCall(composed, kind, id, data, now) => Subscribed(c, composed, kind, id, data, now)
    case Expire(now) => c.(items := Unexpired(c.items, now, EXPIRED_TIMEOUT_MS))
    case Receive(p) => if c.phase == Connected then Received(c, p) else c
    case Pump(now, written, due, timeout, resent, released) =>
      if c.phase == Connected then Pumped(c, now, written, due, timeout, resent, released) else c
    case Abort => if c.phase == Connected then c.(phase := WaitReconnect) else c
    case Refresh => if c.phase == Connected || c.phase == WaitReconnect then c.(phase := Init) else c
    case Retry => if c.phase == WaitReconnect then c.(phase := Init) else c
    case Connect(accepted, receiveMaximum) => if c.phase == Init then Connecting(c, accepted, receiveMaximum) else c
    case Stop => c.(items := [], phase := Disconnected)
    case Start => if c.phase == Disconnected then c.(phase := Init) else c
  }

  function Run(c: Client, events: seq<Event>): Client
    decreases |events|
  {
    if events == [] then c else Run(Next(c, events[0]), events[1..])
  }

  // ------------------------------------------------ what the broker has seen

  /**
   The broker's side of one connection. open: the identifiers of the QoS 1 and 2 PUBLISH packets
   first sent on it and not yet completed by PUBACK or PUBCOMP. taken: completions that took one off
   the counter for a packet which was not open, less the open packets that completed with nothing
   left to take. leaked: sends the counter still holds although nothing is open for them, because the
   packet had expired before its completion or its identifier was reused.
   */
  datatype Wire = Wire(open: set<nat>, taken: nat, leaked: nat)

  /** The identifiers that the random generator hands out end one short of 16 bits. */
  const MAX_ID := 65534

  /** The identifier a step puts on the wire for the first time on this connection. */
  predicate Transmits(c: Client, e: Event, id: nat) {
    match e
    case PublishCall(m, now, sentAt, written) =>
      && id == m.id && Accepted(m) && m.qos > 0 && !OverLimit(c, m.length)
      && c.phase == Connected && !WindowFull(c) && written
    case Pump(now, written, due, timeout, resent, released) =>
      && c.phase == Connected && written
      && NextToSend(c) < |c.items|
      && IsCounted(c.items[NextToSend(c)])
      && id == c.items[NextToSend(c)].id
    case _ => false
  }

  function Identifier(c: Client, e: Event): nat {
    match e
    case PublishCall(m, now, sentAt, written) => m.id
    case Pump(now, written, due, timeout, resent, released) =>
      if NextToSend(c) < |c.items| then c.items[NextToSend(c)].id else 0
    case _ => 0
  }

  predicate Completes(e: Event, id: nat) {
    e == Receive(PubAck(id)) || e == Receive(PubComp(id))
  }

  predicate IsCompletion(c: Client, e: Event) {
    e.Receive? && (e.packet.PubAck? || e.packet.PubComp?) && c.phase == Connected
  }

  function Complete(c: Client, w: Wire, id: nat): Wire {
    var held := Has(c.items, ByIdAndType(id, Publish));
    Wire(w.open - {id},
         if held && id !in w.open && c.count > 0 then w.taken + 1
         else if held && id in w.open && c.count == 0 && w.taken > 0 then w.taken - 1
         else w.taken,
         if id in w.open && !held then w.leaked + 1 else w.leaked)
  }

  function Observe(c: Client, w: Wire, e: Event): Wire {
    if IsCompletion(c, e) then Complete(c, w, e.packet.id)
    else if e.Connect? && e.accepted && c.phase == Init then Wire({}, 0, 0)
    else if Transmits(c, e, Identifier(c, e)) then
      var id := Identifier(c, e);
      Wire(w.open + {id}, w.taken, if id in w.open then w.leaked + 1 else w.leaked)
    else w
  }

  function Watch(c: Client, w: Wire, events: seq<Event>): Wire
    decreases |events|
  {
    if events == [] then w else Watch(Next(c, events[0]), Observe(c, w, events[0]), events[1..])
  }

  lemma {:induction false} RunOn(c: Client, w: Wire, first: seq<Event>, rest: seq<Event>)
    ensures Run(c, first + rest) == Run(Run(c, first), rest)
    ensures Watch(c, w, first + rest) == Watch(Run(c, first), Watch(c, w, first), rest)
    decreases |first|
  {
    if first == [] {
      assert first + rest == rest;
    } else {
      assert (first + rest)[1..] == first[1..] + rest;
      RunOn(Next(c, first[0]), Observe(c, w, first[0]), first[1..], rest);
    }
  }

  // ----------------------------------------------------------- assumptions

  predicate Fresh(c: Client, id: nat) {
    0 < id <= MAX_ID && !Has(c.items, ById(id))
  }

  /** Identifiers are unused and non-zero (section 2.2.1 of MQTT 5.0); QoS 0 carries none; limits are 16 bits. */
  predicate Admissible(c: Client, e: Event) {
    match e
    case PublishCall(m, _, _, _) => if m.qos > 0 then Fresh(c, m.id) else m.id == 0
    case EnqueueCall(m, _, _) => if m.qos > 0 then Fresh(c, m.id) else m.id == 0
    case SubscribeCall(_, kind, id, _, _) => kind != Publish && Fresh(c, id)
    case Connect(_, receiveMaximum) => receiveMaximum < 0x1_0000
    case _ => true
  }

  predicate AdmissibleRun(c: Client, events: seq<Event>)
    decreases |events|
  {
    events == [] || (Admissible(c, events[0]) && AdmissibleRun(Next(c, events[0]), events[1..]))
  }

  // -------------------------------------------------------------- invariant

  ghost predicate UniqueIds(items: seq<Item>) {
    forall i, j :: 0 <= i < j < |items| && items[i].id != 0 ==> items[i].id != items[j].id
  }

  predicate WellNumbered(item: Item) {
    item.id <= MAX_ID && (item.id == 0 <==> item.kind == Publish && item.qos == 0)
  }

  /** Nothing but a packet with an identifier is ever TRANSMITTED. */
  ghost predicate OutboxInv(items: seq<Item>) {
    && UniqueIds(items)
    && (forall i :: 0 <= i < |items| ==> WellNumbered(items[i]))
    && (forall i :: 0 <= i < |items| && items[i].pending == Transmitted ==> items[i].id != 0)
  }

  ghost predicate OpenInv(items: seq<Item>, open: set<nat>) {
    forall i :: 0 <= i < |items| && items[i].pending == Transmitted && IsCounted(items[i]) ==> items[i].id in open
  }

  /** What the counter says, whatever identifiers are drawn. */
  ghost predicate Accounted(c: Client, w: Wire) {
    && c.count < 0x1_0000 && c.receiveMaximum < 0x1_0000
    && (c.phase == Connected ==> c.count <= c.receiveMaximum)
    && c.count + w.taken == |w.open| + w.leaked
  }

  ghost predicate Inv(c: Client, w: Wire) {
    && OutboxInv(c.items)
    && Accounted(c, w)
    && (c.phase == Connected ==> OpenInv(c.items, w.open))
    && (forall id :: id in w.open ==> 0 < id <= MAX_ID)
  }

  lemma KeepsAppend(items: seq<Item>, item: Item, open: set<nat>)
    requires OutboxInv(items) && WellNumbered(item) && item.pending == Queued
    requires item.id != 0 ==> !Has(items, ById(item.id))
    ensures OutboxInv(items + [item])
    ensures OpenInv(items, open) ==> OpenInv(items + [item], open)
  {
  }

  lemma KeepsWithout(items: seq<Item>, i: nat, open: set<nat>)
    requires OutboxInv(items) && i < |items|
    ensures OutboxInv(Without(items, i))
    ensures OpenInv(items, open) ==> OpenInv(Without(items, i), open)
  {
  }

  lemma KeepsUnexpired(items: seq<Item>, now: int, timeout: int, open: set<nat>)
    requires OutboxInv(items)
    ensures OutboxInv(Unexpired(items, now, timeout))
    ensures OpenInv(items, open) ==> OpenInv(Unexpired(items, now, timeout), open)
    ensures forall k :: 0 <= k < |Unexpired(items, now, timeout)| ==> Unexpired(items, now, timeout)[k] in items
  {
  }

  /** Changing a packet's state, tick or data leaves the numbering alone. */
  lemma KeepsUpdate(items: seq<Item>, i: nat, item: Item, open: set<nat>)
    requires OutboxInv(items) && i < |items|
    requires item.id == items[i].id && item.kind == items[i].kind && item.qos == items[i].qos
    requires item.pending == Transmitted ==> item.id != 0
    ensures OutboxInv(items[i := item])
    ensures OpenInv(items, open) && (item.pending == Transmitted && IsCounted(item) ==> item.id in open)
            ==> OpenInv(items[i := item], open)
  {
  }

  lemma KeepsSetPending(items: seq<Item>, id: nat, pending: Pending, open: set<nat>)
    requires OutboxInv(items)
    requires pending == Transmitted ==> id != 0
    ensures OutboxInv(SetPending(items, id, pending))
    ensures OpenInv(items, open) && pending != Transmitted ==> OpenInv(SetPending(items, id, pending), open)
    ensures OpenInv(items, open - {id}) && id in open ==> OpenInv(SetPending(items, id, pending), open)
  {
    var i := First(items, ById(id));
    if i < |items| {
      KeepsUpdate(items, i, items[i].(pending := pending), open);
    }
  }

  lemma KeepsTransmit(c: Client, id: nat, counted: bool, now: int, open: set<nat>)
    requires OutboxInv(c.items) && id != 0 && OpenInv(c.items, open)
    requires Has(c.items, ById(id)) && (counted <==> IsCounted(c.items[First(c.items, ById(id))]))
    ensures OutboxInv(Transmit(c, id, counted, now).items)
    ensures OpenInv(Transmit(c, id, counted, now).items, if counted then open + {id} else open)
  {
    var i := First(c.items, ById(id));
    var ticked := c.items[i := c.items[i].(tick := now)];
    assert SetTick(c.items, id, now) == ticked;
    KeepsUpdate(c.items, i, c.items[i].(tick := now), open);
    FirstIs(ticked, ById(id), i);
    KeepsUpdate(ticked, i, ticked[i].(pending := Transmitted), if counted then open + {id} else open);
  }

  lemma KeepsDelete(items: seq<Item>, id: nat, kind: PacketType, open: set<nat>)
    requires OutboxInv(items)
    ensures OutboxInv(Delete(items, id, kind))
    ensures OpenInv(items, open) ==> OpenInv(Delete(items, id, kind), open)
    ensures OpenInv(items, open) && kind == Publish ==> OpenInv(Delete(items, id, kind), open - {id})
  {
    var i := First(items, ByIdAndType(id, kind));
    if i < |items| {
      KeepsWithout(items, i, open);
    }
    if OpenInv(items, open) && kind == Publish {
      var r := Delete(items, id, kind);
      forall k | 0 <= k < |r| && r[k].pending == Transmitted && IsCounted(r[k])
        ensures r[k].id in open - {id}
      {
        if i < |items| {
          assert r[k] == items[if k < i then k else k + 1] && items[i].id == id;
        } else {
          assert !Matches(ByIdAndType(id, kind), items[k]);
        }
      }
    }
  }

  // ---------------------------------------------------- every step keeps it

  lemma PublishSends(c: Client, w: Wire, m: Message, now: int, sentAt: int)
    requires Inv(c, w) && c.phase == Connected && !WindowFull(c) && m.qos > 0 && Fresh(c, m.id)
    ensures var c' := Transmit(Enqueued(c, m.id, Publish, m.qos, m.data, now), m.id, true, sentAt);
            Inv(c', Wire(w.open + {m.id}, w.taken, if m.id in w.open then w.leaked + 1 else w.leaked))
  {
    var stored := Enqueued(c, m.id, Publish, m.qos, m.data, now);
    KeepsAppend(c.items, Item(m.id, Publish, m.qos, now, Queued, m.data), w.open);
    assert forall j :: 0 <= j < |c.items| ==> !Matches(ById(m.id), c.items[j]);
    FirstIs(stored.items, ById(m.id), |c.items|);
    KeepsTransmit(stored, m.id, true, sentAt, w.open);
    assert m.id in w.open ==> w.open + {m.id} == w.open;
  }

  lemma PublishKeeps(c: Client, w: Wire, e: Event)
    requires e.PublishCall? && Inv(c, w) && Admissible(c, e)
    ensures Inv(Next(c, e), Observe(c, w, e))
  {
    var m := e.message;
    if Transmits(c, e, m.id) {
      PublishSends(c, w, m, e.now, e.sentAt);
    } else if m.qos > 0 && Accepted(m) && !OverLimit(c, m.length) {
      KeepsAppend(c.items, Item(m.id, Publish, m.qos, e.now, Queued, m.data), w.open);
    }
  }

  lemma StoreKeeps(c: Client, w: Wire, e: Event)
    requires (e.EnqueueCall? || e.SubscribeCall?) && Inv(c, w) && Admissible(c, e)
    ensures Inv(Next(c, e), Observe(c, w, e))
  {
    if e.EnqueueCall? {
      KeepsAppend(c.items, Item(e.message.id, Publish, e.message.qos, e.now, Queued, e.message.data), w.open);
    } else {
      var item := Item(e.id, e.kind, 0, e.now, Queued, e.data);
      KeepsAppend(c.items, item, w.open);
      var stored := c.items + [item];
      assert forall j :: 0 <= j < |c.items| ==> !Matches(ById(e.id), c.items[j]);
      FirstIs(stored, ById(e.id), |c.items|);
      KeepsUpdate(stored, |c.items|, item.(pending := Transmitted), w.open);
    }
  }

  lemma CompleteKeeps(c: Client, w: Wire, id: nat)
    requires Inv(c, w) && c.phase == Connected
    ensures Inv(Completed(c, id), Complete(c, w, id))
  {
    KeepsDelete(c.items, id, Publish, w.open);
    if id in w.open {
      assert w.open == (w.open - {id}) + {id};
    } else {
      assert w.open - {id} == w.open;
    }
  }

  lemma ReceiveKeeps(c: Client, w: Wire, e: Event)
    requires e.Receive? && Inv(c, w) && c.phase == Connected
    ensures Inv(Next(c, e), Observe(c, w, e))
  {
    hide OutboxInv, OpenInv, Delete, SetPending;
    match e.packet
    case PubAck(id) =>
      CompleteKeeps(c, w, id);
    case PubComp(id) =>
      CompleteKeeps(c, w, id);
    case PubRec(id) =>
      KeepsSetPending(c.items, id, Acknowledged, w.open);
    case SubAck(id) =>
      KeepsDelete(c.items, id, Subscribe, w.open);
    case UnsubAck(id) =>
      KeepsDelete(c.items, id, Unsubscribe, w.open);
    case OtherPacket =>
  }

  lemma SendKeeps(c: Client, w: Wire, e: Event)
    requires e.Pump? && Inv(c, w) && c.phase == Connected && e.written && NextToSend(c) < |c.items|
    ensures Inv(Next(c, e), Observe(c, w, e))
  {
    var i := NextToSend(c);
    var item := c.items[i];
    if item.kind == Publish && item.qos == 0 {
      KeepsWithout(c.items, i, w.open);
    } else {
      forall j | 0 <= j < i
        ensures !Matches(ById(item.id), c.items[j])
      {
        assert c.items[j].id != 0 ==> c.items[j].id != item.id;
      }
      FirstIs(c.items, ById(item.id), i);
      KeepsTransmit(c, item.id, item.kind == Publish, e.now, w.open);
      assert item.id in w.open ==> w.open + {item.id} == w.open;
    }
  }

  lemma RetransmitKeeps(c: Client, w: Wire, now: int, timeout: int, resent: bool, released: bool)
    requires Inv(c, w) && c.phase == Connected
    ensures Inv(Retransmitted(c, now, timeout, resent, released), w)
  {
    var t := First(c.items, ByState(Transmitted));
    if t < |c.items| {
      KeepsUpdate(c.items, t, Duplicate(c.items[t]), w.open);
    }
  }

  lemma ConnectKeeps(c: Client, w: Wire, e: Event)
    requires e.Connect? && Inv(c, w) && Admissible(c, e)
    ensures Inv(Next(c, e), Observe(c, w, e))
  {
    if c.phase == Init && e.accepted {
      var r := Requeued(c.items);
      assert forall i :: 0 <= i < |r| ==>
                           && r[i].id == c.items[i].id && r[i].kind == c.items[i].kind && r[i].qos == c.items[i].qos
                           && r[i].pending != Transmitted;
    }
  }

  lemma StepKeeps(c: Client, w: Wire, e: Event)
    requires Inv(c, w) && Admissible(c, e)
    ensures Inv(Next(c, e), Observe(c, w, e))
  {
    match e
    case PublishCall(_, _, _, _) => PublishKeeps(c, w, e);
    case EnqueueCall(_, _, _) => StoreKeeps(c, w, e);
    case SubscribeCall(_, _, _, _, _) => StoreKeeps(c, w, e);
    case Expire(now) => KeepsUnexpired(c.items, now, EXPIRED_TIMEOUT_MS, w.open);
    case Receive(_) =>
      if c.phase == Connected {
        ReceiveKeeps(c, w, e);
      }
    case Pump(now, written, due, timeout, resent, released) =>
      if c.phase == Connected {
        if NextToSend(c) < |c.items| {
          if written {
            SendKeeps(c, w, e);
          }
        } else {
          RetransmitKeeps(c, w, now, timeout, resent, released);
        }
      }
    case Connect(_, _) => ConnectKeeps(c, w, e);
    case _ =>
  }

  lemma {:induction false} RunKeeps(c: Client, w: Wire, events: seq<Event>)
    requires Inv(c, w) && AdmissibleRun(c, events)
    ensures Inv(Run(c, events), Watch(c, w, events))
    decreases |events|
  {
    if events != [] {
      StepKeeps(c, w, events[0]);
      RunKeeps(Next(c, events[0]), Observe(c, w, events[0]), events[1..]);
    }
  }

  // ------------------------------------- whatever identifiers are drawn

  predicate InFlight(item: Item) {
    item.pending == Transmitted || item.pending == Acknowledged
  }

  /** A packet in flight is the first in the outbox with its identifier: the first is the one that gets marked. */
  ghost predicate FlightLeads(items: seq<Item>) {
    forall i :: 0 <= i < |items| && InFlight(items[i]) ==> LeadsItsId(items, i)
  }

  lemma LeadsAppend(items: seq<Item>, item: Item)
    requires FlightLeads(items) && !InFlight(item)
    ensures FlightLeads(items + [item])
  {
    var r := items + [item];
    forall i | 0 <= i < |r| && InFlight(r[i])
      ensures LeadsItsId(r, i)
    {
      assert LeadsItsId(items, i);
    }
  }

  lemma LeadsWithout(items: seq<Item>, i: nat)
    requires FlightLeads(items) && i < |items|
    ensures FlightLeads(Without(items, i))
  {
    var r := Without(items, i);
    forall k | 0 <= k < |r| && InFlight(r[k])
      ensures LeadsItsId(r, k)
    {
      assert LeadsItsId(items, if k < i then k else k + 1);
    }
  }

  lemma {:induction false} UnexpiredIsPart(items: seq<Item>, now: int, timeout: int)
    ensures forall item :: item in Unexpired(items, now, timeout) ==> item in items
  {
    if items != [] {
      UnexpiredIsPart(items[1..], now, timeout);
    }
  }

  lemma LeadsInFront(item: Item, left: seq<Item>)
    requires FlightLeads(left)
    requires forall k :: 0 <= k < |left| && InFlight(left[k]) ==> item.id != left[k].id
    ensures FlightLeads([item] + left)
  {
    var r := [item] + left;
    forall k | 0 <= k < |r| && InFlight(r[k])
      ensures LeadsItsId(r, k)
    {
      if k > 0 {
        assert LeadsItsId(left, k - 1);
      }
    }
  }

  lemma {:induction false} LeadsUnexpired(items: seq<Item>, now: int, timeout: int)
    requires FlightLeads(items)
    ensures FlightLeads(Unexpired(items, now, timeout))
  {
    if items != [] {
      var rest, left := items[1..], Unexpired(items[1..], now, timeout);
      forall i | 0 <= i < |rest| && InFlight(rest[i])
        ensures LeadsItsId(rest, i)
      {
        assert LeadsItsId(items, i + 1);
      }
      LeadsUnexpired(rest, now, timeout);
      UnexpiredIsPart(rest, now, timeout);
      if !Expired(items[0], now, timeout) {
        forall k | 0 <= k < |left| && InFlight(left[k])
          ensures items[0].id != left[k].id
        {
          assert left[k] in rest;
          var j :| 0 <= j < |rest| && rest[j] == left[k];
          assert LeadsItsId(items, j + 1);
        }
        LeadsInFront(items[0], left);
      }
    }
  }

  /** A packet may take off if it leads its identifier. */
  lemma LeadsUpdate(items: seq<Item>, i: nat, item: Item)
    requires FlightLeads(items) && i < |items| && item.id == items[i].id
    requires InFlight(item) ==> InFlight(items[i]) || LeadsItsId(items, i)
    ensures FlightLeads(items[i := item])
  {
    var r := items[i := item];
    forall k | 0 <= k < |r| && InFlight(r[k])
      ensures LeadsItsId(r, k)
    {
      assert LeadsItsId(items, k);
    }
  }

  lemma LeadsSetPending(items: seq<Item>, id: nat, pending: Pending)
    requires FlightLeads(items)
    ensures FlightLeads(SetPending(items, id, pending))
  {
    var i := First(items, ById(id));
    if i < |items| {
      assert forall j :: 0 <= j < i ==> !Matches(ById(id), items[j]);
      LeadsUpdate(items, i, items[i].(pending := pending));
    }
  }

  lemma LeadsTransmit(c: Client, id: nat, counted: bool, now: int)
    requires FlightLeads(c.items)
    ensures FlightLeads(Transmit(c, id, counted, now).items)
  {
    var i := First(c.items, ById(id));
    if i < |c.items| {
      LeadsUpdate(c.items, i, c.items[i].(tick := now));
    }
    LeadsSetPending(SetTick(c.items, id, now), id, Transmitted);
  }

  lemma LeadsReceived(c: Client, p: Packet)
    requires FlightLeads(c.items)
    ensures FlightLeads(Received(c, p).items)
  {
    if p.PubRec? {
      LeadsSetPending(c.items, p.id, Acknowledged);
    } else if !p.OtherPacket? {
      var kind := if p.SubAck? then Subscribe else if p.UnsubAck? then Unsubscribe else Publish;
      var i := First(c.items, ByIdAndType(p.id, kind));
      if i < |c.items| {
        LeadsWithout(c.items, i);
      }
    }
  }

  lemma LeadsPumped(c: Client, now: int, written: bool, due: bool, timeout: int, resent: bool, released: bool)
    requires FlightLeads(c.items)
    ensures FlightLeads(Pumped(c, now, written, due, timeout, resent, released).items)
  {
    var i := NextToSend(c);
    if i < |c.items| {
      if c.items[i].kind == Publish && c.items[i].qos == 0 {
        LeadsWithout(c.items, i);
      } else {
        LeadsTransmit(c, c.items[i].id, c.items[i].kind == Publish, now);
      }
    } else {
      var t := First(c.items, ByState(Transmitted));
      if t < |c.items| {
        LeadsUpdate(c.items, t, Duplicate(c.items[t]));
      }
    }
  }

  lemma NoneInFlight(items: seq<Item>)
    requires FlightLeads(items)
    ensures FlightLeads(Requeued(items))
  {
    var r := Requeued(items);
    forall i | 0 <= i < |r| && InFlight(r[i])
      ensures LeadsItsId(r, i)
    {
      assert InFlight(items[i]) && LeadsItsId(items, i);
    }
  }

  lemma NoneAtAll()
    ensures FlightLeads([])
  {
  }

  /** Every step keeps it, fresh identifiers or not. */
  lemma FlightStaysLeading(c: Client, e: Event)
    requires FlightLeads(c.items)
    ensures FlightLeads(Next(c, e).items)
  {
    hide FlightLeads, Transmit, SetPending, Received, Pumped, Unexpired;
    match e
    case PublishCall(m, now, sentAt, written) =>
      LeadsAppend(c.items, Item(m.id, Publish, m.qos, now, Queued, m.data));
      LeadsTransmit(Enqueued(c, m.id, Publish, m.qos, m.data, now), m.id, true, sentAt);
    case EnqueueCall(m, now, store) => LeadsAppend(c.items, Item(m.id, Publish, m.qos, now, Queued, m.data));
    case SubscribeCall(_, kind, id, data, now) =>
      LeadsAppend(c.items, Item(id, kind, 0, now, Queued, data));
      LeadsSetPending(Enqueued(c, id, kind, 0, data, now).items, id, Transmitted);
    case Expire(now) => LeadsUnexpired(c.items, now, EXPIRED_TIMEOUT_MS);
    case Receive(p) => LeadsReceived(c, p);
    case Pump(now, written, due, timeout, resent, released) =>
      LeadsPumped(c, now, written, due, timeout, resent, released);
    case Connect(_, _) => NoneInFlight(c.items);
    case Stop => NoneAtAll();
    case _ =>
  }

  lemma {:induction false} FlightAlwaysLeads(c: Client, events: seq<Event>)
    requires FlightLeads(c.items)
    ensures FlightLeads(Run(c, events).items)
    decreases |events|
  {
    if events != [] {
      FlightStaysLeading(c, events[0]);
      FlightAlwaysLeads(Next(c, events[0]), events[1..]);
    }
  }

  /** Receive Maximum is a 16-bit field. */
  predicate Limited(events: seq<Event>) {
    forall e :: e in events && e.Connect? ==> e.receiveMaximum < 0x1_0000
  }

  lemma CompletionAccounted(c: Client, w: Wire, id: nat)
    requires Accounted(c, w)
    ensures Accounted(Completed(c, id), Complete(c, w, id))
  {
    if id in w.open {
      assert w.open == (w.open - {id}) + {id};
    } else {
      assert w.open - {id} == w.open;
    }
  }

  lemma SendAccounted(c: Client, w: Wire, id: nat)
    requires Accounted(c, w) && c.phase == Connected && !WindowFull(c)
    ensures Accounted(c.(count := Increment(c.count)),
                      Wire(w.open + {id}, w.taken, if id in w.open then w.leaked + 1 else w.leaked))
  {
    if id in w.open {
      assert w.open + {id} == w.open;
    }
  }

  lemma PublishAccounted(c: Client, w: Wire, e: Event)
    requires Accounted(c, w) && e.PublishCall?
    ensures Accounted(Next(c, e), Observe(c, w, e))
  {
    hide SetPending, SetTick, TotalLen;
    if Transmits(c, e, e.message.id) {
      SendAccounted(c, w, e.message.id);
    }
  }

  lemma PumpAccounted(c: Client, w: Wire, e: Event)
    requires Accounted(c, w) && e.Pump? && c.phase == Connected
    ensures Accounted(Next(c, e), Observe(c, w, e))
  {
    hide SetPending, SetTick, First, Without;
    var i := NextToSend(c);
    if i < |c.items| && e.written && IsCounted(c.items[i]) {
      SendAccounted(c, w, c.items[i].id);
    }
  }

  /** The account is kept by every step, fresh identifiers or not. */
  lemma StaysAccounted(c: Client, w: Wire, e: Event)
    requires Accounted(c, w) && (e.Connect? ==> e.receiveMaximum < 0x1_0000)
    ensures Accounted(Next(c, e), Observe(c, w, e))
  {
    match e
    case PublishCall(_, _, _, _) => PublishAccounted(c, w, e);
    case Pump(_, _, _, _, _, _) =>
      if c.phase == Connected {
        PumpAccounted(c, w, e);
      }
    case Receive(p) =>
      if IsCompletion(c, e) {
        CompletionAccounted(c, w, p.id);
      }
    case _ =>
  }

  lemma {:induction false} AlwaysAccounted(c: Client, w: Wire, events: seq<Event>)
    requires Accounted(c, w) && Limited(events)
    ensures Accounted(Run(c, events), Watch(c, w, events))
    decreases |events|
  {
    if events != [] {
      StaysAccounted(c, w, events[0]);
      AlwaysAccounted(Next(c, events[0]), Observe(c, w, events[0]), events[1..]);
    }
  }

  // ---------------------------------------------------------- flow control

  function Start0(outboxLimit: nat): Client {
    Client([], 0, 0, Init, outboxLimit)
  }

  const NothingSeen := Wire({}, 0, 0)

  /**
   The broker completes what is open on the present connection, or what the client no longer has: the client repeats
   packets, and each repetition is answered once more.
   */
  predicate HonestStep(c: Client, w: Wire, e: Event) {
    IsCompletion(c, e) ==> e.packet.id in w.open || !Has(c.items, ByIdAndType(e.packet.id, Publish))
  }

  predicate Honest(c: Client, w: Wire, events: seq<Event>)
    decreases |events|
  {
    events == []
    || (HonestStep(c, w, events[0]) && Honest(Next(c, events[0]), Observe(c, w, events[0]), events[1..]))
  }

  lemma {:induction false} HonestTakesNothing(c: Client, w: Wire, events: seq<Event>)
    requires Honest(c, w, events) && w.taken == 0
    ensures Watch(c, w, events).taken == 0
    decreases |events|
  {
    if events != [] {
      HonestTakesNothing(Next(c, events[0]), Observe(c, w, events[0]), events[1..]);
    }
  }

  /**
   Section 4.9 of MQTT 5.0, over every run and every broker. The counter misses the open packets by
   exactly what was taken and what leaked, and while connected it stays within the broker's limit; so
   the open packets are within the limit exactly when what was taken does not exceed what is left of
   it and what leaked.
   */
  lemma FlowControl(outboxLimit: nat, events: seq<Event>)
    requires Limited(events)
    ensures var c, w := Run(Start0(outboxLimit), events), Watch(Start0(outboxLimit), NothingSeen, events);
            && c.count + w.taken == |w.open| + w.leaked
            && (c.phase == Connected ==>
                && c.count <= c.receiveMaximum
                && (|w.open| <= c.receiveMaximum <==> w.taken <= c.receiveMaximum - c.count + w.leaked))
            && c.count < 0x1_0000
  {
    AlwaysAccounted(Start0(outboxLimit), NothingSeen, events);
  }

  /** Whatever went before, and whatever identifiers were drawn, the requeueing of the next connection ends. */
  lemma RequeueAlwaysEnds(outboxLimit: nat, events: seq<Event>)
    ensures var items := Run(Start0(outboxLimit), events).items;
            Requeueable(items) && RequeueTurns(items, |items|) == Requeued(items)
  {
    NoneAtAll();
    FlightAlwaysLeads(Start0(outboxLimit), events);
    var items := Run(Start0(outboxLimit), events).items;
    EndedTurns(items, |items|);
  }

  /** With a broker that completes only open packets the counter is exact up to what leaked, so the window holds. */
  lemma HonestWindow(outboxLimit: nat, events: seq<Event>)
    requires Limited(events)
    ensures var c, w := Run(Start0(outboxLimit), events), Watch(Start0(outboxLimit), NothingSeen, events);
            Honest(Start0(outboxLimit), NothingSeen, events) ==>
              && c.count == |w.open| + w.leaked
              && (c.phase == Connected ==> |w.open| <= c.receiveMaximum)
  {
    AlwaysAccounted(Start0(outboxLimit), NothingSeen, events);
    if Honest(Start0(outboxLimit), NothingSeen, events) {
      HonestTakesNothing(Start0(outboxLimit), NothingSeen, events);
    }
  }

  predicate AwaitsCompletion(item: Item) {
    IsCounted(item) && InFlight(item)
  }

  /** The packets of this connection the outbox still holds as TRANSMITTED or ACKNOWLEDGED. */
  function OpenInFlight(items: seq<Item>, open: set<nat>): nat {
    if items == [] then 0
    else (if AwaitsCompletion(items[0]) && items[0].id in open then 1 else 0) + OpenInFlight(items[1..], open)
  }

  lemma {:induction false} OpenInFlightShrinks(items: seq<Item>, open: set<nat>, id: nat)
    requires forall i :: 0 <= i < |items| && InFlight(items[i]) ==> items[i].id != id
    ensures OpenInFlight(items, open - {id}) == OpenInFlight(items, open)
  {
    if items != [] {
      OpenInFlightShrinks(items[1..], open, id);
    }
  }

  lemma {:induction false} FlightIsOpen(items: seq<Item>, open: set<nat>)
    requires FlightLeads(items)
    ensures OpenInFlight(items, open) <= |open|
  {
    if items != [] {
      var id, rest := items[0].id, items[1..];
      forall i | 0 <= i < |rest| && InFlight(rest[i])
        ensures LeadsItsId(rest, i) && rest[i].id != id
      {
        assert LeadsItsId(items, i + 1);
      }
      if AwaitsCompletion(items[0]) && id in open {
        OpenInFlightShrinks(rest, open, id);
        FlightIsOpen(rest, open - {id});
      } else {
        FlightIsOpen(rest, open);
      }
    }
  }

  /**
   The publishes of this connection in flight outnumber the counter by no more than was taken from it, which with
   an honest broker is nothing.
   */
  lemma OutboxWindow(outboxLimit: nat, events: seq<Event>)
    requires Limited(events)
    ensures var c, w := Run(Start0(outboxLimit), events), Watch(Start0(outboxLimit), NothingSeen, events);
            && OpenInFlight(c.items, w.open) <= c.count + w.taken
            && (Honest(Start0(outboxLimit), NothingSeen, events) ==> OpenInFlight(c.items, w.open) <= c.count)
  {
    HonestWindow(outboxLimit, events);
    AlwaysAccounted(Start0(outboxLimit), NothingSeen, events);
    NoneAtAll();
    FlightAlwaysLeads(Start0(outboxLimit), events);
    FlightIsOpen(Run(Start0(outboxLimit), events).items, Watch(Start0(outboxLimit), NothingSeen, events).open);
  }

  /** With unused identifiers, every TRANSMITTED publish was sent on this connection. */
  lemma TransmittedIsOpen(outboxLimit: nat, events: seq<Event>)
    requires AdmissibleRun(Start0(outboxLimit), events)
    ensures var c, w := Run(Start0(outboxLimit), events), Watch(Start0(outboxLimit), NothingSeen, events);
            c.phase == Connected ==>
              forall item :: item in c.items && IsCounted(item) && item.pending == Transmitted ==> item.id in w.open
  {
    RunKeeps(Start0(outboxLimit), NothingSeen, events);
  }

  /**
   What is sent next is queued. Packets of QoS 1 and 2 and subscriptions go in outbox order, and none of
   QoS 1 or 2 goes while the window is full; a QoS 0 packet overtakes only then, and never another QoS 0 packet.
   */
  lemma SendOrder(c: Client)
    requires OutboxInv(c.items)
    ensures var i := NextToSend(c);
            && (i < |c.items| ==>
                && c.items[i].pending == Queued
                && (forall j :: 0 <= j < i && c.items[j].pending == Queued ==>
                    c.items[i].id == 0 && c.items[j].id != 0 && WindowFull(c))
                && (IsCounted(c.items[i]) ==> !WindowFull(c)))
            && (i == |c.items| && !WindowFull(c) ==> forall j :: 0 <= j < i ==> c.items[j].pending != Queued)
  {
  }

  // ------------------------------------------------------- what can go wrong

  /** A small PUBLISH. */
  function Small(id: nat, qos: nat): Message {
    Message(true, true, id, qos, 0, [])
  }

  lemma {:induction false} OneMore(c: Client, w: Wire, events: seq<Event>, e: Event)
    ensures var c', w' := Run(c, events), Watch(c, w, events);
            && Run(c, events + [e]) == Next(c', e)
            && Watch(c, w, events + [e]) == Observe(c', w', e)
            && (AdmissibleRun(c, events + [e]) <==> AdmissibleRun(c, events) && Admissible(c', e))
            && (Honest(c, w, events + [e]) <==> Honest(c, w, events) && HonestStep(c', w', e))
    decreases |events|
  {
    if events == [] {
      assert [] + [e] == [e] && [e][1..] == [];
    } else {
      assert (events + [e])[0] == events[0] && (events + [e])[1..] == events[1..] + [e];
      OneMore(Next(c, events[0]), Observe(c, w, events[0]), events[1..], e);
    }
  }

  /** One step of a concrete run, checked against the state it leads to. */
  lemma Reaches(events: seq<Event>, e: Event, before: (Client, Wire), after: (Client, Wire))
    requires AdmissibleRun(Start0(0), events)
    requires before == (Run(Start0(0), events), Watch(Start0(0), NothingSeen, events))
    requires Admissible(before.0, e)
    requires after == (Next(before.0, e), Observe(before.0, before.1, e))
    ensures AdmissibleRun(Start0(0), events + [e])
    ensures after == (Run(Start0(0), events + [e]), Watch(Start0(0), NothingSeen, events + [e]))
    ensures Honest(Start0(0), NothingSeen, events) && HonestStep(before.0, before.1, e) ==>
              Honest(Start0(0), NothingSeen, events + [e])
  {
    OneMore(Start0(0), NothingSeen, events, e);
  }

  lemma PublishSmall(c: Client, w: Wire, id: nat, qos: nat)
    requires c.phase == Connected && !WindowFull(c) && !OverLimit(c, 0) && c.count < 0xffff
    requires qos > 0 && !Has(c.items, ById(id)) && id !in w.open
    ensures var e := PublishCall(Small(id, qos), 0, 0, true);
            && Next(c, e) == c.(items := c.items + [Item(id, Publish, qos, 0, Transmitted, [])], count := c.count + 1)
            && Observe(c, w, e) == w.(open := w.open + {id})
  {
    var stored := c.items + [Item(id, Publish, qos, 0, Queued, [])];
    assert forall j :: 0 <= j < |c.items| ==> !Matches(ById(id), c.items[j]);
    FirstIs(stored, ById(id), |c.items|);
    assert SetTick(stored, id, 0) == stored;
  }

  lemma AcknowledgedOnce(acked: Item) returns (events: seq<Event>)
    requires acked == Item(1, Publish, 2, 0, Acknowledged, [])
    ensures AdmissibleRun(Start0(0), events)
    ensures Run(Start0(0), events) == Client([acked], 1, 1, Connected, 0)
    ensures Watch(Start0(0), NothingSeen, events) == Wire({1}, 0, 0)
  {
    var s := (Start0(0), NothingSeen);
    var connected := (Client([], 0, 1, Connected, 0), NothingSeen);
    Reaches([], Connect(true, 1), s, connected);
    events, s := [] + [Connect(true, 1)], connected;
    var published := (Client([acked.(pending := Transmitted)], 1, 1, Connected, 0), Wire({1}, 0, 0));
    PublishSmall(s.0, s.1, 1, 2);
    assert s.0.items + published.0.items == published.0.items && s.1.open + {1} == {1};
    Reaches(events, PublishCall(Small(1, 2), 0, 0, true), s, published);
    events, s := events + [PublishCall(Small(1, 2), 0, 0, true)], published;
    assert SetPending(s.0.items, 1, Acknowledged) == [acked];
    Reaches(events, Receive(PubRec(1)), s, (Client([acked], 1, 1, Connected, 0), Wire({1}, 0, 0)));
    events := events + [Receive(PubRec(1))];
  }

  lemma AcknowledgedThenReconnected(acked: Item) returns (events: seq<Event>)
    requires acked == Item(1, Publish, 2, 0, Acknowledged, [])
    ensures AdmissibleRun(Start0(0), events)
    ensures Run(Start0(0), events) == Client([acked], 0, 1, Connected, 0)
    ensures Watch(Start0(0), NothingSeen, events) == NothingSeen
  {
    events := AcknowledgedOnce(acked);
    var s := (Client([acked], 1, 1, Connected, 0), Wire({1}, 0, 0));
    var waiting := (s.0.(phase := WaitReconnect), s.1);
    Reaches(events, Abort, s, waiting);
    events := events + [Abort];
    var ready := (s.0.(phase := Init), s.1);
    Reaches(events, Retry, waiting, ready);
    events := events + [Retry];
    assert Requeued([acked]) == [acked];
    Reaches(events, Connect(true, 1), ready, (Client([acked], 0, 1, Connected, 0), NothingSeen));
    events := events + [Connect(true, 1)];
  }

  lemma CompletedAfterReconnect(acked: Item, second: Item) returns (events: seq<Event>)
    requires acked == Item(1, Publish, 2, 0, Acknowledged, []) && second == Item(2, Publish, 1, 0, Transmitted, [])
    ensures AdmissibleRun(Start0(0), events)
    ensures Run(Start0(0), events) == Client([second], 0, 1, Connected, 0)
    ensures Watch(Start0(0), NothingSeen, events) == Wire({2}, 1, 0)
  {
    events := AcknowledgedThenReconnected(acked);
    var s := (Client([acked], 0, 1, Connected, 0), NothingSeen);
    var full := (Client([acked, second], 1, 1, Connected, 0), Wire({2}, 0, 0));
    PublishSmall(s.0, s.1, 2, 1);
    assert s.0.items + [second] == full.0.items && s.1.open + {2} == {2};
    Reaches(events, PublishCall(Small(2, 1), 0, 0, true), s, full);
    events := events + [PublishCall(Small(2, 1), 0, 0, true)];
    assert Without(full.0.items, 0) == [second] && full.1.open - {1} == {2};
    Reaches(events, Receive(PubComp(1)), full, (Client([second], 0, 1, Connected, 0), Wire({2}, 1, 0)));
    events := events + [Receive(PubComp(1))];
  }

  /**
   A QoS 2 packet acknowledged on one connection is not counted on the next. Its PUBCOMP there still takes
   one off the counter, and two packets are then open under a limit of one.
   */
  lemma StaleCompletionWidensWindow() returns (events: seq<Event>)
    ensures AdmissibleRun(Start0(0), events)
    ensures Run(Start0(0), events).phase == Connected && Run(Start0(0), events).receiveMaximum == 1
    ensures Watch(Start0(0), NothingSeen, events).open == {2, 3}
  {
    var second, third := Item(2, Publish, 1, 0, Transmitted, []), Item(3, Publish, 1, 0, Transmitted, []);
    events := CompletedAfterReconnect(Item(1, Publish, 2, 0, Acknowledged, []), second);
    var s := (Client([second], 0, 1, Connected, 0), Wire({2}, 1, 0));
    var over := (Client([second, third], 1, 1, Connected, 0), Wire({2, 3}, 1, 0));
    PublishSmall(s.0, s.1, 3, 1);
    assert s.0.items + [third] == over.0.items && s.1.open + {3} == {2, 3};
    Reaches(events, PublishCall(Small(3, 1), 0, 0, true), s, over);
    events := events + [PublishCall(Small(3, 1), 0, 0, true)];
  }

  // ---------------------------------------- when exactly the window holds on a connection

  /** The publishes that an earlier connection left ACKNOWLEDGED: their PUBCOMP is still to come. */
  function Carried(items: seq<Item>): set<nat> {
    set item | item in items && IsCounted(item) && item.pending == Acknowledged :: item.id
  }

  function CarriedAfter(c: Client, carried: set<nat>, e: Event): set<nat> {
    if IsCompletion(c, e) then carried - {e.packet.id} else carried
  }

  /** Identifiers of QoS 1 and 2 are drawn below 65535, whether in use or not; limits have 16 bits. */
  predicate Drawn(e: Event) {
    match e
    case PublishCall(m, _, _, _) => m.qos > 0 ==> 0 < m.id <= MAX_ID
    case EnqueueCall(m, _, _) => m.qos > 0 ==> 0 < m.id <= MAX_ID
    case Connect(_, receiveMaximum) => receiveMaximum < 0x1_0000
    case _ => true
  }

  /**
   The broker completes what is open on this connection, once each what was carried over from an earlier one, and
   what the client no longer has.
   */
  predicate OwedStep(c: Client, w: Wire, carried: set<nat>, e: Event) {
    && !e.Connect? && Drawn(e)
    && (IsCompletion(c, e) ==>
         e.packet.id in w.open + carried || !Has(c.items, ByIdAndType(e.packet.id, Publish)))
  }

  /** What can happen from the CONNACK of a connection up to the next one, with such a broker. */
  predicate OnConnection(c: Client, w: Wire, carried: set<nat>, events: seq<Event>)
    decreases |events|
  {
    events == []
    || (&& OwedStep(c, w, carried, events[0])
        && OnConnection(Next(c, events[0]), Observe(c, w, events[0]), CarriedAfter(c, carried, events[0]), events[1..]))
  }

  lemma CountStaysWithin(c: Client, e: Event)
    requires !e.Connect? && c.count <= c.receiveMaximum
    ensures Next(c, e).count <= Next(c, e).receiveMaximum == c.receiveMaximum
  {
    hide SetPending, SetTick, First, TotalLen, Unexpired, Delete, Without;
  }

  /** Without carried packets, or without a window, nothing is ever taken from the counter. */
  lemma {:induction false} NothingTaken(c: Client, w: Wire, carried: set<nat>, events: seq<Event>)
    requires Accounted(c, w) && c.count <= c.receiveMaximum && w.taken == 0
    requires carried == {} || c.receiveMaximum == 0
    requires OnConnection(c, w, carried, events)
    ensures |Watch(c, w, events).open| <= c.receiveMaximum
    decreases |events|
  {
    if events != [] {
      var e := events[0];
      StaysAccounted(c, w, e);
      CountStaysWithin(c, e);
      NothingTaken(Next(c, e), Observe(c, w, e), CarriedAfter(c, carried, e), events[1..]);
    }
  }

  function Ids(n: nat): (s: set<nat>)
    ensures |s| == n && forall id :: id in s <==> 0 < id <= n
  {
    if n == 0 then {} else Ids(n - 1) + {n}
  }

  lemma {:induction false} SubsetSize(a: set<nat>, b: set<nat>)
    requires a <= b
    ensures |a| <= |b| && (|a| == |b| ==> a == b)
    decreases |a|
  {
    if a != {} {
      var x :| x in a;
      SubsetSize(a - {x}, b - {x});
      assert a == (a - {x}) + {x} && b == (b - {x}) + {x};
    }
  }

  /** Every QoS 1 or 2 PUBLISH in the outbox and every open packet has an identifier that can be drawn. */
  ghost predicate InRange(items: seq<Item>, open: set<nat>) {
    && (forall item :: item in items && IsCounted(item) ==> 0 < item.id <= MAX_ID)
    && (forall id :: id in open ==> 0 < id <= MAX_ID)
  }

  lemma RangeUpdate(items: seq<Item>, i: nat, item: Item, open: set<nat>)
    requires InRange(items, open) && i < |items|
    requires item.id == items[i].id && (IsCounted(item) <==> IsCounted(items[i]))
    ensures InRange(items[i := item], open)
  {
    assert items[i] in items;
  }

  lemma RangeSetPending(items: seq<Item>, id: nat, pending: Pending, open: set<nat>)
    requires InRange(items, open)
    ensures InRange(SetPending(items, id, pending), open)
  {
    var i := First(items, ById(id));
    if i < |items| {
      RangeUpdate(items, i, items[i].(pending := pending), open);
    }
  }

  lemma RangeTransmit(c: Client, id: nat, counted: bool, now: int, open: set<nat>)
    requires InRange(c.items, open)
    ensures InRange(Transmit(c, id, counted, now).items, open)
  {
    var i := First(c.items, ById(id));
    if i < |c.items| {
      RangeUpdate(c.items, i, c.items[i].(tick := now), open);
    }
    RangeSetPending(SetTick(c.items, id, now), id, Transmitted, open);
  }

  lemma RangeReceived(c: Client, p: Packet, open: set<nat>)
    requires InRange(c.items, open)
    ensures InRange(Received(c, p).items, open)
  {
    if p.PubRec? {
      RangeSetPending(c.items, p.id, Acknowledged, open);
    }
  }

  lemma RangePumped(c: Client, now: int, written: bool, due: bool, timeout: int, resent: bool, released: bool,
                    open: set<nat>)
    requires InRange(c.items, open)
    ensures InRange(Pumped(c, now, written, due, timeout, resent, released).items, open)
  {
    var i := NextToSend(c);
    if i < |c.items| {
      RangeTransmit(c, c.items[i].id, c.items[i].kind == Publish, now, open);
    } else {
      var t := First(c.items, ByState(Transmitted));
      if t < |c.items| {
        RangeUpdate(c.items, t, Duplicate(c.items[t]), open);
      }
    }
  }

  lemma RangeAppend(items: seq<Item>, item: Item, open: set<nat>)
    requires InRange(items, open) && (IsCounted(item) ==> 0 < item.id <= MAX_ID)
    ensures InRange(items + [item], open)
  {
  }

  lemma RangeUnexpired(items: seq<Item>, now: int, open: set<nat>)
    requires InRange(items, open)
    ensures InRange(Unexpired(items, now, EXPIRED_TIMEOUT_MS), open)
  {
    UnexpiredIsPart(items, now, EXPIRED_TIMEOUT_MS);
  }

  lemma RangeNone(items: seq<Item>, open: set<nat>)
    requires InRange(items, open)
    ensures InRange([], open)
  {
  }

  lemma RequeuedInRange(items: seq<Item>, open: set<nat>)
    requires InRange(items, open)
    ensures InRange(Requeued(items), open)
  {
    forall item | item in Requeued(items) && IsCounted(item)
      ensures 0 < item.id <= MAX_ID
    {
      var i :| 0 <= i < |items| && Requeued(items)[i] == item;
      assert items[i] in items && IsCounted(items[i]);
    }
  }

  lemma StaysInRange(c: Client, e: Event, open: set<nat>)
    requires InRange(c.items, open) && Drawn(e)
    ensures InRange(Next(c, e).items, open)
  {
    hide InRange, Transmit, SetPending, Received, Pumped, Unexpired, Requeued;
    match e
    case PublishCall(m, now, sentAt, _) =>
      RangeAppend(c.items, Item(m.id, Publish, m.qos, now, Queued, m.data), open);
      if m.qos > 0 {
        RangeTransmit(Enqueued(c, m.id, Publish, m.qos, m.data, now), m.id, true, sentAt, open);
      }
    case EnqueueCall(m, now, _) => RangeAppend(c.items, Item(m.id, Publish, m.qos, now, Queued, m.data), open);
    case SubscribeCall(_, kind, id, data, now) =>
      RangeAppend(c.items, Item(id, kind, 0, now, Queued, data), open);
      RangeSetPending(Enqueued(c, id, kind, 0, data, now).items, id, Transmitted, open);
    case Expire(now) => RangeUnexpired(c.items, now, open);
    case Receive(p) => RangeReceived(c, p, open);
    case Pump(now, written, due, timeout, resent, released) =>
      RangePumped(c, now, written, due, timeout, resent, released, open);
    case Connect(_, _) => RequeuedInRange(c.items, open);
    case Stop => RangeNone(c.items, open);
    case _ =>
  }

  lemma WatchedInRange(c: Client, w: Wire, e: Event)
    requires InRange(c.items, w.open) && Drawn(e)
    ensures InRange(Next(c, e).items, Observe(c, w, e).open)
  {
    StaysInRange(c, e, w.open);
    hide Next;
    var id := Identifier(c, e);
    if Transmits(c, e, id) && e.Pump? {
      assert c.items[NextToSend(c)] in c.items;
    }
  }

  lemma {:induction false} AlwaysInRange(c: Client, w: Wire, events: seq<Event>)
    requires InRange(c.items, w.open) && forall e :: e in events ==> Drawn(e)
    ensures InRange(Run(c, events).items, Watch(c, w, events).open)
    decreases |events|
  {
    if events != [] {
      WatchedInRange(c, w, events[0]);
      AlwaysInRange(Next(c, events[0]), Observe(c, w, events[0]), events[1..]);
    }
  }

  lemma {:induction false} EnoughIds(c: Client, w: Wire, carried: set<nat>, events: seq<Event>)
    requires InRange(c.items, w.open) && OnConnection(c, w, carried, events)
    ensures |Watch(c, w, events).open| <= MAX_ID
    decreases |events|
  {
    if events == [] {
      SubsetSize(w.open, Ids(MAX_ID));
    } else {
      var e := events[0];
      WatchedInRange(c, w, e);
      EnoughIds(Next(c, e), Observe(c, w, e), CarriedAfter(c, carried, e), events[1..]);
    }
  }

  lemma OneFirst(c: Client, w: Wire, carried: set<nat>, e: Event, rest: seq<Event>)
    requires OwedStep(c, w, carried, e) && Admissible(c, e)
    requires OnConnection(Next(c, e), Observe(c, w, e), CarriedAfter(c, carried, e), rest)
    requires AdmissibleRun(Next(c, e), rest)
    ensures OnConnection(c, w, carried, [e] + rest) && AdmissibleRun(c, [e] + rest)
    ensures Watch(c, w, [e] + rest) == Watch(Next(c, e), Observe(c, w, e), rest)
  {
    assert ([e] + rest)[0] == e && ([e] + rest)[1..] == rest;
  }

  /** Every packet in the outbox is one of the open ones and takes no room. */
  ghost predicate OnlyOpen(items: seq<Item>, open: set<nat>) {
    forall i :: 0 <= i < |items| ==> items[i].id in open && items[i].data == []
  }

  lemma {:induction false} NoRoomTaken(items: seq<Item>)
    requires forall i :: 0 <= i < |items| ==> items[i].data == []
    ensures TotalLen(items) == 0
  {
    if items != [] {
      NoRoomTaken(items[1..]);
    }
  }

  lemma UnusedId(open: set<nat>) returns (id: nat)
    requires |open| < MAX_ID
    ensures 0 < id <= MAX_ID && id !in open
  {
    if Ids(MAX_ID) <= open {
      SubsetSize(Ids(MAX_ID), open);
    }
    id :| id in Ids(MAX_ID) && id !in open;
  }

  /** Publishing with an identifier that is not open sends one packet more. */
  lemma OneMoreOpen(c: Client, w: Wire, id: nat)
    requires Inv(c, w) && c.phase == Connected && OnlyOpen(c.items, w.open) && !WindowFull(c)
    requires 0 < id <= MAX_ID && id !in w.open
    ensures var e := PublishCall(Small(id, 1), 0, 0, true);
            var next, seen := Next(c, e), Observe(c, w, e);
            && Admissible(c, e) && Inv(next, seen) && OnlyOpen(next.items, seen.open)
            && next.phase == Connected && next.receiveMaximum == c.receiveMaximum && next.count == c.count + 1
            && seen == w.(open := w.open + {id})
  {
    forall i | 0 <= i < |c.items|
      ensures !Matches(ById(id), c.items[i])
    {
    }
    FirstIs(c.items, ById(id), |c.items|);
    NoRoomTaken(c.items);
    PublishSmall(c, w, id, 1);
    StepKeeps(c, w, PublishCall(Small(id, 1), 0, 0, true));
  }

  /** With one taken from the counter, publishing until the window is full leaves one packet too many open. */
  lemma {:induction false} FillUp(c: Client, w: Wire, carried: set<nat>) returns (events: seq<Event>)
    requires Inv(c, w) && c.phase == Connected && OnlyOpen(c.items, w.open)
    requires w.taken == 1 && w.leaked == 0 && c.receiveMaximum < MAX_ID
    ensures OnConnection(c, w, carried, events) && AdmissibleRun(c, events)
    ensures |Watch(c, w, events).open| > c.receiveMaximum
    decreases c.receiveMaximum - c.count
  {
    if c.count == c.receiveMaximum {
      events := [];
    } else {
      var id := UnusedId(w.open);
      OneMoreOpen(c, w, id);
      var e := PublishCall(Small(id, 1), 0, 0, true);
      hide Inv, OnlyOpen, Next, Observe;
      var rest := FillUp(Next(c, e), Observe(c, w, e), carried);
      OneFirst(c, w, carried, e, rest);
      events := [e] + rest;
    }
  }

  lemma {:induction false} AllExpire(items: seq<Item>) returns (now: int)
    ensures forall later :: later >= now ==> Unexpired(items, later, EXPIRED_TIMEOUT_MS) == []
  {
    now := 0;
    if items != [] {
      var rest := AllExpire(items[1..]);
      var own := items[0].tick + EXPIRED_TIMEOUT_MS + 1;
      now := if rest < own then own else rest;
    }
  }

  /** The PUBCOMP of a carried identifier takes one off the counter of the packet just sent. */
  lemma TakeOne(c: Client, w: Wire, carried: set<nat>, a: nat, t: nat) returns (events: seq<Event>)
    requires Inv(c, w) && c.phase == Connected && c.items == [Item(a, Publish, 1, 0, Queued, [])] && a in carried
    requires c.count == 0 && w == NothingSeen && 0 < c.receiveMaximum < MAX_ID && 0 < t <= MAX_ID && t != a
    ensures OnConnection(c, w, carried, events) && AdmissibleRun(c, events)
    ensures |Watch(c, w, events).open| > c.receiveMaximum
  {
    var queued, sent := c.items[0], Item(t, Publish, 1, 0, Transmitted, []);
    NoRoomTaken(c.items);
    var publish, complete := PublishCall(Small(t, 1), 0, 0, true), Receive(PubComp(a));
    FirstIs(c.items, ById(t), 1);
    PublishSmall(c, w, t, 1);
    var c1, w1 := c.(items := [queued, sent], count := 1), Wire({t}, 0, 0);
    assert c.items + [sent] == [queued, sent] && {} + {t} == {t};
    assert Next(c, publish) == c1 && Observe(c, w, publish) == w1;
    StepKeeps(c, w, publish);
    var c2, w2 := c.(items := [sent]), Wire({t}, 1, 0);
    assert Without([queued, sent], 0) == [sent] && {t} - {a} == {t};
    assert Next(c1, complete) == c2 && Observe(c1, w1, complete) == w2;
    StepKeeps(c1, w1, complete);
    var rest := FillUp(c2, w2, carried - {a});
    OneFirst(c1, w1, carried, complete, rest);
    OneFirst(c, w, carried, publish, [complete] + rest);
    events := [publish] + ([complete] + rest);
  }

  lemma OnlyWatched(c: Client, w: Wire, e: Event)
    requires e.Expire? || e.EnqueueCall?
    ensures Observe(c, w, e) == w
  {
  }

  /** From any outbox: it expires, the carried identifier is drawn again, and its old PUBCOMP comes. */
  lemma CarriedWidens(c: Client, w: Wire, carried: set<nat>, a: nat) returns (events: seq<Event>)
    requires c.phase == Connected && a in carried && 0 < a <= MAX_ID
    requires c.count == 0 && w == NothingSeen && 0 < c.receiveMaximum < MAX_ID
    ensures OnConnection(c, w, carried, events) && AdmissibleRun(c, events)
    ensures |Watch(c, w, events).open| > c.receiveMaximum
  {
    var now := AllExpire(c.items);
    var expire, enqueue := Expire(now), EnqueueCall(Small(a, 1), 0, false);
    var c1 := c.(items := []);
    assert Next(c, expire) == c1;
    assert Inv(c1, w) && OwedStep(c, w, carried, expire) && Admissible(c, expire);
    var c2 := c.(items := [Item(a, Publish, 1, 0, Queued, [])]);
    assert c1.items + c2.items == c2.items;
    assert Next(c1, enqueue) == c2 && OwedStep(c1, w, carried, enqueue) && Admissible(c1, enqueue);
    StepKeeps(c1, w, enqueue);
    hide Inv, Next, Observe, OwedStep, Admissible, OnConnection, AdmissibleRun, Watch;
    assert Observe(c, w, expire) == w && Observe(c1, w, enqueue) == w && CarriedAfter(c, carried, expire) == carried
           && CarriedAfter(c1, carried, enqueue) == carried by {
      OnlyWatched(c, w, expire);
      OnlyWatched(c1, w, enqueue);
    }
    var rest := TakeOne(c2, w, carried, a, if a == 1 then 2 else 1);
    OneFirst(c1, w, carried, enqueue, rest);
    OneFirst(c, w, carried, expire, [enqueue] + rest);
    events := [expire] + ([enqueue] + rest);
  }

  /**
   A condition known when the CONNACK arrives: no more than Receive Maximum packets are ever open on that
   connection, whatever happens on it and whatever identifiers are drawn, if and only if no publish was ACKNOWLEDGED
   in the outbox, or the limit lets nothing through, or it lets through as many as there are identifiers. The broker
   completes what it owes. Drawing only unused identifiers does not change the condition.
   */
  lemma ConnectionWindowIff(c: Client, w: Wire, receiveMaximum: nat)
    requires Accounted(c, w) && InRange(c.items, {}) && c.phase == Init && receiveMaximum < 0x1_0000
    ensures var connack, condition :=
              Connect(true, receiveMaximum), Carried(c.items) == {} || receiveMaximum == 0 || receiveMaximum >= MAX_ID;
            var c1, w1 := Next(c, connack), Observe(c, w, connack);
            && ((forall events :: OnConnection(c1, w1, Carried(c.items), events) ==>
                  |Watch(c1, w1, events).open| <= receiveMaximum)
                <==> condition)
            && ((forall events :: OnConnection(c1, w1, Carried(c.items), events) && AdmissibleRun(c1, events) ==>
                  |Watch(c1, w1, events).open| <= receiveMaximum)
                <==> condition)
  {
    var connack, carried := Connect(true, receiveMaximum), Carried(c.items);
    var c1, w1 := Next(c, connack), Observe(c, w, connack);
    StaysAccounted(c, w, connack);
    if carried != {} && 0 < receiveMaximum < MAX_ID {
      var a :| a in carried;
      var events := CarriedWidens(c1, w1, carried, a);
    } else {
      forall events | OnConnection(c1, w1, carried, events)
        ensures |Watch(c1, w1, events).open| <= receiveMaximum
      {
        if receiveMaximum >= MAX_ID {
          RequeuedInRange(c.items, {});
          EnoughIds(c1, w1, carried, events);
        } else {
          NothingTaken(c1, w1, carried, events);
        }
      }
    }
  }

  /** Every run leads to such a state whenever it is about to connect. */
  lemma WindowAppliesToRuns(outboxLimit: nat, events: seq<Event>)
    requires forall e :: e in events ==> Drawn(e)
    ensures var c, w := Run(Start0(outboxLimit), events), Watch(Start0(outboxLimit), NothingSeen, events);
            Accounted(c, w) && InRange(c.items, {})
  {
    AlwaysAccounted(Start0(outboxLimit), NothingSeen, events);
    AlwaysInRange(Start0(outboxLimit), NothingSeen, events);
  }

  /**
   Expiry deletes a packet but leaves it counted. With a limit of one, the window stays shut after the
   broker has completed everything it was sent.
   */
  lemma ExpiryLeaksWindow() returns (events: seq<Event>)
    ensures AdmissibleRun(Start0(0), events) && Honest(Start0(0), NothingSeen, events)
    ensures Watch(Start0(0), NothingSeen, events).open == {}
    ensures Run(Start0(0), events).items == [] && WindowFull(Run(Start0(0), events))
  {
    var sent := Item(1, Publish, 1, 0, Transmitted, []);
    events := [];
    var s := (Start0(0), NothingSeen);
    var connected := (Client([], 0, 1, Connected, 0), NothingSeen);
    Reaches(events, Connect(true, 1), s, connected);
    events, s := events + [Connect(true, 1)], connected;
    var published := (Client([sent], 1, 1, Connected, 0), Wire({1}, 0, 0));
    PublishSmall(s.0, s.1, 1, 1);
    assert s.0.items + published.0.items == published.0.items && s.1.open + {1} == {1};
    Reaches(events, PublishCall(Small(1, 1), 0, 0, true), s, published);
    events, s := events + [PublishCall(Small(1, 1), 0, 0, true)], published;
    var expired := (Client([], 1, 1, Connected, 0), Wire({1}, 0, 0));
    assert [sent][1..] == [] && Unexpired([sent], 30001, EXPIRED_TIMEOUT_MS) == [];
    Reaches(events, Expire(30001), s, expired);
    events, s := events + [Expire(30001)], expired;
    var completed := (Client([], 1, 1, Connected, 0), Wire({}, 0, 1));
    Reaches(events, Receive(PubAck(1)), s, completed);
    events := events + [Receive(PubAck(1))];
  }

  // ------------------------------------------------------ nothing is lost

  /** The same PUBLISH, byte for byte but for the DUP bit. */
  ghost predicate SameMessage(a: Item, b: Item) {
    && a.id == b.id && a.kind == b.kind && a.qos == b.qos
    && (a.data == b.data || a.data == WithDup(b.data))
  }

  /** No step completes the packet, lets it expire or stops the client. */
  ghost predicate SparesStep(c: Client, e: Event, id: nat) {
    && !e.Stop?
    && !Completes(e, id)
    && (e.Expire? ==> forall item :: item in c.items && item.id == id ==> !Expired(item, e.now, EXPIRED_TIMEOUT_MS))
  }

  ghost predicate Spared(c: Client, events: seq<Event>, id: nat)
    decreases |events|
  {
    events == [] || (SparesStep(c, events[0], id) && Spared(Next(c, events[0]), events[1..], id))
  }

  lemma WithDupTwice(data: seq<byte>)
    ensures WithDup(WithDup(data)) == WithDup(data)
  {
  }

  lemma {:induction false} StaysUnexpired(items: seq<Item>, item: Item, now: int, timeout: int)
    requires item in items && !Expired(item, now, timeout)
    ensures item in Unexpired(items, now, timeout)
  {
    if item != items[0] {
      assert item in items[1..];
      StaysUnexpired(items[1..], item, now, timeout);
    }
  }

  lemma StaysAfterUpdate(items: seq<Item>, i: nat, changed: Item, item: Item) returns (kept: Item)
    requires i < |items| && item in items && SameMessage(changed, items[i])
    ensures kept in items[i := changed] && SameMessage(kept, item)
  {
    var k :| 0 <= k < |items| && items[k] == item;
    kept := items[i := changed][k];
  }

  lemma StaysAfterWithout(items: seq<Item>, i: nat, item: Item)
    requires i < |items| && item in items && item != items[i]
    ensures item in Without(items, i)
  {
  }

  lemma SetPendingKeeps(items: seq<Item>, id: nat, pending: Pending, item: Item) returns (kept: Item)
    requires item in items
    ensures kept in SetPending(items, id, pending) && SameMessage(kept, item)
  {
    var i := First(items, ById(id));
    kept := item;
    if i < |items| {
      kept := StaysAfterUpdate(items, i, items[i].(pending := pending), item);
    }
  }

  lemma TransmitKeeps(c: Client, id: nat, counted: bool, now: int, item: Item) returns (kept: Item)
    requires item in c.items
    ensures kept in Transmit(c, id, counted, now).items && SameMessage(kept, item)
  {
    var i := First(c.items, ById(id));
    kept := item;
    if i < |c.items| {
      kept := StaysAfterUpdate(c.items, i, c.items[i].(tick := now), item);
    }
    kept := SetPendingKeeps(SetTick(c.items, id, now), id, Transmitted, kept);
  }

  lemma StepSpares(c: Client, e: Event, item: Item) returns (kept: Item)
    requires item in c.items && IsCounted(item)
    requires SparesStep(c, e, item.id)
    ensures kept in Next(c, e).items && SameMessage(kept, item)
  {
    kept := item;
    match e
    case PublishCall(m, now, sentAt, written) =>
      var stored := Enqueued(c, m.id, Publish, m.qos, m.data, now);
      if m.qos > 0 && Accepted(m) && !OverLimit(c, m.length) && c.phase == Connected && !WindowFull(c) && written {
        kept := TransmitKeeps(stored, m.id, true, sentAt, item);
      }
    case SubscribeCall(_, kind, id, data, now) =>
      var stored := Enqueued(c, id, kind, 0, data, now);
      if Next(c, e) != c {
        kept := SetPendingKeeps(stored.items, id, Transmitted, item);
      }
    case Expire(now) => StaysUnexpired(c.items, item, now, EXPIRED_TIMEOUT_MS);
    case Receive(p) =>
      if c.phase == Connected {
        kept := ReceiveSpares(c, p, item);
      }
    case Pump(now, written, due, timeout, resent, released) =>
      if c.phase == Connected {
        kept := PumpSpares(c, now, written, due, timeout, resent, released, item);
      }
    case Connect(accepted, _) =>
      if c.phase == Init && accepted {
        var k :| 0 <= k < |c.items| && c.items[k] == item;
        kept := Requeued(c.items)[k];
        assert Next(c, e).items[k] == kept;
      }
    case _ =>
  }

  lemma ReceiveSpares(c: Client, p: Packet, item: Item) returns (kept: Item)
    requires item in c.items && IsCounted(item)
    requires p != PubAck(item.id) && p != PubComp(item.id)
    ensures kept in Received(c, p).items && SameMessage(kept, item)
  {
    kept := item;
    if p.PubRec? {
      kept := SetPendingKeeps(c.items, p.id, Acknowledged, item);
    } else if !p.OtherPacket? {
      var kind := if p.SubAck? then Subscribe else if p.UnsubAck? then Unsubscribe else Publish;
      var i := First(c.items, ByIdAndType(p.id, kind));
      if i < |c.items| {
        StaysAfterWithout(c.items, i, item);
      }
    }
  }

  lemma PumpSpares(c: Client, now: int, written: bool, due: bool, timeout: int, resent: bool, released: bool,
                   item: Item) returns (kept: Item)
    requires item in c.items && IsCounted(item)
    ensures kept in Pumped(c, now, written, due, timeout, resent, released).items && SameMessage(kept, item)
  {
    kept := item;
    var i := NextToSend(c);
    if i < |c.items| {
      if written {
        var next := c.items[i];
        if next.kind == Publish && next.qos == 0 {
          StaysAfterWithout(c.items, i, item);
        } else {
          kept := TransmitKeeps(c, next.id, next.kind == Publish, now, item);
        }
      }
    } else if due {
      var t := First(c.items, ByState(Transmitted));
      if t < |c.items| && Expired(c.items[t], now, timeout) {
        kept := StaysAfterUpdate(c.items, t, Duplicate(c.items[t]), item);
      }
    }
  }

  /**
   A QoS 1 or 2 PUBLISH in the outbox stays there with its bytes unchanged up to DUP, over every run that
   neither completes it, nor lets it expire, nor stops the client, whatever fails. MqttProgress says when it goes out.
   */
  lemma {:induction false} NothingIsLost(c: Client, events: seq<Event>, item: Item) returns (kept: Item)
    requires item in c.items && IsCounted(item)
    requires Spared(c, events, item.id)
    ensures kept in Run(c, events).items && SameMessage(kept, item)
    decreases |events|
  {
    if events == [] {
      kept := item;
    } else {
      var next := StepSpares(c, events[0], item);
      kept := NothingIsLost(Next(c, events[0]), events[1..], next);
      WithDupTwice(item.data);
    }
  }

  /** A publish call of QoS 1 or 2 that returns its identifier has put the packet in the outbox, sent or not. */
  lemma PublishIsStored(c: Client, m: Message, now: int, sentAt: int, written: bool) returns (kept: Item)
    requires Accepted(m) && m.qos > 0 && !OverLimit(c, m.length)
    ensures kept in Published(c, m, now, sentAt, written).items
    ensures SameMessage(kept, Item(m.id, Publish, m.qos, now, Queued, m.data))
  {
    var item := Item(m.id, Publish, m.qos, now, Queued, m.data);
    var stored := Enqueued(c, m.id, Publish, m.qos, m.data, now);
    assert item == stored.items[|c.items|];
    kept := item;
    if c.phase == Connected && !WindowFull(c) && written {
      kept := TransmitKeeps(stored, m.id, true, sentAt, item);
    }
  }
}
