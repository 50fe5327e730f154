/**
 The MQTT client object. Its methods change the outbox and the counter in place; each is
 proved to take exactly the step, or the run of steps, that MqttDelivery describes.
 */
module MqttClient {
  import opened MqttOutbox
  import opened MqttRequeue
  import D = MqttDelivery
  import T = MqttTurns

  /** What the rest of the system decides during one turn of the client's loop in the CONNECTED state. */
  datatype Turn = Turn(
    expireAt: int, disconnect: bool, packet: D.Packet, receiveFails: bool, now: int, written: bool, due: bool,
    timeout: int, resent: bool, released: bool, pingFails: bool, refresh: bool)

  class Client {
    const outbox: Outbox
    const outboxLimit: nat
    var sendPublishPacketCount: nat
    var receiveMaximum: nat
    var phase: D.Phase

    ghost predicate Valid()
      reads this, outbox
    {
      outbox.Valid()
    }

    ghost function State(): D.Client
      reads this, outbox
    {
      D.Client(outbox.items, sendPublishPacketCount, receiveMaximum, phase, outboxLimit)
    }

    constructor (outboxLimit: nat)
      ensures Valid() && fresh(outbox) && State() == D.Start0(outboxLimit)
    {
      outbox := new Outbox();
      this.outboxLimit := outboxLimit;
      sendPublishPacketCount, receiveMaximum, phase := 0, 0, D.Init;
    }

    method IncrementPacketCounter()
      modifies this`sendPublishPacketCount
      ensures sendPublishPacketCount == D.Increment(old(sendPublishPacketCount))
    {
      sendPublishPacketCount := (sendPublishPacketCount + 1) % 0x1_0000;
    }

    method DecrementPacketCounter()
      modifies this`sendPublishPacketCount
      ensures sendPublishPacketCount == D.Decrement(old(sendPublishPacketCount))
    {
      if sendPublishPacketCount > 0 {
        sendPublishPacketCount := sendPublishPacketCount - 1;
      }
    }

    method CheckInflightMaximum() returns (ok: bool)
      ensures ok <==> !D.WindowFull(State())
    {
      ok := sendPublishPacketCount < receiveMaximum;
    }

    method MarkTransmitted(id: nat, counted: bool, now: int)
      requires Valid()
      modifies this`sendPublishPacketCount, outbox
      ensures Valid() && State() == D.Transmit(old(State()), id, counted, now)
    {
      if counted {
        IncrementPacketCounter();
      }
      var _ := outbox.MarkTick(id, now);
      var ok := outbox.MarkPending(id, Transmitted);
    }

    method Publish(m: D.Message, now: int, sentAt: int, written: bool) returns (result: int)
      requires Valid()
      modifies this, outbox
      ensures Valid() && State() == D.Next(old(State()), D.PublishCall(m, now, sentAt, written))
      ensures T.Publishes(old(State()), State(), m, now, sentAt, written)
      ensures m.qos > 0 && m.id > 0 ==>
                (result == m.id <==>
                 && D.Accepted(m) && !D.OverLimit(old(State()), m.length)
                 && (old(phase) == D.Connected && !D.WindowFull(old(State())) ==> written))
      ensures result == -2 <==> m.checked && m.qos > 0 && D.OverLimit(old(State()), m.length)
      ensures m.qos == 0 ==> result == if D.Accepted(m) && old(phase) == D.Connected && written then m.id else -1
      ensures result == m.id || result == -1 || result == -2
    {
      T.PublishEffect(State(), m, now, sentAt, written);
      hide T.Publishes;
      if !m.checked {
        return -1;
      }
      if outboxLimit > 0 && m.qos > 0 && m.length + outbox.size > outboxLimit {
        return -2;
      }
      if !m.composed {
        return -1;
      }
      if m.qos > 0 {
        outbox.Enqueue(m.id, MqttOutbox.Publish, m.qos, m.data, [], now);
        assert m.data + [] == m.data;
      }
      if phase != D.Connected {
        return if m.qos > 0 then m.id else -1;
      }
      if m.qos > 0 {
        var ok := CheckInflightMaximum();
        if !ok {
          return m.id;
        }
      }
      if !written {
        phase := D.WaitReconnect;
        return -1;
      }
      if m.qos > 0 {
        MarkTransmitted(m.id, true, sentAt);
      }
      return m.id;
    }

    method EnqueuePublish(m: D.Message, now: int, store: bool) returns (result: int)
      requires Valid()
      modifies outbox
      ensures Valid() && State() == D.Next(old(State()), D.EnqueueCall(m, now, store))
      ensures result == -2 <==> D.OverLimit(old(State()), m.length)
      ensures result != -2 ==> result == if D.Accepted(m) && (m.id != 0 || store) then m.id else -1
      ensures (m.id == 0 <==> m.qos == 0) ==> (result >= 0 <==> |outbox.items| == |old(outbox.items)| + 1)
    {
      if outboxLimit > 0 && m.length + outbox.size > outboxLimit {
        return -2;
      }
      if !m.checked || !m.composed {
        return -1;
      }
      if m.qos > 0 || store {
        outbox.Enqueue(m.id, MqttOutbox.Publish, m.qos, m.data, [], now);
        assert m.data + [] == m.data;
      }
      return if m.id == 0 && !store then -1 else m.id;
    }

    /** Subscriptions are marked TRANSMITTED before they are written, and stay so when the write fails. */
    method Subscribe(composed: bool, kind: PacketType, id: nat, data: seq<byte>, now: int, written: bool)
      returns (result: int)
      requires Valid()
      modifies outbox
      ensures Valid() && State() == D.Next(old(State()), D.SubscribeCall(composed, kind, id, data, now))
      ensures result == -2 <==> kind == MqttOutbox.Subscribe && D.OverLimit(old(State()), 0)
      ensures result != -2 ==> result == if phase == D.Connected && composed && written then id else -1
    {
      if kind == MqttOutbox.Subscribe && outboxLimit > 0 && outbox.size > outboxLimit {
        return -2;
      }
      if phase != D.Connected || !composed {
        return -1;
      }
      outbox.Enqueue(id, kind, 0, data, [], now);
      assert data + [] == data;
      var ok := outbox.MarkPending(id, Transmitted);
      return if written then id else -1;
    }

    method ExpireMessages(now: int)
      requires Valid()
      modifies outbox
      ensures Valid() && State() == D.Next(old(State()), D.Expire(now))
    {
      var deleted := outbox.DeleteExpired(now, D.EXPIRED_TIMEOUT_MS);
    }

    method Receive(p: D.Packet)
      requires Valid() && phase == D.Connected
      modifies this`sendPublishPacketCount, outbox
      ensures Valid() && State() == D.Next(old(State()), D.Receive(p))
      ensures T.Acknowledges(old(State()), State(), p)
    {
      T.AcknowledgeEffect(State(), p);
      hide T.Acknowledges;
      match p {
        case PubAck(id) =>
          var ok := outbox.DeleteById(id, MqttOutbox.Publish);
          if ok {
            DecrementPacketCounter();
          }
        case PubComp(id) =>
          var ok := outbox.DeleteById(id, MqttOutbox.Publish);
          if ok {
            DecrementPacketCounter();
          }
        case PubRec(id) =>
          var ok := outbox.MarkPending(id, Acknowledged);
        case SubAck(id) =>
          var ok := outbox.DeleteById(id, MqttOutbox.Subscribe);
        case UnsubAck(id) =>
          var ok := outbox.DeleteById(id, Unsubscribe);
        case OtherPacket =>
      }
    }

    /** The earliest queued packet, or a QoS 0 one when the window keeps the earliest back; |items| when none may go. */
    method NextQueued() returns (i: nat)
      requires Valid()
      ensures i == D.NextToSend(State())
    {
      i := outbox.Find(ByState(Queued));
      var open := CheckInflightMaximum();
      if i < |outbox.items| && !open && outbox.items[i].kind == MqttOutbox.Publish && outbox.items[i].qos > 0 {
        i := outbox.Find(ById(0));
        if i < |outbox.items| {
          var item := outbox.items[i];
          if !(item.pending == Queued && item.kind == MqttOutbox.Publish && item.qos == 0) {
            i := |outbox.items|;
          }
        }
      }
    }

    /** Sends the next queued packet, or, when there is none and the time has come, repeats an old one. */
    method PumpOutbox(now: int, written: bool, due: bool, timeout: int, resent: bool, released: bool)
      requires Valid() && phase == D.Connected
      modifies this, outbox
      ensures Valid() && State() == D.Next(old(State()), D.Pump(now, written, due, timeout, resent, released))
      ensures T.Turns(old(State()), State(), D.Pump(now, written, due, timeout, resent, released))
    {
      T.TurnEffect(State(), D.Pump(now, written, due, timeout, resent, released));
      hide T.Turns;
      var i := NextQueued();
      if i < |outbox.items| {
        var item := outbox.items[i];
        if !written {
          phase := D.WaitReconnect;
        } else if item.kind == MqttOutbox.Publish && item.qos == 0 {
          outbox.DeleteItem(i);
        } else {
          MarkTransmitted(item.id, item.kind == MqttOutbox.Publish, now);
        }
      } else if due {
        Retransmit(now, timeout, resent, released);
      }
    }

    method Retransmit(now: int, timeout: int, resent: bool, released: bool)
      requires Valid()
      modifies this`phase, outbox
      ensures Valid() && State() == D.Retransmitted(old(State()), now, timeout, resent, released)
      ensures T.Repeats(old(State()), State(), now, timeout, resent, released)
    {
      T.RepeatEffect(State(), now, timeout, resent, released);
      hide T.Repeats;
      var t := outbox.Find(ByState(Transmitted));
      if t < |outbox.items| && now - outbox.items[t].tick > timeout {
        outbox.MarkDuplicate(t);
        if !resent {
          phase := D.WaitReconnect;
        }
      }
      var a := outbox.Find(ByState(Acknowledged));
      if a < |outbox.items| && now - outbox.items[a].tick > timeout && !released {
        phase := D.WaitReconnect;
      }
    }

    method AbortConnection()
      requires Valid() && phase == D.Connected
      modifies this`phase
      ensures Valid() && State() == D.Next(old(State()), D.Abort)
    {
      phase := D.WaitReconnect;
    }

    /**
     The answer to CONNECT: only an accepted one resets the counter and requeues. The requeue loop is followed for
     as many turns as given; as long as it runs the client is not connected.
     */
    method FinishConnect(accepted: bool, receiveMaximum: nat, turns: nat) returns (ended: bool)
      requires Valid() && phase == D.Init
      modifies this, outbox
      ensures Valid() && (ended ==> State() == D.Next(old(State()), D.Connect(accepted, receiveMaximum)))
      ensures !ended ==> accepted && phase == D.Init && outbox.items == RequeueTurns(old(outbox.items), turns)
      ensures turns >= |old(outbox.items)| ==> (ended <==> !accepted || Requeueable(old(outbox.items)))
    {
      this.receiveMaximum := receiveMaximum;
      ended := true;
      if accepted {
        sendPublishPacketCount := 0;
        ended := RequeueTransmitted(outbox, turns);
        if ended {
          phase := D.Connected;
        }
      } else {
        phase := D.WaitReconnect;
      }
    }

    /**
     One turn of the client's loop while connected, in the order of the source. A failure ends the turn with
     an abort; a write that fails inside PumpOutbox has already dropped the connection by itself.
     */
    method ConnectedTurn(t: Turn)
      requires Valid() && phase == D.Connected
      modifies this, outbox
      ensures Valid() && State() == D.Run(old(State()), TurnEvents(t))
    {
      ghost var before := State();
      ExpireMessages(t.expireAt);
      if t.disconnect {
        AbortConnection();
        RunTwo(before, D.Expire(t.expireAt), D.Abort);
        return;
      }
      Receive(t.packet);
      if t.receiveFails {
        AbortConnection();
        RunThree(before, D.Expire(t.expireAt), D.Receive(t.packet), D.Abort);
        return;
      }
      PumpOutbox(t.now, t.written, t.due, t.timeout, t.resent, t.released);
      RunThree(before, D.Expire(t.expireAt), D.Receive(t.packet), PumpEvent(t));
      FinishTurn(t);
      D.RunOn(before, D.NothingSeen, [D.Expire(t.expireAt), D.Receive(t.packet), PumpEvent(t)], LastEvents(t));
    }

    /** Keep-alive and connection refresh; the refresh leaves the client ready to connect again at once. */
    method FinishTurn(t: Turn)
      requires Valid() && (phase == D.Connected || phase == D.WaitReconnect)
      modifies this`phase
      ensures Valid() && State() == D.Run(old(State()), LastEvents(t))
    {
      ghost var before := State();
      if t.pingFails {
        phase := D.WaitReconnect;
        assert D.Run(before, [D.Abort]) == D.Next(before, D.Abort);
      } else if t.refresh {
        phase := D.WaitReconnect;
        phase := D.Init;
        assert D.Run(before, [D.Refresh]) == D.Next(before, D.Refresh);
      }
    }
  }

  function PumpEvent(t: Turn): D.Event {
    D.Pump(t.now, t.written, t.due, t.timeout, t.resent, t.released)
  }

  function TurnEvents(t: Turn): seq<D.Event> {
    if t.disconnect then [D.Expire(t.expireAt), D.Abort]
    else if t.receiveFails then [D.Expire(t.expireAt), D.Receive(t.packet), D.Abort]
    else [D.Expire(t.expireAt), D.Receive(t.packet), PumpEvent(t)] + LastEvents(t)
  }

  function LastEvents(t: Turn): seq<D.Event> {
    if t.pingFails then [D.Abort] else if t.refresh then [D.Refresh] else []
  }

  lemma RunTwo(c: D.Client, e0: D.Event, e1: D.Event)
    ensures D.Run(c, [e0, e1]) == D.Next(D.Next(c, e0), e1)
  {
    assert [e0, e1][1..] == [e1] && [e1][1..] == [];
    assert D.Run(D.Next(c, e0), [e1]) == D.Next(D.Next(c, e0), e1);
  }

  lemma RunThree(c: D.Client, e0: D.Event, e1: D.Event, e2: D.Event)
    ensures D.Run(c, [e0, e1, e2]) == D.Next(D.Next(D.Next(c, e0), e1), e2)
  {
    assert [e0, e1, e2][1..] == [e1, e2];
    RunTwo(D.Next(c, e0), e1, e2);
  }

  /**
   What one turn does, told by what it leaves and by none of the steps: the old packets go, then a disconnect ends the
   turn, or else the packet read takes effect, then a failure of the read ends it, or else a packet goes out or is
   repeated; a ping that fails drops the connection, and otherwise a refresh starts over, from a drop as well.
   */
  ghost predicate Tells(c: D.Client, next: D.Client, t: Turn, kept: seq<nat>, expired: D.Client, received: D.Client,
                        pumped: D.Client)
  {
    && expired == c.(items := expired.items) && T.KeepsThose(c.items, expired.items, kept)
    && T.KeepsFresh(c.items, kept, t.expireAt, 30000)
    && if t.disconnect then next == expired.(phase := D.WaitReconnect)
       else
         && T.Acknowledges(expired, received, t.packet)
         && if t.receiveFails then next == received.(phase := D.WaitReconnect)
            else
              && T.Turns(received, pumped, PumpEvent(t))
              && next == pumped.(phase := if t.pingFails then D.WaitReconnect
                                          else if t.refresh then D.Phase.Init
                                          else pumped.phase)
  }

  lemma LastTells(c: D.Client, t: Turn)
    requires c.phase == D.Connected || c.phase == D.WaitReconnect
    ensures D.Run(c, LastEvents(t)) ==
              c.(phase := if t.pingFails then D.WaitReconnect else if t.refresh then D.Phase.Init else c.phase)
  {
    RunOne(c, D.Abort);
    RunOne(c, D.Refresh);
  }

  lemma PumpKeepsOn(c: D.Client, t: Turn)
    requires c.phase == D.Connected
    ensures var next := D.Next(c, PumpEvent(t)).phase; next == D.Connected || next == D.WaitReconnect
  {
    T.PhaseIff(c, PumpEvent(t));
    hide T.WriteFails, D.Pumped;
  }

  lemma AbortTells(c: D.Client)
    requires c.phase == D.Connected
    ensures D.Next(c, D.Abort) == c.(phase := D.WaitReconnect)
  {
  }

  lemma TurnTells(c: D.Client, t: Turn)
    returns (kept: seq<nat>, expired: D.Client, received: D.Client, pumped: D.Client)
    requires c.phase == D.Connected
    ensures Tells(c, D.Run(c, TurnEvents(t)), t, kept, expired, received, pumped)
  {
    hide T.KeepsThose, T.KeepsFresh, T.Acknowledges, T.Turns, D.Next, D.Run, LastEvents;
    var e, r, p := D.Expire(t.expireAt), D.Receive(t.packet), PumpEvent(t);
    expired, received, pumped := D.Next(c, e), D.Next(D.Next(c, e), r), D.Next(D.Next(D.Next(c, e), r), p);
    kept := T.ExpireEffect(c, t.expireAt);
    AbortTells(expired);
    RunTwo(c, e, D.Abort);
    T.AcknowledgeEffect(expired, t.packet);
    StaysConnected(expired, received, t.packet);
    AbortTells(received);
    RunThree(c, e, r, D.Abort);
    T.TurnEffect(received, p);
    PumpKeepsOn(received, t);
    LastTells(pumped, t);
    RunThree(c, e, r, p);
    D.RunOn(c, D.NothingSeen, [e, r, p], LastEvents(t));
  }

  lemma StaysConnected(c: D.Client, next: D.Client, p: D.Packet)
    requires T.Acknowledges(c, next, p)
    ensures next.phase == c.phase
  {
  }

  lemma RunOne(c: D.Client, e: D.Event)
    ensures D.Run(c, [e]) == D.Next(c, e)
  {
    assert D.Run(D.Next(c, e), []) == D.Next(c, e);
  }

  /** However its turn ends, one turn keeps the delivery invariant. */
  lemma TurnKeeps(c: D.Client, w: D.Wire, t: Turn)
    requires D.Inv(c, w)
    ensures D.Inv(D.Run(c, TurnEvents(t)), D.Watch(c, w, TurnEvents(t)))
  {
    NoNewIds(c, TurnEvents(t));
    D.RunKeeps(c, w, TurnEvents(t));
  }

  lemma {:induction false} NoNewIds(c: D.Client, events: seq<D.Event>)
    requires forall e :: e in events ==> e.Expire? || e.Receive? || e.Pump? || e.Abort? || e.Refresh?
    ensures D.AdmissibleRun(c, events)
    decreases |events|
  {
    if events != [] {
      assert events[0] in events;
      NoNewIds(D.Next(c, events[0]), events[1..]);
    }
  }
}
