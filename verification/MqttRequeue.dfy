/**
 After a reconnect every TRANSMITTED packet goes back to QUEUED, so that the new
 connection sends and counts it again; a resent PUBLISH of QoS 1 or 2 carries DUP.
 */
module MqttRequeue {
  import opened MqttOutbox

  /** What one requeue owes each packet. */
  function RequeuedItem(item: Item): Item {
    if item.pending == Transmitted then Duplicate(item).(pending := Queued) else item
  }

  function Requeued(items: seq<Item>): (r: seq<Item>)
    ensures |r| == |items|
  {
    seq(|items|, i requires 0 <= i < |items| => RequeuedItem(items[i]))
  }

  /** One turn of the loop: the first TRANSMITTED packet is read, but its identifier is what is marked. */
  function RequeueOnce(items: seq<Item>): (r: seq<Item>)
    ensures |r| == |items|
  {
    var i := First(items, ByState(Transmitted));
    if i == |items| then items
    else SetPending(items[i := Duplicate(items[i])], items[i].id, Queued)
  }

  function RequeueTurns(items: seq<Item>, turns: nat): seq<Item>
    decreases turns
  {
    if turns == 0 then items else RequeueTurns(RequeueOnce(items), turns - 1)
  }

  function Count(items: seq<Item>): nat {
    if items == [] then 0 else (if items[0].pending == Transmitted then 1 else 0) + Count(items[1..])
  }

  ghost predicate LeadsItsId(items: seq<Item>, i: nat)
    requires i < |items|
  {
    forall j :: 0 <= j < i ==> items[j].id != items[i].id
  }

  /** Every TRANSMITTED packet is the first one in the outbox with its identifier. */
  ghost predicate Requeueable(items: seq<Item>) {
    forall i :: 0 <= i < |items| && items[i].pending == Transmitted ==> LeadsItsId(items, i)
  }

  lemma CountUpdate(items: seq<Item>, i: nat, item: Item)
    requires i < |items|
    requires items[i].pending == Transmitted && item.pending != Transmitted
    ensures Count(items[i := item]) == Count(items) - 1
  {
    if i == 0 {
      assert items[0 := item][1..] == items[1..];
    } else {
      assert items[i := item][1..] == items[1..][i - 1 := item];
      CountUpdate(items[1..], i - 1, item);
    }
  }

  /** With a leading packet, one turn settles exactly that packet and loses no progress elsewhere. */
  lemma OneTurn(items: seq<Item>)
    requires Requeueable(items) && Has(items, ByState(Transmitted))
    ensures var i := First(items, ByState(Transmitted));
            RequeueOnce(items) == items[i := RequeuedItem(items[i])]
    ensures Count(RequeueOnce(items)) == Count(items) - 1
    ensures Requeueable(RequeueOnce(items))
    ensures Requeued(RequeueOnce(items)) == Requeued(items)
  {
    var i := First(items, ByState(Transmitted));
    assert LeadsItsId(items, i);
    var marked := items[i := Duplicate(items[i])];
    FirstIs(marked, ById(items[i].id), i);
    var after := items[i := RequeuedItem(items[i])];
    assert RequeueOnce(items) == after;
    CountUpdate(items, i, RequeuedItem(items[i]));
    forall k | 0 <= k < |after| && after[k].pending == Transmitted
      ensures LeadsItsId(after, k)
    {
      assert LeadsItsId(items, k);
    }
  }

  lemma NoneLeft(items: seq<Item>)
    requires !Has(items, ByState(Transmitted))
    ensures Requeued(items) == items
  {
  }

  /**
   No packet is lost, reordered or left TRANSMITTED, and DUP lands on exactly the requeued QoS 1 and 2 PUBLISH
   packets.
   */
  lemma RequeueEffect(items: seq<Item>, i: nat)
    requires i < |items|
    ensures !Has(Requeued(items), ByState(Transmitted))
    ensures var before, after := items[i], Requeued(items)[i];
            && after.id == before.id && after.kind == before.kind && after.qos == before.qos
            && after.tick == before.tick
            && after.pending == (if before.pending == Transmitted then Queued else before.pending)
            && |after.data| == |before.data|
            && (forall b :: 1 <= b < |before.data| ==> after.data[b] == before.data[b])
            && (before.data != [] ==>
                && (after.data[0] | 8 == before.data[0] | 8)
                && (before.pending == Transmitted && IsCounted(before) ==> after.data[0] & 8 == 8)
                && (before.pending != Transmitted || !IsCounted(before) ==> after.data[0] == before.data[0]))
  {
  }

  /** A TRANSMITTED packet behind another of its identifier is never the one that gets marked. */
  lemma ShadowStays(items: seq<Item>, i: nat, turns: nat)
    requires i < |items| && items[i].pending == Transmitted && !LeadsItsId(items, i)
    ensures |RequeueTurns(items, turns)| == |items|
    ensures RequeueTurns(items, turns)[i].pending == Transmitted
    decreases turns
  {
    if turns > 0 {
      var next := RequeueOnce(items);
      var j :| 0 <= j < i && items[j].id == items[i].id;
      assert next[i].pending == Transmitted && next[j].id == next[i].id by {
        var f := First(items, ByState(Transmitted));
        var marked := items[f := Duplicate(items[f])];
        var g := First(marked, ById(items[f].id));
        assert marked[j].id == marked[i].id;
        if items[f].id == items[i].id {
          FirstAtMost(marked, ById(items[f].id), j);
        }
      }
      ShadowStays(next, i, turns - 1);
    }
  }

  lemma NeverSettles(items: seq<Item>, turns: nat)
    requires !Requeueable(items)
    ensures Has(RequeueTurns(items, turns), ByState(Transmitted))
  {
    var i :| 0 <= i < |items| && items[i].pending == Transmitted && !LeadsItsId(items, i);
    ShadowStays(items, i, turns);
    assert Matches(ByState(Transmitted), RequeueTurns(items, turns)[i]);
  }

  lemma {:induction false} NoTurnsLeft(items: seq<Item>, turns: nat)
    requires !Has(items, ByState(Transmitted))
    ensures RequeueTurns(items, turns) == items
    decreases turns
  {
    if turns > 0 {
      NoTurnsLeft(items, turns - 1);
    }
  }

  /** As many turns as there are TRANSMITTED packets settle all of them, and more change nothing. */
  lemma {:induction false} TurnsSettle(items: seq<Item>, turns: nat)
    requires Requeueable(items)
    ensures turns >= Count(items) ==> !Has(RequeueTurns(items, turns), ByState(Transmitted))
    ensures !Has(RequeueTurns(items, turns), ByState(Transmitted)) ==> RequeueTurns(items, turns) == Requeued(items)
    decreases turns
  {
    if !Has(items, ByState(Transmitted)) {
      NoneLeft(items);
      NoTurnsLeft(items, turns);
    } else {
      OneTurn(items);
      if turns > 0 {
        TurnsSettle(RequeueOnce(items), turns - 1);
      }
    }
  }

  lemma {:induction false} CountAtMost(items: seq<Item>)
    ensures Count(items) <= |items|
  {
    if items != [] {
      CountAtMost(items[1..]);
    }
  }

  /** Turns that leave nothing TRANSMITTED have requeued everything as they should, and enough turns do that. */
  lemma EndedTurns(items: seq<Item>, turns: nat)
    ensures var after := RequeueTurns(items, turns);
            && (!Has(after, ByState(Transmitted)) ==> after == Requeued(items) && Requeueable(items))
            && (turns >= |items| && Requeueable(items) ==> !Has(after, ByState(Transmitted)))
  {
    if Requeueable(items) {
      CountAtMost(items);
      TurnsSettle(items, turns);
    } else {
      NeverSettles(items, turns);
    }
  }

  /**
   The loop itself, followed for as many turns as given. It ends with every TRANSMITTED packet requeued, and it
   does so within as many turns as there are packets whenever every TRANSMITTED one leads its identifier.
   */
  method RequeueTransmitted(outbox: Outbox, turns: nat) returns (ended: bool)
    requires outbox.Valid()
    modifies outbox
    ensures outbox.Valid() && outbox.items == RequeueTurns(old(outbox.items), turns)
    ensures ended <==> !Has(outbox.items, ByState(Transmitted))
    ensures ended ==> outbox.items == Requeued(old(outbox.items))
    ensures turns >= |old(outbox.items)| ==> (ended <==> Requeueable(old(outbox.items)))
  {
    hide Requeueable, Requeued, TotalLen;
    ghost var before := outbox.items;
    var left: nat := turns;
    var i := outbox.Find(ByState(Transmitted));
    while i < |outbox.items| && left > 0
      invariant outbox.Valid() && left <= turns
      invariant i == First(outbox.items, ByState(Transmitted))
      invariant RequeueTurns(outbox.items, left) == RequeueTurns(before, turns)
      decreases left
    {
      var id := outbox.items[i].id;
      outbox.MarkDuplicate(i);
      FirstAtMost(outbox.items, ById(id), i);
      var ok := outbox.MarkPending(id, Queued);
      if !ok {
        break;
      }
      i := outbox.Find(ByState(Transmitted));
      left := left - 1;
    }
    ended := i >= |outbox.items|;
    if ended {
      NoTurnsLeft(outbox.items, left);
    }
    EndedTurns(before, turns);
  }

  /**
   The loop comes to an end if and only if every TRANSMITTED packet leads its identifier. No run of the client
   leads to another outbox: MqttDelivery.RequeueAlwaysEnds.
   */
  lemma RequeueEndsIff(items: seq<Item>)
    ensures (exists turns: nat :: !Has(RequeueTurns(items, turns), ByState(Transmitted))) <==> Requeueable(items)
  {
    if Requeueable(items) {
      TurnsSettle(items, Count(items));
    } else {
      forall turns: nat
        ensures Has(RequeueTurns(items, turns), ByState(Transmitted))
      {
        NeverSettles(items, turns);
      }
    }
  }
}
