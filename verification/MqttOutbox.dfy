/**
 The MQTT client's outbox: a list of packets waiting to be sent or acknowledged.
 The list is searched from its head, changed in place and kept in arrival order;
 `size` counts the bytes it stores.
 */
module MqttOutbox {

  type byte = bv8

  datatype Pending = Queued | Transmitted | Acknowledged | Confirmed

  /** The packet types that enter the outbox. */
  datatype PacketType = Publish | Subscribe | Unsubscribe

  datatype Item = Item(id: nat, kind: PacketType, qos: nat, tick: int, pending: Pending, data: seq<byte>)

  /** What a list search looks for. */
  datatype Query = ById(id: nat) | ByState(pending: Pending) | ByIdAndType(id': nat, kind: PacketType)

  predicate Matches(q: Query, item: Item) {
    match q
    case ById(id) => item.id == id
    case ByState(pending) => item.pending == pending
    case ByIdAndType(id, kind) => item.id == id && item.kind == kind
  }

  /** The position of the first match, or |items| when there is none. */
  function First(items: seq<Item>, q: Query): (i: nat)
    ensures i <= |items|
    ensures i < |items| ==> Matches(q, items[i])
    ensures forall j :: 0 <= j < i ==> !Matches(q, items[j])
  {
    if items == [] || Matches(q, items[0]) then 0 else 1 + First(items[1..], q)
  }

  predicate Has(items: seq<Item>, q: Query) {
    First(items, q) < |items|
  }

  lemma FirstIs(items: seq<Item>, q: Query, i: nat)
    requires i <= |items|
    requires i < |items| ==> Matches(q, items[i])
    requires forall j :: 0 <= j < i ==> !Matches(q, items[j])
    ensures First(items, q) == i
  {
  }

  lemma FirstAtMost(items: seq<Item>, q: Query, i: nat)
    requires i < |items| && Matches(q, items[i])
    ensures First(items, q) <= i
  {
  }

  function Without(items: seq<Item>, i: nat): seq<Item>
    requires i < |items|
  {
    items[..i] + items[i + 1..]
  }

  function SetPending(items: seq<Item>, id: nat, pending: Pending): seq<Item> {
    var i := First(items, ById(id));
    if i < |items| then items[i := items[i].(pending := pending)] else items
  }

  function SetTick(items: seq<Item>, id: nat, tick: int): seq<Item> {
    var i := First(items, ById(id));
    if i < |items| then items[i := items[i].(tick := tick)] else items
  }

  function Delete(items: seq<Item>, id: nat, kind: PacketType): seq<Item> {
    var i := First(items, ByIdAndType(id, kind));
    if i < |items| then Without(items, i) else items
  }

  predicate Expired(item: Item, now: int, timeout: int) {
    now - item.tick > timeout
  }

  /** What is left once every expired item is gone. */
  function Unexpired(items: seq<Item>, now: int, timeout: int): seq<Item> {
    if items == [] then []
    else (if Expired(items[0], now, timeout) then [] else [items[0]]) + Unexpired(items[1..], now, timeout)
  }

  /** The loop position moves past a kept item; an expired one is cut out and the position stays. */
  lemma UnexpiredAt(items: seq<Item>, i: nat, now: int, timeout: int)
    requires i < |items|
    ensures var done := items[..i] + Unexpired(items[i..], now, timeout);
            if Expired(items[i], now, timeout)
            then Without(items, i)[..i] + Unexpired(Without(items, i)[i..], now, timeout) == done
            else items[..i + 1] + Unexpired(items[i + 1..], now, timeout) == done
  {
  }

  /** The DUP flag is bit 3 of the first byte. */
  function WithDup(data: seq<byte>): seq<byte> {
    if data == [] then data else data[0 := data[0] | 8]
  }

  predicate IsCounted(item: Item) {
    item.kind == Publish && item.qos > 0
  }

  /** A PUBLISH of QoS 1 or 2 with its DUP flag set, any other packet as it is. */
  function Duplicate(item: Item): Item {
    if IsCounted(item) then item.(data := WithDup(item.data)) else item
  }

  function TotalLen(items: seq<Item>): nat {
    if items == [] then 0 else |items[0].data| + TotalLen(items[1..])
  }

  lemma TotalLenConcat(a: seq<Item>, b: seq<Item>)
    ensures TotalLen(a + b) == TotalLen(a) + TotalLen(b)
  {
    if a == [] {
      assert a + b == b;
    } else {
      assert (a + b)[1..] == a[1..] + b;
    }
  }

  lemma TotalLenWithout(items: seq<Item>, i: nat)
    requires i < |items|
    ensures TotalLen(Without(items, i)) == TotalLen(items) - |items[i].data|
  {
    TotalLenConcat(items[..i], items[i + 1..]);
    TotalLenConcat(items[..i], items[i..]);
    assert items == items[..i] + items[i..];
    assert items[i..][1..] == items[i + 1..];
  }

  lemma TotalLenUpdate(items: seq<Item>, i: nat, item: Item)
    requires i < |items| && |item.data| == |items[i].data|
    ensures TotalLen(items[i := item]) == TotalLen(items)
  {
    if i > 0 {
      assert items[i := item][1..] == items[1..][i - 1 := item];
      TotalLenUpdate(items[1..], i - 1, item);
    }
  }

  class Outbox {
    var items: seq<Item>
    var size: nat

    ghost predicate Valid()
      reads this
    {
      size == TotalLen(items)
    }

    constructor ()
      ensures Valid() && items == []
    {
      items := [];
      size := 0;
    }

    method Find(q: Query) returns (i: nat)
      ensures i == First(items, q)
    {
      i := 0;
      while i < |items| && !Matches(q, items[i])
        invariant i <= |items|
        invariant forall j :: 0 <= j < i ==> !Matches(q, items[j])
      {
        i := i + 1;
      }
      FirstIs(items, q, i);
    }

    /** Copies the packet and whatever part of it did not fit the send buffer. */
    method Enqueue(id: nat, kind: PacketType, qos: nat, data: seq<byte>, remaining: seq<byte>, tick: int)
      requires Valid()
      modifies this
      ensures Valid()
      ensures items == old(items) + [Item(id, kind, qos, tick, Queued, data + remaining)]
    {
      var item := Item(id, kind, qos, tick, Queued, data + remaining);
      TotalLenConcat(items, [item]);
      items := items + [item];
      size := size + |item.data|;
    }

    method DeleteItem(i: nat)
      requires Valid() && i < |items|
      modifies this
      ensures Valid() && items == Without(old(items), i)
    {
      TotalLenWithout(items, i);
      size := size - |items[i].data|;
      items := items[..i] + items[i + 1..];
    }

    method DeleteById(id: nat, kind: PacketType) returns (ok: bool)
      requires Valid()
      modifies this
      ensures Valid() && items == Delete(old(items), id, kind)
      ensures ok == Has(old(items), ByIdAndType(id, kind))
    {
      var i := Find(ByIdAndType(id, kind));
      ok := i < |items|;
      if ok {
        DeleteItem(i);
      }
    }

    method MarkPending(id: nat, pending: Pending) returns (ok: bool)
      requires Valid()
      modifies this
      ensures Valid() && items == SetPending(old(items), id, pending)
      ensures ok == Has(old(items), ById(id))
    {
      var i := Find(ById(id));
      ok := i < |items|;
      if ok {
        TotalLenUpdate(items, i, items[i].(pending := pending));
        items := items[i := items[i].(pending := pending)];
      }
    }

    method MarkTick(id: nat, tick: int) returns (ok: bool)
      requires Valid()
      modifies this
      ensures Valid() && items == SetTick(old(items), id, tick)
      ensures ok == Has(old(items), ById(id))
    {
      var i := Find(ById(id));
      ok := i < |items|;
      if ok {
        TotalLenUpdate(items, i, items[i].(tick := tick));
        items := items[i := items[i].(tick := tick)];
      }
    }

    /** Sets the DUP flag in the stored packet itself, when the packet is a PUBLISH of QoS 1 or 2. */
    method MarkDuplicate(i: nat)
      requires Valid() && i < |items|
      modifies this
      ensures Valid() && items == old(items)[i := Duplicate(old(items)[i])]
    {
      if IsCounted(items[i]) && items[i].data != [] {
        var data := items[i].data[0 := items[i].data[0] | 8];
        TotalLenUpdate(items, i, items[i].(data := data));
        items := items[i := items[i].(data := data)];
      }
    }

    method DeleteExpired(now: int, timeout: int) returns (deleted: nat)
      requires Valid()
      modifies this
      ensures Valid() && items == Unexpired(old(items), now, timeout)
      ensures deleted == |old(items)| - |items|
    {
      var i := 0;
      deleted := 0;
      while i < |items|
        invariant Valid() && i <= |items|
        invariant items[..i] + Unexpired(items[i..], now, timeout) == Unexpired(old(items), now, timeout)
        invariant deleted == |old(items)| - |items|
        decreases |items| - i
      {
        UnexpiredAt(items, i, now, timeout);
        if Expired(items[i], now, timeout) {
          DeleteItem(i);
          deleted := deleted + 1;
        } else {
          i := i + 1;
        }
      }
      assert items[..i] == items;
    }

    method DeleteAll()
      requires Valid()
      modifies this
      ensures Valid() && items == []
    {
      while items != []
        invariant Valid()
        decreases |items|
      {
        DeleteItem(0);
      }
    }
  }
}
