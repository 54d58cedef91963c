/**
 * Order statuses as the buyer's order page (app/orders/page.tsx) and the
 * vendor's order table (components/vendor/vendor-orders-table.tsx) show
 * them: a colour class per status, a label made from the status text, and
 * the vendor's status select, which rewrites one order of the table.
 */
module OrderStatus {
  import opened Text
  import opened AppContext

  /** An order; the creation and completion dates are left out. */
  datatype Order = Order(
    id: string, buyerId: string, vendorId: string, items: seq<CartItem>,
    totalAmount: int, status: string, deliveryAddress: string, paymentMethod: string)

  const PendingColor: string := "bg-yellow-100 text-yellow-800"
  const ConfirmedColor: string := "bg-blue-100 text-blue-800"
  const DeliveryColor: string := "bg-purple-100 text-purple-800"
  const CompletedColor: string := "bg-green-100 text-green-800"
  const DefaultColor: string := "bg-gray-100 text-gray-800"

  /** The four statuses an order can have. */
  predicate KnownStatus(s: string) {
    s == "pending" || s == "confirmed" || s == "out-for-delivery" || s == "completed"
  }

  /** `getStatusColor(status)`: one class per known status, gray for anything else. */
  function StatusColor(s: string): (c: string)
    ensures c == PendingColor <==> s == "pending"
    ensures c == ConfirmedColor <==> s == "confirmed"
    ensures c == DeliveryColor <==> s == "out-for-delivery"
    ensures c == CompletedColor <==> s == "completed"
    ensures c == DefaultColor <==> !KnownStatus(s)
  {
    match s
    case "pending" => PendingColor
    case "confirmed" => ConfirmedColor
    case "out-for-delivery" => DeliveryColor
    case "completed" => CompletedColor
    case _ => DefaultColor
  }

  /**
   * `getStatusLabel(status)`: the first character upper-cased and the FIRST
   * hyphen after it turned into a space; every other character is kept.
   */
  function StatusLabel(s: string): (r: string)
    ensures |r| == |s|
    ensures s != [] ==> r[0] == UpperChar(s[0])
    ensures s != [] ==>
      var k := IndexOf(s[1..], '-');
      forall i :: 1 <= i < |s| ==> r[i] == (if i == k + 1 then ' ' else s[i])
  {
    if s == [] then []
    else
      var t := s[1..];
      var rest := ReplaceFirst(t, '-', ' ');
      assert forall i :: 1 <= i < |s| ==> t[i - 1] == s[i];
      [UpperChar(s[0])] + rest
  }

  /** A status without a hyphen only gains its capital. */
  lemma PendingLabel()
    ensures StatusLabel("") == ""
    ensures StatusLabel("pending") == "Pending"
  {
    var p := "pending";
    assert IndexOf(p[1..], '-') == -1;
  }

  /** The first hyphen after the first character becomes a space and the rest follows unchanged. */
  lemma LabelAroundHyphen(a: string, tail: string)
    requires a != [] && forall j :: 0 <= j < |a| ==> a[j] != '-'
    ensures StatusLabel(a + ['-'] + tail) == [UpperChar(a[0])] + a[1..] + [' '] + tail
  {
    var s := a + ['-'] + tail;
    assert s[0] == a[0];
    assert s[1..] == a[1..] + ['-'] + tail;
    FirstHyphenAt(a[1..], tail);
  }

  lemma FirstHyphenAt(head: string, tail: string)
    requires forall j :: 0 <= j < |head| ==> head[j] != '-'
    ensures ReplaceFirst(head + ['-'] + tail, '-', ' ') == head + [' '] + tail
  {
    var t := head + ['-'] + tail;
    HyphenIndex(head, tail);
    assert t[..|head|] == head && t[|head| + 1..] == tail;
  }

  lemma {:induction false} HyphenIndex(head: string, tail: string)
    requires forall j :: 0 <= j < |head| ==> head[j] != '-'
    ensures IndexOf(head + ['-'] + tail, '-') == |head|
  {
    var t := head + ['-'] + tail;
    if head != [] {
      assert t[0] == head[0];
      assert t[1..] == head[1..] + ['-'] + tail;
      HyphenIndex(head[1..], tail);
    }
  }

  /**
   * Only the first hyphen is replaced: "out-for-delivery" reads
   * "Out for-delivery".
   */
  lemma DeliveryLabel(a: string, b: string, c: string)
    requires a != [] && forall j :: 0 <= j < |a| ==> a[j] != '-'
    ensures StatusLabel(a + "-" + b + "-" + c) == [UpperChar(a[0])] + a[1..] + " " + b + "-" + c
  {
    var tail := b + "-" + c;
    LabelAroundHyphen(a, tail);
    assert a + "-" + b + "-" + c == a + ['-'] + tail;
    assert [UpperChar(a[0])] + a[1..] + " " + b + "-" + c == [UpperChar(a[0])] + a[1..] + [' '] + tail;
  }

  /** The status select: `orders.map(o => o.id === orderId ? {...o, status} : o)`. */
  function ChangeStatus(orders: seq<Order>, orderId: string, newStatus: string): (r: seq<Order>)
    ensures |r| == |orders|
    ensures forall i :: 0 <= i < |orders| && orders[i].id != orderId ==> r[i] == orders[i]
    ensures forall i :: 0 <= i < |orders| && orders[i].id == orderId ==>
      r[i].status == newStatus && r[i] == orders[i].(status := newStatus)
  {
    if orders == [] then []
    else
      [if orders[0].id == orderId then orders[0].(status := newStatus) else orders[0]]
      + ChangeStatus(orders[1..], orderId, newStatus)
  }

  /** Choosing the same status twice is the same as choosing it once. */
  lemma ChangeStatusIdempotent(orders: seq<Order>, orderId: string, newStatus: string)
    ensures ChangeStatus(ChangeStatus(orders, orderId, newStatus), orderId, newStatus)
         == ChangeStatus(orders, orderId, newStatus)
  {
    var once := ChangeStatus(orders, orderId, newStatus);
    var twice := ChangeStatus(once, orderId, newStatus);
    assert forall i :: 0 <= i < |orders| ==> once[i].id == orders[i].id;
    assert forall i :: 0 <= i < |orders| ==> twice[i] == once[i];
  }

  /** The ids, and with them the table's keys, are never changed. */
  lemma ChangeStatusKeepsIds(orders: seq<Order>, orderId: string, newStatus: string)
    ensures forall i :: 0 <= i < |orders| ==> ChangeStatus(orders, orderId, newStatus)[i].id == orders[i].id
    ensures forall i :: 0 <= i < |orders| ==>
      ChangeStatus(orders, orderId, newStatus)[i].(status := orders[i].status) == orders[i]
  {
  }

  /** Changing an order and then another commutes when the ids differ. */
  lemma ChangeStatusCommutes(orders: seq<Order>, id1: string, s1: string, id2: string, s2: string)
    requires id1 != id2
    ensures ChangeStatus(ChangeStatus(orders, id1, s1), id2, s2) == ChangeStatus(ChangeStatus(orders, id2, s2), id1, s1)
  {
    var a := ChangeStatus(ChangeStatus(orders, id1, s1), id2, s2);
    var b := ChangeStatus(ChangeStatus(orders, id2, s2), id1, s1);
    forall i | 0 <= i < |orders|
      ensures a[i] == b[i]
    {
    }
  }

  /** `VendorOrdersTable()`'s state. */
  class VendorOrdersTable {
    var orders: seq<Order>

    constructor(initial: seq<Order>)
      ensures orders == initial
    {
      orders := initial;
    }

    /** `handleStatusChange(orderId, newStatus)`. */
    method HandleStatusChange(orderId: string, newStatus: string)
      modifies this
      ensures orders == ChangeStatus(old(orders), orderId, newStatus)
    {
      orders := ChangeStatus(orders, orderId, newStatus);
    }
  }
}
