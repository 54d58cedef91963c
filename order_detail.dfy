/**
 * The buyer's order dialog of components/buyer/order-detail-modal.tsx: the
 * order looked up by id, the four-step status timeline, the item lines,
 * the summary with its fixed delivery fee, and the review button.
 */
module OrderDetail {
  import opened Common
  import opened Text
  import opened AppContext
  import opened OrderStatus

  const DeliveryFee: int := 50

  /** The timeline's steps, in order. */
  const Steps: seq<string> := ["pending", "confirmed", "out-for-delivery", "completed"]

  /** `orders.find(o => o.id === orderId)`: the first order with that id. */
  function FindOrder(orders: seq<Order>, orderId: string): (r: Option<Order>)
    ensures r.None? <==> forall i :: 0 <= i < |orders| ==> orders[i].id != orderId
    ensures r.Some? ==> r.value.id == orderId
    ensures r.Some? ==>
      exists k :: 0 <= k < |orders| && orders[k] == r.value && forall j :: 0 <= j < k ==> orders[j].id != orderId
  {
    if orders == [] then None
    else if orders[0].id == orderId then Some(orders[0])
    else
      var r := FindOrder(orders[1..], orderId);
      if r.Some? then
        ghost var k :| 0 <= k < |orders[1..]| && orders[1..][k] == r.value
          && forall j :: 0 <= j < k ==> orders[1..][j].id != orderId;
        assert orders[k + 1] == r.value;
        r
      else r
  }

  /** `statusSteps.indexOf(status)`: the step's position, or -1 for any other status. */
  function StepIndex(status: string): (r: int)
    ensures -1 <= r < |Steps|
    ensures r >= 0 ==> Steps[r] == status
    ensures r == -1 <==> !KnownStatus(status)
  {
    if status == "pending" then 0
    else if status == "confirmed" then 1
    else if status == "out-for-delivery" then 2
    else if status == "completed" then 3
    else -1
  }

  /** Step i is drawn in the primary colour when it is not after the current step. */
  predicate Highlighted(status: string, i: int) {
    i <= StepIndex(status)
  }

  /** The highlighted steps form a prefix; an unknown status highlights none, "completed" all four. */
  lemma HighlightedPrefix(status: string)
    ensures forall i, j :: 0 <= i <= j < |Steps| && Highlighted(status, j) ==> Highlighted(status, i)
    ensures !KnownStatus(status) ==> forall i :: 0 <= i < |Steps| ==> !Highlighted(status, i)
    ensures status == "completed" ==> forall i :: 0 <= i < |Steps| ==> Highlighted(status, i)
    ensures KnownStatus(status) ==> Highlighted(status, 0)
  {
  }

  /** An item line's amount. */
  function LineTotal(item: CartItem): (t: int)
    ensures item.quantity == 0 ==> t == 0
    ensures item.quantity == 1 ==> t == item.price
  {
    item.price * item.quantity
  }

  /** What the dialog shows for a found order. */
  datatype Details = Details(
    highlighted: seq<bool>, lineTotals: seq<int>, subtotal: int, fee: int, total: int,
    paymentLabel: string, canReview: bool)

  /** The amounts of the item lines, in the order's item order. */
  function LineTotals(items: seq<CartItem>): (r: seq<int>)
    ensures |r| == |items|
    ensures forall i :: 0 <= i < |items| ==> r[i] == items[i].price * items[i].quantity
  {
    if items == [] then [] else [LineTotal(items[0])] + LineTotals(items[1..])
  }

  /** The dialog for an order id: nothing when no order has it. */
  function Render(orders: seq<Order>, orderId: string): (r: Option<Details>)
    ensures r.None? <==> forall i :: 0 <= i < |orders| ==> orders[i].id != orderId
    ensures r.Some? ==>
      var o := FindOrder(orders, orderId).value;
      && |r.value.highlighted| == |Steps|
      && (forall i :: 0 <= i < |Steps| ==> r.value.highlighted[i] == Highlighted(o.status, i))
      && r.value.subtotal + r.value.fee == r.value.total == o.totalAmount
      && r.value.fee == DeliveryFee
      && |r.value.lineTotals| == |o.items|
      && (forall i :: 0 <= i < |o.items| ==> r.value.lineTotals[i] == o.items[i].price * o.items[i].quantity)
      && r.value.paymentLabel == ReplaceFirst(o.paymentMethod, '-', ' ')
      && (r.value.canReview <==> o.status == "completed")
  {
    match FindOrder(orders, orderId)
    case None => None
    case Some(o) =>
      var idx := StepIndex(o.status);
      Some(Details(
        [0 <= idx, 1 <= idx, 2 <= idx, 3 <= idx],
        LineTotals(o.items),
        o.totalAmount - DeliveryFee,
        DeliveryFee,
        o.totalAmount,
        ReplaceFirst(o.paymentMethod, '-', ' '),
        o.status == "completed"))
  }

  /** The payment line replaces the method's first hyphen: "bank-transfer" reads "bank transfer". */
  lemma PaymentLabelExample()
    ensures ReplaceFirst("bank-transfer", '-', ' ') == "bank transfer"
  {
    var m := "bank-transfer";
    assert m[0] == 'b' && m[1] == 'a' && m[2] == 'n' && m[3] == 'k' && m[4] == '-';
    assert IndexOf(m, '-') == 4;
    assert m[..4] == "bank" && m[5..] == "transfer";
  }

  /** The dialog's one piece of state: whether the review form is open. */
  class OrderDetailModal {
    var showReview: bool

    constructor()
      ensures !showReview
    {
      showReview := false;
    }

    /** "Leave Review" exists only for a completed order; clicking it opens the review form. */
    method LeaveReview(status: string)
      modifies this
      ensures status == "completed" ==> showReview
      ensures status != "completed" ==> showReview == old(showReview)
    {
      if status == "completed" {
        showReview := true;
      }
    }

    /** The review form's close callback. */
    method CloseReview()
      modifies this
      ensures !showReview
    {
      showReview := false;
    }
  }
}
