/**
 * The seller's order detail screen (src/seller/screens/SellerOrderDetailScreen.js).
 *
 * Two state cells, `order` and `loading`, are updated by the status handler:
 * choosing the order's current status does nothing; any other choice opens a
 * confirmation dialog, and on "Confirm" the screen calls updateOrderStatus and
 * replaces the order's status. The dialogs raised and the requests sent are
 * kept as logs. `SellerState` with `AfterStatusUpdate` and `RunTaps` is the
 * specification; the class `SellerOrderDetailScreen` holds the handler as a
 * method proved equal to it.
 */
module SellerOrderDetail {
  import opened Wrappers
  import opened Api

  /** The four statuses the screen offers, in button order. */
  const StatusChoices: seq<string> := ["PENDING", "SHIPPED", "DELIVERED", "CANCELLED"]

  /** The theme's secondary text colour, used for any status outside the four. */
  const TextSecondary := "#666666"

  /** One status button. */
  datatype Choice = Pending | Shipped | Delivered | Cancelled
  {
    function Name(): (s: string)
      ensures s in StatusChoices
    {
      match this
      case Pending => "PENDING"
      case Shipped => "SHIPPED"
      case Delivered => "DELIVERED"
      case Cancelled => "CANCELLED"
    }
  }

  /** An order as the server sent it; `status` is whatever string the server stored. */
  datatype Order = Order(id: string, status: string, customerName: string, totalAmount: int, createdAt: string)

  datatype StatusRequest = StatusRequest(orderId: string, status: string)
  datatype Dialog = Dialog(title: string, message: string)

  datatype SellerState = SellerState(order: Order, loading: bool, requests: seq<StatusRequest>, dialogs: seq<Dialog>)

  /** A tap on a status button, the user's answer to the dialog, and the server's behaviour. */
  datatype Tap = Tap(choice: Choice, confirmed: bool, reply: Outcome<StatusReply>)

  /** getStatusColor: a fixed colour for each known status, the secondary text colour otherwise. */
  function StatusColor(status: string): (c: string)
    ensures c == TextSecondary <==> status !in StatusChoices
  {
    if status == "DELIVERED" then "#4CAF50"
    else if status == "PENDING" then "#FF9800"
    else if status == "SHIPPED" then "#2196F3"
    else if status == "CANCELLED" then "#F44336"
    else TextSecondary
  }

  function ConfirmDialog(newStatus: string): Dialog
  {
    Dialog("Update Order Status", "Are you sure you want to change the status to " + newStatus + "?")
  }

  /** The status the screen stores after a call that returned: the server's, or the requested one if that is falsy. */
  function StoredStatus(reply: StatusReply, newStatus: string): (r: string)
    ensures Truthy(reply.status) ==> r == reply.status.value && r != ""
    ensures !Truthy(reply.status) ==> r == newStatus
  {
    if Truthy(reply.status) then reply.status.value else newStatus
  }

  /**
   * handleStatusUpdate(newStatus) and the dialog's outcome. The same status is
   * a no-op; "Cancel" leaves only the dialog; "Confirm" sends the request and
   * replaces the status alone when the call returns, keeps the order when it
   * throws, and ends with loading false either way.
   */
  function AfterStatusUpdate(s: SellerState, newStatus: string, confirmed: bool, reply: Outcome<StatusReply>): (r: SellerState)
    ensures newStatus == s.order.status ==> r == s
    ensures newStatus != s.order.status && !confirmed ==> r == s.(dialogs := s.dialogs + [ConfirmDialog(newStatus)])
    ensures newStatus != s.order.status && confirmed ==>
      && !r.loading
      && r.requests == s.requests + [StatusRequest(s.order.id, newStatus)]
      && r.order == (if reply.Returned? then s.order.(status := StoredStatus(reply.body, newStatus)) else s.order)
      && r.dialogs == s.dialogs + [ConfirmDialog(newStatus),
                                   if reply.Returned? then Dialog("Success", "Order status updated successfully!")
                                   else Dialog("Error", "Could not update order status.")]
  {
    if newStatus == s.order.status then s
    else
      var asked := s.(dialogs := s.dialogs + [ConfirmDialog(newStatus)]);
      if !confirmed then asked
      else
        var sent := asked.(loading := true, requests := asked.requests + [StatusRequest(s.order.id, newStatus)]);
        var done :=
          match reply
          case Returned(body) =>
            sent.(order := sent.order.(status := StoredStatus(body, newStatus)),
                  dialogs := sent.dialogs + [Dialog("Success", "Order status updated successfully!")])
          case Threw(_) =>
            sent.(dialogs := sent.dialogs + [Dialog("Error", "Could not update order status.")]);
        done.(loading := false)
  }

  /** A tap on a status button; the buttons are disabled while loading. */
  function AfterTap(s: SellerState, tap: Tap): (r: SellerState)
    ensures s.loading ==> r == s
    ensures r.order.id == s.order.id
    ensures |r.requests| >= |s.requests| && r.requests[..|s.requests|] == s.requests
    ensures |r.dialogs| >= |s.dialogs| && r.dialogs[..|s.dialogs|] == s.dialogs
  {
    if s.loading then s else AfterStatusUpdate(s, tap.choice.Name(), tap.confirmed, tap.reply)
  }

  /** The state after a sequence of taps; the order's id and the request and dialog logs are kept. */
  function RunTaps(s: SellerState, taps: seq<Tap>): (r: SellerState)
    ensures r.order.id == s.order.id
    ensures |r.requests| >= |s.requests| && r.requests[..|s.requests|] == s.requests
    ensures |r.dialogs| >= |s.dialogs| && r.dialogs[..|s.dialogs|] == s.dialogs
    decreases |taps|
  {
    if taps == [] then s
    else
      var next := AfterTap(s, taps[0]);
      var r := RunTaps(next, taps[1..]);
      assert r.requests[..|s.requests|] == r.requests[..|next.requests|][..|s.requests|];
      assert r.dialogs[..|s.dialogs|] == r.dialogs[..|next.dialogs|][..|s.dialogs|];
      r
  }

  /** The reply echoes nothing truthy, or the call threw: the stored status is then the requested one. */
  predicate Plain(tap: Tap)
  {
    tap.reply.Threw? || !Truthy(tap.reply.body.status)
  }

  // ---------------------------------------------------------------------------
  // Lemmas
  // ---------------------------------------------------------------------------

  /** The four colours are distinct, and none is the fallback. */
  lemma StatusColorsDistinct(a: Choice, b: Choice)
    ensures StatusColor(a.Name()) != TextSecondary
    ensures a != b ==> StatusColor(a.Name()) != StatusColor(b.Name())
  {
  }

  /** Every offered status is a button, and every button is an offered status. */
  lemma ChoicesAreTheOfferedStatuses(status: string)
    ensures status in StatusChoices <==> exists c: Choice :: c.Name() == status
  {
    if status in StatusChoices {
      var i :| 0 <= i < |StatusChoices| && StatusChoices[i] == status;
      var c := [Pending, Shipped, Delivered, Cancelled][i];
      assert c.Name() == status;
    }
  }

  /**
   * No transition is forbidden: from any status to any different offered one,
   * a confirmed update whose call returns without a status stores the request.
   */
  lemma AnyTransitionAllowed(s: SellerState, to: Choice, body: StatusReply)
    requires s.order.status != to.Name() && !Truthy(body.status)
    ensures AfterStatusUpdate(s, to.Name(), true, Returned(body)).order == s.order.(status := to.Name())
  {
  }

  /** For example, a delivered order can be set back to pending. */
  lemma DeliveredBackToPending(s: SellerState)
    requires s.order.status == "DELIVERED"
    ensures AfterStatusUpdate(s, "PENDING", true, Returned(StatusReply(None))).order.status == "PENDING"
  {
  }

  /**
   * Over any sequence of taps from a screen that is not loading: loading is
   * false, only the status of the order may differ, and every request names
   * this order and one of the offered statuses.
   */
  lemma {:induction false} RunChangesOnlyStatus(s: SellerState, taps: seq<Tap>)
    requires !s.loading
    requires forall i :: 0 <= i < |s.requests| ==> s.requests[i].orderId == s.order.id && s.requests[i].status in StatusChoices
    ensures !RunTaps(s, taps).loading
    ensures RunTaps(s, taps).order == s.order.(status := RunTaps(s, taps).order.status)
    ensures forall i :: 0 <= i < |RunTaps(s, taps).requests| ==>
      RunTaps(s, taps).requests[i].orderId == s.order.id && RunTaps(s, taps).requests[i].status in StatusChoices
    decreases |taps|
  {
    if taps != [] {
      var next := AfterTap(s, taps[0]);
      assert next.order.id == s.order.id;
      forall i | 0 <= i < |next.requests|
        ensures next.requests[i].orderId == next.order.id && next.requests[i].status in StatusChoices
      {
        if i >= |s.requests| {
          assert next.requests[i] == StatusRequest(s.order.id, taps[0].choice.Name());
        }
      }
      RunChangesOnlyStatus(next, taps[1..]);
    }
  }

  /**
   * When the server never echoes a truthy status, the order's status stays
   * either the initial one or one of the four offered.
   */
  lemma {:induction false} PlainRunKeepsKnownStatus(s: SellerState, taps: seq<Tap>, initial: string)
    requires s.order.status == initial || s.order.status in StatusChoices
    requires forall i :: 0 <= i < |taps| ==> Plain(taps[i])
    ensures RunTaps(s, taps).order.status == initial || RunTaps(s, taps).order.status in StatusChoices
    decreases |taps|
  {
    if taps != [] {
      var next := AfterTap(s, taps[0]);
      assert next.order.status == s.order.status || next.order.status == taps[0].choice.Name();
      PlainTail(taps);
      PlainRunKeepsKnownStatus(next, taps[1..], initial);
    }
  }

  lemma PlainTail(taps: seq<Tap>)
    requires taps != [] && forall i :: 0 <= i < |taps| ==> Plain(taps[i])
    ensures forall i :: 0 <= i < |taps[1..]| ==> Plain(taps[1..][i])
  {
    forall i | 0 <= i < |taps[1..]| ensures Plain(taps[1..][i]) {
      assert taps[1..][i] == taps[i + 1];
    }
  }

  // ---------------------------------------------------------------------------
  // The screen
  // ---------------------------------------------------------------------------

  class SellerOrderDetailScreen {
    var order: Order
    var loading: bool
    var requests: seq<StatusRequest>
    var dialogs: seq<Dialog>

    function Snapshot(): SellerState
      reads this
    {
      SellerState(order, loading, requests, dialogs)
    }

    /** The screen mounts with the order it was given and not loading. */
    constructor (initialOrder: Order)
      ensures Snapshot() == SellerState(initialOrder, false, [], [])
    {
      order := initialOrder;
      loading := false;
      requests := [];
      dialogs := [];
    }

    method HandleStatusUpdate(newStatus: string, confirmed: bool, reply: Outcome<StatusReply>)
      modifies this
      ensures Snapshot() == AfterStatusUpdate(old(Snapshot()), newStatus, confirmed, reply)
    {
      if newStatus == order.status {
        return;
      }
      dialogs := dialogs + [ConfirmDialog(newStatus)];
      if !confirmed {
        return;
      }
      loading := true;
      requests := requests + [StatusRequest(order.id, newStatus)];
      if reply.Returned? {
        order := order.(status := StoredStatus(reply.body, newStatus));
        dialogs := dialogs + [Dialog("Success", "Order status updated successfully!")];
      } else {
        dialogs := dialogs + [Dialog("Error", "Could not update order status.")];
      }
      loading := false;
    }

    /** A status button: disabled while loading. */
    method OnStatusPress(tap: Tap)
      modifies this
      ensures Snapshot() == AfterTap(old(Snapshot()), tap)
    {
      if !loading {
        HandleStatusUpdate(tap.choice.Name(), tap.confirmed, tap.reply);
      }
    }
  }
}
