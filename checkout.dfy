/**
 * The buyer checkout screen (src/buyer/screens/CheckoutScreen.js).
 *
 * Four state cells (step, loading, transactionId, shippingInfo) are updated by
 * three button handlers, each wrapped around awaited remote calls. What the
 * screen sends and shows is kept as two logs: the requests issued, in order,
 * and the alerts raised. Each remote call is a parameter: it throws, or it
 * returns a body.
 *
 * `State` and the functions `AfterSelect`, `AfterInit`, `AfterConfirm`,
 * `Press` and `Run` are the specification; the class `CheckoutScreen` carries
 * the handlers as step-by-step methods proved equal to it.
 */
module Checkout {
  import opened Wrappers
  import opened Api
  import opened CartStore

  datatype ShippingInfo = ShippingInfo(name: string, address: string, phone: string)

  /** The shipping form's initial contents. */
  const DefaultShipping := ShippingInfo("John Doe", "123 Farmer St, Agriville", "9876543210")
  const FlowId := "agricultural_flow_1"
  const Dashboard := "BuyerDashboard"

  /** Stands for the engine's TypeError text when `search` reports success without `data`. */
  const MissingDataMessage := "TypeError: result.data is undefined"

  datatype ConfirmItem = ConfirmItem(id: string, name: string, price: int)
  datatype Payment = Payment(kind: string, status: string)
  datatype ConfirmInputs =
    ConfirmInputs(customerName: string, totalAmount: int, sellerId: string, items: seq<ConfirmItem>, payment: Payment)

  /** The remote calls the screen issues, with the arguments it passes. */
  datatype Request =
    | Search(sessionId: string, flowId: string)
    | Select(issuedId: string, itemId: string, quantity: int)
    | Init(transactionId: Option<string>, billing: ShippingInfo, fulfillment: string)
    | Confirm(transactionId: Option<string>, inputs: ConfirmInputs)

  /** An alert dialog; `resetsTo` is the route its OK button resets navigation to, if any. */
  datatype Alert = Alert(title: string, message: string, resetsTo: Option<string>)

  /**
   * The navigation parameter `product`: a catalogue product, or the first cart
   * line spread with `checkoutTotal` and `isCartCheckout`. The screen reads
   * only the product fields.
   */
  datatype CheckoutParams =
    CheckoutParams(product: Product, quantity: Option<int>, checkoutTotal: Option<int>, isCartCheckout: bool)

  datatype State = State(
    step: int,
    loading: bool,
    transactionId: Option<string>,
    shippingInfo: ShippingInfo,
    requests: seq<Request>,
    alerts: seq<Alert>)

  /** The remote behaviour one press of the action button meets. */
  datatype Remote = Remote(
    sessionId: string,
    search: Outcome<SearchResult>,
    select: Outcome<Envelope>,
    init: Outcome<Envelope>,
    confirm: Outcome<Envelope>)

  /** What the user can do on the screen. */
  datatype Event =
    | Press(remote: Remote)
    | EditName(text: string)
    | EditAddress(text: string)
    | EditPhone(text: string)

  function Initial(): State
  {
    State(1, false, None, DefaultShipping, [], [])
  }

  function ErrorAlert(message: string): Alert
  {
    Alert("Error", message, None)
  }

  /** The transaction id `search` hands out, when its result passes the screen's test. */
  predicate Issues(search: Outcome<SearchResult>)
  {
    search.Returned? && search.body.success && search.body.data.Some? && Truthy(search.body.data.value.transactionId)
  }

  function IssuedId(search: Outcome<SearchResult>): string
    requires Issues(search)
  {
    search.body.data.value.transactionId.value
  }

  /** The error text the select handler's catch block receives. */
  function SearchError(search: Outcome<SearchResult>): (m: string)
    requires !Issues(search)
    ensures search.Threw? ==> m == search.message
    ensures search.Returned? && search.body.success && search.body.data.None? ==> m == MissingDataMessage
    ensures search.Returned? && !(search.body.success && search.body.data.None?) ==> m == "Failed to start transaction"
  {
    match search
    case Threw(m) => m
    case Returned(res) =>
      if res.success && res.data.None? then MissingDataMessage else "Failed to start transaction"
  }

  /** The confirm payload: built from the shipping name and the product alone. */
  function ConfirmPayload(product: Product, shipping: ShippingInfo): (p: ConfirmInputs)
    ensures p.customerName == shipping.name && p.sellerId == product.sellerId
    ensures p.totalAmount == product.price
    ensures p.items == [ConfirmItem(product.id, product.name, product.price)]
    ensures p.payment == Payment("COD", "PENDING")
  {
    ConfirmInputs(
      shipping.name,
      product.price,
      product.sellerId,
      [ConfirmItem(product.id, product.name, product.price)],
      Payment("COD", "PENDING"))
  }

  /**
   * handleSelect: search, store the issued id, select the product with
   * quantity 1, then step 2. The select response is not inspected; only a
   * throw stops the step.
   */
  function AfterSelect(s: State, product: Product, sessionId: string,
                       search: Outcome<SearchResult>, select: Outcome<Envelope>): (r: State)
    ensures !r.loading && r.shippingInfo == s.shippingInfo
    ensures r.step == if Issues(search) && select.Returned? then 2 else s.step
    ensures Issues(search) ==> r.transactionId == Some(IssuedId(search))
    ensures !Issues(search) ==> r.transactionId == s.transactionId
    ensures r.requests == s.requests + [Search(sessionId, FlowId)] +
                          (if Issues(search) then [Select(IssuedId(search), product.id, 1)] else [])
    ensures Issues(search) && select.Returned? ==> r.alerts == s.alerts
    ensures !(Issues(search) && select.Returned?) ==>
      |r.alerts| == |s.alerts| + 1 && r.alerts[..|s.alerts|] == s.alerts && r.alerts[|s.alerts|].title == "Error"
    ensures !Issues(search) ==> r.alerts == s.alerts + [ErrorAlert("Failed to initiate select: " + SearchError(search))]
  {
    var s1 := s.(loading := true, requests := s.requests + [Search(sessionId, FlowId)]);
    var s2 :=
      if !Issues(search) then
        s1.(alerts := s1.alerts + [ErrorAlert("Failed to initiate select: " + SearchError(search))])
      else
        var t := IssuedId(search);
        var s3 := s1.(transactionId := Some(t), requests := s1.requests + [Select(t, product.id, 1)]);
        match select
        case Threw(m) => s3.(alerts := s3.alerts + [ErrorAlert("Failed to initiate select: " + m)])
        case Returned(_) => s3.(step := 2);
    s2.(loading := false)
  }

  /** handleInit: send the shipping form with delivery fulfilment; step 3 unless the call throws. */
  function AfterInit(s: State, init: Outcome<Envelope>): (r: State)
    ensures !r.loading && r.transactionId == s.transactionId && r.shippingInfo == s.shippingInfo
    ensures r.step == if init.Returned? then 3 else s.step
    ensures r.requests == s.requests + [Init(s.transactionId, s.shippingInfo, "DELIVERY")]
    ensures init.Returned? ==> r.alerts == s.alerts
    ensures init.Threw? ==> r.alerts == s.alerts + [ErrorAlert("Failed to initialize order: " + init.message)]
  {
    var s1 := s.(loading := true, requests := s.requests + [Init(s.transactionId, s.shippingInfo, "DELIVERY")]);
    var s2 :=
      match init
      case Threw(m) => s1.(alerts := s1.alerts + [ErrorAlert("Failed to initialize order: " + m)])
      case Returned(_) => s1.(step := 3);
    s2.(loading := false)
  }

  /**
   * handleConfirm: send the payload; on `success` raise the alert whose OK
   * resets navigation to the buyer dashboard, otherwise an error alert. The
   * step never changes and the cart is not touched.
   */
  function AfterConfirm(s: State, product: Product, confirm: Outcome<Envelope>): (r: State)
    ensures !r.loading && r.step == s.step && r.transactionId == s.transactionId && r.shippingInfo == s.shippingInfo
    ensures r.requests == s.requests + [Confirm(s.transactionId, ConfirmPayload(product, s.shippingInfo))]
    ensures |r.alerts| == |s.alerts| + 1 && r.alerts[..|s.alerts|] == s.alerts
    ensures r.alerts[|s.alerts|].resetsTo == Some(Dashboard) <==> confirm.Returned? && confirm.body.success
    ensures r.alerts[|s.alerts|].title == (if confirm.Returned? && confirm.body.success then "Success" else "Error")
  {
    var s1 := s.(loading := true, requests := s.requests + [Confirm(s.transactionId, ConfirmPayload(product, s.shippingInfo))]);
    var message :=
      match confirm
      case Threw(m) => m
      case Returned(_) => "Confirmation failed";
    var alert :=
      if confirm.Returned? && confirm.body.success then Alert("Success", "Order placed successfully!", Some(Dashboard))
      else ErrorAlert("Failed to confirm order: " + message);
    s1.(alerts := s1.alerts + [alert], loading := false)
  }

  /** The action button: ignored while loading; step 1 selects, step 2 inits, anything else confirms. */
  function PressButton(s: State, params: CheckoutParams, remote: Remote): (r: State)
    ensures s.loading ==> r == s
    ensures !s.loading && s.step == 1 ==> r == AfterSelect(s, params.product, remote.sessionId, remote.search, remote.select)
    ensures !s.loading && s.step == 2 ==> r == AfterInit(s, remote.init)
    ensures !s.loading && s.step != 1 && s.step != 2 ==> r == AfterConfirm(s, params.product, remote.confirm)
  {
    if s.loading then s
    else if s.step == 1 then AfterSelect(s, params.product, remote.sessionId, remote.search, remote.select)
    else if s.step == 2 then AfterInit(s, remote.init)
    else AfterConfirm(s, params.product, remote.confirm)
  }

  /** One user event. The shipping inputs are on screen only at step 2, where each edit replaces one field. */
  function Step(s: State, params: CheckoutParams, e: Event): (r: State)
    ensures e.Press? ==> r == PressButton(s, params, e.remote)
    ensures !e.Press? ==> r == s.(shippingInfo := r.shippingInfo)
    ensures !e.Press? && s.step != 2 ==> r == s
    ensures e.EditName? && s.step == 2 ==> r.shippingInfo == s.shippingInfo.(name := e.text)
    ensures e.EditAddress? && s.step == 2 ==> r.shippingInfo == s.shippingInfo.(address := e.text)
    ensures e.EditPhone? && s.step == 2 ==> r.shippingInfo == s.shippingInfo.(phone := e.text)
    ensures |r.requests| >= |s.requests| && r.requests[..|s.requests|] == s.requests
    ensures |r.alerts| >= |s.alerts| && r.alerts[..|s.alerts|] == s.alerts
  {
    match e
    case Press(remote) => PressButton(s, params, remote)
    case EditName(text) => if s.step == 2 then s.(shippingInfo := s.shippingInfo.(name := text)) else s
    case EditAddress(text) => if s.step == 2 then s.(shippingInfo := s.shippingInfo.(address := text)) else s
    case EditPhone(text) => if s.step == 2 then s.(shippingInfo := s.shippingInfo.(phone := text)) else s
  }

  /** The state after a sequence of events; the request and alert logs only ever grow. */
  function Run(s: State, params: CheckoutParams, events: seq<Event>): (r: State)
    ensures |r.requests| >= |s.requests| && r.requests[..|s.requests|] == s.requests
    ensures |r.alerts| >= |s.alerts| && r.alerts[..|s.alerts|] == s.alerts
    decreases |events|
  {
    if events == [] then s
    else
      var next := Step(s, params, events[0]);
      var r := Run(next, params, events[1..]);
      assert r.requests[..|s.requests|] == r.requests[..|next.requests|][..|s.requests|];
      assert r.alerts[..|s.alerts|] == r.alerts[..|next.alerts|][..|s.alerts|];
      r
  }

  // ---------------------------------------------------------------------------
  // The protocol invariant
  // ---------------------------------------------------------------------------

  /** Some Select request was issued. */
  predicate SelectSent(rs: seq<Request>)
  {
    exists j :: 0 <= j < |rs| && rs[j].Select?
  }

  /** Some Init request was issued. */
  predicate InitSent(rs: seq<Request>)
  {
    exists j :: 0 <= j < |rs| && rs[j].Init?
  }

  /** Init and Confirm requests carry a truthy (non-empty) transaction id. */
  predicate CarriesId(r: Request)
  {
    match r
    case Init(t, _, _) => Truthy(t)
    case Confirm(t, _) => Truthy(t)
    case _ => true
  }

  /**
   * What holds between events: step is 1, 2 or 3 and never loading; from step
   * 2 on a truthy id is held and a Select was sent, at step 3 an Init was
   * sent; every Init and Confirm sent so far carried a truthy id.
   */
  predicate Valid(s: State)
  {
    && s.step in {1, 2, 3}
    && !s.loading
    && (s.step >= 2 ==> Truthy(s.transactionId) && SelectSent(s.requests))
    && (s.step == 3 ==> InitSent(s.requests))
    && (forall i :: 0 <= i < |s.requests| ==> CarriesId(s.requests[i]))
  }

  lemma SentGrows(rs: seq<Request>, more: seq<Request>)
    ensures SelectSent(rs) ==> SelectSent(rs + more)
    ensures InitSent(rs) ==> InitSent(rs + more)
  {
    if SelectSent(rs) {
      var j :| 0 <= j < |rs| && rs[j].Select?;
      assert (rs + more)[j] == rs[j];
    }
    if InitSent(rs) {
      var j :| 0 <= j < |rs| && rs[j].Init?;
      assert (rs + more)[j] == rs[j];
    }
  }

  /** One event keeps the invariant and never lowers the step. */
  lemma StepKeepsValid(s: State, params: CheckoutParams, e: Event)
    requires Valid(s)
    ensures Valid(Step(s, params, e))
    ensures Step(s, params, e).step >= s.step
  {
    var r := Step(s, params, e);
    if e.Press? {
      var remote := e.remote;
      if s.step == 1 {
        var more := [Search(remote.sessionId, FlowId)] +
                    (if Issues(remote.search) then [Select(IssuedId(remote.search), params.product.id, 1)] else []);
        assert r.requests == s.requests + more;
        if Issues(remote.search) {
          assert r.requests[|s.requests| + 1].Select?;
        }
        forall i | 0 <= i < |r.requests| ensures CarriesId(r.requests[i]) {
          if i >= |s.requests| {
            assert r.requests[i] == more[i - |s.requests|];
          }
        }
      } else if s.step == 2 {
        var more := [Init(s.transactionId, s.shippingInfo, "DELIVERY")];
        assert r.requests == s.requests + more;
        SentGrows(s.requests, more);
        assert r.requests[|s.requests|].Init?;
      } else {
        var more := [Confirm(s.transactionId, ConfirmPayload(params.product, s.shippingInfo))];
        assert r.requests == s.requests + more;
        SentGrows(s.requests, more);
      }
    }
  }

  /**
   * From any valid state, whatever the user does and whatever the server
   * answers: the invariant holds afterwards and the step has not decreased.
   */
  lemma {:induction false} RunKeepsValid(s: State, params: CheckoutParams, events: seq<Event>)
    requires Valid(s)
    ensures Valid(Run(s, params, events))
    ensures Run(s, params, events).step >= s.step
    decreases |events|
  {
    if events != [] {
      StepKeepsValid(s, params, events[0]);
      RunKeepsValid(Step(s, params, events[0]), params, events[1..]);
    }
  }

  /**
   * From the screen's initial state every request the screen ever sends to
   * init or confirm carries a non-empty transaction id, although no handler
   * checks for one: the button only reaches those handlers at steps 2 and 3.
   */
  lemma ReachableRequestsCarryId(params: CheckoutParams, events: seq<Event>)
    ensures var r := Run(Initial(), params, events);
      && r.step in {1, 2, 3}
      && !r.loading
      && (r.step >= 2 ==> Truthy(r.transactionId))
      && forall i :: 0 <= i < |r.requests| ==> CarriesId(r.requests[i])
  {
    RunKeepsValid(Initial(), params, events);
  }

  /**
   * A failed init leaves the step where it was; a later init that returns
   * anything advances exactly one step.
   */
  lemma InitRetry(s: State, params: CheckoutParams, failing: Remote, passing: Remote)
    requires Valid(s) && s.step == 2 && failing.init.Threw? && passing.init.Returned?
    ensures PressButton(s, params, failing).step == 2
    ensures PressButton(PressButton(s, params, failing), params, passing).step == 3
  {
  }

  /** The init handler's result does not depend on the response body. */
  lemma InitIgnoresBody(s: State, a: Envelope, b: Envelope)
    ensures AfterInit(s, Returned(a)) == AfterInit(s, Returned(b))
  {
  }

  /** The select handler's result does not depend on the select response body. */
  lemma SelectIgnoresBody(s: State, product: Product, sessionId: string, search: Outcome<SearchResult>, a: Envelope, b: Envelope)
    ensures AfterSelect(s, product, sessionId, search, Returned(a)) == AfterSelect(s, product, sessionId, search, Returned(b))
  {
  }

  /**
   * Of the navigation parameter only the product reaches the screen's
   * behaviour: changing the quantity, the cart's `checkoutTotal` or the
   * cart-checkout flag changes nothing the screen sends or shows.
   */
  lemma {:induction false} RunIgnoresCartFields(s: State, params: CheckoutParams, events: seq<Event>,
                                                quantity: Option<int>, checkoutTotal: Option<int>, isCartCheckout: bool)
    ensures Run(s, params, events) ==
            Run(s, params.(quantity := quantity, checkoutTotal := checkoutTotal, isCartCheckout := isCartCheckout), events)
    decreases |events|
  {
    var other := params.(quantity := quantity, checkoutTotal := checkoutTotal, isCartCheckout := isCartCheckout);
    if events != [] {
      assert Step(s, params, events[0]) == Step(s, other, events[0]);
      RunIgnoresCartFields(Step(s, params, events[0]), params, events[1..], quantity, checkoutTotal, isCartCheckout);
    }
  }

  /** Every confirm request charges the product's unit price for exactly one item of it. */
  predicate ChargesUnitPrice(rs: seq<Request>, product: Product)
  {
    forall i :: 0 <= i < |rs| && rs[i].Confirm? ==>
      rs[i].inputs.totalAmount == product.price && rs[i].inputs.items == [ConfirmItem(product.id, product.name, product.price)]
  }

  /**
   * Over any events and server behaviour, every confirm request the screen
   * sends charges the product's unit price for one item, whatever quantity
   * or cart total it was opened with.
   */
  lemma {:induction false} ConfirmsChargeUnitPrice(s: State, params: CheckoutParams, events: seq<Event>)
    requires ChargesUnitPrice(s.requests, params.product)
    ensures ChargesUnitPrice(Run(s, params, events).requests, params.product)
    decreases |events|
  {
    if events != [] {
      var next := Step(s, params, events[0]);
      forall i | 0 <= i < |next.requests| && next.requests[i].Confirm?
        ensures next.requests[i].inputs.totalAmount == params.product.price
        ensures next.requests[i].inputs.items == [ConfirmItem(params.product.id, params.product.name, params.product.price)]
      {
        if i >= |s.requests| {
          assert !s.loading && s.step != 1 && s.step != 2;
          assert next.requests[i] == Confirm(s.transactionId, ConfirmPayload(params.product, s.shippingInfo));
        }
      }
      ConfirmsChargeUnitPrice(next, params, events[1..]);
    }
  }

  // ---------------------------------------------------------------------------
  // The screen, handler by handler
  // ---------------------------------------------------------------------------

  class CheckoutScreen {
    const params: CheckoutParams
    var step: int
    var loading: bool
    var transactionId: Option<string>
    var shippingInfo: ShippingInfo
    var requests: seq<Request>
    var alerts: seq<Alert>

    function Snapshot(): State
      reads this
    {
      State(step, loading, transactionId, shippingInfo, requests, alerts)
    }

    /** The screen mounts at step 1, not loading, with no transaction id and the default form. */
    constructor (params: CheckoutParams)
      ensures this.params == params
      ensures Snapshot() == Initial() && Valid(Snapshot())
    {
      this.params := params;
      step := 1;
      loading := false;
      transactionId := None;
      shippingInfo := DefaultShipping;
      requests := [];
      alerts := [];
    }

    method HandleSelect(sessionId: string, search: Outcome<SearchResult>, select: Outcome<Envelope>)
      modifies this
      ensures Snapshot() == AfterSelect(old(Snapshot()), params.product, sessionId, search, select)
    {
      loading := true;
      requests := requests + [Search(sessionId, FlowId)];
      if Issues(search) {
        var t := IssuedId(search);
        transactionId := Some(t);
        requests := requests + [Select(t, params.product.id, 1)];
        if select.Threw? {
          alerts := alerts + [ErrorAlert("Failed to initiate select: " + select.message)];
        } else {
          step := 2;
        }
      } else {
        alerts := alerts + [ErrorAlert("Failed to initiate select: " + SearchError(search))];
      }
      loading := false;
    }

    method HandleInit(init: Outcome<Envelope>)
      modifies this
      ensures Snapshot() == AfterInit(old(Snapshot()), init)
    {
      loading := true;
      requests := requests + [Init(transactionId, shippingInfo, "DELIVERY")];
      if init.Threw? {
        alerts := alerts + [ErrorAlert("Failed to initialize order: " + init.message)];
      } else {
        step := 3;
      }
      loading := false;
    }

    method HandleConfirm(confirm: Outcome<Envelope>)
      modifies this
      ensures Snapshot() == AfterConfirm(old(Snapshot()), params.product, confirm)
    {
      loading := true;
      var payload := ConfirmPayload(params.product, shippingInfo);
      requests := requests + [Confirm(transactionId, payload)];
      if confirm.Returned? && confirm.body.success {
        alerts := alerts + [Alert("Success", "Order placed successfully!", Some(Dashboard))];
      } else {
        var message := if confirm.Threw? then confirm.message else "Confirmation failed";
        alerts := alerts + [ErrorAlert("Failed to confirm order: " + message)];
      }
      loading := false;
    }

    /** The action button, disabled while loading. */
    method OnPress(remote: Remote)
      modifies this
      ensures Snapshot() == PressButton(old(Snapshot()), params, remote)
      ensures old(Valid(Snapshot())) ==> Valid(Snapshot()) && step >= old(step)
    {
      ghost var before := Snapshot();
      if Valid(before) {
        StepKeepsValid(before, params, Press(remote));
      }
      if loading {
        return;
      }
      if step == 1 {
        HandleSelect(remote.sessionId, remote.search, remote.select);
      } else if step == 2 {
        HandleInit(remote.init);
      } else {
        HandleConfirm(remote.confirm);
      }
    }

    method OnChangeName(text: string)
      requires step == 2
      modifies this
      ensures Snapshot() == old(Snapshot()).(shippingInfo := old(shippingInfo).(name := text))
    {
      shippingInfo := shippingInfo.(name := text);
    }

    method OnChangeAddress(text: string)
      requires step == 2
      modifies this
      ensures Snapshot() == old(Snapshot()).(shippingInfo := old(shippingInfo).(address := text))
    {
      shippingInfo := shippingInfo.(address := text);
    }

    method OnChangePhone(text: string)
      requires step == 2
      modifies this
      ensures Snapshot() == old(Snapshot()).(shippingInfo := old(shippingInfo).(phone := text))
    {
      shippingInfo := shippingInfo.(phone := text);
    }
  }
}
