/**
 * The order store of the shop server and its two handlers that change it:
 * order creation (`POST /api/order/create`) and payment verification
 * (`POST /api/payment/verify`).
 */
module Server {
  import opened Outcomes
  import opened Schema
  import opened Pricing
  import opened Signature

  datatype Status = Pending | Paid

  /** A persisted order document. */
  datatype Order = Order(
    items: seq<OrderItem>,
    address: Address,
    subtotalPaise: int,
    rpOrderId: string,
    rpPaymentId: Option<string>,
    rpSignature: Option<string>,
    status: Status)

  /** The order the payment gateway issues for an amount. */
  datatype GatewayOrder = GatewayOrder(id: string, amount: int, currency: string)

  /** What `razorpay.orders.create` yields: an order, or the error it throws. */
  datatype GatewayReply = Issued(order: GatewayOrder) | Refused(message: string)

  /** The gateway, as a function of the amount and the currency it is asked for. */
  type Gateway = (int, string) -> GatewayReply

  /** The currency every order is created in. */
  const Currency: string := "INR"

  /** The responses of the order-creation handler. */
  datatype CreateResult =
    | Created(orderId: nat, rpOrder: GatewayOrder)
    | SchemaRejected(issues: seq<Issue>)
    | InvalidProductIds(ids: seq<string>)
    | ProductsNotFound(ids: seq<string>)
    | GatewayFailed(message: string)
  {
    /** The HTTP status sent: zod errors are 422; every other failure, a missing product included, is 400. */
    function HttpStatus(): (code: int)
      ensures code == 200 <==> this.Created?
      ensures code == 422 <==> this.SchemaRejected?
      ensures code == 400 <==> !this.Created? && !this.SchemaRejected?
    {
      match this
      case Created(_, _) => 200
      case SchemaRejected(_) => 422
      case _ => 400
    }
  }

  /** The verify body; `None` is a missing or null field. */
  datatype VerifyRequest = VerifyRequest(
    orderId: Option<string>, paymentId: Option<string>, signature: Option<string>)

  /** The responses of the payment-verification handler. */
  datatype VerifyResult = Verified(orderId: nat) | MissingFields | InvalidSignature | OrderNotFound
  {
    /** The HTTP status sent: 200 on success, 404 for an unknown order, 400 otherwise. */
    function HttpStatus(): (code: int)
      ensures code == 200 <==> this.Verified?
      ensures code == 404 <==> this.OrderNotFound?
      ensures code == 400 <==> this.MissingFields? || this.InvalidSignature?
    {
      match this
      case Verified(_) => 200
      case OrderNotFound => 404
      case _ => 400
    }
  }

  /** A field passes the handler's `!field` test: present and not the empty string. */
  predicate Present(field: Option<string>)
  {
    field.Some? && field.value != ""
  }

  /** What every stored order satisfies. */
  predicate WellFormed(o: Order)
  {
    && o.subtotalPaise == ItemsTotal(o.items)
    && (forall k :: 0 <= k < |o.items| ==> o.items[k].qty >= 1)
    && (o.status == Pending <==> o.rpPaymentId.None?)
    && (o.rpPaymentId.None? <==> o.rpSignature.None?)
  }

  predicate StoreInvariant(orders: seq<Order>)
  {
    forall i :: 0 <= i < |orders| ==> WellFormed(orders[i])
  }

  // ----- finding an order by its gateway order id -----

  /** The first order at or after `from`, in insertion order, with gateway order id `rpId`. */
  function FindFrom(orders: seq<Order>, rpId: string, from: nat): (r: Option<nat>)
    ensures r.Some? ==> from <= r.value < |orders| && orders[r.value].rpOrderId == rpId &&
                        forall j :: from <= j < r.value ==> orders[j].rpOrderId != rpId
    ensures r.None? ==> forall j :: from <= j < |orders| ==> orders[j].rpOrderId != rpId
    decreases |orders| - from
  {
    if from >= |orders| then None
    else if orders[from].rpOrderId == rpId then Some(from)
    else FindFrom(orders, rpId, from + 1)
  }

  /** The order `findOneAndUpdate({ rp_order_id })` matches: the first one stored with that id. */
  function FirstWithGatewayId(orders: seq<Order>, rpId: string): (r: Option<nat>)
    ensures r.Some? ==> r.value < |orders| && orders[r.value].rpOrderId == rpId &&
                        forall j :: 0 <= j < r.value ==> orders[j].rpOrderId != rpId
    ensures r.None? ==> forall j :: 0 <= j < |orders| ==> orders[j].rpOrderId != rpId
  {
    FindFrom(orders, rpId, 0)
  }

  /** Stores holding the same gateway ids at the same places match the same order. */
  lemma MatchDependsOnlyOnGatewayIds(orders: seq<Order>, orders': seq<Order>, rpId: string)
    requires |orders| == |orders'|
    requires forall j :: 0 <= j < |orders| ==> orders[j].rpOrderId == orders'[j].rpOrderId
    ensures FirstWithGatewayId(orders, rpId) == FirstWithGatewayId(orders', rpId)
  {
    var a, b := FirstWithGatewayId(orders, rpId), FirstWithGatewayId(orders', rpId);
    if a.Some? && b.Some? {
      assert !(a.value < b.value) && !(b.value < a.value);
    }
  }

  // ----- verification as a transition of the store -----

  /** The update `{ status: "paid", rp_payment_id, rp_signature }`. */
  function MarkPaid(o: Order, paymentId: string, signature: string): (o': Order)
    ensures o'.status == Paid && o'.rpPaymentId == Some(paymentId) && o'.rpSignature == Some(signature)
    ensures o'.items == o.items && o'.address == o.address && o'.subtotalPaise == o.subtotalPaise
    ensures o'.rpOrderId == o.rpOrderId
  {
    o.(status := Paid, rpPaymentId := Some(paymentId), rpSignature := Some(signature))
  }

  datatype Verification = Verification(result: VerifyResult, orders: seq<Order>)

  /**
   * The verify handler as a function of the store: its response and the
   * store afterwards. Only a request whose signature is the HMAC of its own
   * order and payment ids changes anything, and then only the first order
   * with that gateway id.
   */
  function Verify(orders: seq<Order>, req: VerifyRequest, hmac: Hmac, secret: string): (v: Verification)
    ensures |v.orders| == |orders|
    ensures !v.result.Verified? ==> v.orders == orders
    ensures v.result.MissingFields? <==>
              !(Present(req.orderId) && Present(req.paymentId) && Present(req.signature))
    ensures v.result.Verified? ==>
              && Present(req.orderId) && Present(req.paymentId) && Present(req.signature)
              && req.signature.value == ExpectedSignature(hmac, secret, req.orderId.value, req.paymentId.value)
              && FirstWithGatewayId(orders, req.orderId.value) == Some(v.result.orderId)
    ensures v.result.OrderNotFound? ==>
              forall j :: 0 <= j < |orders| ==> orders[j].rpOrderId != req.orderId.value
    ensures v.result.InvalidSignature? <==>
              && Present(req.orderId) && Present(req.paymentId) && Present(req.signature)
              && req.signature.value != ExpectedSignature(hmac, secret, req.orderId.value, req.paymentId.value)
    ensures v.result.OrderNotFound? <==>
              && Present(req.orderId) && Present(req.paymentId) && Present(req.signature)
              && req.signature.value == ExpectedSignature(hmac, secret, req.orderId.value, req.paymentId.value)
              && FirstWithGatewayId(orders, req.orderId.value).None?
    ensures && Present(req.orderId) && Present(req.paymentId) && Present(req.signature)
            && req.signature.value == ExpectedSignature(hmac, secret, req.orderId.value, req.paymentId.value)
            && FirstWithGatewayId(orders, req.orderId.value).Some? ==>
              v.result == Verified(FirstWithGatewayId(orders, req.orderId.value).value)
    ensures forall j :: 0 <= j < |orders| && !(v.result.Verified? && j == v.result.orderId) ==>
              v.orders[j] == orders[j]
  {
    if !(Present(req.orderId) && Present(req.paymentId) && Present(req.signature)) then
      Verification(MissingFields, orders)
    else
      var orderId, paymentId, signature := req.orderId.value, req.paymentId.value, req.signature.value;
      if ExpectedSignature(hmac, secret, orderId, paymentId) != signature then
        Verification(InvalidSignature, orders)
      else
        match FirstWithGatewayId(orders, orderId)
        case None => Verification(OrderNotFound, orders)
        case Some(i) => Verification(Verified(i), orders[i := MarkPaid(orders[i], paymentId, signature)])
  }

  /** A successful verification leaves the matched order paid with the callback's payment. */
  lemma VerifiedOrderIsPaid(orders: seq<Order>, req: VerifyRequest, hmac: Hmac, secret: string)
    requires Verify(orders, req, hmac, secret).result.Verified?
    ensures var v := Verify(orders, req, hmac, secret);
            var i := v.result.orderId;
            && v.orders[i] == MarkPaid(orders[i], req.paymentId.value, req.signature.value)
            && v.orders[i].status == Paid
            && v.orders[i].subtotalPaise == orders[i].subtotalPaise
            && v.orders[i].items == orders[i].items
  {
  }

  /** Verification keeps every stored order well formed. */
  lemma VerifyPreservesInvariant(orders: seq<Order>, req: VerifyRequest, hmac: Hmac, secret: string)
    requires StoreInvariant(orders)
    ensures StoreInvariant(Verify(orders, req, hmac, secret).orders)
  {
  }

  /**
   * Replaying a callback changes nothing more: the second call gives the
   * same response and leaves the store as the first left it.
   */
  lemma VerifyReplayIdempotent(orders: seq<Order>, req: VerifyRequest, hmac: Hmac, secret: string)
    ensures var v := Verify(orders, req, hmac, secret);
            Verify(v.orders, req, hmac, secret) == v
  {
    var v := Verify(orders, req, hmac, secret);
    if v.result.Verified? {
      var i := v.result.orderId;
      MatchDependsOnlyOnGatewayIds(orders, v.orders, req.orderId.value);
      assert v.orders[i := MarkPaid(v.orders[i], req.paymentId.value, req.signature.value)] == v.orders;
    }
  }

  /**
   * The update matches on the gateway order id alone, not on a pending
   * status: a second correctly signed callback for an order that is already
   * paid replaces its payment id and signature.
   */
  lemma PaidOrderPaymentReplaced(orders: seq<Order>, req: VerifyRequest, req': VerifyRequest, hmac: Hmac, secret: string)
    requires Verify(orders, req, hmac, secret).result.Verified?
    requires req'.orderId == req.orderId && Present(req'.paymentId) && Present(req'.signature)
    requires req'.signature.value == ExpectedSignature(hmac, secret, req'.orderId.value, req'.paymentId.value)
    ensures var v := Verify(orders, req, hmac, secret);
            var v' := Verify(v.orders, req', hmac, secret);
            && v'.result == v.result
            && v.orders[v.result.orderId].status == Paid
            && v'.orders[v.result.orderId].rpPaymentId == req'.paymentId
            && v'.orders[v.result.orderId].rpSignature == req'.signature
  {
    var v := Verify(orders, req, hmac, secret);
    MatchDependsOnlyOnGatewayIds(orders, v.orders, req.orderId.value);
  }

  // ----- the checks before any gateway call -----

  /** A request that passed every check: its lines, keyed by trimmed id, and the products they name. */
  datatype Checked = Checked(lines: seq<LineRequest>, byId: Catalog, address: Address)

  /**
   * The checks after the schema, in order: the id format of every trimmed
   * productId, then the catalogue lookup of those ids.
   */
  function Resolve(catalog: Catalog, items: seq<LineRequest>, address: Address, isObjectId: string -> bool)
    : (c: Result<Checked, CreateResult>)
    ensures var ids := Ids(TrimIds(items));
            c.Success? <==> InvalidIds(ids, isObjectId) == [] && MissingIds(ids, Lookup(catalog, ids)) == []
    ensures c.Failure? ==> c.error.InvalidProductIds? || c.error.ProductsNotFound?
    ensures var ids := Ids(TrimIds(items));
            c.Failure? && c.error.InvalidProductIds? ==>
              c.error.ids == InvalidIds(ids, isObjectId) != []
    ensures var ids := Ids(TrimIds(items));
            c.Failure? && c.error.ProductsNotFound? ==>
              && InvalidIds(ids, isObjectId) == []
              && c.error.ids == MissingIds(ids, Lookup(catalog, ids)) != []
    ensures c.Success? ==>
              && c.value.lines == TrimIds(items)
              && c.value.address == address
              && (forall i :: 0 <= i < |c.value.lines| ==> isObjectId(c.value.lines[i].productId))
              && c.value.byId == Lookup(catalog, Ids(c.value.lines))
              && AllFound(c.value.byId, c.value.lines)
  {
    var lines := TrimIds(items);
    var ids := Ids(lines);
    var invalid := InvalidIds(ids, isObjectId);
    if invalid != [] then Failure(InvalidProductIds(invalid))
    else
      var byId := Lookup(catalog, ids);
      var missing := MissingIds(ids, byId);
      if missing != [] then Failure(ProductsNotFound(missing))
      else
        NoneMissingIffAllFound(byId, lines);
        assert AllFound(byId, lines);
        assert forall i :: 0 <= i < |lines| ==> isObjectId(ids[i]);
        assert forall i :: 0 <= i < |lines| ==> ids[i] == lines[i].productId;
        Success(Checked(lines, byId, address))
  }

  /**
   * The checks of the order handler, in order: the schema, the id format of
   * every trimmed productId, and the catalogue lookup of those ids. The
   * first that fails gives the response.
   */
  function Check(catalog: Catalog, req: RawRequest, isObjectId: string -> bool, isEmail: string -> bool)
    : (c: Result<Checked, CreateResult>)
    ensures c.Failure? ==> c.error.SchemaRejected? || c.error.InvalidProductIds? || c.error.ProductsNotFound?
    ensures c.Failure? && c.error.SchemaRejected? <==> Parse(req, isEmail).Failure?
    ensures Parse(req, isEmail).Failure? ==> c == Failure(SchemaRejected(Parse(req, isEmail).error))
    ensures Parse(req, isEmail).Success? ==>
              c == Resolve(catalog, Parse(req, isEmail).value.items, Parse(req, isEmail).value.address, isObjectId)
    ensures c.Success? ==>
              && Parse(req, isEmail).Success?
              && c.value.lines == TrimIds(Parse(req, isEmail).value.items)
              && c.value.address == Parse(req, isEmail).value.address
              && (forall i :: 0 <= i < |c.value.lines| ==>
                    isObjectId(c.value.lines[i].productId) && c.value.lines[i].qty >= 1)
              && c.value.byId == Lookup(catalog, Ids(c.value.lines))
              && AllFound(c.value.byId, c.value.lines)
  {
    match Parse(req, isEmail)
    case Failure(issues) => Failure(SchemaRejected(issues))
    case Success(parsed) =>
      var c := Resolve(catalog, parsed.items, parsed.address, isObjectId);
      assert c.Success? ==> forall i :: 0 <= i < |c.value.lines| ==> c.value.lines[i].qty == parsed.items[i].qty;
      c
  }

  /**
   * A malformed body or a malformed id is refused before the catalogue is
   * read: the response is the same whatever the catalogue holds.
   */
  lemma EarlyRejectionIgnoresCatalogue(catalog: Catalog, catalog': Catalog, req: RawRequest,
                                       isObjectId: string -> bool, isEmail: string -> bool)
    requires Check(catalog, req, isObjectId, isEmail).Failure?
    requires !Check(catalog, req, isObjectId, isEmail).error.ProductsNotFound?
    ensures Check(catalog', req, isObjectId, isEmail) == Check(catalog, req, isObjectId, isEmail)
  {
  }

  /**
   * When the lookup misses, the response lists exactly the requested
   * trimmed ids that are not in the catalogue, in request order
   * (`MissingIdsInOrder`).
   */
  lemma MissingProductsListed(catalog: Catalog, req: RawRequest, isObjectId: string -> bool, isEmail: string -> bool)
    requires Check(catalog, req, isObjectId, isEmail).Failure?
    requires Check(catalog, req, isObjectId, isEmail).error.ProductsNotFound?
    ensures Parse(req, isEmail).Success?
    ensures var ids := Ids(TrimIds(Parse(req, isEmail).value.items));
            var missing := Check(catalog, req, isObjectId, isEmail).error.ids;
            && missing != []
            && (forall id :: id in missing <==> id in ids && id !in catalog)
            && (forall i :: 0 <= i < |ids| ==> isObjectId(ids[i]))
  {
    var parsed := Parse(req, isEmail).value;
    var ids := Ids(TrimIds(parsed.items));
    assert InvalidIds(ids, isObjectId) == [];
    assert Check(catalog, req, isObjectId, isEmail).error == ProductsNotFound(MissingIds(ids, Lookup(catalog, ids)));
  }

  /**
   * The document `Order.create` stores for a request that passed its checks
   * and got a gateway order: the catalogue snapshots, the subtotal, the
   * gateway's order id, no payment yet.
   */
  function PendingOrder(byId: Catalog, lines: seq<LineRequest>, address: Address, rpOrderId: string): (o: Order)
    requires AllFound(byId, lines)
    requires forall i :: 0 <= i < |lines| ==> lines[i].qty >= 1
    ensures WellFormed(o)
    ensures o.status == Pending && o.rpOrderId == rpOrderId && o.address == address
    ensures o.subtotalPaise == Subtotal(byId, lines)
    ensures o.items == Snapshot(byId, lines)
    ensures |o.items| == |lines| &&
            forall i :: 0 <= i < |lines| ==>
              && o.items[i].productId == lines[i].productId && o.items[i].qty == lines[i].qty
              && o.items[i].title == byId[lines[i].productId].title
              && o.items[i].pricePaise == byId[lines[i].productId].pricePaise
  {
    SubtotalIsItemsTotal(byId, lines);
    SnapshotCopiesCatalogue(byId, lines);
    Order(Snapshot(byId, lines), address, Subtotal(byId, lines), rpOrderId, None, None, Pending)
  }

  // ----- the server state -----

  /**
   * The shop server: the catalogue, the orders collection, and the library
   * checks and keys it is configured with.
   */
  class Shop {
    /** `mongoose.Types.ObjectId.isValid`. */
    const isObjectId: string -> bool
    /** zod's `email()` check. */
    const isEmail: string -> bool
    /** `crypto.createHmac("sha256", key).update(msg).digest("hex")`. */
    const hmacSha256Hex: Hmac
    /** `RAZORPAY_KEY_SECRET`. */
    const keySecret: string

    var catalog: Catalog
    /** The orders collection in insertion order; an order's `_id` is its position. */
    var orders: seq<Order>
    /** The amounts the gateway has been asked to open an order for, in call order. */
    ghost var gatewayRequests: seq<int>

    ghost predicate Valid()
      reads this
    {
      StoreInvariant(orders)
    }

    constructor (isObjectId: string -> bool, isEmail: string -> bool, hmacSha256Hex: Hmac,
                 keySecret: string, catalog: Catalog)
      ensures Valid()
      ensures this.isObjectId == isObjectId && this.isEmail == isEmail
      ensures this.hmacSha256Hex == hmacSha256Hex && this.keySecret == keySecret
      ensures this.catalog == catalog && orders == [] && gatewayRequests == []
    {
      this.isObjectId := isObjectId;
      this.isEmail := isEmail;
      this.hmacSha256Hex := hmacSha256Hex;
      this.keySecret := keySecret;
      this.catalog := catalog;
      orders := [];
      gatewayRequests := [];
    }

    /**
     * `POST /api/order/create`. The checks run in order (schema, id format,
     * catalogue lookup) and the first that fails decides the response; only
     * when the gateway has issued its order is a pending order stored.
     */
    method CreateOrder(req: RawRequest, gateway: Gateway) returns (r: CreateResult)
      requires Valid()
      modifies this`orders, this`gatewayRequests
      ensures Valid()
      ensures Check(catalog, req, isObjectId, isEmail).Failure? ==>
                gatewayRequests == old(gatewayRequests)
      ensures Check(catalog, req, isObjectId, isEmail).Success? ==>
                var c := Check(catalog, req, isObjectId, isEmail).value;
                gatewayRequests == old(gatewayRequests) + [Subtotal(c.byId, c.lines)]
      ensures Check(catalog, req, isObjectId, isEmail).Failure? ==>
                r == Check(catalog, req, isObjectId, isEmail).error
      ensures Check(catalog, req, isObjectId, isEmail).Success? ==>
                var c := Check(catalog, req, isObjectId, isEmail).value;
                match gateway(Subtotal(c.byId, c.lines), Currency)
                case Refused(message) => r == GatewayFailed(message)
                case Issued(g) =>
                  && r == Created(|old(orders)|, g)
                  && orders == old(orders) + [PendingOrder(c.byId, c.lines, c.address, g.id)]
      ensures !r.Created? ==> orders == old(orders)
    {
      match Check(catalog, req, isObjectId, isEmail)
      case Failure(e) =>
        r := e;
      case Success(c) =>
        r := PlaceOrder(c, gateway);
    }

    /**
     * The part of the order handler after the checks: price the lines, ask
     * the gateway for an order of the subtotal, and store a pending order.
     */
    method PlaceOrder(c: Checked, gateway: Gateway) returns (r: CreateResult)
      requires Valid()
      requires AllFound(c.byId, c.lines)
      requires forall i :: 0 <= i < |c.lines| ==> c.lines[i].qty >= 1
      modifies this`orders, this`gatewayRequests
      ensures Valid()
      ensures gatewayRequests == old(gatewayRequests) + [Subtotal(c.byId, c.lines)]
      ensures match gateway(Subtotal(c.byId, c.lines), Currency)
              case Refused(message) => r == GatewayFailed(message) && orders == old(orders)
              case Issued(g) =>
                && r == Created(|old(orders)|, g)
                && orders == old(orders) + [PendingOrder(c.byId, c.lines, c.address, g.id)]
    {
      var items, subtotal := PriceLines(c.byId, c.lines);
      var reply := gateway(subtotal, Currency);
      gatewayRequests := gatewayRequests + [subtotal];
      if reply.Refused? {
        return GatewayFailed(reply.message);
      }
      var order := Order(items, c.address, subtotal, reply.order.id, None, None, Pending);
      assert order == PendingOrder(c.byId, c.lines, c.address, reply.order.id);
      orders := orders + [order];
      r := Created(|orders| - 1, reply.order);
    }

    /**
     * `POST /api/payment/verify` (the first of its two registrations, the
     * one Express dispatches to).
     */
    method VerifyPayment(req: VerifyRequest) returns (r: VerifyResult)
      requires Valid()
      modifies this`orders
      ensures Valid()
      ensures Verification(r, orders) == Verify(old(orders), req, hmacSha256Hex, keySecret)
    {
      if !Present(req.orderId) || !Present(req.paymentId) || !Present(req.signature) {
        return MissingFields;
      }
      var orderId, paymentId, signature := req.orderId.value, req.paymentId.value, req.signature.value;
      var expected := hmacSha256Hex(keySecret, orderId + "|" + paymentId);
      if expected != signature {
        return InvalidSignature;
      }
      var found := FirstWithGatewayId(orders, orderId);
      if found.None? {
        return OrderNotFound;
      }
      var i := found.value;
      orders := orders[i := MarkPaid(orders[i], paymentId, signature)];
      r := Verified(i);
    }
  }
}
