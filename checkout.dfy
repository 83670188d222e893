/**
 * A checkout from cart to paid order: two units of a 500-paise product
 * are ordered, the gateway issues `order_A1` for 1000 paise, and the
 * callbacks that follow are answered as the payment handler answers them.
 */
module Checkout {
  import opened Outcomes
  import opened Text
  import opened Schema
  import opened Pricing
  import opened Signature
  import opened Server

  const Tee: Product := Product("Tee", 500, "", 10)

  const SampleAddress: RawAddress :=
    RawAddress(Str("Asha"), Str("98765432"), Str("a@b.in"), Str("1 Main St"), Absent,
               Str("Pune"), Str("MH"), Str("411001"))

  /** Two units of the product `pid`, shipped to a sample address. */
  function SampleRequest(pid: string): RawRequest
  {
    RawRequest(Some([RawItem(Str(pid), Num(2.0), Absent)]), Some(SampleAddress))
  }

  /** The line the handler checks for the sample body. */
  function SampleLines(pid: string): seq<LineRequest>
  {
    [LineRequest(pid, 2)]
  }

  /** The sample body passes the schema as one line of two units of `pid`. */
  lemma SampleParses(pid: string, isEmail: string -> bool)
    requires isEmail("a@b.in")
    ensures Parse(SampleRequest(pid), isEmail).Success?
    ensures Parse(SampleRequest(pid), isEmail).value.items == SampleLines(pid)
  {
    assert ValidRequest(SampleRequest(pid), isEmail);
    var items := Parse(SampleRequest(pid), isEmail).value.items;
    assert |items| == 1 && items[0].productId == pid && items[0].qty as real == 2.0;
  }

  /** `pid` is found in a catalogue holding it, and two units of it cost 1000 paise. */
  lemma SampleLookup(pid: string)
    ensures Lookup(map[pid := Tee], [pid]) == map[pid := Tee]
    ensures MissingIds([pid], map[pid := Tee]) == []
    ensures AllFound(map[pid := Tee], SampleLines(pid))
    ensures Subtotal(map[pid := Tee], SampleLines(pid)) == 1000
  {
    var byId := Lookup(map[pid := Tee], [pid]);
    assert byId.Keys == {pid};
    var lines := SampleLines(pid);
    assert lines[..0] == [];
    assert Subtotal(map[pid := Tee], lines) == Subtotal(map[pid := Tee], []) + 1000;
  }

  /** An id without surrounding whitespace passes through `trim` unchanged. */
  lemma SampleTrimmed(pid: string)
    requires Trim(pid) == pid
    ensures TrimIds(SampleLines(pid)) == SampleLines(pid)
  {
    var lines := [LineRequest(pid, 2)];
    assert TrimIds(lines)[0] == lines[0];
  }

  /** The sample lines ask for the one id `pid`. */
  lemma SampleIds(pid: string)
    ensures Ids(SampleLines(pid)) == [pid]
  {
    assert Ids([LineRequest(pid, 2)])[0] == pid;
  }

  /** The sample lines pass the id checks against a catalogue holding `pid`. */
  lemma SampleResolves(pid: string, isObjectId: string -> bool, address: Address)
    requires Trim(pid) == pid && isObjectId(pid)
    ensures Resolve(map[pid := Tee], SampleLines(pid), address, isObjectId).Success?
    ensures var c := Resolve(map[pid := Tee], SampleLines(pid), address, isObjectId).value;
            c.lines == SampleLines(pid) && c.byId == map[pid := Tee]
  {
    SampleTrimmed(pid);
    SampleIds(pid);
    SampleLookup(pid);
    assert InvalidIds([pid], isObjectId) == [];
  }

  /** The sample body passes every check against a catalogue holding `pid`. */
  lemma SamplePasses(pid: string, isObjectId: string -> bool, isEmail: string -> bool)
    requires Trim(pid) == pid && isObjectId(pid) && isEmail("a@b.in")
    ensures Check(map[pid := Tee], SampleRequest(pid), isObjectId, isEmail).Success?
    ensures var c := Check(map[pid := Tee], SampleRequest(pid), isObjectId, isEmail).value;
            c.lines == SampleLines(pid) && c.byId == map[pid := Tee]
  {
    SampleParses(pid, isEmail);
    var parsed := Parse(SampleRequest(pid), isEmail).value;
    SampleResolves(pid, isObjectId, parsed.address);
  }

  method CheckoutScenario(pid: string, isObjectId: string -> bool, isEmail: string -> bool,
                          hmac: Hmac, secret: string)
    requires Trim(pid) == pid && isObjectId(pid) && isEmail("a@b.in")
    requires ExpectedSignature(hmac, secret, "order_A1", "pay_B2") != ""
  {
    var shop := new Shop(isObjectId, isEmail, hmac, secret, map[pid := Tee]);
    SamplePasses(pid, isObjectId, isEmail);
    SampleLookup(pid);
    ghost var checked := Check(map[pid := Tee], SampleRequest(pid), isObjectId, isEmail).value;
    PlaceSampleOrder(shop, SampleRequest(pid), pid, checked);
    PaymentCallbacks(shop);
  }

  /** A request that the checks turn into two units of `pid` becomes a pending 1000-paise order. */
  method PlaceSampleOrder(shop: Shop, req: RawRequest, pid: string, ghost checked: Checked)
    requires shop.Valid() && shop.orders == [] && shop.catalog == map[pid := Tee]
    requires Check(shop.catalog, req, shop.isObjectId, shop.isEmail) == Success(checked)
    requires checked.lines == SampleLines(pid) && checked.byId == map[pid := Tee]
    requires Subtotal(map[pid := Tee], SampleLines(pid)) == 1000
    modifies shop
    ensures shop.Valid() && |shop.orders| == 1
    ensures shop.orders[0].rpOrderId == "order_A1" && shop.orders[0].status == Pending
    ensures shop.orders[0].subtotalPaise == 1000
    ensures shop.gatewayRequests == old(shop.gatewayRequests) + [1000]
  {
    var gateway := (amount: int, currency: string) => Issued(GatewayOrder("order_A1", amount, currency));
    var issued := GatewayOrder("order_A1", 1000, Currency);
    assert gateway(Subtotal(checked.byId, checked.lines), Currency) == Issued(issued);
    ghost var order := PendingOrder(checked.byId, checked.lines, checked.address, "order_A1");
    var created := shop.CreateOrder(req, gateway);
    assert shop.orders == [order];
  }

  /**
   * A forged signature is refused, the genuine one marks the order paid, a
   * replay answers the same, and a signed callback for an order the shop
   * never created is not found.
   */
  method PaymentCallbacks(shop: Shop)
    requires shop.Valid() && |shop.orders| == 1
    requires shop.orders[0].rpOrderId == "order_A1" && shop.orders[0].status == Pending
    requires ExpectedSignature(shop.hmacSha256Hex, shop.keySecret, "order_A1", "pay_B2") != ""
    modifies shop
  {
    var signature := ExpectedSignature(shop.hmacSha256Hex, shop.keySecret, "order_A1", "pay_B2");
    assert |signature + "0"| != |signature|;
    var forged := shop.VerifyPayment(VerifyRequest(Some("order_A1"), Some("pay_B2"), Some(signature + "0")));
    assert forged == InvalidSignature && shop.orders[0].status == Pending;
    PaidAndReplayed(shop, signature);
  }

  method PaidAndReplayed(shop: Shop, signature: string)
    requires shop.Valid() && |shop.orders| == 1 && shop.orders[0].rpOrderId == "order_A1"
    requires signature == ExpectedSignature(shop.hmacSha256Hex, shop.keySecret, "order_A1", "pay_B2") != ""
    modifies shop
  {
    var verified := shop.VerifyPayment(VerifyRequest(Some("order_A1"), Some("pay_B2"), Some(signature)));
    assert verified == Verified(0);
    assert shop.orders[0].status == Paid && shop.orders[0].rpPaymentId == Some("pay_B2");

    var replayed := shop.VerifyPayment(VerifyRequest(Some("order_A1"), Some("pay_B2"), Some(signature)));
    assert replayed == Verified(0) && shop.orders[0].rpPaymentId == Some("pay_B2");

    var signedZ9 := ExpectedSignature(shop.hmacSha256Hex, shop.keySecret, "order_Z9", "pay_B2");
    assert "order_Z9" != "order_A1" by {
      assert "order_Z9"[6] != "order_A1"[6];
    }
    var unknown := shop.VerifyPayment(VerifyRequest(Some("order_Z9"), Some("pay_B2"), Some(signedZ9)));
    assert signedZ9 != "" ==> unknown == OrderNotFound;
  }
}
