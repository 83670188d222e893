/**
 * The request-body schema of the order-creation endpoint (`CreateOrderSchema`,
 * a zod object schema): which JSON bodies it accepts, what it turns them
 * into, and which issues it reports for the ones it refuses.
 */
module Schema {
  import opened Outcomes

  /** A JSON value of the request body, reduced to the cases the schema tells apart. */
  datatype Json =
    | Absent            // key not present (zod sees `undefined`)
    | Str(s: string)
    | Num(n: real)      // every JSON number is finite
    | OtherJson         // null, a boolean, an array or an object

  /**
   * One element of `items` as the client sent it. `clientPrice` stands for
   * any price the client adds to the line: the schema does not declare it.
   */
  datatype RawItem = RawItem(productId: Json, qty: Json, clientPrice: Json)

  datatype RawAddress = RawAddress(
    name: Json, phone: Json, email: Json, line1: Json, line2: Json,
    city: Json, state: Json, pincode: Json)

  /** The body; `None` is a missing key or a value of the wrong JSON type. */
  datatype RawRequest = RawRequest(items: Option<seq<RawItem>>, address: Option<RawAddress>)

  /** Where an issue is reported (zod's issue path). */
  datatype Field =
    | Items | ItemProductId(index: nat) | ItemQty(index: nat)
    | AddressObject | Name | Phone | Email | Line1 | Line2 | City | State | Pincode

  /**
   * What is wrong there. `InvalidType`, `TooSmall` and `InvalidEmail` are
   * zod's issue codes; `NotInteger` and `NotPositive` name the two issues
   * zod reports as `invalid_type` (expected "integer") for a failed `.int()`
   * and as `too_small` (exclusive minimum 0) for a failed `.positive()`.
   */
  datatype Code = InvalidType | TooSmall(minimum: nat) | NotInteger | NotPositive | InvalidEmail

  datatype Issue = Issue(field: Field, code: Code)

  /** The paths under `address`, as opposed to those under `items`. */
  predicate IsAddressField(f: Field)
  {
    !(f.Items? || f.ItemProductId? || f.ItemQty?)
  }

  /** A validated cart line. */
  datatype LineRequest = LineRequest(productId: string, qty: nat)

  datatype Address = Address(
    name: string, phone: string, email: string, line1: string, line2: string,
    city: string, state: string, pincode: string)

  /** What the schema hands to the handler: the parsed body with unknown keys stripped. */
  datatype CreateOrderRequest = CreateOrderRequest(items: seq<LineRequest>, address: Address)

  predicate IsWholeNumber(n: real)
  {
    n.Floor as real == n
  }

  // ----- acceptance, field by field -----

  predicate ValidItem(it: RawItem)
  {
    it.productId.Str? && it.qty.Num? && IsWholeNumber(it.qty.n) && it.qty.n > 0.0
  }

  predicate HasMinLength(v: Json, min: nat)
  {
    v.Str? && |v.s| >= min
  }

  predicate ValidAddress(a: RawAddress, isEmail: string -> bool)
  {
    && HasMinLength(a.name, 2)
    && HasMinLength(a.phone, 8)
    && a.email.Str? && isEmail(a.email.s)
    && HasMinLength(a.line1, 3)
    && (a.line2.Absent? || a.line2.Str?)
    && HasMinLength(a.city, 2)
    && HasMinLength(a.state, 2)
    && HasMinLength(a.pincode, 4)
  }

  predicate ValidRequest(req: RawRequest, isEmail: string -> bool)
  {
    && req.items.Some? && |req.items.value| >= 1
    && (forall i :: 0 <= i < |req.items.value| ==> ValidItem(req.items.value[i]))
    && req.address.Some? && ValidAddress(req.address.value, isEmail)
  }

  /** The minimum lengths the schema puts on a parsed address. */
  predicate AddressMeetsSchema(a: Address, isEmail: string -> bool)
  {
    |a.name| >= 2 && |a.phone| >= 8 && isEmail(a.email) && |a.line1| >= 3 &&
    |a.city| >= 2 && |a.state| >= 2 && |a.pincode| >= 4
  }

  // ----- the issues reported, in zod's order: keys as declared, checks as chained -----

  function StringIssues(field: Field, v: Json, min: nat): seq<Issue>
  {
    match v
    case Str(s) => if |s| < min then [Issue(field, TooSmall(min))] else []
    case _ => [Issue(field, InvalidType)]
  }

  function QtyIssues(index: nat, v: Json): seq<Issue>
  {
    match v
    case Num(n) =>
      (if IsWholeNumber(n) then [] else [Issue(ItemQty(index), NotInteger)]) +
      (if n > 0.0 then [] else [Issue(ItemQty(index), NotPositive)])
    case _ => [Issue(ItemQty(index), InvalidType)]
  }

  function ItemIssues(index: nat, it: RawItem): seq<Issue>
  {
    StringIssues(ItemProductId(index), it.productId, 0) + QtyIssues(index, it.qty)
  }

  /** Issues of the elements `items[from..]`, element by element. */
  function ItemsIssuesFrom(items: seq<RawItem>, from: nat): (issues: seq<Issue>)
    ensures forall k :: 0 <= k < |issues| ==> !IsAddressField(issues[k].field)
    decreases |items| - from
  {
    if from >= |items| then [] else ItemIssues(from, items[from]) + ItemsIssuesFrom(items, from + 1)
  }

  /** The issues under `items`: empty exactly for a non-empty array of valid lines. */
  function ItemsIssues(items: Option<seq<RawItem>>): (issues: seq<Issue>)
    ensures issues == [] <==>
              items.Some? && |items.value| >= 1 && forall i :: 0 <= i < |items.value| ==> ValidItem(items.value[i])
    ensures forall k :: 0 <= k < |issues| ==> !IsAddressField(issues[k].field)
  {
    match items
    case None => [Issue(Items, InvalidType)]
    case Some(s) =>
      ItemsIssuesFromEmptyIff(s, 0);
      (if |s| < 1 then [Issue(Items, TooSmall(1))] else []) + ItemsIssuesFrom(s, 0)
  }

  function EmailIssues(v: Json, isEmail: string -> bool): seq<Issue>
  {
    match v
    case Str(s) => if isEmail(s) then [] else [Issue(Email, InvalidEmail)]
    case _ => [Issue(Email, InvalidType)]
  }

  /** `line2` is optional: a missing key is fine, any other non-string is not. */
  function Line2Issues(v: Json): seq<Issue>
  {
    match v
    case Absent => []
    case Str(_) => []
    case _ => [Issue(Line2, InvalidType)]
  }

  /** The issues under `address`: empty exactly for an object that meets every field's check. */
  function AddressIssues(address: Option<RawAddress>, isEmail: string -> bool): (issues: seq<Issue>)
    ensures issues == [] <==> address.Some? && ValidAddress(address.value, isEmail)
    ensures forall k :: 0 <= k < |issues| ==> IsAddressField(issues[k].field)
  {
    match address
    case None => [Issue(AddressObject, InvalidType)]
    case Some(a) =>
      StringIssues(Name, a.name, 2) + StringIssues(Phone, a.phone, 8) + EmailIssues(a.email, isEmail) +
      StringIssues(Line1, a.line1, 3) + Line2Issues(a.line2) + StringIssues(City, a.city, 2) +
      StringIssues(State, a.state, 2) + StringIssues(Pincode, a.pincode, 4)
  }

  /**
   * Every issue of the body: none exactly when the schema accepts it, and
   * the issues under `items` before those under `address`.
   */
  function Issues(req: RawRequest, isEmail: string -> bool): (issues: seq<Issue>)
    ensures issues == [] <==> ValidRequest(req, isEmail)
    ensures forall i, j :: 0 <= i < j < |issues| && IsAddressField(issues[i].field) ==>
              IsAddressField(issues[j].field)
  {
    ItemsIssues(req.items) + AddressIssues(req.address, isEmail)
  }

  // ----- the issue list is empty exactly for the accepted bodies -----

  /** One element reports no issue exactly when it is a valid line. */
  lemma ItemIssuesEmptyIff(index: nat, it: RawItem)
    ensures ItemIssues(index, it) == [] <==> ValidItem(it)
  {
  }

  lemma {:induction false} ItemsIssuesFromEmptyIff(items: seq<RawItem>, from: nat)
    ensures ItemsIssuesFrom(items, from) == [] <==> forall i :: from <= i < |items| ==> ValidItem(items[i])
    decreases |items| - from
  {
    if from < |items| {
      ItemsIssuesFromEmptyIff(items, from + 1);
      ItemIssuesEmptyIff(from, items[from]);
      var here, rest := ItemIssues(from, items[from]), ItemsIssuesFrom(items, from + 1);
      assert ItemsIssuesFrom(items, from) == here + rest;
      assert here + rest == [] <==> here == [] && rest == [];
    }
  }

  // ----- parsing -----

  function ToLine(it: RawItem): (line: LineRequest)
    requires ValidItem(it)
    ensures line.productId == it.productId.s
    ensures line.qty >= 1 && line.qty as real == it.qty.n
  {
    LineRequest(it.productId.s, it.qty.n.Floor)
  }

  function ToAddress(a: RawAddress, isEmail: string -> bool): (address: Address)
    requires ValidAddress(a, isEmail)
    ensures AddressMeetsSchema(address, isEmail)
    ensures && address.name == a.name.s && address.phone == a.phone.s && address.email == a.email.s
            && address.line1 == a.line1.s && address.city == a.city.s && address.state == a.state.s
            && address.pincode == a.pincode.s
    ensures address.line2 == if a.line2.Str? then a.line2.s else ""
  {
    Address(a.name.s, a.phone.s, a.email.s, a.line1.s, if a.line2.Str? then a.line2.s else "",
            a.city.s, a.state.s, a.pincode.s)
  }

  /**
   * `CreateOrderSchema.parse(req.body)`: the parsed body when every check
   * passes, otherwise every issue found.
   */
  function Parse(req: RawRequest, isEmail: string -> bool): (r: Result<CreateOrderRequest, seq<Issue>>)
    ensures r.Success? <==> ValidRequest(req, isEmail)
    ensures r.Failure? ==> r.error == Issues(req, isEmail) && r.error != []
    ensures r.Success? ==>
      && |r.value.items| == |req.items.value| >= 1
      && (forall i :: 0 <= i < |r.value.items| ==>
            r.value.items[i].productId == req.items.value[i].productId.s &&
            r.value.items[i].qty >= 1 &&
            r.value.items[i].qty as real == req.items.value[i].qty.n)
      && r.value.address == ToAddress(req.address.value, isEmail)
      && AddressMeetsSchema(r.value.address, isEmail)
  {
    if ValidRequest(req, isEmail) then
      var items := req.items.value;
      Success(CreateOrderRequest(
        seq(|items|, i requires 0 <= i < |items| => ToLine(items[i])),
        ToAddress(req.address.value, isEmail)))
    else
      Failure(Issues(req, isEmail))
  }

  // ----- properties of the schema -----

  /** An empty cart is refused, and the refusal names the `items` minimum. */
  lemma EmptyItemsRejected(req: RawRequest, isEmail: string -> bool)
    requires req.items == Some([])
    ensures Parse(req, isEmail).Failure?
    ensures Issue(Items, TooSmall(1)) in Parse(req, isEmail).error
  {
  }

  lemma {:induction false} ItemIssueReported(items: seq<RawItem>, from: nat, i: nat, issue: Issue)
    requires from <= i < |items|
    requires issue in ItemIssues(i, items[i])
    ensures issue in ItemsIssuesFrom(items, from)
    decreases i - from
  {
    var here, rest := ItemIssues(from, items[from]), ItemsIssuesFrom(items, from + 1);
    assert ItemsIssuesFrom(items, from) == here + rest;
    if from < i {
      ItemIssueReported(items, from + 1, i, issue);
      assert issue in rest;
    } else {
      assert issue in here;
    }
  }

  /** A fractional or non-positive quantity is refused and reported at that line. */
  lemma BadQtyReported(req: RawRequest, isEmail: string -> bool, i: nat)
    requires req.items.Some? && i < |req.items.value|
    requires req.items.value[i].qty.Num?
    ensures !IsWholeNumber(req.items.value[i].qty.n) ==>
              Issue(ItemQty(i), NotInteger) in Parse(req, isEmail).error
    ensures req.items.value[i].qty.n <= 0.0 ==>
              Issue(ItemQty(i), NotPositive) in Parse(req, isEmail).error
  {
    var items := req.items.value;
    var q := items[i].qty.n;
    if !IsWholeNumber(q) {
      ItemIssueReported(items, 0, i, Issue(ItemQty(i), NotInteger));
    }
    if q <= 0.0 {
      ItemIssueReported(items, 0, i, Issue(ItemQty(i), NotPositive));
    }
  }

  /** Two item lists that differ only in the prices the client put on them. */
  predicate SameApartFromPrice(a: seq<RawItem>, b: seq<RawItem>)
  {
    |a| == |b| && forall i :: 0 <= i < |a| ==> a[i].productId == b[i].productId && a[i].qty == b[i].qty
  }

  lemma {:induction false} ItemsIssuesIgnorePrice(a: seq<RawItem>, b: seq<RawItem>, from: nat)
    requires SameApartFromPrice(a, b)
    ensures ItemsIssuesFrom(a, from) == ItemsIssuesFrom(b, from)
    decreases |a| - from
  {
    if from < |a| {
      ItemsIssuesIgnorePrice(a, b, from + 1);
      assert a[from].productId == b[from].productId && a[from].qty == b[from].qty;
      calc {
        ItemsIssuesFrom(a, from);
        ItemIssues(from, a[from]) + ItemsIssuesFrom(a, from + 1);
        ItemIssues(from, b[from]) + ItemsIssuesFrom(b, from + 1);
        ItemsIssuesFrom(b, from);
      }
    }
  }

  /** A price the client attaches to a line never influences what the schema yields. */
  lemma ParseIgnoresClientPrice(req: RawRequest, req': RawRequest, isEmail: string -> bool)
    requires req.address == req'.address
    requires req.items.Some? <==> req'.items.Some?
    requires req.items.Some? ==> SameApartFromPrice(req.items.value, req'.items.value)
    ensures Parse(req, isEmail) == Parse(req', isEmail)
  {
    if req.items.Some? {
      ItemsIssuesIgnorePrice(req.items.value, req'.items.value, 0);
    }
    assert Issues(req, isEmail) == Issues(req', isEmail);
    if ValidRequest(req, isEmail) {
      var a, b := req.items.value, req'.items.value;
      assert forall i :: 0 <= i < |a| ==> ToLine(a[i]) == ToLine(b[i]);
      var la := seq(|a|, i requires 0 <= i < |a| => ToLine(a[i]));
      var lb := seq(|b|, i requires 0 <= i < |b| => ToLine(b[i]));
      assert la == lb;
      assert Parse(req, isEmail) == Success(CreateOrderRequest(la, ToAddress(req.address.value, isEmail)));
      assert Parse(req', isEmail) == Success(CreateOrderRequest(lb, ToAddress(req'.address.value, isEmail)));
    }
  }
}
