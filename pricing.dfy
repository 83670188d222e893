/**
 * The integrity boundary of order creation: product ids are checked and
 * resolved against the catalogue, and every price comes from the catalogue.
 */
module Pricing {
  import opened Outcomes
  import opened Text
  import opened Schema

  /** A catalogue row; its `_id` is the key it is stored under. */
  datatype Product = Product(title: string, pricePaise: int, img: string, stock: int)

  /** The catalogue, keyed by the string form of each product's `_id`. */
  type Catalog = map<string, Product>

  /** A line of a persisted order: a copy of the catalogue row at order time. */
  datatype OrderItem = OrderItem(productId: string, title: string, pricePaise: int, qty: nat)

  /** The request lines with each productId trimmed, as the handler checks and looks them up. */
  function TrimIds(lines: seq<LineRequest>): (keyed: seq<LineRequest>)
    ensures |keyed| == |lines|
    ensures forall i :: 0 <= i < |lines| ==>
              keyed[i].qty == lines[i].qty && IsTrimmed(keyed[i].productId)
  {
    seq(|lines|, i requires 0 <= i < |lines| => lines[i].(productId := Trim(lines[i].productId)))
  }

  /** The productIds of the lines, in request order. */
  function Ids(lines: seq<LineRequest>): (ids: seq<string>)
    ensures |ids| == |lines|
  {
    seq(|lines|, i requires 0 <= i < |lines| => lines[i].productId)
  }

  /**
   * The ids that fail the id-format check: a filter of `ids`, so a repeated
   * bad id is listed as often as it was requested (`InvalidIdsKeepRepeats`).
   */
  function InvalidIds(ids: seq<string>, isObjectId: string -> bool): (bad: seq<string>)
    ensures forall id :: id in bad <==> id in ids && !isObjectId(id)
    ensures bad == [] <==> forall i :: 0 <= i < |ids| ==> isObjectId(ids[i])
  {
    var bad := (id: string) => !isObjectId(id);
    KeepMembers(ids, bad);
    Keep(ids, bad)
  }

  /** `Product.find({ _id: { $in: ids } })` gathered into a Map by id. */
  function Lookup(catalog: Catalog, ids: seq<string>): (byId: Catalog)
    ensures forall id :: id in byId <==> id in catalog && id in ids
    ensures forall id :: id in byId ==> byId[id] == catalog[id]
  {
    map id | id in catalog && id in ids :: catalog[id]
  }

  /**
   * The requested ids that the lookup did not return: a filter of `ids`, so a
   * repeated missing id is listed as often as it was requested (`MissingIdsKeepRepeats`).
   */
  function MissingIds(ids: seq<string>, byId: Catalog): (missing: seq<string>)
    ensures forall id :: id in missing <==> id in ids && id !in byId
    ensures missing == [] <==> forall i :: 0 <= i < |ids| ==> ids[i] in byId
  {
    var absent := (id: string) => id !in byId;
    KeepMembers(ids, absent);
    Keep(ids, absent)
  }

  /** A bad id is reported once per request line that carries it, a good one never. */
  lemma InvalidIdsKeepRepeats(ids: seq<string>, isObjectId: string -> bool, id: string)
    ensures multiset(InvalidIds(ids, isObjectId))[id] == if isObjectId(id) then 0 else multiset(ids)[id]
  {
    KeepCounts(ids, (x: string) => !isObjectId(x), id);
  }

  /** A missing id is reported once per request line that carries it, a found one never. */
  lemma MissingIdsKeepRepeats(ids: seq<string>, byId: Catalog, id: string)
    ensures multiset(MissingIds(ids, byId))[id] == if id in byId then 0 else multiset(ids)[id]
  {
    KeepCounts(ids, (x: string) => x !in byId, id);
  }

  /**
   * Both lists keep request order: the ids reported for a request are those
   * reported for its first part followed by those reported for the rest.
   */
  lemma InvalidIdsInOrder(a: seq<string>, b: seq<string>, isObjectId: string -> bool)
    ensures InvalidIds(a + b, isObjectId) == InvalidIds(a, isObjectId) + InvalidIds(b, isObjectId)
  {
    KeepAppend(a, b, (x: string) => !isObjectId(x));
  }

  lemma MissingIdsInOrder(a: seq<string>, b: seq<string>, byId: Catalog)
    ensures MissingIds(a + b, byId) == MissingIds(a, byId) + MissingIds(b, byId)
  {
    KeepAppend(a, b, (x: string) => x !in byId);
  }

  /** Every line's productId is a key of the looked-up products. */
  predicate AllFound(byId: Catalog, lines: seq<LineRequest>)
  {
    forall i :: 0 <= i < |lines| ==> lines[i].productId in byId
  }

  /** Nothing is missing exactly when every line resolves. */
  lemma NoneMissingIffAllFound(byId: Catalog, lines: seq<LineRequest>)
    ensures MissingIds(Ids(lines), byId) == [] <==> AllFound(byId, lines)
  {
    var ids := Ids(lines);
    assert forall i :: 0 <= i < |ids| ==> ids[i] == lines[i].productId;
  }

  /**
   * The subtotal a cart is worth: the sum, over the request lines in order,
   * of the catalogue price times the requested quantity.
   */
  function Subtotal(byId: Catalog, lines: seq<LineRequest>): (total: int)
    requires AllFound(byId, lines)
  {
    if lines == [] then 0
    else
      var last := lines[|lines| - 1];
      Subtotal(byId, lines[..|lines| - 1]) + byId[last.productId].pricePaise * last.qty
  }

  /** One order line: title and price copied from the catalogue, quantity from the request. */
  function SnapshotLine(byId: Catalog, line: LineRequest): OrderItem
    requires line.productId in byId
  {
    var p := byId[line.productId];
    OrderItem(line.productId, p.title, p.pricePaise, line.qty)
  }

  /** The persisted items of an order, one per request line, in request order. */
  function Snapshot(byId: Catalog, lines: seq<LineRequest>): (items: seq<OrderItem>)
    requires AllFound(byId, lines)
    ensures |items| == |lines|
  {
    seq(|lines|, i requires 0 <= i < |lines| => SnapshotLine(byId, lines[i]))
  }

  /** The total an order's own items add up to. */
  function ItemsTotal(items: seq<OrderItem>): int
  {
    if items == [] then 0
    else ItemsTotal(items[..|items| - 1]) + items[|items| - 1].pricePaise * items[|items| - 1].qty
  }

  /**
   * The loop of the order handler: walks the request lines, copies each
   * catalogue row into an order item and adds price times quantity.
   */
  method PriceLines(byId: Catalog, lines: seq<LineRequest>) returns (items: seq<OrderItem>, subtotal: int)
    requires AllFound(byId, lines)
    ensures items == Snapshot(byId, lines)
    ensures subtotal == Subtotal(byId, lines)
  {
    items, subtotal := [], 0;
    var k := 0;
    while k < |lines|
      invariant 0 <= k <= |lines|
      invariant items == Snapshot(byId, lines[..k])
      invariant subtotal == Subtotal(byId, lines[..k])
    {
      var p := byId[lines[k].productId];
      subtotal := subtotal + p.pricePaise * lines[k].qty;
      items := items + [OrderItem(lines[k].productId, p.title, p.pricePaise, lines[k].qty)];
      assert lines[..k + 1][..k] == lines[..k];
      k := k + 1;
    }
    assert lines[..k] == lines;
  }

  // ----- properties of the pricing -----

  /** An order's subtotal is what its own item snapshots add up to. */
  lemma {:induction false} SubtotalIsItemsTotal(byId: Catalog, lines: seq<LineRequest>)
    requires AllFound(byId, lines)
    ensures Subtotal(byId, lines) == ItemsTotal(Snapshot(byId, lines))
  {
    if lines != [] {
      var init := lines[..|lines| - 1];
      SubtotalIsItemsTotal(byId, init);
      assert Snapshot(byId, lines)[..|lines| - 1] == Snapshot(byId, init);
    }
  }

  /** Each keyed line is its request line with the productId trimmed and nothing else changed. */
  lemma TrimIdsKeysEachLine(lines: seq<LineRequest>)
    ensures forall i :: 0 <= i < |lines| ==>
              && TrimIds(lines)[i] == lines[i].(productId := Trim(lines[i].productId))
              && TrimIds(lines)[i].productId == Trim(lines[i].productId)
              && TrimIds(lines)[i].qty == lines[i].qty
  {
  }

  /** Each order item copies its title and price from the catalogue and its quantity from its line. */
  lemma SnapshotCopiesCatalogue(byId: Catalog, lines: seq<LineRequest>)
    requires AllFound(byId, lines)
    ensures |Snapshot(byId, lines)| == |lines|
    ensures forall i :: 0 <= i < |lines| ==>
              && Snapshot(byId, lines)[i].productId == lines[i].productId
              && Snapshot(byId, lines)[i].qty == lines[i].qty
              && Snapshot(byId, lines)[i].title == byId[lines[i].productId].title
              && Snapshot(byId, lines)[i].pricePaise == byId[lines[i].productId].pricePaise
  {
  }

  /** With no negative catalogue price the subtotal is never negative. */
  lemma {:induction false} SubtotalNonNegative(byId: Catalog, lines: seq<LineRequest>)
    requires AllFound(byId, lines)
    requires forall i :: 0 <= i < |lines| ==> byId[lines[i].productId].pricePaise >= 0
    ensures Subtotal(byId, lines) >= 0
  {
    if lines != [] {
      SubtotalNonNegative(byId, lines[..|lines| - 1]);
    }
  }

  /** Subtotals of two carts add up: lines are priced independently of each other. */
  lemma {:induction false} SubtotalAppend(byId: Catalog, a: seq<LineRequest>, b: seq<LineRequest>)
    requires AllFound(byId, a) && AllFound(byId, b)
    ensures AllFound(byId, a + b)
    ensures Subtotal(byId, a + b) == Subtotal(byId, a) + Subtotal(byId, b)
    decreases |b|
  {
    if b == [] {
      assert a + b == a;
    } else {
      var init := b[..|b| - 1];
      SubtotalAppend(byId, a, init);
      assert (a + b)[..|a + b| - 1] == a + init;
    }
  }

  /** Two lines for the same product are each charged: they are not merged. */
  lemma DuplicateLinesCountedSeparately(byId: Catalog, lines: seq<LineRequest>, line: LineRequest)
    requires AllFound(byId, lines) && line.productId in byId
    ensures AllFound(byId, lines + [line, line])
    ensures Subtotal(byId, lines + [line, line]) ==
            Subtotal(byId, lines) + 2 * (byId[line.productId].pricePaise * line.qty)
    ensures |Snapshot(byId, lines + [line, line])| == |lines| + 2
  {
    var charge := byId[line.productId].pricePaise * line.qty;
    assert [line, line][..1] == [line];
    assert [line][..0] == [];
    assert Subtotal(byId, [line]) == charge;
    assert Subtotal(byId, [line, line]) == charge + charge;
    SubtotalAppend(byId, lines, [line, line]);
  }

  /**
   * The catalogue alone sets the prices: two lookups that agree on the
   * requested products give the same subtotal and the same snapshot.
   */
  lemma {:induction false} PricesComeFromCatalogue(byId: Catalog, byId': Catalog, lines: seq<LineRequest>)
    requires AllFound(byId, lines)
    requires forall i :: 0 <= i < |lines| ==>
               lines[i].productId in byId' && byId'[lines[i].productId] == byId[lines[i].productId]
    ensures AllFound(byId', lines)
    ensures Subtotal(byId', lines) == Subtotal(byId, lines)
    ensures Snapshot(byId', lines) == Snapshot(byId, lines)
  {
    if lines != [] {
      PricesComeFromCatalogue(byId, byId', lines[..|lines| - 1]);
    }
  }

  // ----- the lookup as written: by the untrimmed productId -----

  /**
   * The handler as written prices each line by its untrimmed productId,
   * although validation and the catalogue query used the trimmed one. When
   * a line's product is not found that way, reading its price throws and
   * the request ends in the handler's generic 400 error (`None` here).
   */
  function PriceAsWritten(byId: Catalog, lines: seq<LineRequest>): (r: Option<seq<OrderItem>>)
    ensures r.Some? <==> forall i :: 0 <= i < |lines| ==> lines[i].productId in byId
  {
    if AllFound(byId, lines) then Some(Snapshot(byId, lines)) else None
  }

  /** As written and corrected agree whenever every productId arrives already trimmed. */
  lemma AsWrittenAgreesOnTrimmedIds(byId: Catalog, lines: seq<LineRequest>)
    requires forall i :: 0 <= i < |lines| ==> IsTrimmed(lines[i].productId)
    requires AllFound(byId, TrimIds(lines))
    ensures PriceAsWritten(byId, lines) == Some(Snapshot(byId, TrimIds(lines)))
  {
    forall i | 0 <= i < |lines| ensures TrimIds(lines)[i] == lines[i] {
      TrimIdentityIff(lines[i].productId);
    }
    assert TrimIds(lines) == lines;
  }

  lemma TrimOfPaddedId()
    ensures Trim(" p1") == "p1" && Trim("p1") == "p1"
  {
    assert !IsWhitespace('p') && !IsWhitespace('1') && IsWhitespace(' ');
    assert " p1"[1..] == "p1";
    assert TrimStart("p1") == "p1";
    assert TrimStart(" p1") == "p1";
    assert TrimEnd("p1") == "p1";
  }

  /**
   * A productId with a leading space passes the id checks, since they use
   * the trimmed id, and is found by the catalogue query, yet the lookup as
   * written fails; priced by the trimmed id the line costs 2 x 500.
   */
  lemma PaddedIdFailsAsWritten()
    ensures var byId := map["p1" := Product("Tee", 500, "", 1)];
            var lines := [LineRequest(" p1", 2)];
            && Ids(TrimIds(lines)) == ["p1"]
            && MissingIds(Ids(TrimIds(lines)), byId) == []
            && PriceAsWritten(byId, lines) == None
            && AllFound(byId, TrimIds(lines))
            && Snapshot(byId, TrimIds(lines)) == [OrderItem("p1", "Tee", 500, 2)]
            && Subtotal(byId, TrimIds(lines)) == 1000
  {
    var byId := map["p1" := Product("Tee", 500, "", 1)];
    var lines := [LineRequest(" p1", 2)];
    TrimOfPaddedId();
    assert TrimIds(lines) == [LineRequest("p1", 2)];
    assert " p1" !in byId by {
      assert " p1"[0] != "p1"[0];
    }
    assert TrimIds(lines)[..0] == [];
  }
}
