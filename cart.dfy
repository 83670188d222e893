/**
 * The browser cart (`CartProvider`): a list of lines and the functional
 * updates `add`, `remove`, `inc` and `dec`, with the `totalPaise` sum.
 */
module Cart {
  import opened Text

  /** A product as the shop page passes it to `add`; `id` is its `_id`. */
  datatype Product = Product(id: string, title: string, pricePaise: int, img: string)

  /** One cart line. */
  datatype Line = Line(id: string, title: string, pricePaise: int, img: string, qty: int)

  predicate HasId(cart: seq<Line>, id: string)
  {
    exists i :: 0 <= i < |cart| && cart[i].id == id
  }

  /** No two lines share an id. */
  predicate UniqueIds(cart: seq<Line>)
  {
    forall i, j :: 0 <= i < j < |cart| ==> cart[i].id != cart[j].id
  }

  /** Every line holds at least one unit. */
  predicate QtysPositive(cart: seq<Line>)
  {
    forall i :: 0 <= i < |cart| ==> cart[i].qty >= 1
  }

  /** The invariant the cart operations keep. */
  predicate Valid(cart: seq<Line>)
  {
    UniqueIds(cart) && QtysPositive(cart)
  }

  // ----- the operations -----

  /** `inc(id)`: one more unit on every line with that id. */
  function Inc(cart: seq<Line>, id: string): (r: seq<Line>)
    ensures |r| == |cart|
    ensures forall i :: 0 <= i < |cart| ==> r[i].id == cart[i].id && r[i].pricePaise == cart[i].pricePaise
  {
    seq(|cart|, i requires 0 <= i < |cart| =>
      if cart[i].id == id then cart[i].(qty := cart[i].qty + 1) else cart[i])
  }

  /** `dec(id)`: one unit fewer on every line with that id, but `Math.max(1, qty - 1)`. */
  function Dec(cart: seq<Line>, id: string): (r: seq<Line>)
    ensures |r| == |cart|
    ensures forall i :: 0 <= i < |cart| ==> r[i].id == cart[i].id && r[i].pricePaise == cart[i].pricePaise
    ensures forall i :: 0 <= i < |cart| && cart[i].id == id ==> r[i].qty >= 1
  {
    seq(|cart|, i requires 0 <= i < |cart| =>
      if cart[i].id == id then cart[i].(qty := if cart[i].qty - 1 > 1 then cart[i].qty - 1 else 1) else cart[i])
  }

  /** `add(p)`: a line already holding the product gets one more unit; otherwise a new line is appended. */
  function Add(cart: seq<Line>, p: Product): (r: seq<Line>)
    ensures HasId(r, p.id)
    ensures |r| == if HasId(cart, p.id) then |cart| else |cart| + 1
  {
    if HasId(cart, p.id) then
      var k :| 0 <= k < |cart| && cart[k].id == p.id;
      assert Inc(cart, p.id)[k].id == p.id;
      Inc(cart, p.id)
    else
      var line := Line(p.id, p.title, p.pricePaise, p.img, 1);
      assert (cart + [line])[|cart|] == line;
      cart + [line]
  }

  /** `remove(id)`: the lines with another id, in their order. */
  function Remove(cart: seq<Line>, id: string): (r: seq<Line>)
    ensures |r| <= |cart|
    ensures !HasId(r, id)
    ensures forall x :: x in r ==> x in cart
  {
    var other := (x: Line) => x.id != id;
    KeepMembers(cart, other);
    var kept := Keep(cart, other);
    assert forall j :: 0 <= j < |kept| ==> kept[j] in kept;
    kept
  }

  /** `totalPaise`: `items.reduce((s, x) => s + x.pricePaise * x.qty, 0)`. */
  function Total(cart: seq<Line>): int
  {
    if cart == [] then 0
    else Total(cart[..|cart| - 1]) + cart[|cart| - 1].pricePaise * cart[|cart| - 1].qty
  }

  /** The navigation bar's count: `items.reduce((sum, x) => sum + x.qty, 0)`. */
  function Count(cart: seq<Line>): (n: int)
    ensures QtysPositive(cart) ==> n >= |cart|
  {
    if cart == [] then 0 else Count(cart[..|cart| - 1]) + cart[|cart| - 1].qty
  }

  // ----- add -----

  /** Adding a product already in the cart bumps that line only; order and every other line stay. */
  lemma AddExisting(cart: seq<Line>, p: Product)
    requires HasId(cart, p.id)
    ensures |Add(cart, p)| == |cart|
    ensures forall i :: 0 <= i < |cart| && cart[i].id != p.id ==> Add(cart, p)[i] == cart[i]
    ensures forall i :: 0 <= i < |cart| && cart[i].id == p.id ==>
              Add(cart, p)[i] == cart[i].(qty := cart[i].qty + 1)
  {
  }

  /** Adding a new product appends exactly one line, with one unit, at the end. */
  lemma AddNew(cart: seq<Line>, p: Product)
    requires !HasId(cart, p.id)
    ensures Add(cart, p) == cart + [Line(p.id, p.title, p.pricePaise, p.img, 1)]
    ensures HasId(Add(cart, p), p.id)
  {
    assert Add(cart, p)[|cart|].id == p.id;
  }

  lemma AddPreservesValid(cart: seq<Line>, p: Product)
    requires Valid(cart)
    ensures Valid(Add(cart, p))
  {
  }

  // ----- inc and dec -----

  /** `inc` bumps the matching line by one unit and leaves every other line, and the order, as they were. */
  lemma IncBumps(cart: seq<Line>, id: string)
    ensures |Inc(cart, id)| == |cart|
    ensures forall i :: 0 <= i < |cart| && cart[i].id == id ==> Inc(cart, id)[i] == cart[i].(qty := cart[i].qty + 1)
    ensures forall i :: 0 <= i < |cart| && cart[i].id != id ==> Inc(cart, id)[i] == cart[i]
  {
  }

  lemma IncUnknownIsIdentity(cart: seq<Line>, id: string)
    requires !HasId(cart, id)
    ensures Inc(cart, id) == cart
  {
  }

  lemma IncPreservesValid(cart: seq<Line>, id: string)
    requires Valid(cart)
    ensures Valid(Inc(cart, id))
  {
  }

  lemma DecPreservesValid(cart: seq<Line>, id: string)
    requires Valid(cart)
    ensures Valid(Dec(cart, id))
  {
  }

  /**
   * `dec` lowers a line above one unit by exactly one and never takes a line
   * below one; every other field, every other line and the order stay.
   */
  lemma DecClamped(cart: seq<Line>, id: string)
    requires QtysPositive(cart)
    ensures |Dec(cart, id)| == |cart|
    ensures forall i :: 0 <= i < |cart| && cart[i].id == id ==>
              Dec(cart, id)[i] == cart[i].(qty := if cart[i].qty == 1 then 1 else cart[i].qty - 1)
    ensures forall i :: 0 <= i < |cart| && cart[i].id != id ==> Dec(cart, id)[i] == cart[i]
  {
  }

  /** `dec` on a line holding one unit changes nothing, however often it is repeated. */
  lemma DecAtOneIsIdentity(cart: seq<Line>, id: string)
    requires QtysPositive(cart)
    requires forall i :: 0 <= i < |cart| && cart[i].id == id ==> cart[i].qty == 1
    ensures Dec(cart, id) == cart
  {
  }

  // ----- remove -----

  /** Dropping the first line keeps ids unique, and no later line has the first line's id. */
  lemma UniqueTail(cart: seq<Line>)
    requires UniqueIds(cart) && cart != []
    ensures UniqueIds(cart[1..])
    ensures !HasId(cart[1..], cart[0].id)
  {
    forall i, j | 0 <= i < j < |cart[1..]| ensures cart[1..][i].id != cart[1..][j].id {
      assert cart[1..][i] == cart[i + 1] && cart[1..][j] == cart[j + 1];
    }
    forall i | 0 <= i < |cart[1..]| ensures cart[1..][i].id != cart[0].id {
      assert cart[1..][i] == cart[i + 1];
    }
  }

  /** `remove` looks at the first line, then at the rest. */
  lemma RemoveCons(cart: seq<Line>, id: string)
    requires cart != []
    ensures Remove(cart, id) == (if cart[0].id != id then [cart[0]] else []) + Remove(cart[1..], id)
  {
  }

  /** `remove` keeps ids unique. */
  lemma {:induction false} RemoveKeepsUniqueIds(cart: seq<Line>, id: string)
    requires UniqueIds(cart)
    ensures UniqueIds(Remove(cart, id))
  {
    if cart != [] {
      UniqueTail(cart);
      RemoveKeepsUniqueIds(cart[1..], id);
      RemoveCons(cart, id);
      var rest := Remove(cart[1..], id);
      KeepMembers(cart[1..], (x: Line) => x.id != id);
      forall j | 0 <= j < |rest| ensures rest[j].id != cart[0].id {
        assert rest[j] in cart[1..];
      }
    }
  }

  /** After `remove(id)` no line has `id`, and the cart stays valid. */
  lemma RemovePreservesValid(cart: seq<Line>, id: string)
    requires Valid(cart)
    ensures Valid(Remove(cart, id))
    ensures !HasId(Remove(cart, id), id)
  {
    RemoveKeepsUniqueIds(cart, id);
    KeepMembers(cart, (x: Line) => x.id != id);
    var r := Remove(cart, id);
    forall j | 0 <= j < |r| ensures r[j].qty >= 1 && r[j].id != id {
      assert r[j] in cart;
    }
  }

  /** With unique ids, removing the line at `k` leaves the lines before it and after it, in order. */
  lemma {:induction false} RemoveLine(cart: seq<Line>, k: nat)
    requires UniqueIds(cart) && k < |cart|
    ensures Remove(cart, cart[k].id) == cart[..k] + cart[k + 1..]
  {
    var id, tail := cart[k].id, cart[1..];
    UniqueTail(cart);
    RemoveCons(cart, id);
    if k == 0 {
      RemoveAbsent(tail, id);
    } else {
      assert cart[0].id != id;
      assert tail[k - 1] == cart[k];
      RemoveLine(tail, k - 1);
      assert tail[..k - 1] == cart[1..k];
      assert tail[k..] == cart[k + 1..];
      assert cart[..k] == [cart[0]] + cart[1..k];
    }
  }

  /** Removing an id that no line has leaves the cart as it is. */
  lemma {:induction false} RemoveAbsent(cart: seq<Line>, id: string)
    requires !HasId(cart, id)
    ensures Remove(cart, id) == cart
  {
    if cart != [] {
      assert !HasId(cart[1..], id) by {
        forall i | 0 <= i < |cart[1..]| ensures cart[1..][i].id != id {
          assert cart[1..][i] == cart[i + 1];
        }
      }
      RemoveAbsent(cart[1..], id);
      assert cart == [cart[0]] + cart[1..];
    }
  }

  // ----- the total -----

  lemma TotalEmpty()
    ensures Total([]) == 0
  {
  }

  /** With no negative price or quantity on any line, the total is never negative. */
  lemma {:induction false} TotalNonNegative(cart: seq<Line>)
    requires forall i :: 0 <= i < |cart| ==> cart[i].pricePaise >= 0 && cart[i].qty >= 0
    ensures Total(cart) >= 0
  {
    if cart != [] {
      TotalNonNegative(cart[..|cart| - 1]);
    }
  }

  /** The total of two carts joined is the sum of their totals. */
  lemma {:induction false} TotalAppend(a: seq<Line>, b: seq<Line>)
    ensures Total(a + b) == Total(a) + Total(b)
    decreases |b|
  {
    if b == [] {
      assert a + b == a;
    } else {
      TotalAppend(a, b[..|b| - 1]);
      assert (a + b)[..|a + b| - 1] == a + b[..|b| - 1];
    }
  }

  /** The price of the lines with a given id, added up: the price of that line when ids are unique. */
  function PriceOf(cart: seq<Line>, id: string): int
  {
    if cart == [] then 0
    else PriceOf(cart[..|cart| - 1], id) + (if cart[|cart| - 1].id == id then cart[|cart| - 1].pricePaise else 0)
  }

  /** An id no line has is worth nothing. */
  lemma {:induction false} PriceOfAbsent(cart: seq<Line>, id: string)
    requires !HasId(cart, id)
    ensures PriceOf(cart, id) == 0
  {
    if cart != [] {
      var init := cart[..|cart| - 1];
      assert !HasId(init, id) by {
        forall i | 0 <= i < |init| ensures init[i].id != id {
          assert init[i] == cart[i];
        }
      }
      PriceOfAbsent(init, id);
    }
  }

  /** With unique ids, the price of a line's id is that line's price. */
  lemma {:induction false} PriceOfUnique(cart: seq<Line>, k: nat)
    requires UniqueIds(cart) && k < |cart|
    ensures PriceOf(cart, cart[k].id) == cart[k].pricePaise
  {
    var init, last := cart[..|cart| - 1], cart[|cart| - 1];
    assert UniqueIds(init) by {
      forall i, j | 0 <= i < j < |init| ensures init[i].id != init[j].id {
        assert init[i] == cart[i] && init[j] == cart[j];
      }
    }
    if k == |cart| - 1 {
      assert !HasId(init, last.id) by {
        forall i | 0 <= i < |init| ensures init[i].id != last.id {
          assert init[i] == cart[i];
        }
      }
      PriceOfAbsent(init, last.id);
    } else {
      assert init[k] == cart[k];
      PriceOfUnique(init, k);
    }
  }

  /** `inc` raises the total by the price of the line it bumps, and by nothing for an unknown id. */
  lemma {:induction false} TotalInc(cart: seq<Line>, id: string)
    ensures Total(Inc(cart, id)) == Total(cart) + PriceOf(cart, id)
  {
    if cart != [] {
      var init, last := cart[..|cart| - 1], cart[|cart| - 1];
      var bumped := Inc(cart, id);
      TotalInc(init, id);
      assert bumped[..|cart| - 1] == Inc(init, id);
      assert Total(bumped) == Total(Inc(init, id)) + bumped[|cart| - 1].pricePaise * bumped[|cart| - 1].qty;
      if last.id == id {
        assert bumped[|cart| - 1] == last.(qty := last.qty + 1);
        assert last.pricePaise * (last.qty + 1) == last.pricePaise * last.qty + last.pricePaise;
      } else {
        assert bumped[|cart| - 1] == last;
      }
    }
  }

  /** `add` raises the total by one unit of the product: at the cart's price when the line exists. */
  lemma TotalAdd(cart: seq<Line>, p: Product)
    ensures !HasId(cart, p.id) ==> Total(Add(cart, p)) == Total(cart) + p.pricePaise
    ensures HasId(cart, p.id) ==> Total(Add(cart, p)) == Total(cart) + PriceOf(cart, p.id)
  {
    if HasId(cart, p.id) {
      TotalInc(cart, p.id);
    } else {
      TotalAppend(cart, [Line(p.id, p.title, p.pricePaise, p.img, 1)]);
      assert [Line(p.id, p.title, p.pricePaise, p.img, 1)][..0] == [];
    }
  }

  /** The total splits around any line. */
  lemma TotalAround(cart: seq<Line>, k: nat)
    requires k < |cart|
    ensures Total(cart) == Total(cart[..k]) + cart[k].pricePaise * cart[k].qty + Total(cart[k + 1..])
  {
    var before, after := cart[..k], cart[k + 1..];
    assert cart == (before + [cart[k]]) + after;
    TotalAppend(before + [cart[k]], after);
    assert (before + [cart[k]])[..|before|] == before;
  }

  /** With unique ids, removing a line lowers the total by exactly that line's amount. */
  lemma TotalRemove(cart: seq<Line>, k: nat)
    requires UniqueIds(cart) && k < |cart|
    ensures Total(Remove(cart, cart[k].id)) == Total(cart) - cart[k].pricePaise * cart[k].qty
  {
    RemoveLine(cart, k);
    TotalAppend(cart[..k], cart[k + 1..]);
    TotalAround(cart, k);
  }

  // ----- any sequence of operations -----

  datatype Action = AddAction(p: Product) | RemoveAction(id: string) | IncAction(id: string) | DecAction(id: string)

  function Apply(cart: seq<Line>, a: Action): seq<Line>
  {
    match a
    case AddAction(p) => Add(cart, p)
    case RemoveAction(id) => Remove(cart, id)
    case IncAction(id) => Inc(cart, id)
    case DecAction(id) => Dec(cart, id)
  }

  function Run(cart: seq<Line>, actions: seq<Action>): seq<Line>
    decreases |actions|
  {
    if actions == [] then cart else Run(Apply(cart, actions[0]), actions[1..])
  }

  /**
   * Whatever the user does, starting from the empty cart, ids stay unique
   * and every line holds at least one unit.
   */
  lemma {:induction false} RunPreservesValid(cart: seq<Line>, actions: seq<Action>)
    requires Valid(cart)
    ensures Valid(Run(cart, actions))
    decreases |actions|
  {
    if actions != [] {
      var next := Apply(cart, actions[0]);
      match actions[0] {
        case AddAction(p) => AddPreservesValid(cart, p);
        case RemoveAction(id) => RemovePreservesValid(cart, id);
        case IncAction(id) => IncPreservesValid(cart, id);
        case DecAction(id) => DecPreservesValid(cart, id);
      }
      RunPreservesValid(next, actions[1..]);
    }
  }

  lemma EveryCartValid(actions: seq<Action>)
    ensures Valid(Run([], actions))
  {
    RunPreservesValid([], actions);
  }

}
