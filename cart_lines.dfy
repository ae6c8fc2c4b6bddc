/** The cart as a value: an ordered sequence of lines, and what each of the
    cart operations of js/script.js does to that sequence.  The class in
    CartStore changes its `lines` field exactly as the functions here say. */
module CartLines {

  datatype Option<T> = None | Some(value: T)

  /** One line of the cart: the public fields of a product at the time it was
      added, plus the number of items wanted.  `quantity` is an `int` because
      a stored cart, or a line that a decrement has just driven to zero,
      may hold any value. */
  datatype CartLine = CartLine(id: string, name: string, price: nat, image: string, quantity: int)

  /** What one line costs: unit price times quantity. */
  function LineTotal(line: CartLine): int
  {
    line.price * line.quantity
  }

  /** Index of the first line carrying `id`, or -1 when there is none:
      the `cart.find(item => item.id === id)` of the source. */
  function IndexOf(s: seq<CartLine>, id: string): (r: int)
    ensures -1 <= r < |s|
    ensures r >= 0 ==> s[r].id == id
    ensures forall j :: 0 <= j < |s| && (r < 0 || j < r) ==> s[j].id != id
  {
    if s == [] then -1
    else if s[0].id == id then 0
    else
      var k := IndexOf(s[1..], id);
      assert forall j :: 1 <= j < |s| ==> s[j] == s[1..][j - 1];
      if k < 0 then -1 else k + 1
  }

  /** The quantity recorded for `id`: that of its first line, 0 if it has none. */
  function QuantityOf(s: seq<CartLine>, id: string): int
  {
    var i := IndexOf(s, id);
    if i < 0 then 0 else s[i].quantity
  }

  /** Number of lines carrying `id`. */
  function Count(s: seq<CartLine>, id: string): (n: nat)
    ensures n <= |s|
  {
    if s == [] then 0
    else (if s[0].id == id then 1 else 0) + Count(s[1..], id)
  }

  /** At most one line per id. */
  predicate DistinctIds(s: seq<CartLine>)
  {
    forall i, j :: 0 <= i < j < |s| ==> s[i].id != s[j].id
  }

  /** Every line holds at least one item. */
  predicate AllPositive(s: seq<CartLine>)
  {
    forall i :: 0 <= i < |s| ==> s[i].quantity >= 1
  }

  /** The cart invariants the operations are meant to keep. */
  predicate WellFormed(s: seq<CartLine>)
  {
    DistinctIds(s) && AllPositive(s)
  }

  /** Sum of price * quantity over the lines, the `total` / `totalPrice` the
      source accumulates. */
  function Total(s: seq<CartLine>): (r: int)
    ensures s == [] ==> r == 0
    ensures (forall i :: 0 <= i < |s| ==> s[i].quantity >= 0) ==> r >= 0
  {
    if s == [] then 0
    else
      assert forall i :: 0 <= i < |s| - 1 ==> s[1..][i] == s[i + 1];
      LineTotal(s[0]) + Total(s[1..])
  }

  /** Appending a line does not move the first match of an id already present. */
  lemma IndexOfAppend(s: seq<CartLine>, x: CartLine, id: string)
    ensures IndexOf(s + [x], id) == if IndexOf(s, id) >= 0 then IndexOf(s, id) else if x.id == id then |s| else -1
  {
    var t := s + [x];
    assert forall j :: 0 <= j < |s| ==> t[j] == s[j];
    assert t[|s|] == x;
  }

  /** Replacing a line by one with the same id does not move any first match. */
  lemma IndexOfUpdate(s: seq<CartLine>, i: int, x: CartLine, id: string)
    requires 0 <= i < |s| && x.id == s[i].id
    ensures IndexOf(s[i := x], id) == IndexOf(s, id)
  {
    var t := s[i := x];
    assert forall j :: 0 <= j < |s| ==> t[j].id == s[j].id;
  }

  lemma {:induction false} CountAppend(s: seq<CartLine>, x: CartLine, id: string)
    ensures Count(s + [x], id) == Count(s, id) + if x.id == id then 1 else 0
  {
    if s != [] {
      assert (s + [x])[1..] == s[1..] + [x];
      CountAppend(s[1..], x, id);
    }
  }

  lemma {:induction false} CountUpdate(s: seq<CartLine>, i: int, x: CartLine, id: string)
    requires 0 <= i < |s| && x.id == s[i].id
    ensures Count(s[i := x], id) == Count(s, id)
  {
    if i > 0 {
      assert s[i := x][1..] == s[1..][i - 1 := x];
      CountUpdate(s[1..], i - 1, x, id);
    }
  }

  /** An id has no line exactly when it is counted zero times. */
  lemma {:induction false} CountZero(s: seq<CartLine>, id: string)
    ensures Count(s, id) == 0 <==> IndexOf(s, id) < 0
  {
    if s != [] {
      CountZero(s[1..], id);
      assert forall j :: 1 <= j < |s| ==> s[j] == s[1..][j - 1];
    }
  }

  /** `addToCart(product)`: grow the quantity of the first line with the
      product's id by the product's quantity, or append the product. */
  function Added(s: seq<CartLine>, product: CartLine): (r: seq<CartLine>)
    // an id already in the cart: same length, only that line's quantity moves
    ensures IndexOf(s, product.id) >= 0 ==>
              |r| == |s| &&
              forall j :: 0 <= j < |s| ==>
                r[j] == if j == IndexOf(s, product.id) then s[j].(quantity := s[j].quantity + product.quantity) else s[j]
    // a new id: the earlier lines are kept in order and the product comes last
    ensures IndexOf(s, product.id) < 0 ==> |r| == |s| + 1 && r[..|s|] == s && r[|s|] == product
  {
    var i := IndexOf(s, product.id);
    if i >= 0 then s[i := s[i].(quantity := s[i].quantity + product.quantity)]
    else s + [product]
  }

  /** Seen per id, `addToCart` adds the product's quantity to what the cart
      recorded for its id, 0 when it had none, and leaves every other id alone. */
  lemma AddedQuantities(s: seq<CartLine>, product: CartLine)
    ensures QuantityOf(Added(s, product), product.id) == QuantityOf(s, product.id) + product.quantity
    ensures forall id :: id != product.id ==> QuantityOf(Added(s, product), id) == QuantityOf(s, id)
  {
    var i := IndexOf(s, product.id);
    if i >= 0 {
      var x := s[i].(quantity := s[i].quantity + product.quantity);
      assert Added(s, product) == s[i := x];
      forall id { IndexOfUpdate(s, i, x, id); }
    } else {
      forall id { IndexOfAppend(s, product, id); }
    }
  }

  /** `addToCart` creates a line for a new id and never a second line for a
      known one. */
  lemma AddedCount(s: seq<CartLine>, product: CartLine)
    ensures Count(Added(s, product), product.id) == if Count(s, product.id) == 0 then 1 else Count(s, product.id)
  {
    var i := IndexOf(s, product.id);
    CountZero(s, product.id);
    if i >= 0 {
      CountUpdate(s, i, s[i].(quantity := s[i].quantity + product.quantity), product.id);
    } else {
      CountAppend(s, product, product.id);
    }
  }

  /** `cart.filter(item => item.id !== id)`: every line carrying `id` is dropped. */
  function Removed(s: seq<CartLine>, id: string): (r: seq<CartLine>)
    ensures |r| <= |s|
  {
    if s == [] then []
    else (if s[0].id == id then [] else [s[0]]) + Removed(s[1..], id)
  }

  /** `changeQuantity(id, change)`: nothing when no line has `id`; otherwise
      the first such line's quantity moves by `change`, and when it reaches
      zero or below every line with `id` is removed. */
  function ChangedQuantity(s: seq<CartLine>, id: string, change: int): (r: seq<CartLine>)
    ensures IndexOf(s, id) < 0 ==> r == s
    ensures IndexOf(s, id) >= 0 && QuantityOf(s, id) + change <= 0 ==> IndexOf(r, id) < 0
    ensures IndexOf(s, id) >= 0 && QuantityOf(s, id) + change > 0 ==>
              |r| == |s| &&
              forall j :: 0 <= j < |s| ==>
                r[j] == if j == IndexOf(s, id) then s[j].(quantity := s[j].quantity + change) else s[j]
    // with one line per id, a removal takes out exactly the line found
    ensures DistinctIds(s) && IndexOf(s, id) >= 0 && QuantityOf(s, id) + change <= 0 ==>
              r == s[..IndexOf(s, id)] + s[IndexOf(s, id) + 1..]
  {
    var i := IndexOf(s, id);
    if i < 0 then s
    else if s[i].quantity + change <= 0 then
      RemovedNone(s, id);
      if DistinctIds(s) then RemovedDistinct(s, id); Removed(s, id)
      else Removed(s, id)
    else s[i := s[i].(quantity := s[i].quantity + change)]
  }

  /** Seen per id, `changeQuantity` moves the quantity recorded for `id` by
      `change`, down to 0 when the line goes, and leaves every other id alone. */
  lemma ChangedQuantities(s: seq<CartLine>, id: string, change: int)
    ensures var q := QuantityOf(s, id);
            QuantityOf(ChangedQuantity(s, id, change), id) ==
              if IndexOf(s, id) < 0 || q + change <= 0 then 0 else q + change
    ensures forall other :: other != id ==> QuantityOf(ChangedQuantity(s, id, change), other) == QuantityOf(s, other)
  {
    var i := IndexOf(s, id);
    if i >= 0 {
      if s[i].quantity + change <= 0 {
        forall other | other != id { QuantityOfRemoved(s, id, other); }
      } else {
        var x := s[i].(quantity := s[i].quantity + change);
        assert ChangedQuantity(s, id, change) == s[i := x];
        forall other { IndexOfUpdate(s, i, x, other); }
      }
    }
  }

  /** The lines kept are exactly the lines of `s` that do not carry `id`. */
  lemma {:induction false} RemovedMembers(s: seq<CartLine>, id: string)
    ensures forall x :: x in Removed(s, id) <==> x in s && x.id != id
  {
    if s != [] {
      RemovedMembers(s[1..], id);
      assert s == [s[0]] + s[1..];
    }
  }

  /** After removal no line carries `id`. */
  lemma RemovedNone(s: seq<CartLine>, id: string)
    ensures IndexOf(Removed(s, id), id) < 0
  {
    var r := Removed(s, id);
    RemovedMembers(s, id);
    assert forall j :: 0 <= j < |r| ==> r[j] in r;
  }

  /** Removing an id that no line carries changes nothing. */
  lemma {:induction false} RemovedAbsent(s: seq<CartLine>, id: string)
    requires IndexOf(s, id) < 0
    ensures Removed(s, id) == s
  {
    if s != [] {
      assert s[0].id != id;
      assert forall j :: 0 <= j < |s| - 1 ==> s[1..][j] == s[j + 1];
      RemovedAbsent(s[1..], id);
      assert s == [s[0]] + s[1..];
    }
  }

  /** Removing twice is removing once. */
  lemma RemovedIdempotent(s: seq<CartLine>, id: string)
    ensures Removed(Removed(s, id), id) == Removed(s, id)
  {
    RemovedNone(s, id);
    RemovedAbsent(Removed(s, id), id);
  }

  /** `changeQuantity` writes the new quantity into the line before it calls
      `removeFromCart`; the filter drops that line all the same. */
  lemma {:induction false} RemovedUpdate(s: seq<CartLine>, i: int, x: CartLine)
    requires 0 <= i < |s| && x.id == s[i].id
    ensures Removed(s[i := x], x.id) == Removed(s, x.id)
  {
    if i > 0 {
      assert s[i := x][1..] == s[1..][i - 1 := x];
      RemovedUpdate(s[1..], i - 1, x);
    }
  }

  /** Removal keeps the relative order of the lines it keeps: it works piecewise. */
  lemma {:induction false} RemovedAppend(a: seq<CartLine>, b: seq<CartLine>, id: string)
    ensures Removed(a + b, id) == Removed(a, id) + Removed(b, id)
  {
    if a != [] {
      assert (a + b)[0] == a[0];
      assert (a + b)[1..] == a[1..] + b;
      RemovedAppend(a[1..], b, id);
    } else {
      assert a + b == b;
    }
  }

  /** In a cart with one line per id, removal takes out exactly the line found. */
  lemma {:induction false} RemovedDistinct(s: seq<CartLine>, id: string)
    requires DistinctIds(s) && IndexOf(s, id) >= 0
    ensures Removed(s, id) == s[..IndexOf(s, id)] + s[IndexOf(s, id) + 1..]
  {
    var i, t := IndexOf(s, id), s[1..];
    assert forall j :: 0 <= j < |t| ==> t[j] == s[j + 1];
    if i == 0 {
      RemovedAbsent(t, id);
    } else {
      assert IndexOf(t, id) == i - 1;
      RemovedDistinct(t, id);
      assert s[..i] == [s[0]] + t[..i - 1];
    }
  }

  /** The quantity recorded for an id, read off the first line and the rest. */
  lemma QuantityOfCons(x: CartLine, t: seq<CartLine>, id: string)
    ensures QuantityOf([x] + t, id) == if x.id == id then x.quantity else QuantityOf(t, id)
  {
    var s := [x] + t;
    assert s[1..] == t;
  }

  /** Removing one id leaves the quantity recorded for every other id as it was. */
  lemma {:induction false} QuantityOfRemoved(s: seq<CartLine>, id: string, other: string)
    requires other != id
    ensures QuantityOf(Removed(s, id), other) == QuantityOf(s, other)
  {
    if s != [] {
      var t := s[1..];
      QuantityOfRemoved(t, id, other);
      QuantityOfCons(s[0], t, other);
      assert s == [s[0]] + t;
      if s[0].id != id {
        QuantityOfCons(s[0], Removed(t, id), other);
      } else {
        assert Removed(s, id) == Removed(t, id);
      }
    }
  }

  /** Removal keeps every quantity at least 1. */
  lemma RemovedAllPositive(s: seq<CartLine>, id: string)
    requires AllPositive(s)
    ensures AllPositive(Removed(s, id))
  {
    var r := Removed(s, id);
    RemovedMembers(s, id);
    forall j | 0 <= j < |r| ensures r[j].quantity >= 1 {
      assert r[j] in r;
      var k :| 0 <= k < |s| && s[k] == r[j];
    }
  }

  /** Removal keeps one line per id. */
  lemma {:induction false} RemovedDistinctIds(s: seq<CartLine>, id: string)
    requires DistinctIds(s)
    ensures DistinctIds(Removed(s, id))
  {
    if s != [] {
      var t := s[1..];
      assert forall j :: 0 <= j < |t| ==> t[j] == s[j + 1];
      RemovedDistinctIds(t, id);
      RemovedMembers(t, id);
      var rest := Removed(t, id);
      if s[0].id != id {
        var r := [s[0]] + rest;
        assert Removed(s, id) == r;
        forall i, j | 0 <= i < j < |r| ensures r[i].id != r[j].id {
          assert r[j] == rest[j - 1] && rest[j - 1] in rest;
          if i == 0 {
            var k :| 0 <= k < |t| && t[k] == rest[j - 1];
            assert t[k] == s[k + 1];
          } else {
            assert r[i] == rest[i - 1];
          }
        }
      } else {
        assert Removed(s, id) == rest;
      }
    }
  }

  /** Removal keeps both cart invariants. */
  lemma RemovedWellFormed(s: seq<CartLine>, id: string)
    requires WellFormed(s)
    ensures WellFormed(Removed(s, id))
  {
    RemovedAllPositive(s, id);
    RemovedDistinctIds(s, id);
  }

  /** Adding a line keeps one line per id, and keeps every quantity at least 1
      when the added quantity is. */
  lemma AddedWellFormed(s: seq<CartLine>, product: CartLine)
    requires WellFormed(s) && product.quantity >= 1
    ensures WellFormed(Added(s, product))
  {
    var r := Added(s, product);
    if IndexOf(s, product.id) < 0 {
      assert forall j :: 0 <= j < |s| ==> r[j] == s[j];
    }
  }

  /** Changing a quantity keeps both invariants, whatever the change: a line
      that would drop to zero or below is removed. */
  lemma ChangedWellFormed(s: seq<CartLine>, id: string, change: int)
    requires WellFormed(s)
    ensures WellFormed(ChangedQuantity(s, id, change))
  {
    if IndexOf(s, id) >= 0 && QuantityOf(s, id) + change <= 0 {
      RemovedWellFormed(s, id);
    }
  }

  /** The total is additive over concatenation. */
  lemma {:induction false} TotalAppend(a: seq<CartLine>, b: seq<CartLine>)
    ensures Total(a + b) == Total(a) + Total(b)
  {
    if a != [] {
      assert (a + b)[0] == a[0];
      assert (a + b)[1..] == a[1..] + b;
      TotalAppend(a[1..], b);
    } else {
      assert a + b == b;
    }
  }

  /** Replacing one line changes the total by the difference of the two line totals. */
  lemma {:induction false} TotalUpdate(s: seq<CartLine>, i: int, x: CartLine)
    requires 0 <= i < |s|
    ensures Total(s[i := x]) == Total(s) - LineTotal(s[i]) + LineTotal(x)
  {
    if i > 0 {
      assert s[i := x][1..] == s[1..][i - 1 := x];
      TotalUpdate(s[1..], i - 1, x);
    }
  }

  /** The total, split around one line. */
  lemma {:induction false} TotalSplit(s: seq<CartLine>, i: int)
    requires 0 <= i < |s|
    ensures Total(s) == Total(s[..i]) + LineTotal(s[i]) + Total(s[i + 1..])
  {
    if i > 0 {
      TotalSplit(s[1..], i - 1);
      assert s[1..][..i - 1] == s[1..i];
      assert s[1..][i - 1 + 1..] == s[i + 1..];
      assert s[..i] == [s[0]] + s[1..i];
      assert ([s[0]] + s[1..i])[1..] == s[1..i];
    }
  }

  /** Moving a line's quantity by `change` moves its total by price * change. */
  lemma LineTotalShift(line: CartLine, change: int)
    ensures LineTotal(line.(quantity := line.quantity + change)) == LineTotal(line) + line.price * change
  {
    assert line.price * (line.quantity + change) == line.price * line.quantity + line.price * change;
  }

  /** `addToCart` raises the total by the added quantity at the unit price of
      the line it lands on: the existing line's price when the id is already in
      the cart, the product's own price otherwise. */
  lemma TotalAdded(s: seq<CartLine>, product: CartLine)
    ensures var i := IndexOf(s, product.id);
            var price := if i >= 0 then s[i].price else product.price;
            Total(Added(s, product)) == Total(s) + price * product.quantity
  {
    var i := IndexOf(s, product.id);
    if i >= 0 {
      var x := s[i].(quantity := s[i].quantity + product.quantity);
      assert Added(s, product) == s[i := x];
      TotalUpdate(s, i, x);
      LineTotalShift(s[i], product.quantity);
    } else {
      TotalAppend(s, [product]);
    }
  }

  /** When the changed line stays, `changeQuantity` moves the total by the
      line's price times the change. */
  lemma TotalChangedKept(s: seq<CartLine>, id: string, change: int)
    requires IndexOf(s, id) >= 0 && QuantityOf(s, id) + change > 0
    ensures Total(ChangedQuantity(s, id, change)) == Total(s) + s[IndexOf(s, id)].price * change
  {
    var i := IndexOf(s, id);
    var x := s[i].(quantity := s[i].quantity + change);
    assert ChangedQuantity(s, id, change) == s[i := x];
    TotalUpdate(s, i, x);
    LineTotalShift(s[i], change);
  }

  /** In a cart with one line per id, when the changed line goes, the total
      loses that line's whole total. */
  lemma TotalChangedRemoved(s: seq<CartLine>, id: string, change: int)
    requires DistinctIds(s) && IndexOf(s, id) >= 0 && QuantityOf(s, id) + change <= 0
    ensures Total(ChangedQuantity(s, id, change)) == Total(s) - LineTotal(s[IndexOf(s, id)])
  {
    var i := IndexOf(s, id);
    assert ChangedQuantity(s, id, change) == s[..i] + s[i + 1..];
    TotalSplit(s, i);
    TotalAppend(s[..i], s[i + 1..]);
  }

  /** Adding a sequence of products one after the other. */
  function AddedAll(s: seq<CartLine>, products: seq<CartLine>): seq<CartLine>
    decreases |products|
  {
    if products == [] then s else AddedAll(Added(s, products[0]), products[1..])
  }

  function SumQuantities(products: seq<CartLine>): int
  {
    if products == [] then 0 else products[0].quantity + SumQuantities(products[1..])
  }

  /** Adding the same id repeatedly leaves a single line for it whose quantity
      is what it held before plus the sum of the added quantities. */
  lemma {:induction false} RepeatedAdd(s: seq<CartLine>, products: seq<CartLine>, id: string)
    requires forall k :: 0 <= k < |products| ==> products[k].id == id
    ensures QuantityOf(AddedAll(s, products), id) == QuantityOf(s, id) + SumQuantities(products)
    ensures products != [] && Count(s, id) <= 1 ==> Count(AddedAll(s, products), id) == 1
    ensures products == [] ==> AddedAll(s, products) == s
    decreases |products|
  {
    if products != [] {
      var tail := products[1..];
      assert forall k :: 0 <= k < |tail| ==> tail[k] == products[k + 1];
      AddedCount(s, products[0]);
      RepeatedAdd(Added(s, products[0]), tail, id);
    }
  }
}
