/** The cart of js/script.js as the page holds it: one mutable object whose
    `lines` the add, change-quantity and remove handlers rewrite in place and
    then save under the storage key "CART". */
module CartStore {
  import opened CartLines
  import opened Catalog

  /** What the checkout button leads to: the "cart is empty" notice, or an
      order message listing the lines and their grand total. */
  datatype CheckoutOutcome = EmptyCart | Order(lines: seq<CartLine>, total: int)

  /** A click the page hands to the cart: an add button of the product grid,
      the add button of the product page, and the remove, plus and minus
      controls of a cart line. */
  datatype Control =
    | GridAdd(id: string, name: string, price: nat, image: string)
    | PageAdd(product: Product)
    | RemoveItem(lineId: string)
    | QtyPlus(lineId: string)
    | QtyMinus(lineId: string)

  /** The cart after one click. */
  function Step(s: seq<CartLine>, c: Control): seq<CartLine>
  {
    match c
    case GridAdd(id, name, price, image) => Added(s, CartLine(id, name, price, image, 1))
    case PageAdd(p) => Added(s, NewLine(p))
    case RemoveItem(id) => Removed(s, id)
    case QtyPlus(id) => ChangedQuantity(s, id, 1)
    case QtyMinus(id) => ChangedQuantity(s, id, -1)
  }

  /** The cart after a whole session of clicks. */
  function Replay(s: seq<CartLine>, cs: seq<Control>): seq<CartLine>
    decreases |cs|
  {
    if cs == [] then s else Replay(Step(s, cs[0]), cs[1..])
  }

  /** One click keeps one line per id and every quantity at least 1: the page
      only adds single items, and a line a minus click empties is removed. */
  lemma StepWellFormed(s: seq<CartLine>, c: Control)
    requires WellFormed(s)
    ensures WellFormed(Step(s, c))
  {
    match c
    case GridAdd(id, name, price, image) => AddedWellFormed(s, CartLine(id, name, price, image, 1));
    case PageAdd(p) => AddedWellFormed(s, NewLine(p));
    case RemoveItem(id) => RemovedWellFormed(s, id);
    case QtyPlus(id) => ChangedWellFormed(s, id, 1);
    case QtyMinus(id) => ChangedWellFormed(s, id, -1);
  }

  /** Any session of clicks that starts from a well-formed cart (the empty
      one among them) ends in a well-formed cart. */
  lemma {:induction false} ReplayWellFormed(s: seq<CartLine>, cs: seq<Control>)
    requires WellFormed(s)
    ensures WellFormed(Replay(s, cs))
    decreases |cs|
  {
    if cs != [] {
      StepWellFormed(s, cs[0]);
      ReplayWellFormed(Step(s, cs[0]), cs[1..]);
    }
  }

  class Cart {
    /** The `cart` array, in insertion order. */
    var lines: seq<CartLine>
    /** The value of the "CART" storage slot; None while it has never been written. */
    ghost var saved: Option<seq<CartLine>>

    /** Loading at start-up: the stored cart, or an empty one when the slot
        holds nothing. */
    constructor Load(stored: Option<seq<CartLine>>)
      ensures lines == (if stored.Some? then stored.value else [])
      ensures saved == stored
    {
      lines := if stored.Some? then stored.value else [];
      saved := stored;
    }

    /** `saveCart`: the slot now holds the current cart. */
    method Save()
      modifies this
      ensures lines == old(lines)
      ensures saved == Some(lines)
    {
      saved := Some(lines);
    }

    /** `cart.find(item => item.id === id)`, as a position: the first line
        with the id, or -1. */
    method Find(id: string) returns (i: int)
      ensures i == IndexOf(lines, id)
      ensures i >= 0 ==> lines[i].id == id
      ensures i < 0 <==> forall j :: 0 <= j < |lines| ==> lines[j].id != id
    {
      i := 0;
      while i < |lines| && lines[i].id != id
        invariant 0 <= i <= |lines|
        invariant forall j :: 0 <= j < i ==> lines[j].id != id
      {
        i := i + 1;
      }
      if i == |lines| {
        i := -1;
      }
    }

    /** `addToCart`: merge into the line with the product's id, or append. */
    method AddToCart(product: CartLine)
      modifies this
      ensures lines == Added(old(lines), product)
      ensures saved == Some(lines)
      ensures old(WellFormed(lines)) && product.quantity >= 1 ==> WellFormed(lines)
    {
      ghost var before := lines;
      var i := Find(product.id);
      if i >= 0 {
        lines := lines[i := lines[i].(quantity := lines[i].quantity + product.quantity)];
      } else {
        lines := lines + [product];
      }
      Save();
      if WellFormed(before) && product.quantity >= 1 {
        AddedWellFormed(before, product);
      }
    }

    /** `removeFromCart`: keep only the lines whose id differs. */
    method RemoveFromCart(id: string)
      modifies this
      ensures lines == Removed(old(lines), id)
      ensures saved == Some(lines)
      ensures old(WellFormed(lines)) ==> WellFormed(lines)
    {
      if WellFormed(lines) {
        RemovedWellFormed(lines, id);
      }
      lines := Removed(lines, id);
      Save();
    }

    /** `changeQuantity`: move the found line's quantity by `change`, removing
        the id when it drops to zero or below; an unknown id changes nothing,
        not even the slot. */
    method ChangeQuantity(id: string, change: int)
      modifies this
      ensures lines == ChangedQuantity(old(lines), id, change)
      ensures saved == if IndexOf(old(lines), id) < 0 then old(saved) else Some(lines)
      ensures old(WellFormed(lines)) ==> WellFormed(lines)
    {
      ghost var before := lines;
      if WellFormed(before) {
        ChangedWellFormed(before, id, change);
      }
      var i := Find(id);
      if i >= 0 {
        var updated := lines[i].(quantity := lines[i].quantity + change);
        lines := lines[i := updated];
        if updated.quantity <= 0 {
          RemovedUpdate(before, i, updated);
          RemoveFromCart(id);
        } else {
          Save();
        }
      }
    }

    /** The `total` / `totalPrice` accumulation: price times quantity summed
        over the lines, 0 for an empty cart. */
    method CartTotal() returns (total: int)
      ensures total == Total(lines)
    {
      total := 0;
      var k := 0;
      while k < |lines|
        invariant 0 <= k <= |lines|
        invariant total == Total(lines[..k])
      {
        assert lines[..k + 1] == lines[..k] + [lines[k]];
        TotalAppend(lines[..k], [lines[k]]);
        assert [lines[k]][1..] == [];
        total := total + lines[k].price * lines[k].quantity;
        k := k + 1;
      }
      assert lines[..k] == lines;
    }

    /** The checkout button: refused when the cart is empty, otherwise an
        order for the lines in cart order and their total. */
    method Checkout() returns (outcome: CheckoutOutcome)
      ensures outcome.EmptyCart? <==> lines == []
      ensures outcome.Order? ==> outcome.lines == lines && outcome.total == Total(lines)
      ensures outcome.Order? && AllPositive(lines) ==> outcome.total >= 0
    {
      if |lines| == 0 {
        return EmptyCart;
      }
      var total := CartTotal();
      outcome := Order(lines, total);
    }

    /** The click handlers of the grid, the product page and the cart lines. */
    method Click(c: Control)
      modifies this
      ensures lines == Step(old(lines), c)
      // every handler saves, except a plus or minus on a line that is gone
      ensures saved == if (c.QtyPlus? || c.QtyMinus?) && IndexOf(old(lines), c.lineId) < 0
                       then old(saved) else Some(lines)
      ensures old(WellFormed(lines)) ==> WellFormed(lines)
    {
      match c
      case GridAdd(id, name, price, image) => AddToCart(CartLine(id, name, price, image, 1));
      case PageAdd(p) => AddToCart(NewLine(p));
      case RemoveItem(id) => RemoveFromCart(id);
      case QtyPlus(id) => ChangeQuantity(id, 1);
      case QtyMinus(id) => ChangeQuantity(id, -1);
    }
  }

  /** The product page: look the id from the address up in the catalog and,
      when a product is found, its add button puts one of it in the cart. */
  method ProductPageAdd(cart: Cart, productId: string) returns (found: Option<Product>)
    modifies cart
    ensures found == FindProduct(ProductsDB, productId)
    ensures found.None? ==> cart.lines == old(cart.lines) && cart.saved == old(cart.saved)
    ensures found.Some? ==> cart.lines == Added(old(cart.lines), NewLine(found.value))
    ensures found.Some? ==> cart.saved == Some(cart.lines)
  {
    found := FindProduct(ProductsDB, productId);
    if found.Some? {
      cart.Click(PageAdd(found.value));
    }
  }

  /** Adding the chair twice leaves one line of two chairs worth 5000000. */
  method ScenarioSameProductTwice()
  {
    var cart := new Cart.Load(None);
    var chair := CartLine("1", "Teak Chair", 2500000, "./images/products/chair-1.jpg", 1);
    cart.AddToCart(chair);
    assert cart.lines == [chair];
    cart.AddToCart(chair);
    assert IndexOf([chair], "1") == 0;
    assert cart.lines == [chair.(quantity := 2)];
    var total := cart.CartTotal();
    assert Total([chair.(quantity := 2)]) == 5000000 by {
      assert [chair.(quantity := 2)][1..] == [];
    }
    assert total == 5000000;
  }

  /** One bowl set and a minus click leave an empty cart worth 0, and checkout
      is then refused. */
  method ScenarioMinusToEmpty()
  {
    var cart := new Cart.Load(None);
    var bowls := CartLine("2", "Wooden Bowl Set", 150000, "./images/products/bowl-set.jpg", 1);
    cart.AddToCart(bowls);
    assert cart.lines == [bowls];
    cart.ChangeQuantity("2", -1);
    assert IndexOf([bowls], "2") == 0;
    assert cart.lines == [];
    var total := cart.CartTotal();
    assert total == 0;
    var outcome := cart.Checkout();
    assert outcome == EmptyCart;
  }
}
