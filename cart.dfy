/**
 * The cart store: the process-wide `cart` dict and the tools that change or
 * show it (`add_to_cart`, `remove_from_cart`, `view_cart`).
 *
 * `CartState` is the dict as a value: `items` maps a stock code to its line,
 * and `order` lists the keys in insertion order, which is the order a Python
 * dict iterates in (updating a key keeps its place, inserting appends, `del`
 * drops it). `Add`, `Remove` and `View` are the specifications; the class
 * `Cart` holds the same state in fields and its methods are proved to follow them.
 */
module CartStore {
  import opened Catalog
  import opened Text

  /** A cart entry: description and unit price copied from the product, and the running quantity. */
  datatype LineItem = LineItem(description: string, unitPrice: real, quantity: int)

  datatype CartState = CartState(order: seq<StockCode>, items: map<StockCode, LineItem>)

  /** The cart at process start. */
  const EmptyCart := CartState([], map[])

  /** No stock code is listed twice. */
  ghost predicate Distinct(order: seq<StockCode>)
  {
    forall i, j :: 0 <= i < j < |order| ==> order[i] != order[j]
  }

  /** The key order lists each key of the dict exactly once. */
  ghost predicate WellFormed(s: CartState)
  {
    Distinct(s.order) && forall k :: k in s.items <==> k in s.order
  }

  /** Every line holds a positive quantity. */
  ghost predicate QuantitiesPositive(s: CartState)
  {
    forall k :: k in s.items ==> s.items[k].quantity > 0
  }

  /** The state after one tool call, with the value the tool returns. */
  datatype Step<R> = Step(state: CartState, reply: R)

  /** What `add_to_cart` returns; it names the product passed in, not the cart line. */
  datatype AddReply = Added(quantity: int, description: string)
  {
    /** The confirmation text, with the quantity written in decimal. */
    function Message(): (r: string)
      ensures exists t :: Renders(t, quantity) && r == "Added " + t + " of " + description + " to cart."
    {
      "Added " + IntToString(quantity) + " of " + description + " to cart."
    }
  }

  /** The four outcomes of `remove_from_cart`. */
  datatype RemoveReply =
    | Decremented(quantity: int, description: string)
    | Deleted(description: string)
    | Insufficient(quantity: int, held: int)
    | NotFound
  {
    /** The status text of each outcome, with quantities written in decimal. */
    function Message(): (r: string)
      ensures NotFound? ==> r == "Item not found in cart."
      ensures Deleted? ==> r == "Removed " + description + " from cart."
      ensures Decremented? ==>
                exists t :: Renders(t, quantity) && r == "Removed " + t + " of " + description + " from cart."
      ensures Insufficient? ==>
                exists t, u :: Renders(t, quantity) && Renders(u, held)
                            && r == "Cannot remove " + t + "; only " + u + " available."
    {
      match this
      case Decremented(q, d) => "Removed " + IntToString(q) + " of " + d + " from cart."
      case Deleted(d) => "Removed " + d + " from cart."
      case Insufficient(q, held) => "Cannot remove " + IntToString(q) + "; only " + IntToString(held) + " available."
      case NotFound => "Item not found in cart."
    }
  }

  /** A tool either returns normally or raises `KeyError` for a key it looked up. */
  datatype Outcome<R> = Returned(reply: R) | KeyError(key: StockCode)

  /**
   * What `view_cart` reports: the fixed text "Cart is empty.", or
   * "Your cart contains:" followed by one entry per line, in dict order.
   */
  datatype ViewReply = CartIsEmpty | CartContents(lines: seq<LineItem>)

  /**
   * `add_to_cart`: an existing line has its quantity increased; otherwise a new
   * line is inserted at the end with the product's description and unit price.
   */
  function Add(s: CartState, product: Product, quantity: int): Step<AddReply>
  {
    var code := product.stockCode;
    var next :=
      if code in s.items then
        CartState(s.order, s.items[code := s.items[code].(quantity := s.items[code].quantity + quantity)])
      else
        CartState(s.order + [code], s.items[code := LineItem(product.description, product.unitPrice, quantity)]);
    Step(next, Added(quantity, product.description))
  }

  /** The key order after `del cart[code]`. */
  function Without(order: seq<StockCode>, code: StockCode): seq<StockCode>
  {
    if order == [] then []
    else
      var last := order[|order| - 1];
      Without(order[..|order| - 1], code) + (if last == code then [] else [last])
  }

  /**
   * `remove_from_cart` with the delete branch corrected: the description is
   * taken from the line before the line is deleted.
   */
  function Remove(s: CartState, code: StockCode, quantity: int): Step<RemoveReply>
  {
    if code !in s.items then Step(s, NotFound)
    else
      var line := s.items[code];
      if line.quantity > quantity then
        Step(CartState(s.order, s.items[code := line.(quantity := line.quantity - quantity)]),
             Decremented(quantity, line.description))
      else if line.quantity == quantity then
        Step(CartState(Without(s.order, code), s.items - {code}), Deleted(line.description))
      else
        Step(s, Insufficient(quantity, line.quantity))
  }

  /**
   * `remove_from_cart` as written: in the delete branch the key is removed and
   * the message then looks the key up again in the new dict, which raises
   * `KeyError` when the key is gone.
   */
  function RemoveAsWritten(s: CartState, code: StockCode, quantity: int): Step<Outcome<RemoveReply>>
  {
    if code !in s.items then Step(s, Returned(NotFound))
    else
      var line := s.items[code];
      if line.quantity > quantity then
        var after := CartState(s.order, s.items[code := line.(quantity := line.quantity - quantity)]);
        Step(after, Returned(Decremented(quantity, after.items[code].description)))
      else if line.quantity == quantity then
        var after := CartState(Without(s.order, code), s.items - {code});
        Step(after, if code in after.items then Returned(Deleted(after.items[code].description)) else KeyError(code))
      else
        Step(s, Returned(Insufficient(quantity, line.quantity)))
  }

  /** The lines of `items`, visited in the key order `order`. */
  function LinesOf(order: seq<StockCode>, items: map<StockCode, LineItem>): seq<LineItem>
  {
    if order == [] then []
    else
      var last := order[|order| - 1];
      LinesOf(order[..|order| - 1], items) + (if last in items then [items[last]] else [])
  }

  /** The cart's lines in dict iteration order. */
  function Lines(s: CartState): seq<LineItem>
  {
    LinesOf(s.order, s.items)
  }

  /** `view_cart`: the empty message exactly when the dict is empty. */
  function View(s: CartState): ViewReply
  {
    if |s.items| == 0 then CartIsEmpty else CartContents(Lines(s))
  }

  // ---------------------------------------------------------------------------
  // Adding

  /** Adding to a stock code already in the cart raises that line's quantity and changes nothing else. */
  lemma AddToExistingLine(s: CartState, product: Product, quantity: int)
    requires product.stockCode in s.items
    ensures var code, t := product.stockCode, Add(s, product, quantity).state;
            && t.order == s.order
            && t.items.Keys == s.items.Keys
            && t.items[code].quantity == s.items[code].quantity + quantity
            && t.items[code].description == s.items[code].description
            && t.items[code].unitPrice == s.items[code].unitPrice
            && (forall k :: k in s.items && k != code ==> t.items[k] == s.items[k])
  {
  }

  /** Adding a new stock code inserts exactly the product's description, its price and the quantity, at the end. */
  lemma AddNewLine(s: CartState, product: Product, quantity: int)
    requires product.stockCode !in s.items
    ensures var code, t := product.stockCode, Add(s, product, quantity).state;
            && t.order == s.order + [code]
            && t.items.Keys == s.items.Keys + {code}
            && t.items[code] == LineItem(product.description, product.unitPrice, quantity)
            && (forall k :: k in s.items ==> t.items[k] == s.items[k])
  {
  }

  /** Adding keeps the key order consistent with the dict. */
  lemma AddPreservesWellFormed(s: CartState, product: Product, quantity: int)
    requires WellFormed(s)
    ensures WellFormed(Add(s, product, quantity).state)
  {
  }

  /** Adding a positive quantity keeps every line positive. */
  lemma AddPreservesPositive(s: CartState, product: Product, quantity: int)
    requires QuantitiesPositive(s) && quantity > 0
    ensures QuantitiesPositive(Add(s, product, quantity).state)
  {
  }

  /**
   * Two adds of the same stock code leave one line whose quantity is the sum,
   * with the description and price of the first insertion.
   */
  lemma AddTwiceAccumulates(s: CartState, first: Product, second: Product, q1: int, q2: int)
    requires first.stockCode == second.stockCode
    ensures var code := first.stockCode;
            var t := Add(Add(s, first, q1).state, second, q2).state;
            var original := if code in s.items then s.items[code]
                            else LineItem(first.description, first.unitPrice, 0);
            && t.order == (if code in s.items then s.order else s.order + [code])
            && t.items[code] == original.(quantity := original.quantity + q1 + q2)
            && (forall k :: k in s.items && k != code ==> t.items[k] == s.items[k])
  {
  }

  // ---------------------------------------------------------------------------
  // Removing

  /** `Without` drops exactly the given code. */
  lemma {:induction false} WithoutMembers(order: seq<StockCode>, code: StockCode)
    ensures forall k :: k in Without(order, code) <==> k in order && k != code
    ensures |Without(order, code)| <= |order|
  {
    if order != [] {
      WithoutMembers(order[..|order| - 1], code);
      assert order == order[..|order| - 1] + [order[|order| - 1]];
    }
  }

  /** `Without` keeps a list free of repeats. */
  lemma {:induction false} WithoutDistinct(order: seq<StockCode>, code: StockCode)
    requires Distinct(order)
    ensures Distinct(Without(order, code))
  {
    if order != [] {
      var init, last := order[..|order| - 1], order[|order| - 1];
      WithoutDistinct(init, code);
      WithoutMembers(init, code);
      assert last !in init;
    }
  }

  /** Dropping a code that is not listed changes nothing. */
  lemma {:induction false} WithoutAbsent(order: seq<StockCode>, code: StockCode)
    requires code !in order
    ensures Without(order, code) == order
  {
    if order != [] {
      WithoutAbsent(order[..|order| - 1], code);
      assert order[..|order| - 1] + [order[|order| - 1]] == order;
    }
  }

  /** A code not in the cart: "Item not found in cart." and the cart is unchanged. */
  lemma RemoveUnknownCode(s: CartState, code: StockCode, quantity: int)
    requires code !in s.items
    ensures Remove(s, code, quantity) == Step(s, NotFound)
    ensures NotFound.Message() == "Item not found in cart."
  {
  }

  /** Asking for more than the cart holds: the "Cannot remove" status and the cart is unchanged. */
  lemma RemoveTooMany(s: CartState, code: StockCode, quantity: int)
    requires code in s.items && s.items[code].quantity < quantity
    ensures Remove(s, code, quantity) == Step(s, Insufficient(quantity, s.items[code].quantity))
  {
  }

  /** Asking for fewer than held: that line drops by exactly the requested amount, nothing else changes. */
  lemma RemoveFewer(s: CartState, code: StockCode, quantity: int)
    requires code in s.items && s.items[code].quantity > quantity
    ensures var r := Remove(s, code, quantity);
            && r.reply == Decremented(quantity, s.items[code].description)
            && r.state.order == s.order
            && r.state.items.Keys == s.items.Keys
            && r.state.items[code].quantity == s.items[code].quantity - quantity
            && r.state.items[code].description == s.items[code].description
            && r.state.items[code].unitPrice == s.items[code].unitPrice
            && (forall k :: k in s.items && k != code ==> r.state.items[k] == s.items[k])
  {
  }

  /**
   * Asking for exactly the held quantity deletes the line, keeps the other
   * lines, and reports the description the line had.
   */
  lemma RemoveAll(s: CartState, code: StockCode)
    requires code in s.items
    ensures var r := Remove(s, code, s.items[code].quantity);
            && r.reply == Deleted(s.items[code].description)
            && code !in r.state.items && code !in r.state.order
            && r.state.items.Keys == s.items.Keys - {code}
            && (forall k :: k in r.state.items ==> r.state.items[k] == s.items[k])
            && (forall k :: k in s.order && k != code ==> k in r.state.order)
  {
    WithoutMembers(s.order, code);
  }

  /** In a list without repeats, dropping a code cuts out just its one position. */
  lemma {:induction false} WithoutSplits(order: seq<StockCode>, code: StockCode, i: nat)
    requires Distinct(order) && i < |order| && order[i] == code
    ensures Without(order, code) == order[..i] + order[i + 1..]
  {
    var init, last := order[..|order| - 1], order[|order| - 1];
    if i == |order| - 1 {
      assert code !in init;
      WithoutAbsent(init, code);
      assert order[..i] == init && order[i + 1..] == [];
    } else {
      WithoutSplits(init, code, i);
      assert init[..i] == order[..i];
      assert init[i + 1..] + [last] == order[i + 1..];
    }
  }

  /**
   * Deleting a line keeps the remaining keys in their relative order, so the
   * listing after a delete is the old listing with that one entry cut out.
   */
  lemma RemoveAllKeepsOrder(s: CartState, code: StockCode, i: nat)
    requires WellFormed(s) && i < |s.order| && s.order[i] == code
    ensures code in s.items
    ensures Remove(s, code, s.items[code].quantity).state.order == s.order[..i] + s.order[i + 1..]
  {
    WithoutSplits(s.order, code, i);
  }

  /** Removing keeps the key order consistent with the dict. */
  lemma RemovePreservesWellFormed(s: CartState, code: StockCode, quantity: int)
    requires WellFormed(s)
    ensures WellFormed(Remove(s, code, quantity).state)
  {
    WithoutMembers(s.order, code);
    WithoutDistinct(s.order, code);
  }

  /** Removing never leaves a line at zero or below: a line reduced to zero is deleted. */
  lemma RemovePreservesPositive(s: CartState, code: StockCode, quantity: int)
    requires QuantitiesPositive(s)
    ensures QuantitiesPositive(Remove(s, code, quantity).state)
  {
  }

  /** Removing what was just added, in the same amount, restores the cart exactly. */
  lemma AddThenRemoveRestores(s: CartState, product: Product, quantity: int)
    requires WellFormed(s) && QuantitiesPositive(s)
    ensures Remove(Add(s, product, quantity).state, product.stockCode, quantity).state == s
  {
    var code := product.stockCode;
    if code !in s.items {
      WithoutAbsent(s.order, code);
      assert Without(s.order + [code], code) == Without(s.order, code) by {
        assert (s.order + [code])[..|s.order|] == s.order;
      }
      var t := Add(s, product, quantity).state;
      assert t.items - {code} == s.items;
    } else {
      var t := Add(s, product, quantity).state;
      assert t.items[code := t.items[code].(quantity := t.items[code].quantity - quantity)] == s.items;
    }
  }

  // ---------------------------------------------------------------------------
  // The delete branch as written

  /**
   * As written, removing exactly the held quantity deletes the key and then
   * raises `KeyError` instead of returning "Removed ... from cart.".
   */
  lemma RemoveAsWrittenDeleteRaises(s: CartState, code: StockCode)
    requires code in s.items
    ensures var r := RemoveAsWritten(s, code, s.items[code].quantity);
            r.reply == KeyError(code) && code !in r.state.items
  {
  }

  /**
   * The code as written and the corrected `Remove` change the dict in the same
   * way on every input, and return the same value everywhere except in the delete branch.
   */
  lemma RemoveAsWrittenAgreesElsewhere(s: CartState, code: StockCode, quantity: int)
    ensures RemoveAsWritten(s, code, quantity).state == Remove(s, code, quantity).state
    ensures !(code in s.items && s.items[code].quantity == quantity) ==>
              RemoveAsWritten(s, code, quantity).reply == Returned(Remove(s, code, quantity).reply)
  {
  }

  // ---------------------------------------------------------------------------
  // Viewing

  /** A distinct list has as many distinct members as elements. */
  lemma {:induction false} DistinctCardinality(order: seq<StockCode>)
    requires Distinct(order)
    ensures |set k | k in order| == |order|
  {
    if order != [] {
      var init, last := order[..|order| - 1], order[|order| - 1];
      DistinctCardinality(init);
      assert order == init + [last];
      assert (set k | k in order) == (set k | k in init) + {last};
    }
  }

  /** In a well-formed cart the view lists one line per key, in key order. */
  lemma {:induction false} LinesFollowOrder(order: seq<StockCode>, items: map<StockCode, LineItem>)
    requires forall k :: k in order ==> k in items
    ensures |LinesOf(order, items)| == |order|
    ensures forall i :: 0 <= i < |order| ==> LinesOf(order, items)[i] == items[order[i]]
  {
    if order != [] {
      var init := order[..|order| - 1];
      assert forall k :: k in init ==> k in order;
      LinesFollowOrder(init, items);
    }
  }

  /**
   * In a well-formed cart the view shows exactly one line per entry, at the
   * position of its key, and is the empty message exactly when the cart is empty.
   */
  lemma ViewListsEveryLine(s: CartState)
    requires WellFormed(s)
    ensures |Lines(s)| == |s.order| == |s.items|
    ensures forall i :: 0 <= i < |s.order| ==> Lines(s)[i] == s.items[s.order[i]]
    ensures View(s) == CartIsEmpty <==> s.items == map[]
    ensures View(s) == CartIsEmpty <==> Lines(s) == []
  {
    LinesFollowOrder(s.order, s.items);
    DistinctCardinality(s.order);
    assert s.items.Keys == set k | k in s.order;
  }

  /**
   * After removing the whole quantity of a line the view no longer lists it:
   * the key leaves the order, the view has one line fewer, and it is empty
   * exactly when that was the only line.
   */
  lemma RemoveAllHidesFromView(s: CartState, code: StockCode)
    requires WellFormed(s) && code in s.items
    ensures var t := Remove(s, code, s.items[code].quantity).state;
            && code !in t.order
            && |Lines(t)| + 1 == |Lines(s)|
            && (View(t) == CartIsEmpty <==> s.items.Keys == {code})
  {
    var t := Remove(s, code, s.items[code].quantity).state;
    RemoveAll(s, code);
    RemovePreservesWellFormed(s, code, s.items[code].quantity);
    ViewListsEveryLine(s);
    ViewListsEveryLine(t);
    assert |t.items.Keys| == |s.items.Keys - {code}|;
  }

  // ---------------------------------------------------------------------------
  // The global cart, updated in place

  class Cart {
    var order: seq<StockCode>
    var items: map<StockCode, LineItem>

    /** The dict as a value. */
    function State(): CartState
      reads this
    {
      CartState(order, items)
    }

    ghost predicate Valid()
      reads this
    {
      WellFormed(State())
    }

    /** The cart is created empty when the process starts. */
    constructor ()
      ensures Valid() && State() == EmptyCart
    {
      order, items := [], map[];
    }

    method AddToCart(product: Product, quantity: int) returns (reply: AddReply)
      requires Valid()
      modifies this
      ensures Valid()
      ensures Step(State(), reply) == Add(old(State()), product, quantity)
    {
      var code := product.stockCode;
      if code in items {
        var line := items[code];
        items := items[code := line.(quantity := line.quantity + quantity)];
      } else {
        items := items[code := LineItem(product.description, product.unitPrice, quantity)];
        order := order + [code];
      }
      reply := Added(quantity, product.description);
    }

    method RemoveFromCart(code: StockCode, quantity: int) returns (reply: RemoveReply)
      requires Valid()
      modifies this
      ensures Valid()
      ensures Step(State(), reply) == Remove(old(State()), code, quantity)
    {
      RemovePreservesWellFormed(State(), code, quantity);
      if code in items {
        if items[code].quantity > quantity {
          items := items[code := items[code].(quantity := items[code].quantity - quantity)];
          reply := Decremented(quantity, items[code].description);
        } else if items[code].quantity == quantity {
          var description := items[code].description;
          items := items - {code};
          order := Without(order, code);
          reply := Deleted(description);
        } else {
          reply := Insufficient(quantity, items[code].quantity);
        }
      } else {
        reply := NotFound;
      }
    }

    /** Builds the listing in dict order; it changes nothing. */
    method ViewCart() returns (reply: ViewReply)
      requires Valid()
      ensures reply == View(State())
    {
      if |items| == 0 {
        return CartIsEmpty;
      }
      var lines: seq<LineItem> := [];
      for i := 0 to |order|
        invariant lines == LinesOf(order[..i], items)
      {
        assert order[..i + 1][..i] == order[..i];
        lines := lines + [items[order[i]]];
      }
      assert order[..|order|] == order;
      reply := CartContents(lines);
    }
  }
}
