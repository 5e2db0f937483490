/**
 * `checkout`: the total over a list of cart lines, reported either as a
 * request for confirmation or as a processed payment. It changes no state.
 */
module Checkout {
  import opened Catalog
  import opened CartStore

  /** One line's contribution, `UnitPrice * Quantity`. */
  function Cost(line: LineItem): real
  {
    line.unitPrice * line.quantity as real
  }

  /** The `sum(...)` over the lines, accumulated from the left. */
  function Total(lines: seq<LineItem>): real
  {
    if lines == [] then 0.0 else Total(lines[..|lines| - 1]) + Cost(lines[|lines| - 1])
  }

  /**
   * The three messages of `checkout`: the fixed text "Your cart is empty. Please
   * add some items before proceeding to checkout.", "Checkout initiated. The total
   * price is $... Do you want to proceed with the payment? (yes/no)", and
   * "Confirmed! Processing payment for $...".
   */
  datatype CheckoutReply = CartEmpty | AwaitingConfirmation(total: real) | PaymentProcessed(total: real)

  /** `user_confirmed` when `checkout` is called without it: a call without the flag is `Checkout(lines, DefaultUserConfirmed)`. */
  const DefaultUserConfirmed := false

  /**
   * An empty list gets the empty-cart message and no total is computed;
   * otherwise the total is computed once and `userConfirmed` only picks the message.
   */
  function Checkout(lines: seq<LineItem>, userConfirmed: bool): (r: CheckoutReply)
    ensures r.CartEmpty? <==> lines == []
    ensures r.PaymentProcessed? <==> lines != [] && userConfirmed
    ensures r.AwaitingConfirmation? <==> lines != [] && !userConfirmed
  {
    if lines == [] then CartEmpty
    else
      var total := Total(lines);
      if !userConfirmed then AwaitingConfirmation(total) else PaymentProcessed(total)
  }

  /** The quote and the confirmation for the same lines report the same total. */
  lemma QuoteAndConfirmationAgree(lines: seq<LineItem>)
    requires lines != []
    ensures Checkout(lines, false).total == Checkout(lines, true).total == Total(lines)
  {
  }

  /** The total of a concatenation is the sum of the totals. */
  lemma {:induction false} TotalAppend(a: seq<LineItem>, b: seq<LineItem>)
    ensures Total(a + b) == Total(a) + Total(b)
    decreases |b|
  {
    if b == [] {
      assert a + b == a;
    } else {
      var init := b[..|b| - 1];
      TotalAppend(a, init);
      assert (a + b)[..|a + b| - 1] == a + init;
      assert (a + b)[|a + b| - 1] == b[|b| - 1];
    }
  }

  /** With non-negative prices and quantities the total is non-negative. */
  lemma {:induction false} TotalNonNegative(lines: seq<LineItem>)
    requires forall i :: 0 <= i < |lines| ==> lines[i].unitPrice >= 0.0 && lines[i].quantity >= 0
    ensures Total(lines) >= 0.0
  {
    if lines != [] {
      TotalNonNegative(lines[..|lines| - 1]);
      var last := lines[|lines| - 1];
      assert Cost(last) >= 0.0 by {
        assert last.quantity as real >= 0.0;
      }
    }
  }

  /** Taking one key out of the visiting order takes exactly its cost out of the total. */
  lemma {:induction false} TotalWithoutKey(order: seq<StockCode>, items: map<StockCode, LineItem>, code: StockCode)
    requires Distinct(order) && code in order
    requires forall k :: k in order ==> k in items
    ensures Total(LinesOf(order, items)) == Cost(items[code]) + Total(LinesOf(Without(order, code), items))
  {
    var init, last := order[..|order| - 1], order[|order| - 1];
    assert forall k :: k in init ==> k in order;
    if last == code {
      assert code !in init;
      WithoutAbsent(init, code);
      assert Without(order, code) == init;
      var l := LinesOf(init, items);
      assert LinesOf(order, items) == l + [items[code]];
      assert (l + [items[code]])[..|l|] == l;
      assert Total(l + [items[code]]) == Total(l) + Cost(items[code]);
    } else {
      assert code in init;
      TotalWithoutKey(init, items, code);
      var w := Without(init, code);
      assert (w + [last])[..|w|] == w;
    }
  }

  /**
   * The total of a well-formed cart does not depend on the order the lines were
   * inserted in: two orders of the same distinct keys give the same total.
   */
  lemma {:induction false} TotalIgnoresOrder(o1: seq<StockCode>, o2: seq<StockCode>, items: map<StockCode, LineItem>)
    requires Distinct(o1) && Distinct(o2)
    requires forall k :: k in o1 <==> k in o2
    requires forall k :: k in o1 ==> k in items
    ensures Total(LinesOf(o1, items)) == Total(LinesOf(o2, items))
    decreases |o1|
  {
    if o1 != [] {
      var init, last := o1[..|o1| - 1], o1[|o1| - 1];
      assert o1 == init + [last];
      assert last !in init;
      WithoutMembers(o2, last);
      WithoutDistinct(o2, last);
      TotalIgnoresOrder(init, Without(o2, last), items);
      TotalWithoutKey(o2, items, last);
    } else {
      assert forall i :: 0 <= i < |o2| ==> o2[i] in o2;
    }
  }

  /**
   * Checking out the cart: the empty-cart message exactly when the cart is
   * empty; otherwise a total that depends only on the cart's entries, not on
   * the order they were added in.
   */
  lemma CheckoutOfCart(s: CartState, t: CartState, userConfirmed: bool)
    requires WellFormed(s) && WellFormed(t) && s.items == t.items
    ensures Checkout(Lines(s), userConfirmed) == CartEmpty <==> s.items == map[]
    ensures Checkout(Lines(s), userConfirmed) == Checkout(Lines(t), userConfirmed)
  {
    ViewListsEveryLine(s);
    ViewListsEveryLine(t);
    TotalIgnoresOrder(s.order, t.order, s.items);
  }

  /**
   * The worked example: 4 then 1 of a product at 2.50 make one line of 5, the
   * quote is 12.50, and removing all 5 leaves the cart empty.
   */
  lemma WorkedExample()
    ensures var a := Product("A", "Item A", 2.5, 10);
            var s := Add(Add(EmptyCart, a, 4).state, a, 1).state;
            && s.items["A"].quantity == 5
            && Checkout(Lines(s), false) == AwaitingConfirmation(12.5)
            && View(Remove(s, "A", 5).state) == CartIsEmpty
  {
    var a := Product("A", "Item A", 2.5, 10);
    var s := Add(Add(EmptyCart, a, 4).state, a, 1).state;
    var line := LineItem("Item A", 2.5, 5);
    assert s.order == ["A"] && s.items["A"] == line;
    assert ["A"][..0] == [] && [line][..0] == [];
    assert LinesOf(["A"], s.items) == [line];
    assert Total([line]) == 12.5;
  }

  /**
   * A caller's view of the cart object, following the same example through the
   * methods: their contracts alone fix the quote and the empty view at the end.
   * The checkout is called without the flag, so it only asks for confirmation.
   */
  method CartSession() returns (quote: CheckoutReply, view: ViewReply)
    ensures quote == AwaitingConfirmation(12.5)
    ensures view == CartIsEmpty
  {
    var cart := new Cart();
    var a := Product("A", "Item A", 2.5, 10);
    var added := cart.AddToCart(a, 4);
    added := cart.AddToCart(a, 1);
    WorkedExample();
    quote := Checkout(Lines(cart.State()), DefaultUserConfirmed);
    var removed := cart.RemoveFromCart("A", 5);
    view := cart.ViewCart();
  }
}
