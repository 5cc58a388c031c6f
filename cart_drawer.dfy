/** The cart drawer (`src/components/cart/CartDrawer.tsx`): the subtotal it shows, computed from
    the cart lines' price strings, and the store calls its per-line controls make. */
module CartDrawer {
  import opened Common
  import opened Strings
  import opened Seqs
  import opened Catalog
  import opened CartStore

  /** The characters the price cleaning keeps: `[0-9.]`. */
  predicate IsPriceChar(c: char) {
    IsDigit(c) || c == '.'
  }

  /** `price.replace(/[^0-9.]/g, "")`: every other character is deleted. */
  function CleanPrice(price: string): (r: string)
    ensures forall i :: 0 <= i < |r| ==> IsPriceChar(r[i])
  {
    Filter(IsPriceChar, price)
  }

  /** Cleaning keeps every digit of the price string, wherever it stands, in order; and a cleaned
      string is clean. */
  lemma CleanPriceKeepsDigits(price: string)
    ensures Filter(IsDigit, CleanPrice(price)) == Filter(IsDigit, price)
    ensures CleanPrice(CleanPrice(price)) == CleanPrice(price)
  {
    FilterNested(IsPriceChar, IsDigit, price);
    FilterAllPass(IsPriceChar, CleanPrice(price));
  }

  function Pow10(n: nat): (r: nat)
    ensures r > 0
  {
    if n == 0 then 1 else 10 * Pow10(n - 1)
  }

  /** `parseFloat` on a string of digits and dots: the longest head of the form `digits`,
      `digits.digits` or `.digits` (`None` is NaN, when that head holds no digit). The value is the
      exact decimal; rounding to a double is not modelled. */
  function ParseFloat(c: string): (r: Option<real>)
    ensures r.Some? ==> r.value >= 0.0
    ensures c == [] ==> r.None?
  {
    var whole := LeadingDigits(c);
    var rest := c[|whole|..];
    var frac := if rest != [] && rest[0] == '.' then LeadingDigits(rest[1..]) else [];
    if whole == [] && frac == [] then None
    else Some(DigitsValue(whole) as real + DigitsValue(frac) as real / Pow10(|frac|) as real)
  }

  /** A price written as a plain decimal number is read back as that number. */
  lemma ParseWholeNumber(n: nat)
    ensures ParseFloat(NatToString(n)) == Some(n as real)
  {
    var s := NatToString(n);
    AllDigitsLead(s);
    NatToStringRoundTrip(n);
    assert s[|s|..] == [];
  }

  /** NaN-absorbing addition. */
  function Plus(a: Option<real>, b: Option<real>): Option<real> {
    if a.Some? && b.Some? then Some(a.value + b.value) else None
  }

  /** A line's unit price: its price string cleaned and parsed (`None` is NaN). */
  function UnitPrice(item: CartItem): (r: Option<real>)
    ensures r.Some? ==> r.value >= 0.0
  {
    ParseFloat(CleanPrice(item.product.price))
  }

  /** One line's contribution: cleaned-and-parsed price times quantity (NaN stays NaN). */
  function LineAmount(item: CartItem): (r: Option<real>)
    ensures r.None? <==> UnitPrice(item).None?
    ensures r.Some? && item.quantity >= 0 ==> r.value >= 0.0
  {
    var price := UnitPrice(item);
    if price.None? then None
    else
      ScaleNonNegative(price.value, item.quantity);
      Some(price.value * item.quantity as real)
  }

  lemma ScaleNonNegative(x: real, n: int)
    requires x >= 0.0
    ensures n >= 0 ==> x * n as real >= 0.0
  {
  }

  /** The line amounts, in cart order. */
  function Amounts(items: seq<CartItem>): (r: seq<Option<real>>)
    ensures |r| == |items|
    ensures forall i :: 0 <= i < |items| ==> r[i] == LineAmount(items[i])
  {
    seq(|items|, i requires 0 <= i < |items| => LineAmount(items[i]))
  }

  /** `reduce((acc, x) => acc + x, 0)` over amounts. */
  function Sum(amounts: seq<Option<real>>): (r: Option<real>)
    ensures amounts == [] ==> r == Some(0.0)
  {
    if amounts == [] then Some(0.0) else Plus(Sum(amounts[..|amounts| - 1]), amounts[|amounts| - 1])
  }

  /** `subtotal`: the sum of the line amounts, starting from 0, so an empty cart gives 0. */
  function Subtotal(items: seq<CartItem>): Option<real> {
    Sum(Amounts(items))
  }

  /** The sum of two runs of amounts is the sum of their sums. */
  lemma {:induction false} SumAppend(a: seq<Option<real>>, b: seq<Option<real>>)
    ensures Sum(a + b) == Plus(Sum(a), Sum(b))
  {
    if b == [] {
      assert a + b == a;
    } else {
      var binit := b[..|b| - 1];
      assert (a + b)[..|a + b| - 1] == a + binit;
      SumAppend(a, binit);
    }
  }

  /** The subtotal of two runs of lines is the sum of their subtotals. */
  lemma SubtotalAppend(a: seq<CartItem>, b: seq<CartItem>)
    ensures Subtotal(a + b) == Plus(Subtotal(a), Subtotal(b))
  {
    var ab := a + b;
    forall i | 0 <= i < |ab|
      ensures Amounts(ab)[i] == (Amounts(a) + Amounts(b))[i]
    {
      if i < |a| { assert ab[i] == a[i]; } else { assert ab[i] == b[i - |a|]; }
    }
    assert Amounts(ab) == Amounts(a) + Amounts(b);
    SumAppend(Amounts(a), Amounts(b));
  }

  /** A sum is NaN exactly when one of its amounts is. */
  lemma {:induction false} SumNaN(amounts: seq<Option<real>>)
    ensures Sum(amounts).None? <==> exists i :: 0 <= i < |amounts| && amounts[i].None?
  {
    if amounts != [] {
      var init := amounts[..|amounts| - 1];
      SumNaN(init);
      if Sum(init).None? {
        var i :| 0 <= i < |init| && init[i].None?;
        assert amounts[i] == init[i];
      } else if amounts[|amounts| - 1].Some? {
        assert forall i :: 0 <= i < |init| ==> amounts[i] == init[i];
      }
    }
  }

  /** A sum of non-negative amounts, when a number, is not negative. */
  lemma {:induction false} SumNonNegative(amounts: seq<Option<real>>)
    requires forall i :: 0 <= i < |amounts| && amounts[i].Some? ==> amounts[i].value >= 0.0
    ensures Sum(amounts).Some? ==> Sum(amounts).value >= 0.0
  {
    if amounts != [] {
      SumNonNegative(amounts[..|amounts| - 1]);
    }
  }

  /** The subtotal is NaN exactly when some line's price cannot be read, and otherwise, over
      lines with non-negative quantities, it is not negative. */
  lemma SubtotalNaNOrNonNegative(items: seq<CartItem>)
    requires forall i :: 0 <= i < |items| ==> items[i].quantity >= 0
    ensures Subtotal(items).None? <==>
      exists i :: 0 <= i < |items| && ParseFloat(CleanPrice(items[i].product.price)).None?
    ensures Subtotal(items).Some? ==> Subtotal(items).value >= 0.0
  {
    SumNaN(Amounts(items));
    SumNonNegative(Amounts(items));
  }

  // ---------------------------------------------------------------------------
  // The per-line controls

  /** The `-` control as written: `updateQuantity(item.id, item.quantity - 1)`. */
  function DecrementAsWritten(item: CartItem): CartAction {
    Update(item.product.id, item.quantity - 1)
  }

  /** The `+` control as written: `updateQuantity(item.id, item.quantity + 1)`. */
  function IncrementAsWritten(item: CartItem): CartAction {
    Update(item.product.id, item.quantity + 1)
  }

  /** The remove control as written: `removeItem(item.id)`. */
  function RemoveAsWritten(item: CartItem): CartAction {
    Remove(item.product.id)
  }

  /** A line added with tester names does not carry the product id as its key. */
  lemma CustomisedKeyIsNotId(item: CartItem)
    requires item.cartItemKey == CartItemKey(item.product, item.testerSelections)
    requires item.testerSelections.Some? && |item.testerSelections.value| > 0
    ensures item.cartItemKey != item.product.id
  {
    assert |item.cartItemKey| > |item.product.id|;
  }

  /** As written, none of the three controls reaches a line added with tester names: the line is
      still in the cart, unchanged, after any of them. */
  lemma ControlsMissTesterLines(s: CartState, item: CartItem)
    requires WellFormed(s.items) && item in s.items
    requires item.testerSelections.Some? && |item.testerSelections.value| > 0
    ensures item in Apply(s, DecrementAsWritten(item)).items
    ensures item in Apply(s, IncrementAsWritten(item)).items
    ensures item in Apply(s, RemoveAsWritten(item)).items
  {
    var i :| 0 <= i < |s.items| && s.items[i] == item;
    assert item.quantity > 0 && item.cartItemKey == CartItemKey(item.product, item.testerSelections);
    CustomisedKeyIsNotId(item);
    OtherKeyControlsMiss(s, item.product.id, item);
  }

  /** Controls keyed by something other than a positive line's key leave that line in place. */
  lemma OtherKeyControlsMiss(s: CartState, id: string, item: CartItem)
    requires item in s.items && item.cartItemKey != id && item.quantity > 0
    ensures item in Apply(s, Update(id, item.quantity - 1)).items
    ensures item in Apply(s, Update(id, item.quantity + 1)).items
    ensures item in Apply(s, Remove(id)).items
  {
    UnmatchedLineSurvivesUpdate(s, id, item.quantity - 1, item);
    UnmatchedLineSurvivesUpdate(s, id, item.quantity + 1, item);
    UnmatchedLineSurvivesRemove(s, id, item);
  }

  lemma UnmatchedLineSurvivesRemove(s: CartState, key: string, item: CartItem)
    requires item in s.items && item.cartItemKey != key
    ensures item in Apply(s, Remove(key)).items
  {
    FilterKeepsAll(KeyIsNot(key), s.items, item);
    ApplyRemoveItems(s, key);
  }

  lemma UnmatchedLineSurvivesUpdate(s: CartState, key: string, q: int, item: CartItem)
    requires item in s.items && item.cartItemKey != key && item.quantity > 0
    ensures item in Apply(s, Update(key, q)).items
  {
    UnmatchedLineSurvives(s.items, key, q, item);
    ApplyUpdateItems(s, key, q);
  }

  lemma ApplyUpdateItems(s: CartState, key: string, q: int)
    ensures Apply(s, Update(key, q)).items == UpdatedItems(s.items, key, q)
  {
  }

  lemma ApplyRemoveItems(s: CartState, key: string)
    ensures Apply(s, Remove(key)).items == RemovedItems(s.items, key)
  {
  }

  /** A positive line whose key differs from the one updated is kept as it is. */
  lemma UnmatchedLineSurvives(items: seq<CartItem>, key: string, q: int, item: CartItem)
    requires item in items && item.cartItemKey != key && item.quantity > 0
    ensures item in UpdatedItems(items, key, q)
  {
    var i :| 0 <= i < |items| && items[i] == item;
    var mapped := WithQuantity(items, key, q);
    assert mapped[i] == item;
    FilterKeepsAll(InCart, mapped, item);
  }

  /** The controls as intended: keyed by the line's own `cartItemKey`. */
  function Decrement(item: CartItem): CartAction {
    Update(item.cartItemKey, item.quantity - 1)
  }

  function Increment(item: CartItem): CartAction {
    Update(item.cartItemKey, item.quantity + 1)
  }

  function RemoveLine(item: CartItem): CartAction {
    Remove(item.cartItemKey)
  }

  /** Keyed by `cartItemKey`, `+` adds one unit to the line, `-` takes one away (dropping the line
      at zero), remove drops it; no other key's quantity changes. */
  lemma ControlsReachEveryLine(s: CartState, item: CartItem, k: string)
    requires WellFormed(s.items) && item in s.items
    ensures QuantityOf(Apply(s, Increment(item)).items, item.cartItemKey) == item.quantity + 1
    ensures QuantityOf(Apply(s, Decrement(item)).items, item.cartItemKey) == item.quantity - 1
    ensures QuantityOf(Apply(s, RemoveLine(item)).items, item.cartItemKey) == 0
    ensures k != item.cartItemKey ==>
      && QuantityOf(Apply(s, Increment(item)).items, k) == QuantityOf(s.items, k)
      && QuantityOf(Apply(s, Decrement(item)).items, k) == QuantityOf(s.items, k)
      && QuantityOf(Apply(s, RemoveLine(item)).items, k) == QuantityOf(s.items, k)
  {
    var key := item.cartItemKey;
    var i :| 0 <= i < |s.items| && s.items[i] == item;
    assert HasKey(s.items, key) && item.quantity > 0;
    ControlReachesLine(s.items, key, item.quantity + 1, k);
    ControlReachesLine(s.items, key, item.quantity - 1, k);
    ApplyUpdateItems(s, key, item.quantity + 1);
    ApplyUpdateItems(s, key, item.quantity - 1);
    ApplyRemoveItems(s, key);
    RemovedQuantity(s.items, key, k);
    RemovedQuantity(s.items, key, key);
  }

  /** Updating a present key sets its quantity (to zero when not positive) and leaves every
      other key's quantity alone. */
  lemma ControlReachesLine(items: seq<CartItem>, key: string, q: int, k: string)
    requires WellFormed(items) && HasKey(items, key)
    ensures QuantityOf(UpdatedItems(items, key, q), key) == if q > 0 then q else 0
    ensures k != key ==> QuantityOf(UpdatedItems(items, key, q), k) == QuantityOf(items, k)
  {
    UpdateSetsKey(items, key, q);
    if k != key {
      UpdateKeepsOtherKeys(items, key, q, k);
    }
  }

  /** On a line without tester names the key is the product id, so the controls as written are
      exactly the corrected ones, and everything proved about the latter holds for them. */
  lemma AsWrittenReachesPlainLines(item: CartItem)
    requires item.cartItemKey == item.product.id
    ensures DecrementAsWritten(item) == Decrement(item)
    ensures IncrementAsWritten(item) == Increment(item)
    ensures RemoveAsWritten(item) == RemoveLine(item)
  {
  }

  /** On a line without tester names, `-` as written on the last unit removes the line. */
  lemma AsWrittenDecrementRemovesPlainLine(s: CartState, item: CartItem)
    requires item.cartItemKey == CartItemKey(item.product, item.testerSelections)
    requires item.testerSelections.None? || item.testerSelections == Some([])
    requires item.quantity == 1
    ensures !HasKey(Apply(s, DecrementAsWritten(item)).items, item.cartItemKey)
  {
    AsWrittenReachesPlainLines(item);
    DecrementLastUnitRemovesLine(s, item);
  }

  /** On a line without tester names, the controls as written add one unit, take one away or
      empty the line, and change no other key. */
  lemma AsWrittenControlsReachPlainLines(s: CartState, item: CartItem, k: string)
    requires WellFormed(s.items) && item in s.items
    requires item.testerSelections.None? || item.testerSelections == Some([])
    ensures QuantityOf(Apply(s, IncrementAsWritten(item)).items, item.cartItemKey) == item.quantity + 1
    ensures QuantityOf(Apply(s, DecrementAsWritten(item)).items, item.cartItemKey) == item.quantity - 1
    ensures QuantityOf(Apply(s, RemoveAsWritten(item)).items, item.cartItemKey) == 0
    ensures k != item.cartItemKey ==>
      && QuantityOf(Apply(s, IncrementAsWritten(item)).items, k) == QuantityOf(s.items, k)
      && QuantityOf(Apply(s, DecrementAsWritten(item)).items, k) == QuantityOf(s.items, k)
      && QuantityOf(Apply(s, RemoveAsWritten(item)).items, k) == QuantityOf(s.items, k)
  {
    var i :| 0 <= i < |s.items| && s.items[i] == item;
    assert item.cartItemKey == CartItemKey(item.product, item.testerSelections);
    AsWrittenReachesPlainLines(item);
    ControlsReachEveryLine(s, item, k);
  }

  /** Decrementing a one-unit line removes it from the cart through the store. */
  lemma DecrementLastUnitRemovesLine(s: CartState, item: CartItem)
    requires item.quantity == 1
    ensures !HasKey(Apply(s, Decrement(item)).items, item.cartItemKey)
  {
    UpdateNonPositiveRemoves(s.items, item.cartItemKey, 0);
  }

  /** The footer, with the subtotal and the checkout button, shows only once mounted and only for
      a non-empty cart. */
  predicate ShowsFooter(mounted: bool, items: seq<CartItem>) {
    mounted && |items| > 0
  }

  /** Once mounted, the footer appears after any add and disappears when the cart is cleared. */
  lemma FooterFollowsCart(s: CartState, p: Product, sel: Option<seq<string>>, mounted: bool)
    ensures mounted ==> ShowsFooter(mounted, Apply(s, Add(p, sel)).items)
    ensures !ShowsFooter(mounted, Apply(s, Clear).items)
    ensures !mounted ==> !ShowsFooter(mounted, s.items)
  {
    AddedKeys(s.items, p, sel, CartItemKey(p, sel));
  }

  /** The checkout button: close the drawer through the store, then go to the checkout page. */
  const CheckoutButtonActions: seq<CartAction> := [Toggle]
  const CheckoutButtonTarget: string := "/checkout"

  /** Pressed in the open drawer, the checkout button closes it and leaves the lines and the
      promotion as they were. */
  lemma CheckoutButtonClosesDrawer(s: CartState)
    requires s.isOpen
    ensures var t := ApplyAll(s, CheckoutButtonActions);
      !t.isOpen && t.items == s.items && t.promotion == s.promotion
  {
    ApplyAllSnoc(s, [], Toggle);
    assert [] + [Toggle] == CheckoutButtonActions;
  }
}
