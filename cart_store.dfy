/** The cart store (`src/lib/store/cartStore.ts`): an ordered list of cart lines, at most one
    gift-set promotion, and the drawer's open flag. Lines are de-duplicated by a composite key
    made of the product id and the tester names chosen for it.

    The pure part states each action's effect on a `CartState`; the class `Cart` is the store
    object whose methods perform the actions in place and are proved against those functions. */
module CartStore {
  import opened Common
  import opened Strings
  import opened Seqs
  import opened Catalog

  /** `GiftSetPromotionCode`. */
  datatype PromotionCode = Gift3Eco | Gift3Pro | ProHalfEco | ProHalfTesters

  /** The code as the storefront spells it. */
  function CodeName(code: PromotionCode): string {
    match code
    case Gift3Eco => "gift_3_eco"
    case Gift3Pro => "gift_3_pro"
    case ProHalfEco => "pro_half_eco"
    case ProHalfTesters => "pro_half_testers"
  }

  /** `CartPromotion`: the offer, the database ids chosen for it, and a label. */
  datatype CartPromotion = CartPromotion(code: PromotionCode, selections: seq<int>, labelText: string)

  /** A cart line: the product snapshot, its quantity, its key and the tester names it was added
      with (absent when `addItem` got none). */
  datatype CartItem = CartItem(
    product: Product,
    quantity: int,
    cartItemKey: string,
    testerSelections: Option<seq<string>>)

  /** The store's state. */
  datatype CartState = CartState(items: seq<CartItem>, isOpen: bool, promotion: Option<CartPromotion>)

  const EmptyCart: CartState := CartState([], false, None)

  /** The store's actions, as the rest of the storefront calls them. */
  datatype CartAction =
    | Add(product: Product, testerSelections: Option<seq<string>>)
    | Update(key: string, quantity: int)
    | Remove(key: string)
    | Clear
    | Toggle
    | Promote(promotion: CartPromotion)
    | Unpromote

  // ---------------------------------------------------------------------------
  // Keys

  /** The composite key: the product id alone when there are no tester names, otherwise the id,
      `::`, and the names joined with `|`. */
  function CartItemKey(product: Product, testerSelections: Option<seq<string>>): string {
    if testerSelections.Some? && |testerSelections.value| > 0
    then product.id + "::" + Join(testerSelections.value, '|')
    else product.id
  }

  predicate NoBar(names: seq<string>) {
    forall n :: n in names ==> '|' !in n
  }

  /** For one product, a customised line never shares the plain line's key, and two lists of
      tester names (none containing `|`) share a key exactly when they are the same list. */
  lemma CustomisedKeys(product: Product, s: seq<string>, t: seq<string>)
    requires |s| > 0 && |t| > 0 && NoBar(s) && NoBar(t)
    ensures CartItemKey(product, Some(s)) != CartItemKey(product, None)
    ensures CartItemKey(product, Some(s)) == CartItemKey(product, Some(t)) <==> s == t
  {
    var ks, kt := CartItemKey(product, Some(s)), CartItemKey(product, Some(t));
    if ks == kt {
      var n := |product.id| + 2;
      assert ks[n..] == Join(s, '|');
      assert kt[n..] == Join(t, '|');
      JoinInjective(s, t, '|');
    }
  }

  predicate HasKey(items: seq<CartItem>, key: string) {
    exists i :: 0 <= i < |items| && items[i].cartItemKey == key
  }

  /** No two lines share a key. */
  predicate UniqueKeys(items: seq<CartItem>) {
    forall i, j :: 0 <= i < j < |items| ==> items[i].cartItemKey != items[j].cartItemKey
  }

  /** The store's invariant: unique keys, positive quantities, and each key derived from its line. */
  predicate WellFormed(items: seq<CartItem>) {
    && UniqueKeys(items)
    && forall i :: 0 <= i < |items| ==>
         items[i].quantity > 0 && items[i].cartItemKey == CartItemKey(items[i].product, items[i].testerSelections)
  }

  // ---------------------------------------------------------------------------
  // The actions on the line list

  /** The line `addItem` appends for a key not yet in the cart. */
  function NewLine(product: Product, testerSelections: Option<seq<string>>): CartItem {
    CartItem(product, 1, CartItemKey(product, testerSelections), testerSelections)
  }

  /** `items.map(...)` of `addItem`: lines with the key get one more unit. */
  function Incremented(items: seq<CartItem>, key: string): (r: seq<CartItem>) {
    seq(|items|, i requires 0 <= i < |items| =>
      if items[i].cartItemKey == key then items[i].(quantity := items[i].quantity + 1) else items[i])
  }

  /** `addItem`: increment the line with the same key, or append a new line. */
  function AddedItems(items: seq<CartItem>, product: Product, testerSelections: Option<seq<string>>): seq<CartItem> {
    var key := CartItemKey(product, testerSelections);
    if HasKey(items, key) then Incremented(items, key) else items + [NewLine(product, testerSelections)]
  }

  /** `items.map(...)` of `updateQuantity`. */
  function WithQuantity(items: seq<CartItem>, key: string, quantity: int): (r: seq<CartItem>) {
    seq(|items|, i requires 0 <= i < |items| =>
      if items[i].cartItemKey == key then items[i].(quantity := quantity) else items[i])
  }

  predicate InCart(item: CartItem) {
    item.quantity > 0
  }

  /** `updateQuantity`: set the quantity of the lines with the key, then drop every line whose
      quantity is not positive. */
  function UpdatedItems(items: seq<CartItem>, key: string, quantity: int): seq<CartItem> {
    Filter(InCart, WithQuantity(items, key, quantity))
  }

  function KeyIsNot(key: string): CartItem -> bool {
    (item: CartItem) => item.cartItemKey != key
  }

  /** `removeItem`: drop the lines with the key. */
  function RemovedItems(items: seq<CartItem>, key: string): seq<CartItem> {
    Filter(KeyIsNot(key), items)
  }

  /** One store action. */
  function Apply(s: CartState, a: CartAction): CartState {
    match a
    case Add(p, sel) => s.(items := AddedItems(s.items, p, sel), isOpen := true)
    case Update(key, q) => s.(items := UpdatedItems(s.items, key, q))
    case Remove(key) => s.(items := RemovedItems(s.items, key))
    case Clear => s.(items := [], promotion := None)
    case Toggle => s.(isOpen := !s.isOpen)
    case Promote(pr) => s.(promotion := Some(pr), isOpen := true)
    case Unpromote => s.(promotion := None)
  }

  /** A sequence of store actions, first to last. */
  function ApplyAll(s: CartState, actions: seq<CartAction>): CartState {
    if actions == [] then s else Apply(ApplyAll(s, actions[..|actions| - 1]), actions[|actions| - 1])
  }

  lemma {:induction false} ApplyAllAppend(s: CartState, a: seq<CartAction>, b: seq<CartAction>)
    ensures ApplyAll(s, a + b) == ApplyAll(ApplyAll(s, a), b)
  {
    if b == [] {
      assert a + b == a;
    } else {
      var binit := b[..|b| - 1];
      assert (a + b)[..|a + b| - 1] == a + binit;
      ApplyAllAppend(s, a, binit);
    }
  }

  lemma ApplyAllSnoc(s: CartState, actions: seq<CartAction>, a: CartAction)
    ensures ApplyAll(s, actions + [a]) == Apply(ApplyAll(s, actions), a)
  {
    assert (actions + [a])[..|actions|] == actions;
  }

  // ---------------------------------------------------------------------------
  // Quantities

  /** The number of lines with the key. */
  function LinesWithKey(items: seq<CartItem>, key: string): nat {
    if items == [] then 0
    else LinesWithKey(items[..|items| - 1], key) + (if items[|items| - 1].cartItemKey == key then 1 else 0)
  }

  /** The units held under the key. */
  function QuantityOf(items: seq<CartItem>, key: string): int {
    if items == [] then 0
    else
      var last := items[|items| - 1];
      QuantityOf(items[..|items| - 1], key) + (if last.cartItemKey == key then last.quantity else 0)
  }

  /** The header's cart count: the sum of all quantities. */
  function TotalQuantity(items: seq<CartItem>): int {
    if items == [] then 0 else TotalQuantity(items[..|items| - 1]) + items[|items| - 1].quantity
  }

  /** With unique keys, a key present in the cart names exactly one line. */
  lemma {:induction false} OneLinePerKey(items: seq<CartItem>, key: string)
    requires UniqueKeys(items)
    ensures LinesWithKey(items, key) == if HasKey(items, key) then 1 else 0
  {
    if items != [] {
      var init := items[..|items| - 1];
      OneLinePerKey(init, key);
      if items[|items| - 1].cartItemKey == key {
        assert !HasKey(init, key);
      } else {
        assert HasKey(items, key) ==> HasKey(init, key);
      }
    }
  }

  /** Incrementing adds one unit per matching line to that key and nothing to any other key. */
  lemma {:induction false} IncrementedQuantity(items: seq<CartItem>, key: string, k: string)
    ensures QuantityOf(Incremented(items, key), k)
         == QuantityOf(items, k) + (if k == key then LinesWithKey(items, key) else 0)
    ensures TotalQuantity(Incremented(items, key)) == TotalQuantity(items) + LinesWithKey(items, key)
  {
    if items != [] {
      var init := items[..|items| - 1];
      IncrementedQuantity(init, key, k);
      assert Incremented(items, key)[..|items| - 1] == Incremented(init, key);
    }
  }

  /** `addItem` adds exactly one unit under the product's key, and leaves every other key's
      quantity alone; so the header's count grows by one. */
  lemma AddItemAddsOneUnit(items: seq<CartItem>, product: Product, sel: Option<seq<string>>, k: string)
    requires WellFormed(items)
    ensures var key := CartItemKey(product, sel);
      QuantityOf(AddedItems(items, product, sel), k) == QuantityOf(items, k) + (if k == key then 1 else 0)
    ensures TotalQuantity(AddedItems(items, product, sel)) == TotalQuantity(items) + 1
  {
    var key := CartItemKey(product, sel);
    if HasKey(items, key) {
      OneLinePerKey(items, key);
      IncrementedQuantity(items, key, k);
    } else {
      var r := items + [NewLine(product, sel)];
      assert r[..|items|] == items;
    }
  }

  /** After `addItem` the cart has a line under the product's key, and every key it had before. */
  lemma AddedKeys(items: seq<CartItem>, product: Product, sel: Option<seq<string>>, k: string)
    ensures HasKey(AddedItems(items, product, sel), CartItemKey(product, sel))
    ensures HasKey(items, k) ==> HasKey(AddedItems(items, product, sel), k)
  {
    var key := CartItemKey(product, sel);
    var r := AddedItems(items, product, sel);
    if HasKey(items, key) {
      var i :| 0 <= i < |items| && items[i].cartItemKey == key;
      assert r[i].cartItemKey == key;
      if HasKey(items, k) {
        var j :| 0 <= j < |items| && items[j].cartItemKey == k;
        assert r[j].cartItemKey == k;
      }
    } else {
      assert r[|items|].cartItemKey == key;
      if HasKey(items, k) {
        var j :| 0 <= j < |items| && items[j].cartItemKey == k;
        assert r[j].cartItemKey == k;
      }
    }
  }

  /** Setting a key to zero or less removes every line with that key. */
  lemma UpdateNonPositiveRemoves(items: seq<CartItem>, key: string, q: int)
    requires q <= 0
    ensures !HasKey(UpdatedItems(items, key, q), key)
  {
    var mapped := WithQuantity(items, key, q);
    var r := UpdatedItems(items, key, q);
    forall i | 0 <= i < |r|
      ensures r[i].cartItemKey != key
    {
      assert r[i] in mapped;
    }
  }

  /** Dropping lines removes their units and nothing else. */
  lemma {:induction false} RemovedQuantity(items: seq<CartItem>, key: string, k: string)
    ensures QuantityOf(RemovedItems(items, key), k) == if k == key then 0 else QuantityOf(items, k)
  {
    if items != [] {
      var init := items[..|items| - 1];
      RemovedQuantity(init, key, k);
      var kept := RemovedItems(init, key);
      var last := items[|items| - 1];
      if last.cartItemKey != key {
        assert RemovedItems(items, key) == kept + [last];
        assert (kept + [last])[..|kept|] == kept;
      } else {
        assert RemovedItems(items, key) == kept;
      }
    }
  }

  /** `updateQuantity` splits at the last line: the survivors of the earlier lines, then the
      last line with its new quantity if that is positive. */
  lemma UpdatedSnoc(items: seq<CartItem>, key: string, q: int)
    requires items != []
    ensures var last := items[|items| - 1];
      var changed := if last.cartItemKey == key then last.(quantity := q) else last;
      UpdatedItems(items, key, q)
      == UpdatedItems(items[..|items| - 1], key, q) + (if InCart(changed) then [changed] else [])
  {
    assert WithQuantity(items, key, q)[..|items| - 1] == WithQuantity(items[..|items| - 1], key, q);
  }

  /** `updateQuantity(key, q)` leaves the quantity of every other key alone. */
  lemma {:induction false} UpdateKeepsOtherKeys(items: seq<CartItem>, key: string, q: int, k: string)
    requires forall i :: 0 <= i < |items| ==> items[i].quantity > 0
    requires k != key
    ensures QuantityOf(UpdatedItems(items, key, q), k) == QuantityOf(items, k)
  {
    if items != [] {
      var init := items[..|items| - 1];
      var last := items[|items| - 1];
      UpdateKeepsOtherKeys(init, key, q, k);
      UpdatedSnoc(items, key, q);
      var changed := if last.cartItemKey == key then last.(quantity := q) else last;
      QuantityOfSnoc(UpdatedItems(init, key, q), if InCart(changed) then [changed] else [], k);
    }
  }

  /** In a cart with unique keys, `updateQuantity(key, q)` leaves `q` units under the key when
      `q` is positive and the key is present, and none otherwise. */
  lemma {:induction false} UpdateSetsKey(items: seq<CartItem>, key: string, q: int)
    requires UniqueKeys(items)
    ensures QuantityOf(UpdatedItems(items, key, q), key) == if q > 0 && HasKey(items, key) then q else 0
  {
    if items != [] {
      var init := items[..|items| - 1];
      var last := items[|items| - 1];
      UniqueKeysInit(items);
      HasKeySnoc(items, key);
      UpdateSetsKey(init, key, q);
      UpdatedSnoc(items, key, q);
      var changed := if last.cartItemKey == key then last.(quantity := q) else last;
      var tail := if InCart(changed) then [changed] else [];
      QuantityOfSnoc(UpdatedItems(init, key, q), tail, key);
    }
  }

  /** A key is in a cart when it is on its last line or in the lines before. */
  lemma HasKeySnoc(items: seq<CartItem>, key: string)
    requires items != []
    ensures HasKey(items, key) <==> HasKey(items[..|items| - 1], key) || items[|items| - 1].cartItemKey == key
  {
    var init := items[..|items| - 1];
    if HasKey(items, key) {
      var i :| 0 <= i < |items| && items[i].cartItemKey == key;
      if i < |init| { assert init[i] == items[i]; }
    }
    if HasKey(init, key) {
      var i :| 0 <= i < |init| && init[i].cartItemKey == key;
      assert items[i] == init[i];
    }
  }

  /** The lines before the last of a cart with unique keys have unique keys, none of them the
      last line's. */
  lemma UniqueKeysInit(items: seq<CartItem>)
    requires items != [] && UniqueKeys(items)
    ensures UniqueKeys(items[..|items| - 1])
    ensures !HasKey(items[..|items| - 1], items[|items| - 1].cartItemKey)
  {
    var init := items[..|items| - 1];
    assert forall i :: 0 <= i < |init| ==> init[i] == items[i];
  }

  /** Quantities add up over an appended line (or none). */
  lemma QuantityOfSnoc(xs: seq<CartItem>, tail: seq<CartItem>, k: string)
    requires |tail| <= 1
    ensures QuantityOf(xs + tail, k)
         == QuantityOf(xs, k) + (if tail != [] && tail[0].cartItemKey == k then tail[0].quantity else 0)
  {
    if tail != [] {
      assert (xs + tail)[..|xs|] == xs;
    } else {
      assert xs + tail == xs;
    }
  }

  // ---------------------------------------------------------------------------
  // The invariant

  lemma {:induction false} FilterKeepsWellFormed(f: CartItem -> bool, items: seq<CartItem>)
    requires WellFormed(items)
    ensures WellFormed(Filter(f, items))
  {
    if items != [] {
      var init := items[..|items| - 1];
      var last := items[|items| - 1];
      assert forall i :: 0 <= i < |init| ==> init[i] == items[i];
      FilterKeepsWellFormed(f, init);
      if f(last) {
        UniqueKeysInit(items);
        FilterMissesKey(f, init, last.cartItemKey);
        SnocKeepsWellFormed(Filter(f, init), last);
      }
    }
  }

  /** A key absent from a cart is absent from any selection of its lines. */
  lemma FilterMissesKey(f: CartItem -> bool, items: seq<CartItem>, key: string)
    requires !HasKey(items, key)
    ensures !HasKey(Filter(f, items), key)
  {
    var r := Filter(f, items);
    forall i | 0 <= i < |r|
      ensures r[i].cartItemKey != key
    {
      assert r[i] in items;
    }
  }

  /** Appending a positive, correctly keyed line under a new key keeps a cart well-formed. */
  lemma SnocKeepsWellFormed(items: seq<CartItem>, line: CartItem)
    requires WellFormed(items) && !HasKey(items, line.cartItemKey)
    requires line.quantity > 0 && line.cartItemKey == CartItemKey(line.product, line.testerSelections)
    ensures WellFormed(items + [line])
  {
    var r := items + [line];
    assert forall i :: 0 <= i < |items| ==> r[i] == items[i];
  }

  /** Every store action keeps the invariant. */
  lemma ApplyKeepsWellFormed(s: CartState, a: CartAction)
    requires WellFormed(s.items)
    ensures WellFormed(Apply(s, a).items)
  {
    match a
    case Update(key, q) =>
      var mapped := WithQuantity(s.items, key, q);
      assert UniqueKeys(mapped);
      FilterKeepsWellFormedUpdate(mapped);
    case Remove(key) =>
      FilterKeepsWellFormed(KeyIsNot(key), s.items);
    case _ =>
  }

  /** Dropping non-positive lines restores positivity even when some quantities were reset. */
  lemma {:induction false} FilterKeepsWellFormedUpdate(items: seq<CartItem>)
    requires UniqueKeys(items)
    requires forall i :: 0 <= i < |items| ==> items[i].cartItemKey == CartItemKey(items[i].product, items[i].testerSelections)
    ensures WellFormed(Filter(InCart, items))
  {
    if items != [] {
      var init := items[..|items| - 1];
      var last := items[|items| - 1];
      assert forall i :: 0 <= i < |init| ==> init[i] == items[i];
      UniqueKeysInit(items);
      FilterKeepsWellFormedUpdate(init);
      if InCart(last) {
        FilterMissesKey(InCart, init, last.cartItemKey);
        SnocKeepsWellFormed(Filter(InCart, init), last);
      }
    }
  }

  /** Starting from the empty cart, no sequence of store actions ever produces two lines with the
      same key or a line with a non-positive quantity. */
  lemma {:induction false} ReachableWellFormed(actions: seq<CartAction>)
    ensures WellFormed(ApplyAll(EmptyCart, actions).items)
  {
    if actions != [] {
      ReachableWellFormed(actions[..|actions| - 1]);
      ApplyKeepsWellFormed(ApplyAll(EmptyCart, actions[..|actions| - 1]), actions[|actions| - 1]);
    }
  }

  /** `updateQuantity` and `removeItem` keep the surviving lines in their order. */
  lemma SurvivorsKeepOrder(items: seq<CartItem>, key: string, q: int)
    ensures IsSubsequence(RemovedItems(items, key), items)
    ensures IsSubsequence(UpdatedItems(items, key, q), WithQuantity(items, key, q))
    ensures forall item :: item in RemovedItems(items, key) <==> item in items && item.cartItemKey != key
  {
    FilterIsSubsequence(KeyIsNot(key), items);
    FilterIsSubsequence(InCart, WithQuantity(items, key, q));
    forall item | item in items && item.cartItemKey != key
      ensures item in RemovedItems(items, key)
    {
      FilterKeepsAll(KeyIsNot(key), items, item);
    }
  }

  // ---------------------------------------------------------------------------
  // The store object

  class Cart {
    var items: seq<CartItem>
    var isOpen: bool
    var promotion: Option<CartPromotion>

    function State(): CartState
      reads this
    {
      CartState(items, isOpen, promotion)
    }

    /** The store as created: no lines, closed, no promotion. */
    constructor ()
      ensures State() == EmptyCart
    {
      items := [];
      isOpen := false;
      promotion := None;
    }

    /** `addItem(product, testerSelections)`. */
    method AddItem(product: Product, testerSelections: Option<seq<string>>)
      modifies this
      ensures State() == Apply(old(State()), Add(product, testerSelections))
      ensures HasKey(old(items), CartItemKey(product, testerSelections)) ==>
        items == Incremented(old(items), CartItemKey(product, testerSelections))
      ensures !HasKey(old(items), CartItemKey(product, testerSelections)) ==>
        items == old(items) + [NewLine(product, testerSelections)]
      ensures isOpen && promotion == old(promotion)
      ensures old(WellFormed(items)) ==> WellFormed(items)
    {
      ghost var s0 := State();
      var key := CartItemKey(product, testerSelections);
      var cur := items;
      var i := 0;
      while i < |cur| && cur[i].cartItemKey != key
        invariant 0 <= i <= |cur|
        invariant forall j :: 0 <= j < i ==> cur[j].cartItemKey != key
      {
        i := i + 1;
      }
      if i < |cur| {
        var next: seq<CartItem> := [];
        var j := 0;
        while j < |cur|
          invariant 0 <= j <= |cur| && |next| == j
          invariant forall k :: 0 <= k < j ==> next[k] == Incremented(cur, key)[k]
        {
          var item := cur[j];
          next := next + [if item.cartItemKey == key then item.(quantity := item.quantity + 1) else item];
          j := j + 1;
        }
        items := next;
      } else {
        items := cur + [NewLine(product, testerSelections)];
      }
      isOpen := true;
      if WellFormed(s0.items) {
        ApplyKeepsWellFormed(s0, Add(product, testerSelections));
      }
    }

    /** `updateQuantity(cartItemKey, quantity)`. */
    method UpdateQuantity(key: string, quantity: int)
      modifies this
      ensures State() == Apply(old(State()), Update(key, quantity))
      ensures items == UpdatedItems(old(items), key, quantity)
      ensures isOpen == old(isOpen) && promotion == old(promotion)
      ensures old(WellFormed(items)) ==> WellFormed(items)
    {
      ghost var s0 := State();
      var cur := items;
      var mapped: seq<CartItem> := [];
      var j := 0;
      while j < |cur|
        invariant 0 <= j <= |cur| && |mapped| == j
        invariant forall k :: 0 <= k < j ==> mapped[k] == WithQuantity(cur, key, quantity)[k]
      {
        var item := cur[j];
        mapped := mapped + [if item.cartItemKey == key then item.(quantity := quantity) else item];
        j := j + 1;
      }
      assert mapped == WithQuantity(cur, key, quantity);
      var kept: seq<CartItem> := [];
      j := 0;
      while j < |mapped|
        invariant 0 <= j <= |mapped|
        invariant kept == Filter(InCart, mapped[..j])
      {
        assert mapped[..j + 1][..j] == mapped[..j];
        if mapped[j].quantity > 0 {
          kept := kept + [mapped[j]];
        }
        j := j + 1;
      }
      assert mapped[..j] == mapped;
      items := kept;
      if WellFormed(s0.items) {
        ApplyKeepsWellFormed(s0, Update(key, quantity));
      }
    }

    /** `removeItem(cartItemKey)`. */
    method RemoveItem(key: string)
      modifies this
      ensures State() == Apply(old(State()), Remove(key))
      ensures items == RemovedItems(old(items), key)
      ensures isOpen == old(isOpen) && promotion == old(promotion)
      ensures old(WellFormed(items)) ==> WellFormed(items)
    {
      ghost var s0 := State();
      var cur := items;
      var kept: seq<CartItem> := [];
      var j := 0;
      while j < |cur|
        invariant 0 <= j <= |cur|
        invariant kept == Filter(KeyIsNot(key), cur[..j])
      {
        assert cur[..j + 1][..j] == cur[..j];
        if cur[j].cartItemKey != key {
          kept := kept + [cur[j]];
        }
        j := j + 1;
      }
      assert cur[..j] == cur;
      items := kept;
      if WellFormed(s0.items) {
        ApplyKeepsWellFormed(s0, Remove(key));
      }
    }

    /** `clearCart`: no lines and no promotion, in one step; the drawer flag stays. */
    method ClearCart()
      modifies this
      ensures State() == Apply(old(State()), Clear)
      ensures items == [] && promotion == None && isOpen == old(isOpen)
    {
      items := [];
      promotion := None;
    }

    /** `toggleCart`: only the drawer flag flips. */
    method ToggleCart()
      modifies this
      ensures State() == Apply(old(State()), Toggle)
      ensures isOpen == !old(isOpen) && items == old(items) && promotion == old(promotion)
    {
      isOpen := !isOpen;
    }

    /** `setPromotion`: replaces the promotion and opens the drawer; lines are untouched. */
    method SetPromotion(p: CartPromotion)
      modifies this
      ensures State() == Apply(old(State()), Promote(p))
      ensures promotion == Some(p) && isOpen && items == old(items)
    {
      promotion := Some(p);
      isOpen := true;
    }

    /** `clearPromotion`: only the promotion goes. */
    method ClearPromotion()
      modifies this
      ensures State() == Apply(old(State()), Unpromote)
      ensures promotion == None && items == old(items) && isOpen == old(isOpen)
    {
      promotion := None;
    }

    /** Performs a planned sequence of store actions in order, as the gift-set and tester pages do. */
    method Perform(actions: seq<CartAction>)
      modifies this
      ensures State() == ApplyAll(old(State()), actions)
    {
      ghost var s0 := State();
      var i := 0;
      while i < |actions|
        invariant 0 <= i <= |actions|
        invariant State() == ApplyAll(s0, actions[..i])
      {
        assert actions[..i + 1][..i] == actions[..i];
        match actions[i] {
          case Add(p, sel) => AddItem(p, sel);
          case Update(key, q) => UpdateQuantity(key, q);
          case Remove(key) => RemoveItem(key);
          case Clear => ClearCart();
          case Toggle => ToggleCart();
          case Promote(pr) => SetPromotion(pr);
          case Unpromote => ClearPromotion();
        }
        i := i + 1;
      }
      assert actions[..i] == actions;
    }
  }
}
