/** The "testers of your choice" picker (`src/components/testers/TestersChoiceClient.tsx`):
    a name search over the testers list, a selection of at most five distinct ids, and a submit
    that validates the selection and puts the testers pack (and, for the PRO offer, the PRO
    product and its promotion) into the cart before navigating away. */
module TestersChoice {
  import opened Common
  import opened Seqs
  import opened Strings
  import opened Catalog
  import opened CartStore
  import opened GiftSets

  /** `TESTERS_COUNT`: a pack holds exactly five testers. */
  const TestersCount: nat := 5

  const InvalidSelectionMsg: string := "Some selections are invalid. Please try again."
  const MissingProMsg: string := "Missing PRO product selection. Please go back and select a PRO first."
  const ProHalfTestersOffer: string := "pro_half_testers"
  const CheckoutPath: string := "/checkout"

  // ---------------------------------------------------------------------------
  // Search

  /** The search test on a product: its lower-cased name contains the (already normalised) query. */
  function NameMatches(q: string): Product -> bool {
    (p: Product) => Contains(ToLower(p.name), q)
  }

  /** `filteredProducts`: everything for a blank query, otherwise the products whose lower-cased
      name contains the lower-cased trimmed query. */
  function FilteredProducts(products: seq<Product>, query: string): (r: seq<Product>)
    ensures |r| <= |products|
  {
    var q := ToLower(Trim(query));
    if q == [] then products else Filter(NameMatches(q), products)
  }

  /** The search keeps the list's order and keeps exactly the matching products; a blank query
      keeps them all. */
  lemma FilteredProductsMembers(products: seq<Product>, query: string, p: Product)
    ensures IsSubsequence(FilteredProducts(products, query), products)
    ensures p in FilteredProducts(products, query) <==>
      p in products && (Trim(query) == [] || Contains(ToLower(p.name), ToLower(Trim(query))))
  {
    var q := ToLower(Trim(query));
    assert q == [] <==> Trim(query) == [];
    if q == [] {
      IsSubsequenceRefl(products);
    } else {
      FilterIsSubsequence(NameMatches(q), products);
      if p in products && Contains(ToLower(p.name), q) {
        FilterKeepsAll(NameMatches(q), products, p);
      }
    }
  }

  lemma {:induction false} IsSubsequenceRefl<T>(s: seq<T>)
    ensures IsSubsequence(s, s)
  {
    if s != [] {
      IsSubsequenceRefl(s[..|s| - 1]);
    }
  }

  // ---------------------------------------------------------------------------
  // Toggling a tester

  function IsNot(id: int): int -> bool {
    (x: int) => x != id
  }

  /** `toggle(id)` on the selection: a selected id is removed; an unselected one is appended
      while fewer than five are selected, and ignored otherwise. */
  function Toggled(selected: seq<int>, id: int): seq<int> {
    if id in selected then Filter(IsNot(id), selected)
    else if |selected| >= TestersCount then selected
    else selected + [id]
  }

  /** The selection never repeats an id and never exceeds five. */
  lemma ToggleKeepsSelectionValid(selected: seq<int>, id: int)
    requires Distinct(selected) && |selected| <= TestersCount
    ensures Distinct(Toggled(selected, id)) && |Toggled(selected, id)| <= TestersCount
  {
    if id in selected {
      FilterKeepsDistinct(IsNot(id), selected);
    }
  }

  /** What a toggle does to membership: the toggled id flips (unless the selection is full) and
      every other id stays as it was. */
  lemma ToggleMembership(selected: seq<int>, id: int, x: int)
    ensures id in selected ==> id !in Toggled(selected, id)
    ensures id !in selected && |selected| < TestersCount ==> id in Toggled(selected, id)
    ensures id !in selected && |selected| >= TestersCount ==> Toggled(selected, id) == selected
    ensures x != id ==> (x in Toggled(selected, id) <==> x in selected)
  {
    if id in selected && x != id && x in selected {
      FilterKeepsAll(IsNot(id), selected, x);
    }
  }

  /** Toggling a newly added id again undoes the first toggle. */
  lemma ToggleTwiceRestores(selected: seq<int>, id: int)
    requires id !in selected && |selected| < TestersCount
    ensures Toggled(Toggled(selected, id), id) == selected
  {
    assert id in selected + [id];
    FilterAppend(IsNot(id), selected, [id]);
    FilterAllPass(IsNot(id), selected);
    assert Filter(IsNot(id), [id]) == Filter(IsNot(id), []) + [];
  }

  // ---------------------------------------------------------------------------
  // Submitting

  /** What the picker was opened with: the testers list, the pack, the PRO chosen earlier
      (`proId` is `null` or a positive number), the offer code and where to return. */
  datatype Context = Context(
    products: seq<Product>,
    testersPack: Option<Product>,
    proProduct: Option<Product>,
    offer: string,
    proId: Option<int>,
    returnTo: string)

  /** `!proId`: absent or zero. */
  predicate ProIdMissing(proId: Option<int>) {
    proId.None? || proId.value == 0
  }

  /** A successful submit: the cart actions, in order, and the path navigated to. */
  datatype Submission = Submission(actions: seq<CartAction>, target: string)

  /** `submit()`: the first failed check's message, or the cart actions and the navigation. */
  function SubmitPlan(c: Context, selected: seq<int>): Result<Submission> {
    if |selected| != TestersCount then Err(TesterCountMsg)
    else if c.testersPack.None? then Err(NoPackMsg)
    else
      var names := NamesOf(c.products, selected);
      if |names| != TestersCount then Err(InvalidSelectionMsg)
      else if c.offer == ProHalfTestersOffer then
        if ProIdMissing(c.proId) || c.proProduct.None? then Err(MissingProMsg)
        else Ok(Submission(TesterActions(TesterCommit(c.proProduct.value, c.testersPack.value, names)), CheckoutPath))
      else Ok(Submission([Add(c.testersPack.value, Some(names))], c.returnTo))
  }

  /** The checks run in source order: the count, then the pack, then the names, then (for the
      PRO offer) the PRO; the first failure decides the message. */
  lemma SubmitChecksInOrder(c: Context, selected: seq<int>)
    ensures |selected| != TestersCount ==> SubmitPlan(c, selected) == Err(TesterCountMsg)
    ensures |selected| == TestersCount && c.testersPack.None? ==> SubmitPlan(c, selected) == Err(NoPackMsg)
    ensures |selected| == TestersCount && c.testersPack.Some?
      && (exists i :: 0 <= i < |selected| && (FindById(c.products, selected[i]).None? || FindById(c.products, selected[i]).value.name == ""))
      ==> SubmitPlan(c, selected) == Err(InvalidSelectionMsg)
  {
    NamesFull(c.products, selected);
  }

  /** A submit succeeds exactly when five ids are selected, the pack exists, every id names a
      listed tester, and (for the PRO offer) a PRO was chosen and found. */
  lemma SubmitSucceedsIff(c: Context, selected: seq<int>)
    ensures SubmitPlan(c, selected).Ok? <==>
      && |selected| == TestersCount
      && c.testersPack.Some?
      && (forall i :: 0 <= i < |selected| ==>
            FindById(c.products, selected[i]).Some? && FindById(c.products, selected[i]).value.name != "")
      && (c.offer == ProHalfTestersOffer ==> !ProIdMissing(c.proId) && c.proProduct.Some?)
  {
    NamesFull(c.products, selected);
  }

  /** On success the pack is added with the testers' names in selection order. With the PRO
      offer the PRO comes first, then the pack, then the promotion over `[pro, pack]`, and the
      shopper goes to checkout; otherwise only the pack is added, no promotion is set, and the
      shopper returns to `returnTo`. */
  lemma SubmitEffect(c: Context, selected: seq<int>)
    requires SubmitPlan(c, selected).Ok?
    ensures var sub := SubmitPlan(c, selected).value;
      var names := NamesOf(c.products, selected);
      && |names| == |selected|
      && (forall i :: 0 <= i < |selected| ==>
            FindById(c.products, selected[i]).Some? && names[i] == FindById(c.products, selected[i]).value.name)
      && (c.offer == ProHalfTestersOffer ==>
            && sub.target == CheckoutPath
            && sub.actions == [ Add(c.proProduct.value, None),
                                Add(c.testersPack.value, Some(names)),
                                Promote(CartPromotion(ProHalfTesters,
                                  [c.proProduct.value.databaseId, c.testersPack.value.databaseId],
                                  OfferLabel(ProHalfTesters))) ])
      && (c.offer != ProHalfTestersOffer ==>
            && sub.target == c.returnTo
            && sub.actions == [Add(c.testersPack.value, Some(names))])
  {
    NamesFull(c.products, selected);
  }

  /** Outside the PRO offer a submit leaves the cart's promotion alone and adds one unit of the
      customised pack line. */
  lemma PlainSubmitCartEffect(c: Context, selected: seq<int>, s: CartState)
    requires SubmitPlan(c, selected).Ok? && c.offer != ProHalfTestersOffer
    requires WellFormed(s.items)
    ensures var s1 := ApplyAll(s, SubmitPlan(c, selected).value.actions);
      var key := CartItemKey(c.testersPack.value, Some(NamesOf(c.products, selected)));
      && s1.promotion == s.promotion
      && s1.isOpen
      && QuantityOf(s1.items, key) == QuantityOf(s.items, key) + 1
      && TotalQuantity(s1.items) == TotalQuantity(s.items) + 1
  {
    var pack, names := c.testersPack.value, NamesOf(c.products, selected);
    var key := CartItemKey(pack, Some(names));
    assert SubmitPlan(c, selected).value.actions == [Add(pack, Some(names))];
    ApplyAllSnoc(s, [], Add(pack, Some(names)));
    assert [] + [Add(pack, Some(names))] == [Add(pack, Some(names))];
    AddItemAddsOneUnit(s.items, pack, Some(names), key);
  }

  // ---------------------------------------------------------------------------
  // The picker component

  class Picker {
    const context: Context
    const cart: Cart
    var selectedIds: seq<int>
    var error: Option<string>
    /** The path `router.push` was last called with. */
    var navigatedTo: Option<string>

    constructor (context: Context, cart: Cart)
      ensures this.context == context && this.cart == cart
      ensures selectedIds == [] && error == None && navigatedTo == None
    {
      this.context := context;
      this.cart := cart;
      selectedIds := [];
      error := None;
      navigatedTo := None;
    }

    /** `toggle(id)`: clears the error and toggles the id; the selection stays duplicate-free
        and within five. */
    method Toggle(id: int)
      modifies this
      ensures selectedIds == Toggled(old(selectedIds), id) && error == None
      ensures navigatedTo == old(navigatedTo)
      ensures Distinct(old(selectedIds)) && |old(selectedIds)| <= TestersCount ==>
        Distinct(selectedIds) && |selectedIds| <= TestersCount
    {
      if Distinct(selectedIds) && |selectedIds| <= TestersCount {
        ToggleKeepsSelectionValid(selectedIds, id);
      }
      error := None;
      if id in selectedIds {
        var kept: seq<int> := [];
        var i := 0;
        while i < |selectedIds|
          invariant 0 <= i <= |selectedIds|
          invariant kept == Filter(IsNot(id), selectedIds[..i])
        {
          assert selectedIds[..i + 1][..i] == selectedIds[..i];
          if selectedIds[i] != id {
            kept := kept + [selectedIds[i]];
          }
          i := i + 1;
        }
        assert selectedIds[..i] == selectedIds;
        selectedIds := kept;
        return;
      }
      if |selectedIds| >= TestersCount {
        return;
      }
      selectedIds := selectedIds + [id];
    }

    /** The tester names of the selection: `byId.get(id)?.name`, dropping misses and empty names. */
    method SelectedNames() returns (names: seq<string>)
      ensures names == NamesOf(context.products, selectedIds)
    {
      names := [];
      var i := 0;
      while i < |selectedIds|
        invariant 0 <= i <= |selectedIds|
        invariant names == NamesOf(context.products, selectedIds[..i])
      {
        assert selectedIds[..i + 1][..i] == selectedIds[..i];
        var p := FindById(context.products, selectedIds[i]);
        if p.Some? && p.value.name != "" {
          names := names + [p.value.name];
        }
        i := i + 1;
      }
      assert selectedIds[..i] == selectedIds;
    }

    /** `submit()`: either an error message with no cart change and no navigation, or the
        planned cart actions followed by navigation; the selection itself is kept. */
    method Submit()
      modifies this, cart
      ensures selectedIds == old(selectedIds)
      ensures match SubmitPlan(context, selectedIds)
        case Err(m) => error == Some(m) && cart.State() == old(cart.State()) && navigatedTo == old(navigatedTo)
        case Ok(sub) =>
          (error == None && cart.State() == ApplyAll(old(cart.State()), sub.actions)
           && navigatedTo == Some(sub.target))
    {
      error := None;
      if |selectedIds| != TestersCount {
        error := Some(TesterCountMsg);
        return;
      }
      if context.testersPack.None? {
        error := Some(NoPackMsg);
        return;
      }
      var pack := context.testersPack.value;
      var names := SelectedNames();
      if |names| != TestersCount {
        error := Some(InvalidSelectionMsg);
        return;
      }
      ghost var s0 := cart.State();
      if context.offer == ProHalfTestersOffer {
        if ProIdMissing(context.proId) || context.proProduct.None? {
          error := Some(MissingProMsg);
          return;
        }
        PerformTesterCommit(cart, TesterCommit(context.proProduct.value, pack, names));
        navigatedTo := Some(CheckoutPath);
        return;
      }
      cart.AddItem(pack, Some(names));
      ApplyAllSnoc(s0, [], Add(pack, Some(names)));
      assert [] + [Add(pack, Some(names))] == [Add(pack, Some(names))];
      navigatedTo := Some(context.returnTo);
    }
  }
}
