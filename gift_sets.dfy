/** The gift-set configurator (`src/components/gift-sets/GiftSetsClient.tsx`): the shopper picks
    an offer, fills its steps one at a time from the ECO, PRO or tester pool, and commits the
    configured set to the cart. */
module GiftSets {
  import opened Common
  import opened Seqs
  import opened Strings
  import opened Catalog
  import opened CartStore

  // ---------------------------------------------------------------------------
  // Offers and steps

  /** The pool a step draws from, read off its key's prefix. */
  datatype Pool = EcoPool | ProPool | TesterPool

  /** `StepKey`: `eco1`..`eco3`, `pro1`..`pro3`, `tester1`..`tester5`. */
  datatype StepKey = StepKey(pool: Pool, n: nat)

  const Eco1: StepKey := StepKey(EcoPool, 1)
  const Eco2: StepKey := StepKey(EcoPool, 2)
  const Eco3: StepKey := StepKey(EcoPool, 3)
  const Pro1: StepKey := StepKey(ProPool, 1)
  const Pro2: StepKey := StepKey(ProPool, 2)
  const Pro3: StepKey := StepKey(ProPool, 3)
  const Tester1: StepKey := StepKey(TesterPool, 1)
  const Tester2: StepKey := StepKey(TesterPool, 2)
  const Tester3: StepKey := StepKey(TesterPool, 3)
  const Tester4: StepKey := StepKey(TesterPool, 4)
  const Tester5: StepKey := StepKey(TesterPool, 5)

  /** `getOfferLabel`, shared with the tester picker. */
  function OfferLabel(code: PromotionCode): string {
    match code
    case Gift3Eco => "Gift Set: 3 ECO for Rs 4500"
    case Gift3Pro => "Gift Set: 3 PRO for Rs 6500"
    case ProHalfEco => "Offer: Buy PRO + 50% off ECO"
    case ProHalfTesters => "Offer: Buy PRO + 50% off Testers Pack"
  }

  /** The four offers carry four different labels. */
  lemma OfferLabelsDistinct(a: PromotionCode, b: PromotionCode)
    ensures OfferLabel(a) == OfferLabel(b) <==> a == b
  {
    assert OfferLabel(Gift3Eco)[12] == 'E' && OfferLabel(Gift3Pro)[12] == 'P';
    assert OfferLabel(ProHalfEco)[25] == 'E' && OfferLabel(ProHalfTesters)[25] == 'T';
    assert OfferLabel(Gift3Eco)[0] == 'G' && OfferLabel(ProHalfEco)[0] == 'O';
    assert OfferLabel(Gift3Pro)[0] == 'G' && OfferLabel(ProHalfTesters)[0] == 'O';
  }

  /** `getStepKeysForOffer`: three ECO steps, three PRO steps, PRO then ECO, or one PRO step
      followed by five tester steps. */
  function StepKeysForOffer(code: PromotionCode): (r: seq<StepKey>)
    ensures Distinct(r)
    ensures code == ProHalfTesters ==>
      |r| == 6 && r[0].pool == ProPool && forall i :: 1 <= i < 6 ==> r[i].pool == TesterPool
    ensures code != ProHalfTesters ==> 2 <= |r| <= 3
  {
    match code
    case Gift3Eco => [Eco1, Eco2, Eco3]
    case Gift3Pro => [Pro1, Pro2, Pro3]
    case ProHalfEco => [Pro1, Eco1]
    case ProHalfTesters => [Pro1, Tester1, Tester2, Tester3, Tester4, Tester5]
  }

  /** `getStepLabel`. */
  function StepLabel(k: StepKey): string {
    match k.pool
    case EcoPool => "Select ECO perfume " + NatToString(k.n)
    case ProPool => "Select PRO perfume " + NatToString(k.n)
    case TesterPool => "Select tester " + NatToString(k.n) + " of 5"
  }

  function PoolMark(pool: Pool): char {
    match pool
    case EcoPool => 'E'
    case ProPool => 'P'
    case TesterPool => 't'
  }

  /** The step number written in a label of the given pool. */
  function LabelNumber(text: string, pool: Pool): string {
    if pool == TesterPool then
      if 14 <= |text| - 5 then text[14..|text| - 5] else ""
    else if 19 <= |text| then text[19..] else ""
  }

  lemma LabelParts(k: StepKey)
    ensures |StepLabel(k)| > 7 && StepLabel(k)[7] == PoolMark(k.pool)
    ensures LabelNumber(StepLabel(k), k.pool) == NatToString(k.n)
  {
    var l := StepLabel(k);
    var digits := NatToString(k.n);
    if k.pool == TesterPool {
      assert l == "Select tester " + digits + " of 5";
      assert l[14..|l| - 5] == digits;
    } else {
      assert l[19..] == digits;
    }
  }

  /** Different steps carry different labels. */
  lemma StepLabelsDistinct(k1: StepKey, k2: StepKey)
    ensures StepLabel(k1) == StepLabel(k2) <==> k1 == k2
  {
    LabelParts(k1);
    LabelParts(k2);
    NatToStringRoundTrip(k1.n);
    NatToStringRoundTrip(k2.n);
  }

  // ---------------------------------------------------------------------------
  // Options and lookups

  /** What the page hands the configurator. */
  datatype Offering = Offering(
    eco: seq<Product>,
    pro: seq<Product>,
    testersPack: Option<Product>,
    testers: seq<Product>,
    giftSet3Eco: Option<Product>,
    giftSet3Pro: Option<Product>)

  function PoolProducts(o: Offering, pool: Pool): seq<Product> {
    match pool
    case EcoPool => o.eco
    case ProPool => o.pro
    case TesterPool => o.testers
  }

  /** An entry of a step's select. */
  datatype Choice = Choice(id: int, name: string)

  predicate HasPositiveId(p: Product) {
    p.databaseId > 0
  }

  function ChoiceOf(p: Product): Choice {
    Choice(p.databaseId, p.name)
  }

  /** `asOptions`: the products with a positive database id, as choices, in order. */
  function AsOptions(products: seq<Product>): (r: seq<Choice>)
    ensures |r| <= |products|
    ensures forall i :: 0 <= i < |r| ==> r[i].id > 0
  {
    var kept := Filter(HasPositiveId, products);
    assert forall i :: 0 <= i < |kept| ==> kept[i] in kept;
    Choices(kept)
  }

  /** `map(p => ({ id: p.databaseId, name: p.name }))`. */
  function Choices(products: seq<Product>): (r: seq<Choice>)
    ensures |r| == |products| && forall i :: 0 <= i < |r| ==> r[i] == ChoiceOf(products[i])
  {
    seq(|products|, i requires 0 <= i < |products| => ChoiceOf(products[i]))
  }

  lemma ChoicesAppend(a: seq<Product>, b: seq<Product>)
    ensures Choices(a + b) == Choices(a) + Choices(b)
  {
    assert forall i :: 0 <= i < |a + b| ==> Choices(a + b)[i] == (Choices(a) + Choices(b))[i];
  }

  /** The options keep the products' order: options of a concatenation are concatenated. */
  lemma AsOptionsAppend(a: seq<Product>, b: seq<Product>)
    ensures AsOptions(a + b) == AsOptions(a) + AsOptions(b)
  {
    FilterAppend(HasPositiveId, a, b);
    ChoicesAppend(Filter(HasPositiveId, a), Filter(HasPositiveId, b));
  }

  /** A choice is offered exactly when it comes from a product with a positive id. */
  lemma AsOptionsMembers(products: seq<Product>, c: Choice)
    ensures c in AsOptions(products) <==> exists p :: p in products && p.databaseId > 0 && ChoiceOf(p) == c
  {
    var kept := Filter(HasPositiveId, products);
    if exists p :: p in products && p.databaseId > 0 && ChoiceOf(p) == c {
      var p :| p in products && p.databaseId > 0 && ChoiceOf(p) == c;
      FilterKeepsAll(HasPositiveId, products, p);
      var i :| 0 <= i < |kept| && kept[i] == p;
      assert AsOptions(products)[i] == c;
    }
  }

  /** `new Map(products.map(p => [p.databaseId, p])).get(id)`: the last product with the id. */
  function FindById(products: seq<Product>, id: int): (r: Option<Product>)
    ensures r.Some? ==> r.value in products && r.value.databaseId == id
    ensures r.None? <==> forall i :: 0 <= i < |products| ==> products[i].databaseId != id
  {
    if products == [] then None
    else if products[|products| - 1].databaseId == id then Some(products[|products| - 1])
    else FindById(products[..|products| - 1], id)
  }

  /** Later entries win: the product found has no later namesake. */
  lemma {:induction false} FindByIdIsLast(products: seq<Product>, id: int)
    requires FindById(products, id).Some?
    ensures exists j :: (0 <= j < |products| && products[j] == FindById(products, id).value
      && forall k :: j < k < |products| ==> products[k].databaseId != id)
  {
    var n := |products|;
    var found := FindById(products, id).value;
    if products[n - 1].databaseId != id {
      var init := products[..n - 1];
      assert FindById(products, id) == FindById(init, id);
      FindByIdIsLast(init, id);
      var j :| 0 <= j < |init| && init[j] == found
        && forall k :: j < k < |init| ==> init[k].databaseId != id;
      assert products[j] == found;
      assert forall k :: j < k < n ==> products[k].databaseId != id by {
        forall k | j < k < n
          ensures products[k].databaseId != id
        {
          if k < n - 1 { assert products[k] == init[k]; }
        }
      }
    } else {
      assert products[n - 1] == found;
    }
  }

  function Lookup(products: seq<Product>): int -> Option<Product> {
    (id: int) => FindById(products, id)
  }

  function NameLookup(products: seq<Product>): int -> Option<string> {
    (id: int) => var p := FindById(products, id); if p.Some? && p.value.name != "" then Some(p.value.name) else None
  }

  /** `ids.forEach(id => { const p = byId.get(id); if (p) productsToAdd.push(p); })`. */
  function Resolve(products: seq<Product>, ids: seq<int>): seq<Product> {
    FilterMap(Lookup(products), ids)
  }

  /** `ids.map(id => byId.get(id)?.name).filter(Boolean)`: missing products and empty names drop out. */
  function NamesOf(products: seq<Product>, ids: seq<int>): seq<string> {
    FilterMap(NameLookup(products), ids)
  }

  /** Every id resolves exactly when nothing is dropped, and then the products are in id order. */
  lemma ResolveFull(products: seq<Product>, ids: seq<int>)
    ensures |Resolve(products, ids)| == |ids| <==> forall i :: 0 <= i < |ids| ==> FindById(products, ids[i]).Some?
    ensures |Resolve(products, ids)| == |ids| ==>
      forall i :: 0 <= i < |ids| ==> Resolve(products, ids)[i] == FindById(products, ids[i]).value
  {
    FilterMapFull(Lookup(products), ids);
  }

  /** Every id yields a name exactly when each resolves to a product with a non-empty name, and
      then the names are in id order. */
  lemma NamesFull(products: seq<Product>, ids: seq<int>)
    ensures |NamesOf(products, ids)| == |ids| <==>
      forall i :: 0 <= i < |ids| ==> FindById(products, ids[i]).Some? && FindById(products, ids[i]).value.name != ""
    ensures |NamesOf(products, ids)| == |ids| ==>
      forall i :: 0 <= i < |ids| ==> NamesOf(products, ids)[i] == FindById(products, ids[i]).value.name
  {
    FilterMapFull(NameLookup(products), ids);
  }

  // ---------------------------------------------------------------------------
  // Selections

  /** `selections[k]`, with an unset step read as 0 (both are falsy). */
  function Get(sel: map<StepKey, int>, k: StepKey): int {
    if k in sel then sel[k] else 0
  }

  /** `usedIds`: the truthy selected values. */
  function UsedIds(sel: map<StepKey, int>): (r: set<int>)
    ensures forall id :: id in r <==> id != 0 && exists k :: k in sel && sel[k] == id
  {
    set k | k in sel && sel[k] != 0 :: sel[k]
  }

  function Offered(sel: map<StepKey, int>, step: StepKey): Choice -> bool {
    (c: Choice) => c.id == Get(sel, step) || c.id !in UsedIds(sel)
  }

  /** `getOptionsForStep`: the step's pool, minus the ids other steps already use. */
  function OptionsForStep(o: Offering, sel: map<StepKey, int>, step: StepKey): seq<Choice> {
    Filter(Offered(sel, step), AsOptions(PoolProducts(o, step.pool)))
  }

  /** No id is selected in two steps. */
  predicate DistinctSelections(sel: map<StepKey, int>) {
    forall k1, k2 :: k1 in sel && k2 in sel && k1 != k2 && sel[k1] != 0 ==> sel[k1] != sel[k2]
  }

  predicate IsOffered(o: Offering, sel: map<StepKey, int>, step: StepKey, id: int) {
    exists c :: c in OptionsForStep(o, sel, step) && c.id == id
  }

  /** A step's options are its pool's options that are its own current value or unused. */
  lemma OptionsForStepMembers(o: Offering, sel: map<StepKey, int>, step: StepKey, c: Choice)
    ensures c in OptionsForStep(o, sel, step) <==>
      c in AsOptions(PoolProducts(o, step.pool)) && (c.id == Get(sel, step) || c.id !in UsedIds(sel))
  {
    if c in AsOptions(PoolProducts(o, step.pool)) && Offered(sel, step)(c) {
      FilterKeepsAll(Offered(sel, step), AsOptions(PoolProducts(o, step.pool)), c);
    }
  }

  /** Picking an offered id for a step never makes two steps share an id. */
  lemma OfferedKeepsDistinct(o: Offering, sel: map<StepKey, int>, step: StepKey, id: int)
    requires DistinctSelections(sel) && IsOffered(o, sel, step, id)
    ensures DistinctSelections(sel[step := id])
  {
    var c :| c in OptionsForStep(o, sel, step) && c.id == id;
    assert id == Get(sel, step) || id !in UsedIds(sel);
  }

  /** `isComplete`: an offer is active and every one of its steps has a truthy selection. */
  predicate IsComplete(offer: Option<PromotionCode>, sel: map<StepKey, int>) {
    offer.Some? && forall k :: k in StepKeysForOffer(offer.value) ==> Get(sel, k) != 0
  }

  predicate NonZero(id: int) {
    id != 0
  }

  /** `stepKeys.map(k => selections[k]).filter(Boolean)`. */
  function SelectedIds(keys: seq<StepKey>, sel: map<StepKey, int>): seq<int> {
    Filter(NonZero, seq(|keys|, i requires 0 <= i < |keys| => Get(sel, keys[i])))
  }

  /** Once complete, the selected ids are all the steps' values, in step order. */
  lemma CompleteIds(offer: PromotionCode, sel: map<StepKey, int>)
    requires IsComplete(Some(offer), sel)
    ensures var keys := StepKeysForOffer(offer);
      SelectedIds(keys, sel) == seq(|keys|, i requires 0 <= i < |keys| => Get(sel, keys[i]))
  {
    var keys := StepKeysForOffer(offer);
    var values := seq(|keys|, i requires 0 <= i < |keys| => Get(sel, keys[i]));
    assert forall i :: 0 <= i < |values| ==> NonZero(values[i]);
    FilterAllPass(NonZero, values);
  }

  // ---------------------------------------------------------------------------
  // Committing a configured set

  const IncompleteMsg: string := "Please complete your selection before adding this gift set."
  const NoPackMsg: string := "Testers pack product not found in backend."
  const NoProMsg: string := "Please select a PRO perfume."
  const ProUnavailableMsg: string := "Selected PRO product is not available."
  const TesterCountMsg: string := "Please select exactly 5 testers."
  const TesterInvalidMsg: string := "Some tester selections are invalid."
  const UnavailableMsg: string := "Some selected products are unavailable. Please re-select."

  const TesterKeys: seq<StepKey> := [Tester1, Tester2, Tester3, Tester4, Tester5]

  /** The five tester steps' values, in step order. */
  function TesterIds(sel: map<StepKey, int>): (r: seq<int>)
    ensures |r| == 5 && forall i :: 0 <= i < 5 ==> r[i] == Get(sel, TesterKeys[i])
  {
    seq(5, i requires 0 <= i < 5 => Get(sel, TesterKeys[i]))
  }

  /** The PRO product, the testers pack and the five tester names a `pro_half_testers` commit adds. */
  datatype TesterCommit = TesterCommit(pro: Product, pack: Product, names: seq<string>)

  /** The checks of the `pro_half_testers` branch, in order. */
  function TestersOutcome(o: Offering, sel: map<StepKey, int>): Result<TesterCommit> {
    if o.testersPack.None? then Err(NoPackMsg)
    else if Get(sel, Pro1) == 0 then Err(NoProMsg)
    else if FindById(o.pro, Get(sel, Pro1)).None? then Err(ProUnavailableMsg)
    else
      var testerIds := Filter(NonZero, TesterIds(sel));
      if |testerIds| != 5 then Err(TesterCountMsg)
      else
        var names := NamesOf(o.testers, testerIds);
        if |names| != 5 then Err(TesterInvalidMsg)
        else Ok(TesterCommit(FindById(o.pro, Get(sel, Pro1)).value, o.testersPack.value, names))
  }

  /** The bundle product of a three-item offer, if the backend has one. */
  function BundleOf(o: Offering, offer: PromotionCode): Option<Product> {
    match offer
    case Gift3Eco => o.giftSet3Eco
    case Gift3Pro => o.giftSet3Pro
    case _ => None
  }

  /** `id ? byId.get(id) : null`, as zero or one product. */
  function Found(products: seq<Product>, id: int): seq<Product> {
    if id != 0 then Resolve(products, [id]) else []
  }

  /** One more id resolves to one more product, or to nothing when it is not found. */
  lemma ResolveSnoc(products: seq<Product>, ids: seq<int>, i: int)
    requires 0 <= i < |ids|
    ensures var p := FindById(products, ids[i]);
      Resolve(products, ids[..i + 1]) == Resolve(products, ids[..i]) + (if p.Some? then [p.value] else [])
  {
    assert ids[..i + 1][..i] == ids[..i];
  }

  /** `productsToAdd` of the individual-items path. */
  function Individuals(o: Offering, offer: PromotionCode, sel: map<StepKey, int>): seq<Product> {
    var ids := SelectedIds(StepKeysForOffer(offer), sel);
    match offer
    case Gift3Eco => Resolve(o.eco, ids)
    case Gift3Pro => Resolve(o.pro, ids)
    case ProHalfEco => Found(o.pro, Get(sel, Pro1)) + Found(o.eco, Get(sel, Eco1))
    case ProHalfTesters => []
  }

  function DatabaseIds(products: seq<Product>): (r: seq<int>)
    ensures |r| == |products| && forall i :: 0 <= i < |r| ==> r[i] == products[i].databaseId
  {
    seq(|products|, i requires 0 <= i < |products| => products[i].databaseId)
  }

  /** `addItem(p)` for each product, in order. */
  function AddsOf(products: seq<Product>): (r: seq<CartAction>)
    ensures |r| == |products| && forall i :: 0 <= i < |r| ==> r[i] == Add(products[i], None)
  {
    seq(|products|, i requires 0 <= i < |products| => Add(products[i], None))
  }

  function PromotionFor(offer: PromotionCode, products: seq<Product>): CartPromotion {
    CartPromotion(offer, DatabaseIds(products), OfferLabel(offer))
  }

  function TesterActions(t: TesterCommit): seq<CartAction> {
    [ Add(t.pro, None),
      Add(t.pack, Some(t.names)),
      Promote(CartPromotion(ProHalfTesters, [t.pro.databaseId, t.pack.databaseId], OfferLabel(ProHalfTesters))) ]
  }

  /** The store calls of a `pro_half_testers` commit: the PRO, then the pack with the tester
      names, then the promotion. */
  method PerformTesterCommit(cart: Cart, t: TesterCommit)
    modifies cart
    ensures cart.State() == ApplyAll(old(cart.State()), TesterActions(t))
  {
    ghost var s0 := cart.State();
    ghost var acts := TesterActions(t);
    cart.AddItem(t.pro, None);
    ApplyAllSnoc(s0, [], acts[0]);
    assert [] + [acts[0]] == [acts[0]];
    cart.AddItem(t.pack, Some(t.names));
    ApplyAllSnoc(s0, [acts[0]], acts[1]);
    assert [acts[0]] + [acts[1]] == [acts[0], acts[1]];
    cart.SetPromotion(CartPromotion(ProHalfTesters, [t.pro.databaseId, t.pack.databaseId], OfferLabel(ProHalfTesters)));
    ApplyAllSnoc(s0, [acts[0], acts[1]], acts[2]);
    assert [acts[0], acts[1]] + [acts[2]] == acts;
  }

  /** `addConfiguredSetToCart` for an active offer: an error message and no cart change, or the
      cart actions it performs, in order. */
  function CommitPlan(o: Offering, offer: PromotionCode, sel: map<StepKey, int>): Result<seq<CartAction>> {
    if !IsComplete(Some(offer), sel) then Err(IncompleteMsg)
    else if offer == ProHalfTesters then
      match TestersOutcome(o, sel)
      case Err(m) => Err(m)
      case Ok(t) => Ok(TesterActions(t))
    else if BundleOf(o, offer).Some? then
      var pool := if offer == Gift3Eco then o.eco else o.pro;
      Ok([Add(BundleOf(o, offer).value, Some(NamesOf(pool, SelectedIds(StepKeysForOffer(offer), sel))))])
    else
      var products := Individuals(o, offer, sel);
      if |products| != |StepKeysForOffer(offer)| then Err(UnavailableMsg)
      else Ok(AddsOf(products) + [Promote(PromotionFor(offer, products))])
  }

  /** An incomplete set is never committed. */
  lemma IncompleteCommitsNothing(o: Offering, offer: PromotionCode, sel: map<StepKey, int>)
    requires !IsComplete(Some(offer), sel)
    ensures CommitPlan(o, offer, sel) == Err(IncompleteMsg)
  {
  }

  /** In a complete `pro_half_testers` set all five tester values are set. */
  lemma CompleteTesterIds(sel: map<StepKey, int>)
    requires IsComplete(Some(ProHalfTesters), sel)
    ensures Filter(NonZero, TesterIds(sel)) == TesterIds(sel)
  {
    var keys := StepKeysForOffer(ProHalfTesters);
    var ids := TesterIds(sel);
    assert forall i :: 0 <= i < 5 ==> TesterKeys[i] == keys[i + 1] && keys[i + 1] in keys;
    assert forall i :: 0 <= i < |ids| ==> NonZero(ids[i]);
    FilterAllPass(NonZero, ids);
  }

  /** A complete `pro_half_testers` set commits exactly when the testers pack exists, the PRO id
      resolves, and each of the five tester ids resolves to a named product. */
  lemma ProHalfTestersCommits(o: Offering, sel: map<StepKey, int>)
    requires IsComplete(Some(ProHalfTesters), sel)
    ensures CommitPlan(o, ProHalfTesters, sel).Ok? <==>
      && o.testersPack.Some?
      && FindById(o.pro, Get(sel, Pro1)).Some?
      && forall i :: 0 <= i < 5 ==>
           FindById(o.testers, TesterIds(sel)[i]).Some? && FindById(o.testers, TesterIds(sel)[i]).value.name != ""
  {
    CompleteTesterIds(sel);
    NamesFull(o.testers, TesterIds(sel));
  }

  /** A committed `pro_half_testers` set adds the PRO, then the pack carrying the five tester names
      in step order, then sets the promotion for the two. */
  lemma ProHalfTestersActions(o: Offering, sel: map<StepKey, int>)
    requires IsComplete(Some(ProHalfTesters), sel)
    requires CommitPlan(o, ProHalfTesters, sel).Ok?
    ensures var pro := FindById(o.pro, Get(sel, Pro1)).value;
      var pack := o.testersPack.value;
      var names := CommitPlan(o, ProHalfTesters, sel).value[1].testerSelections.value;
      && |names| == 5
      && (forall i :: 0 <= i < 5 ==>
            FindById(o.testers, TesterIds(sel)[i]).Some? && names[i] == FindById(o.testers, TesterIds(sel)[i]).value.name)
      && CommitPlan(o, ProHalfTesters, sel).value == [
           Add(pro, None),
           Add(pack, Some(names)),
           Promote(CartPromotion(ProHalfTesters, [pro.databaseId, pack.databaseId], OfferLabel(ProHalfTesters)))]
  {
    CompleteTesterIds(sel);
    NamesFull(o.testers, TesterIds(sel));
  }

  /** A complete three-item set with a bundle product adds that bundle once, with the names of
      the picked products, and sets no promotion. When every step's pick is a product with a
      name, the names are those products' names in step order. */
  lemma BundleCommit(o: Offering, offer: PromotionCode, sel: map<StepKey, int>)
    requires offer == Gift3Eco || offer == Gift3Pro
    requires IsComplete(Some(offer), sel) && BundleOf(o, offer).Some?
    ensures var plan := CommitPlan(o, offer, sel);
      var pool := if offer == Gift3Eco then o.eco else o.pro;
      var keys := StepKeysForOffer(offer);
      && plan.Ok? && |plan.value| == 1
      && plan.value[0].Add? && plan.value[0].product == BundleOf(o, offer).value
      && plan.value[0].testerSelections == Some(NamesOf(pool, SelectedIds(keys, sel)))
      && |plan.value[0].testerSelections.value| <= 3
      && ((forall i :: 0 <= i < |keys| ==>
             FindById(pool, Get(sel, keys[i])).Some? && FindById(pool, Get(sel, keys[i])).value.name != "") ==>
          |plan.value[0].testerSelections.value| == |keys|
          && forall i :: 0 <= i < |keys| ==>
               plan.value[0].testerSelections.value[i] == FindById(pool, Get(sel, keys[i])).value.name)
  {
    var pool := if offer == Gift3Eco then o.eco else o.pro;
    var keys := StepKeysForOffer(offer);
    CompleteIds(offer, sel);
    NamesFull(pool, SelectedIds(keys, sel));
  }

  /** What each step's id resolves to in its own pool. */
  function StepLookups(o: Offering, keys: seq<StepKey>, sel: map<StepKey, int>): (r: seq<Option<Product>>)
    ensures |r| == |keys|
    ensures forall i :: 0 <= i < |keys| ==> r[i] == FindById(PoolProducts(o, keys[i].pool), Get(sel, keys[i]))
  {
    seq(|keys|, i requires 0 <= i < |keys| => FindById(PoolProducts(o, keys[i].pool), Get(sel, keys[i])))
  }

  /** On the individual-items path a complete set commits exactly when every step's id resolves
      in its pool; it then adds one product per step, in step order, and sets the offer's promotion
      with those products' ids in the same order. */
  lemma IndividualCommit(o: Offering, offer: PromotionCode, sel: map<StepKey, int>)
    requires offer != ProHalfTesters && BundleOf(o, offer).None? && IsComplete(Some(offer), sel)
    ensures var lookups := StepLookups(o, StepKeysForOffer(offer), sel);
      CommitPlan(o, offer, sel).Ok? <==> forall i :: 0 <= i < |lookups| ==> lookups[i].Some?
    ensures var lookups := StepLookups(o, StepKeysForOffer(offer), sel);
      var products := Individuals(o, offer, sel);
      CommitPlan(o, offer, sel).Ok? ==>
        && |products| == |lookups|
        && (forall i :: 0 <= i < |products| ==> lookups[i] == Some(products[i]))
        && CommitPlan(o, offer, sel).value == AddsOf(products) + [Promote(PromotionFor(offer, products))]
  {
    if offer == ProHalfEco {
      ProHalfEcoLookups(o, sel);
    } else {
      ThreeItemLookups(o, offer, sel);
    }
  }

  lemma ProHalfEcoLookups(o: Offering, sel: map<StepKey, int>)
    requires IsComplete(Some(ProHalfEco), sel)
    ensures var lookups := StepLookups(o, StepKeysForOffer(ProHalfEco), sel);
      var products := Individuals(o, ProHalfEco, sel);
      && (|products| == |lookups| <==> forall i :: 0 <= i < |lookups| ==> lookups[i].Some?)
      && (|products| == |lookups| ==> forall i :: 0 <= i < |products| ==> lookups[i] == Some(products[i]))
  {
    var p1, e1 := Get(sel, Pro1), Get(sel, Eco1);
    assert StepKeysForOffer(ProHalfEco) == [Pro1, Eco1];
    assert p1 != 0 && e1 != 0;
    var lookups := StepLookups(o, StepKeysForOffer(ProHalfEco), sel);
    assert lookups == [FindById(o.pro, p1), FindById(o.eco, e1)];
    var fp, fe := Found(o.pro, p1), Found(o.eco, e1);
    FoundOne(o.pro, p1);
    FoundOne(o.eco, e1);
    var products := Individuals(o, ProHalfEco, sel);
    assert products == fp + fe;
    if FindById(o.pro, p1).Some? && FindById(o.eco, e1).Some? {
      assert products == [FindById(o.pro, p1).value, FindById(o.eco, e1).value];
      assert lookups == [Some(products[0]), Some(products[1])];
    } else if FindById(o.pro, p1).None? {
      assert |products| < 2;
      assert lookups[0].None?;
    } else {
      assert |products| < 2;
      assert lookups[1].None?;
    }
  }

  /** A non-zero id yields its product, or nothing when no product has it. */
  lemma FoundOne(products: seq<Product>, id: int)
    requires id != 0
    ensures FindById(products, id).None? ==> Found(products, id) == []
    ensures FindById(products, id).Some? ==> Found(products, id) == [FindById(products, id).value]
  {
    assert [id][..0] == [];
  }

  lemma ThreeItemLookups(o: Offering, offer: PromotionCode, sel: map<StepKey, int>)
    requires offer == Gift3Eco || offer == Gift3Pro
    requires IsComplete(Some(offer), sel)
    ensures var lookups := StepLookups(o, StepKeysForOffer(offer), sel);
      var products := Individuals(o, offer, sel);
      && (|products| == |lookups| <==> forall i :: 0 <= i < |lookups| ==> lookups[i].Some?)
      && (|products| == |lookups| ==> forall i :: 0 <= i < |products| ==> lookups[i] == Some(products[i]))
  {
    var keys := StepKeysForOffer(offer);
    var values := seq(|keys|, i requires 0 <= i < |keys| => Get(sel, keys[i]));
    CompleteIds(offer, sel);
    var pool := if offer == Gift3Eco then o.eco else o.pro;
    assert forall i :: 0 <= i < |keys| ==> PoolProducts(o, keys[i].pool) == pool;
    assert Individuals(o, offer, sel) == Resolve(pool, values);
    var lookups := StepLookups(o, keys, sel);
    assert forall i :: 0 <= i < |keys| ==> lookups[i] == FindById(pool, values[i]);
    LookupsAgreeWithResolve(pool, values, lookups);
  }

  /** Lookups taken one id at a time all succeed exactly when resolving the ids drops nothing,
      and then they hold the resolved products in order. */
  lemma LookupsAgreeWithResolve(pool: seq<Product>, ids: seq<int>, lookups: seq<Option<Product>>)
    requires |lookups| == |ids|
    requires forall i :: 0 <= i < |ids| ==> lookups[i] == FindById(pool, ids[i])
    ensures var products := Resolve(pool, ids);
      && (|products| == |lookups| <==> forall i :: 0 <= i < |lookups| ==> lookups[i].Some?)
      && (|products| == |lookups| ==> forall i :: 0 <= i < |products| ==> lookups[i] == Some(products[i]))
  {
    ResolveFull(pool, ids);
  }

  lemma AddsOfSnoc(products: seq<Product>)
    requires products != []
    ensures AddsOf(products)[..|products| - 1] == AddsOf(products[..|products| - 1])
    ensures AddsOf(products)[|products| - 1] == Add(products[|products| - 1], None)
  {
  }

  /** Adding products one by one to a well-formed cart keeps it well formed, adds one unit per
      product and leaves the promotion alone. */
  lemma {:induction false} AddsQuantity(s: CartState, products: seq<Product>)
    requires WellFormed(s.items)
    ensures var t := ApplyAll(s, AddsOf(products));
      && WellFormed(t.items)
      && TotalQuantity(t.items) == TotalQuantity(s.items) + |products|
      && t.promotion == s.promotion
  {
    if products != [] {
      var n := |products|;
      var init := products[..n - 1];
      AddsQuantity(s, init);
      AddsOfSnoc(products);
      var mid := ApplyAll(s, AddsOf(init));
      ApplyKeepsWellFormed(mid, Add(products[n - 1], None));
      AddItemAddsOneUnit(mid.items, products[n - 1], None, "");
    }
  }

  /** After adding products one by one, the cart has a line under each product's key. */
  lemma {:induction false} AddsKeys(s: CartState, products: seq<Product>)
    ensures forall i :: 0 <= i < |products| ==> HasKey(ApplyAll(s, AddsOf(products)).items, CartItemKey(products[i], None))
  {
    if products != [] {
      var n := |products|;
      var init := products[..n - 1];
      AddsKeys(s, init);
      AddsOfSnoc(products);
      var mid := ApplyAll(s, AddsOf(init));
      var t := ApplyAll(s, AddsOf(products));
      assert t == Apply(mid, Add(products[n - 1], None));
      forall i | 0 <= i < n
        ensures HasKey(t.items, CartItemKey(products[i], None))
      {
        AddedKeys(mid.items, products[n - 1], None, CartItemKey(products[i], None));
      }
    }
  }

  /** Performing a committed individual-items plan adds one unit per product to a well-formed
      cart, leaves a line under each product's key, and sets the offer's promotion. */
  lemma IndividualEffect(s: CartState, offer: PromotionCode, products: seq<Product>)
    requires WellFormed(s.items)
    ensures var t := ApplyAll(s, AddsOf(products) + [Promote(PromotionFor(offer, products))]);
      && WellFormed(t.items)
      && TotalQuantity(t.items) == TotalQuantity(s.items) + |products|
      && t.promotion == Some(PromotionFor(offer, products)) && t.isOpen
      && (forall i :: 0 <= i < |products| ==> HasKey(t.items, CartItemKey(products[i], None)))
  {
    AddsQuantity(s, products);
    AddsKeys(s, products);
    var plan := AddsOf(products) + [Promote(PromotionFor(offer, products))];
    assert plan[..|plan| - 1] == AddsOf(products);
  }

  // ---------------------------------------------------------------------------
  // The configurator

  class Configurator {
    const offering: Offering
    const cart: Cart
    var activeOffer: Option<PromotionCode>
    var error: Option<string>
    var activeStepIndex: int
    var selections: map<StepKey, int>

    /** `stepKeys`: none while no offer is active. */
    function StepKeys(): seq<StepKey>
      reads this
    {
      if activeOffer.Some? then StepKeysForOffer(activeOffer.value) else []
    }

    /** `currentStepKey`. */
    function CurrentStep(): Option<StepKey>
      reads this
    {
      if 0 <= activeStepIndex < |StepKeys()| then Some(StepKeys()[activeStepIndex]) else None
    }

    /** Selections belong to the active offer's steps and never repeat an id. */
    predicate Valid()
      reads this
    {
      && DistinctSelections(selections)
      && 0 <= activeStepIndex
      && forall k :: k in selections ==> k in StepKeys()
    }

    constructor (offering: Offering, cart: Cart)
      ensures this.offering == offering && this.cart == cart
      ensures activeOffer == None && error == None && activeStepIndex == 0 && selections == map[]
      ensures Valid()
    {
      this.offering := offering;
      this.cart := cart;
      activeOffer := None;
      error := None;
      activeStepIndex := 0;
      selections := map[];
    }

    /** `resetForOffer(next)`. */
    method ResetForOffer(next: Option<PromotionCode>)
      modifies this
      ensures activeOffer == next && error == None && activeStepIndex == 0 && selections == map[]
      ensures Valid()
    {
      error := None;
      selections := map[];
      activeStepIndex := 0;
      activeOffer := next;
    }

    /** An offer card's click: the active card switches the offer off, any other switches to it. */
    method ClickOffer(code: PromotionCode)
      modifies this
      ensures activeOffer == if old(activeOffer) == Some(code) then None else Some(code)
      ensures error == None && activeStepIndex == 0 && selections == map[]
      ensures Valid()
    {
      var isActive := activeOffer == Some(code);
      ResetForOffer(if isActive then None else Some(code));
    }

    /** A step header's click opens that step. */
    method FocusStep(index: int)
      requires 0 <= index < |StepKeys()|
      modifies this
      ensures activeOffer == old(activeOffer) && selections == old(selections) && error == old(error)
      ensures activeStepIndex == index && CurrentStep() == Some(StepKeys()[index])
      ensures old(Valid()) ==> Valid()
    {
      activeStepIndex := index;
    }

    /** `setStepSelection(step, id)`: record the id, clear the error, and open the next step
        unless this was the last one. */
    method SetStepSelection(step: StepKey, id: int)
      modifies this
      ensures selections == old(selections)[step := id] && error == None
      ensures activeStepIndex == if old(activeStepIndex) + 1 < |StepKeys()| then old(activeStepIndex) + 1 else old(activeStepIndex)
      ensures activeOffer == old(activeOffer)
      ensures forall k :: k in old(selections) && k != step ==> k in selections && selections[k] == old(selections)[k]
    {
      error := None;
      selections := selections[step := id];
      var nextIndex := activeStepIndex + 1;
      if nextIndex < |StepKeys()| {
        activeStepIndex := nextIndex;
      }
    }

    /** The open step's select: the placeholder (read as 0) and non-positive values are ignored;
        any other value is recorded for the open step. Picking an offered option keeps every id
        in at most one step. */
    method OnSelect(value: int)
      modifies this
      ensures value <= 0 || old(CurrentStep()).None? ==>
        selections == old(selections) && activeStepIndex == old(activeStepIndex) && error == old(error)
      ensures value > 0 && old(CurrentStep()).Some? ==>
        && selections == old(selections)[old(CurrentStep()).value := value] && error == None
        && activeStepIndex == if old(activeStepIndex) + 1 < |StepKeys()| then old(activeStepIndex) + 1 else old(activeStepIndex)
      ensures activeOffer == old(activeOffer)
      ensures old(Valid()) && (value <= 0 || old(CurrentStep()).None? || IsOffered(offering, old(selections), old(CurrentStep()).value, value))
        ==> Valid()
    {
      var step := CurrentStep();
      if value <= 0 || step.None? {
        return;
      }
      ghost var wasValid := Valid();
      ghost var offered := IsOffered(offering, selections, step.value, value);
      if wasValid && offered {
        OfferedKeepsDistinct(offering, selections, step.value, value);
      }
      SetStepSelection(step.value, value);
    }

    /** `isComplete()`, which also enables the commit button. */
    predicate Complete()
      reads this
    {
      IsComplete(activeOffer, selections)
    }

    /** `addConfiguredSetToCart`. With no active offer nothing happens; otherwise either an error
        is shown and the cart is untouched, or the cart performs the committed plan and the error
        is cleared. The configurator's selections and steps stay as they were. */
    method AddConfiguredSetToCart()
      modifies this, cart
      ensures activeOffer == old(activeOffer) && selections == old(selections)
      ensures activeStepIndex == old(activeStepIndex)
      ensures old(activeOffer).None? ==> error == old(error) && cart.State() == old(cart.State())
      ensures old(activeOffer).Some? ==>
        match CommitPlan(offering, activeOffer.value, selections)
        case Err(m) => error == Some(m) && cart.State() == old(cart.State())
        case Ok(actions) => error == None && cart.State() == ApplyAll(old(cart.State()), actions)
    {
      if activeOffer.None? {
        return;
      }
      var offer := activeOffer.value;
      error := None;
      if !IsComplete(activeOffer, selections) {
        error := Some(IncompleteMsg);
        return;
      }
      ghost var s0 := cart.State();

      if offer == ProHalfTesters {
        var outcome := TestersOutcome(offering, selections);
        if outcome.Err? {
          error := Some(outcome.msg);
          return;
        }
        PerformTesterCommit(cart, outcome.value);
        return;
      }

      var keys := StepKeysForOffer(offer);
      var bundle := BundleOf(offering, offer);
      if bundle.Some? {
        var pool := if offer == Gift3Eco then offering.eco else offering.pro;
        var names := NamesOf(pool, SelectedIds(keys, selections));
        cart.AddItem(bundle.value, Some(names));
        ApplyAllSnoc(s0, [], Add(bundle.value, Some(names)));
        assert [] + [Add(bundle.value, Some(names))] == [Add(bundle.value, Some(names))];
        return;
      }
      var productsToAdd := CollectProducts(offer);

      if |productsToAdd| != |keys| {
        error := Some(UnavailableMsg);
        return;
      }

      AddEach(productsToAdd);
      cart.SetPromotion(PromotionFor(offer, productsToAdd));
      ApplyAllSnoc(s0, AddsOf(productsToAdd), Promote(PromotionFor(offer, productsToAdd)));
    }

    /** The `productsToAdd` pushes of the individual-items path (the bundle-less three-item
        offers and `pro_half_eco`). */
    method CollectProducts(offer: PromotionCode) returns (productsToAdd: seq<Product>)
      requires offer != ProHalfTesters && BundleOf(offering, offer).None?
      ensures productsToAdd == Individuals(offering, offer, selections)
    {
      productsToAdd := [];
      if offer == Gift3Eco || offer == Gift3Pro {
        var pool := if offer == Gift3Eco then offering.eco else offering.pro;
        var ids := SelectedIds(StepKeysForOffer(offer), selections);
        var i := 0;
        while i < |ids|
          invariant 0 <= i <= |ids|
          invariant productsToAdd == Resolve(pool, ids[..i])
        {
          ResolveSnoc(pool, ids, i);
          var p := FindById(pool, ids[i]);
          if p.Some? {
            productsToAdd := productsToAdd + [p.value];
          }
          i := i + 1;
        }
        assert ids[..i] == ids;
      } else {
        var proId := Get(selections, Pro1);
        var ecoId := Get(selections, Eco1);
        var pro := if proId != 0 then FindById(offering.pro, proId) else None;
        var eco := if ecoId != 0 then FindById(offering.eco, ecoId) else None;
        if pro.Some? {
          productsToAdd := productsToAdd + [pro.value];
        }
        if eco.Some? {
          productsToAdd := productsToAdd + [eco.value];
        }
        if proId != 0 {
          FoundOne(offering.pro, proId);
        }
        if ecoId != 0 {
          FoundOne(offering.eco, ecoId);
        }
      }
    }

    /** `productsToAdd.forEach(p => addItem(p))`. */
    method AddEach(products: seq<Product>)
      modifies cart
      ensures cart.State() == ApplyAll(old(cart.State()), AddsOf(products))
    {
      ghost var s0 := cart.State();
      var i := 0;
      while i < |products|
        invariant 0 <= i <= |products|
        invariant cart.State() == ApplyAll(s0, AddsOf(products[..i]))
      {
        assert AddsOf(products[..i + 1])[..i] == AddsOf(products[..i]);
        cart.AddItem(products[i], None);
        i := i + 1;
      }
      assert products[..i] == products;
    }
  }
}
