# Scented Fumes storefront core, modelled in Dafny

This project models the logic of the Scented Fumes Next.js storefront that is not markup or network plumbing:

- **Cart store.** The persisted zustand store holds an ordered list of cart lines, an optional gift-set promotion descriptor and an "open" flag.
  - Lines are keyed by product id, or by id, `::` and the tester names joined with `|`.
  - Its actions are add, update quantity, remove, clear, toggle, set promotion and clear promotion.
- **Gift-set configurator.** A shopper picks an offer, walks its selection steps from the ECO, PRO or tester pool (no id used twice), and commits. The commit validates the choices, pushes lines into the cart in a fixed order and attaches a promotion descriptor, or takes the bundle-product branch.
- **"Testers of your choice" picker.** A toggle set capped at five, a name search, and a submit that checks its input in a fixed order before adding the testers pack, and with the half-price offer the PRO and a promotion. The page builds the picker's input from the query string.
- **Product page tester form.** It orders the tester slots by the number in each attribute's name, formats slot and option labels, and keeps one selection per slot.
- **Checkout form.** It edits the form fields and assembles the order input from the form and the cart. It clears the cart only when the order request succeeds.
- **Smaller helpers.**
  - The cart drawer's subtotal fold over cleaned price strings, and its per-line controls.
  - `formatPrice`.
  - The catalog filters and the id guard of the product queries.

Pure logic is written as datatypes, functions and lemmas. The cart store, the configurator, the picker, the tester form and the checkout form update state, so each is a `class`.
- Each class's methods are proved against pure functions that define their effect.
  - The cart's actions are `CartStore.Apply` over a `CartAction` and `CartStore.ApplyAll` over a sequence.
  - The configurator's and picker's commits are planned as action sequences (`GiftSets.CommitPlan`, `TestersChoice.SubmitPlan`).
- A method that touches the cart ensures that the cart's new state is `ApplyAll` of the old state and that plan.

Network responses, the random checkout mutation id, the request outcome and router navigation are inputs or recorded fields.
- A GraphQL response is a `Catalog.Response` value: optional data and an optional error.
- A thrown error is `Catalog.Outcome.Thrown`.
- `router.push` is a `navigatedTo` field.

Modules, one per file: `Common`, `Seqs`, `Strings`, `Utils`, `Catalog`, `CartStore`, `CartDrawer`, `GiftSets`, `TestersChoice`, `TesterForm`, `Checkout`, `TestersPage`.

Two behaviours of the code are worth stating up front:
- **Prices.** A price with no digits makes `parseFloat` return NaN, and NaN absorbs the whole subtotal. The model keeps NaN as `None` (`CartDrawer.SubtotalNaNOrNonNegative`).
- **Discounts.** The code computes no discount or promotional total, so none is modelled.

## Model

| member | source | states |
|---|---|---|
| CartStore.CustomisedKeys | src/lib/store/cartStore.ts:38-40 | the key of a line with tester names differs from the plain product key, and two such keys are equal exactly when the name lists are equal |
| CartStore.OneLinePerKey | src/lib/store/cartStore.ts:42-66 | in a cart with unique keys, a key occurs on exactly one line if present and on none otherwise |
| CartStore.IncrementedQuantity | src/lib/store/cartStore.ts:42-52 | incrementing a present key raises that key's quantity by the number of lines carrying it and leaves every other key's quantity unchanged |
| CartStore.AddItemAddsOneUnit | src/lib/store/cartStore.ts:36-67 | in a well-formed cart, adding raises the added key's quantity by exactly one, every other key's quantity is unchanged, and the unit count (the header's cart count) grows by one |
| CartStore.AddedKeys | src/lib/store/cartStore.ts:36-67 | after adding, the added key is present and every key present before is still present |
| CartStore.UpdateNonPositiveRemoves | src/lib/store/cartStore.ts:68-75 | updating a key to a quantity of zero or less leaves no line with that key |
| CartStore.UpdateSetsKey | src/lib/store/cartStore.ts:68-75 | in a cart with unique keys, after an update the key holds exactly the new quantity when it is positive and the key was present, and nothing otherwise |
| CartStore.UpdateKeepsOtherKeys | src/lib/store/cartStore.ts:68-75 | in a cart of positive lines, an update leaves every other key's quantity unchanged |
| CartStore.UpdatedSnoc | src/lib/store/cartStore.ts:68-75 | updating is line by line: the result for a cart is the result for all but its last line, followed by the changed last line when it is still positive |
| CartStore.RemovedQuantity | src/lib/store/cartStore.ts:76-79 | removing a key brings its quantity to zero and leaves every other key's quantity unchanged |
| CartStore.SurvivorsKeepOrder | src/lib/store/cartStore.ts:68-79 | removal and update keep the surviving lines in their original relative order; removal keeps exactly the lines with a different key |
| CartStore.FilterKeepsWellFormed | src/lib/store/cartStore.ts:68-79 | dropping lines from a well-formed cart keeps it well-formed |
| CartStore.FilterKeepsWellFormedUpdate | src/lib/store/cartStore.ts:68-75 | dropping the non-positive lines after setting a quantity leaves a well-formed cart |
| CartStore.ApplyKeepsWellFormed | src/lib/store/cartStore.ts:36-83 | every store action preserves unique keys, positive quantities and keys matching their lines |
| CartStore.ReachableWellFormed | src/lib/store/cartStore.ts:42-83 | every cart reachable from the empty cart by any sequence of actions has unique keys |
| CartStore.ApplyAllAppend | src/lib/store/cartStore.ts:36-83 | performing two action sequences one after the other is performing their concatenation |
| CartStore.ApplyAllSnoc | src/lib/store/cartStore.ts:36-83 | performing a sequence with one action appended is performing that action after the sequence |
| CartStore.Cart.constructor | src/lib/store/cartStore.ts:33-35 | a new store is the empty, closed cart with no promotion |
| CartStore.Cart.AddItem | src/lib/store/cartStore.ts:36-67 | an existing key has only its line incremented; a new key gets one line appended with quantity one; the drawer opens; the promotion is untouched; well-formedness is kept |
| CartStore.Cart.UpdateQuantity | src/lib/store/cartStore.ts:68-75 | the lines become the quantity-set lines minus non-positive ones; the open flag and promotion are untouched; well-formedness is kept |
| CartStore.Cart.RemoveItem | src/lib/store/cartStore.ts:76-79 | the lines with that key are dropped; the open flag and promotion are untouched; well-formedness is kept |
| CartStore.Cart.ClearCart | src/lib/store/cartStore.ts:80 | lines and promotion are emptied together and the open flag is unchanged |
| CartStore.Cart.ToggleCart | src/lib/store/cartStore.ts:81 | only the open flag changes, to its negation |
| CartStore.Cart.SetPromotion | src/lib/store/cartStore.ts:82 | the promotion is replaced, the drawer opens, and the lines are untouched |
| CartStore.Cart.ClearPromotion | src/lib/store/cartStore.ts:83 | only the promotion is cleared |
| CartStore.Cart.Perform | src/lib/store/cartStore.ts:36-83 | performing a sequence of actions one by one gives the state `ApplyAll` gives |
| Utils.FormatPrice | src/lib/utils.ts:11-17 | the empty price stays empty; the result is no longer than the input and contains no `&nbsp;` |
| Utils.ReplaceWithoutEntity | src/lib/utils.ts:16 | a string with no `&nbsp;` is returned unchanged |
| Utils.ReplaceAroundEntity | src/lib/utils.ts:16 | an `&nbsp;` between two strings becomes exactly one space, and each side is replaced independently |
| Utils.NoEntityLeft | src/lib/utils.ts:16 | no `&nbsp;` is left after the replacement, even where one is formed across a replaced entity |
| Utils.FormatPriceIdempotent | src/lib/utils.ts:11-17 | formatting a formatted price changes nothing |
| Catalog.PresentWhereMembers | src/lib/graphql/products.ts:241-247 | a product is kept exactly when it is a non-null node satisfying the filter |
| Catalog.PresentWhereAppend | src/lib/graphql/products.ts:241-247 | filtering nodes distributes over concatenation, so order is kept |
| Catalog.FetchProductsWithCategories | src/lib/graphql/products.ts:232-253 | a response error is rethrown; otherwise exactly the non-null, non-placeholder product nodes, and the categories as given, or `[]` when missing |
| Catalog.FetchProductSlugs | src/lib/graphql/products.ts:255-267 | a response error is thrown; otherwise the slugs in order with `my-product` removed, and the empty list for missing data |
| Catalog.FetchProductBySlug | src/lib/graphql/products.ts:269-279 | a response error is rethrown; otherwise the result is the product in the data, or null when the data or the product is missing |
| Catalog.FetchProductByDatabaseId | src/lib/graphql/products.ts:281-295 | a non-positive id gives null without a query; a positive one is handled like the by-slug response |
| Catalog.FetchProductsForTestersSelection | src/lib/graphql/products.ts:297-315 | a response error is thrown; otherwise the result is exactly the non-null nodes that are neither the placeholder nor the testers pack |
| Catalog.TestersSelectionRefinesListing | src/lib/graphql/products.ts:306-314 | the testers-selection list is the general listing with the testers pack removed, in the same order |
| CartDrawer.CleanPrice | src/components/cart/CartDrawer.tsx:21 | the cleaned price holds only digits and dots |
| CartDrawer.CleanPriceKeepsDigits | src/components/cart/CartDrawer.tsx:21 | cleaning keeps every digit of the price in order, and cleaning twice is cleaning once |
| CartDrawer.ParseFloat | src/components/cart/CartDrawer.tsx:21 | a parsed price is never negative, and the empty string is NaN |
| CartDrawer.ParseWholeNumber | src/components/cart/CartDrawer.tsx:21 | a price written as a decimal whole number is read back as that number |
| CartDrawer.LineAmount | src/components/cart/CartDrawer.tsx:21-22 | a line's amount is NaN exactly when its unit price does not parse, and is non-negative for a non-negative quantity |
| CartDrawer.UnitPrice | src/components/cart/CartDrawer.tsx:21 | a price that parses after cleaning is never negative, since the cleaning keeps no minus sign |
| CartDrawer.Sum | src/components/cart/CartDrawer.tsx:20-23 | the fold starts at zero, so an empty cart sums to zero |
| CartDrawer.SumAppend | src/components/cart/CartDrawer.tsx:20-23 | the subtotal fold distributes over concatenation |
| CartDrawer.SubtotalAppend | src/components/cart/CartDrawer.tsx:20-23 | the subtotal of two carts put together is the sum of their subtotals |
| CartDrawer.SumNaN | src/components/cart/CartDrawer.tsx:20-23 | the fold is NaN exactly when some amount is NaN |
| CartDrawer.SumNonNegative | src/components/cart/CartDrawer.tsx:20-23 | non-negative amounts fold to a non-negative sum |
| CartDrawer.SubtotalNaNOrNonNegative | src/components/cart/CartDrawer.tsx:20-23 | the subtotal is NaN exactly when some line's cleaned price does not parse, and otherwise non-negative |
| CartDrawer.CustomisedKeyIsNotId | src/components/cart/CartDrawer.tsx:109-129 | a line added with tester names is not keyed by its product id |
| CartDrawer.ControlsMissTesterLines | src/components/cart/CartDrawer.tsx:107-130 | as written, the minus, plus and remove controls leave a line with tester names in the cart unchanged |
| CartDrawer.OtherKeyControlsMiss | src/components/cart/CartDrawer.tsx:107-130 | controls keyed by anything but a positive line's own key leave that line in the cart |
| CartDrawer.UnmatchedLineSurvives | src/lib/store/cartStore.ts:68-75 | an update leaves a positive line with a different key exactly as it was |
| CartDrawer.ControlsReachEveryLine | src/components/cart/CartDrawer.tsx:107-130 | keyed by the line's own key, plus adds one unit, minus takes one away, remove empties the line, and no other key changes |
| CartDrawer.ControlReachesLine | src/lib/store/cartStore.ts:68-75 | updating a present key of a well-formed cart sets that key to the new quantity, or empties it when not positive, and leaves every other key alone |
| CartDrawer.DecrementLastUnitRemovesLine | src/components/cart/CartDrawer.tsx:107-114 | decrementing a quantity-one line removes it through the store |
| CartDrawer.FooterFollowsCart | src/components/cart/CartDrawer.tsx:18-142 | once mounted, the footer shows after any add and never after the cart is cleared; before mounting it never shows |
| CartDrawer.CheckoutButtonClosesDrawer | src/components/cart/CartDrawer.tsx:154-158 | the checkout button closes an open drawer and leaves the lines and the promotion as they were |
| CartDrawer.AsWrittenReachesPlainLines | src/components/cart/CartDrawer.tsx:107-130 | on a line without tester names the key is the product id, so the controls as written are exactly the key-based ones |
| CartDrawer.AsWrittenDecrementRemovesPlainLine | src/components/cart/CartDrawer.tsx:107-114 | as written, `-` on the last unit of a line without tester names removes that line through the store |
| CartDrawer.AsWrittenControlsReachPlainLines | src/components/cart/CartDrawer.tsx:107-130 | as written, on a line without tester names, plus adds one unit, minus takes one away, remove empties the line, and no other key changes |
| GiftSets.OfferLabelsDistinct | src/components/gift-sets/GiftSetsClient.tsx:64-77 | the four offer codes have four different labels |
| GiftSets.StepKeysForOffer | src/components/gift-sets/GiftSetsClient.tsx:79-84 | the steps are distinct; the half-price testers offer has a PRO step followed by five tester steps; the others have two or three steps |
| GiftSets.LabelParts | src/components/gift-sets/GiftSetsClient.tsx:86-91 | a step label carries the pool mark and the step number, and both can be read back from it |
| GiftSets.StepLabelsDistinct | src/components/gift-sets/GiftSetsClient.tsx:86-91 | two steps have the same label exactly when they are the same step |
| GiftSets.AsOptions | src/components/gift-sets/GiftSetsClient.tsx:93-97 | options are never more than the products, and every option has a positive id |
| GiftSets.AsOptionsMembers | src/components/gift-sets/GiftSetsClient.tsx:93-97 | an option is present exactly when it comes from a product with a positive database id |
| GiftSets.AsOptionsAppend | src/components/gift-sets/GiftSetsClient.tsx:93-97 | the options keep the products' order: the options of two product lists put together are the options of the first followed by those of the second |
| GiftSets.FindById | src/components/gift-sets/GiftSetsClient.tsx:117-122 | a lookup by id finds a product of the pool with that id, and finds nothing exactly when no product has it |
| GiftSets.FindByIdIsLast | src/components/gift-sets/GiftSetsClient.tsx:117-122 | the map built from the pool keeps the last product with each id |
| GiftSets.ResolveFull | src/components/gift-sets/GiftSetsClient.tsx:225-240 | all ids resolve exactly when every one is found, and then each resolves to its own product in order |
| GiftSets.NamesFull | src/components/gift-sets/GiftSetsClient.tsx:204-211 | all names are collected exactly when every id resolves to a product with a non-empty name, and then they follow step order |
| GiftSets.UsedIds | src/components/gift-sets/GiftSetsClient.tsx:127-130 | the used ids are exactly the non-zero ids selected in some step |
| GiftSets.OptionsForStepMembers | src/components/gift-sets/GiftSetsClient.tsx:139-147 | a step offers an option of its own pool exactly when it is the step's current value or unused by every step |
| GiftSets.OfferedKeepsDistinct | src/components/gift-sets/GiftSetsClient.tsx:139-157 | picking an offered option keeps every id selected in at most one step |
| GiftSets.CompleteIds | src/components/gift-sets/GiftSetsClient.tsx:159-162 | for a complete selection, the selected ids are those of the offer's steps in step order |
| GiftSets.TesterIds | src/components/gift-sets/GiftSetsClient.tsx:191-197 | there are five tester ids, in tester-step order |
| GiftSets.DatabaseIds | src/components/gift-sets/GiftSetsClient.tsx:270-274 | the promotion's ids are the products' database ids in the same order |
| GiftSets.AddsOf | src/components/gift-sets/GiftSetsClient.tsx:268 | one plain add per product, in order |
| GiftSets.IncompleteCommitsNothing | src/components/gift-sets/GiftSetsClient.tsx:166-171 | committing an incomplete selection is the "complete all selections" error and no cart action |
| GiftSets.CompleteTesterIds | src/components/gift-sets/GiftSetsClient.tsx:191-202 | in a complete selection, no tester id is dropped as zero |
| GiftSets.ProHalfTestersCommits | src/components/gift-sets/GiftSetsClient.tsx:173-223 | the half-price testers commit succeeds exactly when the pack exists, the PRO resolves and all five testers resolve to non-empty names |
| GiftSets.ProHalfTestersActions | src/components/gift-sets/GiftSetsClient.tsx:212-222 | on success it adds the PRO, then the pack with the five names in step order, then sets the promotion with the PRO and pack ids and the offer's label |
| GiftSets.BundleCommit | src/components/gift-sets/GiftSetsClient.tsx:228-253 | a complete three-item set with a bundle product adds that bundle once with the names of the picked products and no promotion; when every pick is a named product, the names are those products' names in step order |
| GiftSets.StepLookups | src/components/gift-sets/GiftSetsClient.tsx:228-261 | one lookup per step, each in that step's pool |
| GiftSets.IndividualCommit | src/components/gift-sets/GiftSetsClient.tsx:254-274 | without a bundle, the commit succeeds exactly when every step resolves; then it adds each product in step order and sets the promotion for them |
| GiftSets.ProHalfEcoLookups | src/components/gift-sets/GiftSetsClient.tsx:254-261 | the half-price ECO offer collects both products exactly when both resolve, in step order |
| GiftSets.FoundOne | src/components/gift-sets/GiftSetsClient.tsx:228-261 | a lookup contributes its product when found and nothing otherwise |
| GiftSets.ThreeItemLookups | src/components/gift-sets/GiftSetsClient.tsx:228-253 | the three-item fallback collects all three products exactly when all resolve, in step order |
| GiftSets.LookupsAgreeWithResolve | src/components/gift-sets/GiftSetsClient.tsx:228-253 | per-id lookups all succeed exactly when resolving the ids drops nothing, and then they hold the resolved products in order |
| GiftSets.AddsOfSnoc | src/components/gift-sets/GiftSetsClient.tsx:268 | the adds for a list are the adds for all but its last product, followed by the add of the last |
| GiftSets.AddsQuantity | src/components/gift-sets/GiftSetsClient.tsx:268 | adding the products keeps the cart well-formed, adds one unit per product, and leaves the promotion untouched |
| GiftSets.AddsKeys | src/components/gift-sets/GiftSetsClient.tsx:268 | every added product has its line in the cart afterwards |
| GiftSets.IndividualEffect | src/components/gift-sets/GiftSetsClient.tsx:263-274 | the individual-items commit adds one unit per product, keeps the cart well-formed, opens it and attaches the promotion |
| GiftSets.Configurator.constructor | src/components/gift-sets/GiftSetsClient.tsx:108-111 | the configurator starts with no offer, no selections, no error and the first step |
| GiftSets.Configurator.ResetForOffer | src/components/gift-sets/GiftSetsClient.tsx:132-137 | the offer is set and the selections, the error and the step index are reset |
| GiftSets.Configurator.ClickOffer | src/components/gift-sets/GiftSetsClient.tsx:288-293 | clicking the active offer deactivates it, any other offer activates it, and the state is reset either way |
| GiftSets.Configurator.FocusStep | src/components/gift-sets/GiftSetsClient.tsx:442 | clicking a step header makes it the current step and changes nothing else |
| GiftSets.Configurator.SetStepSelection | src/components/gift-sets/GiftSetsClient.tsx:149-157 | the step's id is recorded, other steps keep theirs, the error clears, and the index advances by one unless on the last step |
| GiftSets.Configurator.OnSelect | src/components/gift-sets/GiftSetsClient.tsx:467-473 | a non-positive value is ignored; otherwise the current step is set and advanced; an offered value keeps the selections duplicate-free |
| GiftSets.Configurator.AddConfiguredSetToCart | src/components/gift-sets/GiftSetsClient.tsx:164-275 | with no offer nothing changes; a failed plan shows its error and leaves the cart alone; a good plan is performed on the cart in order |
| GiftSets.Configurator.CollectProducts | src/components/gift-sets/GiftSetsClient.tsx:228-261 | the collection loop gathers exactly `Individuals`: the selected products found in their pools, in step order |
| GiftSets.PerformTesterCommit | src/components/gift-sets/GiftSetsClient.tsx:213-220 | the cart ends as the PRO product added, then the testers pack with its named scents, then the offer's promotion set, in that order |
| GiftSets.Configurator.AddEach | src/components/gift-sets/GiftSetsClient.tsx:268 | the add loop leaves the cart as performing one plain add per product in order |
| TestersChoice.FilteredProducts | src/components/testers/TestersChoiceClient.tsx:51-55 | the search never yields more products than it was given |
| TestersChoice.FilteredProductsMembers | src/components/testers/TestersChoiceClient.tsx:51-55 | the search keeps product order; a product is shown exactly when the trimmed query is blank or its lower-cased name contains the lower-cased trimmed query |
| TestersChoice.ToggleKeepsSelectionValid | src/components/testers/TestersChoiceClient.tsx:57-65 | toggling keeps the selection duplicate-free and at most five long |
| TestersChoice.ToggleMembership | src/components/testers/TestersChoiceClient.tsx:57-65 | a selected id is removed; an unselected one is added only below five; no other id changes |
| TestersChoice.ToggleTwiceRestores | src/components/testers/TestersChoiceClient.tsx:57-65 | adding an id and toggling it again restores the selection |
| TestersChoice.SubmitChecksInOrder | src/components/testers/TestersChoiceClient.tsx:67-87 | submit fails first on a count other than five, then on a missing pack, then on an id without a name |
| TestersChoice.SubmitSucceedsIff | src/components/testers/TestersChoiceClient.tsx:67-110 | submit succeeds exactly when five named testers are picked, the pack exists, and for the half-price offer a PRO id and product are present |
| TestersChoice.SubmitEffect | src/components/testers/TestersChoiceClient.tsx:80-110 | the names follow selection order; the half-price offer adds the PRO, the named pack and the promotion, then goes to checkout; any other offer adds only the named pack and returns |
| TestersChoice.PlainSubmitCartEffect | src/components/testers/TestersChoiceClient.tsx:108-109 | a plain submit adds one unit of the named pack, opens the cart and leaves the promotion alone |
| TestersChoice.Picker.constructor | src/components/testers/TestersChoiceClient.tsx:45-47 | the picker starts with nothing selected, no error and no navigation |
| TestersChoice.Picker.Toggle | src/components/testers/TestersChoiceClient.tsx:57-65 | the selection becomes the toggled selection, the error clears, and a valid selection stays valid |
| TestersChoice.Picker.SelectedNames | src/components/testers/TestersChoiceClient.tsx:80-82 | the name loop yields the names of the selected testers in order |
| TestersChoice.Picker.Submit | src/components/testers/TestersChoiceClient.tsx:67-110 | a failed check shows its message and changes neither the cart nor the page; a passing submit performs its actions on the cart and navigates to its target |
| TesterForm.FirstDigitRun | src/components/product/TesterSelectionForm.tsx:7-11 | a found run is non-empty and all digits, and none is found exactly when the name has no digit |
| TesterForm.FirstDigitRunSkips | src/components/product/TesterSelectionForm.tsx:7-11 | a digit-free prefix does not change the first digit run |
| TesterForm.LeadingDigitsStop | src/components/product/TesterSelectionForm.tsx:7-11 | a digit run stops at the first non-digit |
| TesterForm.NumberedNameOrder | src/components/product/TesterSelectionForm.tsx:7-11 | a name whose first number is n orders as n |
| TesterForm.DigitFreeNameOrder | src/components/product/TesterSelectionForm.tsx:7-11 | a name with no digit orders last, at the largest safe integer |
| TesterForm.CollapseDashes | src/components/product/TesterSelectionForm.tsx:23-26 | no underscore or hyphen is left, and the text does not grow |
| TesterForm.CollapseDashFree | src/components/product/TesterSelectionForm.tsx:23-26 | text without underscores or hyphens is left as it is |
| TesterForm.CollapseRun | src/components/product/TesterSelectionForm.tsx:23-26 | each maximal run of underscores and hyphens becomes exactly one space, and the dash-free text before it is kept |
| TesterForm.Capitalize | src/components/product/TesterSelectionForm.tsx:23-26 | capitalising keeps the length |
| TesterForm.CapitalizeOnlyChangesCase | src/components/product/TesterSelectionForm.tsx:23-26 | only letter case changes, every word starts without a lower-case letter, and characters inside words are kept |
| TesterForm.CapitalizeIdempotent | src/components/product/TesterSelectionForm.tsx:23-26 | capitalising twice is capitalising once |
| TesterForm.FormatOptionLabelIdempotent | src/components/product/TesterSelectionForm.tsx:23-26 | an option label has no dashes, and formatting it again changes nothing |
| TesterForm.DashCollapseDigitFree | src/components/product/TesterSelectionForm.tsx:23-26 | collapsing dashes adds no digit |
| TesterForm.TitleCaseDigitFree | src/components/product/TesterSelectionForm.tsx:23-26 | the option label of a digit-free name has no digit |
| TesterForm.AttributeLabelOfNumbered | src/components/product/TesterSelectionForm.tsx:13-21 | a name whose first number is n is labelled "Tester n" |
| TesterForm.AttributeLabelMissesTitleCase | src/components/product/TesterSelectionForm.tsx:13-21 | as written, a digit-free name is labelled "Tester 9007199254740991", which is not its title-cased label |
| TesterForm.AttributeLabel | src/components/product/TesterSelectionForm.tsx:13-21 | the corrected label agrees with the written one whenever the name has a number |
| TesterForm.AttributeLabelIntended | src/components/product/TesterSelectionForm.tsx:13-21 | corrected, a numbered name is "Tester n" and a digit-free name gets its title-cased, dash-free label |
| TesterForm.TesterAttributesSpec | src/components/product/TesterSelectionForm.tsx:34-38 | the slots are the attributes with options, as a permutation sorted by tester number, with attributes of equal number in their original order |
| TesterForm.View | src/components/product/TesterSelectionForm.tsx:54-69 | the form is unavailable exactly when no attribute has options, and otherwise has one label per slot |
| TesterForm.Blank | src/components/product/TesterSelectionForm.tsx:40-42 | one empty selection per slot |
| TesterForm.ReplacedIsUpdate | src/components/product/TesterSelectionForm.tsx:50-52 | a change replaces only the entry at its index, and an index outside the slots changes nothing |
| TesterForm.FillingSlots | src/components/product/TesterSelectionForm.tsx:48-52 | a freshly reset form with a slot is not ready; with every other slot filled, a change to the remaining slot makes the form ready exactly when the new value is not blank; a change outside the slots leaves readiness as it was |
| TesterForm.SelectionForm.constructor | src/components/product/TesterSelectionForm.tsx:34-42 | the form's slots are the sorted tester attributes, each with an empty selection |
| TesterForm.SelectionForm.Reset | src/components/product/TesterSelectionForm.tsx:44-46 | every selection is emptied |
| TesterForm.SelectionForm.HandleChange | src/components/product/TesterSelectionForm.tsx:50-52 | the mapping loop replaces exactly the entry at the index |
| Checkout.WithFieldSetsOnlyThatField | src/components/checkout/CheckoutForm.tsx:28-31 | an edit sets the named field and leaves every other field unchanged |
| Checkout.InitialFormBlank | src/components/checkout/CheckoutForm.tsx:16-26 | the initial form is empty apart from the country "PK" |
| Checkout.LineItems | src/components/checkout/CheckoutForm.tsx:64-67 | one line item per cart line in order, with the database id and the quantity |
| Checkout.BuildInputSpec | src/components/checkout/CheckoutForm.tsx:39-68 | billing carries every form field, so the form can be read back from it; shipping repeats billing's name and address; the order is cash on delivery, unpaid and not shipped elsewhere |
| Checkout.LineItemsCarryQuantities | src/components/checkout/CheckoutForm.tsx:64-67 | the order asks for exactly the cart's unit count |
| Checkout.OutcomeError | src/components/checkout/CheckoutForm.tsx:72-81 | no error is shown exactly when the request returned "success" |
| Checkout.CheckoutForm.constructor | src/components/checkout/CheckoutForm.tsx:13-26 | the form starts with the initial data, not submitting, with no error |
| Checkout.CheckoutForm.HandleChange | src/components/checkout/CheckoutForm.tsx:28-31 | only the named field of the form data changes |
| Checkout.CheckoutForm.BeginSubmit | src/components/checkout/CheckoutForm.tsx:35-68 | submission starts, the error clears, and the input is built from the form and the cart |
| Checkout.CheckoutForm.FinishSubmit | src/components/checkout/CheckoutForm.tsx:72-84 | success clears the cart and goes to the order-received page; failure shows its message and leaves cart and page; submission ends either way |
| Checkout.CheckoutForm.HandleSubmit | src/components/checkout/CheckoutForm.tsx:33-85 | the order input reflects the form and cart before submit; only success clears the cart, after which the page shows the empty-cart message |
| TestersPage.OfferParam | src/app/testers-of-your-choice/page.tsx:23 | the offer defaults to the empty string |
| TestersPage.ReturnToParam | src/app/testers-of-your-choice/page.tsx:27 | the return path defaults to "/gift-sets" |
| TestersPage.ValidProId | src/app/testers-of-your-choice/page.tsx:25-26 | a valid PRO id is positive, and a blank one is not valid |
| TestersPage.ProIdPrecedence | src/app/testers-of-your-choice/page.tsx:24 | `proId` wins even when empty, `prodId` is the fallback, and neither gives no id |
| TestersPage.ValidProIdRoundTrip | src/app/testers-of-your-choice/page.tsx:25-26 | a positive id written in decimal is read back as itself, and zero is not an id |
| TestersPage.ProLookup | src/app/testers-of-your-choice/page.tsx:32 | the PRO is looked up only for a valid id, and is null otherwise |
| TestersPage.PickerSeesValidProId | src/app/testers-of-your-choice/page.tsx:22-33 | the picker's "missing PRO" test is exactly "no valid id in the query", and a PRO product appears only with a valid id |

## Left out

- Discounts, coupons and totals with a promotion applied: the code computes none. Bundle prices appear only in label text, which the model keeps as fixed strings.
- Persistence of the cart to `localStorage` through zustand's `persist` wrapper: the store is modelled in memory.
- The network:
  - the GraphQL client;
  - the checkout server route;
  - the category queries;
  - `processCheckout`. Its result is the parameter `Checkout.CheckoutOutcome`. The form calls it with the order input alone, although it is declared with a second cart-items argument; that mismatch is outside the model.
- `crypto.randomUUID()` for the mutation id: it is a parameter of `Checkout.CheckoutForm.BeginSubmit`.
- CartDrawer.ParseFloat: reads only digits-and-dots strings as an exact decimal. Rounding to a double is not modelled, nor are exponents, nor a digit run long enough to overflow to Infinity.
- CartDrawer.SumAppend: the model adds exact reals, while the source adds doubles and rounds after every addition, which is not associative (prices "0.1", "0.2", "0.3" sum to 0.6000000000000001 in one fold, but to 0.6 as 0.1 + 0.5). The split identity holds for the source only while every partial sum is exact, for example whole-number prices below 2^53.
- CartDrawer.SubtotalAppend: the same gap as `CartDrawer.SumAppend`; the subtotal of two carts put together equals the sum of their subtotals only while the double arithmetic is exact.
- Catalog.FetchProductByDatabaseId: the id is an integer, so the `!Number.isFinite(databaseId)` half of the guard (NaN or an infinite id returns null without a query) cannot arise in the model. Only the `databaseId <= 0` half is modelled.
- TestersPage.ValidProId: only a trimmed decimal digit string counts as a number. `Number`'s other forms (hexadecimal, exponents, a fraction such as "3.0") are read as no id, and values beyond 2^53 are not rounded.
- TestersPage.ValidProIdRoundTrip: states that every positive decimal id reads back as itself. The source's `Number` agrees only up to 2^53; above that it rounds ("9007199254740993" is read as 9007199254740992), which is not modelled.
- Strings.ToLower: lower-cases ASCII letters only. Unicode case mapping in the search is not modelled.
- TesterForm.Capitalize: upper-cases ASCII letters only, and treats ASCII letters, digits and `_` as word characters, as `\b\w` does.
- TesterForm.NormalizeTesterOrder: reads a name's first digit run as an exact whole number. `Number` gives a double, so the source rounds runs above 2^53 and turns a run of 310 or more digits into Infinity; neither is modelled.
- TesterForm.NumberedNameOrder: states that a name whose first number is n orders as n for every n. The source agrees only while n is exactly representable as a double (up to 2^53), for the reason given on the `NormalizeTesterOrder` line.
- TesterForm.AttributeLabelOfNumbered: states "Tester n" for every n. The source rounds n above 2^53, prints n of 10^21 or more in exponent form, and gives a run of 310 or more digits the title-cased label, because `Number` returns Infinity there. None of these is modelled.
- Catalog.FetchProductSlugs: slugs are modelled as a plain list. In the source a null node, or `products` present without `nodes`, makes `.filter` or `.slug` throw a TypeError; the model returns the filtered list or `[]` instead.
- The product-page "add to cart" button: it accepts only the product, so the tester form's selections never reach the cart. The form is modelled up to its selections.
- The `state` field of the checkout form has no input element, but it is still sent. It is modelled as a field that only `HandleChange` can set.
- The submit button's disabling while a request is pending: React rendering is not modelled.
- Rendering, hooks and `cn` (a class-name wrapper) are not modelled. The `mounted` flag is a parameter of the drawer footer rule `CartDrawer.ShowsFooter`, and the header's count is `CartStore.TotalQuantity`.
- The testers page's search query and product list: they are inputs to `TestersChoice.FilteredProducts`.
- Product attributes on the product page: their options are modelled as an optional list of names. The attribute type itself is not part of this model.

## Findings

| source | as written | input that shows it | evidently intended | confidence | as-written member | corrected member |
|---|---|---|---|---|---|---|
| src/components/cart/CartDrawer.tsx:107-130 | the minus, plus and remove controls pass `item.id`, but the store matches lines by `cartItemKey` | a line added with tester names `["Oud", "Rose"]` has the key `id::Oud\|Rose`, so `removeItem(id)` leaves it in the cart | each control acts on its own line through `item.cartItemKey` | not executed | CartDrawer.ControlsMissTesterLines | CartDrawer.ControlsReachEveryLine |
| src/components/product/TesterSelectionForm.tsx:13-21 | the label uses the tester number unconditionally; a digit-free name gets the largest safe integer, which is finite, so the title-case fallback is never reached for a digit-free name, nor for any name whose digit runs are shorter than 310 digits | the attribute name `pa_scent` is labelled "Tester 9007199254740991" | a name without a number falls back to its title-cased label, "Pa Scent" | not executed | TesterForm.AttributeLabelMissesTitleCase | TesterForm.AttributeLabelIntended |
