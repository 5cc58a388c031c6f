/** The "testers of your choice" page (`src/app/testers-of-your-choice/page.tsx`): how it reads
    its query string and what it fetches before handing over to the picker. */
module TestersPage {
  import opened Common
  import opened Strings
  import opened Catalog
  import opened TestersChoice

  /** The query string's parameters; each may be absent. */
  datatype SearchParams = SearchParams(
    offer: Option<string>,
    proId: Option<string>,
    prodId: Option<string>,
    returnTo: Option<string>)

  const DefaultReturnTo: string := "/gift-sets"

  /** `(await searchParams) ?? {}`. */
  function ParamsOrEmpty(params: Option<SearchParams>): SearchParams {
    params.GetOr(SearchParams(None, None, None, None))
  }

  /** `offer ?? ""`. */
  function OfferParam(params: Option<SearchParams>): (r: string)
    ensures ParamsOrEmpty(params).offer.None? ==> r == ""
    ensures ParamsOrEmpty(params).offer.Some? ==> r == ParamsOrEmpty(params).offer.value
  {
    ParamsOrEmpty(params).offer.GetOr("")
  }

  /** `proId ?? prodId ?? ""`: `prodId` is consulted only when `proId` is absent, so an empty
      `proId` still wins. */
  function RawProId(params: Option<SearchParams>): string {
    var p := ParamsOrEmpty(params);
    if p.proId.Some? then p.proId.value else p.prodId.GetOr("")
  }

  /** `returnTo ?? "/gift-sets"`. */
  function ReturnToParam(params: Option<SearchParams>): (r: string)
    ensures ParamsOrEmpty(params).returnTo.None? ==> r == DefaultReturnTo
    ensures ParamsOrEmpty(params).returnTo.Some? ==> r == ParamsOrEmpty(params).returnTo.value
  {
    ParamsOrEmpty(params).returnTo.GetOr(DefaultReturnTo)
  }

  /** `Number(raw)` when it is a finite number above zero, else null. `Number` ignores
      surrounding white space and reads a blank string as 0; only decimal digit strings are
      read as numbers here. */
  function ValidProId(raw: string): (r: Option<nat>)
    ensures r.Some? ==> r.value > 0
    ensures Trim(raw) == [] ==> r.None?
  {
    var t := Trim(raw);
    if t != [] && AllDigits(t) && DigitsValue(t) > 0 then Some(DigitsValue(t)) else None
  }

  /** The PRO id is taken from `proId`, then `prodId`, and neither present gives no id. */
  lemma ProIdPrecedence(params: Option<SearchParams>)
    ensures var p := ParamsOrEmpty(params);
      && (p.proId.Some? ==> RawProId(params) == p.proId.value)
      && (p.proId.None? && p.prodId.Some? ==> RawProId(params) == p.prodId.value)
      && (p.proId.None? && p.prodId.None? ==> ValidProId(RawProId(params)).None?)
  {
    assert Trim("") == [];
  }

  lemma TrimDigits(s: string)
    requires s != [] && AllDigits(s)
    ensures Trim(s) == s
  {
    assert !IsWhitespace(s[|s| - 1]) && !IsWhitespace(s[0]);
  }

  /** A positive id written in decimal is read back as that id; zero is not an id. */
  lemma ValidProIdRoundTrip(n: nat)
    ensures ValidProId(NatToString(n)) == if n > 0 then Some(n) else None
  {
    TrimDigits(NatToString(n));
    NatToStringRoundTrip(n);
  }

  /** What the page hands to the picker. */
  datatype PageQuery = PageQuery(offer: string, proId: Option<nat>, returnTo: string)

  function Normalize(params: Option<SearchParams>): PageQuery {
    PageQuery(OfferParam(params), ValidProId(RawProId(params)), ReturnToParam(params))
  }

  /** `validProId ? fetchProductByDatabaseId(validProId) : null`: only a truthy id is looked
      up; otherwise the PRO is null without a request. */
  function ProLookup(proId: Option<nat>, resp: Response<ProductData>): (r: Outcome<Option<Product>>)
    ensures proId.None? || proId.value == 0 ==> r == Returned(None)
    ensures proId.Some? && proId.value > 0 ==> r == FetchProductBySlug(resp)
  {
    if proId.None? || proId.value == 0 then Returned(None) else FetchProductByDatabaseId(proId.value, resp)
  }

  /** The picker's context once all three fetches have returned. */
  function PickerContext(q: PageQuery, products: seq<Product>, testersPack: Option<Product>,
                         proProduct: Option<Product>): Context {
    Context(products, testersPack, proProduct, q.offer,
      if q.proId.Some? then Some(q.proId.value as int) else None, q.returnTo)
  }

  /** The picker never sees a zero id: its "missing PRO" test is exactly "no valid id in the
      query string", and a PRO product is only ever present when the query carried a valid id. */
  lemma PickerSeesValidProId(params: Option<SearchParams>, products: seq<Product>, testersPack: Option<Product>,
                             resp: Response<ProductData>)
    requires ProLookup(Normalize(params).proId, resp).Returned?
    ensures var q := Normalize(params);
      var pro := ProLookup(q.proId, resp).value;
      var c := PickerContext(q, products, testersPack, pro);
      && (ProIdMissing(c.proId) <==> ValidProId(RawProId(params)).None?)
      && (c.proProduct.Some? ==> ValidProId(RawProId(params)).Some?)
  {
  }
}
