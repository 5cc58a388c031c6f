/** The per-slot tester picker on a testers-pack product page
    (`src/components/product/TesterSelectionForm.tsx`): tester attributes are ordered by the
    number in their name, each slot shows a label and a select, and the form tracks one chosen
    value per slot. */
module TesterForm {
  import opened Common
  import opened Seqs
  import opened Strings

  /** `Number.MAX_SAFE_INTEGER`, the order given to a name without digits. */
  const MaxSafeInteger: nat := 9007199254740991

  // ---------------------------------------------------------------------------
  // Ordering by the number in a name

  /** `name.match(/\d+/)`: the first maximal run of decimal digits, if any. */
  function FirstDigitRun(s: string): (r: Option<string>)
    ensures r.Some? ==> |r.value| > 0 && AllDigits(r.value)
    ensures r.None? <==> forall i :: 0 <= i < |s| ==> !IsDigit(s[i])
  {
    if s == [] then None
    else if IsDigit(s[0]) then Some(LeadingDigits(s))
    else
      var r := FirstDigitRun(s[1..]);
      assert forall i :: 1 <= i < |s| ==> s[i] == s[1..][i - 1];
      r
  }

  /** `normalizeTesterOrder`: the value of the first digit run, or `MAX_SAFE_INTEGER`. */
  function NormalizeTesterOrder(name: string): nat {
    match FirstDigitRun(name)
    case None => MaxSafeInteger
    case Some(d) => DigitsValue(d)
  }

  /** Skipping a digit-free head does not change the first digit run. */
  lemma {:induction false} FirstDigitRunSkips(p: string, s: string)
    requires forall i :: 0 <= i < |p| ==> !IsDigit(p[i])
    ensures FirstDigitRun(p + s) == FirstDigitRun(s)
  {
    if p != [] {
      assert (p + s)[0] == p[0] && !IsDigit(p[0]);
      assert (p + s)[1..] == p[1..] + s;
      assert forall i :: 0 <= i < |p[1..]| ==> p[1..][i] == p[i + 1];
      FirstDigitRunSkips(p[1..], s);
    } else {
      assert p + s == s;
    }
  }

  /** The digit run at the head of `d + t`, when `t` does not continue it, is `d`. */
  lemma {:induction false} LeadingDigitsStop(d: string, t: string)
    requires AllDigits(d)
    requires t == [] || !IsDigit(t[0])
    ensures LeadingDigits(d + t) == d
  {
    if d != [] {
      assert (d + t)[1..] == d[1..] + t;
      LeadingDigitsStop(d[1..], t);
    }
  }

  /** A name such as `"pa_tester-3"` is ordered by its number: the digits after a digit-free
      head are read back as the number they spell. */
  lemma NumberedNameOrder(p: string, n: nat, t: string)
    requires forall i :: 0 <= i < |p| ==> !IsDigit(p[i])
    requires t == [] || !IsDigit(t[0])
    ensures NormalizeTesterOrder(p + NatToString(n) + t) == n
  {
    var d := NatToString(n);
    assert p + d + t == p + (d + t);
    FirstDigitRunSkips(p, d + t);
    LeadingDigitsStop(d, t);
    NatToStringRoundTrip(n);
  }

  /** A name without digits sorts last, at `MAX_SAFE_INTEGER`. */
  lemma DigitFreeNameOrder(name: string)
    requires forall i :: 0 <= i < |name| ==> !IsDigit(name[i])
    ensures NormalizeTesterOrder(name) == MaxSafeInteger
  {
  }

  // ---------------------------------------------------------------------------
  // Labels

  predicate IsDash(c: char) {
    c == '_' || c == '-'
  }

  predicate NoDash(s: string) {
    forall i :: 0 <= i < |s| ==> !IsDash(s[i])
  }

  /** `replace(/[_-]+/g, " ")`: each maximal run of `_`/`-` becomes one space. */
  function CollapseDashes(s: string): (r: string)
    ensures |r| <= |s| && NoDash(r)
  {
    if s == [] then []
    else if IsDash(s[0]) then
      (if |s| > 1 && IsDash(s[1]) then CollapseDashes(s[1..]) else " " + CollapseDashes(s[1..]))
    else [s[0]] + CollapseDashes(s[1..])
  }

  /** A string with no dashes is left as it is. */
  lemma {:induction false} CollapseDashFree(s: string)
    requires NoDash(s)
    ensures CollapseDashes(s) == s
  {
    if s != [] {
      CollapseDashFree(s[1..]);
    }
  }

  /** A maximal run of dashes at the head becomes exactly one space. */
  lemma {:induction false} CollapseRunAtHead(d: string, b: string)
    requires d != [] && forall i :: 0 <= i < |d| ==> IsDash(d[i])
    requires b == [] || !IsDash(b[0])
    ensures CollapseDashes(d + b) == " " + CollapseDashes(b)
  {
    var s := d + b;
    assert s[1..] == d[1..] + b;
    if |d| > 1 {
      assert s[1] == d[1];
      CollapseRunAtHead(d[1..], b);
    } else {
      assert s[1..] == b;
    }
  }

  /** Each maximal run of dashes becomes exactly one space, and the text before it is kept. */
  lemma {:induction false} CollapseRun(a: string, d: string, b: string)
    requires NoDash(a)
    requires d != [] && forall i :: 0 <= i < |d| ==> IsDash(d[i])
    requires b == [] || !IsDash(b[0])
    ensures CollapseDashes(a + d + b) == a + " " + CollapseDashes(b)
  {
    if a == [] {
      assert a + d + b == d + b;
      CollapseRunAtHead(d, b);
    } else {
      var s := a + d + b;
      assert s[0] == a[0];
      assert s[1..] == a[1..] + d + b;
      CollapseRun(a[1..], d, b);
      assert a == [a[0]] + a[1..];
    }
  }

  /** A word character of `\w`. */
  predicate IsWordChar(c: char) {
    ('a' <= c <= 'z') || ('A' <= c <= 'Z') || IsDigit(c) || c == '_'
  }

  /** `toUpperCase` on one character; only ASCII letters are mapped here. */
  function UpperChar(c: char): char {
    if 'a' <= c <= 'z' then (c as int - 32) as char else c
  }

  /** Position `i` of `s` is at a word boundary followed by a word character (`\b\w`). */
  predicate WordStart(s: string, i: int)
    requires 0 <= i < |s|
  {
    IsWordChar(s[i]) && (i == 0 || !IsWordChar(s[i - 1]))
  }

  /** `replace(/\b\w/g, c => c.toUpperCase())`. */
  function Capitalize(s: string): (r: string)
    ensures |r| == |s|
  {
    seq(|s|, i requires 0 <= i < |s| => if WordStart(s, i) then UpperChar(s[i]) else s[i])
  }

  /** `formatOptionLabel`: underscores and dashes become spaces and each word is capitalised. */
  function FormatOptionLabel(value: string): string {
    Capitalize(CollapseDashes(value))
  }

  /** Capitalising changes only the case of word-initial letters: every word now starts with no
      lower-case letter, and lower-casing both gives the same string. */
  lemma CapitalizeOnlyChangesCase(s: string)
    ensures ToLower(Capitalize(s)) == ToLower(s)
    ensures forall i :: 0 <= i < |s| && WordStart(Capitalize(s), i) ==> !('a' <= Capitalize(s)[i] <= 'z')
    ensures forall i :: 0 <= i < |s| && !WordStart(s, i) ==> Capitalize(s)[i] == s[i]
  {
    var r := Capitalize(s);
    assert forall i :: 0 <= i < |s| ==> IsWordChar(r[i]) == IsWordChar(s[i]);
    assert forall i :: 0 <= i < |s| ==> ToLower(r)[i] == ToLower(s)[i];
  }

  /** Capitalising twice is capitalising once. */
  lemma CapitalizeIdempotent(s: string)
    ensures Capitalize(Capitalize(s)) == Capitalize(s)
  {
    var r := Capitalize(s);
    assert forall i :: 0 <= i < |s| ==> IsWordChar(r[i]) == IsWordChar(s[i]);
    assert forall i :: 0 <= i < |s| ==> WordStart(r, i) == WordStart(s, i);
  }

  /** A formatted label has no underscores or dashes, and formatting it again changes nothing. */
  lemma FormatOptionLabelIdempotent(value: string)
    ensures NoDash(FormatOptionLabel(value))
    ensures FormatOptionLabel(FormatOptionLabel(value)) == FormatOptionLabel(value)
  {
    var c := CollapseDashes(value);
    var r := Capitalize(c);
    assert forall i :: 0 <= i < |c| ==> r[i] == c[i] || r[i] == UpperChar(c[i]);
    assert NoDash(r);
    CollapseDashFree(r);
    CapitalizeIdempotent(c);
  }

  /** A name with no digit gives no digit when title-cased. */
  lemma TitleCaseDigitFree(name: string)
    requires forall i :: 0 <= i < |name| ==> !IsDigit(name[i])
    ensures forall i :: 0 <= i < |FormatOptionLabel(name)| ==> !IsDigit(FormatOptionLabel(name)[i])
  {
    DashCollapseDigitFree(name);
  }

  lemma {:induction false} DashCollapseDigitFree(s: string)
    requires forall i :: 0 <= i < |s| ==> !IsDigit(s[i])
    ensures forall i :: 0 <= i < |CollapseDashes(s)| ==> !IsDigit(CollapseDashes(s)[i])
  {
    if s != [] {
      DashCollapseDigitFree(s[1..]);
    }
  }

  /** `formatAttributeLabel` as written: `normalizeTesterOrder` never yields a non-finite value,
      so every slot is labelled `"Tester " + n`, with `MAX_SAFE_INTEGER` for a name without
      digits; the title-case fallback is never taken. */
  function FormatAttributeLabel(name: string): string {
    "Tester " + NatToString(NormalizeTesterOrder(name))
  }

  /** A slot whose name carries a number is labelled with that number. */
  lemma AttributeLabelOfNumbered(p: string, n: nat, t: string)
    requires forall i :: 0 <= i < |p| ==> !IsDigit(p[i])
    requires t == [] || !IsDigit(t[0])
    ensures FormatAttributeLabel(p + NatToString(n) + t) == "Tester " + NatToString(n)
  {
    NumberedNameOrder(p, n, t);
  }

  /** The dead fallback: a slot name without digits is labelled with `MAX_SAFE_INTEGER`, never
      with its title-cased name. */
  lemma AttributeLabelMissesTitleCase(name: string)
    requires forall i :: 0 <= i < |name| ==> !IsDigit(name[i])
    ensures FormatAttributeLabel(name) == "Tester " + NatToString(MaxSafeInteger)
    ensures FormatAttributeLabel(name) != FormatOptionLabel(name)
  {
    var shown := FormatAttributeLabel(name);
    TitleCaseDigitFree(name);
    assert IsDigit(shown[7]);
    if |FormatOptionLabel(name)| > 7 {
      assert !IsDigit(FormatOptionLabel(name)[7]);
    }
  }

  /** The evidently intended `formatAttributeLabel`: `"Tester " + n` for a numbered name, and
      the title-cased name when it holds no number. */
  function AttributeLabel(name: string): (r: string)
    ensures FirstDigitRun(name).Some? ==> r == FormatAttributeLabel(name)
  {
    match FirstDigitRun(name)
    case Some(d) => "Tester " + NatToString(DigitsValue(d))
    case None => FormatOptionLabel(name)
  }

  /** The corrected label names every numbered slot by its number and shows a name without
      numbers title-cased, without underscores or dashes. */
  lemma AttributeLabelIntended(p: string, n: nat, t: string, plain: string)
    requires forall i :: 0 <= i < |p| ==> !IsDigit(p[i])
    requires t == [] || !IsDigit(t[0])
    requires forall i :: 0 <= i < |plain| ==> !IsDigit(plain[i])
    ensures AttributeLabel(p + NatToString(n) + t) == "Tester " + NatToString(n)
    ensures AttributeLabel(plain) == FormatOptionLabel(plain) && NoDash(AttributeLabel(plain))
  {
    var d := NatToString(n);
    assert p + d + t == p + (d + t);
    FirstDigitRunSkips(p, d + t);
    AttributeLabelOfNumbered(p, n, t);
    FormatOptionLabelIdempotent(plain);
  }

  // ---------------------------------------------------------------------------
  // Ordering the tester slots

  /** A product attribute: its name and its options (which the backend may omit). */
  datatype Attribute = Attribute(name: string, options: Option<seq<string>>)

  /** `attr.options && attr.options.length > 0`. */
  predicate HasOptions(a: Attribute) {
    a.options.Some? && |a.options.value| > 0
  }

  /** `normalizeTesterOrder(attr.name)`, the sort key of a slot. */
  function OrderKey(): Attribute -> int {
    (a: Attribute) => NormalizeTesterOrder(a.name)
  }

  /** `testerAttributes`: the attributes with options, by ascending slot number. */
  function TesterAttributes(attributes: seq<Attribute>): seq<Attribute> {
    SortBy(OrderKey(), Filter(HasOptions, attributes))
  }

  /** The slots are exactly the attributes with options, each once per occurrence, in ascending
      slot order, with ties in their original order. */
  lemma TesterAttributesSpec(attributes: seq<Attribute>, k: int)
    ensures var slots := TesterAttributes(attributes);
      && SortedBy(OrderKey(), slots)
      && multiset(slots) == multiset(Filter(HasOptions, attributes))
      && (forall a :: a in slots <==> a in attributes && HasOptions(a))
      && Filter(KeyIs(OrderKey(), k), slots) == Filter(KeyIs(OrderKey(), k), Filter(HasOptions, attributes))
  {
    var kept := Filter(HasOptions, attributes);
    SortBySorted(OrderKey(), kept);
    SortByStable(OrderKey(), kept, k);
    forall a | a in attributes && HasOptions(a)
      ensures a in TesterAttributes(attributes)
    {
      FilterKeepsAll(HasOptions, attributes, a);
      assert a in multiset(kept);
    }
    forall a | a in TesterAttributes(attributes)
      ensures a in attributes && HasOptions(a)
    {
      assert a in multiset(TesterAttributes(attributes));
      assert a in kept;
    }
  }

  // ---------------------------------------------------------------------------
  // What the form shows and the selections it keeps

  /** The form renders a message when there are no slots, and otherwise one labelled select per
      slot. */
  datatype FormView = Unavailable | Slots(labels: seq<string>)

  function View(attributes: seq<Attribute>): (r: FormView)
    ensures r.Unavailable? <==> forall a :: a in attributes ==> !HasOptions(a)
    ensures r.Slots? ==> |r.labels| == |TesterAttributes(attributes)|
  {
    var slots := TesterAttributes(attributes);
    NoSlotsIff(attributes);
    if slots == [] then Unavailable
    else Slots(seq(|slots|, i requires 0 <= i < |slots| => FormatAttributeLabel(slots[i].name)))
  }

  /** There are no slots exactly when no attribute has options. */
  lemma NoSlotsIff(attributes: seq<Attribute>)
    ensures TesterAttributes(attributes) == [] <==> forall a :: a in attributes ==> !HasOptions(a)
  {
    var slots := TesterAttributes(attributes);
    TesterAttributesSpec(attributes, 0);
    if slots != [] {
      assert slots[0] in attributes && HasOptions(slots[0]);
    } else {
      assert forall a :: a in attributes && HasOptions(a) ==> a in slots;
    }
  }

  /** One empty choice per slot. */
  function Blank(n: nat): (r: seq<string>)
    ensures |r| == n && forall i :: 0 <= i < n ==> r[i] == ""
  {
    seq(n, i => "")
  }

  /** `prev.map((entry, i) => (i === index ? value : entry))`. */
  function Replaced(s: seq<string>, index: int, value: string): seq<string> {
    seq(|s|, i requires 0 <= i < |s| => if i == index then value else s[i])
  }

  /** Only the chosen slot changes, and an index outside the slots changes nothing. */
  lemma ReplacedIsUpdate(s: seq<string>, index: int, value: string)
    ensures 0 <= index < |s| ==> Replaced(s, index, value) == s[index := value]
    ensures !(0 <= index < |s|) ==> Replaced(s, index, value) == s
  {
  }

  /** `allSelected`: every slot holds a choice that is not blank. */
  predicate AllFilled(s: seq<string>) {
    forall i :: 0 <= i < |s| ==> Trim(s[i]) != []
  }

  /** A freshly reset form with at least one slot is not ready. When every other slot is
      filled, choosing a value for the remaining one makes the form ready exactly when that
      value is not blank; a choice outside the slots changes nothing. */
  lemma FillingSlots(n: nat, values: seq<string>, index: int, value: string)
    requires |values| == n
    ensures n > 0 ==> !AllFilled(Blank(n))
    ensures 0 <= index < n && (forall i :: 0 <= i < n && i != index ==> Trim(values[i]) != []) ==>
      (AllFilled(Replaced(values, index, value)) <==> Trim(value) != [])
    ensures !(0 <= index < n) ==> (AllFilled(Replaced(values, index, value)) <==> AllFilled(values))
  {
    if n > 0 {
      assert Trim(Blank(n)[0]) == [];
    }
    var r := Replaced(values, index, value);
    assert forall i :: 0 <= i < n ==> r[i] == if i == index then value else values[i];
    if 0 <= index < n {
      if AllFilled(r) {
        assert Trim(r[index]) != [];
      }
    } else {
      assert r == values;
    }
  }

  class SelectionForm {
    /** `testerAttributes`. */
    const slots: seq<Attribute>
    var selections: seq<string>

    constructor (attributes: seq<Attribute>)
      ensures slots == TesterAttributes(attributes)
      ensures selections == Blank(|slots|)
    {
      slots := TesterAttributes(attributes);
      selections := Blank(|TesterAttributes(attributes)|);
    }

    /** The effect that re-initialises the choices when the slots change. */
    method Reset()
      modifies this
      ensures selections == Blank(|slots|)
    {
      selections := Blank(|slots|);
    }

    /** `handleChange(index, value)`. */
    method HandleChange(index: int, value: string)
      modifies this
      ensures selections == Replaced(old(selections), index, value)
    {
      var next: seq<string> := [];
      var i := 0;
      while i < |selections|
        invariant 0 <= i <= |selections|
        invariant |next| == i
        invariant forall j :: 0 <= j < i ==> next[j] == if j == index then value else selections[j]
      {
        next := next + [if i == index then value else selections[i]];
        i := i + 1;
      }
      selections := next;
    }

    /** `allSelected`, which enables the add-to-cart button. */
    predicate AllSelected()
      reads this
    {
      AllFilled(selections)
    }
  }
}
