/** `formatPrice`: cleaning the HTML entity `&nbsp;` out of a WooCommerce price string. */
module Utils {
  import opened Strings

  /** The non-breaking-space entity WooCommerce puts between currency symbol and amount. */
  const Nbsp: string := "&nbsp;"

  /** `s.replace(/&nbsp;/g, " ")`: scan left to right, replacing each non-overlapping
      occurrence of the entity by one space. */
  function ReplaceNbsp(s: string): (r: string)
    ensures |r| <= |s|
    decreases |s|
  {
    if s == [] then []
    else if StartsWith(s, Nbsp) then " " + ReplaceNbsp(s[|Nbsp|..])
    else [s[0]] + ReplaceNbsp(s[1..])
  }

  /** `formatPrice(price)`: the empty string stays empty; otherwise every `&nbsp;` becomes a space. */
  function FormatPrice(price: string): (r: string)
    ensures price == "" ==> r == ""
    ensures |r| <= |price|
    ensures !Contains(r, Nbsp)
  {
    NoEntityLeft(price);
    if price == "" then "" else ReplaceNbsp(price)
  }

  /** A string without the entity is returned unchanged. */
  lemma {:induction false} ReplaceWithoutEntity(s: string)
    requires !Contains(s, Nbsp)
    ensures ReplaceNbsp(s) == s
  {
    if s != [] {
      ReplaceWithoutEntity(s[1..]);
    }
  }

  /** Each occurrence of the entity becomes exactly one space, and the text around it is
      cleaned independently: the entity has no proper prefix that is also a suffix, so no
      match can straddle the boundary. */
  lemma {:induction false} ReplaceAroundEntity(a: string, b: string)
    ensures ReplaceNbsp(a + Nbsp + b) == ReplaceNbsp(a) + " " + ReplaceNbsp(b)
    decreases |a|
  {
    var s := a + Nbsp + b;
    if a == [] {
      assert s == Nbsp + b;
      assert s[|Nbsp|..] == b;
    } else {
      MatchAtHead(a, b);
      var k := if StartsWith(a, Nbsp) then |Nbsp| else 1;
      var head := if StartsWith(a, Nbsp) then " " else [a[0]];
      assert s[0] == a[0];
      assert s[k..] == a[k..] + Nbsp + b;
      ReplaceStep(s);
      ReplaceStep(a);
      ReplaceAroundEntity(a[k..], b);
      ConcatAssoc(head, ReplaceNbsp(a[k..]), ReplaceNbsp(b));
    }
  }

  /** One step of the scan: the entity or the first character, then the rest. */
  lemma ReplaceStep(t: string)
    requires t != []
    ensures var k := if StartsWith(t, Nbsp) then |Nbsp| else 1;
      k <= |t| && ReplaceNbsp(t) == (if StartsWith(t, Nbsp) then " " else [t[0]]) + ReplaceNbsp(t[k..])
  {
  }

  lemma ConcatAssoc(head: string, ra: string, rb: string)
    ensures head + (ra + " " + rb) == (head + ra) + " " + rb
  {
  }

  /** In `a + "&nbsp;" + b` with `a` non-empty, a match at the head lies wholly inside `a`. */
  lemma MatchAtHead(a: string, b: string)
    requires a != []
    ensures StartsWith(a + Nbsp + b, Nbsp) <==> StartsWith(a, Nbsp)
  {
    var s := a + Nbsp + b;
    if |a| < |Nbsp| {
      assert s[|a|] == '&';
      assert Nbsp[|a|] != '&';
    } else {
      assert s[..|Nbsp|] == a[..|Nbsp|];
    }
  }

  /** If the cleaned string starts with `p`, and `p` holds neither `&` nor a space, the
      original started with `p` too: cleaning only rewrites text from an `&` onwards. */
  lemma {:induction false} CleanedPrefix(t: string, p: string)
    requires '&' !in p && ' ' !in p
    requires StartsWith(ReplaceNbsp(t), p)
    ensures StartsWith(t, p)
    decreases |p|
  {
    if p != [] {
      var r := ReplaceNbsp(t);
      assert r[0] == p[0];
      assert !StartsWith(t, Nbsp);
      assert r == [t[0]] + ReplaceNbsp(t[1..]);
      assert p[1..] == r[1..|p|];
      CleanedPrefix(t[1..], p[1..]);
      assert t[..|p|] == [t[0]] + t[1..][..|p| - 1];
    }
  }

  /** The cleaned string holds no `&nbsp;` at all, so cleaning twice changes nothing. */
  lemma {:induction false} NoEntityLeft(s: string)
    ensures !Contains(ReplaceNbsp(s), Nbsp)
    decreases |s|
  {
    if s != [] {
      var r := ReplaceNbsp(s);
      if StartsWith(s, Nbsp) {
        NoEntityLeft(s[|Nbsp|..]);
        assert r[1..] == ReplaceNbsp(s[|Nbsp|..]);
        assert r[0] == ' ';
      } else {
        var rest := ReplaceNbsp(s[1..]);
        NoEntityLeft(s[1..]);
        assert r == [s[0]] + rest;
        assert StartsWith(r, Nbsp) ==> s[0] == '&' && StartsWith(rest, "nbsp;") by {
          if StartsWith(r, Nbsp) {
            assert r[..6] == Nbsp;
            assert r[0] == s[0];
            assert rest[..5] == r[1..6] == Nbsp[1..];
          }
        }
        if s[0] == '&' && StartsWith(rest, "nbsp;") {
          assert s[..|Nbsp|] == [s[0]] + s[1..][..5];
          CleanedPrefix(s[1..], "nbsp;");
        }
      }
    }
  }

  /** `formatPrice` is idempotent. */
  lemma FormatPriceIdempotent(price: string)
    ensures FormatPrice(FormatPrice(price)) == FormatPrice(price)
  {
    var once := FormatPrice(price);
    if once != "" {
      ReplaceWithoutEntity(once);
    }
  }
}
