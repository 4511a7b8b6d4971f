/** `slugify` (shared/utils.py) and the item key both generators derive
    from a listing id, a product id and a title. */
module Slug {
  import opened Common
  import opened Text

  predicate IsAlnum(c: char) {
    IsAsciiUpper(c) || IsAsciiLower(c) || IsAsciiDigit(c)
  }

  /** The characters a slug may contain: `[a-z0-9_]`. */
  predicate IsSlugChar(c: char) {
    IsAsciiLower(c) || IsAsciiDigit(c) || c == '_'
  }

  /** No two adjacent underscores. */
  predicate NoDoubleUnderscore(s: string) {
    |s| < 2 || (!(s[0] == '_' && s[1] == '_') && NoDoubleUnderscore(s[1..]))
  }

  /** What `slugify` promises about its output. */
  predicate IsSlug(s: string) {
    && (forall i :: 0 <= i < |s| ==> IsSlugChar(s[i]))
    && (s != [] ==> s[0] != '_' && s[|s| - 1] != '_')
    && NoDoubleUnderscore(s)
  }

  /** The letters and digits of `s`, in order. */
  function Alnums(s: string): (r: string)
    ensures |r| <= |s|
  {
    if s == [] then []
    else if IsAlnum(s[0]) then [s[0]] + Alnums(s[1..])
    else Alnums(s[1..])
  }

  /** Length of the run of characters outside `[a-zA-Z0-9]` that starts `s`. */
  function SeparatorRun(s: string): (n: nat)
    ensures n <= |s|
    ensures forall i :: 0 <= i < n ==> !IsAlnum(s[i])
    ensures n < |s| ==> IsAlnum(s[n])
  {
    if s == [] || IsAlnum(s[0]) then 0 else 1 + SeparatorRun(s[1..])
  }

  /** `re.sub(r'[^a-zA-Z0-9]+', '_', s)`: every maximal run of other
      characters becomes one underscore. */
  function CollapseSeparators(s: string): (r: string)
    ensures |r| <= |s|
    decreases |s|
  {
    if s == [] then []
    else if IsAlnum(s[0]) then [s[0]] + CollapseSeparators(s[1..])
    else "_" + CollapseSeparators(s[SeparatorRun(s)..])
  }

  /** Collapsing leaves only letters, digits and single underscores, and a
      leading letter or digit stays in front. */
  lemma {:induction false} CollapseShape(s: string)
    ensures var r := CollapseSeparators(s);
      && Collapsed(r)
      && (s != [] && IsAlnum(s[0]) ==> r != [] && r[0] == s[0])
    decreases |s|
  {
    if s != [] {
      var r := CollapseSeparators(s);
      var n := if IsAlnum(s[0]) then 1 else SeparatorRun(s);
      var tail := CollapseSeparators(s[n..]);
      CollapseShape(s[n..]);
      assert r == [r[0]] + tail && r[1..] == tail;
      assert forall i :: 1 <= i < |r| ==> r[i] == tail[i - 1];
    }
  }

  /** Collapsing keeps every letter and digit, in order. */
  lemma {:induction false} CollapseKeepsAlnums(s: string)
    ensures Alnums(CollapseSeparators(s)) == Alnums(s)
    decreases |s|
  {
    if s != [] {
      if IsAlnum(s[0]) {
        CollapseKeepsAlnums(s[1..]);
      } else {
        var n := SeparatorRun(s);
        AlnumsOfSeparators(s, n);
        CollapseKeepsAlnums(s[n..]);
      }
    }
  }

  lemma {:induction false} AlnumsOfSeparators(s: string, n: nat)
    requires n <= |s|
    requires forall i :: 0 <= i < n ==> !IsAlnum(s[i])
    ensures Alnums(s) == Alnums(s[n..])
  {
    if n > 0 {
      AlnumsOfSeparators(s[1..], n - 1);
      assert s[1..][n - 1..] == s[n..];
    }
  }

  predicate IsUnderscore(c: char) { c == '_' }

  /** `slugify(text)`: separators collapsed to `_`, outer `_` stripped, then lowered. */
  function Slugify(text: string): string {
    Lower(StripUnderscores(CollapseSeparators(text)))
  }

  // ---------------------------------------------------------------------
  // Properties of Slugify
  // ---------------------------------------------------------------------

  /** Suffixes and prefixes of a string without `__` have none either. */
  lemma {:induction false} SuffixNoDouble(s: string, lo: nat)
    requires lo <= |s| && NoDoubleUnderscore(s)
    ensures NoDoubleUnderscore(s[lo..])
  {
    if lo > 0 {
      SuffixNoDouble(s[1..], lo - 1);
      assert s[1..][lo - 1..] == s[lo..];
    }
  }

  lemma {:induction false} PrefixNoDouble(s: string, hi: nat)
    requires hi <= |s| && NoDoubleUnderscore(s)
    ensures NoDoubleUnderscore(s[..hi])
  {
    if hi >= 2 {
      PrefixNoDouble(s[1..], hi - 1);
      assert s[..hi][1..] == s[1..][..hi - 1];
    }
  }

  /** Lowering letters never creates or removes an underscore. */
  lemma {:induction false} LowerNoDouble(s: string)
    requires NoDoubleUnderscore(s)
    ensures NoDoubleUnderscore(Lower(s))
  {
    if |s| >= 2 {
      LowerNoDouble(s[1..]);
      assert Lower(s)[1..] == Lower(s[1..]);
    }
  }

  /** Letters, digits and single underscores only. */
  predicate Collapsed(s: string) {
    (forall i :: 0 <= i < |s| ==> IsAlnum(s[i]) || s[i] == '_') && NoDoubleUnderscore(s)
  }

  /** `strip('_')`, as the slug pipeline applies it. */
  function StripUnderscores(c: string): string {
    TrimRight(TrimLeft(c, IsUnderscore), IsUnderscore)
  }

  lemma StripCharset(c: string)
    requires forall i :: 0 <= i < |c| ==> IsAlnum(c[i]) || c[i] == '_'
    ensures var t := StripUnderscores(c); forall i :: 0 <= i < |t| ==> IsAlnum(t[i]) || t[i] == '_'
  {
    var l := TrimLeft(c, IsUnderscore);
    var t := TrimRight(l, IsUnderscore);
    assert forall i :: 0 <= i < |t| ==> t[i] == l[i];
    assert forall i :: 0 <= i < |l| ==> l[i] == c[|c| - |l| + i];
  }

  lemma StripNoDouble(c: string)
    requires NoDoubleUnderscore(c)
    ensures NoDoubleUnderscore(StripUnderscores(c))
  {
    var l := TrimLeft(c, IsUnderscore);
    SuffixNoDouble(c, |c| - |l|);
    PrefixNoDouble(l, |TrimRight(l, IsUnderscore)|);
  }

  /** `strip('_')` keeps a collapsed string collapsed and clears its ends. */
  lemma StripShape(c: string)
    requires Collapsed(c)
    ensures var t := StripUnderscores(c);
      Collapsed(t) && (t != [] ==> t[0] != '_' && t[|t| - 1] != '_')
  {
    StripCharset(c);
    StripNoDouble(c);
  }

  /** Lowering a stripped collapsed string gives a slug. */
  lemma LowerShape(t: string)
    requires Collapsed(t) && (t != [] ==> t[0] != '_' && t[|t| - 1] != '_')
    ensures IsSlug(Lower(t))
  {
    LowerNoDouble(t);
    var r := Lower(t);
    forall i | 0 <= i < |r| ensures IsSlugChar(r[i]) && (r[i] == '_' <==> t[i] == '_') {
      assert IsAlnum(t[i]) || t[i] == '_';
    }
  }

  /** The output contains only `[a-z0-9_]`, no outer `_` and no `__`. */
  lemma SlugifyIsSlug(text: string)
    ensures IsSlug(Slugify(text))
  {
    var c := CollapseSeparators(text);
    CollapseShape(text);
    StripShape(c);
    LowerShape(StripUnderscores(c));
  }

  /** Lowering keeps the letters and digits, lowered. */
  lemma {:induction false} AlnumsOfLower(s: string)
    ensures Alnums(Lower(s)) == Lower(Alnums(s))
  {
    if s != [] {
      assert Lower(s) == [LowerChar(s[0])] + Lower(s[1..]);
      assert Lower(s)[1..] == Lower(s[1..]);
      AlnumsOfLower(s[1..]);
      if IsAlnum(s[0]) {
        assert Lower([s[0]] + Alnums(s[1..])) == [LowerChar(s[0])] + Lower(Alnums(s[1..]));
      }
    }
  }

  /** Dropping underscores from either end keeps the letters and digits. */
  lemma {:induction false} AlnumsOfTrimLeft(s: string)
    ensures Alnums(TrimLeft(s, IsUnderscore)) == Alnums(s)
    decreases |s|
  {
    if s != [] && IsUnderscore(s[0]) {
      AlnumsOfTrimLeft(s[1..]);
    }
  }

  lemma {:induction false} AlnumsOfTrimRight(s: string)
    ensures Alnums(TrimRight(s, IsUnderscore)) == Alnums(s)
    decreases |s|
  {
    if s != [] && IsUnderscore(s[|s| - 1]) {
      AlnumsOfTrimRight(s[..|s| - 1]);
      AlnumsSnoc(s[..|s| - 1], s[|s| - 1]);
      assert s[..|s| - 1] + [s[|s| - 1]] == s;
    }
  }

  lemma {:induction false} AlnumsSnoc(s: string, c: char)
    ensures Alnums(s + [c]) == Alnums(s) + (if IsAlnum(c) then [c] else [])
  {
    if s == [] {
      assert [] + [c] == [c];
    } else {
      assert (s + [c])[1..] == s[1..] + [c];
      AlnumsSnoc(s[1..], c);
    }
  }

  /** The letters and digits of the input survive, lowered and in order. */
  lemma SlugifyKeepsAlnums(text: string)
    ensures Alnums(Slugify(text)) == Lower(Alnums(text))
  {
    var c := CollapseSeparators(text);
    CollapseKeepsAlnums(text);
    AlnumsOfTrimLeft(c);
    AlnumsOfTrimRight(TrimLeft(c, IsUnderscore));
    AlnumsOfLower(TrimRight(TrimLeft(c, IsUnderscore), IsUnderscore));
  }

  /** A string of underscores only is stripped to nothing. */
  lemma {:induction false} TrimUnderscores(s: string)
    requires forall i :: 0 <= i < |s| ==> s[i] == '_'
    ensures TrimLeft(s, IsUnderscore) == []
  {
    if s != [] {
      TrimUnderscores(s[1..]);
    }
  }

  /** A string whose characters are letters, digits or `_` and that has no
      letter or digit is all underscores. */
  lemma {:induction false} NoAlnumsAllUnderscores(s: string)
    requires Collapsed(s)
    requires Alnums(s) == []
    ensures forall i :: 0 <= i < |s| ==> s[i] == '_'
  {
    if s != [] {
      NoAlnumsAllUnderscores(s[1..]);
      forall i | 1 <= i < |s|
        ensures s[i] == '_'
      {
        assert s[i] == s[1..][i - 1];
      }
    }
  }

  /** The slug is empty exactly when the input has no ASCII letter or digit. */
  lemma SlugifyEmpty(text: string)
    ensures Slugify(text) == [] <==> Alnums(text) == []
  {
    SlugifyKeepsAlnums(text);
    var c := CollapseSeparators(text);
    CollapseKeepsAlnums(text);
    CollapseShape(text);
    if Alnums(text) == [] {
      NoAlnumsAllUnderscores(c);
      TrimUnderscores(c);
      assert TrimRight([], IsUnderscore) == [];
    }
  }

  /** A slug is left unchanged by `slugify`. */
  lemma {:induction false} CollapseSlug(s: string)
    requires Collapsed(s) && (s != [] ==> s[|s| - 1] != '_')
    ensures CollapseSeparators(s) == s
    decreases |s|
  {
    if s != [] {
      var t := s[1..];
      assert Collapsed(t) by {
        forall i | 0 <= i < |t|
          ensures IsAlnum(t[i]) || t[i] == '_'
        {
          assert t[i] == s[i + 1];
        }
      }
      assert t != [] ==> t[|t| - 1] != '_' by {
        if t != [] { assert t[|t| - 1] == s[|s| - 1]; }
      }
      CollapseSlug(t);
      if IsAlnum(s[0]) {
        assert [s[0]] + t == s;
      } else {
        assert SeparatorRun(s) == 1 by {
          assert |s| > 1 && s[1] != '_';
          assert SeparatorRun(t) == 0;
        }
        assert "_" + t == s;
      }
    }
  }

  lemma {:induction false} LowerOfLower(s: string)
    requires forall i :: 0 <= i < |s| ==> !IsAsciiUpper(s[i])
    ensures Lower(s) == s
  {
    if s != [] {
      LowerOfLower(s[1..]);
    }
  }

  lemma SlugFixed(s: string)
    requires IsSlug(s)
    ensures Slugify(s) == s
  {
    CollapseSlug(s);
    assert TrimLeft(s, IsUnderscore) == s;
    assert TrimRight(s, IsUnderscore) == s;
    LowerOfLower(s);
  }

  /** `slugify` is idempotent. */
  lemma SlugifyIdempotent(text: string)
    ensures Slugify(Slugify(text)) == Slugify(text)
  {
    SlugifyIsSlug(text);
    SlugFixed(Slugify(text));
  }

  /** A run of letters and digits passes through unchanged. */
  lemma {:induction false} CollapseAlnumPrefix(p: string, s: string)
    requires forall i :: 0 <= i < |p| ==> IsAlnum(p[i])
    ensures CollapseSeparators(p + s) == p + CollapseSeparators(s)
  {
    if p != [] {
      var ps := p + s;
      assert ps[0] == p[0] && IsAlnum(ps[0]);
      assert ps[1..] == p[1..] + s;
      assert CollapseSeparators(ps) == [p[0]] + CollapseSeparators(p[1..] + s);
      CollapseAlnumPrefix(p[1..], s);
      assert [p[0]] + (p[1..] + CollapseSeparators(s)) == p + CollapseSeparators(s);
    } else {
      assert p + s == s;
    }
  }

  /** A run of separators up to the next letter or digit becomes one `_`. */
  lemma CollapseSeparatorPrefix(q: string, s: string)
    requires q != [] && forall i :: 0 <= i < |q| ==> !IsAlnum(q[i])
    requires s == [] || IsAlnum(s[0])
    ensures CollapseSeparators(q + s) == "_" + CollapseSeparators(s)
  {
    var qs := q + s;
    SeparatorRunPrefix(q, s);
    assert qs[|q|..] == s;
  }

  lemma {:induction false} SeparatorRunPrefix(q: string, s: string)
    requires forall i :: 0 <= i < |q| ==> !IsAlnum(q[i])
    requires s == [] || IsAlnum(s[0])
    ensures SeparatorRun(q + s) == |q|
  {
    if q != [] {
      assert (q + s)[1..] == q[1..] + s;
      SeparatorRunPrefix(q[1..], s);
    } else {
      assert q + s == s;
    }
  }

  lemma CollapseTwoWords(a: string, q: string, b: string, e: string)
    requires forall i :: 0 <= i < |a| ==> IsAlnum(a[i])
    requires b != [] && forall i :: 0 <= i < |b| ==> IsAlnum(b[i])
    requires q != [] && forall i :: 0 <= i < |q| ==> !IsAlnum(q[i])
    requires e != [] && forall i :: 0 <= i < |e| ==> !IsAlnum(e[i])
    ensures CollapseSeparators(a + q + b + e) == a + "_" + b + "_"
  {
    CollapseSeparatorPrefix(e, []);
    assert e + [] == e;
    CollapseAlnumPrefix(b, e);
    CollapseSeparatorPrefix(q, b + e);
    CollapseAlnumPrefix(a, q + (b + e));
    assert a + q + b + e == a + (q + (b + e));
    assert a + ("_" + (b + "_")) == a + "_" + b + "_";
  }

  lemma StripTwoWords(a: string, b: string)
    requires a != [] && a[0] != '_' && b != [] && b[|b| - 1] != '_'
    ensures StripUnderscores(a + "_" + b + "_") == a + "_" + b
  {
    var c := a + "_" + b + "_";
    var d := a + "_" + b;
    assert c[0] == a[0];
    assert TrimLeft(c, IsUnderscore) == c;
    assert c[|c| - 1] == '_' && c[..|c| - 1] == d;
    assert d[|d| - 1] == b[|b| - 1];
    assert TrimRight(d, IsUnderscore) == d;
  }

  lemma LowerAppend(x: string, y: string)
    ensures Lower(x + y) == Lower(x) + Lower(y)
  {
    var l := Lower(x + y);
    var r := Lower(x) + Lower(y);
    forall i | 0 <= i < |l| ensures l[i] == r[i] {
      if i < |x| {
        assert (x + y)[i] == x[i];
      } else {
        assert (x + y)[i] == y[i - |x|];
      }
    }
  }

  /** Two words separated and followed by separator runs, such as
      `"Wireless Mouse!!"`, give the two words lowered and joined by `_`. */
  lemma SlugifyTwoWords(a: string, q: string, b: string, e: string)
    requires a != [] && forall i :: 0 <= i < |a| ==> IsAlnum(a[i])
    requires b != [] && forall i :: 0 <= i < |b| ==> IsAlnum(b[i])
    requires q != [] && forall i :: 0 <= i < |q| ==> !IsAlnum(q[i])
    requires e != [] && forall i :: 0 <= i < |e| ==> !IsAlnum(e[i])
    ensures Slugify(a + q + b + e) == Lower(a) + "_" + Lower(b)
  {
    var c := CollapseSeparators(a + q + b + e);
    assert c == a + "_" + b + "_" by { CollapseTwoWords(a, q, b, e); }
    var d := StripUnderscores(c);
    assert d == a + "_" + b by {
      assert IsAlnum(a[0]) && IsAlnum(b[|b| - 1]);
      StripTwoWords(a, b);
    }
    assert Lower(d) == Lower(a) + "_" + Lower(b) by {
      LowerAppend(a + "_", b);
      LowerAppend(a, "_");
      assert Lower("_") == "_";
    }
  }

  /** `"!!!"` has no letter or digit and gives `""`. */
  lemma SlugifyPunctuationOnly()
    ensures Slugify("!!!") == ""
  {
    assert Alnums("!!!") == [];
    SlugifyEmpty("!!!");
  }

  // ---------------------------------------------------------------------
  // The item key
  // ---------------------------------------------------------------------

  /** `base = f"{lid}_{pid}" if lid and pid and lid != pid else slugify(title)`. */
  function ItemKey(listingId: Option<string>, productId: Option<string>, title: string): string {
    if Truthy(listingId) && Truthy(productId) && listingId != productId
    then listingId.value + "_" + productId.value
    else Slugify(title)
  }

  /** The key is the id pair exactly when both ids are given and differ;
      otherwise it is the title's slug. */
  lemma ItemKeyCases(listingId: Option<string>, productId: Option<string>, title: string)
    ensures Truthy(listingId) && Truthy(productId) && listingId.value != productId.value ==>
      var k := ItemKey(listingId, productId, title);
      && k == listingId.value + "_" + productId.value
      && StartsWith(k, listingId.value) && EndsWith(k, "_" + productId.value)
    ensures !(Truthy(listingId) && Truthy(productId) && listingId.value != productId.value) ==>
      ItemKey(listingId, productId, title) == Slugify(title) && IsSlug(ItemKey(listingId, productId, title))
  {
    if Truthy(listingId) && Truthy(productId) {
      var k := listingId.value + "_" + productId.value;
      assert k[..|listingId.value|] == listingId.value;
      assert k[|k| - |"_" + productId.value|..] == "_" + productId.value;
    }
    SlugifyIsSlug(title);
  }
}
