/** The service catalog's client-side filtering (client/src/pages/Products.tsx): a
    category button and a free-text search select which products are shown. Strings
    are ASCII here, so lower-casing maps 'A'..'Z' to 'a'..'z' and leaves every other
    character alone. */
module Catalog {
  import opened Wrappers
  import opened Schema

  /** The category buttons, in display order; "all" is the initial filter. */
  const Categories: seq<string> := ["all", "saas", "hardware", "software", "service", "maintenance"]

  function LowerChar(c: char): char {
    if 'A' <= c <= 'Z' then (c as int + 32) as char else c
  }

  function UpperChar(c: char): char {
    if 'a' <= c <= 'z' then (c as int - 32) as char else c
  }

  /** `toLowerCase`, restricted to ASCII. */
  function Lower(s: string): string {
    seq(|s|, i requires 0 <= i < |s| => LowerChar(s[i]))
  }

  /** `toUpperCase`, restricted to ASCII. */
  function Upper(s: string): string {
    seq(|s|, i requires 0 <= i < |s| => UpperChar(s[i]))
  }

  /** Lower-casing forgets every case distinction that upper-casing introduces. */
  lemma LowerOfUpper(s: string)
    ensures Lower(Upper(s)) == Lower(s)
  {
    forall i | 0 <= i < |s| ensures Lower(Upper(s))[i] == Lower(s)[i] {
      var c := s[i];
      if 'a' <= c <= 'z' {
        assert UpperChar(c) == (c as int - 32) as char;
      }
    }
  }

  /** `needle` occurs in `hay` starting at position `i`. */
  predicate OccursAt(needle: string, hay: string, i: int) {
    0 <= i && i + |needle| <= |hay| && hay[i..i + |needle|] == needle
  }

  /** `needle` occurs in `hay` at some position. */
  ghost predicate IsSubstring(needle: string, hay: string) {
    exists i :: OccursAt(needle, hay, i)
  }

  /** `hay.includes(needle)`: a scan over the start positions of `hay`. */
  function Includes(hay: string, needle: string): (r: bool)
    ensures r <==> IsSubstring(needle, hay)
    decreases |hay|
  {
    if |needle| > |hay| then false
    else if hay[..|needle|] == needle then
      assert OccursAt(needle, hay, 0);
      true
    else
      var r := Includes(hay[1..], needle);
      IncludesStep(hay, needle);
      r
  }

  /** A needle that is not a prefix of `hay` occurs in `hay` exactly when it occurs
      in `hay[1..]`. */
  lemma IncludesStep(hay: string, needle: string)
    requires |needle| <= |hay| && hay[..|needle|] != needle
    ensures IsSubstring(needle, hay) <==> IsSubstring(needle, hay[1..])
  {
    if IsSubstring(needle, hay) {
      var i :| OccursAt(needle, hay, i);
      assert i != 0;
      assert hay[1..][i - 1..i - 1 + |needle|] == hay[i..i + |needle|];
      assert OccursAt(needle, hay[1..], i - 1);
    }
    if IsSubstring(needle, hay[1..]) {
      var j :| OccursAt(needle, hay[1..], j);
      assert hay[j + 1..j + 1 + |needle|] == hay[1..][j..j + |needle|];
      assert OccursAt(needle, hay, j + 1);
    }
  }

  /** `filter === "all" || product.category === filter`. */
  predicate MatchesCategory(filter: string, p: Product) {
    filter == "all" || p.category == filter
  }

  /** Case-insensitive substring search over the name and the description. */
  predicate MatchesSearch(search: string, p: Product) {
    Includes(Lower(p.name), Lower(search)) || Includes(Lower(p.description), Lower(search))
  }

  predicate Shown(filter: string, search: string, p: Product) {
    MatchesCategory(filter, p) && MatchesSearch(search, p)
  }

  /** `products.filter(...)`: the products that pass both tests, in list order.
      Nothing else is kept and nothing that passes is dropped. */
  function FilterList(products: seq<Product>, filter: string, search: string): (r: seq<Product>)
    ensures |r| <= |products|
    ensures forall p :: p in r ==> p in products && Shown(filter, search, p)
    ensures forall p :: p in products && Shown(filter, search, p) ==> p in r
    // duplicates are kept: every passing product as often as in the input, others never
    ensures forall p :: multiset(r)[p] == if Shown(filter, search, p) then multiset(products)[p] else 0
  {
    if products == [] then []
    else
      var rest := FilterList(products[1..], filter, search);
      assert products == [products[0]] + products[1..];
      if Shown(filter, search, products[0]) then [products[0]] + rest else rest
  }

  /** `products?.filter(...)`: nothing is shown while the list is still loading. */
  function FilteredProducts(products: Option<seq<Product>>, filter: string, search: string)
    : (r: Option<seq<Product>>)
    ensures r.None? <==> products.None?
    ensures r.Some? ==> r.value == FilterList(products.value, filter, search)
  {
    match products
    case None => None
    case Some(ps) => Some(FilterList(ps, filter, search))
  }

  /** `xs` is `ys` with some elements removed, the rest kept in order. */
  ghost predicate Subsequence<T>(xs: seq<T>, ys: seq<T>)
    decreases |ys|
  {
    if xs == [] then true
    else if ys == [] then false
    else (xs[0] == ys[0] && Subsequence(xs[1..], ys[1..])) || Subsequence(xs, ys[1..])
  }

  /** The shown products are input products in their original order. */
  lemma {:induction false} FilterIsSubsequence(products: seq<Product>, filter: string, search: string)
    ensures Subsequence(FilterList(products, filter, search), products)
  {
    if products != [] {
      FilterIsSubsequence(products[1..], filter, search);
      var r := FilterList(products, filter, search);
      var rest := FilterList(products[1..], filter, search);
      if Shown(filter, search, products[0]) {
        assert r[0] == products[0] && r[1..] == rest;
      } else {
        assert r == rest;
      }
    }
  }

  /** What a shown product is, in the terms of the page: its category equals the
      filter exactly (case-sensitive) unless the filter is "all", and the lower-cased
      search text occurs in its lower-cased name or description. */
  lemma ShownMeaning(products: seq<Product>, filter: string, search: string, p: Product)
    ensures p in FilterList(products, filter, search) <==>
      && p in products
      && (filter == "all" || p.category == filter)
      && (IsSubstring(Lower(search), Lower(p.name))
          || IsSubstring(Lower(search), Lower(p.description)))
  {
  }

  /** The empty search text occurs in every product. */
  lemma EmptySearchMatches(p: Product)
    ensures MatchesSearch("", p)
  {
    assert Lower("") == "";
  }

  /** In the initial state (filter "all", empty search) the whole list is shown. */
  lemma {:induction false} InitialStateShowsAll(products: seq<Product>)
    ensures FilterList(products, "all", "") == products
  {
    if products != [] {
      InitialStateShowsAll(products[1..]);
      EmptySearchMatches(products[0]);
      assert [products[0]] + products[1..] == products;
    }
  }

  /** With filter "all" only the search decides, and every category passes. */
  lemma AllFilterIgnoresCategory(products: seq<Product>, search: string)
    ensures forall p :: p in products ==>
      (p in FilterList(products, "all", search) <==> MatchesSearch(search, p))
  {
  }

  /** Searching is case-insensitive: an upper-cased search shows the same products. */
  lemma {:induction false} SearchIgnoresCase(products: seq<Product>, filter: string, search: string)
    ensures FilterList(products, filter, Upper(search)) == FilterList(products, filter, search)
  {
    LowerOfUpper(search);
    if products != [] {
      SearchIgnoresCase(products[1..], filter, search);
      assert Shown(filter, Upper(search), products[0]) == Shown(filter, search, products[0]);
    }
  }
}
