/** The static product catalog of App.tsx and the two views computed from
    it: the name search of the shop page and the "related products" strip
    of the detail page. */
module Catalog {
  import opened Types
  import opened Sequences

  /** The eight catalog entries, in display order. */
  const Products: seq<Product> := [
    Product(1, "Naruto Rasengan Figure | 19 CM", 2999, Figures, "https://picsum.photos/400/400?random=101", 49),
    Product(2, "Demon Slayer Mystery Box", 4999, MysteryBox, "https://picsum.photos/400/400?random=102", 48),
    Product(3, "Luffy Gear 5 T-Shirt", 2499, Apparel, "https://picsum.photos/400/400?random=103", 47),
    Product(4, "Zoro's Enma Katana Replica", 8999, Accessories, "https://picsum.photos/400/400?random=104", 49),
    Product(5, "Gojo Satoru Blindfold", 1499, Cosplay, "https://picsum.photos/400/400?random=105", 46),
    Product(6, "Attack on Titan Scout Cloak", 3499, Apparel, "https://picsum.photos/400/400?random=106", 48),
    Product(7, "Any Anime Mini Figure Set", 1999, Figures, "https://picsum.photos/400/400?random=107", 45),
    Product(8, "Akatsuki Cloud Ring", 999, Accessories, "https://picsum.photos/400/400?random=108", 44)
  ]

  /** The first four products, shown as "Trending" on the home page. */
  function Trending(): (r: seq<Product>)
    ensures |r| == 4 && IsSubsequence(r, Products)
    ensures forall i :: 0 <= i < 4 ==> r[i] == Products[i]
  {
    SubsequenceRefl(Products);
    SubsequenceTake(Products, Products, 4);
    Products[..4]
  }

  /** Product ids identify catalog entries. */
  predicate DistinctIds(ps: seq<Product>)
  {
    forall i, j :: 0 <= i < j < |ps| ==> ps[i].id != ps[j].id
  }

  lemma CatalogIdsDistinct()
    ensures DistinctIds(Products)
  {
  }

  // ---- ASCII lower-casing -------------------------------------------------

  function LowerChar(c: char): (r: char)
    ensures !('A' <= r <= 'Z')
    ensures 'A' <= c <= 'Z' ==> r as int == c as int + 32
    ensures !('A' <= c <= 'Z') ==> r == c
  {
    if 'A' <= c <= 'Z' then (c as int + 32) as char else c
  }

  /** `toLowerCase` restricted to ASCII letters. */
  function Lower(s: string): (r: string)
    ensures |r| == |s|
    ensures forall i :: 0 <= i < |s| ==> r[i] == LowerChar(s[i])
  {
    if s == [] then [] else [LowerChar(s[0])] + Lower(s[1..])
  }

  lemma {:induction false} LowerIdempotent(s: string)
    ensures Lower(Lower(s)) == Lower(s)
  {
    var l := Lower(s);
    assert forall i :: 0 <= i < |l| ==> LowerChar(l[i]) == l[i];
  }

  // ---- substring search ---------------------------------------------------

  /** `s.includes(q)`: `q` occurs in `s` at some position. */
  function Includes(s: string, q: string): (r: bool)
    ensures r <==> exists i :: 0 <= i <= |s| && q <= s[i..]
    decreases |s|
  {
    if q <= s then assert s[0..] == s; true
    else if s == [] then false
    else
      assert forall i :: 1 <= i <= |s| ==> s[i..] == s[1..][i - 1..];
      var rest := Includes(s[1..], q);
      assert rest ==> exists i :: 1 <= i <= |s| && q <= s[i..] by {
        if rest {
          var k :| 0 <= k <= |s| - 1 && q <= s[1..][k..];
          assert q <= s[k + 1..];
        }
      }
      rest
  }

  /** The shop page's search predicate: the lower-cased name contains the
      lower-cased query. */
  predicate NameMatches(p: Product, query: string)
  {
    Includes(Lower(p.name), Lower(query))
  }

  /** The name search over a list: the products whose name matches, in
      their order. */
  function FilterByName(ps: seq<Product>, query: string): (r: seq<Product>)
    ensures forall p :: p in r <==> p in ps && NameMatches(p, query)
    ensures |r| <= |ps|
  {
    if ps == [] then []
    else
      assert ps == [ps[0]] + ps[1..];
      var rest := FilterByName(ps[1..], query);
      if NameMatches(ps[0], query) then [ps[0]] + rest else rest
  }

  /** The products listed for the current search query. */
  function Filter(query: string): seq<Product>
  {
    FilterByName(Products, query)
  }

  lemma {:induction false} FilterIsSubsequence(ps: seq<Product>, query: string)
    ensures IsSubsequence(FilterByName(ps, query), ps)
  {
    if ps != [] {
      FilterIsSubsequence(ps[1..], query);
      var rest := FilterByName(ps[1..], query);
      if !NameMatches(ps[0], query) {
        SkipHead(rest, ps);
      }
    }
  }

  /** The empty query matches every name, so the whole list comes back. */
  lemma {:induction false} FilterEmptyQuery(ps: seq<Product>)
    ensures FilterByName(ps, "") == ps
  {
    if ps != [] {
      FilterEmptyQuery(ps[1..]);
      assert "" <= Lower(ps[0].name)[0..];
      assert NameMatches(ps[0], "");
    }
  }

  /** The result depends on the query only through its lower-cased form. */
  lemma {:induction false} FilterCaseInsensitive(ps: seq<Product>, q1: string, q2: string)
    requires Lower(q1) == Lower(q2)
    ensures FilterByName(ps, q1) == FilterByName(ps, q2)
  {
    if ps != [] {
      FilterCaseInsensitive(ps[1..], q1, q2);
    }
  }

  /** Searching for an upper-case or mixed-case query gives the same list as
      searching for its lower-case form. */
  lemma FilterIgnoresQueryCase(query: string)
    ensures Filter(query) == Filter(Lower(query))
  {
    LowerIdempotent(query);
    FilterCaseInsensitive(Products, query, Lower(query));
  }

  /** A query whose lower-cased form starts the lower-cased name matches. */
  lemma PrefixQueryMatches(p: Product, query: string)
    requires Lower(query) <= Lower(p.name)
    ensures NameMatches(p, query)
  {
    assert Lower(p.name)[0..] == Lower(p.name);
  }

  lemma LowerPrefix(s: string, n: nat)
    requires n <= |s|
    ensures Lower(s)[..n] == Lower(s[..n])
  {
  }

  lemma NarutoQueryFindsFigure()
    ensures Products[0] in Filter("naruto")
    ensures Products[0] in Filter("NARUTO")
  {
    var p := Products[0];
    assert p.name[..6] == "Naruto";
    LowerPrefix(p.name, 6);
    LowerOfLiterals();
    PrefixQueryMatches(p, "naruto");
    PrefixQueryMatches(p, "NARUTO");
  }

  lemma LowerOfLiterals()
    ensures Lower("Naruto") == "naruto"
    ensures Lower("naruto") == "naruto"
    ensures Lower("NARUTO") == "naruto"
  {
    assert forall i :: 0 <= i < 6 ==> LowerChar("Naruto"[i]) == "naruto"[i];
    assert forall i :: 0 <= i < 6 ==> LowerChar("NARUTO"[i]) == "naruto"[i];
    assert forall i :: 0 <= i < 6 ==> LowerChar("naruto"[i]) == "naruto"[i];
  }

  // ---- related products ---------------------------------------------------

  /** The products of the list with another id, in their order. */
  function WithoutId(ps: seq<Product>, id: int): (r: seq<Product>)
    ensures forall p :: p in r <==> p in ps && p.id != id
  {
    if ps == [] then []
    else
      assert ps == [ps[0]] + ps[1..];
      var rest := WithoutId(ps[1..], id);
      if ps[0].id != id then [ps[0]] + rest else rest
  }

  lemma {:induction false} WithoutIdIsSubsequence(ps: seq<Product>, id: int)
    ensures IsSubsequence(WithoutId(ps, id), ps)
  {
    if ps != [] {
      WithoutIdIsSubsequence(ps[1..], id);
      if ps[0].id == id {
        SkipHead(WithoutId(ps[1..], id), ps);
      }
    }
  }

  /** With distinct ids at most one entry is dropped. */
  lemma {:induction false} WithoutIdLength(ps: seq<Product>, id: int)
    requires DistinctIds(ps)
    ensures |WithoutId(ps, id)| >= |ps| - 1
  {
    if ps != [] {
      WithoutIdLength(ps[1..], id);
      if ps[0].id == id {
        WithoutIdKeepsAll(ps[1..], id);
      }
    }
  }

  lemma {:induction false} WithoutIdKeepsAll(ps: seq<Product>, id: int)
    requires forall i :: 0 <= i < |ps| ==> ps[i].id != id
    ensures WithoutId(ps, id) == ps
  {
    if ps != [] {
      WithoutIdKeepsAll(ps[1..], id);
    }
  }

  /** The related strip: the first four catalog products whose id is not
      the selected one. */
  function Related(id: int): seq<Product>
  {
    var others := WithoutId(Products, id);
    if |others| <= 4 then others else others[..4]
  }

  /** The related strip never shows the selected product, shows exactly four
      catalog entries, and keeps catalog order. */
  lemma RelatedProperties(id: int)
    ensures |Related(id)| == 4
    ensures forall p :: p in Related(id) ==> p.id != id && p in Products
    ensures IsSubsequence(Related(id), Products)
  {
    var others := WithoutId(Products, id);
    CatalogIdsDistinct();
    WithoutIdLength(Products, id);
    WithoutIdIsSubsequence(Products, id);
    SubsequenceTake(others, Products, 4);
    assert forall p :: p in others[..4] ==> p in others;
  }
}
