/** The wardrobe catalog shared by the outfit and capsule generators: the
    item record they both read, and the small sequence helpers both pages
    use (an optional value, a category filter, a bounded prefix, a
    no-repeat predicate). */
module Catalog {

  datatype Option<T> = None | Some(value: T)

  /** One confirmed wardrobe item, as the generators read it from the
      catalog. Every field is the free-form string the page stores. */
  datatype Item = Item(
    id: string,
    imageUrl: string,
    category: string,
    subcategory: string,
    color: string,
    silhouette: string,
    season: string)

  /** The outcome of reading a user's closet rows: an error, no data, or
      the rows. */
  datatype Query = QueryFailed | QueryNull | QueryRows(rows: seq<Item>)

  /** Some item has the category. */
  predicate HasCategory(items: seq<Item>, category: string)
  {
    exists k :: 0 <= k < |items| && items[k].category == category
  }

  /** The items of one category, in catalog order. */
  function OfCategory(items: seq<Item>, category: string): (r: seq<Item>)
    ensures |r| <= |items|
    ensures forall x :: x in r <==> x in items && x.category == category
  {
    if items == [] then []
    else
      var last := items[|items| - 1];
      var front := OfCategory(items[..|items| - 1], category);
      assert items == items[..|items| - 1] + [last];
      assert HasCategory(items[..|items| - 1], category) ==> HasCategory(items, category);
      if last.category == category then front + [last] else front
  }

  /** The filter finds something exactly when the catalog holds an item of
      the category. */
  lemma OfCategoryNonEmpty(items: seq<Item>, category: string)
    ensures HasCategory(items, category) <==> |OfCategory(items, category)| > 0
  {
    if HasCategory(items, category) {
      var k :| 0 <= k < |items| && items[k].category == category;
      assert items[k] in OfCategory(items, category);
    }
  }

  /** Filtering a catalog with one more item: the item joins the end of
      the result exactly when it has the category. */
  lemma OfCategorySnoc(items: seq<Item>, x: Item, category: string)
    ensures OfCategory(items + [x], category) ==
      OfCategory(items, category) + (if x.category == category then [x] else [])
  {
    assert (items + [x])[..|items|] == items;
  }

  /** The filter distributes over concatenation, so it keeps catalog order
      and every occurrence: the items of a category in `a` come before
      those in `b`. */
  lemma {:induction false} OfCategoryAppend(a: seq<Item>, b: seq<Item>, category: string)
    ensures OfCategory(a + b, category) == OfCategory(a, category) + OfCategory(b, category)
  {
    if b == [] {
      assert a + b == a;
    } else {
      var front, last := b[..|b| - 1], b[|b| - 1];
      var tail := if last.category == category then [last] else [];
      calc {
        OfCategory(a + b, category);
        { assert a + b == (a + front) + [last]; }
        OfCategory((a + front) + [last], category);
        { OfCategorySnoc(a + front, last, category); }
        OfCategory(a + front, category) + tail;
        { OfCategoryAppend(a, front, category); }
        OfCategory(a, category) + OfCategory(front, category) + tail;
        { OfCategorySnoc(front, last, category); assert front + [last] == b; }
        OfCategory(a, category) + OfCategory(b, category);
      }
    }
  }

  /** No element occurs twice. */
  predicate NoDuplicates<T(==)>(s: seq<T>)
  {
    forall i, j :: 0 <= i < j < |s| ==> s[i] != s[j]
  }

  /** A slice from the start with a non-negative bound: the first `n` elements, or
      all of them when there are fewer. */
  function Take<T>(s: seq<T>, n: nat): (r: seq<T>)
    ensures |r| == if |s| < n then |s| else n
    ensures forall k :: 0 <= k < |r| ==> r[k] == s[k]
  {
    if |s| <= n then s else s[..n]
  }

  /** Taking from a prefix that already has `n` elements gives what taking
      from the whole sequence gives. */
  lemma TakeOfExtension<T>(p: seq<T>, s: seq<T>, n: nat)
    requires p <= s && |p| >= n
    ensures Take(s, n) == Take(p, n)
  {
    assert s[..n] == p[..n];
  }

  /** Below the bound, taking is the identity and appending one element
      appends it to the prefix taken. */
  lemma TakeSnoc<T>(p: seq<T>, x: T, n: nat)
    requires |p| < n
    ensures Take(p, n) == p
    ensures Take(p + [x], n) == p + [x]
  {
  }
}
