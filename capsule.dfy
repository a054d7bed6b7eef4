/** The capsule page: every closet item is kept, and "gaps" (items worth
    buying) are suggested from how many items each category holds. */
module Capsule {
  import opened Catalog

  /** A suggested purchase: what to buy and why. */
  datatype GapSpec = GapSpec(category: string, color: string, silhouette: string, reason: string)

  /** The categories the gap loop visits, in the order it visits them. */
  const CategoryPriority: seq<string> := ["top", "bottom", "dress", "outerwear", "shoes", "bag", "accessory"]

  /** At most this many gaps are shown and saved. */
  const MaxGaps: nat := 6

  /** The fewest closet items the capsule page generates from. */
  const MinItems: nat := 8

  // ---------------------------------------------------------------------
  // Category counts
  // ---------------------------------------------------------------------

  /** The number of items of one category. */
  function CountIn(items: seq<Item>, category: string): nat
  {
    if items == [] then 0
    else
      CountIn(items[..|items| - 1], category) + (if items[|items| - 1].category == category then 1 else 0)
  }

  lemma CountInSnoc(items: seq<Item>, x: Item, category: string)
    ensures CountIn(items + [x], category) == CountIn(items, category) + (if x.category == category then 1 else 0)
  {
    assert (items + [x])[..|items|] == items;
  }

  /** A category counts an item exactly when some item has it. */
  lemma {:induction false} CountInPositive(items: seq<Item>, category: string)
    ensures CountIn(items, category) > 0 <==> HasCategory(items, category)
  {
    if items != [] {
      var front := items[..|items| - 1];
      CountInPositive(front, category);
      if HasCategory(front, category) {
        var k :| 0 <= k < |front| && front[k].category == category;
        assert items[k].category == category;
      }
      if HasCategory(items, category) && items[|items| - 1].category != category {
        var k :| 0 <= k < |items| && items[k].category == category;
        assert front[k].category == category;
      }
    }
  }

  /** A category with no entry in the counts reads as zero. */
  function Lookup(counts: map<string, nat>, category: string): nat
  {
    if category in counts then counts[category] else 0
  }

  /** The tally of items by category: a key is present exactly
      for the categories that occur, and holds their number. */
  method CountCategories(allItems: seq<Item>) returns (counts: map<string, nat>)
    ensures forall c :: Lookup(counts, c) == CountIn(allItems, c)
    ensures forall c :: c in counts <==> CountIn(allItems, c) > 0
  {
    counts := map[];
    for k := 0 to |allItems|
      invariant forall c :: Lookup(counts, c) == CountIn(allItems[..k], c)
      invariant forall c :: c in counts <==> CountIn(allItems[..k], c) > 0
    {
      var category := allItems[k].category;
      counts := counts[category := Lookup(counts, category) + 1];
      assert allItems[..k + 1] == allItems[..k] + [allItems[k]];
      forall c ensures CountIn(allItems[..k + 1], c) == CountIn(allItems[..k], c) + (if c == category then 1 else 0) {
        CountInSnoc(allItems[..k], allItems[k], c);
      }
    }
    assert allItems[..|allItems|] == allItems;
  }

  // ---------------------------------------------------------------------
  // The gap list
  // ---------------------------------------------------------------------

  /** The gap for a category the closet lacks: a black trouser for
      bottoms, a neutral piece otherwise. */
  function MissingGap(category: string): GapSpec
  {
    GapSpec(category, if category == "bottom" then "black" else "neutral", "straight",
      "A " + (if category == "bottom" then "black trouser" else category) + " would unlock 5+ outfit combinations")
  }

  /** The gap for a category with a single item: blue straight bottoms, a
      neutral fitted piece otherwise. */
  function SecondGap(category: string): GapSpec
  {
    GapSpec(category, if category == "bottom" then "blue" else "neutral",
      if category == "bottom" then "straight" else "fitted",
      "An additional " + category + " would create more outfit variety")
  }

  /** What the two gaps look like: the missing gap is black straight
      trousers for bottoms and a neutral straight piece otherwise; the
      second-item gap is blue straight bottoms and a neutral fitted piece
      otherwise. Both name their category. */
  lemma GapShapes(category: string)
    ensures MissingGap(category).category == category && MissingGap(category).silhouette == "straight"
    ensures MissingGap(category).color == if category == "bottom" then "black" else "neutral"
    ensures SecondGap(category).category == category
    ensures category == "bottom" ==> SecondGap(category).color == "blue" && SecondGap(category).silhouette == "straight"
    ensures category != "bottom" ==> SecondGap(category).color == "neutral" && SecondGap(category).silhouette == "fitted"
    ensures SecondGap(category).reason == "An additional " + category + " would create more outfit variety"
  {
  }

  /** What one turn of the priority loop suggests for a category of
      `count` items. */
  function GapFor(category: string, count: nat): (r: Option<GapSpec>)
    ensures r.Some? <==> count == 0 || (count == 1 && category != "accessory")
    ensures r.Some? ==> r.value.category == category
    ensures count == 0 ==> r == Some(MissingGap(category))
    ensures count == 1 && category != "accessory" ==> r == Some(SecondGap(category))
  {
    if count == 0 then Some(MissingGap(category))
    else if count == 1 && category != "accessory" then Some(SecondGap(category))
    else None
  }

  function OptionToSeq(o: Option<GapSpec>): seq<GapSpec>
  {
    if o.Some? then [o.value] else []
  }

  /** The gaps the priority loop suggests for `cats`, in their order. */
  function PriorityGaps(items: seq<Item>, cats: seq<string>): seq<GapSpec>
  {
    if cats == [] then []
    else
      var category := cats[|cats| - 1];
      PriorityGaps(items, cats[..|cats| - 1]) + OptionToSeq(GapFor(category, CountIn(items, category)))
  }

  const BlazerGap: GapSpec := GapSpec("outerwear", "neutral", "fitted", "A neutral blazer would create 8+ professional looks")
  const BagGap: GapSpec := GapSpec("bag", "black", "medium", "A versatile bag would complete your daily looks")

  /** The two strategic gaps appended after the loop. */
  function ExtraGaps(items: seq<Item>): seq<GapSpec>
  {
    (if CountIn(items, "outerwear") == 0 then [BlazerGap] else []) +
    (if CountIn(items, "bag") == 0 then [BagGap] else [])
  }

  /** Every gap before the cut to six. */
  function AllGaps(items: seq<Item>): seq<GapSpec>
  {
    PriorityGaps(items, CategoryPriority) + ExtraGaps(items)
  }

  /** `generateCapsule`: the items unchanged, and the gaps counted, pushed
      in priority order, extended by the strategic ones and cut to six. */
  method GenerateCapsule(allItems: seq<Item>) returns (selectedItems: seq<Item>, gapSpecs: seq<GapSpec>)
    ensures selectedItems == allItems
    ensures gapSpecs == Take(AllGaps(allItems), MaxGaps)
    ensures |gapSpecs| <= MaxGaps && gapSpecs <= AllGaps(allItems)
  {
    selectedItems := allItems;
    var gaps: seq<GapSpec> := [];
    var categoryCounts := CountCategories(allItems);
    for i := 0 to |CategoryPriority|
      invariant gaps == PriorityGaps(allItems, CategoryPriority[..i])
    {
      var category := CategoryPriority[i];
      var count := Lookup(categoryCounts, category);
      assert count == CountIn(allItems, category);
      if count == 0 {
        gaps := gaps + [MissingGap(category)];
      } else if count == 1 && category != "accessory" {
        gaps := gaps + [SecondGap(category)];
      }
      PriorityGapsSnoc(allItems, CategoryPriority, i);
    }
    assert CategoryPriority[..|CategoryPriority|] == CategoryPriority;
    assert gaps == PriorityGaps(allItems, CategoryPriority);
    if Lookup(categoryCounts, "outerwear") == 0 {
      gaps := gaps + [BlazerGap];
    }
    if Lookup(categoryCounts, "bag") == 0 {
      gaps := gaps + [BagGap];
    }
    assert gaps == AllGaps(allItems);
    gapSpecs := Take(gaps, MaxGaps);
  }

  // ---------------------------------------------------------------------
  // What the gap list promises
  // ---------------------------------------------------------------------

  /** One more turn of the loop over a prefix of `cats`. */
  lemma PriorityGapsSnoc(items: seq<Item>, cats: seq<string>, i: nat)
    requires i < |cats|
    ensures PriorityGaps(items, cats[..i + 1]) ==
      PriorityGaps(items, cats[..i]) + OptionToSeq(GapFor(cats[i], CountIn(items, cats[i])))
  {
    assert cats[..i + 1][..i] == cats[..i];
  }

  /** The gap suggested for a category of `cats`, when there is one. */
  predicate SuggestedFor(items: seq<Item>, cats: seq<string>, g: GapSpec)
  {
    exists i :: 0 <= i < |cats| && GapFor(cats[i], CountIn(items, cats[i])) == Some(g)
  }

  /** A gap comes from the loop exactly when some listed category's count
      calls for it. */
  lemma {:induction false} PriorityGapsMembership(items: seq<Item>, cats: seq<string>, g: GapSpec)
    ensures g in PriorityGaps(items, cats) <==> SuggestedFor(items, cats, g)
  {
    if cats != [] {
      var n := |cats| - 1;
      var front := cats[..n];
      PriorityGapsMembership(items, front, g);
      assert cats == cats[..n + 1];
      PriorityGapsSnoc(items, cats, n);
      if SuggestedFor(items, front, g) {
        var i :| 0 <= i < |front| && GapFor(front[i], CountIn(items, front[i])) == Some(g);
        assert cats[i] == front[i];
      }
      if SuggestedFor(items, cats, g) && !(g in OptionToSeq(GapFor(cats[n], CountIn(items, cats[n])))) {
        var i :| 0 <= i < |cats| && GapFor(cats[i], CountIn(items, cats[i])) == Some(g);
        assert i < n && front[i] == cats[i];
      }
    }
  }

  /** The loop's gaps depend only on the counts of the categories it
      visits. */
  lemma {:induction false} PriorityGapsSameCounts(a: seq<Item>, b: seq<Item>, cats: seq<string>)
    requires forall i :: 0 <= i < |cats| ==> CountIn(a, cats[i]) == CountIn(b, cats[i])
    ensures PriorityGaps(a, cats) == PriorityGaps(b, cats)
  {
    if cats != [] {
      var front := cats[..|cats| - 1];
      assert forall i :: 0 <= i < |front| ==> front[i] == cats[i];
      PriorityGapsSameCounts(a, b, front);
    }
  }

  /** Two closets with the same number of items in each listed category
      get the same gaps: nothing else is read. */
  lemma AllGapsDependOnlyOnPriorityCounts(a: seq<Item>, b: seq<Item>)
    requires forall c :: c in CategoryPriority ==> CountIn(a, c) == CountIn(b, c)
    ensures AllGaps(a) == AllGaps(b)
  {
    PriorityGapsSameCounts(a, b, CategoryPriority);
    assert "outerwear" in CategoryPriority && "bag" in CategoryPriority;
  }

  /** An item of a category outside the priority list is counted but never
      changes the suggestions. */
  lemma UnlistedCategoryIgnored(items: seq<Item>, x: Item)
    requires x.category !in CategoryPriority
    ensures AllGaps(items + [x]) == AllGaps(items)
  {
    forall c | c in CategoryPriority ensures CountIn(items + [x], c) == CountIn(items, c) {
      CountInSnoc(items, x, c);
    }
    AllGapsDependOnlyOnPriorityCounts(items + [x], items);
  }

  /** Every gap names a listed category with at most one item. */
  lemma GapsAreForScarceCategories(items: seq<Item>, g: GapSpec)
    requires g in AllGaps(items)
    ensures g.category in CategoryPriority && CountIn(items, g.category) <= 1
  {
    if g in PriorityGaps(items, CategoryPriority) {
      PriorityGapsMembership(items, CategoryPriority, g);
    } else {
      assert g in ExtraGaps(items);
    }
  }

  /** A closet needs no gap exactly when it has at least one accessory and
      at least two items of every other listed category. */
  lemma NoGapsIff(items: seq<Item>)
    ensures AllGaps(items) == [] <==>
      CountIn(items, "accessory") >= 1 &&
      forall c :: c in CategoryPriority && c != "accessory" ==> CountIn(items, c) >= 2
  {
    var full := CountIn(items, "accessory") >= 1 &&
      forall c :: c in CategoryPriority && c != "accessory" ==> CountIn(items, c) >= 2;
    if full {
      if PriorityGaps(items, CategoryPriority) != [] {
        var g := PriorityGaps(items, CategoryPriority)[0];
        PriorityGapsMembership(items, CategoryPriority, g);
      }
      assert "outerwear" in CategoryPriority && "bag" in CategoryPriority;
    } else if CountIn(items, "accessory") == 0 {
      PriorityGapsMembership(items, CategoryPriority, MissingGap("accessory"));
      assert CategoryPriority[6] == "accessory";
    } else {
      var c :| c in CategoryPriority && c != "accessory" && CountIn(items, c) < 2;
      var i :| 0 <= i < |CategoryPriority| && CategoryPriority[i] == c;
      var g := GapFor(c, CountIn(items, c));
      PriorityGapsMembership(items, CategoryPriority, g.value);
    }
  }

  /** A closet without outerwear gets two outerwear gaps, one from the loop
      and the blazer; likewise two bag gaps without a bag. Neither is
      dropped as a duplicate. */
  lemma DuplicateGapsKept(items: seq<Item>, category: string)
    requires category == "outerwear" || category == "bag"
    requires CountIn(items, category) == 0
    ensures var g := AllGaps(items);
      exists i, j :: 0 <= i < j < |g| && g[i].category == category && g[j].category == category
  {
    var p := PriorityGaps(items, CategoryPriority);
    var g := AllGaps(items);
    assert category == CategoryPriority[if category == "outerwear" then 3 else 5];
    PriorityGapsMembership(items, CategoryPriority, MissingGap(category));
    var i :| 0 <= i < |p| && p[i] == MissingGap(category);
    var j := if category == "outerwear" then |p| else |g| - 1;
    assert g[i] == p[i];
    assert g[j].category == category;
  }

  /** When the loop suggests at most four gaps, the cut to six keeps the
      whole list, so both gaps of a missing outerwear or bag are shown. */
  lemma DuplicateGapsShown(items: seq<Item>, category: string)
    requires category == "outerwear" || category == "bag"
    requires CountIn(items, category) == 0
    requires |PriorityGaps(items, CategoryPriority)| <= 4
    ensures var g := Take(AllGaps(items), MaxGaps);
      g == AllGaps(items) &&
      exists i, j :: 0 <= i < j < |g| && g[i].category == category && g[j].category == category
  {
    DuplicateGapsKept(items, category);
  }

  /** Categories that own nothing are each suggested as missing, in the
      order visited. */
  lemma {:induction false} NothingOwnedAllMissing(items: seq<Item>, cats: seq<string>)
    requires forall i :: 0 <= i < |cats| ==> CountIn(items, cats[i]) == 0
    ensures |PriorityGaps(items, cats)| == |cats|
    ensures forall i :: 0 <= i < |cats| ==> PriorityGaps(items, cats)[i] == MissingGap(cats[i])
  {
    if cats != [] {
      var n := |cats| - 1;
      var front := cats[..n];
      assert forall i :: 0 <= i < n ==> front[i] == cats[i];
      NothingOwnedAllMissing(items, front);
      PriorityGapsSnoc(items, cats, n);
      assert cats[..n + 1] == cats;
      var p := PriorityGaps(items, cats);
      assert p == PriorityGaps(items, front) + [MissingGap(cats[n])];
      forall i | 0 <= i < |cats| ensures p[i] == MissingGap(cats[i]) {
        if i < n {
          assert p[i] == PriorityGaps(items, front)[i];
        }
      }
    }
  }

  /** An empty closet is shown the missing top, bottom, dress, outerwear,
      shoes and bag, in that order. */
  lemma EmptyClosetGaps()
    ensures Take(AllGaps([]), MaxGaps) ==
      [MissingGap("top"), MissingGap("bottom"), MissingGap("dress"),
       MissingGap("outerwear"), MissingGap("shoes"), MissingGap("bag")]
  {
    NothingOwnedAllMissing([], CategoryPriority);
    var p := PriorityGaps([], CategoryPriority);
    assert p[..6] == [p[0], p[1], p[2], p[3], p[4], p[5]];
    assert Take(AllGaps([]), MaxGaps) == p[..6];
  }

  // ---------------------------------------------------------------------
  // The page
  // ---------------------------------------------------------------------

  /** The capsule page's state: the items and gaps it shows. */
  class CapsulePage {
    var items: seq<Item>
    var gaps: seq<GapSpec>
    var loading: bool

    constructor ()
      ensures items == [] && gaps == [] && loading
    {
      items := [];
      gaps := [];
      loading := true;
    }

    /** `loadCapsule` after the user is known: a failed read shows nothing
        new, no rows or fewer than eight send the user to the closet,
        otherwise the capsule is generated. Loading ends in every case. */
    method LoadCapsule(query: Query) returns (redirected: bool)
      modifies this
      ensures redirected <==> query.QueryNull? || (query.QueryRows? && |query.rows| < MinItems)
      ensures !loading
      ensures if query.QueryRows? && |query.rows| >= MinItems
        then items == query.rows && gaps == Take(AllGaps(query.rows), MaxGaps)
        else items == old(items) && gaps == old(gaps)
    {
      redirected := false;
      match query {
        case QueryFailed =>
        case QueryNull =>
          redirected := true;
        case QueryRows(closetItems) =>
          if |closetItems| < MinItems {
            redirected := true;
          } else {
            items := closetItems;
            var selectedItems, gapSpecs := GenerateCapsule(closetItems);
            items := selectedItems;
            gaps := gapSpecs;
          }
      }
      loading := false;
    }
  }
}
