/** The outfit generator of the outfits page: the colour-compatibility
    rule, the additive outfit score, the occasion tag, the candidate
    builder with its cap of ten, the stable sort by score, and the
    save/wear/swap actions on the generated list. */
module Outfits {
  import opened Catalog

  // ---------------------------------------------------------------------
  // Colour compatibility
  // ---------------------------------------------------------------------

  const NeutralColors: seq<string> := ["black", "white", "cream", "camel", "navy", "grey"]
  const WarmColors: seq<string> := ["brown", "red", "yellow", "orange"]
  const CoolColors: seq<string> := ["blue", "denim-dark", "denim-light", "green"]
  const GoodCombos: seq<(string, string)> :=
    [("black", "white"), ("black", "red"), ("black", "blue"),
     ("white", "navy"), ("cream", "brown"), ("navy", "white")]

  /** The hard-coded pairs, tried in both orders. */
  predicate IsGoodCombo(color1: string, color2: string)
  {
    exists k :: 0 <= k < |GoodCombos| &&
      ((GoodCombos[k].0 == color1 && GoodCombos[k].1 == color2) ||
       (GoodCombos[k].0 == color2 && GoodCombos[k].1 == color1))
  }

  /** Neutrals go with everything, a colour goes with itself, warm goes with
      warm, cool with cool, and otherwise only the listed pairs match. */
  predicate IsColorCompatible(color1: string, color2: string)
  {
    if color1 in NeutralColors || color2 in NeutralColors then true
    else if color1 == color2 then true
    else if color1 in WarmColors && color2 in WarmColors then true
    else if color1 in CoolColors && color2 in CoolColors then true
    else IsGoodCombo(color1, color2)
  }

  /** An independent reading of the rule by colour family alone: the same
      colour, a neutral on either side, or both warm, or both cool. */
  predicate SameFamilyOrNeutral(color1: string, color2: string)
  {
    color1 == color2 || color1 in NeutralColors || color2 in NeutralColors ||
    (color1 in WarmColors && color2 in WarmColors) ||
    (color1 in CoolColors && color2 in CoolColors)
  }

  lemma CompatibleReflexive(color: string)
    ensures IsColorCompatible(color, color)
  {
  }

  lemma CompatibleSymmetric(color1: string, color2: string)
    ensures IsColorCompatible(color1, color2) == IsColorCompatible(color2, color1)
  {
  }

  lemma NeutralCompatibleWithAll(neutral: string, other: string)
    requires neutral in NeutralColors
    ensures IsColorCompatible(neutral, other) && IsColorCompatible(other, neutral)
  {
  }

  /** Every hard-coded pair already contains a neutral, so the pair list
      never decides the answer: the rule is exactly the family rule. */
  lemma CombosAddNothing(color1: string, color2: string)
    ensures IsColorCompatible(color1, color2) <==> SameFamilyOrNeutral(color1, color2)
  {
    if IsGoodCombo(color1, color2) {
      var k :| 0 <= k < |GoodCombos| &&
        ((GoodCombos[k].0 == color1 && GoodCombos[k].1 == color2) ||
         (GoodCombos[k].0 == color2 && GoodCombos[k].1 == color1));
      assert GoodCombos[k].0 in NeutralColors;
    }
  }

  /** Two distinct colours that are in no list, such as olive and blush,
      do not match. */
  lemma UnlistedColorsIncompatible(color1: string, color2: string)
    requires color1 != color2
    requires color1 !in NeutralColors + WarmColors + CoolColors
    requires color2 !in NeutralColors + WarmColors + CoolColors
    ensures !IsColorCompatible(color1, color2)
  {
    CombosAddNothing(color1, color2);
  }

  lemma OliveBlushIncompatible()
    ensures !IsColorCompatible("olive", "blush")
  {
    UnlistedColorsIncompatible("olive", "blush");
  }

  // ---------------------------------------------------------------------
  // Score
  // ---------------------------------------------------------------------

  /** The colour of each item, in order. */
  function Colors(items: seq<Item>): (r: seq<string>)
    ensures |r| == |items| && forall k :: 0 <= k < |items| ==> r[k] == items[k].color
  {
    seq(|items|, k requires 0 <= k < |items| => items[k].color)
  }

  /** The set of colours an outfit uses. */
  function ColorSet(items: seq<Item>): set<string>
  {
    set x | x in items :: x.color
  }

  /** The de-duplicated colour list: each colour once, in order of first use. */
  function DistinctColors(items: seq<Item>): (r: seq<string>)
    ensures NoDuplicates(r)
    ensures forall c :: c in r <==> c in ColorSet(items)
  {
    if items == [] then []
    else
      var front := DistinctColors(items[..|items| - 1]);
      var last := items[|items| - 1];
      assert items == items[..|items| - 1] + [last];
      assert ColorSet(items) == ColorSet(items[..|items| - 1]) + {last.color};
      if last.color in front then front else front + [last.color]
  }

  lemma {:induction false} NoDuplicatesCardinality<T>(s: seq<T>)
    requires NoDuplicates(s)
    ensures |set x | x in s| == |s|
  {
    if s != [] {
      var front := s[..|s| - 1];
      assert NoDuplicates(front);
      NoDuplicatesCardinality(front);
      assert s == front + [s[|s| - 1]];
      assert (set x | x in s) == (set x | x in front) + {s[|s| - 1]};
      assert s[|s| - 1] !in front;
    }
  }

  /** The length of the de-duplicated colour list is the number of
      distinct colours. */
  lemma DistinctColorsCount(items: seq<Item>)
    ensures |DistinctColors(items)| == |ColorSet(items)|
  {
    var d := DistinctColors(items);
    NoDuplicatesCardinality(d);
    assert (set x | x in d) == ColorSet(items);
  }

  /** The category weights of the score: the essentials first, then the
      accessories. */
  const PresenceWeights: seq<(string, nat)> :=
    [("top", 2), ("bottom", 2), ("shoes", 1), ("bag", 1), ("outerwear", 1)]

  function PresencePoints(items: seq<Item>, weights: seq<(string, nat)>): nat
  {
    if weights == [] then 0
    else
      (if HasCategory(items, weights[0].0) then weights[0].1 else 0) +
      PresencePoints(items, weights[1..])
  }

  /** The colour-harmony bonus for an outfit of `distinct` colours. */
  function HarmonyPoints(distinct: nat): nat
  {
    if distinct <= 2 then 3 else if distinct <= 3 then 2 else 0
  }

  /** The outfit score: the category weights present plus the harmony
      bonus for the number of distinct colours. */
  function Score(items: seq<Item>): int
  {
    PresencePoints(items, PresenceWeights) + HarmonyPoints(|ColorSet(items)|)
  }

  /** The five weighted categories present in an outfit. */
  function Presence(items: seq<Item>): seq<bool>
  {
    seq(|PresenceWeights|, k requires 0 <= k < |PresenceWeights| =>
      HasCategory(items, PresenceWeights[k].0))
  }

  /** The weight table read out entry by entry. */
  lemma PresencePointsByCategory(items: seq<Item>)
    ensures PresencePoints(items, PresenceWeights) ==
      (if HasCategory(items, "top") then 2 else 0) +
      (if HasCategory(items, "bottom") then 2 else 0) +
      (if HasCategory(items, "shoes") then 1 else 0) +
      (if HasCategory(items, "bag") then 1 else 0) +
      (if HasCategory(items, "outerwear") then 1 else 0)
  {
    var w0: seq<(string, nat)> := PresenceWeights;
    var w1: seq<(string, nat)> := [("bottom", 2), ("shoes", 1), ("bag", 1), ("outerwear", 1)];
    var w2: seq<(string, nat)> := [("shoes", 1), ("bag", 1), ("outerwear", 1)];
    var w3: seq<(string, nat)> := [("bag", 1), ("outerwear", 1)];
    var w4: seq<(string, nat)> := [("outerwear", 1)];
    assert w0[1..] == w1 && w1[1..] == w2 && w2[1..] == w3 && w3[1..] == w4;
    assert PresencePoints(items, w4) == (if HasCategory(items, "outerwear") then 1 else 0);
    assert PresencePoints(items, w3) == (if HasCategory(items, "bag") then 1 else 0) + PresencePoints(items, w4);
    assert PresencePoints(items, w2) == (if HasCategory(items, "shoes") then 1 else 0) + PresencePoints(items, w3);
    assert PresencePoints(items, w1) == (if HasCategory(items, "bottom") then 2 else 0) + PresencePoints(items, w2);
    assert PresencePoints(items, w0) == (if HasCategory(items, "top") then 2 else 0) + PresencePoints(items, w1);
  }

  /** The score is between 0 and 10, the page's "score/10" label. */
  lemma ScoreBounds(items: seq<Item>)
    ensures 0 <= Score(items) <= 10
  {
    PresencePointsByCategory(items);
  }

  /** Two outfits with the same weighted categories present and the same
      number of distinct colours score the same: nothing else counts. */
  lemma ScoreDependsOnPresenceAndColorCount(a: seq<Item>, b: seq<Item>)
    requires Presence(a) == Presence(b)
    requires |ColorSet(a)| == |ColorSet(b)|
    ensures Score(a) == Score(b)
  {
    PresencePointsByCategory(a);
    PresencePointsByCategory(b);
    assert Presence(a)[0] == Presence(b)[0];
    assert Presence(a)[1] == Presence(b)[1];
    assert Presence(a)[2] == Presence(b)[2];
    assert Presence(a)[3] == Presence(b)[3];
    assert Presence(a)[4] == Presence(b)[4];
  }

  /** `calculateOutfitScore`: the score accumulated step by step. */
  method CalculateOutfitScore(items: seq<Item>) returns (score: int)
    ensures score == Score(items)
    ensures 0 <= score <= 10
  {
    score := 0;
    if HasCategory(items, "top") { score := score + 2; }
    if HasCategory(items, "bottom") { score := score + 2; }
    if HasCategory(items, "shoes") { score := score + 1; }
    if HasCategory(items, "bag") { score := score + 1; }
    if HasCategory(items, "outerwear") { score := score + 1; }
    var uniqueColors := DistinctColors(items);
    if |uniqueColors| <= 3 { score := score + 2; }
    if |uniqueColors| <= 2 { score := score + 1; }
    DistinctColorsCount(items);
    PresencePointsByCategory(items);
  }

  // ---------------------------------------------------------------------
  // Occasion
  // ---------------------------------------------------------------------

  datatype Occasion = Evening | Work | Casual

  predicate HasSubcategory(items: seq<Item>, subcategory: string)
  {
    exists k :: 0 <= k < |items| && items[k].subcategory == subcategory
  }

  /** `determineOccasion`: blazers and heels make an outfit "work";
      everything else, sneakers included, is "casual". */
  function DetermineOccasion(items: seq<Item>): (r: Occasion)
    ensures r != Evening
    ensures r == Work <==>
      exists k :: 0 <= k < |items| && items[k].subcategory in ["blazer", "heels"]
  {
    var hasBlazer := HasSubcategory(items, "blazer");
    var hasHeels := HasSubcategory(items, "heels");
    var hasSneakers := HasSubcategory(items, "sneakers");
    if hasBlazer || hasHeels then Work
    else if hasSneakers then Casual
    else Casual
  }

  // ---------------------------------------------------------------------
  // Picking shoes, bags and jackets
  // ---------------------------------------------------------------------

  /** The position of the first item satisfying `p`. */
  function FindIndex(s: seq<Item>, p: Item -> bool): (r: Option<nat>)
    ensures r.Some? ==> r.value < |s| && p(s[r.value])
    ensures r.Some? ==> forall j :: 0 <= j < r.value ==> !p(s[j])
    ensures r.None? ==> forall j :: 0 <= j < |s| ==> !p(s[j])
  {
    if s == [] then None
    else if p(s[0]) then Some(0)
    else match FindIndex(s[1..], p)
      case None => None
      case Some(k) => Some(k + 1)
  }

  /** The first item satisfying `p`, if any. */
  function Find(s: seq<Item>, p: Item -> bool): (r: Option<Item>)
    ensures r.Some? ==>
      exists k :: 0 <= k < |s| && s[k] == r.value && p(s[k]) &&
        forall j :: 0 <= j < k ==> !p(s[j])
    ensures r.None? ==> forall j :: 0 <= j < |s| ==> !p(s[j])
  {
    match FindIndex(s, p)
    case None => None
    case Some(k) => Some(s[k])
  }

  /** The first item passing `p`, else the first item,
      and nothing only when `s` is empty. */
  function FindOrFirst(s: seq<Item>, p: Item -> bool): (r: Option<Item>)
    ensures r.None? <==> |s| == 0
    ensures |s| > 0 ==>
      exists k :: 0 <= k < |s| && r == Some(s[k]) &&
        (forall j :: 0 <= j < k ==> !p(s[j])) &&
        (p(s[k]) || (k == 0 && forall j :: 0 <= j < |s| ==> !p(s[j])))
  {
    match FindIndex(s, p)
    case Some(k) => Some(s[k])
    case None => if |s| > 0 then Some(s[0]) else None
  }

  /** Appends the item when there is one. */
  function PushIf(items: seq<Item>, x: Option<Item>): seq<Item>
  {
    if x.Some? then items + [x.value] else items
  }

  /** The shoe and bag test for a dress: its colour, or compatible with it. */
  predicate MatchesDress(x: Item, dress: Item)
  {
    x.color == dress.color || IsColorCompatible(x.color, dress.color)
  }

  /** The shoe and bag test for separates: the top's or the bottom's colour,
      or compatible with the top (the bottom's compatibility is not asked). */
  predicate MatchesSeparates(x: Item, top: Item, bottom: Item)
  {
    x.color == top.color || x.color == bottom.color || IsColorCompatible(x.color, top.color)
  }

  /** The shoe or bag worn with a dress. */
  function DressPick(dress: Item, s: seq<Item>): (r: Option<Item>)
    ensures r.None? <==> |s| == 0
    ensures |s| > 0 ==>
      exists k :: 0 <= k < |s| && r == Some(s[k]) &&
        (forall j :: 0 <= j < k ==> !MatchesDress(s[j], dress)) &&
        (MatchesDress(s[k], dress) || (k == 0 && forall j :: 0 <= j < |s| ==> !MatchesDress(s[j], dress)))
  {
    FindOrFirst(s, (x: Item) => MatchesDress(x, dress))
  }

  /** The jacket worn with a dress: the first one compatible with it. */
  function DressJacket(dress: Item, outerwear: seq<Item>): (r: Option<Item>)
    ensures r.Some? ==>
      exists k :: 0 <= k < |outerwear| && outerwear[k] == r.value &&
        IsColorCompatible(outerwear[k].color, dress.color) &&
        forall j :: 0 <= j < k ==> !IsColorCompatible(outerwear[j].color, dress.color)
    ensures r.None? ==> forall j :: 0 <= j < |outerwear| ==> !IsColorCompatible(outerwear[j].color, dress.color)
  {
    Find(outerwear, (o: Item) => IsColorCompatible(o.color, dress.color))
  }

  /** The shoe or bag worn with a top and bottom. */
  function SeparatesPick(top: Item, bottom: Item, s: seq<Item>): (r: Option<Item>)
    ensures r.None? <==> |s| == 0
    ensures |s| > 0 ==>
      exists k :: 0 <= k < |s| && r == Some(s[k]) &&
        (forall j :: 0 <= j < k ==> !MatchesSeparates(s[j], top, bottom)) &&
        (MatchesSeparates(s[k], top, bottom) ||
         (k == 0 && forall j :: 0 <= j < |s| ==> !MatchesSeparates(s[j], top, bottom)))
  {
    FindOrFirst(s, (x: Item) => MatchesSeparates(x, top, bottom))
  }

  /** The jacket worn with a top and bottom: the first compatible with both. */
  function SeparatesJacket(top: Item, bottom: Item, outerwear: seq<Item>): (r: Option<Item>)
    ensures r.Some? ==>
      exists k :: 0 <= k < |outerwear| && outerwear[k] == r.value &&
        IsColorCompatible(outerwear[k].color, top.color) && IsColorCompatible(outerwear[k].color, bottom.color) &&
        forall j :: 0 <= j < k ==>
          !(IsColorCompatible(outerwear[j].color, top.color) && IsColorCompatible(outerwear[j].color, bottom.color))
    ensures r.None? ==> forall j :: 0 <= j < |outerwear| ==>
      !(IsColorCompatible(outerwear[j].color, top.color) && IsColorCompatible(outerwear[j].color, bottom.color))
  {
    Find(outerwear, (o: Item) => IsColorCompatible(o.color, top.color) && IsColorCompatible(o.color, bottom.color))
  }

  /** The item list of the outfit built around one dress: the dress, its
      shoe, its bag and its jacket, each when there is one. */
  function DressItems(dress: Item, shoes: seq<Item>, bags: seq<Item>, outerwear: seq<Item>): seq<Item>
  {
    AddOns([dress], DressPick(dress, shoes), DressPick(dress, bags), DressJacket(dress, outerwear))
  }

  /** The item list of a top and bottom: top, bottom, then shoe, bag and
      jacket, each when there is one. */
  function SeparatesItems(top: Item, bottom: Item, shoes: seq<Item>, bags: seq<Item>, outerwear: seq<Item>): seq<Item>
  {
    AddOns([top, bottom], SeparatesPick(top, bottom, shoes), SeparatesPick(top, bottom, bags),
           SeparatesJacket(top, bottom, outerwear))
  }

  // ---------------------------------------------------------------------
  // Candidate outfits, in generation order
  // ---------------------------------------------------------------------

  datatype LookKind = DressLook | SeparatesLook

  /** An accepted item combination and how it was built. */
  datatype Look = Look(items: seq<Item>, kind: LookKind)

  /** The accepted dress looks, one per dress that gathered at least one
      other item, in catalog order (before the cap of ten). */
  function DressLooks(dresses: seq<Item>, shoes: seq<Item>, bags: seq<Item>, outerwear: seq<Item>): seq<Look>
  {
    if dresses == [] then []
    else
      var items := DressItems(dresses[|dresses| - 1], shoes, bags, outerwear);
      DressLooks(dresses[..|dresses| - 1], shoes, bags, outerwear) +
      (if |items| >= 2 then [Look(items, DressLook)] else [])
  }

  /** The accepted looks of one top with each bottom in catalog order:
      incompatible pairs are skipped, and a pair needs a third item. */
  function PairLooks(top: Item, bottoms: seq<Item>, shoes: seq<Item>, bags: seq<Item>, outerwear: seq<Item>): seq<Look>
  {
    if bottoms == [] then []
    else
      var bottom := bottoms[|bottoms| - 1];
      var items := SeparatesItems(top, bottom, shoes, bags, outerwear);
      PairLooks(top, bottoms[..|bottoms| - 1], shoes, bags, outerwear) +
      (if IsColorCompatible(top.color, bottom.color) && |items| >= 3
       then [Look(items, SeparatesLook)] else [])
  }

  /** The accepted top-and-bottom looks, tops in the outer order. */
  function SeparatesLooks(tops: seq<Item>, bottoms: seq<Item>, shoes: seq<Item>, bags: seq<Item>, outerwear: seq<Item>): seq<Look>
  {
    if tops == [] then []
    else
      SeparatesLooks(tops[..|tops| - 1], bottoms, shoes, bags, outerwear) +
      PairLooks(tops[|tops| - 1], bottoms, shoes, bags, outerwear)
  }

  /** Every accepted look in generation order: dresses first. */
  function AllLooks(catalog: seq<Item>): seq<Look>
  {
    var shoes := OfCategory(catalog, "shoes");
    var bags := OfCategory(catalog, "bag");
    var outerwear := OfCategory(catalog, "outerwear");
    DressLooks(OfCategory(catalog, "dress"), shoes, bags, outerwear) +
    SeparatesLooks(OfCategory(catalog, "top"), OfCategory(catalog, "bottom"), shoes, bags, outerwear)
  }

  const MaxOutfits: nat := 10

  /** The fewest closet items the outfits page generates from. */
  const MinCatalog: nat := 3

  datatype Metadata = Metadata(kind: LookKind, colors: seq<string>)

  /** A generated outfit; `id` k stands for the page's "outfit-k". */
  datatype Outfit = Outfit(
    id: nat,
    items: seq<Item>,
    occasion: Occasion,
    score: int,
    saved: bool,
    worn: bool,
    metadata: Metadata)

  /** The outfit the page builds as its `k`-th candidate from a look. */
  function ToOutfit(k: nat, look: Look): Outfit
  {
    Outfit(k, look.items,
      if look.kind == DressLook then Evening else DetermineOccasion(look.items),
      Score(look.items), false, false, Metadata(look.kind, Colors(look.items)))
  }

  function Numbered(looks: seq<Look>): (r: seq<Outfit>)
    ensures |r| == |looks|
    ensures forall k :: 0 <= k < |r| ==> r[k] == ToOutfit(k, looks[k])
  {
    seq(|looks|, k requires 0 <= k < |looks| => ToOutfit(k, looks[k]))
  }

  lemma NumberedSnoc(looks: seq<Look>, look: Look)
    ensures Numbered(looks + [look]) == Numbered(looks) + [ToOutfit(|looks|, look)]
  {
  }

  /** The candidates the loops build: the first ten looks, numbered. */
  function Candidates(catalog: seq<Item>): (r: seq<Outfit>)
    ensures |r| <= MaxOutfits
  {
    Numbered(Take(AllLooks(catalog), MaxOutfits))
  }

  // ---------------------------------------------------------------------
  // Stable sort by score, highest first
  // ---------------------------------------------------------------------

  predicate SortedByScore(s: seq<Outfit>)
  {
    forall i, j :: 0 <= i < j < |s| ==> s[i].score >= s[j].score
  }

  /** Places `x` before the first element that does not outscore it. */
  function Insert(x: Outfit, s: seq<Outfit>): (r: seq<Outfit>)
    ensures |r| == |s| + 1
    ensures forall y :: y in r <==> y == x || y in s
  {
    if s == [] then [x]
    else if s[0].score <= x.score then [x] + s
    else
      assert s == [s[0]] + s[1..];
      [s[0]] + Insert(x, s[1..])
  }

  /** The stable sort by descending score. */
  function SortByScore(s: seq<Outfit>): (r: seq<Outfit>)
    ensures |r| == |s|
    ensures forall y :: y in r <==> y in s
  {
    if s == [] then []
    else
      assert s == [s[0]] + s[1..];
      Insert(s[0], SortByScore(s[1..]))
  }

  lemma {:induction false} InsertPermutes(x: Outfit, s: seq<Outfit>)
    ensures multiset(Insert(x, s)) == multiset(s) + multiset{x}
  {
    if s != [] && s[0].score > x.score {
      InsertPermutes(x, s[1..]);
      assert s == [s[0]] + s[1..];
    }
  }

  /** The sort only reorders: the result is a permutation of the input. */
  lemma {:induction false} SortByScorePermutes(s: seq<Outfit>)
    ensures multiset(SortByScore(s)) == multiset(s)
  {
    if s != [] {
      SortByScorePermutes(s[1..]);
      InsertPermutes(s[0], SortByScore(s[1..]));
      assert s == [s[0]] + s[1..];
    }
  }

  /** No element of `s` scores above `v`. */
  predicate ScoresAtMost(s: seq<Outfit>, v: int)
  {
    forall k :: 0 <= k < |s| ==> s[k].score <= v
  }

  lemma {:induction false} InsertScoresAtMost(x: Outfit, s: seq<Outfit>, v: int)
    requires ScoresAtMost(s, v) && x.score <= v
    ensures ScoresAtMost(Insert(x, s), v)
  {
    if s != [] && s[0].score > x.score {
      InsertScoresAtMost(x, s[1..], v);
    }
  }

  lemma ConsSorted(x: Outfit, t: seq<Outfit>)
    requires SortedByScore(t) && ScoresAtMost(t, x.score)
    ensures SortedByScore([x] + t)
  {
    var r := [x] + t;
    forall i, j | 0 <= i < j < |r| ensures r[i].score >= r[j].score {
      assert r[j] == t[j - 1];
      if i > 0 {
        assert r[i] == t[i - 1];
      }
    }
  }

  lemma {:induction false} InsertSorted(x: Outfit, s: seq<Outfit>)
    requires SortedByScore(s)
    ensures SortedByScore(Insert(x, s))
  {
    if s != [] {
      if s[0].score > x.score {
        var rest := s[1..];
        assert SortedByScore(rest);
        assert ScoresAtMost(rest, s[0].score);
        InsertSorted(x, rest);
        InsertScoresAtMost(x, rest, s[0].score);
        ConsSorted(s[0], Insert(x, rest));
      } else {
        ConsSorted(x, s);
      }
    }
  }

  /** The result of the sort is ordered by non-increasing score. */
  lemma {:induction false} SortByScoreSorted(s: seq<Outfit>)
    ensures SortedByScore(SortByScore(s))
  {
    if s != [] {
      SortByScoreSorted(s[1..]);
      InsertSorted(s[0], SortByScore(s[1..]));
    }
  }

  /** Equal scores keep generation order: among ties, the lower id first. */
  predicate TiesInIdOrder(s: seq<Outfit>)
  {
    forall i, j :: 0 <= i < j < |s| && s[i].score == s[j].score ==> s[i].id < s[j].id
  }

  predicate IdsIncreasing(s: seq<Outfit>)
  {
    forall i, j :: 0 <= i < j < |s| ==> s[i].id < s[j].id
  }

  lemma ConsKeepsTies(x: Outfit, t: seq<Outfit>)
    requires TiesInIdOrder(t)
    requires forall y :: y in t && y.score == x.score ==> x.id < y.id
    ensures TiesInIdOrder([x] + t)
  {
    var r := [x] + t;
    forall i, j | 0 <= i < j < |r| && r[i].score == r[j].score ensures r[i].id < r[j].id {
      if i == 0 {
        assert r[j] in t;
      } else {
        assert r[i] == t[i - 1] && r[j] == t[j - 1];
      }
    }
  }

  lemma {:induction false} InsertKeepsTies(x: Outfit, s: seq<Outfit>)
    requires TiesInIdOrder(s)
    requires forall y :: y in s ==> x.id < y.id
    ensures TiesInIdOrder(Insert(x, s))
  {
    if s == [] {
    } else if s[0].score <= x.score {
      ConsKeepsTies(x, s);
    } else {
      var tail := s[1..];
      assert TiesInIdOrder(tail) by {
        forall i, j | 0 <= i < j < |tail| && tail[i].score == tail[j].score
          ensures tail[i].id < tail[j].id
        {
          assert tail[i] == s[i + 1] && tail[j] == s[j + 1];
        }
      }
      InsertKeepsTies(x, tail);
      var t := Insert(x, tail);
      forall y | y in t && y.score == s[0].score ensures s[0].id < y.id {
        assert y != x;
        var k :| 0 <= k < |tail| && tail[k] == y;
        assert s[k + 1] == y;
      }
      ConsKeepsTies(s[0], t);
    }
  }

  /** The sort is stable: an input in id order keeps ties in id order. */
  lemma {:induction false} SortByScoreStable(s: seq<Outfit>)
    requires IdsIncreasing(s)
    ensures TiesInIdOrder(SortByScore(s))
  {
    if s != [] {
      var tail := s[1..];
      assert IdsIncreasing(tail) by {
        forall i, j | 0 <= i < j < |tail| ensures tail[i].id < tail[j].id {
          assert tail[i] == s[i + 1] && tail[j] == s[j + 1];
        }
      }
      SortByScoreStable(tail);
      forall y | y in SortByScore(tail) ensures s[0].id < y.id {
        var k :| 0 <= k < |tail| && tail[k] == y;
        assert s[k + 1] == y;
      }
      InsertKeepsTies(s[0], SortByScore(tail));
    }
  }

  // ---------------------------------------------------------------------
  // The generator
  // ---------------------------------------------------------------------

  /** What `generateOutfits` returns: the candidates sorted by score, first
      ten kept. */
  function GeneratedOutfits(catalog: seq<Item>): seq<Outfit>
  {
    Take(SortByScore(Candidates(catalog)), MaxOutfits)
  }

  /** The generated list has at most ten outfits, by non-increasing score. */
  lemma GeneratedOutfitsSorted(catalog: seq<Item>)
    ensures |GeneratedOutfits(catalog)| <= MaxOutfits
    ensures SortedByScore(GeneratedOutfits(catalog))
  {
    var sorted := SortByScore(Candidates(catalog));
    SortByScoreSorted(Candidates(catalog));
    var result := GeneratedOutfits(catalog);
    assert forall k :: 0 <= k < |result| ==> result[k] == sorted[k];
  }

  /** The dress looks of one more dress extend those of the dresses before. */
  lemma DressLooksSnoc(dresses: seq<Item>, i: nat, shoes: seq<Item>, bags: seq<Item>, outerwear: seq<Item>)
    requires i < |dresses|
    ensures DressLooks(dresses[..i + 1], shoes, bags, outerwear) ==
      DressLooks(dresses[..i], shoes, bags, outerwear) +
      (if |DressItems(dresses[i], shoes, bags, outerwear)| >= 2
       then [Look(DressItems(dresses[i], shoes, bags, outerwear), DressLook)] else [])
  {
    assert dresses[..i + 1][..i] == dresses[..i];
  }

  lemma {:induction false} DressLooksPrefix(dresses: seq<Item>, i: nat, shoes: seq<Item>, bags: seq<Item>, outerwear: seq<Item>)
    requires i <= |dresses|
    ensures DressLooks(dresses[..i], shoes, bags, outerwear) <= DressLooks(dresses, shoes, bags, outerwear)
  {
    if i < |dresses| {
      var front := dresses[..|dresses| - 1];
      assert front[..i] == dresses[..i];
      DressLooksPrefix(front, i, shoes, bags, outerwear);
    } else {
      assert dresses[..i] == dresses;
    }
  }

  /** A compatible pair with a third item adds its look. */
  lemma PairLooksAccept(top: Item, bottoms: seq<Item>, j: nat, shoes: seq<Item>, bags: seq<Item>, outerwear: seq<Item>)
    requires j < |bottoms|
    requires IsColorCompatible(top.color, bottoms[j].color)
    requires |SeparatesItems(top, bottoms[j], shoes, bags, outerwear)| >= 3
    ensures PairLooks(top, bottoms[..j + 1], shoes, bags, outerwear) ==
      PairLooks(top, bottoms[..j], shoes, bags, outerwear) +
      [Look(SeparatesItems(top, bottoms[j], shoes, bags, outerwear), SeparatesLook)]
  {
    assert bottoms[..j + 1][..j] == bottoms[..j];
  }

  /** Any other pair adds nothing. */
  lemma PairLooksSkip(top: Item, bottoms: seq<Item>, j: nat, shoes: seq<Item>, bags: seq<Item>, outerwear: seq<Item>)
    requires j < |bottoms|
    requires !IsColorCompatible(top.color, bottoms[j].color) ||
             |SeparatesItems(top, bottoms[j], shoes, bags, outerwear)| < 3
    ensures PairLooks(top, bottoms[..j + 1], shoes, bags, outerwear) ==
      PairLooks(top, bottoms[..j], shoes, bags, outerwear)
  {
    assert bottoms[..j + 1][..j] == bottoms[..j];
  }

  lemma {:induction false} PairLooksPrefix(top: Item, bottoms: seq<Item>, j: nat, shoes: seq<Item>, bags: seq<Item>, outerwear: seq<Item>)
    requires j <= |bottoms|
    ensures PairLooks(top, bottoms[..j], shoes, bags, outerwear) <= PairLooks(top, bottoms, shoes, bags, outerwear)
  {
    if j < |bottoms| {
      var front := bottoms[..|bottoms| - 1];
      assert front[..j] == bottoms[..j];
      PairLooksPrefix(top, front, j, shoes, bags, outerwear);
    } else {
      assert bottoms[..j] == bottoms;
    }
  }

  /** The looks after one more top: those before, then that top's pairs. */
  lemma SeparatesLooksSnoc(dressLooks: seq<Look>, tops: seq<Item>, i: nat, bottoms: seq<Item>,
                           shoes: seq<Item>, bags: seq<Item>, outerwear: seq<Item>)
    requires i < |tops|
    ensures dressLooks + SeparatesLooks(tops[..i + 1], bottoms, shoes, bags, outerwear) ==
      (dressLooks + SeparatesLooks(tops[..i], bottoms, shoes, bags, outerwear)) +
      PairLooks(tops[i], bottoms, shoes, bags, outerwear)
  {
    assert tops[..i + 1][..i] == tops[..i];
  }

  /** The outfit list after one more accepted look: what the page pushes
      is the numbered look. */
  lemma PushLook(done: seq<Look>, look: Look)
    requires |done| < MaxOutfits
    ensures Numbered(Take(done + [look], MaxOutfits)) ==
      Numbered(Take(done, MaxOutfits)) + [ToOutfit(|done|, look)]
  {
    TakeSnoc(done, look, MaxOutfits);
    NumberedSnoc(done, look);
  }

  /** The same, for a look appended after the looks of the current top. */
  lemma PushPairLook(before: seq<Look>, pairs: seq<Look>, look: Look)
    requires |before + pairs| < MaxOutfits
    ensures Numbered(Take(before + (pairs + [look]), MaxOutfits)) ==
      Numbered(Take(before + pairs, MaxOutfits)) + [ToOutfit(|before + pairs|, look)]
  {
    assert before + (pairs + [look]) == (before + pairs) + [look];
    PushLook(before + pairs, look);
  }

  /** Once ten outfits exist, later looks change nothing. */
  lemma CapReached(done: seq<Look>, all: seq<Look>)
    requires done <= all && |Take(done, MaxOutfits)| >= MaxOutfits
    ensures Numbered(Take(all, MaxOutfits)) == Numbered(Take(done, MaxOutfits))
  {
    TakeOfExtension(done, all, MaxOutfits);
  }

  /** The dress loop of `generateOutfits`. */
  method CollectDressOutfits(dresses: seq<Item>, shoes: seq<Item>, bags: seq<Item>, outerwear: seq<Item>)
    returns (outfits: seq<Outfit>)
    ensures outfits == Numbered(Take(DressLooks(dresses, shoes, bags, outerwear), MaxOutfits))
  {
    outfits := [];
    var outfitCount := 0;
    for i := 0 to |dresses|
      invariant outfitCount == |outfits|
      invariant outfits == Numbered(Take(DressLooks(dresses[..i], shoes, bags, outerwear), MaxOutfits))
    {
      if outfitCount >= 10 {
        DressLooksPrefix(dresses, i, shoes, bags, outerwear);
        CapReached(DressLooks(dresses[..i], shoes, bags, outerwear), DressLooks(dresses, shoes, bags, outerwear));
        return;
      }
      var dress := dresses[i];
      var outfitItems := DressItems(dress, shoes, bags, outerwear);
      DressLooksSnoc(dresses, i, shoes, bags, outerwear);
      if |outfitItems| >= 2 {
        var score := CalculateOutfitScore(outfitItems);
        PushLook(DressLooks(dresses[..i], shoes, bags, outerwear), Look(outfitItems, DressLook));
        outfits := outfits + [Outfit(outfitCount, outfitItems, Evening, score, false, false,
                                     Metadata(DressLook, Colors(outfitItems)))];
        outfitCount := outfitCount + 1;
      }
    }
    assert dresses[..|dresses|] == dresses;
  }

  /** The inner loop of `generateOutfits`: one top against every bottom,
      continuing the numbering of `outfits`. */
  method CollectPairOutfits(ghost before: seq<Look>, outfitsIn: seq<Outfit>, top: Item, bottoms: seq<Item>,
                            shoes: seq<Item>, bags: seq<Item>, outerwear: seq<Item>)
    returns (outfits: seq<Outfit>)
    requires outfitsIn == Numbered(Take(before, MaxOutfits))
    ensures outfits == Numbered(Take(before + PairLooks(top, bottoms, shoes, bags, outerwear), MaxOutfits))
  {
    outfits := outfitsIn;
    var outfitCount := |outfits|;
    for j := 0 to |bottoms|
      invariant outfitCount == |outfits|
      invariant outfits == Numbered(Take(before + PairLooks(top, bottoms[..j], shoes, bags, outerwear), MaxOutfits))
    {
      ghost var pairs := PairLooks(top, bottoms[..j], shoes, bags, outerwear);
      if outfitCount >= 10 {
        PairLooksPrefix(top, bottoms, j, shoes, bags, outerwear);
        CapReached(before + pairs, before + PairLooks(top, bottoms, shoes, bags, outerwear));
        return;
      }
      var bottom := bottoms[j];
      if !IsColorCompatible(top.color, bottom.color) {
        PairLooksSkip(top, bottoms, j, shoes, bags, outerwear);
        continue;
      }
      var outfitItems := SeparatesItems(top, bottom, shoes, bags, outerwear);
      if |outfitItems| >= 3 {
        var occasion := DetermineOccasion(outfitItems);
        var score := CalculateOutfitScore(outfitItems);
        var outfit := Outfit(outfitCount, outfitItems, occasion, score, false, false,
                             Metadata(SeparatesLook, Colors(outfitItems)));
        PairLooksAccept(top, bottoms, j, shoes, bags, outerwear);
        PushPairLook(before, pairs, Look(outfitItems, SeparatesLook));
        assert outfit == ToOutfit(|before + pairs|, Look(outfitItems, SeparatesLook));
        outfits := outfits + [outfit];
        outfitCount := outfitCount + 1;
      } else {
        PairLooksSkip(top, bottoms, j, shoes, bags, outerwear);
      }
    }
    assert bottoms[..|bottoms|] == bottoms;
  }

  /** `generateOutfits`: dress outfits first, then every compatible top and
      bottom, stopping at ten candidates, then sorted by score. */
  method GenerateOutfits(catalog: seq<Item>) returns (result: seq<Outfit>)
    ensures result == GeneratedOutfits(catalog)
    ensures |result| <= MaxOutfits
    ensures SortedByScore(result)
  {
    var tops := OfCategory(catalog, "top");
    var bottoms := OfCategory(catalog, "bottom");
    var dresses := OfCategory(catalog, "dress");
    var outerwear := OfCategory(catalog, "outerwear");
    var shoes := OfCategory(catalog, "shoes");
    var bags := OfCategory(catalog, "bag");

    var outfits := CollectDressOutfits(dresses, shoes, bags, outerwear);
    ghost var dressLooks := DressLooks(dresses, shoes, bags, outerwear);
    for i := 0 to |tops|
      invariant outfits == Numbered(Take(dressLooks + SeparatesLooks(tops[..i], bottoms, shoes, bags, outerwear), MaxOutfits))
    {
      SeparatesLooksSnoc(dressLooks, tops, i, bottoms, shoes, bags, outerwear);
      outfits := CollectPairOutfits(dressLooks + SeparatesLooks(tops[..i], bottoms, shoes, bags, outerwear),
                                    outfits, tops[i], bottoms, shoes, bags, outerwear);
    }
    assert tops[..|tops|] == tops;

    result := Take(SortByScore(outfits), MaxOutfits);
    GeneratedOutfitsSorted(catalog);
  }

  // ---------------------------------------------------------------------
  // What every generated outfit satisfies
  // ---------------------------------------------------------------------

  predicate OneItemPerCategory(items: seq<Item>)
  {
    forall i, j :: 0 <= i < j < |items| ==> items[i].category != items[j].category
  }

  /** Pushing an item of a category not yet present keeps one item per
      category. */
  lemma PushIfKeepsOnePerCategory(items: seq<Item>, x: Option<Item>, category: string)
    requires OneItemPerCategory(items)
    requires forall y :: y in items ==> y.category != category
    requires x.Some? ==> x.value.category == category
    ensures OneItemPerCategory(PushIf(items, x))
  {
    if x.Some? {
      var d := items + [x.value];
      forall i, j | 0 <= i < j < |d| ensures d[i].category != d[j].category {
        if j == |items| {
          assert d[i] in items;
        }
      }
    }
  }

  /** Every item of `items` comes from the catalog. */
  predicate FromCatalog(items: seq<Item>, catalog: seq<Item>)
  {
    forall x :: x in items ==> x in catalog
  }

  /** A shoe and a bag are worn whenever the catalog has one. */
  predicate ShoeAndBagWhenOwned(items: seq<Item>, catalog: seq<Item>)
  {
    (HasCategory(catalog, "shoes") ==> HasCategory(items, "shoes")) &&
    (HasCategory(catalog, "bag") ==> HasCategory(items, "bag"))
  }

  /** A dress look: the dress first, at least one more item, and any jacket
      compatible with the dress. */
  predicate DressShape(items: seq<Item>)
  {
    |items| >= 2 && items[0].category == "dress" &&
    forall k :: 1 <= k < |items| && items[k].category == "outerwear" ==>
      IsColorCompatible(items[k].color, items[0].color)
  }

  /** A top-and-bottom look: top then bottom, compatible, at least one more
      item, and any jacket compatible with both. */
  predicate SeparatesShape(items: seq<Item>)
  {
    |items| >= 3 && items[0].category == "top" && items[1].category == "bottom" &&
    IsColorCompatible(items[0].color, items[1].color) &&
    forall k :: 2 <= k < |items| && items[k].category == "outerwear" ==>
      IsColorCompatible(items[k].color, items[0].color) &&
      IsColorCompatible(items[k].color, items[1].color)
  }

  /** The shape of an accepted look built from `catalog`. */
  predicate LookOk(look: Look, catalog: seq<Item>)
  {
    FromCatalog(look.items, catalog) &&
    OneItemPerCategory(look.items) &&
    ShoeAndBagWhenOwned(look.items, catalog) &&
    (look.kind == DressLook ==> DressShape(look.items)) &&
    (look.kind == SeparatesLook ==> SeparatesShape(look.items))
  }

  function AddOns(base: seq<Item>, shoe: Option<Item>, bag: Option<Item>, jacket: Option<Item>): seq<Item>
  {
    PushIf(PushIf(PushIf(base, shoe), bag), jacket)
  }

  /** Pushing a shoe, a bag and a jacket onto a base without those
      categories keeps one item per category and the base in front. */
  lemma AddOnsFacts(base: seq<Item>, shoe: Option<Item>, bag: Option<Item>, jacket: Option<Item>)
    requires OneItemPerCategory(base)
    requires forall y :: y in base ==> y.category != "shoes" && y.category != "bag" && y.category != "outerwear"
    requires shoe.Some? ==> shoe.value.category == "shoes"
    requires bag.Some? ==> bag.value.category == "bag"
    requires jacket.Some? ==> jacket.value.category == "outerwear"
    ensures var d := AddOns(base, shoe, bag, jacket);
      OneItemPerCategory(d) && |d| >= |base| &&
      (forall k :: 0 <= k < |base| ==> d[k] == base[k]) &&
      (forall y :: y in d ==> y in base || Some(y) == shoe || Some(y) == bag || Some(y) == jacket) &&
      (shoe.Some? ==> shoe.value in d) && (bag.Some? ==> bag.value in d) &&
      (forall k :: |base| <= k < |d| && d[k].category == "outerwear" ==> Some(d[k]) == jacket)
  {
    var b := PushIf(base, shoe);
    PushIfKeepsOnePerCategory(base, shoe, "shoes");
    var c := PushIf(b, bag);
    PushIfKeepsOnePerCategory(b, bag, "bag");
    PushIfKeepsOnePerCategory(c, jacket, "outerwear");
    var d := PushIf(c, jacket);
    forall k | |base| <= k < |d| && d[k].category == "outerwear" ensures Some(d[k]) == jacket {
      assert d[k] in d;
    }
  }

  lemma PickedShoeOrBag(catalog: seq<Item>, category: string, pick: Option<Item>, items: seq<Item>)
    requires pick.None? <==> !HasCategory(catalog, category)
    requires pick.Some? ==> pick.value in items && pick.value.category == category
    ensures HasCategory(catalog, category) ==> HasCategory(items, category)
  {
    if HasCategory(catalog, category) {
      var k :| 0 <= k < |items| && items[k] == pick.value;
    }
  }

  /** What the shoe and bag picks promise: a catalog item of the category,
      missing only when the catalog has none. */
  predicate PickOk(pick: Option<Item>, catalog: seq<Item>, category: string)
  {
    (pick.None? <==> !HasCategory(catalog, category)) &&
    (pick.Some? ==> pick.value in catalog && pick.value.category == category)
  }

  lemma PickOkOfCategory(pick: Option<Item>, catalog: seq<Item>, category: string)
    requires pick.None? <==> |OfCategory(catalog, category)| == 0
    requires pick.Some? ==> pick.value in OfCategory(catalog, category)
    ensures PickOk(pick, catalog, category)
  {
  }

  lemma AddOnsFromCatalog(base: seq<Item>, shoe: Option<Item>, bag: Option<Item>, jacket: Option<Item>, catalog: seq<Item>)
    requires FromCatalog(base, catalog)
    requires PickOk(shoe, catalog, "shoes") && PickOk(bag, catalog, "bag")
    requires jacket.Some? ==> jacket.value in catalog && jacket.value.category == "outerwear"
    requires forall y :: y in base ==> y.category != "shoes" && y.category != "bag" && y.category != "outerwear"
    requires OneItemPerCategory(base)
    ensures var d := AddOns(base, shoe, bag, jacket);
      FromCatalog(d, catalog) && OneItemPerCategory(d) && ShoeAndBagWhenOwned(d, catalog)
  {
    AddOnsFacts(base, shoe, bag, jacket);
    AddOnsShoeAndBag(base, shoe, bag, jacket, catalog);
  }

  lemma AddOnsShoeAndBag(base: seq<Item>, shoe: Option<Item>, bag: Option<Item>, jacket: Option<Item>, catalog: seq<Item>)
    requires PickOk(shoe, catalog, "shoes") && PickOk(bag, catalog, "bag")
    ensures ShoeAndBagWhenOwned(AddOns(base, shoe, bag, jacket), catalog)
  {
    var d := AddOns(base, shoe, bag, jacket);
    assert shoe.Some? ==> shoe.value in d;
    assert bag.Some? ==> bag.value in d;
    PickedShoeOrBag(catalog, "shoes", shoe, d);
    PickedShoeOrBag(catalog, "bag", bag, d);
  }

  lemma DressAddOnsOk(dress: Item, shoe: Option<Item>, bag: Option<Item>, jacket: Option<Item>, catalog: seq<Item>)
    requires dress in catalog && dress.category == "dress"
    requires PickOk(shoe, catalog, "shoes") && PickOk(bag, catalog, "bag")
    requires jacket.Some? ==> jacket.value in catalog && jacket.value.category == "outerwear"
    requires jacket.Some? ==> IsColorCompatible(jacket.value.color, dress.color)
    ensures var d := AddOns([dress], shoe, bag, jacket);
      |d| >= 2 ==> LookOk(Look(d, DressLook), catalog)
  {
    AddOnsFromCatalog([dress], shoe, bag, jacket, catalog);
    AddOnsFacts([dress], shoe, bag, jacket);
  }

  lemma SeparatesAddOnsOk(top: Item, bottom: Item, shoe: Option<Item>, bag: Option<Item>, jacket: Option<Item>,
                          catalog: seq<Item>)
    requires top in catalog && top.category == "top"
    requires bottom in catalog && bottom.category == "bottom"
    requires IsColorCompatible(top.color, bottom.color)
    requires PickOk(shoe, catalog, "shoes") && PickOk(bag, catalog, "bag")
    requires jacket.Some? ==> jacket.value in catalog && jacket.value.category == "outerwear"
    requires jacket.Some? ==> IsColorCompatible(jacket.value.color, top.color) &&
                              IsColorCompatible(jacket.value.color, bottom.color)
    ensures var d := AddOns([top, bottom], shoe, bag, jacket);
      |d| >= 3 ==> LookOk(Look(d, SeparatesLook), catalog)
  {
    AddOnsFromCatalog([top, bottom], shoe, bag, jacket, catalog);
    AddOnsFacts([top, bottom], shoe, bag, jacket);
  }

  /** Every accepted dress look has the shape of `LookOk`. */
  lemma DressItemsOk(dress: Item, catalog: seq<Item>)
    requires dress in catalog && dress.category == "dress"
    ensures var items := DressItems(dress, OfCategory(catalog, "shoes"), OfCategory(catalog, "bag"),
                                    OfCategory(catalog, "outerwear"));
      |items| >= 2 ==> LookOk(Look(items, DressLook), catalog)
  {
    var shoes, bags, outerwear := OfCategory(catalog, "shoes"), OfCategory(catalog, "bag"), OfCategory(catalog, "outerwear");
    var shoe, bag, jacket := DressPick(dress, shoes), DressPick(dress, bags), DressJacket(dress, outerwear);
    PickOkOfCategory(shoe, catalog, "shoes");
    PickOkOfCategory(bag, catalog, "bag");
    DressAddOnsOk(dress, shoe, bag, jacket, catalog);
  }

  /** Every accepted top-and-bottom look has the shape of `LookOk`. */
  lemma SeparatesItemsOk(top: Item, bottom: Item, catalog: seq<Item>)
    requires top in catalog && top.category == "top"
    requires bottom in catalog && bottom.category == "bottom"
    requires IsColorCompatible(top.color, bottom.color)
    ensures var items := SeparatesItems(top, bottom, OfCategory(catalog, "shoes"), OfCategory(catalog, "bag"),
                                        OfCategory(catalog, "outerwear"));
      |items| >= 3 ==> LookOk(Look(items, SeparatesLook), catalog)
  {
    var shoes, bags, outerwear := OfCategory(catalog, "shoes"), OfCategory(catalog, "bag"), OfCategory(catalog, "outerwear");
    var shoe, bag := SeparatesPick(top, bottom, shoes), SeparatesPick(top, bottom, bags);
    var jacket := SeparatesJacket(top, bottom, outerwear);
    PickOkOfCategory(shoe, catalog, "shoes");
    PickOkOfCategory(bag, catalog, "bag");
    SeparatesAddOnsOk(top, bottom, shoe, bag, jacket, catalog);
  }

  lemma {:induction false} DressLooksOk(dresses: seq<Item>, catalog: seq<Item>)
    requires forall d :: d in dresses ==> d in catalog && d.category == "dress"
    ensures forall l :: l in DressLooks(dresses, OfCategory(catalog, "shoes"), OfCategory(catalog, "bag"), OfCategory(catalog, "outerwear")) ==>
      LookOk(l, catalog) && l.kind == DressLook
  {
    if dresses != [] {
      var front := dresses[..|dresses| - 1];
      assert forall d :: d in front ==> d in dresses;
      DressLooksOk(front, catalog);
      DressItemsOk(dresses[|dresses| - 1], catalog);
    }
  }

  lemma {:induction false} PairLooksOk(top: Item, bottoms: seq<Item>, catalog: seq<Item>)
    requires top in catalog && top.category == "top"
    requires forall b :: b in bottoms ==> b in catalog && b.category == "bottom"
    ensures forall l :: l in PairLooks(top, bottoms, OfCategory(catalog, "shoes"), OfCategory(catalog, "bag"), OfCategory(catalog, "outerwear")) ==>
      LookOk(l, catalog) && l.kind == SeparatesLook
  {
    if bottoms != [] {
      var front := bottoms[..|bottoms| - 1];
      var bottom := bottoms[|bottoms| - 1];
      assert forall b :: b in front ==> b in bottoms;
      PairLooksOk(top, front, catalog);
      if IsColorCompatible(top.color, bottom.color) {
        SeparatesItemsOk(top, bottom, catalog);
      }
    }
  }

  lemma {:induction false} SeparatesLooksOk(tops: seq<Item>, bottoms: seq<Item>, catalog: seq<Item>)
    requires forall t :: t in tops ==> t in catalog && t.category == "top"
    requires forall b :: b in bottoms ==> b in catalog && b.category == "bottom"
    ensures forall l :: l in SeparatesLooks(tops, bottoms, OfCategory(catalog, "shoes"), OfCategory(catalog, "bag"), OfCategory(catalog, "outerwear")) ==>
      LookOk(l, catalog) && l.kind == SeparatesLook
  {
    if tops != [] {
      var front := tops[..|tops| - 1];
      assert forall t :: t in front ==> t in tops;
      SeparatesLooksOk(front, bottoms, catalog);
      PairLooksOk(tops[|tops| - 1], bottoms, catalog);
    }
  }

  /** Every look the generator accepts has the shape of `LookOk`; the dress
      looks come first and the top-and-bottom looks after them. */
  lemma AllLooksOk(catalog: seq<Item>)
    ensures forall l :: l in AllLooks(catalog) ==> LookOk(l, catalog)
    ensures var n := |DressLooks(OfCategory(catalog, "dress"), OfCategory(catalog, "shoes"), OfCategory(catalog, "bag"), OfCategory(catalog, "outerwear"))|;
      forall k :: 0 <= k < |AllLooks(catalog)| ==> (AllLooks(catalog)[k].kind == DressLook <==> k < n)
  {
    var dl := DressLooks(OfCategory(catalog, "dress"), OfCategory(catalog, "shoes"), OfCategory(catalog, "bag"), OfCategory(catalog, "outerwear"));
    var sl := SeparatesLooks(OfCategory(catalog, "top"), OfCategory(catalog, "bottom"), OfCategory(catalog, "shoes"), OfCategory(catalog, "bag"), OfCategory(catalog, "outerwear"));
    DressLooksOk(OfCategory(catalog, "dress"), catalog);
    SeparatesLooksOk(OfCategory(catalog, "top"), OfCategory(catalog, "bottom"), catalog);
    var all: seq<Look> := dl + sl;
    assert AllLooks(catalog) == all;
    forall k | 0 <= k < |all| ensures (all[k].kind == DressLook <==> k < |dl|) {
      if k < |dl| {
        assert all[k] in dl;
      } else {
        assert all[k] == sl[k - |dl|];
        assert sl[k - |dl|] in sl;
      }
    }
  }

  /** A generated outfit: its look has the shape of `LookOk`, dresses are
      for the evening and separates take `DetermineOccasion`'s tag, the
      score is `Score` of its items, and it starts neither saved nor worn. */
  predicate WellFormed(o: Outfit, catalog: seq<Item>)
  {
    LookOk(Look(o.items, o.metadata.kind), catalog) &&
    o.occasion == (if o.metadata.kind == DressLook then Evening else DetermineOccasion(o.items)) &&
    o.score == Score(o.items) && 0 <= o.score <= 10 &&
    o.metadata.colors == Colors(o.items) &&
    !o.saved && !o.worn
  }

  /** Every outfit `generateOutfits` returns is well formed. */
  lemma GeneratedOutfitsWellFormed(catalog: seq<Item>)
    ensures forall o :: o in GeneratedOutfits(catalog) ==> WellFormed(o, catalog)
  {
    var looks := Take(AllLooks(catalog), MaxOutfits);
    var candidates := Candidates(catalog);
    AllLooksOk(catalog);
    forall o | o in GeneratedOutfits(catalog) ensures WellFormed(o, catalog) {
      var sorted := SortByScore(candidates);
      var i :| 0 <= i < |GeneratedOutfits(catalog)| && GeneratedOutfits(catalog)[i] == o;
      assert o == sorted[i];
      assert o in candidates;
      var k :| 0 <= k < |candidates| && candidates[k] == o;
      assert o == ToOutfit(k, looks[k]);
      assert looks[k] == AllLooks(catalog)[k];
      assert looks[k] in AllLooks(catalog);
      ScoreBounds(o.items);
    }
  }

  /** Ties in score keep generation order, so among equal scores the dress
      outfits come before the top-and-bottom outfits. */
  lemma GeneratedTiesInGenerationOrder(catalog: seq<Item>)
    ensures TiesInIdOrder(GeneratedOutfits(catalog))
    ensures forall i, j ::
      (0 <= i < j < |GeneratedOutfits(catalog)| &&
       GeneratedOutfits(catalog)[i].score == GeneratedOutfits(catalog)[j].score &&
       GeneratedOutfits(catalog)[j].metadata.kind == DressLook) ==>
      GeneratedOutfits(catalog)[i].metadata.kind == DressLook
  {
    var candidates := Candidates(catalog);
    var looks := Take(AllLooks(catalog), MaxOutfits);
    assert IdsIncreasing(candidates);
    SortByScoreStable(candidates);
    var sorted := SortByScore(candidates);
    var result := GeneratedOutfits(catalog);
    assert forall k :: 0 <= k < |result| ==> result[k] == sorted[k];
    AllLooksOk(catalog);
    var n := |DressLooks(OfCategory(catalog, "dress"), OfCategory(catalog, "shoes"), OfCategory(catalog, "bag"), OfCategory(catalog, "outerwear"))|;
    assert forall o :: o in candidates ==> (o.metadata.kind == DressLook <==> o.id < n) by {
      forall o | o in candidates ensures (o.metadata.kind == DressLook <==> o.id < n) {
        var k :| 0 <= k < |candidates| && candidates[k] == o;
        assert looks[k] == AllLooks(catalog)[k];
      }
    }
    forall i, j | 0 <= i < j < |result| && result[i].score == result[j].score && result[j].metadata.kind == DressLook
      ensures result[i].metadata.kind == DressLook
    {
      assert result[i] in sorted && result[j] in sorted;
    }
  }

  // ---------------------------------------------------------------------
  // Worked examples
  // ---------------------------------------------------------------------

  /** A catalog whose only look is `look` generates exactly that look,
      numbered 0. */
  lemma SingleLookGenerated(catalog: seq<Item>, look: Look)
    requires AllLooks(catalog) == [look]
    ensures GeneratedOutfits(catalog) == [ToOutfit(0, look)]
  {
    assert Candidates(catalog) == [ToOutfit(0, look)];
    assert SortByScore([ToOutfit(0, look)]) == [ToOutfit(0, look)];
  }

  /** With one top and one compatible bottom, and no dress, the only look is
      the pair with whatever it gathered. */
  lemma OnePairLooks(catalog: seq<Item>, top: Item, bottom: Item, shoes: seq<Item>, bags: seq<Item>)
    requires OfCategory(catalog, "dress") == [] && OfCategory(catalog, "outerwear") == []
    requires OfCategory(catalog, "top") == [top] && OfCategory(catalog, "bottom") == [bottom]
    requires OfCategory(catalog, "shoes") == shoes && OfCategory(catalog, "bag") == bags
    requires IsColorCompatible(top.color, bottom.color)
    requires |SeparatesItems(top, bottom, shoes, bags, [])| >= 3
    ensures AllLooks(catalog) == [Look(SeparatesItems(top, bottom, shoes, bags, []), SeparatesLook)]
  {
    var look := Look(SeparatesItems(top, bottom, shoes, bags, []), SeparatesLook);
    assert [bottom][..0] == [] && [top][..0] == [];
    assert PairLooks(top, [bottom], shoes, bags, []) == PairLooks(top, [], shoes, bags, []) + [look];
    assert SeparatesLooks([top], [bottom], shoes, bags, []) ==
      SeparatesLooks([], [bottom], shoes, bags, []) + PairLooks(top, [bottom], shoes, bags, []);
    assert DressLooks([], shoes, bags, []) == [];
  }

  /** The category filter over a three-item catalog. */
  lemma OfCategoryOfThree(a: Item, b: Item, c: Item, category: string)
    ensures OfCategory([a, b, c], category) ==
      (if a.category == category then [a] else []) +
      (if b.category == category then [b] else []) +
      (if c.category == category then [c] else [])
  {
    var ta := if a.category == category then [a] else [];
    var tb := if b.category == category then [b] else [];
    var tc := if c.category == category then [c] else [];
    assert OfCategory([a], category) == ta by {
      OfCategorySnoc([], a, category);
      assert [] + [a] == [a];
    }
    assert OfCategory([a, b], category) == ta + tb by {
      OfCategorySnoc([a], b, category);
      assert [a] + [b] == [a, b];
    }
    OfCategorySnoc([a, b], c, category);
    assert [a, b] + [c] == [a, b, c];
  }

  /** A top, a bottom and a third item of another category: the filters
      the generator reads. */
  lemma OnePairCategories(top: Item, bottom: Item, third: Item)
    requires top.category == "top" && bottom.category == "bottom"
    requires third.category == "shoes" || third.category == "bag"
    ensures var catalog := [top, bottom, third];
      OfCategory(catalog, "top") == [top] && OfCategory(catalog, "bottom") == [bottom] &&
      OfCategory(catalog, "shoes") == (if third.category == "shoes" then [third] else []) &&
      OfCategory(catalog, "bag") == (if third.category == "bag" then [third] else []) &&
      OfCategory(catalog, "outerwear") == [] && OfCategory(catalog, "dress") == []
  {
    OnePairGarments(top, bottom, third);
    OnePairAccessories(top, bottom, third);
  }

  lemma OnePairGarments(top: Item, bottom: Item, third: Item)
    requires top.category == "top" && bottom.category == "bottom"
    requires third.category == "shoes" || third.category == "bag"
    ensures var catalog := [top, bottom, third];
      OfCategory(catalog, "top") == [top] && OfCategory(catalog, "bottom") == [bottom] &&
      OfCategory(catalog, "outerwear") == [] && OfCategory(catalog, "dress") == []
  {
    OfCategoryOfThree(top, bottom, third, "top");
    OfCategoryOfThree(top, bottom, third, "bottom");
    OfCategoryOfThree(top, bottom, third, "outerwear");
    OfCategoryOfThree(top, bottom, third, "dress");
  }

  lemma OnePairAccessories(top: Item, bottom: Item, third: Item)
    requires top.category == "top" && bottom.category == "bottom"
    requires third.category == "shoes" || third.category == "bag"
    ensures var catalog := [top, bottom, third];
      OfCategory(catalog, "shoes") == (if third.category == "shoes" then [third] else []) &&
      OfCategory(catalog, "bag") == (if third.category == "bag" then [third] else [])
  {
    OfCategoryOfThree(top, bottom, third, "shoes");
    OfCategoryOfThree(top, bottom, third, "bag");
  }

  /** A shoe or a bag gathered by a compatible top and bottom. */
  lemma OnePairItems(top: Item, bottom: Item, third: Item)
    requires third.category == "shoes" || third.category == "bag"
    ensures var shoes := if third.category == "shoes" then [third] else [];
      var bags := if third.category == "bag" then [third] else [];
      SeparatesItems(top, bottom, shoes, bags, []) == [top, bottom, third]
  {
    assert SeparatesPick(top, bottom, [third]) == Some(third);
    assert SeparatesPick(top, bottom, []) == None;
  }

  lemma OnePairAllLooks(top: Item, bottom: Item, third: Item)
    requires top.category == "top" && bottom.category == "bottom"
    requires third.category == "shoes" || third.category == "bag"
    requires IsColorCompatible(top.color, bottom.color)
    ensures AllLooks([top, bottom, third]) == [Look([top, bottom, third], SeparatesLook)]
  {
    var shoes := if third.category == "shoes" then [third] else [];
    var bags := if third.category == "bag" then [third] else [];
    OnePairItems(top, bottom, third);
    OnePairCategories(top, bottom, third);
    OnePairLooks([top, bottom, third], top, bottom, shoes, bags);
  }

  /** A compatible top and bottom with one shoe or one bag: exactly one
      outfit, the three items in order. */
  lemma OnePairGenerated(top: Item, bottom: Item, third: Item)
    requires top.category == "top" && bottom.category == "bottom"
    requires third.category == "shoes" || third.category == "bag"
    requires IsColorCompatible(top.color, bottom.color)
    ensures GeneratedOutfits([top, bottom, third]) == [ToOutfit(0, Look([top, bottom, third], SeparatesLook))]
  {
    OnePairAllLooks(top, bottom, third);
    SingleLookGenerated([top, bottom, third], Look([top, bottom, third], SeparatesLook));
  }

  /** Top, bottom and shoes in three colours score 2 + 2 + 1 + 2. */
  lemma ThreePieceScore(top: Item, bottom: Item, shoe: Item)
    requires top.category == "top" && bottom.category == "bottom" && shoe.category == "shoes"
    requires top.color != bottom.color && top.color != shoe.color && bottom.color != shoe.color
    ensures Score([top, bottom, shoe]) == 7
  {
    var items := [top, bottom, shoe];
    assert ColorSet(items) == {top.color, bottom.color, shoe.color};
    PresencePointsByCategory(items);
    assert items[0].category == "top" && items[1].category == "bottom" && items[2].category == "shoes";
    assert !HasCategory(items, "bag") && !HasCategory(items, "outerwear");
  }

  /** Neither a blazer nor heels: the look is casual. */
  lemma ThreePieceOccasion(top: Item, bottom: Item, shoe: Item)
    requires top.subcategory == "tee" && bottom.subcategory == "trousers" && shoe.subcategory == "sneakers"
    ensures DetermineOccasion([top, bottom, shoe]) == Casual
  {
    var items := [top, bottom, shoe];
    assert forall k :: 0 <= k < |items| ==> items[k].subcategory !in ["blazer", "heels"];
  }

  /** The outfit built from a tee, trousers and sneakers in three colours. */
  lemma ThreePieceOutfit(top: Item, bottom: Item, shoe: Item)
    requires top.category == "top" && bottom.category == "bottom" && shoe.category == "shoes"
    requires top.color != bottom.color && top.color != shoe.color && bottom.color != shoe.color
    requires top.subcategory == "tee" && bottom.subcategory == "trousers" && shoe.subcategory == "sneakers"
    ensures ToOutfit(0, Look([top, bottom, shoe], SeparatesLook)) ==
      Outfit(0, [top, bottom, shoe], Casual, 7, false, false,
             Metadata(SeparatesLook, [top.color, bottom.color, shoe.color]))
  {
    ThreePieceScore(top, bottom, shoe);
    ThreePieceOccasion(top, bottom, shoe);
  }

  /** A black tee, navy trousers and white sneakers give one casual
      outfit of score 7: 2 + 2 + 1 for the categories, 2 for three colours. */
  lemma ThreePieceScenario()
    ensures var top := Item("t", "", "top", "tee", "black", "fitted", "all-season");
      var bottom := Item("b", "", "bottom", "trousers", "navy", "straight", "all-season");
      var shoe := Item("s", "", "shoes", "sneakers", "white", "", "all-season");
      GeneratedOutfits([top, bottom, shoe]) ==
        [Outfit(0, [top, bottom, shoe], Casual, 7, false, false,
                Metadata(SeparatesLook, ["black", "navy", "white"]))]
  {
    var top := Item("t", "", "top", "tee", "black", "fitted", "all-season");
    var bottom := Item("b", "", "bottom", "trousers", "navy", "straight", "all-season");
    var shoe := Item("s", "", "shoes", "sneakers", "white", "", "all-season");
    NeutralCompatibleWithAll("black", "navy");
    OnePairGenerated(top, bottom, shoe);
    ThreePieceOutfit(top, bottom, shoe);
  }

  /** A top and bottom need no shoe: a bag supplies the third item. */
  lemma ShoeNotRequired()
    ensures var top := Item("t", "", "top", "tee", "black", "fitted", "all-season");
      var bottom := Item("b", "", "bottom", "jeans", "blue", "straight", "all-season");
      var bag := Item("g", "", "bag", "tote", "black", "", "all-season");
      |GeneratedOutfits([top, bottom, bag])| == 1 &&
      GeneratedOutfits([top, bottom, bag])[0].items == [top, bottom, bag]
  {
    var top := Item("t", "", "top", "tee", "black", "fitted", "all-season");
    var bottom := Item("b", "", "bottom", "jeans", "blue", "straight", "all-season");
    var bag := Item("g", "", "bag", "tote", "black", "", "all-season");
    NeutralCompatibleWithAll("black", "blue");
    OnePairGenerated(top, bottom, bag);
  }

  // ---------------------------------------------------------------------
  // Save, wear and swap
  // ---------------------------------------------------------------------

  datatype Action = Wear | Swap | Save

  /** The outfit list after an action on the outfit with id `id`: save
      flips `saved`, wear sets `worn`, swap changes nothing. */
  function ApplyAction(outfits: seq<Outfit>, id: nat, action: Action): (r: seq<Outfit>)
    ensures |r| == |outfits|
    ensures forall k :: 0 <= k < |r| && outfits[k].id != id ==> r[k] == outfits[k]
    ensures forall k :: 0 <= k < |r| ==>
      r[k] == outfits[k].(saved := r[k].saved, worn := r[k].worn)
    ensures forall k :: 0 <= k < |r| && outfits[k].id == id ==>
      r[k].saved == (if action == Save then !outfits[k].saved else outfits[k].saved) &&
      r[k].worn == (action == Wear || outfits[k].worn)
  {
    match action
    case Save =>
      seq(|outfits|, k requires 0 <= k < |outfits| =>
        if outfits[k].id == id then outfits[k].(saved := !outfits[k].saved) else outfits[k])
    case Wear =>
      seq(|outfits|, k requires 0 <= k < |outfits| =>
        if outfits[k].id == id then outfits[k].(worn := true) else outfits[k])
    case Swap => outfits
  }

  /** Saving twice restores the list. */
  lemma SaveTwiceRestores(outfits: seq<Outfit>, id: nat)
    ensures ApplyAction(ApplyAction(outfits, id, Save), id, Save) == outfits
  {
    var r := ApplyAction(ApplyAction(outfits, id, Save), id, Save);
    assert forall k :: 0 <= k < |r| ==> r[k] == outfits[k];
  }

  /** Wearing is idempotent. */
  lemma WearIdempotent(outfits: seq<Outfit>, id: nat)
    ensures ApplyAction(ApplyAction(outfits, id, Wear), id, Wear) == ApplyAction(outfits, id, Wear)
  {
    var once := ApplyAction(outfits, id, Wear);
    var twice := ApplyAction(once, id, Wear);
    assert forall k :: 0 <= k < |twice| ==> twice[k] == once[k];
  }

  lemma SwapChangesNothing(outfits: seq<Outfit>, id: nat)
    ensures ApplyAction(outfits, id, Swap) == outfits
  {
  }

  /** The outfits page: the generated list and the actions on it. */
  class OutfitsPage {
    var outfits: seq<Outfit>
    var signedIn: bool

    constructor (signedIn: bool)
      ensures this.outfits == [] && this.signedIn == signedIn
    {
      this.outfits := [];
      this.signedIn := signedIn;
    }

    /** `loadOutfits` after the user is known: a failed read changes
        nothing, no rows or fewer than three send the user back to the
        closet, otherwise the list is generated. */
    method LoadOutfits(query: Query) returns (redirected: bool)
      modifies this`outfits
      ensures redirected <==> query.QueryNull? || (query.QueryRows? && |query.rows| < MinCatalog)
      ensures outfits ==
        if query.QueryRows? && |query.rows| >= MinCatalog then GeneratedOutfits(query.rows) else old(outfits)
    {
      match query {
        case QueryFailed =>
          return false;
        case QueryNull =>
          return true;
        case QueryRows(closetItems) =>
          if |closetItems| < MinCatalog {
            return true;
          }
          outfits := GenerateOutfits(closetItems);
          redirected := false;
      }
    }

    /** `handleAction`: nothing without a user or for an unknown id;
        otherwise the list becomes `ApplyAction`'s. */
    method HandleAction(outfitId: nat, action: Action)
      modifies this`outfits
      ensures outfits ==
        if signedIn && exists k :: 0 <= k < |old(outfits)| && old(outfits)[k].id == outfitId
        then ApplyAction(old(outfits), outfitId, action)
        else old(outfits)
    {
      if !signedIn {
        return;
      }
      var found := exists k :: 0 <= k < |outfits| && outfits[k].id == outfitId;
      if !found {
        return;
      }
      if action == Save {
        outfits := ApplyAction(outfits, outfitId, Save);
      } else if action == Wear {
        outfits := ApplyAction(outfits, outfitId, Wear);
      }
    }
  }
}
