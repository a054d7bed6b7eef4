/** The onboarding form: sizes, a budget band, style vibes, a climate and
    favourite brands, edited field by field before the profile is saved. */
module Onboarding {
  import opened Catalog

  datatype Sizes = Sizes(top: string, bottom: string, shoe: string)

  datatype FormData = FormData(
    sizes: Sizes,
    budgetBand: string,
    vibes: seq<string>,
    climate: string,
    brands: seq<string>)

  /** The form as the page opens it. */
  const InitialForm: FormData := FormData(Sizes("", "", ""), "", [], "temperate", [])

  // ---------------------------------------------------------------------
  // Toggling a choice in a list
  // ---------------------------------------------------------------------

  /** `s` with every occurrence of `x` filtered out. */
  function Without(s: seq<string>, x: string): (r: seq<string>)
    ensures |r| <= |s|
  {
    if s == [] then []
    else
      var last := s[|s| - 1];
      Without(s[..|s| - 1], x) + (if last == x then [] else [last])
  }

  lemma WithoutSnoc(s: seq<string>, y: string, x: string)
    ensures Without(s + [y], x) == Without(s, x) + (if y == x then [] else [y])
  {
    assert (s + [y])[..|s|] == s;
  }

  /** Every occurrence of `x` goes, every other entry stays. */
  lemma {:induction false} WithoutMembers(s: seq<string>, x: string, y: string)
    ensures y in Without(s, x) <==> y in s && y != x
  {
    if s != [] {
      var n := |s| - 1;
      assert s == s[..n] + [s[n]];
      WithoutMembers(s[..n], x, y);
    }
  }

  /** Filtering out a value that is not there changes nothing. */
  lemma {:induction false} WithoutAbsent(s: seq<string>, x: string)
    requires x !in s
    ensures Without(s, x) == s
  {
    if s != [] {
      var n := |s| - 1;
      assert s == s[..n] + [s[n]];
      WithoutAbsent(s[..n], x);
    }
  }

  /** Filtering twice is filtering once. */
  lemma {:induction false} WithoutIdempotent(s: seq<string>, x: string)
    ensures Without(Without(s, x), x) == Without(s, x)
  {
    if s != [] {
      var n := |s| - 1;
      var front, last := s[..n], s[n];
      var w := Without(front, x);
      assert s == front + [last];
      WithoutSnoc(front, last, x);
      WithoutIdempotent(front, x);
      if last != x {
        assert Without(s, x) == w + [last];
        WithoutSnoc(w, last, x);
      } else {
        assert Without(s, x) == w;
      }
    }
  }

  /** Filtering keeps a duplicate-free list duplicate-free. */
  lemma {:induction false} WithoutNoDuplicates(s: seq<string>, x: string)
    requires NoDuplicates(s)
    ensures NoDuplicates(Without(s, x))
  {
    if s != [] {
      var n := |s| - 1;
      var front := s[..n];
      assert NoDuplicates(front);
      WithoutNoDuplicates(front, x);
      if s[n] != x {
        WithoutMembers(front, x, s[n]);
        assert s[n] !in front;
      }
    }
  }

  /** A chosen `x` is filtered out; an unchosen one is appended. */
  function Toggle(s: seq<string>, x: string): (r: seq<string>)
    ensures x in r <==> x !in s
  {
    if x in s then
      WithoutMembers(s, x, x);
      Without(s, x)
    else s + [x]
  }

  /** An absent choice is appended at the end; a present one is removed
      with every repeat of it. */
  lemma ToggleEffect(s: seq<string>, x: string)
    ensures x !in s ==> Toggle(s, x) == s + [x]
    ensures x in s ==> x !in Toggle(s, x) && forall y :: y != x ==> (y in Toggle(s, x) <==> y in s)
  {
    if x in s {
      forall y | y != x ensures y in Toggle(s, x) <==> y in s {
        WithoutMembers(s, x, y);
      }
    }
  }

  /** Toggling an absent choice twice gives back the list exactly. */
  lemma ToggleTwiceRestores(s: seq<string>, x: string)
    requires x !in s
    ensures Toggle(Toggle(s, x), x) == s
  {
    WithoutSnoc(s, x, x);
    WithoutAbsent(s, x);
  }

  /** A toggle changes only whether `x` is chosen: the other choices keep
      their order. */
  lemma ToggleKeepsOthers(s: seq<string>, x: string)
    ensures Without(Toggle(s, x), x) == Without(s, x)
  {
    if x in s {
      WithoutIdempotent(s, x);
    } else {
      WithoutSnoc(s, x, x);
    }
  }

  /** Toggling keeps a duplicate-free list duplicate-free. */
  lemma ToggleNoDuplicates(s: seq<string>, x: string)
    requires NoDuplicates(s)
    ensures NoDuplicates(Toggle(s, x))
  {
    if x in s {
      WithoutNoDuplicates(s, x);
    }
  }

  // ---------------------------------------------------------------------
  // Form updates
  // ---------------------------------------------------------------------

  /** A click on a style vibe. */
  function ToggleVibe(form: FormData, vibe: string): FormData
  {
    form.(vibes := Toggle(form.vibes, vibe))
  }

  /** A click on a brand. */
  function ToggleBrand(form: FormData, brand: string): FormData
  {
    form.(brands := Toggle(form.brands, brand))
  }

  /** A brand toggle follows the list rules on the brands and leaves the
      vibes and every other field alone; a vibe toggle likewise leaves the
      brands alone. */
  lemma TogglesTouchOneList(form: FormData, choice: string)
    ensures ToggleBrand(form, choice).vibes == form.vibes
    ensures ToggleBrand(form, choice).(brands := form.brands) == form
    ensures choice in ToggleBrand(form, choice).brands <==> choice !in form.brands
    ensures ToggleVibe(form, choice).brands == form.brands
    ensures ToggleVibe(form, choice).(vibes := form.vibes) == form
    ensures choice in ToggleVibe(form, choice).vibes <==> choice !in form.vibes
  {
  }

  datatype SizeField = TopSize | BottomSize | ShoeSize

  /** The three size inputs: each replaces one size. */
  function SetSize(form: FormData, field: SizeField, value: string): FormData
  {
    match field
    case TopSize => form.(sizes := form.sizes.(top := value))
    case BottomSize => form.(sizes := form.sizes.(bottom := value))
    case ShoeSize => form.(sizes := form.sizes.(shoe := value))
  }

  function SizeOf(sizes: Sizes, field: SizeField): string
  {
    match field
    case TopSize => sizes.top
    case BottomSize => sizes.bottom
    case ShoeSize => sizes.shoe
  }

  /** A size edit sets that size and leaves the other two sizes and every
      other field unchanged; editing one size never undoes another. */
  lemma SetSizeOnlyThatField(form: FormData, field: SizeField, value: string, other: SizeField)
    ensures SizeOf(SetSize(form, field, value).sizes, field) == value
    ensures other != field ==> SizeOf(SetSize(form, field, value).sizes, other) == SizeOf(form.sizes, other)
    ensures SetSize(form, field, value).(sizes := form.sizes) == form
  {
  }

  /** Two edits of different sizes commute. */
  lemma SetSizesCommute(form: FormData, f: SizeField, a: string, g: SizeField, b: string)
    requires f != g
    ensures SetSize(SetSize(form, f, a), g, b) == SetSize(SetSize(form, g, b), f, a)
  {
  }

  /** The budget buttons. */
  function SetBudget(form: FormData, budget: string): FormData
  {
    form.(budgetBand := budget)
  }

  /** The climate select. */
  function SetClimate(form: FormData, climate: string): FormData
  {
    form.(climate := climate)
  }

  /** The budget buttons and the climate select each set their own field
      and nothing else. */
  lemma BudgetAndClimateEdits(form: FormData, budget: string, climate: string)
    ensures SetBudget(form, budget).budgetBand == budget
    ensures SetBudget(form, budget).(budgetBand := form.budgetBand) == form
    ensures SetClimate(form, climate).climate == climate
    ensures SetClimate(form, climate).(climate := form.climate) == form
  {
  }

  /** The submit button is enabled when not saving, a budget is chosen and
      at least one vibe is. */
  predicate SubmitEnabled(loading: bool, form: FormData)
  {
    !loading && form.budgetBand != "" && |form.vibes| > 0
  }

  /** The opening form cannot be submitted; choosing a budget and toggling
      one vibe on is enough. */
  lemma SubmitNeedsBudgetAndVibe(budget: string, vibe: string)
    requires budget != ""
    ensures !SubmitEnabled(false, InitialForm)
    ensures SubmitEnabled(false, ToggleVibe(SetBudget(InitialForm, budget), vibe))
    ensures !SubmitEnabled(false, ToggleVibe(ToggleVibe(SetBudget(InitialForm, budget), vibe), vibe))
  {
    ToggleTwiceRestores([], vibe);
  }
}
