# Wardrobe app rules in Dafny

This project models the rule engine and page state of a wardrobe web app and proves properties of the model. In the app, users photograph their clothes, tag each item by hand, and then receive a "capsule" and daily outfit suggestions. Five modules make up the model:

- `Catalog` (`catalog.dfy`): the item record both generators read, the outcome of reading a user's closet rows, the category filter and a bounded prefix (`Take`).
- `Outfits` (`outfits.dfy`): the outfits page.
  - The colour-compatibility rule, the additive score and the occasion tag.
  - `GenerateOutfits`: dress looks first, then every compatible top and bottom, with first-match shoe, bag and jacket picks. It stops at ten candidates and sorts them stably by score. It is written as a method with the page's loops, `break`s and `continue`s, and proved equal to the specification function `GeneratedOutfits`.
  - `OutfitsPage`: a class holding the generated list. Its methods load the list and apply save, wear and swap.
- `Capsule` (`capsule.dfy`): the capsule page.
  - `GenerateCapsule` counts the items of each category into a map. It walks the priority list pushing "gap" suggestions, appends the blazer and bag gaps, and cuts the list to six.
  - `CapsulePage.LoadCapsule` adds the eight-item guard.
- `Closet` (`closet.dfy`): the closet page, as a class over its item list.
  - The batch upload loop: image files only, at most fifteen items, each item appended as uploading and then settled by its upload's outcome.
  - Removal by id, the partial-update merge, the category picker clearing the subcategory, the confirm guard, the confirmed count and the continue gate.
- `Onboarding` (`onboarding.dfy`): the onboarding form as pure updates.
  - The vibe and brand toggles.
  - The three size fields, the budget and the climate.
  - The submit-enabled predicate.

Where the code departs from what its rules seem to intend, the model follows the code:

- Shoe and bag picks take the first item that matches the colour exactly *or* is compatible (`FindOrFirst`, `MatchesDress`, `MatchesSeparates`). An exact match is not preferred over an earlier compatible one.
- For separates, shoes and bags are tested against the top's compatibility only. The bottom counts only through an exact colour match.
- Separates need no shoe: a bag or a jacket can be the third item (`ShoeNotRequired`).
- The score is at most 10 (`ScoreBounds`): 2 + 2 + 1 + 1 + 1 for the categories plus 3 for harmony.
- A closet without outerwear or without a bag gets two gaps of that category in the uncut gap list (`DuplicateGapsKept`); nothing removes the duplicate. The cut to six can still drop the second one: an empty closet is shown six missing-item gaps and no blazer or bag gap (`EmptyClosetGaps`). Both are shown whenever the priority loop suggests at most four gaps (`DuplicateGapsShown`).
- The hard-coded colour pairs never change the answer, because each of them contains a neutral (`CombosAddNothing`).

Identities are modelled as follows:

- The page's outfit id "outfit-k" is the number `k`.
- A closet item's random temporary id is a fresh number drawn from a counter (`ClosetPage.nextId`).
- How each file's storage upload ends is carried by the file itself (`PickedFile.upload`).

## Model

| member | source | states |
|---|---|---|
| Catalog.OfCategory | app/outfits/page.tsx:94-99 | The category filter: an item is kept iff it is in the catalog with that category, and the result is never longer than the catalog |
| Catalog.OfCategoryNonEmpty | app/outfits/page.tsx:94-99 | The filter finds something iff some item has the category |
| Catalog.OfCategorySnoc | app/outfits/page.tsx:94-99 | One more catalog item joins the end of the result exactly when it has the category |
| Catalog.OfCategoryAppend | app/outfits/page.tsx:94-99 | The filter distributes over concatenation, so it keeps catalog order and every occurrence |
| Catalog.Take | app/outfits/page.tsx:178 | A slice from the start: length is the smaller of the bound and the length, and every element is the input's at the same place |
| Outfits.IsColorCompatible | app/outfits/page.tsx:181-206 | Definition of the rule, test by test in the code's order; the lemmas below state its properties |
| Outfits.CompatibleReflexive | app/outfits/page.tsx:187-190 | Every colour string is compatible with itself |
| Outfits.CompatibleSymmetric | app/outfits/page.tsx:181-206 | Compatibility does not depend on argument order |
| Outfits.NeutralCompatibleWithAll | app/outfits/page.tsx:182-187 | A neutral colour is compatible with any colour, on either side |
| Outfits.CombosAddNothing | app/outfits/page.tsx:181-206 | The rule holds iff the colours are equal, one is neutral, or both are warm or both cool: the hard-coded pairs never decide |
| Outfits.UnlistedColorsIncompatible | app/outfits/page.tsx:182-205 | Two different colours outside the neutral, warm and cool lists are incompatible |
| Outfits.OliveBlushIncompatible | app/outfits/page.tsx:182-205 | Olive and blush do not match |
| Outfits.DistinctColors | app/outfits/page.tsx:231-232 | The de-duplicated colour list has no repeats and holds exactly the outfit's colours |
| Outfits.DistinctColorsCount | app/outfits/page.tsx:232-234 | Its length is the number of distinct colours |
| Outfits.Score | app/outfits/page.tsx:218-237 | Definition of the score as category weights plus a harmony bonus; `CalculateOutfitScore` is proved equal to it and `ScoreBounds` bounds it |
| Outfits.PresencePointsByCategory | app/outfits/page.tsx:221-228 | The category part of the score is 2 for a top, 2 for a bottom, and 1 each for shoes, bag and outerwear |
| Outfits.ScoreBounds | app/outfits/page.tsx:218-237 | Every outfit scores between 0 and 10 |
| Outfits.ScoreDependsOnPresenceAndColorCount | app/outfits/page.tsx:218-237 | Two outfits with the same categories present and the same number of distinct colours score the same |
| Outfits.CalculateOutfitScore | app/outfits/page.tsx:218-237 | The step-by-step score equals the specification `Score` and lies in 0..10 |
| Outfits.DetermineOccasion | app/outfits/page.tsx:208-216 | Never "evening"; "work" iff some item's subcategory is blazer or heels, otherwise "casual" |
| Outfits.FindIndex | app/outfits/page.tsx:108-110 | The index of the first item passing the test, or none when no item passes |
| Outfits.Find | app/outfits/page.tsx:110 | Some item at a position where it passes the test and no earlier item does, so the first passing one; none means no item passes |
| Outfits.FindOrFirst | app/outfits/page.tsx:108-109 | Nothing only for an empty list; otherwise the first item passing the test, or the first item when none passes |
| Outfits.DressPick | app/outfits/page.tsx:108-109 | A dress gets a shoe (or bag) whenever the list is non-empty: the first one matching or compatible with the dress, else the first one |
| Outfits.DressJacket | app/outfits/page.tsx:110 | A dress's jacket is the first jacket compatible with the dress; there is none only when no jacket is compatible |
| Outfits.SeparatesPick | app/outfits/page.tsx:138-148 | A top and bottom get a shoe (or bag) whenever the list is non-empty: the first one of the top's or bottom's colour or compatible with the top, else the first one |
| Outfits.SeparatesJacket | app/outfits/page.tsx:150-153 | The jacket is the first one compatible with both top and bottom; there is none only when no jacket is compatible with both |
| Outfits.DressItems | app/outfits/page.tsx:108-116 | Definition of a dress look's items: the dress, then its shoe, bag and jacket when there are any; `DressItemsOk` states their shape |
| Outfits.SeparatesItems | app/outfits/page.tsx:136-155 | Definition of a pair's items: top, bottom, then shoe, bag and jacket when there are any; `SeparatesItemsOk` states their shape |
| Outfits.Candidates | app/outfits/page.tsx:106 | At most ten candidates are built |
| Outfits.Insert | app/outfits/page.tsx:177 | Insertion adds exactly one element and keeps all the others |
| Outfits.SortByScore | app/outfits/page.tsx:177 | The sort keeps the length and the elements |
| Outfits.SortByScorePermutes | app/outfits/page.tsx:177 | The sort's result is a permutation of its input |
| Outfits.InsertSorted | app/outfits/page.tsx:177 | Inserting into a list sorted by descending score keeps it sorted |
| Outfits.SortByScoreSorted | app/outfits/page.tsx:177 | The sort's result is ordered by non-increasing score |
| Outfits.SortByScoreStable | app/outfits/page.tsx:177 | The sort is stable: on input in generation order, equal scores stay in generation order |
| Outfits.GeneratedOutfits | app/outfits/page.tsx:90-179 | Definition of the returned list as the first ten of the sorted candidates; the lemmas below and `GenerateOutfits` state its properties |
| Outfits.GeneratedOutfitsSorted | app/outfits/page.tsx:175-178 | The returned list has at most ten outfits, by non-increasing score |
| Outfits.PairLooksAccept | app/outfits/page.tsx:136-171 | A compatible pair with at least three items adds its look after the earlier ones |
| Outfits.PairLooksSkip | app/outfits/page.tsx:136-159 | An incompatible pair, or one with fewer than three items, adds nothing |
| Outfits.CapReached | app/outfits/page.tsx:106-133 | Once ten outfits exist, later looks change nothing |
| Outfits.CollectDressOutfits | app/outfits/page.tsx:105-128 | The dress loop yields the first ten accepted dress looks, numbered, each "evening" with its score |
| Outfits.CollectPairOutfits | app/outfits/page.tsx:131-172 | One top's pass over the bottoms extends the numbered list by that top's accepted pairs, up to ten in all |
| Outfits.GenerateOutfits | app/outfits/page.tsx:90-179 | The loops compute `GeneratedOutfits`: at most ten outfits, by non-increasing score |
| Outfits.PushIfKeepsOnePerCategory | app/outfits/page.tsx:113-114 | Pushing an item of a category not yet present keeps one item per category |
| Outfits.AddOnsFacts | app/outfits/page.tsx:112-114 | Shoe, bag and jacket are added after the base without repeating a category |
| Outfits.DressItemsOk | app/outfits/page.tsx:108-116 | An accepted dress look: dress first, at least two items, one per category, items from the catalog, shoe and bag whenever owned, jacket compatible with the dress |
| Outfits.SeparatesItemsOk | app/outfits/page.tsx:136-159 | An accepted separates look: compatible top then bottom, at least three items, one per category, shoe and bag whenever owned, jacket compatible with both |
| Outfits.DressLooksOk | app/outfits/page.tsx:105-128 | Every dress look of the loop is well shaped and tagged as a dress look |
| Outfits.PairLooksOk | app/outfits/page.tsx:132-172 | Every look of one top is a well-shaped separates look |
| Outfits.SeparatesLooksOk | app/outfits/page.tsx:131-173 | Every top-and-bottom look is a well-shaped separates look |
| Outfits.AllLooksOk | app/outfits/page.tsx:104-173 | Every accepted look is well shaped, and the dress looks come first |
| Outfits.GeneratedOutfitsWellFormed | app/outfits/page.tsx:90-179 | Every returned outfit is well shaped, dresses are "evening", separates take the occasion rule, the score is the outfit's score in 0..10, colours are listed, and it starts unsaved and unworn |
| Outfits.GeneratedTiesInGenerationOrder | app/outfits/page.tsx:177 | Among equal scores the returned outfits keep generation order, so dress outfits precede separates |
| Outfits.SingleLookGenerated | app/outfits/page.tsx:90-179 | A catalog with a single accepted look generates exactly that outfit, numbered 0 |
| Outfits.OnePairGenerated | app/outfits/page.tsx:131-172 | A compatible top and bottom with one shoe or one bag give exactly one outfit of those three items |
| Outfits.ThreePieceScore | app/outfits/page.tsx:218-237 | Top, bottom and shoes in three colours score 7 |
| Outfits.ThreePieceOccasion | app/outfits/page.tsx:208-216 | A tee, trousers and sneakers are "casual" |
| Outfits.ThreePieceScenario | app/outfits/page.tsx:90-237 | A black tee, navy trousers and white sneakers give one casual outfit of score 7 |
| Outfits.ShoeNotRequired | app/outfits/page.tsx:155-159 | A top, a bottom and a bag, with no shoe, still give an outfit |
| Outfits.ApplyAction | app/outfits/page.tsx:265-303 | Only the outfit with that id changes, and only in `saved` and `worn`: save flips `saved`, wear sets `worn`, swap changes nothing |
| Outfits.SaveTwiceRestores | app/outfits/page.tsx:266-268 | Saving twice restores the list |
| Outfits.WearIdempotent | app/outfits/page.tsx:279-281 | Wearing twice is wearing once |
| Outfits.SwapChangesNothing | app/outfits/page.tsx:291-303 | Swap leaves the list unchanged |
| Outfits.OutfitsPage.constructor | app/outfits/page.tsx:28-30 | The page opens with no outfits, for a user who is or is not signed in |
| Outfits.OutfitsPage.LoadOutfits | app/outfits/page.tsx:46-66 | A failed read changes nothing; no rows or fewer than three redirect; otherwise the list becomes the generated outfits |
| Outfits.OutfitsPage.HandleAction | app/outfits/page.tsx:258-308 | Without a user or for an unknown id nothing changes; otherwise the list takes the action |
| Capsule.CountIn | app/capsule/page.tsx:99-102 | Definition of a category's count; `CountInPositive` and `CountCategories` state what it means |
| Capsule.CountInPositive | app/capsule/page.tsx:99-102 | A category's count is positive iff some item has the category |
| Capsule.CountCategories | app/capsule/page.tsx:99-102 | The counts map holds each category's number of items, with a key exactly for the categories present |
| Capsule.MissingGap | app/capsule/page.tsx:111-117 | Definition of the gap for a category with nothing: black straight trousers for bottoms, a neutral straight piece otherwise |
| Capsule.SecondGap | app/capsule/page.tsx:118-125 | Definition of the gap for a category with one item: blue straight bottoms, a neutral fitted piece otherwise |
| Capsule.GapShapes | app/capsule/page.tsx:111-125 | The missing gap is black straight trousers for bottoms, neutral straight otherwise; the second-item gap is blue straight for bottoms, neutral fitted otherwise, with its "An additional ..." reason |
| Capsule.GapFor | app/capsule/page.tsx:108-125 | A gap iff the count is 0, or 1 for a category other than accessory; a count of 0 gives the missing-item gap and a count of 1 the second-item gap |
| Capsule.ExtraGaps | app/capsule/page.tsx:128-145 | Definition of the two strategic gaps: the blazer without outerwear, then the bag without a bag |
| Capsule.AllGaps | app/capsule/page.tsx:107-145 | Definition of the uncut gap list: the loop's gaps, then the strategic ones; the lemmas below state its properties |
| Capsule.GenerateCapsule | app/capsule/page.tsx:93-147 | All items are selected unchanged; the gaps are the first six of the full gap list, so at most six and a prefix of it |
| Capsule.PriorityGapsMembership | app/capsule/page.tsx:107-126 | A gap comes from the priority loop iff some listed category's count calls for it |
| Capsule.AllGapsDependOnlyOnPriorityCounts | app/capsule/page.tsx:99-145 | Closets with the same counts in the listed categories get the same gaps |
| Capsule.UnlistedCategoryIgnored | app/capsule/page.tsx:99-107 | An item of an unlisted category never changes the gaps |
| Capsule.GapsAreForScarceCategories | app/capsule/page.tsx:107-145 | Every gap names a listed category holding at most one item |
| Capsule.NoGapsIff | app/capsule/page.tsx:107-145 | No gap iff there is an accessory and at least two items of every other listed category |
| Capsule.DuplicateGapsKept | app/capsule/page.tsx:107-145 | Without outerwear (or a bag) the uncut gap list holds two gaps of that category |
| Capsule.DuplicateGapsShown | app/capsule/page.tsx:107-147 | When the loop suggests at most four gaps, the cut to six keeps the whole list, so both gaps of a missing outerwear or bag are shown |
| Capsule.NothingOwnedAllMissing | app/capsule/page.tsx:107-117 | Categories that own nothing each get the missing-item gap, in priority order |
| Capsule.EmptyClosetGaps | app/capsule/page.tsx:107-147 | An empty closet is shown the missing top, bottom, dress, outerwear, shoes and bag, in that order |
| Capsule.CapsulePage.constructor | app/capsule/page.tsx:25-27 | The page opens with no items, no gaps, and loading |
| Capsule.CapsulePage.LoadCapsule | app/capsule/page.tsx:44-91 | No rows or fewer than eight redirect and change nothing; eight or more show the items and the first six gaps; loading ends in every case |
| Closet.Merge | app/closet/page.tsx:289-291 | Definition of the object spread of a partial update: each given field wins; the lemmas below state its properties |
| Closet.MergeKeepsOtherFields | app/closet/page.tsx:289-291 | An update keeps the id and every field it does not give |
| Closet.MergeNoChange | app/closet/page.tsx:289-291 | An empty update changes nothing |
| Closet.MergeThen | app/closet/page.tsx:289-291 | Two updates are one with the later fields winning; repeating an update changes nothing more |
| Closet.UpdateWhere | app/closet/page.tsx:289-291 | Items with the id take the update; all others are unchanged, in place |
| Closet.UpdateWhereAbsent | app/closet/page.tsx:289-291 | An update for an id nobody has changes nothing |
| Closet.CategoryChangeClearsSubcategory | app/closet/page.tsx:455 | Picking a category sets it and clears the subcategory, nothing else |
| Closet.RemoveId | app/closet/page.tsx:206-208 | The filter by id never lengthens the list; the lemmas below say which items stay and in what order |
| Closet.RemoveIdMembers | app/closet/page.tsx:206-208 | Removal keeps exactly the items with another id |
| Closet.RemoveIdAppend | app/closet/page.tsx:207 | Removal works piecewise over a concatenation |
| Closet.RemoveIdAbsent | app/closet/page.tsx:207 | Removing an id nobody has changes nothing |
| Closet.RemoveOne | app/closet/page.tsx:206-208 | With distinct ids, removing an item takes out just that item and keeps the rest in order |
| Closet.RemoveKeepsIdsDistinct | app/closet/page.tsx:206-208 | Removal keeps ids distinct |
| Closet.ConfirmedCount | app/closet/page.tsx:210 | The confirmed count never exceeds the number of items |
| Closet.CanProceed | app/closet/page.tsx:210-211 | Definition of the gate: eight or more confirmed items |
| Closet.CanProceedNeedsEightItems | app/closet/page.tsx:210-211 | Going on needs at least eight items on the page |
| Closet.ConfirmAddsOne | app/closet/page.tsx:370 | Confirming the one unconfirmed item with an id adds exactly one to the confirmed count |
| Closet.UploadDisabled | app/closet/page.tsx:251-268 | Definition of the disabled upload controls: fifteen or more items, or an upload in progress |
| Closet.FullPageTakesNoFile | app/closet/page.tsx:251-268 | At fifteen items the upload controls are off and a dropped batch takes no file |
| Closet.ImageFiles | app/closet/page.tsx:54-56 | A file is kept iff it was given and its type starts with "image/"; never more files than given |
| Closet.ImageFilesSnoc | app/closet/page.tsx:54-56 | One more file joins the end of the image files exactly when it is an image |
| Closet.ImageFilesAppend | app/closet/page.tsx:54-56 | The image filter distributes over concatenation, so the files keep their submission order |
| Closet.NewItem | app/closet/page.tsx:66-75 | Definition of the item shown at once: the preview, empty tags, all-season, uploading |
| Closet.OutcomePatch | app/closet/page.tsx:88-120 | Definition of the update after the upload: the public address and "tagging", or "error" |
| Closet.ProcessFile | app/closet/page.tsx:77-120 | Definition of one turn of the loop: append the new item, then update it by id; `SettleStep` states its effect |
| Closet.BatchResult | app/closet/page.tsx:62-122 | Definition of the list after the whole loop; `BatchClosedForm` states its closed form |
| Closet.Confirmable | app/closet/page.tsx:346 | Definition of the confirm guard: category, colour and silhouette all set |
| Closet.Settled | app/closet/page.tsx:104-120 | A settled item keeps its id |
| Closet.SettledItem | app/closet/page.tsx:66-120 | A file ends untagged and all-season; stored, it takes its public address and "tagging"; failed, it keeps its preview and is marked "error" |
| Closet.SettledAll | app/closet/page.tsx:62-122 | The k-th settled item of a batch is the k-th file's, with the k-th fresh id |
| Closet.SettleStep | app/closet/page.tsx:77-120 | With a fresh id, one turn appends the settled item and leaves every earlier item alone |
| Closet.BatchClosedForm | app/closet/page.tsx:62-122 | With fresh ids, the loop appends one settled item per file, in order, and touches nothing else |
| Closet.FreshIdsKeepDistinct | app/closet/page.tsx:63 | Appending items with fresh ids keeps ids distinct and below the counter |
| Closet.BatchKeepsPageValid | app/closet/page.tsx:62-122 | A batch that fits under fifteen items leaves at most fifteen items with distinct fresh ids, and equals what the loop computes |
| Closet.ClosetPage.constructor | app/closet/page.tsx:19-22 | The page opens with no items and not uploading |
| Closet.ClosetPage.UploadBatch | app/closet/page.tsx:47-125 | Without a user or an image nothing changes; otherwise the images that fit under fifteen are appended as settled items, in order, and uploading ends off; at most fifteen items with distinct ids |
| Closet.ClosetPage.UploadFiles | app/closet/page.tsx:127-204 | The loop body shared by both handlers: each file is appended with a fresh id and settled, failures going on with the next |
| Closet.ClosetPage.RemoveItem | app/closet/page.tsx:206-208 | The list becomes the items with another id; ids stay distinct |
| Closet.ClosetPage.Update | app/closet/page.tsx:289-291 | The item with the id takes the given fields |
| Closet.ClosetPage.SelectCategory | app/closet/page.tsx:455 | The item with the id takes the category and an empty subcategory |
| Closet.ClosetPage.Confirm | app/closet/page.tsx:345-370 | Nothing unless category, colour and silhouette are set, a user is signed in and the row is saved; then the item is confirmed |
| Onboarding.Without | app/onboarding/page.tsx:37 | Filtering never lengthens the list |
| Onboarding.WithoutMembers | app/onboarding/page.tsx:37 | Filtering removes every occurrence of the value and keeps every other entry |
| Onboarding.WithoutAbsent | app/onboarding/page.tsx:37 | Filtering out an absent value changes nothing |
| Onboarding.WithoutIdempotent | app/onboarding/page.tsx:37 | Filtering twice is filtering once |
| Onboarding.WithoutNoDuplicates | app/onboarding/page.tsx:37 | Filtering keeps a duplicate-free list duplicate-free |
| Onboarding.Toggle | app/onboarding/page.tsx:36-38 | After a toggle the value is chosen iff it was not before |
| Onboarding.ToggleEffect | app/onboarding/page.tsx:33-40 | An absent value is appended at the end; a present one is removed with every repeat, other values unaffected |
| Onboarding.ToggleTwiceRestores | app/onboarding/page.tsx:33-40 | Toggling an absent value twice gives back the list exactly |
| Onboarding.ToggleKeepsOthers | app/onboarding/page.tsx:36-38 | A toggle changes only that value's membership; the other entries keep their order |
| Onboarding.ToggleNoDuplicates | app/onboarding/page.tsx:36-38 | Toggling keeps a duplicate-free list duplicate-free |
| Onboarding.ToggleVibe | app/onboarding/page.tsx:33-40 | Definition of a vibe click: the vibes are toggled; `TogglesTouchOneList` states its effect |
| Onboarding.ToggleBrand | app/onboarding/page.tsx:42-49 | Definition of a brand click: the brands are toggled; `TogglesTouchOneList` states its effect |
| Onboarding.TogglesTouchOneList | app/onboarding/page.tsx:33-49 | A vibe toggle touches only the vibes and a brand toggle only the brands, each with the toggle rule |
| Onboarding.SetSize | app/onboarding/page.tsx:134-163 | Definition of the three size inputs, each replacing one size; the lemmas below state their effect |
| Onboarding.SetSizeOnlyThatField | app/onboarding/page.tsx:134-163 | A size edit sets that size and leaves the other sizes and fields unchanged |
| Onboarding.SetSizesCommute | app/onboarding/page.tsx:134-163 | Edits of different sizes commute |
| Onboarding.SetBudget | app/onboarding/page.tsx:181 | Definition of a budget button click |
| Onboarding.SetClimate | app/onboarding/page.tsx:233 | Definition of a climate choice |
| Onboarding.BudgetAndClimateEdits | app/onboarding/page.tsx:181-233 | The budget buttons and the climate select each set only their own field |
| Onboarding.SubmitEnabled | app/onboarding/page.tsx:270 | Definition of the enabled submit button: not saving, a budget chosen, at least one vibe |
| Onboarding.SubmitNeedsBudgetAndVibe | app/onboarding/page.tsx:270 | The opening form (`InitialForm`, lines 9-15) cannot be submitted; a budget and one vibe enable it, and toggling that vibe off disables it again |

## Left out

- All backend calls are left out: the user lookup, storage upload and public address, inserts, the capsule upsert and event logging. Their outcomes are inputs: the closet `Query`, the file's `Upload`, the `saved` flag of `Confirm`, and the `signedIn` field of `OutfitsPage` and `ClosetPage`. `CapsulePage` has no such field: `LoadCapsule` models the load once the user is known. The confirm handler's own fresh user lookup is folded into `ClosetPage.signedIn`, so a session that ends between the page load and a confirm is not modelled.
- Saving outfits and capsules as database rows is not modelled.
- Rendering, routing and redirects are not modelled; a redirect is the `redirected` result. The drag highlight, the tagging dialog's visibility, `alert` and the option lists of the selects are also left out.
- Random temporary ids and preview addresses are not modelled. Ids come from a counter and the preview address is a field of the picked file.
- Interleaving of user events during the awaits of the upload loop is not modelled; the loop runs sequentially.
- The thrown-exception path of an upload is merged with the error result, since both mark the item "error" and go on.
- Closet.ClosetPage.UploadBatch: the missing file list of the file input and the clearing of the input afterwards are not modelled.
- Closet.ClosetPage.UploadBatch: under the sequential loop, a negative slice end cannot arise, because the page never holds more than fifteen items (`Valid`). The drop zone has no `uploading` guard, so on the real page a second batch dropped during an upload can take the list past fifteen; that interleaving is not modelled.
- Capsule.CountCategories: category strings are map keys. A category that collides with a JavaScript object property name is not modelled.
- Outfits.OutfitsPage.LoadOutfits and the user lookup of every page: the redirect to the entry page without a user, and the loading flag of the outfits page, are not modelled.
- Outfits.Outfit: the id is the number k, not the string "outfit-k".
- Whether the "wear" button is disabled once an outfit is worn is rendering, and is not modelled.
- app/home/page.tsx is not part of this model.
