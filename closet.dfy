/** The closet page: photos are uploaded into a list of at most fifteen
    items, each tagged and confirmed by hand, and the user may go on to the
    capsule once eight are confirmed. */
module Closet {
  import opened Catalog

  datatype Status = Uploading | Tagging | Confirmed | Error

  /** One entry of the page's list. `id` stands for the page's random
      temporary id: the page draws a fresh one per file. */
  datatype ClosetItem = ClosetItem(
    id: nat,
    imageUrl: string,
    category: string,
    subcategory: string,
    color: string,
    silhouette: string,
    season: string,
    status: Status)

  /** What uploading one file to storage gives: its public address, or a
      failure (an error result or a thrown exception alike). */
  datatype Upload = Stored(publicUrl: string) | UploadFailed

  /** A file the user dropped or picked: its MIME type, the local preview
      address the page shows while uploading, and how its upload ends. */
  datatype PickedFile = PickedFile(mimeType: string, previewUrl: string, upload: Upload)

  /** A partial item, as `onUpdate` receives it: each present field
      overwrites the item's. */
  datatype Patch = Patch(
    imageUrl: Option<string>,
    category: Option<string>,
    subcategory: Option<string>,
    color: Option<string>,
    silhouette: Option<string>,
    season: Option<string>,
    status: Option<Status>)

  const MaxItems: nat := 15
  const MinConfirmed: nat := 8

  const NoChange: Patch := Patch(None, None, None, None, None, None, None)

  function StatusPatch(s: Status): Patch
  {
    NoChange.(status := Some(s))
  }

  // ---------------------------------------------------------------------
  // Merging a partial update
  // ---------------------------------------------------------------------

  function Pick<T>(given: Option<T>, current: T): T
  {
    if given.Some? then given.value else current
  }

  /** An item spread with a partial update: the update's fields win. */
  function Merge(item: ClosetItem, p: Patch): ClosetItem
  {
    ClosetItem(item.id, Pick(p.imageUrl, item.imageUrl), Pick(p.category, item.category),
      Pick(p.subcategory, item.subcategory), Pick(p.color, item.color),
      Pick(p.silhouette, item.silhouette), Pick(p.season, item.season), Pick(p.status, item.status))
  }

  /** The later patch's fields win over the earlier one's. */
  function Then(p: Patch, q: Patch): Patch
  {
    Patch(if q.imageUrl.Some? then q.imageUrl else p.imageUrl,
      if q.category.Some? then q.category else p.category,
      if q.subcategory.Some? then q.subcategory else p.subcategory,
      if q.color.Some? then q.color else p.color,
      if q.silhouette.Some? then q.silhouette else p.silhouette,
      if q.season.Some? then q.season else p.season,
      if q.status.Some? then q.status else p.status)
  }

  /** Fields the patch does not give are kept, the id always. */
  lemma MergeKeepsOtherFields(item: ClosetItem, p: Patch)
    ensures var r := Merge(item, p);
      r.id == item.id &&
      (p.imageUrl.None? ==> r.imageUrl == item.imageUrl) &&
      (p.category.None? ==> r.category == item.category) &&
      (p.subcategory.None? ==> r.subcategory == item.subcategory) &&
      (p.color.None? ==> r.color == item.color) &&
      (p.silhouette.None? ==> r.silhouette == item.silhouette) &&
      (p.season.None? ==> r.season == item.season) &&
      (p.status.None? ==> r.status == item.status)
  {
  }

  /** An empty update changes nothing. */
  lemma MergeNoChange(item: ClosetItem)
    ensures Merge(item, NoChange) == item
  {
  }

  /** Two updates in a row are one update with the later fields winning;
      in particular repeating an update changes nothing more. */
  lemma MergeThen(item: ClosetItem, p: Patch, q: Patch)
    ensures Merge(Merge(item, p), q) == Merge(item, Then(p, q))
    ensures Merge(Merge(item, p), p) == Merge(item, p)
  {
  }

  /** Every item with the id takes the update; the others stay as they are.
      The ensures give the element-wise form the proofs index into; what an
      update means is stated by `MergeKeepsOtherFields`, `MergeThen`,
      `UpdateWhereAbsent` and `ConfirmAddsOne`. */
  function UpdateWhere(items: seq<ClosetItem>, id: nat, p: Patch): (r: seq<ClosetItem>)
    ensures |r| == |items|
    ensures forall k :: 0 <= k < |r| ==> r[k] == if items[k].id == id then Merge(items[k], p) else items[k]
  {
    seq(|items|, k requires 0 <= k < |items| => if items[k].id == id then Merge(items[k], p) else items[k])
  }

  lemma UpdateWhereSnoc(items: seq<ClosetItem>, x: ClosetItem, id: nat, p: Patch)
    ensures UpdateWhere(items + [x], id, p) ==
      UpdateWhere(items, id, p) + [if x.id == id then Merge(x, p) else x]
  {
  }

  /** An update for an id nobody has changes nothing. */
  lemma UpdateWhereAbsent(items: seq<ClosetItem>, id: nat, p: Patch)
    requires forall k :: 0 <= k < |items| ==> items[k].id != id
    ensures UpdateWhere(items, id, p) == items
  {
  }

  /** The category picker's update: the new category, and the subcategory
      cleared since it belonged to the old one. */
  function CategoryPatch(category: string): Patch
  {
    NoChange.(category := Some(category), subcategory := Some(""))
  }

  lemma CategoryChangeClearsSubcategory(item: ClosetItem, category: string)
    ensures var r := Merge(item, CategoryPatch(category));
      r.category == category && r.subcategory == "" &&
      r == item.(category := category, subcategory := "")
  {
  }

  // ---------------------------------------------------------------------
  // Removing, counting, proceeding
  // ---------------------------------------------------------------------

  /** The items whose id differs from `id`, in order. */
  function RemoveId(items: seq<ClosetItem>, id: nat): (r: seq<ClosetItem>)
    ensures |r| <= |items|
  {
    if items == [] then []
    else
      var last := items[|items| - 1];
      RemoveId(items[..|items| - 1], id) + (if last.id == id then [] else [last])
  }

  /** Exactly the items with another id are kept. */
  lemma {:induction false} RemoveIdMembers(items: seq<ClosetItem>, id: nat, x: ClosetItem)
    ensures x in RemoveId(items, id) <==> x in items && x.id != id
  {
    if items != [] {
      var n := |items| - 1;
      assert items == items[..n] + [items[n]];
      RemoveIdMembers(items[..n], id, x);
    }
  }

  lemma RemoveIdSnoc(items: seq<ClosetItem>, x: ClosetItem, id: nat)
    ensures RemoveId(items + [x], id) == RemoveId(items, id) + (if x.id == id then [] else [x])
  {
    assert (items + [x])[..|items|] == items;
  }

  lemma {:induction false} RemoveIdAppend(a: seq<ClosetItem>, b: seq<ClosetItem>, id: nat)
    ensures RemoveId(a + b, id) == RemoveId(a, id) + RemoveId(b, id)
  {
    if b != [] {
      var n := |b| - 1;
      assert b == b[..n] + [b[n]];
      assert a + b == (a + b[..n]) + [b[n]];
      RemoveIdSnoc(a + b[..n], b[n], id);
      RemoveIdSnoc(b[..n], b[n], id);
      RemoveIdAppend(a, b[..n], id);
    } else {
      assert a + b == a;
    }
  }

  lemma {:induction false} RemoveIdAbsent(items: seq<ClosetItem>, id: nat)
    requires forall k :: 0 <= k < |items| ==> items[k].id != id
    ensures RemoveId(items, id) == items
  {
    if items != [] {
      var n := |items| - 1;
      assert items == items[..n] + [items[n]];
      RemoveIdSnoc(items[..n], items[n], id);
      RemoveIdAbsent(items[..n], id);
    }
  }

  predicate DistinctIds(items: seq<ClosetItem>)
  {
    forall i, j :: 0 <= i < j < |items| ==> items[i].id != items[j].id
  }

  /** Removing an item takes out just that item; the rest keep their
      order. */
  lemma RemoveOne(a: seq<ClosetItem>, x: ClosetItem, b: seq<ClosetItem>)
    requires DistinctIds(a + [x] + b)
    ensures RemoveId(a + [x] + b, x.id) == a + b
  {
    var s := a + [x] + b;
    forall i | 0 <= i < |a| ensures a[i].id != x.id {
      assert s[i] == a[i] && s[|a|] == x;
    }
    forall i | 0 <= i < |b| ensures b[i].id != x.id {
      assert s[|a| + 1 + i] == b[i] && s[|a|] == x;
    }
    RemoveIdAbsent(a, x.id);
    RemoveIdAbsent(b, x.id);
    RemoveIdAppend(a + [x], b, x.id);
    RemoveIdSnoc(a, x, x.id);
  }

  /** The number of confirmed items. */
  function ConfirmedCount(items: seq<ClosetItem>): (r: nat)
    ensures r <= |items|
  {
    if items == [] then 0
    else
      ConfirmedCount(items[..|items| - 1]) + (if items[|items| - 1].status == Confirmed then 1 else 0)
  }

  lemma ConfirmedCountSnoc(items: seq<ClosetItem>, x: ClosetItem)
    ensures ConfirmedCount(items + [x]) == ConfirmedCount(items) + (if x.status == Confirmed then 1 else 0)
  {
    assert (items + [x])[..|items|] == items;
  }

  /** The continue button shows once eight items are confirmed. */
  predicate CanProceed(items: seq<ClosetItem>)
  {
    ConfirmedCount(items) >= MinConfirmed
  }

  /** Going on needs at least eight items on the page. */
  lemma CanProceedNeedsEightItems(items: seq<ClosetItem>)
    requires CanProceed(items)
    ensures |items| >= MinConfirmed
  {
  }

  /** Confirming the one unconfirmed item with an id adds exactly one to
      the confirmed count. */
  lemma {:induction false} ConfirmAddsOne(items: seq<ClosetItem>, id: nat)
    requires DistinctIds(items)
    requires exists k :: 0 <= k < |items| && items[k].id == id && items[k].status != Confirmed
    ensures ConfirmedCount(UpdateWhere(items, id, StatusPatch(Confirmed))) == ConfirmedCount(items) + 1
  {
    var n := |items| - 1;
    var front, last := items[..n], items[n];
    assert items == front + [last];
    UpdateWhereSnoc(front, last, id, StatusPatch(Confirmed));
    ConfirmedCountSnoc(front, last);
    ConfirmedCountSnoc(UpdateWhere(front, id, StatusPatch(Confirmed)), Merge(last, StatusPatch(Confirmed)));
    if last.id == id {
      forall x | x in front ensures x.id != id {
        var i :| 0 <= i < |front| && front[i] == x;
        assert items[i] == x;
      }
      UpdateWhereAbsent(front, id, StatusPatch(Confirmed));
    } else {
      var k :| 0 <= k < |items| && items[k].id == id && items[k].status != Confirmed;
      assert k < n && front[k] == items[k];
      ConfirmAddsOne(front, id);
      ConfirmedCountSnoc(UpdateWhere(front, id, StatusPatch(Confirmed)), last);
    }
  }

  /** The upload controls are off at fifteen items or while uploading. */
  predicate UploadDisabled(items: seq<ClosetItem>, uploading: bool)
  {
    |items| >= MaxItems || uploading
  }

  /** A full page turns the upload controls off, and a batch dropped on it
      anyway takes no file. */
  lemma FullPageTakesNoFile(items: seq<ClosetItem>, uploading: bool, picked: seq<PickedFile>)
    requires |items| == MaxItems
    ensures UploadDisabled(items, uploading)
    ensures Take(ImageFiles(picked), MaxItems - |items|) == []
  {
  }

  /** Every field the confirm button needs is filled in. */
  predicate Confirmable(item: ClosetItem)
  {
    item.category != "" && item.color != "" && item.silhouette != ""
  }

  /** What the page keeps true of its list: at most fifteen items, with
      distinct ids, all below the next id to be drawn. */
  predicate PageOk(items: seq<ClosetItem>, nextId: nat)
  {
    |items| <= MaxItems && DistinctIds(items) &&
    forall k :: 0 <= k < |items| ==> items[k].id < nextId
  }

  // ---------------------------------------------------------------------
  // Uploading a batch
  // ---------------------------------------------------------------------

  /** The MIME type starts with "image/". */
  predicate IsImage(f: PickedFile)
  {
    "image/" <= f.mimeType
  }

  /** The image files of a batch, in the order given. */
  function ImageFiles(files: seq<PickedFile>): (r: seq<PickedFile>)
    ensures |r| <= |files|
    ensures forall f :: f in r <==> f in files && IsImage(f)
  {
    if files == [] then []
    else
      var last := files[|files| - 1];
      assert files == files[..|files| - 1] + [last];
      ImageFiles(files[..|files| - 1]) + (if IsImage(last) then [last] else [])
  }

  /** One more file in the batch joins the end of the image files exactly
      when it is an image. */
  lemma ImageFilesSnoc(files: seq<PickedFile>, f: PickedFile)
    ensures ImageFiles(files + [f]) == ImageFiles(files) + (if IsImage(f) then [f] else [])
  {
    assert (files + [f])[..|files|] == files;
  }

  /** The image filter distributes over concatenation, so the files keep
      the order they were given in and no image is dropped. */
  lemma {:induction false} ImageFilesAppend(a: seq<PickedFile>, b: seq<PickedFile>)
    ensures ImageFiles(a + b) == ImageFiles(a) + ImageFiles(b)
  {
    if b == [] {
      assert a + b == a;
    } else {
      var front, last := b[..|b| - 1], b[|b| - 1];
      var tail := if IsImage(last) then [last] else [];
      calc {
        ImageFiles(a + b);
        { assert a + b == (a + front) + [last]; }
        ImageFiles((a + front) + [last]);
        { ImageFilesSnoc(a + front, last); }
        ImageFiles(a + front) + tail;
        { ImageFilesAppend(a, front); }
        ImageFiles(a) + ImageFiles(front) + tail;
        { ImageFilesSnoc(front, last); assert front + [last] == b; }
        ImageFiles(a) + ImageFiles(b);
      }
    }
  }

  /** The item shown as soon as a file is taken: its preview, no tags,
      all-season, uploading. */
  function NewItem(id: nat, f: PickedFile): ClosetItem
  {
    ClosetItem(id, f.previewUrl, "", "", "", "", "all-season", Uploading)
  }

  /** The update once the upload ends. */
  function OutcomePatch(f: PickedFile): Patch
  {
    match f.upload
    case Stored(url) => NoChange.(imageUrl := Some(url), status := Some(Tagging))
    case UploadFailed => StatusPatch(Error)
  }

  /** One turn of the upload loop: append the new item, then update it by
      its id. */
  function ProcessFile(items: seq<ClosetItem>, id: nat, f: PickedFile): seq<ClosetItem>
  {
    UpdateWhere(items + [NewItem(id, f)], id, OutcomePatch(f))
  }

  /** The list after the loop has taken `files`, ids drawn from `firstId`
      on. */
  function BatchResult(items: seq<ClosetItem>, files: seq<PickedFile>, firstId: nat): seq<ClosetItem>
  {
    if files == [] then items
    else
      var n := |files| - 1;
      ProcessFile(BatchResult(items, files[..n], firstId), firstId + n, files[n])
  }

  /** The item a file ends as. */
  function Settled(id: nat, f: PickedFile): (r: ClosetItem)
    ensures r.id == id
  {
    Merge(NewItem(id, f), OutcomePatch(f))
  }

  /** A stored file ends as its public address and "tagging"; a failed one
      keeps its preview and is marked "error". Nothing else differs from
      the new item. */
  lemma SettledItem(id: nat, f: PickedFile)
    ensures var r := Settled(id, f);
      r.id == id && r.category == "" && r.subcategory == "" && r.color == "" &&
      r.silhouette == "" && r.season == "all-season" &&
      (f.upload.Stored? ==> r.imageUrl == f.upload.publicUrl && r.status == Tagging) &&
      (f.upload.UploadFailed? ==> r.imageUrl == f.previewUrl && r.status == Error)
  {
  }

  /** The settled items of a batch, ids drawn from `firstId` on. The
      ensures give the element-wise form the proofs index into; what the
      loop produces is stated by `SettledItem` and `BatchClosedForm`. */
  function SettledAll(files: seq<PickedFile>, firstId: nat): (r: seq<ClosetItem>)
    ensures |r| == |files|
    ensures forall k :: 0 <= k < |r| ==> r[k] == Settled(firstId + k, files[k])
  {
    seq(|files|, k requires 0 <= k < |files| => Settled(firstId + k, files[k]))
  }

  /** One turn of the loop with a fresh id appends the settled item and
      leaves the rest alone. */
  lemma SettleStep(items: seq<ClosetItem>, id: nat, f: PickedFile)
    requires forall k :: 0 <= k < |items| ==> items[k].id < id
    ensures ProcessFile(items, id, f) == items + [Settled(id, f)]
  {
    UpdateWhereSnoc(items, NewItem(id, f), id, OutcomePatch(f));
    UpdateWhereAbsent(items, id, OutcomePatch(f));
  }

  lemma SettledAllSnoc(files: seq<PickedFile>, i: nat, firstId: nat)
    requires i < |files|
    ensures SettledAll(files[..i + 1], firstId) == SettledAll(files[..i], firstId) + [Settled(firstId + i, files[i])]
  {
  }

  /** With fresh ids, each file appends one settled item and the earlier
      items, old or new, are never touched. */
  lemma {:induction false} BatchClosedForm(items: seq<ClosetItem>, files: seq<PickedFile>, firstId: nat)
    requires forall k :: 0 <= k < |items| ==> items[k].id < firstId
    ensures BatchResult(items, files, firstId) == items + SettledAll(files, firstId)
  {
    if files != [] {
      var n := |files| - 1;
      BatchClosedForm(items, files[..n], firstId);
      var settled := SettledAll(files[..n], firstId);
      var prev := items + settled;
      forall k | 0 <= k < |prev| ensures prev[k].id < firstId + n {
        if k >= |items| {
          assert prev[k] == settled[k - |items|];
        }
      }
      SettleStep(prev, firstId + n, files[n]);
      SettledAllSnoc(files, n, firstId);
      assert files[..n + 1] == files;
    }
  }

  // ---------------------------------------------------------------------
  // The page
  // ---------------------------------------------------------------------

  class ClosetPage {
    var items: seq<ClosetItem>
    var uploading: bool
    var signedIn: bool
    /** The next temporary id; every id on the page is below it. */
    var nextId: nat

    ghost predicate Valid()
      reads this
    {
      PageOk(items, nextId)
    }

    constructor (signedIn: bool)
      ensures Valid() && items == [] && !uploading && this.signedIn == signedIn
    {
      items := [];
      uploading := false;
      this.signedIn := signedIn;
      nextId := 0;
    }

    /** `handleDrop` and `handleFileSelect`: without a user or an image
        nothing happens; otherwise the images that still fit under fifteen items are
        taken in order, each appended and then settled by its upload, with
        `uploading` on for the duration. */
    method UploadBatch(picked: seq<PickedFile>)
      requires Valid()
      modifies this`items, this`uploading, this`nextId
      ensures Valid()
      ensures var batch := Take(ImageFiles(picked), MaxItems - |old(items)|);
        if signedIn && |ImageFiles(picked)| > 0
        then items == BatchResult(old(items), batch, old(nextId)) &&
             items == old(items) + SettledAll(batch, old(nextId)) && !uploading
        else items == old(items) && uploading == old(uploading)
    {
      if !signedIn {
        return;
      }
      var files := ImageFiles(picked);
      if |files| == 0 {
        return;
      }
      uploading := true;
      var batch := Take(files, MaxItems - |items|);
      BatchKeepsPageValid(items, batch, nextId);
      UploadFiles(batch);
      assert batch == Take(ImageFiles(picked), MaxItems - |old(items)|);
      uploading := false;
    }

    /** The loop of the upload handlers over the files taken: each gets a
        fresh id, is appended as uploading, and is then settled by its
        upload's outcome; a failure goes on with the next file. */
    method UploadFiles(batch: seq<PickedFile>)
      requires forall k :: 0 <= k < |items| ==> items[k].id < nextId
      modifies this`items, this`nextId
      ensures items == old(items) + SettledAll(batch, old(nextId))
      ensures nextId == old(nextId) + |batch|
    {
      ghost var before, firstId := items, nextId;
      for i := 0 to |batch|
        invariant nextId == firstId + i
        invariant items == before + SettledAll(batch[..i], firstId)
        invariant forall k :: 0 <= k < |items| ==> items[k].id < nextId
      {
        var file := batch[i];
        var tempId := nextId;
        nextId := nextId + 1;
        SettleStep(items, tempId, file);
        SettledAllSnoc(batch, i, firstId);
        items := items + [NewItem(tempId, file)];
        match file.upload {
          case UploadFailed =>
            items := UpdateWhere(items, tempId, StatusPatch(Error));
            continue;
          case Stored(publicUrl) =>
            items := UpdateWhere(items, tempId, NoChange.(imageUrl := Some(publicUrl), status := Some(Tagging)));
        }
      }
      assert batch[..|batch|] == batch;
    }

    /** `removeItem`: the items with that id leave the list. */
    method RemoveItem(id: nat)
      requires Valid()
      modifies this`items
      ensures Valid()
      ensures items == RemoveId(old(items), id)
    {
      items := RemoveId(items, id);
      forall k | 0 <= k < |items| ensures items[k].id < nextId {
        RemoveIdMembers(old(items), id, items[k]);
        var j :| 0 <= j < |old(items)| && old(items)[j] == items[k];
      }
      forall i, j | 0 <= i < j < |items| ensures items[i].id != items[j].id {
        RemoveKeepsIdsDistinct(old(items), id, i, j);
      }
    }

    /** `onUpdate`: the item with that id takes the given fields. */
    method Update(id: nat, p: Patch)
      requires Valid()
      modifies this`items
      ensures Valid()
      ensures items == UpdateWhere(old(items), id, p)
    {
      items := UpdateWhere(items, id, p);
    }

    /** The category picker: the new category, subcategory cleared. */
    method SelectCategory(id: nat, category: string)
      requires Valid()
      modifies this`items
      ensures Valid()
      ensures items == UpdateWhere(old(items), id, CategoryPatch(category))
      ensures forall k :: 0 <= k < |items| && items[k].id == id ==>
        items[k].category == category && items[k].subcategory == ""
    {
      Update(id, CategoryPatch(category));
    }

    /** `handleConfirm` for the card showing `item`: nothing unless its
        category, colour and silhouette are set, a user is signed in and
        the database accepts the row; then the item is confirmed. */
    method Confirm(item: ClosetItem, saved: bool)
      requires Valid()
      modifies this`items
      ensures Valid()
      ensures items ==
        if Confirmable(item) && signedIn && saved
        then UpdateWhere(old(items), item.id, StatusPatch(Confirmed))
        else old(items)
    {
      if !Confirmable(item) {
        return;
      }
      if !signedIn {
        return;
      }
      if !saved {
        return;
      }
      Update(item.id, StatusPatch(Confirmed));
    }
  }

  /** Appending settled items with fresh ids keeps every id distinct and
      below the next one. */
  lemma FreshIdsKeepDistinct(items: seq<ClosetItem>, files: seq<PickedFile>, firstId: nat)
    requires DistinctIds(items)
    requires forall k :: 0 <= k < |items| ==> items[k].id < firstId
    ensures var r := items + SettledAll(files, firstId);
      DistinctIds(r) && forall k :: 0 <= k < |r| ==> r[k].id < firstId + |files|
  {
    var r := items + SettledAll(files, firstId);
    assert forall k :: |items| <= k < |r| ==> r[k].id == firstId + (k - |items|);
  }

  /** A batch that fits under fifteen items, with ids drawn fresh, leaves
      a list of at most fifteen items with distinct ids below the counter,
      and is what the loop computes. */
  lemma BatchKeepsPageValid(items: seq<ClosetItem>, batch: seq<PickedFile>, firstId: nat)
    requires PageOk(items, firstId) && |items| + |batch| <= MaxItems
    ensures var r := items + SettledAll(batch, firstId);
      PageOk(r, firstId + |batch|) && BatchResult(items, batch, firstId) == r
  {
    BatchClosedForm(items, batch, firstId);
    FreshIdsKeepDistinct(items, batch, firstId);
  }

  /** Removal keeps the ids of a list with distinct ids distinct. */
  lemma {:induction false} RemoveKeepsIdsDistinct(items: seq<ClosetItem>, id: nat, i: nat, j: nat)
    requires DistinctIds(items)
    requires i < j < |RemoveId(items, id)|
    ensures RemoveId(items, id)[i].id != RemoveId(items, id)[j].id
  {
    var n := |items| - 1;
    var front := items[..n];
    assert items == front + [items[n]];
    assert DistinctIds(front);
    var r := RemoveId(items, id);
    if j < |RemoveId(front, id)| {
      RemoveKeepsIdsDistinct(front, id, i, j);
    } else {
      assert r[j] == items[n];
      assert r[i] in RemoveId(front, id);
      RemoveIdMembers(front, id, r[i]);
      var k :| 0 <= k < n && front[k] == r[i];
      assert items[k] == r[i];
    }
  }
}
