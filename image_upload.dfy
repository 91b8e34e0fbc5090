/** The admin gallery editor (src/components/admin/ImageUpload.tsx): files are
    validated and appended up to a limit, and every edit renumbers
    `displayOrder` to the 1-based positions. The gallery is the parent's state
    that the component replaces through `onImagesChange`; here it is the
    `images` field of an `ImageUploader`. */
module ImageUpload {
  import opened Wrappers
  import opened Seqs

  /** A file from the picker or a drop: its MIME type, its size in bytes, and
      the object URL `URL.createObjectURL` returns for it. */
  datatype FileInfo = FileInfo(mimeType: string, size: nat, objectUrl: string)

  /** `isFeatured` is `featured` (an absent flag reads as false, the only way
      the component uses it); an absent `displayOrder` is None. */
  datatype ImageFile = ImageFile(id: Option<nat>, file: Option<FileInfo>, preview: string,
                                 featured: bool, displayOrder: Option<int>)

  datatype UploadError = UnsupportedType | TooLarge | TooMany

  const MegaByte := 1024 * 1024

  /** validateFile: the type check comes first, then the size limit. */
  function ValidateFile(f: FileInfo, acceptedTypes: seq<string>, maxFileSizeMb: nat): (r: Option<UploadError>)
    ensures r.None? <==> f.mimeType in acceptedTypes && f.size <= maxFileSizeMb * MegaByte
    ensures r == Some(UnsupportedType) <==> f.mimeType !in acceptedTypes
    ensures r == Some(TooLarge) <==> f.mimeType in acceptedTypes && f.size > maxFileSizeMb * MegaByte
  {
    if f.mimeType !in acceptedTypes then Some(UnsupportedType)
    else if f.size > maxFileSizeMb * MegaByte then Some(TooLarge)
    else None
  }

  /** The error of the last rejected file, if any (each rejection overwrites the message). */
  function LastRejection(files: seq<FileInfo>, acceptedTypes: seq<string>, maxFileSizeMb: nat): (r: Option<UploadError>)
    ensures r != Some(TooMany)
  {
    if files == [] then None
    else
      var v := ValidateFile(files[|files| - 1], acceptedTypes, maxFileSizeMb);
      if v.Some? then v else LastRejection(files[..|files| - 1], acceptedTypes, maxFileSizeMb)
  }

  /** No error is shown exactly when every selected file passes validation. */
  lemma {:induction false} NoRejectionIffAllValid(files: seq<FileInfo>, acceptedTypes: seq<string>, maxFileSizeMb: nat)
    ensures LastRejection(files, acceptedTypes, maxFileSizeMb).None? <==>
            forall i :: 0 <= i < |files| ==> ValidateFile(files[i], acceptedTypes, maxFileSizeMb).None?
  {
    if files != [] {
      var init := files[..|files| - 1];
      NoRejectionIffAllValid(init, acceptedTypes, maxFileSizeMb);
      assert forall i :: 0 <= i < |init| ==> init[i] == files[i];
    }
  }

  predicate AnyFeatured(s: seq<ImageFile>) {
    exists i :: 0 <= i < |s| && s[i].featured
  }

  /** Every image's displayOrder is its 1-based position. */
  predicate Numbered(s: seq<ImageFile>) {
    forall i :: 0 <= i < |s| ==> s[i].displayOrder == Some(i + 1)
  }

  /** `s` renumbered: every field but displayOrder kept. */
  predicate RenumberedFrom(r: seq<ImageFile>, s: seq<ImageFile>) {
    |r| == |s| && Numbered(r) && forall i :: 0 <= i < |s| ==> r[i] == s[i].(displayOrder := Some(i + 1))
  }

  /** The entry handleFileSelect pushes for an accepted file. */
  function NewImage(f: FileInfo, order: int): (img: ImageFile)
    ensures img.file == Some(f) && img.id.None? && !img.featured && img.displayOrder == Some(order)
  {
    ImageFile(None, Some(f), f.objectUrl, false, Some(order))
  }

  /** The images handleFileSelect adds for the accepted files `fs`, numbered after `existing` images. */
  function NewImages(fs: seq<FileInfo>, existing: nat): (r: seq<ImageFile>)
    ensures |r| == |fs|
  {
    if fs == [] then []
    else NewImages(fs[..|fs| - 1], existing) + [NewImage(fs[|fs| - 1], existing + |fs|)]
  }

  lemma {:induction false} NewImagesSnoc(fs: seq<FileInfo>, f: FileInfo, existing: nat)
    ensures NewImages(fs + [f], existing) == NewImages(fs, existing) + [NewImage(f, existing + |fs| + 1)]
  {
    assert (fs + [f])[..|fs|] == fs;
  }

  /** Appending the next new image to the images built for `fs` builds them for `fs + [f]`. */
  lemma AppendStep(built: seq<ImageFile>, fs: seq<FileInfo>, f: FileInfo, existing: nat)
    requires built == NewImages(fs, existing)
    ensures built + [NewImage(f, existing + |built| + 1)] == NewImages(fs + [f], existing)
  {
    NewImagesSnoc(fs, f, existing);
  }

  /** Each added image is the entry for its file, numbered by its position. */
  lemma {:induction false} NewImagesAt(fs: seq<FileInfo>, existing: nat, k: nat)
    requires k < |fs|
    ensures NewImages(fs, existing)[k] == NewImage(fs[k], existing + k + 1)
  {
    if k < |fs| - 1 {
      NewImagesAt(fs[..|fs| - 1], existing, k);
    }
  }

  function MarkFirstFeatured(s: seq<ImageFile>): (r: seq<ImageFile>)
    requires s != []
    ensures |r| == |s| && r[0].featured && r[1..] == s[1..]
  {
    s[0 := s[0].(featured := true)]
  }

  /** `updatedImages.sort(...)`: featured first, then by displayOrder, stably.
      Key 0 for the featured image and the displayOrder otherwise gives the
      same comparisons as the comparator whenever every displayOrder is at least 1. */
  function SortKey(img: ImageFile): int {
    if img.featured then 0 else if img.displayOrder.Some? then img.displayOrder.value else 0
  }

  /** The `images.map` step of setFeaturedImage. */
  function MarkFeatured(s: seq<ImageFile>, index: int): (r: seq<ImageFile>)
    ensures |r| == |s|
    ensures forall i :: 0 <= i < |s| ==> r[i].featured == (i == index) && r[i].id == s[i].id &&
                                         r[i].file == s[i].file && r[i].preview == s[i].preview
    ensures forall i :: 0 <= i < |s| ==> r[i].displayOrder.Some? && r[i].displayOrder.value >= 1
    ensures 0 <= index < |s| ==> r[index].displayOrder == Some(1)
  {
    seq(|s|, i requires 0 <= i < |s| =>
      s[i].(featured := i == index,
            displayOrder := Some(if i == index then 1
                                 else if s[i].displayOrder.Some? && s[i].displayOrder.value > 1 then s[i].displayOrder.value
                                 else i + 1)))
  }

  /** Two positions holding the same value count twice. */
  lemma {:induction false} TwoOccurrences(s: seq<ImageFile>, i: nat, j: nat)
    requires i < j < |s| && s[i] == s[j]
    ensures multiset(s)[s[i]] >= 2
  {
    assert s == s[..j] + s[j..];
    assert s[i] == s[..j][i];
    assert s[j] == s[j..][0];
    assert multiset(s) == multiset(s[..j]) + multiset(s[j..]);
  }

  /** Only the image at `index` is featured, and it alone has key 0. */
  predicate SingleFeatured(m: seq<ImageFile>, index: nat) {
    index < |m| &&
    (forall i :: 0 <= i < |m| ==> (m[i].featured <==> i == index)) &&
    SortKey(m[index]) == 0 &&
    (forall i :: 0 <= i < |m| && i != index ==> SortKey(m[i]) >= 1)
  }

  lemma MarkFeaturedIsSingle(s: seq<ImageFile>, index: nat)
    requires index < |s|
    ensures SingleFeatured(MarkFeatured(s, index), index)
  {
  }

  lemma {:induction false} SingleFeaturedOccursOnce(m: seq<ImageFile>, index: nat)
    requires SingleFeatured(m, index)
    ensures multiset(m)[m[index]] == 1
  {
    var others := m[..index] + m[index + 1..];
    assert m == m[..index] + [m[index]] + m[index + 1..];
    assert forall k :: 0 <= k < |others| ==> !others[k].featured by {
      forall k | 0 <= k < |others|
        ensures !others[k].featured
      {
        if k < index { assert others[k] == m[k]; } else { assert others[k] == m[k + 1]; }
      }
    }
    assert m[index] !in multiset(others);
    assert multiset(m) == multiset(m[..index]) + multiset{m[index]} + multiset(m[index + 1..]);
  }

  lemma {:induction false} SortedStartsWithFeatured(m: seq<ImageFile>, index: nat, r: seq<ImageFile>)
    requires SingleFeatured(m, index)
    requires multiset(r) == multiset(m) && SortedBy(r, SortKey)
    ensures |r| > 0 && r[0] == m[index]
  {
    assert m[index] in multiset(r);
    var p :| 0 <= p < |r| && r[p] == m[index];
    assert SortKey(r[0]) <= SortKey(r[p]);
    assert r[0] in multiset(m);
    var q :| 0 <= q < |m| && m[q] == r[0];
  }

  /** Sorting the marked gallery puts the chosen image first and leaves it the
      only featured one. */
  lemma {:induction false} FeaturedComesFirst(s: seq<ImageFile>, index: nat)
    requires index < |s|
    ensures var r := SortBy(MarkFeatured(s, index), SortKey);
            r[0] == MarkFeatured(s, index)[index] &&
            forall j :: 0 <= j < |r| ==> (r[j].featured <==> j == 0)
  {
    var m := MarkFeatured(s, index);
    var r := SortBy(m, SortKey);
    MarkFeaturedIsSingle(s, index);
    SortedStartsWithFeatured(m, index, r);
    SingleFeaturedOccursOnce(m, index);
    forall j | 0 <= j < |r|
      ensures r[j].featured <==> j == 0
    {
      if j != 0 && r[j].featured {
        assert r[j] in multiset(m);
        var k :| 0 <= k < |m| && m[k] == r[j];
        TwoOccurrences(r, 0, j);
      }
    }
  }

  function Acceptable(acceptedTypes: seq<string>, maxFileSizeMb: nat): (p: FileInfo -> bool)
    ensures forall f :: p(f) <==> ValidateFile(f, acceptedTypes, maxFileSizeMb).None?
  {
    f => ValidateFile(f, acceptedTypes, maxFileSizeMb).None?
  }

  /** The files validateFile accepts, in order. */
  function Accepted(files: seq<FileInfo>, acceptedTypes: seq<string>, maxFileSizeMb: nat): (r: seq<FileInfo>)
    ensures IsSubsequence(r, files)
    ensures forall k :: 0 <= k < |r| ==> ValidateFile(r[k], acceptedTypes, maxFileSizeMb).None?
  {
    FilterIsSubsequence(files, Acceptable(acceptedTypes, maxFileSizeMb));
    Filter(files, Acceptable(acceptedTypes, maxFileSizeMb))
  }

  function RoomLeft(existing: nat, maxImages: nat): nat {
    if existing >= maxImages then 0 else maxImages - existing
  }

  /** When the scan stops at file `i` because the gallery is full, the images
      taken so far are the first `room` accepted files. */
  lemma {:induction false} FullAtFile(fs: seq<FileInfo>, acceptedTypes: seq<string>, maxFileSizeMb: nat, i: nat, room: nat)
    requires i < |fs| && ValidateFile(fs[i], acceptedTypes, maxFileSizeMb).None?
    requires |Accepted(fs[..i], acceptedTypes, maxFileSizeMb)| == room
    ensures |Accepted(fs, acceptedTypes, maxFileSizeMb)| > room
    ensures Accepted(fs, acceptedTypes, maxFileSizeMb)[..room] == Accepted(fs[..i], acceptedTypes, maxFileSizeMb)
  {
    var p := Acceptable(acceptedTypes, maxFileSizeMb);
    assert fs == fs[..i] + fs[i..];
    FilterConcat(fs[..i], fs[i..], p);
    assert fs[i..] == [fs[i]] + fs[i + 1..];
    FilterConcat([fs[i]], fs[i + 1..], p);
    assert Filter([fs[i]], p) == [fs[i]];
  }

  lemma {:induction false} AcceptedStep(fs: seq<FileInfo>, acceptedTypes: seq<string>, maxFileSizeMb: nat, i: nat)
    requires i < |fs|
    ensures ValidateFile(fs[i], acceptedTypes, maxFileSizeMb).None? ==>
              Accepted(fs[..i + 1], acceptedTypes, maxFileSizeMb) == Accepted(fs[..i], acceptedTypes, maxFileSizeMb) + [fs[i]]
    ensures ValidateFile(fs[i], acceptedTypes, maxFileSizeMb).Some? ==>
              Accepted(fs[..i + 1], acceptedTypes, maxFileSizeMb) == Accepted(fs[..i], acceptedTypes, maxFileSizeMb)
  {
    assert fs[..i + 1] == fs[..i] + [fs[i]];
    FilterConcat(fs[..i], [fs[i]], Acceptable(acceptedTypes, maxFileSizeMb));
    assert Accepted(fs[..i], acceptedTypes, maxFileSizeMb) + [] == Accepted(fs[..i], acceptedTypes, maxFileSizeMb);
  }

  lemma {:induction false} RejectionStep(fs: seq<FileInfo>, acceptedTypes: seq<string>, maxFileSizeMb: nat, i: nat)
    requires i < |fs|
    ensures ValidateFile(fs[i], acceptedTypes, maxFileSizeMb).None? ==>
              LastRejection(fs[..i + 1], acceptedTypes, maxFileSizeMb) == LastRejection(fs[..i], acceptedTypes, maxFileSizeMb)
    ensures ValidateFile(fs[i], acceptedTypes, maxFileSizeMb).Some? ==>
              LastRejection(fs[..i + 1], acceptedTypes, maxFileSizeMb) == ValidateFile(fs[i], acceptedTypes, maxFileSizeMb)
  {
    assert fs[..i + 1][..i] == fs[..i];
  }

  /** The `for` loop of handleFileSelect over the selected files, with `existing`
      images already in the gallery: invalid files record their error and are
      skipped, and the first acceptable file that finds the gallery full records
      TooMany and ends the loop. */
  method SelectFiles(fs: seq<FileInfo>, acceptedTypes: seq<string>, maxFileSizeMb: nat, existing: nat, maxImages: nat)
    returns (newImages: seq<ImageFile>, err: Option<UploadError>)
    ensures var acc := Accepted(fs, acceptedTypes, maxFileSizeMb);
            var room := RoomLeft(existing, maxImages);
            (|acc| <= room ==> newImages == NewImages(acc, existing) &&
                               err == LastRejection(fs, acceptedTypes, maxFileSizeMb)) &&
            (|acc| > room ==> newImages == NewImages(acc[..room], existing) && err == Some(TooMany))
  {
    ghost var room := RoomLeft(existing, maxImages);
    ghost var acc: seq<FileInfo> := [];
    err := None;
    newImages := [];
    var i := 0;
    assert fs[..0] == [];
    while i < |fs|
      invariant 0 <= i <= |fs|
      invariant acc == Accepted(fs[..i], acceptedTypes, maxFileSizeMb)
      invariant |acc| <= room
      invariant newImages == NewImages(acc, existing)
      invariant err == LastRejection(fs[..i], acceptedTypes, maxFileSizeMb)
    {
      AcceptedStep(fs, acceptedTypes, maxFileSizeMb, i);
      RejectionStep(fs, acceptedTypes, maxFileSizeMb, i);
      var v := ValidateFile(fs[i], acceptedTypes, maxFileSizeMb);
      if v.Some? {
        err := v;
        i := i + 1;
        continue;
      }
      if existing + |newImages| >= maxImages {
        err := Some(TooMany);
        assert |acc| == room;
        FullAtFile(fs, acceptedTypes, maxFileSizeMb, i, room);
        assert newImages == NewImages(Accepted(fs, acceptedTypes, maxFileSizeMb)[..room], existing);
        return;
      }
      AppendStep(newImages, acc, fs[i], existing);
      newImages := newImages + [NewImage(fs[i], existing + |newImages| + 1)];
      acc := acc + [fs[i]];
      i := i + 1;
    }
    assert fs[..i] == fs;
    assert acc == Accepted(fs, acceptedTypes, maxFileSizeMb);
  }

  class ImageUploader {
    var images: seq<ImageFile>
    var error: Option<UploadError>
    const maxImages: nat
    const maxFileSizeMb: nat
    const acceptedTypes: seq<string>
    const showFeatured: bool

    /** The component's props (defaults 10 images, 5 MB, jpeg/png/webp, featured shown). */
    constructor (images: seq<ImageFile>, maxImages: nat, maxFileSizeMb: nat, acceptedTypes: seq<string>, showFeatured: bool)
      ensures this.images == images && error.None?
      ensures this.maxImages == maxImages && this.maxFileSizeMb == maxFileSizeMb
      ensures this.acceptedTypes == acceptedTypes && this.showFeatured == showFeatured
    {
      this.images := images;
      this.error := None;
      this.maxImages := maxImages;
      this.maxFileSizeMb := maxFileSizeMb;
      this.acceptedTypes := acceptedTypes;
      this.showFeatured := showFeatured;
    }

    /** How many more images fit. */
    function Room(): (n: nat)
      reads this
      ensures |images| + n <= maxImages || n == 0
    {
      RoomLeft(|images|, maxImages)
    }

    /** handleFileSelect(files). A missing file list does nothing. Otherwise the
        error is cleared and the files are scanned (SelectFiles); when some were
        accepted they are appended, and the first image is featured when none is. */
    method HandleFileSelect(files: Option<seq<FileInfo>>)
      modifies this
      ensures files.None? ==> images == old(images) && error == old(error)
      ensures files.Some? ==>
        var acc := Accepted(files.value, acceptedTypes, maxFileSizeMb);
        var n := if |acc| <= old(Room()) then |acc| else old(Room());
        var added := old(images) + NewImages(acc[..n], |old(images)|);
        (n == 0 ==> images == old(images)) &&
        (n > 0 ==> images == if showFeatured && !AnyFeatured(added) then MarkFirstFeatured(added) else added) &&
        (|acc| > old(Room()) ==> error == Some(TooMany)) &&
        (|acc| <= old(Room()) ==> error == LastRejection(files.value, acceptedTypes, maxFileSizeMb))
    {
      if files.None? {
        return;
      }
      var newImages, err := SelectFiles(files.value, acceptedTypes, maxFileSizeMb, |images|, maxImages);
      ghost var acc := Accepted(files.value, acceptedTypes, maxFileSizeMb);
      assert acc[..|acc|] == acc;
      error := err;
      if |newImages| > 0 {
        var updated := images + newImages;
        if showFeatured && !AnyFeatured(updated) && |updated| > 0 {
          updated := MarkFirstFeatured(updated);
        }
        images := updated;
      }
    }

    /** The `forEach` that renumbers displayOrder in place. */
    static method Renumber(a: array<ImageFile>)
      modifies a
      ensures RenumberedFrom(a[..], old(a[..]))
    {
      for i := 0 to a.Length
        invariant forall k :: 0 <= k < i ==> a[k] == old(a[k]).(displayOrder := Some(k + 1))
        invariant forall k :: i <= k < a.Length ==> a[k] == old(a[k])
      {
        a[i] := a[i].(displayOrder := Some(i + 1));
      }
    }

    static method Renumbered(s: seq<ImageFile>) returns (r: seq<ImageFile>)
      ensures RenumberedFrom(r, s)
    {
      var a := new ImageFile[|s|](i requires 0 <= i < |s| => s[i]);
      assert a[..] == s;
      Renumber(a);
      r := a[..];
    }

    /** removeImage(index): every image at another index is kept in order, then renumbered. */
    method RemoveImage(index: int)
      modifies this`images
      ensures 0 <= index < |old(images)| ==> RenumberedFrom(images, RemoveAt(old(images), index))
      ensures !(0 <= index < |old(images)|) ==> RenumberedFrom(images, old(images))
    {
      var kept := if 0 <= index < |images| then RemoveAt(images, index) else images;
      images := Renumbered(kept);
    }

    /** setFeaturedImage(index): only with showFeatured; the chosen image is
        marked, sorted first, and the gallery renumbered. */
    method SetFeaturedImage(index: int)
      modifies this`images
      ensures !showFeatured ==> images == old(images)
      ensures showFeatured ==> RenumberedFrom(images, SortBy(MarkFeatured(old(images), index), SortKey))
    {
      if !showFeatured {
        return;
      }
      images := Renumbered(SortBy(MarkFeatured(images, index), SortKey));
    }

    /** moveImage(from, to): splice the image out and back in at `to`, then renumber.
        The component only calls it with both indices inside the gallery. */
    method MoveImage(from: nat, to: nat)
      requires from < |images| && to < |images|
      modifies this`images
      ensures RenumberedFrom(images, InsertAt(RemoveAt(old(images), from), to, old(images)[from]))
    {
      var moved := images[from];
      images := Renumbered(InsertAt(RemoveAt(images, from), to, moved));
    }
  }

  /** The gallery never grows past the limit when it started within it. */
  lemma {:induction false} SelectionStaysWithinLimit(gallery: seq<ImageFile>, acc: seq<FileInfo>, maxImages: nat)
    requires |gallery| <= maxImages
    ensures var room := RoomLeft(|gallery|, maxImages);
            var n := if |acc| <= room then |acc| else room;
            |gallery + NewImages(acc[..n], |gallery|)| <= maxImages
  {
  }

  /** Images already in the gallery stay a prefix in the same order, and each
      new image's displayOrder is its 1-based position in the combined list. */
  lemma {:induction false} SelectionKeepsPrefix(gallery: seq<ImageFile>, fs: seq<FileInfo>)
    ensures var added := gallery + NewImages(fs, |gallery|);
            added[..|gallery|] == gallery &&
            forall k :: |gallery| <= k < |added| ==> added[k].displayOrder == Some(k + 1)
  {
    var added := gallery + NewImages(fs, |gallery|);
    forall k | |gallery| <= k < |added|
      ensures added[k].displayOrder == Some(k + 1)
    {
      NewImagesAt(fs, |gallery|, k - |gallery|);
    }
  }

  /** setFeaturedImage(i) for `i` inside the gallery: image `i` (its file and
      preview) is first, it alone is featured, and the orders are 1..n. */
  lemma {:induction false} FeaturedImageResult(s: seq<ImageFile>, index: nat, r: seq<ImageFile>)
    requires index < |s|
    requires RenumberedFrom(r, SortBy(MarkFeatured(s, index), SortKey))
    ensures |r| == |s| && Numbered(r)
    ensures r[0].file == s[index].file && r[0].preview == s[index].preview && r[0].id == s[index].id
    ensures forall j :: 0 <= j < |r| ==> (r[j].featured <==> j == 0)
    ensures multiset(SortBy(MarkFeatured(s, index), SortKey)) == multiset(MarkFeatured(s, index))
  {
    FeaturedComesFirst(s, index);
  }

  /** moveImage: the moved image lands at `to`, the others keep their relative
      order, and the result is a rearrangement of the gallery. */
  lemma {:induction false} MoveIsPermutation(s: seq<ImageFile>, from: nat, to: nat)
    requires from < |s| && to < |s|
    ensures var m := InsertAt(RemoveAt(s, from), to, s[from]);
            |m| == |s| && m[to] == s[from] && multiset(m) == multiset(s)
  {
    var rest := RemoveAt(s, from);
    assert s == s[..from] + [s[from]] + s[from + 1..];
    assert rest == s[..from] + s[from + 1..];
    var m := InsertAt(rest, to, s[from]);
    assert m == rest[..to] + [s[from]] + rest[to..];
    assert rest == rest[..to] + rest[to..];
    assert multiset(m) == multiset(rest) + multiset{s[from]};
  }
}
