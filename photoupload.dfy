/** The photo list of one technical location, as
    src/components/PhotoUpload/PhotoUpload.jsx edits it, and the index of the
    photo shown in the preview. */
module PhotoUpload {
  import opened Wrappers
  import opened Lists
  import opened Types

  /** The default cap, also the one the sheet page passes. */
  const DefaultMaxPhotos: nat := 8

  datatype UploadError = TooManyPhotos | ReadFailed

  /** `handleUpload`: refused while the list holds `maxPhotos` or more;
      otherwise the file read either yields the image's data URL (`read`) and
      one photo is appended, or fails and the list is left alone. `newId` and
      `now` stand for the id and time taken from the clock. */
  function Upload(photos: seq<Photo>, maxPhotos: nat, read: Option<string>, newId: string, now: string)
    : Result<seq<Photo>, UploadError>
  {
    if |photos| >= maxPhotos then Failure(TooManyPhotos)
    else match read
      case None => Failure(ReadFailed)
      case Some(url) => Success(photos + [Photo(newId, url, None, now)])
  }

  /** An upload is refused exactly at or over the cap; a successful one adds
      exactly one photo at the end and so never takes the list past the cap. */
  lemma UploadEffect(photos: seq<Photo>, maxPhotos: nat, read: Option<string>, newId: string, now: string)
    ensures var r := Upload(photos, maxPhotos, read, newId, now);
      && (r == Failure(TooManyPhotos) <==> |photos| >= maxPhotos)
      && (r.Success? <==> |photos| < maxPhotos && read.Some?)
      && (r.Success? ==>
            && |r.value| == |photos| + 1 && |r.value| <= maxPhotos
            && r.value[..|photos|] == photos
            && r.value[|photos|] == Photo(newId, read.value, None, now))
  {
  }

  /** `handleDelete`. */
  function DeletePhoto(photos: seq<Photo>, id: string): seq<Photo> {
    Filter(photos, (p: Photo) => p.id != id)
  }

  lemma DeletePhotoEffect(photos: seq<Photo>, id: string)
    ensures var r := DeletePhoto(photos, id);
      && (forall p :: p in r <==> p in photos && p.id != id)
      && (forall p :: multiset(r)[p] == if p.id != id then multiset(photos)[p] else 0)
      && IsSubsequence(r, photos)
      && |r| <= |photos|
  {
    FilterCounts(photos, (p: Photo) => p.id != id);
  }

  /** The `disabled` rule of the upload area. */
  predicate UploadDisabled(disabled: bool, photos: seq<Photo>, maxPhotos: nat) {
    disabled || |photos| >= maxPhotos
  }

  /** The area is open to uploads exactly when it is not switched off and
      the guard in `handleUpload` would let the upload through. */
  lemma DisabledMatchesGuard(disabled: bool, photos: seq<Photo>, maxPhotos: nat, read: Option<string>,
                             newId: string, now: string)
    ensures !UploadDisabled(disabled, photos, maxPhotos) <==>
      !disabled && Upload(photos, maxPhotos, read, newId, now) != Failure(TooManyPhotos)
  {
  }

  /** Uploads and deletions keep a list that respects the cap within it. */
  lemma {:induction false} EditsRespectCap(photos: seq<Photo>, maxPhotos: nat, read: Option<string>,
                                          newId: string, now: string, id: string)
    requires |photos| <= maxPhotos
    ensures var r := Upload(photos, maxPhotos, read, newId, now); r.Success? ==> |r.value| <= maxPhotos
    ensures |DeletePhoto(photos, id)| <= maxPhotos
  {
    UploadEffect(photos, maxPhotos, read, newId, now);
  }

  // ---- preview navigation --------------------------------------------------------

  /** "Previous": `Math.max(0, previewIndex - 1)`. */
  function PreviousIndex(i: int): (r: int)
    ensures r >= 0
    ensures i >= 1 ==> r == i - 1
    ensures i <= 0 ==> r == 0
  {
    if i - 1 > 0 then i - 1 else 0
  }

  /** "Next": `Math.min(photos.length - 1, previewIndex + 1)`. */
  function NextIndex(len: nat, i: int): (r: int)
    ensures r <= len - 1
    ensures i + 1 <= len - 1 ==> r == i + 1
    ensures i + 1 > len - 1 ==> r == len - 1
  {
    if len - 1 < i + 1 then len - 1 else i + 1
  }

  /** With at least one photo, navigating from a shown photo always lands
      on a photo, one step away or on the same end. */
  lemma NavigationStaysInRange(len: nat, i: int)
    requires len > 0 && 0 <= i < len
    ensures 0 <= PreviousIndex(i) < len && 0 <= NextIndex(len, i) < len
    ensures PreviousIndex(i) <= i <= NextIndex(len, i)
    ensures PreviousIndex(i) == i <==> i == 0
    ensures NextIndex(len, i) == i <==> i == len - 1
  {
  }
}
