// The media step: the thumbnail and promo-video slots, each filled by a
// MIME-gated upload that stores the local preview URL, and each cleared
// by its remove button.

module MediaForm {
  import opened Wrappers
  import opened Text
  import opened Api
  import opened CourseFormSlice

  datatype MediaSlot = ThumbnailSlot | PromoVideoSlot

  /** The MIME prefix each slot's gate demands. */
  function RequiredPrefix(slot: MediaSlot): string {
    match slot
    case ThumbnailSlot => "image/"
    case PromoVideoSlot => "video/"
  }

  /** The kind each slot's upload requests. */
  function SlotUploadKind(slot: MediaSlot): UploadKind {
    match slot
    case ThumbnailSlot => ImageUpload
    case PromoVideoSlot => VideoUpload
  }

  /** The reducer each slot dispatches to. */
  function SlotAction(slot: MediaSlot, url: string, file: Option<FileHandle>): Action {
    match slot
    case ThumbnailSlot => SetThumbnail(url, file)
    case PromoVideoSlot => SetPromoVideo(url, file)
  }

  /**
   * handleThumbnailUpload / handleVideoUpload, given the browser's preview
   * URL and the outcome of the upload: no file, a file of the wrong kind
   * or a failed upload dispatch nothing; otherwise the slot receives the
   * preview URL and the file, and the URL the upload returned is dropped.
   */
  function UploadAction(slot: MediaSlot, selected: Option<FileHandle>, previewUrl: string,
                        upload: UploadOutcome): (r: Option<Action>)
    ensures r.Some? <==>
      selected.Some? && StartsWith(selected.value.mime, RequiredPrefix(slot)) && upload.Uploaded?
    ensures r.Some? ==> r.value == SlotAction(slot, previewUrl, selected)
  {
    if selected.None? then None
    else if !StartsWith(selected.value.mime, RequiredPrefix(slot)) then None
    else if upload.UploadFailed? then None
    else Some(SlotAction(slot, previewUrl, selected))
  }

  /** handleRemoveThumbnail / handleRemoveVideo: url `''` and no file. */
  function RemoveAction(slot: MediaSlot): Action {
    SlotAction(slot, "", None)
  }

  /** Remove empties exactly its own slot. */
  lemma RemoveEmptiesSlot(s: CourseFormState, slot: MediaSlot)
    ensures slot == ThumbnailSlot ==>
      Reduce(s, RemoveAction(slot)) == s.(thumbnailUrl := "", thumbnailFile := None)
    ensures slot == PromoVideoSlot ==>
      Reduce(s, RemoveAction(slot)) == s.(promoVideoUrl := "", promoVideoFile := None)
  {
  }

  /** Every stored media file is of the kind its slot asks for. */
  predicate MediaKindsRight(s: CourseFormState) {
    && (s.thumbnailFile.Some? ==> StartsWith(s.thumbnailFile.value.mime, "image/"))
    && (s.promoVideoFile.Some? ==> StartsWith(s.promoVideoFile.value.mime, "video/"))
  }

  /**
   * The media handlers keep every stored file of the right kind, touch
   * only their own slot, and store the preview URL, whatever URL the
   * upload service returned.
   */
  lemma MediaHandlersKeepKinds(s: CourseFormState, slot: MediaSlot, selected: Option<FileHandle>,
                               previewUrl: string, upload: UploadOutcome)
    requires MediaKindsRight(s)
    ensures MediaKindsRight(Reduce(s, RemoveAction(slot)))
    ensures var r := UploadAction(slot, selected, previewUrl, upload);
      r.Some? ==>
        && MediaKindsRight(Reduce(s, r.value))
        && (slot == ThumbnailSlot ==>
              Reduce(s, r.value) == s.(thumbnailUrl := previewUrl, thumbnailFile := selected))
        && (slot == PromoVideoSlot ==>
              Reduce(s, r.value) == s.(promoVideoUrl := previewUrl, promoVideoFile := selected))
  {
  }

  /** The media step's own state around the store: the two busy flags. */
  class Media {
    const store: CourseFormStore
    var thumbnailUploading: bool
    var videoUploading: bool

    constructor (store: CourseFormStore)
      ensures this.store == store && !thumbnailUploading && !videoUploading
    {
      this.store := store;
      thumbnailUploading := false;
      videoUploading := false;
    }

    /**
     * handleThumbnailUpload: returns the upload kind requested, if the gate
     * let the file through; the busy flag is down again afterwards.
     */
    method HandleThumbnailUpload(selected: Option<FileHandle>, previewUrl: string, upload: UploadOutcome)
      returns (requested: Option<UploadKind>)
      modifies this`thumbnailUploading, store`thumbnailUrl, store`thumbnailFile
      ensures var r := UploadAction(ThumbnailSlot, selected, previewUrl, upload);
        store.Snapshot() == (if r.Some? then Reduce(old(store.Snapshot()), r.value) else old(store.Snapshot()))
      ensures requested.Some? <==> selected.Some? && StartsWith(selected.value.mime, "image/")
      ensures requested.Some? ==> requested.value == ImageUpload && !thumbnailUploading
      ensures requested.None? ==> thumbnailUploading == old(thumbnailUploading)
    {
      requested := None;
      if selected.None? {
        return;
      }
      if !StartsWith(selected.value.mime, "image/") {
        return;
      }
      thumbnailUploading := true;
      requested := Some(ImageUpload);
      if upload.Uploaded? {
        store.SetThumbnail(previewUrl, selected);
      }
      thumbnailUploading := false;
    }

    /** handleVideoUpload, the same for the promo video. */
    method HandleVideoUpload(selected: Option<FileHandle>, previewUrl: string, upload: UploadOutcome)
      returns (requested: Option<UploadKind>)
      modifies this`videoUploading, store`promoVideoUrl, store`promoVideoFile
      ensures var r := UploadAction(PromoVideoSlot, selected, previewUrl, upload);
        store.Snapshot() == (if r.Some? then Reduce(old(store.Snapshot()), r.value) else old(store.Snapshot()))
      ensures requested.Some? <==> selected.Some? && StartsWith(selected.value.mime, "video/")
      ensures requested.Some? ==> requested.value == VideoUpload && !videoUploading
      ensures requested.None? ==> videoUploading == old(videoUploading)
    {
      requested := None;
      if selected.None? {
        return;
      }
      if !StartsWith(selected.value.mime, "video/") {
        return;
      }
      videoUploading := true;
      requested := Some(VideoUpload);
      if upload.Uploaded? {
        store.SetPromoVideo(previewUrl, selected);
      }
      videoUploading := false;
    }

    method HandleRemoveThumbnail()
      modifies store`thumbnailUrl, store`thumbnailFile
      ensures store.Snapshot() == Reduce(old(store.Snapshot()), RemoveAction(ThumbnailSlot))
    {
      store.SetThumbnail("", None);
    }

    method HandleRemoveVideo()
      modifies store`promoVideoUrl, store`promoVideoFile
      ensures store.Snapshot() == Reduce(old(store.Snapshot()), RemoveAction(PromoVideoSlot))
    {
      store.SetPromoVideo("", None);
    }
  }
}
