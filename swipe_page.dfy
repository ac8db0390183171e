/**
 * The decision-effects coordinator of the swipe page: `handleKeep` copies a
 * kept photo into the destination folder, `handleDiscard` deletes the copy of
 * a photo that was kept, undone and is now discarded, and the `isSaving` flag
 * lets at most one such remote call be in flight.
 *
 * Each handler is split at its `await`: `HandleKeep` / `HandleDiscard` run up
 * to the remote call (or to the end, when there is none) and return the call
 * they issue; `CompleteKeep` / `CompleteDiscard` run the rest once the call's
 * outcome is known. The ghost `calls` log records every remote call issued.
 */
module SwipePage {
  import opened DriveApi
  import opened Store

  datatype ToastKind = Success | Error | Info | Loading

  datatype ExternalCall =
    | CopyCall(fileId: string, destinationFolderId: string)
    | DeleteCall(fileId: string)

  /** What the handler awaiting a remote call remembers of its start. */
  datatype Pending =
    | Idle
    | Copying(photoId: string, folder: DriveFolder)
    | Deleting(photoId: string, copiedId: string, folder: DriveFolder)

  /** `copiedFileIds[id]` is truthy: present and not the empty string. */
  predicate HasCopy(copiedFileIds: map<string, string>, id: string) {
    id in copiedFileIds && copiedFileIds[id] != ""
  }

  /** The undo button is disabled while history is empty or a call is in flight. */
  predicate UndoEnabled(history: seq<HistoryEntry>, isSaving: bool) {
    |history| != 0 && !isSaving
  }

  class Coordinator {
    const store: PhotoStore
    var isSaving: bool
    var pending: Pending
    var toast: Option<ToastKind>
    ghost var calls: seq<ExternalCall>
    ghost var settled: nat

    /**
     * The busy flag is up exactly while a call awaits its outcome; every call
     * but the pending one has settled; the photo a pending call is about is
     * still the current one.
     */
    ghost predicate Valid()
      reads this, store
    {
      && store.Valid()
      && (isSaving <==> !pending.Idle?)
      && |calls| == settled + (if isSaving then 1 else 0)
      && (pending.Copying? ==>
            store.currentPhoto.Some? && store.currentPhoto.value.id == pending.photoId &&
            calls[|calls| - 1] == CopyCall(pending.photoId, pending.folder.id))
      && (pending.Deleting? ==>
            store.currentPhoto.Some? && store.currentPhoto.value.id == pending.photoId &&
            calls[|calls| - 1] == DeleteCall(pending.copiedId))
    }

    constructor (store: PhotoStore)
      requires store.Valid()
      ensures Valid() && this.store == store
      ensures !isSaving && pending == Idle && toast == None && calls == [] && settled == 0
    {
      this.store := store;
      isSaving, pending, toast := false, Idle, None;
      calls, settled := [], 0;
    }

    /**
     * `handleKeep` up to its `await`. Ignored without a current photo, without
     * an access token or while saving. Without a destination it keeps at
     * once; with one, a photo that already has a copy is kept with an `info`
     * notice and no call; otherwise a copy call is issued and the keep waits
     * for `CompleteKeep`.
     */
    method HandleKeep(accessToken: string) returns (call: Option<ExternalCall>)
      requires Valid()
      modifies this, store
      ensures Valid()
      ensures old(store.currentPhoto).None? || accessToken == "" || old(isSaving) ==>
                call == None && unchanged(this) && unchanged(store)
      ensures call.Some? ==> calls == old(calls) + [call.value]
      ensures call.None? ==> calls == old(calls) && isSaving == old(isSaving)
      ensures settled == old(settled)
      ensures old(store.currentPhoto).Some? && accessToken != "" && !old(isSaving) ==>
        var id := old(store.currentPhoto).value.id;
        var dest := old(store.destinationFolder);
        if dest.None? then
          call == None && toast == old(toast) &&
          store.State() == DecideStep(old(store.State()), Keep)
        else if HasCopy(old(store.copiedFileIds), id) then
          call == None && toast == Some(Info) &&
          store.State() == DecideStep(old(store.State()), Keep)
        else
          call == Some(CopyCall(id, dest.value.id)) && toast == Some(Loading) &&
          isSaving && pending == Copying(id, dest.value) &&
          store.State() == old(store.State())
      ensures old(store.currentPhoto).Some? && accessToken != "" && !old(isSaving) && call.None? ==>
        store.State() == KeepOutcome(old(store.State()), None)
    {
      if store.currentPhoto.None? || accessToken == "" || isSaving {
        return None;
      }
      var photo := store.currentPhoto.value;
      isSaving := true;
      if store.destinationFolder.Some? {
        var dest := store.destinationFolder.value;
        if HasCopy(store.copiedFileIds, photo.id) {
          toast := Some(Info);
        } else {
          toast := Some(Loading);
          call := Some(CopyCall(photo.id, dest.id));
          calls := calls + [call.value];
          pending := Copying(photo.id, dest);
          return;
        }
      }
      store.Keep();
      isSaving := false;
      call := None;
    }

    /**
     * `handleKeep` after the copy call settled: a successful copy is recorded
     * in `copiedFileIds` before the keep, a failed one only produces an
     * `error` notice; the keep is committed either way and the flag cleared.
     */
    method CompleteKeep(outcome: Result<CopyFileResult>)
      requires Valid() && pending.Copying?
      modifies this, store
      ensures Valid()
      ensures !isSaving && pending == Idle
      ensures calls == old(calls) && settled == old(settled) + 1
      ensures outcome.Ok? ==>
        toast == Some(Success) &&
        store.State() == DecideStep(SetCopiedStep(old(store.State()), old(pending).photoId, outcome.value.id), Keep)
      ensures outcome.Err? ==>
        toast == Some(Error) && store.State() == DecideStep(old(store.State()), Keep)
      ensures store.State() == KeepOutcome(old(store.State()), Some(outcome))
    {
      var photoId := pending.photoId;
      if outcome.Ok? {
        store.SetCopiedFileId(photoId, outcome.value.id);
        toast := Some(Success);
      } else {
        toast := Some(Error);
      }
      store.Keep();
      isSaving, pending := false, Idle;
      settled := settled + 1;
    }

    /**
     * `handleDiscard` up to its `await`. Ignored without a current photo,
     * without an access token or while saving. When the photo has a copy and a
     * destination is set, a delete call for the copy is issued and the
     * discard waits for `CompleteDiscard`; otherwise it discards at once.
     */
    method HandleDiscard(accessToken: string) returns (call: Option<ExternalCall>)
      requires Valid()
      modifies this, store
      ensures Valid()
      ensures old(store.currentPhoto).None? || accessToken == "" || old(isSaving) ==>
                call == None && unchanged(this) && unchanged(store)
      ensures call.Some? ==> calls == old(calls) + [call.value]
      ensures call.None? ==> calls == old(calls) && isSaving == old(isSaving)
      ensures settled == old(settled)
      ensures old(store.currentPhoto).Some? && accessToken != "" && !old(isSaving) ==>
        var id := old(store.currentPhoto).value.id;
        var dest := old(store.destinationFolder);
        if HasCopy(old(store.copiedFileIds), id) && dest.Some? then
          call == Some(DeleteCall(old(store.copiedFileIds)[id])) && toast == Some(Loading) &&
          isSaving && pending == Deleting(id, old(store.copiedFileIds)[id], dest.value) &&
          store.State() == old(store.State())
        else
          call == None && toast == old(toast) &&
          store.State() == DecideStep(old(store.State()), Discard)
    {
      if store.currentPhoto.None? || accessToken == "" || isSaving {
        return None;
      }
      var photo := store.currentPhoto.value;
      var willDelete := HasCopy(store.copiedFileIds, photo.id) && store.destinationFolder.Some?;
      isSaving := true;
      if willDelete {
        var copiedId := store.copiedFileIds[photo.id];
        toast := Some(Loading);
        call := Some(DeleteCall(copiedId));
        calls := calls + [call.value];
        pending := Deleting(photo.id, copiedId, store.destinationFolder.value);
        return;
      }
      store.Discard();
      isSaving := false;
      call := None;
    }

    /**
     * `handleDiscard` after the delete call settled: a successful delete
     * drops the mapping and shows an `info` notice, a failed one keeps it and
     * shows an `error` notice; the discard is committed either way.
     */
    method CompleteDiscard(outcome: Result<()>)
      requires Valid() && pending.Deleting?
      modifies this, store
      ensures Valid()
      ensures !isSaving && pending == Idle
      ensures calls == old(calls) && settled == old(settled) + 1
      ensures outcome.Ok? ==>
        toast == Some(Info) &&
        store.State() == DecideStep(RemoveCopiedStep(old(store.State()), old(pending).photoId), Discard)
      ensures outcome.Err? ==>
        toast == Some(Error) && store.State() == DecideStep(old(store.State()), Discard)
    {
      var photoId := pending.photoId;
      if outcome.Ok? {
        store.RemoveCopiedFileId(photoId);
        toast := Some(Info);
      } else {
        toast := Some(Error);
      }
      store.Discard();
      isSaving, pending := false, Idle;
      settled := settled + 1;
    }

    /**
     * The undo button and shortcut: the store's `undo` alone, never a remote
     * call; it does nothing while disabled.
     */
    method Undo()
      requires Valid()
      modifies store
      ensures Valid()
      ensures UndoEnabled(old(store.history), isSaving) ==> store.State() == UndoStep(old(store.State()))
      ensures !UndoEnabled(old(store.history), isSaving) ==> unchanged(store)
    {
      if !UndoEnabled(store.history, isSaving) {
        return;
      }
      store.Undo();
    }

    /** The destination picker's `onSelect`: replaces the destination folder. */
    method ChooseDestination(folder: DriveFolder)
      requires Valid()
      modifies store
      ensures Valid()
      ensures store.State() == old(store.State()).(destinationFolder := Some(folder))
    {
      store.SetDestinationFolder(Some(folder));
    }
  }

  // ---------------------------------------------------------------------------
  // What one handled decision does, stated on session values
  // ---------------------------------------------------------------------------

  /**
   * The store's state once a keep has been handled to the end: the copy
   * outcome (None when no call was made) only decides whether a mapping is
   * recorded first; the keep itself is committed in every case.
   */
  function KeepOutcome(s: Session, copy: Option<Result<CopyFileResult>>): Session
    requires CurrentPhotoOf(s.photos, s.currentIndex).Some?
  {
    var id := s.photos[s.currentIndex].id;
    match copy
    case Some(Ok(result)) => DecideStep(SetCopiedStep(s, id, result.id), Keep)
    case _ => DecideStep(s, Keep)
  }

  /**
   * Whatever the copy outcome, a handled keep advances the cursor exactly
   * once, appends the photo to `keepIds` and leaves `discardIds` alone; the
   * mapping changes only on a successful copy, and then only for that photo.
   */
  lemma KeepAlwaysCommits(s: Session, copy: Option<Result<CopyFileResult>>)
    requires CurrentPhotoOf(s.photos, s.currentIndex).Some?
    ensures var id := s.photos[s.currentIndex].id;
      var t := KeepOutcome(s, copy);
      t.currentIndex == s.currentIndex + 1 &&
      t.keepIds == s.keepIds + [id] &&
      t.discardIds == s.discardIds &&
      t.history == s.history + [HistoryEntry(Keep, id)] &&
      (copy.Some? && copy.value.Ok? ==> t.copiedFileIds == s.copiedFileIds[id := copy.value.value.id]) &&
      (copy.None? || copy.value.Err? ==> t.copiedFileIds == s.copiedFileIds)
  {
  }

  /**
   * Duplicate prevention across undo: keep a photo with a successful copy,
   * undo, and keep it again — the second keep finds the mapping (a copy id
   * returned by the server is never empty) and so issues no copy call.
   */
  lemma RekeepAfterUndoFindsCopy(s: Session, copy: CopyFileResult)
    requires CurrentPhotoOf(s.photos, s.currentIndex).Some?
    requires copy.id != ""
    ensures var id := s.photos[s.currentIndex].id;
      var t := UndoStep(KeepOutcome(s, Some(Ok(copy))));
      CurrentPhotoOf(t.photos, t.currentIndex) == Some(s.photos[s.currentIndex]) &&
      HasCopy(t.copiedFileIds, id)
  {
  }

  // ---------------------------------------------------------------------------
  // End-to-end runs
  // ---------------------------------------------------------------------------

  /**
   * Keep photo A with a destination set and a successful copy, then undo:
   * one copy call; A is current again, no longer kept, and its copy is
   * still recorded.
   */
  method CopyThenUndoRun() returns (copyCall: Option<ExternalCall>, copies: map<string, string>,
                                    kept: seq<string>, current: Option<DriveImage>)
    ensures copyCall == Some(CopyCall("A", "dest"))
    ensures copies == map["A" := "copy-A"] && kept == [] && current == Some(DriveImage("A", "a.jpg", None, None))
  {
    var a := DriveImage("A", "a.jpg", None, None);
    var store := new PhotoStore();
    store.SetPhotos([a], None);
    var page := new Coordinator(store);
    var dest := DriveFolder("dest", "Sorted");
    page.ChooseDestination(dest);
    assert store.State() == Session([a], 0, [], [], [], Some(dest), map[]);
    copyCall := page.HandleKeep("token");
    page.CompleteKeep(Ok(CopyFileResult("copy-A", "a.jpg")));
    assert store.State() == Session([a], 1, ["A"], [], [HistoryEntry(Keep, "A")], Some(dest), map["A" := "copy-A"]);
    assert ["A"][..0] == [];
    page.Undo();
    assert store.State() == Session([a], 0, [], [], [], Some(dest), map["A" := "copy-A"]);
    copies, kept, current := store.copiedFileIds, store.keepIds, store.currentPhoto;
  }

  /**
   * Discard photo A, which has a recorded copy (as after `CopyThenUndoRun`):
   * one delete call for the copy; afterwards A is discarded and the mapping
   * is gone.
   */
  method DiscardCopiedRun() returns (deleteCall: Option<ExternalCall>, copies: map<string, string>,
                                     discarded: seq<string>)
    ensures deleteCall == Some(DeleteCall("copy-A"))
    ensures copies == map[] && discarded == ["A"]
  {
    var store := new PhotoStore();
    store.SetPhotos([DriveImage("A", "a.jpg", None, None), DriveImage("B", "b.jpg", None, None)], Some(0));
    store.SetCopiedFileId("A", "copy-A");
    var page := new Coordinator(store);
    page.ChooseDestination(DriveFolder("dest", "Sorted"));
    deleteCall := page.HandleDiscard("token");
    page.CompleteDiscard(Ok(()));
    copies, discarded := store.copiedFileIds, store.discardIds;
  }

  /**
   * A second keep while the first copy call is still in flight is dropped:
   * exactly one call, and only one keep once the call settles, even a failed one.
   */
  method DoubleKeepRun() returns (first: Option<ExternalCall>, second: Option<ExternalCall>,
                                  kept: seq<string>, copies: map<string, string>, notice: Option<ToastKind>)
    ensures first == Some(CopyCall("A", "dest")) && second == None
    ensures kept == ["A"] && copies == map[] && notice == Some(Error)
  {
    var store := new PhotoStore();
    store.SetPhotos([DriveImage("A", "a.jpg", None, None), DriveImage("B", "b.jpg", None, None)], Some(0));
    var page := new Coordinator(store);
    page.ChooseDestination(DriveFolder("dest", "Sorted"));
    first := page.HandleKeep("token");
    second := page.HandleKeep("token");
    page.CompleteKeep(Err(HttpError(500)));
    kept, copies, notice := store.keepIds, store.copiedFileIds, page.toast;
  }
}
