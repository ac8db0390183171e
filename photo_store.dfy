/**
 * The sort session store: an ordered photo list, a cursor, the keep and
 * discard decisions, an undo stack, the destination folder and the map from
 * each copied source photo to its copy.
 *
 * The transitions are defined once as functions on a `Session` value (so that
 * lemmas can compose them) and carried out in place by the methods of class
 * `PhotoStore`, each of which is proved to produce exactly that value.
 */
module Store {
  import opened DriveApi

  datatype Action = Keep | Discard

  datatype HistoryEntry = HistoryEntry(action: Action, photoId: string)

  /** The persistent part of the store's state (the derived fields excluded). */
  datatype Session = Session(
    photos: seq<DriveImage>,
    currentIndex: int,
    keepIds: seq<string>,
    discardIds: seq<string>,
    history: seq<HistoryEntry>,
    destinationFolder: Option<DriveFolder>,
    copiedFileIds: map<string, string>)

  const InitialSession: Session := Session([], 0, [], [], [], None, map[])

  // ---------------------------------------------------------------------------
  // Derived values (`computeDerived`)
  // ---------------------------------------------------------------------------

  /** `photos[currentIndex]`, which is undefined outside the list. */
  function CurrentPhotoOf(photos: seq<DriveImage>, currentIndex: int): Option<DriveImage> {
    if 0 <= currentIndex < |photos| then Some(photos[currentIndex]) else None
  }

  /** A session is complete once the cursor has passed a non-empty list. */
  predicate IsCompleteOf(photos: seq<DriveImage>, currentIndex: int) {
    |photos| > 0 && currentIndex >= |photos|
  }

  /**
   * Completion and the current photo exclude each other; an empty list is
   * never complete; and for a cursor that has not gone below zero, a
   * non-empty list is complete exactly when no photo is current.
   */
  lemma CompletionMeansNoCurrentPhoto(photos: seq<DriveImage>, currentIndex: int)
    ensures IsCompleteOf(photos, currentIndex) ==> CurrentPhotoOf(photos, currentIndex).None?
    ensures photos == [] ==> !IsCompleteOf(photos, currentIndex)
    ensures currentIndex >= 0 && |photos| > 0 ==>
              (IsCompleteOf(photos, currentIndex) <==> CurrentPhotoOf(photos, currentIndex).None?)
  {
  }

  // ---------------------------------------------------------------------------
  // Transitions on session values
  // ---------------------------------------------------------------------------

  /** `setPhotos(photos, startIndex)`: a new list and cursor, no decisions yet. */
  function SetPhotosStep(s: Session, photos: seq<DriveImage>, startIndex: int): Session {
    s.(photos := photos, currentIndex := startIndex, keepIds := [], discardIds := [], history := [])
  }

  /** `keep()` / `discard()`: record the decision on the current photo and move on. */
  function DecideStep(s: Session, action: Action): Session {
    match CurrentPhotoOf(s.photos, s.currentIndex)
    case None => s
    case Some(photo) =>
      var s' := s.(currentIndex := s.currentIndex + 1,
                   history := s.history + [HistoryEntry(action, photo.id)]);
      if action == Keep then s'.(keepIds := s.keepIds + [photo.id])
      else s'.(discardIds := s.discardIds + [photo.id])
  }

  /** `ids.filter((id) => id !== x)`. */
  function Without(ids: seq<string>, x: string): seq<string> {
    if ids == [] then []
    else Without(ids[..|ids| - 1], x) + (if ids[|ids| - 1] == x then [] else [ids[|ids| - 1]])
  }

  /** `undo()`: pop the last entry and take its id out of the matching list. */
  function UndoStep(s: Session): Session {
    if s.history == [] then s
    else
      var last := s.history[|s.history| - 1];
      var s' := s.(currentIndex := s.currentIndex - 1, history := s.history[..|s.history| - 1]);
      if last.action == Keep then s'.(keepIds := Without(s.keepIds, last.photoId))
      else s'.(discardIds := Without(s.discardIds, last.photoId))
  }

  /** `setCopiedFileId(sourceId, copiedId)`. */
  function SetCopiedStep(s: Session, sourceId: string, copiedId: string): Session {
    s.(copiedFileIds := s.copiedFileIds[sourceId := copiedId])
  }

  /** `removeCopiedFileId(sourceId)`. */
  function RemoveCopiedStep(s: Session, sourceId: string): Session {
    s.(copiedFileIds := s.copiedFileIds - {sourceId})
  }

  /**
   * `validateDestinationFolder`, given what `getFolder` returned: only a
   * folder reported missing clears the destination; an error keeps it.
   */
  function ValidateStep(s: Session, check: Result<Option<DriveFolder>>): Session {
    if s.destinationFolder.None? then s
    else if check == Ok(None) then s.(destinationFolder := None)
    else s
  }

  // ---------------------------------------------------------------------------
  // The store object
  // ---------------------------------------------------------------------------

  class PhotoStore {
    var photos: seq<DriveImage>
    var currentIndex: int
    var keepIds: seq<string>
    var discardIds: seq<string>
    var history: seq<HistoryEntry>
    var currentPhoto: Option<DriveImage>
    var isComplete: bool
    var destinationFolder: Option<DriveFolder>
    var copiedFileIds: map<string, string>

    /** The derived fields always agree with `computeDerived`. */
    ghost predicate Valid()
      reads this
    {
      currentPhoto == CurrentPhotoOf(photos, currentIndex) &&
      isComplete == IsCompleteOf(photos, currentIndex)
    }

    function State(): Session
      reads this
    {
      Session(photos, currentIndex, keepIds, discardIds, history, destinationFolder, copiedFileIds)
    }

    constructor ()
      ensures Valid() && State() == InitialSession
      ensures currentPhoto == None && !isComplete
    {
      photos, currentIndex, keepIds, discardIds, history := [], 0, [], [], [];
      currentPhoto, isComplete := None, false;
      destinationFolder, copiedFileIds := None, map[];
    }

    /** `setPhotos(newPhotos, startIndex = 0)`: an omitted start index is 0. */
    method SetPhotos(newPhotos: seq<DriveImage>, startIndex: Option<int>)
      requires Valid()
      modifies this
      ensures Valid()
      ensures State() == SetPhotosStep(old(State()), newPhotos, if startIndex.Some? then startIndex.value else 0)
    {
      photos := newPhotos;
      currentIndex := if startIndex.Some? then startIndex.value else 0;
      keepIds, discardIds, history := [], [], [];
      currentPhoto, isComplete := CurrentPhotoOf(photos, currentIndex), IsCompleteOf(photos, currentIndex);
    }

    method Keep()
      requires Valid()
      modifies this
      ensures Valid() && State() == DecideStep(old(State()), Action.Keep)
    {
      var photo := CurrentPhotoOf(photos, currentIndex);
      if photo.None? {
        return;
      }
      var newIndex := currentIndex + 1;
      keepIds := keepIds + [photo.value.id];
      currentIndex := newIndex;
      history := history + [HistoryEntry(Action.Keep, photo.value.id)];
      currentPhoto, isComplete := CurrentPhotoOf(photos, newIndex), IsCompleteOf(photos, newIndex);
    }

    method Discard()
      requires Valid()
      modifies this
      ensures Valid() && State() == DecideStep(old(State()), Action.Discard)
    {
      var photo := CurrentPhotoOf(photos, currentIndex);
      if photo.None? {
        return;
      }
      var newIndex := currentIndex + 1;
      discardIds := discardIds + [photo.value.id];
      currentIndex := newIndex;
      history := history + [HistoryEntry(Action.Discard, photo.value.id)];
      currentPhoto, isComplete := CurrentPhotoOf(photos, newIndex), IsCompleteOf(photos, newIndex);
    }

    method Undo()
      requires Valid()
      modifies this
      ensures Valid() && State() == UndoStep(old(State()))
    {
      if |history| == 0 {
        return;
      }
      var lastAction := history[|history| - 1];
      var newHistory := history[..|history| - 1];
      var newIndex := currentIndex - 1;
      if lastAction.action == Action.Keep {
        keepIds := Without(keepIds, lastAction.photoId);
      } else {
        discardIds := Without(discardIds, lastAction.photoId);
      }
      currentIndex := newIndex;
      history := newHistory;
      currentPhoto, isComplete := CurrentPhotoOf(photos, newIndex), IsCompleteOf(photos, newIndex);
    }

    method Reset()
      requires Valid()
      modifies this
      ensures Valid() && State() == InitialSession
      ensures currentPhoto == None && !isComplete
    {
      photos, currentIndex, keepIds, discardIds, history := [], 0, [], [], [];
      currentPhoto, isComplete := None, false;
      destinationFolder, copiedFileIds := None, map[];
    }

    method SetDestinationFolder(folder: Option<DriveFolder>)
      requires Valid()
      modifies this
      ensures Valid() && State() == old(State()).(destinationFolder := folder)
    {
      destinationFolder := folder;
    }

    method SetCopiedFileId(sourceId: string, copiedId: string)
      requires Valid()
      modifies this
      ensures Valid() && State() == SetCopiedStep(old(State()), sourceId, copiedId)
    {
      copiedFileIds := copiedFileIds[sourceId := copiedId];
    }

    method RemoveCopiedFileId(sourceId: string)
      requires Valid()
      modifies this
      ensures Valid() && State() == RemoveCopiedStep(old(State()), sourceId)
    {
      copiedFileIds := copiedFileIds - {sourceId};
    }

    /**
     * `validateDestinationFolder`: asks `getFolder` about the destination (if
     * one is set) and clears it when the folder is reported gone. `reply` is
     * the server's answer to that request; `queried` is the folder id asked for.
     */
    method ValidateDestinationFolder(reply: Reply<FolderBody>) returns (queried: Option<string>)
      requires Valid()
      modifies this
      ensures Valid() && State() == ValidateStep(old(State()), GetFolder(reply))
      ensures queried.Some? <==> old(destinationFolder).Some?
      ensures queried.Some? ==> queried.value == old(destinationFolder).value.id
    {
      if destinationFolder.None? {
        return None;
      }
      queried := Some(destinationFolder.value.id);
      var folder := GetFolder(reply);
      if folder.Ok? && folder.value.None? {
        destinationFolder := None;
      }
    }
  }

  // ---------------------------------------------------------------------------
  // What the transitions promise
  // ---------------------------------------------------------------------------

  /** `setPhotos` resets the traversal but keeps the destination and the copies. */
  lemma SetPhotosKeepsDestinationAndCopies(s: Session, photos: seq<DriveImage>, startIndex: int)
    ensures var t := SetPhotosStep(s, photos, startIndex);
      t.photos == photos && t.currentIndex == startIndex &&
      t.keepIds == [] && t.discardIds == [] && t.history == [] &&
      t.destinationFolder == s.destinationFolder && t.copiedFileIds == s.copiedFileIds
  {
  }

  /**
   * A decision on the current photo appends its id to the matching list and
   * to the history and advances the cursor by one; without a current photo it
   * changes nothing. The other list, the photos, the destination and the
   * copies are untouched either way.
   */
  lemma DecideEffect(s: Session, action: Action)
    ensures var t := DecideStep(s, action);
      t.photos == s.photos && t.destinationFolder == s.destinationFolder &&
      t.copiedFileIds == s.copiedFileIds &&
      (action == Keep ==> t.discardIds == s.discardIds) &&
      (action == Discard ==> t.keepIds == s.keepIds)
    ensures CurrentPhotoOf(s.photos, s.currentIndex).None? ==> DecideStep(s, action) == s
    ensures CurrentPhotoOf(s.photos, s.currentIndex).Some? ==>
      var id := s.photos[s.currentIndex].id;
      var t := DecideStep(s, action);
      t.currentIndex == s.currentIndex + 1 &&
      t.history == s.history + [HistoryEntry(action, id)] &&
      (action == Keep ==> t.keepIds == s.keepIds + [id]) &&
      (action == Discard ==> t.discardIds == s.discardIds + [id])
  {
  }

  /** `Without` leaves a list without `x` unchanged. */
  lemma {:induction false} WithoutAbsent(ids: seq<string>, x: string)
    requires x !in ids
    ensures Without(ids, x) == ids
  {
    if ids != [] {
      WithoutAbsent(ids[..|ids| - 1], x);
      assert ids[..|ids| - 1] + [ids[|ids| - 1]] == ids;
    }
  }

  /** `Without` keeps exactly the elements different from `x`. */
  lemma {:induction false} WithoutRemovesAll(ids: seq<string>, x: string)
    ensures x !in Without(ids, x)
    ensures forall y :: y in Without(ids, x) <==> y in ids && y != x
  {
    if ids != [] {
      WithoutRemovesAll(ids[..|ids| - 1], x);
      assert ids == ids[..|ids| - 1] + [ids[|ids| - 1]];
    }
  }

  /**
   * `Without` works element by element and keeps the survivors in their
   * order: filtering a concatenation is concatenating the filtered parts.
   */
  lemma {:induction false} WithoutDistributes(a: seq<string>, b: seq<string>, x: string)
    ensures Without(a + b, x) == Without(a, x) + Without(b, x)
  {
    if b == [] {
      assert a + b == a;
    } else {
      var last := b[|b| - 1];
      var tail := if last == x then [] else [last];
      WithoutDistributes(a, b[..|b| - 1], x);
      assert (a + b)[..|a + b| - 1] == a + b[..|b| - 1];
      calc {
        Without(a + b, x);
        Without(a + b[..|b| - 1], x) + tail;
        Without(a, x) + Without(b[..|b| - 1], x) + tail;
        Without(a, x) + Without(b, x);
      }
    }
  }

  /** `Without` drops every copy of `x` and nothing else. */
  lemma {:induction false} WithoutCounts(ids: seq<string>, x: string)
    ensures multiset(Without(ids, x)) == multiset(ids)[x := 0]
  {
    if ids != [] {
      var init := ids[..|ids| - 1];
      WithoutCounts(init, x);
      assert ids == init + [ids[|ids| - 1]];
    }
  }

  /**
   * Undo right after a decision restores the whole session, provided the
   * decided photo's id was not already in the list it was added to (with
   * distinct photo ids this always holds, see `DecisionsTrackHistory`).
   */
  lemma UndoAfterDecide(s: Session, action: Action)
    requires CurrentPhotoOf(s.photos, s.currentIndex).Some?
    requires action == Keep ==> s.photos[s.currentIndex].id !in s.keepIds
    requires action == Discard ==> s.photos[s.currentIndex].id !in s.discardIds
    ensures UndoStep(DecideStep(s, action)) == s
  {
    var id := s.photos[s.currentIndex].id;
    var t := DecideStep(s, action);
    // `t` with its last entry popped and the cursor moved back
    var popped := t.(currentIndex := t.currentIndex - 1, history := t.history[..|t.history| - 1]);
    assert t.history[..|t.history| - 1] == s.history;
    if action == Keep {
      assert popped == s.(keepIds := s.keepIds + [id]);
      WithoutLast(s.keepIds, id);
      WithoutAbsent(s.keepIds, id);
      assert UndoStep(t) == popped.(keepIds := Without(s.keepIds + [id], id));
    } else {
      assert popped == s.(discardIds := s.discardIds + [id]);
      WithoutLast(s.discardIds, id);
      WithoutAbsent(s.discardIds, id);
      assert UndoStep(t) == popped.(discardIds := Without(s.discardIds + [id], id));
    }
  }

  /**
   * Undo is a no-op on an empty history. Otherwise it pops the last entry,
   * filters its id out of the matching list only, and never touches the copies.
   */
  lemma UndoEffect(s: Session)
    ensures s.history == [] ==> UndoStep(s) == s
    ensures UndoStep(s).copiedFileIds == s.copiedFileIds
    ensures UndoStep(s).destinationFolder == s.destinationFolder
    ensures UndoStep(s).photos == s.photos
    ensures s.history != [] ==>
      UndoStep(s).currentIndex == s.currentIndex - 1 &&
      UndoStep(s).history == s.history[..|s.history| - 1]
    ensures s.history != [] ==>
      var last := s.history[|s.history| - 1];
      (last.action == Keep ==>
         UndoStep(s).keepIds == Without(s.keepIds, last.photoId) && UndoStep(s).discardIds == s.discardIds) &&
      (last.action == Discard ==>
         UndoStep(s).discardIds == Without(s.discardIds, last.photoId) && UndoStep(s).keepIds == s.keepIds)
  {
  }

  /** `setCopiedFileId` adds or overwrites one key and changes nothing else. */
  lemma SetCopiedOnlyTouchesKey(s: Session, sourceId: string, copiedId: string)
    ensures var t := SetCopiedStep(s, sourceId, copiedId);
      t.copiedFileIds.Keys == s.copiedFileIds.Keys + {sourceId} &&
      t.copiedFileIds[sourceId] == copiedId &&
      (forall k :: k in s.copiedFileIds && k != sourceId ==> t.copiedFileIds[k] == s.copiedFileIds[k]) &&
      t.(copiedFileIds := s.copiedFileIds) == s
  {
  }

  /** `removeCopiedFileId` removes one key and changes nothing else. */
  lemma RemoveCopiedOnlyTouchesKey(s: Session, sourceId: string)
    ensures var t := RemoveCopiedStep(s, sourceId);
      t.copiedFileIds.Keys == s.copiedFileIds.Keys - {sourceId} &&
      (forall k :: k in t.copiedFileIds ==> t.copiedFileIds[k] == s.copiedFileIds[k]) &&
      t.(copiedFileIds := s.copiedFileIds) == s
  {
  }

  /**
   * Validation clears the destination exactly when one is set and the server
   * reports it missing (404 or trashed); in every other case, errors
   * included, the session is unchanged.
   */
  lemma ValidateClearsOnlyMissingFolder(s: Session, reply: Reply<FolderBody>)
    ensures var t := ValidateStep(s, GetFolder(reply));
      t.(destinationFolder := s.destinationFolder) == s &&
      (t.destinationFolder == None <==>
         s.destinationFolder.None? ||
         (reply.Response? && (reply.status == NotFound || (IsOk(reply.status) && reply.body.trashed))))
    ensures GetFolder(reply).Err? ==> ValidateStep(s, GetFolder(reply)) == s
  {
  }

  // ---------------------------------------------------------------------------
  // Sessions reached by keep / discard / undo
  // ---------------------------------------------------------------------------

  datatype Command = KeepCmd | DiscardCmd | UndoCmd

  function Apply(s: Session, c: Command): Session {
    match c
    case KeepCmd => DecideStep(s, Keep)
    case DiscardCmd => DecideStep(s, Discard)
    case UndoCmd => UndoStep(s)
  }

  /** The session after the commands, applied first to last. */
  function Run(s: Session, cs: seq<Command>): Session
    decreases |cs|
  {
    if cs == [] then s else Apply(Run(s, cs[..|cs| - 1]), cs[|cs| - 1])
  }

  /** `n` undos in a row. */
  function Undos(s: Session, n: nat): Session
    decreases n
  {
    if n == 0 then s else Undos(UndoStep(s), n - 1)
  }

  predicate DistinctIds(photos: seq<DriveImage>) {
    forall i, j :: 0 <= i < j < |photos| ==> photos[i].id != photos[j].id
  }

  /** The ids of the history entries with the given action, in order. */
  function IdsOf(h: seq<HistoryEntry>, action: Action): seq<string> {
    if h == [] then []
    else IdsOf(h[..|h| - 1], action) + (if h[|h| - 1].action == action then [h[|h| - 1].photoId] else [])
  }

  /**
   * The history records a decision for each photo from `startIndex` up to the
   * cursor, in order, and the two id lists are exactly its keep and discard
   * entries.
   */
  ghost predicate Tracks(s: Session, startIndex: int) {
    && s.currentIndex - startIndex == |s.history|
    && (forall j :: 0 <= j < |s.history| ==> RecordedAt(s, startIndex, j))
    && s.keepIds == IdsOf(s.history, Keep)
    && s.discardIds == IdsOf(s.history, Discard)
  }

  /** History entry `j` is about the photo at `startIndex + j`. */
  ghost predicate RecordedAt(s: Session, startIndex: int, j: nat)
    requires j < |s.history|
  {
    0 <= startIndex + j < |s.photos| && s.history[j].photoId == s.photos[startIndex + j].id
  }

  lemma {:induction false} IdsOfCount(h: seq<HistoryEntry>)
    ensures |IdsOf(h, Keep)| + |IdsOf(h, Discard)| == |h|
  {
    if h != [] {
      IdsOfCount(h[..|h| - 1]);
    }
  }

  lemma {:induction false} IdsOfOnlyFromHistory(h: seq<HistoryEntry>, action: Action, x: string)
    requires forall j :: 0 <= j < |h| ==> h[j].photoId != x
    ensures x !in IdsOf(h, action)
  {
    if h != [] {
      IdsOfOnlyFromHistory(h[..|h| - 1], action, x);
    }
  }

  lemma {:induction false} IdsOfDisjoint(h: seq<HistoryEntry>)
    requires forall i, j :: 0 <= i < j < |h| ==> h[i].photoId != h[j].photoId
    ensures forall x :: x in IdsOf(h, Keep) ==> x !in IdsOf(h, Discard)
  {
    if h != [] {
      var init := h[..|h| - 1];
      var last := h[|h| - 1].photoId;
      IdsOfDisjoint(init);
      IdsOfOnlyFromHistory(init, Keep, last);
      IdsOfOnlyFromHistory(init, Discard, last);
    }
  }

  /** With distinct ids, a tracked session's current photo has not been decided yet. */
  lemma CurrentUndecided(s: Session, startIndex: int)
    requires Tracks(s, startIndex) && DistinctIds(s.photos)
    requires CurrentPhotoOf(s.photos, s.currentIndex).Some?
    ensures s.photos[s.currentIndex].id !in s.keepIds
    ensures s.photos[s.currentIndex].id !in s.discardIds
  {
    var id := s.photos[s.currentIndex].id;
    forall j | 0 <= j < |s.history| ensures s.history[j].photoId != id {
      assert RecordedAt(s, startIndex, j);
    }
    IdsOfOnlyFromHistory(s.history, Keep, id);
    IdsOfOnlyFromHistory(s.history, Discard, id);
  }

  lemma SetPhotosTracks(s: Session, photos: seq<DriveImage>, startIndex: int)
    ensures Tracks(SetPhotosStep(s, photos, startIndex), startIndex)
  {
  }

  lemma DecidePreservesTracks(s: Session, startIndex: int, action: Action)
    requires Tracks(s, startIndex)
    ensures Tracks(DecideStep(s, action), startIndex)
  {
    if CurrentPhotoOf(s.photos, s.currentIndex).Some? {
      var t := DecideStep(s, action);
      var n := |s.history|;
      assert t.history[..n] == s.history;
      assert IdsOf(t.history, Keep) == IdsOf(s.history, Keep) + (if action == Keep then [s.photos[s.currentIndex].id] else []);
      assert IdsOf(t.history, Discard) == IdsOf(s.history, Discard) + (if action == Discard then [s.photos[s.currentIndex].id] else []);
      forall j | 0 <= j < |t.history| ensures RecordedAt(t, startIndex, j) {
        if j < n {
          assert RecordedAt(s, startIndex, j);
          assert t.history[j] == s.history[j];
        } else {
          assert startIndex + j == s.currentIndex && 0 <= s.currentIndex < |s.photos|;
          assert t.history[j] == HistoryEntry(action, s.photos[s.currentIndex].id);
        }
      }
    }
  }

  /** Dropping an id that was just appended is dropping it from the rest. */
  lemma WithoutLast(ids: seq<string>, x: string)
    ensures Without(ids + [x], x) == Without(ids, x)
  {
    assert (ids + [x])[..|ids|] == ids;
  }

  lemma UndoPreservesTracks(s: Session, startIndex: int)
    requires Tracks(s, startIndex) && DistinctIds(s.photos)
    ensures Tracks(UndoStep(s), startIndex)
  {
    if s.history != [] {
      var n := |s.history|;
      var init := s.history[..n - 1];
      var last := s.history[n - 1];
      var t := UndoStep(s);
      assert t.history == init;
      assert RecordedAt(s, startIndex, n - 1);
      forall j | 0 <= j < n - 1
        ensures RecordedAt(t, startIndex, j) && init[j].photoId != last.photoId
      {
        assert RecordedAt(s, startIndex, j);
        assert init[j] == s.history[j];
      }
      IdsOfOnlyFromHistory(init, last.action, last.photoId);
      if last.action == Keep {
        assert IdsOf(s.history, Keep) == IdsOf(init, Keep) + [last.photoId];
        assert s.keepIds == IdsOf(init, Keep) + [last.photoId];
        assert IdsOf(s.history, Discard) == IdsOf(init, Discard);
        assert s.discardIds == IdsOf(init, Discard);
        WithoutLast(IdsOf(init, Keep), last.photoId);
        WithoutAbsent(IdsOf(init, Keep), last.photoId);
      } else {
        assert IdsOf(s.history, Discard) == IdsOf(init, Discard) + [last.photoId];
        assert s.discardIds == IdsOf(init, Discard) + [last.photoId];
        assert IdsOf(s.history, Keep) == IdsOf(init, Keep);
        assert s.keepIds == IdsOf(init, Keep);
        WithoutLast(IdsOf(init, Discard), last.photoId);
        WithoutAbsent(IdsOf(init, Discard), last.photoId);
      }
    }
  }

  lemma {:induction false} RunPreservesTracks(s: Session, startIndex: int, cs: seq<Command>)
    requires Tracks(s, startIndex) && DistinctIds(s.photos)
    ensures Tracks(Run(s, cs), startIndex)
    ensures Run(s, cs).photos == s.photos
    ensures Run(s, cs).destinationFolder == s.destinationFolder
    ensures Run(s, cs).copiedFileIds == s.copiedFileIds
  {
    if cs != [] {
      var before := Run(s, cs[..|cs| - 1]);
      RunPreservesTracks(s, startIndex, cs[..|cs| - 1]);
      match cs[|cs| - 1]
      case KeepCmd => DecidePreservesTracks(before, startIndex, Keep);
      case DiscardCmd => DecidePreservesTracks(before, startIndex, Discard);
      case UndoCmd => UndoPreservesTracks(before, startIndex);
    }
  }

  /**
   * The session invariant: after `setPhotos(photos, startIndex)` with distinct
   * ids and any sequence of keep / discard / undo, the history has one entry
   * per decision, the cursor has moved by exactly that many places, no id is
   * both kept and discarded, and the destination and copies are as before.
   */
  lemma DecisionsTrackHistory(s0: Session, photos: seq<DriveImage>, startIndex: int, cs: seq<Command>)
    requires DistinctIds(photos)
    ensures var s := Run(SetPhotosStep(s0, photos, startIndex), cs);
      |s.history| == |s.keepIds| + |s.discardIds| == s.currentIndex - startIndex &&
      (forall x :: x in s.keepIds ==> x !in s.discardIds) &&
      s.photos == photos &&
      s.destinationFolder == s0.destinationFolder && s.copiedFileIds == s0.copiedFileIds
  {
    var s1 := SetPhotosStep(s0, photos, startIndex);
    SetPhotosTracks(s0, photos, startIndex);
    RunPreservesTracks(s1, startIndex, cs);
    var s := Run(s1, cs);
    IdsOfCount(s.history);
    forall i, j | 0 <= i < j < |s.history| ensures s.history[i].photoId != s.history[j].photoId {
      assert RecordedAt(s, startIndex, i) && RecordedAt(s, startIndex, j);
    }
    IdsOfDisjoint(s.history);
  }

  predicate AllDecisions(cs: seq<Command>) {
    forall i :: 0 <= i < |cs| ==> cs[i] != UndoCmd
  }

  /**
   * Undos unwind decisions last-in first-out: from a tracked session with
   * distinct ids, `n` decisions on photos that exist followed by `n` undos
   * give back the session exactly.
   */
  lemma {:induction false} UndosUnwindDecisions(s: Session, startIndex: int, cs: seq<Command>)
    requires Tracks(s, startIndex) && DistinctIds(s.photos)
    requires AllDecisions(cs)
    requires 0 <= s.currentIndex && s.currentIndex + |cs| <= |s.photos|
    ensures Run(s, cs).currentIndex == s.currentIndex + |cs|
    ensures Tracks(Run(s, cs), startIndex)
    ensures Undos(Run(s, cs), |cs|) == s
  {
    if cs != [] {
      var n := |cs|;
      var init := cs[..n - 1];
      var before := Run(s, init);
      UndosUnwindDecisions(s, startIndex, init);
      RunPreservesTracks(s, startIndex, init);
      CurrentUndecided(before, startIndex);
      var action := if cs[n - 1] == KeepCmd then Keep else Discard;
      assert Run(s, cs) == DecideStep(before, action);
      DecidePreservesTracks(before, startIndex, action);
      UndoAfterDecide(before, action);
    }
  }
}
