# Photo sorting session: a Dafny model

A model of the core of a photo-sorting web app for Google Drive. The user
goes through the images of one Drive folder one at a time and keeps or
discards each. Decisions can be undone. When a destination folder is set,
keeping a photo copies it there. Discarding a photo that was copied earlier
(kept, undone, then discarded) deletes the copy.

The model has five modules, one per core source file:

- `DriveApi` (`drive_api.dfy`) covers the Drive client. It models how
  `getFolder`, `deleteFile`, `copyFile` and `createFolder` classify the
  server's reply. It also models the `do … while (pageToken)` loop of the
  listing functions, as a method proved against a function `Collect`. A
  reply is a status plus an already parsed body, or a network failure. The
  listing loop reads its replies from a script `pages`: `pages[i]` answers
  the i-th request.
- `Store` (`photo_store.dfy`) covers the session store. Class `PhotoStore`
  keeps the store's fields, including the derived `currentPhoto` and
  `isComplete`. Each action is a method proved to produce exactly a step
  function on a `Session` value. The lemmas compose those step functions:
  undo inverts a decision, undos unwind decisions last in first out, and the
  history/counter invariant holds.
- `SwipePage` (`swipe_page.dfy`) covers the keep/discard handlers of the
  swipe page and their `isSaving` flag. Each async handler is split at its
  single `await`. `HandleKeep` / `HandleDiscard` run up to the remote call
  and return the call they issue. `CompleteKeep` / `CompleteDiscard` run the
  rest once the outcome of that call is known. A ghost log of issued calls
  shows that at most one call is in flight at a time.
- `FolderSelection` (`folder_selection.dfy`) covers `resolveSelection`. The
  outcomes of `getFileParent` and `listAllImages` are its inputs.
- `DestinationPicker` (`destination_picker.dfy`) covers the destination
  picker's breadcrumb navigation. Class `Picker` holds the state and its
  methods are proved against step functions on `View`. The pure parts are
  functions on `View`: the folder the picker would select, which listing it
  loads, and the folder-creation request.

JavaScript truthiness is modelled where the source relies on it:

- An empty string in `copiedFileIds` counts as "no copy".
- An empty access token counts as "not signed in".
- An empty `nextPageToken` ends a listing.
- An empty `parentId` makes `listFolders` list the root.
- `createFolder` uses `??`, so only an absent parent falls back to `root`.

Two details of the code shape the contracts:

- The store counts a session as complete once the cursor is at or past the
  end of a non-empty list, not only exactly at the end.
- `undo` removes every occurrence of the photo id from the matching list.
  So the invariant `|history| == |keepIds| + |discardIds| == currentIndex -
  startIndex` is proved for photo lists whose ids are distinct.

## Model

| member | source | states |
|---|---|---|
| DriveApi.GetFolder | src/services/googleDriveApi.ts:274-299 | The result is "no such folder" exactly when the status is 404 or a 2xx reply says the folder is trashed. It is an error exactly on a network failure or on another non-2xx status, and the error carries that status. Otherwise it is the folder from the body. |
| DriveApi.DeleteFile | src/services/googleDriveApi.ts:302-320 | Succeeds exactly on a 2xx or a 404 reply. Otherwise it is an error, carrying the status when there was one. |
| DriveApi.CopyFile | src/services/googleDriveApi.ts:247-271 | Succeeds exactly on a 2xx reply and returns the copy's id and name. Every other status, 404 included, is an error carrying that status. |
| DriveApi.CreateFolderParents | src/services/googleDriveApi.ts:365 | The request names exactly one parent: the given one, or `root` only when none is given. |
| DriveApi.CreateFolder | src/services/googleDriveApi.ts:351-377 | Succeeds exactly on a 2xx reply and returns the created folder. Every other status is an error carrying that status. |
| DriveApi.ListFoldersParent | src/services/googleDriveApi.ts:21-24 | The query's parent is `root` exactly when the parent id is absent, empty or `root` itself; otherwise it is the given id. |
| DriveApi.PageItems | src/services/googleDriveApi.ts:47-89 | Defines one page's contribution. A network failure or a non-2xx status aborts the listing with that error. Otherwise the page's list is returned; a missing list is an error, or no items for the shared-drive listing. |
| DriveApi.HasMore | src/services/googleDriveApi.ts:58-59 | Defines when another request follows: the reply carries a next token that is present and not empty. |
| DriveApi.Collect | src/services/googleDriveApi.ts:27-59 | Defines the outcome of a listing answered by a script of replies: the items of every page in order, up to and including the first page without a next token, or the first error met. Its properties are the two lemmas below. |
| DriveApi.CollectConcatenatesPages | src/services/googleDriveApi.ts:27-61 | When all pages up to the first one without a next token succeed, the listing returns their items concatenated in page order. |
| DriveApi.CollectStopsAtFirstError | src/services/googleDriveApi.ts:44-52 | The first failing page ends the listing with that page's error. |
| DriveApi.ListAll | src/services/googleDriveApi.ts:27-59 | The page loop returns exactly `Collect` of the replies. The first request carries no token and each later one carries the previous page's token. It stops at the first page that fails or has no non-empty next token, and at no earlier page. |
| DriveApi.ListFolders | src/services/googleDriveApi.ts:21-61 | Queries the parent given by `ListFoldersParent` and returns the concatenated pages, or the first error. Like `ListAll`, it sends no token first and then each page's next token, and stops exactly at the first page that ends the listing. |
| DriveApi.ListSharedDrives | src/services/googleDriveApi.ts:64-95 | As `ListAll`, with the same token sequence and stopping page, except that a page without a `drives` list contributes no items instead of failing. |
| DriveApi.ListSharedFolders | src/services/googleDriveApi.ts:145-180 | Returns the concatenated pages of shared folders, or the first error. The tokens sent and the stopping page are those of `ListAll`. |
| DriveApi.ListAllImages | src/services/googleDriveApi.ts:188-239 | Returns the images of every page in page order, or the first error. A page without `files` is an error. The tokens sent and the stopping page are those of `ListAll`. |
| Store.CurrentPhotoOf | src/stores/photoStore.ts:32-35 | Defines `currentPhoto`: the photo at the cursor, or none when the cursor is outside the list. |
| Store.IsCompleteOf | src/stores/photoStore.ts:32-35 | Defines `isComplete`: the list is non-empty and the cursor is at or past its end. |
| Store.SetPhotosStep | src/stores/photoStore.ts:50-58 | Defines `setPhotos` on a session value. What it clears and keeps is stated by `Store.SetPhotosKeepsDestinationAndCopies`. |
| Store.DecideStep | src/stores/photoStore.ts:60-86 | Defines `keep` and `discard` on a session value. What it changes and keeps is stated by `Store.DecideEffect`. |
| Store.UndoStep | src/stores/photoStore.ts:88-111 | Defines `undo` on a session value. What it changes and keeps is stated by `Store.UndoEffect`; that it inverts a decision, by `Store.UndoAfterDecide`. |
| Store.SetCopiedStep | src/stores/photoStore.ts:128-131 | Defines `setCopiedFileId` on a session value. That it touches one key only is stated by `Store.SetCopiedOnlyTouchesKey`. |
| Store.RemoveCopiedStep | src/stores/photoStore.ts:133-138 | Defines `removeCopiedFileId` on a session value. That it removes one key only is stated by `Store.RemoveCopiedOnlyTouchesKey`. |
| Store.Without | src/stores/photoStore.ts:98-105 | Defines the `filter((id) => id !== photoId)` of undo. What it keeps, in which order and how often is stated by `Store.WithoutRemovesAll`, `Store.WithoutDistributes` and `Store.WithoutCounts`. |
| Store.ValidateStep | src/stores/photoStore.ts:140-152 | Defines the effect of the `getFolder` outcome on the destination. What it changes is stated by `Store.ValidateClearsOnlyMissingFolder`. |
| Store.CompletionMeansNoCurrentPhoto | src/stores/photoStore.ts:32-35 | A complete session has no current photo, and an empty list is never complete. For a cursor at or above zero and a non-empty list, complete holds exactly when there is no current photo. |
| Store.PhotoStore.constructor | src/stores/photoStore.ts:40-48 | Starts with no photos, cursor 0, no decisions, no destination, no copies, no current photo and not complete. |
| Store.PhotoStore.SetPhotos | src/stores/photoStore.ts:50-58 | The new state is `SetPhotosStep` of the old one, at the given start index or at 0 when none is given. The derived fields agree with the new list and cursor. |
| Store.PhotoStore.Keep | src/stores/photoStore.ts:60-72 | The new state is `DecideStep(old, Keep)`: nothing changes without a current photo. Otherwise its id is appended to `keepIds` and to the history, and the cursor advances. The derived fields are kept in step. |
| Store.PhotoStore.Discard | src/stores/photoStore.ts:74-86 | The same as `Keep`, with `discardIds`. |
| Store.PhotoStore.Undo | src/stores/photoStore.ts:88-111 | The new state is `UndoStep(old)`: nothing changes on an empty history. Otherwise the last entry is popped, its id is filtered out of the matching list, and the cursor moves back one. |
| Store.PhotoStore.Reset | src/stores/photoStore.ts:113-124 | Back to the initial state, with no destination and no copies. |
| Store.PhotoStore.SetDestinationFolder | src/stores/photoStore.ts:126 | Only the destination changes. |
| Store.PhotoStore.SetCopiedFileId | src/stores/photoStore.ts:128-131 | Only the mapping for the source id changes. |
| Store.PhotoStore.RemoveCopiedFileId | src/stores/photoStore.ts:133-138 | Only the source id's key is removed from the mapping. |
| Store.PhotoStore.ValidateDestinationFolder | src/stores/photoStore.ts:140-152 | Queries `getFolder` with the destination's id exactly when one is set. The destination is cleared exactly when the server reports the folder missing. An error keeps it. |
| Store.SetPhotosKeepsDestinationAndCopies | src/stores/photoStore.ts:50-58 | Loading photos clears the decisions and the history, and keeps the destination and the copy mapping. |
| Store.DecideEffect | src/stores/photoStore.ts:60-86 | A decision changes nothing without a current photo. Otherwise it appends the photo's id to the matching list and to the history and advances the cursor by one. It never touches the other list, the photos, the destination or the copies. |
| Store.WithoutAbsent | src/stores/photoStore.ts:96-110 | Filtering out an id that is not in the list leaves the list unchanged. |
| Store.WithoutRemovesAll | src/stores/photoStore.ts:96-110 | After the filter the id is gone, and an id is left exactly when it was in the list and differs from the filtered one. |
| Store.WithoutDistributes | src/stores/photoStore.ts:96-110 | Filtering a concatenation is concatenating the filtered parts, so the survivors keep their order. |
| Store.WithoutCounts | src/stores/photoStore.ts:96-110 | As multisets, the filter removes every copy of the id and nothing else. |
| Store.UndoAfterDecide | src/stores/photoStore.ts:60-111 | Undo right after a decision restores the whole session, provided the photo's id was not already in the list it went into. |
| Store.UndoEffect | src/stores/photoStore.ts:88-111 | Undo is a no-op on an empty history. Otherwise it pops one entry and moves the cursor back one. Undoing a keep filters the id out of `keepIds` and leaves `discardIds` alone, and undoing a discard does the reverse. It never touches the copies, the destination or the photos. |
| Store.SetCopiedOnlyTouchesKey | src/stores/photoStore.ts:128-131 | The keys grow by the source id, which maps to the copy id. Every other entry and every other field is unchanged. |
| Store.RemoveCopiedOnlyTouchesKey | src/stores/photoStore.ts:133-138 | The keys lose the source id. The remaining entries and every other field are unchanged. |
| Store.ValidateClearsOnlyMissingFolder | src/stores/photoStore.ts:140-152 | Only the destination can change. It becomes unset exactly when it was unset already, or the reply is a 404, or the reply is a 2xx for a trashed folder. On an error the session is unchanged. |
| Store.IdsOfCount | src/stores/photoStore.ts:60-86 | The keep and discard entries of a history add up to its length. |
| Store.IdsOfDisjoint | src/stores/photoStore.ts:60-86 | In a history with distinct ids, no id is both kept and discarded. |
| Store.CurrentUndecided | src/stores/photoStore.ts:60-86 | With distinct ids, the current photo of a tracked session is in neither list. |
| Store.DecidePreservesTracks | src/stores/photoStore.ts:60-86 | A decision keeps the history aligned with the photos from the start index, and the lists equal the history's keep and discard entries. |
| Store.UndoPreservesTracks | src/stores/photoStore.ts:88-111 | With distinct ids, undo keeps that alignment as well. |
| Store.RunPreservesTracks | src/stores/photoStore.ts:60-111 | Any sequence of keep, discard and undo keeps the alignment. It leaves the photos, the destination and the copies unchanged. |
| Store.DecisionsTrackHistory | src/stores/photoStore.ts:50-111 | After `setPhotos` with distinct ids and any sequence of keep, discard and undo: `|history| == |keepIds| + |discardIds| == currentIndex - startIndex`. No id is both kept and discarded, and the destination and copies are as before. |
| Store.UndosUnwindDecisions | src/stores/photoStore.ts:60-111 | n decisions on existing photos followed by n undos give back the starting session exactly (last in, first out). |
| SwipePage.HasCopy | src/components/SwipePage.tsx:68 | Defines the duplicate check: the photo has a recorded copy id that is not empty. |
| SwipePage.UndoEnabled | src/components/SwipePage.tsx:286 | Defines when the undo button is enabled: the history is non-empty and no call is in flight. |
| SwipePage.Coordinator.constructor | src/components/SwipePage.tsx:53-54 | Starts not saving, with nothing pending, no notice and no calls. |
| SwipePage.Coordinator.HandleKeep | src/components/SwipePage.tsx:60-74 | Ignored without a current photo, without a token or while saving. Without a destination it keeps at once. With a destination and an existing copy it keeps with an `info` notice and makes no call. Otherwise it issues exactly one copy call for the current photo into the destination, raises `isSaving` and does not keep yet. When it keeps at once, the store ends in `KeepOutcome` of its old state with no copy outcome. |
| SwipePage.Coordinator.CompleteKeep | src/components/SwipePage.tsx:74-89 | A successful copy records the mapping and then keeps, with a `success` notice. A failed copy keeps without a mapping, with an `error` notice. The flag is cleared either way. The store ends in `KeepOutcome` of its old state with this outcome. |
| SwipePage.Coordinator.HandleDiscard | src/components/SwipePage.tsx:93-105 | Ignored without a current photo, without a token or while saving. A photo with a copy, when a destination is set, leads to exactly one delete call for that copy. Otherwise it discards at once. |
| SwipePage.Coordinator.CompleteDiscard | src/components/SwipePage.tsx:105-120 | A successful delete drops the mapping and then discards, with an `info` notice. A failed delete keeps the mapping and still discards, with an `error` notice. The flag is cleared either way. |
| SwipePage.Coordinator.Undo | src/components/SwipePage.tsx:123-130 | The store's undo runs only when the history is non-empty and no call is in flight, the condition that also disables the undo button at line 286. Otherwise the store is unchanged. |
| SwipePage.Coordinator.ChooseDestination | src/components/SwipePage.tsx:319-320 | Only the destination folder changes. |
| SwipePage.KeepOutcome | src/components/SwipePage.tsx:60-90 | Defines the store's state once a keep is handled to the end: the mapping is recorded first only on a successful copy, and the keep is committed in every case. `HandleKeep` and `CompleteKeep` end in this state. |
| SwipePage.KeepAlwaysCommits | src/components/SwipePage.tsx:60-90 | Whatever the copy outcome, a handled keep advances the cursor once and appends the photo to `keepIds` and the history. The mapping changes only on a successful copy, and only for that photo. |
| SwipePage.RekeepAfterUndoFindsCopy | src/components/SwipePage.tsx:66-70 | Keep with a successful copy whose id is non-empty (Drive always returns one), then undo: the same photo is current again and has a copy, so a second keep makes no copy call. |
| SwipePage.CopyThenUndoRun | src/components/SwipePage.tsx:60-90 | Keep photo A with a destination set and a successful copy, then undo: exactly one copy call is made, of A into the destination. A is current again and no longer kept, and its copy stays recorded. |
| SwipePage.DiscardCopiedRun | src/components/SwipePage.tsx:93-121 | Discarding a photo whose copy is recorded issues one delete call for that copy. Afterwards the photo is discarded and the mapping is empty. |
| SwipePage.DoubleKeepRun | src/components/SwipePage.tsx:60-90 | A second keep while the first copy is in flight issues no call. After a failed copy exactly one keep is recorded. |
| FolderSelection.IsImageMimeType | src/services/folderSelection.ts:15 | Defines `mimeType.startsWith('image/')`: the type is at least as long as `image/` and begins with it. |
| FolderSelection.FindIndex | src/services/folderSelection.ts:18 | The result is the first index whose image has the id, or -1 exactly when no image has it. |
| FolderSelection.ResolveSelection | src/services/folderSelection.ts:15-29 | A non-image resolves to itself as a folder at index 0 with no images. For an image, a failing parent lookup or listing fails the result. Otherwise it resolves to the parent folder and its images, starting at the first image with the selected id, or at 0 when there is none. The start index is never negative. |
| FolderSelection.ResolvedImageBecomesCurrentPhoto | src/services/folderSelection.ts:15-23 | Loading a resolved image selection into the store makes the picked image the current photo, with an empty history. |
| DestinationPicker.IntoFolder | src/components/DestinationFolderPicker.tsx:63-66 | Exactly one crumb is appended for the folder, and earlier crumbs are unchanged. The folder becomes current and the section flag is kept. |
| DestinationPicker.IntoShared | src/components/DestinationFolderPicker.tsx:68-72 | The trail is the shared crumb alone, the flag is set and `__shared__` is current. |
| DestinationPicker.ToCrumb | src/components/DestinationFolderPicker.tsx:74-88 | The root crumb resets to the initial view. Any other crumb cuts the trail after it and makes its id current. |
| DestinationPicker.ToRoot | src/components/DestinationFolderPicker.tsx:142-146 | The "My Drive" button gives back the initial view. |
| DestinationPicker.NavigationKeepsWellFormed | src/components/DestinationFolderPicker.tsx:63-88 | Every navigation keeps the trail non-empty and starting at the right crumb. Only the first crumb may lack an id, and the current id is the last crumb's. |
| DestinationPicker.NavigationsKeepWellFormed | src/components/DestinationFolderPicker.tsx:63-88 | The same holds after any sequence of navigations. |
| DestinationPicker.BackToParentCrumb | src/components/DestinationFolderPicker.tsx:63-88 | Entering a folder and then clicking the crumb before it returns to the previous view. |
| DestinationPicker.CurrentCrumbIsNoOp | src/components/DestinationFolderPicker.tsx:74-88 | Clicking the last crumb leaves the view unchanged. |
| DestinationPicker.CurrentFolder | src/components/DestinationFolderPicker.tsx:90-96 | The last crumb is returned as a folder exactly when its id is present, non-empty and not `__shared__`. |
| DestinationPicker.IsAtRoot | src/components/DestinationFolderPicker.tsx:122 | Defines `isAtRoot`: no current id and not in the shared section. |
| DestinationPicker.CanSelectCurrent | src/components/DestinationFolderPicker.tsx:123 | Defines `canSelectCurrent`: a current id that is not `__shared__`. |
| DestinationPicker.AtRootExactlyWhenOnlyRootCrumb | src/components/DestinationFolderPicker.tsx:122 | In a well-formed view, `isAtRoot` holds exactly when the trail is the root crumb alone. |
| DestinationPicker.SelectableExactlyWhenCurrentFolder | src/components/DestinationFolderPicker.tsx:90-123 | When the current id is not empty, `canSelectCurrent` holds exactly when `getCurrentFolder` returns a folder, and that folder is the current one. |
| DestinationPicker.RootAndSharedTopNotSelectable | src/components/DestinationFolderPicker.tsx:122-123 | With a single crumb, the root or the shared section, nothing can be selected. |
| DestinationPicker.ListingFor | src/components/DestinationFolderPicker.tsx:32-52 | Without an access token nothing is loaded. Otherwise the shared listing is loaded exactly at the top of the shared section, and else the folders under the current id, or the root's when there is no id. |
| DestinationPicker.RootListsMyDrive | src/components/DestinationFolderPicker.tsx:46-50 | Signed in at root, the picker lists the folders of Drive's `root`. |
| DestinationPicker.IsTrimmed | src/components/DestinationFolderPicker.tsx:106 | Defines the characters `.trim()` removes: the white space and line terminator characters of ECMAScript. |
| DestinationPicker.TrimStart | src/components/DestinationFolderPicker.tsx:106 | Drops a leading run of white space, and the result does not start with white space. |
| DestinationPicker.TrimEnd | src/components/DestinationFolderPicker.tsx:106 | Drops a trailing run of white space, and the result does not end with white space. |
| DestinationPicker.Trim | src/components/DestinationFolderPicker.tsx:106 | The trimmed name is no longer than the name and neither starts nor ends with white space. |
| DestinationPicker.TrimCutsOnlyWhiteSpace | src/components/DestinationFolderPicker.tsx:106 | The trimmed name is a contiguous part of the name, and everything cut off before and after it is white space. |
| DestinationPicker.TrimEmptyExactlyWhenBlank | src/components/DestinationFolderPicker.tsx:106 | The trimmed name is empty exactly when the name is all white space. |
| DestinationPicker.CreateFolderRequest | src/components/DestinationFolderPicker.tsx:105-113 | No request is made exactly when there is no token or the name is blank. Otherwise the trimmed name is sent. There is no parent exactly when the current id is absent, empty or `__shared__`; otherwise the parent is the current id. |
| DestinationPicker.CreatedWhereSelectable | src/components/DestinationFolderPicker.tsx:110-113 | In a well-formed view, the new folder is created inside `getCurrentFolder`'s folder, or in `root` when there is none. |
| DestinationPicker.Picker.constructor | src/components/DestinationFolderPicker.tsx:23-27 | Starts at the initial view: the root crumb, no current id, not in the shared section. |
| DestinationPicker.Picker.NavigateToFolder | src/components/DestinationFolderPicker.tsx:63-66 | The fields become `IntoFolder` of the old view, and the view stays well formed. |
| DestinationPicker.Picker.NavigateToShared | src/components/DestinationFolderPicker.tsx:68-72 | The fields become `IntoShared` of the old view, and the view stays well formed. |
| DestinationPicker.Picker.NavigateToBreadcrumb | src/components/DestinationFolderPicker.tsx:74-88 | The fields become `ToCrumb` of the old view, and the view stays well formed. |
| DestinationPicker.Picker.GoToRoot | src/components/DestinationFolderPicker.tsx:142-146 | The fields become the initial view. |

## Left out

- HTTP itself is not modelled: URLs, query strings, headers and `response.json()` parsing. A reply is a status plus a parsed body, or a network failure. A body that cannot be parsed is not modelled.
- Error messages, `console.error` and toast texts and timers are left out. Only the kind of notice is modelled.
- React rendering, effects, closures over stale state and the `persist` middleware (storage in `localStorage`) are left out.
- `usePhotoLoader`, `getFileParent`, `listImages` as a separate call, and `listSharedDriveFolders` are not part of this model. `getFileParent` and `listAllImages` enter `resolveSelection` only through their outcomes.
- `DriveApi.ListAll` (and its wrappers) require that some reply in the script ends the loop, that is, that the server eventually stops sending next tokens. A server that never does so would keep the source looping forever.
- `Store.PhotoStore.ValidateDestinationFolder` is one atomic step. A `setDestinationFolder` that runs while `getFolder` is awaited is not modelled.
- `Store.DecisionsTrackHistory` and `Store.UndosUnwindDecisions` assume distinct photo ids. With repeated ids, `undo` filters out every occurrence, and the counts no longer match the history.
- `SwipePage.RekeepAfterUndoFindsCopy` requires the copy's id to be non-empty. With an empty id the recorded mapping is falsy, and the source would copy the photo again. Drive never returns an empty id.
- `DestinationPicker.SelectableExactlyWhenCurrentFolder` excludes an empty current id. For a folder with an empty id, `canSelectCurrent` holds but `getCurrentFolder` returns nothing. Drive never hands out empty ids.
- `DestinationPicker.Picker.NavigateToBreadcrumb` requires an index within the trail. The page only offers existing crumbs, and a larger index would make the source fail on an undefined crumb.
- The keyboard shortcuts' `disabled` flag (`isComplete || loading || isSaving`) is only modelled as far as it gates undo. Keep and discard do their own checks.
- `CompleteKeep` and `CompleteDiscard` model only the awaited call's outcome. A JavaScript exception thrown inside the store's own updates is not modelled.
