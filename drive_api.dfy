/**
 * The decisions the Google Drive client makes on what the server answers:
 * which status means "gone", success or failure, and how the listing
 * functions concatenate pages until `nextPageToken` runs out.
 * HTTP itself (URLs, query strings, headers, JSON parsing) is not modelled:
 * a reply is a status and an already parsed body, or a network failure.
 */
module DriveApi {

  datatype Option<T> = None | Some(value: T)

  datatype DriveError =
    | HttpError(status: int)   // the response was not 2xx
    | NetworkError             // fetch itself rejected
    | MalformedBody            // `data.files` missing, so `.map` throws

  datatype Result<T> = Ok(value: T) | Err(error: DriveError)

  /** What `fetch` resolves to (status and parsed body) or that it rejected. */
  datatype Reply<B> = Response(status: int, body: B) | NetworkFailure

  datatype DriveFolder = DriveFolder(id: string, name: string)

  /** A shared drive has the same two fields as a folder. */
  type SharedDrive = DriveFolder

  datatype DriveImage = DriveImage(
    id: string,
    name: string,
    thumbnailLink: Option<string>,
    webContentLink: Option<string>)

  datatype CopyFileResult = CopyFileResult(id: string, name: string)

  /** The body `getFolder` asks for: `fields=id,name,trashed`. */
  datatype FolderBody = FolderBody(id: string, name: string, trashed: bool)

  /** The body of one listing page: the items and the token of the next page. */
  datatype PageBody<T> = PageBody(files: Option<seq<T>>, nextPageToken: Option<string>)

  const NotFound: int := 404
  const RootId: string := "root"

  /** `response.ok`: the status is in the 2xx range. */
  predicate IsOk(status: int) {
    200 <= status <= 299
  }

  // ---------------------------------------------------------------------------
  // Single-call status handling
  // ---------------------------------------------------------------------------

  /**
   * `getFolder`: 404 and a trashed folder both mean "no such folder" (None);
   * any other non-2xx status and a network failure are errors.
   */
  function GetFolder(reply: Reply<FolderBody>): (r: Result<Option<DriveFolder>>)
    ensures r == Ok(None) <==>
              reply.Response? && (reply.status == NotFound || (IsOk(reply.status) && reply.body.trashed))
    ensures r.Err? <==> reply.NetworkFailure? || (reply.status != NotFound && !IsOk(reply.status))
    ensures r.Err? && reply.Response? ==> r.error == HttpError(reply.status)
    ensures r.Ok? && r.value.Some? ==>
              reply.Response? && IsOk(reply.status) && !reply.body.trashed &&
              r.value.value == DriveFolder(reply.body.id, reply.body.name)
  {
    match reply
    case NetworkFailure => Err(NetworkError)
    case Response(status, body) =>
      if status == NotFound then Ok(None)
      else if !IsOk(status) then Err(HttpError(status))
      else if body.trashed then Ok(None)
      else Ok(Some(DriveFolder(body.id, body.name)))
  }

  /** `deleteFile`: a file that is already gone (404) counts as deleted. */
  function DeleteFile(reply: Reply<()>): (r: Result<()>)
    ensures r.Ok? <==> reply.Response? && (reply.status == NotFound || IsOk(reply.status))
    ensures r.Err? && reply.Response? ==> r.error == HttpError(reply.status)
  {
    match reply
    case NetworkFailure => Err(NetworkError)
    case Response(status, _) =>
      if status == NotFound then Ok(())
      else if !IsOk(status) then Err(HttpError(status))
      else Ok(())
  }

  /** `copyFile`: every non-2xx status, 404 included, is an error. */
  function CopyFile(reply: Reply<DriveFolder>): (r: Result<CopyFileResult>)
    ensures r.Ok? <==> reply.Response? && IsOk(reply.status)
    ensures r.Ok? ==> r.value == CopyFileResult(reply.body.id, reply.body.name)
    ensures r.Err? && reply.Response? ==> r.error == HttpError(reply.status)
  {
    match reply
    case NetworkFailure => Err(NetworkError)
    case Response(status, body) =>
      if !IsOk(status) then Err(HttpError(status))
      else Ok(CopyFileResult(body.id, body.name))
  }

  /**
   * The `parents` list `createFolder` sends: `parentFolderId ?? 'root'`, so only
   * an absent parent falls back to the root (an empty string is sent as is).
   */
  function CreateFolderParents(parentFolderId: Option<string>): (parents: seq<string>)
    ensures |parents| == 1
    ensures parentFolderId.None? ==> parents[0] == RootId
    ensures parentFolderId.Some? ==> parents[0] == parentFolderId.value
  {
    match parentFolderId
    case None => [RootId]
    case Some(p) => [p]
  }

  /** `createFolder`: every non-2xx status is an error; on success the new folder. */
  function CreateFolder(reply: Reply<DriveFolder>): (r: Result<DriveFolder>)
    ensures r.Ok? <==> reply.Response? && IsOk(reply.status)
    ensures r.Ok? ==> r.value == reply.body
    ensures r.Err? && reply.Response? ==> r.error == HttpError(reply.status)
  {
    match reply
    case NetworkFailure => Err(NetworkError)
    case Response(status, body) =>
      if !IsOk(status) then Err(HttpError(status))
      else Ok(DriveFolder(body.id, body.name))
  }

  /**
   * The parent `listFolders` puts in its query: `parentId ? parentId : 'root'`,
   * so both an absent and an empty parent id list the root.
   */
  function ListFoldersParent(parentId: Option<string>): (parent: string)
    ensures parent == RootId <==> parentId.None? || parentId.value == "" || parentId.value == RootId
    ensures parentId.Some? && parentId.value != "" ==> parent == parentId.value
  {
    if parentId.Some? && parentId.value != "" then parentId.value else RootId
  }

  // ---------------------------------------------------------------------------
  // Page accumulation
  // ---------------------------------------------------------------------------

  /**
   * The items one page contributes, or the error that aborts the listing.
   * `missingIsEmpty` is `listSharedDrives`' `data.drives || []`; the other
   * listings call `data.files.map`, which throws on a missing list.
   */
  function PageItems<T>(page: Reply<PageBody<T>>, missingIsEmpty: bool): Result<seq<T>>
  {
    match page
    case NetworkFailure => Err(NetworkError)
    case Response(status, body) =>
      if !IsOk(status) then Err(HttpError(status))
      else if body.files.Some? then Ok(body.files.value)
      else if missingIsEmpty then Ok([])
      else Err(MalformedBody)
  }

  /** `while (pageToken)`: an absent or empty token ends the loop. */
  predicate HasMore<T>(page: Reply<PageBody<T>>) {
    page.Response? && page.body.nextPageToken.Some? && page.body.nextPageToken.value != ""
  }

  /** A page after which no further request is made. */
  predicate Ends<T>(page: Reply<PageBody<T>>, missingIsEmpty: bool) {
    PageItems(page, missingIsEmpty).Err? || !HasMore(page)
  }

  /**
   * The outcome of a listing whose successive requests are answered by
   * `pages`: the items of every page in page order, up to and including the
   * first page without a next token, or the first error met on the way.
   */
  function Collect<T>(pages: seq<Reply<PageBody<T>>>, missingIsEmpty: bool): Result<seq<T>>
    decreases |pages|
  {
    if pages == [] then Ok([])
    else
      match PageItems(pages[0], missingIsEmpty)
      case Err(e) => Err(e)
      case Ok(items) =>
        if !HasMore(pages[0]) then Ok(items)
        else
          match Collect(pages[1..], missingIsEmpty)
          case Err(e) => Err(e)
          case Ok(rest) => Ok(items + rest)
  }

  /** Prefixes already accumulated items to the outcome of the remaining pages. */
  function Prepend<T>(acc: seq<T>, r: Result<seq<T>>): Result<seq<T>> {
    match r
    case Err(e) => Err(e)
    case Ok(rest) => Ok(acc + rest)
  }

  lemma PrependAssociates<T>(a: seq<T>, b: seq<T>, r: Result<seq<T>>)
    ensures Prepend(a, Prepend(b, r)) == Prepend(a + b, r)
  {
    if r.Ok? {
      assert a + (b + r.value) == (a + b) + r.value;
    }
  }

  lemma PrependNothing<T>(r: Result<seq<T>>)
    ensures Prepend([], r) == r
  {
    if r.Ok? {
      assert [] + r.value == r.value;
    }
  }

  /** The items of every page, concatenated in order. */
  function Concat<T>(pages: seq<Reply<PageBody<T>>>, missingIsEmpty: bool): seq<T>
    requires forall j :: 0 <= j < |pages| ==> PageItems(pages[j], missingIsEmpty).Ok?
  {
    if pages == [] then []
    else PageItems(pages[0], missingIsEmpty).value + Concat(pages[1..], missingIsEmpty)
  }

  /**
   * A listing that only meets successful pages returns exactly their items,
   * concatenated in page order, ending with the first page without a token.
   */
  lemma {:induction false} CollectConcatenatesPages<T>(pages: seq<Reply<PageBody<T>>>, missingIsEmpty: bool, last: nat)
    requires last < |pages|
    requires forall j :: 0 <= j <= last ==> PageItems(pages[j], missingIsEmpty).Ok?
    requires forall j :: 0 <= j < last ==> HasMore(pages[j])
    requires !HasMore(pages[last])
    ensures Collect(pages, missingIsEmpty) == Ok(Concat(pages[..last + 1], missingIsEmpty))
  {
    var head := PageItems(pages[0], missingIsEmpty).value;
    if last == 0 {
      assert pages[..1][0] == pages[0] && pages[..1][1..] == [];
      assert Concat(pages[..1], missingIsEmpty) == head + [] == head;
      assert Collect(pages, missingIsEmpty) == Ok(head);
    } else {
      var tail := pages[1..];
      forall j | 0 <= j <= last - 1 ensures PageItems(tail[j], missingIsEmpty).Ok? {
        assert tail[j] == pages[j + 1];
      }
      forall j | 0 <= j < last - 1 ensures HasMore(tail[j]) {
        assert tail[j] == pages[j + 1];
      }
      CollectConcatenatesPages(tail, missingIsEmpty, last - 1);
      assert pages[..last + 1][1..] == tail[..last];
    }
  }

  /** The first failing page aborts the listing with its own error. */
  lemma {:induction false} CollectStopsAtFirstError<T>(pages: seq<Reply<PageBody<T>>>, missingIsEmpty: bool, bad: nat)
    requires bad < |pages|
    requires forall j :: 0 <= j < bad ==> PageItems(pages[j], missingIsEmpty).Ok? && HasMore(pages[j])
    requires PageItems(pages[bad], missingIsEmpty).Err?
    ensures Collect(pages, missingIsEmpty) == Err(PageItems(pages[bad], missingIsEmpty).error)
  {
    if bad > 0 {
      var tail := pages[1..];
      forall j | 0 <= j < bad - 1
        ensures PageItems(tail[j], missingIsEmpty).Ok? && HasMore(tail[j])
      {
        assert tail[j] == pages[j + 1];
      }
      CollectStopsAtFirstError(tail, missingIsEmpty, bad - 1);
    }
  }

  /** One step of `Collect`: how the listing from page `i` on starts. */
  lemma CollectFrom<T>(pages: seq<Reply<PageBody<T>>>, missingIsEmpty: bool, i: nat)
    requires i < |pages|
    ensures var items := PageItems(pages[i], missingIsEmpty);
      Collect(pages[i..], missingIsEmpty) ==
        if items.Err? then Err(items.error)
        else if !HasMore(pages[i]) then items
        else Prepend(items.value, Collect(pages[i + 1..], missingIsEmpty))
  {
  }

  /**
   * The `do … while (pageToken)` loop shared by the listing functions.
   * `pages[i]` is the server's answer to the i-th request; the ghost `sent`
   * records the page token each request carried.
   */
  method ListAll<T>(pages: seq<Reply<PageBody<T>>>, missingIsEmpty: bool)
    returns (r: Result<seq<T>>, ghost sent: seq<Option<string>>)
    requires exists k :: 0 <= k < |pages| && Ends(pages[k], missingIsEmpty)
    ensures r == Collect(pages, missingIsEmpty)
    ensures 1 <= |sent| <= |pages| && sent[0] == None
    ensures forall j :: 0 < j < |sent| ==> HasMore(pages[j - 1]) && sent[j] == pages[j - 1].body.nextPageToken
    ensures forall j :: 0 <= j < |sent| - 1 ==> !Ends(pages[j], missingIsEmpty)
    ensures Ends(pages[|sent| - 1], missingIsEmpty)
  {
    ghost var stop :| 0 <= stop < |pages| && Ends(pages[stop], missingIsEmpty);
    var acc: seq<T> := [];
    var pageToken: Option<string> := None;
    var i := 0;
    sent := [];
    assert pages[0..] == pages;
    PrependNothing(Collect(pages, missingIsEmpty));
    while true
      invariant 0 <= i <= stop
      invariant |sent| == i
      invariant forall j :: 0 <= j < i ==> !Ends(pages[j], missingIsEmpty)
      invariant i == 0 ==> pageToken == None
      invariant i > 0 ==> pageToken == pages[i - 1].body.nextPageToken
      invariant forall j :: 0 < j < i ==> HasMore(pages[j - 1]) && sent[j] == pages[j - 1].body.nextPageToken
      invariant i > 0 ==> sent[0] == None
      invariant Collect(pages, missingIsEmpty) == Prepend(acc, Collect(pages[i..], missingIsEmpty))
      decreases stop - i
    {
      sent := sent + [pageToken];
      var page := pages[i];
      CollectFrom(pages, missingIsEmpty, i);
      var items := PageItems(page, missingIsEmpty);
      if items.Err? {
        r := Err(items.error);
        return;
      }
      ghost var before := acc;
      acc := acc + items.value;
      if !HasMore(page) {
        r := Ok(acc);
        return;
      }
      PrependAssociates(before, items.value, Collect(pages[i + 1..], missingIsEmpty));
      pageToken := page.body.nextPageToken;
      i := i + 1;
    }
  }

  /** `listFolders`: the folders under `parentId` (the root when absent or empty). */
  method ListFolders(parentId: Option<string>, pages: seq<Reply<PageBody<DriveFolder>>>)
    returns (queriedParent: string, r: Result<seq<DriveFolder>>, ghost sent: seq<Option<string>>)
    requires exists k :: 0 <= k < |pages| && Ends(pages[k], false)
    ensures queriedParent == ListFoldersParent(parentId)
    ensures r == Collect(pages, false)
    ensures 1 <= |sent| <= |pages| && Ends(pages[|sent| - 1], false)
    ensures forall j :: 0 <= j < |sent| - 1 ==> !Ends(pages[j], false)
    ensures sent[0] == None
    ensures forall j :: 0 < j < |sent| ==> HasMore(pages[j - 1]) && sent[j] == pages[j - 1].body.nextPageToken
  {
    queriedParent := ListFoldersParent(parentId);
    r, sent := ListAll(pages, false);
  }

  /** `listSharedFolders`: the folders shared with the user. */
  method ListSharedFolders(pages: seq<Reply<PageBody<DriveFolder>>>)
    returns (r: Result<seq<DriveFolder>>, ghost sent: seq<Option<string>>)
    requires exists k :: 0 <= k < |pages| && Ends(pages[k], false)
    ensures r == Collect(pages, false)
    ensures 1 <= |sent| <= |pages| && Ends(pages[|sent| - 1], false)
    ensures forall j :: 0 <= j < |sent| - 1 ==> !Ends(pages[j], false)
    ensures sent[0] == None
    ensures forall j :: 0 < j < |sent| ==> HasMore(pages[j - 1]) && sent[j] == pages[j - 1].body.nextPageToken
  {
    r, sent := ListAll(pages, false);
  }

  /** `listSharedDrives`: a page without a `drives` list contributes nothing. */
  method ListSharedDrives(pages: seq<Reply<PageBody<SharedDrive>>>)
    returns (r: Result<seq<SharedDrive>>, ghost sent: seq<Option<string>>)
    requires exists k :: 0 <= k < |pages| && Ends(pages[k], true)
    ensures r == Collect(pages, true)
    ensures 1 <= |sent| <= |pages| && Ends(pages[|sent| - 1], true)
    ensures forall j :: 0 <= j < |sent| - 1 ==> !Ends(pages[j], true)
    ensures sent[0] == None
    ensures forall j :: 0 < j < |sent| ==> HasMore(pages[j - 1]) && sent[j] == pages[j - 1].body.nextPageToken
  {
    r, sent := ListAll(pages, true);
  }

  /** `listAllImages`: one `listImages` call per page, images in page order. */
  method ListAllImages(pages: seq<Reply<PageBody<DriveImage>>>)
    returns (r: Result<seq<DriveImage>>, ghost sent: seq<Option<string>>)
    requires exists k :: 0 <= k < |pages| && Ends(pages[k], false)
    ensures r == Collect(pages, false)
    ensures 1 <= |sent| <= |pages| && Ends(pages[|sent| - 1], false)
    ensures forall j :: 0 <= j < |sent| - 1 ==> !Ends(pages[j], false)
    ensures sent[0] == None
    ensures forall j :: 0 < j < |sent| ==> HasMore(pages[j - 1]) && sent[j] == pages[j - 1].body.nextPageToken
  {
    r, sent := ListAll(pages, false);
  }
}
