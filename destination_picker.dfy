/**
 * The destination-folder picker: a breadcrumb trail through My Drive or the
 * "Shared with me" section, the folder it would select, and the request it
 * builds to create a new folder where the user stands.
 *
 * The three pieces of state the picker keeps (`breadcrumbs`,
 * `currentFolderId`, `isInSharedSection`) are fields of `Picker`; each
 * navigation is a method proved against a step function on `View`, the
 * value those fields hold together.
 */
module DestinationPicker {
  import opened DriveApi

  /** Pseudo folder id standing for the "Shared with me" section. */
  const SharedWithMeId: string := "__shared__"

  /** A breadcrumb; `id == None` only for My Drive's root crumb. */
  datatype Breadcrumb = Breadcrumb(id: Option<string>, name: string, isShared: bool)

  const RootCrumb := Breadcrumb(None, "My Drive", false)
  const SharedCrumb := Breadcrumb(Some(SharedWithMeId), "Shared with me", true)

  datatype View = View(breadcrumbs: seq<Breadcrumb>, currentFolderId: Option<string>, isInSharedSection: bool)

  const InitialView := View([RootCrumb], None, false)

  /**
   * What every reachable view satisfies: the trail is non-empty, starts at
   * the root crumb (or the shared crumb inside the shared section), only the
   * first crumb may lack an id, and the current folder is the last crumb's.
   */
  predicate WellFormed(v: View) {
    && |v.breadcrumbs| > 0
    && v.breadcrumbs[0] == (if v.isInSharedSection then SharedCrumb else RootCrumb)
    && (forall k :: 0 < k < |v.breadcrumbs| ==> v.breadcrumbs[k].id.Some?)
    && v.currentFolderId == v.breadcrumbs[|v.breadcrumbs| - 1].id
  }

  // ---------------------------------------------------------------------
  // Navigation steps
  // ---------------------------------------------------------------------

  /** `navigateToFolder`: one crumb pushed for the folder, which becomes current. */
  function IntoFolder(v: View, folder: DriveFolder): (w: View)
    ensures |w.breadcrumbs| == |v.breadcrumbs| + 1
    ensures w.breadcrumbs[..|v.breadcrumbs|] == v.breadcrumbs
    ensures w.breadcrumbs[|v.breadcrumbs|] == Breadcrumb(Some(folder.id), folder.name, false)
    ensures w.currentFolderId == Some(folder.id) && w.isInSharedSection == v.isInSharedSection
  {
    View(v.breadcrumbs + [Breadcrumb(Some(folder.id), folder.name, false)], Some(folder.id), v.isInSharedSection)
  }

  /** `navigateToShared`: the shared section, with the shared crumb alone. */
  function IntoShared(v: View): (w: View)
    ensures w.breadcrumbs == [SharedCrumb] && w.isInSharedSection
    ensures w.currentFolderId == Some(SharedWithMeId)
  {
    View([SharedCrumb], Some(SharedWithMeId), true)
  }

  /**
   * `navigateToBreadcrumb`: the root crumb resets to the initial view; any
   * other crumb cuts the trail after it and makes its id current, leaving
   * the section flag as it was.
   */
  function ToCrumb(v: View, index: nat): (w: View)
    requires index < |v.breadcrumbs|
    ensures v.breadcrumbs[index].id.None? ==> w == InitialView
    ensures v.breadcrumbs[index].id.Some? ==>
              w.breadcrumbs == v.breadcrumbs[..index + 1] &&
              w.currentFolderId == v.breadcrumbs[index].id &&
              w.isInSharedSection == v.isInSharedSection
  {
    var item := v.breadcrumbs[index];
    if item.id.None? then InitialView
    else if item.id.value == SharedWithMeId then View(v.breadcrumbs[..index + 1], Some(SharedWithMeId), v.isInSharedSection)
    else View(v.breadcrumbs[..index + 1], item.id, v.isInSharedSection)
  }

  /** The "My Drive" button: back to the initial view from anywhere. */
  function ToRoot(v: View): (w: View)
    ensures w == InitialView
  {
    InitialView
  }

  datatype Navigation = Folder(folder: DriveFolder) | Shared | Crumb(index: nat) | Root

  /** A navigation the page can offer: a crumb index must name a shown crumb. */
  predicate Enabled(v: View, n: Navigation) {
    n.Crumb? ==> n.index < |v.breadcrumbs|
  }

  function Navigate(v: View, n: Navigation): View
    requires Enabled(v, n)
  {
    match n
    case Folder(f) => IntoFolder(v, f)
    case Shared => IntoShared(v)
    case Crumb(i) => ToCrumb(v, i)
    case Root => ToRoot(v)
  }

  /** Every enabled navigation keeps the view well formed. */
  lemma NavigationKeepsWellFormed(v: View, n: Navigation)
    requires WellFormed(v) && Enabled(v, n)
    ensures WellFormed(Navigate(v, n))
  {
  }

  /** Every navigation in the sequence is enabled where it is applied. */
  predicate AllEnabled(v: View, ns: seq<Navigation>)
    decreases |ns|
  {
    ns == [] || (Enabled(v, ns[0]) && AllEnabled(Navigate(v, ns[0]), ns[1..]))
  }

  function NavigateAll(v: View, ns: seq<Navigation>): View
    requires AllEnabled(v, ns)
    decreases |ns|
  {
    if ns == [] then v else NavigateAll(Navigate(v, ns[0]), ns[1..])
  }

  /**
   * From the initial view, any sequence of navigations ends in a well-formed
   * view: the trail is never empty and the current folder is the last crumb's.
   */
  lemma {:induction false} NavigationsKeepWellFormed(v: View, ns: seq<Navigation>)
    requires WellFormed(v) && AllEnabled(v, ns)
    ensures WellFormed(NavigateAll(v, ns))
    decreases |ns|
  {
    if ns != [] {
      NavigationKeepsWellFormed(v, ns[0]);
      NavigationsKeepWellFormed(Navigate(v, ns[0]), ns[1..]);
    }
  }

  lemma InitialViewWellFormed()
    ensures WellFormed(InitialView)
  {
  }

  /** Entering a folder and clicking the crumb before it returns to where the user was. */
  lemma BackToParentCrumb(v: View, folder: DriveFolder)
    requires WellFormed(v)
    ensures ToCrumb(IntoFolder(v, folder), |v.breadcrumbs| - 1) == v
  {
  }

  /** Clicking the last crumb leaves the view as it is. */
  lemma CurrentCrumbIsNoOp(v: View)
    requires WellFormed(v)
    ensures ToCrumb(v, |v.breadcrumbs| - 1) == v
  {
  }

  // ---------------------------------------------------------------------
  // What the view offers
  // ---------------------------------------------------------------------

  /** `getCurrentFolder`: the last crumb as a folder, unless it is root or the shared section. */
  function CurrentFolder(v: View): (r: Option<DriveFolder>)
    requires |v.breadcrumbs| > 0
    ensures var last := v.breadcrumbs[|v.breadcrumbs| - 1];
      (r.Some? <==> last.id.Some? && last.id.value != "" && last.id.value != SharedWithMeId) &&
      (r.Some? ==> r.value == DriveFolder(last.id.value, last.name))
  {
    var current := v.breadcrumbs[|v.breadcrumbs| - 1];
    if current.id.Some? && current.id.value != "" && current.id.value != SharedWithMeId then
      Some(DriveFolder(current.id.value, current.name))
    else None
  }

  predicate IsAtRoot(v: View) {
    v.currentFolderId.None? && !v.isInSharedSection
  }

  predicate CanSelectCurrent(v: View) {
    v.currentFolderId.Some? && v.currentFolderId.value != SharedWithMeId
  }

  /** In a well-formed view, being at root means the trail is the root crumb alone. */
  lemma AtRootExactlyWhenOnlyRootCrumb(v: View)
    requires WellFormed(v)
    ensures IsAtRoot(v) <==> v.breadcrumbs == [RootCrumb]
  {
  }

  /**
   * The "select this folder" button is enabled exactly when pressing it
   * selects a folder, as long as the current id is not empty.
   */
  lemma SelectableExactlyWhenCurrentFolder(v: View)
    requires WellFormed(v) && v.currentFolderId != Some("")
    ensures CanSelectCurrent(v) <==> CurrentFolder(v).Some?
    ensures CanSelectCurrent(v) ==> CurrentFolder(v).value.id == v.currentFolderId.value
  {
  }

  /** Neither the root nor the top of the shared section can be selected. */
  lemma RootAndSharedTopNotSelectable(v: View)
    requires WellFormed(v) && |v.breadcrumbs| == 1
    ensures !CanSelectCurrent(v) && CurrentFolder(v).None?
  {
  }

  /** Which listing the picker loads for a view: none without an access token. */
  datatype Listing = NoListing | SharedFolders | FoldersUnder(parentId: Option<string>)

  function ListingFor(v: View, accessToken: string): (l: Listing)
    ensures l.NoListing? <==> accessToken == ""
    ensures l.SharedFolders? <==>
              accessToken != "" && v.isInSharedSection && v.currentFolderId == Some(SharedWithMeId)
    ensures l.FoldersUnder? ==>
              (l.parentId.None? <==> v.currentFolderId.None? || v.currentFolderId == Some("")) &&
              (l.parentId.Some? ==> l.parentId == v.currentFolderId)
  {
    if accessToken == "" then NoListing
    else if v.isInSharedSection && v.currentFolderId == Some(SharedWithMeId) then SharedFolders
    else if v.currentFolderId.Some? && v.currentFolderId.value != "" then FoldersUnder(v.currentFolderId)
    else FoldersUnder(None)
  }

  /** Signed in at root, the picker lists the folders of Drive's root. */
  lemma RootListsMyDrive(v: View, accessToken: string)
    requires WellFormed(v) && IsAtRoot(v)
    ensures accessToken != "" ==> ListingFor(v, accessToken) == FoldersUnder(None)
    ensures accessToken != "" ==> ListFoldersParent(ListingFor(v, accessToken).parentId) == RootId
  {
  }

  // ---------------------------------------------------------------------
  // Creating a folder
  // ---------------------------------------------------------------------

  /** The characters `String.prototype.trim` removes (white space and line terminators). */
  predicate IsTrimmed(c: char) {
    c == '\t' || c == '\n' || c == '\U{000B}' || c == '\U{000C}' || c == '\r' || c == ' ' ||
    c == '\U{00A0}' || c == '\U{1680}' || ('\U{2000}' <= c <= '\U{200A}') ||
    c == '\U{2028}' || c == '\U{2029}' || c == '\U{202F}' || c == '\U{205F}' ||
    c == '\U{3000}' || c == '\U{FEFF}'
  }

  predicate Blank(s: string) {
    forall i :: 0 <= i < |s| ==> IsTrimmed(s[i])
  }

  /** `s.trimStart()`: drops the leading white space. */
  function TrimStart(s: string): (r: string)
    ensures |r| <= |s| && r == s[|s| - |r|..]
    ensures forall k :: 0 <= k < |s| - |r| ==> IsTrimmed(s[k])
    ensures r != [] ==> !IsTrimmed(r[0])
  {
    if s != [] && IsTrimmed(s[0]) then
      var r := TrimStart(s[1..]);
      assert s[1..][|s| - 1 - |r|..] == s[|s| - |r|..];
      r
    else
      s
  }

  /** `s.trimEnd()`: drops the trailing white space. */
  function TrimEnd(s: string): (r: string)
    ensures |r| <= |s| && r == s[..|r|]
    ensures forall k :: |r| <= k < |s| ==> IsTrimmed(s[k])
    ensures r != [] ==> !IsTrimmed(r[|r| - 1])
  {
    if s != [] && IsTrimmed(s[|s| - 1]) then
      var r := TrimEnd(s[..|s| - 1]);
      assert s[..|s| - 1][..|r|] == s[..|r|];
      r
    else
      s
  }

  /** `s.trim()`: the result neither starts nor ends with white space. */
  function Trim(s: string): (r: string)
    ensures |r| <= |s|
    ensures r != [] ==> !IsTrimmed(r[0]) && !IsTrimmed(r[|r| - 1])
  {
    var a := TrimStart(s);
    var r := TrimEnd(a);
    assert r != [] ==> r[0] == a[0];
    r
  }

  /**
   * The trimmed name is the middle of the name, starting at `i`: only white
   * space is cut off on either side.
   */
  lemma TrimCutsOnlyWhiteSpace(s: string) returns (i: nat)
    ensures i + |Trim(s)| <= |s| && Trim(s) == s[i..i + |Trim(s)|]
    ensures Blank(s[..i]) && Blank(s[i + |Trim(s)|..])
  {
    var a := TrimStart(s);
    var r := TrimEnd(a);
    assert Trim(s) == r;
    i := |s| - |a|;
    SliceOfSuffix(s, i, |r|);
    forall k | i + |r| <= k < |s|
      ensures IsTrimmed(s[k])
    {
      assert s[k] == a[k - i];
    }
  }

  lemma SliceOfSuffix(s: string, i: nat, k: nat)
    requires i + k <= |s|
    ensures s[i..][..k] == s[i..i + k] && s[i..][k..] == s[i + k..]
  {
  }

  /** The trimmed name is empty exactly when the name is all white space. */
  lemma TrimEmptyExactlyWhenBlank(s: string)
    ensures Trim(s) == "" <==> Blank(s)
  {
    var a := TrimStart(s);
    if Trim(s) == "" {
      forall k | |s| - |a| <= k < |s|
        ensures IsTrimmed(s[k])
      {
        assert s[k] == a[k - (|s| - |a|)];
      }
    }
  }

  datatype CreateRequest = CreateRequest(accessToken: string, name: string, parentId: Option<string>)

  /**
   * `handleCreateFolder` up to the call: nothing without a token or with a
   * blank name; otherwise the trimmed name under the current folder, or with
   * no parent (Drive's root) at root and at the top of the shared section.
   */
  function CreateFolderRequest(accessToken: string, newFolderName: string, currentFolderId: Option<string>): (r: Option<CreateRequest>)
    ensures r.None? <==> accessToken == "" || Blank(newFolderName)
    ensures r.Some? ==> r.value.accessToken == accessToken && r.value.name == Trim(newFolderName)
    ensures r.Some? ==>
              (r.value.parentId.None? <==>
                 currentFolderId.None? || currentFolderId == Some("") || currentFolderId == Some(SharedWithMeId))
    ensures r.Some? && r.value.parentId.Some? ==> r.value.parentId == currentFolderId
  {
    TrimEmptyExactlyWhenBlank(newFolderName);
    if accessToken == "" || Trim(newFolderName) == "" then None
    else
      var parentId :=
        if currentFolderId.Some? && currentFolderId.value != "" && currentFolderId.value != SharedWithMeId
        then currentFolderId else None;
      Some(CreateRequest(accessToken, Trim(newFolderName), parentId))
  }

  /**
   * The new folder is created inside the folder the picker would select, or
   * in Drive's root when there is none.
   */
  lemma CreatedWhereSelectable(v: View, accessToken: string, newFolderName: string)
    requires WellFormed(v)
    requires accessToken != "" && !Blank(newFolderName)
    ensures var r := CreateFolderRequest(accessToken, newFolderName, v.currentFolderId);
      r.Some? &&
      CreateFolderParents(r.value.parentId) ==
        (if CurrentFolder(v).Some? then [CurrentFolder(v).value.id] else [RootId])
  {
  }

  // ---------------------------------------------------------------------
  // The picker's state
  // ---------------------------------------------------------------------

  class Picker {
    var breadcrumbs: seq<Breadcrumb>
    var currentFolderId: Option<string>
    var isInSharedSection: bool

    function State(): View
      reads this
    {
      View(breadcrumbs, currentFolderId, isInSharedSection)
    }

    predicate Valid()
      reads this
    {
      WellFormed(State())
    }

    constructor()
      ensures State() == InitialView && Valid()
    {
      breadcrumbs := [RootCrumb];
      currentFolderId := None;
      isInSharedSection := false;
    }

    method NavigateToFolder(folder: DriveFolder)
      requires Valid()
      modifies this
      ensures State() == IntoFolder(old(State()), folder) && Valid()
    {
      NavigationKeepsWellFormed(State(), Folder(folder));
      currentFolderId := Some(folder.id);
      breadcrumbs := breadcrumbs + [Breadcrumb(Some(folder.id), folder.name, false)];
    }

    method NavigateToShared()
      requires Valid()
      modifies this
      ensures State() == IntoShared(old(State())) && Valid()
    {
      isInSharedSection := true;
      currentFolderId := Some(SharedWithMeId);
      breadcrumbs := [SharedCrumb];
    }

    method NavigateToBreadcrumb(index: nat)
      requires Valid() && index < |breadcrumbs|
      modifies this
      ensures State() == ToCrumb(old(State()), index) && Valid()
    {
      NavigationKeepsWellFormed(State(), Crumb(index));
      var item := breadcrumbs[index];
      if item.id.None? {
        isInSharedSection := false;
        currentFolderId := None;
        breadcrumbs := [RootCrumb];
      } else if item.id.value == SharedWithMeId {
        currentFolderId := Some(SharedWithMeId);
        breadcrumbs := breadcrumbs[..index + 1];
      } else {
        currentFolderId := item.id;
        breadcrumbs := breadcrumbs[..index + 1];
      }
    }

    /** The "My Drive" button. */
    method GoToRoot()
      requires Valid()
      modifies this
      ensures State() == ToRoot(old(State())) && Valid()
    {
      isInSharedSection := false;
      currentFolderId := None;
      breadcrumbs := [RootCrumb];
    }
  }
}
