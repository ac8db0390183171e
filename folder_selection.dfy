/**
 * Turning what the user picked into the folder to sort and the index to
 * start at: a picked image means "its parent folder, starting at that image";
 * anything else is taken to be the folder itself.
 *
 * The two remote calls of the image path (`getFileParent`, `listAllImages`)
 * are inputs: their outcomes, which are only consulted on that path.
 */
module FolderSelection {
  import opened DriveApi
  import Store

  datatype PickerSelection = PickerSelection(id: string, name: string, mimeType: string)

  datatype ResolvedSelection = ResolvedSelection(
    folder: DriveFolder,
    startIndex: int,
    images: Option<seq<DriveImage>>)

  const ImagePrefix: string := "image/"

  /** `mimeType.startsWith('image/')`. */
  predicate IsImageMimeType(mimeType: string) {
    |ImagePrefix| <= |mimeType| && mimeType[..|ImagePrefix|] == ImagePrefix
  }

  /** `images.findIndex(img => img.id === id)`: the first match, or -1. */
  function FindIndex(images: seq<DriveImage>, id: string): (r: int)
    ensures -1 <= r < |images|
    ensures r >= 0 ==> images[r].id == id && forall j :: 0 <= j < r ==> images[j].id != id
    ensures r == -1 <==> forall j :: 0 <= j < |images| ==> images[j].id != id
  {
    if images == [] then -1
    else if images[0].id == id then 0
    else
      var k := FindIndex(images[1..], id);
      if k < 0 then -1 else k + 1
  }

  /**
   * `resolveSelection`. An image resolves to its parent folder and that
   * folder's images, starting at the first image with the selected id (at 0
   * when there is none); a failing remote call fails the resolution. Anything
   * else resolves to itself as a folder, starting at 0, with no images.
   */
  function ResolveSelection(selection: PickerSelection, parent: Result<DriveFolder>,
                            images: Result<seq<DriveImage>>): (r: Result<ResolvedSelection>)
    ensures !IsImageMimeType(selection.mimeType) ==>
              r == Ok(ResolvedSelection(DriveFolder(selection.id, selection.name), 0, None))
    ensures IsImageMimeType(selection.mimeType) && parent.Err? ==> r == Err(parent.error)
    ensures IsImageMimeType(selection.mimeType) && parent.Ok? && images.Err? ==> r == Err(images.error)
    ensures IsImageMimeType(selection.mimeType) && parent.Ok? && images.Ok? ==>
              r.Ok? && r.value.folder == parent.value && r.value.images == Some(images.value) &&
              0 <= r.value.startIndex &&
              (r.value.startIndex < |images.value| && images.value[r.value.startIndex].id == selection.id ==>
                 forall j :: 0 <= j < r.value.startIndex ==> images.value[j].id != selection.id) &&
              ((exists j :: 0 <= j < |images.value| && images.value[j].id == selection.id) ==>
                 r.value.startIndex < |images.value| && images.value[r.value.startIndex].id == selection.id) &&
              ((forall j :: 0 <= j < |images.value| ==> images.value[j].id != selection.id) ==>
                 r.value.startIndex == 0)
    ensures r.Ok? ==> r.value.startIndex >= 0
  {
    if IsImageMimeType(selection.mimeType) then
      match parent
      case Err(e) => Err(e)
      case Ok(parentFolder) =>
        match images
        case Err(e) => Err(e)
        case Ok(list) =>
          var index := FindIndex(list, selection.id);
          Ok(ResolvedSelection(parentFolder, if index >= 0 then index else 0, Some(list)))
    else
      Ok(ResolvedSelection(DriveFolder(selection.id, selection.name), 0, None))
  }

  /**
   * Loading a resolved image selection into the store makes the picked image
   * the current photo, with no decisions yet.
   */
  lemma ResolvedImageBecomesCurrentPhoto(selection: PickerSelection, parent: DriveFolder,
                                         images: seq<DriveImage>, s: Store.Session)
    requires IsImageMimeType(selection.mimeType)
    requires exists j :: 0 <= j < |images| && images[j].id == selection.id
    ensures var r := ResolveSelection(selection, Ok(parent), Ok(images));
      var t := Store.SetPhotosStep(s, images, r.value.startIndex);
      var current := Store.CurrentPhotoOf(t.photos, t.currentIndex);
      current.Some? && current.value.id == selection.id && t.history == []
  {
  }
}
