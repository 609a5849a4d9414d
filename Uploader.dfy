/** The image upload area: a drop zone that accepts the first image among the dropped files,
    a file picker that looks only at the first chosen file, a dragging flag driven by the
    drag events, and a preview that replaces the drop zone once there is an image. */
module Uploader {
  import opened Common

  /** What the handlers read of a browser `File`: its name and its MIME type. */
  datatype FileInfo = FileInfo(name: string, mimeType: string)

  const ImageTypePrefix: string := "image/"

  predicate IsImage(f: FileInfo) {
    StartsWith(f.mimeType, ImageTypePrefix)
  }

  /** `files.find(...)`: the first file whose type starts with "image/". */
  function FindImage(files: seq<FileInfo>): (r: Option<FileInfo>)
    ensures r.Some? ==> IsImage(r.value)
    ensures r.Some? ==> exists i :: 0 <= i < |files| && files[i] == r.value
                                  && forall j :: 0 <= j < i ==> !IsImage(files[j])
    ensures r.None? <==> forall f :: f in files ==> !IsImage(f)
  {
    if files == [] then None
    else if IsImage(files[0]) then Some(files[0])
    else
      var r := FindImage(files[1..]);
      if r.Some? then
        ghost var i :| 0 <= i < |files[1..]| && files[1..][i] == r.value
                       && forall j :: 0 <= j < i ==> !IsImage(files[1..][j]);
        assert files[i + 1] == r.value;
        assert forall j :: 0 <= j < i + 1 ==> !IsImage(files[j]) by {
          forall j | 0 <= j < i + 1 ensures !IsImage(files[j]) {
            if j > 0 { assert files[j] == files[1..][j - 1]; }
          }
        }
        r
      else
        assert forall f :: f in files ==> f == files[0] || f in files[1..];
        r
  }

  /** What a handler does with the files: pass one on for upload, or show an error. */
  datatype Outcome = Upload(file: FileInfo) | Reject(message: string)

  const DropError: string := "Please upload an image file"
  const SelectError: string := "Please select an image file"

  /** `handleDrop`: upload the first image among the dropped files, if any. */
  function DropOutcome(files: seq<FileInfo>): (o: Outcome)
    ensures o.Upload? <==> exists f :: f in files && IsImage(f)
    ensures o.Upload? ==> o.file in files && IsImage(o.file)
    ensures o.Reject? ==> o.message == DropError
  {
    match FindImage(files)
    case Some(f) => Upload(f)
    case None => Reject(DropError)
  }

  /** The dropped file uploaded is the first image: every file before it is not an image. */
  lemma DropTakesFirstImage(files: seq<FileInfo>, i: nat)
    requires i < |files| && IsImage(files[i]) && forall j :: 0 <= j < i ==> !IsImage(files[j])
    ensures DropOutcome(files) == Upload(files[i])
  {
    var r := FindImage(files);
    var k :| 0 <= k < |files| && files[k] == r.value && forall j :: 0 <= j < k ==> !IsImage(files[j]);
    assert k == i;
  }

  /** `handleFileSelect`: only the first chosen file is looked at. */
  function SelectOutcome(files: seq<FileInfo>): (o: Outcome)
    ensures o.Upload? <==> |files| > 0 && IsImage(files[0])
    ensures o.Upload? ==> o.file == files[0]
    ensures o.Reject? ==> o.message == SelectError
  {
    if |files| > 0 && IsImage(files[0]) then Upload(files[0]) else Reject(SelectError)
  }

  /** Whenever the picker uploads a file, dropping the same files uploads the same file. */
  lemma SelectUploadAgreesWithDrop(files: seq<FileInfo>)
    requires SelectOutcome(files).Upload?
    ensures DropOutcome(files) == SelectOutcome(files)
  {
    DropTakesFirstImage(files, 0);
  }

  /** The two handlers differ: with a text file chosen before a picture, dropping uploads the
      picture while the picker rejects the choice. */
  lemma SelectIgnoresLaterImages()
    ensures var files := [FileInfo("notes.txt", "text/plain"), FileInfo("cat.png", "image/png")];
            DropOutcome(files) == Upload(files[1]) && SelectOutcome(files) == Reject(SelectError)
  {
    var files := [FileInfo("notes.txt", "text/plain"), FileInfo("cat.png", "image/png")];
    assert !IsImage(files[0]) by { assert files[0].mimeType[0] != ImageTypePrefix[0]; }
    assert IsImage(files[1]) by {
      assert files[1].mimeType == ImageTypePrefix + "png";
      StartsWithConcat(ImageTypePrefix, "png");
    }
    DropTakesFirstImage(files, 1);
  }

  /** What the component shows: the drop zone, or the image with a clear button. */
  datatype View = DropZoneView | PreviewView(url: string)

  /** `if (uploadedImage)`: a preview exactly when the image URL is neither null nor empty. */
  function ViewFor(uploadedImage: Option<string>): (v: View)
    ensures v.PreviewView? <==> Truthy(uploadedImage)
    ensures v.PreviewView? ==> uploadedImage == Some(v.url)
  {
    if Truthy(uploadedImage) then PreviewView(uploadedImage.value) else DropZoneView
  }

  /** The drop zone's highlight flag. */
  class DropZone {
    var isDragging: bool

    constructor ()
      ensures !isDragging
    {
      isDragging := false;
    }

    method DragOver()
      modifies this
      ensures isDragging
    {
      isDragging := true;
    }

    method DragLeave()
      modifies this
      ensures !isDragging
    {
      isDragging := false;
    }

    /** `handleDrop`: ends the drag and decides what to upload. */
    method Drop(files: seq<FileInfo>) returns (o: Outcome)
      modifies this
      ensures !isDragging
      ensures o == DropOutcome(files)
    {
      isDragging := false;
      o := DropOutcome(files);
    }
  }
}
