/** The designer page's state: the uploaded image and its edited version, whether the editor
    is open, and the keychain parameters (thickness, hole position, material, size, colour and
    text settings). Event handlers replace these fields; which panels are shown is derived
    from them. */
module Designer {
  import opened Common
  import Keyhole
  import Materials
  import Sizes
  import Colors
  import TextOverlay
  import Scene

  /** The image shown in the uploader and used as texture: `editedImage || uploadedImage`. */
  function DisplayImageOf(uploadedImage: Option<string>, editedImage: Option<string>): (shown: Option<string>)
    ensures Truthy(editedImage) ==> shown == editedImage
    ensures !Truthy(editedImage) ==> shown == uploadedImage
  {
    Or(editedImage, uploadedImage)
  }

  /** `displayImage && !isEditing`: the condition under which both the 3D preview and the
      customisation controls are rendered. */
  predicate ShowsPreviewOf(uploadedImage: Option<string>, editedImage: Option<string>, isEditing: bool) {
    Truthy(DisplayImageOf(uploadedImage, editedImage)) && !isEditing
  }

  /** Preview and controls appear exactly when one of the two images is a non-empty URL and the
      editor is closed. */
  lemma PreviewShownIff(uploadedImage: Option<string>, editedImage: Option<string>, isEditing: bool)
    ensures ShowsPreviewOf(uploadedImage, editedImage, isEditing)
            <==> (Truthy(uploadedImage) || Truthy(editedImage)) && !isEditing
  {
  }

  /** Thickness slider: 0.3 to 2 in steps of 0.1. */
  const ThicknessSlider: Slider := Slider(0.3, 2.0, 0.1)
  /** The thin, medium and thick buttons. */
  const ThicknessPresets: seq<real> := [0.5, 1.0, 1.5]

  const InitialThickness: real := 1.0
  const InitialHole: Point := Point(0.0, 1.3)

  /** Each thickness button sends a value the slider can also reach, and the initial thickness
      is the medium button. */
  lemma ThicknessPresetsOnSlider()
    ensures forall t :: t in ThicknessPresets ==> OnGrid(ThicknessSlider, t)
    ensures InitialThickness == ThicknessPresets[1]
  {
    assert GridPoint(ThicknessSlider, 2) == 0.5;
    assert GridPoint(ThicknessSlider, 7) == 1.0;
    assert GridPoint(ThicknessSlider, 12) == 1.5;
  }

  /** With the initial medium size the initial hole is a position the positioner could have
      committed, it lies on the drawn body, and it sits above the centre. */
  lemma InitialHoleWithinMediumBounds()
    ensures var medium := Sizes.SizePresets[Sizes.DefaultSizeIndex];
            Keyhole.WithinBounds(InitialHole, medium.width, medium.height)
            && Keyhole.ClampAxis(InitialHole.x, medium.width) == InitialHole.x
            && Keyhole.ClampAxis(InitialHole.y, medium.height) == InitialHole.y
    ensures Scene.OnFace(InitialHole, Scene.BodyBox(InitialThickness).x, Scene.BodyBox(InitialThickness).y)
  {
  }

  /** Choosing a size does not touch the hole, so after switching from the initial state to
      mini the hole lies outside the range the positioner allows for mini and its marker is
      drawn above the positioner's surface (a negative top offset). */
  lemma SizeChangeKeepsStaleHole()
    ensures var mini := Sizes.SizePresets[0];
            !Keyhole.WithinBounds(InitialHole, mini.width, mini.height)
            && Keyhole.PositionToCanvas(InitialHole, mini.width, mini.height).y < 0.0
  {
  }

  /** The keychain parameters the designer holds besides the images. */
  datatype Settings = Settings(thickness: real, hole: Point, material: Materials.MaterialOption,
                               size: Sizes.SizeOption, color: string, textConfig: TextOverlay.TextConfig)

  const InitialSettings: Settings :=
    Settings(InitialThickness, InitialHole, Materials.MaterialCatalogue[0],
             Sizes.SizePresets[Sizes.DefaultSizeIndex], Colors.OriginalColor, TextOverlay.DefaultTextConfig)

  class DesignerState {
    var uploadedImage: Option<string>
    var editedImage: Option<string>
    var isEditing: bool
    var thickness: real
    var hole: Point
    var material: Materials.MaterialOption
    var size: Sizes.SizeOption
    var color: string
    var textConfig: TextOverlay.TextConfig

    function CurrentSettings(): Settings
      reads this
    {
      Settings(thickness, hole, material, size, color, textConfig)
    }

    function DisplayImage(): Option<string>
      reads this
    {
      DisplayImageOf(uploadedImage, editedImage)
    }

    predicate ShowsPreview()
      reads this
    {
      ShowsPreviewOf(uploadedImage, editedImage, isEditing)
    }

    /** The editor is opened on the original upload, never on an earlier edit. */
    function EditorImage(): Option<string>
      reads this
    {
      uploadedImage
    }

    constructor ()
      ensures uploadedImage == None && editedImage == None && !isEditing
      ensures CurrentSettings() == InitialSettings
      ensures !ShowsPreview()
    {
      uploadedImage, editedImage, isEditing := None, None, false;
      thickness, hole := InitialThickness, InitialHole;
      material, size := Materials.MaterialCatalogue[0], Sizes.SizePresets[Sizes.DefaultSizeIndex];
      color, textConfig := Colors.OriginalColor, TextOverlay.DefaultTextConfig;
    }

    /** `handleImageUpload`, once the file has been read into a data URL: the URL becomes both
        the original and the edited image. */
    method ImageUpload(url: string)
      modifies this
      ensures uploadedImage == Some(url) && editedImage == Some(url)
      ensures isEditing == old(isEditing) && CurrentSettings() == old(CurrentSettings())
      ensures DisplayImage() == Some(url) && EditorImage() == Some(url)
    {
      uploadedImage, editedImage := Some(url), Some(url);
    }

    /** `handleImageEdit`: the saved edit replaces only the edited image and closes the editor. */
    method ImageEdit(url: string)
      modifies this
      ensures editedImage == Some(url) && !isEditing
      ensures uploadedImage == old(uploadedImage) && EditorImage() == old(EditorImage())
      ensures CurrentSettings() == old(CurrentSettings())
      ensures url != "" ==> DisplayImage() == Some(url) && ShowsPreview()
    {
      editedImage := Some(url);
      isEditing := false;
    }

    /** The uploader's clear button: both images are dropped, hiding preview and controls. */
    method Clear()
      modifies this
      ensures uploadedImage == None && editedImage == None
      ensures isEditing == old(isEditing) && CurrentSettings() == old(CurrentSettings())
      ensures DisplayImage() == None && !ShowsPreview()
    {
      uploadedImage, editedImage := None, None;
    }

    /** The edit callback handed to the uploader: opens the editor. */
    method StartEdit()
      modifies this
      ensures isEditing && !ShowsPreview()
      ensures uploadedImage == old(uploadedImage) && editedImage == old(editedImage)
      ensures CurrentSettings() == old(CurrentSettings())
    {
      isEditing := true;
    }

    /** The editor's cancel button: closes the editor with both images as they were. */
    method CancelEdit()
      modifies this
      ensures !isEditing
      ensures uploadedImage == old(uploadedImage) && editedImage == old(editedImage)
      ensures CurrentSettings() == old(CurrentSettings())
      ensures ShowsPreview() <==> Truthy(old(DisplayImage()))
    {
      isEditing := false;
    }

    /** The thickness slider and buttons. */
    method SetThickness(t: real)
      modifies this
      ensures CurrentSettings() == old(CurrentSettings()).(thickness := t)
      ensures uploadedImage == old(uploadedImage) && editedImage == old(editedImage) && isEditing == old(isEditing)
    {
      thickness := t;
    }

    /** The keyhole positioner's position callback. */
    method SetHole(p: Point)
      modifies this
      ensures CurrentSettings() == old(CurrentSettings()).(hole := p)
      ensures uploadedImage == old(uploadedImage) && editedImage == old(editedImage) && isEditing == old(isEditing)
    {
      hole := p;
    }

    method SetMaterial(m: Materials.MaterialOption)
      modifies this
      ensures CurrentSettings() == old(CurrentSettings()).(material := m)
      ensures uploadedImage == old(uploadedImage) && editedImage == old(editedImage) && isEditing == old(isEditing)
    {
      material := m;
    }

    /** The size selector: the hole is left where it was. */
    method SetSize(s: Sizes.SizeOption)
      modifies this
      ensures CurrentSettings() == old(CurrentSettings()).(size := s)
      ensures hole == old(hole)
      ensures uploadedImage == old(uploadedImage) && editedImage == old(editedImage) && isEditing == old(isEditing)
    {
      size := s;
    }

    method SetColor(c: string)
      modifies this
      ensures CurrentSettings() == old(CurrentSettings()).(color := c)
      ensures uploadedImage == old(uploadedImage) && editedImage == old(editedImage) && isEditing == old(isEditing)
    {
      color := c;
    }

    method SetTextConfig(c: TextOverlay.TextConfig)
      modifies this
      ensures CurrentSettings() == old(CurrentSettings()).(textConfig := c)
      ensures uploadedImage == old(uploadedImage) && editedImage == old(editedImage) && isEditing == old(isEditing)
    {
      textConfig := c;
    }

    /** The positioner's callback with a committed position: the hole follows the pointer and
        stays within the current size's bounds. */
    method MoveHole(pointer: Point, surface: Rect)
      requires Positive(surface)
      modifies this
      ensures var committed := Keyhole.UpdatePosition(pointer, Some(surface), size.width, size.height);
              committed.Some? && hole == committed.value
      ensures size.width >= 0.6 && size.height >= 0.6 ==> Keyhole.WithinBounds(hole, size.width, size.height)
      ensures CurrentSettings() == old(CurrentSettings()).(hole := hole)
      ensures uploadedImage == old(uploadedImage) && editedImage == old(editedImage) && isEditing == old(isEditing)
    {
      var committed := Keyhole.UpdatePosition(pointer, Some(surface), size.width, size.height);
      hole := committed.value;
    }
  }

  /** Uploading, opening the editor and saving an edit shows the edit; the editor would still
      reopen on the upload. */
  method UploadEditSave(d: DesignerState, original: string, edited: string)
    requires edited != ""
    modifies d
    ensures d.DisplayImage() == Some(edited) && d.EditorImage() == Some(original) && d.ShowsPreview()
  {
    d.ImageUpload(original);
    d.StartEdit();
    d.ImageEdit(edited);
  }
}
