# Keychain designer — a Dafny model

This project models the logic of a web page for designing 3D-printed keychains. A user
uploads a picture and can open an image editor on it (rotate, flip, zoom, brightness,
contrast). The user then chooses a thickness, a size, a material, a colour, a shape and an
optional caption, and places the keychain's hole by pointing at a positioning surface. A 3D
preview shows a fixed box body with the picture as texture, plus a marker and a ring at the
hole. There is also a crop-rectangle editor with four corner handles.

Every module corresponds to one source file:

| module | models |
|---|---|
| `Common` | small shared pieces: `Option`, points and rectangles, `Math.min`/`max`/`abs`, JavaScript truthiness of a nullable string and `a \|\| b`, decimal rendering of integers of magnitude below 10^21 as template literals print them (with a parser proved to read it back), slider grids, and counting keys in a table |
| `Keyhole` | `FreeKeyholePositioner.tsx` |
| `Cropper` | `ImageCropper.tsx` |
| `Scene` | `Canvas3D.tsx`, and the hole placement against the drawn body |
| `Sizes`, `Materials`, `Shapes`, `Colors` | `SizeSelector.tsx`, `MaterialSelector.tsx`, `ShapeSelector.tsx`, `ColorCustomizer.tsx` |
| `TextOverlay` | `TextOverlay.tsx` |
| `ImageEditor` | `ImageEditor.tsx` |
| `Uploader` | `ImageUploader.tsx` |
| `Designer` | `Designer.tsx` |

How the source's constructs are mapped:

- A component whose `useState` fields its handlers update is a class. The fields are class
  fields, and each handler is a method with a `modifies` clause that states the whole new state.
- Calculations are functions, and catalogues are constant sequences.
- Coordinates are exact reals.
- A DOM element that may be missing is an `Option` parameter.
- A few outputs are returned as results: the keyhole's committed positions (passed to the parent callback), whether its mouse-up notice is shown, the cropper's cursor, and the uploader's upload or its error message. The other toasts (the keyhole's click, reset and toggle notices, the shape-change notice, the editor's reset notice) are not modelled; see "Left out".

## Model

| member | source | states |
|---|---|---|
| Common.Or | src/pages/Designer.tsx:68 | `a \|\| b` on nullable strings: the first operand when it is a non-empty string, else the second; the result is truthy exactly when one operand is |
| Common.NatToStringRoundTrip | src/components/TextOverlay.tsx:80 | reading back the decimal digits a natural number is printed with gives the number |
| Common.IntToStringRoundTrip | src/components/ImageEditor.tsx:65 | an integer of magnitude below 10^21 printed in a template literal (with its minus sign) parses back to the same integer |
| Common.TakeNumberOfConcat | src/components/ImageEditor.tsx:65 | a printed number followed by a character that cannot continue a number is split off exactly |
| Common.CountDistinct | src/components/SizeSelector.tsx:69-72 | in a table with pairwise different keys, a key present in it occurs exactly once |
| Keyhole.ClampAxis | src/components/FreeKeyholePositioner.tsx:59-60 | the clamp keeps a value within ±(dim/2 − 0.3) when dim ≥ 0.6, leaves in-range values alone, pins low and high values to the nearer bound, and returns the lower bound when the interval is empty |
| Keyhole.UpdatePosition | src/components/FreeKeyholePositioner.tsx:47-63 | a position is emitted exactly when the surface element exists, and every emitted position lies at least 0.3 inside the keychain's edges when both sides are at least 0.6 |
| Keyhole.NormaliseEdges | src/components/FreeKeyholePositioner.tsx:50-52 | the surface's left and right edges map to −1 and +1, its top edge to +1 and its bottom edge to −1 (y is flipped) |
| Keyhole.UnclampedRoundTrip | src/components/FreeKeyholePositioner.tsx:51-56 | when the clamp does not intervene, drawing the committed position back on the surface (`positionToCanvas`, lines 85-89) puts the marker at the pointer's percentage offset |
| Keyhole.ClampIdempotent | src/components/FreeKeyholePositioner.tsx:59-60 | clamping twice is clamping once |
| Keyhole.CommittedIsFixedPoint | src/components/FreeKeyholePositioner.tsx:59-62 | a committed position is left unchanged by the clamp |
| Keyhole.QuickPositions | src/components/FreeKeyholePositioner.tsx:76-82 | there are five quick positions |
| Keyhole.ResetPosition | src/components/FreeKeyholePositioner.tsx:71-73 | reset sends the first quick position, "Top Center": centred, half a unit below the top edge |
| Keyhole.QuickPositionsWithinBounds | src/components/FreeKeyholePositioner.tsx:76-82 | on a keychain at least 1 × 1, every quick position is one the clamp leaves unchanged |
| Keyhole.Positioner.constructor | src/components/FreeKeyholePositioner.tsx:22-23 | neither dragging nor in positioning mode at first |
| Keyhole.Positioner.TogglePositioning | src/components/FreeKeyholePositioner.tsx:115-120 | the button flips positioning mode and leaves dragging alone |
| Keyhole.Positioner.MouseDown | src/components/FreeKeyholePositioner.tsx:25-29 | in positioning mode a press starts a drag and commits `updatePosition`; otherwise nothing happens |
| Keyhole.Positioner.MouseMove | src/components/FreeKeyholePositioner.tsx:31-34 | a move commits only while dragging in positioning mode, and then commits `updatePosition` |
| Keyhole.Positioner.MouseUp | src/components/FreeKeyholePositioner.tsx:36-41 | release ends the drag; the "updated" notice is shown exactly when a drag was in progress |
| Keyhole.Positioner.MouseLeave | src/components/FreeKeyholePositioner.tsx:43-45 | leaving the surface (or a document-level mouse-up, lines 93-102) ends the drag |
| Keyhole.Positioner.Click | src/components/FreeKeyholePositioner.tsx:65-69 | a click commits `updatePosition` in positioning mode, dragging or not, and nothing otherwise |
| Cropper.Rank | src/components/ImageCropper.tsx:117-128 | each corner has its place in the hit-test order tl, tr, bl, br |
| Cropper.HitTest | src/components/ImageCropper.tsx:114-134 | a press selects a corner only if it is within 16 px of it and of no corner earlier in the order; it is inside the area exactly when it is near no corner and within the area, and outside exactly when near no corner and not within |
| Cropper.CursorFollowsHitTest | src/components/ImageCropper.tsx:179-194 | the cursor chain chooses the resize cursor of the corner the press test would grab, "move" inside and "default" outside |
| Cropper.DragArea | src/components/ImageCropper.tsx:147-150 | a move keeps the size and follows the pointer exactly where that is in range; left of (above) the canvas it pins x (y) to 0, past the right (bottom) edge to the canvas width (height) minus the area's, and to 0 when the area is wider (taller) than the canvas, so it stays on the canvas whenever it fits |
| Cropper.ResizeArea | src/components/ImageCropper.tsx:151-176 | every resize keeps both sides at least 50 and the opposite corner fixed; the dragged corner follows the pointer on each axis unless that side would fall below 50, where it is exactly 50 |
| Cropper.AspectArea | src/components/ImageCropper.tsx:237-251 | a preset gives an area centred on the canvas, with width = ratio × height and shorter side half the canvas's shorter side |
| Cropper.AspectPresetsPositive | src/components/ImageCropper.tsx:230-235 | every preset ratio is positive |
| Cropper.CentredSquareIsSquarePreset | src/components/ImageCropper.tsx:51-57 | the area centred on a freshly loaded image is what the "Square" preset gives on a canvas of the image's size |
| Cropper.ImageCropper.constructor | src/components/ImageCropper.tsx:24-29 | initial area (50, 50, 200, 200), no gesture and no image; the canvas has the browser's default 300 × 150 |
| Cropper.ImageCropper.ImageLoaded | src/components/ImageCropper.tsx:43-58 | a loaded image marks the editor ready and, when the canvas exists, centres a square of half the shorter image side |
| Cropper.ImageCropper.MouseDown | src/components/ImageCropper.tsx:104-135 | a press grabs the corner the hit test finds, or starts a move remembering the grip offset, or changes nothing |
| Cropper.ImageCropper.MouseMove | src/components/ImageCropper.tsx:137-195 | a move drags, else resizes with the opposite corner fixed, else leaves the area; the cursor is chosen from the area before the move |
| Cropper.ImageCropper.MouseUp | src/components/ImageCropper.tsx:197-200 | release ends both a move and a resize and keeps the area |
| Cropper.ImageCropper.ApplyAspectRatio | src/components/ImageCropper.tsx:237-251 | with a canvas the area becomes the preset's centred area, otherwise nothing changes |
| Sizes.SizeIdsDistinct | src/components/SizeSelector.tsx:20-57 | no two size presets share an id |
| Sizes.ExactlyOneSizeHighlighted | src/components/SizeSelector.tsx:69-72 | whatever preset is selected, exactly one button matches it by id |
| Sizes.PresetsPositiveAndSquare | src/components/SizeSelector.tsx:20-57 | every preset is square with positive sides and depth |
| Sizes.PresetsIncreasing | src/components/SizeSelector.tsx:20-57 | in table order the presets grow strictly in width and in depth |
| Sizes.OnlyMediumPopular | src/components/SizeSelector.tsx:35-42 | only "medium" is popular, and it is the designer's initial size (Designer.tsx line 29) |
| Sizes.OneSizeDescription | src/components/SizeSelector.tsx:100-106 | a catalogue size gets exactly one description line; an unknown id gets none |
| Materials.MaterialIdsDistinct | src/components/MaterialSelector.tsx:21-67 | no two materials share an id |
| Materials.ExactlyOneMaterialHighlighted | src/components/MaterialSelector.tsx:79-82 | whatever catalogue material is selected, exactly one button matches it by id |
| Materials.MaterialFactorsInUnitRange | src/components/MaterialSelector.tsx:21-67 | every metalness and roughness lies in [0, 1] |
| Materials.DefaultIsPlastic | src/components/MaterialSelector.tsx:21-30 | five materials, the first (the designer's initial one) being pink "plastic" |
| Materials.OneMaterialDescription | src/components/MaterialSelector.tsx:102-107 | a catalogue material gets exactly one description line; an unknown id gets none |
| Shapes.EveryShapeListedOnce | src/components/ShapeSelector.tsx:16-40 | the shape type has eight values and each is listed exactly once |
| Shapes.OptionValuesDistinct | src/components/ShapeSelector.tsx:31-40 | no two options carry the same shape |
| Shapes.PopularShapes | src/components/ShapeSelector.tsx:32-39 | exactly rectangle, circle and heart are popular |
| Shapes.FindShape | src/components/ShapeSelector.tsx:90 | `find` returns the first option with the shape, and nothing exactly when no option has it |
| Shapes.FindShapeUnique | src/components/ShapeSelector.tsx:90 | in a table of pairwise different shapes, `find` returns the one option listing the shape |
| Shapes.LookupFindsUniqueOption | src/components/ShapeSelector.tsx:87-104 | the selected label and preview icon come from the shape's own option; the square fallback is only ever the rectangle's icon |
| Shapes.SquareIconOnlyForRectangle | src/components/ShapeSelector.tsx:32-39 | only the rectangle option uses the square icon |
| Shapes.ShapeChange | src/components/ShapeSelector.tsx:43-46 | the clicked option's shape is forwarded, making that option selected |
| Shapes.ClickSelectsOnlyClicked | src/components/ShapeSelector.tsx:57-75 | after a click, the clicked option and no other is drawn selected |
| Colors.GradientStyle | src/components/ColorCustomizer.tsx:25-36 | rainbow, sunset and aurora become CSS linear gradients; every other value is returned unchanged |
| Colors.SwatchBackgrounds | src/components/ColorCustomizer.tsx:54-58 | gradient swatches are painted with a linear gradient and all others with their own value |
| Colors.OriginalIsSentinel | src/components/ColorCustomizer.tsx:12 | the "Original" option is the value "#FFFFFF" |
| Colors.GradientFlagMatchesValue | src/components/ColorCustomizer.tsx:11-22 | an option is flagged as a gradient exactly when its value does not start with '#' |
| Colors.ExactlyOneColorHighlighted | src/components/ColorCustomizer.tsx:47-51 | a selected catalogue colour highlights exactly one button |
| Colors.ExactlyOneDescription | src/components/ColorCustomizer.tsx:68-72 | for every string, exactly one of the three description sentences is shown: original for "#FFFFFF", solid for another '#' value, gradient otherwise |
| Colors.CatalogueModes | src/components/ColorCustomizer.tsx:11-22 | among the options only "Original" keeps the image's colours, and exactly the flagged ones are gradients |
| Scene.BodyBox | src/components/Canvas3D.tsx:22-25 | the body is 3 × 3 whatever size is selected, with the thickness as depth |
| Scene.RingOnFrontFace | src/components/Canvas3D.tsx:50 | the ring lies in the body's front face, centred on the hole |
| Scene.IndicatorInFrontOfRing | src/components/Canvas3D.tsx:38-41 | the marker sphere is always 0.1 in front of the ring, straight above it |
| Scene.MarkerClearsRing | src/components/Canvas3D.tsx:37-52 | every point of the ring tube's centre circle (radius 0.2 around the hole, in the front face) is farther from the marker's centre than the marker's radius 0.15 plus the tube's radius 0.05, so the marker never touches the ring |
| Scene.BodyMaterialFor | src/components/Canvas3D.tsx:17-34 | hovering lightens the body colour; the picture is used as texture exactly when its URL is a non-empty string |
| Scene.BodyHover.constructor | src/components/Canvas3D.tsx:14 | the body starts not hovered |
| Scene.BodyHover.PointerOver | src/components/Canvas3D.tsx:26 | pointer-over sets hovered |
| Scene.BodyHover.PointerOut | src/components/Canvas3D.tsx:27 | pointer-out clears hovered |
| Scene.HoleCanLeaveFixedBody | src/components/Canvas3D.tsx:24 | for medium, large and jumbo, a press on the positioner's right edge commits a hole whose centre is off the fixed 3 × 3 body |
| Scene.HoleOnFixedBodyForSmallSizes | src/components/Canvas3D.tsx:24 | for mini and small every committed hole is on the fixed body |
| Scene.DefaultSizeAffected | src/pages/Designer.tsx:29 | the initial size is one of the affected sizes |
| Scene.ClampIntervalNonEmpty | src/components/SizeSelector.tsx:20-57 | every size's half-sides exceed the 0.3 margin, so the positioner's clamp interval is never empty |
| Scene.SizedBodyBox | src/pages/Designer.tsx:226-227 | corrected body: its face takes the selected size's width and height |
| Scene.HoleStaysOnSizedBody | src/pages/Designer.tsx:223-228 | with the corrected body, every hole committed for a catalogue size lies on the face, at least 0.3 inside each edge |
| TextOverlay.UpdateConfig | src/components/TextOverlay.tsx:46-48 | the merge takes each field given in the update and copies every other field unchanged |
| TextOverlay.EmptyUpdateKeepsConfig | src/components/TextOverlay.tsx:46-48 | an empty update changes nothing |
| TextOverlay.UpdateIdempotent | src/components/TextOverlay.tsx:46-48 | applying the same update twice is applying it once |
| TextOverlay.UpdatesCompose | src/components/TextOverlay.tsx:46-48 | two updates in a row equal one merged update in which the later wins |
| TextOverlay.TextInput | src/components/TextOverlay.tsx:72-78 | the text box keeps all of what was typed when it is at most 20 characters long, and exactly the first 20 otherwise; no other field changes |
| TextOverlay.CounterShowsLength | src/components/TextOverlay.tsx:80 | the counter's number parses back to the text's length and is followed by "/20 characters" |
| TextOverlay.PlacementsSymmetric | src/components/TextOverlay.tsx:149-168 | the placements are horizontally centred; Top (y = 0.5) and Bottom (y = −0.5) mirror each other about Center (0, 0) |
| TextOverlay.FontSizeValues | src/components/TextOverlay.tsx:110-116 | the font-size slider sends exactly the even sizes from 12 to 48 |
| TextOverlay.RotationValues | src/components/TextOverlay.tsx:179-185 | the rotation slider sends exactly the multiples of 5 from −45 to 45 |
| TextOverlay.PreviewText | src/components/TextOverlay.tsx:200 | the preview shows the text when there is one and "Your Text" exactly when the text is empty |
| TextOverlay.DefaultsReachableFromControls | src/pages/Designer.tsx:31-38 | the initial caption settings use a listed font and colour, values on both sliders and the Center placement, and preview as "Your Text" |
| TextOverlay.TextPanel.constructor | src/components/TextOverlay.tsx:44 | the caption controls start disabled |
| TextOverlay.TextPanel.Toggle | src/components/TextOverlay.tsx:58-63 | the enable button flips the flag that gates the controls (line 67) |
| ImageEditor.DrawScale | src/components/ImageEditor.tsx:59-62 | each axis is drawn at zoom/100 in size, negative exactly when that axis is flipped (for a positive zoom) |
| ImageEditor.FlipNegatesScale | src/components/ImageEditor.tsx:59-62 | flipping an axis negates its factor |
| ImageEditor.FilterRoundTrip | src/components/ImageEditor.tsx:65 | the filter string "brightness(B%) contrast(C%)" reads back as exactly the current B and C |
| ImageEditor.AdjustmentValues | src/components/ImageEditor.tsx:180-222 | the zoom, brightness and contrast sliders send exactly the multiples of 5 from 50 to 150 |
| ImageEditor.NeutralAdjustments | src/components/ImageEditor.tsx:26-31 | the neutral 100 is a slider value; the neutral filter reads back as 100/100, and the neutral factors are ±1 |
| ImageEditor.Editor.constructor | src/components/ImageEditor.tsx:26-31 | the editor opens with rotation 0, zoom, brightness and contrast 100, and no flips |
| ImageEditor.Editor.Reset | src/components/ImageEditor.tsx:98-106 | reset restores exactly that state |
| ImageEditor.Editor.Rotate | src/components/ImageEditor.tsx:135 | each press adds 90 degrees, with no wrap-around, and changes nothing else |
| ImageEditor.Editor.ToggleFlipH | src/components/ImageEditor.tsx:144 | flips horizontally and changes nothing else |
| ImageEditor.Editor.ToggleFlipV | src/components/ImageEditor.tsx:153 | flips vertically and changes nothing else |
| ImageEditor.Editor.SetScale | src/components/ImageEditor.tsx:180-186 | the zoom slider sets the zoom only |
| ImageEditor.Editor.SetBrightness | src/components/ImageEditor.tsx:198-204 | the brightness slider sets the brightness only |
| ImageEditor.Editor.SetContrast | src/components/ImageEditor.tsx:216-222 | the contrast slider sets the contrast only |
| ImageEditor.FlipTwice | src/components/ImageEditor.tsx:144 | pressing a flip button twice restores the flag and the drawn scale factors |
| ImageEditor.FullTurn | src/components/ImageEditor.tsx:135 | four presses add 360 degrees to the stored angle and leave the filter alone |
| Uploader.FindImage | src/components/ImageUploader.tsx:30 | `find` returns the first file whose type starts with "image/", and nothing exactly when no file is an image |
| Uploader.DropOutcome | src/components/ImageUploader.tsx:25-37 | a drop uploads exactly when some file is an image, and then an image from the drop; otherwise it reports "Please upload an image file" |
| Uploader.DropTakesFirstImage | src/components/ImageUploader.tsx:29-34 | the dropped file uploaded is the first image among the files |
| Uploader.SelectOutcome | src/components/ImageUploader.tsx:39-46 | the picker uploads exactly when the first chosen file is an image, and then that file; otherwise it reports "Please select an image file" |
| Uploader.SelectUploadAgreesWithDrop | src/components/ImageUploader.tsx:25-46 | whenever the picker uploads a file, dropping the same files uploads the same file |
| Uploader.SelectIgnoresLaterImages | src/components/ImageUploader.tsx:40-45 | a text file chosen before a picture: a drop uploads the picture, the picker rejects the choice |
| Uploader.ViewFor | src/components/ImageUploader.tsx:48-71 | the preview replaces the drop zone exactly when the image URL is a non-empty string, and shows that URL |
| Uploader.DropZone.constructor | src/components/ImageUploader.tsx:13 | not dragging at first |
| Uploader.DropZone.DragOver | src/components/ImageUploader.tsx:15-18 | drag-over sets dragging |
| Uploader.DropZone.DragLeave | src/components/ImageUploader.tsx:20-23 | drag-leave clears dragging |
| Uploader.DropZone.Drop | src/components/ImageUploader.tsx:25-37 | a drop clears dragging and decides as `DropOutcome` |
| Designer.DisplayImageOf | src/pages/Designer.tsx:68 | the displayed image is the edited image when that is a non-empty string, else the uploaded one |
| Designer.PreviewShownIff | src/pages/Designer.tsx:127-144 | preview and controls are shown exactly when one of the two images is a non-empty string and the editor is closed |
| Designer.ThicknessPresetsOnSlider | src/pages/Designer.tsx:183-217 | the 0.5, 1 and 1.5 buttons send values the 0.3–2 slider can reach in steps of 0.1; the initial thickness is the middle button |
| Designer.InitialHoleWithinMediumBounds | src/pages/Designer.tsx:27-29 | the initial hole (0, 1.3) is one the positioner could commit for the initial medium size, and it lies on the drawn body |
| Designer.SizeChangeKeepsStaleHole | src/pages/Designer.tsx:291-294 | choosing "mini" leaves the initial hole outside the range the positioner allows for mini, and its marker is drawn above the positioning surface |
| Designer.DesignerState.constructor | src/pages/Designer.tsx:23-38 | no images and editor closed; thickness 1, hole (0, 1.3), first material, medium size, colour "#FFFFFF", default caption; nothing is previewed |
| Designer.DesignerState.ImageUpload | src/pages/Designer.tsx:40-54 | an upload sets both the original and the edited image to its URL, which is then displayed and opened by the editor |
| Designer.DesignerState.ImageEdit | src/pages/Designer.tsx:63-66 | a saved edit replaces only the edited image and closes the editor; the editor's source stays the original upload |
| Designer.DesignerState.Clear | src/pages/Designer.tsx:113-116 | clear drops both images, so nothing is displayed and preview and controls are hidden |
| Designer.DesignerState.StartEdit | src/pages/Designer.tsx:117 | the edit callback opens the editor, which hides the preview |
| Designer.DesignerState.CancelEdit | src/pages/Designer.tsx:123 | cancel closes the editor with both images unchanged; the preview returns whenever there is an image |
| Designer.DesignerState.SetThickness | src/pages/Designer.tsx:183-217 | sets the thickness only |
| Designer.DesignerState.SetHole | src/pages/Designer.tsx:225 | sets the hole only |
| Designer.DesignerState.SetMaterial | src/pages/Designer.tsx:275 | sets the material only |
| Designer.DesignerState.SetSize | src/pages/Designer.tsx:293 | sets the size only; the hole stays where it was |
| Designer.DesignerState.SetColor | src/pages/Designer.tsx:279 | sets the colour only |
| Designer.DesignerState.SetTextConfig | src/pages/Designer.tsx:286 | sets the caption settings only |
| Designer.DesignerState.MoveHole | src/pages/Designer.tsx:223-228 | the hole committed by the positioner is the clamped pointer position for the current size, within its bounds |
| Designer.UploadEditSave | src/pages/Designer.tsx:40-124 | after upload, edit and save the edit is displayed, while the editor would reopen on the original upload |

## Left out

- TextOverlay.TextInput: counts a caption's length in Unicode scalar values, whereas the browser's `maxLength` and `text.length` count UTF-16 code units, in which a character outside the Basic Multilingual Plane (an emoji, say) counts twice. For such captions the model keeps more characters than the source and `TextOverlay.CounterShowsLength` reports a smaller number than the page shows.
- Common.IntToStringRoundTrip: covers the plain decimal form only; JavaScript prints numbers of magnitude 10^21 and above in exponent form ("1e+21"). Every number the page prints (the caption length, rotation and adjustment percentages) is far below that bound.
- Reading files into data URLs, toasts, timers, navigation and the export action are left out. They are I/O or asynchronous. The uploaded URL is a parameter of `Designer.DesignerState.ImageUpload`.
- Canvas 2D drawing in the cropper and the editor is left out: darkening, the handle squares, `drawImage`, the rotation transform, `toBlob` and saving the crop or the edit. They are foreign drawing calls. The editor keeps only its parameter state and the values it derives.
- Three.js texture loading, lights, camera and orbit controls are left out. They are foreign library calls. Only the body size, the marker and ring positions, and the body material are modelled.
- Floating-point rounding, and the `toFixed` display of the thickness, are not modelled. Coordinates are exact reals.
- The document-level mouse-up listener of the positioner is modelled as one more mouse-up without the notice (`Keyhole.Positioner.MouseLeave`), not as a listener.
- Keyhole.UpdatePosition: assumes the surface has positive width and height. A zero-size rectangle would give division by zero in the source. The same holds for the surface arguments of the positioner's and the cropper's methods.
- Cropper.ImageCropper.ApplyAspectRatio: requires a positive ratio. The preset buttons are its only callers, and all their ratios are positive (`Cropper.AspectPresetsPositive`).
- Cropper.ImageCropper.MouseMove: the resize case states the side lengths and the fixed opposite corner, not the exact new area. `Cropper.ResizeArea` states the rest.
- The cropper's initial `imageRef.current` test always passes, because the ref is set before the image loads. The model does not keep it.
- The cropper is not used by the designer page, so it is modelled as a free-standing component.
- The editor's save button is left out: it turns the drawing into a data URL, which is I/O. Its effect on the page is `Designer.DesignerState.ImageEdit`.
- Nothing in the uploader calls the `onEdit` callback that the page passes to it. The transition that opens the editor (`Designer.DesignerState.StartEdit`) is modelled as the page writes it, although the uploader's UI never invokes it.
- The page passes material, size, colour and caption to the 3D view, but the view reads only thickness, hole and image. So no compositing of colour, material or caption onto the body is modelled, because the code has none.
- The shape type is imported by the page but never held in its state. So the shape selector is modelled on its own.
- The thickness is not clamped anywhere; the slider range is the only bound.
- The "Max 10MB" line of the drop zone is text only, and the code never checks file size. The browser's `accept="image/*"` hint of the picker is not modelled; the handler's own check is.
- CSS classes, icons and layout are left out, apart from the icon choice of the shape preview. The static pages, marketing components and the older duplicate designer page are not part of this model.

## Findings

| source | as written | input that shows it | evidently intended | confidence | as-written member | corrected member |
|---|---|---|---|---|---|---|
| src/components/Canvas3D.tsx:24 with src/pages/Designer.tsx:226-227 | the 3D body is always 3 × 3, while the positioner clamps the hole to the selected size's half-width minus 0.3 | size "medium" (the initial size), pointer on the right edge of the positioning surface: hole x = 1.7, beyond the body's half-width 1.5 (2.2 for large, 2.7 for jumbo) | the body's face takes the selected size, so every hole the positioner allows lies on it | not executed | Scene.HoleCanLeaveFixedBody | Scene.HoleStaysOnSizedBody |
