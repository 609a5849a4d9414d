/** The size catalogue: five square keychain sizes in centimetres, each with a default
    depth, one of them marked popular; the selector highlights the entry whose id equals the
    selected size's id and prints one description line per id. */
module Sizes {
  import opened Common

  datatype SizeOption = SizeOption(id: string, name: string, width: real, height: real, depth: real, popular: bool)

  const SizePresets: seq<SizeOption> := [
    SizeOption("mini", "Mini", 2.0, 2.0, 0.5, false),
    SizeOption("small", "Small", 3.0, 3.0, 0.8, false),
    SizeOption("medium", "Medium", 4.0, 4.0, 1.0, true),
    SizeOption("large", "Large", 5.0, 5.0, 1.2, false),
    SizeOption("jumbo", "Jumbo", 6.0, 6.0, 1.5, false)
  ]

  /** The designer's initial size. */
  const DefaultSizeIndex: nat := 2

  function SizeIds(): (ids: seq<string>)
    ensures |ids| == |SizePresets|
    ensures forall i :: 0 <= i < |SizePresets| ==> ids[i] == SizePresets[i].id
  {
    seq(|SizePresets|, i requires 0 <= i < |SizePresets| => SizePresets[i].id)
  }

  /** A size button is highlighted when its id is the selected size's id. */
  predicate IsHighlighted(option: SizeOption, selected: SizeOption) {
    selected.id == option.id
  }

  /** No two presets share an id. */
  lemma SizeIdsDistinct()
    ensures Distinct(SizeIds())
  {
    var ids := SizeIds();
    assert ids == ["mini", "small", "medium", "large", "jumbo"];
  }

  /** Whatever preset is selected, exactly one button is highlighted. */
  lemma ExactlyOneSizeHighlighted(selected: SizeOption)
    requires selected in SizePresets
    ensures Count(SizeIds(), selected.id) == 1
  {
    SizeIdsDistinct();
    var i :| 0 <= i < |SizePresets| && SizePresets[i] == selected;
    assert SizeIds()[i] == selected.id;
    CountDistinct(SizeIds(), selected.id);
  }

  /** Every preset has positive dimensions and is square. */
  lemma PresetsPositiveAndSquare()
    ensures forall s :: s in SizePresets ==> s.width > 0.0 && s.height > 0.0 && s.depth > 0.0 && s.width == s.height
  {
  }

  /** In table order the presets grow strictly, both in width and in depth. */
  lemma PresetsIncreasing()
    ensures forall i, j :: 0 <= i < j < |SizePresets| ==>
      SizePresets[i].width < SizePresets[j].width && SizePresets[i].depth < SizePresets[j].depth
  {
  }

  /** Only "medium" is marked popular, and it is the designer's initial size. */
  lemma OnlyMediumPopular()
    ensures forall s :: s in SizePresets ==> (s.popular <==> s.id == "medium")
    ensures DefaultSizeIndex < |SizePresets| && SizePresets[DefaultSizeIndex].id == "medium"
  {
  }

  /** The description lines under the selector: each of five tests adds its line when the
      selected id matches. */
  function SizeDescription(selected: SizeOption): seq<string> {
    (if selected.id == "mini" then ["Perfect for small bags and backpacks"] else [])
    + (if selected.id == "small" then ["Great for keys and small accessories"] else [])
    + (if selected.id == "medium" then ["Our most popular size - ideal for everyday use"] else [])
    + (if selected.id == "large" then ["Makes a statement on bags and purses"] else [])
    + (if selected.id == "jumbo" then ["Extra large for maximum visibility"] else [])
  }

  /** A catalogue size gets exactly one description line; an id outside the catalogue none. */
  lemma OneSizeDescription(selected: SizeOption)
    ensures selected.id in SizeIds() ==> |SizeDescription(selected)| == 1
    ensures selected.id !in SizeIds() ==> SizeDescription(selected) == []
  {
    assert SizeIds() == ["mini", "small", "medium", "large", "jumbo"];
  }
}
