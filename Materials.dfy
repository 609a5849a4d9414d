/** The material catalogue: five materials, each with a base colour, a metalness and a
    roughness and a price label; the selector highlights the entry whose id equals the
    selected material's id and prints one description line per id. */
module Materials {
  import opened Common

  datatype MaterialOption = MaterialOption(id: string, name: string, color: string,
                                           metalness: real, roughness: real, price: string)

  const MaterialCatalogue: seq<MaterialOption> := [
    MaterialOption("plastic", "Plastic", "#FF69B4", 0.1, 0.3, "$4.99"),
    MaterialOption("metal", "Metal", "#C0C0C0", 0.9, 0.2, "$9.99"),
    MaterialOption("wood", "Wood", "#8B4513", 0.0, 0.8, "$7.99"),
    MaterialOption("acrylic", "Acrylic", "#FFB6C1", 0.3, 0.1, "$6.99"),
    MaterialOption("resin", "Resin", "#E6E6FA", 0.2, 0.15, "$8.99")
  ]

  function MaterialIds(): (ids: seq<string>)
    ensures |ids| == |MaterialCatalogue|
    ensures forall i :: 0 <= i < |MaterialCatalogue| ==> ids[i] == MaterialCatalogue[i].id
  {
    seq(|MaterialCatalogue|, i requires 0 <= i < |MaterialCatalogue| => MaterialCatalogue[i].id)
  }

  /** A material button is highlighted when its id is the selected material's id. */
  predicate IsHighlighted(option: MaterialOption, selected: MaterialOption) {
    selected.id == option.id
  }

  lemma MaterialIdsDistinct()
    ensures Distinct(MaterialIds())
  {
    assert MaterialIds() == ["plastic", "metal", "wood", "acrylic", "resin"];
  }

  /** Whatever catalogue material is selected, exactly one button is highlighted. */
  lemma ExactlyOneMaterialHighlighted(selected: MaterialOption)
    requires selected in MaterialCatalogue
    ensures Count(MaterialIds(), selected.id) == 1
  {
    MaterialIdsDistinct();
    var i :| 0 <= i < |MaterialCatalogue| && MaterialCatalogue[i] == selected;
    assert MaterialIds()[i] == selected.id;
    CountDistinct(MaterialIds(), selected.id);
  }

  /** Metalness and roughness are fractions, as the renderer's material expects. */
  lemma MaterialFactorsInUnitRange()
    ensures forall m :: m in MaterialCatalogue ==>
      0.0 <= m.metalness <= 1.0 && 0.0 <= m.roughness <= 1.0
  {
  }

  /** Five materials; the first, the designer's initial material, is pink plastic. */
  lemma DefaultIsPlastic()
    ensures |MaterialCatalogue| == 5
    ensures MaterialCatalogue[0].id == "plastic" && MaterialCatalogue[0].color == "#FF69B4"
  {
  }

  /** The description line under the selector: each of five tests adds its line when the
      selected id matches. */
  function MaterialDescription(selected: MaterialOption): seq<string> {
    (if selected.id == "plastic" then ["Durable and lightweight, perfect for everyday use"] else [])
    + (if selected.id == "metal" then ["Premium metallic finish with excellent durability"] else [])
    + (if selected.id == "wood" then ["Natural wood texture for an eco-friendly choice"] else [])
    + (if selected.id == "acrylic" then ["Crystal clear with a glossy finish"] else [])
    + (if selected.id == "resin" then ["Smooth and colorful with endless possibilities"] else [])
  }

  /** A catalogue material gets exactly one description line; an id outside the catalogue none. */
  lemma OneMaterialDescription(selected: MaterialOption)
    ensures selected.id in MaterialIds() ==> |MaterialDescription(selected)| == 1
    ensures selected.id !in MaterialIds() ==> MaterialDescription(selected) == []
  {
    assert MaterialIds() == ["plastic", "metal", "wood", "acrylic", "resin"];
  }
}
