/**
 * The colour picker of `PopularProductSection`: each product card shows the
 * image of the colour chosen for it, and highlights the chosen swatch.
 */
module PopularProducts {
  import opened Wrappers

  datatype Variant = Variant(color: string, image: string)

  /** A product card; its price is only displayed and is not part of this model. */
  datatype Product = Product(id: string, name: string, variants: seq<Variant>)

  /** No two swatches of a product share a colour. */
  predicate DistinctColors(p: Product)
  {
    forall i, j :: 0 <= i < j < |p.variants| ==> p.variants[i].color != p.variants[j].color
  }

  /** The three products of the section, in order. */
  const Catalogue: seq<Product> := [
    Product("1", "KODNUM BLACK", [
      Variant("#000", "/assets/images/shirt/tshirt-black.png"),
      Variant("#efefef", "/assets/images/shirt/tshirt-white.png"),
      Variant("#D2B48C", "/assets/images/shirt/tshirt-sand.png"),
      Variant("#5d2125", "/assets/images/shirt/tshirt-maroon.png")]),
    Product("2", "SWEATER", [
      Variant("#656565", "/assets/images/shirt/sweater-grey.png"),
      Variant("#efefef", "/assets/images/shirt/sweater-white.png"),
      Variant("#D2B48C", "/assets/images/shirt/sweater-sand.png"),
      Variant("#5d2125", "/assets/images/shirt/sweater-maroon.png")]),
    Product("3", "KODNUM BLACK", [
      Variant("#000", "/assets/images/shirt/tshirt-black.png"),
      Variant("#efefef", "/assets/images/shirt/tshirt-white.png"),
      Variant("#D2B48C", "/assets/images/shirt/tshirt-sand.png"),
      Variant("#5d2125", "/assets/images/shirt/tshirt-maroon.png")])
  ]

  /**
   * Every catalogue product has swatches with distinct, non-empty colours,
   * so `SelectedImage` can be asked of each of them and every swatch shows
   * its own image.
   */
  lemma CatalogueWellFormed()
    ensures forall p :: p in Catalogue ==> |p.variants| > 0 && DistinctColors(p)
    ensures forall p, v :: p in Catalogue && v in p.variants ==> v.color != ""
  {
    forall p | p in Catalogue
      ensures |p.variants| > 0 && DistinctColors(p)
      ensures forall v :: v in p.variants ==> v.color != ""
    {
      assert p == Catalogue[0] || p == Catalogue[1] || p == Catalogue[2];
    }
  }

  /** `variants.find((v) => v.color === color)`: the first variant of that colour. */
  function FindVariant(variants: seq<Variant>, color: string): (r: Option<nat>)
    ensures r.Some? <==> exists i :: 0 <= i < |variants| && variants[i].color == color
    ensures r.Some? ==> r.value < |variants| && variants[r.value].color == color
    ensures r.Some? ==> forall j :: 0 <= j < r.value ==> variants[j].color != color
  {
    if variants == [] then None
    else if variants[0].color == color then Some(0)
    else
      var rest := FindVariant(variants[1..], color);
      if rest.Some? then Some(rest.value + 1) else None
  }

  /**
   * `getSelectedImage`: the colour chosen for the product, or the first
   * variant's when none (or '') was chosen; the image of the first variant
   * of that colour, or the first variant's image when none matches.
   */
  function SelectedImage(selectedColors: map<string, string>, p: Product): (image: string)
    requires |p.variants| > 0
    ensures exists i :: 0 <= i < |p.variants| && p.variants[i].image == image
  {
    var color := if p.id in selectedColors && selectedColors[p.id] != "" then selectedColors[p.id] else p.variants[0].color;
    var found := FindVariant(p.variants, color);
    if found.Some? then p.variants[found.value].image else p.variants[0].image
  }

  /** With no choice, or an empty one, the first variant's image is shown. */
  lemma DefaultImage(selectedColors: map<string, string>, p: Product)
    requires |p.variants| > 0
    requires p.id !in selectedColors || selectedColors[p.id] == ""
    ensures SelectedImage(selectedColors, p) == p.variants[0].image
  {
    assert FindVariant(p.variants, p.variants[0].color) == Some(0);
  }

  /** A chosen colour that some variant has shows the first such variant's image. */
  lemma MatchingImage(selectedColors: map<string, string>, p: Product, i: nat)
    requires i < |p.variants|
    requires p.id in selectedColors && selectedColors[p.id] != "" && selectedColors[p.id] == p.variants[i].color
    requires forall j :: 0 <= j < i ==> p.variants[j].color != p.variants[i].color
    ensures SelectedImage(selectedColors, p) == p.variants[i].image
  {
    var found := FindVariant(p.variants, p.variants[i].color);
    assert found.Some?;
  }

  /** A chosen colour that no variant has falls back to the first variant's image. */
  lemma UnknownColorImage(selectedColors: map<string, string>, p: Product)
    requires |p.variants| > 0
    requires p.id in selectedColors && selectedColors[p.id] != ""
    requires forall j :: 0 <= j < |p.variants| ==> p.variants[j].color != selectedColors[p.id]
    ensures SelectedImage(selectedColors, p) == p.variants[0].image
  {
  }

  /** A swatch is highlighted only when the product's explicit choice is its colour. */
  predicate IsSwatchSelected(selectedColors: map<string, string>, p: Product, v: Variant)
  {
    p.id in selectedColors && selectedColors[p.id] == v.color
  }

  /**
   * Clicking a swatch of a product whose colours are distinct shows that
   * swatch's image and highlights that swatch and no other one; the other
   * products keep their image.
   */
  lemma SwatchClick(selectedColors: map<string, string>, p: Product, i: nat, q: Product)
    requires i < |p.variants| && DistinctColors(p) && p.variants[i].color != ""
    requires |q.variants| > 0 && q.id != p.id
    ensures SelectedImage(selectedColors[p.id := p.variants[i].color], p) == p.variants[i].image
    ensures forall j :: 0 <= j < |p.variants| ==>
              (IsSwatchSelected(selectedColors[p.id := p.variants[i].color], p, p.variants[j]) <==> j == i)
    ensures SelectedImage(selectedColors[p.id := p.variants[i].color], q) == SelectedImage(selectedColors, q)
  {
    var chosen := selectedColors[p.id := p.variants[i].color];
    MatchingImage(chosen, p, i);
    assert q.id in chosen <==> q.id in selectedColors;
    assert q.id in chosen ==> chosen[q.id] == selectedColors[q.id];
  }

  /** The section's state: the colour chosen for each product id. */
  class ColorPicker {
    var selectedColors: map<string, string>

    constructor ()
      ensures selectedColors == map[]
    {
      selectedColors := map[];
    }

    /** `handleColorSelect`: records the colour for that product and leaves the others as they were. */
    method SelectColor(productId: string, color: string)
      modifies this
      ensures selectedColors == old(selectedColors)[productId := color]
      ensures forall id :: id != productId ==>
                (id in selectedColors <==> id in old(selectedColors))
                && (id in selectedColors ==> selectedColors[id] == old(selectedColors)[id])
    {
      selectedColors := selectedColors[productId := color];
    }

  }
}
