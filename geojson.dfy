/**
 * The boundary document of the map and the overlay `get_highlights` builds
 * from it: a copy of the document whose 'features' are those of the selected
 * countries, looked up by their 'geounit' property.
 */
module GeoJson {

  /** A boundary feature: its properties.geounit key and the rest of the feature, kept as raw text. */
  datatype Feature = Feature(geounit: string, geometry: string)

  /** A top-level member of the document: the feature list, or any other JSON value as raw text. */
  datatype Member = FeatureList(features: seq<Feature>) | Value(json: string)

  /** The top-level object of the document: key to member. */
  type Document = map<string, Member>

  const FeaturesKey := "features"

  predicate HasFeatures(doc: Document)
  {
    FeaturesKey in doc && doc[FeaturesKey].FeatureList?
  }

  /** `{feature['properties']['geounit']: feature for feature in features}`:
      every geounit maps to the last feature that carries it. */
  function DistrictLookup(fs: seq<Feature>): (m: map<string, Feature>)
    ensures forall i :: 0 <= i < |fs| ==> fs[i].geounit in m
    ensures forall g :: g in m ==> m[g].geounit == g && m[g] in fs
  {
    if fs == [] then map[]
    else
      var init := fs[..|fs| - 1];
      var last := fs[|fs| - 1];
      assert forall i :: 0 <= i < |init| ==> init[i] == fs[i];
      DistrictLookup(init)[last.geounit := last]
  }

  /** A feature whose geounit no later feature repeats is the one the lookup keeps. */
  lemma {:induction false} LastFeatureWins(fs: seq<Feature>, i: nat)
    requires i < |fs|
    requires forall j :: i < j < |fs| ==> fs[j].geounit != fs[i].geounit
    ensures DistrictLookup(fs)[fs[i].geounit] == fs[i]
  {
    var init := fs[..|fs| - 1];
    if i < |fs| - 1 {
      assert init[i] == fs[i];
      LastFeatureWins(init, i);
    }
  }

  /** The lookup of the document's own features. */
  function Lookup(doc: Document): map<string, Feature>
    requires HasFeatures(doc)
  {
    DistrictLookup(doc[FeaturesKey].features)
  }

  /** Every name of the selection has a feature. */
  predicate AllMapped(doc: Document, selected: seq<string>)
  {
    HasFeatures(doc) && forall s :: s in selected ==> s in Lookup(doc)
  }

  /** `[district_lookup[s] for s in selected]`. */
  function Pick(lookup: map<string, Feature>, selected: seq<string>): (fs: seq<Feature>)
    requires forall s :: s in selected ==> s in lookup
    ensures |fs| == |selected|
    ensures forall i :: 0 <= i < |selected| ==> fs[i] == lookup[selected[i]]
  {
    if selected == [] then [] else [lookup[selected[0]]] + Pick(lookup, selected[1..])
  }

  /** The overlay document: every other top-level member copied, 'features'
      replaced by the selected countries' features in selection order. */
  function HighlightDoc(doc: Document, selected: seq<string>): (h: Document)
    requires AllMapped(doc, selected)
    ensures h.Keys == doc.Keys
    ensures forall k :: k in doc && k != FeaturesKey ==> h[k] == doc[k]
    ensures h[FeaturesKey].FeatureList? && |h[FeaturesKey].features| == |selected|
    ensures forall i :: 0 <= i < |selected| ==>
              h[FeaturesKey].features[i].geounit == selected[i] &&
              h[FeaturesKey].features[i] in doc[FeaturesKey].features
  {
    map k | k in doc :: if k == FeaturesKey then FeatureList(Pick(Lookup(doc), selected)) else doc[k]
  }

  /** `get_highlights`: builds the overlay key by key. */
  method Highlights(doc: Document, selected: seq<string>) returns (h: Document)
    requires AllMapped(doc, selected)
    ensures h == HighlightDoc(doc, selected)
  {
    var lookup := Lookup(doc);
    h := map[];
    var todo := doc.Keys;
    while todo != {}
      invariant todo <= doc.Keys
      invariant h.Keys == doc.Keys - todo
      invariant forall k :: k in h ==> h[k] == HighlightDoc(doc, selected)[k]
      decreases todo
    {
      var k :| k in todo;
      if k != FeaturesKey {
        h := h[k := doc[k]];
      } else {
        h := h[k := FeatureList(Pick(lookup, selected))];
      }
      todo := todo - {k};
    }
  }
}
