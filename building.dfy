/**
 * The Overture building handler. Buildings and building parts become polygons
 * in layer `building`: whole buildings from zoom 13, parts from zoom 14. Their
 * shape and roof details and their names show from zoom 14; the `parts` marker
 * has no gate and shows whenever the feature does.
 */
module Building {
  import opened Structs
  import opened Sources
  import opened Features
  import BaseLayer

  const Layer: string := "building"

  /** Writes layer `building` from source features of type `building` or `building_part`. */
  const Handler: BaseLayer.Handler := BaseLayer.Handler(Layer, ["building", "building_part"])

  /** The detail attributes copied from the source, in the handler's order. */
  const DetailKeys: seq<string> := [
    "subtype", "class", "level", "height", "num_floors", "min_height", "min_floor",
    "facade_color", "facade_material", "roof_material", "roof_shape", "roof_direction",
    "roof_orientation", "roof_color", "eave_height"]

  /** The feature is a building part rather than a whole building. */
  predicate IsPart(src: SourceFeature) {
    HasTag(src, "type", "building_part")
  }

  /** Parts show from zoom 14, whole buildings from zoom 13. */
  function BuildingMinZoom(src: SourceFeature): int {
    if IsPart(src) then 14 else 13
  }

  /** The `parts` marker: `is` for a part, `has` for a building with parts, else null. */
  function PartsValue(src: SourceFeature): Value {
    if IsPart(src) then VStr("is") else if GetBoolean(src, "has_parts") then VStr("has") else VNull
  }

  /**
   * Every record `processFeature` sets: the detail attributes at zoom 14, the
   * `parts` marker, then the names at zoom 14.
   */
  function BuildingEmits(src: SourceFeature): seq<Emit> {
    Inherited(src, DetailKeys, MinZoom(14)) +
    [Attr(Whole, "parts", PartsValue(src), Always)] +
    Puts(BaseLayer.NamesSpec(GetTag(src, "names")), MinZoom(14))
  }

  /** `processFeature` for a building or building part. */
  method ProcessFeature(src: SourceFeature) returns (f: Feature)
    ensures fresh(f) && f.layer == Layer && f.geometry == PolygonGeometry
    ensures f.minZoom == Some(BuildingMinZoom(src)) && f.minPixelSize == Some(2.0)
    ensures f.pixelTolerance == None && f.bufferPixels == None
    ensures f.emits == BuildingEmits(src)
  {
    var isPart := HasTag(src, "type", "building_part");
    f := new Feature(Layer, PolygonGeometry);
    f.SetMinZoom(if isPart then 14 else 13);
    f.SetMinPixelSize(2.0);
    f.InheritAttrsFromSource(src, DetailKeys, MinZoom(14));
    assert f.emits == Inherited(src, DetailKeys, MinZoom(14));
    f.SetAttr(Whole, "parts", if isPart then VStr("is") else if GetBoolean(src, "has_parts") then VStr("has") else VNull, Always);
    assert f.emits == Inherited(src, DetailKeys, MinZoom(14)) + [Attr(Whole, "parts", PartsValue(src), Always)];
    var names := BaseLayer.FeatureNames(src);
    f.PutAttrs(names, MinZoom(14));
  }

  /** `parts` is `is` exactly for parts, `has` exactly for whole buildings flagged `has_parts`, else null. */
  lemma PartsCases(src: SourceFeature)
    ensures PartsValue(src) == VStr("is") <==> IsPart(src)
    ensures PartsValue(src) == VStr("has") <==> !IsPart(src) && GetBoolean(src, "has_parts")
    ensures PartsValue(src) == VNull <==> !IsPart(src) && !GetBoolean(src, "has_parts")
  {
  }

  /**
   * No attribute shows before the building itself: every gated record waits
   * for zoom 14, which is at least the building's minimum zoom, and the
   * `parts` marker has no gate.
   */
  lemma GatesNoEarlierThanFeature(src: SourceFeature)
    ensures forall i | 0 <= i < |BuildingEmits(src)| ::
              var e := BuildingEmits(src)[i];
              e.Attr? && e.scope == Whole &&
              ((e.key == "parts" && e.gate == Always) || e.gate == MinZoom(14))
    ensures 13 <= BuildingMinZoom(src) <= 14
  {
    var names := BaseLayer.NamesSpec(GetTag(src, "names"));
    var head := Inherited(src, DetailKeys, MinZoom(14)) + [Attr(Whole, "parts", PartsValue(src), Always)];
    InheritedRecords(src, DetailKeys, MinZoom(14));
    PutsRecords(names, MinZoom(14));
    var es := BuildingEmits(src);
    forall i | |head| <= i < |es| ensures es[i] == Puts(names, MinZoom(14))[i - |head|] {
    }
  }

  /** The `parts` attribute the feature ends up with is the marker: no name or detail key overrides it. */
  lemma PartsAttribute(src: SourceFeature)
    ensures "parts" in Attributes(BuildingEmits(src))
    ensures Attributes(BuildingEmits(src))["parts"] == PartsValue(src)
  {
    var names := BaseLayer.NamesSpec(GetTag(src, "names"));
    var es := BuildingEmits(src);
    var n := |DetailKeys|;
    InheritedRecords(src, DetailKeys, MinZoom(14));
    PutsRecords(names, MinZoom(14));
    BaseLayer.NamesKeys(GetTag(src, "names"));
    assert es[n] == Attr(Whole, "parts", PartsValue(src), Always);
    forall j | n < j < |es| ensures !SetsKey(es[j], "parts") {
      assert es[j] == Puts(names, MinZoom(14))[j - n - 1];
      assert BaseLayer.IsNameKey(names[j - n - 1].0);
      assert "parts"[0] != 'n';
    }
    ApplyLast(map[], es, n, "parts");
  }

  /** `name()` is `building` and `filter()` accepts exactly the types `building` and `building_part`. */
  lemma BuildingHandler(src: SourceFeature)
    ensures Handler.Name() == "building"
    ensures Handler.Filter(src) <==> GetString(src, "type") in {Some("building"), Some("building_part")}
  {
  }
}
