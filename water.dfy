/**
 * The Overture water handler. A water feature keeps whatever geometry it has;
 * its minimum zoom comes from its class and is then pulled earlier or later by
 * its geometry kind, and its detail attributes and names wait for a zoom at
 * which an 8-pixel feature shows.
 */
module Water {
  import opened Structs
  import opened Sources
  import opened Features
  import BaseLayer

  const Layer: string := "water"

  /** Writes layer `water` from source features of type `water`. */
  const Handler: BaseLayer.Handler := BaseLayer.Handler(Layer, ["water"])

  /** The class table: standing and open water first, rivers, canals, then the rest. */
  function ClassZoom(cls: Option<string>): int {
    match cls
    case Some("lake") | Some("ocean") | Some("reservoir") => 0
    case Some("river") => 9
    case Some("canal") => 12
    case _ => 13
  }

  /**
   * The feature's minimum zoom: the class table, adjusted by the first of
   * point, polygon or line that the feature is.
   */
  function WaterMinZoom(cls: Option<string>, isPoint: bool, canBePolygon: bool, canBeLine: bool): int {
    var table := ClassZoom(cls);
    if isPoint then (if cls == Some("ocean") then 0 else if table > 8 then table else 8)
    else if canBePolygon then (if table < 6 then table else 6)
    else if canBeLine then (if table > 9 then table else 9)
    else table
  }

  /** `Math.clamp(zoom, 6, 13)`: the zoom at which water details appear. */
  function DetailZoom(pixelZoom: int): int {
    if pixelZoom < 6 then 6 else if pixelZoom > 13 then 13 else pixelZoom
  }

  /** Names go on points and lines, not on features that are only polygons. */
  predicate HasNames(src: SourceFeature) {
    src.isPoint || src.canBeLine
  }

  /**
   * Every record `processFeature` sets: `subtype` and `class`, the salt,
   * intermittent and level details at the detail zoom, then the names at the
   * detail zoom. `pixelZoom` is what the builder's `getMinZoomForPixelSize(8)`
   * answers for the feature.
   */
  function WaterEmits(src: SourceFeature, pixelZoom: int): seq<Emit> {
    var detail := MinZoom(DetailZoom(pixelZoom));
    Inherited(src, ["subtype", "class"], Always) +
    Inherited(src, ["is_salt", "is_intermittent", "level"], detail) +
    (if HasNames(src) then Puts(BaseLayer.NamesSpec(GetTag(src, "names")), detail) else [])
  }

  /**
   * The minimum feature size `postProcess` merges with: 8 below zoom 13, else
   * the configured size. The contract is the choice itself, as
   * overturelayers/Water.java:64 makes it.
   */
  function PostProcessMinSize(zoom: int, configured: real): (size: real)
    ensures zoom < 13 ==> size == 8.0
    ensures zoom >= 13 ==> size == configured
  {
    if zoom < 13 then 8.0 else configured
  }

  /** `processFeature` for a source feature of type `water`. */
  method ProcessFeature(src: SourceFeature, pixelZoom: int) returns (f: Feature)
    ensures fresh(f) && f.layer == Layer && f.geometry == AnyGeometry
    ensures f.minZoom == Some(WaterMinZoom(GetString(src, "class"), src.isPoint, src.canBePolygon, src.canBeLine))
    ensures f.minPixelSize == Some(0.0) && f.pixelTolerance == None && f.bufferPixels == None
    ensures f.emits == WaterEmits(src, pixelZoom)
  {
    var cls := GetString(src, "class");
    var minzoom := ClassZoom(cls);
    if src.isPoint {
      minzoom := if cls == Some("ocean") then 0 else if 8 > minzoom then 8 else minzoom;
    } else if src.canBePolygon {
      minzoom := if minzoom < 6 then minzoom else 6;
    } else if src.canBeLine {
      minzoom := if 9 > minzoom then 9 else minzoom;
    }

    assert minzoom == WaterMinZoom(cls, src.isPoint, src.canBePolygon, src.canBeLine);

    f := new Feature(Layer, AnyGeometry);
    f.SetMinZoom(minzoom);
    f.SetMinPixelSize(0.0);
    f.InheritAttrsFromSource(src, ["subtype", "class"], Always);
    assert f.emits == Inherited(src, ["subtype", "class"], Always);
    var detail := DetailZoom(pixelZoom);
    f.InheritAttrsFromSource(src, ["is_salt", "is_intermittent", "level"], MinZoom(detail));
    if src.isPoint || src.canBeLine {
      var names := BaseLayer.FeatureNames(src);
      f.PutAttrs(names, MinZoom(detail));
    }
    assert f.emits == Inherited(src, ["subtype", "class"], Always) +
                      Inherited(src, ["is_salt", "is_intermittent", "level"], MinZoom(detail)) +
                      (if HasNames(src) then Puts(BaseLayer.NamesSpec(GetTag(src, "names")), MinZoom(detail)) else []);
  }

  /** The class table gives 0, 9, 12 or 13, and 13 exactly for the classes it does not list. */
  lemma ClassZoomTable(cls: Option<string>)
    ensures ClassZoom(cls) in {0, 9, 12, 13}
    ensures ClassZoom(cls) == 13 <==> cls !in {Some("lake"), Some("ocean"), Some("reservoir"), Some("river"), Some("canal")}
  {
  }

  /**
   * How the geometry kind moves the class zoom: an ocean point shows from zoom
   * 0 and any other point no earlier than 8; a polygon shows no later than 6; a
   * line no earlier than 9; points and lines never earlier than their class,
   * polygons never later; anything else keeps its class zoom.
   */
  lemma WaterMinZoomCases(cls: Option<string>, isPoint: bool, canBePolygon: bool, canBeLine: bool)
    ensures var z := WaterMinZoom(cls, isPoint, canBePolygon, canBeLine);
            var table := ClassZoom(cls);
            && 0 <= z <= 13
            && (isPoint && cls == Some("ocean") ==> z == 0)
            && (isPoint && cls != Some("ocean") ==> z >= 8 && z >= table && (z == 8 || z == table))
            && (!isPoint && canBePolygon ==> z <= 6 && z <= table && (z == 6 || z == table))
            && (!isPoint && !canBePolygon && canBeLine ==> z >= 9 && z >= table && (z == 9 || z == table))
            && (!isPoint && !canBePolygon && !canBeLine ==> z == table)
  {
  }

  /** The detail zoom lies in [6, 13] and is the pixel-size zoom whenever that does. */
  lemma DetailZoomClamp(pixelZoom: int)
    ensures 6 <= DetailZoom(pixelZoom) <= 13
    ensures 6 <= pixelZoom <= 13 ==> DetailZoom(pixelZoom) == pixelZoom
    ensures pixelZoom < 6 ==> DetailZoom(pixelZoom) == 6
    ensures pixelZoom > 13 ==> DetailZoom(pixelZoom) == 13
  {
  }

  /**
   * `subtype` and `class` always show; every other record waits for the
   * detail zoom, which lies in [6, 13].
   */
  lemma WaterGates(src: SourceFeature, pixelZoom: int)
    ensures var es := WaterEmits(src, pixelZoom);
            && |es| >= 5
            && es[0] == Attr(Whole, "subtype", RawValue(GetTag(src, "subtype")), Always)
            && es[1] == Attr(Whole, "class", RawValue(GetTag(src, "class")), Always)
            && (forall i | 2 <= i < |es| :: es[i].Attr? && es[i].scope == Whole && es[i].gate == MinZoom(DetailZoom(pixelZoom)))
            && 6 <= DetailZoom(pixelZoom) <= 13
  {
    var detail := MinZoom(DetailZoom(pixelZoom));
    InheritedRecords(src, ["subtype", "class"], Always);
    InheritedRecords(src, ["is_salt", "is_intermittent", "level"], detail);
    PutsRecords(BaseLayer.NamesSpec(GetTag(src, "names")), detail);
  }

  /** A feature that is only a polygon gets no name attribute. */
  lemma NoNamesOnPolygons(src: SourceFeature, pixelZoom: int)
    requires !HasNames(src)
    ensures forall i | 0 <= i < |WaterEmits(src, pixelZoom)| ::
              WaterEmits(src, pixelZoom)[i].Attr? && !BaseLayer.IsNameKey(WaterEmits(src, pixelZoom)[i].key)
  {
    var detail := MinZoom(DetailZoom(pixelZoom));
    var first := Inherited(src, ["subtype", "class"], Always);
    var second := Inherited(src, ["is_salt", "is_intermittent", "level"], detail);
    InheritedRecords(src, ["subtype", "class"], Always);
    InheritedRecords(src, ["is_salt", "is_intermittent", "level"], detail);
    var es := WaterEmits(src, pixelZoom);
    assert es == first + second + [];
    var keys := ["subtype", "class", "is_salt", "is_intermittent", "level"];
    forall i | 0 <= i < |es| ensures es[i].Attr? && !BaseLayer.IsNameKey(es[i].key) {
      if i >= 2 {
        assert es[i] == second[i - 2];
      }
      assert es[i].key == keys[i] && keys[i][0] != 'n';
    }
  }

  /** A point or a line gets its whole names map, in order, after the five inherited attributes. */
  lemma NamesOnPointsAndLines(src: SourceFeature, pixelZoom: int)
    requires HasNames(src)
    ensures var names := BaseLayer.NamesSpec(GetTag(src, "names"));
            var es := WaterEmits(src, pixelZoom);
            |es| == 5 + |names| &&
            forall i | 0 <= i < |names| :: es[5 + i] == Attr(Whole, names[i].0, names[i].1, MinZoom(DetailZoom(pixelZoom)))
  {
    var detail := MinZoom(DetailZoom(pixelZoom));
    var names := BaseLayer.NamesSpec(GetTag(src, "names"));
    InheritedRecords(src, ["subtype", "class"], Always);
    InheritedRecords(src, ["is_salt", "is_intermittent", "level"], detail);
    PutsRecords(names, detail);
    var head := Inherited(src, ["subtype", "class"], Always) + Inherited(src, ["is_salt", "is_intermittent", "level"], detail);
    var es := WaterEmits(src, pixelZoom);
    assert es == head + Puts(names, detail);
    assert |head| == 5;
    forall i | 0 <= i < |names| ensures es[5 + i] == Attr(Whole, names[i].0, names[i].1, detail) {
      assert es[5 + i] == Puts(names, detail)[i];
    }
  }

  /** `name()` is `water` and `filter()` accepts exactly the type `water`. */
  lemma WaterHandler(src: SourceFeature)
    ensures Handler.Name() == "water"
    ensures Handler.Filter(src) <==> GetString(src, "type") == Some("water")
  {
  }
}
