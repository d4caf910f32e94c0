/**
 * What a layer handler hands to planetiler's feature collector: a feature
 * builder with a layer, a geometry kind, a minimum zoom and pixel settings, and
 * the ordered attribute records the handler set on it. An attribute record is
 * scoped to the whole feature or to a fractional sub-range of a line
 * (`linearRange`); cutting the line at those ranges happens inside planetiler
 * and is not modelled, so a range is only a tag on the records set through it.
 */
module Features {
  import opened Structs
  import opened Sources

  /** An attribute value as the builder stores it (a Java Object). */
  datatype Value = VNull | VStr(s: string) | VInt(i: int) | VNum(x: real) | VBool(b: bool) | VStruct(st: Struct)

  /** `rawValue()`: the Java object a tag-tree node holds. */
  function RawValue(s: Struct): Value {
    match s
    case Null => VNull
    case Bool(b) => VBool(b)
    case Int(i) => VInt(i)
    case Num(x, _) => VNum(x)
    case Str(t) => VStr(t)
    case _ => VStruct(s)
  }

  /** A Java String that may be null. */
  function StrValue(o: Option<string>): Value {
    if o.Some? then VStr(o.value) else VNull
  }

  /** A Java Integer that may be null. */
  function IntValue(o: Option<int>): Value {
    if o.Some? then VInt(o.value) else VNull
  }

  /** A Java Double that may be null. */
  function NumValue(o: Option<real>): Value {
    if o.Some? then VNum(o.value) else VNull
  }

  /** What Java's string concatenation prints for a String that may be null. */
  function JavaText(o: Option<string>): string {
    if o.Some? then o.value else "null"
  }

  /** The closed-open interval [start, end) of fractions along a line. */
  datatype Range = Range(start: real, end: real)

  const FullRange: Range := Range(0.0, 1.0)

  datatype Scope = Whole | Part(range: Range)

  /**
   * Which setter overload set an attribute, with its thresholds:
   * `setAttr`, `setAttrWithMinzoom(zoom)`, `setAttrWithMinSize(size)` and
   * `setAttrWithMinSize(size, zoomIfBigEnough, zoomToShowAlways)`.
   */
  datatype Gate =
    | Always
    | MinZoom(zoom: int)
    | MinSize(size: real)
    | MinSizeBetween(size: real, zoomIfBig: int, zoomAlways: int)

  /** One call on the builder: an attribute, or a sub-range's own minimum zoom. */
  datatype Emit =
    | Attr(scope: Scope, key: string, value: Value, gate: Gate)
    | RangeMinZoom(range: Range, zoom: int)

  datatype Geometry = LineGeometry | PolygonGeometry | AnyGeometry

  /** Two steps of a handler run one after the other; a failing step fails both. */
  function Then(a: Option<seq<Emit>>, b: Option<seq<Emit>>): Option<seq<Emit>> {
    if a.Some? && b.Some? then Some(a.value + b.value) else None
  }

  /** Running two steps after `start` leaves `start` followed by both steps' records. */
  lemma ThenAppend(start: seq<Emit>, a: Option<seq<Emit>>, b: Option<seq<Emit>>)
    requires a.Some? && b.Some?
    ensures start + a.value + b.value == start + Then(a, b).value
  {
  }

  /** Every record satisfies `p`. */
  predicate AllRecords(es: seq<Emit>, p: Emit -> bool) {
    forall i | 0 <= i < |es| :: p(es[i])
  }

  /** A property of every record of two steps holds of every record of both run together. */
  lemma ThenRecords(a: Option<seq<Emit>>, b: Option<seq<Emit>>, p: Emit -> bool)
    requires a.Some? ==> AllRecords(a.value, p)
    requires b.Some? ==> AllRecords(b.value, p)
    ensures Then(a, b).Some? ==> AllRecords(Then(a, b).value, p)
  {
    if a.Some? && b.Some? {
      var r := Then(a, b).value;
      forall i | 0 <= i < |r| ensures p(r[i]) {
        if i >= |a.value| {
          assert r[i] == b.value[i - |a.value|];
        }
      }
    }
  }

  /** `inheritAttrsFromSource(keys)`: each key set to the source tag's raw value. */
  function Inherited(src: SourceFeature, keys: seq<string>, gate: Gate): (r: seq<Emit>)
  {
    if keys == [] then []
    else Inherited(src, keys[..|keys| - 1], gate) + [Attr(Whole, keys[|keys| - 1], RawValue(GetTag(src, keys[|keys| - 1])), gate)]
  }

  /** One record per key, in key order, each holding the source tag's raw value. */
  lemma {:induction false} InheritedRecords(src: SourceFeature, keys: seq<string>, gate: Gate)
    ensures |Inherited(src, keys, gate)| == |keys|
    ensures forall i | 0 <= i < |keys| ::
              Inherited(src, keys, gate)[i] == Attr(Whole, keys[i], RawValue(GetTag(src, keys[i])), gate)
    decreases |keys|
  {
    if keys != [] {
      InheritedRecords(src, keys[..|keys| - 1], gate);
    }
  }

  /** `putAttrs(map)`: each entry set, in the map's iteration order. */
  function Puts(attrs: seq<(string, Value)>, gate: Gate): (r: seq<Emit>)
  {
    if attrs == [] then []
    else Puts(attrs[..|attrs| - 1], gate) + [Attr(Whole, attrs[|attrs| - 1].0, attrs[|attrs| - 1].1, gate)]
  }

  /** One record per map entry, in the map's order, all with the same gate. */
  lemma {:induction false} PutsRecords(attrs: seq<(string, Value)>, gate: Gate)
    ensures |Puts(attrs, gate)| == |attrs|
    ensures forall i | 0 <= i < |attrs| :: Puts(attrs, gate)[i] == Attr(Whole, attrs[i].0, attrs[i].1, gate)
    decreases |attrs|
  {
    if attrs != [] {
      PutsRecords(attrs[..|attrs| - 1], gate);
    }
  }

  /** The record sets attribute `key` of the whole feature. */
  predicate SetsKey(e: Emit, key: string) {
    e.Attr? && e.scope == Whole && e.key == key
  }

  /** The builder keeps one value per key: a later set replaces an earlier one. */
  function Assign(m: map<string, Value>, e: Emit): map<string, Value> {
    if e.Attr? && e.scope == Whole then m[e.key := e.value] else m
  }

  function ApplyAll(m: map<string, Value>, es: seq<Emit>): map<string, Value>
    decreases |es|
  {
    if es == [] then m else ApplyAll(Assign(m, es[0]), es[1..])
  }

  /** The whole-feature attributes a sequence of records leaves behind. */
  function Attributes(es: seq<Emit>): map<string, Value> {
    ApplyAll(map[], es)
  }

  /** Records that never set `key` leave its value as it was. */
  lemma {:induction false} ApplyUntouched(m: map<string, Value>, es: seq<Emit>, key: string)
    requires forall j | 0 <= j < |es| :: !SetsKey(es[j], key)
    ensures (key in ApplyAll(m, es)) == (key in m)
    ensures key in m ==> ApplyAll(m, es)[key] == m[key]
    decreases |es|
  {
    if es != [] {
      ApplyUntouched(Assign(m, es[0]), es[1..], key);
    }
  }

  /** The last record that sets `key` decides its value. */
  lemma {:induction false} ApplyLast(m: map<string, Value>, es: seq<Emit>, i: int, key: string)
    requires 0 <= i < |es| && SetsKey(es[i], key)
    requires forall j | i < j < |es| :: !SetsKey(es[j], key)
    ensures key in ApplyAll(m, es) && ApplyAll(m, es)[key] == es[i].value
    decreases |es|
  {
    if i == 0 {
      ApplyUntouched(Assign(m, es[0]), es[1..], key);
    } else {
      ApplyLast(Assign(m, es[0]), es[1..], i - 1, key);
    }
  }

  /** planetiler's feature builder, reduced to what the handlers set on it. */
  class Feature {
    const layer: string
    const geometry: Geometry
    var minZoom: Option<int>
    var minPixelSize: Option<real>
    var pixelTolerance: Option<real>
    var bufferPixels: Option<real>
    var emits: seq<Emit>

    /** `features.line(layer)`, `polygon(layer)` or `anyGeometry(layer)`. */
    constructor (layer: string, geometry: Geometry)
      ensures this.layer == layer && this.geometry == geometry
      ensures minZoom == None && minPixelSize == None
      ensures pixelTolerance == None && bufferPixels == None
      ensures emits == []
    {
      this.layer := layer;
      this.geometry := geometry;
      minZoom := None;
      minPixelSize := None;
      pixelTolerance := None;
      bufferPixels := None;
      emits := [];
    }

    method SetMinZoom(zoom: int)
      modifies this`minZoom
      ensures minZoom == Some(zoom)
    {
      minZoom := Some(zoom);
    }

    method SetMinPixelSize(size: real)
      modifies this`minPixelSize
      ensures minPixelSize == Some(size)
    {
      minPixelSize := Some(size);
    }

    method SetPixelTolerance(tolerance: real)
      modifies this`pixelTolerance
      ensures pixelTolerance == Some(tolerance)
    {
      pixelTolerance := Some(tolerance);
    }

    method SetBufferPixels(pixels: real)
      modifies this`bufferPixels
      ensures bufferPixels == Some(pixels)
    {
      bufferPixels := Some(pixels);
    }

    method SetAttr(scope: Scope, key: string, value: Value, gate: Gate)
      modifies this`emits
      ensures emits == old(emits) + [Attr(scope, key, value, gate)]
    {
      emits := emits + [Attr(scope, key, value, gate)];
    }

    /** `linearRange(range).setMinZoom(zoom)`. */
    method SetRangeMinZoom(range: Range, zoom: int)
      modifies this`emits
      ensures emits == old(emits) + [RangeMinZoom(range, zoom)]
    {
      emits := emits + [RangeMinZoom(range, zoom)];
    }

    method InheritAttrsFromSource(src: SourceFeature, keys: seq<string>, gate: Gate)
      modifies this`emits
      ensures emits == old(emits) + Inherited(src, keys, gate)
    {
      for i := 0 to |keys|
        invariant emits == old(emits) + Inherited(src, keys[..i], gate)
      {
        assert keys[..i + 1][..i] == keys[..i];
        SetAttr(Whole, keys[i], RawValue(GetTag(src, keys[i])), gate);
      }
      assert keys[..|keys|] == keys;
    }

    method PutAttrs(attrs: seq<(string, Value)>, gate: Gate)
      modifies this`emits
      ensures emits == old(emits) + Puts(attrs, gate)
    {
      for i := 0 to |attrs|
        invariant emits == old(emits) + Puts(attrs[..i], gate)
      {
        assert attrs[..i + 1][..i] == attrs[..i];
        SetAttr(Whole, attrs[i].0, attrs[i].1, gate);
      }
      assert attrs[..|attrs|] == attrs;
    }
  }
}
