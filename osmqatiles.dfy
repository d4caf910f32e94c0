/**
 * The OSM QA tiles profile: every tagged OpenStreetMap element becomes a
 * feature in layer `osm` carrying all of its tags plus `@`-prefixed metadata
 * (element id and kind, and, when the element has them, version, timestamp,
 * changeset, user id and user name), where a zero or blank value reads as null.
 */
module OsmQaTiles {
  import opened Structs
  import opened Sources
  import opened Features

  const Layer: string := "osm"

  /** `@type`: the element kind's name, null for a kind that is not a node, way or relation. */
  function TypeName(kind: ElementKind): Value {
    match kind
    case Node => VStr("node")
    case Way => VStr("way")
    case Relation => VStr("relation")
    case OtherElement => VNull
  }

  /** A metadata number that reads as null when it is 0. */
  function NullIfZero(x: int): Value {
    if x == 0 then VNull else VInt(x)
  }

  /**
   * `Character.isWhitespace`: the Unicode space, line and paragraph separators
   * other than the no-break spaces, plus tab, line feed, vertical tab, form
   * feed, carriage return and the four information separators.
   */
  predicate IsWhitespace(c: char) {
    var u := c as int;
    || 0x09 <= u <= 0x0D
    || 0x1C <= u <= 0x20
    || u == 0x1680
    || (0x2000 <= u <= 0x200A && u != 0x2007)
    || u == 0x2028 || u == 0x2029 || u == 0x205F || u == 0x3000
  }

  /** `String.isBlank`: empty or only whitespace. */
  predicate IsBlank(s: string) {
    forall i | 0 <= i < |s| :: IsWhitespace(s[i])
  }

  /** `@user`: the user name, null when it is missing or blank. */
  function UserValue(user: Option<string>): Value {
    if user.None? || IsBlank(user.value) then VNull else VStr(user.value)
  }

  /** The source tags as attribute values, in the tags' order. */
  function TagValues(tags: seq<(string, Struct)>): seq<(string, Value)> {
    seq(|tags|, i requires 0 <= i < |tags| => (tags[i].0, RawValue(tags[i].1)))
  }

  /** The metadata records of an element that has an `info` block, in the handler's order. */
  function MetadataEmits(info: Info): seq<Emit> {
    [Attr(Whole, "@version", NullIfZero(info.version), Always),
     Attr(Whole, "@timestamp", NullIfZero(info.timestamp), Always),
     Attr(Whole, "@changeset", NullIfZero(info.changeset), Always),
     Attr(Whole, "@uid", NullIfZero(info.userId), Always),
     Attr(Whole, "@user", UserValue(info.user), Always)]
  }

  /**
   * Every record `processFeature` sets: the tags, `@id`, `@type`, then the
   * metadata when there is an `info` block. No feature for an untagged
   * element or a feature that was not read from OpenStreetMap.
   */
  function QaEmits(src: SourceFeature): Option<seq<Emit>> {
    if |src.tags| == 0 || src.osm.None? then None
    else
      var element := src.osm.value;
      Some(Puts(TagValues(src.tags), Always) +
           [Attr(Whole, "@id", VInt(src.id), Always), Attr(Whole, "@type", TypeName(element.kind), Always)] +
           (if element.info.Some? then MetadataEmits(element.info.value) else []))
  }

  /** The `info` block's attributes, set one after another on the feature. */
  method PutMetadata(f: Feature, info: Info)
    modifies f`emits
    ensures f.emits == old(f.emits) + MetadataEmits(info)
  {
    ghost var m := MetadataEmits(info);
    f.SetAttr(Whole, "@version", if info.version == 0 then VNull else VInt(info.version), Always);
    assert f.emits == old(f.emits) + [m[0]];
    f.SetAttr(Whole, "@timestamp", if info.timestamp == 0 then VNull else VInt(info.timestamp), Always);
    assert f.emits == old(f.emits) + [m[0], m[1]];
    f.SetAttr(Whole, "@changeset", if info.changeset == 0 then VNull else VInt(info.changeset), Always);
    assert f.emits == old(f.emits) + [m[0], m[1], m[2]];
    f.SetAttr(Whole, "@uid", if info.userId == 0 then VNull else VInt(info.userId), Always);
    assert f.emits == old(f.emits) + [m[0], m[1], m[2], m[3]];
    f.SetAttr(Whole, "@user", if info.user.None? || IsBlank(info.user.value) then VNull else VStr(info.user.value), Always);
    assert f.emits == old(f.emits) + [m[0], m[1], m[2], m[3], m[4]];
  }

  /** `processFeature`: the element as a feature of any geometry in layer `osm`, or no feature. */
  method ProcessFeature(src: SourceFeature) returns (f: Feature?)
    ensures f == null <==> QaEmits(src).None?
    ensures f != null ==> fresh(f) && f.layer == Layer && f.geometry == AnyGeometry
    ensures f != null ==> f.minZoom == None && f.minPixelSize == Some(0.0)
    ensures f != null ==> f.pixelTolerance == Some(0.0) && f.bufferPixels == Some(0.0)
    ensures f != null ==> f.emits == QaEmits(src).value
  {
    if |src.tags| == 0 || src.osm.None? {
      return null;
    }
    var element := src.osm.value;
    f := new Feature(Layer, AnyGeometry);
    f.SetMinPixelSize(0.0);
    f.SetPixelTolerance(0.0);
    f.SetBufferPixels(0.0);
    f.PutAttrs(TagValues(src.tags), Always);
    assert f.emits == Puts(TagValues(src.tags), Always);
    f.SetAttr(Whole, "@id", VInt(src.id), Always);
    f.SetAttr(Whole, "@type", TypeName(element.kind), Always);
    ghost var head := Puts(TagValues(src.tags), Always) +
                      [Attr(Whole, "@id", VInt(src.id), Always), Attr(Whole, "@type", TypeName(element.kind), Always)];
    assert f.emits == head;
    if element.info.Some? {
      PutMetadata(f, element.info.value);
      assert f.emits == head + MetadataEmits(element.info.value);
    } else {
      assert f.emits == head + [];
    }
  }

  /** The keys the handler sets itself, after the tags. */
  predicate IsMetadataKey(k: string) {
    k in ["@id", "@type", "@version", "@timestamp", "@changeset", "@uid", "@user"]
  }

  /**
   * The records in order: one per tag with the tag's raw value, then `@id` and
   * `@type`, then the five `info` attributes when the element has them.
   */
  lemma QaRecords(src: SourceFeature)
    requires QaEmits(src).Some?
    ensures var es := QaEmits(src).value; var n := |src.tags|;
      && |es| == n + 2 + (if src.osm.value.info.Some? then 5 else 0)
      && (forall i | 0 <= i < n :: es[i] == Attr(Whole, src.tags[i].0, RawValue(src.tags[i].1), Always))
      && es[n] == Attr(Whole, "@id", VInt(src.id), Always)
      && es[n + 1] == Attr(Whole, "@type", TypeName(src.osm.value.kind), Always)
      && (src.osm.value.info.Some? ==>
            forall j | 0 <= j < 5 :: es[n + 2 + j] == MetadataEmits(src.osm.value.info.value)[j])
  {
    var tags := TagValues(src.tags);
    PutsRecords(tags, Always);
    var element := src.osm.value;
    var puts := Puts(tags, Always);
    var ids := [Attr(Whole, "@id", VInt(src.id), Always), Attr(Whole, "@type", TypeName(element.kind), Always)];
    var meta := if element.info.Some? then MetadataEmits(element.info.value) else [];
    var es := QaEmits(src).value;
    var n := |src.tags|;
    assert es == (puts + ids) + meta;
    forall i | 0 <= i < n ensures es[i] == Attr(Whole, src.tags[i].0, RawValue(src.tags[i].1), Always) {
      assert es[i] == (puts + ids)[i] == puts[i];
    }
    assert es[n] == (puts + ids)[n] == ids[0];
    assert es[n + 1] == (puts + ids)[n + 1] == ids[1];
    forall j | 0 <= j < |meta| ensures es[n + 2 + j] == meta[j] {
    }
  }

  /** Only a tagged element read from OpenStreetMap becomes a feature. */
  lemma QaGuard(src: SourceFeature)
    ensures QaEmits(src).Some? <==> |src.tags| > 0 && src.osm.Some?
    ensures QaEmits(src).Some? ==> |QaEmits(src).value| >= 3
  {
    if QaEmits(src).Some? {
      QaRecords(src);
    }
  }

  /**
   * `@id` and `@type` hold the element's id and kind even when a tag has the
   * same key, because they are set after the tags.
   */
  lemma IdAndTypeWin(src: SourceFeature)
    requires QaEmits(src).Some?
    ensures "@id" in Attributes(QaEmits(src).value)
    ensures Attributes(QaEmits(src).value)["@id"] == VInt(src.id)
    ensures "@type" in Attributes(QaEmits(src).value)
    ensures Attributes(QaEmits(src).value)["@type"] == TypeName(src.osm.value.kind)
    ensures Attributes(QaEmits(src).value)["@type"] == VNull <==> src.osm.value.kind == OtherElement
  {
    QaRecords(src);
    var es := QaEmits(src).value;
    var n := |src.tags|;
    forall k | n + 2 <= k < |es| ensures es[k].key != "@id" && es[k].key != "@type" {
      var m := MetadataEmits(src.osm.value.info.value);
      assert es[k] == m[k - n - 2];
      MetadataKeysNotIdOrType(src.osm.value.info.value, k - n - 2);
    }
    ApplyLast(map[], es, n, "@id");
    ApplyLast(map[], es, n + 1, "@type");
  }

  /** No metadata record sets `@id` or `@type`. */
  lemma MetadataKeysNotIdOrType(info: Info, i: int)
    requires 0 <= i < 5
    ensures MetadataEmits(info)[i].key != "@id" && MetadataEmits(info)[i].key != "@type"
  {
    var key := MetadataEmits(info)[i].key;
    assert key[1] in "vtcu";
  }

  /** The five metadata records set five different keys. */
  lemma MetadataKeysDistinct(info: Info, a: int, b: int)
    requires 0 <= a < b < 5
    ensures MetadataEmits(info)[a].key != MetadataEmits(info)[b].key
  {
    var keys := ["@version", "@timestamp", "@changeset", "@uid", "@user"];
    assert forall i | 0 <= i < 5 :: MetadataEmits(info)[i].key == keys[i];
    if a == 0 || a == 3 {
      assert |keys[a]| != |keys[b]|;
    } else {
      assert keys[a][1] != keys[b][1];
    }
  }

  /** The `j`-th metadata record decides its key: nothing after it sets that key again. */
  lemma MetadataRecordWins(src: SourceFeature, j: int)
    requires QaEmits(src).Some? && src.osm.value.info.Some? && 0 <= j < 5
    ensures var m := MetadataEmits(src.osm.value.info.value)[j];
      m.key in Attributes(QaEmits(src).value) && Attributes(QaEmits(src).value)[m.key] == m.value
  {
    QaRecords(src);
    var es := QaEmits(src).value;
    var meta := MetadataEmits(src.osm.value.info.value);
    var n := |src.tags|;
    forall k | n + 2 + j < k < |es| ensures !SetsKey(es[k], meta[j].key) {
      assert es[k] == meta[k - n - 2];
      MetadataKeysDistinct(src.osm.value.info.value, j, k - n - 2);
    }
    ApplyLast(map[], es, n + 2 + j, meta[j].key);
  }

  /**
   * With an `info` block, each metadata attribute is its number, or null when
   * the number is 0; `@user` is the user name, or null when it is missing or
   * blank. Tags with those keys are overridden.
   */
  lemma MetadataWins(src: SourceFeature)
    requires QaEmits(src).Some? && src.osm.value.info.Some?
    ensures var attrs := Attributes(QaEmits(src).value); var info := src.osm.value.info.value;
      && "@version" in attrs && attrs["@version"] == NullIfZero(info.version)
      && "@timestamp" in attrs && attrs["@timestamp"] == NullIfZero(info.timestamp)
      && "@changeset" in attrs && attrs["@changeset"] == NullIfZero(info.changeset)
      && "@uid" in attrs && attrs["@uid"] == NullIfZero(info.userId)
      && "@user" in attrs && attrs["@user"] == UserValue(info.user)
  {
    MetadataRecordWins(src, 0);
    MetadataRecordWins(src, 1);
    MetadataRecordWins(src, 2);
    MetadataRecordWins(src, 3);
    MetadataRecordWins(src, 4);
  }

  /** Without an `info` block, a metadata key is only present when a tag has it. */
  lemma NoInfoNoMetadata(src: SourceFeature, key: string)
    requires QaEmits(src).Some? && src.osm.value.info.None?
    requires key in ["@version", "@timestamp", "@changeset", "@uid", "@user"]
    requires forall i | 0 <= i < |src.tags| :: src.tags[i].0 != key
    ensures key !in Attributes(QaEmits(src).value)
  {
    QaRecords(src);
    ApplyUntouched(map[], QaEmits(src).value, key);
  }

  /** A tag whose key the handler does not set itself keeps its raw value (keys being distinct). */
  lemma TagKept(src: SourceFeature, i: int)
    requires QaEmits(src).Some? && DistinctKeys(src.tags)
    requires 0 <= i < |src.tags| && src.tags[i].0 !in ["@id", "@type"]
    requires src.osm.value.info.Some? ==> !IsMetadataKey(src.tags[i].0)
    ensures src.tags[i].0 in Attributes(QaEmits(src).value)
    ensures Attributes(QaEmits(src).value)[src.tags[i].0] == RawValue(src.tags[i].1)
    ensures Attributes(QaEmits(src).value)[src.tags[i].0] == RawValue(GetTag(src, src.tags[i].0))
  {
    QaRecords(src);
    LookupEntries(src.tags, src.tags[i].0);
    ApplyLast(map[], QaEmits(src).value, i, src.tags[i].0);
  }

  /**
   * Blank means only Java whitespace: the empty name and tabs, line breaks and
   * spaces are blank, a no-break space is not.
   */
  lemma UserValueCases(user: string)
    ensures UserValue(None) == VNull
    ensures UserValue(Some(user)) == VNull <==> IsBlank(user)
    ensures !IsBlank(user) ==> UserValue(Some(user)) == VStr(user)
    ensures UserValue(Some("")) == VNull
    ensures UserValue(Some(" \t\r\n")) == VNull
    ensures UserValue(Some("\U{00A0}")) == VStr("\U{00A0}")
    ensures UserValue(Some(" a ")) == VStr(" a ")
  {
    assert !IsWhitespace("\U{00A0}"[0]);
    assert !IsWhitespace(" a "[1]);
  }
}
