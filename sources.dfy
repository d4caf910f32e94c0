/**
 * The input feature a profile handler is given: its tags, its geometry kind
 * and, for OpenStreetMap input, the element it was read from.
 */
module Sources {
  import opened Structs

  datatype ElementKind = Node | Way | Relation | OtherElement

  /** OSM element metadata; `user` is absent when the element has no user name. */
  datatype Info = Info(changeset: int, timestamp: int, userId: int, user: Option<string>, version: int)

  datatype OsmElement = OsmElement(kind: ElementKind, info: Option<Info>)

  /**
   * A source feature. `tags` keeps the source's iteration order; `osm` is the
   * original element when the feature was read from OpenStreetMap and absent
   * for every other source.
   */
  datatype SourceFeature = SourceFeature(
    tags: seq<(string, Struct)>,
    id: int,
    isPoint: bool,
    canBePolygon: bool,
    canBeLine: bool,
    osm: Option<OsmElement>)

  /** `getTag(key)` and `getStruct(key)`: the tag's value, the null node when missing. */
  function GetTag(src: SourceFeature, key: string): Struct {
    Lookup(src.tags, key)
  }

  /** `getString(key)`: the tag's text, absent when the tag is missing. */
  function GetString(src: SourceFeature, key: string): Option<string> {
    AsString(GetTag(src, key))
  }

  /** `hasTag(key, value)`: the tag holds exactly that string. */
  predicate HasTag(src: SourceFeature, key: string, value: string) {
    GetTag(src, key) == Str(value)
  }

  /** `getBoolean(key)`: the tag is the boolean true. */
  predicate GetBoolean(src: SourceFeature, key: string) {
    GetTag(src, key) == Bool(true)
  }
}
