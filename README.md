# Attribute derivation of the planetiler example profiles

This project models how the planetiler example profiles turn a source feature into a vector-tile feature. For each feature they decide:

- the output layer and the geometry kind;
- the minimum zoom and the pixel settings;
- the ordered attribute records set on the feature builder.

The model covers five handlers:

- **Overture transportation segments.** A road class fixes the base zoom. The `names` column and seven road-rule columns (surface, flags, level, width, lanes, speed limits, access) become attributes through eight rule loops, because `level_rules` is read twice. Each rule is scoped to the fraction `[start, end)` of the line that its optional `between` pair gives.
- **Overture water.** A class table followed by point, polygon or line adjustments. Details appear at a zoom clamped to [6, 13]. Names go only on points and lines.
- **Overture buildings.** Parts start at zoom 14 and whole buildings at 13. A `parts` marker is set, and all details and names are gated at zoom 14.
- **The shared base layer.** The handler's layer and type filter, and the insertion-ordered `names` map built from the `primary` name and the `common` translations.
- **OSM QA tiles.** Every tagged OSM element becomes an `osm` feature carrying its tags plus `@id`, `@type` and, when present, its metadata. A zero number or a blank user name becomes null.

## How the model is built

- **The input tree.** The nested input is the datatype `Structs.Struct`. Its accessors are total.
- **The builder.** The planetiler feature builder is the class `Features.Feature`. It records:
  - the minimum zoom and the pixel settings;
  - `emits`, a sequence of `Emit` records. Each record is an attribute with a scope (the whole feature or a `Part(range)`), a key, a value and a gate (`Always`, `MinZoom`, `MinSize`, `MinSizeBetween`). A record can also be a sub-range's own minimum zoom.
- **Handler methods.** Each handler's `ProcessFeature` method drives the builder step by step, as the Java does. Its postcondition ties the resulting `emits` to a specification function of the input:
  - `TransportationEmits`;
  - `WaterEmits`;
  - `BuildingEmits`;
  - `QaEmits`.
- **Lemmas.** The lemmas state what those functions promise.
- **Later values win.** `Features.Attributes` resolves a record sequence to the final key/value map, where a later set replaces an earlier one.
- **Dropped features.** A transportation segment whose rule has inverted `between` bounds makes Guava's `Range.closedOpen` throw. The model expresses this as "no feature": the specification function returns `None` and `ProcessFeature` returns `null`.

## Model

| member | source | states |
|---|---|---|
| Features.InheritedRecords | overturelayers/Water.java:49 | `inheritAttrsFromSource` sets one record per key, in key order, each holding the tag's raw value under the given gate |
| Features.PutsRecords | overturelayers/Water.java:58 | `putAttrs` sets one record per map entry, in the map's order, all with the same gate |
| Features.ApplyLast | OsmQaTiles.java:59-60 | in the builder's attribute map, the last record that sets a key decides its value |
| Features.ApplyUntouched | OsmQaTiles.java:67-75 | records that never set a key leave its presence and value unchanged |
| Features.Feature.constructor | overturelayers/Water.java:46 | a new builder has the given layer and geometry, no zoom or pixel settings, and no records |
| Features.Feature.SetMinZoom | overturelayers/Water.java:47 | `setMinZoom` sets the feature's minimum zoom and nothing else |
| Features.Feature.SetMinPixelSize | overturelayers/Water.java:48 | `setMinPixelSize` sets the feature's minimum pixel size and nothing else |
| Features.Feature.SetPixelTolerance | OsmQaTiles.java:57 | `setPixelTolerance` sets the feature's pixel tolerance and nothing else |
| Features.Feature.SetBufferPixels | OsmQaTiles.java:58 | `setBufferPixels` sets the feature's buffer and nothing else |
| Features.Feature.SetAttr | overturelayers/Building.java:50 | setting an attribute appends exactly that record |
| Features.Feature.SetRangeMinZoom | overturelayers/Transportation.java:88 | a sub-range's minimum zoom appends exactly that record |
| Features.Feature.InheritAttrsFromSource | overturelayers/Water.java:49 | the loop over the keys appends exactly the inherited records |
| Features.Feature.PutAttrs | overturelayers/Water.java:58 | the loop over the map appends exactly one record per entry, in order |
| BaseLayer.HandlerAccessors | overturelayers/BaseLayer.java:19-32 | `name()` gives the constructor's layer; `filter()` accepts a feature exactly when its `type` string is one of the given types |
| BaseLayer.Put | overturelayers/BaseLayer.java:43-45 | `LinkedHashMap.put`: the key set gains the key; a new key is appended at the end; an existing first entry with another key stays first |
| BaseLayer.PutExisting | overturelayers/BaseLayer.java:43-45 | `LinkedHashMap.put` of a key already present (keys distinct): same length, that entry keeps its position and takes the new value, every other entry is unchanged |
| BaseLayer.CommonKeyInjective | overturelayers/BaseLayer.java:45 | two different languages never share a `name:` key |
| BaseLayer.NamesSpec | overturelayers/BaseLayer.java:38-48 | specification of `names(Struct)`: empty for a null struct, else `name` put first and one put per `common` entry; `NamesFirst`, `NamesKeys` and `NamesInOrder` prove its content and order |
| BaseLayer.Names | overturelayers/BaseLayer.java:38-48 | the loop that fills the map produces the names map: empty for a null struct, otherwise `name` then one put per `common` entry |
| BaseLayer.FeatureNames | overturelayers/BaseLayer.java:34-36 | the names of a feature are the names map of its `names` column |
| BaseLayer.PutCommonKeys | overturelayers/BaseLayer.java:44-46 | putting `common` entries into a map of name keys leaves only name keys |
| BaseLayer.NamesKeys | overturelayers/BaseLayer.java:42-47 | every key of the names map is `name` or starts with `name:` |
| BaseLayer.PutCommonFirst | overturelayers/BaseLayer.java:42-46 | putting `common` entries never displaces the leading `name` entry |
| BaseLayer.NamesFirst | overturelayers/BaseLayer.java:42-43 | a non-null struct's map is non-empty and starts with `name` mapped to the primary name as a string, null included |
| BaseLayer.CommonNames | overturelayers/BaseLayer.java:44-46 | one entry per `common` pair, in order, keyed `name:` plus the language and holding the value as a string |
| BaseLayer.FreshCommonKey | overturelayers/BaseLayer.java:44-46 | a language that no earlier entry has gives a key not yet in the map |
| BaseLayer.PutCommonDistinct | overturelayers/BaseLayer.java:42-47 | with distinct languages, every put appends: the map is `name` followed by the common entries in order |
| BaseLayer.NamesInOrder | overturelayers/BaseLayer.java:42-47 | with distinct `common` keys, the names map is `name` then the common entries in iteration order, so it holds 1 + \|common\| entries |
| Transportation.RoadMinZoom | overturelayers/Transportation.java:45-54 | the class-to-zoom table; `RoadMinZoomRange` proves its range and which classes fall where |
| Transportation.NameItem | overturelayers/Transportation.java:70-75 | specification of one name rule: none without a range, else one name record on the range at minimum size 10; `NameRecords` proves its keys and gate |
| Transportation.SurfaceItem | overturelayers/Transportation.java:78-80 | specification of one surface rule: none without a range, else one `surface` record at zoom 12; `ItemOrdered` proves its range ordered |
| Transportation.FlagsItem | overturelayers/Transportation.java:82-91 | specification of one flags rule: none without a range, else each flag's records on it; `FlagValueRecords` and `FlagsRecords` prove their shape |
| Transportation.LevelItem | overturelayers/Transportation.java:93-95 | specification of one first-pass level rule; `LevelPasses` and `LevelRecords` prove one `level` record at (4, 9, 12), null included |
| Transportation.WidthItem | overturelayers/Transportation.java:97-99 | specification of one width rule: none without a range, else one `width` record at zoom 12; `ItemOrdered` proves its range ordered |
| Transportation.LanesItem | overturelayers/Transportation.java:101-106 | specification of one lanes rule; `LanesSkip` proves the `null` skip and the single record otherwise |
| Transportation.LevelValueItem | overturelayers/Transportation.java:108-113 | specification of one second-pass level rule; `LevelPasses` and `LevelValueRecords` prove it sets only integer levels at zoom 12 |
| Transportation.SpeedItem | overturelayers/Transportation.java:115-129 | specification of one speed limit; `SpeedPairs` proves the min and max pairs |
| Transportation.AccessItem | overturelayers/Transportation.java:131-140 | specification of one access restriction; `AccessPairs` proves the `access`/`access_when` pair |
| Transportation.NamesEmits | overturelayers/Transportation.java:61-76 | specification of the names block; `NameRecords` and `NamesOrdered` prove its keys, gate and ranges |
| Transportation.ColumnsEmits | overturelayers/Transportation.java:78-140 | specification of the eight rule loops in source order; `ColumnsOrdered` proves its ranges ordered |
| Transportation.TransportationEmits | overturelayers/Transportation.java:56-140 | specification of every record of a segment; `InheritedFirst` and `RangesOrdered` prove its head and its ranges |
| Transportation.RangeOf | overturelayers/Transportation.java:145-153 | a range that is built is ordered; no range is built only when the start read from `between` exceeds the end |
| Transportation.NameKey | overturelayers/Transportation.java:72-73 | the key is `name` exactly when there is no language, and `name:` followed by the language otherwise |
| Transportation.NameKeyRoundTrip | overturelayers/Transportation.java:72-73 | the language can be read back from a name rule's key |
| Transportation.FlagsPrefixFails | overturelayers/Transportation.java:84-90 | once a flag fails, the whole flag list fails |
| Transportation.RulesPrefixFails | overturelayers/Transportation.java:78-140 | once a rule fails, the whole rule loop fails |
| Transportation.ApplyFlags | overturelayers/Transportation.java:84-90 | the inner flags loop succeeds exactly when its specification `FlagValues` does, and then appends exactly the flags' records; `FlagValuesSucceed` proves that happens exactly when every flag has text |
| Transportation.ApplyNameRule | overturelayers/Transportation.java:70-75 | one `names.rules` entry succeeds exactly when its range can be built, and then appends exactly its record |
| Transportation.ApplySurface | overturelayers/Transportation.java:78-80 | one `road_surface` entry succeeds exactly when its range can be built, and then appends exactly its record |
| Transportation.ApplyFlagsRule | overturelayers/Transportation.java:82-91 | one `road_flags` entry succeeds exactly as its specification does, and then appends exactly its records |
| Transportation.ApplyLevel | overturelayers/Transportation.java:93-95 | one first-pass `level_rules` entry succeeds exactly when its range can be built, and then appends exactly its record |
| Transportation.ApplyWidth | overturelayers/Transportation.java:97-99 | one `width_rules` entry succeeds exactly when its range can be built, and then appends exactly its record |
| Transportation.ApplyLanes | overturelayers/Transportation.java:101-106 | one `lanes` entry succeeds exactly as its specification does, and then appends exactly its records |
| Transportation.ApplyLevelValue | overturelayers/Transportation.java:108-113 | one second-pass `level_rules` entry succeeds exactly as its specification does, and then appends exactly its records |
| Transportation.ApplySpeed | overturelayers/Transportation.java:115-129 | one `speed_limits` entry succeeds exactly when its range can be built, and then appends exactly its records |
| Transportation.ApplyAccess | overturelayers/Transportation.java:131-140 | one `access_restrictions` entry succeeds exactly when its range can be built, and then appends exactly its records |
| Transportation.ApplyRule | overturelayers/Transportation.java:78-140 | the loop body of any rule kind behaves as that kind's specification |
| Transportation.ApplyRules | overturelayers/Transportation.java:78-140 | a rule loop succeeds exactly when the specification of the whole list does, and then appends the rules' records in list order |
| Transportation.ApplyCommonNames | overturelayers/Transportation.java:63-69 | appends the primary name, then one record per common name, all at minimum size 10 |
| Transportation.ApplyNames | overturelayers/Transportation.java:61-76 | the names block sets nothing for a null `names`; otherwise it sets primary, common, then rule names, and fails exactly when a rule's range fails |
| Transportation.ApplyColumns | overturelayers/Transportation.java:78-140 | the eight rule loops run in source order and succeed exactly when all of them do |
| Transportation.ProcessFeature | overturelayers/Transportation.java:43-141 | the segment becomes a line in `transportation` at its class's zoom with minimum pixel size 0, no pixel tolerance or buffer, and exactly the specified records; there is no feature exactly when `TransportationEmits` has none, that is when some rule fails (`RulesSucceed`): a rule whose range cannot be built, unless it is a lanes or second-pass level rule that is skipped (`LanesSkip`, `LevelPasses`), or a flags rule with a flag without text (`FlagsItemSucceeds`) |
| TransportationFacts.TransportationHandler | overturelayers/Transportation.java:36-41 | the layer is `transportation` and the filter accepts exactly type `segment` |
| TransportationFacts.RoadMinZoomRange | overturelayers/Transportation.java:45-54 | the base zoom lies in [4, 14]; it is 14 exactly for an unknown or missing class, and below 9 exactly for motorway, trunk and primary |
| TransportationFacts.RangeDefaults | overturelayers/Transportation.java:143-153 | a null `between` gives [0, 1); otherwise a missing start reads as 0 and a missing end as 1, and the range exists exactly when start ≤ end |
| TransportationFacts.NullStartExample | overturelayers/Transportation.java:150-152 | `between` = [null, 0.5] gives [0, 0.5) |
| TransportationFacts.RulesSucceed | overturelayers/Transportation.java:78-140 | a rule loop succeeds exactly when every one of its rules does |
| TransportationFacts.RulesRecords | overturelayers/Transportation.java:78-140 | a property of every record of each rule holds of every record of the loop |
| TransportationFacts.CommonNameRecords | overturelayers/Transportation.java:66-69 | one whole-segment record per common entry, keyed `name:` plus the language, holding the raw value, at minimum size 10 |
| TransportationFacts.NameRecords | overturelayers/Transportation.java:61-75 | every name record, whether primary, common or from a rule, has a name key and minimum size 10 |
| TransportationFacts.FlagValuesSucceed | overturelayers/Transportation.java:84-90 | a list of flags yields records exactly when every flag in it has text |
| TransportationFacts.FlagsItemSucceeds | overturelayers/Transportation.java:82-91 | a flags rule yields records exactly when its range can be built and every one of its flags has text |
| TransportationFacts.FlagValueRecords | overturelayers/Transportation.java:84-90 | a flag sets a `true` attribute named after it with thresholds (4, 4, 12); it adds a range minimum zoom exactly for `is_link`, and that zoom is the larger of the base zoom and 9; a flag without text fails |
| TransportationFacts.FlagValuesRecords | overturelayers/Transportation.java:84-90 | every record of a flag list is a flag record on that rule's range |
| TransportationFacts.FlagsRecords | overturelayers/Transportation.java:82-91 | every `road_flags` record is a true flag at (4, 4, 12) or a range minimum zoom of max(base, 9), hence ≥ 9 and ≥ base |
| TransportationFacts.LevelPasses | overturelayers/Transportation.java:93-113 | the first pass sets `level` for every rule with thresholds (4, 9, 12), null included; the second pass sets nothing for a non-integer value and otherwise the same level at zoom 12 |
| TransportationFacts.LevelRecords | overturelayers/Transportation.java:93-95 | the first pass sets exactly one `level` record per rule, in order |
| TransportationFacts.LevelValueRecords | overturelayers/Transportation.java:108-113 | the second pass never sets a null level and gates every level at zoom 12 |
| TransportationFacts.LanesSkip | overturelayers/Transportation.java:101-106 | a lanes value whose JSON text is `null` sets nothing and cannot fail; any other value sets one `lanes` record at zoom 12 |
| TransportationFacts.LanesRecords | overturelayers/Transportation.java:101-106 | no lanes record holds the text `null`, and every one is gated at zoom 12 |
| TransportationFacts.SpeedPairs | overturelayers/Transportation.java:115-129 | a min pair exactly when `min_speed` is non-null and a max pair exactly when `max_speed` is; each speed is value then unit, paired with the `when` text or null, at zoom 12 |
| TransportationFacts.SpeedRecords | overturelayers/Transportation.java:115-129 | every speed record has a speed key and zoom 12 |
| TransportationFacts.SpeedTextExample | overturelayers/Transportation.java:122 | value 50 with unit `km/h` prints as `50km/h` |
| TransportationFacts.SpeedExample | overturelayers/Transportation.java:115-129 | a max-only limit on [0.2, 0.8) sets exactly `max_speed` then `max_speed_when` on that range |
| TransportationFacts.AccessPairs | overturelayers/Transportation.java:131-140 | nothing without an access type; otherwise `access` then `access_when`, at zoom 12 |
| TransportationFacts.AccessRecords | overturelayers/Transportation.java:131-140 | every access record has an access key and zoom 12 |
| TransportationFacts.ItemOrdered | overturelayers/Transportation.java:145-153 | a rule of any kind sets records only on an ordered range |
| TransportationFacts.ColumnOrdered | overturelayers/Transportation.java:78-140 | a rule loop sets records only on ordered ranges |
| TransportationFacts.NamesOrdered | overturelayers/Transportation.java:61-76 | the names block sets records only on ordered ranges |
| TransportationFacts.ColumnsOrdered | overturelayers/Transportation.java:78-140 | the eight rule loops set records only on ordered ranges |
| TransportationFacts.RangesOrdered | overturelayers/Transportation.java:56-140 | every ranged record of a segment lies on an ordered range |
| TransportationFacts.InheritedFirst | overturelayers/Transportation.java:56-59 | a segment's first two records are the inherited `subtype` and `class` |
| Water.ClassZoom | overturelayers/Water.java:31-37 | the class-to-zoom table; `ClassZoomTable` proves its values |
| Water.WaterMinZoom | overturelayers/Water.java:31-44 | the table followed by the point, polygon, line adjustment; `WaterMinZoomCases` proves each case |
| Water.DetailZoom | overturelayers/Water.java:50 | `Math.clamp(z, 6, 13)`; `DetailZoomClamp` proves the clamp |
| Water.WaterEmits | overturelayers/Water.java:46-58 | specification of every record of a water feature; `WaterGates`, `NoNamesOnPolygons` and `NamesOnPointsAndLines` prove its gates and names |
| Water.PostProcessMinSize | overturelayers/Water.java:64 | the merge size is 8 below zoom 13 and the configured size from zoom 13 on |
| Water.ProcessFeature | overturelayers/Water.java:30-60 | a water feature of any geometry at the adjusted zoom, with minimum pixel size 0, no pixel tolerance or buffer, and exactly the specified records |
| Water.ClassZoomTable | overturelayers/Water.java:31-37 | the class table yields 0, 9, 12 or 13, and 13 exactly for a class outside lake, ocean, reservoir, river and canal |
| Water.WaterMinZoomCases | overturelayers/Water.java:38-44 | ocean points 0; other points max(8, table); polygons min(table, 6); lines max(9, table); otherwise the table; always in [0, 13] |
| Water.DetailZoomClamp | overturelayers/Water.java:50 | the detail zoom lies in [6, 13], equals the pixel zoom inside it and the nearer bound outside |
| Water.WaterGates | overturelayers/Water.java:46-58 | `subtype` and `class` come first and always show; every later record waits for the detail zoom |
| Water.NoNamesOnPolygons | overturelayers/Water.java:57-58 | a feature that is neither point nor line gets no name attribute |
| Water.NamesOnPointsAndLines | overturelayers/Water.java:57-58 | a point or line gets the whole names map, in order, at the detail zoom, after the five inherited records |
| Water.WaterHandler | overturelayers/Water.java:23-27 | the layer is `water` and the filter accepts exactly type `water` |
| Building.BuildingMinZoom | overturelayers/Building.java:29-31 | 14 for a part, 13 otherwise; `GatesNoEarlierThanFeature` proves it lies in [13, 14] |
| Building.PartsValue | overturelayers/Building.java:50 | the `parts` marker; `PartsCases` proves each of its three values |
| Building.BuildingEmits | overturelayers/Building.java:33-52 | specification of every record of a building; `GatesNoEarlierThanFeature` and `PartsAttribute` prove its gates and marker |
| Building.ProcessFeature | overturelayers/Building.java:27-53 | a polygon in `building` at zoom 14 for a part and 13 otherwise, with minimum pixel size 2, no pixel tolerance or buffer, and exactly the specified records |
| Building.PartsCases | overturelayers/Building.java:50 | `parts` is `is` exactly for a part, `has` exactly for a non-part with `has_parts`, and null otherwise |
| Building.GatesNoEarlierThanFeature | overturelayers/Building.java:29-52 | every record but `parts` waits for zoom 14, which is never below the feature's own zoom |
| Building.PartsAttribute | overturelayers/Building.java:50-52 | the final `parts` attribute is the marker: no name key can overwrite it |
| Building.BuildingHandler | overturelayers/Building.java:21-25 | the layer is `building` and the filter accepts exactly types `building` and `building_part` |
| OsmQaTiles.TypeName | OsmQaTiles.java:61-66 | `@type` by element kind; `IdAndTypeWin` proves it null exactly for another kind |
| OsmQaTiles.NullIfZero | OsmQaTiles.java:70-73 | a zero metadata number reads as null; `MetadataWins` proves the final attributes follow it |
| OsmQaTiles.IsBlank | OsmQaTiles.java:74 | `String.isBlank` over Java whitespace; `UserValueCases` proves examples either side |
| OsmQaTiles.UserValue | OsmQaTiles.java:74 | `@user`: null when missing or blank; `UserValueCases` proves both directions |
| OsmQaTiles.QaEmits | OsmQaTiles.java:53-75 | specification of every record of a QA feature; `QaRecords`, `QaGuard`, `IdAndTypeWin`, `MetadataWins`, `NoInfoNoMetadata` and `TagKept` prove its layout and resolved attributes |
| OsmQaTiles.PutMetadata | OsmQaTiles.java:67-75 | the `info` block appends the five metadata records in order |
| OsmQaTiles.ProcessFeature | OsmQaTiles.java:52-77 | no feature for an untagged or non-OSM element; otherwise an `osm` feature of any geometry with pixel size, tolerance and buffer 0 and exactly the specified records |
| OsmQaTiles.QaRecords | OsmQaTiles.java:59-75 | the records are one per tag with its raw value, then `@id`, `@type`, then the five metadata records when `info` is present |
| OsmQaTiles.QaGuard | OsmQaTiles.java:53 | a feature exists exactly for a tagged OSM element |
| OsmQaTiles.IdAndTypeWin | OsmQaTiles.java:59-66 | `@id` is the element id and `@type` its kind name, even over a same-named tag; `@type` is null exactly for a kind that is not node, way or relation |
| OsmQaTiles.MetadataKeysNotIdOrType | OsmQaTiles.java:60-74 | no metadata record sets `@id` or `@type` |
| OsmQaTiles.MetadataKeysDistinct | OsmQaTiles.java:70-74 | the five metadata records set five different keys |
| OsmQaTiles.MetadataRecordWins | OsmQaTiles.java:69-74 | each metadata record decides its key's final value |
| OsmQaTiles.MetadataWins | OsmQaTiles.java:70-74 | with `info`, version, timestamp, changeset and uid are their numbers or null when 0, and `@user` is the name or null when missing or blank |
| OsmQaTiles.NoInfoNoMetadata | OsmQaTiles.java:67-75 | without `info`, a metadata key is present only when a tag has it |
| OsmQaTiles.TagKept | OsmQaTiles.java:59-75 | with distinct tag keys, a tag whose key the handler does not set itself keeps its raw value: any key but `@id` and `@type`, and without metadata also the five metadata keys |
| OsmQaTiles.UserValueCases | OsmQaTiles.java:74 | `@user` is null exactly for a missing or blank name; blank means Java whitespace only, so a no-break space is kept |

## Left out

- **Post-processing.** `postProcess` merging (`FeatureMerge.mergeLineStrings`, `mergeOverlappingPolygons`, `mergeMultiPolygon`) is geometry work inside planetiler and is not modelled. Only Water's choice of merge size is kept.
- **Line cutting.** Cutting a line at range boundaries happens inside planetiler's `linearRange` and is not modelled. A range only tags the records set through it.
- **Building sort key.** The sort key `(int) (height * 10)` is floating-point arithmetic and is not modelled.
- **Water pixel zoom.** `getMinZoomForPixelSize(8)` depends on planetiler's geometry scale. It is the parameter `pixelZoom` of `Water.ProcessFeature`; only its clamp is modelled.
- **JSON text.** `Struct.asJson()` is the parameter `json` of the transportation model, an arbitrary function from a tree node to text.
- **Tree accessors.** planetiler's `Struct` and `SourceFeature` classes are not part of this model. Their accessors are modelled as follows:
  - `get` gives the null node for a missing key or index;
  - `asString` prints numbers and booleans;
  - `asInt` truncates a floating number toward zero;
  - `asInt` and `asDouble` give none for a text, boolean, list, map or null leaf; they do not parse text as a number;
  - `getBoolean` is true only for a boolean `true` leaf.
- **`asInt` overflow.** `Structs.AsInt` does not saturate at Java's int range when it truncates a floating number, because the tag values the handlers read are small integers.
- **Metadata widths.** `OsmQaTiles.ProcessFeature` treats the element id and the metadata numbers as unbounded integers. The Java `long` and `int` ranges are not modelled.
- Transportation.ProcessFeature: inverted bounds and null flags. An inverted `between` pair makes `Range.closedOpen` throw inside `processFeature`. The model reports this as "no feature", and what planetiler does with the exception is not modelled. A flag whose text is null is treated the same way: it would be used as an attribute key.
- **Printed numbers.** A floating-point leaf carries the decimal text Java prints for it, instead of computing that text.
- **Program setup.** `main`, argument parsing, downloads, source setup and output paths in each handler are I/O and configuration.
- **Other profiles.** `Overture.java`, `Toilets.java`, `Power.java`, `OvertureBuildings.java` and `OvertureLandcover.java` are not part of this model.
