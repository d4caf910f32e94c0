/**
 * The Overture transportation-segment handler. A segment becomes a line in
 * layer `transportation` whose minimum zoom comes from its road class; its
 * names and road rules become attributes, each rule scoped to the sub-range of
 * the line given by its optional `between` pair and gated by its own zoom or
 * pixel-size threshold.
 */
module Transportation {
  import opened Structs
  import opened Sources
  import opened Features
  import BaseLayer

  const Layer: string := "transportation"

  /** Writes layer `transportation` from source features of type `segment`. */
  const Handler: BaseLayer.Handler := BaseLayer.Handler(Layer, ["segment"])

  /** Classes of road that show up before the default zoom of 14. */
  predicate KnownClass(cls: Option<string>) {
    cls.Some? && cls.value in {"motorway", "trunk", "primary", "secondary", "tertiary",
                               "minor", "path", "footway", "track", "cycleway", "bridleway"}
  }

  /** The base minimum zoom of a segment, by road class. */
  function RoadMinZoom(cls: Option<string>): int {
    match cls
    case Some("motorway") => 4
    case Some("trunk") => 6
    case Some("primary") => 7
    case Some("secondary") => 9
    case Some("tertiary") => 11
    case Some("minor") => 13
    case Some("path") | Some("footway") | Some("track") | Some("cycleway") | Some("bridleway") => 13
    case _ => 14
  }

  /** The lower bound a `between` pair gives: its first number, else 0. */
  function Lower(between: Struct): real {
    AsDouble(At(between, 0)).GetOr(0.0)
  }

  /** The upper bound a `between` pair gives: its second number, else 1. */
  function Upper(between: Struct): real {
    AsDouble(At(between, 1)).GetOr(1.0)
  }

  /**
   * `range(struct)`: the full line when there is no `between`, otherwise
   * [start, end) with a missing start read as 0 and a missing end as 1.
   * `Range.closedOpen` refuses a start above the end: then there is no range.
   */
  function RangeOf(rule: Struct): (r: Option<Range>)
    ensures r.Some? ==> r.value.start <= r.value.end
    ensures r.None? ==> Lower(Get(rule, "between")) > Upper(Get(rule, "between"))
  {
    var between := Get(rule, "between");
    if IsNull(between) then Some(FullRange)
    else if Lower(between) <= Upper(between) then Some(Range(Lower(between), Upper(between)))
    else None
  }

  /** The key of a name rule: `name` for no language, else `name:<language>`. */
  function NameKey(language: Option<string>): (k: string)
    ensures language.None? <==> k == "name"
    ensures language.Some? ==> |k| >= 5 && k[..5] == "name:" && k[5..] == language.value
  {
    if language.None? then "name" else BaseLayer.CommonKey(language.value)
  }

  /** The language a name key stands for: none for `name`. */
  function LanguageOf(k: string): Option<string> {
    if |k| >= 5 && k[..5] == "name:" then Some(k[5..]) else None
  }

  /** A name rule's key gives back its language. */
  lemma NameKeyRoundTrip(language: Option<string>)
    ensures LanguageOf(NameKey(language)) == language
  {
  }

  /** The `*_when` value: the condition's JSON text, null when there is none. */
  function WhenValue(when: Struct, json: Struct -> string): Value {
    if IsNull(when) then VNull else VStr(json(when))
  }

  /** A speed as text: the `value` string followed by the `unit` string. */
  function SpeedText(speed: Struct): string {
    JavaText(AsString(Get(speed, "value"))) + JavaText(AsString(Get(speed, "unit")))
  }

  /** One flag of a `road_flags` rule; `is_link` also lifts the range's minimum zoom. */
  function FlagValue(r: Range, flag: Struct, baseZoom: int): Option<seq<Emit>> {
    match AsString(flag)
    case None => None
    case Some(name) =>
      Some([Attr(Part(r), name, VBool(true), MinSizeBetween(4.0, 4, 12))] +
           (if name == "is_link" then [RangeMinZoom(r, if baseZoom > 9 then baseZoom else 9)] else []))
  }

  /** All flags of one `road_flags` rule, in order. */
  function FlagValues(r: Range, flags: seq<Struct>, baseZoom: int): Option<seq<Emit>> {
    if flags == [] then Some([])
    else Then(FlagValues(r, flags[..|flags| - 1], baseZoom), FlagValue(r, flags[|flags| - 1], baseZoom))
  }

  /** One `names.rules` entry: the name, or the translated name, on its sub-range. */
  function NameItem(rule: Struct): Option<seq<Emit>> {
    match RangeOf(rule)
    case None => None
    case Some(r) =>
      Some([Attr(Part(r), NameKey(AsString(Get(rule, "language"))), StrValue(AsString(Get(rule, "value"))), MinSize(10.0))])
  }

  /** One `road_surface` rule. */
  function SurfaceItem(rule: Struct): Option<seq<Emit>> {
    match RangeOf(rule)
    case None => None
    case Some(r) => Some([Attr(Part(r), "surface", StrValue(AsString(Get(rule, "value"))), MinZoom(12))])
  }

  /** One `road_flags` rule: each of its flags on its sub-range. */
  function FlagsItem(rule: Struct, baseZoom: int): Option<seq<Emit>> {
    match RangeOf(rule)
    case None => None
    case Some(r) => FlagValues(r, AsList(Get(rule, "values")), baseZoom)
  }

  /** One `level_rules` entry, first pass: the level as an integer, null included. */
  function LevelItem(rule: Struct): Option<seq<Emit>> {
    match RangeOf(rule)
    case None => None
    case Some(r) => Some([Attr(Part(r), "level", IntValue(AsInt(Get(rule, "value"))), MinSizeBetween(4.0, 9, 12))])
  }

  /** One `width_rules` entry. */
  function WidthItem(rule: Struct): Option<seq<Emit>> {
    match RangeOf(rule)
    case None => None
    case Some(r) => Some([Attr(Part(r), "width", NumValue(AsDouble(Get(rule, "value"))), MinZoom(12))])
  }

  /** One `lanes` rule: skipped, range and all, when its value prints as `null`. */
  function LanesItem(rule: Struct, json: Struct -> string): Option<seq<Emit>> {
    var value := json(Get(rule, "value"));
    if value == "null" then Some([])
    else
      match RangeOf(rule)
      case None => None
      case Some(r) => Some([Attr(Part(r), "lanes", VStr(value), MinZoom(12))])
  }

  /** One `level_rules` entry, second pass: only a level that reads as an integer. */
  function LevelValueItem(rule: Struct): Option<seq<Emit>> {
    var value := AsInt(Get(rule, "value"));
    if value.None? then Some([])
    else
      match RangeOf(rule)
      case None => None
      case Some(r) => Some([Attr(Part(r), "level", VInt(value.value), MinZoom(12))])
  }

  /** One `speed_limits` rule: the minimum speed, then the maximum, each with its condition. */
  function SpeedItem(rule: Struct, json: Struct -> string): Option<seq<Emit>> {
    match RangeOf(rule)
    case None => None
    case Some(r) =>
      var min := Get(rule, "min_speed");
      var max := Get(rule, "max_speed");
      var when := WhenValue(Get(rule, "when"), json);
      Some((if IsNull(min) then []
            else [Attr(Part(r), "min_speed", VStr(SpeedText(min)), MinZoom(12)),
                  Attr(Part(r), "min_speed_when", when, MinZoom(12))]) +
           (if IsNull(max) then []
            else [Attr(Part(r), "max_speed", VStr(SpeedText(max)), MinZoom(12)),
                  Attr(Part(r), "max_speed_when", when, MinZoom(12))]))
  }

  /** One `access_restrictions` rule: the access type with its condition, when there is a type. */
  function AccessItem(rule: Struct, json: Struct -> string): Option<seq<Emit>> {
    match RangeOf(rule)
    case None => None
    case Some(r) =>
      var accessType := Get(rule, "access_type");
      var when := WhenValue(Get(rule, "when"), json);
      Some(if IsNull(accessType) then []
           else [Attr(Part(r), "access", StrValue(AsString(accessType)), MinZoom(12)),
                 Attr(Part(r), "access_when", when, MinZoom(12))])
  }

  /** `FlagsItem` for a segment of base zoom `baseZoom`. */
  function FlagsItemAt(baseZoom: int): Struct -> Option<seq<Emit>> {
    rule => FlagsItem(rule, baseZoom)
  }

  function LanesItemWith(json: Struct -> string): Struct -> Option<seq<Emit>> {
    rule => LanesItem(rule, json)
  }

  function SpeedItemWith(json: Struct -> string): Struct -> Option<seq<Emit>> {
    rule => SpeedItem(rule, json)
  }

  function AccessItemWith(json: Struct -> string): Struct -> Option<seq<Emit>> {
    rule => AccessItem(rule, json)
  }

  /** The rule loops of `processFeature`, in the order the handler runs them. */
  datatype RuleKind = NameRule | Surface | Flags | LevelEarly | Width | Lanes | LevelLate | SpeedLimit | Access

  /** What one rule of a kind sets; no result when its range cannot be built. */
  function ItemOf(kind: RuleKind, baseZoom: int, json: Struct -> string): Struct -> Option<seq<Emit>> {
    match kind
    case NameRule => NameItem
    case Surface => SurfaceItem
    case Flags => FlagsItemAt(baseZoom)
    case LevelEarly => LevelItem
    case Width => WidthItem
    case Lanes => LanesItemWith(json)
    case LevelLate => LevelValueItem
    case SpeedLimit => SpeedItemWith(json)
    case Access => AccessItemWith(json)
  }

  /** A loop over rules, in list order; the first rule that fails fails the loop. */
  function Rules(item: Struct -> Option<seq<Emit>>, rules: seq<Struct>): Option<seq<Emit>> {
    if rules == [] then Some([])
    else Then(Rules(item, rules[..|rules| - 1]), item(rules[|rules| - 1]))
  }

  /** Primary and common names of the whole segment, at minimum size 10. */
  function CommonNameEmits(common: seq<(string, Struct)>): (r: seq<Emit>)
  {
    if common == [] then []
    else CommonNameEmits(common[..|common| - 1]) +
         [Attr(Whole, BaseLayer.CommonKey(common[|common| - 1].0), RawValue(common[|common| - 1].1), MinSize(10.0))]
  }

  /** The names block: nothing for a null `names`, else primary, common, then rule names. */
  function NamesEmits(names: Struct, json: Struct -> string): Option<seq<Emit>> {
    if IsNull(names) then Some([])
    else
      Then(Some([Attr(Whole, "name", StrValue(AsString(Get(names, "primary"))), MinSize(10.0))] +
                CommonNameEmits(AsMap(Get(names, "common")))),
           Rules(NameItem, AsList(Get(names, "rules"))))
  }

  /** The rules of one kind read from the source column `column`. */
  function Column(src: SourceFeature, kind: RuleKind, column: string, baseZoom: int, json: Struct -> string): Option<seq<Emit>> {
    Rules(ItemOf(kind, baseZoom, json), AsList(GetTag(src, column)))
  }

  /** The eight rule loops after the names, in the order the handler runs them. */
  function ColumnsEmits(src: SourceFeature, z: int, json: Struct -> string): Option<seq<Emit>> {
    var a := Then(Column(src, Surface, "road_surface", z, json), Column(src, Flags, "road_flags", z, json));
    var b := Then(Then(a, Column(src, LevelEarly, "level_rules", z, json)), Column(src, Width, "width_rules", z, json));
    var c := Then(Then(b, Column(src, Lanes, "lanes", z, json)), Column(src, LevelLate, "level_rules", z, json));
    Then(Then(c, Column(src, SpeedLimit, "speed_limits", z, json)), Column(src, Access, "access_restrictions", z, json))
  }

  /**
   * Every record `processFeature` sets on the segment, in order: inherited
   * `subtype` and `class`, names, then the rule loops. No result when some
   * rule's range cannot be built (the handler throws and the feature is dropped).
   */
  function TransportationEmits(src: SourceFeature, json: Struct -> string): Option<seq<Emit>> {
    var names := Then(Some(Inherited(src, ["subtype", "class"], Always)), NamesEmits(GetTag(src, "names"), json));
    Then(names, ColumnsEmits(src, RoadMinZoom(GetString(src, "class")), json))
  }

  // ---------------------------------------------------------------------------
  // The handler, step by step on the feature builder

  lemma {:induction false} FlagsPrefixFails(r: Range, flags: seq<Struct>, k: nat, baseZoom: int)
    requires k <= |flags| && FlagValues(r, flags[..k], baseZoom).None?
    ensures FlagValues(r, flags, baseZoom).None?
    decreases |flags|
  {
    if k < |flags| {
      assert flags[..|flags| - 1][..k] == flags[..k];
      FlagsPrefixFails(r, flags[..|flags| - 1], k, baseZoom);
    } else {
      assert flags[..k] == flags;
    }
  }

  lemma {:induction false} RulesPrefixFails(item: Struct -> Option<seq<Emit>>, rules: seq<Struct>, k: nat)
    requires k <= |rules| && Rules(item, rules[..k]).None?
    ensures Rules(item, rules).None?
    decreases |rules|
  {
    if k < |rules| {
      assert rules[..|rules| - 1][..k] == rules[..k];
      RulesPrefixFails(item, rules[..|rules| - 1], k);
    } else {
      assert rules[..k] == rules;
    }
  }

  /** The body of the `road_flags` loop for one rule already given its range. */
  method ApplyFlags(f: Feature, r: Range, flags: seq<Struct>, baseZoom: int) returns (ok: bool)
    modifies f`emits
    ensures ok == FlagValues(r, flags, baseZoom).Some?
    ensures ok ==> f.emits == old(f.emits) + FlagValues(r, flags, baseZoom).value
  {
    for j := 0 to |flags|
      invariant FlagValues(r, flags[..j], baseZoom).Some?
      invariant f.emits == old(f.emits) + FlagValues(r, flags[..j], baseZoom).value
    {
      assert flags[..j + 1][..j] == flags[..j];
      var name := AsString(flags[j]);
      if name.None? {
        FlagsPrefixFails(r, flags, j + 1, baseZoom);
        return false;
      }
      ghost var before := f.emits;
      f.SetAttr(Part(r), name.value, VBool(true), MinSizeBetween(4.0, 4, 12));
      if name.value == "is_link" {
        f.SetRangeMinZoom(r, if baseZoom > 9 then baseZoom else 9);
      }
      assert f.emits == before + FlagValue(r, flags[j], baseZoom).value;
      ThenAppend(old(f.emits), FlagValues(r, flags[..j], baseZoom), FlagValue(r, flags[j], baseZoom));
    }
    assert flags[..|flags|] == flags;
    return true;
  }

  /** The body of the `names.rules` loop. */
  method ApplyNameRule(f: Feature, rule: Struct) returns (ok: bool)
    modifies f`emits
    ensures ok == NameItem(rule).Some?
    ensures ok ==> f.emits == old(f.emits) + NameItem(rule).value
  {
    var r := RangeOf(rule);
    if r.None? { return false; }
    var language := AsString(Get(rule, "language"));
    var key := if language.None? then "name" else BaseLayer.CommonKey(language.value);
    f.SetAttr(Part(r.value), key, StrValue(AsString(Get(rule, "value"))), MinSize(10.0));
    return true;
  }

  /** The body of the `road_surface` loop. */
  method ApplySurface(f: Feature, rule: Struct) returns (ok: bool)
    modifies f`emits
    ensures ok == SurfaceItem(rule).Some?
    ensures ok ==> f.emits == old(f.emits) + SurfaceItem(rule).value
  {
    var r := RangeOf(rule);
    if r.None? { return false; }
    f.SetAttr(Part(r.value), "surface", StrValue(AsString(Get(rule, "value"))), MinZoom(12));
    return true;
  }

  /** The body of the `road_flags` loop. */
  method ApplyFlagsRule(f: Feature, rule: Struct, baseZoom: int) returns (ok: bool)
    modifies f`emits
    ensures ok == FlagsItem(rule, baseZoom).Some?
    ensures ok ==> f.emits == old(f.emits) + FlagsItem(rule, baseZoom).value
  {
    var r := RangeOf(rule);
    if r.None? { return false; }
    ok := ApplyFlags(f, r.value, AsList(Get(rule, "values")), baseZoom);
  }

  /** The body of the first `level_rules` loop. */
  method ApplyLevel(f: Feature, rule: Struct) returns (ok: bool)
    modifies f`emits
    ensures ok == LevelItem(rule).Some?
    ensures ok ==> f.emits == old(f.emits) + LevelItem(rule).value
  {
    var r := RangeOf(rule);
    if r.None? { return false; }
    f.SetAttr(Part(r.value), "level", IntValue(AsInt(Get(rule, "value"))), MinSizeBetween(4.0, 9, 12));
    return true;
  }

  /** The body of the `width_rules` loop. */
  method ApplyWidth(f: Feature, rule: Struct) returns (ok: bool)
    modifies f`emits
    ensures ok == WidthItem(rule).Some?
    ensures ok ==> f.emits == old(f.emits) + WidthItem(rule).value
  {
    var r := RangeOf(rule);
    if r.None? { return false; }
    f.SetAttr(Part(r.value), "width", NumValue(AsDouble(Get(rule, "value"))), MinZoom(12));
    return true;
  }

  /** The body of the `lanes` loop. */
  method ApplyLanes(f: Feature, rule: Struct, json: Struct -> string) returns (ok: bool)
    modifies f`emits
    ensures ok == LanesItem(rule, json).Some?
    ensures ok ==> f.emits == old(f.emits) + LanesItem(rule, json).value
  {
    var value := json(Get(rule, "value"));
    if value != "null" {
      var r := RangeOf(rule);
      if r.None? { return false; }
      f.SetAttr(Part(r.value), "lanes", VStr(value), MinZoom(12));
    }
    return true;
  }

  /** The body of the second `level_rules` loop. */
  method ApplyLevelValue(f: Feature, rule: Struct) returns (ok: bool)
    modifies f`emits
    ensures ok == LevelValueItem(rule).Some?
    ensures ok ==> f.emits == old(f.emits) + LevelValueItem(rule).value
  {
    var value := AsInt(Get(rule, "value"));
    if value.Some? {
      var r := RangeOf(rule);
      if r.None? { return false; }
      f.SetAttr(Part(r.value), "level", VInt(value.value), MinZoom(12));
    }
    return true;
  }

  /** The body of the `speed_limits` loop. */
  method ApplySpeed(f: Feature, rule: Struct, json: Struct -> string) returns (ok: bool)
    modifies f`emits
    ensures ok == SpeedItem(rule, json).Some?
    ensures ok ==> f.emits == old(f.emits) + SpeedItem(rule, json).value
  {
    var r := RangeOf(rule);
    if r.None? { return false; }
    var range := Part(r.value);
    var min := Get(rule, "min_speed");
    var max := Get(rule, "max_speed");
    var when := WhenValue(Get(rule, "when"), json);
    if !IsNull(min) {
      f.SetAttr(range, "min_speed", VStr(SpeedText(min)), MinZoom(12));
      f.SetAttr(range, "min_speed_when", when, MinZoom(12));
    }
    if !IsNull(max) {
      f.SetAttr(range, "max_speed", VStr(SpeedText(max)), MinZoom(12));
      f.SetAttr(range, "max_speed_when", when, MinZoom(12));
    }
    return true;
  }

  /** The body of the `access_restrictions` loop. */
  method ApplyAccess(f: Feature, rule: Struct, json: Struct -> string) returns (ok: bool)
    modifies f`emits
    ensures ok == AccessItem(rule, json).Some?
    ensures ok ==> f.emits == old(f.emits) + AccessItem(rule, json).value
  {
    var r := RangeOf(rule);
    if r.None? { return false; }
    var accessType := Get(rule, "access_type");
    var when := WhenValue(Get(rule, "when"), json);
    if !IsNull(accessType) {
      f.SetAttr(Part(r.value), "access", StrValue(AsString(accessType)), MinZoom(12));
      f.SetAttr(Part(r.value), "access_when", when, MinZoom(12));
    }
    return true;
  }

  /** The body of the loop over rules of one kind, for one rule. */
  method ApplyRule(f: Feature, kind: RuleKind, rule: Struct, baseZoom: int, json: Struct -> string) returns (ok: bool)
    modifies f`emits
    ensures ok == ItemOf(kind, baseZoom, json)(rule).Some?
    ensures ok ==> f.emits == old(f.emits) + ItemOf(kind, baseZoom, json)(rule).value
  {
    match kind {
      case NameRule => ok := ApplyNameRule(f, rule);
      case Surface => ok := ApplySurface(f, rule);
      case Flags => ok := ApplyFlagsRule(f, rule, baseZoom);
      case LevelEarly => ok := ApplyLevel(f, rule);
      case Width => ok := ApplyWidth(f, rule);
      case Lanes => ok := ApplyLanes(f, rule, json);
      case LevelLate => ok := ApplyLevelValue(f, rule);
      case SpeedLimit => ok := ApplySpeed(f, rule, json);
      case Access => ok := ApplyAccess(f, rule, json);
    }
  }

  /** One `for` loop of `processFeature`: every rule of a kind, in list order. */
  method ApplyRules(f: Feature, kind: RuleKind, rules: seq<Struct>, baseZoom: int, json: Struct -> string) returns (ok: bool)
    modifies f`emits
    ensures ok == Rules(ItemOf(kind, baseZoom, json), rules).Some?
    ensures ok ==> f.emits == old(f.emits) + Rules(ItemOf(kind, baseZoom, json), rules).value
  {
    for i := 0 to |rules|
      invariant Rules(ItemOf(kind, baseZoom, json), rules[..i]).Some?
      invariant f.emits == old(f.emits) + Rules(ItemOf(kind, baseZoom, json), rules[..i]).value
    {
      assert rules[..i + 1][..i] == rules[..i];
      var itemOk := ApplyRule(f, kind, rules[i], baseZoom, json);
      if !itemOk {
        RulesPrefixFails(ItemOf(kind, baseZoom, json), rules, i + 1);
        return false;
      }
      ThenAppend(old(f.emits), Rules(ItemOf(kind, baseZoom, json), rules[..i]), ItemOf(kind, baseZoom, json)(rules[i]));
    }
    assert rules[..|rules|] == rules;
    return true;
  }

  /** The whole-segment names: `name` from the primary name, then the common names. */
  method ApplyCommonNames(f: Feature, names: Struct)
    modifies f`emits
    ensures f.emits == old(f.emits) + [Attr(Whole, "name", StrValue(AsString(Get(names, "primary"))), MinSize(10.0))] +
                       CommonNameEmits(AsMap(Get(names, "common")))
  {
    var primary := AsString(Get(names, "primary"));
    f.SetAttr(Whole, "name", StrValue(primary), MinSize(10.0));
    var common := AsMap(Get(names, "common"));
    for i := 0 to |common|
      invariant f.emits == old(f.emits) + [Attr(Whole, "name", StrValue(primary), MinSize(10.0))] + CommonNameEmits(common[..i])
    {
      assert common[..i + 1][..i] == common[..i];
      f.SetAttr(Whole, BaseLayer.CommonKey(common[i].0), RawValue(common[i].1), MinSize(10.0));
    }
    assert common[..|common|] == common;
  }

  /** The names block of `processFeature`. */
  method ApplyNames(f: Feature, names: Struct, json: Struct -> string) returns (ok: bool)
    modifies f`emits
    ensures ok == NamesEmits(names, json).Some?
    ensures ok ==> f.emits == old(f.emits) + NamesEmits(names, json).value
  {
    if IsNull(names) {
      return true;
    }
    ghost var start := f.emits;
    ApplyCommonNames(f, names);
    ghost var head := [Attr(Whole, "name", StrValue(AsString(Get(names, "primary"))), MinSize(10.0))] +
                      CommonNameEmits(AsMap(Get(names, "common")));
    assert f.emits == start + head;
    ok := ApplyRules(f, NameRule, AsList(Get(names, "rules")), 0, json);
    ghost var rules := Rules(NameItem, AsList(Get(names, "rules")));
    assert NamesEmits(names, json) == Then(Some(head), rules);
    if ok {
      ThenAppend(start, Some(head), rules);
    }
  }

  /** The rule loops of `processFeature` after the names block. */
  method ApplyColumns(f: Feature, src: SourceFeature, z: int, json: Struct -> string) returns (ok: bool)
    modifies f`emits
    ensures ok == ColumnsEmits(src, z, json).Some?
    ensures ok ==> f.emits == old(f.emits) + ColumnsEmits(src, z, json).value
  {
    ok := ApplyRules(f, Surface, AsList(GetTag(src, "road_surface")), z, json);
    if !ok { return; }
    ghost var done := Column(src, Surface, "road_surface", z, json);
    ok := ApplyRules(f, Flags, AsList(GetTag(src, "road_flags")), z, json);
    if !ok { return; }
    ThenAppend(old(f.emits), done, Column(src, Flags, "road_flags", z, json));
    done := Then(done, Column(src, Flags, "road_flags", z, json));
    ok := ApplyRules(f, LevelEarly, AsList(GetTag(src, "level_rules")), z, json);
    if !ok { return; }
    ThenAppend(old(f.emits), done, Column(src, LevelEarly, "level_rules", z, json));
    done := Then(done, Column(src, LevelEarly, "level_rules", z, json));
    ok := ApplyRules(f, Width, AsList(GetTag(src, "width_rules")), z, json);
    if !ok { return; }
    ThenAppend(old(f.emits), done, Column(src, Width, "width_rules", z, json));
    done := Then(done, Column(src, Width, "width_rules", z, json));
    ok := ApplyRules(f, Lanes, AsList(GetTag(src, "lanes")), z, json);
    if !ok { return; }
    ThenAppend(old(f.emits), done, Column(src, Lanes, "lanes", z, json));
    done := Then(done, Column(src, Lanes, "lanes", z, json));
    ok := ApplyRules(f, LevelLate, AsList(GetTag(src, "level_rules")), z, json);
    if !ok { return; }
    ThenAppend(old(f.emits), done, Column(src, LevelLate, "level_rules", z, json));
    done := Then(done, Column(src, LevelLate, "level_rules", z, json));
    ok := ApplyRules(f, SpeedLimit, AsList(GetTag(src, "speed_limits")), z, json);
    if !ok { return; }
    ThenAppend(old(f.emits), done, Column(src, SpeedLimit, "speed_limits", z, json));
    done := Then(done, Column(src, SpeedLimit, "speed_limits", z, json));
    ok := ApplyRules(f, Access, AsList(GetTag(src, "access_restrictions")), z, json);
    if !ok { return; }
    ThenAppend(old(f.emits), done, Column(src, Access, "access_restrictions", z, json));
    done := Then(done, Column(src, Access, "access_restrictions", z, json));
    assert done == ColumnsEmits(src, z, json);
  }

  /**
   * `processFeature`: the segment as a line in layer `transportation`, or
   * nothing when a rule's range cannot be built.
   */
  method ProcessFeature(src: SourceFeature, json: Struct -> string) returns (f: Feature?)
    ensures f == null <==> TransportationEmits(src, json).None?
    ensures f != null ==> fresh(f) && f.layer == Layer && f.geometry == LineGeometry
    ensures f != null ==> f.minZoom == Some(RoadMinZoom(GetString(src, "class"))) && f.minPixelSize == Some(0.0)
    ensures f != null ==> f.pixelTolerance == None && f.bufferPixels == None
    ensures f != null ==> f.emits == TransportationEmits(src, json).value
  {
    var minzoom := RoadMinZoom(GetString(src, "class"));
    var feature := new Feature(Layer, LineGeometry);
    feature.SetMinZoom(minzoom);
    feature.SetMinPixelSize(0.0);
    feature.InheritAttrsFromSource(src, ["subtype", "class"], Always);
    ghost var inherited := Inherited(src, ["subtype", "class"], Always);
    assert feature.emits == inherited;
    assert feature.minZoom == Some(minzoom) && feature.minPixelSize == Some(0.0);
    assert feature.pixelTolerance == None && feature.bufferPixels == None;

    var ok := ApplyNames(feature, GetTag(src, "names"), json);
    ghost var head := Then(Some(inherited), NamesEmits(GetTag(src, "names"), json));
    if !ok {
      assert head.None?;
      return null;
    }
    ghost var names := NamesEmits(GetTag(src, "names"), json).value;
    assert head == Some(inherited + names);
    assert feature.emits == inherited + names;
    assert feature.minZoom == Some(minzoom) && feature.minPixelSize == Some(0.0);
    assert feature.pixelTolerance == None && feature.bufferPixels == None;

    ok := ApplyColumns(feature, src, minzoom, json);
    if !ok {
      assert Then(head, ColumnsEmits(src, minzoom, json)).None?;
      return null;
    }
    assert feature.emits == inherited + names + ColumnsEmits(src, minzoom, json).value;
    assert Then(head, ColumnsEmits(src, minzoom, json)) == Some(inherited + names + ColumnsEmits(src, minzoom, json).value);
    assert feature.minZoom == Some(minzoom) && feature.minPixelSize == Some(0.0);
    assert feature.pixelTolerance == None && feature.bufferPixels == None;
    return feature;
  }
}
