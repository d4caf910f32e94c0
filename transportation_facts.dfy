/**
 * What the transportation handler promises about the records it sets: the
 * zoom table, the range defaults, the gates and keys of each rule kind, and
 * that every ranged record lies on an ordered range.
 */
module TransportationFacts {
  import opened Structs
  import opened Sources
  import opened Features
  import BaseLayer
  import opened Transportation

  /** `name()` is `transportation` and `filter()` accepts exactly the type `segment`. */
  lemma TransportationHandler(src: SourceFeature)
    ensures Transportation.Handler.Name() == "transportation"
    ensures Transportation.Handler.Filter(src) <==> GetString(src, "type") == Some("segment")
  {
  }

  /** The class table stays within zooms 4 to 14, with 14 kept for unknown classes. */
  lemma RoadMinZoomRange(cls: Option<string>)
    ensures 4 <= RoadMinZoom(cls) <= 14
    ensures RoadMinZoom(cls) == 14 <==> !KnownClass(cls)
    ensures RoadMinZoom(cls) < 9 <==> cls in {Some("motorway"), Some("trunk"), Some("primary")}
  {
  }

  /**
   * With no `between` the range is the whole line; otherwise a missing bound
   * defaults to 0 or 1, a present one is kept, and inverted bounds give no range.
   */
  lemma RangeDefaults(rule: Struct)
    ensures IsNull(Get(rule, "between")) ==> RangeOf(rule) == Some(Range(0.0, 1.0))
    ensures !IsNull(Get(rule, "between")) ==>
              var start := AsDouble(At(Get(rule, "between"), 0));
              var end := AsDouble(At(Get(rule, "between"), 1));
              var lo := if start.Some? then start.value else 0.0;
              var hi := if end.Some? then end.value else 1.0;
              RangeOf(rule) == (if lo <= hi then Some(Range(lo, hi)) else None)
  {
  }

  /** A rule loop succeeds exactly when every one of its rules does. */
  lemma {:induction false} RulesSucceed(item: Struct -> Option<seq<Emit>>, rules: seq<Struct>)
    ensures Rules(item, rules).Some? <==> forall i | 0 <= i < |rules| :: item(rules[i]).Some?
    decreases |rules|
  {
    if rules != [] {
      var n := |rules| - 1;
      RulesSucceed(item, rules[..n]);
      assert forall i | 0 <= i < n :: rules[..n][i] == rules[i];
    }
  }

  /** A property every rule's records have is a property of the whole loop's records. */
  lemma {:induction false} RulesRecords(item: Struct -> Option<seq<Emit>>, rules: seq<Struct>, p: Emit -> bool)
    requires forall rule | rule in rules && item(rule).Some? :: AllRecords(item(rule).value, p)
    ensures Rules(item, rules).Some? ==> AllRecords(Rules(item, rules).value, p)
    decreases |rules|
  {
    if rules != [] {
      var n := |rules| - 1;
      assert forall rule | rule in rules[..n] :: rule in rules;
      RulesRecords(item, rules[..n], p);
      assert rules[n] in rules;
      ThenRecords(Rules(item, rules[..n]), item(rules[n]), p);
    }
  }

  /** A record of the names block: a name key, gated at minimum size 10. */
  predicate IsNameRecord(e: Emit) {
    e.Attr? && e.gate == MinSize(10.0) && BaseLayer.IsNameKey(e.key)
  }

  /** The common names: one whole-segment record per entry, keyed `name:<language>`, raw value, size 10. */
  lemma {:induction false} CommonNameRecords(common: seq<(string, Struct)>)
    ensures |CommonNameEmits(common)| == |common|
    ensures forall i | 0 <= i < |common| ::
              CommonNameEmits(common)[i] == Attr(Whole, BaseLayer.CommonKey(common[i].0), RawValue(common[i].1), MinSize(10.0))
    decreases |common|
  {
    if common != [] {
      CommonNameRecords(common[..|common| - 1]);
    }
  }

  /** Every name record, primary, common or ranged, has a name key and minimum size 10. */
  lemma NameRecords(names: Struct, json: Struct -> string)
    ensures NamesEmits(names, json).Some? ==> AllRecords(NamesEmits(names, json).value, IsNameRecord)
  {
    if !IsNull(names) {
      var common := AsMap(Get(names, "common"));
      CommonNameRecords(common);
      var head := [Attr(Whole, "name", StrValue(AsString(Get(names, "primary"))), MinSize(10.0))] + CommonNameEmits(common);
      forall i | 0 <= i < |head| ensures IsNameRecord(head[i]) {
        if i > 0 {
          var key := BaseLayer.CommonKey(common[i - 1].0);
          assert key[..5] == "name:";
        }
      }
      RulesRecords(NameItem, AsList(Get(names, "rules")), IsNameRecord);
      ThenRecords(Some(head), Rules(NameItem, AsList(Get(names, "rules"))), IsNameRecord);
    }
  }

  /** The sub-range a record is scoped to; none for a whole-feature record. */
  function RecordRange(e: Emit): Option<Range> {
    match e
    case Attr(Part(r), _, _, _) => Some(r)
    case Attr(Whole, _, _, _) => None
    case RangeMinZoom(r, _) => Some(r)
  }

  /**
   * A record of a `road_flags` rule: a flag set to true with thresholds
   * (4, 4, 12), or its range's minimum zoom, the larger of 9 and the segment's
   * base zoom.
   */
  predicate IsFlagRecord(e: Emit, baseZoom: int) {
    || (e.Attr? && e.scope.Part? && e.value == VBool(true) && e.gate == MinSizeBetween(4.0, 4, 12))
    || (e.RangeMinZoom? && e.zoom >= 9 && e.zoom >= baseZoom && (e.zoom == 9 || e.zoom == baseZoom))
  }

  function FlagRecord(baseZoom: int): Emit -> bool {
    e => IsFlagRecord(e, baseZoom)
  }

  function FlagRecordOn(r: Range, baseZoom: int): Emit -> bool {
    e => IsFlagRecord(e, baseZoom) && RecordRange(e) == Some(r)
  }

  /**
   * One flag: a true-valued attribute named after it, followed by a minimum
   * zoom for the range exactly when the flag is `is_link`; a flag with no text
   * fails the rule.
   */
  lemma FlagValueRecords(r: Range, flag: Struct, baseZoom: int)
    ensures FlagValue(r, flag, baseZoom).Some? <==> AsString(flag).Some?
    ensures FlagValue(r, flag, baseZoom).Some? ==>
              var es := FlagValue(r, flag, baseZoom).value;
              && es[0] == Attr(Part(r), AsString(flag).value, VBool(true), MinSizeBetween(4.0, 4, 12))
              && (|es| == 2 <==> AsString(flag) == Some("is_link"))
              && |es| <= 2
              && (|es| == 2 ==> es[1] == RangeMinZoom(r, if baseZoom > 9 then baseZoom else 9))
              && AllRecords(es, FlagRecordOn(r, baseZoom))
  {
  }

  /** A flag list succeeds exactly when every flag has text. */
  lemma {:induction false} FlagValuesSucceed(r: Range, flags: seq<Struct>, baseZoom: int)
    ensures FlagValues(r, flags, baseZoom).Some? <==> forall i | 0 <= i < |flags| :: AsString(flags[i]).Some?
    decreases |flags|
  {
    if flags != [] {
      var n := |flags| - 1;
      FlagValuesSucceed(r, flags[..n], baseZoom);
      FlagValueRecords(r, flags[n], baseZoom);
      assert forall i | 0 <= i < n :: flags[..n][i] == flags[i];
    }
  }

  /** A `road_flags` rule succeeds exactly when its range can be built and every flag has text. */
  lemma FlagsItemSucceeds(rule: Struct, baseZoom: int)
    ensures FlagsItem(rule, baseZoom).Some? <==>
              RangeOf(rule).Some? && forall i | 0 <= i < |AsList(Get(rule, "values"))| :: AsString(AsList(Get(rule, "values"))[i]).Some?
  {
    if RangeOf(rule).Some? {
      FlagValuesSucceed(RangeOf(rule).value, AsList(Get(rule, "values")), baseZoom);
    }
  }

  /** The flags of one rule are flag records on that rule's range. */
  lemma {:induction false} FlagValuesRecords(r: Range, flags: seq<Struct>, baseZoom: int)
    ensures FlagValues(r, flags, baseZoom).Some? ==>
              AllRecords(FlagValues(r, flags, baseZoom).value, FlagRecordOn(r, baseZoom))
    decreases |flags|
  {
    if flags != [] {
      var n := |flags| - 1;
      FlagValuesRecords(r, flags[..n], baseZoom);
      FlagValueRecords(r, flags[n], baseZoom);
      ThenRecords(FlagValues(r, flags[..n], baseZoom), FlagValue(r, flags[n], baseZoom), FlagRecordOn(r, baseZoom));
    }
  }

  /** Every record of the `road_flags` loop is a flag record. */
  lemma FlagsRecords(rules: seq<Struct>, baseZoom: int)
    ensures Rules(FlagsItemAt(baseZoom), rules).Some? ==>
              AllRecords(Rules(FlagsItemAt(baseZoom), rules).value, FlagRecord(baseZoom))
  {
    forall rule | rule in rules && FlagsItemAt(baseZoom)(rule).Some?
      ensures AllRecords(FlagsItemAt(baseZoom)(rule).value, FlagRecord(baseZoom))
    {
      var r := RangeOf(rule).value;
      FlagValuesRecords(r, AsList(Get(rule, "values")), baseZoom);
    }
    RulesRecords(FlagsItemAt(baseZoom), rules, FlagRecord(baseZoom));
  }

  /**
   * The two `level_rules` passes over one rule. The first sets `level` on the
   * rule's range whatever the value, as an integer or null, with thresholds
   * (4, 9, 12). The second sets it only when the value reads as an integer, at
   * zoom 12, with the same range and value, and skips any other rule without
   * building its range.
   */
  lemma LevelPasses(rule: Struct)
    ensures LevelItem(rule).Some? <==> RangeOf(rule).Some?
    ensures LevelItem(rule).Some? ==>
              LevelItem(rule).value ==
              [Attr(Part(RangeOf(rule).value), "level", IntValue(AsInt(Get(rule, "value"))), MinSizeBetween(4.0, 9, 12))]
    ensures AsInt(Get(rule, "value")).None? ==>
              LevelValueItem(rule) == Some([]) && (LevelItem(rule).Some? ==> LevelItem(rule).value[0].value == VNull)
    ensures AsInt(Get(rule, "value")).Some? ==>
              && (LevelValueItem(rule).Some? <==> LevelItem(rule).Some?)
              && (LevelValueItem(rule).Some? ==>
                    var early := LevelItem(rule).value[0];
                    LevelValueItem(rule).value == [Attr(early.scope, "level", early.value, MinZoom(12))])
  {
  }

  /** The first `level_rules` pass sets exactly one record per rule, in rule order. */
  lemma {:induction false} LevelRecords(rules: seq<Struct>)
    ensures Rules(LevelItem, rules).Some? ==>
              && |Rules(LevelItem, rules).value| == |rules|
              && forall i | 0 <= i < |rules| ::
                   RangeOf(rules[i]).Some? &&
                   Rules(LevelItem, rules).value[i] ==
                   Attr(Part(RangeOf(rules[i]).value), "level", IntValue(AsInt(Get(rules[i], "value"))), MinSizeBetween(4.0, 9, 12))
    decreases |rules|
  {
    if rules != [] && Rules(LevelItem, rules).Some? {
      var n := |rules| - 1;
      LevelRecords(rules[..n]);
      var es := Rules(LevelItem, rules).value;
      var before := Rules(LevelItem, rules[..n]).value;
      assert es == before + LevelItem(rules[n]).value;
      forall i | 0 <= i < |rules|
        ensures RangeOf(rules[i]).Some? &&
                es[i] == Attr(Part(RangeOf(rules[i]).value), "level", IntValue(AsInt(Get(rules[i], "value"))), MinSizeBetween(4.0, 9, 12))
      {
        if i < n {
          assert rules[..n][i] == rules[i];
          assert es[i] == before[i];
        }
      }
    }
  }

  /** A record of the second `level_rules` pass: an integer level at zoom 12. */
  predicate IsLevelValueRecord(e: Emit) {
    e.Attr? && e.key == "level" && e.value.VInt? && e.gate == MinZoom(12)
  }

  /** The second `level_rules` pass never sets a null level. */
  lemma LevelValueRecords(rules: seq<Struct>)
    ensures Rules(LevelValueItem, rules).Some? ==> AllRecords(Rules(LevelValueItem, rules).value, IsLevelValueRecord)
  {
    RulesRecords(LevelValueItem, rules, IsLevelValueRecord);
  }

  /** A record of the `lanes` loop: the lanes JSON, never the text `null`, at zoom 12. */
  predicate IsLanesRecord(e: Emit) {
    e.Attr? && e.key == "lanes" && e.value.VStr? && e.value.s != "null" && e.gate == MinZoom(12)
  }

  /**
   * A lanes rule whose value prints as `null` sets nothing and cannot fail, even
   * with inverted bounds; any other sets one lanes record on its range.
   */
  lemma LanesSkip(rule: Struct, json: Struct -> string)
    ensures json(Get(rule, "value")) == "null" ==> LanesItem(rule, json) == Some([])
    ensures json(Get(rule, "value")) != "null" ==>
              (LanesItem(rule, json).Some? <==> RangeOf(rule).Some?) &&
              (LanesItem(rule, json).Some? ==>
                 LanesItem(rule, json).value == [Attr(Part(RangeOf(rule).value), "lanes", VStr(json(Get(rule, "value"))), MinZoom(12))])
  {
  }

  /** Every record of the `lanes` loop is a lanes record. */
  lemma LanesRecords(rules: seq<Struct>, json: Struct -> string)
    ensures Rules(LanesItemWith(json), rules).Some? ==> AllRecords(Rules(LanesItemWith(json), rules).value, IsLanesRecord)
  {
    RulesRecords(LanesItemWith(json), rules, IsLanesRecord);
  }

  /** A record of the `speed_limits` loop: one of the four speed keys, at zoom 12. */
  predicate IsSpeedRecord(e: Emit) {
    e.Attr? && e.gate == MinZoom(12) && e.key in {"min_speed", "min_speed_when", "max_speed", "max_speed_when"}
  }

  /**
   * One speed limit on its range: a `min_speed` pair exactly when `min_speed`
   * is present, then a `max_speed` pair exactly when `max_speed` is, each speed
   * written as its value followed by its unit and each paired with the `when`
   * condition.
   */
  lemma SpeedPairs(rule: Struct, json: Struct -> string)
    ensures SpeedItem(rule, json).Some? <==> RangeOf(rule).Some?
    ensures SpeedItem(rule, json).Some? ==>
              var es := SpeedItem(rule, json).value;
              var r := Part(RangeOf(rule).value);
              var min := Get(rule, "min_speed");
              var max := Get(rule, "max_speed");
              var when := WhenValue(Get(rule, "when"), json);
              && |es| == (if IsNull(min) then 0 else 2) + (if IsNull(max) then 0 else 2)
              && (!IsNull(min) ==>
                    es[0] == Attr(r, "min_speed", VStr(SpeedText(min)), MinZoom(12)) &&
                    es[1] == Attr(r, "min_speed_when", when, MinZoom(12)))
              && (!IsNull(max) ==>
                    es[|es| - 2] == Attr(r, "max_speed", VStr(SpeedText(max)), MinZoom(12)) &&
                    es[|es| - 1] == Attr(r, "max_speed_when", when, MinZoom(12)))
              && AllRecords(es, IsSpeedRecord)
  {
  }

  /** Every record of the `speed_limits` loop is a speed record. */
  lemma SpeedRecords(rules: seq<Struct>, json: Struct -> string)
    ensures Rules(SpeedItemWith(json), rules).Some? ==> AllRecords(Rules(SpeedItemWith(json), rules).value, IsSpeedRecord)
  {
    forall rule | rule in rules && SpeedItemWith(json)(rule).Some?
      ensures AllRecords(SpeedItemWith(json)(rule).value, IsSpeedRecord)
    {
      SpeedPairs(rule, json);
    }
    RulesRecords(SpeedItemWith(json), rules, IsSpeedRecord);
  }

  /** 50 in km/h prints as `50km/h`. */
  lemma SpeedTextExample()
    ensures SpeedText(Map([("value", Int(50)), ("unit", Str("km/h"))])) == "50km/h"
  {
    var speed := Map([("value", Int(50)), ("unit", Str("km/h"))]);
    assert Get(speed, "value") == Int(50);
    assert Get(speed, "unit") == Str("km/h") by {
      assert speed.entries[0].0 != "unit";
      assert speed.entries[1..] == [("unit", Str("km/h"))];
    }
    assert IntText(50) == "50";
  }

  /**
   * A limit of 50 km/h on [0.2, 0.8) under a condition: the maximum speed reads
   * `50km/h`, its condition is the condition's JSON, and no minimum is set.
   */
  lemma SpeedExample(json: Struct -> string, when: Struct)
    requires !IsNull(when)
    ensures
      var speed := Map([("value", Int(50)), ("unit", Str("km/h"))]);
      var rule := Map([("between", List([Num(0.2, "0.2"), Num(0.8, "0.8")])), ("max_speed", speed), ("when", when)]);
      SpeedItem(rule, json) ==
        Some([Attr(Part(Range(0.2, 0.8)), "max_speed", VStr("50km/h"), MinZoom(12)),
              Attr(Part(Range(0.2, 0.8)), "max_speed_when", VStr(json(when)), MinZoom(12))])
  {
    var speed := Map([("value", Int(50)), ("unit", Str("km/h"))]);
    var rule := Map([("between", List([Num(0.2, "0.2"), Num(0.8, "0.8")])), ("max_speed", speed), ("when", when)]);
    var e := rule.entries;
    assert e[1..] == [("max_speed", speed), ("when", when)];
    assert e[1..][1..] == [("when", when)];
    assert e[1..][1..][1..] == [];
    assert Get(rule, "min_speed") == Null by {
      assert Lookup(e, "min_speed") == Lookup(e[1..], "min_speed");
      assert Lookup(e[1..], "min_speed") == Lookup(e[1..][1..], "min_speed");
      assert Lookup(e[1..][1..], "min_speed") == Lookup(e[1..][1..][1..], "min_speed");
    }
    assert Get(rule, "max_speed") == speed by {
      assert Lookup(e, "max_speed") == Lookup(e[1..], "max_speed");
    }
    assert Get(rule, "when") == when by {
      assert Lookup(e, "when") == Lookup(e[1..], "when");
      assert Lookup(e[1..], "when") == Lookup(e[1..][1..], "when");
    }
    SpeedTextExample();
    assert RangeOf(rule) == Some(Range(0.2, 0.8));
    var maxPair := [Attr(Part(Range(0.2, 0.8)), "max_speed", VStr("50km/h"), MinZoom(12)),
                    Attr(Part(Range(0.2, 0.8)), "max_speed_when", VStr(json(when)), MinZoom(12))];
    assert SpeedItem(rule, json) == Some([] + maxPair);
    assert [] + maxPair == maxPair;
  }

  /** A `between` with a null start and an end of 0.5 gives [0, 0.5). */
  lemma NullStartExample()
    ensures RangeOf(Map([("between", List([Null, Num(0.5, "0.5")]))])) == Some(Range(0.0, 0.5))
  {
    assert Get(Map([("between", List([Null, Num(0.5, "0.5")]))]), "between") == List([Null, Num(0.5, "0.5")]);
  }

  /** A record of the `access_restrictions` loop: `access` or `access_when` at zoom 12. */
  predicate IsAccessRecord(e: Emit) {
    e.Attr? && e.gate == MinZoom(12) && e.key in {"access", "access_when"}
  }

  /**
   * One access restriction on its range: nothing without an access type,
   * otherwise the type as text followed by its condition.
   */
  lemma AccessPairs(rule: Struct, json: Struct -> string)
    ensures AccessItem(rule, json).Some? <==> RangeOf(rule).Some?
    ensures AccessItem(rule, json).Some? ==>
              var es := AccessItem(rule, json).value;
              var r := Part(RangeOf(rule).value);
              var accessType := Get(rule, "access_type");
              && (es == [] <==> IsNull(accessType))
              && (!IsNull(accessType) ==>
                    es == [Attr(r, "access", StrValue(AsString(accessType)), MinZoom(12)),
                           Attr(r, "access_when", WhenValue(Get(rule, "when"), json), MinZoom(12))])
              && AllRecords(es, IsAccessRecord)
  {
  }

  /** Every record of the `access_restrictions` loop is an access record. */
  lemma AccessRecords(rules: seq<Struct>, json: Struct -> string)
    ensures Rules(AccessItemWith(json), rules).Some? ==> AllRecords(Rules(AccessItemWith(json), rules).value, IsAccessRecord)
  {
    forall rule | rule in rules && AccessItemWith(json)(rule).Some?
      ensures AllRecords(AccessItemWith(json)(rule).value, IsAccessRecord)
    {
      AccessPairs(rule, json);
    }
    RulesRecords(AccessItemWith(json), rules, IsAccessRecord);
  }

  /** The record is on the whole feature or on a range whose start is not above its end. */
  predicate OnOrderedRange(e: Emit) {
    RecordRange(e).None? || RecordRange(e).value.start <= RecordRange(e).value.end
  }

  /** Whatever its kind, a rule only sets records on the range its `between` gives. */
  lemma ItemOrdered(kind: RuleKind, baseZoom: int, json: Struct -> string, rule: Struct)
    ensures ItemOf(kind, baseZoom, json)(rule).Some? ==> AllRecords(ItemOf(kind, baseZoom, json)(rule).value, OnOrderedRange)
  {
    if kind == Flags && FlagsItem(rule, baseZoom).Some? {
      var r := RangeOf(rule).value;
      FlagValuesRecords(r, AsList(Get(rule, "values")), baseZoom);
      assert AllRecords(FlagValues(r, AsList(Get(rule, "values")), baseZoom).value, FlagRecordOn(r, baseZoom));
    } else if kind == SpeedLimit {
      SpeedPairs(rule, json);
    }
  }

  lemma ColumnOrdered(src: SourceFeature, kind: RuleKind, column: string, baseZoom: int, json: Struct -> string)
    ensures Column(src, kind, column, baseZoom, json).Some? ==>
              AllRecords(Column(src, kind, column, baseZoom, json).value, OnOrderedRange)
  {
    var item := ItemOf(kind, baseZoom, json);
    forall rule | rule in AsList(GetTag(src, column)) && item(rule).Some?
      ensures AllRecords(item(rule).value, OnOrderedRange)
    {
      ItemOrdered(kind, baseZoom, json, rule);
    }
    RulesRecords(item, AsList(GetTag(src, column)), OnOrderedRange);
  }

  /** The names block only sets whole-segment records and records on ordered ranges. */
  lemma NamesOrdered(names: Struct, json: Struct -> string)
    ensures NamesEmits(names, json).Some? ==> AllRecords(NamesEmits(names, json).value, OnOrderedRange)
  {
    if !IsNull(names) {
      CommonNameRecords(AsMap(Get(names, "common")));
      var head := [Attr(Whole, "name", StrValue(AsString(Get(names, "primary"))), MinSize(10.0))] +
                  CommonNameEmits(AsMap(Get(names, "common")));
      assert AllRecords(head, OnOrderedRange);
      forall rule | rule in AsList(Get(names, "rules")) && NameItem(rule).Some?
        ensures AllRecords(NameItem(rule).value, OnOrderedRange)
      {
        ItemOrdered(NameRule, 0, json, rule);
      }
      RulesRecords(NameItem, AsList(Get(names, "rules")), OnOrderedRange);
      ThenRecords(Some(head), Rules(NameItem, AsList(Get(names, "rules"))), OnOrderedRange);
    }
  }

  /** The rule loops after the names only set records on ordered ranges. */
  lemma ColumnsOrdered(src: SourceFeature, z: int, json: Struct -> string)
    ensures ColumnsEmits(src, z, json).Some? ==> AllRecords(ColumnsEmits(src, z, json).value, OnOrderedRange)
  {
    var surface := Column(src, Surface, "road_surface", z, json);
    var flags := Column(src, Flags, "road_flags", z, json);
    var level := Column(src, LevelEarly, "level_rules", z, json);
    var width := Column(src, Width, "width_rules", z, json);
    var lanes := Column(src, Lanes, "lanes", z, json);
    var levelValue := Column(src, LevelLate, "level_rules", z, json);
    var speed := Column(src, SpeedLimit, "speed_limits", z, json);
    var access := Column(src, Access, "access_restrictions", z, json);
    ColumnOrdered(src, Surface, "road_surface", z, json);
    ColumnOrdered(src, Flags, "road_flags", z, json);
    ColumnOrdered(src, LevelEarly, "level_rules", z, json);
    ColumnOrdered(src, Width, "width_rules", z, json);
    ColumnOrdered(src, Lanes, "lanes", z, json);
    ColumnOrdered(src, LevelLate, "level_rules", z, json);
    ColumnOrdered(src, SpeedLimit, "speed_limits", z, json);
    ColumnOrdered(src, Access, "access_restrictions", z, json);
    var a := Then(surface, flags);
    ThenRecords(surface, flags, OnOrderedRange);
    ThenRecords(a, level, OnOrderedRange);
    var b := Then(Then(a, level), width);
    ThenRecords(Then(a, level), width, OnOrderedRange);
    ThenRecords(b, lanes, OnOrderedRange);
    var c := Then(Then(b, lanes), levelValue);
    ThenRecords(Then(b, lanes), levelValue, OnOrderedRange);
    ThenRecords(c, speed, OnOrderedRange);
    ThenRecords(Then(c, speed), access, OnOrderedRange);
  }

  /**
   * Every record the handler sets on a segment is on the whole segment or on a
   * range whose start is not above its end.
   */
  lemma RangesOrdered(src: SourceFeature, json: Struct -> string)
    ensures TransportationEmits(src, json).Some? ==> AllRecords(TransportationEmits(src, json).value, OnOrderedRange)
  {
    var inherited := Inherited(src, ["subtype", "class"], Always);
    InheritedRecords(src, ["subtype", "class"], Always);
    assert AllRecords(inherited, OnOrderedRange);
    NamesOrdered(GetTag(src, "names"), json);
    ThenRecords(Some(inherited), NamesEmits(GetTag(src, "names"), json), OnOrderedRange);
    var z := RoadMinZoom(GetString(src, "class"));
    ColumnsOrdered(src, z, json);
    ThenRecords(Then(Some(inherited), NamesEmits(GetTag(src, "names"), json)), ColumnsEmits(src, z, json), OnOrderedRange);
  }

  /** The segment's first records are its `subtype` and `class`, set on the whole line without a gate. */
  lemma InheritedFirst(src: SourceFeature, json: Struct -> string)
    ensures TransportationEmits(src, json).Some? ==>
              var es := TransportationEmits(src, json).value;
              |es| >= 2 &&
              es[0] == Attr(Whole, "subtype", RawValue(GetTag(src, "subtype")), Always) &&
              es[1] == Attr(Whole, "class", RawValue(GetTag(src, "class")), Always)
  {
    InheritedRecords(src, ["subtype", "class"], Always);
  }
}
