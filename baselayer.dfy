/**
 * What every Overture layer handler shares: an output layer name, a filter
 * on the source feature's `type`, and the `names` attribute map built from the
 * structured `names` column (`primary` plus the `common` translations).
 */
module BaseLayer {
  import opened Structs
  import opened Sources
  import opened Features

  /** A handler: the layer it writes and the `type` values it accepts. */
  datatype Handler = Handler(layer: string, types: seq<string>) {

    /** `name()`: the layer given when the handler was built. */
    function Name(): string {
      layer
    }

    /** `filter()`: `Expression.matchAny("type", types)`. */
    predicate Filter(src: SourceFeature) {
      var t := GetString(src, "type");
      t.Some? && t.value in types
    }
  }

  /** `name()` and `filter()` give back what the handler was built with. */
  lemma HandlerAccessors(layer: string, types: seq<string>, src: SourceFeature)
    ensures Handler(layer, types).Name() == layer
    ensures Handler(layer, types).Filter(src) <==>
              exists i | 0 <= i < |types| :: GetString(src, "type") == Some(types[i])
  {
    var t := GetString(src, "type");
    if t.Some? && t.value in types {
      var i :| 0 <= i < |types| && types[i] == t.value;
      assert GetString(src, "type") == Some(types[i]);
    }
  }

  /** The keys of an insertion-ordered map. */
  function KeySet(m: seq<(string, Value)>): set<string> {
    set i | 0 <= i < |m| :: m[i].0
  }

  lemma KeySetCons(p: (string, Value), s: seq<(string, Value)>)
    ensures KeySet([p] + s) == {p.0} + KeySet(s)
  {
    var r := [p] + s;
    forall k | k in KeySet(r) ensures k in {p.0} + KeySet(s) {
      var i :| 0 <= i < |r| && r[i].0 == k;
      if i > 0 { assert s[i - 1].0 == k; }
    }
    forall k | k in KeySet(s) ensures k in KeySet(r) {
      var i :| 0 <= i < |s| && s[i].0 == k;
      assert r[i + 1].0 == k;
    }
    assert r[0].0 == p.0;
  }

  /**
   * `LinkedHashMap.put`: a key already present keeps its position and takes the
   * new value; a new key goes to the end.
   */
  function Put(m: seq<(string, Value)>, key: string, value: Value): (r: seq<(string, Value)>)
    ensures KeySet(r) == KeySet(m) + {key}
    ensures key !in KeySet(m) ==> r == m + [(key, value)]
    ensures |m| > 0 && m[0].0 != key ==> r[0] == m[0]
  {
    if m == [] then
      assert KeySet([(key, value)]) == {key} by { KeySetCons((key, value), []); }
      [(key, value)]
    else
      assert m == [m[0]] + m[1..];
      KeySetCons(m[0], m[1..]);
      if m[0].0 == key then
        KeySetCons((key, value), m[1..]);
        [(key, value)] + m[1..]
      else
        var rest := Put(m[1..], key, value);
        KeySetCons(m[0], rest);
        [m[0]] + rest
  }

  /**
   * Putting a key the map already holds (keys being distinct, as in any Java
   * map) changes only that entry's value: the length and every position stay.
   */
  lemma {:induction false} PutExisting(m: seq<(string, Value)>, key: string, value: Value)
    requires DistinctKeys(m) && key in KeySet(m)
    ensures |Put(m, key, value)| == |m|
    ensures forall i | 0 <= i < |m| :: Put(m, key, value)[i] == (if m[i].0 == key then (key, value) else m[i])
    decreases |m|
  {
    var r := Put(m, key, value);
    assert m == [m[0]] + m[1..];
    KeySetCons(m[0], m[1..]);
    if m[0].0 == key {
      forall i | 0 < i < |m| ensures m[i].0 != key {
        assert m[0].0 != m[i].0;
      }
    } else {
      assert DistinctKeys(m[1..]);
      PutExisting(m[1..], key, value);
      forall i | 0 <= i < |m| ensures r[i] == (if m[i].0 == key then (key, value) else m[i]) {
        if i > 0 {
          assert r[i] == Put(m[1..], key, value)[i - 1];
          assert m[1..][i - 1] == m[i];
        }
      }
    }
  }

  /** A translated name's key, `name:` followed by the language. */
  function CommonKey(language: string): string {
    "name:" + language
  }

  /** Different languages give different keys. */
  lemma CommonKeyInjective(a: string, b: string)
    ensures CommonKey(a) == CommonKey(b) ==> a == b
  {
    assert CommonKey(a)[5..] == a && CommonKey(b)[5..] == b;
  }

  /** Puts each `common` entry into the map, in iteration order. */
  function PutCommon(m: seq<(string, Value)>, common: seq<(string, Struct)>): seq<(string, Value)> {
    if common == [] then m
    else
      var last := common[|common| - 1];
      Put(PutCommon(m, common[..|common| - 1]), CommonKey(last.0), StrValue(AsString(last.1)))
  }

  /**
   * `names(Struct)`: empty for a null struct; otherwise `name` set to the
   * primary name and one `name:<language>` entry per common name.
   */
  function NamesSpec(names: Struct): seq<(string, Value)> {
    if IsNull(names) then []
    else PutCommon([("name", StrValue(AsString(Get(names, "primary"))))], AsMap(Get(names, "common")))
  }

  /** `names(Struct)`, filling an insertion-ordered map entry by entry. */
  method Names(names: Struct) returns (result: seq<(string, Value)>)
    ensures result == NamesSpec(names)
  {
    if IsNull(names) {
      return [];
    }
    result := [("name", StrValue(AsString(Get(names, "primary"))))];
    var common := AsMap(Get(names, "common"));
    for i := 0 to |common|
      invariant result == PutCommon([("name", StrValue(AsString(Get(names, "primary"))))], common[..i])
    {
      assert common[..i + 1][..i] == common[..i];
      result := Put(result, CommonKey(common[i].0), StrValue(AsString(common[i].1)));
    }
    assert common[..|common|] == common;
  }

  /** `names(SourceFeature)`: the names of the feature's `names` column. */
  method FeatureNames(src: SourceFeature) returns (result: seq<(string, Value)>)
    ensures result == NamesSpec(GetTag(src, "names"))
  {
    result := Names(GetTag(src, "names"));
  }

  /** The key of a name attribute: `name` or `name:` followed by a language. */
  predicate IsNameKey(k: string) {
    k == "name" || (|k| >= 5 && k[..5] == "name:")
  }

  lemma {:induction false} PutCommonKeys(m: seq<(string, Value)>, common: seq<(string, Struct)>)
    requires forall k | k in KeySet(m) :: IsNameKey(k)
    ensures forall k | k in KeySet(PutCommon(m, common)) :: IsNameKey(k)
    decreases |common|
  {
    if common != [] {
      PutCommonKeys(m, common[..|common| - 1]);
    }
  }

  /** Every key of the names map is `name` or starts with `name:`. */
  lemma NamesKeys(names: Struct)
    ensures forall i | 0 <= i < |NamesSpec(names)| :: IsNameKey(NamesSpec(names)[i].0)
  {
    if !IsNull(names) {
      var init := [("name", StrValue(AsString(Get(names, "primary"))))];
      PutCommonKeys(init, AsMap(Get(names, "common")));
      var r := NamesSpec(names);
      forall i | 0 <= i < |r| ensures IsNameKey(r[i].0) {
        assert r[i].0 in KeySet(r);
      }
    }
  }

  lemma {:induction false} PutCommonFirst(m: seq<(string, Value)>, common: seq<(string, Struct)>)
    requires |m| > 0 && m[0].0 == "name"
    ensures |PutCommon(m, common)| > 0 && PutCommon(m, common)[0] == m[0]
    decreases |common|
  {
    if common != [] {
      PutCommonFirst(m, common[..|common| - 1]);
    }
  }

  /** A non-null struct's names map starts with `name`, the primary name, even when that is null. */
  lemma NamesFirst(names: Struct)
    requires !IsNull(names)
    ensures |NamesSpec(names)| > 0
    ensures NamesSpec(names)[0] == ("name", StrValue(AsString(Get(names, "primary"))))
  {
    PutCommonFirst([("name", StrValue(AsString(Get(names, "primary"))))], AsMap(Get(names, "common")));
  }

  /** The `common` entries as name attributes, one per entry, in order. */
  function CommonNames(common: seq<(string, Struct)>): (r: seq<(string, Value)>)
    ensures |r| == |common|
    ensures forall i | 0 <= i < |common| :: r[i] == (CommonKey(common[i].0), StrValue(AsString(common[i].1)))
  {
    if common == [] then []
    else CommonNames(common[..|common| - 1]) + [(CommonKey(common[|common| - 1].0), StrValue(AsString(common[|common| - 1].1)))]
  }

  /** A language not among the earlier entries gives a key not yet in the map. */
  lemma FreshCommonKey(head: (string, Value), prefix: seq<(string, Struct)>, language: string)
    requires head.0 == "name"
    requires forall j | 0 <= j < |prefix| :: prefix[j].0 != language
    ensures CommonKey(language) !in KeySet([head] + CommonNames(prefix))
  {
    var before := [head] + CommonNames(prefix);
    var key := CommonKey(language);
    forall i | 0 <= i < |before| ensures before[i].0 != key {
      if i > 0 {
        assert before[i].0 == CommonKey(prefix[i - 1].0);
        CommonKeyInjective(prefix[i - 1].0, language);
      } else {
        assert |key| >= 5;
      }
    }
  }

  lemma {:induction false} PutCommonDistinct(head: (string, Value), common: seq<(string, Struct)>)
    requires head.0 == "name" && DistinctKeys(common)
    ensures PutCommon([head], common) == [head] + CommonNames(common)
    decreases |common|
  {
    if common != [] {
      var n := |common| - 1;
      var prefix := common[..n];
      var entry := (CommonKey(common[n].0), StrValue(AsString(common[n].1)));
      assert DistinctKeys(prefix);
      PutCommonDistinct(head, prefix);
      FreshCommonKey(head, prefix, common[n].0);
      calc {
        PutCommon([head], common);
        Put([head] + CommonNames(prefix), entry.0, entry.1);
        ([head] + CommonNames(prefix)) + [entry];
        [head] + (CommonNames(prefix) + [entry]);
        [head] + CommonNames(common);
      }
    }
  }

  /**
   * With distinct `common` keys the names map is exactly `name` followed by
   * one `name:<language>` entry per common name, in iteration order; so it
   * holds 1 + |common| entries.
   */
  lemma NamesInOrder(names: Struct)
    requires !IsNull(names) && DistinctKeys(AsMap(Get(names, "common")))
    ensures NamesSpec(names) ==
              [("name", StrValue(AsString(Get(names, "primary"))))] + CommonNames(AsMap(Get(names, "common")))
    ensures |NamesSpec(names)| == 1 + |AsMap(Get(names, "common"))|
  {
    PutCommonDistinct(("name", StrValue(AsString(Get(names, "primary")))), AsMap(Get(names, "common")));
  }
}
