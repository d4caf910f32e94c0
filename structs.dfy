/**
 * The structured tag tree that the Overture Parquet source exposes for nested
 * columns (names, road rules, speed limits, ...), and the accessors the layer
 * handlers read it with. Every accessor is total: asking a node for something
 * it does not hold gives the null node, an empty list or map, or no value,
 * never an error.
 */
module Structs {

  datatype Option<+T> = None | Some(value: T) {
    function GetOr(default: T): T {
      if Some? then value else default
    }
  }

  /** One node of the tag tree. Map entries keep their iteration order. */
  datatype Struct =
    | Null
    | Bool(b: bool)
    | Int(i: int)
      /** A floating-point leaf; `text` is the decimal form Java prints for it. */
    | Num(x: real, text: string)
    | Str(s: string)
    | List(items: seq<Struct>)
    | Map(entries: seq<(string, Struct)>)

  predicate IsNull(s: Struct) {
    s.Null?
  }

  /** No key occurs twice among the entries (as in a Java map). */
  predicate DistinctKeys<V>(entries: seq<(string, V)>) {
    forall i, j | 0 <= i < j < |entries| :: entries[i].0 != entries[j].0
  }

  /** The value of the first entry with `key`, or the null node. */
  function Lookup(entries: seq<(string, Struct)>, key: string): Struct {
    if entries == [] then Null
    else if entries[0].0 == key then entries[0].1
    else Lookup(entries[1..], key)
  }

  /**
   * A missing key reads as the null node; a key that is present reads as its
   * entry's value (its only entry, when keys are distinct).
   */
  lemma {:induction false} LookupEntries(entries: seq<(string, Struct)>, key: string)
    ensures (forall i | 0 <= i < |entries| :: entries[i].0 != key) ==> Lookup(entries, key) == Null
    ensures forall i | 0 <= i < |entries| && entries[i].0 == key && DistinctKeys(entries) ::
              Lookup(entries, key) == entries[i].1
  {
    if entries != [] {
      LookupEntries(entries[1..], key);
      forall i | 0 <= i < |entries| && entries[i].0 == key && DistinctKeys(entries)
        ensures Lookup(entries, key) == entries[i].1
      {
        if i > 0 {
          assert entries[1..][i - 1] == entries[i];
          assert DistinctKeys(entries[1..]);
        }
      }
    }
  }

  /** `struct.get(key)`: a map's entry, the null node for anything else. */
  function Get(s: Struct, key: string): Struct {
    if s.Map? then Lookup(s.entries, key) else Null
  }

  /** `struct.get(index)`: a list's element, the null node out of range. */
  function At(s: Struct, index: int): Struct {
    if s.List? && 0 <= index < |s.items| then s.items[index] else Null
  }

  function AsList(s: Struct): seq<Struct> {
    if s.List? then s.items else []
  }

  function AsMap(s: Struct): seq<(string, Struct)> {
    if s.Map? then s.entries else []
  }

  /** `asString()`: the text of a leaf; no value (Java null) for null and containers. */
  function AsString(s: Struct): Option<string> {
    match s
    case Str(t) => Some(t)
    case Int(i) => Some(IntText(i))
    case Num(_, t) => Some(t)
    case Bool(b) => Some(if b then "true" else "false")
    case _ => None
  }

  /** `asInt()`: an integer leaf, or a floating leaf truncated toward zero. */
  function AsInt(s: Struct): Option<int> {
    match s
    case Int(i) => Some(i)
    case Num(x, _) => Some(TruncateTowardZero(x))
    case _ => None
  }

  /** `asDouble()`: the value of a numeric leaf. */
  function AsDouble(s: Struct): Option<real> {
    match s
    case Int(i) => Some(i as real)
    case Num(x, _) => Some(x)
    case _ => None
  }

  /** Java's `(int)` cast of a double, without its saturation at the int range. */
  function TruncateTowardZero(x: real): int {
    if x >= 0.0 then x.Floor else -((-x).Floor)
  }

  function DigitChar(d: int): char
    requires 0 <= d < 10
  {
    "0123456789"[d]
  }

  /** Decimal digits of a natural number, most significant first. */
  function NatText(n: nat): (s: string)
    ensures |s| >= 1
    ensures forall k | 0 <= k < |s| :: '0' <= s[k] <= '9'
  {
    if n < 10 then [DigitChar(n)] else NatText(n / 10) + [DigitChar(n % 10)]
  }

  /** `Integer.toString`: the decimal form of an integer. */
  function IntText(i: int): string {
    if i < 0 then "-" + NatText(-i) else NatText(i)
  }
}
