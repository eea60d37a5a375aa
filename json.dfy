/**
 * The request as the compiler receives it: a parsed JSON value, with the
 * handful of JavaScript operations the compiler applies to such values
 * (truthiness, `${v}` rendering, `Object.entries`, property reads).
 */
module Json {
  import opened Wrappers
  import opened Collections

  /** A JSON value; an object keeps its properties in insertion order. */
  datatype Value =
    | Null
    | Bool(b: bool)
    | Num(n: int)
    | Str(s: string)
    | Array(items: seq<Value>)
    | Object(props: seq<(string, Value)>)

  /** JavaScript truthiness: `null`, `false`, `0` and `""` are falsy. */
  predicate Truthy(v: Value) {
    match v
    case Null => false
    case Bool(b) => b
    case Num(n) => n != 0
    case Str(s) => s != ""
    case _ => true
  }

  function DigitChar(d: nat): char
    requires d < 10
  {
    "0123456789"[d]
  }

  /** The decimal rendering of a natural number, without leading zeros. */
  function NatText(n: nat): (s: string)
    ensures |s| >= 1
    ensures forall i | 0 <= i < |s| :: '0' <= s[i] <= '9'
    ensures n < 10 <==> |s| == 1
  {
    if n < 10 then [DigitChar(n)] else NatText(n / 10) + [DigitChar(n % 10)]
  }

  function IntText(n: int): string {
    if n < 0 then "-" + NatText(-n) else NatText(n)
  }

  /** `${v}`: how a template literal renders a JSON value. */
  function Text(v: Value): string
    decreases v, 1
  {
    match v
    case Null => "null"
    case Bool(b) => if b then "true" else "false"
    case Num(n) => IntText(n)
    case Str(s) => s
    case Array(items) => JoinText(v, items)
    case Object(_) => "[object Object]"
  }

  /** `items.join(",")`, where a null element renders as the empty string. */
  function JoinText(ghost parent: Value, items: seq<Value>): string
    requires forall i | 0 <= i < |items| :: items[i] < parent
    decreases parent, 0, |items|
  {
    if items == [] then ""
    else
      var head := if items[0].Null? then "" else Text(items[0]);
      if |items| == 1 then head else head + "," + JoinText(parent, items[1..])
  }

  /**
   * `Object.entries(v)` for a non-null value: an object's properties, an
   * array's index/element pairs, and nothing for a number or boolean.
   * (A string's character indices are not modelled: see the README.)
   */
  function Entries(v: Value): (r: seq<(string, Value)>)
    ensures forall i | 0 <= i < |r| :: r[i].1 < v
    ensures v.Object? ==> r == v.props
    ensures !v.Object? && !v.Array? ==> r == []
  {
    match v
    case Object(ps) => ps
    case Array(items) => seq(|items|, i requires 0 <= i < |items| => (NatText(i), items[i]))
    case _ => []
  }

  /** `Object.keys(v)`. */
  function Keys(v: Value): seq<string> {
    KeysOf(Entries(v))
  }

  /** `v[name]` on a non-null value: an object's own property, otherwise undefined. */
  function Member(v: Value, name: string): (r: Option<Value>)
    ensures r.Some? ==> v.Object? && (name, r.value) in v.props
  {
    if v.Object? then Lookup(v.props, name) else None
  }

  /** A JSON object never repeats a key. */
  predicate DistinctKeys(props: seq<(string, Value)>) {
    NoDup(KeysOf(props))
  }

  /** With distinct keys, the key of entry `i` occurs neither before nor after it. */
  lemma DistinctKeysAround(props: seq<(string, Value)>, i: nat)
    requires DistinctKeys(props) && i < |props|
    ensures props == props[..i] + ([props[i]] + props[i + 1..])
    ensures props[i].0 !in KeysOf(props[..i]) && props[i].0 !in KeysOf(props[i + 1..])
  {
    var field := props[i].0;
    var a, b := props[..i], props[i + 1..];
    assert props == a + ([props[i]] + b);
    forall j | 0 <= j < |a|
      ensures KeysOf(a)[j] != field
    {
      assert KeysOf(a)[j] == KeysOf(props)[j];
    }
    forall j | 0 <= j < |b|
      ensures KeysOf(b)[j] != field
    {
      assert KeysOf(b)[j] == KeysOf(props)[i + 1 + j];
    }
  }
}
