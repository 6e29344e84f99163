/**
 * The part of JavaScript's value semantics that the auth store depends on:
 * truthiness (`Boolean(v)`, `!v`), the own enumerable properties that
 * `Object.assign` copies, and reading a named property of a value.
 */
module Js {

  /** A JavaScript value. Numbers are modelled as integers. */
  datatype Value =
    | Undefined
    | Null
    | Bool(b: bool)
    | Num(n: int)
    | Str(s: string)
    | Arr(items: seq<Value>)
    | Obj(props: map<string, Value>)

  /** `Boolean(v)`: the falsy values are undefined, null, false, 0 and "". */
  function Truthy(v: Value): (b: bool)
    ensures !b <==> v in {Undefined, Null, Bool(false), Num(0), Str("")}
  {
    match v
    case Undefined => false
    case Null => false
    case Bool(b) => b
    case Num(n) => n != 0
    case Str(s) => s != ""
    case Arr(_) => true
    case Obj(_) => true
  }

  function Digit(d: nat): (c: char)
    requires d < 10
  {
    ('0' as int + d) as char
  }

  function DigitValue(c: char): nat {
    if '0' <= c <= '9' then c as int - '0' as int else 0
  }

  /** The canonical decimal spelling of an array index, as used for property keys. */
  function Decimal(n: nat): (r: string)
    ensures 1 <= |r|
    ensures |r| == 1 <==> n < 10
    ensures r[0] != '0' || n == 0
    ensures forall i :: 0 <= i < |r| ==> '0' <= r[i] <= '9'
  {
    if n < 10 then [Digit(n)] else Decimal(n / 10) + [Digit(n % 10)]
  }

  /** Reads a string of decimal digits back as a number. */
  function DecimalValue(s: string): nat {
    if s == [] then 0 else DecimalValue(s[..|s| - 1]) * 10 + DigitValue(s[|s| - 1])
  }

  lemma {:induction false} DecimalRoundTrip(n: nat)
    ensures DecimalValue(Decimal(n)) == n
  {
    if n >= 10 {
      var r := Decimal(n);
      assert r[..|r| - 1] == Decimal(n / 10);
      DecimalRoundTrip(n / 10);
    }
  }

  /** Distinct indices have distinct keys. */
  lemma DecimalInjective()
    ensures forall a: nat, b: nat :: Decimal(a) == Decimal(b) ==> a == b
  {
    forall a: nat, b: nat | Decimal(a) == Decimal(b) ensures a == b {
      DecimalRoundTrip(a);
      DecimalRoundTrip(b);
    }
  }

  /** The keys "0", "1", ..., of the first `n` indices. */
  function IndexKeys(n: nat): set<string> {
    set i | 0 <= i < n :: Decimal(i)
  }

  lemma IndexKeysStep(n: nat)
    ensures IndexKeys(n + 1) == IndexKeys(n) + {Decimal(n)}
    ensures Decimal(n) !in IndexKeys(n)
  {
    DecimalInjective();
  }

  /** The index-keyed own properties of an array, or of a string's characters. */
  function IndexProps(items: seq<Value>): (r: map<string, Value>)
    ensures forall i :: 0 <= i < |items| ==> Decimal(i) in r && r[Decimal(i)] == items[i]
  {
    if items == [] then map[]
    else
      var last := |items| - 1;
      DecimalInjective();
      IndexProps(items[..last])[Decimal(last) := items[last]]
  }

  /** An array-like value has exactly its index keys as own properties. */
  lemma {:induction false} IndexPropsKeys(items: seq<Value>)
    ensures IndexProps(items).Keys == IndexKeys(|items|)
  {
    if items != [] {
      var last := |items| - 1;
      IndexPropsKeys(items[..last]);
      IndexKeysStep(last);
    }
  }

  /** The one-character strings of `s`, as a string spreads into an object. */
  function Chars(s: string): (r: seq<Value>)
    ensures |r| == |s|
    ensures forall i :: 0 <= i < |s| ==> r[i] == Str([s[i]])
  {
    seq(|s|, i requires 0 <= i < |s| => Str([s[i]]))
  }

  /** The own enumerable properties of `v`, the ones `Object.assign` copies from it. */
  function OwnProps(v: Value): (r: map<string, Value>)
    ensures v.Obj? ==> r == v.props
    ensures v.Arr? ==> r.Keys == IndexKeys(|v.items|)
    ensures v.Str? ==> r.Keys == IndexKeys(|v.s|)
    ensures !(v.Obj? || v.Arr? || v.Str?) ==> r == map[]
  {
    match v
    case Obj(m) => m
    case Arr(xs) => IndexPropsKeys(xs); IndexProps(xs)
    case Str(s) => IndexPropsKeys(Chars(s)); IndexProps(Chars(s))
    case _ => map[]
  }

  /**
   * `Object.assign(target, source)` with one source: every own property of
   * the source is copied over the target, and a null or undefined source is
   * skipped.
   */
  function Assign(target: map<string, Value>, source: Value): (r: map<string, Value>)
    ensures r.Keys == target.Keys + OwnProps(source).Keys
    ensures forall k :: k in OwnProps(source) ==> r[k] == OwnProps(source)[k]
    ensures forall k :: k in target && k !in OwnProps(source) ==> r[k] == target[k]
    ensures !Truthy(source) ==> r == target
  {
    target + OwnProps(source)
  }

  /** The outcome of reading a property: a value, or a thrown TypeError. */
  datatype Access = Thrown | Got(value: Value)

  /**
   * `v.key` for the two keys the store reads, `user` and `id_token` (neither
   * an index, `length`, nor inherited from a prototype): it throws on
   * null and undefined and is undefined when `v` has no such own property.
   */
  function Field(v: Value, key: string): (r: Access)
    requires key == "user" || key == "id_token"
    ensures r.Thrown? <==> v.Undefined? || v.Null?
    ensures v.Obj? && key in v.props ==> r == Got(v.props[key])
    ensures r.Got? && !(v.Obj? && key in v.props) ==> r.value == Undefined
  {
    match v
    case Undefined => Thrown
    case Null => Thrown
    case Obj(m) => if key in m then Got(m[key]) else Got(Undefined)
    case _ => Got(Undefined)
  }
}
