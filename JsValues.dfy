/**
 * The JavaScript values that flow through the gateway simulator: parsed JSON
 * bodies, route and query parameters, headers, mapping results and the event
 * handed to a function. Numbers are modelled as integers.
 */
module JsValues {

  datatype Value =
    | Undefined
    | Null
    | Bool(b: bool)
    | Num(n: int)
    | Str(s: string)
    | Arr(items: seq<Value>)
    | Obj(fields: map<string, Value>)

  /** JavaScript truthiness: `undefined`, `null`, `false`, `0` and `""` are falsy, everything else is truthy. */
  predicate Truthy(v: Value): (b: bool)
    ensures !b <==> v == Undefined || v == Null || v == Bool(false) || v == Num(0) || v == Str("")
  {
    match v
    case Undefined => false
    case Null => false
    case Bool(b) => b
    case Num(n) => n != 0
    case Str(s) => s != ""
    case Arr(_) => true
    case Obj(_) => true
  }

  /** Property access `m[k]` on a plain object: `undefined` when the key is not an own field. */
  function Lookup(m: map<string, Value>, k: string): (v: Value)
    ensures k !in m ==> v == Undefined
    ensures k in m ==> v == m[k]
  {
    if k in m then m[k] else Undefined
  }

  /**
   * The value of `vs[0] || vs[1] || ... || vs[n-1]`: the first truthy operand,
   * or the last operand when none is truthy.
   */
  function FirstTruthy(vs: seq<Value>): (r: Value)
    requires |vs| >= 1
    ensures Truthy(r) <==> exists i :: 0 <= i < |vs| && Truthy(vs[i])
    ensures Truthy(r) ==> exists i :: 0 <= i < |vs| && r == vs[i] && forall j :: 0 <= j < i ==> !Truthy(vs[j])
    ensures !Truthy(r) ==> r == vs[|vs| - 1]
    decreases |vs|
  {
    if |vs| == 1 || Truthy(vs[0]) then vs[0]
    else
      var r := FirstTruthy(vs[1..]);
      assert forall i :: 1 <= i < |vs| ==> vs[i] == vs[1..][i - 1];
      r
  }

  /** Decimal rendering of a natural number, most significant digit first. */
  function Decimal(n: nat): (s: string)
    ensures |s| >= 1 && (|s| == 1 <==> n < 10)
    ensures forall i :: 0 <= i < |s| ==> '0' <= s[i] <= '9'
  {
    if n < 10 then [Digit(n)] else Decimal(n / 10) + [Digit(n % 10)]
  }

  function Digit(d: nat): (c: char)
    requires d < 10
    ensures '0' <= c <= '9' && c as int == '0' as int + d
  {
    ('0' as int + d) as char
  }

  /** Distinct numbers have distinct decimal renderings. */
  lemma {:induction false} DecimalInjective(a: nat, b: nat)
    requires Decimal(a) == Decimal(b)
    ensures a == b
    decreases a
  {
    var ka, kb := Decimal(a), Decimal(b);
    if a < 10 {
      assert b < 10;
      assert Digit(a) == ka[0] == kb[0] == Digit(b);
    } else {
      assert b >= 10;
      var pa, pb := Decimal(a / 10), Decimal(b / 10);
      assert pa == ka[..|ka| - 1] == kb[..|kb| - 1] == pb;
      assert Digit(a % 10) == ka[|ka| - 1] == kb[|kb| - 1] == Digit(b % 10);
      DecimalInjective(a / 10, b / 10);
    }
  }

  /** The property name under which `for ... in` yields array index `n`. */
  function IndexKey(n: nat): (s: string)
    ensures |s| >= 1 && forall i :: 0 <= i < |s| ==> '0' <= s[i] <= '9'
  {
    Decimal(n)
  }

  /** No two indices share a decimal rendering. */
  lemma IndexKeysDistinct()
    ensures forall a: nat, b: nat :: IndexKey(a) == IndexKey(b) ==> a == b
  {
    forall a: nat, b: nat | IndexKey(a) == IndexKey(b)
      ensures a == b
    {
      DecimalInjective(a, b);
    }
  }

  /**
   * Index-keyed fields of an array or string: `"0" -> vs[0]`, `"1" -> vs[1]`, ...,
   * keyed by exactly the indices.
   */
  function IndexFields(vs: seq<Value>): (m: map<string, Value>)
    ensures forall k :: k in m <==> exists i :: 0 <= i < |vs| && k == IndexKey(i)
    ensures forall i :: 0 <= i < |vs| ==> IndexKey(i) in m && m[IndexKey(i)] == vs[i]
  {
    IndexKeysDistinct();
    map i | 0 <= i < |vs| :: IndexKey(i) := vs[i]
  }

  /**
   * The own enumerable fields of a value, which `for (prop in v)` guarded by
   * `v.hasOwnProperty(prop)` visits: an object's fields, an array's or a
   * string's indices; nothing for the other kinds.
   */
  function OwnFields(v: Value): (m: map<string, Value>)
    ensures v.Obj? ==> m == v.fields
    ensures v.Arr? ==> forall k :: k in m <==> exists i :: 0 <= i < |v.items| && k == IndexKey(i)
    ensures v.Arr? ==> forall i :: 0 <= i < |v.items| ==> IndexKey(i) in m && m[IndexKey(i)] == v.items[i]
    ensures v.Str? ==> forall k :: k in m <==> exists i :: 0 <= i < |v.s| && k == IndexKey(i)
    ensures v.Str? ==> forall i :: 0 <= i < |v.s| ==> IndexKey(i) in m && m[IndexKey(i)] == Str([v.s[i]])
    ensures !(v.Obj? || v.Arr? || v.Str?) ==> m == map[]
  {
    match v
    case Obj(m) => m
    case Arr(items) => IndexFields(items)
    case Str(s) =>
      var chars := seq(|s|, i requires 0 <= i < |s| => Str([s[i]]));
      assert |chars| == |s| && forall i :: 0 <= i < |s| ==> chars[i] == Str([s[i]]);
      IndexFields(chars)
    case _ => map[]
  }
}
