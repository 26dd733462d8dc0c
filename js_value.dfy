/** The JavaScript values that flow through the engine: messages, script
    results and the objects the codec builds. Objects are ordered lists of
    own properties, because JavaScript keeps insertion order and the codec's
    output depends on it. Numbers are integers or `NaN`; fractional numbers
    are not part of this model. */
module JsValue {
  import opened Wrappers
  import opened Strings
  import Seqs

  datatype Value =
    | Undefined
    | Null
    | Bool(b: bool)
    | Num(n: int)
    | NaN
    | Str(s: string)
    | Arr(items: seq<Value>)
    | Obj(props: seq<(string, Value)>)

  /** What a JavaScript operation throws: a `TypeError` raised by the runtime,
      an `Error` with a message raised by the engine, or whatever a user
      script threw. */
  datatype Exception = TypeError | Error(message: string) | Thrown(value: Value)

  /** JavaScript truthiness (ECMAScript section 7.1.2, ToBoolean). */
  predicate Truthy(v: Value) {
    match v
    case Undefined => false
    case Null => false
    case Bool(b) => b
    case Num(n) => n != 0
    case NaN => false
    case Str(s) => s != ""
    case Arr(_) => true
    case Obj(_) => true
  }

  /** `null` or `undefined`: the values whose property reads throw. */
  predicate Nullish(v: Value) { v.Undefined? || v.Null? }

  /** `a || b` */
  function Or(a: Value, b: Value): (r: Value)
    ensures Truthy(a) ==> r == a
    ensures !Truthy(a) ==> r == b
  {
    if Truthy(a) then a else b
  }

  /** `typeof v === 'object'`, which holds for `null` as well. */
  predicate IsObjectType(v: Value) {
    v.Null? || v.Arr? || v.Obj?
  }

  // ---------------------------------------------------------------- properties

  function KeysOf(props: seq<(string, Value)>): (keys: seq<string>)
    ensures |keys| == |props|
    ensures forall i | 0 <= i < |props| :: keys[i] == props[i].0
  {
    seq(|props|, i requires 0 <= i < |props| => props[i].0)
  }

  /** The value of the first property named `key`. */
  function Lookup(props: seq<(string, Value)>, key: string): (r: Option<Value>)
    ensures r.None? <==> key !in KeysOf(props)
  {
    if |props| == 0 then None
    else if props[0].0 == key then Some(props[0].1)
    else Lookup(props[1..], key)
  }

  predicate DistinctKeys(props: seq<(string, Value)>) {
    forall i, j | 0 <= i < j < |props| :: props[i].0 != props[j].0
  }

  /** `obj[key] = v`: an existing property keeps its position and takes the new
      value; a new one is appended. */
  function Assign(props: seq<(string, Value)>, key: string, v: Value): (r: seq<(string, Value)>)
    ensures KeysOf(r) == if key in KeysOf(props) then KeysOf(props) else KeysOf(props) + [key]
  {
    if |props| == 0 then [(key, v)]
    else if props[0].0 == key then [(key, v)] + props[1..]
    else [props[0]] + Assign(props[1..], key, v)
  }

  lemma {:induction false} AssignFresh(props: seq<(string, Value)>, key: string, v: Value)
    requires key !in KeysOf(props)
    ensures Assign(props, key, v) == props + [(key, v)]
  {
    if |props| > 0 {
      assert KeysOf(props[1..]) == KeysOf(props)[1..];
      assert key !in KeysOf(props[1..]);
      AssignFresh(props[1..], key, v);
      assert props == [props[0]] + props[1..];
    }
  }

  /** After `obj[key] = v`, reading `key` gives `v` and every other property
      reads as before. */
  lemma {:induction false} AssignLookup(props: seq<(string, Value)>, key: string, v: Value, other: string)
    ensures Lookup(Assign(props, key, v), key) == Some(v)
    ensures other != key ==> Lookup(Assign(props, key, v), other) == Lookup(props, other)
  {
    if |props| > 0 && props[0].0 != key {
      AssignLookup(props[1..], key, v, other);
    }
  }

  lemma {:induction false} AssignKeepsDistinct(props: seq<(string, Value)>, key: string, v: Value)
    requires DistinctKeys(props)
    ensures DistinctKeys(Assign(props, key, v))
  {
    var r := Assign(props, key, v);
    forall i, j | 0 <= i < j < |r| ensures r[i].0 != r[j].0 {
      assert KeysOf(r)[i] == r[i].0 && KeysOf(r)[j] == r[j].0;
      if key !in KeysOf(props) {
        assert KeysOf(r) == KeysOf(props) + [key];
        if j < |props| {
          assert KeysOf(props)[i] == props[i].0 && KeysOf(props)[j] == props[j].0;
        }
      } else {
        assert KeysOf(r) == KeysOf(props);
        assert KeysOf(props)[i] == props[i].0 && KeysOf(props)[j] == props[j].0;
      }
    }
  }

  // ---------------------------------------------------------------- keys and order

  /** A canonical array index: the decimal text of a number below 2^32 - 1
      (ECMAScript section 6.1.7). */
  predicate IsArrayIndex(key: string) {
    |key| >= 1 && AllDigits(key) && (key[0] != '0' || |key| == 1) && DecimalValue(key) < 0xFFFF_FFFF
  }

  lemma ArrayIndexOfDecimal(n: nat)
    requires n < 0xFFFF_FFFF
    ensures IsArrayIndex(NatToDecimal(n))
  {
    DecimalRoundTrip(n);
  }

  /** A key holding a character other than a digit is never an array index. */
  lemma NotArrayIndex(key: string, i: int)
    requires 0 <= i < |key| && !IsDigit(key[i])
    ensures !IsArrayIndex(key)
  {
  }

  /** The number an array-index key denotes. */
  function KeyNumber(k: string): nat {
    if AllDigits(k) then DecimalValue(k) else 0
  }

  function InsertByIndex(k: string, sorted: seq<string>): (r: seq<string>)
    ensures multiset(r) == multiset(sorted) + multiset{k}
    ensures |r| > 0 && (r[0] == k || (|sorted| > 0 && r[0] == sorted[0]))
  {
    if |sorted| == 0 then [k]
    else if KeyNumber(k) <= KeyNumber(sorted[0]) then [k] + sorted
    else
      var rest := InsertByIndex(k, sorted[1..]);
      assert sorted == [sorted[0]] + sorted[1..];
      [sorted[0]] + rest
  }

  /** Insertion sort of array-index keys by the number they denote. */
  function SortByIndex(keys: seq<string>): (r: seq<string>)
    ensures multiset(r) == multiset(keys)
  {
    if |keys| == 0 then []
    else
      assert keys == [keys[0]] + keys[1..];
      InsertByIndex(keys[0], SortByIndex(keys[1..]))
  }

  predicate SortedByIndex(keys: seq<string>) {
    forall i, j | 0 <= i < j < |keys| :: KeyNumber(keys[i]) <= KeyNumber(keys[j])
  }

  lemma {:induction false} InsertByIndexSorted(k: string, sorted: seq<string>)
    requires SortedByIndex(sorted)
    ensures SortedByIndex(InsertByIndex(k, sorted))
  {
    if |sorted| > 0 && KeyNumber(k) > KeyNumber(sorted[0]) {
      InsertByIndexSorted(k, sorted[1..]);
      var rest := InsertByIndex(k, sorted[1..]);
      assert KeyNumber(sorted[0]) <= KeyNumber(rest[0]);
      var r := [sorted[0]] + rest;
      forall i, j | 0 <= i < j < |r| ensures KeyNumber(r[i]) <= KeyNumber(r[j]) {
        if i == 0 && j > 1 {
          assert KeyNumber(rest[0]) <= KeyNumber(rest[j - 1]);
        }
      }
    }
  }

  lemma {:induction false} SortByIndexSorted(keys: seq<string>)
    ensures SortedByIndex(SortByIndex(keys))
  {
    if |keys| > 0 {
      SortByIndexSorted(keys[1..]);
      InsertByIndexSorted(keys[0], SortByIndex(keys[1..]));
    }
  }

  /** The order in which `for..in`, `Object.keys` and `Object.entries`
      enumerate own properties (ECMAScript section 10.1.11.1): array-index keys
      in ascending numeric order, then the other keys in insertion order. */
  function ForInOrder(keys: seq<string>): (r: seq<string>)
    ensures multiset(r) == multiset(keys)
  {
    SplitByIndex(keys);
    SortByIndex(Seqs.Keep(keys, IsArrayIndex)) + Seqs.Keep(keys, (k: string) => !IsArrayIndex(k))
  }

  lemma {:induction false} SplitByIndex(keys: seq<string>)
    ensures multiset(Seqs.Keep(keys, IsArrayIndex)) + multiset(Seqs.Keep(keys, (k: string) => !IsArrayIndex(k)))
         == multiset(keys)
  {
    if |keys| > 0 {
      SplitByIndex(keys[..|keys| - 1]);
      assert keys == keys[..|keys| - 1] + [keys[|keys| - 1]];
    }
  }

  /** Without array-index keys the enumeration order is the insertion order. */
  lemma ForInOrderWithoutIndexKeys(keys: seq<string>)
    requires forall i | 0 <= i < |keys| :: !IsArrayIndex(keys[i])
    ensures ForInOrder(keys) == keys
  {
    Seqs.KeepNothing(keys, IsArrayIndex);
    Seqs.KeepEverything(keys, (k: string) => !IsArrayIndex(k));
  }

  /** The enumeration lists the array-index keys first, in ascending order. */
  lemma ForInOrderIndexKeysFirst(keys: seq<string>)
    ensures var r := ForInOrder(keys);
            var n := |Seqs.Keep(keys, IsArrayIndex)|;
            n <= |r| && (forall i | 0 <= i < n :: IsArrayIndex(r[i])) && (forall i | n <= i < |r| :: !IsArrayIndex(r[i]))
            && forall i, j | 0 <= i < j < n :: KeyNumber(r[i]) <= KeyNumber(r[j])
  {
    var idx := Seqs.Keep(keys, IsArrayIndex);
    Seqs.KeepAllMatch(keys, (k: string) => !IsArrayIndex(k));
    SortByIndexSorted(idx);
    var s := SortByIndex(idx);
    assert |s| == |idx| by {
      assert |multiset(s)| == |multiset(idx)|;
    }
    forall i | 0 <= i < |s| ensures IsArrayIndex(s[i]) {
      assert s[i] in multiset(idx);
      Seqs.KeepMembers(keys, IsArrayIndex, s[i]);
    }
  }

  /** The decimal keys "0", "1", ... of an array or string of length `n`. */
  function IndexKeys(n: nat): (r: seq<string>)
    ensures |r| == n
  {
    seq(n, i requires 0 <= i < n => NatToDecimal(i))
  }

  /** `Object.keys(v)`; it throws a `TypeError` on `null` and `undefined`. */
  function OwnKeys(v: Value): Result<seq<string>, Exception> {
    match v
    case Undefined => Failure(TypeError)
    case Null => Failure(TypeError)
    case Obj(props) => Success(ForInOrder(KeysOf(props)))
    case Arr(items) => Success(IndexKeys(|items|))
    case Str(s) => Success(IndexKeys(|s|))
    case _ => Success([])
  }

  /** `v[key]` for a value that is not `null` or `undefined`; on those two it
      reads as `undefined` here (the places that read them are guarded).
      Inherited properties are not part of this model; `length` is. */
  function Get(v: Value, key: string): Value {
    match v
    case Obj(props) =>
      (match Lookup(props, key) case Some(x) => x case None => Undefined)
    case Arr(items) =>
      if IsArrayIndex(key) && DecimalValue(key) < |items| then items[DecimalValue(key)]
      else if key == "length" then Num(|items|)
      else Undefined
    case Str(s) =>
      if IsArrayIndex(key) && DecimalValue(key) < |s| then Str([s[DecimalValue(key)]])
      else if key == "length" then Num(|s|)
      else Undefined
    case _ => Undefined
  }

  /** `v[key] = x` on an object; other values are returned unchanged. */
  function Set(v: Value, key: string, x: Value): (r: Value)
    ensures v.Obj? ==> Get(r, key) == x
  {
    match v
    case Obj(props) =>
      AssignLookup(props, key, x, key);
      Obj(Assign(props, key, x))
    case _ => v
  }

  lemma SetOther(v: Value, key: string, x: Value, other: string)
    requires v.Obj? && other != key
    ensures Get(Set(v, key, x), other) == Get(v, other)
  {
    AssignLookup(v.props, key, x, other);
  }

  // ---------------------------------------------------------------- conversions

  /** `String(v)` (ECMAScript section 7.1.17). An array joins its elements with
      commas, writing `null` and `undefined` as the empty string. */
  function ToString(v: Value): string
    decreases v, 0
  {
    match v
    case Undefined => "undefined"
    case Null => "null"
    case Bool(b) => if b then "true" else "false"
    case Num(n) => IntToDecimal(n)
    case NaN => "NaN"
    case Str(s) => s
    case Arr(items) =>
      Join(seq(|items|, i requires 0 <= i < |items| => JoinText(items[i])), ",")
    case Obj(_) => "[object Object]"
  }

  /** How `Array.prototype.join` writes one element. */
  function JoinText(v: Value): string
    decreases v, 1
  {
    if v.Undefined? || v.Null? then "" else ToString(v)
  }

  /** `parseInt(String(v), 10)` for the values the codec feeds it: a string is
      read as `parseInt` reads it, `undefined` gives `NaN`. */
  function ParseIntValue(v: Value): (r: Value)
    ensures r.Num? || r.NaN?
  {
    match ParseInt(ToString(v))
    case Some(n) => Num(n)
    case None => NaN
  }

  lemma ParseIntUndefined()
    ensures ParseIntValue(Undefined) == NaN
  {
    ParseIntNoDigits("undefined");
  }
}
