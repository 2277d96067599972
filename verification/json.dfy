/** JavaScript values as they reach the proxy (parsed JSON bodies), with the three
    pieces of JavaScript semantics the chat-completions handler relies on:
    truthiness, the `||` operator and object spread `{ ...v }`. */
module JsValues {

  datatype Option<+T> = None | Some(value: T)

  /** How a JavaScript evaluation ends: normally with a value, or by throwing a `TypeError`. */
  datatype Completion<+T> = Normal(value: T) | Throws

  /** A parsed JSON value. `undefined` (a missing property) is `None` of an `Option<Json>`. */
  datatype Json =
    | JNull
    | JBool(flag: bool)
    | JNum(num: real)
    | JStr(str: string)
    | JArr(items: seq<Json>)
    | JObj(fields: map<string, Json>)

  /** Property read `o[k]`: `undefined` when the key is absent. */
  function Get(o: map<string, Json>, k: string): (r: Option<Json>)
    ensures r.Some? <==> k in o
    ensures r.Some? ==> r.value == o[k]
  {
    if k in o then Some(o[k]) else None
  }

  /** JavaScript truthiness of a value that may be `undefined`. The falsy JSON values are
      `undefined`, `null`, `false`, `0` (and `-0`) and the empty string; `NaN` cannot come out of JSON. */
  predicate Truthy(v: Option<Json>)
    ensures !Truthy(v) <==>
      v == None || v == Some(JNull) || v == Some(JBool(false)) || v == Some(JNum(0.0)) || v == Some(JStr(""))
  {
    match v
    case None => false
    case Some(JNull) => false
    case Some(JBool(b)) => b
    case Some(JNum(n)) => n != 0.0
    case Some(JStr(s)) => s != ""
    case Some(JArr(_)) => true
    case Some(JObj(_)) => true
  }

  /** `a || b`: the left operand when it is truthy, otherwise the right one. */
  function Or(a: Option<Json>, b: Option<Json>): (r: Option<Json>)
    ensures Truthy(a) ==> r == a
    ensures !Truthy(a) ==> r == b
  {
    if Truthy(a) then a else b
  }

  /** The decimal digit character for `d`. */
  function DigitChar(d: nat): (c: char)
    requires d < 10
    ensures '0' <= c <= '9'
    ensures c as int - '0' as int == d
  {
    ('0' as int + d) as char
  }

  /** The property key of array index or string index `n`: its decimal numeral, no leading zeros. */
  function IndexKey(n: nat): (key: string)
  {
    if n < 10 then [DigitChar(n)] else IndexKey(n / 10) + [DigitChar(n % 10)]
  }

  predicate IsNumeral(s: string) {
    |s| > 0 && forall k :: 0 <= k < |s| ==> '0' <= s[k] <= '9'
  }

  lemma {:induction false} IndexKeyIsNumeral(n: nat)
    ensures IsNumeral(IndexKey(n))
  {
    if n >= 10 {
      IndexKeyIsNumeral(n / 10);
    }
  }

  lemma IndexKeySingleDigit(n: nat)
    ensures |IndexKey(n)| == 1 <==> n < 10
  {
  }

  /** Distinct indices give distinct property keys. */
  lemma {:induction false} IndexKeyInjective(a: nat, b: nat)
    ensures IndexKey(a) == IndexKey(b) ==> a == b
  {
    if IndexKey(a) == IndexKey(b) {
      IndexKeySingleDigit(a);
      IndexKeySingleDigit(b);
      if a >= 10 {
        var ka, kb := IndexKey(a), IndexKey(b);
        assert ka[|ka| - 1] == kb[|kb| - 1];
        assert a % 10 == b % 10;
        assert ka[..|ka| - 1] == IndexKey(a / 10);
        assert kb[..|kb| - 1] == IndexKey(b / 10);
        IndexKeyInjective(a / 10, b / 10);
      }
    }
  }

  lemma IndexKeysDistinct()
    ensures forall a: nat, b: nat :: IndexKey(a) == IndexKey(b) ==> a == b
  {
    forall a: nat, b: nat ensures IndexKey(a) == IndexKey(b) ==> a == b {
      IndexKeyInjective(a, b);
    }
  }

  /** The property keys of the indices below `n`. */
  function IndexKeys(n: nat): (keys: set<string>)
    ensures forall i: nat :: IndexKey(i) in keys <==> i < n
    ensures forall k :: k in keys ==> IsNumeral(k)
  {
    if n == 0 then {}
    else
      IndexKeyIsNumeral(n - 1);
      IndexKeysDistinct();
      IndexKeys(n - 1) + {IndexKey(n - 1)}
  }

  /** The own enumerable properties of an array (or of a string's characters): one per index. */
  function IndexedEntries(xs: seq<Json>): (r: map<string, Json>)
    ensures r.Keys == IndexKeys(|xs|)
    ensures forall i :: 0 <= i < |xs| ==> r[IndexKey(i)] == xs[i]
  {
    if xs == [] then map[]
    else
      var n := |xs| - 1;
      IndexKeysDistinct();
      IndexedEntries(xs[..n])[IndexKey(n) := xs[n]]
  }

  /** The one-character strings of `s`, in order. */
  function Characters(s: string): (cs: seq<Json>)
    ensures |cs| == |s|
    ensures forall i :: 0 <= i < |s| ==> cs[i] == JStr([s[i]])
  {
    seq(|s|, i requires 0 <= i < |s| => JStr([s[i]]))
  }

  /** The properties that object spread `{ ...v }` copies out of `v`: an object's own fields,
      an array's or a string's elements under their index keys, and nothing from
      `undefined`, `null`, booleans or numbers. */
  function SpreadOf(v: Option<Json>): (r: map<string, Json>)
    ensures v.Some? && v.value.JObj? ==> r == v.value.fields
    ensures v.Some? && v.value.JArr? ==>
      && r.Keys == IndexKeys(|v.value.items|)
      && forall i :: 0 <= i < |v.value.items| ==> r[IndexKey(i)] == v.value.items[i]
    ensures v.Some? && v.value.JStr? ==>
      && r.Keys == IndexKeys(|v.value.str|)
      && forall i :: 0 <= i < |v.value.str| ==> r[IndexKey(i)] == JStr([v.value.str[i]])
    ensures (v.None? || v.value.JNull? || v.value.JBool? || v.value.JNum?) ==> r == map[]
  {
    match v
    case Some(JObj(fields)) => fields
    case Some(JArr(items)) => IndexedEntries(items)
    case Some(JStr(s)) => IndexedEntries(Characters(s))
    case _ => map[]
  }

  /** Every key that spreading a non-object contributes is a decimal numeral. */
  lemma SpreadOfNonObjectKeysAreNumerals(v: Option<Json>)
    requires !(v.Some? && v.value.JObj?)
    ensures forall k :: k in SpreadOf(v) ==> IsNumeral(k)
  {
  }
}
