/**
 * Values that arrive from the wire (response bodies, stored drafts) and the
 * JavaScript operators the client applies to them.
 *
 * `undefined` and `null` are both JNull: every operator used on them here
 * (`||`, `??`, `&&`, property access, truthiness) treats the two alike.
 */
module JsonValues {

  datatype Json =
    | JNull
    | JBool(b: bool)
    | JNum(n: int)
    | JStr(s: string)
    | JArr(items: seq<Json>)
    | JObj(fields: map<string, Json>)

  /** JavaScript truthiness: null, false, 0 and "" are falsy; every array and object is truthy. */
  predicate Truthy(j: Json)
    ensures Truthy(j) <==> j != JNull && j != JBool(false) && j != JNum(0) && j != JStr("")
  {
    match j
    case JNull => false
    case JBool(b) => b
    case JNum(n) => n != 0
    case JStr(s) => s != ""
    case JArr(_) => true
    case JObj(_) => true
  }

  /** `a || b` */
  function Or(a: Json, b: Json): Json {
    if Truthy(a) then a else b
  }

  /** `a && b` */
  function And(a: Json, b: Json): Json {
    if Truthy(a) then b else a
  }

  /** `a ?? b`: the left operand unless it is null or undefined. */
  function Coalesce(a: Json, b: Json): (r: Json)
    ensures r == JNull <==> a == JNull && b == JNull
    ensures a != JNull ==> r == a
    ensures a == JNull ==> r == b
  {
    if a.JNull? then b else a
  }

  /** `v.key` (and `v?.key`): the member of an object, undefined for anything else. */
  function Get(v: Json, key: string): (r: Json)
    ensures !v.JObj? || key !in v.fields ==> r == JNull
    ensures v.JObj? && key in v.fields ==> r == v.fields[key]
  {
    if v.JObj? && key in v.fields then v.fields[key] else JNull
  }

  /** A string, or null when the text is empty: the screens' `text || null`. */
  function StrOrNull(text: string): (r: Json)
    ensures Truthy(r) <==> text != ""
    ensures Truthy(r) ==> r == JStr(text)
  {
    if text == "" then JNull else JStr(text)
  }

  /** The number a string of decimal digits spells, most significant digit first. */
  function DigitsValue(s: string): nat
    requires forall i :: 0 <= i < |s| ==> '0' <= s[i] <= '9'
  {
    if s == [] then 0 else DigitsValue(s[..|s| - 1]) * 10 + (s[|s| - 1] as int - '0' as int)
  }

  /** Decimal digits of a natural number: no leading zero, and they spell the number. */
  function NatText(n: nat): (r: string)
    ensures |r| > 0
    ensures forall i :: 0 <= i < |r| ==> '0' <= r[i] <= '9'
    ensures DigitsValue(r) == n
    ensures r[0] == '0' ==> n == 0
  {
    if n < 10 then [('0' as int + n) as char]
    else
      var r := NatText(n / 10) + [('0' as int + n % 10) as char];
      assert r[..|r| - 1] == NatText(n / 10);
      r
  }

  /** A number's text as template literals render an integer: a minus sign for a negative one, then its digits. */
  function IntText(n: int): (r: string)
    ensures |r| > 0
    ensures r[0] == '-' <==> n < 0
    ensures n >= 0 ==> (forall i :: 0 <= i < |r| ==> '0' <= r[i] <= '9') && DigitsValue(r) == n
    ensures n < 0 ==> (forall i :: 1 <= i < |r| ==> '0' <= r[i] <= '9') && DigitsValue(r[1..]) == -n
  {
    if n < 0 then
      var r := "-" + NatText(-n);
      assert r[1..] == NatText(-n);
      r
    else NatText(n)
  }

  /** `a.join(sep)` over strings. */
  function Join(parts: seq<string>, sep: string): string {
    if |parts| == 0 then "" else if |parts| == 1 then parts[0] else parts[0] + sep + Join(parts[1..], sep)
  }

  /**
   * JavaScript's ToString, which `RegExp.prototype.test` and `toString()` apply:
   * an array is the join of its elements with "," (null elements give ""),
   * an object is "[object Object]".
   */
  function ToText(j: Json): (r: string)
    ensures j.JStr? ==> r == j.s
    ensures !j.JStr? && !j.JArr? ==> |r| > 0
    ensures j.JArr? && |j.items| == 0 ==> r == ""
    decreases j, 0
  {
    match j
    case JNull => "null"
    case JBool(b) => if b then "true" else "false"
    case JNum(n) => IntText(n)
    case JStr(s) => s
    case JArr(items) => Join(seq(|items|, i requires 0 <= i < |items| => ElementText(items[i])), ",")
    case JObj(_) => "[object Object]"
  }

  /** How `Array.prototype.join` renders one element. */
  function ElementText(j: Json): string
    decreases j, 1
  {
    if j.JNull? then "" else ToText(j)
  }

  /** `Array.isArray(v) ? v.join(sep)` with the element rendering of `join`. */
  function JoinItems(items: seq<Json>, sep: string): string {
    Join(seq(|items|, i requires 0 <= i < |items| => ElementText(items[i])), sep)
  }

  /** `??` groups either way: `(a ?? b) ?? c` and `a ?? (b ?? c)` agree. */
  lemma CoalesceAssociative(a: Json, b: Json, c: Json)
    ensures Coalesce(Coalesce(a, b), c) == Coalesce(a, Coalesce(b, c))
  {
  }
}
