/** The few pieces of JavaScript value semantics the request path relies on:
    JSON values as an MCP client sends them, `typeof`, the `in` operator,
    truthiness, `||` and `??` on optional strings, `Array.prototype.join`
    and the decimal rendering of integral numbers. */
module Js {

  datatype Option<+T> = None | Some(value: T) {
    /** The value, or `default` when it is absent (a destructuring default:
        it applies to `undefined` only). */
    function GetOr(default: T): T {
      match this
      case Some(v) => v
      case None => default
    }
  }

  /** The outcome of a call that may throw: a value, or the message of the
      `Error` it threw. */
  datatype Result<+T> = Ok(value: T) | Err(message: string)

  /** A JSON value. Numbers are integral in this model. */
  datatype Json =
    | Null
    | Bool(b: bool)
    | Num(n: int)
    | Str(s: string)
    | Arr(items: seq<Json>)
    | Obj(fields: map<string, Json>)

  /** `typeof v`; `None` stands for `undefined`. */
  function TypeOf(v: Option<Json>): string {
    match v
    case None => "undefined"
    case Some(Null) => "object"
    case Some(Bool(_)) => "boolean"
    case Some(Num(_)) => "number"
    case Some(Str(_)) => "string"
    case Some(Arr(_)) => "object"
    case Some(Obj(_)) => "object"
  }

  /** `!!v`: `undefined`, `null`, `false`, `0` and `""` are falsy; every
      array and object, even an empty one, is truthy. */
  predicate Truthy(v: Option<Json>) {
    match v
    case None => false
    case Some(Null) => false
    case Some(Bool(b)) => b
    case Some(Num(n)) => n != 0
    case Some(Str(s)) => s != ""
    case Some(Arr(_)) => true
    case Some(Obj(_)) => true
  }

  /** The index `i < n` whose canonical decimal spelling is `key`, if any. */
  function IndexKey(key: string, n: nat): (r: Option<nat>)
    ensures r.Some? ==> r.value < n && NatToString(r.value) == key
  {
    if n == 0 then None
    else if NatToString(n - 1) == key then Some(n - 1)
    else IndexKey(key, n - 1)
  }

  /** `key in v` for a value whose `typeof` is "object" and that is not
      `null`, over own properties (inherited prototype members are not
      modelled). */
  function HasProperty(v: Json, key: string): bool
    requires v.Arr? || v.Obj?
  {
    match v
    case Obj(fields) => key in fields
    case Arr(items) => key == "length" || IndexKey(key, |items|).Some?
  }

  /** `v[key]` over own properties; `None` stands for `undefined`. */
  function GetProperty(v: Json, key: string): Option<Json> {
    match v
    case Obj(fields) => if key in fields then Some(fields[key]) else None
    case Arr(items) =>
      if key == "length" then Some(Num(|items|))
      else (match IndexKey(key, |items|)
        case Some(i) => Some(items[i])
        case None => None)
    case _ => None
  }

  /** Whether converting a JSON value to a primitive (`String(v)`,
      `Number(v)`, `Math.min(v, ...)`) throws a `TypeError`. A JSON value is
      never a function, so an object with an own `toString` key has neither
      a callable `toString` nor a `valueOf` that gives a primitive; an
      object without one renders "[object Object]". An array converts
      through `Array.prototype.join`, which converts every element that is
      not `null`. */
  predicate ToPrimitiveThrows(v: Json) {
    match v
    case Obj(fields) => "toString" in fields
    case Arr(items) => exists i :: 0 <= i < |items| && ToPrimitiveThrows(items[i])
    case _ => false
  }

  /** `s || d` for an optional string field: `undefined`, `null` and `""`
      all give `d`. */
  function OrString(s: Option<string>, d: string): string {
    match s
    case Some(v) => if v != "" then v else d
    case None => d
  }

  /** `x ?? d`: only `undefined` and `null` (both `None` here) give `d`. */
  function Coalesce<T>(x: Option<T>, d: T): T {
    match x
    case Some(v) => v
    case None => d
  }

  /** `parts.join(sep)` */
  function Join(parts: seq<string>, sep: string): string {
    if |parts| == 0 then ""
    else if |parts| == 1 then parts[0]
    else parts[0] + sep + Join(parts[1..], sep)
  }

  /** The parts that are not the empty string, in order. */
  function NonEmpty(parts: seq<string>): (r: seq<string>)
    ensures |r| <= |parts|
    ensures forall i :: 0 <= i < |r| ==> r[i] != ""
  {
    if |parts| == 0 then []
    else (if parts[0] != "" then [parts[0]] else []) + NonEmpty(parts[1..])
  }

  predicate IsDigit(ch: char) {
    '0' <= ch <= '9'
  }

  function DigitChar(d: nat): char
    requires d < 10
  {
    ('0' as int + d) as char
  }

  function DigitValue(ch: char): nat
    requires IsDigit(ch)
  {
    ch as int - '0' as int
  }

  /** The decimal spelling of a natural number (`String(n)`). */
  function NatToString(n: nat): string {
    if n < 10 then [DigitChar(n)]
    else NatToString(n / 10) + [DigitChar(n % 10)]
  }

  /** The decimal spelling of an integral number, with a leading `-` when
      negative (`String(n)`). */
  function IntToString(n: int): string {
    if n < 0 then "-" + NatToString(-n) else NatToString(n)
  }

  predicate AllDigits(s: string) {
    forall i :: 0 <= i < |s| ==> IsDigit(s[i])
  }

  /** The number a string of decimal digits denotes. */
  function ParseNat(s: string): nat
    requires AllDigits(s)
  {
    if |s| == 0 then 0
    else ParseNat(s[..|s| - 1]) * 10 + DigitValue(s[|s| - 1])
  }

  /** Decimal spelling is a non-empty string of digits, without a leading
      zero except for 0 itself. */
  lemma {:induction false} NatToStringDigits(n: nat)
    ensures |NatToString(n)| >= 1
    ensures AllDigits(NatToString(n))
    ensures NatToString(n)[0] == '0' <==> n == 0
    decreases n
  {
    if n >= 10 {
      NatToStringDigits(n / 10);
      assert NatToString(n)[0] == NatToString(n / 10)[0];
    }
  }

  /** Decimal spelling loses nothing: reading it back gives the number. */
  lemma {:induction false} NatToStringRoundTrip(n: nat)
    ensures AllDigits(NatToString(n))
    ensures ParseNat(NatToString(n)) == n
    decreases n
  {
    NatToStringDigits(n);
    if n >= 10 {
      var s := NatToString(n);
      NatToStringRoundTrip(n / 10);
      assert s[..|s| - 1] == NatToString(n / 10);
    }
  }

  /** No array index is spelled "query", so `"query" in a` is false for every
      array `a`. */
  lemma {:induction false} NoIndexIsQuery(n: nat)
    ensures IndexKey("query", n).None?
  {
    if n > 0 {
      NatToStringDigits(n - 1);
      assert !IsDigit("query"[0]);
      NoIndexIsQuery(n - 1);
    }
  }

  /** A join is empty exactly when there is no part, or one empty part:
      with a non-empty separator, two or more parts always show it. */
  lemma {:induction false} JoinEmptyIff(parts: seq<string>, sep: string)
    requires sep != ""
    ensures Join(parts, sep) == "" <==> (|parts| == 0 || (|parts| == 1 && parts[0] == ""))
  {
    if |parts| >= 2 {
      assert |Join(parts, sep)| >= |sep|;
    }
  }

  /** Appending a part appends the separator and the part: the parts appear
      in order. */
  lemma {:induction false} JoinSnoc(parts: seq<string>, x: string, sep: string)
    requires |parts| >= 1
    ensures Join(parts + [x], sep) == Join(parts, sep) + sep + x
    decreases |parts|
  {
    if |parts| == 1 {
      assert parts + [x] == [parts[0], x];
      assert (parts + [x])[1..] == [x];
    } else {
      assert (parts + [x])[1..] == parts[1..] + [x];
      JoinSnoc(parts[1..], x, sep);
    }
  }

  /** The first part begins the join. */
  lemma JoinStartsWithFirst(parts: seq<string>, sep: string)
    requires |parts| >= 1
    ensures parts[0] <= Join(parts, sep)
  {
  }

  /** Filtering out empty parts keeps the non-empty ones, in order. */
  lemma {:induction false} NonEmptyAppend(a: seq<string>, b: seq<string>)
    ensures NonEmpty(a + b) == NonEmpty(a) + NonEmpty(b)
    decreases |a|
  {
    if |a| == 0 {
      assert a + b == b;
    } else {
      assert (a + b)[1..] == a[1..] + b;
      NonEmptyAppend(a[1..], b);
    }
  }

  /** Filtering out empty parts keeps every non-empty part and nothing
      else. */
  lemma {:induction false} NonEmptyMembers(parts: seq<string>, x: string)
    ensures x in NonEmpty(parts) <==> x in parts && x != ""
    decreases |parts|
  {
    if |parts| > 0 {
      NonEmptyMembers(parts[1..], x);
      assert parts == [parts[0]] + parts[1..];
    }
  }

  /** Filtering out empty parts leaves nothing exactly when every part is empty. */
  lemma {:induction false} NonEmptyNoneIff(parts: seq<string>)
    ensures NonEmpty(parts) == [] <==> forall i :: 0 <= i < |parts| ==> parts[i] == ""
    decreases |parts|
  {
    if |parts| > 0 {
      NonEmptyNoneIff(parts[1..]);
      assert forall i :: 1 <= i < |parts| ==> parts[i] == parts[1..][i - 1];
    }
  }
}
