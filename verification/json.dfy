/** JSON values as both halves of the application see them: the Python
    service reads a decoded `dict`, the web client reads a parsed JavaScript
    object. Objects are finite maps from keys to values, so a key is either
    present (with some value, possibly `Null`) or absent. Numbers are
    integers. */
module Json {
  import opened Wrappers

  datatype Json =
    | Null
    | Bool(b: bool)
    | Num(n: int)
    | Str(s: string)
    | Arr(items: seq<Json>)
    | Obj(members: map<string, Json>)

  /** `m.get(key, default)` on a Python dict. */
  function GetOr(m: map<string, Json>, key: string, default: Json): Json {
    if key in m then m[key] else default
  }

  /** The value under `key`, or `None` when the key is absent. */
  function Get(m: map<string, Json>, key: string): Option<Json> {
    if key in m then Some(m[key]) else None
  }

  /** A JavaScript property read `v.key` on a value that is not null: only an
      object can hold the key; on any other value the read gives `undefined`
      (here `None`). */
  function Member(v: Json, key: string): Option<Json> {
    if v.Obj? then Get(v.members, key) else None
  }

  /** Python truthiness: `None`, `False`, zero and empty containers are false. */
  predicate PyTruthy(v: Json) {
    match v
    case Null => false
    case Bool(b) => b
    case Num(n) => n != 0
    case Str(s) => s != ""
    case Arr(items) => items != []
    case Obj(members) => members != map[]
  }

  /** JavaScript truthiness: `null`, `false`, `0` and `""` are falsy; every
      array and object, even an empty one, is truthy. */
  predicate Truthy(v: Json) {
    match v
    case Null => false
    case Bool(b) => b
    case Num(n) => n != 0
    case Str(s) => s != ""
    case Arr(_) => true
    case Obj(_) => true
  }

  /** Truthiness of a property read, where `None` is `undefined`. */
  predicate TruthyMember(o: Option<Json>) {
    o.Some? && Truthy(o.value)
  }

  function DigitChar(d: nat): (c: char)
    requires d < 10
    ensures '0' <= c <= '9'
  {
    (('0' as int) + d) as char
  }

  /** The number a digit stands for. */
  function DigitValue(c: char): int {
    c as int - '0' as int
  }

  /** The number a decimal numeral denotes, most significant digit first. */
  function NumeralValue(s: string): int
    decreases |s|
  {
    if s == [] then 0 else NumeralValue(s[..|s| - 1]) * 10 + DigitValue(s[|s| - 1])
  }

  /** A numeral as JavaScript writes one: decimal digits only, and no
      leading zero unless the numeral is "0". */
  predicate Canonical(s: string) {
    && |s| >= 1
    && (forall i | 0 <= i < |s| :: '0' <= s[i] <= '9')
    && (|s| == 1 || s[0] != '0')
  }

  /** The decimal numeral of `n`, most significant digit first. */
  function DecimalDigits(n: nat): (r: string)
    ensures NumeralValue(r) == n
    ensures Canonical(r)
    ensures n >= 10 <==> |r| >= 2
    decreases n
  {
    if n < 10 then [DigitChar(n)]
    else
      var r := DecimalDigits(n / 10) + [DigitChar(n % 10)];
      assert r[..|r| - 1] == DecimalDigits(n / 10);
      r
  }

  /** A canonical numeral with a non-zero first digit denotes a positive
      number. */
  lemma CanonicalPositive(s: string)
    requires Canonical(s) && s[0] != '0'
    ensures NumeralValue(s) >= 1
    decreases |s|
  {
    if |s| > 1 {
      CanonicalPositive(s[..|s| - 1]);
    }
  }

  /** `DecimalDigits(n)` is the only canonical numeral of `n`: every string
      of digits without a leading zero that denotes `n` is that string. */
  lemma {:induction false} CanonicalNumeralUnique(s: string, n: nat)
    requires Canonical(s) && NumeralValue(s) == n
    ensures s == DecimalDigits(n)
    decreases |s|
  {
    var c := s[|s| - 1];
    assert DigitChar(DigitValue(c)) == c;
    if |s| == 1 {
      assert NumeralValue(s) == DigitValue(c);
    } else {
      var front := s[..|s| - 1];
      assert Canonical(front);
      CanonicalPositive(front);
      assert n / 10 == NumeralValue(front) && n % 10 == DigitValue(c);
      CanonicalNumeralUnique(front, n / 10);
      assert s == front + [c];
    }
  }

  /** Distinct numbers have distinct numerals: the numeral reads back as
      the number. */
  lemma DecimalDigitsInjective(a: nat, b: nat)
    requires DecimalDigits(a) == DecimalDigits(b)
    ensures a == b
  {
    assert NumeralValue(DecimalDigits(a)) == a && NumeralValue(DecimalDigits(b)) == b;
  }

  function IntToString(n: int): string {
    if n < 0 then "-" + DecimalDigits(-n) else DecimalDigits(n)
  }

  /** `xs.join(sep)` over strings. */
  function Join(xs: seq<string>, sep: string): string {
    if |xs| == 0 then ""
    else if |xs| == 1 then xs[0]
    else xs[0] + sep + Join(xs[1..], sep)
  }

  /** The message of the TypeError a failed conversion to a primitive
      throws. */
  const ToPrimitiveMessage := "Cannot convert object to primitive value"

  /** Whether `String(v)` returns rather than throws. An object holding a
      "toString" key of its own has, coming from JSON, a value there that is
      not callable: the conversion skips it, `Object.prototype.valueOf`
      gives back the object itself, and no primitive is left, so a
      TypeError is thrown. An array converts iff all of its elements do. */
  predicate Convertible(v: Json) {
    match v
    case Obj(members) => "toString" !in members
    case Arr(items) => forall i | 0 <= i < |items| :: Convertible(items[i])
    case _ => true
  }

  /** How an array element is written by `String` on the array: `null` as
      the empty string. */
  function ElementString(v: Json): (r: Result<string, string>)
    ensures r.Success? <==> Convertible(v)
    decreases v, 1
  {
    if v == Null then Success("") else JsString(v)
  }

  /** JavaScript's string conversion `String(v)`, as used by `new Error(v)` and
      by template literals, or the message of the TypeError it throws:
      arrays are joined with commas, with `null` elements written as empty
      strings, and an object is "[object Object]" unless it holds a
      "toString" key. */
  function JsString(v: Json): (r: Result<string, string>)
    ensures r.Success? <==> Convertible(v)
    ensures r.Failure? ==> r.error == ToPrimitiveMessage
    ensures v.Str? ==> r == Success(v.s)
    ensures v == Null ==> r == Success("null")
    ensures v.Bool? ==> r == Success(if v.b then "true" else "false")
    ensures v.Num? && v.n >= 0 ==> r == Success(DecimalDigits(v.n)) && NumeralValue(r.value) == v.n
    ensures v.Num? && v.n < 0 ==> r == Success("-" + DecimalDigits(-v.n))
    ensures v.Obj? ==>
      r == if "toString" in v.members then Failure(ToPrimitiveMessage) else Success("[object Object]")
    ensures v == Arr([]) ==> r == Success("")
    decreases v, 0
  {
    match v
    case Null => Success("null")
    case Bool(b) => Success(if b then "true" else "false")
    case Num(n) => Success(IntToString(n))
    case Str(s) => Success(s)
    case Arr(items) =>
      if Convertible(v) then
        Success(Join(seq(|items|, i requires 0 <= i < |items| && Convertible(items[i]) =>
                                    ElementString(items[i]).value), ","))
      else Failure(ToPrimitiveMessage)
    case Obj(members) =>
      if "toString" in members then Failure(ToPrimitiveMessage) else Success("[object Object]")
  }

  /** `String` on a non-empty array: a one-element array is written as its
      element, and a longer one as its first element, a comma, and the
      rest of the array written the same way. The conversion throws iff the
      first element's or the rest's does. */
  lemma JsStringArray(items: seq<Json>)
    requires items != []
    ensures |items| == 1 ==> JsString(Arr(items)) == ElementString(items[0])
    ensures |items| >= 2 && ElementString(items[0]).Success? && JsString(Arr(items[1..])).Success? ==>
      JsString(Arr(items)) ==
        Success(ElementString(items[0]).value + "," + JsString(Arr(items[1..])).value)
    ensures |items| >= 2 && (ElementString(items[0]).Failure? || JsString(Arr(items[1..])).Failure?) ==>
      JsString(Arr(items)) == Failure(ToPrimitiveMessage)
  {
    if Convertible(Arr(items)) {
      var parts := seq(|items|, i requires 0 <= i < |items| && Convertible(items[i]) =>
                                  ElementString(items[i]).value);
      if |items| >= 2 {
        var rest := items[1..];
        assert Convertible(Arr(rest)) by {
          forall i | 0 <= i < |rest| ensures Convertible(rest[i]) {
            assert rest[i] == items[i + 1];
          }
        }
        var restParts := seq(|rest|, i requires 0 <= i < |rest| && Convertible(rest[i]) =>
                                       ElementString(rest[i]).value);
        assert parts[1..] == restParts;
      }
    } else if |items| >= 2 {
      var rest := items[1..];
      var i :| 0 <= i < |items| && !Convertible(items[i]);
      if i > 0 {
        assert rest[i - 1] == items[i];
      }
    }
  }

  /** A template-literal substitution `${v.key}`: an absent key reads
      `undefined`, and any value is converted as `String` converts it,
      throwing where `String` throws. */
  function TemplateString(o: Option<Json>): (r: Result<string, string>)
    ensures o.None? ==> r == Success("undefined")
    ensures o.Some? ==> r == JsString(o.value)
    ensures r.Failure? <==> o.Some? && !Convertible(o.value)
    ensures o.Some? && o.value.Str? ==> r == Success(o.value.s)
    ensures o.Some? && o.value.Num? && o.value.n >= 0 ==> r == Success(DecimalDigits(o.value.n))
    ensures o.Some? && o.value.Num? && o.value.n < 0 ==> r == Success("-" + DecimalDigits(-o.value.n))
    ensures o == Some(Null) ==> r == Success("null")
    ensures o.Some? && o.value.Obj? ==>
      r == if "toString" in o.value.members then Failure(ToPrimitiveMessage) else Success("[object Object]")
  {
    match o
    case None => Success("undefined")
    case Some(v) => JsString(v)
  }
}
