/**
 * The part of JavaScript's value semantics that the client relies on:
 * truthiness, property access, conversion to string and to number, and
 * `String.prototype.trim`.  Numbers are integers here.
 */
module JsValues {
  import opened Wrappers

  /** A JavaScript value as it appears in options, payloads and statuses. */
  datatype Value =
    | Undefined
    | Null
    | Bool(b: bool)
    | Num(n: int)
    | Str(s: string)
    | Arr(elems: seq<Value>)
    | Obj(props: map<string, Value>)

  /** `x == null` in JavaScript: true of null and undefined only. */
  predicate Nullish(v: Value) {
    v.Null? || v.Undefined?
  }

  /** ToBoolean: what `if (v)` and `!v` test. */
  predicate Truthy(v: Value) {
    match v
    case Undefined => false
    case Null => false
    case Bool(b) => b
    case Num(n) => n != 0
    case Str(s) => s != ""
    case Arr(_) => true
    case Obj(_) => true
  }

  /** `v[key]` on a value that is neither null nor undefined (index keys of arrays and strings go through `Index`). */
  function Member(v: Value, key: string): (r: Value)
    requires !Nullish(v)
    ensures v.Obj? ==> (r.Undefined? <==> key !in v.props || v.props[key].Undefined?)
    ensures v.Arr? && key == "length" ==> r == Num(|v.elems|)
  {
    match v
    case Obj(m) => if key in m then m[key] else Undefined
    case Arr(xs) => if key == "length" then Num(|xs|) else Undefined
    case Str(s) => if key == "length" then Num(|s|) else Undefined
    case _ => Undefined
  }

  /** The TypeError a property access on null or undefined throws. */
  datatype TypeError = TypeError

  /** `v.key`: throws a TypeError when `v` is null or undefined. */
  function Prop(v: Value, key: string): (r: Result<Value, TypeError>)
    ensures r.Err? <==> Nullish(v)
    ensures r.Ok? ==> r.value == Member(v, key)
  {
    if Nullish(v) then Err(TypeError) else Ok(Member(v, key))
  }

  /** `v[i]` for a non-negative integer index. */
  function Index(v: Value, i: nat): (r: Result<Value, TypeError>)
    ensures r.Err? <==> Nullish(v)
    ensures v.Arr? && i < |v.elems| ==> r == Ok(v.elems[i])
    ensures v.Str? && i < |v.s| ==> r == Ok(Str([v.s[i]]))
  {
    match v
    case Undefined => Err(TypeError)
    case Null => Err(TypeError)
    case Arr(xs) => Ok(if i < |xs| then xs[i] else Undefined)
    case Str(s) => Ok(if i < |s| then Str([s[i]]) else Undefined)
    case Obj(m) => Ok(Member(v, Decimal(i)))
    case _ => Ok(Undefined)
  }

  // ---------------------------------------------------------------------
  // Decimal numerals

  predicate IsDigit(c: char) {
    '0' <= c <= '9'
  }

  predicate AllDigits(s: string) {
    forall i :: 0 <= i < |s| ==> IsDigit(s[i])
  }

  function DigitChar(d: nat): (c: char)
    requires d < 10
    ensures IsDigit(c) && c as int - '0' as int == d
  {
    ('0' as int + d) as char
  }

  /** The canonical decimal spelling of `n`, as `String(n)` writes it. */
  function Decimal(n: nat): (r: string)
    ensures |r| > 0 && AllDigits(r)
    ensures r[0] == '0' ==> r == "0"
    decreases n
  {
    if n < 10 then [DigitChar(n)] else Decimal(n / 10) + [DigitChar(n % 10)]
  }

  /** The value of a string of decimal digits. */
  function DigitsValue(s: string): nat
    requires AllDigits(s)
    decreases |s|
  {
    if s == [] then 0
    else DigitsValue(s[..|s| - 1]) * 10 + (s[|s| - 1] as int - '0' as int)
  }

  /** Reading back a decimal spelling gives the number spelled. */
  lemma {:induction false} DecimalRoundTrip(n: nat)
    ensures DigitsValue(Decimal(n)) == n
    decreases n
  {
    if n >= 10 {
      var d := Decimal(n / 10);
      var r := d + [DigitChar(n % 10)];
      assert r[..|r| - 1] == d;
      DecimalRoundTrip(n / 10);
    }
  }

  // ---------------------------------------------------------------------
  // String conversion

  /** `String(n)` for an integer. */
  function IntToString(n: int): (r: string)
    ensures n >= 0 ==> r == Decimal(n)
    ensures n < 0 ==> r == "-" + Decimal(-n)
  {
    if n < 0 then "-" + Decimal(-n) else Decimal(n)
  }

  /** The strings joined with `sep` between consecutive ones. */
  function Join(parts: seq<string>, sep: string): (r: string)
    ensures |parts| == 1 ==> r == parts[0]
    ensures parts == [] ==> r == ""
  {
    if parts == [] then ""
    else if |parts| == 1 then parts[0]
    else parts[0] + sep + Join(parts[1..], sep)
  }

  /** `String(v)`, which is also what `+` does with a value next to a string. */
  function ToJsString(v: Value): (r: string)
    ensures v.Str? ==> r == v.s
    ensures v.Num? && v.n >= 0 ==> r == Decimal(v.n)
    decreases v
  {
    match v
    case Undefined => "undefined"
    case Null => "null"
    case Bool(b) => if b then "true" else "false"
    case Num(n) => IntToString(n)
    case Str(s) => s
    case Arr(xs) =>
      // Array.prototype.join writes null and undefined elements as "".
      Join(seq(|xs|, i requires 0 <= i < |xs| =>
             if Nullish(xs[i]) then "" else ToJsString(xs[i])), ",")
    case Obj(_) => "[object Object]"
  }

  // ---------------------------------------------------------------------
  // String.prototype.trim

  /** The WhiteSpace and LineTerminator code points of ECMAScript (section 12.2 and 12.3 of ECMA-262). */
  predicate IsJsSpace(c: char) {
    c == '\t' || c == '\n' || c == '\U{000B}' || c == '\U{000C}' || c == '\r' || c == ' '
    || c == '\U{00A0}' || c == '\U{1680}' || ('\U{2000}' <= c <= '\U{200A}')
    || c == '\U{2028}' || c == '\U{2029}' || c == '\U{202F}' || c == '\U{205F}'
    || c == '\U{3000}' || c == '\U{FEFF}'
  }

  /** `s` starts and ends with a character that is not white space (or is empty). */
  predicate Trimmed(s: string) {
    s == [] || (!IsJsSpace(s[0]) && !IsJsSpace(s[|s| - 1]))
  }

  /** `s` without its leading white space. */
  function TrimStart(s: string): (r: string)
    ensures |r| <= |s| && r == s[|s| - |r|..]
    ensures forall i :: 0 <= i < |s| - |r| ==> IsJsSpace(s[i])
    ensures r == [] || !IsJsSpace(r[0])
    decreases |s|
  {
    if s != [] && IsJsSpace(s[0]) then TrimStart(s[1..]) else s
  }

  /** `s` without its trailing white space. */
  function TrimEnd(s: string): (r: string)
    ensures |r| <= |s| && r == s[..|r|]
    ensures forall i :: |r| <= i < |s| ==> IsJsSpace(s[i])
    ensures r == [] || !IsJsSpace(r[|r| - 1])
    decreases |s|
  {
    if s != [] && IsJsSpace(s[|s| - 1]) then TrimEnd(s[..|s| - 1]) else s
  }

  /** `s` is `r` placed at offset `i`, with nothing but white space before and after it. */
  predicate SpaceAround(s: string, i: nat, r: string)
    requires i + |r| <= |s|
  {
    && r == s[i..i + |r|]
    && (forall k :: 0 <= k < i ==> IsJsSpace(s[k]))
    && (forall k :: i + |r| <= k < |s| ==> IsJsSpace(s[k]))
  }

  /** Stripping the end and then the start leaves an infix with only white space around it. */
  lemma TrimEndThenStart(s: string)
    ensures |TrimEnd(s)| >= |TrimStart(TrimEnd(s))|
    ensures SpaceAround(s, |TrimEnd(s)| - |TrimStart(TrimEnd(s))|, TrimStart(TrimEnd(s)))
  {
    var e := TrimEnd(s);
    var r := TrimStart(e);
    var i := |e| - |r|;
    assert r == s[i..i + |r|];
    forall k | 0 <= k < i ensures IsJsSpace(s[k]) {
      assert s[k] == e[k];
    }
  }

  /** `s.trim()`: the longest infix of `s` that starts and ends with a non-space character. */
  function Trim(s: string): (r: string)
    ensures Trimmed(r)
    ensures |r| <= |s|
    ensures Trimmed(s) ==> r == s
    ensures (forall i :: 0 <= i < |s| ==> IsJsSpace(s[i])) <==> r == []
    ensures exists i :: 0 <= i <= |s| - |r| && SpaceAround(s, i, r)
  {
    TrimEndThenStart(s);
    TrimStart(TrimEnd(s))
  }

  /** Trimming twice is trimming once. */
  lemma TrimIdempotent(s: string)
    ensures Trim(Trim(s)) == Trim(s)
  {
  }

  // ---------------------------------------------------------------------
  // Number conversion

  /**
   * ToNumber on a string, restricted to the spellings this model knows:
   * after trimming, the empty string is 0 and a run of decimal digits is its
   * value; every other spelling is taken to be NaN (None).
   */
  function StringToNumber(s: string): (r: Option<int>)
    ensures Trim(s) == "" ==> r == Some(0)
    ensures r.Some? ==> r.value >= 0
  {
    var t := Trim(s);
    if t == "" then Some(0)
    else if AllDigits(t) then Some(DigitsValue(t))
    else None
  }

  /** A canonical decimal numeral converts to the number it spells. */
  lemma StringToNumberDecimal(n: nat)
    ensures StringToNumber(Decimal(n)) == Some(n)
  {
    var d := Decimal(n);
    assert !IsJsSpace(d[0]) && !IsJsSpace(d[|d| - 1]);
    DecimalRoundTrip(n);
  }

  /** ToNumber: None stands for NaN. */
  function ToNumber(v: Value): (r: Option<int>)
    ensures v.Num? ==> r == Some(v.n)
    ensures v.Undefined? ==> r == None
    ensures v.Null? ==> r == Some(0)
  {
    match v
    case Undefined => None
    case Null => Some(0)
    case Bool(b) => Some(if b then 1 else 0)
    case Num(n) => Some(n)
    case Str(s) => StringToNumber(s)
    case _ => StringToNumber(ToJsString(v))
  }

  /** `v == n` in JavaScript (loose equality) against a number `n`. */
  predicate LooseEqualsNumber(v: Value, n: int) {
    !Nullish(v) && ToNumber(v) == Some(n)
  }

  /**
   * A canonical decimal string is loosely equal to exactly the number it
   * spells, so it compares and prints like that number.
   */
  lemma DecimalStringAsNumber(n: nat, m: int)
    ensures LooseEqualsNumber(Str(Decimal(n)), m) == LooseEqualsNumber(Num(n), m)
    ensures ToJsString(Str(Decimal(n))) == ToJsString(Num(n))
  {
    var d := Decimal(n);
    StringToNumberDecimal(n);
    NumericStringLooseEquals(d, n, m);
    assert ToJsString(Num(n)) == d;
  }

  /** A string that converts to `n` is loosely equal to what `n` is. */
  lemma NumericStringLooseEquals(s: string, n: int, m: int)
    requires StringToNumber(s) == Some(n)
    ensures LooseEqualsNumber(Str(s), m) <==> n == m
    ensures LooseEqualsNumber(Str(s), m) == LooseEqualsNumber(Num(n), m)
  {
    assert ToNumber(Str(s)) == StringToNumber(s);
    assert ToNumber(Num(n)) == Some(n);
  }

  /** `v > 0` in JavaScript: false whenever `v` converts to NaN. */
  predicate GreaterThanZero(v: Value) {
    var x := ToNumber(v);
    x.Some? && x.value > 0
  }
}
