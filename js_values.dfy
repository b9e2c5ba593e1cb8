/**
 * The JavaScript values that flow through the system once JSON has been
 * parsed: the settings tree, JSON-RPC parameters, device payload fields and
 * socket messages. Numbers are integers here; the coercions the source relies
 * on (truthiness, string conversion, numeric conversion, `==` against a
 * string, `===`, property reads and sloppy-mode property writes) are written
 * out.
 */
module JsValues {
  import opened Wrappers
  import opened Text

  datatype Value =
    | Undefined
    | Null
    | Bool(b: bool)
    | Num(n: int)
    | Str(s: string)
    | Arr(items: seq<Value>)
    | Obj(fields: map<string, Value>)

  predicate IsObject(v: Value) {
    v.Arr? || v.Obj?
  }

  /** What `if (v)` and `v ? a : b` test. */
  predicate Truthy(v: Value) {
    match v
    case Undefined => false
    case Null => false
    case Bool(b) => b
    case Num(n) => n != 0
    case Str(s) => s != ""
    case _ => true
  }

  /** `String(v)`, which is also what `"..." + v` appends. */
  function ToJsString(v: Value): string
    decreases v, 1
  {
    match v
    case Undefined => "undefined"
    case Null => "null"
    case Bool(b) => if b then "true" else "false"
    case Num(n) => IntToString(n)
    case Str(s) => s
    case Arr(xs) => JoinElements(xs)
    case Obj(_) => "[object Object]"
  }

  /** `Array.prototype.join(",")`: null and undefined elements print as "". */
  function JoinElements(xs: seq<Value>): string
    decreases xs, 0
  {
    if xs == [] then ""
    else
      var head := if xs[0].Undefined? || xs[0].Null? then "" else ToJsString(xs[0]);
      if |xs| == 1 then head else head + "," + JoinElements(xs[1..])
  }

  // ---------------------------------------------------------------------
  // Numeric conversion

  function TrimEnd(s: string): (r: string)
    ensures r <= s
    ensures r == [] || !IsJsWhitespace(r[|r| - 1])
    ensures forall k :: |r| <= k < |s| ==> IsJsWhitespace(s[k])
  {
    if s != [] && IsJsWhitespace(s[|s| - 1]) then TrimEnd(s[..|s| - 1]) else s
  }

  /** 10 to the power `k`. */
  function Pow10(k: nat): (p: nat)
    ensures p >= 1
  {
    if k == 0 then 1 else 10 * Pow10(k - 1)
  }

  /** The exponent after "e" or "E": an optional sign and at least one digit. */
  function ExponentValue(x: string): Option<int> {
    var digits := if x != [] && (x[0] == '-' || x[0] == '+') then x[1..] else x;
    if digits == [] || !AllDigits(digits) then None
    else
      var n: int := DecimalValue(digits);
      Some(if x[0] == '-' then -n else n)
  }

  /** `m * 10^e`, when that is an integer. */
  function Scaled(m: nat, e: int): Option<nat> {
    if e >= 0 then Some(m * Pow10(e))
    else if m % Pow10(-e) == 0 then Some(m / Pow10(-e))
    else None
  }

  /**
   * An unsigned decimal literal: digits, optionally "." and more digits (at
   * least one digit in all), then optionally "e" or "E" and a signed
   * exponent. Its value, when that value is an integer ("2.00", "1e3",
   * "1500e-1").
   */
  function UnsignedDecimal(u: string): Option<nat> {
    var d := DigitPrefix(u);
    DecimalAfter(d, u[|d|..])
  }

  /** The rest of a decimal literal after its integer digits `d`. */
  function DecimalAfter(d: string, rest: string): Option<nat>
    requires AllDigits(d)
  {
    if rest != [] && rest[0] == '.' then
      var f := DigitPrefix(rest[1..]);
      DecimalValueOf(d, f, rest[1 + |f|..])
    else DecimalValueOf(d, [], rest)
  }

  /** Integer digits `d`, fraction digits `f` and what follows them. */
  function DecimalValueOf(d: string, f: string, tail: string): Option<nat>
    requires AllDigits(d) && AllDigits(f)
  {
    if d == [] && f == [] then None
    else
      match ExponentPart(tail)
      case Some(e) =>
        assert AllDigits(d + f);
        Scaled(DecimalValue(d + f), e - |f|)
      case None => None
  }

  /** The exponent a literal ends with: none at all is 0. */
  function ExponentPart(tail: string): Option<int> {
    if tail == [] then Some(0)
    else if tail[0] == 'e' || tail[0] == 'E' then ExponentValue(tail[1..])
    else None
  }

  /** The digits of a "0b" or "0o" literal in base `radix`, read left to right. */
  function RadixValue(s: string, radix: nat): Option<nat>
    requires radix == 2 || radix == 8
  {
    if s == [] then Some(0)
    else
      var c := s[|s| - 1];
      if IsDigit(c) && DigitValue(c) < radix then
        match RadixValue(s[..|s| - 1], radix)
        case Some(v) => Some(v * radix + DigitValue(c))
        case None => None
      else None
  }

  /**
   * `Number(s)` for strings, where None stands for NaN and also for every
   * result that is not an integer: surrounding white space is ignored, the
   * empty string is 0, a sign may precede a decimal literal, and "0x", "0b"
   * and "0o" (in either case) introduce unsigned hexadecimal, binary and
   * octal ones.
   */
  function StringToNumber(s: string): (r: Option<int>)
    ensures TrimEnd(TrimStart(s)) == [] ==> r == Some(0)
    ensures r.Some? && r.value < 0 ==> TrimEnd(TrimStart(s))[0] == '-'
  {
    NumericLiteral(TrimEnd(TrimStart(s)))
  }

  /** The value of a trimmed numeric literal. */
  function NumericLiteral(t: string): (r: Option<int>)
    ensures t == [] ==> r == Some(0)
    ensures r.Some? && r.value < 0 ==> t[0] == '-'
  {
    if t == [] then Some(0)
    else if |t| > 2 && t[0] == '0' && (t[1] == 'x' || t[1] == 'X') then
      var h := t[2..];
      if HexPrefix(h) == h then Some(HexValue(h)) else None
    else if |t| > 2 && t[0] == '0' && (t[1] == 'b' || t[1] == 'B' || t[1] == 'o' || t[1] == 'O') then
      match RadixValue(t[2..], if t[1] == 'b' || t[1] == 'B' then 2 else 8)
      case Some(v) => Some(v)
      case None => None
    else if t[0] == '-' then
      match UnsignedDecimal(t[1..])
      case Some(n) => Some(-(n as int))
      case None => None
    else if t[0] == '+' then
      match UnsignedDecimal(t[1..])
      case Some(n) => Some(n)
      case None => None
    else
      match UnsignedDecimal(t)
      case Some(n) => Some(n)
      case None => None
  }

  /** A text ending in a character that is not white space keeps its end. */
  lemma TrimEndKeeps(s: string)
    requires s != [] && !IsJsWhitespace(s[|s| - 1])
    ensures TrimEnd(s) == s
  {
  }

  /** A run of decimal digits is a decimal literal worth its value. */
  lemma DigitsDecimal(s: string)
    requires s != [] && AllDigits(s)
    ensures UnsignedDecimal(s) == Some(DecimalValue(s))
  {
    DigitPrefixOf(s, []);
    assert s + [] == s;
  }

  /** A text that starts and ends with a digit is left alone by the trimming. */
  lemma TrimDigits(s: string)
    requires s != [] && IsDigit(s[|s| - 1]) && (IsDigit(s[0]) || s[0] == '-')
    ensures TrimEnd(TrimStart(s)) == s
  {
    assert !IsJsWhitespace(s[0]);
    assert TrimStart(s) == s;
    TrimEndKeeps(s);
  }

  /** A literal that starts with a digit and no radix prefix is decimal. */
  lemma NumericOfDecimal(t: string)
    requires t != [] && IsDigit(t[0])
    requires |t| > 2 && t[0] == '0' ==> t[1] == 'e'
    ensures NumericLiteral(t) == match UnsignedDecimal(t) case Some(n) => Some(n as int) case None => None
  {
  }

  /** A literal that starts with '-' is the negated decimal after it. */
  lemma NumericOfNegative(t: string)
    requires t != [] && t[0] == '-'
    ensures NumericLiteral(t) == match UnsignedDecimal(t[1..]) case Some(n) => Some(-(n as int)) case None => None
  {
  }

  /** `Number(String(i))` is `i`: the rendering of an integer reads back. */
  lemma NumberOfIntToString(i: int)
    ensures StringToNumber(IntToString(i)) == Some(i)
  {
    var n: nat := if i < 0 then -i else i;
    var s := NatToString(n);
    DecimalValueOfNatToString(n);
    DigitsDecimal(s);
    if i < 0 {
      var t := "-" + s;
      assert IntToString(i) == t;
      assert t[|t| - 1] == s[|s| - 1];
      TrimDigits(t);
      NumericOfNegative(t);
      assert t[1..] == s;
    } else {
      assert IntToString(i) == s;
      TrimDigits(s);
      NumericOfDecimal(s);
    }
  }

  /** Digits, "e" and an exponent with a non-negative value `k` read as `d * 10^k`. */
  lemma DigitsWithExponent(d: string, x: string, k: nat)
    requires d != [] && AllDigits(d) && ExponentValue(x) == Some(k)
    ensures UnsignedDecimal(d + ("e" + x)) == Some(DecimalValue(d) * Pow10(k))
  {
    var u := d + ("e" + x);
    DigitPrefixOf(d, "e" + x);
    assert DigitPrefix(u) == d;
    var rest := u[|d|..];
    assert rest == "e" + x;
    assert rest[1..] == x;
    assert ExponentPart(rest) == Some(k);
    assert d + [] == d;
    assert DecimalValueOf(d, [], rest) == Some(DecimalValue(d) * Pow10(k));
    assert DecimalAfter(d, rest) == DecimalValueOf(d, [], rest);
  }

  /** The digits of `m`, "e" and the digits of `e` read as `m * 10^e`. */
  lemma ExponentDecimal(m: nat, e: nat)
    ensures UnsignedDecimal(NatToString(m) + "e" + NatToString(e)) == Some(m * Pow10(e))
  {
    var d := NatToString(m);
    var x := NatToString(e);
    assert d + "e" + x == d + ("e" + x);
    DecimalValueOfNatToString(m);
    DecimalValueOfNatToString(e);
    assert x[0] != '-' && x[0] != '+';
    assert ExponentValue(x) == Some(e);
    DigitsWithExponent(d, x, e);
  }

  /** The exponent form: `Number(m + "e" + e)` is `m * 10^e` ("1e3" is 1000). */
  lemma ExponentLiteral(m: nat, e: nat)
    ensures StringToNumber(NatToString(m) + "e" + NatToString(e)) == Some(m * Pow10(e))
  {
    var d := NatToString(m);
    var x := NatToString(e);
    var s := d + "e" + x;
    assert s[0] == d[0] && s[|s| - 1] == x[|x| - 1];
    TrimDigits(s);
    assert |s| > 2 && s[0] == '0' ==> s[1] == 'e';
    NumericOfDecimal(s);
    ExponentDecimal(m, e);
  }

  /** `Number(v)`; None is NaN (or a non-integral number). A number reads back from its own text. */
  function ToNumber(v: Value): (r: Option<int>)
    ensures v.Num? ==> r == Some(v.n) && StringToNumber(ToJsString(v)) == r
    ensures v.Str? ==> r == StringToNumber(v.s)
    ensures v.Undefined? ==> r.None?
  {
    match v
    case Undefined => None
    case Null => Some(0)
    case Bool(b) => Some(if b then 1 else 0)
    case Num(n) => NumberOfIntToString(n); Some(n)
    case Str(s) => StringToNumber(s)
    case _ => StringToNumber(ToJsString(v))
  }

  // ---------------------------------------------------------------------
  // Equality

  /** `a === b` between values taken from two different messages: objects are never identical. */
  predicate StrictEquals(a: Value, b: Value) {
    !IsObject(a) && a == b
  }

  /** `v == t` for a string `t` (the abstract equality comparison). */
  function LooseEqualsString(v: Value, t: string): (r: bool)
    ensures v.Str? ==> (r <==> v.s == t)
    ensures v.Undefined? || v.Null? ==> !r
    ensures v.Num? && t == IntToString(v.n) ==> r
  {
    match v
    case Undefined => false
    case Null => false
    case Bool(b) => StringToNumber(t) == Some(if b then 1 else 0)
    case Num(n) => NumberOfIntToString(n); StringToNumber(t) == Some(n)
    case Str(s) => s == t
    case _ => ToJsString(v) == t
  }

  // ---------------------------------------------------------------------
  // Property access

  /**
   * The canonical array index a property key names, if any ("0", "17", not
   * "07"); array indices stop below 2^32 - 1.
   */
  function IndexKey(key: string): (r: Option<nat>)
    ensures r.Some? ==> key == NatToString(r.value) && r.value < MaxArrayLength
  {
    if key != [] && AllDigits(key) && (|key| == 1 || key[0] != '0') && DecimalValue(key) < MaxArrayLength then
      CanonicalDigits(key);
      Some(DecimalValue(key))
    else None
  }

  /** 2^32 - 1, the largest array length; an index is below it. */
  const MaxArrayLength := 0xFFFF_FFFF

  lemma {:induction false} CanonicalDigits(key: string)
    requires key != [] && AllDigits(key) && (|key| == 1 || key[0] != '0')
    ensures NatToString(DecimalValue(key)) == key
    decreases |key|
  {
    if |key| > 1 {
      var init := key[..|key| - 1];
      assert init[0] == key[0];
      CanonicalDigits(init);
      var n := DecimalValue(key);
      assert n / 10 == DecimalValue(init) && n % 10 == DigitValue(key[|key| - 1]);
      assert DecimalValue(init) >= 1 by {
        LeadingDigitPositive(init);
      }
      assert key == init + [key[|key| - 1]];
    }
  }

  lemma {:induction false} LeadingDigitPositive(s: string)
    requires s != [] && AllDigits(s) && s[0] != '0'
    ensures DecimalValue(s) >= 1
    decreases |s|
  {
    if |s| > 1 {
      var init := s[..|s| - 1];
      assert init[0] == s[0];
      LeadingDigitPositive(init);
    }
  }

  /**
   * `v[key]`. Reading a property of null or undefined throws a TypeError,
   * here None. Arrays and strings have their indices and `length`.
   */
  function Prop(v: Value, key: string): Option<Value> {
    match v
    case Undefined => None
    case Null => None
    case Obj(m) => Some(if key in m then m[key] else Undefined)
    case Arr(xs) =>
      if key == "length" then Some(Num(|xs|))
      else
        var i := IndexKey(key);
        Some(if i.Some? && i.value < |xs| then xs[i.value] else Undefined)
    case Str(s) =>
      if key == "length" then Some(Num(|s|))
      else
        var i := IndexKey(key);
        Some(if i.Some? && i.value < |s| then Str([s[i.value]]) else Undefined)
    case _ => Some(Undefined)
  }

  /** A value whose properties can be read without a TypeError. */
  predicate Readable(v: Value) {
    !v.Undefined? && !v.Null?
  }

  /** `v[key]` where `v` is known to be readable. */
  function Field(v: Value, key: string): Value
    requires Readable(v)
  {
    Prop(v, key).value
  }

  /** Only objects have properties other than `length` and array or string indices. */
  lemma NamedKeyOnlyOnObjects(v: Value, key: string)
    requires Readable(v) && IndexKey(key).None? && key != "length"
    requires !Field(v, key).Undefined?
    ensures v.Obj?
  {
  }

  /**
   * `v[key] = x` in sloppy mode, as the settings file stores the result.
   * Writing to null or undefined throws a TypeError (None); writing to a
   * string, number or boolean is silently ignored; an array takes index
   * keys, the holes a write past its end leaves and an undefined element
   * are stored as null (`JSON.stringify` writes both so), and a non-index
   * key on an array is not stored.
   */
  function Put(v: Value, key: string, x: Value): (r: Option<Value>)
    ensures r.None? <==> v.Undefined? || v.Null?
    ensures r.Some? ==> (r.value.Obj? <==> v.Obj?) && (r.value.Arr? <==> v.Arr?)
    ensures r.Some? && !IsObject(v) ==> r.value == v
  {
    match v
    case Undefined => None
    case Null => None
    case Obj(m) => Some(Obj(m[key := x]))
    case Arr(xs) =>
      var i := IndexKey(key);
      if i.None? then Some(v)
      else if i.value < |xs| then Some(Arr(xs[i.value := Stored(v, x)]))
      else Some(Arr(xs + seq(i.value - |xs|, _ => Null) + [Stored(v, x)]))
    case _ => Some(v)
  }

  /**
   * What `container` holds for a written `x` once the file is saved: an
   * array element that is undefined becomes null, an object keeps it.
   */
  function Stored(container: Value, x: Value): (r: Value)
    ensures !x.Undefined? ==> r == x
    ensures x.Undefined? ==> (r.Null? <==> container.Arr?) && (r.Undefined? <==> !container.Arr?)
  {
    if container.Arr? && x.Undefined? then Null else x
  }

  /** A key a container actually stores when written through `Put`. */
  predicate Stores(v: Value, key: string) {
    v.Obj? || (v.Arr? && IndexKey(key).Some?)
  }

  /** An object, or an array the key indexes within its bounds: a write there changes one entry in place. */
  predicate InPlace(v: Value, key: string) {
    v.Obj? || (v.Arr? && IndexKey(key).Some? && IndexKey(key).value < |v.items|)
  }

  /** Writing a key that the container stores and reading it back gives the written value as stored. */
  lemma PropAfterPut(v: Value, key: string, x: Value)
    requires Stores(v, key)
    ensures Put(v, key, x).Some? && Prop(Put(v, key, x).value, key) == Some(Stored(v, x))
  {
    if v.Arr? {
      var i := IndexKey(key).value;
      assert key != "length";
      if i >= |v.items| {
        var w := v.items + seq(i - |v.items|, _ => Null) + [Stored(v, x)];
        assert |w| == i + 1 && w[i] == Stored(v, x);
      }
    }
  }

  /** Writing one key of an object, or one element of an array in place, leaves every other key as it was. */
  lemma PropOtherAfterPut(v: Value, key: string, other: string, x: Value)
    requires InPlace(v, key) && other != key
    ensures Put(v, key, x).Some? && Prop(Put(v, key, x).value, other) == Prop(v, other)
  {
    if v.Arr? {
      var i := IndexKey(key).value;
      var j := IndexKey(other);
      assert j.Some? ==> j.value != i;
    }
  }
}
