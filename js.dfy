/** The JavaScript values the core reads, and the parts of the JavaScript
    runtime it relies on: `typeof`, truthiness, property reads, string and
    number coercion, `String.prototype.split` and `Array.prototype.join`. */
module Js {

  datatype Option<T> = None | Some(value: T)

  /** The outcome of a call: a value, or the TypeError the runtime throws
      (a property read on null or undefined, a method missing on a value). */
  datatype Result<T> = Ok(value: T) | TypeError

  /** A JavaScript value. Numbers are finite; functions, symbols and
      prototypes are not represented. */
  datatype Value =
    | Undefined
    | Null
    | Bool(b: bool)
    | Num(n: real)
    | Str(s: string)
    | Arr(elems: seq<Value>)
    | Obj(props: map<string, Value>)

  /** `Math.PI` */
  const Pi: real := 3.141592653589793

  /** `Math.atan2` returns a result in [-Pi, Pi]; -Pi itself is reached for
      `atan2(-0, x)` with x < 0. */
  type Atan2Fn = f: (real, real) -> real | forall y: real, x: real :: -Pi <= f(y, x) <= Pi
    witness (y: real, x: real) => 0.0

  /** IEEE division: the real quotient whenever the divisor is not zero
      (a zero divisor gives an infinity or NaN, which is not represented). */
  type DivideFn = f: (real, real) -> real | forall a: real, b: real :: b != 0.0 ==> f(a, b) == a / b
    witness (a: real, b: real) => if b == 0.0 then 0.0 else a / b

  /** Number-to-string conversion is taken as given, apart from the one
      fact the core relies on: a natural number up to 2^53 prints as its
      decimal numeral. Up to 2^53 every integer is a double of its own, so
      the shortest digits that round-trip are its exact digits; above it
      JavaScript may print rounded digits padded with zeros, and from 10^21
      on it switches to exponent notation. */
  const MaxExactInteger: nat := 9_007_199_254_740_992

  type NumberToStringFn = f: real -> string | forall n: nat :: n <= MaxExactInteger ==> f(n as real) == NatToStr(n)
    witness (x: real) => if 0.0 <= x && x.Floor as real == x then NatToStr(x.Floor) else ""

  /** The runtime's numeric library, taken as given: number formatting,
      string-to-number parsing (None is NaN), division, `Math.tan`,
      `Math.log` and `Math.atan2`. */
  datatype Runtime = Runtime(
    numberToString: NumberToStringFn,
    stringToNumber: string -> Option<real>,
    divide: DivideFn,
    tan: real -> real,
    log: real -> real,
    atan2: Atan2Fn)

  /** `typeof v`; note that `typeof null` is "object". */
  function TypeOf(v: Value): (t: string)
    ensures t == "object" <==> v.Null? || v.Arr? || v.Obj?
    ensures t == "string" <==> v.Str?
    ensures t == "number" <==> v.Num?
  {
    match v
    case Undefined => "undefined"
    case Null => "object"
    case Bool(_) => "boolean"
    case Num(_) => "number"
    case Str(_) => "string"
    case Arr(_) => "object"
    case Obj(_) => "object"
  }

  /** The values on which a property read throws. */
  predicate Nullish(v: Value) {
    v.Undefined? || v.Null?
  }

  /** JavaScript truthiness: undefined, null, false, 0 and "" are falsy. */
  predicate Truthy(v: Value) {
    match v
    case Undefined => false
    case Null => false
    case Bool(b) => b
    case Num(n) => n != 0.0
    case Str(s) => s != ""
    case Arr(_) => true
    case Obj(_) => true
  }

  /** The falsy values are exactly undefined, null, false, 0 and "", so a
      value whose `typeof` is "object" is truthy exactly when it is not
      null, even an empty array or object. */
  lemma FalsyValues(v: Value)
    ensures !Truthy(v) <==> v in [Undefined, Null, Bool(false), Num(0.0), Str("")]
    ensures TypeOf(v) == "object" ==> (Truthy(v) <==> !v.Null?)
  {
  }

  predicate IsDigit(c: char) {
    '0' <= c <= '9'
  }

  function DigitChar(d: nat): (c: char)
    requires d < 10
    ensures IsDigit(c) && DigitValue(c) == d
  {
    ('0' as int + d) as char
  }

  function DigitValue(c: char): (d: nat)
    requires IsDigit(c)
    ensures d < 10
  {
    (c as int) - ('0' as int)
  }

  function DigitsValue(s: string): nat
    requires forall i :: 0 <= i < |s| ==> IsDigit(s[i])
  {
    if s == [] then 0
    else DigitsValue(s[..|s| - 1]) * 10 + DigitValue(s[|s| - 1])
  }

  /** The decimal text of a natural number, as Number.prototype.toString
      writes an integer-valued number. */
  function NatToStr(n: nat): (r: string)
    ensures |r| >= 1 && (forall i :: 0 <= i < |r| ==> IsDigit(r[i]))
    ensures r[0] == '0' ==> n == 0
    ensures DigitsValue(r) == n
  {
    if n < 10 then [DigitChar(n)]
    else
      var p := NatToStr(n / 10);
      assert (p + [DigitChar(n % 10)])[..|p|] == p;
      p + [DigitChar(n % 10)]
  }

  /** The array index a property key denotes: a canonical decimal numeral. */
  function ArrayIndex(key: string): (r: Option<nat>)
    ensures r.Some? ==> NatToStr(r.value) == key
  {
    if key != [] && (forall i :: 0 <= i < |key| ==> IsDigit(key[i])) && (key[0] != '0' || |key| == 1)
    then
      DecimalUnique(key, NatToStr(DigitsValue(key)));
      Some(DigitsValue(key))
    else None
  }

  /** Two canonical numerals with the same value are the same text. */
  lemma {:induction false} DecimalUnique(s: string, t: string)
    requires s != [] && t != []
    requires forall i :: 0 <= i < |s| ==> IsDigit(s[i])
    requires forall i :: 0 <= i < |t| ==> IsDigit(t[i])
    requires s[0] != '0' || |s| == 1
    requires t[0] != '0' || |t| == 1
    requires DigitsValue(s) == DigitsValue(t)
    ensures s == t
  {
    if |s| == 1 && |t| == 1 {
      assert s[..0] == [] && t[..0] == [];
    } else if |s| == 1 {
      assert s[..0] == [];
      LeadingDigitBound(t);
    } else if |t| == 1 {
      assert t[..0] == [];
      LeadingDigitBound(s);
    } else {
      var s', t' := s[..|s| - 1], t[..|t| - 1];
      assert s'[0] == s[0] && t'[0] == t[0];
      DecimalUnique(s', t');
      assert s == s' + [s[|s| - 1]] && t == t' + [t[|t| - 1]];
    }
  }

  /** A canonical numeral of two or more digits is at least 10. */
  lemma {:induction false} LeadingDigitBound(s: string)
    requires |s| >= 2 && (forall i :: 0 <= i < |s| ==> IsDigit(s[i])) && s[0] != '0'
    ensures DigitsValue(s) >= 10
  {
    var s' := s[..|s| - 1];
    if |s| == 2 {
      assert s'[..0] == [];
    } else {
      assert s'[0] == s[0];
      LeadingDigitBound(s');
    }
  }

  /** The array index of a decimal numeral is the number it was printed from. */
  lemma ArrayIndexOfNatToStr(n: nat)
    ensures ArrayIndex(NatToStr(n)) == Some(n)
  {
  }

  /** `v[key]` on a value that is not null or undefined. Arrays and strings
      answer their length and their indices; objects their own properties;
      everything else reads as undefined. */
  function Get(v: Value, key: string): Value
    requires !Nullish(v)
  {
    match v
    case Arr(es) =>
      if key == "length" then Num(|es| as real)
      else (match ArrayIndex(key)
            case Some(i) => if i < |es| then es[i] else Undefined
            case None => Undefined)
    case Str(s) =>
      if key == "length" then Num(|s| as real)
      else (match ArrayIndex(key)
            case Some(i) => if i < |s| then Str([s[i]]) else Undefined
            case None => Undefined)
    case Obj(m) => if key in m then m[key] else Undefined
    case _ => Undefined
  }

  /** A property key that is neither "length" nor an array index. */
  predicate PlainKey(key: string) {
    key != "length" && key != [] && !IsDigit(key[0])
  }

  /** The own property `key` of an object, undefined on anything else. */
  function Field(v: Value, key: string): Value {
    if v.Obj? && key in v.props then v.props[key] else Undefined
  }

  /** Reading a plain key is reading a field: arrays and strings have no
      such property. */
  lemma FieldIsGet(v: Value, key: string)
    requires !Nullish(v) && PlainKey(key)
    ensures Get(v, key) == Field(v, key)
  {
  }

  /** Reading an array at the printed numeral of an index in range gives
      that element, and a string at it gives that character. */
  lemma GetElement(v: Value, n: nat)
    requires (v.Arr? && n < |v.elems|) || (v.Str? && n < |v.s|)
    ensures v.Arr? ==> Get(v, NatToStr(n)) == v.elems[n]
    ensures v.Str? ==> Get(v, NatToStr(n)) == Str([v.s[n]])
  {
    ArrayIndexOfNatToStr(n);
    assert NatToStr(n) != "length" by {
      DiffersFromLength(NatToStr(n));
    }
  }

  lemma DiffersFromLength(s: string)
    requires s != [] && IsDigit(s[0])
    ensures s != "length"
  {
    assert "length"[0] == 'l';
  }

  /** `a.join(sep)`, and `s.split(sep)` below, for a one-character separator. */
  function JoinWith(parts: seq<string>, sep: char): string {
    if parts == [] then ""
    else if |parts| == 1 then parts[0]
    else parts[0] + [sep] + JoinWith(parts[1..], sep)
  }

  function Split(s: string, sep: char): (r: seq<string>)
    ensures |r| >= 1
  {
    if s == [] then [""]
    else
      var rest := Split(s[1..], sep);
      if s[0] == sep then [""] + rest
      else [[s[0]] + rest[0]] + rest[1..]
  }

  /** Joining the pieces of a split gives back the text. */
  lemma {:induction false} JoinSplit(s: string, sep: char)
    ensures JoinWith(Split(s, sep), sep) == s
  {
    if s != [] {
      var rest := Split(s[1..], sep);
      JoinSplit(s[1..], sep);
      if s[0] == sep {
        assert ([""] + rest)[1..] == rest;
      } else {
        var r := [[s[0]] + rest[0]] + rest[1..];
        if |rest| == 1 {
          assert r == [[s[0]] + rest[0]];
          assert s == [s[0]] + s[1..];
        } else {
          assert r[1..] == rest[1..];
          assert JoinWith(rest, sep) == rest[0] + [sep] + JoinWith(rest[1..], sep);
          assert s == [s[0]] + s[1..];
        }
      }
    }
  }

  /** Splitting a join gives back the pieces, when no piece holds the separator. */
  lemma {:induction false} SplitJoin(parts: seq<string>, sep: char)
    requires |parts| >= 1
    requires forall i :: 0 <= i < |parts| ==> sep !in parts[i]
    ensures Split(JoinWith(parts, sep), sep) == parts
  {
    if |parts| == 1 {
      SplitFree(parts[0], sep);
    } else {
      SplitJoin(parts[1..], sep);
      SplitConcat(parts[0], JoinWith(parts[1..], sep), sep);
      SplitFree(parts[0], sep);
      assert parts == [parts[0]] + parts[1..];
    }
  }

  /** A text without the separator splits into itself alone. */
  lemma {:induction false} SplitFree(s: string, sep: char)
    requires sep !in s
    ensures Split(s, sep) == [s]
  {
    if s != [] {
      assert s[0] != sep && sep !in s[1..];
      SplitFree(s[1..], sep);
      assert s == [s[0]] + s[1..];
    }
  }

  /** Splitting `a + sep + b` splits `a` and `b` separately. */
  lemma {:induction false} SplitConcat(a: string, b: string, sep: char)
    ensures Split(a + [sep] + b, sep) == Split(a, sep) + Split(b, sep)
  {
    var sb := Split(b, sep);
    if a == [] {
      assert a + [sep] + b == [sep] + b;
      SplitCons(sep, b, sep);
    } else {
      var t := a[1..] + [sep] + b;
      assert a + [sep] + b == [a[0]] + t;
      assert a == [a[0]] + a[1..];
      SplitCons(a[0], t, sep);
      SplitCons(a[0], a[1..], sep);
      SplitConcat(a[1..], b, sep);
      SplitConcatStep(a[0], Split(a[1..], sep), sb, sep);
    }
  }

  /** Splitting a text that starts with `c`. */
  lemma SplitCons(c: char, t: string, sep: char)
    ensures c == sep ==> Split([c] + t, sep) == [""] + Split(t, sep)
    ensures c != sep ==> Split([c] + t, sep) == [[c] + Split(t, sep)[0]] + Split(t, sep)[1..]
  {
    assert ([c] + t)[1..] == t;
  }

  /** The sequence algebra of one SplitConcat step. */
  lemma SplitConcatStep(c: char, ra: seq<string>, sb: seq<string>, sep: char)
    requires |ra| >= 1
    ensures [""] + (ra + sb) == ([""] + ra) + sb
    ensures [[c] + (ra + sb)[0]] + (ra + sb)[1..] == ([[c] + ra[0]] + ra[1..]) + sb
  {
    assert (ra + sb)[0] == ra[0];
    assert (ra + sb)[1..] == ra[1..] + sb;
  }

  /** The string a value becomes under `+` with a string. Arrays join their
      elements with "," (null and undefined elements become empty). */
  function ToStr(rt: Runtime, v: Value): string
    decreases v
  {
    match v
    case Undefined => "undefined"
    case Null => "null"
    case Bool(b) => if b then "true" else "false"
    case Num(n) => rt.numberToString(n)
    case Str(s) => s
    case Arr(es) =>
      JoinWith(seq(|es|, i requires 0 <= i < |es| => if Nullish(es[i]) then "" else ToStr(rt, es[i])), ',')
    case Obj(_) => "[object Object]"
  }

  /** A natural number up to 2^53 becomes its decimal numeral, a string
      itself, and an array of strings their join with ",". */
  lemma ToStrCases(rt: Runtime, n: nat, s: string, ss: seq<string>)
    requires n <= MaxExactInteger
    ensures ToStr(rt, Num(n as real)) == NatToStr(n)
    ensures ToStr(rt, Str(s)) == s
    ensures ToStr(rt, Arr(seq(|ss|, i requires 0 <= i < |ss| => Str(ss[i])))) == JoinWith(ss, ',')
  {
    var es := seq(|ss|, i requires 0 <= i < |ss| => Str(ss[i]));
    assert seq(|es|, i requires 0 <= i < |es| => if Nullish(es[i]) then "" else ToStr(rt, es[i])) == ss;
  }

  /** The number arithmetic makes of a value; None is NaN. */
  function ToNumber(rt: Runtime, v: Value): Option<real> {
    match v
    case Undefined => None
    case Null => Some(0.0)
    case Bool(b) => Some(if b then 1.0 else 0.0)
    case Num(n) => Some(n)
    case Str(s) => rt.stringToNumber(s)
    case Arr(_) => rt.stringToNumber(ToStr(rt, v))
    case Obj(_) => rt.stringToNumber(ToStr(rt, v))
  }
}
