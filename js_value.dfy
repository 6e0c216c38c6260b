/**
 * The JavaScript values a request body field can take, and the three ways the
 * meal service looks at them: express-validator's `isEmpty` check, JavaScript
 * truthiness (`if (food_name) ...`) and Mongoose's casts to the schema's
 * `String` and `Number` types.
 */
module JsValue {
  import opened Base

  /** A body field: absent (`undefined`), a string or an (integral) number. */
  datatype Value = Missing | Text(s: string) | Number(n: int)

  /** JavaScript truthiness: `undefined`, `""` and `0` are falsy. */
  predicate Truthy(v: Value)
    ensures Truthy(v) <==> !IsEmpty(v) && v != Number(0)
  {
    match v
    case Missing => false
    case Text(s) => s != ""
    case Number(n) => n != 0
  }

  /** The string express-validator checks: `undefined` becomes `""`, a number its decimal form. */
  function ValidatorString(v: Value): (r: string)
    ensures v.Number? ==> r != "" && CastNumber(Text(r)) == Some(v.n)
    ensures v.Text? ==> r == v.s
  {
    match v
    case Missing => ""
    case Text(s) => s
    case Number(n) => CastNumberOfString(n); NumberToString(n)
  }

  /** `check(field).not().isEmpty()` fails exactly when this holds. */
  predicate IsEmpty(v: Value)
    ensures IsEmpty(v) <==> v == Missing || v == Text("")
  {
    ValidatorString(v) == ""
  }

  predicate IsDigit(c: char)
  {
    '0' <= c <= '9'
  }

  predicate AllDigits(s: string)
  {
    forall i :: 0 <= i < |s| ==> IsDigit(s[i])
  }

  function DigitChar(d: nat): (c: char)
    requires d < 10
    ensures IsDigit(c) && c as int - '0' as int == d
  {
    ('0' as int + d) as char
  }

  /** Decimal notation of a natural number, without leading zeros. */
  function NatToString(n: nat): (r: string)
    ensures r != [] && AllDigits(r)
    ensures |r| > 1 ==> r[0] != '0'
    decreases n
  {
    if n < 10 then [DigitChar(n)] else NatToString(n / 10) + [DigitChar(n % 10)]
  }

  /** `String(n)` for an integral number. */
  function NumberToString(n: int): (r: string)
    ensures r != ""
  {
    if n < 0 then "-" + NatToString(-n) else NatToString(n)
  }

  /** The value of a string of decimal digits. */
  function ParseNat(s: string): nat
    requires AllDigits(s)
  {
    if s == [] then 0 else ParseNat(s[..|s| - 1]) * 10 + (s[|s| - 1] as int - '0' as int)
  }

  /** `Number(s)` for strings of the form `[-]digits`; anything else is a cast failure here. */
  function ParseInt(s: string): (r: Option<int>)
    ensures s == [] || !(IsDigit(s[0]) || s[0] == '-') ==> r.None?
    ensures r.Some? && s[0] != '-' ==> r.value >= 0
    ensures r.Some? && s[0] == '-' ==> r.value <= 0
  {
    if s != [] && AllDigits(s) then Some(ParseNat(s))
    else if |s| > 1 && s[0] == '-' && AllDigits(s[1..]) then Some(-(ParseNat(s[1..]) as int))
    else None
  }

  /** Mongoose's cast of a field to the schema type `Number`. */
  function CastNumber(v: Value): (r: Option<int>)
    ensures v.Number? ==> r == Some(v.n)
    ensures v == Missing || v == Text("") ==> r.None?
  {
    match v
    case Missing => None
    case Text(s) => ParseInt(s)
    case Number(n) => Some(n)
  }

  /** Mongoose's cast of a field to the schema type `String`. */
  function CastString(v: Value): (r: Option<string>)
    ensures r.Some? <==> v != Missing
    ensures v.Text? ==> r == Some(v.s)
    ensures r.Some? ==> r.value == ValidatorString(v)
  {
    match v
    case Missing => None
    case Text(s) => Some(s)
    case Number(n) => Some(NumberToString(n))
  }

  /** Reading back the decimal form of a natural number gives the number. */
  lemma {:induction false} ParseNatToString(n: nat)
    ensures ParseNat(NatToString(n)) == n
    decreases n
  {
    var s := NatToString(n);
    if n >= 10 {
      var prefix := NatToString(n / 10);
      assert s[..|s| - 1] == prefix;
      ParseNatToString(n / 10);
    }
  }

  /** `Number(String(n)) == n`: casting the printed form of a number back gives the number. */
  lemma {:induction false} CastNumberOfString(n: int)
    ensures ParseInt(NumberToString(n)) == Some(n)
    ensures CastNumber(Text(NumberToString(n))) == Some(n)
  {
    if n < 0 {
      var t := NatToString(-n);
      var s := "-" + t;
      assert s[0] == '-' && !IsDigit(s[0]);
      assert s[1..] == t;
      ParseNatToString(-n);
    } else {
      ParseNatToString(n);
    }
  }

  /**
   * A truthy value always passes the validator; the one value the validator
   * accepts that is not truthy is the number 0.
   */
  lemma TruthyAndNonEmpty(v: Value)
    ensures Truthy(v) ==> !IsEmpty(v)
    ensures (!IsEmpty(v) && !Truthy(v)) <==> v == Number(0)
  {
  }

  /** Every truthy value casts to a non-empty string. */
  lemma TruthyCastsToNonEmptyString(v: Value)
    ensures Truthy(v) ==> CastString(v).Some? && CastString(v).value != ""
  {
  }
}
