/**
 * The JavaScript value layer that every screen of the dashboard leans on:
 * the scalar values a JSON reply carries, JavaScript truthiness with its two
 * defaulting operators `||` and `??`, `parseFloat`, `Math.round`, the
 * decimal rendering of a status code and string comparison.
 *
 * IEEE special values are not modelled: a `parseFloat` that yields NaN is
 * `None`, and arithmetic is exact over `real`.
 */
module JsValues {

  datatype Option<+T> = None | Some(value: T)

  /** A JSON scalar as the backend sends it. */
  datatype Json = JNull | JBool(b: bool) | JNum(n: real) | JStr(s: string)

  /** A JSON object; a key that is absent reads as `undefined`. */
  type Record = map<string, Json>

  /** `obj[key]`, with `None` standing for `undefined`. */
  function Field(r: Record, key: string): (v: Option<Json>)
    ensures v.Some? <==> key in r
    ensures v.Some? ==> v.value == r[key]
  {
    if key in r then Some(r[key]) else None
  }

  /** `obj?.key`: `undefined` when the object itself is absent. */
  function OptField(r: Option<Record>, key: string): (v: Option<Json>)
    ensures v.Some? <==> r.Some? && key in r.value
  {
    if r.None? then None else Field(r.value, key)
  }

  // ---------------------------------------------------------------------
  // Truthiness and the defaulting operators
  // ---------------------------------------------------------------------

  /** JavaScript falsiness: undefined, null, false, 0 and "" (NaN is not a value here). */
  predicate Falsy(v: Option<Json>)
  {
    match v
    case None => true
    case Some(JNull) => true
    case Some(JBool(b)) => !b
    case Some(JNum(n)) => n == 0.0
    case Some(JStr(s)) => s == ""
  }

  /** `v || d` */
  function OrDefault(v: Option<Json>, d: Json): (r: Json)
    ensures Falsy(v) ==> r == d
    ensures !Falsy(v) ==> v.Some? && r == v.value
  {
    if Falsy(v) then d else v.value
  }

  /** `v ?? d`: only undefined and null fall back. */
  function Nullish(v: Option<Json>, d: Json): (r: Json)
    ensures (v.None? || v.value.JNull?) ==> r == d
    ensures v.Some? && !v.value.JNull? ==> r == v.value
  {
    if v.None? || v.value.JNull? then d else v.value
  }

  /** `??` keeps every falsy value that is not null or undefined, where `||` replaces it. */
  lemma NullishKeepsWhatOrReplaces(v: Option<Json>, d: Json)
    requires Falsy(v) && v.Some? && !v.value.JNull? && v.value != d
    ensures Nullish(v, d) == v.value && OrDefault(v, d) == d && Nullish(v, d) != OrDefault(v, d)
  {
  }

  // ---------------------------------------------------------------------
  // Decimal digits, the rendering of a natural number and parseFloat
  // ---------------------------------------------------------------------

  predicate IsDigit(c: char) { '0' <= c <= '9' }

  function DigitValue(c: char): (d: nat)
    requires IsDigit(c)
    ensures d < 10
  {
    (c as int - '0' as int) as nat
  }

  function DigitChar(d: nat): (c: char)
    requires d < 10
    ensures IsDigit(c) && DigitValue(c) == d
  {
    ('0' as int + d) as char
  }

  predicate AllDigits(s: string)
  {
    forall i :: 0 <= i < |s| ==> IsDigit(s[i])
  }

  /** The decimal text of `n` as template literals and `toString` write it. */
  function NatToString(n: nat): (s: string)
    ensures |s| >= 1 && AllDigits(s)
    ensures (|s| > 1) == (n >= 10)
  {
    if n < 10 then [DigitChar(n)] else NatToString(n / 10) + [DigitChar(n % 10)]
  }

  /** The number of leading decimal digits of `s`. */
  function LeadingDigits(s: string): (k: nat)
    ensures k <= |s|
    ensures AllDigits(s[..k])
    ensures k < |s| ==> !IsDigit(s[k])
  {
    if s == [] || !IsDigit(s[0]) then 0
    else
      var k := 1 + LeadingDigits(s[1..]);
      assert s[..k] == [s[0]] + s[1..][..k - 1];
      k
  }

  /** The value of a run of decimal digits, most significant first. */
  function DigitsToNat(s: string): nat
    requires AllDigits(s)
  {
    if s == [] then 0 else DigitsToNat(s[..|s| - 1]) * 10 + DigitValue(s[|s| - 1])
  }

  /** The value of the digits after a decimal point: "25" is 0.25. */
  function FractionValue(s: string): real
    requires AllDigits(s)
  {
    if s == [] then 0.0 else (DigitValue(s[0]) as real + FractionValue(s[1..])) / 10.0
  }

  /**
   * The white space `parseFloat` skips: tab, vertical tab, form feed, space, no-break
   * space, the byte order mark, the other space separators, and the line terminators.
   */
  predicate IsSpace(c: char)
  {
    c == '\t' || c == '\U{B}' || c == '\U{C}' || c == ' ' || c == '\U{A0}' || c == '\U{FEFF}'
    || c == '\U{1680}' || ('\U{2000}' <= c <= '\U{200A}') || c == '\U{202F}' || c == '\U{205F}'
    || c == '\U{3000}' || c == '\n' || c == '\r' || c == '\U{2028}' || c == '\U{2029}'
  }

  function TrimStart(s: string): (t: string)
    ensures |t| <= |s| && (t != [] ==> !IsSpace(t[0]))
  {
    if s != [] && IsSpace(s[0]) then TrimStart(s[1..]) else s
  }

  /** The longest prefix of the shape digits [ "." digits ], with at least one digit. */
  function ParseUnsigned(s: string): (r: Option<real>)
    ensures r.Some? ==> r.value >= 0.0
    ensures s == [] ==> r.None?
  {
    var k := LeadingDigits(s);
    var whole := DigitsToNat(s[..k]) as real;
    if k < |s| && s[k] == '.' then
      var frac := s[k + 1..];
      var f := LeadingDigits(frac);
      if k == 0 && f == 0 then None
      else
        FractionBounds(frac[..f]);
        Some(whole + FractionValue(frac[..f]))
    else if k == 0 then None
    else Some(whole)
  }

  /** `parseFloat` of a text: leading white space, an optional sign, then a decimal prefix. */
  function ParseText(s: string): Option<real>
  {
    var t := TrimStart(s);
    if t != [] && t[0] == '-' then
      match ParseUnsigned(t[1..])
      case None => None
      case Some(x) => Some(-x)
    else if t != [] && t[0] == '+' then ParseUnsigned(t[1..])
    else ParseUnsigned(t)
  }

  /** `parseFloat(v)`; `None` stands for NaN. */
  function ParseFloat(v: Option<Json>): (r: Option<real>)
    ensures v.Some? && v.value.JNum? ==> r == Some(v.value.n)
    ensures v.None? || v.value.JNull? || v.value.JBool? ==> r.None?
  {
    match v
    case None => None
    case Some(JNull) => None
    case Some(JBool(_)) => None
    case Some(JNum(n)) => Some(n)
    case Some(JStr(s)) => ParseText(s)
  }

  /** `parseFloat(v) || 0`: NaN becomes 0. */
  function ParseOrZero(v: Option<Json>): (r: real)
    ensures ParseFloat(v).None? ==> r == 0.0
    ensures ParseFloat(v).Some? ==> r == ParseFloat(v).value
  {
    match ParseFloat(v)
    case None => 0.0
    case Some(x) => x
  }

  lemma {:induction false} FractionBounds(s: string)
    requires AllDigits(s)
    ensures 0.0 <= FractionValue(s) < 1.0
  {
    if s != [] {
      FractionBounds(s[1..]);
    }
  }

  lemma {:induction false} NatToStringDigits(n: nat)
    ensures LeadingDigits(NatToString(n)) == |NatToString(n)|
    ensures DigitsToNat(NatToString(n)) == n
  {
    var s := NatToString(n);
    assert s[..|s|] == s;
    if n >= 10 {
      NatToStringDigits(n / 10);
      assert s[..|s| - 1] == NatToString(n / 10);
    }
  }

  /** Reading back the decimal text of a natural number gives the number. */
  lemma NatToStringParses(n: nat)
    ensures ParseText(NatToString(n)) == Some(n as real)
    ensures ParseFloat(Some(JStr(NatToString(n)))) == Some(n as real)
  {
    var s := NatToString(n);
    NatToStringDigits(n);
    assert TrimStart(s) == s;
    assert s[..|s|] == s;
  }

  /** Distinct numbers have distinct texts, so a status code survives in an error message. */
  lemma NatToStringInjective(m: nat, n: nat)
    requires NatToString(m) == NatToString(n)
    ensures m == n
  {
    NatToStringDigits(m);
    NatToStringDigits(n);
  }

  // ---------------------------------------------------------------------
  // Math.round
  // ---------------------------------------------------------------------

  /** `Math.round`: the nearest integer, halves rounded up. */
  function Round(x: real): (r: int)
    ensures x - 0.5 < r as real <= x + 0.5
  {
    (x + 0.5).Floor
  }

  /** A whole number of tenths: what one decimal place can show exactly. */
  predicate InTenths(x: real)
  {
    (x * 10.0).Floor as real == x * 10.0
  }

  /** `Math.round(x * 10) / 10`: the nearest whole number of tenths. */
  function Round1(x: real): (r: real)
    ensures x - 0.05 < r <= x + 0.05
    ensures InTenths(r)
  {
    var n := Round(x * 10.0);
    assert (n as real / 10.0) * 10.0 == n as real;
    n as real / 10.0
  }

  lemma {:induction false} RoundMonotone(x: real, y: real)
    requires x <= y
    ensures Round(x) <= Round(y)
  {
    assert x + 0.5 <= y + 0.5;
  }

  // ---------------------------------------------------------------------
  // Strings
  // ---------------------------------------------------------------------

  /** JavaScript `a <= b` on strings: lexicographic on code units. */
  predicate LexLe(a: string, b: string)
  {
    if a == [] then true
    else if b == [] then false
    else if a[0] != b[0] then a[0] < b[0]
    else LexLe(a[1..], b[1..])
  }

  lemma {:induction false} LexLeReflexive(a: string)
    ensures LexLe(a, a)
  {
    if a != [] { LexLeReflexive(a[1..]); }
  }

  lemma {:induction false} LexLeTransitive(a: string, b: string, c: string)
    requires LexLe(a, b) && LexLe(b, c)
    ensures LexLe(a, c)
  {
    if a != [] && b != [] && c != [] && a[0] == b[0] && b[0] == c[0] {
      LexLeTransitive(a[1..], b[1..], c[1..]);
    }
  }

  lemma {:induction false} LexLeTotal(a: string, b: string)
    ensures LexLe(a, b) || LexLe(b, a)
  {
    if a != [] && b != [] && a[0] == b[0] {
      LexLeTotal(a[1..], b[1..]);
    }
  }

  /** `s.startsWith(p)` */
  predicate StartsWith(s: string, p: string)
  {
    |p| <= |s| && s[..|p|] == p
  }

  /** `s.includes(p)` */
  predicate Includes(s: string, p: string)
    decreases |s|
  {
    StartsWith(s, p) || (s != [] && Includes(s[1..], p))
  }

  /** `p` occurs in `s` starting at index `i`. */
  predicate OccursAt(s: string, p: string, i: nat)
  {
    i + |p| <= |s| && s[i..i + |p|] == p
  }

  lemma {:induction false} IncludesAt(s: string, p: string, i: nat)
    requires OccursAt(s, p, i)
    ensures Includes(s, p)
  {
    if i > 0 {
      assert s[1..][i - 1..i - 1 + |p|] == s[i..i + |p|];
      IncludesAt(s[1..], p, i - 1);
    }
  }

  /** `includes` holds exactly when `p` occurs at some position of `s`. */
  lemma {:induction false} IncludesIffOccurs(s: string, p: string)
    ensures Includes(s, p) <==> exists i: nat :: OccursAt(s, p, i)
  {
    if Includes(s, p) {
      if StartsWith(s, p) {
        assert OccursAt(s, p, 0);
      } else {
        IncludesIffOccurs(s[1..], p);
        var i: nat :| OccursAt(s[1..], p, i);
        assert s[i + 1..i + 1 + |p|] == s[1..][i..i + |p|];
        assert OccursAt(s, p, i + 1);
      }
    }
    if exists i: nat :: OccursAt(s, p, i) {
      var i: nat :| OccursAt(s, p, i);
      IncludesAt(s, p, i);
    }
  }
}
