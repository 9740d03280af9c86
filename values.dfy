/**
 * Python values as the trading bot sees them: decoded JSON documents, Python
 * truthiness, the `or` operator, `dict.get`, and the handful of built-in
 * conversions the bot relies on (`int()`, `float()`, `str()` of an int,
 * `strip()`, `split()`, `lower()`, `isdigit()`).
 *
 * JSON numbers are exact reals: the bot's `round(x, 2)` and binary floating
 * point are not modelled.
 */
module PyValues {

  datatype Option<+T> = None | Some(value: T)

  /** A value returned by Python's `json.load`. */
  datatype Json =
    | JNull
    | JBool(b: bool)
    | JNum(n: real)
    | JStr(s: string)
    | JArr(items: seq<Json>)
    | JObj(fields: map<string, Json>)

  /**
   * What reading and decoding a JSON file gives: no file, a file that cannot
   * be read or decoded (open() or json.load raises), or the decoded value.
   */
  datatype FileContent = Missing | Unreadable | Parsed(value: Json)

  /** Python truthiness: None, False, 0, "", [] and {} are false. */
  predicate Truthy(v: Json) {
    match v
    case JNull => false
    case JBool(b) => b
    case JNum(n) => n != 0.0
    case JStr(s) => s != ""
    case JArr(a) => a != []
    case JObj(m) => m != map[]
  }

  /** `d.get(key)`: None when the key is absent. */
  function Get(m: map<string, Json>, key: string): Json {
    if key in m then m[key] else JNull
  }

  /** `d.get(key, default)`. */
  function GetOr(m: map<string, Json>, key: string, default: Json): Json {
    if key in m then m[key] else default
  }

  /** Python's `a or b`: `a` when it is truthy, otherwise `b` (even a falsy `b`). */
  function Or(a: Json, b: Json): Json {
    if Truthy(a) then a else b
  }

  /**
   * A value used as an operand of `-` or `*`: a number, or a bool (a Python
   * bool is an int).  Anything else makes the arithmetic raise TypeError.
   */
  function Num(v: Json): Option<real> {
    match v
    case JNum(n) => Some(n)
    case JBool(b) => Some(if b then 1.0 else 0.0)
    case _ => None
  }

  /**
   * The elements `for p in v` visits, for a loop whose body needs each element
   * to be a dict: a list gives its items, an empty dict or string gives none;
   * None where Python raises (a number, None or a bool is not iterable, and
   * the keys of a non-empty dict or the characters of a non-empty string are
   * strings, on which `p.get` and `p[...]` raise).
   */
  function Items(v: Json): Option<seq<Json>> {
    match v
    case JArr(a) => Some(a)
    case JObj(m) => if m == map[] then Some([]) else None
    case JStr(s) => if s == "" then Some([]) else None
    case _ => None
  }

  function Abs(n: int): nat {
    if n < 0 then -n else n
  }

  /** `int(x)` of a float: truncation toward zero. */
  function Trunc(r: real): int {
    if r >= 0.0 then r.Floor else -((-r).Floor)
  }

  // ---------------------------------------------------------------------
  // Characters and strings
  // ---------------------------------------------------------------------

  /** The characters for which Python's `str.isspace()` holds. */
  predicate IsSpace(c: char) {
    c == ' ' || c == '\t' || c == '\n' || c == '\r' || c == '\U{000B}' || c == '\U{000C}'
    || ('\U{001C}' <= c <= '\U{001F}') || c == '\U{0085}' || c == '\U{00A0}' || c == '\U{1680}'
    || ('\U{2000}' <= c <= '\U{200A}') || c == '\U{2028}' || c == '\U{2029}' || c == '\U{202F}'
    || c == '\U{205F}' || c == '\U{3000}'
  }

  predicate IsDigit(c: char) {
    '0' <= c <= '9'
  }

  predicate AllDigits(s: string) {
    forall i :: 0 <= i < |s| ==> IsDigit(s[i])
  }

  /**
   * `s.isdigit()` restricted to ASCII: true of a non-empty string of the
   * digits '0' to '9'.  Python also accepts other Unicode digits (such as
   * "²" or the Arabic-Indic digits), which this predicate rejects.
   */
  predicate IsDigitString(s: string) {
    |s| > 0 && AllDigits(s)
  }

  /** A string with no whitespace in it, such as a word of `split()`. */
  predicate NoSpaces(s: string) {
    forall i :: 0 <= i < |s| ==> !IsSpace(s[i])
  }

  /** A string of whitespace only. */
  predicate AllSpaces(s: string) {
    forall i :: 0 <= i < |s| ==> IsSpace(s[i])
  }

  /** Drops leading whitespace. */
  function DropSpaces(s: string): (r: string)
    ensures |r| <= |s| && r == s[|s| - |r|..]
    ensures r == [] || !IsSpace(r[0])
  {
    if s != [] && IsSpace(s[0]) then DropSpaces(s[1..]) else s
  }

  /** Drops trailing whitespace. */
  function DropTrailingSpaces(s: string): (r: string)
    ensures |r| <= |s| && r == s[..|r|]
    ensures r == [] || !IsSpace(r[|r| - 1])
  {
    if s != [] && IsSpace(s[|s| - 1]) then DropTrailingSpaces(s[..|s| - 1]) else s
  }

  /** `s.strip()`. */
  function Strip(s: string): string {
    DropTrailingSpaces(DropSpaces(s))
  }

  /** `s.lstrip(c)` for a single character `c`. */
  function LStripChar(s: string, c: char): (r: string)
    ensures |r| <= |s|
    ensures r == [] || r[0] != c
  {
    if s != [] && s[0] == c then LStripChar(s[1..], c) else s
  }

  /** `s.rstrip(c)` for a single character `c`. */
  function RStripChar(s: string, c: char): (r: string)
    ensures |r| <= |s|
    ensures r == [] || r[|r| - 1] != c
  {
    if s != [] && s[|s| - 1] == c then RStripChar(s[..|s| - 1], c) else s
  }

  /** `lstrip` keeps a suffix of the string. */
  lemma {:induction false} LStripCharKeepsSuffix(s: string, c: char)
    ensures var r := LStripChar(s, c); r == s[|s| - |r|..]
  {
    if s != [] && s[0] == c {
      LStripCharKeepsSuffix(s[1..], c);
      var r := LStripChar(s[1..], c);
      assert s[1..][|s| - 1 - |r|..] == s[|s| - |r|..];
    }
  }

  /** `rstrip` keeps a prefix of the string. */
  lemma {:induction false} RStripCharKeepsPrefix(s: string, c: char)
    ensures var r := RStripChar(s, c); r == s[..|r|]
  {
    if s != [] && s[|s| - 1] == c {
      RStripCharKeepsPrefix(s[..|s| - 1], c);
      var r := RStripChar(s[..|s| - 1], c);
      assert s[..|s| - 1][..|r|] == s[..|r|];
    }
  }

  /** The longest prefix of `s` without whitespace. */
  function TakeWord(s: string): (w: string)
    ensures |w| <= |s| && w == s[..|w|]
    ensures s != [] && !IsSpace(s[0]) ==> |w| > 0
  {
    if s == [] || IsSpace(s[0]) then [] else [s[0]] + TakeWord(s[1..])
  }

  /** `s.split()`: the maximal runs of non-whitespace characters, in order. */
  function Words(s: string): seq<string>
    decreases |s|
  {
    var t := DropSpaces(s);
    if t == [] then []
    else
      var w := TakeWord(t);
      [w] + Words(t[|w|..])
  }

  function LowerChar(c: char): char {
    if 'A' <= c <= 'Z' then (c as int + 32) as char else c
  }

  /** `s.lower()` on ASCII letters. */
  function Lower(s: string): (r: string)
    ensures |r| == |s|
  {
    seq(|s|, i requires 0 <= i < |s| => LowerChar(s[i]))
  }

  // ---------------------------------------------------------------------
  // Integers as text
  // ---------------------------------------------------------------------

  /** The value of a string of decimal digits, most significant first. */
  function DigitsValue(s: string): nat
    requires AllDigits(s)
  {
    if s == [] then 0 else DigitsValue(s[..|s| - 1]) * 10 + (s[|s| - 1] as int - '0' as int)
  }

  function DigitChar(d: nat): char
    requires d < 10
  {
    ('0' as int + d) as char
  }

  /** The decimal digits of `n`, no leading zeros. */
  function ShowNat(n: nat): string {
    if n < 10 then [DigitChar(n)] else ShowNat(n / 10) + [DigitChar(n % 10)]
  }

  /** `str(n)` of a Python int. */
  function ShowInt(n: int): string {
    if n < 0 then "-" + ShowNat(-n) else ShowNat(n)
  }

  /**
   * `int(s)` of a string: surrounding whitespace is stripped, then an optional
   * sign and one or more decimal digits; any other text raises ValueError (None).
   */
  function ParseInt(s: string): Option<int> {
    var t := Strip(s);
    if |t| > 1 && (t[0] == '-' || t[0] == '+') && AllDigits(t[1..]) then
      var v: int := DigitsValue(t[1..]);
      Some(if t[0] == '-' then -v else v)
    else if |t| > 0 && AllDigits(t) then
      Some(DigitsValue(t))
    else
      None
  }

  function Pow10(k: nat): (r: nat)
    ensures r >= 1
  {
    if k == 0 then 1 else 10 * Pow10(k - 1)
  }

  /** The index of the first '.', or |s| when there is none. */
  function DotIndex(s: string): (k: nat)
    ensures k <= |s|
    ensures k < |s| ==> s[k] == '.'
    ensures forall i :: 0 <= i < k ==> s[i] != '.'
  {
    if s == [] || s[0] == '.' then 0 else 1 + DotIndex(s[1..])
  }

  /** The value of an unsigned decimal `ddd`, `ddd.`, `ddd.ddd` or `.ddd`. */
  function UnsignedDecimal(s: string): Option<real> {
    var k := DotIndex(s);
    var whole := s[..k];
    var frac := if k < |s| then s[k + 1..] else [];
    if AllDigits(whole) && AllDigits(frac) && |whole| + |frac| > 0 then
      Some(DigitsValue(whole) as real + DigitsValue(frac) as real / Pow10(|frac|) as real)
    else
      None
  }

  /**
   * `float(s)` of a string in plain decimal notation, after stripping
   * whitespace and an optional sign; other text raises ValueError (None).
   */
  function ParseDecimal(s: string): Option<real> {
    var t := Strip(s);
    if |t| > 0 && (t[0] == '-' || t[0] == '+') then
      match UnsignedDecimal(t[1..])
      case Some(r) => Some(if t[0] == '-' then -r else r)
      case None => None
    else
      UnsignedDecimal(t)
  }

  /** `int(v)` of a decoded JSON value; None where Python raises. */
  function IntOf(v: Json): Option<int> {
    match v
    case JNum(n) => Some(Trunc(n))
    case JBool(b) => Some(if b then 1 else 0)
    case JStr(s) => ParseInt(s)
    case _ => None
  }

  /** `float(v)` of a decoded JSON value; None where Python raises. */
  function FloatOf(v: Json): Option<real> {
    match v
    case JNum(n) => Some(n)
    case JBool(b) => Some(if b then 1.0 else 0.0)
    case JStr(s) => ParseDecimal(s)
    case _ => None
  }

  // ---------------------------------------------------------------------
  // Properties
  // ---------------------------------------------------------------------

  lemma DigitNotSpace(c: char)
    requires IsDigit(c)
    ensures !IsSpace(c)
  {
  }

  /** `int(s)` of a string of digits is its decimal value. */
  lemma ParseDigitString(s: string)
    requires IsDigitString(s)
    ensures ParseInt(s) == Some(DigitsValue(s) as int)
  {
    assert IsDigit(s[0]) && IsDigit(s[|s| - 1]);
    StripNoSpaces(s);
  }

  /** `str(n)` for a natural number is a non-empty digit string that reads back as `n`. */
  lemma {:induction false} ShowNatDigits(n: nat)
    ensures |ShowNat(n)| > 0 && AllDigits(ShowNat(n)) && DigitsValue(ShowNat(n)) == n
  {
    var s := ShowNat(n);
    if n >= 10 {
      ShowNatDigits(n / 10);
      assert s[..|s| - 1] == ShowNat(n / 10);
    }
  }

  lemma StripNoSpaces(s: string)
    requires s != [] && !IsSpace(s[0]) && !IsSpace(s[|s| - 1])
    ensures Strip(s) == s
  {
  }

  /** `int(str(n)) == n`: the text of an integer parses back to it. */
  lemma ParseShowInt(n: int)
    ensures ParseInt(ShowInt(n)) == Some(n)
  {
    ShowNatDigits(Abs(n));
    var d := ShowNat(Abs(n));
    if n >= 0 {
      ParseDigitString(d);
    } else {
      var s := "-" + d;
      assert s[1..] == d;
      assert s[|s| - 1] == d[|d| - 1];
      DigitNotSpace(d[|d| - 1]);
      assert !IsSpace(s[0]);
      StripNoSpaces(s);
      assert |s| > 1 && s[0] == '-' && AllDigits(s[1..]);
      var v: int := DigitsValue(s[1..]);
      assert ParseInt(s) == Some(-v);
    }
  }

  /** `str` is injective on integers. */
  lemma ShowIntInjective(a: int, b: int)
    ensures ShowInt(a) == ShowInt(b) <==> a == b
  {
    ParseShowInt(a);
    ParseShowInt(b);
  }

  /** Every word of `split()` is non-empty and holds no whitespace. */
  lemma {:induction false} WordsAreWords(s: string)
    ensures forall w :: w in Words(s) ==> |w| > 0 && NoSpaces(w)
    decreases |s|
  {
    var t := DropSpaces(s);
    if t != [] {
      var w := TakeWord(t);
      var rest := t[|w|..];
      TakeWordNoSpaces(t);
      WordsAreWords(rest);
      assert Words(s) == [w] + Words(rest);
      forall x | x in Words(s) ensures |x| > 0 && NoSpaces(x) {
        if x != w {
          assert x in Words(rest);
        }
      }
    }
  }

  lemma {:induction false} TakeWordNoSpaces(s: string)
    ensures NoSpaces(TakeWord(s))
  {
    if s != [] && !IsSpace(s[0]) {
      TakeWordNoSpaces(s[1..]);
    }
  }
}
