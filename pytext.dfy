/**
 * The three Python built-ins that the registration handlers apply to text:
 * `str(n)` renders a button's integer id as its callback payload, `int(s)` and
 * `bool(s)` turn the stored answers back into the values of the committed row.
 */
module PyText {
  import opened Wrappers

  predicate IsDigit(c: char) {
    '0' <= c <= '9'
  }

  /**
   * The white space `int()` skips around a number: the ASCII characters C's
   * `isspace()` accepts, and the non-ASCII characters `str.isspace()` accepts.
   */
  predicate IsIntSpace(c: char) {
    || ('\t' <= c <= '\r') || c == ' '
    || c == '\U{85}' || c == '\U{A0}' || c == '\U{1680}'
    || ('\U{2000}' <= c <= '\U{200A}')
    || c == '\U{2028}' || c == '\U{2029}' || c == '\U{202F}' || c == '\U{205F}' || c == '\U{3000}'
  }

  /**
   * The characters Python's `str.isspace()` accepts: those of `int()`, and
   * the separators U+001C to U+001F, which `int()` does not skip.
   */
  predicate IsSpace(c: char) {
    IsIntSpace(c) || ('\U{1C}' <= c <= '\U{1F}')
  }

  function StripLeft(s: string): (r: string)
    ensures |r| <= |s| && r == s[|s| - |r|..]
    ensures r == [] || !IsIntSpace(r[0])
  {
    if s != [] && IsIntSpace(s[0]) then StripLeft(s[1..]) else s
  }

  function StripRight(s: string): (r: string)
    ensures |r| <= |s| && r == s[..|r|]
    ensures r == [] || !IsIntSpace(r[|r| - 1])
  {
    if s != [] && IsIntSpace(s[|s| - 1]) then StripRight(s[..|s| - 1]) else s
  }

  /** The text `int()` reads: `s` with the white space around it removed. */
  function Strip(s: string): string {
    StripRight(StripLeft(s))
  }

  /**
   * The digit strings `int()` accepts in base 10: decimal digits, where single
   * underscores may separate two digits.
   */
  predicate DigitString(s: string) {
    && |s| > 0
    && IsDigit(s[0])
    && IsDigit(s[|s| - 1])
    && (forall i :: 0 <= i < |s| ==> IsDigit(s[i]) || s[i] == '_')
    && (forall i :: 0 <= i < |s| - 1 ==> !DoubleUnderscoreAt(s, i))
  }

  predicate DoubleUnderscoreAt(s: string, i: nat)
    requires i < |s| - 1
  {
    s[i] == '_' && s[i + 1] == '_'
  }

  function DigitValue(c: char): nat
    requires IsDigit(c)
  {
    c as int - '0' as int
  }

  /** The number a digit string denotes; underscores carry no value. */
  function DigitsValue(s: string): nat
    requires forall i :: 0 <= i < |s| ==> IsDigit(s[i]) || s[i] == '_'
  {
    if s == [] then 0
    else if s[|s| - 1] == '_' then DigitsValue(s[..|s| - 1])
    else 10 * DigitsValue(s[..|s| - 1]) + DigitValue(s[|s| - 1])
  }

  /**
   * Python's `int(s)` on a string: `None` where Python raises `ValueError`.
   * Surrounding white space is ignored. An integer is read only from a string
   * that holds a digit.
   */
  function PyInt(s: string): (r: Option<int>)
    ensures r.Some? ==> exists i :: 0 <= i < |s| && IsDigit(s[i])
  {
    var t := Strip(s);
    var r := SignedDigits(t);
    if r.Some? then
      assert IsDigit(s[|s| - |StripLeft(s)| + |t| - 1]);
      r
    else r
  }

  /** An optional sign followed by a digit string, read as an integer. */
  function SignedDigits(t: string): (r: Option<int>)
    ensures r.Some? ==> t != [] && IsDigit(t[|t| - 1])
  {
    if t != [] && (t[0] == '-' || t[0] == '+') then
      if DigitString(t[1..]) then
        Some(if t[0] == '-' then -(DigitsValue(t[1..]) as int) else DigitsValue(t[1..]))
      else None
    else if DigitString(t) then Some(DigitsValue(t))
    else None
  }

  /** Python's `bool(s)` on a string: every non-empty string is true. */
  function PyBool(s: string): bool {
    s != []
  }

  function DigitChar(d: nat): (c: char)
    requires d < 10
    ensures IsDigit(c) && DigitValue(c) == d
  {
    ('0' as int + d) as char
  }

  /** The decimal digits of a natural number, without leading zeros. */
  function NatStr(n: nat): (r: string)
    ensures |r| > 0 && forall i :: 0 <= i < |r| ==> IsDigit(r[i])
    ensures r[0] == '0' ==> n == 0
    decreases n
  {
    if n < 10 then [DigitChar(n)] else NatStr(n / 10) + [DigitChar(n % 10)]
  }

  /** Python's `str(n)` on an integer. */
  function Str(n: int): (r: string)
    ensures r != [] && (IsDigit(r[0]) || r[0] == '-') && IsDigit(r[|r| - 1])
    ensures r[0] == '-' <==> n < 0
  {
    if n < 0 then "-" + NatStr(-n) else NatStr(n)
  }

  lemma {:induction false} NatStrValue(n: nat)
    ensures DigitString(NatStr(n)) && DigitsValue(NatStr(n)) == n
    decreases n
  {
    if n >= 10 {
      var prefix := NatStr(n / 10);
      NatStrValue(n / 10);
      assert NatStr(n)[..|NatStr(n)| - 1] == prefix;
    }
  }

  lemma StripUnspaced(s: string)
    requires s != [] && !IsIntSpace(s[0]) && !IsIntSpace(s[|s| - 1])
    ensures Strip(s) == s
  {
  }

  /**
   * `int(str(n)) == n`: the payload a button renders from an id reads back as
   * that same id.
   */
  lemma IntOfStr(n: int)
    ensures PyInt(Str(n)) == Some(n)
  {
    IntOfUnspaced(Str(n));
    if n < 0 {
      SignedDigitsOfNegative(n);
    } else {
      NatStrValue(n);
    }
  }

  lemma SignedDigitsOfNegative(n: int)
    requires n < 0
    ensures SignedDigits(Str(n)) == Some(n)
  {
    var m: nat := -n;
    assert Str(n) == "-" + NatStr(m);
    NatStrValue(m);
    NegativeDigits(NatStr(m));
  }

  /** `int()` of a string with no white space around it reads the string itself. */
  lemma IntOfUnspaced(t: string)
    requires t != [] && !IsIntSpace(t[0]) && !IsIntSpace(t[|t| - 1])
    ensures PyInt(t) == SignedDigits(t)
  {
    StripUnspaced(t);
  }

  lemma NegativeDigits(digits: string)
    requires DigitString(digits)
    ensures SignedDigits("-" + digits) == Some(-(DigitsValue(digits) as int))
  {
    assert ("-" + digits)[1..] == digits;
  }

  /** The two answers of a yes/no button are both true under `bool()`. */
  lemma BoolOfAnswerTokens()
    ensures PyBool("true") && PyBool("false")
  {
  }

  /**
   * A string that, apart from surrounding white space, starts with neither a
   * sign nor a digit makes `int()` raise.
   */
  lemma IntRejectsNonNumeric(s: string)
    requires Strip(s) != [] && !IsDigit(Strip(s)[0]) && Strip(s)[0] != '-' && Strip(s)[0] != '+'
    ensures PyInt(s) == None
  {
  }

  /** Neither yes/no token is an integer. */
  lemma IntRejectsAnswerTokens(token: string)
    requires token == "true" || token == "false"
    ensures PyInt(token) == None
  {
    IntRejectsWord(token);
  }

  /** A non-empty word of lower-case ASCII letters is not an integer. */
  lemma IntRejectsWord(s: string)
    requires s != [] && forall i :: 0 <= i < |s| ==> 'a' <= s[i] <= 'z'
    ensures PyInt(s) == None
  {
    StripUnspaced(s);
    IntRejectsNonNumeric(s);
  }
}
