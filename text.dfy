/** The string operations of the .NET base library that the core relies on:
    `char.IsWhiteSpace`, `string.IsNullOrWhiteSpace`, `string.Trim`, the argument
    guards built on them, `StringComparison.OrdinalIgnoreCase` and the decimal
    formatting of a non-negative `int`. */
module Text {
  import opened Common

  /** `char.IsWhiteSpace`: the Unicode space separators (category Zs), the line and
      paragraph separators, and the control characters U+0009..U+000D and U+0085. */
  predicate IsWhiteSpace(c: char) {
    || ('\t' <= c <= '\r')
    || c == ' '
    || c == '\U{85}'
    || c == '\U{A0}'
    || c == '\U{1680}'
    || ('\U{2000}' <= c <= '\U{200A}')
    || c == '\U{2028}'
    || c == '\U{2029}'
    || c == '\U{202F}'
    || c == '\U{205F}'
    || c == '\U{3000}'
  }

  /** Every character is white space (the empty string included). */
  predicate Blank(s: string) {
    forall i | 0 <= i < |s| :: IsWhiteSpace(s[i])
  }

  /** `string.IsNullOrWhiteSpace`. */
  predicate NullOrWhiteSpace(s: Option<string>) {
    s.None? || Blank(s.value)
  }

  /** `ArgumentException.ThrowIfNullOrWhiteSpace`: null raises ArgumentNullException,
      a blank string raises ArgumentException. */
  function CheckNotBlank(value: Option<string>): (r: Outcome)
    ensures r.Pass? <==> value.Some? && exists i | 0 <= i < |value.value| :: !IsWhiteSpace(value.value[i])
    ensures r.Fail? ==> (r.error == ArgumentNull <==> value.None?)
    ensures r.Fail? ==> r.error == ArgumentNull || r.error == ArgumentBlank
  {
    match value
    case None => Fail(ArgumentNull)
    case Some(s) => if Blank(s) then Fail(ArgumentBlank) else Pass
  }

  /** `ArgumentNullException.ThrowIfNull`. */
  function CheckNotNull<T>(value: Option<T>): Outcome {
    if value.None? then Fail(ArgumentNull) else Pass
  }

  // ---------------------------------------------------------------------------
  // Trimming

  /** `string.TrimStart()`: drops the leading white space and nothing else. */
  function TrimStart(s: string): (r: string)
    ensures |r| <= |s| && r == s[|s| - |r|..]
    ensures Blank(s[..|s| - |r|])
    ensures r == [] || !IsWhiteSpace(r[0])
  {
    if s != [] && IsWhiteSpace(s[0]) then
      var r := TrimStart(s[1..]);
      assert s[..|s| - |r|] == [s[0]] + s[1..][..|s| - 1 - |r|];
      r
    else
      s
  }

  /** `string.TrimEnd()`: drops the trailing white space and nothing else. */
  function TrimEnd(s: string): (r: string)
    ensures |r| <= |s| && r == s[..|r|]
    ensures Blank(s[|r|..])
    ensures r == [] || !IsWhiteSpace(r[|r| - 1])
  {
    if s != [] && IsWhiteSpace(s[|s| - 1]) then
      var r := TrimEnd(s[..|s| - 1]);
      assert s[|r|..] == s[..|s| - 1][|r|..] + [s[|s| - 1]];
      r
    else
      s
  }

  /** `string.Trim()`. */
  function Trim(s: string): string {
    TrimEnd(TrimStart(s))
  }

  /** What Trim keeps: a slice of its input, with white space dropped only at the
      two ends, and no white space left at either end. */
  lemma TrimIsSlice(s: string)
    ensures exists i, j | 0 <= i <= j <= |s| :: Trim(s) == s[i..j] && Blank(s[..i]) && Blank(s[j..])
    ensures Trim(s) == [] || (!IsWhiteSpace(Trim(s)[0]) && !IsWhiteSpace(Trim(s)[|Trim(s)| - 1]))
  {
    var t := TrimStart(s);
    var i := |s| - |t|;
    var j := i + |TrimEnd(t)|;
    assert Trim(s) == s[i..j];
    assert s[j..] == t[|TrimEnd(t)|..];
    if Trim(s) != [] {
      assert Trim(s)[0] == t[0];
    }
  }

  /** Trimming leaves something exactly when the input is not blank: so a
      non-blank title is still non-blank after Trim, and a blank one becomes empty. */
  lemma {:induction false} TrimBlank(s: string)
    ensures Trim(s) == [] <==> Blank(s)
    ensures Blank(Trim(s)) <==> Blank(s)
  {
    var t := TrimStart(s);
    if t == [] {
      assert s == s[..|s| - |t|];
    } else {
      assert s[|s| - |t|] == t[0];
      var e := TrimEnd(t);
      assert t[0..] == t;
      assert e != [];
      assert e[0] == t[0];
    }
  }

  /** Trimming twice is trimming once. */
  lemma TrimIdempotent(s: string)
    ensures Trim(Trim(s)) == Trim(s)
  {
    TrimIsSlice(s);
  }

  // ---------------------------------------------------------------------------
  // StringComparison.OrdinalIgnoreCase

  /** The per-character upper-case mapping that OrdinalIgnoreCase compares by,
      for U+0000..U+00FF: ASCII letters, the Latin-1 small letters (but U+00F7,
      the division sign, and U+00DF, sharp s, which has no single-character
      upper case), U+00FF and U+00B5. Every other character maps to itself. */
  function ToUpperOrdinal(c: char): char {
    if 'a' <= c <= 'z' then (c as int - 32) as char
    else if '\U{E0}' <= c <= '\U{FE}' && c != '\U{F7}' then (c as int - 32) as char
    else if c == '\U{FF}' then '\U{178}'
    else if c == '\U{B5}' then '\U{39C}'
    else c
  }

  /** `string.Equals(a, b, StringComparison.OrdinalIgnoreCase)`: equal lengths and
      equal upper-case mappings, character by character. */
  predicate EqualsIgnoreCase(a: string, b: string) {
    |a| == |b| && (a == [] || (ToUpperOrdinal(a[0]) == ToUpperOrdinal(b[0]) && EqualsIgnoreCase(a[1..], b[1..])))
  }

  /** The character-by-character comparison, stated for all positions at once. */
  lemma {:induction false} EqualsIgnoreCaseAt(a: string, b: string)
    ensures EqualsIgnoreCase(a, b) <==>
              |a| == |b| && forall i | 0 <= i < |a| :: ToUpperOrdinal(a[i]) == ToUpperOrdinal(b[i])
  {
    if a != [] && |a| == |b| {
      EqualsIgnoreCaseAt(a[1..], b[1..]);
      assert forall i | 1 <= i < |a| :: a[i] == a[1..][i - 1] && b[i] == b[1..][i - 1];
    }
  }

  /** OrdinalIgnoreCase is an equivalence, so "remove every match" does not depend
      on the order in which the two titles are compared. */
  lemma EqualsIgnoreCaseIsEquivalence(a: string, b: string, c: string)
    ensures EqualsIgnoreCase(a, a)
    ensures EqualsIgnoreCase(a, b) ==> EqualsIgnoreCase(b, a)
    ensures EqualsIgnoreCase(a, b) && EqualsIgnoreCase(b, c) ==> EqualsIgnoreCase(a, c)
  {
    EqualsIgnoreCaseAt(a, a);
    EqualsIgnoreCaseAt(a, b);
    EqualsIgnoreCaseAt(b, a);
    EqualsIgnoreCaseAt(b, c);
    EqualsIgnoreCaseAt(a, c);
  }

  /** A title and its upper-case spelling match; a trailing space does not. */
  lemma RetroMatchesUpperCase()
    ensures EqualsIgnoreCase("Retro", "RETRO")
    ensures !EqualsIgnoreCase("Retro", "Retro ")
  {
    EqualsIgnoreCaseAt("Retro", "RETRO");
    assert ToUpperOrdinal('e') == 'E';
    assert ToUpperOrdinal('t') == 'T';
    assert ToUpperOrdinal('r') == 'R';
    assert ToUpperOrdinal('o') == 'O';
  }

  // ---------------------------------------------------------------------------
  // Decimal formatting of a non-negative int

  function DigitChar(d: nat): (c: char)
    requires d < 10
    ensures '0' <= c <= '9' && c as int - '0' as int == d
  {
    ('0' as int + d) as char
  }

  predicate AllDigits(s: string) {
    forall i | 0 <= i < |s| :: '0' <= s[i] <= '9'
  }

  /** `n.ToString()` for `n >= 0`: the shortest decimal spelling. */
  function NatToString(n: nat): (r: string)
    ensures |r| > 0 && AllDigits(r)
    ensures r[0] == '0' ==> n == 0
  {
    if n < 10 then [DigitChar(n)] else NatToString(n / 10) + [DigitChar(n % 10)]
  }

  /** The number a string of decimal digits spells. */
  function DigitsValue(s: string): nat
    requires AllDigits(s)
  {
    if s == [] then 0 else DigitsValue(s[..|s| - 1]) * 10 + (s[|s| - 1] as int - '0' as int)
  }

  /** Reading back a formatted number gives the number: formatting is injective. */
  lemma {:induction false} NatToStringRoundTrip(n: nat)
    ensures DigitsValue(NatToString(n)) == n
  {
    if n >= 10 {
      NatToStringRoundTrip(n / 10);
      var s := NatToString(n);
      assert s[..|s| - 1] == NatToString(n / 10);
    }
  }
}
