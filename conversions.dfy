/**
  The field converters of the school-data importer: total functions from an
  optional raw string (a JSON field that may be missing) to a typed value,
  each falling back to a fixed default instead of failing.
  Strings are sequences of Unicode scalar values.
*/
module Conversions {
  import opened Optional

  // ---------------------------------------------------------------------------
  // Character classes

  /** Swift's `Character.isNewline`: LF, VT, FF, CR, NEL, LINE SEPARATOR and
      PARAGRAPH SEPARATOR. */
  predicate IsNewline(c: char) {
    c == '\n' || c == '\U{B}' || c == '\U{C}' || c == '\r'
    || c == '\U{85}' || c == '\U{2028}' || c == '\U{2029}'
  }

  /** Membership in Foundation's `CharacterSet.whitespacesAndNewlines` as
      CoreFoundation tests it: TAB, SPACE, NO-BREAK SPACE, OGHAM SPACE MARK,
      U+2000 to U+200B (the typographic spaces and ZERO WIDTH SPACE), NARROW
      NO-BREAK SPACE, MEDIUM MATHEMATICAL SPACE, IDEOGRAPHIC SPACE, and the
      newlines. */
  predicate IsWhitespaceOrNewline(c: char) {
    || IsNewline(c)
    || c == '\t' || c == ' ' || c == '\U{A0}' || c == '\U{1680}'
    || ('\U{2000}' <= c <= '\U{200B}')
    || c == '\U{202F}' || c == '\U{205F}' || c == '\U{3000}'
  }

  predicate AllWhitespace(s: string) {
    forall i :: 0 <= i < |s| ==> IsWhitespaceOrNewline(s[i])
  }

  predicate NoNewline(s: string) {
    forall i :: 0 <= i < |s| ==> !IsNewline(s[i])
  }

  /** Neither the first nor the last character is whitespace or a newline. */
  predicate Trimmed(s: string) {
    s != [] ==> !IsWhitespaceOrNewline(s[0]) && !IsWhitespaceOrNewline(s[|s| - 1])
  }

  // ---------------------------------------------------------------------------
  // Text

  /** The index of the first character at or after `k` that is neither
      whitespace nor a newline, or `|s|` when there is none. */
  function SkipBlanksForward(s: string, k: nat): (n: nat)
    requires k <= |s|
    ensures k <= n <= |s|
    ensures forall i :: k <= i < n ==> IsWhitespaceOrNewline(s[i])
    ensures n < |s| ==> !IsWhitespaceOrNewline(s[n])
    decreases |s| - k
  {
    if k < |s| && IsWhitespaceOrNewline(s[k]) then SkipBlanksForward(s, k + 1) else k
  }

  /** The index just past the last character before `k` that is neither
      whitespace nor a newline, or 0 when there is none. */
  function SkipBlanksBackward(s: string, k: nat): (n: nat)
    requires k <= |s|
    ensures n <= k
    ensures forall i :: n <= i < k ==> IsWhitespaceOrNewline(s[i])
    ensures 0 < n ==> !IsWhitespaceOrNewline(s[n - 1])
  {
    if 0 < k && IsWhitespaceOrNewline(s[k - 1]) then SkipBlanksBackward(s, k - 1) else k
  }

  /** Drops the longest prefix of whitespace and newlines. */
  function TrimLeading(s: string): (r: string)
    ensures |r| <= |s| && r == s[|s| - |r|..]
    ensures forall i :: 0 <= i < |s| - |r| ==> IsWhitespaceOrNewline(s[i])
    ensures r != [] ==> !IsWhitespaceOrNewline(r[0])
  {
    s[SkipBlanksForward(s, 0)..]
  }

  /** Drops the longest suffix of whitespace and newlines. */
  function TrimTrailing(s: string): (r: string)
    ensures |r| <= |s| && r == s[..|r|]
    ensures forall i :: |r| <= i < |s| ==> IsWhitespaceOrNewline(s[i])
    ensures r != [] ==> !IsWhitespaceOrNewline(r[|r| - 1])
  {
    s[..SkipBlanksBackward(s, |s|)]
  }

  /** `trimmingCharacters(in: .whitespacesAndNewlines)`: the input with its
      blank prefix and blank suffix cut off. */
  function Trim(s: string): (r: string)
    ensures Trimmed(r)
    ensures r == [] <==> AllWhitespace(s)
    ensures s != [] && Trimmed(s) ==> r == s
  {
    var t := TrimLeading(s);
    assert t == [] ==> AllWhitespace(s);
    TrimTrailing(t)
  }

  /** Trimming keeps a middle part of the text: what it cuts off on either
      side is whitespace and newlines only. */
  lemma TrimSplits(s: string)
    ensures exists i, j :: 0 <= i <= j <= |s| && Trim(s) == s[i..j]
                           && AllWhitespace(s[..i]) && AllWhitespace(s[j..])
  {
    var t := TrimLeading(s);
    var r := TrimTrailing(t);
    var i := |s| - |t|;
    assert r == s[i..i + |r|];
    assert AllWhitespace(s[..i]);
    assert s[i + |r|..] == t[|r|..];
  }

  /** `filter { !$0.isNewline }`: keeps every other character, in order
      (RemoveNewlinesAppend and RemoveNewlinesOfChar). */
  function RemoveNewlines(s: string): (r: string)
    ensures |r| <= |s|
  {
    if s == [] then []
    else (if IsNewline(s[0]) then [] else [s[0]]) + RemoveNewlines(s[1..])
  }

  /** On one character the filter keeps it exactly when it is no newline. */
  lemma RemoveNewlinesOfChar(c: char)
    ensures RemoveNewlines([c]) == if IsNewline(c) then [] else [c]
  {
    assert [c][1..] == [];
  }

  /** The filter works character by character, so it distributes over
      concatenation; with RemoveNewlinesOfChar this determines it on every
      input. */
  lemma {:induction false} RemoveNewlinesAppend(a: string, b: string)
    ensures RemoveNewlines(a + b) == RemoveNewlines(a) + RemoveNewlines(b)
  {
    if a == [] {
      assert a + b == b;
    } else {
      assert (a + b)[0] == a[0] && (a + b)[1..] == a[1..] + b;
      RemoveNewlinesAppend(a[1..], b);
    }
  }

  lemma NoNewlineAppend(a: string, b: string)
    requires NoNewline(a) && NoNewline(b)
    ensures NoNewline(a + b)
  {
  }

  /** No newline survives the filter, and newline-free text passes through
      unchanged. */
  lemma {:induction false} RemoveNewlinesCleans(s: string)
    ensures NoNewline(RemoveNewlines(s))
    ensures NoNewline(s) ==> RemoveNewlines(s) == s
  {
    if s != [] {
      RemoveNewlinesCleans(s[1..]);
      var head := if IsNewline(s[0]) then [] else [s[0]];
      NoNewlineAppend(head, RemoveNewlines(s[1..]));
      if NoNewline(s) {
        assert NoNewline(s[1..]);
        assert s == [s[0]] + s[1..];
      }
    }
  }

  /** A first or last character that is no newline stays first or last. */
  lemma RemoveNewlinesKeepsEnds(s: string)
    ensures s != [] && !IsNewline(s[0]) ==> RemoveNewlines(s) != [] && RemoveNewlines(s)[0] == s[0]
    ensures s != [] && !IsNewline(s[|s| - 1]) ==>
              RemoveNewlines(s) != [] && RemoveNewlines(s)[|RemoveNewlines(s)| - 1] == s[|s| - 1]
  {
    if s != [] {
      var front, last := s[..|s| - 1], s[|s| - 1];
      assert s == front + [last];
      RemoveNewlinesAppend(front, [last]);
      RemoveNewlinesOfChar(last);
    }
  }

  /** `stringToString`: absent or empty input gives nil; anything else is
      trimmed of surrounding whitespace and stripped of newlines. */
  function StringToString(str: Option<string>): (r: Option<string>)
    ensures r.None? <==> str.None? || str == Some([])
    ensures r.Some? ==> NoNewline(r.value) && Trimmed(r.value)
  {
    match str
    case None => None
    case Some(s) =>
      if 0 < |s| then
        var t := Trim(s);
        assert NoNewline(RemoveNewlines(t)) && Trimmed(RemoveNewlines(t)) by {
          RemoveNewlinesCleans(t);
          RemoveNewlinesKeepsEnds(t);
        }
        Some(RemoveNewlines(t))
      else None
  }

  /** Text between blank padding comes out with the padding gone and every
      character other than a newline kept, in order. */
  lemma StringToStringOfPadded(w1: string, t: string, w2: string)
    requires AllWhitespace(w1) && AllWhitespace(w2)
    requires t != [] && Trimmed(t)
    ensures StringToString(Some(w1 + t + w2)) == Some(RemoveNewlines(t))
  {
    TrimOfPadded(w1, t, w2);
    assert 0 < |w1 + t + w2|;
  }

  /** Trimming undoes padding: a core with no whitespace or newline at
      either end, padded on both sides with whitespace and newlines, trims
      back to the core. */
  lemma TrimOfPadded(w1: string, t: string, w2: string)
    requires AllWhitespace(w1) && AllWhitespace(w2) && Trimmed(t)
    ensures Trim(w1 + t + w2) == t
  {
    var s := w1 + t + w2;
    if t == [] {
      assert AllWhitespace(s) by {
        assert s == w1 + w2;
      }
    } else {
      assert TrimLeading(s) == t + w2 by {
        assert s == w1 + (t + w2) && (t + w2)[0] == t[0];
        TrimLeadingSkips(w1, t + w2);
      }
      TrimTrailingSkips(t, w2);
    }
  }

  /** A non-empty input made only of whitespace and newlines becomes the
      empty string, not nil. */
  lemma StringToStringOfBlank(s: string)
    requires s != [] && AllWhitespace(s)
    ensures StringToString(Some(s)) == Some([])
  {
  }

  /** An input that is already clean comes back unchanged. */
  lemma StringToStringKeepsClean(s: string)
    requires s != [] && Trimmed(s) && NoNewline(s)
    ensures StringToString(Some(s)) == Some(s)
  {
    assert Trim(s) == s;
    RemoveNewlinesCleans(s);
  }

  /** Converting a converted value again changes nothing, except that a
      blank result (the empty string) turns into nil. */
  lemma StringToStringIdempotent(str: Option<string>)
    ensures StringToString(str) != Some([]) ==> StringToString(StringToString(str)) == StringToString(str)
    ensures StringToString(str) == Some([]) ==> StringToString(StringToString(str)).None?
  {
    var r := StringToString(str);
    if r.Some? && r.value != [] {
      StringToStringKeepsClean(r.value);
    }
  }

  /** Embedded newlines go; spaces between words stay. */
  lemma StringToStringJoinsLines()
    ensures StringToString(Some("foo\n bar")) == Some("foo bar")
  {
    TwoLinesAreTrimmed();
    TwoLinesJoin();
  }

  lemma TwoLinesAreTrimmed()
    ensures Trim("foo\n bar") == "foo\n bar"
  {
    var t := "foo\n bar";
    assert t[0] == 'f' && t[|t| - 1] == 'r';
    assert Trimmed(t);
  }

  lemma TwoLinesJoin()
    ensures RemoveNewlines("foo\n bar") == "foo bar"
  {
    var a, b := "foo", " bar";
    assert "foo\n bar" == a + ("\n" + b);
    RemoveNewlinesDropsOne(a, '\n', b);
    assert a + b == "foo bar";
  }

  /** Surrounding spaces go. */
  lemma StringToStringTrimsEnds()
    ensures StringToString(Some(" foo bar  ")) == Some("foo bar")
    ensures StringToString(Some("foo bar")) == Some("foo bar")
  {
    PaddedIsTrimmed();
    FooBarIsClean();
    StringToStringKeepsClean("foo bar");
  }

  lemma FooBarIsClean()
    ensures NoNewline("foo bar") && Trimmed("foo bar")
  {
  }

  /** An empty input is nil; a blank one is the empty string. */
  lemma StringToStringEmptyAndBlank()
    ensures StringToString(Some("")) == None
    ensures StringToString(Some(" \n ")) == Some("")
  {
    StringToStringOfBlank(" \n ");
  }

  lemma PaddedIsTrimmed()
    ensures Trim(" foo bar  ") == "foo bar"
  {
    assert " foo bar  " == " " + ("foo bar" + "  ");
    TrimLeadingSkips(" ", "foo bar" + "  ");
    assert "foo bar" + "  " == ("foo bar" + "  ");
    TrimTrailingSkips("foo bar", "  ");
  }

  /** Trimming the front of blank text followed by text that starts with a
      visible character leaves exactly the latter. */
  lemma TrimLeadingSkips(w: string, t: string)
    requires AllWhitespace(w) && (t != [] ==> !IsWhitespaceOrNewline(t[0]))
    ensures TrimLeading(w + t) == t
  {
    var s, r := w + t, TrimLeading(w + t);
    var n := |s| - |r|;
    assert forall i :: 0 <= i < |w| ==> s[i] == w[i];
    assert t != [] ==> s[|w|] == t[0];
    assert r != [] ==> r[0] == s[n];
    assert n == |w|;
    assert s[|w|..] == t;
  }

  /** The mirror image of TrimLeadingSkips at the back. */
  lemma TrimTrailingSkips(t: string, w: string)
    requires AllWhitespace(w) && (t != [] ==> !IsWhitespaceOrNewline(t[|t| - 1]))
    ensures TrimTrailing(t + w) == t
  {
    var s, r := t + w, TrimTrailing(t + w);
    assert forall i :: |t| <= i < |s| ==> s[i] == w[i - |t|];
    assert t != [] ==> s[|t| - 1] == t[|t| - 1];
    assert r != [] ==> r[|r| - 1] == s[|r| - 1];
    assert |r| == |t|;
    assert s[..|t|] == t;
  }

  /** Removing one newline between two newline-free strings joins them. */
  lemma RemoveNewlinesDropsOne(a: string, c: char, b: string)
    requires NoNewline(a) && IsNewline(c) && NoNewline(b)
    ensures RemoveNewlines(a + ([c] + b)) == a + b
  {
    RemoveNewlinesAppend(a, [c] + b);
    RemoveNewlinesAppend([c], b);
    RemoveNewlinesOfChar(c);
    RemoveNewlinesCleans(a);
    RemoveNewlinesCleans(b);
  }

  // ---------------------------------------------------------------------------
  // Booleans

  /** Lower-case mapping of one character (ASCII letters only). */
  function LowerChar(c: char): char {
    if 'A' <= c <= 'Z' then (c as int + 32) as char else c
  }

  /** `lowercased()`, restricted to ASCII letters. */
  function Lowercased(s: string): (r: string)
    ensures |r| == |s| && forall i :: 0 <= i < |s| ==> r[i] == LowerChar(s[i])
  {
    seq(|s|, i requires 0 <= i < |s| => LowerChar(s[i]))
  }

  /** `stringToBool`: nil gives false; otherwise false exactly for the
      lower-cased spellings "n", "0" and "no", and true for everything else,
      the empty string included. */
  function StringToBool(str: Option<string>): (r: bool)
    ensures str.None? ==> !r
    ensures str == Some([]) ==> r
  {
    match str
    case None => false
    case Some(input) =>
      var lower := Lowercased(input);
      !(lower == "n" || lower == "0" || lower == "no")
  }

  /** The raw inputs that read as false are exactly the case variants of
      "n", "0" and "no". */
  lemma StringToBoolFalseIff(s: string)
    ensures !StringToBool(Some(s)) <==> s in {"n", "N", "0", "no", "nO", "No", "NO"}
  {
    var lower := Lowercased(s);
    if lower == "n" || lower == "0" {
      assert |s| == 1 && s == [s[0]];
      assert LowerChar(s[0]) == lower[0];
    } else if lower == "no" {
      assert |s| == 2 && s == [s[0], s[1]];
      assert LowerChar(s[0]) == 'n' && LowerChar(s[1]) == 'o';
    } else {
      assert Lowercased("n") == "n" && Lowercased("N") == "n" && Lowercased("0") == "0";
      assert Lowercased("no") == "no" && Lowercased("nO") == "no";
      assert Lowercased("No") == "no" && Lowercased("NO") == "no";
    }
  }

  /** The default for a missing value is false; an empty value reads as true. */
  lemma StringToBoolExamples()
    ensures !StringToBool(None)
    ensures !StringToBool(Some("N")) && !StringToBool(Some("no")) && !StringToBool(Some("0"))
    ensures StringToBool(Some("")) && StringToBool(Some("ahe")) && StringToBool(Some("yes"))
  {
    StringToBoolFalseIff("N");
    StringToBoolFalseIff("no");
    StringToBoolFalseIff("0");
    StringToBoolFalseIff("ahe");
    StringToBoolFalseIff("yes");
  }

  // ---------------------------------------------------------------------------
  // 16-bit integers

  const Int16Min: int := -32768
  const Int16Max: int := 32767

  predicate InInt16(n: int) {
    Int16Min <= n <= Int16Max
  }

  predicate IsDigit(c: char) {
    '0' <= c <= '9'
  }

  predicate AllDigits(s: string) {
    forall i :: 0 <= i < |s| ==> IsDigit(s[i])
  }

  function DigitValue(c: char): nat
    requires IsDigit(c)
  {
    c as int - '0' as int
  }

  /** The value of a run of decimal digits, most significant first. */
  function DigitsValue(s: string): nat
    requires AllDigits(s)
  {
    if s == [] then 0 else DigitsValue(s[..|s| - 1]) * 10 + DigitValue(s[|s| - 1])
  }

  /** The part of a literal after an optional leading '+' or '-'. */
  function Magnitude(s: string): string {
    if s != [] && (s[0] == '+' || s[0] == '-') then s[1..] else s
  }

  /** The literals Swift's `Int16(_: String)` reads in radix 10: an optional
      sign followed by at least one ASCII digit, and nothing else. */
  predicate IsDecimalLiteral(s: string) {
    Magnitude(s) != [] && AllDigits(Magnitude(s))
  }

  /** The mathematical value of a decimal literal. */
  function LiteralValue(s: string): int
    requires IsDecimalLiteral(s)
  {
    var m: int := DigitsValue(Magnitude(s));
    if s[0] == '-' then -m else m
  }

  /** `Int16(_: String)`: the literal's value when it is a literal and fits in
      16 bits, otherwise nil.  The library accumulates digit by digit and
      fails on the first overflow; since the running magnitude never
      decreases, that happens exactly when the final value is out of range. */
  function ParseInt16(s: string): (r: Option<int>)
    ensures r.Some? <==> IsDecimalLiteral(s) && InInt16(LiteralValue(s))
    ensures r.Some? ==> InInt16(r.value) && r.value == LiteralValue(s)
  {
    if IsDecimalLiteral(s) && InInt16(LiteralValue(s)) then Some(LiteralValue(s)) else None
  }

  /** `stringToInt`: the value of a 16-bit decimal literal, and 0 for nil,
      for text that is not a literal and for a literal out of range. */
  function StringToInt(str: Option<string>): (r: int)
    ensures InInt16(r)
    ensures r != 0 ==> str.Some? && IsDecimalLiteral(str.value) && LiteralValue(str.value) == r
    ensures str.Some? && IsDecimalLiteral(str.value) && InInt16(LiteralValue(str.value))
            ==> r == LiteralValue(str.value)
  {
    match str
    case None => 0
    case Some(input) =>
      match ParseInt16(input)
      case None => 0
      case Some(n) => n
  }

  function DigitChar(d: nat): (c: char)
    requires d < 10
    ensures IsDigit(c) && DigitValue(c) == d
  {
    ('0' as int + d) as char
  }

  /** The shortest decimal digits of a natural number. */
  function NatDigits(n: nat): (r: string)
    ensures r != [] && AllDigits(r)
    ensures |r| > 1 ==> r[0] != '0'
  {
    if n < 10 then [DigitChar(n)] else NatDigits(n / 10) + [DigitChar(n % 10)]
  }

  /** Swift's rendering of an integer in string interpolation: '-' for a
      negative number, then the digits without leading zeros. */
  function Decimal(n: int): (r: string)
    ensures r != []
    ensures n >= 0 ==> AllDigits(r)
  {
    if n < 0 then "-" + NatDigits(-n) else NatDigits(n)
  }

  lemma {:induction false} DigitsValueOfNatDigits(n: nat)
    ensures DigitsValue(NatDigits(n)) == n
  {
    if n >= 10 {
      var prefix := NatDigits(n / 10);
      var r := prefix + [DigitChar(n % 10)];
      assert r[..|r| - 1] == prefix;
      DigitsValueOfNatDigits(n / 10);
    }
  }

  /** Rendering an integer and reading it back gives the integer. */
  lemma DecimalRoundTrip(n: int)
    ensures IsDecimalLiteral(Decimal(n)) && LiteralValue(Decimal(n)) == n
  {
    var m: nat := if n < 0 then -n else n;
    var d := NatDigits(m);
    DigitsValueOfNatDigits(m);
    if n < 0 {
      assert Decimal(n) == "-" + d;
      assert ("-" + d)[0] == '-' && ("-" + d)[1..] == d;
    } else {
      assert Decimal(n) == d && Magnitude(d) == d;
    }
  }

  /** Distinct integers are rendered differently. */
  lemma DecimalInjective(a: int, b: int)
    requires Decimal(a) == Decimal(b)
    ensures a == b
  {
    DecimalRoundTrip(a);
    DecimalRoundTrip(b);
  }

  /** Every 16-bit value survives rendering followed by `stringToInt`. */
  lemma StringToIntRoundTrip(n: int)
    requires InInt16(n)
    ensures StringToInt(Some(Decimal(n))) == n
  {
    DecimalRoundTrip(n);
  }

  /** A literal outside the 16-bit range reads as 0. */
  lemma StringToIntOutOfRange(n: int)
    requires !InInt16(n)
    ensures StringToInt(Some(Decimal(n))) == 0
  {
    DecimalRoundTrip(n);
  }

  lemma StringToIntExamples()
    ensures StringToInt(None) == 0
    ensures StringToInt(Some("")) == 0
    ensures StringToInt(Some("foo")) == 0
    ensures StringToInt(Some("828")) == 828
    ensures StringToInt(Some("32768")) == 0
    ensures StringToInt(Some("-32768")) == -32768
  {
    assert StringToInt(Some("foo")) == 0 by {
      assert !IsDigit('f');
    }
    assert StringToInt(Some("828")) == 828 by {
      assert Decimal(828) == "828";
      StringToIntRoundTrip(828);
    }
    assert StringToInt(Some("32768")) == 0 by {
      assert Decimal(32768) == "32768";
      StringToIntOutOfRange(32768);
    }
    assert StringToInt(Some("-32768")) == -32768 by {
      assert Decimal(-32768) == "-32768";
      StringToIntRoundTrip(-32768);
    }
  }

  // ---------------------------------------------------------------------------
  // Floating point

  /** A value of an IEEE 754 binary type as the library parser returns it. */
  datatype Ieee = NaN | Infinite(negative: bool) | Finite(value: real)

  /** `stringToFloat` and `stringToDouble`, over the library's parser
      (`Float(_: String)` or `Double(_: String)`), which is a parameter: nil,
      text the parser rejects and NaN all give 0.0; any other parsed value is
      returned as it is. */
  function StringToFloatingPoint(parse: string -> Option<Ieee>, str: Option<string>): (r: Ieee)
    ensures !r.NaN?
    ensures r != Finite(0.0) ==> str.Some? && parse(str.value) == Some(r)
    ensures str.None? ==> r == Finite(0.0)
    ensures str.Some? && parse(str.value).Some? && !parse(str.value).value.NaN?
            ==> r == parse(str.value).value
  {
    match str
    case None => Finite(0.0)
    case Some(input) =>
      match parse(input)
      case Some(v) => if v.NaN? then Finite(0.0) else v
      case None => Finite(0.0)
  }
}
