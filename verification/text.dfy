/** The string operations the text parsers are built from, and their inverses. */
module Text {
  import opened Outcomes
  import opened Proto

  /** The Unicode White_Space property, which decides what trimming and word splitting treat as a gap. */
  predicate IsSpace(c: char) {
    || '\t' <= c <= '\r' || c == ' ' || c == '\U{85}' || c == '\U{A0}' || c == '\U{1680}'
    || '\U{2000}' <= c <= '\U{200A}' || c == '\U{2028}' || c == '\U{2029}' || c == '\U{202F}'
    || c == '\U{205F}' || c == '\U{3000}'
  }

  predicate IsWord(s: string) { s != "" && forall i | 0 <= i < |s| :: !IsSpace(s[i]) }

  /** The position of the first `c` in `s`, or the length of `s`. */
  function IndexOf(s: string, c: char): (i: nat)
    ensures i <= |s| && c !in s[..i]
    ensures i < |s| ==> s[i] == c
  {
    if s == "" || s[0] == c then 0 else
      var i := IndexOf(s[1..], c) + 1;
      assert s[..i] == [s[0]] + s[1..][..i - 1];
      i
  }

  lemma {:induction false} IndexOfAfter(a: string, c: char, b: string)
    requires c !in a
    ensures IndexOf(a + [c] + b, c) == |a|
  {
    if a != "" {
      assert (a + [c] + b)[1..] == a[1..] + [c] + b;
      IndexOfAfter(a[1..], c, b);
    }
  }

  lemma IndexOfAbsent(a: string, c: char)
    requires c !in a
    ensures IndexOf(a, c) == |a|
  {
  }

  function SplitOnce(s: string, c: char): Option<(string, string)> {
    var i := IndexOf(s, c);
    if i < |s| then Some((s[..i], s[i + 1..])) else None
  }

  lemma SplitOnceAt(a: string, c: char, b: string)
    requires c !in a
    ensures SplitOnce(a + [c] + b, c) == Some((a, b))
  {
    IndexOfAfter(a, c, b);
    var s := a + [c] + b;
    assert s[..|a|] == a && s[|a| + 1..] == b;
  }

  function TrimStart(s: string): string {
    if s != "" && IsSpace(s[0]) then TrimStart(s[1..]) else s
  }

  function TrimEnd(s: string): string {
    if s != "" && IsSpace(s[|s| - 1]) then TrimEnd(s[..|s| - 1]) else s
  }

  function Trim(s: string): string { TrimEnd(TrimStart(s)) }

  /**
   * The lines of a text.  The carriage return of a line ending is left in place: every line is
   * trimmed before it is looked at, and trimming removes it.
   */
  function Lines(s: string): seq<string>
    decreases |s|
  {
    if s == "" then [] else
      var i := IndexOf(s, '\n');
      if i == |s| then [s] else [s[..i]] + Lines(s[i + 1..])
  }

  lemma LinesOfFirst(a: string, b: string)
    requires '\n' !in a
    ensures Lines(a + "\n" + b) == [a] + Lines(b)
  {
    IndexOfAfter(a, '\n', b);
    var s := a + "\n" + b;
    assert s[..|a|] == a && s[|a| + 1..] == b;
  }

  /** A text ending each of the given lines with a line feed. */
  function Unlines(lines: seq<string>): string {
    if lines == [] then "" else lines[0] + "\n" + Unlines(lines[1..])
  }

  lemma {:induction false} LinesOfUnlines(lines: seq<string>)
    requires forall i | 0 <= i < |lines| :: '\n' !in lines[i]
    ensures Lines(Unlines(lines)) == lines
  {
    if lines != [] {
      LinesOfUnlines(lines[1..]);
      LinesOfFirst(lines[0], Unlines(lines[1..]));
    }
  }

  /** Length of the longest prefix without white space. */
  function WordLength(s: string): (n: nat)
    ensures n <= |s| && (s != "" && !IsSpace(s[0]) ==> n > 0)
  {
    if s == "" || IsSpace(s[0]) then 0 else 1 + WordLength(s[1..])
  }

  function Words(s: string): seq<string>
    decreases |s|
  {
    if s == "" then []
    else if IsSpace(s[0]) then Words(s[1..])
    else [s[..WordLength(s)]] + Words(s[WordLength(s)..])
  }

  function Blanks(n: nat): string { seq(n, _ => ' ') }

  /** The words, each with a blank before it and this many more. */
  function Spaced(gap: nat, words: seq<string>): string {
    if words == [] then "" else Blanks(gap + 1) + words[0] + Spaced(gap, words[1..])
  }

  lemma {:induction false} WordLengthAt(w: string, rest: string)
    requires forall i | 0 <= i < |w| :: !IsSpace(w[i])
    requires rest == "" || IsSpace(rest[0])
    ensures WordLength(w + rest) == |w|
    decreases |w|
  {
    if w == "" {
      assert w + rest == rest;
    } else {
      assert (w + rest)[1..] == w[1..] + rest;
      WordLengthAt(w[1..], rest);
    }
  }

  lemma {:induction false} WordsOfIndented(n: nat, s: string)
    ensures Words(Blanks(n) + s) == Words(s)
    decreases n
  {
    var t := Blanks(n) + s;
    if n > 0 {
      assert t[0] == ' ' && t[1..] == Blanks(n - 1) + s;
      WordsOfIndented(n - 1, s);
    } else {
      assert t == s;
    }
  }

  lemma WordsOfFirst(gap: nat, w: string, rest: string)
    requires IsWord(w) && (rest == "" || IsSpace(rest[0]))
    ensures Words(Blanks(gap + 1) + w + rest) == [w] + Words(rest)
  {
    var s := w + rest;
    WordLengthAt(w, rest);
    assert s[..|w|] == w && s[|w|..] == rest && s[0] == w[0];
    assert Blanks(gap + 1) + w + rest == Blanks(gap + 1) + s;
    WordsOfIndented(gap + 1, s);
  }

  lemma {:induction false} WordsOfSpaced(gap: nat, words: seq<string>)
    requires forall i | 0 <= i < |words| :: IsWord(words[i])
    ensures Words(Spaced(gap, words)) == words
  {
    if words != [] {
      WordsOfSpaced(gap, words[1..]);
      WordsOfFirst(gap, words[0], Spaced(gap, words[1..]));
      assert words == [words[0]] + words[1..];
    }
  }

  lemma {:induction false} SpacedHasNoNewline(gap: nat, words: seq<string>)
    requires forall i | 0 <= i < |words| :: IsWord(words[i])
    ensures '\n' !in Spaced(gap, words)
  {
    if words != [] {
      assert IsWord(words[0]);
      SpacedHasNoNewline(gap, words[1..]);
    }
  }

  lemma {:induction false} SpacedEndsInWord(gap: nat, words: seq<string>)
    requires words != [] && forall i | 0 <= i < |words| :: IsWord(words[i])
    ensures Spaced(gap, words) != ""
    ensures !IsSpace(Spaced(gap, words)[|Spaced(gap, words)| - 1])
  {
    if |words| == 1 {
      assert Spaced(gap, words[1..]) == "";
      assert Spaced(gap, words) == Blanks(gap + 1) + words[0];
    } else {
      SpacedEndsInWord(gap, words[1..]);
      assert Spaced(gap, words) == Blanks(gap + 1) + words[0] + Spaced(gap, words[1..]);
    }
  }

  /** Leading blanks go, everything up to the last visible character stays. */
  lemma {:induction false} TrimOfIndented(n: nat, s: string)
    requires s != "" && !IsSpace(s[0]) && !IsSpace(s[|s| - 1])
    ensures Trim(Blanks(n) + s) == s
    decreases n
  {
    var t := Blanks(n) + s;
    if n > 0 {
      assert t[0] == ' ' && t[1..] == Blanks(n - 1) + s;
      TrimOfIndented(n - 1, s);
    } else {
      assert t == s;
    }
  }

  // ---------------------------------------------------------------------------
  // Decimal numbers
  // ---------------------------------------------------------------------------

  predicate AllDigits(s: string) { s != "" && forall i | 0 <= i < |s| :: IsDigit(s[i]) }

  function DigitValue(c: char): (d: nat)
    requires IsDigit(c)
    ensures d < 10
  {
    c as int - '0' as int
  }

  function DigitsValue(s: string): nat
    requires forall i | 0 <= i < |s| :: IsDigit(s[i])
  {
    if s == "" then 0 else DigitsValue(s[..|s| - 1]) * 10 + DigitValue(s[|s| - 1])
  }

  /** `str::parse::<u32>`: an optional plus sign and digits, at most 2^32 - 1. */
  function ParseU32(s: string): Option<u32> {
    var digits := if "+" <= s then s[1..] else s;
    if AllDigits(digits) && DigitsValue(digits) < 0x1_0000_0000 then Some(DigitsValue(digits)) else None
  }

  /** `str::parse::<i32>`: an optional sign and digits, within 32 bits. */
  function ParseI32(s: string): Option<i32> {
    if "-" <= s then
      var digits := s[1..];
      if AllDigits(digits) && DigitsValue(digits) <= 0x8000_0000 then Some(0 - DigitsValue(digits)) else None
    else
      var digits := if "+" <= s then s[1..] else s;
      if AllDigits(digits) && DigitsValue(digits) < 0x8000_0000 then Some(DigitsValue(digits)) else None
  }

  /** These are the digits of the text, after a plus sign or no sign. */
  predicate IsUnsigned(s: string, digits: string) { AllDigits(digits) && (s == digits || s == "+" + digits) }

  predicate IsNegative(s: string, digits: string) { AllDigits(digits) && s == "-" + digits }

  lemma SignIsFirst(s: string, digits: string)
    ensures IsUnsigned(s, digits) ==> !("-" <= s) && digits == if "+" <= s then s[1..] else s
    ensures IsNegative(s, digits) ==> "-" <= s && s[1..] == digits
  {
    if IsUnsigned(s, digits) {
      assert IsDigit(digits[0]);
      assert s == "+" + digits ==> s[0] == '+' && s[1..] == digits;
    }
    if IsNegative(s, digits) {
      assert s[0] == '-' && s[1..] == digits;
    }
  }

  lemma SignIsRead(s: string)
    ensures var d := if "+" <= s then s[1..] else s; AllDigits(d) ==> IsUnsigned(s, d)
    ensures "-" <= s && AllDigits(s[1..]) ==> IsNegative(s, s[1..])
  {
    assert "+" <= s ==> s == "+" + s[1..];
    assert "-" <= s ==> s == "-" + s[1..];
  }

  /** Exactly the digits with or without a plus sign are read, if they are worth less than 2^32. */
  lemma ParseU32Iff(s: string, n: u32)
    ensures ParseU32(s) == Some(n) <==> exists d :: IsUnsigned(s, d) && DigitsValue(d) == n
  {
    SignIsRead(s);
    if d :| IsUnsigned(s, d) && DigitsValue(d) == n {
      SignIsFirst(s, d);
    }
  }

  /** And with a minus sign as well, if the number has 32 bits with its sign. */
  lemma ParseI32Iff(s: string, n: i32)
    ensures ParseI32(s) == Some(n) <==>
            exists d :: (IsUnsigned(s, d) && DigitsValue(d) == n) || (IsNegative(s, d) && DigitsValue(d) == 0 - n)
  {
    SignIsRead(s);
    if d :| (IsUnsigned(s, d) && DigitsValue(d) == n) || (IsNegative(s, d) && DigitsValue(d) == 0 - n) {
      SignIsFirst(s, d);
    }
  }

  function DigitChar(d: nat): (c: char)
    requires d < 10
    ensures IsDigit(c) && DigitValue(c) == d
  {
    "0123456789"[d]
  }

  function NatString(n: nat): (s: string)
    ensures AllDigits(s)
  {
    if n < 10 then [DigitChar(n)] else NatString(n / 10) + [DigitChar(n % 10)]
  }

  function IntString(i: int): (s: string)
    ensures s != ""
  {
    if i < 0 then "-" + NatString(-i) else NatString(i)
  }

  lemma {:induction false} NatStringValue(n: nat)
    ensures DigitsValue(NatString(n)) == n
  {
    if n < 10 {
      assert NatString(n)[..0] == "";
    } else {
      NatStringValue(n / 10);
      assert NatString(n)[..|NatString(n)| - 1] == NatString(n / 10);
    }
  }

  lemma ParseOfNatString(n: u32)
    ensures ParseU32(NatString(n)) == Some(n)
  {
    NatStringValue(n);
    assert IsDigit(NatString(n)[0]);
  }

  lemma ParseOfNonNegative(n: nat)
    requires n < 0x8000_0000
    ensures ParseI32(NatString(n)) == Some(n)
  {
    NatStringValue(n);
    var s := NatString(n);
    assert IsDigit(s[0]);
  }

  lemma ParseOfNegative(n: nat)
    requires 0 < n <= 0x8000_0000
    ensures ParseI32("-" + NatString(n)) == Some(0 - n)
  {
    NatStringValue(n);
    var s := "-" + NatString(n);
    assert s[1..] == NatString(n);
  }

  lemma IntStringSplits(n: nat)
    ensures IntString(n) == NatString(n)
    ensures n > 0 ==> IntString(0 - n) == "-" + NatString(n)
  {
  }

  lemma ParseOfIntString(i: i32)
    ensures ParseI32(IntString(i)) == Some(i)
  {
    var n: nat := if i < 0 then 0 - i else i;
    IntStringSplits(n);
    if i < 0 {
      ParseOfNegative(n);
    } else {
      ParseOfNonNegative(n);
    }
  }
}
