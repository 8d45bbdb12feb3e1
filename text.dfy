/**
 * Character-level helpers for the string handling the source relies on:
 * JavaScript's `trim`/`toLowerCase` on node labels, and Java's `trim`,
 * `toUpperCase`, `equalsIgnoreCase`, `startsWith`, `endsWith`, `indexOf`, `split`,
 * `replaceAll("[^0-9]", "")` and `Integer.parseInt` in the netlist parsers. Case mapping is modelled
 * on ASCII letters only.
 */
module Text {

  import opened Wrappers

  /**
   * Whitespace as JavaScript's `String.prototype.trim` sees it: the ECMAScript WhiteSpace
   * characters (tab, vertical tab, form feed, the byte order mark and every space separator
   * of Unicode category Zs) and the LineTerminator characters (LF, CR, U+2028, U+2029).
   */
  predicate IsJsSpace(c: char) {
    c == '\t' || c == '\n' || c == '\U{000B}' || c == '\U{000C}' || c == '\r' || c == '\U{FEFF}'
    || c == '\U{2028}' || c == '\U{2029}'
    || c == ' ' || c == '\U{00A0}' || c == '\U{1680}' || '\U{2000}' <= c <= '\U{200A}'
    || c == '\U{202F}' || c == '\U{205F}' || c == '\U{3000}'
  }

  /** Java's `String.trim` removes every leading and trailing character whose code is at most U+0020. */
  predicate IsJavaSpace(c: char) {
    c <= ' '
  }

  function TrimLeftBy(s: string, jsSpace: bool): (r: string)
    ensures |r| <= |s|
    ensures r == [] || !(if jsSpace then IsJsSpace(r[0]) else IsJavaSpace(r[0]))
  {
    if s != [] && (if jsSpace then IsJsSpace(s[0]) else IsJavaSpace(s[0])) then TrimLeftBy(s[1..], jsSpace) else s
  }

  function TrimRightBy(s: string, jsSpace: bool): (r: string)
    ensures |r| <= |s| && (r != [] ==> r[0] == s[0])
    ensures r == [] || !(if jsSpace then IsJsSpace(r[|r| - 1]) else IsJavaSpace(r[|r| - 1]))
  {
    if s != [] && (if jsSpace then IsJsSpace(s[|s| - 1]) else IsJavaSpace(s[|s| - 1]))
    then TrimRightBy(s[..|s| - 1], jsSpace)
    else s
  }

  /** JavaScript `trim()`. */
  function JsTrim(s: string): string {
    TrimRightBy(TrimLeftBy(s, true), true)
  }

  /** Java `String.trim()`. */
  function Trim(s: string): (r: string)
    ensures |r| <= |s|
    ensures r == [] || (!IsJavaSpace(r[0]) && !IsJavaSpace(r[|r| - 1]))
  {
    TrimRightBy(TrimLeftBy(s, false), false)
  }

  function LowerChar(c: char): char {
    if 'A' <= c <= 'Z' then (c as int - 'A' as int + 'a' as int) as char else c
  }

  function UpperChar(c: char): char {
    if 'a' <= c <= 'z' then (c as int - 'a' as int + 'A' as int) as char else c
  }

  function ToLower(s: string): (r: string)
    ensures |r| == |s| && forall i :: 0 <= i < |s| ==> r[i] == LowerChar(s[i])
  {
    seq(|s|, i requires 0 <= i < |s| => LowerChar(s[i]))
  }

  function ToUpper(s: string): (r: string)
    ensures |r| == |s| && forall i :: 0 <= i < |s| ==> r[i] == UpperChar(s[i])
  {
    seq(|s|, i requires 0 <= i < |s| => UpperChar(s[i]))
  }

  /** Java `equalsIgnoreCase` on ASCII: equal lengths and equal characters after case folding. */
  predicate EqualsIgnoreCase(a: string, b: string) {
    ToUpper(a) == ToUpper(b)
  }

  predicate StartsWith(s: string, prefix: string) {
    |prefix| <= |s| && s[..|prefix|] == prefix
  }

  predicate EndsWith(s: string, suffix: string) {
    |suffix| <= |s| && s[|s| - |suffix|..] == suffix
  }

  /** Java `indexOf(c)`: the first position holding `c`, or -1. */
  function IndexOf(s: string, c: char): (r: int)
    ensures -1 <= r < |s|
    ensures r == -1 <==> c !in s
    ensures r >= 0 ==> s[r] == c && c !in s[..r]
  {
    if s == [] then -1
    else if s[0] == c then 0
    else var k := IndexOf(s[1..], c); if k == -1 then -1 else k + 1
  }

  /** The first position holding one of `seps`, or -1. */
  function FirstOf(s: string, seps: set<char>): (r: int)
    ensures -1 <= r < |s|
    ensures r == -1 <==> forall i :: 0 <= i < |s| ==> s[i] !in seps
    ensures r >= 0 ==> s[r] in seps && forall i :: 0 <= i < r ==> s[i] !in seps
  {
    if s == [] then -1
    else if s[0] in seps then 0
    else var k := FirstOf(s[1..], seps); if k == -1 then -1 else k + 1
  }

  /**
   * Java `split` on a character class: without any separator the whole string is the
   * one piece; otherwise the pieces between separators, with every trailing empty
   * piece removed (so a string of separators splits into no pieces at all).
   */
  function Split(s: string, seps: set<char>): (r: seq<string>)
  {
    if FirstOf(s, seps) == -1 then [s] else DropTrailingEmpty(SplitAll(s, seps))
  }

  /** Every piece between separators, empty ones included; there is one more piece than separators. */
  function SplitAll(s: string, seps: set<char>): (r: seq<string>)
    ensures |r| >= 1
    decreases |s|
  {
    var k := FirstOf(s, seps);
    if k == -1 then [s] else [s[..k]] + SplitAll(s[k + 1..], seps)
  }

  function DropTrailingEmpty(parts: seq<string>): (r: seq<string>)
    ensures |r| <= |parts| && r == parts[..|r|]
    ensures r == [] || r[|r| - 1] != []
  {
    if parts != [] && parts[|parts| - 1] == [] then DropTrailingEmpty(parts[..|parts| - 1]) else parts
  }

  predicate IsDigit(c: char) {
    '0' as int <= c as int <= '9' as int
  }

  /** Java `replaceAll("[^0-9]", "")`: the digits of `s`, in order. */
  function DigitsOf(s: string): (r: string)
    ensures forall i :: 0 <= i < |r| ==> IsDigit(r[i])
    ensures |r| <= |s|
  {
    if s == [] then [] else (if IsDigit(s[0]) then [s[0]] else []) + DigitsOf(s[1..])
  }

  /**
   * The first code point of each run of ten decimal digits (Unicode category Nd) in the
   * Basic Multilingual Plane, as of Unicode 15. Java reads a `String` one UTF-16 unit at a
   * time, so digits outside that plane are never digits to `Integer.parseInt`.
   */
  const DigitZeros: seq<int> := [
    0x0030, 0x0660, 0x06F0, 0x07C0, 0x0966, 0x09E6, 0x0A66, 0x0AE6, 0x0B66, 0x0BE6,
    0x0C66, 0x0CE6, 0x0D66, 0x0DE6, 0x0E50, 0x0ED0, 0x0F20, 0x1040, 0x1090, 0x17E0,
    0x1810, 0x1946, 0x19D0, 0x1A80, 0x1A90, 0x1B50, 0x1BB0, 0x1C40, 0x1C50, 0xA620,
    0xA8D0, 0xA900, 0xA9D0, 0xA9F0, 0xAA50, 0xABF0, 0xFF10]

  /** The value of code point `c` in the first run of `zeros` holding it, or -1. */
  function DigitIn(c: int, zeros: seq<int>): (r: int)
    ensures -1 <= r <= 9
  {
    if zeros == [] then -1
    else if zeros[0] <= c < zeros[0] + 10 then c - zeros[0]
    else DigitIn(c, zeros[1..])
  }

  /**
   * Java `Character.digit(c, 10)`: the decimal value of a Unicode decimal digit, or -1.
   * The Basic Latin run comes first, so only other characters from U+0660 on are looked up.
   */
  function DigitValue(c: char): (r: int)
    ensures -1 <= r <= 9
    ensures IsDigit(c) ==> r == c as int - '0' as int
    ensures c < '0' ==> r == -1
  {
    if IsDigit(c) then c as int - '0' as int
    else if c < '\U{0660}' then -1
    else DigitIn(c as int, DigitZeros[1..])
  }

  /** The number a run of decimal digits denotes, most significant first. */
  function DigitsValue(s: string): nat
    requires AllDigits(s)
  {
    if s == [] then 0
    else
      assert DigitValue(s[|s| - 1]) >= 0;
      10 * DigitsValue(s[..|s| - 1]) + DigitValue(s[|s| - 1])
  }

  /** Every character is a decimal digit to Java (`Character.digit(c, 10) >= 0`). */
  predicate AllDigits(s: string) {
    forall i :: 0 <= i < |s| ==> DigitValue(s[i]) >= 0
  }

  /** The number a non-empty run of decimal digits denotes; None when some character is no digit. */
  function Unsigned(s: string): (r: Option<nat>)
    ensures r.Some? ==> s != []
  {
    if s == [] then None
    else
      var d := DigitValue(s[|s| - 1]);
      if d < 0 then None
      else if |s| == 1 then Some(d)
      else
        match Unsigned(s[..|s| - 1])
        case None => None
        case Some(v) => Some(10 * v + d)
  }

  /** `Unsigned` reads exactly the non-empty runs of digits, and reads them as `DigitsValue`. */
  lemma {:induction false} UnsignedMeaning(s: string)
    ensures Unsigned(s).Some? <==> s != [] && AllDigits(s)
    ensures Unsigned(s).Some? ==> Unsigned(s).value == DigitsValue(s)
  {
    if |s| > 1 {
      var init := s[..|s| - 1];
      UnsignedMeaning(init);
      if AllDigits(s) {
        assert forall i :: 0 <= i < |init| ==> init[i] == s[i];
      } else if AllDigits(init) {
        assert DigitValue(s[|s| - 1]) < 0;
      }
    }
  }

  /**
   * `Integer.parseInt`: an optional '+' or '-' and at least one decimal digit of any script; None
   * (the source's NumberFormatException) for anything else. 32-bit overflow is not modelled.
   */
  function ParseInt(s: string): (r: Option<int>)
    ensures r.Some? ==> s != [] && (r.value < 0 ==> s[0] == '-')
  {
    if s != [] && s[0] in {'+', '-'} then
      match Unsigned(s[1..])
      case None => None
      case Some(v) =>
        var n: int := v;
        Some(if s[0] == '-' then -n else n)
    else
      match Unsigned(s)
      case None => None
      case Some(v) => Some(v)
  }

  /** `Integer.parseInt` succeeds exactly on an optional sign followed by at least one decimal digit. */
  lemma ParseIntMeaning(s: string)
    ensures ParseInt(s).Some? <==> (s != [] && s[0] in {'+', '-'} && s[1..] != [] && AllDigits(s[1..])) || (s != [] && AllDigits(s))
    ensures ParseInt(s).Some? && s[0] != '-' ==> ParseInt(s).value == if s[0] == '+' then DigitsValue(s[1..]) else DigitsValue(s)
    ensures ParseInt(s).Some? && s[0] == '-' ==> AllDigits(s[1..]) && ParseInt(s).value == 0 - (DigitsValue(s[1..]) as int)
  {
    if s != [] && s[0] in {'+', '-'} {
      assert DigitValue(s[0]) == -1;
      UnsignedMeaning(s[1..]);
    } else {
      UnsignedMeaning(s);
    }
  }

  /** Digits of another script read as Java reads them: Arabic-Indic digits, with or without a sign. */
  lemma ParseIntOfOtherScripts()
    ensures ParseInt("\U{0661}\U{0662}") == Some(12)
    ensures ParseInt("-\U{0661}\U{0660}") == Some(-10)
    ensures ParseInt("+\U{0667}") == Some(7)
    ensures ParseInt("\U{0661}x") == None
  {
    assert DigitValue('\U{0661}') == 1 && DigitValue('\U{0662}') == 2;
    assert DigitValue('\U{0660}') == 0 && DigitValue('\U{0667}') == 7;
  }

  /** The decimal digits of `n`, without leading zeros. */
  function Decimal(n: nat): (r: string)
    ensures r != [] && forall i :: 0 <= i < |r| ==> IsDigit(r[i])
  {
    if n < 10 then [('0' as int + n) as char]
    else Decimal(n / 10) + [('0' as int + n % 10) as char]
  }

  /** Reading back the decimal digits of `n` gives `n`. */
  lemma {:induction false} DecimalValue(n: nat)
    ensures DigitsValue(Decimal(n)) == n
  {
    var r := Decimal(n);
    if n >= 10 {
      DecimalValue(n / 10);
      assert r[..|r| - 1] == Decimal(n / 10);
    }
  }

  /** `Integer.parseInt` reads back what decimal printing of a non-negative number wrote. */
  lemma ParseIntOfDecimal(n: nat)
    ensures ParseInt(Decimal(n)) == Some(n)
  {
    DecimalValue(n);
    ParseIntMeaning(Decimal(n));
  }

  /** Text with no space-like character at either end is its own `trim()`. */
  lemma TrimOfUnpadded(s: string)
    requires s == [] || (!IsJavaSpace(s[0]) && !IsJavaSpace(s[|s| - 1]))
    ensures Trim(s) == s
  {
  }

  /** One space on either side of unpadded text is trimmed away. */
  lemma TrimOfPadded(s: string)
    requires s != [] && !IsJavaSpace(s[0]) && !IsJavaSpace(s[|s| - 1])
    ensures Trim([' '] + s) == s && Trim(s + [' ']) == s
  {
    assert ([' '] + s)[1..] == s;
    TrimOfUnpadded(s);
    var t := s + [' '];
    assert TrimLeftBy(t, false) == t;
    assert t[..|t| - 1] == s;
    assert TrimRightBy(t, false) == TrimRightBy(s, false);
  }

  /** No separator: the search fails. */
  lemma FirstOfNone(s: string, seps: set<char>)
    requires forall i :: 0 <= i < |s| ==> s[i] !in seps
    ensures FirstOf(s, seps) == -1 && SplitAll(s, seps) == [s]
  {
  }

  /** The first separator of `a + [c] + b`, with none in `a`, is `c`. */
  lemma {:induction false} FirstOfAfter(a: string, c: char, b: string, seps: set<char>)
    requires c in seps && forall i :: 0 <= i < |a| ==> a[i] !in seps
    ensures FirstOf(a + [c] + b, seps) == |a|
  {
    var s := a + [c] + b;
    if a != [] {
      assert s[1..] == a[1..] + [c] + b;
      FirstOfAfter(a[1..], c, b, seps);
    }
  }

  /** A separator found in `a` is found at the same place in any extension of `a`. */
  lemma {:induction false} FirstOfExtends(a: string, b: string, seps: set<char>)
    requires FirstOf(a, seps) >= 0
    ensures FirstOf(a + b, seps) == FirstOf(a, seps)
  {
    if a[0] !in seps {
      assert (a + b)[1..] == a[1..] + b;
      FirstOfExtends(a[1..], b, seps);
    }
  }

  /** Splitting at a separator splits each side on its own. */
  lemma {:induction false} SplitAllAppend(a: string, c: char, b: string, seps: set<char>)
    requires c in seps
    ensures SplitAll(a + [c] + b, seps) == SplitAll(a, seps) + SplitAll(b, seps)
    decreases |a|
  {
    var k := FirstOf(a, seps);
    if k == -1 {
      SplitAllAtFirst(a, c, b, seps);
    } else {
      SplitAllAppend(a[k + 1..], c, b, seps);
      SplitAllInFront(a, c, b, seps, k);
    }
  }

  /** With no separator in `a`, the first piece of `a + [c] + b` is `a`. */
  lemma SplitAllAtFirst(a: string, c: char, b: string, seps: set<char>)
    requires c in seps && FirstOf(a, seps) == -1
    ensures SplitAll(a + [c] + b, seps) == SplitAll(a, seps) + SplitAll(b, seps)
  {
    FirstOfAfter(a, c, b, seps);
    SidesOf(a, c, b);
    assert SplitAll(a, seps) == [a];
  }

  /** With a separator at `k` in `a`, the first piece of `a + [c] + b` is that of `a`, and the rest splits as before. */
  lemma SplitAllInFront(a: string, c: char, b: string, seps: set<char>, k: nat)
    requires c in seps && FirstOf(a, seps) == k && k < |a|
    requires SplitAll(a[k + 1..] + [c] + b, seps) == SplitAll(a[k + 1..], seps) + SplitAll(b, seps)
    ensures SplitAll(a + [c] + b, seps) == SplitAll(a, seps) + SplitAll(b, seps)
  {
    FirstOfExtends(a, [c] + b, seps);
    PiecesOf(a, c, b, k);
    var front, rest := SplitAll(a[k + 1..], seps), SplitAll(b, seps);
    assert SplitAll(a + [c] + b, seps) == [a[..k]] + (front + rest);
    assert SplitAll(a, seps) == [a[..k]] + front;
    ConcatAssoc([a[..k]], front, rest);
  }

  /** The two sides of `a + [c] + b`. */
  lemma SidesOf(a: string, c: char, b: string)
    ensures (a + [c] + b)[..|a|] == a && (a + [c] + b)[|a| + 1..] == b
  {
  }

  /** Cutting `a + [c] + b` at a position `k` inside `a`. */
  lemma PiecesOf(a: string, c: char, b: string, k: nat)
    requires k < |a|
    ensures a + [c] + b == a + ([c] + b)
    ensures (a + [c] + b)[..k] == a[..k] && (a + [c] + b)[k + 1..] == a[k + 1..] + [c] + b
  {
  }

  lemma ConcatAssoc<T>(x: seq<T>, y: seq<T>, z: seq<T>)
    ensures x + (y + z) == x + y + z
  {
  }

  /** `indexOf(c)` on `a + [c] + b` with no `c` in `a` is the length of `a`. */
  lemma {:induction false} IndexOfAfter(a: string, c: char, b: string)
    requires c !in a
    ensures IndexOf(a + [c] + b, c) == |a|
  {
    if a != [] {
      assert (a + [c] + b)[1..] == a[1..] + [c] + b;
      IndexOfAfter(a[1..], c, b);
    }
  }

  /** A separator at position `k` is found, at `k` or before. */
  lemma FirstOfFinds(s: string, k: nat, seps: set<char>)
    requires k < |s| && s[k] in seps
    ensures 0 <= FirstOf(s, seps) <= k
  {
  }

  /** Text that starts with `p` still does after more is appended. */
  lemma StartsWithExtends(a: string, b: string, p: string)
    requires StartsWith(a, p)
    ensures StartsWith(a + b, p)
  {
    assert (a + b)[..|p|] == a[..|p|];
  }

  /** Regroupings of `a`, a character, `b` and a closing character. */
  lemma Bracketed(a: string, c: char, b: string, d: char)
    ensures a + [c] + b + [d] == a + [c] + (b + [d])
    ensures a + [c] + b + [d] == (a + [c] + b) + [d] + []
    ensures (a + [c] + b + [d])[|a| + 1..|a| + 1 + |b|] == b
  {
  }

  /** `a c b c e`, read as `a`, the first `c`, and the rest. */
  lemma TwiceSeparated(a: string, c: char, b: string, e: string)
    ensures a + [c] + b + [c] + e == a + [c] + (b + [c] + e)
  {
  }

  /** `a`, a character with a space on each side, then `b`, read as the two padded sides around the character. */
  lemma Spaced(a: string, c: char, b: string)
    ensures a + [' ', c, ' '] + b == (a + [' ']) + [c] + ([' '] + b)
  {
  }

  /** Text with exactly one separator, and something after it, splits into the two sides. */
  lemma SplitAtOne(a: string, c: char, b: string, seps: set<char>)
    requires c in seps && b != []
    requires forall i :: 0 <= i < |a| ==> a[i] !in seps
    requires forall i :: 0 <= i < |b| ==> b[i] !in seps
    ensures SplitAll(a + [c] + b, seps) == [a, b] && Split(a + [c] + b, seps) == [a, b]
  {
    FirstOfAfter(a, c, b, seps);
    SplitAllAppend(a, c, b, seps);
    FirstOfNone(a, seps);
    FirstOfNone(b, seps);
  }

  /** Text with exactly two separators, and something after the second, splits into three pieces. */
  lemma SplitAtTwo(a: string, c: char, b: string, e: string, seps: set<char>)
    requires c in seps && e != []
    requires forall i :: 0 <= i < |a| ==> a[i] !in seps
    requires forall i :: 0 <= i < |b| ==> b[i] !in seps
    requires forall i :: 0 <= i < |e| ==> e[i] !in seps
    ensures Split(a + [c] + b + [c] + e, seps) == [a, b, e]
  {
    TwiceSeparated(a, c, b, e);
    SplitAtOne(b, c, e, seps);
    SplitAllAppend(a, c, b + [c] + e, seps);
    FirstOfNone(a, seps);
    FirstOfAfter(a, c, b + [c] + e, seps);
  }

  /** A separator at the end of text that already has one is dropped by `split`. */
  lemma SplitDropsTrailingSeparator(s: string, c: char, seps: set<char>)
    requires c in seps && FirstOf(s, seps) >= 0
    ensures Split(s + [c], seps) == Split(s, seps)
  {
    FirstOfExtends(s, [c], seps);
    AppendNothing(s + [c]);
    SplitAllAppend(s, c, [], seps);
    var parts := SplitAll(s, seps);
    assert SplitAll(s + [c], seps) == parts + [[]];
    FrontOfSnoc(parts, []);
  }

  lemma AppendNothing<T>(xs: seq<T>)
    ensures xs + [] == xs
  {
  }

  lemma FrontOfSnoc<T>(xs: seq<T>, x: T)
    ensures (xs + [x])[..|xs|] == xs
  {
  }

  /** Splitting at a last separator: the pieces of the front, then the separator-free rest. */
  lemma SplitAllAtLast(a: string, c: char, b: string, seps: set<char>)
    requires c in seps && forall i :: 0 <= i < |b| ==> b[i] !in seps
    ensures SplitAll(a + [c] + b, seps) == SplitAll(a, seps) + [b]
    ensures 0 <= FirstOf(a + [c] + b, seps) <= |a|
  {
    SplitAllAppend(a, c, b, seps);
    FirstOfNone(b, seps);
    FirstOfFinds(a + [c] + b, |a|, seps);
  }
}
