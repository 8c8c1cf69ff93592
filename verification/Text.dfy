/** The string operations of Python's `str` that the modelled code uses. */
module Text {

  predicate StartsWith(s: string, prefix: string) {
    prefix <= s
  }

  /** `part in s`. */
  predicate Contains(s: string, part: string) {
    exists i | 0 <= i <= |s| :: StartsWith(s[i..], part)
  }

  /** `s.replace(old, new)` for a non-empty `old`: leftmost first, never looking into what was inserted. */
  function Replace(s: string, old_: string, new_: string): string
    requires old_ != ""
    decreases |s|
  {
    if s == "" then ""
    else if StartsWith(s, old_) then new_ + Replace(s[|old_|..], old_, new_)
    else [s[0]] + Replace(s[1..], old_, new_)
  }

  /** The characters `str.isspace` accepts below U+0100; `str.split()` and `str.splitlines()` differ on the rest only
      by characters outside Latin-1. */
  predicate IsSpace(c: char) {
    c in " \t\n\r" || c == '\U{0B}' || c == '\U{0C}' || '\U{1C}' <= c <= '\U{1F}' || c == '\U{85}' || c == '\U{A0}'
  }

  /** The length of the longest prefix without whitespace. */
  function WordEnd(s: string): (n: nat)
    ensures n <= |s|
    ensures forall i | 0 <= i < n :: !IsSpace(s[i])
    ensures n < |s| ==> IsSpace(s[n])
  {
    if s == "" || IsSpace(s[0]) then 0 else 1 + WordEnd(s[1..])
  }

  /** `s.split()`. */
  function Split(s: string): seq<string>
    decreases |s|
  {
    if s == "" then []
    else if IsSpace(s[0]) then Split(s[1..])
    else [s[..WordEnd(s)]] + Split(s[WordEnd(s)..])
  }

  /** `" ".join(words)`. */
  function Join(words: seq<string>): string {
    if words == [] then "" else if |words| == 1 then words[0] else words[0] + " " + Join(words[1..])
  }

  /** The characters at which `str.splitlines` breaks. */
  predicate IsBreak(c: char) {
    c in "\n\r" || c == '\U{0B}' || c == '\U{0C}' || '\U{1C}' <= c <= '\U{1E}' || c == '\U{85}' || c == '\U{2028}' ||
    c == '\U{2029}'
  }

  /** The length of the longest prefix without a line break. */
  function LineEnd(s: string): (n: nat)
    ensures n <= |s| && (n < |s| ==> IsBreak(s[n]))
  {
    if s == "" || IsBreak(s[0]) then 0 else 1 + LineEnd(s[1..])
  }

  /** `s.splitlines()`: a break at the very end adds no empty line, and "\r\n" is one break. */
  function SplitLines(s: string): seq<string>
    decreases |s|
  {
    if s == "" then []
    else
      var n := LineEnd(s);
      if n == |s| then [s]
      else if s[n] == '\r' && n + 1 < |s| && s[n + 1] == '\n' then [s[..n]] + SplitLines(s[n + 2..])
      else [s[..n]] + SplitLines(s[n + 1..])
  }

  lemma {:induction false} LineEndIs(line: string, rest: string)
    requires (forall c | c in line :: !IsBreak(c)) && rest != "" && IsBreak(rest[0])
    ensures LineEnd(line + rest) == |line|
    decreases |line|
  {
    if line == "" {
      assert line + rest == rest;
    } else {
      assert (line + rest)[1..] == line[1..] + rest;
      LineEndIs(line[1..], rest);
    }
  }

  lemma SplitFirstLine(line: string, rest: string)
    requires forall c | c in line :: !IsBreak(c)
    ensures SplitLines(line + "\n" + rest) == [line] + SplitLines(rest)
  {
    var s := line + ("\n" + rest);
    assert line + "\n" + rest == s;
    LineEndIs(line, "\n" + rest);
    assert s[..|line|] == line && s[|line| + 1..] == rest && s[|line|] == '\n';
  }

  /** `tr -cd`, and FILTER of a dialplan: only the allowed characters are kept. */
  function KeepOnly(s: string, allowed: char -> bool): (r: string)
    ensures forall c | c in r :: allowed(c)
    ensures (forall c | c in s :: allowed(c)) ==> r == s
  {
    if s == "" then "" else (if allowed(s[0]) then [s[0]] else []) + KeepOnly(s[1..], allowed)
  }

  // ---- digits, numbers and words ----

  predicate IsDigit(c: char) {
    '0' <= c <= '9'
  }

  predicate IsLower(c: char) {
    'a' <= c <= 'z'
  }

  function Digit(d: nat): char
    requires d < 10
  {
    (48 + d) as char
  }

  function DigitValue(c: char): nat
    requires IsDigit(c)
  {
    c as int - 48
  }

  function Digits(n: nat): string {
    if n < 10 then [Digit(n)] else Digits(n / 10) + [Digit(n % 10)]
  }

  /** `str(n)`. */
  function Str(n: int): string {
    if n >= 0 then Digits(n) else "-" + Digits(-n)
  }

  /** `s.isdigit()` for text without non-ASCII digits. */
  predicate AllDigits(s: string) {
    s != "" && forall c | c in s :: IsDigit(c)
  }

  /** `int(s)`. */
  function NumberOf(s: string): nat
    requires forall c | c in s :: IsDigit(c)
  {
    if s == "" then 0 else 10 * NumberOf(s[..|s| - 1]) + DigitValue(s[|s| - 1])
  }

  lemma {:induction false} NumberOfDigits(n: nat)
    ensures AllDigits(Digits(n)) && NumberOf(Digits(n)) == n
  {
    if n < 10 {
      NumberAppend("", n);
      assert Digits(n) == "" + [Digit(n)];
    } else {
      NumberOfDigits(n / 10);
      NumberAppend(Digits(n / 10), n % 10);
    }
  }

  lemma NumberAppend(s: string, d: nat)
    requires d < 10 && forall c | c in s :: IsDigit(c)
    ensures AllDigits(s + [Digit(d)]) && NumberOf(s + [Digit(d)]) == 10 * NumberOf(s) + d
  {
  }

  predicate IsWord(w: string) {
    w != "" && forall c | c in w :: !IsSpace(c)
  }

  lemma {:induction false} WordEndIs(w: string, rest: string)
    requires (forall c | c in w :: !IsSpace(c)) && (rest == "" || IsSpace(rest[0]))
    ensures WordEnd(w + rest) == |w|
    decreases |w|
  {
    if w == "" {
      assert w + rest == rest;
    } else {
      assert (w + rest)[1..] == w[1..] + rest;
      WordEndIs(w[1..], rest);
    }
  }

  lemma SplitWord(w: string, rest: string)
    requires IsWord(w) && (rest == "" || IsSpace(rest[0]))
    ensures Split(w + rest) == [w] + Split(rest)
  {
    WordEndIs(w, rest);
    assert (w + rest)[..|w|] == w && (w + rest)[|w|..] == rest;
    assert w[0] in w;
  }

  lemma SplitNext(w: string, rest: string)
    requires IsWord(w)
    ensures Split(w + (" " + rest)) == [w] + Split(rest)
  {
    SplitWord(w, " " + rest);
    assert (" " + rest)[1..] == rest;
  }

  lemma Regroup(a: string, b: string, c: string, d: string, e: string)
    ensures a + b + c + d + e == a + (b + (c + (d + e)))
  {
  }

  lemma SplitThree(a: string, b: string, c: string)
    requires IsWord(a) && IsWord(b) && IsWord(c)
    ensures Split(a + " " + b + " " + c) == [a, b, c]
  {
    Regroup(a, " ", b, " ", c);
    SplitNext(a, b + (" " + c));
    SplitTwo(b, c);
  }

  lemma SplitTwo(b: string, c: string)
    requires IsWord(b) && IsWord(c)
    ensures Split(b + (" " + c)) == [b, c]
  {
    SplitNext(b, c);
    SplitWord(c, "");
    assert c + "" == c && Split("") == [];
  }

  lemma DigitsAreWords(s: string)
    requires AllDigits(s)
    ensures IsWord(s) && forall c | c in s :: !IsBreak(c)
  {
  }

  lemma NumbersAreWords(n: int)
    ensures IsWord(Str(n)) && (AllDigits(Str(n)) <==> n >= 0) && forall c | c in Str(n) :: !IsBreak(c)
    ensures n >= 0 ==> NumberOf(Str(n)) == n
  {
    if n >= 0 {
      NumberOfDigits(n);
      DigitsAreWords(Digits(n));
    } else {
      NumberOfDigits(-n);
      DigitsAreWords(Digits(-n));
      assert Str(n)[0] == '-' && '-' in Str(n);
    }
  }
}
