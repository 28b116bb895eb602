/**
 * The Python string operations the converter relies on, written out:
 * `str.strip()`, `str.split()`, `str.split(sep)`, `str.split(sep, 1)`,
 * `str.endswith`, `in` on strings, `str(int)` and the `:03d` format, and the
 * regular-expression substitution that turns runs of backslashes into "/".
 */
module Text {
  import opened Wrappers

  /** The characters Python's `str.isspace()` (and `\s` in a `re` pattern) accept. */
  predicate IsSpace(c: char) {
    c == ' ' || c == '\t' || c == '\n' || c == '\r' || c == '\U{000B}' || c == '\U{000C}'
    || ('\U{001C}' <= c <= '\U{001F}') || c == '\U{0085}' || c == '\U{00A0}' || c == '\U{1680}'
    || ('\U{2000}' <= c <= '\U{200A}') || c == '\U{2028}' || c == '\U{2029}' || c == '\U{202F}'
    || c == '\U{205F}' || c == '\U{3000}'
  }

  predicate IsDigit(c: char) { '0' <= c <= '9' }

  predicate NoSpace(s: string) { forall k :: 0 <= k < |s| ==> !IsSpace(s[k]) }

  predicate AllDigits(s: string) { forall k :: 0 <= k < |s| ==> IsDigit(s[k]) }

  predicate StartsWith(s: string, prefix: string) {
    |prefix| <= |s| && s[..|prefix|] == prefix
  }

  predicate EndsWith(s: string, suffix: string) {
    |suffix| <= |s| && s[|s| - |suffix|..] == suffix
  }

  /** `pattern in s` for two strings: pattern occurs in s as a contiguous run. */
  predicate Contains(s: string, pattern: string)
    decreases |s|
  {
    StartsWith(s, pattern) || (|s| > 0 && Contains(s[1..], pattern))
  }

  /** A pattern cannot occur in a string that lacks the pattern's first character. */
  lemma {:induction false} ContainsNeedsFirstChar(s: string, pattern: string)
    requires pattern != [] && pattern[0] !in s
    ensures !Contains(s, pattern)
    decreases |s|
  {
    if |s| > 0 {
      assert s[0] in s;
      assert forall c :: c in s[1..] ==> c in s;
      ContainsNeedsFirstChar(s[1..], pattern);
    }
  }

  lemma {:induction false} ContainsAt(s: string, pattern: string, i: nat)
    requires i + |pattern| <= |s| && s[i..i + |pattern|] == pattern
    ensures Contains(s, pattern)
    decreases i
  {
    if i > 0 {
      assert s[1..][i - 1..i - 1 + |pattern|] == pattern;
      ContainsAt(s[1..], pattern, i - 1);
    }
  }

  /** `s.lstrip()`. */
  function TrimLeft(s: string): (r: string)
    ensures |r| <= |s|
    decreases |s|
  {
    if |s| > 0 && IsSpace(s[0]) then TrimLeft(s[1..]) else s
  }

  /** What `lstrip` keeps is a suffix, what it drops is whitespace, and what it keeps does not start with whitespace. */
  lemma {:induction false} TrimLeftShape(s: string)
    ensures var r := TrimLeft(s);
      r == s[|s| - |r|..] && (forall k :: 0 <= k < |s| - |r| ==> IsSpace(s[k])) && (r == [] || !IsSpace(r[0]))
    decreases |s|
  {
    if |s| > 0 && IsSpace(s[0]) {
      TrimLeftShape(s[1..]);
    }
  }

  /** `s.rstrip()`. */
  function TrimRight(s: string): (r: string)
    ensures |r| <= |s|
    decreases |s|
  {
    if |s| > 0 && IsSpace(s[|s| - 1]) then TrimRight(s[..|s| - 1]) else s
  }

  /** What `rstrip` keeps is a prefix, what it drops is whitespace, and what it keeps does not end with whitespace. */
  lemma {:induction false} TrimRightShape(s: string)
    ensures var r := TrimRight(s);
      r == s[..|r|] && (forall k :: |r| <= k < |s| ==> IsSpace(s[k])) && (r == [] || !IsSpace(r[|r| - 1]))
    decreases |s|
  {
    if |s| > 0 && IsSpace(s[|s| - 1]) {
      TrimRightShape(s[..|s| - 1]);
    }
  }

  /** `s.strip()`: what is left after dropping leading and trailing whitespace. */
  function Strip(s: string): (r: string)
    ensures |r| <= |s|
  {
    TrimRight(TrimLeft(s))
  }

  /** A stripped string neither starts nor ends with whitespace. */
  lemma {:induction false} StripEnds(s: string)
    ensures Strip(s) == [] || (!IsSpace(Strip(s)[0]) && !IsSpace(Strip(s)[|Strip(s)| - 1]))
  {
    var l := TrimLeft(s);
    var r := TrimRight(l);
    TrimLeftShape(s);
    TrimRightShape(l);
    if r != [] {
      assert r[0] == l[0];
    }
  }

  /** Stripping only removes characters. */
  lemma {:induction false} StripKeepsChars(s: string)
    ensures forall c :: c in Strip(s) ==> c in s
  {
    var l := TrimLeft(s);
    TrimLeftShape(s);
    TrimRightShape(l);
  }

  lemma {:induction false} StripKeepsInner(s: string)
    requires s == [] || (!IsSpace(s[0]) && !IsSpace(s[|s| - 1]))
    ensures Strip(s) == s
  {
  }

  /** Stripping twice strips nothing more. */
  lemma {:induction false} StripIdempotent(s: string)
    ensures Strip(Strip(s)) == Strip(s)
  {
    StripEnds(s);
    StripKeepsInner(Strip(s));
  }

  /** The first word of s, which must not start with whitespace. */
  function TakeWord(s: string): (w: string)
    ensures |w| <= |s| && w == s[..|w|] && NoSpace(w)
    ensures |w| < |s| ==> IsSpace(s[|w|])
    decreases |s|
  {
    if |s| == 0 || IsSpace(s[0]) then [] else [s[0]] + TakeWord(s[1..])
  }

  /** `s.split()`: the maximal runs of non-whitespace characters, in order. */
  function Words(s: string): (r: seq<string>)
    ensures forall k :: 0 <= k < |r| ==> r[k] != [] && NoSpace(r[k])
    decreases |s|
  {
    if |s| == 0 then []
    else if IsSpace(s[0]) then Words(s[1..])
    else
      var w := TakeWord(s);
      [w] + Words(s[|w|..])
  }

  /** `sep.join(parts)`. */
  function Join(parts: seq<string>, sep: string): (r: string)
    decreases |parts|
  {
    if |parts| == 0 then []
    else if |parts| == 1 then parts[0]
    else parts[0] + sep + Join(parts[1..], sep)
  }

  lemma {:induction false} TakeWordOfSpaced(w: string, rest: string)
    requires NoSpace(w)
    requires rest == [] || IsSpace(rest[0])
    ensures TakeWord(w + rest) == w
    decreases |w|
  {
    if |w| > 0 {
      assert (w + rest)[1..] == w[1..] + rest;
      TakeWordOfSpaced(w[1..], rest);
    }
  }

  /** Splitting a space-joined list of words gives the words back. */
  lemma {:induction false} WordsOfJoin(ws: seq<string>)
    requires forall k :: 0 <= k < |ws| ==> ws[k] != [] && NoSpace(ws[k])
    ensures Words(Join(ws, " ")) == ws
    decreases |ws|
  {
    if |ws| == 1 {
      TakeWordOfSpaced(ws[0], []);
      assert ws[0] + [] == ws[0];
      assert Join(ws, " ")[|ws[0]|..] == [];
    } else if |ws| > 1 {
      var rest := Join(ws[1..], " ");
      var s := ws[0] + " " + rest;
      assert s == ws[0] + (" " + rest);
      TakeWordOfSpaced(ws[0], " " + rest);
      assert s[|ws[0]|..] == " " + rest;
      assert (" " + rest)[1..] == rest;
      WordsOfJoin(ws[1..]);
      assert Words(s) == [ws[0]] + Words(" " + rest);
    }
  }

  /** `s.replace(a, b)` for single characters. */
  function ReplaceChar(s: string, a: char, b: char): (r: string)
    ensures |r| == |s|
    ensures a != b ==> a !in r
    ensures forall i :: 0 <= i < |s| ==> r[i] == if s[i] == a then b else s[i]
  {
    seq(|s|, i requires 0 <= i < |s| => if s[i] == a then b else s[i])
  }

  /** Index of the first occurrence of c in s, or |s| when there is none. */
  function FirstIndex(s: string, c: char): (i: nat)
    ensures i <= |s| && c !in s[..i]
    ensures i < |s| ==> s[i] == c
    decreases |s|
  {
    if |s| == 0 then 0
    else if s[0] == c then 0
    else 1 + FirstIndex(s[1..], c)
  }

  /** `s.split(c)` for a one-character separator: never empty, no field holds c. */
  function SplitOn(s: string, c: char): (r: seq<string>)
    ensures |r| >= 1
    ensures forall k :: 0 <= k < |r| ==> c !in r[k]
    decreases |s|
  {
    var i := FirstIndex(s, c);
    if i == |s| then [s] else [s[..i]] + SplitOn(s[i + 1..], c)
  }

  /** Joining the fields of `s.split(c)` with c gives s back. */
  lemma {:induction false} JoinSplitOn(s: string, c: char)
    ensures Join(SplitOn(s, c), [c]) == s
    decreases |s|
  {
    var i := FirstIndex(s, c);
    if i < |s| {
      var rest := SplitOn(s[i + 1..], c);
      var parts := [s[..i]] + rest;
      assert SplitOn(s, c) == parts;
      assert parts[1..] == rest;
      assert Join(parts, [c]) == s[..i] + [c] + Join(rest, [c]);
      JoinSplitOn(s[i + 1..], c);
      assert s == s[..i] + [c] + s[i + 1..];
    }
  }

  /** `s.split(c, 1)` unpacked into two names: None when c does not occur (Python raises). */
  function SplitFirst(s: string, c: char): (r: Option<(string, string)>)
    ensures r.None? <==> c !in s
    ensures r.Some? ==> s == r.value.0 + [c] + r.value.1 && c !in r.value.0
  {
    var i := FirstIndex(s, c);
    if i == |s| then None
    else
      assert s == s[..i] + [c] + s[i + 1..];
      Some((s[..i], s[i + 1..]))
  }

  /** Where the text after the last c starts: just past that c, or 0 when s has none. */
  function LastFieldStart(s: string, c: char): (i: nat)
    ensures i <= |s| && c !in s[i..]
    ensures i > 0 ==> s[i - 1] == c
    decreases |s|
  {
    if |s| == 0 || s[|s| - 1] == c then |s|
    else
      var p := s[..|s| - 1];
      var i := LastFieldStart(p, c);
      assert s[i..] == p[i..] + [s[|s| - 1]];
      i
  }

  /** `s.split(c)[-1]`: the text after the last c. */
  function LastField(s: string, c: char): (r: string)
    ensures c !in r && EndsWith(s, r)
    ensures |r| < |s| ==> s[|s| - |r| - 1] == c
  {
    s[LastFieldStart(s, c)..]
  }

  /** The text after the last c of a text ending in c and a c-free tail is that tail. */
  lemma {:induction false} LastFieldAfter(pre: string, c: char, tail: string)
    requires c !in tail
    ensures LastField(pre + [c] + tail, c) == tail
  {
    var s := pre + [c] + tail;
    var i := LastFieldStart(s, c);
    assert s[|pre|] == c;
    assert |pre| < i;
    assert s[i - 1] == c;
    assert i == |pre| + 1;
    assert s[i..] == tail;
  }

  /** A text without c is its own last field. */
  lemma {:induction false} LastFieldWhole(s: string, c: char)
    requires c !in s
    ensures LastField(s, c) == s
  {
    var i := LastFieldStart(s, c);
    assert i == 0;
  }

  /** `re.sub(r'[\\]+', '/', s)`: every run of backslashes becomes one "/". */
  function CollapseBackslashes(s: string): (r: string)
    ensures '\\' !in r
    ensures |r| <= |s|
    decreases |s|
  {
    if |s| == 0 then []
    else if s[0] == '\\' then
      var rest := TrimBackslashes(s);
      ['/'] + CollapseBackslashes(rest)
    else [s[0]] + CollapseBackslashes(s[1..])
  }

  function TrimBackslashes(s: string): (r: string)
    requires |s| > 0 && s[0] == '\\'
    ensures |r| < |s| && (r == [] || r[0] != '\\')
    decreases |s|
  {
    if |s| > 1 && s[1] == '\\' then TrimBackslashes(s[1..]) else s[1..]
  }

  lemma {:induction false} CollapseWithoutBackslashes(s: string)
    requires '\\' !in s
    ensures CollapseBackslashes(s) == s
    decreases |s|
  {
    if |s| > 0 {
      assert '\\' !in s[1..];
      CollapseWithoutBackslashes(s[1..]);
    }
  }

  /** Decimal digits of a natural number, most significant first, as `str(n)`. */
  function NatToDigits(n: nat): (r: string)
    ensures r != [] && AllDigits(r)
    decreases n
  {
    if n < 10 then [('0' as int + n) as char]
    else NatToDigits(n / 10) + [('0' as int + n % 10) as char]
  }

  /** The value of a non-empty string of ASCII digits (leading zeros allowed). */
  function DigitsToNat(s: string): nat
    requires AllDigits(s)
    decreases |s|
  {
    if |s| == 0 then 0
    else
      assert IsDigit(s[|s| - 1]);
      DigitsToNat(s[..|s| - 1]) * 10 + (s[|s| - 1] as int - '0' as int)
  }

  lemma {:induction false} DigitsRoundTrip(n: nat)
    ensures DigitsToNat(NatToDigits(n)) == n
    decreases n
  {
    if n >= 10 {
      var d := NatToDigits(n);
      assert d[..|d| - 1] == NatToDigits(n / 10);
      DigitsRoundTrip(n / 10);
    }
  }

  /** `str(n)` for a Python int. */
  function IntToString(n: int): (r: string)
    ensures r != []
    ensures n >= 0 ==> AllDigits(r) && DigitsToNat(r) == n
    ensures n < 0 ==> r[0] == '-' && AllDigits(r[1..]) && DigitsToNat(r[1..]) == -n
  {
    if n >= 0 then DigitsRoundTrip(n); NatToDigits(n)
    else
      DigitsRoundTrip(-n);
      var r := "-" + NatToDigits(-n);
      assert r[1..] == NatToDigits(-n);
      r
  }

  function Zeros(k: nat): (r: string)
    ensures |r| == k && forall j :: 0 <= j < k ==> r[j] == '0'
  {
    if k == 0 then [] else "0" + Zeros(k - 1)
  }

  /** Digits padded on the left with zeros to at least `width` characters. */
  function PadZeros(digits: string, width: nat): (r: string)
    ensures |r| == if |digits| < width then width else |digits|
    ensures EndsWith(r, digits)
  {
    Zeros(if |digits| < width then width - |digits| else 0) + digits
  }

  /** `f"{n:03d}"`: zero-padded to three characters, the sign counting as one. */
  function Pad3(n: int): (r: string)
    ensures |r| >= 3
    ensures n >= 0 ==> AllDigits(r) && DigitsToNat(r) == n
  {
    if n >= 0 then
      var d := NatToDigits(n);
      var k := if |d| < 3 then 3 - |d| else 0;
      var r := PadZeros(d, 3);
      assert r == Zeros(k) + d;
      LeadingZerosValue(d, k);
      DigitsRoundTrip(n);
      r
    else "-" + PadZeros(NatToDigits(-n), 2)
  }

  lemma {:induction false} LeadingZerosValue(d: string, k: nat)
    requires AllDigits(d)
    ensures AllDigits(Zeros(k) + d)
    ensures DigitsToNat(Zeros(k) + d) == DigitsToNat(d)
    decreases |d|
  {
    var s := Zeros(k) + d;
    if |d| == 0 {
      assert s == Zeros(k);
      ZerosValue(k);
    } else {
      assert s[..|s| - 1] == Zeros(k) + d[..|d| - 1];
      LeadingZerosValue(d[..|d| - 1], k);
    }
  }

  lemma {:induction false} ZerosValue(k: nat)
    ensures DigitsToNat(Zeros(k)) == 0
    decreases k
  {
    if k > 0 {
      assert Zeros(k)[..k - 1] == Zeros(k - 1);
      ZerosValue(k - 1);
    }
  }
}
