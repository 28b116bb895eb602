/**
 * The line syntax both .mdoc parsers share: the `[ZValue = n]` section
 * marker, matched at the start of a stripped line as `re.match` does with
 * `\[ZValue\s*=\s*(\d+)\]`, and the "key = value" line split at its first
 * "=". The `\d` class is taken as the ASCII digits and `\s` as the
 * characters `str.isspace()` accepts.
 */
module MdocSyntax {
  import opened Wrappers
  import opened Text

  /** The longest prefix of s made of ASCII digits (the greedy `\d+`, possibly empty). */
  function LeadingDigits(s: string): (r: string)
    ensures |r| <= |s| && r == s[..|r|] && AllDigits(r)
    ensures |r| < |s| ==> !IsDigit(s[|r|])
    decreases |s|
  {
    if |s| > 0 && IsDigit(s[0]) then [s[0]] + LeadingDigits(s[1..]) else []
  }

  /**
   * The section number of a `[ZValue = n]` marker at the start of the
   * line, or None when the line does not start with one. Any text may
   * follow the closing bracket. ZValueRoundTrip shows every well-formed
   * marker is matched and reads back its number.
   */
  function MatchZValue(line: string): (r: Option<nat>)
    ensures r.Some? ==> StartsWith(line, "[ZValue") && ']' in line
  {
    if !StartsWith(line, "[ZValue") then None
    else
      var a := TrimLeft(line[7..]);
      if a == [] || a[0] != '=' then None
      else
        var b := TrimLeft(a[1..]);
        var d := LeadingDigits(b);
        if d == [] || |d| == |b| || b[|d|] != ']' then None
        else
          assert b[|d|] in line by {
            TrimLeftShape(line[7..]);
            TrimLeftShape(a[1..]);
            assert b == line[|line| - |b|..];
          }
          Some(DigitsToNat(d))
  }

  /** The marker as SerialEM writes it. */
  function ZValueLine(n: nat): string {
    "[ZValue = " + NatToDigits(n) + "]"
  }

  lemma {:induction false} LeadingDigitsOfDigits(d: string, rest: string)
    requires AllDigits(d)
    requires rest == [] || !IsDigit(rest[0])
    ensures LeadingDigits(d + rest) == d
    decreases |d|
  {
    if |d| > 0 {
      assert (d + rest)[1..] == d[1..] + rest;
      LeadingDigitsOfDigits(d[1..], rest);
    } else {
      assert d + rest == rest;
    }
  }

  lemma {:induction false} OneSpaceTrimmed(s: string)
    requires |s| >= 2 && s[0] == ' ' && !IsSpace(s[1])
    ensures TrimLeft(s) == s[1..]
  {
    assert TrimLeft(s[1..]) == s[1..];
  }

  /** What the matcher needs to see, step by step, to read a number. */
  lemma {:induction false} MatchedMarker(line: string, a: string, b: string, d: string)
    requires StartsWith(line, "[ZValue") && a == TrimLeft(line[7..])
    requires a != [] && a[0] == '=' && b == TrimLeft(a[1..])
    requires LeadingDigits(b) == d && d != [] && |d| < |b| && b[|d|] == ']'
    ensures MatchZValue(line) == Some(DigitsToNat(d))
  {
  }

  /** The whitespace and "=" of the marker as written, skipped as the matcher skips them. */
  lemma {:induction false} MarkerTail(line: string, tail: string)
    requires |line| >= 7 && line[7..] == " = " + tail && tail != [] && !IsSpace(tail[0])
    ensures TrimLeft(line[7..]) == "= " + tail
    ensures TrimLeft(TrimLeft(line[7..])[1..]) == tail
  {
    OneSpaceTrimmed(" = " + tail);
    assert (" = " + tail)[1..] == "= " + tail;
    assert ("= " + tail)[1..] == " " + tail;
    OneSpaceTrimmed(" " + tail);
    assert (" " + tail)[1..] == tail;
  }

  /** The matcher reads back the number the marker was written with, whatever follows it. */
  lemma {:induction false} ZValueRoundTrip(n: nat, rest: string)
    ensures MatchZValue(ZValueLine(n) + rest) == Some(n)
  {
    var digits := NatToDigits(n);
    var line := ZValueLine(n) + rest;
    var tail := digits + ("]" + rest);
    assert StartsWith(line, "[ZValue") && line[7..] == " = " + tail;
    assert IsDigit(tail[0]);
    MarkerTail(line, tail);
    LeadingDigitsOfDigits(digits, "]" + rest);
    MatchedMarker(line, TrimLeft(line[7..]), tail, digits);
    DigitsRoundTrip(n);
  }

  /** A section marker that is not also a `[T = ...]` line; the two never overlap. */
  lemma {:induction false} TLinesAreNotMarkers(line: string)
    requires StartsWith(line, "[T =")
    ensures MatchZValue(line).None?
  {
    assert line[1] == 'T';
  }

  /** A stripped .mdoc line that is a section marker. */
  predicate IsMarker(raw: string) {
    MatchZValue(Strip(raw)).Some?
  }

  /** The section numbers of the markers among the first n lines, in file order. */
  function Markers(lines: seq<string>, n: nat): (r: seq<nat>)
    requires n <= |lines|
    ensures |r| <= n
    decreases n
  {
    if n == 0 then []
    else
      var m := MatchZValue(Strip(lines[n - 1]));
      Markers(lines, n - 1) + if m.Some? then [m.value] else []
  }

  /** There are no markers exactly when no line is one. */
  lemma {:induction false} NoMarkers(lines: seq<string>, n: nat)
    requires n <= |lines|
    ensures Markers(lines, n) == [] <==> forall i :: 0 <= i < n ==> !IsMarker(lines[i])
    decreases n
  {
    if n > 0 {
      NoMarkers(lines, n - 1);
      if IsMarker(lines[n - 1]) {
        assert Markers(lines, n) != [];
      }
    }
  }

  /** A line the parsers read as "key = value": it holds "=" and does not start with "[". */
  predicate IsKeyValue(line: string) {
    '=' in line && !StartsWith(line, "[")
  }
}
