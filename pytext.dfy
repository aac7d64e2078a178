/**
 * The Python `str` operations the bots apply to trigger-log cells, queue
 * names and file names: `in`, `str.find`, `str.split`, `str.join`,
 * `str.replace`, `str.strip`, `str(int)` and `int(str)`.
 */
module PyText {
  import opened Wrappers

  /** `pat` occurs in `s` starting at index `i`. */
  predicate OccursAt(s: string, pat: string, i: nat)
  {
    i + |pat| <= |s| && s[i..i + |pat|] == pat
  }

  lemma ShiftOccurs(s: string, pat: string, j: nat)
    requires |s| > 0
    ensures OccursAt(s[1..], pat, j) <==> OccursAt(s, pat, j + 1)
  {
    if j + 1 + |pat| <= |s| {
      assert s[1..][j..j + |pat|] == s[j + 1..j + 1 + |pat|];
    }
  }

  /** Python's `s.find(pat)`: the first index where `pat` occurs, if any. */
  function FindFirst(s: string, pat: string): (r: Option<nat>)
    ensures r.Some? ==> OccursAt(s, pat, r.value)
    ensures r.Some? ==> forall j: nat :: j < r.value ==> !OccursAt(s, pat, j)
    ensures r.None? ==> forall j: nat :: !OccursAt(s, pat, j)
    decreases |s|
  {
    if |s| < |pat| then None
    else if s[..|pat|] == pat then Some(0)
    else
      var rest := FindFirst(s[1..], pat);
      assert !OccursAt(s, pat, 0) by { assert s[0..|pat|] == s[..|pat|]; }
      assert forall j: nat :: j >= 1 ==> (OccursAt(s, pat, j) <==> OccursAt(s[1..], pat, j - 1)) by {
        forall j: nat | j >= 1 ensures OccursAt(s, pat, j) <==> OccursAt(s[1..], pat, j - 1) {
          ShiftOccurs(s, pat, j - 1);
        }
      }
      match rest
      case None => None
      case Some(i) => Some(i + 1)
  }

  /** Python's `pat in s`. */
  predicate Contains(s: string, pat: string)
  {
    FindFirst(s, pat).Some?
  }

  lemma FirstOccurrence(s: string, pat: string, i: nat)
    requires OccursAt(s, pat, i)
    requires forall j: nat :: j < i ==> !OccursAt(s, pat, j)
    ensures FindFirst(s, pat) == Some(i)
  {
  }

  /** Python's `s.split(sep)` for a non-empty separator. */
  function Split(s: string, sep: string): (parts: seq<string>)
    requires |sep| > 0
    ensures |parts| >= 1
    decreases |s|
  {
    match FindFirst(s, sep)
    case None => [s]
    case Some(i) => [s[..i]] + Split(s[i + |sep|..], sep)
  }

  /** Python's `sep.join(parts)`. */
  function Join(parts: seq<string>, sep: string): string
  {
    if |parts| == 0 then ""
    else if |parts| == 1 then parts[0]
    else parts[0] + sep + Join(parts[1..], sep)
  }

  /**
   * Splitting a join gives the parts back when no part but the last holds
   * the separator's first character and the last holds no separator.
   */
  lemma {:induction false} SplitJoin(parts: seq<string>, sep: string)
    requires |parts| >= 1 && |sep| > 0
    requires forall k :: 0 <= k < |parts| - 1 ==> sep[0] !in parts[k]
    requires !Contains(parts[|parts| - 1], sep)
    ensures Split(Join(parts, sep), sep) == parts
  {
    if |parts| > 1 {
      var p, rest := parts[0], Join(parts[1..], sep);
      var s := p + sep + rest;
      assert Join(parts, sep) == s;
      assert OccursAt(s, sep, |p|) by { assert s[|p|..|p| + |sep|] == sep; }
      forall j: nat | j < |p| ensures !OccursAt(s, sep, j) {
        assert p[j] in p;
        if j + |sep| <= |s| { assert s[j..j + |sep|][0] == p[j]; }
      }
      FirstOccurrence(s, sep, |p|);
      assert s[..|p|] == p;
      assert s[|p| + |sep|..] == rest;
      SplitJoin(parts[1..], sep);
    }
  }

  /** Python's `s.replace(pat, rep)`: every non-overlapping occurrence, left to right. */
  function Replace(s: string, pat: string, rep: string): string
    decreases |s|
  {
    if |pat| == 0 then (if |s| == 0 then rep else rep + [s[0]] + Replace(s[1..], pat, rep))
    else if |s| < |pat| then s
    else if s[..|pat|] == pat then rep + Replace(s[|pat|..], pat, rep)
    else [s[0]] + Replace(s[1..], pat, rep)
  }

  /** Replacing a pattern that does not occur changes nothing. */
  lemma {:induction false} ReplaceAbsent(s: string, pat: string, rep: string)
    requires |pat| > 0 && !Contains(s, pat)
    ensures Replace(s, pat, rep) == s
    decreases |s|
  {
    if |s| >= |pat| {
      assert !OccursAt(s, pat, 0);
      forall j: nat ensures !OccursAt(s[1..], pat, j) {
        ShiftOccurs(s, pat, j);
      }
      ReplaceAbsent(s[1..], pat, rep);
    }
  }

  /** Replacing a pattern that occurs exactly once rewrites that occurrence only. */
  lemma {:induction false} ReplaceUnique(s: string, pat: string, rep: string, i: nat)
    requires |pat| > 0 && OccursAt(s, pat, i)
    requires forall j: nat :: j != i ==> !OccursAt(s, pat, j)
    ensures Replace(s, pat, rep) == s[..i] + rep + s[i + |pat|..]
    decreases i
  {
    if i == 0 {
      ReplaceAtHead(s, pat, rep);
    } else {
      var u := s[1..];
      ReplaceSkipsHead(s, pat, rep);
      forall j: nat | j != i - 1 ensures !OccursAt(u, pat, j) {
        ShiftOccurs(s, pat, j);
      }
      ShiftOccurs(s, pat, i - 1);
      ReplaceUnique(u, pat, rep, i - 1);
      ConsAround(s, rep, i, |pat|);
    }
  }

  /** A text that does not start with the pattern keeps its first character. */
  lemma ReplaceSkipsHead(s: string, pat: string, rep: string)
    requires 0 < |pat| <= |s| && !OccursAt(s, pat, 0)
    ensures Replace(s, pat, rep) == [s[0]] + Replace(s[1..], pat, rep)
  {
    assert s[0..|pat|] == s[..|pat|];
  }

  lemma ConsAround(s: string, rep: string, i: nat, n: nat)
    requires 0 < i && i + n <= |s|
    ensures [s[0]] + (s[1..][..i - 1] + rep + s[1..][i - 1 + n..]) == s[..i] + rep + s[i + n..]
  {
    assert [s[0]] + s[1..][..i - 1] == s[..i];
    assert s[1..][i - 1 + n..] == s[i + n..];
  }

  lemma ReplaceAtHead(s: string, pat: string, rep: string)
    requires |pat| > 0 && OccursAt(s, pat, 0)
    requires forall j: nat :: j != 0 ==> !OccursAt(s, pat, j)
    ensures Replace(s, pat, rep) == rep + s[|pat|..]
  {
    var t := s[|pat|..];
    assert s[..|pat|] == pat by { assert s[0..|pat|] == s[..|pat|]; }
    forall j: nat ensures !OccursAt(t, pat, j) {
      if j + |pat| <= |t| { assert t[j..j + |pat|] == s[|pat| + j..|pat| + j + |pat|]; }
      assert !OccursAt(s, pat, |pat| + j);
    }
    ReplaceAbsent(t, pat, rep);
  }

  /** No occurrence of a pattern whose first character the text lacks. */
  lemma NotContainsHead(s: string, pat: string)
    requires |pat| > 0 && pat[0] !in s
    ensures !Contains(s, pat)
  {
    forall j: nat ensures !OccursAt(s, pat, j) {
      if j + |pat| <= |s| { assert s[j..j + |pat|][0] == s[j]; }
    }
  }

  /** Splitting `x + sep + y` where neither side holds the separator's first character. */
  lemma SplitPair(x: string, sep: string, y: string)
    requires |sep| > 0 && sep[0] !in x && sep[0] !in y
    ensures Split(x + sep + y, sep) == [x, y]
  {
    NotContainsHead(y, sep);
    SplitJoin([x, y], sep);
    assert Join([x, y], sep) == x + sep + Join([y], sep);
  }

  /** Replacing a one-character pattern distributes over concatenation. */
  lemma {:induction false} ReplaceCharConcat(a: string, b: string, c: char, rep: string)
    ensures Replace(a + b, [c], rep) == Replace(a, [c], rep) + Replace(b, [c], rep)
    decreases |a|
  {
    if |a| == 0 {
      assert a + b == b;
    } else {
      assert (a + b)[..1] == [(a + b)[0]] && a[..1] == [a[0]];
      assert (a + b)[1..] == a[1..] + b;
      ReplaceCharConcat(a[1..], b, c, rep);
    }
  }

  /** Replacing a character the text lacks changes nothing. */
  lemma {:induction false} ReplaceCharAbsent(s: string, c: char, rep: string)
    requires c !in s
    ensures Replace(s, [c], rep) == s
    decreases |s|
  {
    if |s| > 0 {
      assert s[..1] == [s[0]];
      assert s[0] != c;
      assert forall x :: x in s[1..] ==> x in s;
      ReplaceCharAbsent(s[1..], c, rep);
    }
  }

  /** Replacing one character by another rewrites the text position by position. */
  lemma {:induction false} ReplaceCharByChar(s: string, c: char, d: char)
    ensures |Replace(s, [c], [d])| == |s|
    ensures forall i :: 0 <= i < |s| ==> Replace(s, [c], [d])[i] == if s[i] == c then d else s[i]
    decreases |s|
  {
    if |s| > 0 {
      assert s[..1] == [s[0]];
      ReplaceCharByChar(s[1..], c, d);
      var r := Replace(s, [c], [d]);
      assert r == [if s[0] == c then d else s[0]] + Replace(s[1..], [c], [d]);
    }
  }

  /** After replacing a character by a different one, the text no longer holds it. */
  lemma ReplaceCharGone(s: string, c: char, d: char)
    requires c != d
    ensures c !in Replace(s, [c], [d])
  {
    ReplaceCharByChar(s, c, d);
  }

  /** The first part of a split is everything before the first separator. */
  lemma SplitHead(x: string, sep: string, z: string)
    requires |sep| > 0 && sep[0] !in x
    ensures Split(x + sep + z, sep)[0] == x
  {
    var s := x + sep + z;
    assert s[|x|..|x| + |sep|] == sep;
    forall j: nat | j < |x| ensures !OccursAt(s, sep, j) {
      assert x[j] in x;
      if j + |sep| <= |s| {
        assert s[j..j + |sep|][0] == x[j];
      }
    }
    FirstOccurrence(s, sep, |x|);
    assert s[..|x|] == x;
  }

  /** Python's `s.lstrip(chars)`. */
  function LStrip(s: string, chars: string): (r: string)
    ensures |r| <= |s| && r == s[|s| - |r|..]
    ensures |r| > 0 ==> r[0] !in chars
    decreases |s|
  {
    if |s| > 0 && s[0] in chars then LStrip(s[1..], chars) else s
  }

  /** Python's `s.rstrip(chars)`. */
  function RStrip(s: string, chars: string): (r: string)
    ensures |r| <= |s| && r == s[..|r|]
    ensures |r| > 0 ==> r[|r| - 1] !in chars
    decreases |s|
  {
    if |s| > 0 && s[|s| - 1] in chars then RStrip(s[..|s| - 1], chars) else s
  }

  /** Python's `s.strip(chars)`. */
  function Strip(s: string, chars: string): string
  {
    RStrip(LStrip(s, chars), chars)
  }

  /** Stripping leaves a string alone whose two ends are outside `chars`. */
  lemma StripUntouched(s: string, chars: string)
    requires |s| > 0 && s[0] !in chars && s[|s| - 1] !in chars
    ensures Strip(s, chars) == s
  {
  }

  /** A stripped leading character is dropped whatever follows. */
  lemma {:induction false} StripLeading(c: char, s: string, chars: string)
    requires c in chars && |s| > 0 && s[0] !in chars && s[|s| - 1] !in chars
    ensures Strip([c] + s, chars) == s
  {
    assert ([c] + s)[1..] == s;
    assert LStrip([c] + s, chars) == LStrip(s, chars) == s;
    assert RStrip(s, chars) == s;
  }

  /** A stripped trailing character is dropped whatever precedes. */
  lemma {:induction false} StripTrailing(s: string, c: char, chars: string)
    requires c in chars && |s| > 0 && s[0] !in chars && s[|s| - 1] !in chars
    ensures Strip(s + [c], chars) == s
  {
    assert (s + [c])[0] == s[0];
    assert LStrip(s + [c], chars) == s + [c];
    assert (s + [c])[..|s|] == s;
    assert RStrip(s + [c], chars) == RStrip(s, chars) == s;
  }

  /** A character from `chars` at both ends is dropped from both. */
  lemma StripBoth(c: char, s: string, d: char, chars: string)
    requires c in chars && d in chars && |s| > 0 && s[0] !in chars && s[|s| - 1] !in chars
    ensures Strip([c] + s + [d], chars) == s
  {
    var t := [c] + s + [d];
    assert t[1..] == s + [d];
    assert LStrip(t, chars) == LStrip(s + [d], chars);
    assert (s + [d])[0] == s[0];
    assert LStrip(s + [d], chars) == s + [d];
    assert (s + [d])[..|s|] == s;
    assert RStrip(s + [d], chars) == RStrip(s, chars) == s;
  }

  predicate IsDigit(c: char) { '0' <= c <= '9' }

  predicate AllDigits(s: string) { forall i :: 0 <= i < |s| ==> IsDigit(s[i]) }

  function DigitChar(d: nat): (c: char)
    requires d < 10
    ensures IsDigit(c)
  {
    ['0', '1', '2', '3', '4', '5', '6', '7', '8', '9'][d]
  }

  function DigitValue(c: char): (d: nat)
    requires IsDigit(c)
    ensures d < 10 && DigitChar(d) == c
  {
    if c == '0' then 0 else if c == '1' then 1 else if c == '2' then 2
    else if c == '3' then 3 else if c == '4' then 4 else if c == '5' then 5
    else if c == '6' then 6 else if c == '7' then 7 else if c == '8' then 8 else 9
  }

  /** Python's `str(n)` for a natural number. */
  function NatText(n: nat): (r: string)
    ensures |r| > 0 && AllDigits(r)
  {
    if n < 10 then [DigitChar(n)] else NatText(n / 10) + [DigitChar(n % 10)]
  }

  /** The value of a string of decimal digits. */
  function DigitsValue(s: string): nat
    requires AllDigits(s)
  {
    if |s| == 0 then 0 else DigitsValue(s[..|s| - 1]) * 10 + DigitValue(s[|s| - 1])
  }

  /** Python's `str(i)` for an integer. */
  function IntText(i: int): string
  {
    if i < 0 then "-" + NatText(-i) else NatText(i)
  }

  /** Python's `int(s)` on an optional sign followed by decimal digits; anything else raises. */
  function ParseInt(s: string): (r: Option<int>)
    ensures r.Some? <==> (|s| > 0 && AllDigits(s)) || (|s| > 1 && s[0] in "+-" && AllDigits(s[1..]))
  {
    if |s| > 0 && AllDigits(s) then Some(DigitsValue(s))
    else if |s| > 1 && s[0] == '-' && AllDigits(s[1..]) then Some(-(DigitsValue(s[1..]) as int))
    else if |s| > 1 && s[0] == '+' && AllDigits(s[1..]) then Some(DigitsValue(s[1..]))
    else None
  }

  lemma {:induction false} DigitsOfNatText(n: nat)
    ensures DigitsValue(NatText(n)) == n
  {
    if n >= 10 {
      var t := NatText(n);
      assert t[..|t| - 1] == NatText(n / 10);
      DigitsOfNatText(n / 10);
    }
  }

  /** `int(str(i)) == i`. */
  lemma ParseIntText(i: int)
    ensures ParseInt(IntText(i)) == Some(i)
  {
    if i < 0 {
      ParseNegatedText(-i);
    } else {
      DigitsOfNatText(i);
    }
  }

  lemma ParseNegatedText(n: nat)
    ensures ParseInt("-" + NatText(n)) == Some(-(n as int))
  {
    var t := NatText(n);
    var s := "-" + t;
    assert s[1..] == t;
    assert !AllDigits(s) by { assert !IsDigit(s[0]); }
    DigitsOfNatText(n);
  }

  /** The characters `int()` ignores around a numeral. */
  const Whitespace: string := [' ', '\t', '\n', '\r', 11 as char, 12 as char]

  /** Python's `int(s)`: surrounding whitespace, an optional sign, decimal digits. */
  function PyInt(s: string): (r: Option<int>)
    ensures r.Some? ==> ParseInt(Strip(s, Whitespace)) == r
  {
    ParseInt(Strip(s, Whitespace))
  }

  /** `int(str(i)) == i`, through the whitespace-tolerant reader. */
  lemma PyIntText(i: int)
    ensures PyInt(IntText(i)) == Some(i)
  {
    var t := IntText(i);
    assert |t| > 0 && t[0] !in Whitespace && t[|t| - 1] !in Whitespace by {
      if i < 0 { assert t == "-" + NatText(-i); assert t[|t| - 1] == NatText(-i)[|NatText(-i)| - 1]; }
      assert IsDigit(t[|t| - 1]);
    }
    StripUntouched(t, Whitespace);
    ParseIntText(i);
  }
}
