/** The functions of Go's `strings` and `unicode` packages that the response
    parsers and the name sanitiser use, over strings of code points. */
module GoStrings {

  /** `unicode.IsSpace`: the ASCII white-space characters, U+0085, U+00A0
      and the Unicode space separators. */
  predicate IsSpace(c: char)
  {
    || c == ' ' || c == '\t' || c == '\n' || c == '\U{000B}' || c == '\U{000C}' || c == '\r'
    || c == '\U{0085}' || c == '\U{00A0}' || c == '\U{1680}'
    || ('\U{2000}' <= c <= '\U{200A}')
    || c == '\U{2028}' || c == '\U{2029}' || c == '\U{202F}' || c == '\U{205F}' || c == '\U{3000}'
  }

  /** The cut set `"\""` of `strings.Trim(s, "\"")`. */
  predicate IsQuote(c: char)
  {
    c == '"'
  }

  /** `strings.TrimLeftFunc`: drops the longest prefix whose characters all satisfy `cut`. */
  function TrimLeft(s: string, cut: char -> bool): (r: string)
    ensures |r| <= |s| && r == s[|s| - |r|..]
    ensures r == [] || !cut(r[0])
    ensures forall i :: 0 <= i < |s| - |r| ==> cut(s[i])
    decreases |s|
  {
    if |s| > 0 && cut(s[0]) then TrimLeft(s[1..], cut) else s
  }

  /** `strings.TrimRightFunc`: drops the longest suffix whose characters all satisfy `cut`. */
  function TrimRight(s: string, cut: char -> bool): (r: string)
    ensures |r| <= |s| && r == s[..|r|]
    ensures r == [] || !cut(r[|r| - 1])
    ensures forall i :: |r| <= i < |s| ==> cut(s[i])
    decreases |s|
  {
    if |s| > 0 && cut(s[|s| - 1]) then TrimRight(s[..|s| - 1], cut) else s
  }

  /** `strings.TrimFunc` (and `strings.Trim` with a cut set). */
  function Trim(s: string, cut: char -> bool): string
  {
    TrimRight(TrimLeft(s, cut), cut)
  }

  /** `strings.TrimSpace`. */
  function TrimSpace(s: string): string
  {
    Trim(s, IsSpace)
  }

  /** Neither end character of a trimmed string is cut. */
  lemma TrimIsClean(s: string, cut: char -> bool)
    ensures var r := Trim(s, cut); r == [] || (!cut(r[0]) && !cut(r[|r| - 1]))
  {
    var l := TrimLeft(s, cut);
    var r := TrimRight(l, cut);
    if r != [] {
      assert r[0] == l[0];
    }
  }

  /** A separator absent from the input is absent from the trimmed string. */
  lemma TrimKeepsAbsence(s: string, cut: char -> bool, sep: string)
    requires !Contains(s, sep)
    ensures !Contains(Trim(s, cut), sep)
  {
    var l := TrimLeft(s, cut);
    var r := TrimRight(l, cut);
    if Contains(r, sep) {
      var k :| 0 <= k <= |r| && OccursAt(r, sep, k);
      assert l[0..|r|] == r;
      OccursInPart(l, sep, 0, |r|, k);
      assert s[|s| - |l|..|s|] == l;
      OccursInPart(s, sep, |s| - |l|, |s|, k);
    }
  }

  /** Trimming is the identity on a string whose ends are not cut. */
  lemma TrimUnchanged(s: string, cut: char -> bool)
    requires s == [] || (!cut(s[0]) && !cut(s[|s| - 1]))
    ensures Trim(s, cut) == s
  {
    assert TrimLeft(s, cut) == s;
  }

  /** `strings.Index(s, c)` for a single character: the first position of `c`, or -1. */
  function IndexChar(s: string, c: char): (r: int)
    ensures -1 <= r < |s|
    ensures r >= 0 ==> s[r] == c && c !in s[..r]
    ensures r == -1 <==> c !in s
  {
    if |s| == 0 then -1
    else if s[0] == c then 0
    else
      var k := IndexChar(s[1..], c);
      assert s[1..][..k + 1] == s[1..k + 2] by { }
      if k == -1 then -1 else k + 1
  }

  /** `strings.LastIndex(s, c)` for a single character: the last position of `c`, or -1. */
  function LastIndexChar(s: string, c: char): (r: int)
    ensures -1 <= r < |s|
    ensures r >= 0 ==> s[r] == c && c !in s[r + 1..]
    ensures r == -1 <==> c !in s
  {
    if |s| == 0 then -1
    else if s[|s| - 1] == c then |s| - 1
    else
      var k := LastIndexChar(s[..|s| - 1], c);
      assert s == s[..|s| - 1] + [s[|s| - 1]];
      k
  }

  /** `sep` occurs in `s` starting at position `k`. */
  predicate OccursAt(s: string, sep: string, k: int)
  {
    0 <= k && k + |sep| <= |s| && s[k..k + |sep|] == sep
  }

  /** `strings.Contains`. */
  predicate Contains(s: string, sep: string)
  {
    exists k :: 0 <= k <= |s| && OccursAt(s, sep, k)
  }

  /** The first occurrence of `sep` at or after `from`, or -1. */
  function IndexFrom(s: string, sep: string, from: nat): (r: int)
    requires from <= |s|
    ensures r == -1 || from <= r
    ensures r >= 0 ==> OccursAt(s, sep, r) && forall k :: from <= k < r ==> !OccursAt(s, sep, k)
    ensures r == -1 ==> forall k :: from <= k ==> !OccursAt(s, sep, k)
    decreases |s| - from
  {
    if from + |sep| > |s| then -1
    else if s[from..from + |sep|] == sep then from
    else IndexFrom(s, sep, from + 1)
  }

  /** `strings.Index(s, sep)`: the first occurrence of `sep`, or -1. */
  function Index(s: string, sep: string): (r: int)
    ensures r >= 0 ==> OccursAt(s, sep, r) && forall k :: 0 <= k < r ==> !OccursAt(s, sep, k)
    ensures r < 0 <==> !Contains(s, sep)
  {
    IndexFrom(s, sep, 0)
  }

  /** An occurrence inside a prefix or a suffix is an occurrence in the whole string. */
  lemma OccursInPart(s: string, sep: string, a: int, b: int, k: int)
    requires 0 <= a <= b <= |s|
    requires OccursAt(s[a..b], sep, k)
    ensures OccursAt(s, sep, a + k)
  {
    forall i | 0 <= i < |sep|
      ensures s[a + k..a + k + |sep|][i] == sep[i]
    {
      assert s[a..b][k..k + |sep|][i] == sep[i];
    }
  }

  /** `strings.SplitN(s, sep, 2)`: the text before the first `sep` and the rest,
      or the whole string when `sep` does not occur. */
  function SplitN2(s: string, sep: string): (parts: seq<string>)
    requires |sep| > 0
    ensures 1 <= |parts| <= 2
    ensures |parts| == 1 <==> !Contains(s, sep)
    ensures |parts| == 1 ==> parts[0] == s
    ensures |parts| == 2 ==> s == parts[0] + sep + parts[1] && !Contains(parts[0], sep)
  {
    var k := Index(s, sep);
    if k < 0 then [s]
    else
      assert !Contains(s[..k], sep) by {
        forall j | OccursAt(s[..k], sep, j) ensures false {
          OccursInPart(s, sep, 0, k, j);
        }
      }
      assert s == s[..k] + sep + s[k + |sep|..];
      [s[..k], s[k + |sep|..]]
  }

  /** `strings.Split(s, sep)`: the pieces between successive occurrences of `sep`. */
  function Split(s: string, sep: string): (parts: seq<string>)
    requires |sep| > 0
    ensures |parts| >= 1
    decreases |s|
  {
    var k := Index(s, sep);
    if k < 0 then [s] else [s[..k]] + Split(s[k + |sep|..], sep)
  }

  /** `strings.Join`. */
  function Join(parts: seq<string>, sep: string): string
  {
    if |parts| == 0 then ""
    else if |parts| == 1 then parts[0]
    else parts[0] + sep + Join(parts[1..], sep)
  }

  /** The string around an occurrence of `sep` at `k`. */
  lemma AroundOccurrence(s: string, sep: string, k: int)
    requires OccursAt(s, sep, k)
    ensures s == s[..k] + sep + s[k + |sep|..]
  {
    assert s == s[..k] + s[k..k + |sep|] + s[k + |sep|..];
  }

  /** Joining a non-empty list after a first piece puts one separator between them. */
  lemma JoinCons(head: string, tail: seq<string>, sep: string)
    requires |tail| >= 1
    ensures Join([head] + tail, sep) == head + sep + Join(tail, sep)
  {
    assert ([head] + tail)[1..] == tail;
  }

  /** Joining the pieces of a split with the same separator gives back the string. */
  lemma {:induction false} JoinSplit(s: string, sep: string)
    requires |sep| > 0
    ensures Join(Split(s, sep), sep) == s
    decreases |s|
  {
    var k := Index(s, sep);
    if k >= 0 {
      var rest := s[k + |sep|..];
      var tail := Split(rest, sep);
      assert Split(s, sep) == [s[..k]] + tail;
      JoinSplit(rest, sep);
      JoinCons(s[..k], tail, sep);
      AroundOccurrence(s, sep, k);
    }
  }

  /** `strings.Split` yields exactly two pieces iff `sep` occurs exactly once
      (no second occurrence after the first); then the string is
      piece one, `sep`, piece two, and neither piece contains `sep`. */
  lemma SplitInTwo(s: string, sep: string)
    requires |sep| > 0
    ensures var parts := Split(s, sep);
      |parts| == 2 <==> (Index(s, sep) >= 0 && !Contains(s[Index(s, sep) + |sep|..], sep))
    ensures var parts := Split(s, sep);
      |parts| == 2 ==> s == parts[0] + sep + parts[1] && !Contains(parts[0], sep) && !Contains(parts[1], sep)
  {
    var k := Index(s, sep);
    if k >= 0 {
      var rest := s[k + |sep|..];
      assert Split(s, sep) == [s[..k]] + Split(rest, sep);
      if !Contains(rest, sep) {
        assert Split(rest, sep) == [rest];
        assert s == s[..k] + sep + rest;
        assert !Contains(s[..k], sep) by {
          forall j | OccursAt(s[..k], sep, j) ensures false {
            OccursInPart(s, sep, 0, k, j);
          }
        }
      } else {
        assert |Split(rest, sep)| >= 2;
      }
    }
  }

  /** `strings.HasPrefix`. */
  predicate HasPrefix(s: string, prefix: string)
  {
    |prefix| <= |s| && s[..|prefix|] == prefix
  }

  /** `strings.TrimPrefix`: drops `prefix` once if `s` starts with it. */
  function TrimPrefix(s: string, prefix: string): (r: string)
    ensures HasPrefix(s, prefix) ==> s == prefix + r
    ensures !HasPrefix(s, prefix) ==> r == s
  {
    if HasPrefix(s, prefix) then s[|prefix|..] else s
  }

  /** `strings.ReplaceAll(s, from, to)` for one-character `from` and `to`. */
  function ReplaceAllChar(s: string, from: char, to: char): string
  {
    seq(|s|, i requires 0 <= i < |s| => if s[i] == from then to else s[i])
  }

  /** `unicode.ToLower` restricted to ASCII letters. */
  function LowerAscii(c: char): char
  {
    if 'A' <= c <= 'Z' then (c as int + 32) as char else c
  }

  /** `strings.ToLower`, restricted to ASCII letters. */
  function ToLower(s: string): string
  {
    seq(|s|, i requires 0 <= i < |s| => LowerAscii(s[i]))
  }
}
