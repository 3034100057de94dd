/** Python `str` operations used by the scaffold, on `seq<char>`.
    `strip`/`rstrip` use Python's exact whitespace set (`str.isspace`);
    `lower` and `title` act on ASCII letters only, and `\n` is the only line
    break known to `SplitLines`. */
module Strings {

  /** The characters for which Python's `str.isspace()` is true. */
  predicate IsSpace(c: char) {
    c in {' ', '\t', '\n', '\r', '\U{000B}', '\U{000C}', '\U{001C}', '\U{001D}', '\U{001E}', '\U{001F}',
          '\U{0085}', '\U{00A0}', '\U{1680}', '\U{2000}', '\U{2001}', '\U{2002}', '\U{2003}', '\U{2004}',
          '\U{2005}', '\U{2006}', '\U{2007}', '\U{2008}', '\U{2009}', '\U{200A}', '\U{2028}', '\U{2029}',
          '\U{202F}', '\U{205F}', '\U{3000}'}
  }

  predicate AllSpace(s: string) {
    forall i :: 0 <= i < |s| ==> IsSpace(s[i])
  }

  /** Neither end of `s` is whitespace. */
  predicate NoEdgeSpace(s: string) {
    s == [] || (!IsSpace(s[0]) && !IsSpace(s[|s| - 1]))
  }

  /** Python `s.lstrip()`. */
  function LStrip(s: string): (r: string)
    ensures |r| <= |s|
    ensures r == [] || !IsSpace(r[0])
  {
    if s != [] && IsSpace(s[0]) then LStrip(s[1..]) else s
  }

  /** `lstrip` keeps a suffix. */
  lemma {:induction false} LStripSuffix(s: string)
    ensures LStrip(s) == s[|s| - |LStrip(s)|..]
    decreases |s|
  {
    if s != [] && IsSpace(s[0]) {
      LStripSuffix(s[1..]);
      assert s[1..][|s| - 1 - |LStrip(s)|..] == s[|s| - |LStrip(s)|..];
    }
  }

  /** What `lstrip` removes is whitespace. */
  lemma {:induction false} LStripDrops(s: string)
    ensures AllSpace(s[..|s| - |LStrip(s)|])
    decreases |s|
  {
    if s != [] && IsSpace(s[0]) {
      LStripDrops(s[1..]);
      var k := |s| - |LStrip(s)|;
      assert s[..k] == [s[0]] + s[1..][..k - 1];
    }
  }

  /** Python `s.rstrip()`. */
  function RStrip(s: string): (r: string)
    ensures |r| <= |s|
    ensures r == [] || !IsSpace(r[|r| - 1])
  {
    if s != [] && IsSpace(s[|s| - 1]) then RStrip(s[..|s| - 1]) else s
  }

  /** `rstrip` keeps a prefix. */
  lemma {:induction false} RStripPrefix(s: string)
    ensures RStrip(s) == s[..|RStrip(s)|]
    decreases |s|
  {
    if s != [] && IsSpace(s[|s| - 1]) {
      var t := s[..|s| - 1];
      RStripPrefix(t);
      assert t[..|RStrip(s)|] == s[..|RStrip(s)|];
    }
  }

  /** What `rstrip` removes is whitespace. */
  lemma {:induction false} RStripDrops(s: string)
    ensures AllSpace(s[|RStrip(s)|..])
    decreases |s|
  {
    if s != [] && IsSpace(s[|s| - 1]) {
      var t := s[..|s| - 1];
      RStripDrops(t);
      var k := |RStrip(s)|;
      assert s[k..] == t[k..] + [s[|s| - 1]];
    }
  }

  /** Python `s.strip()`. */
  function Strip(s: string): (r: string)
    ensures NoEdgeSpace(r)
    ensures |r| <= |s|
  {
    RStripPrefix(LStrip(s));
    RStrip(LStrip(s))
  }

  /** `s` is whitespace, then `Strip(s)`, then whitespace: strip removes only the ends. */
  lemma StripSplits(s: string)
    ensures var lead := |s| - |LStrip(s)|;
      lead + |Strip(s)| <= |s| && s[lead..lead + |Strip(s)|] == Strip(s)
      && AllSpace(s[..lead]) && AllSpace(s[lead + |Strip(s)|..])
  {
    var l := LStrip(s);
    var lead := |s| - |l|;
    var r := RStrip(l);
    StripInside(s);
    LStripSuffix(s);
    LStripDrops(s);
    RStripDrops(l);
    assert l[|r|..] == s[lead + |r|..];
  }

  /** `Strip(s)` is the slice of `s` that starts after the leading whitespace. */
  lemma StripInside(s: string)
    ensures var lead := |s| - |LStrip(s)|;
      lead + |Strip(s)| <= |s| && s[lead..lead + |Strip(s)|] == Strip(s)
  {
    LStripSuffix(s);
    RStripPrefix(LStrip(s));
    PrefixOfSuffix(s, LStrip(s), RStrip(LStrip(s)));
  }

  /** A prefix `r` of a suffix `l` of `s` is the slice of `s` starting where `l` does. */
  lemma PrefixOfSuffix(s: string, l: string, r: string)
    requires |l| <= |s| && l == s[|s| - |l|..]
    requires |r| <= |l| && r == l[..|r|]
    ensures var lead := |s| - |l|; lead + |r| <= |s| && s[lead..lead + |r|] == r
  {
  }

  /** `mid` is `s` with whitespace removed from both ends and nothing else. */
  ghost predicate TrimOf(mid: string, s: string) {
    NoEdgeSpace(mid) &&
    exists lo, hi :: 0 <= lo <= hi <= |s| && s[lo..hi] == mid && AllSpace(s[..lo]) && AllSpace(s[hi..])
  }

  lemma StripIsTrim(s: string)
    ensures TrimOf(Strip(s), s)
  {
    StripSplits(s);
    var lo := |s| - |LStrip(s)|;
    var hi := lo + |Strip(s)|;
    assert 0 <= lo <= hi <= |s| && s[lo..hi] == Strip(s) && AllSpace(s[..lo]) && AllSpace(s[hi..]);
  }

  lemma {:induction false} LStripNoop(s: string)
    requires s == [] || !IsSpace(s[0])
    ensures LStrip(s) == s
  {
  }

  lemma {:induction false} RStripNoop(s: string)
    requires s == [] || !IsSpace(s[|s| - 1])
    ensures RStrip(s) == s
  {
  }

  /** Stripping a string whose ends are not whitespace changes nothing. */
  lemma StripNoop(s: string)
    requires NoEdgeSpace(s)
    ensures Strip(s) == s
  {
    LStripNoop(s);
    RStripNoop(s);
  }

  /** Python `str.join`: `Join(sep, parts)` is `sep.join(parts)`. */
  function Join(sep: string, parts: seq<string>): (r: string)
    decreases |parts|
  {
    if |parts| == 0 then ""
    else if |parts| == 1 then parts[0]
    else parts[0] + sep + Join(sep, parts[1..])
  }

  /** Appending one more part appends the separator and that part. */
  lemma {:induction false} JoinSnoc(sep: string, parts: seq<string>, x: string)
    requires |parts| >= 1
    ensures Join(sep, parts + [x]) == Join(sep, parts) + sep + x
    decreases |parts|
  {
    if |parts| == 1 {
      assert (parts + [x])[1..] == [x];
    } else {
      assert (parts + [x])[1..] == parts[1..] + [x];
      JoinSnoc(sep, parts[1..], x);
    }
  }

  /** A character that occurs neither in the separator nor in any part does not occur in the join. */
  lemma {:induction false} JoinAvoids(sep: string, parts: seq<string>, c: char)
    requires c !in sep
    requires forall i :: 0 <= i < |parts| ==> c !in parts[i]
    ensures c !in Join(sep, parts)
    decreases |parts|
  {
    if |parts| > 1 {
      JoinAvoids(sep, parts[1..], c);
    }
  }

  /** Python `s.split(c)` for a one-character separator. */
  function Split(s: string, c: char): (r: seq<string>)
    ensures |r| >= 1
    ensures forall i :: 0 <= i < |r| ==> c !in r[i]
    decreases |s|
  {
    if s == [] then [[]]
    else if s[0] == c then [[]] + Split(s[1..], c)
    else
      var rest := Split(s[1..], c);
      [[s[0]] + rest[0]] + rest[1..]
  }

  /** `s.split(c)[0]`: everything before the first `c`. */
  function Head(s: string, c: char): (r: string)
    ensures |r| <= |s| && r == s[..|r|] && c !in r
    ensures |r| < |s| ==> s[|r|] == c
    decreases |s|
  {
    if s == [] || s[0] == c then [] else [s[0]] + Head(s[1..], c)
  }

  /** `Head` is the first part `Split` gives. */
  lemma {:induction false} HeadSplit(s: string, c: char)
    ensures Head(s, c) == Split(s, c)[0]
    decreases |s|
  {
    if s != [] && s[0] != c {
      HeadSplit(s[1..], c);
    }
  }

  /** The part before the first `c` of `a + [c] + b`, when `a` has no `c`, is `a`. */
  lemma {:induction false} HeadFirst(a: string, c: char, b: string)
    requires c !in a
    ensures Head(a + [c] + b, c) == a
    decreases |a|
  {
    if a != [] {
      assert (a + [c] + b)[1..] == a[1..] + [c] + b;
      HeadFirst(a[1..], c, b);
    }
  }

  /** Splitting and joining with the same separator gives the string back. */
  lemma {:induction false} JoinSplit(s: string, c: char)
    ensures Join([c], Split(s, c)) == s
    decreases |s|
  {
    if s == [] {
    } else if s[0] == c {
      JoinSplit(s[1..], c);
      var rest := Split(s[1..], c);
      var parts := [[]] + rest;
      assert Split(s, c) == parts && parts[1..] == rest;
      assert Join([c], parts) == [] + [c] + Join([c], rest);
      assert s == [c] + s[1..];
    } else {
      JoinSplit(s[1..], c);
      var rest := Split(s[1..], c);
      var parts := [[s[0]] + rest[0]] + rest[1..];
      assert Split(s, c) == parts;
      if |rest| == 1 {
        assert Join([c], parts) == parts[0];
        assert s == [s[0]] + rest[0];
      } else {
        assert parts[1..] == rest[1..];
        assert Join([c], parts) == parts[0] + [c] + Join([c], rest[1..]);
        assert Join([c], rest) == rest[0] + [c] + Join([c], rest[1..]);
        assert s == [s[0]] + s[1..];
      }
    }
  }

  /** Joining parts free of `c` with `c` and splitting on `c` gives the parts back. */
  lemma {:induction false} SplitJoin(parts: seq<string>, c: char)
    requires |parts| >= 1
    requires forall i :: 0 <= i < |parts| ==> c !in parts[i]
    ensures Split(Join([c], parts), c) == parts
    decreases |parts|, if |parts| > 0 then |parts[0]| else 0
  {
    if |parts| == 1 {
      SplitNoSep(parts[0], c);
    } else if parts[0] == [] {
      SplitJoin(parts[1..], c);
      assert Join([c], parts) == [c] + Join([c], parts[1..]);
      assert [c] + Join([c], parts[1..]) == [c] + Join([c], parts[1..]);
      assert (Join([c], parts))[1..] == Join([c], parts[1..]);
      assert parts == [[]] + parts[1..];
    } else {
      var head := parts[0];
      var parts' := [head[1..]] + parts[1..];
      assert head[0] in head;
      assert forall i :: 0 <= i < |parts'| ==> c !in parts'[i] by {
        forall i | 0 <= i < |parts'| ensures c !in parts'[i] {
          if i == 0 {
            assert forall x :: x in head[1..] ==> x in head;
          } else {
            assert parts'[i] == parts[i];
          }
        }
      }
      SplitJoin(parts', c);
      var s := Join([c], parts);
      assert s == head + [c] + Join([c], parts[1..]);
      assert Join([c], parts') == head[1..] + [c] + Join([c], parts[1..]);
      assert s[0] == head[0];
      assert s[1..] == Join([c], parts');
      assert [head[0]] + head[1..] == head;
      assert parts == [[head[0]] + parts'[0]] + parts'[1..];
    }
  }

  lemma {:induction false} SplitNoSep(s: string, c: char)
    requires c !in s
    ensures Split(s, c) == [s]
    decreases |s|
  {
    if s != [] {
      assert s[0] in s;
      assert forall x :: x in s[1..] ==> x in s;
      SplitNoSep(s[1..], c);
      assert s == [s[0]] + s[1..];
    }
  }

  /** The part before the first separator is the text up to it. */
  lemma {:induction false} SplitFirst(a: string, c: char, b: string)
    requires c !in a
    ensures Split(a + [c] + b, c)[0] == a
    decreases |a|
  {
    var s := a + [c] + b;
    if a == [] {
      assert s[0] == c;
    } else {
      assert s[0] == a[0] && a[0] in a;
      assert forall x :: x in a[1..] ==> x in a;
      assert s[1..] == a[1..] + [c] + b;
      SplitFirst(a[1..], c, b);
    }
  }

  /** The last part of a split is empty exactly when the string is empty or ends with the separator. */
  lemma {:induction false} SplitLastPart(s: string, c: char)
    ensures var r := Split(s, c); (r[|r| - 1] == []) <==> (s == [] || s[|s| - 1] == c)
    decreases |s|
  {
    if s != [] {
      SplitLastPart(s[1..], c);
    }
  }

  /** Python `s.splitlines()` when `\n` is the only line break: no trailing empty line. */
  function SplitLines(s: string): (r: seq<string>)
    ensures forall i :: 0 <= i < |r| ==> '\n' !in r[i]
  {
    if s == [] then []
    else
      var parts := Split(s, '\n');
      if parts[|parts| - 1] == [] then parts[..|parts| - 1] else parts
  }

  /** Joining the lines with line breaks gives the text back, less one final line break. */
  lemma SplitLinesJoin(s: string)
    ensures s != [] && s[|s| - 1] == '\n' ==> Join("\n", SplitLines(s)) + "\n" == s
    ensures (s == [] || s[|s| - 1] != '\n') ==> Join("\n", SplitLines(s)) == s
  {
    if s != [] {
      var parts := Split(s, '\n');
      JoinSplit(s, '\n');
      SplitLastPart(s, '\n');
      if s[|s| - 1] == '\n' {
        var init := parts[..|parts| - 1];
        assert parts == init + [[]];
        JoinSnoc("\n", init, []);
      }
    }
  }

  /** Python `s[:n]` for a non-negative `n`. */
  function Take(s: string, n: nat): (r: string)
    ensures |r| == if n < |s| then n else |s|
    ensures r == s[..|r|]
  {
    if n < |s| then s[..n] else s
  }

  /** Python `c * n` for a one-character string `c`. */
  function RepeatChar(c: char, n: int): (r: string)
    ensures |r| == if n <= 0 then 0 else n
    ensures forall i :: 0 <= i < |r| ==> r[i] == c
  {
    seq(if n <= 0 then 0 else n, _ => c)
  }

  /** ASCII `lower()` of one character. */
  function LowerChar(c: char): (r: char)
    ensures 'A' <= c <= 'Z' ==> 'a' <= r <= 'z' && r as int == c as int + 32
    ensures !('A' <= c <= 'Z') ==> r == c
  {
    if 'A' <= c <= 'Z' then (c as int + 32) as char else c
  }

  /** Python `s.lower()` on ASCII letters. */
  function Lower(s: string): (r: string)
    ensures |r| == |s|
    ensures forall i :: 0 <= i < |s| ==> r[i] == LowerChar(s[i])
  {
    seq(|s|, i requires 0 <= i < |s| => LowerChar(s[i]))
  }

  /** Python `s.replace(a, b)` for one-character `a` and `b`. */
  function ReplaceChar(s: string, a: char, b: char): (r: string)
    ensures |r| == |s|
    ensures forall i :: 0 <= i < |s| ==> r[i] == if s[i] == a then b else s[i]
  {
    seq(|s|, i requires 0 <= i < |s| => if s[i] == a then b else s[i])
  }

  /** Python `s.replace(pat, rep)`: every non-overlapping occurrence, left to right. */
  function Replace(s: string, pat: string, rep: string): (r: string)
    decreases |s|
  {
    if pat == [] then ReplaceEmpty(s, rep)
    else if |s| < |pat| then s
    else if s[..|pat|] == pat then rep + Replace(s[|pat|..], pat, rep)
    else [s[0]] + Replace(s[1..], pat, rep)
  }

  /** Python inserts the replacement around every character when the pattern is empty. */
  function ReplaceEmpty(s: string, rep: string): string
    decreases |s|
  {
    if s == [] then rep else rep + [s[0]] + ReplaceEmpty(s[1..], rep)
  }

  /** Replacing a one-character pattern by a one-character text is a character map. */
  lemma {:induction false} ReplaceOneChar(s: string, a: char, b: char)
    ensures Replace(s, [a], [b]) == ReplaceChar(s, a, b)
    decreases |s|
  {
    if s != [] {
      ReplaceOneChar(s[1..], a, b);
      assert ReplaceChar(s, a, b) == ReplaceChar(s[..1], a, b) + ReplaceChar(s[1..], a, b);
    }
  }

  /** If the character `pat[k]` never occurs at index `k` or later, `pat` does not occur and nothing is replaced. */
  lemma {:induction false} ReplaceAbsent(s: string, pat: string, rep: string, k: nat)
    requires k < |pat| && k <= |s| && pat[k] !in s[k..]
    ensures Replace(s, pat, rep) == s
    decreases |s|
  {
    if |s| >= |pat| {
      assert s[..|pat|][k] == s[k] && s[k] in s[k..];
      assert s[1..][k..] == s[k + 1..];
      ReplaceAbsent(s[1..], pat, rep, k);
    }
  }

  /** An occurrence at the very start is replaced, and scanning resumes after it. */
  lemma ReplaceLeading(pat: string, t: string, rep: string)
    requires pat != []
    ensures Replace(pat + t, pat, rep) == rep + Replace(t, pat, rep)
  {
    assert (pat + t)[..|pat|] == pat;
    assert (pat + t)[|pat|..] == t;
  }

  predicate IsAsciiLetter(c: char) {
    ('a' <= c <= 'z') || ('A' <= c <= 'Z')
  }

  /** ASCII `upper()` of one character. */
  function UpperChar(c: char): (r: char)
    ensures 'a' <= c <= 'z' ==> 'A' <= r <= 'Z' && r as int == c as int - 32
    ensures !('a' <= c <= 'z') ==> r == c
  {
    if 'a' <= c <= 'z' then (c as int - 32) as char else c
  }

  /** One character of `title()`: a letter becomes lower case after a letter and upper
      case elsewhere; anything else is kept. */
  function TitleChar(c: char, afterLetter: bool): (r: char)
    ensures !IsAsciiLetter(c) ==> r == c
    ensures IsAsciiLetter(c) && !afterLetter ==> 'A' <= r <= 'Z'
    ensures IsAsciiLetter(c) && afterLetter ==> 'a' <= r <= 'z'
    ensures LowerChar(r) == LowerChar(c)
  {
    if afterLetter then LowerChar(c) else UpperChar(c)
  }

  /** Python `s.title()` on ASCII letters. */
  function Title(s: string): (r: string)
    ensures |r| == |s|
  {
    seq(|s|, i requires 0 <= i < |s| => TitleChar(s[i], i > 0 && IsAsciiLetter(s[i - 1])))
  }

  /** A letter is upper-cased when it starts the string or follows a non-letter, and
      lower-cased when it follows a letter; anything else is kept. */
  lemma TitleCases(s: string)
    ensures forall i :: 0 <= i < |s| && !IsAsciiLetter(s[i]) ==> Title(s)[i] == s[i]
    ensures forall i :: 0 <= i < |s| && IsAsciiLetter(s[i]) && (i == 0 || !IsAsciiLetter(s[i - 1])) ==> 'A' <= Title(s)[i] <= 'Z'
    ensures forall i :: 0 < i < |s| && IsAsciiLetter(s[i]) && IsAsciiLetter(s[i - 1]) ==> 'a' <= Title(s)[i] <= 'z'
    ensures forall i :: 0 <= i < |s| && (i == 0 || !IsAsciiLetter(s[i - 1])) ==> Title(s)[i] == UpperChar(s[i])
    ensures forall i :: 0 < i < |s| && IsAsciiLetter(s[i - 1]) ==> Title(s)[i] == LowerChar(s[i])
  {
    forall i | 0 <= i < |s|
      ensures Title(s)[i] == TitleChar(s[i], i > 0 && IsAsciiLetter(s[i - 1]))
    {
    }
  }
}
