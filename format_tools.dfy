/** Markdown builders of utils/format_tools.py. */
module FormatTools {
  import opened Strings

  function Max0(n: int): nat {
    if n < 0 then 0 else n
  }

  /** `generate_heading`: `level` hashes (none when `level` is not positive),
      a space, the title and a line break. */
  function GenerateHeading(title: string, level: int := 1): (r: string)
    ensures |r| == Max0(level) + |title| + 2
    ensures forall i :: 0 <= i < Max0(level) ==> r[i] == '#'
    ensures r[Max0(level)] == ' '
    ensures r[Max0(level) + 1..|r| - 1] == title
    ensures r[|r| - 1] == '\n'
  {
    RepeatChar('#', level) + " " + title + "\n"
  }

  /** The example in the docstring: level 2 gives `## Title`. */
  lemma HeadingExample()
    ensures GenerateHeading("Title", 2) == "## Title\n"
  {
    assert RepeatChar('#', 2) == "##";
  }

  /** `format_section`: the heading, an empty line, the body stripped of
      surrounding whitespace, and a final line break. */
  function FormatSection(title: string, body: string, level: int := 2): (r: string)
    ensures |r| >= |GenerateHeading(title, level)| + 2
  {
    GenerateHeading(title, level) + "\n" + Strip(body) + "\n"
  }

  /** A section starts with its heading and a line break and ends in a line break, and what
      lies between is the given body with surrounding whitespace removed, and nothing else. */
  lemma FormatSectionBody(title: string, body: string, level: int)
    ensures var h := GenerateHeading(title, level); var r := FormatSection(title, body, level);
      r[..|h|] == h && r[|h|] == '\n' && r[|r| - 1] == '\n' && TrimOf(r[|h| + 1..|r| - 1], body)
  {
    var h := GenerateHeading(title, level);
    var r := FormatSection(title, body, level);
    Enclosed(h + "\n", Strip(body), "\n");
    assert r == (h + "\n") + Strip(body) + "\n";
    assert r[..|h|] == (h + "\n")[..|h|] == h;
    assert r[|h|] == (h + "\n")[|h|];
    StripIsTrim(body);
  }

  lemma Enclosed(a: string, b: string, c: string)
    ensures var r := a + b + c; |r| == |a| + |b| + |c| && r[..|a|] == a && r[|a|..|r| - |c|] == b && r[|r| - |c|..] == c
  {
  }

  /** One table line: `| ` + cells joined by ` | ` + ` |`. */
  function RowLine(cells: seq<string>): (r: string)
    ensures |r| >= 4 && r[..2] == "| " && r[|r| - 2..] == " |"
  {
    "| " + Join(" | ", cells) + " |"
  }

  /** `["---"] * len(headers)`. */
  function Dashes(n: nat): (r: seq<string>)
    ensures |r| == n && forall i :: 0 <= i < n ==> r[i] == "---"
  {
    seq(n, _ => "---")
  }

  predicate NoCellHas(cells: seq<string>, c: char) {
    forall i :: 0 <= i < |cells| ==> c !in cells[i]
  }

  /** `create_table`: header line, separator line, then one line per row, joined by line breaks.
      When no cell holds a line break, the table has exactly `2 + |rows|` lines, and they are
      the header line, the separator with one `---` cell per header, and the row lines, in order. */
  function CreateTable(headers: seq<string>, rows: seq<seq<string>>): (r: string)
    ensures NoCellHas(headers, '\n') && (forall i :: 0 <= i < |rows| ==> NoCellHas(rows[i], '\n')) ==>
      var lines := Split(r, '\n');
      |lines| == 2 + |rows| && lines[0] == RowLine(headers) && lines[1] == RowLine(Dashes(|headers|))
      && forall i :: 0 <= i < |rows| ==> lines[2 + i] == RowLine(rows[i])
  {
    var lines := [RowLine(headers), RowLine(Dashes(|headers|))] + seq(|rows|, i requires 0 <= i < |rows| => RowLine(rows[i]));
    var r := Join("\n", lines);
    if NoCellHas(headers, '\n') && (forall i :: 0 <= i < |rows| ==> NoCellHas(rows[i], '\n')) then
      RowLineAvoids(headers, '\n');
      RowLineAvoids(Dashes(|headers|), '\n');
      forall j | 2 <= j < |lines| ensures '\n' !in lines[j] {
        RowLineAvoids(rows[j - 2], '\n');
      }
      SplitJoin(lines, '\n');
      r
    else
      r
  }

  lemma RowLineAvoids(cells: seq<string>, c: char)
    requires c != ' ' && c != '|'
    requires NoCellHas(cells, c)
    ensures c !in RowLine(cells)
  {
    JoinAvoids(" | ", cells, c);
  }

  function Padded(cells: seq<string>): (r: seq<string>)
    ensures |r| == |cells| && forall i :: 0 <= i < |cells| ==> r[i] == " " + cells[i] + " "
  {
    seq(|cells|, i requires 0 <= i < |cells| => " " + cells[i] + " ")
  }

  lemma {:induction false} JoinPadded(cells: seq<string>)
    requires |cells| >= 1
    ensures " " + Join(" | ", cells) + " " == Join("|", Padded(cells))
    decreases |cells|
  {
    if |cells| > 1 {
      JoinPadded(cells[1..]);
      assert Padded(cells)[1..] == Padded(cells[1..]);
    }
  }

  /** Splitting a table line on `|` gives an empty piece, each cell padded by one space
      on each side, and an empty piece: a line has exactly one cell per element of `cells`. */
  lemma RowLineCells(cells: seq<string>)
    requires |cells| >= 1 && NoCellHas(cells, '|')
    ensures Split(RowLine(cells), '|') == [""] + Padded(cells) + [""]
  {
    JoinPadded(cells);
    var p := Padded(cells);
    var parts := [""] + p + [""];
    assert parts[1..] == p + [""];
    JoinSnoc("|", p, "");
    assert Join("|", parts) == "" + "|" + Join("|", p + [""]);
    assert RowLine(cells) == "|" + Join("|", p) + "|";
    assert Join("|", parts) == RowLine(cells);
    forall i | 0 <= i < |parts| ensures '|' !in parts[i] {
      if 1 <= i <= |p| {
        assert parts[i] == " " + cells[i - 1] + " ";
      }
    }
    SplitJoin(parts, '|');
  }

  /** The separator line of a table with `n >= 1` headers has exactly `n` cells, each `---`. */
  lemma SeparatorCells(n: nat)
    requires n >= 1
    ensures var pieces := Split(RowLine(Dashes(n)), '|');
      |pieces| == n + 2 && pieces[0] == "" && pieces[n + 1] == ""
      && forall i :: 1 <= i <= n ==> pieces[i] == " --- "
  {
    RowLineCells(Dashes(n));
  }

  /** `wrap_code_block`: an opening fence with the language, a line break, the code
      stripped of surrounding whitespace, a line break and a closing fence. */
  function WrapCodeBlock(code: string, lang: string := "python"): (r: string)
    ensures |r| >= |lang| + 8
  {
    "```" + lang + "\n" + Strip(code) + "\n```"
  }

  /** A block opens with a fence, the language and a line break and closes with a line break
      and a fence, and the code in it is the given code with surrounding whitespace removed,
      and nothing else. */
  lemma WrapCodeBlockBody(code: string, lang: string)
    ensures var r := WrapCodeBlock(code, lang);
      r[..3] == "```" && r[|r| - 3..] == "```" && r[3..3 + |lang|] == lang && r[3 + |lang|] == '\n'
      && r[|r| - 4] == '\n' && TrimOf(r[4 + |lang|..|r| - 4], code)
  {
    Fenced(lang, Strip(code));
    StripIsTrim(code);
  }

  lemma Fenced(lang: string, b: string)
    ensures var r := "```" + lang + "\n" + b + "\n```";
      r[..3] == "```" && r[|r| - 3..] == "```" && r[3..3 + |lang|] == lang && r[3 + |lang|] == '\n'
      && r[|r| - 4] == '\n' && r[4 + |lang|..|r| - 4] == b
  {
    var opening := "```" + lang + "\n";
    var closing := "\n```";
    var r := opening + b + closing;
    assert |opening| == 4 + |lang| && |closing| == 4;
    Enclosed(opening, b, closing);
    assert r[..3] == opening[..3] == "```";
    assert r[|r| - 3..] == closing[1..] == "```";
    assert r[3..3 + |lang|] == opening[3..3 + |lang|] == lang;
    assert r[3 + |lang|] == opening[3 + |lang|];
    assert r[|r| - 4] == closing[0];
  }

  /** Every character just before a line break is a line break or not whitespace:
      no line ends in whitespace. */
  predicate LinesRTrimmed(s: string) {
    forall i :: 0 < i < |s| && s[i] == '\n' ==> s[i - 1] == '\n' || !IsSpace(s[i - 1])
  }

  /** What `clean_output` promises: no trailing whitespace on any line, none at either end. */
  predicate IsClean(s: string) {
    NoEdgeSpace(s) && LinesRTrimmed(s)
  }

  function RStripAll(lines: seq<string>): (r: seq<string>)
    ensures |r| == |lines| && forall i :: 0 <= i < |lines| ==> r[i] == RStrip(lines[i])
  {
    seq(|lines|, i requires 0 <= i < |lines| => RStrip(lines[i]))
  }

  /** `clean_output`: right-strip every line, rejoin with `\n`, strip the whole. */
  function CleanOutput(text: string): (r: string)
    ensures IsClean(r)
  {
    var lines := RStripAll(SplitLines(text));
    RStrippedLines(SplitLines(text));
    JoinedLinesRTrimmed(lines);
    StripLinesRTrimmed(Join("\n", lines));
    Strip(Join("\n", lines))
  }

  /** Right-stripped lines hold no line break when the lines hold none, and end in no whitespace. */
  lemma RStrippedLines(lines: seq<string>)
    requires forall i :: 0 <= i < |lines| ==> '\n' !in lines[i]
    ensures forall i :: 0 <= i < |lines| ==> '\n' !in RStripAll(lines)[i]
    ensures forall i :: 0 <= i < |lines| ==> EndsNonSpace(RStripAll(lines)[i])
  {
    forall i | 0 <= i < |lines|
      ensures '\n' !in RStripAll(lines)[i] && EndsNonSpace(RStripAll(lines)[i])
    {
      var r := RStrip(lines[i]);
      RStripPrefix(lines[i]);
      assert r == lines[i][..|r|];
      assert forall c :: c in r ==> c in lines[i];
    }
  }

  /** Stripping text in which no line ends in whitespace keeps that property. */
  lemma StripLinesRTrimmed(s: string)
    requires LinesRTrimmed(s)
    ensures LinesRTrimmed(Strip(s))
  {
    StripInside(s);
    var lead := |s| - |LStrip(s)|;
    var t := s[lead..lead + |Strip(s)|];
    SliceLinesRTrimmed(s, lead, lead + |Strip(s)|);
    assert LinesRTrimmed(t) && t == Strip(s);
  }

  /** Joining lines that hold no line break and end in no whitespace gives text
      in which no line ends in whitespace. */
  lemma {:induction false} JoinedLinesRTrimmed(lines: seq<string>)
    requires forall i :: 0 <= i < |lines| ==> '\n' !in lines[i]
    requires forall i :: 0 <= i < |lines| ==> EndsNonSpace(lines[i])
    ensures LinesRTrimmed(Join("\n", lines))
    decreases |lines|
  {
    if |lines| > 1 {
      JoinedLinesRTrimmed(lines[1..]);
      var head := lines[0];
      var rest := Join("\n", lines[1..]);
      var s := Join("\n", lines);
      assert s == head + "\n" + rest;
      assert forall j :: 0 <= j < |head| ==> s[j] == head[j];
      forall i | 0 < i < |s| && s[i] == '\n' ensures s[i - 1] == '\n' || !IsSpace(s[i - 1]) {
        if i == |head| {
          assert s[i - 1] == head[|head| - 1];
        } else if i > |head| + 1 {
          assert s[i] == rest[i - |head| - 1] && s[i - 1] == rest[i - |head| - 2];
        }
      }
    }
  }

  /** A substring of text in which no line ends in whitespace keeps that property,
      provided it does not end in whitespace. */
  lemma SliceLinesRTrimmed(s: string, lo: int, hi: int)
    requires 0 <= lo <= hi <= |s| && LinesRTrimmed(s)
    ensures LinesRTrimmed(s[lo..hi])
  {
    var t := s[lo..hi];
    forall i | 0 < i < |t| && t[i] == '\n' ensures t[i - 1] == '\n' || !IsSpace(t[i - 1]) {
      assert t[i] == s[lo + i] && t[i - 1] == s[lo + i - 1];
    }
  }

  predicate EndsNonSpace(s: string) {
    s == [] || !IsSpace(s[|s| - 1])
  }

  /** In clean text, every part between line breaks is empty or ends in a non-space. */
  lemma {:induction false} CleanParts(s: string)
    requires LinesRTrimmed(s) && EndsNonSpace(s)
    ensures forall p :: p in Split(s, '\n') ==> EndsNonSpace(p)
    decreases |s|
  {
    if s != [] {
      var t := s[1..];
      assert LinesRTrimmed(t) by {
        forall i | 0 < i < |t| && t[i] == '\n' ensures t[i - 1] == '\n' || !IsSpace(t[i - 1]) {
          assert t[i] == s[i + 1] && t[i - 1] == s[i];
        }
      }
      assert EndsNonSpace(t) by {
        if t != [] {
          assert t[|t| - 1] == s[|s| - 1];
        }
      }
      CleanParts(t);
      var rest := Split(t, '\n');
      var parts := Split(s, '\n');
      if s[0] == '\n' {
        assert parts == [[]] + rest;
      } else {
        var first := [s[0]] + rest[0];
        assert parts == [first] + rest[1..];
        assert EndsNonSpace(first) by {
          assert rest[0] in rest;
          if rest[0] == [] {
            if t == [] {
              assert s[|s| - 1] == s[0];
            } else {
              SplitFirstEmpty(t, '\n');
              assert s[1] == '\n';
            }
          } else {
            assert first[|first| - 1] == rest[0][|rest[0]| - 1];
          }
        }
        forall p | p in parts ensures EndsNonSpace(p) {
          if p != first {
            assert p in rest[1..];
          }
        }
      }
    }
  }

  lemma SplitFirstEmpty(s: string, c: char)
    requires s != [] && Split(s, c)[0] == []
    ensures s[0] == c
  {
  }

  /** Clean text is left unchanged by `clean_output`: interior blank lines are kept. */
  lemma CleanOutputFixpoint(t: string)
    requires IsClean(t)
    ensures CleanOutput(t) == t
  {
    if t != [] {
      var parts := Split(t, '\n');
      SplitLastPart(t, '\n');
      assert SplitLines(t) == parts;
      CleanParts(t);
      forall i | 0 <= i < |parts| ensures RStrip(parts[i]) == parts[i] {
        assert parts[i] in parts;
        RStripNoop(parts[i]);
      }
      assert RStripAll(parts) == parts;
      JoinSplit(t, '\n');
      StripNoop(t);
    }
  }

  /** Applying `clean_output` twice is the same as applying it once. */
  lemma CleanOutputIdempotent(t: string)
    ensures CleanOutput(CleanOutput(t)) == CleanOutput(t)
  {
    CleanOutputFixpoint(CleanOutput(t));
  }

  lemma BlankLineKept()
    ensures CleanOutput("a\n\nb") == "a\n\nb"
  {
    var t := "a\n\nb";
    assert LinesRTrimmed(t) by {
      forall i | 0 < i < |t| && t[i] == '\n' ensures t[i - 1] == '\n' || !IsSpace(t[i - 1]) {
      }
    }
    CleanOutputFixpoint(t);
  }
}
