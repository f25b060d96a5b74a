/**
 * Python's `textwrap.dedent`, in its classic definition: lines made only of spaces and tabs become
 * empty; the margin is the longest run of spaces and tabs that starts every other line; and that
 * margin is removed from the start of every line that has it.
 */
module Textwrap {
  import opened Wrappers
  import opened Text
  import opened PyText

  /** The characters a margin is made of. */
  predicate IsMarginChar(c: char)
  {
    c == ' ' || c == '\t'
  }

  /** `s` is made of spaces and tabs. */
  predicate AllMarginChars(s: string)
  {
    forall i :: 0 <= i < |s| ==> IsMarginChar(s[i])
  }

  /** A line of spaces and tabs only, which dedent empties. */
  predicate IsBlankLine(line: string)
  {
    line != [] && AllMarginChars(line)
  }

  function NormalizeBlank(line: string): string
  {
    if IsBlankLine(line) then [] else line
  }

  /** The spaces and tabs a line starts with. */
  function Indent(line: string): (r: string)
    ensures r <= line && AllMarginChars(r)
    ensures |r| == |line| || !IsMarginChar(line[|r|])
    decreases |line|
  {
    if line != [] && IsMarginChar(line[0]) then [line[0]] + Indent(line[1..]) else []
  }

  /** The longest common prefix of two strings. */
  function CommonPrefix(a: string, b: string): (r: string)
    ensures r <= a && r <= b
    ensures |r| == |a| || |r| == |b| || a[|r|] != b[|r|]
    decreases |a|
  {
    if a != [] && b != [] && a[0] == b[0] then [a[0]] + CommonPrefix(a[1..], b[1..]) else []
  }

  /** One step of the margin search: keep the margin, shorten it to the indent, or cut both to their common prefix. */
  function NextMargin(margin: string, indent: string): (r: string)
    ensures r <= margin && r <= indent
  {
    if margin <= indent then margin
    else if indent <= margin then indent
    else CommonPrefix(margin, indent)
  }

  /**
   * The margin of normalized lines: the indents of the non-empty lines, folded with `NextMargin`;
   * `None` when every line is empty. It is always made of spaces and tabs.
   */
  function MarginOf(lines: seq<string>, acc: Option<string>): (r: Option<string>)
    ensures (acc == None || AllMarginChars(acc.value)) ==> (r == None || AllMarginChars(r.value))
    ensures r == None ==> acc == None && forall i :: 0 <= i < |lines| ==> lines[i] == []
    decreases |lines|
  {
    if lines == [] then acc
    else if lines[0] == [] then MarginOf(lines[1..], acc)
    else
      var indent := Indent(lines[0]);
      MarginOf(lines[1..], Some(if acc == None then indent else NextMargin(acc.value, indent)))
  }

  /** The line without the margin, when it starts with a non-empty margin. */
  function RemoveMargin(margin: Option<string>, line: string): string
  {
    if margin.Some? && margin.value != [] && margin.value <= line then line[|margin.value|..] else line
  }

  /** Every line normalized: blank lines emptied. */
  function NormalizeLines(lines: seq<string>): (r: seq<string>)
    ensures |r| == |lines|
  {
    if lines == [] then [] else [NormalizeBlank(lines[0])] + NormalizeLines(lines[1..])
  }

  /** Every line without the margin. */
  function RemoveMargins(margin: Option<string>, lines: seq<string>): (r: seq<string>)
    ensures |r| == |lines|
  {
    if lines == [] then [] else [RemoveMargin(margin, lines[0])] + RemoveMargins(margin, lines[1..])
  }

  /** `textwrap.dedent(text)` */
  function Dedent(text: string): string
  {
    var lines := NormalizeLines(Split(text, '\n'));
    Join(RemoveMargins(MarginOf(lines, None), lines), "\n")
  }

  // ---------------------------------------------------------------------------------------
  // Indented blocks, as written inside a triple-quoted string

  const Margin8: string := "        "

  lemma Margin8Facts()
    ensures |Margin8| == 8 && AllMarginChars(Margin8) && IsBlankLine(Margin8) && '\n' !in Margin8
    ensures All(Margin8, IsPyWhitespace)
  {
  }

  /** A source line inside an indented triple-quoted string: empty, or the text after eight spaces. */
  function IndentLine(line: string): string
  {
    if line == [] then [] else Margin8 + line
  }

  /** Every line of a body, indented. */
  function IndentLines(body: seq<string>): (r: seq<string>)
    ensures |r| == |body|
  {
    seq(|body|, k requires 0 <= k < |body| => IndentLine(body[k]))
  }

  lemma IndentLinesAt(body: seq<string>, i: nat)
    requires i < |body|
    ensures IndentLines(body)[i] == IndentLine(body[i])
  {
  }

  lemma IndentLinesConcat(a: seq<string>, b: seq<string>)
    ensures IndentLines(a + b) == IndentLines(a) + IndentLines(b)
  {
    var l := IndentLines(a + b);
    var r := IndentLines(a) + IndentLines(b);
    forall k | 0 <= k < |l| ensures l[k] == r[k] {
      if k < |a| {
        assert (a + b)[k] == a[k];
      } else {
        assert (a + b)[k] == b[k - |a|];
      }
    }
  }

  /** A body line that dedent can give back exactly: no line break, and not starting with a space or tab. */
  predicate FlushLine(line: string)
  {
    '\n' !in line && (line != [] ==> !IsMarginChar(line[0]))
  }

  /** An indented line is blank only when empty: normalizing leaves it alone. */
  lemma IndentLineFacts(line: string)
    requires line == [] || !IsMarginChar(line[0])
    ensures NormalizeBlank(IndentLine(line)) == IndentLine(line)
  {
    if line != [] {
      assert IndentLine(line)[8] == line[0];
    }
  }

  /** Indenting adds no line break. */
  lemma IndentLineNoBreak(line: string)
    ensures '\n' in IndentLine(line) <==> '\n' in line
  {
    Margin8Facts();
  }

  /** Whatever margin dedent finds, removing it from an indented line leaves some whitespace and then the line. */
  lemma RemoveMarginKeepsText(margin: Option<string>, line: string) returns (pad: string)
    requires margin == None || AllMarginChars(margin.value)
    requires line != [] && !IsMarginChar(line[0])
    ensures RemoveMargin(margin, IndentLine(line)) == pad + line
    ensures All(pad, IsPyWhitespace)
  {
    Margin8Facts();
    var full := Margin8 + line;
    if margin.Some? && margin.value != [] && margin.value <= full {
      var m := margin.value;
      assert full[8] == line[0];
      assert |m| <= 8;
      pad := Margin8[|m|..];
      assert full[|m|..] == pad + line;
    } else {
      pad := Margin8;
    }
  }

  /** If every non-empty line has the same indent, the margin is that indent. */
  lemma {:induction false} UniformMargin(lines: seq<string>, acc: Option<string>, indent: string)
    requires acc == None || acc == Some(indent)
    requires forall i :: 0 <= i < |lines| && lines[i] != [] ==> Indent(lines[i]) == indent
    ensures MarginOf(lines, acc) == None || MarginOf(lines, acc) == Some(indent)
    decreases |lines|
  {
    if lines != [] {
      UniformMargin(lines[1..], if lines[0] == [] then acc else Some(indent), indent);
    }
  }

  /** An indented line starts with exactly the eight spaces, which the margin then removes. */
  lemma IndentOfIndentLine(line: string)
    requires line != [] && !IsMarginChar(line[0])
    ensures Indent(IndentLine(line)) == Margin8
    ensures Margin8 <= IndentLine(line) && IndentLine(line)[8..] == line
  {
    Margin8Facts();
    var full := Margin8 + line;
    var r := Indent(full);
    assert full[8] == line[0];
    assert |r| <= 8;
    assert forall k :: 0 <= k < 8 ==> IsMarginChar(full[k]);
    assert |r| == 8;
    assert r == full[..8];
  }

  /** The source lines of a triple-quoted block: the opening line break, the indented body, the closing indent. */
  function Block(body: seq<string>): seq<string>
  {
    [""] + IndentLines(body) + [Margin8]
  }

  /** An inner line of a block, and of its normalized form. */
  lemma BlockInnerLine(body: seq<string>, i: nat)
    requires 1 <= i <= |body|
    ensures Block(body)[i] == IndentLine(body[i - 1])
  {
    IndentLinesAt(body, i - 1);
    FramedAt("", IndentLines(body), Margin8, i);
  }

  /** An inner line of the normalized form of a block. */
  lemma NormalInnerLine(body: seq<string>, i: nat)
    requires 1 <= i <= |body|
    ensures ([""] + IndentLines(body) + [""])[i] == IndentLine(body[i - 1])
  {
    FramedAt("", IndentLines(body), "", i);
  }

  /** The inner elements of a sequence between two extra elements. */
  lemma FramedAt<T>(a: T, s: seq<T>, b: T, i: nat)
    requires 1 <= i <= |s|
    ensures ([a] + s + [b])[i] == s[i - 1]
  {
  }

  /** The first and last lines of a block, and of its normalized form. */
  lemma BlockEdgeLines(body: seq<string>)
    ensures var n := [""] + IndentLines(body) + [""]; n[0] == [] && n[|body| + 1] == []
    ensures Block(body)[0] == [] && Block(body)[|body| + 1] == Margin8
  {
  }

  /** The lines of a block, and of its normalized form, by index. */
  lemma BlockLineAt(body: seq<string>, i: nat)
    requires i <= |body| + 1
    ensures 1 <= i <= |body| ==> Block(body)[i] == IndentLine(body[i - 1])
    ensures 1 <= i <= |body| ==> ([""] + IndentLines(body) + [""])[i] == IndentLine(body[i - 1])
    ensures i == 0 || i == |body| + 1 ==> ([""] + IndentLines(body) + [""])[i] == []
    ensures i == 0 ==> Block(body)[i] == []
    ensures i == |body| + 1 ==> Block(body)[i] == Margin8
  {
    BlockEdgeLines(body);
    if 1 <= i <= |body| {
      BlockInnerLine(body, i);
      NormalInnerLine(body, i);
    }
  }

  lemma {:induction false} NormalizeAt(lines: seq<string>, i: nat)
    requires i < |lines|
    ensures NormalizeLines(lines)[i] == NormalizeBlank(lines[i])
  {
    if i > 0 {
      NormalizeAt(lines[1..], i - 1);
    }
  }

  lemma NormalizeBlockLine(body: seq<string>, i: nat)
    requires i <= |body| + 1
    requires 1 <= i <= |body| ==> FlushLine(body[i - 1])
    ensures NormalizeLines(Block(body))[i] == ([""] + IndentLines(body) + [""])[i]
  {
    BlockLineAt(body, i);
    NormalizeAt(Block(body), i);
    if 1 <= i <= |body| {
      IndentLineFacts(body[i - 1]);
    } else {
      Margin8Facts();
    }
  }

  /** Normalizing is line by line. */
  lemma {:induction false} NormalizeLinesEach(lines: seq<string>, out: seq<string>)
    requires |lines| == |out|
    requires forall i :: 0 <= i < |lines| ==> NormalizeBlank(lines[i]) == out[i]
    ensures NormalizeLines(lines) == out
  {
    if lines != [] {
      NormalizeLinesEach(lines[1..], out[1..]);
    }
  }

  /** Normalizing the block empties its closing indent and nothing else. */
  lemma NormalizeBlock(body: seq<string>)
    requires forall i :: 0 <= i < |body| ==> FlushLine(body[i])
    ensures NormalizeLines(Block(body)) == [""] + IndentLines(body) + [""]
  {
    var src := Block(body);
    var m := [""] + IndentLines(body) + [""];
    forall i | 0 <= i < |src| ensures NormalizeBlank(src[i]) == m[i] {
      NormalizeBlockLine(body, i);
      NormalizeAt(src, i);
    }
    NormalizeLinesEach(src, m);
  }

  lemma {:induction false} RemoveAt(margin: Option<string>, lines: seq<string>, i: nat)
    requires i < |lines|
    ensures RemoveMargins(margin, lines)[i] == RemoveMargin(margin, lines[i])
  {
    if i > 0 {
      RemoveAt(margin, lines[1..], i - 1);
    }
  }

  lemma RemoveBlockLine(body: seq<string>, margin: Option<string>, i: nat)
    requires i <= |body| + 1
    requires 1 <= i <= |body| ==> FlushLine(body[i - 1])
    requires margin == None || margin == Some(Margin8)
    requires margin == None ==> ([""] + IndentLines(body) + [""])[i] == []
    ensures RemoveMargins(margin, [""] + IndentLines(body) + [""])[i] == ([""] + body + [""])[i]
  {
    var norm := [""] + IndentLines(body) + [""];
    BlockLineAt(body, i);
    RemoveAt(margin, norm, i);
    if 1 <= i <= |body| && body[i - 1] != [] {
      IndentOfIndentLine(body[i - 1]);
      Margin8Facts();
    }
  }

  lemma IndentAt(body: seq<string>, i: nat)
    requires i <= |body| + 1
    requires 1 <= i <= |body| ==> FlushLine(body[i - 1])
    requires ([""] + IndentLines(body) + [""])[i] != []
    ensures Indent(([""] + IndentLines(body) + [""])[i]) == Margin8
  {
    BlockLineAt(body, i);
    IndentOfIndentLine(body[i - 1]);
  }

  /** The margin of the normalized block is the eight spaces, and removing it gives the body back. */
  lemma MarginOfBlock(body: seq<string>)
    requires forall i :: 0 <= i < |body| ==> FlushLine(body[i])
    ensures var norm := [""] + IndentLines(body) + [""];
      RemoveMargins(MarginOf(norm, None), norm) == [""] + body + [""]
  {
    BlockMargin(body);
    RemoveBlockMargin(body, MarginOf([""] + IndentLines(body) + [""], None));
  }

  /** The margin of the normalized block is the eight spaces, or there is none and every line is empty. */
  lemma BlockMargin(body: seq<string>)
    requires forall i :: 0 <= i < |body| ==> FlushLine(body[i])
    ensures var norm := [""] + IndentLines(body) + [""]; var m := MarginOf(norm, None);
      (m == None || m == Some(Margin8)) && (m == None ==> forall i :: 0 <= i < |norm| ==> norm[i] == [])
  {
    var norm := [""] + IndentLines(body) + [""];
    forall i | 0 <= i < |norm| && norm[i] != [] ensures Indent(norm[i]) == Margin8 {
      IndentAt(body, i);
    }
    UniformMargin(norm, None, Margin8);
  }

  /** Removing that margin from the normalized block gives the body back. */
  lemma RemoveBlockMargin(body: seq<string>, margin: Option<string>)
    requires forall i :: 0 <= i < |body| ==> FlushLine(body[i])
    requires margin == None || margin == Some(Margin8)
    requires margin == None ==> var norm := [""] + IndentLines(body) + [""];
      forall i :: 0 <= i < |norm| ==> norm[i] == []
    ensures RemoveMargins(margin, [""] + IndentLines(body) + [""]) == [""] + body + [""]
  {
    var norm := [""] + IndentLines(body) + [""];
    var want := [""] + body + [""];
    forall i | 0 <= i < |norm| ensures RemoveMargin(margin, norm[i]) == want[i] {
      RemoveBlockLine(body, margin, i);
      RemoveAt(margin, norm, i);
    }
    RemoveMarginsEach(margin, norm, want);
  }

  /** Removing the margin is line by line. */
  lemma {:induction false} RemoveMarginsEach(margin: Option<string>, lines: seq<string>, out: seq<string>)
    requires |lines| == |out|
    requires forall i :: 0 <= i < |lines| ==> RemoveMargin(margin, lines[i]) == out[i]
    ensures RemoveMargins(margin, lines) == out
  {
    if lines != [] {
      RemoveMarginsEach(margin, lines[1..], out[1..]);
    }
  }

  /** A block of flush lines, written indented by eight spaces in a triple-quoted string, dedents to itself. */
  lemma DedentIndentedBlock(body: seq<string>)
    requires forall i :: 0 <= i < |body| ==> FlushLine(body[i])
    ensures Dedent(Join(Block(body), "\n")) == Join([""] + body + [""], "\n")
  {
    var src := Block(body);
    forall i | 0 <= i < |src| ensures '\n' !in src[i] {
      Margin8Facts();
      BlockLineAt(body, i);
      if 0 < i < |src| - 1 { IndentLineNoBreak(body[i - 1]); }
    }
    SplitJoin(src, '\n');
    NormalizeBlock(body);
    MarginOfBlock(body);
  }

  /** Joining the framed lines: a line break between each two. */
  lemma JoinFrame(f: string, im: seq<string>, l: string)
    requires im != []
    ensures Join([""] + [f] + im + [l] + [Margin8], "\n")
         == [] + ['\n'] + (f + ['\n'] + (Join(im, "\n") + ['\n'] + (l + ['\n'] + Margin8)))
  {
    var src := [""] + [f] + im + [l] + [Margin8];
    JoinConcat([""] + [f], im + [l] + [Margin8], "\n");
    JoinConcat(im, [l] + [Margin8], "\n");
    JoinConcat([l], [Margin8], "\n");
    assert ([""] + [f]) + (im + [l] + [Margin8]) == src;
    assert (im + [l] + [Margin8]) == im + ([l] + [Margin8]);
  }

  /** The lines of a framed block: the fixed lines stay whole, the middle splits on its own. */
  lemma SplitFrame(f: string, im: seq<string>, l: string)
    requires '\n' !in f && '\n' !in l && im != []
    ensures Split(Join([""] + [f] + im + [l] + [Margin8], "\n"), '\n')
         == [""] + [f] + Split(Join(im, "\n"), '\n') + [l] + [Margin8]
  {
    var jm := Join(im, "\n");
    var t3 := l + ['\n'] + Margin8;
    var t2 := jm + ['\n'] + t3;
    var t1 := f + ['\n'] + t2;
    JoinFrame(f, im, l);
    Margin8Facts();
    SplitNoSep(f, '\n');
    SplitNoSep(l, '\n');
    SplitNoSep(Margin8, '\n');
    SplitConcat(l, Margin8, '\n');
    assert Split(t3, '\n') == [l] + [Margin8];
    SplitConcat(jm, t3, '\n');
    SplitConcat(f, t2, '\n');
    assert Split(t1, '\n') == [f] + (Split(jm, '\n') + ([l] + [Margin8]));
    SplitConcat([], t1, '\n');
    assert Split([] + ['\n'] + t1, '\n') == [[]] + Split(t1, '\n');
    Regroup5([""], [f], Split(jm, '\n'), [l], [Margin8]);
  }

  lemma {:induction false} NormalizeLinesConcat(a: seq<string>, b: seq<string>)
    ensures NormalizeLines(a + b) == NormalizeLines(a) + NormalizeLines(b)
    decreases |a|
  {
    if a == [] {
      assert a + b == b;
    } else {
      assert (a + b)[1..] == a[1..] + b;
      NormalizeLinesConcat(a[1..], b);
    }
  }

  lemma {:induction false} RemoveMarginsConcat(margin: Option<string>, a: seq<string>, b: seq<string>)
    ensures RemoveMargins(margin, a + b) == RemoveMargins(margin, a) + RemoveMargins(margin, b)
    decreases |a|
  {
    if a == [] {
      assert a + b == b;
    } else {
      assert (a + b)[1..] == a[1..] + b;
      RemoveMarginsConcat(margin, a[1..], b);
    }
  }

  lemma NormalizeFrame(f: string, sm: seq<string>, l: string)
    requires !IsBlankLine(f) && !IsBlankLine(l)
    ensures NormalizeLines([""] + [f] + sm + [l] + [Margin8]) == [""] + [f] + NormalizeLines(sm) + [l] + [""]
  {
    Margin8Facts();
    NormalizeLinesConcat([""] + [f] + sm + [l], [Margin8]);
    NormalizeLinesConcat([""] + [f] + sm, [l]);
    NormalizeLinesConcat([""] + [f], sm);
    NormalizeLinesConcat([""], [f]);
  }

  lemma RemoveFrame(margin: Option<string>, f: string, nm: seq<string>, l: string)
    ensures RemoveMargins(margin, [""] + [f] + nm + [l] + [""])
         == [""] + [RemoveMargin(margin, f)] + RemoveMargins(margin, nm) + [RemoveMargin(margin, l)] + [""]
  {
    RemoveMarginsConcat(margin, [""] + [f] + nm + [l], [""]);
    RemoveMarginsConcat(margin, [""] + [f] + nm, [l]);
    RemoveMarginsConcat(margin, [""] + [f], nm);
    RemoveMarginsConcat(margin, [""], [f]);
  }

  /** Normalizing and removing the margin keeps the first and last fixed lines, after some whitespace. */
  lemma DedentFrameLines(first: string, sm: seq<string>, last: string) returns (p1: string, p2: string, rm: seq<string>)
    requires first != [] && !IsMarginChar(first[0]) && last != [] && !IsMarginChar(last[0])
    ensures var lines := NormalizeLines([""] + [IndentLine(first)] + sm + [IndentLine(last)] + [Margin8]);
      RemoveMargins(MarginOf(lines, None), lines) == [""] + [p1 + first] + rm + [p2 + last] + [""]
    ensures |rm| == |sm|
    ensures All(p1, IsPyWhitespace) && All(p2, IsPyWhitespace)
  {
    var f := IndentLine(first);
    var l := IndentLine(last);
    IndentLineFacts(first);
    IndentLineFacts(last);
    NormalizeFrame(f, sm, l);
    var lines := NormalizeLines([""] + [f] + sm + [l] + [Margin8]);
    var margin := MarginOf(lines, None);
    p1 := RemoveMarginKeepsText(margin, first);
    p2 := RemoveMarginKeepsText(margin, last);
    rm := RemoveMargins(margin, NormalizeLines(sm));
    RemoveFrame(margin, f, NormalizeLines(sm), l);
  }

  /** The dedented frame, joined: the first and last lines with the joined middle between them. */
  lemma JoinOut(p1: string, first: string, rm: seq<string>, p2: string, last: string)
    requires rm != []
    ensures Join([""] + [p1 + first] + rm + [p2 + last] + [""], "\n")
         == ("\n" + p1) + (first + ("\n" + Join(rm, "\n") + "\n" + p2) + last) + "\n"
  {
    var a := [""] + [p1 + first];
    var c := [p2 + last] + [""];
    JoinConcat(a, rm + c, "\n");
    JoinConcat(rm, c, "\n");
    assert a + (rm + c) == [""] + [p1 + first] + rm + [p2 + last] + [""];
    assert Join(a, "\n") == "" + "\n" + (p1 + first);
    assert Join(c, "\n") == (p2 + last) + "\n" + "";
    RegroupJoined(p1, first, Join(rm, "\n"), p2, last);
  }

  lemma RegroupJoined(p1: string, first: string, jr: string, p2: string, last: string)
    ensures "" + "\n" + (p1 + first) + "\n" + (jr + "\n" + ((p2 + last) + "\n" + ""))
         == ("\n" + p1) + (first + ("\n" + jr + "\n" + p2) + last) + "\n"
  {
  }

  /** Joining the dedented frame and stripping it leaves the first line, a middle and the last line. */
  lemma StripFrame(p1: string, first: string, rm: seq<string>, p2: string, last: string) returns (middle: string)
    requires rm != []
    requires All(p1, IsPyWhitespace)
    requires first != [] && !IsPyWhitespace(first[0]) && last != [] && !IsPyWhitespace(last[|last| - 1])
    ensures Strip(Join([""] + [p1 + first] + rm + [p2 + last] + [""], "\n")) == first + middle + last
  {
    JoinOut(p1, first, rm, p2, last);
    middle := "\n" + Join(rm, "\n") + "\n" + p2;
    var kept := first + middle + last;
    assert kept[0] == first[0] && kept[|kept| - 1] == last[|last| - 1];
    assert All("\n" + p1, IsPyWhitespace);
    assert All("\n", IsPyWhitespace);
    TrimPadded("\n" + p1, kept, "\n", IsPyWhitespace);
  }

  /**
   * For any body, however its middle lines break, dedenting and stripping the triple-quoted block
   * gives the first body line, then something, then the last body line, when those two are
   * single lines that start and end with non-whitespace.
   */
  lemma DedentStripFrame(body: seq<string>) returns (middle: string)
    requires |body| >= 3
    requires var first := body[0]; first != [] && '\n' !in first && !IsPyWhitespace(first[0]) && !IsPyWhitespace(first[|first| - 1])
    requires var last := body[|body| - 1]; last != [] && '\n' !in last && !IsPyWhitespace(last[0]) && !IsPyWhitespace(last[|last| - 1])
    ensures Strip(Dedent(Join(Block(body), "\n"))) == body[0] + middle + body[|body| - 1]
  {
    var first := body[0];
    var last := body[|body| - 1];
    var mid := body[1..|body| - 1];
    assert body == [first] + mid + [last];
    IndentLinesConcat([first] + mid, [last]);
    IndentLinesConcat([first], mid);
    var im := IndentLines(mid);
    assert Block(body) == [""] + [IndentLine(first)] + im + [IndentLine(last)] + [Margin8];
    IndentLineNoBreak(first);
    IndentLineNoBreak(last);
    SplitFrame(IndentLine(first), im, IndentLine(last));
    var sm := Split(Join(im, "\n"), '\n');
    var p1, p2, rm := DedentFrameLines(first, sm, last);
    middle := StripFrame(p1, first, rm, p2, last);
  }
}
