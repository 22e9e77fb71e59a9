/**
 * Description normalisation: the stored description is the input split on "\n",
 * each line trimmed of white space, blank lines dropped and every remaining line
 * wrapped as "<p>" + line + "</p>", concatenated in order.
 */
module Description {

  /** The white space characters outside the range U+2000 to U+200A. */
  const SpaceChars: set<char> := {
    '\t', '\n', '\U{000B}', '\U{000C}', '\r', ' ', '\U{0085}', '\U{00A0}', '\U{1680}',
    '\U{2028}', '\U{2029}', '\U{202F}', '\U{205F}', '\U{3000}'}

  /** Go's unicode.IsSpace. */
  predicate IsSpace(c: char) {
    c in SpaceChars || '\U{2000}' <= c <= '\U{200A}'
  }

  /** Every character is white space (the empty string included). */
  predicate Blank(s: string) {
    forall k :: 0 <= k < |s| ==> IsSpace(s[k])
  }

  /** No line holds a newline. */
  predicate SingleLines(lines: seq<string>) {
    forall i :: 0 <= i < |lines| ==> '\n' !in lines[i]
  }

  lemma BlankConcat(a: string, b: string)
    ensures Blank(a + b) <==> Blank(a) && Blank(b)
  {
    if Blank(a) && Blank(b) {
      forall k | 0 <= k < |a + b| ensures IsSpace((a + b)[k]) {
        if k < |a| { assert (a + b)[k] == a[k]; } else { assert (a + b)[k] == b[k - |a|]; }
      }
    }
    if Blank(a + b) {
      forall k | 0 <= k < |a| ensures IsSpace(a[k]) { assert a[k] == (a + b)[k]; }
      forall k | 0 <= k < |b| ensures IsSpace(b[k]) { assert b[k] == (a + b)[|a| + k]; }
    }
  }

  function TrimLeft(s: string): string
    decreases |s|
  {
    if s != [] && IsSpace(s[0]) then TrimLeft(s[1..]) else s
  }

  function TrimRight(s: string): string
    decreases |s|
  {
    if s != [] && IsSpace(s[|s| - 1]) then TrimRight(s[..|s| - 1]) else s
  }

  /** Go's strings.TrimSpace: drop leading and trailing white space. */
  function TrimSpace(s: string): string {
    TrimRight(TrimLeft(s))
  }

  /** TrimLeft removes exactly the leading white space. */
  lemma {:induction false} TrimLeftIs(s: string)
    ensures var r := TrimLeft(s);
      |r| <= |s| && r == s[|s| - |r|..] && Blank(s[..|s| - |r|]) && (r != [] ==> !IsSpace(r[0]))
    decreases |s|
  {
    if s != [] && IsSpace(s[0]) {
      TrimLeftIs(s[1..]);
      var r := TrimLeft(s[1..]);
      assert s[..|s| - |r|] == [s[0]] + s[1..][..|s| - 1 - |r|];
      BlankConcat([s[0]], s[1..][..|s| - 1 - |r|]);
    }
  }

  /** TrimRight removes exactly the trailing white space. */
  lemma {:induction false} TrimRightIs(s: string)
    ensures var r := TrimRight(s);
      |r| <= |s| && r == s[..|r|] && Blank(s[|r|..]) && (r != [] ==> !IsSpace(r[|r| - 1]))
    decreases |s|
  {
    if s != [] && IsSpace(s[|s| - 1]) {
      var init := s[..|s| - 1];
      TrimRightIs(init);
      var r := TrimRight(init);
      assert s[|r|..] == init[|r|..] + [s[|s| - 1]];
      BlankConcat(init[|r|..], [s[|s| - 1]]);
    }
  }

  /**
   * TrimSpace keeps a middle slice of its input that neither starts nor ends with
   * white space, and removes everything just when the input is blank.
   */
  lemma TrimSpaceIs(s: string)
    ensures var r := TrimSpace(s);
      && (r != [] ==> !IsSpace(r[0]) && !IsSpace(r[|r| - 1]))
      && multiset(r) <= multiset(s)
      && (r == [] <==> Blank(s))
  {
    var lead, trail := TrimSpaceParts(s);
    var r := TrimSpace(s);
    assert s == lead + (r + trail);
    assert multiset(s) == multiset(lead) + multiset(r) + multiset(trail);
    BlankConcat(lead, r + trail);
    BlankConcat(r, trail);
  }

  /** TrimSpace cuts its input into blank ends around a middle that is not trimmed further. */
  lemma TrimSpaceParts(s: string) returns (lead: string, trail: string)
    ensures var r := TrimSpace(s);
      && s == lead + r + trail && Blank(lead) && Blank(trail)
      && (r != [] ==> !IsSpace(r[0]) && !IsSpace(r[|r| - 1]))
  {
    var l := TrimLeft(s);
    TrimLeftIs(s);
    var r := TrimRight(l);
    TrimRightIs(l);
    lead, trail := s[..|s| - |l|], l[|r|..];
    assert s == lead + l && l == r + trail;
    assert r != [] ==> r[0] == l[0];
  }

  /** A string that neither starts nor ends with white space is its own trim. */
  lemma TrimSpaceFixed(s: string)
    requires s != [] && !IsSpace(s[0]) && !IsSpace(s[|s| - 1])
    ensures TrimSpace(s) == s
  {
  }

  /** Go's strings.Split(s, "\n"): the pieces between newlines, always at least one. */
  function SplitLines(s: string): (lines: seq<string>)
    ensures |lines| >= 1
    decreases |s|
  {
    if s == [] then [""]
    else
      var rest := SplitLines(s[1..]);
      if s[0] == '\n' then [""] + rest
      else [[s[0]] + rest[0]] + rest[1..]
  }

  /** The inverse of SplitLines: put the newlines back. */
  function JoinLines(lines: seq<string>): string
    requires |lines| >= 1
    decreases |lines|
  {
    if |lines| == 1 then lines[0] else lines[0] + "\n" + JoinLines(lines[1..])
  }

  /** No piece of a split holds a newline. */
  lemma {:induction false} SplitLinesSingle(s: string)
    ensures SingleLines(SplitLines(s))
    decreases |s|
  {
    if s != [] {
      var rest := SplitLines(s[1..]);
      SplitLinesSingle(s[1..]);
      var lines := SplitLines(s);
      if s[0] == '\n' {
        assert forall i :: 1 <= i < |lines| ==> lines[i] == rest[i - 1];
      } else {
        assert forall i :: 1 <= i < |lines| ==> lines[i] == rest[i];
        assert lines[0] == [s[0]] + rest[0];
      }
    }
  }

  lemma {:induction false} JoinSplit(s: string)
    ensures JoinLines(SplitLines(s)) == s
    decreases |s|
  {
    if s != [] {
      var rest := SplitLines(s[1..]);
      JoinSplit(s[1..]);
      SplitCons(s);
      JoinCons(s[0], rest);
      assert s == [s[0]] + s[1..];
    }
  }

  /** Joining undoes one step of SplitLines. */
  lemma JoinCons(c: char, rest: seq<string>)
    requires |rest| >= 1
    ensures JoinLines(ConsLine(c, rest)) == [c] + JoinLines(rest)
  {
    if c == '\n' {
      JoinNewline(rest);
    } else if |rest| > 1 {
      JoinJoined(c, rest);
    } else {
      assert ConsLine(c, rest) == [[c] + rest[0]];
    }
  }

  lemma JoinNewline(rest: seq<string>)
    requires |rest| >= 1
    ensures JoinLines([""] + rest) == "\n" + JoinLines(rest)
  {
    var lines := [""] + rest;
    assert lines[0] == "" && lines[1..] == rest;
  }

  lemma JoinJoined(c: char, rest: seq<string>)
    requires |rest| > 1
    ensures JoinLines([[c] + rest[0]] + rest[1..]) == [c] + JoinLines(rest)
  {
    var lines := [[c] + rest[0]] + rest[1..];
    var more := JoinLines(rest[1..]);
    assert lines[0] == [c] + rest[0] && lines[1..] == rest[1..];
    assert ([c] + rest[0]) + "\n" + more == [c] + (rest[0] + "\n" + more);
  }

  /** A text without newlines is a single line. */
  lemma {:induction false} SplitSingleLine(s: string)
    requires '\n' !in s
    ensures SplitLines(s) == [s]
    decreases |s|
  {
    if s != [] {
      assert '\n' !in s[1..] by {
        forall k | 0 <= k < |s[1..]| ensures s[1..][k] != '\n' {
          assert s[1..][k] == s[k + 1];
        }
      }
      SplitSingleLine(s[1..]);
      assert s == [s[0]] + s[1..];
    }
  }

  /** Splitting respects an explicit newline: the lines of `a` and then those of `b`. */
  lemma {:induction false} SplitAppend(a: string, b: string)
    ensures SplitLines(a + "\n" + b) == SplitLines(a) + SplitLines(b)
    decreases |a|
  {
    var s := a + "\n" + b;
    if a == [] {
      assert s == "\n" + b;
      assert s[1..] == b;
    } else {
      assert s[0] == a[0] && s[1..] == a[1..] + "\n" + b;
      SplitAppend(a[1..], b);
      SplitCons(s);
      SplitCons(a);
      ConsAppend(a[0], SplitLines(a[1..]), SplitLines(b));
    }
  }

  /** SplitLines one character at a time: the character either ends a line or joins the first one. */
  function ConsLine(c: char, rest: seq<string>): (lines: seq<string>)
    requires |rest| >= 1
    ensures |lines| >= 1
  {
    if c == '\n' then [""] + rest else [[c] + rest[0]] + rest[1..]
  }

  lemma SplitCons(s: string)
    requires s != []
    ensures SplitLines(s) == ConsLine(s[0], SplitLines(s[1..]))
  {
  }

  lemma ConsAppend(c: char, rest: seq<string>, more: seq<string>)
    requires |rest| >= 1
    ensures ConsLine(c, rest + more) == ConsLine(c, rest) + more
  {
    var r := rest + more;
    assert r[0] == rest[0] && r[1..] == rest[1..] + more;
  }

  function Paragraph(text: string): string {
    "<p>" + text + "</p>"
  }

  /** What one line contributes: its trimmed text as a paragraph, or nothing when blank. */
  function Piece(line: string): string {
    var t := TrimSpace(line);
    if t == "" then "" else Paragraph(t)
  }

  /** `f` of each line, concatenated left to right. */
  function ConcatMap(f: string -> string, lines: seq<string>): string
    decreases |lines|
  {
    if lines == [] then "" else ConcatMap(f, lines[..|lines| - 1]) + f(lines[|lines| - 1])
  }

  /** The pieces of the lines, left to right. */
  function Render(lines: seq<string>): string {
    ConcatMap(Piece, lines)
  }

  function NormalizeDescription(description: string): string {
    Render(SplitLines(description))
  }

  /** The trimmed non-blank lines, in order. */
  function Paragraphs(lines: seq<string>): seq<string>
    decreases |lines|
  {
    if lines == [] then []
    else
      var t := TrimSpace(lines[|lines| - 1]);
      Paragraphs(lines[..|lines| - 1]) + (if t == "" then [] else [t])
  }

  /** The paragraphs, each wrapped, concatenated. */
  function Html(paragraphs: seq<string>): string
    decreases |paragraphs|
  {
    if paragraphs == [] then ""
    else Html(paragraphs[..|paragraphs| - 1]) + Paragraph(paragraphs[|paragraphs| - 1])
  }

  /** Concatenating over two runs of lines is concatenating over each. */
  lemma {:induction false} ConcatMapAppend(f: string -> string, x: seq<string>, y: seq<string>)
    ensures ConcatMap(f, x + y) == ConcatMap(f, x) + ConcatMap(f, y)
    decreases |y|
  {
    if y == [] {
      assert x + y == x;
    } else {
      var y', last := y[..|y| - 1], y[|y| - 1];
      var xy := x + y;
      assert xy[..|xy| - 1] == x + y';
      assert xy[|xy| - 1] == last;
      ConcatMapAppend(f, x, y');
      var cx, cy', p := ConcatMap(f, x), ConcatMap(f, y'), f(last);
      assert (cx + cy') + p == cx + (cy' + p);
    }
  }

  lemma RenderAppend(x: seq<string>, y: seq<string>)
    ensures Render(x + y) == Render(x) + Render(y)
  {
    ConcatMapAppend(Piece, x, y);
  }

  /** A well-formed paragraph: non-empty, no surrounding white space, no newline. */
  predicate WellFormedParagraph(p: string) {
    p != "" && !IsSpace(p[0]) && !IsSpace(p[|p| - 1]) && '\n' !in p
  }

  /**
   * The stored description is the wrapped list of the non-blank trimmed lines, and
   * every such paragraph is well formed.
   */
  lemma {:induction false} RenderIsHtmlOfParagraphs(lines: seq<string>)
    requires SingleLines(lines)
    ensures Render(lines) == Html(Paragraphs(lines))
    ensures forall j :: 0 <= j < |Paragraphs(lines)| ==> WellFormedParagraph(Paragraphs(lines)[j])
    decreases |lines|
  {
    if lines != [] {
      var init := lines[..|lines| - 1];
      var last := lines[|lines| - 1];
      assert SingleLines(init) by {
        assert forall i :: 0 <= i < |init| ==> init[i] == lines[i];
      }
      RenderIsHtmlOfParagraphs(init);
      var t := TrimSpace(last);
      TrimSpaceIs(last);
      var ps := Paragraphs(init);
      assert Paragraphs(lines) == ps + (if t == "" then [] else [t]);
      if t != "" {
        assert (ps + [t])[..|ps + [t]| - 1] == ps;
        assert '\n' !in t by {
          assert '\n' !in multiset(last);
        }
        assert WellFormedParagraph(t);
        assert forall j :: 0 <= j < |ps| ==> (ps + [t])[j] == ps[j];
      } else {
        assert ps + [] == ps;
      }
    }
  }

  lemma NormalizeAppend(a: string, b: string)
    ensures NormalizeDescription(a + "\n" + b) == NormalizeDescription(a) + NormalizeDescription(b)
  {
    SplitAppend(a, b);
    RenderAppend(SplitLines(a), SplitLines(b));
  }

  /** A single non-blank line becomes one paragraph of its trimmed text. */
  lemma NormalizeSingleLine(line: string)
    requires '\n' !in line && !Blank(line)
    ensures NormalizeDescription(line) == Paragraph(TrimSpace(line))
  {
    SplitSingleLine(line);
    TrimSpaceIs(line);
    assert [line][..0] == [];
    assert Render([line]) == Render([]) + Piece(line);
  }

  /** The rendering is empty exactly when every line is blank. */
  lemma {:induction false} RenderEmptyIff(lines: seq<string>)
    ensures Render(lines) == "" <==> AllBlank(lines)
    decreases |lines|
  {
    if lines != [] {
      var init := lines[..|lines| - 1];
      var last := lines[|lines| - 1];
      RenderEmptyIff(init);
      TrimSpaceIs(last);
      assert lines == init + [last];
      AllBlankSnoc(init, last);
      assert Piece(last) == "" <==> Blank(last);
    }
  }

  /** Every line is blank. */
  predicate AllBlank(lines: seq<string>) {
    forall i :: 0 <= i < |lines| ==> Blank(lines[i])
  }

  lemma AllBlankCons(head: string, tail: seq<string>)
    ensures AllBlank([head] + tail) <==> Blank(head) && AllBlank(tail)
  {
    var lines := [head] + tail;
    assert lines[0] == head;
    if Blank(head) && AllBlank(tail) {
      forall i | 0 <= i < |lines| ensures Blank(lines[i]) {
        if i > 0 { assert lines[i] == tail[i - 1]; }
      }
    }
    if AllBlank(lines) {
      forall i | 0 <= i < |tail| ensures Blank(tail[i]) { assert tail[i] == lines[i + 1]; }
    }
  }

  lemma AllBlankSnoc(init: seq<string>, last: string)
    ensures AllBlank(init + [last]) <==> AllBlank(init) && Blank(last)
  {
    var lines := init + [last];
    assert lines[|init|] == last;
    assert forall i :: 0 <= i < |init| ==> lines[i] == init[i];
  }

  /** A text is blank exactly when each of its lines is. */
  lemma {:induction false} SplitBlankIff(s: string)
    ensures Blank(s) <==> AllBlank(SplitLines(s))
    decreases |s|
  {
    if s != [] {
      var rest := SplitLines(s[1..]);
      SplitBlankIff(s[1..]);
      assert s == [s[0]] + s[1..];
      BlankConcat([s[0]], s[1..]);
      assert Blank([s[0]]) <==> IsSpace(s[0]);
      if s[0] == '\n' {
        assert SplitLines(s) == [""] + rest;
        AllBlankCons("", rest);
      } else {
        var first := [s[0]] + rest[0];
        assert SplitLines(s) == [first] + rest[1..];
        AllBlankCons(first, rest[1..]);
        BlankConcat([s[0]], rest[0]);
        assert rest == [rest[0]] + rest[1..];
        AllBlankCons(rest[0], rest[1..]);
      }
    }
  }

  /** An all-blank description (the empty one included) is stored as "". */
  lemma BlankIffEmpty(description: string)
    ensures NormalizeDescription(description) == "" <==> Blank(description)
  {
    var lines := SplitLines(description);
    assert NormalizeDescription(description) == Render(lines);
    RenderEmptyIff(lines);
    SplitBlankIff(description);
  }

  /** The rendering has no newline; when non-empty it starts with '<' and ends with '>'. */
  lemma {:induction false} RenderShape(lines: seq<string>)
    requires SingleLines(lines)
    ensures '\n' !in Render(lines)
    ensures Render(lines) != "" ==> Render(lines)[0] == '<' && Render(lines)[|Render(lines)| - 1] == '>'
    decreases |lines|
  {
    if lines != [] {
      var init := lines[..|lines| - 1];
      var last := lines[|lines| - 1];
      assert SingleLines(init) by {
        assert forall i :: 0 <= i < |init| ==> init[i] == lines[i];
      }
      RenderShape(init);
      var t := TrimSpace(last);
      TrimSpaceIs(last);
      assert '\n' !in t by {
        assert '\n' !in multiset(last);
      }
      var piece := Piece(last);
      assert '\n' !in piece;
      assert Render(lines) == Render(init) + piece;
    }
  }

  /**
   * Normalising twice wraps the whole first result in one more paragraph: the
   * transform is not idempotent.
   */
  lemma NormalizeTwiceWrapsAgain(description: string)
    requires !Blank(description)
    ensures var once := NormalizeDescription(description);
      NormalizeDescription(once) == Paragraph(once) && NormalizeDescription(once) != once
  {
    var once := NormalizeDescription(description);
    BlankIffEmpty(description);
    SplitLinesSingle(description);
    RenderShape(SplitLines(description));
    assert !IsSpace(once[0]) && !IsSpace(once[|once| - 1]);
    TrimSpaceFixed(once);
    assert !Blank(once);
    NormalizeSingleLine(once);
  }

  /** The loop of the service: build the paragraphs line by line. */
  method RenderDescription(description: string) returns (html: string)
    ensures html == NormalizeDescription(description)
  {
    html := "";
    var lines := SplitLines(description);
    for i := 0 to |lines|
      invariant html == Render(lines[..i])
    {
      var line := TrimSpace(lines[i]);
      if line != "" {
        html := html + "<p>" + line + "</p>";
      }
      assert lines[..i + 1][..i] == lines[..i];
    }
    assert lines[..|lines|] == lines;
  }
}
