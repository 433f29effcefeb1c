/** The line machine accepts exactly the documents of the grammar, and returns exactly their conflicts. */
module ConflictParsing {
  import opened Options
  import opened ConflictGrammar

  // ----- every document parses ------------------------------------------------------------------

  lemma {:induction false} SkipText(lines: seq<string>, i: nat, n: nat, m: Machine, width: nat)
    requires i + n <= |lines| && m.section == Outside && NoOpener(lines[i..i + n], width)
    ensures ParseFrom(lines, i, m, width) == ParseFrom(lines, i + n, m, width)
    decreases n
  {
    if n > 0 {
      assert lines[i] == lines[i..i + n][0] && !IsMark(lines[i], OURS, width);
      assert lines[i + 1..i + n] == lines[i..i + n][1..];
      assert Feed(m, lines[i], i + 1, width) == Ok(m);
      SkipText(lines, i + 1, n - 1, m, width);
    }
  }

  // Content lines collect on the current side.
  function Add(m: Machine, xs: seq<string>): Machine {
    match m.section
    case Outside => m
    case InOurs => m.(cur := m.cur.(ours := m.cur.ours + xs))
    case InBase => m.(cur := m.cur.(base := m.cur.base + xs))
    case InTheirs => m.(cur := m.cur.(theirs := m.cur.theirs + xs))
  }

  lemma Uncons(lines: seq<string>, i: nat, n: nat, width: nat)
    requires 0 < n && i + n <= |lines| && NoMark(lines[i..i + n], width)
    ensures lines[i..i + n] == [lines[i]] + lines[i + 1..i + n] && !AnyMark(lines[i], width) && NoMark(lines[i + 1..i + n], width)
  {
    hide AnyMark;
    var all, rest := lines[i..i + n], lines[i + 1..i + n];
    assert all == [lines[i]] + rest;
    assert all[0] in all && forall line :: line in rest ==> line in all;
  }

  lemma {:induction false} CollectContent(lines: seq<string>, i: nat, n: nat, m: Machine, width: nat)
    requires i + n <= |lines| && m.section != Outside && NoMark(lines[i..i + n], width)
    ensures ParseFrom(lines, i, m, width) == ParseFrom(lines, i + n, Add(m, lines[i..i + n]), width)
    decreases n
  {
    if n == 0 {
      assert Add(m, lines[i..i + n]) == m;
    } else {
      Uncons(lines, i, n, width);
      var m1 := Add(m, [lines[i]]);
      assert Feed(m, lines[i], i + 1, width) == Ok(m1);
      CollectContent(lines, i + 1, n - 1, m1, width);
      AddTwice(m, [lines[i]], lines[i + 1..i + n]);
    }
  }

  lemma AddTwice(m: Machine, xs: seq<string>, ys: seq<string>)
    ensures Add(Add(m, xs), ys) == Add(m, xs + ys)
  {
    assert m.cur.ours + xs + ys == m.cur.ours + (xs + ys);
    assert m.cur.base + xs + ys == m.cur.base + (xs + ys);
    assert m.cur.theirs + xs + ys == m.cur.theirs + (xs + ys);
  }

  // The rest of conflict c is at line i of the file.
  ghost predicate AtLine(lines: seq<string>, i: nat, xs: seq<string>) { i + |xs| <= |lines| && lines[i..i + |xs|] == xs }

  lemma SplitAt(lines: seq<string>, i: nat, xs: seq<string>, ys: seq<string>)
    requires AtLine(lines, i, xs + ys)
    ensures AtLine(lines, i, xs) && AtLine(lines, i + |xs|, ys)
  {
    assert lines[i..i + |xs|] == (xs + ys)[..|xs|];
    assert lines[i + |xs|..i + |xs| + |ys|] == (xs + ys)[|xs|..];
  }

  // The machine after the rest of c, whose closing marker is on line endLine.
  function Close(m: Machine, c: Conflict, endLine: nat, width: nat): Machine {
    m.(section := Outside, regions := m.regions + [Finish(m, c, endLine, width)], cur := Filled(m, c))
  }

  // The current region once the rest of c is read.
  function Filled(m: Machine, c: Conflict): Region {
    match m.section
    case Outside => m.cur
    case InOurs => m.cur.(ours := m.cur.ours + c.ours, hasBase := m.cur.hasBase || c.baseMark.Some?,
                          base := m.cur.base + (if c.baseMark.Some? then c.base else []), theirs := m.cur.theirs + c.theirs)
    case InBase => m.cur.(base := m.cur.base + c.base, theirs := m.cur.theirs + c.theirs)
    case InTheirs => m.cur.(theirs := m.cur.theirs + c.theirs)
  }

  function Finish(m: Machine, c: Conflict, endLine: nat, width: nat): Region {
    Filled(m, c).(endLine := endLine, theirLabel := MarkAt(c.close, THEIRS, width).GetOr(""))
  }

  // One marker line moves the machine on.
  lemma ReadMark(lines: seq<string>, i: nat, line: string, m: Machine, m': Machine, width: nat)
    requires AtLine(lines, i, [line]) && Feed(m, line, i + 1, width) == Ok(m')
    ensures ParseFrom(lines, i, m, width) == ParseFrom(lines, i + 1, m', width)
  {
    assert lines[i] == lines[i..i + 1][0];
  }

  lemma ReadTheirs(lines: seq<string>, i: nat, c: Conflict, m: Machine, width: nat)
    requires 0 < width && ConflictOk(c, width) && m.section == InTheirs && AtLine(lines, i, TheirsOn(c))
    ensures var n := |TheirsOn(c)|;
            ParseFrom(lines, i, m, width) == ParseFrom(lines, i + n, Close(m, c, i + n, width), width)
  {
    hide AnyMark, MarkAt;
    SplitAt(lines, i, c.theirs, [c.close]);
    CollectContent(lines, i, |c.theirs|, m, width);
    ReadMark(lines, i + |c.theirs|, c.close, Add(m, c.theirs), Close(m, c, i + |TheirsOn(c)|, width), width);
  }

  lemma ReadBase(lines: seq<string>, i: nat, c: Conflict, m: Machine, width: nat)
    requires 0 < width && ConflictOk(c, width) && m.section == InBase && AtLine(lines, i, BaseOn(c))
    ensures var n := |BaseOn(c)|;
            ParseFrom(lines, i, m, width) == ParseFrom(lines, i + n, Close(m, c, i + n, width), width)
  {
    hide AnyMark, MarkAt, ParseFrom, TheirsOn;
    var k := |c.base|;
    SplitAt(lines, i, c.base, [c.sep] + TheirsOn(c));
    SplitAt(lines, i + k, [c.sep], TheirsOn(c));
    CollectContent(lines, i, k, m, width);
    var m1 := Add(m, c.base).(section := InTheirs);
    ReadMark(lines, i + k, c.sep, Add(m, c.base), m1, width);
    ReadTheirs(lines, i + k + 1, c, m1, width);
  }

  lemma ReadOurs(lines: seq<string>, i: nat, c: Conflict, m: Machine, width: nat)
    requires 0 < width && ConflictOk(c, width) && m.section == InOurs && AtLine(lines, i, OursOn(c))
    ensures var n := |OursOn(c)|;
            ParseFrom(lines, i, m, width) == ParseFrom(lines, i + n, Close(m, c, i + n, width), width)
  {
    hide AnyMark, MarkAt, ParseFrom, AfterOurs, IsMark, Close;
    SplitAt(lines, i, c.ours, AfterOurs(c));
    CollectContent(lines, i, |c.ours|, m, width);
    ReadMiddle(lines, i + |c.ours|, c, Add(m, c.ours), width);
    CloseAfter(m, c, i + |OursOn(c)|, width);
  }

  // From the line after our side: the base section when there is one, the separator otherwise.
  lemma ReadMiddle(lines: seq<string>, i: nat, c: Conflict, m: Machine, width: nat)
    requires 0 < width && ConflictOk(c, width) && m.section == InOurs && AtLine(lines, i, AfterOurs(c))
    ensures var n := |AfterOurs(c)|;
            ParseFrom(lines, i, m, width) == ParseFrom(lines, i + n, Close(m, c.(ours := []), i + n, width), width)
  {
    hide AnyMark, MarkAt, ParseFrom, BaseOn, TheirsOn;
    assert m.cur.ours + [] == m.cur.ours;
    if c.baseMark.Some? {
      SplitAt(lines, i, [c.baseMark.value], BaseOn(c));
      var m1 := m.(section := InBase, cur := m.cur.(hasBase := true));
      ReadMark(lines, i, c.baseMark.value, m, m1, width);
      ReadBase(lines, i + 1, c, m1, width);
    } else {
      SplitAt(lines, i, [c.sep], TheirsOn(c));
      SepIsNotBase(c, width);
      var m1 := m.(section := InTheirs);
      ReadMark(lines, i, c.sep, m, m1, width);
      ReadTheirs(lines, i + 1, c, m1, width);
      assert m.cur.base + [] == m.cur.base;
    }
  }

  lemma SepIsNotBase(c: Conflict, width: nat)
    requires 0 < width && ConflictOk(c, width)
    ensures !IsMark(c.sep, BASE, width)
  {
  }

  lemma CloseAfter(m: Machine, c: Conflict, endLine: nat, width: nat)
    requires m.section == InOurs
    ensures Close(Add(m, c.ours), c.(ours := []), endLine, width) == Close(m, c, endLine, width)
  {
    assert m.cur.ours + c.ours + [] == m.cur.ours + c.ours;
  }

  // The closed machine's leftover current region is never read again.
  lemma {:induction false} CurIrrelevant(lines: seq<string>, i: nat, m: Machine, cur: Region, width: nat)
    requires i <= |lines| && m.section == Outside
    ensures ParseFrom(lines, i, m, width) == ParseFrom(lines, i, m.(cur := cur), width)
    decreases |lines| - i
  {
    if i < |lines| && MarkAt(lines[i], OURS, width).None? { CurIrrelevant(lines, i + 1, m, cur, width); }
  }

  lemma ReadConflict(lines: seq<string>, i: nat, c: Conflict, m: Machine, width: nat)
    requires 0 < width && ConflictOk(c, width) && m.section == Outside && AtLine(lines, i, Lines(c))
    ensures var n := |Lines(c)|;
            ParseFrom(lines, i, m, width)
            == ParseFrom(lines, i + n, m.(regions := m.regions + [RegionOf(c, |m.regions|, i + 1, width)]), width)
  {
    hide AnyMark, OursOn, ParseFrom, MarkAt;
    var n := |Lines(c)|;
    SplitAt(lines, i, [c.open], OursOn(c));
    var m1 := Feed(m, c.open, i + 1, width).value;
    ReadMark(lines, i, c.open, m, m1, width);
    ReadOurs(lines, i + 1, c, m1, width);
    assert Finish(m1, c, i + n, width) == RegionOf(c, |m.regions|, i + 1, width);
    CurIrrelevant(lines, i + n, Close(m1, c, i + n, width), m.cur, width);
  }

  lemma Parts(lines: seq<string>, i: nat, text: seq<string>, xs: seq<string>, rest: seq<string>)
    requires i <= |lines| && lines[i..] == text + xs + rest
    ensures i + |text| + |xs| <= |lines| && lines[i..i + |text|] == text
    ensures AtLine(lines, i + |text|, xs) && lines[i + |text| + |xs|..] == rest
  {
    assert lines[i..i + |text|] == lines[i..][..|text|];
    assert lines[i + |text|..i + |text| + |xs|] == lines[i..][|text|..|text| + |xs|];
    assert lines[i + |text| + |xs|..] == lines[i..][|text| + |xs|..];
  }

  lemma EndParses(lines: seq<string>, i: nat, m: Machine, width: nat)
    requires i <= |lines| && m.section == Outside && NoOpener(lines[i..], width)
    ensures ParseFrom(lines, i, m, width) == Ok(m.regions)
  {
    hide IsMark;
    assert lines[i..i + (|lines| - i)] == lines[i..];
    SkipText(lines, i, |lines| - i, m, width);
  }

  /** Every well-formed document parses to its conflicts. */
  lemma {:induction false} DocumentParses(lines: seq<string>, i: nat, doc: Document, m: Machine, width: nat)
    requires 0 < width && DocumentOk(doc, width) && m.section == Outside && i <= |lines| && lines[i..] == Unparse(doc)
    ensures ParseFrom(lines, i, m, width) == Ok(m.regions + Regions(doc, |m.regions|, i, width))
    decreases doc
  {
    hide NoOpener, ConflictOk, Lines, ParseFrom, RegionOf, AtLine;
    match doc
    case End(text) =>
      EndParses(lines, i, m, width);
      assert m.regions + [] == m.regions;
    case Then(text, c, rest) =>
      Parts(lines, i, text, Lines(c), Unparse(rest));
      SkipText(lines, i, |text|, m, width);
      ReadConflict(lines, i + |text|, c, m, width);
      var region := RegionOf(c, |m.regions|, i + |text| + 1, width);
      var m1 := m.(regions := m.regions + [region]);
      var after := i + |text| + |Lines(c)|;
      DocumentParses(lines, after, rest, m1, width);
      assert m.regions + [region] + Regions(rest, |m1.regions|, after, width)
          == m.regions + ([region] + Regions(rest, |m1.regions|, after, width));
  }

  // ----- every parse is a document --------------------------------------------------------------

  lemma {:induction false} TheirsOf(lines: seq<string>, i: nat, m: Machine, width: nat) returns (c: Conflict, doc: Document)
    requires 0 < width && i <= |lines| && m.section == InTheirs && ParseFrom(lines, i, m, width).Ok?
    ensures TheirsOk(c, width) && DocumentOk(doc, width) && lines[i..] == TheirsOn(c) + Unparse(doc)
    decreases |lines| - i, 0
  {
    hide MarkAt;
    var next := Feed(m, lines[i], i + 1, width).value;
    assert lines[i..] == [lines[i]] + lines[i + 1..];
    if IsMark(lines[i], THEIRS, width) {
      doc := DocumentOf(lines, i + 1, next, width);
      c := Conflict("", [], None, [], "", [], lines[i]);
      assert TheirsOn(c) == [lines[i]];
    } else {
      c, doc := TheirsOf(lines, i + 1, next, width);
      c := TheirsMore(c, lines[i], width);
    }
  }

  lemma TheirsMore(c: Conflict, line: string, width: nat) returns (more: Conflict)
    requires TheirsOk(c, width) && !AnyMark(line, width)
    ensures TheirsOk(more, width) && TheirsOn(more) == [line] + TheirsOn(c)
  {
    hide AnyMark, MarkAt;
    more := c.(theirs := [line] + c.theirs);
    assert [line] + c.theirs + [c.close] == [line] + (c.theirs + [c.close]);
  }

  lemma {:induction false} BaseOf(lines: seq<string>, i: nat, m: Machine, width: nat) returns (c: Conflict, doc: Document)
    requires 0 < width && i <= |lines| && m.section == InBase && ParseFrom(lines, i, m, width).Ok?
    ensures BaseOk(c, width) && DocumentOk(doc, width) && lines[i..] == BaseOn(c) + Unparse(doc)
    decreases |lines| - i, 0
  {
    hide MarkAt, BaseOk, TheirsOk, BaseOn, TheirsOn;
    var next := Feed(m, lines[i], i + 1, width).value;
    assert lines[i..] == [lines[i]] + lines[i + 1..];
    if IsMark(lines[i], SEP, width) {
      c, doc := TheirsOf(lines, i + 1, next, width);
      c := BaseFromTheirs(c, lines[i], width);
    } else {
      c, doc := BaseOf(lines, i + 1, next, width);
      c := BaseMore(c, lines[i], width);
    }
  }

  lemma BaseFromTheirs(c: Conflict, sep: string, width: nat) returns (more: Conflict)
    requires TheirsOk(c, width) && IsMark(sep, SEP, width)
    ensures BaseOk(more, width) && BaseOn(more) == [sep] + TheirsOn(c)
  {
    hide MarkAt;
    more := c.(sep := sep, base := []);
    assert BaseOn(more) == [sep] + TheirsOn(more);
  }

  lemma BaseMore(c: Conflict, line: string, width: nat) returns (more: Conflict)
    requires BaseOk(c, width) && !AnyMark(line, width)
    ensures BaseOk(more, width) && BaseOn(more) == [line] + BaseOn(c)
  {
    hide AnyMark, MarkAt, TheirsOk;
    more := c.(base := [line] + c.base);
    assert TheirsOk(more, width) by { SameTheirs(c, more, width); }
    assert [line] + c.base + ([c.sep] + TheirsOn(c)) == [line] + (c.base + ([c.sep] + TheirsOn(c)));
  }

  lemma SameTheirs(a: Conflict, b: Conflict, width: nat)
    requires TheirsOk(a, width) && a.theirs == b.theirs && a.close == b.close
    ensures TheirsOk(b, width)
  {
  }

  lemma {:induction false} OursOf(lines: seq<string>, i: nat, m: Machine, width: nat) returns (c: Conflict, doc: Document)
    requires 0 < width && i <= |lines| && m.section == InOurs && ParseFrom(lines, i, m, width).Ok?
    ensures OursOk(c, width) && DocumentOk(doc, width) && lines[i..] == OursOn(c) + Unparse(doc)
    decreases |lines| - i, 0
  {
    hide MarkAt, OursOk, BaseOk, TheirsOk, OursOn, BaseOn, TheirsOn;
    var next := Feed(m, lines[i], i + 1, width).value;
    assert lines[i..] == [lines[i]] + lines[i + 1..];
    if IsMark(lines[i], BASE, width) {
      c, doc := BaseOf(lines, i + 1, next, width);
      c := OursFromBase(c, lines[i], width);
    } else if IsMark(lines[i], SEP, width) {
      c, doc := TheirsOf(lines, i + 1, next, width);
      c := OursFromTheirs(c, lines[i], width);
    } else {
      c, doc := OursOf(lines, i + 1, next, width);
      c := OursMore(c, lines[i], width);
    }
  }

  lemma OursFromBase(c: Conflict, line: string, width: nat) returns (c': Conflict)
    requires BaseOk(c, width) && IsMark(line, BASE, width)
    ensures OursOk(c', width) && OursOn(c') == [line] + BaseOn(c)
  {
    c' := c.(ours := [], baseMark := Some(line));
  }

  lemma OursFromTheirs(c: Conflict, line: string, width: nat) returns (c': Conflict)
    requires TheirsOk(c, width) && IsMark(line, SEP, width)
    ensures OursOk(c', width) && OursOn(c') == [line] + TheirsOn(c)
  {
    c' := c.(ours := [], baseMark := None, base := [], sep := line);
  }

  lemma OursMore(c: Conflict, line: string, width: nat) returns (c': Conflict)
    requires OursOk(c, width) && !AnyMark(line, width)
    ensures OursOk(c', width) && OursOn(c') == [line] + OursOn(c)
  {
    hide AnyMark;
    c' := c.(ours := [line] + c.ours);
    assert AfterOurs(c') == AfterOurs(c);
  }

  /** Every file that parses is a well-formed document. */
  lemma {:induction false} DocumentOf(lines: seq<string>, i: nat, m: Machine, width: nat) returns (doc: Document)
    requires 0 < width && i <= |lines| && m.section == Outside && ParseFrom(lines, i, m, width).Ok?
    ensures DocumentOk(doc, width) && Unparse(doc) == lines[i..]
    decreases |lines| - i, 0
  {
    hide OursOn, OursOk;
    if i == |lines| {
      doc := End([]);
    } else {
      var next := Feed(m, lines[i], i + 1, width).value;
      assert lines[i..] == [lines[i]] + lines[i + 1..];
      if IsMark(lines[i], OURS, width) {
        var c, rest := OursOf(lines, i + 1, next, width);
        doc := Opened(lines[i], c, rest, width);
      } else {
        var rest := DocumentOf(lines, i + 1, next, width);
        doc := Prefixed(lines[i], rest, width);
      }
    }
  }

  lemma Opened(line: string, c: Conflict, rest: Document, width: nat) returns (doc: Document)
    requires IsMark(line, OURS, width) && OursOk(c, width) && DocumentOk(rest, width)
    ensures DocumentOk(doc, width) && Unparse(doc) == [line] + (OursOn(c) + Unparse(rest))
  {
    hide MarkAt, AfterOurs;
    doc := Then([], c.(open := line), rest);
    assert AfterOurs(c.(open := line)) == AfterOurs(c) by { SameAfter(c, line); }
    assert [line] + OursOn(c) + Unparse(rest) == [line] + (OursOn(c) + Unparse(rest));
    assert [] + Lines(c.(open := line)) == Lines(c.(open := line));
  }

  lemma SameAfter(c: Conflict, line: string)
    ensures AfterOurs(c.(open := line)) == AfterOurs(c)
  {
  }

  lemma Prefixed(line: string, rest: Document, width: nat) returns (doc: Document)
    requires !IsMark(line, OURS, width) && DocumentOk(rest, width)
    ensures DocumentOk(doc, width) && Unparse(doc) == [line] + Unparse(rest)
  {
    hide MarkAt, Lines, ConflictOk;
    doc := rest.(text := [line] + rest.text);
    if rest.Then? {
      assert [line] + rest.text + Lines(rest.conflict) + Unparse(rest.rest) == [line] + (rest.text + Lines(rest.conflict) + Unparse(rest.rest));
    }
  }

  // ----- the grammar theorem --------------------------------------------------------------------

  // doc is how these lines read at this width.
  ghost predicate Reads(doc: Document, lines: seq<string>, width: nat) { DocumentOk(doc, width) && Unparse(doc) == lines }

  /** Parsing at a width succeeds exactly on the well-formed documents, and returns exactly their conflicts in order. */
  lemma ParseIffDocument(lines: seq<string>, width: nat, regions: seq<Region>)
    requires 0 < width
    ensures Parse(lines, width) == Ok(regions) <==> exists doc :: Reads(doc, lines, width) && regions == Regions(doc, 0, 0, width)
  {
    hide ParseFrom, DocumentOk, Unparse, Regions;
    assert lines[0..] == lines;
    if Parse(lines, width).Ok? {
      var doc := DocumentOf(lines, 0, START, width);
      assert Reads(doc, lines, width);
      DocumentParses(lines, 0, doc, START, width);
      assert START.regions + Regions(doc, 0, 0, width) == Regions(doc, 0, 0, width);
    }
    forall doc | Reads(doc, lines, width) ensures Parse(lines, width) == Ok(Regions(doc, 0, 0, width)) {
      DocumentParses(lines, 0, doc, START, width);
      assert START.regions + Regions(doc, 0, 0, width) == Regions(doc, 0, 0, width);
    }
  }
}
