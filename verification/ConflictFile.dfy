/** Parsing a whole file: candidate widths, the choice among them, text lines, and the round trip. */
module ConflictFile {
  import opened Options
  import opened ConflictGrammar
  import opened ConflictParsing

  const DEFAULT_MARKER_SIZE: nat := 7
  const MAX_CANDIDATE_WIDTHS: nat := 8

  // ----- candidate widths -----------------------------------------------------------------------

  // An opening marker of at least the given size.
  predicate Opens(line: string, size: nat) {
    Run(line, OURS) >= size && LabelOf(line[Run(line, OURS)..]).Some?
  }

  function Widths(lines: seq<string>, size: nat): set<nat> {
    set line | line in lines && Opens(line, size) :: Run(line, OURS)
  }

  function Clean(lines: seq<string>, widths: set<nat>): set<nat> { set w | w in widths && Parse(lines, w).Ok? }

  ghost predicate IsLeast(w: nat, widths: set<nat>) { w in widths && forall v :: v in widths ==> w <= v }

  lemma LeastExists(widths: set<nat>)
    requires widths != {}
    ensures exists w :: IsLeast(w, widths)
  {
    var w :| w in widths;
    if widths != {w} {
      LeastExists(widths - {w});
      var v :| IsLeast(v, widths - {w});
      assert forall u :: u in widths ==> u == w || u in widths - {w};
      assert IsLeast(if v < w then v else w, widths);
    } else {
      assert IsLeast(w, widths);
    }
  }

  // parseConflictRegions on the lines of a file.
  ghost function ParseFile(lines: seq<string>, size: nat): Result<seq<Region>, ParseError> {
    var widths := Widths(lines, size);
    if widths == {} then Ok([])
    else if |widths| > MAX_CANDIDATE_WIDTHS then Err(TooManyWidths)
    else
      var clean := Clean(lines, widths);
      if |clean| > 1 then Err(Ambiguous)
      else if |clean| == 1 then var w :| w in clean; Parse(lines, w)
      else LeastExists(widths); var w :| IsLeast(w, widths); Parse(lines, w)
  }

  // ----- what a parse accounts for --------------------------------------------------------------

  // The region's lines are one well-formed conflict, each exactly once a marker or content of one side.
  ghost predicate RegionAt(lines: seq<string>, r: Region, width: nat) {
    && 1 <= r.startLine <= r.endLine <= |lines|
    && exists c :: ConflictOk(c, width) && lines[r.startLine - 1..r.endLine] == Lines(c) && r == RegionOf(c, r.index, r.startLine, width)
  }

  // Ordered, disjoint regions with no opening marker outside them.
  ghost predicate Accounts(lines: seq<string>, regions: seq<Region>, width: nat) {
    && (forall k :: 0 <= k < |regions| ==> regions[k].index == k && RegionAt(lines, regions[k], width))
    && (forall j, k :: 0 <= j < k < |regions| ==> regions[j].endLine < regions[k].startLine)
    && (forall i :: 0 <= i < |lines| && IsMark(lines[i], OURS, width) ==> exists k :: 0 <= k < |regions| && Covers(regions[k], i + 1))
  }

  predicate Covers(r: Region, lineNo: nat) { r.startLine <= lineNo <= r.endLine }

  lemma FirstRegion(lines: seq<string>, before: nat, text: seq<string>, c: Conflict, rest: seq<string>, index: nat, width: nat)
    requires before <= |lines| && lines[before..] == text + Lines(c) + rest && ConflictOk(c, width)
    ensures RegionAt(lines, RegionOf(c, index, before + |text| + 1, width), width)
    ensures RegionOf(c, index, before + |text| + 1, width).endLine == before + |text| + |Lines(c)|
  {
    hide ConflictOk, AfterOurs, MarkAt;
    Parts(lines, before, text, Lines(c), rest);
    var r := RegionOf(c, index, before + |text| + 1, width);
    assert lines[r.startLine - 1..r.endLine] == Lines(c);
  }

  lemma {:induction false} RegionsAccount(lines: seq<string>, before: nat, doc: Document, index: nat, width: nat)
    requires DocumentOk(doc, width) && before <= |lines| && lines[before..] == Unparse(doc)
    ensures var rs := Regions(doc, index, before, width);
            && (forall k :: 0 <= k < |rs| ==> rs[k].index == index + k && RegionAt(lines, rs[k], width) && before < rs[k].startLine)
            && (forall j, k :: 0 <= j < k < |rs| ==> rs[j].endLine < rs[k].startLine)
            && (forall i :: before <= i < |lines| && IsMark(lines[i], OURS, width) ==> exists k :: 0 <= k < |rs| && Covers(rs[k], i + 1))
    decreases doc
  {
    hide ConflictOk, Lines, IsMark, RegionAt, RegionOf;
    var rs := Regions(doc, index, before, width);
    match doc
    case End(text) =>
      forall i | before <= i < |lines| ensures !IsMark(lines[i], OURS, width) { assert lines[i] == text[i - before]; }
    case Then(text, c, rest) =>
      var after := before + |text| + |Lines(c)|;
      Parts(lines, before, text, Lines(c), Unparse(rest));
      FirstRegion(lines, before, text, c, Unparse(rest), index, width);
      RegionsAccount(lines, after, rest, index + 1, width);
      var tail := Regions(rest, index + 1, after, width);
      assert rs == [rs[0]] + tail;
      RegionSpan(c, index, before + |text| + 1, width);
      forall i | before <= i < before + |text| ensures !IsMark(lines[i], OURS, width) {
        assert lines[i] == lines[before..before + |text|][i - before];
      }
      forall i | before <= i < |lines| && IsMark(lines[i], OURS, width) ensures exists k :: 0 <= k < |rs| && Covers(rs[k], i + 1) {
        if i < after {
          assert Covers(rs[0], i + 1);
        } else {
          var k :| 0 <= k < |tail| && Covers(tail[k], i + 1);
          assert Covers(rs[k + 1], i + 1);
        }
      }
  }

  lemma RegionSpan(c: Conflict, index: nat, startLine: nat, width: nat)
    ensures var r := RegionOf(c, index, startLine, width);
            r.index == index && r.startLine == startLine && r.endLine == startLine + |Lines(c)| - 1
  {
  }

  /** A parse at a width yields ordered, disjoint regions that account for every line of each, and misses no opener. */
  lemma ParseAccounts(lines: seq<string>, width: nat)
    requires 0 < width && Parse(lines, width).Ok?
    ensures Accounts(lines, Parse(lines, width).value, width)
  {
    hide Parse, RegionAt;
    ParseIffDocument(lines, width, Parse(lines, width).value);
    var doc :| Reads(doc, lines, width) && Parse(lines, width).value == Regions(doc, 0, 0, width);
    WholeAccounts(lines, doc, width);
  }

  lemma WholeAccounts(lines: seq<string>, doc: Document, width: nat)
    requires DocumentOk(doc, width) && Unparse(doc) == lines
    ensures Accounts(lines, Regions(doc, 0, 0, width), width)
  {
    assert lines[0..] == lines;
    RegionsAccount(lines, 0, doc, 0, width);
    hide Regions, RegionAt, DocumentOk, Unparse, IsMark, Covers;
  }

  /** Every candidate width either fails or yields a region. */
  lemma CandidateYields(lines: seq<string>, size: nat, width: nat)
    requires 0 < size && width in Widths(lines, size) && Parse(lines, width).Ok?
    ensures Parse(lines, width).value != []
  {
    hide Parse, RegionAt;
    ParseAccounts(lines, width);
    var line :| line in lines && Opens(line, size) && Run(line, OURS) == width;
    var i :| 0 <= i < |lines| && lines[i] == line;
    assert IsMark(lines[i], OURS, width);
  }

  // ----- the choice -----------------------------------------------------------------------------

  // width is the only candidate that parses, and there are few enough of them.
  ghost predicate OnlyClean(lines: seq<string>, size: nat, width: nat) {
    && |Widths(lines, size)| <= MAX_CANDIDATE_WIDTHS && width in Widths(lines, size) && Parse(lines, width).Ok?
    && forall w :: w in Widths(lines, size) && w != width ==> Parse(lines, w).Err?
  }

  lemma OnlyCleanDecides(lines: seq<string>, size: nat, w: nat)
    requires 0 < size && OnlyClean(lines, size, w)
    ensures ParseFile(lines, size) == Parse(lines, w) && Parse(lines, w).Ok? && Parse(lines, w).value != []
  {
    hide Parse, Widths;
    CandidateYields(lines, size, w);
    assert Clean(lines, Widths(lines, size)) == {w};
  }

  lemma NoneClean(lines: seq<string>, size: nat)
    requires Widths(lines, size) != {} && Clean(lines, Widths(lines, size)) == {}
    ensures ParseFile(lines, size).Err?
  {
    hide Parse, Widths;
    LeastExists(Widths(lines, size));
    forall w: nat | IsLeast(w, Widths(lines, size)) ensures Parse(lines, w).Err? {
      assert w !in Clean(lines, Widths(lines, size));
    }
  }

  lemma SuccessIsClean(lines: seq<string>, size: nat) returns (w: nat)
    requires 0 < size && ParseFile(lines, size).Ok? && Widths(lines, size) != {}
    ensures OnlyClean(lines, size, w)
  {
    hide Parse, Widths;
    var clean := Clean(lines, Widths(lines, size));
    if clean == {} { NoneClean(lines, size); }
    w :| w in clean;
    assert |clean - {w}| == |clean| - 1;
    assert forall v :: v in clean ==> v == w || v in clean - {w};
    assert forall v :: v in Widths(lines, size) && Parse(lines, v).Ok? ==> v in clean;
  }

  /** A file succeeds with regions exactly when one candidate width, of at most eight, parses; they are that parse's. */
  lemma FileIff(lines: seq<string>, size: nat, regions: seq<Region>)
    requires 0 < size
    ensures ParseFile(lines, size) == Ok(regions) && regions != []
            <==> exists w: nat :: OnlyClean(lines, size, w) && Parse(lines, w) == Ok(regions)
    ensures ParseFile(lines, size) == Ok([]) <==> Widths(lines, size) == {}
  {
    assert Widths(lines, size) == {} ==> ParseFile(lines, size) == Ok([]);
    hide Parse, Widths, ParseFile, OnlyClean;
    forall w: nat | OnlyClean(lines, size, w)
      ensures ParseFile(lines, size) == Parse(lines, w) && Parse(lines, w).Ok? && Parse(lines, w).value != []
    {
      OnlyCleanDecides(lines, size, w);
    }
    if ParseFile(lines, size).Ok? && Widths(lines, size) != {} {
      var w := SuccessIsClean(lines, size);
      assert OnlyClean(lines, size, w);
    }
  }

  /** An empty success means no opening marker at all, and any success accounts for every opener at its width. */
  lemma FileAccounts(lines: seq<string>, size: nat)
    requires 0 < size && ParseFile(lines, size).Ok?
    ensures ParseFile(lines, size).value == [] ==> forall line :: line in lines ==> !Opens(line, size)
    ensures ParseFile(lines, size).value != [] ==>
              exists w :: size <= w && w in Widths(lines, size) && Accounts(lines, ParseFile(lines, size).value, w)
  {
    hide Parse, ParseFile, Accounts;
    var regions := ParseFile(lines, size).value;
    FileIff(lines, size, regions);
    if regions == [] {
      assert forall line :: line in lines && Opens(line, size) ==> Run(line, OURS) in Widths(lines, size);
    } else {
      var w :| OnlyClean(lines, size, w) && Parse(lines, w) == Ok(regions);
      ParseAccounts(lines, w);
    }
  }

  // ----- rendering ------------------------------------------------------------------------------

  function Repeat(ch: char, n: nat): (s: string)
    ensures |s| == n && forall i :: 0 <= i < n ==> s[i] == ch
  {
    if n == 0 then "" else [ch] + Repeat(ch, n - 1)
  }

  function Marker(ch: char, width: nat, text: string): string {
    Repeat(ch, width) + (if text == "" then "" else " " + text)
  }

  lemma {:induction false} RunOfMarker(ch: char, width: nat, rest: string)
    requires ch != ' ' && (rest == "" || rest[0] == ' ')
    ensures Run(Repeat(ch, width) + rest, ch) == width
  {
    if width > 0 {
      RunOfMarker(ch, width - 1, rest);
      assert (Repeat(ch, width) + rest)[1..] == Repeat(ch, width - 1) + rest;
    }
  }

  /** A rendered marker is read back as a marker of its width with its label. */
  lemma MarkerReadsBack(ch: char, width: nat, text: string)
    requires ch != ' '
    ensures MarkAt(Marker(ch, width, text), ch, width) == Some(text)
  {
    var rest := if text == "" then "" else " " + text;
    RunOfMarker(ch, width, rest);
    assert Marker(ch, width, text)[width..] == rest;
  }

  /** One side-by-side conflict to render: contents, labels, and the base section when there is one. */
  datatype Sides = Sides(
    ours: seq<string>, base: Option<seq<string>>, theirs: seq<string>, oursLabel: string, baseLabel: string, theirLabel: string)

  function Render(x: Sides, width: nat): Conflict {
    Conflict(Marker(OURS, width, x.oursLabel), x.ours,
             if x.base.Some? then Some(Marker(BASE, width, x.baseLabel)) else None, x.base.GetOr([]),
             Marker(SEP, width, ""), x.theirs, Marker(THEIRS, width, x.theirLabel))
  }

  // Plain text between conflicts, ending with plain text.
  function RenderAll(gaps: seq<seq<string>>, xs: seq<Sides>, width: nat): Document
    requires |gaps| == |xs| + 1
  {
    if xs == [] then End(gaps[0]) else Then(gaps[0], Render(xs[0], width), RenderAll(gaps[1..], xs[1..], width))
  }

  // Content free of markers at the rendering width.
  ghost predicate Renderable(gaps: seq<seq<string>>, xs: seq<Sides>, width: nat) {
    && |gaps| == |xs| + 1
    && (forall g :: g in gaps ==> NoOpener(g, width))
    && (forall x :: x in xs ==> NoMark(x.ours, width) && NoMark(x.base.GetOr([]), width) && NoMark(x.theirs, width))
  }

  lemma RenderOk(x: Sides, width: nat)
    requires NoMark(x.ours, width) && NoMark(x.base.GetOr([]), width) && NoMark(x.theirs, width)
    ensures ConflictOk(Render(x, width), width)
  {
    hide AnyMark, MarkAt, Marker;
    MarkerReadsBack(OURS, width, x.oursLabel);
    MarkerReadsBack(BASE, width, x.baseLabel);
    MarkerReadsBack(SEP, width, "");
    MarkerReadsBack(THEIRS, width, x.theirLabel);
  }

  lemma {:induction false} RenderAllOk(gaps: seq<seq<string>>, xs: seq<Sides>, width: nat)
    requires Renderable(gaps, xs, width)
    ensures DocumentOk(RenderAll(gaps, xs, width), width)
  {
    hide NoMark, NoOpener, ConflictOk, Render;
    assert gaps[0] in gaps;
    if xs != [] {
      RenderOk(xs[0], width);
      assert Renderable(gaps[1..], xs[1..], width) by {
        assert forall g :: g in gaps[1..] ==> g in gaps;
        assert forall x :: x in xs[1..] ==> x in xs;
      }
      RenderAllOk(gaps[1..], xs[1..], width);
    }
  }

  // What the parser must return for the rendered sides, at the lines they were rendered on.
  ghost predicate SameSides(r: Region, x: Sides) {
    && r.ours == x.ours && r.theirs == x.theirs && r.hasBase == x.base.Some? && r.base == x.base.GetOr([])
    && r.oursLabel == x.oursLabel && r.theirLabel == x.theirLabel
  }

  lemma {:induction false} RenderedRegions(gaps: seq<seq<string>>, xs: seq<Sides>, index: nat, before: nat, width: nat)
    requires |gaps| == |xs| + 1
    ensures var rs := Regions(RenderAll(gaps, xs, width), index, before, width);
            |rs| == |xs| && forall k :: 0 <= k < |xs| ==> rs[k].index == index + k && SameSides(rs[k], xs[k])
  {
    hide Lines, OursOn, MarkAt, Marker;
    if xs != [] {
      var after := before + |gaps[0]| + |Lines(Render(xs[0], width))|;
      RenderedRegions(gaps[1..], xs[1..], index + 1, after, width);
      MarkerReadsBack(OURS, width, xs[0].oursLabel);
      MarkerReadsBack(THEIRS, width, xs[0].theirLabel);
      var rs := Regions(RenderAll(gaps, xs, width), index, before, width);
      assert rs == [rs[0]] + Regions(RenderAll(gaps[1..], xs[1..], width), index + 1, after, width);
    }
  }

  // Every conflict rendered at a width at or above the marker size makes that width a candidate.
  lemma RenderedCandidate(gaps: seq<seq<string>>, xs: seq<Sides>, size: nat, width: nat)
    requires |gaps| == |xs| + 1 && xs != [] && size <= width
    ensures width in Widths(Unparse(RenderAll(gaps, xs, width)), size)
  {
    var c := Render(xs[0], width);
    var lines := Unparse(RenderAll(gaps, xs, width));
    MarkerReadsBack(OURS, width, xs[0].oursLabel);
    assert lines[|gaps[0]|] == c.open;
    assert c.open in lines && Opens(c.open, size) && Run(c.open, OURS) == width;
  }

  /**
   Round trip: rendering any conflicts at a width at or above the marker size and parsing returns exactly those
   conflicts, in order, if and only if no other candidate width parses and there are at most eight.
   */
  lemma RoundTrip(gaps: seq<seq<string>>, xs: seq<Sides>, size: nat, width: nat)
    requires 0 < size <= width && xs != [] && Renderable(gaps, xs, width)
    ensures var lines := Unparse(RenderAll(gaps, xs, width));
            var regions := Regions(RenderAll(gaps, xs, width), 0, 0, width);
            && |regions| == |xs| && (forall k :: 0 <= k < |xs| ==> regions[k].index == k && SameSides(regions[k], xs[k]))
            && (ParseFile(lines, size) == Ok(regions)
                <==> |Widths(lines, size)| <= MAX_CANDIDATE_WIDTHS
                     && forall w :: w in Widths(lines, size) && w != width ==> Parse(lines, w).Err?)
  {
    hide ParseFile, Parse, Regions, RenderAll, SameSides, Widths, DocumentOk, Unparse, NoMark, NoOpener;
    var doc := RenderAll(gaps, xs, width);
    var lines := Unparse(doc);
    var regions := Regions(doc, 0, 0, width);
    RenderAllOk(gaps, xs, width);
    RenderedRegions(gaps, xs, 0, 0, width);
    RenderedCandidate(gaps, xs, size, width);
    assert Reads(doc, lines, width);
    ParseIffDocument(lines, width, regions);
    FileIff(lines, size, regions);
    if |Widths(lines, size)| <= MAX_CANDIDATE_WIDTHS && forall w :: w in Widths(lines, size) && w != width ==> Parse(lines, w).Err? {
      assert OnlyClean(lines, size, width);
    }
    if ParseFile(lines, size) == Ok(regions) {
      var w: nat :| OnlyClean(lines, size, w) && Parse(lines, w) == Ok(regions);
      assert w == width;
    }
  }
}
