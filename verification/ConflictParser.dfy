/** The parser as internal/git/conflicts.go runs it: loops over the file's lines and its candidate widths. */
module ConflictParser {
  import opened Options
  import opened Strings
  import opened ConflictGrammar
  import opened ConflictParsing
  import opened ConflictFile

  // ----- lines of text --------------------------------------------------------------------------

  function TrimCR(line: string): string {
    if line != "" && line[|line| - 1] == '\r' then line[..|line| - 1] else line
  }

  function FileLines(content: string): seq<string> {
    var lines := Split(content, '\n');
    seq(|lines|, i requires 0 <= i < |lines| => TrimCR(lines[i]))
  }

  // The text of lines, each ended by LF, or by CRLF where `crs` says so; the last one is not ended by LF.
  function Join(lines: seq<string>, crs: seq<bool>): string
    requires |lines| == |crs| > 0
  {
    var first := lines[0] + (if crs[0] then "\r" else "");
    if |lines| == 1 then first else first + "\n" + Join(lines[1..], crs[1..])
  }

  ghost predicate PlainLine(line: string) { '\n' !in line && (line != "" ==> line[|line| - 1] != '\r') }

  lemma FileLine(line: string, cr: bool, rest: string)
    requires PlainLine(line)
    ensures var first := line + (if cr then "\r" else "");
            FileLines(first + "\n" + rest) == [line] + FileLines(rest) && FileLines(first) == [line]
  {
    hide Split;
    var first := line + (if cr then "\r" else "");
    SplitFirst(first, '\n', rest);
    assert TrimCR(first) == line by { if cr { assert first[..|first| - 1] == line; } }
    hide TrimCR, PlainLine;
    assert FileLines(first) == [line];
    var lines := Split(rest, '\n');
    assert Split(first + "\n" + rest, '\n')[0] == first && Split(first + "\n" + rest, '\n')[1..] == lines;
  }

  /** Splitting joined lines gives the lines back, whichever of them ended in CRLF. */
  lemma {:induction false} JoinReadsBack(lines: seq<string>, crs: seq<bool>)
    requires |lines| == |crs| > 0 && forall i :: 0 <= i < |lines| ==> PlainLine(lines[i])
    ensures FileLines(Join(lines, crs)) == lines
  {
    hide PlainLine, FileLines;
    if |lines| == 1 {
      FileLine(lines[0], crs[0], "");
    } else {
      JoinReadsBack(lines[1..], crs[1..]);
      FileLine(lines[0], crs[0], Join(lines[1..], crs[1..]));
    }
  }

  // ----- markerRun ------------------------------------------------------------------------------

  // markerRun; a positive exactWidth fixes the width, otherwise minWidth bounds it.
  method MarkerRun(line: string, ch: char, exactWidth: nat, minWidth: nat) returns (width: nat, mark: string, ok: bool)
    ensures exactWidth > 0 ==> (ok <==> IsMark(line, ch, exactWidth))
    ensures exactWidth > 0 && ok ==> width == exactWidth && MarkAt(line, ch, exactWidth) == Some(mark)
    ensures exactWidth == 0 && ch == OURS ==> (ok <==> Opens(line, minWidth))
    ensures exactWidth == 0 && ok ==> width == Run(line, ch) && MarkAt(line, ch, width) == Some(mark)
  {
    var n := 0;
    while n < |line| && line[n] == ch
      invariant n <= |line| && Run(line, ch) == n + Run(line[n..], ch)
    {
      assert line[n..][1..] == line[n + 1..];
      n := n + 1;
    }
    assert Run(line, ch) == n;
    width, mark, ok := 0, "", false;
    if exactWidth > 0 {
      if n != exactWidth {
        return;
      }
    } else if n < minWidth {
      return;
    }
    var rest := line[n..];
    if rest == "" {
      return n, "", true;
    } else if rest[0] == ' ' {
      return n, rest[1..], true;
    }
  }

  // ----- openingWidths --------------------------------------------------------------------------

  ghost predicate Ascending(xs: seq<nat>) { forall i, j :: 0 <= i < j < |xs| ==> xs[i] < xs[j] }

  function Elements(xs: seq<nat>): set<nat> { set x | x in xs }

  lemma Snoc(xs: seq<nat>, x: nat)
    requires Ascending(xs) && forall v :: v in xs ==> v < x
    ensures Ascending(xs + [x])
  {
    assert forall i :: 0 <= i < |xs| ==> xs[i] in xs;
  }

  // One element into its place; sort.Ints over the distinct widths found.
  method InsertSorted(xs: seq<nat>, w: nat) returns (ys: seq<nat>)
    requires Ascending(xs) && w !in xs
    ensures Ascending(ys) && Elements(ys) == Elements(xs) + {w}
    ensures |ys| == |xs| + 1
  {
    var i := 0;
    while i < |xs| && xs[i] < w
      invariant i <= |xs| && forall k :: 0 <= k < i ==> xs[k] < w
    {
      i := i + 1;
    }
    ys := xs[..i] + [w] + xs[i..];
    assert forall x :: x in xs ==> x in xs[..i] || x in xs[i..];
    assert forall k :: i <= k < |xs| ==> w < xs[k];
  }

  method OpeningWidths(lines: seq<string>, markerSize: nat) returns (widths: seq<nat>)
    ensures Ascending(widths) && Elements(widths) == Widths(lines, markerSize)
  {
    widths := [];
    for i := 0 to |lines|
      invariant Ascending(widths) && Elements(widths) == Widths(lines[..i], markerSize)
    {
      var w, _, ok := MarkerRun(lines[i], OURS, 0, markerSize);
      assert lines[..i + 1] == lines[..i] + [lines[i]];
      WidthsAppend(lines[..i], lines[i], markerSize);
      if ok {
        if w in widths {
          assert w in Elements(widths);
        } else {
          widths := InsertSorted(widths, w);
        }
      }
    }
    assert lines[..|lines|] == lines;
  }

  lemma WidthsAppend(lines: seq<string>, line: string, size: nat)
    ensures Widths(lines + [line], size) == Widths(lines, size) + (if Opens(line, size) then {Run(line, OURS)} else {})
  {
    var all := lines + [line];
    assert forall x :: x in all <==> x in lines || x == line;
    forall w | w in Widths(lines, size) ensures w in Widths(all, size) {
      var x :| x in lines && Opens(x, size) && Run(x, OURS) == w;
      assert x in all;
    }
  }

  // ----- parseAtWidth ---------------------------------------------------------------------------

  method ParseAtWidth(lines: seq<string>, w: nat) returns (r: Result<seq<Region>, ParseError>)
    requires 0 < w
    ensures r == Parse(lines, w)
  {
    var regions: seq<Region> := [];
    var section := Outside;
    var cur := NO_REGION;
    var i := 0;
    while i < |lines|
      invariant i <= |lines|
      invariant ParseFrom(lines, i, Machine(section, cur, regions), w) == Parse(lines, w)
    {
      var line := lines[i];
      var lineNo := i + 1;
      match section {
        case Outside =>
          var _, mark, ok := MarkerRun(line, OURS, w, 0);
          if ok {
            cur := Region(|regions|, lineNo, 0, [], [], [], false, mark, "");
            section := InOurs;
          }
        case InOurs =>
          var _, _, base := MarkerRun(line, BASE, w, 0);
          var _, _, sep := MarkerRun(line, SEP, w, 0);
          var _, _, ours := MarkerRun(line, OURS, w, 0);
          var _, _, theirs := MarkerRun(line, THEIRS, w, 0);
          if base {
            cur := cur.(hasBase := true);
            section := InBase;
          } else if sep {
            section := InTheirs;
          } else if ours || theirs {
            return Err(Malformed(lineNo));
          } else {
            cur := cur.(ours := cur.ours + [line]);
          }
        case InBase =>
          var _, _, base := MarkerRun(line, BASE, w, 0);
          var _, _, sep := MarkerRun(line, SEP, w, 0);
          var _, _, ours := MarkerRun(line, OURS, w, 0);
          var _, _, theirs := MarkerRun(line, THEIRS, w, 0);
          if sep {
            section := InTheirs;
          } else if ours || base || theirs {
            return Err(Malformed(lineNo));
          } else {
            cur := cur.(base := cur.base + [line]);
          }
        case InTheirs =>
          var _, _, base := MarkerRun(line, BASE, w, 0);
          var _, _, sep := MarkerRun(line, SEP, w, 0);
          var _, _, ours := MarkerRun(line, OURS, w, 0);
          var _, mark, theirs := MarkerRun(line, THEIRS, w, 0);
          if theirs {
            regions := regions + [cur.(endLine := lineNo, theirLabel := mark)];
            section := Outside;
          } else if ours || sep || base {
            return Err(Malformed(lineNo));
          } else {
            cur := cur.(theirs := cur.theirs + [line]);
          }
      }
      i := i + 1;
    }
    if section != Outside {
      return Err(Unterminated(cur.startLine));
    }
    return Ok(regions);
  }

  // ----- parseConflictRegions -------------------------------------------------------------------

  function MarkerSize(markerSize: int): nat { if markerSize < 1 then DEFAULT_MARKER_SIZE else markerSize }

  // What trying each width in turn collects: the clean parses, and the first failure.
  function CleanWidths(lines: seq<string>, widths: seq<nat>): seq<nat> {
    if widths == [] then []
    else
      var w := widths[|widths| - 1];
      var parse := Parse(lines, w);
      CleanWidths(lines, widths[..|widths| - 1]) + (if parse.Ok? && parse.value != [] then [w] else [])
  }

  function FirstErr(lines: seq<string>, widths: seq<nat>): Option<ParseError> {
    if widths == [] then None
    else
      var before := FirstErr(lines, widths[..|widths| - 1]);
      var parse := Parse(lines, widths[|widths| - 1]);
      if before.None? && parse.Err? then Some(parse.error) else before
  }

  lemma {:induction false} CleanWidthsFilter(lines: seq<string>, widths: seq<nat>)
    requires Ascending(widths)
    ensures Ascending(CleanWidths(lines, widths))
    ensures forall w :: w in CleanWidths(lines, widths) <==> w in widths && Parse(lines, w).Ok? && Parse(lines, w).value != []
  {
    hide Parse;
    if widths != [] {
      var init, w := widths[..|widths| - 1], widths[|widths| - 1];
      assert widths == init + [w];
      CleanWidthsFilter(lines, init);
      assert forall v :: v in init ==> v < w;
      Snoc(CleanWidths(lines, init), w);
    }
  }

  lemma {:induction false} FirstErrIsFirst(lines: seq<string>, widths: seq<nat>)
    requires widths != []
    ensures Parse(lines, widths[0]).Err? ==> FirstErr(lines, widths) == Some(Parse(lines, widths[0]).error)
  {
    hide Parse;
    if |widths| > 1 {
      FirstErrIsFirst(lines, widths[..|widths| - 1]);
    } else {
      assert widths[..|widths| - 1] == [];
    }
  }

  method ParseConflictRegions(content: string, markerSize: int) returns (r: Result<seq<Region>, ParseError>)
    ensures r == ParseFile(FileLines(content), MarkerSize(markerSize))
  {
    var size := MarkerSize(markerSize);
    var lines := FileLines(content);
    var widths := OpeningWidths(lines, size);
    if |widths| == 0 {
      WidthsOf(lines, size, widths);
      return Ok([]);
    }
    if |widths| > MAX_CANDIDATE_WIDTHS {
      WidthsOf(lines, size, widths);
      return Err(TooManyWidths);
    }
    var cleanParses: seq<seq<Region>> := [];
    ghost var clean: seq<nat> := [];
    var firstErr: Option<ParseError> := None;
    for i := 0 to |widths|
      invariant clean == CleanWidths(lines, widths[..i]) && firstErr == FirstErr(lines, widths[..i])
      invariant |clean| == |cleanParses| && forall k :: 0 <= k < |clean| ==> Parse(lines, clean[k]) == Ok(cleanParses[k])
    {
      hide Parse;
      var w := widths[i];
      assert widths[..i + 1][..i] == widths[..i] && w in Elements(widths);
      CandidateIsPositive(lines, size, w);
      var regions := ParseAtWidth(lines, w);
      if regions.Ok? && regions.value != [] {
        cleanParses := cleanParses + [regions.value];
        clean := clean + [w];
      } else if regions.Err? && firstErr.None? {
        firstErr := Some(regions.error);
      }
    }
    assert widths[..|widths|] == widths;
    Choice(lines, size, widths);
    if |cleanParses| == 1 {
      return Ok(cleanParses[0]);
    } else if |cleanParses| > 1 {
      return Err(Ambiguous);
    } else if firstErr.Some? {
      return Err(firstErr.value);
    } else {
      assert false;
    }
  }

  lemma {:induction false} SortedCount(xs: seq<nat>)
    requires Ascending(xs)
    ensures |Elements(xs)| == |xs|
  {
    if xs != [] {
      var init, x := xs[..|xs| - 1], xs[|xs| - 1];
      SortedCount(init);
      assert xs == init + [x] && x !in init;
      assert Elements(xs) == Elements(init) + {x};
    }
  }

  lemma CandidateIsPositive(lines: seq<string>, size: nat, w: nat)
    requires 0 < size && w in Widths(lines, size)
    ensures 0 < w
  {
  }

  lemma WidthsOf(lines: seq<string>, size: nat, widths: seq<nat>)
    requires Ascending(widths) && Elements(widths) == Widths(lines, size)
    ensures |Widths(lines, size)| == |widths| && (widths == [] ==> Widths(lines, size) == {})
    ensures forall w: nat :: w in widths <==> w in Widths(lines, size)
    ensures forall w: nat :: IsLeast(w, Widths(lines, size)) ==> widths != [] && w == widths[0]
  {
    hide Widths;
    SortedCount(widths);
    assert forall w: nat :: w in Elements(widths) <==> w in widths;
    forall w: nat | IsLeast(w, Widths(lines, size)) ensures widths != [] && w == widths[0] {
      var i :| 0 <= i < |widths| && widths[i] == w;
      assert widths[0] in Elements(widths);
    }
  }

  /** What the loop over the widths collected decides the file as the specification says; the source's last branch is dead. */
  lemma Choice(lines: seq<string>, size: nat, widths: seq<nat>)
    requires 0 < size && Ascending(widths) && Elements(widths) == Widths(lines, size) && 0 < |widths| <= MAX_CANDIDATE_WIDTHS
    ensures var clean := CleanWidths(lines, widths); var firstErr := FirstErr(lines, widths); var r := ParseFile(lines, size);
            if |clean| == 1 then r == Parse(lines, clean[0])
            else if |clean| > 1 then r == Err(Ambiguous)
            else firstErr.Some? && r == Err(firstErr.value)
  {
    hide Parse, Widths, CleanWidths, FirstErr, Ascending, IsLeast;
    var all, clean := Widths(lines, size), CleanWidths(lines, widths);
    WidthsOf(lines, size, widths);
    CleanWidthsFilter(lines, widths);
    SortedCount(clean);
    FirstErrIsFirst(lines, widths);
    forall w: nat | w in all && Parse(lines, w).Ok? ensures Parse(lines, w).value != [] { CandidateYields(lines, size, w); }
    assert Clean(lines, all) == Elements(clean);
    assert widths[0] in widths;
    LeastExists(all);
    if |clean| == 1 {
      assert clean[0] in clean && forall w :: w in clean ==> w == clean[0];
    } else if |clean| == 0 {
      assert Parse(lines, widths[0]).Err?;
    }
  }

  /** The round trip on text: LF or CRLF line ends, chosen line by line, do not matter. */
  lemma TextRoundTrip(gaps: seq<seq<string>>, xs: seq<Sides>, markerSize: int, width: nat, crs: seq<bool>)
    requires MarkerSize(markerSize) <= width && xs != [] && Renderable(gaps, xs, width)
    requires var lines := Unparse(RenderAll(gaps, xs, width)); |lines| == |crs| > 0 && forall i :: 0 <= i < |lines| ==> PlainLine(lines[i])
    ensures var lines := Unparse(RenderAll(gaps, xs, width));
            ParseFile(FileLines(Join(lines, crs)), MarkerSize(markerSize)) == Ok(Regions(RenderAll(gaps, xs, width), 0, 0, width))
            <==> |Widths(lines, MarkerSize(markerSize))| <= MAX_CANDIDATE_WIDTHS
                 && forall w :: w in Widths(lines, MarkerSize(markerSize)) && w != width ==> Parse(lines, w).Err?
  {
    hide ParseFile, FileLines, Join, Widths, Parse, RenderAll, Unparse, PlainLine, NoMark, NoOpener;
    JoinReadsBack(Unparse(RenderAll(gaps, xs, width)), crs);
    RoundTrip(gaps, xs, MarkerSize(markerSize), width);
  }
}
