/**
 The conflict-marker grammar of internal/git/conflicts.go: the line machine that parses at one marker
 width, and the documents it accepts, as an independent definition.
 */
module ConflictGrammar {
  import opened Options

  // ----- markers --------------------------------------------------------------------------------

  // The length of the leading run of ch.
  function Run(line: string, ch: char): (n: nat)
    ensures n <= |line|
    ensures forall i :: 0 <= i < n ==> line[i] == ch
    ensures n < |line| ==> line[n] != ch
  {
    if line != "" && line[0] == ch then 1 + Run(line[1..], ch) else 0
  }

  // What follows the run of a marker: nothing, or a space and the label.
  function LabelOf(rest: string): Option<string> {
    if rest == "" then Some("") else if rest[0] == ' ' then Some(rest[1..]) else None
  }

  // markerRun with an exact width.
  function MarkAt(line: string, ch: char, width: nat): Option<string> {
    if Run(line, ch) != width then None else LabelOf(line[width..])
  }

  predicate IsMark(line: string, ch: char, width: nat) { MarkAt(line, ch, width).Some? }

  const OURS := '<'
  const BASE := '|'
  const SEP := '='
  const THEIRS := '>'

  predicate AnyMark(line: string, width: nat) {
    IsMark(line, OURS, width) || IsMark(line, BASE, width) || IsMark(line, SEP, width) || IsMark(line, THEIRS, width)
  }

  // ----- the line machine -----------------------------------------------------------------------

  datatype Region = Region(
    index: nat, startLine: nat, endLine: nat, ours: seq<string>, base: seq<string>, theirs: seq<string>,
    hasBase: bool, oursLabel: string, theirLabel: string)

  datatype Section = Outside | InOurs | InBase | InTheirs

  datatype ParseError = Malformed(line: nat) | Unterminated(startLine: nat) | TooManyWidths | Ambiguous

  datatype Machine = Machine(section: Section, cur: Region, regions: seq<Region>)

  const NO_REGION := Region(0, 0, 0, [], [], [], false, "", "")

  const START := Machine(Outside, NO_REGION, [])

  // One line of parseAtWidth.
  function Feed(m: Machine, line: string, lineNo: nat, width: nat): Result<Machine, ParseError> {
    match m.section
    case Outside =>
      var mark := MarkAt(line, OURS, width);
      if mark.None? then Ok(m)
      else Ok(m.(section := InOurs, cur := Region(|m.regions|, lineNo, 0, [], [], [], false, mark.value, "")))
    case InOurs =>
      if IsMark(line, BASE, width) then Ok(m.(section := InBase, cur := m.cur.(hasBase := true)))
      else if IsMark(line, SEP, width) then Ok(m.(section := InTheirs))
      else if AnyMark(line, width) then Err(Malformed(lineNo))
      else Ok(m.(cur := m.cur.(ours := m.cur.ours + [line])))
    case InBase =>
      if IsMark(line, SEP, width) then Ok(m.(section := InTheirs))
      else if AnyMark(line, width) then Err(Malformed(lineNo))
      else Ok(m.(cur := m.cur.(base := m.cur.base + [line])))
    case InTheirs =>
      var mark := MarkAt(line, THEIRS, width);
      if mark.Some? then
        Ok(m.(section := Outside, regions := m.regions + [m.cur.(endLine := lineNo, theirLabel := mark.value)]))
      else if AnyMark(line, width) then Err(Malformed(lineNo))
      else Ok(m.(cur := m.cur.(theirs := m.cur.theirs + [line])))
  }

  // The machine over the lines from `i` on.
  function ParseFrom(lines: seq<string>, i: nat, m: Machine, width: nat): Result<seq<Region>, ParseError>
    requires i <= |lines|
    decreases |lines| - i
  {
    if i == |lines| then
      if m.section == Outside then Ok(m.regions) else Err(Unterminated(m.cur.startLine))
    else
      var next := Feed(m, lines[i], i + 1, width);
      if next.Err? then Err(next.error) else ParseFrom(lines, i + 1, next.value, width)
  }

  function Parse(lines: seq<string>, width: nat): Result<seq<Region>, ParseError> { ParseFrom(lines, 0, START, width) }

  // ----- documents ------------------------------------------------------------------------------

  /** One conflict as its lines: the four kinds of marker line and the content between them. */
  datatype Conflict = Conflict(
    open: string, ours: seq<string>, baseMark: Option<string>, base: seq<string>, sep: string, theirs: seq<string>, close: string)

  datatype Document = End(text: seq<string>) | Then(text: seq<string>, conflict: Conflict, rest: Document)

  // The lines of a conflict: all of them, and from each section on.
  function TheirsOn(c: Conflict): seq<string> { c.theirs + [c.close] }

  function BaseOn(c: Conflict): seq<string> { c.base + ([c.sep] + TheirsOn(c)) }

  function AfterOurs(c: Conflict): seq<string> {
    if c.baseMark.Some? then [c.baseMark.value] + BaseOn(c) else [c.sep] + TheirsOn(c)
  }

  function OursOn(c: Conflict): seq<string> { c.ours + AfterOurs(c) }

  function Lines(c: Conflict): seq<string> { [c.open] + OursOn(c) }

  function Unparse(doc: Document): seq<string> {
    match doc
    case End(text) => text
    case Then(text, c, rest) => text + Lines(c) + Unparse(rest)
  }

  ghost predicate NoOpener(text: seq<string>, width: nat) { forall line :: line in text ==> !IsMark(line, OURS, width) }

  ghost predicate NoMark(text: seq<string>, width: nat) { forall line :: line in text ==> !AnyMark(line, width) }

  // The lines of a conflict from each section on are well-formed.
  ghost predicate TheirsOk(c: Conflict, width: nat) { NoMark(c.theirs, width) && IsMark(c.close, THEIRS, width) }

  ghost predicate BaseOk(c: Conflict, width: nat) { NoMark(c.base, width) && IsMark(c.sep, SEP, width) && TheirsOk(c, width) }

  ghost predicate OursOk(c: Conflict, width: nat) {
    && NoMark(c.ours, width) && BaseOk(c, width)
    && (if c.baseMark.Some? then IsMark(c.baseMark.value, BASE, width) else c.base == [])
  }

  ghost predicate ConflictOk(c: Conflict, width: nat) { IsMark(c.open, OURS, width) && OursOk(c, width) }

  ghost predicate DocumentOk(doc: Document, width: nat) {
    match doc
    case End(text) => NoOpener(text, width)
    case Then(text, c, rest) => NoOpener(text, width) && ConflictOk(c, width) && DocumentOk(rest, width)
  }

  // The region a conflict is, at its place in the file.
  function RegionOf(c: Conflict, index: nat, startLine: nat, width: nat): Region {
    Region(index, startLine, startLine + |OursOn(c)|, c.ours, c.base, c.theirs, c.baseMark.Some?,
           MarkAt(c.open, OURS, width).GetOr(""), MarkAt(c.close, THEIRS, width).GetOr(""))
  }

  function Regions(doc: Document, index: nat, before: nat, width: nat): seq<Region> {
    match doc
    case End(_) => []
    case Then(text, c, rest) =>
      [RegionOf(c, index, before + |text| + 1, width)]
      + Regions(rest, index + 1, before + |text| + |Lines(c)|, width)
  }
}
