/**
 Path patterns over whole segments, declaratively: the segments of a pattern cover consecutive stretches of
 the path, "**" covering any stretch and any other segment exactly one name its glob accepts. `glob` stands
 for path.Match on one segment (false when it reports an error).
 */
module PathPatterns {
  type Glob = (string, string) -> bool

  const STARS := "**"

  predicate Covers(seg: string, part: seq<string>, glob: Glob) { seg == STARS || (|part| == 1 && glob(seg, part[0])) }

  function Flatten(parts: seq<seq<string>>): seq<string> { if parts == [] then [] else parts[0] + Flatten(parts[1..]) }

  ghost predicate CoveredBy(pat: seq<string>, parts: seq<seq<string>>, glob: Glob) {
    |parts| == |pat| && forall i :: 0 <= i < |pat| ==> Covers(pat[i], parts[i], glob)
  }

  ghost predicate Matches(pat: seq<string>, name: seq<string>, glob: Glob) {
    exists parts :: CoveredBy(pat, parts, glob) && Flatten(parts) == name
  }

  lemma {:induction false} FlattenSnoc(parts: seq<seq<string>>, last: seq<string>)
    ensures Flatten(parts + [last]) == Flatten(parts) + last
  {
    if parts != [] {
      FlattenSnoc(parts[1..], last);
      assert (parts + [last])[1..] == parts[1..] + [last];
    } else {
      assert parts + [last] == [last] && [last][1..] == [];
    }
  }

  // A pattern by its first segment, and by its last one.
  ghost predicate FirstCovers(seg: string, pat: seq<string>, name: seq<string>, j: nat, glob: Glob)
    requires j <= |name|
  {
    Covers(seg, name[..j], glob) && Matches(pat, name[j..], glob)
  }

  ghost predicate LastCovers(pat: seq<string>, seg: string, name: seq<string>, j: nat, glob: Glob)
    requires j <= |name|
  {
    Matches(pat, name[..j], glob) && Covers(seg, name[j..], glob)
  }

  lemma MatchesCons(seg: string, pat: seq<string>, name: seq<string>, glob: Glob)
    ensures Matches([seg] + pat, name, glob) <==> exists j :: 0 <= j <= |name| && FirstCovers(seg, pat, name, j, glob)
  {
    hide Covers;
    if Matches([seg] + pat, name, glob) {
      var parts :| CoveredBy([seg] + pat, parts, glob) && Flatten(parts) == name;
      var j := |parts[0]|;
      assert name[..j] == parts[0] && name[j..] == Flatten(parts[1..]);
      assert CoveredBy(pat, parts[1..], glob) by {
        forall i | 0 <= i < |pat| ensures Covers(pat[i], parts[1..][i], glob) { assert ([seg] + pat)[i + 1] == pat[i]; }
      }
      assert FirstCovers(seg, pat, name, j, glob);
    }
    if exists j :: 0 <= j <= |name| && FirstCovers(seg, pat, name, j, glob) {
      var j :| 0 <= j <= |name| && FirstCovers(seg, pat, name, j, glob);
      var parts :| CoveredBy(pat, parts, glob) && Flatten(parts) == name[j..];
      assert ([name[..j]] + parts)[1..] == parts && name == name[..j] + name[j..];
      assert CoveredBy([seg] + pat, [name[..j]] + parts, glob);
    }
  }

  lemma MatchesSnoc(pat: seq<string>, seg: string, name: seq<string>, glob: Glob)
    ensures Matches(pat + [seg], name, glob) <==> exists j :: 0 <= j <= |name| && LastCovers(pat, seg, name, j, glob)
  {
    hide Covers, Flatten;
    if Matches(pat + [seg], name, glob) {
      var parts :| CoveredBy(pat + [seg], parts, glob) && Flatten(parts) == name;
      var init := parts[..|pat|];
      assert parts == init + [parts[|pat|]];
      FlattenSnoc(init, parts[|pat|]);
      var j := |Flatten(init)|;
      assert name[..j] == Flatten(init) && name[j..] == parts[|pat|];
      assert CoveredBy(pat, init, glob) by {
        forall i | 0 <= i < |pat| ensures Covers(pat[i], init[i], glob) { assert (pat + [seg])[i] == pat[i]; }
      }
      assert LastCovers(pat, seg, name, j, glob);
    }
    if exists j :: 0 <= j <= |name| && LastCovers(pat, seg, name, j, glob) {
      var j :| 0 <= j <= |name| && LastCovers(pat, seg, name, j, glob);
      var parts :| CoveredBy(pat, parts, glob) && Flatten(parts) == name[..j];
      FlattenSnoc(parts, name[j..]);
      assert name == name[..j] + name[j..];
      assert CoveredBy(pat + [seg], parts + [name[j..]], glob);
    }
  }

  lemma MatchesEmpty(name: seq<string>, glob: Glob)
    ensures Matches([], name, glob) <==> name == []
  {
    assert CoveredBy([], [], glob);
  }

  // ----- "**" -----------------------------------------------------------------------------------

  /** "**" first: it covers nothing, or one more name. */
  lemma StarsFirst(pat: seq<string>, name: seq<string>, glob: Glob)
    ensures Matches([STARS] + pat, name, glob)
            <==> Matches(pat, name, glob) || (name != [] && Matches([STARS] + pat, name[1..], glob))
  {
    hide Matches;
    MatchesCons(STARS, pat, name, glob);
    assert name[0..] == name;
    if name != [] {
      MatchesCons(STARS, pat, name[1..], glob);
      forall j | 0 <= j < |name| ensures FirstCovers(STARS, pat, name, j + 1, glob) == FirstCovers(STARS, pat, name[1..], j, glob) {
        assert name[1..][j..] == name[j + 1..];
      }
    }
    assert FirstCovers(STARS, pat, name, 0, glob) == Matches(pat, name, glob);
    if j :| 0 <= j <= |name| && FirstCovers(STARS, pat, name, j, glob) {
      if j > 0 { assert FirstCovers(STARS, pat, name[1..], j - 1, glob); }
    }
  }

  lemma GlobFirst(seg: string, pat: seq<string>, name: seq<string>, glob: Glob)
    requires seg != STARS
    ensures Matches([seg] + pat, name, glob) <==> name != [] && glob(seg, name[0]) && Matches(pat, name[1..], glob)
  {
    hide Matches;
    MatchesCons(seg, pat, name, glob);
    if name != [] { assert FirstCovers(seg, pat, name, 1, glob) == (glob(seg, name[0]) && Matches(pat, name[1..], glob)); }
  }

  // Some prefix of the path matches.
  ghost predicate PrefixMatches(pat: seq<string>, name: seq<string>, glob: Glob) {
    exists j :: 0 <= j <= |name| && Matches(pat, name[..j], glob)
  }

  /** A pattern ending in "**" matches exactly the paths with a prefix that matches the rest of it. */
  lemma StarsLast(pat: seq<string>, name: seq<string>, glob: Glob)
    ensures Matches(pat + [STARS], name, glob) <==> PrefixMatches(pat, name, glob)
  {
    hide Matches;
    MatchesSnoc(pat, STARS, name, glob);
    forall j | 0 <= j <= |name| ensures LastCovers(pat, STARS, name, j, glob) == Matches(pat, name[..j], glob) {}
  }

  lemma PrefixOfPrefix(pat: seq<string>, name: seq<string>, more: seq<string>, glob: Glob)
    requires PrefixMatches(pat, name, glob)
    ensures PrefixMatches(pat, name + more, glob)
  {
    hide Matches;
    var j :| 0 <= j <= |name| && Matches(pat, name[..j], glob);
    assert (name + more)[..j] == name[..j];
  }

  lemma PrefixTwice(pat: seq<string>, name: seq<string>, glob: Glob)
    ensures PrefixMatches(pat + [STARS], name, glob) <==> PrefixMatches(pat, name, glob)
    ensures PrefixMatches(pat + [STARS], name, glob) <==> Matches(pat + [STARS], name, glob)
  {
    StarsLast(pat, name, glob);
    hide Matches;
    forall j | 0 <= j <= |name| ensures Matches(pat + [STARS], name[..j], glob) <==> PrefixMatches(pat, name[..j], glob) {
      StarsLast(pat, name[..j], glob);
    }
    forall j | 0 <= j <= |name| && PrefixMatches(pat, name[..j], glob) ensures PrefixMatches(pat, name, glob) {
      PrefixOfPrefix(pat, name[..j], name[j..], glob);
      assert name[..j] + name[j..] == name;
    }
    assert name[..|name|] == name;
  }

  // ----- collapsing adjacent "**" ---------------------------------------------------------------

  ghost predicate SameMatches(a: seq<string>, b: seq<string>, glob: Glob) {
    forall name :: Matches(a, name, glob) <==> Matches(b, name, glob)
  }

  // compileRule's loop: a "**" right after another is dropped.
  function Collapse(segs: seq<string>): (c: seq<string>)
    ensures |c| <= |segs|
  {
    if segs == [] then []
    else
      var init, seg := Collapse(segs[..|segs| - 1]), segs[|segs| - 1];
      if seg == STARS && init != [] && init[|init| - 1] == STARS then init else init + [seg]
  }

  lemma SnocKeeps(a: seq<string>, b: seq<string>, seg: string, glob: Glob)
    requires SameMatches(a, b, glob)
    ensures SameMatches(a + [seg], b + [seg], glob)
  {
    hide Matches;
    forall name ensures Matches(a + [seg], name, glob) <==> Matches(b + [seg], name, glob) {
      MatchesSnoc(a, seg, name, glob);
      MatchesSnoc(b, seg, name, glob);
      forall j | 0 <= j <= |name| ensures LastCovers(a, seg, name, j, glob) == LastCovers(b, seg, name, j, glob) {}
    }
  }

  lemma StarsTwice(pat: seq<string>, glob: Glob)
    ensures SameMatches(pat + [STARS] + [STARS], pat + [STARS], glob)
  {
    hide Matches, PrefixMatches;
    forall name ensures Matches(pat + [STARS] + [STARS], name, glob) <==> Matches(pat + [STARS], name, glob) {
      StarsLast(pat + [STARS], name, glob);
      PrefixTwice(pat, name, glob);
    }
  }

  /** Collapsing runs of "**" keeps the matched set. */
  lemma {:induction false} CollapseKeeps(segs: seq<string>, glob: Glob)
    ensures SameMatches(Collapse(segs), segs, glob)
  {
    hide Matches;
    if segs != [] {
      var init, seg := segs[..|segs| - 1], segs[|segs| - 1];
      var c := Collapse(init);
      CollapseKeeps(init, glob);
      SnocKeeps(c, init, seg, glob);
      assert init + [seg] == segs;
      if seg == STARS && c != [] && c[|c| - 1] == STARS {
        assert c == c[..|c| - 1] + [STARS];
        StarsTwice(c[..|c| - 1], glob);
      }
    }
  }
}
