/** The .gitignore matcher of internal/filesystem/reader.go, against the declarative relation. */
module GitignoreMatcher {
  import opened Options
  import opened PathPatterns

  // As for policy patterns, but a final "**" covers at least one name.
  ghost predicate GitCovered(pat: seq<string>, parts: seq<seq<string>>, glob: Glob) {
    CoveredBy(pat, parts, glob) && (pat != [] && pat[|pat| - 1] == STARS ==> parts[|pat| - 1] != [])
  }

  ghost predicate GitMatches(pat: seq<string>, name: seq<string>, glob: Glob) {
    exists parts :: GitCovered(pat, parts, glob) && Flatten(parts) == name
  }

  /** "dir" followed by a final "**" matches exactly what is strictly below a match of "dir". */
  lemma FinalStars(pat: seq<string>, name: seq<string>, glob: Glob)
    ensures GitMatches(pat + [STARS], name, glob) <==> exists j :: 0 <= j < |name| && Matches(pat, name[..j], glob)
  {
    hide Covers, Flatten;
    if GitMatches(pat + [STARS], name, glob) {
      var parts :| GitCovered(pat + [STARS], parts, glob) && Flatten(parts) == name;
      var init := parts[..|pat|];
      assert parts == init + [parts[|pat|]];
      FlattenSnoc(init, parts[|pat|]);
      assert CoveredBy(pat, init, glob) by {
        forall i | 0 <= i < |pat| ensures Covers(pat[i], init[i], glob) { assert (pat + [STARS])[i] == pat[i]; }
      }
      assert name[..|Flatten(init)|] == Flatten(init);
    }
    if j :| 0 <= j < |name| && Matches(pat, name[..j], glob) {
      var parts :| CoveredBy(pat, parts, glob) && Flatten(parts) == name[..j];
      FlattenSnoc(parts, name[j..]);
      assert name == name[..j] + name[j..];
      StarsCover(name[j..], glob);
      assert GitCovered(pat + [STARS], parts + [name[j..]], glob);
    }
  }

  lemma StarsCover(part: seq<string>, glob: Glob)
    ensures Covers(STARS, part, glob)
  {
  }

  /** Without a final "**" the two matchers agree. */
  lemma NoFinalStars(pat: seq<string>, name: seq<string>, glob: Glob)
    requires pat == [] || pat[|pat| - 1] != STARS
    ensures GitMatches(pat, name, glob) <==> Matches(pat, name, glob)
  {
    hide Covers, Flatten;
    if Matches(pat, name, glob) {
      var parts :| CoveredBy(pat, parts, glob) && Flatten(parts) == name;
      assert GitCovered(pat, parts, glob);
    }
  }

  // The rest of the pattern, by its last segment.
  lemma TailLast(pat: seq<string>)
    requires |pat| > 1
    ensures pat[1..][|pat| - 2] == pat[|pat| - 1]
  {
  }

  ghost predicate GitFirst(pat: seq<string>, name: seq<string>, j: nat, glob: Glob)
    requires pat != [] && j <= |name|
  {
    Covers(pat[0], name[..j], glob) && GitMatches(pat[1..], name[j..], glob)
  }

  lemma GitCons(pat: seq<string>, name: seq<string>, glob: Glob)
    requires |pat| > 1
    ensures GitMatches(pat, name, glob) <==> exists j :: 0 <= j <= |name| && GitFirst(pat, name, j, glob)
  {
    hide Covers;
    TailLast(pat);
    if GitMatches(pat, name, glob) {
      var parts :| GitCovered(pat, parts, glob) && Flatten(parts) == name;
      var j := |parts[0]|;
      assert name[..j] == parts[0] && name[j..] == Flatten(parts[1..]);
      assert GitCovered(pat[1..], parts[1..], glob);
      assert GitFirst(pat, name, j, glob);
    }
    if j :| 0 <= j <= |name| && GitFirst(pat, name, j, glob) {
      var parts :| GitCovered(pat[1..], parts, glob) && Flatten(parts) == name[j..];
      assert ([name[..j]] + parts)[1..] == parts && name == name[..j] + name[j..];
      assert GitCovered(pat, [name[..j]] + parts, glob) by {
        forall i | 0 <= i < |pat| ensures Covers(pat[i], ([name[..j]] + parts)[i], glob) {
          if i > 0 { assert pat[i] == pat[1..][i - 1]; }
        }
      }
    }
  }

  // One unfolding of the relation, in the matcher's cases.
  lemma GitUnfold(pat: seq<string>, name: seq<string>, glob: Glob)
    ensures GitMatches(pat, name, glob) <==>
              if pat == [] then name == []
              else if pat[0] == STARS then
                if |pat| == 1 then name != []
                else GitMatches(pat[1..], name, glob) || (name != [] && GitMatches(pat, name[1..], glob))
              else name != [] && glob(pat[0], name[0]) && GitMatches(pat[1..], name[1..], glob)
  {
    if |pat| <= 1 {
      GitUnfoldLast(pat, name, glob);
    } else {
      hide GitMatches;
      GitCons(pat, name, glob);
      if pat[0] == STARS {
        if name != [] {
          GitCons(pat, name[1..], glob);
          forall j | 0 <= j < |name| ensures GitFirst(pat, name, j + 1, glob) == GitFirst(pat, name[1..], j, glob) {
            assert name[1..][j..] == name[j + 1..];
          }
        }
        assert name[0..] == name;
        assert GitFirst(pat, name, 0, glob) == GitMatches(pat[1..], name, glob);
        if j :| 0 <= j <= |name| && GitFirst(pat, name, j, glob) {
          if j > 0 { assert GitFirst(pat, name[1..], j - 1, glob); }
        }
      } else if name != [] {
        assert GitFirst(pat, name, 1, glob) == (glob(pat[0], name[0]) && GitMatches(pat[1..], name[1..], glob));
      }
    }
  }

  lemma GitUnfoldLast(pat: seq<string>, name: seq<string>, glob: Glob)
    requires |pat| <= 1
    ensures GitMatches(pat, name, glob) <==>
              if pat == [] then name == []
              else if pat[0] == STARS then name != []
              else name != [] && glob(pat[0], name[0]) && GitMatches(pat[1..], name[1..], glob)
  {
    hide GitMatches, Matches, Covers;
    if pat == [] {
      NoFinalStars(pat, name, glob);
      MatchesEmpty(name, glob);
    } else if pat[0] == STARS {
      assert pat == [] + [STARS];
      FinalStars([], name, glob);
      MatchesEmpty(name[..0], glob);
    } else {
      assert pat == [pat[0]] + pat[1..];
      NoFinalStars(pat, name, glob);
      GlobFirst(pat[0], pat[1..], name, glob);
      if name != [] { NoFinalStars(pat[1..], name[1..], glob); }
    }
  }

  // ----- the matcher ----------------------------------------------------------------------------

  type Memo = map<(nat, nat), bool>

  ghost predicate MemoOk(memo: Option<Memo>, pat: seq<string>, name: seq<string>, glob: Glob) {
    memo.Some? ==> forall s :: s in memo.value ==>
      s.0 <= |pat| && s.1 <= |name| && (memo.value[s] <==> GitMatches(pat[s.0..], name[s.1..], glob))
  }

  method MatchFrom(pat: seq<string>, name: seq<string>, glob: Glob, pi: nat, ni: nat, memo0: Option<Memo>)
    returns (matched: bool, memo: Option<Memo>)
    requires pi <= |pat| && ni <= |name| && MemoOk(memo0, pat, name, glob)
    ensures MemoOk(memo, pat, name, glob)
    ensures matched <==> GitMatches(pat[pi..], name[ni..], glob)
    decreases |pat| - pi + |name| - ni
  {
    hide GitMatches;
    memo := memo0;
    if memo.Some? && (pi, ni) in memo.value {
      return memo.value[(pi, ni)], memo;
    }
    matched := false;
    GitUnfold(pat[pi..], name[ni..], glob);
    if pi == |pat| {
      matched := ni == |name|;
    } else if pat[pi] == STARS {
      if pi == |pat| - 1 {
        matched := ni < |name|;
      } else {
        matched, memo := MatchFrom(pat, name, glob, pi + 1, ni, memo);
        if !matched && ni < |name| {
          matched, memo := MatchFrom(pat, name, glob, pi, ni + 1, memo);
        }
      }
    } else if ni < |name| && glob(pat[pi], name[ni]) {
      matched, memo := MatchFrom(pat, name, glob, pi + 1, ni + 1, memo);
    }
    assert matched <==> GitMatches(pat[pi..], name[ni..], glob) by {
      assert pi < |pat| ==> pat[pi..][1..] == pat[pi + 1..];
      assert ni < |name| ==> name[ni..][1..] == name[ni + 1..];
    }
    if memo.Some? {
      memo := Some(memo.value[(pi, ni) := matched]);
    }
  }

  /** Memoised only when the pattern can branch; either way it decides the relation. */
  method MatchGitignorePath(pat: seq<string>, name: seq<string>, glob: Glob) returns (matched: bool)
    ensures matched <==> GitMatches(pat, name, glob)
  {
    var memo: Option<Memo> := if STARS in pat then Some(map[]) else None;
    matched, memo := MatchFrom(pat, name, glob, 0, 0, memo);
    assert pat[0..] == pat && name[0..] == name;
  }
}
