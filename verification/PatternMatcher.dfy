/** matchPattern of internal/ai/policy.go: the memoised matcher decides the declarative relation. */
module PatternMatcher {
  import opened PathPatterns

  // Whether the rest of the pattern matches the rest of the path, for the memo's cell `cell`.
  ghost predicate MatchesAt(pat: seq<string>, name: seq<string>, glob: Glob, cell: nat) {
    var w := |name| + 1;
    cell / w <= |pat| && Matches(pat[cell / w..], name[cell % w..], glob)
  }

  // Every decided cell (1 match, 2 no match) is right.
  ghost predicate MemoOk(memo: seq<int>, pat: seq<string>, name: seq<string>, glob: Glob) {
    forall k: nat :: k < |memo| && memo[k] != 0 ==> (memo[k] == 1 <==> MatchesAt(pat, name, glob, k))
  }

  lemma Cell(pi: nat, ni: nat, w: nat, rows: nat)
    requires ni < w && pi < rows
    ensures 0 <= pi * w + ni < rows * w && (pi * w + ni) / w == pi && (pi * w + ni) % w == ni
  {
    assert (pi + 1) * w <= rows * w by { MulMono(pi + 1, rows, w); }
    assert (pi + 1) * w == pi * w + w;
    DivMod(pi, ni, w);
  }

  lemma MulMono(a: nat, b: nat, w: nat)
    requires a <= b
    ensures a * w <= b * w
  {
  }

  lemma {:induction false} DivMod(p: nat, n: nat, w: nat)
    requires n < w
    ensures (p * w + n) / w == p && (p * w + n) % w == n
  {
    var k := p * w + n;
    assert k == w * (k / w) + k % w;
    assert w * (k / w - p) == n - k % w;
    if k / w > p { MulMono(1, k / w - p, w); }
    if k / w < p { MulMono(1, p - k / w, w); }
  }

  method MatchFrom(pat: seq<string>, name: seq<string>, glob: Glob, memo: array<int>, pi: nat, ni: nat) returns (ok: bool)
    requires pi <= |pat| && ni <= |name| && memo.Length == (|pat| + 1) * (|name| + 1)
    requires MemoOk(memo[..], pat, name, glob)
    modifies memo
    ensures MemoOk(memo[..], pat, name, glob)
    ensures ok <==> Matches(pat[pi..], name[ni..], glob)
    decreases |pat| - pi + |name| - ni
  {
    hide Matches;
    var w := |name| + 1;
    var cell := pi * w + ni;
    Cell(pi, ni, w, |pat| + 1);
    if memo[cell] != 0 {
      assert memo[..][cell] == memo[cell];
      return memo[cell] == 1;
    }
    Unfold(pat[pi..], name[ni..], glob);
    if pi == |pat| {
      ok := ni == |name|;
    } else if pat[pi] == STARS {
      ok := MatchFrom(pat, name, glob, memo, pi + 1, ni);
      if !ok && ni < |name| {
        ok := MatchFrom(pat, name, glob, memo, pi, ni + 1);
      }
    } else if ni < |name| && glob(pat[pi], name[ni]) {
      ok := MatchFrom(pat, name, glob, memo, pi + 1, ni + 1);
    } else {
      ok := false;
    }
    assert ok <==> Matches(pat[pi..], name[ni..], glob) by {
      assert pi < |pat| ==> pat[pi..][1..] == pat[pi + 1..];
      assert ni < |name| ==> name[ni..][1..] == name[ni + 1..];
    }
    Store(memo[..], pat, name, glob, cell, if ok then 1 else 2);
    memo[cell] := if ok then 1 else 2;
  }

  // One unfolding of the relation, in the matcher's cases.
  lemma Unfold(pat: seq<string>, name: seq<string>, glob: Glob)
    ensures Matches(pat, name, glob) <==>
              if pat == [] then name == []
              else if pat[0] == STARS then Matches(pat[1..], name, glob) || (name != [] && Matches(pat, name[1..], glob))
              else name != [] && glob(pat[0], name[0]) && Matches(pat[1..], name[1..], glob)
  {
    hide Matches;
    if pat == [] {
      MatchesEmpty(name, glob);
    } else {
      assert [pat[0]] + pat[1..] == pat;
      if pat[0] == STARS { StarsFirst(pat[1..], name, glob); } else { GlobFirst(pat[0], pat[1..], name, glob); }
    }
  }

  lemma Store(memo: seq<int>, pat: seq<string>, name: seq<string>, glob: Glob, cell: nat, v: int)
    requires MemoOk(memo, pat, name, glob) && cell < |memo| && v != 0 && (v == 1 <==> MatchesAt(pat, name, glob, cell))
    ensures MemoOk(memo[cell := v], pat, name, glob)
  {
    hide MatchesAt;
  }

  /** The memoised matcher answers exactly whether the pattern matches the whole path. */
  method MatchPattern(pat: seq<string>, name: seq<string>, glob: Glob) returns (ok: bool)
    ensures ok <==> Matches(pat, name, glob)
  {
    var memo := new int[(|pat| + 1) * (|name| + 1)](_ => 0);
    ok := MatchFrom(pat, name, glob, memo, 0, 0);
    assert pat[0..] == pat && name[0..] == name;
  }
}
