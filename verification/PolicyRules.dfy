/** Manifest rules of internal/ai/policy.go: compiling one rule, and loading the two manifests. */
module PolicyRules {
  import opened Options
  import opened Strings
  import opened PathPatterns

  /**
   What the host's libraries decide: path.Match on one segment, whether a segment is a valid glob, trimming
   white space, lower-casing a non-ASCII character, and undoing file-system aliases of a path.
   */
  datatype Host = Host(glob: Glob, valid: string -> bool, trim: string -> string, fold: char -> char, unalias: string -> string)

  // ----- text -----------------------------------------------------------------------------------

  const NUL := 0 as char

  function LowerChar(c: char, h: Host): char {
    if c as int >= 128 then h.fold(c) else if 'A' <= c <= 'Z' then (c as int + 32) as char else c
  }

  function Lower(s: string, h: Host): string { seq(|s|, i requires 0 <= i < |s| => LowerChar(s[i], h)) }

  function Slashes(s: string): string { seq(|s|, i requires 0 <= i < |s| => if s[i] == '\\' then '/' else s[i]) }

  function TrimSlashes(s: string): string {
    if s != "" && s[|s| - 1] == '/' then TrimSlashes(s[..|s| - 1]) else s
  }

  // A leading slash, or a drive letter; a colon can be the second byte only after a one-byte character.
  predicate Absolute(s: string) { (s != "" && s[0] == '/') || (|s| >= 2 && s[0] as int < 128 && s[1] == ':') }

  predicate Named(seg: string) { seg != "" && seg != "." }

  function Kept(parts: seq<string>): (kept: seq<string>)
    ensures |kept| <= |parts|
  {
    if parts == [] then []
    else
      var seg := parts[|parts| - 1];
      Kept(parts[..|parts| - 1]) + (if Named(seg) then [seg] else [])
  }

  lemma {:induction false} KeptOf(parts: seq<string>)
    ensures forall seg :: seg in Kept(parts) <==> seg in parts && Named(seg)
  {
    if parts != [] {
      var init := parts[..|parts| - 1];
      KeptOf(init);
      assert parts == init + [parts[|parts| - 1]];
    }
  }

  // ----- one rule -------------------------------------------------------------------------------

  const MAX_RULE_SEGMENTS := 64

  function RuleText(raw: string, h: Host): string { TrimSlashes(Lower(h.trim(Slashes(raw)), h)) }

  // The segments a rule names, before any rewriting.
  function RuleSegments(raw: string, h: Host): seq<string> { Kept(Split(RuleText(raw, h), '/')) }

  predicate GoodSegment(seg: string, h: Host) { seg != ".." && (seg == STARS || h.valid(seg)) }

  ghost predicate GoodRule(raw: string, h: Host) {
    var segs := RuleSegments(raw, h);
    && NUL !in raw && !Absolute(RuleText(raw, h))
    && segs != [] && |Collapse(segs)| <= MAX_RULE_SEGMENTS && forall seg :: seg in segs ==> GoodSegment(seg, h)
  }

  // The patterns of collapsed segments: themselves, and everything below them.
  function Patterns(segs: seq<string>): seq<seq<string>>
    requires segs != []
  {
    if segs[|segs| - 1] == STARS then [segs] else [segs, segs + [STARS]]
  }

  ghost function Compiled(raw: string, h: Host): (pats: seq<seq<string>>)
    ensures |pats| <= 2
  {
    if GoodRule(raw, h) then CollapseKeepsSome(RuleSegments(raw, h)); Patterns(Collapse(RuleSegments(raw, h))) else []
  }

  lemma CollapseKeepsSome(segs: seq<string>)
    requires segs != []
    ensures Collapse(segs) != []
  {
  }

  lemma CollapseSnoc(segs: seq<string>, seg: string)
    ensures var c := Collapse(segs);
            Collapse(segs + [seg]) == if seg == STARS && c != [] && c[|c| - 1] == STARS then c else c + [seg]
  {
    assert (segs + [seg])[..|segs|] == segs;
  }

  method CompileRule(raw: string, h: Host) returns (pats: Option<seq<seq<string>>>)
    ensures pats.Some? <==> GoodRule(raw, h)
    ensures pats.Some? ==> pats.value == Compiled(raw, h)
  {
    hide Split, TrimSlashes, Lower, Slashes, Kept, Collapse;
    if NUL in raw {
      return None;
    }
    var s := RuleText(raw, h);
    DotIsEmpty(s);
    if s == "" || s == "." {
      return None;
    }
    if Absolute(s) {
      return None;
    }
    var parts := Split(s, '/');
    var segs: seq<string> := [];
    NothingKept();
    KeptOf(parts);
    for i := 0 to |parts|
      invariant segs == Collapse(Kept(parts[..i]))
      invariant forall seg :: seg in parts[..i] && Named(seg) ==> GoodSegment(seg, h)
    {
      var seg := parts[i];
      assert parts[..i + 1] == parts[..i] + [seg];
      KeptSnoc(parts[..i], seg);
      CollapseSnoc(Kept(parts[..i]), seg);
      if Named(seg) {
        if seg == ".." {
          assert seg in Kept(parts);
          return None;
        }
        if seg == STARS {
          if |segs| > 0 && segs[|segs| - 1] == STARS {
            continue;
          }
        } else if !h.valid(seg) {
          assert seg in Kept(parts);
          return None;
        }
        segs := segs + [seg];
      }
    }
    assert parts[..|parts|] == parts;
    if Kept(parts) != [] { CollapseKeepsSome(Kept(parts)); }
    if |segs| == 0 || |segs| > MAX_RULE_SEGMENTS {
      return None;
    }
    var patterns := [segs];
    if segs[|segs| - 1] != STARS {
      patterns := patterns + [segs + [STARS]];
    }
    return Some(patterns);
  }

  lemma NothingKept()
    ensures Kept([]) == [] && Collapse([]) == []
  {
  }

  lemma KeptSnoc(parts: seq<string>, seg: string)
    ensures Kept(parts + [seg]) == if Named(seg) then Kept(parts) + [seg] else Kept(parts)
  {
    assert (parts + [seg])[..|parts|] == parts;
  }

  lemma DotIsEmpty(s: string)
    ensures s == "" || s == "." ==> Kept(Split(s, '/')) == []
  {
    SplitFirst("", '/', "");
    SplitFirst(".", '/', "");
    assert [""][..0] == [] && ["."][..0] == [];
    assert Kept([""]) == Kept([]) && Kept(["."]) == Kept([]);
  }

  // ----- what patterns deny ---------------------------------------------------------------------

  ghost predicate Denies(pats: seq<seq<string>>, path: seq<string>, glob: Glob) {
    exists k :: 0 <= k < |pats| && Matches(pats[k], path, glob)
  }

  lemma PatternsDeny(segs: seq<string>, path: seq<string>, glob: Glob)
    requires segs != []
    ensures Denies(Patterns(segs), path, glob) <==> PrefixMatches(segs, path, glob)
  {
    var init := segs[..|segs| - 1];
    assert path[..|path|] == path;
    if segs[|segs| - 1] == STARS {
      assert segs == init + [STARS];
      PrefixTwice(init, path, glob);
      assert Patterns(segs)[0] == segs;
    } else {
      StarsLast(segs, path, glob);
      assert Patterns(segs)[0] == segs && Patterns(segs)[1] == segs + [STARS];
    }
  }

  lemma SamePrefixes(a: seq<string>, b: seq<string>, path: seq<string>, glob: Glob)
    requires SameMatches(a, b, glob)
    ensures PrefixMatches(a, path, glob) <==> PrefixMatches(b, path, glob)
  {
    hide Matches;
  }

  /** A compiled rule denies exactly the paths with a prefix that the rule, as written, matches. */
  lemma RuleDenies(raw: string, h: Host, path: seq<string>)
    requires GoodRule(raw, h)
    ensures Denies(Compiled(raw, h), path, h.glob) <==> PrefixMatches(RuleSegments(raw, h), path, h.glob)
  {
    hide Matches, RuleSegments, Collapse, Denies, Patterns, PrefixMatches;
    var segs := RuleSegments(raw, h);
    CollapseKeepsSome(segs);
    CollapseKeeps(segs, h.glob);
    PatternsDeny(Collapse(segs), path, h.glob);
    SamePrefixes(Collapse(segs), segs, path, h.glob);
  }

  // ----- manifests ------------------------------------------------------------------------------

  const MAX_MANIFEST_RULES := 512
  const MAX_POLICY_PATTERNS := 1024

  datatype Manifest = Missing | Unreadable | Malformed | Listed(rules: seq<string>)

  datatype Category = NoManifest | EmptyManifest | UnreadableManifest | MalformedManifest | RejectedRule | TooManyRules

  datatype Warning = Warning(path: string, category: Category)

  const LABELS := ["ai-kit.yaml", "docs/ai/ai-kit.yaml"]

  ghost function AllCompiled(raws: seq<string>, h: Host): (pats: seq<seq<string>>)
    ensures |pats| <= 2 * |raws|
  {
    if raws == [] then [] else AllCompiled(raws[..|raws| - 1], h) + Compiled(raws[|raws| - 1], h)
  }

  function RulesIn(m: Manifest): seq<string> { if m.Listed? then m.rules else [] }

  // Every rule of the manifests, in order.
  function AllRules(ms: seq<Manifest>): seq<string> {
    if ms == [] then [] else AllRules(ms[..|ms| - 1]) + RulesIn(ms[|ms| - 1])
  }

  // A manifest that loads without a warning.
  ghost predicate CleanManifest(m: Manifest, h: Host) {
    m.Missing? || (m.Listed? && m.rules != [] && forall raw :: raw in m.rules ==> GoodRule(raw, h))
  }

  ghost predicate SomePresent(ms: seq<Manifest>) { exists m :: m in ms && !m.Missing? }

  lemma {:induction false} AllCompiledAppend(a: seq<string>, b: seq<string>, h: Host)
    ensures AllCompiled(a + b, h) == AllCompiled(a, h) + AllCompiled(b, h)
  {
    hide Compiled;
    if b == [] {
      assert a + b == a;
    } else {
      var init := b[..|b| - 1];
      AllCompiledAppend(a, init, h);
      assert (a + b)[..|a + b| - 1] == a + init;
    }
  }

  method LoadManifests(ms: seq<Manifest>, h: Host) returns (rules: seq<seq<string>>, warnings: seq<Warning>)
    requires |ms| == |LABELS|
    ensures rules == if |AllRules(ms)| > MAX_MANIFEST_RULES then [[STARS]] else AllCompiled(AllRules(ms), h)
    ensures warnings == [] <==> |AllRules(ms)| <= MAX_MANIFEST_RULES
                                && (forall m :: m in ms ==> CleanManifest(m, h)) && SomePresent(ms)
  {
    hide Compiled, GoodRule;
    rules, warnings := [], [];
    var found, rawRuleCount := false, 0;
    for i := 0 to |ms|
      invariant rules == AllCompiled(AllRules(ms[..i]), h) && rawRuleCount == |AllRules(ms[..i])| <= MAX_MANIFEST_RULES
      invariant warnings == [] <==> forall m :: m in ms[..i] ==> CleanManifest(m, h)
      invariant found <==> SomePresent(ms[..i])
    {
      hide CleanManifest, AllCompiled, AllRules, SomePresent;
      var m, before := ms[i], ms[..i];
      assert ms[..i + 1] == before + [m];
      AllRulesSnoc(before, m);
      AllCompiledAppend(AllRules(before), RulesIn(m), h);
      MemberSnoc(before, m);
      PresentSnoc(before, m);
      Cleanness(m, h);
      NoRules(h);
      match m {
        case Missing =>
        case Unreadable =>
          found, warnings := true, warnings + [Warning(LABELS[i], UnreadableManifest)];
        case Malformed =>
          found, warnings := true, warnings + [Warning(LABELS[i], MalformedManifest)];
        case Listed(raws) =>
          found := true;
          if |raws| > MAX_MANIFEST_RULES - rawRuleCount {
            MoreRules(ms, i + 1);
            return [[STARS]], [Warning(LABELS[i], TooManyRules)];
          }
          rawRuleCount := rawRuleCount + |raws|;
          rules, warnings := AddRules(raws, LABELS[i], rules, warnings, h);
      }
    }
    assert ms[..|ms|] == ms;
    if !found {
      warnings := warnings + [Warning(LABELS[0], NoManifest)];
    }
  }

  // The inner loop of loadManifests: one manifest's rules, appended to those of the manifests before it.
  method AddRules(raws: seq<string>, name: string, rules0: seq<seq<string>>, warnings0: seq<Warning>, h: Host)
    returns (rules: seq<seq<string>>, warnings: seq<Warning>)
    requires |rules0| <= 2 * (MAX_MANIFEST_RULES - |raws|)
    ensures rules == rules0 + AllCompiled(raws, h)
    ensures warnings == [] <==> warnings0 == [] && raws != [] && forall raw :: raw in raws ==> GoodRule(raw, h)
  {
    hide GoodRule, Compiled;
    rules, warnings := rules0, warnings0;
    var accepted := 0;
    for j := 0 to |raws|
      invariant rules == rules0 + AllCompiled(raws[..j], h)
      invariant warnings == [] <==> warnings0 == [] && forall raw :: raw in raws[..j] ==> GoodRule(raw, h)
      invariant warnings == [] ==> accepted == j
    {
      assert raws[..j + 1][..j] == raws[..j] && raws[..j + 1] == raws[..j] + [raws[j]];
      assert |AllCompiled(raws[..j], h)| <= 2 * j;
      var pats := CompileRule(raws[j], h);
      RejectedAddsNothing(raws[j], h);
      if pats.None? {
        warnings := warnings + [Warning(name, RejectedRule)];
        continue;
      }
      if |pats.value| > MAX_POLICY_PATTERNS - |rules| {
        // Two patterns a rule and at most 512 rules: the pattern cap is never reached.
        assert false;
      }
      rules := rules + pats.value;
      accepted := accepted + 1;
    }
    assert raws[..|raws|] == raws;
    if accepted == 0 {
      warnings := warnings + [Warning(name, EmptyManifest)];
    }
  }

  lemma RejectedAddsNothing(raw: string, h: Host)
    ensures !GoodRule(raw, h) ==> Compiled(raw, h) == []
  {
  }

  lemma AllRulesSnoc(ms: seq<Manifest>, m: Manifest)
    ensures AllRules(ms + [m]) == AllRules(ms) + RulesIn(m)
  {
    assert (ms + [m])[..|ms|] == ms;
  }

  lemma PresentSnoc(ms: seq<Manifest>, m: Manifest)
    ensures SomePresent(ms + [m]) <==> SomePresent(ms) || !m.Missing?
  {
    MemberSnoc(ms, m);
    if !m.Missing? { assert m in ms + [m]; }
  }

  lemma MemberSnoc(ms: seq<Manifest>, m: Manifest)
    ensures forall x :: x in ms + [m] <==> x in ms || x == m
  {
  }

  lemma Cleanness(m: Manifest, h: Host)
    ensures CleanManifest(m, h) <==> m.Missing? || (m.Listed? && m.rules != [] && forall raw :: raw in m.rules ==> GoodRule(raw, h))
  {
  }

  lemma NoRules(h: Host)
    ensures AllCompiled([], h) == []
  {
  }

  lemma {:induction false} MoreRules(ms: seq<Manifest>, i: nat)
    requires i <= |ms|
    ensures |AllRules(ms[..i])| <= |AllRules(ms)|
    decreases |ms| - i
  {
    if i < |ms| {
      MoreRules(ms, i + 1);
      assert ms[..i + 1][..i] == ms[..i];
    } else {
      assert ms[..i] == ms;
    }
  }

  // ----- what a load denies ---------------------------------------------------------------------

  ghost predicate RuleMatches(raw: string, h: Host, path: seq<string>) {
    GoodRule(raw, h) && PrefixMatches(RuleSegments(raw, h), path, h.glob)
  }

  lemma DeniesAppend(a: seq<seq<string>>, b: seq<seq<string>>, path: seq<string>, glob: Glob)
    ensures Denies(a + b, path, glob) <==> Denies(a, path, glob) || Denies(b, path, glob)
  {
    hide Matches;
    forall k | 0 <= k < |a| ensures (a + b)[k] == a[k] {}
    forall k | 0 <= k < |b| ensures (a + b)[|a| + k] == b[k] {}
  }

  lemma {:induction false} CompiledDenies(raws: seq<string>, h: Host, path: seq<string>)
    ensures Denies(AllCompiled(raws, h), path, h.glob) <==> exists raw :: raw in raws && RuleMatches(raw, h, path)
  {
    hide Compiled, GoodRule, PrefixMatches, RuleSegments, Matches, Denies;
    NothingDenied(path, h.glob);
    if raws != [] {
      var init, raw := raws[..|raws| - 1], raws[|raws| - 1];
      assert forall x :: x in raws <==> x in init || x == raw by { assert raws == init + [raw]; }
      CompiledDenies(init, h, path);
      RejectedAddsNothing(raw, h);
      if GoodRule(raw, h) { RuleDenies(raw, h, path); }
      DeniesAppend(AllCompiled(init, h), Compiled(raw, h), path, h.glob);
      assert Denies(Compiled(raw, h), path, h.glob) <==> RuleMatches(raw, h, path);
    }
  }

  lemma NothingDenied(path: seq<string>, glob: Glob)
    ensures !Denies([], path, glob)
  {
  }

  lemma StarsDenyAll(path: seq<string>, glob: Glob)
    ensures Denies([[STARS]], path, glob)
  {
    StarsLast([], path, glob);
    MatchesEmpty(path[..0], glob);
    assert [] + [STARS] == [STARS];
    assert [[STARS]][0] == [STARS];
  }

  // The rules a load publishes.
  ghost function Loaded(ms: seq<Manifest>, h: Host): seq<seq<string>> {
    if |AllRules(ms)| > MAX_MANIFEST_RULES then [[STARS]] else AllCompiled(AllRules(ms), h)
  }

  /** A load denies everything once there are too many rules, and otherwise exactly what its accepted rules match. */
  lemma LoadDenies(ms: seq<Manifest>, h: Host, path: seq<string>)
    ensures Denies(Loaded(ms, h), path, h.glob)
            <==> |AllRules(ms)| > MAX_MANIFEST_RULES || exists raw :: raw in AllRules(ms) && RuleMatches(raw, h, path)
  {
    hide AllRules, AllCompiled, RuleMatches, Denies;
    StarsDenyAll(path, h.glob);
    CompiledDenies(AllRules(ms), h, path);
  }

  /** Whatever a load denies, it denies for everything below it. */
  lemma LoadedInherits(ms: seq<Manifest>, h: Host, path: seq<string>, more: seq<string>)
    requires Denies(Loaded(ms, h), path, h.glob)
    ensures Denies(Loaded(ms, h), path + more, h.glob)
  {
    hide Denies, Loaded, AllRules, GoodRule, RuleSegments, PrefixMatches;
    LoadDenies(ms, h, path);
    LoadDenies(ms, h, path + more);
    if raw :| raw in AllRules(ms) && RuleMatches(raw, h, path) {
      PrefixOfPrefix(RuleSegments(raw, h), path, more, h.glob);
      assert RuleMatches(raw, h, path + more);
    }
  }
}
