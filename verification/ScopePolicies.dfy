/** The scope policy of one bound repository in internal/ai/policy.go: what a guard answers, and reloads. */
module ScopePolicies {
  import opened Options
  import opened Strings
  import opened PathPatterns
  import opened PatternMatcher
  import opened PolicyRules

  const MAX_CANDIDATE_SEGMENTS := 256
  const MAX_CANDIDATE_BYTES := 131072

  // The UTF-8 length of a text.
  function ByteLen(s: string): nat {
    if s == "" then 0
    else
      var c := s[|s| - 1] as int;
      ByteLen(s[..|s| - 1]) + (if c < 0x80 then 1 else if c < 0x800 then 2 else if c < 0x10000 then 3 else 4)
  }

  function CandidateText(rel: string, h: Host): string { Lower(Slashes(rel), h) }

  // candidateSegments: the lower-case segments of a tool's path below a workspace prefix.
  function Candidate(prefix: seq<string>, rel: string, h: Host): Option<seq<string>> {
    var kept := Kept(Split(CandidateText(rel, h), '/'));
    if ByteLen(rel) > MAX_CANDIDATE_BYTES || NUL in rel || Absolute(CandidateText(rel, h)) || ".." in kept
       || |prefix| + |kept| > MAX_CANDIDATE_SEGMENTS
    then None
    else Some(prefix + kept)
  }

  method CandidateSegments(prefix: seq<string>, rel: string, h: Host) returns (segs: Option<seq<string>>)
    ensures segs == Candidate(prefix, rel, h)
  {
    hide ByteLen, Split, Kept, Lower, Slashes, Absolute;
    if ByteLen(rel) > MAX_CANDIDATE_BYTES || NUL in rel {
      return None;
    }
    var s := CandidateText(rel, h);
    if Absolute(s) {
      return None;
    }
    var all := prefix;
    var parts := Split(s, '/');
    KeptOf(parts);
    NothingKept();
    if |all| > MAX_CANDIDATE_SEGMENTS {
      return None;
    }
    for i := 0 to |parts|
      invariant all == prefix + Kept(parts[..i]) && |all| <= MAX_CANDIDATE_SEGMENTS && ".." !in parts[..i]
    {
      var seg := parts[i];
      assert parts[..i + 1] == parts[..i] + [seg];
      KeptSnoc(parts[..i], seg);
      if Named(seg) {
        if seg == ".." {
          return None;
        }
        all := all + [seg];
        if |all| > MAX_CANDIDATE_SEGMENTS {
          KeptGrows(parts, i + 1);
          return None;
        }
      }
    }
    assert parts[..|parts|] == parts;
    return Some(all);
  }

  lemma {:induction false} KeptGrows(parts: seq<string>, i: nat)
    requires i <= |parts|
    ensures |Kept(parts[..i])| <= |Kept(parts)|
    decreases |parts| - i
  {
    if i < |parts| {
      KeptGrows(parts, i + 1);
      assert parts[..i + 1][..i] == parts[..i];
    } else {
      assert parts[..i] == parts;
    }
  }

  // ----- the floor ------------------------------------------------------------------------------

  const FLOOR: seq<string> := [
    "**/.env*", "**/*.pem", "**/*.key", "**/*.p12", "**/*.pfx", "**/id_rsa*", "**/id_ed25519*", "**/id_ecdsa*",
    "**/id_dsa*", "**/credentials", "**/credentials.*", "**/*credential*", "**/*credential*/**", "**/*secret*",
    "**/*secret*/**", "**/.netrc", "**/_netrc", "**/.npmrc", "**/.pypirc", "**/.ssh/**", "**/.gnupg/**", "**/.aws/**",
    "**/.kube/**", "**/.docker/config.json", "**/*.tfstate", "**/*.tfstate.backup", ".git", ".git/**", "**/.git",
    "**/.git/**", ".firn", ".firn/**", "**/.firn", "**/.firn/**", ".agent", ".agent/**", "**/.agent", "**/.agent/**"]

  function FloorPatterns(): seq<seq<string>> { seq(|FLOOR|, i requires 0 <= i < |FLOOR| => Split(FLOOR[i], '/')) }

  function JoinPath(segs: seq<string>): string {
    if segs == [] then "" else if |segs| == 1 then segs[0] else segs[0] + "/" + JoinPath(segs[1..])
  }

  // The floor sees the path as spelled, and as spelled without file-system aliases; what cannot be respelled is denied.
  ghost predicate FloorDenies(segs: seq<string>, h: Host) {
    var joined := JoinPath(segs);
    var folded := h.unalias(joined);
    var respelled := if folded == joined then Some(segs) else Candidate([], folded, h);
    respelled.None? || Denies(FloorPatterns(), segs, h.glob) || Denies(FloorPatterns(), respelled.value, h.glob)
  }

  method AnyMatches(pats: seq<seq<string>>, segs: seq<string>, glob: Glob) returns (denied: bool)
    ensures denied <==> Denies(pats, segs, glob)
  {
    hide Matches;
    for i := 0 to |pats|
      invariant forall k :: 0 <= k < i ==> !Matches(pats[k], segs, glob)
    {
      var matched := MatchPattern(pats[i], segs, glob);
      if matched {
        return true;
      }
    }
    return false;
  }

  method FloorMatches(segs: seq<string>, h: Host) returns (denied: bool)
    ensures denied <==> FloorDenies(segs, h)
  {
    hide Denies, FloorPatterns, Candidate;
    var joined := JoinPath(segs);
    var folded := h.unalias(joined);
    var foldedSegs := segs;
    if folded != joined {
      var again := CandidateSegments([], folded, h);
      if again.None? {
        return true;
      }
      foldedSegs := again.value;
    }
    denied := AnyMatches(FloorPatterns(), segs, h.glob);
    if !denied && folded != joined {
      denied := AnyMatches(FloorPatterns(), foldedSegs, h.glob);
    }
  }

  // ----- the guard ------------------------------------------------------------------------------

  // A protected config source, or something below it.
  predicate Under(path: string, prot: string) { path == prot || (|path| > |prot| && path[..|prot| + 1] == prot + "/") }

  datatype Verdict = Allowed | Denied | Detached

  type Directory(==, !new)

  // What os.SameFile compares.
  type FileId(==, !new)

  // Lstat of a path.
  datatype Lookup = Missing | Failed | Found(file: FileId)

  // filepath.Rel from the repository root; it is never empty.
  type Relative = r: string | r != "" witness "."

  // Package filepath on the host, from one repository root; no relative path is another volume's.
  datatype Paths = Paths(separator: char, isAbs: string -> bool, clean: string -> string, relative: string -> Option<Relative>)

  /**
   The policy's state. `loaded` is the directory the published rules were read from; `identities` are the config sources'
   files.
   */
  datatype Policy = Policy(
    detached: bool, pending: bool, loaded: Option<Directory>, additive: seq<seq<string>>, protected: set<string>,
    identities: seq<FileId>)

  // The published rules describe the directory now at the repository's path.
  predicate Current(p: Policy, root: Option<Directory>) { !p.pending && root.Some? && p.loaded == root }

  // The candidate is a hard link of a config source.
  predicate Aliases(p: Policy, candidate: Lookup) { candidate.Found? && candidate.file in p.identities }

  // ----- config sources -------------------------------------------------------------------------

  datatype Protection = Done | BadPath | Unidentified

  predicate GoodPath(path: string, paths: Paths) { NUL !in path && paths.isAbs(path) && paths.clean(path) == path }

  // A path below the repository root.
  predicate Contained(rel: string, paths: Paths) {
    rel != ".." && !(|rel| >= 3 && rel[..3] == ".." + [paths.separator]) && !paths.isAbs(rel)
  }

  // What protecting a config source adds: its name if it is in the repository, and its file unless another volume's.
  function Protected(p: Policy, path: string, found: Lookup, paths: Paths, h: Host): Policy {
    var rel := paths.relative(path);
    if !GoodPath(path, paths) || rel.None? then p
    else
      p.(protected := if Contained(rel.value, paths) then p.protected + {CandidateText(rel.value, h)} else p.protected,
         identities := if found.Found? && found.file !in p.identities then p.identities + [found.file] else p.identities)
  }

  // One spelling of the path is denied for its own sake and everything below it: by a bad spelling, a protected file or a rule.
  ghost predicate SpellingDenied(p: Policy, prefix: seq<string>, rel: string, h: Host) {
    var segs := Candidate(prefix, rel, h);
    || segs.None?
    || (exists prot :: prot in p.protected && Under(JoinPath(segs.value), prot))
    || Denies(p.additive, segs.value, h.glob)
  }

  ghost predicate FloorDenied(prefix: seq<string>, rel: string, h: Host) {
    var segs := Candidate(prefix, rel, h);
    segs.Some? && FloorDenies(segs.value, h)
  }

  /** The scope policy, its manifest rules replaced by reloads; `root` is the directory now at the repository's path. */
  class ScopePolicy {
    var detached: bool
    var pending: bool
    var loaded: Option<Directory>
    var additive: seq<seq<string>>
    var warnings: seq<Warning>
    var protected: set<string>
    var identities: seq<FileId>

    ghost function Value(): Policy
      reads this
    {
      Policy(detached, pending, loaded, additive, protected, identities)
    }

    // LoadScopePolicy, before its first reload.
    constructor ()
      ensures Value() == Policy(false, false, None, [], {}, []) && warnings == []
    {
      detached, pending, loaded, additive, warnings, protected, identities := false, false, None, [], [], {}, [];
    }

    // Reload: `before` and `after` are the directory seen around the read of the manifests.
    method Reload(before: Option<Directory>, ms: seq<Manifest>, after: Option<Directory>, h: Host)
      requires |ms| == |LABELS|
      modifies this
      ensures Value() == Reloaded(old(Value()), before, ms, after, h)
      ensures pending ==> warnings == old(warnings)
    {
      hide AllCompiled, AllRules;
      pending := true;
      if before.None? {
        return;
      }
      var rules, news := LoadManifests(ms, h);
      if after != before {
        return;
      }
      pending, additive, warnings, loaded := false, rules, news, before;
    }

    method Detach()
      modifies this`detached
      ensures Value() == old(Value()).(detached := true)
    {
      detached := true;
    }

    method Attach(before: Option<Directory>, ms: seq<Manifest>, after: Option<Directory>, h: Host)
      requires |ms| == |LABELS|
      modifies this
      ensures Value() == Reloaded(old(Value()), before, ms, after, h).(detached := false)
    {
      Reload(before, ms, after, h);
      detached := false;
    }

    /**
     Protects a config source by name and by file. A malformed path is refused and changes nothing; a source in the
     repository is protected by name even when its file cannot be looked up, which is the one other failure.
     */
    method ProtectConfigSource(path: string, found: Lookup, paths: Paths, h: Host) returns (r: Protection)
      modifies this`protected, this`identities
      ensures Value() == Protected(old(Value()), path, found, paths, h)
      ensures r == BadPath <==> !GoodPath(path, paths)
      ensures r == Unidentified <==> GoodPath(path, paths) && paths.relative(path).Some? && found.Failed?
      ensures r == BadPath ==> Value() == old(Value())
      ensures r != BadPath && paths.relative(path).Some? && Contained(paths.relative(path).value, paths) ==>
                CandidateText(paths.relative(path).value, h) in protected
      ensures r == Done && paths.relative(path).Some? && found.Found? ==> Aliases(Value(), found)
    {
      hide Lower, Slashes;
      if NUL in path || !paths.isAbs(path) || paths.clean(path) != path {
        return BadPath;
      }
      var rel := paths.relative(path);
      if rel.None? {
        return Done;
      }
      if Contained(rel.value, paths) {
        protected := protected + {CandidateText(rel.value, h)};
      }
      match found {
        case Missing =>
          return Done;
        case Failed =>
          return Unidentified;
        case Found(file) =>
          for i := 0 to |identities|
            invariant forall k :: 0 <= k < i ==> identities[k] != file
          {
            if identities[i] == file {
              return Done;
            }
          }
          identities := identities + [file];
          return Done;
      }
    }

    /** Answers for one path under each of the workspace's spellings; `candidate` is the file now at it. */
    method Check(prefixes: seq<seq<string>>, rel: string, root: Option<Directory>, candidate: Lookup, h: Host) returns (v: Verdict)
      ensures v == Detached <==> detached
      ensures v == Allowed <==> !detached && Current(Value(), root) && !Aliases(Value(), candidate)
                                && forall k :: 0 <= k < |prefixes| ==>
                                     !SpellingDenied(Value(), prefixes[k], rel, h) && !FloorDenied(prefixes[k], rel, h)
    {
      hide FloorDenies, Denies, Candidate, Under, JoinPath;
      if detached {
        return Detached;
      }
      if !(!pending && root.Some? && loaded == root) {
        return Denied;
      }
      var candidates: seq<seq<string>> := [];
      for i := 0 to |prefixes|
        invariant |candidates| == i
        invariant forall k :: 0 <= k < i ==> Candidate(prefixes[k], rel, h) == Some(candidates[k])
                                             && forall prot :: prot in protected ==> !Under(JoinPath(candidates[k]), prot)
      {
        var segs := CandidateSegments(prefixes[i], rel, h);
        if segs.None? {
          assert SpellingDenied(Value(), prefixes[i], rel, h);
          return Denied;
        }
        candidates := candidates + [segs.value];
        var joined := JoinPath(segs.value);
        if exists prot :: prot in protected && Under(joined, prot) {
          assert SpellingDenied(Value(), prefixes[i], rel, h);
          return Denied;
        }
      }
      if |identities| > 0 && candidate.Found? {
        for i := 0 to |identities|
          invariant forall k :: 0 <= k < i ==> identities[k] != candidate.file
        {
          if identities[i] == candidate.file {
            return Denied;
          }
        }
      }
      for i := 0 to |candidates|
        invariant forall k :: 0 <= k < i ==> !SpellingDenied(Value(), prefixes[k], rel, h) && !FloorDenied(prefixes[k], rel, h)
      {
        var floor := FloorMatches(candidates[i], h);
        if floor {
          assert FloorDenied(prefixes[i], rel, h);
          return Denied;
        }
        var denied := AnyMatches(additive, candidates[i], h.glob);
        if denied {
          assert SpellingDenied(Value(), prefixes[i], rel, h);
          return Denied;
        }
      }
      return Allowed;
    }
  }

  // The state after a reload: the rules of one directory seen start to finish, or no change but the pending mark.
  ghost function Reloaded(p: Policy, before: Option<Directory>, ms: seq<Manifest>, after: Option<Directory>, h: Host): Policy {
    if before.Some? && after == before then p.(pending := false, loaded := before, additive := Loaded(ms, h))
    else p.(pending := true)
  }

  // ----- what guards keep -----------------------------------------------------------------------

  datatype Change =
    | Load(before: Option<Directory>, ms: seq<Manifest>, after: Option<Directory>)
    | Cut
    | Restore(before: Option<Directory>, ms: seq<Manifest>, after: Option<Directory>)
    | Protect(path: string, found: Lookup, paths: Paths)

  ghost function Apply(p: Policy, change: Change, h: Host): Policy {
    match change
    case Load(before, ms, after) => Reloaded(p, before, ms, after, h)
    case Cut => p.(detached := true)
    case Restore(before, ms, after) => Reloaded(p, before, ms, after, h).(detached := false)
    case Protect(path, found, paths) => Protected(p, path, found, paths, h)
  }

  ghost function Run(changes: seq<Change>, h: Host): Policy {
    if changes == [] then Policy(false, false, None, [], {}, [])
    else Apply(Run(changes[..|changes| - 1], h), changes[|changes| - 1], h)
  }

  // Rules published, if any, are those of one load of the directory named.
  ghost predicate Published(p: Policy, h: Host) {
    (p.loaded.None? ==> p.additive == []) && (p.loaded.Some? ==> exists ms :: p.additive == Loaded(ms, h))
  }

  lemma {:induction false} RunPublishes(changes: seq<Change>, h: Host)
    ensures Published(Run(changes, h), h)
  {
    hide Loaded, GoodPath, Contained, CandidateText;
    if changes != [] { RunPublishes(changes[..|changes| - 1], h); }
  }

  // A protected name is never empty.
  lemma {:induction false} NamesAreNamed(changes: seq<Change>, h: Host)
    ensures "" !in Run(changes, h).protected
  {
    hide Loaded, GoodPath, Contained;
    if changes != [] { NamesAreNamed(changes[..|changes| - 1], h); }
  }

  lemma {:induction false} ByteLenGrows(a: string, b: string)
    ensures ByteLen(a) <= ByteLen(a + b)
  {
    if b == "" {
      assert a + b == a;
    } else {
      ByteLenGrows(a, b[..|b| - 1]);
      assert (a + b)[..|a + b| - 1] == a + b[..|b| - 1];
    }
  }

  lemma {:induction false} KeptAppend(a: seq<string>, b: seq<string>)
    ensures Kept(a + b) == Kept(a) + Kept(b)
  {
    if b == [] {
      assert a + b == a;
    } else {
      KeptAppend(a, b[..|b| - 1]);
      assert (a + b)[..|a + b| - 1] == a + b[..|b| - 1];
    }
  }

  lemma TextBelow(rel: string, more: string, h: Host)
    ensures CandidateText(rel + "/" + more, h) == CandidateText(rel, h) + ['/'] + CandidateText(more, h)
  {
  }

  lemma AbsoluteBelow(s: string, more: string)
    requires Absolute(s)
    ensures Absolute(s + ['/'] + more)
  {
  }

  /** A path below another is refused when that one is, and otherwise continues its segments. */
  lemma CandidateBelow(prefix: seq<string>, rel: string, more: string, h: Host)
    ensures var outer := Candidate(prefix, rel, h); var inner := Candidate(prefix, rel + "/" + more, h);
            inner.Some? ==> outer.Some? && outer.value <= inner.value
  {
    hide ByteLen, Split, Kept, Absolute, CandidateText;
    var s, t := CandidateText(rel, h), CandidateText(more, h);
    TextBelow(rel, more, h);
    SplitJoined(s, '/', t);
    KeptAppend(Split(s, '/'), Split(t, '/'));
    ByteLenGrows(rel, "/" + more);
    assert rel + "/" + more == rel + ("/" + more);
    if Absolute(s) { AbsoluteBelow(s, t); }
  }

  lemma {:induction false} JoinPathBelow(a: seq<string>, b: seq<string>)
    requires a != []
    ensures JoinPath(a + b) == if b == [] then JoinPath(a) else JoinPath(a) + "/" + JoinPath(b)
  {
    if b == [] {
      assert a + b == a;
    } else if |a| == 1 {
      assert (a + b)[1..] == b;
    } else {
      JoinPathBelow(a[1..], b);
      assert (a + b)[1..] == a[1..] + b;
    }
  }

  lemma UnderBelow(a: seq<string>, b: seq<string>, prot: string)
    requires prot != "" && Under(JoinPath(a), prot)
    ensures Under(JoinPath(a + b), prot)
  {
    assert a != [];
    hide JoinPath;
    JoinPathBelow(a, b);
    var below := JoinPath(a + b);
    if b != [] {
      assert below[..|JoinPath(a)| + 1] == JoinPath(a) + "/";
      if JoinPath(a) != prot { assert below[..|prot| + 1] == JoinPath(a)[..|prot| + 1]; }
    }
  }

  /**
   In any history of reloads, detachments and protections, a path denied for its spelling, a protected file or a
   manifest rule stays denied for everything below it.
   */
  lemma DenialIsInherited(changes: seq<Change>, prefix: seq<string>, rel: string, more: string, h: Host)
    requires SpellingDenied(Run(changes, h), prefix, rel, h)
    ensures SpellingDenied(Run(changes, h), prefix, rel + "/" + more, h)
  {
    hide Run, Candidate, Denies, Loaded, JoinPath, Under;
    var p := Run(changes, h);
    RunPublishes(changes, h);
    NamesAreNamed(changes, h);
    CandidateBelow(prefix, rel, more, h);
    var outer, inner := Candidate(prefix, rel, h), Candidate(prefix, rel + "/" + more, h);
    if inner.Some? {
      var rest := inner.value[|outer.value|..];
      assert inner.value == outer.value + rest;
      if prot :| prot in p.protected && Under(JoinPath(outer.value), prot) {
        UnderBelow(outer.value, rest, prot);
      } else if p.loaded.Some? {
        var ms :| p.additive == Loaded(ms, h);
        LoadedInherits(ms, h, outer.value, rest);
      } else {
        NothingDenied(outer.value, h.glob);
      }
    }
  }

  /** From a detachment until the next attachment, whatever else happens, the policy is detached: every guard answers so. */
  lemma {:induction false} DetachmentLasts(before: seq<Change>, after: seq<Change>, h: Host)
    requires forall k :: 0 <= k < |after| ==> !after[k].Restore?
    ensures Run(before + [Cut] + after, h).detached
  {
    hide Loaded, GoodPath, Contained, CandidateText;
    var all := before + [Cut] + after;
    if after == [] {
      assert all[..|all| - 1] == before;
    } else {
      DetachmentLasts(before, after[..|after| - 1], h);
      assert all[..|all| - 1] == before + [Cut] + after[..|after| - 1];
    }
  }

  // Everything protected is still protected.
  ghost predicate Keeps(p: Policy, p': Policy) {
    p.protected <= p'.protected && forall f :: f in p.identities ==> f in p'.identities
  }

  /** A config source protected by name or by file stays so whatever is reloaded, detached, attached or protected afterwards. */
  lemma {:induction false} ProtectionsLast(before: seq<Change>, after: seq<Change>, h: Host)
    ensures Keeps(Run(before, h), Run(before + after, h))
  {
    hide Loaded, GoodPath, Contained, CandidateText;
    if after == [] {
      assert before + after == before;
    } else {
      ProtectionsLast(before, after[..|after| - 1], h);
      assert (before + after)[..|before + after| - 1] == before + after[..|after| - 1];
    }
  }

  /**
   Once a config source is protected, in every later history a path that spells its name, or one below it, is denied, and so
   is every path that is a hard link of its file.
   */
  lemma SourcesStayDenied(before: seq<Change>, path: string, found: Lookup, paths: Paths, after: seq<Change>,
                          prefix: seq<string>, rel: string, h: Host)
    requires GoodPath(path, paths) && paths.relative(path).Some?
    ensures var p := Run(before + [Protect(path, found, paths)] + after, h);
            && (found.Found? ==> Aliases(p, found))
            && (Contained(paths.relative(path).value, paths) && Candidate(prefix, rel, h).Some?
                && Under(JoinPath(Candidate(prefix, rel, h).value), CandidateText(paths.relative(path).value, h)) ==>
                  SpellingDenied(p, prefix, rel, h))
  {
    hide Loaded, GoodPath, Contained, CandidateText, Candidate, Under, JoinPath, Denies;
    var once := before + [Protect(path, found, paths)];
    assert once[..|once| - 1] == before;
    ProtectionsLast(once, after, h);
  }
}
