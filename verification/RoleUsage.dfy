/** Which use cases reach which role: roleUsage of internal/ai/settings.go. */
module RoleUsage {
  /** Each configured role with its fallbacks, and each use case with its default role. */
  datatype Config = Config(models: map<string, seq<string>>, defaults: map<string, string>)

  // ----- reachability ---------------------------------------------------------------------------

  // A chain of fallbacks, each of a configured role.
  ghost predicate Chain(cfg: Config, path: seq<string>) {
    path != [] && forall i :: 0 <= i < |path| - 1 ==> path[i] in cfg.models && path[i + 1] in cfg.models[path[i]]
  }

  ghost predicate ChainTo(cfg: Config, path: seq<string>, start: string, role: string) {
    Chain(cfg, path) && path[0] == start && path[|path| - 1] == role
  }

  ghost predicate Reaches(cfg: Config, start: string, role: string) { exists path :: ChainTo(cfg, path, start, role) }

  ghost predicate Routes(cfg: Config, useCase: string, role: string) {
    useCase in cfg.defaults && role in cfg.models && Reaches(cfg, cfg.defaults[useCase], role)
  }

  lemma ReachesSelf(cfg: Config, role: string)
    ensures Reaches(cfg, role, role)
  {
    assert ChainTo(cfg, [role], role, role);
  }

  lemma ReachesFirst(cfg: Config, role: string, next: string, far: string)
    requires role in cfg.models && next in cfg.models[role] && Reaches(cfg, next, far)
    ensures Reaches(cfg, role, far)
  {
    var path :| ChainTo(cfg, path, next, far);
    assert ChainTo(cfg, [role] + path, role, far);
  }

  // ----- the walk -------------------------------------------------------------------------------

  function Fallbacks(cfg: Config): set<string> { set m, f | m in cfg.models && f in cfg.models[m] :: f }

  // Every role the configuration mentions.
  function Mentioned(cfg: Config): set<string> { cfg.models.Keys + Fallbacks(cfg) + cfg.defaults.Values }

  function ListOf(routed: map<string, seq<string>>, role: string): seq<string> { if role in routed then routed[role] else [] }

  ghost predicate NonEmpty(routed: map<string, seq<string>>) { forall role :: role in routed ==> routed[role] != [] }

  // The roles seen since `before` have all their fallbacks seen.
  ghost predicate ClosedSince(cfg: Config, before: set<string>, seen: set<string>) {
    forall role, next :: role in seen && role !in before && role in cfg.models && next in cfg.models[role] ==> next in seen
  }

  // The use case was appended once to the list of each configured role seen since `before`, and to no other.
  ghost predicate AppendedSince(cfg: Config, useCase: string, before: set<string>, seen: set<string>,
                                routed0: map<string, seq<string>>, routed: map<string, seq<string>>) {
    forall role ::
      ListOf(routed, role)
      == ListOf(routed0, role) + (if role in seen && role !in before && role in cfg.models then [useCase] else [])
  }

  ghost predicate SeenFrom(cfg: Config, role: string, before: set<string>, seen: set<string>) {
    before <= seen && forall r :: r in seen && r !in before ==> Reaches(cfg, role, r)
  }

  // What walking changes: the roles seen, those referenced, and the lists.
  datatype Walk = Walk(seen: set<string>, referenced: set<string>, routed: map<string, seq<string>>)

  // From walk `w0` to `w`, walking for `role`; roles in `open` need not have their fallbacks seen yet.
  ghost predicate Walked(cfg: Config, useCase: string, role: string, open: set<string>, w0: Walk, w: Walk) {
    && w.seen <= Mentioned(cfg) && NonEmpty(w.routed)
    && SeenFrom(cfg, role, w0.seen, w.seen) && ClosedSince(cfg, w0.seen + open, w.seen)
    && w.referenced == w0.referenced + (w.seen - w0.seen)
    && AppendedSince(cfg, useCase, w0.seen, w.seen, w0.routed, w.routed)
  }

  ghost predicate WalkOk(cfg: Config, w: Walk) { w.seen <= Mentioned(cfg) && NonEmpty(w.routed) }

  method WalkRole(cfg: Config, useCase: string, role: string, w0: Walk) returns (w: Walk)
    requires role in Mentioned(cfg) && WalkOk(cfg, w0)
    ensures role in w.seen && Walked(cfg, useCase, role, {}, w0, w)
    decreases |Mentioned(cfg) - w0.seen|
  {
    hide *;
    w := w0;
    if role in w.seen {
      StandStill(cfg, useCase, role, w);
      return;
    }
    w := w.(seen := w.seen + {role}, referenced := w.referenced + {role});
    if role !in cfg.models {
      Leaf(cfg, useCase, role, w0);
      return;
    }
    w := w.(routed := w.routed[role := ListOf(w.routed, role) + [useCase]]);
    Entered(cfg, useCase, role, w0);
    var fallbacks := cfg.models[role];
    for i := 0 to |fallbacks|
      invariant role in w.seen && (forall k :: 0 <= k < i ==> fallbacks[k] in w.seen)
      invariant Walked(cfg, useCase, role, {role}, w0, w)
    {
      FallbackMentioned(cfg, role, fallbacks[i]);
      WalkedFacts(cfg, useCase, role, {role}, w0, w);
      Smaller(Mentioned(cfg), w0.seen, w.seen, role);
      var w1 := WalkRole(cfg, useCase, fallbacks[i], w);
      WalkedFacts(cfg, useCase, fallbacks[i], {}, w, w1);
      WalkedOn(cfg, useCase, role, fallbacks[i], w0, w, w1);
      w := w1;
    }
    Left(cfg, useCase, role, w0, w);
  }

  lemma WalkedFacts(cfg: Config, useCase: string, role: string, open: set<string>, w0: Walk, w: Walk)
    requires Walked(cfg, useCase, role, open, w0, w)
    ensures WalkOk(cfg, w) && w0.seen <= w.seen
  {
    hide Reaches, Mentioned, NonEmpty;
  }

  lemma StandStill(cfg: Config, useCase: string, role: string, w: Walk)
    requires WalkOk(cfg, w)
    ensures Walked(cfg, useCase, role, {}, w, w)
  {
    hide Reaches, Mentioned, NonEmpty;
  }

  lemma Leaf(cfg: Config, useCase: string, role: string, w0: Walk)
    requires role in Mentioned(cfg) && WalkOk(cfg, w0) && role !in w0.seen && role !in cfg.models
    ensures Walked(cfg, useCase, role, {}, w0, w0.(seen := w0.seen + {role}, referenced := w0.referenced + {role}))
  {
    ReachesSelf(cfg, role);
    hide Reaches, Mentioned, NonEmpty, ListOf;
  }

  lemma Entered(cfg: Config, useCase: string, role: string, w0: Walk)
    requires role in Mentioned(cfg) && WalkOk(cfg, w0) && role !in w0.seen && role in cfg.models
    ensures Walked(cfg, useCase, role, {role}, w0,
                   Walk(w0.seen + {role}, w0.referenced + {role}, w0.routed[role := ListOf(w0.routed, role) + [useCase]]))
  {
    ReachesSelf(cfg, role);
    hide Reaches, Mentioned;
  }

  lemma Left(cfg: Config, useCase: string, role: string, w0: Walk, w: Walk)
    requires role in w.seen && role in cfg.models && (forall k :: 0 <= k < |cfg.models[role]| ==> cfg.models[role][k] in w.seen)
    requires Walked(cfg, useCase, role, {role}, w0, w)
    ensures Walked(cfg, useCase, role, {}, w0, w)
  {
    hide SeenFrom, AppendedSince, Mentioned, NonEmpty;
  }

  lemma Smaller(all: set<string>, before: set<string>, seen: set<string>, role: string)
    requires role in all && role !in before && role in seen && before <= seen
    ensures |all - seen| < |all - before|
  {
    assert all - seen <= (all - before) - {role};
    SubsetSmaller(all - seen, (all - before) - {role});
  }

  lemma {:induction false} SubsetSmaller(a: set<string>, b: set<string>)
    requires a <= b
    ensures |a| <= |b|
  {
    if a != {} {
      var x :| x in a;
      SubsetSmaller(a - {x}, b - {x});
    }
  }

  lemma FallbackMentioned(cfg: Config, role: string, next: string)
    requires role in cfg.models && next in cfg.models[role]
    ensures next in Mentioned(cfg)
  {
  }

  // One more fallback walked, seen from the role.
  lemma WalkedOn(cfg: Config, useCase: string, role: string, next: string, w0: Walk, w: Walk, w1: Walk)
    requires role in cfg.models && next in cfg.models[role] && role in w.seen
    requires Walked(cfg, useCase, role, {role}, w0, w) && Walked(cfg, useCase, next, {}, w, w1)
    ensures role in w1.seen && Walked(cfg, useCase, role, {role}, w0, w1)
  {
    hide Reaches, ListOf, Mentioned, NonEmpty;
    forall r | r in w1.seen && r !in w0.seen ensures Reaches(cfg, role, r) {
      if r !in w.seen { ReachesFirst(cfg, role, next, r); }
    }
    assert AppendedSince(cfg, useCase, w0.seen, w1.seen, w0.routed, w1.routed);
    assert ClosedSince(cfg, w0.seen + {role}, w1.seen);
  }

  /** A walk that starts with nothing seen ends with exactly what is reachable. */
  lemma SeenIsReachable(cfg: Config, start: string, seen: set<string>, far: string)
    requires start in seen && SeenFrom(cfg, start, {}, seen) && ClosedSince(cfg, {}, seen)
    ensures far in seen <==> Reaches(cfg, start, far)
  {
    if Reaches(cfg, start, far) {
      var path :| ChainTo(cfg, path, start, far);
      ChainStays(cfg, path, seen, |path| - 1);
    }
  }

  lemma {:induction false} ChainStays(cfg: Config, path: seq<string>, seen: set<string>, i: nat)
    requires Chain(cfg, path) && path[0] in seen && ClosedSince(cfg, {}, seen) && i < |path|
    ensures path[i] in seen
  {
    if i > 0 {
      ChainStays(cfg, path, seen, i - 1);
      assert path[i - 1] in cfg.models && path[i] in cfg.models[path[i - 1]];
    }
  }

  // ----- roleUsage ------------------------------------------------------------------------------

  // The use cases of a list that reach a role, in order.
  ghost function RoutedTo(cfg: Config, useCases: seq<string>, role: string): seq<string> {
    if useCases == [] then []
    else
      var last := useCases[|useCases| - 1];
      RoutedTo(cfg, useCases[..|useCases| - 1], role) + (if Routes(cfg, last, role) then [last] else [])
  }

  // A role some use case of the list reaches, configured or not.
  ghost predicate ReachedFrom(cfg: Config, useCases: seq<string>, role: string) {
    exists useCase :: useCase in useCases && useCase in cfg.defaults && Reaches(cfg, cfg.defaults[useCase], role)
  }

  ghost predicate Referenced(cfg: Config, useCases: seq<string>, referenced: set<string>) {
    forall role :: role in referenced <==> role in Fallbacks(cfg) || ReachedFrom(cfg, useCases, role)
  }

  /**
   `sorted` is the sorted list of use cases. Each role's list is the sorted use cases that reach it, and a role is
   referenced exactly when it is a fallback of some role or reached from a default. Cycles of fallbacks end the walk.
   */
  method Usage(cfg: Config, sorted: seq<string>) returns (routed: map<string, seq<string>>, referenced: set<string>)
    requires forall useCase :: useCase in sorted ==> useCase in cfg.defaults
    ensures forall role :: ListOf(routed, role) == RoutedTo(cfg, sorted, role)
    ensures NonEmpty(routed) && Referenced(cfg, sorted, referenced)
  {
    hide Reaches, ReachedFrom, NonEmpty, RoutedTo, Referenced, Routes, Fallbacks;
    routed, referenced := map[], Fallbacks(cfg);
    NothingYet(cfg);
    for i := 0 to |sorted|
      invariant forall role :: ListOf(routed, role) == RoutedTo(cfg, sorted[..i], role)
      invariant NonEmpty(routed) && Referenced(cfg, sorted[..i], referenced)
    {
      hide *;
      var useCase := sorted[i];
      assert sorted[..i + 1] == sorted[..i] + [useCase];
      DefaultMentioned(cfg, useCase);
      var w0 := Walk({}, referenced, routed);
      NothingSeen(cfg, w0);
      var w := WalkRole(cfg, useCase, cfg.defaults[useCase], w0);
      OneMoreUseCase(cfg, sorted[..i], useCase, w0, w);
      WalkedFacts(cfg, useCase, cfg.defaults[useCase], {}, w0, w);
      RoutedFacts(cfg, w);
      referenced, routed := w.referenced, w.routed;
    }
    assert sorted[..|sorted|] == sorted;
  }

  lemma NothingYet(cfg: Config)
    ensures forall role :: ListOf(map[], role) == RoutedTo(cfg, [], role)
    ensures NonEmpty(map[]) && Referenced(cfg, [], Fallbacks(cfg))
  {
  }

  lemma DefaultMentioned(cfg: Config, useCase: string)
    requires useCase in cfg.defaults
    ensures cfg.defaults[useCase] in Mentioned(cfg)
  {
  }

  lemma NothingSeen(cfg: Config, w: Walk)
    requires w.seen == {} && NonEmpty(w.routed)
    ensures WalkOk(cfg, w)
  {
  }

  lemma RoutedFacts(cfg: Config, w: Walk)
    requires WalkOk(cfg, w)
    ensures NonEmpty(w.routed)
  {
  }

  lemma OneMoreUseCase(cfg: Config, useCases: seq<string>, useCase: string, w0: Walk, w: Walk)
    requires useCase in cfg.defaults && cfg.defaults[useCase] in w.seen && w0.seen == {}
    requires Walked(cfg, useCase, cfg.defaults[useCase], {}, w0, w)
    requires (forall role :: ListOf(w0.routed, role) == RoutedTo(cfg, useCases, role)) && Referenced(cfg, useCases, w0.referenced)
    ensures forall role :: ListOf(w.routed, role) == RoutedTo(cfg, useCases + [useCase], role)
    ensures Referenced(cfg, useCases + [useCase], w.referenced)
  {
    hide *;
    assert w0.seen + {} == {};
    forall role
      ensures ListOf(w.routed, role) == RoutedTo(cfg, useCases + [useCase], role)
    {
      OneMoreList(cfg, useCases, useCase, w0, w, role);
    }
    OneMoreReferenced(cfg, useCases, useCase, w0, w);
  }

  lemma OneMoreList(cfg: Config, useCases: seq<string>, useCase: string, w0: Walk, w: Walk, role: string)
    requires useCase in cfg.defaults && cfg.defaults[useCase] in w.seen && w0.seen == {}
    requires Walked(cfg, useCase, cfg.defaults[useCase], {}, w0, w) && ListOf(w0.routed, role) == RoutedTo(cfg, useCases, role)
    ensures ListOf(w.routed, role) == RoutedTo(cfg, useCases + [useCase], role)
  {
    hide Reaches, SeenFrom, ClosedSince, ListOf, NonEmpty, Mentioned;
    assert w0.seen + {} == {};
    assert (useCases + [useCase])[..|useCases|] == useCases;
    SeenIsReachable(cfg, cfg.defaults[useCase], w.seen, role);
  }

  lemma OneMoreReferenced(cfg: Config, useCases: seq<string>, useCase: string, w0: Walk, w: Walk)
    requires useCase in cfg.defaults && cfg.defaults[useCase] in w.seen && w0.seen == {}
    requires Walked(cfg, useCase, cfg.defaults[useCase], {}, w0, w) && Referenced(cfg, useCases, w0.referenced)
    ensures Referenced(cfg, useCases + [useCase], w.referenced)
  {
    hide Reaches, ReachedFrom, SeenFrom, ClosedSince, AppendedSince, Fallbacks, NonEmpty, Mentioned;
    assert w0.seen + {} == {};
    forall role ensures role in w.referenced <==> role in Fallbacks(cfg) || ReachedFrom(cfg, useCases + [useCase], role) {
      SeenIsReachable(cfg, cfg.defaults[useCase], w.seen, role);
      ReachedSnoc(cfg, useCases, useCase, role);
    }
  }

  lemma ReachedSnoc(cfg: Config, useCases: seq<string>, useCase: string, role: string)
    requires useCase in cfg.defaults
    ensures ReachedFrom(cfg, useCases + [useCase], role) <==> ReachedFrom(cfg, useCases, role) || Reaches(cfg, cfg.defaults[useCase], role)
  {
    hide Reaches;
    assert forall u :: u in useCases + [useCase] <==> u in useCases || u == useCase;
  }

  /** With each use case listed once, a role's list holds a use case exactly once if it reaches the role, else not at all. */
  lemma {:induction false} ListedOnce(cfg: Config, useCases: seq<string>, useCase: string, role: string)
    requires forall u :: multiset(useCases)[u] <= 1
    ensures multiset(RoutedTo(cfg, useCases, role))[useCase] == if useCase in useCases && Routes(cfg, useCase, role) then 1 else 0
  {
    hide Routes;
    if useCases != [] {
      var init, last := useCases[..|useCases| - 1], useCases[|useCases| - 1];
      assert useCases == init + [last];
      forall u ensures multiset(init)[u] <= multiset(useCases)[u] {}
      assert last in init <==> last in multiset(init);
      ListedOnce(cfg, init, useCase, role);
    }
  }

  // ----- removing a role ------------------------------------------------------------------------

  function Without(cfg: Config, role: string): Config { cfg.(models := cfg.models - {role}) }

  lemma {:induction false} ChainAvoids(cfg: Config, path: seq<string>, gone: string, i: nat)
    requires Chain(cfg, path) && path[0] != gone && gone !in Fallbacks(cfg) && i < |path|
    ensures path[i] != gone
  {
    if i > 0 { assert path[i - 1] in cfg.models && path[i] in cfg.models[path[i - 1]]; }
  }

  lemma SameReach(cfg: Config, gone: string, start: string, role: string)
    requires gone !in Fallbacks(cfg) && start != gone
    ensures Reaches(Without(cfg, gone), start, role) <==> Reaches(cfg, start, role)
  {
    if path :| ChainTo(cfg, path, start, role) {
      forall i | 0 <= i < |path| ensures path[i] != gone { ChainAvoids(cfg, path, gone, i); }
      assert ChainTo(Without(cfg, gone), path, start, role);
    }
    if path :| ChainTo(Without(cfg, gone), path, start, role) {
      assert ChainTo(cfg, path, start, role);
    }
  }

  /** Removing a role that is reported unreferenced changes no other role's list; its own was empty. */
  lemma {:induction false} RemovalChangesNothing(cfg: Config, useCases: seq<string>, referenced: set<string>, gone: string, role: string)
    requires (forall u :: u in useCases ==> u in cfg.defaults) && Referenced(cfg, useCases, referenced) && gone !in referenced
    ensures role != gone ==> RoutedTo(Without(cfg, gone), useCases, role) == RoutedTo(cfg, useCases, role)
    ensures RoutedTo(cfg, useCases, gone) == []
  {
    assert gone !in Fallbacks(cfg) && !ReachedFrom(cfg, useCases, gone);
    RemovalStep(cfg, useCases, gone, role);
  }

  lemma {:induction false} RemovalStep(cfg: Config, useCases: seq<string>, gone: string, role: string)
    requires (forall u :: u in useCases ==> u in cfg.defaults) && gone !in Fallbacks(cfg) && !ReachedFrom(cfg, useCases, gone)
    ensures role != gone ==> RoutedTo(Without(cfg, gone), useCases, role) == RoutedTo(cfg, useCases, role)
    ensures RoutedTo(cfg, useCases, gone) == []
  {
    hide Reaches, Fallbacks;
    if useCases != [] {
      var init, last := useCases[..|useCases| - 1], useCases[|useCases| - 1];
      assert useCases == init + [last];
      assert forall u :: u in init ==> u in useCases;
      ReachedSnoc(cfg, init, last, gone);
      RemovalStep(cfg, init, gone, role);
      ReachesSelf(cfg, cfg.defaults[last]);
      SameReach(cfg, gone, cfg.defaults[last], role);
    }
  }
}
