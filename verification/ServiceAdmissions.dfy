/** The steps of an admission that holds its conversation keep the lifecycle invariant. */
module ServiceAdmissions {
  import opened Options
  import opened ServiceState
  import opened ServiceSteps
  import opened ServiceInvariant
  import opened ServiceFrames
  import opened ServiceLifecycle

  // Admission t holds conversation c, whose part of the invariant is in place.
  ghost predicate Held(s: State, t: nat, c: ConversationId) {
    && t in s.admissions && !s.admissions[t].phase.Entered? && s.admissions[t].request.identity.conversation == c
    && c in s.convs && s.convs[c].holder == Some(t)
    && ConvOk(s, c) && OwnLinks(s, c) && StageOk(s)
  }

  lemma HeldFrom(s: State, t: nat)
    requires Lifecycle(s) && Holds(s, t)
    ensures Held(s, t, s.admissions[t].request.identity.conversation)
  {
    hide ConvOk;
    assert AdmissionOk(s, t);
    OwnFrom(s, s.admissions[t].request.identity.conversation);
  }

  lemma HeldIs(s: State, t: nat, c: ConversationId)
    requires Held(s, t, c)
    ensures t in s.admissions && c in s.convs && Holds(s, t) && s.admissions[t].request.identity.conversation == c
    ensures HeldOk(s, c, s.convs[c])
  {
  }

  // ----- releasing ------------------------------------------------------------------------------

  // Releasing into idle, or back into pending consent when the grant failed.
  ghost predicate Releasable(s: State, t: nat, c: ConversationId, v: Conv) {
    && Held(s, t, c)
    && v.runner == s.convs[c].runner && v.active.None? && s.convs[c].active.None? && v.stale == s.convs[c].stale
    && v.runnerEpoch == s.convs[c].runnerEpoch && v.runnerConfigEpoch == s.convs[c].runnerConfigEpoch
    && v.challenge == s.convs[c].challenge
    && v.state == (if s.admissions[t].phase.Granting? then PendingConsent else Idle)
    && !(s.admissions[t].phase.Built? && s.admissions[t].phase.constructed)
  }

  lemma ReleasedApart(s: State, t: nat, c: ConversationId, v: Conv)
    requires Releasable(s, t, c, v)
    ensures Apart(s, Release(s, t, v), c)
  {
    hide SameConvs, SameAdmissions, SameRuns, SameRunners, SameIndex, SameLaunches, SameResets, Grown, ConvOk, OwnLinks, StageOk;
    var s' := Release(s, t, v);
    SameAll(s, c);
    ConvSet(s.convs, c, s'.convs[c]);
    AdmissionSet(s.admissions, t, s.admissions[t], c);
    SameResetsFrom(s, s', c);
  }

  lemma ReleasedConv(s: State, t: nat, c: ConversationId, v: Conv)
    requires Releasable(s, t, c, v)
    ensures ConvOk(Release(s, t, v), c)
  {
    hide OwnLinks, StageOk;
  }

  lemma ReleasedLinks(s: State, t: nat, c: ConversationId, v: Conv)
    requires Releasable(s, t, c, v) && s.writer.None? && s.stage in {Open, Marked}
    ensures OwnLinks(Release(s, t, v), c) && StageOk(Release(s, t, v))
  {
    hide ConvOk;
  }

  lemma ReleasedKeeps(s: State, t: nat, c: ConversationId, v: Conv)
    requires Lifecycle(s) && Releasable(s, t, c, v)
    ensures Lifecycle(Release(s, t, v))
  {
    ReleasableIs(s, t, c, v);
    hide *;
    var s' := Release(s, t, v);
    ReleasedApart(s, t, c, v);
    ReleasedConv(s, t, c, v);
    ReleasedLinks(s, t, c, v);
    OwnWhole(s', c);
    Combine(s, s', c);
  }

  lemma ReleasableIs(s: State, t: nat, c: ConversationId, v: Conv)
    requires Releasable(s, t, c, v)
    ensures t in s.admissions && s.writer.None? && s.stage in {Open, Marked}
  {
  }

  // ----- the grant ------------------------------------------------------------------------------

  function GrantedState(s: State, t: nat, c: ConversationId): State
    requires t in s.admissions && s.admissions[t].phase.Granting? && c in s.convs && s.convs[c].challenge.Some?
  {
    var a := s.admissions[t];
    var v := s.convs[c];
    s.(consent := Granted(s.consent, TurnConsent(v.challenge.value), [a.phase.target.destination], a.phase.checkedAt),
       convs := s.convs[c := v.(challenge := None)],
       admissions := s.admissions[t := a.(phase := Building(a.phase.target, a.phase.configEpoch))])
  }

  lemma GrantedApart(s: State, t: nat, c: ConversationId)
    requires Held(s, t, c) && s.admissions[t].phase.Granting? && s.convs[c].challenge.Some?
    ensures Apart(s, GrantedState(s, t, c), c)
  {
    hide SameConvs, SameAdmissions, SameRuns, SameRunners, SameIndex, SameLaunches, SameResets, Grown, ConvOk, OwnLinks, StageOk;
    var s' := GrantedState(s, t, c);
    SameAll(s, c);
    ConvSet(s.convs, c, s'.convs[c]);
    AdmissionSet(s.admissions, t, s'.admissions[t], c);
    SameResetsFrom(s, s', c);
  }

  lemma GrantedConv(s: State, t: nat, c: ConversationId)
    requires Held(s, t, c) && s.admissions[t].phase.Granting? && s.convs[c].challenge.Some? && s.consent.open
    ensures ConvOk(GrantedState(s, t, c), c)
  {
    hide OwnLinks, StageOk;
  }

  lemma GrantedLinks(s: State, t: nat, c: ConversationId)
    requires Held(s, t, c) && s.admissions[t].phase.Granting? && s.convs[c].challenge.Some?
    ensures OwnLinks(GrantedState(s, t, c), c) && StageOk(GrantedState(s, t, c))
  {
  }

  lemma GrantTurnKeeps(s: State, t: nat, persisted: bool)
    requires Lifecycle(s)
    ensures Lifecycle(GrantTurn(s, t, persisted))
  {
    hide Lifecycle, ConvOk, OwnLinks, StageOk, Apart, Own;
    if Holds(s, t) && s.admissions[t].phase.Granting? {
      HeldFrom(s, t);
      var c := s.admissions[t].request.identity.conversation;
      HeldIs(s, t, c);
      var s' := GrantTurn(s, t, persisted);
      if s' == Release(s, t, s.convs[c].(state := PendingConsent)) {
        ReleasedKeeps(s, t, c, s.convs[c].(state := PendingConsent));
      } else {
        GrantedKeeps(s, t, c);
      }
    }
  }

  lemma GrantedKeeps(s: State, t: nat, c: ConversationId)
    requires Lifecycle(s) && Held(s, t, c) && s.admissions[t].phase.Granting? && s.convs[c].challenge.Some? && s.consent.open
    ensures Lifecycle(GrantedState(s, t, c))
  {
    HeldIs(s, t, c);
    hide *;
    var s' := GrantedState(s, t, c);
    GrantedApart(s, t, c);
    GrantedConv(s, t, c);
    GrantedLinks(s, t, c);
    OwnWhole(s', c);
    Combine(s, s', c);
  }

  // ----- step 7: runners ------------------------------------------------------------------------

  // The record, one runner and the admission's phase change together.
  function Rebuilt(s: State, t: nat, c: ConversationId, v: Conv, r: nat, runner: Runner, phase: Phase): State
    requires t in s.admissions
  {
    s.(runners := s.runners[r := runner], convs := s.convs[c := v],
       admissions := s.admissions[t := s.admissions[t].(phase := phase)])
  }

  // Closing the cached runner and dropping it from the record.
  ghost predicate Uncaches(s: State, t: nat, c: ConversationId, v: Conv, r: nat, runner: Runner, phase: Phase) {
    && Held(s, t, c) && s.admissions[t].phase.Building?
    && s.convs[c].runner == Some(r) && r in s.runners && s.runners[r].conversation == c
    && v == DropRunner(s.convs[c]) && runner == s.runners[r].(closed := true) && phase == s.admissions[t].phase
  }

  // Closing the runner the admission itself built.
  ghost predicate Unbuilds(s: State, t: nat, c: ConversationId, v: Conv, r: nat, runner: Runner, phase: Phase) {
    && Held(s, t, c) && phase.Building? && s.admissions[t].phase == Built(phase.target, phase.configEpoch, r, true)
    && r in s.runners && s.runners[r].conversation == c
    && v == s.convs[c] && v.runner.None? && runner == s.runners[r].(closed := true)
  }

  // Adding a runner for the admission's target, live or closed at once.
  ghost predicate Constructs(s: State, t: nat, c: ConversationId, v: Conv, r: nat, runner: Runner, phase: Phase) {
    && Held(s, t, c) && s.admissions[t].phase.Building? && r !in s.runners
    && v == s.convs[c] && v.runner.None? && runner == Runner(c, s.admissions[t].phase.target, runner.closed)
    && phase == (if runner.closed then s.admissions[t].phase
                 else Built(s.admissions[t].phase.target, s.admissions[t].phase.configEpoch, r, true))
  }

  ghost predicate Rebuildable(s: State, t: nat, c: ConversationId, v: Conv, r: nat, runner: Runner, phase: Phase) {
    || Uncaches(s, t, c, v, r, runner, phase)
    || Unbuilds(s, t, c, v, r, runner, phase)
    || Constructs(s, t, c, v, r, runner, phase)
  }

  lemma RebuiltApart(s: State, t: nat, c: ConversationId, v: Conv, r: nat, runner: Runner, phase: Phase)
    requires Rebuildable(s, t, c, v, r, runner, phase)
    ensures Apart(s, Rebuilt(s, t, c, v, r, runner, phase), c)
  {
    hide SameConvs, SameAdmissions, SameRuns, SameRunners, SameIndex, SameLaunches, SameResets, Grown, ConvOk, OwnLinks, StageOk;
    var s' := Rebuilt(s, t, c, v, r, runner, phase);
    SameAll(s, c);
    ConvSet(s.convs, c, s'.convs[c]);
    AdmissionSet(s.admissions, t, s'.admissions[t], c);
    RunnerSet(s.runners, r, runner, c);
    SameResetsFrom(s, s', c);
  }

  lemma RebuiltConv(s: State, t: nat, c: ConversationId, v: Conv, r: nat, runner: Runner, phase: Phase)
    requires Rebuildable(s, t, c, v, r, runner, phase)
    ensures ConvOk(Rebuilt(s, t, c, v, r, runner, phase), c)
  {
    hide OwnLinks, StageOk;
  }

  lemma UncachesLinks(s: State, t: nat, c: ConversationId, v: Conv, r: nat, runner: Runner, phase: Phase)
    requires Uncaches(s, t, c, v, r, runner, phase) && HeldOk(s, c, s.convs[c])
    ensures var s' := Rebuilt(s, t, c, v, r, runner, phase); OwnLinks(s', c) && StageOk(s')
  {
    hide ConvOk;
  }

  lemma UnbuildsLinks(s: State, t: nat, c: ConversationId, v: Conv, r: nat, runner: Runner, phase: Phase)
    requires Unbuilds(s, t, c, v, r, runner, phase) && HeldOk(s, c, s.convs[c])
    ensures var s' := Rebuilt(s, t, c, v, r, runner, phase); OwnLinks(s', c) && StageOk(s')
  {
    hide ConvOk;
  }

  lemma ConstructsLinks(s: State, t: nat, c: ConversationId, v: Conv, r: nat, runner: Runner, phase: Phase)
    requires Constructs(s, t, c, v, r, runner, phase) && HeldOk(s, c, s.convs[c])
    ensures var s' := Rebuilt(s, t, c, v, r, runner, phase); OwnLinks(s', c) && StageOk(s')
  {
    hide ConvOk;
  }

  lemma RebuiltKeeps(s: State, t: nat, c: ConversationId, v: Conv, r: nat, runner: Runner, phase: Phase)
    requires Lifecycle(s) && Rebuildable(s, t, c, v, r, runner, phase)
    ensures Lifecycle(Rebuilt(s, t, c, v, r, runner, phase))
  {
    hide Lifecycle, Held, Apart, Own, OwnLinks, StageOk, ConvOk, HeldOk;
    HeldIs(s, t, c);
    RebuiltApart(s, t, c, v, r, runner, phase);
    RebuiltConv(s, t, c, v, r, runner, phase);
    if Uncaches(s, t, c, v, r, runner, phase) {
      UncachesLinks(s, t, c, v, r, runner, phase);
    } else if Unbuilds(s, t, c, v, r, runner, phase) {
      UnbuildsLinks(s, t, c, v, r, runner, phase);
    } else {
      ConstructsLinks(s, t, c, v, r, runner, phase);
    }
    var s' := Rebuilt(s, t, c, v, r, runner, phase);
    OwnWhole(s', c);
    Combine(s, s', c);
  }

  lemma ConstructKeeps(s: State, t: nat, env: BuildEnv)
    requires Lifecycle(s) && Holds(s, t) && s.admissions[t].phase.Building?
    requires s.convs[s.admissions[t].request.identity.conversation].runner.None?
    ensures Lifecycle(Construct(s, t, s.convs[s.admissions[t].request.identity.conversation], env))
  {
    hide Lifecycle, ConvOk, OwnLinks, StageOk, HeldOk;
    var a := s.admissions[t];
    var c := a.request.identity.conversation;
    var v := s.convs[c];
    HeldFrom(s, t);
    HeldIs(s, t, c);
    HeldIdle(s, c);
    if !env.constructs || env.runner in s.runners {
      ReleasedKeeps(s, t, c, v.(state := Idle));
    } else {
      var runner := Runner(c, a.phase.target, !env.rootStable);
      var phase := if env.rootStable then Built(a.phase.target, a.phase.configEpoch, env.runner, true) else a.phase;
      var s1 := Rebuilt(s, t, c, v, env.runner, runner, phase);
      assert Constructs(s, t, c, v, env.runner, runner, phase);
      RebuiltKeeps(s, t, c, v, env.runner, runner, phase);
      if !env.rootStable {
        HeldFrom(s1, t);
        HeldIdle(s1, c);
        ReleasedKeeps(s1, t, c, v.(state := Idle));
        assert s1.convs[c := v.(state := Idle, holder := None)] == s.convs[c := v.(state := Idle, holder := None)];
        assert s1.admissions - {t} == s.admissions - {t};
      }
    }
  }

  // A held record has no active run.
  lemma HeldIdle(s: State, c: ConversationId)
    requires c in s.convs && s.convs[c].holder.Some? && ConvOk(s, c)
    ensures s.convs[c].active.None? && s.convs[c].state == Starting
  {
  }

  lemma BuildKeeps(s: State, t: nat, env: BuildEnv)
    requires Lifecycle(s)
    ensures Lifecycle(Build(s, t, env))
  {
    hide Lifecycle, ConvOk, OwnLinks, StageOk, HeldOk, Construct;
    if Holds(s, t) && s.admissions[t].phase.Building? {
      var a := s.admissions[t];
      var c := a.request.identity.conversation;
      var v := s.convs[c];
      HeldFrom(s, t);
      HeldIs(s, t, c);
      HeldIdle(s, c);
      if Mismatched(v, env, a.request.identity.repoEpoch, a.phase.configEpoch) {
        UncacheThenConstruct(s, t, env);
      } else if v.runner.None? {
        ConstructKeeps(s, t, env);
      } else {
        ReuseKeeps(s, t, c);
      }
    }
  }

  lemma UncacheThenConstruct(s: State, t: nat, env: BuildEnv)
    requires Lifecycle(s) && Holds(s, t) && s.admissions[t].phase.Building?
    requires s.convs[s.admissions[t].request.identity.conversation].runner.Some?
    ensures var v := s.convs[s.admissions[t].request.identity.conversation];
            Lifecycle(Construct(s.(runners := CloseAll(s.runners, {v.runner.value})), t, DropRunner(v), env))
  {
    hide Lifecycle, OwnLinks, StageOk, HeldOk, ChallengeOk;
    var c := s.admissions[t].request.identity.conversation;
    var v := s.convs[c];
    var r := v.runner.value;
    HeldFrom(s, t);
    RunnerClosed(s.runners, r, c);
    var s1 := Rebuilt(s, t, c, DropRunner(v), r, s.runners[r].(closed := true), s.admissions[t].phase);
    assert Uncaches(s, t, c, DropRunner(v), r, s.runners[r].(closed := true), s.admissions[t].phase);
    RebuiltKeeps(s, t, c, DropRunner(v), r, s.runners[r].(closed := true), s.admissions[t].phase);
    ConstructKeeps(s1, t, env);
    SameConstruct(s, s1, t, c, DropRunner(v), env);
  }

  lemma SameConstruct(s: State, s1: State, t: nat, c: ConversationId, v: Conv, env: BuildEnv)
    requires Holds(s, t) && s.admissions[t].phase.Building? && s.admissions[t].request.identity.conversation == c
    requires v.runner.None? && s.convs[c].runner.Some? && s.convs[c].runner.value in s.runners
    requires s1 == Rebuilt(s, t, c, v, s.convs[c].runner.value, s.runners[s.convs[c].runner.value].(closed := true), s.admissions[t].phase)
    requires CloseAll(s.runners, {s.convs[c].runner.value}) == s1.runners
    ensures Construct(s.(runners := s1.runners), t, v, env) == Construct(s1, t, v, env)
  {
    assert s1.admissions == s.admissions;
    var s0 := s.(runners := s1.runners);
    assert forall w {:trigger s1.convs[c := w]} :: s1.convs[c := w] == s0.convs[c := w];
  }

  function Reused(s: State, t: nat, r: nat): State
    requires t in s.admissions && s.admissions[t].phase.Building?
  {
    var a := s.admissions[t];
    s.(admissions := s.admissions[t := a.(phase := Built(a.phase.target, a.phase.configEpoch, r, false))])
  }

  lemma ReuseApart(s: State, t: nat, c: ConversationId)
    requires Held(s, t, c) && s.admissions[t].phase.Building? && s.convs[c].runner.Some?
    ensures Apart(s, Reused(s, t, s.convs[c].runner.value), c)
  {
    hide SameConvs, SameAdmissions, SameRuns, SameRunners, SameIndex, SameLaunches, SameResets, Grown, ConvOk, OwnLinks, StageOk;
    var s' := Reused(s, t, s.convs[c].runner.value);
    SameAll(s, c);
    ConvSet(s.convs, c, s.convs[c]);
    assert s.convs[c := s.convs[c]] == s.convs;
    AdmissionSet(s.admissions, t, s'.admissions[t], c);
    SameResetsFrom(s, s', c);
  }

  lemma ReuseOwn(s: State, t: nat, c: ConversationId)
    requires Held(s, t, c) && s.admissions[t].phase.Building? && s.convs[c].runner.Some?
    ensures var s' := Reused(s, t, s.convs[c].runner.value); ConvOk(s', c) && StageOk(s')
  {
    hide OwnLinks;
  }

  lemma ReuseLinks(s: State, t: nat, c: ConversationId)
    requires Held(s, t, c) && s.admissions[t].phase.Building? && s.convs[c].runner.Some?
    ensures OwnLinks(Reused(s, t, s.convs[c].runner.value), c)
  {
    hide ConvOk, StageOk;
  }

  lemma ReuseKeeps(s: State, t: nat, c: ConversationId)
    requires Lifecycle(s) && Held(s, t, c) && s.admissions[t].phase.Building? && s.convs[c].runner.Some?
    ensures Lifecycle(Reused(s, t, s.convs[c].runner.value))
  {
    HeldIs(s, t, c);
    hide *;
    var s' := Reused(s, t, s.convs[c].runner.value);
    ReuseApart(s, t, c);
    ReuseOwn(s, t, c);
    ReuseLinks(s, t, c);
    OwnWhole(s', c);
    Combine(s, s', c);
  }

  // ----- step 8: registration -------------------------------------------------------------------

  lemma LaunchedApart(s: State, t: nat, h: nat, c: ConversationId)
    requires Held(s, t, c) && s.admissions[t].phase.Built? && h !in s.runs && !s.Closing()
    requires Reserved(s, s.admissions[t].request.identity)
    ensures Apart(s, Register(s, t, h), c)
  {
    hide SameConvs, SameAdmissions, SameRuns, SameRunners, SameIndex, SameLaunches, SameResets, Grown, ConvOk, OwnLinks, StageOk;
    var s' := Register(s, t, h);
    var id := s.admissions[t].request.identity;
    SameAll(s, c);
    ConvSet(s.convs, c, s'.convs[c]);
    AdmissionSet(s.admissions, t, s.admissions[t], c);
    RunSet(s.runs, h, s'.runs[h], c);
    Indexed(s.active, s.launched, s.claims, id.runId, h, c);
    SameResetsFrom(s, s', c);
  }

  lemma LaunchedConv(s: State, t: nat, h: nat, c: ConversationId)
    requires Held(s, t, c) && s.admissions[t].phase.Built? && h !in s.runs && !s.Closing()
    ensures ConvOk(Register(s, t, h), c)
  {
    hide OwnLinks, StageOk;
  }

  lemma LaunchedRun(s: State, t: nat, h: nat, c: ConversationId)
    requires Held(s, t, c) && s.admissions[t].phase.Built? && h !in s.runs && !s.Closing() && HeldOk(s, c, s.convs[c])
    ensures RunOk(Register(s, t, h), h)
  {
    hide ConvOk, OwnLinks, StageOk;
  }

  lemma LaunchedUsers(s: State, t: nat, h: nat, c: ConversationId)
    requires Held(s, t, c) && s.admissions[t].phase.Built? && h !in s.runs && !s.Closing()
    requires s.convs[c].active.None? && Reserved(s, s.admissions[t].request.identity)
    ensures OwnUsers(Register(s, t, h), c)
  {
    hide ConvOk, OwnRunners, StageOk, HeldOk;
    HeldIs(s, t, c);
    LaunchedRun(s, t, h, c);
  }

  lemma LaunchedRunners(s: State, t: nat, h: nat, c: ConversationId)
    requires Held(s, t, c) && s.admissions[t].phase.Built? && h !in s.runs && !s.Closing() && HeldOk(s, c, s.convs[c])
    ensures OwnRunners(Register(s, t, h), c) && StageOk(Register(s, t, h))
  {
    hide ConvOk, OwnUsers;
  }

  lemma RegisterKeeps(s: State, t: nat, h: nat)
    requires Lifecycle(s)
    ensures Lifecycle(Register(s, t, h))
  {
    hide Lifecycle, ConvOk, OwnLinks, StageOk, Apart, Own;
    if Holds(s, t) && s.admissions[t].phase.Built? && h !in s.runs {
      var c := s.admissions[t].request.identity.conversation;
      HeldFrom(s, t);
      HeldIs(s, t, c);
      if s.Closing() {
        RollbackKeeps(s, t, h);
      } else {
        LaunchedApart(s, t, h, c);
        LaunchedConv(s, t, h, c);
        HeldIdle(s, c);
        LaunchedUsers(s, t, h, c);
        LaunchedRunners(s, t, h, c);
        LinksWhole(Register(s, t, h), c);
        OwnWhole(Register(s, t, h), c);
        Combine(s, Register(s, t, h), c);
      }
    }
  }

  lemma RollbackKeeps(s: State, t: nat, h: nat)
    requires Lifecycle(s) && Holds(s, t) && s.admissions[t].phase.Built? && h !in s.runs && s.Closing()
    ensures Lifecycle(Register(s, t, h))
  {
    hide Lifecycle, OwnLinks, StageOk, ChallengeOk;
    var a := s.admissions[t];
    var c := a.request.identity.conversation;
    var v := s.convs[c];
    HeldFrom(s, t);
    if !a.phase.constructed {
      ReleasedKeeps(s, t, c, v.(state := Idle));
    } else {
      var r := a.phase.runner;
      var phase := Building(a.phase.target, a.phase.configEpoch);
      RunnerClosed(s.runners, r, c);
      var s1 := Rebuilt(s, t, c, v, r, s.runners[r].(closed := true), phase);
      assert Unbuilds(s, t, c, v, r, s.runners[r].(closed := true), phase);
      RebuiltKeeps(s, t, c, v, r, s.runners[r].(closed := true), phase);
      HeldFrom(s1, t);
      ReleasedKeeps(s1, t, c, v.(state := Idle));
      assert s1.convs[c := v.(state := Idle, holder := None)] == s.convs[c := v.(state := Idle, holder := None)];
      assert s1.admissions - {t} == s.admissions - {t};
    }
  }
}
