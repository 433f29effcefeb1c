/** What the lifecycle lets happen: in every run a turn launches when it may, and a consent flow goes through. */
module ServiceProgress {
  import opened Options
  import opened ServiceState
  import opened ServiceSteps
  import opened ServiceInvariant
  import opened ServiceAdmissions
  import opened ServiceTurns
  import opened ServiceSafety

  // ----- admission ------------------------------------------------------------------------------

  // A request of a current identity to an open service with a usable target, and nothing in its way.
  ghost predicate Unhindered(s: State, t: nat, request: TurnRequest, target: Target, env: AdmitEnv) {
    && s.stage == Open && s.writer.None? && t !in s.admissions && Resolves(s, request.identity, true) && env.known && env.usable
    && s.Conversation(request.identity.conversation).holder.None?
    && s.config.snapshot.Some? && s.config.snapshot.value.target == Some(target)
  }

  // A first request on an idle conversation, with an unused run ID.
  ghost predicate Fresh(s: State, request: TurnRequest) {
    && request.challengeId.None? && request.identity.runId !in s.claims
    && Expire(s.Conversation(request.identity.conversation), s.now).state == Idle
  }

  // A retry of exactly the pending challenge, before it expires, for the same destination.
  ghost predicate Retry(s: State, request: TurnRequest, target: Target) {
    var v := s.Conversation(request.identity.conversation);
    && v.state == PendingConsent && v.challenge.Some? && s.now <= v.challenge.value.expiresAt
    && request.challengeId == Some(v.challenge.value.id) && v.challenge.value.identity == request.identity
    && v.challenge.value.destination == target.destination && target.destination.remote
    && request.identity.runId in s.claims && s.claims[request.identity.runId] == request.identity
  }

  // The state in which the commit is decided: the admission entered, the record's expired challenge dropped.
  ghost function Deciding(s: State, t: nat, request: TurnRequest): State {
    var c := request.identity.conversation;
    s.(admissions := s.admissions[t := Admission(request, Entered)], convs := s.convs[c := Expire(s.Conversation(c), s.now)])
  }

  lemma Opens(s: State, t: nat, request: TurnRequest, target: Target, env: AdmitEnv)
    requires Unhindered(s, t, request, target, env)
    ensures Admit(Enter(s, t, request), t, env) == AdmitCommit(Deciding(s, t, request), t, env, target)
  {
    var d := Deciding(s, t, request);
    assert Enter(s, t, request) == s.(admissions := s.admissions[t := Admission(request, Entered)]);
    assert SnapshotOrBuild(d, env.readable) == d && ExpireOne(Enter(s, t, request), request.identity.conversation) == d;
    EnteredOpens(s, Enter(s, t, request), d, t, request, target, env);
    hide *;
  }

  lemma EnteredOpens(s: State, e: State, d: State, t: nat, request: TurnRequest, target: Target, env: AdmitEnv)
    requires e.writer == s.writer && e.binding == s.binding && e.convs == s.convs && Unhindered(s, t, request, target, env)
    requires t in e.admissions && e.admissions[t] == Admission(request, Entered)
    requires ExpireOne(e, request.identity.conversation) == d && SnapshotOrBuild(d, env.readable) == d && d.config == s.config
    requires t in d.admissions && d.admissions[t] == Admission(request, Entered) && request.identity.conversation in d.convs
    ensures Admit(e, t, env) == AdmitCommit(d, t, env, target)
  {
    hide ExpireOne, AdmitCommit, SnapshotOrBuild;
  }

  /** An allowed turn on an idle conversation takes it, claims its run ID, and starts building for the selected target. */
  lemma AdmitTakes(s: State, t: nat, request: TurnRequest, target: Target, env: AdmitEnv)
    requires Unhindered(s, t, request, target, env) && Fresh(s, request) && s.consent.Allows(target.destination)
    ensures var id := request.identity; var d := Deciding(s, t, request);
            Admit(Enter(s, t, request), t, env)
            == d.(claims := s.claims[id.runId := id],
                  convs := d.convs[id.conversation := d.convs[id.conversation].(state := Starting, holder := Some(t))],
                  admissions := s.admissions[t := Admission(request, Building(target, s.config.snapshot.value.epoch))])
  {
    Opens(s, t, request, target, env);
    TakesCommit(s, t, request, target, env);
    hide Admit, Enter, Deciding, AdmitCommit;
  }

  lemma TakesCommit(s: State, t: nat, request: TurnRequest, target: Target, env: AdmitEnv)
    requires Unhindered(s, t, request, target, env) && Fresh(s, request) && s.consent.Allows(target.destination)
    ensures var id := request.identity; var d := Deciding(s, t, request);
            AdmitCommit(d, t, env, target)
            == d.(claims := s.claims[id.runId := id],
                  convs := d.convs[id.conversation := d.convs[id.conversation].(state := Starting, holder := Some(t))],
                  admissions := s.admissions[t := Admission(request, Building(target, s.config.snapshot.value.epoch))])
  {
    hide Expire;
    var d := Deciding(s, t, request);
    assert s.admissions[t := Admission(request, Entered)][t := Admission(request, Building(target, s.config.snapshot.value.epoch))]
           == s.admissions[t := Admission(request, Building(target, s.config.snapshot.value.epoch))];
  }

  // The state after the question: exactly one challenge more.
  ghost function Asked(s: State, request: TurnRequest, target: Target, env: AdmitEnv): State {
    var id := request.identity;
    var v := Expire(s.Conversation(id.conversation), s.now);
    var ch := Challenge(env.challengeId, id, target.destination, s.now + env.ttl);
    s.(claims := s.claims[id.runId := id], consent := s.consent.(issued := s.consent.issued[ch.id := ch]),
       convs := s.convs[id.conversation := v.(state := PendingConsent, challenge := Some(ch))])
  }

  /** An unconsented remote turn is asked about instead: one challenge for exactly this identity and destination, nothing else. */
  lemma AdmitAsks(s: State, t: nat, request: TurnRequest, target: Target, env: AdmitEnv)
    requires Unhindered(s, t, request, target, env) && Fresh(s, request) && !s.consent.Allows(target.destination)
    requires env.challengeId !in s.consent.issued
    ensures Admit(Enter(s, t, request), t, env) == Asked(s, request, target, env)
  {
    Opens(s, t, request, target, env);
    AsksCommit(s, t, request, target, env);
    hide Admit, Enter, Deciding, AdmitCommit, Asked;
  }

  lemma AsksCommit(s: State, t: nat, request: TurnRequest, target: Target, env: AdmitEnv)
    requires Unhindered(s, t, request, target, env) && Fresh(s, request) && !s.consent.Allows(target.destination)
    requires env.challengeId !in s.consent.issued
    ensures AdmitCommit(Deciding(s, t, request), t, env, target) == Asked(s, request, target, env)
  {
    hide Expire;
    assert s.admissions[t := Admission(request, Entered)] - {t} == s.admissions;
    var c, v := request.identity.conversation, Expire(s.Conversation(request.identity.conversation), s.now);
    assert forall w {:trigger s.convs[c := w]} :: s.convs[c := v][c := w] == s.convs[c := w];
  }

  /** The consented retry takes the conversation with its challenge still stored; nothing is granted yet. */
  lemma RetryTakes(s: State, t: nat, request: TurnRequest, target: Target, env: AdmitEnv)
    requires Unhindered(s, t, request, target, env) && Retry(s, request, target)
    ensures Admit(Enter(s, t, request), t, env) == Retried(s, t, request, target)
  {
    Opens(s, t, request, target, env);
    RetryCommit(s, t, request, target, env);
    hide Admit, Enter, Deciding, AdmitCommit, Retried;
  }

  ghost function Retried(s: State, t: nat, request: TurnRequest, target: Target): State
    requires s.config.snapshot.Some?
  {
    var c := request.identity.conversation;
    s.(convs := s.convs[c := s.Conversation(c).(state := Starting, holder := Some(t))],
       admissions := s.admissions[t := Admission(request, Granting(target, s.config.snapshot.value.epoch, s.now))])
  }

  lemma RetryCommit(s: State, t: nat, request: TurnRequest, target: Target, env: AdmitEnv)
    requires Unhindered(s, t, request, target, env) && Retry(s, request, target)
    ensures AdmitCommit(Deciding(s, t, request), t, env, target) == Retried(s, t, request, target)
  {
    RetryNotExpired(s, request, target);
    hide Expire;
    var c, phase := request.identity.conversation, Granting(target, s.config.snapshot.value.epoch, s.now);
    assert s.admissions[t := Admission(request, Entered)][t := Admission(request, phase)] == s.admissions[t := Admission(request, phase)];
    assert s.convs[c := s.Conversation(c)][c := s.Conversation(c).(state := Starting, holder := Some(t))]
           == s.convs[c := s.Conversation(c).(state := Starting, holder := Some(t))];
  }

  lemma RetryNotExpired(s: State, request: TurnRequest, target: Target)
    requires Retry(s, request, target)
    ensures Expire(s.Conversation(request.identity.conversation), s.now) == s.Conversation(request.identity.conversation)
  {
  }

  /** A grant that fails keeps the challenge, the grant set and the pending state, and frees the conversation. */
  lemma GrantFails(s: State, t: nat, request: TurnRequest, target: Target)
    requires s.config.snapshot.Some? && Retry(s, request, target) && t !in s.admissions
    requires s.Conversation(request.identity.conversation).holder.None?
    ensures var s' := GrantTurn(Retried(s, t, request, target), t, false);
            s' == s.(convs := s.convs[request.identity.conversation := s.Conversation(request.identity.conversation)])
  {
    var c := request.identity.conversation;
    var v := s.Conversation(c);
    assert v.(state := Starting, holder := Some(t)).(state := PendingConsent).(holder := None) == v;
    assert s.admissions[t := Admission(request, Granting(target, s.config.snapshot.value.epoch, s.now))] - {t} == s.admissions;
    assert s.convs[c := v.(state := Starting, holder := Some(t))][c := v] == s.convs[c := v];
  }

  // ----- granting, building, launching ----------------------------------------------------------

  // Admission t holds its conversation of an open service to build for an allowed target.
  ghost predicate Underway(s: State, t: nat, request: TurnRequest, target: Target) {
    && s.stage == Open && s.consent.Allows(target.destination)
    && Holds(s, t) && s.admissions[t].request == request && s.admissions[t].phase.Building? && s.admissions[t].phase.target == target
  }

  lemma GrantCommits(s: State, t: nat, request: TurnRequest, target: Target)
    requires s.config.snapshot.Some? && Retry(s, request, target) && s.consent.open && s.stage == Open
    ensures var s' := GrantTurn(Retried(s, t, request, target), t, true);
            Underway(s', t, request, target) && s'.runs == s.runs && s'.runners == s.runners
    ensures GrantTurn(Retried(s, t, request, target), t, true).consent.granted == s.consent.granted + {target.destination.Digest()}
  {
    assert Digests([target.destination]) == {target.destination.Digest()} by {
      assert target.destination in [target.destination];
    }
  }

  // The admission built a runner for the same request and target, with nothing launched or granted meanwhile.
  ghost predicate Ready(s: State, s': State, t: nat) {
    && s'.stage == s.stage && s'.runs == s.runs && s'.active == s.active && s'.launched == s.launched && s'.claims == s.claims
    && s'.consent == s.consent && Holds(s', t) && t in s.admissions && s'.admissions - {t} == s.admissions - {t}
    && s'.admissions[t].request == s.admissions[t].request && s'.admissions[t].phase.Built?
    && !s.admissions[t].phase.Entered? && s'.admissions[t].phase.target == s.admissions[t].phase.target
  }

  lemma ConstructBuilds(s: State, t: nat, v: Conv, env: BuildEnv)
    requires Holds(s, t) && s.admissions[t].phase.Building?
    requires env.constructs && env.rootStable && env.runner !in s.runners
    ensures Ready(s, Construct(s, t, v, env), t)
  {
  }

  // A runner is reused, or constructed with the cached one closed.
  lemma BuildIs(s: State, t: nat, env: BuildEnv)
    requires Holds(s, t) && s.admissions[t].phase.Building?
    ensures var v := s.convs[s.admissions[t].request.identity.conversation]; var s' := Build(s, t, env);
            || s' == Construct(s, t, v, env)
            || (v.runner.Some? && s' == Construct(s.(runners := CloseAll(s.runners, {v.runner.value})), t, DropRunner(v), env))
            || (v.runner.Some? && s' == Reused(s, t, v.runner.value))
  {
    hide CloseAll, Construct, DropRunner;
  }

  lemma ReusedReady(s: State, t: nat, r: nat)
    requires Holds(s, t) && s.admissions[t].phase.Building?
    ensures Ready(s, Reused(s, t, r), t)
  {
  }

  lemma ReadyFrom(s: State, s1: State, s': State, t: nat)
    requires s1 == s.(runners := s1.runners) && Ready(s1, s', t)
    ensures Ready(s, s', t)
  {
  }

  lemma BuildBuilds(s: State, t: nat, env: BuildEnv)
    requires Holds(s, t) && s.admissions[t].phase.Building?
    requires env.constructs && env.rootStable && env.runner !in s.runners
    ensures Ready(s, Build(s, t, env), t)
  {
    var v := s.convs[s.admissions[t].request.identity.conversation];
    BuildIs(s, t, env);
    ConstructBuilds(s, t, v, env);
    if v.runner.Some? {
      var s1 := s.(runners := CloseAll(s.runners, {v.runner.value}));
      ReusedReady(s, t, v.runner.value);
      ConstructBuilds(s1, t, DropRunner(v), env);
      hide Build, Construct, CloseAll, Reused, Ready;
      ReadyFrom(s, s1, Construct(s1, t, DropRunner(v), env), t);
    }
    hide Build, Construct, Reused, Ready;
  }

  // Run h executes the request on its destination, consented to when it was launched, on a live runner that only it uses.
  ghost predicate Launched(s: State, h: nat, request: TurnRequest, destination: Destination) {
    var id := request.identity;
    && h in s.runs && s.runs[h].identity == id && s.runs[h].phase.Executing? && !s.runs[h].canceling
    && s.runs[h].destination == destination && (destination.remote ==> s.runs[h].grantedAtLaunch)
    && s.Live(s.runs[h].runner) && s.runners[s.runs[h].runner].conversation == id.conversation
    && s.runners[s.runs[h].runner].target.destination == destination
    && id.runId in s.active && s.active[id.runId] == h
    && s.Conversation(id.conversation).active == Some(h) && s.Conversation(id.conversation).state == Running
  }

  lemma RegisterRegisters(s: State, t: nat, h: nat)
    requires Holds(s, t) && s.admissions[t].phase.Built? && h !in s.runs && s.stage == Open
    ensures var s' := Register(s, t, h); var a := s.admissions[t];
            && h in s'.runs && s'.runs[h].identity == a.request.identity && s'.runs[h].phase.Executing? && !s'.runs[h].canceling
            && s'.runs[h].destination == a.phase.target.destination
            && s'.Conversation(a.request.identity.conversation).state == Running
  {
  }

  lemma Executes(s: State, h: nat, request: TurnRequest, destination: Destination)
    requires Lifecycle(s) && h in s.runs && s.runs[h].identity == request.identity && s.runs[h].phase.Executing?
    requires !s.runs[h].canceling && s.runs[h].destination == destination
    requires s.Conversation(request.identity.conversation).state == Running
    ensures Launched(s, h, request, destination)
  {
    assert RunOk(s, h) && ConvOk(s, request.identity.conversation);
    hide Lifecycle, ChallengeOk, HeldOk;
  }

  lemma UnderwayLaunches(s: State, t: nat, request: TurnRequest, target: Target, env: BuildEnv, h: nat)
    requires Lifecycle(s) && Underway(s, t, request, target)
    requires env.constructs && env.rootStable && env.runner !in s.runners && h !in s.runs
    ensures var s' := Register(Build(s, t, env), t, h); Launched(s', h, request, target.destination) && s'.consent == s.consent
  {
    BuildKeeps(s, t, env);
    BuildBuilds(s, t, env);
    var s1 := Build(s, t, env);
    RegisterKeeps(s1, t, h);
    RegisterRegisters(s1, t, h);
    hide Lifecycle, Launched, Underway, Build, Register;
    Executes(Register(s1, t, h), h, request, target.destination);
  }

  // ----- runs as sequences of actions -----------------------------------------------------------

  lemma {:induction false} ReachAppend(s: State, first: seq<Action>, rest: seq<Action>)
    ensures Reach(s, first + rest) == Reach(Reach(s, first), rest)
  {
    hide Step;
    if rest == [] {
      assert first + rest == first;
    } else {
      var n := |rest| - 1;
      assert (first + rest)[..|first + rest| - 1] == first + rest[..n];
      ReachAppend(s, first, rest[..n]);
    }
  }

  lemma ReachOne(s: State, a: Action, rest: seq<Action>)
    ensures Reach(s, [a] + rest) == Reach(Step(s, a), rest)
  {
    hide Step;
    ReachAppend(s, [a], rest);
    assert [a][..0] == [];
    assert Reach(s, [a]) == Step(Reach(s, []), a);
  }

  function Admits(t: nat, request: TurnRequest, env: AdmitEnv): seq<Action> { [AEnter(t, request), AAdmit(t, env)] }

  function Starts(t: nat, env: BuildEnv, h: nat): seq<Action> { [ABuild(t, env), ARegister(t, h)] }

  lemma AdmitsReach(s: State, t: nat, request: TurnRequest, env: AdmitEnv, rest: seq<Action>)
    ensures Reach(s, Admits(t, request, env) + rest) == Reach(Admit(Enter(s, t, request), t, env), rest)
  {
    hide Step;
    assert Admits(t, request, env) + rest == [AEnter(t, request)] + ([AAdmit(t, env)] + rest);
    ReachOne(s, AEnter(t, request), [AAdmit(t, env)] + rest);
    ReachOne(Step(s, AEnter(t, request)), AAdmit(t, env), rest);
    StepIs(s, t, request);
    StepAdmits(Enter(s, t, request), t, env);
  }

  lemma StepIs(s: State, t: nat, request: TurnRequest)
    ensures Step(s, AEnter(t, request)) == Enter(s, t, request)
  {
    hide Enter;
  }

  lemma StepAdmits(s: State, t: nat, env: AdmitEnv)
    ensures Step(s, AAdmit(t, env)) == Admit(s, t, env)
  {
    hide Admit;
  }

  lemma StartsReach(s: State, t: nat, env: BuildEnv, h: nat)
    ensures Reach(s, Starts(t, env, h)) == Register(Build(s, t, env), t, h)
  {
    hide Build, Register;
    ReachOne(s, ABuild(t, env), [ARegister(t, h)]);
    ReachOne(Build(s, t, env), ARegister(t, h), []);
    assert [ABuild(t, env)] + [ARegister(t, h)] == Starts(t, env, h);
    assert [ARegister(t, h)] + [] == [ARegister(t, h)];
  }
  // ----- turns that launch ----------------------------------------------------------------------

  // Construction succeeds with an unused runner and run.
  ghost predicate Buildable(s: State, env: BuildEnv, h: nat) {
    env.constructs && env.rootStable && env.runner !in s.runners && h !in s.runs
  }

  lemma StartsLaunch(s: State, t: nat, request: TurnRequest, target: Target, env: BuildEnv, h: nat)
    requires Lifecycle(s) && Underway(s, t, request, target) && Buildable(s, env, h)
    ensures var s' := Reach(s, Starts(t, env, h)); Launched(s', h, request, target.destination) && s'.consent == s.consent
  {
    StartsReach(s, t, env, h);
    UnderwayLaunches(s, t, request, target, env, h);
    hide *;
  }

  lemma AdmittedKeeps(s: State, t: nat, request: TurnRequest, env: AdmitEnv)
    requires Lifecycle(s)
    ensures Lifecycle(Admit(Enter(s, t, request), t, env))
  {
    hide *;
    EnterKeeps(s, t, request);
    AdmitKeeps(Enter(s, t, request), t, env);
  }

  lemma TakenUnderway(s: State, t: nat, request: TurnRequest, target: Target, env: AdmitEnv)
    requires Unhindered(s, t, request, target, env) && Fresh(s, request) && s.consent.Allows(target.destination)
    ensures var s' := Admit(Enter(s, t, request), t, env);
            Underway(s', t, request, target) && s'.runs == s.runs && s'.runners == s.runners && s'.consent == s.consent
  {
    AdmitTakes(s, t, request, target, env);
    hide Admit, Enter, Expire;
  }

  lemma GrantReach(s: State, t: nat, persisted: bool, rest: seq<Action>)
    ensures Reach(s, [AGrant(t, persisted)] + rest) == Reach(GrantTurn(s, t, persisted), rest)
  {
    hide GrantTurn, Reach;
    ReachOne(s, AGrant(t, persisted), rest);
  }

  // The sections of a retry: admitted, granted, started.
  function Retries(t: nat, retry: TurnRequest, env: AdmitEnv, build: BuildEnv, h: nat): seq<Action> {
    Admits(t, retry, env) + ([AGrant(t, true)] + Starts(t, build, h))
  }

  lemma RetryLaunchesFrom(s: State, t: nat, retry: TurnRequest, target: Target, env: AdmitEnv, build: BuildEnv, h: nat)
    requires Lifecycle(s) && Unhindered(s, t, retry, target, env) && Retry(s, retry, target) && s.consent.open
    requires Buildable(s, build, h)
    ensures var s' := Reach(s, Retries(t, retry, env, build, h));
            Launched(s', h, retry, target.destination) && s'.consent.granted == s.consent.granted + {target.destination.Digest()}
  {
    RetryTakes(s, t, retry, target, env);
    AdmittedKeeps(s, t, retry, env);
    var s1 := Retried(s, t, retry, target);
    GrantTurnKeeps(s1, t, true);
    GrantCommits(s, t, retry, target);
    AdmitsReach(s, t, retry, env, [AGrant(t, true)] + Starts(t, build, h));
    GrantReach(s1, t, true, Starts(t, build, h));
    hide Lifecycle, Admit, Enter, Reach, GrantTurn, Retried, Underway, Launched, Retry, Unhindered;
    StartsLaunch(GrantTurn(s1, t, true), t, retry, target, build, h);
  }

  /** In every run, an allowed first turn on a free conversation of an open service is launched by four sections, granting nothing. */
  lemma AllowedTurnLaunches(s0: State, before: seq<Action>, t: nat, request: TurnRequest, target: Target, env: AdmitEnv, build: BuildEnv, h: nat)
    requires Init(s0)
    requires var s := Reach(s0, before);
             && Unhindered(s, t, request, target, env) && Fresh(s, request) && s.consent.Allows(target.destination)
             && Buildable(s, build, h)
    ensures var s' := Reach(s0, before + (Admits(t, request, env) + Starts(t, build, h)));
            Launched(s', h, request, target.destination) && s'.consent == Reach(s0, before).consent
  {
    var s := Reach(s0, before);
    LifecycleHolds(s0, before);
    ReachAppend(s0, before, Admits(t, request, env) + Starts(t, build, h));
    AdmitsReach(s, t, request, env, Starts(t, build, h));
    AdmittedKeeps(s, t, request, env);
    TakenUnderway(s, t, request, target, env);
    hide Lifecycle, Admit, Enter, Reach, Underway, Launched, Unhindered, Fresh;
    StartsLaunch(Admit(Enter(s, t, request), t, env), t, request, target, build, h);
  }

  lemma AskedRetries(s: State, t: nat, request: TurnRequest, target: Target, env: AdmitEnv)
    requires Unhindered(s, t, request, target, env) && Fresh(s, request) && !s.consent.Allows(target.destination)
    ensures var s' := Asked(s, request, target, env); var retry := request.(challengeId := Some(env.challengeId));
            Unhindered(s', t, retry, target, env) && Retry(s', retry, target)
  {
  }

  /**
   In every run, an unconsented remote turn on a free conversation of an open service is asked about, and the retry that
   answers is launched: seven sections that grant exactly its destination.
   */
  lemma ConsentedTurnLaunches(s0: State, before: seq<Action>, t: nat, request: TurnRequest, target: Target, env: AdmitEnv, build: BuildEnv, h: nat)
    requires Init(s0)
    requires var s := Reach(s0, before);
             && Unhindered(s, t, request, target, env) && Fresh(s, request)
             && s.consent.open && !s.consent.Allows(target.destination) && env.challengeId !in s.consent.issued
             && Buildable(s, build, h)
    ensures var retry := request.(challengeId := Some(env.challengeId));
            var s' := Reach(s0, before + (Admits(t, request, env) + Retries(t, retry, env, build, h)));
            && Launched(s', h, retry, target.destination)
            && s'.consent.granted == Reach(s0, before).consent.granted + {target.destination.Digest()}
  {
    var s := Reach(s0, before);
    var retry := request.(challengeId := Some(env.challengeId));
    LifecycleHolds(s0, before);
    ReachAppend(s0, before, Admits(t, request, env) + Retries(t, retry, env, build, h));
    AdmitsReach(s, t, request, env, Retries(t, retry, env, build, h));
    AdmitAsks(s, t, request, target, env);
    AdmittedKeeps(s, t, request, env);
    AskedRetries(s, t, request, target, env);
    hide Lifecycle, Admit, Enter, Reach, Launched, Unhindered, Fresh, Retry;
    RetryLaunchesFrom(Asked(s, request, target, env), t, retry, target, env, build, h);
  }

  /** In every run, a retry whose grant could not be persisted can be sent again, and the second attempt launches. */
  lemma FailedGrantRetries(s0: State, before: seq<Action>, t: nat, retry: TurnRequest, target: Target, env: AdmitEnv, build: BuildEnv, h: nat)
    requires Init(s0)
    requires var s := Reach(s0, before);
             && Unhindered(s, t, retry, target, env) && Retry(s, retry, target) && s.consent.open && Buildable(s, build, h)
    ensures Reach(s0, before + (Admits(t, retry, env) + [AGrant(t, false)])) == Reach(s0, before)
    ensures var s' := Reach(s0, before + (Admits(t, retry, env) + [AGrant(t, false)]) + Retries(t, retry, env, build, h));
            Launched(s', h, retry, target.destination)
  {
    var s := Reach(s0, before);
    LifecycleHolds(s0, before);
    var failed := Admits(t, retry, env) + [AGrant(t, false)];
    ReachAppend(s0, before, failed);
    ReachAppend(s0, before + failed, Retries(t, retry, env, build, h));
    FailedGrantIs(s, t, retry, target, env);
    hide Lifecycle, Reach, Launched, Unhindered, Retry, Retries, Admits;
    RetryLaunchesFrom(s, t, retry, target, env, build, h);
  }

  lemma FailedGrantIs(s: State, t: nat, retry: TurnRequest, target: Target, env: AdmitEnv)
    requires Unhindered(s, t, retry, target, env) && Retry(s, retry, target)
    ensures Reach(s, Admits(t, retry, env) + [AGrant(t, false)]) == s
  {
    AdmitsReach(s, t, retry, env, [AGrant(t, false)]);
    RetryTakes(s, t, retry, target, env);
    GrantReach(Retried(s, t, retry, target), t, false, []);
    assert [AGrant(t, false)] + [] == [AGrant(t, false)];
    GrantFails(s, t, retry, target);
    var c := retry.identity.conversation;
    PendingKnown(s, c);
    hide Admit, Enter, GrantTurn, Retried;
    assert s.convs[c := s.convs[c]] == s.convs;
  }

  lemma PendingKnown(s: State, c: ConversationId)
    requires s.Conversation(c).state == PendingConsent
    ensures c in s.convs
  {
  }
}
