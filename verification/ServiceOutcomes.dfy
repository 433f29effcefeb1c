/** What each answer of the service means to its caller: what was claimed, asked, granted, launched or freed. */
module ServiceOutcomes {
  import opened Options
  import opened ServiceState
  import opened ServiceSteps
  import opened ServiceInvariant
  import opened ServiceAdmissions
  import opened ServiceTurns
  import opened ServiceSafety
  import opened ServiceConsent
  import opened ServiceProgress
  import opened ServiceDrain

  // How far one admission section came.
  datatype Admitting = Blocked | Refused | Asked(challenge: Challenge) | Held

  // StartTurn's answer; a rejection says whether the turn had been committed and was rolled back.
  datatype TurnAnswer = Accepted | NeedsConsent(challenge: Challenge) | Rejected(committed: bool)

  // ----- the answers of one call ----------------------------------------------------------------

  // Nothing was launched.
  ghost predicate NoLaunch(s: State, s': State) {
    s'.runs == s.runs && s'.active == s.active && s'.launched == s.launched && s'.stage == s.stage
  }

  // Nothing was claimed, asked, granted or launched.
  ghost predicate Refuses(s: State, s': State) { NoLaunch(s, s') && s'.claims == s.claims && s'.consent == s.consent }

  // Exactly one question was put to the user, for exactly the request's identity and a remote destination that was
  // never granted; it claimed the run ID.
  ghost predicate Asks(s: State, s': State, request: TurnRequest, ch: Challenge) {
    var id := request.identity;
    && NoLaunch(s, s') && s.stage == Open
    && ch.identity == id && ch.destination.remote && !s.consent.Has(ch.destination.Digest())
    && id.runId !in s.claims && s'.claims == s.claims[id.runId := id]
    && ch.id !in s.consent.issued && s'.consent == s.consent.(issued := s.consent.issued[ch.id := ch])
    && s'.Conversation(id.conversation).state == PendingConsent && s'.Conversation(id.conversation).challenge == Some(ch)
  }

  // The request answers the question its conversation holds.
  ghost predicate Answers(s: State, request: TurnRequest) {
    var ch := s.Conversation(request.identity.conversation).challenge;
    ch.Some? && request.challengeId == Some(ch.value.id) && ch.value.identity == request.identity
  }

  // The only grant a call can make is of the destination its request was asked about.
  ghost predicate GrantsAnswered(s: State, s': State, request: TurnRequest) {
    && s'.consent.open == s.consent.open && s'.consent.issued == s.consent.issued
    && (s'.consent.granted == s.consent.granted
        || (Answers(s, request)
            && s'.consent.granted == s.consent.granted + {s.Conversation(request.identity.conversation).challenge.value.destination.Digest()}))
  }

  // The run ID is claimed for this identity, now or before by the question the request answers.
  ghost predicate Claims(s: State, s': State, request: TurnRequest) {
    var id := request.identity;
    if Answers(s, request) then s'.claims == s.claims
    else id.runId !in s.claims && s'.claims == s.claims[id.runId := id]
  }

  // Run h was launched for the request on the destination the snapshot selects, which is allowed.
  ghost predicate Accepts(s: State, s': State, request: TurnRequest, h: nat) {
    && s.stage == Open && h !in s.runs && h in s'.runs
    && var d := s'.runs[h].destination;
    && Launched(s', h, request, d) && s'.consent.Allows(d)
    && s'.config.snapshot.Some? && s'.config.snapshot.value.target.Some? && s'.config.snapshot.value.target.value.destination == d
    && GrantsAnswered(s, s', request) && Claims(s, s', request)
  }

  // The commit was undone: nothing runs, the conversation is free or still asks, and the run ID stays used.
  ghost predicate RollsBack(s: State, s': State, request: TurnRequest) {
    var c := request.identity.conversation;
    && s.stage == Open && NoLaunch(s, s') && GrantsAnswered(s, s', request) && Claims(s, s', request)
    && (Free(s', c) || (Answers(s', request) && s'.Conversation(c).state == PendingConsent && s'.consent == s.consent))
  }

  // ----- admission ------------------------------------------------------------------------------

  // The admission goes on, with its conversation: to build under a run ID nobody had, or to grant the answered question.
  ghost predicate GoesOn(s: State, s': State, t: nat) {
    && t in s.admissions && Holds(s', t) && NoLaunch(s, s') && s.stage == Open && s'.consent == s.consent
    && s'.admissions - {t} == s.admissions - {t}
    && var request, p := s'.admissions[t].request, s'.admissions[t].phase;
    && request == s.admissions[t].request
    && ((p.Building? && request.challengeId.None? && request.identity.runId !in s.claims
         && s'.claims == s.claims[request.identity.runId := request.identity])
        || (p.Granting? && s'.claims == s.claims && Answers(s', request) && SameQuestion(s, s', request.identity.conversation)))
  }

  ghost predicate SameQuestion(s: State, s': State, c: ConversationId) { s'.Conversation(c).challenge == s.Conversation(c).challenge }

  // The admission is over, with nothing done or with a question, or it goes on.
  ghost predicate Admitted(s: State, s': State, t: nat)
    requires t in s.admissions
  {
    var request := s.admissions[t].request;
    var ch := s'.Conversation(request.identity.conversation).challenge;
    || GoesOn(s, s', t)
    || (s'.admissions == s.admissions - {t} && (Refuses(s, s') || (ch.Some? && Asks(s, s', request, ch.value))))
  }

  lemma LeaveRefuses(s: State, t: nat)
    ensures Refuses(s, Leave(s, t)) && Leave(s, t).admissions == s.admissions - {t}
  {
  }

  lemma RetryMeans(s: State, t: nat, target: Target)
    requires t in s.admissions && s.admissions[t].request.identity.conversation in s.convs && s.config.snapshot.Some?
    ensures Admitted(s, CommitConsentRetry(s, t, s.admissions[t].request, target), t)
  {
    LeaveRefuses(s, t);
    var request := s.admissions[t].request;
    hide Refuses, GoesOn, Leave, Hold, Asks;
    if CommitConsentRetry(s, t, request, target) != Leave(s, t) {
      RetryGoesOn(s, t, Granting(target, s.config.snapshot.value.epoch, s.now));
    }
  }

  lemma RetryGoesOn(s: State, t: nat, phase: Phase)
    requires t in s.admissions && s.admissions[t].request.identity.conversation in s.convs && s.stage == Open
    requires phase.Granting? && Answers(s, s.admissions[t].request)
    ensures GoesOn(s, Hold(s, t, s.admissions[t].request.identity.conversation, phase), t)
  {
  }

  lemma StartingMeans(s: State, t: nat, target: Target)
    requires t in s.admissions && s.admissions[t].request.identity.conversation in s.convs && s.config.snapshot.Some?
    requires s.admissions[t].request.challengeId.None?
    ensures Admitted(s, CommitStarting(s, t, s.admissions[t].request.identity, target), t)
  {
    LeaveRefuses(s, t);
    var id := s.admissions[t].request.identity;
    hide Refuses, Leave, GoesOn, Asks;
    if CommitStarting(s, t, id, target) != Leave(s, t) { StartingGoesOn(s, t, target); }
  }

  lemma StartingGoesOn(s: State, t: nat, target: Target)
    requires t in s.admissions && s.admissions[t].request.identity.conversation in s.convs && s.config.snapshot.Some?
    requires s.stage == Open && s.admissions[t].request.identity.runId !in s.claims && s.admissions[t].request.challengeId.None?
    ensures GoesOn(s, CommitStarting(s, t, s.admissions[t].request.identity, target), t)
  {
  }

  lemma ChallengeMeans(s: State, t: nat, destination: Destination, env: AdmitEnv)
    requires t in s.admissions && s.admissions[t].request.identity.conversation in s.convs
    requires destination.remote && !s.consent.Has(destination.Digest())
    ensures Admitted(s, CommitChallenge(s, t, s.admissions[t].request.identity, destination, env), t)
  {
    LeaveRefuses(s, t);
    var id := s.admissions[t].request.identity;
    hide Refuses, GoesOn, Leave, Asks;
    if CommitChallenge(s, t, id, destination, env) != Leave(s, t) { IssueAsks(s, t, destination, env); }
  }

  lemma IssueAsks(s: State, t: nat, destination: Destination, env: AdmitEnv)
    requires t in s.admissions && s.admissions[t].request.identity.conversation in s.convs && s.stage == Open
    requires destination.remote && !s.consent.Has(destination.Digest())
    requires s.admissions[t].request.identity.runId !in s.claims && env.challengeId !in s.consent.issued
    ensures var request := s.admissions[t].request; var s' := CommitChallenge(s, t, request.identity, destination, env);
            var ch := s'.Conversation(request.identity.conversation).challenge;
            s'.admissions == s.admissions - {t} && ch.Some? && Asks(s, s', request, ch.value)
  {
  }

  lemma TargetMeans(s: State, t: nat, env: AdmitEnv)
    requires t in s.admissions && s.admissions[t].request.identity.conversation in s.convs && s.config.snapshot.Some?
    ensures Admitted(s, AdmitTarget(s, t, env), t)
  {
    hide Admitted, CommitConsentRetry, CommitStarting, CommitChallenge, Leave;
    LeaveAdmits(s, t);
    if s.config.snapshot.value.target.Some? {
      var target := s.config.snapshot.value.target.value;
      RetryMeans(s, t, target);
      if s.admissions[t].request.challengeId.None? { StartingMeans(s, t, target); }
      if target.destination.remote && !s.consent.Has(target.destination.Digest()) { ChallengeMeans(s, t, target.destination, env); }
    }
  }

  lemma LeaveAdmits(s: State, t: nat)
    requires t in s.admissions
    ensures Admitted(s, Leave(s, t), t)
  {
    LeaveRefuses(s, t);
    hide Refuses, Leave, GoesOn, Asks;
  }

  // Only the snapshot was built, and at most an expired question of the conversation dropped.
  ghost predicate Prepared(s: State, s1: State, c: ConversationId) {
    s1 == s.(convs := s1.convs, config := s1.config) && (s1.Conversation(c).challenge.None? || SameQuestion(s, s1, c))
  }

  lemma PreparedAdmits(s: State, s1: State, s': State, t: nat)
    requires t in s.admissions && s1.admissions == s.admissions
    requires Prepared(s, s1, s.admissions[t].request.identity.conversation) && Admitted(s1, s', t)
    ensures Admitted(s, s', t)
  {
  }

  lemma SnapshotPrepares(s: State, c: ConversationId, readable: bool)
    ensures Prepared(s, SnapshotOrBuild(ExpireOne(s, c), readable), c)
  {
  }

  /** An admission is blocked, refused with nothing claimed, turned into exactly one question, or goes on with its conversation. */
  lemma AdmitMeans(s: State, t: nat, env: AdmitEnv)
    requires t in s.admissions && s.admissions[t].phase.Entered?
    ensures Admit(s, t, env) == s || Admitted(s, Admit(s, t, env), t)
  {
    hide Admitted, Expire, SnapshotOrBuild, AdmitTarget, Resolves, Leave;
    var c := s.admissions[t].request.identity.conversation;
    LeaveAdmits(s, t);
    var s1 := SnapshotOrBuild(ExpireOne(s, c), env.readable);
    SnapshotPrepares(s, c, env.readable);
    TargetMeans(s1, t, env);
    PreparedAdmits(s, s1, AdmitTarget(s1, t, env), t);
  }

  // What a section shows of how far it came.
  ghost predicate Shows(s: State, s': State, t: nat, c: ConversationId, o: Admitting) {
    match o
    case Blocked => s' == s
    case Refused => t !in s'.admissions && s'.claims == s.claims
    case Asked(ch) => t !in s'.admissions && s'.claims != s.claims && s'.Conversation(c).challenge == Some(ch)
    case Held => t in s'.admissions && !s'.admissions[t].phase.Entered?
  }

  // What the section's answer means.
  ghost predicate Tells(s: State, s': State, t: nat, o: Admitting) {
    match o
    case Blocked => s' == s
    case Refused => Refuses(s, s') && s'.admissions == s.admissions - {t}
    case Asked(ch) => t in s.admissions && Asks(s, s', s.admissions[t].request, ch) && s'.admissions == s.admissions - {t}
    case Held => GoesOn(s, s', t)
  }

  lemma AdmitTells(s: State, t: nat, env: AdmitEnv, o: Admitting)
    requires !o.Blocked? ==> t in s.admissions && s.admissions[t].phase.Entered?
    requires t in s.admissions ==> Shows(s, Admit(s, t, env), t, s.admissions[t].request.identity.conversation, o)
    requires o.Blocked? ==> Admit(s, t, env) == s
    ensures Tells(s, Admit(s, t, env), t, o)
  {
    hide Admit;
    if !o.Blocked? {
      AdmitMeans(s, t, env);
      ShownTells(s, Admit(s, t, env), t, o);
    }
  }

  lemma ShownTells(s: State, s': State, t: nat, o: Admitting)
    requires t in s.admissions && s.admissions[t].phase.Entered? && !o.Blocked? && (s' == s || Admitted(s, s', t))
    requires Shows(s, s', t, s.admissions[t].request.identity.conversation, o)
    ensures Tells(s, s', t, o)
  {
  }

  // ----- the steps of an admission that goes on -------------------------------------------------

  // The question is answered: its destination is granted, and the runner can be built for it.
  ghost predicate Commits(s: State, s': State, t: nat) {
    && Holds(s, t) && Holds(s', t) && NoLaunch(s, s') && s'.claims == s.claims && s.consent.open == s'.consent.open
    && s'.admissions - {t} == s.admissions - {t}
    && s'.admissions[t].request == s.admissions[t].request && s'.admissions[t].phase.Building?
    && s'.consent.issued == s.consent.issued
    && s'.consent.granted == s.consent.granted + {s.admissions[t].phase.target.destination.Digest()}
  }

  // The grant failed: the question stays, and nothing was granted.
  ghost predicate Retains(s: State, s': State, t: nat) {
    && Holds(s, t) && NoLaunch(s, s') && s'.admissions == s.admissions - {t} && s'.claims == s.claims && s'.consent == s.consent
    && var c := s.admissions[t].request.identity.conversation;
    && SameQuestion(s, s', c) && s'.Conversation(c).state == PendingConsent
  }

  // The admission ended with its conversation idle and nothing launched.
  ghost predicate Ends(s: State, s': State, t: nat) {
    && Holds(s, t) && NoLaunch(s, s') && s'.admissions == s.admissions - {t} && s'.claims == s.claims && s'.consent == s.consent
    && var v := s'.Conversation(s.admissions[t].request.identity.conversation); v.state == Idle && v.holder.None?
  }

  lemma GrantMeans(s: State, t: nat, persisted: bool)
    requires Holds(s, t) && s.admissions[t].phase.Granting?
    ensures var s' := GrantTurn(s, t, persisted); Commits(s, s', t) || Retains(s, s', t)
  {
    var c := s.admissions[t].request.identity.conversation;
    var v := s.convs[c];
    ReleaseRetains(s, t);
    if v.challenge.Some? { GrantCommitsState(s, t); }
    hide Commits, Retains, Release, Granted;
  }

  lemma ReleaseRetains(s: State, t: nat)
    requires Holds(s, t)
    ensures Retains(s, Release(s, t, s.convs[s.admissions[t].request.identity.conversation].(state := PendingConsent)), t)
  {
  }

  lemma GrantCommitsState(s: State, t: nat)
    requires Holds(s, t) && s.admissions[t].phase.Granting? && s.convs[s.admissions[t].request.identity.conversation].challenge.Some?
    ensures Commits(s, GrantedState(s, t, s.admissions[t].request.identity.conversation), t)
  {
    var dest := s.admissions[t].phase.target.destination;
    assert Digests([dest]) == {dest.Digest()} by { assert dest in [dest]; }
    hide Digests;
  }

  lemma ReleaseEnds(s: State, s1: State, t: nat, v: Conv)
    requires Holds(s, t) && s1 == s.(runners := s1.runners) && v.state == Idle
    ensures Ends(s, Release(s1, t, v), t)
  {
  }

  lemma ConstructMeans(s: State, s1: State, t: nat, v: Conv, env: BuildEnv)
    requires Holds(s, t) && s.admissions[t].phase.Building? && s1 == s.(runners := s1.runners)
    ensures Ready(s, Construct(s1, t, v, env), t) || Ends(s, Construct(s1, t, v, env), t)
  {
    var v1 := v.(state := Idle);
    ReleaseEnds(s, s1, t, v1);
    var c := s.admissions[t].request.identity.conversation;
    ReleaseEnds(s, s1.(runners := s1.runners[env.runner := Runner(c, s.admissions[t].phase.target, true)]), t, v1);
    hide Ends, Release;
  }

  lemma BuildMeans(s: State, t: nat, env: BuildEnv)
    requires Holds(s, t) && s.admissions[t].phase.Building?
    ensures Ready(s, Build(s, t, env), t) || Ends(s, Build(s, t, env), t)
  {
    var v := s.convs[s.admissions[t].request.identity.conversation];
    hide Build, Construct, CloseAll, Reused, Ready, Ends;
    BuildIs(s, t, env);
    ConstructMeans(s, s, t, v, env);
    if v.runner.Some? {
      ReusedReady(s, t, v.runner.value);
      ConstructMeans(s, s.(runners := CloseAll(s.runners, {v.runner.value})), t, DropRunner(v), env);
    }
  }

  // The launch keeps what it was admitted under.
  ghost predicate Launches(s: State, s': State, t: nat, h: nat) {
    && Holds(s, t) && s.stage == Open == s'.stage && s'.config == s.config && s'.consent == s.consent && s'.claims == s.claims
    && s'.admissions == s.admissions - {t}
    && Launched(s', h, s.admissions[t].request, s.admissions[t].phase.target.destination)
  }

  lemma RegisteredRest(s: State, t: nat, h: nat)
    requires Holds(s, t) && s.admissions[t].phase.Built?
    ensures var s' := Registered(s, t, h);
            && s'.stage == s.stage && s'.config == s.config && s'.consent == s.consent && s'.claims == s.claims
            && s'.admissions == s.admissions - {t}
  {
  }

  /** A built admission of an open service launches on its target; once closing it ends with its conversation idle. */
  lemma RegisterMeans(s: State, t: nat, h: nat)
    requires Lifecycle(s) && Holds(s, t) && s.admissions[t].phase.Built? && h !in s.runs
    ensures var s' := Register(s, t, h); if s.stage == Open then Launches(s, s', t, h) else Ends(s, s', t)
  {
    var v := s.convs[s.admissions[t].request.identity.conversation];
    if s.stage == Open {
      RegisterKeeps(s, t, h);
      RegisterRegisters(s, t, h);
      RegisteredRest(s, t, h);
      hide Lifecycle, Launched, Registered, Release;
      Executes(Register(s, t, h), h, s.admissions[t].request, s.admissions[t].phase.target.destination);
    } else {
      var p := s.admissions[t].phase;
      ReleaseEnds(s, s.(runners := if p.constructed then CloseAll(s.runners, {p.runner}) else s.runners), t, v.(state := Idle));
      hide CloseAll, Release, Ends, Lifecycle;
    }
  }

  // ----- one whole call -------------------------------------------------------------------------

  // The call that began at s has its admission committed at x.
  ghost predicate Going(s: State, x: State, t: nat, request: TurnRequest) {
    && t !in s.admissions && Holds(x, t) && x.admissions[t].request == request && x.admissions - {t} == s.admissions
    && s.stage == Open && NoLaunch(s, x) && GrantsAnswered(s, x, request) && Claims(s, x, request)
  }

  lemma GoesOnGoing(s: State, a: State, t: nat, request: TurnRequest)
    requires t !in s.admissions && s.stage == Open && GoesOn(Enter(s, t, request), a, t)
    ensures Going(s, a, t, request)
    ensures a.admissions[t].phase.Granting? ==>
              Answers(s, request) && SameQuestion(s, a, request.identity.conversation) && a.consent == s.consent
  {
  }

  lemma AnsweredTarget(a: State, t: nat)
    requires Lifecycle(a) && Holds(a, t) && a.admissions[t].phase.Granting?
    ensures var ch := a.Conversation(a.admissions[t].request.identity.conversation).challenge;
            ch.Some? && ch.value.destination == a.admissions[t].phase.target.destination
  {
    HeldFrom(a, t);
    hide Lifecycle, OwnLinks, StageOk;
  }

  lemma CommitsGoing(s: State, a: State, g: State, t: nat, request: TurnRequest)
    requires Lifecycle(a) && Going(s, a, t, request) && a.admissions[t].phase.Granting? && Commits(a, g, t)
    requires Answers(s, request) && SameQuestion(s, a, request.identity.conversation) && a.consent == s.consent
    ensures Going(s, g, t, request)
  {
    AnsweredTarget(a, t);
    hide Lifecycle;
  }

  lemma RetainsRollsBack(s: State, a: State, g: State, t: nat, request: TurnRequest)
    requires Going(s, a, t, request) && Retains(a, g, t) && a.consent == s.consent
    requires Answers(s, request) && SameQuestion(s, a, request.identity.conversation)
    ensures RollsBack(s, g, request) && g.admissions == s.admissions
  {
  }

  lemma ReadyGoing(s: State, g: State, b: State, t: nat, request: TurnRequest)
    requires Going(s, g, t, request) && Ready(g, b, t)
    ensures Going(s, b, t, request)
  {
  }

  lemma EndsRollsBack(s: State, g: State, b: State, t: nat, request: TurnRequest)
    requires Going(s, g, t, request) && Ends(g, b, t) && Lifecycle(b)
    ensures RollsBack(s, b, request) && b.admissions == s.admissions
  {
    UnheldIs(b, request.identity.conversation);
    hide Lifecycle;
  }

  // A built admission has a live runner of its conversation for the selected target, which is allowed.
  ghost predicate Fits(b: State, t: nat)
    requires Holds(b, t) && b.admissions[t].phase.Built?
  {
    var p := b.admissions[t].phase;
    && b.consent.Allows(p.target.destination) && Selected(b, p.configEpoch, p.target) && Current(b, b.admissions[t].request.identity.repoEpoch)
    && p.runner in b.runners && b.runners[p.runner] == Runner(b.admissions[t].request.identity.conversation, p.target, false)
  }

  lemma BuiltFits(b: State, t: nat)
    requires Lifecycle(b) && Holds(b, t) && b.admissions[t].phase.Built?
    ensures Fits(b, t)
  {
    HeldFrom(b, t);
    hide Lifecycle, OwnLinks, StageOk;
  }

  lemma LaunchesAccepts(s: State, b: State, r: State, t: nat, h: nat, request: TurnRequest)
    requires Lifecycle(b) && Going(s, b, t, request) && b.admissions[t].phase.Built? && h !in s.runs && Launches(b, r, t, h)
    ensures Accepts(s, r, request, h) && r.admissions == s.admissions
  {
    BuiltFits(b, t);
    hide Lifecycle;
  }

  // ----- the end of a turn ----------------------------------------------------------------------

  // The turn is over: its conversation free, its run ID out of the index, a runner retired meanwhile closed.
  ghost predicate Vacates(s: State, s': State, h: nat)
    requires h in s.runs
  {
    var run := s.runs[h];
    && Free(s', run.identity.conversation) && run.identity.runId !in s'.active
    && s'.runs == s.runs[h := run.(phase := Emitting)]
    && (s.Conversation(run.identity.conversation).stale ==> !s'.Live(run.runner))
    && s'.claims == s.claims && s'.admissions == s.admissions
  }

  lemma CleanupIs(s: State, h: nat)
    requires Lifecycle(s) && h in s.runs && s.runs[h].phase.Executing?
    ensures var s' := Cleanup(s, h); var run := s.runs[h];
            && run.identity.runId !in s'.active && s'.claims == s.claims
            && (s.Conversation(run.identity.conversation).stale ==> !s'.Live(run.runner))
  {
    RunsFrom(s, h);
    RunsIs(s, h, s.runs[h].identity.conversation);
    hide Lifecycle, RunsIn, ConvOk;
  }

  /** A returned turn frees its conversation and its run ID's index entry, and closes a runner retired while it ran. */
  lemma CleanupMeans(s: State, h: nat)
    requires Lifecycle(s) && h in s.runs && s.runs[h].phase.Executing?
    ensures Vacates(s, Cleanup(s, h), h)
  {
    CleanupIs(s, h);
    CleanupFrees(s, h);
    CleanupRest(s, h);
    CleanupKeeps(s, h);
    ExecutingFree(s, h);
    CleanupEmits(s, h);
    UnheldIs(Cleanup(s, h), s.runs[h].identity.conversation);
    hide Lifecycle, Cleanup;
  }

  // The run indexed under this identity is marked, and still executes and holds its conversation.
  ghost predicate Cancels(s: State, s': State, id: RunIdentity) {
    && id.runId in s.active && s.active[id.runId] in s.runs && s.runs[s.active[id.runId]].identity == id
    && var h := s.active[id.runId];
    && s'.runs == s.runs[h := s.runs[h].(canceling := true)] && s'.active == s.active
    && s'.runs[h].phase.Executing? && s'.Conversation(id.conversation).active == Some(h)
    && s'.Conversation(id.conversation).state == Canceling
  }

  lemma IndexedRuns(s: State, x: string)
    requires Lifecycle(s) && x in s.active
    ensures var h := s.active[x];
            && h in s.runs && s.runs[h].identity.runId == x && s.runs[h].phase.Executing?
            && var v := s.Conversation(s.runs[h].identity.conversation);
               v.active == Some(h) && v.holder.None? && (v.state == Running || v.state == Canceling)
  {
    assert IndexOk(s, x);
    RunFacts(s, s.active[x]);
    hide Lifecycle, OwnLinks, StageOk, CachedOk, ChallengeOk, HeldOk;
  }

  lemma CancelMeans(s: State, id: RunIdentity)
    requires Lifecycle(s) && id.runId in s.active && s.active[id.runId] in s.runs && s.runs[s.active[id.runId]].identity == id
    ensures Cancels(s, MarkCanceling(s, s.active[id.runId]), id)
  {
    IndexedRuns(s, id.runId);
    hide Lifecycle;
    MarkingCancels(s, id, s.active[id.runId]);
  }

  lemma MarkingCancels(s: State, id: RunIdentity, h: nat)
    requires id.runId in s.active && s.active[id.runId] == h && h in s.runs && s.runs[h].identity == id && s.runs[h].phase.Executing?
    requires var v := s.Conversation(id.conversation); v.active == Some(h) && v.holder.None? && (v.state == Running || v.state == Canceling)
    ensures Cancels(s, MarkCanceling(s, h), id)
  {
  }

  // The question asked under this identity is withdrawn, and only that.
  ghost predicate Withdraws(s: State, s': State, id: RunIdentity) {
    && s.Conversation(id.conversation).challenge.Some? && s.Conversation(id.conversation).challenge.value.identity == id
    && Free(s', id.conversation) && s' == s.(convs := s'.convs)
    && forall c :: c != id.conversation ==> s'.Conversation(c) == s.Conversation(c)
  }

  lemma DeclineMeans(s: State, id: RunIdentity)
    requires Lifecycle(s) && s.Conversation(id.conversation).state == PendingConsent && s.Conversation(id.conversation).holder.None?
    requires s.Conversation(id.conversation).challenge.Some? && s.Conversation(id.conversation).challenge.value.identity == id
    ensures Withdraws(s, Decline(s, id), id)
  {
    PendingIs(s, id.conversation);
    hide Lifecycle;
  }

  // New chat: the conversation is free, and its reset count moved on by one.
  ghost predicate Resets(s: State, s': State, c: ConversationId) {
    Free(s', c) && s'.Resets(c) == s.Resets(c) + 1 && s'.runs == s.runs && s'.active == s.active
  }

  lemma ResetMeans(s: State, id: RunIdentity, known: bool)
    requires Lifecycle(s) && Reset(s, id, known).resets != s.resets
    ensures Resets(s, Reset(s, id, known), id.conversation)
  {
    ResetIs(s, id, known);
    ResetKeeps(s, id, known);
    UnheldIs(Reset(s, id, known), id.conversation);
    hide Lifecycle, Reset;
  }

  lemma ResetIs(s: State, id: RunIdentity, known: bool)
    requires Reset(s, id, known).resets != s.resets
    ensures var s' := Reset(s, id, known); var v := s'.Conversation(id.conversation);
            v.state == Idle && v.holder.None? && s'.Resets(id.conversation) == s.Resets(id.conversation) + 1
            && s'.runs == s.runs && s'.active == s.active
  {
  }

  // Something runs or is asked under exactly this identity.
  ghost predicate Questioned(s: State, id: RunIdentity) {
    var v := s.Conversation(id.conversation);
    v.state == PendingConsent && v.challenge.Some? && v.challenge.value.identity == id
  }

  ghost predicate Cancelable(s: State, id: RunIdentity) {
    (id.runId in s.active && s.active[id.runId] in s.runs && s.runs[s.active[id.runId]].identity == id) || Questioned(s, id)
  }

  lemma CancelCases(s: State, id: RunIdentity)
    requires Lifecycle(s) && s.Conversation(id.conversation).holder.None?
    ensures id.runId in s.active ==>
              && s.active[id.runId] in s.runs
              && if s.runs[s.active[id.runId]].identity == id then Cancels(s, MarkCanceling(s, s.active[id.runId]), id) else !Cancelable(s, id)
    ensures id.runId !in s.active && !Questioned(s, id) ==> !Cancelable(s, id)
  {
    if id.runId in s.active {
      IndexedRuns(s, id.runId);
      if s.runs[s.active[id.runId]].identity == id { CancelMeans(s, id); }
    }
    if Questioned(s, id) { PendingIs(s, id.conversation); }
    hide Lifecycle, Cancels, MarkCanceling;
  }

  // ----- settings -------------------------------------------------------------------------------

  // A write flow grants only together with the write it prepares.
  lemma PrepareMeans(s: State, env: WriteEnv)
    ensures var (writer, k) := Prepare(s, env);
            && (writer.None? ==> k.granted == s.consent.granted) && (writer.Some? ==> writer.value.next == env.next)
  {
    hide NewRemote, Targets, Digests;
  }

  lemma WriteMeans(s: State, env: WriteEnv, first: set<DestinationDigest>)
    requires Consented(WriteSettings(s, env), first)
    ensures var s' := WriteSettings(s, env);
            && (s'.writer.Some? ==> Covered(s'.consent, Reachable(s'.writer.value.prior), s'.writer.value.next.reachable, []))
            && (s.writer.None? && s'.writer.Some? ==> s'.writer.value.next == env.next)
            && (s'.writer.None? ==> s'.consent.granted == s.consent.granted)
  {
    if WriteSettings(s, env).writer.Some? { WriteCovered(WriteSettings(s, env), first); }
    hide Consented, Prepare, Covered, Scan;
    var s1 := Scan(s, env.visited).1;
    PrepareMeans(s1, env);
  }

  lemma WriteCovered(s: State, first: set<DestinationDigest>)
    requires Consented(s, first) && s.writer.Some?
    ensures Covered(s.consent, Reachable(s.writer.value.prior), s.writer.value.next.reachable, [])
  {
    hide StoreOk, Accounted, PublishedOk, Covered;
  }

  lemma PublishedMeans(s: State, saves: bool, rediscovered: Option<string>, readable: bool)
    requires s.writer.Some? && saves && s.config.File(Some(s.writer.value.path)) == s.writer.value.prior
    ensures var s' := SaveWrite(s, saves, rediscovered, readable);
            && s'.config.File(Some(s.writer.value.path)) == Some(s.writer.value.next)
            && forall c :: c in s'.convs ==> s'.convs[c].runner.None?
  {
    hide CloseAll, CachedRunners;
  }

  // ----- shutdown -------------------------------------------------------------------------------

  lemma ShutdownMeans(s: State)
    requires s.stage == Open && Quiet(s)
    requires Lifecycle(Finish(RetireFinal(Close(s))))
    ensures var s' := Finish(RetireFinal(Close(s))); s'.stage == Done && NoLiveRunner(s')
  {
    var m := Close(s);
    assert Quiet(m);
    hide Quiet, Lifecycle, Finish, RetireFinal;
    RetireFinalRetires(m);
    RetireFinalQuiet(m);
    FinishEnds(RetireFinal(m));
    DoneIs(Finish(RetireFinal(m)));
  }

  lemma DoneIs(s: State)
    requires Lifecycle(s) && s.stage == Done
    ensures NoLiveRunner(s)
  {
  }

  // ----- StartTurn as a whole -------------------------------------------------------------------

  // The admission has entered and finds the gate and its conversation's mutex free.
  ghost predicate Unblocked(s: State, t: nat) {
    && t in s.admissions && s.admissions[t].phase.Entered? && s.writer.None?
    && s.Conversation(s.admissions[t].request.identity.conversation).holder.None?
  }

  lemma EntersUnblocked(s: State, t: nat, request: TurnRequest)
    requires t !in s.admissions && s.stage == Open && s.writer.None? && s.Conversation(request.identity.conversation).holder.None?
    ensures Unblocked(Enter(s, t, request), t)
  {
  }

  lemma ClosedRefuses(s: State, t: nat, request: TurnRequest)
    requires s.stage != Open
    ensures Enter(s, t, request) == s && Refuses(s, s)
  {
  }

  // An admission that goes on either builds or has its answer still to be granted.
  ghost predicate Answering(s: State, a: State, t: nat, request: TurnRequest) {
    && t in a.admissions && (a.admissions[t].phase.Building? || a.admissions[t].phase.Granting?)
    && (a.admissions[t].phase.Granting? ==>
          Answers(s, request) && SameQuestion(s, a, request.identity.conversation) && a.consent == s.consent)
  }

  lemma EnteredTells(s: State, a: State, t: nat, request: TurnRequest, o: Admitting)
    requires t !in s.admissions && s.stage == Open && Tells(Enter(s, t, request), a, t, o) && !o.Blocked?
    ensures o.Refused? ==> Refuses(s, a) && a.admissions == s.admissions
    ensures o.Asked? ==> Asks(s, a, request, o.challenge) && a.admissions == s.admissions
    ensures o.Held? ==> Going(s, a, t, request) && Answering(s, a, t, request)
  {
    assert s.admissions[t := Admission(request, Entered)] - {t} == s.admissions;
    match o
    case Held => { HeldGoing(s, a, t, request); hide *; }
    case _ => { hide Going, Answering, GoesOn, Answers, Holds; }
  }

  lemma HeldGoing(s: State, a: State, t: nat, request: TurnRequest)
    requires t !in s.admissions && s.stage == Open && GoesOn(Enter(s, t, request), a, t)
    ensures Going(s, a, t, request) && Answering(s, a, t, request)
  {
    GoesOnGoing(s, a, t, request);
    hide Going, Answers, SameQuestion;
  }

  lemma AnsweringIs(s: State, a: State, t: nat, request: TurnRequest)
    requires Going(s, a, t, request) && Answering(s, a, t, request)
    ensures Holds(a, t) && t in a.admissions && (a.admissions[t].phase.Building? || a.admissions[t].phase.Granting?)
  {
  }

  lemma GoingIs(s: State, g: State, t: nat, request: TurnRequest)
    requires Going(s, g, t, request)
    ensures Holds(g, t)
  {
  }

  lemma GrantProceeds(s: State, a: State, g: State, t: nat, request: TurnRequest, granted: bool)
    requires Lifecycle(a) && Going(s, a, t, request) && Answering(s, a, t, request) && a.admissions[t].phase.Granting?
    requires if granted then Commits(a, g, t) else Retains(a, g, t)
    ensures granted ==> Going(s, g, t, request) && t in g.admissions && g.admissions[t].phase.Building?
    ensures !granted ==> RollsBack(s, g, request) && g.admissions == s.admissions
  {
    if granted { CommitsGoing(s, a, g, t, request); } else { RetainsRollsBack(s, a, g, t, request); }
    hide Lifecycle, Going, RollsBack, Retains;
  }

  lemma BuildProceeds(s: State, g: State, b: State, t: nat, request: TurnRequest, built: bool)
    requires Lifecycle(b) && Going(s, g, t, request)
    requires if built then Ready(g, b, t) else Ends(g, b, t)
    ensures built ==> Going(s, b, t, request) && Holds(b, t) && b.admissions[t].phase.Built? && b.runs == s.runs
    ensures !built ==> RollsBack(s, b, request) && b.admissions == s.admissions
  {
    if built { ReadyGoing(s, g, b, t, request); } else { EndsRollsBack(s, g, b, t, request); }
    hide Lifecycle, RollsBack, Ends;
  }

  lemma RegisterProceeds(s: State, b: State, r: State, t: nat, h: nat, request: TurnRequest, launched: bool)
    requires Lifecycle(b) && Lifecycle(r) && Going(s, b, t, request) && b.admissions[t].phase.Built? && h !in s.runs
    requires if launched then Launches(b, r, t, h) else Ends(b, r, t)
    ensures if launched then Accepts(s, r, request, h) else RollsBack(s, r, request)
    ensures r.admissions == s.admissions
  {
    if launched { LaunchesAccepts(s, b, r, t, h, request); } else { EndsRollsBack(s, b, r, t, request); }
    hide Lifecycle, Accepts, RollsBack, Going, Launches, Ends;
  }

  lemma BuildShows(s: State, b: State, t: nat, ok: bool)
    requires (Ready(s, b, t) || Ends(s, b, t)) && (ok <==> t in b.admissions) && Lifecycle(b)
    ensures if ok then Ready(s, b, t) && Fits(b, t) else Ends(s, b, t)
  {
    hide Lifecycle;
    if ok { BuiltFits(b, t); }
  }

  lemma GrantShows(s: State, g: State, t: nat, ok: bool)
    requires (Commits(s, g, t) || Retains(s, g, t)) && (ok <==> t in g.admissions)
    ensures if ok then Commits(s, g, t) else Retains(s, g, t)
  {
  }
}
