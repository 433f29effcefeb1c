/** Whole runs of the lifecycle: every interleaving of critical sections, of any length. */
module ServiceSafety {
  import opened Options
  import opened ServiceState
  import opened ServiceSteps
  import opened ServiceInvariant
  import opened ServiceLifecycle
  import opened ServiceAdmissions
  import opened ServiceTurns
  import opened ServiceWriters

  // ----- the first snapshot ---------------------------------------------------------------------

  lemma FirstSnapshotConv(s: State, readable: bool, c: ConversationId)
    requires s.config.snapshot.None? && c in s.convs && ConvOk(s, c)
    ensures ConvOk(BuildSnapshot(s, readable), c)
  {
  }

  lemma FirstSnapshotLinks(s: State, readable: bool)
    requires Links(s) && HistoryOk(s) && StageOk(s)
    ensures var s' := BuildSnapshot(s, readable); Links(s') && HistoryOk(s') && StageOk(s')
  {
  }

  lemma SnapshotKeeps(s: State, readable: bool)
    requires Lifecycle(s)
    ensures Lifecycle(SnapshotOrBuild(s, readable))
  {
    hide Links, HistoryOk, StageOk, ConvOk;
    if s.config.snapshot.None? {
      var s' := BuildSnapshot(s, readable);
      forall c | c in s'.convs ensures ConvOk(s', c) { FirstSnapshotConv(s, readable, c); }
      FirstSnapshotLinks(s, readable);
    }
  }

  // ----- admission ------------------------------------------------------------------------------

  lemma LeaveKeeps(s: State, t: nat)
    requires Lifecycle(s) && t in s.admissions && s.admissions[t].phase.Entered?
    ensures Lifecycle(Leave(s, t))
  {
    hide Lifecycle;
    assert (s.admissions - {t}) - {t} == s.admissions - {t};
    EnteredKeeps(s, Leave(s, t), t);
  }

  lemma EnterKeeps(s: State, t: nat, request: TurnRequest)
    requires Lifecycle(s)
    ensures Lifecycle(Enter(s, t, request))
  {
    hide Lifecycle;
    if !s.Closing() && t !in s.admissions {
      var s' := Enter(s, t, request);
      assert s'.admissions - {t} == s.admissions - {t};
      EnteredKeeps(s, s', t);
    }
  }

  // What the records say once the expired challenge is dropped.
  lemma PendingFacts(s: State, c: ConversationId)
    requires Lifecycle(s) && c in s.convs && s.convs[c].holder.None?
    ensures s.convs[c].state == PendingConsent <==> s.convs[c].challenge.Some?
    ensures s.convs[c].state == PendingConsent ==> s.convs[c].active.None? && ChallengeOk(s, c, s.convs[c].challenge.value)
    ensures s.convs[c].state == Idle ==> s.convs[c].active.None?
  {
    assert ConvOk(s, c);
  }

  lemma RetryKeeps(s: State, t: nat, request: TurnRequest, target: Target)
    requires Lifecycle(s) && Committable(s, t, request.identity) && s.config.snapshot.Some?
    requires s.config.snapshot.value.target == Some(target)
    requires s.convs[request.identity.conversation].state == PendingConsent
    requires Unexpired(s, request.identity.conversation)
    ensures Lifecycle(CommitConsentRetry(s, t, request, target))
  {
    hide Lifecycle;
    var c := request.identity.conversation;
    PendingFacts(s, c);
    if CommitConsentRetry(s, t, request, target) == Leave(s, t) {
      LeaveKeeps(s, t);
    } else {
      HeldKeeps(s, t, request.identity, Granting(target, s.config.snapshot.value.epoch, s.now));
    }
  }

  predicate Unexpired(s: State, c: ConversationId) {
    c in s.convs && s.convs[c].challenge.Some? ==> s.now <= s.convs[c].challenge.value.expiresAt
  }

  lemma StartingKeeps(s: State, t: nat, id: RunIdentity, target: Target)
    requires Lifecycle(s) && Committable(s, t, id) && s.config.snapshot.Some?
    requires s.config.snapshot.value.target == Some(target) && s.consent.Allows(target.destination)
    requires s.convs[id.conversation].state == Idle
    ensures Lifecycle(CommitStarting(s, t, id, target))
  {
    hide Lifecycle, AllIdle;
    if s.Closing() || id.runId in s.claims {
      LeaveKeeps(s, t);
    } else {
      PendingFacts(s, id.conversation);
      UnclaimedUnused(s, id.runId);
      var s1 := s.(claims := s.claims[id.runId := id]);
      QuietKeeps(s, s1);
      HeldKeeps(s1, t, id, Building(target, s.config.snapshot.value.epoch));
    }
  }

  lemma AdmitCommitKeeps(s: State, t: nat, env: AdmitEnv, target: Target)
    requires Lifecycle(s) && t in s.admissions && Committable(s, t, s.admissions[t].request.identity)
    requires s.config.snapshot.Some? && s.config.snapshot.value.target == Some(target)
    requires Unexpired(s, s.admissions[t].request.identity.conversation)
    ensures Lifecycle(AdmitCommit(s, t, env, target))
  {
    hide Lifecycle, CommitStarting, CommitConsentRetry;
    var request := s.admissions[t].request;
    var id := request.identity;
    match s.convs[id.conversation].state
    case Running | Canceling | Starting => LeaveKeeps(s, t);
    case PendingConsent => RetryKeeps(s, t, request, target);
    case Idle =>
      if request.challengeId.Some? {
        LeaveKeeps(s, t);
      } else if s.consent.Allows(target.destination) {
        StartingKeeps(s, t, id, target);
      } else if s.Closing() || id.runId in s.claims || env.challengeId in s.consent.issued {
        LeaveKeeps(s, t);
      } else {
        ChallengedKeeps(s, t, id, target.destination, env);
      }
  }

  lemma AdmitKeeps(s: State, t: nat, env: AdmitEnv)
    requires Lifecycle(s)
    ensures Lifecycle(Admit(s, t, env))
  {
    hide Lifecycle, AdmitCommit;
    if t in s.admissions && s.admissions[t].phase.Entered? && s.writer.None? {
      var id := s.admissions[t].request.identity;
      if !Resolves(s, id, env.known) {
        LeaveKeeps(s, t);
      } else if s.Conversation(id.conversation).holder.None? {
        ExpireOneKeeps(s, id.conversation);
        var s1 := SnapshotOrBuild(ExpireOne(s, id.conversation), env.readable);
        SnapshotKeeps(ExpireOne(s, id.conversation), env.readable);
        if s1.config.snapshot.value.target.None? || !env.usable {
          LeaveKeeps(s1, t);
        } else {
          AdmitCommitKeeps(s1, t, env, s1.config.snapshot.value.target.value);
        }
      }
    }
  }

  // ----- reset and status -----------------------------------------------------------------------

  lemma ResetKeeps(s: State, id: RunIdentity, known: bool)
    requires Lifecycle(s)
    ensures Lifecycle(Reset(s, id, known))
  {
    hide Lifecycle;
    if Reset(s, id, known) != s {
      var s1 := ExpireOne(s, id.conversation);
      ExpireOneKeeps(s, id.conversation);
      if s1.convs[id.conversation].state == Idle {
        IdleInactive(s1, id.conversation);
        IncrementKeeps(s1, id.conversation, s1.Resets(id.conversation) + 1);
      }
    }
  }

  lemma StatusKeeps(s: State, id: RunIdentity, known: bool, readable: bool)
    requires Lifecycle(s)
    ensures Lifecycle(Status(s, id, known, readable))
  {
    hide Lifecycle, SnapshotOrBuild, ExpireOne;
    if Status(s, id, known, readable) != s {
      ExpireOneKeeps(s, id.conversation);
      SnapshotKeeps(ExpireOne(s, id.conversation), readable);
    }
  }

  // ----- settings -------------------------------------------------------------------------------

  // Settings calls extend the grant set and touch no turn challenge.
  ghost predicate ConsentGrows(k: Consent, k': Consent) {
    k'.open == k.open && k.granted <= k'.granted && k'.issued == k.issued
  }

  lemma PrepareGrows(s: State, env: WriteEnv)
    ensures ConsentGrows(s.consent, Prepare(s, env).1)
  {
  }

  lemma SpendGrows(config: Config, k: Consent, now: int, token: string, persisted: bool)
    ensures ConsentGrows(k, SpendGrants(config, k, now, token, persisted))
  {
  }

  lemma ConsentKeeps(s: State, k: Consent, writer: Option<PendingWrite>)
    requires Lifecycle(s) && ConsentGrows(s.consent, k)
    requires writer == s.writer || (s.GateFree() && AllIdle(s.convs) && s.stage == Open)
    ensures Lifecycle(s.(consent := k, writer := writer))
  {
    hide Lifecycle, AllIdle;
    StageAndHistory(s);
    QuietKeeps(s, s.(consent := k, writer := writer));
  }

  lemma WriteKeeps(s: State, env: WriteEnv)
    requires Lifecycle(s)
    ensures Lifecycle(WriteSettings(s, env))
  {
    hide Lifecycle, Prepare, AllIdle, Scan;
    if s.GateFree() && !s.Closing() {
      ScanKeeps(s, env.visited);
      var (busy, s1) := Scan(s, env.visited);
      PrepareGrows(s1, env);
      if !busy { ConsentKeeps(s1, Prepare(s1, env).1, Prepare(s1, env).0); }
    }
  }

  lemma PrepareGrantsKeeps(s: State, visited: set<ConversationId>, token: string, ttl: nat)
    requires Lifecycle(s)
    ensures Lifecycle(PrepareGrants(s, visited, token, ttl))
  {
    hide Lifecycle, AllIdle, Scan;
    if s.GateFree() && !s.Closing() {
      ScanKeeps(s, visited);
      var (busy, s1) := Scan(s, visited);
      if !busy { ConsentKeeps(s1, AskGrants(s1.config, s1.consent, s1.now, token, ttl), s1.writer); }
    }
  }

  lemma ConfirmGrantsKeeps(s: State, visited: set<ConversationId>, token: string, persisted: bool)
    requires Lifecycle(s)
    ensures Lifecycle(ConfirmGrants(s, visited, token, persisted))
  {
    hide Lifecycle, AllIdle, Scan, SpendGrants;
    if s.GateFree() && !s.Closing() {
      ScanKeeps(s, visited);
      var (busy, s1) := Scan(s, visited);
      SpendGrows(s1.config, s1.consent, s1.now, token, persisted);
      if !busy { ConsentKeeps(s1, SpendGrants(s1.config, s1.consent, s1.now, token, persisted), s1.writer); }
    }
  }

  // While a write holds the gate nothing else does, and every conversation is idle.
  lemma WriterFacts(s: State)
    requires Lifecycle(s) && s.writer.Some?
    ensures s.Unread() && AllIdle(s.convs) && s.stage in {Open, Marked} && s.orphans == map[]
  {
    hide CachedOk, ChallengeOk, ActiveOk, RunOk, IndexOk, OwnerOk, HistoryOk;
    NoOrphans(s);
    forall t | t in s.admissions ensures s.admissions[t].phase.Entered? { assert AdmissionOk(s, t); }
  }

  lemma SaveWriteKeeps(s: State, saves: bool, rediscovered: Option<string>, readable: bool)
    requires Lifecycle(s)
    ensures Lifecycle(SaveWrite(s, saves, rediscovered, readable))
  {
    hide Lifecycle, AllIdle, CachedRunners, CloseAll, Published, Emptied, Quieted;
    if s.writer.Some? {
      if saves && s.config.File(Some(s.writer.value.path)) == s.writer.value.prior {
        PublishedKeeps(s, Published(s.config, s.writer.value, rediscovered), readable);
      } else {
        RefusedKeeps(s);
      }
    }
  }

  lemma RefusedKeeps(s: State)
    requires Lifecycle(s) && s.writer.Some?
    ensures Lifecycle(s.(writer := None))
  {
    hide Lifecycle, AllIdle;
    QuietKeeps(s, s.(writer := None));
  }

  lemma PublishedKeeps(s: State, config: Config, readable: bool)
    requires Lifecycle(s) && s.writer.Some?
    ensures Lifecycle(RetireCached(BuildSnapshot(s.(writer := None, config := config), readable)))
  {
    hide Lifecycle, AllIdle, CachedRunners, CloseAll;
    WriterFacts(s);
    EmptiedKeeps(s, RetireCached(BuildSnapshot(s.(writer := None, config := config), readable)));
  }

  lemma ReloadKeeps(s: State, visited: set<ConversationId>, readable: bool)
    requires Lifecycle(s)
    ensures Lifecycle(ReloadSettings(s, visited, readable))
  {
    hide Lifecycle, AllIdle, CachedRunners, CloseAll, Scan;
    if s.GateFree() && !s.Closing() {
      ScanKeeps(s, visited);
      var (busy, s1) := Scan(s, visited);
      if busy {
        SnapshotKeeps(s1, readable);
      } else {
        NoOrphans(s1);
        EmptiedKeeps(s1, ReloadSettings(s, visited, readable));
      }
    }
  }

  // ----- every step, every run ------------------------------------------------------------------

  // The clock, the config files, a cancelled token and the closing mark.
  lemma TickKeeps(s: State, now: int)
    requires Lifecycle(s)
    ensures Lifecycle(s.(now := now))
  {
    StageAndHistory(s);
    hide Lifecycle, AllIdle;
    QuietKeeps(s, s.(now := now));
  }

  lemma FilesKeep(s: State, files: map<string, Document>, discovered: Option<string>)
    requires Lifecycle(s)
    ensures Lifecycle(s.(config := s.config.(files := files, discovered := discovered)))
  {
    StageAndHistory(s);
    hide Lifecycle, AllIdle;
    QuietKeeps(s, s.(config := s.config.(files := files, discovered := discovered)));
  }

  lemma CancelTokenKeeps(s: State, token: string)
    requires Lifecycle(s)
    ensures Lifecycle(CancelToken(s, token))
  {
    StageAndHistory(s);
    hide Lifecycle, AllIdle;
    QuietKeeps(s, CancelToken(s, token));
  }

  lemma CloseKeeps(s: State)
    requires Lifecycle(s)
    ensures Lifecycle(Close(s))
  {
    hide Lifecycle;
    if s.stage == Open { StageAndHistory(s); QuietKeeps(s, Close(s)); }
  }

  lemma StepKeeps(s: State, a: Action)
    requires Lifecycle(s)
    ensures Lifecycle(Step(s, a))
  {
    hide Lifecycle, Bind, Unbind, Status, Enter, Leave, Admit, GrantTurn, Build, Register, SaveSession, Cleanup, EmitTerminal,
      MarkCanceling, Decline, Reset, ReloadSettings, WriteSettings, SaveWrite, PrepareGrants, ConfirmGrants, CancelToken,
      Close, RetireFinal, Finish, Untouched, SameBinding, SameAuthority, Rebinds;
    match a
    case ATick(now) => TickKeeps(s, now);
    case AEditFiles(files, discovered) => FilesKeep(s, files, discovered);
    case ABind(root) => BindKeeps(s, root);
    case AUnbind => UnbindKeeps(s);
    case AStatus(id, known, readable) => StatusKeeps(s, id, known, readable);
    case AEnter(t, request) => EnterKeeps(s, t, request);
    case ALeave(t) => if t in s.admissions && s.admissions[t].phase.Entered? { LeaveKeeps(s, t); }
    case AAdmit(t, env) => AdmitKeeps(s, t, env);
    case AGrant(t, persisted) => GrantTurnKeeps(s, t, persisted);
    case ABuild(t, env) => BuildKeeps(s, t, env);
    case ARegister(t, h) => RegisterKeeps(s, t, h);
    case ASave(h) => SaveKeeps(s, h);
    case ACleanup(h) => CleanupKeeps(s, h);
    case AEmit(h) => EmitKeeps(s, h);
    case AMarkCanceling(h) => MarkCancelingKeeps(s, h);
    case ADecline(id) => DeclineKeeps(s, id);
    case AReset(id, known) => ResetKeeps(s, id, known);
    case AReload(visited, readable) => ReloadKeeps(s, visited, readable);
    case AWrite(env) => WriteKeeps(s, env);
    case ASaveWrite(saves, rediscovered, readable) => SaveWriteKeeps(s, saves, rediscovered, readable);
    case APrepareGrants(visited, token, ttl) => PrepareGrantsKeeps(s, visited, token, ttl);
    case AConfirmGrants(visited, token, persisted) => ConfirmGrantsKeeps(s, visited, token, persisted);
    case ACancelToken(token) => CancelTokenKeeps(s, token);
    case AClose => CloseKeeps(s);
    case ARetireFinal => RetireFinalKeeps(s);
    case AFinish => FinishKeeps(s);
  }

  lemma InitOk(s: State)
    requires Init(s)
    ensures Lifecycle(s)
  {
  }

  /** The lifecycle invariant holds after every run. */
  lemma {:induction false} LifecycleHolds(s: State, actions: seq<Action>)
    requires Init(s)
    ensures Lifecycle(Reach(s, actions))
  {
    hide Lifecycle, Init, Step;
    if actions == [] {
      InitOk(s);
    } else {
      LifecycleHolds(s, actions[..|actions| - 1]);
      StepKeeps(Reach(s, actions[..|actions| - 1]), actions[|actions| - 1]);
    }
  }
}
