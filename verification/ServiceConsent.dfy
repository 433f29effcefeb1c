/**
 The consent authority over whole runs: every grant comes from an issued, unexpired challenge, settings
 tokens are single-use and bound to their flow, and no published document reaches a remote destination
 that neither its predecessor reached nor the user granted.
 */
module ServiceConsent {
  import opened Options
  import opened Collections
  import opened ServiceState
  import opened ServiceSteps
  import opened ServiceInvariant
  import opened ServiceAdmissions
  import opened ServiceSafety
  import opened ServiceWriters

  // Every remote destination of `post` is reachable in `pre`, granted, or among `extra`.
  ghost predicate Covered(k: Consent, pre: seq<Destination>, post: seq<Destination>, extra: seq<Destination>) {
    forall d :: d in post && d.remote ==> d.Digest() in Digests(pre) || k.Has(d.Digest()) || d in extra
  }

  // A write challenge lists what its document newly reaches; a grant challenge writes nothing.
  ghost predicate RecordOk(k: Consent, record: SettingsChallenge) {
    if record.mode == GrantOnly then record.digest.None?
    else
      && record.digest.Some? && record.digest.value.mode == record.mode && record.digest.value.path == record.path
      && Covered(k, record.digest.value.pre, record.digest.value.post, record.grants)
  }

  ghost predicate SpentToken(k: Consent, token: string, e: GrantEvent) {
    && token in k.issuedSettings && token in k.spent
    && e.destinations == k.issuedSettings[token].grants
    && e.checkedAt <= k.issuedSettings[token].expiresAt
  }

  // One commit to the grant set, and the challenge that authorized it.
  ghost predicate EventOk(k: Consent, e: GrantEvent) {
    match e.authority
    case TurnConsent(ch) =>
      ch.id in k.issued && k.issued[ch.id] == ch && e.destinations == [ch.destination] && e.checkedAt <= ch.expiresAt
    case WriteConsent(token) => SpentToken(k, token, e) && k.issuedSettings[token].mode != GrantOnly
    case GrantConsent(token) => SpentToken(k, token, e) && k.issuedSettings[token].mode == GrantOnly
  }

  function Token(e: GrantEvent): Option<string> {
    match e.authority
    case TurnConsent(_) => None
    case WriteConsent(token) => Some(token)
    case GrantConsent(token) => Some(token)
  }

  // No two events were authorized by the same settings token.
  ghost predicate SingleUse(events: seq<GrantEvent>) {
    forall i, j :: 0 <= i < j < |events| && Token(events[i]).Some? ==> Token(events[i]) != Token(events[j])
  }

  ghost predicate StoreOk(k: Consent) {
    && (forall x :: x in k.settings ==> x in k.issuedSettings && k.settings[x] == k.issuedSettings[x] && x !in k.spent)
    && Distinct(k.spent) && (forall x :: x in k.spent ==> x in k.issuedSettings)
    && (forall x :: x in k.issuedSettings ==> RecordOk(k, k.issuedSettings[x]))
    && (forall i :: 0 <= i < |k.grants| ==> EventOk(k, k.grants[i]))
    && SingleUse(k.grants)
  }

  // What the store has, in terms of its first contents and the recorded events.
  function Gained(events: seq<GrantEvent>): set<DestinationDigest> {
    if events == [] then {} else Gained(events[..|events| - 1]) + Digests(events[|events| - 1].destinations)
  }

  ghost predicate Accounted(k: Consent, first: set<DestinationDigest>) { k.granted == first + Gained(k.grants) }

  // ----- the store's operations -----------------------------------------------------------------

  lemma {:induction false} NewRemoteCovers(k: Consent, pre: seq<Destination>, post: seq<Destination>)
    ensures Covered(k, pre, post, NewRemote(k, pre, post))
    ensures forall d :: d in NewRemote(k, pre, post) ==> d in post && d.remote && d.Digest() !in Digests(pre) && !k.Has(d.Digest())
  {
    if post != [] { NewRemoteCovers(k, pre, post[1..]); }
  }

  lemma TakeOk(k: Consent, now: int, token: string, first: set<DestinationDigest>)
    requires StoreOk(k) && Accounted(k, first)
    ensures var (record, k') := Take(k, now, token);
            && StoreOk(k') && Accounted(k', first) && k'.granted == k.granted && k'.open == k.open
            && (record.Some? ==>
                  && token in k'.issuedSettings && record.value == k'.issuedSettings[token] && token in k'.spent
                  && now <= record.value.expiresAt && RecordOk(k', record.value)
                  && (forall i :: 0 <= i < |k'.grants| ==> Token(k'.grants[i]) != Some(token)))
  {
    var (record, k') := Take(k, now, token);
    if token in k.settings {
      forall x | x in k'.issuedSettings ensures RecordOk(k', k'.issuedSettings[x]) { assert RecordOk(k, k.issuedSettings[x]); }
      forall i | 0 <= i < |k'.grants| ensures EventOk(k', k'.grants[i]) && Token(k'.grants[i]) != Some(token) {
        assert EventOk(k, k.grants[i]);
      }
    }
  }

  lemma InstallOk(k: Consent, now: int, token: string, record: SettingsChallenge, first: set<DestinationDigest>)
    requires StoreOk(k) && Accounted(k, first) && RecordOk(k, record)
    ensures var k' := Install(k, now, token, record);
            StoreOk(k') && Accounted(k', first) && k'.granted == k.granted && k'.open == k.open
  {
    var k' := Install(k, now, token, record);
    forall x | x in k'.issuedSettings ensures RecordOk(k', k'.issuedSettings[x]) {
      assert x in k.issuedSettings ==> RecordOk(k, k.issuedSettings[x]);
    }
    forall i | 0 <= i < |k'.grants| ensures EventOk(k', k'.grants[i]) { assert EventOk(k, k.grants[i]); }
  }

  lemma GrantedOk(k: Consent, authority: Authority, destinations: seq<Destination>, checkedAt: int, first: set<DestinationDigest>)
    requires StoreOk(k) && Accounted(k, first) && EventOk(k, GrantEvent(authority, destinations, checkedAt))
    requires Token(GrantEvent(authority, destinations, checkedAt)).Some? ==>
               forall i :: 0 <= i < |k.grants| ==> Token(k.grants[i]) != Token(GrantEvent(authority, destinations, checkedAt))
    ensures var k' := Granted(k, authority, destinations, checkedAt); StoreOk(k') && Accounted(k', first)
  {
    var k' := Granted(k, authority, destinations, checkedAt);
    forall x | x in k'.issuedSettings ensures RecordOk(k', k'.issuedSettings[x]) { assert RecordOk(k, k.issuedSettings[x]); }
    forall i | 0 <= i < |k'.grants| ensures EventOk(k', k'.grants[i]) {
      assert i < |k.grants| ==> EventOk(k, k.grants[i]);
    }
    assert k'.grants[..|k'.grants| - 1] == k.grants;
  }

  lemma IssuedOk(k: Consent, ch: Challenge, first: set<DestinationDigest>)
    requires StoreOk(k) && Accounted(k, first) && ch.id !in k.issued
    ensures var k' := k.(issued := k.issued[ch.id := ch]); StoreOk(k') && Accounted(k', first)
  {
    var k' := k.(issued := k.issued[ch.id := ch]);
    forall x | x in k'.issuedSettings ensures RecordOk(k', k'.issuedSettings[x]) { assert RecordOk(k, k.issuedSettings[x]); }
    forall i | 0 <= i < |k'.grants| ensures EventOk(k', k'.grants[i]) { assert EventOk(k, k.grants[i]); }
  }

  // A write that may be saved reaches nothing unconsented beyond what its predecessor reached.
  ghost predicate WriteOk(k: Consent, writer: Option<PendingWrite>) {
    writer.Some? ==> Covered(k, Reachable(writer.value.prior), writer.value.next.reachable, [])
  }

  // A challenge record taken just now has authorized nothing yet.
  ghost predicate Unused(k: Consent, now: int, token: string, record: SettingsChallenge) {
    && token in k.issuedSettings && record == k.issuedSettings[token] && token in k.spent
    && now <= record.expiresAt && RecordOk(k, record)
    && forall i :: 0 <= i < |k.grants| ==> Token(k.grants[i]) != Some(token)
  }

  lemma DecideOk(k: Consent, now: int, env: WriteEnv, digest: WriteDigest, prior: Option<Document>, record: Option<SettingsChallenge>,
                 first: set<DestinationDigest>)
    requires StoreOk(k) && Accounted(k, first)
    requires digest.pre == Reachable(prior) && digest.post == env.next.reachable && digest.mode != GrantOnly
    requires record.Some? ==>
               env.token.Some? && record.value.mode != GrantOnly && Unused(k, now, env.token.value, record.value)
    ensures var (writer, k') := Decide(k, now, env, digest, prior, record); StoreOk(k') && Accounted(k', first) && WriteOk(k', writer)
  {
    hide StoreOk, Accounted, Install;
    if record.None? {
      NewRemoteCovers(k, digest.pre, digest.post);
      var missing := NewRemote(k, digest.pre, digest.post);
      InstallOk(k, now, env.newToken, SettingsChallenge(now + env.ttl, digest.mode, digest.path, Some(digest), missing, None), first);
    } else if Decide(k, now, env, digest, prior, record).1 != k {
      GrantedOk(k, WriteConsent(env.token.value), record.value.grants, now, first);
    }
  }

  lemma PrepareOk(s: State, env: WriteEnv, first: set<DestinationDigest>)
    requires StoreOk(s.consent) && Accounted(s.consent, first)
    ensures var (writer, k') := Prepare(s, env); StoreOk(k') && Accounted(k', first) && WriteOk(k', writer)
  {
    hide StoreOk, Accounted, Decide, Take, WriteOk;
    NoWriteOk(s.consent);
    if env.token.None? {
      if env.mode != GrantOnly { PrepareWriteOk(s.config, s.consent, s.now, env, env.mode, None, first); }
    } else {
      TakeOk(s.consent, s.now, env.token.value, first);
      var (record, k) := Take(s.consent, s.now, env.token.value);
      NoWriteOk(k);
      if record.Some? && record.value.mode != GrantOnly {
        PrepareWriteOk(s.config, k, s.now, env, record.value.mode, record, first);
      }
    }
  }

  lemma NoWriteOk(k: Consent)
    ensures WriteOk(k, None)
  {
  }

  lemma PrepareWriteOk(config: Config, k: Consent, now: int, env: WriteEnv, mode: Mode, record: Option<SettingsChallenge>,
                       first: set<DestinationDigest>)
    requires StoreOk(k) && Accounted(k, first) && mode != GrantOnly
    requires record.Some? ==>
               env.token.Some? && record.value.mode != GrantOnly && Unused(k, now, env.token.value, record.value)
    ensures var (writer, k') := PrepareWrite(config, k, now, env, mode, record);
            StoreOk(k') && Accounted(k', first) && WriteOk(k', writer)
  {
    hide StoreOk, Accounted, Decide, WriteOk;
    NoWriteOk(k);
    if Targets(config, env, mode) {
      var path := if mode == ApplyCreate then env.createPath else config.discovered.value;
      var prior := if mode == ApplyCreate then None else config.File(config.discovered);
      DecideOk(k, now, env, WriteDigest(env.request, mode, path, Reachable(prior), env.next.reachable), prior, record, first);
    }
  }

  lemma AskGrantsOk(config: Config, k: Consent, now: int, token: string, ttl: nat, first: set<DestinationDigest>)
    requires StoreOk(k) && Accounted(k, first)
    ensures var k' := AskGrants(config, k, now, token, ttl); StoreOk(k') && Accounted(k', first)
  {
    hide StoreOk, Accounted, Install;
    var doc := config.File(config.discovered);
    if k.open && doc.Some? {
      var grants := NewRemote(k, [], doc.value.reachable);
      if grants != [] {
        InstallOk(k, now, token, SettingsChallenge(now + ttl, GrantOnly, config.discovered.value, None, grants, doc), first);
      }
    }
  }

  lemma SpendGrantsOk(config: Config, k: Consent, now: int, token: string, persisted: bool, first: set<DestinationDigest>)
    requires StoreOk(k) && Accounted(k, first)
    ensures var k' := SpendGrants(config, k, now, token, persisted); StoreOk(k') && Accounted(k', first)
  {
    hide StoreOk, Accounted, Take;
    TakeOk(k, now, token, first);
    var (record, k1) := Take(k, now, token);
    if record.Some? && record.value.mode == GrantOnly {
      GrantedOk(k1, GrantConsent(token), record.value.grants, now, first);
    }
  }

  // ----- the invariant --------------------------------------------------------------------------

  ghost predicate PublishedOk(k: Consent, publications: seq<Publication>) {
    forall p :: p in publications ==> Covered(k, Reachable(p.replaced), p.published.reachable, [])
  }

  ghost predicate Consented(s: State, first: set<DestinationDigest>) {
    && StoreOk(s.consent) && Accounted(s.consent, first)
    && WriteOk(s.consent, s.writer) && PublishedOk(s.consent, s.config.publications)
  }

  // Every section that leaves the authority alone keeps the invariant.
  lemma SameConsented(s: State, s': State, first: set<DestinationDigest>)
    requires Consented(s, first) && SameAuthority(s, s')
    ensures Consented(s', first)
  {
  }

  lemma AdmitConsented(s: State, t: nat, env: AdmitEnv, first: set<DestinationDigest>)
    requires Consented(s, first)
    ensures Consented(Admit(s, t, env), first)
  {
    hide Consented, AdmitTarget, SnapshotOrBuild, Resolves, Leave, Expire;
    SameConsented(s, Leave(s, t), first);
    if t in s.admissions {
      var c := s.admissions[t].request.identity.conversation;
      var s1 := SnapshotOrBuild(ExpireOne(s, c), env.readable);
      SameConsented(s, s1, first);
      TargetConsented(s1, t, env, first);
    }
  }

  lemma TargetConsented(s: State, t: nat, env: AdmitEnv, first: set<DestinationDigest>)
    requires t in s.admissions && s.admissions[t].request.identity.conversation in s.convs && s.config.snapshot.Some?
    requires Consented(s, first)
    ensures Consented(AdmitTarget(s, t, env), first)
  {
    hide Consented, CommitConsentRetry, CommitChallenge, CommitStarting, Leave;
    SameConsented(s, Leave(s, t), first);
    if s.config.snapshot.value.target.Some? {
      var request, target := s.admissions[t].request, s.config.snapshot.value.target.value;
      SameConsented(s, CommitConsentRetry(s, t, request, target), first);
      SameConsented(s, CommitStarting(s, t, request.identity, target), first);
      ChallengeConsented(s, t, request.identity, target.destination, env, first);
    }
  }

  lemma ChallengeConsented(s: State, t: nat, id: RunIdentity, destination: Destination, env: AdmitEnv, first: set<DestinationDigest>)
    requires id.conversation in s.convs && Consented(s, first)
    ensures Consented(CommitChallenge(s, t, id, destination, env), first)
  {
    hide Consented;
    SameConsented(s, Leave(s, t), first);
    if env.challengeId !in s.consent.issued {
      var ch := Challenge(env.challengeId, id, destination, s.now + env.ttl);
      IssuedConsented(s, ch, first);
      if id.runId !in s.claims && !s.Closing() {
        SameConsented(s.(consent := s.consent.(issued := s.consent.issued[ch.id := ch])), CommitChallenge(s, t, id, destination, env), first);
      }
    }
  }

  lemma IssuedConsented(s: State, ch: Challenge, first: set<DestinationDigest>)
    requires Consented(s, first) && ch.id !in s.consent.issued
    ensures Consented(s.(consent := s.consent.(issued := s.consent.issued[ch.id := ch])), first)
  {
    hide StoreOk, Accounted;
    IssuedOk(s.consent, ch, first);
  }

  lemma GrantedStateConsented(s: State, t: nat, c: ConversationId, first: set<DestinationDigest>)
    requires t in s.admissions && s.admissions[t].phase.Granting? && c in s.convs && s.convs[c].challenge.Some?
    requires Consented(s, first)
    requires EventOk(s.consent, GrantEvent(TurnConsent(s.convs[c].challenge.value), [s.admissions[t].phase.target.destination], s.admissions[t].phase.checkedAt))
    ensures Consented(GrantedState(s, t, c), first)
  {
    hide StoreOk, Accounted, EventOk;
    var p := s.admissions[t].phase;
    GrantedOk(s.consent, TurnConsent(s.convs[c].challenge.value), [p.target.destination], p.checkedAt, first);
  }

  lemma GrantTurnConsented(s: State, t: nat, persisted: bool, first: set<DestinationDigest>)
    requires Lifecycle(s) && Consented(s, first)
    ensures Consented(GrantTurn(s, t, persisted), first)
  {
    hide Lifecycle, Consented, EventOk, Release;
    if Holds(s, t) && s.admissions[t].phase.Granting? {
      var c := s.admissions[t].request.identity.conversation;
      GrantFacts(s, t);
      GrantedStateConsented(s, t, c, first);
      SameConsented(s, Release(s, t, s.convs[c].(state := PendingConsent)), first);
    }
  }

  lemma GrantFacts(s: State, t: nat)
    requires Lifecycle(s) && Holds(s, t) && s.admissions[t].phase.Granting?
    ensures var ch := s.convs[s.admissions[t].request.identity.conversation].challenge;
            ch.Some? && EventOk(s.consent, GrantEvent(TurnConsent(ch.value), [s.admissions[t].phase.target.destination], s.admissions[t].phase.checkedAt))
  {
    hide Lifecycle, OwnLinks, StageOk;
    HeldFrom(s, t);
  }

  lemma WriteConsented(s: State, env: WriteEnv, first: set<DestinationDigest>)
    requires Consented(s, first)
    ensures Consented(WriteSettings(s, env), first)
  {
    hide StoreOk, Accounted, Prepare, Scan, WriteOk;
    if s.GateFree() && !s.Closing() {
      SameConsented(s, Scan(s, env.visited).1, first);
      var (busy, s1) := Scan(s, env.visited);
      PrepareOk(s1, env, first);
      PrepareGrows(s1, env);
    }
  }

  lemma PrepareGrantsConsented(s: State, visited: set<ConversationId>, token: string, ttl: nat, first: set<DestinationDigest>)
    requires Consented(s, first)
    ensures Consented(PrepareGrants(s, visited, token, ttl), first)
  {
    hide StoreOk, Accounted, AskGrants, Scan;
    if s.GateFree() && !s.Closing() {
      SameConsented(s, Scan(s, visited).1, first);
      var (busy, s1) := Scan(s, visited);
      AskGrantsOk(s1.config, s1.consent, s1.now, token, ttl, first);
      AskGrows(s1.config, s1.consent, s1.now, token, ttl);
    }
  }

  lemma AskGrows(config: Config, k: Consent, now: int, token: string, ttl: nat)
    ensures ConsentGrows(k, AskGrants(config, k, now, token, ttl))
  {
  }

  lemma ConfirmGrantsConsented(s: State, visited: set<ConversationId>, token: string, persisted: bool, first: set<DestinationDigest>)
    requires Consented(s, first)
    ensures Consented(ConfirmGrants(s, visited, token, persisted), first)
  {
    hide StoreOk, Accounted, SpendGrants, Scan;
    if s.GateFree() && !s.Closing() {
      SameConsented(s, Scan(s, visited).1, first);
      var (busy, s1) := Scan(s, visited);
      SpendGrantsOk(s1.config, s1.consent, s1.now, token, persisted, first);
      SpendGrows(s1.config, s1.consent, s1.now, token, persisted);
    }
  }

  lemma CancelTokenConsented(s: State, token: string, first: set<DestinationDigest>)
    requires Consented(s, first)
    ensures Consented(CancelToken(s, token), first)
  {
    hide StoreOk, Accounted, Take;
    TakeOk(s.consent, s.now, token, first);
  }

  lemma SaveWriteConsented(s: State, saves: bool, rediscovered: Option<string>, readable: bool, first: set<DestinationDigest>)
    requires Consented(s, first)
    ensures Consented(SaveWrite(s, saves, rediscovered, readable), first)
  {
    hide StoreOk, Accounted, Covered, CloseAll, CachedRunners;
  }

  lemma StepConsented(s: State, a: Action, first: set<DestinationDigest>)
    requires Lifecycle(s) && Consented(s, first)
    ensures Consented(Step(s, a), first)
  {
    hide Lifecycle, Consented, SameAuthority, Bind, Unbind, Status, Enter, Leave, Admit, GrantTurn, Build, Register, SaveSession,
      Cleanup, EmitTerminal, MarkCanceling, Decline, Reset, ReloadSettings, WriteSettings, SaveWrite, PrepareGrants, ConfirmGrants,
      CancelToken, Close, RetireFinal, Finish;
    match a
    case AAdmit(t, env) => AdmitConsented(s, t, env, first);
    case AGrant(t, persisted) => GrantTurnConsented(s, t, persisted, first);
    case AWrite(env) => WriteConsented(s, env, first);
    case ASaveWrite(saves, rediscovered, readable) => SaveWriteConsented(s, saves, rediscovered, readable, first);
    case APrepareGrants(visited, token, ttl) => PrepareGrantsConsented(s, visited, token, ttl, first);
    case AConfirmGrants(visited, token, persisted) => ConfirmGrantsConsented(s, visited, token, persisted, first);
    case ACancelToken(token) => CancelTokenConsented(s, token, first);
    case _ => OtherConsented(s, a, first);
  }

  lemma OtherConsented(s: State, a: Action, first: set<DestinationDigest>)
    requires !TouchesConsent(a) && Consented(s, first)
    ensures Consented(Step(s, a), first)
  {
    hide *;
    OtherSteps(s, a);
    SameConsented(s, Step(s, a), first);
  }

  predicate TouchesConsent(a: Action) {
    a.AAdmit? || a.AGrant? || a.AWrite? || a.ASaveWrite? || a.APrepareGrants? || a.AConfirmGrants? || a.ACancelToken?
  }

  lemma OtherSteps(s: State, a: Action)
    requires !TouchesConsent(a)
    ensures SameAuthority(s, Step(s, a))
  {
    hide Bind, Unbind, Status, Enter, Leave, Build, Register, SaveSession, Cleanup, EmitTerminal, MarkCanceling, Decline, Reset,
      ReloadSettings, Close, RetireFinal, Finish;
  }

  /** The consent invariant holds after every run, relative to the grants the store opened with. */
  lemma {:induction false} ConsentHolds(s: State, actions: seq<Action>)
    requires Init(s)
    ensures Consented(Reach(s, actions), s.consent.granted)
  {
    hide Lifecycle, Step;
    if actions != [] {
      var before := actions[..|actions| - 1];
      ConsentHolds(s, before);
      LifecycleHolds(s, before);
      StepConsented(Reach(s, before), actions[|actions| - 1], s.consent.granted);
    }
  }
}
