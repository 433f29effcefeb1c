/**
 The critical sections of internal/ai/service.go as total functions on the shared state: one function
 per section that runs under its locks without a break. A section that is blocked, or whose caller does
 not exist, leaves the state as it is.
 */
module ServiceSteps {
  import opened Options
  import opened ServiceState

  // ----- what a section leaves alone ------------------------------------------------------------

  predicate SameBinding(s: State, s': State) { s'.binding == s.binding && s'.nextEpoch == s.nextEpoch }

  // A binding that changes is dropped or takes an epoch nobody had.
  predicate Rebinds(s: State, s': State) {
    && s.nextEpoch <= s'.nextEpoch
    && (s'.binding == s.binding || s'.binding.None? || s'.binding.value.epoch > s.nextEpoch)
  }

  predicate SameAuthority(s: State, s': State) {
    s'.consent == s.consent && s'.writer == s.writer && s'.config.publications == s.config.publications
  }

  predicate Untouched(s: State, s': State) { SameBinding(s, s') && SameAuthority(s, s') }

  // ----- conversation records and runners -------------------------------------------------------

  // dropExpiredChallengeLocked
  function Expire(v: Conv, now: int): Conv {
    if v.challenge.Some? && now > v.challenge.value.expiresAt then
      v.(challenge := None, state := if v.state == PendingConsent then Idle else v.state)
    else v
  }

  function ExpireOne(s: State, c: ConversationId): (r: State)
    ensures Untouched(s, r)
  {
    s.(convs := s.convs[c := Expire(s.Conversation(c), s.now)])
  }

  function ExpireIn(convs: map<ConversationId, Conv>, visited: set<ConversationId>, now: int): map<ConversationId, Conv> {
    map c | c in convs :: if c in visited then Expire(convs[c], now) else convs[c]
  }

  function CloseAll(runners: map<nat, Runner>, closing: set<nat>): map<nat, Runner> {
    map r | r in runners :: if r in closing then runners[r].(closed := true) else runners[r]
  }

  // The idle runners retireBinding removes for one incarnation, by conversation.
  function IdleRunners(convs: map<ConversationId, Conv>, epoch: nat): map<ConversationId, nat> {
    map c | c in convs && convs[c].runner.Some? && convs[c].runnerEpoch == epoch && convs[c].active.None? :: convs[c].runner.value
  }

  function RetireConv(v: Conv, epoch: nat): Conv {
    var v1 :=
      if v.challenge.Some? && v.challenge.value.identity.repoEpoch == epoch then
        v.(challenge := None, state := if v.state == PendingConsent then Idle else v.state)
      else v;
    if v1.runner.Some? && v1.runnerEpoch == epoch then
      if v1.active.None? then v1.(runner := None, stale := false) else v1.(stale := true)
    else v1
  }

  function RetireConvs(convs: map<ConversationId, Conv>, epoch: nat): map<ConversationId, Conv> {
    map c | c in convs :: RetireConv(convs[c], epoch)
  }

  function DropRunner(v: Conv): Conv { v.(runner := None, stale := false) }

  function CachedRunners(convs: map<ConversationId, Conv>): set<nat> {
    set c | c in convs && convs[c].runner.Some? :: convs[c].runner.value
  }

  function RetireCached(s: State): (r: State)
    ensures Untouched(s, r)
  {
    s.(runners := CloseAll(s.runners, CachedRunners(s.convs)),
       convs := map c | c in s.convs :: DropRunner(s.convs[c]))
  }

  // ----- snapshot -------------------------------------------------------------------------------

  function BuildSnapshot(s: State, readable: bool): (r: State)
    ensures Untouched(s, r)
  {
    var doc := if readable then s.config.File(s.config.discovered) else None;
    var sn := Snapshot(s.config.epoch + 1, if doc.Some? then doc.value.agent else None);
    s.(config := s.config.(epoch := s.config.epoch + 1, snapshot := Some(sn)))
  }

  function SnapshotOrBuild(s: State, readable: bool): (r: State)
    ensures r.config.snapshot.Some? && r.convs == s.convs && r.admissions == s.admissions
    ensures Untouched(s, r)
  {
    if s.config.snapshot.Some? then s else BuildSnapshot(s, readable)
  }

  // ----- bindings -------------------------------------------------------------------------------

  function Bind(s: State, root: string): (r: State)
    ensures SameAuthority(s, r) && Rebinds(s, r)
  {
    if !s.GateFree() || s.Closing() then s
    else if s.binding.Some? && s.binding.value.root == root then s
    else Rebound(s, root)
  }

  // A new incarnation; the one it replaces is retired.
  function Rebound(s: State, root: string): (r: State)
    ensures SameAuthority(s, r) && Rebinds(s, r)
  {
    var epoch := s.nextEpoch + 1;
    var s1 := s.(nextEpoch := epoch, binding := Some(Binding(root, epoch)));
    if s.binding.None? then s1 else RetireInto(s1, s.binding.value.epoch)
  }

  // retireBinding followed by the immediate close of the idle runners it returned.
  function RetireInto(s: State, epoch: nat): (r: State)
    ensures Untouched(s, r)
  {
    s.(convs := RetireConvs(s.convs, epoch),
       runners := CloseAll(s.runners, IdleRunners(s.convs, epoch).Values))
  }

  function Unbind(s: State): (r: State)
    ensures SameAuthority(s, r) && Rebinds(s, r)
  {
    if !s.GateFree() || s.Closing() || s.binding.None? then s
    else RetireInto(s.(binding := None), s.binding.value.epoch)
  }

  // Bindings.Resolve and the conversation-ID check; `known` is the workspace lookup and root containment.
  predicate Resolves(s: State, id: RunIdentity, known: bool) {
    && known && s.binding.Some?
    && id.repoEpoch != 0 && id.repoEpoch == s.binding.value.epoch
    && id.conversation == ConversationId(s.binding.value.root, id.workspaceId)
  }

  // ----- admission ------------------------------------------------------------------------------

  function Enter(s: State, t: nat, request: TurnRequest): (r: State)
    ensures Untouched(s, r)
  {
    if s.Closing() || t in s.admissions then s
    else s.(admissions := s.admissions[t := Admission(request, Entered)])
  }

  function Leave(s: State, t: nat): (r: State)
    ensures Untouched(s, r)
  {
    s.(admissions := s.admissions - {t})
  }

  datatype AdmitEnv = AdmitEnv(known: bool, readable: bool, usable: bool, challengeId: string, ttl: nat)

  /** Steps 5 and 6 of StartTurn up to the durable grant: the gate, the mutex, the target and the commit. */
  function Admit(s: State, t: nat, env: AdmitEnv): (r: State)
    ensures SameBinding(s, r)
  {
    hide AdmitTarget, SnapshotOrBuild, Expire, Resolves, Leave, BuildSnapshot;
    if t !in s.admissions || !s.admissions[t].phase.Entered? || s.writer.Some? then s
    else
      var id := s.admissions[t].request.identity;
      if !Resolves(s, id, env.known) then Leave(s, t)
      else if s.Conversation(id.conversation).holder.Some? then s
      else AdmitTarget(SnapshotOrBuild(ExpireOne(s, id.conversation), env.readable), t, env)
  }

  // Under the mutex: resolve the target the snapshot selects.
  function AdmitTarget(s: State, t: nat, env: AdmitEnv): (r: State)
    requires t in s.admissions && s.admissions[t].request.identity.conversation in s.convs && s.config.snapshot.Some?
    ensures SameBinding(s, r)
  {
    var target := s.config.snapshot.value.target;
    if target.None? || !env.usable then Leave(s, t) else AdmitCommit(s, t, env, target.value)
  }

  // Step 6: the commit the conversation's state allows.
  function AdmitCommit(s: State, t: nat, env: AdmitEnv, target: Target): (r: State)
    requires t in s.admissions && s.admissions[t].request.identity.conversation in s.convs && s.config.snapshot.Some?
    ensures SameBinding(s, r)
  {
    hide CommitChallenge, CommitStarting, CommitConsentRetry, Leave;
    var request := s.admissions[t].request;
    var id := request.identity;
    match s.convs[id.conversation].state
    case Running | Canceling | Starting => Leave(s, t)
    case PendingConsent => CommitConsentRetry(s, t, request, target)
    case Idle =>
      if request.challengeId.Some? then Leave(s, t)
      else if target.destination.remote && !s.consent.Has(target.destination.Digest()) then
        CommitChallenge(s, t, id, target.destination, env)
      else CommitStarting(s, t, id, target)
  }

  function Hold(s: State, t: nat, c: ConversationId, phase: Phase): (r: State)
    requires t in s.admissions && c in s.convs
    ensures Untouched(s, r)
  {
    s.(convs := s.convs[c := s.convs[c].(state := Starting, holder := Some(t))],
       admissions := s.admissions[t := s.admissions[t].(phase := phase)])
  }

  function CommitConsentRetry(s: State, t: nat, request: TurnRequest, target: Target): (r: State)
    requires t in s.admissions && request.identity.conversation in s.convs && s.config.snapshot.Some?
    ensures Untouched(s, r)
  {
    var id := request.identity;
    var ch := s.convs[id.conversation].challenge;
    if ch.None? || request.challengeId != Some(ch.value.id) || ch.value.identity != id then Leave(s, t)
    else if ch.value.destination != target.destination then Leave(s, t)
    else if s.Closing() || id.runId !in s.claims || s.claims[id.runId] != id then Leave(s, t)
    else Hold(s, t, id.conversation, Granting(target, s.config.snapshot.value.epoch, s.now))
  }

  function CommitChallenge(s: State, t: nat, id: RunIdentity, destination: Destination, env: AdmitEnv): (r: State)
    requires id.conversation in s.convs
    ensures SameBinding(s, r)
  {
    if s.Closing() || id.runId in s.claims || env.challengeId in s.consent.issued then Leave(s, t)
    else
      var ch := Challenge(env.challengeId, id, destination, s.now + env.ttl);
      Leave(s.(claims := s.claims[id.runId := id],
               consent := s.consent.(issued := s.consent.issued[ch.id := ch]),
               convs := s.convs[id.conversation := s.convs[id.conversation].(state := PendingConsent, challenge := Some(ch))]), t)
  }

  function CommitStarting(s: State, t: nat, id: RunIdentity, target: Target): (r: State)
    requires t in s.admissions && id.conversation in s.convs && s.config.snapshot.Some?
    ensures Untouched(s, r)
  {
    if s.Closing() || id.runId in s.claims then Leave(s, t)
    else Hold(s.(claims := s.claims[id.runId := id]), t, id.conversation, Building(target, s.config.snapshot.value.epoch))
  }

  // The admission and the conversation it holds, once past Entered.
  predicate Holds(s: State, t: nat) {
    && t in s.admissions && !s.admissions[t].phase.Entered?
    && s.admissions[t].request.identity.conversation in s.convs
  }

  function Release(s: State, t: nat, v: Conv): (r: State)
    requires t in s.admissions
    ensures Untouched(s, r)
  {
    Leave(s.(convs := s.convs[s.admissions[t].request.identity.conversation := v.(holder := None)]), t)
  }

  function Granted(k: Consent, authority: Authority, destinations: seq<Destination>, checkedAt: int): Consent {
    k.(granted := k.granted + Digests(destinations),
       grants := k.grants + [GrantEvent(authority, destinations, checkedAt)])
  }

  function Digests(ds: seq<Destination>): set<DestinationDigest> { set d | d in ds :: d.Digest() }

  /** The durable grant of a consent retry, then consumption of its challenge. */
  function GrantTurn(s: State, t: nat, persisted: bool): (r: State)
    ensures SameBinding(s, r)
  {
    if !Holds(s, t) || !s.admissions[t].phase.Granting? then s
    else
      var a := s.admissions[t];
      var c := a.request.identity.conversation;
      var v := s.convs[c];
      if !s.consent.open || !persisted || !a.phase.target.destination.remote || v.challenge.None? then
        Release(s, t, v.(state := PendingConsent))
      else
        s.(consent := Granted(s.consent, TurnConsent(v.challenge.value), [a.phase.target.destination], a.phase.checkedAt),
           convs := s.convs[c := v.(challenge := None)],
           admissions := s.admissions[t := a.(phase := Building(a.phase.target, a.phase.configEpoch))])
  }

  datatype BuildEnv = BuildEnv(rootChanged: bool, constructs: bool, runner: nat, rootStable: bool)

  // Step 7 must not reuse a runner of another directory, repository epoch, config epoch, or a retired one.
  predicate Mismatched(v: Conv, env: BuildEnv, epoch: nat, configEpoch: nat) {
    v.runner.Some? && (env.rootChanged || v.runnerEpoch != epoch || v.runnerConfigEpoch != configEpoch || v.stale)
  }

  /** Step 7: reuse the cached runner, or close it and construct another. */
  function Build(s: State, t: nat, env: BuildEnv): (r: State)
    ensures Untouched(s, r)
  {
    if !Holds(s, t) || !s.admissions[t].phase.Building? then s
    else
      var a := s.admissions[t];
      var v := s.convs[a.request.identity.conversation];
      if Mismatched(v, env, a.request.identity.repoEpoch, a.phase.configEpoch) then
        Construct(s.(runners := CloseAll(s.runners, {v.runner.value})), t, DropRunner(v), env)
      else if v.runner.None? then Construct(s, t, v, env)
      else s.(admissions := s.admissions[t := a.(phase := Built(a.phase.target, a.phase.configEpoch, v.runner.value, false))])
  }

  // Construction, then the second look at the root directory; either failure rolls the admission back.
  function Construct(s: State, t: nat, v: Conv, env: BuildEnv): (r: State)
    requires Holds(s, t) && s.admissions[t].phase.Building?
    ensures Untouched(s, r)
  {
    var a := s.admissions[t];
    var c := a.request.identity.conversation;
    if !env.constructs || env.runner in s.runners then Release(s, t, v.(state := Idle))
    else
      var s1 := s.(runners := s.runners[env.runner := Runner(c, a.phase.target, !env.rootStable)]);
      if !env.rootStable then Release(s1, t, v.(state := Idle))
      else
        s1.(convs := s1.convs[c := v],
            admissions := s1.admissions[t := a.(phase := Built(a.phase.target, a.phase.configEpoch, env.runner, true))])
  }

  /** Steps 8 to 10: recheck closing, then register and launch run `h`, or roll back. */
  function Register(s: State, t: nat, h: nat): (r: State)
    ensures Untouched(s, r)
  {
    if !Holds(s, t) || !s.admissions[t].phase.Built? || h in s.runs then s
    else if s.Closing() then RolledBack(s, t)
    else Registered(s, t, h)
  }

  // The deferred rollback: a newly constructed runner is closed, a cached one kept.
  function RolledBack(s: State, t: nat): (r: State)
    requires Holds(s, t) && s.admissions[t].phase.Built?
    ensures Untouched(s, r)
  {
    var p := s.admissions[t].phase;
    var v := s.convs[s.admissions[t].request.identity.conversation];
    Release(s.(runners := if p.constructed then CloseAll(s.runners, {p.runner}) else s.runners), t, v.(state := Idle))
  }

  function Registered(s: State, t: nat, h: nat): (r: State)
    requires Holds(s, t) && s.admissions[t].phase.Built?
    ensures Untouched(s, r)
  {
    var a := s.admissions[t];
    var id := a.request.identity;
    var run := Run(id, a.phase.runner, false, Executing, a.phase.target.destination,
                   s.consent.Has(a.phase.target.destination.Digest()), s.Resets(id.conversation));
    Release(s.(runs := s.runs[h := run], active := s.active[id.runId := h], launched := s.launched[id.runId := h]), t,
            s.convs[id.conversation].(state := Running, active := Some(h), runner := Some(a.phase.runner),
                                      runnerEpoch := id.repoEpoch, runnerConfigEpoch := a.phase.configEpoch))
  }

  // ----- running turns --------------------------------------------------------------------------

  // A Save the runner makes while Run has not returned.
  function SaveSession(s: State, h: nat): (r: State)
    ensures Untouched(s, r)
  {
    if h !in s.runs || !s.runs[h].phase.Executing? then s
    else s.(saves := s.saves + [SaveEvent(h, s.Resets(s.runs[h].identity.conversation))])
  }

  /** runTurn after Run returns: retire a stale runner and release the reservation. */
  function Cleanup(s: State, h: nat): (r: State)
    ensures Untouched(s, r)
  {
    hide CloseAll, Vacated, Unindexed;
    if h !in s.runs || !s.runs[h].phase.Executing? then s
    else
      var run := s.runs[h];
      var c := run.identity.conversation;
      var v := s.Conversation(c);
      if v.holder.Some? then s
      else
        s.(runners := if Outdated(v, run.runner) then CloseAll(s.runners, {run.runner}) else s.runners,
           convs := s.convs[c := Vacated(v, h, run.runner)],
           active := Unindexed(s.active, run.identity.runId, h),
           runs := s.runs[h := run.(phase := Emitting)])
  }

  // The runner was retired while its turn ran.
  predicate Outdated(v: Conv, r: nat) { v.stale && v.runner == Some(r) }

  function Vacated(v: Conv, h: nat, r: nat): Conv {
    var v1 := if Outdated(v, r) then DropRunner(v) else v;
    if v1.active == Some(h) then v1.(active := None, state := Idle) else v1
  }

  // An index entry is removed only while it still names the run.
  function Unindexed(active: map<string, nat>, runId: string, h: nat): map<string, nat> {
    if runId in active && active[runId] == h then active - {runId} else active
  }

  // The terminal event is out and the waitgroup unit is returned.
  function EmitTerminal(s: State, h: nat): (r: State)
    ensures Untouched(s, r)
  {
    if h !in s.runs || !s.runs[h].phase.Emitting? then s
    else s.(runs := s.runs[h := s.runs[h].(phase := Finished)])
  }

  /** Cancel once the index lookup has found run `h`, however long ago. */
  function MarkCanceling(s: State, h: nat): (r: State)
    ensures Untouched(s, r)
  {
    hide Interrupted;
    if h !in s.runs then s
    else
      var run := s.runs[h];
      var c := run.identity.conversation;
      var v := s.Conversation(c);
      if v.holder.Some? then s
      else
        s.(convs := s.convs[c := Interrupted(v, h)],
           runs := if run.identity.runId in s.active && s.active[run.identity.runId] == h
                   then s.runs[h := run.(canceling := true)] else s.runs)
  }

  function Interrupted(v: Conv, h: nat): Conv {
    if v.active == Some(h) && v.state == Running then v.(state := Canceling) else v
  }

  // Cancel of a pending consent: consume only the exactly matching challenge.
  function Decline(s: State, id: RunIdentity): (r: State)
    ensures Untouched(s, r)
  {
    var c := id.conversation;
    if id.runId in s.active || c !in s.convs || s.convs[c].holder.Some? then s
    else
      var v := s.convs[c];
      if v.state == PendingConsent && v.challenge.Some? && v.challenge.value.identity == id
      then s.(convs := s.convs[c := v.(challenge := None, state := Idle)])
      else s
  }

  function Reset(s: State, id: RunIdentity, known: bool): (r: State)
    ensures Untouched(s, r)
  {
    var c := id.conversation;
    if s.writer.Some? || s.Closing() || !Resolves(s, id, known) || s.Conversation(c).holder.Some? then s
    else
      var s1 := ExpireOne(s, c);
      if s1.convs[c].state != Idle then s1
      else s1.(resets := s1.resets[c := s1.Resets(c) + 1])
  }

  function Status(s: State, id: RunIdentity, known: bool, readable: bool): (r: State)
    ensures Untouched(s, r)
  {
    var c := id.conversation;
    if s.writer.Some? || s.Closing() || !Resolves(s, id, known) || s.Conversation(c).holder.Some? then s
    else SnapshotOrBuild(ExpireOne(s, c), readable)
  }

  // ----- settings -------------------------------------------------------------------------------

  predicate AllIdle(convs: map<ConversationId, Conv>) {
    forall c :: c in convs ==> convs[c].state == Idle
  }

  /** conversationsBusy: `visited` are the records the scan reached when it found a busy one. */
  function Scan(s: State, visited: set<ConversationId>): (r: (bool, State))
    ensures Untouched(s, r.1)
  {
    hide Expire;
    var partial := ExpireIn(s.convs, visited, s.now);
    if exists c :: c in visited && c in s.convs && partial[c].state != Idle then (true, s.(convs := partial))
    else
      var full := ExpireIn(s.convs, s.convs.Keys, s.now);
      (!AllIdle(full), s.(convs := full))
  }

  function ReloadSettings(s: State, visited: set<ConversationId>, readable: bool): (r: State)
    ensures Untouched(s, r)
  {
    if !s.GateFree() || s.Closing() then s
    else
      var (busy, s1) := Scan(s, visited);
      if busy then SnapshotOrBuild(s1, readable)
      else RetireCached(BuildSnapshot(s1, readable))
  }

  // newRemoteDestinations
  function NewRemote(k: Consent, pre: seq<Destination>, post: seq<Destination>): seq<Destination> {
    if post == [] then []
    else
      var d := post[0];
      (if d.remote && d.Digest() !in Digests(pre) && !k.Has(d.Digest()) then [d] else []) + NewRemote(k, pre, post[1..])
  }

  function Install(k: Consent, now: int, token: string, record: SettingsChallenge): Consent {
    if token in k.issuedSettings then k
    else
      var kept := map x | x in k.settings && now <= k.settings[x].expiresAt :: k.settings[x];
      k.(settings := kept[token := record], issuedSettings := k.issuedSettings[token := record])
  }

  // takeSettingsChallenge: an expired record is removed all the same.
  function Take(k: Consent, now: int, token: string): (r: (Option<SettingsChallenge>, Consent)) {
    if token !in k.settings then (None, k)
    else
      var record := k.settings[token];
      (if now > record.expiresAt then None else Some(record),
       k.(settings := k.settings - {token}, spent := k.spent + [token]))
  }

  function CancelToken(s: State, token: string): (r: State)
    ensures SameBinding(s, r)
  {
    s.(consent := Take(s.consent, s.now, token).1)
  }

  datatype WriteEnv = WriteEnv(
    visited: set<ConversationId>, token: Option<string>, request: string, mode: Mode,
    accepted: bool, createPath: string, next: Document, newToken: string, ttl: nat, persisted: bool)

  /** writeSettings up to the save: both calls of the two-call flow. */
  function WriteSettings(s: State, env: WriteEnv): (r: State)
    ensures SameBinding(s, r)
  {
    if !s.GateFree() || s.Closing() then s
    else
      var (busy, s1) := Scan(s, env.visited);
      if busy then s1
      else
        var (writer, consent) := Prepare(s1, env);
        s1.(writer := writer, consent := consent)
  }

  // From the token to the decision: a write to save, a challenge, or neither.
  function Prepare(s: State, env: WriteEnv): (r: (Option<PendingWrite>, Consent)) {
    if env.token.None? then
      if env.mode == GrantOnly then (None, s.consent) else PrepareWrite(s.config, s.consent, s.now, env, env.mode, None)
    else
      var (record, k) := Take(s.consent, s.now, env.token.value);
      if record.None? || record.value.mode == GrantOnly then (None, k)
      else PrepareWrite(s.config, k, s.now, env, record.value.mode, record)
  }

  // The target: the discovered file, or for Create the fixed path when nothing is discovered.
  predicate Targets(config: Config, env: WriteEnv, mode: Mode) {
    && env.accepted
    && (mode == ApplyCreate <==> config.discovered.None?)
    && (mode == ApplyExisting ==> config.File(config.discovered).Some?)
  }

  function PrepareWrite(config: Config, k: Consent, now: int, env: WriteEnv, mode: Mode, record: Option<SettingsChallenge>)
    : (r: (Option<PendingWrite>, Consent))
    requires mode != GrantOnly
  {
    if !Targets(config, env, mode) then (None, k)
    else
      var path := if mode == ApplyCreate then env.createPath else config.discovered.value;
      var prior := if mode == ApplyCreate then None else config.File(config.discovered);
      Decide(k, now, env, WriteDigest(env.request, mode, path, Reachable(prior), env.next.reachable), prior, record)
  }

  function Reachable(doc: Option<Document>): seq<Destination> { if doc.Some? then doc.value.reachable else [] }

  // The consent decision on one prepared write.
  function Decide(k: Consent, now: int, env: WriteEnv, digest: WriteDigest, prior: Option<Document>, record: Option<SettingsChallenge>)
    : (r: (Option<PendingWrite>, Consent))
  {
    var write := Some(PendingWrite(digest.mode, digest.path, prior, env.next));
    if record.None? then
      var missing := NewRemote(k, digest.pre, digest.post);
      if missing == [] then (write, k)
      else (None, Install(k, now, env.newToken, SettingsChallenge(now + env.ttl, digest.mode, digest.path, Some(digest), missing, None)))
    else if record.value.path != digest.path || record.value.digest != Some(digest) then (None, k)
    else if record.value.grants == [] then (write, k)
    else if !k.open || !env.persisted then (None, k)
    else (write, Granted(k, WriteConsent(env.token.GetOr("")), record.value.grants, now))
  }

  /** publishSettingsWrite: save against the prior revision, publish, retire cached runners. */
  function SaveWrite(s: State, saves: bool, rediscovered: Option<string>, readable: bool): (r: State)
    ensures SameBinding(s, r)
  {
    if s.writer.None? then s
    else
      var w := s.writer.value;
      var current := s.config.File(Some(w.path));
      var s1 := s.(writer := None);
      if !saves || current != w.prior then s1
      else
        RetireCached(BuildSnapshot(s1.(config := Published(s.config, w, rediscovered)), readable))
  }

  function Published(config: Config, w: PendingWrite, rediscovered: Option<string>): Config {
    config.(files := config.files[w.path := w.next], discovered := rediscovered,
            publications := config.publications + [Publication(w.path, config.File(Some(w.path)), w.next)])
  }

  function PrepareGrants(s: State, visited: set<ConversationId>, token: string, ttl: nat): (r: State)
    ensures SameBinding(s, r)
  {
    if !s.GateFree() || s.Closing() then s
    else
      var (busy, s1) := Scan(s, visited);
      if busy then s1 else s1.(consent := AskGrants(s1.config, s1.consent, s1.now, token, ttl))
  }

  function AskGrants(config: Config, k: Consent, now: int, token: string, ttl: nat): Consent {
    var doc := config.File(config.discovered);
    if !k.open || doc.None? then k
    else
      var grants := NewRemote(k, [], doc.value.reachable);
      if grants == [] then k
      else Install(k, now, token, SettingsChallenge(now + ttl, GrantOnly, config.discovered.value, None, grants, doc))
  }

  function ConfirmGrants(s: State, visited: set<ConversationId>, token: string, persisted: bool): (r: State)
    ensures SameBinding(s, r)
  {
    if !s.GateFree() || s.Closing() then s
    else
      var (busy, s1) := Scan(s, visited);
      if busy then s1 else s1.(consent := SpendGrants(s1.config, s1.consent, s1.now, token, persisted))
  }

  function SpendGrants(config: Config, k: Consent, now: int, token: string, persisted: bool): Consent {
    var (record, k1) := Take(k, now, token);
    if record.None? || record.value.mode != GrantOnly then k1
    else if config.discovered != Some(record.value.path) || config.File(config.discovered) != record.value.revision then k1
    else if !k1.open || !persisted then k1
    else Granted(k1, GrantConsent(token), record.value.grants, now)
  }

  // ----- shutdown -------------------------------------------------------------------------------

  function Close(s: State): (r: State)
    ensures Untouched(s, r)
  {
    if s.stage == Open then s.(stage := Marked) else s
  }

  // The shutdown writer: retire the final binding and keep its idle runners for the last sweep.
  function RetireFinal(s: State): (r: State)
    ensures SameAuthority(s, r) && Rebinds(s, r)
  {
    if s.stage != Marked || !s.GateFree() then s
    else
      var s1 := s.(stage := Retired, binding := None);
      if s.binding.None? then s1 else KeepOrphans(s1, s.binding.value.epoch)
  }

  function KeepOrphans(s: State, epoch: nat): (r: State)
    ensures Untouched(s, r)
  {
    s.(convs := RetireConvs(s.convs, epoch), orphans := IdleRunners(s.convs, epoch))
  }

  predicate Quiet(s: State) {
    && s.admissions == map[] && s.writer.None?
    && forall h :: h in s.runs ==> s.runs[h].phase.Finished?
  }

  // After the waitgroup drains: close every collected and cached runner and signal done.
  function Finish(s: State): (r: State)
    ensures Untouched(s, r)
  {
    if s.stage != Retired || !Quiet(s) then s
    else
      var s1 := RetireCached(s.(stage := Done));
      s1.(runners := CloseAll(s1.runners, s.orphans.Values), orphans := map[])
  }

  // ----- one step and whole runs ----------------------------------------------------------------

  datatype Action =
    | ATick(now: int)
    | AEditFiles(files: map<string, Document>, discovered: Option<string>)
    | ABind(root: string) | AUnbind
    | AStatus(id: RunIdentity, known: bool, readable: bool)
    | AEnter(t: nat, request: TurnRequest) | ALeave(t: nat)
    | AAdmit(t: nat, admitEnv: AdmitEnv) | AGrant(t: nat, persisted: bool) | ABuild(t: nat, buildEnv: BuildEnv) | ARegister(t: nat, h: nat)
    | ASave(h: nat) | ACleanup(h: nat) | AEmit(h: nat) | AMarkCanceling(h: nat)
    | ADecline(id: RunIdentity) | AReset(id: RunIdentity, known: bool)
    | AReload(visited: set<ConversationId>, readable: bool)
    | AWrite(writeEnv: WriteEnv) | ASaveWrite(saves: bool, rediscovered: Option<string>, readable: bool)
    | APrepareGrants(visited: set<ConversationId>, token: string, ttl: nat)
    | AConfirmGrants(visited: set<ConversationId>, token: string, persisted: bool)
    | ACancelToken(token: string)
    | AClose | ARetireFinal | AFinish

  function Step(s: State, a: Action): State {
    match a
    case ATick(now) => s.(now := now)
    case AEditFiles(files, discovered) => s.(config := s.config.(files := files, discovered := discovered))
    case ABind(root) => Bind(s, root)
    case AUnbind => Unbind(s)
    case AStatus(id, known, readable) => Status(s, id, known, readable)
    case AEnter(t, request) => Enter(s, t, request)
    case ALeave(t) => if t in s.admissions && s.admissions[t].phase.Entered? then Leave(s, t) else s
    case AAdmit(t, env) => Admit(s, t, env)
    case AGrant(t, persisted) => GrantTurn(s, t, persisted)
    case ABuild(t, env) => Build(s, t, env)
    case ARegister(t, h) => Register(s, t, h)
    case ASave(h) => SaveSession(s, h)
    case ACleanup(h) => Cleanup(s, h)
    case AEmit(h) => EmitTerminal(s, h)
    case AMarkCanceling(h) => MarkCanceling(s, h)
    case ADecline(id) => Decline(s, id)
    case AReset(id, known) => Reset(s, id, known)
    case AReload(visited, readable) => ReloadSettings(s, visited, readable)
    case AWrite(env) => WriteSettings(s, env)
    case ASaveWrite(saves, rediscovered, readable) => SaveWrite(s, saves, rediscovered, readable)
    case APrepareGrants(visited, token, ttl) => PrepareGrants(s, visited, token, ttl)
    case AConfirmGrants(visited, token, persisted) => ConfirmGrants(s, visited, token, persisted)
    case ACancelToken(token) => CancelToken(s, token)
    case AClose => Close(s)
    case ARetireFinal => RetireFinal(s)
    case AFinish => Finish(s)
  }

  /** The state after a whole run: any interleaving of any length. */
  function Reach(s: State, actions: seq<Action>): State {
    if actions == [] then s else Step(Reach(s, actions[..|actions| - 1]), actions[|actions| - 1])
  }
}
