/**
 The service of internal/ai/service.go as the object its critical sections update in place. Each method is one
 section, a loop one of them runs, or a whole call; it does what the transition system's step does, keeps the
 service's invariant, and tells its caller what its answer means.
 */
module ServiceRuntime {
  import opened Options
  import opened ServiceState
  import opened ServiceSteps
  import opened ServiceInvariant
  import opened ServiceLifecycle
  import opened ServiceAdmissions
  import opened ServiceTurns
  import opened ServiceWriters
  import opened ServiceSafety
  import opened ServiceConsent
  import opened ServiceProgress
  import opened ServiceDrain
  import opened ServiceOutcomes

  class Service {
    var now: int
    var stage: Stage
    var nextEpoch: nat
    var binding: Option<Binding>
    var config: Config
    var writer: Option<PendingWrite>
    var consent: Consent
    var convs: map<ConversationId, Conv>
    var admissions: map<nat, Admission>
    var runners: map<nat, Runner>
    var orphans: map<ConversationId, nat>
    var runs: map<nat, Run>
    var active: map<string, nat>
    var claims: map<string, RunIdentity>
    ghost var launched: map<string, nat>
    var resets: map<ConversationId, nat>
    ghost var saves: seq<SaveEvent>
    // The grants the store opened with.
    ghost const first: set<DestinationDigest>

    ghost predicate Valid()
      reads this
    {
      Lifecycle(Value()) && Consented(Value(), first)
    }

    ghost function Value(): State
      reads this
    {
      State(now, stage, nextEpoch, binding, config, writer, consent, convs, admissions, runners, orphans, runs, active, claims,
            launched, resets, saves)
    }

    constructor (files: map<string, Document>, discovered: Option<string>, open_: bool, granted: set<DestinationDigest>)
      ensures Valid() && first == granted
      ensures Init(Value()) && config.files == files && consent.open == open_ && consent.granted == granted
    {
      now, stage, nextEpoch, binding, writer := 0, Open, 0, None, None;
      config := Config(files, discovered, 0, None, []);
      consent := Consent(open_, granted, map[], map[], map[], [], []);
      convs, admissions, runners, orphans, runs := map[], map[], map[], map[], map[];
      active, claims, launched, resets, saves := map[], map[], map[], map[], [];
      first := granted;
      new;
      InitOk(Value());
      InitConsented(Value());
    }

    function GateFree(): (free: bool)
      reads this
      ensures free <==> Value().GateFree()
    {
      writer.None? && forall t :: t in admissions ==> admissions[t].phase.Entered?
    }

    function ConversationFor(c: ConversationId): (v: Conv)
      reads this
      ensures v == Value().Conversation(c)
    {
      if c in convs then convs[c] else FRESH_CONV
    }

    // ----- runners and retirement ---------------------------------------------------------------

    method CloseRunners(closing: set<nat>)
      modifies this`runners
      ensures runners == CloseAll(old(runners), closing)
    {
      var left := closing;
      while left != {}
        invariant left <= closing && runners.Keys == old(runners.Keys)
        invariant forall r :: r in runners ==>
                    runners[r] == if r in closing && r !in left then old(runners)[r].(closed := true) else old(runners)[r]
      {
        var r :| r in left;
        left := left - {r};
        if r in runners {
          runners := runners[r := runners[r].(closed := true)];
        }
      }
      assert runners == CloseAll(old(runners), closing);
    }

    // retireBinding: drops the incarnation's challenges, takes its idle runners, stale-marks its busy ones.
    method RetireBinding(epoch: nat) returns (idle: map<ConversationId, nat>)
      modifies this`convs
      ensures convs == RetireConvs(old(convs), epoch) && idle == IdleRunners(old(convs), epoch)
    {
      idle := map[];
      var left := convs.Keys;
      while left != {}
        invariant left <= convs.Keys == old(convs.Keys)
        invariant forall c :: c in convs ==> convs[c] == if c in left then old(convs)[c] else RetireConv(old(convs)[c], epoch)
        invariant forall c :: c in idle <==> c in convs && c !in left && c in IdleRunners(old(convs), epoch)
        invariant forall c :: c in idle ==> idle[c] == IdleRunners(old(convs), epoch)[c]
      {
        var c :| c in left;
        left := left - {c};
        var v := convs[c];
        if v.challenge.Some? && v.challenge.value.identity.repoEpoch == epoch {
          v := v.(challenge := None);
          if v.state == PendingConsent {
            v := v.(state := Idle);
          }
        }
        if v.runner.Some? && v.runnerEpoch == epoch {
          if v.active.None? {
            idle := idle[c := v.runner.value];
            v := v.(runner := None, stale := false);
          } else {
            v := v.(stale := true);
          }
        }
        convs := convs[c := v];
      }
    }

    // Retires the current incarnation and closes its idle runners once `next` is bound.
    method Retarget(next: Option<Binding>)
      requires binding.Some?
      modifies this`binding, this`convs, this`runners
      ensures Value() == RetireInto(old(Value()).(binding := next), old(binding).value.epoch)
    {
      hide CloseAll, RetireConvs, IdleRunners;
      var idle := RetireBinding(binding.value.epoch);
      binding := next;
      CloseRunners(idle.Values);
    }

    method BindRepository(root: string)
      requires Valid()
      modifies this
      ensures Value() == Bind(old(Value()), root)
      ensures Valid()
    {
      BindKeeps(Value(), root);
      SameConsented(Value(), Bind(Value(), root), first);
      hide Lifecycle, Consented, Rebound;
      if !GateFree() || stage != Open {
        return;
      }
      if binding.Some? && binding.value.root == root {
        return;
      }
      Rebind(root);
    }

    method Rebind(root: string)
      modifies this`nextEpoch, this`binding, this`convs, this`runners
      ensures Value() == Rebound(old(Value()), root)
    {
      hide RetireInto;
      nextEpoch := nextEpoch + 1;
      var next := Some(Binding(root, nextEpoch));
      if binding.Some? {
        Retarget(next);
      } else {
        binding := next;
      }
    }

    method UnbindRepository()
      requires Valid()
      modifies this
      ensures Value() == Unbind(old(Value()))
      ensures Valid()
    {
      UnbindKeeps(Value());
      SameConsented(Value(), Unbind(Value()), first);
      hide Lifecycle, Consented, RetireInto;
      if !GateFree() || stage != Open || binding.None? {
        return;
      }
      Retarget(None);
    }

    // ----- the snapshot and the idle barrier ----------------------------------------------------

    method BuildSnapshotLocked(readable: bool)
      modifies this`config
      ensures Value() == BuildSnapshot(old(Value()), readable)
    {
      var doc := if readable then config.File(config.discovered) else None;
      config := config.(epoch := config.epoch + 1);
      config := config.(snapshot := Some(Snapshot(config.epoch, if doc.Some? then doc.value.agent else None)));
    }

    method SnapshotOrBuildNow(readable: bool)
      modifies this`config
      ensures Value() == SnapshotOrBuild(old(Value()), readable)
    {
      if config.snapshot.None? {
        BuildSnapshotLocked(readable);
      }
    }

    // conversationsBusy: expires challenges record by record and stops at the first record that is not idle.
    method ConversationsBusy() returns (busy: bool, ghost visited: set<ConversationId>)
      modifies this`convs
      ensures (busy, Value()) == Scan(old(Value()), visited)
    {
      hide Expire;
      var left := convs.Keys;
      visited := {};
      while left != {}
        invariant left <= convs.Keys == old(convs.Keys) && visited == convs.Keys - left
        invariant forall c :: c in convs ==> convs[c] == if c in left then old(convs)[c] else Expire(old(convs)[c], now)
        invariant forall c :: c in visited ==> convs[c].state == Idle
      {
        var c :| c in left;
        left := left - {c};
        visited := visited + {c};
        convs := convs[c := Expire(convs[c], now)];
        if convs[c].state != Idle {
          assert convs == ExpireIn(old(convs), visited, now);
          return true, visited;
        }
      }
      ScannedAll(old(Value()), convs);
      return false, old(convs).Keys;
    }

    method DropCachedRunners() returns (closing: set<nat>)
      modifies this`convs
      ensures convs == (map c | c in old(convs) :: DropRunner(old(convs)[c])) && closing == CachedRunners(old(convs))
    {
      var left := convs.Keys;
      closing := {};
      while left != {}
        invariant left <= convs.Keys == old(convs.Keys)
        invariant forall c :: c in convs ==> convs[c] == if c in left then old(convs)[c] else DropRunner(old(convs)[c])
        invariant forall r :: r in closing <==> exists c :: c in old(convs) && c !in left && old(convs)[c].runner == Some(r)
      {
        var c :| c in left;
        left := left - {c};
        var rec := convs[c].runner;
        convs := convs[c := convs[c].(runner := None, stale := false)];
        if rec.Some? {
          closing := closing + {rec.value};
        }
      }
    }

    method RetireCachedRunners()
      modifies this`convs, this`runners
      ensures Value() == RetireCached(old(Value()))
    {
      hide CloseAll, CachedRunners, DropRunner;
      var closing := DropCachedRunners();
      CloseRunners(closing);
    }

    method ReloadSettingsNow(readable: bool) returns (ghost visited: set<ConversationId>)
      requires Valid()
      modifies this
      ensures Value() == ReloadSettings(old(Value()), visited, readable)
      ensures Valid()
    {
      ghost var s := Value();
      hide Lifecycle, Consented, Scan, BuildSnapshot, RetireCached, SnapshotOrBuild;
      visited := {};
      if GateFree() && stage == Open {
        var busy;
        busy, visited := ConversationsBusy();
        if busy {
          SnapshotOrBuildNow(readable);
        } else {
          BuildSnapshotLocked(readable);
          RetireCachedRunners();
        }
      }
      ReloadKeeps(s, visited, readable);
      SameConsented(s, ReloadSettings(s, visited, readable), first);
    }

    // ----- settings challenges ------------------------------------------------------------------

    // takeSettingsChallenge: the record is removed whether or not it is still valid.
    method TakeSettingsChallenge(token: string) returns (record: Option<SettingsChallenge>)
      modifies this`consent
      ensures (record, consent) == Take(old(consent), now, token)
    {
      if token !in consent.settings {
        return None;
      }
      var found := consent.settings[token];
      consent := consent.(settings := consent.settings - {token}, spent := consent.spent + [token]);
      record := if now > found.expiresAt then None else Some(found);
    }

    // installSettingsChallenge: expired records are pruned first.
    method InstallSettingsChallenge(token: string, record: SettingsChallenge)
      modifies this`consent
      ensures consent == Install(old(consent), now, token, record)
    {
      if token in consent.issuedSettings {
        return;
      }
      var kept: map<string, SettingsChallenge> := map[];
      var left := consent.settings.Keys;
      while left != {}
        invariant left <= consent.settings.Keys
        invariant forall x :: x in kept <==> x in consent.settings && x !in left && now <= consent.settings[x].expiresAt
        invariant forall x :: x in kept ==> kept[x] == consent.settings[x]
      {
        var x :| x in left;
        left := left - {x};
        if !(now > consent.settings[x].expiresAt) {
          kept := kept[x := consent.settings[x]];
        }
      }
      assert kept == map x | x in consent.settings && now <= consent.settings[x].expiresAt :: consent.settings[x];
      consent := consent.(settings := kept[token := record], issuedSettings := consent.issuedSettings[token := record]);
    }

    // newRemoteDestinations
    method NewRemoteDestinations(pre: seq<Destination>, post: seq<Destination>) returns (out: seq<Destination>)
      ensures out == NewRemote(consent, pre, post)
    {
      var prior := DigestsOf(pre);
      out := [];
      for i := 0 to |post|
        invariant out + NewRemote(consent, pre, post[i..]) == NewRemote(consent, pre, post)
      {
        hide Digests;
        var d := post[i];
        NewRemoteStep(consent, pre, post, i);
        if !d.remote || d.Digest() in prior || consent.Has(d.Digest()) {
          continue;
        }
        out := out + [d];
      }
    }

    method DigestsOf(ds: seq<Destination>) returns (digests: set<DestinationDigest>)
      ensures digests == Digests(ds)
    {
      digests := {};
      for i := 0 to |ds|
        invariant digests == Digests(ds[..i])
      {
        assert ds[..i + 1] == ds[..i] + [ds[i]];
        digests := digests + {ds[i].Digest()};
      }
      assert ds[..|ds|] == ds;
    }

    // ----- admission ----------------------------------------------------------------------------

    method LeaveNow(t: nat)
      modifies this`admissions
      ensures Value() == Leave(old(Value()), t)
    {
      admissions := admissions - {t};
    }

    // Step 1 of StartTurn: register the admission unless the service is closing.
    method EnterTurn(t: nat, request: TurnRequest) returns (entered: bool)
      requires Valid() && t !in admissions
      modifies this`admissions
      ensures Value() == Enter(old(Value()), t, request)
      ensures Valid()
      ensures entered <==> stage == Open
    {
      EnterKeeps(Value(), t, request);
      SameConsented(Value(), Enter(Value(), t, request), first);
      hide Lifecycle, Consented;
      entered := stage == Open;
      if entered {
        admissions := admissions[t := Admission(request, Entered)];
      }
    }

    /** Steps 5 and 6 of StartTurn, with what the answer means: nothing done, one question asked, or a conversation held. */
    method AdmitTurn(t: nat, env: AdmitEnv) returns (o: Admitting)
      requires Valid()
      modifies this
      ensures Value() == Admit(old(Value()), t, env)
      ensures Valid()
      ensures Tells(old(Value()), Value(), t, o)
      ensures Unblocked(old(Value()), t) ==> !o.Blocked?
    {
      ghost var s := Value();
      hide Lifecycle, Consented, Admit, Shows, Tells, Unblocked;
      o := AdmitSection(t, env);
      AdmitKeeps(s, t, env);
      AdmitConsented(s, t, env, first);
      AdmitTells(s, t, env, o);
    }

    // admit from the gate to its commit; a blocked admission changes nothing.
    method AdmitSection(t: nat, env: AdmitEnv) returns (o: Admitting)
      modifies this
      ensures Value() == Admit(old(Value()), t, env)
      ensures !o.Blocked? ==> t in old(admissions) && old(admissions)[t].phase.Entered?
      ensures t in old(admissions) ==> Shows(old(Value()), Value(), t, old(admissions)[t].request.identity.conversation, o)
      ensures o.Blocked? ==> Value() == old(Value())
      ensures Unblocked(old(Value()), t) ==> !o.Blocked?
    {
      hide Expire, SnapshotOrBuild, AdmitTarget;
      if t !in admissions || !admissions[t].phase.Entered? || writer.Some? {
        return Blocked;
      }
      var id := admissions[t].request.identity;
      if !(env.known && binding.Some? && id.repoEpoch != 0 && id.repoEpoch == binding.value.epoch
           && id.conversation == ConversationId(binding.value.root, id.workspaceId)) {
        LeaveNow(t);
        return Refused;
      }
      var v := ConversationFor(id.conversation);
      if v.holder.Some? {
        return Blocked;
      }
      convs := convs[id.conversation := Expire(v, now)];
      SnapshotOrBuildNow(env.readable);
      o := ResolveTarget(t, env);
    }

    method ResolveTarget(t: nat, env: AdmitEnv) returns (o: Admitting)
      requires t in admissions && admissions[t].request.identity.conversation in convs && config.snapshot.Some?
      modifies this
      ensures Value() == AdmitTarget(old(Value()), t, env) && !o.Blocked?
      ensures Shows(old(Value()), Value(), t, old(admissions)[t].request.identity.conversation, o)
    {
      hide AdmitCommit;
      var target := config.snapshot.value.target;
      if target.None? || !env.usable {
        LeaveNow(t);
        return Refused;
      }
      o := Commit(t, env, target.value);
    }

    method Commit(t: nat, env: AdmitEnv, target: Target) returns (o: Admitting)
      requires t in admissions && admissions[t].request.identity.conversation in convs && config.snapshot.Some?
      modifies this
      ensures Value() == AdmitCommit(old(Value()), t, env, target) && !o.Blocked?
      ensures Shows(old(Value()), Value(), t, old(admissions)[t].request.identity.conversation, o)
    {
      hide CommitConsentRetry, CommitChallenge, CommitStarting;
      var request := admissions[t].request;
      var id := request.identity;
      o := Refused;
      match convs[id.conversation].state {
        case Running =>
          LeaveNow(t);
        case Canceling =>
          LeaveNow(t);
        case Starting =>
          LeaveNow(t);
        case PendingConsent =>
          o := RetryConsent(t, request, target);
        case Idle =>
          if request.challengeId.Some? {
            LeaveNow(t);
          } else if target.destination.remote && !consent.Has(target.destination.Digest()) {
            o := CommitChallengeNow(t, id, target.destination, env);
          } else {
            o := Start(t, id, target);
          }
      }
    }

    method HoldNow(t: nat, c: ConversationId, phase: Phase)
      requires t in admissions && c in convs
      modifies this`convs, this`admissions
      ensures Value() == Hold(old(Value()), t, c, phase)
    {
      convs := convs[c := convs[c].(state := Starting, holder := Some(t))];
      admissions := admissions[t := admissions[t].(phase := phase)];
    }

    // commitConsentRetry
    method RetryConsent(t: nat, request: TurnRequest, target: Target) returns (o: Admitting)
      requires t in admissions && request.identity.conversation in convs && config.snapshot.Some?
      modifies this
      ensures Value() == CommitConsentRetry(old(Value()), t, request, target) && !o.Blocked?
      ensures Shows(old(Value()), Value(), t, request.identity.conversation, o)
    {
      var id := request.identity;
      var ch := convs[id.conversation].challenge;
      o := Refused;
      if ch.None? || request.challengeId != Some(ch.value.id) || ch.value.identity != id {
        LeaveNow(t);
      } else if ch.value.destination != target.destination {
        LeaveNow(t);
      } else if stage != Open || id.runId !in claims || claims[id.runId] != id {
        LeaveNow(t);
      } else {
        HoldNow(t, id.conversation, Granting(target, config.snapshot.value.epoch, now));
        o := Held;
      }
    }

    // commitChallenge
    method CommitChallengeNow(t: nat, id: RunIdentity, destination: Destination, env: AdmitEnv) returns (o: Admitting)
      requires id.conversation in convs
      modifies this`claims, this`consent, this`convs, this`admissions
      ensures Value() == CommitChallenge(old(Value()), t, id, destination, env) && !o.Blocked?
      ensures Shows(old(Value()), Value(), t, id.conversation, o)
    {
      ghost var s := Value();
      hide CommitChallenge, Issued, Shows;
      if stage != Open || id.runId in claims || env.challengeId in consent.issued {
        LeaveNow(t);
        o := Refused;
      } else {
        var ch := Challenge(env.challengeId, id, destination, now + env.ttl);
        Issue(t, id, ch);
        o := Asked(ch);
      }
      IssueIs(s, t, id, destination, env, o);
    }

    method Issue(t: nat, id: RunIdentity, ch: Challenge)
      requires id.conversation in convs
      modifies this`claims, this`consent, this`convs, this`admissions
      ensures Value() == Put(old(Value()), t, id, ch)
    {
      hide Issued;
      var v := convs[id.conversation].(state := PendingConsent, challenge := Some(ch));
      Claim(id);
      PublishChallenge(ch);
      ReleaseTo(t, id.conversation, v);
    }

    method Claim(id: RunIdentity)
      modifies this`claims
      ensures Value() == old(Value()).(claims := old(claims)[id.runId := id])
    {
      claims := claims[id.runId := id];
    }

    method PublishChallenge(ch: Challenge)
      modifies this`consent
      ensures Value() == old(Value()).(consent := Issued(old(consent), ch))
    {
      consent := consent.(issued := consent.issued[ch.id := ch]);
    }

    // commitStarting
    method Start(t: nat, id: RunIdentity, target: Target) returns (o: Admitting)
      requires t in admissions && id.conversation in convs && config.snapshot.Some?
      modifies this
      ensures Value() == CommitStarting(old(Value()), t, id, target) && !o.Blocked?
      ensures Shows(old(Value()), Value(), t, id.conversation, o)
    {
      if stage != Open || id.runId in claims {
        LeaveNow(t);
        return Refused;
      }
      claims := claims[id.runId := id];
      HoldNow(t, id.conversation, Building(target, config.snapshot.value.epoch));
      o := Held;
    }

    method RecordGrants(authority: Authority, destinations: seq<Destination>, checkedAt: int)
      modifies this`consent
      ensures Value() == old(Value()).(consent := Granted(old(consent), authority, destinations, checkedAt))
    {
      var digests := DigestsOf(destinations);
      hide Digests;
      consent := consent.(granted := consent.granted + digests, grants := consent.grants + [GrantEvent(authority, destinations, checkedAt)]);
    }

    /** The durable grant of a consent retry: its destination is granted and the question consumed, or everything is as before. */
    method GrantConsented(t: nat, persisted: bool) returns (ok: bool)
      requires Valid()
      modifies this
      ensures Value() == GrantTurn(old(Value()), t, persisted)
      ensures Valid()
      ensures if Holds(old(Value()), t) && old(admissions)[t].phase.Granting?
              then (if ok then Commits(old(Value()), Value(), t) else Retains(old(Value()), Value(), t))
              else !ok && Value() == old(Value())
    {
      ghost var s := Value();
      hide Lifecycle, Consented, Commits, Retains, GrantTurn;
      ok := GrantSection(t, persisted);
      GrantTurnKeeps(s, t, persisted);
      GrantTurnConsented(s, t, persisted, first);
      if Holds(s, t) && s.admissions[t].phase.Granting? {
        GrantMeans(s, t, persisted);
        GrantShows(s, Value(), t, ok);
      }
    }

    method GrantSection(t: nat, persisted: bool) returns (ok: bool)
      modifies this
      ensures Value() == GrantTurn(old(Value()), t, persisted)
      ensures if Holds(old(Value()), t) && old(admissions)[t].phase.Granting? then ok <==> t in admissions
              else !ok && Value() == old(Value())
    {
      hide Granted;
      if t !in admissions || admissions[t].request.identity.conversation !in convs || !admissions[t].phase.Granting? {
        return false;
      }
      var a := admissions[t];
      var c := a.request.identity.conversation;
      var v := convs[c];
      ok := consent.open && persisted && a.phase.target.destination.remote && v.challenge.Some?;
      if !ok {
        ReleaseTo(t, c, v.(state := PendingConsent, holder := None));
      } else {
        RecordGrants(TurnConsent(v.challenge.value), [a.phase.target.destination], a.phase.checkedAt);
        convs := convs[c := v.(challenge := None)];
        admissions := admissions[t := a.(phase := Building(a.phase.target, a.phase.configEpoch))];
      }
    }

    /** Step 7 of admit: a live runner for the admitted target, or the admission over with its conversation idle. */
    method BuildRunner(t: nat, env: BuildEnv) returns (ok: bool)
      requires Valid()
      modifies this
      ensures Value() == Build(old(Value()), t, env)
      ensures Valid()
      ensures if Holds(old(Value()), t) && old(admissions)[t].phase.Building?
              then (if ok then Ready(old(Value()), Value(), t) && Fits(Value(), t) else Ends(old(Value()), Value(), t))
              else !ok && Value() == old(Value())
    {
      ghost var s := Value();
      hide Lifecycle, Consented, Ready, Ends, Fits, Build;
      ok := BuildSection(t, env);
      BuildKeeps(s, t, env);
      SameConsented(s, Build(s, t, env), first);
      if Holds(s, t) && s.admissions[t].phase.Building? {
        BuildMeans(s, t, env);
        BuildShows(s, Value(), t, ok);
      }
    }

    method BuildSection(t: nat, env: BuildEnv) returns (ok: bool)
      modifies this
      ensures Value() == Build(old(Value()), t, env)
      ensures if Holds(old(Value()), t) && old(admissions)[t].phase.Building? then ok <==> t in admissions
              else !ok && Value() == old(Value())
    {
      hide CloseAll, Construct;
      if t !in admissions || admissions[t].request.identity.conversation !in convs || !admissions[t].phase.Building? {
        return false;
      }
      var a := admissions[t];
      var v := convs[a.request.identity.conversation];
      if v.runner.Some? && (env.rootChanged || v.runnerEpoch != a.request.identity.repoEpoch
                            || v.runnerConfigEpoch != a.phase.configEpoch || v.stale) {
        CloseRunners({v.runner.value});
        ok := ConstructRunner(t, DropRunner(v), env);
      } else if v.runner.None? {
        ok := ConstructRunner(t, v, env);
      } else {
        admissions := admissions[t := a.(phase := Built(a.phase.target, a.phase.configEpoch, v.runner.value, false))];
        ok := true;
      }
    }

    method ConstructRunner(t: nat, v: Conv, env: BuildEnv) returns (ok: bool)
      requires Holds(Value(), t) && admissions[t].phase.Building?
      modifies this`runners, this`convs, this`admissions
      ensures Value() == Construct(old(Value()), t, v, env)
      ensures ok <==> t in admissions
    {
      var a := admissions[t];
      var c := a.request.identity.conversation;
      if !env.constructs || env.runner in runners {
        ReleaseTo(t, c, v.(state := Idle, holder := None));
        return false;
      }
      runners := runners[env.runner := Runner(c, a.phase.target, !env.rootStable)];
      if !env.rootStable {
        ReleaseTo(t, c, v.(state := Idle, holder := None));
        return false;
      }
      convs := convs[c := v];
      admissions := admissions[t := a.(phase := Built(a.phase.target, a.phase.configEpoch, env.runner, true))];
      ok := true;
    }

    /** Steps 8 to 10 of admit: launched while the service is open, otherwise over with its conversation idle. */
    method RegisterTurn(t: nat, h: nat) returns (launched: bool)
      requires Valid()
      modifies this
      ensures Value() == Register(old(Value()), t, h)
      ensures Valid()
      ensures if Holds(old(Value()), t) && old(admissions)[t].phase.Built? && h !in old(runs)
              then (if launched then Launches(old(Value()), Value(), t, h) else stage != Open && Ends(old(Value()), Value(), t))
              else !launched && Value() == old(Value())
    {
      ghost var s := Value();
      if Holds(s, t) && admissions[t].phase.Built? && h !in runs { RegisterMeans(s, t, h); }
      RegisterKeeps(s, t, h);
      SameConsented(s, Register(s, t, h), first);
      hide Lifecycle, Consented, Launches, Ends, RolledBack, Registered;
      launched := false;
      if t !in admissions || admissions[t].phase.Entered? || admissions[t].request.identity.conversation !in convs {
        return;
      }
      if !admissions[t].phase.Built? || h in runs {
        return;
      }
      if stage != Open {
        RollBack(t);
      } else {
        Launch(t, h);
        launched := true;
      }
    }

    // The deferred rollback: a newly constructed runner is closed, a cached one kept.
    method RollBack(t: nat)
      requires Holds(Value(), t) && admissions[t].phase.Built?
      modifies this`runners, this`convs, this`admissions
      ensures Value() == RolledBack(old(Value()), t)
    {
      hide CloseAll;
      var a := admissions[t];
      var c := a.request.identity.conversation;
      if a.phase.constructed {
        CloseRunners({a.phase.runner});
      }
      ReleaseTo(t, c, convs[c].(state := Idle, holder := None));
    }

    method Launch(t: nat, h: nat)
      requires Holds(Value(), t) && admissions[t].phase.Built?
      modifies this`runs, this`active, this`launched, this`convs, this`admissions
      ensures Value() == Registered(old(Value()), t, h)
    {
      var a := admissions[t];
      var id := a.request.identity;
      var count := if id.conversation in resets then resets[id.conversation] else 0;
      var run := Run(id, a.phase.runner, false, Executing, a.phase.target.destination,
                     consent.Has(a.phase.target.destination.Digest()), count);
      var v := convs[id.conversation].(
        state := Running, active := Some(h), runner := Some(a.phase.runner),
        runnerEpoch := id.repoEpoch, runnerConfigEpoch := a.phase.configEpoch, holder := None);
      IndexRun(h, run);
      ReleaseTo(t, id.conversation, v);
    }

    method IndexRun(h: nat, run: Run)
      modifies this`runs, this`active, this`launched
      ensures Value() == old(Value()).(runs := old(runs)[h := run], active := old(active)[run.identity.runId := h],
                                       launched := old(launched)[run.identity.runId := h])
    {
      runs, active := runs[h := run], active[run.identity.runId := h];
      launched := launched[run.identity.runId := h];
    }

    // The admission ends, leaving its conversation as given.
    method ReleaseTo(t: nat, c: ConversationId, v: Conv)
      modifies this`convs, this`admissions
      ensures Value() == old(Value()).(convs := old(convs)[c := v],
                                       admissions := old(admissions) - {t})
    {
      convs, admissions := convs[c := v], admissions - {t};
    }

    /**
     A whole StartTurn that found its locks free. Accepted: a live runner executes exactly this request on the allowed
     destination the snapshot selects. Asked: one question is stored and nothing else. Rejected: nothing happened, or a
     commit was undone, which leaves its run ID used. Only the destination the request was asked about can be granted.
     */
    method StartTurn(t: nat, request: TurnRequest, env: AdmitEnv, persisted: bool, build: BuildEnv, h: nat)
      returns (answer: TurnAnswer)
      requires Valid() && t !in admissions && h !in runs
      requires writer.None? && ConversationFor(request.identity.conversation).holder.None?
      modifies this
      ensures Valid() && admissions == old(admissions)
      ensures match answer
              case Accepted => Accepts(old(Value()), Value(), request, h)
              case NeedsConsent(ch) => Asks(old(Value()), Value(), request, ch)
              case Rejected(committed) =>
                if committed then RollsBack(old(Value()), Value(), request) else Refuses(old(Value()), Value())
    {
      ghost var s := Value();
      if stage == Open { EntersUnblocked(s, t, request); } else { ClosedRefuses(s, t, request); }
      hide *;
      var entered := EnterTurn(t, request);
      if !entered {
        return Rejected(false);
      }
      var o := AdmitTurn(t, env);
      ghost var a := Value();
      EnteredTells(s, a, t, request, o);
      match o {
        case Blocked =>
          assert false;
        case Refused =>
          return Rejected(false);
        case Asked(ch) =>
          return NeedsConsent(ch);
        case Held =>
          answer := Proceed(s, t, request, persisted, build, h);
      }
    }

    // Steps 6 to 10 of a call that holds its conversation.
    method Proceed(ghost s: State, t: nat, request: TurnRequest, persisted: bool, build: BuildEnv, h: nat) returns (answer: TurnAnswer)
      requires Valid() && h !in s.runs && Going(s, Value(), t, request) && Answering(s, Value(), t, request)
      modifies this
      ensures Valid() && admissions == s.admissions && !answer.NeedsConsent?
      ensures answer.Accepted? ==> Accepts(s, Value(), request, h)
      ensures answer.Rejected? ==> answer.committed && RollsBack(s, Value(), request)
    {
      ghost var a := Value();
      AnsweringIs(s, a, t, request);
      hide *;
      if admissions[t].phase.Granting? {
        var granted := GrantConsented(t, persisted);
        GrantProceeds(s, a, Value(), t, request, granted);
        if !granted {
          return Rejected(true);
        }
      }
      answer := BuildAndLaunch(s, t, request, build, h);
    }

    // Steps 7 to 10.
    method BuildAndLaunch(ghost s: State, t: nat, request: TurnRequest, build: BuildEnv, h: nat) returns (answer: TurnAnswer)
      requires Valid() && h !in s.runs && Going(s, Value(), t, request) && t in admissions && admissions[t].phase.Building?
      modifies this
      ensures Valid() && admissions == s.admissions && !answer.NeedsConsent?
      ensures answer.Accepted? ==> Accepts(s, Value(), request, h)
      ensures answer.Rejected? ==> answer.committed && RollsBack(s, Value(), request)
    {
      ghost var g := Value();
      GoingIs(s, g, t, request);
      var built := BuildRunner(t, build);
      ghost var b := Value();
      hide *;
      BuildProceeds(s, g, b, t, request, built);
      if !built {
        return Rejected(true);
      }
      var launched := RegisterTurn(t, h);
      RegisterProceeds(s, b, Value(), t, h, request, launched);
      answer := if launched then Accepted else Rejected(true);
    }

    // ----- running turns ------------------------------------------------------------------------

    /** runTurn once Run has returned: the conversation is free and the run ID out of the index before anything is emitted. */
    method TerminalCleanup(h: nat)
      requires Valid()
      modifies this
      ensures Value() == Cleanup(old(Value()), h)
      ensures Valid()
      ensures h in old(runs) && old(runs)[h].phase.Executing? ==> Vacates(old(Value()), Value(), h)
    {
      ghost var s := Value();
      hide Lifecycle, Consented, Cleanup, Vacates;
      CleanupSection(h);
      CleanupKeeps(s, h);
      SameConsented(s, Cleanup(s, h), first);
      if h in s.runs && s.runs[h].phase.Executing? { CleanupMeans(s, h); }
    }

    method CleanupSection(h: nat)
      modifies this
      ensures Value() == Cleanup(old(Value()), h)
    {
      hide CloseAll;
      if h !in runs || !runs[h].phase.Executing? {
        return;
      }
      var run := runs[h];
      var v := ConversationFor(run.identity.conversation);
      if v.holder.Some? {
        return;
      }
      if v.stale && v.runner == Some(run.runner) {
        CloseRunners({run.runner});
        v := v.(runner := None, stale := false);
      }
      if v.active == Some(h) {
        v := v.(active := None, state := Idle);
      }
      ReleaseRun(h, v);
    }

    method ReleaseRun(h: nat, v: Conv)
      requires h in runs
      modifies this`convs, this`active, this`runs
      ensures var run := old(runs)[h];
              && convs == old(convs)[run.identity.conversation := v] && runs == old(runs)[h := run.(phase := Emitting)]
              && active == Unindexed(old(active), run.identity.runId, h)
    {
      var run := runs[h];
      convs := convs[run.identity.conversation := v];
      if run.identity.runId in active && active[run.identity.runId] == h {
        active := active - {run.identity.runId};
      }
      runs := runs[h := run.(phase := Emitting)];
    }

    /**
     Cancel with the conversation's mutex free: marks exactly the run indexed under this identity, or withdraws exactly the
     question asked under it, or changes nothing.
     */
    method Cancel(id: RunIdentity) returns (found: bool)
      requires Valid() && ConversationFor(id.conversation).holder.None?
      modifies this
      ensures Valid()
      ensures if found then Cancels(old(Value()), Value(), id) || Withdraws(old(Value()), Value(), id) else Value() == old(Value())
      ensures !found ==> !Cancelable(old(Value()), id)
    {
      ghost var s := Value();
      CancelCases(s, id);
      hide *;
      if id.runId in active {
        var h := active[id.runId];
        if runs[h].identity != id {
          return false;
        }
        CancelRun(h);
        return true;
      }
      found := DeclineConsent(id);
    }

    // Cancel of a registered run.
    method CancelRun(h: nat)
      requires Valid()
      modifies this
      ensures Value() == MarkCanceling(old(Value()), h)
      ensures Valid()
    {
      ghost var s := Value();
      hide Lifecycle, Consented, MarkCanceling;
      CancelSection(h);
      MarkCancelingKeeps(s, h);
      SameConsented(s, MarkCanceling(s, h), first);
    }

    method CancelSection(h: nat)
      modifies this
      ensures Value() == MarkCanceling(old(Value()), h)
    {
      if h !in runs {
        return;
      }
      var run := runs[h];
      var c := run.identity.conversation;
      var v := ConversationFor(c);
      if v.holder.Some? {
        return;
      }
      if v.active == Some(h) && v.state == Running {
        v := v.(state := Canceling);
      }
      convs := convs[c := v];
      if run.identity.runId in active && active[run.identity.runId] == h {
        runs := runs[h := run.(canceling := true)];
      }
    }

    // Cancel of a pending consent: only the exactly matching challenge is consumed.
    method DeclineConsent(id: RunIdentity) returns (declined: bool)
      requires Valid()
      modifies this`convs
      ensures Value() == Decline(old(Value()), id)
      ensures Valid()
      ensures if declined then Withdraws(old(Value()), Value(), id) else Value() == old(Value())
      ensures !declined && id.runId !in active && ConversationFor(id.conversation).holder.None? ==> !Questioned(old(Value()), id)
    {
      ghost var s := Value();
      hide Lifecycle, Consented, Decline, Withdraws;
      declined := DeclineSection(id);
      DeclineKeeps(s, id);
      SameConsented(s, Decline(s, id), first);
      if declined { DeclineMeans(s, id); }
    }

    method DeclineSection(id: RunIdentity) returns (declined: bool)
      modifies this`convs
      ensures Value() == Decline(old(Value()), id)
      ensures declined <==> id.runId !in active && Questioned(old(Value()), id) && old(Value()).Conversation(id.conversation).holder.None?
      ensures !declined ==> Value() == old(Value())
    {
      var c := id.conversation;
      declined := false;
      if id.runId in active || c !in convs || convs[c].holder.Some? {
        return;
      }
      var v := convs[c];
      if v.state == PendingConsent && v.challenge.Some? && v.challenge.value.identity == id {
        convs := convs[c := v.(challenge := None, state := Idle)];
        declined := true;
      }
    }

    /** New chat: accepted only on an idle conversation, whose reset count moves on by one; a refusal counts nothing. */
    method ResetConversation(id: RunIdentity, known: bool) returns (ok: bool)
      requires Valid()
      modifies this`convs, this`resets
      ensures Value() == Reset(old(Value()), id, known)
      ensures Valid()
      ensures if ok then ServiceOutcomes.Resets(old(Value()), Value(), id.conversation) else resets == old(resets)
    {
      ghost var s := Value();
      ResetKeeps(s, id, known);
      SameConsented(s, Reset(s, id, known), first);
      hide Lifecycle, Consented, ServiceOutcomes.Resets;
      ok := ResetSection(id, known);
      if ok {
          ResetMeans(s, id, known);
      }
    }

    method ResetSection(id: RunIdentity, known: bool) returns (ok: bool)
      modifies this`convs, this`resets
      ensures Value() == Reset(old(Value()), id, known)
      ensures ok <==> resets != old(resets)
    {
      hide Expire;
      var c := id.conversation;
      ok := false;
      if writer.Some? || stage != Open || !(known && binding.Some? && id.repoEpoch != 0 && id.repoEpoch == binding.value.epoch
                                            && c == ConversationId(binding.value.root, id.workspaceId)) {
        return;
      }
      var v := ConversationFor(c);
      if v.holder.Some? {
        return;
      }
      convs := convs[c := Expire(v, now)];
      if convs[c].state == Idle {
        var count := if c in resets then resets[c] else 0;
        resets := resets[c := count + 1];
        assert resets[c] == count + 1;
        ok := true;
      }
    }

    // ----- settings writes and grants -----------------------------------------------------------

    /**
     writeSettings up to the save: what the barrier allows is decided on the records and tokens then found. A write to save
     is the one asked for and reaches nothing remote that its predecessor did not reach or the user granted; without a
     write to save nothing is granted.
     */
    method WriteSettingsNow(env: WriteEnv) returns (ghost visited: set<ConversationId>)
      requires Valid()
      modifies this`convs, this`writer, this`consent
      ensures Value() == WriteSettings(old(Value()), env.(visited := visited))
      ensures Valid()
      ensures writer.Some? ==> Covered(consent, Reachable(writer.value.prior), writer.value.next.reachable, [])
      ensures old(writer).None? && writer.Some? ==> writer.value.next == env.next
      ensures writer.None? ==> consent.granted == old(consent).granted
    {
      ghost var s := Value();
      visited := WriteSection(env);
      WriteKeeps(s, env.(visited := visited));
      WriteConsented(s, env.(visited := visited), first);
      WriteMeans(s, env.(visited := visited), first);
      hide Lifecycle, Consented, WriteSettings, Covered;
    }

    method WriteSection(env: WriteEnv) returns (ghost visited: set<ConversationId>)
      modifies this`convs, this`writer, this`consent
      ensures Value() == WriteSettings(old(Value()), env.(visited := visited))
    {
      hide Scan, Prepare;
      visited := {};
      if !GateFree() || stage != Open {
        return;
      }
      var busy;
      busy, visited := ConversationsBusy();
      if busy {
        return;
      }
      PrepareNow(env);
      PrepareUnvisited(old(Value()), env, visited);
    }

    method PrepareNow(env: WriteEnv)
      requires writer.None?
      modifies this`writer, this`consent
      ensures Value() == old(Value()).(writer := Prepare(old(Value()), env).0, consent := Prepare(old(Value()), env).1)
    {
      hide PrepareWrite, Take;
      if env.token.None? {
        if env.mode != GrantOnly {
          PrepareTarget(env, env.mode, None);
        }
        return;
      }
      var record := TakeSettingsChallenge(env.token.value);
      if record.None? || record.value.mode == GrantOnly {
        return;
      }
      PrepareTarget(env, record.value.mode, record);
    }

    // The target to write and the documents before and after.
    method PrepareTarget(env: WriteEnv, mode: Mode, record: Option<SettingsChallenge>)
      requires writer.None? && mode != GrantOnly
      modifies this`writer, this`consent
      ensures Value() == old(Value()).(writer := PrepareWrite(old(config), old(consent), now, env, mode, record).0,
                                       consent := PrepareWrite(old(config), old(consent), now, env, mode, record).1)
    {
      hide ServiceSteps.Decide;
      if !env.accepted || (mode == ApplyCreate && config.discovered.Some?) || (mode != ApplyCreate && config.discovered.None?) {
        return;
      }
      var path, prior := env.createPath, None;
      if mode == ApplyExisting {
        path, prior := config.discovered.value, config.File(config.discovered);
        if prior.None? {
          return;
        }
      }
      Decide(env, WriteDigest(env.request, mode, path, Reachable(prior), env.next.reachable), prior, record);
    }

    // The consent decision: save, ask, or neither.
    method Decide(env: WriteEnv, digest: WriteDigest, prior: Option<Document>, record: Option<SettingsChallenge>)
      requires writer.None?
      modifies this`writer, this`consent
      ensures Value() == old(Value()).(writer := ServiceSteps.Decide(old(consent), now, env, digest, prior, record).0,
                                       consent := ServiceSteps.Decide(old(consent), now, env, digest, prior, record).1)
    {
      hide NewRemote, Install, Granted;
      var write := PendingWrite(digest.mode, digest.path, prior, env.next);
      if record.None? {
        var missing := NewRemoteDestinations(digest.pre, digest.post);
        if missing == [] {
          writer := Some(write);
        } else {
          InstallSettingsChallenge(env.newToken, SettingsChallenge(now + env.ttl, digest.mode, digest.path, Some(digest), missing, None));
        }
        return;
      }
      if record.value.path != digest.path || record.value.digest != Some(digest) {
        return;
      }
      if record.value.grants != [] {
        if !consent.open || !env.persisted {
          return;
        }
        RecordGrants(WriteConsent(env.token.GetOr("")), record.value.grants, now);
      }
      writer := Some(write);
    }

    /**
     publishSettingsWrite: save against the revision read, publish, retire the cached runners. Published, the file is the
     document that was prepared and no conversation keeps a runner of the one before; otherwise only the write is dropped.
     */
    method PublishSettingsWrite(saves: bool, rediscovered: Option<string>, readable: bool) returns (published: bool)
      requires Valid()
      modifies this`writer, this`config, this`convs, this`runners
      ensures Value() == SaveWrite(old(Value()), saves, rediscovered, readable)
      ensures Valid()
      ensures published ==>
                && old(writer).Some? && config.File(Some(old(writer).value.path)) == Some(old(writer).value.next)
                && forall c :: c in convs ==> convs[c].runner.None?
      ensures !published ==> Value() == old(Value()).(writer := None)
    {
      ghost var s := Value();
      hide Lifecycle, Consented, SaveWrite;
      published := SaveSection(saves, rediscovered, readable);
      SaveWriteKeeps(s, saves, rediscovered, readable);
      SaveWriteConsented(s, saves, rediscovered, readable, first);
      if published { PublishedMeans(s, saves, rediscovered, readable); }
    }

    method SaveSection(saves: bool, rediscovered: Option<string>, readable: bool) returns (published: bool)
      modifies this`writer, this`config, this`convs, this`runners
      ensures Value() == SaveWrite(old(Value()), saves, rediscovered, readable)
      ensures published ==> old(writer).Some? && saves && old(config).File(Some(old(writer).value.path)) == old(writer).value.prior
      ensures !published ==> Value() == old(Value()).(writer := None)
    {
      hide BuildSnapshot, RetireCached, Published;
      published := false;
      if writer.None? {
        return;
      }
      var w := writer.value;
      writer := None;
      if !saves || config.File(Some(w.path)) != w.prior {
        return;
      }
      published := true;
      Publish(w, rediscovered);
      BuildSnapshotLocked(readable);
      RetireCachedRunners();
    }

    method Publish(w: PendingWrite, rediscovered: Option<string>)
      modifies this`config
      ensures Value() == old(Value()).(config := Published(old(config), w, rediscovered))
    {
      var replaced := config.File(Some(w.path));
      config := config.(files := config.files[w.path := w.next]);
      config := config.(discovered := rediscovered, publications := config.publications + [Publication(w.path, replaced, w.next)]);
    }

    // CancelSettingsApply: whatever the token was for, nothing can be authorised by it any more.
    method CancelSettingsApply(token: string)
      requires Valid()
      modifies this`consent
      ensures Value() == CancelToken(old(Value()), token)
      ensures Valid()
      ensures token !in consent.settings && consent.granted == old(consent).granted
    {
      CancelTokenKeeps(Value(), token);
      CancelTokenConsented(Value(), token, first);
      hide Lifecycle, Consented;
      var _ := TakeSettingsChallenge(token);
    }

    // PrepareDestinationGrants
    method PrepareDestinationGrants(token: string, ttl: nat) returns (ghost visited: set<ConversationId>)
      requires Valid()
      modifies this`convs, this`consent
      ensures Value() == PrepareGrants(old(Value()), visited, token, ttl)
      ensures Valid()
    {
      ghost var s := Value();
      visited := PrepareGrantsSection(token, ttl);
      PrepareGrantsKeeps(s, visited, token, ttl);
      PrepareGrantsConsented(s, visited, token, ttl, first);
      hide Lifecycle, Consented, PrepareGrants;
    }

    method PrepareGrantsSection(token: string, ttl: nat) returns (ghost visited: set<ConversationId>)
      modifies this`convs, this`consent
      ensures Value() == PrepareGrants(old(Value()), visited, token, ttl)
    {
      hide Scan, Install, NewRemote;
      visited := {};
      if !GateFree() || stage != Open {
        return;
      }
      var busy;
      busy, visited := ConversationsBusy();
      var doc := config.File(config.discovered);
      if busy || !consent.open || doc.None? {
        return;
      }
      var grants := NewRemoteDestinations([], doc.value.reachable);
      if grants != [] {
        InstallSettingsChallenge(token, SettingsChallenge(now + ttl, GrantOnly, config.discovered.value, None, grants, doc));
      }
    }

    // ConfirmDestinationGrants: the token is spent whatever follows.
    method ConfirmDestinationGrants(token: string, persisted: bool) returns (ghost visited: set<ConversationId>)
      requires Valid()
      modifies this`convs, this`consent
      ensures Value() == ConfirmGrants(old(Value()), visited, token, persisted)
      ensures Valid()
    {
      ghost var s := Value();
      visited := ConfirmGrantsSection(token, persisted);
      ConfirmGrantsKeeps(s, visited, token, persisted);
      ConfirmGrantsConsented(s, visited, token, persisted, first);
      hide Lifecycle, Consented, ConfirmGrants;
    }

    method ConfirmGrantsSection(token: string, persisted: bool) returns (ghost visited: set<ConversationId>)
      modifies this`convs, this`consent
      ensures Value() == ConfirmGrants(old(Value()), visited, token, persisted)
    {
      hide Scan, Take, Granted;
      visited := {};
      if !GateFree() || stage != Open {
        return;
      }
      var busy;
      busy, visited := ConversationsBusy();
      if busy {
        return;
      }
      var record := TakeSettingsChallenge(token);
      if record.None? || record.value.mode != GrantOnly {
        return;
      }
      if config.discovered != Some(record.value.path) || config.File(config.discovered) != record.value.revision {
        return;
      }
      if !consent.open || !persisted {
        return;
      }
      RecordGrants(GrantConsent(token), record.value.grants, now);
    }

    // ----- shutdown -----------------------------------------------------------------------------

    method MarkClosing()
      requires Valid()
      modifies this`stage
      ensures Value() == Close(old(Value()))
      ensures Valid()
    {
      CloseKeeps(Value());
      SameConsented(Value(), Close(Value()), first);
      hide Lifecycle, Consented;
      if stage == Open {
        stage := Marked;
      }
    }

    // The shutdown writer.
    method RetireFinalBinding()
      requires Valid()
      modifies this
      ensures Value() == RetireFinal(old(Value()))
      ensures Valid()
    {
      ghost var s := Value();
      hide Lifecycle, Consented, RetireFinal;
      RetireFinalSection();
      RetireFinalKeeps(s);
      SameConsented(s, RetireFinal(s), first);
    }

    method RetireFinalSection()
      modifies this
      ensures Value() == RetireFinal(old(Value()))
    {
      hide RetireConvs, IdleRunners;
      if stage != Marked || !GateFree() {
        return;
      }
      stage := Retired;
      if binding.Some? {
        orphans := RetireBinding(binding.value.epoch);
        binding := None;
      }
    }

    // The waitgroup has drained.
    function Drained(): (quiet: bool)
      reads this
      ensures quiet <==> Quiet(Value())
    {
      admissions == map[] && writer.None? && forall h :: h in runs ==> runs[h].phase.Finished?
    }

    // After the waitgroup drains.
    method FinishShutdown()
      requires Valid()
      modifies this
      ensures Value() == Finish(old(Value()))
      ensures Valid()
    {
      ghost var s := Value();
      hide Lifecycle, Consented, Finish;
      FinishSection();
      FinishKeeps(s);
      SameConsented(s, Finish(s), first);
    }

    method FinishSection()
      modifies this
      ensures Value() == Finish(old(Value()))
    {
      hide CloseAll, RetireCached, Quiet;
      if stage != Retired || !Drained() {
        return;
      }
      stage := Done;
      RetireCachedRunners();
      CloseOrphans();
    }

    method CloseOrphans()
      modifies this`runners, this`orphans
      ensures runners == CloseAll(old(runners), old(orphans).Values) && orphans == map[]
    {
      hide CloseAll;
      CloseRunners(orphans.Values);
      orphans := map[];
    }

    /** Close of a service with nothing registered: every runner ever constructed is closed and no more work is admitted. */
    method Shutdown()
      requires Valid() && Drained() && stage == Open
      modifies this
      ensures Valid() && stage == Done && forall r :: r in runners ==> runners[r].closed
    {
      ghost var s := Value();
      MarkClosing();
      RetireFinalBinding();
      FinishShutdown();
      ShutdownMeans(s);
      hide Close, RetireFinal, Finish, Lifecycle, Consented;
    }
  }

  lemma InitConsented(s: State)
    requires Init(s)
    ensures Consented(s, s.consent.granted)
  {
    ConsentHolds(s, []);
  }

  function Issued(k: Consent, ch: Challenge): Consent { k.(issued := k.issued[ch.id := ch]) }

  // The question put, or the admission left.
  ghost function Put(s: State, t: nat, id: RunIdentity, ch: Challenge): State
    requires id.conversation in s.convs
  {
    s.(claims := s.claims[id.runId := id], consent := Issued(s.consent, ch),
       convs := s.convs[id.conversation := s.convs[id.conversation].(state := PendingConsent, challenge := Some(ch))],
       admissions := s.admissions - {t})
  }

  lemma IssueIs(s: State, t: nat, id: RunIdentity, destination: Destination, env: AdmitEnv, o: Admitting)
    requires id.conversation in s.convs
    requires o == if s.Closing() || id.runId in s.claims || env.challengeId in s.consent.issued then Refused
                  else Asked(Challenge(env.challengeId, id, destination, s.now + env.ttl))
    ensures var s' := if o.Refused? then Leave(s, t) else Put(s, t, id, o.challenge);
            s' == CommitChallenge(s, t, id, destination, env) && Shows(s, s', t, id.conversation, o)
  {
  }

  lemma NewRemoteStep(k: Consent, pre: seq<Destination>, post: seq<Destination>, i: nat)
    requires i < |post|
    ensures var d := post[i];
            NewRemote(k, pre, post[i..]) == (if d.remote && d.Digest() !in Digests(pre) && !k.Has(d.Digest()) then [d] else [])
                                            + NewRemote(k, pre, post[i + 1..])
  {
    assert post[i..][1..] == post[i + 1..];
  }

  lemma WriteUnvisited(config: Config, k: Consent, now: int, env: WriteEnv, visited: set<ConversationId>, mode: Mode,
                       record: Option<SettingsChallenge>)
    requires mode != GrantOnly
    ensures PrepareWrite(config, k, now, env.(visited := visited), mode, record) == PrepareWrite(config, k, now, env, mode, record)
  {
    hide NewRemote, Install, Granted;
  }

  // What a write decides does not depend on which records the barrier's scan reached.
  lemma PrepareUnvisited(s: State, env: WriteEnv, visited: set<ConversationId>)
    ensures Prepare(Scan(s, visited).1, env.(visited := visited)) == Prepare(Scan(s, visited).1, env)
  {
    hide PrepareWrite, Take, Scan;
    var s1 := Scan(s, visited).1;
    if env.token.None? {
      if env.mode != GrantOnly { WriteUnvisited(s1.config, s1.consent, s1.now, env, visited, env.mode, None); }
    } else {
      var (record, k) := Take(s1.consent, s1.now, env.token.value);
      if record.Some? && record.value.mode != GrantOnly {
        WriteUnvisited(s1.config, k, s1.now, env, visited, record.value.mode, record);
      }
    }
  }

  // A scan that found every record idle.
  lemma ScannedAll(s: State, convs: map<ConversationId, Conv>)
    requires convs.Keys == s.convs.Keys && forall c :: c in convs ==> convs[c] == Expire(s.convs[c], s.now) && convs[c].state == Idle
    ensures Scan(s, s.convs.Keys) == (false, s.(convs := convs))
  {
    assert convs == ExpireIn(s.convs, s.convs.Keys, s.now);
  }
}
