/**
 The promises of the run lifecycle, for the state after every run `actions` from every initial state.
 Each is a consequence of the two invariants.
 */
module ServiceTheorems {
  import opened Options
  import opened Collections
  import opened ServiceState
  import opened ServiceSteps
  import opened ServiceInvariant
  import opened ServiceLifecycle
  import opened ServiceTurns
  import opened ServiceAdmissions
  import opened ServiceSafety
  import opened ServiceConsent

  // ----- no unconsented egress ------------------------------------------------------------------

  /** The step that launches a run does so on a live runner for the admitted, current, consented target. */
  lemma LaunchIsConsented(s0: State, actions: seq<Action>, t: nat, h: nat)
    requires Init(s0)
    ensures var s := Reach(s0, actions);
            var s' := Step(s, ARegister(t, h));
            h !in s.runs && h in s'.runs ==>
              && t in s.admissions && s.admissions[t].phase.Built?
              && var target := s.admissions[t].phase.target;
                 && s'.runs[h].identity == s.admissions[t].request.identity
                 && s'.runs[h].destination == target.destination
                 && s'.Live(s'.runs[h].runner) && s'.runners[s'.runs[h].runner].target == target
                 && Selected(s, s.admissions[t].phase.configEpoch, target)
                 && Current(s, s'.runs[h].identity.repoEpoch)
                 && s.consent.Allows(target.destination)
                 && s.stage == Open
  {
    hide Lifecycle, ConvOk, OwnLinks, StageOk, ChallengeOk, CachedOk, ActiveOk;
    LifecycleHolds(s0, actions);
    var s := Reach(s0, actions);
    if Holds(s, t) && s.admissions[t].phase.Built? && h !in s.runs {
      HeldFrom(s, t);
      HeldIs(s, t, s.admissions[t].request.identity.conversation);
    }
  }

  /** Ever after, the run's runner targets the admitted destination, which was local or granted at launch. */
  lemma EgressWasConsented(s0: State, actions: seq<Action>, h: nat)
    requires Init(s0) && h in Reach(s0, actions).runs
    ensures var s := Reach(s0, actions);
            var run := s.runs[h];
            && run.runner in s.runners
            && s.runners[run.runner].target.destination == run.destination
            && s.runners[run.runner].conversation == run.identity.conversation
            && (run.destination.remote ==> run.grantedAtLaunch)
  {
    hide ConvOk, Reach, HistoryOk, StageOk;
    LifecycleHolds(s0, actions);
    assert RunOk(Reach(s0, actions), h);
  }

  /** The cached runner of a free conversation fits the current binding and snapshot: only a changed directory makes admission rebuild it. */
  lemma CachedRunnerFits(s0: State, actions: seq<Action>, t: nat, env: BuildEnv)
    requires Init(s0) && Holds(Reach(s0, actions), t) && Reach(s0, actions).admissions[t].phase.Building?
    ensures var s := Reach(s0, actions);
            var a := s.admissions[t];
            var v := s.convs[a.request.identity.conversation];
            Mismatched(v, env, a.request.identity.repoEpoch, a.phase.configEpoch) <==> v.runner.Some? && env.rootChanged
  {
    hide Lifecycle, OwnLinks, ChallengeOk, Reach;
    LifecycleHolds(s0, actions);
    HeldFrom(Reach(s0, actions), t);
  }

  // ----- one live runner ------------------------------------------------------------------------

  /** Each conversation has at most one live runner. */
  lemma OneLiveRunner(s0: State, actions: seq<Action>, r1: nat, r2: nat)
    requires Init(s0)
    ensures var s := Reach(s0, actions);
            s.Live(r1) && s.Live(r2) && s.runners[r1].conversation == s.runners[r2].conversation ==> r1 == r2
  {
    hide Lifecycle, Reach;
    LifecycleHolds(s0, actions);
    var s := Reach(s0, actions);
    if s.Live(r1) && s.Live(r2) && s.runners[r1].conversation == s.runners[r2].conversation {
      Owners(s, r1);
      Owners(s, r2);
    }
  }

  // The owner of a live runner excludes every other owner of its conversation.
  lemma Owners(s: State, r: nat)
    requires Lifecycle(s) && s.Live(r)
    ensures var c := s.runners[r].conversation;
            && c in s.convs
            && (s.convs[c].runner.Some? ==> s.convs[c].runner == Some(r))
            && (c in s.orphans ==> s.orphans[c] == r)
            && (forall r' :: BuiltBy(s, s.convs[c], r') ==> r' == r)
            && (s.convs[c].runner.Some? || c in s.orphans || BuiltBy(s, s.convs[c], r))
  {
    hide ChallengeOk, ActiveOk, RunOk, IndexOk, AdmissionOk;
    assert OwnerOk(s, r);
    var c := s.runners[r].conversation;
    assert ConvOk(s, c);
    assert c in s.orphans ==> OrphanOk(s, c);
  }

  // ----- quiescent shutdown ---------------------------------------------------------------------

  /** When shutdown signals done nothing is admitted, active or executing, and no runner is live. */
  lemma ShutdownIsQuiescent(s0: State, actions: seq<Action>)
    requires Init(s0) && Reach(s0, actions).stage == Done
    ensures var s := Reach(s0, actions);
            && s.admissions == map[] && s.active == map[] && s.writer.None? && s.binding.None?
            && (forall h :: h in s.runs ==> s.runs[h].phase.Finished?)
            && (forall r :: r in s.runners ==> !s.Live(r))
            && (forall c :: c in s.convs ==> s.convs[c].active.None? && s.convs[c].holder.None?)
  {
    hide Reach, RunOk, OwnerOk, ChallengeOk, CachedOk, AllIdle;
    LifecycleHolds(s0, actions);
    var s := Reach(s0, actions);
    forall c | c in s.convs ensures s.convs[c].active.None? && s.convs[c].holder.None? { assert ConvOk(s, c); }
    IndexExecutes(s);
  }

  // The index holds executing runs only.
  lemma IndexExecutes(s: State)
    requires Lifecycle(s)
    ensures forall x :: x in s.active ==> s.active[x] in s.runs && s.runs[s.active[x]].phase.Executing?
  {
    hide HeldOk, CachedOk, ChallengeOk, RunOk, OwnerOk;
    forall x | x in s.active ensures s.active[x] in s.runs && s.runs[s.active[x]].phase.Executing? {
      assert IndexOk(s, x);
      assert ConvOk(s, s.runs[s.active[x]].identity.conversation);
    }
  }

  // ----- free records ---------------------------------------------------------------------------

  /**
   While its mutex is free a record is never starting; it is pending exactly when a challenge of the current
   incarnation is stored, and running or canceling exactly when one index entry points back at it.
   */
  lemma FreeRecord(s0: State, actions: seq<Action>, c: ConversationId)
    requires Init(s0) && c in Reach(s0, actions).convs && Reach(s0, actions).convs[c].holder.None?
    ensures var s := Reach(s0, actions);
            var v := s.convs[c];
            && v.state != Starting
            && (v.state == PendingConsent <==>
                  v.challenge.Some? && Current(s, v.challenge.value.identity.repoEpoch) && v.challenge.value.identity.conversation == c)
            && (v.state == Running || v.state == Canceling <==> exists x :: Indexes(s, x, c))
            && (forall x, y :: Indexes(s, x, c) && Indexes(s, y, c) ==> x == y)
  {
    hide Reach, OwnerOk, CachedOk, AllIdle, StageOk;
    LifecycleHolds(s0, actions);
    var s := Reach(s0, actions);
    assert ConvOk(s, c);
    if s.convs[c].active.Some? { assert Indexes(s, s.runs[s.convs[c].active.value].identity.runId, c); }
    forall x | Indexes(s, x, c) ensures s.convs[c].active == Some(s.active[x]) && s.runs[s.active[x]].identity.runId == x {
      assert IndexOk(s, x);
    }
  }

  // Index entry x is a run of conversation c.
  ghost predicate Indexes(s: State, x: string, c: ConversationId) {
    x in s.active && s.active[x] in s.runs && s.runs[s.active[x]].identity.conversation == c
  }

  /** A terminal event goes out only after the index and the record have let go of the run. */
  lemma TerminalAfterRelease(s0: State, actions: seq<Action>, h: nat)
    requires Init(s0) && h in Reach(s0, actions).runs && !Reach(s0, actions).runs[h].phase.Executing?
    ensures var s := Reach(s0, actions);
            && (forall c :: c in s.convs ==> s.convs[c].active != Some(h))
            && (forall x :: x in s.active ==> s.active[x] != h)
  {
    hide Reach, OwnerOk, CachedOk, AllIdle, StageOk, HeldOk;
    LifecycleHolds(s0, actions);
    var s := Reach(s0, actions);
    forall c | c in s.convs ensures s.convs[c].active != Some(h) { assert ConvOk(s, c); }
    forall x | x in s.active ensures s.active[x] != h {
      assert IndexOk(s, x);
      assert ConvOk(s, s.runs[s.active[x]].identity.conversation);
    }
  }

  // ----- one launch per run ID ------------------------------------------------------------------

  /** No run ID is launched twice: the runs ever launched have distinct IDs, each claimed for its identity. */
  lemma LaunchedOnce(s0: State, actions: seq<Action>, h1: nat, h2: nat)
    requires Init(s0) && h1 in Reach(s0, actions).runs && h2 in Reach(s0, actions).runs
    requires Reach(s0, actions).runs[h1].identity.runId == Reach(s0, actions).runs[h2].identity.runId
    ensures h1 == h2
  {
    hide ConvOk, Reach, HistoryOk, StageOk, OwnerOk, OrphanOk;
    LifecycleHolds(s0, actions);
    assert RunOk(Reach(s0, actions), h1);
    assert RunOk(Reach(s0, actions), h2);
  }

  // ----- reset is a barrier ---------------------------------------------------------------------

  /** A run launched before a New chat of its conversation saves nothing after it. */
  lemma NoSaveAfterReset(s0: State, actions: seq<Action>, h: nat)
    requires Init(s0) && h in Reach(s0, actions).runs
    requires var s := Reach(s0, actions); s.Resets(s.runs[h].identity.conversation) != s.runs[h].resetsAtLaunch
    ensures Step(Reach(s0, actions), ASave(h)) == Reach(s0, actions)
  {
    hide Lifecycle, Reach, ConvOk, OwnLinks, StageOk, RunOk;
    LifecycleHolds(s0, actions);
    var s := Reach(s0, actions);
    if s.runs[h].phase.Executing? {
      RunsFrom(s, h);
      RunsIs(s, h, s.runs[h].identity.conversation);
    }
  }

  /** Every session save ever made carries the reset count its run was launched under. */
  lemma SavesMatchLaunch(s0: State, actions: seq<Action>, e: SaveEvent)
    requires Init(s0) && e in Reach(s0, actions).saves
    ensures e.run in Reach(s0, actions).runs && e.resets == Reach(s0, actions).runs[e.run].resetsAtLaunch
  {
    hide Reach, Links, StageOk, ConvOk;
    LifecycleHolds(s0, actions);
  }

  // ----- consent --------------------------------------------------------------------------------

  /** The grant set is its first contents plus the recorded grants, each from an issued, unexpired challenge. */
  lemma GrantsComeFromChallenges(s0: State, actions: seq<Action>)
    requires Init(s0)
    ensures var k := Reach(s0, actions).consent;
            && k.granted == s0.consent.granted + Gained(k.grants)
            && forall i :: 0 <= i < |k.grants| ==> EventOk(k, k.grants[i])
  {
    hide Reach, EventOk, Gained, PublishedOk, WriteOk;
    ConsentHolds(s0, actions);
  }

  /** Each settings token is consumed at most once, authorizes at most one commit, and only in its own flow. */
  lemma TokensAreSingleUse(s0: State, actions: seq<Action>, i: nat, j: nat)
    requires Init(s0)
    ensures var k := Reach(s0, actions).consent;
            && Distinct(k.spent)
            && (forall x :: x in k.settings ==> x !in k.spent)
            && (i < j < |k.grants| && Token(k.grants[i]).Some? ==> Token(k.grants[i]) != Token(k.grants[j]))
            && (i < |k.grants| && Token(k.grants[i]).Some? ==>
                  && Token(k.grants[i]).value in k.issuedSettings
                  && (k.grants[i].authority.GrantConsent? <==> k.issuedSettings[Token(k.grants[i]).value].mode == GrantOnly))
  {
    hide Reach, Gained, PublishedOk, WriteOk, RecordOk;
    ConsentHolds(s0, actions);
    var k := Reach(s0, actions).consent;
    if i < |k.grants| { assert EventOk(k, k.grants[i]); }
  }

  /** Every remote destination a published document reaches was reachable in the one it replaced, or is granted. */
  lemma PublicationsAreConsented(s0: State, actions: seq<Action>, p: Publication, d: Destination)
    requires Init(s0) && p in Reach(s0, actions).config.publications
    requires d in p.published.reachable && d.remote
    ensures d.Digest() in Digests(Reachable(p.replaced)) || Reach(s0, actions).consent.Has(d.Digest())
  {
    hide Reach, StoreOk, Accounted, WriteOk;
    ConsentHolds(s0, actions);
  }
}
