/**
 Every critical section that works on one conversation keeps the lifecycle invariant. Each step is shown
 to leave other conversations alone, to keep its own record's part, and to keep the links.
 */
module ServiceLifecycle {
  import opened Options
  import opened ServiceState
  import opened ServiceSteps
  import opened ServiceInvariant
  import opened ServiceFrames

  lemma OwnFrom(s: State, c: ConversationId)
    requires Lifecycle(s)
    ensures Own(s, c) && StageOk(s) && OwnLinks(s, c)
    ensures c in s.convs ==> ConvOk(s, c)
  {
  }

  // ----- replacing one record -------------------------------------------------------------------

  function Replace(s: State, c: ConversationId, v: Conv): State { s.(convs := s.convs[c := v]) }

  // The same holder, run and runner; idle stays idle.
  predicate SameOwners(v: Conv, v': Conv) {
    v'.holder == v.holder && v'.active == v.active && v'.runner == v.runner && (v.state == Idle ==> v'.state == Idle)
  }

  lemma ReplaceApart(s: State, c: ConversationId, v: Conv)
    requires c in s.convs
    ensures Apart(s, Replace(s, c, v), c)
  {
    hide SameConvs, SameAdmissions, SameRuns, SameRunners, SameIndex, SameLaunches, SameResets, Grown;
    SameAll(s, c);
    ConvSet(s.convs, c, v);
    SameResetsFrom(s, Replace(s, c, v), c);
  }

  lemma SameResetsFrom(s: State, s': State, c: ConversationId)
    requires s'.resets == s.resets
    ensures SameResets(s, s', c)
  {
  }

  lemma ReplaceLinks(s: State, c: ConversationId, v: Conv)
    requires c in s.convs && Own(s, c) && StageOk(s) && SameOwners(s.convs[c], v)
    ensures OwnLinks(Replace(s, c, v), c) && StageOk(Replace(s, c, v))
  {
    hide ConvOk;
  }

  lemma ReplaceKeeps(s: State, c: ConversationId, v: Conv)
    requires Lifecycle(s) && c in s.convs && SameOwners(s.convs[c], v)
    requires ConvOk(Replace(s, c, v), c)
    ensures Lifecycle(Replace(s, c, v))
  {
    hide *;
    OwnFrom(s, c);
    ReplaceApart(s, c, v);
    ReplaceLinks(s, c, v);
    Combine(s, Replace(s, c, v), c);
  }

  lemma ClearedConv(s: State, c: ConversationId)
    requires c in s.convs && ConvOk(s, c) && s.convs[c].state == PendingConsent
    ensures ConvOk(Replace(s, c, s.convs[c].(challenge := None, state := Idle)), c)
  {
  }

  lemma ExpireKeeps(s: State, c: ConversationId)
    requires Lifecycle(s) && c in s.convs && s.convs[c].holder.None?
    ensures Lifecycle(ExpireOne(s, c))
  {
    hide Lifecycle, Links, AdmissionOk, RunOk, IndexOk, OwnerOk, OrphanOk, OwnLinks, ChallengeOk, CachedOk, ActiveOk, HeldOk, StageOk;
    OwnFrom(s, c);
    var v := Expire(s.convs[c], s.now);
    assert ExpireOne(s, c) == Replace(s, c, v);
    if v != s.convs[c] {
      ClearedConv(s, c);
      ReplaceKeeps(s, c, v);
    } else {
      assert Replace(s, c, v) == s;
    }
  }

  lemma DeclineKeeps(s: State, id: RunIdentity)
    requires Lifecycle(s)
    ensures Lifecycle(Decline(s, id))
  {
    hide Lifecycle, Links, AdmissionOk, RunOk, IndexOk, OwnerOk, OrphanOk, OwnLinks, ConvOk;
    var c := id.conversation;
    if Decline(s, id) != s {
      OwnFrom(s, c);
      ClearedConv(s, c);
      ReplaceKeeps(s, c, s.convs[c].(challenge := None, state := Idle));
    }
  }

  // ----- unheld admissions ----------------------------------------------------------------------

  // Only admission t differs, and it holds nothing before or after.
  ghost predicate OnlyEntered(s: State, s': State, t: nat) {
    && s' == s.(admissions := s'.admissions)
    && s'.admissions - {t} == s.admissions - {t}
    && (t in s.admissions ==> s.admissions[t].phase.Entered?)
    && (t in s'.admissions ==> s'.admissions[t].phase.Entered? && s.stage == Open)
  }

  lemma EnteredConv(s: State, s': State, t: nat, c: ConversationId)
    requires OnlyEntered(s, s', t) && c in s.convs && ConvOk(s, c)
    ensures ConvOk(s', c)
  {
    forall k | k in s.admissions && k != t ensures k in s'.admissions && s'.admissions[k] == s.admissions[k] {
      assert k in s.admissions - {t};
      assert s'.admissions[k] == (s'.admissions - {t})[k];
    }
  }

  lemma EnteredLinks(s: State, s': State, t: nat)
    requires OnlyEntered(s, s', t) && Links(s) && StageOk(s) && HistoryOk(s)
    ensures Links(s') && StageOk(s') && HistoryOk(s')
  {
    forall k | k in s.admissions && k != t ensures k in s'.admissions && s'.admissions[k] == s.admissions[k] {
      assert k in s.admissions - {t};
      assert s'.admissions[k] == (s'.admissions - {t})[k];
    }
    forall k | k in s'.admissions && k != t ensures k in s.admissions {
      assert k in s'.admissions - {t};
    }
  }

  lemma EnteredKeeps(s: State, s': State, t: nat)
    requires Lifecycle(s) && OnlyEntered(s, s', t)
    ensures Lifecycle(s')
  {
    hide Links, StageOk, HistoryOk, ConvOk;
    forall c | c in s'.convs ensures ConvOk(s', c) { EnteredConv(s, s', t, c); }
    EnteredLinks(s, s', t);
  }

  // ----- step 6: commits ------------------------------------------------------------------------

  // A run ID nobody claimed is in no index.
  lemma UnclaimedUnused(s: State, runId: string)
    requires Lifecycle(s) && runId !in s.claims
    ensures runId !in s.active && runId !in s.launched
  {
    assert runId in s.active ==> IndexOk(s, runId);
  }

  lemma ChallengedApart(s: State, t: nat, id: RunIdentity, destination: Destination, env: AdmitEnv)
    requires t in s.admissions && s.admissions[t].request.identity == id && id.conversation in s.convs
    requires id.runId !in s.claims && env.challengeId !in s.consent.issued && !s.Closing()
    ensures Apart(s, CommitChallenge(s, t, id, destination, env), id.conversation)
  {
    hide SameConvs, SameAdmissions, SameRuns, SameRunners, SameIndex, SameLaunches, SameResets, Grown;
    var s' := CommitChallenge(s, t, id, destination, env);
    SameAll(s, id.conversation);
    ConvSet(s.convs, id.conversation, s'.convs[id.conversation]);
    Claimed(s.claims, s.active, s.launched, id);
    Issued(s.consent.issued, s'.consent.issued[env.challengeId]);
    AdmissionSet(s.admissions, t, s.admissions[t], id.conversation);
    SameResetsFrom(s, s', id.conversation);
  }

  lemma ChallengedConv(s: State, t: nat, id: RunIdentity, destination: Destination, env: AdmitEnv)
    requires id.conversation in s.convs && s.convs[id.conversation].state == Idle && ConvOk(s, id.conversation)
    requires id.runId !in s.claims && env.challengeId !in s.consent.issued && !s.Closing()
    requires destination.remote && Current(s, id.repoEpoch) && id.runId !in s.launched
    ensures ConvOk(CommitChallenge(s, t, id, destination, env), id.conversation)
  {
  }

  lemma ChallengedLinks(s: State, t: nat, id: RunIdentity, destination: Destination, env: AdmitEnv)
    requires id.conversation in s.convs && s.convs[id.conversation].holder.None?
    requires OwnLinks(s, id.conversation) && StageOk(s) && s.writer.None?
    requires t in s.admissions && s.admissions[t].request.identity == id
    requires id.runId !in s.claims && id.runId !in s.active && env.challengeId !in s.consent.issued && !s.Closing()
    ensures var s' := CommitChallenge(s, t, id, destination, env); OwnLinks(s', id.conversation) && StageOk(s')
  {
  }

  lemma ChallengedKeeps(s: State, t: nat, id: RunIdentity, destination: Destination, env: AdmitEnv)
    requires Lifecycle(s) && Committable(s, t, id) && s.convs[id.conversation].state == Idle && destination.remote
    requires id.runId !in s.claims && env.challengeId !in s.consent.issued && !s.Closing()
    ensures Lifecycle(CommitChallenge(s, t, id, destination, env))
  {
    hide *;
    CommittableIs(s, t, id);
    var s' := CommitChallenge(s, t, id, destination, env);
    var c := id.conversation;
    UnclaimedUnused(s, id.runId);
    OwnFrom(s, c);
    ChallengedApart(s, t, id, destination, env);
    ChallengedConv(s, t, id, destination, env);
    ChallengedLinks(s, t, id, destination, env);
    OwnWhole(s', c);
    Combine(s, s', c);
  }

  // What Admit has established when it commits: an unheld conversation of the current incarnation.
  predicate Committable(s: State, t: nat, id: RunIdentity) {
    && t in s.admissions && s.admissions[t].phase.Entered? && s.admissions[t].request.identity == id
    && s.writer.None? && s.binding.Some? && id.repoEpoch == s.binding.value.epoch
    && id.conversation in s.convs && s.convs[id.conversation].holder.None?
  }

  lemma CommittableIs(s: State, t: nat, id: RunIdentity)
    requires Committable(s, t, id)
    ensures t in s.admissions && s.admissions[t].phase.Entered? && s.admissions[t].request.identity == id
    ensures s.writer.None? && Current(s, id.repoEpoch)
    ensures id.conversation in s.convs && s.convs[id.conversation].holder.None?
  {
  }

  lemma LinksWhole(s: State, c: ConversationId)
    requires OwnUsers(s, c) && OwnRunners(s, c)
    ensures OwnLinks(s, c)
  {
  }

  lemma OwnWhole(s: State, c: ConversationId)
    requires c in s.convs ==> ConvOk(s, c)
    requires OwnLinks(s, c)
    ensures Own(s, c)
  {
  }

  // Hold: the admission takes the record, with its run ID reserved.
  lemma HeldApart(s: State, t: nat, c: ConversationId, phase: Phase)
    requires c in s.convs && t in s.admissions && s.admissions[t].request.identity.conversation == c
    ensures Apart(s, Hold(s, t, c, phase), c)
  {
    hide SameConvs, SameAdmissions, SameRuns, SameRunners, SameIndex, SameLaunches, SameResets, Grown;
    var s' := Hold(s, t, c, phase);
    SameAll(s, c);
    ConvSet(s.convs, c, s'.convs[c]);
    AdmissionSet(s.admissions, t, s'.admissions[t], c);
    SameResetsFrom(s, s', c);
  }

  // The phase may hold the record: the target is current and consented to, or the challenge matches.
  ghost predicate Holdable(s: State, c: ConversationId, id: RunIdentity, phase: Phase)
    requires c in s.convs
  {
    && !phase.Entered? && !phase.Built? && s.stage == Open
    && Selected(s, phase.configEpoch, phase.target) && Reserved(s, id)
    && (phase.Building? ==> s.convs[c].state == Idle && s.consent.Allows(phase.target.destination))
    && (phase.Granting? ==>
          && s.convs[c].challenge.Some?
          && s.convs[c].challenge.value.identity == id
          && s.convs[c].challenge.value.destination == phase.target.destination
          && phase.checkedAt <= s.convs[c].challenge.value.expiresAt)
  }

  lemma HeldConv(s: State, t: nat, id: RunIdentity, phase: Phase)
    requires Committable(s, t, id) && ConvOk(s, id.conversation)
    requires Holdable(s, id.conversation, id, phase) && s.convs[id.conversation].active.None?
    ensures ConvOk(Hold(s, t, id.conversation, phase), id.conversation)
  {
  }

  lemma HeldLinks(s: State, t: nat, id: RunIdentity, phase: Phase)
    requires Committable(s, t, id) && OwnLinks(s, id.conversation) && StageOk(s) && s.stage == Open
    ensures var s' := Hold(s, t, id.conversation, phase); OwnLinks(s', id.conversation) && StageOk(s')
  {
  }

  lemma HeldKeeps(s: State, t: nat, id: RunIdentity, phase: Phase)
    requires Lifecycle(s) && Committable(s, t, id)
    requires Holdable(s, id.conversation, id, phase) && s.convs[id.conversation].active.None? && s.stage == Open
    ensures Lifecycle(Hold(s, t, id.conversation, phase))
  {
    hide *;
    CommittableIs(s, t, id);
    var c := id.conversation;
    var s' := Hold(s, t, c, phase);
    OwnFrom(s, c);
    HeldApart(s, t, c, phase);
    HeldConv(s, t, id, phase);
    HeldLinks(s, t, id, phase);
    OwnWhole(s', c);
    Combine(s, s', c);
  }

  // ----- steps that leave every table alone -----------------------------------------------------

  // Only the clock, files, writer, consent, claims or stage moved; history grew.
  ghost predicate Quieted(s: State, s': State) {
    && s'.convs == s.convs && s'.admissions == s.admissions && s'.runners == s.runners && s'.orphans == s.orphans
    && s'.runs == s.runs && s'.active == s.active && s'.launched == s.launched && s'.resets == s.resets
    && s'.binding == s.binding && s'.nextEpoch == s.nextEpoch
    && s'.config.snapshot == s.config.snapshot && s'.config.epoch == s.config.epoch
    && s'.consent.open == s.consent.open && s.consent.granted <= s'.consent.granted
    && Grown(s.consent.issued, s'.consent.issued) && Grown(s.claims, s'.claims)
    && (s'.writer.Some? && s.writer.None? ==> s.Unread() && AllIdle(s.convs))
    && (s'.stage == s.stage || (s.stage == Open && s'.stage == Marked)
        || (s.stage == Marked && s'.stage == Retired && s.binding.None? && s.Unread()))
  }

  lemma QuietConv(s: State, s': State, c: ConversationId)
    requires Quieted(s, s') && c in s.convs && ConvOk(s, c)
    ensures ConvOk(s', c)
  {
  }

  lemma QuietLinks(s: State, s': State)
    requires Quieted(s, s') && Links(s) && StageOk(s) && (s'.writer.Some? ==> s'.stage in {Open, Marked})
    ensures Links(s') && StageOk(s')
  {
  }

  lemma QuietHistory(s: State, s': State)
    requires Quieted(s, s') && HistoryOk(s) && s'.saves == s.saves
    ensures HistoryOk(s')
  {
  }

  lemma QuietKeeps(s: State, s': State)
    requires Lifecycle(s) && Quieted(s, s') && (s'.writer.Some? ==> s'.stage in {Open, Marked})
    requires s'.saves == s.saves || HistoryOk(s')
    ensures Lifecycle(s')
  {
    hide Links, HistoryOk, StageOk, ConvOk;
    if s'.saves == s.saves { QuietHistory(s, s'); }
    forall c | c in s'.convs ensures ConvOk(s', c) { QuietConv(s, s', c); }
    QuietLinks(s, s');
  }
}
