/**
 What every reachable state of the run lifecycle satisfies. Everything about one conversation (its
 record, the admission that holds it, its active run, its cached runner) is one predicate; the links
 say that no admission, run, index entry or live runner exists outside it.
 */
module ServiceInvariant {
  import opened Options
  import opened ServiceState
  import opened ServiceSteps

  // A run ID claimed for this identity and never launched.
  ghost predicate Reserved(s: State, id: RunIdentity) {
    id.runId in s.claims && s.claims[id.runId] == id && id.runId !in s.launched
  }

  // The current repository incarnation.
  ghost predicate Current(s: State, epoch: nat) { s.binding.Some? && epoch == s.binding.value.epoch }

  // The effective snapshot selects this target.
  ghost predicate Selected(s: State, configEpoch: nat, target: Target) {
    s.config.snapshot == Some(Snapshot(configEpoch, Some(target)))
  }

  ghost predicate ChallengeOk(s: State, c: ConversationId, ch: Challenge) {
    && ch.identity.conversation == c && ch.destination.remote
    && Current(s, ch.identity.repoEpoch)
    && ch.id in s.consent.issued && s.consent.issued[ch.id] == ch
    && Reserved(s, ch.identity)
  }

  // A cached runner is live, and unless a busy one was retired it fits the current binding and snapshot.
  ghost predicate CachedOk(s: State, c: ConversationId, v: Conv)
    requires v.runner.Some?
  {
    && s.Live(v.runner.value)
    && s.runners[v.runner.value].conversation == c
    && (!v.stale ==> Current(s, v.runnerEpoch) && Selected(s, v.runnerConfigEpoch, s.runners[v.runner.value].target))
  }

  ghost predicate ActiveOk(s: State, c: ConversationId, v: Conv)
    requires v.active.Some?
  {
    var h := v.active.value;
    && h in s.runs && s.runs[h].identity.conversation == c
    && s.runs[h].phase.Executing?
    && v.runner == Some(s.runs[h].runner)
    && s.runs[h].identity.runId in s.active && s.active[s.runs[h].identity.runId] == h
    && (v.state == Canceling <==> s.runs[h].canceling)
    && s.runs[h].resetsAtLaunch == s.Resets(c)
  }

  // An admission past its commit owns a reserved run ID and the current target.
  ghost predicate HeldOk(s: State, c: ConversationId, v: Conv)
    requires v.holder.Some?
  {
    var t := v.holder.value;
    && v.state == Starting && v.active.None?
    && t in s.admissions && !s.admissions[t].phase.Entered?
    && var a := s.admissions[t];
    && a.request.identity.conversation == c
    && s.writer.None? && s.stage in {Open, Marked}
    && Current(s, a.request.identity.repoEpoch)
    && Selected(s, a.phase.configEpoch, a.phase.target)
    && Reserved(s, a.request.identity)
    && (v.challenge.Some? <==> a.phase.Granting?)
    && (a.phase.Granting? ==>
          && v.challenge.value.identity == a.request.identity
          && v.challenge.value.destination == a.phase.target.destination
          && a.phase.checkedAt <= v.challenge.value.expiresAt)
    && (!a.phase.Granting? ==> s.consent.Allows(a.phase.target.destination))
    && (a.phase.Built? ==> BuiltOk(s, c, v, a.phase))
  }

  ghost predicate BuiltOk(s: State, c: ConversationId, v: Conv, p: Phase)
    requires p.Built?
  {
    && p.runner in s.runners && s.runners[p.runner] == Runner(c, p.target, false)
    && v.runner == if p.constructed then None else Some(p.runner)
  }

  ghost predicate ConvOk(s: State, c: ConversationId)
    requires c in s.convs
  {
    var v := s.convs[c];
    && (v.holder.None? ==>
          && v.state != Starting
          && (v.state == PendingConsent <==> v.challenge.Some?)
          && ((v.state == Running || v.state == Canceling) <==> v.active.Some?))
    && (v.holder.Some? ==> HeldOk(s, c, v))
    && (v.challenge.Some? ==> ChallengeOk(s, c, v.challenge.value))
    && (v.runner.Some? ==> CachedOk(s, c, v))
    && (v.stale ==> v.runner.Some? && v.active.Some?)
    && (v.active.Some? ==> ActiveOk(s, c, v))
  }

  // ----- links ----------------------------------------------------------------------------------

  ghost predicate AdmissionOk(s: State, t: nat)
    requires t in s.admissions
  {
    var c := s.admissions[t].request.identity.conversation;
    !s.admissions[t].phase.Entered? ==> c in s.convs && s.convs[c].holder == Some(t)
  }

  // A launched run: its runner's target is the admitted destination, consented to at launch.
  ghost predicate RunOk(s: State, h: nat)
    requires h in s.runs
  {
    var run := s.runs[h];
    var c := run.identity.conversation;
    && run.identity.runId in s.claims && s.claims[run.identity.runId] == run.identity
    && run.identity.runId in s.launched && s.launched[run.identity.runId] == h
    && run.runner in s.runners
    && s.runners[run.runner].conversation == c
    && s.runners[run.runner].target.destination == run.destination
    && (run.destination.remote ==> run.grantedAtLaunch)
    && c in s.convs && (run.phase.Executing? ==> s.convs[c].active == Some(h))
  }

  ghost predicate IndexOk(s: State, runId: string)
    requires runId in s.active
  {
    var h := s.active[runId];
    && h in s.runs && s.runs[h].identity.runId == runId
    && s.runs[h].identity.conversation in s.convs
    && s.convs[s.runs[h].identity.conversation].active == Some(h)
  }

  // Every live runner has an owner: its conversation, the final sweep, or the admission that built it.
  ghost predicate OwnerOk(s: State, r: nat)
    requires r in s.runners
  {
    var c := s.runners[r].conversation;
    !s.runners[r].closed ==>
      && c in s.convs
      && (s.convs[c].runner == Some(r) || (c in s.orphans && s.orphans[c] == r) || BuiltBy(s, s.convs[c], r))
  }

  ghost predicate BuiltBy(s: State, v: Conv, r: nat) {
    && v.holder.Some? && v.holder.value in s.admissions
    && s.admissions[v.holder.value].phase.Built?
    && s.admissions[v.holder.value].phase.constructed
    && s.admissions[v.holder.value].phase.runner == r
  }

  ghost predicate OrphanOk(s: State, c: ConversationId)
    requires c in s.orphans
  {
    && s.stage == Retired
    && s.Live(s.orphans[c]) && s.runners[s.orphans[c]].conversation == c
    && c in s.convs && s.convs[c].runner.None?
  }

  ghost predicate HistoryOk(s: State) {
    && s.launched.Keys <= s.claims.Keys
    && forall e :: e in s.saves ==> e.run in s.runs && e.resets == s.runs[e.run].resetsAtLaunch
  }

  ghost predicate NoLiveRunner(s: State) { forall r :: r in s.runners ==> s.runners[r].closed }

  ghost predicate StageOk(s: State) {
    && (s.binding.Some? ==> 0 < s.binding.value.epoch == s.nextEpoch)
    && (s.config.snapshot.Some? ==> s.config.snapshot.value.epoch == s.config.epoch)
    && (s.writer.Some? ==> AllIdle(s.convs) && s.stage in {Open, Marked})
    && (s.stage in {Retired, Done} ==> s.binding.None?)
    && (s.stage == Done ==> Quiet(s) && NoLiveRunner(s))
  }

  ghost predicate Links(s: State) {
    && (forall t :: t in s.admissions ==> AdmissionOk(s, t))
    && (forall h :: h in s.runs ==> RunOk(s, h))
    && (forall x :: x in s.active ==> IndexOk(s, x))
    && (forall r :: r in s.runners ==> OwnerOk(s, r))
    && (forall c :: c in s.orphans ==> OrphanOk(s, c))
  }

  ghost predicate Lifecycle(s: State) {
    && StageOk(s) && HistoryOk(s) && Links(s)
    && forall c :: c in s.convs ==> ConvOk(s, c)
  }

  // ----- steps on one conversation --------------------------------------------------------------

  ghost predicate Grown<K, V>(m: map<K, V>, m': map<K, V>) {
    forall k :: k in m ==> k in m' && m'[k] == m[k]
  }

  ghost predicate SameConvs(m: map<ConversationId, Conv>, m': map<ConversationId, Conv>, c: ConversationId) {
    m'.Keys == m.Keys && forall k :: k in m && k != c ==> m'[k] == m[k]
  }

  ghost predicate SameAdmissions(m: map<nat, Admission>, m': map<nat, Admission>, c: ConversationId) {
    && (forall t :: t in m && m[t].request.identity.conversation != c ==> t in m' && m'[t] == m[t])
    && (forall t :: t in m' && m'[t].request.identity.conversation != c ==> t in m)
    && (forall t :: t in m && t in m' ==> m'[t].request == m[t].request)
  }

  ghost predicate SameRuns(m: map<nat, Run>, m': map<nat, Run>, c: ConversationId) {
    && (forall h :: h in m ==> h in m' && m'[h].identity == m[h].identity && m'[h].resetsAtLaunch == m[h].resetsAtLaunch)
    && (forall h :: h in m' && m'[h].identity.conversation != c ==> h in m && m'[h] == m[h])
  }

  ghost predicate SameRunners(m: map<nat, Runner>, m': map<nat, Runner>, c: ConversationId) {
    && (forall r :: r in m ==> r in m' && m'[r].conversation == m[r].conversation)
    && (forall r :: r in m' && m'[r].conversation != c ==> r in m && m'[r] == m[r])
  }

  // Only index entries of runs claimed for c may differ.
  ghost predicate SameIndex(m: map<string, nat>, m': map<string, nat>, claims: map<string, RunIdentity>, c: ConversationId) {
    forall x :: (x in m || x in m') && !(x in claims && claims[x].conversation == c) ==> x in m && x in m' && m'[x] == m[x]
  }

  ghost predicate SameGlobals(s: State, s': State) {
    && s'.stage == s.stage && s'.nextEpoch == s.nextEpoch && s'.binding == s.binding
    && s'.config == s.config && s'.writer == s.writer && s'.saves == s.saves && s'.orphans == s.orphans
    && s'.consent.open == s.consent.open && s.consent.granted <= s'.consent.granted
    && Grown(s.consent.issued, s'.consent.issued) && Grown(s.claims, s'.claims)
  }

  // Only run IDs claimed for c were launched.
  ghost predicate SameLaunches(m: map<string, nat>, m': map<string, nat>, claims: map<string, RunIdentity>, c: ConversationId) {
    && (forall x :: x in m ==> x in m' && m'[x] == m[x])
    && (forall x :: x in m' && x !in m ==> x in claims && claims[x].conversation == c)
  }

  ghost predicate SameResets(s: State, s': State, c: ConversationId) {
    forall k :: k != c ==> s'.Resets(k) == s.Resets(k)
  }

  // Nothing that belongs to another conversation than c changed, and history only grew.
  ghost predicate Apart(s: State, s': State, c: ConversationId) {
    && SameGlobals(s, s')
    && SameConvs(s.convs, s'.convs, c)
    && SameAdmissions(s.admissions, s'.admissions, c)
    && SameRuns(s.runs, s'.runs, c)
    && SameRunners(s.runners, s'.runners, c)
    && SameIndex(s.active, s'.active, s'.claims, c)
    && SameLaunches(s.launched, s'.launched, s.claims, c)
    && SameResets(s, s', c)
  }

  // Conversation c's own part of the invariant.
  ghost predicate Own(s: State, c: ConversationId) { (c in s.convs ==> ConvOk(s, c)) && OwnLinks(s, c) }

  ghost predicate OwnLinks(s: State, c: ConversationId) { OwnUsers(s, c) && OwnRunners(s, c) }

  ghost predicate OwnUsers(s: State, c: ConversationId) {
    && (forall t :: t in s.admissions && s.admissions[t].request.identity.conversation == c ==> AdmissionOk(s, t))
    && (forall h :: h in s.runs && s.runs[h].identity.conversation == c ==> RunOk(s, h))
    && (forall x :: x in s.active && x in s.claims && s.claims[x].conversation == c ==> IndexOk(s, x))
  }

  ghost predicate OwnRunners(s: State, c: ConversationId) {
    && (forall r :: r in s.runners && s.runners[r].conversation == c ==> OwnerOk(s, r))
    && (c in s.orphans ==> OrphanOk(s, c))
  }

  lemma OtherConv(s: State, s': State, c: ConversationId, k: ConversationId)
    requires Apart(s, s', c) && k in s.convs && k != c && ConvOk(s, k)
    requires s.convs[k].active.Some? ==> s.convs[k].active.value in s.runs && RunOk(s, s.convs[k].active.value)
    ensures ConvOk(s', k)
  {
  }

  lemma OtherRun(s: State, s': State, c: ConversationId, h: nat)
    requires Apart(s, s', c) && h in s'.runs && s'.runs[h].identity.conversation != c
    requires h in s.runs ==> RunOk(s, h)
    ensures RunOk(s', h)
  {
  }

  lemma OtherIndex(s: State, s': State, c: ConversationId, x: string)
    requires Apart(s, s', c) && x in s'.active && !(x in s'.claims && s'.claims[x].conversation == c)
    requires x in s.active && IndexOk(s, x) && RunOk(s, s.active[x])
    ensures IndexOk(s', x)
  {
  }

  lemma OtherOwner(s: State, s': State, c: ConversationId, r: nat)
    requires Apart(s, s', c) && r in s'.runners && s'.runners[r].conversation != c
    requires r in s.runners && OwnerOk(s, r)
    requires s.runners[r].conversation in s.convs ==> ConvOk(s, s.runners[r].conversation)
    ensures OwnerOk(s', r)
  {
  }

  lemma OtherOrphan(s: State, s': State, c: ConversationId, k: ConversationId)
    requires Apart(s, s', c) && k in s.orphans && k != c && OrphanOk(s, k)
    ensures OrphanOk(s', k)
  {
  }

  lemma OtherLinks(s: State, s': State, c: ConversationId)
    requires Links(s) && (forall k :: k in s.convs ==> ConvOk(s, k))
    requires Apart(s, s', c) && OwnLinks(s', c)
    ensures Links(s')
  {
    forall t | t in s'.admissions && s'.admissions[t].request.identity.conversation != c ensures AdmissionOk(s', t) {
      assert t in s.admissions && AdmissionOk(s, t);
    }
    forall h | h in s'.runs && s'.runs[h].identity.conversation != c ensures RunOk(s', h) {
      OtherRun(s, s', c, h);
    }
    forall x | x in s'.active && !(x in s'.claims && s'.claims[x].conversation == c) ensures IndexOk(s', x) {
      OtherIndex(s, s', c, x);
    }
    forall r | r in s'.runners && s'.runners[r].conversation != c ensures OwnerOk(s', r) {
      OtherOwner(s, s', c, r);
    }
    forall k | k in s'.orphans && k != c ensures OrphanOk(s', k) {
      OtherOrphan(s, s', c, k);
    }
  }

  /** A step on one conversation keeps the invariant when it keeps that conversation's part of it. */
  lemma Combine(s: State, s': State, c: ConversationId)
    requires Lifecycle(s) && Apart(s, s', c) && Own(s', c) && StageOk(s')
    ensures Lifecycle(s')
  {
    OtherLinks(s, s', c);
    forall k | k in s'.convs && k != c ensures ConvOk(s', k) {
      assert RunsOfConv(s, k);
      OtherConv(s, s', c, k);
    }
  }

  ghost predicate RunsOfConv(s: State, k: ConversationId)
    requires k in s.convs
  {
    s.convs[k].active.Some? ==> s.convs[k].active.value in s.runs && RunOk(s, s.convs[k].active.value)
  }
}
