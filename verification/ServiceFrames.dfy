/** How each table may change under a step on one conversation, one update at a time. */
module ServiceFrames {
  import opened Options
  import opened ServiceState
  import opened ServiceSteps
  import opened ServiceInvariant

  lemma SameAll(s: State, c: ConversationId)
    ensures SameAdmissions(s.admissions, s.admissions, c) && SameRuns(s.runs, s.runs, c)
    ensures SameRunners(s.runners, s.runners, c)
    ensures SameIndex(s.active, s.active, s.claims, c)
    ensures Grown(s.consent.issued, s.consent.issued) && Grown(s.claims, s.claims)
    ensures SameLaunches(s.launched, s.launched, s.claims, c)
    ensures SameResets(s, s, c)
  {
  }

  lemma ConvSet(m: map<ConversationId, Conv>, c: ConversationId, v: Conv)
    requires c in m
    ensures SameConvs(m, m[c := v], c)
  {
  }

  lemma AdmissionSet(m: map<nat, Admission>, t: nat, a: Admission, c: ConversationId)
    requires t in m && m[t].request == a.request && a.request.identity.conversation == c
    ensures SameAdmissions(m, m[t := a], c) && SameAdmissions(m, m - {t}, c)
  {
  }

  lemma RunSet(m: map<nat, Run>, h: nat, run: Run, c: ConversationId)
    requires run.identity.conversation == c
    requires h in m ==> m[h].identity == run.identity && m[h].resetsAtLaunch == run.resetsAtLaunch
    ensures SameRuns(m, m[h := run], c)
  {
  }

  lemma RunnerSet(m: map<nat, Runner>, r: nat, runner: Runner, c: ConversationId)
    requires runner.conversation == c && (r in m ==> m[r].conversation == c)
    ensures SameRunners(m, m[r := runner], c)
  {
  }

  lemma RunnerClosed(m: map<nat, Runner>, r: nat, c: ConversationId)
    requires r in m && m[r].conversation == c
    ensures SameRunners(m, CloseAll(m, {r}), c)
    ensures CloseAll(m, {r}) == m[r := m[r].(closed := true)]
  {
  }

  lemma Claimed(claims: map<string, RunIdentity>, active: map<string, nat>, launched: map<string, nat>, id: RunIdentity)
    requires id.runId !in claims
    ensures Grown(claims, claims[id.runId := id])
    ensures SameIndex(active, active, claims[id.runId := id], id.conversation)
    ensures SameLaunches(launched, launched, claims, id.conversation)
  {
  }

  lemma Issued(issued: map<string, Challenge>, ch: Challenge)
    requires ch.id !in issued
    ensures Grown(issued, issued[ch.id := ch])
  {
  }

  lemma Indexed(active: map<string, nat>, launched: map<string, nat>, claims: map<string, RunIdentity>, x: string, h: nat, c: ConversationId)
    requires x in claims && claims[x].conversation == c
    ensures SameIndex(active, active[x := h], claims, c) && SameIndex(active, active - {x}, claims, c)
    ensures x !in launched ==> SameLaunches(launched, launched[x := h], claims, c)
  {
  }
}
