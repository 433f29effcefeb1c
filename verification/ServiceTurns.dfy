/** Running turns, cancellation, reset and first use of a record keep the lifecycle invariant. */
module ServiceTurns {
  import opened Options
  import opened ServiceState
  import opened ServiceSteps
  import opened ServiceInvariant
  import opened ServiceFrames
  import opened ServiceLifecycle

  // ----- the end of a run -----------------------------------------------------------------------

  // Run h of conversation c is executing and its record knows it.
  ghost predicate RunsIn(s: State, h: nat, c: ConversationId) {
    && h in s.runs && s.runs[h].identity.conversation == c && s.runs[h].phase.Executing?
    && c in s.convs && s.convs[c].active == Some(h)
    && RunOk(s, h) && ConvOk(s, c) && OwnLinks(s, c) && StageOk(s)
    && s.stage != Done && s.writer.None? && s.convs[c].holder.None?
  }

  lemma RunsFrom(s: State, h: nat)
    requires Lifecycle(s) && h in s.runs && s.runs[h].phase.Executing?
    ensures RunsIn(s, h, s.runs[h].identity.conversation)
  {
    var c := s.runs[h].identity.conversation;
    assert RunOk(s, h);
    OwnFrom(s, c);
  }

  lemma CleanupApart(s: State, h: nat, c: ConversationId)
    requires RunsIn(s, h, c)
    ensures Apart(s, Cleanup(s, h), c)
  {
    hide SameConvs, SameAdmissions, SameRuns, SameRunners, SameIndex, SameLaunches, SameResets, Grown, ConvOk, OwnLinks, StageOk;
    var s' := Cleanup(s, h);
    SameAll(s, c);
    ConvSet(s.convs, c, s'.convs[c]);
    RunSet(s.runs, h, s'.runs[h], c);
    RunnerClosed(s.runners, s.runs[h].runner, c);
    Indexed(s.active, s.launched, s.claims, s.runs[h].identity.runId, h, c);
    SameResetsFrom(s, s', c);
  }

  lemma CleanupConv(s: State, h: nat, c: ConversationId)
    requires RunsIn(s, h, c)
    ensures ConvOk(Cleanup(s, h), c)
  {
    hide OwnLinks, StageOk;
  }

  lemma CleanupUsers(s: State, h: nat, c: ConversationId)
    requires RunsIn(s, h, c) && ActiveOk(s, c, s.convs[c])
    ensures OwnUsers(Cleanup(s, h), c)
  {
    hide ConvOk, OwnRunners, StageOk;
  }

  lemma CleanupRunners(s: State, h: nat, c: ConversationId)
    requires RunsIn(s, h, c)
    ensures OwnRunners(Cleanup(s, h), c) && StageOk(Cleanup(s, h))
  {
    hide ConvOk, OwnUsers;
  }

  lemma CleanupKeeps(s: State, h: nat)
    requires Lifecycle(s)
    ensures Lifecycle(Cleanup(s, h))
  {
    hide Lifecycle, RunsIn, ConvOk, OwnLinks, StageOk, Apart, Own, Cleanup;
    if h in s.runs && s.runs[h].phase.Executing? {
      var c := s.runs[h].identity.conversation;
      RunsFrom(s, h);
      RunsIs(s, h, c);
      CleanupApart(s, h, c);
      CleanupConv(s, h, c);
      CleanupUsers(s, h, c);
      CleanupRunners(s, h, c);
      LinksWhole(Cleanup(s, h), c);
      OwnWhole(Cleanup(s, h), c);
      Combine(s, Cleanup(s, h), c);
    } else {
      CleanupNone(s, h);
    }
  }

  lemma CleanupNone(s: State, h: nat)
    requires !(h in s.runs && s.runs[h].phase.Executing?)
    ensures Cleanup(s, h) == s
  {
  }

  lemma RunsIs(s: State, h: nat, c: ConversationId)
    requires RunsIn(s, h, c)
    ensures c in s.convs && s.convs[c].active.Some? && ActiveOk(s, c, s.convs[c]) && s.convs[c].holder.None?
  {
  }

  // ----- emission and cancellation --------------------------------------------------------------

  // One run changed its phase after cleanup, or its cancel mark together with its record's state.
  function WithRun(s: State, h: nat, run: Run, c: ConversationId, v: Conv): State {
    s.(runs := s.runs[h := run], convs := s.convs[c := v])
  }

  ghost predicate Markable(s: State, h: nat, run: Run, c: ConversationId, v: Conv) {
    && h in s.runs && c in s.convs && s.runs[h].identity.conversation == c
    && run.identity == s.runs[h].identity && run.runner == s.runs[h].runner && run.destination == s.runs[h].destination
    && run.grantedAtLaunch == s.runs[h].grantedAtLaunch && run.resetsAtLaunch == s.runs[h].resetsAtLaunch
    && ConvOk(s, c) && OwnLinks(s, c) && StageOk(s)
    && v.(state := s.convs[c].state) == s.convs[c]
    && ((s.runs[h].phase.Emitting? && run.phase.Finished? && v == s.convs[c] && run.canceling == s.runs[h].canceling)
        || (s.convs[c].active == Some(h) && run.phase == s.runs[h].phase && run.canceling && v.state == Canceling)
        || (s.convs[c].active != Some(h) && run == s.runs[h] && v == s.convs[c]))
  }

  lemma MarkedApart(s: State, h: nat, run: Run, c: ConversationId, v: Conv)
    requires Markable(s, h, run, c, v)
    ensures Apart(s, WithRun(s, h, run, c, v), c)
  {
    hide SameConvs, SameAdmissions, SameRuns, SameRunners, SameIndex, SameLaunches, SameResets, Grown, ConvOk, OwnLinks, StageOk;
    SameAll(s, c);
    ConvSet(s.convs, c, v);
    RunSet(s.runs, h, run, c);
    SameResetsFrom(s, WithRun(s, h, run, c, v), c);
  }

  lemma MarkedConv(s: State, h: nat, run: Run, c: ConversationId, v: Conv)
    requires Markable(s, h, run, c, v)
    ensures ConvOk(WithRun(s, h, run, c, v), c)
  {
    hide OwnLinks, StageOk;
  }

  lemma MarkedLinks(s: State, h: nat, run: Run, c: ConversationId, v: Conv)
    requires Markable(s, h, run, c, v) && (s.convs[c].active.Some? ==> s.convs[c].state != Idle)
    ensures OwnLinks(WithRun(s, h, run, c, v), c) && StageOk(WithRun(s, h, run, c, v))
  {
    hide ConvOk;
  }

  lemma MarkedKeeps(s: State, h: nat, run: Run, c: ConversationId, v: Conv)
    requires Lifecycle(s) && Markable(s, h, run, c, v) && (s.convs[c].active.Some? ==> s.convs[c].state != Idle)
    ensures Lifecycle(WithRun(s, h, run, c, v))
  {
    MarkableIs(s, h, run, c, v);
    hide *;
    var s' := WithRun(s, h, run, c, v);
    MarkedApart(s, h, run, c, v);
    MarkedConv(s, h, run, c, v);
    MarkedLinks(s, h, run, c, v);
    OwnWhole(s', c);
    Combine(s, s', c);
  }

  lemma MarkableIs(s: State, h: nat, run: Run, c: ConversationId, v: Conv)
    requires Markable(s, h, run, c, v)
    ensures c in s.convs
  {
  }

  // A launched run's conversation, and whether its record still points at it.
  lemma RunFacts(s: State, h: nat)
    requires Lifecycle(s) && h in s.runs
    ensures var c := s.runs[h].identity.conversation;
            && c in s.convs && ConvOk(s, c) && OwnLinks(s, c) && StageOk(s)
            && (s.convs[c].active.Some? ==> s.convs[c].state != Idle && s.convs[c].holder.None?)
            && var x := s.runs[h].identity.runId;
               (s.convs[c].active == Some(h) <==> x in s.active && s.active[x] == h)
  {
    var c := s.runs[h].identity.conversation;
    var x := s.runs[h].identity.runId;
    assert RunOk(s, h);
    OwnFrom(s, c);
    if x in s.active { assert IndexOk(s, x); }
  }

  lemma EmitKeeps(s: State, h: nat)
    requires Lifecycle(s)
    ensures Lifecycle(EmitTerminal(s, h))
  {
    hide Lifecycle, ConvOk, OwnLinks, StageOk;
    if h in s.runs && s.runs[h].phase.Emitting? {
      RunFacts(s, h);
      var c := s.runs[h].identity.conversation;
      MarkedKeeps(s, h, s.runs[h].(phase := Finished), c, s.convs[c]);
      assert s.convs[c := s.convs[c]] == s.convs;
    }
  }

  lemma MarkCancelingKeeps(s: State, h: nat)
    requires Lifecycle(s)
    ensures Lifecycle(MarkCanceling(s, h))
  {
    hide Lifecycle, OwnLinks, StageOk, HeldOk, CachedOk, ChallengeOk;
    if h in s.runs {
      RunFacts(s, h);
      var run := s.runs[h];
      var c := run.identity.conversation;
      var v := s.convs[c];
      if v.active == Some(h) {
        MarkedKeeps(s, h, run.(canceling := true), c, v.(state := Canceling));
        assert MarkCanceling(s, h) == WithRun(s, h, run.(canceling := true), c, v.(state := Canceling));
      } else {
        assert s.convs[c := v] == s.convs;
      }
    }
  }

  // ----- reset and first use --------------------------------------------------------------------

  lemma ResetApart(s: State, c: ConversationId, n: nat)
    requires c in s.convs
    ensures Apart(s, s.(resets := s.resets[c := n]), c)
  {
    hide SameConvs, SameAdmissions, SameRuns, SameRunners, SameIndex, SameLaunches, Grown;
    SameAll(s, c);
    ConvSet(s.convs, c, s.convs[c]);
    assert s.convs[c := s.convs[c]] == s.convs;
  }

  lemma ResetOwn(s: State, c: ConversationId, n: nat)
    requires c in s.convs && s.convs[c].active.None? && Own(s, c) && StageOk(s)
    ensures var s' := s.(resets := s.resets[c := n]); Own(s', c) && StageOk(s')
  {
  }

  lemma IncrementKeeps(s: State, c: ConversationId, n: nat)
    requires Lifecycle(s) && c in s.convs && s.convs[c].active.None?
    ensures Lifecycle(s.(resets := s.resets[c := n]))
  {
    hide *;
    OwnFrom(s, c);
    ResetApart(s, c, n);
    ResetOwn(s, c, n);
    Combine(s, s.(resets := s.resets[c := n]), c);
  }

  lemma IdleInactive(s: State, c: ConversationId)
    requires Lifecycle(s) && c in s.convs && s.convs[c].state == Idle
    ensures s.convs[c].active.None? && s.convs[c].holder.None?
  {
    assert ConvOk(s, c);
  }

  lemma TouchConv(s: State, c: ConversationId, k: ConversationId)
    requires c !in s.convs && k in s.convs[c := FRESH_CONV] && (k in s.convs ==> ConvOk(s, k))
    ensures ConvOk(s.(convs := s.convs[c := FRESH_CONV]), k)
  {
  }

  lemma TouchLinks(s: State, c: ConversationId)
    requires c !in s.convs && Links(s) && StageOk(s) && HistoryOk(s)
    ensures var s' := s.(convs := s.convs[c := FRESH_CONV]); Links(s') && StageOk(s') && HistoryOk(s')
  {
  }

  lemma TouchKeeps(s: State, c: ConversationId)
    requires Lifecycle(s) && c !in s.convs
    ensures Lifecycle(s.(convs := s.convs[c := FRESH_CONV]))
  {
    hide Links, StageOk, HistoryOk, ConvOk;
    var s' := s.(convs := s.convs[c := FRESH_CONV]);
    forall k | k in s'.convs ensures ConvOk(s', k) { TouchConv(s, c, k); }
    TouchLinks(s, c);
  }

  lemma ExpireOneKeeps(s: State, c: ConversationId)
    requires Lifecycle(s) && s.Conversation(c).holder.None?
    ensures Lifecycle(ExpireOne(s, c))
  {
    hide Lifecycle;
    if c in s.convs {
      ExpireKeeps(s, c);
    } else {
      TouchKeeps(s, c);
    }
  }

  lemma SaveKeeps(s: State, h: nat)
    requires Lifecycle(s)
    ensures Lifecycle(SaveSession(s, h))
  {
    hide Lifecycle, Links, StageOk, ConvOk, OwnLinks, RunOk, AllIdle;
    if h in s.runs && s.runs[h].phase.Executing? {
      RunsFrom(s, h);
      RunsIs(s, h, s.runs[h].identity.conversation);
      StageAndHistory(s);
      assert HistoryOk(SaveSession(s, h));
      QuietKeeps(s, SaveSession(s, h));
    }
  }

  lemma StageAndHistory(s: State)
    requires Lifecycle(s)
    ensures HistoryOk(s) && (s.writer.Some? ==> s.stage in {Open, Marked})
  {
  }
}
