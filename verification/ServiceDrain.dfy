/** Nothing registered stays for ever: from every state of every run, conversations come free and a shutdown can end. */
module ServiceDrain {
  import opened Options
  import opened ServiceState
  import opened ServiceSteps
  import opened ServiceInvariant
  import opened ServiceAdmissions
  import opened ServiceTurns
  import opened ServiceSafety
  import opened ServiceProgress

  /** A turn whose Run has returned leaves its conversation idle and free for the next. */
  lemma CleanupFrees(s: State, h: nat)
    requires Lifecycle(s) && h in s.runs && s.runs[h].phase.Executing?
    ensures var v := Cleanup(s, h).Conversation(s.runs[h].identity.conversation);
            v.state == Idle && v.active.None? && v.holder.None?
  {
    assert RunOk(s, h);
    assert ConvOk(s, s.runs[h].identity.conversation);
    hide CloseAll, Lifecycle, CachedOk, ChallengeOk;
  }

  // ----- no conversation is wedged --------------------------------------------------------------

  // The section that ends admission t's hold: leave, a failed grant or construction, or the registration.
  ghost function Ending(s: State, t: nat, h: nat): Action
    requires t in s.admissions
  {
    match s.admissions[t].phase
    case Entered => ALeave(t)
    case Granting(_, _, _) => AGrant(t, false)
    case Building(_, _) => ABuild(t, BuildEnv(true, false, 0, false))
    case Built(_, _, _, _) => ARegister(t, h)
  }

  // The admission is over and its conversation released; a launch is the only thing that can have been added.
  ghost predicate Over(s: State, s': State, t: nat)
    requires t in s.admissions
  {
    && s'.admissions == s.admissions - {t} && s'.stage == s.stage && s'.writer == s.writer
    && (s.stage != Open ==> s'.runs == s.runs)
    && var c := s.admissions[t].request.identity.conversation;
       (!s.admissions[t].phase.Entered? ==> c in s'.convs && s'.convs[c].holder.None?)
  }

  lemma LeftOver(s: State, t: nat, h: nat)
    requires t in s.admissions && s.admissions[t].phase.Entered?
    ensures Over(s, Step(s, Ending(s, t, h)), t)
  {
  }

  lemma UngrantedOver(s: State, t: nat, h: nat)
    requires Holds(s, t) && s.admissions[t].phase.Granting?
    ensures Over(s, Step(s, Ending(s, t, h)), t)
  {
  }

  lemma UnconstructedOver(s: State, t: nat, v: Conv, env: BuildEnv)
    requires Holds(s, t) && s.admissions[t].phase.Building? && !env.constructs
    ensures Over(s, Construct(s, t, v, env), t)
  {
  }

  lemma UnbuiltOver(s: State, t: nat, h: nat)
    requires Holds(s, t) && s.admissions[t].phase.Building?
    ensures Over(s, Step(s, Ending(s, t, h)), t)
  {
    var v := s.convs[s.admissions[t].request.identity.conversation];
    var env := BuildEnv(true, false, 0, false);
    var s1 := if v.runner.Some? then s.(runners := CloseAll(s.runners, {v.runner.value})) else s;
    UnconstructedOver(s1, t, DropRunner(v), env);
    UnconstructedOver(s, t, v, env);
    hide CloseAll, Construct, DropRunner;
  }

  lemma RegisteredOver(s: State, t: nat, h: nat)
    requires Holds(s, t) && s.admissions[t].phase.Built? && h !in s.runs
    ensures Over(s, Step(s, Ending(s, t, h)), t)
  {
    if s.Closing() { RolledBackOver(s, t); } else { LaunchOver(s, t, h); }
    hide RolledBack, Registered, Over;
  }

  lemma RolledBackOver(s: State, t: nat)
    requires Holds(s, t) && s.admissions[t].phase.Built?
    ensures Over(s, RolledBack(s, t), t)
  {
    hide CloseAll;
  }

  lemma LaunchOver(s: State, t: nat, h: nat)
    requires Holds(s, t) && s.admissions[t].phase.Built? && s.stage == Open
    ensures Over(s, Registered(s, t, h), t)
  {
  }

  lemma EndingEnds(s: State, t: nat, h: nat)
    requires Lifecycle(s) && t in s.admissions && h !in s.runs
    ensures Over(s, Step(s, Ending(s, t, h)), t) && Lifecycle(Step(s, Ending(s, t, h)))
  {
    hide Lifecycle, Over, Step, Holds;
    StepKeeps(s, Ending(s, t, h));
    if s.admissions[t].phase.Entered? {
      LeftOver(s, t, h);
    } else {
      HoldsFrom(s, t);
      match s.admissions[t].phase
      case Granting(_, _, _) => UngrantedOver(s, t, h);
      case Building(_, _) => UnbuiltOver(s, t, h);
      case Built(_, _, _, _) => RegisteredOver(s, t, h);
    }
  }

  lemma HoldsFrom(s: State, t: nat)
    requires Lifecycle(s) && t in s.admissions && !s.admissions[t].phase.Entered?
    ensures Holds(s, t)
  {
    assert AdmissionOk(s, t);
  }

  // A conversation that the next first request finds idle and free.
  ghost predicate Free(s: State, c: ConversationId) {
    var v := s.Conversation(c);
    v.state == Idle && v.holder.None? && v.active.None? && v.challenge.None?
  }

  // Nobody holds it: it is idle, asking, or running, and one section settles it.
  lemma Settles(s: State, c: ConversationId) returns (actions: seq<Action>)
    requires Lifecycle(s) && s.Conversation(c).holder.None?
    ensures |actions| <= 1 && Free(Reach(s, actions), c)
    ensures Reach(s, actions).stage == s.stage && Reach(s, actions).writer == s.writer
  {
    var v := s.Conversation(c);
    UnheldIs(s, c);
    if v.state == PendingConsent {
      Declines(s, c);
      actions := [ADecline(v.challenge.value.identity)];
      ReachOne(s, actions[0], []);
    } else if v.active.Some? {
      Cleans(s, c);
      actions := [ACleanup(v.active.value)];
      ReachOne(s, actions[0], []);
    } else {
      actions := [];
    }
    hide *;
    assert actions != [] ==> [actions[0]] + [] == actions;
  }

  lemma UnheldIs(s: State, c: ConversationId)
    requires Lifecycle(s) && s.Conversation(c).holder.None?
    ensures var v := s.Conversation(c);
            && v.state != Starting && (v.state == PendingConsent <==> v.challenge.Some?)
            && ((v.state == Running || v.state == Canceling) <==> v.active.Some?)
  {
    assert c in s.convs ==> ConvOk(s, c);
    hide Lifecycle;
  }

  lemma Declines(s: State, c: ConversationId)
    requires Lifecycle(s) && s.Conversation(c).holder.None? && s.Conversation(c).state == PendingConsent
    requires s.Conversation(c).challenge.Some?
    ensures var s' := Step(s, ADecline(s.Conversation(c).challenge.value.identity));
            Free(s', c) && s'.stage == s.stage && s'.writer == s.writer
  {
    PendingIs(s, c);
    hide Lifecycle;
  }

  lemma PendingIs(s: State, c: ConversationId)
    requires Lifecycle(s) && s.Conversation(c).holder.None? && s.Conversation(c).state == PendingConsent
    ensures var ch := s.Conversation(c).challenge;
            ch.Some? && ch.value.identity.conversation == c && ch.value.identity.runId !in s.active && s.Conversation(c).active.None?
  {
    assert ConvOk(s, c);
    var x := s.Conversation(c).challenge.value.identity.runId;
    assert x in s.active ==> IndexOk(s, x);
    hide CachedOk, HeldOk, OwnerOk;
  }

  lemma Cleans(s: State, c: ConversationId)
    requires Lifecycle(s) && s.Conversation(c).active.Some?
    ensures var s' := Step(s, ACleanup(s.Conversation(c).active.value));
            Free(s', c) && s'.stage == s.stage && s'.writer == s.writer
  {
    var h := s.Conversation(c).active.value;
    ActiveIs(s, c);
    var s' := Cleanup(s, h);
    hide *;
    StepCleans(s, h);
    CleanupFrees(s, h);
    CleanupRest(s, h);
    CleanupKeeps(s, h);
    UnheldIs(s', c);
    FreeIs(s', c);
  }

  lemma StepCleans(s: State, h: nat)
    ensures Step(s, ACleanup(h)) == Cleanup(s, h)
  {
    hide Cleanup;
  }

  lemma ActiveIs(s: State, c: ConversationId)
    requires Lifecycle(s) && s.Conversation(c).active.Some?
    ensures var h := s.Conversation(c).active.value;
            h in s.runs && s.runs[h].phase.Executing? && s.runs[h].identity.conversation == c
  {
    assert ConvOk(s, c);
    hide Lifecycle;
  }

  lemma FreeIs(s: State, c: ConversationId)
    requires var v := s.Conversation(c); v.state == Idle && v.holder.None? && v.active.None? && v.challenge.None?
    ensures Free(s, c)
  {
  }

  lemma CleanupRest(s: State, h: nat)
    ensures var s' := Cleanup(s, h); s'.stage == s.stage && s'.admissions == s.admissions && s'.writer == s.writer
  {
    hide CloseAll, Vacated, Unindexed;
  }

  /**
   Whatever a run did, at most two sections bring any conversation back to idle and free: the end of the admission that
   holds it, then its decline or the end of its turn.
   */
  lemma NoConversationIsWedged(s0: State, before: seq<Action>, c: ConversationId) returns (after: seq<Action>)
    requires Init(s0)
    ensures |after| <= 2 && Free(Reach(s0, before + after), c)
    ensures Reach(s0, before + after).stage == Reach(s0, before).stage
  {
    var s := Reach(s0, before);
    LifecycleHolds(s0, before);
    if s.Conversation(c).holder.Some? {
      var t := s.Conversation(c).holder.value;
      HolderIs(s, c);
      var h := Unused(s.runs.Keys);
      EndingEnds(s, t, h);
      var rest := Settles(Step(s, Ending(s, t, h)), c);
      after := [Ending(s, t, h)] + rest;
      ReachOne(s, Ending(s, t, h), rest);
    } else {
      after := Settles(s, c);
    }
    ReachAppend(s0, before, after);
  }

  lemma HolderIs(s: State, c: ConversationId)
    requires Lifecycle(s) && s.Conversation(c).holder.Some?
    ensures var t := s.Conversation(c).holder.value;
            t in s.admissions && !s.admissions[t].phase.Entered? && s.admissions[t].request.identity.conversation == c
  {
    assert ConvOk(s, c);
    hide Lifecycle;
  }

  lemma Unused(used: set<nat>) returns (n: nat)
    ensures n !in used
  {
    var left := used;
    n := 0;
    while left != {}
      invariant forall x :: x in used && x !in left ==> x < n
    {
      var x :| x in left;
      left := left - {x};
      n := if x < n then n else x + 1;
    }
  }

  // ----- shutdown -------------------------------------------------------------------------------

  // Everything registered drains: admissions end one by one, then the write, then the turns.
  ghost predicate Drained(s: State, s': State) {
    s'.stage == s.stage && Lifecycle(s')
  }

  lemma {:induction false} DrainAdmissions(s: State) returns (actions: seq<Action>)
    requires Lifecycle(s) && s.stage != Open
    ensures Drained(s, Reach(s, actions)) && Reach(s, actions).admissions == map[]
    decreases s.admissions.Keys
  {
    actions := [];
    if s.admissions != map[] {
      var t :| t in s.admissions;
      var h := Unused(s.runs.Keys);
      EndingEnds(s, t, h);
      var a := Ending(s, t, h);
      assert Step(s, a).admissions == s.admissions - {t} && Step(s, a).stage == s.stage;
      assert t !in Step(s, a).admissions;
      var rest := DrainAdmissions(Step(s, a));
      ReachOne(s, a, rest);
      actions := [a] + rest;
    }
  }

  lemma DrainWriter(s: State) returns (actions: seq<Action>)
    requires Lifecycle(s) && s.admissions == map[]
    ensures var s' := Reach(s, actions); Drained(s, s') && s'.admissions == map[] && s'.writer.None?
  {
    actions := [];
    if s.writer.Some? {
      var a := ASaveWrite(false, None, false);
      StepKeeps(s, a);
      Unsaved(s);
      ReachOne(s, a, []);
      actions := [a];
      assert [a] + [] == [a];
    }
    hide *;
  }

  lemma Unsaved(s: State)
    ensures var s' := Step(s, ASaveWrite(false, None, false)); s'.writer.None? && s'.stage == s.stage && s'.admissions == s.admissions
  {
  }

  ghost function Unfinished(s: State): set<nat> { set h | h in s.runs && !s.runs[h].phase.Finished? }

  // Two sections finish a run: cleanup, then the terminal event.
  lemma FinishesRun(s: State, h: nat) returns (s': State)
    requires Lifecycle(s) && h in Unfinished(s)
    ensures s' == Reach(s, [ACleanup(h), AEmit(h)]) && Lifecycle(s')
    ensures Unfinished(s') == Unfinished(s) - {h}
    ensures s'.stage == s.stage && s'.admissions == s.admissions && s'.writer == s.writer
  {
    var s1 := Cleanup(s, h);
    s' := EmitTerminal(s1, h);
    hide *;
    CleanupKeeps(s, h);
    EmitKeeps(s1, h);
    CleanupRest(s, h);
    CleanupRuns(s, h);
    EmitRest(s1, h);
    StepCleans(s, h);
    StepEmits(s1, h);
    ReachOne(s, ACleanup(h), [AEmit(h)]);
    ReachOne(s1, AEmit(h), []);
    ReachNone(s');
    assert [ACleanup(h)] + [AEmit(h)] == [ACleanup(h), AEmit(h)] && [AEmit(h)] + [] == [AEmit(h)];
  }

  lemma ReachNone(s: State)
    ensures Reach(s, []) == s
  {
  }

  lemma StepEmits(s: State, h: nat)
    ensures Step(s, AEmit(h)) == EmitTerminal(s, h)
  {
    hide EmitTerminal;
  }

  lemma CleanupRuns(s: State, h: nat)
    requires Lifecycle(s) && h in Unfinished(s)
    ensures var s' := Cleanup(s, h); h in s'.runs && s'.runs[h].phase.Emitting? && Unfinished(s') == Unfinished(s)
  {
    hide Cleanup, Lifecycle;
    if s.runs[h].phase.Executing? {
      ExecutingFree(s, h);
      CleanupEmits(s, h);
    } else {
      CleanupNone(s, h);
    }
  }

  lemma ExecutingFree(s: State, h: nat)
    requires Lifecycle(s) && h in s.runs && s.runs[h].phase.Executing?
    ensures s.Conversation(s.runs[h].identity.conversation).holder.None?
  {
    hide Lifecycle, RunsIn;
    RunsFrom(s, h);
    RunsIs(s, h, s.runs[h].identity.conversation);
  }

  lemma CleanupEmits(s: State, h: nat)
    requires h in s.runs && s.runs[h].phase.Executing? && s.Conversation(s.runs[h].identity.conversation).holder.None?
    ensures Cleanup(s, h).runs == s.runs[h := s.runs[h].(phase := Emitting)]
  {
    hide CloseAll, Vacated, Unindexed;
  }

  lemma EmitRest(s: State, h: nat)
    requires h in s.runs && s.runs[h].phase.Emitting?
    ensures var s' := EmitTerminal(s, h);
            Unfinished(s') == Unfinished(s) - {h} && s'.stage == s.stage && s'.admissions == s.admissions && s'.writer == s.writer
  {
  }

  lemma {:induction false} DrainRuns(s: State) returns (actions: seq<Action>)
    requires Lifecycle(s) && s.admissions == map[] && s.writer.None?
    ensures var s' := Reach(s, actions); Drained(s, s') && Quiet(s')
    decreases Unfinished(s)
  {
    hide Lifecycle, Step;
    actions := [];
    if Unfinished(s) != {} {
      var h :| h in Unfinished(s);
      var s1 := FinishesRun(s, h);
      var rest := DrainRuns(s1);
      ReachAppend(s, [ACleanup(h), AEmit(h)], rest);
      actions := [ACleanup(h), AEmit(h)] + rest;
    } else {
      NoneUnfinished(s);
    }
    hide Reach;
  }

  lemma NoneUnfinished(s: State)
    requires Unfinished(s) == {}
    ensures forall h :: h in s.runs ==> s.runs[h].phase.Finished?
  {
    forall h | h in s.runs ensures s.runs[h].phase.Finished? { assert h !in Unfinished(s); }
  }

  lemma Drains(s: State) returns (actions: seq<Action>)
    requires Lifecycle(s) && s.stage != Open
    ensures Quiet(Reach(s, actions)) && Reach(s, actions).stage == s.stage
  {
    hide Lifecycle, Quiet, Reach;
    var first := DrainAdmissions(s);
    var s1 := Reach(s, first);
    var second := DrainWriter(s1);
    var s2 := Reach(s1, second);
    var third := DrainRuns(s2);
    ReachAppend(s, first, second);
    ReachAppend(s, first + second, third);
    actions := first + second + third;
  }

  /** From every state a run can be in once closing, some sections end the shutdown: whatever was registered can drain. */
  lemma ShutdownCanEnd(s0: State, before: seq<Action>) returns (after: seq<Action>)
    requires Init(s0) && Reach(s0, before).stage != Open
    ensures Reach(s0, before + after).stage == Done
  {
    var s := Reach(s0, before);
    LifecycleHolds(s0, before);
    hide Lifecycle, Quiet, Reach, Init;
    var drain := Drains(s);
    var q := Reach(s, drain);
    var last := LastSections(q);
    ReachAppend(s, drain, last);
    ReachAppend(s0, before, drain + last);
    after := drain + last;
  }

  // Once everything registered is done, at most two sections are left.
  lemma LastSections(s: State) returns (last: seq<Action>)
    requires s.stage != Open && Quiet(s)
    ensures Reach(s, last).stage == Done
  {
    hide Quiet, Step;
    if s.stage == Marked {
      last := [ARetireFinal, AFinish];
      RetireFinalRetires(s);
      RetireFinalQuiet(s);
      ReachOne(s, ARetireFinal, [AFinish]);
      StepEnds(s);
      FinishesLast(RetireFinal(s));
      assert [ARetireFinal] + [AFinish] == last;
    } else if s.stage == Retired {
      last := [AFinish];
      FinishesLast(s);
    } else {
      last := [];
    }
    hide *;
  }

  lemma StepEnds(s: State)
    ensures Step(s, ARetireFinal) == RetireFinal(s) && Step(s, AFinish) == Finish(s)
  {
    hide RetireFinal, Finish;
  }

  lemma FinishesLast(s: State)
    requires s.stage == Retired && Quiet(s)
    ensures Reach(s, [AFinish]).stage == Done
  {
    hide Quiet, Step, Finish;
    FinishEnds(s);
    StepEnds(s);
    ReachOne(s, AFinish, []);
    assert [AFinish] + [] == [AFinish];
  }

  lemma RetireFinalRetires(s: State)
    requires s.stage == Marked && Quiet(s)
    ensures RetireFinal(s).stage == Retired
  {
    QuietGate(s);
    var s1 := s.(stage := Retired, binding := None);
    hide Quiet, KeepOrphans;
    if s.binding.Some? { KeepOrphansStage(s1, s.binding.value.epoch); }
  }

  lemma QuietGate(s: State)
    requires Quiet(s)
    ensures s.GateFree()
  {
  }

  lemma KeepOrphansStage(s: State, epoch: nat)
    ensures KeepOrphans(s, epoch).stage == s.stage
  {
  }

  lemma KeepOrphansQuiet(s: State, epoch: nat)
    requires Quiet(s)
    ensures Quiet(KeepOrphans(s, epoch))
  {
  }

  lemma RetireFinalQuiet(s: State)
    requires s.stage == Marked && Quiet(s)
    ensures Quiet(RetireFinal(s))
  {
    QuietGate(s);
    var s1 := s.(stage := Retired, binding := None);
    assert Quiet(s1);
    hide Quiet, KeepOrphans;
    if s.binding.Some? { KeepOrphansQuiet(s1, s.binding.value.epoch); }
  }

  lemma FinishEnds(s: State)
    requires s.stage == Retired && Quiet(s)
    ensures Finish(s).stage == Done
  {
    hide CloseAll, CachedRunners;
  }
}
