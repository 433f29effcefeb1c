/** The steps that hold the binding gate's write side keep the lifecycle invariant. */
module ServiceWriters {
  import opened Options
  import opened ServiceState
  import opened ServiceSteps
  import opened ServiceInvariant
  import opened ServiceLifecycle

  // With no admission holding anything, records may lose idle runners, which are closed or orphaned.
  ghost predicate Swept(s: State, s': State, closing: set<nat>) {
    && s.Unread() && s'.admissions == s.admissions && s'.runs == s.runs && s'.active == s.active
    && s'.claims == s.claims && s'.launched == s.launched && s'.resets == s.resets && s'.saves == s.saves
    && s'.runners == CloseAll(s.runners, closing) && s.orphans == map[]
    && s'.convs.Keys == s.convs.Keys
    && (forall c :: c in s.convs ==> SweptConv(s, s', c))
    && (forall r :: r in closing ==> Released(s, s', r))
  }

  // A record keeps its run; its runner, if dropped, is an orphan or closed.
  ghost predicate SweptConv(s: State, s': State, c: ConversationId)
    requires c in s.convs && s'.convs.Keys == s.convs.Keys
  {
    var v, v' := s.convs[c], s'.convs[c];
    && v'.holder == v.holder && v'.active == v.active && (v.state == Idle ==> v'.state == Idle)
    && (v'.runner == v.runner
        || (v'.runner.None? && v.runner.Some? && v.active.None?
            && ((v.runner.value in s'.runners && s'.runners[v.runner.value].closed) || (c in s'.orphans && s'.orphans[c] == v.runner.value))))
  }

  // A closing runner was some record's idle runner.
  ghost predicate Released(s: State, s': State, r: nat) {
    && r in s.runners
    && var c := s.runners[r].conversation;
       c in s.convs && s.convs[c].runner == Some(r) && s.convs[c].active.None? && c in s'.convs && s'.convs[c].runner.None?
  }

  lemma SweptRuns(s: State, s': State, closing: set<nat>)
    requires Swept(s, s', closing) && Links(s)
    ensures (forall t :: t in s'.admissions ==> AdmissionOk(s', t))
    ensures (forall h :: h in s'.runs ==> RunOk(s', h))
    ensures (forall x :: x in s'.active ==> IndexOk(s', x))
  {
    hide OwnerOk, OrphanOk, Released;
  }

  lemma SweptOwner(s: State, s': State, closing: set<nat>, r: nat)
    requires Swept(s, s', closing) && r in s.runners && OwnerOk(s, r)
    requires s.runners[r].conversation in s.convs ==> ConvOk(s, s.runners[r].conversation)
    ensures OwnerOk(s', r)
  {
    assert !s.runners[r].closed ==> SweptConv(s, s', s.runners[r].conversation);
  }

  lemma SweptLinks(s: State, s': State, closing: set<nat>)
    requires Swept(s, s', closing) && Lifecycle(s)
    requires forall c :: c in s'.orphans ==> OrphanOk(s', c)
    ensures Links(s') && HistoryOk(s')
  {
    hide AdmissionOk, RunOk, IndexOk, OrphanOk, ConvOk, StageOk, Released, SweptConv, OwnerOk;
    SweptRuns(s, s', closing);
    forall r | r in s'.runners ensures OwnerOk(s', r) { SweptOwner(s, s', closing, r); }
  }

  // ----- expiry scans ---------------------------------------------------------------------------

  function Expired(s: State, visited: set<ConversationId>): State { s.(convs := ExpireIn(s.convs, visited, s.now)) }

  lemma ExpiredConv(s: State, visited: set<ConversationId>, c: ConversationId)
    requires c in s.convs && ConvOk(s, c) && s.convs[c].holder.None?
    ensures ConvOk(Expired(s, visited), c)
  {
  }

  lemma Unheld(s: State, c: ConversationId)
    requires Lifecycle(s) && c in s.convs && s.Unread()
    ensures s.convs[c].holder.None? && ConvOk(s, c)
  {
    assert ConvOk(s, c);
  }

  lemma ExpiredSwept(s: State, visited: set<ConversationId>)
    requires s.Unread()
    ensures var s' := Expired(s, visited);
            && s'.convs.Keys == s.convs.Keys
            && forall c :: c in s.convs ==> SameOwners(s.convs[c], s'.convs[c])
  {
  }

  lemma ExpiredLinks(s: State, visited: set<ConversationId>)
    requires Lifecycle(s) && s.Unread() && s.writer.None?
    ensures var s' := Expired(s, visited); Links(s') && StageOk(s') && HistoryOk(s')
  {
    hide ConvOk, ExpireIn;
    ExpiredSwept(s, visited);
  }

  lemma ExpiredKeeps(s: State, visited: set<ConversationId>)
    requires Lifecycle(s) && s.GateFree()
    ensures Lifecycle(Expired(s, visited))
  {
    hide Links, StageOk, HistoryOk, ConvOk, ExpireIn;
    var s' := Expired(s, visited);
    ExpiredSwept(s, visited);
    ExpiredLinks(s, visited);
    forall c | c in s'.convs ensures ConvOk(s', c) {
      Unheld(s, c);
      ExpiredConv(s, visited, c);
    }
  }

  lemma ScanKeeps(s: State, visited: set<ConversationId>)
    requires Lifecycle(s) && s.GateFree()
    ensures Lifecycle(Scan(s, visited).1) && Scan(s, visited).1.GateFree()
    ensures !Scan(s, visited).0 ==> AllIdle(Scan(s, visited).1.convs)
    ensures var s' := Scan(s, visited).1; s' == s.(convs := s'.convs)
  {
    hide Lifecycle, ExpireIn;
    ExpiredKeeps(s, visited);
    ExpiredKeeps(s, s.convs.Keys);
  }

  // ----- retirement of an incarnation -----------------------------------------------------------

  lemma IdleRunnersAre(s: State, epoch: nat, r: nat)
    requires Lifecycle(s)
    ensures r in IdleRunners(s.convs, epoch).Values <==>
              r in s.runners && s.runners[r].conversation in s.convs
              && var v := s.convs[s.runners[r].conversation]; v.runner == Some(r) && v.runnerEpoch == epoch && v.active.None?
  {
    var idle := IdleRunners(s.convs, epoch);
    if r in idle.Values {
      var c :| c in idle && idle[c] == r;
      assert ConvOk(s, c);
    } else if r in s.runners && s.runners[r].conversation in s.convs {
      var c := s.runners[r].conversation;
      assert c in idle && idle[c] == s.convs[c].runner.value ==> idle[c] in idle.Values;
    }
  }

  lemma NoOrphans(s: State)
    requires Lifecycle(s) && s.stage != Retired
    ensures s.orphans == map[]
  {
    assert forall c :: c in s.orphans ==> OrphanOk(s, c);
  }

  // The incarnation `epoch` ended: its challenges are gone, its idle runners closed or kept for the sweep.
  ghost predicate Ended(s: State, s': State, epoch: nat) {
    var idle := IdleRunners(s.convs, epoch);
    && s.GateFree() && Current(s, epoch) && s.stage in {Open, Marked}
    && s' == s.(convs := RetireConvs(s.convs, epoch), runners := s'.runners, orphans := s'.orphans,
                binding := s'.binding, nextEpoch := s'.nextEpoch, stage := s'.stage)
    && (s'.binding.Some? ==> s'.binding.value.epoch == s'.nextEpoch && s'.nextEpoch == s.nextEpoch + 1)
    && ((s'.stage == s.stage && s'.runners == CloseAll(s.runners, idle.Values) && s'.orphans == s.orphans)
        || (s'.stage == Retired && s'.binding.None? && s'.runners == s.runners && s'.orphans == idle))
  }

  lemma EndedConv(s: State, s': State, epoch: nat, c: ConversationId)
    requires Lifecycle(s) && Ended(s, s', epoch) && c in s.convs
    ensures ConvOk(s', c)
  {
    hide Links, HistoryOk, IdleRunners, Lifecycle;
    Unheld(s, c);
    StageFrom(s);
    if s.convs[c].runner.Some? { IdleRunnersAre(s, epoch, s.convs[c].runner.value); }
  }

  lemma StageFrom(s: State)
    requires Lifecycle(s)
    ensures StageOk(s)
  {
  }

  lemma EndedSweptConv(s: State, s': State, epoch: nat, c: ConversationId)
    requires Lifecycle(s) && Ended(s, s', epoch) && c in s.convs
    ensures SweptConv(s, s', c)
  {
    hide Links, HistoryOk, StageOk, Lifecycle;
    Unheld(s, c);
    var idle := IdleRunners(s.convs, epoch);
    if c in idle { assert idle[c] in idle.Values; }
  }

  lemma EndedOrphan(s: State, s': State, epoch: nat, c: ConversationId)
    requires Lifecycle(s) && Ended(s, s', epoch) && s'.stage == Retired && c in s'.orphans
    ensures OrphanOk(s', c)
  {
    hide Links, HistoryOk, StageOk, Lifecycle;
    Unheld(s, c);
  }

  lemma EndedReleased(s: State, s': State, epoch: nat, r: nat)
    requires Lifecycle(s) && Ended(s, s', epoch) && r in IdleRunners(s.convs, epoch).Values
    ensures Released(s, s', r)
  {
    IdleRunnersAre(s, epoch, r);
    hide Lifecycle, IdleRunners;
  }

  lemma EndedSwept(s: State, s': State, epoch: nat)
    requires Lifecycle(s) && Ended(s, s', epoch)
    ensures Swept(s, s', if s'.stage == Retired then {} else IdleRunners(s.convs, epoch).Values)
    ensures forall c :: c in s'.orphans ==> OrphanOk(s', c)
  {
    hide Lifecycle, SweptConv, Released, OrphanOk, IdleRunners;
    NoOrphans(s);
    forall c | c in s.convs ensures SweptConv(s, s', c) { EndedSweptConv(s, s', epoch, c); }
    forall r | r in IdleRunners(s.convs, epoch).Values ensures Released(s, s', r) { EndedReleased(s, s', epoch, r); }
    forall c | c in s'.orphans ensures OrphanOk(s', c) { EndedOrphan(s, s', epoch, c); }
    if s'.stage == Retired { assert CloseAll(s.runners, {}) == s.runners; }
  }

  lemma EndedKeeps(s: State, s': State, epoch: nat)
    requires Lifecycle(s) && Ended(s, s', epoch)
    ensures Lifecycle(s')
  {
    hide Links, HistoryOk, ConvOk, Swept, IdleRunners;
    EndedSwept(s, s', epoch);
    SweptLinks(s, s', if s'.stage == Retired then {} else IdleRunners(s.convs, epoch).Values);
    forall c | c in s'.convs ensures ConvOk(s', c) { EndedConv(s, s', epoch, c); }
  }

  lemma BindKeeps(s: State, root: string)
    requires Lifecycle(s)
    ensures Lifecycle(Bind(s, root))
  {
    hide Lifecycle, IdleRunners, RetireConvs;
    StageFrom(s);
    if s.GateFree() && !s.Closing() && s.binding.Some? && s.binding.value.root != root {
      EndedKeeps(s, Bind(s, root), s.binding.value.epoch);
    } else if s.GateFree() && !s.Closing() && s.binding.None? {
      FirstBindKeeps(s, root);
    }
  }
  lemma FirstBindKeeps(s: State, root: string)
    requires Lifecycle(s) && s.binding.None? && s.GateFree() && !s.Closing()
    ensures Lifecycle(s.(nextEpoch := s.nextEpoch + 1, binding := Some(Binding(root, s.nextEpoch + 1))))
  {
    hide Links, HistoryOk, ConvOk;
    var s' := s.(nextEpoch := s.nextEpoch + 1, binding := Some(Binding(root, s.nextEpoch + 1)));
    forall c | c in s'.convs ensures ConvOk(s', c) { FirstBindConv(s, s', c); }
    FirstBindLinks(s, s');
  }

  lemma FirstBindConv(s: State, s': State, c: ConversationId)
    requires Lifecycle(s) && s.binding.None? && s.Unread() && c in s.convs
    requires s' == s.(nextEpoch := s'.nextEpoch, binding := s'.binding)
    ensures ConvOk(s', c)
  {
    hide Lifecycle;
    Unheld(s, c);
  }

  lemma FirstBindLinks(s: State, s': State)
    requires Lifecycle(s) && s' == s.(nextEpoch := s'.nextEpoch, binding := s'.binding)
    ensures Links(s') && HistoryOk(s')
  {
    hide ConvOk, StageOk;
  }

  lemma UnbindKeeps(s: State)
    requires Lifecycle(s)
    ensures Lifecycle(Unbind(s))
  {
    hide Lifecycle, IdleRunners, RetireConvs;
    StageFrom(s);
    if s.GateFree() && !s.Closing() && s.binding.Some? {
      EndedKeeps(s, Unbind(s), s.binding.value.epoch);
    }
  }

  lemma RetireFinalKeeps(s: State)
    requires Lifecycle(s)
    ensures Lifecycle(RetireFinal(s))
  {
    hide Lifecycle, IdleRunners, RetireConvs;
    StageFrom(s);
    if s.stage == Marked && s.GateFree() {
      if s.binding.Some? {
        EndedKeeps(s, RetireFinal(s), s.binding.value.epoch);
      } else {
        RetireUnboundKeeps(s);
      }
    }
  }

  lemma RetireUnboundKeeps(s: State)
    requires Lifecycle(s) && s.stage == Marked && s.GateFree() && s.binding.None?
    ensures Lifecycle(s.(stage := Retired, binding := None))
  {
    hide Lifecycle, AllIdle;
    QuietKeeps(s, s.(stage := Retired, binding := None));
  }

  // ----- publication and the last sweep ---------------------------------------------------------

  // Every record was idle and lost its cached runner; a new snapshot may have been published.
  ghost predicate Emptied(s: State, s': State) {
    && s.Unread() && AllIdle(s.convs) && s.orphans == map[] && s.stage in {Open, Marked}
    && s' == s.(convs := s'.convs, runners := s'.runners, config := s'.config, writer := s'.writer)
    && s'.runners == CloseAll(s.runners, CachedRunners(s.convs))
    && s'.convs == (map c | c in s.convs :: DropRunner(s.convs[c]))
    && s'.writer.None?
    && (s'.config.snapshot.Some? ==> s'.config.snapshot.value.epoch == s'.config.epoch)
  }

  lemma CachedRunnersAre(s: State, r: nat)
    requires Lifecycle(s)
    ensures r in CachedRunners(s.convs) <==>
              r in s.runners && s.runners[r].conversation in s.convs && s.convs[s.runners[r].conversation].runner == Some(r)
  {
    if r in CachedRunners(s.convs) {
      var c :| c in s.convs && s.convs[c].runner.Some? && s.convs[c].runner.value == r;
      assert ConvOk(s, c);
    }
  }

  lemma EmptiedConv(s: State, s': State, c: ConversationId)
    requires Lifecycle(s) && Emptied(s, s') && c in s.convs
    ensures ConvOk(s', c)
  {
    hide Links, HistoryOk, StageOk, Lifecycle, CachedRunners, CloseAll;
    Unheld(s, c);
  }

  lemma EmptiedSwept(s: State, s': State)
    requires Lifecycle(s) && Emptied(s, s')
    ensures Swept(s, s', CachedRunners(s.convs))
  {
    hide Lifecycle, CachedRunners;
    forall c | c in s.convs ensures SweptConv(s, s', c) {
      Unheld(s, c);
      if s.convs[c].runner.Some? { CachedRunnersAre(s, s.convs[c].runner.value); }
    }
    forall r | r in CachedRunners(s.convs) ensures Released(s, s', r) {
      CachedRunnersAre(s, r);
      Unheld(s, s.runners[r].conversation);
    }
  }

  lemma EmptiedKeeps(s: State, s': State)
    requires Lifecycle(s) && Emptied(s, s')
    ensures Lifecycle(s')
  {
    hide Links, HistoryOk, ConvOk, Swept, CachedRunners, OrphanOk;
    EmptiedSwept(s, s');
    SweptLinks(s, s', CachedRunners(s.convs));
    forall c | c in s'.convs ensures ConvOk(s', c) { EmptiedConv(s, s', c); }
  }

  lemma FinishedConv(s: State, c: ConversationId)
    requires Lifecycle(s) && s.stage == Retired && Quiet(s) && c in s.convs
    ensures ConvOk(Finish(s), c)
  {
    hide HistoryOk, CachedRunners, CloseAll, OwnerOk, OrphanOk, IndexOk, AdmissionOk;
    assert ConvOk(s, c);
  }

  lemma Closes(m: map<nat, Runner>, closing: set<nat>, r: nat)
    requires r in m && (m[r].closed || r in closing)
    ensures r in CloseAll(m, closing) && CloseAll(m, closing)[r].closed
  {
  }

  // At shutdown a live runner is cached or kept for the sweep.
  lemma LastOwner(s: State, r: nat)
    requires Lifecycle(s) && s.admissions == map[] && r in s.runners && !s.runners[r].closed
    ensures r in CachedRunners(s.convs) || r in s.orphans.Values
  {
    hide HistoryOk, StageOk, ConvOk, OrphanOk, IndexOk, RunOk, AdmissionOk;
    assert OwnerOk(s, r);
    var c := s.runners[r].conversation;
    if s.convs[c].runner != Some(r) { assert s.orphans[c] in s.orphans.Values; }
  }

  lemma FinishIs(s: State)
    requires s.stage == Retired && Quiet(s)
    ensures Finish(s).runners == CloseAll(CloseAll(s.runners, CachedRunners(s.convs)), s.orphans.Values)
    ensures s.admissions == map[]
  {
    hide CloseAll, CachedRunners;
  }

  lemma FinishedRunner(s: State, r: nat)
    requires Lifecycle(s) && s.stage == Retired && Quiet(s) && r in s.runners
    ensures r in Finish(s).runners && Finish(s).runners[r].closed
  {
    hide *;
    FinishIs(s);
    var cached := CachedRunners(s.convs);
    CloseAllKeeps(s.runners, cached);
    if !s.runners[r].closed { LastOwner(s, r); }
    if s.runners[r].closed || r in cached { Closes(s.runners, cached, r); }
    Closes(CloseAll(s.runners, cached), s.orphans.Values, r);
  }

  lemma FinishedLinks(s: State)
    requires Lifecycle(s) && s.stage == Retired && Quiet(s)
    ensures Links(Finish(s))
  {
    hide HistoryOk, StageOk, ConvOk, OrphanOk, CachedRunners, CloseAll;
    CloseAllKeeps(s.runners, CachedRunners(s.convs));
    CloseAllKeeps(CloseAll(s.runners, CachedRunners(s.convs)), s.orphans.Values);
    forall r | r in Finish(s).runners ensures OwnerOk(Finish(s), r) { FinishedRunner(s, r); }
  }

  lemma CloseAllKeeps(m: map<nat, Runner>, closing: set<nat>)
    ensures var m' := CloseAll(m, closing);
            && m'.Keys == m.Keys
            && forall r :: r in m ==> m'[r].conversation == m[r].conversation && m'[r].target == m[r].target
  {
  }

  lemma FinishKeeps(s: State)
    requires Lifecycle(s)
    ensures Lifecycle(Finish(s))
  {
    hide Links, ConvOk, CachedRunners, CloseAll;
    if s.stage == Retired && Quiet(s) {
      FinishedLinks(s);
      forall c | c in Finish(s).convs ensures ConvOk(Finish(s), c) { FinishedConv(s, c); }
      CloseAllKeeps(s.runners, CachedRunners(s.convs));
      CloseAllKeeps(CloseAll(s.runners, CachedRunners(s.convs)), s.orphans.Values);
      forall r | r in Finish(s).runners ensures Finish(s).runners[r].closed { FinishedRunner(s, r); }
    }
  }
}
