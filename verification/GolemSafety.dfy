/** Safety of the two-window handoff over every run. */
module GolemSafety {
  import opened Options
  import opened GolemWindow
  import opened GolemSystem

  // ----- the runtime and its observer -----------------------------------------------------------

  // Observing holds exactly while one observer of the current retirement is outstanding.
  ghost predicate ObserverOk(s: System) {
    s.observers == if s.w.observing then [Observer(s.w.retiringId, s.w.retiringInstance, s.w.retiringHandoff)] else []
  }

  // What the current closing has recorded.
  ghost predicate TransferOk(s: System) {
    s.w.phase == Closing && !s.w.closeAuthorized ==>
      && (s.w.transferId != 0 ==> s.draft == Some(s.w.transferId))
      && (s.w.transferAcked ==> s.w.transferId != 0 && s.ack == Some((s.w.transferId, true)))
  }

  ghost predicate AuthorizationOk(e: Authorization) {
    && e.handle != 0
    && (e.wasReady ==> e.phase == Closing && e.draft.Some? && e.ack == Some((e.draft.value, true)))
    && (!e.wasReady ==> e.phase == Bootstrapping || e.phase == Bootstrapped)
  }

  ghost predicate Increasing(xs: seq<nat>, top: nat) {
    && (forall i, j :: 0 <= i < j < |xs| ==> xs[i] < xs[j])
    && (forall i :: 0 <= i < |xs| ==> 0 < xs[i] <= top)
  }

  // ----- history --------------------------------------------------------------------------------

  ghost predicate NumbersOk(s: System) {
    && Increasing(s.instances, s.w.instanceSeq) && Increasing(s.handoffs, s.w.handoffSeq)
    && (forall i :: i in s.ready ==> 0 < i <= s.w.instanceSeq)
    && (s.w.phase != Closed ==> (s.w.undocked <==> s.w.instance in s.ready))
    && (forall i :: i in s.returned ==> i in s.ready)
  }

  ghost predicate AuthorizationsOk(s: System) {
    && (forall k :: 0 <= k < |s.authorizations| ==>
          && AuthorizationOk(s.authorizations[k])
          && 0 < s.authorizations[k].instance <= s.w.instanceSeq
          && (s.authorizations[k].instance == s.w.instance ==> s.w.closeAuthorized))
    && (forall j, k :: 0 <= j < k < |s.authorizations| ==> s.authorizations[j].instance != s.authorizations[k].instance)
    && (s.w.closeAuthorized ==> Authorized(s, s.w.instance))
  }

  // Instance i got a close authorization that knew whether it had been ready.
  ghost predicate Authorized(s: System, i: nat) {
    exists k :: 0 <= k < |s.authorizations| && s.authorizations[k].instance == i && (s.authorizations[k].wasReady <==> i in s.ready)
  }

  // An instance that ever was ready retires only after an acknowledged close.
  ghost predicate RetiredOk(s: System) {
    && (forall i :: i in s.retired ==> 0 < i <= s.w.instanceSeq && i != s.w.instance)
    && (forall i :: i in s.retired && i in s.ready ==> Authorized(s, i))
    && forall j, k :: 0 <= j < k < |s.retired| ==> s.retired[j] != s.retired[k]
  }

  ghost predicate Handoff(s: System) {
    && WindowOk(s.w) && ObserverOk(s) && TransferOk(s) && NumbersOk(s) && AuthorizationsOk(s) && RetiredOk(s)
  }

  ghost predicate History(s: System) { NumbersOk(s) && AuthorizationsOk(s) && RetiredOk(s) }

  // ----- one step -------------------------------------------------------------------------------

  // The window's numbers, mode and authorization and the logs are the same.
  ghost predicate SameHistory(s: System, s': System) {
    && s'.w.instance == s.w.instance && s'.w.instanceSeq == s.w.instanceSeq && s'.w.handoffSeq == s.w.handoffSeq
    && s'.w.closeAuthorized == s.w.closeAuthorized && s'.w.undocked == s.w.undocked
    && (s'.w.phase == Closed <==> s.w.phase == Closed)
    && s'.instances == s.instances && s'.handoffs == s.handoffs && s'.ready == s.ready && s'.returned == s.returned
    && s'.authorizations == s.authorizations && s'.retired == s.retired
  }

  lemma KeepHistory(s: System, s': System)
    requires History(s) && SameHistory(s, s')
    ensures History(s')
  {
    assert forall i :: Authorized(s, i) ==> Authorized(s', i);
  }

  lemma OpenKeeps(s: System)
    requires Handoff(s)
    ensures Handoff(Open(s))
  {
    if s.w.phase == Closed {
      var s' := Open(s);
      forall i | Authorized(s, i) ensures Authorized(s', i) {}
    }
  }

  lemma ReadyKeeps(s: System, p: Posted)
    requires Handoff(s)
    ensures Handoff(AcceptedReady(s, p))
  {
    hide History, NumbersOk, AuthorizationsOk, RetiredOk;
    HistoryOf(s);
    if ReadyAcceptable(s.w, p.instance, p.message) { ReadyHistory(s, AcceptedReady(s, p)); }
    HistoryIs(AcceptedReady(s, p));
  }

  lemma DraftsKeep(s: System, p: Posted)
    requires Handoff(s)
    ensures Handoff(AcceptedDrafts(s, p))
  {
    hide History, NumbersOk, AuthorizationsOk, RetiredOk;
    HistoryOf(s);
    var s' := AcceptedDrafts(s, p);
    if p.from == Satellite && DraftsAcceptable(s.w, p.instance, p.from, p.message) {
      DraftsHistory(s, s', p.instance);
    } else {
      KeepHistory(s, s');
    }
    HistoryIs(s');
  }

  lemma AckKeeps(s: System, p: Posted)
    requires Handoff(s)
    ensures Handoff(AcceptedAck(s, p))
  {
    hide History, NumbersOk, AuthorizationsOk, RetiredOk;
    HistoryOf(s);
    KeepHistory(s, AcceptedAck(s, p));
    HistoryIs(AcceptedAck(s, p));
  }

  lemma HistoryOf(s: System)
    requires Handoff(s)
    ensures History(s)
  {
  }

  lemma HistoryIs(s: System)
    requires History(s)
    ensures NumbersOk(s) && AuthorizationsOk(s) && RetiredOk(s)
  {
  }

  lemma AcceptKeeps(s: System, p: Posted)
    requires Handoff(s)
    ensures Handoff(Accept(s, p))
  {
    hide Handoff, AcceptedDrafts, AcceptedAck, AcceptedReady;
    if p in s.posted {
      var s1 := s.(posted := s.posted - {p});
      PlainKeeps(s, s1);
      match p.message.kind
      case View => ViewsKeep(s1, p.instance, p.message);
      case ViewError => ViewsKeep(s1, p.instance, p.message);
      case Drafts => DraftsKeep(s1, p);
      case Ack => AckKeeps(s1, p);
      case ReadyKind => ReadyKeeps(s1, p);
      case ActionKind | Abort =>
    }
  }

  // Steps that touch neither the phase nor the numbers, the transfer or the retirement.
  lemma PlainKeeps(s: System, s': System)
    requires Handoff(s) && SameHistory(s, s') && s'.observers == s.observers && s'.draft == s.draft && s'.ack == s.ack
    requires s'.w == s.w.(lastNormal := s'.w.lastNormal, saveGen := s'.w.saveGen)
    ensures Handoff(s')
  {
    hide NumbersOk, AuthorizationsOk, RetiredOk;
    KeepHistory(s, s');
  }

  lemma ViewsKeep(s: System, instance: nat, msg: Message)
    requires Handoff(s)
    ensures Handoff(s.(w := AcceptView(s.w, instance, msg))) && Handoff(s.(w := AcceptViewError(s.w, instance, msg)))
  {
    hide NumbersOk, AuthorizationsOk, RetiredOk;
    KeepHistory(s, s.(w := AcceptView(s.w, instance, msg)));
    KeepHistory(s, s.(w := AcceptViewError(s.w, instance, msg)));
  }

  lemma PhaseStepsKeep(s: System, instance: nat, handoff: nat, id: nat, frame: Frame)
    requires Handoff(s)
    ensures Handoff(s.(w := Install(s.w, instance, id, frame))) && Handoff(s.(w := Bootstrap(s.w)))
    ensures Restorable(s.w, instance, handoff) ==> Handoff(s.(w := Restore(s.w, instance, handoff), draft := None, ack := None))
  {
    hide NumbersOk, AuthorizationsOk, RetiredOk;
    KeepHistory(s, s.(w := Install(s.w, instance, id, frame)));
    KeepHistory(s, s.(w := Bootstrap(s.w)));
    if Restorable(s.w, instance, handoff) { KeepHistory(s, s.(w := Restore(s.w, instance, handoff), draft := None, ack := None)); }
  }

  lemma ReadyHistory(s: System, s': System)
    requires History(s) && s.w.phase == Bootstrapped && WindowOk(s.w)
    requires SameHistory(s, s'.(ready := s.ready, w := s'.w.(undocked := s.w.undocked)))
    requires s'.ready == s.ready + {s.w.instance} && s'.w.undocked
    ensures History(s')
  {
    forall i | Authorized(s, i) && i != s.w.instance ensures Authorized(s', i) {}
  }

  lemma DraftsHistory(s: System, s': System, instance: nat)
    requires History(s) && s.w.instance == instance && s.w.undocked && s.w.phase != Closed
    requires SameHistory(s, s'.(returned := s.returned)) && s'.returned == s.returned + [instance]
    ensures History(s')
  {
    forall i | Authorized(s, i) ensures Authorized(s', i) {}
  }

  lemma ReDockKeeps(s: System, instance: nat)
    requires Handoff(s)
    ensures Handoff(RequestReDock(s, instance))
  {
    var s' := RequestReDock(s, instance);
    forall i | Authorized(s, i) ensures Authorized(s', i) {}
  }

  // Retirement of the live instance, with its authorization on record if it ever was ready.
  lemma RetireHistory(s: System, s': System)
    requires History(s) && s.w.phase != Closed && WindowOk(s.w)
    requires s.w.instance in s.ready ==> Authorized(s, s.w.instance)
    requires SameHistory(s, s'.(retired := s.retired, w := s.w)) && s'.retired == s.retired + [s.w.instance]
    requires s'.w.phase == Closed && s'.w.instance == 0 && !s'.w.closeAuthorized && !s'.w.undocked
    requires s'.w.instanceSeq == s.w.instanceSeq && s'.w.handoffSeq == s.w.handoffSeq
    ensures History(s')
  {
    forall i | Authorized(s, i) ensures Authorized(s', i) {}
    assert forall j :: 0 <= j < |s.retired| ==> s.retired[j] in s.retired;
  }

  lemma AuthorizeHistory(s: System, s': System, e: Authorization)
    requires History(s) && WindowOk(s.w) && s.w.phase != Closed && !s.w.closeAuthorized
    requires SameHistory(s, s'.(authorizations := s.authorizations, w := s'.w.(closeAuthorized := false)))
    requires s'.authorizations == s.authorizations + [e] && s'.w.closeAuthorized
    requires AuthorizationOk(e) && e.instance == s.w.instance && (e.wasReady <==> e.instance in s.ready)
    ensures History(s')
  {
    forall i | Authorized(s, i) ensures Authorized(s', i) {
      var k :| 0 <= k < |s.authorizations| && s.authorizations[k].instance == i && (s.authorizations[k].wasReady <==> i in s.ready);
      assert s'.authorizations[k] == s.authorizations[k];
    }
    assert s'.authorizations[|s.authorizations|] == e;
  }

  lemma AuthorizeKeeps(s: System, instance: nat, handoff: nat, abort: bool, normal: bool, frame: Frame)
    requires Handoff(s)
    ensures Handoff(RequestAuthorize(s, instance, handoff, abort, normal, frame))
  {
    hide AuthorizationsOk, RetiredOk, SameNumbers;
    var s' := RequestAuthorize(s, instance, handoff, abort, normal, frame);
    if Authorizable(s.w, instance, handoff, abort) {
      if s.w.handle == 0 {
        assert s.w.instance !in s.ready by { assert NumbersOk(s); }
        RetireHistory(s, s');
      } else {
        AuthorizeHistory(s, s', s'.authorizations[|s.authorizations|]);
      }
    }
  }

  lemma LiveAuthorized(s: System)
    requires Handoff(s) && s.w.closeAuthorized
    ensures Authorized(s, s.w.instance)
  {
  }

  lemma ObserveKeeps(s: System, k: nat, quitting: bool, gone: bool)
    requires Handoff(s)
    ensures Handoff(FinishObserver(s, k, quitting, gone))
  {
    hide NumbersOk, AuthorizationsOk, RetiredOk;
    var s' := FinishObserver(s, k, quitting, gone);
    if s' != s {
      assert s.observers[..k] + s.observers[k + 1..] == [];
      if !quitting && gone {
        LiveAuthorized(s);
        RetireHistory(s, s');
      } else {
        KeepHistory(s, s');
      }
    }
  }

  lemma AbandonKeeps(s: System, instance: nat)
    requires Handoff(s) && Installable(s.w, instance)
    ensures Handoff(s.(w := Abandon(s.w, instance), retired := s.retired + [instance]))
  {
    hide AuthorizationsOk, RetiredOk;
    RetireHistory(s, s.(w := Abandon(s.w, instance), retired := s.retired + [instance]));
  }

  lemma CaptureKeeps(s: System, a: Action)
    requires Handoff(s) && a.ACapture?
    ensures Handoff(Step(s, a))
  {
    FramePlain(s, a.frame);
    SavePlain(s.(w := Capture(s.w, a.frame)), s.w.undocked);
    hide Handoff, Uncommitted, Capture, Captured;
  }

  lemma FramePlain(s: System, frame: Frame)
    requires Handoff(s)
    ensures Handoff(s.(w := Capture(s.w, frame)))
  {
    hide Handoff, Uncommitted, WindowOk, SameNumbers, SameClose;
    PlainKeeps(s, s.(w := Capture(s.w, frame)));
  }

  lemma SavePlain(s: System, undocked: bool)
    requires Handoff(s)
    ensures Handoff(Captured(s, undocked))
  {
    hide Handoff;
    PlainKeeps(s, Captured(s, undocked));
  }

  lemma QuitCaptureKeeps(s: System, a: Action)
    requires Handoff(s) && a.AQuitCapture?
    ensures Handoff(Step(s, a))
  {
    hide Handoff;
    PlainKeeps(s, Step(s, a));
  }

  lemma QuietKeeps(s: System, a: Action)
    requires Handoff(s) && (a.APost? || a.AQuit? || a.AWrite?)
    ensures Handoff(Step(s, a))
  {
    hide Handoff, Relayable;
    SameWindowKeeps(s, Step(s, a));
  }

  lemma SameWindowKeeps(s: System, s': System)
    requires Handoff(s) && SameHistory(s, s') && s'.observers == s.observers && s'.draft == s.draft && s'.ack == s.ack && s'.w == s.w
    ensures Handoff(s')
  {
    hide Handoff, SameHistory;
    PlainKeeps(s, s');
  }

  lemma StepKeeps(s: System, a: Action)
    requires Handoff(s)
    ensures Handoff(Step(s, a))
  {
    hide Handoff, Open, Accept, RequestReDock, RequestAuthorize, FinishObserver, Install, Bootstrap, Restore, Abandon,
      Post, Capture, QuitCapture, Captured, Write;
    match a
    case AOpen => OpenKeeps(s);
    case AInstall(instance, id, frame) => PhaseStepsKeep(s, instance, 0, id, frame);
    case AAbandon(instance) => if Installable(s.w, instance) { AbandonKeeps(s, instance); }
    case ABootstrap => PhaseStepsKeep(s, 0, 0, 0, s.w.lastNormal);
    case APost(_, _) => QuietKeeps(s, a);
    case AAccept(p) => AcceptKeeps(s, p);
    case AReDock(instance) => ReDockKeeps(s, instance);
    case ARestore(instance, handoff) => PhaseStepsKeep(s, instance, handoff, 0, s.w.lastNormal);
    case AAuthorize(instance, handoff, abort, normal, frame) => AuthorizeKeeps(s, instance, handoff, abort, normal, frame);
    case AObserve(k, quitting, gone) => ObserveKeeps(s, k, quitting, gone);
    case ACapture(_, _) => CaptureKeeps(s, a);
    case AQuit => QuietKeeps(s, a);
    case AQuitCapture(_, _, _, _) => QuitCaptureKeeps(s, a);
    case AWrite(_) => QuietKeeps(s, a);
  }

  lemma InitOk(s: System)
    requires Init(s)
    ensures Handoff(s)
  {
  }

  /** The handoff invariant holds after every run. */
  lemma {:induction false} HandoffHolds(s: System, actions: seq<Action>)
    requires Init(s)
    ensures Handoff(Reach(s, actions))
  {
    hide Handoff, Init, Step;
    if actions == [] {
      InitOk(s);
    } else {
      HandoffHolds(s, actions[..|actions| - 1]);
      StepKeeps(Reach(s, actions[..|actions| - 1]), actions[|actions| - 1]);
    }
  }
}
