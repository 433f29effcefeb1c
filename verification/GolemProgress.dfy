/** The handoff can always be completed: in every run, the steps that each side takes next are the ones the window accepts. */
module GolemProgress {
  import opened Options
  import opened GolemWindow
  import opened GolemSystem
  import opened GolemSafety
  import opened GolemTheorems

  // ----- one message from check to accept -------------------------------------------------------

  function Sends(from: Role, msg: Message): seq<Action> { [APost(from, msg), AAccept(Posted(from, msg, msg.instance))] }

  // The message was relayed: nothing else changed than what accepting it does to the window.
  function Sent(s: System, from: Role, msg: Message): System { Step(Step(s, APost(from, msg)), AAccept(Posted(from, msg, msg.instance))) }

  lemma {:induction false} ReachOne(s: System, a: Action, rest: seq<Action>)
    ensures Reach(s, [a] + rest) == Reach(Step(s, a), rest)
  {
    hide Step;
    ReachAppend(s, [a], rest);
    assert [a][..0] == [];
    assert Reach(s, [a]) == Step(Reach(s, []), a);
  }

  lemma SendsReach(s: System, from: Role, msg: Message, rest: seq<Action>)
    ensures Reach(s, Sends(from, msg) + rest) == Reach(Sent(s, from, msg), rest)
  {
    hide Step, Reach;
    var a, b := APost(from, msg), AAccept(Posted(from, msg, msg.instance));
    assert Sends(from, msg) + rest == [a] + ([b] + rest);
    ReachOne(s, a, [b] + rest);
    ReachOne(Step(s, a), b, rest);
  }

  // What main and the satellite post while undocking, and while docking again.
  function ViewOf(instance: nat, revision: nat): Message { Message(View, instance, 0, 0, revision, Body(true, true)) }

  function ReadyOf(instance: nat, handoff: nat, id: nat): Message { Message(ReadyKind, instance, handoff, 0, id, Body(false, true)) }

  function AckOf(instance: nat, handoff: nat, id: nat): Message { Message(Ack, instance, handoff, 0, id, AckFlag(true, true)) }

  // ----- undocking ------------------------------------------------------------------------------

  // A bootstrapped window of instance i with native window `handle`.
  ghost predicate Booted(s: System, instance: nat, handoff: nat, handle: nat) {
    && s.w.phase == Bootstrapped && s.w.instance == instance != 0 && s.w.handoff == handoff != 0 && s.w.handle == handle != 0
  }

  lemma BootedIs(s: System, instance: nat, handoff: nat, handle: nat)
    requires Booted(s, instance, handoff, handle)
    ensures s.w.instance == instance && s.w.handoff == handoff
  {
  }

  function Opens(instance: nat, handle: nat, frame: Frame): seq<Action> { [AOpen, AInstall(instance, handle, frame), ABootstrap] }

  lemma OpensBooted(s: System, handle: nat, frame: Frame)
    requires s.w.phase == Closed && s.w.handle == 0 && handle != 0
    ensures var s' := Reach(s, Opens(s.w.instanceSeq + 1, handle, frame));
            && Booted(s', s.w.instanceSeq + 1, s.w.handoffSeq + 1, handle) && s'.w.viewRevision == 0 && s'.w.transferId == 0
  {
    ThreeSteps(s, AOpen, AInstall(s.w.instanceSeq + 1, handle, frame), ABootstrap);
    hide Reach;
  }

  lemma ViewSent(s: System, revision: nat)
    requires s.w.phase == Bootstrapped && s.w.instance != 0 && s.w.viewRevision == 0 && revision != 0
    ensures var msg := ViewOf(s.w.instance, revision); var s' := Sent(s, Main, msg);
            Relayable(s.w, msg, Main) && s'.w == s.w.(viewRevision := revision, viewError := s'.w.viewError)
  {
  }

  lemma TransferSent(s: System, id: nat)
    requires s.w.phase == Bootstrapped && s.w.instance != 0 && s.w.handoff != 0 && s.w.transferId == 0 && id != 0
    ensures var msg := DraftsOf(s.w.instance, s.w.handoff, id); var s' := Sent(s, Main, msg);
            Relayable(s.w, msg, Main) && s'.w == s.w.(transferId := id, transferAcked := false)
  {
  }

  lemma ReadySent(s: System, id: nat)
    requires s.w.phase == Bootstrapped && s.w.instance != 0 && s.w.handoff != 0 && s.w.handle != 0
    requires s.w.viewRevision != 0 && s.w.transferId == id != 0
    ensures var msg := ReadyOf(s.w.instance, s.w.handoff, id); var s' := Sent(s, Satellite, msg);
            && Relayable(s.w, msg, Satellite) && s'.w.phase == Ready && s'.w.undocked && s.w.instance in s'.ready
            && s'.w.instance == s.w.instance && s'.w.handoff == s.w.handoff && s'.w.handle == s.w.handle
  {
  }

  // The steps of an undock under a new instance and handoff, each message with what it reads of the window then.
  function Undocks(instance: nat, handoff: nat, handle: nat, frame: Frame, revision: nat, id: nat): seq<Action> {
    Opens(instance, handle, frame) + Commits(instance, handoff, revision, id)
  }

  function Commits(instance: nat, handoff: nat, revision: nat, id: nat): seq<Action> {
    Sends(Main, ViewOf(instance, revision))
    + (Sends(Main, DraftsOf(instance, handoff, id)) + Sends(Satellite, ReadyOf(instance, handoff, id)))
  }

  lemma CommitsReady(s: System, handle: nat, revision: nat, id: nat)
    requires Booted(s, s.w.instance, s.w.handoff, handle) && s.w.viewRevision == 0 && s.w.transferId == 0 && revision != 0 && id != 0
    ensures var s' := Reach(s, Commits(s.w.instance, s.w.handoff, revision, id));
            && s'.w.phase == Ready && s'.w.undocked && s.w.instance in s'.ready
            && s'.w.instance == s.w.instance && s'.w.handoff == s.w.handoff && s'.w.handle == handle
  {
    var view, drafts, ready := ViewOf(s.w.instance, revision), DraftsOf(s.w.instance, s.w.handoff, id), ReadyOf(s.w.instance, s.w.handoff, id);
    ViewSent(s, revision);
    var s1 := Sent(s, Main, view);
    TransferSent(s1, id);
    var s2 := Sent(s1, Main, drafts);
    ReadySent(s2, id);
    SendsReach(s, Main, view, Sends(Main, drafts) + Sends(Satellite, ready));
    SendsReach(s1, Main, drafts, Sends(Satellite, ready));
    SendsReach(s2, Satellite, ready, []);
    assert Sends(Satellite, ready) + [] == Sends(Satellite, ready);
    hide Sent, Relayable, Sends;
  }

  /**
   In every run, a closed window can be undocked: opened, installed and bootstrapped, sent its view and main's drafts, and
   its ready message commits it under fresh numbers.
   */
  lemma UndockCompletes(s0: System, before: seq<Action>, handle: nat, frame: Frame, revision: nat, id: nat)
    requires Init(s0) && Reach(s0, before).w.phase == Closed && handle != 0 && revision != 0 && id != 0
    ensures var w := Reach(s0, before).w;
            var s' := Reach(s0, before + Undocks(w.instanceSeq + 1, w.handoffSeq + 1, handle, frame, revision, id));
            && s'.w.phase == Ready && s'.w.undocked && s'.w.instance in s'.ready && s'.w.handle == handle
            && s'.w.instance == w.instanceSeq + 1 && s'.w.handoff == w.handoffSeq + 1
  {
    var s := Reach(s0, before);
    var i, h := s.w.instanceSeq + 1, s.w.handoffSeq + 1;
    hide *;
    HandoffHolds(s0, before);
    ClosedIs(s);
    UndocksReady(s, handle, frame, revision, id);
    ReachAppend(s0, before, Undocks(i, h, handle, frame, revision, id));
  }

  lemma UndocksReady(s: System, handle: nat, frame: Frame, revision: nat, id: nat)
    requires s.w.phase == Closed && s.w.handle == 0 && handle != 0 && revision != 0 && id != 0
    ensures var s' := Reach(s, Undocks(s.w.instanceSeq + 1, s.w.handoffSeq + 1, handle, frame, revision, id));
            && s'.w.phase == Ready && s'.w.undocked && s'.w.instance in s'.ready && s'.w.handle == handle
            && s'.w.instance == s.w.instanceSeq + 1 && s'.w.handoff == s.w.handoffSeq + 1
  {
    var i, h := s.w.instanceSeq + 1, s.w.handoffSeq + 1;
    var s1 := Reach(s, Opens(i, handle, frame));
    UndocksIs(i, h, handle, frame, revision, id);
    hide *;
    OpensBooted(s, handle, frame);
    BootedIs(s1, i, h, handle);
    CommitsReady(s1, handle, revision, id);
    ReachAppend(s, Opens(i, handle, frame), Commits(i, h, revision, id));
  }

  lemma UndocksIs(instance: nat, handoff: nat, handle: nat, frame: Frame, revision: nat, id: nat)
    ensures Undocks(instance, handoff, handle, frame, revision, id) == Opens(instance, handle, frame) + Commits(instance, handoff, revision, id)
  {
  }

  lemma ClosedIs(s: System)
    requires Handoff(s) && s.w.phase == Closed
    ensures s.w.handle == 0
  {
  }

  // ----- docking again --------------------------------------------------------------------------

  // The window is closing under this handoff, nothing authorized yet, with no observer.
  ghost predicate Handing(s: System, instance: nat, handoff: nat, handle: nat) {
    && s.w.phase == Closing && s.w.undocked && !s.w.closeAuthorized && s.observers == []
    && s.w.instance == instance != 0 && s.w.handoff == handoff != 0 && s.w.handle == handle != 0
  }

  lemma ReDocked(s: System)
    requires Handoff(s) && s.w.phase == Ready
    ensures var s' := Step(s, AReDock(s.w.instance));
            Handing(s', s.w.instance, s.w.handoffSeq + 1, s.w.handle) && s'.w.transferId == 0
  {
    hide NumbersOk, AuthorizationsOk, RetiredOk;
  }

  lemma FinalSent(s: System, id: nat)
    requires Handing(s, s.w.instance, s.w.handoff, s.w.handle) && (s.w.transferId == 0 || s.w.transferId == id) && id != 0
    ensures var msg := DraftsOf(s.w.instance, s.w.handoff, id); var s' := Sent(s, Satellite, msg);
            Relayable(s.w, msg, Satellite) && s'.w == s.w.(transferId := id, transferAcked := false) && s'.observers == []
  {
  }

  lemma AckSent(s: System)
    requires Handing(s, s.w.instance, s.w.handoff, s.w.handle) && s.w.transferId != 0
    ensures var msg := AckOf(s.w.instance, s.w.handoff, s.w.transferId); var s' := Sent(s, Main, msg);
            Relayable(s.w, msg, Main) && s'.w == s.w.(transferAcked := true) && s'.observers == []
  {
  }

  // Authorized, with its one observer waiting.
  ghost predicate Waiting(s: System, instance: nat, handle: nat) {
    && s.w.closeAuthorized && s.w.phase == Closing && s.w.observing && s.w.instance == instance
    && s.w.retiringId == handle == s.w.handle && s.w.retiringInstance == instance
    && s.observers == [Observer(handle, instance, s.w.retiringHandoff)]
  }

  lemma AckedAuthorizes(s: System, normal: bool, frame: Frame)
    requires Handing(s, s.w.instance, s.w.handoff, s.w.handle) && s.w.transferId != 0 && s.w.transferAcked
    ensures Waiting(Step(s, AAuthorize(s.w.instance, s.w.handoff, false, normal, frame)), s.w.instance, s.w.handle)
  {
  }

  // The window is gone: closed, and its instance retired.
  lemma GoneRetires(s: System)
    requires Waiting(s, s.w.instance, s.w.handle)
    ensures var s' := Step(s, AObserve(0, false, true)); s'.w.phase == Closed && s.w.instance in s'.retired
  {
  }

  // From a closing window: the final drafts, main's ack, the authorized close and the window gone.
  function HandsOver(instance: nat, handoff: nat, id: nat, normal: bool, frame: Frame): seq<Action> {
    Sends(Satellite, DraftsOf(instance, handoff, id))
    + (Sends(Main, AckOf(instance, handoff, id)) + [AAuthorize(instance, handoff, false, normal, frame), AObserve(0, false, true)])
  }

  lemma HandsOverCloses(s: System, id: nat, normal: bool, frame: Frame)
    requires Handing(s, s.w.instance, s.w.handoff, s.w.handle) && (s.w.transferId == 0 || s.w.transferId == id) && id != 0
    ensures var s' := Reach(s, HandsOver(s.w.instance, s.w.handoff, id, normal, frame)); s'.w.phase == Closed && s.w.instance in s'.retired
  {
    var drafts, ack := DraftsOf(s.w.instance, s.w.handoff, id), AckOf(s.w.instance, s.w.handoff, id);
    var authorize := AAuthorize(s.w.instance, s.w.handoff, false, normal, frame);
    var last := [authorize, AObserve(0, false, true)];
    FinalSent(s, id);
    var s1 := Sent(s, Satellite, drafts);
    AckSent(s1);
    var s2 := Sent(s1, Main, ack);
    AckedAuthorizes(s2, normal, frame);
    var s3 := Step(s2, authorize);
    GoneRetires(s3);
    SendsReach(s, Satellite, drafts, Sends(Main, ack) + last);
    SendsReach(s1, Main, ack, last);
    TwoSteps(s2, authorize, AObserve(0, false, true));
    hide Sent, Relayable, Sends, Step, Reach;
  }

  lemma TwoSteps(s: System, a: Action, b: Action)
    ensures Reach(s, [a, b]) == Step(Step(s, a), b)
  {
    hide Step;
    assert [a, b][..1] == [a] && [a][..0] == [];
    assert Reach(s, [a]) == Step(Reach(s, []), a);
  }

  /**
   In every run, a ready window can dock again: the re-dock, the satellite's final drafts, main's ack and the authorized close
   lead to closed once the window is gone, with its instance retired.
   */
  lemma ReDockCompletes(s0: System, before: seq<Action>, id: nat, normal: bool, frame: Frame)
    requires Init(s0) && Reach(s0, before).w.phase == Ready && id != 0
    ensures var w := Reach(s0, before).w;
            var s' := Reach(s0, before + ([AReDock(w.instance)] + HandsOver(w.instance, w.handoffSeq + 1, id, normal, frame)));
            s'.w.phase == Closed && w.instance in s'.retired
  {
    var s := Reach(s0, before);
    HandoffHolds(s0, before);
    ReDocked(s);
    var s1 := Step(s, AReDock(s.w.instance));
    HandsOverCloses(s1, id, normal, frame);
    var rest := HandsOver(s.w.instance, s.w.handoffSeq + 1, id, normal, frame);
    ReachAppend(s0, before, [AReDock(s.w.instance)] + rest);
    ReachOne(s, AReDock(s.w.instance), rest);
    hide Reach, Handoff, HandsOver, Step;
  }

  // ----- from anywhere to closed ----------------------------------------------------------------

  // An authorized close is waited for or can be retried, unless the application quits.
  ghost predicate Watched(s: System) { s.w.closeAuthorized ==> s.w.observing || s.w.retirementFailed || s.quit }

  lemma StepWatched(s: System, a: Action)
    requires Handoff(s) && Watched(s)
    ensures Watched(Step(s, a))
  {
    hide Handoff, Install, Abandon, Bootstrap, Restore, Accept, RequestAuthorize, FinishObserver, RequestReDock, Open, Post, Write,
      Capture, QuitCapture, Captured, Installable, Restorable, Uncommitted;
    match a
    case AOpen => OpenWatched(s);
    case AAbandon(instance) => if Installable(s.w, instance) { AbandonWatched(s, instance); }
    case AReDock(instance) => ReDockWatched(s, instance);
    case AAuthorize(instance, handoff, abort, normal, frame) => AuthorizeWatched(s, instance, handoff, abort, normal, frame);
    case AObserve(k, quitting, gone) => ObserveWatched(s, k, quitting, gone);
    case _ =>
  }

  lemma OpenWatched(s: System)
    requires Handoff(s) && Watched(s)
    ensures Watched(Open(s))
  {
    hide NumbersOk, AuthorizationsOk, RetiredOk;
  }

  lemma AbandonWatched(s: System, instance: nat)
    requires Installable(s.w, instance)
    ensures !Abandon(s.w, instance).closeAuthorized
  {
  }

  lemma ReDockWatched(s: System, instance: nat)
    requires Watched(s)
    ensures Watched(RequestReDock(s, instance))
  {
  }

  lemma AuthorizeWatched(s: System, instance: nat, handoff: nat, abort: bool, normal: bool, frame: Frame)
    requires Watched(s)
    ensures Watched(RequestAuthorize(s, instance, handoff, abort, normal, frame))
  {
    hide Uncommitted;
  }

  lemma ObserveWatched(s: System, k: nat, quitting: bool, gone: bool)
    requires Handoff(s) && Watched(s)
    ensures Watched(FinishObserver(s, k, quitting, gone))
  {
    hide NumbersOk, AuthorizationsOk, RetiredOk;
  }

  lemma {:induction false} WatchedHolds(s: System, actions: seq<Action>)
    requires Init(s)
    ensures Watched(Reach(s, actions))
  {
    hide Handoff, Step;
    if actions != [] {
      WatchedHolds(s, actions[..|actions| - 1]);
      HandoffHolds(s, actions[..|actions| - 1]);
      StepWatched(Reach(s, actions[..|actions| - 1]), actions[|actions| - 1]);
    }
  }

  // Whatever the window is doing, it can be brought to closed.
  lemma Closes(s: System) returns (actions: seq<Action>)
    requires Handoff(s) && Watched(s) && !s.quit
    ensures |actions| <= 7 && Reach(s, actions).w.phase == Closed
  {
    hide *;
    match s.w.phase
    case Closed => { actions := []; ReachNone(s); }
    case Bootstrapping => { actions := AbortCloses(s); }
    case Bootstrapped => { actions := AbortCloses(s); }
    case Ready => {
      ReDocked(s);
      var s1 := Step(s, AReDock(s.w.instance));
      HandingIs(s1, s.w.instance, s.w.handoffSeq + 1, s.w.handle);
      HandsOverCloses(s1, 1, false, s.w.lastNormal);
      var rest := HandsOver(s1.w.instance, s1.w.handoff, 1, false, s.w.lastNormal);
      HandsOverIs(s1.w.instance, s1.w.handoff, 1, false, s.w.lastNormal);
      actions := [AReDock(s.w.instance)] + rest;
      ReachOne(s, AReDock(s.w.instance), rest);
    }
    case Closing => { actions := ClosingCloses(s); }
  }

  lemma ReachNone(s: System)
    ensures Reach(s, []) == s
  {
  }

  lemma HandingIs(s: System, instance: nat, handoff: nat, handle: nat)
    requires Handing(s, instance, handoff, handle)
    ensures s.w.instance == instance && s.w.handoff == handoff && s.w.handle == handle
  {
  }

  lemma HandsOverIs(instance: nat, handoff: nat, id: nat, normal: bool, frame: Frame)
    ensures |HandsOver(instance, handoff, id, normal, frame)| == 6
  {
  }

  // A bootstrap is aborted: reserved only, it is abandoned; with a window, its close is authorized.
  lemma AbortCloses(s: System) returns (actions: seq<Action>)
    requires Handoff(s) && (s.w.phase == Bootstrapping || s.w.phase == Bootstrapped)
    ensures |actions| <= 2 && Reach(s, actions).w.phase == Closed
  {
    var abort := AAuthorize(s.w.instance, s.w.handoff, true, false, s.w.lastNormal);
    AbortAuthorizes(s);
    hide *;
    if s.w.handle == 0 {
      actions := [abort];
      ReachOne(s, abort, []);
      ReachNone(Step(s, abort));
      assert [abort] + [] == [abort];
    } else {
      actions := [abort, AObserve(0, false, true)];
      TwoSteps(s, abort, AObserve(0, false, true));
      WaitingIs(Step(s, abort), s.w.instance, s.w.handle);
      GoneRetires(Step(s, abort));
    }
  }

  lemma WaitingIs(s: System, instance: nat, handle: nat)
    requires Waiting(s, instance, handle)
    ensures s.w.instance == instance && s.w.handle == handle
  {
  }

  lemma AbortAuthorizes(s: System)
    requires Handoff(s) && (s.w.phase == Bootstrapping || s.w.phase == Bootstrapped)
    ensures var s' := Step(s, AAuthorize(s.w.instance, s.w.handoff, true, false, s.w.lastNormal));
            if s.w.handle == 0 then s'.w.phase == Closed else Waiting(s', s.w.instance, s.w.handle)
  {
    hide NumbersOk, AuthorizationsOk, RetiredOk;
  }

  // A closing window: not yet authorized, it is handed over; authorized, it is waited for, once more if its retirement failed.
  lemma ClosingCloses(s: System) returns (actions: seq<Action>)
    requires Handoff(s) && Watched(s) && !s.quit && s.w.phase == Closing
    ensures |actions| <= 6 && Reach(s, actions).w.phase == Closed
  {
    ClosingCases(s);
    hide *;
    var gone := AObserve(0, false, true);
    if !s.w.closeAuthorized {
      var id := if s.w.transferId == 0 then 1 else s.w.transferId;
      HandsOverCloses(s, id, false, s.w.lastNormal);
      HandsOverIs(s.w.instance, s.w.handoff, id, false, s.w.lastNormal);
      actions := HandsOver(s.w.instance, s.w.handoff, id, false, s.w.lastNormal);
    } else if s.w.observing {
      actions := [gone];
      GoneRetires(s);
      ReachOne(s, gone, []);
      ReachNone(Step(s, gone));
      assert [gone] + [] == [gone];
    } else {
      var retry := AReDock(s.w.instance);
      actions := [retry, gone];
      TwoSteps(s, retry, gone);
      WaitingIs(Step(s, retry), s.w.instance, s.w.handle);
      GoneRetires(Step(s, retry));
    }
  }

  lemma ClosingCases(s: System)
    requires Handoff(s) && Watched(s) && !s.quit && s.w.phase == Closing
    ensures !s.w.closeAuthorized ==> Handing(s, s.w.instance, s.w.handoff, s.w.handle)
    ensures s.w.observing ==> Waiting(s, s.w.instance, s.w.handle)
    ensures s.w.closeAuthorized && !s.w.observing ==> Waiting(Step(s, AReDock(s.w.instance)), s.w.instance, s.w.handle)
  {
    hide NumbersOk, AuthorizationsOk, RetiredOk;
  }

  /** From every state of every run in which the application is not quitting, at most seven steps close the window. */
  lemma WindowCanClose(s0: System, before: seq<Action>) returns (after: seq<Action>)
    requires Init(s0) && !Reach(s0, before).quit
    ensures |after| <= 7 && Reach(s0, before + after).w.phase == Closed
  {
    hide *;
    HandoffHolds(s0, before);
    WatchedHolds(s0, before);
    after := Closes(Reach(s0, before));
    ReachAppend(s0, before, after);
  }
}
