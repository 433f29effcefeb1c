/** The promises of the Golem window over every run, and where a check split from its accept weakens one. */
module GolemTheorems {
  import opened Options
  import opened GolemWindow
  import opened GolemSystem
  import opened GolemSafety

  // ----- the close authorization ----------------------------------------------------------------

  /**
   Each native close was authorized once per instance. If its satellite had ever been ready it was granted while
   closing, after the satellite recorded a final draft id in that closing and main's latest transfer ack since
   then named exactly that id and said ok; otherwise it aborted a bootstrap.
   */
  lemma ClosesAreAuthorized(s0: System, actions: seq<Action>, j: nat, k: nat)
    requires Init(s0) && k < |Reach(s0, actions).authorizations|
    ensures var s := Reach(s0, actions);
            && AuthorizationOk(s.authorizations[k])
            && (j < k ==> s.authorizations[j].instance != s.authorizations[k].instance)
  {
    hide Reach, NumbersOk, RetiredOk;
    HandoffHolds(s0, actions);
  }

  /** A satellite that never became ready never has drafts accepted. */
  lemma DraftsComeFromReady(s0: System, actions: seq<Action>, instance: nat)
    requires Init(s0) && instance in Reach(s0, actions).returned
    ensures instance in Reach(s0, actions).ready
  {
    hide Reach, AuthorizationsOk, RetiredOk;
    HandoffHolds(s0, actions);
  }

  // The authorized close is still pending for the same window.
  predicate StillClosing(w: Window, w': Window) {
    w'.closeAuthorized && w'.phase == Closing && w'.instance == w.instance && w'.retiringId == w.retiringId
  }

  lemma RequestsStay(w: Window, instance: nat, handoff: nat, abort: bool, normal: bool, frame: Frame, id: nat)
    requires WindowOk(w) && w.closeAuthorized
    ensures StillClosing(w, Reserve(w)) && StillClosing(w, Install(w, instance, id, frame)) && StillClosing(w, Abandon(w, instance))
    ensures StillClosing(w, Bootstrap(w)) && StillClosing(w, ReDock(w, instance)) && StillClosing(w, Restore(w, instance, handoff))
    ensures StillClosing(w, Authorize(w, instance, handoff, abort, normal, frame))
    ensures StillClosing(w, Capture(w, frame)) && StillClosing(w, QuitCapture(w, normal, frame)) && StillClosing(w, w)
    ensures !Restorable(w, instance, handoff) && !Installable(w, instance) && !Authorizable(w, instance, handoff, abort)
  {
  }

  lemma AcceptsStay(w: Window, instance: nat, from: Role, msg: Message)
    requires WindowOk(w) && w.closeAuthorized
    ensures StillClosing(w, AcceptView(w, instance, msg)) && StillClosing(w, AcceptViewError(w, instance, msg))
    ensures StillClosing(w, AcceptDrafts(w, instance, from, msg)) && StillClosing(w, AcceptAck(w, instance, from, msg))
    ensures StillClosing(w, w) && !ReadyAcceptable(w, instance, msg)
  {
  }

  lemma MessagesStay(s: System, p: Posted)
    requires WindowOk(s.w) && s.w.closeAuthorized
    ensures StillClosing(s.w, Accept(s, p).w)
  {
    hide WindowOk, StillClosing, AcceptView, AcceptViewError, AcceptDrafts, AcceptAck, DraftsAcceptable, AckAcceptable, ReadyAcceptable;
    AcceptsStay(s.w, p.instance, p.from, p.message);
  }

  lemma ObserverRetires(s: System, k: nat, quitting: bool, gone: bool)
    requires WindowOk(s.w) && ObserverOk(s) && s.w.closeAuthorized
    ensures var s' := FinishObserver(s, k, quitting, gone);
            StillClosing(s.w, s'.w)
            || (gone && !quitting && s.observers == [Observer(s.w.handle, s.w.instance, s.w.handoff)]
                && s'.w.phase == Closed && s'.retired == s.retired + [s.w.instance])
  {
  }

  /** Once authorized, only the retirement of that very window leaves closing. */
  lemma OnlyRetirementLeavesClosing(s0: System, actions: seq<Action>, a: Action)
    requires Init(s0) && Reach(s0, actions).w.closeAuthorized
    ensures var s := Reach(s0, actions);
            var s' := Step(s, a);
            || StillClosing(s.w, s'.w)
            || (a.AObserve? && a.gone && !a.quitting && s.observers == [Observer(s.w.handle, s.w.instance, s.w.handoff)]
                && s'.w.phase == Closed && s'.retired == s.retired + [s.w.instance])
  {
    hide Reach, NumbersOk, AuthorizationsOk, RetiredOk, WindowOk, ObserverOk, TransferOk, StillClosing, Reserve, Install, Abandon, Bootstrap,
      ReDock, Restore, Authorize, Capture, QuitCapture, Accept, FinishObserver, Relayable, Restorable, Installable, Authorizable, Uncommitted;
    HandoffHolds(s0, actions);
    var s := Reach(s0, actions);
    RequestsStay(s.w, 0, 0, false, false, s.w.lastNormal, 0);
    match a
    case AInstall(instance, id, frame) => RequestsStay(s.w, instance, 0, false, false, frame, id);
    case AAbandon(instance) => RequestsStay(s.w, instance, 0, false, false, s.w.lastNormal, 0);
    case AReDock(instance) => RequestsStay(s.w, instance, 0, false, false, s.w.lastNormal, 0);
    case ARestore(instance, handoff) => RequestsStay(s.w, instance, handoff, false, false, s.w.lastNormal, 0);
    case AAuthorize(instance, handoff, abort, normal, frame) => RequestsStay(s.w, instance, handoff, abort, normal, frame, 0);
    case AAccept(p) => MessagesStay(s, p);
    case AObserve(k, quitting, gone) => ObserverRetires(s, k, quitting, gone);
    case ACapture(_, frame) => RequestsStay(s.w, 0, 0, false, false, frame, 0);
    case AQuitCapture(_, _, normal, frame) => RequestsStay(s.w, 0, 0, false, normal, frame, 0);
    case AOpen | ABootstrap | APost(_, _) | AQuit | AWrite(_) =>
  }

  /** No draft is lost: an instance that ever was ready retires only after main acknowledged its final drafts, and only once. */
  lemma RetirementHandsOverDrafts(s0: System, actions: seq<Action>, instance: nat)
    requires Init(s0) && instance in Reach(s0, actions).retired && instance in Reach(s0, actions).ready
    ensures exists e :: e in Reach(s0, actions).authorizations && e.instance == instance
                     && e.draft.Some? && e.ack == Some((e.draft.value, true))
  {
    hide Reach, NumbersOk;
    HandoffHolds(s0, actions);
    var s := Reach(s0, actions);
    assert Authorized(s, instance);
    var k :| 0 <= k < |s.authorizations| && s.authorizations[k].instance == instance && (s.authorizations[k].wasReady <==> instance in s.ready);
    assert s.authorizations[k] in s.authorizations;
  }

  // ----- retirement observers and numbers -------------------------------------------------------

  /** At most one observer is outstanding: `observing` holds exactly while one is, and it names the current retirement. */
  lemma OneObserver(s0: System, actions: seq<Action>)
    requires Init(s0)
    ensures var s := Reach(s0, actions);
            && |s.observers| <= 1
            && (s.w.observing <==> |s.observers| == 1)
            && (s.w.observing ==> s.observers[0] == Observer(s.w.handle, s.w.instance, s.w.handoff) && s.w.phase == Closing)
            && (s.w.retirementFailed ==> s.observers == [])
  {
    hide Reach, NumbersOk, AuthorizationsOk, RetiredOk;
    HandoffHolds(s0, actions);
  }

  /** Instance and handoff numbers are never reused, and the live ones are the latest. */
  lemma NumbersAreFresh(s0: System, actions: seq<Action>, i: nat, j: nat)
    requires Init(s0)
    ensures var s := Reach(s0, actions);
            && (i < j < |s.instances| ==> s.instances[i] < s.instances[j] <= s.w.instanceSeq)
            && (i < j < |s.handoffs| ==> s.handoffs[i] < s.handoffs[j] <= s.w.handoffSeq)
            && (s.w.phase != Closed ==> s.w.instance == s.w.instanceSeq && s.w.handoff == s.w.handoffSeq)
            && (s.w.phase != Closed ==> (s.w.undocked <==> s.w.instance in s.ready))
            && (s.w.phase == Closed ==> !s.w.undocked)
  {
    hide Reach, AuthorizationsOk, RetiredOk;
    HandoffHolds(s0, actions);
  }

  /** A stalled retirement can always be retried, and a retry never closes again. */
  lemma StalledRetirementRetries(s0: System, actions: seq<Action>)
    requires Init(s0) && Reach(s0, actions).w.retirementFailed
    ensures var s := Reach(s0, actions);
            var s' := Step(s, AReDock(s.w.instance));
            && s'.observers == [Observer(s.w.handle, s.w.instance, s.w.handoff)] && s'.w.observing
            && s'.authorizations == s.authorizations && s'.w.instance == s.w.instance
  {
    hide Reach, NumbersOk, AuthorizationsOk, RetiredOk;
    HandoffHolds(s0, actions);
  }

  // ----- check and accept -----------------------------------------------------------------------

  // A draft map, or an ack of a transfer.
  predicate NamesHandoff(msg: Message) { msg.kind == Drafts || (msg.kind == Ack && msg.handoff != 0) }

  predicate Acceptable(w: Window, instance: nat, from: Role, msg: Message) {
    (msg.kind == Drafts && DraftsAcceptable(w, instance, from, msg)) || (msg.kind == Ack && AckAcceptable(w, instance, from, msg))
  }

  // Somewhere along these steps a re-dock request found the satellite ready.
  ghost predicate LeftReady(s: System, actions: seq<Action>) {
    exists k :: 0 <= k < |actions| && StartsClosing(Reach(s, actions[..k]).w, actions[k])
  }

  predicate StartsClosing(w: Window, a: Action) { a.AReDock? && ReDockable(w, a.instance) }

  // The sequence numbers move only when a window opens or starts closing.
  lemma StepNumbers(s: System, a: Action)
    ensures var s' := Step(s, a);
            && s'.w.instanceSeq == s.w.instanceSeq + (if a.AOpen? && s.w.phase == Closed then 1 else 0)
            && s'.w.handoffSeq == s.w.handoffSeq + (if (a.AOpen? && s.w.phase == Closed) || StartsClosing(s.w, a) then 1 else 0)
  {
    hide Install, Abandon, Bootstrap, Restore, Accept, RequestAuthorize, FinishObserver, Post, Write, Capture, QuitCapture, Captured,
      Installable, Restorable, Uncommitted;
  }

  // While the same window stays open, the handoff moves exactly when it starts closing.
  lemma {:induction false} HandoffMoves(s: System, actions: seq<Action>)
    ensures var s' := Reach(s, actions);
            && s.w.instanceSeq <= s'.w.instanceSeq && s.w.handoffSeq <= s'.w.handoffSeq
            && (s'.w.instanceSeq == s.w.instanceSeq ==> (s'.w.handoffSeq == s.w.handoffSeq <==> !LeftReady(s, actions)))
  {
    hide Step, StartsClosing, LeftReady;
    if actions != [] {
      var n := |actions| - 1;
      HandoffMoves(s, actions[..n]);
      StepNumbers(Reach(s, actions[..n]), actions[n]);
      LeftReadySnoc(s, actions);
    } else {
      NotLeft(s);
    }
  }

  lemma NotLeft(s: System)
    ensures !LeftReady(s, [])
  {
  }

  lemma LeftReadySnoc(s: System, actions: seq<Action>)
    requires actions != []
    ensures var n := |actions| - 1;
            LeftReady(s, actions) <==> LeftReady(s, actions[..n]) || StartsClosing(Reach(s, actions[..n]).w, actions[n])
  {
    hide Reach, StartsClosing;
    var n := |actions| - 1;
    assert forall k :: 0 <= k <= n ==> actions[..n][..k] == actions[..k];
    assert LeftReady(s, actions[..n]) ==> LeftReady(s, actions) by {
      if k :| 0 <= k < n && StartsClosing(Reach(s, actions[..n][..k]).w, actions[..n][k]) {
        assert StartsClosing(Reach(s, actions[..k]).w, actions[k]);
      }
    }
    assert LeftReady(s, actions) && !StartsClosing(Reach(s, actions[..n]).w, actions[n]) ==> LeftReady(s, actions[..n]) by {
      if k :| 0 <= k < n && StartsClosing(Reach(s, actions[..k]).w, actions[k]) {
        assert StartsClosing(Reach(s, actions[..n][..k]).w, actions[..n][k]);
      }
    }
  }

  lemma {:induction false} ReachAppend(s: System, first: seq<Action>, rest: seq<Action>)
    ensures Reach(s, first + rest) == Reach(Reach(s, first), rest)
  {
    hide Step;
    if rest == [] {
      assert first + rest == first;
    } else {
      var n := |rest| - 1;
      assert (first + rest)[..|first + rest| - 1] == first + rest[..n];
      ReachAppend(s, first, rest[..n]);
    }
  }

  lemma LiveNumbers(s0: System, actions: seq<Action>)
    requires Init(s0)
    ensures var w := Reach(s0, actions).w;
            w.phase != Closed ==> w.instance == w.instanceSeq && w.handoff == w.handoffSeq && 0 < w.handoff
  {
    hide Reach, NumbersOk, AuthorizationsOk, RetiredOk;
    HandoffHolds(s0, actions);
  }

  /**
   In every run, a draft map or transfer ack that is accepted names the handoff current at its accept exactly when no
   re-dock request found the satellite ready between its envelope check and its accept: the accepts re-check the
   instance, the phase and the id, not the handoff.
   */
  lemma SplitAcceptNamesHandoff(s0: System, before: seq<Action>, from: Role, msg: Message, between: seq<Action>)
    requires Init(s0) && NamesHandoff(msg) && Relayable(Reach(s0, before).w, msg, from)
    requires Acceptable(Reach(s0, before + [APost(from, msg)] + between).w, Reach(s0, before).w.instance, from, msg)
    ensures var checked := before + [APost(from, msg)];
            msg.handoff == Reach(s0, checked + between).w.handoff <==> !LeftReady(Reach(s0, checked), between)
  {
    var checked := before + [APost(from, msg)];
    assert checked[..|checked| - 1] == before;
    assert Reach(s0, checked).w == Reach(s0, before).w;
    LiveNumbers(s0, before);
    LiveNumbers(s0, checked + between);
    ReachAppend(s0, checked, between);
    hide Reach, LeftReady;
    HandoffMoves(Reach(s0, checked), between);
  }

  /** When the check and the accept are one step, an accepted draft map or transfer ack always names the current handoff. */
  lemma AtomicPostNamesHandoff(s0: System, before: seq<Action>, from: Role, msg: Message)
    requires Init(s0) && NamesHandoff(msg) && Relayable(Reach(s0, before).w, msg, from)
    requires Acceptable(Reach(s0, before + [APost(from, msg)]).w, Reach(s0, before).w.instance, from, msg)
    ensures msg.handoff == Reach(s0, before + [APost(from, msg)]).w.handoff
  {
    assert before + [APost(from, msg)] + [] == before + [APost(from, msg)];
    SplitAcceptNamesHandoff(s0, before, from, msg, []);
    hide Reach;
  }

  // A draft map posted for this handoff.
  function DraftsOf(instance: nat, handoff: nat, id: nat): Message { Message(Drafts, instance, handoff, id, 0, Body(true, true)) }

  /** So drafts checked while the satellite is still ready are recorded in its first closing, under a handoff they do not name. */
  lemma ReadyDraftsGoStale(s0: System, before: seq<Action>, id: nat)
    requires Init(s0) && Reach(s0, before).w.phase == Ready && id != 0
    ensures var w := Reach(s0, before).w;
            var msg := DraftsOf(w.instance, w.handoff, id);
            var s := Reach(s0, before + [APost(Satellite, msg), AReDock(w.instance), AAccept(Posted(Satellite, msg, w.instance))]);
            s.w.phase == Closing && s.draft == Some(id) && s.w.transferId == id && s.w.handoff != msg.handoff
  {
    var s := Reach(s0, before);
    var msg := DraftsOf(s.w.instance, s.w.handoff, id);
    HandoffHolds(s0, before);
    ReachAppend(s0, before, [APost(Satellite, msg), AReDock(s.w.instance), AAccept(Posted(Satellite, msg, s.w.instance))]);
    ThreeSteps(s, APost(Satellite, msg), AReDock(s.w.instance), AAccept(Posted(Satellite, msg, s.w.instance)));
    ReadyStale(s, id);
    hide Reach, Step;
  }

  lemma ReadyStale(s: System, id: nat)
    requires Handoff(s) && s.w.phase == Ready && id != 0
    ensures var msg := DraftsOf(s.w.instance, s.w.handoff, id);
            var s1 := Step(Step(Step(s, APost(Satellite, msg)), AReDock(s.w.instance)), AAccept(Posted(Satellite, msg, s.w.instance)));
            s1.w.phase == Closing && s1.draft == Some(id) && s1.w.transferId == id && s1.w.handoff != msg.handoff
  {
    hide Captured, NumbersOk, AuthorizationsOk, RetiredOk;
  }

  lemma ThreeSteps(s: System, a: Action, b: Action, c: Action)
    ensures Reach(s, [a, b, c]) == Step(Step(Step(s, a), b), c)
  {
    hide Step;
    assert [a, b, c][..2] == [a, b] && [a, b][..1] == [a] && [a][..0] == [];
    assert Reach(s, [a]) == Step(Reach(s, []), a);
    assert Reach(s, [a, b]) == Step(Reach(s, [a]), b);
  }
}
