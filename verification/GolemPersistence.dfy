/** Generation-ordered persistence: however captures and disk writes interleave, the last capture wins. */
module GolemPersistence {
  import opened Options
  import opened GolemWindow
  import opened GolemSystem

  // Captured generations increase, belong to no uncommitted phase, and stay below the window's own.
  ghost predicate CapturesOk(s: System) {
    && (forall i, j :: 0 <= i < j < |s.captured| ==> s.captured[i].gen < s.captured[j].gen)
    && (forall i :: 0 <= i < |s.captured| ==>
          && 0 < s.captured[i].gen <= s.w.saveGen
          && s.captured[i].phase != Bootstrapping && s.captured[i].phase != Bootstrapped)
  }

  ghost predicate Written(s: System, i: int) { 0 <= i < |s.captured| && i !in s.unwritten }

  // The file holds the newest written capture, and no write is newer than the saved generation.
  ghost predicate FileOk(s: System) {
    && (forall i :: i in s.unwritten ==> i < |s.captured|)
    && (forall i :: Written(s, i) ==> s.captured[i].gen <= s.savedGen)
    && (s.savedGen == 0 || exists i :: Written(s, i) && s.captured[i].gen == s.savedGen && s.file == Some(s.captured[i].preference))
  }

  ghost predicate Persistent(s: System) { CapturesOk(s) && FileOk(s) }

  // Nothing about saves changed, and the window's generation did not go back.
  ghost predicate SameSaves(s: System, s': System) {
    && s'.captured == s.captured && s'.unwritten == s.unwritten && s'.savedGen == s.savedGen && s'.file == s.file
    && s.w.saveGen <= s'.w.saveGen
  }

  lemma SameKeeps(s: System, s': System)
    requires Persistent(s) && SameSaves(s, s')
    ensures Persistent(s')
  {
    assert forall i :: Written(s, i) <==> Written(s', i);
  }

  lemma CapturedKeeps(s: System, s1: System, undocked: bool)
    requires Persistent(s) && SameSaves(s, s1) && s.w.saveGen < s1.w.saveGen && !Uncommitted(s1.w)
    ensures Persistent(Captured(s1, undocked))
  {
    var s' := Captured(s1, undocked);
    assert forall i :: Written(s', i) <==> Written(s, i);
  }

  lemma WriteKeeps(s: System, k: nat)
    requires Persistent(s)
    ensures Persistent(Write(s, k))
  {
    var s' := Write(s, k);
    if k in s.unwritten && k < |s.captured| {
      assert Written(s', k);
      assert forall i :: Written(s', i) <==> Written(s, i) || i == k;
    }
  }

  lemma ReadyKeeps(s: System, p: Posted)
    requires Persistent(s)
    ensures Persistent(AcceptedReady(s, p))
  {
    hide Persistent;
    if ReadyAcceptable(s.w, p.instance, p.message) {
      CapturedKeeps(s, s.(w := AcceptReady(s.w, p.instance, p.message), ready := s.ready + {p.instance}), true);
    }
  }

  lemma MessagesKeep(s: System, p: Posted)
    requires Persistent(s)
    ensures Persistent(AcceptedDrafts(s, p)) && Persistent(AcceptedAck(s, p))
    ensures Persistent(s.(w := AcceptView(s.w, p.instance, p.message))) && Persistent(s.(w := AcceptViewError(s.w, p.instance, p.message)))
  {
    hide Persistent, DraftsAcceptable, AckAcceptable;
    SameKeeps(s, AcceptedDrafts(s, p));
    SameKeeps(s, AcceptedAck(s, p));
    SameKeeps(s, s.(w := AcceptView(s.w, p.instance, p.message)));
    SameKeeps(s, s.(w := AcceptViewError(s.w, p.instance, p.message)));
  }

  lemma AcceptKeeps(s: System, p: Posted)
    requires Persistent(s)
    ensures Persistent(Accept(s, p))
  {
    hide Persistent, AcceptedReady, AcceptedDrafts, AcceptedAck, AcceptView, AcceptViewError;
    var s1 := s.(posted := s.posted - {p});
    SameKeeps(s, s1);
    ReadyKeeps(s1, p);
    MessagesKeep(s1, p);
  }

  lemma RequestsKeep(s: System, a: Action)
    requires Persistent(s) && (a.AOpen? || a.AInstall? || a.AAbandon? || a.ABootstrap? || a.APost? || a.AReDock? || a.ARestore? || a.AQuit?)
    ensures Persistent(Step(s, a))
  {
    hide Persistent, Relayable;
    SameKeeps(s, Step(s, a));
  }

  lemma AuthorizeKeeps(s: System, instance: nat, handoff: nat, abort: bool, normal: bool, frame: Frame)
    requires Persistent(s)
    ensures Persistent(RequestAuthorize(s, instance, handoff, abort, normal, frame))
  {
    hide Persistent;
    SameKeeps(s, RequestAuthorize(s, instance, handoff, abort, normal, frame));
  }

  lemma ObserveKeeps(s: System, k: nat, quitting: bool, gone: bool)
    requires Persistent(s)
    ensures Persistent(FinishObserver(s, k, quitting, gone))
  {
    hide Persistent;
    var s' := FinishObserver(s, k, quitting, gone);
    if SameSaves(s, s') {
      SameKeeps(s, s');
    } else {
      CapturedKeeps(s, s'.(captured := s.captured, unwritten := s.unwritten), false);
    }
  }

  lemma CaptureKeeps(s: System, a: Action)
    requires Persistent(s) && (a.ACapture? || a.AQuitCapture?)
    ensures Persistent(Step(s, a))
  {
    hide Persistent;
    var s' := Step(s, a);
    if |s'.captured| == |s.captured| {
      SameKeeps(s, s');
    } else {
      CapturedKeeps(s, s'.(captured := s.captured, unwritten := s.unwritten), s'.captured[|s.captured|].preference.undocked);
    }
  }

  lemma StepKeeps(s: System, a: Action)
    requires Persistent(s)
    ensures Persistent(Step(s, a))
  {
    hide Persistent, Accept, RequestAuthorize, FinishObserver, Write;
    match a
    case AAccept(p) => AcceptKeeps(s, p);
    case AAuthorize(instance, handoff, abort, normal, frame) => AuthorizeKeeps(s, instance, handoff, abort, normal, frame);
    case AObserve(k, quitting, gone) => ObserveKeeps(s, k, quitting, gone);
    case ACapture(_, _) => CaptureKeeps(s, a);
    case AQuitCapture(_, _, _, _) => CaptureKeeps(s, a);
    case AWrite(k) => WriteKeeps(s, k);
    case AOpen | AInstall(_, _, _) | AAbandon(_) | ABootstrap | APost(_, _) | AReDock(_) | ARestore(_, _) | AQuit => RequestsKeep(s, a);
  }

  lemma {:induction false} PersistenceHolds(s: System, actions: seq<Action>)
    requires Init(s)
    ensures Persistent(Reach(s, actions))
  {
    hide Step;
    if actions != [] {
      hide Persistent, Init;
      PersistenceHolds(s, actions[..|actions| - 1]);
      StepKeeps(Reach(s, actions[..|actions| - 1]), actions[|actions| - 1]);
    }
  }

  /** Once every captured save has been written, the file holds the one captured last under the window lock. */
  lemma LastCaptureWins(s0: System, actions: seq<Action>)
    requires Init(s0) && Reach(s0, actions).captured != [] && Reach(s0, actions).unwritten == {}
    ensures var s := Reach(s0, actions); s.file == Some(s.captured[|s.captured| - 1].preference)
  {
    hide Reach;
    PersistenceHolds(s0, actions);
    var s := Reach(s0, actions);
    assert Written(s, |s.captured| - 1);
  }

  /** At any time the file holds the newest of the captures already written. */
  lemma FileIsNewestWritten(s0: System, actions: seq<Action>, i: nat)
    requires Init(s0) && Written(Reach(s0, actions), i)
    ensures exists j :: i <= j && Written(Reach(s0, actions), j) && Reach(s0, actions).file == Some(Reach(s0, actions).captured[j].preference)
                        && forall k :: Written(Reach(s0, actions), k) ==> k <= j
  {
    hide Reach;
    PersistenceHolds(s0, actions);
    var s := Reach(s0, actions);
    var j :| Written(s, j) && s.captured[j].gen == s.savedGen && s.file == Some(s.captured[j].preference);
    forall k | Written(s, k) ensures k <= j {}
  }

  /** No save is captured while an attempt is bootstrapping or bootstrapped. */
  lemma {:induction false} NoCaptureWhileUncommitted(s0: System, actions: seq<Action>, i: nat)
    requires Init(s0) && i < |Reach(s0, actions).captured|
    ensures Reach(s0, actions).captured[i].phase != Bootstrapping && Reach(s0, actions).captured[i].phase != Bootstrapped
    ensures forall a: Action :: Uncommitted(Reach(s0, actions).w) && (a.ACapture? || a.AQuitCapture?) ==>
              Step(Reach(s0, actions), a).captured == Reach(s0, actions).captured
  {
    hide Reach;
    PersistenceHolds(s0, actions);
  }
}
