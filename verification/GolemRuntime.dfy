/** The window runtime as the object app_golem_window.go updates in place under golemWinMu, keeping its invariant. */
module GolemRuntime {
  import opened GolemWindow
  import opened GolemSafety

  datatype RetainedView = RetainedView(revision: nat, error: nat)

  datatype Transfer = Transfer(id: nat, acked: bool)

  /** The per-instance close authorization and its observer. */
  datatype Retirement = Retirement(id: nat, instance: nat, handoff: nat, authorized: bool, observing: bool, failed: bool)

  const NOT_RETIRING := Retirement(0, 0, 0, false, false, false)

  class GolemWindowRuntime {
    var undocked: bool
    var phase: Phase
    var instance: nat
    var handoff: nat
    var stateRevision: nat
    var restorePending: bool
    var restoring: bool
    var instanceSeq: nat
    var handoffSeq: nat
    var handle: nat
    var view: RetainedView
    var transfer: Transfer
    var lastNormal: Frame
    var saveGen: nat
    var retiring: Retirement

    ghost function Value(): Window
      reads this
    {
      Window(undocked, phase, instance, handoff, stateRevision, restorePending, restoring, instanceSeq, handoffSeq, handle,
             view.revision, view.error, transfer.id, transfer.acked, lastNormal, saveGen,
             retiring.id, retiring.instance, retiring.handoff, retiring.authorized, retiring.observing, retiring.failed)
    }

    ghost predicate Valid()
      reads this
    {
      WindowOk(Value())
    }

    // loadGolemWindowPreference: docked and closed until the frontend restores the saved window.
    constructor (savedUndocked: bool, frame: Frame)
      ensures Valid() && phase == Closed && !undocked && instance == 0 && handle == 0 && retiring == NOT_RETIRING
      ensures lastNormal == frame && restorePending == savedUndocked && saveGen == 0
    {
      undocked, phase, instance, handoff, stateRevision := false, Closed, 0, 0, 0;
      restorePending, restoring, instanceSeq, handoffSeq, handle := savedUndocked, false, 0, 0, 0;
      view, transfer, lastNormal, saveGen := RetainedView(0, 0), Transfer(0, false), frame, 0;
      retiring := NOT_RETIRING;
    }

    method Bump()
      modifies this
      ensures Value() == Transition(old(Value()))
    {
      stateRevision := stateRevision + 1;
      saveGen := saveGen + 1;
    }

    // The projection and transfer one attempt owns.
    method ForgetAttempt()
      modifies this
      ensures Value() == old(Value()).(viewRevision := 0, viewError := 0, transferId := 0, transferAcked := false)
    {
      view := RetainedView(0, 0);
      transfer := Transfer(0, false);
    }

    method ForgetRetirement()
      modifies this
      ensures Value() == old(Value()).(closeAuthorized := false, retiringId := 0, retiringInstance := 0, retiringHandoff := 0,
                                       retirementFailed := false, observing := false)
    {
      retiring := NOT_RETIRING;
    }

    // A fresh handoff number; no transfer is recorded for it.
    method NextHandoff()
      modifies this
      ensures Value() == old(Value()).(handoffSeq := old(handoffSeq) + 1, handoff := old(handoffSeq) + 1,
                                       transferId := 0, transferAcked := false)
    {
      handoffSeq := handoffSeq + 1;
      handoff := handoffSeq;
      transfer := Transfer(0, false);
    }

    method ForgetWindow()
      modifies this
      ensures Value() == old(Value()).(handle := 0, phase := Closed, undocked := false, restoring := false, instance := 0, handoff := 0)
    {
      handle := 0;
      phase := Closed;
      undocked := false;
      restoring := false;
      instance, handoff := 0, 0;
    }

    method RetireLocked()
      modifies this
      ensures Value() == Retire(old(Value()))
    {
      ForgetWindow();
      ForgetAttempt();
      ForgetRetirement();
      Bump();
    }

    // The reservation of OpenGolemWindow; `reserved` tells the caller to create the native window.
    method OpenReserve() returns (reserved: bool)
      requires Valid()
      modifies this
      ensures Value() == Reserve(old(Value()))
      ensures Valid()
      ensures reserved == (old(phase) == Closed)
    {
      hide WindowOk;
      reserved := phase == Closed;
      if reserved {
        instanceSeq := instanceSeq + 1;
        instance := instanceSeq;
        ForgetAttempt();
        NextHandoff();
        phase := Bootstrapping;
        restoring := restorePending;
        restorePending := false;
        retiring := retiring.(failed := false);
      }
    }

    method OpenInstall(attempt: nat, id: nat, frame: Frame) returns (superseded: bool)
      requires id != 0
      requires Valid()
      modifies this
      ensures Value() == Install(old(Value()), attempt, id, frame)
      ensures Valid()
      ensures superseded <==> !Installable(old(Value()), attempt)
    {
      hide WindowOk;
      superseded := instance != attempt || phase != Bootstrapping || handle != 0;
      if !superseded {
        handle := id;
        lastNormal := frame;
        Bump();
      }
    }

    // abandonGolemOpen: a reservation that got no native window ends docked and closed, its numbers used up.
    method AbandonOpen(attempt: nat) returns (retired: bool)
      requires Valid()
      modifies this
      ensures Value() == Abandon(old(Value()), attempt)
      ensures Valid()
      ensures retired <==> Installable(old(Value()), attempt)
      ensures retired ==> phase == Closed && !undocked && instance == 0 && handle == 0
                          && instanceSeq == old(instanceSeq) && handoffSeq == old(handoffSeq)
      ensures !retired ==> Value() == old(Value())
    {
      hide WindowOk;
      retired := instance == attempt && handle == 0 && phase == Bootstrapping;
      if retired {
        RetireLocked();
      }
    }

    // BootstrapGolemWindow called by the satellite: only the first call of an attempt moves on, and the rest change nothing.
    method BootstrapWindow() returns (first: bool, retained: RetainedView)
      requires Valid() && handle != 0
      modifies this
      ensures Value() == Bootstrap(old(Value()))
      ensures Valid()
      ensures first <==> old(phase) == Bootstrapping
      ensures phase == (if first then Bootstrapped else old(phase)) && phase != Closed && phase != Bootstrapping
      ensures retained == view == old(view)
      ensures !first ==> Value() == old(Value())
    {
      first := phase == Bootstrapping;
      if first {
        phase := Bootstrapped;
        Bump();
      }
      retained := view;
    }

    method AcceptViewMessage(current: nat, msg: Message) returns (accepted: bool)
      requires Valid()
      modifies this
      ensures Value() == AcceptView(old(Value()), current, msg)
      ensures Valid()
      ensures accepted ==> view.revision == msg.revision && (view.error != 0 ==> view.revision < view.error)
    {
      hide WindowOk;
      accepted := msg.payload.Body? && msg.payload.nonempty && msg.revision != 0 && instance == current && msg.revision > view.revision;
      if accepted {
        view := RetainedView(msg.revision, if view.error != 0 && msg.revision >= view.error then 0 else view.error);
      }
    }

    method AcceptDraftsMessage(current: nat, from: Role, msg: Message) returns (accepted: bool)
      requires Valid()
      modifies this
      ensures Value() == AcceptDrafts(old(Value()), current, from, msg)
      ensures Valid()
      ensures accepted <==> DraftsAcceptable(old(Value()), current, from, msg)
    {
      hide WindowOk;
      accepted := false;
      if instance != current {
        return;
      }
      if from == Main {
        if phase != Bootstrapping && phase != Bootstrapped {
          return;
        }
      } else if phase != Closing {
        return;
      } else if !undocked {
        return;
      }
      if transfer.id != 0 && transfer.id != msg.id {
        return;
      }
      transfer := Transfer(msg.id, false);
      accepted := true;
    }

    method AcceptAckMessage(current: nat, from: Role, msg: Message) returns (recorded: bool)
      requires Valid()
      modifies this
      ensures Value() == AcceptAck(old(Value()), current, from, msg)
      ensures Valid()
      ensures recorded <==> AckAcceptable(old(Value()), current, from, msg)
    {
      hide WindowOk;
      recorded := false;
      if msg.handoff == 0 || from != Main || !msg.payload.AckFlag? || !msg.payload.present {
        return;
      }
      if instance != current || phase != Closing {
        return;
      }
      if transfer.id == 0 || msg.revision != transfer.id {
        return;
      }
      transfer := transfer.(acked := msg.payload.ok);
      recorded := true;
    }

    method AcceptReadyMessage(current: nat, msg: Message) returns (committed: bool)
      requires Valid()
      modifies this
      ensures Value() == AcceptReady(old(Value()), current, msg)
      ensures Valid()
      ensures committed <==> ReadyAcceptable(old(Value()), current, msg)
      ensures committed ==> saveGen == old(saveGen) + 1
    {
      hide WindowOk;
      committed := false;
      if instance != current || phase != Bootstrapped || view.revision == 0 {
        return;
      }
      if transfer.id == 0 || msg.revision != transfer.id {
        return;
      }
      phase := Ready;
      undocked := true;
      restorePending := false;
      Bump();
      committed := true;
    }

    // requestGolemReDock outside the bootstrap phases; `observe` tells the caller to start a fresh observer.
    method RequestReDock(current: nat) returns (observe: bool)
      requires Valid()
      modifies this
      ensures Value() == ReDock(old(Value()), current)
      ensures Valid()
      ensures observe <==> Retriable(old(Value()), current)
    {
      hide WindowOk;
      observe := false;
      if instance != current {
        return;
      }
      if phase == Closing {
        if retiring.authorized && retiring.failed && !retiring.observing {
          retiring := retiring.(failed := false, observing := true);
          Bump();
          observe := true;
        }
        return;
      }
      if phase == Ready {
        phase := Closing;
        NextHandoff();
        Bump();
      }
    }

    method RestoreReady(current: nat, currentHandoff: nat) returns (restored: bool)
      requires Valid()
      modifies this
      ensures Value() == Restore(old(Value()), current, currentHandoff)
      ensures Valid()
      ensures restored <==> Restorable(old(Value()), current, currentHandoff)
    {
      hide WindowOk;
      restored := instance == current && handoff == currentHandoff && phase == Closing && !retiring.authorized;
      if restored {
        phase := Ready;
        transfer := Transfer(0, false);
        Bump();
      }
    }

    // authorizeGolemClose; `close` tells the caller to issue the one native close and arm the observer.
    method AuthorizeClose(current: nat, currentHandoff: nat, abort: bool, normal: bool, frame: Frame) returns (close: bool)
      requires Valid()
      modifies this
      ensures Value() == Authorize(old(Value()), current, currentHandoff, abort, normal, frame)
      ensures Valid()
      ensures close <==> Authorizable(old(Value()), current, currentHandoff, abort) && old(handle) != 0
    {
      hide WindowOk;
      close := false;
      if instance != current || handoff != currentHandoff || retiring.authorized {
        return;
      }
      if abort {
        if phase != Bootstrapping && phase != Bootstrapped {
          return;
        }
      } else if phase != Closing || transfer.id == 0 || !transfer.acked {
        return;
      }
      if handle == 0 {
        RetireLocked();
        return;
      }
      if normal {
        lastNormal := frame;
      }
      phase := Closing;
      retiring := Retirement(handle, current, handoff, true, true, false);
      Bump();
      close := true;
    }

    // observeGolemRetirement after its wait; `save` tells the caller to save the docked preference.
    method ObserverDone(id: nat, current: nat, currentHandoff: nat, quitting: bool, gone: bool) returns (save: bool)
      requires Valid()
      modifies this
      ensures Value() == Observe(old(Value()), id, current, currentHandoff, quitting, gone)
      ensures Valid()
      ensures save <==> Observed(old(Value()), id, current, currentHandoff) && !quitting && gone
    {
      hide WindowOk;
      save := false;
      retiring := retiring.(observing := false);
      if retiring.id != id || retiring.instance != current || retiring.handoff != currentHandoff || !retiring.authorized {
        return;
      }
      if quitting {
        return;
      }
      if !gone {
        retiring := retiring.(failed := true);
        Bump();
        return;
      }
      RetireLocked();
      save := true;
    }

    // captureGolemFrame; `save` tells the caller to save the live mode with this frame.
    method CaptureFrame(current: nat, frame: Frame) returns (save: bool)
      requires Valid()
      modifies this
      ensures Value() == if old(instance) == current then Capture(old(Value()), frame) else old(Value())
      ensures Valid()
      ensures save <==> old(instance) == current && !Uncommitted(old(Value()))
    {
      hide WindowOk;
      save := false;
      if instance != current {
        return;
      }
      lastNormal := frame;
      if phase == Bootstrapping || phase == Bootstrapped {
        return;
      }
      saveGen := saveGen + 1;
      save := true;
    }
  }
}
