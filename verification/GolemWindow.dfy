/**
 The Golem window runtime of app_golem_window.go: what each transition does to the fields that
 golemWinMu guards. Timers are left out: a deadline or debounce is an action that may happen.
 */
module GolemWindow {
  datatype Phase = Closed | Bootstrapping | Bootstrapped | Ready | Closing

  datatype Frame = Frame(x: int, y: int, width: int, height: int)

  datatype Window = Window(
    undocked: bool,
    phase: Phase,
    instance: nat,
    handoff: nat,
    revision: nat,
    restorePending: bool,
    restoring: bool,
    instanceSeq: nat,
    handoffSeq: nat,
    handle: nat,        // native window id, 0 when there is none
    viewRevision: nat,  // revision of the retained view, 0 when there is none
    viewError: nat,     // revision of the retained view error, 0 when there is none
    transferId: nat,
    transferAcked: bool,
    lastNormal: Frame,
    saveGen: nat,
    retiringId: nat,
    retiringInstance: nat,
    retiringHandoff: nat,
    closeAuthorized: bool,
    observing: bool,
    retirementFailed: bool)

  datatype Role = Main | Satellite

  datatype Kind = View | ViewError | Ack | Drafts | ActionKind | ReadyKind | Abort

  /** One relayed message; `payload` is what Go reads of it, by kind. */
  datatype Message = Message(kind: Kind, instance: nat, handoff: nat, id: nat, revision: nat, payload: Payload)

  // An ack's ok flag (absent when the payload carries none), or whether any other payload is nonempty and in bounds.
  datatype Payload = AckFlag(present: bool, ok: bool) | Body(nonempty: bool, bounded: bool)

  predicate RoleMaySend(kind: Kind, from: Role) {
    match kind
    case View | ViewError => from == Main
    case Ack | Drafts | Abort => true
    case ActionKind | ReadyKind => from == Satellite
  }

  // validateGolemWindowMessage
  predicate ValidEnvelope(msg: Message, from: Role, instance: nat) {
    && RoleMaySend(msg.kind, from)
    && msg.instance == instance && instance != 0
    && (msg.kind == ActionKind || msg.kind == Drafts ==> msg.id != 0)
    && (msg.kind == ViewError ==> msg.id == 0 && msg.revision != 0)
    && (msg.payload.Body? ==> msg.payload.bounded)
  }

  // checkGolemHandoff
  predicate CurrentHandoff(msg: Message, handoff: nat) {
    match msg.kind
    case Drafts | ReadyKind | Abort => msg.handoff != 0 && msg.handoff == handoff
    case Ack => msg.handoff == 0 || msg.handoff == handoff
    case _ => msg.handoff == 0
  }

  // callerRole against the live handles: main is always live, the satellite while it has a handle.
  predicate Caller(w: Window, from: Role) { from == Satellite ==> w.handle != 0 }

  // PostGolemWindowMessage up to the accept.
  predicate Relayable(w: Window, msg: Message, from: Role) {
    Caller(w, from) && ValidEnvelope(msg, from, w.instance) && w.phase != Closed && CurrentHandoff(msg, w.handoff)
  }

  // uncommittedLocked
  predicate Uncommitted(w: Window) { w.phase == Bootstrapping || w.phase == Bootstrapped }

  // ----- what every transition keeps ------------------------------------------------------------

  // The phases, numbers and native window fit together.
  ghost predicate WindowOk(w: Window) {
    && (w.phase == Closed <==> w.instance == 0)
    && (w.phase == Closed ==> w.handoff == 0 && w.handle == 0 && !w.undocked && !w.closeAuthorized)
    && (w.phase != Closed ==> 0 < w.instance == w.instanceSeq && 0 < w.handoff == w.handoffSeq)
    && (w.phase == Ready ==> w.undocked)
    && (Uncommitted(w) ==> !w.undocked)
    && (w.phase == Bootstrapped || w.phase == Ready || w.phase == Closing ==> w.handle != 0)
    && (w.closeAuthorized ==>
          && w.phase == Closing && w.handle != 0
          && w.retiringId == w.handle && w.retiringInstance == w.instance && w.retiringHandoff == w.handoff)
    && (w.phase == Closing && !w.undocked ==> w.closeAuthorized)
    && (w.observing ==> w.closeAuthorized)
    && (w.retirementFailed ==> w.closeAuthorized && !w.observing)
    && (w.viewError != 0 ==> w.viewRevision < w.viewError)
  }

  // No new instance or handoff number was taken.
  predicate SameNumbers(w: Window, w': Window) { w'.instanceSeq == w.instanceSeq && w'.handoffSeq == w.handoffSeq }

  // The close authorization and its observer are as they were.
  predicate SameClose(w: Window, w': Window) {
    w'.closeAuthorized == w.closeAuthorized && w'.observing == w.observing && w'.retirementFailed == w.retirementFailed
  }

  function Transition(w: Window): (r: Window)
    ensures SameNumbers(w, r) && SameClose(w, r)
  {
    w.(revision := w.revision + 1, saveGen := w.saveGen + 1)
  }

  // retireLocked
  function Retire(w: Window): (r: Window)
    ensures SameNumbers(w, r)
  {
    Transition(w.(handle := 0, phase := Closed, undocked := false, restoring := false, instance := 0, handoff := 0,
                  viewRevision := 0, viewError := 0, transferId := 0, transferAcked := false,
                  closeAuthorized := false, retiringId := 0, retiringInstance := 0, retiringHandoff := 0,
                  retirementFailed := false, observing := false))
  }

  // OpenGolemWindow while closed: reserve a fresh instance and handoff.
  function Reserve(w: Window): (r: Window)
    ensures WindowOk(w) ==> WindowOk(r)
  {
    if w.phase != Closed then w
    else w.(instanceSeq := w.instanceSeq + 1, handoffSeq := w.handoffSeq + 1,
            instance := w.instanceSeq + 1, handoff := w.handoffSeq + 1, phase := Bootstrapping,
            restoring := w.restorePending, restorePending := false, viewRevision := 0, viewError := 0,
            transferId := 0, transferAcked := false, retirementFailed := false)
  }

  predicate Installable(w: Window, instance: nat) { w.instance == instance && w.phase == Bootstrapping && w.handle == 0 }

  // OpenGolemWindow after the native window exists.
  function Install(w: Window, instance: nat, id: nat, frame: Frame): (r: Window)
    ensures SameNumbers(w, r) && SameClose(w, r)
    ensures WindowOk(w) ==> WindowOk(r)
  {
    if Installable(w, instance) && id != 0 then Transition(w.(handle := id, lastNormal := frame)) else w
  }

  // abandonGolemOpen
  function Abandon(w: Window, instance: nat): (r: Window)
    ensures SameNumbers(w, r)
    ensures WindowOk(w) ==> WindowOk(r)
  {
    if Installable(w, instance) then Retire(w) else w
  }

  // BootstrapGolemWindow
  function Bootstrap(w: Window): (r: Window)
    ensures SameNumbers(w, r) && SameClose(w, r)
    ensures WindowOk(w) ==> WindowOk(r)
  {
    if Caller(w, Satellite) && w.phase == Bootstrapping then Transition(w.(phase := Bootstrapped)) else w
  }

  function AcceptView(w: Window, instance: nat, msg: Message): (r: Window)
    ensures SameNumbers(w, r) && SameClose(w, r)
    ensures WindowOk(w) ==> WindowOk(r)
  {
    if !msg.payload.Body? || !msg.payload.nonempty || msg.revision == 0 || w.instance != instance || msg.revision <= w.viewRevision then w
    else w.(viewRevision := msg.revision, viewError := if msg.revision >= w.viewError then 0 else w.viewError)
  }

  function AcceptViewError(w: Window, instance: nat, msg: Message): (r: Window)
    ensures SameNumbers(w, r) && SameClose(w, r)
    ensures WindowOk(w) ==> WindowOk(r)
  {
    if w.instance != instance || msg.revision <= w.viewRevision || (w.viewError != 0 && msg.revision <= w.viewError) then w
    else w.(viewError := msg.revision)
  }

  predicate DraftsAcceptable(w: Window, instance: nat, from: Role, msg: Message) {
    && w.instance == instance
    && (from == Main ==> Uncommitted(w))
    && (from == Satellite ==> w.phase == Closing && w.undocked)
    && (w.transferId == 0 || w.transferId == msg.id)
  }

  function AcceptDrafts(w: Window, instance: nat, from: Role, msg: Message): (r: Window)
    ensures SameNumbers(w, r) && SameClose(w, r)
    ensures WindowOk(w) ==> WindowOk(r)
  {
    if DraftsAcceptable(w, instance, from, msg) then w.(transferId := msg.id, transferAcked := false) else w
  }

  predicate AckAcceptable(w: Window, instance: nat, from: Role, msg: Message) {
    && msg.handoff != 0 && from == Main && msg.payload.AckFlag? && msg.payload.present
    && w.instance == instance && w.phase == Closing
    && w.transferId != 0 && msg.revision == w.transferId
  }

  function AcceptAck(w: Window, instance: nat, from: Role, msg: Message): (r: Window)
    ensures SameNumbers(w, r) && SameClose(w, r)
    ensures WindowOk(w) ==> WindowOk(r)
  {
    if AckAcceptable(w, instance, from, msg) then w.(transferAcked := msg.payload.ok) else w
  }

  predicate ReadyAcceptable(w: Window, instance: nat, msg: Message) {
    && w.instance == instance && w.phase == Bootstrapped && w.viewRevision != 0
    && w.transferId != 0 && msg.revision == w.transferId
  }

  function AcceptReady(w: Window, instance: nat, msg: Message): (r: Window)
    ensures SameNumbers(w, r) && SameClose(w, r)
    ensures WindowOk(w) ==> WindowOk(r)
  {
    if ReadyAcceptable(w, instance, msg)
    then Transition(w.(phase := Ready, undocked := true, restorePending := false))
    else w
  }

  // requestGolemReDock while ready.
  predicate ReDockable(w: Window, instance: nat) { w.instance == instance && w.phase == Ready }

  // requestGolemReDock while a failed retirement waits for a retry.
  predicate Retriable(w: Window, instance: nat) {
    w.instance == instance && w.phase == Closing && w.closeAuthorized && w.retirementFailed && !w.observing
  }

  function ReDock(w: Window, instance: nat): (r: Window)
    ensures WindowOk(w) ==> WindowOk(r)
  {
    if Retriable(w, instance) then Transition(w.(retirementFailed := false, observing := true))
    else if ReDockable(w, instance) then
      Transition(w.(phase := Closing, handoffSeq := w.handoffSeq + 1, handoff := w.handoffSeq + 1, transferId := 0, transferAcked := false))
    else w
  }

  predicate Restorable(w: Window, instance: nat, handoff: nat) {
    w.instance == instance && w.handoff == handoff && w.phase == Closing && !w.closeAuthorized
  }

  // restoreGolemReady
  function Restore(w: Window, instance: nat, handoff: nat): (r: Window)
    ensures SameNumbers(w, r) && SameClose(w, r)
    ensures WindowOk(w) ==> WindowOk(r)
  {
    if Restorable(w, instance, handoff) then Transition(w.(phase := Ready, transferId := 0, transferAcked := false)) else w
  }

  // authorizeGolemClose reaches its commit: an aborted bootstrap, or an acknowledged re-dock.
  predicate Authorizable(w: Window, instance: nat, handoff: nat, abort: bool) {
    && w.instance == instance && w.handoff == handoff && !w.closeAuthorized
    && (if abort then Uncommitted(w) else w.phase == Closing && w.transferId != 0 && w.transferAcked)
  }

  function Authorize(w: Window, instance: nat, handoff: nat, abort: bool, normal: bool, frame: Frame): (r: Window)
    ensures SameNumbers(w, r)
    ensures WindowOk(w) ==> WindowOk(r)
  {
    if !Authorizable(w, instance, handoff, abort) then w
    else if w.handle == 0 then Retire(w)
    else
      Transition(w.(lastNormal := if normal then frame else w.lastNormal, phase := Closing, closeAuthorized := true,
                    retiringId := w.handle, retiringInstance := instance, retiringHandoff := w.handoff,
                    retirementFailed := false, observing := true))
  }

  predicate Observed(w: Window, id: nat, instance: nat, handoff: nat) {
    w.retiringId == id && w.retiringInstance == instance && w.retiringHandoff == handoff && w.closeAuthorized
  }

  // observeGolemRetirement once its bounded wait is over.
  function Observe(w: Window, id: nat, instance: nat, handoff: nat, quitting: bool, gone: bool): (r: Window)
    ensures SameNumbers(w, r)
    ensures WindowOk(w) ==> WindowOk(r)
  {
    var w1 := w.(observing := false);
    if !Observed(w, id, instance, handoff) || quitting then w1
    else if !gone then Transition(w1.(retirementFailed := true))
    else Retire(w1)
  }

  // captureGolemFrame and saveGolemFrameForQuit up to the save they capture.
  function Capture(w: Window, frame: Frame): (r: Window)
    ensures SameNumbers(w, r) && SameClose(w, r)
    ensures WindowOk(w) ==> WindowOk(r)
  {
    if Uncommitted(w) then w.(lastNormal := frame) else w.(lastNormal := frame, saveGen := w.saveGen + 1)
  }

  function QuitCapture(w: Window, normal: bool, frame: Frame): (r: Window)
    ensures SameNumbers(w, r) && SameClose(w, r)
    ensures WindowOk(w) ==> WindowOk(r)
  {
    w.(lastNormal := if normal then frame else w.lastNormal, saveGen := w.saveGen + 1)
  }
}
