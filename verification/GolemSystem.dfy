/**
 The two-window handoff as a transition system: the window runtime, the envelopes between their check and
 their acceptance, the retirement observers, and the saves between their capture and their disk write.
 Every request may arrive at any time with any instance and handoff it once read; the runtime's own
 re-checks are what keeps it safe.
 */
module GolemSystem {
  import opened Options
  import opened GolemWindow

  datatype Preference = Preference(undocked: bool, frame: Frame)

  /** A save captured under the window lock: its generation, and the phase the capture left behind. */
  datatype Save = Save(gen: nat, preference: Preference, phase: Phase)

  datatype Observer = Observer(id: nat, instance: nat, handoff: nat)

  /** A message whose envelope was checked against `instance`, waiting for its accept. */
  datatype Posted = Posted(from: Role, message: Message, instance: nat)

  /** A close authorization: the state it was granted in, and what main last said about the final drafts. */
  datatype Authorization = Authorization(
    instance: nat, handle: nat, phase: Phase, wasReady: bool, draft: Option<nat>, ack: Option<(nat, bool)>)

  datatype System = System(
    w: Window,
    quit: bool,
    posted: set<Posted>,
    observers: seq<Observer>,
    // Persistence.
    captured: seq<Save>,
    unwritten: set<nat>,
    savedGen: nat,
    file: Option<Preference>,
    // History.
    instances: seq<nat>,
    handoffs: seq<nat>,
    ready: set<nat>,
    returned: seq<nat>,
    authorizations: seq<Authorization>,
    retired: seq<nat>,
    // Since the current closing began: the final draft id the satellite recorded, and main's last transfer ack.
    draft: Option<nat>,
    ack: Option<(nat, bool)>)

  predicate Init(s: System) {
    && s.w.phase == Closed && !s.w.undocked && s.w.instance == 0 && s.w.handoff == 0
    && s.w.instanceSeq == 0 && s.w.handoffSeq == 0 && s.w.handle == 0 && s.w.saveGen == 0
    && s.w.viewRevision == 0 && s.w.viewError == 0 && s.w.transferId == 0 && !s.w.transferAcked
    && s.w.retiringId == 0 && s.w.retiringInstance == 0 && s.w.retiringHandoff == 0
    && !s.w.closeAuthorized && !s.w.observing && !s.w.retirementFailed
    && s.posted == {} && s.observers == [] && s.captured == [] && s.unwritten == {} && s.savedGen == 0
    && s.instances == [] && s.handoffs == [] && s.ready == {} && s.returned == [] && s.authorizations == [] && s.retired == []
    && s.draft.None? && s.ack.None?
  }

  // A window change that captures a save of its own mode and frame.
  function Captured(s: System, undocked: bool): (r: System)
    ensures SameNumbers(s.w, r.w) && SameClose(s.w, r.w) && r.quit == s.quit
  {
    var save := Save(s.w.saveGen, Preference(undocked, s.w.lastNormal), s.w.phase);
    s.(captured := s.captured + [save], unwritten := s.unwritten + {|s.captured|})
  }

  datatype Action =
    | AOpen | AInstall(instance: nat, id: nat, frame: Frame) | AAbandon(instance: nat) | ABootstrap
    | APost(from: Role, message: Message) | AAccept(posted: Posted)
    | AReDock(instance: nat) | ARestore(instance: nat, handoff: nat)
    | AAuthorize(instance: nat, handoff: nat, abort: bool, normal: bool, frame: Frame)
    | AObserve(observer: nat, quitting: bool, gone: bool)
    | ACapture(instance: nat, frame: Frame) | AQuit | AQuitCapture(instance: nat, handle: nat, normal: bool, frame: Frame)
    | AWrite(save: nat)

  function Open(s: System): System {
    if s.w.phase != Closed then s
    else
      var w := Reserve(s.w);
      s.(w := w, instances := s.instances + [w.instance], handoffs := s.handoffs + [w.handoff], draft := None, ack := None)
  }

  function Post(s: System, from: Role, msg: Message): (r: System)
    ensures SameNumbers(s.w, r.w) && SameClose(s.w, r.w) && r.quit == s.quit
  {
    if Relayable(s.w, msg, from) then s.(posted := s.posted + {Posted(from, msg, s.w.instance)}) else s
  }

  function AcceptedDrafts(s: System, p: Posted): (r: System)
    ensures SameNumbers(s.w, r.w) && SameClose(s.w, r.w) && r.quit == s.quit
  {
    var s1 := s.(w := AcceptDrafts(s.w, p.instance, p.from, p.message));
    if p.from == Satellite && DraftsAcceptable(s.w, p.instance, p.from, p.message)
    then s1.(returned := s.returned + [p.instance], draft := Some(p.message.id), ack := None) else s1
  }

  function AcceptedAck(s: System, p: Posted): (r: System)
    ensures SameNumbers(s.w, r.w) && SameClose(s.w, r.w) && r.quit == s.quit
  {
    var s1 := s.(w := AcceptAck(s.w, p.instance, p.from, p.message));
    if AckAcceptable(s.w, p.instance, p.from, p.message) then s1.(ack := Some((p.message.revision, p.message.payload.ok))) else s1
  }

  function AcceptedReady(s: System, p: Posted): (r: System)
    ensures SameNumbers(s.w, r.w) && SameClose(s.w, r.w) && r.quit == s.quit
  {
    if ReadyAcceptable(s.w, p.instance, p.message)
    then Captured(s.(w := AcceptReady(s.w, p.instance, p.message), ready := s.ready + {p.instance}), true)
    else s
  }

  function Accept(s: System, p: Posted): (r: System)
    ensures SameNumbers(s.w, r.w) && SameClose(s.w, r.w) && r.quit == s.quit
  {
    if p !in s.posted then s
    else
      var s1 := s.(posted := s.posted - {p});
      match p.message.kind
      case View => s1.(w := AcceptView(s.w, p.instance, p.message))
      case ViewError => s1.(w := AcceptViewError(s.w, p.instance, p.message))
      case Drafts => AcceptedDrafts(s1, p)
      case Ack => AcceptedAck(s1, p)
      case ReadyKind => AcceptedReady(s1, p)
      // An action changes nothing here; an abort acts through ARestore or AAuthorize.
      case ActionKind | Abort => s1
  }

  function RequestReDock(s: System, instance: nat): System {
    var s1 := s.(w := ReDock(s.w, instance));
    if Retriable(s.w, instance) then
      s1.(observers := s.observers + [Observer(s.w.retiringId, instance, s.w.retiringHandoff)])
    else if ReDockable(s.w, instance) then s1.(handoffs := s.handoffs + [s1.w.handoff], draft := None, ack := None)
    else s1
  }

  function RequestAuthorize(s: System, instance: nat, handoff: nat, abort: bool, normal: bool, frame: Frame): (r: System)
    ensures SameNumbers(s.w, r.w)
  {
    var s1 := s.(w := Authorize(s.w, instance, handoff, abort, normal, frame));
    if !Authorizable(s.w, instance, handoff, abort) then s
    else if s.w.handle == 0 then s1.(retired := s.retired + [instance])
    else
      s1.(observers := s.observers + [Observer(s.w.handle, instance, s.w.handoff)],
          authorizations := s.authorizations + [Authorization(instance, s.w.handle, s.w.phase, instance in s.ready, s.draft, s.ack)])
  }

  function FinishObserver(s: System, k: nat, quitting: bool, gone: bool): (r: System)
    ensures SameNumbers(s.w, r.w)
  {
    if k >= |s.observers| || (quitting && !s.quit) then s
    else
      var o := s.observers[k];
      var s1 := s.(w := Observe(s.w, o.id, o.instance, o.handoff, quitting, gone), observers := s.observers[..k] + s.observers[k + 1..]);
      if Observed(s.w, o.id, o.instance, o.handoff) && !quitting && gone
      then Captured(s1.(retired := s.retired + [o.instance]), false) else s1
  }

  // saveGolemPreference, when the store accepts the write.
  function Write(s: System, k: nat): (r: System)
    ensures SameNumbers(s.w, r.w) && SameClose(s.w, r.w) && r.quit == s.quit
  {
    if k !in s.unwritten || k >= |s.captured| then s
    else
      var s1 := s.(unwritten := s.unwritten - {k});
      if s.captured[k].gen < s.savedGen then s1
      else s1.(savedGen := s.captured[k].gen, file := Some(s.captured[k].preference))
  }

  function Step(s: System, a: Action): System {
    match a
    case AOpen => Open(s)
    case AInstall(instance, id, frame) => s.(w := Install(s.w, instance, id, frame))
    case AAbandon(instance) => if Installable(s.w, instance) then s.(w := Abandon(s.w, instance), retired := s.retired + [instance]) else s
    case ABootstrap => s.(w := Bootstrap(s.w))
    case APost(from, msg) => Post(s, from, msg)
    case AAccept(p) => Accept(s, p)
    case AReDock(instance) => RequestReDock(s, instance)
    case ARestore(instance, handoff) =>
      if Restorable(s.w, instance, handoff) then s.(w := Restore(s.w, instance, handoff), draft := None, ack := None) else s
    case AAuthorize(instance, handoff, abort, normal, frame) => RequestAuthorize(s, instance, handoff, abort, normal, frame)
    case AObserve(k, quitting, gone) => FinishObserver(s, k, quitting, gone)
    case ACapture(instance, frame) =>
      if instance == 0 || s.w.instance != instance then s
      else
        var s1 := s.(w := Capture(s.w, frame));
        if Uncommitted(s.w) then s1 else Captured(s1, s.w.undocked)
    case AQuit => s.(quit := true)
    case AQuitCapture(instance, handle, normal, frame) =>
      if !s.quit || instance == 0 || s.w.instance != instance || s.w.handle != handle then s
      else
        var s1 := s.(w := QuitCapture(s.w, normal, frame));
        if Uncommitted(s.w) then s1 else Captured(s1, s.w.undocked && !s.w.closeAuthorized)
    case AWrite(k) => Write(s, k)
  }

  /** The state after a whole run: any interleaving of any length. */
  function Reach(s: System, actions: seq<Action>): System {
    if actions == [] then s else Step(Reach(s, actions[..|actions| - 1]), actions[|actions| - 1])
  }
}
