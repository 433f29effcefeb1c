/**
 Persisting the grant set through crashes: internal/ai/consent.go over internal/filesystem/atomic.go, one step per
 effect on the file system, with a crash allowed between any two of them.
 */
module ConsentCrash {
  import opened Options
  import opened ConsentFile

  // The consent file's content; None when there is no file.
  type Content = Option<Bytes>

  // Where a persist has got to; each phase is named for its next effect.
  datatype Phase =
    | Idle
    | Writing(next: Grants, data: Bytes) | Renaming(next: Grants, data: Bytes) | Syncing(next: Grants, data: Bytes)
    | Checking(next: Grants, data: Bytes)

  /**
   `visible` is the file as the running system sees it, `durable` every content a power failure may leave.
   `memory` is the open store's grant set, None while no store is open or it is unavailable. `promised` and
   `attempted` record the last set memory authorised and every set a persist was begun with.
   */
  datatype Machine = Machine(
    visible: Content, durable: set<Content>, memory: Option<Grants>, phase: Phase, promised: Grants, attempted: set<Grants>)

  datatype Event =
    | Open(synced: bool, private: bool) | Begin(next: Grants, data: Bytes)
    | Temp(ok: bool) | Rename(ok: bool) | Sync(ok: bool) | Check(ok: bool)
    | ProcessCrash | PowerFailure(survivor: Content)

  ghost predicate Within(a: Grants, b: Grants) { forall d :: d in a ==> d in b && b[d] == a[d] }

  ghost predicate FileSet(c: Content, g: Grants, h: Host) { if c.None? then g == map[] else Readable(c.value, g, h) }

  // What an open reads: nothing for a file over the limit or one that does not parse.
  ghost function Read(c: Content, h: Host): Option<Grants> {
    if c.Some? && |c.value| > CONSENT_LIMIT then None
    else if g :| FileSet(c, g, h) then Some(g)
    else None
  }

  ghost predicate CanBegin(m: Machine, next: Grants, data: Bytes, h: Host) {
    m.memory.Some? && m.phase.Idle? && GrantsOk(next, h) && Within(m.memory.value, next) && Holds(data, next, h)
  }

  ghost function Opened(m: Machine, private: bool, h: Host): Machine {
    var synced := m.(durable := {m.visible});
    var read := Read(m.visible, h);
    if !private || read.None? then synced else synced.(memory := read, promised := read.value)
  }

  // A step that is not enabled changes nothing.
  ghost function Step(m: Machine, e: Event, h: Host): Machine {
    match e
    case Open(synced, private) => if m.memory.None? && m.phase.Idle? && synced then Opened(m, private, h) else m
    case Begin(next, data) =>
      if CanBegin(m, next, data, h) then m.(phase := Writing(next, data), attempted := m.attempted + {next}) else m
    case Temp(ok) => if !m.phase.Writing? then m else m.(phase := if ok then Renaming(m.phase.next, m.phase.data) else Idle)
    case Rename(ok) =>
      if !m.phase.Renaming? then m
      else if !ok then m.(phase := Idle)
      else m.(visible := Some(m.phase.data), durable := m.durable + {Some(m.phase.data)}, phase := Syncing(m.phase.next, m.phase.data))
    case Sync(ok) =>
      if !m.phase.Syncing? then m
      else if !ok then m.(phase := Idle)
      else m.(durable := {m.visible}, phase := Checking(m.phase.next, m.phase.data))
    case Check(ok) =>
      if !m.phase.Checking? then m
      else if !ok then m.(phase := Idle)
      else m.(memory := Some(m.phase.next), promised := m.phase.next, phase := Idle)
    case ProcessCrash => m.(memory := None, phase := Idle)
    case PowerFailure(c) => if c in m.durable then m.(visible := c, durable := {c}, memory := None, phase := Idle) else m
  }

  ghost function Run(found: Content, events: seq<Event>, h: Host): Machine {
    if events == [] then Machine(found, {found}, None, Idle, map[], {})
    else Step(Run(found, events[..|events| - 1], h), events[|events| - 1], h)
  }

  // ----- the invariant --------------------------------------------------------------------------

  // A whole attempted set, or the file found at first.
  ghost predicate Known(m: Machine, c: Content, found: Content, h: Host) {
    c == found || (c.Some? && exists g :: g in m.attempted && Holds(c.value, g, h))
  }

  // Whatever a content reads as contains the promised grants, and if any are promised it does read as something.
  ghost predicate Keeps(c: Content, promised: Grants, h: Host) {
    promised == map[] || exists g :: FileSet(c, g, h) && Within(promised, g)
  }

  ghost predicate PhaseOk(m: Machine, h: Host) {
    !m.phase.Idle? ==>
      && m.memory.Some? && m.phase.next in m.attempted && Within(m.promised, m.phase.next) && Holds(m.phase.data, m.phase.next, h)
      && (m.phase.Syncing? || m.phase.Checking? ==> m.visible == Some(m.phase.data))
      && (m.phase.Checking? ==> m.durable == {m.visible})
  }

  ghost predicate Inv(m: Machine, found: Content, h: Host) {
    && m.visible in m.durable && PhaseOk(m, h)
    && (m.memory.Some? ==> m.memory.value == m.promised)
    && (forall g :: g in m.attempted ==> GrantsOk(g, h))
    && forall c :: c in m.durable ==> Known(m, c, found, h) && Keeps(c, m.promised, h)
  }

  lemma OneFileSet(c: Content, a: Grants, b: Grants, h: Host)
    requires FileSet(c, a, h) && FileSet(c, b, h)
    ensures a == b
  {
    hide IsSetOf;
    if c.Some? { OneSet(h.decode(c.value).value.grants, a, b, h); }
  }

  lemma ReadIs(c: Content, g: Grants, h: Host)
    requires FileSet(c, g, h) && (c.Some? ==> |c.value| <= CONSENT_LIMIT)
    ensures Read(c, h) == Some(g)
  {
    hide FileSet;
    var other :| Read(c, h) == Some(other) && FileSet(c, other, h);
    OneFileSet(c, other, g, h);
  }

  lemma HeldKeeps(data: Bytes, g: Grants, promised: Grants, h: Host)
    requires HostOk(h) && GrantsOk(g, h) && Holds(data, g, h) && Within(promised, g)
    ensures Keeps(Some(data), promised, h)
  {
    hide GrantsOk, Holds, Readable;
    HoldsReadsBack(data, g, h);
    assert FileSet(Some(data), g, h);
  }

  lemma KeepsMore(c: Content, promised: Grants, h: Host)
    requires Keeps(c, promised, h) && Read(c, h).Some?
    ensures Within(promised, Read(c, h).value) && Keeps(c, Read(c, h).value, h)
  {
    hide FileSet;
    var g := Read(c, h).value;
    assert FileSet(c, g, h);
    if promised != map[] {
      var other :| FileSet(c, other, h) && Within(promised, other);
      OneFileSet(c, g, other, h);
    }
  }

  lemma OpenKeeps(m: Machine, private: bool, found: Content, h: Host)
    requires Inv(m, found, h) && m.phase.Idle? && m.memory.None?
    ensures Inv(Opened(m, private, h), found, h) && Within(m.promised, Opened(m, private, h).promised)
  {
    hide Keeps, GrantsOk, Holds, Read;
    if Read(m.visible, h).Some? { KeepsMore(m.visible, m.promised, h); }
  }

  lemma RenameKeeps(m: Machine, found: Content, h: Host)
    requires HostOk(h) && Inv(m, found, h) && m.phase.Renaming?
    ensures Inv(Step(m, Rename(true), h), found, h)
  {
    hide Keeps, GrantsOk, Holds, Within, HostOk;
    HeldKeeps(m.phase.data, m.phase.next, m.promised, h);
  }

  lemma CheckKeeps(m: Machine, found: Content, h: Host)
    requires HostOk(h) && Inv(m, found, h) && m.phase.Checking?
    ensures Inv(Step(m, Check(true), h), found, h) && Within(m.promised, Step(m, Check(true), h).promised)
  {
    hide Keeps, GrantsOk, Holds, HostOk;
    assert Within(m.phase.next, m.phase.next);
    HeldKeeps(m.phase.data, m.phase.next, m.phase.next, h);
  }

  lemma StepKeeps(m: Machine, e: Event, found: Content, h: Host)
    requires HostOk(h) && Inv(m, found, h)
    ensures Inv(Step(m, e, h), found, h) && Within(m.promised, Step(m, e, h).promised)
  {
    if e.Open? && m.memory.None? && m.phase.Idle? {
      hide Keeps, GrantsOk, Holds, Inv, Opened, HostOk;
      OpenKeeps(m, e.private, found, h);
    } else if e.Rename? && m.phase.Renaming? && e.ok {
      hide Keeps, GrantsOk, Holds, Inv, Opened, HostOk;
      RenameKeeps(m, found, h);
    } else if e.Check? && m.phase.Checking? && e.ok {
      hide Keeps, GrantsOk, Holds, Inv, Opened, HostOk, Within;
      CheckKeeps(m, found, h);
    } else {
      QuietStepKeeps(m, e, found, h);
    }
  }

  lemma QuietStepKeeps(m: Machine, e: Event, found: Content, h: Host)
    requires Inv(m, found, h)
    requires !(e.Open? && m.memory.None? && m.phase.Idle?)
    requires !(e.Rename? && m.phase.Renaming? && e.ok) && !(e.Check? && m.phase.Checking? && e.ok)
    ensures Inv(Step(m, e, h), found, h) && m.promised == Step(m, e, h).promised
  {
    hide Keeps, GrantsOk, Holds, Opened, HostOk;
  }

  // ----- the theorems ---------------------------------------------------------------------------

  lemma {:induction false} RunHolds(found: Content, events: seq<Event>, h: Host)
    requires HostOk(h)
    ensures Inv(Run(found, events, h), found, h)
  {
    hide Step, HostOk;
    if events == [] {
    } else {
      hide Inv;
      RunHolds(found, events[..|events| - 1], h);
      StepKeeps(Run(found, events[..|events| - 1], h), events[|events| - 1], found, h);
    }
  }

  lemma {:induction false} PromisesGrow(found: Content, before: seq<Event>, after: seq<Event>, h: Host)
    requires HostOk(h)
    ensures Within(Run(found, before, h).promised, Run(found, before + after, h).promised)
  {
    hide Step, HostOk, Inv;
    if after == [] {
      assert before + after == before;
    } else {
      var init := after[..|after| - 1];
      PromisesGrow(found, before, init, h);
      RunHolds(found, before + init, h);
      assert (before + after)[..|before + after| - 1] == before + init;
      StepKeeps(Run(found, before + init, h), after[|after| - 1], found, h);
    }
  }

  /**
   Whatever crashed or failed, every content a later open can find is the file found at first or one complete
   attempted set, and an open of that set's file reads exactly that set if and only if it is within the read limit.
   */
  lemma FoundSetsAreWhole(found: Content, events: seq<Event>, c: Content, h: Host)
    requires HostOk(h) && c in Run(found, events, h).durable
    ensures c == found || (c.Some? && exists g :: g in Run(found, events, h).attempted && Holds(c.value, g, h))
    ensures forall g :: g in Run(found, events, h).attempted && c.Some? && Holds(c.value, g, h) ==>
              (Read(c, h) == Some(g) <==> |c.value| <= CONSENT_LIMIT)
  {
    RunHolds(found, events, h);
    hide Run, Keeps, Holds, GrantsOk, HostOk, Within, Read, PhaseOk;
    var m := Run(found, events, h);
    assert Known(m, c, found, h);
    forall g | g in m.attempted && c.Some? && Holds(c.value, g, h) ensures Read(c, h) == Some(g) <==> |c.value| <= CONSENT_LIMIT {
      HeldReads(c, g, h);
    }
  }

  lemma HeldReads(c: Content, g: Grants, h: Host)
    requires HostOk(h) && GrantsOk(g, h) && c.Some? && Holds(c.value, g, h)
    ensures FileSet(c, g, h) && (Read(c, h) == Some(g) <==> |c.value| <= CONSENT_LIMIT)
  {
    HoldsReadsBack(c.value, g, h);
    if |c.value| <= CONSENT_LIMIT { ReadIs(c, g, h); }
  }

  // A persist whose every effect succeeds, then a process crash and a reopen.
  ghost function PersistThenReopen(next: Grants, data: Bytes): seq<Event> {
    [Open(true, true), Begin(next, data), Temp(true), Rename(true), Sync(true), Check(true), ProcessCrash, Open(true, true)]
  }

  /**
   The limit can be crossed: a set persisted in full, and authorised until the process ends, reads as nothing afterwards
   when its file is over the limit. One record with an over-long provider is enough for an encoding that spells providers out.
   */
  lemma OversizedSetIsRefused(rec: Record, h: Host)
    requires HostOk(h) && RecordOk(rec, h) && |rec.provider| > CONSENT_LIMIT
    requires forall doc: Document, i :: 0 <= i < |doc.grants| ==> |h.encode(doc)| >= |doc.grants[i].provider|
    ensures var g := map[rec.digest := rec];
            exists data :: Holds(data, g, h) && |data| > CONSENT_LIMIT
                           && Run(None, PersistThenReopen(g, data)[..6], h).memory == Some(g)
                           && Run(None, PersistThenReopen(g, data), h).memory == None
  {
    var g := map[rec.digest := rec];
    var data := h.encode(Document(CONSENT_VERSION, Records(g, h.sort([rec.digest]))));
    OneRecord(rec, h);
    OversizedRun(g, data, h);
    hide Run, Holds, HostOk, PersistThenReopen;
  }

  lemma OneRecord(rec: Record, h: Host)
    requires HostOk(h) && RecordOk(rec, h)
    requires forall doc: Document, i :: 0 <= i < |doc.grants| ==> |h.encode(doc)| >= |doc.grants[i].provider|
    ensures var g := map[rec.digest := rec]; var order := h.sort([rec.digest]);
            && Enumerates(order, g) && GrantsOk(g, h)
            && Holds(h.encode(Document(CONSENT_VERSION, Records(g, order))), g, h)
            && |h.encode(Document(CONSENT_VERSION, Records(g, order)))| >= |rec.provider|
  {
    var g, order := map[rec.digest := rec], [rec.digest];
    assert Enumerates(order, g);
    SortEnumerates(order, g, h);
    hide RecordOk, HostOk;
    var sorted := h.sort(order);
    var doc := Document(CONSENT_VERSION, Records(g, sorted));
    assert HoldsBy(h.encode(doc), g, order, h);
    var k :| 0 <= k < |sorted| && sorted[k] == rec.digest;
    assert doc.grants[k] == rec;
  }

  lemma OversizedRun(g: Grants, data: Bytes, h: Host)
    requires HostOk(h) && GrantsOk(g, h) && Holds(data, g, h) && |data| > CONSENT_LIMIT
    ensures Run(None, PersistThenReopen(g, data)[..6], h).memory == Some(g)
    ensures Run(None, PersistThenReopen(g, data), h).memory == None
  {
    var es := PersistThenReopen(g, data);
    hide GrantsOk, Holds, HostOk;
    ReadIs(None, map[], h);
    var m1 := Step(Run(None, [], h), es[0], h);
    assert m1.memory == Some(map[]) && CanBegin(m1, g, data, h);
    var m2 := Step(m1, es[1], h);
    var m5 := Step(Step(Step(m2, es[2], h), es[3], h), es[4], h);
    var m6 := Step(m5, es[5], h);
    assert m6.memory == Some(g) && m6.visible == Some(data);
    var m8 := Step(Step(m6, es[6], h), es[7], h);
    assert Read(Some(data), h) == None && m8.memory == None;
    hide Step, Read, PersistThenReopen;
    forall k | 0 <= k < 8 ensures Run(None, es[..k + 1], h) == Step(Run(None, es[..k], h), es[k], h) {
      assert es[..k + 1][..k] == es[..k];
    }
    assert es[..0] == [] && es[..8] == es;
  }

  /**
   A grant once authorised in memory is never lost: it is in every set memory later authorises, across crashes and
   reopens, and every content a later open can find contains it.
   */
  lemma GrantsOutliveCrashes(found: Content, before: seq<Event>, after: seq<Event>, d: string, c: Content, h: Host)
    requires HostOk(h)
    requires var m := Run(found, before, h); m.memory.Some? && d in m.memory.value
    requires c in Run(found, before + after, h).durable
    ensures var m := Run(found, before + after, h);
            && (m.memory.Some? ==> d in m.memory.value)
            && exists g :: FileSet(c, g, h) && d in g
  {
    RunHolds(found, before, h);
    RunHolds(found, before + after, h);
    PromisesGrow(found, before, after, h);
    hide Run, FileSet, Known, PhaseOk, GrantsOk;
    var m := Run(found, before + after, h);
    assert d in m.promised;
    assert Keeps(c, m.promised, h);
  }

  /** Memory never authorises what the disk could lose: while a store is open every possible content contains its set. */
  lemma MemoryIsDurable(found: Content, events: seq<Event>, c: Content, h: Host)
    requires HostOk(h) && Run(found, events, h).memory.Some? && c in Run(found, events, h).durable
    ensures Keeps(c, Run(found, events, h).memory.value, h)
  {
    RunHolds(found, events, h);
  }
}
