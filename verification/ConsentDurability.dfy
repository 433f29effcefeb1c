/**
 The service over its consent store and the store over a disk that may crash: what a launch was consented to is still
 granted to every later process.
 */
module ConsentDurability {
  import opened Options
  import opened ServiceState
  import opened ServiceSteps
  import opened ServiceInvariant
  import opened ServiceTheorems
  import Disk = ConsentCrash
  import File = ConsentFile
  import Stores = ConsentStores

  // The digest string under which the store holds a destination.
  function Key(d: DestinationDigest, h: File.Host): string { h.digest(d.provider, d.endpoint) }

  // One critical section of the service, with what the store did meanwhile.
  datatype Move = Move(action: Action, events: seq<Disk.Event>)

  function Actions(moves: seq<Move>): seq<Action> { seq(|moves|, i requires 0 <= i < |moves| => moves[i].action) }

  function Events(moves: seq<Move>): seq<Disk.Event> {
    if moves == [] then [] else Events(moves[..|moves| - 1]) + moves[|moves| - 1].events
  }

  // Every grant the service answers by is in the open store's memory.
  ghost predicate Backed(granted: set<DestinationDigest>, m: Disk.Machine, h: File.Host) {
    m.memory.Some? && forall d :: d in granted ==> Key(d, h) in m.memory.value
  }

  /**
   A run of one process: the store stays open, the service starts with grants it holds, and a section that grants something
   does so only on the store's success, which leaves what it asked for in memory.
   */
  ghost predicate Joined(s0: State, found: Disk.Content, before: seq<Disk.Event>, moves: seq<Move>, h: File.Host) {
    var m := Disk.Run(found, before + Events(moves), h);
    if moves == [] then Init(s0) && Backed(s0.consent.granted, m, h)
    else
      var init := moves[..|moves| - 1];
      && Joined(s0, found, before, init, h) && m.memory.Some?
      && Backed(Reach(s0, Actions(moves)).consent.granted - Reach(s0, Actions(init)).consent.granted, m, h)
  }

  // What the store's success means, for the batch it was asked for.
  lemma GrantedIsBacked(g: File.Grants, ds: seq<File.ClaimedDestination>, now: string, h: File.Host, d: File.ClaimedDestination)
    requires File.GrantsOk(g, h) && Stores.Merged(g, ds, now, h).Some? && d in ds
    ensures Key(DestinationDigest(d.provider, d.endpoint), h) in Stores.Merged(g, ds, now, h).value
  {
    Stores.MergedIs(g, ds, now, h);
  }

  lemma MemoryGrows(found: Disk.Content, before: seq<Disk.Event>, after: seq<Disk.Event>, h: File.Host, x: string)
    requires File.HostOk(h) && Disk.Run(found, before, h).memory.Some? && x in Disk.Run(found, before, h).memory.value
    requires Disk.Run(found, before + after, h).memory.Some?
    ensures x in Disk.Run(found, before + after, h).memory.value
  {
    hide *;
    var m := Disk.Run(found, before + after, h);
    Disk.RunHolds(found, before + after, h);
    VisibleDurable(m, found, h);
    Disk.GrantsOutliveCrashes(found, before, after, x, m.visible, h);
  }

  lemma VisibleDurable(m: Disk.Machine, found: Disk.Content, h: File.Host)
    requires Disk.Inv(m, found, h)
    ensures m.visible in m.durable
  {
  }

  lemma {:induction false} GrantsAreBacked(s0: State, found: Disk.Content, before: seq<Disk.Event>, moves: seq<Move>, h: File.Host)
    requires File.HostOk(h) && Joined(s0, found, before, moves, h)
    ensures Init(s0) && Backed(Reach(s0, Actions(moves)).consent.granted, Disk.Run(found, before + Events(moves), h), h)
  {
    hide Reach, Disk.Run, File.HostOk, Init;
    if moves == [] {
      assert Actions(moves) == [];
      NoActions(s0);
    } else {
      var init, last := moves[..|moves| - 1], moves[|moves| - 1].events;
      GrantsAreBacked(s0, found, before, init, h);
      assert before + Events(moves) == before + Events(init) + last;
      var granted := Reach(s0, Actions(init)).consent.granted;
      forall d | d in granted ensures Key(d, h) in Disk.Run(found, before + Events(moves), h).memory.value {
        MemoryGrows(found, before + Events(init), last, h, Key(d, h));
      }
    }
  }

  lemma NoActions(s: State)
    ensures Reach(s, []) == s
  {
  }

  /**
   A remote turn that the service launches goes to a destination whose grant no crash can lose: whatever happens after the
   launch, every content a later process can find on disk holds it.
   */
  lemma LaunchOutlivesCrashes(s0: State, found: Disk.Content, before: seq<Disk.Event>, moves: seq<Move>, h: File.Host,
                              t: nat, run: nat, after: seq<Disk.Event>, c: Disk.Content)
    requires File.HostOk(h) && Joined(s0, found, before, moves, h)
    requires var s := Reach(s0, Actions(moves)); var s' := Step(s, ARegister(t, run));
             run !in s.runs && run in s'.runs && s'.runs[run].destination.remote
    requires c in Disk.Run(found, before + Events(moves) + after, h).durable
    ensures var d := Step(Reach(s0, Actions(moves)), ARegister(t, run)).runs[run].destination;
            exists g :: Disk.FileSet(c, g, h) && Key(d.Digest(), h) in g
  {
    GrantsAreBacked(s0, found, before, moves, h);
    LaunchIsConsented(s0, Actions(moves), t, run);
    var s := Reach(s0, Actions(moves));
    var d := Step(s, ARegister(t, run)).runs[run].destination;
    hide Reach, Step, Disk.Run, File.HostOk, Init, Joined, Disk.FileSet;
    assert s.consent.Has(d.Digest());
    Disk.GrantsOutliveCrashes(found, before + Events(moves), after, Key(d.Digest(), h), c, h);
  }
}
