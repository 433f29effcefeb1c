/** The consent store of internal/ai/consent.go as an object; each persist is the steps of the crash machine. */
module ConsentStores {
  import opened Collections
  import opened Options
  import opened ConsentFile
  import opened ConsentCrash

  // How the file system answers each effect of one persist.
  datatype Outcomes = Outcomes(temp: bool, renamed: bool, synced: bool, verified: bool)

  // The directory holding the consent file: what the system shows, and what a power failure may leave.
  class Disk {
    var visible: Content
    ghost var durable: set<Content>

    constructor (found: Content)
      ensures visible == found && durable == {found}
    {
      visible, durable := found, {found};
    }

    method Rename(data: Bytes, ok: bool)
      modifies this
      ensures if ok then visible == Some(data) && durable == old(durable) + {Some(data)}
              else visible == old(visible) && durable == old(durable)
    {
      if ok {
        visible, durable := Some(data), durable + {Some(data)};
      }
    }

    method SyncDir(ok: bool)
      modifies this`durable
      ensures durable == if ok then {visible} else old(durable)
    {
      if ok {
        durable := {visible};
      }
    }
  }

  predicate DestinationOk(d: ClaimedDestination, h: Host) {
    && d.provider != "" && h.normalize(d.endpoint) == Some(Normal(d.endpoint, false))
    && h.digest(d.provider, d.endpoint) == d.digest && h.identifies(d.provider, d.endpoint)
  }

  // The set with the destinations not yet in it; None when one of them is invalid.
  function Merged(g: Grants, ds: seq<ClaimedDestination>, now: string, h: Host): Option<Grants> {
    if ds == [] then Some(g)
    else
      var before, d := Merged(g, ds[..|ds| - 1], now, h), ds[|ds| - 1];
      if before.None? || !DestinationOk(d, h) then None
      else if d.digest in before.value then before
      else Some(before.value[d.digest := Record(d.digest, d.provider, d.endpoint, now)])
  }

  /** A batch is all or nothing, adds exactly its destinations, and keeps every grant there was. */
  lemma {:induction false} MergedIs(g: Grants, ds: seq<ClaimedDestination>, now: string, h: Host)
    requires GrantsOk(g, h)
    ensures Merged(g, ds, now, h).Some? <==> forall d :: d in ds ==> DestinationOk(d, h)
    ensures var next := Merged(g, ds, now, h);
            next.Some? ==> GrantsOk(next.value, h) && Within(g, next.value)
                           && forall x :: x in next.value <==> x in g || exists d :: d in ds && d.digest == x
  {
    if ds != [] {
      var init, d := ds[..|ds| - 1], ds[|ds| - 1];
      assert forall e :: e in ds <==> e in init || e == d by { assert ds == init + [d]; }
      MergedIs(g, init, now, h);
    }
  }

  // One persist: the machine's steps in order; those after a failure are not enabled.
  ghost function Persist(m: Machine, next: Grants, data: Bytes, os: Outcomes, h: Host): Machine {
    Step(Step(Step(Step(Step(m, Begin(next, data), h), Temp(os.temp), h), Rename(os.renamed), h), Sync(os.synced), h), Check(os.verified), h)
  }

  datatype Answer = Granted | Invalid | Unavailable

  class ConsentStore {
    const host: Host
    const disk: Disk
    var memory: Option<Grants>
    ghost var promised: Grants
    ghost var attempted: set<Grants>

    ghost function Value(): Machine
      reads this, disk
    {
      Machine(disk.visible, disk.durable, memory, Idle, promised, attempted)
    }

    // Open over a directory; any failure leaves the store unavailable.
    constructor (disk: Disk, synced: bool, private: bool, h: Host)
      requires HostOk(h)
      modifies disk
      ensures this.disk == disk && host == h
      ensures Value() == Step(Machine(old(disk.visible), old(disk.durable), None, Idle, map[], {}), Open(synced, private), h)
    {
      this.disk, host, memory, promised, attempted := disk, h, None, map[], {};
      new;
      disk.SyncDir(synced);
      if !synced || !private {
        return;
      }
      if disk.visible.None? {
        ReadIs(disk.visible, map[], h);
        memory, promised := Some(map[]), map[];
        return;
      }
      if |disk.visible.value| > CONSENT_LIMIT {
        return;
      }
      var read := ParseConsentGrants(disk.visible.value, h);
      if read.Some? {
        ReadIs(disk.visible, read.value, h);
        memory, promised := read, read.value;
      }
    }

    function Has(digest: string): bool
      reads this
    {
      memory.Some? && digest in memory.value
    }

    method WriteFileAtomic(data: Bytes, os: Outcomes) returns (ok: bool)
      modifies disk
      ensures ok <==> os.temp && os.renamed && os.synced
      ensures disk.visible == if os.temp && os.renamed then Some(data) else old(disk.visible)
      ensures disk.durable == if !os.temp || !os.renamed then old(disk.durable)
                              else if os.synced then {Some(data)} else old(disk.durable) + {Some(data)}
    {
      if !os.temp {
        return false;
      }
      disk.Rename(data, os.renamed);
      if !os.renamed {
        return false;
      }
      disk.SyncDir(os.synced);
      return os.synced;
    }

    method PersistGrants(next: Grants, os: Outcomes) returns (r: Answer)
      requires HostOk(host) && memory.Some? && GrantsOk(next, host) && Within(memory.value, next)
      modifies this`memory, this`promised, this`attempted, disk
      ensures exists data :: Holds(data, next, host) && Value() == Persist(old(Value()), next, data, os, host)
      ensures r == (if os.temp && os.renamed && os.synced && os.verified then Granted else Unavailable)
      ensures memory == if r == Granted then Some(next) else old(memory)
    {
      hide GrantsOk, Within, Holds, HostOk;
      var order := Iterate(next);
      var data := EncodeConsentFile(next, order, host);
      assert CanBegin(Value(), next, data, host);
      attempted := attempted + {next};
      var ok := WriteFileAtomic(data, os);
      if ok && os.verified {
        memory, promised := Some(next), next;
        r := Granted;
      } else {
        r := Unavailable;
      }
      assert Value() == Persist(old(Value()), next, data, os, host);
    }

    /** Consent for a batch of destinations: invalid ones refuse it all, and one persist covers the new ones. */
    method GrantMany(ds: seq<ClaimedDestination>, now: string, os: Outcomes) returns (r: Answer)
      requires HostOk(host) && (memory.Some? ==> GrantsOk(memory.value, host))
      modifies this`memory, this`promised, this`attempted, disk
      ensures memory.Some? ==> GrantsOk(memory.value, host)
      ensures old(memory).None? ==> r == Unavailable && Value() == old(Value())
      ensures old(memory).Some? ==>
                var next := Merged(old(memory).value, ds, now, host);
                && (r == Invalid <==> next.None?)
                && (next.None? || next == old(memory) ==> Value() == old(Value()))
                && (r == Granted ==> memory == next)
                && (next.Some? && next != old(memory) ==>
                      exists data :: Holds(data, next.value, host) && Value() == Persist(old(Value()), next.value, data, os, host))
    {
      hide Holds, HostOk, Persist, GrantsOk, DestinationOk, Merged;
      if memory.None? {
        return Unavailable;
      }
      var next, changed := Merge(memory.value, ds, now, host);
      MergedIs(memory.value, ds, now, host);
      if next.None? {
        return Invalid;
      }
      if !changed {
        return Granted;
      }
      r := PersistGrants(next.value, os);
    }
  }

  // GrantMany's loop.
  method Merge(g: Grants, ds: seq<ClaimedDestination>, now: string, h: Host) returns (next: Option<Grants>, changed: bool)
    ensures next == Merged(g, ds, now, h)
    ensures next.Some? ==> (changed <==> next.value != g)
  {
    hide DestinationOk;
    var merged := g;
    changed := false;
    for i := 0 to |ds|
      invariant Merged(g, ds[..i], now, h) == Some(merged) && (!changed ==> merged == g) && (changed ==> |g| < |merged|) && |g| <= |merged|
    {
      var d := ds[i];
      assert ds[..i + 1][..i] == ds[..i];
      if !DestinationOk(d, h) {
        NoneMerged(g, ds, now, i + 1, h);
        return None, false;
      }
      if d.digest in merged {
        continue;
      }
      merged := merged[d.digest := Record(d.digest, d.provider, d.endpoint, now)];
      changed := true;
    }
    assert ds[..|ds|] == ds;
    return Some(merged), changed;
  }

  lemma {:induction false} NoneMerged(g: Grants, ds: seq<ClaimedDestination>, now: string, i: nat, h: Host)
    requires i <= |ds| && Merged(g, ds[..i], now, h).None?
    ensures Merged(g, ds, now, h).None?
    decreases |ds| - i
  {
    if i < |ds| {
      assert ds[..i + 1][..i] == ds[..i];
      NoneMerged(g, ds, now, i + 1, h);
    } else {
      assert ds[..i] == ds;
    }
  }
}
