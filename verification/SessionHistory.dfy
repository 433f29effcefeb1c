/** What any sequence of Save and Delete on the session store of internal/ai/sessionstore.go keeps. */
module SessionHistory {
  import opened Options
  import opened SessionStore

  datatype Op = Save(conv: Conversation, cancelled: bool) | Delete(id: string)

  ghost function Run(ops: seq<Op>, c: Codec): Store {
    if ops == [] then EMPTY
    else
      var s := Run(ops[..|ops| - 1], c);
      match ops[|ops| - 1]
      case Save(conv, cancelled) => Saved(s, conv, cancelled, c)
      case Delete(id) => Deleted(s, id)
  }

  lemma {:induction false} RunValid(ops: seq<Op>, c: Codec)
    ensures Valid(Run(ops, c), c)
  {
    if ops == [] {
      assert Sum(map[]) == 0;
    } else {
      hide Valid, Saved, Deleted;
      RunValid(ops[..|ops| - 1], c);
      match ops[|ops| - 1]
      case Save(conv, cancelled) => SaveKeepsValid(Run(ops[..|ops| - 1], c), conv, cancelled, c);
      case Delete(id) => DeleteKeepsValid(Run(ops[..|ops| - 1], c), id, c);
    }
  }

  // The operation at i commits a snapshot of id, at the given revision.
  ghost predicate CommitsAt(ops: seq<Op>, i: nat, id: string, c: Codec)
    requires i < |ops|
  {
    ops[i].Save? && ops[i].conv.id == id && Refusal(Run(ops[..i], c), ops[i].conv, ops[i].cancelled, c).None?
  }

  ghost function RevisionAt(ops: seq<Op>, i: nat, c: Codec): int
    requires i < |ops| && ops[i].Save?
  {
    Floor(Run(ops[..i], c), ops[i].conv.id) + 1
  }

  ghost predicate TouchesAt(ops: seq<Op>, i: nat, id: string, c: Codec)
    requires i < |ops|
  {
    ops[i] == Delete(id) || CommitsAt(ops, i, id, c)
  }

  /** One operation leaves every other conversation alone, and the highest revision of its own grows or stays. */
  lemma StepFloor(ops: seq<Op>, i: nat, id: string, c: Codec)
    requires i < |ops|
    ensures var s, t := Run(ops[..i], c), Run(ops[..i + 1], c);
            && Floor(t, id) == (if CommitsAt(ops, i, id, c) then RevisionAt(ops, i, c) else Floor(s, id))
            && (!TouchesAt(ops, i, id, c) ==> (id in t.snaps <==> id in s.snaps) && (id in s.snaps ==> t.snaps[id] == s.snaps[id]))
            && (ops[i] == Delete(id) ==> id !in t.snaps)
            && Generations(t, id) == Generations(s, id) + (if ops[i] == Delete(id) then 1 else 0)
  {
    assert ops[..i + 1][..i] == ops[..i];
    hide Refusal, Raw;
  }

  lemma {:induction false} FloorGrows(ops: seq<Op>, i: nat, j: nat, id: string, c: Codec)
    requires i <= j <= |ops|
    ensures Floor(Run(ops[..i], c), id) <= Floor(Run(ops[..j], c), id)
    ensures Generations(Run(ops[..i], c), id) <= Generations(Run(ops[..j], c), id)
    decreases j
  {
    hide Floor, Generations, Run, Refusal;
    if i < j {
      FloorGrows(ops, i, j - 1, id, c);
      StepFloor(ops, j - 1, id, c);
    }
  }

  /** Committed revisions of a conversation strictly increase, across deletion and recreation. */
  lemma RevisionsIncrease(ops: seq<Op>, i: nat, j: nat, id: string, c: Codec)
    requires i < j < |ops| && CommitsAt(ops, i, id, c) && CommitsAt(ops, j, id, c)
    ensures 0 < RevisionAt(ops, i, c) < RevisionAt(ops, j, c)
  {
    FloorGrows(ops, i + 1, j, id, c);
    StepFloor(ops, i, id, c);
    RunValid(ops[..i], c);
  }

  // The snapshot stored for id is the one committed at i.
  ghost predicate HeldFrom(ops: seq<Op>, n: nat, i: nat, id: string, c: Codec)
    requires n <= |ops|
  {
    && i < n && CommitsAt(ops, i, id, c) && (forall k :: i < k < n ==> !TouchesAt(ops, k, id, c))
    && var s := Run(ops[..n], c); id in s.snaps && s.snaps[id] == Raw(Run(ops[..i], c), ops[i].conv, c) && Floor(s, id) == RevisionAt(ops, i, c)
  }

  lemma {:induction false} Held(ops: seq<Op>, n: nat, id: string, c: Codec)
    requires n <= |ops| && id in Run(ops[..n], c).snaps
    ensures exists i: nat :: HeldFrom(ops, n, i, id, c)
    decreases n
  {
    NothingAtFirst(ops, c);
    hide Run, Refusal, RevisionAt, Floor, Generations, Raw;
    if n > 0 {
      StepFloor(ops, n - 1, id, c);
      if CommitsAt(ops, n - 1, id, c) {
        HeldNow(ops, n - 1, id, c);
      } else {
        Held(ops, n - 1, id, c);
        var i: nat :| HeldFrom(ops, n - 1, i, id, c);
        assert HeldFrom(ops, n, i, id, c);
      }
    }
  }

  lemma NothingAtFirst(ops: seq<Op>, c: Codec)
    ensures Run(ops[..0], c).snaps == map[]
  {
    assert ops[..0] == [];
  }

  lemma HeldNow(ops: seq<Op>, i: nat, id: string, c: Codec)
    requires i < |ops| && CommitsAt(ops, i, id, c)
    ensures HeldFrom(ops, i + 1, i, id, c)
  {
    hide Refusal, Raw;
    assert ops[..i + 1][..i] == ops[..i];
  }

  /**
   A Save with a positive expected revision that commits replaces the snapshot of the one earlier Save that committed
   that revision, and nothing has replaced, deleted or recreated the conversation in between.
   */
  lemma PositiveSaveReplacesItsOwn(ops: seq<Op>, j: nat, id: string, c: Codec)
    requires j < |ops| && CommitsAt(ops, j, id, c) && ops[j].conv.revision > 0
    ensures exists i: nat :: HeldFrom(ops, j, i, id, c) && RevisionAt(ops, i, c) == ops[j].conv.revision
    ensures forall i :: 0 <= i < j && CommitsAt(ops, i, id, c) && RevisionAt(ops, i, c) == ops[j].conv.revision ==> HeldFrom(ops, j, i, id, c)
  {
    assert id in Run(ops[..j], c).snaps && Floor(Run(ops[..j], c), id) == ops[j].conv.revision;
    hide Run, Floor, Refusal;
    Held(ops, j, id, c);
    var i: nat :| HeldFrom(ops, j, i, id, c);
    forall k | 0 <= k < j && CommitsAt(ops, k, id, c) && RevisionAt(ops, k, c) == ops[j].conv.revision ensures k == i {
      if k < i { RevisionsIncrease(ops, k, i, id, c); }
      if i < k { RevisionsIncrease(ops, i, k, id, c); }
    }
  }

  /** A writer still holding a revision from before a deletion can never commit with it. */
  lemma StaleWriterConflicts(ops: seq<Op>, i: nat, d: nat, j: nat, id: string, c: Codec)
    requires i < d < j < |ops| && CommitsAt(ops, i, id, c) && ops[d] == Delete(id)
    requires ops[j].Save? && ops[j].conv.id == id && ops[j].conv.revision == RevisionAt(ops, i, c)
    ensures !CommitsAt(ops, j, id, c)
  {
    hide Run, Floor, Refusal, RevisionAt;
    if CommitsAt(ops, j, id, c) {
      RevisionPositive(ops, i, id, c);
      PositiveSaveReplacesItsOwn(ops, j, id, c);
      HeldAvoids(ops, j, i, d, id, c);
    }
  }

  lemma HeldAvoids(ops: seq<Op>, n: nat, i: nat, d: nat, id: string, c: Codec)
    requires n <= |ops| && HeldFrom(ops, n, i, id, c) && d < n && ops[d] == Delete(id)
    ensures d < i
  {
    hide Run, Floor, Refusal, RevisionAt;
    assert TouchesAt(ops, d, id, c);
  }

  lemma RevisionPositive(ops: seq<Op>, i: nat, id: string, c: Codec)
    requires i < |ops| && CommitsAt(ops, i, id, c)
    ensures RevisionAt(ops, i, c) > 0
  {
    RunValid(ops[..i], c);
  }

  /** A refusal changes nothing, and the byte total is always the sum of what is retained, within the cap. */
  lemma AlwaysAccounted(ops: seq<Op>, n: nat, c: Codec)
    requires n <= |ops|
    ensures Run(ops[..n], c).total == Sum(Run(ops[..n], c).snaps) <= STORE_LIMIT
    ensures n < |ops| && ops[n].Save? && Refusal(Run(ops[..n], c), ops[n].conv, ops[n].cancelled, c).Some? ==>
              Run(ops[..n + 1], c) == Run(ops[..n], c)
  {
    RunValid(ops[..n], c);
    if n < |ops| { assert ops[..n + 1][..n] == ops[..n]; }
  }
}
