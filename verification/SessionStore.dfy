/** The bounded in-memory session store of internal/ai/sessionstore.go. */
module SessionStore {
  import opened Options

  type Bytes = seq<bv8>

  const MAX_INT64: int := 0x7FFF_FFFF_FFFF_FFFF
  const SNAPSHOT_LIMIT: int := 0x20_0000
  const STORE_LIMIT: int := 0x100_0000

  // Go's int64 successor wraps round.
  function Succ64(n: int): int { if n == MAX_INT64 then -MAX_INT64 - 1 else n + 1 }

  type Content(==, !new)

  datatype Conversation = Conversation(id: string, revision: int, content: Content)

  /** JSON: encoding may fail; decoding reads back what was encoded. */
  datatype Codec = Codec(encode: Conversation -> Option<Bytes>, decode: Bytes -> Option<Conversation>)

  ghost predicate ReadsBack(c: Codec) {
    forall conv :: c.encode(conv).Some? ==> c.decode(c.encode(conv).value) == Some(conv)
  }

  datatype Error =
    | Cancelled | NoId | InvalidRevision | EncodeFailed | SnapshotTooLarge | Conflict(id: string, expected: int) | Exhausted
    | StoreFull | NotFound | DecodeFailed

  datatype Store = Store(snaps: map<string, Bytes>, revs: map<string, int>, gens: map<string, nat>, total: int)

  const EMPTY := Store(map[], map[], map[], 0)

  function Floor(s: Store, id: string): int { if id in s.revs then s.revs[id] else 0 }

  function SizeOf(s: Store, id: string): nat { if id in s.snaps then |s.snaps[id]| else 0 }

  function Generations(s: Store, id: string): nat { if id in s.gens then s.gens[id] else 0 }

  // The refusal of a Save, if any; the order of the checks decides which.
  function Refusal(s: Store, conv: Conversation, cancelled: bool, c: Codec): Option<Error> {
    var floor, exists_, expected := Floor(s, conv.id), conv.id in s.snaps, conv.revision;
    var raw := c.encode(conv.(revision := Succ64(floor)));
    if cancelled then Some(Cancelled)
    else if conv.id == "" then Some(NoId)
    else if expected < 0 || expected == MAX_INT64 then Some(InvalidRevision)
    else if raw.None? then Some(EncodeFailed)
    else if |raw.value| > SNAPSHOT_LIMIT then Some(SnapshotTooLarge)
    else if (expected == 0 && exists_) || (expected > 0 && (!exists_ || floor != expected)) then Some(Conflict(conv.id, expected))
    else if floor == MAX_INT64 then Some(Exhausted)
    else if s.total - SizeOf(s, conv.id) + |raw.value| > STORE_LIMIT then Some(StoreFull)
    else None
  }

  // What a Save that is not refused stores.
  function Raw(s: Store, conv: Conversation, c: Codec): Bytes {
    c.encode(conv.(revision := Floor(s, conv.id) + 1)).GetOr([])
  }

  function Saved(s: Store, conv: Conversation, cancelled: bool, c: Codec): Store {
    if Refusal(s, conv, cancelled, c).Some? then s
    else
      Store(s.snaps[conv.id := Raw(s, conv, c)], s.revs[conv.id := Floor(s, conv.id) + 1], s.gens,
            s.total - SizeOf(s, conv.id) + |Raw(s, conv, c)|)
  }

  function Deleted(s: Store, id: string): Store {
    Store(s.snaps - {id}, s.revs, s.gens[id := Generations(s, id) + 1], s.total - SizeOf(s, id))
  }

  // ----- accounting -----------------------------------------------------------------------------

  ghost function Sum(snaps: map<string, Bytes>): nat
    decreases |snaps.Keys|
  {
    if snaps.Keys == {} then 0
    else
      var id :| id in snaps.Keys;
      KeysWithout(snaps, id);
      |snaps[id]| + Sum(snaps - {id})
  }

  lemma KeysWithout(snaps: map<string, Bytes>, id: string)
    ensures (snaps - {id}).Keys == snaps.Keys - {id}
  {
  }

  lemma {:induction false} SumWithout(snaps: map<string, Bytes>, id: string)
    requires id in snaps
    ensures Sum(snaps) == |snaps[id]| + Sum(snaps - {id})
    decreases |snaps.Keys|
  {
    var first :| first in snaps.Keys && Sum(snaps) == |snaps[first]| + Sum(snaps - {first});
    if first != id {
      KeysWithout(snaps, first);
      KeysWithout(snaps, id);
      SumWithout(snaps - {first}, id);
      SumWithout(snaps - {id}, first);
      assert snaps - {first} - {id} == snaps - {id} - {first};
    }
  }

  lemma SumWith(snaps: map<string, Bytes>, id: string, raw: Bytes)
    ensures Sum(snaps[id := raw]) == Sum(snaps - {id}) + |raw|
    ensures Sum(snaps - {id}) == Sum(snaps) - (if id in snaps then |snaps[id]| else 0)
  {
    SumWithout(snaps[id := raw], id);
    assert snaps[id := raw] - {id} == snaps - {id};
    if id in snaps { SumWithout(snaps, id); } else { assert snaps - {id} == snaps; }
  }

  // Every retained snapshot is an encoding of its conversation at the highest revision the ID ever held.
  ghost predicate SnapOk(s: Store, id: string, c: Codec)
    requires id in s.snaps
  {
    && id in s.revs && |s.snaps[id]| <= SNAPSHOT_LIMIT
    && exists conv :: c.encode(conv) == Some(s.snaps[id]) && conv.id == id && conv.revision == s.revs[id]
  }

  ghost predicate Valid(s: Store, c: Codec) {
    && s.total == Sum(s.snaps) && s.total <= STORE_LIMIT
    && (forall id :: id in s.revs ==> 1 <= s.revs[id] <= MAX_INT64)
    && forall id :: id in s.snaps ==> SnapOk(s, id, c)
  }

  lemma SaveKeepsValid(s: Store, conv: Conversation, cancelled: bool, c: Codec)
    requires Valid(s, c)
    ensures Valid(Saved(s, conv, cancelled, c), c)
  {
    if Refusal(s, conv, cancelled, c).None? {
      var t := Saved(s, conv, cancelled, c);
      SumWith(s.snaps, conv.id, Raw(s, conv, c));
      forall id | id in t.snaps ensures SnapOk(t, id, c) {
        if id == conv.id {
          assert c.encode(conv.(revision := Floor(s, conv.id) + 1)) == Some(t.snaps[id]);
        } else {
          assert SnapOk(s, id, c);
        }
      }
    }
  }

  lemma DeleteKeepsValid(s: Store, id: string, c: Codec)
    requires Valid(s, c)
    ensures Valid(Deleted(s, id), c)
  {
    SumWith(s.snaps, id, []);
    forall other | other in Deleted(s, id).snaps ensures SnapOk(Deleted(s, id), other, c) { assert SnapOk(s, other, c); }
  }

  // ----- the store ------------------------------------------------------------------------------

  class MemorySessionStore {
    const codec: Codec
    var snaps: map<string, Bytes>
    var revs: map<string, int>
    var gens: map<string, nat>
    var total: int

    ghost function Value(): Store
      reads this
    {
      Store(snaps, revs, gens, total)
    }

    constructor (codec: Codec)
      ensures this.codec == codec && Value() == EMPTY && Valid(Value(), codec)
    {
      this.codec := codec;
      snaps, revs, gens, total := map[], map[], map[], 0;
    }

    method Load(id: string, cancelled: bool) returns (r: Result<Conversation, Error>)
      requires Valid(Value(), codec) && ReadsBack(codec)
      ensures cancelled ==> r == Err(Cancelled)
      ensures !cancelled && id !in snaps ==> r == Err(NotFound)
      ensures !cancelled && id in snaps ==>
                r.Ok? && r.value.id == id && r.value.revision == revs[id] && codec.encode(r.value) == Some(snaps[id])
    {
      if cancelled {
        return Err(Cancelled);
      }
      if id !in snaps {
        return Err(NotFound);
      }
      assert SnapOk(Value(), id, codec);
      var conv := codec.decode(snaps[id]);
      return if conv.Some? then Ok(conv.value) else Err(DecodeFailed);
    }

    method Save(conv: Conversation, cancelled: bool) returns (r: Result<int, Error>)
      requires Valid(Value(), codec)
      modifies this
      ensures Valid(Value(), codec) && Value() == Saved(old(Value()), conv, cancelled, codec)
      ensures var refusal := Refusal(old(Value()), conv, cancelled, codec);
              r == if refusal.Some? then Err(refusal.value) else Ok(Floor(old(Value()), conv.id) + 1)
    {
      hide Valid;
      SaveKeepsValid(Value(), conv, cancelled, codec);
      if cancelled {
        return Err(Cancelled);
      }
      if conv.id == "" {
        return Err(NoId);
      }
      if conv.revision < 0 || conv.revision == MAX_INT64 {
        return Err(InvalidRevision);
      }
      var expected := conv.revision;
      var floor := if conv.id in revs then revs[conv.id] else 0;
      var revision := Succ64(floor);
      var raw := codec.encode(conv.(revision := revision));
      if raw.None? {
        return Err(EncodeFailed);
      }
      if |raw.value| > SNAPSHOT_LIMIT {
        return Err(SnapshotTooLarge);
      }
      var stored := conv.id in snaps;
      if (expected == 0 && stored) || (expected > 0 && (!stored || floor != expected)) {
        return Err(Conflict(conv.id, expected));
      }
      if floor == MAX_INT64 {
        return Err(Exhausted);
      }
      var next := total - (if stored then |snaps[conv.id]| else 0) + |raw.value|;
      if next > STORE_LIMIT {
        return Err(StoreFull);
      }
      snaps := snaps[conv.id := raw.value];
      revs := revs[conv.id := revision];
      total := next;
      return Ok(revision);
    }

    method Delete(id: string)
      requires Valid(Value(), codec)
      modifies this
      ensures Valid(Value(), codec) && Value() == Deleted(old(Value()), id)
    {
      hide Valid;
      DeleteKeepsValid(Value(), id, codec);
      total := total - (if id in snaps then |snaps[id]| else 0);
      snaps := snaps - {id};
      gens := gens[id := (if id in gens then gens[id] else 0) + 1];
    }

    function Generation(id: string): (g: nat)
      reads this
      ensures g == Generations(Value(), id)
    {
      if id in gens then gens[id] else 0
    }
  }
}
