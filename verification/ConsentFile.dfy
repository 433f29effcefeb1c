/** The consent file of internal/ai/consent.go: what it encodes, and what parsing it back accepts. */
module ConsentFile {
  import opened Collections
  import opened Options

  type Bytes = seq<bv8>

  const CONSENT_VERSION: int := 1
  const CONSENT_LIMIT: int := 0x4_0000

  datatype Record = Record(digest: string, provider: string, endpoint: string, grantedAt: string)

  datatype Document = Document(version: int, grants: seq<Record>)

  // A destination with the digest its caller claims for it.
  datatype ClaimedDestination = ClaimedDestination(provider: string, endpoint: string, digest: string)

  datatype Normal = Normal(canonical: string, isLocal: bool)

  type Grants = map<string, Record>

  /**
   What libraries decide: endpoint normalisation, the destination digest, whether go-llm accepts the identity,
   sort.Strings, and JSON of a document (whose decoding is None for anything malformed or trailing).
   */
  datatype Host = Host(
    normalize: string -> Option<Normal>, digest: (string, string) -> string, identifies: (string, string) -> bool,
    sort: seq<string> -> seq<string>, encode: Document -> Bytes, decode: Bytes -> Option<Document>)

  ghost predicate HostOk(h: Host) {
    && (forall doc :: h.decode(h.encode(doc)) == Some(doc))
    && Sorts(h.sort)
  }

  predicate RecordOk(rec: Record, h: Host) {
    && rec.provider != "" && h.normalize(rec.endpoint) == Some(Normal(rec.endpoint, false))
    && h.digest(rec.provider, rec.endpoint) == rec.digest
  }

  ghost predicate GrantsOk(g: Grants, h: Host) { forall d :: d in g ==> g[d].digest == d && RecordOk(g[d], h) }

  // ----- parsing --------------------------------------------------------------------------------

  function RecordDigests(recs: seq<Record>): seq<string> { seq(|recs|, i requires 0 <= i < |recs| => recs[i].digest) }

  // The records of a file as a set: all valid, no digest twice.
  ghost predicate IsSetOf(recs: seq<Record>, g: Grants, h: Host) {
    && Distinct(RecordDigests(recs)) && (forall i :: 0 <= i < |recs| ==> RecordOk(recs[i], h))
    && (forall d :: d in g <==> d in RecordDigests(recs)) && forall i :: 0 <= i < |recs| ==> recs[i].digest in g && g[recs[i].digest] == recs[i]
  }

  ghost predicate Readable(data: Bytes, g: Grants, h: Host) {
    var doc := h.decode(data);
    doc.Some? && doc.value.version == CONSENT_VERSION && IsSetOf(doc.value.grants, g, h)
  }

  lemma OneSet(recs: seq<Record>, a: Grants, b: Grants, h: Host)
    requires IsSetOf(recs, a, h) && IsSetOf(recs, b, h)
    ensures a == b
  {
    forall d | d in a ensures d in b && a[d] == b[d] {
      var i :| 0 <= i < |recs| && RecordDigests(recs)[i] == d;
    }
    assert forall d :: d in b ==> d in a;
  }

  ghost predicate Unreadable(data: Bytes, h: Host) { forall g :: !Readable(data, g, h) }

  /** Parses exactly the files that are a set of valid records; anything else fails the whole file. */
  method ParseConsentGrants(data: Bytes, h: Host) returns (r: Option<Grants>)
    ensures r.Some? ==> Readable(data, r.value, h)
    ensures r.None? ==> Unreadable(data, h)
  {
    hide Distinct;
    var decoded := h.decode(data);
    if decoded.None? || decoded.value.version != CONSENT_VERSION {
      return None;
    }
    var recs := decoded.value.grants;
    var granted: Grants := map[];
    NoRecords(h);
    for i := 0 to |recs|
      invariant IsSetOf(recs[..i], granted, h)
    {
      hide IsSetOf;
      var rec := recs[i];
      assert recs[..i + 1] == recs[..i] + [rec];
      if rec.provider == "" {
        BadRecord(data, recs, i, h);
        return None;
      }
      var normal := h.normalize(rec.endpoint);
      if normal.None? || normal.value.canonical != rec.endpoint || normal.value.isLocal {
        BadRecord(data, recs, i, h);
        return None;
      }
      if h.digest(rec.provider, rec.endpoint) != rec.digest {
        BadRecord(data, recs, i, h);
        return None;
      }
      RecordIsOk(rec, h);
      if rec.digest in granted {
        Duplicate(data, recs, i, granted, h);
        return None;
      }
      OneMore(recs[..i], rec, granted, h);
      granted := granted[rec.digest := rec];
    }
    assert recs[..|recs|] == recs;
    return Some(granted);
  }

  lemma NoRecords(h: Host)
    ensures IsSetOf([], map[], h)
  {
  }

  lemma RecordIsOk(rec: Record, h: Host)
    requires rec.provider != "" && h.normalize(rec.endpoint) == Some(Normal(rec.endpoint, false))
    requires h.digest(rec.provider, rec.endpoint) == rec.digest
    ensures RecordOk(rec, h)
  {
  }

  lemma BadRecord(data: Bytes, recs: seq<Record>, i: nat, h: Host)
    requires h.decode(data).Some? && h.decode(data).value.grants == recs && i < |recs| && !RecordOk(recs[i], h)
    ensures Unreadable(data, h)
  {
  }

  lemma Duplicate(data: Bytes, recs: seq<Record>, i: nat, g: Grants, h: Host)
    requires h.decode(data).Some? && h.decode(data).value.grants == recs && i < |recs|
    requires IsSetOf(recs[..i], g, h) && recs[i].digest in g
    ensures Unreadable(data, h)
  {
    hide RecordOk;
    var j :| 0 <= j < i && RecordDigests(recs[..i])[j] == recs[i].digest;
    assert RecordDigests(recs)[j] == RecordDigests(recs)[i];
  }

  lemma OneMore(recs: seq<Record>, rec: Record, g: Grants, h: Host)
    requires IsSetOf(recs, g, h) && RecordOk(rec, h) && rec.digest !in g
    ensures IsSetOf(recs + [rec], g[rec.digest := rec], h)
  {
    hide RecordOk;
    var all, more := recs + [rec], g[rec.digest := rec];
    assert RecordDigests(all) == RecordDigests(recs) + [rec.digest];
    assert forall i :: 0 <= i < |recs| ==> RecordDigests(recs)[i] in g;
    assert forall d :: d in RecordDigests(all) <==> d in RecordDigests(recs) || d == rec.digest;
    assert forall i :: 0 <= i < |all| ==> all[i] == if i < |recs| then recs[i] else rec;
  }

  // ----- encoding -------------------------------------------------------------------------------

  // An enumeration of the set's digests, as Go's map iteration gives in any order.
  ghost predicate Enumerates(order: seq<string>, g: Grants) { Distinct(order) && forall d :: d in order <==> d in g }

  ghost function Records(g: Grants, order: seq<string>): seq<Record>
    requires forall d :: d in order ==> d in g
  {
    seq(|order|, i requires 0 <= i < |order| => g[order[i]])
  }

  // The file that holds the set.
  ghost predicate Holds(data: Bytes, g: Grants, h: Host) { exists order :: HoldsBy(data, g, order, h) }

  ghost predicate HoldsBy(data: Bytes, g: Grants, order: seq<string>, h: Host) {
    && Enumerates(order, g) && Enumerates(h.sort(order), g)
    && data == h.encode(Document(CONSENT_VERSION, Records(g, h.sort(order))))
  }

  lemma SortEnumerates(order: seq<string>, g: Grants, h: Host)
    requires HostOk(h) && Enumerates(order, g)
    ensures Enumerates(h.sort(order), g)
  {
    SortedDistinct(order, h.sort);
  }

  method EncodeConsentFile(granted: Grants, iterated: seq<string>, h: Host) returns (data: Bytes)
    requires HostOk(h) && Enumerates(iterated, granted)
    ensures Holds(data, granted, h)
  {
    SortEnumerates(iterated, granted, h);
    var digests := h.sort(iterated);
    var grants: seq<Record> := [];
    for i := 0 to |digests|
      invariant |grants| == i && forall k :: 0 <= k < i ==> grants[k] == granted[digests[k]]
    {
      grants := grants + [granted[digests[i]]];
    }
    assert grants == Records(granted, digests);
    data := h.encode(Document(CONSENT_VERSION, grants));
    assert HoldsBy(data, granted, iterated, h);
  }

  lemma RecordsAreSet(g: Grants, order: seq<string>, h: Host)
    requires GrantsOk(g, h) && Enumerates(order, g)
    ensures IsSetOf(Records(g, order), g, h)
  {
    hide RecordOk;
    var recs := Records(g, order);
    assert RecordDigests(recs) == order;
  }

  /** Round trip: the file that holds a set of valid grants reads back as exactly that set. */
  lemma HoldsReadsBack(data: Bytes, g: Grants, h: Host)
    requires HostOk(h) && GrantsOk(g, h) && Holds(data, g, h)
    ensures forall other :: Readable(data, other, h) <==> other == g
  {
    hide IsSetOf, RecordOk, GrantsOk;
    var order :| HoldsBy(data, g, order, h);
    var recs := Records(g, h.sort(order));
    RecordsAreSet(g, h.sort(order), h);
    forall other | Readable(data, other, h) ensures other == g { OneSet(recs, other, g, h); }
  }

  /** Sorting makes the bytes of a set the same whatever order the map is iterated in. */
  lemma OneEncoding(a: Bytes, b: Bytes, g: Grants, h: Host)
    requires HostOk(h) && Holds(a, g, h) && Holds(b, g, h)
    ensures a == b
  {
    hide Distinct, Records;
    var x :| HoldsBy(a, g, x, h);
    var y :| HoldsBy(b, g, y, h);
    SameCounts(x, y);
  }
}
