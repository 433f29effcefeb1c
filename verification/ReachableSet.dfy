/** The destinations the agent route reaches, keyed by digest: internal/ai/reachable.go. */
module ReachableSet {
  import opened Collections
  import ConsentFile
  import opened Options
  import opened ServiceState

  datatype Hop = Hop(useCase: string, source: string, recommend: bool)

  datatype Reached = Reached(destination: Destination, hops: seq<Hop>)

  // What the agent default plans: every provider, a fallback chain of selectors, or a chain that does not resolve.
  datatype Route = Recommended | Chain(selectors: seq<string>) | Broken

  datatype AgentConfig = AgentConfig(providers: map<string, string>, route: Route)

  /** Endpoint normalisation, and sort.Strings over provider names and over digests. */
  datatype Host = Host(
    normalize: string -> Option<ConsentFile.Normal>, sortNames: seq<string> -> seq<string>,
    sort: seq<DestinationDigest> -> seq<DestinationDigest>)

  const AGENT := "agent"

  // One selector or provider the route names.
  datatype Candidate = Candidate(provider: string, model: string, hop: Hop)

  // strings.Cut at the first slash.
  function Cut(selector: string): Option<(string, string)> {
    if selector == "" then None
    else if selector[0] == '/' then Some(("", selector[1..]))
    else
      var rest := Cut(selector[1..]);
      if rest.None? then None else Some(([selector[0]] + rest.value.0, rest.value.1))
  }

  function FromSelectors(selectors: seq<string>): seq<Candidate> {
    if selectors == [] then []
    else
      var cut := Cut(selectors[0]);
      (if cut.None? then [] else [Candidate(cut.value.0, cut.value.1, Hop(AGENT, AGENT, false))]) + FromSelectors(selectors[1..])
  }

  // Everything the route names; `names` are the configured providers, sorted.
  function Candidates(cfg: AgentConfig, names: seq<string>): seq<Candidate> {
    match cfg.route
    case Recommended => seq(|names|, i requires 0 <= i < |names| => Candidate(names[i], "", Hop(AGENT, "", true)))
    case Chain(selectors) => FromSelectors(selectors)
    case Broken => []
  }

  predicate Picks(selector: string, c: Candidate) { Cut(selector) == Some((c.provider, c.model)) }

  // The route names this candidate: any provider when it recommends, otherwise one of its well-formed selectors.
  ghost predicate Named(cfg: AgentConfig, c: Candidate) {
    match cfg.route
    case Recommended => c.provider in cfg.providers && c.model == "" && c.hop == Hop(AGENT, "", true)
    case Chain(selectors) => c.hop == Hop(AGENT, AGENT, false) && exists s :: s in selectors && Picks(s, c)
    case Broken => false
  }

  lemma {:induction false} FromSelectorsAre(selectors: seq<string>, c: Candidate)
    ensures c in FromSelectors(selectors)
            <==> c.hop == Hop(AGENT, AGENT, false) && exists s :: s in selectors && Picks(s, c)
  {
    hide Cut;
    if selectors != [] {
      FromSelectorsAre(selectors[1..], c);
      var cut := Cut(selectors[0]);
      var first := if cut.None? then [] else [Candidate(cut.value.0, cut.value.1, Hop(AGENT, AGENT, false))];
      assert FromSelectors(selectors) == first + FromSelectors(selectors[1..]);
      assert c in first <==> c.hop == Hop(AGENT, AGENT, false) && Picks(selectors[0], c);
      hide Picks;
      assert forall s :: s in selectors <==> s == selectors[0] || s in selectors[1..] by {
        assert selectors == [selectors[0]] + selectors[1..];
      }
    }
  }

  lemma CandidatesAreNamed(cfg: AgentConfig, names: seq<string>, c: Candidate)
    requires forall name :: name in names <==> name in cfg.providers
    ensures c in Candidates(cfg, names) <==> Named(cfg, c)
  {
    match cfg.route
    case Recommended =>
      if Named(cfg, c) {
        var i :| 0 <= i < |names| && names[i] == c.provider;
        assert Candidates(cfg, names)[i] == c;
      }
    case Chain(selectors) => FromSelectorsAre(selectors, c);
    case Broken =>
  }

  // The destination a candidate names, unless its provider is unknown or its endpoint has no canonical form.
  function Resolve(cfg: AgentConfig, c: Candidate, h: Host): Option<Destination> {
    if c.provider !in cfg.providers then None
    else
      var normal := h.normalize(cfg.providers[c.provider]);
      if normal.None? then None
      else Some(Destination(c.provider, c.model, normal.value.canonical, !normal.value.isLocal))
  }

  ghost predicate Resolves(cfg: AgentConfig, c: Candidate, h: Host, digest: DestinationDigest) {
    Resolve(cfg, c, h).Some? && Resolve(cfg, c, h).value.Digest() == digest
  }

  // One entry of the listing: a destination some candidate resolves to, with exactly the hops that reach it, once each.
  ghost predicate EntryOk(cfg: AgentConfig, cs: seq<Candidate>, h: Host, digest: DestinationDigest, e: Reached) {
    && e.destination.Digest() == digest
    && (exists c :: c in cs && Resolve(cfg, c, h) == Some(e.destination))
    && Distinct(e.hops)
    && (forall hop :: hop in e.hops <==> exists c :: c in cs && Resolves(cfg, c, h, digest) && c.hop == hop)
  }

  ghost predicate RouteReaches(cfg: AgentConfig, cs: seq<Candidate>, h: Host, digest: DestinationDigest) {
    exists c :: c in cs && Resolves(cfg, c, h, digest)
  }

  ghost predicate Holds(out: seq<Reached>, digest: DestinationDigest) {
    exists i :: 0 <= i < |out| && out[i].destination.Digest() == digest
  }

  ghost predicate Collected(cfg: AgentConfig, cs: seq<Candidate>, h: Host, byDigest: map<DestinationDigest, Reached>) {
    && (forall d :: d in byDigest <==> RouteReaches(cfg, cs, h, d))
    && forall d :: d in byDigest ==> EntryOk(cfg, cs, h, d, byDigest[d])
  }

  lemma MoreHops(cfg: AgentConfig, cs: seq<Candidate>, c: Candidate, h: Host, digest: DestinationDigest, e: Reached)
    requires EntryOk(cfg, cs, h, digest, e)
    ensures EntryOk(cfg, cs + [c], h, digest,
                    if Resolves(cfg, c, h, digest) && c.hop !in e.hops then e.(hops := e.hops + [c.hop]) else e)
  {
    hide Resolve;
    var all := cs + [c];
    assert forall x :: x in all <==> x in cs || x == c;
  }

  lemma FirstEntry(cfg: AgentConfig, cs: seq<Candidate>, c: Candidate, h: Host, digest: DestinationDigest)
    requires Resolves(cfg, c, h, digest) && forall x :: x in cs ==> !Resolves(cfg, x, h, digest)
    ensures EntryOk(cfg, cs + [c], h, digest, Reached(Resolve(cfg, c, h).value, [c.hop]))
  {
    hide Resolve;
    var all := cs + [c];
    assert c in all && forall x :: x in all <==> x in cs || x == c;
  }

  method Add(cfg: AgentConfig, cs: seq<Candidate>, c: Candidate, byDigest0: map<DestinationDigest, Reached>, h: Host)
    returns (byDigest: map<DestinationDigest, Reached>)
    requires Collected(cfg, cs, h, byDigest0)
    ensures Collected(cfg, cs + [c], h, byDigest)
  {
    hide Resolve, EntryOk;
    byDigest := byDigest0;
    assert forall x :: x in cs + [c] <==> x in cs || x == c;
    forall d | d in byDigest
      ensures EntryOk(cfg, cs + [c], h, d, if Resolves(cfg, c, h, d) && c.hop !in byDigest[d].hops
                                           then byDigest[d].(hops := byDigest[d].hops + [c.hop]) else byDigest[d])
    {
      MoreHops(cfg, cs, c, h, d, byDigest[d]);
    }
    var found := Resolve(cfg, c, h);
    if found.None? {
      return;
    }
    var digest := found.value.Digest();
    if digest !in byDigest {
      FirstEntry(cfg, cs, c, h, digest);
      byDigest := byDigest[digest := Reached(found.value, [c.hop])];
    } else if c.hop !in byDigest[digest].hops {
      byDigest := byDigest[digest := byDigest[digest].(hops := byDigest[digest].hops + [c.hop])];
    }
  }

  // The listing, one entry a digest in the sorted order of the digests.
  ghost predicate Lists(cfg: AgentConfig, cs: seq<Candidate>, h: Host, out: seq<Reached>) {
    && (forall i, j :: 0 <= i < j < |out| ==> out[i].destination.Digest() != out[j].destination.Digest())
    && (forall d :: Holds(out, d) <==> RouteReaches(cfg, cs, h, d))
    && forall i :: 0 <= i < |out| ==> EntryOk(cfg, cs, h, out[i].destination.Digest(), out[i])
  }

  // The same for everything the route names.
  ghost predicate ListsRoute(cfg: AgentConfig, h: Host, out: seq<Reached>) {
    && (forall i, j :: 0 <= i < j < |out| ==> out[i].destination.Digest() != out[j].destination.Digest())
    && (forall d :: Holds(out, d) <==> exists c :: Named(cfg, c) && Resolves(cfg, c, h, d))
    && forall i :: 0 <= i < |out| ==>
         && Distinct(out[i].hops)
         && (exists c :: Named(cfg, c) && Resolve(cfg, c, h) == Some(out[i].destination))
         && forall hop :: hop in out[i].hops <==>
              exists c :: Named(cfg, c) && Resolves(cfg, c, h, out[i].destination.Digest()) && c.hop == hop
  }

  lemma ListsAll(cfg: AgentConfig, cs: seq<Candidate>, h: Host, out: seq<Reached>)
    requires Lists(cfg, cs, h, out) && forall c :: c in cs <==> Named(cfg, c)
    ensures ListsRoute(cfg, h, out)
  {
    hide Resolve, Resolves, Named;
    forall d ensures Holds(out, d) <==> exists c :: Named(cfg, c) && Resolves(cfg, c, h, d) {
      assert Holds(out, d) <==> RouteReaches(cfg, cs, h, d);
    }
  }

  /**
   The listing has exactly one entry for every destination the route reaches and no other, with exactly its hops.
   Nothing a consent decision must ask about is missing, and nothing is asked about twice.
   */
  method ReachableDestinations(cfg: AgentConfig, h: Host) returns (out: seq<Reached>)
    requires Sorts(h.sort) && Sorts(h.sortNames)
    ensures ListsRoute(cfg, h, out)
  {
    hide Resolve, EntryOk, Candidates, Named, ListsRoute, Lists;
    var names := Iterate(cfg.providers);
    SortedDistinct(names, h.sortNames);
    names := h.sortNames(names);
    var cs := Candidates(cfg, names);
    var byDigest: map<DestinationDigest, Reached> := map[];
    for i := 0 to |cs|
      invariant Collected(cfg, cs[..i], h, byDigest)
    {
      hide Collected;
      assert cs[..i + 1] == cs[..i] + [cs[i]];
      byDigest := Add(cfg, cs[..i], cs[i], byDigest, h);
    }
    assert cs[..|cs|] == cs;
    var digests := Iterate(byDigest);
    SortedDistinct(digests, h.sort);
    digests := h.sort(digests);
    out := [];
    for i := 0 to |digests|
      invariant |out| == i && forall k :: 0 <= k < i ==> out[k] == byDigest[digests[k]]
    {
      out := out + [byDigest[digests[i]]];
    }
    Listed(cfg, cs, h, byDigest, digests, out);
    forall c ensures c in cs <==> Named(cfg, c) { CandidatesAreNamed(cfg, names, c); }
    ListsAll(cfg, cs, h, out);
  }

  lemma Listed(cfg: AgentConfig, cs: seq<Candidate>, h: Host, byDigest: map<DestinationDigest, Reached>,
               digests: seq<DestinationDigest>, out: seq<Reached>)
    requires Collected(cfg, cs, h, byDigest) && Distinct(digests) && (forall d :: d in digests <==> d in byDigest)
    requires |out| == |digests| && forall k :: 0 <= k < |out| ==> digests[k] in byDigest && out[k] == byDigest[digests[k]]
    ensures Lists(cfg, cs, h, out)
  {
    hide Resolves;
    forall k | 0 <= k < |out| ensures out[k].destination.Digest() == digests[k] {
      assert EntryOk(cfg, cs, h, digests[k], byDigest[digests[k]]);
    }
    hide EntryOk;
    forall d ensures Holds(out, d) <==> d in byDigest {
      if d in byDigest {
        var i :| 0 <= i < |digests| && digests[i] == d;
        assert out[i].destination.Digest() == d;
      }
    }
  }
}
