/**
 The shared state of the consent-gated run lifecycle (internal/ai/service.go), as a value.

 Digests and derived identifiers are modelled as the value they hash, so two of them are equal
 exactly when their inputs are. A config document is its reachable destinations and the agent
 target it selects; a runner is a resource with a conversation and a target.
 */
module ServiceState {
  import opened Options

  // SHA-256 over provider and canonical endpoint.
  datatype DestinationDigest = DestinationDigest(provider: string, endpoint: string)

  datatype Destination = Destination(provider: string, model: string, endpoint: string, remote: bool) {
    function Digest(): DestinationDigest { DestinationDigest(provider, endpoint) }
  }

  // SHA-256 over repository key and workspace ID; the epoch is not part of it.
  datatype ConversationId = ConversationId(root: string, workspaceId: string)

  datatype RunIdentity = RunIdentity(repoEpoch: nat, workspaceId: string, conversation: ConversationId, runId: string)

  datatype Target = Target(destination: Destination, settings: string)

  datatype TurnRequest = TurnRequest(identity: RunIdentity, challengeId: Option<string>)

  datatype Challenge = Challenge(id: string, identity: RunIdentity, destination: Destination, expiresAt: int)

  datatype ConvState = Idle | PendingConsent | Starting | Running | Canceling

  /** One conversation record. `holder` names the admission that holds the record's mutex. */
  datatype Conv = Conv(
    state: ConvState,
    challenge: Option<Challenge>,
    runner: Option<nat>,
    runnerEpoch: nat,
    runnerConfigEpoch: nat,
    stale: bool,
    active: Option<nat>,
    holder: Option<nat>)

  const FRESH_CONV := Conv(Idle, None, None, 0, 0, false, None, None)

  /** Every runner ever constructed. */
  datatype Runner = Runner(conversation: ConversationId, target: Target, closed: bool)

  datatype RunPhase = Executing | Emitting | Finished

  /** Every run ever launched. The last three fields record what was admitted and what held at launch. */
  datatype Run = Run(
    identity: RunIdentity,
    runner: nat,
    canceling: bool,
    phase: RunPhase,
    destination: Destination,
    grantedAtLaunch: bool,
    resetsAtLaunch: nat)

  datatype Phase =
    | Entered
    | Granting(target: Target, configEpoch: nat, checkedAt: int)
    | Building(target: Target, configEpoch: nat)
    | Built(target: Target, configEpoch: nat, runner: nat, constructed: bool)

  /** One StartTurn call; every phase but Entered holds the binding gate and a conversation. */
  datatype Admission = Admission(request: TurnRequest, phase: Phase)

  datatype Binding = Binding(root: string, epoch: nat)

  datatype Snapshot = Snapshot(epoch: nat, target: Option<Target>)

  datatype Document = Document(reachable: seq<Destination>, agent: Option<Target>, bytes: string)

  datatype Mode = ApplyExisting | ApplyCreate | GrantOnly

  /** What canonicalApplyDigest covers: the request, the mode, the target and both destination sets. */
  datatype WriteDigest = WriteDigest(request: string, mode: Mode, path: string, pre: seq<Destination>, post: seq<Destination>)

  datatype SettingsChallenge = SettingsChallenge(
    expiresAt: int, mode: Mode, path: string, digest: Option<WriteDigest>, grants: seq<Destination>, revision: Option<Document>)

  /** A settings write that holds the binding gate between preparation and save. */
  datatype PendingWrite = PendingWrite(mode: Mode, path: string, prior: Option<Document>, next: Document)

  datatype Authority = TurnConsent(challenge: Challenge) | WriteConsent(token: string) | GrantConsent(token: string)

  /** One commit to the grant set: who authorized it, what it added, and when the challenge was checked. */
  datatype GrantEvent = GrantEvent(authority: Authority, destinations: seq<Destination>, checkedAt: int)

  datatype Publication = Publication(path: string, replaced: Option<Document>, published: Document)

  datatype SaveEvent = SaveEvent(run: nat, resets: nat)

  datatype Stage = Open | Marked | Retired | Done

  /** The consent store's memory and the challenges that can extend it, with their history. */
  datatype Consent = Consent(
    open: bool,
    granted: set<DestinationDigest>,
    issued: map<string, Challenge>,
    settings: map<string, SettingsChallenge>,
    issuedSettings: map<string, SettingsChallenge>,
    spent: seq<string>,
    grants: seq<GrantEvent>)
  {
    // An unavailable store answers no to everything.
    predicate Has(d: DestinationDigest) { open && d in granted }

    predicate Allows(d: Destination) { d.remote ==> Has(d.Digest()) }
  }

  /** The config files, which one discovery selects, and the effective snapshot. */
  datatype Config = Config(
    files: map<string, Document>,
    discovered: Option<string>,
    epoch: nat,
    snapshot: Option<Snapshot>,
    publications: seq<Publication>)
  {
    function File(path: Option<string>): Option<Document> {
      if path.Some? && path.value in files then Some(files[path.value]) else None
    }
  }

  datatype State = State(
    now: int,
    stage: Stage,
    nextEpoch: nat,
    binding: Option<Binding>,
    config: Config,
    writer: Option<PendingWrite>,
    consent: Consent,
    convs: map<ConversationId, Conv>,
    admissions: map<nat, Admission>,
    runners: map<nat, Runner>,
    orphans: map<ConversationId, nat>,
    runs: map<nat, Run>,
    active: map<string, nat>,
    claims: map<string, RunIdentity>,
    // History: the run that used each launched run ID, New chat counts, and session saves.
    launched: map<string, nat>,
    resets: map<ConversationId, nat>,
    saves: seq<SaveEvent>)
  {
    function Conversation(c: ConversationId): Conv {
      if c in convs then convs[c] else FRESH_CONV
    }

    function Resets(c: ConversationId): nat {
      if c in resets then resets[c] else 0
    }

    predicate Closing() { stage != Open }

    predicate Live(r: nat) { r in runners && !runners[r].closed }

    // No admission holds the read side of the binding gate and no settings write holds it.
    predicate GateFree() { writer.None? && Unread() }

    predicate Unread() { forall t :: t in admissions ==> admissions[t].phase.Entered? }
  }

  predicate Init(s: State) {
    && s.stage == Open && s.nextEpoch == 0 && s.binding.None? && s.writer.None?
    && s.config.epoch == 0 && s.config.snapshot.None? && s.config.publications == []
    && s.convs == map[] && s.admissions == map[] && s.runners == map[] && s.orphans == map[]
    && s.runs == map[] && s.active == map[] && s.claims == map[]
    && s.launched == map[] && s.resets == map[] && s.saves == []
    && s.consent.issued == map[] && s.consent.settings == map[] && s.consent.issuedSettings == map[]
    && s.consent.spent == [] && s.consent.grants == []
  }
}
