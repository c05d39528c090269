/** Values of the session kernel (src/session.ts). Game code, hashes and the view digest are
    function-valued fields of `Options`: nothing is assumed about them beyond purity. */
module SessionTypes {
  import opened CanonicalJson
  import opened Wrappers
  import opened ObservationCodec

  type Seat = string
  type GameState = Json

  datatype Error =
    | InvalidProtocol | WrongSession | StaleTick | UnknownParticipant | InvalidSubmission
    | IllegalCommand | ConflictingIntent                                       // IntentCollectionError
    | Conflict | UnknownSubmission                                             // SessionConflictError
    | NotReady | StaleTarget | InvalidTarget | InvalidView | Terminal          // SessionAdvanceError
    | Malformed                                                                // TypeError and RangeError

  datatype Result<+T> = Ok(value: T) | Err(error: Error)

  datatype Protocol = GaosTicks1 | OtherProtocol

  /** `receiptKey`: a participant and one of its submission or control ids. */
  datatype Key = Key(participantId: Seat, id: string)

  datatype TickId = TickId(sessionId: string, revision: int)
  datatype EventId = EventId(sessionId: string, transitionRevision: nat, index: nat)

  datatype Envelope = Envelope(commitmentId: int, hash: string)
  datatype Reveal = Reveal(commitmentId: int, salt: string, payload: Json)

  /** `SubmittedAction`: the game's own fields are one uninterpreted value. */
  datatype Action = Action(
    body: Json, seat: Option<Seat>, commit: Option<Envelope>, opening: Option<Reveal>,
    verifiedPayload: Option<Json>)

  datatype Context = Context(participantId: Seat, id: string, cursor: nat, tick: nat)
  datatype InterestContext = InterestContext(
    participantId: Seat, scopeId: string, cursor: nat, tick: nat, declaration: Json)
  datatype Binding = Binding(seat: Seat, commitmentId: int, windowRef: nat)

  /** The clientTime, prevChainHash and sig of a submission, carried but not interpreted. */
  datatype Seal = Seal(clientTime: nat, prevChainHash: string, sig: Option<string>)

  datatype Submission = Submission(
    protocol: Protocol, sessionId: string, tickId: TickId, revision: int,
    participantId: Seat, submissionId: string, command: Json, seal: Option<Seal>)

  datatype TimeoutInput = TimeoutInput(
    timeoutId: string, tick: int, participantId: Option<Seat>, reason: string, hasPolicyRef: bool)
  datatype ControlInput = ControlInput(participantId: Seat, controlId: string, control: Json)
  datatype InterestSubmission = InterestSubmission(
    protocol: Protocol, sessionId: string, tickId: TickId, revision: int,
    participantId: Seat, submissionId: string, scopeId: string, declaration: Json, seal: Option<Seal>)

  datatype Request =
    | Ingest(submission: Submission)
    | Advance(target: Option<int>)
    | Timeout(timeout: TimeoutInput, forced: Option<Action>)
    | Extend(lane: string, record: Json)
    | Control(control: ControlInput)
    | Interest(interest: InterestSubmission)

  datatype Status = Playing | Won | Failed | Ended
  datatype Cadence = Turns | Ticks

  type Ratio = r: real | r >= 1.0 witness 1.0

  datatype CodecOptions = CodecOptions(
    adaptive: bool, patchBackoffTicks: nat, maxPatchBackoffTicks: nat,
    maxOperations: nat, maxBytes: nat, minReduction: Ratio)

  datatype Options = Options(
    sessionId: string,
    seats: seq<Seat>,
    initialState: GameState,
    advance: (GameState, seq<Action>) -> GameState,
    status: GameState -> Status,
    endedWithStars: GameState -> bool,
    participation: GameState -> seq<Seat>,
    metrics: GameState -> Json,
    viewFor: (GameState, Seat) -> Json,
    toAction: (Json, Context) -> Action,
    legal: (GameState, Seat, Action) -> bool,
    timeoutToAction: Option<(Option<Seat>, nat, TimeoutInput) -> Action>,
    applyControl: Option<(GameState, Json, Context) -> GameState>,
    narrowView: Option<(Json, InterestContext) -> Json>,
    validEnvelope: Envelope -> bool,
    commitmentHash: (Binding, string, Json) -> Option<string>,
    text: Json -> string,
    digest: (nat, nat, map<Seat, Json>) -> int,
    viewDigest: string -> int,
    cadence: Cadence,
    timeoutWindowTicks: Option<nat>,
    signed: bool,
    maxFutureTicks: nat,
    maxCatchUpTicks: nat,
    receiptRetention: nat,
    maxExtensionBytes: nat,
    checkpointInterval: nat,
    maxOpenCommitmentsPerSeat: nat,
    maxScopesPerSeat: nat,
    codec: CodecOptions)

  // ---- Kernel state ----

  datatype Intent = Intent(participantId: Seat, submissionId: string, command: Json, seal: Option<Seal>)

  datatype Window = Window(revision: nat, participants: seq<Seat>, intents: map<Seat, Intent>)

  datatype Receipt = Receipt(
    participantId: Seat, submissionId: string, cursor: nat, tick: nat,
    submitted: seq<Seat>, awaiting: seq<Seat>, resolved: bool)

  datatype ReceiptEntry = ReceiptEntry(
    key: Key, canonicalCommand: string, tickId: TickId, receipt: Receipt, cursor: nat)

  datatype CommitmentKey = CommitmentKey(seat: Seat, commitmentId: int)
  datatype Commitment = Commitment(envelope: Envelope, seat: Seat, windowRef: nat, revealed: bool)

  datatype ScopeKey = ScopeKey(participantId: Seat, scopeId: string)
  datatype Scope = Scope(
    participantId: Seat, scopeId: string, declared: bool, declaration: Json, view: Json)

  datatype ControlReceipt = ControlReceipt(
    participantId: Seat, controlId: string, transitionRevision: nat, cursor: nat, tick: nat)
  datatype ControlEntry = ControlEntry(canonicalControl: string, receipt: ControlReceipt)

  datatype Rejection = Rejection(
    transitionRevision: nat, tick: nat, participantId: Seat, submissionId: string)

  datatype Cause = Complete | TimedOut | Tick

  datatype CanonicalInput = CanonicalInput(
    participantId: Option<Seat>, submissionId: Option<string>, canonicalCommand: Option<string>,
    cursor: Option<nat>, action: Action, seal: Option<Seal>)

  datatype CommitMismatch = CommitMismatch(
    tick: nat, cursor: nat, participantId: Seat, submissionId: string, commitmentId: int,
    attempted: Reveal, canonicalCommand: string, seal: Option<Seal>)

  datatype Body =
    | IntentAccepted(
        tick: nat, revision: nat, participantId: Seat, submissionId: string, command: Json,
        canonicalCommand: string, action: Action, seal: Option<Seal>)
    | Resolution(
        tick: nat, cursor: nat, cause: Cause, consumed: seq<Key>, inputs: seq<CanonicalInput>,
        systemInput: Option<CanonicalInput>, result: Json)
    | TimeoutNotice(
        noticeTick: int, timeoutId: string, windowRef: nat, timedOut: Option<Seat>, reason: string,
        hasPolicyRef: bool)
    | Extension(tick: nat, lane: string, record: Json)
    | ControlTransition(
        tick: nat, cursor: nat, participantId: Seat, controlId: string, control: Json,
        canonicalControl: string)
    | InterestDeclared(
        tick: nat, cursor: nat, participantId: Seat, submissionId: string, scopeId: string,
        declaration: Json, canonicalCommand: string, seal: Option<Seal>)
    | Checkpoint(tick: nat, digest: int)
    | Rejected(mismatch: CommitMismatch)

  datatype Event = Event(eventId: EventId, transitionRevision: nat, body: Body)

  /** The `live` state. Maps whose order matters are lists in insertion order. */
  datatype KernelState = KernelState(
    reducerState: GameState,
    window: Window,
    transitionRevision: nat,
    cursor: nat,
    tick: nat,
    lastCheckpointTick: nat,
    events: seq<Event>,
    rejectionHistory: seq<Rejection>,
    receipts: seq<ReceiptEntry>,
    expiredReceiptKeys: seq<Key>,
    views: map<Seat, Json>,
    viewRevisions: map<Seat, nat>,
    commitments: map<CommitmentKey, Commitment>,
    nextCommitmentIds: map<Seat, nat>,
    interestScopes: seq<Scope>,
    controls: map<Key, ControlEntry>,
    intentActions: map<Key, Action>)

  /** Everything the durable log determines. */
  datatype Kernel = Kernel(
    live: KernelState, submissionKeys: set<Key>, interestCommands: map<Key, string>)

  /** Adaptive patch state of one scope: changed views still to send whole, and the next window. */
  datatype Backoff = Backoff(remaining: nat, window: nat)

  datatype Session = Session(
    kernel: Kernel, backoff: map<ScopeKey, Backoff>, retentionFloor: nat)

  /** Answers of the host's permanent history (`SessionHistoryLookup`). */
  datatype Lookup = Lookup(gameplay: set<Key>, interest: map<Key, string>, control: map<Key, string>)

  const NO_HISTORY: Lookup := Lookup({}, map[], map[])

  // ---- Deliveries and results ----

  datatype Origin = FromResolution | FromSnapshot | FromInterest | FromControl

  datatype DeltaBody = SnapshotBody(view: Json) | PatchBody(operations: seq<Operation>) | UnchangedBody

  datatype Delta = Delta(
    seat: Seat, scopeId: string, interest: Option<Json>, transitionRevision: nat, viewRevision: nat,
    tick: nat, origin: Origin, acknowledgements: seq<Key>, rejections: seq<Rejection>,
    body: DeltaBody, viewDigest: int)

  datatype Outcome =
    | Accepted(receipt: Receipt)
    | Duplicate(receipt: Receipt)
    | Advanced(resolutions: nat, partial: bool, cursor: nat, tick: nat, digest: int)
    | Extended
    | ControlAccepted(control: ControlReceipt)
    | ControlDuplicate(control: ControlReceipt)
    | InterestAccepted
    | InterestDuplicate

  datatype Prepared = Prepared(
    base: nat, next: nat, events: seq<Event>, deltas: seq<Delta>, outcome: Outcome,
    draft: KernelState, backoff: map<ScopeKey, Backoff>, noop: bool)
}
