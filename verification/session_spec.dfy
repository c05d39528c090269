/** What each prepare call of the session kernel computes from the live state, and what a commit
    installs (src/session.ts). Draft states are values; nothing here changes the live one. */
module SessionSpec {
  import opened CodePoints
  import opened CanonicalJson
  import opened Utf8
  import opened Wrappers
  import opened BoundedDiff
  import opened JsonProjection
  import opened SessionTypes

  // ---- Small helpers ----

  predicate PortableChar(c: char) {
    'A' <= c <= 'Z' || 'a' <= c <= 'z' || '0' <= c <= '9' || c in {'_', '.', ':', '@', '-'}
  }

  /** `isParticipantId` (src/protocol.ts) */
  predicate PortableId(id: string) {
    1 <= |id| <= 128 && forall i :: 0 <= i < |id| ==> PortableChar(id[i])
  }

  function FindReceipt(entries: seq<ReceiptEntry>, key: Key): Option<ReceiptEntry> {
    if entries == [] then None
    else if entries[0].key == key then Some(entries[0])
    else FindReceipt(entries[1..], key)
  }

  function RemoveReceipt(entries: seq<ReceiptEntry>, key: Key): seq<ReceiptEntry> {
    if entries == [] then []
    else (if entries[0].key == key then [] else [entries[0]]) + RemoveReceipt(entries[1..], key)
  }

  /** `Map.set`: an existing key keeps its place. */
  function SetReceipt(entries: seq<ReceiptEntry>, entry: ReceiptEntry): seq<ReceiptEntry> {
    if entries == [] then [entry]
    else if entries[0].key == entry.key then [entry] + entries[1..]
    else [entries[0]] + SetReceipt(entries[1..], entry)
  }

  function KeyOf(scope: Scope): ScopeKey { ScopeKey(scope.participantId, scope.scopeId) }

  function FindScope(scopes: seq<Scope>, key: ScopeKey): Option<Scope> {
    if scopes == [] then None
    else if KeyOf(scopes[0]) == key then Some(scopes[0])
    else FindScope(scopes[1..], key)
  }

  function SetScope(scopes: seq<Scope>, scope: Scope): seq<Scope> {
    if scopes == [] then [scope]
    else if KeyOf(scopes[0]) == KeyOf(scope) then [scope] + scopes[1..]
    else [scopes[0]] + SetScope(scopes[1..], scope)
  }

  function CountScopes(scopes: seq<Scope>, seat: Seat): nat {
    if scopes == [] then 0
    else (if scopes[0].participantId == seat then 1 else 0) + CountScopes(scopes[1..], seat)
  }

  // ---- Windows ----

  function Contents(ids: seq<Seat>): set<Seat> { set id | id in ids }

  /** `validatedParticipantsForView`: repeated participants pass it. */
  predicate ParticipantsValid(o: Options, state: GameState) {
    && !o.endedWithStars(state) && o.participation(state) != []
    && forall id :: id in o.participation(state) ==> id in o.seats
  }

  /** `validatedParticipantsForView` followed by `createIntentWindow`, which refuses repetitions. */
  function WindowFor(o: Options, state: GameState, revision: nat): (w: Option<Window>)
    ensures w.Some? ==> ParticipantsValid(o, state)
  {
    var ids := o.participation(state);
    if !ParticipantsValid(o, state) || |Contents(ids)| != |ids| then None
    else if exists id :: id in ids && !PortableId(id) then None
    else Some(Window(revision, Sorted(Contents(ids)), map[]))
  }

  function OpenTick(o: Options, w: Window): TickId { TickId(o.sessionId, w.revision) }

  function Submitted(w: Window): seq<Seat> { Members(w.participants, w.intents.Keys, true) }

  function Awaiting(w: Window): seq<Seat> { Members(w.participants, w.intents.Keys, false) }

  function Members(ids: seq<Seat>, keys: set<Seat>, wanted: bool): seq<Seat> {
    if ids == [] then []
    else (if (ids[0] in keys) == wanted then [ids[0]] else []) + Members(ids[1..], keys, wanted)
  }

  predicate Ready(w: Window) { forall p :: p in w.participants ==> p in w.intents }

  /** The collected intents in participant order. */
  function WindowIntents(ids: seq<Seat>, intents: map<Seat, Intent>): seq<Intent> {
    if ids == [] then []
    else (if ids[0] in intents then [intents[ids[0]]] else []) + WindowIntents(ids[1..], intents)
  }

  /** `validateIntentSubmission` */
  function SubmissionError(o: Options, w: Window, s: Submission): Option<Error> {
    if s.protocol != GaosTicks1 then Some(InvalidProtocol)
    else if s.sessionId != o.sessionId then Some(WrongSession)
    else if s.tickId != OpenTick(o, w) || s.revision != w.revision then Some(StaleTick)
    else if s.participantId !in w.participants then Some(UnknownParticipant)
    else if Blank(s.submissionId) then Some(InvalidSubmission)
    else None
  }

  /** `collectIntent` (src/protocol.ts) */
  function Collect(o: Options, w: Window, s: Submission): Result<Window> {
    var invalid := SubmissionError(o, w, s);
    if invalid.Some? then Err(invalid.value)
    else if s.participantId in w.intents then
      var existing := w.intents[s.participantId];
      if existing.submissionId == s.submissionId && o.text(existing.command) == o.text(s.command)
      then Ok(w) else Err(ConflictingIntent)
    else Ok(w.(intents := w.intents[s.participantId :=
      Intent(s.participantId, s.submissionId, s.command, s.seal)]))
  }

  // ---- Transitions ----

  function Finish(
    o: Options, session: Session, draft: KernelState, bodies: seq<Body>, deltas: seq<Delta>,
    outcome: Outcome, backoff: map<ScopeKey, Backoff>, noop: bool): Prepared
  {
    var base := session.kernel.live.transitionRevision;
    var next := if noop then base else base + 1;
    var events := Number(o, next, bodies, 0);
    var numbered := draft.(
      transitionRevision := next,
      events := draft.events + events,
      rejectionHistory := draft.rejectionHistory + Rejections(next, bodies));
    Prepared(base, next, events, deltas, outcome, if noop then draft else numbered, backoff, noop)
  }

  /** The event identities `makePrepared` assigns. */
  function Number(o: Options, revision: nat, bodies: seq<Body>, index: nat): seq<Event> {
    if bodies == [] then []
    else
      [Event(EventId(o.sessionId, revision, index), revision, bodies[0])] + Number(o, revision, bodies[1..], index + 1)
  }

  function RejectionOf(revision: nat, m: CommitMismatch): Rejection {
    Rejection(revision, m.tick, m.participantId, m.submissionId)
  }

  function Rejections(revision: nat, bodies: seq<Body>): seq<Rejection> {
    if bodies == [] then []
    else
      var first := if bodies[0].Rejected? then [RejectionOf(revision, bodies[0].mismatch)] else [];
      first + Rejections(revision, bodies[1..])
  }

  function NoChange(o: Options, session: Session, outcome: Outcome): Prepared {
    Finish(o, session, session.kernel.live, [], [], outcome, session.backoff, true)
  }

  predicate Spent(k: Kernel, h: Lookup, key: Key) {
    key in k.live.expiredReceiptKeys || key in k.submissionKeys || key in k.interestCommands
    || key in h.gameplay || key in h.interest
  }

  /** The checks on a command's action before it is accepted. */
  function ActionError(o: Options, live: KernelState, seat: Seat, a: Action): Option<Error> {
    if a.seat.Some? && a.seat.value != seat then Some(Conflict)
    else if a.verifiedPayload.Some? then Some(Conflict)
    else if a.commit.Some? && a.opening.Some? then Some(Conflict)
    else if a.commit.Some? && CommitError(o, live, seat, a.commit.value) then Some(Conflict)
    else if a.opening.Some? && RevealError(o, live, seat, a.opening.value) then Some(Conflict)
    else None
  }

  function NextId(ids: map<Seat, nat>, seat: Seat): nat { if seat in ids then ids[seat] else 0 }

  function OpenCommitments(commitments: map<CommitmentKey, Commitment>, seat: Seat): set<CommitmentKey> {
    set c | c in commitments && commitments[c].seat == seat && !commitments[c].revealed
  }

  predicate CommitError(o: Options, live: KernelState, seat: Seat, c: Envelope) {
    || !o.validEnvelope(c)
    || c.commitmentId != NextId(live.nextCommitmentIds, seat)
    || |OpenCommitments(live.commitments, seat)| >= o.maxOpenCommitmentsPerSeat
  }

  function BindingOf(c: Commitment, seat: Seat): Binding {
    Binding(seat, c.envelope.commitmentId, c.windowRef)
  }

  predicate RevealError(o: Options, live: KernelState, seat: Seat, r: Reveal) {
    var key := CommitmentKey(seat, r.commitmentId);
    || key !in live.commitments
    || live.commitments[key].revealed
    || o.commitmentHash(BindingOf(live.commitments[key], seat), r.salt, r.payload).None?
  }

  function PrepareIngest(o: Options, h: Lookup, session: Session, s: Submission): Result<Prepared> {
    var k := session.kernel;
    var live := k.live;
    var key := Key(s.participantId, s.submissionId);
    var existing := FindReceipt(live.receipts, key);
    if s.protocol != GaosTicks1 then Err(InvalidProtocol)
    else if s.sessionId != o.sessionId then Err(WrongSession)
    else if existing.Some? then
      if existing.value.canonicalCommand != o.text(s.command) || existing.value.tickId != s.tickId
         || existing.value.cursor != s.revision then Err(Conflict)
      else Ok(NoChange(o, session,
        Duplicate(existing.value.receipt.(resolved := existing.value.cursor < live.cursor))))
    else if SubmissionError(o, live.window, s).Some? then Err(SubmissionError(o, live.window, s).value)
    else if o.status(live.reducerState) != Playing then Err(Terminal)
    else if Spent(k, h, key) then Err(UnknownSubmission)
    else
      var preview := o.toAction(s.command, Context(s.participantId, s.submissionId, live.cursor, live.tick));
      if ActionError(o, live, s.participantId, preview).Some? then
        Err(ActionError(o, live, s.participantId, preview).value)
      else if !o.legal(live.reducerState, s.participantId, preview) then Err(IllegalCommand)
      else match Collect(o, live.window, s)
        case Err(e) => Err(e)
        case Ok(w) => Ok(Accept(o, session, s, preview, w))
  }

  function ReceiptFor(live: KernelState, s: Submission, w: Window): Receipt {
    Receipt(s.participantId, s.submissionId, live.cursor, live.tick, Submitted(w), Awaiting(w), false)
  }

  function Accept(o: Options, session: Session, s: Submission, preview: Action, w: Window): Prepared {
    var live := session.kernel.live;
    var key := Key(s.participantId, s.submissionId);
    var receipt := ReceiptFor(live, s, w);
    var draft := live.(
      window := w,
      receipts := SetReceipt(live.receipts,
        ReceiptEntry(key, o.text(s.command), s.tickId, receipt, live.cursor)),
      intentActions := live.intentActions[key := preview]);
    Finish(o, session, draft,
      [IntentAccepted(live.tick, live.cursor, s.participantId, s.submissionId, s.command,
                      o.text(s.command), preview, s.seal)],
      [], Accepted(receipt), session.backoff, false)
  }

  // ---- Resolution ----

  /** The commitment books of a draft. */
  datatype Books = Books(commitments: map<CommitmentKey, Commitment>, nextIds: map<Seat, nat>)

  datatype MappedOne = One(input: CanonicalInput, books: Books) | OneRejected(mismatch: CommitMismatch) | OneRefused
  datatype Mapped = Mapped(inputs: seq<CanonicalInput>, books: Books) | Mismatch(mismatch: CommitMismatch) | Refused

  function ActionOf(o: Options, live: KernelState, intent: Intent): Action {
    var key := Key(intent.participantId, intent.submissionId);
    if key in live.intentActions then live.intentActions[key]
    else o.toAction(intent.command, Context(intent.participantId, intent.submissionId, live.cursor, live.tick))
  }

  /** One iteration of `mapIntents`. */
  function MapOne(o: Options, live: KernelState, books: Books, intent: Intent): MappedOne {
    var seat := intent.participantId;
    var a := ActionOf(o, live, intent);
    if a.seat.Some? && a.seat.value != seat then OneRefused
    else if a.verifiedPayload.Some? || (a.commit.Some? && a.opening.Some?) then OneRefused
    else if a.commit.Some? then
      var id := NextId(books.nextIds, seat);
      if !o.validEnvelope(a.commit.value) || a.commit.value.commitmentId != id then OneRefused
      else One(InputFor(o, live, intent, a.(seat := Some(seat))),
               Books(books.commitments[CommitmentKey(seat, id) := Commitment(a.commit.value, seat, live.tick, false)],
                     books.nextIds[seat := id + 1]))
    else if a.opening.Some? then
      var key := CommitmentKey(seat, a.opening.value.commitmentId);
      if key !in books.commitments || books.commitments[key].revealed then OneRefused
      else
        var c := books.commitments[key];
        match o.commitmentHash(BindingOf(c, seat), a.opening.value.salt, a.opening.value.payload)
        case None => OneRefused
        case Some(actual) =>
          if actual != c.envelope.hash then OneRejected(RejectionFor(o, live, intent, a.opening.value))
          else One(InputFor(o, live, intent,
                     a.(seat := Some(seat), verifiedPayload := Some(a.opening.value.payload))),
                   books.(commitments := books.commitments[key := c.(revealed := true)]))
    else One(InputFor(o, live, intent, a.(seat := Some(seat))), books)
  }

  function InputFor(o: Options, live: KernelState, intent: Intent, a: Action): CanonicalInput {
    CanonicalInput(Some(intent.participantId), Some(intent.submissionId), Some(o.text(intent.command)),
                   Some(live.cursor), a, intent.seal)
  }

  function RejectionFor(o: Options, live: KernelState, intent: Intent, r: Reveal): CommitMismatch {
    CommitMismatch(live.tick, live.cursor, intent.participantId, intent.submissionId, r.commitmentId, r,
             o.text(intent.command), intent.seal)
  }

  /** `mapIntents` */
  function MapIntents(o: Options, live: KernelState, books: Books, intents: seq<Intent>): Mapped
    decreases |intents|
  {
    if intents == [] then Mapped([], books)
    else match MapOne(o, live, books, intents[0])
      case OneRefused => Refused
      case OneRejected(m) => Mismatch(m)
      case One(input, books') =>
        match MapIntents(o, live, books', intents[1..])
        case Mapped(inputs, after) => Mapped([input] + inputs, after)
        case other => other
  }

  function Actions(inputs: seq<CanonicalInput>): seq<Action> {
    if inputs == [] then [] else [inputs[0].action] + Actions(inputs[1..])
  }

  function Acknowledged(inputs: seq<CanonicalInput>): seq<Key> {
    if inputs == [] then []
    else
      var i := inputs[0];
      (if i.participantId.Some? && i.submissionId.Some?
       then [Key(i.participantId.value, i.submissionId.value)] else [])
      + Acknowledged(inputs[1..])
  }

  function Consumed(intents: seq<Intent>): seq<Key> {
    if intents == [] then []
    else [Key(intents[0].participantId, intents[0].submissionId)] + Consumed(intents[1..])
  }

  // ---- Views ----

  /** `scopedView`: None is the thrown "widened or altered the partitioned view". */
  ghost function ScopedView(o: Options, full: Json, scope: Scope, cursor: nat, tick: nat): Option<Json> {
    var view :=
      if !scope.declared || o.narrowView.None? then full
      else (o.narrowView.value)(full,
        InterestContext(scope.participantId, scope.scopeId, cursor, tick, scope.declaration));
    if Embeds(full, view) then Some(view) else None
  }

  ghost function RefreshScopes(
    o: Options, scopes: seq<Scope>, views: map<Seat, Json>, cursor: nat, tick: nat): (r: Option<seq<Scope>>)
    ensures r.Some? ==> |r.value| == |scopes|
  {
    if scopes == [] then Some([])
    else
      var s := scopes[0];
      var rest := RefreshScopes(o, scopes[1..], views, cursor, tick);
      if s.participantId !in views then (if rest.Some? then Some([s] + rest.value) else None)
      else match (ScopedView(o, views[s.participantId], s, cursor, tick), rest)
        case (Some(view), Some(tail)) => Some([s.(view := view)] + tail)
        case _ => None
  }

  function ViewsOf(o: Options, state: GameState): map<Seat, Json> {
    map seat | seat in o.seats :: o.viewFor(state, seat)
  }

  function Revision(revisions: map<Seat, nat>, seat: Seat): nat {
    if seat in revisions then revisions[seat] else 0
  }

  function NextRevisions(o: Options, revisions: map<Seat, nat>): map<Seat, nat> {
    revisions + map seat | seat in o.seats :: Revision(revisions, seat) + 1
  }

  /** The views, view revisions and scopes after the reducer moved to `state`. */
  ghost function Refresh(o: Options, live: KernelState, state: GameState, cursor: nat,
      tick: nat): (r: Option<KernelState>)
    ensures r.Some? ==> |r.value.interestScopes| == |live.interestScopes|
  {
    match RefreshScopes(o, live.interestScopes, ViewsOf(o, state), cursor, tick)
    case None => None
    case Some(scopes) => Some(live.(
      reducerState := state, cursor := cursor, tick := tick,
      views := live.views + ViewsOf(o, state),
      viewRevisions := NextRevisions(o, live.viewRevisions),
      interestScopes := scopes))
  }

  // ---- Observation delivery ----

  datatype Encoded = Encoded(body: DeltaBody, backoff: Backoff)

  function Min(a: nat, b: nat): nat { if a < b then a else b }
  function Max(a: nat, b: nat): nat { if a < b then b else a }

  /** `encodedObservation`: patch, whole snapshot or nothing, with exponential backoff. */
  function EncodeObservation(o: Options, previous: Json, next: Json, same: bool, b: Backoff): Encoded {
    var c := o.codec;
    if same then Encoded(UnchangedBody, b)
    else if !c.adaptive then Encoded(SnapshotBody(next), Backoff(0, c.patchBackoffTicks))
    else if b.remaining > 0 then Encoded(SnapshotBody(next), Backoff(b.remaining - 1, b.window))
    else
      var budget := Min(c.maxBytes, PatchBudget(c, Utf8Length(o.text(next))));
      var patch := if budget < 2 then Abandoned else BoundedResult(previous, next, c.maxOperations, budget);
      if patch.Patch? then Encoded(PatchBody(patch.operations), Backoff(0, c.patchBackoffTicks))
      else Encoded(SnapshotBody(next),
        Backoff(b.window, Min(c.maxPatchBackoffTicks, Max(c.patchBackoffTicks, b.window * 2))))
  }

  /** Math.floor(snapshotBytes / minReduction) */
  function PatchBudget(c: CodecOptions, bytes: nat): nat {
    var q := (bytes as real / c.minReduction).Floor;
    if q < 0 then 0 else q
  }

  function BackoffOf(o: Options, backoff: map<ScopeKey, Backoff>, key: ScopeKey): Backoff {
    if key in backoff then backoff[key] else Backoff(0, o.codec.patchBackoffTicks)
  }

  datatype Delivery = Delivery(
    origin: Origin, transitionRevision: nat, tick: nat, acknowledgements: seq<Key>)

  function EncodeScope(o: Options, before: Scope, after: Scope, backoff: map<ScopeKey, Backoff>): Encoded {
    EncodeObservation(o, before.view, after.view, o.text(before.view) == o.text(after.view),
                      BackoffOf(o, backoff, KeyOf(before)))
  }

  function ScopeDelta(
    o: Options, d: Delivery, before: Scope, after: Scope, revisions: map<Seat, nat>,
    backoff: map<ScopeKey, Backoff>): Delta
  {
    Delta(after.participantId, after.scopeId, if after.declared then Some(after.declaration) else None,
          d.transitionRevision, Revision(revisions, after.participantId), d.tick, d.origin,
          d.acknowledgements, [], EncodeScope(o, before, after, backoff).body,
          o.viewDigest(o.text(after.view)))
  }

  /** The deltas of one seat's scopes, in scope order. */
  function SeatDeltas(
    o: Options, d: Delivery, seat: Seat, before: seq<Scope>, after: seq<Scope>, revisions: map<Seat, nat>,
    backoff: map<ScopeKey, Backoff>): seq<Delta>
    requires |before| == |after|
  {
    if before == [] then []
    else
      var rest := SeatDeltas(o, d, seat, before[1..], after[1..], revisions, backoff);
      if after[0].participantId == seat then [ScopeDelta(o, d, before[0], after[0], revisions, backoff)] + rest
        else rest
  }

  /** The loop over seats, with its inner loop over that seat's scopes. */
  function Deltas(
    o: Options, d: Delivery, seats: seq<Seat>, before: seq<Scope>, after: seq<Scope>,
    revisions: map<Seat, nat>, backoff: map<ScopeKey, Backoff>): seq<Delta>
    requires |before| == |after|
  {
    if seats == [] then []
    else
      SeatDeltas(o, d, seats[0], before, after, revisions, backoff)
      + Deltas(o, d, seats[1..], before, after, revisions, backoff)
  }

  function NextBackoff(
    o: Options, before: seq<Scope>, after: seq<Scope>, backoff: map<ScopeKey, Backoff>): map<ScopeKey, Backoff>
    requires |before| == |after|
  {
    if before == [] then backoff
    else NextBackoff(o, before[1..], after[1..],
      backoff[KeyOf(before[0]) := EncodeScope(o, before[0], after[0], backoff).backoff])
  }

  function RejectionDeltas(o: Options, draft: KernelState, revision: nat, m: CommitMismatch,
      scopes: seq<Scope>): seq<Delta> {
    if scopes == [] then []
    else
      var s := scopes[0];
      [Delta(s.participantId, s.scopeId, if s.declared then Some(s.declaration) else None, revision,
             Revision(draft.viewRevisions, s.participantId), draft.tick, FromResolution, [],
             [RejectionOf(revision, m)],
             UnchangedBody, o.viewDigest(o.text(s.view)))]
      + RejectionDeltas(o, draft, revision, m, scopes[1..])
  }

  // ---- Receipt eviction ----

  function Fresh(entries: seq<ReceiptEntry>, oldest: int): seq<ReceiptEntry> {
    if entries == [] then []
    else (if entries[0].cursor < oldest then [] else [entries[0]]) + Fresh(entries[1..], oldest)
  }

  function AddKey(keys: seq<Key>, key: Key): seq<Key> { if key in keys then keys else keys + [key] }

  function Expire(entries: seq<ReceiptEntry>, oldest: int, expired: seq<Key>): seq<Key> {
    if entries == [] then expired
    else Expire(entries[1..], oldest, if entries[0].cursor < oldest then AddKey(expired, entries[0].key) else expired)
  }

  function MaxTombstones(o: Options): nat { |o.seats| * Max(1, o.receiptRetention) }

  /** Drops the oldest tombstones beyond the bound. */
  function Trim(keys: seq<Key>, most: nat): seq<Key> {
    if |keys| > most then keys[|keys| - most..] else keys
  }

  /** `evictReceipts` */
  function Evict(o: Options, live: KernelState): KernelState {
    var oldest := live.cursor - o.receiptRetention;
    live.(receipts := Fresh(live.receipts, oldest),
          expiredReceiptKeys := Trim(Expire(live.receipts, oldest, live.expiredReceiptKeys), MaxTombstones(o)))
  }

  // ---- One resolution ----

  datatype Resolved =
    | Settled(draft: KernelState, body: Body, deltas: seq<Delta>, backoff: map<ScopeKey, Backoff>)
    | Declined(draft: KernelState, mismatch: CommitMismatch)

  function BooksOf(live: KernelState): Books { Books(live.commitments, live.nextCommitmentIds) }

  function WithBooks(live: KernelState, books: Books): KernelState {
    live.(commitments := books.commitments, nextCommitmentIds := books.nextIds)
  }

  /** A mismatched opening leaves the window and loses its receipt; nothing else moves. */
  function Decline(live: KernelState, m: CommitMismatch): KernelState {
    live.(window := live.window.(intents := live.window.intents - {m.participantId}),
          receipts := RemoveReceipt(live.receipts, Key(m.participantId, m.submissionId)))
  }

  /** The state after the reducer consumed `inputs` at this position; None is any of the thrown
      view errors. */
  ghost function Resolve(
    o: Options, live: KernelState, inputs: seq<CanonicalInput>, cursor: nat, tick: nat): (r: Option<KernelState>)
    ensures r.Some? ==> |r.value.interestScopes| == |live.interestScopes|
  {
    var state := o.advance(live.reducerState, Actions(inputs));
    match (Refresh(o, live, state, cursor + 1, tick + 1), WindowFor(o, state, cursor + 1))
    case (Some(moved), Some(w)) => Some(Evict(o, moved.(window := w)))
    case _ => None
  }

  /** `resolveOnce` */
  ghost function ResolveOnce(
    o: Options, live: KernelState, backoff: map<ScopeKey, Backoff>, cause: Cause,
    forced: seq<CanonicalInput>): Result<Resolved>
  {
    var intents := WindowIntents(live.window.participants, live.window.intents);
    if cause == Complete && |intents| != |live.window.participants| then Err(NotReady)
    else match MapIntents(o, live, BooksOf(live), intents)
      case Refused => Err(Conflict)
      case Mismatch(m) => Ok(Declined(Decline(live, m), m))
      case Mapped(mapped, books) =>
        var inputs := mapped + forced;
        match Resolve(o, WithBooks(live, books), inputs, live.cursor, live.tick)
        case None => Err(InvalidView)
        case Some(draft) => Ok(Settle(o, live, backoff, cause, Consumed(intents), inputs, forced, draft))
  }

  /** The event and deltas of a resolution that moved `live` to `draft`. */
  function Settle(
    o: Options, live: KernelState, backoff: map<ScopeKey, Backoff>, cause: Cause, consumed: seq<Key>,
    inputs: seq<CanonicalInput>, forced: seq<CanonicalInput>, draft: KernelState): Resolved
    requires |live.interestScopes| == |draft.interestScopes|
  {
    var d := Delivery(FromResolution, live.transitionRevision + 1, draft.tick, Acknowledged(inputs));
    Settled(draft,
      Resolution(live.tick, live.cursor, cause, consumed, inputs,
                 if forced == [] then None else Some(forced[0]), o.metrics(draft.reducerState)),
      Deltas(o, d, o.seats, live.interestScopes, draft.interestScopes, draft.viewRevisions, backoff),
      NextBackoff(o, live.interestScopes, draft.interestScopes, backoff))
  }

  // ---- Advance ----

  datatype Progress = Progress(
    draft: KernelState, bodies: seq<Body>, deltas: seq<Delta>, backoff: map<ScopeKey, Backoff>,
    resolutions: nat, stopped: bool)

  function StateDigest(o: Options, live: KernelState): int { o.digest(live.cursor, live.tick, live.views) }

  function CauseOf(o: Options, w: Window): Cause {
    if o.cadence == Turns || Ready(w) then Complete else Tick
  }

  /** After one settled tick the loop ends: the game is over, or the timeout policy must close
      the window that opened. */
  predicate Halts(o: Options, draft: KernelState) {
    o.status(draft.reducerState) != Playing || (o.timeoutWindowTicks.Some? && !Ready(draft.window))
  }

  predicate CutShort(o: Options, draft: KernelState, left: nat) {
    o.status(draft.reducerState) == Playing && left > 0
  }

  function DeclinedProgress(o: Options, draft: KernelState, m: CommitMismatch,
      backoff: map<ScopeKey, Backoff>): Progress {
    Progress(draft, [Rejected(m)],
      RejectionDeltas(o, draft, draft.transitionRevision + 1, m, draft.interestScopes), backoff, 0, false)
  }

  function After(body: Body, deltas: seq<Delta>, rest: Result<Progress>): Result<Progress> {
    match rest
    case Err(e) => Err(e)
    case Ok(p) => Ok(p.(bodies := [body] + p.bodies, deltas := deltas + p.deltas, resolutions := p.resolutions + 1))
  }

  /** The catch-up loop of `prepareAdvance`: up to `count` ticks, stopping at a rejection, a
      terminal state, or a window the timeout policy must close. */
  ghost function CatchUp(o: Options, live: KernelState, backoff: map<ScopeKey, Backoff>, count: nat): Result<Progress>
    decreases count
  {
    if count == 0 then Ok(Progress(live, [], [], backoff, 0, false))
    else
      var r := ResolveOnce(o, live, backoff, CauseOf(o, live.window), []);
      if r.Err? then Err(r.error)
      else if r.value.Declined? then Ok(DeclinedProgress(o, r.value.draft, r.value.mismatch, backoff))
      else if Halts(o, r.value.draft) then
        Ok(Progress(r.value.draft, [r.value.body], r.value.deltas, r.value.backoff, 1,
          CutShort(o, r.value.draft, count - 1)))
      else After(r.value.body, r.value.deltas, CatchUp(o, r.value.draft, r.value.backoff, count - 1))
  }

  /** How many ticks an advance asks for, and whether the catch-up limit cut it short. */
  datatype Demand = Demand(count: nat, partial: bool)

  function DemandOf(o: Options, live: KernelState, target: Option<int>): Result<Demand> {
    if o.cadence == Turns then (if target.Some? then Err(InvalidTarget) else Ok(Demand(1, false)))
    else
      var t := if target.Some? then target.value else live.tick;
      if t < 0 then Err(InvalidTarget)
      else if t < live.tick then Err(StaleTarget)
      else
        var waiting := o.timeoutWindowTicks.Some? && !Ready(live.window);
        if waiting && t >= live.tick + o.timeoutWindowTicks.value then Err(NotReady)
        else if t - live.tick > o.maxFutureTicks then Err(InvalidTarget)
        else if waiting then Ok(Demand(0, false))
        else if t - live.tick + 1 > o.maxCatchUpTicks then Ok(Demand(o.maxCatchUpTicks, true))
        else Ok(Demand(t - live.tick + 1, false))
  }

  /** Appends the audit checkpoint when one is due. */
  function WithCheckpoint(o: Options, draft: KernelState, bodies: seq<Body>, due: bool): (KernelState, seq<Body>) {
    if due then (draft.(lastCheckpointTick := draft.tick), bodies + [Checkpoint(draft.tick, StateDigest(o, draft))])
    else (draft, bodies)
  }

  predicate EndsRejected(bodies: seq<Body>) { bodies != [] && bodies[|bodies| - 1].Rejected? }

  predicate CheckpointDue(o: Options, draft: KernelState, resolutions: nat) {
    resolutions > 0 && draft.tick - draft.lastCheckpointTick >= o.checkpointInterval
  }

  ghost function PrepareAdvance(o: Options, session: Session, target: Option<int>): Result<Prepared> {
    var live := session.kernel.live;
    if o.status(live.reducerState) != Playing then Err(Terminal)
    else match DemandOf(o, live, target)
      case Err(e) => Err(e)
      case Ok(demand) =>
        match CatchUp(o, live, session.backoff, demand.count)
        case Err(e) => Err(e)
        case Ok(p) => Ok(AdvancePrepared(o, session, demand, p))
  }

  /** The prepared transition of an advance, given what its loop did. */
  function AdvancePrepared(o: Options, session: Session, demand: Demand, p: Progress): Prepared {
    var due := CheckpointDue(o, p.draft, p.resolutions) || EndsRejected(p.bodies);
    var (draft, bodies) := WithCheckpoint(o, p.draft, p.bodies, due);
    Finish(o, session, draft, bodies, p.deltas,
      Advanced(p.resolutions, demand.partial || p.stopped, draft.cursor, draft.tick, StateDigest(o, draft)),
      p.backoff, demand.count == 0)
  }

  // ---- Timeout ----

  /** The checks of `prepareTimeout` before it forks, and the action it derives. */
  function TimeoutAction(o: Options, live: KernelState, t: TimeoutInput, forced: Option<Action>): Result<Action> {
    if t.timeoutId == "" || t.reason == "" then Err(Malformed)
    else if o.timeoutWindowTicks.None? && t.tick != live.tick then Err(StaleTarget)
    else if o.timeoutWindowTicks.Some? && !t.hasPolicyRef then Err(Conflict)
    else if o.timeoutWindowTicks.Some? && t.tick != live.cursor + o.timeoutWindowTicks.value then Err(StaleTarget)
    else if t.participantId.Some? && t.participantId.value !in live.window.participants then Err(Conflict)
    else if t.participantId.Some? && t.participantId.value in live.window.intents then Err(Conflict)
    else if o.timeoutToAction.None? && o.signed then Err(Conflict)
    else if o.timeoutToAction.None? && forced.None? then Err(Malformed)
    else
      var a := if o.timeoutToAction.Some? then (o.timeoutToAction.value)(t.participantId, live.cursor, t)
        else forced.value;
      if o.timeoutToAction.Some? && forced.Some? && forced.value != a then Err(Conflict)
      else if a.seat.Some? && (t.participantId.None? || a.seat.value != t.participantId.value) then Err(Conflict)
      else if a.commit.Some? || a.opening.Some? || a.verifiedPayload.Some? then Err(Conflict)
      else Ok(if a.seat.None? then a.(seat := t.participantId) else a)
  }

  function SystemInput(t: TimeoutInput, a: Action): CanonicalInput {
    CanonicalInput(t.participantId, None, None, None, a, None)
  }

  function NoticeFor(live: KernelState, t: TimeoutInput): Body {
    TimeoutNotice(t.tick, t.timeoutId, live.cursor, t.participantId, t.reason, t.hasPolicyRef)
  }

  ghost function PrepareTimeout(o: Options, session: Session, t: TimeoutInput,
      forced: Option<Action>): Result<Prepared> {
    var live := session.kernel.live;
    match TimeoutAction(o, live, t, forced)
    case Err(e) => Err(e)
    case Ok(a) =>
      if o.status(live.reducerState) != Playing then Err(Terminal)
      else match ResolveOnce(o, live, session.backoff, TimedOut, [SystemInput(t, a)])
        case Err(e) => Err(e)
        case Ok(resolved) => Ok(TimeoutPrepared(o, session, t, resolved))
  }

  /** The prepared transition of a timeout, given its resolution. */
  function TimeoutPrepared(o: Options, session: Session, t: TimeoutInput, r: Resolved): Prepared {
    var second := if r.Declined? then Rejected(r.mismatch) else r.body;
    var due := r.Declined? || CheckpointDue(o, r.draft, 1);
    var (draft, bodies) := WithCheckpoint(o, r.draft, [NoticeFor(session.kernel.live, t), second], due);
    var deltas :=
      if r.Declined? then RejectionDeltas(o, r.draft, r.draft.transitionRevision + 1, r.mismatch,
        r.draft.interestScopes)
      else r.deltas;
    Finish(o, session, draft, bodies, deltas,
      Advanced(if r.Declined? then 0 else 1, false, draft.cursor, draft.tick, StateDigest(o, draft)),
      if r.Declined? then session.backoff else r.backoff, false)
  }

  // ---- Extension, control, interest ----

  function PrepareExtension(o: Options, session: Session, lane: string, record: Json): Result<Prepared> {
    var live := session.kernel.live;
    if o.status(live.reducerState) != Playing then Err(Terminal)
    else if lane == "" || !record.Obj? then Err(Malformed)
    else if Utf8Length(o.text(record)) > o.maxExtensionBytes then Err(Malformed)
    else Ok(Finish(o, session, live, [Extension(live.tick, lane, record)], [], Extended, session.backoff, false))
  }

  /** The reducer state and its views after a control; None is a thrown view error. */
  ghost function ApplyControl(o: Options, live: KernelState, c: ControlInput): (r: Option<KernelState>)
    requires o.applyControl.Some?
    ensures r.Some? ==> |r.value.interestScopes| == |live.interestScopes|
  {
    var state := (o.applyControl.value)(live.reducerState, c.control,
                   Context(c.participantId, c.controlId, live.cursor, live.tick));
    if !ParticipantsValid(o, state) then None else Refresh(o, live, state, live.cursor, live.tick)
  }

  ghost function PrepareControl(o: Options, h: Lookup, session: Session, c: ControlInput): Result<Prepared> {
    var k := session.kernel;
    var live := k.live;
    var key := Key(c.participantId, c.controlId);
    var canonical := o.text(c.control);
    if o.applyControl.None? then Err(Conflict)
    else if c.participantId !in o.seats then Err(Conflict)
    else if Blank(c.controlId) then Err(Malformed)
    else if FindReceipt(live.receipts, key).Some? || key in k.submissionKeys || key in h.gameplay then Err(Conflict)
    else if key in live.controls || key in h.control then
      var prior := if key in live.controls then live.controls[key].canonicalControl else h.control[key];
      if prior != canonical then Err(Conflict)
      else Ok(NoChange(o, session, ControlDuplicate(
        if key in live.controls then live.controls[key].receipt
        else ControlReceipt(c.participantId, c.controlId, live.transitionRevision, live.cursor, live.tick))))
    else if o.status(live.reducerState) != Playing then Err(Terminal)
    else match ApplyControl(o, live, c)
      case None => Err(InvalidView)
      case Some(moved) => Ok(ControlPrepared(o, session, c, moved))
  }

  /** The prepared transition of a control, given the state its reducer moved to. */
  function ControlPrepared(o: Options, session: Session, c: ControlInput, moved: KernelState): Prepared
    requires |moved.interestScopes| == |session.kernel.live.interestScopes|
  {
    var live := session.kernel.live;
    var revision := live.transitionRevision + 1;
    var canonical := o.text(c.control);
    var receipt := ControlReceipt(c.participantId, c.controlId, revision, live.cursor, live.tick);
    var draft := moved.(controls := live.controls[Key(c.participantId, c.controlId) :=
      ControlEntry(canonical, receipt)]);
    var d := Delivery(FromControl, revision, live.tick, []);
    Finish(o, session, draft,
      [ControlTransition(live.tick, live.cursor, c.participantId, c.controlId, c.control, canonical)],
      Deltas(o, d, o.seats, live.interestScopes, draft.interestScopes, draft.viewRevisions, session.backoff),
      ControlAccepted(receipt),
      NextBackoff(o, live.interestScopes, draft.interestScopes, session.backoff), false)
  }

  /** `canonicalJson({ kind: 'interest', scopeId, declaration })` */
  function InterestText(o: Options, scopeId: string, declaration: Json): string {
    o.text(Obj(map["kind" := Str("interest"), "scopeId" := Str(scopeId), "declaration" := declaration]))
  }

  ghost function PrepareInterest(o: Options, h: Lookup, session: Session, s: InterestSubmission): Result<Prepared> {
    var k := session.kernel;
    var live := k.live;
    var key := Key(s.participantId, s.submissionId);
    var canonical := InterestText(o, s.scopeId, s.declaration);
    if o.narrowView.None? then Err(Conflict)
    else if s.protocol != GaosTicks1 then Err(InvalidProtocol)
    else if s.sessionId != o.sessionId then Err(WrongSession)
    else if s.participantId !in o.seats then Err(UnknownParticipant)
    else if !PortableId(s.scopeId) || Blank(s.submissionId) then Err(InvalidSubmission)
    else if s.revision != live.cursor || s.tickId != OpenTick(o, live.window) then Err(StaleTick)
    else if key in k.interestCommands || key in h.interest then
      var prior := if key in k.interestCommands then k.interestCommands[key] else h.interest[key];
      if prior != canonical then Err(Conflict) else Ok(NoChange(o, session, InterestDuplicate))
    else if key in k.submissionKeys || key in h.gameplay then Err(Conflict)
    else if o.signed && (s.seal.None? || s.seal.value.sig.None?) then Err(InvalidSubmission)
    else
      var scopeKey := ScopeKey(s.participantId, s.scopeId);
      if FindScope(live.interestScopes, scopeKey).None?
         && CountScopes(live.interestScopes, s.participantId) >= o.maxScopesPerSeat then Err(Conflict)
      else match Declare(o, live, s.participantId, s.scopeId, s.declaration)
        case None => Err(InvalidView)
        case Some(scope) =>
          var draft := live.(interestScopes := SetScope(live.interestScopes, scope));
          Ok(Finish(o, session, draft,
            [InterestDeclared(live.tick, live.cursor, s.participantId, s.submissionId, s.scopeId,
                              s.declaration, canonical, s.seal)],
            [Delta(s.participantId, s.scopeId, Some(s.declaration), live.transitionRevision + 1,
                   Revision(live.viewRevisions, s.participantId), live.tick, FromInterest, [], [],
                   SnapshotBody(scope.view), o.viewDigest(o.text(scope.view)))],
            InterestAccepted,
            session.backoff[scopeKey := Backoff(0, o.codec.patchBackoffTicks)], false))
  }

  /** The scope a declaration creates; None when its view would widen the seat's own. */
  ghost function Declare(o: Options, live: KernelState, seat: Seat, scopeId: string, declaration: Json): Option<Scope> {
    if seat !in live.views then None
    else
      var scope := Scope(seat, scopeId, true, declaration, Null);
      match ScopedView(o, live.views[seat], scope, live.cursor, live.tick)
      case Some(view) => Some(scope.(view := view))
      case None => None
  }

  // ---- Prepare, commit, run ----

  ghost function Prepare(o: Options, h: Lookup, session: Session, r: Request): Result<Prepared> {
    match r
    case Ingest(s) => PrepareIngest(o, h, session, s)
    case Advance(target) => PrepareAdvance(o, session, target)
    case Timeout(t, forced) => PrepareTimeout(o, session, t, forced)
    case Extend(lane, record) => PrepareExtension(o, session, lane, record)
    case Control(c) => PrepareControl(o, h, session, c)
    case Interest(s) => PrepareInterest(o, h, session, s)
  }

  function RecordKeys(keys: set<Key>, events: seq<Event>): set<Key>
    decreases |events|
  {
    if events == [] then keys
    else
      var b := events[0].body;
      var more := if b.IntentAccepted? || b.InterestDeclared? then {Key(b.participantId, b.submissionId)} else {};
      RecordKeys(keys + more, events[1..])
  }

  function RecordInterest(commands: map<Key, string>, events: seq<Event>): map<Key, string>
    decreases |events|
  {
    if events == [] then commands
    else
      var b := events[0].body;
      var next :=
        if b.InterestDeclared? then commands[Key(b.participantId, b.submissionId) := b.canonicalCommand] else commands;
      RecordInterest(next, events[1..])
  }

  /** What a successful `commit` installs. */
  function Commit(session: Session, p: Prepared): Session {
    if p.noop then session
    else Session(Kernel(p.draft, RecordKeys(session.kernel.submissionKeys, p.events),
                        RecordInterest(session.kernel.interestCommands, p.events)),
                 p.backoff, session.retentionFloor)
  }

  function FirstScopes(o: Options, seats: seq<Seat>): seq<Scope> {
    if seats == [] then []
    else [Scope(seats[0], seats[0], false, Null, o.viewFor(o.initialState, seats[0]))] + FirstScopes(o, seats[1..])
  }

  function FirstBackoff(o: Options, scopes: seq<Scope>): map<ScopeKey, Backoff> {
    map s | s in scopes :: KeyOf(s) := Backoff(0, o.codec.patchBackoffTicks)
  }

  /** The constructor's checks that this model keeps. */
  predicate ValidOptions(o: Options) {
    && o.seats != [] && |Contents(o.seats)| == |o.seats|
    && o.maxCatchUpTicks >= 1 && o.checkpointInterval >= 1 && o.maxOpenCommitmentsPerSeat >= 1
    && (o.timeoutWindowTicks.Some? ==> o.timeoutWindowTicks.value >= 1 && o.cadence == Ticks && o.timeoutToAction.Some?)
    && o.codec.maxPatchBackoffTicks >= o.codec.patchBackoffTicks
    && WindowFor(o, o.initialState, 0).Some?
  }

  function Create(o: Options): Kernel
    requires ValidOptions(o)
  {
    Kernel(
      KernelState(o.initialState, WindowFor(o, o.initialState, 0).value, 0, 0, 0, 0, [], [], [], [],
        ViewsOf(o, o.initialState), map seat | seat in o.seats :: 0, map[], map[],
        FirstScopes(o, o.seats), map[], map[]),
      {}, map[])
  }

  function Open(o: Options): Session
    requires ValidOptions(o)
  {
    Session(Create(o), FirstBackoff(o, FirstScopes(o, o.seats)), 0)
  }

  /** A request that is prepared and committed, or refused without effect. */
  ghost function Step(o: Options, h: Lookup, session: Session, r: Request): Session {
    match Prepare(o, h, session, r)
    case Ok(p) => Commit(session, p)
    case Err(_) => session
  }

  ghost function Run(o: Options, h: Lookup, session: Session, requests: seq<Request>): Session
    decreases |requests|
  {
    if requests == [] then session else Run(o, h, Step(o, h, session, requests[0]), requests[1..])
  }
}
