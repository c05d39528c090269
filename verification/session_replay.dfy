/** Rebuilding a kernel from its event log (`rehydrate`, `validateTimeoutAudit` and
    `rehydrateKernelFromCheckpoint` in src/session.ts). None stands for any thrown error. */
module SessionReplay {
  import opened Wrappers
  import opened SessionTypes
  import opened SessionSpec

  // ---- The timeout audit ----

  /** The policy the audit applies: only a signed header carries one. */
  function AuditPolicy(o: Options): Option<nat> { if o.signed then o.timeoutWindowTicks else None }

  function LastSystemInput(inputs: seq<CanonicalInput>): Option<CanonicalInput>
    decreases |inputs|
  {
    if inputs == [] then None
    else if inputs[|inputs| - 1].submissionId.None? then Some(inputs[|inputs| - 1])
    else LastSystemInput(inputs[..|inputs| - 1])
  }

  /** `timeoutSystemInput` */
  function SystemInputOf(b: Body): Option<CanonicalInput>
    requires b.Resolution?
  {
    if b.systemInput.Some? then b.systemInput else LastSystemInput(b.inputs)
  }

  predicate NoticePosition(o: Options, b: Body)
    requires b.TimeoutNotice?
  {
    match AuditPolicy(o)
    case None => b.noticeTick == b.windowRef
    case Some(window) => b.hasPolicyRef && b.noticeTick == b.windowRef + window
  }

  /** The outcome recorded right after a timeout notice. */
  predicate NoticeOutcome(b: Body, revision: nat, outcome: Event)
    requires b.TimeoutNotice?
  {
    && outcome.transitionRevision == revision
    && (outcome.body.Rejected? || outcome.body.Resolution?)
    && (outcome.body.Rejected? ==> outcome.body.mismatch.tick == b.windowRef)
    && (outcome.body.Resolution? ==>
          && outcome.body.cause == TimedOut
          && outcome.body.tick == b.windowRef && outcome.body.cursor == b.windowRef
          && SystemInputOf(outcome.body).Some?
          && var input := SystemInputOf(outcome.body).value;
             input.participantId == b.timedOut
             && input.action.seat == b.timedOut)
  }

  predicate AuditAt(o: Options, events: seq<Event>, i: nat)
    requires i < |events|
  {
    var b := events[i].body;
    && (b.TimeoutNotice? ==>
          && b.timeoutId != "" && b.reason != ""
          && NoticePosition(o, b)
          && (b.timedOut.Some? ==> b.timedOut.value in o.seats)
          && i + 1 < |events|
          && NoticeOutcome(b, events[i].transitionRevision, events[i + 1]))
    && (b.Resolution? && b.cause == TimedOut ==>
          i > 0 && events[i - 1].body.TimeoutNotice?
          && events[i - 1].transitionRevision == events[i].transitionRevision)
  }

  /** `validateTimeoutAudit` */
  predicate TimeoutAudit(o: Options, events: seq<Event>) {
    forall i :: 0 <= i < |events| ==> AuditAt(o, events, i)
  }

  // ---- One event ----

  /** One input of a recorded resolution against the commitment books. */
  function ReplayInput(o: Options, tick: nat, books: Books, input: CanonicalInput): Option<Books> {
    if input.participantId.None? || input.participantId.value == "" then Some(books)
    else
      var seat := input.participantId.value;
      var a := input.action;
      if a.commit.Some? then
        var id := NextId(books.nextIds, seat);
        if a.commit.value.commitmentId != id then None
        else Some(Books(books.commitments[CommitmentKey(seat, id) := Commitment(a.commit.value, seat, tick, false)],
                        books.nextIds[seat := id + 1]))
      else if a.opening.Some? then
        var key := CommitmentKey(seat, a.opening.value.commitmentId);
        if key !in books.commitments || books.commitments[key].revealed then None
        else
          var c := books.commitments[key];
          if o.commitmentHash(BindingOf(c, seat), a.opening.value.salt,
            a.opening.value.payload) != Some(c.envelope.hash)
          then None
          else Some(books.(commitments := books.commitments[key := c.(revealed := true)]))
      else Some(books)
  }

  function ReplayInputs(o: Options, tick: nat, books: Books, inputs: seq<CanonicalInput>): Option<Books>
    decreases |inputs|
  {
    if inputs == [] then Some(books)
    else match ReplayInput(o, tick, books, inputs[0])
      case None => None
      case Some(next) => ReplayInputs(o, tick, next, inputs[1..])
  }

  function ReplayIntent(o: Options, k: Kernel, b: Body): Option<Kernel>
    requires b.IntentAccepted?
  {
    var live := k.live;
    var key := Key(b.participantId, b.submissionId);
    var s := Submission(GaosTicks1, o.sessionId, OpenTick(o, live.window), live.window.revision,
                        b.participantId, b.submissionId, b.command, b.seal);
    var action := o.toAction(b.command, Context(b.participantId, b.submissionId, b.revision, b.tick));
    match Collect(o, live.window, s)
    case Err(_) => None
    case Ok(w) =>
      if b.action != action then None
      else
        var receipt := Receipt(b.participantId, b.submissionId, b.revision, b.tick, Submitted(w), Awaiting(w),
                               b.revision < live.cursor);
        Some(Kernel(
          live.(window := w,
                receipts := SetReceipt(live.receipts,
                  ReceiptEntry(key, b.canonicalCommand, s.tickId, receipt, b.revision)),
                intentActions := live.intentActions[key := action]),
          k.submissionKeys + {key}, k.interestCommands))
  }

  ghost function ReplayInterest(o: Options, k: Kernel, b: Body): Option<Kernel>
    requires b.InterestDeclared?
  {
    var live := k.live;
    var key := Key(b.participantId, b.submissionId);
    var canonical := InterestText(o, b.scopeId, b.declaration);
    if o.narrowView.None? || b.participantId !in o.seats || !PortableId(b.scopeId) || b.cursor != live.cursor then None
    else if b.canonicalCommand != canonical || key in k.submissionKeys then None
    else match Declare(o, live, b.participantId, b.scopeId, b.declaration)
      case None => None
      case Some(scope) => Some(Kernel(
        live.(interestScopes := SetScope(live.interestScopes, scope)),
        k.submissionKeys + {key}, k.interestCommands[key := canonical]))
  }

  ghost function ReplayControl(o: Options, k: Kernel, revision: nat, b: Body): Option<Kernel>
    requires b.ControlTransition?
  {
    var live := k.live;
    var key := Key(b.participantId, b.controlId);
    if o.applyControl.None? || b.participantId !in o.seats || b.controlId == "" then None
    else if b.cursor != live.cursor || b.tick != live.tick || o.text(b.control) != b.canonicalControl then None
    else if key in live.controls then None
    else match ApplyControl(o, live, ControlInput(b.participantId, b.controlId, b.control))
      case None => None
      case Some(moved) => Some(k.(live := moved.(controls := live.controls[key :=
        ControlEntry(b.canonicalControl, ControlReceipt(b.participantId, b.controlId, revision, b.cursor, b.tick))])))
  }

  ghost function ReplayResolution(o: Options, k: Kernel, b: Body): Option<Kernel>
    requires b.Resolution?
  {
    match ReplayInputs(o, b.tick, BooksOf(k.live), b.inputs)
    case None => None
    case Some(books) =>
      match Resolve(o, WithBooks(k.live, books), b.inputs, b.cursor, b.tick)
      case None => None
      case Some(live) => Some(k.(live := live))
  }

  ghost function ReplayBody(o: Options, k: Kernel, revision: nat, b: Body): Option<Kernel> {
    match b
    case IntentAccepted(_, _, _, _, _, _, _, _) => ReplayIntent(o, k, b)
    case InterestDeclared(_, _, _, _, _, _, _, _) => ReplayInterest(o, k, b)
    case ControlTransition(_, _, _, _, _, _) => ReplayControl(o, k, revision, b)
    case Resolution(_, _, _, _, _, _, _) => ReplayResolution(o, k, b)
    case Rejected(m) =>
      var live := Decline(k.live, m);
      Some(k.(live := live.(rejectionHistory := live.rejectionHistory + [RejectionOf(revision, m)])))
    case Checkpoint(tick, digest) =>
      if tick != k.live.tick || digest != StateDigest(o, k.live) then None
      else Some(k.(live := k.live.(lastCheckpointTick := tick)))
    case TimeoutNotice(_, _, _, _, _, _) => Some(k)
    case Extension(_, _, _) => Some(k)
  }

  /** One iteration of the rehydration loop. */
  ghost function ReplayEvent(o: Options, k: Kernel, e: Event): Option<Kernel> {
    match ReplayBody(o, k, e.transitionRevision, e.body)
    case None => None
    case Some(next) => Some(next.(live := next.live.(
      transitionRevision := Max(next.live.transitionRevision, e.transitionRevision),
      events := next.live.events + [e])))
  }

  ghost function ReplayEvents(o: Options, k: Kernel, previous: nat, events: seq<Event>): Option<Kernel>
    decreases |events|
  {
    if events == [] then Some(k)
    else if events[0].transitionRevision < previous then None
    else match ReplayEvent(o, k, events[0])
      case None => None
      case Some(next) => ReplayEvents(o, next, events[0].transitionRevision, events[1..])
  }

  ghost function Replay(o: Options, k: Kernel, events: seq<Event>): Option<Kernel> {
    if TimeoutAudit(o, events) then ReplayEvents(o, k, 0, events) else None
  }

  /** `rehydrateKernel` */
  ghost function Rehydrate(o: Options, events: seq<Event>): Option<Kernel>
    requires ValidOptions(o)
  {
    Replay(o, Create(o), events)
  }
}
