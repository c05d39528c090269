/** Whole runs of the session kernel: rehydrating the log of any run rebuilds the kernel, and the
    timeout audit accepts it exactly when the session's timeout policy is one the audit knows. */
module SessionRuns {
  import opened CanonicalJson
  import opened Wrappers
  import opened SessionTypes
  import opened SessionSpec
  import opened SessionReplay
  import opened SessionRehydrate

  // ---- Logs ----

  function LastRevision(previous: nat, events: seq<Event>): nat {
    if events == [] then previous else events[|events| - 1].transitionRevision
  }

  lemma {:induction false} ReplayEventsAppend(o: Options, k: Kernel, previous: nat, a: seq<Event>, b: seq<Event>)
    ensures ReplayEvents(o, k, previous, a + b)
         == match ReplayEvents(o, k, previous, a)
            case None => None
            case Some(mid) => ReplayEvents(o, mid, LastRevision(previous, a), b)
    decreases |a|
  {
    hide ReplayEvent;
    if a == [] {
      assert a + b == b;
    } else {
      assert (a + b)[1..] == a[1..] + b;
      var next := ReplayEvent(o, k, a[0]);
      if a[0].transitionRevision >= previous && next.Some? {
        ReplayEventsAppend(o, next.value, a[0].transitionRevision, a[1..], b);
      }
    }
  }

  lemma {:induction false} NumberShape(o: Options, revision: nat, bodies: seq<Body>, index: nat)
    ensures var events := Number(o, revision, bodies, index);
      && |events| == |bodies|
      && forall i :: 0 <= i < |bodies| ==>
           events[i] == Event(EventId(o.sessionId, revision, index + i), revision, bodies[i])
    decreases |bodies|
  {
    if bodies != [] { NumberShape(o, revision, bodies[1..], index + 1); }
  }

  // ---- The audit ----

  /** The constructor enables a tick-bounded policy on any session, the audit only on signed ones. */
  predicate PolicyAgrees(o: Options) { o.timeoutWindowTicks.None? || o.signed }

  ghost predicate TimedOutOnce(events: seq<Event>) {
    exists i :: 0 <= i < |events| && events[i].body.TimeoutNotice?
  }

  /** The audit knows the session's policy, or has no timeout to judge. */
  ghost predicate Auditable(o: Options, events: seq<Event>) { PolicyAgrees(o) || !TimedOutOnce(events) }

  /** The windows and counters the audit relies on. */
  ghost predicate InStep(o: Options, live: KernelState) {
    && WindowSound(live.window)
    && live.tick == live.cursor == live.window.revision
    && forall p :: p in live.window.participants ==> p in o.seats
  }

  ghost predicate Quiet(bodies: seq<Body>) {
    forall i :: 0 <= i < |bodies| ==>
      !bodies[i].TimeoutNotice? && !(bodies[i].Resolution? && bodies[i].cause == TimedOut)
  }

  lemma QuietAudit(o: Options, revision: nat, bodies: seq<Body>)
    requires Quiet(bodies)
    ensures TimeoutAudit(o, Number(o, revision, bodies, 0))
  {
    NumberShape(o, revision, bodies, 0);
  }

  /** The recorded position of a notice, whatever the session's signing. */
  predicate NoticePlaced(o: Options, b: Body) {
    b.TimeoutNotice? ==>
      match o.timeoutWindowTicks
      case None => b.noticeTick == b.windowRef
      case Some(window) => b.hasPolicyRef && b.noticeTick == b.windowRef + window
  }

  ghost predicate NoticesPlaced(o: Options, events: seq<Event>) {
    forall i :: 0 <= i < |events| ==> NoticePlaced(o, events[i].body)
  }

  /** The two or three bodies of a timeout transition pass the audit on their own. */
  lemma TimeoutBodiesAudit(o: Options, revision: nat, notice: Body, second: Body, bodies: seq<Body>)
    requires |bodies| >= 2 && bodies[0] == notice && bodies[1] == second && Quiet(bodies[2..])
    requires notice.TimeoutNotice? && notice.timeoutId != "" && notice.reason != ""
    requires notice.timedOut.Some? ==> notice.timedOut.value in o.seats
    requires NoticePlaced(o, notice) && PolicyAgrees(o)
    requires NoticeOutcome(notice, revision, Event(EventId(o.sessionId, revision, 1), revision, second))
    ensures TimeoutAudit(o, Number(o, revision, bodies, 0))
  {
    NumberShape(o, revision, bodies, 0);
    var events := Number(o, revision, bodies, 0);
    forall i | 0 <= i < |events| ensures AuditAt(o, events, i) {
      if i >= 2 { assert bodies[i] == bodies[2..][i - 2]; }
    }
  }

  lemma AuditAppend(o: Options, a: seq<Event>, b: seq<Event>)
    requires TimeoutAudit(o, a) && TimeoutAudit(o, b)
    ensures TimeoutAudit(o, a + b)
  {
    forall i | 0 <= i < |a + b| ensures AuditAt(o, a + b, i) {
      if i < |a| {
        assert AuditAt(o, a, i);
      } else {
        assert AuditAt(o, b, i - |a|);
      }
    }
  }

  /** A notice placed by a policy the audit does not know always fails it. */
  lemma ForeignPolicyFails(o: Options, events: seq<Event>, i: nat)
    requires i < |events| && events[i].body.TimeoutNotice? && NoticePlaced(o, events[i].body)
    requires !PolicyAgrees(o) && o.timeoutWindowTicks.value >= 1
    ensures !TimeoutAudit(o, events)
  {
    assert !AuditAt(o, events, i);
  }

  lemma {:induction false} MismatchTick(o: Options, live: KernelState, books: Books, intents: seq<Intent>)
    ensures var m := MapIntents(o, live, books, intents);
      m.Mismatch? ==> m.mismatch.tick == live.tick
    decreases |intents|
  {
    if intents != [] {
      var first := MapOne(o, live, books, intents[0]);
      if first.One? { MismatchTick(o, live, first.books, intents[1..]); }
    }
  }

  lemma TimeoutOutcome(o: Options, live: KernelState, backoff: map<ScopeKey, Backoff>, input: CanonicalInput)
    ensures var r := ResolveOnce(o, live, backoff, TimedOut, [input]);
      r.Ok? ==>
        && (r.value.Declined? ==> r.value.mismatch.tick == live.tick)
        && (r.value.Settled? ==>
              && r.value.body.Resolution? && r.value.body.cause == TimedOut
              && r.value.body.tick == live.tick && r.value.body.cursor == live.cursor
              && r.value.body.systemInput == Some(input))
  {
    hide Resolve, Deltas, NextBackoff, MapIntents, Decline;
    MismatchTick(o, live, BooksOf(live), WindowIntents(live.window.participants, live.window.intents));
  }

  lemma TimeoutAccepted(o: Options, live: KernelState, t: TimeoutInput, forced: Option<Action>)
    ensures var a := TimeoutAction(o, live, t, forced);
      a.Ok? ==>
        && t.timeoutId != "" && t.reason != ""
        && (t.participantId.Some? ==> t.participantId.value in live.window.participants)
        && a.value.seat == t.participantId
        && (live.tick == live.cursor ==> NoticePlaced(o, NoticeFor(live, t)))
  {
  }

  lemma TimeoutAuditPasses(o: Options, session: Session, t: TimeoutInput, forced: Option<Action>)
    requires InStep(o, session.kernel.live)
    ensures var r := PrepareTimeout(o, session, t, forced);
      r.Ok? ==>
        && NoticesPlaced(o, r.value.events)
        && (Auditable(o, r.value.events) ==> TimeoutAudit(o, r.value.events))
  {
    hide ResolveOnce, TimeoutAction, Deltas, RejectionDeltas, CheckpointDue, StateDigest;
    var r := PrepareTimeout(o, session, t, forced);
    if r.Ok? {
      var live := session.kernel.live;
      var revision := live.transitionRevision + 1;
      TimeoutAccepted(o, live, t, forced);
      var a := TimeoutAction(o, live, t, forced).value;
      TimeoutOutcome(o, live, session.backoff, SystemInput(t, a));
      var resolved := ResolveOnce(o, live, session.backoff, TimedOut, [SystemInput(t, a)]).value;
      var notice := NoticeFor(live, t);
      var second := if resolved.Declined? then Rejected(resolved.mismatch) else resolved.body;
      var due := resolved.Declined? || CheckpointDue(o, resolved.draft, 1);
      var (_, bodies) := WithCheckpoint(o, resolved.draft, [notice, second], due);
      NumberShape(o, revision, bodies, 0);
      assert Quiet(bodies[2..]);
      assert r.value.events[0].body.TimeoutNotice?;
      if PolicyAgrees(o) { TimeoutBodiesAudit(o, revision, notice, second, bodies); }
    }
  }

  lemma {:induction false} CatchUpQuiet(o: Options, live: KernelState, backoff: map<ScopeKey, Backoff>, count: nat)
    requires WindowSound(live.window)
    ensures var r := CatchUp(o, live, backoff, count); r.Ok? ==> Quiet(r.value.bodies)
  {
    CatchUpReplays(o, Kernel(live, {}, map[]), backoff, count, 0);
  }

  lemma AdvanceAuditPasses(o: Options, session: Session, target: Option<int>)
    requires InStep(o, session.kernel.live)
    ensures var r := PrepareAdvance(o, session, target);
      r.Ok? ==> NoticesPlaced(o, r.value.events) && TimeoutAudit(o, r.value.events)
  {
    hide CatchUp, CheckpointDue, StateDigest;
    var r := PrepareAdvance(o, session, target);
    if r.Ok? {
      var live := session.kernel.live;
      var demand := DemandOf(o, live, target).value;
      CatchUpQuiet(o, live, session.backoff, demand.count);
      var c := CatchUp(o, live, session.backoff, demand.count).value;
      var due := CheckpointDue(o, c.draft, c.resolutions) || EndsRejected(c.bodies);
      var (_, bodies) := WithCheckpoint(o, c.draft, c.bodies, due);
      QuietAudit(o, r.value.next, bodies);
      NumberShape(o, r.value.next, bodies, 0);
    }
  }

  lemma PreparedAudit(o: Options, h: Lookup, session: Session, r: Request)
    requires InStep(o, session.kernel.live)
    ensures var p := Prepare(o, h, session, r);
      p.Ok? ==>
        && NoticesPlaced(o, p.value.events)
        && (Auditable(o, p.value.events) ==> TimeoutAudit(o, p.value.events))
  {
    hide PrepareAdvance, PrepareTimeout, ApplyControl, Deltas, Declare, Spent, ActionError, Collect, SubmissionError;
    match r
    case Advance(target) => AdvanceAuditPasses(o, session, target);
    case Timeout(t, forced) => TimeoutAuditPasses(o, session, t, forced);
    case _ =>
      OneEvent(o, session.kernel.live.transitionRevision + 1);
  }

  /** A transition with one body records one event. */
  lemma OneEvent(o: Options, revision: nat)
    ensures forall b: Body :: Number(o, revision, [b], 0) == [Event(EventId(o.sessionId, revision, 0), revision, b)]
  {
    forall b: Body ensures Number(o, revision, [b], 0) == [Event(EventId(o.sessionId, revision, 0), revision, b)] {
      assert [b][1..] == [];
    }
  }

  // ---- Staying in step ----

  lemma ResolveMoves(o: Options, live: KernelState, inputs: seq<CanonicalInput>, cursor: nat, tick: nat)
    ensures var r := Resolve(o, live, inputs, cursor, tick);
      r.Some? ==>
        && WindowFor(o, o.advance(live.reducerState, Actions(inputs)), cursor + 1) == Some(r.value.window)
        && r.value.cursor == cursor + 1 && r.value.tick == tick + 1
  {
    hide RefreshScopes, Expire, Fresh, WindowFor;
  }

  lemma ResolveInStep(o: Options, live: KernelState, backoff: map<ScopeKey, Backoff>, cause: Cause,
      forced: seq<CanonicalInput>)
    requires InStep(o, live)
    ensures var r := ResolveOnce(o, live, backoff, cause, forced);
      r.Ok? ==> InStep(o, r.value.draft)
  {
    hide MapIntents, Resolve, Deltas, NextBackoff, WindowFor;
    var intents := WindowIntents(live.window.participants, live.window.intents);
    var m := MapIntents(o, live, BooksOf(live), intents);
    if m.Mapped? {
      WindowForSound(o, o.advance(live.reducerState, Actions(m.inputs + forced)), live.cursor + 1);
      ResolveMoves(o, WithBooks(live, m.books), m.inputs + forced, live.cursor, live.tick);
    }
  }

  lemma {:induction false} CatchUpInStep(o: Options, live: KernelState, backoff: map<ScopeKey, Backoff>, count: nat)
    requires InStep(o, live)
    ensures var r := CatchUp(o, live, backoff, count); r.Ok? ==> InStep(o, r.value.draft)
    decreases count
  {
    hide ResolveOnce, Halts, InStep, RejectionDeltas;
    if count > 0 {
      ResolveInStep(o, live, backoff, CauseOf(o, live.window), []);
      var r := ResolveOnce(o, live, backoff, CauseOf(o, live.window), []);
      if r.Ok? && r.value.Settled? { CatchUpInStep(o, r.value.draft, r.value.backoff, count - 1); }
    }
  }

  lemma AdvanceInStep(o: Options, session: Session, target: Option<int>)
    requires InStep(o, session.kernel.live)
    ensures var p := PrepareAdvance(o, session, target);
      p.Ok? ==> InStep(o, Commit(session, p.value).kernel.live)
  {
    hide CatchUp, CheckpointDue, StateDigest;
    var p := PrepareAdvance(o, session, target);
    if p.Ok? {
      var live := session.kernel.live;
      CatchUpInStep(o, live, session.backoff, DemandOf(o, live, target).value.count);
    }
  }

  lemma TimeoutInStep(o: Options, session: Session, t: TimeoutInput, forced: Option<Action>)
    requires InStep(o, session.kernel.live)
    ensures var p := PrepareTimeout(o, session, t, forced);
      p.Ok? ==> InStep(o, Commit(session, p.value).kernel.live)
  {
    hide ResolveOnce, TimeoutAction, Deltas, RejectionDeltas, CheckpointDue, StateDigest;
    var live := session.kernel.live;
    var a := TimeoutAction(o, live, t, forced);
    if a.Ok? { ResolveInStep(o, live, session.backoff, TimedOut, [SystemInput(t, a.value)]); }
  }

  lemma PreparedInStep(o: Options, h: Lookup, session: Session, r: Request)
    requires InStep(o, session.kernel.live)
    ensures var p := Prepare(o, h, session, r);
      p.Ok? ==> InStep(o, Commit(session, p.value).kernel.live)
  {
    hide PrepareIngest, PrepareAdvance, PrepareTimeout, PrepareExtension, PrepareControl, PrepareInterest, InStep,
         Commit;
    match r
    case Ingest(s) => IngestInStep(o, h, session, s);
    case Advance(target) => AdvanceInStep(o, session, target);
    case Timeout(t, forced) => TimeoutInStep(o, session, t, forced);
    case Control(c) => ControlInStep(o, h, session, c);
    case Interest(s) => InterestInStep(o, h, session, s);
    case Extend(lane, record) => ExtendInStep(o, session, lane, record);
  }

  lemma IngestInStep(o: Options, h: Lookup, session: Session, s: Submission)
    requires InStep(o, session.kernel.live)
    ensures var p := PrepareIngest(o, h, session, s); p.Ok? ==> InStep(o, Commit(session, p.value).kernel.live)
  {
    hide Spent, ActionError, SetReceipt, RecordKeys, RecordInterest, Number, Submitted, Awaiting;
  }

  lemma ExtendInStep(o: Options, session: Session, lane: string, record: Json)
    requires InStep(o, session.kernel.live)
    ensures var p := PrepareExtension(o, session, lane, record); p.Ok? ==>
      InStep(o, Commit(session, p.value).kernel.live)
  {
    hide RecordKeys, RecordInterest, Number;
  }

  lemma ControlInStep(o: Options, h: Lookup, session: Session, c: ControlInput)
    requires InStep(o, session.kernel.live)
    ensures var p := PrepareControl(o, h, session, c); p.Ok? ==> InStep(o, Commit(session, p.value).kernel.live)
  {
    hide RefreshScopes, Deltas, NextBackoff, RecordKeys, RecordInterest, Number, WindowFor;
  }

  lemma InterestInStep(o: Options, h: Lookup, session: Session, s: InterestSubmission)
    requires InStep(o, session.kernel.live)
    ensures var p := PrepareInterest(o, h, session, s); p.Ok? ==> InStep(o, Commit(session, p.value).kernel.live)
  {
    hide Declare, SetScope, InterestText, RecordKeys, RecordInterest, Number;
  }

  // ---- Runs ----

  /** What every committed transition keeps. */
  ghost predicate Faithful(o: Options, session: Session)
    requires ValidOptions(o)
  {
    var live := session.kernel.live;
    && InStep(o, live)
    && LastRevision(0, live.events) <= live.transitionRevision
    && ReplayEvents(o, Create(o), 0, live.events) == Some(session.kernel)
    && NoticesPlaced(o, live.events)
    && (Auditable(o, live.events) ==> TimeoutAudit(o, live.events))
  }

  lemma OpenFaithful(o: Options)
    requires ValidOptions(o)
    ensures Faithful(o, Open(o))
  {
    WindowForSound(o, o.initialState, 0);
  }

  lemma CommitLog(o: Options, h: Lookup, session: Session, r: Request, previous: nat)
    requires WindowSound(session.kernel.live.window) && previous <= session.kernel.live.transitionRevision
    requires Prepare(o, h, session, r).Ok?
    ensures var p := Prepare(o, h, session, r).value;
      var after := Commit(session, p).kernel.live;
      && after.events == session.kernel.live.events + p.events
      && LastRevision(previous, after.events) <= after.transitionRevision
    requires LastRevision(previous, session.kernel.live.events) <= session.kernel.live.transitionRevision
  {
    hide PrepareIngest, PrepareAdvance, PrepareTimeout, PrepareExtension, PrepareControl, PrepareInterest, ReplayEvents;
    var p := Prepare(o, h, session, r).value;
    PreparedReplays(o, h, session, r, previous);
    PreparedFinish(o, h, session, r);
    if p.noop {
      assert session.kernel.live.events + [] == session.kernel.live.events;
    } else {
      var after := Commit(session, p).kernel.live;
      assert after.events[|after.events| - 1] == p.events[|p.events| - 1];
    }
  }

  /** Every prepared transition extends the log it was prepared from. */
  lemma PreparedFinish(o: Options, h: Lookup, session: Session, r: Request)
    requires WindowSound(session.kernel.live.window)
    ensures var p := Prepare(o, h, session, r);
      p.Ok? ==>
        && p.value.base == session.kernel.live.transitionRevision
        && p.value.next == (if p.value.noop then p.value.base else p.value.base + 1)
        && (!p.value.noop ==>
              && p.value.draft.transitionRevision == p.value.next
              && p.value.draft.events == session.kernel.live.events + p.value.events)
        && (forall i :: 0 <= i < |p.value.events| ==>
              p.value.events[i].transitionRevision == p.value.next
              && p.value.events[i].eventId == EventId(o.sessionId, p.value.next, i))
  {
    hide PrepareAdvance, PrepareTimeout, ApplyControl, Deltas, NextBackoff, Declare, Spent, ActionError, Collect,
         SubmissionError;
    match r
    case Advance(target) => AdvanceFinish(o, session, target);
    case Timeout(t, forced) => TimeoutFinish(o, session, t, forced);
    case Control(c) =>
      if o.applyControl.Some? { ControlKeeps(o, session.kernel.live, c); }
      SmallFinish(o, h, session, r);
    case _ => SmallFinish(o, h, session, r);
  }

  lemma SmallFinish(o: Options, h: Lookup, session: Session, r: Request)
    requires !r.Advance? && !r.Timeout?
    ensures var p := Prepare(o, h, session, r);
      p.Ok? ==> forall i :: 0 <= i < |p.value.events| ==>
        p.value.events[i].transitionRevision == p.value.next
        && p.value.events[i].eventId == EventId(o.sessionId, p.value.next, i)
  {
    hide ApplyControl, Deltas, NextBackoff, Declare, Spent, ActionError, Collect, SubmissionError, Number, SetReceipt,
         InterestText, FindReceipt, WindowFor, Rejections;
    OneEvent(o, session.kernel.live.transitionRevision + 1);
    NumberShape(o, session.kernel.live.transitionRevision, [], 0);
  }

  lemma AdvanceFinish(o: Options, session: Session, target: Option<int>)
    requires WindowSound(session.kernel.live.window)
    ensures var p := PrepareAdvance(o, session, target);
      p.Ok? ==>
        && p.value.base == session.kernel.live.transitionRevision
        && p.value.next == (if p.value.noop then p.value.base else p.value.base + 1)
        && (!p.value.noop ==>
              && p.value.draft.transitionRevision == p.value.next
              && p.value.draft.events == session.kernel.live.events + p.value.events)
        && (forall i :: 0 <= i < |p.value.events| ==>
              p.value.events[i].transitionRevision == p.value.next
              && p.value.events[i].eventId == EventId(o.sessionId, p.value.next, i))
  {
    hide CatchUp, CheckpointDue, StateDigest;
    var p := PrepareAdvance(o, session, target);
    if p.Ok? {
      var k := session.kernel;
      var demand := DemandOf(o, k.live, target).value;
      CatchUpReplays(o, k, session.backoff, demand.count, 0);
      var c := CatchUp(o, k.live, session.backoff, demand.count).value;
      var due := CheckpointDue(o, c.draft, c.resolutions) || EndsRejected(c.bodies);
      var (_, bodies) := WithCheckpoint(o, c.draft, c.bodies, due);
      NumberShape(o, p.value.next, bodies, 0);
    }
  }

  lemma TimeoutFinish(o: Options, session: Session, t: TimeoutInput, forced: Option<Action>)
    requires WindowSound(session.kernel.live.window)
    ensures var p := PrepareTimeout(o, session, t, forced);
      p.Ok? ==>
        && p.value.base == session.kernel.live.transitionRevision
        && p.value.next == p.value.base + 1 && !p.value.noop
        && p.value.draft.transitionRevision == p.value.next
        && p.value.draft.events == session.kernel.live.events + p.value.events
        && (forall i :: 0 <= i < |p.value.events| ==>
              p.value.events[i].transitionRevision == p.value.next
              && p.value.events[i].eventId == EventId(o.sessionId, p.value.next, i))
  {
    hide ResolveOnce, TimeoutAction, Deltas, RejectionDeltas, CheckpointDue, StateDigest, ReplayBody, Number, Inert,
         Rejections;
    var p := PrepareTimeout(o, session, t, forced);
    if p.Ok? {
      var k := session.kernel;
      var a := TimeoutAction(o, k.live, t, forced).value;
      TimeoutInert(o, k.live, t, forced);
      SettledReplays(o, k, session.backoff, TimedOut, [SystemInput(t, a)], 0);
      DeclinedReplays(o, k, session.backoff, TimedOut, [SystemInput(t, a)], 0);
      var resolved := ResolveOnce(o, k.live, session.backoff, TimedOut, [SystemInput(t, a)]).value;
      var second := if resolved.Declined? then Rejected(resolved.mismatch) else resolved.body;
      var due := resolved.Declined? || CheckpointDue(o, resolved.draft, 1);
      var (_, bodies) := WithCheckpoint(o, resolved.draft, [NoticeFor(k.live, t), second], due);
      NumberShape(o, p.value.next, bodies, 0);
    }
  }

  lemma StepFaithful(o: Options, h: Lookup, session: Session, r: Request)
    requires ValidOptions(o) && Faithful(o, session)
    ensures Faithful(o, Step(o, h, session, r))
  {
    hide Prepare, ReplayEvents, InStep, TimeoutAudit, NoticePlaced, Commit;
    var p := Prepare(o, h, session, r);
    if p.Ok? {
      var live := session.kernel.live;
      var last := LastRevision(0, live.events);
      InStepSound(o, live);
      PreparedInStep(o, h, session, r);
      PreparedAudit(o, h, session, r);
      PreparedReplays(o, h, session, r, last);
      CommitLog(o, h, session, r, 0);
      if p.value.noop {
        NoopCommit(session, p.value);
      } else {
        ReplayEventsAppend(o, Create(o), 0, live.events, p.value.events);
        AuditableParts(o, live.events, p.value.events);
        if Auditable(o, live.events + p.value.events) { AuditAppend(o, live.events, p.value.events); }
      }
    }
  }

  lemma AuditableParts(o: Options, a: seq<Event>, b: seq<Event>)
    ensures Auditable(o, a + b) ==> Auditable(o, a) && Auditable(o, b)
  {
    if i :| 0 <= i < |a| && a[i].body.TimeoutNotice? { assert (a + b)[i].body.TimeoutNotice?; }
    if i :| 0 <= i < |b| && b[i].body.TimeoutNotice? { assert (a + b)[|a| + i].body.TimeoutNotice?; }
  }

  lemma NoopCommit(session: Session, p: Prepared)
    requires p.noop
    ensures Commit(session, p) == session
  {
  }

  lemma InStepSound(o: Options, live: KernelState)
    requires InStep(o, live)
    ensures WindowSound(live.window)
  {
  }

  lemma {:induction false} RunFaithful(o: Options, h: Lookup, session: Session, requests: seq<Request>)
    requires ValidOptions(o) && Faithful(o, session)
    ensures Faithful(o, Run(o, h, session, requests))
    decreases |requests|
  {
    hide Faithful, Step;
    if requests != [] {
      StepFaithful(o, h, session, requests[0]);
      RunFaithful(o, h, Step(o, h, session, requests[0]), requests[1..]);
    }
  }

  /** For every run: the rehydration of the log is accepted exactly when the session carries a
      timeout policy the audit knows or never timed out, and it then rebuilds the kernel: reducer
      state, window, cursor, tick, revision, views, view revisions, scopes, receipts, tombstones,
      commitments, controls, pending actions, log and permanent ids. */
  lemma RehydrationAgrees(o: Options, h: Lookup, requests: seq<Request>)
    requires ValidOptions(o)
    ensures var k := Run(o, h, Open(o), requests).kernel;
      var rebuilt := Rehydrate(o, k.live.events);
      && (rebuilt.Some? <==> Auditable(o, k.live.events))
      && (rebuilt.Some? ==> rebuilt.value == k)
  {
    hide ReplayEvents, Run;
    OpenFaithful(o);
    RunFaithful(o, h, Open(o), requests);
    var k := Run(o, h, Open(o), requests).kernel;
    var events := k.live.events;
    if !Auditable(o, events) {
      var i :| 0 <= i < |events| && events[i].body.TimeoutNotice?;
      ForeignPolicyFails(o, events, i);
    }
  }
}
