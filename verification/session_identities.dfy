/** Identities over a whole run (src/session.ts): a submission is accepted once, and every scope
    belongs to a seat. */
module SessionIdentities {
  import opened Wrappers
  import opened SessionTypes
  import opened SessionSpec
  import opened SessionReplay
  import opened SessionRehydrate
  import opened SessionRuns
  import opened SessionDeltas
  import opened SessionDrafts

  predicate Accepts(b: Body) { b.IntentAccepted? || b.InterestDeclared? }

  function AcceptedKey(b: Body): Key
    requires Accepts(b)
  {
    Key(b.participantId, b.submissionId)
  }

  /** The permanent ids cover the log, in which no id is accepted twice. */
  ghost predicate Identified(session: Session) {
    var events := session.kernel.live.events;
    && (forall i :: 0 <= i < |events| && Accepts(events[i].body) ==>
          AcceptedKey(events[i].body) in session.kernel.submissionKeys)
    && (forall i, j :: 0 <= i < j < |events| && Accepts(events[i].body) && Accepts(events[j].body) ==>
          AcceptedKey(events[i].body) != AcceptedKey(events[j].body))
  }

  lemma {:induction false} RecordsAll(keys: set<Key>, events: seq<Event>)
    ensures keys <= RecordKeys(keys, events)
    ensures forall i :: 0 <= i < |events| && Accepts(events[i].body) ==>
      AcceptedKey(events[i].body) in RecordKeys(keys, events)
    decreases |events|
  {
    if events != [] {
      var b := events[0].body;
      var more := if Accepts(b) then {AcceptedKey(b)} else {};
      RecordsAll(keys + more, events[1..]);
      forall i | 0 <= i < |events| && Accepts(events[i].body)
        ensures AcceptedKey(events[i].body) in RecordKeys(keys, events)
      {
        if i > 0 { assert events[i] == events[1..][i - 1]; }
      }
    }
  }

  /** A transition accepts nothing, or one id that was never used before. */
  ghost predicate AcceptsFresh(session: Session, p: Prepared) {
    !p.noop ==>
      || (forall i :: 0 <= i < |p.events| ==> !Accepts(p.events[i].body))
      || (|p.events| == 1 && Accepts(p.events[0].body)
          && AcceptedKey(p.events[0].body) !in session.kernel.submissionKeys)
  }

  lemma AdvanceFresh(o: Options, session: Session, target: Option<int>)
    requires WindowSound(session.kernel.live.window)
    ensures var p := PrepareAdvance(o, session, target); p.Ok? ==> AcceptsFresh(session, p.value)
  {
    hide CatchUp, CheckpointDue, StateDigest, DemandOf, ReplayBodies, Rejections, Number, WindowSound;
    var p := PrepareAdvance(o, session, target);
    if p.Ok? {
      var k := session.kernel;
      var demand := DemandOf(o, k.live, target).value;
      CatchUpReplays(o, k, session.backoff, demand.count, 0);
      var c := CatchUp(o, k.live, session.backoff, demand.count).value;
      var due := CheckpointDue(o, c.draft, c.resolutions) || EndsRejected(c.bodies);
      var (_, bodies) := WithCheckpoint(o, c.draft, c.bodies, due);
      NumberShape(o, p.value.next, bodies, 0);
    }
  }

  lemma TimeoutFresh(o: Options, session: Session, t: TimeoutInput, forced: Option<Action>)
    requires WindowSound(session.kernel.live.window)
    ensures var p := PrepareTimeout(o, session, t, forced); p.Ok? ==> AcceptsFresh(session, p.value)
  {
    hide ResolveOnce, TimeoutAction, Deltas, RejectionDeltas, CheckpointDue, StateDigest, ReplayBody, Rejections,
         Number;
    var p := PrepareTimeout(o, session, t, forced);
    if p.Ok? {
      var k := session.kernel;
      var a := TimeoutAction(o, k.live, t, forced).value;
      TimeoutInert(o, k.live, t, forced);
      SettledReplays(o, k, session.backoff, TimedOut, [SystemInput(t, a)], 0);
      var resolved := ResolveOnce(o, k.live, session.backoff, TimedOut, [SystemInput(t, a)]).value;
      var second := if resolved.Declined? then Rejected(resolved.mismatch) else resolved.body;
      var due := resolved.Declined? || CheckpointDue(o, resolved.draft, 1);
      var (_, bodies) := WithCheckpoint(o, resolved.draft, [NoticeFor(k.live, t), second], due);
      NumberShape(o, p.value.next, bodies, 0);
    }
  }

  lemma PreparedFresh(o: Options, h: Lookup, session: Session, r: Request)
    requires WindowSound(session.kernel.live.window)
    ensures var p := Prepare(o, h, session, r); p.Ok? ==> AcceptsFresh(session, p.value)
  {
    hide PrepareAdvance, PrepareTimeout, ApplyControl, Deltas, NextBackoff, Declare, ActionError, Collect,
         SubmissionError, Number;
    match r
    case Advance(target) => AdvanceFresh(o, session, target);
    case Timeout(t, forced) => TimeoutFresh(o, session, t, forced);
    case _ => OneEvent(o, session.kernel.live.transitionRevision + 1);
  }

  lemma StepIdentified(o: Options, h: Lookup, session: Session, r: Request)
    requires InStep(o, session.kernel.live) && Identified(session)
    ensures InStep(o, Step(o, h, session, r).kernel.live) && Identified(Step(o, h, session, r))
  {
    hide Prepare, InStep, RecordKeys, RecordInterest;
    var p := Prepare(o, h, session, r);
    if p.Ok? {
      InStepSound(o, session.kernel.live);
      PreparedInStep(o, h, session, r);
      PreparedFresh(o, h, session, r);
      PreparedFinish(o, h, session, r);
      if !p.value.noop {
        RecordsAll(session.kernel.submissionKeys, p.value.events);
        var before, after := session.kernel.live.events, Commit(session, p.value).kernel.live.events;
        assert after == before + p.value.events;
        forall i, j | 0 <= i < j < |after| && Accepts(after[i].body) && Accepts(after[j].body)
          ensures AcceptedKey(after[i].body) != AcceptedKey(after[j].body)
        {
          assert i < |before|;
          if j >= |before| { assert after[j] == p.value.events[j - |before|]; }
        }
      }
    }
  }

  lemma {:induction false} RunIdentified(o: Options, h: Lookup, session: Session, requests: seq<Request>)
    requires InStep(o, session.kernel.live) && Identified(session)
    ensures Identified(Run(o, h, session, requests))
    decreases |requests|
  {
    hide Step, Identified, InStep;
    if requests != [] {
      StepIdentified(o, h, session, requests[0]);
      RunIdentified(o, h, Step(o, h, session, requests[0]), requests[1..]);
    }
  }

  /** In the log of any run no participant's submission id is accepted twice, as a command or as an
      interest, however often it was retried. */
  lemma AcceptedOnce(o: Options, h: Lookup, requests: seq<Request>, i: nat, j: nat)
    requires ValidOptions(o)
    requires var events := Run(o, h, Open(o), requests).kernel.live.events;
      i < j < |events| && Accepts(events[i].body) && Accepts(events[j].body)
    ensures var events := Run(o, h, Open(o), requests).kernel.live.events;
      AcceptedKey(events[i].body) != AcceptedKey(events[j].body)
  {
    hide Run, WindowFor;
    WindowForSound(o, o.initialState, 0);
    RunIdentified(o, h, Open(o), requests);
  }

  // ---- Scopes ----

  lemma {:induction false} CatchUpSeated(o: Options, live: KernelState, backoff: map<ScopeKey, Backoff>, count: nat)
    requires Seated(o, live.interestScopes)
    ensures var r := CatchUp(o, live, backoff, count); r.Ok? ==> Seated(o, r.value.draft.interestScopes)
    decreases count
  {
    hide ResolveOnce, Seated, Halts, RejectionDeltas;
    if count > 0 {
      ResolveOnceSeated(o, live, backoff, CauseOf(o, live.window), []);
      var r := ResolveOnce(o, live, backoff, CauseOf(o, live.window), []);
      if r.Ok? && r.value.Settled? { CatchUpSeated(o, r.value.draft, r.value.backoff, count - 1); }
    }
  }

  lemma AdvanceSeated(o: Options, session: Session, target: Option<int>)
    requires Seated(o, session.kernel.live.interestScopes)
    ensures var p := PrepareAdvance(o, session, target);
      p.Ok? ==> Seated(o, Commit(session, p.value).kernel.live.interestScopes)
  {
    hide CatchUp, CheckpointDue, StateDigest, Seated, Number, RecordKeys, RecordInterest;
    var live := session.kernel.live;
    var demand := DemandOf(o, live, target);
    if demand.Ok? { CatchUpSeated(o, live, session.backoff, demand.value.count); }
  }

  lemma TimeoutSeated(o: Options, session: Session, t: TimeoutInput, forced: Option<Action>)
    requires Seated(o, session.kernel.live.interestScopes)
    ensures var p := PrepareTimeout(o, session, t, forced);
      p.Ok? ==> Seated(o, Commit(session, p.value).kernel.live.interestScopes)
  {
    hide ResolveOnce, TimeoutAction, CheckpointDue, StateDigest, Seated, RejectionDeltas, Number, RecordKeys,
         RecordInterest;
    var live := session.kernel.live;
    var a := TimeoutAction(o, live, t, forced);
    if a.Ok? { ResolveOnceSeated(o, live, session.backoff, TimedOut, [SystemInput(t, a.value)]); }
  }

  lemma ControlSeated(o: Options, h: Lookup, session: Session, c: ControlInput)
    requires Seated(o, session.kernel.live.interestScopes)
    ensures var p := PrepareControl(o, h, session, c);
      p.Ok? ==> Seated(o, Commit(session, p.value).kernel.live.interestScopes)
  {
    hide Refresh, WindowFor, Deltas, NextBackoff, Seated, Number, RecordKeys, RecordInterest;
    var live := session.kernel.live;
    if o.applyControl.Some? {
      var state := (o.applyControl.value)(live.reducerState, c.control,
                     Context(c.participantId, c.controlId, live.cursor, live.tick));
      RefreshParallel(o, live, state, live.cursor, live.tick);
    }
  }

  lemma PreparedSeated(o: Options, h: Lookup, session: Session, r: Request)
    requires Seated(o, session.kernel.live.interestScopes)
    ensures var p := Prepare(o, h, session, r);
      p.Ok? ==> Seated(o, Commit(session, p.value).kernel.live.interestScopes)
  {
    hide PrepareIngest, PrepareAdvance, PrepareTimeout, PrepareExtension, PrepareControl, PrepareInterest, Seated,
         Commit;
    match r
    case Advance(target) => AdvanceSeated(o, session, target);
    case Timeout(t, forced) => TimeoutSeated(o, session, t, forced);
    case Control(c) => ControlSeated(o, h, session, c);
    case Interest(s) => InterestSeated(o, h, session, s);
    case _ => QuietSeated(o, h, session, r);
  }

  lemma QuietSeated(o: Options, h: Lookup, session: Session, r: Request)
    requires r.Ingest? || r.Extend?
    ensures var p := Prepare(o, h, session, r);
      p.Ok? ==> Commit(session, p.value).kernel.live.interestScopes == session.kernel.live.interestScopes
  {
    hide Spent, ActionError, Collect, SubmissionError, Number, RecordKeys, RecordInterest;
  }

  lemma InterestSeated(o: Options, h: Lookup, session: Session, s: InterestSubmission)
    requires Seated(o, session.kernel.live.interestScopes)
    ensures var p := PrepareInterest(o, h, session, s);
      p.Ok? ==> Seated(o, Commit(session, p.value).kernel.live.interestScopes)
  {
    hide ScopedView, InterestText, Number, RecordKeys, RecordInterest, Seated;
    var p := PrepareInterest(o, h, session, s);
    if p.Ok? && !p.value.noop {
      var scope := Declare(o, session.kernel.live, s.participantId, s.scopeId, s.declaration).value;
      DeclareCarries(o, session.kernel.live.interestScopes, scope, p.value.deltas);
    }
  }
}
