/** Retries of submissions and controls over whole runs (src/session.ts): what was accepted once is
    never executed again, and a retry gets the original answer for as long as its receipt is kept. */
module SessionRetries {
  import opened CodePoints
  import opened Wrappers
  import opened SessionTypes
  import opened SessionSpec
  import opened SessionRuns
  import opened SessionAlike
  import opened SessionCheckpoint
  import opened SessionIdentities

  // ---- Receipts ----

  lemma {:induction false} FindIn(entries: seq<ReceiptEntry>, key: Key)
    ensures FindReceipt(entries, key).Some? <==> exists i :: 0 <= i < |entries| && entries[i].key == key
    ensures FindReceipt(entries, key).Some? ==>
      FindReceipt(entries, key).value in entries && FindReceipt(entries, key).value.key == key
  {
    if entries != [] {
      FindIn(entries[1..], key);
      if i :| 0 <= i < |entries| && entries[i].key == key {
        if i > 0 { assert entries[1..][i - 1].key == key; }
      }
    }
  }

  lemma {:induction false} FindAfterSet(entries: seq<ReceiptEntry>, entry: ReceiptEntry, key: Key)
    ensures FindReceipt(SetReceipt(entries, entry), key) == if key == entry.key then Some(entry)
      else FindReceipt(entries, key)
  {
    if entries != [] { FindAfterSet(entries[1..], entry, key); }
  }

  lemma {:induction false} FindAfterRemove(entries: seq<ReceiptEntry>, gone: Key, key: Key)
    ensures FindReceipt(RemoveReceipt(entries, gone), key) == if key == gone then None else FindReceipt(entries, key)
  {
    if entries != [] {
      FindAfterRemove(entries[1..], gone, key);
      assert ([entries[0]] + RemoveReceipt(entries[1..], gone))[1..] == RemoveReceipt(entries[1..], gone);
      assert [] + RemoveReceipt(entries[1..], gone) == RemoveReceipt(entries[1..], gone);
    }
  }

  /** Eviction keeps exactly the receipts within retention. */
  lemma {:induction false} FindAfterEvict(entries: seq<ReceiptEntry>, oldest: int, key: Key)
    requires UniqueReceipts(entries)
    ensures var before, after := FindReceipt(entries, key), FindReceipt(Fresh(entries, oldest), key);
      after == if before.Some? && before.value.cursor >= oldest then before else None
  {
    if entries != [] {
      FindAfterEvict(entries[1..], oldest, key);
      assert ([entries[0]] + Fresh(entries[1..], oldest))[1..] == Fresh(entries[1..], oldest);
      assert [] + Fresh(entries[1..], oldest) == Fresh(entries[1..], oldest);
      if entries[0].key == key { FindIn(entries[1..], key); }
    }
  }

  /** Receipts stay as they were or go, and none comes. */
  ghost predicate Fades(before: seq<ReceiptEntry>, after: seq<ReceiptEntry>) {
    && UniqueReceipts(after)
    && forall key :: FindReceipt(after, key) == FindReceipt(before, key) || FindReceipt(after, key).None?
  }

  lemma FadesThen(a: seq<ReceiptEntry>, b: seq<ReceiptEntry>, c: seq<ReceiptEntry>)
    requires Fades(a, b) && Fades(b, c)
    ensures Fades(a, c)
  {
  }

  lemma ResolveFades(o: Options, live: KernelState, inputs: seq<CanonicalInput>, cursor: nat, tick: nat)
    requires UniqueReceipts(live.receipts)
    ensures var r := Resolve(o, live, inputs, cursor, tick); r.Some? ==> Fades(live.receipts, r.value.receipts)
  {
    hide RefreshScopes, WindowFor, Expire, FindReceipt, Fresh;
    var oldest := cursor + 1 - o.receiptRetention;
    FreshBag(live.receipts, oldest);
    forall key ensures FindReceipt(Fresh(live.receipts, oldest), key) == FindReceipt(live.receipts, key)
                       || FindReceipt(Fresh(live.receipts, oldest), key).None?
    {
      FindAfterEvict(live.receipts, oldest, key);
    }
  }

  lemma ResolveOnceFades(o: Options, live: KernelState, backoff: map<ScopeKey, Backoff>, cause: Cause,
      forced: seq<CanonicalInput>)
    requires UniqueReceipts(live.receipts)
    ensures var r := ResolveOnce(o, live, backoff, cause, forced); r.Ok? ==>
      Fades(live.receipts, r.value.draft.receipts)
  {
    hide Resolve, MapIntents, Deltas, NextBackoff, RemoveReceipt, FindReceipt, WindowIntents;
    var m := MapIntents(o, live, BooksOf(live), WindowIntents(live.window.participants, live.window.intents));
    if m.Mapped? {
      ResolveFades(o, WithBooks(live, m.books), m.inputs + forced, live.cursor, live.tick);
    } else if m.Mismatch? {
      var gone := Key(m.mismatch.participantId, m.mismatch.submissionId);
      RemoveBag(live.receipts, gone);
      forall key ensures FindReceipt(RemoveReceipt(live.receipts, gone), key) == FindReceipt(live.receipts, key)
                         || FindReceipt(RemoveReceipt(live.receipts, gone), key).None?
      {
        FindAfterRemove(live.receipts, gone, key);
      }
    }
  }

  lemma {:induction false} CatchUpFades(o: Options, live: KernelState, backoff: map<ScopeKey, Backoff>, count: nat)
    requires UniqueReceipts(live.receipts)
    ensures var r := CatchUp(o, live, backoff, count); r.Ok? ==> Fades(live.receipts, r.value.draft.receipts)
    decreases count
  {
    hide ResolveOnce, Halts, RejectionDeltas, FindReceipt;
    if count > 0 {
      ResolveOnceFades(o, live, backoff, CauseOf(o, live.window), []);
      var r := ResolveOnce(o, live, backoff, CauseOf(o, live.window), []);
      if r.Ok? && r.value.Settled? {
        CatchUpFades(o, r.value.draft, r.value.backoff, count - 1);
        var rest := CatchUp(o, r.value.draft, r.value.backoff, count - 1);
        if rest.Ok? { FadesThen(live.receipts, r.value.draft.receipts, rest.value.draft.receipts); }
      }
    }
  }

  /** One accepted id over one more request: its receipt stays or goes, and it stays accepted. */
  lemma StepReceipt(o: Options, h: Lookup, session: Session, r: Request, key: Key)
    requires UniqueReceipts(session.kernel.live.receipts) && key in session.kernel.submissionKeys
    ensures var after := Step(o, h, session, r).kernel;
      && key in after.submissionKeys
      && (FindReceipt(after.live.receipts, key) == FindReceipt(session.kernel.live.receipts, key)
          || FindReceipt(after.live.receipts, key).None?)
  {
    hide PrepareIngest, PrepareAdvance, PrepareTimeout, PrepareExtension, PrepareControl, PrepareInterest, FindReceipt,
         RecordKeys, RecordInterest;
    var p := Prepare(o, h, session, r);
    if p.Ok? {
      RecordsAll(session.kernel.submissionKeys, p.value.events);
      match r
      case Ingest(s) => IngestReceipt(o, h, session, s, key);
      case Advance(target) => AdvanceReceipts(o, session, target);
      case Timeout(t, forced) => TimeoutReceipts(o, session, t, forced);
      case _ => OtherReceipts(o, h, session, r);
    }
  }

  lemma IngestReceipt(o: Options, h: Lookup, session: Session, s: Submission, key: Key)
    requires key in session.kernel.submissionKeys
    ensures var p := PrepareIngest(o, h, session, s);
      p.Ok? ==>
        FindReceipt(Commit(session, p.value).kernel.live.receipts, key)
        == FindReceipt(session.kernel.live.receipts, key)
  {
    hide ActionError, Collect, SubmissionError, SetReceipt, FindReceipt, Number, RecordKeys, RecordInterest;
    var p := PrepareIngest(o, h, session, s);
    if p.Ok? && !p.value.noop {
      var w := Collect(o, session.kernel.live.window, s).value;
      FindAfterSet(session.kernel.live.receipts,
        ReceiptEntry(Key(s.participantId, s.submissionId), o.text(s.command), s.tickId,
          ReceiptFor(session.kernel.live, s, w),
                     session.kernel.live.cursor), key);
    }
  }

  lemma AdvanceReceipts(o: Options, session: Session, target: Option<int>)
    requires UniqueReceipts(session.kernel.live.receipts)
    ensures var p := PrepareAdvance(o, session, target);
      p.Ok? ==> Fades(session.kernel.live.receipts, Commit(session, p.value).kernel.live.receipts)
  {
    hide CatchUp, CheckpointDue, StateDigest, FindReceipt, Number, RecordKeys, RecordInterest;
    var demand := DemandOf(o, session.kernel.live, target);
    if demand.Ok? { CatchUpFades(o, session.kernel.live, session.backoff, demand.value.count); }
  }

  lemma TimeoutReceipts(o: Options, session: Session, t: TimeoutInput, forced: Option<Action>)
    requires UniqueReceipts(session.kernel.live.receipts)
    ensures var p := PrepareTimeout(o, session, t, forced);
      p.Ok? ==> Fades(session.kernel.live.receipts, Commit(session, p.value).kernel.live.receipts)
  {
    hide ResolveOnce, TimeoutAction, RejectionDeltas, CheckpointDue, StateDigest, FindReceipt, Number, RecordKeys,
         RecordInterest;
    var a := TimeoutAction(o, session.kernel.live, t, forced);
    if a.Ok? { ResolveOnceFades(o, session.kernel.live, session.backoff, TimedOut, [SystemInput(t, a.value)]); }
  }

  lemma OtherReceipts(o: Options, h: Lookup, session: Session, r: Request)
    requires r.Extend? || r.Control? || r.Interest?
    ensures var p := Prepare(o, h, session, r);
      p.Ok? ==> Commit(session, p.value).kernel.live.receipts == session.kernel.live.receipts
  {
    hide RefreshScopes, WindowFor, Deltas, NextBackoff, Declare, InterestText, FindReceipt, Number, RecordKeys,
         RecordInterest, SetScope;
  }

  lemma {:induction false} RunReceipt(o: Options, h: Lookup, session: Session, requests: seq<Request>, key: Key)
    requires Checkpointable(o, session) && key in session.kernel.submissionKeys
    ensures var after := Run(o, h, session, requests).kernel;
      && key in after.submissionKeys
      && (FindReceipt(after.live.receipts, key) == FindReceipt(session.kernel.live.receipts, key)
          || FindReceipt(after.live.receipts, key).None?)
    decreases |requests|
  {
    hide Step, Checkpointable, FindReceipt;
    if requests != [] {
      CheckpointableUnique(o, session);
      StepReceipt(o, h, session, requests[0], key);
      StepCheckpointable(o, h, session, requests[0]);
      RunReceipt(o, h, Step(o, h, session, requests[0]), requests[1..], key);
    }
  }

  lemma CheckpointableUnique(o: Options, session: Session)
    requires Checkpointable(o, session)
    ensures UniqueReceipts(session.kernel.live.receipts)
  {
  }

  /** What a commit of an accepted command leaves behind. */
  lemma AcceptedReceipt(o: Options, h: Lookup, session: Session, s: Submission)
    requires PrepareIngest(o, h, session, s).Ok? && !PrepareIngest(o, h, session, s).value.noop
    ensures var p := PrepareIngest(o, h, session, s).value;
      var after := Commit(session, p).kernel;
      var key := Key(s.participantId, s.submissionId);
      && p.outcome.Accepted? && key in after.submissionKeys
      && FindReceipt(after.live.receipts, key)
         == Some(ReceiptEntry(key, o.text(s.command), s.tickId, p.outcome.receipt, session.kernel.live.cursor))
      && p.outcome.receipt.participantId == s.participantId && p.outcome.receipt.submissionId == s.submissionId
      && p.outcome.receipt.cursor == session.kernel.live.cursor && s.revision == session.kernel.live.cursor
    requires session.kernel.live.window.revision == session.kernel.live.cursor
  {
    hide ActionError, Spent, SetReceipt, FindReceipt, RecordKeys, RecordInterest, Submitted, Awaiting, Rejections,
         Number;
    var p := PrepareIngest(o, h, session, s).value;
    OneEvent(o, session.kernel.live.transitionRevision + 1);
    RecordsAll(session.kernel.submissionKeys, p.events);
    var w := Collect(o, session.kernel.live.window, s).value;
    FindAfterSet(session.kernel.live.receipts,
      ReceiptEntry(Key(s.participantId, s.submissionId), o.text(s.command), s.tickId,
        ReceiptFor(session.kernel.live, s, w),
                   session.kernel.live.cursor), Key(s.participantId, s.submissionId));
    assert Accepts(p.events[0].body);
  }

  lemma {:induction false} MembersPartition(ids: seq<Seat>, keys: set<Seat>)
    ensures multiset(Members(ids, keys, true)) + multiset(Members(ids, keys, false)) == multiset(ids)
    ensures forall id :: id in Members(ids, keys, true) <==> id in ids && id in keys
    ensures forall id :: id in Members(ids, keys, false) <==> id in ids && id !in keys
  {
    if ids != [] {
      MembersPartition(ids[1..], keys);
      assert ids == [ids[0]] + ids[1..];
    }
  }

  /** An accepted command was legal, came for the open tick, and adds exactly its own intent to the
      window; its receipt divides the window's seats into those submitted and those awaited. */
  lemma AcceptedEffect(o: Options, h: Lookup, session: Session, s: Submission)
    requires PrepareIngest(o, h, session, s).Ok? && PrepareIngest(o, h, session, s).value.outcome.Accepted?
    ensures var p := PrepareIngest(o, h, session, s).value;
      var before, after, receipt := session.kernel.live, Commit(session, p).kernel.live, p.outcome.receipt;
      var key := Key(s.participantId, s.submissionId);
      && o.status(before.reducerState) == Playing && s.tickId == OpenTick(o, before.window)
      && key in after.intentActions && o.legal(before.reducerState, s.participantId, after.intentActions[key])
      && s.participantId in after.window.intents
      && (s.participantId !in before.window.intents ==>
            after.window.intents == before.window.intents[s.participantId :=
              Intent(s.participantId, s.submissionId, s.command, s.seal)])
      && (s.participantId in before.window.intents ==> after.window == before.window)
      && after.reducerState == before.reducerState && BooksOf(after) == BooksOf(before) && after.cursor == before.cursor
      && multiset(receipt.submitted) + multiset(receipt.awaiting) == multiset(before.window.participants)
      && s.participantId in receipt.submitted
      && (receipt.awaiting == [] <==> Ready(after.window))
  {
    hide ActionError, Spent, SetReceipt, FindReceipt, RecordKeys, RecordInterest, Rejections, Number, Collect,
         SubmissionError, Members, Ready;
    CollectEffect(o, session.kernel.live.window, s);
    var w := Collect(o, session.kernel.live.window, s).value;
    MembersPartition(w.participants, w.intents.Keys);
    NobodyAwaited(w);
  }

  lemma CollectEffect(o: Options, w: Window, s: Submission)
    ensures var r := Collect(o, w, s);
      r.Ok? ==>
        && s.tickId == OpenTick(o, w) && s.participantId in w.participants && r.value.participants == w.participants
        && s.participantId in r.value.intents
        && r.value == (if s.participantId in w.intents then w
                       else w.(intents := w.intents[s.participantId :=
                         Intent(s.participantId, s.submissionId, s.command, s.seal)]))
  {
  }

  lemma NobodyAwaited(w: Window)
    ensures Awaiting(w) == [] <==> Ready(w)
  {
    MembersPartition(w.participants, w.intents.Keys);
    if Awaiting(w) != [] { assert Awaiting(w)[0] in Awaiting(w); }
  }

  /** `again` repeats what was submitted. */
  predicate Repeats(o: Options, s: Submission, again: Submission) {
    o.text(again.command) == o.text(s.command) && again.tickId == s.tickId && again.revision == s.revision
  }

  /** Its id sent again never runs a command twice: while the receipt is kept, a repetition is a
      duplicate with the original receipt that changes nothing and other content is a conflict;
      afterwards the id is refused. */
  ghost predicate Answered(o: Options, later: Session, s: Submission, again: Submission, receipt: Receipt,
      retry: Result<Prepared>) {
    var kept := FindReceipt(later.kernel.live.receipts, Key(s.participantId, s.submissionId));
    var addressed := again.protocol == GaosTicks1 && again.sessionId == o.sessionId;
    && (retry.Ok? <==> addressed && kept.Some? && Repeats(o, s, again))
    && (retry.Ok? ==>
          && retry.value.noop && Commit(later, retry.value) == later
          && retry.value.outcome == Duplicate(receipt.(resolved := receipt.cursor < later.kernel.live.cursor)))
    && (addressed && kept.Some? && !Repeats(o, s, again) ==> retry == Err(Conflict))
  }

  /** A command accepted in a reachable state, and its id submitted again, with any content, after any
      further requests. */
  lemma RetryAnswers(o: Options, h: Lookup, before: seq<Request>, s: Submission, after: seq<Request>, again: Submission)
    requires ValidOptions(o) && again.participantId == s.participantId && again.submissionId == s.submissionId
    requires var p := PrepareIngest(o, h, Run(o, h, Open(o), before), s); p.Ok? && p.value.outcome.Accepted?
    ensures var session := Run(o, h, Open(o), before);
      var p := PrepareIngest(o, h, session, s).value;
      var later := Run(o, h, Commit(session, p), after);
      Answered(o, later, s, again, p.outcome.receipt, PrepareIngest(o, h, later, again))
  {
    hide Run, Checkpointable, FindReceipt, Open, Answered;
    OpenCheckpointable(o);
    RunCheckpointable(o, h, Open(o), before);
    var session := Run(o, h, Open(o), before);
    var p := PrepareIngest(o, h, session, s).value;
    CheckpointableInStep(o, session);
    AcceptedNotNoop(o, h, session, s);
    AcceptedReceipt(o, h, session, s);
    StepCheckpointable(o, h, session, Ingest(s));
    var key := Key(s.participantId, s.submissionId);
    RunReceipt(o, h, Commit(session, p), after, key);
    RetryDecided(o, h, Run(o, h, Commit(session, p), after), s, again, p.outcome.receipt);
  }

  lemma AcceptedNotNoop(o: Options, h: Lookup, session: Session, s: Submission)
    ensures var p := PrepareIngest(o, h, session, s);
      p.Ok? && p.value.outcome.Accepted? ==> !p.value.noop
  {
    hide ActionError, Spent, SetReceipt, FindReceipt, Collect, SubmissionError;
  }

  lemma RetryDecided(o: Options, h: Lookup, later: Session, s: Submission, again: Submission, receipt: Receipt)
    requires again.participantId == s.participantId && again.submissionId == s.submissionId
      && s.revision == receipt.cursor
    requires var key := Key(s.participantId, s.submissionId);
      && key in later.kernel.submissionKeys
      && (FindReceipt(later.kernel.live.receipts, key).None?
          || FindReceipt(later.kernel.live.receipts, key)
             == Some(ReceiptEntry(key, o.text(s.command), s.tickId, receipt, receipt.cursor)))
    ensures Answered(o, later, s, again, receipt, PrepareIngest(o, h, later, again))
  {
    hide ActionError, SetReceipt, FindReceipt, Collect, SubmissionError;
  }

  // ---- Controls ----

  /** Controls are remembered as they were accepted. */
  ghost predicate Remembers(before: map<Key, ControlEntry>, after: map<Key, ControlEntry>) {
    forall key :: key in before ==> key in after && after[key] == before[key]
  }

  lemma StepControls(o: Options, h: Lookup, session: Session, r: Request)
    requires Checkpointable(o, session)
    ensures Remembers(session.kernel.live.controls, Step(o, h, session, r).kernel.live.controls)
  {
    hide PrepareIngest, PrepareAdvance, PrepareTimeout, PrepareExtension, PrepareControl, PrepareInterest;
    match r
    case Advance(target) => AdvanceControls(o, session, target);
    case Timeout(t, forced) => TimeoutControls(o, session, t, forced);
    case _ => OtherControls(o, h, session, r);
  }

  lemma AdvanceControls(o: Options, session: Session, target: Option<int>)
    requires Checkpointable(o, session)
    ensures var p := PrepareAdvance(o, session, target);
      p.Ok? ==> Commit(session, p.value).kernel.live.controls == session.kernel.live.controls
  {
    hide CatchUp, CheckpointDue, StateDigest, WindowFor, Number, RecordKeys, RecordInterest;
    var demand := DemandOf(o, session.kernel.live, target);
    if demand.Ok? { CatchUpSane(o, session.kernel.live, session.backoff, demand.value.count); }
  }

  lemma TimeoutControls(o: Options, session: Session, t: TimeoutInput, forced: Option<Action>)
    requires Checkpointable(o, session)
    ensures var p := PrepareTimeout(o, session, t, forced);
      p.Ok? ==> Commit(session, p.value).kernel.live.controls == session.kernel.live.controls
  {
    hide ResolveOnce, TimeoutAction, RejectionDeltas, CheckpointDue, StateDigest, WindowFor, Number, RecordKeys,
         RecordInterest;
    var a := TimeoutAction(o, session.kernel.live, t, forced);
    if a.Ok? { ResolveOnceSane(o, session.kernel.live, session.backoff, TimedOut, [SystemInput(t, a.value)]); }
  }

  lemma OtherControls(o: Options, h: Lookup, session: Session, r: Request)
    requires !r.Advance? && !r.Timeout?
    ensures var p := Prepare(o, h, session, r);
      p.Ok? ==> Remembers(session.kernel.live.controls, Commit(session, p.value).kernel.live.controls)
  {
    hide RefreshScopes, WindowFor, Deltas, NextBackoff, Declare, InterestText, FindReceipt, Number, RecordKeys,
         RecordInterest, SetScope, SetReceipt, ActionError, Spent, Collect, SubmissionError;
  }

  lemma {:induction false} RunControls(o: Options, h: Lookup, session: Session, requests: seq<Request>)
    requires Checkpointable(o, session)
    ensures Remembers(session.kernel.live.controls, Run(o, h, session, requests).kernel.live.controls)
    decreases |requests|
  {
    hide Step, Checkpointable;
    if requests != [] {
      StepControls(o, h, session, requests[0]);
      StepCheckpointable(o, h, session, requests[0]);
      RunControls(o, h, Step(o, h, session, requests[0]), requests[1..]);
    }
  }

  /** A control accepted once and repeated after any further requests is a duplicate with the original
      receipt and runs no reducer again, unless a command took its id in the meantime. */
  lemma ControlRetryAnswers(o: Options, h: Lookup, session: Session, c: ControlInput, after: seq<Request>)
    requires Checkpointable(o, session)
    requires var p := PrepareControl(o, h, session, c); p.Ok? && p.value.outcome.ControlAccepted?
    ensures var p := PrepareControl(o, h, session, c).value;
      var later := Run(o, h, Commit(session, p), after);
      var key := Key(c.participantId, c.controlId);
      if FindReceipt(later.kernel.live.receipts, key).Some? || key in later.kernel.submissionKeys || key in h.gameplay
      then PrepareControl(o, h, later, c) == Err(Conflict)
      else PrepareControl(o, h, later, c) == Ok(NoChange(o, later, ControlDuplicate(p.outcome.control)))
  {
    hide Run, Checkpointable, FindReceipt, PrepareControl, Commit, Blank;
    var p := PrepareControl(o, h, session, c).value;
    StepCheckpointable(o, h, session, Control(c));
    RunControls(o, h, Commit(session, p), after);
    ControlRecorded(o, h, session, c);
    ControlDecided(o, h, Run(o, h, Commit(session, p), after), c, p.outcome.control);
  }

  lemma ControlDecided(o: Options, h: Lookup, later: Session, c: ControlInput, receipt: ControlReceipt)
    requires o.applyControl.Some? && c.participantId in o.seats && !Blank(c.controlId)
    requires var key := Key(c.participantId, c.controlId);
      key in later.kernel.live.controls && later.kernel.live.controls[key] == ControlEntry(o.text(c.control), receipt)
    ensures var key := Key(c.participantId, c.controlId);
      if FindReceipt(later.kernel.live.receipts, key).Some? || key in later.kernel.submissionKeys || key in h.gameplay
      then PrepareControl(o, h, later, c) == Err(Conflict)
      else PrepareControl(o, h, later, c) == Ok(NoChange(o, later, ControlDuplicate(receipt)))
  {
    hide FindReceipt, Blank, NoChange, ApplyControl, ControlPrepared;
  }

  lemma ControlRecorded(o: Options, h: Lookup, session: Session, c: ControlInput)
    ensures var p := PrepareControl(o, h, session, c);
      var key := Key(c.participantId, c.controlId);
      p.Ok? && p.value.outcome.ControlAccepted? ==>
        && o.applyControl.Some? && c.participantId in o.seats && !Blank(c.controlId)
        && key in Commit(session, p.value).kernel.live.controls
        && Commit(session, p.value).kernel.live.controls[key]
          == ControlEntry(o.text(c.control), p.value.outcome.control)
  {
    hide ApplyControl, FindReceipt, Deltas, NextBackoff, Number, RecordKeys, RecordInterest;
  }
}
