/** Checkpoints: taking one, restoring it, and continuing from it with the rest of the log
    (`checkpoint`, `restoreCheckpoint` and `rehydrateKernelFromCheckpoint` in src/session.ts). */
module SessionCheckpoint {
  import opened CodePoints
  import opened CanonicalJson
  import opened Wrappers
  import opened SessionTypes
  import opened SessionSpec
  import opened SessionReplay
  import opened SessionRehydrate
  import opened SessionRuns
  import opened SessionAlike

  // ---- `sortedEntries`: maps are written in key order ----

  function KeyText(key: Key): string { key.participantId + ['\0'] + key.id }
  function ScopeText(key: ScopeKey): string { key.participantId + ['\0'] + key.scopeId }

  function InsertReceipt(entry: ReceiptEntry, sorted: seq<ReceiptEntry>): seq<ReceiptEntry> {
    if sorted == [] || !Precedes(KeyText(sorted[0].key), KeyText(entry.key)) then [entry] + sorted
    else [sorted[0]] + InsertReceipt(entry, sorted[1..])
  }

  function SortReceipts(entries: seq<ReceiptEntry>): seq<ReceiptEntry> {
    if entries == [] then [] else InsertReceipt(entries[0], SortReceipts(entries[1..]))
  }

  function InsertScope(scope: Scope, sorted: seq<Scope>): seq<Scope> {
    if sorted == [] || !Precedes(ScopeText(KeyOf(sorted[0])), ScopeText(KeyOf(scope))) then [scope] + sorted
    else [sorted[0]] + InsertScope(scope, sorted[1..])
  }

  function SortScopes(scopes: seq<Scope>): seq<Scope> {
    if scopes == [] then [] else InsertScope(scopes[0], SortScopes(scopes[1..]))
  }

  function InsertKey(key: Key, sorted: seq<Key>): seq<Key> {
    if sorted == [] || !Precedes(KeyText(sorted[0]), KeyText(key)) then [key] + sorted
    else [sorted[0]] + InsertKey(key, sorted[1..])
  }

  function SortKeys(keys: seq<Key>): seq<Key> {
    if keys == [] then [] else InsertKey(keys[0], SortKeys(keys[1..]))
  }

  lemma {:induction false} InsertReceiptElements(entry: ReceiptEntry, sorted: seq<ReceiptEntry>)
    ensures forall e :: e in InsertReceipt(entry, sorted) <==> e == entry || e in sorted
    ensures UniqueReceipts(sorted) && (forall e :: e in sorted ==> e.key != entry.key) ==>
      UniqueReceipts(InsertReceipt(entry, sorted))
  {
    if sorted == [] || !Precedes(KeyText(sorted[0].key), KeyText(entry.key)) {
    } else {
      InsertReceiptElements(entry, sorted[1..]);
      assert sorted == [sorted[0]] + sorted[1..];
      var rest := InsertReceipt(entry, sorted[1..]);
      if UniqueReceipts(sorted) && (forall e :: e in sorted ==> e.key != entry.key) {
        forall j | 0 <= j < |rest| ensures rest[j].key != sorted[0].key { assert rest[j] in rest; }
      }
    }
  }

  lemma {:induction false} SortReceiptsElements(entries: seq<ReceiptEntry>)
    requires UniqueReceipts(entries)
    ensures forall e :: e in SortReceipts(entries) <==> e in entries
    ensures UniqueReceipts(SortReceipts(entries))
  {
    if entries != [] {
      SortReceiptsElements(entries[1..]);
      InsertReceiptElements(entries[0], SortReceipts(entries[1..]));
      assert entries == [entries[0]] + entries[1..];
    }
  }

  lemma {:induction false} InsertScopeElements(scope: Scope, sorted: seq<Scope>)
    ensures forall s :: s in InsertScope(scope, sorted) <==> s == scope || s in sorted
    ensures UniqueScopes(sorted) && (forall s :: s in sorted ==> KeyOf(s) != KeyOf(scope)) ==>
      UniqueScopes(InsertScope(scope, sorted))
  {
    if sorted == [] || !Precedes(ScopeText(KeyOf(sorted[0])), ScopeText(KeyOf(scope))) {
    } else {
      InsertScopeElements(scope, sorted[1..]);
      assert sorted == [sorted[0]] + sorted[1..];
      var rest := InsertScope(scope, sorted[1..]);
      if UniqueScopes(sorted) && (forall s :: s in sorted ==> KeyOf(s) != KeyOf(scope)) {
        forall j | 0 <= j < |rest| ensures KeyOf(rest[j]) != KeyOf(sorted[0]) { assert rest[j] in rest; }
      }
    }
  }

  lemma {:induction false} SortScopesElements(scopes: seq<Scope>)
    requires UniqueScopes(scopes)
    ensures forall s :: s in SortScopes(scopes) <==> s in scopes
    ensures UniqueScopes(SortScopes(scopes))
  {
    if scopes != [] {
      SortScopesElements(scopes[1..]);
      InsertScopeElements(scopes[0], SortScopes(scopes[1..]));
      assert scopes == [scopes[0]] + scopes[1..];
    }
  }

  // ---- Checkpoint and restore ----

  /** `KernelCheckpoint`: the live state in key order, without the log. */
  datatype KernelCheckpoint = KernelCheckpoint(
    live: KernelState, submissionKeys: set<Key>, interestCommands: map<Key, string>,
    backoff: map<ScopeKey, Backoff>, retentionFloor: nat, stateDigest: int)

  function CheckpointOf(o: Options, session: Session): KernelCheckpoint {
    var live := session.kernel.live;
    KernelCheckpoint(
      live.(events := [],
            receipts := SortReceipts(live.receipts),
            expiredReceiptKeys := SortKeys(live.expiredReceiptKeys),
            interestScopes := SortScopes(live.interestScopes)),
      session.kernel.submissionKeys, session.kernel.interestCommands, session.backoff,
      session.retentionFloor, StateDigest(o, live))
  }

  ghost predicate ControlSound(o: Options, live: KernelState, key: Key, c: ControlEntry) {
    && (exists v :: o.text(v) == c.canonicalControl)
    && c.receipt.participantId in o.seats && c.receipt.controlId != ""
    && key == Key(c.receipt.participantId, c.receipt.controlId)
    && 1 <= c.receipt.transitionRevision <= live.transitionRevision
    && c.receipt.cursor <= live.cursor && c.receipt.tick <= live.tick
  }

  ghost predicate ControlsSound(o: Options, live: KernelState) {
    forall key :: key in live.controls ==> ControlSound(o, live, key, live.controls[key])
  }

  predicate RejectionsSound(o: Options, floor: nat, revision: nat, history: seq<Rejection>) {
    && (forall i :: 0 <= i < |history| ==>
          && floor < history[i].transitionRevision <= revision
          && history[i].participantId in o.seats && history[i].submissionId != "")
    && (forall i, j :: 0 <= i < j < |history| ==> history[i].transitionRevision <= history[j].transitionRevision)
  }

  /** The validation of `restoreCheckpoint`. */
  ghost predicate Acceptable(o: Options, c: KernelCheckpoint) {
    var live := c.live;
    && live.lastCheckpointTick <= live.tick && c.retentionFloor <= live.transitionRevision
    && live.window.revision == live.cursor
    && ControlsSound(o, live)
    && RejectionsSound(o, c.retentionFloor, live.transitionRevision, live.rejectionHistory)
    && live.views.Keys == Contents(o.seats) && live.viewRevisions.Keys == Contents(o.seats)
    && c.stateDigest == StateDigest(o, live)
    && ParticipantsValid(o, live.reducerState)
  }

  ghost function Restore(o: Options, c: KernelCheckpoint): Option<Session> {
    if Acceptable(o, c) then Some(Session(Kernel(c.live, c.submissionKeys, c.interestCommands), c.backoff,
      c.retentionFloor))
    else None
  }

  /** The contiguity checks on a checkpoint's event tail. */
  predicate Contiguous(o: Options, revision: nat, index: nat, tail: seq<Event>, started: bool)
    decreases |tail|
  {
    tail == []
    || (var e := tail[0];
        if e.transitionRevision == revision then
          e.eventId == EventId(o.sessionId, revision, index) && Contiguous(o, revision, index + 1, tail[1..], true)
        else
          started && e.transitionRevision == revision + 1
          && e.eventId == EventId(o.sessionId, revision + 1, 0) && Contiguous(o, revision + 1, 1, tail[1..], true))
  }

  /** `rehydrateKernelFromCheckpoint` */
  ghost function RehydrateFromCheckpoint(o: Options, c: KernelCheckpoint, tail: seq<Event>): Option<Kernel> {
    if !Contiguous(o, c.live.transitionRevision + 1, 0, tail, false) then None
    else match Restore(o, c)
      case None => None
      case Some(session) => Replay(o, session.kernel, tail)
  }

  // ---- What every run keeps, so that its checkpoints are acceptable ----

  ghost predicate Filled(w: Window) { forall p :: p in w.intents ==> w.intents[p].submissionId != "" }

  ghost predicate Sane(o: Options, live: KernelState) {
    && live.lastCheckpointTick <= live.tick
    && ParticipantsValid(o, live.reducerState)
    && live.views.Keys == Contents(o.seats) && live.viewRevisions.Keys == Contents(o.seats)
    && Filled(live.window)
  }

  ghost predicate Checkpointable(o: Options, session: Session) {
    var live := session.kernel.live;
    && InStep(o, live) && Sane(o, live) && Unique(session.kernel)
    && ControlsSound(o, live)
    && session.retentionFloor <= live.transitionRevision
    && RejectionsSound(o, session.retentionFloor, live.transitionRevision, live.rejectionHistory)
  }

  lemma RefreshSane(o: Options, live: KernelState, state: GameState, cursor: nat, tick: nat)
    requires live.views.Keys == Contents(o.seats) && live.viewRevisions.Keys == Contents(o.seats)
    ensures var r := Refresh(o, live, state, cursor, tick);
      r.Some? ==>
        && r.value == live.(reducerState := state, cursor := cursor, tick := tick,
                            views := r.value.views, viewRevisions := r.value.viewRevisions,
                            interestScopes := r.value.interestScopes)
        && r.value.views.Keys == Contents(o.seats) && r.value.viewRevisions.Keys == Contents(o.seats)
  {
    hide RefreshScopes;
    assert (live.views + ViewsOf(o, state)).Keys == Contents(o.seats);
    assert NextRevisions(o, live.viewRevisions).Keys == Contents(o.seats);
  }

  /** A rejection names a seat of the session and the id of one of its collected intents. */
  ghost predicate Owned(o: Options, m: CommitMismatch) { m.participantId in o.seats && m.submissionId != "" }

  ghost predicate AllOwned(o: Options, bodies: seq<Body>) {
    forall i :: 0 <= i < |bodies| && bodies[i].Rejected? ==> Owned(o, bodies[i].mismatch)
  }

  ghost predicate Names(m: CommitMismatch, intent: Intent) {
    m.participantId == intent.participantId && m.submissionId == intent.submissionId
  }

  lemma {:induction false} MismatchOwner(o: Options, live: KernelState, books: Books, intents: seq<Intent>)
    ensures var m := MapIntents(o, live, books, intents);
      m.Mismatch? ==> exists i :: 0 <= i < |intents| && Names(m.mismatch, intents[i])
    decreases |intents|
  {
    if intents != [] {
      var first := MapOne(o, live, books, intents[0]);
      if first.One? {
        MismatchOwner(o, live, first.books, intents[1..]);
        var rest := MapIntents(o, live, first.books, intents[1..]);
        if rest.Mismatch? {
          var i :| 0 <= i < |intents[1..]| && Names(rest.mismatch, intents[1..][i]);
          assert intents[i + 1] == intents[1..][i];
        }
      }
    }
  }

  lemma {:induction false} WindowIntentsOf(ids: seq<Seat>, intents: map<Seat, Intent>)
    requires forall p :: p in intents ==> intents[p].participantId == p
    ensures forall x :: x in WindowIntents(ids, intents) ==>
      x.participantId in ids && x.participantId in intents && intents[x.participantId] == x
  {
    if ids != [] {
      WindowIntentsOf(ids[1..], intents);
      assert ids == [ids[0]] + ids[1..];
    }
  }

  lemma ResolveOnceSane(o: Options, live: KernelState, backoff: map<ScopeKey, Backoff>, cause: Cause,
      forced: seq<CanonicalInput>)
    requires InStep(o, live) && Sane(o, live)
    ensures var r := ResolveOnce(o, live, backoff, cause, forced);
      r.Ok? ==>
        && Sane(o, r.value.draft)
        && r.value.draft.controls == live.controls
        && live.cursor <= r.value.draft.cursor && live.tick <= r.value.draft.tick
        && (r.value.Declined? ==> Owned(o, r.value.mismatch))
  {
    hide Resolve, Deltas, NextBackoff, MapIntents, WindowFor;
    var intents := WindowIntents(live.window.participants, live.window.intents);
    var m := MapIntents(o, live, BooksOf(live), intents);
    MismatchOwner(o, live, BooksOf(live), intents);
    WindowIntentsOf(live.window.participants, live.window.intents);
    if m.Mapped? { ResolveSane(o, WithBooks(live, m.books), m.inputs + forced); }
  }

  lemma ResolveSane(o: Options, live: KernelState, inputs: seq<CanonicalInput>)
    requires Sane(o, live)
    ensures var r := Resolve(o, live, inputs, live.cursor, live.tick);
      r.Some? ==>
        && Sane(o, r.value) && r.value.controls == live.controls
        && r.value.cursor == live.cursor + 1 && r.value.tick == live.tick + 1
  {
    hide Refresh, WindowFor, Fresh, Expire;
    var state := o.advance(live.reducerState, Actions(inputs));
    RefreshSane(o, live, state, live.cursor + 1, live.tick + 1);
    FreshWindow(o, state, live.cursor + 1);
  }

  lemma FreshWindow(o: Options, state: GameState, revision: nat)
    ensures var w := WindowFor(o, state, revision); w.Some? ==> w.value.intents == map[]
  {
  }

  lemma {:induction false} CatchUpSane(o: Options, live: KernelState, backoff: map<ScopeKey, Backoff>, count: nat)
    requires InStep(o, live) && Sane(o, live)
    ensures var r := CatchUp(o, live, backoff, count);
      r.Ok? ==>
        && Sane(o, r.value.draft) && AllOwned(o, r.value.bodies)
        && r.value.draft.controls == live.controls
        && live.cursor <= r.value.draft.cursor && live.tick <= r.value.draft.tick
    decreases count
  {
    hide ResolveOnce, Halts, InStep, Sane, RejectionDeltas, Owned;
    if count > 0 {
      var cause := CauseOf(o, live.window);
      ResolveInStep(o, live, backoff, cause, []);
      ResolveOnceSane(o, live, backoff, cause, []);
      SettledBody(o, live, backoff, cause, []);
      var r := ResolveOnce(o, live, backoff, cause, []);
      if r.Ok? && r.value.Settled? { CatchUpSane(o, r.value.draft, r.value.backoff, count - 1); }
    }
  }

  lemma SettledBody(o: Options, live: KernelState, backoff: map<ScopeKey, Backoff>, cause: Cause,
      forced: seq<CanonicalInput>)
    ensures var r := ResolveOnce(o, live, backoff, cause, forced);
      r.Ok? && r.value.Settled? ==> r.value.body.Resolution?
  {
    hide Resolve, Deltas, NextBackoff, MapIntents;
  }

  lemma {:induction false} OwnedRejections(o: Options, floor: nat, revision: nat, bodies: seq<Body>)
    requires AllOwned(o, bodies) && floor < revision
    ensures RejectionsSound(o, floor, revision, Rejections(revision, bodies))
    ensures forall i :: 0 <= i < |Rejections(revision, bodies)| ==>
      Rejections(revision, bodies)[i].transitionRevision == revision
  {
    if bodies != [] {
      assert AllOwned(o, bodies[1..]) by {
        assert forall i :: 0 <= i < |bodies[1..]| ==> bodies[1..][i] == bodies[i + 1];
      }
      OwnedRejections(o, floor, revision, bodies[1..]);
    }
  }

  /** The half of `Checkpointable` that the replay argument does not give. */
  ghost predicate Sound(o: Options, session: Session) {
    var live := session.kernel.live;
    && Sane(o, live) && ControlsSound(o, live)
    && session.retentionFloor <= live.transitionRevision
    && RejectionsSound(o, session.retentionFloor, live.transitionRevision, live.rejectionHistory)
  }

  /** Committing a sane draft with owned rejections keeps the session checkpointable. */
  lemma FinishSound(
    o: Options, session: Session, draft: KernelState, bodies: seq<Body>, deltas: seq<Delta>,
    outcome: Outcome, backoff: map<ScopeKey, Backoff>)
    requires Checkpointable(o, session) && Sane(o, draft) && AllOwned(o, bodies)
    requires Keeps(session.kernel.live, draft)
    requires ControlsSound(o, draft.(transitionRevision := session.kernel.live.transitionRevision + 1))
    ensures Sound(o, Commit(session, Finish(o, session, draft, bodies, deltas, outcome, backoff, false)))
  {
    hide WindowFor, Number, RecordKeys, RecordInterest;
    var revision := session.kernel.live.transitionRevision + 1;
    OwnedRejections(o, session.retentionFloor, revision, bodies);
    var live := Commit(session, Finish(o, session, draft, bodies, deltas, outcome, backoff, false)).kernel.live;
    assert live.controls == draft.controls && live.cursor == draft.cursor && live.tick == draft.tick;
    forall key | key in live.controls ensures ControlSound(o, live, key, live.controls[key]) {
      assert ControlSound(o, draft.(transitionRevision := revision), key, draft.controls[key]);
    }
  }

  lemma ControlsCarry(o: Options, before: KernelState, after: KernelState)
    requires ControlsSound(o, before) && after.controls == before.controls
    requires before.cursor <= after.cursor && before.tick <= after.tick
    requires before.transitionRevision <= after.transitionRevision
    ensures ControlsSound(o, after)
  {
    forall key | key in after.controls ensures ControlSound(o, after, key, after.controls[key]) {
      assert ControlSound(o, before, key, before.controls[key]);
    }
  }

  lemma AdvanceSound(o: Options, session: Session, target: Option<int>)
    requires Checkpointable(o, session)
    ensures var p := PrepareAdvance(o, session, target); p.Ok? ==> Sound(o, Commit(session, p.value))
  {
    hide CatchUp, CheckpointDue, StateDigest, WindowFor, Finish, DemandOf, Unique, RejectionsSound, ReplayBodies,
         Sound, Commit;
    var p := PrepareAdvance(o, session, target);
    if p.Ok? {
      var k := session.kernel;
      var demand := DemandOf(o, k.live, target).value;
      CatchUpSane(o, k.live, session.backoff, demand.count);
      CatchUpReplays(o, k, session.backoff, demand.count, 0);
      var c := CatchUp(o, k.live, session.backoff, demand.count).value;
      var due := CheckpointDue(o, c.draft, c.resolutions) || EndsRejected(c.bodies);
      var (draft, bodies) := WithCheckpoint(o, c.draft, c.bodies, due);
      if demand.count == 0 {
        NoopFinish(o, session, draft, bodies, c.deltas, p.value.outcome, c.backoff);
        CheckpointableSound(o, session);
      } else {
        ControlsCarry(o, k.live, draft.(transitionRevision := k.live.transitionRevision + 1));
        FinishSound(o, session, draft, bodies, c.deltas,
          Advanced(c.resolutions, demand.partial || c.stopped, draft.cursor, draft.tick, StateDigest(o, draft)),
            c.backoff);
      }
    }
  }

  lemma CheckpointableSound(o: Options, session: Session)
    requires Checkpointable(o, session)
    ensures Sound(o, session)
  {
  }

  lemma NoopFinish(
    o: Options, session: Session, draft: KernelState, bodies: seq<Body>, deltas: seq<Delta>,
    outcome: Outcome, backoff: map<ScopeKey, Backoff>)
    ensures forall outcome' ::
      Commit(session, Finish(o, session, draft, bodies, deltas, outcome', backoff, true)) == session
  {
  }

  lemma TimeoutSound(o: Options, session: Session, t: TimeoutInput, forced: Option<Action>)
    requires Checkpointable(o, session)
    ensures var p := PrepareTimeout(o, session, t, forced); p.Ok? ==> Sound(o, Commit(session, p.value))
  {
    hide ResolveOnce, TimeoutAction, Deltas, RejectionDeltas, CheckpointDue, StateDigest, WindowFor, Finish, Unique,
         RejectionsSound, ReplayBody, Sound, Commit;
    var p := PrepareTimeout(o, session, t, forced);
    if p.Ok? {
      var k := session.kernel;
      var a := TimeoutAction(o, k.live, t, forced).value;
      var system := [SystemInput(t, a)];
      TimeoutInert(o, k.live, t, forced);
      ResolveOnceSane(o, k.live, session.backoff, TimedOut, system);
      SettledBody(o, k.live, session.backoff, TimedOut, system);
      SettledReplays(o, k, session.backoff, TimedOut, system, 0);
      DeclinedReplays(o, k, session.backoff, TimedOut, system, 0);
      var resolved := ResolveOnce(o, k.live, session.backoff, TimedOut, system).value;
      var second := if resolved.Declined? then Rejected(resolved.mismatch) else resolved.body;
      var due := resolved.Declined? || CheckpointDue(o, resolved.draft, 1);
      var (draft, bodies) := WithCheckpoint(o, resolved.draft, [NoticeFor(k.live, t), second], due);
      ControlsCarry(o, k.live, draft.(transitionRevision := k.live.transitionRevision + 1));
      FinishSound(o, session, draft, bodies,
        if resolved.Declined?
        then RejectionDeltas(o, resolved.draft, resolved.draft.transitionRevision + 1, resolved.mismatch,
          resolved.draft.interestScopes)
        else resolved.deltas,
        Advanced(if resolved.Declined? then 0 else 1, false, draft.cursor, draft.tick, StateDigest(o, draft)),
        if resolved.Declined? then session.backoff else resolved.backoff);
    }
  }

  lemma ControlSoundStep(o: Options, h: Lookup, session: Session, c: ControlInput)
    requires Checkpointable(o, session)
    ensures var p := PrepareControl(o, h, session, c); p.Ok? ==> Sound(o, Commit(session, p.value))
  {
    hide Refresh, Deltas, NextBackoff, WindowFor, Finish;
    var p := PrepareControl(o, h, session, c);
    if p.Ok? {
      var k := session.kernel;
      var revision := k.live.transitionRevision + 1;
      var key := Key(c.participantId, c.controlId);
      if key in k.live.controls || key in h.control {
        NoopFinish(o, session, k.live, [], [], p.value.outcome, session.backoff);
      } else {
        var moved := ApplyControl(o, k.live, c).value;
        var state := (o.applyControl.value)(k.live.reducerState, c.control,
                       Context(c.participantId, c.controlId, k.live.cursor, k.live.tick));
        RefreshSane(o, k.live, state, k.live.cursor, k.live.tick);
        var receipt := ControlReceipt(c.participantId, c.controlId, revision, k.live.cursor, k.live.tick);
        var draft := moved.(controls := k.live.controls[key := ControlEntry(o.text(c.control), receipt)]);
        var stamped := draft.(transitionRevision := revision);
        forall j | j in stamped.controls ensures ControlSound(o, stamped, j, stamped.controls[j]) {
          if j == key {
            assert o.text(c.control) == stamped.controls[key].canonicalControl;
          } else {
            assert ControlSound(o, k.live, j, k.live.controls[j]);
          }
        }
        FinishSound(o, session, draft,
          [ControlTransition(k.live.tick, k.live.cursor, c.participantId, c.controlId, c.control, o.text(c.control))],
          Deltas(o, Delivery(FromControl, revision, k.live.tick, []), o.seats, k.live.interestScopes,
                 draft.interestScopes, draft.viewRevisions, session.backoff),
          ControlAccepted(receipt), NextBackoff(o, k.live.interestScopes, draft.interestScopes, session.backoff));
      }
    }
  }

  lemma IngestSound(o: Options, h: Lookup, session: Session, s: Submission)
    requires Checkpointable(o, session)
    ensures var p := PrepareIngest(o, h, session, s); p.Ok? ==> Sound(o, Commit(session, p.value))
  {
    hide WindowFor, Finish, Spent, ActionError;
    var p := PrepareIngest(o, h, session, s);
    if p.Ok? {
      var live := session.kernel.live;
      if FindReceipt(live.receipts, Key(s.participantId, s.submissionId)).Some? {
        NoopFinish(o, session, live, [], [], p.value.outcome, session.backoff);
      } else {
        var preview := o.toAction(s.command, Context(s.participantId, s.submissionId, live.cursor, live.tick));
        var w := Collect(o, live.window, s).value;
        var key := Key(s.participantId, s.submissionId);
        var draft := live.(
          window := w,
          receipts := SetReceipt(live.receipts,
            ReceiptEntry(key, o.text(s.command), s.tickId, ReceiptFor(live, s, w), live.cursor)),
          intentActions := live.intentActions[key := preview]);
        ControlsCarry(o, live, draft.(transitionRevision := live.transitionRevision + 1));
        FinishSound(o, session, draft,
          [IntentAccepted(live.tick, live.cursor, s.participantId, s.submissionId, s.command,
                          o.text(s.command), preview, s.seal)],
          [], Accepted(ReceiptFor(live, s, w)), session.backoff);
      }
    }
  }

  lemma InterestSound(o: Options, h: Lookup, session: Session, s: InterestSubmission)
    requires Checkpointable(o, session)
    ensures var p := PrepareInterest(o, h, session, s); p.Ok? ==> Sound(o, Commit(session, p.value))
  {
    hide WindowFor, Declare, InterestText, Number, RecordKeys, RecordInterest;
    var p := PrepareInterest(o, h, session, s);
    if p.Ok? && !p.value.noop {
      var live := session.kernel.live;
      ControlsCarry(o, live, p.value.draft);
      NoRejections(live, live.transitionRevision + 1,
        [InterestDeclared(live.tick, live.cursor, s.participantId, s.submissionId, s.scopeId,
           s.declaration, InterestText(o, s.scopeId, s.declaration), s.seal)]);
    }
  }

  lemma ExtensionSound(o: Options, session: Session, lane: string, record: Json)
    requires Checkpointable(o, session)
    ensures var p := PrepareExtension(o, session, lane, record); p.Ok? ==> Sound(o, Commit(session, p.value))
  {
    hide WindowFor, Number, RecordKeys, RecordInterest;
    var p := PrepareExtension(o, session, lane, record);
    if p.Ok? {
      var live := session.kernel.live;
      ControlsCarry(o, live, p.value.draft);
      NoRejections(live, live.transitionRevision + 1, [Extension(live.tick, lane, record)]);
    }
  }

  lemma PreparedSound(o: Options, h: Lookup, session: Session, r: Request)
    requires Checkpointable(o, session)
    ensures var p := Prepare(o, h, session, r); p.Ok? ==> Sound(o, Commit(session, p.value))
  {
    hide PrepareIngest, PrepareAdvance, PrepareTimeout, PrepareExtension, PrepareControl, PrepareInterest, Sound,
         Checkpointable;
    match r
    case Ingest(s) => IngestSound(o, h, session, s);
    case Advance(target) => AdvanceSound(o, session, target);
    case Timeout(t, forced) => TimeoutSound(o, session, t, forced);
    case Extend(lane, record) => ExtensionSound(o, session, lane, record);
    case Control(c) => ControlSoundStep(o, h, session, c);
    case Interest(s) => InterestSound(o, h, session, s);
  }

  /** Every committed transition keeps the session checkpointable. */
  lemma StepCheckpointable(o: Options, h: Lookup, session: Session, r: Request)
    requires Checkpointable(o, session)
    ensures Checkpointable(o, Step(o, h, session, r))
  {
    hide Prepare, InStep, Sane, ControlsSound, RejectionsSound, ReplayEvents, Commit;
    var p := Prepare(o, h, session, r);
    if p.Ok? {
      InStepSound(o, session.kernel.live);
      PreparedInStep(o, h, session, r);
      PreparedSound(o, h, session, r);
      PreparedReplays(o, h, session, r, 0);
      if p.value.noop {
        NoopCommit(session, p.value);
      } else {
        EventsAlike(o, session.kernel, session.kernel, 0, p.value.events);
        FloorKept(session, p.value);
      }
    }
  }

  lemma FloorKept(session: Session, p: Prepared)
    ensures Commit(session, p).retentionFloor == session.retentionFloor
  {
  }

  lemma OpenCheckpointable(o: Options)
    requires ValidOptions(o)
    ensures Checkpointable(o, Open(o))
  {
    WindowForSound(o, o.initialState, 0);
    FreshWindow(o, o.initialState, 0);
    FirstScopesUnique(o, o.seats);
    assert UniqueReceipts([]);
    assert NoRepeats(o.seats) by { NoDuplicates(o.seats); }
  }

  ghost predicate NoRepeats(ids: seq<Seat>) {
    forall i, j :: 0 <= i < j < |ids| ==> ids[i] != ids[j]
  }

  lemma {:induction false} NoDuplicates(ids: seq<Seat>)
    ensures |Contents(ids)| <= |ids|
    ensures |Contents(ids)| == |ids| ==> NoRepeats(ids)
  {
    if ids != [] {
      NoDuplicates(ids[1..]);
      assert ids == [ids[0]] + ids[1..];
      assert Contents(ids) == {ids[0]} + Contents(ids[1..]);
      if ids[0] in Contents(ids[1..]) { assert Contents(ids) == Contents(ids[1..]); }
    }
  }

  lemma {:induction false} FirstScopesUnique(o: Options, seats: seq<Seat>)
    ensures |FirstScopes(o, seats)| == |seats|
    ensures forall i :: 0 <= i < |seats| ==> KeyOf(FirstScopes(o, seats)[i]) == ScopeKey(seats[i], seats[i])
    ensures NoRepeats(seats) ==> UniqueScopes(FirstScopes(o, seats))
  {
    if seats != [] { FirstScopesUnique(o, seats[1..]); }
  }

  lemma {:induction false} RunCheckpointable(o: Options, h: Lookup, session: Session, requests: seq<Request>)
    requires Checkpointable(o, session)
    ensures Checkpointable(o, Run(o, h, session, requests))
    decreases |requests|
  {
    hide Checkpointable, Step;
    if requests != [] {
      StepCheckpointable(o, h, session, requests[0]);
      RunCheckpointable(o, h, Step(o, h, session, requests[0]), requests[1..]);
    }
  }

  /** A checkpoint restores to the kernel it was taken from, up to map order, log and tombstones. */
  lemma RestoreAlike(o: Options, session: Session)
    requires Checkpointable(o, session)
    ensures var restored := Restore(o, CheckpointOf(o, session));
      && restored.Some?
      && Alike(restored.value.kernel, session.kernel)
      && restored.value.backoff == session.backoff && restored.value.retentionFloor == session.retentionFloor
  {
    hide WindowFor, SortKeys;
    var live := session.kernel.live;
    SortReceiptsElements(live.receipts);
    SortScopesElements(live.interestScopes);
    var c := CheckpointOf(o, session);
    forall key | key in c.live.controls ensures ControlSound(o, c.live, key, c.live.controls[key]) {
      assert ControlSound(o, live, key, live.controls[key]);
    }
    assert ReceiptBag(c.live.receipts) == ReceiptBag(live.receipts);
    assert ScopeBag(c.live.interestScopes) == ScopeBag(live.interestScopes);
  }

  // ---- The rest of the log ----

  ghost predicate Transition(o: Options, revision: nat, events: seq<Event>) {
    && events != []
    && forall i :: 0 <= i < |events| ==>
         events[i].transitionRevision == revision && events[i].eventId == EventId(o.sessionId, revision, i)
  }

  /** The events of one transition, from position `index` on, continue a contiguous tail. */
  lemma {:induction false} TransitionContiguous(
    o: Options, base: nat, revision: nat, events: seq<Event>, index: nat, rest: seq<Event>, started: bool)
    requires revision == base + 1 && Transition(o, revision, events) && index < |events| && (index > 0 ==> started)
    requires Contiguous(o, revision, |events|, rest, true)
    ensures Contiguous(o, revision, index, events[index..] + rest, started)
    ensures index == 0 ==> forall n: nat :: Contiguous(o, base, n, events + rest, true)
    decreases |events| - index
  {
    var tail := events[index..] + rest;
    assert tail[0] == events[index] && tail[1..] == events[index + 1..] + rest;
    if index + 1 == |events| {
      assert events[index + 1..] + rest == rest;
    } else {
      TransitionContiguous(o, base, revision, events, index + 1, rest, true);
    }
    if index == 0 {
      assert events[0..] + rest == events + rest;
      assert (events + rest)[0] == events[0] && (events + rest)[1..] == events[1..] + rest;
    }
  }

  /** Runs only append to the log, transition by transition, and the appended part replays. */
  lemma {:induction false} RunTail(o: Options, h: Lookup, session: Session, requests: seq<Request>, previous: nat)
    returns (tail: seq<Event>)
    requires InStep(o, session.kernel.live) && previous <= session.kernel.live.transitionRevision
    ensures var after := Run(o, h, session, requests).kernel;
      && after.live.events == session.kernel.live.events + tail
      && ReplayEvents(o, session.kernel, previous, tail) == Some(after)
      && Contiguous(o, session.kernel.live.transitionRevision + 1, 0, tail, false)
      && (forall n: nat :: Contiguous(o, session.kernel.live.transitionRevision, n, tail, true))
      && (Auditable(o, tail) ==> TimeoutAudit(o, tail)) && NoticesPlaced(o, tail)
    decreases |requests|
  {
    hide Prepare, InStep, ReplayEvent, Commit, TimeoutAudit, NoticePlaced;
    tail := [];
    var live := session.kernel.live;
    assert live.events + [] == live.events;
    assert TimeoutAudit(o, []) by { EmptyAudit(o); }
    if requests != [] {
      var r := requests[0];
      var p := Prepare(o, h, session, r);
      if p.Err? || p.value.noop {
        if p.Ok? { NoopCommit(session, p.value); }
        tail := RunTail(o, h, session, requests[1..], previous);
      } else {
        var next := Commit(session, p.value);
        var first := p.value.events;
        InStepSound(o, live);
        PreparedInStep(o, h, session, r);
        PreparedAudit(o, h, session, r);
        PreparedReplays(o, h, session, r, previous);
        PreparedFinish(o, h, session, r);
        CommitDraft(session, p.value);
        var revision := live.transitionRevision + 1;
        var rest := RunTail(o, h, next, requests[1..], LastRevision(previous, first));
        tail := first + rest;
        assert live.events + first + rest == live.events + tail;
        ReplayEventsAppend(o, session.kernel, previous, first, rest);
        TransitionContiguous(o, live.transitionRevision, revision, first, 0, rest, false);
        assert first[0..] + rest == tail;
        AuditableParts(o, first, rest);
        if Auditable(o, tail) { AuditAppend(o, first, rest); }
      }
    }
  }

  lemma EmptyAudit(o: Options)
    ensures TimeoutAudit(o, [])
  {
  }

  lemma CommitDraft(session: Session, p: Prepared)
    requires !p.noop
    ensures Commit(session, p).kernel.live == p.draft
  {
  }

  lemma {:induction false} RunConcat(o: Options, h: Lookup, session: Session, a: seq<Request>, b: seq<Request>)
    ensures Run(o, h, session, a + b) == Run(o, h, Run(o, h, session, a), b)
    decreases |a|
  {
    hide Step;
    if a == [] {
      assert a + b == b;
    } else {
      assert (a + b)[1..] == a[1..] + b;
      RunConcat(o, h, Step(o, h, session, a[0]), a[1..], b);
    }
  }

  /** For every split of every run: the checkpoint taken at the split plus the remaining events
      passes the contiguity checks. It is accepted exactly when the audit knows the timeouts among
      those events, and then rebuilds the uninterrupted kernel, up to the order of receipts and
      scopes, the log before the split, and tombstones. */
  lemma CheckpointContinues(o: Options, h: Lookup, before: seq<Request>, after: seq<Request>)
    requires ValidOptions(o)
    ensures var split := Run(o, h, Open(o), before);
      var end := Run(o, h, Open(o), before + after).kernel;
      && split.kernel.live.events <= end.live.events
      && var tail := end.live.events[|split.kernel.live.events|..];
      var rebuilt := RehydrateFromCheckpoint(o, CheckpointOf(o, split), tail);
      && Contiguous(o, split.kernel.live.transitionRevision + 1, 0, tail, false)
      && (rebuilt.Some? <==> Auditable(o, tail))
      && (rebuilt.Some? ==> Alike(rebuilt.value, end))
  {
    hide Run, Checkpointable, RehydrateFromCheckpoint, CheckpointOf, Contiguous, Auditable, Alike, Open;
    OpenCheckpointable(o);
    RunCheckpointable(o, h, Open(o), before);
    var split := Run(o, h, Open(o), before);
    RunConcat(o, h, Open(o), before, after);
    CheckpointThenRun(o, h, split, after);
  }

  /** The same from any state whose checkpoint restores, however it was reached. */
  lemma CheckpointThenRun(o: Options, h: Lookup, split: Session, after: seq<Request>)
    requires ValidOptions(o) && Checkpointable(o, split)
    ensures var end := Run(o, h, split, after).kernel;
      && split.kernel.live.events <= end.live.events
      && var tail := end.live.events[|split.kernel.live.events|..];
      var rebuilt := RehydrateFromCheckpoint(o, CheckpointOf(o, split), tail);
      && Contiguous(o, split.kernel.live.transitionRevision + 1, 0, tail, false)
      && (rebuilt.Some? <==> Auditable(o, tail))
      && (rebuilt.Some? ==> Alike(rebuilt.value, end))
  {
    hide Run, Checkpointable, ReplayEvents, RehydrateFromCheckpoint, CheckpointOf, Contiguous, TimeoutAudit, Auditable,
         Alike, NoticesPlaced;
    CheckpointableInStep(o, split);
    var tail := RunTail(o, h, split, after, 0);
    var end := Run(o, h, split, after).kernel;
    assert end.live.events[|split.kernel.live.events|..] == tail;
    TailAudited(o, tail);
    TailRebuilds(o, split, tail, end);
  }

  /** Placed notices pass the audit exactly when it knows their policy. */
  lemma TailAudited(o: Options, tail: seq<Event>)
    requires ValidOptions(o) && NoticesPlaced(o, tail) && (Auditable(o, tail) ==> TimeoutAudit(o, tail))
    ensures Auditable(o, tail) <==> TimeoutAudit(o, tail)
  {
    hide TimeoutAudit, NoticePlaced;
    if !Auditable(o, tail) {
      var i :| 0 <= i < |tail| && tail[i].body.TimeoutNotice?;
      ForeignPolicyFails(o, tail, i);
    }
  }

  /** A contiguous tail that replays from the state checkpointed replays from the checkpoint. */
  lemma TailRebuilds(o: Options, split: Session, tail: seq<Event>, end: Kernel)
    requires Checkpointable(o, split)
    requires ReplayEvents(o, split.kernel, 0, tail) == Some(end)
    requires Contiguous(o, split.kernel.live.transitionRevision + 1, 0, tail, false)
    ensures var rebuilt := RehydrateFromCheckpoint(o, CheckpointOf(o, split), tail);
      && (rebuilt.Some? <==> TimeoutAudit(o, tail))
      && (rebuilt.Some? ==> Alike(rebuilt.value, end))
  {
    hide Checkpointable, ReplayEvents, Restore, Alike, Contiguous, TimeoutAudit;
    RestoreAlike(o, split);
    var restored := Restore(o, CheckpointOf(o, split)).value;
    EventsAlike(o, restored.kernel, split.kernel, 0, tail);
  }

  lemma CheckpointableInStep(o: Options, session: Session)
    requires Checkpointable(o, session)
    ensures InStep(o, session.kernel.live)
  {
  }
}
