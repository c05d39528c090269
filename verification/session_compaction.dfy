/** Compaction moves permanent identities behind the host's history lookup (`compact`,
    `SessionHistoryLookup` in src/session.ts). A compacted kernel decides like the full one. */
module SessionCompaction {
  import opened CodePoints
  import opened CanonicalJson
  import opened Wrappers
  import opened SessionTypes
  import opened SessionSpec
  import opened SessionRehydrate
  import opened SessionRuns
  import opened SessionCheckpoint
  import opened SessionAlike

  datatype Confirmation = Confirmation(checkpointDurable: bool, historyDurable: bool)

  /** Which lookups the host configured. */
  datatype LookupKind = NoLookup | BasicLookup | LookupWithControls

  /** `compact`: what it keeps, or why it refuses. */
  function Compact(
    o: Options, session: Session, checkpoint: KernelCheckpoint, confirmation: Confirmation, kind: LookupKind)
    : Result<Session>
  {
    if !confirmation.checkpointDurable || !confirmation.historyDurable then Err(Malformed)
    else if checkpoint != CheckpointOf(o, session) then Err(Conflict)
    else if kind == NoLookup then Err(Malformed)
    else if session.kernel.live.controls != map[] && kind != LookupWithControls then Err(Malformed)
    else Ok(Compacted(session))
  }

  function Compacted(session: Session): Session {
    var live := session.kernel.live;
    Session(
      Kernel(live.(events := [], rejectionHistory := [], expiredReceiptKeys := [], controls := map[],
                   commitments := map key | key in live.commitments && !live.commitments[key].revealed
                                  :: live.commitments[key]),
             {}, map[]),
      session.backoff, live.transitionRevision)
  }

  // ---- The relation between a full kernel and a compacted one ----

  /** Only revealed commitments are missing. */
  ghost predicate CommitmentsRelated(full: map<CommitmentKey, Commitment>, kept: map<CommitmentKey, Commitment>) {
    && (forall key :: key in kept ==> key in full && full[key] == kept[key])
    && (forall key :: key in full && key !in kept ==> full[key].revealed)
  }

  ghost function Shared(live: KernelState): KernelState {
    live.(commitments := map[], events := [], rejectionHistory := [], expiredReceiptKeys := [], controls := map[])
  }

  ghost predicate KnownKeys(live: KernelState, keys: set<Key>) {
    && (forall key :: key in live.expiredReceiptKeys ==> key in keys)
    && (forall e :: e in live.receipts ==> e.key in keys)
  }

  ghost predicate LiveRelated(full: KernelState, kept: KernelState, keys: set<Key>) {
    && Shared(full) == Shared(kept)
    && CommitmentsRelated(full.commitments, kept.commitments)
    && KnownKeys(full, keys) && KnownKeys(kept, keys)
  }

  ghost predicate ControlsRelated(full: map<Key, ControlEntry>, kept: map<Key, ControlEntry>,
      archive: map<Key, string>) {
    && (forall key :: key in full <==> key in kept || key in archive)
    && (forall key :: key in kept ==> full[key] == kept[key])
    && (forall key :: key in archive ==> full[key].canonicalControl == archive[key])
  }

  ghost predicate InterestRelated(full: map<Key, string>, kept: map<Key, string>, archive: map<Key, string>) {
    && (forall key :: key in full <==> key in kept || key in archive)
    && (forall key :: key in kept ==> full[key] == kept[key])
    && (forall key :: key in archive ==> full[key] == archive[key])
  }

  /** The kept history is the part of the full one after the retention floor. */
  ghost predicate HistoryRelated(full: seq<Rejection>, kept: seq<Rejection>, floor: nat) {
    && |kept| <= |full| && full[|full| - |kept|..] == kept
    && (forall i :: 0 <= i < |full| - |kept| ==> full[i].transitionRevision <= floor)
  }

  ghost predicate Related(full: Session, kept: Session, h: Lookup) {
    var (u, c) := (full.kernel, kept.kernel);
    && LiveRelated(u.live, c.live, u.submissionKeys)
    && u.submissionKeys == c.submissionKeys + h.gameplay
    && InterestRelated(u.interestCommands, c.interestCommands, h.interest)
    && u.interestCommands.Keys <= u.submissionKeys
    && ControlsRelated(u.live.controls, c.live.controls, h.control)
    && HistoryRelated(u.live.rejectionHistory, c.live.rejectionHistory, kept.retentionFloor)
    && full.backoff == kept.backoff
  }

  // ---- Resolution ----

  ghost predicate BooksRelated(full: Books, kept: Books) {
    CommitmentsRelated(full.commitments, kept.commitments) && full.nextIds == kept.nextIds
  }

  lemma MapOneRelated(o: Options, u: KernelState, c: KernelState, ub: Books, cb: Books, intent: Intent)
    requires Shared(u) == Shared(c) && BooksRelated(ub, cb)
    ensures var (x, y) := (MapOne(o, u, ub, intent), MapOne(o, c, cb, intent));
      && (x.One? <==> y.One?) && (x.One? ==> x.input == y.input && BooksRelated(x.books, y.books))
      && (!x.One? ==> x == y)
  {
    assert Shared(u).intentActions == Shared(c).intentActions && Shared(u).cursor == Shared(c).cursor
        && Shared(u).tick == Shared(c).tick;
  }

  lemma {:induction false} MapIntentsRelated(
    o: Options, u: KernelState, c: KernelState, ub: Books, cb: Books, intents: seq<Intent>)
    requires Shared(u) == Shared(c) && BooksRelated(ub, cb)
    ensures var (x, y) := (MapIntents(o, u, ub, intents), MapIntents(o, c, cb, intents));
      && (x.Mapped? <==> y.Mapped?) && (x.Mapped? ==> x.inputs == y.inputs && BooksRelated(x.books, y.books))
      && (!x.Mapped? ==> x == y)
    decreases |intents|
  {
    hide MapOne, BooksRelated, Shared;
    if intents != [] {
      MapOneRelated(o, u, c, ub, cb, intents[0]);
      var x, y := MapOne(o, u, ub, intents[0]), MapOne(o, c, cb, intents[0]);
      if x.One? { MapIntentsRelated(o, u, c, x.books, y.books, intents[1..]); }
    }
  }

  lemma {:induction false} ExpireKnown(entries: seq<ReceiptEntry>, oldest: int, expired: seq<Key>, keys: set<Key>)
    requires forall e :: e in entries ==> e.key in keys
    requires forall key :: key in expired ==> key in keys
    ensures forall key :: key in Expire(entries, oldest, expired) ==> key in keys
    decreases |entries|
  {
    if entries != [] {
      var next := if entries[0].cursor < oldest then AddKey(expired, entries[0].key) else expired;
      assert entries[0] in entries;
      ExpireKnown(entries[1..], oldest, next, keys);
    }
  }

  lemma {:induction false} FreshKnown(entries: seq<ReceiptEntry>, oldest: int)
    ensures forall e :: e in Fresh(entries, oldest) ==> e in entries
  {
    if entries != [] {
      FreshKnown(entries[1..], oldest);
      assert entries == [entries[0]] + entries[1..];
    }
  }

  lemma EvictKnown(o: Options, live: KernelState, keys: set<Key>)
    requires KnownKeys(live, keys)
    ensures KnownKeys(Evict(o, live), keys)
  {
    var oldest := live.cursor - o.receiptRetention;
    ExpireKnown(live.receipts, oldest, live.expiredReceiptKeys, keys);
    FreshKnown(live.receipts, oldest);
    var all := Expire(live.receipts, oldest, live.expiredReceiptKeys);
    forall key | key in Trim(all, MaxTombstones(o)) ensures key in all {
    }
  }

  lemma RefreshShared(o: Options, u: KernelState, c: KernelState, state: GameState, cursor: nat, tick: nat)
    requires Shared(u) == Shared(c)
    ensures var (x, y) := (Refresh(o, u, state, cursor, tick), Refresh(o, c, state, cursor, tick));
      && (x.Some? <==> y.Some?)
      && (x.Some? ==> Shared(x.value) == Shared(y.value) && Untouched(u, x.value) && Untouched(c, y.value))
  {
    hide RefreshScopes;
    assert u.interestScopes == Shared(u).interestScopes && c.interestScopes == Shared(c).interestScopes;
    assert u.views == Shared(u).views && c.views == Shared(c).views;
    assert u.viewRevisions == Shared(u).viewRevisions && c.viewRevisions == Shared(c).viewRevisions;
  }

  /** The parts outside `Shared`, and the receipts. */
  ghost predicate Untouched(before: KernelState, after: KernelState) {
    && after.commitments == before.commitments && after.events == before.events
    && after.rejectionHistory == before.rejectionHistory && after.controls == before.controls
    && after.expiredReceiptKeys == before.expiredReceiptKeys && after.receipts == before.receipts
  }

  lemma ResolveRelated(
    o: Options, u: KernelState, c: KernelState, keys: set<Key>, inputs: seq<CanonicalInput>, cursor: nat, tick: nat)
    requires LiveRelated(u, c, keys)
    ensures var (x, y) := (Resolve(o, u, inputs, cursor, tick), Resolve(o, c, inputs, cursor, tick));
      && (x.Some? <==> y.Some?)
      && (x.Some? ==> LiveRelated(x.value, y.value, keys) && SideKept(u, x.value) && SideKept(c, y.value))
  {
    hide Refresh, WindowFor, Fresh, Expire;
    assert Shared(u).reducerState == Shared(c).reducerState;
    var state := o.advance(u.reducerState, Actions(inputs));
    RefreshShared(o, u, c, state, cursor + 1, tick + 1);
    var x, y, w := Refresh(o, u, state, cursor + 1, tick + 1), Refresh(o, c, state, cursor + 1, tick + 1),
                   WindowFor(o, state, cursor + 1);
    if x.Some? && w.Some? {
      EvictKnown(o, x.value.(window := w.value), keys);
      EvictKnown(o, y.value.(window := w.value), keys);
      assert Shared(x.value).receipts == Shared(y.value).receipts && Shared(x.value).cursor == Shared(y.value).cursor;
    }
  }

  ghost predicate SideKept(before: KernelState, after: KernelState) {
    && after.rejectionHistory == before.rejectionHistory && after.controls == before.controls
  }

  ghost predicate ResolvedRelated(u: KernelState, c: KernelState, x: Result<Resolved>, y: Result<Resolved>,
      keys: set<Key>) {
    && (x.Ok? <==> y.Ok?) && (x.Err? ==> x == y)
    && (x.Ok? ==>
          && (x.value.Settled? <==> y.value.Settled?)
          && LiveRelated(x.value.draft, y.value.draft, keys)
          && SideKept(u, x.value.draft) && SideKept(c, y.value.draft)
          && (x.value.Declined? ==> x.value.mismatch == y.value.mismatch)
          && (x.value.Settled? ==>
                x.value.body == y.value.body && x.value.deltas == y.value.deltas && x.value.backoff == y.value.backoff))
  }

  lemma {:induction false} RemoveKnown(entries: seq<ReceiptEntry>, key: Key)
    ensures forall e :: e in RemoveReceipt(entries, key) ==> e in entries
  {
    if entries != [] {
      RemoveKnown(entries[1..], key);
      assert entries == [entries[0]] + entries[1..];
    }
  }

  lemma DeclineRelated(u: KernelState, c: KernelState, keys: set<Key>, m: CommitMismatch)
    requires LiveRelated(u, c, keys)
    ensures LiveRelated(Decline(u, m), Decline(c, m), keys)
  {
    RemoveKnown(u.receipts, Key(m.participantId, m.submissionId));
    RemoveKnown(c.receipts, Key(m.participantId, m.submissionId));
    assert Shared(u).window == Shared(c).window && Shared(u).receipts == Shared(c).receipts;
  }

  lemma ResolveOnceRelated(
    o: Options, u: KernelState, c: KernelState, keys: set<Key>, backoff: map<ScopeKey, Backoff>, cause: Cause,
    forced: seq<CanonicalInput>)
    requires LiveRelated(u, c, keys)
    ensures ResolvedRelated(u, c, ResolveOnce(o, u, backoff, cause, forced),
      ResolveOnce(o, c, backoff, cause, forced), keys)
  {
    hide Resolve, Settle, MapIntents, Decline, LiveRelated, BooksRelated, WindowIntents, Consumed, SideKept;
    RelatedShared(u, c, keys);
    var intents := WindowIntents(u.window.participants, u.window.intents);
    MapRelated(o, u, c, keys, intents);
    var x, y := MapIntents(o, u, BooksOf(u), intents), MapIntents(o, c, BooksOf(c), intents);
    if x.Mismatch? {
      DeclineRelated(u, c, keys, x.mismatch);
      DeclineSide(u, x.mismatch);
      DeclineSide(c, x.mismatch);
    } else if x.Mapped? {
      SettledRelated(o, u, c, keys, backoff, cause, Consumed(intents), x.inputs + forced, forced, x.books, y.books);
    }
  }

  /** Windows that map alike resolve alike. */
  lemma SettledRelated(
    o: Options, u: KernelState, c: KernelState, keys: set<Key>, backoff: map<ScopeKey, Backoff>, cause: Cause,
    consumed: seq<Key>, inputs: seq<CanonicalInput>, forced: seq<CanonicalInput>, ub: Books, cb: Books)
    requires LiveRelated(u, c, keys) && BooksRelated(ub, cb)
    ensures var p, q := Resolve(o, WithBooks(u, ub), inputs, u.cursor, u.tick),
      Resolve(o, WithBooks(c, cb), inputs, c.cursor, c.tick);
      && (p.Some? <==> q.Some?)
      && (p.Some? ==>
            ResolvedRelated(u, c, Ok(Settle(o, u, backoff, cause, consumed, inputs, forced, p.value)),
                            Ok(Settle(o, c, backoff, cause, consumed, inputs, forced, q.value)), keys))
  {
    hide Resolve, Settle, LiveRelated, BooksRelated;
    RelatedShared(u, c, keys);
    BooksInstalled(u, c, keys, ub, cb);
    ResolveRelated(o, WithBooks(u, ub), WithBooks(c, cb), keys, inputs, u.cursor, u.tick);
    var p, q := Resolve(o, WithBooks(u, ub), inputs, u.cursor, u.tick),
      Resolve(o, WithBooks(c, cb), inputs, u.cursor, u.tick);
    if p.Some? { SettleShared(o, u, c, keys, backoff, cause, consumed, inputs, forced, p.value, q.value); }
  }

  lemma SettleShared(
    o: Options, u: KernelState, c: KernelState, keys: set<Key>, backoff: map<ScopeKey, Backoff>, cause: Cause,
    consumed: seq<Key>, inputs: seq<CanonicalInput>, forced: seq<CanonicalInput>, ud: KernelState, cd: KernelState)
    requires LiveRelated(u, c, keys) && LiveRelated(ud, cd, keys)
    requires |u.interestScopes| == |ud.interestScopes| && |c.interestScopes| == |cd.interestScopes|
    ensures var (x, y) := (Settle(o, u, backoff, cause, consumed, inputs, forced, ud),
                           Settle(o, c, backoff, cause, consumed, inputs, forced, cd));
      && x.Settled? && y.Settled? && x.draft == ud && y.draft == cd
      && x.body == y.body && x.deltas == y.deltas && x.backoff == y.backoff
  {
    hide LiveRelated;
    RelatedShared(u, c, keys);
    RelatedShared(ud, cd, keys);
  }

  lemma MapRelated(o: Options, u: KernelState, c: KernelState, keys: set<Key>, intents: seq<Intent>)
    requires LiveRelated(u, c, keys)
    ensures var (x, y) := (MapIntents(o, u, BooksOf(u), intents), MapIntents(o, c, BooksOf(c), intents));
      && (x.Mapped? <==> y.Mapped?) && (x.Mapped? ==> x.inputs == y.inputs && BooksRelated(x.books, y.books))
      && (!x.Mapped? ==> x == y)
  {
    SharedReads(u, c);
    MapIntentsRelated(o, u, c, BooksOf(u), BooksOf(c), intents);
  }

  lemma DeclineSide(live: KernelState, m: CommitMismatch)
    ensures SideKept(live, Decline(live, m))
  {
  }

  lemma BooksInstalled(u: KernelState, c: KernelState, keys: set<Key>, ub: Books, cb: Books)
    requires LiveRelated(u, c, keys) && BooksRelated(ub, cb)
    ensures LiveRelated(WithBooks(u, ub), WithBooks(c, cb), keys)
  {
    assert Shared(WithBooks(u, ub)) == Shared(u).(nextCommitmentIds := ub.nextIds);
    assert Shared(WithBooks(c, cb)) == Shared(c).(nextCommitmentIds := cb.nextIds);
  }

  lemma SharedReads(u: KernelState, c: KernelState)
    requires Shared(u) == Shared(c)
    ensures u.reducerState == c.reducerState && u.window == c.window && u.transitionRevision == c.transitionRevision
    ensures u.cursor == c.cursor && u.tick == c.tick && u.lastCheckpointTick == c.lastCheckpointTick
    ensures u.receipts == c.receipts && u.views == c.views && u.viewRevisions == c.viewRevisions
    ensures u.nextCommitmentIds == c.nextCommitmentIds && u.interestScopes == c.interestScopes
    ensures u.intentActions == c.intentActions
  {
    assert Shared(u).reducerState == Shared(c).reducerState;
  }

  /** What steers the catch-up loop is shared. */
  lemma LoopShared(o: Options, u: KernelState, c: KernelState, left: nat)
    requires Shared(u) == Shared(c)
    ensures CauseOf(o, u.window) == CauseOf(o, c.window)
    ensures Halts(o, u) == Halts(o, c) && CutShort(o, u, left) == CutShort(o, c, left)
  {
    SharedReads(u, c);
  }

  lemma {:induction false} CatchUpRelated(
    o: Options, u: KernelState, c: KernelState, keys: set<Key>, backoff: map<ScopeKey, Backoff>, count: nat)
    requires LiveRelated(u, c, keys)
    ensures var (x, y) := (CatchUp(o, u, backoff, count), CatchUp(o, c, backoff, count));
      && (x.Ok? <==> y.Ok?) && (x.Err? ==> x == y)
      && (x.Ok? ==>
            && LiveRelated(x.value.draft, y.value.draft, keys)
            && SideKept(u, x.value.draft) && SideKept(c, y.value.draft)
            && x.value.(draft := y.value.draft) == y.value)
    decreases count
  {
    hide ResolveOnce, LiveRelated, Halts, CutShort, RejectionDeltas, CauseOf;
    RelatedShared(u, c, keys);
    LoopShared(o, u, c, count);
    if count > 0 {
      var cause := CauseOf(o, u.window);
      ResolveOnceRelated(o, u, c, keys, backoff, cause, []);
      var x, y := ResolveOnce(o, u, backoff, cause, []), ResolveOnce(o, c, backoff, cause, []);
      if x.Ok? {
        RelatedShared(x.value.draft, y.value.draft, keys);
        LoopShared(o, x.value.draft, y.value.draft, count - 1);
        if x.value.Declined? {
          RejectionDeltasShared(o, x.value.draft, y.value.draft, x.value.draft.transitionRevision + 1,
            x.value.mismatch, x.value.draft.interestScopes);
        } else if !Halts(o, x.value.draft) {
          CatchUpRelated(o, x.value.draft, y.value.draft, keys, x.value.backoff, count - 1);
        }
      }
    }
  }

  lemma RelatedShared(u: KernelState, c: KernelState, keys: set<Key>)
    requires LiveRelated(u, c, keys)
    ensures u.reducerState == c.reducerState && u.window == c.window && u.transitionRevision == c.transitionRevision
    ensures u.cursor == c.cursor && u.tick == c.tick && u.lastCheckpointTick == c.lastCheckpointTick
    ensures u.receipts == c.receipts && u.views == c.views && u.viewRevisions == c.viewRevisions
    ensures u.nextCommitmentIds == c.nextCommitmentIds && u.interestScopes == c.interestScopes
    ensures u.intentActions == c.intentActions
  {
    SharedReads(u, c);
  }

  lemma {:induction false} RejectionDeltasShared(
    o: Options, u: KernelState, c: KernelState, revision: nat, m: CommitMismatch, scopes: seq<Scope>)
    requires u.viewRevisions == c.viewRevisions && u.tick == c.tick
    ensures RejectionDeltas(o, u, revision, m, scopes) == RejectionDeltas(o, c, revision, m, scopes)
  {
    if scopes != [] { RejectionDeltasShared(o, u, c, revision, m, scopes[1..]); }
  }

  // ---- Every decision ----

  /** Equal answers, except that a duplicate control's receipt may have been rebuilt. */
  ghost predicate SameOutcome(a: Outcome, b: Outcome) {
    a == b || (a.ControlDuplicate? && b.ControlDuplicate?)
  }

  ghost predicate Matched(full: Session, kept: Session, h: Lookup, x: Result<Prepared>, y: Result<Prepared>) {
    && (x.Ok? <==> y.Ok?) && (x.Err? ==> x == y)
    && (x.Ok? ==>
          && x.value.base == y.value.base && x.value.next == y.value.next && x.value.noop == y.value.noop
          && x.value.events == y.value.events && x.value.deltas == y.value.deltas
          && SameOutcome(x.value.outcome, y.value.outcome)
          && Related(Commit(full, x.value), Commit(kept, y.value), h))
  }

  lemma {:induction false} RecordUnion(keys: set<Key>, more: set<Key>, events: seq<Event>)
    ensures RecordKeys(keys + more, events) == RecordKeys(keys, events) + more
    ensures keys <= RecordKeys(keys, events)
    decreases |events|
  {
    if events != [] {
      var b := events[0].body;
      var next := if b.IntentAccepted? || b.InterestDeclared? then {Key(b.participantId, b.submissionId)} else {};
      assert keys + more + next == keys + next + more;
      RecordUnion(keys + next, more, events[1..]);
    }
  }

  lemma {:induction false} RecordInterestRelated(
    full: map<Key, string>, kept: map<Key, string>, archive: map<Key, string>, keys: set<Key>, events: seq<Event>)
    requires InterestRelated(full, kept, archive) && full.Keys <= keys
    requires forall i :: 0 <= i < |events| && events[i].body.InterestDeclared? ==>
      Key(events[i].body.participantId, events[i].body.submissionId) !in keys
    requires |events| <= 1 || forall i :: 0 <= i < |events| ==> !events[i].body.InterestDeclared?
    ensures InterestRelated(RecordInterest(full, events), RecordInterest(kept, events), archive)
    ensures RecordInterest(full, events).Keys <= RecordKeys(keys, events)
    decreases |events|
  {
    if events != [] {
      var b := events[0].body;
      var next := if b.IntentAccepted? || b.InterestDeclared? then {Key(b.participantId, b.submissionId)} else {};
      var full', kept' :=
        if b.InterestDeclared? then full[Key(b.participantId, b.submissionId) := b.canonicalCommand] else full,
        if b.InterestDeclared? then kept[Key(b.participantId, b.submissionId) := b.canonicalCommand] else kept;
      RecordInterestRelated(full', kept', archive, keys + next, events[1..]);
    }
  }

  /** Committing related drafts with the same bodies keeps the sessions related. */
  lemma FinishRelated(
    o: Options, full: Session, kept: Session, h: Lookup, u: KernelState, c: KernelState, bodies: seq<Body>,
    deltas: seq<Delta>, outcome: Outcome, backoff: map<ScopeKey, Backoff>)
    requires Related(full, kept, h)
    requires var keys := RecordKeys(full.kernel.submissionKeys,
      Number(o, full.kernel.live.transitionRevision + 1, bodies, 0));
      LiveRelated(u, c, keys)
    requires ControlsRelated(u.controls, c.controls, h.control)
    requires u.rejectionHistory == full.kernel.live.rejectionHistory
      && c.rejectionHistory == kept.kernel.live.rejectionHistory
    requires |bodies| <= 1 || NoAccepts(bodies)
    requires forall i :: 0 <= i < |bodies| && bodies[i].InterestDeclared? ==>
      Key(bodies[i].participantId, bodies[i].submissionId) !in full.kernel.submissionKeys
    ensures Matched(full, kept, h,
      Ok(Finish(o, full, u, bodies, deltas, outcome, backoff, false)),
      Ok(Finish(o, kept, c, bodies, deltas, outcome, backoff, false)))
  {
    hide KnownKeys, RecordKeys, RecordInterest;
    RelatedShared(full.kernel.live, kept.kernel.live, full.kernel.submissionKeys);
    var revision := full.kernel.live.transitionRevision + 1;
    var events := Number(o, revision, bodies, 0);
    NumberShape(o, revision, bodies, 0);
    RecordUnion(kept.kernel.submissionKeys, h.gameplay, events);
    RecordInterestRelated(full.kernel.interestCommands, kept.kernel.interestCommands, h.interest,
      full.kernel.submissionKeys, events);
    HistoryAppend(full.kernel.live.rejectionHistory, kept.kernel.live.rejectionHistory, kept.retentionFloor,
      Rejections(revision, bodies));
    Stamping(u, c, RecordKeys(full.kernel.submissionKeys, events), revision, full.kernel.live.events + events,
      kept.kernel.live.events + events, Rejections(revision, bodies), u.events + events, c.events + events);
  }

  lemma Stamping(
    u: KernelState, c: KernelState, keys: set<Key>, revision: nat, ue: seq<Event>, ce: seq<Event>,
    more: seq<Rejection>, ux: seq<Event>, cx: seq<Event>)
    requires LiveRelated(u, c, keys)
    ensures LiveRelated(
      u.(transitionRevision := revision, events := ux, rejectionHistory := u.rejectionHistory + more),
      c.(transitionRevision := revision, events := cx, rejectionHistory := c.rejectionHistory + more), keys)
  {
    assert Shared(u).(transitionRevision := revision) == Shared(c).(transitionRevision := revision);
  }

  lemma HistoryAppend(full: seq<Rejection>, kept: seq<Rejection>, floor: nat, more: seq<Rejection>)
    requires HistoryRelated(full, kept, floor)
    ensures HistoryRelated(full + more, kept + more, floor)
  {
    assert (full + more)[|full| - |kept|..] == full[|full| - |kept|..] + more;
  }

  lemma NoChangeMatched(o: Options, full: Session, kept: Session, h: Lookup, a: Outcome, b: Outcome)
    requires Related(full, kept, h) && SameOutcome(a, b)
    ensures Matched(full, kept, h, Ok(NoChange(o, full, a)), Ok(NoChange(o, kept, b)))
  {
    RelatedShared(full.kernel.live, kept.kernel.live, full.kernel.submissionKeys);
  }

  lemma ActionErrorRelated(o: Options, u: KernelState, c: KernelState, keys: set<Key>, seat: Seat, a: Action)
    requires LiveRelated(u, c, keys)
    ensures ActionError(o, u, seat, a) == ActionError(o, c, seat, a)
  {
    RelatedShared(u, c, keys);
    assert OpenCommitments(u.commitments, seat) == OpenCommitments(c.commitments, seat);
  }

  lemma SpentRelated(full: Session, kept: Session, h: Lookup, key: Key)
    requires Related(full, kept, h)
    ensures Spent(full.kernel, NO_HISTORY, key) == Spent(kept.kernel, h, key) == (key in full.kernel.submissionKeys)
  {
    assert NO_HISTORY == Lookup({}, map[], map[]);
  }

  lemma SetKnown(entries: seq<ReceiptEntry>, entry: ReceiptEntry)
    ensures forall e :: e in SetReceipt(entries, entry) ==> e == entry || e in entries
  {
    if entries != [] {
      SetKnown(entries[1..], entry);
      assert entries == [entries[0]] + entries[1..];
    }
  }

  lemma IngestMatched(o: Options, full: Session, kept: Session, h: Lookup, s: Submission)
    requires Related(full, kept, h)
    ensures Matched(full, kept, h, PrepareIngest(o, NO_HISTORY, full, s), PrepareIngest(o, h, kept, s))
  {
    hide Related, Matched, Spent, ActionError, Collect, SubmissionError, Number, RecordKeys, RecordInterest;
    var u, c := full.kernel.live, kept.kernel.live;
    var key := Key(s.participantId, s.submissionId);
    RelatedParts(full, kept, h);
    RelatedShared(u, c, full.kernel.submissionKeys);
    SpentRelated(full, kept, h, key);
    var existing := FindReceipt(u.receipts, key);
    var x := PrepareIngest(o, NO_HISTORY, full, s);
    if existing.Some? {
      NoChangeMatched(o, full, kept, h,
        Duplicate(existing.value.receipt.(resolved := existing.value.cursor < u.cursor)),
        Duplicate(existing.value.receipt.(resolved := existing.value.cursor < c.cursor)));
      ErrorsMatch(full, kept, h);
    } else {
      var preview := o.toAction(s.command, Context(s.participantId, s.submissionId, u.cursor, u.tick));
      ActionErrorRelated(o, u, c, full.kernel.submissionKeys, s.participantId, preview);
      ErrorsMatch(full, kept, h);
      if x.Ok? { AcceptMatched(o, full, kept, h, s, preview, Collect(o, u.window, s).value); }
    }
  }

  lemma ErrorsMatch(full: Session, kept: Session, h: Lookup)
    ensures forall e: Error :: Matched(full, kept, h, Err(e), Err(e))
  {
  }

  lemma RelatedParts(full: Session, kept: Session, h: Lookup)
    requires Related(full, kept, h)
    ensures LiveRelated(full.kernel.live, kept.kernel.live, full.kernel.submissionKeys)
    ensures full.kernel.submissionKeys == kept.kernel.submissionKeys + h.gameplay
    ensures InterestRelated(full.kernel.interestCommands, kept.kernel.interestCommands, h.interest)
    ensures ControlsRelated(full.kernel.live.controls, kept.kernel.live.controls, h.control)
    ensures full.backoff == kept.backoff
  {
  }

  lemma AcceptMatched(o: Options, full: Session, kept: Session, h: Lookup, s: Submission, preview: Action, w: Window)
    requires Related(full, kept, h)
    ensures Matched(full, kept, h, Ok(Accept(o, full, s, preview, w)), Ok(Accept(o, kept, s, preview, w)))
  {
    hide Related, Matched, Number, RecordInterest, LiveRelated;
    RelatedParts(full, kept, h);
    var u, c := full.kernel.live, kept.kernel.live;
    var keys := full.kernel.submissionKeys;
    RelatedShared(u, c, keys);
    var key := Key(s.participantId, s.submissionId);
    var entry := ReceiptEntry(key, o.text(s.command), s.tickId, ReceiptFor(u, s, w), u.cursor);
    var b := IntentAccepted(u.tick, u.cursor, s.participantId, s.submissionId, s.command, o.text(s.command), preview,
      s.seal);
    OneRecord(o, keys, full.kernel.interestCommands, u.transitionRevision + 1, b);
    AcceptLive(u, c, keys, key, w, entry, preview);
    FinishRelated(o, full, kept, h,
      u.(window := w, receipts := SetReceipt(u.receipts, entry), intentActions := u.intentActions[key := preview]),
      c.(window := w, receipts := SetReceipt(c.receipts, entry), intentActions := c.intentActions[key := preview]),
      [b], [], Accepted(ReceiptFor(u, s, w)), full.backoff);
  }

  lemma AcceptLive(u: KernelState, c: KernelState, keys: set<Key>, key: Key, w: Window, entry: ReceiptEntry,
      preview: Action)
    requires LiveRelated(u, c, keys) && entry.key == key
    ensures LiveRelated(
      u.(window := w, receipts := SetReceipt(u.receipts, entry), intentActions := u.intentActions[key := preview]),
      c.(window := w, receipts := SetReceipt(c.receipts, entry), intentActions := c.intentActions[key := preview]),
      keys + {key})
  {
    SharedReads(u, c);
    SetKnown(u.receipts, entry);
    SetKnown(c.receipts, entry);
    assert Shared(u).(window := w, receipts := SetReceipt(u.receipts, entry),
      intentActions := u.intentActions[key := preview])
        == Shared(c).(window := w, receipts := SetReceipt(c.receipts, entry),
          intentActions := c.intentActions[key := preview]);
  }

  lemma AdvanceMatched(o: Options, full: Session, kept: Session, h: Lookup, target: Option<int>)
    requires Related(full, kept, h) && WindowSound(full.kernel.live.window)
    ensures Matched(full, kept, h, PrepareAdvance(o, full, target), PrepareAdvance(o, kept, target))
  {
    hide Related, Matched, CatchUp, AdvancePrepared, LiveRelated, SideKept, Gameplay;
    RelatedParts(full, kept, h);
    ErrorsMatch(full, kept, h);
    var u, c := full.kernel.live, kept.kernel.live;
    var keys := full.kernel.submissionKeys;
    RelatedShared(u, c, keys);
    var demand := DemandOf(o, u, target);
    if o.status(u.reducerState) == Playing && demand.Ok? {
      CatchUpRelated(o, u, c, keys, full.backoff, demand.value.count);
      CatchUpReplays(o, full.kernel, full.backoff, demand.value.count, 0);
      var x, y := CatchUp(o, u, full.backoff, demand.value.count), CatchUp(o, c, full.backoff, demand.value.count);
      if x.Ok? { AdvanceCaughtUp(o, full, kept, h, demand.value, x.value, y.value); }
    }
  }

  lemma AdvanceCaughtUp(o: Options, full: Session, kept: Session, h: Lookup, demand: Demand, x: Progress, y: Progress)
    requires Related(full, kept, h)
    requires LiveRelated(x.draft, y.draft, full.kernel.submissionKeys) && x.(draft := y.draft) == y
    requires SideKept(full.kernel.live, x.draft) && SideKept(kept.kernel.live, y.draft)
    requires Gameplay(x.bodies)
    ensures Matched(full, kept, h, Ok(AdvancePrepared(o, full, demand, x)), Ok(AdvancePrepared(o, kept, demand, y)))
  {
    hide Related, Matched, CheckpointDue, StateDigest, LiveRelated, Number, RecordKeys, RecordInterest;
    RelatedParts(full, kept, h);
    var u, keys := full.kernel.live, full.kernel.submissionKeys;
    RelatedShared(x.draft, y.draft, keys);
    DueShared(o, x.draft, y.draft, x.resolutions);
    var due := CheckpointDue(o, x.draft, x.resolutions) || EndsRejected(x.bodies);
    CheckpointRelated(o, x.draft, y.draft, keys, x.bodies, due);
    var (ud, bodies) := WithCheckpoint(o, x.draft, x.bodies, due);
    var (cd, _) := WithCheckpoint(o, y.draft, y.bodies, due);
    RelatedShared(ud, cd, keys);
    DigestShared(o, ud, cd);
    var outcome := Advanced(x.resolutions, demand.partial || x.stopped, ud.cursor, ud.tick, StateDigest(o, ud));
    if demand.count == 0 {
      NoopMatched(o, full, kept, h, ud, cd, bodies, x.deltas, outcome, x.backoff);
    } else {
      NoAcceptsRecord(o, keys, full.kernel.interestCommands, u.transitionRevision + 1, bodies, 0);
      FinishRelated(o, full, kept, h, ud, cd, bodies, x.deltas, outcome, x.backoff);
    }
  }

  lemma NoopMatched(
    o: Options, full: Session, kept: Session, h: Lookup, u: KernelState, c: KernelState, bodies: seq<Body>,
    deltas: seq<Delta>, outcome: Outcome, backoff: map<ScopeKey, Backoff>)
    requires Related(full, kept, h)
    ensures Matched(full, kept, h,
      Ok(Finish(o, full, u, bodies, deltas, outcome, backoff, true)),
      Ok(Finish(o, kept, c, bodies, deltas, outcome, backoff, true)))
  {
    RelatedShared(full.kernel.live, kept.kernel.live, full.kernel.submissionKeys);
  }

  lemma DigestShared(o: Options, u: KernelState, c: KernelState)
    requires u.cursor == c.cursor && u.tick == c.tick && u.views == c.views
    ensures StateDigest(o, u) == StateDigest(o, c)
  {
  }

  lemma DueShared(o: Options, u: KernelState, c: KernelState, resolutions: nat)
    requires u.tick == c.tick && u.lastCheckpointTick == c.lastCheckpointTick
    ensures CheckpointDue(o, u, resolutions) == CheckpointDue(o, c, resolutions)
  {
  }

  lemma CheckpointRelated(o: Options, u: KernelState, c: KernelState, keys: set<Key>, bodies: seq<Body>, due: bool)
    requires LiveRelated(u, c, keys)
    ensures var ((ud, ub), (cd, cb)) := (WithCheckpoint(o, u, bodies, due), WithCheckpoint(o, c, bodies, due));
      && ub == cb && LiveRelated(ud, cd, keys) && SideKept(u, ud) && SideKept(c, cd)
      && (NoAccepts(bodies) ==> NoAccepts(ub))
  {
    SharedReads(u, c);
    assert Shared(u).(lastCheckpointTick := u.tick) == Shared(c).(lastCheckpointTick := u.tick);
  }

  lemma TimeoutMatched(o: Options, full: Session, kept: Session, h: Lookup, t: TimeoutInput, forced: Option<Action>)
    requires Related(full, kept, h)
    ensures Matched(full, kept, h, PrepareTimeout(o, full, t, forced), PrepareTimeout(o, kept, t, forced))
  {
    hide Related, Matched, ResolveOnce, TimeoutPrepared, LiveRelated;
    RelatedParts(full, kept, h);
    ErrorsMatch(full, kept, h);
    var u, c := full.kernel.live, kept.kernel.live;
    var keys := full.kernel.submissionKeys;
    RelatedShared(u, c, keys);
    var a := TimeoutAction(o, u, t, forced);
    assert a == TimeoutAction(o, c, t, forced);
    if a.Ok? && o.status(u.reducerState) == Playing {
      var system := [SystemInput(t, a.value)];
      ResolveOnceRelated(o, u, c, keys, full.backoff, TimedOut, system);
      SettledBody(o, u, full.backoff, TimedOut, system);
      var x, y := ResolveOnce(o, u, full.backoff, TimedOut, system), ResolveOnce(o, c, full.backoff, TimedOut, system);
      if x.Ok? { TimeoutResolved(o, full, kept, h, t, x.value, y.value); }
    }
  }

  lemma TimeoutResolved(o: Options, full: Session, kept: Session, h: Lookup, t: TimeoutInput, x: Resolved, y: Resolved)
    requires Related(full, kept, h)
    requires ResolvedRelated(full.kernel.live, kept.kernel.live, Ok(x), Ok(y), full.kernel.submissionKeys)
    requires x.Settled? ==> x.body.Resolution?
    ensures Matched(full, kept, h, Ok(TimeoutPrepared(o, full, t, x)), Ok(TimeoutPrepared(o, kept, t, y)))
  {
    hide Related, Matched, CheckpointDue, StateDigest, LiveRelated, Number, RecordKeys, RecordInterest, RejectionDeltas;
    RelatedParts(full, kept, h);
    var u, c := full.kernel.live, kept.kernel.live;
    var keys := full.kernel.submissionKeys;
    RelatedShared(u, c, keys);
    RelatedShared(x.draft, y.draft, keys);
    DueShared(o, x.draft, y.draft, 1);
    var second := if x.Declined? then Rejected(x.mismatch) else x.body;
    var due := x.Declined? || CheckpointDue(o, x.draft, 1);
    CheckpointRelated(o, x.draft, y.draft, keys, [NoticeFor(u, t), second], due);
    var (ud, bodies) := WithCheckpoint(o, x.draft, [NoticeFor(u, t), second], due);
    var (cd, _) := WithCheckpoint(o, y.draft, [NoticeFor(u, t), second], due);
    RelatedShared(ud, cd, keys);
    DigestShared(o, ud, cd);
    if x.Declined? {
      RejectionDeltasShared(o, x.draft, y.draft, x.draft.transitionRevision + 1, x.mismatch, x.draft.interestScopes);
    }
    NoAcceptsRecord(o, keys, full.kernel.interestCommands, u.transitionRevision + 1, bodies, 0);
    FinishRelated(o, full, kept, h, ud, cd, bodies,
      if x.Declined? then RejectionDeltas(o, x.draft, x.draft.transitionRevision + 1, x.mismatch,
        x.draft.interestScopes)
      else x.deltas,
      Advanced(if x.Declined? then 0 else 1, false, ud.cursor, ud.tick, StateDigest(o, ud)),
      if x.Declined? then full.backoff else x.backoff);
  }

  lemma ExtensionMatched(o: Options, full: Session, kept: Session, h: Lookup, lane: string, record: Json)
    requires Related(full, kept, h)
    ensures Matched(full, kept, h, PrepareExtension(o, full, lane, record), PrepareExtension(o, kept, lane, record))
  {
    hide Related, Matched, LiveRelated, Number, RecordKeys, RecordInterest;
    RelatedParts(full, kept, h);
    ErrorsMatch(full, kept, h);
    var u, c := full.kernel.live, kept.kernel.live;
    RelatedShared(u, c, full.kernel.submissionKeys);
    var b := Extension(u.tick, lane, record);
    NoAcceptsRecord(o, full.kernel.submissionKeys, full.kernel.interestCommands, u.transitionRevision + 1, [b], 0);
    FinishRelated(o, full, kept, h, u, c, [b], [], Extended, full.backoff);
  }

  lemma ControlMatched(o: Options, full: Session, kept: Session, h: Lookup, c: ControlInput)
    requires Related(full, kept, h)
    ensures Matched(full, kept, h, PrepareControl(o, NO_HISTORY, full, c), PrepareControl(o, h, kept, c))
  {
    hide Related, Matched, LiveRelated, ControlPrepared, NoChange, ApplyControl, FindReceipt;
    RelatedParts(full, kept, h);
    ErrorsMatch(full, kept, h);
    var u, k := full.kernel.live, kept.kernel.live;
    RelatedShared(u, k, full.kernel.submissionKeys);
    var key := Key(c.participantId, c.controlId);
    assert NO_HISTORY == Lookup({}, map[], map[]);
    if o.applyControl.Some? && key in u.controls {
      NoChangeMatched(o, full, kept, h, ControlDuplicate(u.controls[key].receipt),
        ControlDuplicate(if key in k.controls then k.controls[key].receipt
          else ControlReceipt(c.participantId, c.controlId, k.transitionRevision, k.cursor, k.tick)));
    } else if o.applyControl.Some? {
      ApplyControlRelated(o, u, k, full.kernel.submissionKeys, c);
      var x, y := ApplyControl(o, u, c), ApplyControl(o, k, c);
      if x.Some? { ControlPreparedMatched(o, full, kept, h, c, x.value, y.value); }
    }
  }

  /** A control that both kernels apply is prepared alike by both. */
  lemma ControlPreparedMatched(
    o: Options, full: Session, kept: Session, h: Lookup, c: ControlInput, x: KernelState, y: KernelState)
    requires Related(full, kept, h) && LiveRelated(x, y, full.kernel.submissionKeys)
    requires |x.interestScopes| == |full.kernel.live.interestScopes|
      && |y.interestScopes| == |kept.kernel.live.interestScopes|
    requires SideKept(full.kernel.live, x) && SideKept(kept.kernel.live, y)
    requires Key(c.participantId, c.controlId) !in full.kernel.live.controls
    ensures Matched(full, kept, h, Ok(ControlPrepared(o, full, c, x)), Ok(ControlPrepared(o, kept, c, y)))
  {
    hide Related, Matched, LiveRelated, Finish, Deltas, NextBackoff, Number, RecordKeys, RecordInterest;
    RelatedParts(full, kept, h);
    var u, k := full.kernel.live, kept.kernel.live;
    var keys := full.kernel.submissionKeys;
    RelatedShared(u, k, keys);
    RelatedShared(x, y, keys);
    var revision := u.transitionRevision + 1;
    var key := Key(c.participantId, c.controlId);
    var receipt := ControlReceipt(c.participantId, c.controlId, revision, u.cursor, u.tick);
    var entry := ControlEntry(o.text(c.control), receipt);
    var b := ControlTransition(u.tick, u.cursor, c.participantId, c.controlId, c.control, o.text(c.control));
    SetControls(x, y, keys, u.controls[key := entry], k.controls[key := entry]);
    NoAcceptsRecord(o, keys, full.kernel.interestCommands, revision, [b], 0);
    FinishRelated(o, full, kept, h, x.(controls := u.controls[key := entry]),
      y.(controls := k.controls[key := entry]), [b],
      Deltas(o, Delivery(FromControl, revision, u.tick, []), o.seats, u.interestScopes,
             x.interestScopes, x.viewRevisions, full.backoff),
      ControlAccepted(receipt), NextBackoff(o, u.interestScopes, x.interestScopes, full.backoff));
  }

  lemma SetControls(u: KernelState, c: KernelState, keys: set<Key>, uc: map<Key, ControlEntry>,
      cc: map<Key, ControlEntry>)
    requires LiveRelated(u, c, keys)
    ensures LiveRelated(u.(controls := uc), c.(controls := cc), keys)
  {
    assert Shared(u.(controls := uc)) == Shared(u) && Shared(c.(controls := cc)) == Shared(c);
  }

  lemma ApplyControlRelated(o: Options, u: KernelState, c: KernelState, keys: set<Key>, input: ControlInput)
    requires LiveRelated(u, c, keys) && o.applyControl.Some?
    ensures var (x, y) := (ApplyControl(o, u, input), ApplyControl(o, c, input));
      && (x.Some? <==> y.Some?)
      && (x.Some? ==> LiveRelated(x.value, y.value, keys) && SideKept(u, x.value) && SideKept(c, y.value))
  {
    hide Refresh, WindowFor;
    SharedReads(u, c);
    var state := (o.applyControl.value)(u.reducerState, input.control,
                   Context(input.participantId, input.controlId, u.cursor, u.tick));
    RefreshShared(o, u, c, state, u.cursor, u.tick);
  }

  lemma InterestMatched(o: Options, full: Session, kept: Session, h: Lookup, s: InterestSubmission)
    requires Related(full, kept, h)
    ensures Matched(full, kept, h, PrepareInterest(o, NO_HISTORY, full, s), PrepareInterest(o, h, kept, s))
  {
    hide Related, Matched, LiveRelated, Number, RecordKeys, RecordInterest, ScopedView, InterestText;
    RelatedParts(full, kept, h);
    ErrorsMatch(full, kept, h);
    var u, c := full.kernel.live, kept.kernel.live;
    var keys := full.kernel.submissionKeys;
    RelatedShared(u, c, keys);
    var key := Key(s.participantId, s.submissionId);
    assert NO_HISTORY == Lookup({}, map[], map[]);
    NoChangeMatched(o, full, kept, h, InterestDuplicate, InterestDuplicate);
    var scope := Declare(o, u, s.participantId, s.scopeId, s.declaration);
    if key !in full.kernel.interestCommands && key !in keys && scope.Some? {
      var b := InterestDeclared(u.tick, u.cursor, s.participantId, s.submissionId, s.scopeId, s.declaration,
                                InterestText(o, s.scopeId, s.declaration), s.seal);
      OneRecord(o, keys, full.kernel.interestCommands, u.transitionRevision + 1, b);
      SetScopes(u, c, keys, key, SetScope(u.interestScopes, scope.value));
      FinishRelated(o, full, kept, h,
        u.(interestScopes := SetScope(u.interestScopes, scope.value)),
        c.(interestScopes := SetScope(c.interestScopes, scope.value)), [b],
        [Delta(s.participantId, s.scopeId, Some(s.declaration), u.transitionRevision + 1,
               Revision(u.viewRevisions, s.participantId), u.tick, FromInterest, [], [],
               SnapshotBody(scope.value.view), o.viewDigest(o.text(scope.value.view)))],
        InterestAccepted,
        full.backoff[ScopeKey(s.participantId, s.scopeId) := Backoff(0, o.codec.patchBackoffTicks)]);
    }
  }

  lemma SetScopes(u: KernelState, c: KernelState, keys: set<Key>, key: Key, scopes: seq<Scope>)
    requires LiveRelated(u, c, keys)
    ensures LiveRelated(u.(interestScopes := scopes), c.(interestScopes := scopes), keys + {key})
  {
    assert Shared(u).(interestScopes := scopes) == Shared(c).(interestScopes := scopes);
  }

  /** Same request, same decision: accepted, duplicate or refused with the same error, the same
      events and deltas, and related states after the commit. */
  lemma DecisionsMatch(o: Options, full: Session, kept: Session, h: Lookup, r: Request)
    requires Related(full, kept, h) && WindowSound(full.kernel.live.window)
    ensures Matched(full, kept, h, Prepare(o, NO_HISTORY, full, r), Prepare(o, h, kept, r))
  {
    hide Related, Matched, PrepareIngest, PrepareAdvance, PrepareTimeout, PrepareExtension, PrepareControl,
         PrepareInterest;
    match r
    case Ingest(s) => IngestMatched(o, full, kept, h, s);
    case Advance(target) => AdvanceMatched(o, full, kept, h, target);
    case Timeout(t, forced) => TimeoutMatched(o, full, kept, h, t, forced);
    case Extend(lane, record) => ExtensionMatched(o, full, kept, h, lane, record);
    case Control(c) => ControlMatched(o, full, kept, h, c);
    case Interest(s) => InterestMatched(o, full, kept, h, s);
  }

  // ---- Compacting, and whole runs ----

  /** The host's history answers exactly what the full kernel's permanent indexes hold. The
      gameplay lookup covers interest ids too: they share the submission namespace. */
  ghost predicate Answers(h: Lookup, full: Session) {
    && h.gameplay == full.kernel.submissionKeys
    && h.interest == full.kernel.interestCommands
    && h.control.Keys == full.kernel.live.controls.Keys
    && forall key :: key in h.control ==> h.control[key] == full.kernel.live.controls[key].canonicalControl
  }

  lemma UncompactedRelated(full: Session)
    requires KnownKeys(full.kernel.live, full.kernel.submissionKeys)
    requires full.kernel.interestCommands.Keys <= full.kernel.submissionKeys
    ensures Related(full, full, NO_HISTORY)
  {
    assert NO_HISTORY == Lookup({}, map[], map[]);
    assert full.kernel.submissionKeys + {} == full.kernel.submissionKeys;
  }

  /** However often a kernel was compacted before, compacting it again keeps it related to the full
      one, as long as the history by then answers for everything. */
  lemma CompactRelated(full: Session, kept: Session, h: Lookup, history: Lookup)
    requires Related(full, kept, h) && Answers(history, full)
    requires forall i :: 0 <= i < |full.kernel.live.rejectionHistory| ==>
      full.kernel.live.rejectionHistory[i].transitionRevision <= full.kernel.live.transitionRevision
    ensures Related(full, Compacted(kept), history)
  {
    var u, c := full.kernel.live, kept.kernel.live;
    SharedReads(u, c);
    var after := Compacted(kept).kernel.live;
    assert Shared(after) == Shared(c);
    assert {} + history.gameplay == history.gameplay;
    assert u.rejectionHistory[|u.rejectionHistory|..] == [];
  }

  /** What a host's store answers when it holds exactly the identities of a session. */
  function AnswersOf(session: Session): Lookup {
    var k := session.kernel;
    Lookup(k.submissionKeys, k.interestCommands, map key | key in k.live.controls ::
      k.live.controls[key].canonicalControl)
  }

  /** `answers` knows everything `h` knows, and nothing the full kernel does not. */
  ghost predicate Between(h: Lookup, answers: Lookup, full: Session) {
    && h.gameplay <= answers.gameplay <= full.kernel.submissionKeys
    && h.interest.Keys <= answers.interest.Keys
    && (forall key :: key in answers.interest ==>
          key in full.kernel.interestCommands && answers.interest[key] == full.kernel.interestCommands[key])
    && h.control.Keys <= answers.control.Keys
    && forall key :: key in answers.control ==>
         key in full.kernel.live.controls && answers.control[key] == full.kernel.live.controls[key].canonicalControl
  }

  /** A lookup may learn of committed identities at any time. */
  lemma LookupGrowsRelated(full: Session, kept: Session, h: Lookup, answers: Lookup)
    requires Related(full, kept, h) && Between(h, answers, full)
    ensures Related(full, kept, answers)
  {
    assert full.kernel.submissionKeys == kept.kernel.submissionKeys + answers.gameplay;
  }

  /** A store that answers for every identity committed so far is always such a lookup, and answers
      for everything a compaction needs. */
  lemma LiveStoreBetween(full: Session, kept: Session, h: Lookup)
    requires Related(full, kept, h)
    ensures Between(h, AnswersOf(full), full) && Answers(AnswersOf(full), full)
  {
  }

  /** Requests interleaved with compactions, each with the history the host had by then, and with a
      lookup that learns of identities in between. */
  datatype HostStep = Do(request: Request) | CompactWith(history: Lookup) | LookupGrows(answers: Lookup)

  function NextLookup(h: Lookup, step: HostStep): Lookup {
    match step case Do(_) => h case CompactWith(history) => history case LookupGrows(answers) => answers
  }

  ghost function RunCompacting(o: Options, kept: Session, h: Lookup, steps: seq<HostStep>): Session
    decreases |steps|
  {
    if steps == [] then kept
    else
      var next := match steps[0]
        case Do(r) => Step(o, h, kept, r)
        case CompactWith(_) => Compacted(kept)
        case LookupGrows(_) => kept;
      RunCompacting(o, next, NextLookup(h, steps[0]), steps[1..])
  }

  ghost function FinalLookup(h: Lookup, steps: seq<HostStep>): Lookup
    decreases |steps|
  {
    if steps == [] then h else FinalLookup(NextLookup(h, steps[0]), steps[1..])
  }

  function Requests(steps: seq<HostStep>): seq<Request> {
    if steps == [] then []
    else (if steps[0].Do? then [steps[0].request] else []) + Requests(steps[1..])
  }

  /** Every compaction is given a history that answers for the full kernel at that point, and the
      lookup never forgets or invents an identity. */
  ghost predicate FaithfulHistories(o: Options, full: Session, h: Lookup, steps: seq<HostStep>)
    decreases |steps|
  {
    steps == []
    || match steps[0]
       case Do(r) => FaithfulHistories(o, Step(o, NO_HISTORY, full, r), h, steps[1..])
       case CompactWith(history) => Answers(history, full) && FaithfulHistories(o, full, history, steps[1..])
       case LookupGrows(answers) => Between(h, answers, full) && FaithfulHistories(o, full, answers, steps[1..])
  }

  /** For every run with any number of compactions and any faithful lookup: the compacted kernel
      stays related to the one that was never compacted, so every further decision and delta is the
      same. */
  lemma {:induction false} CompactionBisimulation(o: Options, full: Session, kept: Session, h: Lookup,
      steps: seq<HostStep>)
    requires Related(full, kept, h) && Checkpointable(o, full) && full.retentionFloor == 0
    requires FaithfulHistories(o, full, h, steps)
    ensures Related(Run(o, NO_HISTORY, full, Requests(steps)), RunCompacting(o, kept, h, steps), FinalLookup(h, steps))
    decreases |steps|
  {
    hide Related, Checkpointable, Step, Answers, Between, Run, Requests, Compacted;
    if steps == [] {
      assert Run(o, NO_HISTORY, full, Requests(steps)) == full by { NothingRequested(o, full); }
    } else {
      var rest := steps[1..];
      RequestsHead(o, full, steps);
      match steps[0]
      case Do(r) =>
        RequestRelated(o, full, kept, h, r);
        CompactionBisimulation(o, Step(o, NO_HISTORY, full, r), Step(o, h, kept, r), h, rest);
      case CompactWith(history) =>
        HistoryBounded(o, full);
        CompactRelated(full, kept, h, history);
        CompactionBisimulation(o, full, Compacted(kept), history, rest);
      case LookupGrows(answers) =>
        LookupGrowsRelated(full, kept, h, answers);
        CompactionBisimulation(o, full, kept, answers, rest);
    }
  }

  lemma RequestRelated(o: Options, full: Session, kept: Session, h: Lookup, r: Request)
    requires Related(full, kept, h) && Checkpointable(o, full) && full.retentionFloor == 0
    ensures var next := Step(o, NO_HISTORY, full, r);
      Related(next, Step(o, h, kept, r), h) && Checkpointable(o, next) && next.retentionFloor == 0
  {
    hide Related, Checkpointable, Prepare, Matched;
    CheckpointableInStep(o, full);
    InStepSound(o, full.kernel.live);
    DecisionsMatch(o, full, kept, h, r);
    StepCheckpointable(o, NO_HISTORY, full, r);
    StepRelated(o, full, kept, h, r);
  }

  lemma NothingRequested(o: Options, full: Session)
    ensures Run(o, NO_HISTORY, full, Requests([])) == full
  {
  }

  lemma RequestsHead(o: Options, full: Session, steps: seq<HostStep>)
    requires steps != []
    ensures Run(o, NO_HISTORY, full, Requests(steps))
            == Run(o, NO_HISTORY, if steps[0].Do? then Step(o, NO_HISTORY, full, steps[0].request) else full,
                   Requests(steps[1..]))
  {
    hide Step;
    var rest := Requests(steps[1..]);
    if steps[0].Do? {
      assert Requests(steps) == [steps[0].request] + rest && ([steps[0].request] + rest)[1..] == rest;
    } else {
      assert Requests(steps) == rest;
    }
  }

  /** The same from the start of a session, whatever is requested and whenever it is compacted. */
  lemma EveryCompactedRun(o: Options, steps: seq<HostStep>)
    requires ValidOptions(o) && FaithfulHistories(o, Open(o), NO_HISTORY, steps)
    ensures Related(Run(o, NO_HISTORY, Open(o), Requests(steps)), RunCompacting(o, Open(o), NO_HISTORY, steps),
                    FinalLookup(NO_HISTORY, steps))
  {
    hide Checkpointable, Run;
    OpenCheckpointable(o);
    UncompactedRelated(Open(o));
    CompactionBisimulation(o, Open(o), Open(o), NO_HISTORY, steps);
  }

  // ---- Checkpoints of compacted kernels ----

  /** What compaction keeps can be checkpointed. */
  lemma CompactedCheckpointable(o: Options, session: Session)
    requires Checkpointable(o, session)
    ensures Checkpointable(o, Compacted(session))
  {
    hide WindowSound, ParticipantsValid, StateDigest;
  }

  lemma {:induction false} RunCompactingCheckpointable(o: Options, kept: Session, h: Lookup, steps: seq<HostStep>)
    requires Checkpointable(o, kept)
    ensures Checkpointable(o, RunCompacting(o, kept, h, steps))
    decreases |steps|
  {
    hide Checkpointable, Step, Compacted;
    if steps != [] {
      match steps[0]
      case Do(r) =>
        StepCheckpointable(o, h, kept, r);
        RunCompactingCheckpointable(o, Step(o, h, kept, r), h, steps[1..]);
      case CompactWith(history) =>
        CompactedCheckpointable(o, kept);
        RunCompactingCheckpointable(o, Compacted(kept), history, steps[1..]);
      case LookupGrows(answers) => RunCompactingCheckpointable(o, kept, answers, steps[1..]);
    }
  }

  /** How a host recovers after compacting: at any point of a run with compactions, the checkpoint
      plus the events logged since is accepted exactly when the audit knows their timeouts, and
      rebuilds the compacted kernel. */
  lemma CompactedKernelRecovers(o: Options, steps: seq<HostStep>, after: seq<Request>)
    requires ValidOptions(o)
    ensures var split := RunCompacting(o, Open(o), NO_HISTORY, steps);
      var end := Run(o, FinalLookup(NO_HISTORY, steps), split, after).kernel;
      && split.kernel.live.events <= end.live.events
      && var tail := end.live.events[|split.kernel.live.events|..];
      var rebuilt := RehydrateFromCheckpoint(o, CheckpointOf(o, split), tail);
      && Contiguous(o, split.kernel.live.transitionRevision + 1, 0, tail, false)
      && (rebuilt.Some? <==> Auditable(o, tail))
      && (rebuilt.Some? ==> Alike(rebuilt.value, end))
  {
    hide Run, RunCompacting, Checkpointable, RehydrateFromCheckpoint, CheckpointOf, Contiguous, Auditable, Alike, Open,
         FinalLookup;
    OpenCheckpointable(o);
    RunCompactingCheckpointable(o, Open(o), NO_HISTORY, steps);
    CheckpointThenRun(o, FinalLookup(NO_HISTORY, steps), RunCompacting(o, Open(o), NO_HISTORY, steps), after);
  }

  lemma StepRelated(o: Options, full: Session, kept: Session, h: Lookup, r: Request)
    requires Related(full, kept, h) && Matched(full, kept, h, Prepare(o, NO_HISTORY, full, r), Prepare(o, h, kept, r))
    ensures Related(Step(o, NO_HISTORY, full, r), Step(o, h, kept, r), h)
    ensures Step(o, NO_HISTORY, full, r).retentionFloor == full.retentionFloor
  {
    hide Related, Prepare;
    var p := Prepare(o, NO_HISTORY, full, r);
    if p.Ok? { FloorKept(full, p.value); }
  }

  lemma HistoryBounded(o: Options, full: Session)
    requires Checkpointable(o, full)
    ensures forall i :: 0 <= i < |full.kernel.live.rejectionHistory| ==>
      full.kernel.live.rejectionHistory[i].transitionRevision <= full.kernel.live.transitionRevision
  {
  }

  // ---- Snapshots ----

  datatype Snapshot = ResyncRequired(floor: nat, current: nat) | Snap(delta: Delta)

  function NoticesSince(history: seq<Rejection>, after: int): seq<Rejection> {
    if history == [] then []
    else (if history[0].transitionRevision > after then [history[0]] else []) + NoticesSince(history[1..], after)
  }

  /** `snapshot(seat, afterTransitionRevision, scopeId)` */
  function SnapshotAt(o: Options, session: Session, seat: Seat, scopeId: string, after: int): Result<Snapshot> {
    var live := session.kernel.live;
    var scope := FindScope(live.interestScopes, ScopeKey(seat, scopeId));
    if after < 0 || after > live.transitionRevision then Err(Malformed)
    else if after < session.retentionFloor then Ok(ResyncRequired(session.retentionFloor, live.transitionRevision))
    else if scope.None? then Err(Malformed)
    else Ok(Snap(Delta(seat, scopeId, if scope.value.declared then Some(scope.value.declaration) else None,
      live.transitionRevision, Revision(live.viewRevisions, seat), live.tick, FromSnapshot, [],
      NoticesSince(live.rejectionHistory, after), SnapshotBody(scope.value.view),
        o.viewDigest(o.text(scope.value.view)))))
  }

  lemma {:induction false} NoticesSkip(full: seq<Rejection>, n: nat, after: int)
    requires n <= |full| && forall i :: 0 <= i < n ==> full[i].transitionRevision <= after
    ensures NoticesSince(full, after) == NoticesSince(full[n..], after)
    decreases n
  {
    if n > 0 {
      NoticesSkip(full[1..], n - 1, after);
      assert full[1..][n - 1..] == full[n..];
    }
  }

  /** A compacted kernel serves the same snapshots, except those from before its retention floor. */
  lemma SnapshotsMatch(o: Options, full: Session, kept: Session, h: Lookup, seat: Seat, scopeId: string, after: int)
    requires Related(full, kept, h) && full.retentionFloor == 0
      && kept.retentionFloor <= kept.kernel.live.transitionRevision
    ensures var (x, y) := (SnapshotAt(o, full, seat, scopeId, after), SnapshotAt(o, kept, seat, scopeId, after));
      if 0 <= after < kept.retentionFloor
      then y == Ok(ResyncRequired(kept.retentionFloor, full.kernel.live.transitionRevision))
      else x == y
  {
    var u, c := full.kernel.live, kept.kernel.live;
    SharedReads(u, c);
    if after >= kept.retentionFloor {
      NoticesSkip(u.rejectionHistory, |u.rejectionHistory| - |c.rejectionHistory|, after);
    }
  }

  /** Compaction drops only history that the checkpoint handed to it restores. */
  lemma CompactRecoverable(
    o: Options, session: Session, checkpoint: KernelCheckpoint, confirmation: Confirmation, kind: LookupKind)
    requires Checkpointable(o, session) && Compact(o, session, checkpoint, confirmation, kind).Ok?
    ensures Compact(o, session, checkpoint, confirmation, kind) == Ok(Compacted(session))
    ensures Restore(o, checkpoint).Some? && Alike(Restore(o, checkpoint).value.kernel, session.kernel)
    ensures confirmation.checkpointDurable && confirmation.historyDurable && kind != NoLookup
  {
    hide Checkpointable, Restore, Alike, Compacted;
    RestoreAlike(o, session);
  }
}
