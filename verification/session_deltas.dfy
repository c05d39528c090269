/** A client that applies every published observation delta of a scope ends with exactly the
    kernel's current view of it, whatever mix of patches, snapshots and unchanged notices it saw
    (`applyObservationDelta` against `encodedObservation` in src/session.ts). */
module SessionDeltas {
  import opened CanonicalJson
  import opened CanonicalText
  import opened Utf8
  import opened Wrappers
  import opened ObservationCodec
  import opened BoundedDiff
  import opened SessionTypes
  import opened SessionSpec
  import opened SessionAlike
  import opened SessionCheckpoint

  /** What a client of one scope holds. */
  datatype Client = Unseen | Seen(view: Json) | Broken

  /** `applyObservationDelta`: Broken is any thrown error, including a digest mismatch. */
  function ApplyDelta(o: Options, client: Client, delta: Delta): Client {
    var next :=
      match delta.body
      case SnapshotBody(view) => Seen(view)
      case UnchangedBody => if client.Seen? then client else Broken
      case PatchBody(ops) =>
        if !client.Seen? then Broken
        else match Apply(client.view, ops) case Some(v) => Seen(v) case None => Broken;
    if next.Seen? && o.viewDigest(o.text(next.view)) != delta.viewDigest then Broken else next
  }

  /** The client of scope `key` follows every delta addressed to it. */
  function Follow(o: Options, key: ScopeKey, client: Client, deltas: seq<Delta>): Client
    decreases |deltas|
  {
    if deltas == [] || client.Broken? then client
    else
      var d := deltas[0];
      Follow(o, key, if ScopeKey(d.seat, d.scopeId) == key then ApplyDelta(o, client, d) else client, deltas[1..])
  }

  lemma {:induction false} FollowAppend(o: Options, key: ScopeKey, client: Client, a: seq<Delta>, b: seq<Delta>)
    ensures Follow(o, key, client, a + b) == Follow(o, key, Follow(o, key, client, a), b)
    decreases |a|
  {
    if a == [] {
      assert a + b == b;
    } else if !client.Broken? {
      assert (a + b)[1..] == a[1..] + b;
      var next := if ScopeKey(a[0].seat, a[0].scopeId) == key then ApplyDelta(o, client, a[0]) else client;
      FollowAppend(o, key, next, a[1..], b);
    }
  }

  function Holds(scopes: seq<Scope>, key: ScopeKey): Client {
    match FindScope(scopes, key) case Some(s) => Seen(s.view) case None => Unseen
  }

  /** The one property of the canonical text the "unchanged" test relies on. */
  ghost predicate TextInjective(o: Options) {
    forall a, b {:trigger o.text(a), o.text(b)} :: o.text(a) == o.text(b) ==> a == b
  }

  /** `canonicalJson` has it. */
  lemma CanonicalTextInjective(o: Options)
    requires forall v :: o.text(v) == Canonical(v)
    ensures TextInjective(o)
  {
    forall a, b | o.text(a) == o.text(b) ensures a == b { CanonicalInjective(a, b); }
  }

  /** Whatever body the adaptive encoder picked, it takes the old view to the new one. */
  lemma ScopeDeltaApplies(
    o: Options, d: Delivery, before: Scope, after: Scope, revisions: map<Seat, nat>, backoff: map<ScopeKey, Backoff>)
    requires TextInjective(o)
    ensures ApplyDelta(o, Seen(before.view), ScopeDelta(o, d, before, after, revisions, backoff)) == Seen(after.view)
  {
    hide BoundedResult, Utf8Length, PatchBudget;
    var c := o.codec;
    var budget := Min(c.maxBytes, PatchBudget(c, Utf8Length(o.text(after.view))));
    BoundedPatchExact(before.view, after.view, c.maxOperations, budget);
  }

  /** The lists before and after a refresh hold the same scopes in the same places. */
  ghost predicate Parallel(before: seq<Scope>, after: seq<Scope>) {
    |before| == |after| && forall i :: 0 <= i < |before| ==> KeyOf(before[i]) == KeyOf(after[i])
  }

  lemma {:induction false} FindAt(scopes: seq<Scope>, i: nat)
    requires UniqueScopes(scopes) && i < |scopes|
    ensures FindScope(scopes, KeyOf(scopes[i])) == Some(scopes[i])
  {
    if i > 0 { FindAt(scopes[1..], i - 1); }
  }

  lemma {:induction false} FindNone(scopes: seq<Scope>, key: ScopeKey)
    ensures FindScope(scopes, key).None? <==> forall i :: 0 <= i < |scopes| ==> KeyOf(scopes[i]) != key
  {
    if scopes != [] {
      FindNone(scopes[1..], key);
      if KeyOf(scopes[0]) != key && FindScope(scopes, key).Some? {
        var i :| 0 <= i < |scopes[1..]| && KeyOf(scopes[1..][i]) == key;
        assert KeyOf(scopes[i + 1]) == key;
      }
    }
  }

  /** One seat's deltas leave other scopes alone and update its own scope `key` once. */
  lemma {:induction false} SeatDeltasFollow(
    o: Options, d: Delivery, seat: Seat, before: seq<Scope>, after: seq<Scope>, revisions: map<Seat, nat>,
    backoff: map<ScopeKey, Backoff>, key: ScopeKey, client: Client)
    requires Parallel(before, after) && UniqueScopes(before) && TextInjective(o)
    requires FindScope(before, key).Some? ==> client == Holds(before, key)
    ensures Follow(o, key, client, SeatDeltas(o, d, seat, before, after, revisions, backoff))
         == if seat == key.participantId && FindScope(before, key).Some? then Holds(after, key) else client
  {
    hide ScopeDelta, ApplyDelta;
    if before != [] {
      var rest := SeatDeltas(o, d, seat, before[1..], after[1..], revisions, backoff);
      if after[0].participantId == seat {
        var first := ScopeDelta(o, d, before[0], after[0], revisions, backoff);
        ScopeDeltaKey(o, d, before[0], after[0], revisions, backoff);
        assert ([first] + rest)[1..] == rest;
        ScopeDeltaApplies(o, d, before[0], after[0], revisions, backoff);
      }
      if KeyOf(before[0]) == key {
        FindNone(before[1..], key);
        var next := if after[0].participantId == seat then Seen(after[0].view) else client;
        SeatDeltasFollow(o, d, seat, before[1..], after[1..], revisions, backoff, key, next);
      } else {
        SeatDeltasFollow(o, d, seat, before[1..], after[1..], revisions, backoff, key, client);
      }
    }
  }

  lemma ScopeDeltaKey(
    o: Options, d: Delivery, before: Scope, after: Scope, revisions: map<Seat, nat>, backoff: map<ScopeKey, Backoff>)
    ensures var delta := ScopeDelta(o, d, before, after, revisions, backoff);
      ScopeKey(delta.seat, delta.scopeId) == KeyOf(after)
  {
  }

  lemma {:induction false} DeltasSkip(
    o: Options, d: Delivery, seats: seq<Seat>, before: seq<Scope>, after: seq<Scope>, revisions: map<Seat, nat>,
    backoff: map<ScopeKey, Backoff>, key: ScopeKey, client: Client)
    requires Parallel(before, after) && UniqueScopes(before) && TextInjective(o)
    requires key.participantId !in seats || FindScope(before, key).None?
    ensures Follow(o, key, client, Deltas(o, d, seats, before, after, revisions, backoff)) == client
  {
    hide SeatDeltas;
    if seats != [] {
      SeatDeltasSkip(o, d, seats[0], before, after, revisions, backoff, key, client);
      FollowAppend(o, key, client, SeatDeltas(o, d, seats[0], before, after, revisions, backoff),
        Deltas(o, d, seats[1..], before, after, revisions, backoff));
      DeltasSkip(o, d, seats[1..], before, after, revisions, backoff, key, client);
    }
  }

  lemma {:induction false} SeatDeltasSkip(
    o: Options, d: Delivery, seat: Seat, before: seq<Scope>, after: seq<Scope>, revisions: map<Seat, nat>,
    backoff: map<ScopeKey, Backoff>, key: ScopeKey, client: Client)
    requires Parallel(before, after)
    requires seat != key.participantId || FindScope(before, key).None?
    ensures Follow(o, key, client, SeatDeltas(o, d, seat, before, after, revisions, backoff)) == client
  {
    hide ScopeDelta, ApplyDelta;
    if before != [] {
      var rest := SeatDeltas(o, d, seat, before[1..], after[1..], revisions, backoff);
      var first := ScopeDelta(o, d, before[0], after[0], revisions, backoff);
      ScopeDeltaKey(o, d, before[0], after[0], revisions, backoff);
      assert ([first] + rest)[1..] == rest;
      SeatDeltasSkip(o, d, seat, before[1..], after[1..], revisions, backoff, key, client);
    }
  }

  /** The deltas of a refresh take every scope's client from its old view to its new one. */
  lemma {:induction false} DeltasFollow(
    o: Options, d: Delivery, seats: seq<Seat>, before: seq<Scope>, after: seq<Scope>, revisions: map<Seat, nat>,
    backoff: map<ScopeKey, Backoff>, key: ScopeKey)
    requires Parallel(before, after) && UniqueScopes(before) && TextInjective(o)
    requires NoRepeats(seats) && (FindScope(before, key).Some? ==> key.participantId in seats)
    ensures Follow(o, key, Holds(before, key), Deltas(o, d, seats, before, after, revisions, backoff))
      == Holds(after, key)
  {
    hide SeatDeltas;
    ParallelFind(before, after, key);
    if FindScope(before, key).None? {
      DeltasSkip(o, d, seats, before, after, revisions, backoff, key, Unseen);
    } else if seats != [] {
      var first, rest := SeatDeltas(o, d, seats[0], before, after, revisions, backoff),
                         Deltas(o, d, seats[1..], before, after, revisions, backoff);
      SeatDeltasFollow(o, d, seats[0], before, after, revisions, backoff, key, Holds(before, key));
      FollowAppend(o, key, Holds(before, key), first, rest);
      assert seats == [seats[0]] + seats[1..];
      if seats[0] == key.participantId {
        DeltasSkip(o, d, seats[1..], before, after, revisions, backoff, key, Holds(after, key));
      } else {
        DeltasFollow(o, d, seats[1..], before, after, revisions, backoff, key);
      }
    }
  }

  lemma {:induction false} ParallelFind(before: seq<Scope>, after: seq<Scope>, key: ScopeKey)
    requires Parallel(before, after)
    ensures FindScope(before, key).None? <==> FindScope(after, key).None?
  {
    if before != [] { ParallelFind(before[1..], after[1..], key); }
  }

  lemma {:induction false} RejectionDeltasFollow(
    o: Options, draft: KernelState, revision: nat, m: CommitMismatch, scopes: seq<Scope>, key: ScopeKey, client: Client)
    requires UniqueScopes(scopes)
    requires client == Holds(scopes, key) || FindScope(scopes, key).None?
    ensures Follow(o, key, client, RejectionDeltas(o, draft, revision, m, scopes)) == client
  {
    if scopes != [] {
      var deltas := RejectionDeltas(o, draft, revision, m, scopes);
      assert deltas[1..] == RejectionDeltas(o, draft, revision, m, scopes[1..]);
      if KeyOf(scopes[0]) == key { FindNone(scopes[1..], key); }
      RejectionDeltasFollow(o, draft, revision, m, scopes[1..], key, client);
    }
  }

  // ---- Transitions ----

  /** Scopes are uniquely named and belong to the session's seats. */
  ghost predicate Seated(o: Options, scopes: seq<Scope>) {
    && UniqueScopes(scopes) && NoRepeats(o.seats)
    && forall i :: 0 <= i < |scopes| ==> scopes[i].participantId in o.seats
  }

  lemma SeatedKey(o: Options, scopes: seq<Scope>, key: ScopeKey)
    requires Seated(o, scopes) && FindScope(scopes, key).Some?
    ensures key.participantId in o.seats
  {
    FindNone(scopes, key);
  }

  lemma RefreshParallel(o: Options, live: KernelState, state: GameState, cursor: nat, tick: nat)
    requires Seated(o, live.interestScopes)
    ensures var r := Refresh(o, live, state, cursor, tick);
      r.Some? ==> Parallel(live.interestScopes, r.value.interestScopes) && Seated(o, r.value.interestScopes)
  {
    hide RefreshScopes;
    RefreshEach(o, live.interestScopes, ViewsOf(o, state), cursor, tick);
    var r := RefreshScopes(o, live.interestScopes, ViewsOf(o, state), cursor, tick);
    if r.Some? {
      forall i, j | 0 <= i < j < |r.value| ensures KeyOf(r.value[i]) != KeyOf(r.value[j]) {
        assert KeyOf(r.value[i]) == KeyOf(live.interestScopes[i]) && KeyOf(r.value[j]) == KeyOf(live.interestScopes[j]);
      }
      forall i | 0 <= i < |r.value| ensures r.value[i].participantId in o.seats {
        assert KeyOf(r.value[i]) == KeyOf(live.interestScopes[i]);
      }
    }
  }

  /** Clients that held the views of `before` and follow `deltas` hold those of `after`. */
  ghost predicate Carries(o: Options, before: seq<Scope>, deltas: seq<Delta>, after: seq<Scope>) {
    forall key :: Follow(o, key, Holds(before, key), deltas) == Holds(after, key)
  }

  lemma DeltasCarry(
    o: Options, d: Delivery, before: seq<Scope>, after: seq<Scope>, revisions: map<Seat, nat>,
    backoff: map<ScopeKey, Backoff>)
    requires Parallel(before, after) && Seated(o, before) && TextInjective(o)
    ensures Carries(o, before, Deltas(o, d, o.seats, before, after, revisions, backoff), after)
  {
    forall key ensures Follow(o, key, Holds(before, key), Deltas(o, d, o.seats, before, after, revisions, backoff))
      == Holds(after, key) {
      if FindScope(before, key).Some? { SeatedKey(o, before, key); }
      DeltasFollow(o, d, o.seats, before, after, revisions, backoff, key);
    }
  }

  lemma CarriesThen(o: Options, a: seq<Scope>, d: seq<Delta>, b: seq<Scope>, e: seq<Delta>, c: seq<Scope>)
    requires Carries(o, a, d, b) && Carries(o, b, e, c)
    ensures Carries(o, a, d + e, c)
  {
    forall key ensures Follow(o, key, Holds(a, key), d + e) == Holds(c, key) {
      FollowAppend(o, key, Holds(a, key), d, e);
    }
  }

  lemma CarriesNothing(o: Options, a: seq<Scope>)
    ensures Carries(o, a, [], a)
  {
  }

  lemma RejectionsCarry(o: Options, draft: KernelState, revision: nat, m: CommitMismatch)
    requires Seated(o, draft.interestScopes)
    ensures Carries(o, draft.interestScopes, RejectionDeltas(o, draft, revision, m, draft.interestScopes),
      draft.interestScopes)
  {
    var scopes := draft.interestScopes;
    forall key ensures Follow(o, key, Holds(scopes, key), RejectionDeltas(o, draft, revision, m, scopes))
      == Holds(scopes, key) {
      RejectionDeltasFollow(o, draft, revision, m, scopes, key, Holds(scopes, key));
    }
  }

  lemma ResolveOnceCarries(o: Options, live: KernelState, backoff: map<ScopeKey, Backoff>, cause: Cause,
      forced: seq<CanonicalInput>)
    requires Seated(o, live.interestScopes) && TextInjective(o)
    ensures var r := ResolveOnce(o, live, backoff, cause, forced);
      r.Ok? ==>
        && Seated(o, r.value.draft.interestScopes)
        && (r.value.Declined? ==> r.value.draft.interestScopes == live.interestScopes)
        && (r.value.Settled? ==> Carries(o, live.interestScopes, r.value.deltas, r.value.draft.interestScopes))
  {
    hide Resolve, Deltas, NextBackoff, MapIntents, Carries, Seated, TextInjective;
    var intents := WindowIntents(live.window.participants, live.window.intents);
    var m := MapIntents(o, live, BooksOf(live), intents);
    if m.Mapped? {
      var inputs := m.inputs + forced;
      ResolveParallel(o, WithBooks(live, m.books), inputs, live.cursor, live.tick);
      var draft := Resolve(o, WithBooks(live, m.books), inputs, live.cursor, live.tick);
      if draft.Some? {
        DeltasCarry(o, Delivery(FromResolution, live.transitionRevision + 1, draft.value.tick, Acknowledged(inputs)),
          live.interestScopes, draft.value.interestScopes, draft.value.viewRevisions, backoff);
      }
    }
  }

  lemma ResolveParallel(o: Options, live: KernelState, inputs: seq<CanonicalInput>, cursor: nat, tick: nat)
    requires Seated(o, live.interestScopes)
    ensures var r := Resolve(o, live, inputs, cursor, tick);
      r.Some? ==> Parallel(live.interestScopes, r.value.interestScopes) && Seated(o, r.value.interestScopes)
  {
    hide Refresh, WindowFor, Fresh, Expire;
    RefreshParallel(o, live, o.advance(live.reducerState, Actions(inputs)), cursor + 1, tick + 1);
  }

  lemma {:induction false} CatchUpCarries(o: Options, live: KernelState, backoff: map<ScopeKey, Backoff>, count: nat)
    requires Seated(o, live.interestScopes) && TextInjective(o)
    ensures var r := CatchUp(o, live, backoff, count);
      r.Ok? ==>
        && Seated(o, r.value.draft.interestScopes)
        && Carries(o, live.interestScopes, r.value.deltas, r.value.draft.interestScopes)
    decreases count
  {
    hide ResolveOnce, Carries, Seated, TextInjective, Halts, RejectionDeltas;
    CarriesNothing(o, live.interestScopes);
    if count > 0 {
      var cause := CauseOf(o, live.window);
      ResolveOnceCarries(o, live, backoff, cause, []);
      var r := ResolveOnce(o, live, backoff, cause, []);
      if r.Ok? && r.value.Declined? {
        RejectionsCarry(o, r.value.draft, r.value.draft.transitionRevision + 1, r.value.mismatch);
      } else if r.Ok? && !Halts(o, r.value.draft) {
        CatchUpCarries(o, r.value.draft, r.value.backoff, count - 1);
        var rest := CatchUp(o, r.value.draft, r.value.backoff, count - 1);
        if rest.Ok? {
          CarriesThen(o, live.interestScopes, r.value.deltas, r.value.draft.interestScopes, rest.value.deltas,
            rest.value.draft.interestScopes);
        }
      }
    }
  }

  ghost predicate DeltasAgree(o: Options, session: Session, p: Prepared) {
    var after := Commit(session, p).kernel.live.interestScopes;
    && Seated(o, after)
    && Carries(o, session.kernel.live.interestScopes, p.deltas, after)
  }

  lemma AdvanceDeltas(o: Options, session: Session, target: Option<int>)
    requires Seated(o, session.kernel.live.interestScopes) && TextInjective(o)
    ensures var p := PrepareAdvance(o, session, target); p.Ok? ==> DeltasAgree(o, session, p.value)
  {
    hide CatchUp, CheckpointDue, StateDigest, Carries, Seated, TextInjective, Number, RecordKeys, RecordInterest;
    var live := session.kernel.live;
    var demand := DemandOf(o, live, target);
    if demand.Ok? {
      CatchUpCarries(o, live, session.backoff, demand.value.count);
      NoCatchUp(o, live, session.backoff);
    }
  }

  lemma NoCatchUp(o: Options, live: KernelState, backoff: map<ScopeKey, Backoff>)
    ensures CatchUp(o, live, backoff, 0) == Ok(Progress(live, [], [], backoff, 0, false))
  {
  }

  lemma TimeoutDeltas(o: Options, session: Session, t: TimeoutInput, forced: Option<Action>)
    requires Seated(o, session.kernel.live.interestScopes) && TextInjective(o)
    ensures var p := PrepareTimeout(o, session, t, forced); p.Ok? ==> DeltasAgree(o, session, p.value)
  {
    hide ResolveOnce, TimeoutAction, CheckpointDue, StateDigest, Carries, Seated, TextInjective, RejectionDeltas,
         Number, RecordKeys, RecordInterest;
    var live := session.kernel.live;
    var a := TimeoutAction(o, live, t, forced);
    if a.Ok? {
      ResolveOnceCarries(o, live, session.backoff, TimedOut, [SystemInput(t, a.value)]);
      var r := ResolveOnce(o, live, session.backoff, TimedOut, [SystemInput(t, a.value)]);
      if r.Ok? && r.value.Declined? {
        RejectionsCarry(o, r.value.draft, r.value.draft.transitionRevision + 1, r.value.mismatch);
      }
    }
  }

  lemma ControlDeltas(o: Options, h: Lookup, session: Session, c: ControlInput)
    requires Seated(o, session.kernel.live.interestScopes) && TextInjective(o)
    ensures var p := PrepareControl(o, h, session, c); p.Ok? ==> DeltasAgree(o, session, p.value)
  {
    hide Refresh, WindowFor, Deltas, NextBackoff, Carries, Seated, TextInjective, Number, RecordKeys, RecordInterest;
    var live := session.kernel.live;
    CarriesNothing(o, live.interestScopes);
    if o.applyControl.Some? {
      var state := (o.applyControl.value)(live.reducerState, c.control,
                     Context(c.participantId, c.controlId, live.cursor, live.tick));
      RefreshParallel(o, live, state, live.cursor, live.tick);
      var moved := Refresh(o, live, state, live.cursor, live.tick);
      if moved.Some? {
        DeltasCarry(o, Delivery(FromControl, live.transitionRevision + 1, live.tick, []), live.interestScopes,
          moved.value.interestScopes, moved.value.viewRevisions, session.backoff);
      }
    }
  }

  lemma {:induction false} FindSet(scopes: seq<Scope>, scope: Scope, key: ScopeKey)
    ensures FindScope(SetScope(scopes, scope), key) == if key == KeyOf(scope) then Some(scope)
      else FindScope(scopes, key)
  {
    if scopes != [] { FindSet(scopes[1..], scope, key); }
  }

  lemma InterestDeltas(o: Options, h: Lookup, session: Session, s: InterestSubmission)
    requires Seated(o, session.kernel.live.interestScopes) && TextInjective(o)
    ensures var p := PrepareInterest(o, h, session, s); p.Ok? ==> DeltasAgree(o, session, p.value)
  {
    hide ScopedView, InterestText, TextInjective, Number, RecordKeys, RecordInterest;
    var live := session.kernel.live;
    var p := PrepareInterest(o, h, session, s);
    if p.Ok? {
      if p.value.noop {
        CarriesNothing(o, live.interestScopes);
      } else {
        var scope := Declare(o, live, s.participantId, s.scopeId, s.declaration).value;
        DeclareCarries(o, live.interestScopes, scope, p.value.deltas);
      }
    }
  }

  lemma DeclareCarries(o: Options, scopes: seq<Scope>, scope: Scope, deltas: seq<Delta>)
    requires Seated(o, scopes) && scope.participantId in o.seats
    requires |deltas| == 1 && ScopeKey(deltas[0].seat, deltas[0].scopeId) == KeyOf(scope)
    requires deltas[0].body == SnapshotBody(scope.view) && deltas[0].viewDigest == o.viewDigest(o.text(scope.view))
    ensures Seated(o, SetScope(scopes, scope)) && Carries(o, scopes, deltas, SetScope(scopes, scope))
  {
    SetScopeBag(scopes, scope);
    var after := SetScope(scopes, scope);
    forall i | 0 <= i < |after| ensures after[i].participantId in o.seats { assert after[i] in after; }
    forall key ensures Follow(o, key, Holds(scopes, key), deltas) == Holds(after, key) {
      FindSet(scopes, scope, key);
      assert deltas[1..] == [];
    }
  }

  lemma QuietDeltas(o: Options, h: Lookup, session: Session, r: Request)
    requires Seated(o, session.kernel.live.interestScopes) && (r.Ingest? || r.Extend?)
    ensures var p := Prepare(o, h, session, r); p.Ok? ==> DeltasAgree(o, session, p.value)
  {
    hide Carries, Seated, Spent, ActionError, Collect, SubmissionError, Number, RecordKeys, RecordInterest;
    CarriesNothing(o, session.kernel.live.interestScopes);
  }

  lemma PreparedDeltas(o: Options, h: Lookup, session: Session, r: Request)
    requires Seated(o, session.kernel.live.interestScopes) && TextInjective(o)
    ensures var p := Prepare(o, h, session, r); p.Ok? ==> DeltasAgree(o, session, p.value)
  {
    hide PrepareIngest, PrepareAdvance, PrepareTimeout, PrepareExtension, PrepareControl, PrepareInterest, DeltasAgree,
         Seated, TextInjective;
    match r
    case Advance(target) => AdvanceDeltas(o, session, target);
    case Timeout(t, forced) => TimeoutDeltas(o, session, t, forced);
    case Control(c) => ControlDeltas(o, h, session, c);
    case Interest(s) => InterestDeltas(o, h, session, s);
    case _ => QuietDeltas(o, h, session, r);
  }

  // ---- Runs ----

  /** Every delta published by a run, in commit order. */
  ghost function Published(o: Options, h: Lookup, session: Session, requests: seq<Request>): seq<Delta>
    decreases |requests|
  {
    if requests == [] then []
    else match Prepare(o, h, session, requests[0])
      case Err(_) => Published(o, h, session, requests[1..])
      case Ok(p) => p.deltas + Published(o, h, Commit(session, p), requests[1..])
  }

  lemma {:induction false} RunCarries(o: Options, h: Lookup, session: Session, requests: seq<Request>)
    requires Seated(o, session.kernel.live.interestScopes) && TextInjective(o)
    ensures Carries(o, session.kernel.live.interestScopes, Published(o, h, session, requests),
                    Run(o, h, session, requests).kernel.live.interestScopes)
    decreases |requests|
  {
    hide Prepare, Commit, Seated, TextInjective, Carries;
    CarriesNothing(o, session.kernel.live.interestScopes);
    if requests != [] {
      PreparedDeltas(o, h, session, requests[0]);
      var p := Prepare(o, h, session, requests[0]);
      if p.Ok? {
        var next := Commit(session, p.value);
        RunCarries(o, h, next, requests[1..]);
        CarriesThen(o, session.kernel.live.interestScopes, p.value.deltas, next.kernel.live.interestScopes,
          Published(o, h, next, requests[1..]), Run(o, h, next, requests[1..]).kernel.live.interestScopes);
      } else {
        RunCarries(o, h, session, requests[1..]);
      }
    }
  }

  /** For every run and every delivery scope: a client that starts from the scope's first view, or
      from nothing for a scope declared later, and folds all published deltas holds exactly the
      kernel's current view of the scope; no digest check fails on the way. */
  lemma ClientsFollow(o: Options, h: Lookup, requests: seq<Request>, key: ScopeKey)
    requires ValidOptions(o) && forall v :: o.text(v) == Canonical(v)
    ensures Follow(o, key, Holds(FirstScopes(o, o.seats), key), Published(o, h, Open(o), requests))
         == Holds(Run(o, h, Open(o), requests).kernel.live.interestScopes, key)
  {
    hide Run, Published, Follow, Holds, Canonical, TextInjective, Seated;
    CanonicalTextInjective(o);
    OpenSeated(o);
    RunCarries(o, h, Open(o), requests);
  }

  lemma OpenSeated(o: Options)
    requires ValidOptions(o)
    ensures Seated(o, FirstScopes(o, o.seats))
  {
    hide WindowFor;
    NoDuplicates(o.seats);
    FirstScopesUnique(o, o.seats);
    FirstScopesSeated(o, o.seats);
  }

  lemma {:induction false} FirstScopesSeated(o: Options, seats: seq<Seat>)
    ensures |FirstScopes(o, seats)| == |seats|
    ensures forall i :: 0 <= i < |seats| ==> FirstScopes(o, seats)[i].participantId == seats[i]
  {
    if seats != [] { FirstScopesSeated(o, seats[1..]); }
  }
}
