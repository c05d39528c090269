/** The draft a prepare call forks and changes in place (src/session.ts): `mapIntents`, the delivery
    loop of a resolution, `evictReceipts` and the catch-up loop, each proved to compute what the
    specification of the session says. */
module SessionDrafts {
  import opened CanonicalJson
  import opened Wrappers
  import opened JsonProjection
  import opened SessionTypes
  import opened SessionSpec
  import opened SessionAlike
  import opened SessionDeltas

  function Prepend(inputs: seq<CanonicalInput>, m: Mapped): Mapped {
    match m case Mapped(more, books) => Mapped(inputs + more, books) case other => other
  }

  // ---- The delivery loop visits seat by seat what the specification refreshes at once ----

  lemma {:induction false} SeatDeltasSnoc(
    o: Options, d: Delivery, seat: Seat, before: seq<Scope>, after: seq<Scope>, revisions: map<Seat, nat>,
    backoff: map<ScopeKey, Backoff>, b: Scope, a: Scope)
    requires |before| == |after|
    ensures SeatDeltas(o, d, seat, before + [b], after + [a], revisions, backoff)
         == SeatDeltas(o, d, seat, before, after, revisions, backoff)
            + if a.participantId == seat then [ScopeDelta(o, d, b, a, revisions, backoff)] else []
  {
    hide ScopeDelta;
    if before == [] {
      assert [b][1..] == [] && [a][1..] == [];
    } else {
      assert (before + [b])[1..] == before[1..] + [b] && (after + [a])[1..] == after[1..] + [a];
      SeatDeltasSnoc(o, d, seat, before[1..], after[1..], revisions, backoff, b, a);
    }
  }

  lemma {:induction false} DeltasSnoc(
    o: Options, d: Delivery, seats: seq<Seat>, seat: Seat, before: seq<Scope>, after: seq<Scope>,
    revisions: map<Seat, nat>, backoff: map<ScopeKey, Backoff>)
    requires |before| == |after|
    ensures Deltas(o, d, seats + [seat], before, after, revisions, backoff)
         == Deltas(o, d, seats, before, after, revisions, backoff)
            + SeatDeltas(o, d, seat, before, after, revisions, backoff)
  {
    hide SeatDeltas;
    if seats == [] {
      assert [seat][1..] == [] && [] + [seat] == [seat];
    } else {
      assert (seats + [seat])[1..] == seats[1..] + [seat];
      DeltasSnoc(o, d, seats[1..], seat, before, after, revisions, backoff);
    }
  }

  /** Scope by scope: where each unique scope ends up in the backoff table. */
  lemma {:induction false} NextBackoffEach(
    o: Options, before: seq<Scope>, after: seq<Scope>, backoff: map<ScopeKey, Backoff>, key: ScopeKey)
    requires |before| == |after| && UniqueScopes(before)
    ensures var table := NextBackoff(o, before, after, backoff);
      && (forall i :: 0 <= i < |before| && KeyOf(before[i]) == key ==>
            key in table && table[key] == EncodeScope(o, before[i], after[i], backoff).backoff)
      && ((forall i :: 0 <= i < |before| ==> KeyOf(before[i]) != key) ==>
            (key in table <==> key in backoff) && (key in table ==> table[key] == backoff[key]))
  {
    hide EncodeObservation;
    if before != [] {
      var next := backoff[KeyOf(before[0]) := EncodeScope(o, before[0], after[0], backoff).backoff];
      NextBackoffEach(o, before[1..], after[1..], next, key);
      forall i | 0 < i < |before| && KeyOf(before[i]) == key
        ensures EncodeScope(o, before[i], after[i], backoff) == EncodeScope(o, before[i], after[i], next)
        ensures before[i] == before[1..][i - 1] && after[i] == after[1..][i - 1]
      {
        assert KeyOf(before[0]) != KeyOf(before[i]);
      }
    }
  }

  /** The scopes a refresh aims at, with those it cannot show left alone. */
  ghost function Aim(o: Options, before: seq<Scope>, views: map<Seat, Json>, cursor: nat,
      tick: nat): (after: seq<Scope>)
    ensures |after| == |before|
    ensures forall i :: 0 <= i < |before| ==> KeyOf(after[i]) == KeyOf(before[i])
  {
    seq(|before|, i requires 0 <= i < |before| =>
      var one := RefreshOne(o, before[i], views, cursor, tick);
      if one.Some? then one.value else before[i])
  }

  /** How far the delivery loop has come: seats before `n`, and seat `n` up to scope `j`. */
  ghost predicate Visited(seats: seq<Seat>, n: nat, j: nat, scope: Scope, i: nat)
    requires n <= |seats|
  {
    scope.participantId in seats[..n] || (n < |seats| && scope.participantId == seats[n] && i < j)
  }

  ghost predicate ScopesAt(
    seats: seq<Seat>, n: nat, j: nat, before: seq<Scope>, after: seq<Scope>, now: seq<Scope>)
    requires n <= |seats| && |before| == |after|
  {
    && |now| == |before|
    && forall i :: 0 <= i < |before| ==> now[i] == if Visited(seats, n, j, before[i], i) then after[i] else before[i]
  }

  ghost predicate BackoffAt(
    o: Options, seats: seq<Seat>, n: nat, j: nat, before: seq<Scope>, after: seq<Scope>,
    first: map<ScopeKey, Backoff>, now: map<ScopeKey, Backoff>)
    requires n <= |seats| && |before| == |after|
  {
    && (forall i :: 0 <= i < |before| && Visited(seats, n, j, before[i], i) ==>
          KeyOf(before[i]) in now
          && now[KeyOf(before[i])] == EncodeScope(o, before[i], after[i], first).backoff)
    && (forall key :: Elsewhere(seats, n, j, before, key) ==>
          (key in now <==> key in first) && (key in now ==> now[key] == first[key]))
  }

  ghost predicate Elsewhere(seats: seq<Seat>, n: nat, j: nat, before: seq<Scope>, key: ScopeKey)
    requires n <= |seats|
  {
    forall i :: 0 <= i < |before| && KeyOf(before[i]) == key ==> !Visited(seats, n, j, before[i], i)
  }

  /** When every seat was visited the table is the specified one. */
  lemma BackoffComplete(
    o: Options, before: seq<Scope>, after: seq<Scope>, first: map<ScopeKey, Backoff>, now: map<ScopeKey, Backoff>)
    requires |before| == |after| && Seated(o, before)
    requires BackoffAt(o, o.seats, |o.seats|, 0, before, after, first, now)
    ensures now == NextBackoff(o, before, after, first)
  {
    hide EncodeScope;
    var table := NextBackoff(o, before, after, first);
    forall key ensures (key in now <==> key in table) && (key in now ==> now[key] == table[key]) {
      NextBackoffEach(o, before, after, first, key);
      if i :| 0 <= i < |before| && KeyOf(before[i]) == key {
        assert o.seats[..|o.seats|] == o.seats;
        assert Visited(o.seats, |o.seats|, 0, before[i], i);
      } else {
        assert Elsewhere(o.seats, |o.seats|, 0, before, key);
      }
    }
  }

  /** Moving on to the next seat. */
  lemma SeatDone(o: Options, n: nat, before: seq<Scope>, scope: Scope, i: nat)
    requires n < |o.seats| && i < |before|
    ensures Visited(o.seats, n, |before|, scope, i) <==> Visited(o.seats, n + 1, 0, scope, i)
  {
    assert o.seats[..n + 1] == o.seats[..n] + [o.seats[n]];
  }

  lemma SeatDoneAt(
    o: Options, n: nat, before: seq<Scope>, after: seq<Scope>, first: map<ScopeKey, Backoff>,
    scopes: seq<Scope>, now: map<ScopeKey, Backoff>)
    requires n < |o.seats| && |before| == |after|
    requires ScopesAt(o.seats, n, |before|, before, after, scopes)
    requires BackoffAt(o, o.seats, n, |before|, before, after, first, now)
    ensures ScopesAt(o.seats, n + 1, 0, before, after, scopes)
    ensures BackoffAt(o, o.seats, n + 1, 0, before, after, first, now)
  {
    hide EncodeScope, Visited;
    forall i | 0 <= i < |before|
      ensures Visited(o.seats, n, |before|, before[i], i) <==> Visited(o.seats, n + 1, 0, before[i], i)
    {
      SeatDone(o, n, before, before[i], i);
    }
    forall key | Elsewhere(o.seats, n + 1, 0, before, key) ensures Elsewhere(o.seats, n, |before|, before, key) {}
  }

  /** Moving on to the next scope of a seat. */
  lemma ScopeDone(
    o: Options, n: nat, j: nat, before: seq<Scope>, after: seq<Scope>, first: map<ScopeKey, Backoff>,
    scopes: seq<Scope>, now: map<ScopeKey, Backoff>)
    requires n < |o.seats| && |before| == |after| && j < |before| && Seated(o, before)
    requires ScopesAt(o.seats, n, j, before, after, scopes)
    requires BackoffAt(o, o.seats, n, j, before, after, first, now)
    ensures before[j].participantId != o.seats[n] ==>
      && ScopesAt(o.seats, n, j + 1, before, after, scopes)
      && BackoffAt(o, o.seats, n, j + 1, before, after, first, now)
    ensures before[j].participantId == o.seats[n] ==>
      && scopes[j] == before[j]
      && EncodeScope(o, before[j], after[j], now) == EncodeScope(o, before[j], after[j], first)
      && ScopesAt(o.seats, n, j + 1, before, after, scopes[j := after[j]])
      && BackoffAt(o, o.seats, n, j + 1, before, after, first,
           now[KeyOf(before[j]) := EncodeScope(o, before[j], after[j], first).backoff])
  {
    if before[j].participantId == o.seats[n] {
      ScopeAhead(o, n, j, before, after, scopes);
      ScopeEncoded(o, n, j, before, after, first, now);
    } else {
      ScopeSkipped(o, n, j, before, after, first, scopes, now);
    }
  }

  lemma ScopeSkipped(
    o: Options, n: nat, j: nat, before: seq<Scope>, after: seq<Scope>, first: map<ScopeKey, Backoff>,
    scopes: seq<Scope>, now: map<ScopeKey, Backoff>)
    requires n < |o.seats| && |before| == |after| && j < |before| && before[j].participantId != o.seats[n]
    requires ScopesAt(o.seats, n, j, before, after, scopes)
    requires BackoffAt(o, o.seats, n, j, before, after, first, now)
    ensures ScopesAt(o.seats, n, j + 1, before, after, scopes)
    ensures BackoffAt(o, o.seats, n, j + 1, before, after, first, now)
  {
    hide EncodeScope;
    forall i | 0 <= i < |before|
      ensures Visited(o.seats, n, j, before[i], i) <==> Visited(o.seats, n, j + 1, before[i], i) {}
    forall key | Elsewhere(o.seats, n, j + 1, before, key) ensures Elsewhere(o.seats, n, j, before, key) {}
  }

  lemma ScopeAhead(o: Options, n: nat, j: nat, before: seq<Scope>, after: seq<Scope>, scopes: seq<Scope>)
    requires n < |o.seats| && |before| == |after| && j < |before| && before[j].participantId == o.seats[n]
    requires Seated(o, before) && ScopesAt(o.seats, n, j, before, after, scopes)
    ensures !Visited(o.seats, n, j, before[j], j) && scopes[j] == before[j]
    ensures ScopesAt(o.seats, n, j + 1, before, after, scopes[j := after[j]])
  {
    assert o.seats[n] !in o.seats[..n];
  }

  lemma ScopeEncoded(
    o: Options, n: nat, j: nat, before: seq<Scope>, after: seq<Scope>, first: map<ScopeKey, Backoff>,
    now: map<ScopeKey, Backoff>)
    requires n < |o.seats| && |before| == |after| && j < |before| && before[j].participantId == o.seats[n]
    requires Seated(o, before) && BackoffAt(o, o.seats, n, j, before, after, first, now)
    ensures EncodeScope(o, before[j], after[j], now) == EncodeScope(o, before[j], after[j], first)
    ensures BackoffAt(o, o.seats, n, j + 1, before, after, first,
      now[KeyOf(before[j]) := EncodeScope(o, before[j], after[j], first).backoff])
  {
    hide EncodeObservation;
    var key := KeyOf(before[j]);
    assert o.seats[n] !in o.seats[..n];
    assert Elsewhere(o.seats, n, j, before, key);
    var next := now[key := EncodeScope(o, before[j], after[j], first).backoff];
    forall i | 0 <= i < |before| && Visited(o.seats, n, j + 1, before[i], i)
      ensures KeyOf(before[i]) in next && next[KeyOf(before[i])] == EncodeScope(o, before[i], after[i], first).backoff
    {
      if i != j { assert Visited(o.seats, n, j, before[i], i) && KeyOf(before[i]) != key; }
    }
    forall other | Elsewhere(o.seats, n, j + 1, before, other)
      ensures (other in next <==> other in first) && (other in next ==> next[other] == first[other])
    {
      assert Visited(o.seats, n, j + 1, before[j], j);
      assert Elsewhere(o.seats, n, j, before, other);
    }
  }

  // ---- Other loops ----

  /** The progress after ticks that recorded `bodies` and `deltas`, given that of the rest. */
  function AfterAll(bodies: seq<Body>, deltas: seq<Delta>, resolutions: nat, rest: Result<Progress>): Result<Progress> {
    match rest
    case Err(e) => Err(e)
    case Ok(p) => Ok(p.(bodies := bodies + p.bodies, deltas := deltas + p.deltas,
      resolutions := resolutions + p.resolutions))
  }

  lemma ResolveOnceSeated(o: Options, live: KernelState, backoff: map<ScopeKey, Backoff>, cause: Cause,
      forced: seq<CanonicalInput>)
    requires Seated(o, live.interestScopes)
    ensures var r := ResolveOnce(o, live, backoff, cause, forced);
      r.Ok? ==> Seated(o, r.value.draft.interestScopes)
  {
    hide Resolve, Deltas, NextBackoff, MapIntents, Seated;
    var m := MapIntents(o, live, BooksOf(live), WindowIntents(live.window.participants, live.window.intents));
    if m.Mapped? { ResolveParallel(o, WithBooks(live, m.books), m.inputs + forced, live.cursor, live.tick); }
  }

  /** The scoped view of a seat, checked to only remove structure. */
  method CheckedView(o: Options, full: Json, scope: Scope, cursor: nat, tick: nat) returns (view: Option<Json>)
    ensures view == ScopedView(o, full, scope, cursor, tick)
  {
    var narrowed :=
      if !scope.declared || o.narrowView.None? then full
      else (o.narrowView.value)(full,
        InterestContext(scope.participantId, scope.scopeId, cursor, tick, scope.declaration));
    var projects := Projects(full, narrowed);
    view := if projects then Some(narrowed) else None;
  }

  lemma EvictStep(entries: seq<ReceiptEntry>, i: nat, oldest: int, expired: seq<Key>)
    requires i < |entries|
    ensures var e := entries[i];
      && Fresh(entries[i..], oldest) == (if e.cursor < oldest then [] else [e]) + Fresh(entries[i + 1..], oldest)
      && Expire(entries[i..], oldest, expired)
         == Expire(entries[i + 1..], oldest, if e.cursor < oldest then AddKey(expired, e.key) else expired)
  {
    assert entries[i..][1..] == entries[i + 1..];
  }

  lemma NothingLeft(entries: seq<ReceiptEntry>, oldest: int, expired: seq<Key>)
    ensures Fresh(entries[|entries|..], oldest) == [] && Expire(entries[|entries|..], oldest, expired) == expired
  {
  }

  lemma TrimStep(keys: seq<Key>, most: nat)
    ensures |keys| > most ==> Trim(keys, most) == Trim(keys[1..], most)
    ensures |keys| <= most ==> Trim(keys, most) == keys
  {
  }

  /** The entries of a table for some of the seats. */
  ghost function Restrict<V>(table: map<Seat, V>, seats: seq<Seat>): map<Seat, V> {
    map p | p in table && p in seats :: table[p]
  }

  lemma RestrictSnoc<V>(base: map<Seat, V>, table: map<Seat, V>, seats: seq<Seat>, seat: Seat)
    requires seat in table
    ensures base + Restrict(table, seats + [seat]) == (base + Restrict(table, seats))[seat := table[seat]]
  {
  }

  lemma RestrictAll(o: Options, was: KernelState)
    ensures was.views + Restrict(ViewsOf(o, was.reducerState), o.seats) == was.views + ViewsOf(o, was.reducerState)
    ensures was.viewRevisions + Restrict(NextRevisions(o, was.viewRevisions), o.seats)
      == NextRevisions(o, was.viewRevisions)
    ensures was.views + Restrict(ViewsOf(o, was.reducerState), []) == was.views
    ensures was.viewRevisions + Restrict(NextRevisions(o, was.viewRevisions), []) == was.viewRevisions
  {
  }

  /** What the loop does to seat `n` is what the tables say. */
  lemma SeatEntry(o: Options, was: KernelState, n: nat, revisions: map<Seat, nat>)
    requires n < |o.seats| && o.seats[n] !in o.seats[..n]
    requires revisions == was.viewRevisions + Restrict(NextRevisions(o, was.viewRevisions), o.seats[..n])
    ensures var seat := o.seats[n];
      && seat in ViewsOf(o, was.reducerState) && ViewsOf(o, was.reducerState)[seat] == o.viewFor(was.reducerState, seat)
      && Revision(revisions, seat) == Revision(was.viewRevisions, seat)
      && seat in NextRevisions(o, was.viewRevisions)
      && NextRevisions(o, was.viewRevisions)[seat] == Revision(revisions, seat) + 1
  {
  }

  lemma Refreshed(o: Options, was: KernelState, now: KernelState)
    requires RefreshScopes(o, was.interestScopes, ViewsOf(o, was.reducerState), was.cursor, was.tick).Some?
    requires now.interestScopes == RefreshScopes(o, was.interestScopes, ViewsOf(o, was.reducerState), was.cursor,
      was.tick).value
    requires now == was.(views := was.views + ViewsOf(o, was.reducerState),
                         viewRevisions := NextRevisions(o, was.viewRevisions), interestScopes := now.interestScopes)
    ensures Refresh(o, was, was.reducerState, was.cursor, was.tick) == Some(now)
  {
    hide ViewsOf, NextRevisions, RefreshScopes;
  }

  lemma NotRefreshed(o: Options, was: KernelState, i: nat)
    requires i < |was.interestScopes|
    requires RefreshOne(o, was.interestScopes[i], ViewsOf(o, was.reducerState), was.cursor, was.tick).None?
    ensures Refresh(o, was, was.reducerState, was.cursor, was.tick).None?
  {
    hide ViewsOf, NextRevisions, RefreshScopes, RefreshOne;
    RefreshEach(o, was.interestScopes, ViewsOf(o, was.reducerState), was.cursor, was.tick);
  }

  lemma AimAt(o: Options, before: seq<Scope>, views: map<Seat, Json>, cursor: nat, tick: nat, i: nat)
    requires i < |before| && before[i].participantId in views
    ensures var view := ScopedView(o, views[before[i].participantId], before[i], cursor, tick);
      && (view.None? <==> RefreshOne(o, before[i], views, cursor, tick).None?)
      && (view.Some? ==> Aim(o, before, views, cursor, tick)[i] == before[i].(view := view.value))
  {
  }

  lemma SentDelta(
    o: Options, d: Delivery, before: Scope, after: Scope, revisions: map<Seat, nat>, first: map<ScopeKey, Backoff>)
    requires KeyOf(after) == KeyOf(before) && after == before.(view := after.view)
    ensures ScopeDelta(o, d, before, after, revisions, first)
         == Delta(before.participantId, before.scopeId, if before.declared then Some(before.declaration) else None,
              d.transitionRevision, Revision(revisions, before.participantId), d.tick, d.origin, d.acknowledgements, [],
              EncodeScope(o, before, after, first).body, o.viewDigest(o.text(after.view)))
  {
    hide EncodeScope;
  }

  class Draft {
    var state: KernelState
    var backoff: map<ScopeKey, Backoff>

    /** `forkLive` */
    constructor (live: KernelState, backoff: map<ScopeKey, Backoff>)
      ensures state == live && this.backoff == backoff
    {
      state := live;
      this.backoff := backoff;
    }

    /** Books move only when every intent maps. */
    method MapWindow(o: Options, intents: seq<Intent>) returns (m: Mapped)
      modifies this`state
      ensures m == MapIntents(o, old(state), BooksOf(old(state)), intents)
      ensures state == if m.Mapped? then WithBooks(old(state), m.books) else old(state)
    {
      hide MapOne;
      var inputs, books := [], BooksOf(state);
      var i := 0;
      while i < |intents|
        invariant 0 <= i <= |intents| && state == old(state)
        invariant MapIntents(o, state, BooksOf(state), intents)
               == Prepend(inputs, MapIntents(o, state, books, intents[i..]))
      {
        var one := MapOne(o, state, books, intents[i]);
        assert intents[i..][1..] == intents[i + 1..];
        match one
        case OneRefused => return Refused;
        case OneRejected(mismatch) => return Mismatch(mismatch);
        case One(input, next) =>
          inputs, books := inputs + [input], next;
          i := i + 1;
      }
      state := WithBooks(state, books);
      m := Mapped(inputs, books);
    }

    method EvictReceipts(o: Options)
      modifies this`state
      ensures state == Evict(o, old(state))
    {
      hide Fresh, Expire, AddKey, MaxTombstones, Trim;
      var oldest, most := state.cursor - o.receiptRetention, MaxTombstones(o);
      var kept, expired := [], state.expiredReceiptKeys;
      var i := 0;
      assert state.receipts[0..] == state.receipts;
      while i < |state.receipts|
        invariant 0 <= i <= |state.receipts| && state == old(state)
        invariant Fresh(state.receipts, oldest) == kept + Fresh(state.receipts[i..], oldest)
        invariant Expire(state.receipts, oldest, state.expiredReceiptKeys)
               == Expire(state.receipts[i..], oldest, expired)
      {
        var entry := state.receipts[i];
        EvictStep(state.receipts, i, oldest, expired);
        if entry.cursor < oldest { expired := AddKey(expired, entry.key); } else { kept := kept + [entry]; }
        i := i + 1;
      }
      NothingLeft(state.receipts, oldest, expired);
      ghost var all := expired;
      while |expired| > most
        invariant state == old(state)
        invariant Trim(expired, most) == Trim(all, most)
      {
        TrimStep(expired, most);
        expired := expired[1..];
      }
      TrimStep(expired, most);
      state := state.(receipts := kept, expiredReceiptKeys := expired);
    }

    /** Refreshes every seat's views and scopes in place and encodes what changed; None is a view
        that would widen the seat's own. */
    method Deliver(o: Options, d: Delivery) returns (deltas: Option<seq<Delta>>)
      requires Seated(o, state.interestScopes)
      modifies this
      ensures var was := old(state);
        var refreshed := Refresh(o, was, was.reducerState, was.cursor, was.tick);
        && (deltas.Some? <==> refreshed.Some?)
        && (deltas.Some? ==>
              && state == refreshed.value
              && deltas.value == Deltas(o, d, o.seats, was.interestScopes, state.interestScopes, state.viewRevisions,
                old(backoff))
              && backoff == NextBackoff(o, was.interestScopes, state.interestScopes, old(backoff)))
    {
      hide Seated, Deltas, SeatDeltas, ScopesAt, BackoffAt, Refresh, RefreshOne, Aim, ViewsOf, NextRevisions, Restrict,
           NextBackoff;
      ghost var was, before, first := state, state.interestScopes, backoff;
      ghost var full, revisions := ViewsOf(o, was.reducerState), NextRevisions(o, was.viewRevisions);
      ghost var after := Aim(o, before, full, was.cursor, was.tick);
      var sent := [];
      var n := 0;
      NothingVisited(o, d, before, after, revisions, first);
      RestrictAll(o, was);
      assert o.seats[..0] == [] && o.seats[..|o.seats|] == o.seats;
      while n < |o.seats|
        invariant 0 <= n <= |o.seats|
        invariant state == was.(views := was.views + Restrict(full, o.seats[..n]),
          viewRevisions := was.viewRevisions + Restrict(revisions, o.seats[..n]),
            interestScopes := state.interestScopes)
        invariant ScopesAt(o.seats, n, 0, before, after, state.interestScopes)
        invariant BackoffAt(o, o.seats, n, 0, before, after, first, backoff)
        invariant sent == Deltas(o, d, o.seats[..n], before, after, revisions, first)
        invariant forall i :: 0 <= i < |before| && before[i].participantId in o.seats[..n] ==>
          RefreshOne(o, before[i], full, was.cursor, was.tick).Some?
      {
        var seat := o.seats[n];
        SeatUnvisited(o, before, n);
        SeatEntry(o, was, n, state.viewRevisions);
        RestrictSnoc(was.views, full, o.seats[..n], seat);
        RestrictSnoc(was.viewRevisions, revisions, o.seats[..n], seat);
        assert o.seats[..n + 1] == o.seats[..n] + [seat];
        var next := o.viewFor(state.reducerState, seat);
        var revision := Revision(state.viewRevisions, seat) + 1;
        state := state.(views := state.views[seat := next], viewRevisions := state.viewRevisions[seat := revision]);
        var more := DeliverSeat(o, d, n, was, before, after, first);
        if more.None? {
          ghost var i :| 0 <= i < |before| && RefreshOne(o, before[i], full, was.cursor, was.tick).None?;
          NotRefreshed(o, was, i);
          return None;
        }
        DeltasSnoc(o, d, o.seats[..n], seat, before, after, revisions, first);
        SeatDoneAt(o, n, before, after, first, state.interestScopes, backoff);
        sent := sent + more.value;
        n := n + 1;
      }
      AllVisited(o, before, after, state.interestScopes, full, was.cursor, was.tick);
      BackoffComplete(o, before, after, first, backoff);
      Refreshed(o, was, state);
      deltas := Some(sent);
    }

    /** The inner loop over the scopes of one seat. */
    method DeliverSeat(
      o: Options, d: Delivery, n: nat, ghost was: KernelState, ghost before: seq<Scope>, ghost after: seq<Scope>,
      ghost first: map<ScopeKey, Backoff>) returns (deltas: Option<seq<Delta>>)
      requires n < |o.seats| && Seated(o, before)
      requires after == Aim(o, before, ViewsOf(o, was.reducerState), was.cursor, was.tick)
      requires state.cursor == was.cursor && state.tick == was.tick
      requires o.seats[n] in state.views && o.seats[n] in ViewsOf(o, was.reducerState)
      requires state.views[o.seats[n]] == ViewsOf(o, was.reducerState)[o.seats[n]]
      requires Revision(state.viewRevisions, o.seats[n]) == Revision(NextRevisions(o, was.viewRevisions), o.seats[n])
      requires ScopesAt(o.seats, n, 0, before, after, state.interestScopes)
      requires BackoffAt(o, o.seats, n, 0, before, after, first, backoff)
      modifies this
      ensures state == old(state).(interestScopes := state.interestScopes)
      ensures deltas.None? ==>
        exists i :: 0 <= i < |before| && RefreshOne(o, before[i], ViewsOf(o, was.reducerState), was.cursor,
          was.tick).None?
      ensures deltas.Some? ==>
        && ScopesAt(o.seats, n, |before|, before, after, state.interestScopes)
        && BackoffAt(o, o.seats, n, |before|, before, after, first, backoff)
        && deltas.value == SeatDeltas(o, d, o.seats[n], before, after, NextRevisions(o, was.viewRevisions), first)
        && forall i :: 0 <= i < |before| && before[i].participantId == o.seats[n] ==>
             RefreshOne(o, before[i], ViewsOf(o, was.reducerState), was.cursor, was.tick).Some?
    {
      hide EncodeScope, Seated, SeatDeltas, ScopeDelta, ScopesAt, BackoffAt, ScopedView, RefreshOne, Aim, ViewsOf,
           NextRevisions, Revision;
      var seat := o.seats[n];
      ghost var views, revisions := ViewsOf(o, was.reducerState), NextRevisions(o, was.viewRevisions);
      var sent := [];
      var j := 0;
      AtLength(o, n, 0, before, after, state.interestScopes);
      NoScopes(o, d, seat, revisions, first);
      assert before[..0] == [] && after[..0] == [];
      while j < |state.interestScopes|
        invariant 0 <= j <= |before| == |state.interestScopes|
        invariant state == old(state).(interestScopes := state.interestScopes)
        invariant ScopesAt(o.seats, n, j, before, after, state.interestScopes)
        invariant BackoffAt(o, o.seats, n, j, before, after, first, backoff)
        invariant sent == SeatDeltas(o, d, seat, before[..j], after[..j], revisions, first)
        invariant forall i :: 0 <= i < j && before[i].participantId == seat ==>
          RefreshOne(o, before[i], views, was.cursor, was.tick).Some?
      {
        var scope := state.interestScopes[j];
        ScopeDone(o, n, j, before, after, first, state.interestScopes, backoff);
        AtOwner(o, n, j, before, after, state.interestScopes);
        assert before[..j + 1] == before[..j] + [before[j]] && after[..j + 1] == after[..j] + [after[j]];
        SeatDeltasSnoc(o, d, seat, before[..j], after[..j], revisions, first, before[j], after[j]);
        if scope.participantId == seat {
          AimAt(o, before, views, was.cursor, was.tick, j);
          var view := CheckedView(o, state.views[seat], scope, state.cursor, state.tick);
          if view.None? { return None; }
          var shown := scope.(view := view.value);
          SentDelta(o, d, scope, shown, revisions, first);
          var encoded := EncodeScope(o, scope, shown, backoff);
          sent := sent + [Delta(seat, scope.scopeId, if scope.declared then Some(scope.declaration) else None,
            d.transitionRevision, Revision(state.viewRevisions, seat), d.tick, d.origin, d.acknowledgements, [],
            encoded.body, o.viewDigest(o.text(shown.view)))];
          backoff := backoff[KeyOf(scope) := encoded.backoff];
          state := state.(interestScopes := state.interestScopes[j := shown]);
        }
        j := j + 1;
      }
      assert before[..j] == before && after[..j] == after;
      deltas := Some(sent);
    }

    /** `resolveOnce` */
    method Settle(o: Options, cause: Cause, forced: seq<CanonicalInput>) returns (r: Result<Resolved>)
      requires Seated(o, state.interestScopes)
      modifies this
      ensures r == ResolveOnce(o, old(state), old(backoff), cause, forced)
      ensures r.Ok? ==>
        && state == r.value.draft
        && backoff == if r.value.Settled? then r.value.backoff else old(backoff)
    {
      hide Seated, Deltas, NextBackoff, RefreshScopes, MapIntents, WindowFor, Expire, Fresh, WindowIntents,
           Acknowledged;
      ghost var was := state;
      var scopes, patches := state.interestScopes, backoff;
      var tick, cursor, revision := state.tick, state.cursor, state.transitionRevision;
      var intents := WindowIntents(state.window.participants, state.window.intents);
      if cause == Complete && |intents| != |state.window.participants| { return Err(NotReady); }
      var mapped := MapWindow(o, intents);
      match mapped
      case Refused => return Err(Conflict);
      case Mismatch(m) =>
        state := Decline(state, m);
        return Ok(Declined(state, m));
      case Mapped(collected, _) =>
        var inputs := collected + forced;
        state := state.(
          reducerState := o.advance(state.reducerState, Actions(inputs)),
          cursor := state.cursor + 1, tick := state.tick + 1);
        ghost var moved := state;
        RefreshIndependent(o, WithBooks(was, mapped.books), moved, moved.reducerState, moved.cursor, moved.tick);
        var deltas := Deliver(o, Delivery(FromResolution, revision + 1, state.tick, Acknowledged(inputs)));
        if deltas.None? { return Err(InvalidView); }
        var w := WindowFor(o, state.reducerState, state.cursor);
        if w.None? { return Err(InvalidView); }
        state := state.(window := w.value);
        EvictReceipts(o);
        assert Resolve(o, WithBooks(was, mapped.books), inputs, cursor, tick) == Some(state);
        r := Ok(Settled(state,
          Resolution(tick, cursor, cause, Consumed(intents), inputs,
                     if forced == [] then None else Some(forced[0]), o.metrics(state.reducerState)),
          deltas.value, backoff));
    }

    /** The catch-up loop of `prepareAdvance`. */
    method Advance(o: Options, requested: nat) returns (r: Result<Progress>)
      requires Seated(o, state.interestScopes)
      modifies this
      ensures r == CatchUp(o, old(state), old(backoff), requested)
      ensures r.Ok? ==> state == r.value.draft && backoff == r.value.backoff
    {
      hide Seated, ResolveOnce, Halts, RejectionDeltas;
      var bodies, deltas, resolutions, partial := [], [], 0, false;
      var index := 0;
      AfterNone(CatchUp(o, state, backoff, requested));
      while index < requested
        invariant 0 <= index <= requested && Seated(o, state.interestScopes)
        invariant CatchUp(o, old(state), old(backoff), requested)
               == AfterAll(bodies, deltas, resolutions, CatchUp(o, state, backoff, requested - index))
      {
        var cause := CauseOf(o, state.window);
        ghost var was, patches := state, backoff;
        var one := Settle(o, cause, []);
        assert one == ResolveOnce(o, was, patches, cause, []);
        ResolveOnceSeated(o, was, patches, cause, []);
        if one.Err? { return Err(one.error); }
        if one.value.Declined? {
          var more := RejectionDeltas(o, state, state.transitionRevision + 1, one.value.mismatch, state.interestScopes);
          return Ok(Progress(state, bodies + [Rejected(one.value.mismatch)], deltas + more, backoff, resolutions,
            false));
        }
        if Halts(o, state) {
          return Ok(Progress(state, bodies + [one.value.body], deltas + one.value.deltas, backoff, resolutions + 1,
            CutShort(o, state, requested - index - 1)));
        }
        AfterOne(bodies, deltas, resolutions, one.value.body, one.value.deltas,
          CatchUp(o, state, backoff, requested - index - 1));
        bodies, deltas, resolutions := bodies + [one.value.body], deltas + one.value.deltas, resolutions + 1;
        index := index + 1;
      }
      assert bodies + [] == bodies && deltas + [] == deltas;
      r := Ok(Progress(state, bodies, deltas, backoff, resolutions, false));
    }
  }

  lemma AfterNone(rest: Result<Progress>)
    ensures AfterAll([], [], 0, rest) == rest
  {
    if rest.Ok? { assert [] + rest.value.bodies == rest.value.bodies && [] + rest.value.deltas == rest.value.deltas; }
  }

  lemma AfterOne(bodies: seq<Body>, deltas: seq<Delta>, resolutions: nat, b: Body, ds: seq<Delta>,
      rest: Result<Progress>)
    ensures AfterAll(bodies, deltas, resolutions, After(b, ds, rest))
         == AfterAll(bodies + [b], deltas + ds, resolutions + 1, rest)
  {
    if rest.Ok? {
      assert bodies + [b] + rest.value.bodies == bodies + ([b] + rest.value.bodies);
      assert deltas + ds + rest.value.deltas == deltas + (ds + rest.value.deltas);
    }
  }

  // ---- Facts the loops use while the tables are kept abstract ----

  lemma NothingVisited(
    o: Options, d: Delivery, before: seq<Scope>, after: seq<Scope>, revisions: map<Seat, nat>,
      first: map<ScopeKey, Backoff>)
    requires |before| == |after|
    ensures ScopesAt(o.seats, 0, 0, before, after, before) && BackoffAt(o, o.seats, 0, 0, before, after, first, first)
    ensures Deltas(o, d, o.seats[..0], before, after, revisions, first) == []
  {
  }

  lemma NoScopes(o: Options, d: Delivery, seat: Seat, revisions: map<Seat, nat>, first: map<ScopeKey, Backoff>)
    ensures SeatDeltas(o, d, seat, [], [], revisions, first) == []
  {
  }

  lemma SeatUnvisited(o: Options, before: seq<Scope>, n: nat)
    requires n < |o.seats| && Seated(o, before)
    ensures o.seats[n] !in o.seats[..n]
  {
  }

  lemma AtLength(o: Options, n: nat, j: nat, before: seq<Scope>, after: seq<Scope>, scopes: seq<Scope>)
    requires n <= |o.seats| && |before| == |after| && ScopesAt(o.seats, n, j, before, after, scopes)
    ensures |scopes| == |before|
  {
  }

  lemma AtOwner(o: Options, n: nat, j: nat, before: seq<Scope>, after: seq<Scope>, scopes: seq<Scope>)
    requires n < |o.seats| && |before| == |after| && ScopesAt(o.seats, n, j, before, after, scopes)
    requires forall i :: 0 <= i < |before| ==> KeyOf(after[i]) == KeyOf(before[i])
    ensures |scopes| == |before|
    ensures forall i :: 0 <= i < |scopes| ==> KeyOf(scopes[i]) == KeyOf(before[i])
  {
  }

  lemma AllVisited(
    o: Options, before: seq<Scope>, after: seq<Scope>, scopes: seq<Scope>, views: map<Seat, Json>, cursor: nat,
      tick: nat)
    requires Seated(o, before) && after == Aim(o, before, views, cursor, tick)
    requires ScopesAt(o.seats, |o.seats|, 0, before, after, scopes)
    requires forall i :: 0 <= i < |before| && before[i].participantId in o.seats ==>
      RefreshOne(o, before[i], views, cursor, tick).Some?
    ensures scopes == after && RefreshScopes(o, before, views, cursor, tick) == Some(scopes)
  {
    RefreshEach(o, before, views, cursor, tick);
    assert o.seats[..|o.seats|] == o.seats;
    var r := RefreshScopes(o, before, views, cursor, tick);
    assert r.Some? && |r.value| == |scopes|;
    forall i | 0 <= i < |before| ensures r.value[i] == scopes[i] == after[i] {
      assert Visited(o.seats, |o.seats|, 0, before[i], i);
      assert RefreshOne(o, before[i], views, cursor, tick) == Some(r.value[i]);
    }
    assert r.value == scopes && scopes == after;
  }

  /** A refresh reads only the scopes, views and view revisions of the state it moves. */
  lemma RefreshIndependent(o: Options, a: KernelState, b: KernelState, state: GameState, cursor: nat, tick: nat)
    requires b == a.(reducerState := state, cursor := cursor, tick := tick)
    ensures Refresh(o, a, state, cursor, tick) == Refresh(o, b, state, cursor, tick)
  {
  }
}
