/** The ledger as an object (`SeatControlLedger` in src/seat-control.ts): its loops compute the
    schedule functions, and its methods keep the schedule sound. */
module SeatControlLedgers {
  import opened Wrappers
  import opened SeatControl

  datatype LedgerError = ForeignTransition | AlreadyCompleted

  /** `PreparedSeatControl` with its hidden state. */
  class PreparedSeatControl {
    const owner: SeatControlLedger
    const base: nat
    const epochs: seq<Epoch>
    const next: map<Seat, seq<Epoch>>
    var completed: bool

    constructor (owner: SeatControlLedger, base: nat, epochs: seq<Epoch>, next: map<Seat, seq<Epoch>>)
      ensures this.owner == owner && this.base == base && this.epochs == epochs && this.next == next && !completed
    {
      this.owner, this.base, this.epochs, this.next, completed := owner, base, epochs, next, false;
    }
  }

  class SeatControlLedger {
    const d: Digest
    const sessionId: string
    const seats: seq<Seat>
    var revision: nat
    var history: map<Seat, seq<Epoch>>
    /** The one transition that may be prepared at a time. */
    var active: Option<PreparedSeatControl>
    ghost var issued: set<PreparedSeatControl>

    function Value(): Ledger
      reads this
    {
      Ledger(sessionId, seats, revision, history, if active.Some? then Some(active.value.epochs) else None)
    }

    ghost predicate Valid()
      reads this, issued
    {
      && Sound(d, Value())
      && (forall t :: t in issued ==> t.owner == this && (!t.completed <==> active == Some(t)))
      && (active.Some? ==>
            && active.value in issued && active.value.base == revision
            && active.value.next == Extended(history, active.value.epochs))
    }

    constructor (d: Digest, l: Ledger)
      requires l.pending.None? && Sound(d, l)
      ensures Valid() && issued == {} && this.d == d && Value() == l
    {
      this.d, sessionId, seats, revision, history := d, l.sessionId, l.seats, l.revision, l.history;
      active, issued := None, {};
    }

    /** The public constructor; None for any thrown error. */
    static method Create(d: Digest, sessionId: string, seats: seq<Seat>, genesis: map<Seat, Option<Controller>>)
      returns (ledger: Option<SeatControlLedger>)
      ensures ledger.Some? <==> GenesisAllowed(sessionId, seats, genesis)
      ensures ledger.Some? ==>
        fresh(ledger.value) && ledger.value.Valid() && ledger.value.d == d
        && ledger.value.Value() == Founded(d, sessionId, seats, genesis)
    {
      if sessionId == "" || !SeatsOk(seats) { return None; }
      var i := 0;
      while i < |seats|
        invariant 0 <= i <= |seats|
        invariant forall j :: 0 <= j < i ==>
          seats[j] in genesis && (genesis[seats[j]].Some? ==> genesis[seats[j]].value.controllerId != "")
      {
        if seats[i] !in genesis { return None; }
        if genesis[seats[i]].Some? && genesis[seats[i]].value.controllerId == "" { return None; }
        i := i + 1;
      }
      FoundedSound(d, sessionId, seats, genesis);
      var made := new SeatControlLedger(d, Founded(d, sessionId, seats, genesis));
      ledger := Some(made);
    }

    // ---- Preparing, committing, aborting ----

    /** Prepares an atomic change of one or more seats; None for any thrown error. */
    method PrepareSeatControl(changes: seq<Change>, a: Authorization) returns (t: Option<PreparedSeatControl>)
      requires Valid()
      modifies this
      ensures Valid()
      ensures t.Some? <==> Prepare(d, old(Value()), changes, a).Some?
      ensures Value() == Act(d, old(Value()), Propose(changes, a))
      ensures t.Some? ==> fresh(t.value) && active == t && issued == old(issued) + {t.value}
      ensures t.None? ==> unchanged(this)
    {
      hide Sound, Changes, Extended;
      if active.Some? || changes == [] { return None; }
      HistoriesFilled(d, Value());
      var drawn := DrawEpochs(d, history, revision, changes, a);
      if drawn.None? { return None; }
      PrepareSound(d, Value(), changes, a);
      var transition := new PreparedSeatControl(this, revision, drawn.value.0, drawn.value.1);
      active, issued := Some(transition), issued + {transition};
      t := Some(transition);
    }

    /** Commits a prepared change; a change that is still open was always prepared from the current
        revision, so it is never stale. */
    method CommitChange(t: PreparedSeatControl) returns (e: Option<LedgerError>)
      requires Valid() && (t.owner == this ==> t in issued)
      modifies this, t
      ensures Valid() && issued == old(issued)
      ensures e == Some(ForeignTransition) <==> t.owner != this
      ensures e == Some(AlreadyCompleted) <==> t.owner == this && old(t.completed)
      ensures e.Some? ==> unchanged(this) && unchanged(t)
      ensures e.None? ==>
        && old(active) == Some(t) && t.base == old(revision) && t.completed
        && Value() == Act(d, old(Value()), Accept) && revision == old(revision) + 1
    {
      hide Sound, Extended;
      if t.owner != this { return Some(ForeignTransition); }
      if t.completed { return Some(AlreadyCompleted); }
      CommitSound(d, Value());
      t.completed := true;
      active := None;
      history := t.next;
      revision := t.base + 1;
      e := None;
    }

    method AbortChange(t: PreparedSeatControl) returns (e: Option<LedgerError>)
      requires Valid() && (t.owner == this ==> t in issued)
      modifies this, t
      ensures Valid() && issued == old(issued)
      ensures e == Some(ForeignTransition) <==> t.owner != this
      ensures e == Some(AlreadyCompleted) <==> t.owner == this && old(t.completed)
      ensures e.Some? ==> unchanged(this) && unchanged(t)
      ensures e.None? ==> t.completed && Value() == Act(d, old(Value()), Withdraw)
    {
      if t.owner != this { return Some(ForeignTransition); }
      if t.completed { return Some(AlreadyCompleted); }
      t.completed := true;
      active := None;
      e := None;
    }

    // ---- Reading the schedule ----

    /** Who controlled a seat at a committed revision; None for an unknown seat or revision. */
    method Controlled(seat: Seat, at: int) returns (e: Option<Epoch>)
      requires Valid()
      ensures e.Some? <==> seat in history && 0 <= at <= revision
      ensures e.Some? ==> e == SeatControl.EpochAt(history[seat], at)
    {
      hide EpochOk, RevisionsOk, PendingOk;
      if at < 0 || at > revision || seat !in history { return None; }
      var epochs := history[seat];
      AlwaysControlled(d, seat, epochs, at);
      var i := |epochs|;
      assert epochs[..i] == epochs;
      while i > 0
        invariant 0 <= i <= |epochs|
        invariant SeatControl.EpochAt(epochs, at) == SeatControl.EpochAt(epochs[..i], at)
      {
        if epochs[i - 1].base.effective <= at { return Some(epochs[i - 1]); }
        assert epochs[..i][..i - 1] == epochs[..i - 1];
        i := i - 1;
      }
      assert false;
    }

    /** `authorize` at a revision: the seat is occupied in that very epoch, by that controller if one
        is named. */
    method Authorize(seat: Seat, epoch: int, controllerId: Option<string>, at: int) returns (e: Option<Epoch>)
      requires Valid()
      ensures e.Some? <==>
        && seat in history && 0 <= at <= revision
        && var inForce := SeatControl.EpochAt(history[seat], at);
           inForce.Some? && inForce.value.base.status == Occupied && inForce.value.base.epoch == epoch
           && (controllerId.Some? ==> inForce.value.base.controller.Some?
                                      && inForce.value.base.controller.value.controllerId == controllerId.value)
      ensures e.Some? ==> e == SeatControl.EpochAt(history[seat], at)
    {
      hide Sound;
      var inForce := Controlled(seat, at);
      if inForce.None? { return None; }
      var b := inForce.value.base;
      if b.status != Occupied || b.epoch != epoch { return None; }
      if controllerId.Some? && (b.controller.None? || b.controller.value.controllerId != controllerId.value) {
        return None; }
      e := inForce;
    }

    /** `checkpoint` */
    method TakeCheckpoint() returns (c: Checkpoint)
      requires Valid()
      ensures c == CheckpointOf(Value())
    {
      hide Sound;
      var epochs := FlattenHistory(seats, history);
      c := Checkpoint(sessionId, revision, seats, epochs,
        if active.None? then [] else [PendingRecord(active.value.base, active.value.base + 1, active.value.epochs)]);
    }

    // ---- Rehydration ----

    /** `rehydrate`; None for any thrown error. */
    static method Rehydrated(d: Digest, c: Checkpoint) returns (ledger: Option<SeatControlLedger>)
      ensures ledger.Some? <==> Rehydrate(d, c).Some?
      ensures ledger.Some? ==>
        fresh(ledger.value) && fresh(ledger.value.issued) && ledger.value.Valid() && ledger.value.d == d
        && Some(ledger.value.Value()) == Rehydrate(d, c)
    {
      hide HistoryOk, EpochOk, RevisionsOk, PendingOk, AllLinked, HistoryOf;
      if c.sessionId == "" || !SeatsOk(c.seats) { return None; }
      var i := 0;
      while i < |c.epochs|
        invariant 0 <= i <= |c.epochs| && forall j :: 0 <= j < i ==> c.epochs[j].base.seat in c.seats
      {
        if c.epochs[i].base.seat !in c.seats { return None; }
        i := i + 1;
      }
      var history := Rebuild(d, c);
      if history.None? { return None; }
      var covered := CheckRevisions(c.seats, history.value, c.revision);
      if !covered || |c.prepared| > 1 { return None; }
      if |c.prepared| == 1 {
        var p := c.prepared[0];
        if p.base != c.revision || p.next != c.revision + 1 { return None; }
        var allowed := CheckPending(d, history.value, c.revision, p.epochs);
        if !allowed { return None; }
      }
      RehydratedSound(d, c);
      Unpended(d, Rehydrate(d, c).value);
      var made := new SeatControlLedger(d, Ledger(c.sessionId, c.seats, c.revision, history.value, None));
      if |c.prepared| == 1 {
        var pending := new PreparedSeatControl(made, c.revision, c.prepared[0].epochs,
          Extended(history.value, c.prepared[0].epochs));
        made.active, made.issued := Some(pending), {pending};
      }
      ledger := Some(made);
    }
  }

  /** The loop over the changes, and the histories it appends to. */
  method DrawEpochs(d: Digest, history: map<Seat, seq<Epoch>>, revision: nat, changes: seq<Change>, a: Authorization)
    returns (drawn: Option<(seq<Epoch>, map<Seat, seq<Epoch>>)>)
    requires forall seat :: seat in history ==> history[seat] != []
    ensures var spec := Changes(d, history, revision, changes, a, {});
      && (drawn.Some? <==> spec.Some?)
      && (drawn.Some? ==> drawn.value == (spec.value, Extended(history, spec.value)))
  {
    hide Permitted, Changes, Extended, Prefixed;
    var seen, next, epochs := {}, history, [];
    var i := 0;
    assert changes[0..] == changes;
    PrefixNone(Changes(d, history, revision, changes, a, {}));
    ExtendedNothing(history);
    while i < |changes|
      invariant 0 <= i <= |changes|
      invariant Changes(d, history, revision, changes, a, {})
             == Prefixed(epochs, Changes(d, history, revision, changes[i..], a, seen))
      invariant seen == (set e | e in epochs :: e.base.seat)
      invariant forall e :: e in epochs ==> e.base.seat in history
      invariant forall j, k :: 0 <= j < k < |epochs| ==> epochs[j].base.seat != epochs[k].base.seat
      invariant next == Extended(history, epochs)
    {
      var c := changes[i];
      ChangesStep(d, history, revision, changes, i, a, seen);
      ExtendedEach(history, epochs, c.seat);
      PrefixRefused(epochs, Changes(d, history, revision, changes[i..], a, seen));
      if c.seat in seen || c.seat !in next { return None; }
      var previous := next[c.seat][|next[c.seat]| - 1];
      if !Permitted(c, a, previous) { return None; }
      var epoch := ChangedEpoch(d, c, a, previous, revision + 1);
      PrefixSnoc(epochs, epoch, Changes(d, history, revision, changes[i + 1..], a, seen + {c.seat}));
      ExtendedSnoc(history, epochs, epoch);
      next := next[c.seat := next[c.seat] + [epoch]];
      seen, epochs := seen + {c.seat}, epochs + [epoch];
      i := i + 1;
    }
    ChangesDone(d, history, revision, a, seen, epochs);
    assert changes[i..] == [];
    drawn := Some((epochs, next));
  }

  // ---- Loops of the checkpoint and of rehydration ----

  method FlattenHistory(seats: seq<Seat>, history: map<Seat, seq<Epoch>>) returns (epochs: seq<Epoch>)
    ensures epochs == Flatten(seats, history)
  {
    epochs := [];
    var i := |seats|;
    assert seats[i..] == [];
    while i > 0
      invariant 0 <= i <= |seats| && epochs == Flatten(seats[i..], history)
    {
      i := i - 1;
      assert seats[i..][1..] == seats[i + 1..] && seats[i..][0] == seats[i];
      epochs := (if seats[i] in history then history[seats[i]] else []) + epochs;
    }
    assert seats[0..] == seats;
  }

  /** Every seat's epochs, sorted and checked one by one. */
  method Rebuild(d: Digest, c: Checkpoint) returns (history: Option<map<Seat, seq<Epoch>>>)
    ensures history.Some? <==> HistoriesOk(d, c.seats, HistoryOf(c)) && HistoriesLinked(HistoryOf(c))
    ensures history.Some? ==> history.value == HistoryOf(c)
  {
    hide EpochOk, SortEpochs, OfSeat, Linked;
    var i := 0;
    while i < |c.seats|
      invariant 0 <= i <= |c.seats|
      invariant forall j :: 0 <= j < i ==>
        HistoryOk(d, c.seats[j], HistoryOf(c)[c.seats[j]]) && AllLinked(HistoryOf(c)[c.seats[j]])
    {
      var seat := c.seats[i];
      var epochs := SortEpochs(OfSeat(c.epochs, seat));
      assert epochs == HistoryOf(c)[seat];
      if epochs == [] { return None; }
      var j := 0;
      while j < |epochs|
        invariant 0 <= j <= |epochs|
        invariant forall k :: 0 <= k < j ==> EpochOk(d, seat, epochs, k) && Linked(epochs[k].base)
      {
        if !EpochOk(d, seat, epochs, j) || !Linked(epochs[j].base) { return None; }
        j := j + 1;
      }
      i := i + 1;
    }
    history := Some(HistoryOf(c));
  }

  lemma {:induction false} InFlatten(seats: seq<Seat>, history: map<Seat, seq<Epoch>>, e: Epoch)
    requires forall i :: 0 <= i < |seats| ==> seats[i] in history
    ensures e in Flatten(seats, history) <==> exists i :: 0 <= i < |seats| && e in history[seats[i]]
  {
    if seats != [] {
      InFlatten(seats[1..], history, e);
      assert seats == [seats[0]] + seats[1..];
      if i :| 0 <= i < |seats| && e in history[seats[i]] {
        if i > 0 { assert seats[1..][i - 1] == seats[i]; }
      }
    }
  }

  /** No epoch lies ahead, each revision changed something, and its changes share an authorization. */
  method CheckRevisions(seats: seq<Seat>, history: map<Seat, seq<Epoch>>, revision: int) returns (ok: bool)
    requires forall seat :: seat in history <==> seat in seats
    ensures ok <==> RevisionsOk(history, revision)
    ensures ok ==> revision >= 0
  {
    hide SameAuthorization, RevisionsOk, Holds, UniformAt, Flatten;
    NeverNegative(history, revision);
    if revision < 0 { return false; }
    var all := Flatten(seats, history);
    FlattenedEpochs(seats, history);
    var i := 0;
    while i < |all|
      invariant 0 <= i <= |all| && forall j :: 0 <= j < i ==> all[j].base.effective <= revision
    {
      if all[i].base.effective > revision {
        NotAhead(history, all, revision, i);
        return false;
      }
      i := i + 1;
    }
    var r := 1;
    while r <= revision
      invariant 1 <= r <= revision + 1
      invariant forall q :: 1 <= q < r ==> UniformAt(all, q)
    {
      var uniform := CheckUniform(all, r);
      if !uniform {
        NotUniform(history, all, revision, r);
        return false;
      }
      r := r + 1;
    }
    UniformRevisions(history, all, revision);
    ok := true;
  }

  /** Some epoch of the list took effect at `r`, and all that did share their authorization. */
  ghost predicate UniformAt(all: seq<Epoch>, r: int) {
    && (exists i :: 0 <= i < |all| && all[i].base.effective == r)
    && forall i, j :: 0 <= i < |all| && 0 <= j < |all| && all[i].base.effective == r && all[j].base.effective == r ==>
         SameAuthorization(all[i].base, all[j].base)
  }

  method CheckUniform(all: seq<Epoch>, r: int) returns (ok: bool)
    ensures ok <==> UniformAt(all, r)
  {
    var first := None;
    var i := 0;
    while i < |all|
      invariant 0 <= i <= |all|
      invariant first.None? ==> forall j :: 0 <= j < i ==> all[j].base.effective != r
      invariant first.Some? ==>
        && (exists j :: 0 <= j < i && all[j] == first.value && all[j].base.effective == r)
        && forall j :: 0 <= j < i && all[j].base.effective == r ==> SameAuthorization(all[j].base, first.value.base)
    {
      if all[i].base.effective == r {
        if first.None? { first := Some(all[i]); }
        else if !SameAuthorization(all[i].base, first.value.base) { return false; }
      }
      i := i + 1;
    }
    ok := first.Some?;
  }

  /** The list holds exactly the epochs of the histories. */
  ghost predicate Holds(history: map<Seat, seq<Epoch>>, all: seq<Epoch>) {
    && (forall e :: e in all ==> exists seat :: seat in history && e in history[seat])
    && (forall seat, i :: seat in history && 0 <= i < |history[seat]| ==> history[seat][i] in all)
  }

  lemma FlattenedEpochs(seats: seq<Seat>, history: map<Seat, seq<Epoch>>)
    requires forall seat :: seat in history <==> seat in seats
    ensures Holds(history, Flatten(seats, history))
  {
    forall e | e in Flatten(seats, history) ensures exists seat :: seat in history && e in history[seat] {
      InFlatten(seats, history, e);
      var i :| 0 <= i < |seats| && e in history[seats[i]];
      assert seats[i] in history;
    }
    forall seat: Seat, i: int | seat in history && 0 <= i < |history[seat]|
      ensures history[seat][i] in Flatten(seats, history) {
      InFlatten(seats, history, history[seat][i]);
      var j :| 0 <= j < |seats| && seats[j] == seat;
    }
  }

  lemma NeverNegative(history: map<Seat, seq<Epoch>>, revision: int)
    ensures RevisionsOk(history, revision) ==> revision >= 0
  {
  }

  lemma NotAhead(history: map<Seat, seq<Epoch>>, all: seq<Epoch>, revision: int, k: nat)
    requires Holds(history, all) && k < |all| && all[k].base.effective > revision
    ensures !RevisionsOk(history, revision)
  {
    var e := all[k];
    assert e in all;
    var seat :| seat in history && e in history[seat];
    var i :| 0 <= i < |history[seat]| && history[seat][i] == e;
  }

  lemma NotUniform(history: map<Seat, seq<Epoch>>, all: seq<Epoch>, revision: int, r: int)
    requires Holds(history, all) && 1 <= r <= revision && !UniformAt(all, r)
    ensures !RevisionsOk(history, revision)
  {
    hide SameAuthorization;
    if RevisionsOk(history, revision) {
      assert Covered(history, r);
      var seat, i :| seat in history && 0 <= i < |history[seat]| && history[seat][i].base.effective == r;
      var at :| 0 <= at < |all| && all[at] == history[seat][i];
      forall j, k | 0 <= j < |all| && 0 <= k < |all| && all[j].base.effective == r && all[k].base.effective == r
        ensures SameAuthorization(all[j].base, all[k].base)
      {
        assert all[j] in all && all[k] in all;
        var s :| s in history && all[j] in history[s];
        var t :| t in history && all[k] in history[t];
        var m :| 0 <= m < |history[s]| && history[s][m] == all[j];
        var n :| 0 <= n < |history[t]| && history[t][n] == all[k];
        assert AtomicPair(history[s][m].base, history[t][n].base);
      }
    }
  }

  lemma UniformRevisions(history: map<Seat, seq<Epoch>>, all: seq<Epoch>, revision: int)
    requires Holds(history, all) && revision >= 0
    requires forall i :: 0 <= i < |all| ==> all[i].base.effective <= revision
    requires forall r :: 1 <= r <= revision ==> UniformAt(all, r)
    ensures RevisionsOk(history, revision)
  {
    hide SameAuthorization;
    forall r | 1 <= r <= revision ensures Covered(history, r) {
      assert UniformAt(all, r);
      var i :| 0 <= i < |all| && all[i].base.effective == r;
      assert all[i] in all;
      var seat :| seat in history && all[i] in history[seat];
      var k :| 0 <= k < |history[seat]| && history[seat][k] == all[i];
    }
    forall s: Seat, t: Seat, i: int, j: int | s in history && t in history && 0 <= i < |history[s]|
      && 0 <= j < |history[t]|
      ensures AtomicPair(history[s][i].base, history[t][j].base)
    {
      var a, b := history[s][i], history[t][j];
      assert a in all && b in all;
      if a.base.effective == b.base.effective > 0 {
        assert UniformAt(all, a.base.effective);
        var m :| 0 <= m < |all| && all[m] == a;
        var n :| 0 <= n < |all| && all[n] == b;
      }
    }
  }

  /** The checks on a checkpoint's prepared change. */
  method CheckPending(d: Digest, history: map<Seat, seq<Epoch>>, revision: nat, epochs: seq<Epoch>) returns (ok: bool)
    ensures ok <==> PendingOk(d, history, revision, epochs) && AllLinked(epochs)
  {
    hide PendingEpochOk, SameAuthorization, Linked;
    if epochs == [] { return false; }
    var seen := {};
    var i := 0;
    while i < |epochs|
      invariant 0 <= i <= |epochs|
      invariant seen == set j | 0 <= j < i :: epochs[j].base.seat
      invariant forall j, k :: 0 <= j < k < i ==> epochs[j].base.seat != epochs[k].base.seat
      invariant forall j :: 0 <= j < i ==>
        PendingEpochOk(d, history, revision, epochs[j]) && Linked(epochs[j].base)
        && SameAuthorization(epochs[j].base, epochs[0].base)
    {
      var e := epochs[i];
      if e.base.seat in seen || !PendingEpochOk(d, history, revision, e) || !Linked(e.base)
         || !SameAuthorization(e.base, epochs[0].base) { return false; }
      seen := seen + {e.base.seat};
      i := i + 1;
    }
    ok := true;
  }

  lemma Unpended(d: Digest, l: Ledger)
    requires Sound(d, l)
    ensures Sound(d, l.(pending := None))
  {
  }

  // ---- Facts for the prepare loop ----

  function Prefixed(epochs: seq<Epoch>, rest: Option<seq<Epoch>>): Option<seq<Epoch>> {
    if rest.Some? then Some(epochs + rest.value) else None
  }

  lemma PrefixNone(rest: Option<seq<Epoch>>)
    ensures Prefixed([], rest) == rest
  {
    if rest.Some? { assert [] + rest.value == rest.value; }
  }

  lemma PrefixRefused(epochs: seq<Epoch>, rest: Option<seq<Epoch>>)
    ensures rest.None? ==> Prefixed(epochs, rest).None?
  {
  }

  lemma ExtendedNothing(history: map<Seat, seq<Epoch>>)
    ensures Extended(history, []) == history
  {
  }

  /** One iteration of the prepare loop. */
  lemma ChangesStep(
    d: Digest, history: map<Seat, seq<Epoch>>, revision: nat, changes: seq<Change>, i: nat, a: Authorization,
      seen: set<Seat>)
    requires i < |changes| && forall seat :: seat in history ==> history[seat] != []
    ensures var c := changes[i];
      var now := Changes(d, history, revision, changes[i..], a, seen);
      if c.seat in seen || c.seat !in history || !Permitted(c, a, LastOf(history[c.seat])) then now.None?
      else
        var rest := Changes(d, history, revision, changes[i + 1..], a, seen + {c.seat});
        var e := ChangedEpoch(d, c, a, LastOf(history[c.seat]), revision + 1);
        now == if rest.Some? then Some([e] + rest.value) else None
  {
    hide Permitted;
    assert changes[i..][1..] == changes[i + 1..];
  }

  lemma ChangesDone(
    d: Digest, history: map<Seat, seq<Epoch>>, revision: nat, a: Authorization, seen: set<Seat>, epochs: seq<Epoch>)
    ensures Prefixed(epochs, Changes(d, history, revision, [], a, seen)) == Some(epochs)
  {
    assert epochs + [] == epochs;
  }

  lemma PrefixSnoc(epochs: seq<Epoch>, e: Epoch, rest: Option<seq<Epoch>>)
    ensures rest.Some? ==> Prefixed(epochs, Some([e] + rest.value)) == Prefixed(epochs + [e], rest)
    ensures rest.None? ==> Prefixed(epochs + [e], rest).None?
  {
    if rest.Some? { assert epochs + [e] + rest.value == epochs + ([e] + rest.value); }
  }

  lemma {:induction false} ExtendedSnoc(history: map<Seat, seq<Epoch>>, epochs: seq<Epoch>, e: Epoch)
    ensures var next := Extended(history, epochs);
      Extended(history, epochs + [e])
      == next[e.base.seat := (if e.base.seat in next then next[e.base.seat] else []) + [e]]
    decreases |epochs|
  {
    if epochs == [] {
      assert [] + [e] == [e] && [e][1..] == [];
    } else {
      assert (epochs + [e])[1..] == epochs[1..] + [e];
      var seat := epochs[0].base.seat;
      ExtendedSnoc(history[seat := (if seat in history then history[seat] else []) + [epochs[0]]], epochs[1..], e);
    }
  }

  lemma HistoriesFilled(d: Digest, l: Ledger)
    requires Sound(d, l)
    ensures forall seat :: seat in l.history ==> l.history[seat] != []
  {
  }

  /** The stale branch of `commit` cannot be reached: an open change has the current revision as base. */
  lemma NeverStale(ledger: SeatControlLedger, t: PreparedSeatControl)
    requires ledger.Valid() && t in ledger.issued && !t.completed
    ensures t.base == ledger.revision && ledger.active == Some(t)
  {
  }
}
