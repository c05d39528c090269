/** The schedule of who controls each seat (src/seat-control.ts): what a change appends, what a
    checkpoint holds and what rehydration accepts. Digests are an uninterpreted function. */
module SeatControl {
  import opened Wrappers

  type Seat = string

  datatype Kind = Human | Agent | Service
  datatype Controller = Controller(controllerId: string, kind: Kind, publicKey: Option<string>,
    signingTier: Option<string>)

  datatype ChangeReason = Released | Disconnected | Substituted | Transferred | Revoked
  datatype Reason = Genesis | Reconnected | Changed(reason: ChangeReason)
  datatype Status = Occupied | Vacant
  datatype Mode = ByGenesis | ByHandoff | ByPolicy

  datatype Authorization =
    | Handoff(outgoing: map<Seat, string>, incoming: map<Seat, string>)
    | HostPolicy(policy: string)

  /** A `SeatControlEpoch` without its digest. */
  datatype Base = Base(
    seat: Seat, epoch: int, status: Status, controller: Option<Controller>, effective: int, reason: Reason,
    authorization: Mode, evidence: Option<Authorization>, previousDigest: Option<string>,
      previousChainHead: Option<string>)

  datatype Epoch = Epoch(base: Base, digest: string)

  datatype Change = Change(
    seat: Seat, status: Status, controller: Option<Controller>, reason: ChangeReason, previousChainHead: Option<string>)

  type Digest = Base -> string

  datatype Ledger = Ledger(
    sessionId: string, seats: seq<Seat>, revision: nat, history: map<Seat, seq<Epoch>>, pending: Option<seq<Epoch>>)

  datatype PendingRecord = PendingRecord(base: int, next: int, epochs: seq<Epoch>)

  datatype Checkpoint = Checkpoint(
    sessionId: string, revision: int, seats: seq<Seat>, epochs: seq<Epoch>, prepared: seq<PendingRecord>)

  // ---- What a schedule must look like ----

  predicate ControllerNamed(c: Option<Controller>) { c.Some? && c.value.controllerId != "" }

  predicate StatusOk(b: Base) { if b.status == Occupied then ControllerNamed(b.controller) else b.controller.None? }

  predicate Signed(signatures: map<Seat, string>, seat: Seat) { seat in signatures && signatures[seat] != "" }

  predicate HandoffSigned(b: Base) {
    && b.evidence.Some? && b.evidence.value.Handoff?
    && Signed(b.evidence.value.outgoing, b.seat)
    && (b.status == Occupied ==> Signed(b.evidence.value.incoming, b.seat))
  }

  predicate PolicyNamed(b: Base) { b.evidence.Some? && b.evidence.value.HostPolicy? && b.evidence.value.policy != "" }

  predicate AuthorizationOk(b: Base) {
    match b.authorization
    case ByGenesis => false
    case ByHandoff => HandoffSigned(b)
    case ByPolicy => PolicyNamed(b)
  }

  /** A handoff states the chain head it hands over. */
  predicate Linked(b: Base) { b.authorization == ByHandoff ==> b.previousChainHead.Some? }

  predicate GenesisOk(b: Base) {
    && b.reason == Genesis && b.authorization == ByGenesis && b.effective == 0
    && b.previousDigest.None? && b.previousChainHead.None? && b.evidence.None?
  }

  /** The change of a seat after its epoch `previous`. */
  predicate ChangeOk(b: Base, previous: Epoch) {
    && b.reason.Changed? && AuthorizationOk(b)
    && b.effective > previous.base.effective
    && b.previousDigest == Some(previous.digest)
  }

  predicate EpochOk(d: Digest, seat: Seat, epochs: seq<Epoch>, i: nat)
    requires i < |epochs|
  {
    var b := epochs[i].base;
    && b.seat == seat && b.epoch == i && b.effective >= 0
    && (if i == 0 then GenesisOk(b) else ChangeOk(b, epochs[i - 1]))
    && StatusOk(b)
    && epochs[i].digest == d(b)
  }

  /** Consecutive, strictly rising, digest-linked epochs starting at genesis. */
  ghost predicate HistoryOk(d: Digest, seat: Seat, epochs: seq<Epoch>) {
    epochs != [] && forall i :: 0 <= i < |epochs| ==> EpochOk(d, seat, epochs, i)
  }

  ghost predicate AllLinked(epochs: seq<Epoch>) { forall i :: 0 <= i < |epochs| ==> Linked(epochs[i].base) }

  predicate SameAuthorization(a: Base, b: Base) { a.authorization == b.authorization && a.evidence == b.evidence }

  /** Some seat changed at this revision. */
  ghost predicate Covered(history: map<Seat, seq<Epoch>>, revision: int) {
    exists seat, i :: seat in history && 0 <= i < |history[seat]| && history[seat][i].base.effective == revision
  }

  /** The changes of one revision share their authorization. */
  ghost predicate Atomic(history: map<Seat, seq<Epoch>>) {
    forall s, t, i, j :: s in history && t in history && 0 <= i < |history[s]| && 0 <= j < |history[t]| ==>
      AtomicPair(history[s][i].base, history[t][j].base)
  }

  predicate AtomicPair(a: Base, b: Base) { a.effective == b.effective > 0 ==> SameAuthorization(a, b) }

  /** No change lies ahead of the revision, and each revision changed something. */
  ghost predicate RevisionsOk(history: map<Seat, seq<Epoch>>, revision: int) {
    && revision >= 0
    && (forall seat, i :: seat in history && 0 <= i < |history[seat]| ==> history[seat][i].base.effective <= revision)
    && (forall r :: 1 <= r <= revision ==> Covered(history, r))
    && Atomic(history)
  }

  predicate PendingEpochOk(d: Digest, history: map<Seat, seq<Epoch>>, revision: nat, e: Epoch) {
    var b := e.base;
    && b.seat in history && history[b.seat] != []
    && var previous := history[b.seat][|history[b.seat]| - 1];
    && b.epoch == previous.base.epoch + 1 && b.effective == revision + 1
    && b.previousDigest == Some(previous.digest)
    && b.reason.Changed? && AuthorizationOk(b) && StatusOk(b)
    && e.digest == d(b)
  }

  ghost predicate PendingOk(d: Digest, history: map<Seat, seq<Epoch>>, revision: nat, epochs: seq<Epoch>) {
    && epochs != []
    && (forall i, j :: 0 <= i < j < |epochs| ==> epochs[i].base.seat != epochs[j].base.seat)
    && (forall i :: 0 <= i < |epochs| ==> PendingEpochOk(d, history, revision, epochs[i]))
    && (forall i :: 0 <= i < |epochs| ==> SameAuthorization(epochs[i].base, epochs[0].base))
  }

  predicate SeatsOk(seats: seq<Seat>) {
    seats != [] && "" !in seats && forall i, j :: 0 <= i < j < |seats| ==> seats[i] != seats[j]
  }

  ghost predicate HistoriesOk(d: Digest, seats: seq<Seat>, history: map<Seat, seq<Epoch>>) {
    && (forall seat :: seat in history <==> seat in seats)
    && (forall seat :: seat in history ==> HistoryOk(d, seat, history[seat]))
  }

  /** The schedule of a ledger: consecutive, rising, linked by digest and covering every revision. */
  ghost predicate Sound(d: Digest, l: Ledger) {
    && l.sessionId != "" && SeatsOk(l.seats)
    && HistoriesOk(d, l.seats, l.history) && RevisionsOk(l.history, l.revision)
    && (l.pending.Some? ==> PendingOk(d, l.history, l.revision, l.pending.value))
  }

  /** Every handoff, committed or pending, names a chain head. */
  ghost predicate HandoffsLinked(l: Ledger) {
    && (forall seat :: seat in l.history ==> AllLinked(l.history[seat]))
    && (l.pending.Some? ==> AllLinked(l.pending.value))
  }

  // ---- Genesis and changes ----

  function GenesisEpoch(d: Digest, seat: Seat, controller: Option<Controller>): Epoch {
    var status := if controller.None? then Vacant else Occupied;
    var b := Base(seat, 0, status, controller, 0, Genesis, ByGenesis, None, None, None);
    Epoch(b, d(b))
  }

  function ModeOf(a: Authorization): Mode { if a.Handoff? then ByHandoff else ByPolicy }

  function ChangedEpoch(d: Digest, c: Change, a: Authorization, previous: Epoch, revision: nat): Epoch {
    var b := Base(c.seat, previous.base.epoch + 1, c.status, c.controller, revision, Changed(c.reason), ModeOf(a),
      Some(a),
                  Some(previous.digest), c.previousChainHead);
    Epoch(b, d(b))
  }

  /** The checks on one change of a seat whose last epoch is `previous`. */
  predicate Permitted(c: Change, a: Authorization, previous: Epoch) {
    && (if c.status == Occupied then ControllerNamed(c.controller) else c.controller.None?)
    && match a
       case Handoff(outgoing, incoming) =>
         && previous.base.status == Occupied && Signed(outgoing, c.seat)
         && (c.status == Occupied ==> Signed(incoming, c.seat))
       case HostPolicy(policy) => policy != ""
  }

  function LastOf(epochs: seq<Epoch>): Epoch
    requires epochs != []
  {
    epochs[|epochs| - 1]
  }

  /** The loop of `prepareSeatControl`: the epochs it appends, None for any thrown error. */
  function Changes(
    d: Digest, history: map<Seat, seq<Epoch>>, revision: nat, changes: seq<Change>, a: Authorization,
      seen: set<Seat>): Option<seq<Epoch>>
    decreases |changes|
  {
    if changes == [] then Some([])
    else
      var c := changes[0];
      if c.seat in seen || c.seat !in history || history[c.seat] == [] then None
      else if !Permitted(c, a, LastOf(history[c.seat])) then None
      else match Changes(d, history, revision, changes[1..], a, seen + {c.seat})
        case None => None
        case Some(rest) => Some([ChangedEpoch(d, c, a, LastOf(history[c.seat]), revision + 1)] + rest)
  }

  /** Each seat's history with its pending epoch appended. */
  function Extended(history: map<Seat, seq<Epoch>>, epochs: seq<Epoch>): map<Seat, seq<Epoch>>
    decreases |epochs|
  {
    if epochs == [] then history
    else
      var seat := epochs[0].base.seat;
      Extended(history[seat := (if seat in history then history[seat] else []) + [epochs[0]]], epochs[1..])
  }

  function Prepare(d: Digest, l: Ledger, changes: seq<Change>, a: Authorization): Option<Ledger> {
    if l.pending.Some? || changes == [] then None
    else match Changes(d, l.history, l.revision, changes, a, {})
      case None => None
      case Some(epochs) => Some(l.(pending := Some(epochs)))
  }

  function Commit(l: Ledger): Ledger
    requires l.pending.Some?
  {
    l.(history := Extended(l.history, l.pending.value), revision := l.revision + 1, pending := None)
  }

  function Abort(l: Ledger): Ledger { l.(pending := None) }

  lemma {:induction false} ChangesSound(
    d: Digest, history: map<Seat, seq<Epoch>>, revision: nat, changes: seq<Change>, a: Authorization, seen: set<Seat>)
    ensures var r := Changes(d, history, revision, changes, a, seen);
      r.Some? ==>
        && |r.value| == |changes|
        && (forall i :: 0 <= i < |r.value| ==>
              && r.value[i].base.seat == changes[i].seat && r.value[i].base.seat !in seen
              && PendingEpochOk(d, history, revision, r.value[i])
              && r.value[i].base.authorization == ModeOf(a) && r.value[i].base.evidence == Some(a))
        && (forall i, j :: 0 <= i < j < |r.value| ==> r.value[i].base.seat != r.value[j].base.seat)
    decreases |changes|
  {
    hide PendingEpochOk, Permitted, ChangedEpoch;
    if changes != [] {
      ChangesSound(d, history, revision, changes[1..], a, seen + {changes[0].seat});
      ChangeSound(d, history, revision, changes[0], a);
    }
  }

  lemma ChangeSound(d: Digest, history: map<Seat, seq<Epoch>>, revision: nat, c: Change, a: Authorization)
    ensures c.seat in history && history[c.seat] != [] && Permitted(c, a, LastOf(history[c.seat])) ==>
      var e := ChangedEpoch(d, c, a, LastOf(history[c.seat]), revision + 1);
      && PendingEpochOk(d, history, revision, e)
      && e.base.seat == c.seat && e.base.authorization == ModeOf(a) && e.base.evidence == Some(a)
  {
  }

  /** A permitted change leaves a sound ledger sound. */
  lemma PrepareSound(d: Digest, l: Ledger, changes: seq<Change>, a: Authorization)
    requires Sound(d, l)
    ensures var r := Prepare(d, l, changes, a); r.Some? ==> Sound(d, r.value)
  {
    ChangesSound(d, l.history, l.revision, changes, a, {});
  }

  /** What an extension does to each seat. */
  lemma {:induction false} ExtendedEach(history: map<Seat, seq<Epoch>>, epochs: seq<Epoch>, seat: Seat)
    requires forall i, j :: 0 <= i < j < |epochs| ==> epochs[i].base.seat != epochs[j].base.seat
    requires forall i :: 0 <= i < |epochs| ==> epochs[i].base.seat in history
    ensures seat in Extended(history, epochs) <==> seat in history
    ensures seat in history && (forall i :: 0 <= i < |epochs| ==> epochs[i].base.seat != seat) ==>
      Extended(history, epochs)[seat] == history[seat]
    ensures forall i :: 0 <= i < |epochs| && epochs[i].base.seat == seat ==>
      seat in history && Extended(history, epochs)[seat] == history[seat] + [epochs[i]]
  {
    if epochs != [] {
      var first := epochs[0].base.seat;
      var next := history[first := history[first] + [epochs[0]]];
      ExtendedEach(next, epochs[1..], seat);
      forall i | 0 <= i < |epochs| && epochs[i].base.seat == seat
        ensures seat in history && Extended(history, epochs)[seat] == history[seat] + [epochs[i]]
      {
        if i > 0 { assert epochs[1..][i - 1] == epochs[i]; }
      }
    }
  }

  /** A seat either keeps its history or gains the one pending epoch that is its own. */
  ghost predicate Grows(before: seq<Epoch>, after: seq<Epoch>, epochs: seq<Epoch>, seat: Seat) {
    || (after == before && forall i :: 0 <= i < |epochs| ==> epochs[i].base.seat != seat)
    || (exists i :: 0 <= i < |epochs| && epochs[i].base.seat == seat && after == before + [epochs[i]])
  }

  lemma ExtendedGrows(history: map<Seat, seq<Epoch>>, epochs: seq<Epoch>, seat: Seat)
    requires forall i, j :: 0 <= i < j < |epochs| ==> epochs[i].base.seat != epochs[j].base.seat
    requires forall i :: 0 <= i < |epochs| ==> epochs[i].base.seat in history
    requires seat in history
    ensures seat in Extended(history, epochs) && Grows(history[seat], Extended(history, epochs)[seat], epochs, seat)
  {
    ExtendedEach(history, epochs, seat);
  }

  lemma GrownHistoryOk(d: Digest, history: map<Seat, seq<Epoch>>, revision: nat, e: Epoch)
    requires PendingEpochOk(d, history, revision, e) && HistoryOk(d, e.base.seat, history[e.base.seat])
    requires LastOf(history[e.base.seat]).base.effective <= revision
    ensures HistoryOk(d, e.base.seat, history[e.base.seat] + [e])
  {
    var before := history[e.base.seat];
    var after := before + [e];
    forall i | 0 <= i < |after| ensures EpochOk(d, e.base.seat, after, i) {
      if i < |before| {
        assert EpochOk(d, e.base.seat, before, i);
      } else {
        assert EpochOk(d, e.base.seat, before, i - 1);
      }
    }
  }

  /** Committing the pending change leaves a sound ledger sound. */
  lemma CommitSound(d: Digest, l: Ledger)
    requires Sound(d, l) && l.pending.Some?
    ensures Sound(d, Commit(l))
  {
    hide EpochOk, Atomic, SameAuthorization, Extended, Covered, StatusOk, AuthorizationOk;
    var epochs, next := l.pending.value, Extended(l.history, l.pending.value);
    forall seat ensures seat in next <==> seat in l.history { ExtendedEach(l.history, epochs, seat); }
    forall seat | seat in next
      ensures HistoryOk(d, seat, next[seat])
      ensures forall i :: 0 <= i < |next[seat]| ==> next[seat][i].base.effective <= l.revision + 1
    {
      ExtendedGrows(l.history, epochs, seat);
      if i :| 0 <= i < |epochs| && epochs[i].base.seat == seat && next[seat] == l.history[seat] + [epochs[i]] {
        GrownHistoryOk(d, l.history, l.revision, epochs[i]);
      }
    }
    CommitCovers(d, l);
    CommitAtomic(d, l);
  }

  lemma CommitCovers(d: Digest, l: Ledger)
    requires Sound(d, l) && l.pending.Some?
    ensures forall r :: 1 <= r <= l.revision + 1 ==> Covered(Commit(l).history, r)
  {
    hide EpochOk, Atomic;
    var epochs, next := l.pending.value, Commit(l).history;
    forall r | 1 <= r <= l.revision + 1 ensures Covered(next, r) {
      if r <= l.revision {
        assert Covered(l.history, r);
        var seat, i :| seat in l.history && 0 <= i < |l.history[seat]| && l.history[seat][i].base.effective == r;
        ExtendedGrows(l.history, epochs, seat);
        assert next[seat][i].base.effective == r;
      } else {
        var seat := epochs[0].base.seat;
        ExtendedEach(l.history, epochs, seat);
        assert next[seat][|next[seat]| - 1] == epochs[0];
      }
    }
  }

  lemma CommitAtomic(d: Digest, l: Ledger)
    requires Sound(d, l) && l.pending.Some?
    ensures Atomic(Commit(l).history)
  {
    hide EpochOk, StatusOk, AuthorizationOk;
    var next: map<Seat, seq<Epoch>> := Commit(l).history;
    forall s: Seat, t: Seat, i: int, j: int | s in next && t in next && 0 <= i < |next[s]| && 0 <= j < |next[t]|
      ensures AtomicPair(next[s][i].base, next[t][j].base)
    {
      EpochOrigin(d, l, s, i);
      EpochOrigin(d, l, t, j);
    }
  }

  /** An epoch after a commit is an old one or a pending one. */
  lemma EpochOrigin(d: Digest, l: Ledger, seat: Seat, i: nat)
    requires Sound(d, l) && l.pending.Some?
    requires seat in Commit(l).history && i < |Commit(l).history[seat]|
    ensures var b := Commit(l).history[seat][i].base;
      || (seat in l.history && i < |l.history[seat]| && l.history[seat][i].base == b && b.effective <= l.revision)
      || (b.effective == l.revision + 1 && SameAuthorization(b, l.pending.value[0].base))
  {
    hide EpochOk, StatusOk, AuthorizationOk, Atomic;
    ExtendedEach(l.history, l.pending.value, seat);
    ExtendedGrows(l.history, l.pending.value, seat);
  }

  // ---- Who controlled a seat at a revision ----

  /** `epochAt`: the last epoch that took effect by then. */
  function EpochAt(epochs: seq<Epoch>, revision: nat): Option<Epoch> {
    if epochs == [] then None
    else if LastOf(epochs).base.effective <= revision then Some(LastOf(epochs))
    else EpochAt(epochs[..|epochs| - 1], revision)
  }

  /** It is the only epoch in force at that revision. */
  lemma {:induction false} EpochAtInForce(d: Digest, seat: Seat, epochs: seq<Epoch>, revision: nat, i: nat)
    requires HistoryOk(d, seat, epochs) && i < |epochs|
    ensures EpochAt(epochs, revision) == Some(epochs[i])
      <==> epochs[i].base.effective <= revision && (i + 1 < |epochs| ==> revision < epochs[i + 1].base.effective)
  {
    hide StatusOk, AuthorizationOk;
    var last := |epochs| - 1;
    Rising(d, seat, epochs, i, last);
    assert EpochOk(d, seat, epochs, i);
    if LastOf(epochs).base.effective <= revision {
      if i < last {
        assert epochs[i + 1].base.effective <= epochs[last].base.effective by { Rising(d, seat, epochs, i + 1, last); }
      }
      assert EpochOk(d, seat, epochs, last);
    } else {
      var before := epochs[..last];
      if i < last {
        assert HistoryOk(d, seat, before) by {
          forall k | 0 <= k < |before| ensures EpochOk(d, seat, before, k) { assert EpochOk(d, seat, epochs, k); }
        }
        EpochAtInForce(d, seat, before, revision, i);
      } else {
        EpochAtEarlier(d, seat, epochs, revision, last);
      }
    }
  }

  lemma {:induction false} EpochAtEarlier(d: Digest, seat: Seat, epochs: seq<Epoch>, revision: nat, n: nat)
    requires HistoryOk(d, seat, epochs) && n <= |epochs|
    ensures var r := EpochAt(epochs[..n], revision); r.Some? ==>
      r.value.base.epoch < n && r.value.base.effective <= revision
  {
    if n > 0 {
      assert EpochOk(d, seat, epochs, n - 1);
      assert epochs[..n][..n - 1] == epochs[..n - 1];
      EpochAtEarlier(d, seat, epochs, revision, n - 1);
    }
  }

  lemma {:induction false} Rising(d: Digest, seat: Seat, epochs: seq<Epoch>, i: nat, j: nat)
    requires HistoryOk(d, seat, epochs) && i <= j < |epochs|
    ensures epochs[i].base.effective <= epochs[j].base.effective
    ensures i < j ==> epochs[i].base.effective < epochs[j].base.effective
    decreases j - i
  {
    if i < j {
      Rising(d, seat, epochs, i, j - 1);
      assert EpochOk(d, seat, epochs, j);
    }
  }

  /** At every committed revision some epoch of every seat is in force. */
  lemma {:induction false} AlwaysControlled(d: Digest, seat: Seat, epochs: seq<Epoch>, revision: nat)
    requires HistoryOk(d, seat, epochs)
    ensures EpochAt(epochs, revision).Some?
  {
    assert EpochOk(d, seat, epochs, 0);
    if |epochs| > 1 {
      var before := epochs[..|epochs| - 1];
      assert HistoryOk(d, seat, before) by {
        forall k | 0 <= k < |before| ensures EpochOk(d, seat, before, k) { assert EpochOk(d, seat, epochs, k); }
      }
      AlwaysControlled(d, seat, before, revision);
    }
  }

  /** Who was in control at a committed revision never changes later. */
  lemma CommittedControlStays(d: Digest, l: Ledger, seat: Seat, revision: nat)
    requires Sound(d, l) && l.pending.Some? && seat in l.history && revision <= l.revision
    ensures seat in Commit(l).history
    ensures EpochAt(Commit(l).history[seat], revision) == EpochAt(l.history[seat], revision)
  {
    ExtendedEach(l.history, l.pending.value, seat);
    ExtendedGrows(l.history, l.pending.value, seat);
    var after := Commit(l).history[seat];
    if after != l.history[seat] { assert after[..|after| - 1] == l.history[seat]; }
  }

  // ---- Checkpoints ----

  function Flatten(seats: seq<Seat>, history: map<Seat, seq<Epoch>>): seq<Epoch> {
    if seats == [] then []
    else (if seats[0] in history then history[seats[0]] else []) + Flatten(seats[1..], history)
  }

  function CheckpointOf(l: Ledger): Checkpoint {
    Checkpoint(l.sessionId, l.revision, l.seats, Flatten(l.seats, l.history),
      if l.pending.None? then [] else [PendingRecord(l.revision, l.revision + 1, l.pending.value)])
  }

  function OfSeat(epochs: seq<Epoch>, seat: Seat): seq<Epoch> {
    if epochs == [] then []
    else (if epochs[0].base.seat == seat then [epochs[0]] else []) + OfSeat(epochs[1..], seat)
  }

  /** A stable sort by epoch number. */
  function Insert(e: Epoch, sorted: seq<Epoch>): seq<Epoch> {
    if sorted == [] then [e]
    else if e.base.epoch <= sorted[0].base.epoch then [e] + sorted
    else [sorted[0]] + Insert(e, sorted[1..])
  }

  function SortEpochs(epochs: seq<Epoch>): seq<Epoch> {
    if epochs == [] then [] else Insert(epochs[0], SortEpochs(epochs[1..]))
  }

  function HistoryOf(c: Checkpoint): map<Seat, seq<Epoch>> {
    map seat | seat in c.seats :: SortEpochs(OfSeat(c.epochs, seat))
  }

  ghost predicate HistoriesLinked(history: map<Seat, seq<Epoch>>) {
    forall seat :: seat in history ==> AllLinked(history[seat])
  }

  ghost predicate PreparedOk(d: Digest, c: Checkpoint, history: map<Seat, seq<Epoch>>) {
    && |c.prepared| <= 1
    && (|c.prepared| == 1 && c.revision >= 0 ==>
          var p := c.prepared[0];
          && p.base == c.revision && p.next == c.revision + 1
          && PendingOk(d, history, c.revision, p.epochs) && AllLinked(p.epochs))
  }

  /** `rehydrate`; None for any thrown error. */
  ghost function Rehydrate(d: Digest, c: Checkpoint): Option<Ledger> {
    if c.sessionId == "" || !SeatsOk(c.seats) then None
    else if exists i :: 0 <= i < |c.epochs| && c.epochs[i].base.seat !in c.seats then None
    else
      var history := HistoryOf(c);
      if !HistoriesOk(d, c.seats, history) || !HistoriesLinked(history) || !RevisionsOk(history, c.revision) then None
      else if !PreparedOk(d, c, history) then None
      else
        var prepared := if c.prepared == [] then None else Some(c.prepared[0].epochs);
        Some(Ledger(c.sessionId, c.seats, c.revision, history, prepared))
  }

  /** Rehydration accepts nothing but sound schedules whose handoffs name their chain heads. */
  lemma RehydratedSound(d: Digest, c: Checkpoint)
    ensures var l := Rehydrate(d, c);
      l.Some? ==> Sound(d, l.value) && HandoffsLinked(l.value)
  {
    hide HistoriesOk, RevisionsOk, PendingOk, AllLinked;
  }

  lemma {:induction false} OfSeatAppend(a: seq<Epoch>, b: seq<Epoch>, seat: Seat)
    ensures OfSeat(a + b, seat) == OfSeat(a, seat) + OfSeat(b, seat)
  {
    if a == [] {
      assert a + b == b;
    } else {
      var all := a + b;
      assert all[0] == a[0] && all[1..] == a[1..] + b;
      OfSeatAppend(a[1..], b, seat);
      assert OfSeat(all, seat) == (if all[0].base.seat == seat then [all[0]] else []) + OfSeat(all[1..], seat);
    }
  }

  lemma {:induction false} OfSeatAll(epochs: seq<Epoch>, owner: Seat, seat: Seat)
    requires forall i :: 0 <= i < |epochs| ==> epochs[i].base.seat == owner
    ensures OfSeat(epochs, seat) == if seat == owner then epochs else []
  {
    if epochs != [] { OfSeatAll(epochs[1..], owner, seat); }
  }

  /** Filtering a flattened schedule gives back each seat's history. */
  lemma {:induction false} FlattenOfSeat(seats: seq<Seat>, history: map<Seat, seq<Epoch>>, seat: Seat)
    requires forall s, i :: s in history && 0 <= i < |history[s]| ==> history[s][i].base.seat == s
    requires forall i, j :: 0 <= i < j < |seats| ==> seats[i] != seats[j]
    requires forall i :: 0 <= i < |seats| ==> seats[i] in history
    ensures OfSeat(Flatten(seats, history), seat) == if seat in seats then history[seat] else []
  {
    if seats != [] {
      OfSeatAppend(history[seats[0]], Flatten(seats[1..], history), seat);
      OfSeatAll(history[seats[0]], seats[0], seat);
      FlattenOfSeat(seats[1..], history, seat);
      assert seats == [seats[0]] + seats[1..];
    }
  }

  lemma {:induction false} FlattenSeats(seats: seq<Seat>, history: map<Seat, seq<Epoch>>)
    requires forall s, i :: s in history && 0 <= i < |history[s]| ==> history[s][i].base.seat == s
    ensures forall i :: 0 <= i < |Flatten(seats, history)| ==> Flatten(seats, history)[i].base.seat in seats
  {
    if seats != [] {
      FlattenSeats(seats[1..], history);
      assert seats == [seats[0]] + seats[1..];
    }
  }

  lemma {:induction false} SortSorted(epochs: seq<Epoch>)
    requires forall i, j :: 0 <= i < j < |epochs| ==> epochs[i].base.epoch <= epochs[j].base.epoch
    ensures SortEpochs(epochs) == epochs
  {
    if epochs != [] {
      SortSorted(epochs[1..]);
      assert epochs == [epochs[0]] + epochs[1..];
    }
  }

  /** The histories a checkpoint holds are those of the ledger it was taken from. */
  lemma CheckpointHistory(d: Digest, l: Ledger)
    requires Sound(d, l)
    ensures HistoryOf(CheckpointOf(l)) == l.history
    ensures forall i :: 0 <= i < |CheckpointOf(l).epochs| ==> CheckpointOf(l).epochs[i].base.seat in l.seats
  {
    hide RevisionsOk, PendingOk, StatusOk, AuthorizationOk;
    forall s, i | s in l.history && 0 <= i < |l.history[s]|
      ensures l.history[s][i].base.seat == s && l.history[s][i].base.epoch == i
    {
      assert EpochOk(d, s, l.history[s], i);
    }
    FlattenSeats(l.seats, l.history);
    forall seat | seat in l.seats ensures SortEpochs(OfSeat(CheckpointOf(l).epochs, seat)) == l.history[seat] {
      FlattenOfSeat(l.seats, l.history, seat);
      SortSorted(l.history[seat]);
    }
  }

  /** For every sound ledger: its checkpoint rehydrates exactly when every handoff, committed or
      pending, names a chain head, and then it rehydrates to the same ledger, pending change included. */
  lemma CheckpointRoundTrip(d: Digest, l: Ledger)
    requires Sound(d, l)
    ensures Rehydrate(d, CheckpointOf(l)).Some? <==> HandoffsLinked(l)
    ensures HandoffsLinked(l) ==> Rehydrate(d, CheckpointOf(l)) == Some(l)
  {
    hide RevisionsOk, PendingOk, HistoriesOk, AllLinked, HistoryOf, Flatten;
    CheckpointHistory(d, l);
  }

  // ---- Every run of changes ----

  datatype Action = Propose(changes: seq<Change>, authorization: Authorization) | Accept | Withdraw

  /** What `prepareSeatControl`, `commit` and `abort` do to the schedule; a refused call changes nothing. */
  function Act(d: Digest, l: Ledger, action: Action): Ledger {
    match action
    case Propose(changes, a) =>
      var r := Prepare(d, l, changes, a);
      if r.Some? then r.value else l
    case Accept => if l.pending.Some? then Commit(l) else l
    case Withdraw => Abort(l)
  }

  function ActAll(d: Digest, l: Ledger, actions: seq<Action>): Ledger
    decreases |actions|
  {
    if actions == [] then l else ActAll(d, Act(d, l, actions[0]), actions[1..])
  }

  function Founded(d: Digest, sessionId: string, seats: seq<Seat>, genesis: map<Seat, Option<Controller>>): Ledger {
    Ledger(sessionId, seats, 0, map seat | seat in seats && seat in genesis ::
      [GenesisEpoch(d, seat, genesis[seat])], None)
  }

  /** The constructor's checks. */
  predicate GenesisAllowed(sessionId: string, seats: seq<Seat>, genesis: map<Seat, Option<Controller>>) {
    && sessionId != "" && SeatsOk(seats)
    && (forall seat :: seat in seats ==> seat in genesis)
    && (forall seat :: seat in seats && seat in genesis && genesis[seat].Some? ==>
      genesis[seat].value.controllerId != "")
  }

  lemma FoundedSound(d: Digest, sessionId: string, seats: seq<Seat>, genesis: map<Seat, Option<Controller>>)
    requires GenesisAllowed(sessionId, seats, genesis)
    ensures Sound(d, Founded(d, sessionId, seats, genesis)) && HandoffsLinked(Founded(d, sessionId, seats, genesis))
  {
    var l := Founded(d, sessionId, seats, genesis);
    forall seat | seat in l.history ensures HistoryOk(d, seat, l.history[seat]) {
      assert EpochOk(d, seat, l.history[seat], 0);
    }
  }

  lemma ActSound(d: Digest, l: Ledger, action: Action)
    requires Sound(d, l)
    ensures Sound(d, Act(d, l, action))
  {
    hide HistoriesOk, RevisionsOk, PendingOk, Prepare, Commit;
    match action
    case Propose(changes, a) => PrepareSound(d, l, changes, a);
    case Accept => if l.pending.Some? { CommitSound(d, l); }
    case Withdraw =>
  }

  lemma {:induction false} ActAllSound(d: Digest, l: Ledger, actions: seq<Action>)
    requires Sound(d, l)
    ensures Sound(d, ActAll(d, l, actions))
    decreases |actions|
  {
    hide Sound, Act;
    if actions != [] {
      ActSound(d, l, actions[0]);
      ActAllSound(d, Act(d, l, actions[0]), actions[1..]);
    }
  }

  /** After any run of changes from genesis the checkpoint round-trips exactly when the run recorded
      no handoff without a chain head. */
  lemma EveryRunRoundTrips(
    d: Digest, sessionId: string, seats: seq<Seat>, genesis: map<Seat, Option<Controller>>, actions: seq<Action>)
    requires GenesisAllowed(sessionId, seats, genesis)
    ensures var l := ActAll(d, Founded(d, sessionId, seats, genesis), actions);
      if HandoffsLinked(l) then Rehydrate(d, CheckpointOf(l)) == Some(l) else Rehydrate(d, CheckpointOf(l)).None?
  {
    hide Sound, ActAll, Founded, Rehydrate, CheckpointOf, HandoffsLinked;
    FoundedSound(d, sessionId, seats, genesis);
    ActAllSound(d, Founded(d, sessionId, seats, genesis), actions);
    CheckpointRoundTrip(d, ActAll(d, Founded(d, sessionId, seats, genesis), actions));
  }

  /** Whatever is proposed, committed or withdrawn later, who controlled a seat at a revision committed
      now stays the same. */
  lemma {:induction false} ControlIsFixed(d: Digest, l: Ledger, actions: seq<Action>, seat: Seat, revision: nat)
    requires Sound(d, l) && seat in l.history && revision <= l.revision
    ensures var later := ActAll(d, l, actions);
      seat in later.history && revision <= later.revision
      && EpochAt(later.history[seat], revision) == EpochAt(l.history[seat], revision)
    decreases |actions|
  {
    hide Sound, Prepare, EpochAt;
    if actions != [] {
      ActSound(d, l, actions[0]);
      var next := Act(d, l, actions[0]);
      if actions[0].Accept? && l.pending.Some? {
        CommittedControlStays(d, l, seat, revision);
      } else {
        PrepareKeeps(d, l, actions[0]);
      }
      ControlIsFixed(d, next, actions[1..], seat, revision);
    }
  }

  lemma PrepareKeeps(d: Digest, l: Ledger, action: Action)
    requires !action.Accept? || l.pending.None?
    ensures Act(d, l, action).history == l.history && Act(d, l, action).revision == l.revision
  {
  }

  /** A handoff without a chain head may be prepared and committed, but its checkpoint is refused. */
  lemma UnlinkedHandoff(d: Digest, change: Change, incumbent: Controller)
    requires incumbent.controllerId != "" && change == Change("a", Vacant, None, Released, None)
    ensures var l := Founded(d, "s", ["a"], map["a" := Some(incumbent)]);
      var after := ActAll(d, l, [Propose([change], Handoff(map["a" := "signed"], map[])), Accept]);
      after.revision == 1 && Rehydrate(d, CheckpointOf(after)).None?
  {
    hide Sound, Rehydrate, CheckpointOf, Founded;
    var l := Founded(d, "s", ["a"], map["a" := Some(incumbent)]);
    var handoff := Propose([change], Handoff(map["a" := "signed"], map[]));
    UnlinkedEpoch(d, change, incumbent);
    var actions := [handoff, Accept];
    assert actions[1..] == [Accept] && [Accept][1..] == [];
    FoundedSound(d, "s", ["a"], map["a" := Some(incumbent)]);
    EveryRunRoundTrips(d, "s", ["a"], map["a" := Some(incumbent)], actions);
  }

  lemma UnlinkedEpoch(d: Digest, change: Change, incumbent: Controller)
    requires incumbent.controllerId != "" && change == Change("a", Vacant, None, Released, None)
    ensures var l := Founded(d, "s", ["a"], map["a" := Some(incumbent)]);
      var a := Handoff(map["a" := "signed"], map[]);
      var e := ChangedEpoch(d, change, a, GenesisEpoch(d, "a", Some(incumbent)), 1);
      && Act(d, l, Propose([change], a)) == l.(pending := Some([e]))
      && Act(d, l.(pending := Some([e])), Accept).revision == 1
      && !HandoffsLinked(Act(d, l.(pending := Some([e])), Accept))
  {
    var l := Founded(d, "s", ["a"], map["a" := Some(incumbent)]);
    var a := Handoff(map["a" := "signed"], map[]);
    var e := ChangedEpoch(d, change, a, GenesisEpoch(d, "a", Some(incumbent)), 1);
    var genesis := GenesisEpoch(d, "a", Some(incumbent));
    assert l.history == map["a" := [genesis]] && LastOf([genesis]) == genesis;
    assert [change][1..] == [] && [e][1..] == [] && [e] + [] == [e];
    assert Changes(d, l.history, 0, [], a, {"a"}) == Some([]);
    assert Permitted(change, a, genesis);
    assert Changes(d, l.history, 0, [change], a, {}) == Some([e]);
    assert Extended(l.history, [e]) == l.history["a" := [genesis] + [e]];
    var after := Act(d, l.(pending := Some([e])), Accept);
    assert after.history["a"][1] == e && !Linked(e.base);
  }
}
