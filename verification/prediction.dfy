/** Optimistic client reconciliation (`PredictionSession` in src/session.ts): local commands are shown
    at once and replayed over every authoritative view until the host settles them. Applying a command
    may throw, which leaves it pending. */
module Prediction {
  import opened CanonicalJson
  import opened Wrappers
  import opened SessionTypes
  import opened SessionDeltas

  datatype Command = Command(participantId: Seat, submissionId: string, command: Json)

  /** None when `applyPending` throws. */
  type ApplyPending = (Json, Command) -> Option<Json>

  /** What the client holds. */
  datatype Local = Local(
    authoritative: Option<Json>, predicted: Option<Json>, transitionRevision: Option<nat>,
    viewRevision: nat, pending: seq<Command>)

  datatype Reason = MissingBase | TransitionGap(expected: nat) | InvalidDelta

  datatype Reconciled =
    | Applied(view: Json, transitionRevision: nat, viewRevision: nat, settled: seq<string>,
        reapplied: seq<string>, rolledBack: bool)
    | Ignored(view: Json, transitionRevision: nat, viewRevision: nat)
    | Resync(reason: Reason, received: nat)
    | Thrown

  /** The commands applied over a view, in the order they were enqueued; None when one throws. */
  function Replayed(apply: ApplyPending, view: Json, pending: seq<Command>): Option<Json> {
    if pending == [] then Some(view)
    else
      var before := Replayed(apply, view, pending[..|pending| - 1]);
      if before.Some? then apply(before.value, pending[|pending| - 1]) else None
  }

  /** The commands applied before the first that throws. */
  function Landing(apply: ApplyPending, view: Json, pending: seq<Command>): (landed: seq<Command>)
    ensures Replayed(apply, view, landed).Some? && landed <= pending
    ensures landed == pending <==> Replayed(apply, view, pending).Some?
  {
    if Replayed(apply, view, pending).Some? then pending else Landing(apply, view, pending[..|pending| - 1])
  }

  function Shown(apply: ApplyPending, view: Json, pending: seq<Command>): Json {
    Replayed(apply, view, Landing(apply, view, pending)).value
  }

  /** `a` is `b` without some of its commands. */
  predicate Within(a: seq<Command>, b: seq<Command>) {
    || a == []
    || (b != []
        && (Within(a, b[..|b| - 1])
            || (a[|a| - 1] == b[|b| - 1] && Within(a[..|a| - 1], b[..|b| - 1]))))
  }

  lemma OneMoreWithin(a: seq<Command>, b: seq<Command>, c: Command)
    requires Within(a, b)
    ensures Within(a, b + [c]) && Within(a + [c], b + [c])
  {
    assert (b + [c])[..|b|] == b && (a + [c])[..|a|] == a;
  }

  lemma {:induction false} PrefixWithin(a: seq<Command>, b: seq<Command>)
    requires a <= b
    ensures Within(a, b)
    decreases |b|
  {
    if a != [] {
      if |a| == |b| {
        PrefixWithin(a[..|a| - 1], b[..|b| - 1]);
      } else {
        PrefixWithin(a, b[..|b| - 1]);
      }
    }
  }

  lemma {:induction false} LandsBefore(apply: ApplyPending, view: Json, pending: seq<Command>, n: nat)
    requires n < |pending| && Replayed(apply, view, pending[..n]).Some? && Replayed(apply, view, pending[..n + 1]).None?
    ensures Replayed(apply, view, pending).None? && Landing(apply, view, pending) == pending[..n]
    decreases |pending|
  {
    var init := pending[..|pending| - 1];
    if n + 1 == |pending| {
      assert pending[..n + 1] == pending && init == pending[..n];
    } else {
      assert init[..n] == pending[..n] && init[..n + 1] == pending[..n + 1];
      LandsBefore(apply, view, init, n);
    }
  }

  function CommandKey(c: Command): Key { Key(c.participantId, c.submissionId) }

  function RejectedKeys(rejections: seq<Rejection>): set<Key> {
    set r | r in rejections :: Key(r.participantId, r.submissionId)
  }

  /** The submissions a delta acknowledges or rejects. */
  function SettledKeys(delta: Delta): set<Key> {
    (set k | k in delta.acknowledgements) + RejectedKeys(delta.rejections)
  }

  function Remaining(pending: seq<Command>, settled: set<Key>): seq<Command> {
    if pending == [] then []
    else (if CommandKey(pending[0]) in settled then [] else [pending[0]]) + Remaining(pending[1..], settled)
  }

  function Dropped(pending: seq<Command>, settled: set<Key>): seq<string> {
    if pending == [] then []
    else (if CommandKey(pending[0]) in settled then [pending[0].submissionId] else []) + Dropped(pending[1..], settled)
  }

  function Ids(pending: seq<Command>): seq<string> {
    if pending == [] then [] else Ids(pending[..|pending| - 1]) + [pending[|pending| - 1].submissionId]
  }

  function ClientOf(c: Local): Client { if c.authoritative.Some? then Seen(c.authoritative.value) else Unseen }

  /** Why a delta is not applied; None when it is. */
  function Refusal(o: Options, c: Local, delta: Delta): Option<Reason>
    requires !Old(c, delta)
  {
    if delta.origin != FromSnapshot && c.transitionRevision.Some?
      && delta.transitionRevision != c.transitionRevision.value + 1
    then Some(TransitionGap(c.transitionRevision.value + 1))
    else if c.authoritative.None? && !delta.body.SnapshotBody? then Some(MissingBase)
    else if ApplyDelta(o, ClientOf(c), delta).Broken? then Some(InvalidDelta)
    else None
  }

  predicate Old(c: Local, delta: Delta) {
    c.transitionRevision.Some? && delta.transitionRevision <= c.transitionRevision.value
  }

  predicate Applies(o: Options, c: Local, delta: Delta) { !Old(c, delta) && Refusal(o, c, delta).None? }

  /** The client after an authoritative view was applied. */
  function Rebased(o: Options, apply: ApplyPending, c: Local, delta: Delta): Local
    requires Applies(o, c, delta)
  {
    var view := AppliedView(o, c, delta);
    var pending := Remaining(c.pending, SettledKeys(delta));
    Local(Some(view), Some(Shown(apply, view, pending)), Some(delta.transitionRevision), delta.viewRevision, pending)
  }

  function AppliedView(o: Options, c: Local, delta: Delta): Json
    requires Applies(o, c, delta)
  {
    ApplyDelta(o, ClientOf(c), delta).view
  }

  /** The view shown is the authoritative one with the commands `landed` of the pending ones applied in
      order, and those are all of them exactly when none throws in that order. */
  ghost predicate Coherent(apply: ApplyPending, c: Local, landed: seq<Command>) {
    && (c.authoritative.Some? <==> c.transitionRevision.Some?)
    && (c.authoritative.Some? <==> c.predicted.Some?)
    && (c.pending != [] ==> c.authoritative.Some?)
    && Within(landed, c.pending)
    && (c.authoritative.Some? ==>
          && Replayed(apply, c.authoritative.value, landed) == c.predicted
          && (landed == c.pending <==> Replayed(apply, c.authoritative.value, c.pending).Some?))
  }

  lemma {:induction false} AppliedNotBroken(o: Options, c: Local, delta: Delta)
    requires Applies(o, c, delta)
    ensures ApplyDelta(o, ClientOf(c), delta).Seen?
    ensures o.viewDigest(o.text(AppliedView(o, c, delta))) == delta.viewDigest
  {
  }

  /** Splits the pending commands into those left and the ids of those settled. */
  method Split(pending: seq<Command>, keys: set<Key>) returns (remaining: seq<Command>, settled: seq<string>)
    ensures remaining == Remaining(pending, keys) && settled == Dropped(pending, keys)
  {
    remaining, settled := [], [];
    var i := 0;
    assert pending[0..] == pending;
    while i < |pending|
      invariant 0 <= i <= |pending|
      invariant Remaining(pending, keys) == remaining + Remaining(pending[i..], keys)
      invariant Dropped(pending, keys) == settled + Dropped(pending[i..], keys)
    {
      assert pending[i..][1..] == pending[i + 1..];
      if CommandKey(pending[i]) in keys {
        settled := settled + [pending[i].submissionId];
      } else {
        remaining := remaining + [pending[i]];
      }
      i := i + 1;
    }
  }

  /** Applies the pending commands in order over a new view, up to the first that throws. */
  method Reapply(apply: ApplyPending, view: Json, pending: seq<Command>)
      returns (predicted: Json, reapplied: seq<string>, ok: bool)
    ensures predicted == Shown(apply, view, pending)
    ensures ok <==> Replayed(apply, view, pending).Some?
    ensures reapplied == Ids(Landing(apply, view, pending))
  {
    predicted, reapplied := view, [];
    var i := 0;
    while i < |pending|
      invariant 0 <= i <= |pending|
      invariant Replayed(apply, view, pending[..i]) == Some(predicted) && reapplied == Ids(pending[..i])
    {
      assert pending[..i + 1][..i] == pending[..i];
      var next := apply(predicted, pending[i]);
      if next.None? {
        LandsBefore(apply, view, pending, i);
        return predicted, reapplied, false;
      }
      predicted := next.value;
      reapplied := reapplied + [pending[i].submissionId];
      i := i + 1;
    }
    assert pending[..i] == pending;
    ok := true;
  }

  class PredictionSession {
    const o: Options
    const applyPending: ApplyPending
    var state: Local
    /** The pending commands in the view shown. */
    ghost var landed: seq<Command>

    ghost predicate Valid()
      reads this
    {
      Coherent(applyPending, state, landed)
    }

    constructor (o: Options, applyPending: ApplyPending, initial: Option<(Json, nat, nat)>)
      ensures Valid() && this.o == o && this.applyPending == applyPending
      ensures state.pending == [] && state.authoritative == (if initial.Some? then Some(initial.value.0) else None)
    {
      this.o, this.applyPending := o, applyPending;
      state := match initial
        case Some((view, transition, revision)) => Local(Some(view), Some(view), Some(transition), revision, [])
        case None => Local(None, None, None, 0, []);
      landed := [];
    }

    /** Enqueues a local command and shows it at once; None for any thrown error: before the first
        authoritative view or without ids nothing changes, while a command that throws when applied
        stays pending. */
    method Predict(c: Command) returns (view: Option<Json>)
      requires Valid()
      modifies this
      ensures Valid()
      ensures Enqueues(old(state), c) <==>
        old(state.authoritative).Some? && c.participantId != "" && c.submissionId != ""
      ensures if Enqueues(old(state), c)
              then state == Enqueue(applyPending, old(state), c) && view == applyPending(old(state).predicted.value, c)
              else unchanged(this) && view == None
      ensures landed == old(landed) + if view.Some? then [c] else []
    {
      if state.predicted.None? || c.participantId == "" || c.submissionId == "" { return None; }
      EnqueuedCoherent(applyPending, state, landed, c);
      view := applyPending(state.predicted.value, c);
      landed := landed + if view.Some? then [c] else [];
      state := state.(pending := state.pending + [c]);
      if view.Some? { state := state.(predicted := view); }
    }

    /** Applies an authoritative delta, drops what it settles and replays the rest over it. When a
        command throws, the delta stays applied and the view shows the commands before that one. */
    method Reconcile(delta: Delta) returns (r: Reconciled)
      requires Valid()
      modifies this
      ensures Valid()
      ensures r.Ignored? <==> Old(old(state), delta)
      ensures r.Resync? <==> !Old(old(state), delta) && Refusal(o, old(state), delta).Some?
      ensures r.Resync? ==> Refusal(o, old(state), delta) == Some(r.reason) && r.received == delta.transitionRevision
      ensures Applies(o, old(state), delta) ==>
        && state == Rebased(o, applyPending, old(state), delta)
        && landed == Landing(applyPending, state.authoritative.value, state.pending)
        && (r.Applied? <==> landed == state.pending)
      ensures !Applies(o, old(state), delta) ==> unchanged(this)
      ensures r.Applied? ==>
        && Some(r.view) == state.predicted && r.transitionRevision == delta.transitionRevision
        && r.viewRevision == delta.viewRevision
        && r.settled == Dropped(old(state).pending, SettledKeys(delta)) && r.reapplied == Ids(state.pending)
        && (r.rolledBack <==> r.settled != [] || r.reapplied != [])
      ensures r.Ignored? ==> Some(r.view) == state.predicted && Some(r.transitionRevision) == state.transitionRevision
    {
      hide ApplyDelta, Remaining, Dropped, Replayed, Landing, Within, Ids, SettledKeys;
      if Old(state, delta) {
        return Ignored(state.predicted.value, state.transitionRevision.value, state.viewRevision);
      }
      var refusal := Refusal(o, state, delta);
      if refusal.Some? { return Resync(refusal.value, delta.transitionRevision); }
      AppliedNotBroken(o, state, delta);
      RebasedCoherent(o, applyPending, state, delta);
      var next := ApplyDelta(o, ClientOf(state), delta).view;
      var remaining, settled := Split(state.pending, SettledKeys(delta));
      var predicted, reapplied, ok := Reapply(applyPending, next, remaining);
      landed := Landing(applyPending, next, remaining);
      state := Local(Some(next), Some(predicted), Some(delta.transitionRevision), delta.viewRevision, remaining);
      if !ok { return Thrown; }
      r := Applied(predicted, delta.transitionRevision, delta.viewRevision, settled, reapplied,
        settled != [] || reapplied != []);
    }
  }

  // ---- What each applied delta gives ----

  /** Distinct canonical texts have distinct digests. */
  ghost predicate DigestInjective(o: Options) {
    forall a, b {:trigger o.viewDigest(o.text(a)), o.viewDigest(o.text(b))} ::
      o.viewDigest(o.text(a)) == o.viewDigest(o.text(b)) ==> a == b
  }

  /** Whatever base the client held, a delta it applies leaves it with the view the host encoded. */
  lemma AppliedViewIsTheHosts(o: Options, c: Local, delta: Delta, host: Json)
    requires DigestInjective(o) && delta.viewDigest == o.viewDigest(o.text(host))
    requires Applies(o, c, delta)
    ensures AppliedView(o, c, delta) == host
  {
    AppliedNotBroken(o, c, delta);
  }

  // ---- Whole histories ----

  datatype Move = Predicted(command: Command) | Received(delta: Delta)

  /** What a client does with one move; see `Predict` and `Reconcile`. */
  function Moved(o: Options, apply: ApplyPending, c: Local, m: Move): Local {
    match m
    case Predicted(command) => if Enqueues(c, command) then Enqueue(apply, c, command) else c
    case Received(delta) => if Applies(o, c, delta) then Rebased(o, apply, c, delta) else c
  }

  predicate Enqueues(c: Local, command: Command) {
    c.predicted.Some? && command.participantId != "" && command.submissionId != ""
  }

  function Enqueue(apply: ApplyPending, c: Local, command: Command): Local
    requires c.predicted.Some?
  {
    var shown := apply(c.predicted.value, command);
    c.(pending := c.pending + [command], predicted := if shown.Some? then shown else c.predicted)
  }

  lemma EnqueuedCoherent(apply: ApplyPending, c: Local, landed: seq<Command>, command: Command)
    requires Coherent(apply, c, landed) && c.predicted.Some?
    ensures var shown := apply(c.predicted.value, command);
      Coherent(apply, Enqueue(apply, c, command), landed + if shown.Some? then [command] else [])
  {
    OneMoreWithin(landed, c.pending, command);
    assert landed + [] == landed;
    assert (c.pending + [command])[..|c.pending|] == c.pending && (landed + [command])[..|landed|] == landed;
  }

  lemma RebasedCoherent(o: Options, apply: ApplyPending, c: Local, delta: Delta)
    requires Applies(o, c, delta)
    ensures var next := Rebased(o, apply, c, delta);
      Coherent(apply, next, Landing(apply, next.authoritative.value, next.pending))
  {
    hide ApplyDelta, Remaining, SettledKeys, Replayed, Landing;
    var next := Rebased(o, apply, c, delta);
    PrefixWithin(Landing(apply, next.authoritative.value, next.pending), next.pending);
  }

  function After(o: Options, apply: ApplyPending, c: Local, moves: seq<Move>): Local {
    if moves == [] then c
    else Moved(o, apply, After(o, apply, c, moves[..|moves| - 1]), moves[|moves| - 1])
  }

  /** The commands in the view shown after one move, and after a list of moves. */
  function LandedBy(o: Options, apply: ApplyPending, c: Local, landed: seq<Command>, m: Move): seq<Command> {
    match m
    case Predicted(command) =>
      landed + if Enqueues(c, command) && apply(c.predicted.value, command).Some? then [command] else []
    case Received(delta) =>
      if Applies(o, c, delta)
      then Landing(apply, AppliedView(o, c, delta), Remaining(c.pending, SettledKeys(delta))) else landed
  }

  function Landed(o: Options, apply: ApplyPending, c: Local, moves: seq<Move>): seq<Command> {
    if moves == [] then c.pending
    else
      var before := moves[..|moves| - 1];
      LandedBy(o, apply, After(o, apply, c, before), Landed(o, apply, c, before), moves[|moves| - 1])
  }

  lemma MovedCoherent(o: Options, apply: ApplyPending, c: Local, landed: seq<Command>, m: Move)
    requires Coherent(apply, c, landed)
    ensures Coherent(apply, Moved(o, apply, c, m), LandedBy(o, apply, c, landed, m))
  {
    hide ApplyDelta, Coherent, Replayed, Landing, Within, Remaining, SettledKeys, Refusal;
    assert landed + [] == landed;
    match m
    case Predicted(command) => if Enqueues(c, command) { EnqueuedCoherent(apply, c, landed, command); }
    case Received(delta) => if Applies(o, c, delta) { RebasedCoherent(o, apply, c, delta); }
  }

  /** Over every sequence of predictions and deltas, and whatever throws: the view shown is the
      authoritative one with some of the pending commands applied in the order they were enqueued, and
      with all of them exactly when none of them throws in that order. */
  lemma {:induction false} AlwaysReplayed(o: Options, apply: ApplyPending, c: Local, moves: seq<Move>)
    requires Coherent(apply, c, c.pending)
    ensures Coherent(apply, After(o, apply, c, moves), Landed(o, apply, c, moves))
  {
    hide Coherent, Moved, LandedBy;
    if moves != [] {
      var before := moves[..|moves| - 1];
      AlwaysReplayed(o, apply, c, before);
      MovedCoherent(o, apply, After(o, apply, c, before), Landed(o, apply, c, before), moves[|moves| - 1]);
    }
  }

  // ---- A command that throws ----

  const THROWING := Command("s", "bad", Null)
  const FOLLOWING := Command("s", "good", Null)

  /** An `applyPending` that throws on one command and shows any other. */
  function Throws(view: Json, c: Command): Option<Json> { if c == THROWING then None else Some(Str(c.submissionId)) }

  /** The next resolution, which settles nothing and shows `view` whole. */
  function Whole(o: Options, view: Json): Delta {
    Delta("s", "s", None, 1, 1, 1, FromResolution, [], [], SnapshotBody(view), o.viewDigest(o.text(view)))
  }

  function Throwing(o: Options): seq<Move> {
    [Predicted(THROWING), Predicted(FOLLOWING), Received(Whole(o, Null))]
  }

  lemma {:induction false} NothingSettled(o: Options, pending: seq<Command>)
    ensures Remaining(pending, SettledKeys(Whole(o, Null))) == pending
  {
    if pending != [] { NothingSettled(o, pending[1..]); }
  }

  /** Commands do get hidden: the command after one that throws is shown when it is enqueued, and no
      longer after the next delta, although both stay pending. */
  lemma ThrownCommandHides(o: Options)
    ensures var start := Local(Some(Null), Some(Null), Some(0), 0, []);
      var before, after := After(o, Throws, start, Throwing(o)[..2]), After(o, Throws, start, Throwing(o));
      && before.pending == after.pending == [THROWING, FOLLOWING]
      && before.predicted == Some(Str("good")) && after.predicted == after.authoritative == Some(Null)
      && Landed(o, Throws, start, Throwing(o)) == []
  {
    var start := Local(Some(Null), Some(Null), Some(0), 0, []);
    var moves := Throwing(o);
    var thrown := start.(pending := [THROWING]);
    var shown := Local(Some(Null), Some(Str("good")), Some(0), 0, [THROWING, FOLLOWING]);
    assert moves[..3] == moves && moves[..2][..1] == moves[..1] && moves[..1][..0] == [];
    assert After(o, Throws, start, moves[..1]) == thrown;
    assert After(o, Throws, start, moves[..2]) == shown;
    assert Applies(o, shown, Whole(o, Null));
    NothingSettled(o, shown.pending);
    assert shown.pending[..1] == [THROWING];
    assert Replayed(Throws, Null, [THROWING]).None?;
    assert Landing(Throws, Null, shown.pending) == [];
  }

  /** Move `i` is a delta that the client applies when it arrives. */
  ghost predicate AppliedAt(o: Options, apply: ApplyPending, c: Local, moves: seq<Move>, i: nat)
    requires i < |moves|
  {
    moves[i].Received? && Applies(o, After(o, apply, c, moves[..i]), moves[i].delta)
  }

  /** Between any two applied deltas the revision strictly rises, and the client always shows the
      last one applied. */
  lemma {:induction false} RevisionsRise(o: Options, apply: ApplyPending, c: Local, moves: seq<Move>, i: nat)
    requires i < |moves| && AppliedAt(o, apply, c, moves, i)
    ensures After(o, apply, c, moves).transitionRevision.Some?
    ensures moves[i].delta.transitionRevision <= After(o, apply, c, moves).transitionRevision.value
    ensures forall j :: i < j < |moves| && AppliedAt(o, apply, c, moves, j) ==>
      moves[i].delta.transitionRevision < moves[j].delta.transitionRevision
  {
    hide ApplyDelta, AppliedView;
    var last := |moves| - 1;
    var before := moves[..last];
    if i < last {
      assert before[..i] == moves[..i];
      RevisionsRise(o, apply, c, before, i);
      forall j | i < j < |moves| && AppliedAt(o, apply, c, moves, j)
        ensures moves[i].delta.transitionRevision < moves[j].delta.transitionRevision
      {
        if j < last { assert before[..j] == moves[..j] && AppliedAt(o, apply, c, before, j); }
      }
    }
  }

  /** The commands enqueued by the moves, each with the position of its move. */
  ghost function Enqueued(o: Options, apply: ApplyPending, c: Local, moves: seq<Move>): seq<(nat, Command)> {
    if moves == [] then []
    else
      var last := |moves| - 1;
      Enqueued(o, apply, c, moves[..last])
      + (if moves[last].Predicted? && Enqueues(After(o, apply, c, moves[..last]), moves[last].command)
         then [(last, moves[last].command)] else [])
  }

  /** A later applied delta acknowledged or rejected the command enqueued at `at`. */
  ghost predicate SettledLater(o: Options, apply: ApplyPending, c: Local, moves: seq<Move>, at: nat, key: Key) {
    exists j :: at < j < |moves| && AppliedAt(o, apply, c, moves, j) && key in SettledKeys(moves[j].delta)
  }

  ghost function Unsettled(
    o: Options, apply: ApplyPending, c: Local, moves: seq<Move>, entries: seq<(nat, Command)>): seq<Command>
  {
    if entries == [] then []
    else
      (if SettledLater(o, apply, c, moves, entries[0].0, CommandKey(entries[0].1)) then [] else [entries[0].1])
      + Unsettled(o, apply, c, moves, entries[1..])
  }

  lemma {:induction false} UnsettledAppend(
    o: Options, apply: ApplyPending, c: Local, moves: seq<Move>, a: seq<(nat, Command)>, b: seq<(nat, Command)>)
    ensures Unsettled(o, apply, c, moves, a + b) == Unsettled(o, apply, c, moves, a) + Unsettled(o, apply, c, moves, b)
  {
    if a == [] {
      assert a + b == b;
    } else {
      assert (a + b)[1..] == a[1..] + b;
      UnsettledAppend(o, apply, c, moves, a[1..], b);
    }
  }

  /** One more move settles exactly what it acknowledges or rejects. */
  lemma SettledSnoc(o: Options, apply: ApplyPending, c: Local, moves: seq<Move>, at: nat, key: Key)
    requires moves != [] && at < |moves| - 1
    ensures var last := |moves| - 1;
      SettledLater(o, apply, c, moves, at, key)
      <==> SettledLater(o, apply, c, moves[..last], at, key)
           || (AppliedAt(o, apply, c, moves, last) && key in SettledKeys(moves[last].delta))
  {
    hide Applies, After, SettledKeys;
    var last := |moves| - 1;
    var before := moves[..last];
    forall j | 0 <= j < last ensures AppliedAt(o, apply, c, moves, j) <==> AppliedAt(o, apply, c, before, j) {
      assert before[..j] == moves[..j];
    }
    if j :| at < j < |before| && AppliedAt(o, apply, c, before, j) && key in SettledKeys(before[j].delta) {
      assert AppliedAt(o, apply, c, moves, j) && moves[j] == before[j];
    }
    if j :| at < j < |moves| && AppliedAt(o, apply, c, moves, j) && key in SettledKeys(moves[j].delta) {
      if j < last { assert before[j] == moves[j] && AppliedAt(o, apply, c, before, j); }
    }
  }

  lemma RemainingFirst(first: Command, rest: seq<Command>, keys: set<Key>)
    ensures Remaining([first] + rest, keys)
         == (if CommandKey(first) in keys then [] else [first]) + Remaining(rest, keys)
  {
    assert ([first] + rest)[1..] == rest;
  }

  lemma {:induction false} UnsettledSnoc(o: Options, apply: ApplyPending, c: Local, moves: seq<Move>,
      entries: seq<(nat, Command)>)
    requires moves != [] && forall i :: 0 <= i < |entries| ==> entries[i].0 < |moves| - 1
    ensures var last := |moves| - 1;
      var kept := Unsettled(o, apply, c, moves[..last], entries);
      && (AppliedAt(o, apply, c, moves, last) ==>
            Unsettled(o, apply, c, moves, entries) == Remaining(kept, SettledKeys(moves[last].delta)))
      && (!AppliedAt(o, apply, c, moves, last) ==> Unsettled(o, apply, c, moves, entries) == kept)
  {
    hide SettledLater, Applies, After, SettledKeys;
    if entries != [] {
      var last := |moves| - 1;
      var (at, first) := entries[0];
      UnsettledSnoc(o, apply, c, moves, entries[1..]);
      SettledSnoc(o, apply, c, moves, at, CommandKey(first));
      var rest := Unsettled(o, apply, c, moves[..last], entries[1..]);
      var kept := Unsettled(o, apply, c, moves[..last], entries);
      assert kept == (if SettledLater(o, apply, c, moves[..last], at, CommandKey(first)) then [] else [first]) + rest;
      if AppliedAt(o, apply, c, moves, last) {
        var keys := SettledKeys(moves[last].delta);
        RemainingFirst(first, rest, keys);
        assert [] + rest == rest;
        assert Unsettled(o, apply, c, moves, entries)
            == (if SettledLater(o, apply, c, moves, at, CommandKey(first)) then []
              else [first]) + Remaining(rest, keys);
      }
    }
  }

  lemma {:induction false} EnqueuedBefore(o: Options, apply: ApplyPending, c: Local, moves: seq<Move>)
    ensures forall i :: 0 <= i < |Enqueued(o, apply, c, moves)| ==> Enqueued(o, apply, c, moves)[i].0 < |moves|
  {
    if moves != [] { EnqueuedBefore(o, apply, c, moves[..|moves| - 1]); }
  }

  /** Pending loses exactly what is settled: after any sequence of moves it is the list of enqueued
      commands, in order, that no later applied delta acknowledged or rejected. */
  lemma {:induction false} PendingIsUnsettled(o: Options, apply: ApplyPending, c: Local, moves: seq<Move>)
    requires c.pending == []
    ensures After(o, apply, c, moves).pending
         == Unsettled(o, apply, c, moves, Enqueued(o, apply, c, moves))
  {
    hide Applies, Unsettled, SettledKeys, AppliedView, Replayed;
    if moves == [] {
      NothingUnsettled(o, apply, c, moves);
    } else {
      var last := |moves| - 1;
      var before, now := moves[..last], After(o, apply, c, moves[..last]);
      PendingIsUnsettled(o, apply, c, before);
      EnqueuedBefore(o, apply, c, before);
      UnsettledSnoc(o, apply, c, moves, Enqueued(o, apply, c, before));
      assert Enqueued(o, apply, c, before) + [] == Enqueued(o, apply, c, before);
      if moves[last].Predicted? && Enqueues(now, moves[last].command) {
        UnsettledAppend(o, apply, c, moves, Enqueued(o, apply, c, before), [(last, moves[last].command)]);
        LastUnsettled(o, apply, c, moves);
      }
    }
  }

  lemma NothingUnsettled(o: Options, apply: ApplyPending, c: Local, moves: seq<Move>)
    ensures Unsettled(o, apply, c, moves, []) == []
  {
  }

  lemma LastUnsettled(o: Options, apply: ApplyPending, c: Local, moves: seq<Move>)
    requires moves != [] && moves[|moves| - 1].Predicted?
    ensures var last := |moves| - 1;
      Unsettled(o, apply, c, moves, [(last, moves[last].command)]) == [moves[last].command]
  {
    assert [(|moves| - 1, moves[|moves| - 1].command)][1..] == [];
  }
}
