/** How far an advance moves, and when the adaptive encoder sends patches (`prepareAdvance` and
    `encodedObservation` in src/session.ts). */
module SessionAdvance {
  import opened CanonicalJson
  import opened Utf8
  import opened Wrappers
  import opened BoundedDiff
  import opened SessionTypes
  import opened SessionSpec
  import opened SessionRuns

  // ---- Ticks ----

  /** Why a catch-up may stop before its last tick. */
  ghost predicate Interrupted(o: Options, draft: KernelState, bodies: seq<Body>) {
    || EndsRejected(bodies)
    || o.status(draft.reducerState) != Playing
    || (o.timeoutWindowTicks.Some? && !Ready(draft.window))
  }

  lemma ResolveOnceMoves(o: Options, live: KernelState, backoff: map<ScopeKey, Backoff>, cause: Cause,
      forced: seq<CanonicalInput>)
    ensures var r := ResolveOnce(o, live, backoff, cause, forced);
      && (r.Ok? && r.value.Settled? ==>
            r.value.draft.cursor == live.cursor + 1 && r.value.draft.tick == live.tick + 1 && r.value.body.Resolution?)
      && (r.Ok? && r.value.Declined? ==> r.value.draft.cursor == live.cursor && r.value.draft.tick == live.tick)
  {
    hide Resolve, MapIntents, Deltas, NextBackoff;
    var m := MapIntents(o, live, BooksOf(live), WindowIntents(live.window.participants, live.window.intents));
    if m.Mapped? { ResolveMoves(o, WithBooks(live, m.books), m.inputs + forced, live.cursor, live.tick); }
  }

  /** Each resolution moves cursor and tick by one, and only the named reasons stop a catch-up early. */
  lemma {:induction false} CatchUpCounts(o: Options, live: KernelState, backoff: map<ScopeKey, Backoff>, count: nat)
    ensures var r := CatchUp(o, live, backoff, count);
      r.Ok? ==>
        && r.value.draft.tick == live.tick + r.value.resolutions
        && r.value.draft.cursor == live.cursor + r.value.resolutions
        && r.value.resolutions <= count && (count == 0 ==> r.value.draft == live)
        && (r.value.resolutions < count ==> Interrupted(o, r.value.draft, r.value.bodies))
        && (r.value.stopped <==>
              0 < r.value.resolutions < count && !EndsRejected(r.value.bodies)
                && o.status(r.value.draft.reducerState) == Playing)
        && (forall i :: 0 <= i < |r.value.bodies| - 1 ==> r.value.bodies[i].Resolution?)
    decreases count
  {
    hide ResolveOnce, RejectionDeltas, CauseOf;
    if count > 0 {
      ResolveOnceMoves(o, live, backoff, CauseOf(o, live.window), []);
      var r := ResolveOnce(o, live, backoff, CauseOf(o, live.window), []);
      if r.Ok? && r.value.Settled? && !Halts(o, r.value.draft) {
        CatchUpCounts(o, r.value.draft, r.value.backoff, count - 1);
        var rest := CatchUp(o, r.value.draft, r.value.backoff, count - 1);
        if rest.Ok? && rest.value.bodies != [] {
          var all := [r.value.body] + rest.value.bodies;
          assert all[|all| - 1] == rest.value.bodies[|rest.value.bodies| - 1];
        }
      }
    }
  }

  /** The tick an advance aims at. */
  function Aimed(live: KernelState, target: Option<int>): int { if target.Some? then target.value else live.tick }

  /** An unready window holds the session until it times out. */
  predicate Held(o: Options, live: KernelState) { o.timeoutWindowTicks.Some? && !Ready(live.window) }

  /** The resolutions an advance needs for its target, and those it is allowed. */
  function Needed(o: Options, live: KernelState, target: Option<int>): int {
    if o.cadence == Turns then 1 else if Held(o, live) then 0 else Aimed(live, target) - live.tick + 1
  }

  function Allowed(o: Options, live: KernelState, target: Option<int>): int {
    if o.cadence == Ticks && Needed(o, live, target) > o.maxCatchUpTicks then o.maxCatchUpTicks
    else Needed(o, live, target)
  }

  /** An advance in ticks mode resolves exactly up to its target, unless a rejection, the end of the
      game, the catch-up limit or a window that must time out stops it; it never overshoots. In turns
      mode it resolves one window. It reports being cut short exactly when the limit allowed fewer
      resolutions than needed, or when a window that must time out closed the loop after at least one
      of the resolutions allowed. */
  lemma AdvanceReaches(o: Options, session: Session, target: Option<int>)
    ensures var p := PrepareAdvance(o, session, target);
      p.Ok? ==>
        var live, draft, done := session.kernel.live, p.value.draft, p.value.outcome;
        && done.Advanced? && done.tick == draft.tick && done.cursor == draft.cursor
        && draft.tick == live.tick + done.resolutions && draft.cursor == live.cursor + done.resolutions
        && (o.cadence == Turns ==> done.resolutions <= 1 && target.None?)
        && (o.cadence == Ticks ==>
              && draft.tick <= Aimed(live, target) + 1 && done.resolutions <= o.maxCatchUpTicks
              && (draft.tick <= Aimed(live, target) ==>
                    || Rejects(p.value.events)
                    || o.status(draft.reducerState) != Playing
                    || done.resolutions == o.maxCatchUpTicks
                    || Held(o, draft)))
        && (done.partial <==>
              || Allowed(o, live, target) < Needed(o, live, target)
              || (0 < done.resolutions < Allowed(o, live, target) && !Rejects(p.value.events) && Held(o, draft)
                  && o.status(draft.reducerState) == Playing))
  {
    hide CatchUp, CheckpointDue, StateDigest, Number, Rejections, Ready;
    var p := PrepareAdvance(o, session, target);
    if p.Ok? {
      var live := session.kernel.live;
      var demand := DemandOf(o, live, target).value;
      DemandNeeded(o, live, target);
      CatchUpCounts(o, live, session.backoff, demand.count);
      var c := CatchUp(o, live, session.backoff, demand.count).value;
      RejectionLogged(o, session, demand, c);
    }
  }

  lemma DemandNeeded(o: Options, live: KernelState, target: Option<int>)
    ensures var d := DemandOf(o, live, target);
      d.Ok? ==>
        && d.value.count == Allowed(o, live, target)
        && (d.value.partial <==> Allowed(o, live, target) < Needed(o, live, target))
  {
    hide Ready;
  }

  /** Not every advance that falls short says so: one that finds the window already unready, before
      its deadline, resolves nothing, changes nothing and is not partial. */
  lemma HeldAdvanceUnreported(o: Options, session: Session, target: int)
    requires ValidOptions(o) && Held(o, session.kernel.live) && o.status(session.kernel.live.reducerState) == Playing
    requires session.kernel.live.tick < target < session.kernel.live.tick + o.timeoutWindowTicks.value
    requires target - session.kernel.live.tick <= o.maxFutureTicks
    ensures var p := PrepareAdvance(o, session, Some(target));
      && p.Ok? && p.value.noop && Commit(session, p.value) == session
      && p.value.outcome.Advanced? && p.value.outcome.tick < target && !p.value.outcome.partial
  {
    hide WindowFor, Ready;
  }

  ghost predicate Rejects(events: seq<Event>) { exists i :: 0 <= i < |events| && events[i].body.Rejected? }

  /** A rejection in the events is the one that ended the catch-up. */
  lemma RejectionLogged(o: Options, session: Session, demand: Demand, c: Progress)
    requires forall i :: 0 <= i < |c.bodies| - 1 ==> c.bodies[i].Resolution?
    ensures EndsRejected(c.bodies) <==> Rejects(AdvancePrepared(o, session, demand, c).events)
  {
    hide CheckpointDue, StateDigest, Number, Rejections;
    var due := CheckpointDue(o, c.draft, c.resolutions) || EndsRejected(c.bodies);
    var (_, bodies) := WithCheckpoint(o, c.draft, c.bodies, due);
    var events := AdvancePrepared(o, session, demand, c).events;
    NumberShape(o, AdvancePrepared(o, session, demand, c).next, bodies, 0);
    if EndsRejected(c.bodies) {
      assert events[|c.bodies| - 1].body.Rejected?;
    } else if i :| 0 <= i < |events| && events[i].body.Rejected? {
      assert bodies[i].Rejected?;
      assert i < |c.bodies|;
    }
  }

  // ---- Patches ----

  /** A patch is only sent when it is at least the configured factor smaller than the snapshot and
      within the codec's limits. */
  lemma PatchPays(o: Options, previous: Json, next: Json, same: bool, b: Backoff)
    ensures var e := EncodeObservation(o, previous, next, same, b);
      e.body.PatchBody? ==>
        && |e.body.operations| <= o.codec.maxOperations && PatchBytes(e.body.operations) <= o.codec.maxBytes
        && PatchBytes(e.body.operations) as real * o.codec.minReduction <= Utf8Length(o.text(next)) as real
  {
    hide EncodeObservation, Utf8Length, PatchBudget;
    var e := EncodeObservation(o, previous, next, same, b);
    if e.body.PatchBody? {
      PatchWithin(o, previous, next, same, b);
      BudgetPays(o.codec, Utf8Length(o.text(next)));
      Scaled(PatchBytes(e.body.operations), PatchBudget(o.codec, Utf8Length(o.text(next))), o.codec.minReduction);
    }
  }

  lemma PatchWithin(o: Options, previous: Json, next: Json, same: bool, b: Backoff)
    ensures var e := EncodeObservation(o, previous, next, same, b);
      e.body.PatchBody? ==>
        && |e.body.operations| <= o.codec.maxOperations && PatchBytes(e.body.operations) <= o.codec.maxBytes
        && PatchBytes(e.body.operations) <= PatchBudget(o.codec, Utf8Length(o.text(next)))
  {
    hide Utf8Length, BoundedResult, PatchBudget, PatchBytes, Canonical;
    var budget := Min(o.codec.maxBytes, PatchBudget(o.codec, Utf8Length(o.text(next))));
    BoundedPatchExact(previous, next, o.codec.maxOperations, budget);
    PatchCounted(previous, next, o.codec.maxOperations, budget);
  }

  lemma PatchCounted(previous: Json, next: Json, maxOperations: nat, maxBytes: nat)
    ensures var r := BoundedResult(previous, next, maxOperations, maxBytes); r.Patch? ==>
      r.bytes == PatchBytes(r.operations)
  {
  }

  lemma BudgetPays(c: CodecOptions, bytes: nat)
    ensures PatchBudget(c, bytes) as real * c.minReduction <= bytes as real
  {
    var q := (bytes as real / c.minReduction).Floor;
    assert q as real <= bytes as real / c.minReduction;
    if q >= 0 {
      assert q as real * c.minReduction <= bytes as real / c.minReduction * c.minReduction == bytes as real;
    }
  }

  lemma Scaled(a: nat, b: nat, factor: real)
    requires a <= b && factor >= 1.0
    ensures a as real * factor <= b as real * factor
  {
  }

  ghost predicate Bounded(c: CodecOptions, b: Backoff) {
    b.remaining <= c.maxPatchBackoffTicks && c.patchBackoffTicks <= b.window <= c.maxPatchBackoffTicks
  }

  /** The backoff never leaves its configured bounds; it grows only when a patch did not pay, and a
      patch resets it. */
  lemma BackoffBounded(o: Options, previous: Json, next: Json, same: bool, b: Backoff)
    requires Bounded(o.codec, b)
    ensures var e := EncodeObservation(o, previous, next, same, b);
      && Bounded(o.codec, e.backoff)
      && (e.backoff.window > b.window ==> b.remaining == 0 && e.body.SnapshotBody? && e.backoff.remaining == b.window)
      && (e.body.PatchBody? ==> e.backoff == Backoff(0, o.codec.patchBackoffTicks))
      && (e.body.UnchangedBody? <==> same) && (same ==> e.backoff == b)
  {
    hide BoundedResult, PatchBudget, Utf8Length;
  }

  /** The encodings of a list of views, each against the one before. */
  function Encodings(o: Options, first: Json, views: seq<Json>, b: Backoff): seq<Encoded>
    decreases |views|
  {
    if views == [] then []
    else
      var e := EncodeObservation(o, first, views[0], o.text(first) == o.text(views[0]), b);
      [e] + Encodings(o, views[0], views[1..], e.backoff)
  }

  ghost predicate AllChange(o: Options, first: Json, views: seq<Json>)
    decreases |views|
  {
    views == [] || (o.text(first) != o.text(views[0]) && AllChange(o, views[0], views[1..]))
  }

  /** After a patch that did not pay, exactly as many changed views as the backoff says are sent whole
      before a patch is tried again. */
  lemma {:induction false} WholeViewsFirst(o: Options, first: Json, views: seq<Json>, b: Backoff)
    requires o.codec.adaptive && AllChange(o, first, views) && |views| <= b.remaining
    ensures var sent := Encodings(o, first, views, b);
      && |sent| == |views|
      && (forall i :: 0 <= i < |views| ==> sent[i].body == SnapshotBody(views[i]))
      && (forall i :: 0 <= i < |views| ==> sent[i].backoff == Backoff(b.remaining - i - 1, b.window))
    decreases |views|
  {
    if views != [] {
      var e := EncodeObservation(o, first, views[0], false, b);
      WholeViewsFirst(o, views[0], views[1..], e.backoff);
      var rest := Encodings(o, views[0], views[1..], e.backoff);
      forall i | 0 < i < |views| ensures ([e] + rest)[i] == rest[i - 1] && views[i] == views[1..][i - 1] {}
    }
  }
}
