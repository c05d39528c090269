/** Live execution and rehydration are two interpreters of the same log; they agree on every run. */
module SessionRehydrate {
  import opened CanonicalJson
  import opened Wrappers
  import opened SessionTypes
  import opened SessionSpec
  import opened SessionReplay

  // ---- The window ----

  ghost predicate WindowSound(w: Window) {
    && (forall i :: 0 <= i < |w.participants| ==> PortableId(w.participants[i]))
    && (forall p :: p in w.intents ==> p in w.participants && w.intents[p].participantId == p)
  }

  lemma WindowForSound(o: Options, state: GameState, revision: nat)
    ensures var w := WindowFor(o, state, revision);
      w.Some? ==> WindowSound(w.value) && w.value.revision == revision
                  && forall p :: p in w.value.participants ==> p in o.seats
  {
    var w := WindowFor(o, state, revision);
    if w.Some? {
      forall i | 0 <= i < |w.value.participants| ensures PortableId(w.value.participants[i]) {
        assert w.value.participants[i] in Contents(o.participation(state));
      }
    }
  }

  ghost predicate Named(intents: seq<Intent>) {
    forall i :: 0 <= i < |intents| ==> intents[i].participantId != ""
  }

  lemma {:induction false} WindowIntentsNamed(ids: seq<Seat>, intents: map<Seat, Intent>)
    requires forall i :: 0 <= i < |ids| ==> PortableId(ids[i])
    requires forall p :: p in intents ==> intents[p].participantId == p
    ensures Named(WindowIntents(ids, intents))
  {
    if ids != [] { WindowIntentsNamed(ids[1..], intents); }
  }

  // ---- Commitments: the recorded inputs rebuild the books ----

  /** System inputs carry no commitment fields. */
  ghost predicate Inert(inputs: seq<CanonicalInput>) {
    forall i :: 0 <= i < |inputs| ==> inputs[i].action.commit.None? && inputs[i].action.opening.None?
  }

  lemma MapOneReplays(o: Options, live: KernelState, books: Books, intent: Intent)
    requires intent.participantId != ""
    ensures var m := MapOne(o, live, books, intent);
      m.One? ==> ReplayInput(o, live.tick, books, m.input) == Some(m.books)
  {
  }

  lemma {:induction false} InertReplays(o: Options, tick: nat, books: Books, inputs: seq<CanonicalInput>)
    requires Inert(inputs)
    ensures ReplayInputs(o, tick, books, inputs) == Some(books)
    decreases |inputs|
  {
    if inputs != [] { InertReplays(o, tick, books, inputs[1..]); }
  }

  lemma {:induction false} MapIntentsReplays(
    o: Options, live: KernelState, books: Books, intents: seq<Intent>, forced: seq<CanonicalInput>)
    requires Named(intents) && Inert(forced)
    ensures var m := MapIntents(o, live, books, intents);
      m.Mapped? ==> ReplayInputs(o, live.tick, books, m.inputs + forced) == Some(m.books)
    decreases |intents|
  {
    var m := MapIntents(o, live, books, intents);
    if m.Mapped? {
      if intents == [] {
        InertReplays(o, live.tick, books, forced);
        assert [] + forced == forced;
      } else {
        MapOneReplays(o, live, books, intents[0]);
        var first := MapOne(o, live, books, intents[0]);
        MapIntentsReplays(o, live, first.books, intents[1..], forced);
        var rest := MapIntents(o, live, first.books, intents[1..]);
        assert m.inputs + forced == [first.input] + (rest.inputs + forced);
      }
    }
  }

  lemma SoundIntentsNamed(w: Window)
    requires WindowSound(w)
    ensures Named(WindowIntents(w.participants, w.intents))
  {
    hide PortableId;
    WindowIntentsNamed(w.participants, w.intents);
  }

  /** A live resolution and the replay of the event it records move the state alike. */
  lemma SettledReplays(
    o: Options, k: Kernel, backoff: map<ScopeKey, Backoff>, cause: Cause, forced: seq<CanonicalInput>,
    revision: nat)
    requires WindowSound(k.live.window) && Inert(forced)
    ensures var r := ResolveOnce(o, k.live, backoff, cause, forced);
      r.Ok? && r.value.Settled? ==>
        && ReplayBody(o, k, revision, r.value.body) == Some(k.(live := r.value.draft))
        && r.value.body.Resolution? && r.value.body.cause == cause
        && WindowSound(r.value.draft.window)
        && Keeps(k.live, r.value.draft)
  {
    hide Deltas, NextBackoff, RefreshScopes, Expire, Fresh, MapIntents, ReplayInputs, WindowFor, WindowIntents,
         WindowSound, Actions, BooksOf;
    var live := k.live;
    var intents := WindowIntents(live.window.participants, live.window.intents);
    SoundIntentsNamed(live.window);
    MapIntentsReplays(o, live, BooksOf(live), intents, forced);
    var m := MapIntents(o, live, BooksOf(live), intents);
    if m.Mapped? {
      WindowForSound(o, o.advance(live.reducerState, Actions(m.inputs + forced)), live.cursor + 1);
    }
  }

  /** The parts of the state only a committed transition stamps. */
  ghost predicate Keeps(before: KernelState, after: KernelState) {
    && after.transitionRevision == before.transitionRevision
    && after.events == before.events
    && after.rejectionHistory == before.rejectionHistory
  }

  lemma DeclinedReplays(
    o: Options, k: Kernel, backoff: map<ScopeKey, Backoff>, cause: Cause, forced: seq<CanonicalInput>,
    revision: nat)
    requires WindowSound(k.live.window)
    ensures var r := ResolveOnce(o, k.live, backoff, cause, forced);
      r.Ok? && r.value.Declined? ==>
        && r.value.draft == Decline(k.live, r.value.mismatch)
        && WindowSound(r.value.draft.window)
        && Keeps(k.live, r.value.draft)
        && ReplayBody(o, k, revision, Rejected(r.value.mismatch))
           == Some(k.(live := WithRejections(r.value.draft, revision, [Rejected(r.value.mismatch)])))
  {
    hide Resolve, Deltas, NextBackoff, MapIntents;
    var r := ResolveOnce(o, k.live, backoff, cause, forced);
    if r.Ok? && r.value.Declined? {
      assert [Rejected(r.value.mismatch)][1..] == [];
      assert Rejections(revision, [Rejected(r.value.mismatch)]) == [RejectionOf(revision, r.value.mismatch)];
    }
  }

  ghost function WithRejections(live: KernelState, revision: nat, bodies: seq<Body>): KernelState {
    live.(rejectionHistory := live.rejectionHistory + Rejections(revision, bodies))
  }

  lemma NoRejections(live: KernelState, revision: nat, bodies: seq<Body>)
    requires bodies == [] || (|bodies| == 1 && !bodies[0].Rejected?)
    ensures Rejections(revision, bodies) == [] && WithRejections(live, revision, bodies) == live
  {
    assert live.rejectionHistory + [] == live.rejectionHistory;
  }

  // ---- Several bodies in one transition ----

  ghost function ReplayBodies(o: Options, k: Kernel, revision: nat, bodies: seq<Body>): Option<Kernel>
    decreases |bodies|
  {
    if bodies == [] then Some(k)
    else match ReplayBody(o, k, revision, bodies[0])
      case None => None
      case Some(next) => ReplayBodies(o, next, revision, bodies[1..])
  }

  lemma {:induction false} ReplayBodiesAppend(
    o: Options, k: Kernel, revision: nat, a: seq<Body>, b: seq<Body>)
    ensures ReplayBodies(o, k, revision, a + b)
         == match ReplayBodies(o, k, revision, a) case None => None case Some(mid) => ReplayBodies(o, mid, revision, b)
    decreases |a|
  {
    if a == [] {
      assert a + b == b;
    } else {
      assert (a + b)[1..] == a[1..] + b;
      var next := ReplayBody(o, k, revision, a[0]);
      if next.Some? { ReplayBodiesAppend(o, next.value, revision, a[1..], b); }
    }
  }

  lemma {:induction false} RejectionsAppend(revision: nat, a: seq<Body>, b: seq<Body>)
    ensures Rejections(revision, a + b) == Rejections(revision, a) + Rejections(revision, b)
  {
    if a == [] {
      assert a + b == b;
    } else {
      assert (a + b)[1..] == a[1..] + b;
      RejectionsAppend(revision, a[1..], b);
    }
  }

  /** What an advance records before its checkpoint. */
  ghost predicate Gameplay(bodies: seq<Body>) {
    forall i :: 0 <= i < |bodies| ==>
      bodies[i].Rejected? || (bodies[i].Resolution? && bodies[i].cause != TimedOut)
  }

  /** The multi-tick catch-up: replaying its events rebuilds the draft it reached. */
  lemma {:induction false} CatchUpReplays(
    o: Options, k: Kernel, backoff: map<ScopeKey, Backoff>, count: nat, revision: nat)
    requires WindowSound(k.live.window)
    ensures var r := CatchUp(o, k.live, backoff, count);
      r.Ok? ==>
        && ReplayBodies(o, k, revision, r.value.bodies)
           == Some(k.(live := WithRejections(r.value.draft, revision, r.value.bodies)))
        && WindowSound(r.value.draft.window)
        && Keeps(k.live, r.value.draft)
        && (count > 0 ==> r.value.bodies != [])
        && Gameplay(r.value.bodies)
    decreases count
  {
    hide ResolveOnce, ReplayBody, RejectionDeltas, Halts, WindowSound;
    if count == 0 {
      NoRejections(k.live, revision, []);
    } else {
      var cause := CauseOf(o, k.live.window);
      SettledReplays(o, k, backoff, cause, [], revision);
      DeclinedReplays(o, k, backoff, cause, [], revision);
      var r := ResolveOnce(o, k.live, backoff, cause, []);
      if r.Ok? {
        var first := if r.value.Declined? then Rejected(r.value.mismatch) else r.value.body;
        assert [first][1..] == [];
        if r.value.Settled? { NoRejections(r.value.draft, revision, [first]); }
        if r.value.Settled? && !Halts(o, r.value.draft) {
          var mid := k.(live := r.value.draft);
          CatchUpReplays(o, mid, r.value.backoff, count - 1, revision);
          var rest := CatchUp(o, mid.live, r.value.backoff, count - 1);
          if rest.Ok? {
            assert ([first] + rest.value.bodies)[1..] == rest.value.bodies;
            RejectionsAppend(revision, [first], rest.value.bodies);
            assert Rejections(revision, [first] + rest.value.bodies) == Rejections(revision, rest.value.bodies);
          }
        }
      }
    }
  }

  /** The audit checkpoint replays on the state it was computed from. */
  lemma CheckpointReplays(
    o: Options, k: Kernel, revision: nat, start: Kernel, draft: KernelState, bodies: seq<Body>, due: bool)
    requires ReplayBodies(o, start, revision, bodies) == Some(k.(live := WithRejections(draft, revision, bodies)))
    ensures var (draft', bodies') := WithCheckpoint(o, draft, bodies, due);
      && ReplayBodies(o, start, revision, bodies') == Some(k.(live := WithRejections(draft', revision, bodies')))
      && (bodies != [] ==> bodies' != [])
      && Keeps(draft, draft') && draft'.window == draft.window
  {
    if due {
      var b := Checkpoint(draft.tick, StateDigest(o, draft));
      ReplayBodiesAppend(o, start, revision, bodies, [b]);
      RejectionsAppend(revision, bodies, [b]);
      assert [b][1..] == [];
      NoRejections(draft, revision, [b]);
      var mid := k.(live := WithRejections(draft, revision, bodies));
      assert Rejections(revision, bodies + [b]) == Rejections(revision, bodies);
      assert ReplayBody(o, mid, revision, b) == Some(mid.(live := mid.live.(lastCheckpointTick := draft.tick)));
    }
  }

  // ---- Stamping revisions and events ----

  ghost function Stamped(k: Kernel, revision: nat, events: seq<Event>): Kernel {
    k.(live := k.live.(transitionRevision := revision, events := events))
  }

  /** No event reads the revision or the log it is replayed onto. */
  lemma StampBody(o: Options, k: Kernel, at: nat, events: seq<Event>, revision: nat, b: Body)
    ensures ReplayBody(o, Stamped(k, at, events), revision, b)
         == match ReplayBody(o, k, revision, b) case None => None case Some(next) => Some(Stamped(next, at, events))
  {
    hide ReplayIntent, ReplayInterest, ReplayControl, ReplayResolution;
    match b
    case IntentAccepted(_, _, _, _, _, _, _, _) => StampIntent(o, k, at, events, b);
    case InterestDeclared(_, _, _, _, _, _, _, _) => StampInterest(o, k, at, events, b);
    case ControlTransition(_, _, _, _, _, _) => StampControl(o, k, at, events, revision, b);
    case Resolution(_, _, _, _, _, _, _) => StampResolution(o, k, at, events, b);
    case _ =>
  }

  lemma StampIntent(o: Options, k: Kernel, at: nat, events: seq<Event>, b: Body)
    requires b.IntentAccepted?
    ensures ReplayIntent(o, Stamped(k, at, events), b)
         == match ReplayIntent(o, k, b) case None => None case Some(next) => Some(Stamped(next, at, events))
  {
  }

  lemma StampInterest(o: Options, k: Kernel, at: nat, events: seq<Event>, b: Body)
    requires b.InterestDeclared?
    ensures ReplayInterest(o, Stamped(k, at, events), b)
         == match ReplayInterest(o, k, b) case None => None case Some(next) => Some(Stamped(next, at, events))
  {
  }

  lemma StampControl(o: Options, k: Kernel, at: nat, events: seq<Event>, revision: nat, b: Body)
    requires b.ControlTransition?
    ensures ReplayControl(o, Stamped(k, at, events), revision, b)
         == match ReplayControl(o, k, revision, b) case None => None case Some(next) => Some(Stamped(next, at, events))
  {
  }

  lemma StampResolution(o: Options, k: Kernel, at: nat, events: seq<Event>, b: Body)
    requires b.Resolution?
    ensures ReplayResolution(o, Stamped(k, at, events), b)
         == match ReplayResolution(o, k, b) case None => None case Some(next) => Some(Stamped(next, at, events))
  {
    hide ReplayInputs, Resolve;
    var books := ReplayInputs(o, b.tick, BooksOf(k.live), b.inputs);
    if books.Some? { StampResolve(o, WithBooks(k.live, books.value), at, events, b.inputs, b.cursor, b.tick); }
  }

  lemma StampResolve(
    o: Options, live: KernelState, at: nat, events: seq<Event>, inputs: seq<CanonicalInput>, cursor: nat, tick: nat)
    ensures Resolve(o, live.(transitionRevision := at, events := events), inputs, cursor, tick)
         == match Resolve(o, live, inputs, cursor, tick)
            case None => None case Some(next) => Some(next.(transitionRevision := at, events := events))
  {
    hide RefreshScopes, WindowFor, Fresh, Expire, ViewsOf, NextRevisions;
  }

  lemma OneReplays(o: Options, k: Kernel, log: Kernel, e: Event)
    requires log == Stamped(k, log.live.transitionRevision, log.live.events)
    requires log.live.transitionRevision <= e.transitionRevision
    requires ReplayBody(o, k, e.transitionRevision, e.body).Some?
    ensures ReplayEvent(o, log, e)
         == Some(Stamped(ReplayBody(o, k, e.transitionRevision, e.body).value, e.transitionRevision,
           log.live.events + [e]))
  {
    hide ReplayBody;
    StampBody(o, k, log.live.transitionRevision, log.live.events, e.transitionRevision, e.body);
  }

  lemma {:induction false} NumberedReplays(
    o: Options, k: Kernel, log: Kernel, previous: nat, revision: nat, bodies: seq<Body>, index: nat)
    requires log == Stamped(k, log.live.transitionRevision, log.live.events)
    requires log.live.transitionRevision <= revision && previous <= revision
    requires ReplayBodies(o, k, revision, bodies).Some?
    ensures bodies != [] ==>
      ReplayEvents(o, log, previous, Number(o, revision, bodies, index))
      == Some(Stamped(ReplayBodies(o, k, revision, bodies).value, revision,
                      log.live.events + Number(o, revision, bodies, index)))
    decreases |bodies|
  {
    hide ReplayBody, ReplayEvent;
    if bodies != [] {
      var e := Event(EventId(o.sessionId, revision, index), revision, bodies[0]);
      var rest := Number(o, revision, bodies[1..], index + 1);
      assert Number(o, revision, bodies, index) == [e] + rest && ([e] + rest)[1..] == rest;
      OneReplays(o, k, log, e);
      var next := ReplayBody(o, k, revision, bodies[0]).value;
      var log' := Stamped(next, revision, log.live.events + [e]);
      NumberedReplays(o, next, log', revision, revision, bodies[1..], index + 1);
      assert log.live.events + [e] + rest == log.live.events + ([e] + rest);
      if bodies[1..] == [] { assert log.live.events + [e] + rest == log.live.events + [e]; }
    }
  }

  // ---- One committed transition ----

  ghost predicate NoAccepts(bodies: seq<Body>) {
    forall i :: 0 <= i < |bodies| ==> !bodies[i].IntentAccepted? && !bodies[i].InterestDeclared?
  }

  lemma {:induction false} NoAcceptsRecord(
    o: Options, keys: set<Key>, commands: map<Key, string>, revision: nat, bodies: seq<Body>, index: nat)
    requires NoAccepts(bodies)
    ensures RecordKeys(keys, Number(o, revision, bodies, index)) == keys
    ensures RecordInterest(commands, Number(o, revision, bodies, index)) == commands
    decreases |bodies|
  {
    if bodies != [] {
      var events := Number(o, revision, bodies, index);
      assert events[1..] == Number(o, revision, bodies[1..], index + 1);
      assert keys + {} == keys;
      NoAcceptsRecord(o, keys, commands, revision, bodies[1..], index + 1);
    }
  }

  lemma OneRecord(o: Options, keys: set<Key>, commands: map<Key, string>, revision: nat, b: Body)
    ensures b.IntentAccepted? || b.InterestDeclared? ==>
      RecordKeys(keys, Number(o, revision, [b], 0)) == keys + {Key(b.participantId, b.submissionId)}
    ensures RecordInterest(commands, Number(o, revision, [b], 0))
      == if b.InterestDeclared? then commands[Key(b.participantId, b.submissionId) := b.canonicalCommand] else commands
  {
    assert [b][1..] == [];
    assert Number(o, revision, [b], 0)[1..] == [];
  }

  /** A draft whose bodies replay to it: its events replay to what the commit installs. */
  lemma FinishReplays(
    o: Options, session: Session, draft: KernelState, bodies: seq<Body>, deltas: seq<Delta>,
    outcome: Outcome, backoff: map<ScopeKey, Backoff>, previous: nat)
    requires bodies != [] && previous <= session.kernel.live.transitionRevision + 1
    requires Keeps(session.kernel.live, draft)
    requires var revision := session.kernel.live.transitionRevision + 1;
      ReplayBodies(o, session.kernel, revision, bodies)
      == Some(Kernel(WithRejections(draft, revision, bodies),
                     RecordKeys(session.kernel.submissionKeys, Number(o, revision, bodies, 0)),
                     RecordInterest(session.kernel.interestCommands, Number(o, revision, bodies, 0))))
    ensures var p := Finish(o, session, draft, bodies, deltas, outcome, backoff, false);
      && p.events != []
      && ReplayEvents(o, session.kernel, previous, p.events) == Some(Commit(session, p).kernel)
  {
    hide ReplayBody;
    var k := session.kernel;
    NumberedReplays(o, k, k, previous, k.live.transitionRevision + 1, bodies, 0);
  }

  ghost predicate Agrees(o: Options, session: Session, p: Prepared, previous: nat) {
    && (p.noop ==> p.events == [])
    && (!p.noop ==>
          && p.events != []
          && ReplayEvents(o, session.kernel, previous, p.events) == Some(Commit(session, p).kernel))
    && WindowSound(Commit(session, p).kernel.live.window)
  }

  lemma IngestReplays(o: Options, h: Lookup, session: Session, s: Submission, previous: nat)
    requires WindowSound(session.kernel.live.window)
    requires previous <= session.kernel.live.transitionRevision
    ensures var r := PrepareIngest(o, h, session, s);
      r.Ok? ==> Agrees(o, session, r.value, previous)
  {
    var r := PrepareIngest(o, h, session, s);
    if r.Ok? && !r.value.noop {
      var k := session.kernel;
      var live, revision := k.live, k.live.transitionRevision + 1;
      var preview := o.toAction(s.command, Context(s.participantId, s.submissionId, live.cursor, live.tick));
      var w := Collect(o, live.window, s).value;
      var b := IntentAccepted(live.tick, live.cursor, s.participantId, s.submissionId, s.command,
                              o.text(s.command), preview, s.seal);
      IntentReplays(o, k, s, preview, b);
      OneRecord(o, k.submissionKeys, k.interestCommands, revision, b);
      OneBody(o, k, revision, b);
      var p := Accept(o, session, s, preview, w);
      var draft := ReplayIntent(o, k, b).value.live;
      NoRejections(draft, revision, [b]);
      FinishReplays(o, session, draft, [b], [], p.outcome, session.backoff, previous);
    }
  }

  lemma OneBody(o: Options, k: Kernel, revision: nat, b: Body)
    ensures ReplayBodies(o, k, revision, [b]) == ReplayBody(o, k, revision, b)
  {
    assert [b][1..] == [];
  }

  lemma IntentReplays(o: Options, k: Kernel, s: Submission, preview: Action, b: Body)
    requires SubmissionError(o, k.live.window, s).None? && Collect(o, k.live.window, s).Ok?
    requires WindowSound(k.live.window)
    requires preview == o.toAction(s.command, Context(s.participantId, s.submissionId, k.live.cursor, k.live.tick))
    requires b == IntentAccepted(k.live.tick, k.live.cursor, s.participantId, s.submissionId, s.command,
                                 o.text(s.command), preview, s.seal)
    ensures var w := Collect(o, k.live.window, s).value;
      var key := Key(s.participantId, s.submissionId);
      && WindowSound(w)
      && ReplayIntent(o, k, b) == Some(Kernel(
           k.live.(window := w,
                   receipts := SetReceipt(k.live.receipts,
                     ReceiptEntry(key, o.text(s.command), s.tickId, ReceiptFor(k.live, s, w), k.live.cursor)),
                   intentActions := k.live.intentActions[key := preview]),
           k.submissionKeys + {key}, k.interestCommands))
  {
  }

  lemma AdvanceReplays(o: Options, session: Session, target: Option<int>, previous: nat)
    requires WindowSound(session.kernel.live.window)
    requires previous <= session.kernel.live.transitionRevision
    ensures var r := PrepareAdvance(o, session, target);
      r.Ok? ==> Agrees(o, session, r.value, previous)
  {
    hide ReplayBody, CatchUp, Deltas, CheckpointDue, WindowSound;
    var r := PrepareAdvance(o, session, target);
    if r.Ok? {
      var k := session.kernel;
      var revision := k.live.transitionRevision + 1;
      var demand := DemandOf(o, k.live, target).value;
      CatchUpReplays(o, k, session.backoff, demand.count, revision);
      var c := CatchUp(o, k.live, session.backoff, demand.count).value;
      if demand.count == 0 {
        NothingToDo(o, k.live, session.backoff);
      } else {
        var due := CheckpointDue(o, c.draft, c.resolutions) || EndsRejected(c.bodies);
        CheckpointReplays(o, k, revision, k, c.draft, c.bodies, due);
        var (draft, bodies) := WithCheckpoint(o, c.draft, c.bodies, due);
        NoAcceptsRecord(o, k.submissionKeys, k.interestCommands, revision, bodies, 0);
        FinishReplays(o, session, draft, bodies, c.deltas, r.value.outcome, c.backoff, previous);
      }
    }
  }

  lemma NothingToDo(o: Options, live: KernelState, backoff: map<ScopeKey, Backoff>)
    ensures CatchUp(o, live, backoff, 0) == Ok(Progress(live, [], [], backoff, 0, false))
    ensures !CheckpointDue(o, live, 0) && !EndsRejected([])
    ensures Number(o, live.transitionRevision, [], 0) == []
  {
  }

  lemma TimeoutReplays(o: Options, session: Session, t: TimeoutInput, forced: Option<Action>, previous: nat)
    requires WindowSound(session.kernel.live.window)
    requires previous <= session.kernel.live.transitionRevision
    ensures var r := PrepareTimeout(o, session, t, forced);
      r.Ok? ==> Agrees(o, session, r.value, previous)
  {
    hide ResolveOnce, ReplayBody, TimeoutAction, Deltas, RejectionDeltas, CheckpointDue, WindowSound, StateDigest,
         RecordKeys, RecordInterest, Inert, NoAccepts, ReplayEvents;
    var r := PrepareTimeout(o, session, t, forced);
    if r.Ok? {
      var k := session.kernel;
      var revision := k.live.transitionRevision + 1;
      var a := TimeoutAction(o, k.live, t, forced).value;
      TimeoutInert(o, k.live, t, forced);
      var system := [SystemInput(t, a)];
      SettledReplays(o, k, session.backoff, TimedOut, system, revision);
      DeclinedReplays(o, k, session.backoff, TimedOut, system, revision);
      var resolved := ResolveOnce(o, k.live, session.backoff, TimedOut, system).value;
      var notice := NoticeFor(k.live, t);
      var second := if resolved.Declined? then Rejected(resolved.mismatch) else resolved.body;
      var due := resolved.Declined? || CheckpointDue(o, resolved.draft, 1);
      if resolved.Settled? { NoRejections(resolved.draft, revision, [second]); }
      NoticeThen(o, k, revision, notice, second, resolved.draft);
      CheckpointReplays(o, k, revision, k, resolved.draft, [notice, second], due);
      var (draft, bodies) := WithCheckpoint(o, resolved.draft, [notice, second], due);
      NoAcceptsRecord(o, k.submissionKeys, k.interestCommands, revision, bodies, 0);
      FinishReplays(o, session, draft, bodies, r.value.deltas, r.value.outcome, r.value.backoff, previous);
    }
  }

  lemma TimeoutInert(o: Options, live: KernelState, t: TimeoutInput, forced: Option<Action>)
    ensures var a := TimeoutAction(o, live, t, forced);
      a.Ok? ==> Inert([SystemInput(t, a.value)]) && a.value.seat == t.participantId
  {
  }

  lemma NoticeThen(o: Options, k: Kernel, revision: nat, notice: Body, second: Body, draft: KernelState)
    requires notice.TimeoutNotice?
    requires ReplayBody(o, k, revision, second) == Some(k.(live := WithRejections(draft, revision, [second])))
    ensures ReplayBodies(o, k, revision, [notice, second])
         == Some(k.(live := WithRejections(draft, revision, [notice, second])))
  {
    assert [notice, second] == [notice] + [second];
    ReplayBodiesAppend(o, k, revision, [notice], [second]);
    OneBody(o, k, revision, notice);
    OneBody(o, k, revision, second);
    RejectionsAppend(revision, [notice], [second]);
    NoRejections(draft, revision, [notice]);
    assert [] + Rejections(revision, [second]) == Rejections(revision, [second]);
  }

  lemma ExtensionReplays(o: Options, session: Session, lane: string, record: Json, previous: nat)
    requires WindowSound(session.kernel.live.window)
    requires previous <= session.kernel.live.transitionRevision
    ensures var r := PrepareExtension(o, session, lane, record);
      r.Ok? ==> Agrees(o, session, r.value, previous)
  {
    var r := PrepareExtension(o, session, lane, record);
    if r.Ok? {
      var k := session.kernel;
      var revision := k.live.transitionRevision + 1;
      var b := Extension(k.live.tick, lane, record);
      OneBody(o, k, revision, b);
      NoRejections(k.live, revision, [b]);
      NoAcceptsRecord(o, k.submissionKeys, k.interestCommands, revision, [b], 0);
      FinishReplays(o, session, k.live, [b], [], Extended, session.backoff, previous);
    }
  }

  lemma ControlReplays(o: Options, h: Lookup, session: Session, c: ControlInput, previous: nat)
    requires WindowSound(session.kernel.live.window)
    requires previous <= session.kernel.live.transitionRevision
    ensures var r := PrepareControl(o, h, session, c);
      r.Ok? ==> Agrees(o, session, r.value, previous)
  {
    hide ApplyControl, Deltas, NextBackoff, WindowSound, RecordKeys, RecordInterest;
    var r := PrepareControl(o, h, session, c);
    if r.Ok? && !r.value.noop {
      var k := session.kernel;
      var revision := k.live.transitionRevision + 1;
      var b := ControlTransition(k.live.tick, k.live.cursor, c.participantId, c.controlId, c.control,
        o.text(c.control));
      var moved := ApplyControl(o, k.live, c).value;
      ControlKeeps(o, k.live, c);
      var key := Key(c.participantId, c.controlId);
      var draft := moved.(controls := k.live.controls[key :=
        ControlEntry(o.text(c.control), ControlReceipt(c.participantId, c.controlId, revision, k.live.cursor,
          k.live.tick))]);
      OneBody(o, k, revision, b);
      NoRejections(draft, revision, [b]);
      NoAcceptsRecord(o, k.submissionKeys, k.interestCommands, revision, [b], 0);
      FinishReplays(o, session, draft, [b], r.value.deltas, r.value.outcome, r.value.backoff, previous);
    }
  }

  lemma ControlKeeps(o: Options, live: KernelState, c: ControlInput)
    requires o.applyControl.Some?
    ensures var moved := ApplyControl(o, live, c);
      moved.Some? ==> Keeps(live, moved.value) && moved.value.window == live.window
  {
  }

  lemma InterestReplays(o: Options, h: Lookup, session: Session, s: InterestSubmission, previous: nat)
    requires WindowSound(session.kernel.live.window)
    requires previous <= session.kernel.live.transitionRevision
    ensures var r := PrepareInterest(o, h, session, s);
      r.Ok? ==> Agrees(o, session, r.value, previous)
  {
    hide Declare, InterestText;
    var r := PrepareInterest(o, h, session, s);
    if r.Ok? && !r.value.noop {
      var k := session.kernel;
      var revision := k.live.transitionRevision + 1;
      var b := InterestDeclared(k.live.tick, k.live.cursor, s.participantId, s.submissionId, s.scopeId,
                                s.declaration, InterestText(o, s.scopeId, s.declaration), s.seal);
      var scope := Declare(o, k.live, s.participantId, s.scopeId, s.declaration).value;
      var draft := k.live.(interestScopes := SetScope(k.live.interestScopes, scope));
      OneBody(o, k, revision, b);
      OneRecord(o, k.submissionKeys, k.interestCommands, revision, b);
      NoRejections(draft, revision, [b]);
      FinishReplays(o, session, draft, [b], r.value.deltas, r.value.outcome, r.value.backoff, previous);
    }
  }

  /** Whatever is prepared: replaying its events onto the state it was prepared from gives
      exactly the kernel its commit installs. */
  lemma PreparedReplays(o: Options, h: Lookup, session: Session, r: Request, previous: nat)
    requires WindowSound(session.kernel.live.window)
    requires previous <= session.kernel.live.transitionRevision
    ensures var p := Prepare(o, h, session, r);
      p.Ok? ==> Agrees(o, session, p.value, previous)
  {
    hide Agrees, PrepareIngest, PrepareAdvance, PrepareTimeout, PrepareExtension, PrepareControl, PrepareInterest;
    match r
    case Ingest(s) => IngestReplays(o, h, session, s, previous);
    case Advance(target) => AdvanceReplays(o, session, target, previous);
    case Timeout(t, forced) => TimeoutReplays(o, session, t, forced, previous);
    case Extend(lane, record) => ExtensionReplays(o, session, lane, record, previous);
    case Control(c) => ControlReplays(o, h, session, c, previous);
    case Interest(s) => InterestReplays(o, h, session, s, previous);
  }
}
