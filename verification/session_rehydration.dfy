/** The rehydration loop itself (`rehydrate`, `validateTimeoutAudit` and the tail of
    `rehydrateKernelFromCheckpoint` in src/session.ts), proved to compute the replay functions. */
module SessionRehydration {
  import opened CanonicalJson
  import opened Wrappers
  import opened SessionTypes
  import opened SessionSpec
  import opened SessionReplay
  import opened SessionAlike
  import opened SessionDrafts

  method ValidateTimeoutAudit(o: Options, events: seq<Event>) returns (sound: bool)
    ensures sound <==> TimeoutAudit(o, events)
  {
    hide AuditAt;
    var i := 0;
    while i < |events|
      invariant 0 <= i <= |events|
      invariant forall j :: 0 <= j < i ==> AuditAt(o, events, j)
    {
      if !AuditAt(o, events, i) { return false; }
      i := i + 1;
    }
    sound := true;
  }

  ghost function Shown(done: seq<Scope>, rest: Option<seq<Scope>>): Option<seq<Scope>> {
    if rest.Some? then Some(done + rest.value) else None
  }

  lemma ShownNothing(rest: Option<seq<Scope>>)
    ensures Shown([], rest) == rest
  {
    if rest.Some? { assert [] + rest.value == rest.value; }
  }

  lemma ShownAll(o: Options, done: seq<Scope>, views: map<Seat, Json>, cursor: nat, tick: nat)
    ensures Shown(done, RefreshScopes(o, [], views, cursor, tick)) == Some(done)
  {
    assert done + [] == done;
  }

  lemma ShownStep(o: Options, scopes: seq<Scope>, i: nat, views: map<Seat, Json>, cursor: nat, tick: nat,
      done: seq<Scope>)
    requires i < |scopes|
    ensures var one := RefreshOne(o, scopes[i], views, cursor, tick);
      var all := Shown(done, RefreshScopes(o, scopes[i..], views, cursor, tick));
      && (one.None? ==> all.None?)
      && (one.Some? ==> all == Shown(done + [one.value], RefreshScopes(o, scopes[i + 1..], views, cursor, tick)))
  {
    hide ScopedView;
    assert scopes[i..][1..] == scopes[i + 1..];
    var one, rest := RefreshOne(o, scopes[i], views, cursor, tick),
      RefreshScopes(o, scopes[i + 1..], views, cursor, tick);
    if one.Some? && rest.Some? { assert done + [one.value] + rest.value == done + ([one.value] + rest.value); }
  }

  /** Every scope's view of the new state, or None as soon as one widens its seat's view. */
  method RefreshViews(o: Options, live: KernelState, state: GameState, cursor: nat, tick: nat)
    returns (moved: Option<KernelState>)
    ensures moved == Refresh(o, live, state, cursor, tick)
  {
    hide ScopedView, RefreshScopes, Shown, ViewsOf;
    var views := ViewsOf(o, state);
    var scopes := [];
    var i := 0;
    assert live.interestScopes[0..] == live.interestScopes;
    ShownNothing(RefreshScopes(o, live.interestScopes, views, cursor, tick));
    while i < |live.interestScopes|
      invariant 0 <= i <= |live.interestScopes|
      invariant RefreshScopes(o, live.interestScopes, views, cursor, tick)
             == Shown(scopes, RefreshScopes(o, live.interestScopes[i..], views, cursor, tick))
    {
      var scope := live.interestScopes[i];
      ShownStep(o, live.interestScopes, i, views, cursor, tick, scopes);
      if scope.participantId in views {
        var view := CheckedView(o, views[scope.participantId], scope, cursor, tick);
        if view.None? { return None; }
        scope := scope.(view := view.value);
      }
      scopes := scopes + [scope];
      i := i + 1;
    }
    ShownAll(o, scopes, views, cursor, tick);
    assert live.interestScopes[i..] == [];
    moved := Some(live.(
      reducerState := state, cursor := cursor, tick := tick, views := live.views + views,
      viewRevisions := NextRevisions(o, live.viewRevisions), interestScopes := scopes));
  }

  method ReplayBooks(o: Options, tick: nat, first: Books, inputs: seq<CanonicalInput>) returns (books: Option<Books>)
    ensures books == ReplayInputs(o, tick, first, inputs)
  {
    hide ReplayInput;
    var now := first;
    var i := 0;
    assert inputs[0..] == inputs;
    while i < |inputs|
      invariant 0 <= i <= |inputs|
      invariant ReplayInputs(o, tick, first, inputs) == ReplayInputs(o, tick, now, inputs[i..])
    {
      assert inputs[i..][1..] == inputs[i + 1..];
      var next := ReplayInput(o, tick, now, inputs[i]);
      if next.None? { return None; }
      now := next.value;
      i := i + 1;
    }
    books := Some(now);
  }

  method ReplayTick(o: Options, k: Kernel, b: Body) returns (next: Option<Kernel>)
    requires b.Resolution?
    ensures next == ReplayResolution(o, k, b)
  {
    hide Refresh, WindowFor, Evict, ReplayInputs;
    var books := ReplayBooks(o, b.tick, BooksOf(k.live), b.inputs);
    if books.None? { return None; }
    var state := o.advance(k.live.reducerState, Actions(b.inputs));
    var moved := RefreshViews(o, WithBooks(k.live, books.value), state, b.cursor + 1, b.tick + 1);
    var window := WindowFor(o, state, b.cursor + 1);
    if moved.None? || window.None? { return None; }
    var draft := new Draft(moved.value.(window := window.value), map[]);
    draft.EvictReceipts(o);
    next := Some(k.(live := draft.state));
  }

  method ReplayDeclaration(o: Options, k: Kernel, b: Body) returns (next: Option<Kernel>)
    requires b.InterestDeclared?
    ensures next == ReplayInterest(o, k, b)
  {
    hide ScopedView, InterestText;
    var live := k.live;
    var key := Key(b.participantId, b.submissionId);
    var canonical := InterestText(o, b.scopeId, b.declaration);
    if o.narrowView.None? || b.participantId !in o.seats || !PortableId(b.scopeId)
      || b.cursor != live.cursor { return None; }
    if b.canonicalCommand != canonical || key in k.submissionKeys || b.participantId !in live.views { return None; }
    var scope := Scope(b.participantId, b.scopeId, true, b.declaration, Null);
    var view := CheckedView(o, live.views[b.participantId], scope, live.cursor, live.tick);
    if view.None? { return None; }
    next := Some(Kernel(live.(interestScopes := SetScope(live.interestScopes, scope.(view := view.value))),
      k.submissionKeys + {key}, k.interestCommands[key := canonical]));
  }

  method ReplayControlled(o: Options, k: Kernel, revision: nat, b: Body) returns (next: Option<Kernel>)
    requires b.ControlTransition?
    ensures next == ReplayControl(o, k, revision, b)
  {
    hide Refresh, WindowFor;
    var live := k.live;
    var key := Key(b.participantId, b.controlId);
    if o.applyControl.None? || b.participantId !in o.seats || b.controlId == "" { return None; }
    if b.cursor != live.cursor || b.tick != live.tick || o.text(b.control) != b.canonicalControl { return None; }
    if key in live.controls { return None; }
    var state := (o.applyControl.value)(live.reducerState, b.control,
                   Context(b.participantId, b.controlId, live.cursor, live.tick));
    if !ParticipantsValid(o, state) { return None; }
    var moved := RefreshViews(o, live, state, live.cursor, live.tick);
    if moved.None? { return None; }
    next := Some(k.(live := moved.value.(controls := live.controls[key :=
      ControlEntry(b.canonicalControl, ControlReceipt(b.participantId, b.controlId, revision, b.cursor, b.tick))])));
  }

  method ReplayOne(o: Options, k: Kernel, e: Event) returns (next: Option<Kernel>)
    ensures next == ReplayEvent(o, k, e)
  {
    hide ReplayResolution, ReplayInterest, ReplayControl, ReplayIntent;
    var b := e.body;
    var moved := None;
    match b {
      case IntentAccepted(_, _, _, _, _, _, _, _) => moved := ReplayIntent(o, k, b);
      case InterestDeclared(_, _, _, _, _, _, _, _) => moved := ReplayDeclaration(o, k, b);
      case ControlTransition(_, _, _, _, _, _) => moved := ReplayControlled(o, k, e.transitionRevision, b);
      case Resolution(_, _, _, _, _, _, _) => moved := ReplayTick(o, k, b);
      case Rejected(m) =>
        var live := Decline(k.live, m);
        moved := Some(k.(live := live.(rejectionHistory :=
          live.rejectionHistory + [RejectionOf(e.transitionRevision, m)])));
      case Checkpoint(tick, digest) =>
        if tick == k.live.tick && digest == StateDigest(o, k.live) {
          moved := Some(k.(live := k.live.(lastCheckpointTick := tick)));
        }
      case TimeoutNotice(_, _, _, _, _, _) => moved := Some(k);
      case Extension(_, _, _) => moved := Some(k);
    }
    if moved.None? { return None; }
    next := Some(moved.value.(live := moved.value.live.(
      transitionRevision := Max(moved.value.live.transitionRevision, e.transitionRevision),
      events := moved.value.live.events + [e])));
  }

  /** Replays a log onto a kernel, event by event. */
  method ReplayLog(o: Options, first: Kernel, events: seq<Event>) returns (k: Option<Kernel>)
    ensures k == Replay(o, first, events)
  {
    hide ReplayEvent, TimeoutAudit;
    var audited := ValidateTimeoutAudit(o, events);
    if !audited { return None; }
    var now, previous, i := first, 0, 0;
    assert events[0..] == events;
    while i < |events|
      invariant 0 <= i <= |events|
      invariant ReplayEvents(o, first, 0, events) == ReplayEvents(o, now, previous, events[i..])
    {
      assert events[i..][1..] == events[i + 1..];
      if events[i].transitionRevision < previous { return None; }
      var next := ReplayOne(o, now, events[i]);
      if next.None? { return None; }
      now, previous, i := next.value, events[i].transitionRevision, i + 1;
    }
    k := Some(now);
  }

  method RehydrateKernel(o: Options, events: seq<Event>) returns (k: Option<Kernel>)
    requires ValidOptions(o)
    ensures k == Rehydrate(o, events)
  {
    k := ReplayLog(o, Create(o), events);
  }
}
