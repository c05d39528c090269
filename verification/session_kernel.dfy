/** The session kernel as an object (`SessionKernelImpl` in src/session.ts): transitions are prepared
    on forked drafts, then committed or aborted in any order. Reducer states are resources of the
    host's isolation hooks; a fork is identified by the order in which it was taken. */
module SessionKernels {
  import opened CodePoints
  import opened CanonicalJson
  import opened Wrappers
  import opened SessionTypes
  import opened SessionSpec
  import opened SessionCheckpoint
  import opened SessionDeltas
  import opened SessionDrafts
  import opened SessionIdentities
  import opened SessionReplay
  import opened SessionRuns

  datatype Completion = Undecided | Committed | Aborted
  datatype TransitionError = Foreign | AlreadyCompleted | Stale

  /** `Prepared` with its hidden `PreparedState`. The ghost fields remember the call that made it. */
  class Transition {
    const owner: SessionKernel
    const prepared: Prepared
    const next: nat
    const drafts: seq<nat>
    var completion: Completion
    ghost const origin: Session
    ghost const request: Request

    constructor (owner: SessionKernel, prepared: Prepared, next: nat, drafts: seq<nat>, ghost origin: Session,
        ghost request: Request)
      ensures this.owner == owner && this.prepared == prepared && this.next == next && this.drafts == drafts
      ensures this.origin == origin && this.request == request && completion == Undecided
    {
      this.owner, this.prepared, this.next, this.drafts := owner, prepared, next, drafts;
      this.origin, this.request := origin, request;
      completion := Undecided;
    }
  }

  /** The forks taken so far: which one is live, and the calls made to the `discard` and `retire`
      hooks. */
  datatype Ledger = Ledger(installed: nat, forks: nat, discarded: seq<nat>, retired: seq<nat>)

  /** No fork is released twice, and the live one is not released. */
  ghost predicate Accounted(l: Ledger) {
    && l.installed < l.forks && l.installed !in l.discarded && l.installed !in l.retired
    && NoRepeat(l.discarded) && NoRepeat(l.retired)
    && (forall x :: x in l.discarded ==> x < l.forks && x !in l.retired)
    && (forall x :: x in l.retired ==> x < l.forks)
  }

  /** Where the forks of one transition are. */
  ghost predicate Placed(l: Ledger, t: Transition, completion: Completion) {
    && t.next in t.drafts && NoRepeat(t.drafts)
    && forall x :: x in t.drafts ==> x < l.forks && PlacedFork(l, t, completion, x)
  }

  ghost predicate PlacedFork(l: Ledger, t: Transition, completion: Completion, x: nat) {
    match completion
    case Undecided => x != l.installed && x !in l.discarded && x !in l.retired
    case Aborted => x in l.discarded
    case Committed => if x == t.next && !t.prepared.noop then x == l.installed || x in l.retired else x in l.discarded
  }

  ghost predicate Apart(t: Transition, u: Transition) { forall x :: x in t.drafts ==> x !in u.drafts }

  lemma JoinOnce(a: seq<nat>, b: seq<nat>)
    requires NoRepeat(a) && NoRepeat(b) && forall x :: x in a ==> x !in b
    ensures NoRepeat(a + b)
  {
    forall i, j | 0 <= i < j < |a + b| ensures (a + b)[i] != (a + b)[j] {
      if i < |a| <= j { assert (a + b)[i] in a && (a + b)[j] in b; }
    }
  }

  /** Forks taken and discarded in one call concern no other transition. */
  lemma PassingForks(l: Ledger, taken: seq<nat>, forks: nat)
    requires Accounted(l) && NoRepeat(taken) && l.forks <= forks
    requires forall x :: x in taken ==> l.forks <= x < forks
    ensures Accounted(l.(forks := forks, discarded := l.discarded + taken))
    ensures Accounted(l.(forks := forks))
    ensures forall t, c :: Placed(l, t, c) ==> Placed(l.(forks := forks, discarded := l.discarded + taken), t, c)
    ensures forall t, c :: Placed(l, t, c) ==> Placed(l.(forks := forks), t, c)
  {
    JoinOnce(l.discarded, taken);
  }

  /** Forks yet to be taken belong to nobody. */
  lemma OlderForks(l: Ledger, taken: seq<nat>)
    requires Accounted(l) && forall x :: x in taken ==> l.forks <= x
    ensures forall x :: x in taken ==> x != l.installed && x !in l.discarded && x !in l.retired
    ensures forall t, c :: Placed(l, t, c) ==> forall x :: x in t.drafts ==> x !in taken
  {
  }

  /** Discarding the forks of an undecided transition settles it and leaves the others alone. */
  lemma Discarded(l: Ledger, t: Transition)
    requires Accounted(l) && Placed(l, t, Undecided)
    ensures var after := l.(discarded := l.discarded + t.drafts);
      && Accounted(after) && Placed(after, t, Aborted) && (t.prepared.noop ==> Placed(after, t, Committed))
      && forall u, c :: Placed(l, u, c) && Apart(t, u) ==> Placed(after, u, c)
  {
    JoinOnce(l.discarded, t.drafts);
  }

  /** The forks of a transition that are not installed with it. */
  function Others(drafts: seq<nat>, next: nat): (others: seq<nat>)
    ensures forall x :: x in others <==> x in drafts && x != next
  {
    if drafts == [] then []
    else (if drafts[0] == next then [] else [drafts[0]]) + Others(drafts[1..], next)
  }

  lemma {:induction false} OthersOnce(drafts: seq<nat>, next: nat)
    requires NoRepeat(drafts)
    ensures NoRepeat(Others(drafts, next))
  {
    if drafts != [] {
      OthersOnce(drafts[1..], next);
      JoinOnce(if drafts[0] == next then [] else [drafts[0]], Others(drafts[1..], next));
    }
  }

  /** Installing a draft retires the state it replaces. */
  lemma Installed(l: Ledger, t: Transition)
    requires Accounted(l) && Placed(l, t, Undecided) && !t.prepared.noop
    ensures var after := Ledger(t.next, l.forks, l.discarded + Others(t.drafts, t.next), l.retired + [l.installed]);
      && Accounted(after) && Placed(after, t, Committed)
      && forall u, c :: Placed(l, u, c) && Apart(t, u) ==> Placed(after, u, c)
  {
    OthersOnce(t.drafts, t.next);
    JoinOnce(l.discarded, Others(t.drafts, t.next));
    JoinOnce(l.retired, [l.installed]);
  }

  ghost predicate NoRepeat(calls: seq<nat>) { forall i, j :: 0 <= i < j < |calls| ==> calls[i] != calls[j] }

  /** The forks of one prepare call: its own, and the object the reducer put in its place. */
  function Taken(first: nat, replaced: bool): (drafts: seq<nat>)
    ensures drafts != []
  {
    if replaced then [first, first + 1] else [first]
  }

  /** The error was raised before the call forked the live state. */
  predicate BeforeFork(o: Options, live: KernelState, r: Request, e: Error) {
    match r
    case Advance(_) => false
    case Timeout(t, forced) => TimeoutAction(o, live, t, forced).Err?
    case Control(_) => e != InvalidView
    case _ => true
  }

  /** A command that passes every check before its legality. */
  predicate Examined(o: Options, h: Lookup, session: Session, r: Request) {
    && r.Ingest?
    && var (k, live, s) := (session.kernel, session.kernel.live, r.submission);
       var key := Key(s.participantId, s.submissionId);
       && s.protocol == GaosTicks1 && s.sessionId == o.sessionId && FindReceipt(live.receipts, key).None?
       && SubmissionError(o, live.window, s).None? && o.status(live.reducerState) == Playing && !Spent(k, h, key)
       && ActionError(o, live, s.participantId,
            o.toAction(s.command, Context(s.participantId, s.submissionId, live.cursor, live.tick))).None?
  }

  class SessionKernel {
    const o: Options
    const historyLookup: Lookup
    /** The reducer has a `validateCommand`. */
    const validates: bool
    var live: KernelState
    var submissionKeys: set<Key>
    var interestCommands: map<Key, string>
    var backoff: map<ScopeKey, Backoff>
    const retentionFloor: nat
    /** The fork installed as the live reducer state, and how many were ever taken. */
    var installed: nat
    var forks: nat
    /** The calls made to the host's `discard` and `retire` hooks. */
    var discarded: seq<nat>
    var retired: seq<nat>
    ghost var issued: set<Transition>
    ghost var committed: seq<Request>

    function Current(): Session
      reads this
    {
      Session(Kernel(live, submissionKeys, interestCommands), backoff, retentionFloor)
    }

    // ---- Invariant ----

    /** The live state is the sequential run of the requests committed so far. */
    ghost predicate Sequential()
      reads this
    {
      && ValidOptions(o)
      && Current() == Run(o, historyLookup, SessionSpec.Open(o), committed)
      && Seated(o, live.interestScopes)
    }

    /** A transition was prepared from the state its base revision names. */
    ghost predicate Traced(t: Transition)
      reads this
    {
      && t.owner == this
      && SessionSpec.Prepare(o, historyLookup, t.origin, t.request) == Ok(t.prepared)
      && t.prepared.base == t.origin.kernel.live.transitionRevision <= live.transitionRevision
      && (t.prepared.base == live.transitionRevision ==> t.origin == Current())
    }

    function Forks(): Ledger
      reads this
    {
      Ledger(installed, forks, discarded, retired)
    }

    ghost predicate Valid()
      reads this, issued
    {
      && Sequential() && Accounted(Forks())
      && (forall t :: t in issued ==> Traced(t) && Placed(Forks(), t, t.completion))
      && (forall t, u :: t in issued && u in issued && t != u ==> Apart(t, u))
    }

    constructor (o: Options, historyLookup: Lookup, validates: bool)
      requires ValidOptions(o)
      ensures Valid() && fresh(this) && issued == {} && committed == [] && this.o == o && this.validates == validates
      ensures Current() == SessionSpec.Open(o)
    {
      this.o, this.historyLookup, this.validates := o, historyLookup, validates;
      var first := Create(o);
      live, submissionKeys, interestCommands := first.live, first.submissionKeys, first.interestCommands;
      backoff, retentionFloor := FirstBackoff(o, FirstScopes(o, o.seats)), 0;
      installed, forks, discarded, retired := 0, 1, [], [];
      issued, committed := {}, [];
      new;
      OpenSeated(o);
    }

    // ---- Prepare ----

    /** The transition a request leads to from the live state, computed on a draft. */
    method Draw(r: Request) returns (p: Result<Prepared>)
      requires Seated(o, live.interestScopes)
      ensures p == SessionSpec.Prepare(o, historyLookup, Current(), r)
    {
      match r
      case Ingest(s) => p := PrepareIngest(o, historyLookup, Current(), s);
      case Extend(lane, record) => p := PrepareExtension(o, Current(), lane, record);
      case Advance(target) => p := DrawAdvance(target);
      case Timeout(t, forced) => p := DrawTimeout(t, forced);
      case Control(c) => p := DrawControl(c);
      case Interest(s) => p := DrawInterest(s);
    }

    method DrawAdvance(target: Option<int>) returns (p: Result<Prepared>)
      requires Seated(o, live.interestScopes)
      ensures p == PrepareAdvance(o, Current(), target)
    {
      hide CatchUp, AdvancePrepared, Seated, DemandOf;
      var draft := new Draft(live, backoff);
      if o.status(draft.state.reducerState) != Playing { return Err(Terminal); }
      var demand := DemandOf(o, draft.state, target);
      if demand.Err? { return Err(demand.error); }
      var progress := draft.Advance(o, demand.value.count);
      if progress.Err? { return Err(progress.error); }
      p := Ok(AdvancePrepared(o, Current(), demand.value, progress.value));
    }

    method DrawTimeout(t: TimeoutInput, forced: Option<Action>) returns (p: Result<Prepared>)
      requires Seated(o, live.interestScopes)
      ensures p == PrepareTimeout(o, Current(), t, forced)
    {
      hide ResolveOnce, TimeoutPrepared, Seated, TimeoutAction;
      var a := TimeoutAction(o, live, t, forced);
      if a.Err? { return Err(a.error); }
      var draft := new Draft(live, backoff);
      if o.status(draft.state.reducerState) != Playing { return Err(Terminal); }
      var r := draft.Settle(o, TimedOut, [SystemInput(t, a.value)]);
      if r.Err? { return Err(r.error); }
      p := Ok(TimeoutPrepared(o, Current(), t, r.value));
    }

    method DrawControl(c: ControlInput) returns (p: Result<Prepared>)
      requires Seated(o, live.interestScopes)
      ensures p == PrepareControl(o, historyLookup, Current(), c)
    {
      hide Refresh, Deltas, NextBackoff, Seated, WindowFor, Finish;
      var key := Key(c.participantId, c.controlId);
      var canonical := o.text(c.control);
      if o.applyControl.None? || c.participantId !in o.seats { return Err(Conflict); }
      if Blank(c.controlId) { return Err(Malformed); }
      if FindReceipt(live.receipts, key).Some? || key in submissionKeys || key in historyLookup.gameplay {
        return Err(Conflict);
      }
      if key in live.controls || key in historyLookup.control {
        var prior := if key in live.controls then live.controls[key].canonicalControl else historyLookup.control[key];
        if prior != canonical { return Err(Conflict); }
        return Ok(NoChange(o, Current(), ControlDuplicate(
          if key in live.controls then live.controls[key].receipt
          else ControlReceipt(c.participantId, c.controlId, live.transitionRevision, live.cursor, live.tick))));
      }
      if o.status(live.reducerState) != Playing { return Err(Terminal); }
      var draft := new Draft(live, backoff);
      draft.state := draft.state.(reducerState := (o.applyControl.value)(live.reducerState, c.control,
        Context(c.participantId, c.controlId, live.cursor, live.tick)));
      if !ParticipantsValid(o, draft.state.reducerState) { return Err(InvalidView); }
      RefreshIndependent(o, live, draft.state, draft.state.reducerState, live.cursor, live.tick);
      var revision := live.transitionRevision + 1;
      var deltas := draft.Deliver(o, Delivery(FromControl, revision, live.tick, []));
      if deltas.None? { return Err(InvalidView); }
      var receipt := ControlReceipt(c.participantId, c.controlId, revision, live.cursor, live.tick);
      p := Ok(Finish(o, Current(), draft.state.(controls := live.controls[key := ControlEntry(canonical, receipt)]),
        [ControlTransition(live.tick, live.cursor, c.participantId, c.controlId, c.control, canonical)],
        deltas.value, ControlAccepted(receipt), draft.backoff, false));
    }

    method DrawInterest(s: InterestSubmission) returns (p: Result<Prepared>)
      ensures p == PrepareInterest(o, historyLookup, Current(), s)
    {
      hide ScopedView, Finish, InterestText;
      var key := Key(s.participantId, s.submissionId);
      var canonical := InterestText(o, s.scopeId, s.declaration);
      if o.narrowView.None? { return Err(Conflict); }
      if s.protocol != GaosTicks1 { return Err(InvalidProtocol); }
      if s.sessionId != o.sessionId { return Err(WrongSession); }
      if s.participantId !in o.seats { return Err(UnknownParticipant); }
      if !PortableId(s.scopeId) || Blank(s.submissionId) { return Err(InvalidSubmission); }
      if s.revision != live.cursor || s.tickId != OpenTick(o, live.window) { return Err(StaleTick); }
      if key in interestCommands || key in historyLookup.interest {
        var prior := if key in interestCommands then interestCommands[key] else historyLookup.interest[key];
        return if prior != canonical then Err(Conflict) else Ok(NoChange(o, Current(), InterestDuplicate));
      }
      if key in submissionKeys || key in historyLookup.gameplay { return Err(Conflict); }
      if o.signed && (s.seal.None? || s.seal.value.sig.None?) { return Err(InvalidSubmission); }
      var scopeKey := ScopeKey(s.participantId, s.scopeId);
      if FindScope(live.interestScopes, scopeKey).None?
         && CountScopes(live.interestScopes, s.participantId) >= o.maxScopesPerSeat { return Err(Conflict); }
      if s.participantId !in live.views { return Err(InvalidView); }
      var scope := Scope(s.participantId, s.scopeId, true, s.declaration, Null);
      var view := CheckedView(o, live.views[s.participantId], scope, live.cursor, live.tick);
      if view.None? { return Err(InvalidView); }
      scope := scope.(view := view.value);
      p := Ok(Finish(o, Current(), live.(interestScopes := SetScope(live.interestScopes, scope)),
        [InterestDeclared(live.tick, live.cursor, s.participantId, s.submissionId, s.scopeId, s.declaration,
          canonical, s.seal)],
        [Delta(s.participantId, s.scopeId, Some(s.declaration), live.transitionRevision + 1,
               Revision(live.viewRevisions, s.participantId), live.tick, FromInterest, [], [],
               SnapshotBody(scope.view), o.viewDigest(o.text(scope.view)))],
        InterestAccepted,
        backoff[scopeKey := Backoff(0, o.codec.patchBackoffTicks)], false));
    }

    /** Forks the live reducer state, and once more when the reducer `replaced` the fork by another
        object; a prepare that fails afterwards discards what it forked. Whatever comes of it, the
        legality of a command is examined on a fork of its own, discarded at once. */
    method Prepare(r: Request, replaced: bool) returns (t: Result<Transition>)
      requires Valid()
      modifies this
      ensures Valid()
      ensures Current() == old(Current()) && committed == old(committed) && installed == old(installed)
      ensures retired == old(retired)
      ensures t.Ok? <==> SessionSpec.Prepare(o, historyLookup, old(Current()), r).Ok?
      ensures var examined := if validates && Examined(o, historyLookup, old(Current()), r) then [old(forks)] else [];
        if t.Ok?
        then
          && fresh(t.value) && issued == old(issued) + {t.value} && t.value.completion == Undecided
          && t.value.owner == this && t.value.origin == old(Current()) && t.value.request == r
          && discarded == old(discarded) + examined
          && t.value.drafts == Taken(old(forks) + |examined|, replaced)
          && forks == old(forks) + |examined| + |t.value.drafts|
        else
          && issued == old(issued) && t.error == SessionSpec.Prepare(o, historyLookup, old(Current()), r).error
          && var drafts := if BeforeFork(o, old(live), r, t.error) then []
                           else Taken(old(forks) + |examined|, replaced);
          && discarded == old(discarded) + examined + drafts && forks == old(forks) + |examined| + |drafts|
    {
      hide Run, SessionSpec.Prepare, Seated, ValidOptions, Placed, Accounted, Step, BeforeFork, Examined;
      var drawn := Draw(r);
      if validates && Examined(o, historyLookup, Current(), r) {
        var examined := Fork(false);
        discarded := discarded + examined;
      }
      if drawn.Err? && BeforeFork(o, live, r, drawn.error) { return Err(drawn.error); }
      var drafts := Fork(replaced);
      if drawn.Err? {
        discarded := discarded + drafts;
        return Err(drawn.error);
      }
      var transition := Hold(drawn.value, drafts, r);
      t := Ok(transition);
    }

    /** Forks the live reducer state for one prepare call. */
    method Fork(replaced: bool) returns (drafts: seq<nat>)
      requires Valid()
      modifies this`forks
      ensures Valid() && forks == old(forks) + |drafts| && NoRepeat(drafts)
      ensures drafts == Taken(old(forks), replaced)
      ensures forall x :: x in drafts ==> x < forks && x != installed && x !in discarded && x !in retired
      ensures Accounted(Forks().(discarded := discarded + drafts))
      ensures forall t :: t in issued ==> Placed(Forks().(discarded := discarded + drafts), t, t.completion)
      ensures forall t :: t in issued ==> forall x :: x in t.drafts ==> x !in drafts
    {
      hide Run, Step, SessionSpec.Prepare, Seated, ValidOptions, Placed, Accounted;
      drafts := Taken(forks, replaced);
      PassingForks(Forks(), drafts, forks + |drafts|);
      OlderForks(Forks(), drafts);
      forks := forks + |drafts|;
    }

    /** `makePrepared`: a handle for the transition that owns the draft. */
    method Hold(p: Prepared, drafts: seq<nat>, ghost r: Request) returns (t: Transition)
      requires Valid() && drafts != [] && NoRepeat(drafts)
      requires SessionSpec.Prepare(o, historyLookup, Current(), r) == Ok(p)
      requires forall x :: x in drafts ==> x < forks && x != installed && x !in discarded && x !in retired
      requires forall u :: u in issued ==> forall x :: x in u.drafts ==> x !in drafts
      modifies this`issued
      ensures Valid() && fresh(t) && issued == old(issued) + {t}
      ensures t.completion == Undecided && t.owner == this && t.origin == Current() && t.request == r
      ensures t.drafts == drafts
    {
      hide Run, Step, SessionSpec.Prepare, Seated, ValidOptions, Accounted;
      PreparedBase(o, historyLookup, Current(), r);
      t := new Transition(this, p, drafts[|drafts| - 1], drafts, Current(), r);
      issued := issued + {t};
    }

    // ---- Commit and abort ----

    /** Installs a transition prepared from the very state that is live, once; everything else is
        refused, and a stale transition is closed. */
    method Commit(t: Transition) returns (e: Option<TransitionError>)
      requires Valid() && (t.owner == this ==> t in issued)
      modifies this, t
      ensures Valid() && issued == old(issued)
      ensures e == Some(Foreign) <==> t.owner != this
      ensures e == Some(AlreadyCompleted) <==> t.owner == this && old(t.completion) != Undecided
      ensures e == Some(Stale) <==>
        t.owner == this && old(t.completion) == Undecided && t.prepared.base != old(live.transitionRevision)
      ensures e.None? <==>
        t.owner == this && old(t.completion) == Undecided && t.prepared.base == old(live.transitionRevision)
      ensures e == Some(Foreign) || e == Some(AlreadyCompleted) ==> unchanged(this) && unchanged(t)
      ensures e == Some(Stale) ==>
        && Current() == old(Current()) && committed == old(committed) && t.completion == Aborted
        && Forks() == old(Forks()).(discarded := old(discarded) + t.drafts)
      ensures e.None? ==>
        && t.origin == old(Current()) && t.completion == Committed
        && Current() == SessionSpec.Commit(old(Current()), t.prepared)
                     == Step(o, historyLookup, old(Current()), t.request)
        && committed == old(committed) + [t.request]
        && Forks() == if t.prepared.noop then old(Forks()).(discarded := old(discarded) + t.drafts)
                      else Ledger(t.next, old(forks), old(discarded) + Others(t.drafts, t.next),
                        old(retired) + [old(installed)])
    {
      hide Run, Step, SessionSpec.Prepare, Seated, ValidOptions, Placed, Accounted;
      if t.owner != this { return Some(Foreign); }
      if t.completion != Undecided { return Some(AlreadyCompleted); }
      if t.prepared.base != live.transitionRevision {
        Close(t, Aborted);
        return Some(Stale);
      }
      if t.prepared.noop { Confirm(t); } else { Install(t); }
      e := None;
    }

    /** Discards the forks of an undecided transition. */
    method Close(t: Transition, completion: Completion)
      requires Valid() && t in issued && t.completion == Undecided
      requires completion == Aborted || (completion == Committed && t.prepared.noop)
      modifies this`discarded, t`completion
      ensures Valid() && t.completion == completion && discarded == old(discarded) + t.drafts
    {
      hide Run, SessionSpec.Prepare, Seated, ValidOptions, Placed, Accounted;
      Discarded(Forks(), t);
      t.completion := completion;
      discarded := discarded + t.drafts;
    }

    /** Commits a transition that changes nothing. */
    method Confirm(t: Transition)
      requires Valid() && t in issued && t.completion == Undecided
      requires t.prepared.noop && t.prepared.base == live.transitionRevision
      modifies this`discarded, this`committed, t`completion
      ensures Valid() && t.completion == Committed && discarded == old(discarded) + t.drafts
      ensures t.origin == old(Current()) == Step(o, historyLookup, old(Current()), t.request)
      ensures committed == old(committed) + [t.request]
    {
      hide Run, SessionSpec.Prepare, Seated, ValidOptions, Placed, Accounted;
      Extends(o, historyLookup, committed, t.request);
      Close(t, Committed);
      committed := committed + [t.request];
    }

    /** Commits a transition that changes the live state. */
    method Install(t: Transition)
      requires Valid() && t in issued && t.completion == Undecided
      requires !t.prepared.noop && t.prepared.base == live.transitionRevision
      modifies this, t`completion
      ensures Valid() && t.completion == Committed && issued == old(issued)
      ensures t.origin == old(Current())
      ensures Current() == SessionSpec.Commit(old(Current()), t.prepared)
                        == Step(o, historyLookup, old(Current()), t.request)
      ensures committed == old(committed) + [t.request]
      ensures Forks() == Ledger(t.next, old(forks), old(discarded) + Others(t.drafts, t.next),
        old(retired) + [old(installed)])
    {
      hide Run, SessionSpec.Prepare, Seated, ValidOptions, Placed, Accounted, RecordKeys, RecordInterest;
      Extends(o, historyLookup, committed, t.request);
      PreparedSeated(o, historyLookup, Current(), t.request);
      CommittedAhead(o, historyLookup, Current(), t.request);
      Installed(Forks(), t);
      InstallEvents(t.prepared);
      var previous := installed;
      live, backoff, installed := t.prepared.draft, t.prepared.backoff, t.next;
      t.completion := Committed;
      discarded := discarded + Others(t.drafts, t.next);
      retired := retired + [previous];
      committed := committed + [t.request];
    }

    /** Remembers the ids of accepted commands and interests for good. */
    method InstallEvents(p: Prepared)
      modifies this`submissionKeys, this`interestCommands
      ensures submissionKeys == RecordKeys(old(submissionKeys), p.events)
      ensures interestCommands == RecordInterest(old(interestCommands), p.events)
    {
      var i := 0;
      assert p.events[0..] == p.events;
      while i < |p.events|
        invariant 0 <= i <= |p.events|
        invariant RecordKeys(old(submissionKeys), p.events) == RecordKeys(submissionKeys, p.events[i..])
        invariant RecordInterest(old(interestCommands), p.events) == RecordInterest(interestCommands, p.events[i..])
      {
        var b := p.events[i].body;
        assert p.events[i..][1..] == p.events[i + 1..];
        assert submissionKeys + {} == submissionKeys;
        if b.IntentAccepted? || b.InterestDeclared? {
          submissionKeys := submissionKeys + {Key(b.participantId, b.submissionId)};
          if b.InterestDeclared? {
            interestCommands := interestCommands[Key(b.participantId, b.submissionId) := b.canonicalCommand];
          }
        }
        i := i + 1;
      }
    }

    /** Closes an undecided transition and discards its forks; aborting again changes nothing. */
    method Abort(t: Transition) returns (e: Option<TransitionError>)
      requires Valid() && (t.owner == this ==> t in issued)
      modifies this, t
      ensures Valid() && issued == old(issued)
      ensures e == Some(Foreign) <==> t.owner != this
      ensures e == Some(AlreadyCompleted) <==> t.owner == this && old(t.completion) == Committed
      ensures e != Some(Stale) && Current() == old(Current()) && committed == old(committed)
      ensures e.Some? || old(t.completion) == Aborted ==> unchanged(this) && unchanged(t)
      ensures e.None? ==> t.completion == Aborted
      ensures e.None? && old(t.completion) == Undecided ==>
        Forks() == old(Forks()).(discarded := old(discarded) + t.drafts)
    {
      hide Run, Step, SessionSpec.Prepare, Seated, ValidOptions, Placed, Accounted;
      if t.owner != this { return Some(Foreign); }
      if t.completion == Committed { return Some(AlreadyCompleted); }
      if t.completion == Undecided { Close(t, Aborted); }
      e := None;
    }
  }

  lemma PreparedBase(o: Options, h: Lookup, session: Session, r: Request)
    requires Prepare(o, h, session, r).Ok?
    ensures Prepare(o, h, session, r).value.base == session.kernel.live.transitionRevision
  {
    hide ApplyControl, Deltas, NextBackoff, Declare, Spent, ActionError, Collect, SubmissionError, Number, CatchUp,
         ResolveOnce, TimeoutAction, DemandOf, CheckpointDue, StateDigest, RejectionDeltas, InterestText;
  }

  lemma Extends(o: Options, h: Lookup, committed: seq<Request>, r: Request)
    requires ValidOptions(o)
    ensures Run(o, h, SessionSpec.Open(o), committed + [r]) == Step(o, h, Run(o, h, SessionSpec.Open(o), committed), r)
  {
    hide Step;
    RunConcat(o, h, SessionSpec.Open(o), committed, [r]);
    assert [r][1..] == [];
  }

  /** A committed change moves the revision on by one, so no other transition prepared before it can
      still match the live revision. */
  lemma CommittedAhead(o: Options, h: Lookup, session: Session, r: Request)
    requires Prepare(o, h, session, r).Ok?
    ensures var p := Prepare(o, h, session, r).value;
      SessionSpec.Commit(session, p).kernel.live.transitionRevision
      == session.kernel.live.transitionRevision + if p.noop then 0 else 1
  {
    hide ApplyControl, Deltas, NextBackoff, Declare, Spent, ActionError, Collect, SubmissionError, Number, CatchUp,
         ResolveOnce, TimeoutAction, DemandOf, CheckpointDue, StateDigest, RejectionDeltas, InterestText, RecordKeys,
         RecordInterest;
  }

  // ---- What the invariant of every interleaving gives ----

  lemma {:induction false} OnceCount(calls: seq<nat>, x: nat)
    requires NoRepeat(calls)
    ensures multiset(calls)[x] == if x in calls then 1 else 0
  {
    if calls != [] {
      assert calls == [calls[0]] + calls[1..];
      OnceCount(calls[1..], x);
      if x == calls[0] { assert x !in calls[1..]; }
    }
  }

  /** However prepares, commits and aborts interleave: each fork of a completed transition was
      released exactly once, or it is the live state, which no hook has released. */
  lemma CompletedForksReleased(k: SessionKernel, t: Transition, x: nat)
    requires k.Valid() && t in k.issued && t.completion != Undecided && x in t.drafts
    ensures multiset(k.discarded + k.retired)[x] == if x == k.installed then 0 else 1
  {
    OnceCount(k.discarded, x);
    OnceCount(k.retired, x);
  }

  /** However they interleave: the log rehydrates to the live state exactly when the audit knows its
      timeouts, and no submission id was accepted twice. */
  lemma InterleavedLog(k: SessionKernel)
    requires k.Valid()
    ensures Rehydrate(k.o, k.live.events).Some? <==> Auditable(k.o, k.live.events)
    ensures Auditable(k.o, k.live.events) ==> Rehydrate(k.o, k.live.events) == Some(k.Current().kernel)
    ensures forall i, j ::
      0 <= i < j < |k.live.events| && Accepts(k.live.events[i].body) && Accepts(k.live.events[j].body) ==>
      AcceptedKey(k.live.events[i].body) != AcceptedKey(k.live.events[j].body)
  {
    hide Run, Rehydrate, Auditable;
    RehydrationAgrees(k.o, k.historyLookup, k.committed);
    forall i, j | 0 <= i < j < |k.live.events| && Accepts(k.live.events[i].body) && Accepts(k.live.events[j].body)
      ensures AcceptedKey(k.live.events[i].body) != AcceptedKey(k.live.events[j].body)
    {
      AcceptedOnce(k.o, k.historyLookup, k.committed, i, j);
    }
  }
}
