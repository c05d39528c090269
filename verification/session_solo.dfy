/** A session of one seat under a tick timeout policy, unsigned, and two runs of it: the conditions under
    which a log rehydrates and a compacted kernel decides as the full one do fail. */
module SessionSolo {
  import opened CodePoints
  import opened CanonicalJson
  import opened CanonicalText
  import opened JsonProjection
  import opened Wrappers
  import opened SessionTypes
  import opened SessionSpec
  import opened SessionReplay
  import opened SessionRuns
  import opened SessionCompaction
  import opened SessionPartialLookup

  const PLAIN := Action(Null, None, None, None, None)

  const SOLO: Options := Options(
    "session", ["s"], Null, (state, actions) => state, state => Playing, state => false, state => ["s"], state => Null,
    (state, seat) => Null, (command, context) => PLAIN, (state, seat, action) => true,
    Some((seat, cursor, timeout) => PLAIN), Some((state, control, context) => state), Some((view, context) => view),
    envelope => true, (binding, salt, payload) => None, value => Canonical(value), (cursor, tick, views) => 0,
    view => |view|, Ticks, Some(1), false, 10, 10, 10, 100, 100, 1, 8, CodecOptions(false, 1, 1, 1, 2, 1.0))

  lemma OneSeat()
    ensures PortableId("s") && Contents(["s"]) == {"s"} && |Contents(["s"])| == 1
  {
    assert PortableChar("s"[0]);
    assert Contents(["s"]) == {"s"};
  }

  lemma SoloWindow(revision: nat)
    ensures var w := WindowFor(SOLO, Null, revision);
      w.Some? && w.value.revision == revision && w.value.intents == map[]
  {
    hide Canonical, PortableId;
    OneSeat();
  }

  lemma SoloValid()
    ensures ValidOptions(SOLO)
  {
    hide Canonical, WindowFor, PortableId;
    OneSeat();
    SoloWindow(0);
  }

  /** No view of this session is ever refused. */
  lemma {:induction false} SoloScopes(scopes: seq<Scope>, views: map<Seat, Json>, cursor: nat, tick: nat)
    ensures RefreshScopes(SOLO, scopes, views, cursor, tick).Some?
  {
    hide Canonical, Embeds;
    if scopes != [] {
      SoloScopes(scopes[1..], views, cursor, tick);
      if scopes[0].participantId in views { EmbedsReflexive(views[scopes[0].participantId]); }
    }
  }

  lemma {:induction false} NoIntents(ids: seq<Seat>)
    ensures WindowIntents(ids, map[]) == []
  {
    if ids != [] { NoIntents(ids[1..]); }
  }

  // ---- A log that does not rehydrate ----

  const LATE := TimeoutInput("t", 1, None, "late", true)

  lemma LateResolves(forced: seq<CanonicalInput>)
    requires ValidOptions(SOLO)
    ensures var r := ResolveOnce(SOLO, Open(SOLO).kernel.live, Open(SOLO).backoff, TimedOut, forced);
      r.Ok? && r.value.draft.events == []
  {
    hide Canonical, RefreshScopes, WindowFor, Expire, Fresh, Trim, Deltas, NextBackoff, ViewsOf, FirstScopes;
    var live := Open(SOLO).kernel.live;
    SoloWindow(0);
    SoloWindow(1);
    NoIntents(live.window.participants);
    SoloScopes(live.interestScopes, ViewsOf(SOLO, Null), 1, 1);
  }

  /** A session the constructor accepts reaches a timeout, by one request, whose log its own
      rehydration refuses. */
  lemma UnsignedTimeoutRefused()
    ensures ValidOptions(SOLO)
    ensures var log := Run(SOLO, NO_HISTORY, Open(SOLO), [Timeout(LATE, None)]).kernel.live.events;
      TimedOutOnce(log) && Rehydrate(SOLO, log) == None
  {
    hide Canonical, ResolveOnce, Rehydrate, CheckpointDue, RejectionDeltas, RecordKeys, RecordInterest, FirstScopes,
         WindowFor, ViewsOf, Auditable, StateDigest;
    SoloValid();
    var session := Open(SOLO);
    var system := SystemInput(LATE, PLAIN);
    LateResolves([system]);
    assert TimeoutAction(SOLO, session.kernel.live, LATE, None) == Ok(PLAIN);
    var p := Prepare(SOLO, NO_HISTORY, session, Timeout(LATE, None));
    assert p.Ok? && !p.value.noop;
    assert [Timeout(LATE, None)][1..] == [];
    var next := Step(SOLO, NO_HISTORY, session, Timeout(LATE, None));
    var log := next.kernel.live.events;
    assert Run(SOLO, NO_HISTORY, session, [Timeout(LATE, None)]) == Run(SOLO, NO_HISTORY, next, []) == next;
    assert next.kernel.live == p.value.draft;
    LateLogged(session, ResolveOnce(SOLO, session.kernel.live, session.backoff, TimedOut, [system]).value);
    assert log[0].body.TimeoutNotice?;
    RehydrationAgrees(SOLO, NO_HISTORY, [Timeout(LATE, None)]);
    NotAuditable(log);
  }

  lemma LateLogged(session: Session, r: Resolved)
    requires r.draft.events == []
    ensures var log := TimeoutPrepared(SOLO, session, LATE, r).draft.events;
      log != [] && log[0].body.TimeoutNotice?
  {
    hide Canonical, CheckpointDue, RejectionDeltas, StateDigest;
  }

  lemma NotAuditable(log: seq<Event>)
    requires TimedOutOnce(log)
    ensures !Auditable(SOLO, log)
  {
    hide Canonical;
  }

  // ---- A compacted kernel that decides differently ----

  const DECLARED := InterestSubmission(GaosTicks1, "session", TickId("session", 0), 0, "s", "i", "scope", Null, None)
  const REUSING := ControlInput("s", "i", Null)
  const REUSED := Key("s", "i")

  /** A store that answers for the interest, but not as a gameplay submission. */
  function InterestOnly(): Lookup { Lookup({}, map[REUSED := InterestText(SOLO, "scope", Null)], map[]) }

  function InterestReused(): seq<HostStep> {
    [Do(Interest(DECLARED)), CompactWith(InterestOnly()), Do(Control(REUSING))]
  }

  lemma SoloNames()
    ensures PortableId("scope") && !Blank("i")
  {
    assert forall i :: 0 <= i < 5 ==> PortableChar("scope"[i]);
    assert !WhiteSpace("i"[0]);
  }

  lemma SoloScope()
    requires ValidOptions(SOLO)
    ensures var live := Open(SOLO).kernel.live;
      && CountScopes(live.interestScopes, "s") == 1
      && Declare(SOLO, live, "s", "scope", Null) == Some(Scope("s", "scope", true, Null, Null))
  {
    hide Canonical, WindowFor, Embeds;
    EmbedsReflexive(Null);
    var live := Open(SOLO).kernel.live;
    assert FirstScopes(SOLO, ["s"]) == [Scope("s", "s", false, Null, Null)] by { assert ["s"][1..] == []; }
    assert CountScopes(live.interestScopes, "s") == 1 by { assert live.interestScopes[1..] == []; }
  }

  lemma InterestPrepared()
    requires ValidOptions(SOLO)
    ensures var p := PrepareInterest(SOLO, NO_HISTORY, Open(SOLO), DECLARED);
      && p.Ok? && !p.value.noop && p.value.draft.controls == map[] && p.value.draft.receipts == []
      && |p.value.events| == 1
      && p.value.events[0].body
         == InterestDeclared(0, 0, "s", "i", "scope", Null, InterestText(SOLO, "scope", Null), None)
  {
    hide Canonical, PortableId, Blank, InterestText, Declare, CountScopes, FindScope, SetScope, FirstScopes, WindowFor;
    SoloNames();
    SoloWindow(0);
    SoloScope();
    assert NO_HISTORY == Lookup({}, map[], map[]);
  }

  lemma InterestAccepted()
    requires ValidOptions(SOLO)
    ensures var full := Step(SOLO, NO_HISTORY, Open(SOLO), Interest(DECLARED));
      && full.kernel.submissionKeys == {REUSED}
      && full.kernel.interestCommands == map[REUSED := InterestText(SOLO, "scope", Null)]
      && full.kernel.live.controls == map[] && full.kernel.live.receipts == []
  {
    hide Canonical, PrepareInterest, WindowFor, FirstScopes, InterestText;
    InterestPrepared();
    var events := PrepareInterest(SOLO, NO_HISTORY, Open(SOLO), DECLARED).value.events;
    assert events[1..] == [];
  }

  lemma InterestOnlyFaithful()
    requires ValidOptions(SOLO)
    ensures FaithfulHistories(SOLO, Open(SOLO), NO_HISTORY, CompletedSteps(InterestReused()))
  {
    hide Canonical, Step, Open, InterestText;
    InterestAccepted();
    var full := Step(SOLO, NO_HISTORY, Open(SOLO), Interest(DECLARED));
    assert Answers(Completed(InterestOnly()), full);
    var steps := CompletedSteps(InterestReused());
    assert steps == [Do(Interest(DECLARED)), CompactWith(Completed(InterestOnly())), Do(Control(REUSING))] by {
      StepsCompleted();
    }
    FaithfulThree(full, Completed(InterestOnly()));
  }

  lemma StepsCompleted()
    ensures CompletedSteps(InterestReused())
         == [Do(Interest(DECLARED)), CompactWith(Completed(InterestOnly())), Do(Control(REUSING))]
  {
    hide Canonical, InterestText, Completed;
    var steps := InterestReused();
    assert steps[1..] == [CompactWith(InterestOnly()), Do(Control(REUSING))];
    assert steps[1..][1..] == [Do(Control(REUSING))] && [Do(Control(REUSING))][1..] == [];
  }

  lemma FaithfulThree(full: Session, history: Lookup)
    requires ValidOptions(SOLO) && full == Step(SOLO, NO_HISTORY, Open(SOLO), Interest(DECLARED))
    requires Answers(history, full)
    ensures FaithfulHistories(SOLO, Open(SOLO), NO_HISTORY,
      [Do(Interest(DECLARED)), CompactWith(history), Do(Control(REUSING))])
  {
    hide Canonical, Step, Open, Answers;
    var steps := [Do(Interest(DECLARED)), CompactWith(history), Do(Control(REUSING))];
    assert steps[1..] == [CompactWith(history), Do(Control(REUSING))] && steps[1..][1..] == [Do(Control(REUSING))];
    assert steps[1..][1..][1..] == [];
    assert FaithfulHistories(SOLO, full, history, steps[1..][1..]);
    assert FaithfulHistories(SOLO, full, NO_HISTORY, steps[1..]);
  }

  /** One interest, one compaction and one control under the interest's id: the store answers for
      everything but that id as a gameplay submission, and the compacted kernel accepts the control that
      the full one refuses. */
  lemma InterestIdReused()
    ensures ValidOptions(SOLO)
    ensures FaithfulHistories(SOLO, Open(SOLO), NO_HISTORY, CompletedSteps(InterestReused()))
    ensures !AllMatched(SOLO, Open(SOLO), Open(SOLO), NO_HISTORY, InterestReused())
    ensures var full := Run(SOLO, NO_HISTORY, Open(SOLO), [Interest(DECLARED)]);
      && Prepare(SOLO, NO_HISTORY, full, Control(REUSING)) == Err(Conflict)
      && Prepare(SOLO, InterestOnly(), Compacted(full), Control(REUSING)).Ok?
  {
    hide Canonical, Step, Open, InterestText, AllMatched, NoneMisjudged, FaithfulHistories,
         PrepareControl, Compacted, InterestReused;
    SoloValid();
    InterestOnlyFaithful();
    ReuseMisjudged();
    EveryPartialRun(SOLO, InterestReused());
    assert [Interest(DECLARED)][1..] == [];
    ReuseDecided();
  }

  lemma ReuseDecided()
    requires ValidOptions(SOLO)
    ensures var full := Step(SOLO, NO_HISTORY, Open(SOLO), Interest(DECLARED));
      && PrepareControl(SOLO, NO_HISTORY, full, REUSING) == Err(Conflict)
      && PrepareControl(SOLO, InterestOnly(), Compacted(full), REUSING).Ok?
  {
    hide Canonical, Step, Open, InterestText, RefreshScopes, ControlPrepared, Blank;
    SoloNames();
    InterestAccepted();
    var full := Step(SOLO, NO_HISTORY, Open(SOLO), Interest(DECLARED));
    var live := Compacted(full).kernel.live;
    SoloScopes(live.interestScopes, ViewsOf(SOLO, live.reducerState), live.cursor, live.tick);
  }

  lemma ReuseMisjudged()
    requires ValidOptions(SOLO)
    ensures !NoneMisjudged(SOLO, Open(SOLO), NO_HISTORY, InterestReused())
  {
    hide Canonical, Step, Open, InterestText;
    SoloNames();
    InterestAccepted();
    var steps := InterestReused();
    var full := Step(SOLO, NO_HISTORY, Open(SOLO), Interest(DECLARED));
    assert steps[1..][1..][0] == Do(Control(REUSING));
    assert Misjudged(SOLO, Compacted(full), InterestOnly(), Control(REUSING)) by { hide Step; }
    assert !NoneMisjudged(SOLO, Compacted(full), InterestOnly(), steps[1..][1..]);
    assert !NoneMisjudged(SOLO, full, NO_HISTORY, steps[1..]);
  }
}
