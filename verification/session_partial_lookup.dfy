/** A host whose `gameplaySubmission` leaves out interest ids (`SessionHistoryLookup` in
    src/session.ts): exactly which decisions of a compacted kernel such a lookup changes. */
module SessionPartialLookup {
  import opened CodePoints
  import opened CanonicalJson
  import opened Wrappers
  import opened SessionTypes
  import opened SessionSpec
  import opened SessionRehydrate
  import opened SessionRuns
  import opened SessionCheckpoint
  import opened SessionCompaction

  /** The lookup that answers for interest ids under `gameplaySubmission` too. */
  function Completed(h: Lookup): Lookup { h.(gameplay := h.gameplay + h.interest.Keys) }

  /** The canonical text of the control already known under the key. */
  function Recorded(kept: Session, h: Lookup, key: Key): Option<string> {
    if key in kept.kernel.live.controls then Some(kept.kernel.live.controls[key].canonicalControl)
    else if key in h.control then Some(h.control[key]) else None
  }

  /** A well-formed control under the id of an interest that only `interestCommand` still answers for. */
  predicate Unanswered(o: Options, kept: Session, h: Lookup, c: ControlInput) {
    var key := Key(c.participantId, c.controlId);
    && o.applyControl.Some? && c.participantId in o.seats && !Blank(c.controlId)
    && key in h.interest && key !in h.gameplay && key !in kept.kernel.submissionKeys
    && FindReceipt(kept.kernel.live.receipts, key).None?
    && Recorded(kept, h, key) in {None, Some(o.text(c.control))}
  }

  predicate Misjudged(o: Options, kept: Session, h: Lookup, r: Request) {
    r.Control? && Unanswered(o, kept, h, r.control)
  }

  // ---- One decision ----

  lemma ControlCompleted(o: Options, kept: Session, h: Lookup, c: ControlInput)
    ensures var x, y := PrepareControl(o, Completed(h), kept, c), PrepareControl(o, h, kept, c);
      if Unanswered(o, kept, h, c) then x == Err(Conflict) && y != Err(Conflict) else x == y
  {
    hide ApplyControl, ControlPrepared, NoChange, FindReceipt, Blank;
  }

  lemma IngestCompleted(o: Options, kept: Session, h: Lookup, s: Submission)
    ensures PrepareIngest(o, Completed(h), kept, s) == PrepareIngest(o, h, kept, s)
  {
    hide ActionError, Collect, SubmissionError, NoChange, Accept, FindReceipt;
  }

  lemma InterestCompleted(o: Options, kept: Session, h: Lookup, s: InterestSubmission)
    ensures PrepareInterest(o, Completed(h), kept, s) == PrepareInterest(o, h, kept, s)
  {
    hide Declare, Finish, InterestText, FindScope, SetScope, CountScopes, Blank;
  }

  /** The completed lookup changes no decision but that on such a control, which it refuses. */
  lemma CompletionDecides(o: Options, kept: Session, h: Lookup, r: Request)
    ensures var x, y := Prepare(o, Completed(h), kept, r), Prepare(o, h, kept, r);
      if Misjudged(o, kept, h, r) then x == Err(Conflict) && y != Err(Conflict) else x == y
  {
    hide PrepareIngest, PrepareAdvance, PrepareTimeout, PrepareExtension, PrepareControl, PrepareInterest, Unanswered;
    match r
    case Ingest(s) => IngestCompleted(o, kept, h, s);
    case Control(c) => ControlCompleted(o, kept, h, c);
    case Interest(s) => InterestCompleted(o, kept, h, s);
    case _ =>
  }

  /** Whatever interest ids the gameplay lookup leaves out: a compacted kernel decides a request as the
      full one exactly when it is no control under an id that is left out. */
  lemma MatchedExactly(o: Options, full: Session, kept: Session, h: Lookup, r: Request)
    requires Related(full, kept, Completed(h)) && WindowSound(full.kernel.live.window)
    ensures Matched(full, kept, Completed(h), Prepare(o, NO_HISTORY, full, r), Prepare(o, h, kept, r))
            <==> !Misjudged(o, kept, h, r)
  {
    hide Related, Prepare, Misjudged, WindowSound;
    DecisionsMatch(o, full, kept, Completed(h), r);
    CompletionDecides(o, kept, h, r);
  }

  // ---- Whole runs ----

  function CompletedStep(step: HostStep): HostStep {
    match step
    case Do(_) => step
    case CompactWith(history) => CompactWith(Completed(history))
    case LookupGrows(answers) => LookupGrows(Completed(answers))
  }

  /** The steps of a host whose lookups answer for interest ids. */
  function CompletedSteps(steps: seq<HostStep>): (completed: seq<HostStep>)
    ensures |completed| == |steps|
  {
    if steps == [] then [] else [CompletedStep(steps[0])] + CompletedSteps(steps[1..])
  }

  ghost function Next(o: Options, kept: Session, h: Lookup, step: HostStep): Session {
    match step
    case Do(r) => Step(o, h, kept, r)
    case CompactWith(_) => Compacted(kept)
    case LookupGrows(_) => kept
  }

  /** No request of the run is decided differently from the kernel that was never compacted. */
  ghost predicate AllMatched(o: Options, full: Session, kept: Session, h: Lookup, steps: seq<HostStep>)
    decreases |steps|
  {
    steps != [] ==>
      && (steps[0].Do? ==>
            Matched(full, kept, Completed(h), Prepare(o, NO_HISTORY, full, steps[0].request),
                    Prepare(o, h, kept, steps[0].request)))
      && AllMatched(o, if steps[0].Do? then Step(o, NO_HISTORY, full, steps[0].request) else full,
                    Next(o, kept, h, steps[0]), NextLookup(h, steps[0]), steps[1..])
  }

  /** No control of the run is one the lookup leaves unanswered at that point. */
  ghost predicate NoneMisjudged(o: Options, kept: Session, h: Lookup, steps: seq<HostStep>)
    decreases |steps|
  {
    steps != [] ==>
      && (steps[0].Do? ==> !Misjudged(o, kept, h, steps[0].request))
      && NoneMisjudged(o, Next(o, kept, h, steps[0]), NextLookup(h, steps[0]), steps[1..])
  }

  /** For every run with any number of compactions, and lookups that leave out any interest ids but
      are faithful otherwise: all decisions are those of the full kernel exactly when no control is
      left unanswered, and then the compacted kernel stays related to it. */
  lemma {:induction false} PartialLookupExactly(
    o: Options, full: Session, kept: Session, h: Lookup, steps: seq<HostStep>)
    requires Related(full, kept, Completed(h)) && Checkpointable(o, full) && full.retentionFloor == 0
    requires FaithfulHistories(o, full, Completed(h), CompletedSteps(steps))
    ensures AllMatched(o, full, kept, h, steps) <==> NoneMisjudged(o, kept, h, steps)
    ensures NoneMisjudged(o, kept, h, steps) ==>
      Related(Run(o, NO_HISTORY, full, Requests(steps)), RunCompacting(o, kept, h, steps),
              Completed(FinalLookup(h, steps)))
    decreases |steps|
  {
    hide Related, Checkpointable, Prepare, Matched, Misjudged, Answers, Between, Compacted, Run, Requests;
    if steps == [] {
      NothingRequested(o, full);
    } else {
      var rest := steps[1..];
      assert CompletedSteps(steps)[1..] == CompletedSteps(rest);
      RequestsHead(o, full, steps);
      match steps[0]
      case Do(r) =>
        PartialRequest(o, full, kept, h, r);
        if !Misjudged(o, kept, h, r) {
          PartialLookupExactly(o, Step(o, NO_HISTORY, full, r), Step(o, h, kept, r), h, rest);
        }
      case CompactWith(history) =>
        HistoryBounded(o, full);
        CompactRelated(full, kept, Completed(h), Completed(history));
        PartialLookupExactly(o, full, Compacted(kept), history, rest);
      case LookupGrows(answers) =>
        LookupGrowsRelated(full, kept, Completed(h), Completed(answers));
        PartialLookupExactly(o, full, kept, answers, rest);
    }
  }

  lemma PartialRequest(o: Options, full: Session, kept: Session, h: Lookup, r: Request)
    requires Related(full, kept, Completed(h)) && Checkpointable(o, full) && full.retentionFloor == 0
    ensures Matched(full, kept, Completed(h), Prepare(o, NO_HISTORY, full, r), Prepare(o, h, kept, r))
            <==> !Misjudged(o, kept, h, r)
    ensures var next := Step(o, NO_HISTORY, full, r);
      && Checkpointable(o, next) && next.retentionFloor == 0
      && (!Misjudged(o, kept, h, r) ==> Related(next, Step(o, h, kept, r), Completed(h)))
  {
    hide Related, Checkpointable, Prepare, Matched, Misjudged, WindowSound;
    CheckpointableInStep(o, full);
    InStepSound(o, full.kernel.live);
    MatchedExactly(o, full, kept, h, r);
    RequestRelated(o, full, kept, Completed(h), r);
    CompletionDecides(o, kept, h, r);
  }

  /** The same from the start of every session. */
  lemma EveryPartialRun(o: Options, steps: seq<HostStep>)
    requires ValidOptions(o) && FaithfulHistories(o, Open(o), NO_HISTORY, CompletedSteps(steps))
    ensures AllMatched(o, Open(o), Open(o), NO_HISTORY, steps) <==> NoneMisjudged(o, Open(o), NO_HISTORY, steps)
    ensures NoneMisjudged(o, Open(o), NO_HISTORY, steps) ==>
      Related(Run(o, NO_HISTORY, Open(o), Requests(steps)), RunCompacting(o, Open(o), NO_HISTORY, steps),
              Completed(FinalLookup(NO_HISTORY, steps)))
  {
    hide Checkpointable, Run, AllMatched, NoneMisjudged;
    OpenCheckpointable(o);
    UncompactedRelated(Open(o));
    NothingToComplete();
    PartialLookupExactly(o, Open(o), Open(o), NO_HISTORY, steps);
  }

  lemma NothingToComplete()
    ensures Completed(NO_HISTORY) == NO_HISTORY
  {
  }
}
