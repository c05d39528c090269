/** Executors, cancellers, deadlines, superseders, resumers and the intake lane of one runtime, as
    interleaved steps over the run store (`RoomAgentRuntime` in src/room-agent-runtime.ts). Every
    await lets any other party take steps, so a party is just a copy of a run it once loaded. */
module AgentRuns {
  import opened CodePoints
  import opened CanonicalJson
  import opened Wrappers
  import opened AgentStore

  datatype Supersession = Supersession(runId: RunId, checkpoint: Json)

  /** `RoomAgentRunInput`, with the agent its input resolves to. */
  datatype Request = Request(
    channelId: ChannelId, agentId: string, input: Input, disclosure: Json, deadlineMs: Option<int>,
    continuation: Option<(RunId, string)>, supersession: Option<Supersession>)

  /** Host options: the default deadline, the disclosure two inputs share, and the input that replaces
      a superseded one. */
  datatype Host = Host(
    runDeadlineMs: Option<int>, shared: (Json, Json) -> Option<Json>, replacement: (Input, Input) -> string)

  /** Where the operation at the head of the intake lane is. */
  datatype Lane =
    | Idle
    | Looking(request: Request)
    | Correlating(request: Request, open: Option<Run>)
    | Recalling(request: Request, correlated: Run)
    | Superseding(request: Request, correlated: Run, snapshot: Run)
    | Recovering(request: Request, correlated: Run, snapshot: Run)
    | Proving(request: Request, correlated: Run, settled: Run)
    | Closing(request: Request, run: Run, target: RunId, loaded: Option<Run>)
    | Admitting(request: Request, run: Run)

  datatype World = World(store: Store, holders: map<nat, Run>, lane: Lane)

  datatype Step =
    | Load(who: nat, runId: RunId)
    | Append(who: nat, eventId: string, at: int, event: RunEvent)
    | Resume(who: nat, at: int)
    | Leave(who: nat)
    | Begin(request: Request)
    | Look(open: Option<Run>, newId: RunId, at: int)
    | Correlate(newId: RunId, at: int)
    | Recall(newId: RunId, at: int)
    | Supersede(eventId: string, newId: RunId, at: int)
    | Recover(newId: RunId, at: int)
    | Prove(newId: RunId, at: int)
    | CloseLoad
    | CloseCommit(eventId: string, at: int)
    | Admit(who: nat)
    | Abandon

  const SUPERSEDED := "superseded_by_new_input"

  // ---- Commits ----

  /** The run an executor or `finishRun` stores along with an event. */
  function Transition(run: Run, event: RunEvent): Run {
    match event
    case CheckpointSaved(value) => run.(checkpoint := Some(value))
    case InputRequested(token) => run.(status := WaitingForInput, continuation := Some(token), deadlineAt := None)
    case RunCompleted => run.(status := Completed, continuation := None)
    case RunCanceled(_) => run.(status := Canceled, continuation := None, failureCode := None)
    case DeadlinePassed => run.(status := DeadlineExceeded, continuation := None, failureCode := None)
    case RunFailed(code) => run.(status := Failed, continuation := None, failureCode := Some(code))
    case _ => run
  }

  function DraftOf(run: Run, eventId: string, at: int, event: RunEvent): Draft {
    Draft(eventId, run.id, run.channelId, run.agentId, run.latestInput.id, at, event)
  }

  function Commit(s: Store, run: Run, eventId: string, at: int, event: RunEvent): Result<Appended> {
    CommitRunEvent(s, Transition(run, event), DraftOf(run, eventId, at, event))
  }

  /** The run has no event of this id yet. */
  predicate FreshEvent(s: Store, run: Run, eventId: string) { EventKey(run.id, eventId) !in s.runEventIds }

  // ---- Admission ----

  function LineOf(request: Request, input: Input): TranscriptDraft {
    TranscriptDraft(input.id, request.channelId, input.id, Inbound, KindOf(input), input.speakerId, request.disclosure,
      input.text, input.modality)
  }

  predicate SameSpeaker(a: Input, b: Input) { KindOf(a) == KindOf(b) && a.speakerId == b.speakerId }

  predicate ContinuesOpen(request: Request, open: Option<Run>) {
    && open.Some? && open.value.status == WaitingForInput && open.value.agentId == request.agentId
    && SameSpeaker(open.value.latestInput, request.input)
    && (request.continuation.Some? ==> request.continuation.value.0 == open.value.id)
  }

  /** A strict continuation names the waiting run, its agent and its token. */
  predicate ContinuationHolds(request: Request, open: Option<Run>) {
    request.continuation.Some? ==>
      && open.Some? && open.value.id == request.continuation.value.0 && open.value.status == WaitingForInput
      && open.value.agentId == request.agentId && open.value.continuation == Some(request.continuation.value.1)
  }

  function Deadline(request: Request, inherited: Option<int>, host: Host): Option<int> {
    if request.deadlineMs.Some? then request.deadlineMs
    else if inherited.Some? then inherited else host.runDeadlineMs
  }

  function WithDeadline(run: Run, deadline: Option<int>, at: int): Run {
    if deadline.None? || deadline.value == 0 then run.(deadlineMs := None, deadlineAt := None)
    else run.(deadlineMs := deadline, deadlineAt := Some(at + deadline.value))
  }

  /** `loadCorrelatedSupersessionRun`: the run to supersede, of this channel and agent. */
  predicate Correlated(s: Store, request: Request) {
    && request.supersession.Some?
    && var id := request.supersession.value.runId;
       id in s.runs && s.runs[id].channelId == request.channelId && s.runs[id].agentId == request.agentId
  }

  /** `assertDurableSupersessionCancellation`, for a run loaded before. */
  predicate CancellationProved(s: Store, run: Run) {
    var events := Journal(s, run.id);
    && run.status == Canceled && events != []
    && events[|events| - 1].sequence == run.lastSequence
    && events[|events| - 1].draft.event == RunCanceled(SUPERSEDED)
  }

  /** The record the admission stores, and the open run it must close first. */
  function Choose(
    host: Host, request: Request, correlated: Option<Run>, open: Option<Run>, newId: RunId, at: int): Lane
  {
    var superseding := request.supersession.Some?;
    if request.continuation.Some?
       && (open.None? || !SameSpeaker(open.value.latestInput, request.input)) then Idle
    else if superseding && open.Some? && open.value.status == WaitingForInput && !ContinuesOpen(request, open) then Idle
    else if ContinuesOpen(request, open) then
      var deadline := Deadline(request, open.value.deadlineMs, host);
      var disclosure := host.shared(open.value.disclosure, request.disclosure);
      if (deadline.Some? && deadline.value < 0) || disclosure.None? then Idle
      else Admitting(request, WithDeadline(
        open.value.(continuation := None, failureCode := None, latestInput := request.input,
          disclosure := disclosure.value, attempt := open.value.attempt + 1, status := Active, updatedAt := at),
        deadline, at))
    else
      var deadline := Deadline(request, None, host);
      var input :=
        if correlated.Some?
        then request.input.(text := host.replacement(correlated.value.latestInput, request.input))
        else request.input;
      var run := WithDeadline(
        Run(newId, request.channelId, request.agentId, input.id, input, request.disclosure, 1, Active, at, at,
          None, None, 0, None, if superseding then Some(request.supersession.value.checkpoint) else None, None),
        deadline, at);
      if deadline.Some? && deadline.value < 0 then Idle
      else if open.Some? then Closing(request, run, open.value.id, None)
      else Admitting(request, run)
  }

  /** After `loadOpenRun` answered `open`. */
  function Looked(host: Host, request: Request, open: Option<Run>, newId: RunId, at: int): Lane {
    if !ContinuationHolds(request, open) then Idle
    else if request.supersession.None? then Choose(host, request, None, open, newId, at)
    else Correlating(request, open)
  }

  /** After the run to supersede was loaded. */
  function Correlation(host: Host, request: Request, open: Option<Run>, correlated: Run, newId: RunId, at: int): Lane {
    if open.None? then Proving(request, correlated, correlated)
    else if open.value.id != correlated.id then Idle
    else if open.value.status == Active then Recalling(request, correlated)
    else Choose(host, request, Some(correlated), open, newId, at)
  }

  /** After `cancelActiveRunForSupersession` returned a run. */
  function Settled(host: Host, request: Request, correlated: Run, run: Run, newId: RunId, at: int): Lane {
    if run.status == WaitingForInput then Choose(host, request, Some(correlated), Some(run), newId, at)
    else if run.status == Canceled then Proving(request, correlated, run)
    else Idle
  }

  // ---- Steps ----

  function Drop(w: World, who: nat): World { w.(holders := w.holders - {who}) }

  /** `loadRun` by a party that goes on only with a run that has not ended. */
  function LoadStep(w: World, who: nat, id: RunId): World {
    if id !in w.store.runs || Terminal(w.store.runs[id].status) then Drop(w, who)
    else w.(holders := w.holders[who := w.store.runs[id]])
  }

  /** A commit by a party from its own copy. It keeps what the store answered unless the run ended or
      was refused as stale. */
  function AppendStep(w: World, who: nat, eventId: string, at: int, event: RunEvent): World {
    if who !in w.holders then w
    else match Commit(w.store, w.holders[who], eventId, at, event)
      case Err(_) => Drop(w, who)
      case Ok(r) =>
        var next := w.(store := r.store);
        if Ends(event) then Drop(next, who) else next.(holders := next.holders[who := r.run])
  }

  function ResumeStep(w: World, who: nat, at: int): World {
    if who !in w.holders || w.holders[who].status != Active then w
    else
      var run := w.holders[who].(attempt := w.holders[who].attempt + 1, updatedAt := at);
      match SaveRun(w.store, run)
      case Err(_) => Drop(w, who)
      case Ok(r) =>
        if r.acquired then w.(store := r.store, holders := w.holders[who := run]) else Drop(w, who)
  }

  function CorrelateStep(host: Host, w: World, newId: RunId, at: int): World
    requires w.lane.Correlating?
  {
    var request := w.lane.request;
    if !Correlated(w.store, request) then w.(lane := Idle)
    else
      var correlated := w.store.runs[request.supersession.value.runId];
      w.(lane := Correlation(host, request, w.lane.open, correlated, newId, at))
  }

  /** The first `loadRun` of `cancelActiveRunForSupersession`. */
  function RecallStep(host: Host, w: World, newId: RunId, at: int): World
    requires w.lane.Recalling?
  {
    var request, correlated := w.lane.request, w.lane.correlated;
    if correlated.id !in w.store.runs then w.(lane := Idle)
    else
      var run := w.store.runs[correlated.id];
      if run.status == Active then w.(lane := Superseding(request, correlated, run))
      else w.(lane := Settled(host, request, correlated, run, newId, at))
  }

  /** The commit in its loop. */
  function SupersedeStep(host: Host, w: World, eventId: string, newId: RunId, at: int): World
    requires w.lane.Superseding?
  {
    var request, correlated, snapshot := w.lane.request, w.lane.correlated, w.lane.snapshot;
    match Commit(w.store, snapshot, eventId, at, RunCanceled(SUPERSEDED))
    case Ok(r) => w.(store := r.store, lane := Settled(host, request, correlated, r.run, newId, at))
    case Err(_) => w.(lane := Recovering(request, correlated, snapshot))
  }

  /** The `loadRun` after a refused commit: try again only on a run that moved on. */
  function RecoverStep(host: Host, w: World, newId: RunId, at: int): World
    requires w.lane.Recovering?
  {
    var request, correlated, snapshot := w.lane.request, w.lane.correlated, w.lane.snapshot;
    if snapshot.id !in w.store.runs then w.(lane := Idle)
    else
      var current := w.store.runs[snapshot.id];
      if current.status == WaitingForInput then w.(lane := Settled(host, request, correlated, current, newId, at))
      else if current.status == Active && current.lastSequence != snapshot.lastSequence
      then w.(lane := Superseding(request, correlated, current))
      else w.(lane := Idle)
  }

  function ProveStep(host: Host, w: World, newId: RunId, at: int): World
    requires w.lane.Proving?
  {
    if !CancellationProved(w.store, w.lane.settled) then w.(lane := Idle)
    else w.(lane := Choose(host, w.lane.request, Some(w.lane.correlated), None, newId, at))
  }

  function CloseLoadStep(w: World): World
    requires w.lane.Closing?
  {
    var id := w.lane.target;
    if id !in w.store.runs || Terminal(w.store.runs[id].status) then w.(lane := Admitting(w.lane.request, w.lane.run))
    else w.(lane := w.lane.(loaded := Some(w.store.runs[id])))
  }

  function CloseCommitStep(w: World, eventId: string, at: int): World
    requires w.lane.Closing? && w.lane.loaded.Some?
  {
    match Commit(w.store, w.lane.loaded.value, eventId, at, RunCanceled(SUPERSEDED))
    case Ok(r) => w.(store := r.store, lane := Admitting(w.lane.request, w.lane.run))
    case Err(_) => w.(lane := Idle)
  }

  function AdmitStep(w: World, who: nat): World
    requires w.lane.Admitting?
  {
    match AdmitRunInput(w.store, LineOf(w.lane.request, w.lane.run.latestInput), w.lane.run)
    case Err(_) => w.(lane := Idle)
    case Ok(a) =>
      if a.duplicate then w.(lane := Idle)
      else World(a.store, w.holders[who := a.run], Idle)
  }

  /** One atomic step; a step its party cannot take here changes nothing. */
  ghost function Do(host: Host, w: World, step: Step): World {
    match step
    case Load(who, id) => LoadStep(w, who, id)
    case Append(who, eventId, at, event) => AppendStep(w, who, eventId, at, event)
    case Resume(who, at) => ResumeStep(w, who, at)
    case Leave(who) => Drop(w, who)
    case Begin(request) =>
      if w.lane.Idle? && InputKey(request.channelId, request.input.id) !in w.store.runInputs
      then w.(lane := Looking(request)) else w
    case Look(open, newId, at) =>
      if w.lane.Looking? && LoadsOpen(w.store, w.lane.request.channelId, open)
      then w.(lane := Looked(host, w.lane.request, open, newId, at)) else w
    case Correlate(newId, at) => if w.lane.Correlating? then CorrelateStep(host, w, newId, at) else w
    case Recall(newId, at) => if w.lane.Recalling? then RecallStep(host, w, newId, at) else w
    case Supersede(eventId, newId, at) =>
      if w.lane.Superseding? then SupersedeStep(host, w, eventId, newId, at) else w
    case Recover(newId, at) => if w.lane.Recovering? then RecoverStep(host, w, newId, at) else w
    case Prove(newId, at) => if w.lane.Proving? then ProveStep(host, w, newId, at) else w
    case CloseLoad => if w.lane.Closing? then CloseLoadStep(w) else w
    case CloseCommit(eventId, at) =>
      if w.lane.Closing? && w.lane.loaded.Some? then CloseCommitStep(w, eventId, at) else w
    case Admit(who) => if w.lane.Admitting? then AdmitStep(w, who) else w
    case Abandon => w.(lane := Idle)
  }

  ghost function After(host: Host, w: World, steps: seq<Step>): World
    decreases |steps|
  {
    if steps == [] then w else After(host, Do(host, w, steps[0]), steps[1..])
  }

  // ---- Invariant ----

  /** A journal is numbered from one, and a terminal event comes last and only when the run ended. */
  ghost predicate SoundJournal(run: Run, events: seq<Entry>) {
    && run.lastSequence == |events|
    && (forall i :: 0 <= i < |events| ==> events[i].sequence == i + 1)
    && (forall i :: 0 <= i < |events| - 1 ==> !Ends(events[i].draft.event))
    && (events != [] && Ends(events[|events| - 1].draft.event) <==> Terminal(run.status))
  }

  ghost predicate SoundStore(s: Store) {
    && (forall id :: id in s.runs ==>
          s.runs[id].id == id && SoundRun(s.runs[id]) && SoundJournal(s.runs[id], Journal(s, id)))
    && (forall id :: id in s.runEvents ==> id in s.runs)
    && Indexed(s) && OneOpen(s)
  }

  predicate SoundRun(run: Run) { SoundRecord(run) && !Blank(run.latestInput.id) }

  /** Every event id known belongs to an entry of the journal. */
  ghost predicate Indexed(s: Store) {
    forall k :: k in s.runEventIds ==> IndexedEntry(s, k, s.runEventIds[k])
  }

  ghost predicate IndexedEntry(s: Store, key: EventKey, entry: Entry) {
    && key == EventKey(entry.draft.runId, entry.draft.id) && !Blank(entry.draft.id) && !Blank(entry.draft.inputId)
    && entry in Journal(s, key.runId)
  }

  ghost predicate OneOpen(s: Store) {
    forall a, b :: a in s.runs && b in s.runs && BothOpen(s.runs[a], s.runs[b]) ==> a == b
  }

  predicate BothOpen(a: Run, b: Run) { IsOpen(a) && IsOpen(b) && a.channelId == b.channelId }

  /** A copy of a run that was open when loaded: if the run ended since, the copy is behind. */
  ghost predicate Copy(s: Store, run: Run) {
    && run.id in s.runs && run.channelId == s.runs[run.id].channelId && IsOpen(run) && SoundRun(run)
    && run.lastSequence <= s.runs[run.id].lastSequence
    && (Terminal(s.runs[run.id].status) ==> run.lastSequence < s.runs[run.id].lastSequence)
  }

  /** No other run of the channel is open. */
  ghost predicate OnlyOpen(s: Store, channel: ChannelId, id: RunId) {
    forall other :: other in s.runs && IsOpen(s.runs[other]) && s.runs[other].channelId == channel ==> other == id
  }

  ghost predicate Known(s: Store, channel: ChannelId, id: RunId) { id in s.runs && s.runs[id].channelId == channel }

  ghost predicate NoneOpen(s: Store, channel: ChannelId) {
    forall id :: id in s.runs && IsOpen(s.runs[id]) ==> s.runs[id].channelId != channel
  }

  /** A new run may only be admitted to a channel without an open run; a continued one is known. */
  ghost predicate Admissible(s: Store, run: Run) {
    || (NoneOpen(s, run.channelId) && run.attempt == 1)
    || (Known(s, run.channelId, run.id) && OnlyOpen(s, run.channelId, run.id))
  }

  /** What `loadOpenRun` answered still tells which run may be open. */
  ghost predicate OpenFits(s: Store, channel: ChannelId, open: Option<Run>) {
    && (open.None? ==> NoneOpen(s, channel))
    && (open.Some? ==>
          open.value.channelId == channel && Known(s, channel, open.value.id) && OnlyOpen(s, channel, open.value.id))
  }

  ghost predicate SoundLane(s: Store, lane: Lane) {
    match lane
    case Correlating(request, open) => OpenFits(s, request.channelId, open)
    case Recalling(request, correlated) =>
      Known(s, request.channelId, correlated.id) && OnlyOpen(s, request.channelId, correlated.id)
    case Superseding(request, _, snapshot) =>
      Copy(s, snapshot) && snapshot.channelId == request.channelId && OnlyOpen(s, request.channelId, snapshot.id)
    case Recovering(request, _, snapshot) =>
      Known(s, request.channelId, snapshot.id) && OnlyOpen(s, request.channelId, snapshot.id)
    case Proving(request, _, _) => NoneOpen(s, request.channelId)
    case Closing(request, run, target, loaded) =>
      && run.channelId == request.channelId && run.attempt == 1
      && Known(s, request.channelId, target) && OnlyOpen(s, request.channelId, target)
      && (loaded.Some? ==>
        Copy(s, loaded.value) && loaded.value.id == target && loaded.value.channelId == request.channelId)
    case Admitting(request, run) => run.channelId == request.channelId && Admissible(s, run)
    case _ => true
  }

  ghost predicate Sound(w: World) {
    && SoundStore(w.store)
    && (forall who :: who in w.holders ==> Copy(w.store, w.holders[who]))
    && SoundLane(w.store, w.lane)
  }

  // ---- How the store may change under the others ----

  /** Runs keep their channel, only move on, and none opens. */
  ghost predicate Progresses(before: Store, after: Store) {
    && before.runs.Keys == after.runs.Keys
    && forall id :: id in before.runs ==>
         && after.runs[id].channelId == before.runs[id].channelId
         && before.runs[id].lastSequence <= after.runs[id].lastSequence
         && (IsOpen(after.runs[id]) ==> IsOpen(before.runs[id]))
         && (!IsOpen(after.runs[id]) && IsOpen(before.runs[id]) ==>
               before.runs[id].lastSequence < after.runs[id].lastSequence)
  }

  lemma EndedIsNotOpen()
    ensures forall run: Run :: IsOpen(run) <==> !Terminal(run.status)
  {
  }

  lemma ProgressKeeps(before: Store, after: Store)
    requires Progresses(before, after)
    ensures forall run :: Copy(before, run) ==> Copy(after, run)
    ensures forall lane :: SoundLane(before, lane) ==> SoundLane(after, lane)
    ensures OneOpen(before) ==> OneOpen(after)
  {
    EndedIsNotOpen();
    forall run | Copy(before, run) ensures Copy(after, run) {}
    forall lane | SoundLane(before, lane) ensures SoundLane(after, lane) {}
  }

  /** What a successful commit stores. */
  lemma CommitShape(s: Store, run: Run, eventId: string, at: int, event: RunEvent)
    requires FreshEvent(s, run, eventId)
    ensures var r := Commit(s, run, eventId, at, event);
      var number := |Journal(s, run.id)| + 1;
      r.Ok? ==>
        && run.id in s.runs && run.lastSequence == s.runs[run.id].lastSequence && !r.value.duplicate
        && r.value.entry == Entry(DraftOf(run, eventId, at, event), number)
        && r.value.run == Transition(run, event).(lastSequence := number, updatedAt := at)
        && r.value.store.runs == s.runs[run.id := r.value.run]
        && r.value.store.runEvents == s.runEvents[run.id := Journal(s, run.id) + [r.value.entry]]
        && r.value.store.runEventIds == s.runEventIds[EventKey(run.id, eventId) := r.value.entry]
        && !Blank(eventId) && !Blank(run.latestInput.id) && SoundRun(r.value.run)
  {
    hide Blank;
  }

  /** Under an id the run has, a commit is answered exactly when it repeats the journaled event, and
      changes nothing. */
  lemma RepeatAnswered(s: Store, run: Run, eventId: string, at: int, event: RunEvent)
    requires SoundStore(s) && Copy(s, run) && !FreshEvent(s, run, eventId)
    ensures var r := Commit(s, run, eventId, at, event);
      && (r.Ok? <==> s.runEventIds[EventKey(run.id, eventId)].draft == DraftOf(run, eventId, at, event))
      && (r.Ok? ==> r.value.store == s && r.value.run == s.runs[run.id])
  {
    hide Blank, SoundJournal, OneOpen;
    assert IndexedEntry(s, EventKey(run.id, eventId), s.runEventIds[EventKey(run.id, eventId)]);
    assert SoundRecord(Transition(run, event));
  }

  /** A terminal event in the journal means that the run ended. */
  lemma RepeatedEnd(s: Store, run: Run, eventId: string, at: int, event: RunEvent)
    requires SoundStore(s) && Copy(s, run) && !FreshEvent(s, run, eventId) && Ends(event)
    ensures Commit(s, run, eventId, at, event).Ok? ==> Terminal(s.runs[run.id].status)
  {
    hide Blank, Commit, OneOpen, Terminal, Ends;
    RepeatAnswered(s, run, eventId, at, event);
    assert IndexedEntry(s, EventKey(run.id, eventId), s.runEventIds[EventKey(run.id, eventId)]);
  }

  lemma TransitionEnds(run: Run, event: RunEvent)
    ensures var next := Transition(run, event);
      next.id == run.id && next.channelId == run.channelId && next.attempt == run.attempt
    ensures IsOpen(run) ==> (Terminal(Transition(run, event).status) <==> Ends(event))
  {
  }

  /** One run and its journal move on; the others stay. */
  lemma RunMoves(s: Store, after: Store, id: RunId)
    requires SoundStore(s) && id in after.runs && after.runs == s.runs[id := after.runs[id]]
    requires after.runEvents == s.runEvents || after.runEvents == s.runEvents[id := Journal(after, id)]
    requires after.runs[id].id == id && SoundRun(after.runs[id]) && SoundJournal(after.runs[id], Journal(after, id))
    requires Indexed(after) && OneOpen(after)
    ensures SoundStore(after)
  {
    hide SoundJournal, OneOpen, Indexed, SoundRun;
    forall other | other in after.runs
      ensures after.runs[other].id == other && SoundRun(after.runs[other])
              && SoundJournal(after.runs[other], Journal(after, other))
    {
      if other != id { assert Journal(after, other) == Journal(s, other); }
    }
  }

  lemma IndexKept(s: Store, after: Store)
    requires Indexed(s) && after.runEvents == s.runEvents && after.runEventIds == s.runEventIds
    ensures Indexed(after)
  {
    hide Blank;
    forall k | k in after.runEventIds ensures IndexedEntry(after, k, after.runEventIds[k]) {
      assert IndexedEntry(s, k, s.runEventIds[k]);
    }
  }

  lemma IndexGrows(s: Store, after: Store, entry: Entry)
    requires Indexed(s) && !Blank(entry.draft.id) && !Blank(entry.draft.inputId)
    requires after.runEvents == s.runEvents[entry.draft.runId := Journal(s, entry.draft.runId) + [entry]]
    requires after.runEventIds == s.runEventIds[EventKey(entry.draft.runId, entry.draft.id) := entry]
    ensures Indexed(after)
  {
    hide Blank;
    forall k | k in after.runEventIds ensures IndexedEntry(after, k, after.runEventIds[k]) {
      if k in s.runEventIds { assert IndexedEntry(s, k, s.runEventIds[k]); }
    }
  }

  /** A commit from a copy of an open run extends that run's journal and nothing else. */
  lemma CommitProgresses(s: Store, run: Run, eventId: string, at: int, event: RunEvent)
    requires SoundStore(s) && Copy(s, run) && FreshEvent(s, run, eventId)
    ensures var r := Commit(s, run, eventId, at, event);
      r.Ok? ==>
        && Progresses(s, r.value.store) && SoundStore(r.value.store)
        && run.id in r.value.store.runs
        && r.value.run == r.value.store.runs[run.id] && r.value.run.id == run.id
        && r.value.run.channelId == run.channelId
        && r.value.run.status == Transition(run, event).status
        && (!Ends(event) ==> Copy(r.value.store, r.value.run))
  {
    hide Commit, Transition, SoundJournal, OneOpen, Indexed, SoundRun, Blank, Ends;
    var r := Commit(s, run, eventId, at, event);
    CommitShape(s, run, eventId, at, event);
    TransitionEnds(run, event);
    EndedIsNotOpen();
    if r.Ok? {
      var after := r.value.store;
      JournalGrows(s.runs[run.id], Journal(s, run.id), r.value.run, r.value.entry);
      assert Progresses(s, after) by { JournalLength(s.runs[run.id], Journal(s, run.id)); }
      ProgressKeeps(s, after);
      IndexGrows(s, after, r.value.entry);
      RunMoves(s, after, run.id);
    }
  }

  lemma JournalLength(run: Run, events: seq<Entry>)
    requires SoundJournal(run, events)
    ensures run.lastSequence == |events|
  {
  }

  lemma JournalGrows(run: Run, events: seq<Entry>, next: Run, entry: Entry)
    requires SoundJournal(run, events) && !Terminal(run.status)
    requires entry.sequence == |events| + 1 == next.lastSequence
    requires Terminal(next.status) <==> Ends(entry.draft.event)
    ensures SoundJournal(next, events + [entry])
  {
  }

  // ---- Each step ----

  /** The event is one the party already journaled, and the run ended since: the store answers with the
      ended run, which the party then goes on from. */
  predicate Echoes(w: World, who: nat, eventId: string, at: int, event: RunEvent) {
    && who in w.holders
    && var held := w.holders[who];
       && EventKey(held.id, eventId) in w.store.runEventIds && held.id in w.store.runs
       && w.store.runEventIds[EventKey(held.id, eventId)].draft == DraftOf(held, eventId, at, event)
       && Terminal(w.store.runs[held.id].status) && !Ends(event)
  }

  /** An append, whatever its id, keeps the invariant exactly when it is not such an echo. */
  lemma AppendExact(w: World, who: nat, eventId: string, at: int, event: RunEvent)
    requires Sound(w)
    ensures Sound(AppendStep(w, who, eventId, at, event)) <==> !Echoes(w, who, eventId, at, event)
  {
    hide SoundStore, SoundLane, Commit, Progresses, Terminal, Ends, Copy;
    if who in w.holders {
      CopyKnown(w.store, w.holders[who]);
      var held := w.holders[who];
      var r := Commit(w.store, held, eventId, at, event);
      if EventKey(held.id, eventId) !in w.store.runEventIds {
        CommitProgresses(w.store, held, eventId, at, event);
        if r.Ok? { ProgressKeeps(w.store, r.value.store); }
      } else {
        RepeatAnswered(w.store, held, eventId, at, event);
        if r.Ok? && !Ends(event) {
          StoredCopy(w.store, held.id);
          var after := AppendStep(w, who, eventId, at, event);
          assert after == w.(holders := w.holders[who := w.store.runs[held.id]]);
          assert who in after.holders && after.holders[who] == w.store.runs[held.id];
          assert Echoes(w, who, eventId, at, event) <==> Terminal(w.store.runs[held.id].status);
        }
      }
    }
  }

  lemma CopyKnown(s: Store, run: Run)
    requires Copy(s, run)
    ensures run.id in s.runs
  {
  }

  lemma StoredCopy(s: Store, id: RunId)
    requires SoundStore(s) && id in s.runs
    ensures Copy(s, s.runs[id]) <==> !Terminal(s.runs[id].status)
  {
    EndedIsNotOpen();
  }

  lemma ResumeSound(w: World, who: nat, at: int)
    requires Sound(w)
    ensures Sound(ResumeStep(w, who, at))
  {
    hide SaveRun, Copy, SoundStore, SoundLane, Progresses;
    if who in w.holders && w.holders[who].status == Active {
      var run := w.holders[who].(attempt := w.holders[who].attempt + 1, updatedAt := at);
      SavedSound(w.store, w.holders[who], run);
      var r := SaveRun(w.store, run);
      if r.Ok? && r.value.acquired { ProgressKeeps(w.store, r.value.store); }
    }
  }

  lemma SavedSound(s: Store, held: Run, run: Run)
    requires SoundStore(s) && Copy(s, held) && run == held.(attempt := held.attempt + 1, updatedAt := run.updatedAt)
    ensures var r := SaveRun(s, run);
      r.Ok? && r.value.acquired ==>
        Progresses(s, r.value.store) && SoundStore(r.value.store) && Copy(r.value.store, run)
  {
    hide SaveRun, SoundJournal, OneOpen, Indexed, Blank;
    var r := SaveRun(s, run);
    SaveShape(s, run);
    if r.Ok? && r.value.acquired {
      SameJournal(s.runs[run.id], run, Journal(s, run.id));
      ProgressKeeps(s, r.value.store);
      IndexKept(s, r.value.store);
      RunMoves(s, r.value.store, run.id);
    }
  }

  lemma SameJournal(current: Run, run: Run, events: seq<Entry>)
    requires SoundJournal(current, events) && run.status == current.status && run.lastSequence == current.lastSequence
    ensures SoundJournal(run, events)
  {
  }

  lemma SaveShape(s: Store, run: Run)
    ensures var r := SaveRun(s, run);
      r.Ok? && r.value.acquired ==>
        && run.id in s.runs && s.runs[run.id].status == run.status == Active
        && run.lastSequence == s.runs[run.id].lastSequence && run.channelId == s.runs[run.id].channelId
        && r.value.store.runs == s.runs[run.id := run] && r.value.store.runEvents == s.runEvents
        && r.value.store.runEventIds == s.runEventIds
  {
  }

  lemma LoadSound(w: World, who: nat, id: RunId)
    requires Sound(w)
    ensures Sound(LoadStep(w, who, id))
  {
    EndedIsNotOpen();
  }

  /** Whatever is chosen, a new run is chosen only for a channel whose open run will be closed. */
  lemma ChooseSound(
    host: Host, s: Store, request: Request, correlated: Option<Run>, open: Option<Run>, newId: RunId, at: int)
    requires SoundStore(s) && OpenFits(s, request.channelId, open)
    ensures SoundLane(s, Choose(host, request, correlated, open, newId, at))
  {
    hide SoundStore;
  }

  /** A settled run is the stored one; if it was canceled its channel is empty. */
  lemma SettledSound(host: Host, s: Store, request: Request, correlated: Run, run: Run, newId: RunId, at: int)
    requires SoundStore(s) && run.id in s.runs && s.runs[run.id] == run
    requires run.channelId == request.channelId && OnlyOpen(s, request.channelId, run.id)
    ensures SoundLane(s, Settled(host, request, correlated, run, newId, at))
  {
    hide Choose, SoundStore;
    EndedIsNotOpen();
    if run.status == WaitingForInput { ChooseSound(host, s, request, Some(correlated), Some(run), newId, at); }
  }

  lemma LookSound(host: Host, w: World, open: Option<Run>, newId: RunId, at: int)
    requires Sound(w) && w.lane.Looking? && LoadsOpen(w.store, w.lane.request.channelId, open)
    ensures SoundLane(w.store, Looked(host, w.lane.request, open, newId, at))
  {
    hide Choose, ContinuationHolds, SoundStore, Copy, LoadsOpen;
    var request := w.lane.request;
    OpenKnown(w.store, request.channelId, open);
    ChooseSound(host, w.store, request, None, open, newId, at);
  }

  lemma OpenKnown(s: Store, channel: ChannelId, open: Option<Run>)
    requires SoundStore(s) && LoadsOpen(s, channel, open)
    ensures OpenFits(s, channel, open)
  {
    hide Blank;
  }

  lemma CorrelateSound(host: Host, w: World, newId: RunId, at: int)
    requires Sound(w) && w.lane.Correlating?
    ensures Sound(CorrelateStep(host, w, newId, at))
  {
    hide Choose, SoundStore, Copy;
    var request, open := w.lane.request, w.lane.open;
    if Correlated(w.store, request) {
      StoredKnown(w.store, request.supersession.value.runId);
      ChooseSound(host, w.store, request, Some(w.store.runs[request.supersession.value.runId]), open, newId, at);
    }
  }

  lemma StoredKnown(s: Store, id: RunId)
    requires SoundStore(s) && id in s.runs
    ensures s.runs[id].id == id
  {
  }

  lemma RecallSound(host: Host, w: World, newId: RunId, at: int)
    requires Sound(w) && w.lane.Recalling?
    ensures Sound(RecallStep(host, w, newId, at))
  {
    hide Settled, SoundStore, Copy;
    var id := w.lane.correlated.id;
    if id in w.store.runs {
      StoredKnown(w.store, id);
      StoredCopy(w.store, id);
      SettledSound(host, w.store, w.lane.request, w.lane.correlated, w.store.runs[id], newId, at);
    }
  }

  lemma SupersedeSound(host: Host, w: World, eventId: string, newId: RunId, at: int)
    requires Sound(w) && w.lane.Superseding?
    ensures Sound(SupersedeStep(host, w, eventId, newId, at))
  {
    hide SoundStore, Copy, Commit, Progresses, Settled, FreshEvent;
    var request, correlated, snapshot := w.lane.request, w.lane.correlated, w.lane.snapshot;
    var r := Commit(w.store, snapshot, eventId, at, RunCanceled(SUPERSEDED));
    SnapshotKnown(w.store, snapshot);
    if r.Ok? && FreshEvent(w.store, snapshot, eventId) {
      CommitProgresses(w.store, snapshot, eventId, at, RunCanceled(SUPERSEDED));
      ProgressKeeps(w.store, r.value.store);
      assert SoundLane(r.value.store, w.lane);
      SnapshotKnown(r.value.store, snapshot);
      SettledSound(host, r.value.store, request, correlated, r.value.run, newId, at);
    } else if r.Ok? {
      RepeatAnswered(w.store, snapshot, eventId, at, RunCanceled(SUPERSEDED));
      SettledSound(host, w.store, request, correlated, w.store.runs[snapshot.id], newId, at);
    }
  }

  lemma RecoverSound(host: Host, w: World, newId: RunId, at: int)
    requires Sound(w) && w.lane.Recovering?
    ensures Sound(RecoverStep(host, w, newId, at))
  {
    hide Settled, SoundStore, Copy;
    var id := w.lane.snapshot.id;
    if id in w.store.runs {
      StoredKnown(w.store, id);
      StoredCopy(w.store, id);
      SettledSound(host, w.store, w.lane.request, w.lane.correlated, w.store.runs[id], newId, at);
    }
  }

  lemma ProveSound(host: Host, w: World, newId: RunId, at: int)
    requires Sound(w) && w.lane.Proving?
    ensures Sound(ProveStep(host, w, newId, at))
  {
    hide Choose, SoundStore, Copy, CancellationProved;
    ChooseSound(host, w.store, w.lane.request, Some(w.lane.correlated), None, newId, at);
  }

  lemma SnapshotKnown(s: Store, run: Run)
    requires SoundStore(s) && Copy(s, run)
    ensures run.id in s.runs && s.runs[run.id].id == run.id && s.runs[run.id].channelId == run.channelId
  {
  }

  lemma CloseLoadSound(w: World)
    requires Sound(w) && w.lane.Closing?
    ensures Sound(CloseLoadStep(w))
  {
    EndedIsNotOpen();
    ClosedEmpty(w.store, w.lane.request.channelId, w.lane.target);
  }

  lemma ClosedEmpty(s: Store, channel: ChannelId, target: RunId)
    ensures OnlyOpen(s, channel, target) && (target !in s.runs || Terminal(s.runs[target].status)) ==>
      NoneOpen(s, channel)
  {
  }

  lemma CloseCommitSound(w: World, eventId: string, at: int)
    requires Sound(w) && w.lane.Closing? && w.lane.loaded.Some?
    ensures Sound(CloseCommitStep(w, eventId, at))
  {
    hide SoundStore, Copy, Commit, Progresses, FreshEvent;
    var held := w.lane.loaded.value;
    var r := Commit(w.store, held, eventId, at, RunCanceled(SUPERSEDED));
    if r.Ok? {
      if FreshEvent(w.store, held, eventId) {
        CommitProgresses(w.store, held, eventId, at, RunCanceled(SUPERSEDED));
        ProgressKeeps(w.store, r.value.store);
        assert SoundLane(r.value.store, w.lane);
      } else {
        RepeatAnswered(w.store, held, eventId, at, RunCanceled(SUPERSEDED));
        RepeatedEnd(w.store, held, eventId, at, RunCanceled(SUPERSEDED));
      }
      ClosedEmpty(r.value.store, w.lane.request.channelId, w.lane.target);
    }
  }

  lemma AdmitSound(w: World, who: nat)
    requires Sound(w) && w.lane.Admitting?
    ensures Sound(AdmitStep(w, who))
  {
    hide AdmitRunInput, Copy, SoundStore, Admissible;
    var line, run := LineOf(w.lane.request, w.lane.run.latestInput), w.lane.run;
    AdmitShape(w.store, line, run);
    var a := AdmitRunInput(w.store, line, run);
    if a.Ok? && !a.value.duplicate {
      AdmittedSound(w.store, line, run);
      forall other | other in w.holders ensures Copy(a.value.store, w.holders[other]) {
        AdmittedCopies(w.store, line, run, w.holders[other]);
      }
    }
  }

  lemma AdmittedSound(s: Store, line: TranscriptDraft, run: Run)
    requires SoundStore(s) && Admissible(s, run)
    ensures var a := AdmitRunInput(s, line, run);
      a.Ok? && !a.value.duplicate ==> SoundStore(a.value.store) && Copy(a.value.store, run)
  {
    hide AdmitRunInput, SoundJournal, OneOpen, Admissible, Indexed, SoundRun;
    AdmitShape(s, line, run);
    EndedIsNotOpen();
    var a := AdmitRunInput(s, line, run);
    if a.Ok? && !a.value.duplicate {
      AdmittedOpen(s, a.value.store, run);
      IndexKept(s, a.value.store);
      JournalReopens(if run.id in s.runs then s.runs[run.id] else run, run, Journal(s, run.id));
      RunMoves(s, a.value.store, run.id);
    }
  }

  /** The journal of a waiting run, or the empty one, is that of the run admitted. */
  lemma JournalReopens(current: Run, run: Run, events: seq<Entry>)
    requires run.status == Active && run.lastSequence == current.lastSequence
    requires events == [] || (current.status == WaitingForInput && SoundJournal(current, events))
    requires events == [] ==> run.lastSequence == 0 || SoundJournal(current, events)
    ensures SoundJournal(run, events)
  {
  }

  lemma AdmitShape(s: Store, line: TranscriptDraft, run: Run)
    ensures var a := AdmitRunInput(s, line, run);
      a.Ok? && !a.value.duplicate ==>
        && a.value.run == run && run.status == Active && SoundRun(run)
        && (run.id !in s.runs ==> run.lastSequence == 0)
        && (run.id in s.runs ==>
              s.runs[run.id].status == WaitingForInput && run.attempt == s.runs[run.id].attempt + 1
              && run.lastSequence == s.runs[run.id].lastSequence)
        && a.value.store.runs == s.runs[run.id := run] && a.value.store.runEvents == s.runEvents
        && a.value.store.runEventIds == s.runEventIds
  {
    hide Blank;
  }

  lemma AdmittedOpen(s: Store, after: Store, run: Run)
    requires SoundStore(s) && Admissible(s, run) && after.runs == s.runs[run.id := run]
    requires run.id in s.runs ==> run.attempt == s.runs[run.id].attempt + 1
    ensures OneOpen(after)
  {
    hide SoundJournal;
  }

  lemma AdmittedCopies(s: Store, line: TranscriptDraft, run: Run, held: Run)
    requires SoundStore(s) && Admissible(s, run) && Copy(s, held)
    ensures var a := AdmitRunInput(s, line, run);
      a.Ok? && !a.value.duplicate ==> Copy(a.value.store, held)
  {
    hide AdmitRunInput, SoundJournal;
    AdmitShape(s, line, run);
  }

  predicate Echo(w: World, step: Step) { step.Append? && Echoes(w, step.who, step.eventId, step.at, step.event) }

  lemma DoExact(host: Host, w: World, step: Step)
    requires Sound(w)
    ensures Sound(Do(host, w, step)) <==> !Echo(w, step)
  {
    hide SoundStore, SoundLane, Copy, AppendStep, ResumeStep, LoadStep, SupersedeStep, CloseLoadStep, CloseCommitStep,
         AdmitStep, CorrelateStep, RecallStep, RecoverStep, ProveStep, Looked, Echoes;
    match step
    case Load(who, id) => LoadSound(w, who, id);
    case Append(who, eventId, at, event) => AppendExact(w, who, eventId, at, event);
    case Resume(who, at) => ResumeSound(w, who, at);
    case Leave(_) =>
    case Begin(request) => assert SoundLane(w.store, Looking(request)) by { PlainLane(w.store, request); }
    case Look(open, newId, at) =>
      if w.lane.Looking? && LoadsOpen(w.store, w.lane.request.channelId, open) { LookSound(host, w, open, newId, at); }
    case Correlate(newId, at) => if w.lane.Correlating? { CorrelateSound(host, w, newId, at); }
    case Recall(newId, at) => if w.lane.Recalling? { RecallSound(host, w, newId, at); }
    case Supersede(eventId, newId, at) =>
      if w.lane.Superseding? { SupersedeSound(host, w, eventId, newId, at); }
    case Recover(newId, at) => if w.lane.Recovering? { RecoverSound(host, w, newId, at); }
    case Prove(newId, at) => if w.lane.Proving? { ProveSound(host, w, newId, at); }
    case CloseLoad => if w.lane.Closing? { CloseLoadSound(w); }
    case CloseCommit(eventId, at) =>
      if w.lane.Closing? && w.lane.loaded.Some? { CloseCommitSound(w, eventId, at); }
    case Admit(who) => if w.lane.Admitting? { AdmitSound(w, who); }
    case Abandon => assert SoundLane(w.store, Idle) by { IdleLane(w.store); }
  }

  lemma PlainLane(s: Store, request: Request)
    ensures SoundLane(s, Looking(request))
  {
  }

  lemma IdleLane(s: Store)
    ensures SoundLane(s, Idle)
  {
  }

  // ---- Every run ----

  /** No append of the run is an echo. */
  ghost predicate NoEcho(host: Host, w: World, steps: seq<Step>)
    decreases |steps|
  {
    steps != [] ==> !Echo(w, steps[0]) && NoEcho(host, Do(host, w, steps[0]), steps[1..])
  }

  /** The invariant holds before and after every step. */
  ghost predicate SoundThroughout(host: Host, w: World, steps: seq<Step>) {
    forall n :: 0 <= n <= |steps| ==> Sound(After(host, w, steps[..n]))
  }

  lemma ThroughoutUnfold(host: Host, w: World, steps: seq<Step>)
    requires Sound(w) && steps != []
    ensures SoundThroughout(host, w, steps) <==>
      Sound(Do(host, w, steps[0])) && SoundThroughout(host, Do(host, w, steps[0]), steps[1..])
  {
    hide Sound, Do;
    var next := Do(host, w, steps[0]);
    forall n | 0 < n <= |steps| ensures After(host, w, steps[..n]) == After(host, next, steps[1..][..n - 1]) {
      assert steps[..n][1..] == steps[1..][..n - 1];
    }
    if SoundThroughout(host, w, steps) {
      assert steps[1..][..0] == [];
      forall n | 0 <= n <= |steps[1..]| ensures Sound(After(host, next, steps[1..][..n])) {
        assert After(host, w, steps[..n + 1]) == After(host, next, steps[1..][..n]);
      }
      assert After(host, next, []) == next;
    }
    if Sound(next) && SoundThroughout(host, next, steps[1..]) {
      forall n | 0 <= n <= |steps| ensures Sound(After(host, w, steps[..n])) {
        if n == 0 { assert steps[..0] == []; } else { assert Sound(After(host, next, steps[1..][..n - 1])); }
      }
    }
  }

  /** The invariant survives a run exactly when no append of it is an echo, whatever ids occur. */
  lemma {:induction false} SoundExactly(host: Host, w: World, steps: seq<Step>)
    requires Sound(w)
    ensures SoundThroughout(host, w, steps) <==> NoEcho(host, w, steps)
    decreases |steps|
  {
    hide Sound, Do, SoundThroughout, Echo;
    if steps == [] {
      assert SoundThroughout(host, w, steps) by { EmptyRun(host, w); }
    } else {
      ThroughoutUnfold(host, w, steps);
      DoExact(host, w, steps[0]);
      if !Echo(w, steps[0]) { SoundExactly(host, Do(host, w, steps[0]), steps[1..]); }
    }
  }

  lemma EmptyRun(host: Host, w: World)
    requires Sound(w)
    ensures SoundThroughout(host, w, [])
  {
    hide Sound;
    var none: seq<Step> := [];
    assert none[..0] == none;
  }

  lemma AfterSound(host: Host, w: World, steps: seq<Step>)
    requires Sound(w) && NoEcho(host, w, steps)
    ensures Sound(After(host, w, steps))
  {
    hide Sound, NoEcho;
    SoundExactly(host, w, steps);
    assert steps[..|steps|] == steps;
  }

  const NEW_ROOM := World(EMPTY, map[], Idle)

  /** In every interleaving of appends, deadlines, cancellations, supersessions, resumes, departures and
      one admission at a time in which no append is an echo: each journal is numbered 1..n with
      `lastSequence` n, a terminal event occurs at most once and only last, exactly when the run has
      ended, and a channel has at most one open run. */
  lemma JournalsStaySound(host: Host, steps: seq<Step>, id: RunId)
    requires NoEcho(host, NEW_ROOM, steps) && id in After(host, NEW_ROOM, steps).store.runs
    ensures var s := After(host, NEW_ROOM, steps).store;
      var run, events := s.runs[id], Journal(s, id);
      && run.lastSequence == |events|
      && (forall i :: 0 <= i < |events| ==> events[i].sequence == i + 1)
      && (forall i :: 0 <= i < |events| && Ends(events[i].draft.event) ==> i == |events| - 1)
      && (Terminal(run.status) <==> events != [] && Ends(events[|events| - 1].draft.event))
      && (IsOpen(run) ==> forall other :: other in s.runs && IsOpen(s.runs[other]) && other != id ==>
            s.runs[other].channelId != run.channelId)
  {
    hide After, NoEcho, SoundStore, SoundLane, SoundRun;
    NewRoomSound();
    AfterSound(host, NEW_ROOM, steps);
    StoredSound(After(host, NEW_ROOM, steps).store, id);
  }

  lemma NewRoomSound()
    ensures Sound(NEW_ROOM)
  {
  }

  lemma StoredSound(s: Store, id: RunId)
    requires SoundStore(s) && id in s.runs
    ensures SoundJournal(s.runs[id], Journal(s, id)) && OneOpen(s)
  {
    hide SoundJournal, Blank;
  }

  // ---- Ids that never repeat ----

  function IdOf(step: Step): Option<string> {
    match step
    case Append(_, eventId, _, _) => Some(eventId)
    case Supersede(eventId, _, _) => Some(eventId)
    case CloseCommit(eventId, _) => Some(eventId)
    case _ => None
  }

  /** `createId` never returned an event id twice, and none is known yet. */
  ghost predicate NewIds(s: Store, steps: seq<Step>) {
    && (forall i, j :: 0 <= i < j < |steps| && IdOf(steps[i]).Some? ==> IdOf(steps[i]) != IdOf(steps[j]))
    && (forall i, k :: 0 <= i < |steps| && k in s.runEventIds ==> IdOf(steps[i]) != Some(k.eventId))
  }

  lemma OneIdAdded(host: Host, w: World, step: Step)
    ensures forall k :: k in Do(host, w, step).store.runEventIds ==>
      k in w.store.runEventIds || IdOf(step) == Some(k.eventId)
  {
    hide Transition, Looked, Correlation, Settled, Choose, CancellationProved, LoadsOpen, SoundRecord,
      SoundTranscript, Blank;
  }

  /** With ids that never repeat no append is an echo, so that every journal stays sound. */
  lemma {:induction false} NewIdsNeverEcho(host: Host, w: World, steps: seq<Step>)
    requires NewIds(w.store, steps)
    ensures NoEcho(host, w, steps)
    decreases |steps|
  {
    hide Do;
    if steps != [] {
      var next := Do(host, w, steps[0]);
      OneIdAdded(host, w, steps[0]);
      NewIdsNeverEcho(host, next, steps[1..]);
    }
  }

  /** A run that ended is never changed again, whatever happens afterwards but an echo. */
  lemma {:induction false} EndedStays(host: Host, w: World, steps: seq<Step>, id: RunId)
    requires Sound(w) && NoEcho(host, w, steps) && id in w.store.runs && Terminal(w.store.runs[id].status)
    ensures var s := After(host, w, steps).store;
      id in s.runs && s.runs[id] == w.store.runs[id] && Journal(s, id) == Journal(w.store, id)
    decreases |steps|
  {
    hide Sound, Do, Echo;
    if steps != [] {
      DoExact(host, w, steps[0]);
      EndedStaysOne(host, w, steps[0], id);
      EndedStays(host, Do(host, w, steps[0]), steps[1..], id);
    }
  }

  ghost predicate Untouched(before: Store, after: Store, id: RunId) {
    id in before.runs && id in after.runs && after.runs[id] == before.runs[id]
      && Journal(after, id) == Journal(before, id)
  }

  lemma CommitLeavesEnded(s: Store, run: Run, eventId: string, at: int, event: RunEvent, id: RunId)
    requires SoundStore(s) && Copy(s, run) && id in s.runs && Terminal(s.runs[id].status)
    ensures var r := Commit(s, run, eventId, at, event); r.Ok? ==> Untouched(s, r.value.store, id)
  {
    hide Commit, Transition, SoundStore, SoundRun;
    if FreshEvent(s, run, eventId) { CommitShape(s, run, eventId, at, event); }
    else { RepeatAnswered(s, run, eventId, at, event); }
  }

  lemma SaveLeavesEnded(s: Store, run: Run, id: RunId)
    requires id in s.runs && Terminal(s.runs[id].status)
    ensures var r := SaveRun(s, run); r.Ok? && r.value.acquired ==> Untouched(s, r.value.store, id)
  {
    hide SaveRun;
    SaveShape(s, run);
  }

  lemma AdmitLeavesEnded(s: Store, line: TranscriptDraft, run: Run, id: RunId)
    requires id in s.runs && Terminal(s.runs[id].status)
    ensures var a := AdmitRunInput(s, line, run); a.Ok? ==> Untouched(s, a.value.store, id)
  {
    hide AdmitRunInput;
    AdmitShape(s, line, run);
    DuplicateAdmission(s, line, run);
  }

  lemma EndedStaysOne(host: Host, w: World, step: Step, id: RunId)
    requires Sound(w) && id in w.store.runs && Terminal(w.store.runs[id].status)
    ensures Untouched(w.store, Do(host, w, step).store, id)
  {
    hide SoundStore, Settled, Correlation, Choose, Looked, LoadsOpen, Commit, SaveRun, AdmitRunInput, LineOf, Copy,
      Terminal, Journal;
    match step
    case Append(who, eventId, at, event) =>
      if who in w.holders {
        CommitLeavesEnded(w.store, w.holders[who], eventId, at, event, id);
      }
    case Resume(who, at) =>
      if who in w.holders {
        SaveLeavesEnded(w.store, w.holders[who].(attempt := w.holders[who].attempt + 1, updatedAt := at), id);
      }
    case Supersede(eventId, newId, at) =>
      if w.lane.Superseding? {
        CommitLeavesEnded(w.store, w.lane.snapshot, eventId, at, RunCanceled(SUPERSEDED), id);
      }
    case CloseCommit(eventId, at) =>
      if w.lane.Closing? && w.lane.loaded.Some? {
        CommitLeavesEnded(w.store, w.lane.loaded.value, eventId, at, RunCanceled(SUPERSEDED), id);
      }
    case Admit(who) =>
      if w.lane.Admitting? {
        AdmitLeavesEnded(w.store, LineOf(w.lane.request, w.lane.run.latestInput), w.lane.run, id);
      }
    case _ =>
  }

  lemma DuplicateAdmission(s: Store, line: TranscriptDraft, run: Run)
    ensures var a := AdmitRunInput(s, line, run); a.Ok? && a.value.duplicate ==> a.value.store == s
  {
  }

  // ---- What an echo does ----

  /** After an echo, the party's next event is accepted behind the terminal one. */
  lemma EchoBreaksJournal(w: World, who: nat, eventId: string, at: int, event: RunEvent, newId: string, later: int,
      next: RunEvent)
    requires Sound(w) && Echoes(w, who, eventId, at, event)
    requires !Blank(newId) && EventKey(w.holders[who].id, newId) !in w.store.runEventIds
    ensures var id := w.holders[who].id;
      var events := Journal(AppendStep(AppendStep(w, who, eventId, at, event), who, newId, later, next).store, id);
      && |events| == |Journal(w.store, id)| + 1 && |events| >= 2
      && events[|events| - 1].draft == DraftOf(w.store.runs[id], newId, later, next)
      && Ends(events[|events| - 2].draft.event)
  {
    hide SoundLane, SoundStore, SoundJournal, SoundRun, Commit, Blank, Terminal, Ends;
    var held := w.holders[who];
    StoredKnown(w.store, held.id);
    var ended := w.store.runs[held.id];
    RepeatAnswered(w.store, held, eventId, at, event);
    assert AppendStep(w, who, eventId, at, event) == w.(holders := w.holders[who := ended]);
    EndedJournal(w.store, held.id);
    EndedAccepts(w.store, held.id, newId, later, next);
    CommitShape(w.store, ended, newId, later, next);
  }

  lemma EndedJournal(s: Store, id: RunId)
    requires SoundStore(s) && id in s.runs && Terminal(s.runs[id].status)
    ensures Journal(s, id) != [] && Ends(Journal(s, id)[|Journal(s, id)| - 1].draft.event)
  {
    hide Blank, Terminal, Ends;
  }

  lemma EndedAccepts(s: Store, id: RunId, newId: string, at: int, event: RunEvent)
    requires SoundStore(s) && id in s.runs && !Blank(newId) && EventKey(id, newId) !in s.runEventIds
    ensures Commit(s, s.runs[id], newId, at, event).Ok?
  {
    hide Blank;
  }

  const REQUEST := Request("c", "a", Input("i", None, "p", "t", "text"), Null, Some(0), None, None)
  const ADMITTED_RUN := Run("r", "c", "a", "i", REQUEST.input, Null, 1, Active, 0, 0, None, None, 0, None, None, None)

  /** A run makes progress and is canceled by another party. */
  const CANCELED_RUN: seq<Step> :=
    [Begin(REQUEST), Look(None, "r", 0), Admit(0), Append(0, "x", 0, Progress(Null)), Load(1, "r"),
     Append(1, "y", 1, RunCanceled("stop"))]

  /** Then `createId` repeats "x" for an identical event of the executor, and another event follows. */
  const ECHOING: seq<Step> := CANCELED_RUN + [Append(0, "x", 0, Progress(Null)), Append(0, "z", 2, Progress(Null))]

  /** Echoes do occur: from a new room, one repeated id leaves an event behind the terminal one. */
  lemma RepeatedIdsBreakJournal(host: Host)
    ensures var events := Journal(After(host, NEW_ROOM, ECHOING).store, "r");
      |events| == 3 && Ends(events[1].draft.event) && !Ends(events[2].draft.event)
  {
    hide After, Sound, AppendStep, Echoes, NewIds, Journal, Ends, Blank;
    var w := After(host, NEW_ROOM, CANCELED_RUN);
    CanceledRun(host);
    CanceledEchoes();
    CanceledIds();
    NewIdsNeverEcho(host, NEW_ROOM, CANCELED_RUN);
    NewRoomSound();
    AfterSound(host, NEW_ROOM, CANCELED_RUN);
    NamesAreText();
    EchoBreaksJournal(w, 0, "x", 0, Progress(Null), "z", 2, Progress(Null));
    AfterTwo(host, NEW_ROOM, CANCELED_RUN, Append(0, "x", 0, Progress(Null)), Append(0, "z", 2, Progress(Null)));
    assert !Ends(Progress(Null)) by { PlainEvent(); }
  }

  lemma PlainEvent()
    ensures !Ends(Progress(Null))
  {
  }

  lemma CanceledEchoes()
    ensures var w := World(CANCELED_STORE, map[0 := PROGRESSED_RUN], Idle);
      && Echoes(w, 0, "x", 0, Progress(Null)) && w.holders[0].id == "r"
      && EventKey("r", "z") !in w.store.runEventIds && |Journal(w.store, "r")| == 2
  {
  }

  lemma CanceledIds()
    ensures NewIds(NEW_ROOM.store, CANCELED_RUN)
  {
  }

  lemma {:induction false} AfterTwo(host: Host, w: World, steps: seq<Step>, first: Step, second: Step)
    ensures After(host, w, steps + [first, second]) == Do(host, Do(host, After(host, w, steps), first), second)
    decreases |steps|
  {
    hide Do;
    if steps == [] {
      assert steps + [first, second] == [first, second] && [first, second][1..] == [second] && [second][1..] == [];
      var next := Do(host, w, first);
      assert After(host, next, [second]) == After(host, Do(host, next, second), []);
    } else {
      assert (steps + [first, second])[1..] == steps[1..] + [first, second];
      AfterTwo(host, Do(host, w, steps[0]), steps[1..], first, second);
    }
  }

  const LINE := Transcript(LineOf(REQUEST, REQUEST.input), 1)
  const FIRST_ENTRY := Entry(DraftOf(ADMITTED_RUN, "x", 0, Progress(Null)), 1)
  const LAST_ENTRY := Entry(DraftOf(ADMITTED_RUN, "y", 1, RunCanceled("stop")), 2)
  const PROGRESSED_RUN := ADMITTED_RUN.(lastSequence := 1)

  const ADMITTED_STORE: Store :=
    EMPTY.(runs := EMPTY.runs["r" := ADMITTED_RUN], runInputs := EMPTY.runInputs[InputKey("c", "i") := "r"],
           transcripts := EMPTY.transcripts["c" := Lines(EMPTY, "c") + [LINE]],
           transcriptIds := EMPTY.transcriptIds[InputKey("c", "i") := LINE])

  /** The store after the run's next event. */
  function Extended(s: Store, run: Run, entry: Entry): Store {
    s.(runs := s.runs["r" := run], runInputs := s.runInputs[InputKey("c", "i") := "r"],
       runEvents := s.runEvents["r" := Journal(s, "r") + [entry]],
       runEventIds := s.runEventIds[EventKey("r", entry.draft.id) := entry])
  }

  const PROGRESSED_STORE := Extended(ADMITTED_STORE, PROGRESSED_RUN, FIRST_ENTRY)
  const CANCELED_STORE :=
    Extended(PROGRESSED_STORE, ADMITTED_RUN.(status := Canceled, lastSequence := 2, updatedAt := 1), LAST_ENTRY)

  lemma RequestAdmitted(host: Host)
    ensures Do(host, NEW_ROOM, Begin(REQUEST)) == NEW_ROOM.(lane := Looking(REQUEST))
    ensures Do(host, NEW_ROOM.(lane := Looking(REQUEST)), Look(None, "r", 0))
            == NEW_ROOM.(lane := Admitting(REQUEST, ADMITTED_RUN))
    ensures AdmitStep(NEW_ROOM.(lane := Admitting(REQUEST, ADMITTED_RUN)), 0)
            == World(ADMITTED_STORE, map[0 := ADMITTED_RUN], Idle)
            == Do(host, NEW_ROOM.(lane := Admitting(REQUEST, ADMITTED_RUN)), Admit(0))
  {
    hide Blank;
    NamesAreText();
  }

  lemma ProgressedThenCanceled()
    ensures Commit(ADMITTED_STORE, ADMITTED_RUN, "x", 0, Progress(Null))
            == Ok(Appended(PROGRESSED_STORE, FIRST_ENTRY, PROGRESSED_RUN, false))
    ensures var r := Commit(PROGRESSED_STORE, PROGRESSED_RUN, "y", 1, RunCanceled("stop"));
      r.Ok? && r.value.store == CANCELED_STORE
  {
    hide Blank;
    NamesAreText();
  }

  lemma CanceledRun(host: Host)
    ensures After(host, NEW_ROOM, CANCELED_RUN) == World(CANCELED_STORE, map[0 := PROGRESSED_RUN], Idle)
  {
    hide Do, Blank;
    RequestAdmitted(host);
    AdmittedThenCanceled(host);
    var steps := CANCELED_RUN;
    AfterThree(host, NEW_ROOM, steps);
    AfterThree(host, World(ADMITTED_STORE, map[0 := ADMITTED_RUN], Idle), steps[3..]);
    assert steps[3..][3..] == [];
  }

  lemma AdmittedThenCanceled(host: Host)
    ensures var progressed := Do(host, World(ADMITTED_STORE, map[0 := ADMITTED_RUN], Idle), CANCELED_RUN[3]);
      Do(host, Do(host, progressed, CANCELED_RUN[4]), CANCELED_RUN[5])
      == World(CANCELED_STORE, map[0 := PROGRESSED_RUN], Idle)
  {
    hide Commit, Blank;
    ProgressedThenCanceled();
    var progressed := Do(host, World(ADMITTED_STORE, map[0 := ADMITTED_RUN], Idle), CANCELED_RUN[3]);
    assert progressed == World(PROGRESSED_STORE, map[0 := PROGRESSED_RUN], Idle);
    var both := World(PROGRESSED_STORE, map[0 := PROGRESSED_RUN, 1 := PROGRESSED_RUN], Idle);
    assert Do(host, progressed, CANCELED_RUN[4]) == both;
    assert both.holders - {1} == map[0 := PROGRESSED_RUN];
  }

  lemma AfterThree(host: Host, w: World, steps: seq<Step>)
    requires |steps| >= 3
    ensures After(host, w, steps)
            == After(host, Do(host, Do(host, Do(host, w, steps[0]), steps[1]), steps[2]), steps[3..])
  {
    hide Do;
    var first := Do(host, w, steps[0]);
    assert steps[1..][1..] == steps[2..] && steps[2..][1..] == steps[3..];
    assert After(host, first, steps[1..]) == After(host, Do(host, first, steps[1]), steps[2..]);
  }

  lemma NamesAreText()
    ensures !Blank("x") && !Blank("y") && !Blank("z") && !Blank("r") && !Blank("c") && !Blank("a") && !Blank("i")
            && !Blank("p") && !Blank("t")
  {
    assert !WhiteSpace("x"[0]) && !WhiteSpace("y"[0]) && !WhiteSpace("z"[0]) && !WhiteSpace("r"[0])
      && !WhiteSpace("c"[0]);
    assert !WhiteSpace("a"[0]) && !WhiteSpace("i"[0]) && !WhiteSpace("p"[0]) && !WhiteSpace("t"[0]);
  }
}
