/** The durable store of agent runs (`InMemoryRoomAgentRuntimeStore` in src/room-agent-runtime.ts), for
    one room: run records, the journal of each run and the room's transcripts. */
module AgentStore {
  import opened CodePoints
  import opened CanonicalJson
  import opened Wrappers

  type RunId = string
  type ChannelId = string

  datatype Status = Active | WaitingForInput | Completed | Canceled | DeadlineExceeded | Failed

  /** `isTerminalRun` */
  predicate Terminal(status: Status) { status in {Completed, Canceled, DeadlineExceeded, Failed} }

  datatype Input = Input(id: string, speakerKind: Option<string>, speakerId: string, text: string, modality: string)

  function KindOf(input: Input): string { if input.speakerKind.Some? then input.speakerKind.value else "participant" }

  /** `RoomAgentRunRecord` */
  datatype Run = Run(
    id: RunId, channelId: ChannelId, agentId: string, rootInputId: string, latestInput: Input, disclosure: Json,
    attempt: nat, status: Status, startedAt: int, updatedAt: int, deadlineMs: Option<int>, deadlineAt: Option<int>,
    lastSequence: nat, continuation: Option<string>, checkpoint: Option<Json>, failureCode: Option<string>)

  datatype RunEvent =
    | Progress(progress: Json) | AssistantOutput(output: Json) | Decision(decision: Json)
    | CheckpointSaved(value: Json) | InputRequested(token: string) | RunCompleted
    | RunCanceled(reason: string) | DeadlinePassed | RunFailed(code: string)

  predicate Ends(e: RunEvent) { e.RunCompleted? || e.RunCanceled? || e.DeadlinePassed? || e.RunFailed? }

  datatype Draft = Draft(
    id: string, runId: RunId, channelId: ChannelId, agentId: string, inputId: string, recordedAt: int, event: RunEvent)

  datatype Entry = Entry(draft: Draft, sequence: nat)

  datatype Direction = Inbound | Outbound

  datatype TranscriptDraft = TranscriptDraft(
    id: string, channelId: ChannelId, turnId: string, direction: Direction, endpointKind: string, endpointId: string,
    disclosure: Json, text: string, modality: string)

  datatype Transcript = Transcript(draft: TranscriptDraft, sequence: nat)

  datatype InputKey = InputKey(channelId: ChannelId, inputId: string)
  datatype EventKey = EventKey(runId: RunId, eventId: string)

  datatype Store = Store(
    runs: map<RunId, Run>, runInputs: map<InputKey, RunId>, runEvents: map<RunId, seq<Entry>>,
    runEventIds: map<EventKey, Entry>, transcripts: map<ChannelId, seq<Transcript>>,
    transcriptIds: map<InputKey, Transcript>)

  const EMPTY: Store := Store(map[], map[], map[], map[], map[], map[])

  datatype StoreError =
    | BadRecord | TranscriptReused | CorruptIndex | InputMismatch | NotActive | NotAtZero | StaleContinuation
    | UnknownRun | EventReused | EventMismatch | StaleEvent

  datatype Result<+T> = Ok(value: T) | Err(error: StoreError)

  datatype Admission = Admission(store: Store, run: Run, transcript: Transcript, duplicate: bool)
  datatype Appended = Appended(store: Store, entry: Entry, run: Run, duplicate: bool)
  datatype Saved = Saved(store: Store, acquired: bool)

  function Journal(s: Store, id: RunId): seq<Entry> { if id in s.runEvents then s.runEvents[id] else [] }

  function Lines(s: Store, channel: ChannelId): seq<Transcript> {
    if channel in s.transcripts then s.transcripts[channel] else []
  }

  predicate IsOpen(run: Run) { run.status == Active || run.status == WaitingForInput }

  predicate SoundRecord(run: Run) {
    !Blank(run.id) && !Blank(run.channelId) && !Blank(run.agentId) && !Blank(run.rootInputId) && run.attempt >= 1
  }

  predicate SoundTranscript(t: TranscriptDraft) {
    && !Blank(t.id) && !Blank(t.channelId) && !Blank(t.turnId) && !Blank(t.endpointId) && !Blank(t.text)
    && t.endpointKind in {"participant", "agent", "service", "watcher"}
    && t.modality in {"speech", "text", "generated"}
    && (t.direction == Inbound <==> t.modality != "generated")
  }

  /** The transcript line an admitted input must carry. */
  predicate Describes(input: TranscriptDraft, run: Run) {
    && input.direction == Inbound
    && input.id == run.latestInput.id && input.turnId == run.latestInput.id
    && input.channelId == run.channelId
    && input.endpointKind == KindOf(run.latestInput) && input.endpointId == run.latestInput.speakerId
    && input.text == run.latestInput.text && input.modality == run.latestInput.modality
  }

  /** `admitRunInput` */
  function AdmitRunInput(s: Store, input: TranscriptDraft, run: Run): Result<Admission> {
    var lineKey := InputKey(input.channelId, input.id);
    var inputKey := InputKey(run.channelId, run.latestInput.id);
    if !SoundTranscript(input) || !SoundRecord(run) then Err(BadRecord)
    else if lineKey in s.transcriptIds && s.transcriptIds[lineKey].draft != input then Err(TranscriptReused)
    else if inputKey in s.runInputs then
      if s.runInputs[inputKey] !in s.runs || lineKey !in s.transcriptIds then Err(CorruptIndex)
      else Ok(Admission(s, s.runs[s.runInputs[inputKey]], s.transcriptIds[lineKey], true))
    else if !Describes(input, run) then Err(InputMismatch)
    else if run.status != Active then Err(NotActive)
    else if run.id !in s.runs && run.lastSequence != 0 then Err(NotAtZero)
    else if run.id in s.runs && !Continues(s.runs[run.id], run) then Err(StaleContinuation)
    else Ok(Admitted(s, input, run))
  }

  predicate Continues(current: Run, run: Run) {
    && current.status == WaitingForInput
    && run.rootInputId == current.rootInputId
    && run.attempt == current.attempt + 1
    && run.lastSequence == current.lastSequence
  }

  function Admitted(s: Store, input: TranscriptDraft, run: Run): Admission {
    var lineKey := InputKey(input.channelId, input.id);
    var known := lineKey in s.transcriptIds;
    var line := if known then s.transcriptIds[lineKey] else Transcript(input, |Lines(s, input.channelId)| + 1);
    Admission(
      s.(runs := s.runs[run.id := run],
         runInputs := s.runInputs[InputKey(run.channelId, run.latestInput.id) := run.id],
         transcripts := if known then s.transcripts
           else s.transcripts[input.channelId := Lines(s, input.channelId) + [line]],
         transcriptIds := if known then s.transcriptIds else s.transcriptIds[lineKey := line]),
      run, line, false)
  }

  /** `saveRun`: a recovery attempt takes over an active run. */
  function SaveRun(s: Store, run: Run): Result<Saved> {
    if !SoundRecord(run) then Err(BadRecord)
    else if run.id !in s.runs then Err(UnknownRun)
    else if run.status != Active then Err(NotActive)
    else
      var current := s.runs[run.id];
      if current.status != Active || run.channelId != current.channelId || run.agentId != current.agentId
         || run.rootInputId != current.rootInputId || run.latestInput != current.latestInput
         || run.startedAt != current.startedAt || run.attempt != current.attempt + 1
         || run.lastSequence != current.lastSequence then Ok(Saved(s, false))
      else Ok(Saved(s.(runs := s.runs[run.id := run],
                       runInputs := s.runInputs[InputKey(run.channelId, run.latestInput.id) := run.id]), true))
  }

  /** `commitRunEvent`: appends one journal entry and stores the run that goes with it. */
  function CommitRunEvent(s: Store, next: Run, draft: Draft): Result<Appended> {
    var key := EventKey(draft.runId, draft.id);
    if !SoundRecord(next) || Blank(draft.id) || Blank(draft.runId) || Blank(draft.inputId) then Err(BadRecord)
    else if draft.runId !in s.runs then Err(UnknownRun)
    else
      var current := s.runs[draft.runId];
      if key in s.runEventIds then
        if s.runEventIds[key].draft != draft then Err(EventReused)
        else Ok(Appended(s, s.runEventIds[key], current, true))
      else if next.id != draft.runId || next.channelId != draft.channelId || next.agentId != draft.agentId
              || next.latestInput.id != draft.inputId then Err(EventMismatch)
      else if next.lastSequence != current.lastSequence then Err(StaleEvent)
      else
        var entry := Entry(draft, |Journal(s, draft.runId)| + 1);
        var settled := next.(lastSequence := entry.sequence, updatedAt := draft.recordedAt);
        Ok(Appended(
          s.(runs := s.runs[draft.runId := settled],
             runInputs := s.runInputs[InputKey(settled.channelId, settled.latestInput.id) := settled.id],
             runEvents := s.runEvents[draft.runId := Journal(s, draft.runId) + [entry]],
             runEventIds := s.runEventIds[key := entry]),
          entry, settled, false))
  }

  /** What `loadOpenRun` may return: an open run of the channel updated last, or None without one. */
  ghost predicate LoadsOpen(s: Store, channel: ChannelId, open: Option<Run>) {
    && (open.None? ==> forall id :: id in s.runs && IsOpen(s.runs[id]) ==> s.runs[id].channelId != channel)
    && (open.Some? ==>
          && (exists id :: id in s.runs && s.runs[id] == open.value)
          && IsOpen(open.value) && open.value.channelId == channel
          && forall id :: id in s.runs && IsOpen(s.runs[id]) && s.runs[id].channelId == channel ==>
               s.runs[id].updatedAt <= open.value.updatedAt)
  }
}
