/** The in-memory store as an object: each method updates its maps in place exactly as the store
    functions say (`InMemoryRoomAgentRuntimeStore` in src/room-agent-runtime.ts). */
module AgentMemoryStore {
  import opened CodePoints
  import opened Wrappers
  import opened AgentStore

  class InMemoryRoomAgentRuntimeStore {
    var runs: map<RunId, Run>
    var runInputs: map<InputKey, RunId>
    var runEvents: map<RunId, seq<Entry>>
    var runEventIds: map<EventKey, Entry>
    var transcripts: map<ChannelId, seq<Transcript>>
    var transcriptIds: map<InputKey, Transcript>

    function Contents(): Store
      reads this
    {
      Store(runs, runInputs, runEvents, runEventIds, transcripts, transcriptIds)
    }

    constructor ()
      ensures Contents() == EMPTY
    {
      runs, runInputs, runEvents, runEventIds, transcripts, transcriptIds := map[], map[], map[], map[], map[], map[];
    }

    method AdmitRunInput(input: TranscriptDraft, run: Run) returns (r: Result<(Run, Transcript, bool)>)
      modifies this
      ensures var spec := AgentStore.AdmitRunInput(old(Contents()), input, run);
        && (r.Ok? <==> spec.Ok?)
        && (r.Ok? ==>
              && r.value == (spec.value.run, spec.value.transcript, spec.value.duplicate)
              && Contents() == spec.value.store)
        && (r.Err? ==> r.error == spec.error && unchanged(this))
    {
      if !SoundTranscript(input) || !SoundRecord(run) { return Err(BadRecord); }
      var lineKey := InputKey(input.channelId, input.id);
      if lineKey in transcriptIds && transcriptIds[lineKey].draft != input { return Err(TranscriptReused); }
      var inputKey := InputKey(run.channelId, run.latestInput.id);
      if inputKey in runInputs {
        if runInputs[inputKey] !in runs || lineKey !in transcriptIds { return Err(CorruptIndex); }
        return Ok((runs[runInputs[inputKey]], transcriptIds[lineKey], true));
      }
      if !Describes(input, run) { return Err(InputMismatch); }
      if run.status != Active { return Err(NotActive); }
      if run.id !in runs {
        if run.lastSequence != 0 { return Err(NotAtZero); }
      } else if !Continues(runs[run.id], run) {
        return Err(StaleContinuation);
      }
      var lines := if input.channelId in transcripts then transcripts[input.channelId] else [];
      var line := if lineKey in transcriptIds then transcriptIds[lineKey] else Transcript(input, |lines| + 1);
      if lineKey !in transcriptIds {
        transcripts := transcripts[input.channelId := lines + [line]];
        transcriptIds := transcriptIds[lineKey := line];
      }
      runs := runs[run.id := run];
      runInputs := runInputs[inputKey := run.id];
      r := Ok((run, line, false));
    }

    method SaveRun(run: Run) returns (r: Result<bool>)
      modifies this
      ensures var spec := AgentStore.SaveRun(old(Contents()), run);
        && (r.Ok? <==> spec.Ok?)
        && (r.Ok? ==> r.value == spec.value.acquired && Contents() == spec.value.store)
        && (r.Err? ==> r.error == spec.error && unchanged(this))
    {
      if !SoundRecord(run) { return Err(BadRecord); }
      if run.id !in runs { return Err(UnknownRun); }
      if run.status != Active { return Err(NotActive); }
      var current := runs[run.id];
      if current.status != Active || run.channelId != current.channelId || run.agentId != current.agentId
         || run.rootInputId != current.rootInputId || run.latestInput != current.latestInput
         || run.startedAt != current.startedAt || run.attempt != current.attempt + 1
         || run.lastSequence != current.lastSequence {
        return Ok(false);
      }
      runs := runs[run.id := run];
      runInputs := runInputs[InputKey(run.channelId, run.latestInput.id) := run.id];
      r := Ok(true);
    }

    method LoadOpenRun(channel: ChannelId) returns (open: Option<Run>)
      ensures LoadsOpen(Contents(), channel, open)
    {
      open := None;
      var left := runs.Keys;
      while left != {}
        invariant left <= runs.Keys
        invariant open.None? ==>
          forall id :: id in runs && id !in left && IsOpen(runs[id]) ==> runs[id].channelId != channel
        invariant open.Some? ==>
          && (exists id :: id in runs && runs[id] == open.value) && IsOpen(open.value)
            && open.value.channelId == channel
          && forall id :: id in runs && id !in left && IsOpen(runs[id]) && runs[id].channelId == channel ==>
               runs[id].updatedAt <= open.value.updatedAt
        decreases |left|
      {
        var id :| id in left;
        left := left - {id};
        if IsOpen(runs[id]) && runs[id].channelId == channel
           && (open.None? || open.value.updatedAt < runs[id].updatedAt) {
          open := Some(runs[id]);
        }
      }
    }

    method CommitRunEvent(next: Run, draft: Draft) returns (r: Result<(Entry, Run, bool)>)
      modifies this
      ensures var spec := AgentStore.CommitRunEvent(old(Contents()), next, draft);
        && (r.Ok? <==> spec.Ok?)
        && (r.Ok? ==>
              && r.value == (spec.value.entry, spec.value.run, spec.value.duplicate)
              && Contents() == spec.value.store)
        && (r.Err? ==> r.error == spec.error && unchanged(this))
    {
      if !SoundRecord(next) || Blank(draft.id) || Blank(draft.runId) || Blank(draft.inputId) { return Err(BadRecord); }
      if draft.runId !in runs { return Err(UnknownRun); }
      var current, key := runs[draft.runId], EventKey(draft.runId, draft.id);
      if key in runEventIds {
        if runEventIds[key].draft != draft { return Err(EventReused); }
        return Ok((runEventIds[key], current, true));
      }
      if next.id != draft.runId || next.channelId != draft.channelId || next.agentId != draft.agentId
         || next.latestInput.id != draft.inputId {
        return Err(EventMismatch);
      }
      if next.lastSequence != current.lastSequence { return Err(StaleEvent); }
      var events := if draft.runId in runEvents then runEvents[draft.runId] else [];
      var entry := Entry(draft, |events| + 1);
      var settled := next.(lastSequence := entry.sequence, updatedAt := draft.recordedAt);
      runEvents := runEvents[draft.runId := events + [entry]];
      runEventIds := runEventIds[key := entry];
      runs := runs[draft.runId := settled];
      runInputs := runInputs[InputKey(settled.channelId, settled.latestInput.id) := settled.id];
      r := Ok((entry, settled, false));
    }
  }
}
