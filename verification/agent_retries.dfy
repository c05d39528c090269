/** Repeated store calls, as a caller makes them that lost the answer, after any further steps of any
    party (src/room-agent-runtime.ts). */
module AgentRetries {
  import opened CodePoints
  import opened Wrappers
  import opened AgentStore
  import opened AgentRuns

  // ---- What no step takes back ----

  ghost predicate Grows(before: Store, after: Store) {
    && before.runs.Keys <= after.runs.Keys
    && (forall k :: k in before.runEventIds ==> k in after.runEventIds && after.runEventIds[k] == before.runEventIds[k])
    && (forall k :: k in before.transcriptIds ==>
          k in after.transcriptIds && after.transcriptIds[k] == before.transcriptIds[k])
  }

  lemma CommitGrows(s: Store, next: Run, draft: Draft)
    ensures var r := CommitRunEvent(s, next, draft); r.Ok? ==> Grows(s, r.value.store)
  {
    hide Blank, SoundRecord;
  }

  lemma SaveGrows(s: Store, run: Run)
    ensures var r := SaveRun(s, run); r.Ok? ==> Grows(s, r.value.store)
  {
    hide Blank, SoundRecord;
  }

  lemma AdmitGrows(s: Store, input: TranscriptDraft, run: Run)
    ensures var r := AdmitRunInput(s, input, run); r.Ok? ==> Grows(s, r.value.store)
  {
    hide Blank, SoundRecord, SoundTranscript, Describes, Continues;
  }

  lemma DoGrows(host: Host, w: World, step: Step)
    ensures Grows(w.store, Do(host, w, step).store)
  {
    hide CommitRunEvent, SaveRun, AdmitRunInput, Transition, DraftOf, LineOf, Looked, Correlation, Settled, LoadsOpen;
    match step
    case Append(who, eventId, at, event) =>
      if who in w.holders {
        CommitGrows(w.store, Transition(w.holders[who], event), DraftOf(w.holders[who], eventId, at, event));
      }
    case Resume(who, at) =>
      if who in w.holders {
        SaveGrows(w.store, w.holders[who].(attempt := w.holders[who].attempt + 1, updatedAt := at));
      }
    case Supersede(eventId, _, at) =>
      if w.lane.Superseding? {
        var run := w.lane.snapshot;
        CommitGrows(w.store, Transition(run, RunCanceled(SUPERSEDED)),
          DraftOf(run, eventId, at, RunCanceled(SUPERSEDED)));
      }
    case CloseCommit(eventId, at) =>
      if w.lane.Closing? && w.lane.loaded.Some? {
        var run := w.lane.loaded.value;
        CommitGrows(w.store, Transition(run, RunCanceled(SUPERSEDED)),
          DraftOf(run, eventId, at, RunCanceled(SUPERSEDED)));
      }
    case Admit(_) =>
      if w.lane.Admitting? { AdmitGrows(w.store, LineOf(w.lane.request, w.lane.run.latestInput), w.lane.run); }
    case _ =>
  }

  lemma {:induction false} AfterGrows(host: Host, w: World, steps: seq<Step>)
    ensures Grows(w.store, After(host, w, steps).store)
    decreases |steps|
  {
    hide Do;
    if steps != [] {
      DoGrows(host, w, steps[0]);
      AfterGrows(host, Do(host, w, steps[0]), steps[1..]);
    }
  }

  // ---- Commits ----

  /** A commit that was answered, repeated after any steps of any party: the same event is answered with
      the entry journaled for it and changes nothing, whatever happened to the run since; anything else
      under its id is refused. */
  lemma RetriedCommit(host: Host, w: World, next: Run, draft: Draft, steps: seq<Step>, again: Run, changed: Draft)
    requires CommitRunEvent(w.store, next, draft).Ok?
    requires SoundRecord(again) && changed.runId == draft.runId && changed.id == draft.id && !Blank(changed.inputId)
    ensures var first := CommitRunEvent(w.store, next, draft).value;
      var later := After(host, w.(store := first.store), steps).store;
      && draft.runId in later.runs
      && CommitRunEvent(later, again, changed)
         == if changed == draft
            then Ok(Appended(later, first.entry, later.runs[draft.runId], true)) else Err(EventReused)
  {
    hide After, SoundRecord, Blank;
    var first := CommitRunEvent(w.store, next, draft).value;
    AfterGrows(host, w.(store := first.store), steps);
    assert draft.runId in first.store.runs.Keys;
    assert EventKey(draft.runId, draft.id) in first.store.runEventIds;
  }

  // ---- Which run an input belongs to ----

  /** The latest input of the run leads to it. */
  ghost predicate Owning(s: Store, run: Run) {
    var key := InputKey(run.channelId, run.latestInput.id);
    key in s.runInputs && s.runInputs[key] == run.id
  }

  ghost predicate OwnedStore(s: Store) {
    forall id :: id in s.runs ==> s.runs[id].id == id && SoundRecord(s.runs[id]) && Owning(s, s.runs[id])
  }

  ghost predicate OwnedLane(s: Store, lane: Lane) {
    match lane
    case Superseding(_, _, snapshot) => Owning(s, snapshot)
    case Closing(_, _, _, loaded) => loaded.Some? ==> Owning(s, loaded.value)
    case _ => true
  }

  ghost predicate Owned(w: World) {
    && OwnedStore(w.store) && OwnedLane(w.store, w.lane)
    && forall who :: who in w.holders ==> Owning(w.store, w.holders[who])
  }

  ghost predicate InputsStay(before: Store, after: Store) {
    forall k :: k in before.runInputs ==> k in after.runInputs && after.runInputs[k] == before.runInputs[k]
  }

  lemma InputsKeepOwning(before: Store, after: Store)
    requires InputsStay(before, after)
    ensures forall run :: Owning(before, run) ==> Owning(after, run)
    ensures forall lane :: OwnedLane(before, lane) ==> OwnedLane(after, lane)
  {
    forall run | Owning(before, run) ensures Owning(after, run) {}
    forall lane | OwnedLane(before, lane) ensures OwnedLane(after, lane) {}
  }

  /** What commits and saves of a run that owns its input keep. */
  ghost predicate Keeps(before: Store, after: Store) { InputsStay(before, after) && OwnedStore(after) }

  lemma CommitKeeps(s: Store, run: Run, eventId: string, at: int, event: RunEvent)
    requires OwnedStore(s) && Owning(s, run)
    ensures var r := Commit(s, run, eventId, at, event);
      r.Ok? ==> Keeps(s, r.value.store) && Owning(r.value.store, r.value.run)
  {
    hide Blank;
  }

  lemma SaveKeeps(s: Store, run: Run)
    requires OwnedStore(s) && Owning(s, run)
    ensures var r := SaveRun(s, run); r.Ok? ==> Keeps(s, r.value.store)
  {
    hide Blank, SoundRecord;
  }

  lemma AdmitKeeps(s: Store, input: TranscriptDraft, run: Run)
    requires OwnedStore(s)
    ensures var r := AdmitRunInput(s, input, run);
      r.Ok? ==> Keeps(s, r.value.store) && (r.value.duplicate || Owning(r.value.store, r.value.run))
  {
    hide Blank, SoundRecord, SoundTranscript, Describes, Continues;
  }

  lemma AppendOwned(w: World, who: nat, eventId: string, at: int, event: RunEvent)
    requires Owned(w) && who in w.holders
    ensures InputsStay(w.store, AppendStep(w, who, eventId, at, event).store)
    ensures Owned(AppendStep(w, who, eventId, at, event))
  {
    hide Commit, OwnedStore, OwnedLane, Owning, InputsStay;
    CommitKeeps(w.store, w.holders[who], eventId, at, event);
    var r := Commit(w.store, w.holders[who], eventId, at, event);
    Unmoved(w.store);
    if r.Ok? { InputsKeepOwning(w.store, r.value.store); }
  }

  lemma Unmoved(s: Store)
    ensures InputsStay(s, s)
  {
  }

  lemma ResumeOwned(w: World, who: nat, at: int)
    requires Owned(w) && who in w.holders
    ensures InputsStay(w.store, ResumeStep(w, who, at).store)
    ensures Owned(ResumeStep(w, who, at))
  {
    hide SaveRun, OwnedStore, OwnedLane, InputsStay;
    var run := w.holders[who].(attempt := w.holders[who].attempt + 1, updatedAt := at);
    SaveKeeps(w.store, run);
    var r := SaveRun(w.store, run);
    Unmoved(w.store);
    if r.Ok? { InputsKeepOwning(w.store, r.value.store); }
  }

  /** A run that settled or was correlated is not committed from any more. */
  lemma SettledOwned(host: Host, s: Store, request: Request, correlated: Run, run: Run, newId: RunId, at: int)
    ensures OwnedLane(s, Settled(host, request, correlated, run, newId, at))
  {
    hide Owning;
  }

  lemma CorrelationOwned(
    host: Host, s: Store, request: Request, open: Option<Run>, correlated: Run, newId: RunId, at: int)
    ensures OwnedLane(s, Correlation(host, request, open, correlated, newId, at))
  {
    hide Owning;
  }

  lemma ProofOwned(host: Host, s: Store, request: Request, correlated: Run, newId: RunId, at: int)
    ensures OwnedLane(s, Choose(host, request, Some(correlated), None, newId, at))
  {
    hide Owning;
  }

  lemma SupersedeOwned(host: Host, w: World, eventId: string, newId: RunId, at: int)
    requires Owned(w) && w.lane.Superseding?
    ensures InputsStay(w.store, SupersedeStep(host, w, eventId, newId, at).store)
    ensures Owned(SupersedeStep(host, w, eventId, newId, at))
  {
    hide Commit, OwnedStore, Owning, InputsStay, Settled;
    var snapshot := w.lane.snapshot;
    CommitKeeps(w.store, snapshot, eventId, at, RunCanceled(SUPERSEDED));
    var r := Commit(w.store, snapshot, eventId, at, RunCanceled(SUPERSEDED));
    Unmoved(w.store);
    if r.Ok? {
      InputsKeepOwning(w.store, r.value.store);
      SettledOwned(host, r.value.store, w.lane.request, w.lane.correlated, r.value.run, newId, at);
    }
  }

  lemma StoredOwns(s: Store, id: RunId)
    requires OwnedStore(s) && id in s.runs
    ensures s.runs[id].id == id && SoundRecord(s.runs[id]) && Owning(s, s.runs[id])
  {
  }

  lemma CloseOwned(w: World, eventId: string, at: int)
    requires Owned(w) && w.lane.Closing? && w.lane.loaded.Some?
    ensures InputsStay(w.store, CloseCommitStep(w, eventId, at).store)
    ensures Owned(CloseCommitStep(w, eventId, at))
  {
    hide Commit, OwnedStore, Owning, InputsStay;
    CommitKeeps(w.store, w.lane.loaded.value, eventId, at, RunCanceled(SUPERSEDED));
    var r := Commit(w.store, w.lane.loaded.value, eventId, at, RunCanceled(SUPERSEDED));
    Unmoved(w.store);
    if r.Ok? { InputsKeepOwning(w.store, r.value.store); }
  }

  lemma AdmitOwned(w: World, who: nat)
    requires Owned(w) && w.lane.Admitting?
    ensures InputsStay(w.store, AdmitStep(w, who).store)
    ensures Owned(AdmitStep(w, who))
  {
    hide AdmitRunInput, OwnedStore, Owning, InputsStay;
    var line := LineOf(w.lane.request, w.lane.run.latestInput);
    AdmitKeeps(w.store, line, w.lane.run);
    var r := AdmitRunInput(w.store, line, w.lane.run);
    Unmoved(w.store);
    if r.Ok? { InputsKeepOwning(w.store, r.value.store); }
  }

  lemma LookOwned(host: Host, w: World, open: Option<Run>, newId: RunId, at: int)
    requires w.lane.Looking?
    ensures OwnedLane(w.store, Looked(host, w.lane.request, open, newId, at))
  {
    hide Owning, ContinuationHolds;
  }

  /** Every step leaves each input with the run it was admitted to. */
  lemma DoOwned(host: Host, w: World, step: Step)
    requires Owned(w)
    ensures Owned(Do(host, w, step)) && InputsStay(w.store, Do(host, w, step).store)
  {
    hide OwnedStore, Owning, InputsStay, AppendStep, ResumeStep, SupersedeStep, CloseCommitStep, AdmitStep, Looked,
         Correlation, Settled, LoadsOpen;
    Unmoved(w.store);
    match step
    case Load(_, id) => if id in w.store.runs { StoredOwns(w.store, id); }
    case Append(who, eventId, at, event) => AppendElsewhere(w, who, eventId, at, event);
    case Resume(who, at) => ResumeElsewhere(w, who, at);
    case Look(open, newId, at) => if w.lane.Looking? { LookOwned(host, w, open, newId, at); }
    case Correlate(newId, at) =>
      if w.lane.Correlating? && Correlated(w.store, w.lane.request) {
        var correlated := w.store.runs[w.lane.request.supersession.value.runId];
        CorrelationOwned(host, w.store, w.lane.request, w.lane.open, correlated, newId, at);
      }
    case Recall(newId, at) =>
      if w.lane.Recalling? && w.lane.correlated.id in w.store.runs {
        StoredOwns(w.store, w.lane.correlated.id);
        SettledOwned(host, w.store, w.lane.request, w.lane.correlated, w.store.runs[w.lane.correlated.id], newId, at);
      }
    case Supersede(eventId, newId, at) => if w.lane.Superseding? { SupersedeOwned(host, w, eventId, newId, at); }
    case Recover(newId, at) =>
      if w.lane.Recovering? && w.lane.snapshot.id in w.store.runs {
        StoredOwns(w.store, w.lane.snapshot.id);
        SettledOwned(host, w.store, w.lane.request, w.lane.correlated, w.store.runs[w.lane.snapshot.id], newId, at);
      }
    case Prove(newId, at) =>
      if w.lane.Proving? { ProofOwned(host, w.store, w.lane.request, w.lane.correlated, newId, at); }
    case CloseLoad =>
      if w.lane.Closing? && w.lane.target in w.store.runs { StoredOwns(w.store, w.lane.target); }
    case CloseCommit(eventId, at) => if w.lane.Closing? && w.lane.loaded.Some? { CloseOwned(w, eventId, at); }
    case Admit(who) => if w.lane.Admitting? { AdmitOwned(w, who); }
    case _ =>
  }

  lemma AppendElsewhere(w: World, who: nat, eventId: string, at: int, event: RunEvent)
    requires Owned(w)
    ensures Owned(AppendStep(w, who, eventId, at, event))
    ensures InputsStay(w.store, AppendStep(w, who, eventId, at, event).store)
  {
    if who in w.holders { AppendOwned(w, who, eventId, at, event); }
  }

  lemma ResumeElsewhere(w: World, who: nat, at: int)
    requires Owned(w)
    ensures Owned(ResumeStep(w, who, at)) && InputsStay(w.store, ResumeStep(w, who, at).store)
  {
    if who in w.holders { ResumeOwned(w, who, at); }
  }

  lemma {:induction false} AfterOwned(host: Host, w: World, steps: seq<Step>)
    requires Owned(w)
    ensures Owned(After(host, w, steps)) && InputsStay(w.store, After(host, w, steps).store)
    decreases |steps|
  {
    hide Owned, Do;
    if steps != [] {
      DoOwned(host, w, steps[0]);
      AfterOwned(host, Do(host, w, steps[0]), steps[1..]);
    }
  }

  // ---- Admissions ----

  /** An admission that was answered in any reachable room, repeated after any further steps of any
      party, with the run first sent or with the run as it is then stored, finds the run the input was
      admitted to and its transcript line, and changes nothing. */
  lemma RetriedAdmission(host: Host, before: seq<Step>, input: TranscriptDraft, run: Run, after: seq<Step>)
    requires AdmitRunInput(After(host, NEW_ROOM, before).store, input, run).Ok?
    ensures var w := After(host, NEW_ROOM, before);
      var first := AdmitRunInput(w.store, input, run).value;
      var later := After(host, w.(store := first.store), after).store;
      && first.run.id in later.runs
      && var found := later.runs[first.run.id];
         && AdmitRunInput(later, input, run) == Ok(Admission(later, found, first.transcript, true))
         && AdmitRunInput(later, input, found) == Ok(Admission(later, found, first.transcript, true))
  {
    hide After, AdmitRunInput, OwnedStore, Owning, InputsStay, Grows;
    var w := After(host, NEW_ROOM, before);
    NewRoomOwned();
    AfterOwned(host, NEW_ROOM, before);
    var first := AdmitRunInput(w.store, input, run).value;
    AdmitKeeps(w.store, input, run);
    InputsKeepOwning(w.store, first.store);
    var next := w.(store := first.store);
    AfterOwned(host, next, after);
    AfterGrows(host, next, after);
    AdmittedFound(w.store, input, run, After(host, next, after).store);
  }

  lemma NewRoomOwned()
    ensures Owned(NEW_ROOM)
  {
  }

  lemma AdmittedFound(s: Store, input: TranscriptDraft, run: Run, later: Store)
    requires OwnedStore(s) && AdmitRunInput(s, input, run).Ok? && OwnedStore(later)
    requires var first := AdmitRunInput(s, input, run).value;
      InputsStay(first.store, later) && Grows(first.store, later)
    ensures var first := AdmitRunInput(s, input, run).value;
      && first.run.id in later.runs
      && var found := later.runs[first.run.id];
         && AdmitRunInput(later, input, run) == Ok(Admission(later, found, first.transcript, true))
         && AdmitRunInput(later, input, found) == Ok(Admission(later, found, first.transcript, true))
  {
    hide Blank, SoundRecord, SoundTranscript, Describes, Continues;
    var first := AdmitRunInput(s, input, run).value;
    assert first.run.id in first.store.runs.Keys;
    assert InputKey(run.channelId, run.latestInput.id) in first.store.runInputs;
    assert InputKey(input.channelId, input.id) in first.store.transcriptIds;
  }
}
