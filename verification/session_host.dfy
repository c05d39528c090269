/** The host lane prepare, persist, commit, publish and its event store (src/session-host.ts). The
    lane runs one operation at a time, so an operation is one method call; what the outside may do
    to it (a failing store, a publisher that fails after some batches) are its parameters. */
module SessionHosts {
  import opened SessionTypes
  import opened SessionSpec
  import opened SessionRehydrate
  import opened SessionRuns
  import opened SessionDeltas
  import opened SessionKernels

  // ---- The event store ----

  datatype Stored = Stored(canonical: string, event: Event)

  /** The events of a batch that a store holding `known` still has to append. */
  function Unknown(events: seq<Event>, known: set<EventId>): seq<Event>
    decreases |events|
  {
    if events == [] then []
    else if events[0].eventId in known then Unknown(events[1..], known)
    else [events[0]] + Unknown(events[1..], known + {events[0].eventId})
  }

  function Ids(events: seq<Event>): seq<EventId>
    decreases |events|
  {
    if events == [] then [] else [events[0].eventId] + Ids(events[1..])
  }

  lemma UnknownStep(events: seq<Event>, i: nat, known: set<EventId>)
    requires i < |events|
    ensures Unknown(events[i..], known)
         == if events[i].eventId in known then Unknown(events[i + 1..], known)
            else [events[i]] + Unknown(events[i + 1..], known + {events[i].eventId})
  {
    assert events[i..][1..] == events[i + 1..];
  }

  lemma NothingUnknown(known: set<EventId>)
    ensures Unknown([], known) == []
  {
  }

  class InMemorySessionEventStore {
    const canonical: Event -> string
    var byId: map<EventId, Stored>
    var order: seq<EventId>

    ghost predicate Valid()
      reads this
    {
      && (forall id :: id in byId <==> id in order)
      && (forall i, j :: 0 <= i < j < |order| ==> order[i] != order[j])
      && (forall id :: id in byId ==>
            byId[id].event.eventId == id && byId[id].canonical == canonical(byId[id].event))
    }

    /** `load` */
    function Load(): (events: seq<Event>)
      requires Valid()
      reads this
      ensures |events| == |order| && forall i :: 0 <= i < |order| ==> events[i] == byId[order[i]].event
    {
      seq(|order|, i requires 0 <= i < |order| && Valid() reads this => byId[order[i]].event)
    }

    /** Some event of the batch has the id of a stored event but other canonical bytes. */
    ghost predicate Conflicts(events: seq<Event>)
      reads this
    {
      exists i :: 0 <= i < |events| && events[i].eventId in byId
                  && byId[events[i].eventId].canonical != canonical(events[i])
    }

    constructor (canonical: Event -> string)
      ensures Valid() && Load() == [] && this.canonical == canonical
    {
      this.canonical := canonical;
      byId, order := map[], [];
    }

    /** Appends what is new of a batch, or refuses the whole batch. */
    method Persist(events: seq<Event>) returns (ok: bool)
      requires Valid()
      modifies this
      ensures Valid()
      ensures !ok <==> old(Conflicts(events))
      ensures !ok ==> unchanged(this)
      ensures ok ==> Load() == old(Load()) + Unknown(events, old(byId).Keys)
    {
      var i := 0;
      while i < |events|
        invariant 0 <= i <= |events|
        invariant forall j :: 0 <= j < i && events[j].eventId in byId ==>
          byId[events[j].eventId].canonical == canonical(events[j])
      {
        var id := events[i].eventId;
        if id in byId && byId[id].canonical != canonical(events[i]) { return false; }
        i := i + 1;
      }
      Append(events);
      ok := true;
    }

    /** The second loop of `persist`. */
    method Append(events: seq<Event>)
      requires Valid()
      modifies this
      ensures Valid() && Load() == old(Load()) + Unknown(events, old(byId).Keys)
    {
      hide Unknown;
      var i := 0;
      ghost var first, added := Load(), [];
      assert events[0..] == events && first + [] == first;
      NothingUnknown(byId.Keys);
      while i < |events|
        invariant 0 <= i <= |events| && Valid() && Load() == first + added
        invariant Unknown(events, old(byId).Keys) == added + Unknown(events[i..], byId.Keys)
      {
        UnknownStep(events, i, byId.Keys);
        if events[i].eventId !in byId {
          AppendOne(events[i]);
          added := added + [events[i]];
        }
        i := i + 1;
      }
      assert events[i..] == [] && added + [] == added;
      NothingUnknown(byId.Keys);
    }

    method AppendOne(e: Event)
      requires Valid() && e.eventId !in byId
      modifies this
      ensures Valid() && Load() == old(Load()) + [e] && byId.Keys == old(byId).Keys + {e.eventId}
    {
      byId := byId[e.eventId := Stored(canonical(e), e)];
      order := order + [e.eventId];
    }
  }

  /** Events with new, distinct ids are all appended. */
  lemma {:induction false} AllUnknown(events: seq<Event>, known: set<EventId>)
    requires forall i :: 0 <= i < |events| ==> events[i].eventId !in known
    requires forall i, j :: 0 <= i < j < |events| ==> events[i].eventId != events[j].eventId
    ensures Unknown(events, known) == events
    decreases |events|
  {
    if events != [] {
      AllUnknown(events[1..], known + {events[0].eventId});
      assert events == [events[0]] + events[1..];
    }
  }

  /** A retry of stored events appends nothing. */
  lemma {:induction false} NoneUnknown(events: seq<Event>, known: set<EventId>)
    requires forall i :: 0 <= i < |events| ==> events[i].eventId in known
    ensures Unknown(events, known) == []
    decreases |events|
  {
    if events != [] { NoneUnknown(events[1..], known); }
  }

  // ---- Event identities over a run ----

  ghost predicate Numbered(o: Options, live: KernelState) {
    forall i :: 0 <= i < |live.events| ==> live.events[i].eventId.transitionRevision <= live.transitionRevision
  }

  lemma StepNumbered(o: Options, h: Lookup, session: Session, r: Request)
    requires InStep(o, session.kernel.live) && Numbered(o, session.kernel.live)
    ensures var after := Step(o, h, session, r).kernel.live; InStep(o, after) && Numbered(o, after)
  {
    hide Prepare, InStep, RecordKeys, RecordInterest;
    var p := Prepare(o, h, session, r);
    if p.Ok? {
      InStepSound(o, session.kernel.live);
      PreparedInStep(o, h, session, r);
      PreparedFinish(o, h, session, r);
      if !p.value.noop {
        var before, after := session.kernel.live.events, Commit(session, p.value).kernel.live.events;
        forall i | 0 <= i < |after| ensures after[i].eventId.transitionRevision <= p.value.next {
          if i >= |before| { assert after[i] == p.value.events[i - |before|]; }
        }
      }
    }
  }

  lemma {:induction false} RunNumbered(o: Options, h: Lookup, session: Session, requests: seq<Request>)
    requires InStep(o, session.kernel.live) && Numbered(o, session.kernel.live)
    ensures var after := Run(o, h, session, requests).kernel.live; InStep(o, after) && Numbered(o, after)
    decreases |requests|
  {
    hide Step, InStep, Numbered;
    if requests != [] {
      StepNumbered(o, h, session, requests[0]);
      RunNumbered(o, h, Step(o, h, session, requests[0]), requests[1..]);
    }
  }

  /** The events of a prepared transition carry ids the log does not have yet. */
  lemma PreparedIdsFresh(o: Options, h: Lookup, committed: seq<Request>, r: Request)
    requires ValidOptions(o) && Prepare(o, h, Run(o, h, Open(o), committed), r).Ok?
    ensures var session := Run(o, h, Open(o), committed);
      var p := Prepare(o, h, session, r).value;
      && (forall i :: 0 <= i < |p.events| ==> p.events[i].eventId !in Ids(session.kernel.live.events))
      && (forall i, j :: 0 <= i < j < |p.events| ==> p.events[i].eventId != p.events[j].eventId)
      && Commit(session, p).kernel.live.events == session.kernel.live.events + p.events
  {
    hide Run, Prepare, InStep, Open, RecordKeys, RecordInterest;
    var session := Run(o, h, Open(o), committed);
    OpenNumbered(o);
    RunNumbered(o, h, Open(o), committed);
    InStepSound(o, session.kernel.live);
    PreparedFinish(o, h, session, r);
    PreparedNoop(o, h, session, r);
    var p := Prepare(o, h, session, r).value;
    IdsOf(session.kernel.live.events);
    assert session.kernel.live.events + [] == session.kernel.live.events;
  }

  lemma OpenNumbered(o: Options)
    requires ValidOptions(o)
    ensures InStep(o, Open(o).kernel.live) && Numbered(o, Open(o).kernel.live)
  {
    hide WindowFor;
    WindowForSound(o, o.initialState, 0);
  }

  lemma PreparedNoop(o: Options, h: Lookup, session: Session, r: Request)
    requires WindowSound(session.kernel.live.window)
    ensures var p := Prepare(o, h, session, r); p.Ok? && p.value.noop ==> p.value.events == []
  {
    hide Prepare;
    PreparedReplays(o, h, session, r, 0);
  }

  lemma {:induction false} IdsOf(events: seq<Event>)
    ensures |Ids(events)| == |events| && forall i :: 0 <= i < |events| ==> Ids(events)[i] == events[i].eventId
    decreases |events|
  {
    if events != [] { IdsOf(events[1..]); }
  }

  // ---- The lane ----

  /** The non-empty delta batches of the committed requests, in commit order. */
  ghost function Batches(o: Options, h: Lookup, session: Session, requests: seq<Request>): seq<seq<Delta>>
    decreases |requests|
  {
    if requests == [] then []
    else match Prepare(o, h, session, requests[0])
      case Err(_) => Batches(o, h, session, requests[1..])
      case Ok(p) => (if p.deltas == [] then [] else [p.deltas]) + Batches(o, h, Commit(session, p), requests[1..])
  }

  lemma NoBatches(o: Options, h: Lookup, session: Session)
    ensures Batches(o, h, session, []) == []
  {
  }

  lemma {:induction false} BatchesSnoc(o: Options, h: Lookup, session: Session, requests: seq<Request>, r: Request)
    ensures var p := Prepare(o, h, Run(o, h, session, requests), r);
      Batches(o, h, session, requests + [r])
      == Batches(o, h, session, requests) + if p.Ok? && p.value.deltas != [] then [p.value.deltas] else []
    decreases |requests|
  {
    hide Prepare, Commit;
    if requests == [] {
      assert [] + [r] == [r] && [r][1..] == [];
    } else {
      assert (requests + [r])[1..] == requests[1..] + [r];
      BatchesSnoc(o, h, Step(o, h, session, requests[0]), requests[1..], r);
    }
  }

  function Concat(batches: seq<seq<Delta>>): seq<Delta> {
    if batches == [] then [] else batches[0] + Concat(batches[1..])
  }

  /** The batches are the published deltas, cut at the commits. */
  lemma {:induction false} BatchesAreDeltas(o: Options, h: Lookup, session: Session, requests: seq<Request>)
    ensures Concat(Batches(o, h, session, requests)) == Published(o, h, session, requests)
    decreases |requests|
  {
    hide Prepare, Commit;
    if requests != [] {
      BatchesAreDeltas(o, h, Step(o, h, session, requests[0]), requests[1..]);
      var p := Prepare(o, h, session, requests[0]);
      if p.Ok? && p.value.deltas != [] {
        var rest := Batches(o, h, Commit(session, p.value), requests[1..]);
        assert ([p.value.deltas] + rest)[1..] == rest;
      } else if p.Ok? {
        var rest := Batches(o, h, Commit(session, p.value), requests[1..]);
        assert [] + rest == rest && [] + Published(o, h, Commit(session, p.value), requests[1..])
                                    == Published(o, h, Commit(session, p.value), requests[1..]);
      }
    }
  }

  datatype HostOutcome =
    | Done(outcome: Outcome)
    | PublishFailed(committed: bool)
    | PrepareFailed(error: Error)
    | StoreFailed

  class SessionKernelHost {
    const kernel: SessionKernel
    const store: InMemorySessionEventStore
    var publicationQueue: seq<seq<Delta>>
    /** The batches the publisher took, in order. */
    ghost var published: seq<seq<Delta>>

    ghost predicate Valid()
      reads this, kernel, kernel.issued, store
    {
      && kernel.Valid() && store.Valid()
      && store.Load() == kernel.live.events
      && published + publicationQueue
         == Batches(kernel.o, kernel.historyLookup, SessionSpec.Open(kernel.o), kernel.committed)
    }

    constructor (o: Options, historyLookup: Lookup, validates: bool, canonical: Event -> string)
      requires ValidOptions(o)
      ensures Valid() && fresh(this) && fresh(kernel) && fresh(store) && kernel.committed == [] && published == []
    {
      hide Run, Step, ValidOptions, Seated, Accounted, Placed, SessionSpec.Prepare;
      kernel := new SessionKernel(o, historyLookup, validates);
      store := new InMemorySessionEventStore(canonical);
      publicationQueue := [];
      published := [];
      NoBatches(o, historyLookup, SessionSpec.Open(o));
    }

    /** Publishes queued batches in order until the publisher fails; it takes `successes` calls. */
    method FlushPublicationQueue(successes: nat) returns (ok: bool)
      modifies this
      ensures published + publicationQueue == old(published + publicationQueue)
      ensures ok <==> successes >= |old(publicationQueue)|
      ensures |publicationQueue| == if ok then 0 else |old(publicationQueue)| - successes
    {
      var left: nat := successes;
      while |publicationQueue| > 0
        invariant published + publicationQueue == old(published + publicationQueue)
        invariant |publicationQueue| + successes == |old(publicationQueue)| + left && left <= successes
      {
        if left == 0 { return false; }
        var batch := publicationQueue[0];
        assert published + publicationQueue == published + [batch] + publicationQueue[1..];
        published := published + [batch];
        publicationQueue := publicationQueue[1..];
        left := left - 1;
      }
      assert |publicationQueue| == 0;
      ok := true;
    }

    /** One operation of the lane. The store fails without effect unless `stored`; the publisher
        takes `before` and `after` batches in the two flushes. */
    method Enqueue(r: Request, replaced: bool, before: nat, stored: bool, after: nat) returns (result: HostOutcome)
      requires Valid()
      modifies this, kernel, store
      ensures Valid()
      ensures kernel.committed == old(kernel.committed)
              + if result.Done? || (result.PublishFailed? && result.committed) then [r] else []
      ensures result.PublishFailed? && !result.committed <==> before < |old(publicationQueue)|
      ensures result.PrepareFailed? ==>
        SessionSpec.Prepare(kernel.o, kernel.historyLookup, old(kernel.Current()), r) == Err(result.error)
      ensures result.StoreFailed? ==> !stored
      ensures result.Done? ==>
        && publicationQueue == [] && stored
        && SessionSpec.Prepare(kernel.o, kernel.historyLookup, old(kernel.Current()), r).Ok?
        && result.outcome == SessionSpec.Prepare(kernel.o, kernel.historyLookup, old(kernel.Current()), r).value.outcome
    {
      hide Run, SessionSpec.Prepare, ValidOptions, Batches, Placed, Accounted, Seated, Step, SessionSpec.Open;
      var flushed := FlushPublicationQueue(before);
      if !flushed { return PublishFailed(false); }
      var prepared := kernel.Prepare(r, replaced);
      if prepared.Err? { return PrepareFailed(prepared.error); }
      var t := prepared.value;
      var persisted := Persist(t, stored);
      if !persisted {
        var aborted := kernel.Abort(t);
        return StoreFailed;
      }
      CommitAndQueue(t);
      var sent := FlushPublicationQueue(after);
      result := if sent then Done(t.prepared.outcome) else PublishFailed(true);
    }

    /** The events of a transition prepared from the live state never conflict with stored ones. */
    method Persist(t: Transition, stored: bool) returns (persisted: bool)
      requires Valid() && Ready(t)
      modifies store
      ensures store.Valid() && (persisted <==> stored)
      ensures store.Load() == kernel.live.events + if stored then t.prepared.events else []
    {
      hide Run, SessionSpec.Prepare, ValidOptions, Batches, Placed, Accounted, Seated, Step, Ids, SessionSpec.Open;
      PreparedIdsFresh(kernel.o, kernel.historyLookup, kernel.committed, t.request);
      StoredIds(store);
      AllUnknown(t.prepared.events, store.byId.Keys);
      persisted := stored;
      assert store.Load() + [] == store.Load();
      if stored { persisted := store.Persist(t.prepared.events); }
    }

    /** An undecided transition of the kernel, prepared from its live state. */
    ghost predicate Ready(t: Transition)
      reads kernel, t
    {
      t in kernel.issued && t.owner == kernel && t.completion == Undecided && t.origin == kernel.Current()
    }

    /** Installs a persisted transition and queues its deltas. */
    method CommitAndQueue(t: Transition)
      requires kernel.Valid() && store.Valid() && Ready(t)
      requires store.Load() == kernel.live.events + t.prepared.events
      requires published + publicationQueue
        == Batches(kernel.o, kernel.historyLookup, SessionSpec.Open(kernel.o), kernel.committed)
      modifies this, kernel, t
      ensures Valid() && kernel.committed == old(kernel.committed) + [t.request]
      ensures kernel.issued == old(kernel.issued)
    {
      hide Run, SessionSpec.Prepare, ValidOptions, Batches, Placed, Accounted, Seated, Step, SessionSpec.Open;
      PreparedIdsFresh(kernel.o, kernel.historyLookup, kernel.committed, t.request);
      BatchesSnoc(kernel.o, kernel.historyLookup, SessionSpec.Open(kernel.o), kernel.committed, t.request);
      assert kernel.Traced(t) && t.prepared.base == kernel.live.transitionRevision;
      var refused := kernel.Commit(t);
      assert refused.None?;
      if t.prepared.deltas != [] {
        assert published + (publicationQueue + [t.prepared.deltas])
          == published + publicationQueue + [t.prepared.deltas];
        publicationQueue := publicationQueue + [t.prepared.deltas];
      }
    }

    /** Publishes what is queued; neither the reducer nor durable history is touched. */
    method RetryPublish(successes: nat) returns (ok: bool)
      requires Valid()
      modifies this
      ensures Valid() && (ok <==> publicationQueue == [])
      ensures ok <==> successes >= |old(publicationQueue)|
    {
      ok := FlushPublicationQueue(successes);
    }
  }

  lemma StoredIds(store: InMemorySessionEventStore)
    requires store.Valid()
    ensures forall id :: id in store.byId <==> id in Ids(store.Load())
  {
    IdsOf(store.Load());
    forall id | id in store.byId ensures id in Ids(store.Load()) {
      var i :| 0 <= i < |store.order| && store.order[i] == id;
      assert Ids(store.Load())[i] == id;
    }
    forall id | id in Ids(store.Load()) ensures id in store.byId {
      var i :| 0 <= i < |store.Load()| && Ids(store.Load())[i] == id;
    }
  }

  /** Between operations: what was published, followed by what is queued, is every delta the session
      emitted, in commit order with no gap and no repeat. */
  lemma PublishedInOrder(host: SessionKernelHost)
    requires host.Valid()
    ensures Concat(host.published + host.publicationQueue)
         == Published(host.kernel.o, host.kernel.historyLookup, SessionSpec.Open(host.kernel.o), host.kernel.committed)
  {
    hide Published, Batches, Run;
    BatchesAreDeltas(host.kernel.o, host.kernel.historyLookup, SessionSpec.Open(host.kernel.o), host.kernel.committed);
  }
}
