/** Kernels that differ only in the order of their maps, their log and their tombstones accept the
    same events and stay that way. Restoring a checkpoint changes exactly those parts. */
module SessionAlike {
  import opened CanonicalJson
  import opened Wrappers
  import opened SessionTypes
  import opened SessionSpec
  import opened SessionReplay

  ghost predicate UniqueReceipts(entries: seq<ReceiptEntry>) {
    forall i, j :: 0 <= i < j < |entries| ==> entries[i].key != entries[j].key
  }

  ghost predicate UniqueScopes(scopes: seq<Scope>) {
    forall i, j :: 0 <= i < j < |scopes| ==> KeyOf(scopes[i]) != KeyOf(scopes[j])
  }

  ghost function ReceiptBag(entries: seq<ReceiptEntry>): set<ReceiptEntry> { set e | e in entries }
  ghost function ScopeBag(scopes: seq<Scope>): set<Scope> { set s | s in scopes }

  // ---- List operations as set operations ----

  lemma {:induction false} RemoveBag(entries: seq<ReceiptEntry>, key: Key)
    ensures forall e :: e in RemoveReceipt(entries, key) <==> e in entries && e.key != key
    ensures UniqueReceipts(entries) ==> UniqueReceipts(RemoveReceipt(entries, key))
  {
    if entries != [] {
      RemoveBag(entries[1..], key);
      assert entries == [entries[0]] + entries[1..];
      var rest := RemoveReceipt(entries[1..], key);
      if UniqueReceipts(entries) {
        forall j | 0 <= j < |rest| ensures rest[j].key != entries[0].key {
          assert rest[j] in rest;
        }
      }
    }
  }

  lemma {:induction false} FreshBag(entries: seq<ReceiptEntry>, oldest: int)
    ensures forall e :: e in Fresh(entries, oldest) <==> e in entries && e.cursor >= oldest
    ensures UniqueReceipts(entries) ==> UniqueReceipts(Fresh(entries, oldest))
  {
    if entries != [] {
      FreshBag(entries[1..], oldest);
      assert entries == [entries[0]] + entries[1..];
      var rest := Fresh(entries[1..], oldest);
      if UniqueReceipts(entries) {
        forall j | 0 <= j < |rest| ensures rest[j].key != entries[0].key {
          assert rest[j] in rest;
        }
      }
    }
  }

  lemma {:induction false} SetBag(entries: seq<ReceiptEntry>, entry: ReceiptEntry)
    requires UniqueReceipts(entries)
    ensures forall e :: e in SetReceipt(entries, entry) <==> e == entry || (e in entries && e.key != entry.key)
    ensures UniqueReceipts(SetReceipt(entries, entry))
  {
    if entries != [] {
      assert entries == [entries[0]] + entries[1..];
      if entries[0].key == entry.key {
        assert forall e :: e in entries[1..] ==> e.key != entry.key;
      } else {
        SetBag(entries[1..], entry);
        var rest := SetReceipt(entries[1..], entry);
        forall j | 0 <= j < |rest| ensures rest[j].key != entries[0].key {
          assert rest[j] in rest;
        }
      }
    }
  }

  lemma {:induction false} SetScopeBag(scopes: seq<Scope>, scope: Scope)
    requires UniqueScopes(scopes)
    ensures forall s :: s in SetScope(scopes, scope) <==> s == scope || (s in scopes && KeyOf(s) != KeyOf(scope))
    ensures UniqueScopes(SetScope(scopes, scope))
  {
    if scopes != [] {
      assert scopes == [scopes[0]] + scopes[1..];
      if KeyOf(scopes[0]) == KeyOf(scope) {
        assert forall s :: s in scopes[1..] ==> KeyOf(s) != KeyOf(scope);
      } else {
        SetScopeBag(scopes[1..], scope);
        var rest := SetScope(scopes[1..], scope);
        forall j | 0 <= j < |rest| ensures KeyOf(rest[j]) != KeyOf(scopes[0]) {
          assert rest[j] in rest;
        }
      }
    }
  }

  /** One scope after a refresh; None when its view would widen the seat's own. */
  ghost function RefreshOne(o: Options, s: Scope, views: map<Seat, Json>, cursor: nat, tick: nat): Option<Scope> {
    if s.participantId !in views then Some(s)
    else match ScopedView(o, views[s.participantId], s, cursor, tick)
      case Some(view) => Some(s.(view := view))
      case None => None
  }

  lemma {:induction false} RefreshEach(o: Options, scopes: seq<Scope>, views: map<Seat, Json>, cursor: nat, tick: nat)
    ensures var r := RefreshScopes(o, scopes, views, cursor, tick);
      && (r.Some? <==> forall i :: 0 <= i < |scopes| ==> RefreshOne(o, scopes[i], views, cursor, tick).Some?)
      && (r.Some? ==> forall i :: 0 <= i < |scopes| ==>
            RefreshOne(o, scopes[i], views, cursor, tick) == Some(r.value[i]) && KeyOf(r.value[i]) == KeyOf(scopes[i]))
  {
    hide ScopedView;
    if scopes != [] {
      var rest := RefreshScopes(o, scopes[1..], views, cursor, tick);
      var r := RefreshScopes(o, scopes, views, cursor, tick);
      RefreshEach(o, scopes[1..], views, cursor, tick);
      if r.Some? {
        assert r.value == [RefreshOne(o, scopes[0], views, cursor, tick).value] + rest.value;
      } else if RefreshOne(o, scopes[0], views, cursor, tick).Some? {
        var i :| 0 <= i < |scopes[1..]| && RefreshOne(o, scopes[1..][i], views, cursor, tick).None?;
        assert scopes[i + 1] == scopes[1..][i];
      }
    }
  }

  /** Equal scope sets refresh to equal scope sets, or fail together. */
  lemma RefreshBags(o: Options, a: seq<Scope>, b: seq<Scope>, views: map<Seat, Json>, cursor: nat, tick: nat)
    requires ScopeBag(a) == ScopeBag(b) && UniqueScopes(a) && UniqueScopes(b)
    ensures var (x, y) := (RefreshScopes(o, a, views, cursor, tick), RefreshScopes(o, b, views, cursor, tick));
      && (x.Some? <==> y.Some?)
      && (x.Some? ==> ScopeBag(x.value) == ScopeBag(y.value) && UniqueScopes(x.value) && UniqueScopes(y.value))
  {
    hide RefreshScopes, RefreshOne;
    SameElements(a, b);
    RefreshInto(o, a, b, views, cursor, tick);
    RefreshInto(o, b, a, views, cursor, tick);
  }

  lemma RefreshInto(o: Options, a: seq<Scope>, b: seq<Scope>, views: map<Seat, Json>, cursor: nat, tick: nat)
    requires forall s :: s in a ==> s in b
    requires UniqueScopes(a)
    ensures var (x, y) := (RefreshScopes(o, a, views, cursor, tick), RefreshScopes(o, b, views, cursor, tick));
      && (y.Some? ==> x.Some?)
      && (x.Some? ==> UniqueScopes(x.value))
      && (x.Some? && y.Some? ==> forall t :: t in x.value ==> t in y.value)
  {
    hide RefreshScopes, RefreshOne;
    RefreshEach(o, a, views, cursor, tick);
    RefreshEach(o, b, views, cursor, tick);
    var x, y := RefreshScopes(o, a, views, cursor, tick), RefreshScopes(o, b, views, cursor, tick);
    if y.Some? {
      forall i | 0 <= i < |a| ensures RefreshOne(o, a[i], views, cursor, tick).Some? {
        assert a[i] in b;
      }
      forall t | t in x.value ensures t in y.value {
        var i :| 0 <= i < |x.value| && x.value[i] == t;
        assert a[i] in b;
        var j :| 0 <= j < |b| && b[j] == a[i];
        assert y.value[j] == t;
      }
    }
  }

  // ---- The relation ----

  ghost function Erased(live: KernelState): KernelState {
    live.(receipts := [], interestScopes := [], events := [], expiredReceiptKeys := [])
  }

  ghost predicate Alike(a: Kernel, b: Kernel) {
    && a.submissionKeys == b.submissionKeys && a.interestCommands == b.interestCommands
    && Erased(a.live) == Erased(b.live)
    && ReceiptBag(a.live.receipts) == ReceiptBag(b.live.receipts)
    && ScopeBag(a.live.interestScopes) == ScopeBag(b.live.interestScopes)
    && Unique(a) && Unique(b)
  }

  ghost predicate Unique(k: Kernel) {
    UniqueReceipts(k.live.receipts) && UniqueScopes(k.live.interestScopes)
  }

  /** Both None, or alike. */
  ghost predicate AlikeOption(a: Option<Kernel>, b: Option<Kernel>) {
    (a.None? && b.None?) || (a.Some? && b.Some? && Alike(a.value, b.value))
  }

  lemma RefreshAlike(o: Options, a: Kernel, b: Kernel, state: GameState, cursor: nat, tick: nat)
    requires Alike(a, b)
    ensures var (x, y) := (Refresh(o, a.live, state, cursor, tick), Refresh(o, b.live, state, cursor, tick));
      && (x.Some? <==> y.Some?)
      && (x.Some? ==> Alike(a.(live := x.value), b.(live := y.value)))
  {
    hide RefreshScopes;
    assert Erased(a.live).views == Erased(b.live).views;
    RefreshBags(o, a.live.interestScopes, b.live.interestScopes, ViewsOf(o, state), cursor, tick);
  }

  lemma SameElements(a: seq<Scope>, b: seq<Scope>)
    requires ScopeBag(a) == ScopeBag(b)
    ensures forall s :: s in a <==> s in b
  {
    forall s ensures s in a <==> s in b {
      assert s in a <==> s in ScopeBag(a);
      assert s in b <==> s in ScopeBag(b);
    }
  }

  lemma SameReceipts(a: seq<ReceiptEntry>, b: seq<ReceiptEntry>)
    requires ReceiptBag(a) == ReceiptBag(b)
    ensures forall e :: e in a <==> e in b
  {
    forall e ensures e in a <==> e in b {
      assert e in a <==> e in ReceiptBag(a);
      assert e in b <==> e in ReceiptBag(b);
    }
  }

  lemma EvictAlike(o: Options, a: Kernel, b: Kernel)
    requires Alike(a, b)
    ensures Alike(a.(live := Evict(o, a.live)), b.(live := Evict(o, b.live)))
  {
    hide Expire, Trim;
    var oldest := a.live.cursor - o.receiptRetention;
    FreshBag(a.live.receipts, oldest);
    FreshBag(b.live.receipts, oldest);
    SameReceipts(a.live.receipts, b.live.receipts);
  }

  lemma ResolutionAlike(o: Options, a: Kernel, b: Kernel, body: Body)
    requires Alike(a, b) && body.Resolution?
    ensures AlikeOption(ReplayResolution(o, a, body), ReplayResolution(o, b, body))
  {
    hide Refresh, WindowFor, Evict, ReplayInputs;
    var books := ReplayInputs(o, body.tick, BooksOf(a.live), body.inputs);
    assert BooksOf(a.live) == BooksOf(b.live) by { assert Erased(a.live) == Erased(b.live); }
    if books.Some? {
      var a1, b1 := a.(live := WithBooks(a.live, books.value)), b.(live := WithBooks(b.live, books.value));
      var state := o.advance(a.live.reducerState, Actions(body.inputs));
      RefreshAlike(o, a1, b1, state, body.cursor + 1, body.tick + 1);
      var x, y := Refresh(o, a1.live, state, body.cursor + 1, body.tick + 1),
                  Refresh(o, b1.live, state, body.cursor + 1, body.tick + 1);
      var w := WindowFor(o, state, body.cursor + 1);
      if x.Some? && w.Some? {
        EvictAlike(o, a.(live := x.value.(window := w.value)), b.(live := y.value.(window := w.value)));
      }
    }
  }

  lemma IntentAlike(o: Options, a: Kernel, b: Kernel, body: Body)
    requires Alike(a, b) && body.IntentAccepted?
    ensures AlikeOption(ReplayIntent(o, a, body), ReplayIntent(o, b, body))
  {
    hide Collect;
    assert Erased(a.live).window == Erased(b.live).window && Erased(a.live).cursor == Erased(b.live).cursor;
    var s := Submission(GaosTicks1, o.sessionId, OpenTick(o, a.live.window), a.live.window.revision,
                        body.participantId, body.submissionId, body.command, body.seal);
    var w := Collect(o, a.live.window, s);
    if w.Ok? {
      var receipt := Receipt(body.participantId, body.submissionId, body.revision, body.tick,
                             Submitted(w.value), Awaiting(w.value), body.revision < a.live.cursor);
      var entry := ReceiptEntry(Key(body.participantId, body.submissionId), body.canonicalCommand, s.tickId, receipt,
        body.revision);
      SetBag(a.live.receipts, entry);
      SetBag(b.live.receipts, entry);
      SameReceipts(a.live.receipts, b.live.receipts);
    }
  }

  lemma InterestAlike(o: Options, a: Kernel, b: Kernel, body: Body)
    requires Alike(a, b) && body.InterestDeclared?
    ensures AlikeOption(ReplayInterest(o, a, body), ReplayInterest(o, b, body))
  {
    hide ScopedView, InterestText;
    var scope := Declare(o, a.live, body.participantId, body.scopeId, body.declaration);
    assert Erased(a.live).views == Erased(b.live).views && Erased(a.live).tick == Erased(b.live).tick;
    if scope.Some? {
      SetScopeBag(a.live.interestScopes, scope.value);
      SetScopeBag(b.live.interestScopes, scope.value);
      SameElements(a.live.interestScopes, b.live.interestScopes);
    }
  }

  lemma ControlAlike(o: Options, a: Kernel, b: Kernel, revision: nat, body: Body)
    requires Alike(a, b) && body.ControlTransition?
    ensures AlikeOption(ReplayControl(o, a, revision, body), ReplayControl(o, b, revision, body))
  {
    hide Refresh, WindowFor;
    if o.applyControl.Some? {
      var state := (o.applyControl.value)(a.live.reducerState, body.control,
                     Context(body.participantId, body.controlId, a.live.cursor, a.live.tick));
      RefreshAlike(o, a, b, state, a.live.cursor, a.live.tick);
    }
  }

  lemma RejectedAlike(o: Options, a: Kernel, b: Kernel, revision: nat, m: CommitMismatch)
    requires Alike(a, b)
    ensures AlikeOption(ReplayBody(o, a, revision, Rejected(m)), ReplayBody(o, b, revision, Rejected(m)))
  {
    RemoveBag(a.live.receipts, Key(m.participantId, m.submissionId));
    RemoveBag(b.live.receipts, Key(m.participantId, m.submissionId));
    SameReceipts(a.live.receipts, b.live.receipts);
  }

  lemma BodyAlike(o: Options, a: Kernel, b: Kernel, revision: nat, body: Body)
    requires Alike(a, b)
    ensures AlikeOption(ReplayBody(o, a, revision, body), ReplayBody(o, b, revision, body))
  {
    hide ReplayIntent, ReplayInterest, ReplayControl, ReplayResolution;
    match body
    case IntentAccepted(_, _, _, _, _, _, _, _) => IntentAlike(o, a, b, body);
    case InterestDeclared(_, _, _, _, _, _, _, _) => InterestAlike(o, a, b, body);
    case ControlTransition(_, _, _, _, _, _) => ControlAlike(o, a, b, revision, body);
    case Resolution(_, _, _, _, _, _, _) => ResolutionAlike(o, a, b, body);
    case Rejected(m) => RejectedAlike(o, a, b, revision, m);
    case Checkpoint(_, _) =>
      assert Erased(a.live).views == Erased(b.live).views && Erased(a.live).tick == Erased(b.live).tick;
    case _ =>
  }

  lemma EventAlike(o: Options, a: Kernel, b: Kernel, e: Event)
    requires Alike(a, b)
    ensures AlikeOption(ReplayEvent(o, a, e), ReplayEvent(o, b, e))
  {
    hide ReplayBody;
    BodyAlike(o, a, b, e.transitionRevision, e.body);
  }

  /** Alike kernels accept the same logs and end alike. */
  lemma {:induction false} EventsAlike(o: Options, a: Kernel, b: Kernel, previous: nat, events: seq<Event>)
    requires Alike(a, b)
    ensures AlikeOption(ReplayEvents(o, a, previous, events), ReplayEvents(o, b, previous, events))
    decreases |events|
  {
    hide ReplayEvent, Alike;
    if events != [] {
      EventAlike(o, a, b, events[0]);
      var x, y := ReplayEvent(o, a, events[0]), ReplayEvent(o, b, events[0]);
      if x.Some? { EventsAlike(o, x.value, y.value, events[0].transitionRevision, events[1..]); }
    }
  }
}
