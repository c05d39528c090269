/** Commitments and accepted intents (src/session.ts). What was accepted can always be resolved,
    ids of a seat are contiguous, and each commitment is opened at most once, with its own hash. */
module SessionCommitments {
  import opened CodePoints
  import opened CanonicalJson
  import opened Wrappers
  import opened SessionTypes
  import opened SessionSpec
  import opened SessionReplay
  import opened SessionRehydrate
  import opened SessionCheckpoint

  // ---- What a log says about commitments ----

  /** The inputs of the resolutions among `bodies`, in order. */
  function BodyInputs(bodies: seq<Body>): seq<CanonicalInput> {
    if bodies == [] then []
    else (if bodies[0].Resolution? then bodies[0].inputs else []) + BodyInputs(bodies[1..])
  }

  /** Every input the log recorded as resolved. */
  function LoggedInputs(events: seq<Event>): seq<CanonicalInput>
    decreases |events|
  {
    if events == [] then []
    else (if events[0].body.Resolution? then events[0].body.inputs else []) + LoggedInputs(events[1..])
  }

  /** The commitment ids a seat committed to, oldest first. */
  function CommitIds(inputs: seq<CanonicalInput>, seat: Seat): seq<int> {
    if inputs == [] then []
    else
      (if inputs[0].participantId == Some(seat) && inputs[0].action.commit.Some?
       then [inputs[0].action.commit.value.commitmentId] else [])
      + CommitIds(inputs[1..], seat)
  }

  /** How often the inputs open a commitment. */
  function Openings(inputs: seq<CanonicalInput>, key: CommitmentKey): nat {
    if inputs == [] then 0
    else (if Opens(inputs[0], key) then 1 else 0) + Openings(inputs[1..], key)
  }

  predicate Opens(input: CanonicalInput, key: CommitmentKey) {
    && input.participantId == Some(key.seat)
    && input.action.opening.Some? && input.action.opening.value.commitmentId == key.commitmentId
  }

  function Upto(n: nat): (ids: seq<int>)
    ensures |ids| == n && forall i :: 0 <= i < n ==> ids[i] == i
  {
    if n == 0 then [] else Upto(n - 1) + [n - 1]
  }

  lemma {:induction false} CommitIdsAppend(a: seq<CanonicalInput>, b: seq<CanonicalInput>, seat: Seat)
    ensures CommitIds(a + b, seat) == CommitIds(a, seat) + CommitIds(b, seat)
  {
    if a == [] { assert a + b == b; } else { assert (a + b)[1..] == a[1..] + b; CommitIdsAppend(a[1..], b, seat); }
  }

  lemma {:induction false} OpeningsAppend(a: seq<CanonicalInput>, b: seq<CanonicalInput>, key: CommitmentKey)
    ensures Openings(a + b, key) == Openings(a, key) + Openings(b, key)
  {
    if a == [] { assert a + b == b; } else { assert (a + b)[1..] == a[1..] + b; OpeningsAppend(a[1..], b, key); }
  }

  lemma {:induction false} LoggedAppend(a: seq<Event>, b: seq<Event>)
    ensures LoggedInputs(a + b) == LoggedInputs(a) + LoggedInputs(b)
    decreases |a|
  {
    if a == [] { assert a + b == b; } else { assert (a + b)[1..] == a[1..] + b; LoggedAppend(a[1..], b); }
  }

  lemma {:induction false} LoggedNumber(o: Options, revision: nat, bodies: seq<Body>, index: nat)
    ensures LoggedInputs(Number(o, revision, bodies, index)) == BodyInputs(bodies)
    decreases |bodies|
  {
    if bodies != [] {
      var events := Number(o, revision, bodies, index);
      assert events[1..] == Number(o, revision, bodies[1..], index + 1);
      LoggedNumber(o, revision, bodies[1..], index + 1);
    }
  }

  // ---- Invariants of the books ----

  /** A seat's commitments are exactly the ids below its next one, few of them still open. */
  ghost predicate BooksSound(o: Options, books: Books) {
    && Owned(books)
    && (forall seat, id :: CommitmentKey(seat, id) in books.commitments <==> 0 <= id < NextId(books.nextIds, seat))
    && (forall seat :: |OpenCommitments(books.commitments, seat)| <= o.maxOpenCommitmentsPerSeat)
  }

  ghost predicate Owned(books: Books) {
    forall key :: key in books.commitments ==>
      books.commitments[key].seat == key.seat && books.commitments[key].envelope.commitmentId == key.commitmentId
  }

  /** An opening in the log names a commitment, opened, whose hash it reproduces. */
  ghost predicate Honest(o: Options, books: Books, input: CanonicalInput) {
    input.action.opening.Some? ==>
      var r := input.action.opening.value;
      && input.participantId.Some?
      && var key := CommitmentKey(input.participantId.value, r.commitmentId);
      && key in books.commitments && books.commitments[key].revealed
      && input.action.verifiedPayload == Some(r.payload)
      && o.commitmentHash(BindingOf(books.commitments[key], key.seat), r.salt, r.payload)
         == Some(books.commitments[key].envelope.hash)
  }

  function Shown(books: Books, key: CommitmentKey): nat {
    if key in books.commitments && books.commitments[key].revealed then 1 else 0
  }

  /** The books are what the log says, and the log only holds honest openings. */
  ghost predicate Recorded(o: Options, books: Books, inputs: seq<CanonicalInput>) {
    && (forall seat :: CommitIds(inputs, seat) == Upto(NextId(books.nextIds, seat)))
    && (forall key :: Openings(inputs, key) == Shown(books, key))
    && (forall i :: 0 <= i < |inputs| ==> Honest(o, books, inputs[i]))
  }

  /** Accepted, and still free of every error its acceptance was checked for. */
  ghost predicate Pending(o: Options, live: KernelState, books: Books, intent: Intent) {
    && Key(intent.participantId, intent.submissionId) in live.intentActions
    && ActionError(o, WithBooks(live, books), intent.participantId, ActionOf(o, live, intent)).None?
  }

  ghost predicate AllPending(o: Options, live: KernelState, books: Books, intents: seq<Intent>) {
    forall i :: 0 <= i < |intents| ==> Pending(o, live, books, intents[i])
  }

  ghost predicate Separate(intents: seq<Intent>) {
    forall i, j :: 0 <= i < j < |intents| ==> intents[i].participantId != intents[j].participantId
  }

  // ---- One intent ----

  /** A pending intent is resolved or rejected for its hash; it never meets a conflict branch. */
  lemma MapOneResolves(o: Options, live: KernelState, books: Books, intent: Intent)
    requires Pending(o, live, books, intent)
    ensures var m := MapOne(o, live, books, intent);
      && !m.OneRefused?
      && (m.OneRejected? ==> WrongHash(o, live, books, intent, m.mismatch))
  {
  }

  /** The one reason for a rejection. */
  ghost predicate WrongHash(o: Options, live: KernelState, books: Books, intent: Intent, m: CommitMismatch) {
    var key := CommitmentKey(intent.participantId, m.commitmentId);
    && m.participantId == intent.participantId && m.submissionId == intent.submissionId
    && ActionOf(o, live, intent).opening == Some(m.attempted) && m.attempted.commitmentId == m.commitmentId
    && key in books.commitments && !books.commitments[key].revealed
    && o.commitmentHash(BindingOf(books.commitments[key], key.seat), m.attempted.salt, m.attempted.payload)
       != Some(books.commitments[key].envelope.hash)
  }

  /** Books that agree on one seat. */
  ghost predicate AgreeOn(a: Books, b: Books, seat: Seat) {
    && NextId(a.nextIds, seat) == NextId(b.nextIds, seat)
    && (forall id :: CommitmentKey(seat, id) in a.commitments <==> CommitmentKey(seat, id) in b.commitments)
    && (forall id :: CommitmentKey(seat, id) in a.commitments ==>
          a.commitments[CommitmentKey(seat, id)] == b.commitments[CommitmentKey(seat, id)])
  }

  lemma MapOneFrame(o: Options, live: KernelState, books: Books, intent: Intent, seat: Seat)
    requires seat != intent.participantId
    ensures var m := MapOne(o, live, books, intent); m.One? ==> AgreeOn(books, m.books, seat)
  {
  }

  lemma SameOpen(a: Books, b: Books, seat: Seat)
    requires Owned(a) && Owned(b) && AgreeOn(a, b, seat)
    ensures OpenCommitments(a.commitments, seat) == OpenCommitments(b.commitments, seat)
  {
    forall c ensures c in OpenCommitments(a.commitments, seat) <==> c in OpenCommitments(b.commitments, seat) {
      if c.seat == seat { assert c == CommitmentKey(seat, c.commitmentId); }
    }
  }

  lemma StaysPending(o: Options, live: KernelState, a: Books, b: Books, intent: Intent)
    requires Owned(a) && Owned(b) && AgreeOn(a, b, intent.participantId)
    requires Pending(o, live, a, intent)
    ensures Pending(o, live, b, intent)
  {
    SameOpen(a, b, intent.participantId);
  }

  lemma MapOneSound(o: Options, live: KernelState, books: Books, intent: Intent)
    requires BooksSound(o, books) && Pending(o, live, books, intent)
    ensures var m := MapOne(o, live, books, intent); m.One? ==> BooksSound(o, m.books)
  {
    var m := MapOne(o, live, books, intent);
    var seat := intent.participantId;
    if m.One? {
      MapOneOwned(o, live, books, intent);
      forall s ensures |OpenCommitments(m.books.commitments, s)| <= o.maxOpenCommitmentsPerSeat {
        if s == seat {
          MapOneOpen(o, live, books, intent);
        } else {
          MapOneFrame(o, live, books, intent, s);
          SameOpen(books, m.books, s);
        }
      }
    }
  }

  lemma MapOneOwned(o: Options, live: KernelState, books: Books, intent: Intent)
    requires BooksSound(o, books) && Pending(o, live, books, intent)
    ensures var m := MapOne(o, live, books, intent);
      m.One? ==>
        && Owned(m.books)
        && forall seat, id :: CommitmentKey(seat, id) in m.books.commitments <==>
          0 <= id < NextId(m.books.nextIds, seat)
  {
    hide OpenCommitments;
  }

  lemma MapOneOpen(o: Options, live: KernelState, books: Books, intent: Intent)
    requires BooksSound(o, books) && Pending(o, live, books, intent)
    ensures var m := MapOne(o, live, books, intent);
      m.One? ==> |OpenCommitments(m.books.commitments, intent.participantId)| <= o.maxOpenCommitmentsPerSeat
  {
    var m := MapOne(o, live, books, intent);
    var seat := intent.participantId;
    if m.One? {
      var before, after := OpenCommitments(books.commitments, seat), OpenCommitments(m.books.commitments, seat);
      var a := ActionOf(o, live, intent);
      if a.commit.Some? {
        assert after <= before + {CommitmentKey(seat, NextId(books.nextIds, seat))};
        Grow(before, after, CommitmentKey(seat, NextId(books.nextIds, seat)));
      } else {
        assert after <= before;
        Shrink(before, after);
      }
    }
  }

  lemma Grow<T>(a: set<T>, b: set<T>, x: T)
    requires b <= a + {x}
    ensures |b| <= |a| + 1
  {
    Shrink(a + {x}, b);
  }

  lemma Shrink<T>(a: set<T>, b: set<T>)
    requires b <= a
    ensures |b| <= |a|
  {
    assert a == b + (a - b);
  }

  lemma MapOneRecords(o: Options, live: KernelState, books: Books, intent: Intent, log: seq<CanonicalInput>)
    requires BooksSound(o, books) && Pending(o, live, books, intent) && Recorded(o, books, log)
    ensures var m := MapOne(o, live, books, intent); m.One? ==> Recorded(o, m.books, log + [m.input])
  {
    hide OpenCommitments, MapOne, Pending, ActionOf, Openings, CommitIds, Honest, BooksSound;
    var m := MapOne(o, live, books, intent);
    if m.One? {
      forall seat ensures CommitIds(log + [m.input], seat) == Upto(NextId(m.books.nextIds, seat)) {
        CommitIdsAppend(log, [m.input], seat);
        OneCommitId(m.input, seat);
        MapOneCommits(o, live, books, intent, seat);
      }
      forall key ensures Openings(log + [m.input], key) == Shown(m.books, key) {
        OpeningsAppend(log, [m.input], key);
        OneOpening(m.input, key);
        MapOneOpens(o, live, books, intent, key);
      }
      forall i | 0 <= i < |log + [m.input]| ensures Honest(o, m.books, (log + [m.input])[i]) {
        MapOneHonest(o, live, books, intent, (log + [m.input])[i]);
      }
    }
  }

  lemma MapOneCommits(o: Options, live: KernelState, books: Books, intent: Intent, seat: Seat)
    requires Pending(o, live, books, intent)
    ensures var m := MapOne(o, live, books, intent);
      m.One? ==>
        Upto(NextId(books.nextIds, seat))
        + (if m.input.participantId == Some(seat) && m.input.action.commit.Some?
           then [m.input.action.commit.value.commitmentId] else [])
        == Upto(NextId(m.books.nextIds, seat))
  {
    hide OpenCommitments, RevealError;
  }

  lemma MapOneOpens(o: Options, live: KernelState, books: Books, intent: Intent, key: CommitmentKey)
    requires BooksSound(o, books) && Pending(o, live, books, intent)
    ensures var m := MapOne(o, live, books, intent);
      m.One? ==> Shown(books, key) + (if Opens(m.input, key) then 1 else 0) == Shown(m.books, key)
  {
    hide OpenCommitments;
  }

  lemma MapOneHonest(o: Options, live: KernelState, books: Books, intent: Intent, input: CanonicalInput)
    requires BooksSound(o, books) && Pending(o, live, books, intent)
    ensures var m := MapOne(o, live, books, intent);
      m.One? && (Honest(o, books, input) || input == m.input) ==> Honest(o, m.books, input)
  {
    hide OpenCommitments;
  }

  lemma OneCommitId(input: CanonicalInput, seat: Seat)
    ensures CommitIds([input], seat)
         == if input.participantId == Some(seat) && input.action.commit.Some?
           then [input.action.commit.value.commitmentId] else []
  {
    assert [input][1..] == [];
  }

  lemma OneOpening(input: CanonicalInput, key: CommitmentKey)
    ensures Openings([input], key) == if Opens(input, key) then 1 else 0
  {
    assert [input][1..] == [];
  }

  // ---- A whole window ----

  lemma {:induction false} WindowResolves(
    o: Options, live: KernelState, books: Books, intents: seq<Intent>, log: seq<CanonicalInput>)
    requires BooksSound(o, books) && AllPending(o, live, books, intents) && Separate(intents)
    requires Recorded(o, books, log)
    ensures var m := MapIntents(o, live, books, intents);
      && !m.Refused?
      && (m.Mapped? ==> BooksSound(o, m.books) && Recorded(o, m.books, log + m.inputs))
      && (m.Mismatch? ==> exists i, at :: 0 <= i < |intents| && WrongHash(o, live, at, intents[i], m.mismatch))
    decreases |intents|
  {
    hide BooksSound, Pending, MapOne, Recorded, WrongHash;
    if intents == [] {
      assert log + [] == log;
    } else {
      var first := MapOne(o, live, books, intents[0]);
      MapOneResolves(o, live, books, intents[0]);
      if first.OneRejected? {
        assert WrongHash(o, live, books, intents[0], first.mismatch);
      } else {
        MapOneSound(o, live, books, intents[0]);
        MapOneRecords(o, live, books, intents[0], log);
        forall i | 0 <= i < |intents[1..]| ensures Pending(o, live, first.books, intents[1..][i]) {
          MapOneFrame(o, live, books, intents[0], intents[i + 1].participantId);
          assert Pending(o, live, books, intents[i + 1]);
          SoundOwned(o, books);
          SoundOwned(o, first.books);
          StaysPending(o, live, books, first.books, intents[i + 1]);
        }
        WindowResolves(o, live, first.books, intents[1..], log + [first.input]);
        var rest := MapIntents(o, live, first.books, intents[1..]);
        if rest.Mapped? {
          assert log + [first.input] + rest.inputs == log + ([first.input] + rest.inputs);
        } else {
          var i, at :| 0 <= i < |intents[1..]| && WrongHash(o, live, at, intents[1..][i], rest.mismatch);
          assert WrongHash(o, live, at, intents[i + 1], rest.mismatch);
        }
      }
    }
  }

  lemma SoundOwned(o: Options, books: Books)
    requires BooksSound(o, books)
    ensures Owned(books)
  {
  }

  // ---- The invariant of a kernel state ----

  ghost predicate Honoured(o: Options, live: KernelState, log: seq<CanonicalInput>) {
    && WindowSound(live.window) && NoRepeats(live.window.participants)
    && BooksSound(o, BooksOf(live)) && Recorded(o, BooksOf(live), log)
    && forall p :: p in live.window.intents ==> Pending(o, live, BooksOf(live), live.window.intents[p])
  }

  function Intents(live: KernelState): seq<Intent> { WindowIntents(live.window.participants, live.window.intents) }

  lemma {:induction false} WindowIntentsFrom(ids: seq<Seat>, intents: map<Seat, Intent>)
    requires NoRepeats(ids) && forall p :: p in intents ==> intents[p].participantId == p
    ensures var list := WindowIntents(ids, intents);
      && Separate(list)
      && (forall i :: 0 <= i < |list| ==>
            list[i].participantId in ids && list[i].participantId in intents
              && list[i] == intents[list[i].participantId])
  {
    if ids != [] { WindowIntentsFrom(ids[1..], intents); }
  }

  /** In a state that keeps the invariant the whole window maps, or one false opening is declined,
      which takes exactly that seat's intent out of the window. */
  lemma PendingResolves(o: Options, live: KernelState, log: seq<CanonicalInput>)
    requires Honoured(o, live, log)
    ensures var m := MapIntents(o, live, BooksOf(live), Intents(live));
      && !m.Refused?
      && (m.Mapped? ==> BooksSound(o, m.books) && Recorded(o, m.books, log + m.inputs))
      && (m.Mismatch? ==>
            && m.mismatch.participantId in live.window.intents
            && (exists at :: WrongHash(o, live, at, live.window.intents[m.mismatch.participantId], m.mismatch))
            && |Decline(live, m.mismatch).window.intents| < |live.window.intents|
            && Honoured(o, Decline(live, m.mismatch), log))
  {
    hide BooksSound, Pending, Recorded, MapIntents, Decline, WrongHash;
    WindowIntentsFrom(live.window.participants, live.window.intents);
    WindowResolves(o, live, BooksOf(live), Intents(live), log);
    var m := MapIntents(o, live, BooksOf(live), Intents(live));
    if m.Mismatch? {
      var i, at :| 0 <= i < |Intents(live)| && WrongHash(o, live, at, Intents(live)[i], m.mismatch);
      WrongHashOwner(o, live, at, Intents(live)[i], m.mismatch);
      DeclineHonoured(o, live, m.mismatch, log);
    }
  }

  lemma WrongHashOwner(o: Options, live: KernelState, books: Books, intent: Intent, m: CommitMismatch)
    requires WrongHash(o, live, books, intent, m)
    ensures intent.participantId == m.participantId
  {
  }

  lemma OneFewer<K, V>(m: map<K, V>, k: K)
    requires k in m
    ensures |m - {k}| < |m|
  {
    var rest := m - {k};
    assert m.Keys == rest.Keys + {k};
    assert |m.Keys| == |rest.Keys| + 1;
  }

  lemma DeclineHonoured(o: Options, live: KernelState, m: CommitMismatch, log: seq<CanonicalInput>)
    requires Honoured(o, live, log) && m.participantId in live.window.intents
    ensures Honoured(o, Decline(live, m), log) && |Decline(live, m).window.intents| < |live.window.intents|
  {
    hide BooksSound, Pending, Recorded, RemoveReceipt;
    var draft := Decline(live, m);
    OneFewer(live.window.intents, m.participantId);
    forall p | p in draft.window.intents ensures Pending(o, draft, BooksOf(draft), draft.window.intents[p]) {
      Unmoved(o, live, draft, live.window.intents[p]);
    }
  }

  /** What a pending intent depends on. */
  lemma Unmoved(o: Options, a: KernelState, b: KernelState, intent: Intent)
    requires a.intentActions == b.intentActions && BooksOf(a) == BooksOf(b)
    ensures Pending(o, a, BooksOf(a), intent) ==> Pending(o, b, BooksOf(b), intent)
  {
  }

  /** Resolving `before` declines one opening and leaves `after`. */
  ghost predicate Declines(o: Options, before: KernelState, after: KernelState) {
    var m := MapIntents(o, before, BooksOf(before), Intents(before));
    m.Mismatch? && after == Decline(before, m.mismatch)
  }

  /** Declining false openings one by one empties the window of them: after at most as many
      rejections as there are intents, the rest resolves. */
  lemma {:induction false} RejectionsEnd(o: Options, live: KernelState, log: seq<CanonicalInput>)
      returns (steps: seq<KernelState>)
    requires Honoured(o, live, log)
    ensures 1 <= |steps| <= |live.window.intents| + 1 && steps[0] == live
    ensures forall i, j :: 0 <= i && j == i + 1 < |steps| ==> Declines(o, steps[i], steps[j])
    ensures var last := steps[|steps| - 1]; MapIntents(o, last, BooksOf(last), Intents(last)).Mapped?
    decreases |live.window.intents|
  {
    hide MapIntents, Honoured, Intents, RemoveReceipt;
    PendingResolves(o, live, log);
    var m := MapIntents(o, live, BooksOf(live), Intents(live));
    steps := [live];
    if m.Mismatch? {
      var rest := RejectionsEnd(o, Decline(live, m.mismatch), log);
      steps := [live] + rest;
      assert Declines(o, live, rest[0]);
      forall i, j | 0 <= i && j == i + 1 < |steps| ensures Declines(o, steps[i], steps[j]) {
        if i > 0 { assert steps[i] == rest[i - 1] && steps[j] == rest[j - 1]; }
      }
    }
  }

  // ---- Every transition keeps it ----

  /** The invariant reads only the window, the frozen actions and the books. */
  lemma HonouredSame(o: Options, a: KernelState, b: KernelState, log: seq<CanonicalInput>)
    requires Honoured(o, a, log)
    requires a.window == b.window && a.intentActions == b.intentActions && BooksOf(a) == BooksOf(b)
    ensures Honoured(o, b, log)
  {
    hide BooksSound, Recorded, Pending;
    forall p | p in b.window.intents ensures Pending(o, b, BooksOf(b), b.window.intents[p]) {
      Unmoved(o, a, b, a.window.intents[p]);
    }
  }

  lemma {:induction false} InertAdds(inputs: seq<CanonicalInput>, seat: Seat, key: CommitmentKey)
    requires Inert(inputs)
    ensures CommitIds(inputs, seat) == [] && Openings(inputs, key) == 0
  {
    if inputs != [] { InertAdds(inputs[1..], seat, key); }
  }

  lemma InertRecorded(o: Options, books: Books, log: seq<CanonicalInput>, forced: seq<CanonicalInput>)
    requires Recorded(o, books, log) && Inert(forced)
    ensures Recorded(o, books, log + forced)
  {
    forall seat ensures CommitIds(log + forced, seat) == Upto(NextId(books.nextIds, seat)) {
      CommitIdsAppend(log, forced, seat);
      InertAdds(forced, seat, CommitmentKey(seat, 0));
    }
    forall key ensures Openings(log + forced, key) == Shown(books, key) {
      OpeningsAppend(log, forced, key);
      InertAdds(forced, key.seat, key);
    }
  }

  lemma ResolveHonoured(
    o: Options, live: KernelState, books: Books, inputs: seq<CanonicalInput>, log: seq<CanonicalInput>)
    requires BooksSound(o, books) && Recorded(o, books, log)
    ensures var r := Resolve(o, WithBooks(live, books), inputs, live.cursor, live.tick);
      r.Some? ==> Honoured(o, r.value, log)
  {
    hide BooksSound, Recorded, Pending, RefreshScopes, Expire, Fresh, WindowFor;
    var state := o.advance(live.reducerState, Actions(inputs));
    WindowForSound(o, state, live.cursor + 1);
    FreshRoster(o, state, live.cursor + 1);
  }

  lemma FreshRoster(o: Options, state: GameState, revision: nat)
    ensures var w := WindowFor(o, state, revision); w.Some? ==>
      w.value.intents == map[] && NoRepeats(w.value.participants)
  {
    var w := WindowFor(o, state, revision);
    if w.Some? {
      var ids := w.value.participants;
      forall i, j | 0 <= i < j < |ids| ensures ids[i] != ids[j] { PrecedesIrreflexive(ids[i]); }
    }
  }

  lemma ResolveOnceHonoured(
    o: Options, live: KernelState, backoff: map<ScopeKey, Backoff>, cause: Cause, forced: seq<CanonicalInput>,
    log: seq<CanonicalInput>)
    requires Honoured(o, live, log) && Inert(forced)
    ensures var r := ResolveOnce(o, live, backoff, cause, forced);
      && (r.Err? ==> r.error == InvalidView || (r.error == NotReady && cause == Complete && !Ready(live.window)))
      && (r.Ok? && r.value.Settled? ==>
            r.value.body.Resolution? && Honoured(o, r.value.draft, log + r.value.body.inputs))
      && (r.Ok? && r.value.Declined? ==> Honoured(o, r.value.draft, log))
  {
    hide Honoured, MapIntents, Resolve, Deltas, NextBackoff, BooksSound, Recorded, Decline;
    var intents := Intents(live);
    PendingResolves(o, live, log);
    var m := MapIntents(o, live, BooksOf(live), intents);
    if cause == Complete && |intents| != |live.window.participants| {
      WindowNotReady(live.window.participants, live.window.intents);
    } else if m.Mapped? {
      InertRecorded(o, m.books, log + m.inputs, forced);
      assert log + m.inputs + forced == log + (m.inputs + forced);
      ResolveHonoured(o, live, m.books, m.inputs + forced, log + (m.inputs + forced));
    }
  }

  lemma {:induction false} WindowNotReady(ids: seq<Seat>, intents: map<Seat, Intent>)
    ensures |WindowIntents(ids, intents)| <= |ids|
    ensures |WindowIntents(ids, intents)| == |ids| <==> forall p :: p in ids ==> p in intents
  {
    if ids != [] {
      WindowNotReady(ids[1..], intents);
      assert ids == [ids[0]] + ids[1..];
    }
  }

  lemma {:induction false} CatchUpHonoured(
    o: Options, live: KernelState, backoff: map<ScopeKey, Backoff>, count: nat, log: seq<CanonicalInput>)
    requires Honoured(o, live, log)
    ensures var r := CatchUp(o, live, backoff, count);
      && (r.Err? ==> r.error == InvalidView || (r.error == NotReady && o.cadence == Turns))
      && (r.Ok? ==> Honoured(o, r.value.draft, log + BodyInputs(r.value.bodies)))
    decreases count
  {
    hide ResolveOnce, Honoured, Halts, RejectionDeltas;
    if count == 0 {
      assert log + [] == log;
    } else {
      var cause := CauseOf(o, live.window);
      ResolveOnceHonoured(o, live, backoff, cause, [], log);
      var r := ResolveOnce(o, live, backoff, cause, []);
      if r.Ok? && r.value.Declined? {
        DeclinedInputs(r.value.mismatch);
        assert log + [] == log;
      } else if r.Ok? {
        var next := log + r.value.body.inputs;
        CatchUpHonoured(o, r.value.draft, r.value.backoff, count - 1, next);
        var rest := CatchUp(o, r.value.draft, r.value.backoff, count - 1);
        FirstInputs(r.value.body, []);
        assert r.value.body.inputs + [] == r.value.body.inputs;
        if !Halts(o, r.value.draft) && rest.Ok? {
          FirstInputs(r.value.body, rest.value.bodies);
          assert next + BodyInputs(rest.value.bodies) == log + (r.value.body.inputs + BodyInputs(rest.value.bodies));
        }
      }
    }
  }

  lemma DeclinedInputs(m: CommitMismatch)
    ensures BodyInputs([Rejected(m)]) == []
  {
  }

  lemma FirstInputs(b: Body, rest: seq<Body>)
    requires b.Resolution?
    ensures BodyInputs([b] + rest) == b.inputs + BodyInputs(rest)
    ensures BodyInputs([b]) == b.inputs
  {
    assert ([b] + rest)[1..] == rest;
    assert [b][1..] == [];
  }

  lemma {:induction false} BodyInputsAppend(a: seq<Body>, b: seq<Body>)
    ensures BodyInputs(a + b) == BodyInputs(a) + BodyInputs(b)
  {
    if a == [] { assert a + b == b; } else { assert (a + b)[1..] == a[1..] + b; BodyInputsAppend(a[1..], b); }
  }

  lemma QuietInputs(b: Body)
    requires !b.Resolution?
    ensures BodyInputs([b]) == []
  {
    assert [b][1..] == [];
  }

  ghost predicate Kept(o: Options, session: Session) {
    Honoured(o, session.kernel.live, LoggedInputs(session.kernel.live.events))
  }

  lemma FinishKept(
    o: Options, session: Session, draft: KernelState, bodies: seq<Body>, deltas: seq<Delta>,
    outcome: Outcome, backoff: map<ScopeKey, Backoff>)
    requires draft.events == session.kernel.live.events
    requires Honoured(o, draft, LoggedInputs(session.kernel.live.events) + BodyInputs(bodies))
    ensures Kept(o, Commit(session, Finish(o, session, draft, bodies, deltas, outcome, backoff, false)))
  {
    hide Honoured, Number, Rejections, RecordKeys, RecordInterest;
    var revision := session.kernel.live.transitionRevision + 1;
    var after := Commit(session, Finish(o, session, draft, bodies, deltas, outcome, backoff, false)).kernel.live;
    LoggedAppend(session.kernel.live.events, Number(o, revision, bodies, 0));
    LoggedNumber(o, revision, bodies, 0);
    HonouredSame(o, draft, after, LoggedInputs(after.events));
  }

  /** An advance is only ever refused for its target, an unready window, a finished game or a view
      the game produced; never because an accepted intent conflicts. */
  lemma AdvanceKept(o: Options, session: Session, target: Option<int>)
    requires Kept(o, session)
    ensures var p := PrepareAdvance(o, session, target);
      && (p.Err? ==> p.error in {Terminal, InvalidTarget, StaleTarget, NotReady, InvalidView})
      && (p.Ok? ==> Kept(o, Commit(session, p.value)))
  {
    hide CatchUp, CheckpointDue, StateDigest, Finish, Honoured, Commit, Kept;
    var live := session.kernel.live;
    var log := LoggedInputs(live.events);
    var demand := DemandOf(o, live, target);
    assert Honoured(o, live, log) by { KeptParts(o, session); }
    if o.status(live.reducerState) == Playing && demand.Ok? {
      CatchUpHonoured(o, live, session.backoff, demand.value.count, log);
      CatchUpReplays(o, session.kernel, session.backoff, demand.value.count, 0) by { HonouredWindow(o, live, log); }
      var p := CatchUp(o, live, session.backoff, demand.value.count);
      if p.Ok? { AdvanceFinishKept(o, session, demand.value, p.value); }
    }
  }

  lemma KeptParts(o: Options, session: Session)
    ensures Kept(o, session) <==> Honoured(o, session.kernel.live, LoggedInputs(session.kernel.live.events))
  {
  }

  lemma HonouredWindow(o: Options, live: KernelState, log: seq<CanonicalInput>)
    requires Honoured(o, live, log)
    ensures WindowSound(live.window)
  {
  }

  lemma AdvanceFinishKept(o: Options, session: Session, demand: Demand, p: Progress)
    requires Kept(o, session) && p.draft.events == session.kernel.live.events
    requires Honoured(o, p.draft, LoggedInputs(session.kernel.live.events) + BodyInputs(p.bodies))
    ensures Kept(o, Commit(session, AdvancePrepared(o, session, demand, p)))
  {
    hide CheckpointDue, StateDigest, Honoured, Finish, Kept, Commit;
    var due := CheckpointDue(o, p.draft, p.resolutions) || EndsRejected(p.bodies);
    var (draft, bodies) := WithCheckpoint(o, p.draft, p.bodies, due);
    var outcome := Advanced(p.resolutions, demand.partial || p.stopped, draft.cursor, draft.tick,
      StateDigest(o, draft));
    CheckpointInputs(o, p.draft, p.bodies, due);
    HonouredSame(o, p.draft, draft, LoggedInputs(session.kernel.live.events) + BodyInputs(bodies));
    if demand.count == 0 {
      NoopFinish(o, session, draft, bodies, p.deltas, outcome, p.backoff);
    } else {
      FinishKept(o, session, draft, bodies, p.deltas, outcome, p.backoff);
    }
  }

  lemma CheckpointInputs(o: Options, draft: KernelState, bodies: seq<Body>, due: bool)
    ensures BodyInputs(WithCheckpoint(o, draft, bodies, due).1) == BodyInputs(bodies)
  {
    if due {
      BodyInputsAppend(bodies, [Checkpoint(draft.tick, StateDigest(o, draft))]);
      QuietInputs(Checkpoint(draft.tick, StateDigest(o, draft)));
    }
  }

  /** Once a timeout's own checks pass, no accepted intent can make it fail. */
  lemma TimeoutKept(o: Options, session: Session, t: TimeoutInput, forced: Option<Action>)
    requires Kept(o, session)
    ensures var p := PrepareTimeout(o, session, t, forced);
      && (p.Err? && TimeoutAction(o, session.kernel.live, t, forced).Ok? ==> p.error in {Terminal, InvalidView})
      && (p.Ok? ==> Kept(o, Commit(session, p.value)))
  {
    hide ResolveOnce, TimeoutAction, CheckpointDue, StateDigest, Finish, Honoured, Kept, Commit, RejectionDeltas,
         ReplayBody;
    var k := session.kernel;
    var a := TimeoutAction(o, k.live, t, forced);
    if a.Ok? {
      var system := [SystemInput(t, a.value)];
      var log := LoggedInputs(k.live.events);
      KeptParts(o, session);
      TimeoutInert(o, k.live, t, forced);
      ResolveOnceHonoured(o, k.live, session.backoff, TimedOut, system, log);
      HonouredWindow(o, k.live, log);
      SettledReplays(o, k, session.backoff, TimedOut, system, 0);
      DeclinedReplays(o, k, session.backoff, TimedOut, system, 0);
      var r := ResolveOnce(o, k.live, session.backoff, TimedOut, system);
      if r.Ok? { TimeoutFinishKept(o, session, t, r.value); }
    }
  }

  lemma TimeoutFinishKept(o: Options, session: Session, t: TimeoutInput, r: Resolved)
    requires Kept(o, session) && r.draft.events == session.kernel.live.events
    requires r.Settled? ==>
      r.body.Resolution? && Honoured(o, r.draft, LoggedInputs(session.kernel.live.events) + r.body.inputs)
    requires r.Declined? ==> Honoured(o, r.draft, LoggedInputs(session.kernel.live.events))
    ensures Kept(o, Commit(session, TimeoutPrepared(o, session, t, r)))
  {
    hide CheckpointDue, StateDigest, Honoured, Finish, Kept, Commit, RejectionDeltas;
    var log := LoggedInputs(session.kernel.live.events);
    var second := if r.Declined? then Rejected(r.mismatch) else r.body;
    var due := r.Declined? || CheckpointDue(o, r.draft, 1);
    var notice := NoticeFor(session.kernel.live, t);
    var (draft, bodies) := WithCheckpoint(o, r.draft, [notice, second], due);
    CheckpointInputs(o, r.draft, [notice, second], due);
    BodyInputsAppend([notice], [second]);
    QuietInputs(notice);
    assert [notice] + [second] == [notice, second];
    if r.Declined? { DeclinedInputs(r.mismatch); } else { FirstInputs(second, []); }
    assert log + [] == log;
    assert BodyInputs(bodies) == BodyInputs([second]) == if r.Declined? then [] else second.inputs;
    HonouredSame(o, r.draft, draft, log + BodyInputs(bodies));
    FinishKept(o, session, draft, bodies,
      if r.Declined? then RejectionDeltas(o, r.draft, r.draft.transitionRevision + 1, r.mismatch,
        r.draft.interestScopes)
      else r.deltas,
      Advanced(if r.Declined? then 0 else 1, false, draft.cursor, draft.tick, StateDigest(o, draft)),
      if r.Declined? then session.backoff else r.backoff);
  }

  lemma IngestKept(o: Options, h: Lookup, session: Session, s: Submission)
    requires Kept(o, session)
    ensures var p := PrepareIngest(o, h, session, s); p.Ok? ==> Kept(o, Commit(session, p.value))
  {
    hide Spent, ActionError, SetReceipt, Finish, Commit, Honoured, LoggedInputs, SubmissionError;
    var p := PrepareIngest(o, h, session, s);
    if p.Ok? {
      var live := session.kernel.live;
      var key := Key(s.participantId, s.submissionId);
      var existing := FindReceipt(live.receipts, key);
      if existing.Some? {
        NoopFinish(o, session, live, [], [], p.value.outcome, session.backoff);
      } else {
        var preview := o.toAction(s.command, Context(s.participantId, s.submissionId, live.cursor, live.tick));
        var w := Collect(o, live.window, s).value;
        var receipt := ReceiptFor(live, s, w);
        var draft := live.(
          window := w,
          receipts := SetReceipt(live.receipts, ReceiptEntry(key, o.text(s.command), s.tickId, receipt, live.cursor)),
          intentActions := live.intentActions[key := preview]);
        var body := IntentAccepted(live.tick, live.cursor, s.participantId, s.submissionId, s.command,
                                   o.text(s.command), preview, s.seal);
        QuietInputs(body);
        var log := LoggedInputs(live.events);
        assert log + [] == log;
        AcceptHonoured(o, live, s, w, preview, draft, log);
        FinishKept(o, session, draft, [body], [], Accepted(receipt), session.backoff);
      }
    }
  }

  lemma AcceptHonoured(
    o: Options, live: KernelState, s: Submission, w: Window, preview: Action, draft: KernelState,
      log: seq<CanonicalInput>)
    requires Honoured(o, live, log) && Collect(o, live.window, s) == Ok(w)
    requires ActionError(o, live, s.participantId, preview).None?
    requires draft.window == w && BooksOf(draft) == BooksOf(live)
    requires draft.intentActions == live.intentActions[Key(s.participantId, s.submissionId) := preview]
    ensures Honoured(o, draft, log)
  {
    hide BooksSound, Recorded, ActionError;
    forall p | p in w.intents ensures Pending(o, draft, BooksOf(draft), w.intents[p]) {
      var intent := w.intents[p];
      if p == s.participantId {
        assert Key(intent.participantId, intent.submissionId) == Key(s.participantId, s.submissionId);
        SameBooks(o, live, WithBooks(draft, BooksOf(draft)), p, preview);
      } else {
        assert Pending(o, live, BooksOf(live), live.window.intents[p]);
        SameBooks(o, WithBooks(live, BooksOf(live)), WithBooks(draft, BooksOf(draft)), p, ActionOf(o, live, intent));
      }
    }
  }

  lemma SameBooks(o: Options, a: KernelState, b: KernelState, seat: Seat, action: Action)
    requires BooksOf(a) == BooksOf(b)
    ensures ActionError(o, a, seat, action) == ActionError(o, b, seat, action)
  {
  }

  lemma ExtensionKept(o: Options, session: Session, lane: string, record: Json)
    requires Kept(o, session)
    ensures var p := PrepareExtension(o, session, lane, record); p.Ok? ==> Kept(o, Commit(session, p.value))
  {
    hide Finish, Commit, Honoured, LoggedInputs;
    var live := session.kernel.live;
    QuietInputs(Extension(live.tick, lane, record));
    assert LoggedInputs(live.events) + [] == LoggedInputs(live.events);
    FinishKept(o, session, live, [Extension(live.tick, lane, record)], [], Extended, session.backoff);
  }

  lemma ControlKept(o: Options, h: Lookup, session: Session, c: ControlInput)
    requires Kept(o, session)
    ensures var p := PrepareControl(o, h, session, c); p.Ok? ==> Kept(o, Commit(session, p.value))
  {
    hide Finish, Commit, Honoured, LoggedInputs, RefreshScopes, Deltas, NextBackoff, WindowFor;
    var p := PrepareControl(o, h, session, c);
    if p.Ok? {
      var live := session.kernel.live;
      var key := Key(c.participantId, c.controlId);
      if key in live.controls || key in h.control {
        NoopFinish(o, session, live, [], [], p.value.outcome, session.backoff);
      } else {
        var revision := live.transitionRevision + 1;
        var moved := ApplyControl(o, live, c).value;
        var receipt := ControlReceipt(c.participantId, c.controlId, revision, live.cursor, live.tick);
        var draft := moved.(controls := live.controls[key := ControlEntry(o.text(c.control), receipt)]);
        var body := ControlTransition(live.tick, live.cursor, c.participantId, c.controlId, c.control,
          o.text(c.control));
        QuietInputs(body);
        assert LoggedInputs(live.events) + [] == LoggedInputs(live.events);
        HonouredSame(o, live, draft, LoggedInputs(live.events));
        FinishKept(o, session, draft, [body],
          Deltas(o, Delivery(FromControl, revision, live.tick, []), o.seats, live.interestScopes, draft.interestScopes,
                 draft.viewRevisions, session.backoff),
          ControlAccepted(receipt), NextBackoff(o, live.interestScopes, draft.interestScopes, session.backoff));
      }
    }
  }

  lemma InterestKept(o: Options, h: Lookup, session: Session, s: InterestSubmission)
    requires Kept(o, session)
    ensures var p := PrepareInterest(o, h, session, s); p.Ok? ==> Kept(o, Commit(session, p.value))
  {
    hide Finish, Commit, Honoured, LoggedInputs, Declare, InterestText, SetScope;
    var p := PrepareInterest(o, h, session, s);
    if p.Ok? {
      var live := session.kernel.live;
      var key := Key(s.participantId, s.submissionId);
      if key in session.kernel.interestCommands || key in h.interest {
        NoopFinish(o, session, live, [], [], p.value.outcome, session.backoff);
      } else {
        var scope := Declare(o, live, s.participantId, s.scopeId, s.declaration).value;
        var draft := live.(interestScopes := SetScope(live.interestScopes, scope));
        var body := InterestDeclared(live.tick, live.cursor, s.participantId, s.submissionId, s.scopeId, s.declaration,
                                     InterestText(o, s.scopeId, s.declaration), s.seal);
        QuietInputs(body);
        assert LoggedInputs(live.events) + [] == LoggedInputs(live.events);
        HonouredSame(o, live, draft, LoggedInputs(live.events));
        FinishKept(o, session, draft, [body],
          [Delta(s.participantId, s.scopeId, Some(s.declaration), live.transitionRevision + 1,
                 Revision(live.viewRevisions, s.participantId), live.tick, FromInterest, [], [],
                 SnapshotBody(scope.view), o.viewDigest(o.text(scope.view)))],
          InterestAccepted,
          session.backoff[ScopeKey(s.participantId, s.scopeId) := Backoff(0, o.codec.patchBackoffTicks)]);
      }
    }
  }

  lemma PreparedKept(o: Options, h: Lookup, session: Session, r: Request)
    requires Kept(o, session)
    ensures var p := Prepare(o, h, session, r); p.Ok? ==> Kept(o, Commit(session, p.value))
  {
    hide PrepareIngest, PrepareAdvance, PrepareTimeout, PrepareExtension, PrepareControl, PrepareInterest, Kept, Commit;
    match r
    case Ingest(s) => IngestKept(o, h, session, s);
    case Advance(target) => AdvanceKept(o, session, target);
    case Timeout(t, forced) => TimeoutKept(o, session, t, forced);
    case Extend(lane, record) => ExtensionKept(o, session, lane, record);
    case Control(c) => ControlKept(o, h, session, c);
    case Interest(s) => InterestKept(o, h, session, s);
  }

  lemma OpenKept(o: Options)
    requires ValidOptions(o)
    ensures Kept(o, Open(o))
  {
    hide WindowFor;
    WindowForSound(o, o.initialState, 0);
    FreshRoster(o, o.initialState, 0);
    var books := Books(map[], map[]);
    forall seat ensures |OpenCommitments(books.commitments, seat)| == 0 {}
  }

  lemma {:induction false} RunKept(o: Options, h: Lookup, session: Session, requests: seq<Request>)
    requires Kept(o, session)
    ensures Kept(o, Run(o, h, session, requests))
    decreases |requests|
  {
    hide Kept, Prepare, Commit;
    if requests != [] {
      PreparedKept(o, h, session, requests[0]);
      RunKept(o, h, Step(o, h, session, requests[0]), requests[1..]);
    }
  }

  /** In every reachable state the open window maps, or exactly one false opening is declined,
      which shrinks the window and leaves a state of the same kind. */
  lemma AcceptedIntentsResolve(o: Options, h: Lookup, requests: seq<Request>)
    requires ValidOptions(o)
    ensures var live := Run(o, h, Open(o), requests).kernel.live;
      var m := MapIntents(o, live, BooksOf(live), Intents(live));
      && !m.Refused?
      && (m.Mismatch? ==>
            && m.mismatch.participantId in live.window.intents
            && (exists at :: WrongHash(o, live, at, live.window.intents[m.mismatch.participantId], m.mismatch))
            && |Decline(live, m.mismatch).window.intents| < |live.window.intents|)
  {
    hide Run, Honoured, MapIntents, WrongHash, Decline, Intents;
    OpenKept(o);
    RunKept(o, h, Open(o), requests);
    var live := Run(o, h, Open(o), requests).kernel.live;
    PendingResolves(o, live, LoggedInputs(live.events));
  }

  /** No reachable state refuses an advance because accepted intents conflict. */
  lemma AdvancesNeverConflict(o: Options, h: Lookup, requests: seq<Request>, target: Option<int>)
    requires ValidOptions(o)
    ensures var p := PrepareAdvance(o, Run(o, h, Open(o), requests), target);
      p.Err? ==> p.error in {Terminal, InvalidTarget, StaleTarget, NotReady, InvalidView}
  {
    hide Run, Kept, PrepareAdvance, Open;
    OpenKept(o);
    RunKept(o, h, Open(o), requests);
    AdvanceKept(o, Run(o, h, Open(o), requests), target);
  }

  /** For every run: each seat's commitments were logged with the ids 0, 1, 2, ... in order; each
      was opened at most once, exactly when the books say so; every opening in the log reproduces
      the hash committed to, bound to the window it was committed in; and no seat ever has more
      than the permitted number of unopened ones. */
  lemma CommitmentsHonoured(o: Options, h: Lookup, requests: seq<Request>)
    requires ValidOptions(o)
    ensures var live := Run(o, h, Open(o), requests).kernel.live;
      var books, inputs := BooksOf(live), LoggedInputs(live.events);
      && (forall seat :: CommitIds(inputs, seat) == Upto(NextId(books.nextIds, seat)))
      && (forall seat, id :: CommitmentKey(seat, id) in books.commitments <==> 0 <= id < NextId(books.nextIds, seat))
      && (forall key :: Openings(inputs, key) == Shown(books, key) <= 1)
      && (forall i :: 0 <= i < |inputs| ==> Honest(o, books, inputs[i]))
      && (forall seat :: |OpenCommitments(books.commitments, seat)| <= o.maxOpenCommitmentsPerSeat)
  {
    hide Run, CommitIds, Openings, OpenCommitments, Honest, Pending, Open;
    OpenKept(o);
    RunKept(o, h, Open(o), requests);
  }
}
