/** Signed hash chains per controller epoch and what makes evidence of them acceptable
    (src/evidence.ts). The hash, Ed25519 and the shape checks on base64 text are uninterpreted. */
module Evidence {
  import opened CanonicalJson
  import opened CanonicalText
  import opened Wrappers
  import SC = SeatControl

  const SCHEME := "gaos.submission.ed25519.v2"

  datatype Envelope = Envelope(
    sessionId: string, seat: string, epoch: int, transitionRevision: int, submissionId: string, cursor: int, tick: int,
    clientTime: int, command: Json, prevChainHash: string)

  datatype Signed = Signed(envelope: Envelope, signature: string)

  /** `DynamicControlEpochSignatureStateV2` */
  datatype State = State(
    seat: string, epoch: int, genesisHash: string, lastChainHead: string, lastSigned: Option<string>,
    periodicTick: Option<int>, periodicTime: Option<int>, periodicSignature: Option<string>)

  datatype Bundle = Bundle(
    sessionId: string, checkpointSession: string, control: SC.Checkpoint, states: seq<State>, commands: seq<Signed>)

  datatype Key = Key(seat: string, epoch: int)

  /** `verify(publicKey, preimage, signature)`; the predicates accept well-formed base64 or hex text. */
  datatype Crypto = Crypto(
    digest: SC.Digest, hash: string -> string, verify: (string, string, string) -> bool,
    keyText: string -> bool, headText: string -> bool, digestText: string -> bool)

  /** The one cryptographic assumption: no two preimages share a hash. */
  ghost predicate Collisionless(c: Crypto) {
    forall a, b {:trigger c.hash(a), c.hash(b)} :: c.hash(a) == c.hash(b) ==> a == b
  }

  // ---- Preimages ----

  function Preimage(domain: string, value: Json): string { SCHEME + domain + "\n" + Canonical(value) }

  function EnvelopeJson(e: Envelope): Json {
    Obj(map["sessionId" := Str(e.sessionId), "seat" := Str(e.seat), "epoch" := Num(e.epoch),
            "transitionRevision" := Num(e.transitionRevision), "submissionId" := Str(e.submissionId),
            "cursor" := Num(e.cursor), "tick" := Num(e.tick), "clientTime" := Num(e.clientTime),
            "command" := e.command, "prevChainHash" := Str(e.prevChainHash)])
  }

  /** `submissionPreimageV2`; None for any thrown error. */
  function CommandPreimage(c: Crypto, e: Envelope): Option<string> {
    if e.epoch < 0 || e.transitionRevision < 0 || e.cursor < 0 || e.tick < 0 || e.clientTime < 0 then None
    else if e.sessionId == "" || e.seat == "" || e.submissionId == "" || !c.headText(e.prevChainHash) then None
    else Some(Preimage(".command", EnvelopeJson(e)))
  }

  /** `submissionChainHashV2` of an envelope whose preimage is well formed. */
  function CommandHash(c: Crypto, e: Envelope): string { c.hash(Preimage(".command", EnvelopeJson(e))) }

  function Optional(name: string, value: Option<string>): map<string, Json> {
    if value.Some? then map[name := Str(value.value)] else map[]
  }

  function GenesisJson(sessionId: string, b: SC.Base, digest: string, controllerId: string, publicKey: string): Json {
    Obj(map["sessionId" := Str(sessionId), "seat" := Str(b.seat), "epoch" := Num(b.epoch),
            "controllerId" := Str(controllerId), "publicKey" := Str(publicKey), "transitionDigest" := Str(digest)]
        + Optional("previousEpochDigest", b.previousDigest) + Optional("previousChainHead", b.previousChainHead))
  }

  function KeyOfController(b: SC.Base): Option<string> {
    if b.controller.Some? then b.controller.value.publicKey else None
  }

  /** `submissionEpochGenesisHashV2` of an occupied epoch with a key; None for any thrown error. */
  function GenesisHash(c: Crypto, sessionId: string, e: SC.Epoch): Option<string> {
    var b := e.base;
    if b.controller.None? || KeyOfController(b).None? then None
    else if b.epoch < 0 || sessionId == "" || b.seat == "" || b.controller.value.controllerId == "" then None
    else if !c.keyText(KeyOfController(b).value) || !c.digestText(e.digest) then None
    else if b.previousDigest.Some? && !c.digestText(b.previousDigest.value) then None
    else if b.previousChainHead.Some? && !c.headText(b.previousChainHead.value) then None
    else Some(c.hash(Preimage(".genesis",
      GenesisJson(sessionId, b, e.digest, b.controller.value.controllerId, KeyOfController(b).value))))
  }

  function PeriodicPreimage(c: Crypto, sessionId: string, seat: string, epoch: int, tick: int, time: int,
      head: string): Option<string> {
    if epoch < 0 || tick < 0 || time < 0 || sessionId == "" || seat == "" || !c.headText(head) then None
    else Some(Preimage(".periodic",
      Obj(map["sessionId" := Str(sessionId), "seat" := Str(seat), "epoch" := Num(epoch), "tick" := Num(tick),
              "clientTime" := Num(time), "chainHead" := Str(head)])))
  }

  // ---- Handoffs ----

  function FindEpoch(epochs: seq<SC.Epoch>, seat: string, n: int): Option<SC.Epoch> {
    if epochs == [] then None
    else if epochs[0].base.seat == seat && epochs[0].base.epoch == n then Some(epochs[0])
    else FindEpoch(epochs[1..], seat, n)
  }

  /** `handoffFromEpoch` is defined, with the outgoing controller's key and both signature lists. */
  predicate HandoffComplete(epochs: seq<SC.Epoch>, e: SC.Epoch) {
    var b := e.base;
    var previous := FindEpoch(epochs, b.seat, b.epoch - 1);
    && b.epoch != 0 && b.authorization == SC.ByHandoff && b.status == SC.Occupied
    && b.previousChainHead.Some? && KeyOfController(b).Some?
    && previous.Some? && KeyOfController(previous.value.base).Some?
    && b.evidence.Some? && b.evidence.value.Handoff?
  }

  /** `controllerHandoffPreimageV2`; None for a thrown error, which nothing catches. */
  function HandoffPreimage(c: Crypto, sessionId: string, epochs: seq<SC.Epoch>, e: SC.Epoch): Option<string>
    requires HandoffComplete(epochs, e)
  {
    var b := e.base;
    if b.epoch < 1 || b.effective < 0 || !c.headText(b.previousChainHead.value)
      || !c.keyText(KeyOfController(b).value) then None
    else Some(Preimage(".handoff",
      Obj(map["schema" := Str("gaos.controller-handoff.v2"), "sessionId" := Str(sessionId), "seat" := Str(b.seat),
              "outgoingEpoch" := Num(b.epoch - 1), "outgoingChainHead" := Str(b.previousChainHead.value),
              "incomingEpoch" := Num(b.epoch), "incomingControllerId" := Str(b.controller.value.controllerId),
              "incomingPublicKey" := Str(KeyOfController(b).value),
                "effectiveTransitionRevision" := Num(b.effective)])))
  }

  predicate HandoffThrows(c: Crypto, sessionId: string, epochs: seq<SC.Epoch>, e: SC.Epoch) {
    HandoffComplete(epochs, e) && HandoffPreimage(c, sessionId, epochs, e).None?
  }

  predicate Vouches(c: Crypto, key: string, preimage: string, signatures: map<string, string>, seat: string) {
    seat in signatures && signatures[seat] != "" && c.verify(key, preimage, signatures[seat])
  }

  predicate HandoffValid(c: Crypto, sessionId: string, epochs: seq<SC.Epoch>, e: SC.Epoch) {
    && HandoffComplete(epochs, e)
    && HandoffPreimage(c, sessionId, epochs, e).Some?
    && var preimage := HandoffPreimage(c, sessionId, epochs, e).value;
       var previous := FindEpoch(epochs, e.base.seat, e.base.epoch - 1).value;
    && Vouches(c, KeyOfController(previous.base).value, preimage, e.base.evidence.value.outgoing, e.base.seat)
    && Vouches(c, KeyOfController(e.base).value, preimage, e.base.evidence.value.incoming, e.base.seat)
  }

  predicate AuthorizationValid(c: Crypto, sessionId: string, epochs: seq<SC.Epoch>, e: SC.Epoch) {
    match e.base.authorization
    case ByHandoff => HandoffValid(c, sessionId, epochs, e)
    case ByPolicy => e.base.evidence.Some? && e.base.evidence.value.HostPolicy?
    case ByGenesis => true
  }

  // ---- Chains ----

  function KeyOf(e: SC.Epoch): Key { Key(e.base.seat, e.base.epoch) }

  /** `states.set` in order. */
  function StateMap(states: seq<State>): map<Key, State> {
    if states == [] then map[]
    else
      var last := states[|states| - 1];
      StateMap(states[..|states| - 1])[Key(last.seat, last.epoch) := last]
  }

  predicate DistinctStates(states: seq<State>) {
    forall i, j :: 0 <= i < j < |states| ==>
      Key(states[i].seat, states[i].epoch) != Key(states[j].seat, states[j].epoch)
  }

  /** The chain head each occupied epoch starts from. */
  function FirstHeads(c: Crypto, sessionId: string, epochs: seq<SC.Epoch>): map<Key, string> {
    if epochs == [] then map[]
    else
      var e := epochs[|epochs| - 1];
      var before := FirstHeads(c, sessionId, epochs[..|epochs| - 1]);
      if e.base.status == SC.Occupied && GenesisHash(c, sessionId, e).Some?
      then before[KeyOf(e) := GenesisHash(c, sessionId, e).value] else before
  }

  /** Heads now, and every head a chain went through. */
  datatype Chains = Chains(heads: map<Key, string>, reached: map<Key, set<string>>)

  function FirstChains(c: Crypto, sessionId: string, epochs: seq<SC.Epoch>): Chains {
    var heads := FirstHeads(c, sessionId, epochs);
    Chains(heads, map k | k in heads :: {heads[k]})
  }

  /** `ledger.authorize`: the epoch in force at a revision, if it is the one named and occupied. */
  function Authorized(l: SC.Ledger, seat: string, epoch: int, at: int): Option<SC.Epoch> {
    if seat !in l.history || at < 0 || at > l.revision then None
    else match SC.EpochAt(l.history[seat], at)
      case None => None
      case Some(e) => if e.base.status == SC.Occupied && e.base.epoch == epoch then Some(e) else None
  }

  /** One signed command continues the chain of the epoch in force. */
  predicate Continues(c: Crypto, sessionId: string, l: SC.Ledger, chains: Chains, s: Signed) {
    var e := s.envelope;
    var active := Authorized(l, e.seat, e.epoch, e.transitionRevision);
    && e.sessionId == sessionId
    && active.Some? && KeyOfController(active.value.base).Some?
    && Key(e.seat, e.epoch) in chains.heads && e.prevChainHash == chains.heads[Key(e.seat, e.epoch)]
    && CommandPreimage(c, e).Some?
    && c.verify(KeyOfController(active.value.base).value, CommandPreimage(c, e).value, s.signature)
  }

  function Step(c: Crypto, chains: Chains, e: Envelope): Chains {
    var key, head := Key(e.seat, e.epoch), CommandHash(c, e);
    Chains(chains.heads[key := head],
           chains.reached[key := (if key in chains.reached then chains.reached[key] else {}) + {head}])
  }

  /** The chains after a list of commands that all continue them; None when one does not. */
  function Chained(c: Crypto, sessionId: string, l: SC.Ledger, chains: Chains, commands: seq<Signed>): Option<Chains>
    decreases |commands|
  {
    if commands == [] then Some(chains)
    else if !Continues(c, sessionId, l, chains, commands[0]) then None
    else Chained(c, sessionId, l, Step(c, chains, commands[0].envelope), commands[1..])
  }

  function InsertCommand(s: Signed, sorted: seq<Signed>): seq<Signed> {
    if sorted == [] then [s]
    else if s.envelope.cursor <= sorted[0].envelope.cursor then [s] + sorted
    else [sorted[0]] + InsertCommand(s, sorted[1..])
  }

  /** The commands by cursor, equal cursors in the order given. */
  function Ordered(commands: seq<Signed>): seq<Signed> {
    if commands == [] then [] else InsertCommand(commands[0], Ordered(commands[1..]))
  }

  predicate DistinctCursors(commands: seq<Signed>) {
    forall i, j :: 0 <= i < j < |commands| ==> commands[i].envelope.cursor != commands[j].envelope.cursor
  }

  // ---- Closing an epoch ----

  predicate HasPeriodic(s: State) {
    s.lastSigned.Some? || s.periodicTick.Some? || s.periodicTime.Some? || s.periodicSignature.Some?
  }

  predicate PeriodicValid(c: Crypto, sessionId: string, e: SC.Epoch, s: State, chains: Chains) {
    && s.lastSigned.Some? && s.periodicTick.Some? && s.periodicTime.Some? && s.periodicSignature.Some?
    && KeyOfController(e.base).Some?
    && KeyOf(e) in chains.reached && s.lastSigned.value in chains.reached[KeyOf(e)]
    && var preimage := PeriodicPreimage(c, sessionId, e.base.seat, e.base.epoch, s.periodicTick.value,
                                        s.periodicTime.value, s.lastSigned.value);
    && preimage.Some? && c.verify(KeyOfController(e.base).value, preimage.value, s.periodicSignature.value)
  }

  /** The chain ends where the signature state and a following handoff say. */
  predicate Closed(c: Crypto, b: Bundle, states: map<Key, State>, chains: Chains, e: SC.Epoch) {
    var key := KeyOf(e);
    var next := FindEpoch(b.control.epochs, e.base.seat, e.base.epoch + 1);
    && (key in states && key in chains.heads ==> states[key].lastChainHead == chains.heads[key])
    && (key in states && HasPeriodic(states[key]) ==> PeriodicValid(c, b.sessionId, e, states[key], chains))
    && (next.Some? && next.value.base.authorization == SC.ByHandoff ==>
          key in chains.heads && next.value.base.previousChainHead == Some(chains.heads[key]))
  }

  /** An occupied epoch has a signing policy and a signature state that starts at its genesis hash. */
  predicate StateSigned(c: Crypto, sessionId: string, states: map<Key, State>, e: SC.Epoch) {
    e.base.status == SC.Occupied ==>
      && e.base.controller.Some? && e.base.controller.value.publicKey.Some? && e.base.controller.value.signingTier.Some?
      && KeyOf(e) in states
      && GenesisHash(c, sessionId, e) == Some(states[KeyOf(e)].genesisHash)
  }

  /** What the checks on one epoch of the schedule ask for. */
  predicate EpochSigned(c: Crypto, b: Bundle, states: map<Key, State>, e: SC.Epoch) {
    AuthorizationValid(c, b.sessionId, b.control.epochs, e) && StateSigned(c, b.sessionId, states, e)
  }

  ghost predicate EpochsSigned(c: Crypto, b: Bundle, states: map<Key, State>) {
    && (forall i :: 0 <= i < |b.control.epochs| ==> EpochSigned(c, b, states, b.control.epochs[i]))
    && (forall k :: k in states ==> exists i :: 0 <= i < |b.control.epochs| && KeyOf(b.control.epochs[i]) == k)
  }

  ghost predicate EpochsClosed(c: Crypto, b: Bundle, states: map<Key, State>, chains: Chains) {
    forall i :: 0 <= i < |b.control.epochs| ==> Closed(c, b, states, chains, b.control.epochs[i])
  }

  /** The verdict `valid` of `verifyDynamicControlEvidenceV2`, when it returns. */
  ghost predicate Accepted(c: Crypto, b: Bundle) {
    var states := StateMap(b.states);
    var ledger := SC.Rehydrate(c.digest, b.control);
    && b.checkpointSession == b.sessionId && b.control.sessionId == b.sessionId
    && ledger.Some? && DistinctStates(b.states)
    && EpochsSigned(c, b, states)
    && DistinctCursors(Ordered(b.commands))
    && var chains := Chained(c, b.sessionId, ledger.value, FirstChains(c, b.sessionId, b.control.epochs),
      Ordered(b.commands));
    && chains.Some? && EpochsClosed(c, b, states, chains.value)
  }

  // ---- Two accepted bundles of one checkpoint hold the same commands ----

  /** The envelopes of one epoch, by cursor. */
  function EnvelopesOf(commands: seq<Signed>, key: Key): seq<Envelope> {
    if commands == [] then []
    else
      var e := commands[0].envelope;
      (if Key(e.seat, e.epoch) == key then [e] else []) + EnvelopesOf(commands[1..], key)
  }

  /** The head a chain reaches from `head`. */
  function EndOf(c: Crypto, head: string, envelopes: seq<Envelope>): string {
    if envelopes == [] then head else CommandHash(c, envelopes[|envelopes| - 1])
  }

  ghost predicate Linked(head: string, c: Crypto, envelopes: seq<Envelope>) {
    forall i :: 0 <= i < |envelopes| ==> envelopes[i].prevChainHash == EndOf(c, head, envelopes[..i])
  }

  lemma EnvelopeJsonInjective(a: Envelope, b: Envelope)
    requires EnvelopeJson(a) == EnvelopeJson(b)
    ensures a == b
  {
    var m, n := EnvelopeJson(a).fields, EnvelopeJson(b).fields;
    assert m["sessionId"] == n["sessionId"] && m["seat"] == n["seat"] && m["epoch"] == n["epoch"];
    assert m["transitionRevision"] == n["transitionRevision"] && m["submissionId"] == n["submissionId"];
    assert m["cursor"] == n["cursor"] && m["tick"] == n["tick"] && m["clientTime"] == n["clientTime"];
    assert m["command"] == n["command"] && m["prevChainHash"] == n["prevChainHash"];
  }

  lemma SamePrefix(a: string, x: string, y: string)
    requires a + x == a + y
    ensures x == y
  {
    assert (a + x)[|a|..] == x && (a + y)[|a|..] == y;
  }

  /** Equal command hashes mean equal envelopes. */
  lemma CommandHashInjective(c: Crypto, a: Envelope, b: Envelope)
    requires Collisionless(c) && CommandHash(c, a) == CommandHash(c, b)
    ensures a == b
  {
    hide Canonical, EnvelopeJson;
    SamePrefix(SCHEME + ".command" + "\n", Canonical(EnvelopeJson(a)), Canonical(EnvelopeJson(b)));
    CanonicalInjective(EnvelopeJson(a), EnvelopeJson(b));
    EnvelopeJsonInjective(a, b);
  }

  /** A chain head is either a genesis or a command hash, never both. */
  lemma DomainsApart(c: Crypto, e: Envelope, genesis: Json)
    requires Collisionless(c)
    ensures CommandHash(c, e) != c.hash(Preimage(".genesis", genesis))
  {
    hide Canonical, EnvelopeJson;
    var a, b := Preimage(".command", EnvelopeJson(e)), Preimage(".genesis", genesis);
    assert a[|SCHEME| + 1] == 'c' && b[|SCHEME| + 1] == 'g';
  }

  /** Two chains from one genesis to one head are the same chain. */
  lemma {:induction false} ChainUnique(c: Crypto, genesis: Json, x: seq<Envelope>, y: seq<Envelope>)
    requires Collisionless(c)
    requires var head := c.hash(Preimage(".genesis", genesis));
      Linked(head, c, x) && Linked(head, c, y) && EndOf(c, head, x) == EndOf(c, head, y)
    ensures x == y
    decreases |x|
  {
    hide CommandHash, Preimage;
    var head := c.hash(Preimage(".genesis", genesis));
    if x == [] || y == [] {
      if x != [] { DomainsApart(c, x[|x| - 1], genesis); }
      if y != [] { DomainsApart(c, y[|y| - 1], genesis); }
    } else {
      var i, j := |x| - 1, |y| - 1;
      CommandHashInjective(c, x[i], y[j]);
      ShorterLinked(c, head, x);
      ShorterLinked(c, head, y);
      ChainUnique(c, genesis, x[..i], y[..j]);
      assert x == x[..i] + [x[i]] && y == y[..j] + [y[j]];
    }
  }

  lemma ShorterLinked(c: Crypto, head: string, x: seq<Envelope>)
    requires x != [] && Linked(head, c, x)
    ensures Linked(head, c, x[..|x| - 1]) && x[|x| - 1].prevChainHash == EndOf(c, head, x[..|x| - 1])
  {
    hide CommandHash;
    var before := x[..|x| - 1];
    forall i | 0 <= i < |before| ensures before[i].prevChainHash == EndOf(c, head, before[..i]) {
      assert before[..i] == x[..i];
    }
  }

  /** Going through the commands builds, for each epoch, one linked chain that ends at its head. */
  lemma {:induction false} ChainedEach(
    c: Crypto, sessionId: string, l: SC.Ledger, chains: Chains, commands: seq<Signed>, key: Key)
    requires Chained(c, sessionId, l, chains, commands).Some?
    ensures var after := Chained(c, sessionId, l, chains, commands).value;
      var own := EnvelopesOf(commands, key);
      && (key in after.heads <==> key in chains.heads)
      && (key !in chains.heads ==> own == [])
      && (key in chains.heads ==>
        Linked(chains.heads[key], c, own) && after.heads[key] == EndOf(c, chains.heads[key], own))
    decreases |commands|
  {
    hide CommandHash, Authorized, CommandPreimage, Linked, EndOf, KeyOfController;
    NothingLinked(c);
    if commands != [] {
      var e := commands[0].envelope;
      var next := Step(c, chains, e);
      ChainedEach(c, sessionId, l, next, commands[1..], key);
      var rest := EnvelopesOf(commands[1..], key);
      assert [] + rest == rest;
      if Key(e.seat, e.epoch) == key { FirstLink(c, chains.heads[key], e, rest); }
    }
  }

  lemma NothingLinked(c: Crypto)
    ensures forall head :: Linked(head, c, []) && EndOf(c, head, []) == head
  {
  }

  lemma FirstLink(c: Crypto, head: string, e: Envelope, rest: seq<Envelope>)
    requires e.prevChainHash == head && Linked(CommandHash(c, e), c, rest)
    ensures Linked(head, c, [e] + rest) && EndOf(c, head, [e] + rest) == EndOf(c, CommandHash(c, e), rest)
  {
    hide CommandHash;
    var all := [e] + rest;
    forall i | 0 <= i < |all| ensures all[i].prevChainHash == EndOf(c, head, all[..i]) {
      if i > 0 {
        assert all[..i] == [e] + rest[..i - 1];
        assert rest[i - 1].prevChainHash == EndOf(c, CommandHash(c, e), rest[..i - 1]);
      }
    }
  }

  /** A first head is the genesis hash of an epoch of the schedule. */
  lemma {:induction false} FirstHeadFrom(c: Crypto, sessionId: string, epochs: seq<SC.Epoch>, key: Key)
    ensures var heads := FirstHeads(c, sessionId, epochs);
      && (key in heads ==>
        exists i :: 0 <= i < |epochs| && KeyOf(epochs[i]) == key && epochs[i].base.status == SC.Occupied)
      && (key in heads ==> exists genesis :: heads[key] == c.hash(Preimage(".genesis", genesis)))
  {
    hide Preimage, GenesisJson;
    if epochs != [] {
      var last := |epochs| - 1;
      FirstHeadFrom(c, sessionId, epochs[..last], key);
      var e := epochs[last];
      if e.base.status == SC.Occupied && GenesisHash(c, sessionId, e).Some? && KeyOf(e) == key {
        var json := GenesisJson(sessionId, e.base, e.digest, e.base.controller.value.controllerId,
          KeyOfController(e.base).value);
        assert GenesisHash(c, sessionId, e).value == c.hash(Preimage(".genesis", json));
      } else if key in FirstHeads(c, sessionId, epochs) {
        var i :| 0 <= i < |epochs[..last]| && KeyOf(epochs[..last][i]) == key
          && epochs[..last][i].base.status == SC.Occupied;
        assert epochs[i] == epochs[..last][i];
      }
    }
  }

  /** In an accepted bundle each epoch's commands form one chain from its genesis hash to the head its
      signature state records. */
  lemma AcceptedChain(c: Crypto, b: Bundle, key: Key)
    requires Accepted(c, b)
    ensures var heads := FirstHeads(c, b.sessionId, b.control.epochs);
      var own := EnvelopesOf(Ordered(b.commands), key);
      && (key !in heads ==> own == [])
      && (key in heads ==>
            && key in StateMap(b.states)
            && Linked(heads[key], c, own) && EndOf(c, heads[key], own) == StateMap(b.states)[key].lastChainHead)
  {
    hide SC.Rehydrate, Ordered, Chained, FirstHeads, StateMap, AuthorizationValid, GenesisHash, PeriodicValid,
         CommandHash, DistinctCursors;
    var ledger := SC.Rehydrate(c.digest, b.control).value;
    var first := FirstChains(c, b.sessionId, b.control.epochs);
    ChainedEach(c, b.sessionId, ledger, first, Ordered(b.commands), key);
    if key in first.heads {
      FirstHeadFrom(c, b.sessionId, b.control.epochs, key);
      var i :| 0 <= i < |b.control.epochs| && KeyOf(b.control.epochs[i]) == key
        && b.control.epochs[i].base.status == SC.Occupied;
      assert EpochSigned(c, b, StateMap(b.states), b.control.epochs[i]);
      var after := Chained(c, b.sessionId, ledger, first, Ordered(b.commands)).value;
      assert Closed(c, b, StateMap(b.states), after, b.control.epochs[i]);
    }
  }

  /** If two bundles share a checkpoint and both verify, they hold exactly the same command envelopes
      in every epoch, in the same order. */
  lemma SameCommands(c: Crypto, a: Bundle, b: Bundle, key: Key)
    requires Collisionless(c) && Accepted(c, a) && Accepted(c, b)
    requires a.(commands := b.commands) == b
    ensures EnvelopesOf(Ordered(a.commands), key) == EnvelopesOf(Ordered(b.commands), key)
  {
    hide Accepted, Ordered, FirstHeads, Preimage, Collisionless, EndOf, Linked, StateMap;
    AcceptedChain(c, a, key);
    AcceptedChain(c, b, key);
    var heads := FirstHeads(c, a.sessionId, a.control.epochs);
    if key in heads {
      FirstHeadFrom(c, a.sessionId, a.control.epochs, key);
      var genesis :| heads[key] == c.hash(Preimage(".genesis", genesis));
      ChainUnique(c, genesis, EnvelopesOf(Ordered(a.commands), key), EnvelopesOf(Ordered(b.commands), key));
    }
  }

  // ---- The order of the commands array ----

  ghost predicate ByCursor(s: seq<Signed>) {
    forall i, j :: 0 <= i < j < |s| ==> s[i].envelope.cursor <= s[j].envelope.cursor
  }

  lemma {:induction false} InsertMembers(s: Signed, sorted: seq<Signed>)
    ensures multiset(InsertCommand(s, sorted)) == multiset(sorted) + multiset{s}
    ensures forall x :: x in InsertCommand(s, sorted) <==> x in sorted || x == s
  {
    if sorted != [] {
      assert sorted == [sorted[0]] + sorted[1..];
      if s.envelope.cursor > sorted[0].envelope.cursor { InsertMembers(s, sorted[1..]); }
    }
  }

  lemma {:induction false} InsertKeeps(s: Signed, sorted: seq<Signed>)
    requires ByCursor(sorted)
    ensures ByCursor(InsertCommand(s, sorted))
  {
    if sorted != [] && s.envelope.cursor > sorted[0].envelope.cursor {
      InsertKeeps(s, sorted[1..]);
      InsertMembers(s, sorted[1..]);
      var rest := InsertCommand(s, sorted[1..]);
      forall i | 0 <= i < |rest| ensures sorted[0].envelope.cursor <= rest[i].envelope.cursor {
        assert rest[i] in rest;
      }
    }
  }

  lemma {:induction false} OrderedSorts(commands: seq<Signed>)
    ensures ByCursor(Ordered(commands)) && multiset(Ordered(commands)) == multiset(commands)
  {
    if commands != [] {
      OrderedSorts(commands[1..]);
      InsertKeeps(commands[0], Ordered(commands[1..]));
      InsertMembers(commands[0], Ordered(commands[1..]));
      assert commands == [commands[0]] + commands[1..];
    }
  }

  lemma SameFirst(a: seq<Signed>, b: seq<Signed>)
    requires ByCursor(a) && ByCursor(b) && DistinctCursors(a) && multiset(a) == multiset(b) && a != []
    ensures b != [] && a[0] == b[0]
  {
    assert a[0] in multiset(b);
    assert b[0] in multiset(a);
    var i :| 0 <= i < |a| && a[i] == b[0];
    var j :| 0 <= j < |b| && b[j] == a[0];
    assert a[0].envelope.cursor <= a[i].envelope.cursor && b[0].envelope.cursor <= b[j].envelope.cursor;
  }

  lemma WithoutFirst(a: seq<Signed>)
    requires a != []
    ensures multiset(a[1..]) == multiset(a) - multiset{a[0]}
    ensures ByCursor(a) ==> ByCursor(a[1..])
    ensures DistinctCursors(a) ==> DistinctCursors(a[1..])
  {
    assert a == [a[0]] + a[1..];
  }

  /** Two lists sorted by distinct cursors with the same members are equal. */
  lemma {:induction false} SortedUnique(a: seq<Signed>, b: seq<Signed>)
    requires ByCursor(a) && ByCursor(b) && DistinctCursors(a) && multiset(a) == multiset(b)
    ensures a == b
  {
    hide ByCursor, DistinctCursors;
    if a == [] {
      assert |multiset(b)| == |b|;
    } else {
      SameFirst(a, b);
      WithoutFirst(a);
      WithoutFirst(b);
      SortedUnique(a[1..], b[1..]);
      assert a == [a[0]] + a[1..] && b == [b[0]] + b[1..];
    }
  }

  /** Two equal cursors in a list show up next to each other in every reordering of it. */
  lemma CursorsCounted(a: seq<Signed>, b: seq<Signed>)
    requires multiset(a) == multiset(b) && DistinctCursors(a)
    ensures DistinctCursors(b)
  {
    forall i, j | 0 <= i < j < |b| ensures b[i].envelope.cursor != b[j].envelope.cursor {
      if b[i] == b[j] {
        TwiceIn(b, i, j);
        assert multiset(a)[b[i]] >= 2;
        OnceIn(a, b[i]);
        assert false;
      } else {
        assert b[i] in multiset(a) && b[j] in multiset(a);
        var m :| 0 <= m < |a| && a[m] == b[i];
        var n :| 0 <= n < |a| && a[n] == b[j];
      }
    }
  }

  lemma TwiceIn(b: seq<Signed>, i: nat, j: nat)
    requires i < j < |b| && b[i] == b[j]
    ensures multiset(b)[b[i]] >= 2
  {
    assert b == b[..j] + [b[j]] + b[j + 1..];
    assert b[i] in b[..j];
    assert multiset(b) == multiset(b[..j]) + multiset{b[j]} + multiset(b[j + 1..]);
  }

  lemma {:induction false} OnceIn(a: seq<Signed>, s: Signed)
    requires DistinctCursors(a)
    ensures multiset(a)[s] <= 1
  {
    if a != [] {
      assert a == [a[0]] + a[1..];
      OnceIn(a[1..], s);
      assert forall i :: 0 <= i < |a[1..]| ==> a[1..][i].envelope.cursor != a[0].envelope.cursor;
      assert a[0] !in a[1..];
    }
  }

  /** The verdict does not depend on the order of the commands array. */
  lemma OrderIrrelevant(c: Crypto, a: Bundle, b: Bundle)
    requires a.(commands := b.commands) == b && multiset(a.commands) == multiset(b.commands)
    ensures Accepted(c, a) <==> Accepted(c, b)
  {
    hide SC.Rehydrate, Chained, EpochsClosed, EpochSigned, FirstChains, StateMap, Ordered, DistinctCursors;
    OrderedSorts(a.commands);
    OrderedSorts(b.commands);
    if DistinctCursors(Ordered(a.commands)) {
      CursorsCounted(Ordered(a.commands), Ordered(b.commands));
      SortedUnique(Ordered(a.commands), Ordered(b.commands));
    }
    if DistinctCursors(Ordered(b.commands)) {
      CursorsCounted(Ordered(b.commands), Ordered(a.commands));
    }
    SameChecks(c, a, b);
  }

  /** The checks on epochs do not look at the commands. */
  lemma SameChecks(c: Crypto, a: Bundle, b: Bundle)
    requires a.(commands := b.commands) == b
    ensures forall states :: EpochsSigned(c, a, states) <==> EpochsSigned(c, b, states)
    ensures forall states, chains :: EpochsClosed(c, a, states, chains) <==> EpochsClosed(c, b, states, chains)
  {
    hide AuthorizationValid, GenesisHash, PeriodicValid;
    forall states ensures EpochsSigned(c, a, states) <==> EpochsSigned(c, b, states) {
      forall i | 0 <= i < |a.control.epochs|
        ensures EpochSigned(c, a, states, a.control.epochs[i]) <==> EpochSigned(c, b, states, b.control.epochs[i]) {}
    }
    forall states, chains ensures EpochsClosed(c, a, states, chains) <==> EpochsClosed(c, b, states, chains) {
      forall i | 0 <= i < |a.control.epochs|
        ensures Closed(c, a, states, chains, a.control.epochs[i]) <==>
          Closed(c, b, states, chains, b.control.epochs[i]) {}
    }
  }
}
