/** `verifyDynamicControlEvidenceV2` (src/evidence.ts) with its maps and reason lists, proved to reach
    exactly the verdict the chain rules ask for. */
module EvidenceVerifier {
  import opened Wrappers
  import opened Evidence
  import SC = SeatControl
  import SL = SeatControlLedgers

  datatype Reason =
    | InvalidCheckpoint | ForeignHistory | BadHistory | DuplicateState(key: Key) | MissingPolicy(key: Key)
    | MissingState(key: Key) | GenesisMismatch(key: Key) | BadGenesis(key: Key) | UnknownEpoch(key: Key)
    | DuplicateCursors | BadCommand(cursor: int) | HeadMismatch(key: Key) | PeriodicInvalid(key: Key)
    | HandoffGap(key: Key)

  datatype Verification = Verification(valid: bool, commandsValid: bool, controlHistoryValid: bool,
    reasons: seq<Reason>)

  /** Collects the signature states by epoch. */
  method CollectStates(states: seq<State>) returns (byEpoch: map<Key, State>, reasons: seq<Reason>)
    ensures byEpoch == StateMap(states) && (reasons == [] <==> DistinctStates(states))
  {
    byEpoch, reasons := map[], [];
    var i := 0;
    while i < |states|
      invariant 0 <= i <= |states|
      invariant byEpoch == StateMap(states[..i])
      invariant forall k :: k in byEpoch <==> exists j :: 0 <= j < i && Key(states[j].seat, states[j].epoch) == k
      invariant reasons == [] <==> DistinctStates(states[..i])
    {
      var key := Key(states[i].seat, states[i].epoch);
      assert states[..i + 1][..i] == states[..i];
      assert forall j, k :: 0 <= j < k < i ==>
        states[..i + 1][j] == states[..i][j] && states[..i + 1][k] == states[..i][k];
      OneMoreState(states, i);
      if key in byEpoch { reasons := reasons + [DuplicateState(key)]; }
      byEpoch := byEpoch[key := states[i]];
      i := i + 1;
    }
    assert states[..i] == states;
  }

  lemma OneMoreState(states: seq<State>, i: nat)
    requires i < |states|
    ensures DistinctStates(states[..i + 1])
      <==> DistinctStates(states[..i])
           && forall j :: 0 <= j < i ==> Key(states[j].seat, states[j].epoch) != Key(states[i].seat, states[i].epoch)
  {
    var before, after := states[..i], states[..i + 1];
    assert forall j :: 0 <= j < i ==> before[j] == after[j] == states[j];
    assert after[i] == states[i];
  }

  /** The checks on one occupied epoch; a reason for each that fails. */
  method CheckState(c: Crypto, sessionId: string, states: map<Key, State>, e: SC.Epoch)
    returns (genesis: Option<string>, reasons: seq<Reason>)
    requires e.base.status == SC.Occupied
    ensures genesis == GenesisHash(c, sessionId, e)
    ensures reasons == [] <==> StateSigned(c, sessionId, states, e)
  {
    hide Preimage, GenesisJson;
    var key, controller := KeyOf(e), e.base.controller;
    reasons := [];
    genesis := None;
    if controller.None? || controller.value.publicKey.None? || controller.value.signingTier.None? {
      reasons := reasons + [MissingPolicy(key)];
    }
    if key !in states { reasons := reasons + [MissingState(key)]; }
    if controller.Some? && controller.value.publicKey.Some? {
      genesis := GenesisHash(c, sessionId, e);
      if genesis.None? {
        reasons := reasons + [BadGenesis(key)];
      } else if key in states && states[key].genesisHash != genesis.value {
        reasons := reasons + [GenesisMismatch(key)];
      }
    }
  }

  /** Goes through the epochs of a rehydrated schedule; None is the handoff preimage's uncaught error. */
  method CheckEpochs(c: Crypto, sessionId: string, epochs: seq<SC.Epoch>, states: map<Key, State>)
    returns (checked: Option<(Chains, bool, seq<Reason>)>)
    ensures checked.None? <==> exists i :: 0 <= i < |epochs| && HandoffThrows(c, sessionId, epochs, epochs[i])
    ensures checked.Some? ==>
      && checked.value.0 == FirstChains(c, sessionId, epochs)
      && (checked.value.1 <==> forall i :: 0 <= i < |epochs| ==> AuthorizationValid(c, sessionId, epochs, epochs[i]))
      && (checked.value.2 == [] <==>
            && (forall i :: 0 <= i < |epochs| ==> StateSigned(c, sessionId, states, epochs[i]))
            && (forall k :: k in states ==> exists i :: 0 <= i < |epochs| && KeyOf(epochs[i]) == k))
  {
    hide AuthorizationValid, StateSigned, GenesisHash, HandoffThrows;
    var heads: map<Key, string>, authorized, reasons := map[], true, [];
    var i := 0;
    while i < |epochs|
      invariant 0 <= i <= |epochs|
      invariant heads == FirstHeads(c, sessionId, epochs[..i])
      invariant forall j :: 0 <= j < i ==> !HandoffThrows(c, sessionId, epochs, epochs[j])
      invariant authorized <==> forall j :: 0 <= j < i ==> AuthorizationValid(c, sessionId, epochs, epochs[j])
      invariant reasons == [] <==> forall j :: 0 <= j < i ==> StateSigned(c, sessionId, states, epochs[j])
    {
      var e := epochs[i];
      assert epochs[..i + 1][..i] == epochs[..i];
      if HandoffThrows(c, sessionId, epochs, e) { return None; }
      authorized := authorized && AuthorizationValid(c, sessionId, epochs, e);
      if e.base.status == SC.Occupied {
        var genesis, more := CheckState(c, sessionId, states, e);
        reasons := reasons + more;
        if genesis.Some? { heads := heads[KeyOf(e) := genesis.value]; }
      } else {
        VacantSigned(c, sessionId, states, e);
      }
      i := i + 1;
    }
    assert epochs[..i] == epochs;
    var unknown := UnknownStates(epochs, states);
    checked := Some((Chains(heads, map k | k in heads :: {heads[k]}), authorized, reasons + unknown));
  }

  lemma VacantSigned(c: Crypto, sessionId: string, states: map<Key, State>, e: SC.Epoch)
    requires e.base.status == SC.Vacant
    ensures StateSigned(c, sessionId, states, e)
  {
  }

  method UnknownStates(epochs: seq<SC.Epoch>, states: map<Key, State>) returns (reasons: seq<Reason>)
    ensures reasons == [] <==> forall k :: k in states ==> exists i :: 0 <= i < |epochs| && KeyOf(epochs[i]) == k
  {
    reasons := [];
    var left := states.Keys;
    while left != {}
      invariant left <= states.Keys
      invariant reasons == [] <==>
        forall k :: k in states && k !in left ==> exists i :: 0 <= i < |epochs| && KeyOf(epochs[i]) == k
      decreases |left|
    {
      var key :| key in left;
      left := left - {key};
      if forall i :: 0 <= i < |epochs| ==> KeyOf(epochs[i]) != key { reasons := reasons + [UnknownEpoch(key)]; }
    }
  }

  /** The loop over the commands in cursor order. */
  method CheckCommands(c: Crypto, sessionId: string, ledger: SL.SeatControlLedger, first: Chains, commands: seq<Signed>)
    returns (chains: Chains, reasons: seq<Reason>)
    requires ledger.Valid()
    ensures reasons == [] <==> Chained(c, sessionId, ledger.Value(), first, commands).Some?
    ensures reasons == [] ==> Some(chains) == Chained(c, sessionId, ledger.Value(), first, commands)
  {
    hide Continues, Step;
    chains, reasons := first, [];
    var i := 0;
    assert commands[0..] == commands;
    while i < |commands|
      invariant 0 <= i <= |commands|
      invariant reasons == [] ==>
        Chained(c, sessionId, ledger.Value(), first, commands)
          == Chained(c, sessionId, ledger.Value(), chains, commands[i..])
      invariant reasons != [] ==> Chained(c, sessionId, ledger.Value(), first, commands).None?
    {
      var s := commands[i];
      assert commands[i..][1..] == commands[i + 1..];
      var continues := CheckCommand(c, sessionId, ledger, chains, s);
      if continues {
        chains := Step(c, chains, s.envelope);
      } else {
        reasons := reasons + [BadCommand(s.envelope.cursor)];
      }
      i := i + 1;
    }
  }

  method CheckCommand(c: Crypto, sessionId: string, ledger: SL.SeatControlLedger, chains: Chains, s: Signed)
    returns (continues: bool)
    requires ledger.Valid()
    ensures continues <==> Continues(c, sessionId, ledger.Value(), chains, s)
  {
    hide SC.Sound, Preimage;
    var e := s.envelope;
    if e.sessionId != sessionId { return false; }
    var active := ledger.Authorize(e.seat, e.epoch, None, e.transitionRevision);
    if active.None? || KeyOfController(active.value.base).None? { return false; }
    var key := Key(e.seat, e.epoch);
    if key !in chains.heads || e.prevChainHash != chains.heads[key] { return false; }
    var preimage := CommandPreimage(c, e);
    continues := preimage.Some? && c.verify(KeyOfController(active.value.base).value, preimage.value, s.signature);
  }

  /** Neighbours with one cursor are enough to find a repeated one in a sorted list. */
  method CheckCursors(sorted: seq<Signed>) returns (distinct: bool)
    requires ByCursor(sorted)
    ensures distinct <==> DistinctCursors(sorted)
  {
    var i := 1;
    while i < |sorted|
      invariant 1 <= i
      invariant forall j, k :: 0 <= j < k < i && k < |sorted| ==> sorted[j].envelope.cursor < sorted[k].envelope.cursor
    {
      if sorted[i].envelope.cursor == sorted[i - 1].envelope.cursor { return false; }
      i := i + 1;
    }
    distinct := true;
  }

  method CheckClosings(c: Crypto, b: Bundle, states: map<Key, State>, chains: Chains) returns (reasons: seq<Reason>)
    ensures reasons == [] <==> EpochsClosed(c, b, states, chains)
  {
    hide PeriodicValid, FindEpoch;
    reasons := [];
    var i := 0;
    while i < |b.control.epochs|
      invariant 0 <= i <= |b.control.epochs|
      invariant reasons == [] <==> forall j :: 0 <= j < i ==> Closed(c, b, states, chains, b.control.epochs[j])
    {
      var e := b.control.epochs[i];
      var key := KeyOf(e);
      var next := FindEpoch(b.control.epochs, e.base.seat, e.base.epoch + 1);
      var more := [];
      if key in states && key in chains.heads && states[key].lastChainHead != chains.heads[key] {
        more := more + [HeadMismatch(key)];
      }
      if key in states && HasPeriodic(states[key]) && !PeriodicValid(c, b.sessionId, e, states[key], chains) {
        more := more + [PeriodicInvalid(key)];
      }
      if next.Some? && next.value.base.authorization == SC.ByHandoff
         && (key !in chains.heads || next.value.base.previousChainHead != Some(chains.heads[key])) {
        more := more + [HandoffGap(key)];
      }
      assert more == [] <==> Closed(c, b, states, chains, e);
      reasons := reasons + more;
      i := i + 1;
    }
  }

  /** The verdict on a bundle; None is the error of a handoff preimage, which nothing catches. */
  method Verify(c: Crypto, b: Bundle) returns (r: Option<Verification>)
    ensures r.None? <==>
      && SC.Rehydrate(c.digest, b.control).Some?
      && exists i :: 0 <= i < |b.control.epochs| && HandoffThrows(c, b.sessionId, b.control.epochs, b.control.epochs[i])
    ensures r.Some? ==> (r.value.valid <==> Accepted(c, b))
    ensures r.Some? ==>
      (r.value.valid ==> r.value.commandsValid && r.value.controlHistoryValid && r.value.reasons == [])
  {
    hide SC.Rehydrate, Ordered, Chained, StateMap, EpochsClosed, AuthorizationValid, StateSigned, HandoffThrows,
         FirstChains, DistinctStates, DistinctCursors, SL.SeatControlLedger.Valid, SL.SeatControlLedger.Value;
    var reasons := [];
    if b.checkpointSession != b.sessionId { reasons := reasons + [InvalidCheckpoint]; }
    if b.sessionId != b.control.sessionId { reasons := reasons + [ForeignHistory]; }
    var states, doubled := CollectStates(b.states);
    reasons := reasons + doubled;
    var ledger := SL.SeatControlLedger.Rehydrated(c.digest, b.control);
    var ordered := Ordered(b.commands);
    OrderedSorts(b.commands);
    var distinct := CheckCursors(ordered);
    if ledger.None? {
      reasons := reasons + [BadHistory];
      return Some(Verification(false, false, false, reasons));
    }
    var checked := CheckEpochs(c, b.sessionId, b.control.epochs, states);
    if checked.None? { return None; }
    var (first, authorized, found) := checked.value;
    reasons := reasons + found;
    if !distinct { reasons := reasons + [DuplicateCursors]; }
    var chains, broken := CheckCommands(c, b.sessionId, ledger.value, first, ordered);
    reasons := reasons + broken;
    var unclosed := CheckClosings(c, b, states, chains);
    reasons := reasons + unclosed;
    var commandsValid := distinct && broken == [] && unclosed == [];
    r := Some(Verification(reasons == [] && commandsValid && authorized, commandsValid, authorized, reasons));
  }
}
