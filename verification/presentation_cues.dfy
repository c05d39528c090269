/** Ordered cue delivery over a channel that loses, repeats and reorders (src/presentation-cues.ts):
    a host that retains the last cues, and a client that applies them. */
module PresentationCues {
  import opened CodePoints
  import opened CanonicalJson
  import opened CanonicalText
  import opened Wrappers

  datatype Cue = Cue(sessionId: string, cueId: string, sequence: int, kind: string, emergency: bool, payload: Json)

  datatype AckStatus = Applied | Duplicate | Rejected | RepairRequired
  datatype Ack = Ack(sessionId: string, cueId: string, sequence: int, status: AckStatus, reason: Option<string>)

  datatype HostState = HostState(
    sessionId: string, nextSequence: int, retained: seq<Cue>, acknowledgements: map<string, Ack>)

  datatype ClientState = ClientState(
    sessionId: string, ready: bool, lastApplied: int, fingerprints: map<string, string>)

  datatype Resume = Replay(cues: seq<Cue>) | SnapshotRequired(earliestRetained: int, latest: int)

  // ---- Checks ----

  predicate CueOk(c: Cue) { !Blank(c.sessionId) && !Blank(c.cueId) && c.sequence >= 1 && !Blank(c.kind) }

  predicate AckOk(a: Ack) {
    && !Blank(a.sessionId) && !Blank(a.cueId) && a.sequence >= 0
    && (a.reason.Some? ==> !Blank(a.reason.value))
  }

  /** `cueFingerprint` */
  function Fingerprint(c: Cue): string {
    Canonical(Obj(map["schema" := Str("gaos.presentation-cue.v1"), "sessionId" := Str(c.sessionId),
      "cueId" := Str(c.cueId), "sequence" := Num(c.sequence), "type" := Str(c.kind),
      "priority" := Str(if c.emergency then "emergency" else "normal"),
      "payload" := c.payload]))
  }

  /** Cues with one fingerprint are one cue, so a repeated cue is never mistaken for a new one. */
  lemma FingerprintInjective(a: Cue, b: Cue)
    ensures Fingerprint(a) == Fingerprint(b) <==> a == b
  {
    hide Canonical;
    if Fingerprint(a) == Fingerprint(b) {
      var x := map["schema" := Str("gaos.presentation-cue.v1"), "sessionId" := Str(a.sessionId),
        "cueId" := Str(a.cueId), "sequence" := Num(a.sequence), "type" := Str(a.kind),
        "priority" := Str(if a.emergency then "emergency" else "normal"),
        "payload" := a.payload];
      var y := map["schema" := Str("gaos.presentation-cue.v1"), "sessionId" := Str(b.sessionId),
        "cueId" := Str(b.cueId), "sequence" := Num(b.sequence), "type" := Str(b.kind),
        "priority" := Str(if b.emergency then "emergency" else "normal"),
        "payload" := b.payload];
      CanonicalInjective(Obj(x), Obj(y));
      assert x["sessionId"] == y["sessionId"] && x["cueId"] == y["cueId"] && x["sequence"] == y["sequence"];
      assert x["type"] == y["type"] && x["payload"] == y["payload"];
      assert x["priority"] == y["priority"];
      assert "emergency" != "normal";
    }
  }

  // ---- The host ----

  predicate Successful(status: AckStatus) { status == Applied || status == Duplicate }

  function Ids(cues: seq<Cue>): set<string> { set c | c in cues :: c.cueId }

  /** `slice(-n)` */
  function Last(cues: seq<Cue>, n: nat): seq<Cue> { if |cues| > n then cues[|cues| - n..] else cues }

  /** `issue` with an id the host has not seen; None for any thrown error. */
  function Issue(h: HostState, most: nat, cueId: string, kind: string, payload: Json,
      emergency: bool): Option<(HostState, Cue)> {
    var cue := Cue(h.sessionId, cueId, h.nextSequence, kind, emergency, payload);
    if Blank(kind) || Blank(cueId) || cueId in Ids(h.retained) || cueId in h.acknowledgements || !CueOk(cue) then None
    else
      var retained := Last(h.retained + [cue], most);
      Some((h.(nextSequence := h.nextSequence + 1, retained := retained,
               acknowledgements := map id | id in h.acknowledgements && id in Ids(retained) ::
                 h.acknowledgements[id]), cue))
  }

  function FindCue(cues: seq<Cue>, cueId: string): Option<Cue> {
    if cues == [] then None else if cues[0].cueId == cueId then Some(cues[0]) else FindCue(cues[1..], cueId)
  }

  datatype Recorded = Recorded(state: HostState, duplicate: bool)

  /** `acknowledge`; None for any thrown error. A successful answer is final. */
  function Acknowledge(h: HostState, a: Ack): Option<Recorded> {
    if !AckOk(a) || a.sessionId != h.sessionId then None
    else
      var cue := FindCue(h.retained, a.cueId);
      if cue.None? || cue.value.sequence != a.sequence then None
      else if a.cueId in h.acknowledgements
              && (h.acknowledgements[a.cueId] == a || Successful(h.acknowledgements[a.cueId].status))
                then Some(Recorded(h, true))
      else Some(Recorded(h.(acknowledgements := h.acknowledgements[a.cueId := a]), false))
  }

  function After(cues: seq<Cue>, sequence: int): seq<Cue> {
    if cues == [] then []
    else (if cues[0].sequence > sequence then [cues[0]] else []) + After(cues[1..], sequence)
  }

  /** `resumeAfter`; None for any thrown error. */
  function ResumeAfter(h: HostState, sequence: int): Option<Resume> {
    var latest := h.nextSequence - 1;
    var earliest := if h.retained == [] then h.nextSequence else h.retained[0].sequence;
    if sequence < 0 || sequence > latest then None
    else if sequence < earliest - 1 then Some(SnapshotRequired(earliest, latest))
    else Some(Replay(After(h.retained, sequence)))
  }

  /** The state `restore` accepts. */
  ghost predicate Restorable(sessionId: string, h: HostState) {
    && h.sessionId == sessionId && h.nextSequence >= 1
    && (forall i :: 0 <= i < |h.retained| ==> CueOk(h.retained[i]) && h.retained[i].sessionId == sessionId
                                              && h.retained[i].sequence < h.nextSequence)
    && (forall i, j :: 0 <= i < j < |h.retained| ==> h.retained[i].sequence < h.retained[j].sequence)
    && forall id :: id in h.acknowledgements ==> AckMatches(sessionId, h.retained, id, h.acknowledgements[id])
  }

  predicate AckMatches(sessionId: string, retained: seq<Cue>, id: string, a: Ack) {
    && AckOk(a) && a.sessionId == sessionId && a.cueId == id
    && FindCue(retained, id).Some? && FindCue(retained, id).value.sequence == a.sequence
  }

  // ---- Runs of a host ----

  datatype HostStep =
    | Issues(cueId: string, kind: string, payload: Json, emergency: bool)
    | Acknowledges(ack: Ack)

  function NewHost(sessionId: string): HostState { HostState(sessionId, 1, [], map[]) }

  /** One call; a call that throws changes nothing. */
  function HostMoves(h: HostState, most: nat, step: HostStep): HostState {
    match step
    case Issues(cueId, kind, payload, emergency) =>
      var r := Issue(h, most, cueId, kind, payload, emergency);
      if r.Some? then r.value.0 else h
    case Acknowledges(ack) =>
      var r := Acknowledge(h, ack);
      if r.Some? then r.value.state else h
  }

  function HostAfter(h: HostState, most: nat, steps: seq<HostStep>): HostState {
    if steps == [] then h else HostMoves(HostAfter(h, most, steps[..|steps| - 1]), most, steps[|steps| - 1])
  }

  /** The cue one call issues. */
  function CueOf(h: HostState, most: nat, step: HostStep): seq<Cue> {
    if !step.Issues? then []
    else
      var r := Issue(h, most, step.cueId, step.kind, step.payload, step.emergency);
      if r.Some? then [r.value.1] else []
  }

  /** Everything issued by a run, evicted cues included. */
  function IssuedIn(h: HostState, most: nat, steps: seq<HostStep>): seq<Cue> {
    if steps == [] then []
    else
      var before := steps[..|steps| - 1];
      IssuedIn(h, most, before) + CueOf(HostAfter(h, most, before), most, steps[|steps| - 1])
  }

  lemma IssueGoesOn(h: HostState, most: nat, steps: seq<HostStep>, cueId: string, kind: string, payload: Json,
      emergency: bool)
    ensures var r := Issue(HostAfter(h, most, steps), most, cueId, kind, payload, emergency);
      r.Some? ==> HostAfter(h, most, steps + [Issues(cueId, kind, payload, emergency)]) == r.value.0
  {
    hide Issue;
    assert (steps + [Issues(cueId, kind, payload, emergency)])[..|steps|] == steps;
  }

  lemma AcknowledgeGoesOn(h: HostState, most: nat, steps: seq<HostStep>, a: Ack)
    ensures var r := Acknowledge(HostAfter(h, most, steps), a);
      r.Some? ==> HostAfter(h, most, steps + [Acknowledges(a)]) == r.value.state
  {
    hide Acknowledge;
    assert (steps + [Acknowledges(a)])[..|steps|] == steps;
  }

  class PresentationCueHost {
    const sessionId: string
    const maxRetained: nat
    var value: HostState
    /** The state the host started from, new or restored, and its calls since. */
    ghost var origin: HostState
    ghost var steps: seq<HostStep>

    ghost predicate Valid()
      reads this
    {
      && maxRetained >= 1 && !Blank(sessionId) && value.sessionId == sessionId
      && value == HostAfter(origin, maxRetained, steps)
      && (origin == NewHost(sessionId) || Restorable(sessionId, origin))
    }

    constructor (sessionId: string, maxRetained: nat)
      requires maxRetained >= 1 && !Blank(sessionId)
      ensures Valid() && origin == value == NewHost(sessionId) && steps == [] && this.maxRetained == maxRetained
    {
      this.sessionId, this.maxRetained := sessionId, maxRetained;
      value, origin, steps := NewHost(sessionId), NewHost(sessionId), [];
    }

    /** Takes over a saved state, or refuses it. */
    method Restore(saved: HostState) returns (ok: bool)
      requires Valid()
      modifies this
      ensures Valid()
      ensures ok <==> Restorable(sessionId, saved)
      ensures if ok then value == origin == saved && steps == [] else unchanged(this)
    {
      if saved.sessionId != sessionId || saved.nextSequence < 1 { return false; }
      var previous, i := 0, 0;
      while i < |saved.retained|
        invariant 0 <= i <= |saved.retained| && unchanged(this)
        invariant forall j :: 0 <= j < i ==>
          CueOk(saved.retained[j]) && saved.retained[j].sessionId == sessionId && saved.retained[j].sequence <= previous
        invariant forall j, k :: 0 <= j < k < i ==> saved.retained[j].sequence < saved.retained[k].sequence
        invariant i > 0 ==> previous == saved.retained[i - 1].sequence
        invariant i == 0 ==> previous == 0
      {
        var cue := saved.retained[i];
        if !CueOk(cue) || cue.sessionId != sessionId || cue.sequence <= previous { return false; }
        previous := cue.sequence;
        i := i + 1;
      }
      if previous >= saved.nextSequence { return false; }
      var left := saved.acknowledgements.Keys;
      while left != {}
        invariant left <= saved.acknowledgements.Keys && unchanged(this)
        invariant forall id :: id in saved.acknowledgements && id !in left ==>
          AckMatches(sessionId, saved.retained, id, saved.acknowledgements[id])
        decreases |left|
      {
        var id :| id in left;
        if !AckMatches(sessionId, saved.retained, id, saved.acknowledgements[id]) { return false; }
        left := left - {id};
      }
      value, origin, steps := saved, saved, [];
      ok := true;
    }

    method IssueCue(cueId: string, kind: string, payload: Json, emergency: bool) returns (cue: Option<Cue>)
      requires Valid()
      modifies this
      ensures Valid()
      ensures var r := Issue(old(value), maxRetained, cueId, kind, payload, emergency);
        if r.Some? then value == r.value.0 && cue == Some(r.value.1) else cue == None && unchanged(this)
      ensures cue.Some? ==> origin == old(origin) && steps == old(steps) + [Issues(cueId, kind, payload, emergency)]
    {
      hide Blank, CueOk, HostAfter, Restorable, Last, Ids;
      IssueGoesOn(origin, maxRetained, steps, cueId, kind, payload, emergency);
      if Blank(kind) || Blank(cueId) || cueId in Ids(value.retained) || cueId in value.acknowledgements { return None; }
      var next := Cue(sessionId, cueId, value.nextSequence, kind, emergency, payload);
      if !CueOk(next) { return None; }
      var retained := Last(value.retained + [next], maxRetained);
      var retainedIds := Ids(retained);
      steps := steps + [Issues(cueId, kind, payload, emergency)];
      value := value.(nextSequence := next.sequence + 1, retained := retained,
        acknowledgements := map id | id in value.acknowledgements && id in retainedIds :: value.acknowledgements[id]);
      cue := Some(next);
    }

    method Record(a: Ack) returns (r: Option<bool>)
      requires Valid()
      modifies this
      ensures Valid()
      ensures var spec := Acknowledge(old(value), a);
        if spec.Some? then value == spec.value.state && r == Some(spec.value.duplicate)
          else r == None && unchanged(this)
      ensures r == Some(false) ==> origin == old(origin) && steps == old(steps) + [Acknowledges(a)]
    {
      hide Blank, AckOk, HostAfter, Restorable, FindCue, Successful;
      AcknowledgeGoesOn(origin, maxRetained, steps, a);
      if !AckOk(a) || a.sessionId != sessionId { return None; }
      var cue := FindCue(value.retained, a.cueId);
      if cue.None? || cue.value.sequence != a.sequence { return None; }
      if a.cueId in value.acknowledgements {
        var current := value.acknowledgements[a.cueId];
        if current == a || Successful(current.status) { return Some(true); }
      }
      steps := steps + [Acknowledges(a)];
      value := value.(acknowledgements := value.acknowledgements[a.cueId := a]);
      r := Some(false);
    }
  }

  // ---- The client ----

  datatype Received = Received(state: ClientState, ack: Ack)

  function AckFor(c: Cue, status: AckStatus, reason: Option<string>): Ack {
    Ack(c.sessionId, c.cueId, c.sequence, status, reason)
  }

  /** The client applies a cue it has not seen that is next in line, or an emergency further on. */
  predicate Takes(s: ClientState, c: Cue) {
    && CueOk(c) && c.sessionId == s.sessionId && c.cueId !in s.fingerprints
    && c.sequence > s.lastApplied && (c.emergency || c.sequence == s.lastApplied + 1)
  }

  /** What the player does with the cue: `interrupt` comes first, for an emergency only. */
  datatype Playing = Succeeds | InterruptThrows | ApplyThrows(message: string)

  predicate Played(c: Cue, p: Playing) { p.Succeeds? || (p.InterruptThrows? && !c.emergency) }

  /** `receive`; None for any thrown error. Only a throwing `apply` is answered. */
  function Receive(s: ClientState, c: Cue, p: Playing): Option<Received> {
    if !CueOk(c) || c.sessionId != s.sessionId then None
    else if c.cueId in s.fingerprints then
      if s.fingerprints[c.cueId] != Fingerprint(c) then None else Some(Received(s, AckFor(c, Duplicate, None)))
    else if c.sequence <= s.lastApplied then
      Some(Received(s.(ready := false), AckFor(c, RepairRequired, Some("stale_sequence"))))
    else if !c.emergency && c.sequence != s.lastApplied + 1 then
      Some(Received(s.(ready := false), AckFor(c, RepairRequired, Some("sequence_gap"))))
    else if p.ApplyThrows? then Some(Received(s.(ready := false), AckFor(c, Rejected, Some(p.message))))
    else if !Played(c, p) then None
    else Some(Received(
      s.(ready := true, lastApplied := c.sequence, fingerprints := s.fingerprints[c.cueId := Fingerprint(c)]),
      AckFor(c, Applied, None)))
  }

  class PresentationCueClient {
    const sessionId: string
    var value: ClientState
    /** The cues `apply` took, in order. */
    ghost var applied: seq<Cue>

    ghost predicate Valid()
      reads this
    {
      value.sessionId == sessionId && Consistent(value, applied)
    }

    constructor (sessionId: string)
      ensures Valid() && value == ClientState(sessionId, true, 0, map[]) && applied == []
    {
      this.sessionId := sessionId;
      value := ClientState(sessionId, true, 0, map[]);
      applied := [];
    }

    method Take(c: Cue, p: Playing) returns (ack: Option<Ack>)
      requires Valid()
      modifies this
      ensures Valid()
      ensures var r := Receive(old(value), c, p);
        if r.Some? then value == r.value.state && ack == Some(r.value.ack) else ack == None && unchanged(this)
      ensures applied == old(applied) + if Takes(old(value), c) && Played(c, p) then [c] else []
    {
      hide Fingerprint, CueOk, Consistent;
      StillConsistent(value, value.(ready := false), applied);
      if !CueOk(c) || c.sessionId != sessionId { return None; }
      if c.cueId in value.fingerprints {
        return if value.fingerprints[c.cueId] != Fingerprint(c) then None else Some(AckFor(c, Duplicate, None));
      }
      if c.sequence <= value.lastApplied {
        value := value.(ready := false);
        return Some(AckFor(c, RepairRequired, Some("stale_sequence")));
      }
      if !c.emergency && c.sequence != value.lastApplied + 1 {
        value := value.(ready := false);
        return Some(AckFor(c, RepairRequired, Some("sequence_gap")));
      }
      if c.emergency && p.InterruptThrows? { return None; }
      if p.ApplyThrows? {
        value := value.(ready := false);
        return Some(AckFor(c, Rejected, Some(p.message)));
      }
      TakenConsistent(value, applied, c);
      applied := applied + [c];
      value := value.(ready := true, lastApplied := c.sequence,
        fingerprints := value.fingerprints[c.cueId := Fingerprint(c)]);
      ack := Some(AckFor(c, Applied, None));
    }
  }

  // ---- What the client applied ----

  /** The applied cues rise strictly, end at the last sequence, and are the remembered ids. */
  ghost predicate Consistent(s: ClientState, applied: seq<Cue>) {
    && (forall i, j :: 0 <= i < j < |applied| ==> applied[i].sequence < applied[j].sequence)
    && (forall i, j :: 0 <= i < j < |applied| ==> applied[i].cueId != applied[j].cueId)
    && (forall i :: 0 <= i < |applied| ==> applied[i].sequence >= 1)
    && s.lastApplied == (if applied == [] then 0 else applied[|applied| - 1].sequence)
    && (forall i :: 0 <= i < |applied| ==>
          applied[i].cueId in s.fingerprints && s.fingerprints[applied[i].cueId] == Fingerprint(applied[i]))
    && forall id :: id in s.fingerprints ==> exists i :: 0 <= i < |applied| && applied[i].cueId == id
  }

  lemma TakenConsistent(s: ClientState, applied: seq<Cue>, c: Cue)
    requires Consistent(s, applied) && Takes(s, c)
    ensures Consistent(
      s.(ready := true, lastApplied := c.sequence, fingerprints := s.fingerprints[c.cueId := Fingerprint(c)]),
        applied + [c])
  {
    hide Fingerprint, Blank;
    var all := applied + [c];
    NewCue(s, applied, c);
    forall i, j | 0 <= i < j < |all| ensures all[i].sequence < all[j].sequence && all[i].cueId != all[j].cueId {
      assert all[i] == applied[i];
    }
    KnownIds(s, s.fingerprints[c.cueId := Fingerprint(c)], applied, c);
  }

  lemma NewCue(s: ClientState, applied: seq<Cue>, c: Cue)
    requires Consistent(s, applied) && Takes(s, c)
    ensures forall i :: 0 <= i < |applied| ==> applied[i].sequence < c.sequence && applied[i].cueId != c.cueId
  {
    hide Fingerprint, CueOk;
    forall i | 0 <= i < |applied| ensures applied[i].sequence < c.sequence {
      if i < |applied| - 1 { assert applied[i].sequence < applied[|applied| - 1].sequence; }
    }
  }

  lemma KnownIds(s: ClientState, after: map<string, string>, applied: seq<Cue>, c: Cue)
    requires forall id :: id in s.fingerprints ==> exists i :: 0 <= i < |applied| && applied[i].cueId == id
    requires after == s.fingerprints[c.cueId := Fingerprint(c)]
    ensures forall id :: id in after ==> exists i :: 0 <= i < |applied + [c]| && (applied + [c])[i].cueId == id
  {
    hide Fingerprint;
    forall id | id in after ensures exists i :: 0 <= i < |applied + [c]| && (applied + [c])[i].cueId == id {
      if id == c.cueId {
        assert (applied + [c])[|applied|].cueId == id;
      } else {
        var i :| 0 <= i < |applied| && applied[i].cueId == id;
        assert (applied + [c])[i].cueId == id;
      }
    }
  }

  datatype Delivery = Delivery(cue: Cue, playing: Playing)

  /** The client after a list of deliveries; a delivery that throws changes nothing. */
  function Delivered(s: ClientState, deliveries: seq<Delivery>): ClientState
    decreases |deliveries|
  {
    if deliveries == [] then s
    else
      var r := Receive(s, deliveries[0].cue, deliveries[0].playing);
      Delivered(if r.Some? then r.value.state else s, deliveries[1..])
  }

  /** The cues applied during a list of deliveries. */
  function AppliedBy(s: ClientState, deliveries: seq<Delivery>): seq<Cue>
    decreases |deliveries|
  {
    if deliveries == [] then []
    else
      var d := deliveries[0];
      var r := Receive(s, d.cue, d.playing);
      (if Takes(s, d.cue) && Played(d.cue, d.playing) then [d.cue] else [])
      + AppliedBy(if r.Some? then r.value.state else s, deliveries[1..])
  }

  /** Whatever arrives, in whatever order and however often: the cues applied rise strictly in
      sequence, so none is applied twice, and no id is. */
  lemma {:induction false} AppliedInOrder(s: ClientState, applied: seq<Cue>, deliveries: seq<Delivery>)
    requires Consistent(s, applied)
    ensures Consistent(Delivered(s, deliveries), applied + AppliedBy(s, deliveries))
    decreases |deliveries|
  {
    hide Fingerprint, Consistent, CueOk;
    if deliveries == [] {
      assert applied + [] == applied;
    } else {
      var d := deliveries[0];
      var r := Receive(s, d.cue, d.playing);
      var next := if r.Some? then r.value.state else s;
      if Takes(s, d.cue) && Played(d.cue, d.playing) {
        TakenConsistent(s, applied, d.cue);
        AppliedInOrder(next, applied + [d.cue], deliveries[1..]);
        assert applied + [d.cue] + AppliedBy(next, deliveries[1..])
          == applied + ([d.cue] + AppliedBy(next, deliveries[1..]));
      } else {
        StillConsistent(s, next, applied);
        AppliedInOrder(next, applied, deliveries[1..]);
        assert [] + AppliedBy(next, deliveries[1..]) == AppliedBy(next, deliveries[1..]);
      }
    }
  }

  lemma StillConsistent(s: ClientState, next: ClientState, applied: seq<Cue>)
    requires Consistent(s, applied) && next.lastApplied == s.lastApplied && next.fingerprints == s.fingerprints
    ensures Consistent(next, applied)
  {
  }

  // ---- Everything a host issued ----

  ghost predicate Distinct(cues: seq<Cue>) { forall i, j :: 0 <= i < j < |cues| ==> cues[i].cueId != cues[j].cueId }

  ghost predicate NumberedFor(sessionId: string, issued: seq<Cue>) {
    forall i :: 0 <= i < |issued| ==>
      issued[i].sequence == i + 1 && CueOk(issued[i]) && issued[i].sessionId == sessionId
  }

  /** Everything issued so far and the part the host retains, in which no id is repeated. */
  ghost predicate IssuedBy(h: HostState, most: nat, issued: seq<Cue>) {
    && most >= 1 && !Blank(h.sessionId)
    && h.nextSequence == |issued| + 1 && NumberedFor(h.sessionId, issued)
    && h.retained == Last(issued, most) && Distinct(h.retained)
    && (forall id :: id in h.acknowledgements ==> AckMatches(h.sessionId, h.retained, id, h.acknowledgements[id]))
  }

  lemma {:induction false} FindCueIn(cues: seq<Cue>, id: string)
    requires Distinct(cues)
    ensures FindCue(cues, id).Some? <==> id in Ids(cues)
    ensures FindCue(cues, id).Some? ==> FindCue(cues, id).value in cues && FindCue(cues, id).value.cueId == id
    ensures forall i :: 0 <= i < |cues| && cues[i].cueId == id ==> FindCue(cues, id) == Some(cues[i])
  {
    if cues != [] {
      FindCueIn(cues[1..], id);
      assert cues == [cues[0]] + cues[1..];
    }
  }

  /** An id that is not retained is accepted, even when a cue evicted earlier had it, and extends what
      was issued. */
  lemma IssueExtends(h: HostState, most: nat, issued: seq<Cue>, cueId: string, kind: string, payload: Json,
      emergency: bool)
    requires IssuedBy(h, most, issued)
    ensures var r := Issue(h, most, cueId, kind, payload, emergency);
      && (r.Some? <==> !Blank(cueId) && !Blank(kind) && cueId !in Ids(h.retained))
      && (r.Some? ==> IssuedBy(r.value.0, most, issued + [r.value.1]))
  {
    hide Blank, AckMatches, FindCue;
    AcknowledgedRetained(h, most, issued);
    var r := Issue(h, most, cueId, kind, payload, emergency);
    if r.Some? {
      var cue, next := r.value.1, r.value.0;
      var all := h.retained + [cue];
      LastSnoc(issued, cue, most);
      OneMoreDistinct(h.retained, cue);
      LastOfDistinct(all, most);
      forall id | id in next.acknowledgements ensures AckMatches(h.sessionId, next.retained, id,
        next.acknowledgements[id]) {
        AckStays(h, next.retained, all, id);
      }
    }
  }

  lemma OneMoreDistinct(cues: seq<Cue>, c: Cue)
    requires Distinct(cues) && c.cueId !in Ids(cues)
    ensures Distinct(cues + [c])
  {
    forall i | 0 <= i < |cues| ensures cues[i].cueId != c.cueId { assert cues[i].cueId in Ids(cues); }
  }

  lemma LastSnoc(cues: seq<Cue>, c: Cue, most: nat)
    requires most >= 1
    ensures Last(Last(cues, most) + [c], most) == Last(cues + [c], most)
  {
  }

  lemma LastOfDistinct(cues: seq<Cue>, most: nat)
    requires Distinct(cues)
    ensures Distinct(Last(cues, most)) && forall c :: c in Last(cues, most) ==> c in cues
  {
  }

  lemma AckStays(h: HostState, retained: seq<Cue>, all: seq<Cue>, id: string)
    requires id in h.acknowledgements && AckMatches(h.sessionId, h.retained, id, h.acknowledgements[id])
      && id in Ids(retained)
    requires Distinct(all) && Distinct(h.retained) && Distinct(retained)
    requires (forall c :: c in h.retained ==> c in all) && (forall c :: c in retained ==> c in all)
    ensures AckMatches(h.sessionId, retained, id, h.acknowledgements[id])
  {
    hide Blank;
    SameCue(h.retained, retained, all, id);
  }

  lemma AcknowledgedRetained(h: HostState, most: nat, issued: seq<Cue>)
    requires IssuedBy(h, most, issued)
    ensures forall id :: id in h.acknowledgements ==> id in Ids(h.retained)
  {
    hide Blank;
    forall id | id in h.acknowledgements ensures id in Ids(h.retained) { FindCueIn(h.retained, id); }
  }

  /** An id found in two parts of a list is the same cue. */
  lemma SameCue(a: seq<Cue>, b: seq<Cue>, all: seq<Cue>, id: string)
    requires Distinct(all) && Distinct(a) && Distinct(b)
    requires (forall c :: c in a ==> c in all) && (forall c :: c in b ==> c in all)
    requires FindCue(a, id).Some? && id in Ids(b)
    ensures FindCue(b, id) == FindCue(a, id)
  {
    FindCueIn(a, id);
    FindCueIn(b, id);
  }

  lemma AcknowledgeKeeps(h: HostState, most: nat, issued: seq<Cue>, a: Ack)
    requires IssuedBy(h, most, issued)
    ensures var r := Acknowledge(h, a); r.Some? ==> IssuedBy(r.value.state, most, issued)
    ensures var r := Acknowledge(h, a);
      r.Some? ==> forall id :: id in h.acknowledgements && Successful(h.acknowledgements[id].status) ==>
        id in r.value.state.acknowledgements && r.value.state.acknowledgements[id] == h.acknowledgements[id]
  {
    hide Blank;
    FindCueIn(h.retained, a.cueId);
  }

  /** Every run of a host, from a new one on and with any ids, numbers what it issues, retains the last
      of it and acknowledges only what it retains. */
  lemma {:induction false} EveryRunIssues(sessionId: string, most: nat, steps: seq<HostStep>)
    requires most >= 1 && !Blank(sessionId)
    ensures var h := HostAfter(NewHost(sessionId), most, steps);
      h.sessionId == sessionId && IssuedBy(h, most, IssuedIn(NewHost(sessionId), most, steps))
  {
    hide Issue, Acknowledge, Blank;
    var start := NewHost(sessionId);
    if steps != [] {
      var before, step := steps[..|steps| - 1], steps[|steps| - 1];
      EveryRunIssues(sessionId, most, before);
      var h, issued := HostAfter(start, most, before), IssuedIn(start, most, before);
      assert issued + [] == issued;
      match step
      case Issues(cueId, kind, payload, emergency) =>
        IssueExtends(h, most, issued, cueId, kind, payload, emergency);
        SameSession(h, most, step);
      case Acknowledges(ack) =>
        AcknowledgeKeeps(h, most, issued, ack);
        SameSession(h, most, step);
    }
  }

  lemma SameSession(h: HostState, most: nat, step: HostStep)
    ensures HostMoves(h, most, step).sessionId == h.sessionId
  {
  }

  /** Every state a host reaches from a new one is a state it accepts back. */
  lemma SavedStateRestores(sessionId: string, most: nat, steps: seq<HostStep>)
    requires most >= 1 && !Blank(sessionId)
    ensures Restorable(sessionId, HostAfter(NewHost(sessionId), most, steps))
  {
    hide Blank, HostAfter, IssuedIn, AckMatches;
    EveryRunIssues(sessionId, most, steps);
  }

  // ---- Repair ----

  lemma {:induction false} AfterTail(cues: seq<Cue>, first: int, sequence: int)
    requires forall i :: 0 <= i < |cues| ==> cues[i].sequence == first + i
    requires first - 1 <= sequence <= first + |cues| - 1
    ensures After(cues, sequence) == cues[sequence - first + 1..]
  {
    if cues != [] {
      if sequence == first - 1 {
        if |cues| > 1 { AfterTail(cues[1..], first + 1, first); AllAfter(cues[1..], first + 1, sequence); }
        else { assert cues[1..] == []; }
        assert cues == [cues[0]] + cues[1..];
      } else {
        AfterTail(cues[1..], first + 1, sequence);
      }
    }
  }

  lemma {:induction false} AllAfter(cues: seq<Cue>, first: int, sequence: int)
    requires forall i :: 0 <= i < |cues| ==> cues[i].sequence == first + i
    requires sequence < first
    ensures After(cues, sequence) == cues
  {
    if cues != [] {
      AllAfter(cues[1..], first + 1, sequence);
      assert cues == [cues[0]] + cues[1..];
    }
  }

  /** The client holds only cues of this history. */
  ghost predicate Follows(s: ClientState, applied: seq<Cue>, issued: seq<Cue>) {
    Consistent(s, applied) && forall c :: c in applied ==> c in issued
  }

  /** Resuming after sequence `last` demands a snapshot exactly when a later cue was evicted; otherwise
      it replays every later cue, in order. */
  lemma ResumeExact(h: HostState, most: nat, issued: seq<Cue>, last: int)
    requires IssuedBy(h, most, issued) && 0 <= last <= |issued|
    ensures var r := ResumeAfter(h, last);
      && r.Some?
      && (r.value.SnapshotRequired? <==> exists c :: c in issued && c.sequence > last && c !in h.retained)
      && (r.value.Replay? ==> r.value.cues == issued[last..])
  {
    hide CueOk, AckMatches, After;
    var kept := h.retained;
    var dropped := |issued| - |kept|;
    assert kept == issued[dropped..];
    assert forall i :: 0 <= i < |kept| ==> kept[i] == issued[dropped + i];
    RetainedTail(issued, dropped, last);
    if last >= dropped {
      AfterTail(kept, dropped + 1, last);
      assert kept[last - dropped..] == issued[last..];
    }
  }

  /** Without the first `dropped` cues, a cue after `last` is missing exactly when `last` is earlier. */
  lemma RetainedTail(issued: seq<Cue>, dropped: nat, last: int)
    requires dropped <= |issued| && 0 <= last && forall i :: 0 <= i < |issued| ==> issued[i].sequence == i + 1
    ensures last < dropped <==> exists c :: c in issued && c.sequence > last && c !in issued[dropped..]
  {
    var kept := issued[dropped..];
    if last < dropped {
      assert issued[last] in issued && issued[last].sequence > last;
      assert forall i :: 0 <= i < |kept| ==> kept[i] == issued[dropped + i];
    } else {
      forall c | c in issued && c.sequence > last ensures c in kept {
        var i :| 0 <= i < |issued| && issued[i] == c;
        assert kept[i - dropped] == c;
      }
    }
  }

  function Successes(cues: seq<Cue>): (deliveries: seq<Delivery>)
    ensures |deliveries| == |cues|
  {
    if cues == [] then [] else [Delivery(cues[0], Succeeds)] + Successes(cues[1..])
  }

  /** Cues that follow the last one applied, with ids of their own. */
  ghost predicate Following(s: ClientState, cues: seq<Cue>) {
    && Distinct(cues)
    && forall i :: 0 <= i < |cues| ==>
         cues[i].sequence == s.lastApplied + 1 + i && CueOk(cues[i]) && cues[i].sessionId == s.sessionId
  }

  /** If `apply` succeeds and no id was applied before, every cue that follows is applied in order. */
  lemma {:induction false} ReplayApplies(s: ClientState, cues: seq<Cue>)
    requires Following(s, cues) && forall i :: 0 <= i < |cues| ==> cues[i].cueId !in s.fingerprints
    ensures AppliedBy(s, Successes(cues)) == cues
    ensures Delivered(s, Successes(cues)).lastApplied == s.lastApplied + |cues|
    ensures cues != [] ==> Delivered(s, Successes(cues)).ready
    decreases |cues|
  {
    hide Fingerprint, CueOk;
    if cues != [] {
      var next := Receive(s, cues[0], Succeeds).value.state;
      ReplayApplies(next, cues[1..]);
      assert Successes(cues)[1..] == Successes(cues[1..]);
      assert cues == [cues[0]] + cues[1..];
    }
  }

  lemma {:induction false} AppliedAtMost(s: ClientState, deliveries: seq<Delivery>)
    ensures |AppliedBy(s, deliveries)| <= |deliveries|
    decreases |deliveries|
  {
    hide Receive, Takes;
    if deliveries != [] {
      var r := Receive(s, deliveries[0].cue, deliveries[0].playing);
      AppliedAtMost(if r.Some? then r.value.state else s, deliveries[1..]);
    }
  }

  /** If every cue is applied, none has an id the client knew. */
  lemma {:induction false} AppliedWereNew(s: ClientState, cues: seq<Cue>)
    requires AppliedBy(s, Successes(cues)) == cues
    ensures forall i :: 0 <= i < |cues| ==> cues[i].cueId !in s.fingerprints
    decreases |cues|
  {
    hide Fingerprint, CueOk;
    if cues != [] {
      assert Successes(cues)[1..] == Successes(cues[1..]);
      var r := Receive(s, cues[0], Succeeds);
      var next := if r.Some? then r.value.state else s;
      AppliedAtMost(next, Successes(cues[1..]));
      assert Takes(s, cues[0]);
      assert AppliedBy(next, Successes(cues[1..])) == cues[1..];
      AppliedWereNew(next, cues[1..]);
      forall i | 0 <= i < |cues| ensures cues[i].cueId !in s.fingerprints {
        if i > 0 { assert cues[i] == cues[1..][i - 1]; }
      }
    }
  }

  /** Applied cues of one history are known to it, and the last one was issued. */
  lemma LastIssued(s: ClientState, applied: seq<Cue>, issued: seq<Cue>)
    requires Follows(s, applied, issued) && forall i :: 0 <= i < |issued| ==> issued[i].sequence == i + 1
    ensures 0 <= s.lastApplied <= |issued|
  {
    if applied != [] {
      assert applied[|applied| - 1] in issued;
    }
  }

  lemma {:induction false} AppliedAreDelivered(s: ClientState, deliveries: seq<Delivery>)
    ensures forall c :: c in AppliedBy(s, deliveries) ==> exists i :: 0 <= i < |deliveries| && deliveries[i].cue == c
    decreases |deliveries|
  {
    hide Receive, Takes;
    if deliveries != [] {
      var d := deliveries[0];
      var r := Receive(s, d.cue, d.playing);
      AppliedAreDelivered(if r.Some? then r.value.state else s, deliveries[1..]);
      forall c | c in AppliedBy(s, deliveries) ensures exists i :: 0 <= i < |deliveries| && deliveries[i].cue == c {
        if c in AppliedBy(if r.Some? then r.value.state else s, deliveries[1..]) {
          var i :| 0 <= i < |deliveries[1..]| && deliveries[1..][i].cue == c;
          assert deliveries[i + 1].cue == c;
        } else {
          assert c == deliveries[0].cue;
        }
      }
    }
  }

  /** A client starts empty. */
  function NewClient(sessionId: string): ClientState { ClientState(sessionId, true, 0, map[]) }

  lemma {:induction false} DeliveredSession(s: ClientState, deliveries: seq<Delivery>)
    ensures Delivered(s, deliveries).sessionId == s.sessionId
    decreases |deliveries|
  {
    hide Fingerprint, CueOk;
    if deliveries != [] {
      var r := Receive(s, deliveries[0].cue, deliveries[0].playing);
      DeliveredSession(if r.Some? then r.value.state else s, deliveries[1..]);
    }
  }

  /** What repair does for a client that received cues of a host's run. */
  ghost predicate Repairs(h: HostState, issued: seq<Cue>, s: ClientState, applied: seq<Cue>) {
    var r := ResumeAfter(h, s.lastApplied);
    && r.Some? && 0 <= s.lastApplied <= |issued|
    && (r.value.SnapshotRequired? <==> exists c :: c in issued && c.sequence > s.lastApplied && c !in h.retained)
    && (r.value.Replay? ==>
          && r.value.cues == issued[s.lastApplied..]
          && (AppliedBy(s, Successes(r.value.cues)) == r.value.cues <==> Ids(r.value.cues) !! Ids(applied))
          && (Ids(r.value.cues) !! Ids(applied) ==>
                Delivered(s, Successes(r.value.cues)).lastApplied == h.nextSequence - 1))
  }

  /** For every run of a host, with any ids, and after any loss, repetition, reordering and failed
      applications of what it issued: the cues the client applied rise strictly; resuming after the
      last either demands a snapshot, exactly when a cue still needed was evicted, or replays every
      later cue. All of those apply, and bring the client to the latest sequence, exactly when none of
      them has the id of a cue the client applied before. */
  lemma RepairExact(sessionId: string, most: nat, steps: seq<HostStep>, deliveries: seq<Delivery>)
    requires most >= 1 && !Blank(sessionId)
    requires forall i :: 0 <= i < |deliveries| ==> deliveries[i].cue in IssuedIn(NewHost(sessionId), most, steps)
    ensures var applied := AppliedBy(NewClient(sessionId), deliveries);
      && (forall i, j :: 0 <= i < j < |applied| ==> applied[i].sequence < applied[j].sequence)
      && Repairs(HostAfter(NewHost(sessionId), most, steps), IssuedIn(NewHost(sessionId), most, steps),
                 Delivered(NewClient(sessionId), deliveries), applied)
  {
    hide Fingerprint, CueOk, Delivered, AppliedBy, Receive, ResumeAfter, Consistent, AckMatches, Last, Successes,
         HostAfter, IssuedIn, Repairs, IssuedBy;
    EveryRunIssues(sessionId, most, steps);
    FreshConsistent(sessionId);
    var client := NewClient(sessionId);
    var s, applied := Delivered(client, deliveries), AppliedBy(client, deliveries);
    AppliedInOrder(client, [], deliveries);
    assert [] + applied == applied;
    AppliedAreDelivered(client, deliveries);
    DeliveredSession(client, deliveries);
    ConsistentRises(s, applied);
    RepairsFrom(HostAfter(NewHost(sessionId), most, steps), most, IssuedIn(NewHost(sessionId), most, steps), s,
      applied);
  }

  lemma RepairsFrom(h: HostState, most: nat, issued: seq<Cue>, s: ClientState, applied: seq<Cue>)
    requires IssuedBy(h, most, issued) && Follows(s, applied, issued) && s.sessionId == h.sessionId
    ensures Repairs(h, issued, s, applied)
  {
    hide Fingerprint, CueOk, Delivered, AppliedBy, Receive, ResumeAfter, AckMatches, Successes, After;
    LastIssued(s, applied, issued);
    ResumeExact(h, most, issued, s.lastApplied);
    var r := ResumeAfter(h, s.lastApplied);
    if r.value.Replay? {
      var cues := r.value.cues;
      ReplayFollows(h, most, issued, s);
      KnownIsApplied(s, applied);
      IdsApart(cues, s, applied);
      if forall i :: 0 <= i < |cues| ==> cues[i].cueId !in s.fingerprints { ReplayApplies(s, cues); }
      if AppliedBy(s, Successes(cues)) == cues { AppliedWereNew(s, cues); }
    }
  }

  /** The cues replayed follow the last one applied and repeat no id among themselves. */
  lemma ReplayFollows(h: HostState, most: nat, issued: seq<Cue>, s: ClientState)
    requires IssuedBy(h, most, issued) && s.sessionId == h.sessionId && 0 <= s.lastApplied <= |issued|
    requires ResumeAfter(h, s.lastApplied).Some? && ResumeAfter(h, s.lastApplied).value.Replay?
    ensures Following(s, issued[s.lastApplied..])
  {
    hide CueOk, AckMatches, After, Distinct;
    var dropped := |issued| - |h.retained|;
    assert h.retained == issued[dropped..];
    if h.retained != [] { assert h.retained[0] == issued[dropped]; }
    assert s.lastApplied >= dropped;
    TailDistinct(issued, dropped, s.lastApplied);
  }

  lemma TailDistinct(issued: seq<Cue>, dropped: nat, last: nat)
    requires dropped <= last <= |issued| && Distinct(issued[dropped..])
    ensures Distinct(issued[last..])
  {
    assert issued[last..] == issued[dropped..][last - dropped..];
  }

  lemma KnownIsApplied(s: ClientState, applied: seq<Cue>)
    requires Consistent(s, applied)
    ensures forall id :: id in s.fingerprints <==> id in Ids(applied)
  {
    forall id | id in s.fingerprints ensures id in Ids(applied) {
      var i :| 0 <= i < |applied| && applied[i].cueId == id;
      assert applied[i] in applied;
    }
  }

  lemma IdsApart(cues: seq<Cue>, s: ClientState, applied: seq<Cue>)
    requires forall id :: id in s.fingerprints <==> id in Ids(applied)
    ensures Ids(cues) !! Ids(applied) <==> forall i :: 0 <= i < |cues| ==> cues[i].cueId !in s.fingerprints
  {
    if Ids(cues) !! Ids(applied) {
      forall i | 0 <= i < |cues| ensures cues[i].cueId !in s.fingerprints { assert cues[i].cueId in Ids(cues); }
    }
  }

  /** With ids that are never repeated, repair always applies every cue it replays and reaches the
      latest sequence. */
  lemma RepairReachesLatest(sessionId: string, most: nat, steps: seq<HostStep>, deliveries: seq<Delivery>)
    requires most >= 1 && !Blank(sessionId) && Distinct(IssuedIn(NewHost(sessionId), most, steps))
    requires forall i :: 0 <= i < |deliveries| ==> deliveries[i].cue in IssuedIn(NewHost(sessionId), most, steps)
    ensures var h, issued := HostAfter(NewHost(sessionId), most, steps), IssuedIn(NewHost(sessionId), most, steps);
      var s := Delivered(NewClient(sessionId), deliveries);
      var r := ResumeAfter(h, s.lastApplied);
      && r.Some?
      && (r.value.SnapshotRequired? <==> exists c :: c in issued && c.sequence > s.lastApplied && c !in h.retained)
      && (r.value.Replay? ==>
            && AppliedBy(s, Successes(r.value.cues)) == r.value.cues
            && Delivered(s, Successes(r.value.cues)).lastApplied == h.nextSequence - 1)
  {
    hide Fingerprint, CueOk, Delivered, AppliedBy, Receive, ResumeAfter, Consistent, AckMatches, Last, Successes,
         HostAfter, IssuedIn, Distinct, IssuedBy;
    RepairExact(sessionId, most, steps, deliveries);
    EveryRunIssues(sessionId, most, steps);
    FreshConsistent(sessionId);
    var client, issued := NewClient(sessionId), IssuedIn(NewHost(sessionId), most, steps);
    var s, applied := Delivered(client, deliveries), AppliedBy(client, deliveries);
    AppliedInOrder(client, [], deliveries);
    assert [] + applied == applied;
    AppliedAreDelivered(client, deliveries);
    LaterIdsNew(HostAfter(NewHost(sessionId), most, steps), most, issued, s, applied);
  }

  lemma LaterIdsNew(h: HostState, most: nat, issued: seq<Cue>, s: ClientState, applied: seq<Cue>)
    requires IssuedBy(h, most, issued) && Distinct(issued) && Follows(s, applied, issued)
    ensures 0 <= s.lastApplied <= |issued| && Ids(issued[s.lastApplied..]) !! Ids(applied)
  {
    hide Fingerprint, CueOk, AckMatches, Last;
    LastIssued(s, applied, issued);
    var later := issued[s.lastApplied..];
    forall i, j | 0 <= i < |later| && 0 <= j < |applied| ensures later[i].cueId != applied[j].cueId {
      assert later[i] == issued[s.lastApplied + i] && applied[j] in issued;
      var k :| 0 <= k < |issued| && issued[k] == applied[j];
      assert applied[j].sequence <= applied[|applied| - 1].sequence;
    }
  }

  lemma FreshConsistent(sessionId: string)
    ensures Consistent(NewClient(sessionId), [])
  {
  }

  lemma ConsistentRises(s: ClientState, applied: seq<Cue>)
    requires Consistent(s, applied)
    ensures forall i, j :: 0 <= i < j < |applied| ==> applied[i].sequence < applied[j].sequence
  {
  }

  /** A host that retains one cue issues "a", "b" and "a" again. */
  const REUSING: seq<HostStep> :=
    [Issues("a", "k", Null, false), Issues("b", "k", Null, false), Issues("a", "k", Null, false)]

  function Plain(cueId: string, sequence: int): Cue { Cue("s", cueId, sequence, "k", false, Null) }

  /** Ids do get reused: a host accepts the id of a cue it evicted, and a client that applied the first
      two cues is then replayed a cue it throws on. */
  lemma EvictedIdReused()
    ensures var h := HostAfter(NewHost("s"), 1, REUSING);
      var s := Delivered(NewClient("s"), Successes([Plain("a", 1), Plain("b", 2)]));
      && IssuedIn(NewHost("s"), 1, REUSING) == [Plain("a", 1), Plain("b", 2), Plain("a", 3)]
      && s.lastApplied == 2
      && ResumeAfter(h, 2) == Some(Replay([Plain("a", 3)]))
      && Receive(s, Plain("a", 3), Succeeds) == None
  {
    hide Issue, Receive, Delivered, HostAfter, IssuedIn, Successes;
    ReusingRun();
    ReusedIdIsRefused();
    assert After([Plain("a", 3)], 2) == [Plain("a", 3)] by { assert [Plain("a", 3)][1..] == []; }
  }

  lemma ReusingRun()
    ensures HostAfter(NewHost("s"), 1, REUSING) == HostState("s", 4, [Plain("a", 3)], map[])
    ensures IssuedIn(NewHost("s"), 1, REUSING) == [Plain("a", 1), Plain("b", 2), Plain("a", 3)]
  {
    hide Issue, Blank;
    LettersAreText();
    var start := NewHost("s");
    var h1 := HostState("s", 2, [Plain("a", 1)], map[]);
    var h2 := HostState("s", 3, [Plain("b", 2)], map[]);
    IssuedOnce(start, "a");
    IssuedOnce(h1, "b");
    IssuedOnce(h2, "a");
    assert REUSING[..1][..0] == [] && REUSING[..2][..1] == REUSING[..1];
    assert HostAfter(start, 1, []) == start && IssuedIn(start, 1, []) == [];
    assert HostAfter(start, 1, REUSING[..1]) == h1 && IssuedIn(start, 1, REUSING[..1]) == [Plain("a", 1)];
    assert HostAfter(start, 1, REUSING[..2]) == h2 && IssuedIn(start, 1, REUSING[..2])
      == [Plain("a", 1), Plain("b", 2)];
  }

  /** Issuing on a host that retains one cue with another id, or none. */
  lemma IssuedOnce(h: HostState, cueId: string)
    requires h.sessionId == "s" && h.nextSequence >= 1 && h.acknowledgements == map[] && |h.retained| <= 1
    requires !Blank("s") && !Blank("k") && !Blank(cueId) && cueId !in Ids(h.retained)
    ensures Issue(h, 1, cueId, "k", Null, false)
         == Some((HostState("s", h.nextSequence + 1, [Plain(cueId, h.nextSequence)], map[]),
           Plain(cueId, h.nextSequence)))
  {
    hide Blank;
    assert Last(h.retained + [Plain(cueId, h.nextSequence)], 1) == [Plain(cueId, h.nextSequence)];
  }

  lemma LettersAreText()
    ensures !Blank("a") && !Blank("b") && !Blank("k") && !Blank("s")
  {
    assert !WhiteSpace("a"[0]) && !WhiteSpace("b"[0]) && !WhiteSpace("k"[0]) && !WhiteSpace("s"[0]);
  }

  lemma ReusedIdIsRefused()
    ensures var s := Delivered(NewClient("s"), Successes([Plain("a", 1), Plain("b", 2)]));
      s.lastApplied == 2 && Receive(s, Plain("a", 3), Succeeds) == None
  {
    hide Fingerprint, Blank;
    LettersAreText();
    var a, b := Plain("a", 1), Plain("b", 2);
    assert [a, b][1..] == [b] && [b][1..] == [];
    assert Successes([a, b]) == [Delivery(a, Succeeds), Delivery(b, Succeeds)];
    assert [Delivery(a, Succeeds), Delivery(b, Succeeds)][1..] == [Delivery(b, Succeeds)];
    assert [Delivery(b, Succeeds)][1..] == [];
    FingerprintInjective(a, Plain("a", 3));
  }
}
