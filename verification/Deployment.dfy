/** The finite deployment profile: validation of six configured records against three
    grants, and the lookups that protect and verify messages with them. Framing and claims
    are functions of the protected bytes, given by the caller. */
module Deployment {
  import opened Basics

  type Bytes = seq<bv8>

  datatype Role = Serve | Call
  datatype Binding = Binding(role: Role, runtime: string, actor: nat)
  datatype Purpose = Request | Reply
  datatype Operation = Increment | Read | Stop

  datatype Metadata = Metadata(
    wireVersion: nat, schemaVersion: nat, providerProfile: string, callerSession: string, runtimeGeneration: string,
    actorGeneration: nat, authorityGeneration: nat, requestSequence: nat,
    deployment: string, caller: string, controller: string, actor: string, host: string, protocol: string, grantIssuer: string)

  datatype ConfiguredRecord = ConfiguredRecord(protected: Bytes, proof: Bytes)
  datatype Claims = Claims(bombay: Metadata, kind: Purpose, operation: Operation)

  datatype Configuration = Configuration(
    profile: string, revision: nat, caller: Binding, receiver: Binding, grants: seq<Metadata>, records: seq<ConfiguredRecord>)

  datatype Record = Record(protected: Bytes, proof: Bytes, grant: Metadata)

  datatype Slot = Slot(operation: Operation, purpose: Purpose)

  datatype Profile = Profile(caller: Binding, records: map<Slot, Record>)

  datatype Refusal = ShapeRefused | JsonRefused | ConfigurationRefused | BindingRefused | ScopeRefused
    | SlotsRefused | CorrelationRefused | PairingRefused | ProofRefused

  datatype Result<T> = Ok(value: T) | Err(refusal: Refusal)

  datatype Receipt = Receipt(grant: Metadata, operation: Operation)

  const PROFILE := "remote-counter-finite-pairs-v1"

  const SLOTS: set<Slot> := {Slot(Increment, Request), Slot(Increment, Reply), Slot(Read, Request), Slot(Read, Reply), Slot(Stop, Request), Slot(Stop, Reply)}

  /** The uninterpreted parts of the wire format. */
  datatype Wire = Wire(framed: (Bytes, Bytes) -> bool, claims: Bytes -> Option<Claims>)

  // ---------------------------------------------------------- what is accepted

  predicate BindingsOk(c: Configuration, actual: Binding) {
    && (if actual.role.Serve? then c.receiver else c.caller) == actual
    && c.receiver.role.Serve? && c.caller.role.Call?
  }

  predicate InScope(c: Configuration, g: Metadata) {
    && g.wireVersion == 1 && g.schemaVersion == 1 && g.providerProfile == PROFILE
    && g.callerSession == c.caller.runtime && g.runtimeGeneration == c.receiver.runtime
    && g.actorGeneration == c.receiver.actor && g.authorityGeneration == c.revision
    && "" !in [g.deployment, g.caller, g.controller, g.actor, g.host, g.protocol, g.grantIssuer]
  }

  /** One record on its own: framed, readable, and claiming a configured grant. */
  predicate RecordOk(c: Configuration, wire: Wire, record: ConfiguredRecord) {
    && wire.framed(record.protected, record.proof)
    && wire.claims(record.protected).Some?
    && wire.claims(record.protected).value.bombay in c.grants
  }

  function SlotOf(wire: Wire, record: ConfiguredRecord): Slot
    requires wire.claims(record.protected).Some?
  {
    var claims := wire.claims(record.protected).value;
    Slot(claims.operation, claims.kind)
  }

  function Install(wire: Wire, record: ConfiguredRecord): Record
    requires wire.claims(record.protected).Some?
  {
    Record(record.protected, record.proof, wire.claims(record.protected).value.bombay)
  }

  predicate ClaimsSlot(wire: Wire, record: ConfiguredRecord, s: Slot) {
    wire.claims(record.protected).Some? && SlotOf(wire, record) == s
  }

  predicate InPlace(wire: Wire, record: ConfiguredRecord, slots: map<Slot, Record>) {
    && wire.claims(record.protected).Some?
    && SlotOf(wire, record) in slots && slots[SlotOf(wire, record)] == Install(wire, record)
  }

  ghost predicate Claimed(wire: Wire, records: seq<ConfiguredRecord>, s: Slot) {
    exists i :: 0 <= i < |records| && ClaimsSlot(wire, records[i], s)
  }

  /** The map holds exactly these records, each in the slot that its own bytes claim. */
  ghost predicate Installed(wire: Wire, records: seq<ConfiguredRecord>, slots: map<Slot, Record>) {
    && |slots| == |records|
    && (forall i :: 0 <= i < |records| ==> InPlace(wire, records[i], slots))
    && (forall s {:trigger Claimed(wire, records, s)} :: s in slots ==> Claimed(wire, records, s))
  }

  ghost predicate RecordsOk(c: Configuration, wire: Wire) {
    && (forall i :: 0 <= i < |c.records| ==> RecordOk(c, wire, c.records[i]))
    && (forall i, j :: 0 <= i < j < |c.records| ==> SlotOf(wire, c.records[i]) != SlotOf(wire, c.records[j]))
  }

  ghost predicate Header(c: Configuration, actual: Binding) {
    && BindingsOk(c, actual)
    && c.profile == PROFILE && c.caller.runtime != "" && c.receiver.runtime != ""
    && |c.grants| == 3 && |c.records| == 6
    && forall g :: g in c.grants ==> InScope(c, g)
  }

  /** Each request is paired with its reply, and correlations differ. */
  ghost predicate Paired(slots: map<Slot, Record>) {
    && (forall op: Operation :: Slot(op, Request) in slots && Slot(op, Reply) in slots)
    && (forall op: Operation :: slots[Slot(op, Request)].grant == slots[Slot(op, Reply)].grant)
    && (forall a: Operation, b: Operation :: a != b ==>
          slots[Slot(a, Request)].grant.requestSequence != slots[Slot(b, Request)].grant.requestSequence)
  }

  // ---------------------------------------------------------------- counting

  lemma FullSubset<T>(a: set<T>, b: set<T>)
    requires a <= b && |a| >= |b|
    ensures a == b
  {
    assert b == a + (b - a);
    assert |b| == |a| + |b - a|;
  }

  lemma SlotsAreSix()
    ensures |SLOTS| == 6 && forall s: Slot :: s in SLOTS
  {
    assert SLOTS == {Slot(Increment, Request)} + {Slot(Increment, Reply)} + {Slot(Read, Request)} + {Slot(Read, Reply)}
                    + {Slot(Stop, Request)} + {Slot(Stop, Reply)};
    forall s: Slot ensures s in SLOTS {
      var k := OrderIsComplete(s);
    }
  }

  /** Six records in distinct slots fill all six, so no slot can be found missing. */
  lemma SixFillAll(wire: Wire, records: seq<ConfiguredRecord>, slots: map<Slot, Record>)
    requires Installed(wire, records, slots) && |records| == 6
    ensures slots.Keys == SLOTS
  {
    SlotsAreSix();
    FullSubset(slots.Keys, SLOTS);
  }

  // -------------------------------------------------------------- validation

  method InstallRecords(c: Configuration, wire: Wire) returns (r: Result<map<Slot, Record>>)
    ensures r.Ok? <==> RecordsOk(c, wire)
    ensures r.Ok? ==> Installed(wire, c.records, r.value)
  {
    var slots: map<Slot, Record> := map[];
    for i := 0 to |c.records|
      invariant Installed(wire, c.records[..i], slots)
      invariant forall j :: 0 <= j < i ==> RecordOk(c, wire, c.records[j])
      invariant forall j, k :: 0 <= j < k < i ==> SlotOf(wire, c.records[j]) != SlotOf(wire, c.records[k])
    {
      var record := c.records[i];
      if !wire.framed(record.protected, record.proof) {
        return Err(ShapeRefused);
      }
      if wire.claims(record.protected).None? {
        return Err(JsonRefused);
      }
      if wire.claims(record.protected).value.bombay !in c.grants {
        return Err(ScopeRefused);
      }
      var slot := SlotOf(wire, record);
      if slot in slots {
        assert Claimed(wire, c.records[..i], slot);
        ghost var j :| 0 <= j < i && ClaimsSlot(wire, c.records[..i][j], slot);
        assert c.records[j] == c.records[..i][j];
        return Err(SlotsRefused);
      }
      InstallNext(wire, c.records[..i], record, slots);
      assert c.records[..i + 1] == c.records[..i] + [record];
      forall j | 0 <= j < i ensures SlotOf(wire, c.records[j]) != slot {
        assert c.records[..i][j] == c.records[j] && InPlace(wire, c.records[..i][j], slots);
      }
      slots := slots[slot := Install(wire, record)];
    }
    assert c.records[..|c.records|] == c.records;
    return Ok(slots);
  }

  lemma InstallNext(wire: Wire, records: seq<ConfiguredRecord>, record: ConfiguredRecord, slots: map<Slot, Record>)
    requires Installed(wire, records, slots)
    requires wire.claims(record.protected).Some? && SlotOf(wire, record) !in slots
    ensures Installed(wire, records + [record], slots[SlotOf(wire, record) := Install(wire, record)])
  {
    var more, grown := records + [record], slots[SlotOf(wire, record) := Install(wire, record)];
    forall i | 0 <= i < |more| ensures InPlace(wire, more[i], grown) {
      if i < |records| {
        assert more[i] == records[i] && InPlace(wire, records[i], slots);
      }
    }
    forall s | s in grown ensures Claimed(wire, more, s) {
      if s in slots {
        assert Claimed(wire, records, s);
        var i :| 0 <= i < |records| && ClaimsSlot(wire, records[i], s);
        assert more[i] == records[i];
      } else {
        assert ClaimsSlot(wire, more[|records|], s);
      }
    }
  }

  const OPERATIONS := [Increment, Read, Stop]

  function IndexOf(op: Operation): (k: nat)
    ensures k < 3 && OPERATIONS[k] == op
  {
    match op
    case Increment => 0
    case Read => 1
    case Stop => 2
  }

  lemma PairedByIndex(slots: map<Slot, Record>)
    requires slots.Keys == SLOTS
    requires forall j :: 0 <= j < 3 ==> slots[Slot(OPERATIONS[j], Request)].grant == slots[Slot(OPERATIONS[j], Reply)].grant
    requires forall j, k :: 0 <= j < k < 3 ==>
      slots[Slot(OPERATIONS[j], Request)].grant.requestSequence != slots[Slot(OPERATIONS[k], Request)].grant.requestSequence
    ensures Paired(slots)
  {
    SlotsAreSix();
    forall op: Operation ensures slots[Slot(op, Request)].grant == slots[Slot(op, Reply)].grant {
      assert OPERATIONS[IndexOf(op)] == op;
    }
    forall a: Operation, b: Operation | a != b
      ensures slots[Slot(a, Request)].grant.requestSequence != slots[Slot(b, Request)].grant.requestSequence
    {
      assert OPERATIONS[IndexOf(a)] == a && OPERATIONS[IndexOf(b)] == b;
      assert IndexOf(a) < IndexOf(b) || IndexOf(b) < IndexOf(a);
    }
  }

  method CheckPairs(slots: map<Slot, Record>) returns (r: Option<Refusal>)
    requires slots.Keys == SLOTS
    ensures r.None? <==> Paired(slots)
    ensures r.Some? ==> r.value.PairingRefused? || r.value.CorrelationRefused?
  {
    var operations := OPERATIONS;
    var correlations: set<nat> := {};
    for i := 0 to 3
      invariant forall j :: 0 <= j < i ==> slots[Slot(operations[j], Request)].grant == slots[Slot(operations[j], Reply)].grant
      invariant correlations == set j | 0 <= j < i :: slots[Slot(operations[j], Request)].grant.requestSequence
      invariant forall j, k :: 0 <= j < k < i ==>
        slots[Slot(operations[j], Request)].grant.requestSequence != slots[Slot(operations[k], Request)].grant.requestSequence
    {
      var request, reply := slots[Slot(operations[i], Request)], slots[Slot(operations[i], Reply)];
      if request.grant != reply.grant {
        return Some(PairingRefused);
      }
      if request.grant.requestSequence in correlations {
        ghost var j :| 0 <= j < i && slots[Slot(operations[j], Request)].grant.requestSequence == request.grant.requestSequence;
        assert operations[j] != operations[i];
        return Some(CorrelationRefused);
      }
      correlations := correlations + {request.grant.requestSequence};
    }
    PairedByIndex(slots);
    return None;
  }

  method CheckHeader(c: Configuration, actual: Binding) returns (r: Option<Refusal>)
    ensures r.None? <==> Header(c, actual)
  {
    if !BindingsOk(c, actual) {
      return Some(BindingRefused);
    }
    if c.profile != PROFILE || c.caller.runtime == "" || c.receiver.runtime == "" {
      return Some(ConfigurationRefused);
    }
    if |c.grants| != 3 || |c.records| != 6 {
      return Some(SlotsRefused);
    }
    for i := 0 to |c.grants|
      invariant forall j :: 0 <= j < i ==> InScope(c, c.grants[j])
    {
      if !InScope(c, c.grants[i]) {
        return Some(ScopeRefused);
      }
    }
    return None;
  }

  /** A validated profile: the records of a good configuration, in their own slots, paired. */
  ghost predicate Validated(c: Configuration, actual: Binding, wire: Wire, p: Profile) {
    Header(c, actual) && RecordsOk(c, wire) && Installed(wire, c.records, p.records) && Paired(p.records) && p.caller == c.caller
  }

  lemma NoOtherProfile(c: Configuration, actual: Binding, wire: Wire, slots: map<Slot, Record>)
    requires Installed(wire, c.records, slots) && !Paired(slots)
    ensures forall p :: !Validated(c, actual, wire, p)
  {
    forall p ensures !Validated(c, actual, wire, p) {
      if Installed(wire, c.records, p.records) {
        OneInstallation(wire, c.records, slots, p.records);
      }
    }
  }

  /** Validation accepts exactly the configurations that have a validated profile. */
  method Validate(c: Configuration, actual: Binding, wire: Wire) returns (r: Result<Profile>)
    ensures r.Ok? ==> Validated(c, actual, wire, r.value)
    ensures r.Err? ==> forall p :: !Validated(c, actual, wire, p)
  {
    var refused := CheckHeader(c, actual);
    if refused.Some? {
      return Err(refused.value);
    }
    var installed := InstallRecords(c, wire);
    if installed.Err? {
      return Err(installed.refusal);
    }
    SixFillAll(wire, c.records, installed.value);
    refused := CheckPairs(installed.value);
    if refused.Some? {
      NoOtherProfile(c, actual, wire, installed.value);
      return Err(refused.value);
    }
    return Ok(Profile(c.caller, installed.value));
  }

  /** There is only one way to install the records. */
  lemma OneInstallation(wire: Wire, records: seq<ConfiguredRecord>, a: map<Slot, Record>, b: map<Slot, Record>)
    requires Installed(wire, records, a) && Installed(wire, records, b)
    ensures a == b
  {
    forall s | s in a || s in b ensures s in a && s in b && a[s] == b[s] {
      assert Claimed(wire, records, s);
      var i :| 0 <= i < |records| && ClaimsSlot(wire, records[i], s);
      assert InPlace(wire, records[i], a) && InPlace(wire, records[i], b);
    }
    assert a.Keys == b.Keys;
  }

  // ------------------------------------------------------- what acceptance means

  /** Bytes claim one slot, so different slots hold different bytes, and the grant in a slot
      is the one its bytes claim. */
  lemma SlotsHoldTheirOwnBytes(c: Configuration, actual: Binding, wire: Wire, p: Profile, s: Slot, t: Slot)
    requires Validated(c, actual, wire, p)
    ensures p.records.Keys == SLOTS
    ensures s in p.records ==>
      wire.claims(p.records[s].protected) == Some(Claims(p.records[s].grant, s.purpose, s.operation))
    ensures s in p.records && t in p.records && p.records[s].protected == p.records[t].protected ==> s == t
  {
    SixFillAll(wire, c.records, p.records);
    SlotsAreSix();
    OwnBytes(wire, c.records, p.records, s);
    OwnBytes(wire, c.records, p.records, t);
  }

  lemma OwnBytes(wire: Wire, records: seq<ConfiguredRecord>, slots: map<Slot, Record>, s: Slot)
    requires Installed(wire, records, slots) && s in slots
    ensures wire.claims(slots[s].protected) == Some(Claims(slots[s].grant, s.purpose, s.operation))
  {
    assert Claimed(wire, records, s);
    var i :| 0 <= i < |records| && ClaimsSlot(wire, records[i], s);
    assert InPlace(wire, records[i], slots);
  }

  ghost predicate GrantsOperation(p: Profile, g: Metadata, op: Operation) {
    Slot(op, Request) in p.records && p.records[Slot(op, Request)].grant == g
  }

  lemma GrantIsConfigured(c: Configuration, wire: Wire, p: Profile, op: Operation)
    requires RecordsOk(c, wire) && Installed(wire, c.records, p.records) && Slot(op, Request) in p.records
    ensures p.records[Slot(op, Request)].grant in c.grants
  {
    assert Claimed(wire, c.records, Slot(op, Request));
    var i :| 0 <= i < |c.records| && ClaimsSlot(wire, c.records[i], Slot(op, Request));
    assert InPlace(wire, c.records[i], p.records);
    assert RecordOk(c, wire, c.records[i]);
  }

  function Granted(p: Profile): set<Metadata>
    requires p.records.Keys == SLOTS
  {
    {p.records[Slot(Increment, Request)].grant, p.records[Slot(Read, Request)].grant, p.records[Slot(Stop, Request)].grant}
  }

  /** Every configured grant is the grant of some operation, and no two are equal. */
  lemma GrantsAreUsed(c: Configuration, wire: Wire, p: Profile)
    requires RecordsOk(c, wire) && Installed(wire, c.records, p.records) && Paired(p.records) && p.records.Keys == SLOTS
    requires |c.grants| == 3
    ensures Granted(p) == (set g | g in c.grants) && DistinctGrants(c.grants)
  {
    GrantIsConfigured(c, wire, p, Increment);
    GrantIsConfigured(c, wire, p, Read);
    GrantIsConfigured(c, wire, p, Stop);
    ThreeGrants(p.records);
    ThreeValues(c.grants);
    FullSubset(Granted(p), set g | g in c.grants);
    ThreeDistinct(c.grants);
  }

  predicate DistinctGrants(grants: seq<Metadata>) {
    forall i, j :: 0 <= i < j < |grants| ==> grants[i] != grants[j]
  }

  /** A bijection between the three grants and the three operations. */
  lemma GrantsMatchOperations(c: Configuration, actual: Binding, wire: Wire, p: Profile)
    requires Validated(c, actual, wire, p)
    ensures DistinctGrants(c.grants)
    ensures forall g :: g in c.grants ==> exists op :: GrantsOperation(p, g, op)
    ensures forall op: Operation :: Slot(op, Request) in p.records && p.records[Slot(op, Request)].grant in c.grants
    ensures forall a: Operation, b: Operation, g: Metadata :: GrantsOperation(p, g, a) && GrantsOperation(p, g, b) ==> a == b
  {
    SixFillAll(wire, c.records, p.records);
    GrantsAreUsed(c, wire, p);
    forall g | g in c.grants ensures exists op :: GrantsOperation(p, g, op) {
      assert g in Granted(p);
      assert GrantsOperation(p, g, Increment) || GrantsOperation(p, g, Read) || GrantsOperation(p, g, Stop);
    }
    forall op: Operation ensures p.records[Slot(op, Request)].grant in c.grants {
      GrantIsConfigured(c, wire, p, op);
    }
  }

  lemma ThreeGrants(slots: map<Slot, Record>)
    requires Paired(slots)
    ensures |{slots[Slot(Increment, Request)].grant, slots[Slot(Read, Request)].grant, slots[Slot(Stop, Request)].grant}| == 3
  {
    var a, b, c := slots[Slot(Increment, Request)].grant, slots[Slot(Read, Request)].grant, slots[Slot(Stop, Request)].grant;
    assert a != b && b != c && a != c;
    assert {a, b, c} == {a} + {b} + {c};
  }

  lemma ThreeValues(grants: seq<Metadata>)
    requires |grants| == 3
    ensures |set g | g in grants| <= 3
  {
    assert (set g | g in grants) == {grants[0]} + {grants[1]} + {grants[2]};
  }

  lemma TwoValues(a: Metadata, b: Metadata)
    ensures |{a, b}| <= 2
  {
    assert {a, b} == {a} + {b};
  }

  lemma ThreeDistinct(grants: seq<Metadata>)
    requires |grants| == 3 && |set g | g in grants| >= 3
    ensures DistinctGrants(grants)
  {
    var a, b, c := grants[0], grants[1], grants[2];
    assert (set g | g in grants) == {a, b, c};
    TwoValues(a, b);
    TwoValues(a, c);
    assert a == b ==> {a, b, c} == {a, c};
    assert a == c || b == c ==> {a, b, c} == {a, b};
  }

  // ----------------------------------------------------------------- lookups

  /** The slots in the order of the map. */
  const ORDER: seq<Slot> := [Slot(Increment, Request), Slot(Increment, Reply), Slot(Read, Request), Slot(Read, Reply), Slot(Stop, Request), Slot(Stop, Reply)]

  /** The first slot from `i` on with these bytes, and with this proof if one is given. */
  function Find(p: Profile, i: nat, protected: Bytes, proof: Option<Bytes>): (slot: Option<Slot>)
    ensures slot.Some? ==>
      && slot.value in p.records && p.records[slot.value].protected == protected
      && (proof.Some? ==> p.records[slot.value].proof == proof.value)
    decreases |ORDER| - i
  {
    if i >= |ORDER| then None
    else if ORDER[i] in p.records && p.records[ORDER[i]].protected == protected
            && (proof.Some? ==> p.records[ORDER[i]].proof == proof.value) then Some(ORDER[i])
    else Find(p, i + 1, protected, proof)
  }

  function MetadataOf(p: Profile, op: Operation): Result<Metadata> {
    if Slot(op, Request) in p.records then Ok(p.records[Slot(op, Request)].grant) else Err(SlotsRefused)
  }

  function Protect(p: Profile, purpose: Purpose, protected: Bytes): Result<Bytes> {
    match Find(p, 0, protected, None)
    case None => Err(ProofRefused)
    case Some(slot) => if slot.purpose != purpose then Err(ScopeRefused) else Ok(p.records[slot].proof)
  }

  function Verify(p: Profile, purpose: Purpose, protected: Bytes, proof: Bytes): Result<Receipt> {
    match Find(p, 0, protected, Some(proof))
    case None => Err(ProofRefused)
    case Some(slot) => if slot.purpose != purpose then Err(ScopeRefused) else Ok(Receipt(p.records[slot].grant, slot.operation))
  }

  lemma {:induction false} FindIsComplete(p: Profile, i: nat, k: nat, protected: Bytes, proof: Option<Bytes>)
    requires i <= k < |ORDER| && ORDER[k] in p.records && p.records[ORDER[k]].protected == protected
    requires proof.Some? ==> p.records[ORDER[k]].proof == proof.value
    ensures Find(p, i, protected, proof).Some?
    decreases k - i
  {
    if i < k {
      FindIsComplete(p, i + 1, k, protected, proof);
    }
  }

  lemma OrderIsComplete(s: Slot) returns (k: nat)
    ensures k < |ORDER| && ORDER[k] == s
  {
    k := match s.operation
      case Increment => 0
      case Read => 2
      case Stop => 4;
    k := if s.purpose.Request? then k else k + 1;
  }

  lemma FindsTheSlot(c: Configuration, actual: Binding, wire: Wire, p: Profile, s: Slot, proof: Option<Bytes>)
    requires Validated(c, actual, wire, p) && s in p.records && (proof.Some? ==> p.records[s].proof == proof.value)
    ensures Find(p, 0, p.records[s].protected, proof) == Some(s)
  {
    var k := OrderIsComplete(s);
    FindIsComplete(p, 0, k, p.records[s].protected, proof);
    SlotsHoldTheirOwnBytes(c, actual, wire, p, s, Find(p, 0, p.records[s].protected, proof).value);
  }

  /** Exact: verification succeeds if and only if the bytes and the proof are configured for
      this purpose, and then yields the operation and the grant that the bytes claim. */
  lemma VerifyIff(c: Configuration, actual: Binding, wire: Wire, p: Profile, purpose: Purpose, protected: Bytes, proof: Bytes)
    requires Validated(c, actual, wire, p)
    ensures var claims := wire.claims(protected);
      var configured := claims.Some? && claims.value.kind == purpose
        && p.records[Slot(claims.value.operation, purpose)] == Record(protected, proof, claims.value.bombay);
      Verify(p, purpose, protected, proof).Ok? <==> configured
    ensures Verify(p, purpose, protected, proof).Ok? ==>
      wire.claims(protected) == Some(Claims(Verify(p, purpose, protected, proof).value.grant, purpose,
                                            Verify(p, purpose, protected, proof).value.operation))
  {
    SlotsAreSix();
    SixFillAll(wire, c.records, p.records);
    var found := Find(p, 0, protected, Some(proof));
    if found.Some? {
      OwnBytes(wire, c.records, p.records, found.value);
    }
    var claims := wire.claims(protected);
    if claims.Some? {
      var slot := Slot(claims.value.operation, purpose);
      if p.records[slot] == Record(protected, proof, claims.value.bombay) {
        FindsTheSlot(c, actual, wire, p, slot, Some(proof));
      }
    }
  }

  /** What is protected verifies: with the returned proof, for the same purpose, to the
      operation and the grant of the slot the bytes are configured in. */
  lemma ProtectedVerifies(c: Configuration, actual: Binding, wire: Wire, p: Profile, purpose: Purpose, protected: Bytes)
    requires Validated(c, actual, wire, p) && Protect(p, purpose, protected).Ok?
    ensures exists op: Operation ::
      && Slot(op, purpose) in p.records && p.records[Slot(op, purpose)].protected == protected
      && Verify(p, purpose, protected, Protect(p, purpose, protected).value) == Ok(Receipt(p.records[Slot(op, purpose)].grant, op))
      && MetadataOf(p, op) == Ok(p.records[Slot(op, purpose)].grant)
  {
    var slot := Find(p, 0, protected, None).value;
    FindsTheSlot(c, actual, wire, p, slot, Some(p.records[slot].proof));
    SixFillAll(wire, c.records, p.records);
  }
}
