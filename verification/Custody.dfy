// Signed custodian receipts over the fork-publication journal:
// rust/galia-core/src/custody_attestation.rs.
module Custody {
  import opened Base
  import opened Chains
  import P = ForkPublication
  import U = AuditChain

  const FORMAT := "GALIA_NONCANONICAL_FORK_CUSTODY_RECEIPT_V1"
  const MAX_CHAIN := 128

  // Who keeps receipts, and for which publication scope.
  datatype Custodian = Custodian(id: string, key: string, streamId: string, auditPin: Digest, witnessPolicy: Digest)

  datatype TrustPin = TrustPin(
    custodian: Custodian, floorSequence: nat, floorReceipt: Option<Digest>, floorPublication: P.Checkpoint)

  datatype Payload = Payload(
    format: string, custodianId: string, streamId: string, auditPin: Digest, witnessPolicy: Digest,
    sequence: nat, previous: Option<Digest>, publication: P.Checkpoint, bundleHash: Digest)

  datatype Receipt = Receipt(payload: Payload, signature: string)

  // The publication it watches, the digest of the auditor pin there, the keys of
  // the fork witnesses, and the digests and signatures of receipts.
  datatype Env = Env(
    publication: P.Env,
    witnessPolicyValid: bool,
    auditPinHash: Digest,
    witnessKeys: set<string>,
    validKey: string -> bool,
    receiptHash: Receipt -> Digest,
    bundleHash: P.Bundle -> Digest,
    verify: (string, string, Payload) -> bool)

  ghost predicate Sound(env: Env) {
    && P.Sound(env.publication) && Injective(env.receiptHash)
    && forall r :: env.publication.validHash(env.receiptHash(r))
  }

  datatype Error =
    | InvalidPin | Length | InvalidCheckpoint | SequenceOverflow | HeightOverflow | ChainMismatch | BadSignature
    | LocalFloor(error: P.Error) | Truncated | NotPublishedLocally | BundleDiffers | SameCustodian | NoAgreement

  predicate ValidPin(env: Env, pin: TrustPin) {
    var who, audit := pin.custodian, env.publication.pin.auditor;
    && env.witnessPolicyValid && P.ValidCheckpoint(env.publication, pin.floorPublication)
    && ValidId(who.id) && who.streamId == audit.streamId
    && who.auditPin == env.auditPinHash && who.witnessPolicy == env.publication.policyHash
    && env.publication.validHash(who.auditPin) && env.publication.validHash(who.witnessPolicy)
    && (pin.floorSequence == 0 <==> pin.floorReceipt.None?)
    && (pin.floorReceipt.Some? ==> env.publication.validHash(pin.floorReceipt.value))
    && (pin.floorSequence == 0 ==> pin.floorPublication.count == 0)
    && env.validKey(who.key)
    && who.key != audit.key && who.key != audit.scope.responseSigner && who.key !in env.witnessKeys
  }

  datatype State = State(
    sequence: nat, previous: Option<Digest>, publication: P.Checkpoint, reports: seq<P.Checkpoint>)

  function Apply(env: Env, who: Custodian, s: State, r: Receipt): Result<State, Error> {
    var p := r.payload;
    if !P.ValidCheckpoint(env.publication, p.publication) then Err(InvalidCheckpoint)
    else if CheckedAdd1(s.sequence).None? then Err(SequenceOverflow)
    else if CheckedAdd1(s.publication.count).None? then Err(HeightOverflow)
    else if || p.format != FORMAT || p.custodianId != who.id || p.streamId != who.streamId
            || p.auditPin != who.auditPin || p.witnessPolicy != who.witnessPolicy
            || p.sequence != s.sequence + 1 || p.previous != s.previous
            || p.publication.count != s.publication.count + 1
            || !env.publication.validHash(p.bundleHash)
    then Err(ChainMismatch)
    else if !env.verify(who.key, r.signature, p) then Err(BadSignature)
    else Ok(State(p.sequence, Some(env.receiptHash(r)), p.publication, s.reports + [p.publication]))
  }

  function Step(env: Env, who: Custodian): (State, Receipt) -> Result<State, Error> {
    (s: State, r: Receipt) => Apply(env, who, s, r)
  }

  function Start(pin: TrustPin): State {
    State(pin.floorSequence, pin.floorReceipt, pin.floorPublication, [])
  }

  function VerifyChain(env: Env, pin: TrustPin, signed: seq<Receipt>): Result<State, Error> {
    if !ValidPin(env, pin) then Err(InvalidPin)
    else if signed == [] || |signed| > MAX_CHAIN then Err(Length)
    else Run(Step(env, pin.custodian), Start(pin), signed)
  }

  method VerifyReceiptChain(env: Env, pin: TrustPin, signed: seq<Receipt>)
    returns (r: Result<(seq<P.Checkpoint>, Digest), Error>)
    ensures match VerifyChain(env, pin, signed)
            case Err(e) => r == Err(e)
            case Ok(s) => s.previous.Some? && r == Ok((s.reports, s.previous.value))
  {
    if !ValidPin(env, pin) { return Err(InvalidPin); }
    if signed == [] || |signed| > MAX_CHAIN { return Err(Length); }
    var who := pin.custodian;
    var sequence, previous, publication := pin.floorSequence, pin.floorReceipt, pin.floorPublication;
    var reports := [];
    for i := 0 to |signed|
      invariant Run(Step(env, who), Start(pin), signed[..i]) == Ok(State(sequence, previous, publication, reports))
      invariant i > 0 ==> previous.Some?
    {
      assert signed[..i + 1] == signed[..i] + [signed[i]];
      RunSnoc(Step(env, who), Start(pin), signed[..i], signed[i]);
      assert signed == signed[..i + 1] + signed[i + 1..];
      RunConcat(Step(env, who), Start(pin), signed[..i + 1], signed[i + 1..]);
      var p := signed[i].payload;
      if !P.ValidCheckpoint(env.publication, p.publication) { return Err(InvalidCheckpoint); }
      if CheckedAdd1(sequence).None? { return Err(SequenceOverflow); }
      if CheckedAdd1(publication.count).None? { return Err(HeightOverflow); }
      if || p.format != FORMAT || p.custodianId != who.id || p.streamId != who.streamId
         || p.auditPin != who.auditPin || p.witnessPolicy != who.witnessPolicy
         || p.sequence != sequence + 1 || p.previous != previous
         || p.publication.count != publication.count + 1
         || !env.publication.validHash(p.bundleHash) {
        return Err(ChainMismatch);
      }
      if !env.verify(who.key, signed[i].signature, p) { return Err(BadSignature); }
      previous, sequence, publication := Some(env.receiptHash(signed[i])), p.sequence, p.publication;
      reports := reports + [publication];
    }
    assert signed[..|signed|] == signed;
    r := Ok((reports, previous.value));
  }

  // ----- What a verified chain says about its receipts

  ghost predicate Placed(env: Env, pin: TrustPin, signed: seq<Receipt>, i: nat)
    requires i < |signed|
  {
    var p, who := signed[i].payload, pin.custodian;
    && p.format == FORMAT && p.custodianId == who.id && p.streamId == who.streamId
    && p.auditPin == who.auditPin && p.witnessPolicy == who.witnessPolicy
    && p.sequence == pin.floorSequence + i + 1
    && p.previous == Tip(env.receiptHash, pin.floorReceipt, signed[..i])
    && p.publication.count == pin.floorPublication.count + i + 1
    && env.verify(who.key, signed[i].signature, p)
    && P.ValidCheckpoint(env.publication, p.publication)
  }

  lemma {:induction false} RunFacts(env: Env, pin: TrustPin, signed: seq<Receipt>)
    requires Run(Step(env, pin.custodian), Start(pin), signed).Ok?
    ensures var s := Run(Step(env, pin.custodian), Start(pin), signed).value;
            && s.sequence == pin.floorSequence + |signed|
            && s.previous == Tip(env.receiptHash, pin.floorReceipt, signed)
            && s.publication == (if signed == [] then pin.floorPublication else signed[|signed| - 1].payload.publication)
            && s.publication.count == pin.floorPublication.count + |signed|
            && |s.reports| == |signed|
            && forall i :: 0 <= i < |signed| ==> s.reports[i] == signed[i].payload.publication
    ensures forall i :: 0 <= i < |signed| ==> Placed(env, pin, signed, i)
    decreases |signed|
  {
    if signed != [] {
      var n := |signed| - 1;
      assert signed == signed[..n] + [signed[n]];
      RunSnoc(Step(env, pin.custodian), Start(pin), signed[..n], signed[n]);
      RunFacts(env, pin, signed[..n]);
      forall i | 0 <= i < n ensures Placed(env, pin, signed, i) {
        assert Placed(env, pin, signed[..n], i);
        assert signed[..n][..i] == signed[..i];
      }
      assert Placed(env, pin, signed, n);
    }
  }

  // ----- Receipts against the local journal

  // One receipt agrees with the local journal: its checkpoint is a checkpoint of
  // the journal's own history and its bundle digest that of the entry there.
  predicate Backed(env: Env, j: P.Journal, r: Receipt) {
    && P.VerifyFloor(env.publication, j, r.payload.publication).Ok?
    && 0 < r.payload.publication.count <= |j|
    && j[r.payload.publication.count - 1].Whole?
    && env.bundleHash(j[r.payload.publication.count - 1].entry.bundle) == r.payload.bundleHash
  }

  function VerifyAgainstLocal(env: Env, j: P.Journal, pin: TrustPin, signed: seq<Receipt>): Result<State, Error> {
    match VerifyChain(env, pin, signed)
    case Err(e) => Err(e)
    case Ok(s) =>
      match P.VerifyFloor(env.publication, j, pin.floorPublication)
      case Err(e) => Err(LocalFloor(e))
      case Ok(_) =>
        if forall i :: 0 <= i < |signed| ==> Backed(env, j, signed[i]) then Ok(s) else Err(BundleDiffers)
  }

  method CheckBacked(env: Env, store: P.ScratchForkPublication, bundles: seq<P.Bundle>, receipt: Receipt)
    returns (r: Result<(), Error>)
    requires store.env == env.publication && P.BundlesOf(store.journal, bundles) && receipt.payload.publication.count > 0
    ensures r.Ok? <==> Backed(env, store.journal, receipt)
  {
    hide P.ProveFork, P.Apply;
    var count := receipt.payload.publication.count;
    var actual := store.CheckFloor(receipt.payload.publication);
    if actual.Err? { return Err(LocalFloor(actual.error)); }
    P.ReplayShape(env.publication, store.journal);
    if actual.value.count < count { return Err(Truncated); }
    if count > |bundles| { return Err(NotPublishedLocally); }
    if env.bundleHash(bundles[count - 1]) != receipt.payload.bundleHash { return Err(BundleDiffers); }
    r := Ok(());
  }

  method VerifyCustodyAgainstLocal(env: Env, store: P.ScratchForkPublication, pin: TrustPin, signed: seq<Receipt>)
    returns (r: Result<(seq<P.Checkpoint>, Digest), Error>)
    requires store.env == env.publication
    ensures match VerifyAgainstLocal(env, store.journal, pin, signed)
            case Err(_) => r.Err?
            case Ok(s) => s.previous.Some? && r == Ok((s.reports, s.previous.value))
  {
    hide P.ProveFork, P.Apply, Apply, Backed, P.BundlesOf;
    var chain := VerifyReceiptChain(env, pin, signed);
    if chain.Err? { return Err(chain.error); }
    var floor := store.CheckFloor(pin.floorPublication);
    if floor.Err? { return Err(LocalFloor(floor.error)); }
    var all := store.ReplayAll();
    if all.Err? { return Err(NotPublishedLocally); }
    P.RunBundles(env.publication, store.journal);
    RunFacts(env, pin, signed);
    for i := 0 to |signed|
      invariant forall k :: 0 <= k < i ==> Backed(env, store.journal, signed[k])
    {
      assert Placed(env, pin, signed, i);
      var backed := CheckBacked(env, store, all.value.bundles, signed[i]);
      if backed.Err? { return Err(backed.error); }
    }
    r := chain;
  }

  // A custodian whose receipts are accepted locally pins the journal: if a receipt
  // carries the checkpoint of journal j at its height, the local journal k begins
  // with the same entries.
  lemma ReceiptPinsJournal(env: Env, pin: TrustPin, signed: seq<Receipt>, i: nat, j: P.Journal, k: P.Journal)
    requires Sound(env) && P.Replay(env.publication, j).Ok? && i < |signed|
    requires signed[i].payload.publication.count <= |j|
    requires signed[i].payload.publication == P.CheckpointAt(env.publication, j, signed[i].payload.publication.count)
    requires VerifyAgainstLocal(env, k, pin, signed).Ok?
    ensures var n := signed[i].payload.publication.count; 0 < n <= |k| && k[..n] == j[..n]
  {
    hide P.ProveFork, P.Apply, Apply, P.VerifyFloor;
    assert Backed(env, k, signed[i]);
    P.FloorPinsPrefix(env.publication, j, signed[i].payload.publication.count, k);
  }

  function AssessTwo(env: Env, j: P.Journal, a: TrustPin, left: seq<Receipt>, b: TrustPin, right: seq<Receipt>)
    : Result<P.Checkpoint, Error>
  {
    if a.custodian.id == b.custodian.id || a.custodian.key == b.custodian.key then Err(SameCustodian)
    else
      match VerifyAgainstLocal(env, j, a, left)
      case Err(e) => Err(e)
      case Ok(l) =>
        match VerifyAgainstLocal(env, j, b, right)
        case Err(e) => Err(e)
        case Ok(r) => if l.publication != r.publication then Err(NoAgreement) else Ok(l.publication)
  }

  method AssessTwoCustodians(env: Env, store: P.ScratchForkPublication, a: TrustPin, left: seq<Receipt>, b: TrustPin, right: seq<Receipt>)
    returns (r: Result<P.Checkpoint, Error>)
    requires store.env == env.publication
    ensures match AssessTwo(env, store.journal, a, left, b, right) case Err(_) => r.Err? case Ok(c) => r == Ok(c)
  {
    hide P.ProveFork, P.Apply, Apply;
    if a.custodian.id == b.custodian.id || a.custodian.key == b.custodian.key { return Err(SameCustodian); }
    var l := VerifyCustodyAgainstLocal(env, store, a, left);
    if l.Err? { return Err(l.error); }
    var other := VerifyCustodyAgainstLocal(env, store, b, right);
    if other.Err? { return Err(other.error); }
    RunFacts(env, a, left);
    RunFacts(env, b, right);
    if l.value.0[|l.value.0| - 1] != other.value.0[|other.value.0| - 1] { return Err(NoAgreement); }
    r := Ok(l.value.0[|l.value.0| - 1]);
  }

  // Two custodians that agree end exactly at one entry of the local journal, each
  // by its own key, and neither disagrees with the other about any earlier entry.
  lemma AgreementMeansSameHistory(env: Env, j: P.Journal, a: TrustPin, left: seq<Receipt>, b: TrustPin, right: seq<Receipt>, i: nat, k: nat)
    requires AssessTwo(env, j, a, left, b, right).Ok?
    requires i < |left| && k < |right| && left[i].payload.publication.count == right[k].payload.publication.count
    ensures left[i].payload.publication == right[k].payload.publication
    ensures left[i].payload.bundleHash == right[k].payload.bundleHash
    ensures a.custodian.key != b.custodian.key
  {
    hide P.ProveFork, P.Apply, Apply;
    assert Backed(env, j, left[i]) && Backed(env, j, right[k]);
    FloorDetermined(env, j, left[i].payload.publication, right[k].payload.publication);
  }

  lemma FloorDetermined(env: Env, j: P.Journal, a: P.Checkpoint, b: P.Checkpoint)
    requires P.VerifyFloor(env.publication, j, a).Ok? && P.VerifyFloor(env.publication, j, b).Ok? && a.count == b.count
    ensures a == b
  {
    hide P.ProveFork, P.Apply;
  }
}
