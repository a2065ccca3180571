// Two receipt branches of one custodian, compared, and the disclosure quorum over
// a proven contradiction: rust/galia-core/src/custody_equivocation.rs and
// rust/galia-core/src/custody_disclosure.rs.
module CustodyFork {
  import opened Base
  import opened Chains
  import opened Custody

  datatype Classification = SameSignedClaims | VerifiedPrefixExtension | ConflictingSignedCustodianClaims

  datatype Conflict = Conflict(
    sequence: nat, previous: Option<Digest>, leftEnvelope: Digest, rightEnvelope: Digest,
    leftPayload: Digest, rightPayload: Digest)

  datatype Assessment = Assessment(classification: Classification, commonPrior: nat, conflict: Option<Conflict>)

  datatype ForkError =
    | Unverified(error: Error) | NoCommonPredecessor | NotContentConflict
    | NoContradiction | IdenticalEnvelopes | InvalidPredecessor
    | InvalidPolicy | EndorsementCount | UnknownObserver | RevokedOrDuplicate | WrongEndorsement | BadEndorsement

  // What the signed pair of a disclosure digests.
  datatype PairInput = PairInput(pinHash: Digest, sequence: nat, previous: Option<Digest>, low: Digest, high: Digest)

  datatype ForkEnv = ForkEnv(
    custody: Env,
    payloadHash: Payload -> Digest,
    pinHash: TrustPin -> Digest,
    pairHash: PairInput -> Digest,
    policyHash: Policy -> Digest,
    verifyEndorsement: (string, string, EndorsementPayload) -> bool)

  // ----- The first difference

  predicate PayloadsAgree(left: seq<Receipt>, right: seq<Receipt>, n: nat) {
    n <= |left| && n <= |right| && forall i :: 0 <= i < n ==> left[i].payload == right[i].payload
  }

  predicate FirstDifference(left: seq<Receipt>, right: seq<Receipt>, n: nat) {
    && n < |left| && n < |right| && PayloadsAgree(left, right, n) && left[n].payload != right[n].payload
  }

  // The first position where the payloads differ, or where a branch ends.
  function Shared(left: seq<Receipt>, right: seq<Receipt>): (n: nat)
    ensures PayloadsAgree(left, right, n)
    ensures n < |left| && n < |right| ==> left[n].payload != right[n].payload
  {
    if left == [] || right == [] || left[0].payload != right[0].payload then 0
    else
      var m := Shared(left[1..], right[1..]);
      assert forall i :: 0 < i <= m ==> left[i] == left[1..][i - 1] && right[i] == right[1..][i - 1];
      m + 1
  }

  function Assess(env: ForkEnv, pin: TrustPin, left: seq<Receipt>, right: seq<Receipt>): Result<Assessment, ForkError> {
    match VerifyChain(env.custody, pin, left)
    case Err(e) => Err(Unverified(e))
    case Ok(_) =>
      match VerifyChain(env.custody, pin, right)
      case Err(e) => Err(Unverified(e))
      case Ok(_) => Classify(env, pin, left, right, Shared(left, right))
  }

  function Classify(env: ForkEnv, pin: TrustPin, left: seq<Receipt>, right: seq<Receipt>, n: nat): Result<Assessment, ForkError>
    requires n <= |left| && n <= |right| && left != [] && right != []
  {
    if n < |left| && n < |right| then
      var a, b := left[n], right[n];
      if a.payload.sequence != b.payload.sequence || a.payload.previous != b.payload.previous then Err(NoCommonPredecessor)
      else if a.payload.publication == b.payload.publication && a.payload.bundleHash == b.payload.bundleHash then
        Err(NotContentConflict)
      else if a.payload.sequence == 0 then Err(InvalidPredecessor)
      else
        Ok(Assessment(ConflictingSignedCustodianClaims, a.payload.sequence - 1,
                      Some(Conflict(a.payload.sequence, a.payload.previous,
                                    env.custody.receiptHash(a), env.custody.receiptHash(b),
                                    env.payloadHash(a.payload), env.payloadHash(b.payload)))))
    else
      var x, y := left[|left| - 1].payload.sequence, right[|right| - 1].payload.sequence;
      Ok(Assessment(if |left| == |right| then SameSignedClaims else VerifiedPrefixExtension, if x <= y then x else y, None))
  }

  method AssessCustodianFork(env: ForkEnv, pin: TrustPin, left: seq<Receipt>, right: seq<Receipt>)
    returns (r: Result<Assessment, ForkError>)
    ensures r == Assess(env, pin, left, right)
  {
    hide Apply;
    var l := VerifyReceiptChain(env.custody, pin, left);
    if l.Err? { return Err(Unverified(l.error)); }
    var other := VerifyReceiptChain(env.custody, pin, right);
    if other.Err? { return Err(Unverified(other.error)); }
    var overlap := if |left| < |right| then |left| else |right|;
    var n := 0;
    while n < overlap && left[n].payload == right[n].payload
      invariant n <= overlap && PayloadsAgree(left, right, n)
    {
      n := n + 1;
    }
    SharedUnique(left, right, n);
    r := Classify(env, pin, left, right, n);
  }

  lemma SharedUnique(left: seq<Receipt>, right: seq<Receipt>, n: nat)
    requires PayloadsAgree(left, right, n)
    requires n < |left| && n < |right| ==> left[n].payload != right[n].payload
    ensures n == Shared(left, right)
  {
    assert PayloadsAgree(left, right, Shared(left, right));
  }

  // ----- Exactness

  predicate BothAccepted(env: ForkEnv, pin: TrustPin, left: seq<Receipt>, right: seq<Receipt>) {
    VerifyChain(env.custody, pin, left).Ok? && VerifyChain(env.custody, pin, right).Ok?
  }

  // Accepted branches whose first n payloads agree have the very same envelopes up
  // to the last of them: a payload carries the digest of the envelope before it.
  lemma PayloadsPinEnvelopes(env: ForkEnv, pin: TrustPin, left: seq<Receipt>, right: seq<Receipt>, n: nat, i: nat)
    requires Sound(env.custody) && BothAccepted(env, pin, left, right)
    requires PayloadsAgree(left, right, n) && i + 1 < n
    ensures left[i] == right[i]
  {
    hide Apply;
    RunFacts(env.custody, pin, left);
    RunFacts(env.custody, pin, right);
    assert Placed(env.custody, pin, left, i + 1) && Placed(env.custody, pin, right, i + 1);
    assert left[..i + 1][i] == left[i] && right[..i + 1][i] == right[i];
  }

  // Where the payloads first differ, sequence and scope agree; the predecessors
  // agree exactly when the two envelopes before the difference are the same one.
  lemma AtFirstDifference(env: ForkEnv, pin: TrustPin, left: seq<Receipt>, right: seq<Receipt>, n: nat)
    requires Sound(env.custody) && BothAccepted(env, pin, left, right) && FirstDifference(left, right, n)
    ensures left[n].payload.sequence == right[n].payload.sequence == pin.floorSequence + n + 1
    ensures left[n].payload.previous == right[n].payload.previous <==> n == 0 || left[n - 1] == right[n - 1]
    ensures left[n].payload.previous == right[n].payload.previous ==>
              left[n].payload.publication != right[n].payload.publication || left[n].payload.bundleHash != right[n].payload.bundleHash
  {
    hide Apply;
    RunFacts(env.custody, pin, left);
    RunFacts(env.custody, pin, right);
    assert Placed(env.custody, pin, left, n) && Placed(env.custody, pin, right, n);
    if n > 0 {
      assert left[..n][n - 1] == left[n - 1] && right[..n][n - 1] == right[n - 1];
    }
  }

  predicate SamePayloads(left: seq<Receipt>, right: seq<Receipt>) {
    |left| == |right| && PayloadsAgree(left, right, |left|)
  }

  predicate ProperPayloadPrefix(left: seq<Receipt>, right: seq<Receipt>) {
    |left| < |right| && PayloadsAgree(left, right, |left|)
  }

  // The envelopes before the first difference carry one payload under two signatures.
  ghost predicate SignatureSplit(left: seq<Receipt>, right: seq<Receipt>) {
    exists n :: n > 0 && FirstDifference(left, right, n)
                && left[n - 1].payload == right[n - 1].payload && left[n - 1].signature != right[n - 1].signature
  }

  ghost predicate SharedPredecessorConflict(left: seq<Receipt>, right: seq<Receipt>) {
    exists n :: FirstDifference(left, right, n) && (n == 0 || left[n - 1] == right[n - 1])
  }

  // The classification of two accepted branches is exact: equal payloads, a proper
  // payload prefix, or a conflict at the first difference over a shared predecessor.
  // The only error left is a missing common predecessor, which arises exactly when
  // the envelopes just before the difference differ in signature alone; the
  // "not a content conflict" error never occurs.
  lemma ClassificationExact(env: ForkEnv, pin: TrustPin, left: seq<Receipt>, right: seq<Receipt>)
    requires Sound(env.custody) && BothAccepted(env, pin, left, right)
    ensures var r := Assess(env, pin, left, right);
            && (r.Ok? && r.value.classification.SameSignedClaims? <==> SamePayloads(left, right))
            && (r.Ok? && r.value.classification.VerifiedPrefixExtension? <==>
                ProperPayloadPrefix(left, right) || ProperPayloadPrefix(right, left))
            && (r.Ok? && r.value.classification.ConflictingSignedCustodianClaims? <==> SharedPredecessorConflict(left, right))
            && (r.Err? <==> SignatureSplit(left, right)) && (r.Err? ==> r.error == NoCommonPredecessor)
  {
    hide Apply;
    var n := Shared(left, right);
    if n < |left| && n < |right| {
      assert FirstDifference(left, right, n);
      AtFirstDifference(env, pin, left, right, n);
    }
    forall m | FirstDifference(left, right, m) ensures m == n {
      SharedUnique(left, right, m);
    }
  }

  // ----- The disclosure subject

  datatype Subject = Subject(
    custodianId: string, pinHash: Digest, sequence: nat, commonPrior: nat, previous: Option<Digest>,
    first: Digest, second: Digest, pair: Digest)

  function SubjectForFork(env: ForkEnv, pin: TrustPin, left: seq<Receipt>, right: seq<Receipt>): Result<Subject, ForkError> {
    match Assess(env, pin, left, right)
    case Err(e) => Err(e)
    case Ok(a) => SubjectOf(env, pin, a)
  }

  function SubjectOf(env: ForkEnv, pin: TrustPin, a: Assessment): Result<Subject, ForkError> {
    if a.conflict.None? then Err(NoContradiction)
    else
      var c := a.conflict.value;
      var low := if c.leftEnvelope <= c.rightEnvelope then c.leftEnvelope else c.rightEnvelope;
      var high := if c.leftEnvelope <= c.rightEnvelope then c.rightEnvelope else c.leftEnvelope;
      var ok := env.custody.publication.validHash;
      if !ok(low) || !ok(high) || low == high then Err(IdenticalEnvelopes)
      else if c.previous.Some? && !ok(c.previous.value) then Err(InvalidPredecessor)
      else
        var h := env.pinHash(pin);
        Ok(Subject(pin.custodian.id, h, c.sequence, a.commonPrior, c.previous, low, high,
                   env.pairHash(PairInput(h, c.sequence, c.previous, low, high))))
  }

  // Assessing the branches the other way round exchanges the two sides and nothing else.
  lemma AssessSymmetric(env: ForkEnv, pin: TrustPin, left: seq<Receipt>, right: seq<Receipt>)
    requires BothAccepted(env, pin, left, right)
    ensures var a, b := Assess(env, pin, left, right), Assess(env, pin, right, left);
            && (a.Err? ==> b == a)
            && (a.Ok? ==> b == Ok(a.value.(conflict := Mirror(a.value.conflict))))
  {
    hide Apply, VerifyChain;
    SharedUnique(right, left, Shared(left, right));
  }

  function Mirror(c: Option<Conflict>): Option<Conflict> {
    match c
    case None => None
    case Some(x) => Some(Conflict(x.sequence, x.previous, x.rightEnvelope, x.leftEnvelope, x.rightPayload, x.leftPayload))
  }

  // Reversing the two branches is not new evidence: the subject is the same.
  lemma SubjectIgnoresOrder(env: ForkEnv, pin: TrustPin, left: seq<Receipt>, right: seq<Receipt>)
    requires BothAccepted(env, pin, left, right)
    ensures SubjectForFork(env, pin, left, right) == SubjectForFork(env, pin, right, left)
  {
    hide Apply, VerifyChain, Assess;
    AssessSymmetric(env, pin, left, right);
  }

  // A subject exists exactly for a proven conflict over a shared predecessor.
  lemma SubjectExact(env: ForkEnv, pin: TrustPin, left: seq<Receipt>, right: seq<Receipt>)
    requires Sound(env.custody) && BothAccepted(env, pin, left, right)
    ensures SubjectForFork(env, pin, left, right).Ok? <==> SharedPredecessorConflict(left, right)
  {
    hide Apply, VerifyChain;
    ClassificationExact(env, pin, left, right);
    var n := Shared(left, right);
    if Assess(env, pin, left, right).Ok? && n < |left| && n < |right| {
      assert FirstDifference(left, right, n);
      PredecessorShape(env, pin, left, n);
      assert left[n] != right[n];
    }
  }

  lemma PredecessorShape(env: ForkEnv, pin: TrustPin, signed: seq<Receipt>, n: nat)
    requires Sound(env.custody) && VerifyChain(env.custody, pin, signed).Ok? && n < |signed|
    ensures signed[n].payload.previous.Some? ==> env.custody.publication.validHash(signed[n].payload.previous.value)
  {
    hide Apply;
    RunFacts(env.custody, pin, signed);
    assert Placed(env.custody, pin, signed, n);
  }

  // ----- The disclosure quorum

  datatype Observer = Observer(id: string, key: string, revoked: bool)

  const DISCLOSURE_FORMAT := "GALIA_NONCANONICAL_CUSTODY_CONTRADICTION_DISCLOSURE_V1"
  const MAX_OBSERVERS := 32

  datatype Policy = Policy(
    format: string, rosterEpoch: nat, custodianId: string, custodianTrust: Digest, auditTrust: Digest,
    witnessPolicy: Digest, required: nat, observers: seq<Observer>)

  datatype EndorsementPayload = EndorsementPayload(
    format: string, observerId: string, rosterEpoch: nat, policyHash: Digest, subject: Subject)

  datatype Endorsement = Endorsement(payload: EndorsementPayload, signature: string)

  function LexLess(a: string, b: string): bool {
    if b == "" then false
    else if a == "" then true
    else if a[0] != b[0] then a[0] < b[0]
    else LexLess(a[1..], b[1..])
  }

  predicate GoodObserver(env: ForkEnv, pin: TrustPin, o: Observer) {
    var audit := env.custody.publication.pin.auditor;
    && ValidId(o.id) && o.key != pin.custodian.key && o.key != audit.key && o.key != audit.scope.responseSigner
    && o.key !in env.custody.witnessKeys && env.custody.validKey(o.key)
  }

  // The roster: in ascending order, no identifier or key twice, no role reused.
  predicate GoodRoster(env: ForkEnv, pin: TrustPin, observers: seq<Observer>) {
    && (forall i :: 0 <= i < |observers| ==> GoodObserver(env, pin, observers[i]))
    && (forall i :: 0 <= i < |observers| - 1 ==> LexLess(observers[i].id, observers[i + 1].id))
    && (forall i, k :: 0 <= i < k < |observers| ==>
          observers[i].id != observers[k].id && observers[i].key != observers[k].key)
  }

  function Active(observers: seq<Observer>): nat {
    if observers == [] then 0
    else Active(observers[..|observers| - 1]) + if observers[|observers| - 1].revoked then 0 else 1
  }

  predicate ValidPolicy(env: ForkEnv, pin: TrustPin, policy: Policy) {
    && ValidPin(env.custody, pin)
    && policy.format == DISCLOSURE_FORMAT && policy.rosterEpoch != 0
    && policy.custodianId == pin.custodian.id && policy.custodianTrust == env.pinHash(pin)
    && policy.auditTrust == env.custody.auditPinHash && policy.witnessPolicy == env.custody.publication.policyHash
    && 0 < |policy.observers| <= MAX_OBSERVERS && policy.required >= 2
    && GoodRoster(env, pin, policy.observers)
    && policy.required <= Active(policy.observers)
  }

  function Expected(env: ForkEnv, policy: Policy, observerId: string, subject: Subject): EndorsementPayload {
    EndorsementPayload(DISCLOSURE_FORMAT, observerId, policy.rosterEpoch, env.policyHash(policy), subject)
  }

  // An endorsement by an active observer of the roster of exactly this subject.
  ghost predicate Endorses(env: ForkEnv, policy: Policy, subject: Subject, e: Endorsement) {
    exists k :: 0 <= k < |policy.observers| && EndorsesAs(env, policy, subject, e, k)
  }

  predicate EndorsesAs(env: ForkEnv, policy: Policy, subject: Subject, e: Endorsement, k: nat) {
    && k < |policy.observers| && !policy.observers[k].revoked
    && e.payload == Expected(env, policy, policy.observers[k].id, subject)
    && env.verifyEndorsement(policy.observers[k].key, e.signature, e.payload)
  }

  // The disclosure is accepted: a valid policy, a proven conflict, and endorsements
  // within the counts, each by a different active observer, all of this subject.
  ghost predicate Quorum(env: ForkEnv, pin: TrustPin, policy: Policy, subject: Subject, es: seq<Endorsement>) {
    && ValidPolicy(env, pin, policy)
    && policy.required <= |es| <= |policy.observers|
    && AllEndorse(env, policy, subject, es)
  }

  ghost predicate AllEndorse(env: ForkEnv, policy: Policy, subject: Subject, es: seq<Endorsement>) {
    && (forall i :: 0 <= i < |es| ==> Endorses(env, policy, subject, es[i]))
    && (forall i, k :: 0 <= i < k < |es| ==> es[i].payload.observerId != es[k].payload.observerId)
  }

  method FindObserver(observers: seq<Observer>, id: string) returns (k: int)
    ensures -1 <= k < |observers|
    ensures k >= 0 ==> observers[k].id == id
    ensures k < 0 ==> forall i :: 0 <= i < |observers| ==> observers[i].id != id
  {
    for i := 0 to |observers|
      invariant forall m :: 0 <= m < i ==> observers[m].id != id
    {
      if observers[i].id == id { return i; }
    }
    k := -1;
  }

  predicate FitsAfter(env: ForkEnv, pin: TrustPin, roster: seq<Observer>, o: Observer) {
    && GoodObserver(env, pin, o)
    && (roster != [] ==> LexLess(roster[|roster| - 1].id, o.id))
    && forall k :: 0 <= k < |roster| ==> roster[k].id != o.id && roster[k].key != o.key
  }

  lemma RosterSnoc(env: ForkEnv, pin: TrustPin, roster: seq<Observer>, o: Observer)
    ensures GoodRoster(env, pin, roster + [o]) <==> GoodRoster(env, pin, roster) && FitsAfter(env, pin, roster, o)
  {
    hide GoodObserver;
    var all := roster + [o];
    assert all[|roster|] == o && forall k :: 0 <= k < |roster| ==> all[k] == roster[k];
    assert roster != [] ==> all[|roster| - 1 + 1] == o;
  }

  lemma RosterPrefix(env: ForkEnv, pin: TrustPin, roster: seq<Observer>, n: nat)
    requires n <= |roster| && GoodRoster(env, pin, roster)
    ensures GoodRoster(env, pin, roster[..n])
  {
    hide GoodObserver;
  }

  method RosterIsGood(env: ForkEnv, pin: TrustPin, observers: seq<Observer>) returns (good: bool, active: nat)
    ensures good == GoodRoster(env, pin, observers)
    ensures good ==> active == Active(observers)
  {
    hide GoodObserver, GoodRoster;
    var ids: set<string>, keys: set<string> := {}, {};
    active := 0;
    assert GoodRoster(env, pin, observers[..0]) by { EmptyRoster(env, pin); }
    for i := 0 to |observers|
      invariant GoodRoster(env, pin, observers[..i]) && active == Active(observers[..i])
      invariant ids == set k | 0 <= k < i :: observers[k].id
      invariant keys == set k | 0 <= k < i :: observers[k].key
    {
      var o := observers[i];
      assert observers[..i + 1] == observers[..i] + [o];
      RosterSnoc(env, pin, observers[..i], o);
      if !GoodObserver(env, pin, o) || (i > 0 && !LexLess(observers[i - 1].id, o.id)) || o.id in ids || o.key in keys {
        assert !FitsAfter(env, pin, observers[..i], o);
        if GoodRoster(env, pin, observers) {
          RosterPrefix(env, pin, observers, i + 1);
        }
        return false, active;
      }
      if !o.revoked { active := active + 1; }
      ids, keys := ids + {o.id}, keys + {o.key};
    }
    assert observers[..|observers|] == observers;
    good := true;
  }

  lemma EmptyRoster(env: ForkEnv, pin: TrustPin)
    ensures GoodRoster(env, pin, [])
  {
  }

  method CheckPolicy(env: ForkEnv, pin: TrustPin, policy: Policy) returns (ok: bool)
    ensures ok == ValidPolicy(env, pin, policy)
  {
    hide GoodObserver;
    if || !ValidPin(env.custody, pin) || policy.format != DISCLOSURE_FORMAT || policy.rosterEpoch == 0
       || policy.custodianId != pin.custodian.id || policy.custodianTrust != env.pinHash(pin)
       || policy.auditTrust != env.custody.auditPinHash || policy.witnessPolicy != env.custody.publication.policyHash
       || policy.observers == [] || |policy.observers| > MAX_OBSERVERS || policy.required < 2 {
      return false;
    }
    var good, active := RosterIsGood(env, pin, policy.observers);
    ok := good && policy.required <= active;
  }

  // The observers a list of endorsements names.
  ghost function NamedIds(es: seq<Endorsement>): set<string> {
    set k | 0 <= k < |es| :: es[k].payload.observerId
  }

  // One more endorsement counts when it is valid and its observer is new.
  lemma AllSnoc(env: ForkEnv, policy: Policy, subject: Subject, es: seq<Endorsement>, e: Endorsement)
    ensures NamedIds(es + [e]) == NamedIds(es) + {e.payload.observerId}
    ensures AllEndorse(env, policy, subject, es + [e]) <==>
            && AllEndorse(env, policy, subject, es) && Endorses(env, policy, subject, e)
            && e.payload.observerId !in NamedIds(es)
  {
    hide Endorses;
    var n := |es|;
    assert (es + [e])[n] == e && forall i :: 0 <= i < n ==> (es + [e])[i] == es[i];
    if AllEndorse(env, policy, subject, es + [e]) {
      forall k | 0 <= k < n ensures Endorses(env, policy, subject, es[k]) && es[k].payload.observerId != e.payload.observerId {
        assert Endorses(env, policy, subject, (es + [e])[k]) && (es + [e])[k].payload.observerId != (es + [e])[n].payload.observerId;
      }
      forall i, k | 0 <= i < k < |es| ensures es[i].payload.observerId != es[k].payload.observerId {
        assert (es + [e])[i].payload.observerId != (es + [e])[k].payload.observerId;
      }
    }
  }

  lemma AllNone(env: ForkEnv, policy: Policy, subject: Subject)
    ensures NamedIds([]) == {} && AllEndorse(env, policy, subject, [])
  {
  }

  lemma AllPrefix(env: ForkEnv, policy: Policy, subject: Subject, es: seq<Endorsement>, n: nat)
    requires n <= |es|
    ensures AllEndorse(env, policy, subject, es) ==> AllEndorse(env, policy, subject, es[..n])
  {
    hide Endorses;
  }

  // What the next endorsement adds to the ones before it.
  lemma AllNext(env: ForkEnv, policy: Policy, subject: Subject, es: seq<Endorsement>, i: nat)
    requires i < |es|
    ensures NamedIds(es[..i + 1]) == NamedIds(es[..i]) + {es[i].payload.observerId}
    ensures AllEndorse(env, policy, subject, es[..i + 1]) <==>
            && AllEndorse(env, policy, subject, es[..i]) && Endorses(env, policy, subject, es[i])
            && es[i].payload.observerId !in NamedIds(es[..i])
    ensures AllEndorse(env, policy, subject, es) ==> AllEndorse(env, policy, subject, es[..i + 1])
  {
    hide Endorses, AllEndorse, NamedIds;
    assert es[..i + 1] == es[..i] + [es[i]];
    AllSnoc(env, policy, subject, es[..i], es[i]);
    AllPrefix(env, policy, subject, es, i + 1);
  }

  method CheckEndorsements(env: ForkEnv, pin: TrustPin, policy: Policy, subject: Subject, es: seq<Endorsement>)
    returns (r: Result<nat, ForkError>)
    requires GoodRoster(env, pin, policy.observers)
    ensures r.Ok? <==> AllEndorse(env, policy, subject, es)
    ensures r.Ok? ==> r.value == |es|
  {
    hide GoodRoster, Endorses, AllEndorse, NamedIds;
    var ids: set<string> := {};
    AllNone(env, policy, subject);
    for i := 0 to |es|
      invariant ids == NamedIds(es[..i]) && |ids| == i && AllEndorse(env, policy, subject, es[..i])
    {
      AllNext(env, policy, subject, es, i);
      var endorsed := CheckEndorsement(env, pin, policy, subject, es[i]);
      if endorsed.Err? { return Err(endorsed.error); }
      if es[i].payload.observerId in ids { return Err(RevokedOrDuplicate); }
      ids := ids + {es[i].payload.observerId};
    }
    assert es[..|es|] == es;
    r := Ok(|ids|);
  }

  method CheckEndorsement(env: ForkEnv, pin: TrustPin, policy: Policy, subject: Subject, e: Endorsement)
    returns (r: Result<(), ForkError>)
    requires GoodRoster(env, pin, policy.observers)
    ensures r.Ok? <==> Endorses(env, policy, subject, e)
  {
    var k := FindObserver(policy.observers, e.payload.observerId);
    if k < 0 { return Err(UnknownObserver); }
    OnlyAs(env, pin, policy, subject, e, k);
    if policy.observers[k].revoked { return Err(RevokedOrDuplicate); }
    if e.payload != Expected(env, policy, policy.observers[k].id, subject) { return Err(WrongEndorsement); }
    if !env.verifyEndorsement(policy.observers[k].key, e.signature, e.payload) { return Err(BadEndorsement); }
    r := Ok(());
  }

  // The assessment accepts exactly a quorum over the subject of a proven conflict.
  method AssessDisclosures(env: ForkEnv, pin: TrustPin, policy: Policy, left: seq<Receipt>, right: seq<Receipt>, es: seq<Endorsement>)
    returns (r: Result<(Subject, nat), ForkError>)
    ensures r.Ok? <==> SubjectForFork(env, pin, left, right).Ok?
                       && Quorum(env, pin, policy, SubjectForFork(env, pin, left, right).value, es)
    ensures r.Ok? ==> r.value == (SubjectForFork(env, pin, left, right).value, |es|)
  {
    hide VerifyChain, Assess, Classify, AllEndorse;
    var valid := CheckPolicy(env, pin, policy);
    if !valid { return Err(InvalidPolicy); }
    var assessed := AssessCustodianFork(env, pin, left, right);
    var found := if assessed.Err? then Err(assessed.error) else SubjectOf(env, pin, assessed.value);
    if found.Err? { return Err(found.error); }
    if |es| < policy.required || |es| > |policy.observers| { return Err(EndorsementCount); }
    var counted := CheckEndorsements(env, pin, policy, found.value, es);
    if counted.Err? { return Err(counted.error); }
    if counted.value < policy.required { return Err(EndorsementCount); }
    r := Ok((found.value, counted.value));
  }

  // An endorsement can only count for the roster entry that its own text names.
  lemma OnlyAs(env: ForkEnv, pin: TrustPin, policy: Policy, subject: Subject, e: Endorsement, k: nat)
    requires GoodRoster(env, pin, policy.observers) && k < |policy.observers| && policy.observers[k].id == e.payload.observerId
    ensures Endorses(env, policy, subject, e) <==> EndorsesAs(env, policy, subject, e, k)
  {
  }

  // The roster keys that validly signed exactly this subject.
  ghost function SigningKeys(env: ForkEnv, policy: Policy, subject: Subject, es: seq<Endorsement>): set<string> {
    set i, k | 0 <= i < |es| && 0 <= k < |policy.observers| && EndorsesAs(env, policy, subject, es[i], k)
      :: policy.observers[k].key
  }

  lemma KeysExtend(env: ForkEnv, policy: Policy, subject: Subject, es: seq<Endorsement>, e: Endorsement, k: nat)
    requires k < |policy.observers| && EndorsesAs(env, policy, subject, e, k)
    ensures SigningKeys(env, policy, subject, es) + {policy.observers[k].key} <= SigningKeys(env, policy, subject, es + [e])
  {
    hide EndorsesAs;
    var all := es + [e];
    assert all[|es|] == e;
    forall x | x in SigningKeys(env, policy, subject, es) ensures x in SigningKeys(env, policy, subject, all) {
      var i, m :| 0 <= i < |es| && 0 <= m < |policy.observers| && EndorsesAs(env, policy, subject, es[i], m) && x == policy.observers[m].key;
      assert all[i] == es[i];
    }
  }

  lemma KeyIsNew(env: ForkEnv, pin: TrustPin, policy: Policy, subject: Subject, es: seq<Endorsement>, e: Endorsement, k: nat)
    requires GoodRoster(env, pin, policy.observers) && k < |policy.observers| && EndorsesAs(env, policy, subject, e, k)
    requires forall i :: 0 <= i < |es| ==> es[i].payload.observerId != e.payload.observerId
    ensures policy.observers[k].key !in SigningKeys(env, policy, subject, es)
  {
    hide GoodObserver;
    forall i, m | 0 <= i < |es| && 0 <= m < |policy.observers| && EndorsesAs(env, policy, subject, es[i], m)
      ensures policy.observers[m].key != policy.observers[k].key
    {
      assert policy.observers[m].id == es[i].payload.observerId && policy.observers[k].id == e.payload.observerId;
    }
  }

  lemma {:induction false} KeysGrow(env: ForkEnv, pin: TrustPin, policy: Policy, subject: Subject, es: seq<Endorsement>)
    requires GoodRoster(env, pin, policy.observers) && AllEndorse(env, policy, subject, es)
    ensures |SigningKeys(env, policy, subject, es)| >= |es|
    decreases |es|
  {
    hide GoodRoster, EndorsesAs, SigningKeys;
    if es != [] {
      var n := |es| - 1;
      KeysGrow(env, pin, policy, subject, es[..n]);
      assert es == es[..n] + [es[n]];
      assert Endorses(env, policy, subject, es[n]);
      var k :| 0 <= k < |policy.observers| && EndorsesAs(env, policy, subject, es[n], k);
      KeysExtend(env, policy, subject, es[..n], es[n], k);
      KeyIsNew(env, pin, policy, subject, es[..n], es[n], k);
      SubsetSize(SigningKeys(env, policy, subject, es[..n]) + {policy.observers[k].key}, SigningKeys(env, policy, subject, es));
    }
  }

  // An accepted disclosure carries valid signatures of exactly the proven conflict
  // by at least two, and at least the required number of, different roster keys.
  lemma QuorumOfKeys(env: ForkEnv, pin: TrustPin, policy: Policy, subject: Subject, es: seq<Endorsement>)
    requires Quorum(env, pin, policy, subject, es)
    ensures |SigningKeys(env, policy, subject, es)| >= policy.required >= 2
  {
    KeysGrow(env, pin, policy, subject, es);
  }
}
