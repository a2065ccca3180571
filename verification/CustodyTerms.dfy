// What custody promises, receipt by receipt: which chains verify, what they say about
// the local journal, what two custodians agree on, what a contradiction is, and what
// an accepted disclosure carries.
module CustodyTerms {
  import opened Base
  import opened Chains
  import opened Custody
  import P = ForkPublication
  import T = ForkTerms
  import C = CustodyFork

  // ----- Chains

  predicate ProperHeight(env: Env, c: P.Checkpoint) {
    c.count <= 4096 && if c.count == 0 then c.tip.None? else c.tip.Some? && env.publication.validHash(c.tip.value)
  }

  // A custodian for this stream and policy, with a key of its own, over a floor that is
  // either the very beginning or a receipt.
  predicate PinTerms(env: Env, pin: TrustPin) {
    var who, audit := pin.custodian, env.publication.pin.auditor;
    && env.witnessPolicyValid && ValidId(who.id) && env.validKey(who.key)
    && who.key !in env.witnessKeys + {audit.key, audit.scope.responseSigner}
    && who.streamId == audit.streamId && who.auditPin == env.auditPinHash && who.witnessPolicy == env.publication.policyHash
    && env.publication.validHash(who.auditPin) && env.publication.validHash(who.witnessPolicy)
    && ProperHeight(env, pin.floorPublication)
    && if pin.floorSequence == 0 then pin.floorReceipt.None? && pin.floorPublication.count == 0
       else pin.floorReceipt.Some? && env.publication.validHash(pin.floorReceipt.value)
  }

  // The custodian's next receipt, about the next entry of the publication.
  ghost predicate LawfulReceipt(env: Env, pin: TrustPin, signed: seq<Receipt>, i: nat)
    requires i < |signed|
  {
    var p, who := signed[i].payload, pin.custodian;
    && p.format == "GALIA_NONCANONICAL_FORK_CUSTODY_RECEIPT_V1"
    && p.custodianId == who.id && p.streamId == who.streamId && p.auditPin == who.auditPin && p.witnessPolicy == who.witnessPolicy
    && p.sequence == pin.floorSequence + i + 1 <= U64_MAX
    && p.previous == Tip(env.receiptHash, pin.floorReceipt, signed[..i])
    && p.publication.count == pin.floorPublication.count + i + 1 && ProperHeight(env, p.publication)
    && env.publication.validHash(p.bundleHash) && env.verify(who.key, signed[i].signature, p)
  }

  ghost predicate LawfulChain(env: Env, pin: TrustPin, signed: seq<Receipt>) {
    PinTerms(env, pin) && 0 < |signed| <= 128 && forall i :: 0 <= i < |signed| ==> LawfulReceipt(env, pin, signed, i)
  }

  lemma HeightIff(env: Env, c: P.Checkpoint)
    ensures P.ValidCheckpoint(env.publication, c) <==> ProperHeight(env, c)
  {
  }

  lemma PinIff(env: Env, pin: TrustPin)
    ensures ValidPin(env, pin) <==> PinTerms(env, pin)
  {
    hide ValidId, P.ValidCheckpoint, ProperHeight;
    HeightIff(env, pin.floorPublication);
  }

  lemma LawfulNext(env: Env, pin: TrustPin, p: seq<Receipt>, s: State, r: Receipt)
    requires s.sequence == pin.floorSequence + |p| && s.previous == Tip(env.receiptHash, pin.floorReceipt, p)
    requires s.publication.count == pin.floorPublication.count + |p|
    ensures Apply(env, pin.custodian, s, r).Ok? <==> LawfulReceipt(env, pin, p + [r], |p|)
  {
    assert (p + [r])[..|p|] == p;
    HeightIff(env, r.payload.publication);
  }

  lemma {:induction false} RunIffLawful(env: Env, pin: TrustPin, signed: seq<Receipt>)
    ensures Run(Step(env, pin.custodian), Start(pin), signed).Ok? <==>
            forall i :: 0 <= i < |signed| ==> LawfulReceipt(env, pin, signed, i)
    decreases |signed|
  {
    hide Apply, ProperHeight;
    if signed != [] {
      var n := |signed| - 1;
      var p := signed[..n];
      assert signed == p + [signed[n]];
      RunSnoc(Step(env, pin.custodian), Start(pin), p, signed[n]);
      RunIffLawful(env, pin, p);
      forall i | 0 <= i < n ensures LawfulReceipt(env, pin, signed, i) <==> LawfulReceipt(env, pin, p, i) {
        assert signed[..i] == p[..i];
      }
      var before := Run(Step(env, pin.custodian), Start(pin), p);
      if before.Ok? {
        RunFacts(env, pin, p);
        LawfulNext(env, pin, p, before.value, signed[n]);
      } else {
        var i: nat :| i < n && !LawfulReceipt(env, pin, p, i);
        assert !LawfulReceipt(env, pin, signed, i);
      }
    }
  }

  // A receipt chain verifies exactly when it is lawful over a proper pin; what is handed
  // on is the attested checkpoints in order and the digest of the last receipt.
  lemma VerifyIff(env: Env, pin: TrustPin, signed: seq<Receipt>)
    ensures VerifyChain(env, pin, signed).Ok? <==> LawfulChain(env, pin, signed)
    ensures VerifyChain(env, pin, signed).Ok? ==>
              var s := VerifyChain(env, pin, signed).value;
              && s.previous == Some(env.receiptHash(signed[|signed| - 1]))
              && s.publication == signed[|signed| - 1].payload.publication
              && |s.reports| == |signed| && forall i :: 0 <= i < |signed| ==> s.reports[i] == signed[i].payload.publication
  {
    hide Apply, PinTerms, ValidPin;
    PinIff(env, pin);
    RunIffLawful(env, pin, signed);
    if VerifyChain(env, pin, signed).Ok? { RunFacts(env, pin, signed); }
  }

  // ----- Against the local journal

  // The journal had this checkpoint at its height.
  ghost predicate InHistory(env: Env, j: P.Journal, c: P.Checkpoint) {
    c.count <= |j| && c.tip == Tip(env.publication.fileHash, None, j[..c.count])
  }

  ghost predicate AttestsEntry(env: Env, j: P.Journal, r: Receipt) {
    var c := r.payload.publication;
    && InHistory(env, j, c) && c.count > 0 && j[c.count - 1].Whole?
    && env.bundleHash(j[c.count - 1].entry.bundle) == r.payload.bundleHash
  }

  ghost predicate Upheld(env: Env, j: P.Journal, pin: TrustPin, signed: seq<Receipt>) {
    && LawfulChain(env, pin, signed) && T.LawfulJournal(env.publication, j) && InHistory(env, j, pin.floorPublication)
    && forall i :: 0 <= i < |signed| ==> AttestsEntry(env, j, signed[i])
  }

  // Receipts are upheld locally exactly when they are lawful, the journal is readable
  // and has been through the floor, and each receipt attests the entry at its height.
  lemma LocalIff(env: Env, j: P.Journal, pin: TrustPin, signed: seq<Receipt>)
    requires Sound(env)
    ensures VerifyAgainstLocal(env, j, pin, signed).Ok? <==> Upheld(env, j, pin, signed)
    ensures VerifyAgainstLocal(env, j, pin, signed).Ok? ==>
              VerifyAgainstLocal(env, j, pin, signed) == VerifyChain(env, pin, signed)
  {
    hide VerifyChain, P.VerifyFloor, T.LawfulJournal, LawfulChain;
    VerifyIff(env, pin, signed);
    T.FloorIff(env.publication, j, pin.floorPublication);
    if P.VerifyFloor(env.publication, j, pin.floorPublication).Ok? {
      forall i | 0 <= i < |signed| ensures Backed(env, j, signed[i]) <==> AttestsEntry(env, j, signed[i]) {
        T.FloorIff(env.publication, j, signed[i].payload.publication);
      }
    }
  }

  // Two custodians agree exactly when they differ in name and key, both are upheld, and
  // their last receipts attest the same checkpoint, which is the answer.
  lemma TwoIff(env: Env, j: P.Journal, a: TrustPin, left: seq<Receipt>, b: TrustPin, right: seq<Receipt>)
    requires Sound(env)
    ensures var r := AssessTwo(env, j, a, left, b, right);
            && (r.Ok? <==>
                && a.custodian.id != b.custodian.id && a.custodian.key != b.custodian.key
                && Upheld(env, j, a, left) && Upheld(env, j, b, right)
                && left[|left| - 1].payload.publication == right[|right| - 1].payload.publication)
            && (r.Ok? ==> r.value == left[|left| - 1].payload.publication)
  {
    hide VerifyChain, VerifyAgainstLocal, LawfulReceipt, AttestsEntry, T.LawfulJournal, InHistory, Sound, PinTerms;
    LocalIff(env, j, a, left);
    LocalIff(env, j, b, right);
    VerifyIff(env, a, left);
    VerifyIff(env, b, right);
  }

  // ----- Contradictions

  // The two receipts at position n, and the receipt before them that both follow.
  ghost predicate ConflictTerms(env: C.ForkEnv, pin: TrustPin, left: seq<Receipt>, right: seq<Receipt>, n: nat, c: C.Conflict)
    requires n < |left| && n < |right|
  {
    && c.sequence == pin.floorSequence + n + 1
    && c.previous == Tip(env.custody.receiptHash, pin.floorReceipt, left[..n])
    && c.leftEnvelope == env.custody.receiptHash(left[n]) && c.rightEnvelope == env.custody.receiptHash(right[n])
    && c.leftPayload == env.payloadHash(left[n].payload) && c.rightPayload == env.payloadHash(right[n].payload)
  }

  // Lawful branches that part at n over one receipt are contradictory, and the answer
  // shows the two receipts there, with the one before them as their common prior.
  lemma ConflictNames(env: C.ForkEnv, pin: TrustPin, left: seq<Receipt>, right: seq<Receipt>, n: nat)
    requires Sound(env.custody) && LawfulChain(env.custody, pin, left) && LawfulChain(env.custody, pin, right)
    requires C.FirstDifference(left, right, n) && (n == 0 || left[n - 1] == right[n - 1])
    ensures var r := C.Assess(env, pin, left, right);
            && r.Ok? && r.value.classification == C.ConflictingSignedCustodianClaims
            && r.value.commonPrior == pin.floorSequence + n
            && r.value.conflict.Some? && ConflictTerms(env, pin, left, right, n, r.value.conflict.value)
  {
    hide VerifyChain, LawfulReceipt, PinTerms;
    VerifyIff(env.custody, pin, left);
    VerifyIff(env.custody, pin, right);
    ReceiptAt(env.custody, pin, left, n);
    C.SharedUnique(left, right, n);
    C.AtFirstDifference(env, pin, left, right, n);
  }

  lemma ReceiptAt(env: Env, pin: TrustPin, signed: seq<Receipt>, n: nat)
    requires LawfulChain(env, pin, signed) && n < |signed|
    ensures signed[n].payload.sequence == pin.floorSequence + n + 1
    ensures signed[n].payload.previous == Tip(env.receiptHash, pin.floorReceipt, signed[..n])
  {
    hide PinTerms;
    assert LawfulReceipt(env, pin, signed, n);
  }

  // Lawful branches that never part prove nothing: they share the shorter one whole.
  lemma NoConflictNames(env: C.ForkEnv, pin: TrustPin, left: seq<Receipt>, right: seq<Receipt>)
    requires LawfulChain(env.custody, pin, left) && LawfulChain(env.custody, pin, right)
    requires C.PayloadsAgree(left, right, if |left| < |right| then |left| else |right|)
    ensures C.Assess(env, pin, left, right) ==
            Ok(C.Assessment(if |left| == |right| then C.SameSignedClaims else C.VerifiedPrefixExtension,
                            pin.floorSequence + if |left| < |right| then |left| else |right|, None))
  {
    hide VerifyChain, LawfulReceipt, PinTerms;
    VerifyIff(env.custody, pin, left);
    VerifyIff(env.custody, pin, right);
    ReceiptAt(env.custody, pin, left, |left| - 1);
    ReceiptAt(env.custody, pin, right, |right| - 1);
    C.SharedUnique(left, right, if |left| < |right| then |left| else |right|);
  }

  // Branches that do not both verify are not assessed.
  lemma OnlyLawfulAssessed(env: C.ForkEnv, pin: TrustPin, left: seq<Receipt>, right: seq<Receipt>)
    ensures C.Assess(env, pin, left, right).Ok? ==> LawfulChain(env.custody, pin, left) && LawfulChain(env.custody, pin, right)
  {
    hide VerifyChain, LawfulChain;
    VerifyIff(env.custody, pin, left);
    VerifyIff(env.custody, pin, right);
  }

  // ----- Disclosure

  // What is disclosed: the custodian, where it contradicts itself and over which
  // receipt, and the digests of the two receipts in ascending order.
  ghost predicate SubjectTerms(env: C.ForkEnv, pin: TrustPin, left: seq<Receipt>, right: seq<Receipt>, n: nat, s: C.Subject)
    requires n < |left| && n < |right|
  {
    && s.custodianId == pin.custodian.id && s.pinHash == env.pinHash(pin)
    && s.sequence == pin.floorSequence + n + 1 && s.commonPrior == pin.floorSequence + n
    && s.previous == Tip(env.custody.receiptHash, pin.floorReceipt, left[..n])
    && s.first < s.second
    && {s.first, s.second} == {env.custody.receiptHash(left[n]), env.custody.receiptHash(right[n])}
    && s.pair == env.pairHash(C.PairInput(env.pinHash(pin), pin.floorSequence + n + 1, s.previous, s.first, s.second))
  }

  ghost predicate ContradictionAt(env: C.ForkEnv, pin: TrustPin, left: seq<Receipt>, right: seq<Receipt>, n: nat) {
    && LawfulChain(env.custody, pin, left) && LawfulChain(env.custody, pin, right)
    && C.FirstDifference(left, right, n) && (n == 0 || left[n - 1] == right[n - 1])
  }

  // A subject is disclosed exactly for a contradiction, and names it.
  lemma SubjectNames(env: C.ForkEnv, pin: TrustPin, left: seq<Receipt>, right: seq<Receipt>, s: C.Subject)
    requires Sound(env.custody)
    ensures C.SubjectForFork(env, pin, left, right) == Ok(s) <==>
            exists n :: ContradictionAt(env, pin, left, right, n) && SubjectTerms(env, pin, left, right, n, s)
  {
    hide C.Assess, LawfulChain, SubjectTerms;
    if C.SubjectForFork(env, pin, left, right).Ok? { Contradicted(env, pin, left, right); }
    if n: nat :| ContradictionAt(env, pin, left, right, n) {
      SubjectAt(env, pin, left, right, n);
      var named := C.SubjectForFork(env, pin, left, right).value;
      if SubjectTerms(env, pin, left, right, n, s) {
        OneSubject(env, pin, left, right, n, s, named);
      }
    }
  }

  lemma Contradicted(env: C.ForkEnv, pin: TrustPin, left: seq<Receipt>, right: seq<Receipt>)
    requires Sound(env.custody) && C.SubjectForFork(env, pin, left, right).Ok?
    ensures exists n :: ContradictionAt(env, pin, left, right, n)
  {
    hide C.Assess, LawfulChain, VerifyChain;
    OnlyLawfulAssessed(env, pin, left, right);
    VerifyIff(env.custody, pin, left);
    VerifyIff(env.custody, pin, right);
    C.SubjectExact(env, pin, left, right);
    var n: nat :| C.FirstDifference(left, right, n) && (n == 0 || left[n - 1] == right[n - 1]);
    assert ContradictionAt(env, pin, left, right, n);
  }

  lemma SubjectAt(env: C.ForkEnv, pin: TrustPin, left: seq<Receipt>, right: seq<Receipt>, n: nat)
    requires Sound(env.custody) && ContradictionAt(env, pin, left, right, n)
    ensures var r := C.SubjectForFork(env, pin, left, right);
            r.Ok? && SubjectTerms(env, pin, left, right, n, r.value)
  {
    hide C.Assess, LawfulChain, VerifyChain, ConflictTerms;
    ConflictNames(env, pin, left, right, n);
    VerifyIff(env.custody, pin, left);
    VerifyIff(env.custody, pin, right);
    C.SubjectExact(env, pin, left, right);
    ConflictFields(env, pin, left, right, n, C.Assess(env, pin, left, right).value.conflict.value);
  }

  lemma ConflictFields(env: C.ForkEnv, pin: TrustPin, left: seq<Receipt>, right: seq<Receipt>, n: nat, c: C.Conflict)
    requires n < |left| && n < |right| && ConflictTerms(env, pin, left, right, n, c)
    ensures c.sequence == pin.floorSequence + n + 1 && c.previous == Tip(env.custody.receiptHash, pin.floorReceipt, left[..n])
    ensures c.leftEnvelope == env.custody.receiptHash(left[n]) && c.rightEnvelope == env.custody.receiptHash(right[n])
  {
  }

  lemma OneSubject(env: C.ForkEnv, pin: TrustPin, left: seq<Receipt>, right: seq<Receipt>, n: nat, s: C.Subject, t: C.Subject)
    requires n < |left| && n < |right|
    requires SubjectTerms(env, pin, left, right, n, s) && SubjectTerms(env, pin, left, right, n, t)
    ensures s == t
  {
    var l, r := env.custody.receiptHash(left[n]), env.custody.receiptHash(right[n]);
    assert l in {s.first, s.second} && r in {s.first, s.second} && l in {t.first, t.second} && r in {t.first, t.second};
    assert s.first in {l, r} && s.second in {l, r} && t.first in {l, r} && t.second in {l, r};
  }

  // In dictionary order: after n equal letters the one ends, or has the smaller letter.
  predicate BelowAt(a: string, b: string, n: nat) {
    n <= |a| && n < |b| && a[..n] == b[..n] && (n == |a| || a[n] < b[n])
  }

  ghost predicate Below(a: string, b: string) {
    exists n :: BelowAt(a, b, n)
  }

  lemma {:induction false} BelowIff(a: string, b: string)
    ensures C.LexLess(a, b) <==> Below(a, b)
    decreases |a|
  {
    assert BelowAt(a, b, 0) <==> b != "" && (a == "" || a[0] < b[0]);
    assert forall n: nat :: 0 < n <= |a| && BelowAt(a, b, n) ==> a[0] == a[..n][0] == b[..n][0] == b[0];
    if a != "" && b != "" && a[0] == b[0] {
      BelowIff(a[1..], b[1..]);
      forall n: nat ensures BelowAt(a, b, n + 1) <==> BelowAt(a[1..], b[1..], n) {
        if n + 1 <= |a| && n + 1 < |b| {
          assert a[..n + 1] == [a[0]] + a[1..][..n] && b[..n + 1] == [b[0]] + b[1..][..n];
          assert a[1..][..n] == a[..n + 1][1..] && b[1..][..n] == b[..n + 1][1..];
        }
      }
      if m: nat :| BelowAt(a, b, m) {
        assert m > 0 && BelowAt(a[1..], b[1..], m - 1);
      }
    }
  }

  // An observer with a key of its own, that no other role of the custody uses.
  predicate ObserverTerms(env: C.ForkEnv, pin: TrustPin, o: C.Observer) {
    var audit := env.custody.publication.pin.auditor;
    && ValidId(o.id) && env.custody.validKey(o.key)
    && o.key !in env.custody.witnessKeys + {pin.custodian.key, audit.key, audit.scope.responseSigner}
  }

  ghost predicate RosterTerms(env: C.ForkEnv, pin: TrustPin, observers: seq<C.Observer>) {
    && 0 < |observers| <= 32
    && (forall i :: 0 <= i < |observers| ==> ObserverTerms(env, pin, observers[i]))
    && (forall i :: 0 < i < |observers| ==> Below(observers[i - 1].id, observers[i].id))
    && (forall i, k :: 0 <= i < k < |observers| ==> observers[i].id != observers[k].id && observers[i].key != observers[k].key)
  }

  // The positions of the observers that are not revoked.
  function ActiveSet(observers: seq<C.Observer>): set<nat> {
    set k: nat | k < |observers| && !observers[k].revoked
  }

  // A policy over exactly this custodian, audit and fork-witness policy, asking for at
  // least two of the observers it lists, and for no more than are active.
  ghost predicate PolicyTerms(env: C.ForkEnv, pin: TrustPin, policy: C.Policy) {
    && PinTerms(env.custody, pin)
    && policy.format == "GALIA_NONCANONICAL_CUSTODY_CONTRADICTION_DISCLOSURE_V1" && policy.rosterEpoch > 0
    && policy.custodianId == pin.custodian.id && policy.custodianTrust == env.pinHash(pin)
    && policy.auditTrust == pin.custodian.auditPin && policy.witnessPolicy == pin.custodian.witnessPolicy
    && RosterTerms(env, pin, policy.observers)
    && 2 <= policy.required <= |ActiveSet(policy.observers)|
  }

  // A signature over exactly this subject, policy and epoch by the active observer k.
  predicate EndorsedBy(env: C.ForkEnv, policy: C.Policy, subject: C.Subject, e: C.Endorsement, k: nat) {
    && k < |policy.observers| && !policy.observers[k].revoked && e.payload.observerId == policy.observers[k].id
    && e.payload.format == "GALIA_NONCANONICAL_CUSTODY_CONTRADICTION_DISCLOSURE_V1"
    && e.payload.rosterEpoch == policy.rosterEpoch && e.payload.policyHash == env.policyHash(policy)
    && e.payload.subject == subject
    && env.verifyEndorsement(policy.observers[k].key, e.signature, e.payload)
  }

  ghost predicate Backs(env: C.ForkEnv, policy: C.Policy, subject: C.Subject, e: C.Endorsement) {
    exists k :: EndorsedBy(env, policy, subject, e, k)
  }

  ghost predicate QuorumTerms(env: C.ForkEnv, pin: TrustPin, policy: C.Policy, subject: C.Subject, es: seq<C.Endorsement>) {
    && PolicyTerms(env, pin, policy) && policy.required <= |es| <= |policy.observers|
    && (forall i :: 0 <= i < |es| ==> Backs(env, policy, subject, es[i]))
    && (forall i, k :: 0 <= i < k < |es| ==> es[i].payload.observerId != es[k].payload.observerId)
  }

  lemma {:induction false} ActiveIs(observers: seq<C.Observer>)
    ensures C.Active(observers) == |ActiveSet(observers)|
    decreases |observers|
  {
    if observers != [] {
      var n := |observers| - 1;
      ActiveIs(observers[..n]);
      assert ActiveSet(observers) == ActiveSet(observers[..n]) + if observers[n].revoked then {} else {n};
    }
  }

  lemma RosterIff(env: C.ForkEnv, pin: TrustPin, observers: seq<C.Observer>)
    ensures C.GoodRoster(env, pin, observers) && 0 < |observers| <= C.MAX_OBSERVERS <==> RosterTerms(env, pin, observers)
  {
    hide C.LexLess, Below, ValidId;
    forall i: nat | i + 1 < |observers|
      ensures C.LexLess(observers[i].id, observers[i + 1].id) <==> Below(observers[i].id, observers[i + 1].id)
    {
      BelowIff(observers[i].id, observers[i + 1].id);
    }
    forall i | 0 <= i < |observers| ensures C.GoodObserver(env, pin, observers[i]) <==> ObserverTerms(env, pin, observers[i]) {
    }
    if RosterTerms(env, pin, observers) {
      forall i | 0 <= i < |observers| - 1 ensures C.LexLess(observers[i].id, observers[i + 1].id) {
        assert Below(observers[i + 1 - 1].id, observers[i + 1].id);
      }
    }
  }

  lemma PolicyIff(env: C.ForkEnv, pin: TrustPin, policy: C.Policy)
    ensures C.ValidPolicy(env, pin, policy) <==> PolicyTerms(env, pin, policy)
  {
    hide C.GoodRoster, RosterTerms, ValidPin, PinTerms;
    RosterIff(env, pin, policy.observers);
    PinIff(env.custody, pin);
    ActiveIs(policy.observers);
    PinnedPolicies(env.custody, pin);
  }

  lemma PinnedPolicies(env: Env, pin: TrustPin)
    ensures PinTerms(env, pin) ==>
              pin.custodian.auditPin == env.auditPinHash && pin.custodian.witnessPolicy == env.publication.policyHash
  {
    hide ValidId, ProperHeight;
  }

  lemma QuorumIff(env: C.ForkEnv, pin: TrustPin, policy: C.Policy, subject: C.Subject, es: seq<C.Endorsement>)
    ensures C.Quorum(env, pin, policy, subject, es) <==> QuorumTerms(env, pin, policy, subject, es)
  {
    hide C.ValidPolicy, PolicyTerms, C.Endorses, Backs;
    PolicyIff(env, pin, policy);
    forall i | 0 <= i < |es|
      ensures C.Endorses(env, policy, subject, es[i]) <==> Backs(env, policy, subject, es[i])
    {
      EndorsesIff(env, policy, subject, es[i]);
    }
  }

  lemma EndorsesIff(env: C.ForkEnv, policy: C.Policy, subject: C.Subject, e: C.Endorsement)
    ensures C.Endorses(env, policy, subject, e) <==> Backs(env, policy, subject, e)
  {
    hide C.EndorsesAs, EndorsedBy;
    forall k: nat
      ensures C.EndorsesAs(env, policy, subject, e, k) <==> EndorsedBy(env, policy, subject, e, k)
      ensures EndorsedBy(env, policy, subject, e, k) ==> k < |policy.observers|
    {
      EndorsedIff(env, policy, subject, e, k);
    }
  }

  lemma EndorsedIff(env: C.ForkEnv, policy: C.Policy, subject: C.Subject, e: C.Endorsement, k: nat)
    ensures C.EndorsesAs(env, policy, subject, e, k) <==> EndorsedBy(env, policy, subject, e, k)
    ensures EndorsedBy(env, policy, subject, e, k) ==> k < |policy.observers|
  {
  }

  // A disclosure is accepted exactly for a contradiction of lawful branches under a
  // proper policy, with enough endorsements of the subject that names it, each by a
  // different active observer.
  lemma DisclosureIff(env: C.ForkEnv, pin: TrustPin, policy: C.Policy, left: seq<Receipt>, right: seq<Receipt>,
                      es: seq<C.Endorsement>, s: C.Subject)
    requires Sound(env.custody)
    ensures C.SubjectForFork(env, pin, left, right) == Ok(s) && C.Quorum(env, pin, policy, s, es) <==>
            && QuorumTerms(env, pin, policy, s, es)
            && exists n :: ContradictionAt(env, pin, left, right, n) && SubjectTerms(env, pin, left, right, n, s)
  {
    hide C.Quorum, QuorumTerms, C.SubjectForFork, ContradictionAt, SubjectTerms;
    SubjectNames(env, pin, left, right, s);
    QuorumIff(env, pin, policy, s, es);
  }
}
