// The local spend log and the two-log spend of rust/galia-core/src/consumption.rs.
module Consumption {
  import opened Base
  import opened Chains
  import W = Witness

  const FORMAT := "GALIA_NONCANONICAL_SCRATCH_CONSUMPTION_V1"

  datatype Marker = Marker(namespace: string, caseId: string, rootKey: string)

  datatype SpendRecord = SpendRecord(
    format: string, index: nat, previous: Option<Digest>, namespace: string, caseId: string, registryEpoch: nat,
    reviewerKeyId: string, authorizationId: string, decisionId: string, nonce: Digest, manifest: Digest,
    targetCommit: string, signedReview: Digest, witnessReceipt: Option<Digest>)

  type Log = seq<File<SpendRecord>>

  datatype SignedDecision = SignedDecision(
    reviewerKeyId: string, authorizationId: string, decisionId: string, targetCommit: string,
    nonce: Digest, manifest: Digest, signature: string)

  datatype ReviewRequest = ReviewRequest(
    rootKey: string, namespace: string, caseId: string, minimumEpoch: nat,
    registryEpoch: nat, decision: SignedDecision)

  // The verifier of signed reviews is a predicate of the whole request.
  datatype Env = Env(
    marker: Marker,
    recordHash: SpendRecord -> Digest,
    receiptHash: W.WitnessReceipt -> Digest,
    decisionHash: SignedDecision -> Digest,
    verifyReview: ReviewRequest -> bool,
    validHash: Digest -> bool)

  ghost predicate Sound(env: Env) {
    && Injective(env.recordHash) && Injective(env.receiptHash)
    && (forall d :: env.validHash(env.decisionHash(d))) && (forall r :: env.validHash(env.receiptHash(r)))
    && (forall r :: env.validHash(env.recordHash(r)))
  }

  datatype Error =
    | CountOverflow | Corrupt | InvalidRecord | LinkOrEpoch | Duplicate | ForeignPolicy | BelowHighWater
    | ReviewRejected | EpochRollback | AlreadyConsumed | WitnessRefused | ReceiptMismatch | ReceiptUnbound
    | NothingToReconcile | WriteFailed | CheckpointMismatch

  predicate ValidRecord(env: Env, r: SpendRecord) {
    && r.format == FORMAT && r.index != 0
    && r.namespace == env.marker.namespace && r.caseId == env.marker.caseId && r.registryEpoch != 0
    && ValidId(r.reviewerKeyId) && ValidId(r.authorizationId) && ValidId(r.decisionId) && ValidId(r.targetCommit)
    && env.validHash(r.nonce) && env.validHash(r.manifest) && env.validHash(r.signedReview)
    && (r.witnessReceipt.Some? ==> env.validHash(r.witnessReceipt.value))
    && (r.previous.Some? ==> env.validHash(r.previous.value))
  }

  datatype History = History(
    rows: seq<SpendRecord>, tip: Option<Digest>, epoch: nat, ids: set<string>, nonces: set<Digest>)

  const BLANK := History([], None, 0, {}, {})

  function Apply(env: Env, h: History, f: File<SpendRecord>): Result<History, Error> {
    if f.Torn? then Err(Corrupt)
    else
      var r := f.entry;
      if !ValidRecord(env, r) then Err(InvalidRecord)
      else if r.index != |h.rows| + 1 || r.previous != h.tip || r.registryEpoch < h.epoch then Err(LinkOrEpoch)
      else if r.authorizationId in h.ids || r.nonce in h.nonces then Err(Duplicate)
      else Ok(History(h.rows + [r], Some(env.recordHash(r)), r.registryEpoch,
                      h.ids + {r.authorizationId}, h.nonces + {r.nonce}))
  }

  function Step(env: Env): (History, File<SpendRecord>) -> Result<History, Error> {
    (h: History, f: File<SpendRecord>) => Apply(env, h, f)
  }

  function Replay(env: Env, log: Log): Result<History, Error> {
    Run(Step(env), BLANK, log)
  }

  lemma ReplaySnoc(env: Env, log: Log, f: File<SpendRecord>)
    ensures Replay(env, log + [f]) ==
            match Replay(env, log) case Err(e) => Err(e) case Ok(h) => Apply(env, h, f)
  {
    RunSnoc(Step(env), BLANK, log, f);
  }

  // Everything a spend checks before it goes to the witness, and the record it
  // would append without a receipt.
  function Screen(env: Env, log: Log, q: ReviewRequest): Result<SpendRecord, Error> {
    match Replay(env, log)
    case Err(e) => Err(e)
    case Ok(h) =>
      var d := q.decision;
      if q.rootKey != env.marker.rootKey || q.namespace != env.marker.namespace || q.caseId != env.marker.caseId
      then Err(ForeignPolicy)
      else if q.minimumEpoch < h.epoch then Err(BelowHighWater)
      else if !env.verifyReview(q) then Err(ReviewRejected)
      else if q.registryEpoch < h.epoch then Err(EpochRollback)
      else if d.authorizationId in h.ids || d.nonce in h.nonces then Err(AlreadyConsumed)
      else if CheckedAdd1(|h.rows|).None? then Err(CountOverflow)
      else
        var r := SpendRecord(FORMAT, |h.rows| + 1, h.tip, env.marker.namespace, env.marker.caseId, q.registryEpoch,
                             d.reviewerKeyId, d.authorizationId, d.decisionId, d.nonce, d.manifest, d.targetCommit,
                             env.decisionHash(d), None);
        if !ValidRecord(env, r) then Err(InvalidRecord) else Ok(r)
  }

  // The request stamped for the witness.
  function Stamp(env: Env, r: SpendRecord, expectedTip: Option<Digest>): W.WitnessConsume {
    W.WitnessConsume(W.FORMAT, env.marker.namespace, env.marker.caseId, env.marker.rootKey, r.registryEpoch,
                     r.authorizationId, r.nonce, r.signedReview, expectedTip)
  }

  predicate Answers(receipt: W.WitnessReceipt, stamp: W.WitnessConsume) {
    && receipt.format == W.FORMAT && receipt.namespace == stamp.namespace && receipt.caseId == stamp.caseId
    && receipt.registryEpoch == stamp.registryEpoch && receipt.authorizationId == stamp.authorizationId
    && receipt.nonce == stamp.nonce && receipt.signedDecision == stamp.signedDecision
    && receipt.priorTip == stamp.expectedTip && !receipt.canonicalWriteback && !receipt.authorityTransfer
  }

  // A receipt bound to exactly this signed review.
  predicate Bound(env: Env, r: SpendRecord, receipt: W.WitnessReceipt) {
    && receipt.format == W.FORMAT
    && receipt.namespace == env.marker.namespace && receipt.caseId == env.marker.caseId
    && receipt.registryEpoch == r.registryEpoch && receipt.authorizationId == r.authorizationId
    && receipt.nonce == r.nonce && receipt.signedDecision == r.signedReview
    && receipt.spentCount != 0 && env.validHash(receipt.tip)
    && !receipt.canonicalWriteback && !receipt.authorityTransfer
  }

  function WithReceipt(env: Env, r: SpendRecord, receipt: W.WitnessReceipt): SpendRecord {
    r.(witnessReceipt := Some(env.receiptHash(receipt)))
  }

  // The witness half of a spend: the record to append, and the witness afterwards.
  function CommitWitness(env: Env, wenv: W.Env, log: Log, wj: W.Journal, q: ReviewRequest,
                         expectedTip: Option<Digest>, fault: Fault): (Result<SpendRecord, Error>, W.Journal)
  {
    match Screen(env, log, q)
    case Err(e) => (Err(e), wj)
    case Ok(r) =>
      var stamp := Stamp(env, r, expectedTip);
      var (answer, wj') := W.Consume(wenv, wj, stamp, fault);
      match answer
      case Err(_) => (Err(WitnessRefused), wj')
      case Ok(receipt) =>
        (if !Answers(receipt, stamp) then Err(ReceiptMismatch)
         else if !Bound(env, r, receipt) then Err(ReceiptUnbound)
         else Ok(WithReceipt(env, r, receipt)), wj')
  }

  // The same for a receipt that was looked up: the witness is not called.
  function Rebind(env: Env, log: Log, q: ReviewRequest, receipt: W.WitnessReceipt): Result<SpendRecord, Error> {
    match Screen(env, log, q)
    case Err(e) => Err(e)
    case Ok(r) => if !Bound(env, r, receipt) then Err(ReceiptUnbound) else Ok(WithReceipt(env, r, receipt))
  }

  function AppendRecord(log: Log, r: SpendRecord, fault: Fault): (Result<SpendRecord, Error>, Log) {
    (if fault == NoFault then Ok(r) else Err(WriteFailed), WriteNext(log, r, fault))
  }

  function SpendPlain(env: Env, log: Log, q: ReviewRequest, fault: Fault): (Result<SpendRecord, Error>, Log) {
    match Screen(env, log, q) case Err(e) => (Err(e), log) case Ok(r) => AppendRecord(log, r, fault)
  }

  function SpendWitnessed(env: Env, wenv: W.Env, log: Log, wj: W.Journal, q: ReviewRequest,
                          expectedTip: Option<Digest>, swap: Fault, write: Fault)
    : (Result<SpendRecord, Error>, Log, W.Journal)
  {
    var (committed, wj') := CommitWitness(env, wenv, log, wj, q, expectedTip, swap);
    match committed
    case Err(e) => (Err(e), log, wj')
    case Ok(r) => var (done, log') := AppendRecord(log, r, write); (done, log', wj')
  }

  // The receipt the witness holds for the authorization of a request.
  function FindReceipt(wenv: W.Env, wj: W.Journal, q: ReviewRequest): Result<W.WitnessReceipt, Error> {
    match W.Lookup(wenv, wj, q.decision.authorizationId)
    case Err(_) => Err(WitnessRefused)
    case Ok(None) => Err(NothingToReconcile)
    case Ok(Some(receipt)) => Ok(receipt)
  }

  function Reconcile(env: Env, wenv: W.Env, log: Log, wj: W.Journal, q: ReviewRequest, fault: Fault)
    : (Result<SpendRecord, Error>, Log)
  {
    match FindReceipt(wenv, wj, q)
    case Err(e) => (Err(e), log)
    case Ok(receipt) =>
      match Rebind(env, log, q, receipt)
      case Err(e) => (Err(e), log)
      case Ok(r) => AppendRecord(log, r, fault)
  }

  datatype ConsumptionCheckpoint = ConsumptionCheckpoint(count: nat, tip: Option<Digest>, maximumEpoch: nat)

  function CheckpointOf(h: History): ConsumptionCheckpoint {
    ConsumptionCheckpoint(|h.rows|, h.tip, h.epoch)
  }

  function VerifyCheckpoint(env: Env, log: Log, previous: ConsumptionCheckpoint): Result<(), Error> {
    match Replay(env, log)
    case Err(e) => Err(e)
    case Ok(h) => if CheckpointOf(h) != previous then Err(CheckpointMismatch) else Ok(())
  }

  // ----- The store

  class ScratchConsumptionStore {
    const env: Env
    var log: Log

    constructor (env: Env)
      ensures this.env == env && log == []
    {
      this.env := env;
      log := [];
    }

    method ReadHistory() returns (r: Result<History, Error>)
      ensures r == Replay(env, log)
    {
      var rows: seq<SpendRecord> := [];
      var tip, epoch := None, 0;
      var ids: set<string> := {};
      var nonces: set<Digest> := {};
      for i := 0 to |log|
        invariant |rows| == i && Replay(env, log[..i]) == Ok(History(rows, tip, epoch, ids, nonces))
      {
        var f := log[i];
        assert log[..i + 1] == log[..i] + [f];
        ReplaySnoc(env, log[..i], f);
        assert log == log[..i + 1] + log[i + 1..];
        RunConcat(Step(env), BLANK, log[..i + 1], log[i + 1..]);
        if f.Torn? { return Err(Corrupt); }
        var record := f.entry;
        if !ValidRecord(env, record) { return Err(InvalidRecord); }
        if record.index != i + 1 || record.previous != tip || record.registryEpoch < epoch { return Err(LinkOrEpoch); }
        if record.authorizationId in ids || record.nonce in nonces { return Err(Duplicate); }
        ids, nonces := ids + {record.authorizationId}, nonces + {record.nonce};
        epoch, tip, rows := record.registryEpoch, Some(env.recordHash(record)), rows + [record];
      }
      assert log[..|log|] == log;
      r := Ok(History(rows, tip, epoch, ids, nonces));
    }

    method ScreenRequest(q: ReviewRequest) returns (r: Result<SpendRecord, Error>)
      ensures r == Screen(env, log, q)
    {
      var replayed := ReadHistory();
      if replayed.Err? { return Err(replayed.error); }
      var h, d := replayed.value, q.decision;
      if q.rootKey != env.marker.rootKey || q.namespace != env.marker.namespace || q.caseId != env.marker.caseId {
        return Err(ForeignPolicy);
      }
      if q.minimumEpoch < h.epoch { return Err(BelowHighWater); }
      if !env.verifyReview(q) { return Err(ReviewRejected); }
      if q.registryEpoch < h.epoch { return Err(EpochRollback); }
      if d.authorizationId in h.ids || d.nonce in h.nonces { return Err(AlreadyConsumed); }
      if CheckedAdd1(|h.rows|).None? { return Err(CountOverflow); }
      var record := SpendRecord(FORMAT, |h.rows| + 1, h.tip, env.marker.namespace, env.marker.caseId, q.registryEpoch,
                                d.reviewerKeyId, d.authorizationId, d.decisionId, d.nonce, d.manifest, d.targetCommit,
                                env.decisionHash(d), None);
      r := if ValidRecord(env, record) then Ok(record) else Err(InvalidRecord);
    }

    method ConsumeReview(q: ReviewRequest, fault: Fault) returns (r: Result<SpendRecord, Error>)
      modifies this`log
      ensures (r, log) == SpendPlain(env, old(log), q, fault)
    {
      var screened := ScreenRequest(q);
      if screened.Err? { return screened; }
      log := WriteNext(log, screened.value, fault);
      r := if fault == NoFault then screened else Err(WriteFailed);
    }

    method ConsumeWithWitness(q: ReviewRequest, service: W.DurableScratchWitness, expectedTip: Option<Digest>,
                              swap: Fault, write: Fault)
      returns (r: Result<SpendRecord, Error>)
      modifies this`log, service`journal
      ensures (r, log, service.journal) ==
              SpendWitnessed(env, service.env, old(log), old(service.journal), q, expectedTip, swap, write)
    {
      var screened := ScreenRequest(q);
      if screened.Err? { return screened; }
      var stamp := Stamp(env, screened.value, expectedTip);
      var answer := service.ConsumeSpend(stamp, swap);
      if answer.Err? { return Err(WitnessRefused); }
      if !Answers(answer.value, stamp) { return Err(ReceiptMismatch); }
      if !Bound(env, screened.value, answer.value) { return Err(ReceiptUnbound); }
      var record := WithReceipt(env, screened.value, answer.value);
      log := WriteNext(log, record, write);
      r := if write == NoFault then Ok(record) else Err(WriteFailed);
    }

    // Closes a gap without calling the witness's consume again.
    method ReconcileWithWitness(q: ReviewRequest, service: W.DurableScratchWitness, fault: Fault)
      returns (r: Result<SpendRecord, Error>)
      modifies this`log
      ensures (r, log) == Reconcile(env, service.env, old(log), service.journal, q, fault)
    {
      var prior := service.LookupSpend(q.decision.authorizationId);
      if prior.Err? { return Err(WitnessRefused); }
      if prior.value.None? { return Err(NothingToReconcile); }
      var screened := ScreenRequest(q);
      if screened.Err? { return screened; }
      if !Bound(env, screened.value, prior.value.value) { return Err(ReceiptUnbound); }
      var record := WithReceipt(env, screened.value, prior.value.value);
      log := WriteNext(log, record, fault);
      r := if fault == NoFault then Ok(record) else Err(WriteFailed);
    }

    method CheckCheckpoint(previous: ConsumptionCheckpoint) returns (r: Result<(), Error>)
      ensures r == VerifyCheckpoint(env, log, previous)
    {
      var replayed := ReadHistory();
      if replayed.Err? { return Err(replayed.error); }
      var h := replayed.value;
      if |h.rows| != previous.count || h.tip != previous.tip || h.epoch != previous.maximumEpoch {
        return Err(CheckpointMismatch);
      }
      r := Ok(());
    }
  }

  // ----- What a readable log promises

  lemma {:induction false} ReplayShape(env: Env, log: Log)
    requires Replay(env, log).Ok?
    ensures var h := Replay(env, log).value;
            && |h.rows| == |log|
            && (forall i :: 0 <= i < |log| ==> log[i] == Whole(h.rows[i]))
            && h.tip == (if log == [] then None else Some(env.recordHash(h.rows[|log| - 1])))
            && (forall i :: 0 <= i < |log| ==> h.rows[i].registryEpoch <= h.epoch)
    decreases |log|
  {
    if log != [] {
      var n := |log| - 1;
      assert log == log[..n] + [log[n]];
      ReplaySnoc(env, log[..n], log[n]);
      ReplayShape(env, log[..n]);
    }
  }

  lemma {:induction false} SpentAre(env: Env, log: Log, id: string, nonce: Digest)
    requires Replay(env, log).Ok?
    ensures id in Replay(env, log).value.ids <==>
            exists i :: 0 <= i < |log| && log[i].Whole? && log[i].entry.authorizationId == id
    ensures nonce in Replay(env, log).value.nonces <==>
            exists i :: 0 <= i < |log| && log[i].Whole? && log[i].entry.nonce == nonce
    decreases |log|
  {
    if log != [] {
      var n := |log| - 1;
      var p := log[..n];
      assert log == p + [log[n]];
      ReplaySnoc(env, p, log[n]);
      SpentAre(env, p, id, nonce);
      assert forall i :: 0 <= i < n ==> log[i] == p[i];
    }
  }

  // No two records of a readable log share an authorization or a nonce, and epochs never fall.
  lemma {:induction false} NothingSpentTwice(env: Env, log: Log, i: nat, k: nat)
    requires Replay(env, log).Ok? && i < k < |log|
    ensures log[i].Whole? && log[k].Whole?
    ensures log[i].entry.authorizationId != log[k].entry.authorizationId
    ensures log[i].entry.nonce != log[k].entry.nonce
    ensures log[i].entry.registryEpoch <= log[k].entry.registryEpoch
    decreases |log|
  {
    var n := |log| - 1;
    var p := log[..n];
    assert log == p + [log[n]];
    ReplaySnoc(env, p, log[n]);
    ReplayShape(env, p);
    if k < n {
      NothingSpentTwice(env, p, i, k);
    } else {
      assert p[i] == log[i];
      SpentAre(env, p, log[i].entry.authorizationId, log[i].entry.nonce);
    }
  }

  lemma {:induction false} SameTipSameLog(env: Env, a: Log, b: Log)
    requires Sound(env) && Replay(env, a).Ok? && Replay(env, b).Ok?
    requires |a| == |b| && Replay(env, a).value.tip == Replay(env, b).value.tip
    ensures a == b
    decreases |a|
  {
    if a != [] {
      var n := |a| - 1;
      assert a == a[..n] + [a[n]] && b == b[..n] + [b[n]];
      ReplaySnoc(env, a[..n], a[n]);
      ReplaySnoc(env, b[..n], b[n]);
      ReplayShape(env, a);
      ReplayShape(env, b);
      assert a[n] == b[n];
      SameTipSameLog(env, a[..n], b[..n]);
    }
  }

  // A retained checkpoint accepts the log it was taken from and no other.
  lemma CheckpointPinsLog(env: Env, a: Log, b: Log)
    requires Sound(env) && Replay(env, a).Ok?
    ensures VerifyCheckpoint(env, b, CheckpointOf(Replay(env, a).value)).Ok? <==> a == b
  {
    ReplayShape(env, a);
    if VerifyCheckpoint(env, b, CheckpointOf(Replay(env, a).value)).Ok? {
      ReplayShape(env, b);
      SameTipSameLog(env, a, b);
    }
  }

  // What a screened record adds to the log it was screened against.
  lemma ScreenedAppends(env: Env, log: Log, q: ReviewRequest, receipt: Option<W.WitnessReceipt>)
    requires Sound(env) && Screen(env, log, q).Ok?
    ensures var r := Screen(env, log, q).value;
            var w := if receipt.None? then r else WithReceipt(env, r, receipt.value);
            && Apply(env, Replay(env, log).value, Whole(w)).Ok?
            && Replay(env, log + [Whole(w)]) == Apply(env, Replay(env, log).value, Whole(w))
  {
    var r := Screen(env, log, q).value;
    ReplaySnoc(env, log, Whole(if receipt.None? then r else WithReceipt(env, r, receipt.value)));
  }

  // The durable witness never answers with a receipt for something else: when both
  // are configured alike, the two checks on a fresh receipt are never the ones that fail.
  lemma FreshReceiptBound(env: Env, wenv: W.Env, log: Log, wj: W.Journal, q: ReviewRequest,
                          expectedTip: Option<Digest>, fault: Fault)
    requires W.Sound(wenv) && env.validHash == wenv.validHash && Screen(env, log, q).Ok?
    ensures var r := CommitWitness(env, wenv, log, wj, q, expectedTip, fault).0;
            r.Ok? || r == Err(WitnessRefused)
  {
    var stamp := Stamp(env, Screen(env, log, q).value, expectedTip);
    if W.CheckConsume(wenv, wj, stamp).Ok? {
      var entry := W.CheckConsume(wenv, wj, stamp).value;
      assert Answers(entry.receipt, stamp);
      assert Bound(env, Screen(env, log, q).value, entry.receipt);
    }
  }
}
