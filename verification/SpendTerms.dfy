// What a spend promises in terms of the review, the local log and the witness's
// entries alone: which reviews are spent, what is written about them, and that
// nothing is ever written about a review that does not verify.
module SpendTerms {
  import opened Base
  import opened Chains
  import opened Consumption
  import R = SpendRuns
  import W = Witness

  // ----- The local log, record by record

  // A record of this case with proper names and digests.
  predicate RecordTerms(env: Env, r: SpendRecord) {
    && r.format == "GALIA_NONCANONICAL_SCRATCH_CONSUMPTION_V1"
    && r.namespace == env.marker.namespace && r.caseId == env.marker.caseId && r.registryEpoch > 0
    && ValidId(r.reviewerKeyId) && ValidId(r.authorizationId) && ValidId(r.decisionId) && ValidId(r.targetCommit)
    && env.validHash(r.nonce) && env.validHash(r.manifest) && env.validHash(r.signedReview)
    && (r.witnessReceipt.Some? ==> env.validHash(r.witnessReceipt.value))
  }

  function SealOf(env: Env, log: Log): Option<Digest> {
    if log == [] || log[|log| - 1].Torn? then None else Some(env.recordHash(log[|log| - 1].entry))
  }

  // Nothing of these records, and not before them.
  predicate Unspent(log: Log, id: string, nonce: Digest, epoch: nat) {
    forall k :: 0 <= k < |log| && log[k].Whole? ==>
      log[k].entry.authorizationId != id && log[k].entry.nonce != nonce && log[k].entry.registryEpoch <= epoch
  }

  ghost predicate LawfulRecord(env: Env, log: Log, i: nat)
    requires i < |log|
  {
    && log[i].Whole? && RecordTerms(env, log[i].entry)
    && log[i].entry.index == i + 1 && log[i].entry.previous == SealOf(env, log[..i])
    && Unspent(log[..i], log[i].entry.authorizationId, log[i].entry.nonce, log[i].entry.registryEpoch)
  }

  ghost predicate StateOf(env: Env, log: Log, h: History) {
    && |h.rows| == |log| && h.tip == SealOf(env, log) && (h.tip.Some? ==> env.validHash(h.tip.value))
    && forall id, nonce, epoch ::
         Unspent(log, id, nonce, epoch) <==> id !in h.ids && nonce !in h.nonces && h.epoch <= epoch
  }

  lemma UnspentSnoc(log: Log, f: File<SpendRecord>, id: string, nonce: Digest, epoch: nat)
    ensures Unspent(log + [f], id, nonce, epoch) <==>
            Unspent(log, id, nonce, epoch)
            && (f.Whole? ==> f.entry.authorizationId != id && f.entry.nonce != nonce && f.entry.registryEpoch <= epoch)
  {
    var all := log + [f];
    assert forall k :: 0 <= k < |log| ==> all[k] == log[k];
    assert all[|log|] == f;
  }

  lemma LawfulNext(env: Env, log: Log, h: History, f: File<SpendRecord>)
    requires Sound(env) && StateOf(env, log, h)
    ensures Apply(env, h, f).Ok? <==> LawfulRecord(env, log + [f], |log|)
    ensures Apply(env, h, f).Ok? ==> StateOf(env, log + [f], Apply(env, h, f).value)
  {
    hide ValidId, Unspent;
    assert (log + [f])[..|log|] == log;
    if Apply(env, h, f).Ok? {
      var r := f.entry;
      assert Unspent(log, r.authorizationId, r.nonce, r.registryEpoch);
      forall id, nonce, epoch
        ensures Unspent(log + [f], id, nonce, epoch) <==>
                Unspent(log, id, nonce, epoch) && r.authorizationId != id && r.nonce != nonce && r.registryEpoch <= epoch
      {
        UnspentSnoc(log, f, id, nonce, epoch);
      }
    }
  }

  lemma NoRecords(env: Env)
    ensures Replay(env, []) == Ok(BLANK) && StateOf(env, [], BLANK)
  {
  }

  // A log replays exactly when every record is lawful where it stands.
  lemma {:induction false} ReplayIffLawful(env: Env, log: Log)
    requires Sound(env)
    ensures Replay(env, log).Ok? <==> forall i :: 0 <= i < |log| ==> LawfulRecord(env, log, i)
    ensures Replay(env, log).Ok? ==> StateOf(env, log, Replay(env, log).value)
    decreases |log|
  {
    hide Replay, StateOf, Apply, RecordTerms, Unspent;
    if log == [] {
      NoRecords(env);
    } else {
      var n := |log| - 1;
      var p := log[..n];
      assert log == p + [log[n]];
      ReplaySnoc(env, p, log[n]);
      ReplayIffLawful(env, p);
      forall i | 0 <= i < n ensures LawfulRecord(env, log, i) <==> LawfulRecord(env, p, i) {
        assert log[..i] == p[..i];
      }
      if Replay(env, p).Ok? {
        LawfulNext(env, p, Replay(env, p).value, log[n]);
      } else {
        var i: nat :| i < n && !LawfulRecord(env, p, i);
        assert !LawfulRecord(env, log, i);
      }
    }
  }

  // A retained checkpoint passes exactly on a lawful log of that many records that ends
  // in that digest, at that epoch.
  lemma CheckpointIff(env: Env, log: Log, c: ConsumptionCheckpoint)
    requires Sound(env)
    ensures VerifyCheckpoint(env, log, c).Ok? <==>
            && (forall i :: 0 <= i < |log| ==> LawfulRecord(env, log, i)) && c.count == |log| && c.tip == SealOf(env, log)
            && c.maximumEpoch == if log == [] || log[|log| - 1].Torn? then 0 else log[|log| - 1].entry.registryEpoch
  {
    hide Replay, LawfulRecord;
    ReplayIffLawful(env, log);
    if Replay(env, log).Ok? { LastEpoch(env, log); }
  }

  lemma LastEpoch(env: Env, log: Log)
    requires Replay(env, log).Ok?
    ensures log == [] ==> Replay(env, log).value.epoch == 0
    ensures log != [] ==> log[|log| - 1].Whole? && Replay(env, log).value.epoch == log[|log| - 1].entry.registryEpoch
  {
    if log != [] {
      assert log == log[..|log| - 1] + [log[|log| - 1]];
      ReplaySnoc(env, log[..|log| - 1], log[|log| - 1]);
    }
  }

  // ----- The screen

  // A record that says exactly what was reviewed, decided and signed.
  predicate RecordFor(env: Env, q: ReviewRequest, r: SpendRecord) {
    && r.format == "GALIA_NONCANONICAL_SCRATCH_CONSUMPTION_V1"
    && r.namespace == q.namespace && r.caseId == q.caseId && r.registryEpoch == q.registryEpoch
    && r.reviewerKeyId == q.decision.reviewerKeyId && r.authorizationId == q.decision.authorizationId
    && r.decisionId == q.decision.decisionId && r.nonce == q.decision.nonce && r.manifest == q.decision.manifest
    && r.targetCommit == q.decision.targetCommit && r.signedReview == env.decisionHash(q.decision)
  }

  // The request is for this root and case, verifies, is well formed, and spends
  // something fresh, with neither epoch nor policy floor behind the log.
  ghost predicate Admitted(env: Env, log: Log, q: ReviewRequest) {
    && (forall i :: 0 <= i < |log| ==> LawfulRecord(env, log, i)) && |log| < U64_MAX
    && R.WellFormed(env, q)
    && Unspent(log, q.decision.authorizationId, q.decision.nonce, q.registryEpoch)
    && forall k :: 0 <= k < |log| && log[k].Whole? ==> log[k].entry.registryEpoch <= q.minimumEpoch
  }

  // A review passes the local screen exactly when it is admitted, and the record made
  // of it says so, in its place.
  lemma ScreenIff(env: Env, log: Log, q: ReviewRequest)
    requires Sound(env)
    ensures Screen(env, log, q).Ok? <==> Admitted(env, log, q)
    ensures Screen(env, log, q).Ok? ==>
              var r := Screen(env, log, q).value;
              RecordFor(env, q, r) && r.index == |log| + 1 && r.previous == SealOf(env, log) && r.witnessReceipt.None?
  {
    hide Replay, ValidId, Unspent;
    ReplayIffLawful(env, log);
    if Replay(env, log).Ok? {
      HighWater(env, log, q.minimumEpoch);
    }
  }

  lemma HighWater(env: Env, log: Log, epoch: nat)
    requires Sound(env) && Replay(env, log).Ok?
    ensures Replay(env, log).value.epoch <= epoch <==>
            forall k :: 0 <= k < |log| && log[k].Whole? ==> log[k].entry.registryEpoch <= epoch
  {
    hide Replay;
    ReplayShape(env, log);
    if Replay(env, log).value.epoch > 0 { R.EpochIsLast(env, log); }
  }

  // The log after a write: as it was, torn, or with the record of this review and
  // receipt in the next place.
  ghost predicate Appended(env: Env, log: Log, log': Log, q: ReviewRequest, receipt: Option<Digest>) {
    || log' == log || log' == log + [Torn]
    || (|log'| == |log| + 1 && log'[..|log|] == log && log'[|log|].Whole? && RecordFor(env, q, log'[|log|].entry)
        && log'[|log|].entry.index == |log| + 1 && log'[|log|].entry.previous == SealOf(env, log)
        && log'[|log|].entry.witnessReceipt == receipt)
  }

  // A plain spend goes through exactly for an admitted review whose record is written.
  lemma PlainIff(env: Env, log: Log, q: ReviewRequest, fault: Fault)
    requires Sound(env)
    ensures var (r, log') := SpendPlain(env, log, q, fault);
            && (r.Ok? <==> fault == NoFault && Admitted(env, log, q))
            && Appended(env, log, log', q, None)
            && (r.Ok? ==> log' == log + [Whole(r.value)])
  {
    hide Screen, Admitted, RecordFor;
    ScreenIff(env, log, q);
  }

  // ----- The witnessed spend

  // What the witness is asked to spend: this review's authorization, nonce and signed
  // decision, at its epoch, in its case.
  predicate StampTerms(env: Env, q: ReviewRequest, expectedTip: Option<Digest>, c: W.WitnessConsume) {
    && c.format == "GALIA_NONCANONICAL_WITNESS_V1"
    && c.namespace == q.namespace && c.caseId == q.caseId && c.rootKey == q.rootKey && c.registryEpoch == q.registryEpoch
    && c.authorizationId == q.decision.authorizationId && c.nonce == q.decision.nonce
    && c.signedDecision == env.decisionHash(q.decision) && c.expectedTip == expectedTip
  }

  lemma StampIs(env: Env, log: Log, q: ReviewRequest, expectedTip: Option<Digest>)
    requires Sound(env) && Screen(env, log, q).Ok?
    ensures StampTerms(env, q, expectedTip, Stamp(env, Screen(env, log, q).value, expectedTip))
  {
    hide Screen, Admitted;
    ScreenIff(env, log, q);
    AdmittedHere(env, log, q);
  }

  lemma AdmittedHere(env: Env, log: Log, q: ReviewRequest)
    ensures Admitted(env, log, q) ==>
              && R.WellFormed(env, q) && q.namespace == env.marker.namespace
              && q.caseId == env.marker.caseId && q.rootKey == env.marker.rootKey
  {
    hide LawfulRecord, Unspent, ValidId;
  }

  // The witness has a place for this review: it can be read, stands at the expected
  // tip, and has spent nothing of it.
  ghost predicate WitnessReady(wenv: W.Env, wj: W.Journal, q: ReviewRequest, expectedTip: Option<Digest>) {
    && (forall i :: 0 <= i < |wj| ==> W.LawfulEntry(wenv, wj, i)) && |wj| < U64_MAX && expectedTip == W.TipAfter(wj)
    && q.registryEpoch >= wenv.config.initialEpoch
    && forall k :: 0 <= k < |wj| && wj[k].Whole? ==>
         && wj[k].entry.request.authorizationId != q.decision.authorizationId
         && wj[k].entry.request.nonce != q.decision.nonce && wj[k].entry.request.registryEpoch <= q.registryEpoch
  }

  lemma StampFresh(w: R.World, wj: W.Journal, q: ReviewRequest, expectedTip: Option<Digest>, c: W.WitnessConsume)
    requires R.Paired(w) && StampTerms(w.env, q, expectedTip, c) && R.WellFormed(w.env, q)
    ensures W.Fresh(w.wenv, wj, c) <==>
            && q.registryEpoch >= w.wenv.config.initialEpoch
            && forall k :: 0 <= k < |wj| && wj[k].Whole? ==>
                 && wj[k].entry.request.authorizationId != q.decision.authorizationId
                 && wj[k].entry.request.nonce != q.decision.nonce && wj[k].entry.request.registryEpoch <= q.registryEpoch
    ensures (forall i :: 0 <= i < |wj| ==> W.LawfulEntry(w.wenv, wj, i)) && expectedTip == W.TipAfter(wj) ==> W.RequestTerms(w.wenv, c)
  {
    hide W.LawfulEntry;
    IdTerms(q.decision.authorizationId);
    if forall i :: 0 <= i < |wj| ==> W.LawfulEntry(w.wenv, wj, i) {
      TipProper(w, wj);
    }
  }

  lemma IdTerms(id: string)
    requires ValidId(id)
    ensures 0 < |id| <= 256 && forall c :: c in id ==> !IsControl(c)
  {
  }

  lemma TipProper(w: R.World, wj: W.Journal)
    requires R.Paired(w) && forall i :: 0 <= i < |wj| ==> W.LawfulEntry(w.wenv, wj, i)
    ensures W.TipAfter(wj).Some? ==> w.env.validHash(W.TipAfter(wj).value)
  {
    if wj != [] {
      assert W.LawfulEntry(w.wenv, wj, |wj| - 1);
    }
  }

  // A witnessed spend goes through exactly for an admitted review the witness is
  // ready for, when both writes meet no fault; whatever happens, what appears at the
  // witness is this review's spend, and what appears locally is its record with the
  // digest of the receipt the witness gave for it.
  lemma WitnessedIff(w: R.World, log: Log, wj: W.Journal, q: ReviewRequest, expectedTip: Option<Digest>, swap: Fault, write: Fault)
    requires R.Paired(w)
    ensures var (r, log', wj') := SpendWitnessed(w.env, w.wenv, log, wj, q, expectedTip, swap, write);
            && (r.Ok? <==> swap == NoFault && write == NoFault && Admitted(w.env, log, q) && WitnessReady(w.wenv, wj, q, expectedTip))
            && (wj' == wj || wj' == wj + [Torn]
                || (|wj'| == |wj| + 1 && wj'[..|wj|] == wj && wj'[|wj|].Whole?
                    && StampTerms(w.env, q, expectedTip, wj'[|wj|].entry.request)
                    && W.EntryTerms(w.wenv, wj, wj'[|wj|].entry, wj'[|wj|].entry.request)
                    && Appended(w.env, log, log', q, Some(w.env.receiptHash(wj'[|wj|].entry.receipt)))))
            && (log' != log ==> |wj'| == |wj| + 1 && wj'[|wj|].Whole?)
            && (r.Ok? ==> log' == log + [Whole(r.value)])
  {
    hide Screen, Admitted, RecordFor, W.Consume, W.LawfulEntry, W.Fresh, W.RequestTerms, W.EntryTerms, StampTerms, Stamp, R.WellFormed;
    ScreenIff(w.env, log, q);
    AdmittedHere(w.env, log, q);
    if Screen(w.env, log, q).Ok? {
      var c := Stamp(w.env, Screen(w.env, log, q).value, expectedTip);
      StampIs(w.env, log, q, expectedTip);
      StampFresh(w, wj, q, expectedTip, c);
      W.ConsumeExact(w.wenv, wj, c, swap);
      W.ReplayIffLawful(w.wenv, wj);
      FreshReceiptBound(w.env, w.wenv, log, wj, q, expectedTip, swap);
      ConsumeGate(w, log, wj, q, expectedTip, swap);
      TipOfStamp(w.env, q, expectedTip, c);
      var wj' := W.Consume(w.wenv, wj, c, swap).1;
      if |wj'| == |wj| + 1 && wj'[|wj|].Whole? {
        EntryOf(w.wenv, wj, wj'[|wj|].entry, c);
        var receipt := wj'[|wj|].entry.receipt;
        RecordLands(w.env, log, q, Screen(w.env, log, q).value, Some(w.env.receiptHash(receipt)), write);
      }
    }
  }

  lemma TipOfStamp(env: Env, q: ReviewRequest, expectedTip: Option<Digest>, c: W.WitnessConsume)
    requires StampTerms(env, q, expectedTip, c)
    ensures c.expectedTip == expectedTip
  {
  }

  lemma EntryOf(wenv: W.Env, wj: W.Journal, e: W.Entry, c: W.WitnessConsume)
    ensures W.EntryTerms(wenv, wj, e, c) ==> e.request == c
  {
  }

  // Writing a record for a review, under any fault.
  lemma RecordLands(env: Env, log: Log, q: ReviewRequest, r: SpendRecord, receipt: Option<Digest>, fault: Fault)
    requires RecordFor(env, q, r) && r.index == |log| + 1 && r.previous == SealOf(env, log)
    ensures Appended(env, log, WriteNext(log, r.(witnessReceipt := receipt), fault), q, receipt)
  {
  }

  // With both set up alike, the spend goes on exactly when the witness agreed.
  lemma ConsumeGate(w: R.World, log: Log, wj: W.Journal, q: ReviewRequest, expectedTip: Option<Digest>, swap: Fault)
    requires R.Paired(w) && Screen(w.env, log, q).Ok?
    ensures var s := Screen(w.env, log, q).value;
            var (answer, wj') := W.Consume(w.wenv, wj, Stamp(w.env, s, expectedTip), swap);
            CommitWitness(w.env, w.wenv, log, wj, q, expectedTip, swap) ==
            (match answer case Err(_) => Err(WitnessRefused)
                          case Ok(receipt) => Ok(s.(witnessReceipt := Some(w.env.receiptHash(receipt)))), wj')
  {
    hide Screen, W.Consume, Stamp, Answers, Bound;
    FreshReceiptBound(w.env, w.wenv, log, wj, q, expectedTip, swap);
  }

  // ----- Reconciliation

  // The witness has an entry that spends exactly this review, at its epoch.
  predicate SpentAt(env: Env, wj: W.Journal, q: ReviewRequest, k: nat) {
    && k < |wj| && wj[k].Whole?
    && wj[k].entry.request.authorizationId == q.decision.authorizationId && wj[k].entry.request.nonce == q.decision.nonce
    && wj[k].entry.request.registryEpoch == q.registryEpoch
    && wj[k].entry.request.signedDecision == env.decisionHash(q.decision)
  }

  // A gap is closed exactly for an admitted review that a readable witness has spent,
  // and what appears locally is its record with the digest of that entry's receipt.
  lemma ReconcileExact(w: R.World, log: Log, wj: W.Journal, q: ReviewRequest, fault: Fault)
    requires R.Paired(w)
    ensures var (r, log') := Reconcile(w.env, w.wenv, log, wj, q, fault);
            && (r.Ok? <==>
                && fault == NoFault && Admitted(w.env, log, q)
                && (forall i :: 0 <= i < |wj| ==> W.LawfulEntry(w.wenv, wj, i)) && exists k :: SpentAt(w.env, wj, q, k))
            && (log' == log || exists k :: RecordedFrom(w, log, log', wj, q, k))
            && (r.Ok? ==> log' == log + [Whole(r.value)])
  {
    hide Screen, Admitted, SpentAt, RecordedFrom, W.LawfulEntry, W.Replay, W.Lookup, Bound, WithReceipt;
    ScreenIff(w.env, log, q);
    W.ReplayIffLawful(w.wenv, wj);
    if W.Replay(w.wenv, wj).Ok? {
      SpentSomewhere(w, log, wj, q);
      if Reconcile(w.env, w.wenv, log, wj, q, NoFault).0.Ok? {
        var k: nat :| SpentAt(w.env, wj, q, k);
        Reconciled(w, log, wj, q, fault, k);
      }
    } else {
      LookupNeedsReplay(w.wenv, wj, q.decision.authorizationId);
    }
  }

  ghost predicate RecordedFrom(w: R.World, log: Log, log': Log, wj: W.Journal, q: ReviewRequest, k: nat) {
    && SpentAt(w.env, wj, q, k)
    && Appended(w.env, log, log', q, Some(w.env.receiptHash(wj[k].entry.receipt)))
  }

  lemma LookupNeedsReplay(wenv: W.Env, wj: W.Journal, id: string)
    ensures W.Lookup(wenv, wj, id).Ok? ==> W.Replay(wenv, wj).Ok?
  {
  }

  lemma SpentSomewhere(w: R.World, log: Log, wj: W.Journal, q: ReviewRequest)
    requires R.Paired(w) && W.Replay(w.wenv, wj).Ok?
    ensures Reconcile(w.env, w.wenv, log, wj, q, NoFault).0.Ok? <==>
            Screen(w.env, log, q).Ok? && exists k :: SpentAt(w.env, wj, q, k)
  {
    hide Reconcile, Screen, W.Replay;
    R.ReconciledWhen(w, R.START.(log := log, journal := wj), q);
    if k: nat :| k < |wj| && wj[k].Whole? && R.SpentFor(w.env, wj[k].entry, q) {
      assert SpentAt(w.env, wj, q, k);
    }
  }

  lemma Reconciled(w: R.World, log: Log, wj: W.Journal, q: ReviewRequest, fault: Fault, k: nat)
    requires R.Paired(w) && W.Replay(w.wenv, wj).Ok? && Screen(w.env, log, q).Ok? && SpentAt(w.env, wj, q, k)
    ensures var log' := Reconcile(w.env, w.wenv, log, wj, q, fault).1;
            log' == log || RecordedFrom(w, log, log', wj, q, k)
  {
    hide Screen, Admitted, W.Replay, W.Lookup, Bound, Appended, RecordFor;
    W.LookupExact(w.wenv, wj, q.decision.authorizationId, k);
    ScreenIff(w.env, log, q);
    RecordLands(w.env, log, q, Screen(w.env, log, q).value, Some(w.env.receiptHash(wj[k].entry.receipt)), fault);
  }

  // ----- Receipts of any witness

  // What a receipt has to say about a review before a record is made of it.
  predicate BoundTerms(env: Env, q: ReviewRequest, receipt: W.WitnessReceipt) {
    && receipt.format == "GALIA_NONCANONICAL_WITNESS_V1"
    && receipt.namespace == q.namespace && receipt.caseId == q.caseId && receipt.registryEpoch == q.registryEpoch
    && receipt.authorizationId == q.decision.authorizationId && receipt.nonce == q.decision.nonce
    && receipt.signedDecision == env.decisionHash(q.decision)
    && receipt.spentCount > 0 && env.validHash(receipt.tip) && !receipt.canonicalWriteback && !receipt.authorityTransfer
  }

  // Whatever receipt a witness hands over, a record is made of it exactly when the
  // review is admitted and the receipt is about it and grants nothing.
  lemma RebindIff(env: Env, log: Log, q: ReviewRequest, receipt: W.WitnessReceipt)
    requires Sound(env)
    ensures var r := Rebind(env, log, q, receipt);
            && (r.Ok? <==> Admitted(env, log, q) && BoundTerms(env, q, receipt))
            && (r.Ok? ==> RecordFor(env, q, r.value) && r.value.witnessReceipt == Some(env.receiptHash(receipt))
                          && r.value.index == |log| + 1 && r.value.previous == SealOf(env, log))
  {
    hide Screen, Admitted;
    ScreenIff(env, log, q);
    AdmittedHere(env, log, q);
  }

  // The answer to a spend is taken only when, besides, it repeats the tip expected.
  lemma AnswersIff(env: Env, log: Log, q: ReviewRequest, expectedTip: Option<Digest>, receipt: W.WitnessReceipt)
    requires Sound(env) && Screen(env, log, q).Ok?
    ensures var r := Screen(env, log, q).value;
            Answers(receipt, Stamp(env, r, expectedTip)) && Bound(env, r, receipt) <==>
            BoundTerms(env, q, receipt) && receipt.priorTip == expectedTip
    ensures Answers(receipt, Stamp(env, Screen(env, log, q).value, expectedTip)) ==>
              receipt.registryEpoch == q.registryEpoch && receipt.authorizationId == q.decision.authorizationId
              && receipt.nonce == q.decision.nonce && receipt.signedDecision == env.decisionHash(q.decision)
  {
    hide Screen, Admitted;
    ScreenIff(env, log, q);
    AdmittedHere(env, log, q);
  }

  // ----- Whole runs

  // The review that an event of these asks to spend or to recover.
  predicate Asks(e: R.Event, q: ReviewRequest) {
    (e.Begin? && e.q == q) || (e.Look? && e.q == q)
  }

  ghost predicate AskedFor(events: seq<R.Event>, q: ReviewRequest) {
    exists i :: 0 <= i < |events| && Asks(events[i], q)
  }

  ghost predicate VerifiedRecord(w: R.World, events: seq<R.Event>, r: SpendRecord, q: ReviewRequest) {
    AskedFor(events, q) && R.WellFormed(w.env, q) && RecordFor(w.env, q, r)
  }

  ghost predicate RecordStems(w: R.World, events: seq<R.Event>, r: SpendRecord) {
    exists q :: VerifiedRecord(w, events, r, q)
  }

  ghost predicate VerifiedStamp(w: R.World, events: seq<R.Event>, c: W.WitnessConsume, q: ReviewRequest) {
    AskedFor(events, q) && R.WellFormed(w.env, q) && StampTerms(w.env, q, c.expectedTip, c)
  }

  ghost predicate StampStems(w: R.World, events: seq<R.Event>, c: W.WitnessConsume) {
    exists q :: VerifiedStamp(w, events, c, q)
  }

  ghost predicate LogStems(w: R.World, events: seq<R.Event>, log: Log) {
    forall i :: 0 <= i < |log| && log[i].Whole? ==> RecordStems(w, events, log[i].entry)
  }

  ghost predicate JournalStems(w: R.World, events: seq<R.Event>, wj: W.Journal) {
    forall k :: 0 <= k < |wj| && wj[k].Whole? ==> StampStems(w, events, wj[k].entry.request)
  }

  ghost predicate PhaseStems(w: R.World, events: seq<R.Event>, phase: R.Phase) {
    match phase
    case Spending(q, _) => AskedFor(events, q)
    case Recovering(found) => AskedFor(events, found.q)
    case Committed(r) => RecordStems(w, events, r)
  }

  ghost predicate AllStem(w: R.World, events: seq<R.Event>, s: R.Sys) {
    && LogStems(w, events, s.log) && JournalStems(w, events, s.journal)
    && (s.lock.Some? ==> PhaseStems(w, events, s.lock.value.phase))
    && forall pid :: pid in s.found ==> AskedFor(events, s.found[pid].q)
  }

  lemma AskedGrows(events: seq<R.Event>, e: R.Event, q: ReviewRequest)
    ensures AskedFor(events, q) || Asks(e, q) ==> AskedFor(events + [e], q)
  {
    var all := events + [e];
    assert all[|events|] == e;
    if i: nat :| i < |events| && Asks(events[i], q) { assert all[i] == events[i]; }
  }

  lemma RecordStemGrows(w: R.World, events: seq<R.Event>, e: R.Event, r: SpendRecord)
    requires RecordStems(w, events, r)
    ensures RecordStems(w, events + [e], r)
  {
    var q :| VerifiedRecord(w, events, r, q);
    AskedGrows(events, e, q);
    assert VerifiedRecord(w, events + [e], r, q);
  }

  lemma StampStemGrows(w: R.World, events: seq<R.Event>, e: R.Event, c: W.WitnessConsume)
    requires StampStems(w, events, c)
    ensures StampStems(w, events + [e], c)
  {
    var q :| VerifiedStamp(w, events, c, q);
    AskedGrows(events, e, q);
    assert VerifiedStamp(w, events + [e], c, q);
  }

  lemma StemsGrow(w: R.World, events: seq<R.Event>, e: R.Event, s: R.Sys)
    requires AllStem(w, events, s)
    ensures AllStem(w, events + [e], s)
  {
    hide AskedFor, RecordStems, StampStems;
    forall i | 0 <= i < |s.log| && s.log[i].Whole? ensures RecordStems(w, events + [e], s.log[i].entry) {
      RecordStemGrows(w, events, e, s.log[i].entry);
    }
    forall k | 0 <= k < |s.journal| && s.journal[k].Whole? ensures StampStems(w, events + [e], s.journal[k].entry.request) {
      StampStemGrows(w, events, e, s.journal[k].entry.request);
    }
    forall pid | pid in s.found ensures AskedFor(events + [e], s.found[pid].q) {
      AskedGrows(events, e, s.found[pid].q);
    }
    if s.lock.Some? {
      match s.lock.value.phase
      case Spending(q, _) => AskedGrows(events, e, q);
      case Recovering(found) => AskedGrows(events, e, found.q);
      case Committed(r) => RecordStemGrows(w, events, e, r);
    }
  }

  // What the screen lets through stems from the review it was given.
  lemma ScreenedStems(w: R.World, events: seq<R.Event>, log: Log, q: ReviewRequest, receipt: Option<Digest>)
    requires R.Paired(w) && AskedFor(events, q) && Screen(w.env, log, q).Ok?
    ensures RecordStems(w, events, Screen(w.env, log, q).value.(witnessReceipt := receipt))
    ensures forall tip :: StampStems(w, events, Stamp(w.env, Screen(w.env, log, q).value, tip))
  {
    hide Screen, Admitted, AskedFor, Stamp, R.WellFormed, StampTerms;
    ScreenIff(w.env, log, q);
    AdmittedHere(w.env, log, q);
    assert VerifiedRecord(w, events, Screen(w.env, log, q).value.(witnessReceipt := receipt), q);
    forall tip ensures StampStems(w, events, Stamp(w.env, Screen(w.env, log, q).value, tip)) {
      StampIs(w.env, log, q, tip);
      var c := Stamp(w.env, Screen(w.env, log, q).value, tip);
      TipOfStamp(w.env, q, tip, c);
      assert VerifiedStamp(w, events, c, q);
    }
  }

  // The witness call of a spend: what it leaves on the witness, and in flight.
  lemma SpendStems(w: R.World, events: seq<R.Event>, s: R.Sys, pid: R.Pid, q: ReviewRequest, tip: Option<Digest>, fault: Fault)
    requires R.Paired(w) && AllStem(w, events, s) && AskedFor(events, q)
    ensures AllStem(w, events, R.NextSpend(w, s, pid, q, tip, fault))
  {
    hide Screen, AskedFor, RecordStems, StampStems, W.CheckConsume, Answers, Bound, Stamp;
    if Screen(w.env, s.log, q).Ok? {
      var c := Stamp(w.env, Screen(w.env, s.log, q).value, tip);
      EntryAsks(w.wenv, s.journal, c);
      var r := W.CheckConsume(w.wenv, s.journal, c);
      ScreenedStems(w, events, s.log, q, if r.Ok? then Some(w.env.receiptHash(r.value.receipt)) else None);
    }
  }

  lemma EntryAsks(wenv: W.Env, wj: W.Journal, c: W.WitnessConsume)
    ensures W.CheckConsume(wenv, wj, c).Ok? ==> W.CheckConsume(wenv, wj, c).value.request == c
  {
    hide W.Replay, W.ValidRequest;
  }

  lemma StepStems(w: R.World, events: seq<R.Event>, e: R.Event, s: R.Sys)
    requires R.Paired(w) && AllStem(w, events, s)
    ensures AllStem(w, events + [e], R.Next(w, s, e))
  {
    hide Screen, AskedFor, RecordStems, StampStems, R.NextSpend, Bound, FindReceipt;
    StemsGrow(w, events, e, s);
    if e.Begin? || e.Look? { AskedGrows(events, e, e.q); }
    if e.Commit? && R.Holds(s, e.pid) {
      match s.lock.value.phase
      case Spending(q, tip) => SpendStems(w, events + [e], s, e.pid, q, tip, e.fault);
      case Recovering(found) =>
        if Screen(w.env, s.log, found.q).Ok? {
          ScreenedStems(w, events + [e], s.log, found.q, Some(w.env.receiptHash(found.receipt)));
        }
      case Committed(_) =>
    }
  }

  lemma {:induction false} RunsStem(w: R.World, events: seq<R.Event>)
    requires R.Paired(w)
    ensures AllStem(w, events, R.Exec(w, R.START, events))
    decreases |events|
  {
    hide R.Next;
    if events != [] {
      var before := events[..|events| - 1];
      RunsStem(w, before);
      StepStems(w, before, events[|events| - 1], R.Exec(w, R.START, before));
      assert events == before + [events[|events| - 1]];
    }
  }

  // Over every run, each record and each witness entry is one of a review that some
  // process asked to spend or recover, that verifies, and that is for this root and
  // case; both say exactly what that review decided, and the entry's receipt repeats it.
  lemma OnlyVerifiedSpent(w: R.World, events: seq<R.Event>, i: nat, k: nat)
    requires R.Paired(w)
    ensures var s := R.Exec(w, R.START, events);
            && (i < |s.log| && s.log[i].Whole? ==>
                  exists q :: AskedFor(events, q) && w.env.verifyReview(q) && R.WellFormed(w.env, q) && RecordFor(w.env, q, s.log[i].entry))
            && (k < |s.journal| && s.journal[k].Whole? ==>
                  exists q :: AskedFor(events, q) && w.env.verifyReview(q) && R.WellFormed(w.env, q)
                              && StampTerms(w.env, q, s.journal[k].entry.request.expectedTip, s.journal[k].entry.request))
  {
    hide AskedFor, RecordFor, StampTerms;
    RunsStem(w, events);
    var s := R.Exec(w, R.START, events);
    if i < |s.log| && s.log[i].Whole? {
      assert RecordStems(w, events, s.log[i].entry);
    }
    if k < |s.journal| && s.journal[k].Whole? {
      assert StampStems(w, events, s.journal[k].entry.request);
    }
  }
}
