// The durable compare-and-swap witness of rust/galia-core/src/durable_witness.rs,
// with the record types of rust/galia-core/src/witness.rs.
module Witness {
  import opened Base
  import opened Chains

  const FORMAT := "GALIA_NONCANONICAL_WITNESS_V1"

  datatype WitnessConfig = WitnessConfig(namespace: string, caseId: string, rootKey: string, initialEpoch: nat)

  datatype WitnessConsume = WitnessConsume(
    format: string, namespace: string, caseId: string, rootKey: string, registryEpoch: nat,
    authorizationId: string, nonce: Digest, signedDecision: Digest, expectedTip: Option<Digest>)

  datatype WitnessReceipt = WitnessReceipt(
    format: string, namespace: string, caseId: string, registryEpoch: nat, spentCount: nat,
    priorTip: Option<Digest>, tip: Digest, authorizationId: string, nonce: Digest, signedDecision: Digest,
    canonicalWriteback: bool, authorityTransfer: bool)

  datatype Entry = Entry(index: nat, priorEntry: Option<Digest>, request: WitnessConsume, receipt: WitnessReceipt)

  type Journal = seq<File<Entry>>

  // The digest of a request together with its count, and of a journal entry.
  datatype Env = Env(
    config: WitnessConfig,
    requestHash: (WitnessConsume, nat) -> Digest,
    entryHash: Entry -> Digest,
    validHash: Digest -> bool)

  ghost predicate Sound(env: Env) {
    && (forall a, m, b, n {:trigger env.requestHash(a, m), env.requestHash(b, n)} ::
          env.requestHash(a, m) == env.requestHash(b, n) ==> a == b && m == n)
    && (forall a, m :: env.validHash(env.requestHash(a, m)))
  }

  datatype Error =
    | ForeignRequest | CountOverflow | Corrupt | EpochRollback | StaleTip | AlreadyConsumed | WriteFailed

  function ReceiptFor(env: Env, q: WitnessConsume, count: nat, prior: Option<Digest>): WitnessReceipt {
    WitnessReceipt(FORMAT, env.config.namespace, env.config.caseId, q.registryEpoch, count, prior,
                   env.requestHash(q, count), q.authorizationId, q.nonce, q.signedDecision, false, false)
  }

  predicate ValidRequest(env: Env, q: WitnessConsume) {
    && q.format == FORMAT && q.namespace == env.config.namespace && q.caseId == env.config.caseId
    && q.rootKey == env.config.rootKey && q.registryEpoch != 0
    && q.authorizationId != "" && |q.authorizationId| <= 256
    && (forall i :: 0 <= i < |q.authorizationId| ==> !IsControl(q.authorizationId[i]))
    && env.validHash(q.nonce) && env.validHash(q.signedDecision)
    && (q.expectedTip.Some? ==> env.validHash(q.expectedTip.value))
  }

  datatype State = State(
    entries: seq<Entry>, previous: Option<Digest>, tip: Option<Digest>, epoch: nat,
    ids: set<string>, nonces: set<Digest>)

  function Blank(env: Env): State {
    State([], None, None, env.config.initialEpoch, {}, {})
  }

  function Apply(env: Env, s: State, f: File<Entry>): Result<State, Error> {
    if CheckedAdd1(|s.entries|).None? then Err(CountOverflow)
    else if f.Torn? || f.entry.index != |s.entries| + 1 || f.entry.priorEntry != s.previous then Err(Corrupt)
    else
      var q := f.entry.request;
      if !ValidRequest(env, q) then Err(ForeignRequest)
      else if || q.registryEpoch < s.epoch || q.expectedTip != s.tip
              || q.authorizationId in s.ids || q.nonce in s.nonces
      then Err(AlreadyConsumed)
      else if f.entry.receipt != ReceiptFor(env, q, |s.entries| + 1, s.tip) then Err(Corrupt)
      else Ok(State(s.entries + [f.entry], Some(env.entryHash(f.entry)), Some(f.entry.receipt.tip),
                    q.registryEpoch, s.ids + {q.authorizationId}, s.nonces + {q.nonce}))
  }

  function Step(env: Env): (State, File<Entry>) -> Result<State, Error> {
    (s: State, f: File<Entry>) => Apply(env, s, f)
  }

  function Replay(env: Env, j: Journal): Result<State, Error> {
    Run(Step(env), Blank(env), j)
  }

  lemma ReplaySnoc(env: Env, j: Journal, f: File<Entry>)
    ensures Replay(env, j + [f]) ==
            match Replay(env, j) case Err(e) => Err(e) case Ok(s) => Apply(env, s, f)
  {
    RunSnoc(Step(env), Blank(env), j, f);
  }

  // What a spend checks before it writes its entry.
  function CheckConsume(env: Env, j: Journal, q: WitnessConsume): Result<Entry, Error> {
    if !ValidRequest(env, q) then Err(ForeignRequest)
    else
      match Replay(env, j)
      case Err(e) => Err(e)
      case Ok(s) =>
        if q.registryEpoch < s.epoch then Err(EpochRollback)
        else if q.expectedTip != s.tip then Err(StaleTip)
        else if q.authorizationId in s.ids || q.nonce in s.nonces then Err(AlreadyConsumed)
        else if CheckedAdd1(|s.entries|).None? then Err(CountOverflow)
        else Ok(Entry(|s.entries| + 1, s.previous, q, ReceiptFor(env, q, |s.entries| + 1, s.tip)))
  }

  function Consume(env: Env, j: Journal, q: WitnessConsume, fault: Fault): (Result<WitnessReceipt, Error>, Journal) {
    match CheckConsume(env, j, q)
    case Err(e) => (Err(e), j)
    case Ok(entry) => (if fault == NoFault then Ok(entry.receipt) else Err(WriteFailed), WriteNext(j, entry, fault))
  }

  // The receipt of the first entry with the given authorization.
  function Find(entries: seq<Entry>, id: string): Option<WitnessReceipt> {
    if entries == [] then None
    else if entries[0].request.authorizationId == id then Some(entries[0].receipt)
    else Find(entries[1..], id)
  }

  function Lookup(env: Env, j: Journal, id: string): Result<Option<WitnessReceipt>, Error> {
    match Replay(env, j) case Err(e) => Err(e) case Ok(s) => Ok(Find(s.entries, id))
  }

  // ----- The durable object

  class DurableScratchWitness {
    const env: Env
    var journal: Journal

    constructor (env: Env)
      ensures this.env == env && journal == []
    {
      this.env := env;
      journal := [];
    }

    method ReplayAll() returns (r: Result<State, Error>)
      ensures r == Replay(env, journal)
    {
      var entries: seq<Entry> := [];
      var previous, tip, epoch := None, None, env.config.initialEpoch;
      var ids: set<string> := {};
      var nonces: set<Digest> := {};
      for i := 0 to |journal|
        invariant |entries| == i && Replay(env, journal[..i]) == Ok(State(entries, previous, tip, epoch, ids, nonces))
      {
        var f := journal[i];
        assert journal[..i + 1] == journal[..i] + [f];
        ReplaySnoc(env, journal[..i], f);
        assert journal == journal[..i + 1] + journal[i + 1..];
        RunConcat(Step(env), Blank(env), journal[..i + 1], journal[i + 1..]);
        if CheckedAdd1(i).None? { return Err(CountOverflow); }
        if f.Torn? || f.entry.index != i + 1 || f.entry.priorEntry != previous { return Err(Corrupt); }
        var q := f.entry.request;
        if !ValidRequest(env, q) { return Err(ForeignRequest); }
        if q.registryEpoch < epoch || q.expectedTip != tip || q.authorizationId in ids || q.nonce in nonces {
          return Err(AlreadyConsumed);
        }
        var expected := ReceiptFor(env, q, i + 1, tip);
        if f.entry.receipt != expected { return Err(Corrupt); }
        previous, tip, epoch := Some(env.entryHash(f.entry)), Some(expected.tip), q.registryEpoch;
        ids, nonces, entries := ids + {q.authorizationId}, nonces + {q.nonce}, entries + [f.entry];
      }
      assert journal[..|journal|] == journal;
      r := Ok(State(entries, previous, tip, epoch, ids, nonces));
    }

    method LookupSpend(id: string) returns (r: Result<Option<WitnessReceipt>, Error>)
      ensures r == Lookup(env, journal, id)
    {
      var s := ReplayAll();
      if s.Err? { return Err(s.error); }
      var entries := s.value.entries;
      for i := 0 to |entries|
        invariant Find(entries, id) == Find(entries[i..], id)
      {
        assert entries[i..][1..] == entries[i + 1..];
        if entries[i].request.authorizationId == id { return Ok(Some(entries[i].receipt)); }
      }
      r := Ok(None);
    }

    method ConsumeSpend(q: WitnessConsume, fault: Fault) returns (r: Result<WitnessReceipt, Error>)
      modifies this`journal
      ensures (r, journal) == Consume(env, old(journal), q, fault)
    {
      if !ValidRequest(env, q) { return Err(ForeignRequest); }
      var replayed := ReplayAll();
      if replayed.Err? { return Err(replayed.error); }
      var s := replayed.value;
      if q.registryEpoch < s.epoch { return Err(EpochRollback); }
      if q.expectedTip != s.tip { return Err(StaleTip); }
      if q.authorizationId in s.ids || q.nonce in s.nonces { return Err(AlreadyConsumed); }
      if CheckedAdd1(|s.entries|).None? { return Err(CountOverflow); }
      var receipt := ReceiptFor(env, q, |s.entries| + 1, s.tip);
      journal := WriteNext(journal, Entry(|s.entries| + 1, s.previous, q, receipt), fault);
      r := if fault == NoFault then Ok(receipt) else Err(WriteFailed);
    }
  }

  // ----- What a replayable journal promises

  // The tip a journal ends in, read off its last receipt.
  function TipAfter(j: Journal): Option<Digest> {
    if j == [] || j[|j| - 1].Torn? then None else Some(j[|j| - 1].entry.receipt.tip)
  }

  // The replayed fields of a readable journal.
  lemma {:induction false} ReplayShape(env: Env, j: Journal)
    requires Replay(env, j).Ok?
    ensures var s := Replay(env, j).value;
            && |s.entries| == |j|
            && (forall i :: 0 <= i < |j| ==> j[i] == Whole(s.entries[i]))
            && s.tip == TipAfter(j)
            && (forall i :: 0 <= i < |j| ==> s.entries[i].request.authorizationId in s.ids
                                             && s.entries[i].request.nonce in s.nonces
                                             && s.entries[i].request.registryEpoch <= s.epoch)
    decreases |j|
  {
    if j != [] {
      var n := |j| - 1;
      assert j == j[..n] + [j[n]];
      ReplaySnoc(env, j[..n], j[n]);
      ReplayShape(env, j[..n]);
    }
  }

  // The remembered identities are the ones the entries carry.
  lemma {:induction false} SpentAre(env: Env, j: Journal, id: string, nonce: Digest)
    requires Replay(env, j).Ok?
    ensures id in Replay(env, j).value.ids <==>
            exists i :: 0 <= i < |j| && j[i].Whole? && j[i].entry.request.authorizationId == id
    ensures nonce in Replay(env, j).value.nonces <==>
            exists i :: 0 <= i < |j| && j[i].Whole? && j[i].entry.request.nonce == nonce
    decreases |j|
  {
    if j != [] {
      var n := |j| - 1;
      var p := j[..n];
      assert j == p + [j[n]];
      ReplaySnoc(env, p, j[n]);
      SpentAre(env, p, id, nonce);
      assert forall i :: 0 <= i < n ==> j[i] == p[i];
    }
  }

  // Every entry carries the receipt made for its own request at its own position,
  // and no later entry repeats its authorization or nonce or falls below its epoch.
  lemma {:induction false} EntriesFacts(env: Env, j: Journal, i: nat, k: nat)
    requires Replay(env, j).Ok? && i < |j| && k < |j|
    ensures j[i].Whole? && j[i].entry.index == i + 1 && ValidRequest(env, j[i].entry.request)
    ensures j[i].entry.request.expectedTip == TipAfter(j[..i])
    ensures j[i].entry.receipt == ReceiptFor(env, j[i].entry.request, i + 1, j[i].entry.request.expectedTip)
    ensures i < k ==> && j[k].Whole? && j[i].entry.request.authorizationId != j[k].entry.request.authorizationId
                      && j[i].entry.request.nonce != j[k].entry.request.nonce
                      && j[i].entry.request.registryEpoch <= j[k].entry.request.registryEpoch
    decreases |j|
  {
    var n := |j| - 1;
    var p := j[..n];
    assert j == p + [j[n]];
    ReplaySnoc(env, p, j[n]);
    ReplayShape(env, p);
    if i < n {
      EntriesFacts(env, p, i, if k < n then k else i);
      assert p[..i] == j[..i];
      assert p[i] == j[i];
    }
  }

  // The count and tip a witness reports pin its whole history, file by file.
  lemma {:induction false} TipPinsHistory(env: Env, a: Journal, b: Journal)
    requires Sound(env) && Replay(env, a).Ok? && Replay(env, b).Ok?
    requires |a| == |b| && Replay(env, a).value.tip == Replay(env, b).value.tip
    ensures a == b
    decreases |a|
  {
    if a != [] {
      var n := |a| - 1;
      assert a == a[..n] + [a[n]] && b == b[..n] + [b[n]];
      ReplaySnoc(env, a[..n], a[n]);
      ReplaySnoc(env, b[..n], b[n]);
      ReplayShape(env, a);
      ReplayShape(env, b);
      ReplayShape(env, a[..n]);
      ReplayShape(env, b[..n]);
      assert a[n].entry.request == b[n].entry.request;
      TipPinsHistory(env, a[..n], b[..n]);
    }
  }

  lemma {:induction false} FindExact(entries: seq<Entry>, id: string)
    ensures match Find(entries, id)
            case None => forall i :: 0 <= i < |entries| ==> entries[i].request.authorizationId != id
            case Some(r) => exists i :: 0 <= i < |entries| && entries[i].request.authorizationId == id && entries[i].receipt == r
  {
    if entries != [] {
      FindExact(entries[1..], id);
      var rest := entries[1..];
      assert forall i :: 0 < i < |entries| ==> entries[i] == rest[i - 1];
      if entries[0].request.authorizationId != id && Find(rest, id).Some? {
        var i: nat :| i < |rest| && rest[i].request.authorizationId == id && rest[i].receipt == Find(rest, id).value;
        assert entries[i + 1] == rest[i];
      }
    }
  }

  // A lookup on a readable journal returns the receipt of the one entry that
  // spent the authorization, and nothing when no entry did.
  lemma LookupExact(env: Env, j: Journal, id: string, i: nat)
    requires Replay(env, j).Ok? && i < |j| && j[i].Whole?
    ensures Lookup(env, j, id) == Ok(Some(j[i].entry.receipt)) <==> j[i].entry.request.authorizationId == id
  {
    ReplayShape(env, j);
    var entries := Replay(env, j).value.entries;
    FindExact(entries, id);
    EntriesFacts(env, j, i, i);
    if Find(entries, id).Some? {
      var k: nat :| k < |entries| && entries[k].request.authorizationId == id && entries[k].receipt == Find(entries, id).value;
      EntriesFacts(env, j, k, k);
      if i < k { EntriesFacts(env, j, i, k); } else if k < i { EntriesFacts(env, j, k, i); }
    }
  }

  lemma LookupMisses(env: Env, j: Journal, id: string)
    requires Replay(env, j).Ok?
    ensures Lookup(env, j, id) == Ok(None) <==> id !in Replay(env, j).value.ids
  {
    ReplayShape(env, j);
    SpentAre(env, j, id, 0);
    FindExact(Replay(env, j).value.entries, id);
  }

  // A spend that passes its guards and is written whole leaves a readable journal
  // one entry longer.
  lemma ConsumeAppends(env: Env, j: Journal, q: WitnessConsume)
    requires CheckConsume(env, j, q).Ok?
    ensures Replay(env, j + [Whole(CheckConsume(env, j, q).value)]).Ok?
  {
    ReplaySnoc(env, j, Whole(CheckConsume(env, j, q).value));
  }

  // ----- A journal read entry by entry

  // A request for this witness's own case, named and with proper digests.
  predicate RequestTerms(env: Env, q: WitnessConsume) {
    && q.format == "GALIA_NONCANONICAL_WITNESS_V1"
    && q.namespace == env.config.namespace && q.caseId == env.config.caseId && q.rootKey == env.config.rootKey
    && q.registryEpoch > 0 && 0 < |q.authorizationId| <= 256 && (forall c :: c in q.authorizationId ==> !IsControl(c))
    && env.validHash(q.nonce) && env.validHash(q.signedDecision)
    && (q.expectedTip.Some? ==> env.validHash(q.expectedTip.value))
  }

  // The receipt says what was spent, at which count, and after which tip; it grants nothing.
  predicate ReceiptTerms(env: Env, q: WitnessConsume, count: nat, prior: Option<Digest>, r: WitnessReceipt) {
    && r.format == "GALIA_NONCANONICAL_WITNESS_V1" && r.namespace == env.config.namespace && r.caseId == env.config.caseId
    && r.registryEpoch == q.registryEpoch && r.authorizationId == q.authorizationId
    && r.nonce == q.nonce && r.signedDecision == q.signedDecision
    && r.spentCount == count && r.priorTip == prior && r.tip == env.requestHash(q, count)
    && !r.canonicalWriteback && !r.authorityTransfer
  }

  // What is still to spend after the entries so far: nothing of theirs, at no lower epoch.
  predicate Fresh(env: Env, j: Journal, q: WitnessConsume) {
    && q.registryEpoch >= env.config.initialEpoch
    && forall k :: 0 <= k < |j| && j[k].Whole? ==>
         && j[k].entry.request.authorizationId != q.authorizationId && j[k].entry.request.nonce != q.nonce
         && j[k].entry.request.registryEpoch <= q.registryEpoch
  }

  function SealOf(env: Env, j: Journal): Option<Digest> {
    if j == [] || j[|j| - 1].Torn? then None else Some(env.entryHash(j[|j| - 1].entry))
  }

  // The entry that records a request after these entries.
  predicate EntryTerms(env: Env, j: Journal, e: Entry, q: WitnessConsume) {
    && e.index == |j| + 1 && e.priorEntry == SealOf(env, j) && e.request == q
    && ReceiptTerms(env, q, |j| + 1, TipAfter(j), e.receipt)
  }

  ghost predicate LawfulEntry(env: Env, j: Journal, i: nat)
    requires i < |j|
  {
    && j[i].Whole? && i + 1 <= U64_MAX
    && RequestTerms(env, j[i].entry.request) && j[i].entry.request.expectedTip == TipAfter(j[..i])
    && Fresh(env, j[..i], j[i].entry.request) && EntryTerms(env, j[..i], j[i].entry, j[i].entry.request)
  }

  // What the replayed fields say about the entries.
  ghost predicate StateOf(env: Env, j: Journal, s: State) {
    && |s.entries| == |j| && s.previous == SealOf(env, j) && s.tip == TipAfter(j)
    && forall q :: Fresh(env, j, q) <==> q.registryEpoch >= s.epoch && q.authorizationId !in s.ids && q.nonce !in s.nonces
  }

  lemma RequestIff(env: Env, q: WitnessConsume)
    ensures ValidRequest(env, q) <==> RequestTerms(env, q)
  {
    forall i | 0 <= i < |q.authorizationId| ensures q.authorizationId[i] in q.authorizationId {
    }
  }

  lemma FreshSnoc(env: Env, j: Journal, f: File<Entry>, q: WitnessConsume)
    ensures Fresh(env, j + [f], q) <==>
            Fresh(env, j, q)
            && (f.Whole? ==>
                  && f.entry.request.authorizationId != q.authorizationId && f.entry.request.nonce != q.nonce
                  && f.entry.request.registryEpoch <= q.registryEpoch)
  {
    var all := j + [f];
    assert forall k :: 0 <= k < |j| ==> all[k] == j[k];
    assert all[|j|] == f;
  }

  lemma LawfulNext(env: Env, j: Journal, s: State, f: File<Entry>)
    requires StateOf(env, j, s)
    ensures Apply(env, s, f).Ok? <==> LawfulEntry(env, j + [f], |j|)
    ensures Apply(env, s, f).Ok? ==> StateOf(env, j + [f], Apply(env, s, f).value)
  {
    hide ValidRequest, RequestTerms, Fresh;
    assert (j + [f])[..|j|] == j;
    if f.Whole? {
      RequestIff(env, f.entry.request);
      if Apply(env, s, f).Ok? {
        assert Fresh(env, j, f.entry.request);
        forall q ensures Fresh(env, j + [f], q) <==>
                         Fresh(env, j, q) && f.entry.request.authorizationId != q.authorizationId
                         && f.entry.request.nonce != q.nonce && f.entry.request.registryEpoch <= q.registryEpoch
        {
          FreshSnoc(env, j, f, q);
        }
      }
    }
  }

  lemma NoEntries(env: Env)
    ensures Replay(env, []) == Ok(Blank(env)) && StateOf(env, [], Blank(env))
  {
  }

  // A witness journal replays exactly when every entry is lawful where it stands: for
  // this case, after the tip it expected, of something not yet spent, at no lower
  // epoch, with the receipt for just that.
  lemma {:induction false} ReplayIffLawful(env: Env, j: Journal)
    ensures Replay(env, j).Ok? <==> forall i :: 0 <= i < |j| ==> LawfulEntry(env, j, i)
    ensures Replay(env, j).Ok? ==> StateOf(env, j, Replay(env, j).value)
    decreases |j|
  {
    hide Replay, StateOf, Apply, RequestTerms, Fresh, EntryTerms;
    if j == [] {
      NoEntries(env);
    } else {
      var n := |j| - 1;
      var p := j[..n];
      assert j == p + [j[n]];
      ReplaySnoc(env, p, j[n]);
      ReplayIffLawful(env, p);
      forall i | 0 <= i < n ensures LawfulEntry(env, j, i) <==> LawfulEntry(env, p, i) {
        assert j[..i] == p[..i];
      }
      if Replay(env, p).Ok? {
        LawfulNext(env, p, Replay(env, p).value, j[n]);
      } else {
        var i: nat :| i < n && !LawfulEntry(env, p, i);
        assert !LawfulEntry(env, j, i);
      }
    }
  }

  // A spend goes through exactly on a journal that can be read, for a request of this
  // case that expects its tip and spends something fresh; the entry it leaves is the
  // request's, and what it returns is that entry's receipt.
  lemma ConsumeExact(env: Env, j: Journal, q: WitnessConsume, fault: Fault)
    ensures var (r, j') := Consume(env, j, q, fault);
            && (r.Ok? <==>
                && fault == NoFault && Replay(env, j).Ok? && |j| < U64_MAX
                && RequestTerms(env, q) && q.expectedTip == TipAfter(j) && Fresh(env, j, q))
            && (j' == j || j' == j + [Torn]
                || (|j'| == |j| + 1 && j'[..|j|] == j && j'[|j|].Whole? && EntryTerms(env, j, j'[|j|].entry, q)))
            && (r.Ok? ==> |j'| == |j| + 1 && j'[|j|].Whole? && r.value == j'[|j|].entry.receipt)
  {
    hide Replay, RequestTerms, Fresh, ValidRequest;
    RequestIff(env, q);
    ReplayIffLawful(env, j);
  }
}
