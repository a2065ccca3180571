// The epoch-fencing journal of rust/galia-core/src/fenced_coordinator.rs: what
// one record may do to the replayed state, and what every replayable journal obeys.
module Fencing {
  import opened Base
  import opened Chains

  const FORMAT := "GALIA_NONCANONICAL_EPOCH_FENCING_V1"
  const MAX_RESPONSE: nat := 1024 * 1024

  datatype FencingScope = FencingScope(
    namespace: string, caseId: string, serviceId: string,
    observerPolicy: Digest, responseSigner: string)

  datatype EpochGrant = EpochGrant(hostId: string, epoch: nat)

  datatype FencingCheckpoint = FencingCheckpoint(
    recordCount: nat, tip: Option<Digest>, active: Option<EpochGrant>, nonceClaims: nat)

  const GENESIS := FencingCheckpoint(0, None, None, 0)

  datatype FencingAction =
    | AcquireEpoch(grant: EpochGrant)
    | ConsumeNonce(grant: EpochGrant, nonce: Digest)
    | CommitResponse(grant: EpochGrant, nonce: Digest, responseHash: Digest, response: string)

  datatype FencingEntry = FencingEntry(
    format: string, sequence: nat, previous: Option<Digest>, action: FencingAction)

  type Journal = seq<File<FencingEntry>>

  // The part of a signed checkpoint response that the coordinator looks at.
  datatype SignedResponse = SignedResponse(nonce: Digest, serviceId: string, signature: string)

  // The fixed surroundings of one coordinator: its pinned scope, the digest of a
  // record file, of a response text and the shape check on digests, the strict
  // canonical-JSON reader of responses, and detached signature verification.
  datatype Env = Env(
    scope: FencingScope,
    fileHash: File<FencingEntry> -> Digest,
    textHash: string -> Digest,
    validHash: Digest -> bool,
    readResponse: string -> Option<SignedResponse>,
    verify: (string, SignedResponse) -> bool)

  // SHA-256 is collision free on the files at hand and writes well-shaped digests.
  ghost predicate Sound(env: Env) {
    && Injective(env.fileHash)
    && (forall f :: env.validHash(env.fileHash(f)))
  }

  predicate ValidCheckpoint(validHash: Digest -> bool, c: FencingCheckpoint) {
    && (c.recordCount == 0 <==> c.tip.None?)
    && (c.tip.Some? ==> validHash(c.tip.value))
    && c.nonceClaims <= c.recordCount
    && (c.recordCount == 0 <==> c.active.None?)
    && (c.active.Some? ==> c.active.value.epoch != 0 && ValidId(c.active.value.hostId))
  }

  datatype State = State(
    count: nat, tip: Option<Digest>, epoch: nat, active: Option<EpochGrant>,
    nonces: set<Digest>, committed: map<Digest, string>, committedHost: map<Digest, string>,
    prefix: seq<FencingCheckpoint>)
  {
    function Checkpoint(): FencingCheckpoint {
      FencingCheckpoint(count, tip, active, |nonces|)
    }
  }

  const BLANK := State(0, None, 0, None, {}, map[], map[], [])

  datatype Error =
    | SequenceOverflow | ChainMismatch | EpochOverflow | EpochRollback
    | ClaimRejected | CommitInvalid | NotCanonical | WrongTranscript | BadSignature
    | NonceReused | InvalidHolder | EpochCasFailed | InvalidNonce | StaleHolder
    | AnchorRejected | WriteFailed | BelowFloor | Diverged | InvalidCheckpoint

  // What an action does to the fencing state, before the record is counted.
  function ApplyAction(env: Env, s: State, a: FencingAction): Result<State, Error> {
    match a
    case AcquireEpoch(grant) =>
      if CheckedAdd1(s.epoch).None? then Err(EpochOverflow)
      else if !ValidId(grant.hostId) || Some(grant.epoch) != CheckedAdd1(s.epoch) then Err(EpochRollback)
      else Ok(s.(epoch := grant.epoch, active := Some(grant)))
    case ConsumeNonce(grant, nonce) =>
      if s.active != Some(grant) || !env.validHash(nonce) || nonce in s.nonces then Err(ClaimRejected)
      else Ok(s.(nonces := s.nonces + {nonce}))
    case CommitResponse(grant, nonce, responseHash, response) =>
      if || s.active != Some(grant) || !env.validHash(nonce) || !env.validHash(responseHash)
         || response == "" || |response| > MAX_RESPONSE || env.textHash(response) != responseHash
      then Err(CommitInvalid)
      else
        match env.readResponse(response)
        case None => Err(NotCanonical)
        case Some(signed) =>
          if signed.nonce != nonce || signed.serviceId != env.scope.serviceId then Err(WrongTranscript)
          else if !env.verify(env.scope.responseSigner, signed) then Err(BadSignature)
          else if nonce in s.nonces then Err(NonceReused)
          else Ok(s.(nonces := s.nonces + {nonce},
                     committed := s.committed[nonce := response],
                     committedHost := s.committedHost[nonce := grant.hostId]))
  }

  // One record: number, link and shape first, then the action, then the count,
  // the new tip and the checkpoint of the prefix that ends here.
  function Apply(env: Env, s: State, f: File<FencingEntry>): Result<State, Error> {
    if CheckedAdd1(s.count).None? then Err(SequenceOverflow)
    else if f.Torn? || f.entry.format != FORMAT || f.entry.sequence != s.count + 1 || f.entry.previous != s.tip then
      Err(ChainMismatch)
    else
      match ApplyAction(env, s, f.entry.action)
      case Err(e) => Err(e)
      case Ok(t) =>
        var u := t.(count := s.count + 1, tip := Some(env.fileHash(f)));
        Ok(u.(prefix := s.prefix + [u.Checkpoint()]))
  }

  function Step(env: Env): (State, File<FencingEntry>) -> Result<State, Error> {
    (s: State, f: File<FencingEntry>) => Apply(env, s, f)
  }

  function Replay(env: Env, j: Journal): Result<State, Error> {
    Run(Step(env), BLANK, j)
  }

  lemma ReplaySnoc(env: Env, j: Journal, f: File<FencingEntry>)
    ensures Replay(env, j + [f]) ==
            match Replay(env, j) case Err(e) => Err(e) case Ok(s) => Apply(env, s, f)
  {
    RunSnoc(Step(env), BLANK, j, f);
  }

  function PreviousOf(f: File<FencingEntry>): Option<Digest> {
    if f.Torn? then None else f.entry.previous
  }

  // ----- Reading a journal without replaying it

  predicate IsAcquire(f: File<FencingEntry>) {
    f.Whole? && f.entry.action.AcquireEpoch?
  }

  predicate IsSpend(f: File<FencingEntry>) {
    f.Whole? && !f.entry.action.AcquireEpoch?
  }

  // The latest acquisition among the first n records, if there is one.
  ghost predicate LatestGrant(j: Journal, n: nat, grant: EpochGrant) {
    n <= |j| && exists k :: LatestGrantAt(j, n, k, grant)
  }

  ghost predicate LatestGrantAt(j: Journal, n: nat, k: nat, grant: EpochGrant) {
    && k < n <= |j| && IsAcquire(j[k]) && j[k].entry.action.grant == grant
    && forall m :: k < m < n ==> !IsAcquire(j[m])
  }

  function Acquisitions(j: Journal): nat {
    if j == [] then 0 else Acquisitions(j[..|j| - 1]) + if IsAcquire(j[|j| - 1]) then 1 else 0
  }

  predicate Spends(f: File<FencingEntry>, nonce: Digest) {
    IsSpend(f) && f.entry.action.nonce == nonce
  }

  // The content rules of an action, apart from epochs, holders and reuse.
  predicate WellFormedAction(env: Env, a: FencingAction) {
    match a
    case AcquireEpoch(grant) => ValidId(grant.hostId)
    case ConsumeNonce(_, nonce) => env.validHash(nonce)
    case CommitResponse(_, nonce, responseHash, response) =>
      && env.validHash(nonce) && env.validHash(responseHash)
      && 0 < |response| <= MAX_RESPONSE && env.textHash(response) == responseHash
      && env.readResponse(response).Some?
      && env.readResponse(response).value.nonce == nonce
      && env.readResponse(response).value.serviceId == env.scope.serviceId
      && env.verify(env.scope.responseSigner, env.readResponse(response).value)
  }

  // The fencing law, record by record: numbered and linked; the n-th acquisition
  // takes epoch n; every spend carries the grant of the latest acquisition before
  // it; no nonce is spent twice.
  ghost predicate Lawful(env: Env, j: Journal, i: nat)
    requires i < |j|
  {
    && j[i].Whole? && j[i].entry.format == FORMAT && j[i].entry.sequence == i + 1 <= U64_MAX
    && j[i].entry.previous == Tip(env.fileHash, None, j[..i])
    && WellFormedAction(env, j[i].entry.action)
    && (IsAcquire(j[i]) ==> j[i].entry.action.grant.epoch == Acquisitions(j[..i]) + 1)
    && (IsSpend(j[i]) ==> LatestGrant(j, i, j[i].entry.action.grant))
    && (IsSpend(j[i]) ==> forall k :: 0 <= k < i ==> !Spends(j[k], j[i].entry.action.nonce))
  }

  ghost predicate LawfulJournal(env: Env, j: Journal) {
    forall i :: 0 <= i < |j| ==> Lawful(env, j, i)
  }

  ghost predicate Spent(j: Journal, x: Digest) {
    exists k :: 0 <= k < |j| && Spends(j[k], x)
  }

  // The replayed state, read off the journal.
  ghost predicate StateOf(env: Env, j: Journal, s: State) {
    && s.count == |j| && s.tip == Tip(env.fileHash, None, j)
    && s.epoch == Acquisitions(j) && s.count == s.epoch + |s.nonces|
    && (s.active.None? <==> j == [])
    && (s.active.Some? ==> LatestGrant(j, |j|, s.active.value) && s.active.value.epoch == s.epoch > 0 && ValidId(s.active.value.hostId))
    && (forall x :: x in s.nonces <==> Spent(j, x))
    && |s.prefix| == |j|
  }

  lemma LawfulPrefix(env: Env, j: Journal, n: nat, i: nat)
    requires i < n <= |j|
    ensures Lawful(env, j, i) <==> Lawful(env, j[..n], i)
  {
    var p := j[..n];
    assert p[..i] == j[..i];
    if IsSpend(j[i]) {
      var g := j[i].entry.action.grant;
      if LatestGrant(j, i, g) {
        var k: nat :| LatestGrantAt(j, i, k, g);
        assert LatestGrantAt(p, i, k, g);
      }
      if LatestGrant(p, i, g) {
        var k: nat :| LatestGrantAt(p, i, k, g);
        assert LatestGrantAt(j, i, k, g);
      }
    }
  }

  lemma LatestGrantUnique(j: Journal, n: nat, a: EpochGrant, b: EpochGrant)
    requires LatestGrant(j, n, a) && LatestGrant(j, n, b)
    ensures a == b
  {
    var k: nat :| LatestGrantAt(j, n, k, a);
    var m: nat :| LatestGrantAt(j, n, m, b);
    assert k == m;
  }

  lemma LatestGrantSnoc(j: Journal, f: File<FencingEntry>, g: EpochGrant)
    ensures IsAcquire(f) && f.entry.action.grant == g ==> LatestGrant(j + [f], |j| + 1, g)
    ensures !IsAcquire(f) && LatestGrant(j, |j|, g) ==> LatestGrant(j + [f], |j| + 1, g)
  {
    var p := j + [f];
    if IsAcquire(f) && f.entry.action.grant == g {
      assert LatestGrantAt(p, |p|, |j|, g);
    }
    if !IsAcquire(f) && LatestGrant(j, |j|, g) {
      var k: nat :| LatestGrantAt(j, |j|, k, g);
      assert LatestGrantAt(p, |p|, k, g);
    }
  }

  lemma SpentSnoc(j: Journal, f: File<FencingEntry>, x: Digest)
    ensures Spent(j + [f], x) <==> Spent(j, x) || Spends(f, x)
  {
    var p := j + [f];
    if Spent(j, x) {
      var k :| 0 <= k < |j| && Spends(j[k], x);
      assert Spends(p[k], x);
    }
    if Spends(f, x) {
      assert Spends(p[|j|], x);
    }
  }

  // The holder of the replayed state is the latest acquisition of the journal.
  lemma HolderIsLatest(env: Env, j: Journal, s: State, f: File<FencingEntry>, g: EpochGrant)
    requires StateOf(env, j, s)
    ensures LatestGrant(j + [f], |j|, g) <==> s.active == Some(g)
  {
    var p := j + [f];
    if LatestGrant(p, |j|, g) {
      var k: nat :| LatestGrantAt(p, |j|, k, g);
      assert forall m: nat :: k < m < |j| ==> p[m] == j[m];
      assert LatestGrantAt(j, |j|, k, g);
      LatestGrantUnique(j, |j|, g, s.active.value);
    }
    if s.active == Some(g) {
      var k: nat :| LatestGrantAt(j, |j|, k, g);
      assert forall m: nat :: k < m < |j| ==> p[m] == j[m];
      assert LatestGrantAt(p, |j|, k, g);
    }
  }

  // Applying a record succeeds exactly when the record is lawful where it stands.
  lemma ApplyIffLawful(env: Env, j: Journal, s: State, f: File<FencingEntry>)
    requires StateOf(env, j, s)
    ensures Apply(env, s, f).Ok? <==> Lawful(env, j + [f], |j|)
  {
    var p := j + [f];
    assert p[..|j|] == j && p[|j|] == f;
    if IsSpend(f) {
      var x := f.entry.action.nonce;
      HolderIsLatest(env, j, s, f, f.entry.action.grant);
      assert forall k :: 0 <= k < |j| ==> p[k] == j[k];
      assert x !in s.nonces <==> forall k :: 0 <= k < |j| ==> !Spends(p[k], x);
    }
  }

  // What an accepted record does to each field.
  lemma ApplyFields(env: Env, s: State, f: File<FencingEntry>)
    requires Apply(env, s, f).Ok?
    ensures var t := Apply(env, s, f).value;
            && f.Whole? && t.count == s.count + 1 && t.tip == Some(env.fileHash(f)) && |t.prefix| == |s.prefix| + 1
            && (IsAcquire(f) ==>
                  && t.active == Some(f.entry.action.grant) && t.epoch == s.epoch + 1 == f.entry.action.grant.epoch
                  && ValidId(f.entry.action.grant.hostId) && t.nonces == s.nonces)
            && (!IsAcquire(f) ==>
                  && IsSpend(f) && t.active == s.active == Some(f.entry.action.grant) && t.epoch == s.epoch
                  && f.entry.action.nonce !in s.nonces && t.nonces == s.nonces + {f.entry.action.nonce})
  {
    hide ValidId;
  }

  lemma AcquisitionsSnoc(j: Journal, f: File<FencingEntry>)
    ensures Acquisitions(j + [f]) == Acquisitions(j) + if IsAcquire(f) then 1 else 0
  {
    assert (j + [f])[..|j|] == j;
  }

  lemma ApplyKeepsStateOf(env: Env, j: Journal, s: State, f: File<FencingEntry>)
    requires StateOf(env, j, s) && Apply(env, s, f).Ok?
    ensures StateOf(env, j + [f], Apply(env, s, f).value)
  {
    hide Apply, ValidId, LatestGrant, Spent, Acquisitions;
    var t := Apply(env, s, f).value;
    ApplyFields(env, s, f);
    AcquisitionsSnoc(j, f);
    LatestGrantSnoc(j, f, f.entry.action.grant);
    forall x ensures x in t.nonces <==> Spent(j + [f], x) {
      SpentSnoc(j, f, x);
    }
  }

  // Fencing law: a journal replays exactly when every record of it is lawful.
  lemma {:induction false} ReplayIffLawful(env: Env, j: Journal)
    ensures Replay(env, j).Ok? <==> LawfulJournal(env, j)
    ensures Replay(env, j).Ok? ==> StateOf(env, j, Replay(env, j).value)
    decreases |j|
  {
    if j != [] {
      var n := |j| - 1;
      var p := j[..n];
      assert j == p + [j[n]];
      ReplayIffLawful(env, p);
      ReplaySnoc(env, p, j[n]);
      forall i | 0 <= i < n ensures Lawful(env, j, i) <==> Lawful(env, p, i) {
        LawfulPrefix(env, j, n, i);
      }
      if Replay(env, p).Ok? {
        ApplyIffLawful(env, p, Replay(env, p).value, j[n]);
        if Replay(env, j).Ok? {
          ApplyKeepsStateOf(env, p, Replay(env, p).value, j[n]);
        }
      }
    }
  }
}
