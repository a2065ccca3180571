// The on-disk store of the checkpoint service:
// rust/galia-core/src/mtls_checkpoint_server.rs, ScratchCheckpointServiceStore.
module CheckpointService {
  import opened Base
  import opened Chains
  import X = ExternalCheckpoint

  const FORMAT := "GALIA_NONCANONICAL_MTLS_CHECKPOINT_SERVER_V1"
  const MAX_SUFFIX := 128

  datatype NonceClaim = NonceClaim(format: string, sequence: nat, previous: Option<Digest>, nonce: Digest, challenge: Digest)

  type Envelopes = seq<File<X.Envelope>>
  type Nonces = seq<File<NonceClaim>>

  // A service starts from an empty pinned genesis.
  datatype Env = Env(anchor: X.Env, trust: X.Trust, nonceHash: File<NonceClaim> -> Digest)

  ghost predicate Sound(env: Env) {
    && X.Sound(env.anchor) && Injective(env.nonceHash)
    && (forall f :: env.anchor.validHash(env.nonceHash(f)))
    && env.trust.floorSequence == 0 && env.trust.floorEnvelope.None?
    && env.trust.floorBoard == X.Board(0, None, false)
  }

  datatype Error =
    | Unreadable | Chain(error: X.Error) | NonceOverflow | NonceCorrupt | InvalidNonce | NonceConsumed
    | FloorAhead | FloorForeign | SuffixLength | InvalidSnapshot | Truncated | Diverged | WriteFailed

  // ----- The two journals

  function Decode(files: Envelopes): Option<seq<X.Envelope>> {
    if files == [] then Some([])
    else
      match Decode(files[..|files| - 1])
      case None => None
      case Some(es) => if files[|files| - 1].Torn? then None else Some(es + [files[|files| - 1].entry])
  }

  function Checkpoints(env: Env, files: Envelopes): Result<seq<X.Envelope>, Error> {
    match Decode(files)
    case None => Err(Unreadable)
    case Some(es) =>
      if es == [] then Ok([])
      else
        match X.VerifyChain(env.anchor, env.trust, es)
        case Err(e) => Err(Chain(e))
        case Ok(_) => Ok(es)
  }

  datatype NonceHistory = NonceHistory(count: nat, tip: Option<Digest>, seen: set<Digest>)

  function ApplyNonce(env: Env, s: NonceHistory, f: File<NonceClaim>): Result<NonceHistory, Error> {
    if f.Torn? then Err(Unreadable)
    else if CheckedAdd1(s.count).None? then Err(NonceOverflow)
    else if || f.entry.format != FORMAT || f.entry.sequence != s.count + 1 || f.entry.previous != s.tip
            || !env.anchor.validHash(f.entry.nonce) || !env.anchor.validHash(f.entry.challenge)
            || f.entry.nonce in s.seen
    then Err(NonceCorrupt)
    else Ok(NonceHistory(s.count + 1, Some(env.nonceHash(f)), s.seen + {f.entry.nonce}))
  }

  function NonceStep(env: Env): (NonceHistory, File<NonceClaim>) -> Result<NonceHistory, Error> {
    (s: NonceHistory, f: File<NonceClaim>) => ApplyNonce(env, s, f)
  }

  const NO_NONCES := NonceHistory(0, None, {})

  function ReplayNonces(env: Env, files: Nonces): Result<NonceHistory, Error> {
    Run(NonceStep(env), NO_NONCES, files)
  }

  // ----- Operations on the journals

  function AppendSigned(env: Env, files: Envelopes, e: X.Envelope, fault: Fault): (Result<nat, Error>, Envelopes) {
    match Checkpoints(env, files)
    case Err(x) => (Err(x), files)
    case Ok(es) =>
      match X.VerifyChain(env.anchor, env.trust, es + [e])
      case Err(x) => (Err(Chain(x)), files)
      case Ok(_) => (if fault == NoFault then Ok(|es| + 1) else Err(WriteFailed), WriteNext(files, e, fault))
  }

  function Suffix(env: Env, files: Envelopes, floor: nat, floorHash: Option<Digest>): Result<seq<X.Envelope>, Error> {
    match Checkpoints(env, files)
    case Err(x) => Err(x)
    case Ok(es) =>
      if floor > |es| then Err(FloorAhead)
      else if Tip(env.anchor.hash, None, es[..floor]) != floorHash then Err(FloorForeign)
      else if |es| == floor || |es| - floor > MAX_SUFFIX then Err(SuffixLength)
      else Ok(es[floor..])
  }

  function ClaimNonce(env: Env, files: Nonces, nonce: Digest, challenge: Digest, fault: Fault): (Result<(), Error>, Nonces) {
    if !env.anchor.validHash(nonce) || !env.anchor.validHash(challenge) then (Err(InvalidNonce), files)
    else
      match ReplayNonces(env, files)
      case Err(x) => (Err(x), files)
      case Ok(s) =>
        if nonce in s.seen then (Err(NonceConsumed), files)
        else if CheckedAdd1(s.count).None? then (Err(NonceOverflow), files)
        else
          (if fault == NoFault then Ok(()) else Err(WriteFailed),
           WriteNext(files, NonceClaim(FORMAT, s.count + 1, s.tip, nonce, challenge), fault))
  }

  datatype Snapshot = Snapshot(checkpoints: nat, checkpointTip: Option<Digest>, nonces: nat, nonceTip: Option<Digest>)

  predicate ValidSnapshot(env: Env, p: Snapshot) {
    && (p.checkpoints == 0 <==> p.checkpointTip.None?) && (p.nonces == 0 <==> p.nonceTip.None?)
    && (p.checkpointTip.Some? ==> env.anchor.validHash(p.checkpointTip.value))
    && (p.nonceTip.Some? ==> env.anchor.validHash(p.nonceTip.value))
  }

  function TakeSnapshot(env: Env, files: Envelopes, nonces: Nonces): Result<Snapshot, Error> {
    match Checkpoints(env, files)
    case Err(x) => Err(x)
    case Ok(es) =>
      match ReplayNonces(env, nonces)
      case Err(x) => Err(x)
      case Ok(s) =>
        var p := Snapshot(|es|, Tip(env.anchor.hash, None, es), s.count, s.tip);
        if ValidSnapshot(env, p) then Ok(p) else Err(InvalidSnapshot)
  }

  function VerifyFloor(env: Env, files: Envelopes, nonces: Nonces, p: Snapshot): Result<Snapshot, Error> {
    if !ValidSnapshot(env, p) then Err(InvalidSnapshot)
    else
      match Checkpoints(env, files)
      case Err(x) => Err(x)
      case Ok(es) =>
        match ReplayNonces(env, nonces)
        case Err(x) => Err(x)
        case Ok(s) =>
          if p.checkpoints > |es| || p.nonces > s.count then Err(Truncated)
          else if p.nonces > |nonces| then Err(Truncated)
          else if || Tip(env.anchor.hash, None, es[..p.checkpoints]) != p.checkpointTip
                  || Tip(env.nonceHash, None, nonces[..p.nonces]) != p.nonceTip
          then Err(Diverged)
          else TakeSnapshot(env, files, nonces)
  }

  // ----- Laws of the journals

  lemma {:induction false} DecodeFacts(files: Envelopes)
    ensures Decode(files).Some? ==>
              |Decode(files).value| == |files| && forall i :: 0 <= i < |files| ==> files[i] == Whole(Decode(files).value[i])
    decreases |files|
  {
    if files != [] {
      DecodeFacts(files[..|files| - 1]);
    }
  }

  function PreviousOf(f: File<NonceClaim>): Option<Digest> {
    if f.Torn? then None else f.entry.previous
  }

  predicate Claims(f: File<NonceClaim>, nonce: Digest) {
    f.Whole? && f.entry.nonce == nonce
  }

  ghost predicate Seen(files: Nonces, nonce: Digest) {
    exists i :: 0 <= i < |files| && Claims(files[i], nonce)
  }

  ghost predicate ClaimDiffers(files: Nonces, i: nat, k: nat)
    requires i < k < |files|
  {
    files[k].Whole? && !Claims(files[i], files[k].entry.nonce)
  }

  // No two claims are of one nonce.
  ghost predicate ClaimsDiffer(files: Nonces) {
    forall i: nat, k: nat :: i < k < |files| ==> ClaimDiffers(files, i, k)
  }

  lemma {:induction false} NonceFacts(env: Env, files: Nonces)
    requires ReplayNonces(env, files).Ok?
    ensures var s := ReplayNonces(env, files).value;
            && s.count == |files| && s.tip == Tip(env.nonceHash, None, files)
            && forall x :: x in s.seen <==> Seen(files, x)
    ensures Linked(env.nonceHash, PreviousOf, None, files)
    ensures ClaimsDiffer(files)
    decreases |files|
  {
    hide ReplayNonces, Seen, Linked, Claims;
    if files == [] {
      NoNonces(env);
    } else {
      var n := |files| - 1;
      var p := files[..n];
      assert files == p + [files[n]];
      NonceNext(env, p, files[n]);
      NonceFacts(env, p);
      LinkedSnoc(env.nonceHash, PreviousOf, None, p, files[n]);
      forall x ensures Seen(files, x) <==> Seen(p, x) || Claims(files[n], x) {
        SeenSnoc(p, files[n], x);
      }
      forall i: nat, k: nat | i < k < |files| ensures ClaimDiffers(files, i, k) {
        if k == n { ClaimSeen(p, i, files[n].entry.nonce); } else { assert ClaimDiffers(p, i, k) && files[i] == p[i] && files[k] == p[k]; }
      }
    }
  }

  lemma NoNonces(env: Env)
    ensures ReplayNonces(env, []) == Ok(NO_NONCES) && Linked(env.nonceHash, PreviousOf, None, [])
    ensures forall x :: !Seen([], x)
  {
  }

  // What one more claim adds to the replayed history.
  lemma NonceNext(env: Env, files: Nonces, f: File<NonceClaim>)
    requires ReplayNonces(env, files + [f]).Ok?
    ensures ReplayNonces(env, files).Ok?
    ensures var s, t := ReplayNonces(env, files).value, ReplayNonces(env, files + [f]).value;
            && f.Whole? && PreviousOf(f) == s.tip && f.entry.nonce !in s.seen
            && t == NonceHistory(s.count + 1, Some(env.nonceHash(f)), s.seen + {f.entry.nonce})
    ensures forall x :: Claims(f, x) <==> x == f.entry.nonce
  {
    RunSnoc(NonceStep(env), NO_NONCES, files, f);
  }

  lemma SeenSnoc(files: Nonces, f: File<NonceClaim>, x: Digest)
    ensures Seen(files + [f], x) <==> Seen(files, x) || Claims(f, x)
  {
    var all := files + [f];
    if i :| 0 <= i < |files| && Claims(files[i], x) {
      assert Claims(all[i], x);
    }
    if Claims(f, x) {
      assert Claims(all[|files|], x);
    }
  }

  lemma ClaimSeen(files: Nonces, i: nat, x: Digest)
    requires i < |files| && !Seen(files, x)
    ensures !Claims(files[i], x)
  {
  }

  // A nonce is claimed exactly when the journal is readable and holds no claim of
  // it; after any write outcome the earlier claims are still there.
  lemma ClaimExact(env: Env, files: Nonces, nonce: Digest, challenge: Digest, fault: Fault)
    ensures var (r, files') := ClaimNonce(env, files, nonce, challenge, fault);
            && (r.Ok? <==>
                && fault == NoFault && env.anchor.validHash(nonce) && env.anchor.validHash(challenge)
                && ReplayNonces(env, files).Ok? && !Seen(files, nonce) && |files| < U64_MAX)
            && (r.Ok? ==> ReplayNonces(env, files').Ok? && Seen(files', nonce))
            && |files| <= |files'| <= |files| + 1 && files'[..|files|] == files
  {
    var (r, files') := ClaimNonce(env, files, nonce, challenge, fault);
    if ReplayNonces(env, files).Ok? {
      NonceFacts(env, files);
      if r.Ok? {
        RunSnoc(NonceStep(env), NO_NONCES, files, files'[|files|]);
        assert Claims(files'[|files|], nonce);
      }
    }
  }

  // ----- Service and client

  // A suffix is served only over the service's own chain, to a client whose last
  // digest is the one that chain has there.
  lemma SuffixServed(env: Env, files: Envelopes, known: nat, tip: Option<Digest>)
    requires Suffix(env, files, known, tip).Ok?
    ensures Checkpoints(env, files).Ok?
    ensures var es := Checkpoints(env, files).value;
            && 0 < |es| - known <= MAX_SUFFIX && Suffix(env, files, known, tip).value == es[known..]
            && Tip(env.anchor.hash, None, es[..known]) == tip
  {
    hide Checkpoints;
  }

  // The digest of the last envelope a client knows pins all it knows: a client that
  // appends a served suffix to its own verified prefix holds the service's chain.
  lemma ClientHoldsServiceChain(env: Env, files: Envelopes, known: seq<X.Envelope>)
    requires Sound(env)
    requires known == [] || X.VerifyChain(env.anchor, env.trust, known).Ok?
    requires Suffix(env, files, |known|, Tip(env.anchor.hash, None, known)).Ok?
    ensures Checkpoints(env, files) == Ok(known + Suffix(env, files, |known|, Tip(env.anchor.hash, None, known)).value)
  {
    hide Checkpoints, Suffix, Linked, X.VerifyChain;
    var n := |known|;
    SuffixServed(env, files, n, Tip(env.anchor.hash, None, known));
    var es := Checkpoints(env, files).value;
    CheckpointsLinked(env, files);
    if n > 0 { VerifiedLinked(env, known); }
    EqualTips(env.anchor.hash, X.PreviousOf, known, es, n);
    assert known[..n] == known;
    assert es == es[..n] + es[n..];
  }

  // A suffix is served exactly to a client whose floor is on the service's chain.
  lemma SuffixExact(env: Env, files: Envelopes, known: seq<X.Envelope>)
    requires Sound(env)
    requires known == [] || X.VerifyChain(env.anchor, env.trust, known).Ok?
    ensures Suffix(env, files, |known|, Tip(env.anchor.hash, None, known)).Ok? <==>
            && Checkpoints(env, files).Ok?
            && var es := Checkpoints(env, files).value;
               0 < |es| - |known| <= MAX_SUFFIX && es[..|known|] == known
  {
    if Suffix(env, files, |known|, Tip(env.anchor.hash, None, known)).Ok? {
      ClientHoldsServiceChain(env, files, known);
    }
  }

  // ----- Floors over both journals

  function SnapshotAt(env: Env, es: seq<X.Envelope>, nonces: Nonces, m: nat, n: nat): Snapshot
    requires m <= |es| && n <= |nonces|
  {
    Snapshot(m, Tip(env.anchor.hash, None, es[..m]), n, Tip(env.nonceHash, None, nonces[..n]))
  }

  lemma EqualTips<E(!new)>(h: E -> Digest, prev: E -> Option<Digest>, a: seq<E>, b: seq<E>, n: nat)
    requires Injective(h) && n <= |a| && n <= |b|
    requires Linked(h, prev, None, a) && Linked(h, prev, None, b)
    ensures Tip(h, None, a[..n]) == Tip(h, None, b[..n]) <==> a[..n] == b[..n]
  {
    LinkedPrefix(h, prev, None, a, n);
    LinkedPrefix(h, prev, None, b, n);
    if Tip(h, None, a[..n]) == Tip(h, None, b[..n]) {
      TipPinsChain(h, prev, None, a[..n], b[..n]);
    }
  }

  lemma CheckpointsLinked(env: Env, files: Envelopes)
    requires Sound(env) && Checkpoints(env, files).Ok?
    ensures Linked(env.anchor.hash, X.PreviousOf, None, Checkpoints(env, files).value)
    ensures |Checkpoints(env, files).value| == |files|
  {
    hide X.VerifyChain;
    DecodeFacts(files);
    var es := Checkpoints(env, files).value;
    if es != [] {
      VerifiedLinked(env, es);
    }
  }

  lemma VerifiedLinked(env: Env, es: seq<X.Envelope>)
    requires Sound(env) && X.VerifyChain(env.anchor, env.trust, es).Ok?
    ensures Linked(env.anchor.hash, X.PreviousOf, None, es)
  {
    X.ChainLinked(env.anchor, env.trust, es);
  }

  // A snapshot of one store (at any heights it has passed) is accepted by another
  // exactly when that store is readable and begins with the same envelopes and the
  // same nonce claims.
  lemma FloorPinsBothPrefixes(env: Env, files: Envelopes, nonces: Nonces, m: nat, n: nat, files': Envelopes, nonces': Nonces)
    requires Sound(env) && Checkpoints(env, files).Ok? && ReplayNonces(env, nonces).Ok?
    requires m <= |Checkpoints(env, files).value| && n <= |nonces|
    ensures var es := Checkpoints(env, files).value;
            VerifyFloor(env, files', nonces', SnapshotAt(env, es, nonces, m, n)).Ok? <==>
            && Checkpoints(env, files').Ok? && ReplayNonces(env, nonces').Ok?
            && m <= |Checkpoints(env, files').value| && n <= |nonces'|
            && Checkpoints(env, files').value[..m] == es[..m] && nonces'[..n] == nonces[..n]
  {
    hide Checkpoints, ReplayNonces, Linked;
    var es := Checkpoints(env, files).value;
    CheckpointsLinked(env, files);
    NonceFacts(env, nonces);
    if Checkpoints(env, files').Ok? && ReplayNonces(env, nonces').Ok? {
      var es' := Checkpoints(env, files').value;
      CheckpointsLinked(env, files');
      NonceFacts(env, nonces');
      if m <= |es'| && n <= |nonces'| {
        EqualTips(env.anchor.hash, X.PreviousOf, es, es', m);
        EqualTips(env.nonceHash, PreviousOf, nonces, nonces', n);
      }
    }
  }

  // ----- The durable object

  class ScratchCheckpointServiceStore {
    const env: Env
    var checkpoints: Envelopes
    var nonces: Nonces

    constructor (env: Env)
      ensures this.env == env && checkpoints == [] && nonces == []
    {
      this.env := env;
      checkpoints, nonces := [], [];
    }

    method ReadCheckpoints() returns (r: Result<seq<X.Envelope>, Error>)
      ensures r == Checkpoints(env, checkpoints)
    {
      var es: seq<X.Envelope> := [];
      for i := 0 to |checkpoints|
        invariant Decode(checkpoints[..i]) == Some(es)
      {
        assert checkpoints[..i + 1][..i] == checkpoints[..i];
        if checkpoints[i].Torn? {
          TornUnreadable(checkpoints, i);
          return Err(Unreadable);
        }
        es := es + [checkpoints[i].entry];
      }
      assert checkpoints[..|checkpoints|] == checkpoints;
      if es == [] { return Ok([]); }
      var chain := X.VerifyAnchorChain(env.anchor, env.trust, es);
      r := if chain.Err? then Err(Chain(chain.error)) else Ok(es);
    }

    method ReadNonces() returns (r: Result<NonceHistory, Error>)
      ensures r == ReplayNonces(env, nonces)
    {
      var previous, seen: set<Digest>, count := None, {}, 0;
      for i := 0 to |nonces|
        invariant ReplayNonces(env, nonces[..i]) == Ok(NonceHistory(count, previous, seen))
      {
        assert nonces[..i + 1] == nonces[..i] + [nonces[i]];
        RunSnoc(NonceStep(env), NO_NONCES, nonces[..i], nonces[i]);
        assert nonces == nonces[..i + 1] + nonces[i + 1..];
        RunConcat(NonceStep(env), NO_NONCES, nonces[..i + 1], nonces[i + 1..]);
        var f := nonces[i];
        if f.Torn? { return Err(Unreadable); }
        if CheckedAdd1(count).None? { return Err(NonceOverflow); }
        if || f.entry.format != FORMAT || f.entry.sequence != count + 1 || f.entry.previous != previous
           || !env.anchor.validHash(f.entry.nonce) || !env.anchor.validHash(f.entry.challenge)
           || f.entry.nonce in seen {
          return Err(NonceCorrupt);
        }
        count, previous, seen := count + 1, Some(env.nonceHash(f)), seen + {f.entry.nonce};
      }
      assert nonces[..|nonces|] == nonces;
      r := Ok(NonceHistory(count, previous, seen));
    }

    method Append(e: X.Envelope, fault: Fault) returns (r: Result<nat, Error>)
      modifies this`checkpoints
      ensures (r, checkpoints) == AppendSigned(env, old(checkpoints), e, fault)
    {
      hide Checkpoints;
      var es := ReadCheckpoints();
      if es.Err? { return Err(es.error); }
      var chain := X.VerifyAnchorChain(env.anchor, env.trust, es.value + [e]);
      if chain.Err? { return Err(Chain(chain.error)); }
      checkpoints := WriteNext(checkpoints, e, fault);
      r := if fault == NoFault then Ok(|es.value| + 1) else Err(WriteFailed);
    }

    method ServeSuffix(floor: nat, floorHash: Option<Digest>) returns (r: Result<seq<X.Envelope>, Error>)
      ensures r == Suffix(env, checkpoints, floor, floorHash)
    {
      hide Checkpoints;
      var es := ReadCheckpoints();
      if es.Err? { return Err(es.error); }
      if floor > |es.value| { return Err(FloorAhead); }
      var existing := if floor == 0 then None else Some(env.anchor.hash(es.value[floor - 1]));
      if existing != floorHash { return Err(FloorForeign); }
      var suffix := es.value[floor..];
      if suffix == [] || |suffix| > MAX_SUFFIX { return Err(SuffixLength); }
      r := Ok(suffix);
    }

    method Claim(nonce: Digest, challenge: Digest, fault: Fault) returns (r: Result<(), Error>)
      modifies this`nonces
      ensures (r, nonces) == ClaimNonce(env, old(nonces), nonce, challenge, fault)
    {
      if !env.anchor.validHash(nonce) || !env.anchor.validHash(challenge) { return Err(InvalidNonce); }
      var s := ReadNonces();
      if s.Err? { return Err(s.error); }
      if nonce in s.value.seen { return Err(NonceConsumed); }
      if CheckedAdd1(s.value.count).None? { return Err(NonceOverflow); }
      nonces := WriteNext(nonces, NonceClaim(FORMAT, s.value.count + 1, s.value.tip, nonce, challenge), fault);
      r := if fault == NoFault then Ok(()) else Err(WriteFailed);
    }

    method Snap() returns (r: Result<Snapshot, Error>)
      ensures r == TakeSnapshot(env, checkpoints, nonces)
    {
      hide Checkpoints, ReplayNonces;
      var es := ReadCheckpoints();
      if es.Err? { return Err(es.error); }
      var s := ReadNonces();
      if s.Err? { return Err(s.error); }
      var tip := if es.value == [] then None else Some(env.anchor.hash(es.value[|es.value| - 1]));
      var p := Snapshot(|es.value|, tip, s.value.count, s.value.tip);
      r := if ValidSnapshot(env, p) then Ok(p) else Err(InvalidSnapshot);
    }

    method VerifyExternalFloor(p: Snapshot) returns (r: Result<Snapshot, Error>)
      ensures r == VerifyFloor(env, checkpoints, nonces, p)
    {
      hide Checkpoints, ReplayNonces;
      if !ValidSnapshot(env, p) { return Err(InvalidSnapshot); }
      var es := ReadCheckpoints();
      if es.Err? { return Err(es.error); }
      var s := ReadNonces();
      if s.Err? { return Err(s.error); }
      if p.checkpoints > |es.value| || p.nonces > s.value.count { return Err(Truncated); }
      var checkpointTip := if p.checkpoints == 0 then None else Some(env.anchor.hash(es.value[p.checkpoints - 1]));
      if p.nonces > |nonces| { return Err(Truncated); }
      var nonceTip := if p.nonces == 0 then None else Some(env.nonceHash(nonces[p.nonces - 1]));
      if checkpointTip != p.checkpointTip || nonceTip != p.nonceTip { return Err(Diverged); }
      r := Snap();
    }
  }

  lemma {:induction false} TornUnreadable(files: Envelopes, i: nat)
    requires i < |files| && files[i].Torn?
    ensures Decode(files).None?
    decreases |files|
  {
    if i < |files| - 1 {
      TornUnreadable(files[..|files| - 1], i);
    }
  }
}
