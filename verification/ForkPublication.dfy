// The local journal of proven auditor forks: rust/galia-core/src/fork_publication.rs.
module ForkPublication {
  import opened Base
  import opened Chains
  import U = AuditChain
  import K = AuditFork
  import F = Fencing

  const FORMAT := "GALIA_NONCANONICAL_FORK_PUBLICATION_V1"
  const MAX_RECORDS := 4096
  const MAX_RECORD_BYTES := 2 * 1024 * 1024

  // A witness endorsement is only ever passed to the quorum check.
  type Endorsement = string

  datatype Bundle = Bundle(left: seq<U.Signed>, right: seq<U.Signed>, witnesses: seq<Endorsement>)

  // What the fingerprint digests: the floor, where the branches part, and the two
  // envelope digests in ascending order.
  datatype FingerprintInput = FingerprintInput(
    streamId: string, scope: F.FencingScope, floorSequence: nat, floorSigned: Option<Digest>,
    sequence: nat, previous: Option<Digest>, low: Digest, high: Digest)

  datatype Entry = Entry(
    format: string, sequence: nat, previous: Option<Digest>,
    fingerprint: Digest, evidence: Digest, policyHash: Digest, bundle: Bundle)

  type Journal = seq<File<Entry>>

  // The pinned surroundings of one publication root; `quorum` is the fork-witness
  // policy, which yields the digest of the evidence it accepted.
  datatype Env = Env(
    audit: U.Env,
    pin: U.TrustPin,
    policyHash: Digest,
    quorum: Bundle -> Option<Digest>,
    fingerprintHash: FingerprintInput -> Digest,
    fileHash: File<Entry> -> Digest,
    size: Entry -> nat,
    validHash: Digest -> bool)

  ghost predicate Sound(env: Env) {
    && U.Sound(env.audit) && Injective(env.fingerprintHash) && Injective(env.fileHash)
    && forall f :: env.validHash(env.fileHash(f))
  }

  datatype Checkpoint = Checkpoint(count: nat, tip: Option<Digest>)

  predicate ValidCheckpoint(env: Env, c: Checkpoint) {
    && c.count <= MAX_RECORDS
    && (c.count == 0 <==> c.tip.None?)
    && (c.tip.Some? ==> env.validHash(c.tip.value))
  }

  datatype Error =
    | NoQuorum | Compare(error: K.CompareError) | NotAFork | TooManyRecords | Oversized | Altered
    | DuplicateOrForged | AlreadyPublished | CapExceeded | WriteFailed | InvalidFloor | RolledBack | Diverged

  datatype Proof = Proof(fingerprint: Digest, evidence: Digest)

  function FingerprintOf(env: Env, f: K.Fork): Digest {
    var low := if f.leftHash <= f.rightHash then f.leftHash else f.rightHash;
    var high := if f.leftHash <= f.rightHash then f.rightHash else f.leftHash;
    env.fingerprintHash(FingerprintInput(
      env.pin.auditor.streamId, env.pin.auditor.scope, env.pin.floorSequence, env.pin.floorSigned,
      f.sequence, f.previous, low, high))
  }

  function ProveFork(env: Env, b: Bundle): Result<Proof, Error> {
    match env.quorum(b)
    case None => Err(NoQuorum)
    case Some(evidence) =>
      match K.Compare(env.audit, env.pin, b.left, b.right)
      case Err(e) => Err(Compare(e))
      case Ok(a) =>
        if a.fork.None? then Err(NotAFork)
        else Ok(Proof(FingerprintOf(env, a.fork.value), evidence))
  }

  datatype State = State(tip: Option<Digest>, count: nat, forks: set<Digest>, prefix: seq<Digest>, bundles: seq<Bundle>)

  const BLANK := State(None, 0, {}, [], [])

  function Apply(env: Env, s: State, f: File<Entry>): Result<State, Error> {
    if f.Torn? then Err(Altered)
    else if env.size(f.entry) > MAX_RECORD_BYTES then Err(Oversized)
    else if || f.entry.format != FORMAT || f.entry.sequence != s.count + 1
            || f.entry.previous != s.tip || f.entry.policyHash != env.policyHash
    then Err(Altered)
    else
      match ProveFork(env, f.entry.bundle)
      case Err(e) => Err(e)
      case Ok(p) =>
        if f.entry.fingerprint != p.fingerprint || f.entry.evidence != p.evidence || p.fingerprint in s.forks then
          Err(DuplicateOrForged)
        else
          Ok(State(Some(env.fileHash(f)), s.count + 1, s.forks + {p.fingerprint},
                   s.prefix + [env.fileHash(f)], s.bundles + [f.entry.bundle]))
  }

  function Step(env: Env): (State, File<Entry>) -> Result<State, Error> {
    (s: State, f: File<Entry>) => Apply(env, s, f)
  }

  function Replay(env: Env, j: Journal): Result<State, Error> {
    if |j| > MAX_RECORDS then Err(TooManyRecords) else Run(Step(env), BLANK, j)
  }

  function Append(env: Env, j: Journal, b: Bundle, fault: Fault): (Result<Checkpoint, Error>, Journal) {
    match Replay(env, j)
    case Err(e) => (Err(e), j)
    case Ok(s) =>
      match ProveFork(env, b)
      case Err(e) => (Err(e), j)
      case Ok(p) =>
        var entry := Entry(FORMAT, s.count + 1, s.tip, p.fingerprint, p.evidence, env.policyHash, b);
        if p.fingerprint in s.forks then (Err(AlreadyPublished), j)
        else if s.count + 1 > MAX_RECORDS then (Err(CapExceeded), j)
        else if env.size(entry) > MAX_RECORD_BYTES then (Err(Oversized), j)
        else
          (if fault == NoFault then Ok(Checkpoint(s.count + 1, Some(env.fileHash(Whole(entry))))) else Err(WriteFailed),
           WriteNext(j, entry, fault))
  }

  function VerifyFloor(env: Env, j: Journal, floor: Checkpoint): Result<Checkpoint, Error> {
    if !ValidCheckpoint(env, floor) then Err(InvalidFloor)
    else
      match Replay(env, j)
      case Err(e) => Err(e)
      case Ok(s) =>
        if floor.count > s.count then Err(RolledBack)
        else
          ReplayShape(env, j);
          var local := if floor.count == 0 then None else Some(s.prefix[floor.count - 1]);
          if local != floor.tip then Err(Diverged) else Ok(Checkpoint(s.count, s.tip))
  }

  // ----- The replayed state, read off the journal

  function PreviousOf(f: File<Entry>): Option<Digest> {
    if f.Torn? then None else f.entry.previous
  }

  ghost predicate Published(env: Env, f: File<Entry>) {
    && f.Whole?
    && ProveFork(env, f.entry.bundle) == Ok(Proof(f.entry.fingerprint, f.entry.evidence))
  }

  // What an accepted record shows, and what it adds.
  lemma ApplyFacts(env: Env, s: State, f: File<Entry>)
    requires Apply(env, s, f).Ok?
    ensures Published(env, f) && f.entry.previous == s.tip && f.entry.fingerprint !in s.forks
    ensures Apply(env, s, f).value ==
            State(Some(env.fileHash(f)), s.count + 1, s.forks + {f.entry.fingerprint},
                  s.prefix + [env.fileHash(f)], s.bundles + [f.entry.bundle])
  {
    hide ProveFork;
  }

  lemma {:induction false} RunShape(env: Env, j: Journal)
    requires Run(Step(env), BLANK, j).Ok?
    ensures var s := Run(Step(env), BLANK, j).value;
            && s.count == |j| == |s.prefix| && s.tip == Tip(env.fileHash, None, j)
            && forall i :: 0 <= i < |j| ==> s.prefix[i] == env.fileHash(j[i])
    decreases |j|
  {
    hide Apply, ProveFork;
    if j != [] {
      var n := |j| - 1;
      assert j == j[..n] + [j[n]];
      RunSnoc(Step(env), BLANK, j[..n], j[n]);
      RunShape(env, j[..n]);
      ApplyFacts(env, Run(Step(env), BLANK, j[..n]).value, j[n]);
    }
  }

  lemma {:induction false} RunLinked(env: Env, j: Journal)
    requires Run(Step(env), BLANK, j).Ok?
    ensures Linked(env.fileHash, PreviousOf, None, j)
    decreases |j|
  {
    hide Apply, ProveFork;
    if j != [] {
      var n := |j| - 1;
      assert j == j[..n] + [j[n]];
      RunSnoc(Step(env), BLANK, j[..n], j[n]);
      RunLinked(env, j[..n]);
      RunShape(env, j[..n]);
      ApplyFacts(env, Run(Step(env), BLANK, j[..n]).value, j[n]);
      LinkedSnoc(env.fileHash, PreviousOf, None, j[..n], j[n]);
    }
  }

  // The fork set is the set of fingerprints of the entries, and none repeats.
  ghost predicate ForksOf(env: Env, j: Journal, forks: set<Digest>) {
    && (forall i :: 0 <= i < |j| ==> Published(env, j[i]) && j[i].entry.fingerprint in forks)
    && (forall x :: x in forks ==> exists i :: 0 <= i < |j| && HasFingerprint(j[i], x))
    && (forall i, k :: 0 <= i < k < |j| ==> !HasFingerprint(j[i], j[k].entry.fingerprint))
  }

  lemma ForksSnoc(env: Env, p: Journal, forks: set<Digest>, f: File<Entry>)
    requires ForksOf(env, p, forks) && Published(env, f) && f.entry.fingerprint !in forks
    ensures ForksOf(env, p + [f], forks + {f.entry.fingerprint})
  {
    hide ProveFork;
    var j, all := p + [f], forks + {f.entry.fingerprint};
    assert forall i :: 0 <= i < |p| ==> j[i] == p[i];
    forall x | x in all ensures exists i :: 0 <= i < |j| && HasFingerprint(j[i], x) {
      if x in forks {
        var i :| 0 <= i < |p| && HasFingerprint(p[i], x);
        assert HasFingerprint(j[i], x);
      } else {
        assert HasFingerprint(j[|p|], x);
      }
    }
  }

  lemma {:induction false} RunForks(env: Env, j: Journal)
    requires Run(Step(env), BLANK, j).Ok?
    ensures ForksOf(env, j, Run(Step(env), BLANK, j).value.forks)
    decreases |j|
  {
    hide Apply, ForksOf;
    if j == [] {
      assert ForksOf(env, [], {}) by { EmptyForks(env); }
    } else {
      var n := |j| - 1;
      assert j == j[..n] + [j[n]];
      RunSnoc(Step(env), BLANK, j[..n], j[n]);
      RunForks(env, j[..n]);
      var s := Run(Step(env), BLANK, j[..n]).value;
      ApplyFacts(env, s, j[n]);
      ForksSnoc(env, j[..n], s.forks, j[n]);
    }
  }

  lemma EmptyForks(env: Env)
    ensures ForksOf(env, [], {})
  {
  }

  predicate HasFingerprint(f: File<Entry>, x: Digest) {
    f.Whole? && f.entry.fingerprint == x
  }

  lemma ReplayShape(env: Env, j: Journal)
    requires Replay(env, j).Ok?
    ensures Replay(env, j).value.count == |j| == |Replay(env, j).value.prefix|
  {
    RunShape(env, j);
  }

  ghost predicate BundlesOf(j: Journal, bundles: seq<Bundle>) {
    |bundles| == |j| && forall i :: 0 <= i < |j| ==> j[i].Whole? && bundles[i] == j[i].entry.bundle
  }

  lemma BundlesSnoc(p: Journal, bundles: seq<Bundle>, f: File<Entry>)
    requires BundlesOf(p, bundles) && f.Whole?
    ensures BundlesOf(p + [f], bundles + [f.entry.bundle])
  {
  }

  // The replay hands back the bundles of the entries, in order.
  lemma {:induction false} RunBundles(env: Env, j: Journal)
    requires Run(Step(env), BLANK, j).Ok?
    ensures BundlesOf(j, Run(Step(env), BLANK, j).value.bundles)
    decreases |j|
  {
    hide Apply, ProveFork;
    if j != [] {
      var n := |j| - 1;
      assert j == j[..n] + [j[n]];
      RunSnoc(Step(env), BLANK, j[..n], j[n]);
      RunBundles(env, j[..n]);
      var s := Run(Step(env), BLANK, j[..n]).value;
      ApplyFacts(env, s, j[n]);
      BundlesSnoc(j[..n], s.bundles, j[n]);
    }
  }

  // ----- What a fingerprint stands for

  // The two envelopes in which a proven bundle first disagrees, in no order.
  function ConflictPair(env: Env, b: Bundle): set<U.Signed>
    requires ProveFork(env, b).Ok?
  {
    var f := K.Compare(env.audit, env.pin, b.left, b.right).value.fork.value;
    {f.left, f.right}
  }

  lemma ForkEnvelopes(env: Env, b: Bundle)
    requires ProveFork(env, b).Ok?
    ensures var f := K.Compare(env.audit, env.pin, b.left, b.right).value.fork.value;
            && f.leftHash == env.audit.signedHash(f.left) && f.rightHash == env.audit.signedHash(f.right)
            && f.sequence == f.left.statement.sequence == f.right.statement.sequence
            && f.previous == f.left.statement.previous == f.right.statement.previous
            && f.left != f.right
  {
  }

  // The fingerprint is that of the unordered pair of conflicting envelopes and of
  // nothing else: not of branch order, branch tails or the choice of witnesses.
  lemma FingerprintIsPair(env: Env, b: Bundle, c: Bundle)
    requires Sound(env) && ProveFork(env, b).Ok? && ProveFork(env, c).Ok?
    ensures ProveFork(env, b).value.fingerprint == ProveFork(env, c).value.fingerprint <==>
            ConflictPair(env, b) == ConflictPair(env, c)
  {
    ForkEnvelopes(env, b);
    ForkEnvelopes(env, c);
    var f := K.Compare(env.audit, env.pin, b.left, b.right).value.fork.value;
    var g := K.Compare(env.audit, env.pin, c.left, c.right).value.fork.value;
    if ConflictPair(env, b) == ConflictPair(env, c) {
      assert f.left in {g.left, g.right} && f.right in {g.left, g.right};
    }
    if ProveFork(env, b).value.fingerprint == ProveFork(env, c).value.fingerprint {
      assert (f.leftHash == g.leftHash && f.rightHash == g.rightHash) || (f.leftHash == g.rightHash && f.rightHash == g.leftHash);
    }
  }

  // Exchanging the branches proves the same fork, if the quorum accepts it so.
  lemma BranchOrderIrrelevant(env: Env, b: Bundle, witnesses: seq<Endorsement>)
    requires Sound(env) && ProveFork(env, b).Ok? && env.quorum(Bundle(b.right, b.left, witnesses)).Some?
    ensures var c := Bundle(b.right, b.left, witnesses);
            ProveFork(env, c).Ok? && ProveFork(env, c).value.fingerprint == ProveFork(env, b).value.fingerprint
  {
    K.ComparisonSymmetric(env.audit, env.pin, b.left, b.right);
    var c := Bundle(b.right, b.left, witnesses);
    assert ConflictPair(env, c) == ConflictPair(env, b);
    FingerprintIsPair(env, b, c);
  }

  // ----- The journal

  // A readable journal holds at most one entry for a pair of conflicting envelopes.
  lemma OneEntryPerPair(env: Env, j: Journal, i: nat, k: nat)
    requires Sound(env) && Replay(env, j).Ok? && i < k < |j|
    ensures Published(env, j[i]) && Published(env, j[k])
    ensures ConflictPair(env, j[i].entry.bundle) != ConflictPair(env, j[k].entry.bundle)
  {
    hide ProveFork, ConflictPair;
    RunForks(env, j);
    assert Published(env, j[i]) && Published(env, j[k]);
    FingerprintIsPair(env, j[i].entry.bundle, j[k].entry.bundle);
  }

  ghost predicate AlreadyHolds(env: Env, j: Journal, b: Bundle)
    requires ProveFork(env, b).Ok?
  {
    exists i :: 0 <= i < |j| && Published(env, j[i]) && ConflictPair(env, j[i].entry.bundle) == ConflictPair(env, b)
  }

  // The fork set of a readable journal knows a bundle exactly when its pair is there.
  lemma KnownIffHeld(env: Env, j: Journal, b: Bundle)
    requires Sound(env) && Replay(env, j).Ok? && ProveFork(env, b).Ok?
    ensures ProveFork(env, b).value.fingerprint in Replay(env, j).value.forks <==> AlreadyHolds(env, j, b)
  {
    hide ProveFork, ConflictPair;
    RunForks(env, j);
    var x := ProveFork(env, b).value.fingerprint;
    if x in Replay(env, j).value.forks {
      var i :| 0 <= i < |j| && HasFingerprint(j[i], x);
      assert Published(env, j[i]);
      FingerprintIsPair(env, j[i].entry.bundle, b);
    }
    if AlreadyHolds(env, j, b) {
      var i :| 0 <= i < |j| && Published(env, j[i]) && ConflictPair(env, j[i].entry.bundle) == ConflictPair(env, b);
      FingerprintIsPair(env, j[i].entry.bundle, b);
    }
  }

  // An append goes through exactly for a proven fork whose pair is not there yet,
  // within the caps; and it then leaves a readable journal one entry longer.
  lemma AppendExact(env: Env, j: Journal, b: Bundle, fault: Fault)
    requires Sound(env)
    ensures Append(env, j, b, fault).0.Ok? <==>
              && fault == NoFault && Replay(env, j).Ok? && ProveFork(env, b).Ok? && !AlreadyHolds(env, j, b)
              && |j| < MAX_RECORDS && env.size(NextEntry(env, j, b)) <= MAX_RECORD_BYTES
    ensures var (r, j') := Append(env, j, b, fault);
            && (r.Ok? ==> j' == j + [Whole(NextEntry(env, j, b))] && Replay(env, j').Ok?)
            && (j' == j || (|j'| == |j| + 1 && j'[..|j|] == j))
  {
    hide ProveFork, AlreadyHolds;
    if Replay(env, j).Ok? && ProveFork(env, b).Ok? {
      KnownIffHeld(env, j, b);
      ReplayShape(env, j);
      RunSnoc(Step(env), BLANK, j, Whole(NextEntry(env, j, b)));
    }
  }

  function NextEntry(env: Env, j: Journal, b: Bundle): Entry
    requires Replay(env, j).Ok? && ProveFork(env, b).Ok?
  {
    var s, p := Replay(env, j).value, ProveFork(env, b).value;
    Entry(FORMAT, s.count + 1, s.tip, p.fingerprint, p.evidence, env.policyHash, b)
  }

  // ----- Floors

  function CheckpointAt(env: Env, j: Journal, n: nat): Checkpoint
    requires n <= |j|
  {
    Checkpoint(n, Tip(env.fileHash, None, j[..n]))
  }

  // A retained checkpoint of j passes on k exactly when k is readable and begins
  // with the same entries up to it.
  lemma FloorPinsPrefix(env: Env, j: Journal, n: nat, k: Journal)
    requires Sound(env) && Replay(env, j).Ok? && n <= |j|
    ensures VerifyFloor(env, k, CheckpointAt(env, j, n)).Ok? <==>
            Replay(env, k).Ok? && n <= |k| && k[..n] == j[..n]
  {
    hide ProveFork, Apply;
    if Replay(env, k).Ok? {
      RunShape(env, k);
    }
    if Replay(env, k).Ok? && n <= |k| {
      RunLinked(env, j);
      RunLinked(env, k);
      LinkedPrefix(env.fileHash, PreviousOf, None, j, n);
      LinkedPrefix(env.fileHash, PreviousOf, None, k, n);
      if VerifyFloor(env, k, CheckpointAt(env, j, n)).Ok? {
        TipPinsChain(env.fileHash, PreviousOf, None, j[..n], k[..n]);
      }
    }
  }

  // ----- The durable object

  class ScratchForkPublication {
    const env: Env
    var journal: Journal

    constructor (env: Env)
      ensures this.env == env && journal == []
    {
      this.env := env;
      journal := [];
    }

    method ReplayAll() returns (r: Result<State, Error>)
      ensures r == Replay(env, journal)
    {
      hide ProveFork;
      if |journal| > MAX_RECORDS { return Err(TooManyRecords); }
      var tip, count := None, 0;
      var forks, prefix, bundles := {}, [], [];
      for i := 0 to |journal|
        invariant Run(Step(env), BLANK, journal[..i]) == Ok(State(tip, count, forks, prefix, bundles))
      {
        assert journal[..i + 1] == journal[..i] + [journal[i]];
        RunSnoc(Step(env), BLANK, journal[..i], journal[i]);
        assert journal == journal[..i + 1] + journal[i + 1..];
        RunConcat(Step(env), BLANK, journal[..i + 1], journal[i + 1..]);
        var f := journal[i];
        if f.Torn? { return Err(Altered); }
        if env.size(f.entry) > MAX_RECORD_BYTES { return Err(Oversized); }
        if || f.entry.format != FORMAT || f.entry.sequence != count + 1
           || f.entry.previous != tip || f.entry.policyHash != env.policyHash {
          return Err(Altered);
        }
        var p := ProveFork(env, f.entry.bundle);
        if p.Err? { return Err(p.error); }
        if f.entry.fingerprint != p.value.fingerprint || f.entry.evidence != p.value.evidence || p.value.fingerprint in forks {
          return Err(DuplicateOrForged);
        }
        forks := forks + {p.value.fingerprint};
        tip, count := Some(env.fileHash(f)), count + 1;
        prefix, bundles := prefix + [env.fileHash(f)], bundles + [f.entry.bundle];
      }
      assert journal[..|journal|] == journal;
      r := Ok(State(tip, count, forks, prefix, bundles));
    }

    method Publish(b: Bundle, fault: Fault) returns (r: Result<Checkpoint, Error>)
      modifies this`journal
      ensures (r, journal) == Append(env, old(journal), b, fault)
    {
      hide ProveFork, Replay;
      var s := ReplayAll();
      if s.Err? { return Err(s.error); }
      var p := ProveFork(env, b);
      if p.Err? { return Err(p.error); }
      if p.value.fingerprint in s.value.forks { return Err(AlreadyPublished); }
      if s.value.count + 1 > MAX_RECORDS { return Err(CapExceeded); }
      var entry := Entry(FORMAT, s.value.count + 1, s.value.tip, p.value.fingerprint, p.value.evidence, env.policyHash, b);
      if env.size(entry) > MAX_RECORD_BYTES { return Err(Oversized); }
      journal := WriteNext(journal, entry, fault);
      r := if fault == NoFault then Ok(Checkpoint(entry.sequence, Some(env.fileHash(Whole(entry))))) else Err(WriteFailed);
    }

    method CheckFloor(floor: Checkpoint) returns (r: Result<Checkpoint, Error>)
      ensures r == VerifyFloor(env, journal, floor)
    {
      hide ProveFork, Apply;
      if !ValidCheckpoint(env, floor) { return Err(InvalidFloor); }
      var s := ReplayAll();
      if s.Err? { return Err(s.error); }
      ReplayShape(env, journal);
      if floor.count > s.value.count { return Err(RolledBack); }
      var local := if floor.count == 0 then None else Some(s.value.prefix[floor.count - 1]);
      if local != floor.tip { return Err(Diverged); }
      r := Ok(Checkpoint(s.value.count, s.value.tip));
    }
  }
}
