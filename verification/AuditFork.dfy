// Two signed branches of one auditor, compared:
// rust/galia-core/src/audit_equivocation.rs.
module AuditFork {
  import opened Base
  import opened Chains
  import opened AuditChain

  datatype Finding = IdenticalSignedHistory | VerifiedPrefixExtension | SignedAuditorForkEvidence

  datatype Fork = Fork(
    sequence: nat, previous: Option<Digest>, leftHash: Digest, rightHash: Digest,
    left: Signed, right: Signed, checkpointDiverged: bool)

  datatype Assessment = Assessment(
    finding: Finding, common: nat, leftLast: nat, rightLast: nat,
    leftTip: Option<Digest>, rightTip: Option<Digest>, fork: Option<Fork>)

  datatype CompareError = NoncanonicalSignature | Unverified(error: Error) | NoPredecessor | SameEnvelope

  predicate CanonicalSignature(signature: string) {
    |signature| == 128 && forall i :: 0 <= i < 128 ==> '0' <= signature[i] <= '9' || 'a' <= signature[i] <= 'f'
  }

  predicate CanonicalBranch(signed: seq<Signed>) {
    forall i :: 0 <= i < |signed| ==> CanonicalSignature(signed[i].signature)
  }

  // How many leading envelopes agree.
  function Common(left: seq<Signed>, right: seq<Signed>): (n: nat)
    ensures n <= |left| && n <= |right| && left[..n] == right[..n]
    ensures n < |left| && n < |right| ==> left[n] != right[n]
  {
    if left == [] || right == [] || left[0] != right[0] then 0
    else
      var m := Common(left[1..], right[1..]);
      assert left[..m + 1] == [left[0]] + left[1..][..m] && right[..m + 1] == [right[0]] + right[1..][..m];
      m + 1
  }

  lemma CommonUnique(left: seq<Signed>, right: seq<Signed>, n: nat)
    requires n <= |left| && n <= |right| && left[..n] == right[..n]
    requires n < |left| && n < |right| ==> left[n] != right[n]
    ensures n == Common(left, right)
  {
    var m := Common(left, right);
    assert forall k :: 0 <= k < n ==> left[k] == left[..n][k] == right[..n][k] == right[k];
    assert forall k :: 0 <= k < m ==> left[k] == left[..m][k] == right[..m][k] == right[k];
  }

  function ForkAt(env: Env, left: seq<Signed>, right: seq<Signed>, n: nat): Result<Option<Fork>, CompareError>
    requires n <= |left| && n <= |right|
  {
    if n == |left| || n == |right| then Ok(None)
    else
      var a, b := left[n], right[n];
      if a.statement.sequence != b.statement.sequence || a.statement.previous != b.statement.previous then Err(NoPredecessor)
      else if env.signedHash(a) == env.signedHash(b) then Err(SameEnvelope)
      else Ok(Some(Fork(a.statement.sequence, a.statement.previous, env.signedHash(a), env.signedHash(b), a, b,
                        a.statement.checkpoint != b.statement.checkpoint)))
  }

  function Compare(env: Env, pin: TrustPin, left: seq<Signed>, right: seq<Signed>): Result<Assessment, CompareError> {
    if !CanonicalBranch(left) || !CanonicalBranch(right) then Err(NoncanonicalSignature)
    else
      match VerifyChain(env, pin, left)
      case Err(e) => Err(Unverified(e))
      case Ok(l) =>
        match VerifyChain(env, pin, right)
        case Err(e) => Err(Unverified(e))
        case Ok(r) =>
          var n := Common(left, right);
          match ForkAt(env, left, right, n)
          case Err(e) => Err(e)
          case Ok(fork) =>
            var finding := if fork.Some? then SignedAuditorForkEvidence
                           else if |left| == |right| then IdenticalSignedHistory
                           else VerifiedPrefixExtension;
            Ok(Assessment(finding, n, l.sequence, r.sequence, l.previous, r.previous, fork))
  }

  method AllSignaturesCanonical(signed: seq<Signed>) returns (ok: bool)
    ensures ok == CanonicalBranch(signed)
  {
    for i := 0 to |signed|
      invariant forall k :: 0 <= k < i ==> CanonicalSignature(signed[k].signature)
    {
      if !CanonicalSignature(signed[i].signature) { return false; }
    }
    ok := true;
  }

  method CountCommon(left: seq<Signed>, right: seq<Signed>) returns (common: nat)
    ensures common == Common(left, right)
  {
    common := 0;
    var least := if |left| < |right| then |left| else |right|;
    while common < least && left[common] == right[common]
      invariant common <= least && left[..common] == right[..common]
    {
      assert left[..common + 1] == left[..common] + [left[common]];
      assert right[..common + 1] == right[..common] + [right[common]];
      common := common + 1;
    }
    CommonUnique(left, right, common);
  }

  method CompareSignedAuditBranches(env: Env, pin: TrustPin, left: seq<Signed>, right: seq<Signed>)
    returns (r: Result<Assessment, CompareError>)
    ensures r == Compare(env, pin, left, right)
  {
    var canonical := AllSignaturesCanonical(left);
    if canonical { canonical := AllSignaturesCanonical(right); }
    if !canonical { return Err(NoncanonicalSignature); }
    var l := VerifySignedAuditChain(env, pin, left);
    if l.Err? { return Err(Unverified(l.error)); }
    var other := VerifySignedAuditChain(env, pin, right);
    if other.Err? { return Err(Unverified(other.error)); }
    var common := CountCommon(left, right);
    var fork: Option<Fork> := None;
    if common < |left| && common < |right| {
      var a, b := left[common], right[common];
      if a.statement.sequence != b.statement.sequence || a.statement.previous != b.statement.previous {
        return Err(NoPredecessor);
      }
      var ah, bh := env.signedHash(a), env.signedHash(b);
      if ah == bh { return Err(SameEnvelope); }
      fork := Some(Fork(a.statement.sequence, a.statement.previous, ah, bh, a, b,
                        a.statement.checkpoint != b.statement.checkpoint));
    }
    var finding := if fork.Some? then SignedAuditorForkEvidence
                   else if |left| == |right| then IdenticalSignedHistory
                   else VerifiedPrefixExtension;
    LastSequence(env, pin, left);
    LastSequence(env, pin, right);
    r := Ok(Assessment(finding, common, left[|left| - 1].statement.sequence, right[|right| - 1].statement.sequence,
                       Some(l.value.1), Some(other.value.1), fork));
  }

  lemma LastSequence(env: Env, pin: TrustPin, signed: seq<Signed>)
    requires VerifyChain(env, pin, signed).Ok?
    ensures signed != [] && VerifyChain(env, pin, signed).value.sequence == signed[|signed| - 1].statement.sequence
  {
    RunFacts(env, pin, signed);
    assert Placed(env, pin, signed, |signed| - 1);
  }

  // ----- Exactness

  predicate ProperPrefix(a: seq<Signed>, b: seq<Signed>) {
    |a| < |b| && a == b[..|a|]
  }

  // Both branches verify: the only thing the comparison asks of its inputs.
  predicate BothAccepted(env: Env, pin: TrustPin, left: seq<Signed>, right: seq<Signed>) {
    && CanonicalBranch(left) && CanonicalBranch(right)
    && VerifyChain(env, pin, left).Ok? && VerifyChain(env, pin, right).Ok?
  }

  // Where two accepted branches first differ they share sequence and predecessor.
  lemma SharedPredecessor(env: Env, pin: TrustPin, left: seq<Signed>, right: seq<Signed>, n: nat)
    requires BothAccepted(env, pin, left, right)
    requires n < |left| && n < |right| && left[..n] == right[..n]
    ensures left[n].statement.sequence == right[n].statement.sequence == pin.floorSequence + n + 1
    ensures left[n].statement.previous == right[n].statement.previous == Tip(env.signedHash, pin.floorSigned, left[..n])
  {
    RunFacts(env, pin, left);
    RunFacts(env, pin, right);
    assert Placed(env, pin, left, n) && Placed(env, pin, right, n);
  }

  // The comparison is exact: it errs only on unaccepted branches (a missing common
  // predecessor and equal envelopes never occur), and otherwise tells equality,
  // proper prefix and first conflict apart.
  lemma ComparisonExact(env: Env, pin: TrustPin, left: seq<Signed>, right: seq<Signed>)
    requires Sound(env)
    ensures Compare(env, pin, left, right).Ok? <==> BothAccepted(env, pin, left, right)
    ensures Compare(env, pin, left, right).Ok? ==>
              var f := Compare(env, pin, left, right).value.finding;
              && (f.IdenticalSignedHistory? <==> left == right)
              && (f.VerifiedPrefixExtension? <==> ProperPrefix(left, right) || ProperPrefix(right, left))
              && (f.SignedAuditorForkEvidence? <==>
                  exists n :: 0 <= n < |left| && n < |right| && left[..n] == right[..n] && left[n] != right[n])
  {
    if BothAccepted(env, pin, left, right) {
      var n := Common(left, right);
      if n < |left| && n < |right| {
        SharedPredecessor(env, pin, left, right, n);
      } else if n == |left| == |right| {
        assert left == left[..n] && right == right[..n];
      } else if n == |left| {
        assert left == left[..n];
      } else {
        assert right == right[..n];
      }
      if m :| 0 <= m < |left| && m < |right| && left[..m] == right[..m] && left[m] != right[m] {
        CommonUnique(left, right, m);
      }
    }
  }

  // Comparing the other way round finds the same fork with its sides exchanged.
  lemma ComparisonSymmetric(env: Env, pin: TrustPin, left: seq<Signed>, right: seq<Signed>)
    requires Compare(env, pin, left, right).Ok?
    ensures Compare(env, pin, right, left).Ok?
    ensures var a, b := Compare(env, pin, left, right).value, Compare(env, pin, right, left).value;
            && a.finding == b.finding && a.common == b.common
            && (a.fork.Some? ==> b.fork == Some(a.fork.value.(left := a.fork.value.right, right := a.fork.value.left,
                                                             leftHash := a.fork.value.rightHash,
                                                             rightHash := a.fork.value.leftHash)))
  {
    CommonUnique(right, left, Common(left, right));
  }
}
