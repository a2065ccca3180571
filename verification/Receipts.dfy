// The scratch receipt chain of rust/galia-core/src/audit.rs.
module Receipts {
  import opened Base
  import opened Chains

  const FORMAT := "GALIA_NONCANONICAL_SCRATCH_AUDIT_V1"

  datatype AuditOperation = Staged | Published

  datatype AuditReceipt = AuditReceipt(
    format: string, index: nat, previous: Option<Digest>, operation: AuditOperation,
    commitId: string, manifestHash: Digest, headBefore: Option<Digest>, headAfter: Option<Digest>)

  datatype Checkpoint = Checkpoint(count: nat, tip: Digest, lastHead: Option<Digest>)

  datatype Env = Env(receiptHash: AuditReceipt -> Digest, validHash: Digest -> bool)

  ghost predicate Sound(env: Env) {
    Injective(env.receiptHash) && forall r :: env.validHash(env.receiptHash(r))
  }

  datatype Error =
    | InvalidMetadata | StagedMovesHead | PublishedKeepsHead | LinkInvalid | HeadBroken
    | StagedTwice | NotStaged | CheckpointMismatch | HeadMismatch | IndexOverflow

  predicate SimpleId(s: string) {
    && (exists i :: 0 <= i < |s| && !IsSpace(s[i]))
    && s != "." && s != ".."
    && forall i :: 0 <= i < |s| ==> s[i] != '/' && s[i] != '\\' && s[i] != ':' && s[i] != '\0'
  }

  predicate OptionalHash(env: Env, h: Option<Digest>) {
    h.Some? ==> env.validHash(h.value)
  }

  function Validate(env: Env, r: AuditReceipt): Result<(), Error> {
    if || r.format != FORMAT || r.index == 0 || !SimpleId(r.commitId) || !env.validHash(r.manifestHash)
       || !OptionalHash(env, r.previous) || !OptionalHash(env, r.headBefore) || !OptionalHash(env, r.headAfter)
    then Err(InvalidMetadata)
    else if r.operation == Staged && r.headBefore != r.headAfter then Err(StagedMovesHead)
    else if r.operation == Published && (r.headAfter.None? || r.headBefore == r.headAfter) then Err(PublishedKeepsHead)
    else Ok(())
  }

  datatype State = State(
    count: nat, previous: Option<Digest>, head: Option<Digest>,
    staged: map<string, Digest>, published: set<string>)

  const BLANK := State(0, None, None, map[], {})

  function Apply(env: Env, s: State, r: AuditReceipt): Result<State, Error> {
    match Validate(env, r)
    case Err(e) => Err(e)
    case Ok(_) =>
      if r.index != s.count + 1 || r.previous != s.previous then Err(LinkInvalid)
      else if r.headBefore != s.head then Err(HeadBroken)
      else
        var t := s.(count := s.count + 1, previous := Some(env.receiptHash(r)));
        match r.operation
        case Staged =>
          if r.commitId in s.staged || r.commitId in s.published then Err(StagedTwice)
          else Ok(t.(staged := s.staged[r.commitId := r.manifestHash]))
        case Published =>
          if r.commitId in s.published || r.commitId !in s.staged || s.staged[r.commitId] != r.manifestHash
          then Err(NotStaged)
          else Ok(t.(staged := s.staged - {r.commitId}, published := s.published + {r.commitId}, head := r.headAfter))
  }

  function Step(env: Env): (State, AuditReceipt) -> Result<State, Error> {
    (s: State, r: AuditReceipt) => Apply(env, s, r)
  }

  predicate Matches(env: Env, s: State, trusted: Option<Checkpoint>) {
    trusted.Some? ==>
      && env.validHash(trusted.value.tip) && trusted.value.count == s.count
      && Some(trusted.value.tip) == s.previous && trusted.value.lastHead == s.head
  }

  function Verify(env: Env, rs: seq<AuditReceipt>, trusted: Option<Checkpoint>): Result<State, Error> {
    match Run(Step(env), BLANK, rs)
    case Err(e) => Err(e)
    case Ok(s) => if Matches(env, s, trusted) then Ok(s) else Err(CheckpointMismatch)
  }

  function Next(env: Env, prior: seq<AuditReceipt>, operation: AuditOperation, commitId: string,
                manifestHash: Digest, headBefore: Option<Digest>, headAfter: Option<Digest>)
    : Result<AuditReceipt, Error>
  {
    match Verify(env, prior, None)
    case Err(e) => Err(e)
    case Ok(s) =>
      if s.head != headBefore then Err(HeadMismatch)
      else if CheckedAdd1(s.count).None? then Err(IndexOverflow)
      else
        var r := AuditReceipt(FORMAT, s.count + 1, s.previous, operation, commitId, manifestHash, headBefore, headAfter);
        match Verify(env, prior + [r], None)
        case Err(e) => Err(e)
        case Ok(_) => Ok(r)
  }

  method VerifyReceipts(env: Env, rs: seq<AuditReceipt>, trusted: Option<Checkpoint>) returns (report: Result<State, Error>)
    ensures report == Verify(env, rs, trusted)
  {
    var previous, head := None, None;
    var staged: map<string, Digest> := map[];
    var published := {};
    for i := 0 to |rs|
      invariant Run(Step(env), BLANK, rs[..i]) == Ok(State(i, previous, head, staged, published))
    {
      var r := rs[i];
      assert rs[..i + 1] == rs[..i] + [r];
      RunSnoc(Step(env), BLANK, rs[..i], r);
      assert rs == rs[..i + 1] + rs[i + 1..];
      RunConcat(Step(env), BLANK, rs[..i + 1], rs[i + 1..]);
      var v := Validate(env, r);
      if v.Err? { return Err(v.error); }
      if r.index != i + 1 || r.previous != previous { return Err(LinkInvalid); }
      if r.headBefore != head { return Err(HeadBroken); }
      match r.operation {
        case Staged =>
          if r.commitId in staged || r.commitId in published { return Err(StagedTwice); }
          staged := staged[r.commitId := r.manifestHash];
        case Published =>
          if r.commitId in published || r.commitId !in staged || staged[r.commitId] != r.manifestHash {
            return Err(NotStaged);
          }
          staged, published := staged - {r.commitId}, published + {r.commitId};
          head := r.headAfter;
      }
      previous := Some(env.receiptHash(r));
    }
    assert rs[..|rs|] == rs;
    var s := State(|rs|, previous, head, staged, published);
    report := if Matches(env, s, trusted) then Ok(s) else Err(CheckpointMismatch);
  }

  method NextReceipt(env: Env, prior: seq<AuditReceipt>, operation: AuditOperation, commitId: string,
                     manifestHash: Digest, headBefore: Option<Digest>, headAfter: Option<Digest>)
    returns (r: Result<AuditReceipt, Error>)
    ensures r == Next(env, prior, operation, commitId, manifestHash, headBefore, headAfter)
  {
    var report := VerifyReceipts(env, prior, None);
    if report.Err? { return Err(report.error); }
    if report.value.head != headBefore { return Err(HeadMismatch); }
    if CheckedAdd1(report.value.count).None? { return Err(IndexOverflow); }
    var receipt := AuditReceipt(FORMAT, report.value.count + 1, report.value.previous, operation,
                                commitId, manifestHash, headBefore, headAfter);
    var extended := VerifyReceipts(env, prior + [receipt], None);
    if extended.Err? { return Err(extended.error); }
    r := Ok(receipt);
  }

  // ----- What acceptance means, read off the sequence alone

  predicate StagedAs(rs: seq<AuditReceipt>, c: string, m: Digest) {
    exists k :: 0 <= k < |rs| && rs[k].operation == Staged && rs[k].commitId == c && rs[k].manifestHash == m
  }

  predicate Names(rs: seq<AuditReceipt>, op: AuditOperation, c: string) {
    exists k :: 0 <= k < |rs| && rs[k].operation == op && rs[k].commitId == c
  }

  // HEAD as the last publication left it.
  function HeadOf(rs: seq<AuditReceipt>): Option<Digest> {
    if rs == [] then None
    else if rs[|rs| - 1].operation == Published then rs[|rs| - 1].headAfter
    else HeadOf(rs[..|rs| - 1])
  }

  function PreviousOf(r: AuditReceipt): Option<Digest> {
    r.previous
  }

  // A name that is no path: neither blank, nor a dot entry, nor with a separator in it.
  predicate PlainName(s: string) {
    && s !in {".", ".."} && (exists c :: c in s && !IsSpace(c))
    && forall c :: c in s ==> c !in {'/', '\\', ':', '\0'}
  }

  // A receipt of this format for a plain name with proper digests; a staging leaves
  // HEAD where it was, and a publication moves it somewhere.
  predicate ReceiptTerms(env: Env, r: AuditReceipt) {
    && r.format == "GALIA_NONCANONICAL_SCRATCH_AUDIT_V1" && PlainName(r.commitId) && env.validHash(r.manifestHash)
    && (r.previous.Some? ==> env.validHash(r.previous.value))
    && (r.headBefore.Some? ==> env.validHash(r.headBefore.value))
    && (r.headAfter.Some? ==> env.validHash(r.headAfter.value))
    && match r.operation
       case Staged => r.headAfter == r.headBefore
       case Published => r.headAfter.Some? && r.headAfter != r.headBefore
  }

  lemma PlainIff(s: string)
    ensures SimpleId(s) <==> PlainName(s)
  {
    assert forall i :: 0 <= i < |s| ==> s[i] in s;
  }

  lemma ValidIff(env: Env, r: AuditReceipt)
    ensures Validate(env, r).Ok? <==> r.index > 0 && ReceiptTerms(env, r)
  {
    hide SimpleId, PlainName;
    PlainIff(r.commitId);
  }

  ghost predicate Lawful(env: Env, rs: seq<AuditReceipt>, i: nat)
    requires i < |rs|
  {
    var r := rs[i];
    && ReceiptTerms(env, r) && r.index == i + 1
    && r.previous == Tip(env.receiptHash, None, rs[..i]) && r.headBefore == HeadOf(rs[..i])
    && match r.operation
       case Staged => !Names(rs[..i], Staged, r.commitId)
       case Published => StagedAs(rs[..i], r.commitId, r.manifestHash) && !Names(rs[..i], Published, r.commitId)
  }

  ghost predicate LawfulChain(env: Env, rs: seq<AuditReceipt>) {
    forall i :: 0 <= i < |rs| ==> Lawful(env, rs, i)
  }

  lemma NamesSnoc(rs: seq<AuditReceipt>, r: AuditReceipt, op: AuditOperation, c: string)
    ensures Names(rs + [r], op, c) <==> Names(rs, op, c) || (r.operation == op && r.commitId == c)
  {
    var all := rs + [r];
    if Names(rs, op, c) {
      var k: nat :| k < |rs| && rs[k].operation == op && rs[k].commitId == c;
      assert all[k] == rs[k];
    }
    assert all[|rs|] == r;
  }

  lemma StagedAsSnoc(rs: seq<AuditReceipt>, r: AuditReceipt, c: string, m: Digest)
    ensures StagedAs(rs + [r], c, m) <==>
            StagedAs(rs, c, m) || (r.operation == Staged && r.commitId == c && r.manifestHash == m)
    ensures StagedAs(rs, c, m) ==> Names(rs, Staged, c)
  {
    var all := rs + [r];
    if StagedAs(rs, c, m) {
      var k: nat :| k < |rs| && rs[k].operation == Staged && rs[k].commitId == c && rs[k].manifestHash == m;
      assert all[k] == rs[k];
    }
    assert all[|rs|] == r;
  }

  lemma LawfulSnoc(env: Env, rs: seq<AuditReceipt>, r: AuditReceipt)
    ensures LawfulChain(env, rs + [r]) <==> LawfulChain(env, rs) && Lawful(env, rs + [r], |rs|)
  {
    var all := rs + [r];
    forall i | 0 <= i < |rs| ensures Lawful(env, all, i) <==> Lawful(env, rs, i) {
      assert all[..i] == rs[..i];
    }
  }

  lemma {:induction false} ScalarsOf(env: Env, rs: seq<AuditReceipt>)
    requires Run(Step(env), BLANK, rs).Ok?
    ensures var s := Run(Step(env), BLANK, rs).value;
            s.count == |rs| && s.previous == Tip(env.receiptHash, None, rs) && s.head == HeadOf(rs)
    decreases |rs|
  {
    if rs != [] {
      var n := |rs| - 1;
      ScalarsOf(env, rs[..n]);
    }
  }

  // The staged and published tables, one commit at a time.
  lemma {:induction false} TablesOf(env: Env, rs: seq<AuditReceipt>, c: string, m: Digest)
    requires Run(Step(env), BLANK, rs).Ok?
    ensures var s := Run(Step(env), BLANK, rs).value;
            && (c in s.published <==> Names(rs, Published, c))
            && (c in s.staged <==> Names(rs, Staged, c) && c !in s.published)
            && (c in s.published ==> Names(rs, Staged, c))
            && (c in s.staged ==> (StagedAs(rs, c, m) <==> s.staged[c] == m))
    ensures StagedAs(rs, c, m) ==> Names(rs, Staged, c)
    decreases |rs|
  {
    if rs != [] {
      var n := |rs| - 1;
      assert rs == rs[..n] + [rs[n]];
      RunSnoc(Step(env), BLANK, rs[..n], rs[n]);
      TablesOf(env, rs[..n], c, m);
      NamesSnoc(rs[..n], rs[n], Staged, c);
      NamesSnoc(rs[..n], rs[n], Published, c);
      StagedAsSnoc(rs[..n], rs[n], c, m);
    }
  }

  lemma ApplyIffLawful(env: Env, rs: seq<AuditReceipt>, r: AuditReceipt)
    requires Run(Step(env), BLANK, rs).Ok?
    ensures Apply(env, Run(Step(env), BLANK, rs).value, r).Ok? <==> Lawful(env, rs + [r], |rs|)
  {
    hide SimpleId, PlainName, ReceiptTerms;
    assert (rs + [r])[..|rs|] == rs;
    ValidIff(env, r);
    ScalarsOf(env, rs);
    TablesOf(env, rs, r.commitId, r.manifestHash);
  }

  // A sequence is accepted exactly when every receipt is well formed, numbered and
  // linked, continues HEAD, and stages a commit never staged before or publishes
  // one staged with that manifest and not yet published.
  lemma {:induction false} AcceptedIffLawful(env: Env, rs: seq<AuditReceipt>)
    ensures Verify(env, rs, None).Ok? <==> LawfulChain(env, rs)
    decreases |rs|
  {
    if rs != [] {
      var n := |rs| - 1;
      assert rs == rs[..n] + [rs[n]];
      RunSnoc(Step(env), BLANK, rs[..n], rs[n]);
      AcceptedIffLawful(env, rs[..n]);
      LawfulSnoc(env, rs[..n], rs[n]);
      if Verify(env, rs[..n], None).Ok? {
        ApplyIffLawful(env, rs[..n], rs[n]);
      }
    }
  }

  // ----- Laws of accepted sequences

  // Two receipts of one commit are its staging and its publication, in that order
  // and with one manifest; so no commit is staged twice or published twice.
  lemma CommitLife(env: Env, rs: seq<AuditReceipt>, i: nat, k: nat)
    requires Verify(env, rs, None).Ok?
    requires i < k < |rs| && rs[i].commitId == rs[k].commitId
    ensures rs[i].operation == Staged && rs[k].operation == Published
    ensures rs[i].manifestHash == rs[k].manifestHash
  {
    hide Verify, Names, StagedAs;
    AcceptedIffLawful(env, rs);
    var c, before := rs[k].commitId, rs[..k];
    LawfulCommit(env, rs, i);
    LawfulCommit(env, rs, k);
    NamedBefore(rs, i, k);
    if rs[i].operation == Published {
      var first := StagingOf(rs[..i], c, rs[i].manifestHash);
      NamedBefore(rs, first, k);
    }
    var j := StagingOf(before, c, rs[k].manifestHash);
    LawfulCommit(env, rs, j);
    if i < j { NamedBefore(rs, i, j); }
    if j < i { NamedBefore(rs, j, i); }
  }

  lemma LawfulCommit(env: Env, rs: seq<AuditReceipt>, k: nat)
    requires LawfulChain(env, rs) && k < |rs|
    ensures !Names(rs[..k], rs[k].operation, rs[k].commitId)
    ensures rs[k].operation == Published ==> StagedAs(rs[..k], rs[k].commitId, rs[k].manifestHash)
  {
    hide Names, StagedAs, ReceiptTerms, HeadOf;
    assert Lawful(env, rs, k);
  }

  lemma NamedBefore(rs: seq<AuditReceipt>, i: nat, k: nat)
    requires i < k < |rs|
    ensures Names(rs[..k], rs[i].operation, rs[i].commitId)
  {
    assert rs[..k][i] == rs[i];
  }

  // The receipt that staged a commit with a manifest.
  lemma StagingOf(rs: seq<AuditReceipt>, c: string, m: Digest) returns (j: nat)
    requires StagedAs(rs, c, m)
    ensures j < |rs| && rs[j].operation == Staged && rs[j].commitId == c && rs[j].manifestHash == m
  {
    j :| j < |rs| && rs[j].operation == Staged && rs[j].commitId == c && rs[j].manifestHash == m;
  }

  // Every receipt is either a staging still open or one half of a published commit.
  lemma {:induction false} CountLaw(env: Env, rs: seq<AuditReceipt>)
    requires Verify(env, rs, None).Ok?
    ensures var s := Verify(env, rs, None).value; s.count == |s.staged| + 2 * |s.published|
    decreases |rs|
  {
    hide Verify;
    if rs == [] {
      NoReceipts(env);
    } else {
      var n := |rs| - 1;
      assert rs == rs[..n] + [rs[n]];
      TablesNext(env, rs[..n], rs[n]);
      CountLaw(env, rs[..n]);
    }
  }

  lemma NoReceipts(env: Env)
    ensures Verify(env, [], None) == Ok(BLANK)
  {
  }

  // What one more receipt does to the tables: a commit enters, or moves from one to
  // the other.
  lemma TablesNext(env: Env, rs: seq<AuditReceipt>, r: AuditReceipt)
    requires Verify(env, rs + [r], None).Ok?
    ensures Verify(env, rs, None).Ok?
    ensures var s, t := Verify(env, rs, None).value, Verify(env, rs + [r], None).value; var c := r.commitId;
            && t.count == s.count + 1
            && match r.operation
               case Staged => |t.staged| == |s.staged| + 1 && t.published == s.published
               case Published => |t.staged| + 1 == |s.staged| && |t.published| == |s.published| + 1
  {
    hide Run, Apply;
    RunSnoc(Step(env), BLANK, rs, r);
    ApplyTables(env, Run(Step(env), BLANK, rs).value, r);
  }

  lemma ApplyTables(env: Env, s: State, r: AuditReceipt)
    requires Apply(env, s, r).Ok?
    ensures var t := Apply(env, s, r).value;
            && t.count == s.count + 1
            && match r.operation
               case Staged => |t.staged| == |s.staged| + 1 && t.published == s.published
               case Published => |t.staged| + 1 == |s.staged| && |t.published| == |s.published| + 1
  {
    hide Validate;
    if r.operation == Staged {
      MapWith(s.staged, r.commitId, r.manifestHash);
    } else {
      MapWithout(s.staged, r.commitId);
    }
  }

  lemma MapWith<K, V>(m: map<K, V>, k: K, v: V)
    requires k !in m
    ensures |m[k := v]| == |m| + 1
  {
    assert m[k := v].Keys == m.Keys + {k};
  }

  lemma MapWithout<K, V>(m: map<K, V>, k: K)
    requires k in m
    ensures |m - {k}| + 1 == |m|
  {
    assert m.Keys == (m - {k}).Keys + {k};
  }

  lemma AcceptedLinked(env: Env, rs: seq<AuditReceipt>)
    requires Verify(env, rs, None).Ok?
    ensures Linked(env.receiptHash, PreviousOf, None, rs)
  {
    AcceptedIffLawful(env, rs);
    forall i | 0 <= i < |rs| ensures PreviousOf(rs[i]) == Tip(env.receiptHash, None, rs[..i]) {
      assert Lawful(env, rs, i);
    }
  }

  // The checkpoint a caller keeps of an accepted, non-empty sequence.
  function CheckpointOf(env: Env, rs: seq<AuditReceipt>): Checkpoint
    requires Verify(env, rs, None).Ok? && rs != []
  {
    ScalarsOf(env, rs);
    var s := Verify(env, rs, None).value;
    Checkpoint(s.count, s.previous.value, s.head)
  }

  // A checkpoint pins the whole sequence: it accepts the sequence it was taken
  // from, and no other.
  lemma CheckpointPinsSequence(env: Env, rs: seq<AuditReceipt>, other: seq<AuditReceipt>)
    requires Sound(env) && Verify(env, rs, None).Ok? && rs != []
    ensures Verify(env, other, Some(CheckpointOf(env, rs))).Ok? <==> other == rs
  {
    ScalarsOf(env, rs);
    if Verify(env, other, Some(CheckpointOf(env, rs))).Ok? {
      ScalarsOf(env, other);
      AcceptedLinked(env, rs);
      AcceptedLinked(env, other);
      TipPinsChain(env.receiptHash, PreviousOf, None, rs, other);
    }
  }

  // A retained checkpoint accepts exactly the lawful, non-empty sequences of that many
  // receipts that end in that digest and leave that HEAD.
  lemma CheckpointIff(env: Env, rs: seq<AuditReceipt>, cp: Checkpoint)
    requires Sound(env)
    ensures Verify(env, rs, Some(cp)).Ok? <==>
            && LawfulChain(env, rs) && rs != []
            && cp.count == |rs| && cp.tip == env.receiptHash(rs[|rs| - 1]) && cp.lastHead == HeadOf(rs)
  {
    hide LawfulChain, HeadOf;
    AcceptedIffLawful(env, rs);
    if Verify(env, rs, None).Ok? { ScalarsOf(env, rs); }
  }

  lemma SameCheckpointSameSequence(env: Env, a: seq<AuditReceipt>, b: seq<AuditReceipt>, cp: Checkpoint)
    requires Sound(env)
    requires Verify(env, a, Some(cp)).Ok? && Verify(env, b, Some(cp)).Ok?
    ensures a == b
  {
    ScalarsOf(env, a);
    ScalarsOf(env, b);
    CheckpointPinsSequence(env, a, b);
  }

  lemma PrefixAccepted(env: Env, rs: seq<AuditReceipt>, n: nat)
    requires Verify(env, rs, None).Ok? && n <= |rs|
    ensures Verify(env, rs[..n], None).Ok?
  {
    RunPrefix(Step(env), BLANK, rs, n);
  }

  // A new receipt is made exactly when the sequence is accepted, the caller knows
  // its HEAD, and the operation is lawful there; it is the only receipt with those
  // contents that extends the sequence.
  lemma NextExact(env: Env, prior: seq<AuditReceipt>, op: AuditOperation, c: string, m: Digest,
                  before: Option<Digest>, after: Option<Digest>, r: AuditReceipt)
    ensures Next(env, prior, op, c, m, before, after) == Ok(r) <==>
            && LawfulChain(env, prior + [r]) && |prior| < U64_MAX
            && r.operation == op && r.commitId == c && r.manifestHash == m
            && r.headBefore == before && r.headAfter == after
  {
    hide Run, HeadOf, StagedAs, Names;
    AcceptedIffLawful(env, prior);
    AcceptedIffLawful(env, prior + [r]);
    LawfulSnoc(env, prior, r);
    if Verify(env, prior, None).Ok? {
      ScalarsOf(env, prior);
      assert (prior + [r])[..|prior|] == prior;
    }
  }
}
