// What the replayed journal promises: the fencing law over whole journals, and
// historical floors that pin whole prefixes.
module FencingLaws {
  import opened Base
  import opened Chains
  import opened Fencing

  // ----- The fencing law

  lemma AcquisitionsMonotone(j: Journal, m: nat, n: nat)
    requires m <= n <= |j|
    ensures Acquisitions(j[..m]) <= Acquisitions(j[..n])
    decreases n - m
  {
    if m < n {
      assert j[..n][..n - 1] == j[..n - 1];
      AcquisitionsMonotone(j, m, n - 1);
    }
  }

  lemma AcquisitionsConstant(j: Journal, m: nat, n: nat)
    requires m <= n <= |j|
    requires forall k :: m <= k < n ==> !IsAcquire(j[k])
    ensures Acquisitions(j[..m]) == Acquisitions(j[..n])
    decreases n - m
  {
    if m < n {
      assert j[..n][..n - 1] == j[..n - 1];
      AcquisitionsConstant(j, m, n - 1);
    }
  }

  // The epoch a record carries is the number of acquisitions up to and including it.
  lemma EpochOfRecord(env: Env, j: Journal, i: nat)
    requires LawfulJournal(env, j) && i < |j|
    ensures j[i].Whole? && j[i].entry.action.grant.epoch == Acquisitions(j[..i + 1])
  {
    assert Lawful(env, j, i);
    assert j[..i + 1][..i] == j[..i];
    if IsSpend(j[i]) {
      var k: nat :| LatestGrantAt(j, i, k, j[i].entry.action.grant);
      assert Lawful(env, j, k);
      assert j[..k + 1][..k] == j[..k];
      AcquisitionsConstant(j, k + 1, i);
    }
  }

  lemma EpochsRise(env: Env, j: Journal, i: nat, k: nat)
    requires LawfulJournal(env, j) && i < k < |j|
    ensures j[i].Whole? && j[k].Whole?
    ensures j[i].entry.action.grant.epoch <= j[k].entry.action.grant.epoch
    ensures IsAcquire(j[k]) ==> j[i].entry.action.grant.epoch < j[k].entry.action.grant.epoch
  {
    assert Lawful(env, j, i) && Lawful(env, j, k);
    EpochOfRecord(env, j, i);
    EpochOfRecord(env, j, k);
    AcquisitionsMonotone(j, i + 1, k);
    assert j[..k + 1][..k] == j[..k];
  }

  // The later of two records carries no smaller epoch, and an acquisition a greater one.
  ghost predicate InOrder(j: Journal, i: nat, k: nat)
    requires i < k < |j|
  {
    && j[i].Whole? && j[k].Whole?
    && j[i].entry.action.grant.epoch <= j[k].entry.action.grant.epoch
    && (IsAcquire(j[k]) ==> j[i].entry.action.grant.epoch < j[k].entry.action.grant.epoch)
  }

  ghost predicate EpochsNeverFall(j: Journal) {
    forall i: nat, k: nat :: i < k < |j| ==> InOrder(j, i, k)
  }

  ghost predicate NoncesDiffer(j: Journal, i: nat, k: nat)
    requires i < k < |j|
  {
    IsSpend(j[i]) && IsSpend(j[k]) ==> j[i].entry.action.nonce != j[k].entry.action.nonce
  }

  ghost predicate NoncesDistinct(j: Journal) {
    forall i: nat, k: nat :: i < k < |j| ==> NoncesDiffer(j, i, k)
  }

  ghost predicate SpendsHeld(j: Journal) {
    forall i :: 0 <= i < |j| && IsSpend(j[i]) ==> LatestGrant(j, i, j[i].entry.action.grant)
  }

  lemma LawfulOrder(env: Env, j: Journal)
    requires LawfulJournal(env, j)
    ensures EpochsNeverFall(j)
  {
    forall i: nat, k: nat | i < k < |j| ensures InOrder(j, i, k) {
      EpochsRise(env, j, i, k);
    }
  }

  lemma NoncesNeverRepeat(env: Env, j: Journal)
    requires Replay(env, j).Ok?
    ensures NoncesDistinct(j)
  {
    ReplayIffLawful(env, j);
    forall i: nat, k: nat | i < k < |j| ensures NoncesDiffer(j, i, k) {
      if IsSpend(j[i]) && IsSpend(j[k]) {
        assert Lawful(env, j, k) && !Spends(j[i], j[k].entry.action.nonce);
      }
    }
  }

  // In every replayable journal: a spend carries the grant of the latest
  // acquisition before it, epochs never fall and rise with every acquisition, no
  // nonce is spent twice, and records are acquisitions plus spent nonces.
  lemma FencingLaw(env: Env, j: Journal)
    requires Replay(env, j).Ok?
    ensures SpendsHeld(j) && EpochsNeverFall(j) && NoncesDistinct(j)
    ensures var s := Replay(env, j).value;
            s.Checkpoint().recordCount == s.epoch + s.Checkpoint().nonceClaims
  {
    ReplayIffLawful(env, j);
    LawfulOrder(env, j);
    NoncesNeverRepeat(env, j);
    forall i | 0 <= i < |j| && IsSpend(j[i]) ensures LatestGrant(j, i, j[i].entry.action.grant) {
      assert Lawful(env, j, i);
    }
  }

  // ----- Floors

  lemma ReplayLinked(env: Env, j: Journal)
    requires Replay(env, j).Ok?
    ensures Linked(env.fileHash, PreviousOf, None, j)
  {
    ReplayIffLawful(env, j);
    forall i | 0 <= i < |j| ensures PreviousOf(j[i]) == Tip(env.fileHash, None, j[..i]) {
      assert Lawful(env, j, i);
    }
  }

  lemma ReplayablePrefix(env: Env, j: Journal, n: nat)
    requires n <= |j| && Replay(env, j).Ok?
    ensures Replay(env, j[..n]).Ok?
  {
    RunPrefix(Step(env), BLANK, j, n);
  }

  // The checkpoint a replayable journal had when it was n records long.
  function CheckpointAt(env: Env, j: Journal, n: nat): FencingCheckpoint
    requires n <= |j| && Replay(env, j).Ok?
  {
    ReplayablePrefix(env, j, n);
    Replay(env, j[..n]).value.Checkpoint()
  }

  // Every record adds the checkpoint of the prefix that ends with it.
  lemma PrefixListSnoc(env: Env, p: Journal, f: File<FencingEntry>)
    requires Replay(env, p + [f]).Ok?
    ensures Replay(env, p).Ok?
    ensures Replay(env, p + [f]).value.prefix == Replay(env, p).value.prefix + [Replay(env, p + [f]).value.Checkpoint()]
  {
    ReplaySnoc(env, p, f);
  }

  // The prefix list kept by the replay is the list of those checkpoints.
  lemma {:induction false} PrefixList(env: Env, j: Journal, n: nat)
    requires Replay(env, j).Ok? && n < |j| == |Replay(env, j).value.prefix|
    ensures Replay(env, j).value.prefix[n] == CheckpointAt(env, j, n + 1)
    decreases |j|
  {
    var l := |j| - 1;
    var p := j[..l];
    assert j == p + [j[l]];
    PrefixListSnoc(env, p, j[l]);
    if n < l {
      PrefixList(env, p, n);
      assert p[..n + 1] == j[..n + 1];
    } else {
      assert j[..n + 1] == j;
    }
  }

  lemma ReplayShape(env: Env, j: Journal)
    requires Replay(env, j).Ok?
    ensures var s := Replay(env, j).value;
            && s.count == |j| == |s.prefix| && s.epoch + |s.nonces| == s.count
            && s.tip == Tip(env.fileHash, None, j)
            && (s.active.None? <==> j == [])
            && (s.active.Some? ==> s.active.value.epoch == s.epoch > 0)
    ensures j != [] ==> j[|j| - 1].Whole? && j[|j| - 1].entry.sequence == |j|
  {
    ReplayIffLawful(env, j);
    if j != [] {
      assert Lawful(env, j, |j| - 1);
    }
  }

  // Comparison of a journal against a retained checkpoint.
  function VerifyFloor(env: Env, j: Journal, floor: FencingCheckpoint): Result<FencingCheckpoint, Error> {
    if !ValidCheckpoint(env.validHash, floor) then Err(InvalidCheckpoint)
    else
      match Replay(env, j)
      case Err(e) => Err(e)
      case Ok(s) =>
        if floor.recordCount > s.count then Err(BelowFloor)
        else
          ReplayShape(env, j);
          var local := if floor.recordCount == 0 then GENESIS else s.prefix[floor.recordCount - 1];
          if local != floor then Err(Diverged) else Ok(s.Checkpoint())
  }

  lemma CheckpointsValid(env: Env, j: Journal)
    requires Sound(env) && Replay(env, j).Ok?
    ensures ValidCheckpoint(env.validHash, Replay(env, j).value.Checkpoint())
  {
    ReplayIffLawful(env, j);
  }

  // A floor that passes is the checkpoint of the journal at the floor's height.
  lemma FloorIsHistory(env: Env, k: Journal, floor: FencingCheckpoint)
    requires Sound(env)
    ensures VerifyFloor(env, k, floor).Ok? <==>
            Replay(env, k).Ok? && floor.recordCount <= |k| && CheckpointAt(env, k, floor.recordCount) == floor
    ensures VerifyFloor(env, k, floor).Ok? ==> VerifyFloor(env, k, floor).value == Replay(env, k).value.Checkpoint()
  {
    if Replay(env, k).Ok? {
      ReplayIffLawful(env, k);
      var n := floor.recordCount;
      if n <= |k| {
        ReplayablePrefix(env, k, n);
        CheckpointsValid(env, k[..n]);
        if n > 0 {
          PrefixList(env, k, n - 1);
        }
      }
    }
  }

  // Floors pin whole prefixes: a checkpoint taken from journal j at height n passes
  // on journal k exactly when k is replayable and begins with the first n records of j.
  lemma FloorPinsPrefix(env: Env, j: Journal, n: nat, k: Journal)
    requires Sound(env) && Replay(env, j).Ok? && n <= |j|
    ensures VerifyFloor(env, k, CheckpointAt(env, j, n)).Ok? <==>
            Replay(env, k).Ok? && n <= |k| && k[..n] == j[..n]
  {
    var floor := CheckpointAt(env, j, n);
    ReplayablePrefix(env, j, n);
    ReplayIffLawful(env, j[..n]);
    FloorIsHistory(env, k, floor);
    if Replay(env, k).Ok? && n <= |k| && CheckpointAt(env, k, n) == floor {
      ReplayablePrefix(env, k, n);
      ReplayIffLawful(env, k[..n]);
      ReplayLinked(env, j[..n]);
      ReplayLinked(env, k[..n]);
      TipPinsChain(env.fileHash, PreviousOf, None, j[..n], k[..n]);
    }
  }

  // A checkpoint taken earlier keeps passing after any number of further records.
  lemma FloorsNeverExpire(env: Env, j: Journal, n: nat, more: Journal)
    requires Sound(env) && Replay(env, j + more).Ok? && n <= |j|
    ensures Replay(env, j).Ok? && VerifyFloor(env, j + more, CheckpointAt(env, j, n)).Ok?
  {
    assert (j + more)[..|j|] == j;
    ReplayablePrefix(env, j + more, |j|);
    assert (j + more)[..n] == j[..n];
    FloorPinsPrefix(env, j, n, j + more);
  }
}
