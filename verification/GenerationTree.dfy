// The tree the generation store grows, and what the ancestry walk decides in it.
module GenerationTree {
  import opened Base
  import opened Chains
  import opened Generations
  import opened Recovery

  type Store = map<string, Dir>

  // The generation the store was provisioned with, and the parent id it names.
  datatype Origin = Origin(bootstrap: string, parent: string)

  function ManifestAt(env: Env, g: Store, id: string): Manifest
    requires Verify(env, g, id, None).Ok?
  {
    Verify(env, g, id, None).value
  }

  // A sound generation: it verifies, its manifest is the canonical encoding, and
  // unless it is the bootstrap its parent is a sound generation one number lower.
  ghost predicate SoundGeneration(env: Env, o: Origin, g: Store, id: string) {
    && Verify(env, g, id, None).Ok?
    && var m := ManifestAt(env, g, id);
    && g[id][ManifestFile] == env.encodeManifest(m)
    && if id == o.bootstrap then m.parent == o.parent
       else m.parent in g && Verify(env, g, m.parent, None).Ok? && ManifestAt(env, g, m.parent).seqNo + 1 == m.seqNo
  }

  // Everything has grown from the bootstrap.
  ghost predicate Rooted(env: Env, o: Origin, g: Store) {
    o.bootstrap in g && forall id :: id in g ==> SoundGeneration(env, o, g, id)
  }

  // And the bootstrap's parent id is no generation, so that it is a tree.
  ghost predicate Tree(env: Env, o: Origin, g: Store) {
    Rooted(env, o, g) && o.parent !in g
  }

  // HEAD can be read, and names a generation under its true digests and number.
  ghost predicate HeadSound(env: Env, d: Disk) {
    && d.head.Some? && ParseHead(env, d.head.value).Some?
    && var h := ParseHead(env, d.head.value).value;
    && Verify(env, d.generations, h.commitId, Some((h.manifestHash, h.promotionHash))).Ok?
    && Verify(env, d.generations, h.commitId, Some((h.manifestHash, h.promotionHash))).value.seqNo == h.seqNo
  }

  ghost predicate Grown(env: Env, o: Origin, d: Disk) {
    Rooted(env, o, d.generations) && HeadSound(env, d)
  }

  ghost predicate Inv(env: Env, o: Origin, d: Disk) {
    Tree(env, o, d.generations) && HeadSound(env, d)
  }

  function HeadCommit(env: Env, d: Disk): string
    requires d.head.Some? && ParseHead(env, d.head.value).Some?
  {
    ParseHead(env, d.head.value).value.commitId
  }

  // ----- Ancestry

  ghost function Parent(env: Env, g: Store, id: string): Option<string> {
    match Verify(env, g, id, None) case Ok(m) => Some(m.parent) case Err(_) => None
  }

  // The n-th ancestor.
  ghost function Up(env: Env, g: Store, id: string, n: nat): Option<string> {
    if n == 0 then Some(id)
    else match Up(env, g, id, n - 1) case None => None case Some(x) => Parent(env, g, x)
  }

  ghost predicate Descends(env: Env, g: Store, id: string, from: string) {
    exists n: nat :: Up(env, g, id, n) == Some(from)
  }

  ghost predicate ProperAncestor(env: Env, g: Store, id: string, from: string) {
    exists n: nat :: n >= 1 && Up(env, g, from, n) == Some(id)
  }

  lemma UpStep(env: Env, g: Store, id: string, n: nat)
    ensures Up(env, g, id, 0) == Some(id)
    ensures Up(env, g, id, n + 1) ==
            match Up(env, g, id, n) case None => None case Some(x) => Parent(env, g, x)
  {
  }

  lemma {:induction false} UpAdd(env: Env, g: Store, id: string, n: nat, k: nat)
    ensures Up(env, g, id, n + k) ==
            match Up(env, g, id, n) case None => None case Some(x) => Up(env, g, x, k)
    decreases k
  {
    hide Up, Parent;
    if k > 0 {
      UpAdd(env, g, id, n, k - 1);
      UpStep(env, g, id, n + k - 1);
      if Up(env, g, id, n).Some? {
        UpStep(env, g, Up(env, g, id, n).value, k - 1);
      }
    } else if Up(env, g, id, n).Some? {
      UpStep(env, g, Up(env, g, id, n).value, 0);
    }
  }

  lemma UpShift(env: Env, g: Store, id: string, n: nat)
    ensures Up(env, g, id, n + 1) ==
            match Parent(env, g, id) case None => None case Some(p) => Up(env, g, p, n)
  {
    hide Up, Parent;
    UpStep(env, g, id, 0);
    UpAdd(env, g, id, 1, n);
  }

  // Every step up the tree goes down one number.
  lemma {:induction false} UpNumbers(env: Env, o: Origin, g: Store, id: string, n: nat)
    requires Tree(env, o, g) && id in g && Up(env, g, id, n).Some?
    ensures Verify(env, g, id, None).Ok?
    ensures var x := Up(env, g, id, n).value;
            if x in g then Verify(env, g, x, None).Ok? && ManifestAt(env, g, x).seqNo + n == ManifestAt(env, g, id).seqNo
            else x == o.parent
    decreases n
  {
    hide Up, Verify, Tree, Parent;
    ParentNumber(env, o, g, id);
    if n == 0 {
      UpStep(env, g, id, 0);
    } else {
      UpStep(env, g, id, n - 1);
      UpNumbers(env, o, g, id, n - 1);
      ParentNumber(env, o, g, Up(env, g, id, n - 1).value);
    }
  }

  // The parent of a generation is one lower, or the origin's; outside there is none.
  lemma ParentNumber(env: Env, o: Origin, g: Store, y: string)
    requires Tree(env, o, g)
    ensures y !in g ==> Parent(env, g, y) == None
    ensures y in g ==> && Verify(env, g, y, None).Ok? && Parent(env, g, y).Some?
                       && var x := Parent(env, g, y).value;
                          if x in g then Verify(env, g, x, None).Ok? && ManifestAt(env, g, x).seqNo + 1 == ManifestAt(env, g, y).seqNo
                          else x == o.parent
  {
    hide VerifyDir;
    if y in g {
      assert SoundGeneration(env, o, g, y);
    }
  }

  lemma AncestorLower(env: Env, o: Origin, g: Store, x: string, id: string)
    requires Tree(env, o, g) && id in g && x in g && ProperAncestor(env, g, x, id)
    ensures Verify(env, g, x, None).Ok? && Verify(env, g, id, None).Ok?
    ensures ManifestAt(env, g, x).seqNo < ManifestAt(env, g, id).seqNo
  {
    hide Up, Verify, Tree;
    var n: nat :| n >= 1 && Up(env, g, id, n) == Some(x);
    UpNumbers(env, o, g, id, n);
  }

  // Going up, one generation is never met twice.
  lemma AncestorsDiffer(env: Env, o: Origin, g: Store, id: string, x: string)
    requires Tree(env, o, g) && id in g && x in g && ProperAncestor(env, g, x, id)
    ensures !Descends(env, g, x, id)
  {
    hide Up, Verify, Tree;
    AncestorLower(env, o, g, x, id);
    if k: nat :| Up(env, g, x, k) == Some(id) {
      UpNumbers(env, o, g, x, k);
    }
  }

  // ----- Growth

  ghost predicate Grows(g: Store, g': Store) {
    forall id :: id in g ==> id in g' && g'[id] == g[id]
  }

  lemma ParentStable(env: Env, o: Origin, g: Store, g': Store, y: string)
    requires Tree(env, o, g) && Grows(g, g') && o.parent !in g' && (y in g || y == o.parent)
    ensures Parent(env, g', y) == Parent(env, g, y)
  {
    hide VerifyDir;
  }

  lemma {:induction false} UpStable(env: Env, o: Origin, g: Store, g': Store, id: string, n: nat)
    requires Tree(env, o, g) && Grows(g, g') && o.parent !in g' && id in g
    ensures Up(env, g', id, n) == Up(env, g, id, n)
    decreases n
  {
    hide Up, Verify, Tree, Grows, Parent;
    if n > 0 {
      UpStable(env, o, g, g', id, n - 1);
      UpStep(env, g, id, n - 1);
      UpStep(env, g', id, n - 1);
      if Up(env, g, id, n - 1).Some? {
        UpNumbers(env, o, g, id, n - 1);
        ParentStable(env, o, g, g', Up(env, g, id, n - 1).value);
      }
    } else {
      UpStep(env, g, id, 0);
      UpStep(env, g', id, 0);
    }
  }

  lemma SoundStays(env: Env, o: Origin, g: Store, g': Store, x: string)
    requires SoundGeneration(env, o, g, x) && Grows(g, g') && x in g
    ensures SoundGeneration(env, o, g', x)
  {
    hide VerifyDir;
  }

  // A generation added under an existing parent has grown like the others.
  lemma RootedGrows(env: Env, o: Origin, g: Store, id: string, dir: Dir)
    requires Rooted(env, o, g) && id !in g
    requires VerifyDir(env, id, dir, None).Ok? && Required(id)
    requires var m := VerifyDir(env, id, dir, None).value;
             && ManifestFile in dir && dir[ManifestFile] == env.encodeManifest(m)
             && m.parent in g && Verify(env, g, m.parent, None).Ok? && ManifestAt(env, g, m.parent).seqNo + 1 == m.seqNo
    ensures Rooted(env, o, g[id := dir])
  {
    hide VerifyDir, Rooted;
    RootedAt(env, o, g, o.bootstrap);
    var g' := g[id := dir];
    NewSound(env, o, g, id, dir);
    hide SoundGeneration, Verify;
    forall x | x in g' ensures SoundGeneration(env, o, g', x) {
      if x != id {
        RootedAt(env, o, g, x);
        SoundStays(env, o, g, g', x);
      }
    }
    RootedIs(env, o, g, g');
  }

  lemma NewSound(env: Env, o: Origin, g: Store, id: string, dir: Dir)
    requires id !in g && id != o.bootstrap && VerifyDir(env, id, dir, None).Ok? && Required(id)
    requires var m := VerifyDir(env, id, dir, None).value;
             && ManifestFile in dir && dir[ManifestFile] == env.encodeManifest(m)
             && m.parent in g && Verify(env, g, m.parent, None).Ok? && ManifestAt(env, g, m.parent).seqNo + 1 == m.seqNo
    ensures SoundGeneration(env, o, g[id := dir], id)
  {
    hide VerifyDir;
  }

  lemma RootedAt(env: Env, o: Origin, g: Store, id: string)
    requires Rooted(env, o, g)
    ensures id in g ==> SoundGeneration(env, o, g, id)
    ensures o.bootstrap in g
  {
    hide SoundGeneration;
  }

  // The parent of a generation is a generation, or the bootstrap's parent id.
  lemma ParentInside(env: Env, o: Origin, g: Store, y: string)
    requires Rooted(env, o, g) && y in g
    ensures Parent(env, g, y).Some? && (Parent(env, g, y).value in g || Parent(env, g, y).value == o.parent)
  {
    hide VerifyDir, Rooted;
    RootedAt(env, o, g, y);
  }

  lemma RootedIs(env: Env, o: Origin, g: Store, g': Store)
    requires Rooted(env, o, g) && Grows(g, g') && forall x :: x in g' ==> SoundGeneration(env, o, g', x)
    ensures Rooted(env, o, g')
  {
    hide SoundGeneration;
  }

  // Where a path up the tree leads does not change as generations are added.
  lemma {:induction false} UpGrows(env: Env, g: Store, g': Store, id: string, n: nat)
    requires Grows(g, g') && Up(env, g, id, n).Some?
    ensures Up(env, g', id, n) == Up(env, g, id, n)
    decreases n
  {
    hide Up, VerifyDir;
    if n > 0 {
      UpStep(env, g, id, n - 1);
      UpStep(env, g', id, n - 1);
      UpGrows(env, g, g', id, n - 1);
    } else {
      UpStep(env, g, id, 0);
      UpStep(env, g', id, 0);
    }
  }

  lemma AncestorGrows(env: Env, g: Store, g': Store, x: string, id: string)
    requires Grows(g, g') && ProperAncestor(env, g, x, id)
    ensures ProperAncestor(env, g', x, id)
  {
    hide Up, Grows;
    var n: nat :| n >= 1 && Up(env, g, id, n) == Some(x);
    UpGrows(env, g, g', id, n);
  }

  // ----- The walk

  // A proper ancestor is the parent, or a proper ancestor of the parent.
  lemma AncestorShift(env: Env, g: Store, commit: string, target: string)
    ensures ProperAncestor(env, g, target, commit) <==>
            Parent(env, g, commit).Some?
            && (Parent(env, g, commit).value == target || ProperAncestor(env, g, target, Parent(env, g, commit).value))
  {
    hide Up, Parent;
    if n: nat :| n >= 1 && Up(env, g, commit, n) == Some(target) {
      UpShift(env, g, commit, n - 1);
      if n == 1 { UpStep(env, g, Parent(env, g, commit).value, 0); } else { assert n - 1 >= 1; }
    }
    if Parent(env, g, commit).Some? {
      var p := Parent(env, g, commit).value;
      if p == target {
        UpShift(env, g, commit, 0);
        UpStep(env, g, p, 0);
        assert Up(env, g, commit, 1) == Some(target);
      }
      if n: nat :| n >= 1 && Up(env, g, p, n) == Some(target) {
        UpShift(env, g, commit, n);
        assert Up(env, g, commit, n + 1) == Some(target);
      }
    }
  }

  // In the tree the walk neither fails nor loops: it accepts exactly the proper
  // ancestors that are generations.
  lemma {:induction false} WalkFrom(env: Env, o: Origin, g: Store, commit: string, target: string, seen: set<string>)
    requires Tree(env, o, g) && commit in g && Verify(env, g, commit, None).Ok?
    requires forall x :: x in seen ==> Verify(env, g, x, None).Ok?
                                       && ManifestAt(env, g, x).seqNo > ManifestAt(env, g, commit).seqNo
    ensures Walk(env, g, commit, target, seen).Ok? <==> target in g && ProperAncestor(env, g, target, commit)
    decreases ManifestAt(env, g, commit).seqNo
  {
    hide VerifyDir, ProperAncestor;
    var m := ManifestAt(env, g, commit);
    ParentNumber(env, o, g, commit);
    AncestorShift(env, g, commit, target);
    if m.parent == target {
      if target in g { assert SoundGeneration(env, o, g, target); }
    } else if m.parent !in g {
      ParentNumber(env, o, g, m.parent);
      AncestorShift(env, g, m.parent, target);
    } else {
      WalkFrom(env, o, g, m.parent, target, seen + {commit});
    }
  }

  // Whatever the store looks like, what the walk accepts is up the tree.
  lemma {:induction false} WalkAscends(env: Env, g: Store, commit: string, target: string, seen: set<string>)
    requires Walk(env, g, commit, target, seen).Ok?
    ensures target in g && ProperAncestor(env, g, target, commit)
    decreases g.Keys - seen
  {
    hide VerifyDir, ProperAncestor;
    AncestorShift(env, g, commit, target);
    var m := Verify(env, g, commit, None).value;
    if m.parent != target {
      WalkAscends(env, g, m.parent, target, seen + {commit});
    }
  }

  // Once the bootstrap's parent id is a generation, the walk reaches it from every
  // other generation, by way of the bootstrap if not before.
  lemma {:induction false} WalkToOrigin(env: Env, o: Origin, g: Store, commit: string, seen: set<string>)
    requires Rooted(env, o, g) && o.parent in g && commit in g && Verify(env, g, commit, None).Ok? && commit != o.parent
    requires forall x :: x in seen ==> Verify(env, g, x, None).Ok?
                                       && ManifestAt(env, g, x).seqNo > ManifestAt(env, g, commit).seqNo
    ensures Walk(env, g, commit, o.parent, seen).Ok?
    decreases ManifestAt(env, g, commit).seqNo
  {
    hide VerifyDir, Rooted;
    var m := ManifestAt(env, g, commit);
    RootedAt(env, o, g, commit);
    RootedAt(env, o, g, o.parent);
    if m.parent != o.parent {
      WalkToOrigin(env, o, g, m.parent, seen + {commit});
    }
  }

  lemma RollbackChecks(env: Env, d: Disk, intake: Intake, auth: RecoveryAuthorization)
    requires Recovery.Bound(env, intake, auth) && auth.expectedExists && auth.expectedHash == HeadDigest(env, d)
    requires d.head.Some? && ParseHead(env, d.head.value).Some?
    ensures var h := ParseHead(env, d.head.value).value;
            CheckRollback(env, d, intake, auth).Ok? <==>
            && Verify(env, d.generations, auth.target, None).Ok?
            && ManifestAt(env, d.generations, auth.target).seqNo < h.seqNo
            && (auth.target == h.commitId || Walk(env, d.generations, h.commitId, auth.target, {}).Ok?)
  {
    hide Walk, VerifyDir;
    if Verify(env, d.generations, auth.target, None).Ok? {
      VerifiedFiles(env, d.generations, auth.target, None);
    }
  }

  // With a readable HEAD in the tree, a bound and unchanged authorization passes
  // exactly when its target is a generation and a proper ancestor of HEAD.
  lemma RollbackExact(env: Env, o: Origin, d: Disk, intake: Intake, auth: RecoveryAuthorization)
    requires Inv(env, o, d)
    requires Recovery.Bound(env, intake, auth) && auth.expectedExists && auth.expectedHash == HeadDigest(env, d)
    ensures CheckRollback(env, d, intake, auth).Ok? <==>
            auth.target in d.generations && ProperAncestor(env, d.generations, auth.target, HeadCommit(env, d))
  {
    hide Up, Walk, Verify, Tree, ProperAncestor, Parent, ParseHead, CheckRollback;
    var g, commit := d.generations, HeadCommit(env, d);
    HeadNumber(env, d);
    RollbackChecks(env, d, intake, auth);
    WalkFrom(env, o, g, commit, auth.target, {});
    if Verify(env, g, auth.target, None).Ok? {
      VerifiedFiles(env, g, auth.target, None);
    }
    if auth.target in g && ProperAncestor(env, g, auth.target, commit) {
      AncestorLower(env, o, g, auth.target, commit);
    }
  }

  // In whatever has grown from the bootstrap, a rollback that passes its checks goes
  // up the tree from HEAD.
  lemma RollbackAscends(env: Env, o: Origin, d: Disk, intake: Intake, auth: RecoveryAuthorization)
    requires Grown(env, o, d) && CheckRollback(env, d, intake, auth).Ok?
    ensures auth.target in d.generations && d.head.Some? && ParseHead(env, d.head.value).Some?
    ensures ProperAncestor(env, d.generations, auth.target, HeadCommit(env, d))
  {
    hide Rooted, Walk, VerifyDir, ParseHead, ProperAncestor, ValidManifest;
    HeadNumber(env, d);
    VerifiedFiles(env, d.generations, auth.target, None);
    WalkAscends(env, d.generations, HeadCommit(env, d), auth.target, {});
  }

  // Once the bootstrap's parent id is a generation, a bound and unchanged
  // authorization for it passes exactly when it is numbered below HEAD: whether HEAD
  // descends from it plays no part.
  lemma RollbackToOrigin(env: Env, o: Origin, d: Disk, intake: Intake, auth: RecoveryAuthorization)
    requires Grown(env, o, d) && o.parent in d.generations && auth.target == o.parent
    requires Recovery.Bound(env, intake, auth) && auth.expectedExists && auth.expectedHash == HeadDigest(env, d)
    ensures Verify(env, d.generations, o.parent, None).Ok? && d.head.Some? && ParseHead(env, d.head.value).Some?
    ensures CheckRollback(env, d, intake, auth).Ok? <==>
            ManifestAt(env, d.generations, o.parent).seqNo < ParseHead(env, d.head.value).value.seqNo
  {
    hide Rooted, Walk, VerifyDir, ParseHead, CheckRollback;
    HeadNumber(env, d);
    RootedAt(env, o, d.generations, o.parent);
    RollbackChecks(env, d, intake, auth);
    if HeadCommit(env, d) != o.parent {
      WalkToOrigin(env, o, d.generations, HeadCommit(env, d), {});
    }
  }

  // What a sound HEAD says about the generation it names.
  lemma HeadNumber(env: Env, d: Disk)
    requires HeadSound(env, d)
    ensures d.head.Some? && ParseHead(env, d.head.value).Some?
    ensures var h := ParseHead(env, d.head.value).value;
            && h.commitId in d.generations && Verify(env, d.generations, h.commitId, None).Ok?
            && ManifestAt(env, d.generations, h.commitId).seqNo == h.seqNo
  {
  }
}
