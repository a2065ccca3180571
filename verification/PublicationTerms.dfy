// What the generation store promises about each of its operations, in terms of the
// documents, files and evidence alone: when a staging, a verification, a publication
// and a rollback go through, and what they leave.
module PublicationTerms {
  import opened Base
  import opened Chains
  import opened Generations
  import opened Recovery
  import opened GenerationTree
  import R = GenerationRuns
  import A = Ledger

  // ----- Documents

  predicate ManifestTerms(env: Env, m: Manifest) {
    && Required(m.commitId) && Required(m.parent) && Required(m.caseId) && Required(m.schema)
    && Required(m.decisionId) && Required(m.policy)
    && m.seqNo > 0 && m.commitId != m.parent && |m.payloads| > 0
    && (forall e, f :: e in m.payloads && f in m.payloads && e.path == f.path ==> e == f)
    && (forall i, k :: 0 <= i < k < |m.payloads| ==> m.payloads[i] != m.payloads[k])
    && forall e :: e in m.payloads ==> env.safePath(e.path) && env.validHash(e.hash)
  }

  predicate PromotionTerms(env: Env, p: Promotion) {
    && Required(p.commitId) && Required(p.caseId) && Required(p.decisionId) && Required(p.authorizationId)
    && Required(p.authorizationPolicy) && Required(p.preflightReceipt) && Required(p.policy)
    && env.validHash(p.manifestHash)
  }

  lemma ManifestIff(env: Env, m: Manifest)
    ensures ValidManifest(env, m) <==> ManifestTerms(env, m)
  {
    hide Required;
    PathsIff(m.payloads);
  }

  lemma PathsIff(payloads: seq<PayloadEntry>)
    ensures UniquePaths(payloads) <==>
            && (forall e, f :: e in payloads && f in payloads && e.path == f.path ==> e == f)
            && (forall i, k :: 0 <= i < k < |payloads| ==> payloads[i] != payloads[k])
  {
    if UniquePaths(payloads) {
      forall e, f | e in payloads && f in payloads && e.path == f.path ensures e == f {
        var i :| 0 <= i < |payloads| && payloads[i] == e;
        var k :| 0 <= k < |payloads| && payloads[k] == f;
      }
    } else {
      var i, k :| 0 <= i < k < |payloads| && payloads[i].path == payloads[k].path;
      assert payloads[i] in payloads && payloads[k] in payloads;
    }
  }

  lemma PromotionIff(env: Env, p: Promotion)
    ensures ValidPromotion(env, p) <==> PromotionTerms(env, p)
  {
    hide Required;
  }

  // ----- Files

  // Every declared payload is there with its size and digest.
  predicate PayloadTerms(env: Env, dir: Dir, payloads: seq<PayloadEntry>) {
    forall i :: 0 <= i < |payloads| ==>
      && PayloadFile(payloads[i].path) in dir
      && |dir[PayloadFile(payloads[i].path)]| == payloads[i].size
      && env.hash(dir[PayloadFile(payloads[i].path)]) == payloads[i].hash
  }

  // These payload files, and no others.
  predicate DeclaredOnly(dir: Dir, payloads: seq<PayloadEntry>) {
    forall f :: f in dir && f.PayloadFile? ==> exists i :: 0 <= i < |payloads| && payloads[i].path == f.path
  }

  predicate CandidateTerms(env: Env, dir: Dir, m: Manifest) {
    && ManifestFile in dir && PromotionFile !in dir && env.hash(dir[ManifestFile]) == env.hash(env.encodeManifest(m))
    && PayloadTerms(env, dir, m.payloads) && DeclaredOnly(dir, m.payloads)
  }

  // A directory that holds generation m of this name, with promotion p.
  ghost predicate Holds(env: Env, id: string, dir: Dir, m: Manifest, p: Promotion) {
    && ManifestFile in dir && PromotionFile in dir
    && env.decodeManifest(dir[ManifestFile]) == Some(m) && ManifestTerms(env, m)
    && env.decodePromotion(dir[PromotionFile]) == Some(p) && PromotionTerms(env, p)
    && m.commitId == id && p.commitId == id
    && p.manifestHash == env.hash(dir[ManifestFile]) && p.caseId == m.caseId && p.decisionId == m.decisionId
    && PayloadTerms(env, dir, m.payloads) && DeclaredOnly(dir, m.payloads)
  }

  lemma PayloadsIff(env: Env, dir: Dir, payloads: seq<PayloadEntry>)
    ensures PayloadsIntact(env, dir, payloads) <==> PayloadTerms(env, dir, payloads)
  {
    if PayloadsIntact(env, dir, payloads) {
      forall i | 0 <= i < |payloads| ensures PayloadIntact(env, dir, payloads[i]) { assert payloads[i] in payloads; }
    }
  }

  lemma PathIn(payloads: seq<PayloadEntry>, f: Path)
    ensures f in PayloadPaths(payloads) <==> f.PayloadFile? && exists i :: 0 <= i < |payloads| && payloads[i].path == f.path
  {
    if i :| 0 <= i < |payloads| && f.PayloadFile? && payloads[i].path == f.path {
      assert payloads[i] in payloads;
    }
  }

  // No file but the fixed ones and the declared payloads.
  lemma KeysIff(dir: Dir, payloads: seq<PayloadEntry>, fixed: set<Path>)
    requires forall f :: f in fixed ==> !f.PayloadFile?
    requires PayloadPaths(payloads) <= dir.Keys
    ensures dir.Keys == fixed + PayloadPaths(payloads) <==>
            (forall f :: f in dir && !f.PayloadFile? <==> f in fixed) && DeclaredOnly(dir, payloads)
  {
    forall f ensures f in PayloadPaths(payloads) <==> f.PayloadFile? && exists i :: 0 <= i < |payloads| && payloads[i].path == f.path {
      PathIn(payloads, f);
    }
    hide PayloadPaths;
  }

  lemma PayloadsPresent(env: Env, dir: Dir, payloads: seq<PayloadEntry>)
    requires PayloadTerms(env, dir, payloads)
    ensures PayloadPaths(payloads) <= dir.Keys
  {
    forall f | f in PayloadPaths(payloads) ensures f in dir { PathIn(payloads, f); }
  }

  lemma CandidateIff(env: Env, dir: Dir, m: Manifest)
    ensures CandidateIntact(env, dir, m) <==> CandidateTerms(env, dir, m)
  {
    hide PayloadsIntact, PayloadTerms, DeclaredOnly, PayloadPaths;
    PayloadsIff(env, dir, m.payloads);
    if PayloadTerms(env, dir, m.payloads) {
      PayloadsPresent(env, dir, m.payloads);
      KeysIff(dir, m.payloads, {ManifestFile});
    }
  }

  // The store holds generation m under this name, and under the two digests if any
  // are given.
  ghost predicate Held(env: Env, g: Store, id: string, expected: Option<(Digest, Digest)>, m: Manifest) {
    && Required(id) && id in g && (exists p :: Holds(env, id, g[id], m, p))
    && (expected.Some? ==>
          env.hash(g[id][ManifestFile]) == expected.value.0 && env.hash(g[id][PromotionFile]) == expected.value.1)
  }

  // A generation verifies as m exactly when it is held.
  lemma VerifiedIff(env: Env, g: Store, id: string, expected: Option<(Digest, Digest)>, m: Manifest)
    ensures Verify(env, g, id, expected) == Ok(m) <==> Held(env, g, id, expected, m)
  {
    hide PayloadsIntact, PayloadTerms, DeclaredOnly, PayloadPaths, Required, ValidManifest, ManifestTerms,
         ValidPromotion, PromotionTerms;
    if id in g && ManifestFile in g[id] && PromotionFile in g[id] {
      var dir := g[id];
      if env.decodeManifest(dir[ManifestFile]).Some? && env.decodePromotion(dir[PromotionFile]).Some? {
        var n, p := env.decodeManifest(dir[ManifestFile]).value, env.decodePromotion(dir[PromotionFile]).value;
        ManifestIff(env, n);
        PromotionIff(env, p);
        PayloadsIff(env, dir, n.payloads);
        if PayloadTerms(env, dir, n.payloads) {
          PayloadsPresent(env, dir, n.payloads);
          KeysIff(dir, n.payloads, {ManifestFile, PromotionFile});
        }
        assert Verify(env, g, id, expected) == Ok(n) ==> Holds(env, id, dir, n, p);
      }
    }
  }

  // ----- Staging

  // A generation is staged exactly when its manifest is well formed and of this
  // store's policy, the payloads handed over are those it declares, and its name is
  // not taken, and the write meets no fault; what is staged is the manifest and those bytes.
  lemma StagedIff(env: Env, d: Disk, m: Manifest, payloads: map<string, Bytes>, fault: Fault)
    ensures var (r, d') := Stage(env, d, m, payloads, fault);
            && (r.Ok? <==>
                && fault == NoFault && ManifestTerms(env, m) && m.policy == env.policy && m.commitId !in d.staging && m.commitId !in d.generations
                && (forall p :: p in payloads <==> exists i :: 0 <= i < |m.payloads| && m.payloads[i].path == p)
                && (forall i :: 0 <= i < |m.payloads| ==>
                      && m.payloads[i].path in payloads && |payloads[m.payloads[i].path]| == m.payloads[i].size
                      && env.hash(payloads[m.payloads[i].path]) == m.payloads[i].hash))
            && (r.Ok? ==> d' != d)
            && (d' != d ==>
                  && m.commitId in d'.staging && Copied(env, d'.staging[m.commitId], m, payloads)
                  && d' == d.(staging := d.staging[m.commitId := d'.staging[m.commitId]]))
  {
    hide ValidManifest, ManifestTerms, Copied, StagedDir, PayloadsMatch;
    ManifestIff(env, m);
    MatchIff(env, m, payloads);
    if PayloadsMatch(env, m, payloads) {
      PathsThere(env, m, payloads);
      StagedCopies(env, m, payloads);
    }
  }

  predicate Copied(env: Env, dir: Dir, m: Manifest, payloads: map<string, Bytes>) {
    && ManifestFile in dir && dir[ManifestFile] == env.encodeManifest(m) && PromotionFile !in dir
    && DeclaredOnly(dir, m.payloads)
    && forall i :: 0 <= i < |m.payloads| ==>
         && PayloadFile(m.payloads[i].path) in dir && m.payloads[i].path in payloads
         && dir[PayloadFile(m.payloads[i].path)] == payloads[m.payloads[i].path]
  }

  lemma PathsThere(env: Env, m: Manifest, payloads: map<string, Bytes>)
    requires PayloadsMatch(env, m, payloads)
    ensures forall e :: e in m.payloads ==> e.path in payloads
  {
  }

  lemma StagedCopies(env: Env, m: Manifest, payloads: map<string, Bytes>)
    requires forall e :: e in m.payloads ==> e.path in payloads
    ensures Copied(env, StagedDir(env, m, payloads), m, payloads)
  {
    PayloadFilesAre(m.payloads, payloads);
    forall f | f in PayloadFiles(m.payloads, payloads)
      ensures f.PayloadFile? && exists i :: 0 <= i < |m.payloads| && m.payloads[i].path == f.path
    {
      PathIn(m.payloads, f);
    }
    forall i | 0 <= i < |m.payloads| ensures m.payloads[i] in m.payloads {
    }
  }

  lemma MatchIff(env: Env, m: Manifest, payloads: map<string, Bytes>)
    ensures PayloadsMatch(env, m, payloads) <==>
            && (forall p :: p in payloads <==> exists i :: 0 <= i < |m.payloads| && m.payloads[i].path == p)
            && (forall i :: 0 <= i < |m.payloads| ==>
                  && m.payloads[i].path in payloads && |payloads[m.payloads[i].path]| == m.payloads[i].size
                  && env.hash(payloads[m.payloads[i].path]) == m.payloads[i].hash)
  {
    var declared := set e | e in m.payloads :: e.path;
    forall p ensures p in declared <==> exists i :: 0 <= i < |m.payloads| && m.payloads[i].path == p {
      if i :| 0 <= i < |m.payloads| && m.payloads[i].path == p { assert m.payloads[i] in m.payloads; }
    }
    forall i | 0 <= i < |m.payloads| ensures m.payloads[i] in m.payloads {
    }
    if PayloadsMatch(env, m, payloads) {
      assert payloads.Keys == declared;
    } else if forall p :: p in payloads <==> p in declared {
      assert payloads.Keys == declared;
    }
  }

  // ----- Publication

  // A human authorization, a preflight and a candidate that are all for exactly this
  // commit, and the promotion step they led to.
  ghost predicate EvidenceTerms(env: Env, m: Manifest, ev: Evidence) {
    && ev.authorization.target == m.commitId && ev.authorization.decisionId == m.decisionId
    && ev.authorization.scope == ev.expectedScope && ev.expectedScope.caseId == m.caseId
    && ev.preflight.passed && ev.preflight.target == m.commitId && ev.preflight.caseId == m.caseId
    && (forall g :: g in ev.preflight.guards <==> g == "preflight_passed" || g == "rollback_target_verified")
    && ev.candidate.target == m.commitId && ev.candidate.caseId == m.caseId && ev.candidate.parent == m.parent
    && ev.candidate.manifestHash == env.hash(env.encodeManifest(m))
    && multiset(ev.candidate.payloadHashes) == multiset(HashesOf(m.payloads))
    && ev.candidate.schema == m.schema && ev.candidate.decisionId == m.decisionId
    && ev.decision.caseId == m.caseId && ev.decision.from == "PROMOTION_READY" && ev.decision.to == "CANONICAL"
    && ev.decision.event == "PROMOTION_AUTHORIZED" && ev.decision.humanBoundary
    && "promotion_authorization_present" in ev.decision.guards && "authorization_matches_target" in ev.decision.guards
  }

  function HashesOf(payloads: seq<PayloadEntry>): seq<Digest> {
    if payloads == [] then [] else HashesOf(payloads[..|payloads| - 1]) + [payloads[|payloads| - 1].hash]
  }

  lemma {:induction false} HashesAre(payloads: seq<PayloadEntry>)
    ensures |HashesOf(payloads)| == |payloads|
    ensures forall i :: 0 <= i < |payloads| ==> HashesOf(payloads)[i] == payloads[i].hash
    decreases |payloads|
  {
    if payloads != [] {
      HashesAre(payloads[..|payloads| - 1]);
    }
  }

  lemma EvidenceIff(env: Env, m: Manifest, ev: Evidence)
    ensures Bindings(env, m, ev) <==> EvidenceTerms(env, m, ev)
  {
    HashesAre(m.payloads);
    hide HashesOf;
    assert seq(|m.payloads|, i requires 0 <= i < |m.payloads| => m.payloads[i].hash) == HashesOf(m.payloads);
    GuardsIff(ev.preflight.guards, ev.decision.guards);
  }

  lemma GuardsIff(preflight: set<string>, decision: set<string>)
    ensures preflight == {"preflight_passed", "rollback_target_verified"} <==>
            forall g :: g in preflight <==> g == "preflight_passed" || g == "rollback_target_verified"
    ensures {"promotion_authorization_present", "authorization_matches_target"} <= decision <==>
            "promotion_authorization_present" in decision && "authorization_matches_target" in decision
  {
  }

  // HEAD holds a pointer with a name, a number and two digests.
  predicate HeadTerms(env: Env, d: Disk, h: HeadPointer) {
    && d.head.Some? && env.decodeHead(d.head.value) == Some(h)
    && Required(h.commitId) && h.seqNo > 0 && env.validHash(h.manifestHash) && env.validHash(h.promotionHash)
  }

  lemma HeadIff(env: Env, d: Disk, h: HeadPointer)
    ensures HeadTerms(env, d, h) <==> d.head.Some? && ParseHead(env, d.head.value) == Some(h)
  {
    hide Required;
  }

  // The names the promotion document will carry are there.
  predicate Attributed(env: Env, ev: Evidence) {
    && Required(ev.authorization.authorizationId) && Required(ev.authorization.policy)
    && Required(ev.preflight.receiptId) && Required(env.policy)
  }

  ghost predicate Publishable(env: Env, d: Disk, m: Manifest, ev: Evidence, h: HeadPointer) {
    && ManifestTerms(env, m) && EvidenceTerms(env, m, ev) && Attributed(env, ev)
    && HeadTerms(env, d, h) && h.commitId == m.parent && h.seqNo + 1 == m.seqNo
    && (exists n :: Held(env, d.generations, m.parent, Some((h.manifestHash, h.promotionHash)), n))
    && m.commitId in d.staging && m.commitId !in d.generations && CandidateTerms(env, d.staging[m.commitId], m)
  }

  // A publication goes through exactly for a candidate that is staged as declared,
  // as the next child of the verified generation HEAD names, under evidence for this
  // very commit.
  lemma PublishedIff(env: Env, d: Disk, m: Manifest, ev: Evidence, now: int)
    requires Generations.Sound(env)
    ensures Publish(env, d, m, ev, now, NoPublishFault).0.Ok? <==> exists h :: Publishable(env, d, m, ev, h)
  {
    hide ManifestTerms, EvidenceTerms, CandidateTerms, ValidManifest, Bindings, CandidateIntact, Verify, ParseHead, HeadTerms,
         Required, Held;
    ManifestIff(env, m);
    EvidenceIff(env, m, ev);
    if m.commitId in d.staging { CandidateIff(env, d.staging[m.commitId], m); }
    if ValidManifest(env, m) { EnvelopeIff(env, m, ev, now); }
    forall h ensures HeadTerms(env, d, h) <==> d.head.Some? && ParseHead(env, d.head.value) == Some(h) {
      HeadIff(env, d, h);
    }
    hide ValidPromotion, Envelope, Attributed, Publishable;
    if CheckPublish(env, d, m, ev, now).Ok? {
      var h := ParseHead(env, d.head.value).value;
      var n := Verify(env, d.generations, m.parent, Some((h.manifestHash, h.promotionHash))).value;
      VerifiedIff(env, d.generations, m.parent, Some((h.manifestHash, h.promotionHash)), n);
      PublishableAt(env, d, m, ev, h, n);
    }
    if h :| Publishable(env, d, m, ev, h) {
      var n := PublishableParts(env, d, m, ev, h);
      VerifiedIff(env, d.generations, m.parent, Some((h.manifestHash, h.promotionHash)), n);
    }
  }

  lemma PublishableAt(env: Env, d: Disk, m: Manifest, ev: Evidence, h: HeadPointer, n: Manifest)
    requires ManifestTerms(env, m) && EvidenceTerms(env, m, ev) && Attributed(env, ev)
    requires HeadTerms(env, d, h) && h.commitId == m.parent && h.seqNo + 1 == m.seqNo
    requires Held(env, d.generations, m.parent, Some((h.manifestHash, h.promotionHash)), n)
    requires m.commitId in d.staging && m.commitId !in d.generations && CandidateTerms(env, d.staging[m.commitId], m)
    ensures Publishable(env, d, m, ev, h)
  {
    hide ManifestTerms, EvidenceTerms, CandidateTerms, HeadTerms, Held;
  }

  lemma PublishableParts(env: Env, d: Disk, m: Manifest, ev: Evidence, h: HeadPointer) returns (n: Manifest)
    requires Publishable(env, d, m, ev, h)
    ensures ManifestTerms(env, m) && EvidenceTerms(env, m, ev) && Attributed(env, ev)
    ensures HeadTerms(env, d, h) && h.commitId == m.parent && h.seqNo + 1 == m.seqNo
    ensures Held(env, d.generations, m.parent, Some((h.manifestHash, h.promotionHash)), n)
    ensures m.commitId in d.staging && m.commitId !in d.generations && CandidateTerms(env, d.staging[m.commitId], m)
  {
    hide ManifestTerms, EvidenceTerms, CandidateTerms, HeadTerms, Held;
    n :| Held(env, d.generations, m.parent, Some((h.manifestHash, h.promotionHash)), n);
  }

  lemma EnvelopeIff(env: Env, m: Manifest, ev: Evidence, now: int)
    requires Generations.Sound(env) && ValidManifest(env, m)
    ensures ValidPromotion(env, Envelope(env, m, ev, now)) <==> Attributed(env, ev)
  {
    hide Required;
  }

  // ----- What a publication leaves

  // The promotion document of a publication, with the store's own policy and the
  // names the evidence gives.
  function PromotionDocument(env: Env, m: Manifest, ev: Evidence, now: int): Promotion {
    Promotion(m.commitId, m.caseId, env.hash(env.encodeManifest(m)), m.decisionId,
              ev.authorization.authorizationId, ev.authorization.policy, ev.preflight.receiptId, env.policy, now)
  }

  // Wherever a publication stops: only its own names change; a generation that
  // appears is the staged directory and the promotion document, under evidence for
  // that very commit; a HEAD that changes names it by its number and two digests.
  lemma PublicationLeaves(env: Env, d: Disk, m: Manifest, ev: Evidence, now: int, fault: PublishFault)
    requires Generations.Sound(env)
    ensures var (r, d') := Publish(env, d, m, ev, now, fault); var doc := env.encodePromotion(PromotionDocument(env, m, ev, now));
            && (forall id :: id != m.commitId ==>
                  && (id in d'.staging <==> id in d.staging) && (id in d.staging ==> d'.staging[id] == d.staging[id])
                  && (id in d'.generations <==> id in d.generations)
                  && (id in d.generations ==> d'.generations[id] == d.generations[id]))
            && (d'.generations != d.generations ==>
                  && EvidenceTerms(env, m, ev) && m.commitId in d.staging && m.commitId !in d.generations
                  && m.commitId in d'.generations && d'.generations[m.commitId] == d.staging[m.commitId][PromotionFile := doc]
                  && m.commitId !in d'.staging)
            && (d'.head != d.head ==>
                  d'.generations != d.generations
                  && d'.head == Some(env.encodeHead(HeadPointer(m.commitId, m.seqNo, env.hash(env.encodeManifest(m)), env.hash(doc)))))
            && (r.Ok? ==>
                  && d'.generations != d.generations
                  && r.value == HeadPointer(m.commitId, m.seqNo, env.hash(env.encodeManifest(m)), env.hash(doc))
                  && d'.head == Some(env.encodeHead(r.value)))
  {
    hide CheckPublish, EvidenceTerms, ValidManifest, ValidPromotion, CandidateIntact, Verify, ParseHead;
    if CheckPublish(env, d, m, ev, now).Ok? {
      R.PublishFacts(env, d, m, ev, now);
      CheckedEvidence(env, d, m, ev, now);
      var d' := Publish(env, d, m, ev, now, fault).1;
      assert m.commitId in d'.generations ==> d'.generations != d.generations;
    }
  }

  lemma CheckedEvidence(env: Env, d: Disk, m: Manifest, ev: Evidence, now: int)
    requires CheckPublish(env, d, m, ev, now).Ok?
    ensures EvidenceTerms(env, m, ev)
  {
    hide Bindings, EvidenceTerms, ValidManifest, ValidPromotion, CandidateIntact, Verify, ParseHead;
    EvidenceIff(env, m, ev);
  }

  // The publication that made a generation, in a run.
  ghost predicate PublishedBy(w: World, e: R.Event, id: string, dir: Dir) {
    && e.PublishOne? && e.m.commitId == id && EvidenceTerms(w.env, e.m, e.ev)
    && e.ev.authorization.target == id
    && PromotionFile in dir
    && dir[PromotionFile] == w.env.encodePromotion(PromotionDocument(w.env, e.m, e.ev, e.now))
  }

  // Every generation that appears in a run was published under an authorization for
  // that very commit, which its promotion document names.
  lemma {:induction false} EveryGenerationAuthorized(w: World, s: Site, events: seq<R.Event>, id: string)
    requires Generations.Sound(w.env)
    requires id in R.Exec(w, s, events).disk.generations && id !in s.disk.generations
    ensures exists i :: 0 <= i < |events| && PublishedBy(w, events[i], id, R.Exec(w, s, events).disk.generations[id])
    decreases |events|
  {
    hide R.Next, PublishedBy;
    if events != [] {
      var n := |events| - 1;
      var before := R.Exec(w, s, events[..n]);
      R.StepGrows(w, before, events[n]);
      if id in before.disk.generations {
        EveryGenerationAuthorized(w, s, events[..n], id);
        var i :| 0 <= i < n && PublishedBy(w, events[..n][i], id, before.disk.generations[id]);
        assert PublishedBy(w, events[i], id, R.Exec(w, s, events).disk.generations[id]);
      } else {
        StepPublished(w, before, events[n], id);
      }
    }
  }

  lemma StepPublished(w: World, s: Site, e: R.Event, id: string)
    requires Generations.Sound(w.env) && id in R.Next(w, s, e).disk.generations && id !in s.disk.generations
    ensures PublishedBy(w, e, id, R.Next(w, s, e).disk.generations[id])
  {
    hide Publish, EvidenceTerms;
    R.StepGrows(w, s, e);
    PublicationLeaves(w.env, s.disk, e.m, e.ev, e.now, e.publishFault);
    EvidenceTarget(w.env, e.m, e.ev);
  }

  lemma EvidenceTarget(env: Env, m: Manifest, ev: Evidence)
    ensures EvidenceTerms(env, m, ev) ==> ev.authorization.target == m.commitId
  {
  }
}
