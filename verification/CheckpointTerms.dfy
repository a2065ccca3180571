// What the checkpoint protocol promises in terms of the documents on disk alone:
// which generation a load restores and a save builds on, when a fallback is refused,
// and what a save writes.
module CheckpointTerms {
  import opened Base
  import opened Chains
  import opened Checkpoint
  import L = CheckpointLaws

  // HEAD can be read, and names a generation and possibly another one before it.
  predicate HeadTerms(env: Env, d: Disk, h: Head) {
    && d.head.Some? && env.decodeHead(d.head.value) == Some(h)
    && h.current != "" && h.commitId != "" && h.protocol != ""
    && (h.previous.Some? ==> h.previous.value != "" && h.previous.value != h.current)
  }

  // The manifest of a generation, complete and for this very model configuration.
  predicate ManifestTerms(env: Env, d: Disk, id: GenId, m: Manifest) {
    && id in d.manifests && env.decodeManifest(d.manifests[id]) == Some(m)
    && m.generationId == id && m.file == env.fileName(id) && m.kind == "full" && m.payloadSchema == 1
    && m.binding == "full-v1.22" && m.config == env.config
    && m.protocol != "" && m.commitId != "" && m.seqNo > 0 && (m.parent.Some? ==> m.parent.value != "")
  }

  // The payload is the one the manifest describes, and can be read.
  predicate PayloadTerms(env: Env, d: Disk, id: GenId, m: Manifest, p: Parts) {
    && id in d.payloads && |d.payloads[id]| == m.size && env.hash(d.payloads[id]) == m.hash
    && env.decodePayload(d.payloads[id]) == Some(p)
  }

  // The manifest HEAD means: of its current generation, commit and number.
  ghost predicate CurrentManifest(env: Env, d: Disk, h: Head, m: Manifest) {
    ManifestTerms(env, d, h.current, m) && m.commitId == h.commitId && m.seqNo == h.seqNo
  }

  ghost predicate CurrentStands(env: Env, d: Disk, h: Head, p: Parts) {
    exists m :: CurrentManifest(env, d, h, m) && PayloadTerms(env, d, h.current, m, p)
  }

  // The previous generation as a fallback: the current manifest names the very same
  // parent as HEAD does, and the generation stands by itself.
  ghost predicate FallbackStands(env: Env, d: Disk, h: Head, id: GenId, p: Parts) {
    && h.previous == Some(id)
    && (exists m :: CurrentManifest(env, d, h, m) && m.parent == Some(id))
    && exists m :: ManifestTerms(env, d, id, m) && PayloadTerms(env, d, id, m, p)
  }

  // The generation that is in force.
  ghost predicate InForce(env: Env, d: Disk, h: Head, id: GenId, p: Parts) {
    && HeadTerms(env, d, h)
    && (|| (id == h.current && CurrentStands(env, d, h, p))
        || ((forall q :: !CurrentStands(env, d, h, q)) && FallbackStands(env, d, h, id, p)))
  }

  lemma HeadIff(env: Env, d: Disk, h: Head)
    ensures HeadTerms(env, d, h) <==> d.head.Some? && ReadHead(env, d.head.value) == Some(h)
  {
  }

  lemma ManifestIff(env: Env, d: Disk, id: GenId, m: Manifest, expected: Option<(string, nat)>)
    ensures ReadManifest(env, d, id, expected) == Ok(m) <==>
            ManifestTerms(env, d, id, m) && (expected.Some? ==> m.commitId == expected.value.0 && m.seqNo == expected.value.1)
  {
  }

  lemma PayloadIff(env: Env, d: Disk, id: GenId, m: Manifest, p: Parts)
    ensures ReadPayload(env, d, id, m) == Ok(p) <==> PayloadTerms(env, d, id, m, p)
  {
  }

  lemma CurrentIff(env: Env, d: Disk, h: Head, id: GenId, p: Parts)
    ensures Candidate(env, d, h, Current) == Ok((id, p)) <==> id == h.current && CurrentStands(env, d, h, p)
  {
    hide ReadManifest, ReadPayload, ManifestTerms, PayloadTerms;
    var expected := Some((h.commitId, h.seqNo));
    if ReadManifest(env, d, h.current, expected).Ok? {
      var m := ReadManifest(env, d, h.current, expected).value;
      ManifestIff(env, d, h.current, m, expected);
      PayloadIff(env, d, h.current, m, p);
    }
    if m :| CurrentManifest(env, d, h, m) && PayloadTerms(env, d, h.current, m, p) {
      ManifestIff(env, d, h.current, m, expected);
    }
  }

  lemma StandsIff(env: Env, d: Disk, id: GenId, p: Parts)
    ensures ValidateGeneration(env, d, id, None).Ok? && ValidateGeneration(env, d, id, None).value.0 == p <==>
            exists m :: ManifestTerms(env, d, id, m) && PayloadTerms(env, d, id, m, p)
  {
    hide ReadManifest, ReadPayload, ManifestTerms, PayloadTerms;
    if ReadManifest(env, d, id, None).Ok? {
      var m := ReadManifest(env, d, id, None).value;
      ManifestIff(env, d, id, m, None);
      PayloadIff(env, d, id, m, p);
    }
    if m :| ManifestTerms(env, d, id, m) && PayloadTerms(env, d, id, m, p) {
      ManifestIff(env, d, id, m, None);
    }
  }

  // A fallback is accepted exactly when it stands as one.
  lemma FallbackIff(env: Env, d: Disk, h: Head, id: GenId, p: Parts)
    ensures Candidate(env, d, h, Previous) == Ok((id, p)) <==> FallbackStands(env, d, h, id, p)
  {
    hide ReadManifest, ReadPayload, ManifestTerms, PayloadTerms, ValidateGeneration;
    var expected := Some((h.commitId, h.seqNo));
    if ReadManifest(env, d, h.current, expected).Ok? {
      ManifestIff(env, d, h.current, ReadManifest(env, d, h.current, expected).value, expected);
    }
    if m :| CurrentManifest(env, d, h, m) && m.parent == Some(id) {
      ManifestIff(env, d, h.current, m, expected);
    }
    StandsIff(env, d, id, p);
  }

  // The next save builds on a generation exactly when it is in force: never on a
  // previous one the current manifest does not name as its parent.
  lemma ChosenIff(env: Env, d: Disk, h: Head, id: GenId, p: Parts)
    ensures Chosen(env, d) == Ok(Some((h, id, p))) <==> InForce(env, d, h, id, p)
    ensures Chosen(env, d) == Ok(None) <==> d.head.None?
  {
    hide ReadHead, HeadTerms, Candidate, CurrentStands, FallbackStands;
    HeadIff(env, d, h);
    if HeadTerms(env, d, h) {
      CurrentIff(env, d, h, id, p);
      FallbackIff(env, d, h, id, p);
      if Candidate(env, d, h, Current).Ok? {
        var c := Candidate(env, d, h, Current).value;
        CurrentIff(env, d, h, c.0, c.1);
      } else {
        forall q ensures !CurrentStands(env, d, h, q) { CurrentIff(env, d, h, h.current, q); }
      }
    }
  }

  // The live parts are the generation's; where it has no optimizer state, the
  // optimizer is what it was.
  predicate Took(was: Live, now: Live, p: Parts) {
    && now.model == p.model && now.recurrent == p.recurrent
    && now.optimizer == match p.optimizer case Some(o) => o case None => was.optimizer
  }

  // With HEAD there and applies that do not fail, a load succeeds exactly when a
  // generation is in force, and restores that one; otherwise it changes nothing.
  lemma LoadIff(env: Env, d: Disk, m: Model, allowLegacy: bool)
    requires d.head.Some?
    ensures var (r, m') := Load(env, d, m, allowLegacy, ApplyClean, ApplyClean);
            && (r.Ok? <==> exists h, id, p :: InForce(env, d, h, id, p))
            && (forall h, id, p :: InForce(env, d, h, id, p) ==> !m'.taint && Took(m.live, m'.live, p))
            && (r.Err? ==> m' == m)
  {
    hide InForce, Chosen, Load;
    L.LoadRestoresChoice(env, d, m, allowLegacy);
    forall h, id, p ensures Chosen(env, d) == Ok(Some((h, id, p))) <==> InForce(env, d, h, id, p) {
      ChosenIff(env, d, h, id, p);
    }
    ChosenIff(env, d, Head("", None, "", 0, ""), "", Parts([], None, []));
    if Chosen(env, d).Ok? {
      var c := Chosen(env, d).value.value;
      assert InForce(env, d, c.0, c.1, c.2);
    }
  }

  // The refusal side, spelled out: when the current generation does not stand and its
  // manifest does not name HEAD's previous generation as parent, a load fails, a save
  // fails, and neither changes anything.
  lemma StrangeLineageRefused(env: Env, d: Disk, m: Model, h: Head, allowLegacy: bool, parts: Parts, g: GenId, commitId: string, cut: Cut)
    requires HeadTerms(env, d, h) && forall p :: !CurrentStands(env, d, h, p)
    requires forall n :: CurrentManifest(env, d, h, n) ==> n.parent != h.previous || n.parent.None?
    ensures Load(env, d, m, allowLegacy, ApplyClean, ApplyClean).0.Err? && Load(env, d, m, allowLegacy, ApplyClean, ApplyClean).1 == m
    ensures Save(env, d, m.taint, parts, g, commitId, cut).0.Err? && Save(env, d, m.taint, parts, g, commitId, cut).1 == d
  {
    HeadThere(env, d, h);
    hide CurrentStands, CurrentManifest, HeadTerms, Load, InForce;
    LoadIff(env, d, m, allowLegacy);
    forall k, id, p ensures !InForce(env, d, k, id, p) {
      NotInForce(env, d, h, k, id, p);
    }
    hide Chosen;
    if Chosen(env, d).Ok? {
      ChosenIff(env, d, h, "", parts);
      var c := Chosen(env, d).value;
      assert c.Some?;
      ChosenIff(env, d, c.value.0, c.value.1, c.value.2);
    }
  }

  lemma HeadThere(env: Env, d: Disk, h: Head)
    requires HeadTerms(env, d, h)
    ensures d.head.Some?
  {
  }

  lemma NotInForce(env: Env, d: Disk, h: Head, k: Head, id: GenId, p: Parts)
    requires HeadTerms(env, d, h) && forall q :: !CurrentStands(env, d, h, q)
    requires forall n :: CurrentManifest(env, d, h, n) ==> n.parent != h.previous || n.parent.None?
    ensures !InForce(env, d, k, id, p)
  {
    hide CurrentStands, CurrentManifest;
  }

  // The current generation, or a previous one of HEAD's own lineage.
  ghost predicate Standing(env: Env, d: Disk, h: Head, id: GenId, p: Parts) {
    HeadTerms(env, d, h) && ((id == h.current && CurrentStands(env, d, h, p)) || FallbackStands(env, d, h, id, p))
  }

  // The live parts are these, as far as they go, and the model is not marked.
  predicate LoadedFrom(m: Model, p: Parts) {
    && !m.taint && m.live.model == p.model && m.live.recurrent == p.recurrent
    && (p.optimizer.Some? ==> m.live.optimizer == p.optimizer.value)
  }

  // Whatever stage an apply fails at, what a load that succeeds leaves comes from a
  // generation that stands: the current one, or a previous one of HEAD's own lineage.
  lemma OnlyStandingLoaded(env: Env, d: Disk, m: Model, allowLegacy: bool, first: ApplyFault, second: ApplyFault)
    requires d.head.Some? && Load(env, d, m, allowLegacy, first, second).0.Ok?
    ensures var m' := Load(env, d, m, allowLegacy, first, second).1;
            exists h, id, p :: Standing(env, d, h, id, p) && LoadedFrom(m', p)
  {
    hide Candidate, ReadHead, HeadTerms, CurrentStands, FallbackStands;
    var h := ReadHead(env, d.head.value).value;
    HeadIff(env, d, h);
    var m' := Load(env, d, m, allowLegacy, first, second).1;
    if Candidate(env, d, h, Current).Ok? && first.ApplyClean? {
      var c := Candidate(env, d, h, Current).value;
      assert Candidate(env, d, h, Current) == Ok((c.0, c.1));
      CurrentIff(env, d, h, c.0, c.1);
      assert Standing(env, d, h, c.0, c.1) && LoadedFrom(m', c.1);
    } else {
      var c := Candidate(env, d, h, Previous).value;
      FallbackIff(env, d, h, c.0, c.1);
      assert Standing(env, d, h, c.0, c.1) && LoadedFrom(m', c.1);
    }
  }

  // Without HEAD only an authorized legacy file is loaded, and the model is then
  // marked; unauthorized or unreadable it is refused.
  lemma LegacyIff(env: Env, d: Disk, m: Model, allowLegacy: bool, second: ApplyFault)
    requires d.head.None? && d.legacy.Some?
    ensures var (r, m') := Load(env, d, m, allowLegacy, ApplyClean, second);
            && (r.Ok? <==> allowLegacy && env.decodePayload(d.legacy.value).Some?)
            && (r.Ok? ==> m'.taint && Took(m.live, m'.live, env.decodePayload(d.legacy.value).value))
            && (r.Err? ==> m' == m)
  {
  }

  // ----- What a save writes

  // A save that is not cut short goes through exactly on an unmarked model over an
  // empty directory or a generation in force; the manifest and HEAD it leaves name
  // the new generation, its parent in force, the next number and this configuration.
  lemma SaveIff(env: Env, d: Disk, taint: bool, parts: Parts, g: GenId, commitId: string, gone: Unlinked)
    requires Sound(env) && L.Fresh(env, d, g) && commitId != ""
    ensures var (r, d') := Save(env, d, taint, parts, g, commitId, AfterHead(gone, true));
            && (r.Ok? <==> !taint && (d.head.None? || exists h, id, p :: InForce(env, d, h, id, p)))
            && (r.Err? ==> d' == d)
            && (r.Ok? && d.head.None? ==> Written(env, d', parts, g, None, commitId, 1))
            && (forall h, id, p :: r.Ok? && InForce(env, d, h, id, p) ==> Written(env, d', parts, g, Some(id), commitId, h.seqNo + 1))
  {
    hide InForce, Chosen, Save, Written;
    forall h, id, p ensures Chosen(env, d) == Ok(Some((h, id, p))) <==> InForce(env, d, h, id, p) {
      ChosenIff(env, d, h, id, p);
    }
    ChosenIff(env, d, Head("", None, "", 0, ""), "", parts);
    if Chosen(env, d).Ok? && Chosen(env, d).value.Some? {
      var c := Chosen(env, d).value.value;
      assert InForce(env, d, c.0, c.1, c.2);
    }
    SaveRefused(env, d, taint, parts, g, commitId, AfterHead(gone, true));
    if !taint && Chosen(env, d).Ok? {
      SaveWrites(env, d, parts, g, commitId, gone);
    }
  }

  lemma SaveRefused(env: Env, d: Disk, taint: bool, parts: Parts, g: GenId, commitId: string, cut: Cut)
    ensures taint || Chosen(env, d).Err? ==>
              Save(env, d, taint, parts, g, commitId, cut).0.Err? && Save(env, d, taint, parts, g, commitId, cut).1 == d
  {
    hide Chosen;
  }

  // The payload, manifest and HEAD of a new generation, as they can be read back.
  ghost predicate Written(env: Env, d: Disk, parts: Parts, g: GenId, parent: Option<GenId>, commitId: string, seqNo: nat) {
    && HeadTerms(env, d, Head(g, parent, commitId, seqNo, "1.33"))
    && exists m :: ManifestTerms(env, d, g, m) && PayloadTerms(env, d, g, m, parts)
                   && m.parent == parent && m.commitId == commitId && m.seqNo == seqNo && m.protocol == "1.33"
  }

  lemma SaveWrites(env: Env, d: Disk, parts: Parts, g: GenId, commitId: string, gone: Unlinked)
    requires Sound(env) && L.Fresh(env, d, g) && commitId != "" && Chosen(env, d).Ok?
    ensures var (r, d') := Save(env, d, false, parts, g, commitId, AfterHead(gone, true)); var c := Chosen(env, d).value;
            r.Ok? && Written(env, d', parts, g, if c.Some? then Some(c.value.1) else None, commitId,
                             if c.Some? then c.value.0.seqNo + 1 else 1)
  {
    hide Chosen, Save, ReadHead, HeadTerms, ManifestTerms, PayloadTerms, ReadPayload, ManifestFits;
    L.HeadReplaced(env, d, parts, g, commitId, AfterHead(gone, true));
    var d' := Save(env, d, false, parts, g, commitId, AfterHead(gone, true)).1;
    var m := NewManifest(env, env.encodePayload(parts), g, commitId, Chosen(env, d).value);
    HeadIff(env, d', NewHead(m));
    ManifestIff(env, d', g, m, Some((m.commitId, m.seqNo)));
    PayloadIff(env, d', g, m, parts);
  }
}
