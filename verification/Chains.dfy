// Replay of a sequence of records, and hash chains: what one digest pins.
module Chains {
  import opened Base

  // Distinct inputs have distinct digests: the collision-freedom premise.
  ghost predicate Injective<A(!new), B>(h: A -> B) {
    forall a, b {:trigger h(a), h(b)} :: h(a) == h(b) ==> a == b
  }

  // Replay: feed the records to a step from the left, stopping at the first error.
  function Run<S, E, X>(step: (S, E) -> Result<S, X>, s: S, es: seq<E>): Result<S, X>
    decreases |es|
  {
    if es == [] then Ok(s)
    else
      match Run(step, s, es[..|es| - 1])
      case Err(x) => Err(x)
      case Ok(t) => step(t, es[|es| - 1])
  }

  lemma RunSnoc<S, E, X>(step: (S, E) -> Result<S, X>, s: S, es: seq<E>, e: E)
    ensures Run(step, s, es + [e]) ==
            match Run(step, s, es) case Err(x) => Err(x) case Ok(t) => step(t, e)
  {
    assert (es + [e])[..|es|] == es;
  }

  // Replaying a concatenation is replaying the second part from where the first ended.
  lemma {:induction false} RunConcat<S, E, X>(step: (S, E) -> Result<S, X>, s: S, a: seq<E>, b: seq<E>)
    ensures Run(step, s, a + b) ==
            match Run(step, s, a) case Err(x) => Err(x) case Ok(t) => Run(step, t, b)
    decreases |b|
  {
    if b == [] {
      assert a + b == a;
    } else {
      var b' := b[..|b| - 1];
      assert a + b == (a + b') + [b[|b| - 1]];
      RunSnoc(step, s, a + b', b[|b| - 1]);
      RunConcat(step, s, a, b');
    }
  }

  // A replayable sequence is replayable up to every point.
  lemma RunPrefix<S, E, X>(step: (S, E) -> Result<S, X>, s: S, es: seq<E>, n: nat)
    requires n <= |es|
    requires Run(step, s, es).Ok?
    ensures Run(step, s, es[..n]).Ok?
  {
    assert es[..n] + es[n..] == es;
    RunConcat(step, s, es[..n], es[n..]);
  }

  // The digest a chain ends in: that of its last record, or the floor it started from.
  function Tip<E>(h: E -> Digest, floor: Option<Digest>, es: seq<E>): Option<Digest> {
    if es == [] then floor else Some(h(es[|es| - 1]))
  }

  // Every record names the digest of the one before it, the first one the floor.
  ghost predicate Linked<E>(h: E -> Digest, prev: E -> Option<Digest>, floor: Option<Digest>, es: seq<E>) {
    forall i :: 0 <= i < |es| ==> prev(es[i]) == Tip(h, floor, es[..i])
  }

  lemma LinkedSnoc<E>(h: E -> Digest, prev: E -> Option<Digest>, floor: Option<Digest>, es: seq<E>, e: E)
    requires Linked(h, prev, floor, es)
    requires prev(e) == Tip(h, floor, es)
    ensures Linked(h, prev, floor, es + [e])
  {
    var all := es + [e];
    forall i | 0 <= i < |all| ensures prev(all[i]) == Tip(h, floor, all[..i]) {
      if i == |es| {
        assert all[..i] == es;
      } else {
        assert all[..i] == es[..i];
      }
    }
  }

  lemma LinkedPrefix<E>(h: E -> Digest, prev: E -> Option<Digest>, floor: Option<Digest>, es: seq<E>, n: nat)
    requires n <= |es|
    requires Linked(h, prev, floor, es)
    ensures Linked(h, prev, floor, es[..n])
  {
    forall i | 0 <= i < n ensures prev(es[..n][i]) == Tip(h, floor, es[..n][..i]) {
      assert es[..n][..i] == es[..i];
    }
  }

  // One tip digest pins the whole chain behind it: two chains of equal length
  // over one floor that end in the same digest are the same chain.
  lemma {:induction false} TipPinsChain<E(!new)>(h: E -> Digest, prev: E -> Option<Digest>, floor: Option<Digest>,
                                                 a: seq<E>, b: seq<E>)
    requires Injective(h)
    requires Linked(h, prev, floor, a) && Linked(h, prev, floor, b)
    requires |a| == |b| && Tip(h, floor, a) == Tip(h, floor, b)
    ensures a == b
    decreases |a|
  {
    if a != [] {
      var n := |a| - 1;
      assert h(a[n]) == h(b[n]);
      assert prev(a[n]) == prev(b[n]);
      LinkedPrefix(h, prev, floor, a, n);
      LinkedPrefix(h, prev, floor, b, n);
      TipPinsChain(h, prev, floor, a[..n], b[..n]);
      assert a == a[..n] + [a[n]] && b == b[..n] + [b[n]];
    }
  }
}
