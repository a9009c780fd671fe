/** Signed root metadata: the publisher's verification of a whole chain
    (internal/acquisition/admin.go) and the client's step-by-step refresh
    (internal/acquisition/channel.go), over one update rule
    (internal/acquisition/trust.go). */
module RootChain {
  import opened Base

  type Octets = string

  const MAX_UPDATES := 32

  /** Authenticated root metadata; the digest is taken over the signed part. */
  datatype Root = Root(version: int, generated: int, expires: int, sha256: string)

  /** Reading and signature checks at one moment. `read` covers the envelope's
      format and all rules on the metadata itself, never the signatures. */
  datatype Trust = Trust(
    read: Octets -> Option<Root>, selfSigned: Octets -> bool, signedBy: (Root, Octets) -> bool,
    canonical: Octets -> Option<Octets>)

  /** `VerifyBootstrapRoot`. */
  function VerifyBootstrap(t: Trust, e: Octets): Option<Root> {
    if t.read(e).Some? && t.selfSigned(e) then t.read(e) else None
  }

  /** `VerifyRootUpdate`: a repeated version with the same digest is taken for
      the current root without a look at its signatures. */
  function VerifyUpdate(t: Trust, current: Root, e: Octets): Option<Root> {
    match t.read(e)
    case None => None
    case Some(candidate) =>
      if candidate.version == current.version then (if candidate.sha256 == current.sha256 then Some(current) else None)
      else if candidate.version != current.version + 1 || candidate.generated < current.generated then None
      else if !t.signedBy(current, e) || !t.selfSigned(e) then None
      else Some(candidate)
  }

  /** One verified root per envelope. */
  ghost predicate Verified(t: Trust, envelopes: seq<Octets>, roots: seq<Root>) {
    && |roots| == |envelopes| && |roots| > 0
    && VerifyBootstrap(t, envelopes[0]) == Some(roots[0])
    && forall i: nat :: 0 < i < |roots| ==> Updated(t, envelopes, roots, i)
  }

  predicate Updated(t: Trust, envelopes: seq<Octets>, roots: seq<Root>, i: nat)
    requires 0 < i < |roots| && i < |envelopes|
  {
    VerifyUpdate(t, roots[i - 1], envelopes[i]) == Some(roots[i])
  }

  lemma VerifiedSnoc(t: Trust, envelopes: seq<Octets>, e: Octets, roots: seq<Root>, root: Root)
    requires Verified(t, envelopes, roots) && VerifyUpdate(t, roots[|roots| - 1], e) == Some(root)
    ensures Verified(t, envelopes + [e], roots + [root])
  {
    var all, more := envelopes + [e], roots + [root];
    forall i: nat | 0 < i < |more| ensures Updated(t, all, more, i) {
      if i < |roots| { assert Updated(t, envelopes, roots, i); }
    }
  }

  /** `VerifyRootChainSequence`. */
  method VerifyRootChainSequence(t: Trust, envelopes: seq<Octets>, now: int) returns (roots: Option<seq<Root>>)
    ensures roots.Some? ==> Verified(t, envelopes, roots.value) && roots.value[|envelopes| - 1].expires > now
    ensures forall s: seq<Root> :: Verified(t, envelopes, s) && s[|s| - 1].expires > now ==> roots == Some(s)
  {
    if envelopes == [] { return None; }
    var root := VerifyBootstrap(t, envelopes[0]);
    if root.None? { return None; }
    var sequence := [root.value];
    var index := 1;
    while index < |envelopes|
      invariant 1 <= index <= |envelopes| && Verified(t, envelopes[..index], sequence)
      invariant forall s :: Verified(t, envelopes, s) ==> s[..index] == sequence
    {
      root := VerifyUpdate(t, sequence[index - 1], envelopes[index]);
      forall s | Verified(t, envelopes, s) ensures root == Some(s[index]) {
        assert s[index - 1] == s[..index][index - 1] && Updated(t, envelopes, s, index);
      }
      if root.None? { return None; }
      ghost var before := sequence;
      sequence := sequence + [root.value];
      VerifiedSnoc(t, envelopes[..index], envelopes[index], before, root.value);
      assert envelopes[..index] + [envelopes[index]] == envelopes[..index + 1];
      index := index + 1;
    }
    assert envelopes[..index] == envelopes;
    forall s | Verified(t, envelopes, s) ensures s == sequence {
      assert s[..index] == s;
    }
    if sequence[|sequence| - 1].expires <= now { return None; }
    return Some(sequence);
  }

  // ------------------------------------------------- the shape of a chain

  /** The digest identifies the metadata among these envelopes. */
  ghost predicate DigestsIdentify(t: Trust, envelopes: seq<Octets>) {
    forall i, j :: 0 <= i < |envelopes| && 0 <= j < |envelopes| ==>
        Identified(t.read(envelopes[i]), t.read(envelopes[j]))
  }

  predicate Identified(a: Option<Root>, b: Option<Root>) {
    a.Some? && b.Some? && a.value.sha256 == b.value.sha256 ==> a == b
  }

  /** Each envelope reads as its root, even where a copy was not verified. */
  lemma {:induction false} ReadsAsRoot(t: Trust, envelopes: seq<Octets>, roots: seq<Root>, i: nat)
    requires Verified(t, envelopes, roots) && DigestsIdentify(t, envelopes) && i < |roots|
    ensures t.read(envelopes[i]) == Some(roots[i])
    decreases i
  {
    if i > 0 {
      ReadsAsRoot(t, envelopes, roots, i - 1);
      assert Updated(t, envelopes, roots, i);
    }
  }

  /** Versions never fall, advance by one, and name one root each. */
  lemma {:induction false} Advances(t: Trust, envelopes: seq<Octets>, roots: seq<Root>, i: nat, j: nat)
    requires Verified(t, envelopes, roots) && i <= j < |roots|
    ensures roots[i].version <= roots[j].version <= roots[i].version + (j - i)
    ensures roots[i].generated <= roots[j].generated
    ensures roots[i].version == roots[j].version ==> roots[i] == roots[j]
    decreases j
  {
    if i < j {
      Advances(t, envelopes, roots, i, j - 1);
      assert Updated(t, envelopes, roots, j);
    }
  }

  /** The first root vouches for itself, and every later one is signed by the root
      before it and by itself, one version on and not generated earlier. */
  ghost predicate ProperlySigned(t: Trust, envelopes: seq<Octets>, roots: seq<Root>) {
    && |roots| == |envelopes| && |roots| > 0
    && (forall i :: 0 <= i < |roots| ==> t.read(envelopes[i]) == Some(roots[i]) && t.selfSigned(envelopes[i]))
    && forall i :: 0 < i < |roots| ==>
         roots[i].version == roots[i - 1].version + 1 && roots[i].generated >= roots[i - 1].generated
         && t.signedBy(roots[i - 1], envelopes[i])
  }

  /** A chain whose versions all differ is accepted exactly if it is properly
      signed. */
  lemma RisingChainIff(t: Trust, envelopes: seq<Octets>, roots: seq<Root>)
    requires forall i :: 0 < i < |roots| ==> roots[i].version != roots[i - 1].version
    ensures Verified(t, envelopes, roots) <==> ProperlySigned(t, envelopes, roots)
  {
    if Verified(t, envelopes, roots) {
      forall i | 0 < i < |roots|
        ensures roots[i].version == roots[i - 1].version + 1 && roots[i].generated >= roots[i - 1].generated
        ensures t.signedBy(roots[i - 1], envelopes[i]) && t.selfSigned(envelopes[i])
        ensures t.read(envelopes[i]) == Some(roots[i])
      {
        assert Updated(t, envelopes, roots, i);
      }
    } else if ProperlySigned(t, envelopes, roots) {
      forall i: nat | 0 < i < |roots| ensures Updated(t, envelopes, roots, i) {
      }
    }
  }

  predicate Occurs(roots: seq<Root>, version: int) {
    exists j :: 0 <= j < |roots| && roots[j].version == version
  }

  /** The last envelope given for a version. */
  function LastCopy(roots: seq<Root>, version: int): (i: nat)
    requires Occurs(roots, version)
    ensures i < |roots| && roots[i].version == version && forall j :: i < j < |roots| ==> roots[j].version != version
    decreases |roots|
  {
    var n := |roots| - 1;
    if roots[n].version == version then n else LastCopy(roots[..n], version)
  }

  // ------------------------------------------------------------ the client

  /** The refresh loop from a trusted root: fetch the next version until it is
      missing; None for its errors. */
  function RefreshFrom(t: Trust, fetch: int -> Option<Octets>, root: Root, count: nat): Option<Root>
    decreases MAX_UPDATES - count
  {
    match fetch(root.version + 1)
    case None => Some(root)
    case Some(e) =>
      if count >= MAX_UPDATES || VerifyUpdate(t, root, e).None? then None
      else RefreshFrom(t, fetch, VerifyUpdate(t, root, e).value, count + 1)
  }

  /** The loop itself, with an empty cache, after the packaged bootstrap root. */
  method Refresh(t: Trust, bootstrap: Octets, fetch: int -> Option<Octets>) returns (trusted: Option<Root>)
    ensures trusted == if VerifyBootstrap(t, bootstrap).None? then None
        else RefreshFrom(t, fetch, VerifyBootstrap(t, bootstrap).value, 0)
  {
    var first := VerifyBootstrap(t, bootstrap);
    if first.None? { return None; }
    var root := first.value;
    var updateCount := 0;
    while true
      invariant updateCount <= MAX_UPDATES
      invariant RefreshFrom(t, fetch, root, updateCount) == RefreshFrom(t, fetch, first.value, 0)
      decreases MAX_UPDATES - updateCount
    {
      var fetched := fetch(root.version + 1);
      if fetched.None? { break; }
      if updateCount >= MAX_UPDATES { return None; }
      var candidate := VerifyUpdate(t, root, fetched.value);
      if candidate.None? { return None; }
      root := candidate.value;
      updateCount := updateCount + 1;
    }
    trusted := Some(root);
  }

  /** The update to version w succeeds exactly where `good` says so. */
  ghost predicate StepsTo(t: Trust, fetch: int -> Option<Octets>, root: int -> Root, good: int -> bool, w: int) {
    && root(w - 1).version == w - 1 && root(w).version == w && fetch(w).Some?
    && VerifyUpdate(t, root(w - 1), fetch(w).value) == if good(w) then Some(root(w)) else None
  }

  /** Such a client reaches the last root or refuses. `root` names the root of
      each version. */
  lemma {:induction false} Climbs(t: Trust, fetch: int -> Option<Octets>, root: int -> Root, good: int -> bool, v: nat,
          last: nat)
    requires 1 <= v <= last && v - 1 <= MAX_UPDATES && fetch(last + 1) == None && root(v).version == v
    requires forall w :: v < w <= last ==> StepsTo(t, fetch, root, good, w)
    ensures RefreshFrom(t, fetch, root(v), v - 1)
         == if last - 1 <= MAX_UPDATES && (forall w :: v < w <= last ==> good(w)) then Some(root(last)) else None
    decreases last - v
  {
    if v < last {
      assert StepsTo(t, fetch, root, good, v + 1);
      if v - 1 < MAX_UPDATES && good(v + 1) {
        Climbs(t, fetch, root, good, v + 1, last);
      }
    }
  }
}
