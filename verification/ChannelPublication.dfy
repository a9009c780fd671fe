/** What `runPublish` of cmd/rufus-channel-admin/main.go puts into a publication,
    and whether a client that follows its URLs ends at the publisher's root. */
module ChannelPublication {
  import opened Base
  import opened RootChain
  import opened RootUrls
  import Publication

  const BOOTSTRAP := "1.root.json"
  const CATALOG := "catalog.json"
  const CHANNEL := "channel.json"
  const RELEASE := "release.json"
  const SUMMARY := "publication.json"

  // -------------------------------------------------------------- publishing

  /** The enabled channel configuration: the path of the root URL as written, the
      other two paths with their escapes read. */
  datatype Config = Config(bootstrapRoot: string, rootPath: string, catalogPath: string, releasePath: Option<string>)

  datatype Request = Request(
    envelopes: seq<Octets>, catalog: Octets, release: Option<Octets>, config: Config, canonicalConfig: Octets, now: int)

  datatype Checks = Checks(
    trust: Trust, catalogOk: (Root, Octets) -> bool, releaseOk: (Root, Octets) -> bool,
    summary: (seq<Root>, Octets, Option<Octets>) -> Octets)

  /** What `validateChannelConfig` and `validatePublicationURLNames` ask of the
      three paths. */
  predicate UrlNamesOk(config: Config) {
    && TemplateOk(config.rootPath)
    && BaseName(config.catalogPath) == CATALOG
    && (config.releasePath.Some? ==> BaseName(config.releasePath.value) == RELEASE)
  }

  /** Everything else `runPublish` demands once the chain is verified. */
  ghost predicate Admissible(c: Checks, r: Request, roots: seq<Root>)
    requires |roots| > 0
  {
    var final := roots[|roots| - 1];
    && final.expires > r.now && FieldsOk(c, r, roots[0], final)
    && (forall i :: 0 <= i < |r.envelopes| ==> c.trust.canonical(r.envelopes[i]).Some?)
    && c.trust.canonical(r.catalog).Some?
    && (r.release.Some? ==> c.releaseOk(final, r.release.value) && c.trust.canonical(r.release.value).Some?)
  }

  function RootNames(last: nat): set<string> {
    set v | 1 <= v <= last :: RootName(v)
  }

  /** Exactly the versions up to the last have a file, each the last copy given. */
  ghost predicate RootsStored(t: Trust, envelopes: seq<Octets>, roots: seq<Root>, files: map<string, Octets>) {
    && |roots| > 0 && |roots| <= |envelopes| && roots[|roots| - 1].version > 0
    && files.Keys == RootNames(roots[|roots| - 1].version)
    && forall v: nat :: 1 <= v <= roots[|roots| - 1].version ==> Stored(t, envelopes, roots, files, v)
  }

  ghost predicate Stored(t: Trust, envelopes: seq<Octets>, roots: seq<Root>, files: map<string, Octets>, v: nat)
    requires |roots| <= |envelopes|
  {
    Occurs(roots, v) && RootName(v) in files && t.canonical(envelopes[LastCopy(roots, v)]) == Some(files[RootName(v)])
  }

  lemma StoredFirst(t: Trust, envelopes: seq<Octets>, roots: seq<Root>, bytes: Octets)
    requires |roots| == 1 && |envelopes| > 0 && roots[0].version == 1 && t.canonical(envelopes[0]) == Some(bytes)
    ensures RootsStored(t, envelopes, roots, map[RootName(1) := bytes])
  {
    assert RootNames(1) == {RootName(1)};
    assert Occurs(roots, 1);
  }

  lemma StoredNext(t: Trust, envelopes: seq<Octets>, roots: seq<Root>, root: Root, files: map<string, Octets>,
          bytes: Octets)
    requires RootsStored(t, envelopes, roots, files) && |roots| < |envelopes|
    requires t.canonical(envelopes[|roots|]) == Some(bytes)
    requires var last := roots[|roots| - 1].version; last <= root.version <= last + 1
    ensures RootsStored(t, envelopes, roots + [root], files[RootName(root.version) := bytes])
  {
    var more, after := roots + [root], files[RootName(root.version) := bytes];
    assert more[..|roots|] == roots;
    forall v: nat | 1 <= v <= root.version ensures Stored(t, envelopes, more, after, v) {
      if v == root.version {
        assert more[|roots|].version == v;
      } else {
        assert Stored(t, envelopes, roots, files, v);
        var j := LastCopy(roots, v);
        assert more[j].version == v;
        if RootName(v) == RootName(root.version) { RootNameDetermines(v, root.version); }
      }
    }
    assert RootNames(root.version) == RootNames(roots[|roots| - 1].version) + {RootName(root.version)};
  }

  /** The loop over the verified sequence. */
  method RootFiles(t: Trust, envelopes: seq<Octets>, roots: seq<Root>) returns (files: Option<map<string, Octets>>)
    requires Verified(t, envelopes, roots) && roots[0].version == 1
    ensures files.Some? <==> forall i :: 0 <= i < |envelopes| ==> t.canonical(envelopes[i]).Some?
    ensures files.Some? ==> RootsStored(t, envelopes, roots, files.value)
  {
    var stored: map<string, Octets> := map[];
    var index := 0;
    while index < |roots|
      invariant index <= |roots| && (index == 0 ==> stored == map[])
      invariant forall i :: 0 <= i < index ==> t.canonical(envelopes[i]).Some?
      invariant index > 0 ==> RootsStored(t, envelopes, roots[..index], stored)
    {
      var canonical := t.canonical(envelopes[index]);
      if canonical.None? { return None; }
      assert roots[..index + 1] == roots[..index] + [roots[index]];
      if index == 0 {
        StoredFirst(t, envelopes, roots[..1], canonical.value);
      } else {
        Advances(t, envelopes, roots, index - 1, index);
        StoredNext(t, envelopes, roots[..index], roots[index], stored, canonical.value);
      }
      Advances(t, envelopes, roots, 0, index);
      stored := stored[RootName(roots[index].version) := canonical.value];
      index := index + 1;
    }
    assert roots[..index] == roots;
    return Some(stored);
  }

  /** What is published: the root files, and the other four under their names. */
  ghost predicate Published(c: Checks, r: Request, roots: seq<Root>, files: map<string, Octets>) {
    && |roots| > 0 && |roots| == |r.envelopes| && roots[|roots| - 1].version > 0
    && (forall v: nat :: 1 <= v <= roots[|roots| - 1].version ==> Stored(c.trust, r.envelopes, roots, files, v))
    && files.Keys == RootNames(roots[|roots| - 1].version) + {CATALOG, CHANNEL, SUMMARY}
       + (if r.release.Some? then {RELEASE} else {})
    && c.trust.canonical(r.catalog) == Some(files[CATALOG])
    && (r.release.Some? ==> c.trust.canonical(r.release.value) == Some(files[RELEASE]))
    && files[CHANNEL] == r.canonicalConfig && files[SUMMARY] == c.summary(roots, r.catalog, r.release)
  }

  /** Names that are not root files. */
  lemma OtherNames(name: string, last: nat)
    requires name in {CATALOG, CHANNEL, RELEASE, SUMMARY, Publication.SUMS}
    ensures name !in RootNames(last)
  {
    if name in RootNames(last) {
      var v :| 1 <= v <= last && RootName(v) == name;
      RootNameIsPlain(v);
    }
  }

  /** Adding files under other names keeps the root files. */
  lemma OthersAdded(t: Trust, envelopes: seq<Octets>, roots: seq<Root>, base: map<string, Octets>,
        all: map<string, Octets>)
    requires RootsStored(t, envelopes, roots, base)
    requires forall name :: name in base ==> name in all && all[name] == base[name]
    ensures forall v: nat :: 1 <= v <= roots[|roots| - 1].version ==> Stored(t, envelopes, roots, all, v)
  {
    forall v: nat | 1 <= v <= roots[|roots| - 1].version ensures Stored(t, envelopes, roots, all, v) {
      assert Stored(t, envelopes, roots, base, v);
    }
  }

  /** The files beside the root files. */
  method AddOthers(c: Checks, r: Request, roots: seq<Root>, stored: map<string, Octets>)
      returns (files: Option<map<string, Octets>>)
    requires RootsStored(c.trust, r.envelopes, roots, stored) && |roots| == |r.envelopes|
    ensures files.Some? ==> Published(c, r, roots, files.value)
    ensures files.Some? <==>
      && c.trust.canonical(r.catalog).Some?
      && (r.release.Some? ==>
            c.releaseOk(roots[|roots| - 1], r.release.value)
            && c.trust.canonical(r.release.value).Some?)
  {
    ghost var last: nat := roots[|roots| - 1].version;
    OtherNames(CATALOG, last);
    OtherNames(CHANNEL, last);
    OtherNames(RELEASE, last);
    OtherNames(SUMMARY, last);
    var catalog := c.trust.canonical(r.catalog);
    if catalog.None? { return None; }
    var all := stored[CATALOG := catalog.value];
    if r.release.Some? {
      if !c.releaseOk(roots[|roots| - 1], r.release.value) { return None; }
      var release := c.trust.canonical(r.release.value);
      if release.None? { return None; }
      all := all[RELEASE := release.value];
    }
    all := all[CHANNEL := r.canonicalConfig];
    all := all[SUMMARY := c.summary(roots, r.catalog, r.release)];
    OthersAdded(c.trust, r.envelopes, roots, stored, all);
    return Some(all);
  }

  /** The checks before any file is gathered. */
  predicate FieldsOk(c: Checks, r: Request, first: Root, final: Root) {
    && first.version == 1 && c.catalogOk(final, r.catalog) && r.config.bootstrapRoot == BOOTSTRAP
    && (r.config.releasePath.Some? <==> r.release.Some?) && UrlNamesOk(r.config)
  }

  /** `runPublish`, up to writing the directory. */
  method Publish(c: Checks, r: Request) returns (files: Option<map<string, Octets>>, ghost roots: seq<Root>)
    ensures files.Some? ==>
        Verified(c.trust, r.envelopes, roots) && Admissible(c, r, roots) && Published(c, r, roots, files.value)
    ensures forall s: seq<Root> :: Verified(c.trust, r.envelopes, s) && Admissible(c, r, s) ==> files.Some?
  {
    roots := [];
    var sequence := VerifyRootChainSequence(c.trust, r.envelopes, r.now);
    if sequence.None? { return None, roots; }
    roots := sequence.value;
    files := Gather(c, r, sequence.value);
  }

  /** What follows once the chain is verified. */
  method Gather(c: Checks, r: Request, roots: seq<Root>) returns (files: Option<map<string, Octets>>)
    requires Verified(c.trust, r.envelopes, roots) && roots[|roots| - 1].expires > r.now
    ensures files.Some? ==> Published(c, r, roots, files.value)
    ensures files.Some? <==> Admissible(c, r, roots)
  {
    if !FieldsOk(c, r, roots[0], roots[|r.envelopes| - 1]) { return None; }
    var stored := RootFiles(c.trust, r.envelopes, roots);
    if stored.None? { return None; }
    files := AddOthers(c, r, roots, stored.value);
  }

  /** Every published name is plain and none is the checksum list's, so writing
      the directory refuses none of them. */
  lemma NamesArePlain(c: Checks, r: Request, roots: seq<Root>, files: map<string, Octets>, name: string)
    requires Published(c, r, roots, files) && name in files
    ensures Publication.PlainName(name) && name != Publication.SUMS
  {
    var last: nat := roots[|roots| - 1].version;
    OtherNames(Publication.SUMS, last);
    if name in RootNames(last) {
      var v :| 1 <= v <= last && RootName(v) == name;
      RootNameIsPlain(v);
    }
  }

  /** The other URLs name published files too. */
  lemma UrlsNamePublished(c: Checks, r: Request, roots: seq<Root>, files: map<string, Octets>)
    requires Verified(c.trust, r.envelopes, roots) && Admissible(c, r, roots) && Published(c, r, roots, files)
    ensures BaseName(r.config.catalogPath) in files
    ensures r.config.releasePath.Some? ==> BaseName(r.config.releasePath.value) in files
    ensures c.trust.canonical(r.catalog) == Some(files[BaseName(r.config.catalogPath)])
    ensures r.release.Some? ==>
      && r.config.releasePath.Some?
      && c.trust.canonical(r.release.value) == Some(files[BaseName(r.config.releasePath.value)])
  {
  }

  // ----------------------------------------------------------- the client

  /** The publication behind its URLs; `channelRootMetadataURL` wants a positive
      version. */
  function Fetch(config: Config, files: map<string, Octets>, version: int): Option<Octets> {
    if version <= 0 then None
    else
      var name := Requested(config.rootPath, version);
      if name.Some? && name.value in files then Some(files[name.value]) else None
  }

  function Server(config: Config, files: map<string, Octets>): int -> Option<Octets> {
    version => Fetch(config, files, version)
  }

  /** The client's root after a refresh against the publication. */
  function ClientRoot(t: Trust, config: Config, files: map<string, Octets>): Option<Root>
    requires BOOTSTRAP in files
  {
    match VerifyBootstrap(t, files[BOOTSTRAP])
    case None => None
    case Some(first) => RefreshFrom(t, Server(config, files), first, 0)
  }

  /** A canonical envelope reads and verifies as the one it was made from. */
  ghost predicate Faithful(t: Trust, e: Octets) {
    t.canonical(e).Some? ==>
      var canonical := t.canonical(e).value;
      && t.read(canonical) == t.read(e) && (t.selfSigned(canonical) <==> t.selfSigned(e))
      && forall root :: t.signedBy(root, canonical) <==> t.signedBy(root, e)
  }

  ghost predicate AllFaithful(t: Trust, envelopes: seq<Octets>) {
    forall i :: 0 <= i < |envelopes| ==> Faithful(t, envelopes[i])
  }

  /** The copy of a version that was published is properly signed. */
  ghost predicate CopyVerifies(t: Trust, envelopes: seq<Octets>, roots: seq<Root>, v: int) {
    && |roots| <= |envelopes| && Occurs(roots, v) && t.selfSigned(envelopes[LastCopy(roots, v)])
    && (v > 1 ==> Occurs(roots, v - 1) && t.signedBy(roots[LastCopy(roots, v - 1)], envelopes[LastCopy(roots, v)]))
  }

  /** From one version to the last. */
  ghost predicate CopiesVerify(t: Trust, envelopes: seq<Octets>, roots: seq<Root>, from: int)
    requires |roots| > 0
  {
    forall w :: from <= w <= roots[|roots| - 1].version ==> CopyVerifies(t, envelopes, roots, w)
  }

  lemma FetchesStored(t: Trust, envelopes: seq<Octets>, roots: seq<Root>, config: Config, files: map<string, Octets>,
          v: nat)
    requires UrlNamesOk(config) && TokenIsLast(config.rootPath) && v >= 1 && |roots| <= |envelopes|
    requires Stored(t, envelopes, roots, files, v)
    ensures Server(config, files)(v) == t.canonical(envelopes[LastCopy(roots, v)])
  {
    TemplateNamesFile(config.rootPath, v);
  }

  lemma FetchesNoMore(config: Config, files: map<string, Octets>, last: nat, v: nat)
    requires UrlNamesOk(config) && TokenIsLast(config.rootPath) && v > last
    requires forall name :: name in files ==> name in RootNames(last) || name in {CATALOG, CHANNEL, RELEASE, SUMMARY}
    ensures Server(config, files)(v) == None
  {
    TemplateNamesFile(config.rootPath, v);
    RootNameIsPlain(v);
    if RootName(v) in RootNames(last) {
      var w :| 1 <= w <= last && RootName(w) == RootName(v);
      RootNameDetermines(v, w);
    }
  }

  /** The root of a version. */
  function RootAt(roots: seq<Root>, v: int): Root
    requires |roots| > 0
  {
    if Occurs(roots, v) then roots[LastCopy(roots, v)] else roots[0]
  }

  /** One fetched copy, given to a client that trusts the version before it. */
  lemma NextUpdate(t: Trust, envelopes: seq<Octets>, roots: seq<Root>, v: nat, e: Octets)
    requires Verified(t, envelopes, roots) && DigestsIdentify(t, envelopes) && AllFaithful(t, envelopes)
    requires v > 1 && Occurs(roots, v - 1) && Occurs(roots, v) && t.canonical(envelopes[LastCopy(roots, v)]) == Some(e)
    ensures VerifyUpdate(t, RootAt(roots, v - 1), e) == if CopyVerifies(t, envelopes, roots, v)
        then Some(RootAt(roots, v)) else None
  {
    var i, j := LastCopy(roots, v - 1), LastCopy(roots, v);
    if j < i { Advances(t, envelopes, roots, j, i); }
    Advances(t, envelopes, roots, i, j);
    ReadsAsRoot(t, envelopes, roots, j);
    assert Faithful(t, envelopes[j]);
  }

  /** The publication answers for version w with the last copy given. */
  ghost predicate Serves(t: Trust, envelopes: seq<Octets>, roots: seq<Root>, fetch: int -> Option<Octets>, w: int) {
    |roots| <= |envelopes| && Occurs(roots, w) && fetch(w).Some?
        && fetch(w) == t.canonical(envelopes[LastCopy(roots, w)])
  }

  /** The root a client trusts in the end when it starts with the published
      bootstrap root; None where it refuses. Each URL names the file of its
      version only if the template's token is the last one. */
  ghost function Outcome(t: Trust, envelopes: seq<Octets>, roots: seq<Root>, raw: string): Option<Root>
    requires |roots| > 0
  {
    var last := roots[|roots| - 1];
    if !CopyVerifies(t, envelopes, roots, 1) then None
    else if !TokenIsLast(raw) then Some(RootAt(roots, 1))
    else if last.version - 1 <= MAX_UPDATES && CopiesVerify(t, envelopes, roots, 1) then Some(last)
    else None
  }

  /** So a client ends at the publisher's final root or refuses whenever the
      token is the last one, and otherwise never leaves the bootstrap root. */
  lemma ClientFollowsPublisher(c: Checks, r: Request, roots: seq<Root>, files: map<string, Octets>)
    requires Verified(c.trust, r.envelopes, roots) && roots[0].version == 1 && Published(c, r, roots, files)
    requires UrlNamesOk(r.config)
    requires DigestsIdentify(c.trust, r.envelopes) && AllFaithful(c.trust, r.envelopes)
    ensures BOOTSTRAP in files
    ensures ClientRoot(c.trust, r.config, files) == Outcome(c.trust, r.envelopes, roots, r.config.rootPath)
  {
    BootstrapServed(c, r, roots, files);
    if TokenIsLast(r.config.rootPath) {
      ClientRefreshes(c, r, roots, files);
      ClientEnds(c.trust, r.envelopes, roots, r.config, files);
    } else {
      FetchesNothing(c, r, roots, files, RootAt(roots, 1).version + 1);
    }
  }

  lemma FetchesNothing(c: Checks, r: Request, roots: seq<Root>, files: map<string, Octets>, v: nat)
    requires Published(c, r, roots, files) && UrlNamesOk(r.config) && !TokenIsLast(r.config.rootPath)
    ensures Server(r.config, files)(v) == None
  {
    TemplateNamesFile(r.config.rootPath, v);
    NoTemplateFile(roots[|roots| - 1].version);
    OnlyTheseNames(c, r, roots, files);
  }

  /** No published file has the template's own name. */
  lemma NoTemplateFile(last: nat)
    ensures TOKEN + SUFFIX !in RootNames(last) && TOKEN + SUFFIX !in {CATALOG, CHANNEL, RELEASE, SUMMARY}
  {
    assert (TOKEN + SUFFIX)[0] == '{';
    if TOKEN + SUFFIX in RootNames(last) {
      var w :| 1 <= w <= last && RootName(w) == TOKEN + SUFFIX;
      RootNameIsPlain(w);
    }
  }

  lemma ClientRefreshes(c: Checks, r: Request, roots: seq<Root>, files: map<string, Octets>)
    requires Verified(c.trust, r.envelopes, roots) && Published(c, r, roots, files)
    requires UrlNamesOk(r.config) && TokenIsLast(r.config.rootPath)
    requires DigestsIdentify(c.trust, r.envelopes) && AllFaithful(c.trust, r.envelopes)
    ensures RefreshFrom(c.trust, Server(r.config, files), RootAt(roots, 1), 0)
         == if roots[|roots| - 1].version - 1 <= MAX_UPDATES && CopiesVerify(c.trust, r.envelopes, roots, 2)
             then Some(roots[|roots| - 1]) else None
  {
    VersionsServed(c, r, roots, files);
    ClientClimbs(c.trust, r.envelopes, roots, Server(r.config, files), roots[|roots| - 1].version);
  }

  lemma ClientEnds(t: Trust, envelopes: seq<Octets>, roots: seq<Root>, config: Config, files: map<string, Octets>)
    requires |roots| > 0 && roots[|roots| - 1].version >= 1 && BOOTSTRAP in files
    requires VerifyBootstrap(t, files[BOOTSTRAP]) == if CopyVerifies(t, envelopes, roots, 1) then Some(RootAt(roots, 1))
        else None
    requires RefreshFrom(t, Server(config, files), RootAt(roots, 1), 0)
          == if roots[|roots| - 1].version - 1 <= MAX_UPDATES && CopiesVerify(t, envelopes, roots, 2)
              then Some(roots[|roots| - 1]) else None
    ensures ClientRoot(t, config, files)
         == if roots[|roots| - 1].version - 1 <= MAX_UPDATES && CopiesVerify(t, envelopes, roots, 1)
             then Some(roots[|roots| - 1]) else None
  {
  }

  lemma VersionsServed(c: Checks, r: Request, roots: seq<Root>, files: map<string, Octets>)
    requires Published(c, r, roots, files) && UrlNamesOk(r.config) && TokenIsLast(r.config.rootPath)
    ensures forall w :: 1 <= w <= roots[|roots| - 1].version ==>
        Serves(c.trust, r.envelopes, roots, Server(r.config, files), w)
    ensures Server(r.config, files)(roots[|roots| - 1].version + 1) == None
  {
    StoredServed(c.trust, r.envelopes, roots, r.config, files);
    OnlyTheseNames(c, r, roots, files);
    FetchesNoMore(r.config, files, roots[|roots| - 1].version, roots[|roots| - 1].version + 1);
  }

  lemma StoredServed(t: Trust, envelopes: seq<Octets>, roots: seq<Root>, config: Config, files: map<string, Octets>)
    requires UrlNamesOk(config) && TokenIsLast(config.rootPath) && 0 < |roots| <= |envelopes|
    requires forall v: nat :: 1 <= v <= roots[|roots| - 1].version ==> Stored(t, envelopes, roots, files, v)
    ensures forall w :: 1 <= w <= roots[|roots| - 1].version ==> Serves(t, envelopes, roots, Server(config, files), w)
  {
    forall w: int | 1 <= w <= roots[|roots| - 1].version ensures Serves(t, envelopes, roots, Server(config, files), w) {
      assert Stored(t, envelopes, roots, files, w);
      FetchesStored(t, envelopes, roots, config, files, w);
    }
  }

  lemma OnlyTheseNames(c: Checks, r: Request, roots: seq<Root>, files: map<string, Octets>)
    requires Published(c, r, roots, files)
    ensures forall name :: name in files ==>
        name in RootNames(roots[|roots| - 1].version) || name in {CATALOG, CHANNEL, RELEASE, SUMMARY}
  {
  }

  lemma BootstrapServed(c: Checks, r: Request, roots: seq<Root>, files: map<string, Octets>)
    requires Verified(c.trust, r.envelopes, roots) && Published(c, r, roots, files)
    requires DigestsIdentify(c.trust, r.envelopes) && AllFaithful(c.trust, r.envelopes)
    ensures BOOTSTRAP in files && Occurs(roots, 1)
    ensures VerifyBootstrap(c.trust, files[BOOTSTRAP]) == if CopyVerifies(c.trust, r.envelopes, roots, 1)
        then Some(RootAt(roots, 1)) else None
  {
    assert RootName(1) == BOOTSTRAP;
    assert Stored(c.trust, r.envelopes, roots, files, 1);
    var i := LastCopy(roots, 1);
    ReadsAsRoot(c.trust, r.envelopes, roots, i);
    assert Faithful(c.trust, r.envelopes[i]);
  }

  lemma ClientClimbs(t: Trust, envelopes: seq<Octets>, roots: seq<Root>, fetch: int -> Option<Octets>, last: nat)
    requires Verified(t, envelopes, roots) && DigestsIdentify(t, envelopes) && AllFaithful(t, envelopes)
    requires last == roots[|roots| - 1].version && last >= 1 && fetch(last + 1) == None
    requires forall w :: 1 <= w <= last ==> Serves(t, envelopes, roots, fetch, w)
    ensures RefreshFrom(t, fetch, RootAt(roots, 1), 0)
         == if last - 1 <= MAX_UPDATES && CopiesVerify(t, envelopes, roots, 2) then Some(roots[|roots| - 1]) else None
  {
    var root, good := (w: int) => RootAt(roots, w), (w: int) => CopyVerifies(t, envelopes, roots, w);
    forall w: int | 1 < w <= last ensures StepsTo(t, fetch, root, good, w) {
      assert Serves(t, envelopes, roots, fetch, w - 1) && Serves(t, envelopes, roots, fetch, w);
      NextUpdate(t, envelopes, roots, w, fetch(w).value);
    }
    assert Serves(t, envelopes, roots, fetch, 1) && Serves(t, envelopes, roots, fetch, last);
    Climbs(t, fetch, root, good, 1, last);
    assert forall w :: 1 < w <= last ==> (good(w) <==> CopyVerifies(t, envelopes, roots, w));
    assert root(last) == roots[|roots| - 1];
  }

  /** When no version is given twice every copy was verified. */
  lemma DistinctVersionsVerify(t: Trust, envelopes: seq<Octets>, roots: seq<Root>)
    requires Verified(t, envelopes, roots) && roots[0].version == 1 && |roots| == roots[|roots| - 1].version
    ensures CopiesVerify(t, envelopes, roots, 1)
  {
    forall v: int | 1 <= v <= |roots| ensures CopyVerifies(t, envelopes, roots, v) {
      DistinctVersionVerifies(t, envelopes, roots, v);
    }
  }

  lemma DistinctVersionVerifies(t: Trust, envelopes: seq<Octets>, roots: seq<Root>, v: nat)
    requires Verified(t, envelopes, roots) && roots[0].version == 1 && |roots| == roots[|roots| - 1].version
    requires 1 <= v <= |roots|
    ensures CopyVerifies(t, envelopes, roots, v)
  {
    InOrder(t, envelopes, roots, v - 1);
    assert Occurs(roots, v);
    InOrder(t, envelopes, roots, LastCopy(roots, v));
    if v > 1 {
      InOrder(t, envelopes, roots, v - 2);
      assert Occurs(roots, v - 1);
      InOrder(t, envelopes, roots, LastCopy(roots, v - 1));
      assert Updated(t, envelopes, roots, v - 1);
    }
  }

  lemma InOrder(t: Trust, envelopes: seq<Octets>, roots: seq<Root>, i: nat)
    requires Verified(t, envelopes, roots) && roots[0].version == 1 && |roots| == roots[|roots| - 1].version
    requires i < |roots|
    ensures roots[i].version == i + 1
  {
    Advances(t, envelopes, roots, 0, i);
    Advances(t, envelopes, roots, i, |roots| - 1);
  }

  const EXAMPLE_ROOT := Root(1, 0, 1, "d")

  /** Everything is accepted but the signatures of the second envelope. */
  function ExampleChecks(): Checks {
    Checks(Trust(e => Some(EXAMPLE_ROOT), e => e == "signed", (current, e) => false, e => Some(e)),
           (current, e) => true, (current, e) => true, (roots, catalog, release) => "summary")
  }

  function ExampleRequest(): Request {
    Request(["signed", "unsigned"], "catalog", None, Config(BOOTSTRAP, TOKEN + SUFFIX, CATALOG, None), "config", 0)
  }

  function ExampleFiles(): map<string, Octets> {
    map[BOOTSTRAP := "unsigned", CATALOG := "catalog", CHANNEL := "config", SUMMARY := "summary"]
  }

  /** With a version given twice the condition can fail: the second copy is
      accepted unseen, replaces the first, and the client refuses it. */
  lemma UncheckedCopy()
    ensures Verified(ExampleChecks().trust, ExampleRequest().envelopes, [EXAMPLE_ROOT, EXAMPLE_ROOT])
    ensures Admissible(ExampleChecks(), ExampleRequest(), [EXAMPLE_ROOT, EXAMPLE_ROOT])
    ensures Published(ExampleChecks(), ExampleRequest(), [EXAMPLE_ROOT, EXAMPLE_ROOT], ExampleFiles())
    ensures BOOTSTRAP in ExampleFiles()
    ensures ClientRoot(ExampleChecks().trust, ExampleRequest().config, ExampleFiles()) == None
  {
    ExampleAdmitted();
    ExamplePublished(ExampleFiles());
    ExampleClient();
  }

  lemma ExampleRefused(t: Trust, config: Config, files: map<string, Octets>)
    requires BOOTSTRAP in files && !t.selfSigned(files[BOOTSTRAP])
    ensures ClientRoot(t, config, files) == None
  {
  }

  lemma ExampleClient()
    ensures BOOTSTRAP in ExampleFiles()
    ensures ClientRoot(ExampleChecks().trust, ExampleRequest().config, ExampleFiles()) == None
  {
    ExampleRefused(ExampleChecks().trust, ExampleRequest().config, ExampleFiles());
  }

  lemma ExampleAdmitted()
    ensures var c, r, roots := ExampleChecks(), ExampleRequest(), [EXAMPLE_ROOT, EXAMPLE_ROOT];
            Verified(c.trust, r.envelopes, roots) && Admissible(c, r, roots)
  {
    ExampleChain(ExampleChecks().trust, ExampleRequest().envelopes);
    PlainTemplate();
    ExampleCatalog();
    ExampleFields(ExampleChecks(), ExampleRequest(), TOKEN + SUFFIX);
  }

  lemma ExampleChain(t: Trust, envelopes: seq<Octets>)
    requires |envelopes| == 2 && VerifyBootstrap(t, envelopes[0]) == Some(EXAMPLE_ROOT)
    requires t.read(envelopes[1]) == Some(EXAMPLE_ROOT)
    ensures Verified(t, envelopes, [EXAMPLE_ROOT, EXAMPLE_ROOT])
  {
  }

  lemma ExampleFields(c: Checks, r: Request, template: string)
    requires TemplateOk(template) && BaseName(CATALOG) == CATALOG
    requires r.config == Config(BOOTSTRAP, template, CATALOG, None) && r.release == None && r.now < 1
    requires c.catalogOk(EXAMPLE_ROOT, r.catalog) && forall e: Octets :: c.trust.canonical(e).Some?
    ensures Admissible(c, r, [EXAMPLE_ROOT, EXAMPLE_ROOT])
  {
  }

  lemma ExamplePublished(files: map<string, Octets>)
    requires files == ExampleFiles()
    ensures Published(ExampleChecks(), ExampleRequest(), [EXAMPLE_ROOT, EXAMPLE_ROOT], files)
  {
    var roots := [EXAMPLE_ROOT, EXAMPLE_ROOT];
    assert RootName(1) == BOOTSTRAP;
    assert RootNames(1) == {BOOTSTRAP};
    assert roots[1].version == 1;
    assert LastCopy(roots, 1) == 1;
    assert Stored(ExampleChecks().trust, ExampleRequest().envelopes, roots, files, 1);
  }

  lemma ExampleCatalog()
    ensures BaseName(CATALOG) == CATALOG
  {
    BaseWithout("", CATALOG);
    assert "" + CATALOG == CATALOG;
  }
}
