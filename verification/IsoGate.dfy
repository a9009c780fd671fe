/** Two independent decisions on the same image: the corpus classification of
    scripts/linux_iso_corpus.py and the ISO/DD gate of gui/rufusarm64_iso_write_mode.py,
    over the profile of gui/rufusarm64_linux_compatibility.py. */
module IsoGate {
  import opened Base
  import opened PythonJson
  import opened BootCatalogue
  import opened LinuxIso

  datatype PlanPayload = PlanPayload(
    schema: Json, sourceSize: Json, catalogLba: Json, entryIndex: Json, platformId: Json, mediaType: Json,
    imageLba: Json, imageOffset: Json, imageLength: Json, catalogSha: Json, imageSha: Json, planSha: Json)

  datatype StrictPlan = StrictPlan(
    sourceSize: int, catalogLba: int, entryIndex: int, imageLba: int, imageOffset: int, imageLength: int,
    catalogSha: string, imageSha: string, planSha: string)

  datatype WritePath = HybridDirect | OpticalDirect | RawDirect

  datatype Profile = Profile(
    writePath: WritePath, hybrid: bool, optical: bool, bootMethods: seq<string>, elToritoUefi: Option<StrictPlan>)

  /** The helper's result; `prior` is a profile it already carries. */
  datatype Inspection = Inspection(
    recognized: Json, mode: Json, needsPreparation: Json, container: Json, elTorito: Option<PlanPayload>,
    prior: Option<Profile>)

  datatype Decision = Refuse | IsoImageCandidate | DdOnly

  /** `int(value or 0)`; an infinity raises an overflow error, which is neither a
      `TypeError` nor a `ValueError`. */
  function IntOr0(py: Python, a: Json): (r: Got<int>)
    ensures r.Escaped? <==> a == Infinite
  {
    match a
    case Null => Value(0)
    case Bool(b) => Value(if b then 1 else 0)
    case Int(n) => Value(n)
    case Real(x) => Value(Truncate(x))
    case Infinite => Escaped
    case Str(s) => if s == "" then Value(0) else (match py.intOf(s) case Some(n) => Value(n) case None => Rejected)
    case List(items) => if items == [] then Value(0) else Rejected
    case Obj(members) => if members == map[] then Value(0) else Rejected
  }

  /** The numeric members in the order in which they are converted. */
  function Numbers(p: PlanPayload): seq<Json> {
    [p.schema, p.sourceSize, p.catalogLba, p.entryIndex, p.platformId, p.mediaType, p.imageLba, p.imageOffset,
        p.imageLength]
  }

  function Convert(py: Python, items: seq<Json>): (r: Got<seq<int>>)
    ensures r.Value? ==> |r.value| == |items|
  {
    if items == [] then Value([])
    else
      var first :- IntOr0(py, items[0]);
      var rest :- Convert(py, items[1..]);
      Value([first] + rest)
  }

  function ReadPlan(py: Python, p: PlanPayload, size: int): (r: Got<StrictPlan>)
    ensures r.Value? ==>
      && 0 <= r.value.imageOffset < r.value.imageOffset + r.value.imageLength <= size == r.value.sourceSize
      && IsDigest(r.value.catalogSha) && IsDigest(r.value.imageSha) && IsDigest(r.value.planSha)
  {
    var n :- Convert(py, Numbers(p));
    var (sourceSize, catalogLba, entryIndex, imageLba, imageOffset, imageLength) :=
        (n[1], n[2], n[3], n[6], n[7], n[8]);
    var catalogSha, imageSha, planSha :=
        Lower(Text(py, p.catalogSha)), Lower(Text(py, p.imageSha)), Lower(Text(py, p.planSha));
    var _ :- Need(n[0] == 1 && sourceSize == size && catalogLba > 0 && entryIndex > 0 && n[4] == 0xEF && n[5] == 0);
    var _ :- Need(imageLba > 0 && imageOffset >= 0 && imageLength > 0 && imageOffset + imageLength <= sourceSize);
    var _ :- Need(IsDigest(catalogSha) && IsDigest(imageSha) && IsDigest(planSha));
    Value(StrictPlan(sourceSize, catalogLba, entryIndex, imageLba, imageOffset, imageLength, catalogSha, imageSha,
        planSha))
  }

  /** Members that Python takes for false count as zero. */
  lemma FalsyIsZero(py: Python, a: Json)
    ensures !Truthy(a) ==> IntOr0(py, a) == Value(0)
    ensures (a.List? || a.Obj?) && Truthy(a) ==> IntOr0(py, a) == Rejected
  {
  }

  /** The members of a plan of version 1 for an unemulated UEFI image. */
  function Stated(p: StrictPlan): PlanPayload {
    PlanPayload(Int(1), Int(p.sourceSize), Int(p.catalogLba), Int(p.entryIndex), Int(0xEF), Int(0), Int(p.imageLba),
                Int(p.imageOffset), Int(p.imageLength), Str(p.catalogSha), Str(p.imageSha), Str(p.planSha))
  }

  /** Such a plan is read exactly if its image lies inside the source at non-zero
      addresses. */
  lemma StatedPlanIff(py: Python, p: StrictPlan, size: int)
    requires IsDigest(p.catalogSha) && IsDigest(p.imageSha) && IsDigest(p.planSha)
    ensures ReadPlan(py, Stated(p), size) == Value(p) <==>
      && p.sourceSize == size && p.catalogLba > 0 && p.entryIndex > 0 && p.imageLba > 0
      && p.imageOffset >= 0 && p.imageLength > 0 && p.imageOffset + p.imageLength <= size
  {
    DigestStays(py, p.catalogSha);
    DigestStays(py, p.imageSha);
    DigestStays(py, p.planSha);
    var numbers := Numbers(Stated(p));
    var n := [1, p.sourceSize, p.catalogLba, p.entryIndex, 0xEF, 0, p.imageLba, p.imageOffset, p.imageLength];
    IntsConvert(py, numbers, n);
  }

  lemma DigestStays(py: Python, sha: string)
    requires IsDigest(sha)
    ensures Lower(Text(py, Str(sha))) == sha
  {
    assert sha[0] in sha && sha[|sha| - 1] in sha;
    UnspacedStays(sha);
    forall i | 0 <= i < |sha| ensures Lower(sha)[i] == sha[i] {
      assert sha[i] in sha;
    }
  }

  lemma {:induction false} IntsConvert(py: Python, items: seq<Json>, n: seq<int>)
    requires |items| == |n| && forall i :: 0 <= i < |n| ==> items[i] == Int(n[i])
    ensures Convert(py, items) == Value(n)
  {
    if n != [] {
      IntsConvert(py, items[1..], n[1..]);
      assert n == [n[0]] + n[1..];
    }
  }

  /** `normalize_el_torito_uefi_plan`. */
  function StrictUefi(py: Python, p: Option<PlanPayload>, size: int): (r: Got<Option<StrictPlan>>)
    ensures !r.Rejected?
  {
    if p.None? then Value(None)
    else match ReadPlan(py, p.value, size)
      case Value(plan) => Value(Some(plan))
      case Rejected => Value(None)
      case Escaped => Escaped
  }

  /** `str(inspection.get("container_format") or "plain").lower()`. */
  predicate PlainContainer(py: Python, a: Json) {
    var s := if !Truthy(a) then "plain" else Lower(if a.Str? then a.s else py.repr(a));
    s == "" || s == "plain"
  }

  predicate Writable(py: Python, i: Inspection) {
    Truthy(i.recognized) && i.mode == Str("raw") && !Truthy(i.needsPreparation) && PlainContainer(py, i.container)
  }

  predicate HasFirmware(entries: seq<Entry>, firmware: Firmware) {
    exists k :: 0 <= k < |entries| && entries[k].firmware == firmware
  }

  /** `linux_compatibility_profile`; no facts when the source changed under the
      inspection or could not be read, no profile for the empty mapping. */
  function LinuxProfile(py: Python, i: Inspection, facts: Option<Facts>, size: int): (r: Got<Option<Profile>>)
    ensures !r.Rejected?
  {
    if !Writable(py, i) || facts.None? then Value(None)
    else
      var strict :- StrictUefi(py, i.elTorito, size);
      var f := facts.value;
      if !f.diskLayout && !f.hasIso then Value(None)
      else
        var path := if f.hasIso && f.diskLayout then HybridDirect else if f.hasIso then OpticalDirect else RawDirect;
        var methods := (if HasFirmware(f.entries, Bios) then ["BIOS"] else [])
            + (if strict.Some? then ["UEFI"] else []);
        Value(Some(Profile(path, f.hasIso && f.diskLayout, f.hasIso, methods, strict)))
  }

  /** `enrich_linux_inspection`: a profile already present is kept. */
  function Enrich(i: Inspection, computed: Option<Profile>): Inspection {
    if i.prior.Some? || computed.None? then i else i.(prior := computed)
  }

  predicate OpticalUefi(p: Profile) {
    (p.writePath == HybridDirect || p.writePath == OpticalDirect) && p.optical && "UEFI" in p.bootMethods
  }

  /** `classify`. */
  function Classify(py: Python, i: Inspection, profile: Option<Profile>): Decision {
    if !Writable(py, i) then Refuse
    else if profile.Some? && OpticalUefi(profile.value) then IsoImageCandidate
    else DdOnly
  }

  /** `iso_image_mode_available`. */
  predicate IsoImageMode(i: Inspection) {
    i.mode == Str("raw") && i.prior.Some? && OpticalUefi(i.prior.value) && i.prior.value.elToritoUefi.Some?
  }

  /** `dd_image_mode_available`. */
  predicate DdImageMode(i: Inspection) {
    IsoImageMode(i) && i.prior.value.writePath == HybridDirect && i.prior.value.hybrid
  }

  /** What both decisions come down to: a plain raw image with an ISO volume and
      a strict UEFI plan that fits it. The boot catalogue's own entries do not
      enter. */
  ghost predicate Qualifies(py: Python, i: Inspection, facts: Option<Facts>, size: int) {
    && Writable(py, i) && facts.Some? && facts.value.hasIso
    && i.elTorito.Some? && ReadPlan(py, i.elTorito.value, size).Value?
  }

  lemma ProfileIff(py: Python, i: Inspection, facts: Option<Facts>, size: int, profile: Option<Profile>)
    requires LinuxProfile(py, i, facts, size) == Value(profile)
    ensures profile.Some? && OpticalUefi(profile.value) <==> Qualifies(py, i, facts, size)
    ensures profile.Some? && OpticalUefi(profile.value) ==> profile.value.elToritoUefi.Some?
    ensures profile.Some? && OpticalUefi(profile.value) ==>
        (profile.value.writePath == HybridDirect <==> facts.value.diskLayout)
    ensures profile.Some? ==> (profile.value.hybrid <==> profile.value.writePath == HybridDirect)
  {
    if Writable(py, i) && facts.Some? && (facts.value.diskLayout || facts.value.hasIso) {
      var strict := StrictUefi(py, i.elTorito, size).value;
      var bios := if HasFirmware(facts.value.entries, Bios) then ["BIOS"] else [];
      assert profile.value.bootMethods == bios + (if strict.Some? then ["UEFI"] else []);
      assert "UEFI" !in bios by { assert "BIOS"[0] != "UEFI"[0]; }
      assert "UEFI" in profile.value.bootMethods <==> strict.Some?;
    }
  }

  /** The corpus says `iso-image-candidate` exactly when the dialog offers ISO
      mode, and the DD choice is offered exactly when the image is also hybrid. */
  lemma DecisionsAgree(py: Python, i: Inspection, facts: Option<Facts>, size: int, profile: Option<Profile>)
    requires i.prior.None? && LinuxProfile(py, i, facts, size) == Value(profile)
    ensures Classify(py, i, profile) == IsoImageCandidate <==> IsoImageMode(Enrich(i, profile))
    ensures IsoImageMode(Enrich(i, profile)) <==> Qualifies(py, i, facts, size)
    ensures DdImageMode(Enrich(i, profile)) <==> IsoImageMode(Enrich(i, profile)) && facts.value.diskLayout
  {
    ProfileIff(py, i, facts, size, profile);
  }

  /** With a profile already present they may differ: the dialog trusts it, the
      corpus recomputes it. Here the image carries no ISO volume at all. */
  lemma PriorProfileOverrides(py: Python, plan: StrictPlan)
    ensures var i := Inspection(Bool(true), Str("raw"), Null, Null, None,
        Some(Profile(OpticalDirect, false, true, ["UEFI"], Some(plan))));
            var facts := Some(Facts(true, false, []));
            && LinuxProfile(py, i, facts, plan.sourceSize) == Value(Some(Profile(RawDirect, false, false, [], None)))
            && Classify(py, i, Some(Profile(RawDirect, false, false, [], None))) == DdOnly
            && IsoImageMode(Enrich(i, Some(Profile(RawDirect, false, false, [], None))))
  {
    var none: seq<string> := [];
    assert none + none == none;
    assert ["UEFI"][0] == "UEFI";
    assert !HasFirmware([], Bios);
  }

  /** A conversion is reached and its number is infinite. */
  ghost predicate InfiniteReached(py: Python, items: seq<Json>) {
    exists k :: 0 <= k < |items| && items[k] == Infinite && forall j :: 0 <= j < k ==> IntOr0(py, items[j]).Value?
  }

  lemma {:induction false} ConvertEscapes(py: Python, items: seq<Json>)
    ensures Convert(py, items).Escaped? <==> InfiniteReached(py, items)
  {
    if items == [] {
    } else {
      var rest := items[1..];
      ConvertEscapes(py, rest);
      if IntOr0(py, items[0]).Value? {
        if InfiniteReached(py, rest) {
          var k :| 0 <= k < |rest| && rest[k] == Infinite && forall j :: 0 <= j < k ==> IntOr0(py, rest[j]).Value?;
          assert items[k + 1] == Infinite && forall j :: 1 <= j < k + 1 ==> items[j] == rest[j - 1];
        }
        if InfiniteReached(py, items) {
          var k :| 0 <= k < |items| && items[k] == Infinite && forall j :: 0 <= j < k ==> IntOr0(py, items[j]).Value?;
          assert rest[k - 1] == Infinite && forall j :: 0 <= j < k - 1 ==> rest[j] == items[j + 1];
        }
      } else if items[0] == Infinite {
        assert InfiniteReached(py, items);
      }
    }
  }

  /** No profile comes of it, not even its absence, exactly when an infinite
      number in the plan is reached: its error is one that no handler catches. */
  lemma InfinitePlanEscapes(py: Python, i: Inspection, facts: Option<Facts>, size: int)
    ensures LinuxProfile(py, i, facts, size) == Escaped <==>
      Writable(py, i) && facts.Some? && i.elTorito.Some? && InfiniteReached(py, Numbers(i.elTorito.value))
  {
    if i.elTorito.Some? { ConvertEscapes(py, Numbers(i.elTorito.value)); }
  }

  /** A fixture with a strict plan is a candidate, hybrid or not. */
  lemma FixtureIsCandidate(py: Python, i: Inspection, hybrid: bool, platform: Byte, profile: Option<Profile>)
    requires i.prior.None? && Writable(py, i) && i.elTorito.Some? && ReadPlan(py, i.elTorito.value, FIXTURE_SIZE).Value?
    requires LinuxProfile(py, i, Some(FixtureFacts(hybrid, platform)), FIXTURE_SIZE) == Value(profile)
    ensures Classify(py, i, profile) == IsoImageCandidate
    ensures DdImageMode(Enrich(i, profile)) <==> hybrid
  {
    DecisionsAgree(py, i, Some(FixtureFacts(hybrid, platform)), FIXTURE_SIZE, profile);
  }
}
