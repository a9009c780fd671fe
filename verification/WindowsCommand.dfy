/** `values` of the Windows options dialog and what `build_writer_command` of
    gui/rufusarm64_logic.py checks on them. */
module WindowsCommand {
  import opened Base
  import opened WindowsLocale
  import opened WindowsOptions

  /** `str.isalnum` of one character and the reserved-name test. */
  datatype Names = Names(alnum: char -> bool, reserved: string -> bool)

  /** `validate_local_username`: None stands for its ValueError. */
  function ValidateUser(n: Names, raw: string): Option<string> {
    var v := Strip(raw);
    if v == "" then Some("")
    else if raw != v || |v| > 20 || v[|v| - 1] == '.' then None
    else if exists c :: c in v && !n.alnum(c) && c !in " ._-'" then None
    else if n.reserved(v) then None
    else Some(v)
  }

  /** A validated name passes validation again, unchanged. */
  lemma ValidateTwice(n: Names, raw: string)
    requires ValidateUser(n, raw).Some?
    ensures ValidateUser(n, ValidateUser(n, raw).value) == ValidateUser(n, raw)
  {
    StripTwice(raw);
  }

  predicate ZoneChar(c: char) {
    Alnum(c) || c == ' ' || c == '_' || c == '+' || c == '(' || c == ')' || c == '.' || c == '-'
  }

  /** `validate_windows_timezone` on a stripped name. */
  predicate ValidZone(zone: string) {
    zone != "" ==> Unspaced(zone) && |zone| <= 64 && forall c :: c in zone ==> ZoneChar(c)
  }

  /** The dictionary of `values`; the flags are the active boxes. */
  datatype Values = Values(active: Boxes, localUser: string, imageIndex: int, locale: string, zone: string)

  predicate HasIndex(images: seq<Image>, index: int) {
    exists k :: 0 <= k < |images| && images[k].index == index
  }

  predicate Listed(s: Setup, index: int) {
    HasIndex(s.images, index)
  }

  /** `values`. */
  function ReadValues(s: Setup, n: Names, active: Boxes, user: string, edition: Option<int>): Option<Values> {
    var local := if Account in active then ValidateUser(n, user) else Some("");
    var regional := Region in active;
    if local.None? || (Account in active && local.value == "") then None
    else
      var complete := local.value != "" && Privacy in active && regional && s.locale != "" && s.zone != "";
      var index := if edition.Some? then edition.value else 0;
      var selects := Silent in active || ToGo in active;
      if selects && (Silent in active && !complete) then None
      else if selects && !Listed(s, index) then None
      else Some(Values(active, local.value, if selects then index else 0,
                       if regional then s.locale else "", if regional then s.zone else ""))
  }

  /** What a zone name is made of, and some of what it is not. */
  lemma ZoneCharacters()
    ensures ZoneChar('a') && ZoneChar('z') && ZoneChar('A') && ZoneChar('Z') && ZoneChar('0') && ZoneChar('9')
    ensures ZoneChar(' ') && ZoneChar('_') && ZoneChar('+') && ZoneChar('(') && ZoneChar(')') && ZoneChar('.')
    ensures ZoneChar('-') && !ZoneChar('/') && !ZoneChar('&') && !ZoneChar('<') && !ZoneChar('"') && !ZoneChar('\n')
    ensures forall c :: c > 'z' ==> !ZoneChar(c)
  {
  }

  // -------------------------------------------------- the analysed images

  /** One image as the helper reports it; None for a number `int` refuses. */
  datatype Report = Report(index: Option<int>, name: string, language: string, totalBytes: Option<int>)

  /** The image loop of `normalize_windows_capability_analysis`, with the extra
      demand it makes when Windows To Go is enabled; None for its ValueErrors. */
  function NormalizeImages(reports: seq<Report>, toGo: bool, utf8: string -> nat): Option<seq<Image>>
    decreases |reports|
  {
    if reports == [] then Some([])
    else
      var n := |reports| - 1;
      var before := NormalizeImages(reports[..n], toGo, utf8);
      if before.None? || reports[n].index.None? || reports[n].totalBytes.None? then None
      else
        var image := Image(reports[n].index.value, Strip(reports[n].name), Strip(reports[n].language),
            reports[n].totalBytes.value);
        if !(1 <= image.index <= 256) || HasIndex(before.value, image.index) then None
        else if image.name == "" || utf8(image.name) > 256 || !(0 <= image.totalBytes < 0x1_0000_0000_0000_0000)
            then None
        else if image.language != "" && !Tag(image.language) then None
        else if toGo && (image.totalBytes == 0 || !Tag(image.language)) then None
        else Some(before.value + [image])
  }

  /** One image alone is accepted exactly with an index up to 256, a name within
      256 octets, a size within 64 bits, and a language tag or none; Windows To Go
      asks for the tag and for a size. */
  lemma OneImageIff(r: Report, toGo: bool, utf8: string -> nat)
    requires r.index.Some? && r.totalBytes.Some?
    ensures NormalizeImages([r], toGo, utf8).Some? <==>
      && 1 <= r.index.value <= 256 && Strip(r.name) != "" && utf8(Strip(r.name)) <= 256
      && (if toGo then 1 else 0) <= r.totalBytes.value < 0x1_0000_0000_0000_0000
      && (Tag(Strip(r.language)) || (!toGo && Strip(r.language) == ""))
  {
    assert [r][..0] == [];
    if Strip(r.language) == "" { assert !Tag(""); }
  }

  /** The image `windows_to_go_image` finds: the first of the index. */
  function Selected(images: seq<Image>, index: int): Image
    requires HasIndex(images, index)
  {
    if images[0].index == index then images[0] else Selected(images[1..], index)
  }

  /** Its evidence is complete: `windows_to_go_image` does not refuse it. */
  predicate Proven(image: Image) {
    Strip(image.name) != "" && 1 <= image.index <= 256 && image.totalBytes > 0 && Tag(Strip(image.language))
  }

  lemma {:induction false} NormalizedAreProven(reports: seq<Report>, utf8: string -> nat, k: nat)
    requires NormalizeImages(reports, true, utf8).Some? && k < |NormalizeImages(reports, true, utf8).value|
    ensures Proven(NormalizeImages(reports, true, utf8).value[k])
    decreases |reports|
  {
    var n := |reports| - 1;
    var before := NormalizeImages(reports[..n], true, utf8).value;
    if k < |before| {
      NormalizedAreProven(reports[..n], utf8, k);
    } else {
      StripTwice(reports[n].name);
      StripTwice(reports[n].language);
    }
  }

  lemma {:induction false} SelectedIsListed(images: seq<Image>, index: int) returns (k: nat)
    requires HasIndex(images, index)
    ensures k < |images| && Selected(images, index) == images[k] && images[k].index == index
  {
    if images[0].index == index {
      k := 0;
    } else {
      k := SelectedIsListed(images[1..], index);
      k := k + 1;
    }
  }

  /** The analysis the dialog was given: none was possible, or the images passed. */
  ghost predicate Analysed(s: Setup, utf8: string -> nat) {
    (s.caps == {} && s.images == [])
        || exists reports :: NormalizeImages(reports, ToGo in s.caps, utf8) == Some(s.images)
  }

  // --------------------------------------------------- build_writer_command

  datatype Refusal =
    | NoIdentity | BadScheme | BadTarget | BadFilesystem
    | ToGoUnproven | ToGoEvidence | ToGoForbidden | ToGoRegion
    | BiosWithGpt | SkuTarget | SilentUnproven | SilentLayout | SilentFields | SilentRegion | SilentImage
    | BootFilesUnproven | BootFilesTarget | BootFilesLayout | BadLabel | BadCluster | BadUser | BadZone

  /** The main window's part of the request, and the layout defaults and boot-file
      evidence of the analysis. `labelOk` tells whether `normalize_volume_label`
      takes the label. */
  datatype Request = Request(
    identity: string, scheme: string, target: string, filesystem: string, cluster: string, labelOk: bool,
    drivers: string, dbx: string, quickFormat: bool, badBlocks: bool,
    defaultTarget: string, defaultFilesystem: string, bootFilesProven: bool)

  function Chosen(c: Case, value: string): string {
    c.lower(Strip(if value == "" then "auto" else value))
  }

  function OneOf(value: string, known: set<string>): Option<string> {
    if value in known then Some(value) else None
  }

  /** `normalize_partition_scheme`, `normalize_target_system`,
      `normalize_filesystem` and `normalize_cluster_size`. */
  function Scheme(c: Case, value: string): Option<string> {
    OneOf(Chosen(c, value), {"auto", "gpt", "mbr"})
  }

  function Target(c: Case, value: string): Option<string> {
    var named := Chosen(c, value);
    OneOf(if named in {"legacy", "legacy-bios", "bios-csm"} then "bios" else named, {"auto", "uefi", "bios"})
  }

  function Filesystem(c: Case, value: string): Option<string> {
    OneOf(Chosen(c, value), {"auto", "fat32", "ntfs"})
  }

  function Cluster(c: Case, value: string): Option<string> {
    OneOf(Chosen(c, value), {"", "auto", "0", "4096", "8192", "16384", "32768"})
  }

  /** The names of the layouts, in any case, and the older ones for a BIOS. */
  lemma LayoutNames(c: Case, v: string)
    requires Unicode(c) && Ascii(v) && v != ""
    ensures var w := Lower(Strip(v));
      && (Target(c, v) == Some("bios") <==> w == "bios" || w == "legacy" || w == "legacy-bios" || w == "bios-csm")
      && (Target(c, v) == Some("uefi") <==> w == "uefi") && (Target(c, v) == Some("auto") <==> w == "auto")
      && (Scheme(c, v).Some? <==> w == "auto" || w == "gpt" || w == "mbr")
      && (Filesystem(c, v).Some? <==> w == "auto" || w == "fat32" || w == "ntfs")
      && (Scheme(c, v).Some? ==> Scheme(c, v) == Some(w)) && (Filesystem(c, v).Some? ==> Filesystem(c, v) == Some(w))
  {
    StripIsInside(v);
  }

  lemma {:induction false} LeftIsInside(v: string)
    ensures forall x :: x in StripLeft(v) ==> x in v
  {
    if v != "" && IsSpace(v[0]) { LeftIsInside(v[1..]); }
  }

  lemma {:induction false} RightIsInside(v: string)
    ensures forall x :: x in StripRight(v) ==> x in v
    decreases |v|
  {
    if v != "" && IsSpace(v[|v| - 1]) { RightIsInside(v[..|v| - 1]); }
  }

  lemma StripIsInside(v: string)
    ensures forall x :: x in Strip(v) ==> x in v
  {
    LeftIsInside(v);
    RightIsInside(StripLeft(v));
  }

  function Resolved(named: string, default: string): string {
    if named == "auto" then default else named
  }

  /** The dialog was opened on the layout that is now requested. */
  ghost predicate SameLayout(s: Setup, c: Case, q: Request) {
    && (Target(c, q.target).Some? ==> s.target == Resolved(Target(c, q.target).value, q.defaultTarget))
    && (Filesystem(c, q.filesystem).Some? ==>
       s.filesystem == Resolved(Filesystem(c, q.filesystem).value, q.defaultFilesystem))
  }

  /** What Windows To Go forbids in the main window. */
  predicate ForbidsToGo(q: Request) {
    Strip(q.drivers) != "" || Strip(q.dbx) != "" || !q.quickFormat || q.badBlocks
  }

  /** `_windows_to_go_command`. */
  function RefusesToGo(s: Setup, n: Names, q: Request, v: Values): Option<Refusal> {
    if ToGo !in s.caps || !Listed(s, v.imageIndex) then Some(ToGoUnproven)
    else if !Proven(Selected(s.images, v.imageIndex)) then Some(ToGoEvidence)
    else if v.active * FIVE != {} || ForbidsToGo(q) then Some(ToGoForbidden)
    else if Strip(v.localUser) != "" && ValidateUser(n, Strip(v.localUser)).None? then Some(BadUser)
    else
      var named := Strip(v.locale) != "" || Strip(v.zone) != "";
      if named != (Region in v.active) then Some(ToGoRegion) else None
  }

  /** Rejections of the silent-installation branch. */
  function RefusesSilent(s: Setup, c: Case, n: Names, v: Values): Option<Refusal> {
    if Silent !in s.caps then Some(SilentUnproven)
    else if !GuardedLayout(s) then Some(SilentLayout)
    else if ValidateUser(n, v.localUser).None? then Some(BadUser)
    else if ValidateUser(n, v.localUser).value == "" || Privacy !in v.active || Region !in v.active
        then Some(SilentFields)
    else if !ValidZone(Strip(v.zone)) then Some(BadZone)
    else if Normalize(c, v.locale) == "" || Strip(v.zone) == "" then Some(SilentRegion)
    else if !Listed(s, v.imageIndex) then Some(SilentImage)
    else None
  }

  /** `build_writer_command`: its checks in their order. */
  function Refuses(s: Setup, c: Case, n: Names, q: Request, v: Values): Option<Refusal> {
    if q.identity == "" then Some(NoIdentity)
    else if Scheme(c, q.scheme).None? then Some(BadScheme)
    else if Target(c, q.target).None? then Some(BadTarget)
    else if Filesystem(c, q.filesystem).None? then Some(BadFilesystem)
    else if ToGo in v.active then RefusesToGo(s, n, q, v)
    else if Target(c, q.target).value == "bios" && Scheme(c, q.scheme).value == "gpt" then Some(BiosWithGpt)
    else
      var target := Resolved(Target(c, q.target).value, q.defaultTarget);
      var filesystem := Resolved(Filesystem(c, q.filesystem).value, q.defaultFilesystem);
      var layout := s.(target := target, filesystem := filesystem);
      if SkuPolicy in v.active && target != "uefi" then Some(SkuTarget)
      else if Silent in v.active && RefusesSilent(layout, c, n, v).Some? then RefusesSilent(layout, c, n, v)
      else if Ca2023 in v.active && !q.bootFilesProven then Some(BootFilesUnproven)
      else if Ca2023 in v.active && target != "uefi" then Some(BootFilesTarget)
      else if Ca2023 in v.active && filesystem != "fat32" then Some(BootFilesLayout)
      else if !q.labelOk then Some(BadLabel)
      else if Cluster(c, q.cluster).None? then Some(BadCluster)
      else if ValidateUser(n, v.localUser).None? then Some(BadUser)
      else if Region in v.active && !ValidZone(Strip(v.zone)) then Some(BadZone)
      else None
  }

  // ----------------------------------------------------------- agreement

  /** The regional settings as the dialog found them: a normalized locale and a
      name out of the zone table. */
  ghost predicate Found(s: Setup, c: Case) {
    Unicode(c) && (exists raw :: s.locale == Normalize(c, raw)) && ValidZone(s.zone)
  }

  lemma FoundLocale(s: Setup, c: Case)
    requires Found(s, c) && s.locale != ""
    ensures Strip(s.locale) != "" && Normalize(c, s.locale) != ""
  {
    var raw :| s.locale == Normalize(c, raw);
    NormalizeTwice(c, raw);
  }

  lemma FoundZone(zone: string)
    requires ValidZone(zone)
    ensures Strip(zone) == zone
  {
    if zone != "" { UnspacedStays(zone); }
  }

  lemma SilentAccepted(s: Setup, c: Case, n: Names, v: Values)
    requires Silent in s.caps && GuardedLayout(s) && Privacy in v.active && Region in v.active
    requires Listed(s, v.imageIndex)
    requires ValidateUser(n, v.localUser) == Some(v.localUser) && v.localUser != ""
    requires Strip(v.zone) == v.zone && v.zone != "" && ValidZone(v.zone) && Normalize(c, v.locale) != ""
    ensures RefusesSilent(s, c, n, v) == None
  {
  }

  /** What is left of the Windows To Go branch. */
  function ToGoStillRefuses(s: Setup, q: Request, v: Values): Option<Refusal> {
    if Listed(s, v.imageIndex) && !Proven(Selected(s.images, v.imageIndex)) then Some(ToGoEvidence)
    else if Strip(q.drivers) == "" && Strip(q.dbx) == "" && q.quickFormat && !q.badBlocks then None
    else Some(ToGoForbidden)
  }

  lemma ToGoAccepted(s: Setup, n: Names, q: Request, v: Values)
    requires ToGo in s.caps && Listed(s, v.imageIndex) && v.active * FIVE == {}
    requires ValidateUser(n, v.localUser) == Some(v.localUser)
    requires Region in v.active ==> Strip(v.locale) != "" || Strip(v.zone) != ""
    requires Region !in v.active ==> v.locale == "" && v.zone == ""
    ensures RefusesToGo(s, n, q, v) == ToGoStillRefuses(s, q, v)
  {
  }

  /** What `values` returns at rest, box by box. */
  lemma ValuesAtRest(s: Setup, n: Names, active: Boxes, user: string, edition: Option<int>)
    requires Settled(s, active, user) && ReadValues(s, n, active, user, edition).Some?
    ensures var v := ReadValues(s, n, active, user, edition).value;
            && v.active == active && ValidateUser(n, v.localUser) == Some(v.localUser)
            && v.locale == (if Region in active then s.locale else "")
            && v.zone == (if Region in active then s.zone else "")
            && (Silent in active || ToGo in active ==> Listed(s, v.imageIndex))
            && (Silent in active ==>
                  v.localUser != "" && Privacy in active && Region in active && s.locale != ""
                  && s.zone != "")
  {
    if Account in active { ValidateTwice(n, user); }
  }

  /** At rest values are read exactly when the account box, if it is on, has a
      usable name and the edition, if one is needed, is listed: the rules of silent
      installation leave nothing else to complain about. */
  lemma ValuesAreReadIff(s: Setup, n: Names, active: Boxes, user: string, edition: Option<int>)
    requires Settled(s, active, user)
    ensures ReadValues(s, n, active, user, edition).Some? <==>
      && (Account in active ==> ValidateUser(n, user).Some? && ValidateUser(n, user).value != "")
      && (Silent in active || ToGo in active ==> Listed(s, if edition.Some? then edition.value else 0))
  {
    KeptAll(s, active);
  }

  lemma RulesAtRest(s: Setup, active: Boxes, user: string)
    requires Settled(s, active, user)
    ensures SkuPolicy in active ==> s.target == "uefi"
    ensures Ca2023 in active ==> s.target == "uefi" && s.filesystem == "fat32"
    ensures Silent in active ==> Silent in s.caps && GuardedLayout(s)
    ensures Region in active ==> s.locale != "" || s.zone != ""
    ensures ToGo in active ==> ToGo in s.caps && active * FIVE == {}
  {
  }

  /** What is left to refuse the values of the dialog: the main window's own
      fields, and evidence the dialog does not look at. */
  function StillRefuses(s: Setup, c: Case, q: Request, v: Values): Option<Refusal> {
    if q.identity == "" then Some(NoIdentity)
    else if Scheme(c, q.scheme).None? then Some(BadScheme)
    else if Target(c, q.target).None? then Some(BadTarget)
    else if Filesystem(c, q.filesystem).None? then Some(BadFilesystem)
    else if ToGo in v.active then ToGoStillRefuses(s, q, v)
    else if Target(c, q.target).value == "bios" && Scheme(c, q.scheme).value == "gpt" then Some(BiosWithGpt)
    else if Ca2023 in v.active && !q.bootFilesProven then Some(BootFilesUnproven)
    else if !q.labelOk then Some(BadLabel)
    else if Cluster(c, q.cluster).None? then Some(BadCluster)
    else None
  }

  /** On the same analysis and layout, whatever the dialog returns at rest is
      refused for nothing the dialog decides: not by the SkuSiPolicy branch, not
      by the silent branch, not for the boot files' layout, not for the account,
      the region, the capability or an option Windows To Go excludes, */
  lemma ValuesAreAccepted(s: Setup, c: Case, n: Names, q: Request, active: Boxes, user: string, edition: Option<int>)
    requires Settled(s, active, user) && Found(s, c) && SameLayout(s, c, q)
    requires ReadValues(s, n, active, user, edition).Some?
    ensures var v := ReadValues(s, n, active, user, edition).value;
            Refuses(s, c, n, q, v) == StillRefuses(s, c, q, v)
  {
    var v := ReadValues(s, n, active, user, edition).value;
    ValuesAtRest(s, n, active, user, edition);
    RulesAtRest(s, active, user);
    if s.locale != "" { FoundLocale(s, c); }
    FoundZone(s.zone);
    FoundZone("");
    if ToGo in active {
      ToGoAccepted(s, n, q, v);
    } else if Silent in active {
      SilentAccepted(s, c, n, v);
    }
    Composed(s, c, n, q, v);
  }

  /** and on an analysis that passed its own checks not for an image's evidence
      either. */
  lemma AnalysedImagesAreProven(s: Setup, c: Case, n: Names, q: Request, active: Boxes, user: string,
          edition: Option<int>, utf8: string -> nat)
    requires Settled(s, active, user) && Analysed(s, utf8) && ReadValues(s, n, active, user, edition).Some?
    ensures StillRefuses(s, c, q, ReadValues(s, n, active, user, edition).value) != Some(ToGoEvidence)
  {
    RulesAtRest(s, active, user);
    var v := ReadValues(s, n, active, user, edition).value;
    if ToGo in v.active && Listed(s, v.imageIndex) {
      var reports :| NormalizeImages(reports, true, utf8) == Some(s.images);
      var k := SelectedIsListed(s.images, v.imageIndex);
      NormalizedAreProven(reports, utf8, k);
    }
  }

  /** The order of the checks, once each branch is known to accept. */
  lemma Composed(s: Setup, c: Case, n: Names, q: Request, v: Values)
    requires SameLayout(s, c, q)
    requires ToGo in v.active ==> Listed(s, v.imageIndex) && RefusesToGo(s, n, q, v) == ToGoStillRefuses(s, q, v)
    requires ToGo !in v.active && Silent in v.active ==> RefusesSilent(s, c, n, v) == None
    requires SkuPolicy in v.active ==> s.target == "uefi"
    requires Ca2023 in v.active ==> s.target == "uefi" && s.filesystem == "fat32"
    requires ValidateUser(n, v.localUser).Some? && ValidZone(Strip(v.zone))
    ensures Refuses(s, c, n, q, v) == StillRefuses(s, c, q, v)
  {
    if Target(c, q.target).Some? && Filesystem(c, q.filesystem).Some? {
      assert s.(target := s.target, filesystem := s.filesystem) == s;
    }
  }
}
