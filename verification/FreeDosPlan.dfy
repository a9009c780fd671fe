/** The FreeDOS plan contract of gui/rufusarm64_freedos.py. Every failed check
    there is a `ValueError`, so their order does not matter here. */
module FreeDosPlan {
  import opened Base
  import opened PythonJson

  const SECTOR := 512
  const PARTITION_START_SECTOR := 2048
  const TAIL_RESERVE_SECTORS := 2048
  const MIB := 1024 * 1024
  const GIB := 1024 * 1024 * 1024

  /** A mapping as `.get` sees it: absent members read as Null. */
  datatype MediaPayload = MediaPayload(
    schema: Json, diskSize: Json, sectorSize: Json, startSector: Json, sectorCount: Json, sectorsPerCluster: Json,
    sectorsPerTrack: Json, heads: Json, labelText: Json)

  datatype PlanPayload = PlanPayload(
    schema: Json, mode: Json, bootable: Json, destructive: Json, devicePath: Json, identity: Json, deviceSize: Json,
    sectorSize: Json, targetCpu: Json, firmware: Json, distribution: Json, partitionNumber: Json, start: Json,
    size: Json,
    partitionType: Json, filesystem: Json, mutation: Json, verification: Json, untouched: Json, labelText: Json,
    media: Option<MediaPayload>, warnings: Json)

  datatype DevicePayload = DevicePayload(path: Json, size: Json)

  datatype Payload = Payload(device: Option<DevicePayload>, identity: Json, plan: Option<PlanPayload>,
      confirmation: Json)

  datatype Plan = Plan(
    devicePath: string, identity: string, deviceSize: int, partitionSize: int, volume: string,
    mutation: int, verification: int, untouched: int, sectorCount: int, sectorsPerCluster: int)

  const WARNINGS := List([
    Str("This operation erases the complete selected drive."),
    Str("The resulting media runs only on x86-compatible processors."),
    Str("The resulting media requires BIOS or UEFI Legacy/CSM firmware and is not for UEFI-only systems."),
    Str("Software verification cannot prove that a particular physical PC will boot the media.")])

  predicate LabelChar(c: char) {
    'A' <= c <= 'Z' || '0' <= c <= '9' || c == '-' || c == '_'
  }

  function NormalizeLabel(a: Json): (r: Got<string>)
    ensures r.Value? <==> a.Str? && 1 <= |a.s| <= 11 && forall c :: c in a.s ==> LabelChar(c)
    ensures r.Value? ==> a == Str(r.value)
    ensures !r.Escaped?
  {
    if a.Str? && 1 <= |a.s| <= 11 && forall c :: c in a.s ==> LabelChar(c) then Value(a.s) else Rejected
  }

  function CanonicalDevice(py: Python, a: Json): (r: Got<string>)
    ensures r.Value? ==> r.value == Text(py, a) && "/dev/" <= r.value && py.isNormalPath(r.value)
    ensures !r.Escaped?
  {
    var path := Text(py, a);
    if "/dev/" <= path && py.isNormalPath(path) then Value(path) else Rejected
  }

  /** The first size that takes each cluster size, and the end of the last range. */
  const CLUSTER_BOUNDS := [32 * MIB, 64 * MIB, 128 * MIB, 256 * MIB, 8 * GIB, 16 * GIB, 32 * GIB, 2048 * GIB]
  const CLUSTER_SECTORS := [1, 2, 4, 8, 16, 32, 64]

  /** `_expected_sectors_per_cluster`; FAT32 needs at least 65525 clusters and has
      room for fewer than 2^28. */
  function SectorsPerCluster(bytes: int): (r: Got<int>)
    ensures r.Value? <==> 32 * MIB <= bytes < 2048 * GIB
    ensures forall k :: 0 <= k < 7 && CLUSTER_BOUNDS[k] <= bytes < CLUSTER_BOUNDS[k + 1] ==>
        r == Value(CLUSTER_SECTORS[k])
    ensures r.Value? ==> r.value > 0 && 65_536 <= bytes / (r.value * SECTOR) < 0x1000_0000
    ensures !r.Escaped?
  {
    if bytes < 32 * MIB then Rejected
    else if bytes < 64 * MIB then Value(1)
    else if bytes < 128 * MIB then Value(2)
    else if bytes < 256 * MIB then Value(4)
    else if bytes < 8 * GIB then Value(8)
    else if bytes < 16 * GIB then Value(16)
    else if bytes < 32 * GIB then Value(32)
    else if bytes < 2048 * GIB then Value(64)
    else Rejected
  }

  datatype Media = Media(startSector: int, sectorCount: int, sectorsPerCluster: int)

  function NormalizeMedia(payload: Option<MediaPayload>, deviceSize: int, volume: string): (r: Got<Media>)
    ensures r.Value? ==>
      && r.value.startSector == PARTITION_START_SECTOR
      && r.value.startSector + r.value.sectorCount + TAIL_RESERVE_SECTORS == deviceSize / SECTOR
      && SectorsPerCluster(r.value.sectorCount * SECTOR) == Value(r.value.sectorsPerCluster)
    ensures !r.Escaped?
  {
    var _ :- Need(payload.Some?);
    var m := payload.value;
    var schema :- Exact(m.schema, 1);
    var diskSize :- Exact(m.diskSize, 1);
    var sectorSize :- Exact(m.sectorSize, 1);
    var startSector :- Exact(m.startSector, 1);
    var sectorCount :- Exact(m.sectorCount, 1);
    var perCluster :- Exact(m.sectorsPerCluster, 1);
    var perTrack :- Exact(m.sectorsPerTrack, 1);
    var heads :- Exact(m.heads, 1);
    var mediaLabel :- NormalizeLabel(m.labelText);
    var _ :- Need(schema == 1 && diskSize == deviceSize && sectorSize == SECTOR
        && startSector == PARTITION_START_SECTOR);
    var _ :- Need(startSector + sectorCount + TAIL_RESERVE_SECTORS == diskSize / SECTOR);
    var expected :- SectorsPerCluster(sectorCount * SECTOR);
    var _ :- Need(perCluster == expected && perTrack == 63 && heads == 255 && mediaLabel == volume);
    Value(Media(startSector, sectorCount, perCluster))
  }

  /** The fields an accepted plan carries along. */
  ghost predicate Carried(py: Python, plan: Plan) {
    && "/dev/" <= plan.devicePath && py.isNormalPath(plan.devicePath) && plan.identity != "" && plan.untouched > 0
    && NormalizeLabel(Str(plan.volume)).Value?
    && SectorsPerCluster(plan.sectorCount * SECTOR) == Value(plan.sectorsPerCluster)
  }

  /** The layout of an accepted plan: 1 MiB in front, 1 MiB behind, a FAT32
      partition between, and byte counts that stay far below 64 bits. */
  ghost predicate Sound(plan: Plan) {
    && plan.deviceSize == PARTITION_START_SECTOR * SECTOR + plan.partitionSize + TAIL_RESERVE_SECTORS * SECTOR
    && plan.partitionSize == plan.sectorCount * SECTOR && 32 * MIB <= plan.partitionSize < 2048 * GIB
    && 0 < plan.mutation == plan.verification < plan.deviceSize && plan.mutation + plan.untouched == plan.deviceSize
    && (plan.mutation + plan.verification) * 100 <= UINT64_MAX
  }

  predicate Platform(py: Python, cpu: Json, firmware: Json, distribution: Json) {
    Text(py, cpu) == "x86" && Text(py, firmware) == "BIOS or UEFI Legacy/CSM" && Text(py, distribution) == "FreeDOS 1.4"
  }

  /** The safety envelope, the device path, its identity and the platform. */
  function ReadTarget(py: Python, p: PlanPayload): (r: Got<(string, string)>)
    ensures r.Value? ==> "/dev/" <= r.value.0 && py.isNormalPath(r.value.0) && r.value.1 != ""
    ensures r.Value? ==> r.value.0 == Text(py, p.devicePath) && r.value.1 == Text(py, p.identity)
    ensures !r.Escaped?
  {
    var schema :- Exact(p.schema, 2);
    var _ :- Need(schema == 2 && p.mode == Str("freedos") && p.bootable == Bool(true) && p.destructive == Bool(true));
    var devicePath :- CanonicalDevice(py, p.devicePath);
    var identity :- NeedText(py, p.identity);
    var _ :- Need(Platform(py, p.targetCpu, p.firmware, p.distribution));
    var _ :- Need(p.partitionType == Str("0c") && p.filesystem == Str("FAT32") && p.warnings == WARNINGS);
    Value((devicePath, identity))
  }

  datatype Numbers = Numbers(deviceSize: int, start: int, size: int, mutation: int, verification: int, untouched: int)

  /** Geometry and byte accounting. */
  function ReadNumbers(p: PlanPayload): (r: Got<Numbers>)
    ensures r.Value? ==>
      var n := r.value;
      && n.start == PARTITION_START_SECTOR * SECTOR && n.start + n.size + TAIL_RESERVE_SECTORS * SECTOR == n.deviceSize
      && 0 < n.mutation == n.verification < n.deviceSize && n.mutation + n.untouched == n.deviceSize && n.untouched > 0
    ensures !r.Escaped?
  {
    var deviceSize :- Exact(p.deviceSize, 1);
    var sectorSize :- Exact(p.sectorSize, 1);
    var _ :- Need(sectorSize == SECTOR);
    var number :- Exact(p.partitionNumber, 1);
    var start :- Exact(p.start, 1);
    var size :- Exact(p.size, 1);
    var _ :- Need(number == 1 && start == PARTITION_START_SECTOR * SECTOR
        && start + size + TAIL_RESERVE_SECTORS * SECTOR == deviceSize);
    var mutation :- Exact(p.mutation, 1);
    var verification :- Exact(p.verification, 1);
    var untouched :- Exact(p.untouched, 1);
    var _ :- Need(mutation == verification && mutation < deviceSize && mutation + untouched == deviceSize);
    Value(Numbers(deviceSize, start, size, mutation, verification, untouched))
  }

  /** `_normalize_plan_fields`. */
  function NormalizeFields(py: Python, payload: Option<PlanPayload>): (r: Got<Plan>)
    ensures r.Value? ==> Sound(r.value) && Carried(py, r.value)
    ensures r.Value? ==>
        payload.Some? && r.value.devicePath == Text(py, payload.value.devicePath)
        && r.value.identity == Text(py, payload.value.identity)
    ensures !r.Escaped?
  {
    var _ :- Need(payload.Some?);
    var p := payload.value;
    var target :- ReadTarget(py, p);
    var n :- ReadNumbers(p);
    var volume :- NormalizeLabel(p.labelText);
    var media :- NormalizeMedia(p.media, n.deviceSize, volume);
    var _ :- Need(media.startSector * SECTOR == n.start && media.sectorCount * SECTOR == n.size);
    Value(Plan(target.0, target.1, n.deviceSize, n.size, volume, n.mutation, n.verification, n.untouched,
        media.sectorCount, media.sectorsPerCluster))
  }

  function PhraseFor(plan: Plan): string {
    "WRITE FREEDOS 1.4 TO " + plan.devicePath + " FOR X86 BIOS LEGACY"
  }

  /** `normalize_plan`. */
  function NormalizePlan(py: Python, payload: Payload): (r: Got<Plan>)
    ensures r.Value? ==> Sound(r.value) && Carried(py, r.value) && Text(py, payload.confirmation) == PhraseFor(r.value)
    ensures r.Value? ==> NormalizeFields(py, payload.plan) == r
    ensures !r.Escaped?
  {
    var _ :- Need(payload.device.Some?);
    var identity :- NeedText(py, payload.identity);
    var plan :- NormalizeFields(py, payload.plan);
    var path :- NeedText(py, payload.device.value.path);
    var size :- Exact(payload.device.value.size, 1);
    var _ :- Need(path == plan.devicePath && size == plan.deviceSize && identity == plan.identity);
    var returned :- NeedText(py, payload.confirmation);
    var _ :- Need(returned == PhraseFor(plan));
    Value(plan)
  }

  // ------------------------------------------------- normalizing twice

  /** The payload that `normalize_plan` returns for an accepted plan. */
  function Normalized(plan: Plan): Payload {
    Payload(
      Some(DevicePayload(Str(plan.devicePath), Int(plan.deviceSize))), Str(plan.identity),
      Some(PlanPayload(
        Int(2), Str("freedos"), Bool(true), Bool(true), Str(plan.devicePath), Str(plan.identity), Int(plan.deviceSize),
        Int(SECTOR), Str("x86"), Str("BIOS or UEFI Legacy/CSM"), Str("FreeDOS 1.4"), Int(1),
        Int(PARTITION_START_SECTOR * SECTOR),
        Int(plan.partitionSize), Str("0c"), Str("FAT32"), Int(plan.mutation), Int(plan.verification),
        Int(plan.untouched),
        Str(plan.volume),
        Some(MediaPayload(Int(1), Int(plan.deviceSize), Int(SECTOR), Int(PARTITION_START_SECTOR), Int(plan.sectorCount),
                          Int(plan.sectorsPerCluster), Int(63), Int(255), Str(plan.volume))),
        WARNINGS)),
      Str(PhraseFor(plan)))
  }

  lemma PlainText(py: Python, s: string)
    requires Unspaced(s)
    ensures Text(py, Str(s)) == s
  {
  }

  lemma PlatformAccepted(py: Python)
    ensures Platform(py, Str("x86"), Str("BIOS or UEFI Legacy/CSM"), Str("FreeDOS 1.4"))
  {
    PlainText(py, "x86");
    PlainText(py, "BIOS or UEFI Legacy/CSM");
    PlainText(py, "FreeDOS 1.4");
  }

  lemma MediaTwice(py: Python, plan: Plan)
    requires Sound(plan) && Carried(py, plan)
    ensures NormalizeMedia(Normalized(plan).plan.value.media, plan.deviceSize, plan.volume)
         == Value(Media(PARTITION_START_SECTOR, plan.sectorCount, plan.sectorsPerCluster))
  {
  }

  lemma TargetTwice(py: Python, plan: Plan)
    requires Carried(py, plan)
    requires Text(py, Str(plan.devicePath)) == plan.devicePath && Text(py, Str(plan.identity)) == plan.identity
    ensures ReadTarget(py, Normalized(plan).plan.value) == Value((plan.devicePath, plan.identity))
  {
    PlatformAccepted(py);
  }

  lemma NumbersTwice(plan: Plan)
    requires Sound(plan) && plan.untouched > 0
    ensures ReadNumbers(Normalized(plan).plan.value)
         == Value(Numbers(plan.deviceSize, PARTITION_START_SECTOR * SECTOR, plan.partitionSize, plan.mutation,
             plan.verification, plan.untouched))
  {
  }

  lemma FieldsTwice(py: Python, plan: Plan)
    requires Sound(plan) && Carried(py, plan)
    requires Text(py, Str(plan.devicePath)) == plan.devicePath && Text(py, Str(plan.identity)) == plan.identity
    ensures NormalizeFields(py, Normalized(plan).plan) == Value(plan)
  {
    TargetTwice(py, plan);
    NumbersTwice(plan);
    MediaTwice(py, plan);
    FieldsComposed(py, plan);
  }

  lemma FieldsComposed(py: Python, plan: Plan)
    requires Sound(plan) && NormalizeLabel(Str(plan.volume)).Value?
    requires ReadTarget(py, Normalized(plan).plan.value) == Value((plan.devicePath, plan.identity))
    requires ReadNumbers(Normalized(plan).plan.value)
          == Value(Numbers(plan.deviceSize, PARTITION_START_SECTOR * SECTOR, plan.partitionSize, plan.mutation,
              plan.verification, plan.untouched))
    requires NormalizeMedia(Normalized(plan).plan.value.media, plan.deviceSize, plan.volume)
          == Value(Media(PARTITION_START_SECTOR, plan.sectorCount, plan.sectorsPerCluster))
    ensures NormalizeFields(py, Normalized(plan).plan) == Value(plan)
  {
  }

  lemma AcceptedTwice(py: Python, plan: Plan)
    requires NormalizeFields(py, Normalized(plan).plan) == Value(plan) && plan.devicePath != "" && plan.identity != ""
    requires plan.deviceSize > 0
    requires Text(py, Str(plan.devicePath)) == plan.devicePath && Text(py, Str(plan.identity)) == plan.identity
    requires Text(py, Str(PhraseFor(plan))) == PhraseFor(plan) != ""
    ensures NormalizePlan(py, Normalized(plan)) == Value(plan)
  {
  }

  /** Texts an accepted payload stated are stripped already. */
  lemma StatedTexts(py: Python, payload: Payload, plan: Plan)
    requires payload.plan.Some? && plan.devicePath == Text(py, payload.plan.value.devicePath)
    requires plan.identity == Text(py, payload.plan.value.identity) && PhraseFor(plan) == Text(py, payload.confirmation)
    ensures Text(py, Str(plan.devicePath)) == plan.devicePath && Text(py, Str(plan.identity)) == plan.identity
    ensures Text(py, Str(PhraseFor(plan))) == PhraseFor(plan)
  {
    TextIsStripped(py, payload.plan.value.devicePath);
    TextIsStripped(py, payload.plan.value.identity);
    TextIsStripped(py, payload.confirmation);
  }

  /** Normalizing the normalized plan again accepts it and changes nothing: the
      worker may validate progress against the stored plan. */
  lemma NormalizeTwice(py: Python, payload: Payload)
    requires NormalizePlan(py, payload).Value?
    ensures NormalizePlan(py, Normalized(NormalizePlan(py, payload).value)) == NormalizePlan(py, payload)
  {
    var plan := NormalizePlan(py, payload).value;
    StatedTexts(py, payload, plan);
    FieldsTwice(py, plan);
    AcceptedTwice(py, plan);
  }

  // --------------------------------------------- every fitting drive has a plan

  /** The plan of a drive, its byte counts given by the number of bytes written. */
  function PlanOfDrive(path: string, identity: string, deviceSize: int, volume: string, mutation: int): Plan
    requires deviceSize % SECTOR == 0
  {
    var sectors := deviceSize / SECTOR - PARTITION_START_SECTOR - TAIL_RESERVE_SECTORS;
    var perCluster := SectorsPerCluster(sectors * SECTOR);
    Plan(path, identity, deviceSize, sectors * SECTOR, volume, mutation, mutation, deviceSize - mutation, sectors,
         if perCluster.Value? then perCluster.value else 0)
  }

  lemma DrivePlanIsSound(py: Python, path: string, identity: string, deviceSize: int, volume: string, mutation: int)
    requires deviceSize % SECTOR == 0 && 34 * MIB <= deviceSize < 2048 * GIB + 2 * MIB && 0 < mutation < deviceSize
    requires "/dev/" <= path && py.isNormalPath(path) && identity != "" && NormalizeLabel(Str(volume)).Value?
    ensures Sound(PlanOfDrive(path, identity, deviceSize, volume, mutation))
    ensures Carried(py, PlanOfDrive(path, identity, deviceSize, volume, mutation))
  {
  }

  lemma PhraseIsPlain(py: Python, plan: Plan)
    ensures Text(py, Str(PhraseFor(plan))) == PhraseFor(plan) != ""
  {
    var phrase := PhraseFor(plan);
    assert phrase[0] == 'W' && phrase[|phrase| - 1] == 'Y';
  }

  /** Every plan with sound fields is accepted in its normalized form, */
  lemma NormalizedIsAccepted(py: Python, plan: Plan)
    requires Sound(plan) && Carried(py, plan)
    requires Text(py, Str(plan.devicePath)) == plan.devicePath && Text(py, Str(plan.identity)) == plan.identity
    ensures NormalizePlan(py, Normalized(plan)) == Value(plan)
  {
    FieldsTwice(py, plan);
    PhraseIsPlain(py, plan);
    AcceptedTwice(py, plan);
  }

  /** so every drive of whole sectors between 34 MiB and 2 TiB and 2 MiB has an
      accepted plan, for every label and number of bytes written. */
  lemma EveryDriveHasPlan(py: Python, path: string, identity: string, deviceSize: int, volume: string, mutation: int)
    requires deviceSize % SECTOR == 0 && 34 * MIB <= deviceSize < 2048 * GIB + 2 * MIB && 0 < mutation < deviceSize
    requires "/dev/" <= path && py.isNormalPath(path) && Unspaced(path) && Unspaced(identity) && identity != ""
    requires 1 <= |volume| <= 11 && forall c :: c in volume ==> LabelChar(c)
    ensures var plan := PlanOfDrive(path, identity, deviceSize, volume, mutation);
            NormalizePlan(py, Normalized(plan)) == Value(plan)
  {
    DrivePlanIsSound(py, path, identity, deviceSize, volume, mutation);
    PlainText(py, path);
    PlainText(py, identity);
    NormalizedIsAccepted(py, PlanOfDrive(path, identity, deviceSize, volume, mutation));
  }
}
