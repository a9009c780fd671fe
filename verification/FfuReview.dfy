/** `normalize_ffu_review` of gui/rufusarm64_logic.py: the read-only review of
    three linked plans. Checks run in the order of the source, because the order
    decides between a rejection and an uncaught conversion error. */
module FfuReview {
  import opened Base
  import opened PythonJson
  import opened FfuKeys

  datatype Mount = Mount(device: string, mountpoint: string)

  datatype NormalReview = NormalReview(
    trustStoreRoot: string, trustGeneration: string, trustSequence: int, trustBundle: string,
    metadataPolicy: string, publisherPolicy: string, binding: string, sourcePath: string, sourceSize: int,
    descriptor: string, targetPath: string, targetIdentity: string, targetSize: int, logical: int, physical: int,
    mutation: int, mounts: seq<Mount>, unmountRequired: bool, phrase: string)

  /** The trust, source and policy part of the response. */
  datatype Header = Header(
    sourcePath: string, trustStoreRoot: string, trustGeneration: string, trustSequence: int, trustBundle: string,
    metadataPolicy: string, publisherPolicy: string, binding: string, descriptor: string, sourceSize: int)

  /** The geometry all three plans must agree on. */
  datatype Geometry = Geometry(path: string, identity: string, size: int, logical: int, physical: int, mutation: int)

  function PhraseFor(path: string, size: int): string
    requires size >= 0
  {
    "RESTORE AUTHENTICATED FFU TO " + path + " SIZE " + Decimal(size) + " BYTES"
  }

  /** One file identity: a positive size, device and inode, and two times. */
  function FileIdentity(py: Python, m: Record): (r: Got<()>)
  {
    var _ :- PositiveInt(py, m, SIZE, false);
    var _ :- PositiveInt(py, m, DEVICE, false);
    var _ :- PositiveInt(py, m, INODE, false);
    var _ :- PositiveInt(py, m, MODIFIED_NS, true);
    var _ :- PositiveInt(py, m, CHANGED_NS, true);
    Value(())
  }

  predicate TrustStarts(py: Python, p: Record) {
    && Is(p, EXECUTION_ATTEMPTED, false) && py.isUtcTime(Text(py, Get(p, EVALUATION_TIME)))
    && Path(py, Get(p, SOURCE_PATH), false).Value? && Sha(py, Get(p, TRUST_ACTIVATION_SHA256)).Value?
    && Path(py, Get(p, TRUST_STORE_ROOT), false).Value? && Text(py, Get(p, TRUST_GENERATION)) != ""
  }

  predicate TrustStates(py: Python, p: Record) {
    && Sha(py, Get(p, TRUST_BUNDLE_SHA256)).Value? && Path(py, Get(p, TRUST_METADATA_POLICY_PATH), false).Value?
    && Path(py, Get(p, PUBLISHER_POLICY_PATH), false).Value? && Sha(py, Get(p, REVIEW_BINDING_SHA256)).Value?
    && Sha(py, Get(p, DESCRIPTOR_PLAN_SHA256)).Value?
  }

  /** The texts and digests in front of the file identities, and the sequence. */
  function ReadTrust(py: Python, p: Record): (r: Got<Header>)
    ensures r.Value? ==> r.value.descriptor == Text(py, Get(p, DESCRIPTOR_PLAN_SHA256))
  {
    var _ :- Need(TrustStarts(py, p));
    var trustSequence :- PositiveInt(py, p, TRUST_SEQUENCE, false);
    var _ :- Need(TrustStates(py, p));
    Value(Header(Text(py, Get(p, SOURCE_PATH)), Text(py, Get(p, TRUST_STORE_ROOT)), Text(py, Get(p, TRUST_GENERATION)),
                 trustSequence, Text(py, Get(p, TRUST_BUNDLE_SHA256)), Text(py, Get(p, TRUST_METADATA_POLICY_PATH)),
                 Text(py, Get(p, PUBLISHER_POLICY_PATH)), Text(py, Get(p, REVIEW_BINDING_SHA256)),
                 Text(py, Get(p, DESCRIPTOR_PLAN_SHA256)), 0))
  }

  /** The three file identities; the result is the size of the source. */
  function ReadIdentities(py: Python, p: Record): (r: Got<int>)
    ensures r.Value? ==> r.value == IntValue(py, PlanOf(p, SOURCE_IDENTITY), SIZE) > 0
  {
    var source :- Mapping(Get(p, SOURCE_IDENTITY));
    var sourceSize :- PositiveInt(py, source, SIZE, false);
    var metadata :- Mapping(Get(p, TRUST_METADATA_POLICY_IDENTITY));
    var publisher :- Mapping(Get(p, PUBLISHER_POLICY_IDENTITY));
    var _ :- FileIdentity(py, source);
    var _ :- FileIdentity(py, metadata);
    var _ :- FileIdentity(py, publisher);
    Value(sourceSize)
  }

  function ReadHeader(py: Python, p: Record): (r: Got<Header>)
    ensures r.Value? ==>
      && r.value.descriptor == Text(py, Get(p, DESCRIPTOR_PLAN_SHA256))
      && r.value.sourceSize == IntValue(py, PlanOf(p, SOURCE_IDENTITY), SIZE) > 0
  {
    var header :- ReadTrust(py, p);
    var sourceSize :- ReadIdentities(py, p);
    Value(header.(sourceSize := sourceSize))
  }

  const TARGET_MODE := "ffu-restore"
  const FULL_MODE := "ffu-full-flash-restore"
  const PREFLIGHT_MODE := "ffu-full-flash-target-preflight"

  predicate Envelope(m: Record, mode: string) {
    PyEq(Get(m, SCHEMA), Int(1)) && Get(m, MODE) == Str(mode)
  }

  /** The flags a record must state. */
  predicate Flagged(m: Record, on: set<Key>, off: set<Key>) {
    (forall key :: key in on ==> Is(m, key, true)) && (forall key :: key in off ==> Is(m, key, false))
  }

  const TARGET_ON: set<Key> := {DESTRUCTIVE, SOURCE_INTEGRITY_AUTHENTICATED, TARGET_IDENTITY_BOUND,
    TARGET_GEOMETRY_BOUND, DESTINATION_MAP_RESOLVED, CONFIRMATION_REQUIRED}
  const TARGET_OFF: set<Key> := {DESTINATION_OVERLAP, VALIDATION_CHECKS_REQUIRED, VALIDATION_CHECKS_RESOLVED,
    EXECUTION_SUPPORTED}
  const FULL_ON: set<Key> := {DESTRUCTIVE, FULL_FLASH_UPDATE_CONFIRMED, VALIDATION_DESCRIPTORS_ABSENT,
    VALIDATION_CHECKS_RESOLVED, CONFIRMATION_REQUIRED}
  const FULL_OFF: set<Key> := {EXECUTION_SUPPORTED}
  const PREFLIGHT_ON: set<Key> := {DESTRUCTIVE, TARGET_DISCOVERY_COMPLETED, WHOLE_DISK_CONFIRMED,
    NORMAL_REMOVABLE_TARGET_CONFIRMED, RUNNING_SYSTEM_DISK_EXCLUDED, PROTECTED_MOUNTS_EXCLUDED,
    TARGET_IDENTITY_REVALIDATED, TARGET_CAPACITY_REVALIDATED, TARGET_GEOMETRY_REVALIDATED, PRIVILEGED_OPEN_REQUIRED}
  const PREFLIGHT_OFF: set<Key> := {FIXED_DISK_OVERRIDE_ALLOWED, EXECUTION_SUPPORTED}

  predicate TargetStates(py: Python, target: Record, descriptor: string) {
    && Sha(py, Get(target, PLAN_SHA256)).Value? && Sha(py, Get(target, AUTHENTICATED_INTEGRITY_PLAN_SHA256)).Value?
    && States(py, target, DESCRIPTOR_PLAN_SHA256, descriptor)
  }

  /** The target plan fixes the geometry. */
  function ReadTarget(py: Python, target: Record, sourceSize: int, descriptor: string): (r: Got<Geometry>)
    ensures r.Value? ==>
      && r.value.path == Text(py, Get(target, DEVICE_PATH)) && r.value.size > 0
      && r.value == GeometryOf(py, target) && Sha(py, Get(target, PLAN_SHA256)).Value?
  {
    var path :- Path(py, Get(target, DEVICE_PATH), true);
    var identity :- Sha(py, Get(target, EXPECTED_TARGET_IDENTITY));
    var size :- PositiveInt(py, target, TARGET_SIZE_BYTES, false);
    var logical :- PositiveInt(py, target, LOGICAL_SECTOR_SIZE_BYTES, false);
    var physical :- PositiveInt(py, target, PHYSICAL_SECTOR_SIZE_BYTES, false);
    var mutation :- PositiveInt(py, target, MUTATION_BYTES, false);
    var _ :- Need(mutation <= size && physical >= logical && physical % logical == 0);
    var fileSize :- PositiveInt(py, target, SOURCE_FILE_SIZE, false);
    var _ :- Need(fileSize == sourceSize);
    var descriptors :- PositiveInt(py, target, VALIDATION_DESCRIPTOR_COUNT, true);
    var _ :- Need(descriptors == 0);
    var _ :- Need(TargetStates(py, target, descriptor));
    Value(Geometry(path, identity, size, logical, physical, mutation))
  }

  /** The number a field holds, once it has been accepted. */
  function IntValue(py: Python, m: Record, key: Key): int {
    var r := PositiveInt(py, m, key, true);
    if r.Value? then r.value else 0
  }

  /** The geometry a record states. */
  function GeometryOf(py: Python, m: Record): Geometry {
    Geometry(Text(py, Get(m, DEVICE_PATH)), Text(py, Get(m, EXPECTED_TARGET_IDENTITY)),
        IntValue(py, m, TARGET_SIZE_BYTES),
             IntValue(py, m, LOGICAL_SECTOR_SIZE_BYTES), IntValue(py, m, PHYSICAL_SECTOR_SIZE_BYTES),
             IntValue(py, m, MUTATION_BYTES))
  }

  /** The other plans repeat it field by field. */
  function SameGeometry(py: Python, m: Record, g: Geometry): (r: Got<()>)
    ensures r.Value? ==> GeometryOf(py, m) == g
  {
    var path :- Path(py, Get(m, DEVICE_PATH), true);
    var _ :- Need(path == g.path);
    var identity :- Sha(py, Get(m, EXPECTED_TARGET_IDENTITY));
    var _ :- Need(identity == g.identity);
    var size :- PositiveInt(py, m, TARGET_SIZE_BYTES, false);
    var _ :- Need(size == g.size);
    var logical :- PositiveInt(py, m, LOGICAL_SECTOR_SIZE_BYTES, false);
    var _ :- Need(logical == g.logical);
    var physical :- PositiveInt(py, m, PHYSICAL_SECTOR_SIZE_BYTES, false);
    var _ :- Need(physical == g.physical);
    var mutation :- PositiveInt(py, m, MUTATION_BYTES, false);
    var _ :- Need(mutation == g.mutation);
    Value(())
  }

  /** The record states this digest. */
  predicate States(py: Python, m: Record, key: Key, sha: string) {
    Sha(py, Get(m, key)) == Value(sha)
  }

  predicate FullStates(py: Python, target: Record, full: Record, descriptor: string) {
    && States(py, full, RESTORE_TARGET_PLAN_SHA256, Text(py, Get(target, PLAN_SHA256)))
    && Sha(py, Get(full, PLAN_SHA256)).Value? && States(py, full, DESCRIPTOR_PLAN_SHA256, descriptor)
    && States(py, full, AUTHENTICATED_INTEGRITY_PLAN_SHA256, Text(py, Get(target, AUTHENTICATED_INTEGRITY_PLAN_SHA256)))
  }

  function FullLinks(py: Python, target: Record, full: Record, descriptor: string): (r: Got<()>)
    ensures r.Value? ==> States(py, full, RESTORE_TARGET_PLAN_SHA256, Text(py, Get(target, PLAN_SHA256)))
  {
    var _ :- Need(FullStates(py, target, full, descriptor));
    var kind :- PositiveInt(py, full, STORE_UPDATE_TYPE, true);
    var _ :- Need(kind == 0);
    var count :- PositiveInt(py, full, VALIDATION_DESCRIPTOR_COUNT, true);
    var _ :- Need(count == 0);
    Value(())
  }

  predicate PreflightStates(py: Python, target: Record, full: Record, preflight: Record, identity: string) {
    && States(py, preflight, RESTORE_TARGET_PLAN_SHA256, Text(py, Get(target, PLAN_SHA256)))
    && States(py, preflight, FULL_FLASH_VALIDATION_PLAN_SHA256, Text(py, Get(full, PLAN_SHA256)))
    && States(py, preflight, AUTHENTICATED_INTEGRITY_SHA256, Text(py, Get(target, AUTHENTICATED_INTEGRITY_PLAN_SHA256)))
    && States(py, preflight, REDISCOVERED_TARGET_IDENTITY, identity) && Sha(py, Get(preflight, PLAN_SHA256)).Value?
  }

  function PreflightLinks(py: Python, target: Record, full: Record, preflight: Record, identity: string): (r: Got<()>)
    ensures r.Value? ==>
      && States(py, preflight, RESTORE_TARGET_PLAN_SHA256, Text(py, Get(target, PLAN_SHA256)))
      && States(py, preflight, FULL_FLASH_VALIDATION_PLAN_SHA256, Text(py, Get(full, PLAN_SHA256)))
  {
    var _ :- Need(PreflightStates(py, target, full, preflight, identity));
    var _ :- PositiveInt(py, preflight, KERNEL_DEVICE_ID, false);
    Need(Text(py, Get(preflight, MAJOR_MINOR)) != "")
  }

  function ReadMounts(py: Python, items: seq<Json>): (r: Got<seq<Mount>>)
    ensures r.Value? ==> |r.value| == |items|
    ensures !r.Escaped?
  {
    if items == [] then Value([])
    else
      var item :- Mapping(items[0]);
      var device :- Path(py, Get(item, DEVICE_PATH), true);
      var mountpoint :- Path(py, Get(item, MOUNTPOINT), false);
      var rest :- ReadMounts(py, items[1..]);
      Value([Mount(device, mountpoint)] + rest)
  }

  /** The mount list and the flag that must mirror it. */
  function Mounts(py: Python, preflight: Record): (r: Got<seq<Mount>>)
    ensures r.Value? ==> Is(preflight, UNMOUNT_REQUIRED, r.value != [])
    ensures !r.Escaped?
  {
    var mounted := Get(preflight, MOUNTED_TARGETS);
    var _ :- Need(mounted.List?);
    var mounts :- ReadMounts(py, mounted.items);
    var _ :- Need(Is(preflight, UNMOUNT_REQUIRED, mounts != []));
    Value(mounts)
  }

  /** `str(payload.get("exact_confirmation_phrase") or "")`, unstripped. */
  function RawText(py: Python, a: Json): string {
    if !Truthy(a) then "" else if a.Str? then a.s else py.repr(a)
  }

  /** The three plans of a response. */
  function PlanOf(p: Record, key: Key): Record {
    var a := Get(p, key);
    if a.Obj? then a.members else map[]
  }

  /** What an accepted review says about its plans. */
  ghost predicate Reviewed(py: Python, p: Record, r: NormalReview) {
    var target, full, preflight := PlanOf(p, TARGET_PLAN), PlanOf(p, FULL_FLASH_PLAN), PlanOf(p, TARGET_PREFLIGHT);
    && GeometryOf(py, target)
       == Geometry(r.targetPath, r.targetIdentity, r.targetSize, r.logical, r.physical, r.mutation)
    && GeometryOf(py, full) == GeometryOf(py, target) && GeometryOf(py, preflight) == GeometryOf(py, target)
    && Sha(py, Get(full, RESTORE_TARGET_PLAN_SHA256)) == Sha(py, Get(target, PLAN_SHA256))
    && Sha(py, Get(preflight, RESTORE_TARGET_PLAN_SHA256)) == Sha(py, Get(target, PLAN_SHA256))
    && Sha(py, Get(preflight, FULL_FLASH_VALIDATION_PLAN_SHA256)) == Sha(py, Get(full, PLAN_SHA256))
    && r.targetSize > 0 && r.phrase == PhraseFor(r.targetPath, r.targetSize)
    && Get(full, CONFIRMATION_PHRASE) == Str(r.phrase)
    && (r.unmountRequired <==> r.mounts != [])
  }

  datatype Plans = Plans(geometry: Geometry, mounts: seq<Mount>)

  /** The three plans bind the same target and link to each other. */
  function LinkPlans(py: Python, target: Record, full: Record, preflight: Record, sourceSize: int,
          descriptor: string): (r: Got<Plans>)
    ensures r.Value? ==>
      && GeometryOf(py, target) == GeometryOf(py, full) == GeometryOf(py, preflight) == r.value.geometry
      && r.value.geometry.size > 0
      && Sha(py, Get(full, RESTORE_TARGET_PLAN_SHA256)) == Sha(py, Get(target, PLAN_SHA256))
      && Sha(py, Get(preflight, RESTORE_TARGET_PLAN_SHA256)) == Sha(py, Get(target, PLAN_SHA256))
      && Sha(py, Get(preflight, FULL_FLASH_VALIDATION_PLAN_SHA256)) == Sha(py, Get(full, PLAN_SHA256))
      && Is(preflight, UNMOUNT_REQUIRED, r.value.mounts != [])
  {
    var g :- ReadTarget(py, target, sourceSize, descriptor);
    var _ :- SameGeometry(py, full, g);
    var _ :- SameGeometry(py, preflight, g);
    var _ :- FullLinks(py, target, full, descriptor);
    var _ :- PreflightLinks(py, target, full, preflight, g.identity);
    var mounts :- Mounts(py, preflight);
    Value(Plans(g, mounts))
  }

  /** Three records of the right kinds, each with its flags. */
  predicate Shaped(p: Record) {
    var target, full, preflight := PlanOf(p, TARGET_PLAN), PlanOf(p, FULL_FLASH_PLAN), PlanOf(p, TARGET_PREFLIGHT);
    && Get(p, TARGET_PLAN).Obj? && Get(p, FULL_FLASH_PLAN).Obj? && Get(p, TARGET_PREFLIGHT).Obj?
    && Envelope(target, TARGET_MODE) && Envelope(full, FULL_MODE)
    && Envelope(preflight, PREFLIGHT_MODE) && Flagged(target, TARGET_ON, TARGET_OFF)
    && Flagged(full, FULL_ON, FULL_OFF) && Flagged(preflight, PREFLIGHT_ON, PREFLIGHT_OFF)
  }

  /** The three plans of a response. */
  function ReadPlans(py: Python, p: Record, sourceSize: int, descriptor: string): (r: Got<Plans>)
    ensures r.Value? ==>
      var target, full, preflight := PlanOf(p, TARGET_PLAN), PlanOf(p, FULL_FLASH_PLAN), PlanOf(p, TARGET_PREFLIGHT);
      && GeometryOf(py, target) == GeometryOf(py, full) == GeometryOf(py, preflight) == r.value.geometry
      && r.value.geometry.size > 0
      && Sha(py, Get(full, RESTORE_TARGET_PLAN_SHA256)) == Sha(py, Get(target, PLAN_SHA256))
      && Sha(py, Get(preflight, RESTORE_TARGET_PLAN_SHA256)) == Sha(py, Get(target, PLAN_SHA256))
      && Sha(py, Get(preflight, FULL_FLASH_VALIDATION_PLAN_SHA256)) == Sha(py, Get(full, PLAN_SHA256))
      && Is(preflight, UNMOUNT_REQUIRED, r.value.mounts != [])
  {
    var _ :- Need(Shaped(p));
    LinkPlans(py, PlanOf(p, TARGET_PLAN), PlanOf(p, FULL_FLASH_PLAN), PlanOf(p, TARGET_PREFLIGHT), sourceSize,
        descriptor)
  }

  function NormalizeReview(py: Python, payload: Json): (r: Got<NormalReview>)
    ensures r.Value? ==> payload.Obj? && Reviewed(py, payload.members, r.value)
  {
    var p :- Mapping(payload);
    var header :- ReadHeader(py, p);
    var plans :- ReadPlans(py, p, header.sourceSize, header.descriptor);
    var g, mounts := plans.geometry, plans.mounts;
    var phrase := RawText(py, Get(p, EXACT_CONFIRMATION_PHRASE));
    var _ :- Need(phrase == PhraseFor(g.path, g.size)
        && Get(PlanOf(p, FULL_FLASH_PLAN), CONFIRMATION_PHRASE) == Str(phrase));
    Value(NormalReview(header.trustStoreRoot, header.trustGeneration, header.trustSequence, header.trustBundle,
                 header.metadataPolicy, header.publisherPolicy, header.binding, header.sourcePath, header.sourceSize,
                 header.descriptor, g.path, g.identity, g.size, g.logical, g.physical, g.mutation, mounts,
                 mounts != [], phrase))
  }

  // ------------------------------------------------- what acceptance needs

  /** The version and kind of a record. */
  predicate IsKind(m: Record, mode: string) {
    PyEq(Get(m, SCHEMA), Int(1)) && Get(m, MODE) == Str(mode)
  }

  lemma EnvelopeIsKind(m: Record, mode: string)
    ensures Envelope(m, mode) <==> IsKind(m, mode)
  {
  }

  /** A review is accepted only if its plans are of version 1 and of their kinds,
      the source was authenticated, the whole drive is a removable one that was
      seen again as planned, neither the running system nor a protected mount is on
      it, and nothing claims that it was already executed or could be. */
  lemma AcceptedReviewIsGuarded(py: Python, payload: Json)
    requires NormalizeReview(py, payload).Value?
    ensures var p := payload.members;
            var target, full, preflight :=
              PlanOf(p, TARGET_PLAN), PlanOf(p, FULL_FLASH_PLAN), PlanOf(p, TARGET_PREFLIGHT);
      && Get(p, EXECUTION_ATTEMPTED) == Bool(false)
      && IsKind(target, "ffu-restore") && IsKind(full, "ffu-full-flash-restore")
      && IsKind(preflight, "ffu-full-flash-target-preflight")
      && Get(target, SOURCE_INTEGRITY_AUTHENTICATED) == Get(target, TARGET_IDENTITY_BOUND) == Bool(true)
      && Get(target, DESTINATION_OVERLAP) == Get(target, EXECUTION_SUPPORTED) == Bool(false)
      && Get(full, FULL_FLASH_UPDATE_CONFIRMED) == Bool(true) && Get(full, EXECUTION_SUPPORTED) == Bool(false)
      && Get(preflight, WHOLE_DISK_CONFIRMED) == Get(preflight, NORMAL_REMOVABLE_TARGET_CONFIRMED) == Bool(true)
      && Get(preflight, RUNNING_SYSTEM_DISK_EXCLUDED) == Get(preflight, PROTECTED_MOUNTS_EXCLUDED) == Bool(true)
      && Get(preflight, TARGET_IDENTITY_REVALIDATED) == Get(preflight, TARGET_CAPACITY_REVALIDATED) == Bool(true)
      && Get(preflight, FIXED_DISK_OVERRIDE_ALLOWED) == Get(preflight, EXECUTION_SUPPORTED) == Bool(false)
  {
    var p := payload.members;
    assert Get(p, EXECUTION_ATTEMPTED) == Bool(false) && Shaped(p);
    ShapedIsGuarded(PlanOf(p, TARGET_PLAN), PlanOf(p, FULL_FLASH_PLAN), PlanOf(p, TARGET_PREFLIGHT));
  }

  lemma ShapedIsGuarded(target: Record, full: Record, preflight: Record)
    requires Flagged(target, TARGET_ON, TARGET_OFF) && Flagged(full, FULL_ON, FULL_OFF)
    requires Flagged(preflight, PREFLIGHT_ON, PREFLIGHT_OFF)
    ensures Get(target, SOURCE_INTEGRITY_AUTHENTICATED) == Get(target, TARGET_IDENTITY_BOUND) == Bool(true)
    ensures Get(target, DESTINATION_OVERLAP) == Get(target, EXECUTION_SUPPORTED) == Bool(false)
    ensures Get(full, FULL_FLASH_UPDATE_CONFIRMED) == Bool(true) && Get(full, EXECUTION_SUPPORTED) == Bool(false)
    ensures Get(preflight, WHOLE_DISK_CONFIRMED) == Get(preflight, NORMAL_REMOVABLE_TARGET_CONFIRMED) == Bool(true)
    ensures Get(preflight, RUNNING_SYSTEM_DISK_EXCLUDED) == Get(preflight, PROTECTED_MOUNTS_EXCLUDED) == Bool(true)
    ensures Get(preflight, TARGET_IDENTITY_REVALIDATED) == Get(preflight, TARGET_CAPACITY_REVALIDATED) == Bool(true)
    ensures Get(preflight, FIXED_DISK_OVERRIDE_ALLOWED) == Get(preflight, EXECUTION_SUPPORTED) == Bool(false)
  {
    assert Is(target, SOURCE_INTEGRITY_AUTHENTICATED, true) && Is(target, TARGET_IDENTITY_BOUND, true);
    assert Is(target, DESTINATION_OVERLAP, false) && Is(target, EXECUTION_SUPPORTED, false);
    assert Is(full, FULL_FLASH_UPDATE_CONFIRMED, true) && Is(full, EXECUTION_SUPPORTED, false);
    assert Is(preflight, WHOLE_DISK_CONFIRMED, true) && Is(preflight, NORMAL_REMOVABLE_TARGET_CONFIRMED, true);
    assert Is(preflight, RUNNING_SYSTEM_DISK_EXCLUDED, true) && Is(preflight, PROTECTED_MOUNTS_EXCLUDED, true);
    assert Is(preflight, TARGET_IDENTITY_REVALIDATED, true) && Is(preflight, TARGET_CAPACITY_REVALIDATED, true);
    assert Is(preflight, FIXED_DISK_OVERRIDE_ALLOWED, false) && Is(preflight, EXECUTION_SUPPORTED, false);
  }
}
