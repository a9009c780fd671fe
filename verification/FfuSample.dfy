/** A complete restore response for each outcome: the evidence contract of
    FfuRestore can be met, and sealed. One table of fields, varied by the kind of
    the record, serves all records, since validators ignore what they do not
    read. */
module FfuSample {
  import opened Base
  import opened PythonJson
  import opened FfuKeys
  import opened FfuReview
  import opened FfuRestore
  import FfuBinding

  const DISK := "/dev/sda"
  const FILE := "/f"

  function Phrase(): string {
    PhraseFor(DISK, 8)
  }

  /** The records of a response, and the record of its other fields. Only the
      execution depends on the outcome. */
  datatype Kind =
    Target | FullFlash | Preflight | Lease | Session | Confirmed | Authorizing | Executing(outcome: Outcome) | Bare

  /** The digest each kind of record states for itself; that of `Bare` also stands
      for all other digests and identities. */
  type Digests = Kind -> string

  /** An interpreter that takes the sample's paths and time, and whose digest of
      the phrase is the one stated. */
  ghost predicate Friendly(py: Python, own: Digests) {
    && py.isNormalPath(DISK) && py.isNormalPath(FILE) && py.isUtcTime("t")
    && (forall kind: Kind :: IsDigest(own(kind))) && py.sha256(Phrase()) == own(Bare)
  }

  // -------------------------------------------------------------- the fields

  function ModeOf(kind: Kind): string {
    match kind
    case Target => TARGET_MODE
    case FullFlash => FULL_MODE
    case Preflight => PREFLIGHT_MODE
    case Lease => LEASE_MODE
    case Session => SESSION_MODE
    case Confirmed => CONFIRMATION_MODE
    case Authorizing => AUTHORIZATION_MODE
    case Executing(_) => EXECUTION_MODE
    case Bare => ""
  }

  /** The flags a kind states as true; all others are false. */
  function On(kind: Kind): set<Key> {
    match kind
    case Target => TARGET_ON
    case FullFlash => FULL_ON
    case Preflight => PREFLIGHT_ON
    case Lease => LEASE_ON
    case Session => SESSION_ON
    case Confirmed => CONFIRMATION_ON
    case Authorizing => AUTHORIZATION_ON
    case Executing(Verified) => VERIFIED_ON
    case Executing(Unchanged) => {ERROR_OBSERVED}
    case Executing(PartiallyModified) => {ERROR_OBSERVED, MUTATION_STARTED, TARGET_MAY_BE_PARTIALLY_MODIFIED}
    case Executing(WrittenUnverified) =>
      {ERROR_OBSERVED, MUTATION_STARTED, TARGET_MAY_BE_PARTIALLY_MODIFIED, WRITE_COMPLETED, SYNC_COMPLETED}
    case Bare => {}
  }

  function Linked(own: Digests, key: Key): string {
    if key < RESTORE_TARGET_PLAN_SHA256 || key > MUTATION_AUTHORIZATION_SHA256 then own(Bare)
    else if key == RESTORE_TARGET_PLAN_SHA256 then own(Target)
    else if key == FULL_FLASH_VALIDATION_PLAN_SHA256 then own(FullFlash)
    else if key == FULL_FLASH_TARGET_PREFLIGHT_SHA256 then own(Preflight)
    else if key == SOURCE_LEASE_EVIDENCE_SHA256 then own(Lease)
    else if key == TARGET_SESSION_EVIDENCE_SHA256 then own(Session)
    else if key == CONFIRMATION_EVIDENCE_SHA256 then own(Confirmed)
    else own(Authorizing)
  }

  function Written(outcome: Outcome): int {
    match outcome
    case Verified => 2
    case Unchanged => 0
    case PartiallyModified => 1
    case WrittenUnverified => 2
  }

  function Completed(outcome: Outcome): int {
    if outcome == Verified || outcome == WrittenUnverified then 1 else 0
  }

  function Counted(kind: Kind, key: Key): int {
    if key <= OBSERVED_KERNEL_DEVICE_ID then 1
    else if key == TARGET_SIZE_BYTES then 8
    else if key <= MUTATION_BYTES_PLANNED then 2
    else if key <= SIZE then 4
    else if key <= STORE_UPDATE_TYPE || !kind.Executing? then 0
    else if key == OPERATION_COUNT_COMPLETED then Completed(kind.outcome)
    else Written(kind.outcome)
  }

  function StatusOf(outcome: Outcome): string {
    match outcome
    case Verified => "verified"
    case Unchanged => "not-started"
    case PartiallyModified => "partially-modified"
    case WrittenUnverified => "written-unverified"
  }

  function Worded(kind: Kind, key: Key): Json {
    if key >= MAJOR_MINOR then Str(FILE)
    else if key <= EXPECTED_CONFIRMATION_PHRASE then Str(Phrase())
    else if key <= TARGET_DEVICE_PATH then Str(DISK)
    else if key == MODE then Str(ModeOf(kind))
    else if key == EVALUATION_TIME then Str("t")
    else if key == MOUNTED_TARGETS then List([])
    else if key == STATUS && kind.Executing? then Str(StatusOf(kind.outcome))
    else Str(if kind == Executing(Verified) then "" else FILE)
  }

  function Field(own: Digests, kind: Kind, key: Key): Json {
    if key == PLAN_SHA256 then Str(own(kind))
    else if key <= REDISCOVERED_TARGET_IDENTITY then Str(Linked(own, key))
    else if key <= ERROR_OBSERVED then Bool(key in On(kind))
    else if key <= MUTATION_BYTES_WRITTEN then Int(Counted(kind, key))
    else Worded(kind, key)
  }

  /** The record of a kind. */
  function Part(own: Digests, kind: Kind): Record {
    map key: Key | 0 <= key < EXECUTION_ATTEMPTED :: Field(own, kind, key)
  }

  /** What the validators read of it: flags, */
  ghost predicate FlagsSet(kind: Kind, m: Record) {
    forall key: Key :: REDISCOVERED_TARGET_IDENTITY < key <= ERROR_OBSERVED ==> Get(m, key) == Bool(key in On(kind))
  }

  /** the digests that link records, */
  ghost predicate LinksSet(own: Digests, kind: Kind, m: Record) {
    && Get(m, PLAN_SHA256) == Str(own(kind)) && Get(m, RESTORE_TARGET_PLAN_SHA256) == Str(own(Target))
    && Get(m, FULL_FLASH_VALIDATION_PLAN_SHA256) == Str(own(FullFlash))
    && Get(m, FULL_FLASH_TARGET_PREFLIGHT_SHA256) == Str(own(Preflight))
    && Get(m, SOURCE_LEASE_EVIDENCE_SHA256) == Str(own(Lease))
    && Get(m, TARGET_SESSION_EVIDENCE_SHA256) == Str(own(Session))
    && Get(m, CONFIRMATION_EVIDENCE_SHA256) == Str(own(Confirmed))
    && Get(m, MUTATION_AUTHORIZATION_SHA256) == Str(own(Authorizing))
  }

  /** the other digests, */
  ghost predicate PlainSet(own: Digests, m: Record) {
    && Get(m, AUTHENTICATED_INTEGRITY_PLAN_SHA256) == Get(m, AUTHENTICATED_INTEGRITY_SHA256)
       == Get(m, DESCRIPTOR_PLAN_SHA256) == Str(own(Bare))
    && Get(m, CATALOG_SHA256) == Get(m, HASH_TABLE_SHA256) == Get(m, CONFIRMATION_PHRASE_SHA256)
       == Get(m, WRITE_ORDER_PLAN_SHA256) == Str(own(Bare))
    && Get(m, RESULT_SHA256) == Get(m, TRUST_ACTIVATION_SHA256) == Get(m, TRUST_BUNDLE_SHA256)
       == Get(m, REVIEW_BINDING_SHA256) == Str(own(Bare))
    && Get(m, EXPECTED_TARGET_IDENTITY) == Get(m, REDISCOVERED_TARGET_IDENTITY) == Str(own(Bare))
  }

  /** numbers */
  ghost predicate NumbersSet(m: Record) {
    && Get(m, SCHEMA) == Get(m, LOGICAL_SECTOR_SIZE_BYTES) == Get(m, PHYSICAL_SECTOR_SIZE_BYTES)
       == Get(m, TRUST_SEQUENCE) == Int(1)
    && Get(m, DEVICE) == Get(m, INODE) == Get(m, MODIFIED_NS) == Get(m, CHANGED_NS) == Get(m, KERNEL_DEVICE_ID)
       == Int(1)
    && Get(m, EXPECTED_KERNEL_DEVICE_ID) == Get(m, OBSERVED_KERNEL_DEVICE_ID) == Get(m, OPERATION_COUNT)
       == Get(m, OPERATION_COUNT_PLANNED) == Int(1)
    && Get(m, TARGET_SIZE_BYTES) == Int(8) && Get(m, MUTATION_BYTES) == Get(m, MUTATION_BYTES_PLANNED) == Int(2)
    && Get(m, SOURCE_FILE_SIZE) == Get(m, SIZE) == Int(4)
    && Get(m, STORE_UPDATE_TYPE) == Get(m, VALIDATION_DESCRIPTOR_COUNT) == Int(0)
  }

  /** and texts. */
  ghost predicate TextsSet(m: Record) {
    && Get(m, DEVICE_PATH) == Get(m, TARGET_DEVICE_PATH) == Str(DISK)
    && Get(m, CONFIRMATION_PHRASE) == Get(m, EXACT_CONFIRMATION_PHRASE) == Get(m, EXPECTED_CONFIRMATION_PHRASE)
       == Str(Phrase())
    && Get(m, MOUNTED_TARGETS) == List([]) && Get(m, EVALUATION_TIME) == Str("t")
    && Get(m, MAJOR_MINOR) == Get(m, SOURCE_PATH) == Str(FILE)
    && Get(m, TRUST_STORE_ROOT) == Get(m, TRUST_GENERATION) == Get(m, TRUST_METADATA_POLICY_PATH)
       == Get(m, PUBLISHER_POLICY_PATH) == Str(FILE)
  }

  /** A record that holds the fields of its kind. */
  ghost predicate Filled(own: Digests, kind: Kind, m: Record) {
    FlagsSet(kind, m) && LinksSet(own, kind, m) && PlainSet(own, m) && NumbersSet(m) && TextsSet(m)
        && Get(m, MODE) == Str(ModeOf(kind))
  }

  ghost predicate Tabled(own: Digests, kind: Kind, m: Record) {
    forall key: Key :: 0 <= key < EXECUTION_ATTEMPTED ==> Get(m, key) == Field(own, kind, key)
  }

  lemma PartIsTabled(own: Digests, kind: Kind)
    ensures Tabled(own, kind, Part(own, kind))
  {
  }

  lemma LinksAreSet(own: Digests, kind: Kind, m: Record)
    requires Tabled(own, kind, m)
    ensures FlagsSet(kind, m) && LinksSet(own, kind, m) && PlainSet(own, m) && Get(m, MODE) == Str(ModeOf(kind))
  {
  }

  lemma NumbersAreSet(own: Digests, kind: Kind, m: Record)
    requires Tabled(own, kind, m)
    ensures NumbersSet(m)
  {
  }

  lemma TextsAreSet(own: Digests, kind: Kind, m: Record)
    requires Tabled(own, kind, m)
    ensures TextsSet(m)
  {
  }

  /** The table is read once. */
  lemma PartIsFilled(own: Digests, kind: Kind)
    ensures Filled(own, kind, Part(own, kind))
  {
    var m := Part(own, kind);
    assert FlagsSet(kind, m) && LinksSet(own, kind, m) && PlainSet(own, m) && Get(m, MODE) == Str(ModeOf(kind)) by {
      PartIsTabled(own, kind);
      LinksAreSet(own, kind, m);
    }
    assert NumbersSet(m) by {
      PartIsTabled(own, kind);
      NumbersAreSet(own, kind, m);
    }
    assert TextsSet(m) by {
      PartIsTabled(own, kind);
      TextsAreSet(own, kind, m);
    }
  }

  lemma FilledFrame(own: Digests, kind: Kind, base: Record, m: Record)
    requires Filled(own, kind, base) && forall key: Key :: 0 <= key < EXECUTION_ATTEMPTED ==>
        Get(m, key) == Get(base, key)
    ensures Filled(own, kind, m)
  {
  }

  lemma FilledExtended(own: Digests, kind: Kind, base: Record, key: Key, value: Json)
    requires Filled(own, kind, base) && key >= EXECUTION_ATTEMPTED
    ensures Filled(own, kind, base[key := value])
  {
    forall k: Key | 0 <= k < EXECUTION_ATTEMPTED ensures Get(base[key := value], k) == Get(base, k) { }
    FilledFrame(own, kind, base, base[key := value]);
  }

  // ------------------------------------------------------ reading the fields

  /** The texts of a record read as themselves. */
  ghost predicate Reads(py: Python, own: Digests) {
    && (forall kind: Kind :: Sha(py, Str(own(kind))) == Value(own(kind)) && Text(py, Str(own(kind))) == own(kind))
    && Text(py, Str(DISK)) == DISK && Text(py, Str(FILE)) == FILE && Text(py, Str("t")) == "t"
    && Path(py, Str(DISK), true) == Value(DISK) && Path(py, Str(FILE), false) == Value(FILE)
    && py.isUtcTime("t") && py.sha256(Phrase()) == own(Bare)
  }

  lemma FriendlyReads(py: Python, own: Digests)
    requires Friendly(py, own)
    ensures Reads(py, own)
  {
    forall kind: Kind ensures Sha(py, Str(own(kind))) == Value(own(kind)) && Text(py, Str(own(kind))) == own(kind) {
      DigestReads(py, own(kind));
    }
    UnspacedStays(DISK);
    UnspacedStays(FILE);
    UnspacedStays("t");
  }

  lemma DigestReads(py: Python, sha: string)
    requires IsDigest(sha)
    ensures Sha(py, Str(sha)) == Value(sha)
  {
    assert sha[0] in sha && sha[|sha| - 1] in sha;
    UnspacedStays(sha);
  }

  /** The mode and the flags a validator asks for are those of the kind. */
  ghost predicate Fits(kind: Kind, mode: string, on: set<Key>, off: set<Key>) {
    && mode == ModeOf(kind) && on == On(kind) && off !! on
    && forall key :: key in on + off ==> REDISCOVERED_TARGET_IDENTITY < key <= ERROR_OBSERVED
  }

  lemma PlansFit()
    ensures Fits(Target, TARGET_MODE, TARGET_ON, TARGET_OFF) && Fits(FullFlash, FULL_MODE, FULL_ON, FULL_OFF)
    ensures Fits(Preflight, PREFLIGHT_MODE, PREFLIGHT_ON, PREFLIGHT_OFF)
  {
  }

  lemma RecordsFit()
    ensures Fits(Lease, LEASE_MODE, LEASE_ON, LEASE_OFF) && Fits(Session, SESSION_MODE, SESSION_ON, SESSION_OFF)
    ensures Fits(Confirmed, CONFIRMATION_MODE, CONFIRMATION_ON, CONFIRMATION_OFF)
    ensures Fits(Authorizing, AUTHORIZATION_MODE, AUTHORIZATION_ON, AUTHORIZATION_OFF)
  {
  }

  lemma ExecutionFits(outcome: Outcome)
    ensures ModeOf(Executing(outcome)) == EXECUTION_MODE
    ensures VERIFIED_ON == On(Executing(Verified)) && forall key :: key in VERIFIED_ON + VERIFIED_OFF ==>
        REDISCOVERED_TARGET_IDENTITY < key <= ERROR_OBSERVED
  {
  }

  lemma Attests(kind: Kind, m: Record, mode: string, on: set<Key>, off: set<Key>)
    requires FlagsSet(kind, m) && Get(m, SCHEMA) == Int(1) && Get(m, MODE) == Str(ModeOf(kind))
    requires Fits(kind, mode, on, off)
    ensures Envelope(m, mode) && Flagged(m, on, off)
  {
    forall key | key in on ensures Is(m, key, true) { assert key in on + off; }
    forall key | key in off ensures Is(m, key, false) { assert key in on + off; }
  }

  // -------------------------------------------------------------- the review

  function Sizes(own: Digests): Geometry {
    Geometry(DISK, own(Bare), 8, 1, 1, 2)
  }

  lemma SizesRead(py: Python, own: Digests, m: Record)
    requires Reads(py, own) && PlainSet(own, m) && NumbersSet(m) && TextsSet(m)
    ensures SameGeometry(py, m, Sizes(own)) == Value(())
  {
  }

  lemma TargetRead(py: Python, own: Digests, m: Record)
    requires Reads(py, own) && LinksSet(own, Target, m) && PlainSet(own, m) && NumbersSet(m) && TextsSet(m)
    ensures ReadTarget(py, m, 4, own(Bare)) == Value(Sizes(own))
  {
    SizesAreRead(py, m);
    TargetPlainRead(py, own, m);
    assert ReadTarget(py, m, 4, own(Bare)).Value?;
  }

  lemma TargetPlainRead(py: Python, own: Digests, m: Record)
    requires Reads(py, own) && LinksSet(own, Target, m) && PlainSet(own, m)
    ensures Sha(py, Get(m, EXPECTED_TARGET_IDENTITY)) == Value(own(Bare)) && TargetStates(py, m, own(Bare))
  {
  }

  lemma SizesAreRead(py: Python, m: Record)
    requires NumbersSet(m)
    ensures PositiveInt(py, m, TARGET_SIZE_BYTES, false) == Value(8)
    ensures PositiveInt(py, m, LOGICAL_SECTOR_SIZE_BYTES, false) == Value(1)
    ensures PositiveInt(py, m, PHYSICAL_SECTOR_SIZE_BYTES, false) == Value(1)
    ensures PositiveInt(py, m, MUTATION_BYTES, false) == Value(2)
    ensures PositiveInt(py, m, SOURCE_FILE_SIZE, false) == Value(4)
    ensures PositiveInt(py, m, VALIDATION_DESCRIPTOR_COUNT, true) == Value(0)
  {
  }

  lemma FullRead(py: Python, own: Digests, target: Record, m: Record)
    requires Reads(py, own) && LinksSet(own, Target, target) && PlainSet(own, target)
    requires LinksSet(own, FullFlash, m) && PlainSet(own, m) && NumbersSet(m)
    ensures FullLinks(py, target, m, own(Bare)) == Value(())
  {
  }

  lemma PreflightRead(py: Python, own: Digests, target: Record, full: Record, m: Record)
    requires Reads(py, own) && LinksSet(own, Target, target) && PlainSet(own, target) && LinksSet(own, FullFlash, full)
    requires LinksSet(own, Preflight, m) && PlainSet(own, m) && NumbersSet(m) && Get(m, MAJOR_MINOR) == Str(FILE)
    ensures PreflightLinks(py, target, full, m, own(Bare)) == Value(())
  {
  }

  lemma NoMounts(py: Python, m: Record)
    requires FlagsSet(Preflight, m) && TextsSet(m)
    ensures Mounts(py, m) == Value([])
  {
  }

  lemma PlansLinked(py: Python, own: Digests, target: Record, full: Record, preflight: Record)
    requires Reads(py, own) && Filled(own, Target, target) && Filled(own, FullFlash, full)
    requires Filled(own, Preflight, preflight)
    ensures LinkPlans(py, target, full, preflight, 4, own(Bare)) == Value(Plans(Sizes(own), []))
  {
    TargetRead(py, own, target);
    SizesRead(py, own, full);
    SizesRead(py, own, preflight);
    FullRead(py, own, target, full);
    PreflightRead(py, own, target, full, preflight);
    NoMounts(py, preflight);
    PlansJoined(py, own, target, full, preflight);
  }

  lemma PlansJoined(py: Python, own: Digests, target: Record, full: Record, preflight: Record)
    requires ReadTarget(py, target, 4, own(Bare)) == Value(Sizes(own))
    requires SameGeometry(py, full, Sizes(own)) == Value(())
    requires SameGeometry(py, preflight, Sizes(own)) == Value(()) && FullLinks(py, target, full, own(Bare)) == Value(())
    requires PreflightLinks(py, target, full, preflight, own(Bare)) == Value(()) && Mounts(py, preflight) == Value([])
    ensures LinkPlans(py, target, full, preflight, 4, own(Bare)) == Value(Plans(Sizes(own), []))
  {
  }

  /** What a review nests. */
  ghost predicate Nests(own: Digests, p: Record) {
    && Get(p, TARGET_PLAN) == Obj(Part(own, Target)) && Get(p, FULL_FLASH_PLAN) == Obj(Part(own, FullFlash))
    && Get(p, TARGET_PREFLIGHT) == Obj(Part(own, Preflight)) && Get(p, SOURCE_IDENTITY) == Obj(Part(own, Bare))
    && Get(p, TRUST_METADATA_POLICY_IDENTITY) == Get(p, PUBLISHER_POLICY_IDENTITY) == Obj(Part(own, Bare))
  }

  lemma PlansShaped(own: Digests, p: Record, target: Record, full: Record, preflight: Record)
    requires Get(p, TARGET_PLAN) == Obj(target) && Get(p, FULL_FLASH_PLAN) == Obj(full)
    requires Get(p, TARGET_PREFLIGHT) == Obj(preflight)
    requires Filled(own, Target, target) && Filled(own, FullFlash, full) && Filled(own, Preflight, preflight)
    ensures Shaped(p)
  {
    PlansFit();
    Attests(Target, target, TARGET_MODE, TARGET_ON, TARGET_OFF);
    Attests(FullFlash, full, FULL_MODE, FULL_ON, FULL_OFF);
    Attests(Preflight, preflight, PREFLIGHT_MODE, PREFLIGHT_ON, PREFLIGHT_OFF);
  }

  lemma TrustRead(py: Python, own: Digests, p: Record)
    requires Reads(py, own) && PlainSet(own, p) && NumbersSet(p) && TextsSet(p) && Is(p, EXECUTION_ATTEMPTED, false)
    ensures ReadTrust(py, p) == Value(Header(FILE, FILE, FILE, 1, own(Bare), FILE, FILE, own(Bare), own(Bare), 0))
  {
  }

  lemma IdentitiesRead(py: Python, own: Digests, p: Record, identity: Record)
    requires Get(p, SOURCE_IDENTITY) == Get(p, TRUST_METADATA_POLICY_IDENTITY) == Get(p, PUBLISHER_POLICY_IDENTITY)
        == Obj(identity)
    requires NumbersSet(identity)
    ensures ReadIdentities(py, p) == Value(4)
  {
  }

  function ReviewFor(own: Digests): NormalReview {
    NormalReview(FILE, FILE, 1, own(Bare), FILE, FILE, own(Bare), FILE, 4, own(Bare), DISK, own(Bare), 8, 1, 1, 2, [],
        false, Phrase())
  }

  lemma ReviewRead(py: Python, own: Digests, p: Record)
    requires Reads(py, own) && Filled(own, Bare, p) && Is(p, EXECUTION_ATTEMPTED, false) && Nests(own, p)
    ensures NormalizeReview(py, Obj(p)) == Value(ReviewFor(own))
  {
    PartIsFilled(own, Bare);
    PartIsFilled(own, Target);
    PartIsFilled(own, FullFlash);
    PartIsFilled(own, Preflight);
    TrustRead(py, own, p);
    IdentitiesRead(py, own, p, Part(own, Bare));
    PlansShaped(own, p, Part(own, Target), Part(own, FullFlash), Part(own, Preflight));
    PlansLinked(py, own, Part(own, Target), Part(own, FullFlash), Part(own, Preflight));
    PhraseIsText(py);
    ReviewJoined(py, own, p, Part(own, FullFlash));
  }

  lemma ReviewJoined(py: Python, own: Digests, p: Record, full: Record)
    requires ReadTrust(py, p) == Value(Header(FILE, FILE, FILE, 1, own(Bare), FILE, FILE, own(Bare), own(Bare), 0))
    requires ReadIdentities(py, p) == Value(4) && ReadPlans(py, p, 4, own(Bare)) == Value(Plans(Sizes(own), []))
    requires RawText(py, Get(p, EXACT_CONFIRMATION_PHRASE)) == Phrase()
    requires Get(full, CONFIRMATION_PHRASE) == Str(Phrase())
    requires Get(p, FULL_FLASH_PLAN) == Obj(full)
    ensures NormalizeReview(py, Obj(p)) == Value(ReviewFor(own))
  {
  }

  lemma PhraseIsText(py: Python)
    ensures RawText(py, Str(Phrase())) == Phrase()
  {
    assert Phrase()[0] == 'R';
  }

  // ------------------------------------------------------------ the evidence

  function LinksFor(own: Digests): Links {
    Links(own(Target), own(FullFlash), own(Preflight), own(Bare), own(Bare))
  }

  function AuthorizedFor(own: Digests): Authorized {
    Authorized(own(Authorizing), own(Bare), 1)
  }

  /** What every record behind the review links and repeats. */
  ghost predicate Repeats(py: Python, own: Digests, kind: Kind, m: Record) {
    CommonLinks(py, m, LinksFor(own)) && Sha(py, Get(m, PLAN_SHA256)) == Value(own(kind))
        && SameMutation(m, ReviewFor(own))
  }

  lemma FilledRepeats(py: Python, own: Digests, kind: Kind, m: Record)
    requires Reads(py, own) && LinksSet(own, kind, m) && PlainSet(own, m) && NumbersSet(m) && TextsSet(m)
    ensures Repeats(py, own, kind, m)
  {
    assert CommonLinks(py, m, LinksFor(own));
  }

  lemma LeaseAccepted(py: Python, own: Digests, p: Record, m: Record)
    requires Repeats(py, own, Lease, m) && Envelope(m, LEASE_MODE) && Flagged(m, LEASE_ON, LEASE_OFF)
    requires Get(m, SOURCE_IDENTITY) == Get(p, SOURCE_IDENTITY) && Get(m, SOURCE_FILE_SIZE) == Int(4)
    requires Get(m, TARGET_DEVICE_PATH) == Str(DISK)
    ensures SourceLeaseSha(py, p, ReviewFor(own), LinksFor(own), Obj(m)) == Value(own(Lease))
  {
    EqualsItself(Get(m, SOURCE_IDENTITY));
  }

  lemma LeaseOfSample(py: Python, own: Digests, p: Record, m: Record)
    requires Reads(py, own) && Filled(own, Lease, m) && Get(m, SOURCE_IDENTITY) == Get(p, SOURCE_IDENTITY)
    ensures SourceLeaseSha(py, p, ReviewFor(own), LinksFor(own), Obj(m)) == Value(own(Lease))
  {
    FilledRepeats(py, own, Lease, m);
    RecordsFit();
    Attests(Lease, m, LEASE_MODE, LEASE_ON, LEASE_OFF);
    LeaseAccepted(py, own, p, m);
  }

  lemma SessionIsTarget(own: Digests, preflight: Record, m: Record)
    requires PlainSet(own, m) && NumbersSet(m) && TextsSet(m)
    requires Get(preflight, KERNEL_DEVICE_ID) == Int(1) && Get(preflight, MAJOR_MINOR) == Str(FILE)
    ensures SessionTarget(m, preflight, ReviewFor(own))
  {
  }

  lemma SessionOfSample(py: Python, own: Digests, preflight: Record, m: Record)
    requires Reads(py, own) && Filled(own, Preflight, preflight) && Filled(own, Session, m)
    ensures TargetSessionSha(py, preflight, ReviewFor(own), LinksFor(own), own(Lease), Obj(m)) == Value(own(Session))
  {
    FilledRepeats(py, own, Session, m);
    SessionIsTarget(own, preflight, m);
    RecordsFit();
    Attests(Session, m, SESSION_MODE, SESSION_ON, SESSION_OFF);
  }

  lemma ConfirmationLinked(py: Python, own: Digests, m: Record)
    requires Reads(py, own) && LinksSet(own, Confirmed, m) && PlainSet(own, m)
    ensures States(py, m, SOURCE_LEASE_EVIDENCE_SHA256, own(Lease))
    ensures States(py, m, TARGET_SESSION_EVIDENCE_SHA256, own(Session))
    ensures States(py, m, CONFIRMATION_PHRASE_SHA256, py.sha256(Phrase()))
  {
  }

  lemma ConfirmationOfSample(py: Python, own: Digests, m: Record)
    requires Reads(py, own) && Filled(own, Confirmed, m)
    ensures ConfirmationSha(py, ReviewFor(own), LinksFor(own), own(Lease), own(Session), Obj(m))
        == Value(own(Confirmed))
  {
    FilledRepeats(py, own, Confirmed, m);
    ConfirmationLinked(py, own, m);
    RecordsFit();
    Attests(Confirmed, m, CONFIRMATION_MODE, CONFIRMATION_ON, CONFIRMATION_OFF);
  }

  lemma AuthorizationLinked(py: Python, own: Digests, target: Record, m: Record)
    requires Reads(py, own) && LinksSet(own, Authorizing, m) && PlainSet(own, m) && PlainSet(own, target)
    ensures AuthorizationLinks(py, target, m, LinksFor(own), own(Lease), own(Session), own(Confirmed))
    ensures Text(py, Get(m, WRITE_ORDER_PLAN_SHA256)) == own(Bare)
  {
  }

  lemma AuthorizationOfSample(py: Python, own: Digests, target: Record, m: Record)
    requires Reads(py, own) && PlainSet(own, target) && Filled(own, Authorizing, m)
    ensures ReadAuthorization(py, target, ReviewFor(own), LinksFor(own), own(Lease), own(Session), own(Confirmed),
        Obj(m)) == Value(AuthorizedFor(own))
  {
    FilledRepeats(py, own, Authorizing, m);
    AuthorizationLinked(py, own, target, m);
    RecordsFit();
    Attests(Authorizing, m, AUTHORIZATION_MODE, AUTHORIZATION_ON, AUTHORIZATION_OFF);
  }

  // ----------------------------------------------------------- the execution

  /** What the execution of an outcome states besides. */
  ghost predicate OutcomeSet(outcome: Outcome, m: Record) {
    && Get(m, STATUS) == Str(StatusOf(outcome)) && Get(m, ERROR_STAGE) == Str(if outcome == Verified then "" else FILE)
    && Get(m, OPERATION_COUNT_COMPLETED) == Int(Completed(outcome))
    && Get(m, MUTATION_BYTES_WRITTEN) == Int(Written(outcome))
  }

  lemma ExecutionSays(outcome: Outcome, m: Record)
    requires FlagsSet(Executing(outcome), m) && OutcomeSet(outcome, m)
    ensures Says(m, outcome, Written(outcome), 2, Completed(outcome), 1) && CancellationCoherent(m)
  {
  }

  lemma ExecutionJudged(py: Python, own: Digests, outcome: Outcome, m: Record)
    requires Reads(py, own) && OutcomeSet(outcome, m) && Get(m, RESULT_SHA256) == Str(own(Bare))
    requires Says(m, outcome, Written(outcome), 2, Completed(outcome), 1) && CancellationCoherent(m)
    ensures Verdict(py, m, 2, 1) == Value(Executed(outcome, Written(outcome), Completed(outcome)))
  {
  }

  lemma ExecutionRepeats(py: Python, own: Digests, kind: Kind, m: Record)
    requires Reads(py, own) && LinksSet(own, kind, m) && PlainSet(own, m) && NumbersSet(m) && TextsSet(m)
    ensures ExecutionLinked(py, m, LinksFor(own), own(Lease), own(Session), own(Confirmed), AuthorizedFor(own))
    ensures ExecutionFields(m, ReviewFor(own), 1)
  {
  }

  lemma ExecutionOfSample(py: Python, own: Digests, outcome: Outcome, m: Record)
    requires Reads(py, own) && Filled(own, Executing(outcome), m) && OutcomeSet(outcome, m)
    ensures ReadExecution(py, ReviewFor(own), LinksFor(own), own(Lease), own(Session), own(Confirmed),
        AuthorizedFor(own), Obj(m))
         == Value(Executed(outcome, Written(outcome), Completed(outcome)))
  {
    ExecutionRepeats(py, own, Executing(outcome), m);
    ExecutionSays(outcome, m);
    ExecutionJudged(py, own, outcome, m);
    ExecutionFits(outcome);
  }

  // ------------------------------------------------------------ the response

  /** A record with what a review nests. */
  function WithPlans(base: Record, identity: Json, target: Json, full: Json, preflight: Json): Record {
    base + map[
      EXECUTION_ATTEMPTED := Bool(true), SOURCE_IDENTITY := identity, TRUST_METADATA_POLICY_IDENTITY := identity,
      PUBLISHER_POLICY_IDENTITY := identity, TARGET_PLAN := target, FULL_FLASH_PLAN := full, TARGET_PREFLIGHT :=
      preflight]
  }

  function ReviewPart(own: Digests): Record {
    WithPlans(Part(own, Bare), Obj(Part(own, Bare)), Obj(Part(own, Target)), Obj(Part(own, FullFlash)),
        Obj(Part(own, Preflight)))
  }

  function LeasePart(own: Digests): Record {
    Part(own, Lease)[SOURCE_IDENTITY := Obj(Part(own, Bare))]
  }

  function Response(review: Json, lease: Json, session: Json, confirmed: Json, authorizing: Json,
          executing: Json): Record {
    map[REVIEW := review, SOURCE_LEASE := lease, TARGET_SESSION := session, CONFIRMATION := confirmed,
        MUTATION_AUTHORIZATION := authorizing, EXECUTION := executing]
  }

  function Sample(own: Digests, outcome: Outcome): Json {
    Obj(Response(Obj(ReviewPart(own)), Obj(LeasePart(own)), Obj(Part(own, Session)), Obj(Part(own, Confirmed)),
                 Obj(Part(own, Authorizing)), Obj(Part(own, Executing(outcome)))))
  }

  lemma PlansNested(base: Record, identity: Json, target: Json, full: Json, preflight: Json)
    ensures var p := WithPlans(base, identity, target, full, preflight);
            && Get(p, TARGET_PLAN) == target && Get(p, FULL_FLASH_PLAN) == full && Get(p, TARGET_PREFLIGHT) == preflight
            && Get(p, SOURCE_IDENTITY) == Get(p, TRUST_METADATA_POLICY_IDENTITY) == Get(p, PUBLISHER_POLICY_IDENTITY)
               == identity
            && Is(p, EXECUTION_ATTEMPTED, true) && forall key: Key :: 0 <= key < EXECUTION_ATTEMPTED ==>
               Get(p, key) == Get(base, key)
  {
  }

  lemma ReviewNests(own: Digests)
    ensures Nests(own, ReviewPart(own)) && Filled(own, Bare, ReviewPart(own))
    ensures Is(ReviewPart(own), EXECUTION_ATTEMPTED, true)
  {
    PartIsFilled(own, Bare);
    PlansNested(Part(own, Bare), Obj(Part(own, Bare)), Obj(Part(own, Target)), Obj(Part(own, FullFlash)),
            Obj(Part(own, Preflight)));
    FilledFrame(own, Bare, Part(own, Bare), ReviewPart(own));
  }

  lemma ReviewBefore(own: Digests, p: Record)
    requires Nests(own, p) && Filled(own, Bare, p)
    ensures var before := p[EXECUTION_ATTEMPTED := Bool(false)];
            Nests(own, before) && Filled(own, Bare, before) && Is(before, EXECUTION_ATTEMPTED, false)
  {
    FilledExtended(own, Bare, p, EXECUTION_ATTEMPTED, Bool(false));
  }

  /** The sample's review is not nested too deeply to be copied. */
  ghost predicate Copies(py: Python, own: Digests) {
    Within(Obj(ReviewPart(own)), py.copyLimit(Reproducing))
  }

  lemma HalfAccepted(py: Python, own: Digests)
    requires Reads(py, own) && Copies(py, own)
    ensures ReproducedOf(py, Obj(ReviewPart(own)), None)
        == Value(Reproduced(ReviewPart(own), ReviewFor(own), LinksFor(own)))
  {
    ReviewNests(own);
    ReviewBefore(own, ReviewPart(own));
    ReviewRead(py, own, ReviewPart(own)[EXECUTION_ATTEMPTED := Bool(false)]);
    LinksRead(py, own, Part(own, Target), Part(own, FullFlash), Part(own, Preflight));
    HalfJoined(py, own, ReviewPart(own));
  }

  lemma LinksRead(py: Python, own: Digests, target: Record, full: Record, preflight: Record)
    requires Reads(py, own) && target == Part(own, Target) && full == Part(own, FullFlash)
    requires preflight == Part(own, Preflight)
    ensures ReadLinks(py, ReviewFor(own), target, full, preflight) == Value(LinksFor(own))
  {
    PartIsFilled(own, Target);
    PartIsFilled(own, FullFlash);
    PartIsFilled(own, Preflight);
  }

  lemma HalfJoined(py: Python, own: Digests, p: Record)
    requires Is(p, EXECUTION_ATTEMPTED, true) && Within(Obj(p), py.copyLimit(Reproducing))
    requires NormalizeReview(py, Obj(p[EXECUTION_ATTEMPTED := Bool(false)])) == Value(ReviewFor(own))
    requires ReadLinks(py, ReviewFor(own), PlanOf(p, TARGET_PLAN), PlanOf(p, FULL_FLASH_PLAN),
        PlanOf(p, TARGET_PREFLIGHT)) == Value(LinksFor(own))
    ensures ReproducedOf(py, Obj(p), None) == Value(Reproduced(p, ReviewFor(own), LinksFor(own)))
  {
    assert ReproducedReview(py, p) == Value(ReviewFor(own));
  }

  lemma LeaseIsFilled(own: Digests)
    ensures Filled(own, Lease, LeasePart(own)) && Get(LeasePart(own), SOURCE_IDENTITY) == Obj(Part(own, Bare))
  {
    PartIsFilled(own, Lease);
    FilledExtended(own, Lease, Part(own, Lease), SOURCE_IDENTITY, Obj(Part(own, Bare)));
  }

  function ResultFor(own: Digests, outcome: Outcome): Restore {
    Restore(outcome, DISK, own(Bare), 8, 2, Written(outcome), 1, Completed(outcome), own(Bare))
  }

  lemma EvidenceJoined(py: Python, own: Digests, top: Record, p: Record, target: Record, preflight: Record)
    requires SourceLeaseSha(py, p, ReviewFor(own), LinksFor(own), Get(top, SOURCE_LEASE)) == Value(own(Lease))
    requires TargetSessionSha(py, preflight, ReviewFor(own), LinksFor(own), own(Lease), Get(top, TARGET_SESSION))
        == Value(own(Session))
    requires ConfirmationSha(py, ReviewFor(own), LinksFor(own), own(Lease), own(Session), Get(top, CONFIRMATION))
        == Value(own(Confirmed))
    requires ReadAuthorization(py, target, ReviewFor(own), LinksFor(own), own(Lease), own(Session), own(Confirmed),
        Get(top, MUTATION_AUTHORIZATION))
          == Value(AuthorizedFor(own))
    ensures ReadEvidence(py, top, p, ReviewFor(own), LinksFor(own), target, preflight)
         == Value(Evidence(own(Lease), own(Session), own(Confirmed), AuthorizedFor(own)))
  {
  }

  lemma ResponseJoined(py: Python, own: Digests, outcome: Outcome, top: Record, p: Record)
    requires ReadReproduced(py, top, None) == Value(Reproduced(p, ReviewFor(own), LinksFor(own)))
    requires ReadEvidence(py, top, p, ReviewFor(own), LinksFor(own), PlanOf(p, TARGET_PLAN),
        PlanOf(p, TARGET_PREFLIGHT))
          == Value(Evidence(own(Lease), own(Session), own(Confirmed), AuthorizedFor(own)))
    requires ReadExecution(py, ReviewFor(own), LinksFor(own), own(Lease), own(Session), own(Confirmed),
        AuthorizedFor(own), Get(top, EXECUTION))
          == Value(Executed(outcome, Written(outcome), Completed(outcome)))
    ensures NormalizeRestore(py, Obj(top), None) == Value(ResultFor(own, outcome))
  {
    assert AfterReview(py, top, Reproduced(p, ReviewFor(own), LinksFor(own))) == Value(ResultFor(own, outcome));
  }

  lemma RecordsAccepted(py: Python, own: Digests, outcome: Outcome, top: Record, p: Record, target: Record,
          preflight: Record, lease: Record,
                        session: Record, confirmed: Record, authorizing: Record, executing: Record)
    requires Reads(py, own) && PlanOf(p, TARGET_PLAN) == target && PlanOf(p, TARGET_PREFLIGHT) == preflight
    requires ReproducedOf(py, Get(top, REVIEW), None) == Value(Reproduced(p, ReviewFor(own), LinksFor(own)))
    requires Get(top, SOURCE_LEASE) == Obj(lease) && Get(top, TARGET_SESSION) == Obj(session)
    requires Get(top, CONFIRMATION) == Obj(confirmed)
    requires Get(top, MUTATION_AUTHORIZATION) == Obj(authorizing) && Get(top, EXECUTION) == Obj(executing)
    requires Filled(own, Target, target) && Filled(own, Preflight, preflight) && Filled(own, Lease, lease)
    requires Filled(own, Session, session)
    requires Filled(own, Confirmed, confirmed) && Filled(own, Authorizing, authorizing)
    requires Filled(own, Executing(outcome), executing)
    requires OutcomeSet(outcome, executing) && Get(lease, SOURCE_IDENTITY) == Get(p, SOURCE_IDENTITY)
    ensures NormalizeRestore(py, Obj(top), None) == Value(ResultFor(own, outcome))
  {
    LeaseOfSample(py, own, p, lease);
    SessionOfSample(py, own, preflight, session);
    ConfirmationOfSample(py, own, confirmed);
    AuthorizationOfSample(py, own, target, authorizing);
    ExecutionOfSample(py, own, outcome, executing);
    EvidenceJoined(py, own, top, p, target, preflight);
    ResponseJoined(py, own, outcome, top, p);
  }

  lemma Members6(review: Json, lease: Json, session: Json, confirmed: Json, authorizing: Json, executing: Json)
    ensures var top := Response(review, lease, session, confirmed, authorizing, executing);
            && Get(top, REVIEW) == review && Get(top, SOURCE_LEASE) == lease && Get(top, TARGET_SESSION) == session
            && Get(top, CONFIRMATION) == confirmed && Get(top, MUTATION_AUTHORIZATION) == authorizing
            && Get(top, EXECUTION) == executing
  {
  }

  lemma TopMembers(own: Digests, outcome: Outcome)
    ensures var top := Sample(own, outcome).members;
            && Get(top, REVIEW) == Obj(ReviewPart(own)) && Get(top, SOURCE_LEASE) == Obj(LeasePart(own))
            && Get(top, TARGET_SESSION) == Obj(Part(own, Session))
            && Get(top, CONFIRMATION) == Obj(Part(own, Confirmed))
            && Get(top, MUTATION_AUTHORIZATION) == Obj(Part(own, Authorizing))
            && Get(top, EXECUTION) == Obj(Part(own, Executing(outcome)))
  {
    Members6(Obj(ReviewPart(own)), Obj(LeasePart(own)), Obj(Part(own, Session)), Obj(Part(own, Confirmed)),
             Obj(Part(own, Authorizing)), Obj(Part(own, Executing(outcome))));
  }

  lemma OutcomeIsSet(own: Digests, outcome: Outcome, m: Record)
    requires Tabled(own, Executing(outcome), m)
    ensures OutcomeSet(outcome, m)
  {
  }

  lemma SampleAccepted(py: Python, own: Digests, outcome: Outcome)
    requires Friendly(py, own) && Copies(py, own)
    ensures NormalizeRestore(py, Sample(own, outcome), None) == Value(ResultFor(own, outcome))
  {
    FriendlyReads(py, own);
    HalfAccepted(py, own);
    ReviewNests(own);
    LeaseIsFilled(own);
    TopMembers(own, outcome);
    PartIsFilled(own, Target);
    PartIsFilled(own, Preflight);
    PartIsFilled(own, Session);
    PartIsFilled(own, Confirmed);
    PartIsFilled(own, Authorizing);
    PartIsFilled(own, Executing(outcome));
    PartIsTabled(own, Executing(outcome));
    OutcomeIsSet(own, outcome, Part(own, Executing(outcome)));
    RecordsAccepted(py, own, outcome, Sample(own, outcome).members, ReviewPart(own), Part(own, Target),
        Part(own, Preflight), LeasePart(own),
                    Part(own, Session), Part(own, Confirmed), Part(own, Authorizing), Part(own, Executing(outcome)));
  }

  /** For each of the four outcomes there is a response that is accepted with it:
      fully verified, untouched, one of two bytes written, or all written without
      readback; the review it reproduces may stand as the confirmed one. */
  lemma EveryOutcomeIsReachable(py: Python, own: Digests, outcome: Outcome)
    requires Friendly(py, own) && Copies(py, own)
    ensures NormalizeRestore(py, Sample(own, outcome), None) == Value(ResultFor(own, outcome))
    ensures NormalizeRestore(py, Sample(own, outcome), Some(FfuBinding.BeforeExecution(ReviewPart(own))))
        == Value(ResultFor(own, outcome))
  {
    SampleAccepted(py, own, outcome);
    TopMembers(own, outcome);
    AlsoAgainst(py, Sample(own, outcome), ReviewPart(own), ResultFor(own, outcome));
  }

  lemma AlsoAgainst(py: Python, p: Json, review: Record, r: Restore)
    requires NormalizeRestore(py, p, None) == Value(r) && ReviewRecord(p.members) == review
    ensures NormalizeRestore(py, p, Some(FfuBinding.BeforeExecution(review))) == Value(r)
  {
    FfuBinding.AcceptedAgainstItsReview(py, p);
  }

  // ---------------------------------------------------------- sealed samples

  predicate IsSealed(kind: Kind) {
    !kind.Executing? && kind != Bare
  }

  /** No two kinds of sealed record state one digest. */
  ghost predicate Distinct(own: Digests) {
    forall k: Kind, l: Kind :: IsSealed(k) && IsSealed(l) && own(k) == own(l) ==> k == l
  }

  /** A hash that tells the sealed records apart by the length of their mode. */
  function ByLength(own: Digests, length: nat): string {
    if length == 11 then own(Target)
    else if length == 22 then own(FullFlash)
    else if length == 31 then own(Preflight)
    else if length == 30 then own(Lease)
    else if length == 28 then own(Session)
    else if length == 34 then own(Confirmed)
    else own(Authorizing)
  }

  ghost function ModeHash(own: Digests): FfuBinding.Hash {
    m => ByLength(own, if Get(m, MODE).Str? then |Get(m, MODE).s| else 0)
  }

  /** The sealed record of each kind. */
  function Record7(own: Digests, kind: Kind): Record {
    if kind == Lease then LeasePart(own) else Part(own, kind)
  }

  lemma RecordIsSealed(py: Python, own: Digests, kind: Kind)
    requires Reads(py, own) && IsSealed(kind)
    ensures FfuBinding.Sealed(py, ModeHash(own), Record7(own, kind))
    ensures ModeHash(own)(FfuBinding.Body(Record7(own, kind))) == own(kind)
  {
    var m := Record7(own, kind);
    PartIsFilled(own, kind);
    LeaseIsFilled(own);
    ModeIsRead(py, own, kind, m);
  }

  lemma ModeIsRead(py: Python, own: Digests, kind: Kind, m: Record)
    requires Reads(py, own) && IsSealed(kind) && Filled(own, kind, m)
    ensures FfuBinding.Sealed(py, ModeHash(own), m) && ModeHash(own)(FfuBinding.Body(m)) == own(kind)
  {
    assert Get(FfuBinding.Body(m), MODE) == Get(m, MODE);
    LengthOfMode(kind);
  }

  lemma LengthOfMode(kind: Kind)
    requires IsSealed(kind)
    ensures |ModeOf(kind)| == match kind
      case Target => 11 case FullFlash => 22 case Preflight => 31 case Lease => 30 case Session => 28
      case Confirmed => 34 case _ => 39
  {
  }

  /** A response keeps these records. */
  ghost predicate Holds(top: Record, records: Kind -> Record) {
    var p := ReviewRecord(top);
    && RecordOf(top, MUTATION_AUTHORIZATION) == records(Authorizing)
    && RecordOf(top, CONFIRMATION) == records(Confirmed)
    && RecordOf(top, TARGET_SESSION) == records(Session) && RecordOf(top, SOURCE_LEASE) == records(Lease)
    && RecordOf(p, TARGET_PREFLIGHT) == records(Preflight) && RecordOf(p, FULL_FLASH_PLAN) == records(FullFlash)
    && RecordOf(p, TARGET_PLAN) == records(Target)
  }

  lemma SampleHolds(own: Digests, outcome: Outcome, records: Kind -> Record)
    requires forall kind :: records(kind) == Record7(own, kind)
    ensures Holds(Sample(own, outcome).members, records)
  {
    TopMembers(own, outcome);
    PlansNested(Part(own, Bare), Obj(Part(own, Bare)), Obj(Part(own, Target)), Obj(Part(own, FullFlash)),
            Obj(Part(own, Preflight)));
    assert records(Target) == Record7(own, Target) && records(FullFlash) == Record7(own, FullFlash);
    assert records(Preflight) == Record7(own, Preflight) && records(Lease) == Record7(own, Lease);
    HoldsWhere(Sample(own, outcome).members, ReviewPart(own), records);
  }

  lemma HoldsWhere(top: Record, p: Record, records: Kind -> Record)
    requires Get(top, REVIEW) == Obj(p) && Get(top, SOURCE_LEASE) == Obj(records(Lease))
    requires Get(top, TARGET_SESSION) == Obj(records(Session))
    requires Get(top, CONFIRMATION) == Obj(records(Confirmed))
    requires Get(top, MUTATION_AUTHORIZATION) == Obj(records(Authorizing))
    requires Get(p, TARGET_PLAN) == Obj(records(Target)) && Get(p, FULL_FLASH_PLAN) == Obj(records(FullFlash))
    requires Get(p, TARGET_PREFLIGHT) == Obj(records(Preflight))
    ensures Holds(top, records)
  {
  }

  lemma SealedTogether(py: Python, own: Digests, top: Record, records: Kind -> Record)
    requires Holds(top, records)
    requires forall kind :: IsSealed(kind) ==> FfuBinding.Sealed(py, ModeHash(own), records(kind))
    ensures FfuBinding.AllSealed(py, ModeHash(own), top)
  {
  }

  lemma KindOf(top: Record, records: Kind -> Record, a: Record) returns (kind: Kind)
    requires Holds(top, records) && a in FfuBinding.Digested(top)
    ensures IsSealed(kind) && a == FfuBinding.Body(records(kind))
  {
    kind := if a == FfuBinding.Body(records(Authorizing)) then Authorizing
            else if a == FfuBinding.Body(records(Confirmed)) then Confirmed
            else if a == FfuBinding.Body(records(Session)) then Session
            else if a == FfuBinding.Body(records(Lease)) then Lease
            else if a == FfuBinding.Body(records(Preflight)) then Preflight
            else if a == FfuBinding.Body(records(FullFlash)) then FullFlash
            else Target;
  }

  lemma ApartTogether(own: Digests, top: Record, other: Record, records: Kind -> Record)
    requires Holds(top, records) && Holds(other, records) && Distinct(own)
    requires forall kind :: IsSealed(kind) ==> ModeHash(own)(FfuBinding.Body(records(kind))) == own(kind)
    ensures FfuBinding.CollisionFree(ModeHash(own), FfuBinding.Digested(top) + FfuBinding.Digested(other))
  {
    var all := FfuBinding.Digested(top) + FfuBinding.Digested(other);
    forall a, b | a in all && b in all && ModeHash(own)(a) == ModeHash(own)(b) ensures a == b {
      var k := KindOf(if a in FfuBinding.Digested(top) then top else other, records, a);
      var l := KindOf(if b in FfuBinding.Digested(top) then top else other, records, b);
      assert own(k) == own(l);
    }
  }

  /** Accepted responses can be sealed without collisions, whatever their
      outcomes. */
  lemma SealedSampleExists(py: Python, own: Digests, a: Outcome, b: Outcome)
    requires Friendly(py, own) && Distinct(own)
    ensures FfuBinding.AllSealed(py, ModeHash(own), Sample(own, a).members)
    ensures FfuBinding.AllSealed(py, ModeHash(own), Sample(own, b).members)
    ensures FfuBinding.CollisionFree(ModeHash(own),
        FfuBinding.Digested(Sample(own, a).members) + FfuBinding.Digested(Sample(own, b).members))
  {
    FriendlyReads(py, own);
    var records := (kind: Kind) => Record7(own, kind);
    SampleHolds(own, a, records);
    SampleHolds(own, b, records);
    forall kind: Kind | IsSealed(kind)
      ensures FfuBinding.Sealed(py, ModeHash(own), records(kind))
      ensures ModeHash(own)(FfuBinding.Body(records(kind))) == own(kind)
    {
      RecordIsSealed(py, own, kind);
    }
    SealedTogether(py, own, Sample(own, a).members, records);
    SealedTogether(py, own, Sample(own, b).members, records);
    ApartTogether(own, Sample(own, a).members, Sample(own, b).members, records);
  }

  /** So what an authorization binds is not bound in vain: two responses with
      different outcomes name one authorization, and both are accepted, sealed and
      free of collisions. */
  lemma OneAuthorizationTwoResponses(py: Python, own: Digests, a: Outcome, b: Outcome)
    requires Friendly(py, own) && Copies(py, own) && Distinct(own) && a != b
    ensures var p, q := Sample(own, a), Sample(own, b);
            && p != q && NormalizeRestore(py, p, None).Value? && NormalizeRestore(py, q, None).Value?
            && NormalizeRestore(py, p, None).value.outcome == a && NormalizeRestore(py, q, None).value.outcome == b
            && FfuBinding.AllSealed(py, ModeHash(own), p.members) && FfuBinding.AllSealed(py, ModeHash(own), q.members)
            && FfuBinding.CollisionFree(ModeHash(own), FfuBinding.Digested(p.members) + FfuBinding.Digested(q.members))
            && Sha(py, Get(RecordOf(p.members, EXECUTION), MUTATION_AUTHORIZATION_SHA256)) == Value(own(Authorizing))
            && Sha(py, Get(RecordOf(q.members, EXECUTION), MUTATION_AUTHORIZATION_SHA256)) == Value(own(Authorizing))
  {
    SampleAccepted(py, own, a);
    SampleAccepted(py, own, b);
    SealedSampleExists(py, own, a, b);
    AuthorizationNamed(py, own, a);
    AuthorizationNamed(py, own, b);
  }

  lemma AuthorizationNamed(py: Python, own: Digests, outcome: Outcome)
    requires Friendly(py, own)
    ensures Sha(py, Get(RecordOf(Sample(own, outcome).members, EXECUTION), MUTATION_AUTHORIZATION_SHA256))
        == Value(own(Authorizing))
  {
    FriendlyReads(py, own);
    TopMembers(own, outcome);
    PartIsFilled(own, Executing(outcome));
    ExecutionRepeats(py, own, Executing(outcome), Part(own, Executing(outcome)));
  }
}
