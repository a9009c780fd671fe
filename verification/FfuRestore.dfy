/** `normalize_ffu_restore_output` of gui/rufusarm64_ffu_restore_logic.py: the
    evidence chain of a privileged restore and the verdict on the target. */
module FfuRestore {
  import opened Base
  import opened PythonJson
  import opened FfuKeys
  import opened FfuReview

  datatype Outcome = Verified | Unchanged | PartiallyModified | WrittenUnverified

  datatype Restore = Restore(
    outcome: Outcome, targetPath: string, targetIdentity: string, targetSize: int, planned: int, written: int,
    operations: int, completed: int, binding: string)

  /** The digests every later record must repeat. */
  datatype Links = Links(targetPlan: string, fullPlan: string, preflight: string, integrity: string, descriptor: string)

  const LEASE_MODE := "ffu-authenticated-source-lease"
  const SESSION_MODE := "ffu-exclusive-target-session"
  const CONFIRMATION_MODE := "ffu-exact-destructive-confirmation"
  const AUTHORIZATION_MODE := "ffu-single-phase-mutation-authorization"
  const EXECUTION_MODE := "ffu-single-phase-execution"

  function ReadEnvelope(a: Json, mode: string): (r: Got<Record>)
    ensures r.Value? ==> a == Obj(r.value)
    ensures !r.Escaped?
  {
    var m :- Mapping(a);
    var _ :- Need(Envelope(m, mode));
    Value(m)
  }

  /** `_normalize_restore_review`: the review as it was before execution. */
  function ReproducedReview(py: Python, p: Record): (r: Got<NormalReview>)
    ensures r.Value? ==> Reviewed(py, p, r.value) && Is(p, EXECUTION_ATTEMPTED, true)
  {
    var _ :- Need(Is(p, EXECUTION_ATTEMPTED, true));
    var _ :- Copied(py, Reproducing, Obj(p));
    var review :- NormalizeReview(py, Obj(p[EXECUTION_ATTEMPTED := Bool(false)]));
    assert Reviewed(py, p[EXECUTION_ATTEMPTED := Bool(false)], review);
    Value(review)
  }

  function Members(a: Json): Record {
    if a.Obj? then a.members else map[]
  }

  /** `_STABLE_REVIEW_FIELDS`. */
  predicate StableFields(a: NormalReview, b: NormalReview) {
    a.(mounts := b.mounts, unmountRequired := b.unmountRequired) == b
  }

  /** The raw members that are compared besides the normalized ones. */
  predicate RawAgrees(p: Record, q: Record) {
    && PyEq(Get(p, SOURCE_IDENTITY), Get(q, SOURCE_IDENTITY))
    && PyEq(Get(p, TRUST_METADATA_POLICY_IDENTITY), Get(q, TRUST_METADATA_POLICY_IDENTITY))
    && PyEq(Get(p, PUBLISHER_POLICY_IDENTITY), Get(q, PUBLISHER_POLICY_IDENTITY))
    && Get(p, TARGET_PREFLIGHT).Obj? && Get(q, TARGET_PREFLIGHT).Obj?
    && KernelAgrees(Get(p, TARGET_PREFLIGHT).members, Get(q, TARGET_PREFLIGHT).members)
  }

  predicate KernelAgrees(actual: Record, wanted: Record) {
    PyEq(Get(actual, KERNEL_DEVICE_ID), Get(wanted, KERNEL_DEVICE_ID))
        && PyEq(Get(actual, MAJOR_MINOR), Get(wanted, MAJOR_MINOR))
  }

  /** `_correlate_reproduced_review` against the review the user confirmed. */
  function Correlate(py: Python, p: Record, review: NormalReview, expected: Option<Json>): (r: Got<()>)
    ensures r.Value? && expected.Some? ==>
      NormalizeReview(py, expected.value).Value? && StableFields(review, NormalizeReview(py, expected.value).value)
  {
    if expected.None? then Value(())
    else
      var reviewed :- NormalizeReview(py, expected.value);
      var _ :- Need(StableFields(review, reviewed));
      Need(RawAgrees(p, Members(expected.value)))
  }

  function ReadLinks(py: Python, review: NormalReview, target: Record, full: Record, preflight: Record): (r: Got<Links>)
    ensures r.Value? ==>
      && Sha(py, Get(target, PLAN_SHA256)) == Value(r.value.targetPlan)
      && Sha(py, Get(full, PLAN_SHA256)) == Value(r.value.fullPlan)
      && Sha(py, Get(preflight, PLAN_SHA256)) == Value(r.value.preflight)
    ensures !r.Escaped?
  {
    var targetPlan :- Sha(py, Get(target, PLAN_SHA256));
    var fullPlan :- Sha(py, Get(full, PLAN_SHA256));
    var flight :- Sha(py, Get(preflight, PLAN_SHA256));
    var integrity :- Sha(py, Get(target, AUTHENTICATED_INTEGRITY_PLAN_SHA256));
    Value(Links(targetPlan, fullPlan, flight, integrity, review.descriptor))
  }

  predicate EqStr(m: Record, key: Key, s: string) {
    Get(m, key) == Str(s)
  }

  predicate EqInt(m: Record, key: Key, n: int) {
    PyEq(Get(m, key), Int(n))
  }

  /** The four links shared by lease, session and confirmation; `_required_sha`
      of each. */
  predicate CommonLinks(py: Python, m: Record, links: Links) {
    && States(py, m, FULL_FLASH_TARGET_PREFLIGHT_SHA256, links.preflight)
    && States(py, m, FULL_FLASH_VALIDATION_PLAN_SHA256, links.fullPlan)
    && States(py, m, RESTORE_TARGET_PLAN_SHA256, links.targetPlan)
    && States(py, m, AUTHENTICATED_INTEGRITY_SHA256, links.integrity)
  }

  const LEASE_ON: set<Key> := {KERNEL_READ_LEASE_REQUIRED, KERNEL_READ_LEASE_HELD, SOURCE_IDENTITY_REVALIDATED,
    FULL_FLASH_VALIDATION_REPRODUCED, TARGET_PREFLIGHT_BOUND}
  const LEASE_OFF: set<Key> := {FALLBACK_ALLOWED, TARGET_ACCESS_PERMITTED, EXECUTION_SUPPORTED}
  const SESSION_ON: set<Key> := {SOURCE_LEASE_HELD, TARGET_OPENED_READ_WRITE, KERNEL_EXCLUSIVE_OPEN, NO_FOLLOW_OPEN,
    MOUNTED_TARGETS_ABSENT, TARGET_DESCRIPTOR_VERIFIED, TARGET_POLICY_REVALIDATED, TARGET_GEOMETRY_REVALIDATED,
    SOURCE_OUTSIDE_TARGET_CONFIRMED, TARGET_ACCESS_ACQUIRED}
  const SESSION_OFF: set<Key> := {GUARDED_UNMOUNT_PERFORMED, FIXED_DISK_OVERRIDE_ALLOWED, MUTATION_PERMITTED,
    EXECUTION_SUPPORTED}
  const CONFIRMATION_ON: set<Key> := {CONFIRMATION_EXACT_MATCH, CONFIRMATION_CONSUMED, SOURCE_LEASE_HELD,
    TARGET_SESSION_HELD, TARGET_ACCESS_ACQUIRED}
  const CONFIRMATION_OFF: set<Key> := {GUARDED_UNMOUNT_PERFORMED, MUTATION_PERMITTED, EXECUTION_SUPPORTED}
  const AUTHORIZATION_ON: set<Key> := {CONFIRMATION_SATISFIED, SOURCE_LEASE_HELD, TARGET_SESSION_HELD,
    TARGET_ACCESS_ACQUIRED, SINGLE_PHASE_WRITE_ORDER_RESOLVED, ONE_SHOT_EXECUTION_REQUIRED, MUTATION_PERMITTED}
  const AUTHORIZATION_OFF: set<Key> := {STAGED_GPT_PROFILE_ALLOWED, GUARDED_UNMOUNT_PERFORMED, AUTHORIZATION_CONSUMED,
    EXECUTION_SUPPORTED}

  /** The session is open on the disk the preflight found. */
  predicate SessionTarget(m: Record, preflight: Record, review: NormalReview) {
    && EqStr(m, DEVICE_PATH, review.targetPath) && EqStr(m, EXPECTED_TARGET_IDENTITY, review.targetIdentity)
    && EqStr(m, REDISCOVERED_TARGET_IDENTITY, review.targetIdentity) && EqInt(m, TARGET_SIZE_BYTES, review.targetSize)
    && EqInt(m, LOGICAL_SECTOR_SIZE_BYTES, review.logical) && EqInt(m, PHYSICAL_SECTOR_SIZE_BYTES, review.physical)
    && PyEq(Get(m, EXPECTED_KERNEL_DEVICE_ID), Get(preflight, KERNEL_DEVICE_ID))
    && PyEq(Get(m, OBSERVED_KERNEL_DEVICE_ID), Get(preflight, KERNEL_DEVICE_ID))
    && PyEq(Get(m, MAJOR_MINOR), Get(preflight, MAJOR_MINOR)) && EqInt(m, MUTATION_BYTES, review.mutation)
  }

  /** The record is about the reviewed target and mutation. */
  predicate SameMutation(m: Record, review: NormalReview) {
    && EqStr(m, DEVICE_PATH, review.targetPath) && EqStr(m, EXPECTED_TARGET_IDENTITY, review.targetIdentity)
    && EqInt(m, TARGET_SIZE_BYTES, review.targetSize) && EqInt(m, MUTATION_BYTES, review.mutation)
  }

  function SourceLeaseSha(py: Python, p: Record, review: NormalReview, links: Links, a: Json): (r: Got<string>)
    ensures r.Value? ==> a.Obj? && Sha(py, Get(a.members, PLAN_SHA256)) == r
    ensures !r.Escaped?
  {
    var m :- ReadEnvelope(a, LEASE_MODE);
    var _ :- Need(PyEq(Get(m, SOURCE_IDENTITY), Get(p, SOURCE_IDENTITY))
        && EqInt(m, SOURCE_FILE_SIZE, review.sourceSize));
    var _ :- Need(CommonLinks(py, m, links) && EqStr(m, TARGET_DEVICE_PATH, review.targetPath)
                  && EqStr(m, EXPECTED_TARGET_IDENTITY, review.targetIdentity)
                  && EqInt(m, TARGET_SIZE_BYTES, review.targetSize)
                  && Flagged(m, LEASE_ON, LEASE_OFF));
    Sha(py, Get(m, PLAN_SHA256))
  }

  function TargetSessionSha(py: Python, preflight: Record, review: NormalReview, links: Links, source: string,
          a: Json): (r: Got<string>)
    ensures r.Value? ==> a.Obj? && Sha(py, Get(a.members, PLAN_SHA256)) == r
    ensures r.Value? ==> Sha(py, Get(a.members, SOURCE_LEASE_EVIDENCE_SHA256)) == Value(source)
    ensures !r.Escaped?
  {
    var m :- ReadEnvelope(a, SESSION_MODE);
    var _ :- Need(States(py, m, SOURCE_LEASE_EVIDENCE_SHA256, source) && CommonLinks(py, m, links)
                  && SessionTarget(m, preflight, review) && Flagged(m, SESSION_ON, SESSION_OFF));
    Sha(py, Get(m, PLAN_SHA256))
  }

  function ConfirmationSha(py: Python, review: NormalReview, links: Links, source: string, session: string,
          a: Json): (r: Got<string>)
    ensures r.Value? ==> a.Obj? && Sha(py, Get(a.members, PLAN_SHA256)) == r
    ensures r.Value? ==> Sha(py, Get(a.members, TARGET_SESSION_EVIDENCE_SHA256)) == Value(session)
    ensures !r.Escaped?
  {
    var m :- ReadEnvelope(a, CONFIRMATION_MODE);
    var _ :- Need(States(py, m, TARGET_SESSION_EVIDENCE_SHA256, session)
        && States(py, m, SOURCE_LEASE_EVIDENCE_SHA256, source)
                  && CommonLinks(py, m, links) && SameMutation(m, review)
                  && EqStr(m, EXPECTED_CONFIRMATION_PHRASE, review.phrase)
                  && States(py, m, CONFIRMATION_PHRASE_SHA256, py.sha256(review.phrase))
                  && Flagged(m, CONFIRMATION_ON, CONFIRMATION_OFF));
    Sha(py, Get(m, PLAN_SHA256))
  }

  /** Digest and operation count of the authorization. */
  datatype Authorized = Authorized(sha: string, writeOrder: string, operations: int)

  /** The digests it must state; those of catalog and hash table are the target
      plan's. */
  predicate AuthorizationLinks(py: Python, target: Record, m: Record, links: Links, source: string, session: string,
          confirmation: string) {
    && States(py, m, CONFIRMATION_EVIDENCE_SHA256, confirmation)
    && States(py, m, TARGET_SESSION_EVIDENCE_SHA256, session)
    && States(py, m, SOURCE_LEASE_EVIDENCE_SHA256, source)
    && States(py, m, FULL_FLASH_TARGET_PREFLIGHT_SHA256, links.preflight)
    && Sha(py, Get(m, WRITE_ORDER_PLAN_SHA256)).Value?
    && States(py, m, FULL_FLASH_VALIDATION_PLAN_SHA256, links.fullPlan)
    && States(py, m, RESTORE_TARGET_PLAN_SHA256, links.targetPlan)
    && States(py, m, DESCRIPTOR_PLAN_SHA256, links.descriptor)
    && States(py, m, AUTHENTICATED_INTEGRITY_SHA256, links.integrity)
    && Sha(py, Get(target, CATALOG_SHA256)).Value?
    && States(py, m, CATALOG_SHA256, Text(py, Get(target, CATALOG_SHA256)))
    && Sha(py, Get(target, HASH_TABLE_SHA256)).Value?
    && States(py, m, HASH_TABLE_SHA256, Text(py, Get(target, HASH_TABLE_SHA256)))
  }

  function ReadAuthorization(py: Python, target: Record, review: NormalReview, links: Links,
                             source: string, session: string, confirmation: string, a: Json): (r: Got<Authorized>)
    ensures r.Value? ==>
      && a.Obj? && Sha(py, Get(a.members, PLAN_SHA256)) == Value(r.value.sha)
      && Sha(py, Get(a.members, CONFIRMATION_EVIDENCE_SHA256)) == Value(confirmation)
      && Sha(py, Get(a.members, TARGET_SESSION_EVIDENCE_SHA256)) == Value(session)
      && Sha(py, Get(a.members, SOURCE_LEASE_EVIDENCE_SHA256)) == Value(source)
      && Sha(py, Get(a.members, FULL_FLASH_TARGET_PREFLIGHT_SHA256)) == Value(links.preflight)
      && Sha(py, Get(a.members, FULL_FLASH_VALIDATION_PLAN_SHA256)) == Value(links.fullPlan)
      && Sha(py, Get(a.members, RESTORE_TARGET_PLAN_SHA256)) == Value(links.targetPlan)
      && r.value.operations > 0
  {
    var m :- ReadEnvelope(a, AUTHORIZATION_MODE);
    var _ :- Need(AuthorizationLinks(py, target, m, links, source, session, confirmation));
    var operations :- PositiveInt(py, m, OPERATION_COUNT, false);
    var _ :- Need(SameMutation(m, review) && EqStr(m, CONFIRMATION_PHRASE, review.phrase)
                  && Flagged(m, AUTHORIZATION_ON, AUTHORIZATION_OFF));
    var sha :- Sha(py, Get(m, PLAN_SHA256));
    Value(Authorized(sha, Text(py, Get(m, WRITE_ORDER_PLAN_SHA256)), operations))
  }

  predicate ExecutionLinked(py: Python, m: Record, links: Links, source: string, session: string, confirmation: string,
          auth: Authorized) {
    && States(py, m, MUTATION_AUTHORIZATION_SHA256, auth.sha)
    && States(py, m, CONFIRMATION_EVIDENCE_SHA256, confirmation)
    && States(py, m, TARGET_SESSION_EVIDENCE_SHA256, session) && States(py, m, SOURCE_LEASE_EVIDENCE_SHA256, source)
    && States(py, m, WRITE_ORDER_PLAN_SHA256, auth.writeOrder)
    && States(py, m, FULL_FLASH_VALIDATION_PLAN_SHA256, links.fullPlan)
    && States(py, m, RESTORE_TARGET_PLAN_SHA256, links.targetPlan)
    && States(py, m, DESCRIPTOR_PLAN_SHA256, links.descriptor)
    && States(py, m, AUTHENTICATED_INTEGRITY_SHA256, links.integrity)
  }

  predicate ExecutionFields(m: Record, review: NormalReview, operations: int) {
    && EqStr(m, DEVICE_PATH, review.targetPath) && EqStr(m, EXPECTED_TARGET_IDENTITY, review.targetIdentity)
    && EqInt(m, TARGET_SIZE_BYTES, review.targetSize) && EqInt(m, OPERATION_COUNT_PLANNED, operations)
    && EqInt(m, MUTATION_BYTES_PLANNED, review.mutation)
  }

  const VERIFIED_ON: set<Key> := {AUTHORIZATION_CONSUMED, SOURCE_LEASE_REVALIDATED, TARGET_SESSION_REVALIDATED,
    MUTATION_STARTED, WRITE_COMPLETED, SYNC_COMPLETED, READBACK_COMPLETED, EXECUTION_SUCCEEDED}
  const VERIFIED_OFF: set<Key> := {CANCELLATION_OBSERVED, CANCELLED_BEFORE_MUTATION, CANCELLED_AFTER_MUTATION,
    TARGET_MAY_BE_PARTIALLY_MODIFIED, ERROR_OBSERVED}

  /** What each outcome asserts about the execution record. */
  predicate Says(m: Record, outcome: Outcome, written: int, planned: int, completed: int, operations: int) {
    match outcome
    case Verified =>
      && Flagged(m, VERIFIED_ON, VERIFIED_OFF)
      && Get(m, ERROR_STAGE) == Str("") && completed == operations && written == planned
    case Unchanged =>
      && Is(m, EXECUTION_SUCCEEDED, false) && Is(m, ERROR_OBSERVED, true)
      && !Is(m, MUTATION_STARTED, true) && written == 0 && !Is(m, TARGET_MAY_BE_PARTIALLY_MODIFIED, true)
      && !Is(m, CANCELLED_AFTER_MUTATION, true)
    case PartiallyModified =>
      && Is(m, EXECUTION_SUCCEEDED, false) && Is(m, ERROR_OBSERVED, true)
      && Is(m, MUTATION_STARTED, true) && written != 0 && Is(m, TARGET_MAY_BE_PARTIALLY_MODIFIED, true)
    case WrittenUnverified =>
      && Is(m, EXECUTION_SUCCEEDED, false) && Is(m, ERROR_OBSERVED, true)
      && Is(m, MUTATION_STARTED, true) && written == planned && completed == operations
      && Is(m, WRITE_COMPLETED, true) && Is(m, SYNC_COMPLETED, true) && !Is(m, READBACK_COMPLETED, true)
      && Is(m, TARGET_MAY_BE_PARTIALLY_MODIFIED, true)
  }

  function StatusOutcome(py: Python, m: Record): Got<Outcome> {
    var status := RawText(py, Get(m, STATUS));
    if status == "verified" then Value(Verified)
    else if status == "not-started" then Value(Unchanged)
    else if status == "partially-modified" then Value(PartiallyModified)
    else if status == "written-unverified" then Value(WrittenUnverified)
    else Rejected
  }

  /** Cancellation was observed in exactly one phase, or not at all. */
  predicate CancellationCoherent(m: Record) {
    if Is(m, CANCELLATION_OBSERVED, true)
        then Is(m, CANCELLED_BEFORE_MUTATION, true) != Is(m, CANCELLED_AFTER_MUTATION, true)
    else !Is(m, CANCELLED_BEFORE_MUTATION, true) && !Is(m, CANCELLED_AFTER_MUTATION, true)
  }

  datatype Executed = Executed(outcome: Outcome, written: int, completed: int)

  /** Counts within the plan, a result digest, coherent cancellation, a failure
      stage unless verified, and what the outcome asserts. */
  predicate Consistent(py: Python, m: Record, outcome: Outcome, written: int, planned: int, completed: int,
          operations: int) {
    && completed <= operations && written <= planned && Sha(py, Get(m, RESULT_SHA256)).Value? && CancellationCoherent(m)
    && (outcome == Verified || Text(py, Get(m, ERROR_STAGE)) != "")
    && Says(m, outcome, written, planned, completed, operations)
  }

  /** Status, accounting and flags of the execution record. */
  function Verdict(py: Python, m: Record, planned: int, operations: int): (r: Got<Executed>)
    ensures r.Value? ==>
      && Says(m, r.value.outcome, r.value.written, planned, r.value.completed, operations) && CancellationCoherent(m)
      && 0 <= r.value.written <= planned && 0 <= r.value.completed <= operations
  {
    var outcome :- StatusOutcome(py, m);
    var completed :- PositiveInt(py, m, OPERATION_COUNT_COMPLETED, true);
    var written :- PositiveInt(py, m, MUTATION_BYTES_WRITTEN, true);
    var _ :- Need(Consistent(py, m, outcome, written, planned, completed, operations));
    Value(Executed(outcome, written, completed))
  }

  function ReadExecution(py: Python, review: NormalReview, links: Links, source: string, session: string,
          confirmation: string,
                         auth: Authorized, a: Json): (r: Got<Executed>)
    ensures r.Value? ==>
      && a.Obj? && Sha(py, Get(a.members, MUTATION_AUTHORIZATION_SHA256)) == Value(auth.sha)
      && Verdict(py, a.members, review.mutation, auth.operations) == r
  {
    var m :- ReadEnvelope(a, EXECUTION_MODE);
    var _ :- Need(ExecutionLinked(py, m, links, source, session, confirmation, auth));
    var _ :- Need(ExecutionFields(m, review, auth.operations));
    Verdict(py, m, review.mutation, auth.operations)
  }

  /** The four records between the review and the execution. */
  datatype Evidence = Evidence(source: string, session: string, confirmation: string, auth: Authorized)

  function EvidenceOf(py: Python, lease: Json, acquired: Json, confirmed: Json, authorized: Json, p: Record,
          review: NormalReview,
                      links: Links, target: Record, preflight: Record): (r: Got<Evidence>)
    ensures r.Value? ==>
      var auth := Members(authorized);
      && Sha(py, Get(auth, PLAN_SHA256)) == Value(r.value.auth.sha) && r.value.auth.operations > 0
      && Named(py, auth, CONFIRMATION_EVIDENCE_SHA256, Members(confirmed))
      && Named(py, auth, TARGET_SESSION_EVIDENCE_SHA256, Members(acquired))
      && Named(py, auth, SOURCE_LEASE_EVIDENCE_SHA256, Members(lease))
      && Sha(py, Get(auth, FULL_FLASH_TARGET_PREFLIGHT_SHA256)) == Value(links.preflight)
      && Sha(py, Get(auth, FULL_FLASH_VALIDATION_PLAN_SHA256)) == Value(links.fullPlan)
      && Sha(py, Get(auth, RESTORE_TARGET_PLAN_SHA256)) == Value(links.targetPlan)
    ensures r.Value? ==>
      && SourceLeaseSha(py, p, review, links, lease) == Value(r.value.source)
      && TargetSessionSha(py, preflight, review, links, r.value.source, acquired) == Value(r.value.session)
      && ConfirmationSha(py, review, links, r.value.source, r.value.session, confirmed) == Value(r.value.confirmation)
      && ReadAuthorization(py, target, review, links, r.value.source, r.value.session, r.value.confirmation, authorized)
         == Value(r.value.auth)
  {
    var source :- SourceLeaseSha(py, p, review, links, lease);
    var session :- TargetSessionSha(py, preflight, review, links, source, acquired);
    var confirmation :- ConfirmationSha(py, review, links, source, session, confirmed);
    var auth :- ReadAuthorization(py, target, review, links, source, session, confirmation, authorized);
    Value(Evidence(source, session, confirmation, auth))
  }

  function ReadEvidence(py: Python, top: Record, p: Record, review: NormalReview, links: Links, target: Record,
          preflight: Record): (r: Got<Evidence>)
    ensures r.Value? ==>
      var auth := RecordOf(top, MUTATION_AUTHORIZATION);
      && Sha(py, Get(auth, PLAN_SHA256)) == Value(r.value.auth.sha) && r.value.auth.operations > 0
      && Named(py, auth, CONFIRMATION_EVIDENCE_SHA256, RecordOf(top, CONFIRMATION))
      && Named(py, auth, TARGET_SESSION_EVIDENCE_SHA256, RecordOf(top, TARGET_SESSION))
      && Named(py, auth, SOURCE_LEASE_EVIDENCE_SHA256, RecordOf(top, SOURCE_LEASE))
      && Sha(py, Get(auth, FULL_FLASH_TARGET_PREFLIGHT_SHA256)) == Value(links.preflight)
      && Sha(py, Get(auth, FULL_FLASH_VALIDATION_PLAN_SHA256)) == Value(links.fullPlan)
      && Sha(py, Get(auth, RESTORE_TARGET_PLAN_SHA256)) == Value(links.targetPlan)
  {
    EvidenceOf(py, Get(top, SOURCE_LEASE), Get(top, TARGET_SESSION), Get(top, CONFIRMATION),
        Get(top, MUTATION_AUTHORIZATION), p, review, links, target, preflight)
  }

  /** The reviewed half of a response: its review and the three plan digests. */
  datatype Reproduced = Reproduced(p: Record, review: NormalReview, links: Links)

  function CorrelatedOf(py: Python, p: Record, review: NormalReview, expected: Option<Json>): (r: Got<Reproduced>)
    ensures r.Value? ==>
      && r.value.p == p && r.value.review == review
      && Sha(py, Get(RecordOf(p, TARGET_PLAN), PLAN_SHA256)) == Value(r.value.links.targetPlan)
      && Sha(py, Get(RecordOf(p, FULL_FLASH_PLAN), PLAN_SHA256)) == Value(r.value.links.fullPlan)
      && Sha(py, Get(RecordOf(p, TARGET_PREFLIGHT), PLAN_SHA256)) == Value(r.value.links.preflight)
    ensures r.Value? && expected.Some? ==>
      NormalizeReview(py, expected.value).Value? && StableFields(review, NormalizeReview(py, expected.value).value)
  {
    var _ :- Correlate(py, p, review, expected);
    var links :- ReadLinks(py, review, RecordOf(p, TARGET_PLAN), RecordOf(p, FULL_FLASH_PLAN),
        RecordOf(p, TARGET_PREFLIGHT));
    Value(Reproduced(p, review, links))
  }

  function ReproducedOf(py: Python, a: Json, expected: Option<Json>): (r: Got<Reproduced>)
    ensures r.Value? ==>
      && r.value.p == Members(a) && Is(r.value.p, EXECUTION_ATTEMPTED, true) && Reviewed(py, r.value.p, r.value.review)
      && Sha(py, Get(RecordOf(r.value.p, TARGET_PLAN), PLAN_SHA256)) == Value(r.value.links.targetPlan)
      && Sha(py, Get(RecordOf(r.value.p, FULL_FLASH_PLAN), PLAN_SHA256)) == Value(r.value.links.fullPlan)
      && Sha(py, Get(RecordOf(r.value.p, TARGET_PREFLIGHT), PLAN_SHA256)) == Value(r.value.links.preflight)
    ensures r.Value? && expected.Some? ==>
      NormalizeReview(py, expected.value).Value?
          && StableFields(r.value.review, NormalizeReview(py, expected.value).value)
  {
    var p :- Mapping(a);
    var review :- ReproducedReview(py, p);
    CorrelatedOf(py, p, review, expected)
  }

  function ReadReproduced(py: Python, top: Record, expected: Option<Json>): (r: Got<Reproduced>)
    ensures r.Value? ==>
      && r.value.p == RecordOf(top, REVIEW) && Is(r.value.p, EXECUTION_ATTEMPTED, true)
      && Reviewed(py, r.value.p, r.value.review)
      && Sha(py, Get(RecordOf(r.value.p, TARGET_PLAN), PLAN_SHA256)) == Value(r.value.links.targetPlan)
      && Sha(py, Get(RecordOf(r.value.p, FULL_FLASH_PLAN), PLAN_SHA256)) == Value(r.value.links.fullPlan)
      && Sha(py, Get(RecordOf(r.value.p, TARGET_PREFLIGHT), PLAN_SHA256)) == Value(r.value.links.preflight)
    ensures r.Value? && expected.Some? ==>
      NormalizeReview(py, expected.value).Value?
          && StableFields(r.value.review, NormalizeReview(py, expected.value).value)
  {
    ReproducedOf(py, Get(top, REVIEW), expected)
  }

  /** The whole response, in source order. */
  function NormalizeRestore(py: Python, payload: Json, expected: Option<Json>): (r: Got<Restore>)
    ensures r.Value? ==> payload.Obj? && Chained(py, payload.members, r.value)
    ensures r.Value? && expected.Some? ==>
      && NormalizeReview(py, expected.value).Value?
      && SameTarget(r.value, NormalizeReview(py, expected.value).value)
  {
    var top :- Mapping(payload);
    var half :- ReadReproduced(py, top, expected);
    AfterReview(py, top, half)
  }

  /** The part of the response that follows the review. */
  function AfterReview(py: Python, top: Record, half: Reproduced): (r: Got<Restore>)
    requires half.p == RecordOf(top, REVIEW) && Is(half.p, EXECUTION_ATTEMPTED, true)
    requires Reviewed(py, half.p, half.review)
    requires Sha(py, Get(RecordOf(half.p, TARGET_PLAN), PLAN_SHA256)) == Value(half.links.targetPlan)
    requires Sha(py, Get(RecordOf(half.p, FULL_FLASH_PLAN), PLAN_SHA256)) == Value(half.links.fullPlan)
    requires Sha(py, Get(RecordOf(half.p, TARGET_PREFLIGHT), PLAN_SHA256)) == Value(half.links.preflight)
    ensures r.Value? ==> Chained(py, top, r.value) && SameTarget(r.value, half.review)
    ensures r.Value? ==>
      var e := ReadEvidence(py, top, half.p, half.review, half.links, RecordOf(half.p, TARGET_PLAN),
        RecordOf(half.p, TARGET_PREFLIGHT));
      e.Value? && ReadExecution(py, half.review, half.links, e.value.source, e.value.session, e.value.confirmation,
        e.value.auth, Get(top, EXECUTION)).Value?
  {
    var review := half.review;
    var evidence :- ReadEvidence(py, top, half.p, review, half.links, RecordOf(half.p, TARGET_PLAN),
        RecordOf(half.p, TARGET_PREFLIGHT));
    var done :- ReadExecution(py, review, half.links, evidence.source, evidence.session, evidence.confirmation,
        evidence.auth, Get(top, EXECUTION));
    Value(Restore(done.outcome, review.targetPath, review.targetIdentity, review.targetSize, review.mutation,
        done.written,
                  evidence.auth.operations, done.completed, review.binding))
  }

  predicate SameTarget(r: Restore, review: NormalReview) {
    && r.targetPath == review.targetPath && r.targetIdentity == review.targetIdentity
    && r.targetSize == review.targetSize
    && r.planned == review.mutation && r.binding == review.binding
  }

  function RecordOf(top: Record, key: Key): Record {
    PlanOf(top, key)
  }

  function ReviewRecord(top: Record): Record {
    RecordOf(top, REVIEW)
  }

  /** What an accepted response establishes: every record carries a digest, the
      execution names the authorization, the authorization names all others, and
      the verdict is the one its status allows. */
  ghost predicate Chained(py: Python, top: Record, r: Restore) {
    var p := ReviewRecord(top);
    var auth, execution := RecordOf(top, MUTATION_AUTHORIZATION), RecordOf(top, EXECUTION);
    && Is(p, EXECUTION_ATTEMPTED, true)
    && Sha(py, Get(execution, MUTATION_AUTHORIZATION_SHA256)) == Sha(py, Get(auth, PLAN_SHA256))
    && Sha(py, Get(auth, PLAN_SHA256)).Value?
    && Named(py, auth, CONFIRMATION_EVIDENCE_SHA256, RecordOf(top, CONFIRMATION))
    && Named(py, auth, TARGET_SESSION_EVIDENCE_SHA256, RecordOf(top, TARGET_SESSION))
    && Named(py, auth, SOURCE_LEASE_EVIDENCE_SHA256, RecordOf(top, SOURCE_LEASE))
    && Named(py, auth, FULL_FLASH_TARGET_PREFLIGHT_SHA256, RecordOf(p, TARGET_PREFLIGHT))
    && Named(py, auth, FULL_FLASH_VALIDATION_PLAN_SHA256, RecordOf(p, FULL_FLASH_PLAN))
    && Named(py, auth, RESTORE_TARGET_PLAN_SHA256, RecordOf(p, TARGET_PLAN))
    && GeometryOf(py, RecordOf(p, TARGET_PLAN)).path == r.targetPath
    && GeometryOf(py, RecordOf(p, TARGET_PLAN)).identity == r.targetIdentity
    && GeometryOf(py, RecordOf(p, TARGET_PLAN)).size == r.targetSize && r.targetSize > 0
    && GeometryOf(py, RecordOf(p, TARGET_PLAN)).mutation == r.planned
    && Says(execution, r.outcome, r.written, r.planned, r.completed, r.operations)
    && CancellationCoherent(execution)
    && 0 <= r.written <= r.planned && 0 <= r.completed <= r.operations
  }

  /** `key` of the authorization holds the digest the record states for itself. */
  ghost predicate Named(py: Python, auth: Record, key: Key, m: Record) {
    Sha(py, Get(auth, key)).Value? && Sha(py, Get(auth, key)) == Sha(py, Get(m, PLAN_SHA256))
  }

  // ------------------------------------------------- build_ffu_restore_command

  /** The privileged command line, reduced to its operands. */
  datatype Argv = Argv(pkexec: string, helper: string, image: string, device: string, identity: string, size: int,
                       logical: int, physical: int, trustStore: string, metadataPolicy: string, publisherPolicy: string,
                       confirm: string, binding: string)

  function BuildRestoreCommand(py: Python, pkexec: string, helper: string, payload: Json,
          confirmation: string): (r: Got<Argv>)
    ensures r.Value? ==>
      && NormalizeReview(py, payload).Value?
      && var review := NormalizeReview(py, payload).value;
         && review.mounts == [] && r.value.confirm == confirmation == review.phrase
         && r.value.device == review.targetPath && r.value.identity == review.targetIdentity
         && r.value.size == review.targetSize
         && r.value.image == review.sourcePath && r.value.binding == review.binding
  {
    var launcher :- Path(py, Str(pkexec), false);
    var program :- Path(py, Str(helper), false);
    var review :- NormalizeReview(py, payload);
    var _ :- Need(!review.unmountRequired && review.mounts == []);
    var _ :- Need(confirmation == review.phrase);
    Value(Argv(launcher, program, review.sourcePath, review.targetPath, review.targetIdentity, review.targetSize,
               review.logical, review.physical, review.trustStoreRoot, review.metadataPolicy, review.publisherPolicy,
               confirmation, review.binding))
  }
}
