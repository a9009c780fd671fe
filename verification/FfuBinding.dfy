/** What the evidence chain of an FFU restore pins down. */
module FfuBinding {
  import opened Base
  import opened PythonJson
  import opened FfuKeys
  import opened FfuReview
  import opened FfuRestore

  /** A digest of a whole record. */
  type Hash = Record -> string

  /** No two of these records collide. */
  ghost predicate CollisionFree(h: Hash, records: set<Record>) {
    forall a, b :: a in records && b in records && h(a) == h(b) ==> a == b
  }

  /** What the digests of a response are taken over. */
  ghost function Digested(top: Record): set<Record> {
    var p := ReviewRecord(top);
    {Body(RecordOf(top, MUTATION_AUTHORIZATION)), Body(RecordOf(top, CONFIRMATION)),
        Body(RecordOf(top, TARGET_SESSION)),
     Body(RecordOf(top, SOURCE_LEASE)), Body(RecordOf(p, TARGET_PREFLIGHT)), Body(RecordOf(p, FULL_FLASH_PLAN)),
     Body(RecordOf(p, TARGET_PLAN))}
  }

  ghost function Body(m: Record): Record {
    m - {PLAN_SHA256}
  }

  /** The record's own digest is the hash of all its other fields. */
  ghost predicate Sealed(py: Python, h: Hash, m: Record) {
    Sha(py, Get(m, PLAN_SHA256)) == Value(h(Body(m)))
  }

  ghost predicate AllSealed(py: Python, h: Hash, top: Record) {
    var p := ReviewRecord(top);
    && Sealed(py, h, RecordOf(top, MUTATION_AUTHORIZATION)) && Sealed(py, h, RecordOf(top, CONFIRMATION))
    && Sealed(py, h, RecordOf(top, TARGET_SESSION)) && Sealed(py, h, RecordOf(top, SOURCE_LEASE))
    && Sealed(py, h, RecordOf(p, TARGET_PREFLIGHT)) && Sealed(py, h, RecordOf(p, FULL_FLASH_PLAN))
    && Sealed(py, h, RecordOf(p, TARGET_PLAN))
  }

  /** Two records agree on everything but the spelling of their own digest. */
  ghost predicate Same(a: Record, b: Record) {
    Body(a) == Body(b)
  }

  lemma SealedBySameDigest(py: Python, h: Hash, s: set<Record>, a: Record, b: Record)
    requires CollisionFree(h, s) && Body(a) in s && Body(b) in s && Sealed(py, h, a) && Sealed(py, h, b)
    requires Sha(py, Get(a, PLAN_SHA256)) == Sha(py, Get(b, PLAN_SHA256))
    ensures Same(a, b)
  {
  }

  lemma SameFields(a: Record, b: Record, key: Key)
    requires Same(a, b) && key != PLAN_SHA256
    ensures Get(a, key) == Get(b, key)
  {
    var x, y := Body(a), Body(b);
    assert key in a <==> key in x;
    assert key in b <==> key in y;
    if key in a { assert a[key] == x[key] == y[key] == b[key]; }
  }

  /** A link of two equal authorizations leads to equal records. */
  lemma LinkBinds(py: Python, h: Hash, s: set<Record>, auth1: Record, auth2: Record, key: Key, a: Record, b: Record)
    requires CollisionFree(h, s) && Body(a) in s && Body(b) in s && Same(auth1, auth2) && key != PLAN_SHA256
    requires Named(py, auth1, key, a) && Named(py, auth2, key, b) && Sealed(py, h, a) && Sealed(py, h, b)
    ensures Same(a, b)
  {
    SameFields(auth1, auth2, key);
    SealedBySameDigest(py, h, s, a, b);
  }

  /** Two accepted responses whose executions name the same authorization agree
      on the authorization and on all six records behind it. */
  lemma AuthorizationBindsEvidence(py: Python, h: Hash, p: Json, q: Json, e1: Option<Json>, e2: Option<Json>)
    requires NormalizeRestore(py, p, e1).Value? && NormalizeRestore(py, q, e2).Value?
    requires CollisionFree(h, Digested(p.members) + Digested(q.members))
    requires AllSealed(py, h, p.members) && AllSealed(py, h, q.members)
    requires Sha(py, Get(RecordOf(p.members, EXECUTION), MUTATION_AUTHORIZATION_SHA256))
          == Sha(py, Get(RecordOf(q.members, EXECUTION), MUTATION_AUTHORIZATION_SHA256))
    ensures Same(RecordOf(p.members, MUTATION_AUTHORIZATION), RecordOf(q.members, MUTATION_AUTHORIZATION))
    ensures Same(RecordOf(p.members, CONFIRMATION), RecordOf(q.members, CONFIRMATION))
    ensures Same(RecordOf(p.members, TARGET_SESSION), RecordOf(q.members, TARGET_SESSION))
    ensures Same(RecordOf(p.members, SOURCE_LEASE), RecordOf(q.members, SOURCE_LEASE))
    ensures Same(RecordOf(ReviewRecord(p.members), TARGET_PREFLIGHT),
        RecordOf(ReviewRecord(q.members), TARGET_PREFLIGHT))
    ensures Same(RecordOf(ReviewRecord(p.members), FULL_FLASH_PLAN), RecordOf(ReviewRecord(q.members), FULL_FLASH_PLAN))
    ensures Same(RecordOf(ReviewRecord(p.members), TARGET_PLAN), RecordOf(ReviewRecord(q.members), TARGET_PLAN))
  {
    var r1, r2 := NormalizeRestore(py, p, e1).value, NormalizeRestore(py, q, e2).value;
    assert Chained(py, p.members, r1) && Chained(py, q.members, r2);
    EvidenceFromChains(py, h, p.members, q.members, r1, r2);
  }

  lemma EvidenceFromChains(py: Python, h: Hash, p: Record, q: Record, r1: Restore, r2: Restore)
    requires Chained(py, p, r1) && Chained(py, q, r2) && CollisionFree(h, Digested(p) + Digested(q))
    requires AllSealed(py, h, p) && AllSealed(py, h, q)
    requires Sha(py, Get(RecordOf(p, EXECUTION), MUTATION_AUTHORIZATION_SHA256))
        == Sha(py, Get(RecordOf(q, EXECUTION), MUTATION_AUTHORIZATION_SHA256))
    ensures Same(RecordOf(p, MUTATION_AUTHORIZATION), RecordOf(q, MUTATION_AUTHORIZATION))
    ensures Same(RecordOf(p, CONFIRMATION), RecordOf(q, CONFIRMATION))
    ensures Same(RecordOf(p, TARGET_SESSION), RecordOf(q, TARGET_SESSION))
    ensures Same(RecordOf(p, SOURCE_LEASE), RecordOf(q, SOURCE_LEASE))
    ensures Same(RecordOf(ReviewRecord(p), TARGET_PREFLIGHT), RecordOf(ReviewRecord(q), TARGET_PREFLIGHT))
    ensures Same(RecordOf(ReviewRecord(p), FULL_FLASH_PLAN), RecordOf(ReviewRecord(q), FULL_FLASH_PLAN))
    ensures Same(RecordOf(ReviewRecord(p), TARGET_PLAN), RecordOf(ReviewRecord(q), TARGET_PLAN))
  {
    var s := Digested(p) + Digested(q);
    var a1, a2 := RecordOf(p, MUTATION_AUTHORIZATION), RecordOf(q, MUTATION_AUTHORIZATION);
    var v1, v2 := ReviewRecord(p), ReviewRecord(q);
    SealedBySameDigest(py, h, s, a1, a2);
    LinkBinds(py, h, s, a1, a2, CONFIRMATION_EVIDENCE_SHA256, RecordOf(p, CONFIRMATION), RecordOf(q, CONFIRMATION));
    LinkBinds(py, h, s, a1, a2, TARGET_SESSION_EVIDENCE_SHA256, RecordOf(p, TARGET_SESSION),
            RecordOf(q, TARGET_SESSION));
    LinkBinds(py, h, s, a1, a2, SOURCE_LEASE_EVIDENCE_SHA256, RecordOf(p, SOURCE_LEASE), RecordOf(q, SOURCE_LEASE));
    LinkBinds(py, h, s, a1, a2, FULL_FLASH_TARGET_PREFLIGHT_SHA256, RecordOf(v1, TARGET_PREFLIGHT),
            RecordOf(v2, TARGET_PREFLIGHT));
    LinkBinds(py, h, s, a1, a2, FULL_FLASH_VALIDATION_PLAN_SHA256, RecordOf(v1, FULL_FLASH_PLAN),
            RecordOf(v2, FULL_FLASH_PLAN));
    LinkBinds(py, h, s, a1, a2, RESTORE_TARGET_PLAN_SHA256, RecordOf(v1, TARGET_PLAN), RecordOf(v2, TARGET_PLAN));
  }

  lemma GeometryByFields(py: Python, a: Record, b: Record)
    requires Get(a, DEVICE_PATH) == Get(b, DEVICE_PATH)
    requires Get(a, EXPECTED_TARGET_IDENTITY) == Get(b, EXPECTED_TARGET_IDENTITY)
    requires Get(a, TARGET_SIZE_BYTES) == Get(b, TARGET_SIZE_BYTES)
    requires Get(a, LOGICAL_SECTOR_SIZE_BYTES) == Get(b, LOGICAL_SECTOR_SIZE_BYTES)
    requires Get(a, PHYSICAL_SECTOR_SIZE_BYTES) == Get(b, PHYSICAL_SECTOR_SIZE_BYTES)
    requires Get(a, MUTATION_BYTES) == Get(b, MUTATION_BYTES)
    ensures GeometryOf(py, a) == GeometryOf(py, b)
  {
  }

  lemma GeometryBySame(py: Python, a: Record, b: Record)
    requires Same(a, b)
    ensures GeometryOf(py, a) == GeometryOf(py, b)
  {
    forall key: Key | key != PLAN_SHA256 ensures Get(a, key) == Get(b, key) {
      SameFields(a, b, key);
    }
    GeometryByFields(py, a, b);
  }

  /** Hence one authorization digest stands for one target: path, identity,
      capacity, planned bytes and confirmation phrase. */
  lemma AuthorizationBindsTarget(py: Python, h: Hash, p: Json, q: Json, e1: Option<Json>, e2: Option<Json>)
    requires NormalizeRestore(py, p, e1).Value? && NormalizeRestore(py, q, e2).Value?
    requires CollisionFree(h, Digested(p.members) + Digested(q.members))
    requires AllSealed(py, h, p.members) && AllSealed(py, h, q.members)
    requires Sha(py, Get(RecordOf(p.members, EXECUTION), MUTATION_AUTHORIZATION_SHA256))
          == Sha(py, Get(RecordOf(q.members, EXECUTION), MUTATION_AUTHORIZATION_SHA256))
    ensures var r1, r2 := NormalizeRestore(py, p, e1).value, NormalizeRestore(py, q, e2).value;
            && r1.targetPath == r2.targetPath && r1.targetIdentity == r2.targetIdentity
            && r1.targetSize == r2.targetSize > 0 && r1.planned == r2.planned
            && PhraseFor(r1.targetPath, r1.targetSize) == PhraseFor(r2.targetPath, r2.targetSize)
  {
    AuthorizationBindsEvidence(py, h, p, q, e1, e2);
    GeometryBySame(py, RecordOf(ReviewRecord(p.members), TARGET_PLAN), RecordOf(ReviewRecord(q.members), TARGET_PLAN));
  }

  /** Accepted evidence names the device, identity, capacity and review of the
      command line that was built from the same reviewed payload. */
  lemma EvidenceNamesTheCommand(py: Python, pkexec: string, helper: string, reviewed: Json, typed: string, p: Json)
    requires BuildRestoreCommand(py, pkexec, helper, reviewed, typed).Value?
    requires NormalizeRestore(py, p, Some(reviewed)).Value?
    ensures var argv, r := BuildRestoreCommand(py, pkexec, helper, reviewed, typed).value,
        NormalizeRestore(py, p, Some(reviewed)).value;
            && r.targetPath == argv.device && r.targetIdentity == argv.identity && r.targetSize == argv.size
            && r.binding == argv.binding
            && argv.size >= 0 && argv.confirm == PhraseFor(argv.device, argv.size)
  {
    var review := NormalizeReview(py, reviewed).value;
    assert Reviewed(py, reviewed.members, review);
  }

  /** The verdict "unchanged" rests on zero written bytes and on no flag of the
      record asserting a mutation. */
  lemma UnchangedMeansUntouched(py: Python, p: Json, expected: Option<Json>)
    requires NormalizeRestore(py, p, expected).Value?
    ensures var r, m := NormalizeRestore(py, p, expected).value, RecordOf(p.members, EXECUTION);
            r.outcome == Unchanged ==>
              && r.written == 0 && Get(m, MUTATION_STARTED) != Bool(true)
              && Get(m, TARGET_MAY_BE_PARTIALLY_MODIFIED) != Bool(true)
              && Get(m, CANCELLED_AFTER_MUTATION) != Bool(true) && Get(m, EXECUTION_SUCCEEDED) == Bool(false)
  {
    var r := NormalizeRestore(py, p, expected).value;
    assert Chained(py, p.members, r);
  }

  /** The outcomes exclude each other on what they say about the target. */
  lemma OutcomesExclude(m: Record, a: Outcome, b: Outcome, written: int, planned: int, completed: int, operations: int)
    requires Says(m, a, written, planned, completed, operations) && Says(m, b, written, planned, completed, operations)
    requires a == Unchanged || a == Verified
    ensures a == b
  {
  }

  /** An accepted execution was cancelled in one phase exactly if it was cancelled
      at all. */
  lemma CancellationIsPlaced(py: Python, p: Json, expected: Option<Json>)
    requires NormalizeRestore(py, p, expected).Value?
    ensures var m := RecordOf(p.members, EXECUTION);
            var early := Get(m, CANCELLED_BEFORE_MUTATION) == Bool(true);
            var late := Get(m, CANCELLED_AFTER_MUTATION) == Bool(true);
            (early || late <==> Get(m, CANCELLATION_OBSERVED) == Bool(true)) && !(early && late)
  {
    assert Chained(py, p.members, NormalizeRestore(py, p, expected).value);
  }

  // -------------------------------------------------- uncaught conversions

  /** The byte count of an otherwise accepted response, replaced by a number
      literal beyond the double range. */
  function WithInfiniteCount(p: Json): Json
    requires p.Obj?
  {
    Obj(p.members[EXECUTION := Obj(RecordOf(p.members, EXECUTION)[MUTATION_BYTES_WRITTEN := Infinite])])
  }

  lemma ReproducedFrame(py: Python, a: Record, b: Record, expected: Option<Json>)
    requires Get(a, REVIEW) == Get(b, REVIEW)
    ensures ReadReproduced(py, a, expected) == ReadReproduced(py, b, expected)
  {
  }

  lemma EvidenceFrame(py: Python, a: Record, b: Record, p: Record, review: NormalReview, links: Links, target: Record,
          preflight: Record)
    requires Get(a, SOURCE_LEASE) == Get(b, SOURCE_LEASE) && Get(a, TARGET_SESSION) == Get(b, TARGET_SESSION)
    requires Get(a, CONFIRMATION) == Get(b, CONFIRMATION)
    requires Get(a, MUTATION_AUTHORIZATION) == Get(b, MUTATION_AUTHORIZATION)
    ensures ReadEvidence(py, a, p, review, links, target, preflight)
        == ReadEvidence(py, b, p, review, links, target, preflight)
  {
  }

  lemma ExecutionLinkedFrame(py: Python, a: Record, b: Record, links: Links, source: string, session: string,
          confirmation: string, auth: Authorized)
    requires ExecutionLinked(py, a, links, source, session, confirmation, auth)
    requires forall key :: key != MUTATION_BYTES_WRITTEN ==> Get(a, key) == Get(b, key)
    ensures ExecutionLinked(py, b, links, source, session, confirmation, auth)
  {
  }

  lemma EnvelopeFrame(a: Record, b: Record, mode: string)
    requires ReadEnvelope(Obj(a), mode).Value? && Get(a, SCHEMA) == Get(b, SCHEMA) && Get(a, MODE) == Get(b, MODE)
    ensures ReadEnvelope(Obj(b), mode) == Value(b)
  {
  }

  lemma VerdictEscapes(py: Python, m: Record, planned: int, operations: int)
    requires Verdict(py, m, planned, operations).Value?
    ensures Verdict(py, m[MUTATION_BYTES_WRITTEN := Infinite], planned, operations) == Escaped
  {
    var changed := m[MUTATION_BYTES_WRITTEN := Infinite];
    assert StatusOutcome(py, changed) == StatusOutcome(py, m);
    assert PositiveInt(py, changed, OPERATION_COUNT_COMPLETED, true)
        == PositiveInt(py, m, OPERATION_COUNT_COMPLETED, true);
  }

  lemma FieldsFrame(a: Record, b: Record, review: NormalReview, operations: int)
    requires ExecutionFields(a, review, operations)
    requires forall key :: key != MUTATION_BYTES_WRITTEN ==> Get(a, key) == Get(b, key)
    ensures ExecutionFields(b, review, operations)
  {
  }

  lemma ExecutionIsVerdict(py: Python, review: NormalReview, links: Links, source: string, session: string,
          confirmation: string,
                           auth: Authorized, m: Record)
    requires ReadEnvelope(Obj(m), EXECUTION_MODE) == Value(m)
    requires ExecutionLinked(py, m, links, source, session, confirmation, auth)
    requires ExecutionFields(m, review, auth.operations)
    ensures ReadExecution(py, review, links, source, session, confirmation, auth, Obj(m))
        == Verdict(py, m, review.mutation, auth.operations)
  {
  }

  lemma AcceptedExecution(py: Python, review: NormalReview, links: Links, source: string, session: string,
          confirmation: string,
                          auth: Authorized, m: Record)
    requires ReadExecution(py, review, links, source, session, confirmation, auth, Obj(m)).Value?
    ensures ReadEnvelope(Obj(m), EXECUTION_MODE) == Value(m)
    ensures ExecutionLinked(py, m, links, source, session, confirmation, auth)
    ensures ExecutionFields(m, review, auth.operations) && Verdict(py, m, review.mutation, auth.operations).Value?
  {
  }

  lemma ChangedElsewhere(m: Record, key: Key)
    requires key != MUTATION_BYTES_WRITTEN
    ensures Get(m[MUTATION_BYTES_WRITTEN := Infinite], key) == Get(m, key)
  {
  }

  lemma ChangedLinks(py: Python, review: NormalReview, links: Links, source: string, session: string,
          confirmation: string,
                     auth: Authorized, m: Record)
    requires ReadEnvelope(Obj(m), EXECUTION_MODE) == Value(m)
    requires ExecutionLinked(py, m, links, source, session, confirmation, auth)
    requires ExecutionFields(m, review, auth.operations)
    ensures var changed := m[MUTATION_BYTES_WRITTEN := Infinite];
            ReadEnvelope(Obj(changed), EXECUTION_MODE) == Value(changed)
            && ExecutionLinked(py, changed, links, source, session, confirmation, auth)
            && ExecutionFields(changed, review, auth.operations)
  {
    var changed := m[MUTATION_BYTES_WRITTEN := Infinite];
    forall key | key != MUTATION_BYTES_WRITTEN ensures Get(m, key) == Get(changed, key) {
      ChangedElsewhere(m, key);
    }
    EnvelopeFrame(m, changed, EXECUTION_MODE);
    ExecutionLinkedFrame(py, m, changed, links, source, session, confirmation, auth);
    FieldsFrame(m, changed, review, auth.operations);
  }

  lemma InfiniteExecutionEscapes(py: Python, review: NormalReview, links: Links, source: string, session: string,
          confirmation: string,
                                 auth: Authorized, m: Record)
    requires ReadExecution(py, review, links, source, session, confirmation, auth, Obj(m)).Value?
    ensures ReadExecution(py, review, links, source, session, confirmation, auth,
        Obj(m[MUTATION_BYTES_WRITTEN := Infinite])) == Escaped
  {
    AcceptedExecution(py, review, links, source, session, confirmation, auth, m);
    ChangedLinks(py, review, links, source, session, confirmation, auth, m);
    VerdictEscapes(py, m, review.mutation, auth.operations);
    ExecutionIsVerdict(py, review, links, source, session, confirmation, auth, m[MUTATION_BYTES_WRITTEN := Infinite]);
  }

  lemma EscapedExecutionEscapes(py: Python, top: Record, expected: Option<Json>, half: Reproduced, e: Evidence)
    requires ReadReproduced(py, top, expected) == Value(half)
    requires ReadEvidence(py, top, half.p, half.review, half.links, RecordOf(half.p, TARGET_PLAN),
        RecordOf(half.p, TARGET_PREFLIGHT)) == Value(e)
    requires ReadExecution(py, half.review, half.links, e.source, e.session, e.confirmation, e.auth,
        Get(top, EXECUTION)) == Escaped
    ensures NormalizeRestore(py, Obj(top), expected) == Escaped
  {
    assert AfterReview(py, top, half) == Escaped;
  }

  lemma AcceptedReview(py: Python, top: Record, expected: Option<Json>) returns (half: Reproduced)
    requires NormalizeRestore(py, Obj(top), expected).Value?
    ensures ReadReproduced(py, top, expected) == Value(half) && AfterReview(py, top, half).Value?
  {
    half := ReadReproduced(py, top, expected).value;
  }

  lemma AcceptedRest(py: Python, top: Record, expected: Option<Json>, half: Reproduced) returns (e: Evidence)
    requires ReadReproduced(py, top, expected) == Value(half) && AfterReview(py, top, half).Value?
    ensures ReadEvidence(py, top, half.p, half.review, half.links, RecordOf(half.p, TARGET_PLAN),
        RecordOf(half.p, TARGET_PREFLIGHT)) == Value(e)
    ensures ReadExecution(py, half.review, half.links, e.source, e.session, e.confirmation, e.auth,
        Get(top, EXECUTION)).Value?
    ensures Get(top, EXECUTION) == Obj(RecordOf(top, EXECUTION))
  {
    e := ReadEvidence(py, top, half.p, half.review, half.links, RecordOf(half.p, TARGET_PLAN),
        RecordOf(half.p, TARGET_PREFLIGHT)).value;
  }

  /** The status of the execution record decides the outcome, and its byte count
      is the one accounted for. */
  lemma StatusDecides(py: Python, p: Json, expected: Option<Json>)
    requires NormalizeRestore(py, p, expected).Value?
    ensures var r, m := NormalizeRestore(py, p, expected).value, RecordOf(p.members, EXECUTION);
      && IntValue(py, m, MUTATION_BYTES_WRITTEN) == r.written
      && match RawText(py, Get(m, STATUS))
         case "verified" => r.outcome == Verified
         case "not-started" => r.outcome == Unchanged
         case "partially-modified" => r.outcome == PartiallyModified
         case status => status == "written-unverified" && r.outcome == WrittenUnverified
  {
    var top := p.members;
    var half := AcceptedReview(py, top, expected);
    var e := AcceptedRest(py, top, expected, half);
    VerdictByStatus(py, RecordOf(top, EXECUTION), half.review.mutation, e.auth.operations);
  }

  lemma VerdictByStatus(py: Python, m: Record, planned: int, operations: int)
    requires Verdict(py, m, planned, operations).Value?
    ensures var done := Verdict(py, m, planned, operations).value;
      && StatusOutcome(py, m) == Value(done.outcome) && IntValue(py, m, MUTATION_BYTES_WRITTEN) == done.written
  {
  }

  // ------------------------------------------------- records of one restore

  /** The record names the reviewed drive. */
  predicate Names(m: Record, path: string, identity: string) {
    Get(m, DEVICE_PATH) == Str(path) && Get(m, EXPECTED_TARGET_IDENTITY) == Str(identity)
  }

  /** The source is the reviewed file, held by a kernel lease. */
  predicate LeaseHolds(py: Python, lease: Record, p: Record, r: NormalReview) {
    && PyEq(Get(lease, SOURCE_IDENTITY), Get(p, SOURCE_IDENTITY))
    && PyEq(Get(lease, SOURCE_FILE_SIZE), Int(r.sourceSize))
    && Get(lease, TARGET_DEVICE_PATH) == Str(r.targetPath)
    && Get(lease, EXPECTED_TARGET_IDENTITY) == Str(r.targetIdentity)
    && Get(lease, KERNEL_READ_LEASE_HELD) == Bool(true) && Get(lease, FALLBACK_ALLOWED) == Bool(false)
  }

  /** The drive is open exclusively, unmounted, and the one the preflight saw. */
  predicate SessionHolds(session: Record, preflight: Record, r: NormalReview) {
    && Names(session, r.targetPath, r.targetIdentity)
    && Get(session, REDISCOVERED_TARGET_IDENTITY) == Str(r.targetIdentity)
    && PyEq(Get(session, EXPECTED_KERNEL_DEVICE_ID), Get(preflight, KERNEL_DEVICE_ID))
    && PyEq(Get(session, OBSERVED_KERNEL_DEVICE_ID), Get(preflight, KERNEL_DEVICE_ID))
    && PyEq(Get(session, MAJOR_MINOR), Get(preflight, MAJOR_MINOR))
    && Get(session, KERNEL_EXCLUSIVE_OPEN) == Get(session, MOUNTED_TARGETS_ABSENT) == Bool(true)
    && Get(session, FIXED_DISK_OVERRIDE_ALLOWED) == Get(session, MUTATION_PERMITTED) == Bool(false)
  }

  /** The phrase was matched exactly and used up. */
  predicate ConfirmationHolds(confirmed: Record, r: NormalReview) {
    && Names(confirmed, r.targetPath, r.targetIdentity) && Get(confirmed, EXPECTED_CONFIRMATION_PHRASE) == Str(r.phrase)
    && Get(confirmed, CONFIRMATION_EXACT_MATCH) == Get(confirmed, CONFIRMATION_CONSUMED) == Bool(true)
  }

  /** The one permission to write, not yet used. */
  predicate AuthorizationHolds(auth: Record, r: NormalReview) {
    && Names(auth, r.targetPath, r.targetIdentity) && Get(auth, CONFIRMATION_PHRASE) == Str(r.phrase)
    && Get(auth, ONE_SHOT_EXECUTION_REQUIRED) == Get(auth, MUTATION_PERMITTED) == Bool(true)
    && Get(auth, AUTHORIZATION_CONSUMED) == Bool(false)
  }

  lemma LeaseAccepted(py: Python, p: Record, r: NormalReview, links: Links, lease: Json)
    requires SourceLeaseSha(py, p, r, links, lease).Value?
    ensures LeaseHolds(py, Members(lease), p, r)
  {
    var m := lease.members;
    assert Flagged(m, LEASE_ON, LEASE_OFF);
    assert Is(m, KERNEL_READ_LEASE_HELD, true) && Is(m, FALLBACK_ALLOWED, false);
  }

  lemma SessionAccepted(py: Python, preflight: Record, r: NormalReview, links: Links, source: string, session: Json)
    requires TargetSessionSha(py, preflight, r, links, source, session).Value?
    ensures SessionHolds(Members(session), preflight, r)
  {
    var m := session.members;
    assert Flagged(m, SESSION_ON, SESSION_OFF);
    assert Is(m, KERNEL_EXCLUSIVE_OPEN, true) && Is(m, MOUNTED_TARGETS_ABSENT, true);
    assert Is(m, FIXED_DISK_OVERRIDE_ALLOWED, false) && Is(m, MUTATION_PERMITTED, false);
  }

  lemma ConfirmationAccepted(py: Python, r: NormalReview, links: Links, source: string, session: string,
          confirmed: Json)
    requires ConfirmationSha(py, r, links, source, session, confirmed).Value?
    ensures ConfirmationHolds(Members(confirmed), r)
  {
    var m := confirmed.members;
    assert Flagged(m, CONFIRMATION_ON, CONFIRMATION_OFF);
    assert Is(m, CONFIRMATION_EXACT_MATCH, true) && Is(m, CONFIRMATION_CONSUMED, true);
  }

  lemma AuthorizationAccepted(py: Python, target: Record, r: NormalReview, links: Links, source: string,
          session: string, confirmation: string, auth: Json)
    requires ReadAuthorization(py, target, r, links, source, session, confirmation, auth).Value?
    ensures AuthorizationHolds(Members(auth), r)
  {
    var m := auth.members;
    assert SameMutation(m, r) && EqStr(m, CONFIRMATION_PHRASE, r.phrase);
    assert Flagged(m, AUTHORIZATION_ON, AUTHORIZATION_OFF);
    assert Is(m, ONE_SHOT_EXECUTION_REQUIRED, true) && Is(m, MUTATION_PERMITTED, true);
    assert Is(m, AUTHORIZATION_CONSUMED, false);
  }

  lemma LeaseOf(py: Python, lease: Json, session: Json, confirmed: Json, auth: Json, p: Record, r: NormalReview,
          links: Links, target: Record, preflight: Record, e: Evidence)
    requires EvidenceOf(py, lease, session, confirmed, auth, p, r, links, target, preflight) == Value(e)
    ensures SourceLeaseSha(py, p, r, links, lease) == Value(e.source)
  {
  }

  lemma SessionOf(py: Python, lease: Json, session: Json, confirmed: Json, auth: Json, p: Record, r: NormalReview,
          links: Links, target: Record, preflight: Record, e: Evidence)
    requires EvidenceOf(py, lease, session, confirmed, auth, p, r, links, target, preflight) == Value(e)
    ensures TargetSessionSha(py, preflight, r, links, e.source, session) == Value(e.session)
  {
  }

  lemma ConfirmationOf(py: Python, lease: Json, session: Json, confirmed: Json, auth: Json, p: Record, r: NormalReview,
          links: Links, target: Record, preflight: Record, e: Evidence)
    requires EvidenceOf(py, lease, session, confirmed, auth, p, r, links, target, preflight) == Value(e)
    ensures ConfirmationSha(py, r, links, e.source, e.session, confirmed) == Value(e.confirmation)
  {
  }

  lemma AuthorizationOf(py: Python, lease: Json, session: Json, confirmed: Json, auth: Json, p: Record, r: NormalReview,
          links: Links, target: Record, preflight: Record, e: Evidence)
    requires EvidenceOf(py, lease, session, confirmed, auth, p, r, links, target, preflight) == Value(e)
    ensures ReadAuthorization(py, target, r, links, e.source, e.session, e.confirmation, auth) == Value(e.auth)
  {
  }

  /** Every record of an accepted response is about the reviewed source and drive,
      and each grants what the next one needs and no more. */
  lemma RecordsConcernOneRestore(py: Python, p: Json, expected: Option<Json>) returns (r: NormalReview)
    requires NormalizeRestore(py, p, expected).Value?
    ensures var top, rev := p.members, ReviewRecord(p.members);
      && Reviewed(py, rev, r) && LeaseHolds(py, RecordOf(top, SOURCE_LEASE), rev, r)
      && SessionHolds(RecordOf(top, TARGET_SESSION), RecordOf(rev, TARGET_PREFLIGHT), r)
      && ConfirmationHolds(RecordOf(top, CONFIRMATION), r)
      && AuthorizationHolds(RecordOf(top, MUTATION_AUTHORIZATION), r)
      && Names(RecordOf(top, EXECUTION), r.targetPath, r.targetIdentity)
  {
    var top := p.members;
    var half := AcceptedReview(py, top, expected);
    r := half.review;
    var e := AcceptedRest(py, top, expected, half);
    var preflight, target := RecordOf(half.p, TARGET_PREFLIGHT), RecordOf(half.p, TARGET_PLAN);
    var lease, session := Get(top, SOURCE_LEASE), Get(top, TARGET_SESSION);
    var confirmed, auth := Get(top, CONFIRMATION), Get(top, MUTATION_AUTHORIZATION);
    LeaseOf(py, lease, session, confirmed, auth, half.p, r, half.links, target, preflight, e);
    SessionOf(py, lease, session, confirmed, auth, half.p, r, half.links, target, preflight, e);
    ConfirmationOf(py, lease, session, confirmed, auth, half.p, r, half.links, target, preflight, e);
    AuthorizationOf(py, lease, session, confirmed, auth, half.p, r, half.links, target, preflight, e);
    LeaseAccepted(py, half.p, r, half.links, Get(top, SOURCE_LEASE));
    SessionAccepted(py, preflight, r, half.links, e.source, Get(top, TARGET_SESSION));
    ConfirmationAccepted(py, r, half.links, e.source, e.session, Get(top, CONFIRMATION));
    AuthorizationAccepted(py, target, r, half.links, e.source, e.session, e.confirmation,
                          Get(top, MUTATION_AUTHORIZATION));
    ExecutionNames(py, r, half.links, e, Get(top, EXECUTION));
  }

  lemma ExecutionNames(py: Python, r: NormalReview, links: Links, e: Evidence, a: Json)
    requires ReadExecution(py, r, links, e.source, e.session, e.confirmation, e.auth, a).Value?
    ensures Names(Members(a), r.targetPath, r.targetIdentity)
  {
    assert ExecutionFields(a.members, r, e.auth.operations);
  }

  lemma ChangedTop(top: Record, execution: Json, key: Key)
    requires key != EXECUTION
    ensures Get(top[EXECUTION := execution], key) == Get(top, key)
    ensures Get(top[EXECUTION := execution], EXECUTION) == execution
  {
  }

  /** Not every response is accepted or rejected: whatever accepted response one
      starts from, an infinite byte count raises an error that the caller does
      not catch. */
  lemma InfiniteCountEscapes(py: Python, p: Json, expected: Option<Json>)
    requires NormalizeRestore(py, p, expected).Value?
    ensures NormalizeRestore(py, WithInfiniteCount(p), expected) == Escaped
  {
    var top, changed := p.members, WithInfiniteCount(p).members;
    var half := AcceptedReview(py, top, expected);
    var e := AcceptedRest(py, top, expected, half);
    var execution := Obj(RecordOf(top, EXECUTION)[MUTATION_BYTES_WRITTEN := Infinite]);
    InfiniteExecutionEscapes(py, half.review, half.links, e.source, e.session, e.confirmation, e.auth,
            RecordOf(top, EXECUTION));
    ChangedTop(top, execution, REVIEW);
    ChangedTop(top, execution, SOURCE_LEASE);
    ChangedTop(top, execution, TARGET_SESSION);
    ChangedTop(top, execution, CONFIRMATION);
    ChangedTop(top, execution, MUTATION_AUTHORIZATION);
    ReproducedFrame(py, changed, top, expected);
    EvidenceFrame(py, changed, top, half.p, half.review, half.links, RecordOf(half.p, TARGET_PLAN),
            RecordOf(half.p, TARGET_PREFLIGHT));
    EscapedExecutionEscapes(py, changed, expected, half, e);
  }

  // --------------------------------------------------- correlation is met

  /** The review of a response as it stood before execution. */
  function BeforeExecution(p: Record): Json {
    Obj(p[EXECUTION_ATTEMPTED := Bool(false)])
  }

  lemma BeforeFrame(p: Record, key: Key)
    requires key != EXECUTION_ATTEMPTED
    ensures Get(Members(BeforeExecution(p)), key) == Get(p, key)
  {
  }

  lemma ReviewHasPreflight(py: Python, payload: Json)
    requires NormalizeReview(py, payload).Value?
    ensures Get(payload.members, TARGET_PREFLIGHT).Obj?
  {
    var header := ReadHeader(py, payload.members).value;
    assert ReadPlans(py, payload.members, header.sourceSize, header.descriptor).Value?;
  }

  lemma CorrelatesWithItself(py: Python, p: Record, review: NormalReview)
    requires ReproducedReview(py, p) == Value(review)
    ensures Correlate(py, p, review, Some(BeforeExecution(p))) == Value(())
  {
    var q := BeforeExecution(p);
    assert NormalizeReview(py, q) == Value(review);
    ReviewHasPreflight(py, q);
    BeforeFrame(p, SOURCE_IDENTITY);
    BeforeFrame(p, TRUST_METADATA_POLICY_IDENTITY);
    BeforeFrame(p, PUBLISHER_POLICY_IDENTITY);
    BeforeFrame(p, TARGET_PREFLIGHT);
    EqualsItself(Get(p, SOURCE_IDENTITY));
    EqualsItself(Get(p, TRUST_METADATA_POLICY_IDENTITY));
    EqualsItself(Get(p, PUBLISHER_POLICY_IDENTITY));
    var preflight := Get(p, TARGET_PREFLIGHT).members;
    EqualsItself(Get(preflight, KERNEL_DEVICE_ID));
    EqualsItself(Get(preflight, MAJOR_MINOR));
  }

  lemma ReproducedAgain(py: Python, a: Json, half: Reproduced)
    requires ReproducedOf(py, a, None) == Value(half)
    ensures ReproducedOf(py, a, Some(BeforeExecution(half.p))) == Value(half)
  {
    CorrelatesWithItself(py, half.p, half.review);
  }

  /** A response accepted on its own is accepted against the review it
      reproduces, with the same verdict: correlation refuses only differences. */
  lemma AcceptedAgainstItsReview(py: Python, p: Json)
    requires NormalizeRestore(py, p, None).Value?
    ensures NormalizeRestore(py, p, Some(BeforeExecution(ReviewRecord(p.members)))) == NormalizeRestore(py, p, None)
  {
    var half := AcceptedReview(py, p.members, None);
    ReproducedAgain(py, Get(p.members, REVIEW), half);
  }
}
