/** When validating a response ends in an exception that nobody catches: the
    checks of the two validators in their order, and which of them can raise. */
module FfuEscapes {
  import opened Base
  import opened PythonJson
  import opened FfuKeys
  import opened FfuReview
  import opened FfuRestore

  /** One check: it raises, or passes, or rejects the response. */
  datatype Check = Check(raises: bool, passes: bool)
  {
    /** This check and, if it passes, the next: they raise if this one does, or
        if this one passes and the next one raises. */
    function Then(next: Check): Check {
      Check(raises || (passes && next.raises), passes && next.passes)
    }
  }

  /** A check that can only pass or reject. */
  function Test(passes: bool): Check {
    Check(false, passes)
  }

  /** A number is converted: only an infinity raises. */
  function Number(py: Python, m: Record, key: Key, allowZero: bool): Check {
    Check(Get(m, key) == Infinite, PositiveInt(py, m, key, allowZero).Value?)
  }

  /** A number is converted and compared. */
  function Equal(py: Python, m: Record, key: Key, allowZero: bool, n: int): Check {
    Check(Get(m, key) == Infinite, PositiveInt(py, m, key, allowZero) == Value(n))
  }

  /** A value is copied: only nesting beyond the limit raises. */
  function Copy(py: Python, site: Site, a: Json): Check {
    Check(!Within(a, py.copyLimit(site)), Within(a, py.copyLimit(site)))
  }

  /** The validator ends as its checks do. */
  ghost predicate Follows<T>(r: Got<T>, c: Check) {
    (r.Escaped? <==> c.raises) && (r.Value? <==> c.passes)
  }

  // -------------------------------------------------------------- the review

  function IdentityCheck(py: Python, m: Record): Check {
    Number(py, m, SIZE, false).Then(Number(py, m, DEVICE, false)).Then(Number(py, m, INODE, false))
      .Then(Number(py, m, MODIFIED_NS, true)).Then(Number(py, m, CHANGED_NS, true))
  }

  lemma IdentityFollows(py: Python, m: Record)
    ensures Follows(FileIdentity(py, m), IdentityCheck(py, m))
  {
  }

  function TrustCheck(py: Python, p: Record): Check {
    Test(TrustStarts(py, p)).Then(Number(py, p, TRUST_SEQUENCE, false)).Then(Test(TrustStates(py, p)))
  }

  lemma TrustFollows(py: Python, p: Record)
    ensures Follows(ReadTrust(py, p), TrustCheck(py, p))
  {
  }

  function IdentitiesCheck(py: Python, p: Record): Check {
    Test(Get(p, SOURCE_IDENTITY).Obj?).Then(Number(py, PlanOf(p, SOURCE_IDENTITY), SIZE, false))
      .Then(Test(Get(p, TRUST_METADATA_POLICY_IDENTITY).Obj? && Get(p, PUBLISHER_POLICY_IDENTITY).Obj?))
      .Then(IdentityCheck(py, PlanOf(p, SOURCE_IDENTITY)))
      .Then(IdentityCheck(py, PlanOf(p, TRUST_METADATA_POLICY_IDENTITY)))
      .Then(IdentityCheck(py, PlanOf(p, PUBLISHER_POLICY_IDENTITY)))
  }

  lemma IdentitiesFollow(py: Python, p: Record)
    ensures Follows(ReadIdentities(py, p), IdentitiesCheck(py, p))
  {
    IdentityFollows(py, PlanOf(p, SOURCE_IDENTITY));
    IdentityFollows(py, PlanOf(p, TRUST_METADATA_POLICY_IDENTITY));
    IdentityFollows(py, PlanOf(p, PUBLISHER_POLICY_IDENTITY));
  }

  function TargetCheck(py: Python, target: Record, sourceSize: int, descriptor: string): Check {
    var g := GeometryOf(py, target);
    Test(Path(py, Get(target, DEVICE_PATH), true).Value? && Sha(py, Get(target, EXPECTED_TARGET_IDENTITY)).Value?)
      .Then(Number(py, target, TARGET_SIZE_BYTES, false)).Then(Number(py, target, LOGICAL_SECTOR_SIZE_BYTES, false))
      .Then(Number(py, target, PHYSICAL_SECTOR_SIZE_BYTES, false)).Then(Number(py, target, MUTATION_BYTES, false))
      .Then(Test(g.mutation <= g.size && g.logical > 0 && g.physical >= g.logical && g.physical % g.logical == 0))
      .Then(Equal(py, target, SOURCE_FILE_SIZE, false, sourceSize))
      .Then(Equal(py, target, VALIDATION_DESCRIPTOR_COUNT, true, 0))
      .Then(Test(TargetStates(py, target, descriptor)))
  }

  lemma TargetFollows(py: Python, target: Record, sourceSize: int, descriptor: string)
    ensures Follows(ReadTarget(py, target, sourceSize, descriptor), TargetCheck(py, target, sourceSize, descriptor))
  {
  }

  function SameCheck(py: Python, m: Record, g: Geometry): Check {
    Test(Path(py, Get(m, DEVICE_PATH), true) == Value(g.path)
        && Sha(py, Get(m, EXPECTED_TARGET_IDENTITY)) == Value(g.identity))
      .Then(Equal(py, m, TARGET_SIZE_BYTES, false, g.size))
      .Then(Equal(py, m, LOGICAL_SECTOR_SIZE_BYTES, false, g.logical))
      .Then(Equal(py, m, PHYSICAL_SECTOR_SIZE_BYTES, false, g.physical))
      .Then(Equal(py, m, MUTATION_BYTES, false, g.mutation))
  }

  lemma SameFollows(py: Python, m: Record, g: Geometry)
    ensures Follows(SameGeometry(py, m, g), SameCheck(py, m, g))
  {
  }

  function FullCheck(py: Python, target: Record, full: Record, descriptor: string): Check {
    Test(FullStates(py, target, full, descriptor))
      .Then(Equal(py, full, STORE_UPDATE_TYPE, true, 0)).Then(Equal(py, full, VALIDATION_DESCRIPTOR_COUNT, true, 0))
  }

  lemma FullFollows(py: Python, target: Record, full: Record, descriptor: string)
    ensures Follows(FullLinks(py, target, full, descriptor), FullCheck(py, target, full, descriptor))
  {
  }

  function PreflightCheck(py: Python, target: Record, full: Record, m: Record, identity: string): Check {
    Test(PreflightStates(py, target, full, m, identity))
      .Then(Number(py, m, KERNEL_DEVICE_ID, false)).Then(Test(Text(py, Get(m, MAJOR_MINOR)) != ""))
  }

  lemma PreflightFollows(py: Python, target: Record, full: Record, m: Record, identity: string)
    ensures Follows(PreflightLinks(py, target, full, m, identity), PreflightCheck(py, target, full, m, identity))
  {
  }

  function LinksCheck(py: Python, target: Record, full: Record, preflight: Record, sourceSize: int,
          descriptor: string): Check {
    var g := GeometryOf(py, target);
    TargetCheck(py, target, sourceSize, descriptor).Then(SameCheck(py, full, g)).Then(SameCheck(py, preflight, g))
      .Then(FullCheck(py, target, full, descriptor)).Then(PreflightCheck(py, target, full, preflight, g.identity))
      .Then(Test(Mounts(py, preflight).Value?))
  }

  lemma LinksFollow(py: Python, target: Record, full: Record, preflight: Record, sourceSize: int, descriptor: string)
    ensures Follows(LinkPlans(py, target, full, preflight, sourceSize, descriptor),
                    LinksCheck(py, target, full, preflight, sourceSize, descriptor))
  {
    var g := GeometryOf(py, target);
    TargetFollows(py, target, sourceSize, descriptor);
    SameFollows(py, full, g);
    SameFollows(py, preflight, g);
    FullFollows(py, target, full, descriptor);
    PreflightFollows(py, target, full, preflight, g.identity);
  }

  predicate PhraseStated(py: Python, p: Record) {
    var g, phrase := GeometryOf(py, PlanOf(p, TARGET_PLAN)), RawText(py, Get(p, EXACT_CONFIRMATION_PHRASE));
    g.size >= 0 && phrase == PhraseFor(g.path, g.size)
        && Get(PlanOf(p, FULL_FLASH_PLAN), CONFIRMATION_PHRASE) == Str(phrase)
  }

  function PlansCheck(py: Python, p: Record, sourceSize: int, descriptor: string): Check {
    Test(Shaped(p)).Then(LinksCheck(py, PlanOf(p, TARGET_PLAN), PlanOf(p, FULL_FLASH_PLAN), PlanOf(p, TARGET_PREFLIGHT),
        sourceSize, descriptor))
  }

  lemma PlansFollow(py: Python, p: Record, sourceSize: int, descriptor: string)
    ensures Follows(ReadPlans(py, p, sourceSize, descriptor), PlansCheck(py, p, sourceSize, descriptor))
  {
    LinksFollow(py, PlanOf(p, TARGET_PLAN), PlanOf(p, FULL_FLASH_PLAN), PlanOf(p, TARGET_PREFLIGHT), sourceSize,
            descriptor);
  }

  /** The checks of `normalize_ffu_review` on an object, in their order. */
  function ReviewCheck(py: Python, p: Record): Check {
    var sourceSize, descriptor :=
        IntValue(py, PlanOf(p, SOURCE_IDENTITY), SIZE), Text(py, Get(p, DESCRIPTOR_PLAN_SHA256));
    TrustCheck(py, p).Then(IdentitiesCheck(py, p)).Then(PlansCheck(py, p, sourceSize, descriptor))
        .Then(Test(PhraseStated(py, p)))
  }

  /** A review raises exactly when a number it converts is infinite and every
      check in front of that conversion passes. */
  lemma ReviewEscapesIff(py: Python, payload: Json)
    ensures NormalizeReview(py, payload).Escaped? <==> payload.Obj? && ReviewCheck(py, payload.members).raises
    ensures NormalizeReview(py, payload).Value? <==> payload.Obj? && ReviewCheck(py, payload.members).passes
  {
    if payload.Obj? {
      var p := payload.members;
      TrustFollows(py, p);
      IdentitiesFollow(py, p);
      PlansFollow(py, p, IntValue(py, PlanOf(p, SOURCE_IDENTITY), SIZE), Text(py, Get(p, DESCRIPTOR_PLAN_SHA256)));
    }
  }

  predicate Finite(m: Record, keys: set<Key>) {
    forall key :: key in keys ==> Get(m, key) != Infinite
  }

  const IDENTITY_NUMBERS: set<Key> := {SIZE, DEVICE, INODE, MODIFIED_NS, CHANGED_NS}
  const GEOMETRY_NUMBERS: set<Key> :=
      {TARGET_SIZE_BYTES, LOGICAL_SECTOR_SIZE_BYTES, PHYSICAL_SECTOR_SIZE_BYTES, MUTATION_BYTES}

  /** The numbers a review converts are finite; no other member is asked about. */
  predicate FiniteReview(p: Record) {
    && Finite(p, {TRUST_SEQUENCE}) && Finite(PlanOf(p, SOURCE_IDENTITY), IDENTITY_NUMBERS)
    && Finite(PlanOf(p, TRUST_METADATA_POLICY_IDENTITY), IDENTITY_NUMBERS)
    && Finite(PlanOf(p, PUBLISHER_POLICY_IDENTITY), IDENTITY_NUMBERS)
    && Finite(PlanOf(p, TARGET_PLAN), GEOMETRY_NUMBERS + {SOURCE_FILE_SIZE, VALIDATION_DESCRIPTOR_COUNT})
    && Finite(PlanOf(p, FULL_FLASH_PLAN), GEOMETRY_NUMBERS + {STORE_UPDATE_TYPE, VALIDATION_DESCRIPTOR_COUNT})
    && Finite(PlanOf(p, TARGET_PREFLIGHT), GEOMETRY_NUMBERS + {KERNEL_DEVICE_ID})
  }

  /** So an infinite number in any other member, read or not, raises nothing. */
  lemma OnlyConvertedNumbersRaise(py: Python, payload: Json)
    requires payload.Obj? && FiniteReview(payload.members)
    ensures !NormalizeReview(py, payload).Escaped?
  {
    var p := payload.members;
    ReviewEscapesIff(py, payload);
    IdentityEnds(py, PlanOf(p, SOURCE_IDENTITY));
    IdentityEnds(py, PlanOf(p, TRUST_METADATA_POLICY_IDENTITY));
    IdentityEnds(py, PlanOf(p, PUBLISHER_POLICY_IDENTITY));
    PlansEnd(py, p, IntValue(py, PlanOf(p, SOURCE_IDENTITY), SIZE), Text(py, Get(p, DESCRIPTOR_PLAN_SHA256)));
  }

  lemma IdentityEnds(py: Python, m: Record)
    requires Finite(m, IDENTITY_NUMBERS)
    ensures !IdentityCheck(py, m).raises
  {
  }

  lemma PlansEnd(py: Python, p: Record, sourceSize: int, descriptor: string)
    requires FiniteReview(p)
    ensures !PlansCheck(py, p, sourceSize, descriptor).raises
  {
  }

  // ------------------------------------------------------------- the response

  /** Marked as attempted, copied, and then reviewed as it was before. */
  function ReproducedCheck(py: Python, p: Record): Check {
    Test(Is(p, EXECUTION_ATTEMPTED, true)).Then(Copy(py, Reproducing, Obj(p)))
      .Then(ReviewCheck(py, p[EXECUTION_ATTEMPTED := Bool(false)]))
  }

  lemma ReproducedFollows(py: Python, p: Record)
    ensures Follows(ReproducedReview(py, p), ReproducedCheck(py, p))
  {
    ReviewEscapesIff(py, Obj(p[EXECUTION_ATTEMPTED := Bool(false)]));
  }

  /** Correlation reviews the confirmed payload again; the rest only compares. */
  function CorrelateCheck(py: Python, p: Record, review: NormalReview, expected: Option<Json>): Check {
    if expected.None? then Test(true)
    else
      Test(expected.value.Obj?).Then(ReviewCheck(py, Members(expected.value)))
        .Then(Test(Correlate(py, p, review, expected).Value?))
  }

  lemma CorrelateEscapes(py: Python, p: Record, review: NormalReview, a: Json)
    ensures Correlate(py, p, review, Some(a)).Escaped? <==> NormalizeReview(py, a).Escaped?
    ensures Correlate(py, p, review, Some(a)).Value? ==> NormalizeReview(py, a).Value?
  {
  }

  lemma CorrelateFollows(py: Python, p: Record, review: NormalReview, expected: Option<Json>)
    ensures Follows(Correlate(py, p, review, expected), CorrelateCheck(py, p, review, expected))
  {
    if expected.Some? {
      ReviewEscapesIff(py, expected.value);
      CorrelateEscapes(py, p, review, expected.value);
    }
  }

  function CorrelatedCheck(py: Python, p: Record, review: NormalReview, expected: Option<Json>): Check {
    CorrelateCheck(py, p, review, expected)
      .Then(Test(ReadLinks(py, review, PlanOf(p, TARGET_PLAN), PlanOf(p, FULL_FLASH_PLAN),
          PlanOf(p, TARGET_PREFLIGHT)).Value?))
  }

  lemma CorrelatedFollows(py: Python, p: Record, review: NormalReview, expected: Option<Json>)
    ensures Follows(CorrelatedOf(py, p, review, expected), CorrelatedCheck(py, p, review, expected))
  {
    CorrelateFollows(py, p, review, expected);
  }

  /** The reviewed half of a response. */
  function HalfCheck(py: Python, a: Json, expected: Option<Json>): Check {
    if !a.Obj? then Test(false)
    else
      var review := ReproducedReview(py, a.members);
      if !review.Value? then ReproducedCheck(py, a.members) else CorrelatedCheck(py, a.members, review.value, expected)
  }

  lemma HalfFollows(py: Python, a: Json, expected: Option<Json>)
    ensures Follows(ReproducedOf(py, a, expected), HalfCheck(py, a, expected))
  {
    if a.Obj? {
      ReproducedFollows(py, a.members);
      var review := ReproducedReview(py, a.members);
      if review.Value? { CorrelatedFollows(py, a.members, review.value, expected); }
    }
  }

  /** The authorization converts its operation count. */
  function AuthorizationCheck(py: Python, target: Record, review: NormalReview, links: Links,
                              source: string, session: string, confirmation: string, a: Json): Check {
    var m := Members(a);
    Test(a.Obj? && Envelope(m, AUTHORIZATION_MODE)
         && AuthorizationLinks(py, target, m, links, source, session, confirmation))
      .Then(Number(py, m, OPERATION_COUNT, false))
      .Then(Test(SameMutation(m, review) && EqStr(m, CONFIRMATION_PHRASE, review.phrase)
                 && Flagged(m, AUTHORIZATION_ON, AUTHORIZATION_OFF) && Sha(py, Get(m, PLAN_SHA256)).Value?))
  }

  lemma AuthorizationFollows(py: Python, target: Record, review: NormalReview, links: Links,
                             source: string, session: string, confirmation: string, a: Json)
    ensures Follows(ReadAuthorization(py, target, review, links, source, session, confirmation, a),
                    AuthorizationCheck(py, target, review, links, source, session, confirmation, a))
  {
  }

  /** The records in front of it convert nothing. */
  function EvidenceCheck(py: Python, top: Record, half: Reproduced): Check {
    var target, preflight := PlanOf(half.p, TARGET_PLAN), PlanOf(half.p, TARGET_PREFLIGHT);
    var source := SourceLeaseSha(py, half.p, half.review, half.links, Get(top, SOURCE_LEASE));
    if !source.Value? then Test(false)
    else
      var session := TargetSessionSha(py, preflight, half.review, half.links, source.value, Get(top, TARGET_SESSION));
      if !session.Value? then Test(false)
      else
        var confirmation := ConfirmationSha(py, half.review, half.links, source.value, session.value,
            Get(top, CONFIRMATION));
        if !confirmation.Value? then Test(false)
        else
          AuthorizationCheck(py, target, half.review, half.links, source.value, session.value, confirmation.value,
                             Get(top, MUTATION_AUTHORIZATION))
  }

  lemma EvidenceFollows(py: Python, top: Record, half: Reproduced)
    ensures Follows(ReadEvidence(py, top, half.p, half.review, half.links, PlanOf(half.p, TARGET_PLAN),
        PlanOf(half.p, TARGET_PREFLIGHT)),
                    EvidenceCheck(py, top, half))
  {
    var target, preflight := PlanOf(half.p, TARGET_PLAN), PlanOf(half.p, TARGET_PREFLIGHT);
    var source := SourceLeaseSha(py, half.p, half.review, half.links, Get(top, SOURCE_LEASE));
    if source.Value? {
      var session := TargetSessionSha(py, preflight, half.review, half.links, source.value, Get(top, TARGET_SESSION));
      if session.Value? {
        var confirmation := ConfirmationSha(py, half.review, half.links, source.value, session.value,
            Get(top, CONFIRMATION));
        if confirmation.Value? {
          AuthorizationFollows(py, target, half.review, half.links, source.value, session.value, confirmation.value,
                               Get(top, MUTATION_AUTHORIZATION));
        }
      }
    }
  }

  /** The execution converts its two counts. */
  function VerdictCheck(py: Python, m: Record, planned: int, operations: int): Check {
    var status, written, completed :=
        StatusOutcome(py, m), IntValue(py, m, MUTATION_BYTES_WRITTEN), IntValue(py, m, OPERATION_COUNT_COMPLETED);
    Test(status.Value?).Then(Number(py, m, OPERATION_COUNT_COMPLETED, true))
        .Then(Number(py, m, MUTATION_BYTES_WRITTEN, true))
      .Then(Test(status.Value? && Consistent(py, m, status.value, written, planned, completed, operations)))
  }

  lemma VerdictFollows(py: Python, m: Record, planned: int, operations: int)
    ensures Follows(Verdict(py, m, planned, operations), VerdictCheck(py, m, planned, operations))
  {
  }

  function ExecutionCheck(py: Python, review: NormalReview, links: Links, e: Evidence, a: Json): Check {
    var m := Members(a);
    Test(a.Obj? && Envelope(m, EXECUTION_MODE)
         && ExecutionLinked(py, m, links, e.source, e.session, e.confirmation, e.auth)
            && ExecutionFields(m, review, e.auth.operations))
      .Then(VerdictCheck(py, m, review.mutation, e.auth.operations))
  }

  lemma ExecutionFollows(py: Python, review: NormalReview, links: Links, e: Evidence, a: Json)
    ensures Follows(ReadExecution(py, review, links, e.source, e.session, e.confirmation, e.auth, a),
                    ExecutionCheck(py, review, links, e, a))
  {
    VerdictFollows(py, Members(a), review.mutation, e.auth.operations);
  }

  /** Everything behind the reviewed half. */
  function RestCheck(py: Python, top: Record, half: Reproduced): Check {
    var e := ReadEvidence(py, top, half.p, half.review, half.links, PlanOf(half.p, TARGET_PLAN),
        PlanOf(half.p, TARGET_PREFLIGHT));
    if !e.Value? then EvidenceCheck(py, top, half)
    else ExecutionCheck(py, half.review, half.links, e.value, Get(top, EXECUTION))
  }

  /** The checks of `normalize_ffu_restore_output` on an object, in their order. */
  function RestoreCheck(py: Python, top: Record, expected: Option<Json>): Check {
    var half := ReadReproduced(py, top, expected);
    if !half.Value? then HalfCheck(py, Get(top, REVIEW), expected) else RestCheck(py, top, half.value)
  }

  /** A response raises exactly when it or the confirmed review holds an infinite
      number where one is converted, or its review nests deeper than it can be
      copied, and every check in front of that passes. */
  lemma RestoreEscapesIff(py: Python, payload: Json, expected: Option<Json>)
    ensures NormalizeRestore(py, payload, expected).Escaped? <==>
        payload.Obj? && RestoreCheck(py, payload.members, expected).raises
    ensures NormalizeRestore(py, payload, expected).Value? <==>
        payload.Obj? && RestoreCheck(py, payload.members, expected).passes
  {
    if payload.Obj? {
      var top := payload.members;
      HalfFollows(py, Get(top, REVIEW), expected);
      var half := ReadReproduced(py, top, expected);
      if half.Value? { RestFollows(py, top, half.value); }
    }
  }

  lemma RestFollows(py: Python, top: Record, half: Reproduced)
    requires half.p == RecordOf(top, REVIEW) && Is(half.p, EXECUTION_ATTEMPTED, true)
    requires Reviewed(py, half.p, half.review)
    requires Sha(py, Get(RecordOf(half.p, TARGET_PLAN), PLAN_SHA256)) == Value(half.links.targetPlan)
    requires Sha(py, Get(RecordOf(half.p, FULL_FLASH_PLAN), PLAN_SHA256)) == Value(half.links.fullPlan)
    requires Sha(py, Get(RecordOf(half.p, TARGET_PREFLIGHT), PLAN_SHA256)) == Value(half.links.preflight)
    ensures Follows(AfterReview(py, top, half), RestCheck(py, top, half))
  {
    EvidenceFollows(py, top, half);
    var e := ReadEvidence(py, top, half.p, half.review, half.links, PlanOf(half.p, TARGET_PLAN),
        PlanOf(half.p, TARGET_PREFLIGHT));
    if e.Value? { ExecutionFollows(py, half.review, half.links, e.value, Get(top, EXECUTION)); }
  }

  // ------------------------------------------------------------ two families

  /** A list of lists, n + 1 deep. */
  function Deep(n: nat): Json {
    if n == 0 then List([]) else List([Deep(n - 1)])
  }

  lemma {:induction false} DeepIsDeep(n: nat, levels: nat)
    requires levels <= n
    ensures !Within(Deep(n), levels)
  {
    if levels > 0 {
      DeepIsDeep(n - 1, levels - 1);
      assert Deep(n).items[0] == Deep(n - 1);
    }
  }

  /** The response with one more member in its review. */
  function WithDeepMember(py: Python, top: Record, key: Key): Record {
    top[REVIEW := Obj(PlanOf(top, REVIEW)[key := Deep(py.copyLimit(Reproducing))])]
  }

  /** Whatever accepted response one starts from, a deeply nested member of its
      review, read or not, raises. */
  lemma DeepMemberEscapes(py: Python, payload: Json, expected: Option<Json>, key: Key)
    requires NormalizeRestore(py, payload, expected).Value? && key != EXECUTION_ATTEMPTED
    ensures NormalizeRestore(py, Obj(WithDeepMember(py, payload.members, key)), expected) == Escaped
  {
    var top := payload.members;
    assert Chained(py, top, NormalizeRestore(py, payload, expected).value);
    var changed := WithDeepMember(py, top, key);
    var p := PlanOf(changed, REVIEW);
    DeepReviewRaises(py, PlanOf(top, REVIEW), key);
    assert Get(changed, REVIEW) == Obj(p);
    assert ReproducedOf(py, Obj(p), expected) == Escaped;
  }

  lemma DeepReviewRaises(py: Python, p: Record, key: Key)
    requires Is(p, EXECUTION_ATTEMPTED, true) && key != EXECUTION_ATTEMPTED
    ensures ReproducedReview(py, p[key := Deep(py.copyLimit(Reproducing))]) == Escaped
  {
    var limit := py.copyLimit(Reproducing);
    var changed := p[key := Deep(limit)];
    if limit > 0 {
      DeepIsDeep(limit, limit - 1);
      assert changed[key] == Deep(limit);
    }
    assert !Within(Obj(changed), limit);
  }
}
