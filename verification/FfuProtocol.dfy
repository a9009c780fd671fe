/** The review / confirm / restore protocol of the FFU dialog. A click counts
    whether or not its button is sensitive: the handlers' own guards carry the
    protocol. The trust choosers cannot be edited while an operation runs. */
module FfuProtocol {
  import opened Base
  import opened PythonJson
  import opened FfuKeys
  import opened FfuReview
  import opened FfuRestore
  import opened FfuBinding
  import FfuEscapes

  datatype Inputs = Inputs(trustStore: string, metadataPolicy: string, publisherPolicy: string)

  /** A worker thread that still owes its completion. */
  datatype Job = ReviewJob(generation: nat, inputs: Inputs) | RestoreJob(generation: nat, reviewed: Json)

  /** What a worker captured: an operating-system or capture error, output that
      is empty or is not strict JSON, or a JSON value. */
  datatype Capture = Broken | Silent | Garbage | Parsed(payload: Json)

  /** The final message of a restore. */
  datatype Verdict = RestoredAndVerified | DidNotWrite | MayBeModified | StateUnknown

  /** An accepted review and the inputs it was started with. */
  datatype Accepted = Accepted(payload: Json, inputs: Inputs)

  datatype Launch = Launch(argv: Argv, review: int, inputs: Inputs, typed: string)

  /** The validators and the command builder the handlers call, and whether a
      payload can be copied when its review is kept and when a restore starts; the
      protocol itself does not depend on what they check. */
  datatype Environment = Environment(
    review: Json -> Got<NormalReview>, restore: (Json, Json) -> Got<Restore>, command: (Json, string) -> Got<Argv>,
    keeps: Json -> bool, starts: Json -> bool)

  /** The ones the dialog calls. */
  ghost function Real(py: Python, pkexec: string, helper: string): Environment {
    Environment(payload => NormalizeReview(py, payload),
                (payload, reviewed) => NormalizeRestore(py, payload, Some(reviewed)),
                (payload, typed) => BuildRestoreCommand(py, pkexec, helper, payload, typed),
                payload => Within(payload, py.copyLimit(Keeping)), payload => Within(payload, py.copyLimit(Starting)))
  }

  datatype State = State(
    inputs: Inputs, review: Option<NormalReview>, payload: Option<Json>, attempted: bool, confirmation: string,
    generation: nat, running: bool, restoring: bool, cancelRequested: bool, closed: bool, shown: Option<Verdict>,
    pending: multiset<Job>, lost: bool, accepted: seq<Accepted>, launches: seq<Launch>)

  datatype Event =
    | Edit(inputs: Inputs)
    | Type(text: string)
    | ClickReview(commandBuilds: bool)
    | ClickRestore
    | Deliver(job: Job, capture: Capture, exitedCleanly: bool)
    | Cancel
    | Close

  // ------------------------------------------------------------- workers

  /** What `_run_review` posts: the payload, if a failure text accompanies it. */
  datatype ReviewMessage = ReviewMessage(payload: Option<Json>, failed: bool)

  function ReviewWorker(env: Environment, capture: Capture, exitedCleanly: bool): (r: Got<ReviewMessage>)
    ensures !r.Rejected?
  {
    match capture
    case Parsed(payload) =>
      (match env.review(payload)
       case Value(_) => Value(ReviewMessage(Some(payload), !exitedCleanly))
       case Rejected => Value(ReviewMessage(Some(payload), true))
       case Escaped => Escaped)
    case _ => Value(ReviewMessage(None, true))
  }

  /** What `_run_restore` posts. */
  datatype RestoreMessage = RestoreMessage(normalized: Option<Restore>, uncertain: bool)

  function RestoreWorker(env: Environment, capture: Capture, reviewed: Json): (r: Got<RestoreMessage>)
    ensures !r.Rejected?
    ensures r.Value? ==> (r.value.normalized.Some? <==> !r.value.uncertain)
  {
    match capture
    case Parsed(payload) =>
      (match env.restore(payload, reviewed)
       case Value(restore) => Value(RestoreMessage(Some(restore), false))
       case Rejected => Value(RestoreMessage(None, true))
       case Escaped => Escaped)
    case _ => Value(RestoreMessage(None, true))
  }

  /** The message `_finish_restore` shows. */
  function VerdictOf(m: RestoreMessage): Verdict {
    if m.normalized.Some? && !m.uncertain then
      (match m.normalized.value.outcome
       case Verified => RestoredAndVerified
       case Unchanged => DidNotWrite
       case PartiallyModified => MayBeModified
       case WrittenUnverified => MayBeModified)
    else StateUnknown
  }

  // ---------------------------------------------------------- transitions

  function Start(inputs: Inputs): State {
    State(inputs, None, None, false, "", 0, false, false, false, false, None, multiset{}, false, [], [])
  }

  /** `invalidate_review`. */
  function Invalidate(s: State): State {
    s.(review := None, payload := None, attempted := false, confirmation := "")
  }

  predicate Possible(s: State, e: Event) {
    match e
    case Edit(_) => !s.running && !s.closed
    case Deliver(job, _, _) => job in s.pending
    case _ => !s.closed
  }

  /** The completion of a review, after its message was posted. A payload that
      cannot be copied leaves the handler with the review stored, but not the
      payload. */
  function FinishReview(env: Environment, s: State, job: Job, m: ReviewMessage): State
    requires job.ReviewJob?
  {
    if s.closed || job.generation != s.generation then s
    else
      var stopped := s.(running := false, restoring := false);
      if m.failed then Invalidate(stopped)
      else
        var payload := if m.payload.Some? then m.payload.value else Null;
        match env.review(payload)
        case Value(review) =>
          if !env.keeps(payload) then stopped.(review := Some(review))
          else
            stopped.(review := Some(review), payload := Some(payload), attempted := false,
                     accepted := stopped.accepted + [Accepted(payload, job.inputs)])
        case Rejected => Invalidate(stopped)
        case Escaped => stopped
  }

  function FinishRestore(s: State, generation: nat, m: RestoreMessage): State {
    if s.closed || generation != s.generation then s
    else s.(cancelRequested := false, running := false, restoring := false, shown := Some(VerdictOf(m)), review := None,
        payload := None)
  }

  /** A worker ends: an uncaught conversion error posts nothing. */
  function Delivered(env: Environment, s: State, job: Job, capture: Capture, exitedCleanly: bool): State {
    var rest := s.(pending := s.pending - multiset{job});
    match job
    case ReviewJob(_, _) =>
      (match ReviewWorker(env, capture, exitedCleanly)
       case Value(m) => FinishReview(env, rest, job, m)
       case _ => rest.(lost := true))
    case RestoreJob(generation, reviewed) =>
      (match RestoreWorker(env, capture, reviewed)
       case Value(m) => FinishRestore(rest, generation, m)
       case _ => rest.(lost := true))
  }

  /** `start_restore`: the review is spent before its payload is copied. */
  function StartRestore(env: Environment, s: State): State {
    if s.running || s.payload.None? || s.attempted then s
    else
      match env.command(s.payload.value, s.confirmation)
      case Value(argv) =>
        var spent := s.(attempted := true, cancelRequested := false, generation := s.generation + 1);
        if !env.starts(s.payload.value) then spent
        else
          spent.(running := true, restoring := true,
                 pending := s.pending + multiset{RestoreJob(s.generation + 1, s.payload.value)},
                 launches := s.launches + [Launch(argv, |s.accepted| - 1, s.inputs, s.confirmation)])
      case _ => s
  }

  function Next(env: Environment, s: State, e: Event): State {
    if !Possible(s, e) then s
    else
      match e
      case Edit(inputs) =>
        var edited := s.(inputs := inputs);
        if s.payload.Some? then Invalidate(edited) else edited
      case Type(text) => s.(confirmation := text)
      case ClickReview(commandBuilds) =>
        if s.running || !commandBuilds then s
        else
          Invalidate(s).(generation := s.generation + 1, running := true, restoring := false,
                         pending := s.pending + multiset{ReviewJob(s.generation + 1, s.inputs)})
      case ClickRestore => StartRestore(env, s)
      case Deliver(job, capture, exitedCleanly) => Delivered(env, s, job, capture, exitedCleanly)
      case Cancel => if s.running && s.restoring then s.(cancelRequested := true) else s
      case Close => if s.running then s else s.(closed := true, generation := s.generation + 1)
  }

  function Run(env: Environment, s: State, events: seq<Event>): State
    decreases |events|
  {
    if events == [] then s else Next(env, Run(env, s, events[..|events| - 1]), events[|events| - 1])
  }

  // ------------------------------------------------------------ invariant

  /** A stored review is the last one accepted, for the inputs still selected. */
  ghost predicate ReviewCurrent(env: Environment, s: State) {
    && (s.payload.Some? ==>
          && s.review.Some? && s.accepted != [] && s.accepted[|s.accepted| - 1] == Accepted(s.payload.value, s.inputs)
          && env.review(s.payload.value) == Value(s.review.value))
  }

  /** The command was built from an accepted review, by its exact phrase, while
      the inputs of that review were selected. */
  ghost predicate Authorized(env: Environment, s: State, l: Launch) {
    && 0 <= l.review < |s.accepted| && s.accepted[l.review].inputs == l.inputs
    && env.command(s.accepted[l.review].payload, l.typed) == Value(l.argv)
  }

  ghost predicate LaunchesAuthorized(env: Environment, s: State) {
    && (forall i :: 0 <= i < |s.launches| ==> Authorized(env, s, s.launches[i]))
    && (forall i, j :: 0 <= i < j < |s.launches| ==> s.launches[i].review < s.launches[j].review)
    && (s.launches != [] && s.payload.Some? && !s.attempted ==> s.launches[|s.launches| - 1].review < |s.accepted| - 1)
  }

  function CurrentJob(s: State): Job {
    if s.restoring && s.payload.Some? then RestoreJob(s.generation, s.payload.value)
        else ReviewJob(s.generation, s.inputs)
  }

  /** One worker runs exactly while the dialog does, and it is the current one. */
  ghost predicate JobsCurrent(s: State) {
    && (s.restoring ==>
          s.running && s.payload.Some? && s.attempted && s.launches != []
          && s.launches[|s.launches| - 1].review == |s.accepted| - 1)
    && (s.running ==> !s.closed) && (s.running && !s.restoring ==> s.payload.None?)
    && (s.lost ==> s.running)
    && s.pending == (if s.running && !s.lost then multiset{CurrentJob(s)} else multiset{})
  }

  ghost predicate Inv(env: Environment, s: State) {
    ReviewCurrent(env, s) && LaunchesAuthorized(env, s) && JobsCurrent(s)
  }

  // --------------------------------------------------------------- proofs

  lemma DeliverKeeps(env: Environment, s: State, job: Job, capture: Capture, exitedCleanly: bool)
    requires Inv(env, s) && job in s.pending
    ensures Inv(env, Delivered(env, s, job, capture, exitedCleanly))
  {
    assert job == CurrentJob(s) && job.generation == s.generation && s.running && !s.lost;
    assert s.pending - multiset{job} == multiset{};
    if job.ReviewJob? {
      ReviewDeliveryKeeps(env, s, job, capture, exitedCleanly);
    } else {
      RestoreDeliveryKeeps(env, s, job, capture, exitedCleanly);
    }
  }

  lemma ReviewDeliveryKeeps(env: Environment, s: State, job: Job, capture: Capture, exitedCleanly: bool)
    requires Inv(env, s) && s.pending == multiset{job} && job == CurrentJob(s) && job.ReviewJob? && s.running && !s.lost
    ensures Inv(env, Delivered(env, s, job, capture, exitedCleanly))
  {
    var rest := s.(pending := s.pending - multiset{job});
    match ReviewWorker(env, capture, exitedCleanly) {
      case Value(m) => FinishedReviewKeeps(env, rest, job, m);
      case _ => SameLaunches(env, s, rest.(lost := true));
    }
  }

  lemma SameLaunches(env: Environment, s: State, t: State)
    requires t.launches == s.launches && s.accepted <= t.accepted
    requires forall i :: 0 <= i < |s.launches| ==> Authorized(env, s, s.launches[i])
    ensures forall i :: 0 <= i < |t.launches| ==> Authorized(env, t, t.launches[i])
  {
    forall i | 0 <= i < |t.launches| ensures Authorized(env, t, t.launches[i]) {
      assert Authorized(env, s, s.launches[i]);
    }
  }

  lemma FinishedReviewKeeps(env: Environment, s: State, job: Job, m: ReviewMessage)
    requires ReviewCurrent(env, s) && LaunchesAuthorized(env, s) && s.running && !s.restoring && s.payload.None?
    requires job == ReviewJob(s.generation, s.inputs) && s.pending == multiset{} && !s.lost && !s.closed
    ensures Inv(env, FinishReview(env, s, job, m))
  {
    SameLaunches(env, s, FinishReview(env, s, job, m));
  }

  lemma RestoreDeliveryKeeps(env: Environment, s: State, job: Job, capture: Capture, exitedCleanly: bool)
    requires Inv(env, s) && s.pending == multiset{job} && job == CurrentJob(s) && job.RestoreJob? && s.running
    requires !s.lost
    ensures Inv(env, Delivered(env, s, job, capture, exitedCleanly))
  {
    var next := Delivered(env, s, job, capture, exitedCleanly);
    forall i | 0 <= i < |next.launches| ensures Authorized(env, next, next.launches[i]) {
      assert Authorized(env, s, s.launches[i]);
    }
  }

  lemma LaunchKeeps(env: Environment, s: State)
    requires Inv(env, s) && !s.closed
    ensures Inv(env, StartRestore(env, s))
  {
    var next := StartRestore(env, s);
    forall i | 0 <= i < |next.launches| ensures Authorized(env, next, next.launches[i]) {
      if i < |s.launches| { assert Authorized(env, s, s.launches[i]); }
    }
  }

  lemma StepKeeps(env: Environment, s: State, e: Event)
    requires Inv(env, s)
    ensures Inv(env, Next(env, s, e))
  {
    if Possible(s, e) {
      match e
      case ClickRestore => LaunchKeeps(env, s);
      case Deliver(job, capture, exitedCleanly) => DeliverKeeps(env, s, job, capture, exitedCleanly);
      case _ => InputKeeps(env, s, e);
    }
  }

  lemma InputKeeps(env: Environment, s: State, e: Event)
    requires Inv(env, s) && Possible(s, e) && !e.ClickRestore? && !e.Deliver?
    ensures Inv(env, Next(env, s, e))
  {
    SameLaunches(env, s, Next(env, s, e));
  }

  lemma {:induction false} EveryReachableState(env: Environment, inputs: Inputs, events: seq<Event>)
    ensures Inv(env, Run(env, Start(inputs), events))
    decreases |events|
  {
    if events != [] {
      var before := events[..|events| - 1];
      EveryReachableState(env, inputs, before);
      StepKeeps(env, Run(env, Start(inputs), before), events[|events| - 1]);
    }
  }

  /** Every restore ever launched was built from an accepted review of the inputs
      selected at that moment; no two launches share a review. */
  lemma LaunchesAreReviewed(env: Environment, inputs: Inputs, events: seq<Event>)
    ensures var s := Run(env, Start(inputs), events);
            && (forall i :: 0 <= i < |s.launches| ==> Authorized(env, s, s.launches[i]))
            && (forall i, j :: 0 <= i < j < |s.launches| ==> s.launches[i].review != s.launches[j].review)
  {
    EveryReachableState(env, inputs, events);
  }

  /** While an operation runs, its completion is outstanding under the current
      generation and ends it, unless a conversion error has swallowed it. */
  lemma ResultIsNeverStale(env: Environment, inputs: Inputs, events: seq<Event>, capture: Capture, exitedCleanly: bool)
    ensures var s := Run(env, Start(inputs), events);
            s.running && !s.lost ==>
              && s.pending == multiset{CurrentJob(s)} && CurrentJob(s).generation == s.generation
              && var after := Next(env, s, Deliver(CurrentJob(s), capture, exitedCleanly));
                 after.lost || !after.running
  {
    EveryReachableState(env, inputs, events);
  }

  /** Once a completion has been swallowed the dialog can never be closed or
      used again. */
  lemma {:induction false} SwallowedForever(env: Environment, s: State, events: seq<Event>)
    requires Inv(env, s) && s.lost
    ensures Run(env, s, events).lost && Run(env, s, events).running && Run(env, s, events).launches == s.launches
    ensures Inv(env, Run(env, s, events))
    decreases |events|
  {
    if events != [] {
      var before := events[..|events| - 1];
      SwallowedForever(env, s, before);
      StepKeeps(env, Run(env, s, before), events[|events| - 1]);
    }
  }

  // ------------------------------------------- with the real validators

  /** The argv repeats the review: its drive, its capacity, no mounts, and the
      phrase that was typed. */
  ghost predicate Deliberate(review: NormalReview, l: Launch) {
    && review.mounts == [] && l.typed == review.phrase == l.argv.confirm
    && l.argv.device == review.targetPath && l.argv.identity == review.targetIdentity
    && l.argv.size == review.targetSize
  }

  lemma LaunchesAreDeliberate(py: Python, pkexec: string, helper: string, inputs: Inputs, events: seq<Event>, i: nat)
    requires i < |Run(Real(py, pkexec, helper), Start(inputs), events).launches|
    ensures var s := Run(Real(py, pkexec, helper), Start(inputs), events);
            var l := s.launches[i];
            && 0 <= l.review < |s.accepted| && NormalizeReview(py, s.accepted[l.review].payload).Value?
            && Deliberate(NormalizeReview(py, s.accepted[l.review].payload).value, l)
  {
    var env := Real(py, pkexec, helper);
    LaunchesAreReviewed(env, inputs, events);
    var s := Run(env, Start(inputs), events);
    assert Authorized(env, s, s.launches[i]);
  }

  /** A completion is swallowed exactly by a response whose checks raise: an
      infinite number that is converted, or a review nested too deeply to be
      copied, with every check in front of it passed. */
  lemma SwallowedIff(py: Python, pkexec: string, helper: string, s: State, job: Job, capture: Capture,
          exitedCleanly: bool)
    requires !s.lost
    ensures Delivered(Real(py, pkexec, helper), s, job, capture, exitedCleanly).lost <==>
      && capture.Parsed? && capture.payload.Obj?
      && match job
         case ReviewJob(_, _) => FfuEscapes.ReviewCheck(py, capture.payload.members).raises
         case RestoreJob(_, reviewed) => FfuEscapes.RestoreCheck(py, capture.payload.members, Some(reviewed)).raises
  {
    LostIff(Real(py, pkexec, helper), s, job, capture, exitedCleanly);
    if capture.Parsed? {
      if job.ReviewJob? {
        FfuEscapes.ReviewEscapesIff(py, capture.payload);
      } else {
        FfuEscapes.RestoreEscapesIff(py, capture.payload, Some(job.reviewed));
      }
    }
  }

  lemma LostIff(env: Environment, s: State, job: Job, capture: Capture, exitedCleanly: bool)
    requires !s.lost
    ensures Delivered(env, s, job, capture, exitedCleanly).lost <==>
      && capture.Parsed?
      && match job
         case ReviewJob(_, _) => env.review(capture.payload).Escaped?
         case RestoreJob(_, reviewed) => env.restore(capture.payload, reviewed).Escaped?
  {
  }

  /** The "did not write" message needs accepted evidence of zero bytes written,
      no mutation and no cancellation after one; a rejected response, silence or
      a capture error always leads to the unknown-state message. */
  lemma UntouchedIsProved(py: Python, pkexec: string, helper: string, capture: Capture, reviewed: Json,
          m: RestoreMessage)
    requires RestoreWorker(Real(py, pkexec, helper), capture, reviewed) == Value(m)
    ensures VerdictOf(m) == DidNotWrite ==>
              && capture.Parsed? && NormalizeRestore(py, capture.payload, Some(reviewed)) == Value(m.normalized.value)
              && var execution := RecordOf(Members(capture.payload), EXECUTION);
                 && m.normalized.value.written == 0 && Get(execution, MUTATION_STARTED) != Bool(true)
                 && Get(execution, TARGET_MAY_BE_PARTIALLY_MODIFIED) != Bool(true)
                 && Get(execution, CANCELLED_AFTER_MUTATION) != Bool(true)
    ensures !capture.Parsed? || NormalizeRestore(py, capture.payload, Some(reviewed)).Rejected? ==>
        VerdictOf(m) == StateUnknown
  {
    if capture.Parsed? && m.normalized.Some? {
      UnchangedMeansUntouched(py, capture.payload, Some(reviewed));
    }
  }

  /** What the dialog shows when a current restore ends with accepted evidence,
      read off the execution record itself. */
  ghost predicate ShowsRecord(m: Record, status: string, written: int, planned: int, shown: Option<Verdict>) {
    && (shown == Some(RestoredAndVerified) <==> Get(m, EXECUTION_SUCCEEDED) == Bool(true))
    && (shown == Some(MayBeModified) <==> Get(m, TARGET_MAY_BE_PARTIALLY_MODIFIED) == Bool(true))
    && (shown == Some(RestoredAndVerified) ==>
          && Get(m, WRITE_COMPLETED) == Bool(true) && Get(m, SYNC_COMPLETED) == Bool(true)
          && Get(m, READBACK_COMPLETED) == Bool(true) && Get(m, TARGET_MAY_BE_PARTIALLY_MODIFIED) == Bool(false)
          && Get(m, ERROR_OBSERVED) == Bool(false) && written == planned)
    && (shown == Some(MayBeModified) ==> Get(m, MUTATION_STARTED) == Bool(true))
    && (shown == Some(DidNotWrite) ==> written == 0 && Get(m, MUTATION_STARTED) != Bool(true))
    && (shown == Some(RestoredAndVerified) <==> status == "verified")
    && (shown == Some(DidNotWrite) <==> status == "not-started")
    && (shown == Some(MayBeModified) <==> status == "partially-modified" || status == "written-unverified")
  }

  /** The same for a whole response. */
  ghost predicate ShowsResponse(py: Python, top: Record, shown: Option<Verdict>) {
    var m, plan := RecordOf(top, EXECUTION), RecordOf(ReviewRecord(top), TARGET_PLAN);
    ShowsRecord(m, RawText(py, Get(m, STATUS)), IntValue(py, m, MUTATION_BYTES_WRITTEN),
                IntValue(py, plan, MUTATION_BYTES), shown)
  }

  predicate Proves(py: Python, capture: Capture, reviewed: Json) {
    capture.Parsed? && NormalizeRestore(py, capture.payload, Some(reviewed)).Value?
  }

  /** In every reachable state in which a restore runs, its end shows what the
      execution record of an accepted response says, and that the state of the
      drive is unknown for everything else that is posted. */
  lemma MessageFollowsRecord(py: Python, pkexec: string, helper: string, inputs: Inputs, events: seq<Event>,
          capture: Capture, exitedCleanly: bool)
    requires var s := Run(Real(py, pkexec, helper), Start(inputs), events); s.restoring && !s.lost && s.payload.Some?
    ensures var env := Real(py, pkexec, helper);
            var s := Run(env, Start(inputs), events);
            var after := Next(env, s, Deliver(CurrentJob(s), capture, exitedCleanly));
            if Proves(py, capture, s.payload.value) then ShowsResponse(py, Members(capture.payload), after.shown)
            else after.lost || after.shown == Some(StateUnknown)
  {
    var env := Real(py, pkexec, helper);
    EveryReachableState(env, inputs, events);
    var s := Run(env, Start(inputs), events);
    EndIsShown(env, s, capture, exitedCleanly);
    if Proves(py, capture, s.payload.value) { ResponseIsShown(py, capture.payload, s.payload.value); }
  }

  lemma EndIsShown(env: Environment, s: State, capture: Capture, exitedCleanly: bool)
    requires Inv(env, s) && s.restoring && !s.lost && s.payload.Some?
    ensures var after := Next(env, s, Deliver(CurrentJob(s), capture, exitedCleanly));
            if capture.Parsed? && env.restore(capture.payload, s.payload.value).Value? then
              var r := env.restore(capture.payload, s.payload.value).value;
              after.shown == Some(VerdictOf(RestoreMessage(Some(r), false)))
            else after.lost || after.shown == Some(StateUnknown)
  {
  }

  lemma ResponseIsShown(py: Python, payload: Json, reviewed: Json)
    requires NormalizeRestore(py, payload, Some(reviewed)).Value?
    ensures var r := NormalizeRestore(py, payload, Some(reviewed)).value;
            ShowsResponse(py, Members(payload), Some(VerdictOf(RestoreMessage(Some(r), false))))
  {
    StatusDecides(py, payload, Some(reviewed));
    OutcomeIsShown(py, payload.members, NormalizeRestore(py, payload, Some(reviewed)).value);
  }

  lemma OutcomeIsShown(py: Python, top: Record, r: Restore)
    requires Chained(py, top, r)
    requires var m := RecordOf(top, EXECUTION);
      && IntValue(py, m, MUTATION_BYTES_WRITTEN) == r.written
      && match RawText(py, Get(m, STATUS))
         case "verified" => r.outcome == Verified
         case "not-started" => r.outcome == Unchanged
         case "partially-modified" => r.outcome == PartiallyModified
         case status => status == "written-unverified" && r.outcome == WrittenUnverified
    ensures ShowsResponse(py, top, Some(VerdictOf(RestoreMessage(Some(r), false))))
  {
  }

  /** Accepted evidence is about the drive the running command was given. */
  lemma EvidenceIsAboutTheLaunch(py: Python, pkexec: string, helper: string, inputs: Inputs, events: seq<Event>,
          payload: Json)
    requires var s := Run(Real(py, pkexec, helper), Start(inputs), events);
             s.restoring && s.payload.Some? && NormalizeRestore(py, payload, Some(s.payload.value)).Value?
    ensures var s := Run(Real(py, pkexec, helper), Start(inputs), events);
            && s.launches != []
            && var argv, r := s.launches[|s.launches| - 1].argv,
               NormalizeRestore(py, payload, Some(s.payload.value)).value;
               r.targetPath == argv.device && r.targetIdentity == argv.identity && r.targetSize == argv.size
                   && r.binding == argv.binding
  {
    var env := Real(py, pkexec, helper);
    EveryReachableState(env, inputs, events);
    var s := Run(env, Start(inputs), events);
    var last := s.launches[|s.launches| - 1];
    assert Authorized(env, s, last);
    EvidenceNamesTheCommand(py, pkexec, helper, s.payload.value, last.typed, payload);
  }
}
