/** What the FFU dialog must do: in every reachable state a click starts a restore
    exactly when an unspent, unmounted review is confirmed by its phrase, and every
    acceptable review can be brought to a restore. The command is stated on the
    fields of the review as it arrived. */
module FfuRuns {
  import opened Base
  import opened PythonJson
  import opened FfuKeys
  import opened FfuReview
  import opened FfuRestore
  import opened FfuProtocol

  /** The phrase for the drive a review is about. */
  function Wanted(py: Python, p: Record): string {
    var g := GeometryOf(py, PlanOf(p, TARGET_PLAN));
    "RESTORE AUTHENTICATED FFU TO " + g.path + " SIZE " + Decimal(if g.size < 0 then 0 else g.size) + " BYTES"
  }

  predicate Unmounted(p: Record) {
    Get(PlanOf(p, TARGET_PREFLIGHT), UNMOUNT_REQUIRED) == Bool(false)
  }

  /** The command of a review. */
  function Command(py: Python, pkexec: string, helper: string, p: Record, typed: string): Argv {
    var g := GeometryOf(py, PlanOf(p, TARGET_PLAN));
    Argv(Text(py, Str(pkexec)), Text(py, Str(helper)), Text(py, Get(p, SOURCE_PATH)), g.path, g.identity, g.size,
         g.logical, g.physical, Text(py, Get(p, TRUST_STORE_ROOT)), Text(py, Get(p, TRUST_METADATA_POLICY_PATH)),
         Text(py, Get(p, PUBLISHER_POLICY_PATH)), typed, Text(py, Get(p, REVIEW_BINDING_SHA256)))
  }

  predicate Programs(py: Python, pkexec: string, helper: string) {
    Path(py, Str(pkexec), false).Value? && Path(py, Str(helper), false).Value?
  }

  /** An accepted review repeats its fields. */
  lemma ReviewRepeats(py: Python, payload: Json)
    requires NormalizeReview(py, payload).Value?
    ensures var r, p := NormalizeReview(py, payload).value, payload.members;
      && r.sourcePath == Text(py, Get(p, SOURCE_PATH)) && r.trustStoreRoot == Text(py, Get(p, TRUST_STORE_ROOT))
      && r.metadataPolicy == Text(py, Get(p, TRUST_METADATA_POLICY_PATH))
      && r.publisherPolicy == Text(py, Get(p, PUBLISHER_POLICY_PATH))
      && r.binding == Text(py, Get(p, REVIEW_BINDING_SHA256))
      && (r.mounts == [] <==> Unmounted(p))
  {
    var p := payload.members;
    HeaderRepeats(py, p);
    var header := ReadHeader(py, p).value;
    PlansMirrorMounts(py, p, header.sourceSize, header.descriptor);
  }

  lemma HeaderRepeats(py: Python, p: Record)
    requires ReadHeader(py, p).Value?
    ensures var h := ReadHeader(py, p).value;
      && h.sourcePath == Text(py, Get(p, SOURCE_PATH)) && h.trustStoreRoot == Text(py, Get(p, TRUST_STORE_ROOT))
      && h.metadataPolicy == Text(py, Get(p, TRUST_METADATA_POLICY_PATH))
      && h.publisherPolicy == Text(py, Get(p, PUBLISHER_POLICY_PATH))
      && h.binding == Text(py, Get(p, REVIEW_BINDING_SHA256))
  {
  }

  lemma PlansMirrorMounts(py: Python, p: Record, sourceSize: int, descriptor: string)
    requires ReadPlans(py, p, sourceSize, descriptor).Value?
    ensures ReadPlans(py, p, sourceSize, descriptor).value.mounts == [] <==> Unmounted(p)
  {
  }

  /** A command is built for an accepted, unmounted review and its exact phrase,
      and for nothing else. */
  lemma CommandIff(py: Python, pkexec: string, helper: string, payload: Json, typed: string)
    ensures BuildRestoreCommand(py, pkexec, helper, payload, typed).Value? <==>
      && Programs(py, pkexec, helper) && NormalizeReview(py, payload).Value?
      && Unmounted(payload.members) && typed == Wanted(py, payload.members)
    ensures BuildRestoreCommand(py, pkexec, helper, payload, typed).Value? ==>
      BuildRestoreCommand(py, pkexec, helper, payload, typed)
      == Value(Command(py, pkexec, helper, payload.members, typed))
  {
    if NormalizeReview(py, payload).Value? {
      ReviewRepeats(py, payload);
      assert Reviewed(py, payload.members, NormalizeReview(py, payload).value);
    }
  }

  // ------------------------------------------------------------- the click

  /** An unspent review is confirmed, and nothing runs. */
  predicate Confirmed(py: Python, pkexec: string, helper: string, s: State) {
    && !s.running && s.payload.Some? && !s.attempted && Programs(py, pkexec, helper)
    && s.payload.value.Obj? && Unmounted(s.payload.value.members)
    && s.confirmation == Wanted(py, s.payload.value.members)
  }

  /** In every reachable open state a click adds exactly one launch, of the command
      of the stored review, if and only if that review is unspent, unmounted and
      confirmed and its payload can be copied. A review that is confirmed is spent
      either way. */
  lemma ClickRestoresIff(py: Python, pkexec: string, helper: string, inputs: Inputs, events: seq<Event>, s: State)
    requires s == Run(FfuProtocol.Real(py, pkexec, helper), Start(inputs), events) && !s.closed
    ensures var n := Next(FfuProtocol.Real(py, pkexec, helper), s, ClickRestore);
      if Confirmed(py, pkexec, helper, s) then
        n.attempted && if Within(s.payload.value, py.copyLimit(Starting)) then
          var argv := Command(py, pkexec, helper, s.payload.value.members, s.confirmation);
          n.running && n.restoring && n.launches
              == s.launches + [Launch(argv, |s.accepted| - 1, s.inputs, s.confirmation)]
        else !n.running && n.launches == s.launches
      else n == s
  {
    var env := FfuProtocol.Real(py, pkexec, helper);
    EveryReachableState(env, inputs, events);
    if s.payload.Some? { CommandIff(py, pkexec, helper, s.payload.value, s.confirmation); }
    ClickFromHere(env, s);
  }

  lemma ClickFromHere(env: Environment, s: State)
    requires Inv(env, s) && !s.closed
    ensures var n := Next(env, s, ClickRestore);
      if !s.running && s.payload.Some? && !s.attempted && env.command(s.payload.value, s.confirmation).Value? then
        n.attempted && if env.starts(s.payload.value) then
          var argv := env.command(s.payload.value, s.confirmation).value;
          n.running && n.restoring && n.launches
              == s.launches + [Launch(argv, |s.accepted| - 1, s.inputs, s.confirmation)]
        else !n.running && n.launches == s.launches
      else n == s
  {
  }

  // --------------------------------------------------- a review is brought up

  lemma ReviewAsks(env: Environment, s: State)
    requires Inv(env, s) && !s.closed && !s.running
    ensures Next(env, s, ClickReview(true))
         == s.(review := None, payload := None, attempted := false, confirmation := "", generation := s.generation + 1,
               running := true, restoring := false, pending := multiset{ReviewJob(s.generation + 1, s.inputs)})
  {
  }

  lemma ReviewStores(env: Environment, s: State, payload: Json, review: NormalReview)
    requires !s.closed && s.pending == multiset{ReviewJob(s.generation, s.inputs)}
    requires env.review(payload) == Value(review) && env.keeps(payload)
    ensures Next(env, s, Deliver(ReviewJob(s.generation, s.inputs), Parsed(payload), true))
         == s.(running := false, restoring := false, review := Some(review), payload := Some(payload),
               attempted := false, accepted := s.accepted + [Accepted(payload, s.inputs)], pending := multiset{})
  {
  }

  lemma RunStep(env: Environment, start: State, events: seq<Event>, e: Event, before: State, after: State)
    requires Run(env, start, events) == before && Next(env, before, e) == after
    ensures Run(env, start, events + [e]) == after
  {
    assert (events + [e])[..|events|] == events;
  }

  lemma LeadsFrom(env: Environment, s: State, payload: Json, typed: string)
      returns (asked: State, stored: State, ready: State, n: State)
    requires Inv(env, s) && !s.closed && !s.running
    requires env.review(payload).Value? && env.keeps(payload) && env.starts(payload)
    requires env.command(payload, typed).Value?
    ensures Next(env, s, ClickReview(true)) == asked
    ensures Next(env, asked, Deliver(ReviewJob(s.generation + 1, s.inputs), Parsed(payload), true)) == stored
    ensures Next(env, stored, Type(typed)) == ready && Next(env, ready, ClickRestore) == n
    ensures n.running && n.restoring && n.payload == Some(payload)
    ensures n.launches == s.launches + [Launch(env.command(payload, typed).value, |s.accepted|, s.inputs, typed)]
  {
    ReviewAsks(env, s);
    asked := Next(env, s, ClickReview(true));
    ReviewStores(env, asked, payload, env.review(payload).value);
    stored := Next(env, asked, Deliver(ReviewJob(s.generation + 1, s.inputs), Parsed(payload), true));
    ready := stored.(confirmation := typed);
    n := Next(env, ready, ClickRestore);
  }

  lemma RunsThrough(env: Environment, start: State, events: seq<Event>, s: State, job: Job, payload: Json,
          typed: string, asked: State, stored: State, ready: State, n: State)
    requires Run(env, start, events) == s && Next(env, s, ClickReview(true)) == asked
    requires Next(env, asked, Deliver(job, Parsed(payload), true)) == stored
    requires Next(env, stored, Type(typed)) == ready && Next(env, ready, ClickRestore) == n
    ensures Run(env, start, events + [ClickReview(true)] + [Deliver(job, Parsed(payload), true)] + [Type(typed)]
              + [ClickRestore]) == n
  {
    var one, two, three := events + [ClickReview(true)], [Deliver(job, Parsed(payload), true)], [Type(typed)];
    RunStep(env, start, events, ClickReview(true), s, asked);
    RunStep(env, start, one, Deliver(job, Parsed(payload), true), asked, stored);
    RunStep(env, start, one + two, Type(typed), stored, ready);
    RunStep(env, start, one + two + three, ClickRestore, ready, n);
  }

  /** For any validators: from every reachable state at rest, an accepted review
      whose command can be built leads to a restore. */
  lemma AcceptedLeadsToRestore(env: Environment, inputs: Inputs, events: seq<Event>, s: State, payload: Json,
      typed: string)
    requires s == Run(env, Start(inputs), events) && !s.closed && !s.running
    requires env.review(payload).Value? && env.keeps(payload) && env.starts(payload)
    requires env.command(payload, typed).Value?
    ensures var job := ReviewJob(s.generation + 1, s.inputs);
            var all := events + [ClickReview(true)] + [Deliver(job, Parsed(payload), true)] + [Type(typed)]
              + [ClickRestore];
            var n := Run(env, Start(inputs), all);
            && n.running && n.restoring && n.payload == Some(payload)
            && n.launches == s.launches + [Launch(env.command(payload, typed).value, |s.accepted|, s.inputs, typed)]
  {
    EveryReachableState(env, inputs, events);
    var asked, stored, ready, n := LeadsFrom(env, s, payload, typed);
    RunsThrough(env, Start(inputs), events, s, ReviewJob(s.generation + 1, s.inputs), payload, typed, asked, stored,
                ready, n);
  }

  /** With the dialog's own checks: every unmounted review they accept, and that
      can be copied, is restored once its phrase is typed. */
  lemma EveryReviewCanBeRestored(py: Python, pkexec: string, helper: string, inputs: Inputs, events: seq<Event>,
      s: State,
          payload: Json)
    requires s == Run(FfuProtocol.Real(py, pkexec, helper), Start(inputs), events) && !s.closed && !s.running
    requires NormalizeReview(py, payload).Value? && Unmounted(payload.members) && Programs(py, pkexec, helper)
    requires Within(payload, py.copyLimit(Keeping)) && Within(payload, py.copyLimit(Starting))
    ensures var job, typed := ReviewJob(s.generation + 1, s.inputs), Wanted(py, payload.members);
            var all := events + [ClickReview(true)] + [Deliver(job, Parsed(payload), true)] + [Type(typed)]
              + [ClickRestore];
            var n := Run(FfuProtocol.Real(py, pkexec, helper), Start(inputs), all);
            && n.running && n.restoring && n.payload == Some(payload)
            && n.launches == s.launches
               + [Launch(Command(py, pkexec, helper, payload.members, typed), |s.accepted|, s.inputs, typed)]
  {
    var typed := Wanted(py, payload.members);
    CommandIff(py, pkexec, helper, payload, typed);
    AcceptedLeadsToRestore(FfuProtocol.Real(py, pkexec, helper), inputs, events, s, payload, typed);
  }

  /** When a restore's completion is posted, the review behind it is used up. */
  lemma RestoreSpendsReview(env: Environment, inputs: Inputs, events: seq<Event>, s: State, capture: Capture,
          exitedCleanly: bool)
    requires s == Run(env, Start(inputs), events) && s.restoring && !s.lost
    ensures var n := Next(env, s, Deliver(CurrentJob(s), capture, exitedCleanly));
            n.lost || (n.review == None && n.payload == None && !n.running && !n.cancelRequested && n.shown.Some?
                       && n.launches == s.launches)
  {
    EveryReachableState(env, inputs, events);
  }

  /** Cancellation is only ever asked of a restore, and forgotten with it. */
  lemma {:induction false} CancelledWhileRestoring(env: Environment, inputs: Inputs, events: seq<Event>)
    ensures var s := Run(env, Start(inputs), events); s.cancelRequested ==> s.restoring
    decreases |events|
  {
    EveryReachableState(env, inputs, events);
    if events != [] {
      var before := events[..|events| - 1];
      CancelledWhileRestoring(env, inputs, before);
      EveryReachableState(env, inputs, before);
      CancelStays(env, Run(env, Start(inputs), before), events[|events| - 1]);
    }
  }

  lemma CancelStays(env: Environment, s: State, e: Event)
    requires Inv(env, s) && (s.cancelRequested ==> s.restoring)
    ensures Next(env, s, e).cancelRequested ==> Next(env, s, e).restoring
  {
    if Possible(s, e) && e.Deliver? { assert e.job == CurrentJob(s); }
  }
}
