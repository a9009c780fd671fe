/** `FFUReviewDialog` of gui/rufusarm64_ffu_dialog.py. */
module FfuDialog {
  import opened Base
  import opened PythonJson
  import opened FfuKeys
  import opened FfuReview
  import opened FfuRestore
  import opened FfuProtocol

  class FfuReviewDialog {
    const env: Environment
    var inputs: Inputs
    var review: Option<NormalReview>
    var reviewPayload: Option<Json>
    var restoreAttempted: bool
    var confirmation: string
    var generation: nat
    var running: bool
    var restoring: bool
    var cancelRequested: bool
    var closed: bool
    var message: Option<Verdict>
    ghost var pending: multiset<Job>
    ghost var lost: bool
    ghost var accepted: seq<Accepted>
    ghost var launches: seq<Launch>

    ghost function Abstract(): State
      reads this
    {
      State(inputs, review, reviewPayload, restoreAttempted, confirmation, generation, running, restoring,
          cancelRequested,
            closed, message, pending, lost, accepted, launches)
    }

    constructor (env: Environment, inputs: Inputs)
      ensures this.env == env && Abstract() == Start(inputs)
    {
      this.env, this.inputs := env, inputs;
      review, reviewPayload, restoreAttempted, confirmation := None, None, false, "";
      generation, running, restoring, cancelRequested, closed, message := 0, false, false, false, false, None;
      pending, lost, accepted, launches := multiset{}, false, [], [];
    }

    method InvalidateReview()
      modifies this`review, this`reviewPayload, this`restoreAttempted, this`confirmation
      ensures Abstract() == Invalidate(old(Abstract()))
    {
      review := None;
      reviewPayload := None;
      restoreAttempted := false;
      confirmation := "";
    }

    method SetRunning(value: bool, restore: bool)
      modifies this`running, this`restoring
      ensures Abstract() == old(Abstract()).(running := value, restoring := value && restore)
    {
      running := value;
      restoring := running && restore;
    }

    /** The user picks another trust input; `review_input_changed`. */
    method EditInputs(newInputs: Inputs)
      requires !running && !closed
      modifies this
      ensures Abstract() == Next(env, old(Abstract()), Edit(newInputs))
    {
      inputs := newInputs;
      if !running && reviewPayload.Some? {
        InvalidateReview();
      }
    }

    method TypeConfirmation(text: string)
      requires !closed
      modifies this`confirmation
      ensures Abstract() == Next(env, old(Abstract()), Type(text))
    {
      confirmation := text;
    }

    /** `start_review`: a command that cannot be built leaves the old review in
        place. */
    method StartReview(commandBuilds: bool)
      requires !closed
      modifies this
      ensures Abstract() == Next(env, old(Abstract()), ClickReview(commandBuilds))
    {
      if running { return; }
      if !commandBuilds { return; }
      generation := generation + 1;
      InvalidateReview();
      SetRunning(true, false);
      pending := pending + multiset{ReviewJob(generation, inputs)};
    }

    /** `_finish_review`. */
    method FinishReview(job: Job, m: ReviewMessage)
      requires job.ReviewJob?
      modifies this
      ensures Abstract() == FfuProtocol.FinishReview(env, old(Abstract()), job, m)
    {
      if closed || job.generation != generation { return; }
      SetRunning(false, false);
      if m.failed {
        InvalidateReview();
        return;
      }
      var payload := if m.payload.Some? then m.payload.value else Null;
      match env.review(payload) {
        case Rejected => InvalidateReview();
        case Escaped =>
        case Value(normal) =>
          review := Some(normal);
          if !env.keeps(payload) { return; }
          reviewPayload := Some(payload);
          restoreAttempted := false;
          accepted := accepted + [Accepted(payload, job.inputs)];
      }
    }

    /** `start_restore`: the review is spent before its payload is copied. */
    method StartRestore()
      requires !closed
      modifies this
      ensures Abstract() == Next(env, old(Abstract()), ClickRestore)
    {
      if running || reviewPayload.None? || restoreAttempted { return; }
      var command := env.command(reviewPayload.value, confirmation);
      if !command.Value? { return; }
      Spend();
      if env.starts(reviewPayload.value) { BeginRestore(command.value); }
    }

    /** The stored review is used up. */
    method Spend()
      modifies this`restoreAttempted, this`cancelRequested, this`generation
      ensures Abstract() == old(Abstract()).(attempted := true, cancelRequested := false,
                                             generation := old(generation) + 1)
    {
      restoreAttempted := true;
      cancelRequested := false;
      generation := generation + 1;
    }

    /** The restore worker starts. */
    method BeginRestore(argv: Argv)
      requires reviewPayload.Some?
      modifies this`running, this`restoring, this`pending, this`launches
      ensures Abstract() == old(Abstract()).(running := true, restoring := true,
                                             pending := old(pending) + multiset{RestoreJob(generation,
                                             reviewPayload.value)},
                                             launches := old(launches)
                                             + [Launch(argv, |accepted| - 1, inputs, confirmation)])
    {
      launches := launches + [Launch(argv, |accepted| - 1, inputs, confirmation)];
      SetRunning(true, true);
      pending := pending + multiset{RestoreJob(generation, reviewPayload.value)};
    }

    method CancelRestore()
      requires !closed
      modifies this`cancelRequested
      ensures Abstract() == Next(env, old(Abstract()), Event.Cancel)
    {
      if !running || !restoring { return; }
      cancelRequested := true;
    }

    /** `_finish_restore`. */
    method FinishRestore(g: nat, m: RestoreMessage)
      modifies this
      ensures Abstract() == FfuProtocol.FinishRestore(old(Abstract()), g, m)
    {
      if closed || g != generation { return; }
      cancelRequested := false;
      SetRunning(false, false);
      if m.normalized.Some? && !m.uncertain {
        match m.normalized.value.outcome {
          case Verified => message := Some(RestoredAndVerified);
          case Unchanged => message := Some(DidNotWrite);
          case PartiallyModified => message := Some(MayBeModified);
          case WrittenUnverified => message := Some(MayBeModified);
        }
      } else {
        message := Some(StateUnknown);
      }
      review := None;
      reviewPayload := None;
    }

    ghost method Retire(job: Job)
      modifies this`pending
      ensures Abstract() == old(Abstract()).(pending := old(pending) - multiset{job})
    {
      pending := pending - multiset{job};
    }

    ghost method Lose()
      modifies this`lost
      ensures Abstract() == old(Abstract()).(lost := true)
    {
      lost := true;
    }

    /** The review worker ends and its message, if it posted one, is handled. */
    method ReviewEnds(job: Job, capture: Capture, exitedCleanly: bool)
      requires job.ReviewJob? && job in pending
      modifies this
      ensures Abstract() == Delivered(env, old(Abstract()), job, capture, exitedCleanly)
    {
      Retire(job);
      var posted := ReviewWorker(env, capture, exitedCleanly);
      if posted.Value? { FinishReview(job, posted.value); } else { Lose(); }
    }

    /** The restore worker ends likewise. */
    method RestoreEnds(job: Job, capture: Capture, exitedCleanly: bool)
      requires job.RestoreJob? && job in pending
      modifies this
      ensures Abstract() == Delivered(env, old(Abstract()), job, capture, exitedCleanly)
    {
      Retire(job);
      var posted := RestoreWorker(env, capture, job.reviewed);
      if posted.Value? { FinishRestore(job.generation, posted.value); } else { Lose(); }
    }

    method OnDeleteEvent() returns (veto: bool)
      requires !closed
      modifies this
      ensures veto == old(running) && Abstract() == Next(env, old(Abstract()), Close)
    {
      if running { return true; }
      closed := true;
      generation := generation + 1;
      return false;
    }
  }
}
