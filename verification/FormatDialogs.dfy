/** `FreeDOSFormatDialog` and `NonBootableFormatDialog`. The two classes share
    every handler but the ones that read the choice widgets; `kind` selects those. */
module FormatDialogs {
  import opened Base
  import opened FormatProtocol

  datatype Kind = FreeDos | DataOnly

  lemma UpperIdempotent(s: string)
    ensures Upper(Upper(s)) == Upper(s)
  {
  }

  class FormatDialog {
    const kind: Kind
    const target: Target
    var scheme: string
    var filesystem: string
    var volumeLabel: string
    var plan: Option<Plan>
    var confirmation: string
    var runButton: bool
    var running: bool
    var closed: bool
    var planGeneration: nat
    var runGeneration: nat
    ghost var pending: multiset<Request>
    ghost var runs: multiset<nat>
    ghost var launches: seq<Launch>

    /** `current_label` and `current_choices`. */
    function CurrentChoices(): Choice
      reads this
    {
      match kind
      case FreeDos => Media(Upper(volumeLabel))
      case DataOnly => Layout(scheme, filesystem, if filesystem == "fat16" || filesystem == "fat32"
          then Upper(volumeLabel) else volumeLabel)
    }

    ghost function Abstract(): State
      reads this
    {
      State(CurrentChoices(), plan, confirmation, runButton, running, closed, planGeneration, runGeneration, pending,
          runs, launches)
    }

    constructor (kind: Kind, target: Target, scheme: string, filesystem: string, volumeLabel: string)
      ensures this.kind == kind && this.target == target
      ensures this.scheme == scheme && this.filesystem == filesystem && this.volumeLabel == volumeLabel
      ensures Abstract() == Start(target, CurrentChoices())
    {
      this.kind, this.target := kind, target;
      this.scheme, this.filesystem, this.volumeLabel := scheme, filesystem, volumeLabel;
      plan, confirmation, runButton, running, closed := None, "", false, false, false;
      planGeneration, runGeneration := 0, 0;
      pending, runs, launches := multiset{}, multiset{}, [];
      new;
      RefreshPlan();
    }

    method ConfirmationChanged()
      modifies this`runButton
      ensures Abstract() == Arm(old(Abstract()))
    {
      var enabled := false;
      if plan.Some? && !running {
        enabled := Strip(confirmation) == plan.value.phrase;
      }
      runButton := enabled;
    }

    method SetConfirmation(text: string)
      modifies this`confirmation, this`runButton
      ensures Abstract() == SetText(old(Abstract()), text)
    {
      if confirmation != text {
        confirmation := text;
        ConfirmationChanged();
      }
    }

    method RefreshPlan()
      modifies this`planGeneration, this`plan, this`runButton, this`pending
      ensures Abstract() == Ask(target, old(Abstract()))
    {
      if running || closed { return; }
      ghost var s := Abstract();
      planGeneration := planGeneration + 1;
      var choice := CurrentChoices();
      plan := None;
      runButton := false;
      assert Abstract() == s.(planGeneration := s.planGeneration + 1, plan := None, enabled := false);
      if target.accepts(choice) {
        Expect(Request(planGeneration, choice));
      } else {
        PlanReady(planGeneration, Failed);
      }
    }

    /** A planner thread starts. */
    ghost method Expect(request: Request)
      modifies this`pending
      ensures Abstract() == old(Abstract()).(pending := old(pending) + multiset{request})
    {
      pending := pending + multiset{request};
    }

    /** `_plan_ready`: an empty exception text stores nothing and cuts the
        handler short. */
    method PlanReady(generation: nat, outcome: Outcome)
      modifies this`plan, this`runButton
      ensures Abstract() ==
        var s := old(Abstract());
        if s.closed || s.running || generation != s.planGeneration then s
        else
          match outcome
          case Planned(p) => Arm(s.(plan := Some(p)))
          case Failed => Arm(s.(plan := None))
          case Mute => s.(plan := None)
    {
      if closed || running || generation != planGeneration { return; }
      match outcome {
        case Failed => plan := None;
        case Mute => plan := None; return;
        case Planned(p) => plan := Some(p);
      }
      ConfirmationChanged();
    }

    /** The common end of `selection_changed`. */
    method Replan()
      requires !running && !closed
      modifies this`planGeneration, this`plan, this`runButton, this`pending, this`confirmation
      ensures Abstract() == Next(target, old(Abstract()), Edit(old(CurrentChoices())))
    {
      ghost var s := Abstract();
      plan := None;
      assert Abstract() == s.(choice := s.choice, plan := None);
      SetConfirmation("");
      assert Abstract() == SetText(s.(choice := s.choice, plan := None), "");
      RefreshPlan();
    }

    /** The FreeDOS handler rewrites the entry in upper case, which fires the
        signal again; the second activation finds canonical text. */
    method SelectionChanged()
      requires !running && !closed
      modifies this
      ensures scheme == old(scheme) && filesystem == old(filesystem)
      ensures volumeLabel == if kind.FreeDos? then Upper(old(volumeLabel)) else old(volumeLabel)
      ensures Abstract() == Next(target, old(Abstract()), Edit(old(CurrentChoices())))
      decreases if kind.FreeDos? && Upper(volumeLabel) != volumeLabel then 1 else 0
    {
      if running { return; }
      if kind.FreeDos? {
        var value := Upper(volumeLabel);
        UpperIdempotent(volumeLabel);
        if value != volumeLabel {
          ghost var s := Abstract();
          volumeLabel := value;
          assert Abstract() == s;
          SelectionChanged();
          return;
        }
      }
      Replan();
    }

    /** The user edits the widgets; signals fire only while they are sensitive. */
    method EditChoices(newScheme: string, newFilesystem: string, newLabel: string)
      requires !running && !closed
      requires kind.FreeDos? ==> newScheme == scheme && newFilesystem == filesystem
      requires newScheme != scheme || newFilesystem != filesystem || newLabel != volumeLabel
      modifies this
      ensures Abstract() == Next(target, old(Abstract()), Edit(CurrentChoices()))
      ensures CurrentChoices() == match kind
        case FreeDos => Media(Upper(newLabel))
        case DataOnly => Layout(newScheme, newFilesystem, if newFilesystem == "fat16" || newFilesystem == "fat32"
            then Upper(newLabel) else newLabel)
    {
      ghost var s := Abstract();
      scheme, filesystem, volumeLabel := newScheme, newFilesystem, newLabel;
      UpperIdempotent(newLabel);
      assert Abstract() == s.(choice := CurrentChoices());
      SelectionChanged();
    }

    method DeliverReply(request: Request, outcome: Outcome)
      requires Possible(target, Abstract(), Reply(request, outcome))
      modifies this`plan, this`runButton, this`pending
      ensures Abstract() == Next(target, old(Abstract()), Reply(request, outcome))
    {
      pending := pending - multiset{request};
      PlanReady(request.generation, outcome);
    }

    method SetRunning(value: bool)
      modifies this`running, this`runButton
      ensures Abstract() == if value then old(Abstract()).(running := true, enabled := false)
                            else Arm(old(Abstract()).(running := false))
    {
      running := value;
      runButton := false;
      if !running { ConfirmationChanged(); }
    }

    /** `start_run`; the cancellation path and the fixed program paths decide
        whether the command can be built. */
    method StartRun(commandBuilds: bool)
      requires !closed
      modifies this
      ensures Abstract() == Next(target, old(Abstract()), Click(commandBuilds))
    {
      if running || plan.None? { return; }
      var expected := plan.value.phrase;
      if Strip(confirmation) != expected { return; }
      var choice := CurrentChoices();
      if !commandBuilds || !target.accepts(choice) { return; }
      launches := launches + [Launch(target.device, target.identity, choice, Strip(confirmation), plan.value)];
      runGeneration := runGeneration + 1;
      SetRunning(true);
      runs := runs + multiset{runGeneration};
    }

    method RunReady(generation: nat, reported: bool)
      requires Possible(target, Abstract(), Done(generation, reported))
      modifies this
      ensures Abstract() == Next(target, old(Abstract()), Done(generation, reported))
    {
      ghost var s := Abstract();
      runs := runs - multiset{generation};
      ghost var rest := Abstract();
      assert rest == s.(runs := s.runs - multiset{generation});
      if closed || generation != runGeneration { return; }
      FinishRun(reported);
    }

    method FinishRun(reported: bool)
      modifies this`running, this`runButton, this`confirmation, this`plan
      ensures Abstract() ==
        var stopped := SetText(Arm(old(Abstract()).(running := false)), "");
        if reported then stopped.(plan := None) else stopped
    {
      SetRunning(false);
      SetConfirmation("");
      if reported { plan := None; }
    }

    method OnDeleteEvent() returns (veto: bool)
      requires !closed
      modifies this
      ensures veto == old(running) && Abstract() == Next(target, old(Abstract()), Close)
    {
      if running { return true; }
      closed := true;
      planGeneration := planGeneration + 1;
      runGeneration := runGeneration + 1;
      return false;
    }
  }
}
