/** `DriveImageBackupDialog` with its raw/VHD/VHDX and filesystem-ISO layers:
    every handler refines one transition of the flat protocol. */
module BackupDialog {
  import opened Base
  import opened BackupProtocol

  class DriveImageBackupDialog {
    const target: Target
    var selection: Format
    var outputPath: string
    var plan: Option<Plan>
    var confirmation: string
    var runButton: bool
    var running: bool
    var closed: bool
    var planGeneration: nat
    var runGeneration: nat
    ghost var pending: multiset<Request>
    ghost var runs: multiset<nat>
    ghost var launches: seq<Launch>

    ghost function Abstract(): State
      reads this
    {
      State(selection, outputPath, plan, confirmation, runButton, running, closed, planGeneration, runGeneration,
          pending, runs, launches)
    }

    constructor (target: Target)
      ensures this.target == target && Abstract() == START
    {
      this.target := target;
      selection, outputPath, plan, confirmation, runButton := Raw, "", None, "", false;
      running, closed, planGeneration, runGeneration := false, false, 0, 0;
      pending, runs, launches := multiset{}, multiset{}, [];
    }

    // ------------------------------------------------ confirmation_changed

    /** The base handler: the phrase of the selected device and path. */
    method BaseConfirmationChanged(taken: set<string>)
      requires selection != Iso
      modifies this`runButton
      ensures Abstract() == Arm(target, old(Abstract()), taken)
    {
      var enabled := false;
      if plan.Some? && outputPath != "" && !running {
        var expected := SavePhrase(target.device, outputPath);
        enabled := expected.Some? && Strip(confirmation) == expected.value && outputPath !in taken;
      }
      runButton := enabled;
    }

    /** The ISO layer: the phrase of the stored plan. */
    method ConfirmationChanged(taken: set<string>)
      modifies this`runButton
      ensures Abstract() == Arm(target, old(Abstract()), taken)
    {
      if selection != Iso {
        BaseConfirmationChanged(taken);
        return;
      }
      var enabled := false;
      if plan.Some? && outputPath != "" && !running && plan.value.format == Iso {
        enabled := Strip(confirmation) == IsoPhrase(plan.value) && outputPath !in taken;
      }
      runButton := enabled;
    }

    /** `Gtk.Entry.set_text`: the changed signal fires on a real change. */
    method SetConfirmation(text: string, taken: set<string>)
      modifies this`confirmation, this`runButton
      ensures Abstract() == SetText(target, old(Abstract()), text, taken)
    {
      if confirmation != text {
        confirmation := text;
        ConfirmationChanged(taken);
      }
    }

    // -------------------------------------------------------- refresh_plan

    /** The raw/VHD/VHDX layer. */
    method FormatsRefreshPlan(taken: set<string>)
      requires selection != Iso
      modifies this`planGeneration, this`plan, this`runButton, this`pending
      ensures Abstract() == Ask(target, old(Abstract()), taken)
    {
      if running || outputPath == "" { return; }
      ghost var s := Abstract();
      planGeneration := planGeneration + 1;
      plan := None;
      runButton := false;
      ghost var asked := s.(planGeneration := s.planGeneration + 1, plan := None, enabled := false);
      assert Abstract() == asked;
      if !CanBuild(target, selection, outputPath, taken) { return; }
      pending := pending + multiset{Request(planGeneration, selection, outputPath)};
      assert Abstract() == asked.(pending := asked.pending
          + multiset{Request(asked.planGeneration, s.selection, s.outputPath)});
    }

    /** The ISO layer. */
    method RefreshPlan(taken: set<string>)
      modifies this`planGeneration, this`plan, this`runButton, this`pending
      ensures Abstract() == Ask(target, old(Abstract()), taken)
    {
      if selection != Iso {
        FormatsRefreshPlan(taken);
        return;
      }
      if running || outputPath == "" { return; }
      planGeneration := planGeneration + 1;
      plan := None;
      runButton := false;
      if !CanBuild(target, Iso, outputPath, taken) { return; }
      pending := pending + multiset{Request(planGeneration, Iso, outputPath)};
    }

    // -------------------------------------- format_changed, destination

    method FormatChanged(format: Format, taken: set<string>)
      requires Possible(target, Abstract(), Select(format))
      modifies this
      ensures Abstract() == Next(target, old(Abstract()), Select(format), taken)
    {
      if format == selection { return; }
      ghost var s := Abstract();
      selection := format;
      if running { return; }
      planGeneration := planGeneration + 1;
      plan := None;
      outputPath := "";
      ghost var cleared := s.(selection := format, planGeneration := s.planGeneration + 1, plan := None,
          outputPath := "");
      assert Abstract() == cleared;
      SetConfirmation("", taken);
      assert Abstract() == SetText(target, cleared, "", taken);
      ConfirmationChanged(taken);
      assert Abstract() == Arm(target, SetText(target, cleared, "", taken), taken);
    }

    method ChooseDestination(filename: string, taken: set<string>)
      requires Possible(target, Abstract(), Choose(filename))
      modifies this
      ensures Abstract() == Next(target, old(Abstract()), Choose(filename), taken)
    {
      if running || filename == "" { return; }
      var path := filename;
      if !HasExtension(path, selection) {
        path := path + Extension(selection);
      }
      if path in taken {
        plan := None;
        outputPath := "";
        SetConfirmation("", taken);
        return;
      }
      outputPath := path;
      plan := None;
      SetConfirmation("", taken);
      RefreshPlan(taken);
    }

    // ---------------------------------------------------------- _plan_ready

    /** The base handler; storing precedes the phrase, whose failure cuts the
        handler short. */
    method BasePlanReady(generation: nat, outcome: Outcome, taken: set<string>)
      requires selection != Iso
      modifies this`plan, this`runButton
      ensures Abstract() ==
        var s := old(Abstract());
        if s.closed || s.running || generation != s.planGeneration then s
        else if Announces(target, s, outcome) then Arm(target, s.(plan := Stored(outcome)), taken)
        else s.(plan := Stored(outcome))
    {
      if closed || generation != planGeneration || running { return; }
      if outcome.Failed? {
        plan := None;
      } else {
        plan := if outcome.Planned? then Some(outcome.plan) else None;
        if plan.None? || SavePhrase(target.device, outputPath).None? { return; }
      }
      ConfirmationChanged(taken);
    }

    /** The ISO layer catches its own validation errors. */
    method PlanReady(request: Request, outcome: Outcome, taken: set<string>)
      requires Possible(target, Abstract(), Reply(request, outcome))
      modifies this`plan, this`runButton, this`pending
      ensures Abstract() == Next(target, old(Abstract()), Reply(request, outcome), taken)
    {
      pending := pending - multiset{request};
      if selection != Iso {
        BasePlanReady(request.generation, outcome, taken);
        return;
      }
      if closed || request.generation != planGeneration || running { return; }
      if outcome.Planned? { plan := Some(outcome.plan); } else { plan := None; }
      ConfirmationChanged(taken);
    }

    // ------------------------------------------------------------ start_run

    method SetRunning(value: bool, taken: set<string>)
      modifies this`running, this`runButton
      ensures Abstract() == if value then old(Abstract()).(running := true, enabled := false)
                            else Arm(target, old(Abstract()).(running := false), taken)
    {
      running := value;
      runButton := false;
      if !running { ConfirmationChanged(taken); }
    }

    /** A run worker starts under a fresh generation. */
    method BeginRun(launch: Launch, taken: set<string>)
      modifies this`launches, this`runGeneration, this`running, this`runButton, this`runs
      ensures Abstract() == old(Abstract()).(runGeneration := old(runGeneration) + 1, running := true, enabled := false,
                                             runs := old(runs) + multiset{old(runGeneration) + 1}, launches :=
                                             old(launches) + [launch])
    {
      launches := launches + [launch];
      runGeneration := runGeneration + 1;
      SetRunning(true, taken);
      runs := runs + multiset{runGeneration};
    }

    /** The raw/VHD/VHDX layer: the phrase of the fields, then the format check. */
    method FormatsStartRun(taken: set<string>)
      requires selection != Iso && !closed
      modifies this
      ensures Abstract() == Next(target, old(Abstract()), Click, taken)
    {
      if running || plan.None? || outputPath == "" { return; }
      var expected := SavePhrase(target.device, outputPath);
      if expected.None? || Strip(confirmation) != expected.value { return; }
      if plan.value.format != selection { return; }
      if target.pkexec == "" || !CanBuild(target, selection, outputPath, taken) { return; }
      var argv := RunImage(target.device, outputPath, selection, target.identity);
      BeginRun(Launch(argv, Strip(confirmation), plan.value), taken);
    }

    /** The ISO layer: it takes its own format and passes on the others. */
    method StartRun(taken: set<string>)
      requires !closed
      modifies this
      ensures Abstract() == Next(target, old(Abstract()), Click, taken)
    {
      if selection != Iso {
        FormatsStartRun(taken);
      } else {
        IsoStartRun(taken);
      }
    }

    /** The phrase and the command of the stored ISO plan. */
    method IsoStartRun(taken: set<string>)
      requires selection == Iso && !closed
      modifies this
      ensures Abstract() == Next(target, old(Abstract()), Click, taken)
    {
      if running || plan.None? || outputPath == "" || plan.value.format != Iso { return; }
      var p := plan.value;
      if Strip(confirmation) != IsoPhrase(p) { return; }
      if target.pkexec == "" || !CanBuild(target, Iso, outputPath, taken) { return; }
      if p.device != target.device || p.identity != target.identity { return; }
      if p.path != outputPath { return; }
      var argv := RunIso(target.device, outputPath, target.identity, p.node, p.mount, p.binding, p.content, p.volume);
      BeginRun(Launch(argv, Strip(confirmation), p), taken);
    }

    // ------------------------------------------------------------ _run_ready

    /** Both layers of `_run_ready` make the same transition; the stored plan's
        format only selects the wording. */
    method RunReady(generation: nat, report: Report, taken: set<string>)
      requires Possible(target, Abstract(), Done(generation, report))
      modifies this
      ensures Abstract() == Next(target, old(Abstract()), Done(generation, report), taken)
    {
      Retire(generation);
      if closed || generation != runGeneration { return; }
      FinishRun(report, taken);
    }

    ghost method Retire(generation: nat)
      modifies this`runs
      ensures Abstract() == old(Abstract()).(runs := old(runs) - multiset{generation})
    {
      runs := runs - multiset{generation};
    }

    method FinishRun(report: Report, taken: set<string>)
      modifies this`running, this`runButton, this`confirmation, this`plan
      ensures Abstract() ==
        var stopped := SetText(target, Arm(target, old(Abstract()).(running := false), taken), "", taken);
        if report.NoReport? then stopped else stopped.(plan := None)
    {
      SetRunning(false, taken);
      SetConfirmation("", taken);
      if report.Reported? { plan := None; }
    }

    method OnDeleteEvent(taken: set<string>) returns (veto: bool)
      requires !closed
      modifies this
      ensures veto == old(running)
      ensures Abstract() == Next(target, old(Abstract()), Close, taken)
    {
      if running { return true; }
      closed := true;
      planGeneration := planGeneration + 1;
      runGeneration := runGeneration + 1;
      return false;
    }
  }
}
