/** What the backup dialog must do: in every reachable state a click starts a run
    exactly when the user has confirmed the stored plan, and every plan can be
    brought to a run. Commands and phrases are written out here in full. */
module BackupRuns {
  import opened Base
  import opened BackupProtocol

  /** The phrase of a plan. */
  function Wanted(plan: Plan): string {
    if plan.format == Iso then
      "SAVE FILESYSTEM " + plan.node + " AT " + plan.mount + " ON " + plan.device + " TO " + plan.path
    else "SAVE " + plan.device + " TO " + plan.path
  }

  /** The command of a plan. */
  function Command(plan: Plan): Argv {
    if plan.format == Iso then
      RunIso(plan.device, plan.path, plan.identity, plan.node, plan.mount, plan.binding, plan.content, plan.volume)
    else RunImage(plan.device, plan.path, plan.format, plan.identity)
  }

  // ------------------------------------------------------- plans are usable

  /** The lasting part of what a command needs. */
  predicate Sound(t: Target, format: Format, path: string) {
    && t.binary != "" && "/dev/" <= t.device && Strip(t.identity) != "" && "/" <= path
    && (format == Iso ==> HasExtension(path, Iso))
  }

  ghost predicate AllSound(t: Target, s: State) {
    && (forall r :: r in s.pending ==> Sound(t, r.format, r.path))
    && (s.plan.Some? ==> Sound(t, s.plan.value.format, s.plan.value.path))
  }

  lemma AskKeepsSound(t: Target, s: State, taken: set<string>)
    requires AllSound(t, s)
    ensures AllSound(t, Ask(t, s, taken))
  {
  }

  lemma ReplyKeepsSound(t: Target, s: State, request: Request, outcome: Outcome, taken: set<string>)
    requires AllSound(t, s) && Possible(t, s, Reply(request, outcome))
    ensures AllSound(t, Next(t, s, Reply(request, outcome), taken))
  {
  }

  /** What neither asks nor stores a plan. */
  lemma StillSound(t: Target, s: State, n: State)
    requires AllSound(t, s) && n.pending == s.pending && (n.plan == s.plan || n.plan == None)
    ensures AllSound(t, n)
  {
  }

  lemma ChooseKeepsSound(t: Target, s: State, filename: string, taken: set<string>)
    requires AllSound(t, s)
    ensures AllSound(t, Next(t, s, Choose(filename), taken))
  {
    if Possible(t, s, Choose(filename)) && filename != "" {
      var path := WithExtension(filename, s.selection);
      if path in taken {
        StillSound(t, s, SetText(t, s.(plan := None, outputPath := ""), "", taken));
      } else {
        var cleared := SetText(t, s.(outputPath := path, plan := None), "", taken);
        StillSound(t, s, cleared);
        AskKeepsSound(t, cleared, taken);
      }
    }
  }

  lemma StepKeepsSound(t: Target, s: State, e: Event, taken: set<string>)
    requires AllSound(t, s)
    ensures AllSound(t, Next(t, s, e, taken))
  {
    if Possible(t, s, e) {
      match e
      case Choose(filename) => ChooseKeepsSound(t, s, filename, taken);
      case Reply(request, outcome) => ReplyKeepsSound(t, s, request, outcome, taken);
      case _ => StillSound(t, s, Next(t, s, e, taken));
    }
  }

  lemma {:induction false} PlansAreSound(t: Target, events: seq<(Event, set<string>)>)
    ensures Inv(t, Run(t, START, events)) && AllSound(t, Run(t, START, events))
    decreases |events|
  {
    EveryReachableState(t, events);
    if events != [] {
      var before, last := events[..|events| - 1], events[|events| - 1];
      PlansAreSound(t, before);
      StepKeepsSound(t, Run(t, START, before), last.0, last.1);
    }
  }

  // ------------------------------------------------------------- the click

  /** The user has confirmed the plan that is stored for the chosen, free path,
      and the programs are there. */
  predicate Confirmed(t: Target, s: State, taken: set<string>) {
    && !s.running && s.plan.Some? && s.outputPath != "" && s.outputPath !in taken
    && Strip(s.confirmation) == Wanted(s.plan.value) && t.pkexec != "" && t.binary != ""
  }

  /** In every reachable open state a click adds exactly one launch, of the plan's
      own command, if and only if that plan is confirmed; otherwise it changes
      nothing. */
  lemma ClickLaunchesIff(t: Target, events: seq<(Event, set<string>)>, taken: set<string>)
    requires !Run(t, START, events).closed
    ensures var s := Run(t, START, events);
            var n := Next(t, s, Click, taken);
            && (|n.launches| == |s.launches| + 1 <==> Confirmed(t, s, taken))
            && (Confirmed(t, s, taken) ==>
                  n.running && n.launches == s.launches
                      + [Launch(Command(s.plan.value), Wanted(s.plan.value), s.plan.value)])
            && (!Confirmed(t, s, taken) ==> n == s)
  {
    PlansAreSound(t, events);
    ClickFromHere(t, Run(t, START, events), taken);
  }

  lemma ClickFromHere(t: Target, s: State, taken: set<string>)
    requires Inv(t, s) && AllSound(t, s) && !s.closed
    ensures var n := Next(t, s, Click, taken);
      if Confirmed(t, s, taken) then
        n.running && n.launches == s.launches + [Launch(Command(s.plan.value), Wanted(s.plan.value), s.plan.value)]
      else n == s
  {
  }

  // ----------------------------------------------------- a plan is brought up

  lemma ExtensionIsThere(filename: string, format: Format)
    ensures HasExtension(WithExtension(filename, format), format) && filename <= WithExtension(filename, format)
  {
    var all, extension := filename + Extension(format), Extension(format);
    assert all[|all| - |extension|..] == extension && Lower(extension) == extension;
  }

  lemma PathIsAsked(t: Target, s: State, filename: string, taken: set<string>)
    requires ButtonSound(t, s) && !s.closed && !s.running && filename != "" && filename[0] == '/'
    requires WithExtension(filename, s.selection) !in taken
        && Sound(t, s.selection, WithExtension(filename, s.selection))
    ensures var path := WithExtension(filename, s.selection);
      Next(t, s, Choose(filename), taken)
      == s.(outputPath := path, plan := None, confirmation := "", enabled := false,
            planGeneration := s.planGeneration + 1,
            pending := s.pending + multiset{Request(s.planGeneration + 1, s.selection, path)})
  {
    ButtonNeedsText(t, s);
    ClearDisarms(t, s.(outputPath := WithExtension(filename, s.selection), plan := None), taken);
  }

  lemma PlanIsStored(t: Target, s: State, r: Request, plan: Plan, taken: set<string>)
    requires !s.closed && !s.running && s.plan == None && s.confirmation == "" && r in s.pending
    requires r == Request(s.planGeneration, s.selection, s.outputPath) && r.path != "" && Sound(t, r.format, r.path)
    requires Checked(t, r, plan)
    ensures Next(t, s, Reply(r, Planned(plan)), taken)
         == s.(plan := Some(plan), enabled := false, pending := s.pending - multiset{r})
  {
    assert IsoPhrase(plan)[0] == 'S' && Strip("") == "";
  }

  lemma ClickStarts(t: Target, s: State, text: string, taken: set<string>)
    requires !s.closed && !s.running && s.plan.Some? && s.confirmation == "" && t.pkexec != ""
    requires Checked(t, Request(0, s.selection, s.outputPath), s.plan.value)
    requires s.outputPath != "" && s.outputPath !in taken && Sound(t, s.selection, s.outputPath)
    requires Strip(text) == Wanted(s.plan.value)
    ensures var typed := Next(t, s, Type(text), taken);
            var n := Next(t, typed, Click, taken);
            && typed == s.(confirmation := text, enabled := true) && n.running
            && n.launches == s.launches + [Launch(Command(s.plan.value), Wanted(s.plan.value), s.plan.value)]
  {
    assert Wanted(s.plan.value)[0] == 'S' && Strip("") == "";
  }

  /** A destination is chosen, the planner answers it, and a text is typed. */
  function Steps(generation: nat, filename: string, plan: Plan, text: string, taken: set<string>)
    : seq<(Event, set<string>)>
  {
    [(Choose(filename), taken)] + [(Reply(Request(generation, plan.format, plan.path), Planned(plan)), taken)]
    + [(Type(text), taken)]
  }

  lemma RunStep(t: Target, events: seq<(Event, set<string>)>, e: Event, taken: set<string>, before: State, after: State)
    requires Run(t, START, events) == before && Next(t, before, e, taken) == after
    ensures Run(t, START, events + [(e, taken)]) == after
  {
    assert (events + [(e, taken)])[..|events|] == events;
  }

  lemma RunSteps(t: Target, events: seq<(Event, set<string>)>, generation: nat, filename: string, plan: Plan,
          text: string, taken: set<string>, asked: State, answered: State, ready: State)
    requires Next(t, Run(t, START, events), Choose(filename), taken) == asked
    requires Next(t, asked, Reply(Request(generation, plan.format, plan.path), Planned(plan)), taken) == answered
    requires Next(t, answered, Type(text), taken) == ready
    ensures Run(t, START, events + Steps(generation, filename, plan, text, taken)) == ready
  {
    var a, b, c := [(Choose(filename), taken)],
      [(Reply(Request(generation, plan.format, plan.path), Planned(plan)), taken)], [(Type(text), taken)];
    RunStep(t, events, a[0].0, taken, Run(t, START, events), asked);
    RunStep(t, events + a, b[0].0, taken, asked, answered);
    RunStep(t, events + a + b, c[0].0, taken, answered, ready);
    assert events + (a + b + c) == events + a + b + c;
  }

  lemma RunsThrough(t: Target, events: seq<(Event, set<string>)>, generation: nat, filename: string, plan: Plan,
          text: string, taken: set<string>, asked: State, answered: State, ready: State, n: State)
    requires Next(t, Run(t, START, events), Choose(filename), taken) == asked
    requires Next(t, asked, Reply(Request(generation, plan.format, plan.path), Planned(plan)), taken) == answered
    requires Next(t, answered, Type(text), taken) == ready && Next(t, ready, Click, taken) == n
    ensures var before := events + Steps(generation, filename, plan, text, taken);
      Run(t, START, before) == ready && Run(t, START, before + [(Click, taken)]) == n
  {
    RunSteps(t, events, generation, filename, plan, text, taken, asked, answered, ready);
    RunStep(t, events + Steps(generation, filename, plan, text, taken), Click, taken, ready, n);
  }

  /** The state once the planner has answered. */
  function Answered(s: State, path: string, plan: Plan): State {
    s.(outputPath := path, plan := Some(plan), confirmation := "", enabled := false,
       planGeneration := s.planGeneration + 1)
  }

  lemma PathIsSound(t: Target, filename: string, format: Format)
    requires filename != "" && filename[0] == '/'
    requires t.binary != "" && "/dev/" <= t.device && Strip(t.identity) != ""
    ensures Sound(t, format, WithExtension(filename, format))
  {
    ExtensionIsThere(filename, format);
  }

  lemma PlanIsBrought(t: Target, s: State, filename: string, plan: Plan, taken: set<string>) returns (asked: State)
    requires ButtonSound(t, s) && !s.closed && !s.running && filename != "" && filename[0] == '/'
    requires plan.path == WithExtension(filename, s.selection) && plan.path !in taken
    requires Checked(t, Request(0, s.selection, plan.path), plan) && Sound(t, s.selection, plan.path)
    ensures Next(t, s, Choose(filename), taken) == asked
    ensures Next(t, asked, Reply(Request(s.planGeneration + 1, plan.format, plan.path), Planned(plan)), taken)
         == Answered(s, plan.path, plan)
  {
    var r := Request(s.planGeneration + 1, s.selection, plan.path);
    PathIsAsked(t, s, filename, taken);
    asked := s.(outputPath := plan.path, plan := None, confirmation := "", enabled := false,
                planGeneration := s.planGeneration + 1, pending := s.pending + multiset{r});
    PlanIsStored(t, asked, r, plan, taken);
    assert asked.pending - multiset{r} == s.pending;
  }

  lemma PlanRunsFrom(t: Target, s: State, filename: string, plan: Plan, text: string, taken: set<string>)
      returns (asked: State, answered: State, ready: State, n: State)
    requires ButtonSound(t, s) && !s.closed && !s.running && filename != "" && filename[0] == '/'
    requires WithExtension(filename, s.selection) !in taken
    requires Checked(t, Request(0, s.selection, WithExtension(filename, s.selection)), plan)
    requires t.binary != "" && t.pkexec != "" && "/dev/" <= t.device && Strip(t.identity) != ""
    requires Strip(text) == Wanted(plan)
    ensures Next(t, s, Choose(filename), taken) == asked
    ensures Next(t, asked, Reply(Request(s.planGeneration + 1, plan.format, plan.path), Planned(plan)), taken)
        == answered
    ensures Next(t, answered, Type(text), taken) == ready && Next(t, ready, Click, taken) == n
    ensures ready.enabled && n.running && n.launches == s.launches + [Launch(Command(plan), Wanted(plan), plan)]
  {
    PathIsSound(t, filename, s.selection);
    asked := PlanIsBrought(t, s, filename, plan, taken);
    answered := Answered(s, plan.path, plan);
    ready := answered.(confirmation := text, enabled := true);
    ClickStarts(t, answered, text, taken);
    n := Next(t, ready, Click, taken);
  }

  lemma ButtonIsSound(t: Target, events: seq<(Event, set<string>)>)
    ensures ButtonSound(t, Run(t, START, events))
  {
    EveryReachableState(t, events);
  }

  /** From every reachable state at rest, every destination whose name is free and
      every plan of it lead to a run: choose, let the planner answer, type the
      phrase, click. The button is armed before the click, and exactly that plan's
      command is started. */
  lemma EveryPlanCanBeRun(t: Target, events: seq<(Event, set<string>)>, s: State, filename: string, plan: Plan,
          text: string, taken: set<string>)
    requires Run(t, START, events) == s
    requires !s.closed && !s.running && filename != "" && filename[0] == '/'
    requires WithExtension(filename, s.selection) !in taken
    requires Checked(t, Request(0, s.selection, WithExtension(filename, s.selection)), plan)
    requires t.binary != "" && t.pkexec != "" && "/dev/" <= t.device && Strip(t.identity) != ""
    requires Strip(text) == Wanted(plan)
    ensures var before := events + Steps(s.planGeneration + 1, filename, plan, text, taken);
            var n := Run(t, START, before + [(Click, taken)]);
            && Run(t, START, before).enabled && n.running
            && n.launches == s.launches + [Launch(Command(plan), Wanted(plan), plan)]
  {
    ButtonIsSound(t, events);
    var asked, answered, ready, n := PlanRunsFrom(t, s, filename, plan, text, taken);
    RunsThrough(t, events, s.planGeneration + 1, filename, plan, text, taken, asked, answered, ready, n);
  }

  /** The end of a run: the phrase has to be typed again, and the plan is kept for
      another try only if the helper gave no report. */
  lemma RunEnds(t: Target, events: seq<(Event, set<string>)>, report: Report, taken: set<string>)
    requires Run(t, START, events).running
    ensures var s := Run(t, START, events);
            var n := Next(t, s, Done(s.runGeneration, report), taken);
            && !n.running && n.runs == multiset{} && n.confirmation == "" && !n.enabled
            && n.plan == (if report.NoReport? then s.plan else None)
            && n.outputPath == s.outputPath && n.selection == s.selection && n.launches == s.launches
  {
    EveryReachableState(t, events);
    var s := Run(t, START, events);
    ClearDisarms(t, s.(running := false, runs := multiset{}, confirmation := "", enabled := false), taken);
    var stopped := Arm(t, s.(running := false, runs := multiset{}), taken);
    ButtonNeedsText(t, stopped);
    ClearDisarms(t, stopped, taken);
  }

  // ------------------------------------------------------------- two runs

  const ISO_PLAN := Plan("/dev/sda", "id", "/a.iso", Iso, "/dev/sda1", "/mnt", "b", "c", "v")

  lemma Unpadded(text: string)
    requires |text| > 1 && !IsSpace(text[0]) && !IsSpace(text[|text| - 1])
    ensures Strip(text) == text
  {
  }

  lemma SampleNames()
    ensures WithExtension("/a", Raw) == "/a.img" && WithExtension("/a", Iso) == "/a.iso"
    ensures Strip("id") == "id" && "/dev/" <= "/dev/sda"
  {
    assert |"/a"| < |Extension(Raw)| && |"/a"| < |Extension(Iso)|;
    assert "/a" + ".img" == "/a.img" && "/a" + ".iso" == "/a.iso";
    Unpadded("id");
  }

  const RAW_TEXT := "SAVE " + "/dev/sda" + " TO " + "/a.img"
  const ISO_TEXT :=
    "SAVE FILESYSTEM " + "/dev/sda1" + " AT " + "/mnt" + " ON " + "/dev/sda" + " TO " + "/a.iso"

  /** Text between two other texts is not stripped away. */
  lemma Framed(first: string, middle: string, last: string)
    requires first != "" && last != "" && !IsSpace(first[0]) && !IsSpace(last[|last| - 1])
    ensures Strip(first + middle + last) == first + middle + last
  {
    Unpadded(first + middle + last);
  }

  lemma RawText()
    ensures Wanted(SAMPLE_PLAN) == RAW_TEXT == Strip(RAW_TEXT)
  {
    assert "SAVE " + "/dev/sda" + " TO " == "SAVE " + ("/dev/sda" + " TO ");
    Framed("SAVE ", "/dev/sda" + " TO ", "/a.img");
  }

  lemma IsoText()
    ensures Wanted(ISO_PLAN) == ISO_TEXT == Strip(ISO_TEXT)
  {
    var middle := "/dev/sda1" + " AT " + "/mnt" + " ON " + "/dev/sda" + " TO ";
    Framed("SAVE FILESYSTEM ", middle, "/a.iso");
    Regrouped("SAVE FILESYSTEM ", "/dev/sda1", " AT ", "/mnt", " ON ", "/dev/sda", " TO ");
  }

  lemma Regrouped(a: string, b: string, c: string, d: string, e: string, f: string, g: string)
    ensures a + b + c + d + e + f + g == a + (b + c + d + e + f + g)
  {
  }

  lemma FormatSelected(t: Target, format: Format)
    ensures Run(t, START, [(Select(format), {})])
         == START.(selection := format, planGeneration := if format == Raw then 0 else 1)
  {
    var events: seq<(Event, set<string>)> := [(Select(format), {})];
    assert events[..0] == [];
    assert Strip("") == "";
  }

  /** The plan's run from the start, for a format that is selected first. */
  lemma RunFromStart(t: Target, format: Format, filename: string, plan: Plan, text: string, generation: nat)
    requires filename != "" && filename[0] == '/' && Strip(text) == Wanted(plan)
    requires Checked(t, Request(0, format, WithExtension(filename, format)), plan)
    requires t.binary != "" && t.pkexec != "" && "/dev/" <= t.device && Strip(t.identity) != ""
    requires generation == if format == Raw then 1 else 2
    ensures Run(t, START, [(Select(format), {})] + Steps(generation, filename, plan, text, {}) + [(Click, {})]).launches
         == [Launch(Command(plan), Wanted(plan), plan)]
  {
    var events: seq<(Event, set<string>)> := [(Select(format), {})];
    FormatSelected(t, format);
    EveryPlanCanBeRun(t, events, Run(t, START, events), filename, plan, text, {});
  }

  /** A raw image of a drive, and the filesystem of a mounted partition as an ISO
      file. */
  lemma SampleRuns()
    ensures Run(SAMPLE, START, [(Select(Raw), {})] + Steps(1, "/a", SAMPLE_PLAN, RAW_TEXT, {}) + [(Click, {})]).launches
         == [Launch(RunImage("/dev/sda", "/a.img", Raw, "id"), RAW_TEXT, SAMPLE_PLAN)]
    ensures Run(SAMPLE, START, [(Select(Iso), {})] + Steps(2, "/a", ISO_PLAN, ISO_TEXT, {}) + [(Click, {})]).launches
         == [Launch(RunIso("/dev/sda", "/a.iso", "id", "/dev/sda1", "/mnt", "b", "c", "v"), ISO_TEXT, ISO_PLAN)]
  {
    SampleNames();
    RawText();
    IsoText();
    RunFromStart(SAMPLE, Raw, "/a", SAMPLE_PLAN, RAW_TEXT, 1);
    RunFromStart(SAMPLE, Iso, "/a", ISO_PLAN, ISO_TEXT, 2);
  }
}
