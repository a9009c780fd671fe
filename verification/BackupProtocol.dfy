/** The plan / confirm / run protocol of the drive-image backup dialog as one
    flat transition system. The three-layer dialog class refines it. */
module BackupProtocol {
  import opened Base

  datatype Format = Raw | Vhd | Vhdx | Iso

  /** A normalized plan. The last five fields are evidence of filesystem ISO
      plans only. */
  datatype Plan = Plan(device: string, identity: string, path: string, format: Format,
                       node: string, mount: string, binding: string, content: string, volume: string)

  /** The planner's answer: a normalized plan, an error text, or an exception
      whose text is empty. */
  datatype Outcome = Planned(plan: Plan) | Failed | Mute

  /** A planner thread with the values its closure captured. */
  datatype Request = Request(generation: nat, format: Format, path: string)

  datatype Report = NoReport | Reported

  /** The privileged command line that was started. */
  datatype Argv =
    | RunImage(device: string, path: string, format: Format, identity: string)
    | RunIso(device: string, path: string, identity: string, node: string, mount: string, binding: string,
        content: string, volume: string)

  datatype Launch = Launch(argv: Argv, typed: string, plan: Plan)

  /** What is fixed when the dialog opens. */
  datatype Target = Target(device: string, identity: string, binary: string, pkexec: string)

  datatype State = State(
    selection: Format, outputPath: string, plan: Option<Plan>, confirmation: string, enabled: bool,
    running: bool, closed: bool, planGeneration: nat, runGeneration: nat,
    pending: multiset<Request>, runs: multiset<nat>, launches: seq<Launch>)

  const START := State(Raw, "", None, "", false, false, false, 0, 0, multiset{}, multiset{}, [])

  datatype Event =
    | Select(format: Format)
    | Choose(filename: string)
    | Type(text: string)
    | Reply(request: Request, outcome: Outcome)
    | Click
    | Done(generation: nat, report: Report)
    | Close

  // ----------------------------------------------------------- text rules

  predicate StartsWith(s: string, prefix: string) {
    prefix <= s
  }

  function Extension(format: Format): string {
    match format
    case Raw => ".img"
    case Vhd => ".vhd"
    case Vhdx => ".vhdx"
    case Iso => ".iso"
  }

  predicate HasExtension(filename: string, format: Format) {
    var extension := Extension(format);
    |filename| >= |extension| && Lower(filename[|filename| - |extension|..]) == extension
  }

  function WithExtension(filename: string, format: Format): string {
    if HasExtension(filename, format) then filename else filename + Extension(format)
  }

  /** `backup_confirmation_phrase`: refuses a non-device and a relative path. */
  function SavePhrase(device: string, output: string): Option<string> {
    if !StartsWith(device, "/dev/") || !StartsWith(output, "/") then None
    else Some("SAVE " + device + " TO " + output)
  }

  function IsoPhrase(plan: Plan): string {
    "SAVE FILESYSTEM " + plan.node + " AT " + plan.mount + " ON " + plan.device + " TO " + plan.path
  }

  /** The phrase the dialog demands for its current selection. */
  function Phrase(t: Target, s: State, plan: Plan): Option<string> {
    if s.selection == Iso then (if plan.format == Iso then Some(IsoPhrase(plan)) else None)
    else SavePhrase(t.device, s.outputPath)
  }

  /** `_backup_validate` and `_validate_base`: when a command can be built. */
  predicate CanBuild(t: Target, format: Format, output: string, taken: set<string>) {
    && t.binary != "" && StartsWith(t.device, "/dev/") && Strip(t.identity) != ""
    && StartsWith(output, "/") && output !in taken && (format == Iso ==> HasExtension(output, Iso))
  }

  // ---------------------------------------------------------- transitions

  predicate Armed(t: Target, s: State, taken: set<string>) {
    && s.plan.Some? && s.outputPath != "" && !s.running
    && Phrase(t, s, s.plan.value) == Some(Strip(s.confirmation)) && s.outputPath !in taken
  }

  function Arm(t: Target, s: State, taken: set<string>): State {
    s.(enabled := Armed(t, s, taken))
  }

  /** Editing the confirmation text; the signal fires on a real change only. */
  function SetText(t: Target, s: State, text: string, taken: set<string>): State {
    if s.confirmation == text then s else Arm(t, s.(confirmation := text), taken)
  }

  /** Ask for a new plan of the current selection and path. */
  function Ask(t: Target, s: State, taken: set<string>): State {
    if s.running || s.outputPath == "" then s
    else
      var asked := s.(planGeneration := s.planGeneration + 1, plan := None, enabled := false);
      if CanBuild(t, s.selection, s.outputPath, taken) then
        asked.(pending := asked.pending + multiset{Request(asked.planGeneration, s.selection, s.outputPath)})
      else asked
  }

  /** What the planner thread lets through for a request. */
  predicate Checked(t: Target, request: Request, plan: Plan) {
    plan.device == t.device && plan.identity == t.identity && plan.path == request.path && plan.format == request.format
  }

  /** Events the environment can deliver: insensitive widgets cannot be edited,
      a closed dialog is not operated, replies come from started threads. */
  predicate Possible(t: Target, s: State, e: Event) {
    match e
    case Select(_) => !s.running && !s.closed
    case Choose(filename) => !s.running && !s.closed && (filename == "" || filename[0] == '/')
    case Type(_) => !s.running && !s.closed
    case Click => !s.closed
    case Close => !s.closed
    case Reply(request, outcome) => request in s.pending && (outcome.Planned? ==> Checked(t, request, outcome.plan))
    case Done(generation, _) => generation in s.runs
  }

  function Stored(outcome: Outcome): Option<Plan> {
    if outcome.Planned? then Some(outcome.plan) else None
  }

  /** Whether `_plan_ready` ends with `confirmation_changed`: the base handler
      is cut short by an exception when the phrase cannot be built. */
  predicate Announces(t: Target, s: State, outcome: Outcome) {
    s.selection == Iso || outcome.Failed? || (outcome.Planned? && SavePhrase(t.device, s.outputPath).Some?)
  }

  function Launched(t: Target, s: State): Launch
    requires s.plan.Some?
  {
    var p := s.plan.value;
    Launch(if s.selection == Iso
        then RunIso(t.device, s.outputPath, t.identity, p.node, p.mount, p.binding, p.content, p.volume)
           else RunImage(t.device, s.outputPath, s.selection, t.identity),
           Strip(s.confirmation), p)
  }

  predicate MayLaunch(t: Target, s: State, taken: set<string>) {
    && !s.running && s.plan.Some? && s.outputPath != ""
    && Phrase(t, s, s.plan.value) == Some(Strip(s.confirmation))
    && s.plan.value.format == s.selection
    && (s.selection == Iso ==>
       s.plan.value.device == t.device && s.plan.value.identity == t.identity && s.plan.value.path == s.outputPath)
    && t.pkexec != "" && CanBuild(t, s.selection, s.outputPath, taken)
  }

  function Next(t: Target, s: State, e: Event, taken: set<string>): State {
    if !Possible(t, s, e) then s
    else
      match e
      case Select(format) =>
        if format == s.selection then s
        else
          var cleared := s.(selection := format, planGeneration := s.planGeneration + 1, plan := None,
              outputPath := "");
          Arm(t, SetText(t, cleared, "", taken), taken)
      case Choose(filename) =>
        if filename == "" then s
        else
          var path := WithExtension(filename, s.selection);
          if path in taken then SetText(t, s.(plan := None, outputPath := ""), "", taken)
          else Ask(t, SetText(t, s.(outputPath := path, plan := None), "", taken), taken)
      case Type(text) => SetText(t, s, text, taken)
      case Reply(request, outcome) =>
        var rest := s.(pending := s.pending - multiset{request});
        if s.closed || s.running || request.generation != s.planGeneration then rest
        else if Announces(t, s, outcome) then Arm(t, rest.(plan := Stored(outcome)), taken)
        else rest.(plan := Stored(outcome))
      case Click =>
        if MayLaunch(t, s, taken) then
          s.(runGeneration := s.runGeneration + 1, running := true, enabled := false,
             runs := s.runs + multiset{s.runGeneration + 1}, launches := s.launches + [Launched(t, s)])
        else s
      case Done(generation, report) =>
        var rest := s.(runs := s.runs - multiset{generation});
        if s.closed || generation != s.runGeneration then rest
        else
          var stopped := SetText(t, Arm(t, rest.(running := false), taken), "", taken);
          if report.NoReport? then stopped else stopped.(plan := None)
      case Close =>
        if s.running then s
        else s.(closed := true, planGeneration := s.planGeneration + 1, runGeneration := s.runGeneration + 1)
  }

  /** A run: events interleaved with arbitrary changes of the file system. */
  function Run(t: Target, s: State, events: seq<(Event, set<string>)>): State
    decreases |events|
  {
    if events == [] then s
    else Next(t, Run(t, s, events[..|events| - 1]), events[|events| - 1].0, events[|events| - 1].1)
  }

  // ------------------------------------------------------------ invariant

  /** The guarded plan invariant. */
  ghost predicate PlanCurrent(t: Target, s: State) {
    s.plan.Some? && s.outputPath != "" ==>
      && s.plan.value.device == t.device && s.plan.value.identity == t.identity
      && s.plan.value.path == s.outputPath && s.plan.value.format == s.selection
  }

  ghost predicate RequestCurrent(s: State, r: Request) {
    && r.generation <= s.planGeneration && r.path != ""
    && (r.generation == s.planGeneration ==>
          r.format == s.selection && (s.outputPath == "" || r.path == s.outputPath) && s.pending[r] == 1
              && s.plan == None)
  }

  /** At most one outstanding request can still be answered. */
  ghost predicate RequestsCurrent(s: State) {
    && (forall r :: r in s.pending ==> RequestCurrent(s, r))
    && (forall r, q :: r in s.pending && q in s.pending && r.generation == q.generation == s.planGeneration ==> r == q)
  }

  /** At most one run, and its completion carries the current generation. */
  ghost predicate RunsCurrent(s: State) {
    && (s.running ==> s.plan.Some? && s.outputPath != "" && !s.closed && !s.enabled)
    && s.runs == (if s.running then multiset{s.runGeneration} else multiset{})
    && |s.launches| <= s.runGeneration
  }

  ghost predicate ButtonSound(t: Target, s: State) {
    s.enabled ==> s.plan.Some? && s.outputPath != "" && Phrase(t, s, s.plan.value) == Some(Strip(s.confirmation))
  }

  /** The command line restates the plan, and the plan's phrase was typed. */
  ghost predicate Bound(t: Target, l: Launch) {
    && l.plan.device == t.device && l.plan.identity == t.identity
    && l.argv == (if l.plan.format == Iso
                  then RunIso(l.plan.device, l.plan.path, l.plan.identity, l.plan.node, l.plan.mount, l.plan.binding,
                      l.plan.content, l.plan.volume)
                  else RunImage(l.plan.device, l.plan.path, l.plan.format, l.plan.identity))
    && Some(l.typed) == (if l.plan.format == Iso then Some(IsoPhrase(l.plan))
       else SavePhrase(l.plan.device, l.plan.path))
  }

  ghost predicate Inv(t: Target, s: State) {
    && PlanCurrent(t, s) && RequestsCurrent(s) && RunsCurrent(s) && ButtonSound(t, s)
    && (s.plan.Some? ==> s.plan.value.path != "" && s.plan.value.format == s.selection)
    && (forall l :: l in s.launches ==> Bound(t, l))
  }

  // --------------------------------------------------------------- proofs

  lemma ButtonNeedsText(t: Target, s: State)
    requires ButtonSound(t, s)
    ensures s.enabled ==> s.confirmation != ""
  {
    if s.plan.Some? { assert IsoPhrase(s.plan.value)[0] == 'S'; }
  }

  /** Clearing the text disarms the button and changes nothing else. */
  lemma ClearDisarms(t: Target, s: State, taken: set<string>)
    requires s.enabled ==> s.confirmation != ""
    ensures SetText(t, s, "", taken) == s.(confirmation := "", enabled := false)
    ensures Arm(t, s.(confirmation := ""), taken) == s.(confirmation := "", enabled := false)
  {
    if s.plan.Some? { assert IsoPhrase(s.plan.value)[0] == 'S'; }
    assert Strip("") == "";
  }

  lemma SelectKeeps(t: Target, s: State, format: Format, taken: set<string>)
    requires Inv(t, s) && Possible(t, s, Select(format))
    ensures Inv(t, Next(t, s, Select(format), taken))
  {
    if format != s.selection {
      ButtonNeedsText(t, s);
      var cleared := s.(selection := format, planGeneration := s.planGeneration + 1, plan := None, outputPath := "");
      ClearDisarms(t, cleared, taken);
      ClearDisarms(t, cleared.(confirmation := "", enabled := false), taken);
      assert Next(t, s, Select(format), taken) == cleared.(confirmation := "", enabled := false);
      forall r | r in s.pending ensures RequestCurrent(cleared, r) {
        assert RequestCurrent(s, r);
      }
    }
  }

  lemma AskKeeps(t: Target, s: State, taken: set<string>)
    requires RequestsCurrent(s.(outputPath := "")) && RunsCurrent(s) && !s.running && s.plan == None && !s.enabled
    requires s.outputPath != "" && forall l :: l in s.launches ==> Bound(t, l)
    ensures Inv(t, Ask(t, s, taken))
  {
    var asked := Ask(t, s, taken);
    var request := Request(s.planGeneration + 1, s.selection, s.outputPath);
    forall r | r in s.pending ensures r.generation <= s.planGeneration {
      assert RequestCurrent(s.(outputPath := ""), r);
    }
    assert s.pending[request] == 0;
    forall r | r in asked.pending ensures RequestCurrent(asked, r) {
      if r != request { assert RequestCurrent(s.(outputPath := ""), r); }
    }
  }

  lemma ChooseKeeps(t: Target, s: State, filename: string, taken: set<string>)
    requires Inv(t, s) && Possible(t, s, Choose(filename))
    ensures Inv(t, Next(t, s, Choose(filename), taken))
  {
    if filename != "" {
      ButtonNeedsText(t, s);
      var path := WithExtension(filename, s.selection);
      var refused := s.(plan := None, outputPath := "");
      ClearDisarms(t, refused, taken);
      forall r | r in s.pending ensures RequestCurrent(refused, r) {
        assert RequestCurrent(s, r);
      }
      if path !in taken {
        var accepted := s.(outputPath := path, plan := None);
        ClearDisarms(t, accepted, taken);
        var cleared := accepted.(confirmation := "", enabled := false);
        forall r | r in s.pending ensures RequestCurrent(cleared.(outputPath := ""), r) {
          assert RequestCurrent(refused, r);
        }
        AskKeeps(t, cleared, taken);
      }
    }
  }

  /** Once the current request is answered every remaining one is stale. */
  lemma AnsweredOnce(t: Target, s: State, request: Request)
    requires RequestsCurrent(s) && request in s.pending
    ensures forall r :: r in s.pending - multiset{request} ==>
      r in s.pending && r.path != "" && r.generation <= s.planGeneration
      && (request.generation == s.planGeneration ==> r.generation < s.planGeneration)
  {
    forall r | r in s.pending - multiset{request}
      ensures r in s.pending && r.path != "" && r.generation <= s.planGeneration
      ensures request.generation == s.planGeneration ==> r.generation < s.planGeneration
    {
      assert RequestCurrent(s, r) && RequestCurrent(s, request);
    }
  }

  lemma StoredKeeps(t: Target, s: State, plan: Option<Plan>, taken: set<string>)
    requires !s.running && s.runs == multiset{} && |s.launches| <= s.runGeneration && !s.enabled
    requires forall l :: l in s.launches ==> Bound(t, l)
    requires forall r :: r in s.pending ==> r.path != "" && r.generation < s.planGeneration
    requires plan.Some? ==>
      && plan.value.device == t.device && plan.value.identity == t.identity && plan.value.format == s.selection
      && plan.value.path != "" && (s.outputPath == "" || plan.value.path == s.outputPath)
    ensures Inv(t, s.(plan := plan)) && Inv(t, Arm(t, s.(plan := plan), taken))
  {
    var stored := s.(plan := plan);
    assert RequestsCurrent(stored) && RequestsCurrent(Arm(t, stored, taken));
    assert PlanCurrent(t, stored) && PlanCurrent(t, Arm(t, stored, taken));
  }

  lemma StaleReplyKeeps(t: Target, s: State, request: Request)
    requires Inv(t, s) && request in s.pending
    requires s.closed || s.running || request.generation != s.planGeneration
    ensures Inv(t, s.(pending := s.pending - multiset{request}))
  {
    var rest := s.(pending := s.pending - multiset{request});
    forall r | r in rest.pending ensures RequestCurrent(rest, r) {
      assert RequestCurrent(s, r) && RequestCurrent(s, request);
    }
  }

  lemma ReplyKeeps(t: Target, s: State, request: Request, outcome: Outcome, taken: set<string>)
    requires Inv(t, s) && Possible(t, s, Reply(request, outcome))
    ensures Inv(t, Next(t, s, Reply(request, outcome), taken))
  {
    if s.closed || s.running || request.generation != s.planGeneration {
      StaleReplyKeeps(t, s, request);
    } else {
      assert RequestCurrent(s, request);
      AnsweredOnce(t, s, request);
      StoredKeeps(t, s.(pending := s.pending - multiset{request}), Stored(outcome), taken);
    }
  }

  lemma ClickKeeps(t: Target, s: State, taken: set<string>)
    requires Inv(t, s)
    ensures Inv(t, Next(t, s, Click, taken))
  {
    var next := Next(t, s, Click, taken);
    if Possible(t, s, Click) && MayLaunch(t, s, taken) {
      assert Bound(t, Launched(t, s));
      forall r | r in next.pending ensures RequestCurrent(next, r) {
        assert RequestCurrent(s, r);
      }
    }
  }

  lemma DoneKeeps(t: Target, s: State, generation: nat, report: Report, taken: set<string>)
    requires Inv(t, s) && Possible(t, s, Done(generation, report))
    ensures Inv(t, Next(t, s, Done(generation, report), taken))
  {
    var next := Next(t, s, Done(generation, report), taken);
    var stopped := Arm(t, s.(runs := multiset{}, running := false), taken);
    ButtonNeedsText(t, stopped);
    ClearDisarms(t, stopped, taken);
    forall r | r in next.pending ensures RequestCurrent(next, r) {
      assert RequestCurrent(s, r);
    }
  }

  lemma StepKeeps(t: Target, s: State, e: Event, taken: set<string>)
    requires Inv(t, s)
    ensures Inv(t, Next(t, s, e, taken))
  {
    if Possible(t, s, e) {
      match e
      case Select(format) => SelectKeeps(t, s, format, taken);
      case Choose(filename) => ChooseKeeps(t, s, filename, taken);
      case Type(text) =>
        forall r | r in s.pending ensures RequestCurrent(Next(t, s, e, taken), r) {
          assert RequestCurrent(s, r);
        }
      case Reply(request, outcome) => ReplyKeeps(t, s, request, outcome, taken);
      case Click => ClickKeeps(t, s, taken);
      case Done(generation, report) => DoneKeeps(t, s, generation, report, taken);
      case Close =>
        forall r | r in s.pending ensures RequestCurrent(Next(t, s, e, taken), r) {
          assert RequestCurrent(s, r);
        }
    }
  }

  lemma {:induction false} EveryReachableState(t: Target, events: seq<(Event, set<string>)>)
    ensures Inv(t, Run(t, START, events))
    decreases |events|
  {
    if events != [] {
      var before := events[..|events| - 1];
      EveryReachableState(t, before);
      StepKeeps(t, Run(t, START, before), events[|events| - 1].0, events[|events| - 1].1);
    }
  }

  /** In every reachable state a stored plan names the selected path exactly
      when there is a selected path; then device, identity and format agree. */
  lemma PlanMatchesSelection(t: Target, events: seq<(Event, set<string>)>)
    ensures var s := Run(t, START, events);
            s.plan.Some? ==>
              && (s.plan.value.path == s.outputPath <==> s.outputPath != "")
              && (s.outputPath != "" ==>
                    s.plan.value.device == t.device && s.plan.value.identity == t.identity
                    && s.plan.value.format == s.selection)
  {
    EveryReachableState(t, events);
  }

  lemma RunSnoc(t: Target, s: State, events: seq<(Event, set<string>)>, e: Event, taken: set<string>)
    ensures Run(t, s, events + [(e, taken)]) == Next(t, Run(t, s, events), e, taken)
  {
    var all := events + [(e, taken)];
    assert all[..|all| - 1] == events;
  }

  const SAMPLE := Target("/dev/sda", "id", "/bin/backup", "/bin/pkexec")
  const SAMPLE_REQUEST := Request(1, Raw, "/a.img")
  const SAMPLE_PLAN := Plan("/dev/sda", "id", "/a.img", Raw, "", "", "", "", "")
  const ASKED := START.(planGeneration := 1, outputPath := "/a.img", pending := multiset{SAMPLE_REQUEST})

  lemma SampleIsAsked()
    ensures Next(SAMPLE, START, Choose("/a.img"), {}) == ASKED
  {
    assert Lower(".img") == ".img" && "/a.img"[2..] == ".img";
    assert Strip("id") == "id";
    assert StartsWith("/dev/sda", "/dev/") && StartsWith("/a.img", "/");
    assert CanBuild(SAMPLE, Raw, "/a.img", {});
    assert WithExtension("/a.img", Raw) == "/a.img";
  }

  lemma SampleIsRefused()
    ensures Next(SAMPLE, ASKED, Choose("/b.img"), {"/b.img"}) == ASKED.(outputPath := "")
  {
    assert Lower(".img") == ".img" && "/b.img"[2..] == ".img";
    assert WithExtension("/b.img", Raw) == "/b.img";
  }

  /** The path guard is needed: a refused destination clears the path without
      starting a new generation, so a late reply still stores its plan. */
  lemma LateReplyAfterRefusal()
    ensures var s := Run(SAMPLE, START, [(Choose("/a.img"), {})] + [(Choose("/b.img"), {"/b.img"})]
        + [(Reply(SAMPLE_REQUEST, Planned(SAMPLE_PLAN)), {})]);
            s.plan == Some(SAMPLE_PLAN) && s.outputPath == ""
  {
    var e1, e2 := [(Choose("/a.img"), {})], [(Choose("/b.img"), {"/b.img"})];
    SampleIsAsked();
    SampleIsRefused();
    RunSnoc(SAMPLE, START, [], Choose("/a.img"), {});
    assert [] + e1 == e1;
    RunSnoc(SAMPLE, START, e1, Choose("/b.img"), {"/b.img"});
    RunSnoc(SAMPLE, START, e1 + e2, Reply(SAMPLE_REQUEST, Planned(SAMPLE_PLAN)), {});
    assert Possible(SAMPLE, ASKED.(outputPath := ""), Reply(SAMPLE_REQUEST, Planned(SAMPLE_PLAN)));
  }

  /** While a run is in progress nothing can exchange what it was started for. */
  lemma FrozenWhileRunning(t: Target, s: State, e: Event, taken: set<string>)
    requires Inv(t, s) && s.running && Next(t, s, e, taken).running
    ensures var n := Next(t, s, e, taken);
            && n.plan == s.plan && n.outputPath == s.outputPath && n.selection == s.selection
            && n.runGeneration == s.runGeneration && n.launches == s.launches
  {
    match e
    case Done(generation, report) =>
      ButtonNeedsText(t, Arm(t, s.(running := false, runs := multiset{}), taken));
    case _ =>
  }

  /** Every command ever started names exactly the plan that was stored when its
      phrase was typed, for the device the dialog was opened on. */
  lemma LaunchesNameTheirPlan(t: Target, events: seq<(Event, set<string>)>, i: nat)
    requires i < |Run(t, START, events).launches|
    ensures Bound(t, Run(t, START, events).launches[i])
  {
    EveryReachableState(t, events);
    assert Run(t, START, events).launches[i] in Run(t, START, events).launches;
  }

  /** The result of a run is never dropped as stale: its message is the only
      outstanding one, carries the current generation, and ends the run. */
  lemma ResultIsNeverLost(t: Target, events: seq<(Event, set<string>)>, report: Report, taken: set<string>)
    ensures var s := Run(t, START, events);
            s.running ==>
                s.runs == multiset{s.runGeneration}
                && !Next(t, s, Done(s.runGeneration, report), taken).running
  {
    EveryReachableState(t, events);
  }

  /** A planner reply of an older generation changes nothing the user can see. */
  lemma StaleReplyIsInert(t: Target, s: State, request: Request, outcome: Outcome, taken: set<string>)
    requires Possible(t, s, Reply(request, outcome)) && request.generation != s.planGeneration
    ensures Next(t, s, Reply(request, outcome), taken) == s.(pending := s.pending - multiset{request})
  {
  }
}
