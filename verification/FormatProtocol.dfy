/** The plan / confirm / run protocol shared by the two whole-drive format
    dialogs, over the layout choice the widgets express. */
module FormatProtocol {
  import opened Base

  /** FreeDOS media offer a volume label; data-only media a scheme, a filesystem
      and a label. */
  datatype Choice = Media(name: string) | Layout(scheme: string, filesystem: string, name: string)

  /** A normalized plan: the drive, the chosen layout and the exact phrase. */
  datatype Plan = Plan(device: string, identity: string, choice: Choice, phrase: string)

  /** The planner's answer; `Mute` is an exception with an empty text. */
  datatype Outcome = Planned(plan: Plan) | Failed | Mute

  datatype Request = Request(generation: nat, choice: Choice)

  datatype Launch = Launch(device: string, identity: string, choice: Choice, typed: string, reviewed: Plan)

  /** The drive the dialog was opened on, and which choices a command accepts. */
  datatype Target = Target(device: string, identity: string, accepts: Choice -> bool)

  datatype State = State(
    choice: Choice, plan: Option<Plan>, confirmation: string, enabled: bool,
    running: bool, closed: bool, planGeneration: nat, runGeneration: nat,
    pending: multiset<Request>, runs: multiset<nat>, launches: seq<Launch>)

  datatype Event =
    | Edit(choice: Choice)
    | Type(text: string)
    | Reply(request: Request, outcome: Outcome)
    | Click(commandBuilds: bool)
    | Done(generation: nat, reported: bool)
    | Close

  // ---------------------------------------------------------- transitions

  function Arm(s: State): State {
    s.(enabled := s.plan.Some? && !s.running && Strip(s.confirmation) == s.plan.value.phrase)
  }

  function SetText(s: State, text: string): State {
    if s.confirmation == text then s else Arm(s.(confirmation := text))
  }

  /** `refresh_plan`: a refused command answers itself with an error. */
  function Ask(t: Target, s: State): State {
    if s.running || s.closed then s
    else
      var asked := s.(planGeneration := s.planGeneration + 1, plan := None, enabled := false);
      if t.accepts(s.choice) then asked.(pending := asked.pending + multiset{Request(asked.planGeneration, s.choice)})
      else Arm(asked)
  }

  function Start(t: Target, choice: Choice): State {
    Ask(t, State(choice, None, "", false, false, false, 0, 0, multiset{}, multiset{}, []))
  }

  /** What the planner thread lets through. */
  predicate Checked(t: Target, request: Request, plan: Plan) {
    plan.device == t.device && plan.identity == t.identity && plan.choice == request.choice && plan.phrase != ""
  }

  predicate Possible(t: Target, s: State, e: Event) {
    match e
    case Edit(_) => !s.running && !s.closed
    case Type(_) => !s.running && !s.closed
    case Reply(request, outcome) => request in s.pending && (outcome.Planned? ==> Checked(t, request, outcome.plan))
    case Click(_) => !s.closed
    case Done(generation, _) => generation in s.runs
    case Close => !s.closed
  }

  predicate MayLaunch(t: Target, s: State, commandBuilds: bool) {
    !s.running && s.plan.Some? && Strip(s.confirmation) == s.plan.value.phrase && commandBuilds && t.accepts(s.choice)
  }

  function Next(t: Target, s: State, e: Event): State {
    if !Possible(t, s, e) then s
    else
      match e
      case Edit(choice) => Ask(t, SetText(s.(choice := choice, plan := None), ""))
      case Type(text) => SetText(s, text)
      case Reply(request, outcome) =>
        var rest := s.(pending := s.pending - multiset{request});
        if s.closed || s.running || request.generation != s.planGeneration then rest
        else
          (match outcome
           case Planned(plan) => Arm(rest.(plan := Some(plan)))
           case Failed => Arm(rest.(plan := None))
           case Mute => rest.(plan := None))
      case Click(commandBuilds) =>
        if MayLaunch(t, s, commandBuilds) then
          s.(runGeneration := s.runGeneration + 1, running := true, enabled := false,
             runs := s.runs + multiset{s.runGeneration + 1},
             launches := s.launches + [Launch(t.device, t.identity, s.choice, Strip(s.confirmation), s.plan.value)])
        else s
      case Done(generation, reported) =>
        var rest := s.(runs := s.runs - multiset{generation});
        if s.closed || generation != s.runGeneration then rest
        else
          var stopped := SetText(Arm(rest.(running := false)), "");
          if reported then stopped.(plan := None) else stopped
      case Close =>
        if s.running then s
        else s.(closed := true, planGeneration := s.planGeneration + 1, runGeneration := s.runGeneration + 1)
  }

  function Run(t: Target, s: State, events: seq<Event>): State
    decreases |events|
  {
    if events == [] then s else Next(t, Run(t, s, events[..|events| - 1]), events[|events| - 1])
  }

  // ------------------------------------------------------------ invariant

  ghost predicate PlanCurrent(t: Target, s: State) {
    s.plan.Some? ==>
      s.plan.value.device == t.device && s.plan.value.identity == t.identity && s.plan.value.choice == s.choice
          && s.plan.value.phrase != ""
  }

  ghost predicate RequestCurrent(s: State, r: Request) {
    && r.generation <= s.planGeneration
    && (r.generation == s.planGeneration ==> r.choice == s.choice && s.pending[r] == 1 && s.plan == None && !s.enabled)
  }

  ghost predicate RequestsCurrent(s: State) {
    && (forall r :: r in s.pending ==> RequestCurrent(s, r))
    && (forall r, q :: r in s.pending && q in s.pending && r.generation == q.generation == s.planGeneration ==> r == q)
  }

  ghost predicate RunsCurrent(s: State) {
    && (s.running ==> s.plan.Some? && !s.closed && !s.enabled)
    && s.runs == (if s.running then multiset{s.runGeneration} else multiset{})
  }

  /** The command repeats the reviewed plan whose phrase was typed. */
  ghost predicate Bound(l: Launch) {
    l.device == l.reviewed.device && l.identity == l.reviewed.identity && l.choice == l.reviewed.choice
        && l.typed == l.reviewed.phrase
  }

  ghost predicate Inv(t: Target, s: State) {
    && PlanCurrent(t, s) && RequestsCurrent(s) && RunsCurrent(s)
    && (s.enabled ==> s.plan.Some? && Strip(s.confirmation) == s.plan.value.phrase)
    && (forall l :: l in s.launches ==> Bound(l))
  }

  // --------------------------------------------------------------- proofs

  lemma ClearDisarms(t: Target, s: State)
    requires PlanCurrent(t, s) && (s.enabled ==> s.confirmation != "")
    ensures SetText(s, "") == s.(confirmation := "", enabled := false)
  {
    assert Strip("") == "";
  }

  lemma EnabledHasText(t: Target, s: State)
    requires PlanCurrent(t, s) && s.enabled && s.plan.Some? && Strip(s.confirmation) == s.plan.value.phrase
    ensures s.confirmation != ""
  {
    assert Strip("") == "";
  }

  lemma AskKeeps(t: Target, s: State)
    requires s.plan == None && !s.enabled && RunsCurrent(s) && forall l :: l in s.launches ==> Bound(l)
    requires forall r :: r in s.pending ==> r.generation <= s.planGeneration
    requires !s.running && !s.closed
    ensures Inv(t, Ask(t, s))
  {
    var request := Request(s.planGeneration + 1, s.choice);
    assert s.pending[request] == 0;
    var asked := Ask(t, s);
    forall r | r in asked.pending ensures RequestCurrent(asked, r) {
      if r != request { assert r in s.pending; }
    }
  }

  lemma EditKeeps(t: Target, s: State, choice: Choice)
    requires Inv(t, s) && Possible(t, s, Edit(choice))
    ensures Inv(t, Next(t, s, Edit(choice)))
  {
    if s.enabled { EnabledHasText(t, s); }
    var edited := s.(choice := choice, plan := None);
    ClearDisarms(t, edited);
    forall r | r in s.pending ensures r.generation <= s.planGeneration {
      assert RequestCurrent(s, r);
    }
    AskKeeps(t, SetText(edited, ""));
  }

  lemma AnsweredOnce(s: State, request: Request)
    requires RequestsCurrent(s) && request in s.pending && request.generation == s.planGeneration
    ensures forall r :: r in s.pending - multiset{request} ==> r.generation < s.planGeneration
  {
    forall r | r in s.pending - multiset{request} ensures r.generation < s.planGeneration {
      assert RequestCurrent(s, r) && RequestCurrent(s, request);
    }
  }

  lemma ReplyKeeps(t: Target, s: State, request: Request, outcome: Outcome)
    requires Inv(t, s) && Possible(t, s, Reply(request, outcome))
    ensures Inv(t, Next(t, s, Reply(request, outcome)))
  {
    var rest := s.(pending := s.pending - multiset{request});
    assert RequestCurrent(s, request);
    if s.closed || s.running || request.generation != s.planGeneration {
      forall r | r in rest.pending ensures RequestCurrent(rest, r) {
        assert RequestCurrent(s, r);
      }
    } else {
      AnsweredOnce(s, request);
      assert RequestsCurrent(Next(t, s, Reply(request, outcome)));
    }
  }

  lemma DoneKeeps(t: Target, s: State, generation: nat, reported: bool)
    requires Inv(t, s) && Possible(t, s, Done(generation, reported))
    ensures Inv(t, Next(t, s, Done(generation, reported)))
  {
    var next := Next(t, s, Done(generation, reported));
    var stopped := Arm(s.(runs := multiset{}, running := false));
    if stopped.enabled { EnabledHasText(t, stopped); }
    ClearDisarms(t, stopped);
    forall r | r in next.pending ensures RequestCurrent(next, r) {
      assert RequestCurrent(s, r);
    }
  }

  lemma StepKeeps(t: Target, s: State, e: Event)
    requires Inv(t, s)
    ensures Inv(t, Next(t, s, e))
  {
    if Possible(t, s, e) {
      match e
      case Edit(choice) => EditKeeps(t, s, choice);
      case Reply(request, outcome) => ReplyKeeps(t, s, request, outcome);
      case Done(generation, reported) => DoneKeeps(t, s, generation, reported);
      case _ =>
        forall r | r in s.pending ensures RequestCurrent(Next(t, s, e), r) {
          assert RequestCurrent(s, r);
        }
    }
  }

  lemma {:induction false} EveryReachableState(t: Target, choice: Choice, events: seq<Event>)
    ensures Inv(t, Run(t, Start(t, choice), events))
    decreases |events|
  {
    if events == [] {
      AskKeeps(t, State(choice, None, "", false, false, false, 0, 0, multiset{}, multiset{}, []));
    } else {
      var before := events[..|events| - 1];
      EveryReachableState(t, choice, before);
      StepKeeps(t, Run(t, Start(t, choice), before), events[|events| - 1]);
    }
  }

  /** In every reachable state a stored plan is the plan of the current choices
      for the selected drive, and every command ever started equals the reviewed
      plan whose exact phrase was typed. */
  lemma PlanMatchesChoices(t: Target, choice: Choice, events: seq<Event>)
    ensures var s := Run(t, Start(t, choice), events);
            && (s.plan.Some? ==>
                  s.plan.value.choice == s.choice && s.plan.value.device == t.device
                  && s.plan.value.identity == t.identity)
            && forall i :: 0 <= i < |s.launches| ==> Bound(s.launches[i])
  {
    EveryReachableState(t, choice, events);
    var s := Run(t, Start(t, choice), events);
    forall i | 0 <= i < |s.launches| ensures Bound(s.launches[i]) {
      assert s.launches[i] in s.launches;
    }
  }

  /** Messages of older generations leave the dialog as it was. */
  lemma StaleMessagesAreInert(t: Target, choice: Choice, events: seq<Event>, e: Event)
    requires var s := Run(t, Start(t, choice), events);
             (e.Reply? && e.request.generation != s.planGeneration) || (e.Done? && e.generation != s.runGeneration)
    ensures var s := Run(t, Start(t, choice), events);
            Next(t, s, e).(pending := s.pending) == s
  {
    EveryReachableState(t, choice, events);
  }

  /** While a run is in progress its completion is the only outstanding run
      message and carries the current generation: the result is not lost. */
  lemma ResultIsNeverLost(t: Target, choice: Choice, events: seq<Event>, reported: bool)
    ensures var s := Run(t, Start(t, choice), events);
            s.running ==> s.runs == multiset{s.runGeneration} && !Next(t, s, Done(s.runGeneration, reported)).running
  {
    EveryReachableState(t, choice, events);
  }
}
