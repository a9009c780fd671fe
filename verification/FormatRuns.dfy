/** What the format dialogs must do: in every reachable state a click starts a run
    exactly when the stored plan's phrase was typed, and every plan can be brought
    to a run. */
module FormatRuns {
  import opened Base
  import opened FormatProtocol

  /** Plans, made and awaited, are of choices a command accepts. */
  ghost predicate AllAccepted(t: Target, s: State) {
    && (forall r :: r in s.pending ==> t.accepts(r.choice))
    && (s.plan.Some? ==> t.accepts(s.plan.value.choice))
  }

  lemma StepKeepsAccepted(t: Target, s: State, e: Event)
    requires AllAccepted(t, s)
    ensures AllAccepted(t, Next(t, s, e))
  {
  }

  lemma {:induction false} PlansAreAccepted(t: Target, choice: Choice, events: seq<Event>)
    ensures AllAccepted(t, Run(t, Start(t, choice), events))
    decreases |events|
  {
    if events != [] {
      PlansAreAccepted(t, choice, events[..|events| - 1]);
      StepKeepsAccepted(t, Run(t, Start(t, choice), events[..|events| - 1]), events[|events| - 1]);
    }
  }

  predicate Confirmed(s: State) {
    !s.running && s.plan.Some? && Strip(s.confirmation) == s.plan.value.phrase
  }

  function Command(plan: Plan): Launch {
    Launch(plan.device, plan.identity, plan.choice, plan.phrase, plan)
  }

  /** In every reachable open state a click adds exactly one launch, of the stored
      plan, if and only if its phrase was typed, no run lasts and the command can
      be built; otherwise it changes nothing. */
  lemma ClickLaunchesIff(t: Target, choice: Choice, events: seq<Event>, commandBuilds: bool)
    requires !Run(t, Start(t, choice), events).closed
    ensures var s := Run(t, Start(t, choice), events);
            var n := Next(t, s, Click(commandBuilds));
            && (|n.launches| == |s.launches| + 1 <==> Confirmed(s) && commandBuilds)
            && if Confirmed(s) && commandBuilds then n.running && n.launches == s.launches + [Command(s.plan.value)]
               else n == s
  {
    EveryReachableState(t, choice, events);
    PlansAreAccepted(t, choice, events);
  }

  lemma EditAsks(t: Target, s: State, choice: Choice)
    requires Inv(t, s) && !s.closed && !s.running && t.accepts(choice)
    ensures Next(t, s, Edit(choice))
         == s.(choice := choice, plan := None, confirmation := "", enabled := false,
               planGeneration := s.planGeneration + 1,
               pending := s.pending + multiset{Request(s.planGeneration + 1, choice)})
  {
    if s.enabled { EnabledHasText(t, s); }
    ClearDisarms(t, s.(choice := choice, plan := None));
  }

  lemma ReplyStores(t: Target, s: State, r: Request, plan: Plan)
    requires !s.closed && !s.running && s.confirmation == "" && r in s.pending && r.generation == s.planGeneration
    requires Checked(t, r, plan)
    ensures Next(t, s, Reply(r, Planned(plan)))
         == s.(plan := Some(plan), enabled := false, pending := s.pending - multiset{r})
  {
    assert Strip("") == "";
  }

  lemma ClickStarts(t: Target, s: State, text: string)
    requires !s.closed && !s.running && s.plan.Some? && s.confirmation == "" && t.accepts(s.choice)
    requires Checked(t, Request(0, s.choice), s.plan.value) && Strip(text) == s.plan.value.phrase
    ensures var ready := Next(t, s, Type(text));
            var n := Next(t, ready, Click(true));
            ready == s.(confirmation := text, enabled := true)
            && n.running && n.launches == s.launches + [Command(s.plan.value)]
  {
    assert Strip("") == "";
  }

  lemma RunStep(t: Target, start: State, events: seq<Event>, e: Event, before: State, after: State)
    requires Run(t, start, events) == before && Next(t, before, e) == after
    ensures Run(t, start, events + [e]) == after
  {
    assert (events + [e])[..|events|] == events;
  }

  /** From every reachable state at rest, every choice a command accepts and every
      plan of it lead to a run: edit, let the planner answer, type the phrase,
      click. The button is armed before the click. */
  lemma EveryPlanCanBeRun(t: Target, first: Choice, events: seq<Event>, s: State, plan: Plan, text: string)
    requires s == Run(t, Start(t, first), events) && !s.closed && !s.running
    requires t.accepts(plan.choice) && Checked(t, Request(0, plan.choice), plan) && Strip(text) == plan.phrase
    ensures var r := Request(s.planGeneration + 1, plan.choice);
            var before := events + [Edit(plan.choice)] + [Reply(r, Planned(plan))] + [Type(text)];
            var n := Run(t, Start(t, first), before + [Click(true)]);
            && Run(t, Start(t, first), before).enabled && n.running
            && n.launches == s.launches + [Command(plan)]
  {
    EveryReachableState(t, first, events);
    var r := Request(s.planGeneration + 1, plan.choice);
    EditAsks(t, s, plan.choice);
    var asked := Next(t, s, Edit(plan.choice));
    ReplyStores(t, asked, r, plan);
    var stored := asked.(plan := Some(plan), enabled := false, pending := asked.pending - multiset{r});
    ClickStarts(t, stored, text);
    var ready := stored.(confirmation := text, enabled := true);
    var one, two, three := events + [Edit(plan.choice)], [Reply(r, Planned(plan))], [Type(text)];
    RunStep(t, Start(t, first), events, Edit(plan.choice), s, asked);
    RunStep(t, Start(t, first), one, Reply(r, Planned(plan)), asked, stored);
    RunStep(t, Start(t, first), one + two, Type(text), stored, ready);
    RunStep(t, Start(t, first), one + two + three, Click(true), ready, Next(t, ready, Click(true)));
  }

  /** The end of a run: the phrase has to be typed again, and the plan is kept for
      another try only if the helper gave no report. */
  lemma RunEnds(t: Target, choice: Choice, events: seq<Event>, reported: bool)
    requires Run(t, Start(t, choice), events).running
    ensures var s := Run(t, Start(t, choice), events);
            var n := Next(t, s, Done(s.runGeneration, reported));
            && !n.running && n.runs == multiset{} && n.confirmation == "" && !n.enabled
            && n.plan == (if reported then None else s.plan)
            && n.choice == s.choice && n.launches == s.launches
  {
    EveryReachableState(t, choice, events);
    var s := Run(t, Start(t, choice), events);
    var stopped := Arm(s.(runs := multiset{}, running := false));
    if stopped.enabled { EnabledHasText(t, stopped); }
    ClearDisarms(t, stopped);
  }
}
