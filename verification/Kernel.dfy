/** System calls on the watched directory. Between any two calls other processes
    act, and every call may fail. The trace records every intermediate state. */
module Kernels {
  import opened Base
  import opened FileSystem

  // ------------------------------------------------------------ effects

  function MakeParent(d: Disk): Disk {
    if d.present then d else d.(present := true, linked := d.linked + {true})
  }

  function NewEntry(d: Disk, name: string, node: Node): Disk {
    d.(nodes := d.nodes[d.next := node], next := d.next + 1,
       slots := d.slots[name := Slot(Some(d.next), d.At(name).durable + {Some(d.next)})])
  }

  function SetNode(d: Disk, i: Inode, node: Node): Disk {
    d.(nodes := d.nodes[i := node])
  }

  function NewInner(d: Disk, dir: Inode, name: string): Disk
    requires dir in d.nodes && d.nodes[dir].DirNode?
  {
    var slots := d.nodes[dir].slots;
    var durable := if name in slots then slots[name].durable else {None};
    d.(nodes := d.nodes[d.next := FileNode("", 0, false)]
                       [dir := d.nodes[dir].(slots := slots[name := Slot(Some(d.next), durable + {Some(d.next)})])],
       next := d.next + 1)
  }

  function Settle(slots: map<string, Slot>): map<string, Slot> {
    map name | name in slots :: Slot(slots[name].now, {slots[name].now})
  }

  function Rename(d: Disk, from: string, to: string): Disk {
    var target := d.At(from).now;
    d.(slots := d.slots[to := Slot(target, d.At(to).durable + {target})]
                       [from := Slot(None, d.At(from).durable + {None})])
  }

  function Unlink(d: Disk, name: string): Disk {
    d.(slots := d.slots[name := Slot(None, d.At(name).durable + {None})])
  }

  // ------------------------------------------------------------- history

  /** The publishing step: the watched entry goes straight to the complete goal,
      from nothing or, when replacement was asked for, from what was there. */
  ghost predicate PublishStep(d: Disk, e: Disk, watched: string, replace: bool, goal: Seen) {
    && OthersKept(d, e)
    && (forall name {:trigger e.At(name)} :: name != watched && d.Foreign(d.At(name).now) ==>
       Kept(d.At(name), e.At(name)))
    && (d.At(watched).now == None || replace) && Complete(e, watched, goal)
    && e.At(watched).durable == d.At(watched).durable + {e.At(watched).now}
  }

  ghost predicate OwnStep(d: Disk, e: Disk, watched: string, replace: bool, goal: Seen) {
    PrivateStep(d, e, watched) || PublishStep(d, e, watched, replace, goal)
  }

  /** A state, and whether a call of ours or another process led to it. The last
      action of another process so far is the `nth` before call number `call`. */
  datatype Moment = Moment(disk: Disk, own: bool, call: nat, nth: nat)

  function Ours(before: Moment, d: Disk): Moment {
    Moment(d, true, before.call, before.nth)
  }

  ghost predicate StepOk(d: Disk, m: Moment, watched: string, replace: bool, goal: Seen) {
    if m.own then OwnStep(d, m.disk, watched, replace, goal) else Interference(d, m.disk)
  }

  ghost predicate StepAt(trace: seq<Moment>, i: nat, watched: string, replace: bool, goal: Seen)
    requires 0 < i < |trace|
  {
    StepOk(trace[i - 1].disk, trace[i], watched, replace, goal)
  }

  /** Every state shows the watched name unpublished or complete, and every step
      is one of those allowed. */
  ghost predicate History(trace: seq<Moment>, watched: string, replace: bool, goal: Seen) {
    && (forall i :: 0 <= i < |trace| ==> trace[i].disk.Valid() && Secure(trace[i].disk, watched, goal))
    && (forall i: nat :: 0 < i < |trace| ==> StepAt(trace, i, watched, replace, goal))
  }

  /** Nothing is put down to another process but its own next action. */
  ghost predicate Blamed(trace: seq<Moment>, actions: nat -> seq<Action>) {
    forall i: nat :: 0 < i < |trace| ==> BlamedAt(trace, actions, i)
  }

  ghost predicate BlamedAt(trace: seq<Moment>, actions: nat -> seq<Action>, i: nat)
    requires 0 < i < |trace|
  {
    var before, m := trace[i - 1], trace[i];
    if m.own then m == Ours(before, m.disk)
    else
      && Follows(before, m.call, m.nth) && m.nth <= |actions(m.call)|
      && m.disk == Act(before.disk, actions(m.call)[m.nth - 1])
  }

  predicate Follows(before: Moment, call: nat, nth: nat) {
    before.call <= call && nth == (if before.call == call then before.nth + 1 else 1)
  }

  lemma BlamedSnoc(trace: seq<Moment>, m: Moment, actions: nat -> seq<Action>)
    requires |trace| > 0 && Blamed(trace, actions) && BlamedAt([trace[|trace| - 1], m], actions, 1)
    ensures Blamed(trace + [m], actions)
  {
    var more := trace + [m];
    forall i: nat | 0 < i < |more| ensures BlamedAt(more, actions, i) {
      if i < |trace| { assert BlamedAt(trace, actions, i); }
    }
  }

  lemma HistorySnoc(trace: seq<Moment>, m: Moment, watched: string, replace: bool, goal: Seen)
    requires |trace| > 0 && History(trace, watched, replace, goal)
    requires m.disk.Valid() && Secure(m.disk, watched, goal)
    requires StepOk(trace[|trace| - 1].disk, m, watched, replace, goal)
    ensures History(trace + [m], watched, replace, goal)
  {
    var more := trace + [m];
    forall i: nat | 0 < i < |more| ensures StepAt(more, i, watched, replace, goal) {
      if i < |trace| { assert StepAt(trace, i, watched, replace, goal); }
    }
  }

  // ------------------------------------------------------ undisturbed runs

  predicate Creates(todo: seq<Action>, name: string) {
    exists k :: 0 <= k < |todo| && todo[k].Create? && todo[k].name == name
  }

  /** A list of foreign actions, one after the other. */
  function ActAll(d: Disk, todo: seq<Action>): Disk
    decreases |todo|
  {
    if todo == [] then d else Act(ActAll(d, todo[..|todo| - 1]), todo[|todo| - 1])
  }

  /** The name is still what it was, or has become free. */
  ghost predicate NotTaken(d: Disk, e: Disk, name: string) {
    || e.At(name).now == None
    || (e.At(name).now == d.At(name).now && (d.Foreign(d.At(name).now) ==> SameNode(d, e, d.At(name).now.value)))
  }

  predicate SameNode(d: Disk, e: Disk, i: Inode)
    requires i in d.nodes
  {
    i in e.nodes && e.nodes[i] == d.nodes[i]
  }

  lemma NotTakenSince(d: Disk, e: Disk, f: Disk, name: string)
    requires NotTaken(d, e, name) && NotTaken(e, f, name)
    ensures NotTaken(d, f, name)
  {
  }

  /** A step of ours that leaves the watched name unpublished does not take it. */
  lemma OwnStepSpares(d: Disk, e: Disk, watched: string, replace: bool, goal: Seen)
    requires OwnStep(d, e, watched, replace, goal) && Secure(d, watched, goal) && Unpublished(e, watched)
    ensures NotTaken(d, e, watched) && Unpublished(d, watched)
  {
  }

  lemma {:induction false} ActionsSpare(d: Disk, todo: seq<Action>, name: string)
    requires d.Valid() && !Creates(todo, name)
    ensures ActAll(d, todo).Valid() && NotTaken(d, ActAll(d, todo), name) && Interference(d, ActAll(d, todo))
    decreases |todo|
  {
    InterferenceReflexive(d);
    if todo != [] {
      var before, last := todo[..|todo| - 1], todo[|todo| - 1];
      assert forall k :: 0 <= k < |before| ==> before[k] == todo[k];
      ActionsSpare(d, before, name);
      var e := ActAll(d, before);
      ActInterferes(e, last);
      InterferenceTransitive(d, e, Act(e, last));
      assert !(last.Create? && last.name == name);
    }
  }

  // -------------------------------------------------------------- kernel

  class Kernel {
    var disk: Disk
    var clock: nat
    ghost var trace: seq<Moment>
    const actions: nat -> seq<Action>
    const fails: nat -> bool
    const written: nat -> int
    const watched: string
    const temporary: string
    const replace: bool
    ghost const goal: Seen

    ghost predicate Valid()
      reads this
    {
      && Sound() && (trace[|trace| - 1].call < clock || trace[|trace| - 1].nth == 0)
      && (Undisturbed() && Unpublished(disk, watched) ==> NotTaken(trace[0].disk, disk, watched))
    }

    /** `Valid`, while other processes act. */
    ghost predicate Sound()
      reads this
    {
      && disk.Valid() && |trace| > 0 && trace[|trace| - 1].disk == disk && trace[|trace| - 1].call <= clock
      && History(trace, watched, replace, goal) && Blamed(trace, actions)
    }

    constructor (disk: Disk, actions: nat -> seq<Action>, fails: nat -> bool, written: nat -> int,
                 watched: string, temporary: string, replace: bool, ghost goal: Seen)
      requires disk.Valid() && Unpublished(disk, watched)
      ensures Valid() && this.disk == disk && trace == [Moment(disk, false, 0, 0)]
      ensures this.watched == watched && this.temporary == temporary && this.replace == replace && this.goal == goal
      ensures this.actions == actions && this.fails == fails && this.written == written
    {
      this.disk, this.clock, this.trace := disk, 0, [Moment(disk, false, 0, 0)];
      this.actions, this.fails, this.written := actions, fails, written;
      this.watched, this.temporary, this.replace, this.goal := watched, temporary, replace, goal;
    }

    /** The call does not fail, and before it no other process takes the watched
        name or the temporary one. */
    predicate CalmAt(call: nat) {
      !fails(call) && !Creates(actions(call), watched) && !Creates(actions(call), temporary)
    }

    /** Nothing has disturbed the run so far. */
    predicate Undisturbed()
      reads this
    {
      forall call: nat :: call < clock ==> CalmAt(call)
    }

    /** Other processes act before the next call. */
    method Interfere() returns (failed: bool)
      requires Valid()
      modifies this
      ensures Valid() && Interference(old(disk), disk) && old(trace) <= trace
      ensures forall i :: |old(trace)| <= i < |trace| ==> !trace[i].own
      ensures failed == fails(old(clock)) && clock == old(clock) + 1
      ensures var last, n := trace[|trace| - 1], |actions(old(clock))|;
        n > 0 ==> last.call == old(clock) && last.nth == n
      ensures disk == ActAll(old(disk), actions(old(clock)))
      ensures Undisturbed() <==> old(Undisturbed()) && CalmAt(old(clock))
    {
      ghost var start, first, calm := disk, trace[0].disk, Undisturbed();
      OthersAct();
      SparedByOthers(start, actions(clock));
      if calm && CalmAt(clock) && Unpublished(disk, watched) { NotTakenSince(first, start, disk, watched); }
      failed := fails(clock);
      clock := clock + 1;
      assert Undisturbed() <==> calm && CalmAt(clock - 1);
    }

    method OthersAct()
      requires Valid()
      modifies this`disk, this`trace
      ensures Sound() && Interference(old(disk), disk) && old(trace) <= trace
      ensures forall i :: |old(trace)| <= i < |trace| ==> !trace[i].own
      ensures var last, n := trace[|trace| - 1], |actions(clock)|;
        (n > 0 ==> last.call == clock && last.nth == n) && (n == 0 ==> last.call <= clock)
      ensures disk == ActAll(old(disk), actions(clock))
    {
      ghost var start := disk;
      InterferenceReflexive(disk);
      for nth := 0 to |actions(clock)|
        invariant Sound() && Interference(start, disk) && old(trace) <= trace
        invariant trace[|trace| - 1].call < clock || trace[|trace| - 1].nth == nth
        invariant nth > 0 ==> trace[|trace| - 1].call == clock
        invariant forall i :: |old(trace)| <= i < |trace| ==> !trace[i].own
        invariant disk == ActAll(start, actions(clock)[..nth])
      {
        assert actions(clock)[..nth + 1][..nth] == actions(clock)[..nth];
        Suffer(nth + 1, start);
      }
      assert actions(clock)[..|actions(clock)|] == actions(clock);
    }

    /** What calm actions leave alone. */
    lemma SparedByOthers(d: Disk, todo: seq<Action>)
      requires d.Valid() && Secure(d, watched, goal)
      ensures Unpublished(ActAll(d, todo), watched) && !Creates(todo, watched) ==>
        NotTaken(d, ActAll(d, todo), watched) && Unpublished(d, watched)
      ensures !Creates(todo, temporary) ==> NotTaken(d, ActAll(d, todo), temporary)
    {
      if !Creates(todo, watched) {
        ActionsSpare(d, todo, watched);
        if Complete(d, watched, goal) { OursStable(d, ActAll(d, todo), watched); }
      }
      if !Creates(todo, temporary) { ActionsSpare(d, todo, temporary); }
    }

    /** The next action of another process becomes visible. */
    method Suffer(nth: nat, ghost start: Disk)
      requires Sound() && 0 < nth <= |actions(clock)| && Follows(trace[|trace| - 1], clock, nth)
      requires start.Valid() && Interference(start, disk)
      modifies this`disk, this`trace
      ensures Sound() && Interference(start, disk) && disk == Act(old(disk), actions(clock)[nth - 1])
      ensures trace == old(trace) + [Moment(disk, false, clock, nth)]
    {
      var d := Act(disk, actions(clock)[nth - 1]);
      ActInterferes(disk, actions(clock)[nth - 1]);
      InterferenceTransitive(start, disk, d);
      SecureStable(disk, d, watched, goal);
      HistorySnoc(trace, Moment(d, false, clock, nth), watched, replace, goal);
      BlamedSnoc(trace, Moment(d, false, clock, nth), actions);
      disk := d;
      trace := trace + [Moment(d, false, clock, nth)];
    }

    method Append(d: Disk)
      requires Valid() && d.Valid() && Secure(d, watched, goal) && OwnStep(disk, d, watched, replace, goal)
      modifies this`disk, this`trace
      ensures Valid() && disk == d && trace == old(trace) + [Ours(old(trace)[|old(trace)| - 1], d)]
    {
      ghost var m := Ours(trace[|trace| - 1], d);
      HistorySnoc(trace, m, watched, replace, goal);
      BlamedSnoc(trace, m, actions);
      if Unpublished(d, watched) { OwnStepSpares(disk, d, watched, replace, goal); }
      disk := d;
      trace := trace + [m];
    }

    /** A step of ours that publishes nothing. */
    method Commit(d: Disk)
      requires Valid() && d.Valid() && Secure(d, watched, goal) && PrivateStep(disk, d, watched)
      modifies this`disk, this`trace
      ensures Valid() && disk == d && trace == old(trace) + [Ours(old(trace)[|old(trace)| - 1], d)]
    {
      Append(d);
    }

    /** The step of ours that publishes. */
    method Publish(d: Disk)
      requires Valid() && d.Valid() && PublishStep(disk, d, watched, replace, goal)
      modifies this`disk, this`trace
      ensures Valid() && disk == d && trace == old(trace) + [Ours(old(trace)[|old(trace)| - 1], d)]
    {
      Append(d);
    }
  }

  // ----------------------------------------------------------- security

  /** A complete, synced goal: the entry of the watched name may still be
      pending, but whichever way a crash settles it the result is whole. */
  ghost predicate Complete(d: Disk, name: string, goal: Seen) {
    && d.At(name).now.Some? && Whole(d, d.At(name).now.value, goal)
    && forall target :: target in d.At(name).durable && target != d.At(name).now ==> target == None || d.Foreign(target)
  }

  ghost predicate Whole(d: Disk, i: Inode, goal: Seen) {
    i in d.nodes &&
    match d.nodes[i]
    case ForeignNode(_) => false
    case FileNode(bytes, mode, synced) => synced && goal == Single(Image(bytes, mode))
    case DirNode(slots, mode, synced) =>
      && goal.Tree? && synced && goal.mode == mode && goal.files.Keys == slots.Keys
      && forall name :: name in slots ==> WholeEntry(d, slots[name], goal.files[name])
  }

  ghost predicate WholeEntry(d: Disk, slot: Slot, image: Image) {
    && slot.now.Some? && slot.durable == {slot.now} && slot.now.value in d.nodes
    && d.nodes[slot.now.value] == FileNode(image.bytes, image.mode, true)
  }

  ghost predicate Secure(d: Disk, name: string, goal: Seen) {
    Unpublished(d, name) || Complete(d, name, goal)
  }

  lemma InterferenceReflexive(d: Disk)
    ensures Interference(d, d)
  {
    forall name ensures SlotFrame(d, d, name) {}
  }

  lemma WholeStable(d: Disk, e: Disk, i: Inode, goal: Seen)
    requires Whole(d, i, goal) && forall n :: n in d.nodes ==> n in e.nodes && e.nodes[n] == d.nodes[n]
    ensures Whole(e, i, goal)
  {
    if d.nodes[i].DirNode? {
      forall name | name in d.nodes[i].slots ensures WholeEntry(e, d.nodes[i].slots[name], goal.files[name]) {
        assert WholeEntry(d, d.nodes[i].slots[name], goal.files[name]);
      }
    }
  }

  lemma SecureStable(d: Disk, e: Disk, name: string, goal: Seen)
    requires Secure(d, name, goal) && Interference(d, e)
    ensures Secure(e, name, goal)
  {
    if Unpublished(d, name) {
      UnpublishedStable(d, e, name);
    } else {
      OursStable(d, e, name);
      WholeStable(d, e, d.At(name).now.value, goal);
    }
  }

  lemma WholeShowsGoal(d: Disk, i: Inode, goal: Seen, seen: Seen)
    requires Whole(d, i, goal) && TargetShows(d, Some(i), seen)
    ensures seen == goal
  {
    if d.nodes[i].DirNode? {
      var slots := d.nodes[i].slots;
      forall name | name in slots ensures name in seen.files && seen.files[name] == goal.files[name] {
        assert WholeEntry(d, slots[name], goal.files[name]) && EntryShows(d, slots[name], name, seen.files);
        assert slots[name].durable == {slots[name].now};
      }
      assert seen.files == goal.files;
    }
  }

  lemma LiveIsGoal(d: Disk, i: Inode, name: string, goal: Seen, seen: Seen)
    requires d.At(name).now == Some(i) && Whole(d, i, goal) && LiveShows(d, name, seen)
    ensures seen == goal
  {
    if d.nodes[i].DirNode? {
      var slots := d.nodes[i].slots;
      forall n | n in slots ensures n in seen.files && seen.files[n] == goal.files[n] {
        assert WholeEntry(d, slots[n], goal.files[n]);
      }
      forall n | n !in slots ensures n !in seen.files {}
      assert seen.files == goal.files;
    }
  }

  lemma SecureIsSafe(d: Disk, name: string, goal: Seen)
    requires Secure(d, name, goal)
    ensures AllOrNothing(d, name, goal)
  {
    if Unpublished(d, name) {
      UnpublishedIsSafe(d, name, goal);
    } else {
      var i := d.At(name).now.value;
      forall seen | LiveShows(d, name, seen) ensures seen == goal {
        LiveIsGoal(d, i, name, goal, seen);
      }
      forall seen | CrashShows(d, name, seen) ensures seen == Nothing || seen.Other? || seen == goal {
        if !(false in d.linked && seen == Nothing) {
          var target :| target in d.At(name).durable && TargetShows(d, target, seen);
          if target == Some(i) { WholeShowsGoal(d, i, goal, seen); }
        }
      }
    }
  }

  lemma ParentSettled(d: Disk, name: string, goal: Seen)
    requires d.Valid() && Complete(d, name, goal)
    ensures var e := d.(slots := Settle(d.slots));
            && e.Valid() && Complete(e, name, goal) && PrivateStep(d, e, name) && e.At(name).durable == {e.At(name).now}
  {
    var e := d.(slots := Settle(d.slots));
    WholeStable(d, e, d.At(name).now.value, goal);
    assert name in d.slots;
    forall n | n == name || d.Foreign(d.At(n).now) ensures Kept(d.At(n), e.At(n)) {
      assert n in d.slots;
    }
  }

  /** A published and synced directory survives every crash exactly when the
      parent's own entry was durable. */
  lemma DurableIffParentIs(d: Disk, name: string, goal: Seen)
    requires Complete(d, name, goal) && d.At(name).durable == {d.At(name).now}
    ensures (forall seen :: CrashShows(d, name, seen) ==> seen == goal) <==> false !in d.linked
  {
    var i := d.At(name).now.value;
    if false !in d.linked {
      forall seen | CrashShows(d, name, seen) ensures seen == goal {
        var target :| target in d.At(name).durable && TargetShows(d, target, seen);
        WholeShowsGoal(d, i, goal, seen);
      }
    } else {
      assert CrashShows(d, name, Nothing) && goal != Nothing;
    }
  }

  /** A new entry of ours under a free name publishes nothing. */
  lemma NewEntryIsPrivate(d: Disk, name: string, node: Node, watched: string)
    requires d.Valid() && d.present && Unpublished(d, watched) && name != watched && d.At(name).now == None
    requires !node.ForeignNode? && (node.DirNode? ==> node.slots == map[])
    ensures var e := NewEntry(d, name, node);
            && e.Valid() && Unpublished(e, watched) && PrivateStep(d, e, watched)
            && e.At(name).now == Some(d.next) && d.next in e.nodes && e.nodes[d.next] == node
  {
  }

  /** Removing an entry of ours changes no other. */
  lemma UnlinkIsPrivate(d: Disk, name: string, watched: string)
    requires d.Valid() && Unpublished(d, watched) && name != watched
    requires d.At(name).now.Some? && !d.Foreign(d.At(name).now)
    ensures var e := Unlink(d, name);
            && e.Valid() && Unpublished(e, watched) && PrivateStep(d, e, watched) && e.At(name).now == None
  {
  }

  // ------------------------------------------------ what a reader can see

  ghost predicate Shows(d: Disk, name: string, seen: Seen) {
    LiveShows(d, name, seen) || CrashShows(d, name, seen)
  }

  lemma CompleteShowsGoal(d: Disk, name: string, goal: Seen)
    requires Complete(d, name, goal)
    ensures LiveShows(d, name, goal)
  {
    var i := d.At(name).now.value;
    if d.nodes[i].DirNode? {
      forall n | n in d.nodes[i].slots ensures WholeEntry(d, d.nodes[i].slots[n], goal.files[n]) {
      }
    }
  }

  lemma OwnStepRevealsLate(d: Disk, e: Disk, watched: string, replace: bool, goal: Seen, seen: Seen)
    requires d.Valid() && Secure(d, watched, goal) && Secure(e, watched, goal) && OwnStep(d, e, watched, replace, goal)
    requires CrashShows(e, watched, seen)
    ensures seen == goal || CrashShows(d, watched, seen)
  {
    if !(false in e.linked && seen == Nothing) {
      var target :| target in e.At(watched).durable && TargetShows(e, target, seen);
      if target == e.At(watched).now && Complete(e, watched, goal) {
        WholeShowsGoal(e, target.value, goal, seen);
      } else {
        assert target in d.At(watched).durable && TargetShows(d, target, seen);
      }
    }
  }

  /** A step of ours shows nothing new at the watched name but the complete goal,
      neither now nor after a crash. */
  lemma OwnStepReveals(d: Disk, e: Disk, watched: string, replace: bool, goal: Seen, seen: Seen)
    requires d.Valid() && Secure(d, watched, goal) && Secure(e, watched, goal) && OwnStep(d, e, watched, replace, goal)
    requires Shows(e, watched, seen)
    ensures seen == goal || Shows(d, watched, seen)
  {
    if CrashShows(e, watched, seen) {
      OwnStepRevealsLate(d, e, watched, replace, goal, seen);
    } else if Complete(e, watched, goal) {
      LiveIsGoal(e, e.At(watched).now.value, watched, goal, seen);
    }
  }

  /** and takes nothing away but for the complete goal. */
  lemma OwnStepKeepsView(d: Disk, e: Disk, watched: string, replace: bool, goal: Seen, seen: Seen)
    requires d.Valid() && Secure(d, watched, goal) && Secure(e, watched, goal) && OwnStep(d, e, watched, replace, goal)
    requires LiveShows(d, watched, seen)
    ensures LiveShows(e, watched, seen) || LiveShows(e, watched, goal)
  {
    if Complete(e, watched, goal) {
      CompleteShowsGoal(e, watched, goal);
    }
  }

  /** Other processes that leave the name alone show nothing new there. */
  lemma OthersReveal(d: Disk, e: Disk, name: string, goal: Seen, seen: Seen)
    requires d.Valid() && Secure(d, name, goal) && Interference(d, e) && e.At(name) == d.At(name)
    requires Shows(e, name, seen)
    ensures seen == goal || Shows(d, name, seen)
  {
    SecureStable(d, e, name, goal);
    if CrashShows(e, name, seen) && !(false in e.linked && seen == Nothing) {
      var target :| target in e.At(name).durable && TargetShows(e, target, seen);
      assert name in d.slots || target == None;
      if target.Some? && !d.Foreign(target) {
        WholeStable(d, e, target.value, goal);
        WholeShowsGoal(e, target.value, goal, seen);
      } else {
        assert TargetShows(d, target, seen);
      }
    } else if LiveShows(e, name, seen) && d.At(name).now.Some? && !d.Foreign(d.At(name).now) {
      WholeStable(d, e, d.At(name).now.value, goal);
      LiveIsGoal(e, d.At(name).now.value, name, goal, seen);
    }
  }

  // --------------------------------------------------- theorems about runs

  /** Other processes do not touch this name between the two moments. */
  ghost predicate LeftAlone(trace: seq<Moment>, name: string, from: nat, to: nat) {
    forall i :: from < i <= to && i < |trace| && !trace[i].own ==> trace[i].disk.At(name) == trace[i - 1].disk.At(name)
  }

  /** An old entry that no other process touches: at every moment of the run, now
      and after a crash, the name shows that entry or the complete new content,
      and never nothing. */
  lemma {:induction false} OldOrNew(trace: seq<Moment>, watched: string, replace: bool, goal: Seen, o: Inode, n: nat,
          seen: Seen)
    requires n < |trace| && History(trace, watched, replace, goal) && LeftAlone(trace, watched, 0, n)
    requires var d := trace[0].disk;
             d.At(watched) == Slot(Some(o), {Some(o)}) && d.Foreign(Some(o)) && false !in d.linked
    requires Shows(trace[n].disk, watched, seen)
    ensures seen == Other(o) || seen == goal
    decreases n
  {
    if n > 0 {
      assert StepAt(trace, n, watched, replace, goal);
      if trace[n].own {
        OwnStepReveals(trace[n - 1].disk, trace[n].disk, watched, replace, goal, seen);
      } else {
        OthersReveal(trace[n - 1].disk, trace[n].disk, watched, goal, seen);
      }
      if seen != goal { OldOrNew(trace, watched, replace, goal, o, n - 1, seen); }
    }
  }

  /** An entry of another process stays for as long as other processes let it,
      at every name but the watched one, and there too without replacement. */
  lemma {:induction false} EntriesStay(trace: seq<Moment>, watched: string, replace: bool, goal: Seen, name: string,
          o: Inode, from: nat, n: nat)
    requires from <= n < |trace| && History(trace, watched, replace, goal) && LeftAlone(trace, name, from, n)
    requires name != watched || !replace
    requires trace[from].disk.At(name).now == Some(o) && trace[from].disk.Foreign(Some(o))
    ensures trace[n].disk.At(name).now == Some(o) && trace[n].disk.Foreign(Some(o))
    decreases n
  {
    if n > from {
      EntriesStay(trace, watched, replace, goal, name, o, from, n - 1);
      assert StepAt(trace, n, watched, replace, goal);
    }
  }

  /** Without replacement the name was free when it was published. */
  lemma {:induction false} PublishedFromFree(trace: seq<Moment>, watched: string, goal: Seen, n: nat) returns (i: nat)
    requires n < |trace| && History(trace, watched, false, goal)
    requires Unpublished(trace[0].disk, watched) && Complete(trace[n].disk, watched, goal)
    ensures 0 < i <= n && trace[i].own && trace[i - 1].disk.At(watched).now == None
    ensures Complete(trace[i].disk, watched, goal)
    decreases n
  {
    assert n > 0 && StepAt(trace, n, watched, false, goal);
    if Complete(trace[n - 1].disk, watched, goal) {
      i := PublishedFromFree(trace, watched, goal, n - 1);
    } else {
      i := n;
      if !trace[n].own { UnpublishedStable(trace[n - 1].disk, trace[n].disk, watched); }
    }
  }

  /** At some moment since `from` the name was free. */
  ghost predicate SeenFree(trace: seq<Moment>, from: int, name: string) {
    exists i :: 0 <= i < |trace| && from <= i && trace[i].disk.At(name).now == None
  }

  /** What was seen stays seen. */
  lemma StillSeen(trace: seq<Moment>, more: seq<Moment>, from: int, name: string)
    requires SeenFree(trace, from, name) && trace <= more
    ensures SeenFree(more, from, name)
  {
    var i :| 0 <= i < |trace| && from <= i && trace[i].disk.At(name).now == None;
    assert more[i] == trace[i];
  }

  // ------------------------------------------------- calls shared by all

  /** The watched name was free when the kernel was set up. */
  ghost predicate StartsFree(k: Kernel)
    reads k
  {
    k.trace != [] && k.trace[0].disk.At(k.watched).now == None
  }

  /** A call that leaves our entries alone. */
  method Quiet(k: Kernel) returns (failed: bool)
    requires k.Valid() && Unpublished(k.disk, k.watched)
    modifies k
    ensures k.Valid() && Unpublished(k.disk, k.watched) && old(k.trace) <= k.trace
    ensures k.disk.linked == old(k.disk.linked) && k.disk.present == old(k.disk.present)
    ensures failed ==> !k.Undisturbed()
    ensures k.Undisturbed() && old(k.disk.At(k.temporary).now) == None ==> k.disk.At(k.temporary).now == None
    ensures k.Undisturbed() ==> old(k.Undisturbed())
  {
    ghost var d, call := k.disk, k.clock;
    failed := k.Interfere();
    UnpublishedStable(d, k.disk, k.watched);
    assert k.Undisturbed() ==> k.CalmAt(call);
    k.SparedByOthers(d, k.actions(call));
  }

  /** Make the parent directory if it is not there. */
  method CreateParent(k: Kernel) returns (ok: bool)
    requires k.Valid() && Unpublished(k.disk, k.watched)
    modifies k
    ensures k.Valid() && Unpublished(k.disk, k.watched) && old(k.trace) <= k.trace
    ensures ok ==> k.disk.present && (false in k.disk.linked <==> false in old(k.disk.linked))
    ensures !ok ==> !k.Undisturbed()
    ensures k.Undisturbed() && old(k.disk.At(k.temporary).now) == None ==> k.disk.At(k.temporary).now == None
    ensures k.Undisturbed() ==> old(k.Undisturbed())
  {
    var failed := Quiet(k);
    if failed { return false; }
    k.Commit(MakeParent(k.disk));
    return true;
  }

  /** Open and sync the parent directory. */
  method SyncParent(k: Kernel) returns (ok: bool)
    requires k.Valid() && Complete(k.disk, k.watched, k.goal)
    modifies k
    ensures k.Valid() && Complete(k.disk, k.watched, k.goal) && old(k.trace) <= k.trace
    ensures k.disk.linked == old(k.disk.linked)
    ensures ok ==> k.disk.At(k.watched).durable == {k.disk.At(k.watched).now}
    ensures !ok ==> !k.Undisturbed()
    ensures k.Undisturbed() ==> old(k.Undisturbed())
  {
    ghost var d, call := k.disk, k.clock;
    var failed := k.Interfere();
    assert k.Undisturbed() ==> k.CalmAt(call);
    OursStable(d, k.disk, k.watched);
    WholeStable(d, k.disk, d.At(k.watched).now.value, k.goal);
    if failed { return false; }
    ParentSettled(k.disk, k.watched, k.goal);
    k.Commit(k.disk.(slots := Settle(k.disk.slots)));
    return true;
  }

  /** The last step of every writer: success is durable exactly when the parent's
      own entry is. */
  method SyncPublished(k: Kernel) returns (ok: bool)
    requires k.Valid() && Complete(k.disk, k.watched, k.goal)
    modifies k
    ensures k.Valid() && Complete(k.disk, k.watched, k.goal) && old(k.trace) <= k.trace
    ensures ok ==>
        ((forall seen :: CrashShows(k.disk, k.watched, seen) ==> seen == k.goal) <==> false !in old(k.disk.linked))
    ensures !ok ==> !k.Undisturbed()
    ensures k.Undisturbed() ==> old(k.Undisturbed())
  {
    ok := SyncParent(k);
    if ok { DurableIffParentIs(k.disk, k.watched, k.goal); }
  }
}
