/** One parent directory on a journalled file system, seen three ways: what a
    reader sees now, what a crash may leave, and what another process may do
    between two of our system calls. */
module FileSystem {
  import opened Base

  type Inode = nat

  /** Go strings, Go byte slices and Python bytes are all octet sequences. */
  type Octets = string

  datatype Kind = Regular | Directory | Symlink

  datatype Node =
    | FileNode(bytes: Octets, mode: nat, synced: bool)
    | DirNode(slots: map<string, Slot>, mode: nat, synced: bool)
    | ForeignNode(kind: Kind)

  /** A directory entry: its current target, and every target that a crash may
      leave behind because no directory sync has settled it yet. */
  datatype Slot = Slot(now: Option<Inode>, durable: set<Option<Inode>>)

  const EMPTY_SLOT := Slot(None, {None})

  /** `present` and `linked` describe the parent directory's own entry. */
  datatype Disk = Disk(nodes: map<Inode, Node>, next: Inode, slots: map<string, Slot>, present: bool, linked: set<bool>)
  {
    function At(name: string): Slot {
      if name in slots then slots[name] else EMPTY_SLOT
    }

    predicate Foreign(target: Option<Inode>) {
      target.Some? && target.value in nodes && nodes[target.value].ForeignNode?
    }

    ghost predicate Valid() {
      && (forall i :: i in nodes ==> i < next)
      && (forall name :: name in slots ==> slots[name].now in slots[name].durable)
      && (forall name, target :: name in slots && target in slots[name].durable && target.Some? ==>
         target.value in nodes)
      && present in linked && (!present ==> slots == map[])
    }
  }

  // ------------------------------------------------------- what can be seen

  datatype Image = Image(bytes: Octets, mode: nat)

  datatype Seen = Nothing | Other(i: Inode) | Single(image: Image) | Tree(files: map<string, Image>, mode: nat)

  /** A file after a crash: exact once synced, arbitrary before. */
  ghost predicate FileShows(node: Node, image: Image) {
    node.FileNode? && (node.synced ==> image == Image(node.bytes, node.mode))
  }

  /** One entry of a directory after a crash. */
  ghost predicate EntryShows(d: Disk, slot: Slot, name: string, files: map<string, Image>) {
    exists target :: target in slot.durable &&
      match target
      case None => name !in files
      case Some(i) => i in d.nodes && name in files && FileShows(d.nodes[i], files[name])
  }

  ghost predicate TargetShows(d: Disk, target: Option<Inode>, seen: Seen) {
    match target
    case None => seen == Nothing
    case Some(i) =>
      i in d.nodes &&
      match d.nodes[i]
      case ForeignNode(_) => seen == Other(i)
      case FileNode(_, _, _) => seen.Single? && FileShows(d.nodes[i], seen.image)
      case DirNode(slots, mode, synced) =>
        && seen.Tree? && seen.files.Keys <= slots.Keys
        && (synced ==> seen.mode == mode)
        && forall name :: name in slots ==> EntryShows(d, slots[name], name, seen.files)
  }

  /** What may be found under `name` after a crash in state `d`. */
  ghost predicate CrashShows(d: Disk, name: string, seen: Seen) {
    (false in d.linked && seen == Nothing)
    || exists target :: target in d.At(name).durable && TargetShows(d, target, seen)
  }

  /** What a reader finds under `name` right now. */
  ghost predicate LiveShows(d: Disk, name: string, seen: Seen) {
    match d.At(name).now
    case None => seen == Nothing
    case Some(i) =>
      i in d.nodes &&
      match d.nodes[i]
      case ForeignNode(_) => seen == Other(i)
      case FileNode(bytes, mode, _) => seen == Single(Image(bytes, mode))
      case DirNode(slots, mode, _) =>
        && seen.Tree? && seen.mode == mode
        && forall name ::
          if name in slots && slots[name].now.Some? then
            && name in seen.files && slots[name].now.value in d.nodes
            && d.nodes[slots[name].now.value].FileNode?
            && seen.files[name] == Image(d.nodes[slots[name].now.value].bytes, d.nodes[slots[name].now.value].mode)
          else name !in seen.files
  }

  /** All or nothing: now and after a crash, the name holds what other processes
      put there, nothing, or the complete goal. */
  ghost predicate AllOrNothing(d: Disk, name: string, goal: Seen) {
    forall seen :: LiveShows(d, name, seen) || CrashShows(d, name, seen) ==>
        seen == Nothing || seen.Other? || seen == goal
  }

  /** Nothing of ours is, or can become, reachable under the name. */
  ghost predicate Unpublished(d: Disk, name: string) {
    && (d.At(name).now == None || d.Foreign(d.At(name).now))
    && forall target :: target in d.At(name).durable ==> target == None || d.Foreign(target)
  }

  lemma UnpublishedIsSafe(d: Disk, name: string, goal: Seen)
    requires Unpublished(d, name)
    ensures AllOrNothing(d, name, goal)
  {
    forall seen | CrashShows(d, name, seen) ensures seen == Nothing || seen.Other? {
      if !(false in d.linked && seen == Nothing) {
        var target :| target in d.At(name).durable && TargetShows(d, target, seen);
      }
    }
  }

  // ------------------------------------------------------ other processes

  /** What other processes may do while we are between two system calls: create
      and remove entries of their own, never entries of ours. */
  datatype Action = Create(name: string, kind: Kind) | Remove(name: string)

  function Act(d: Disk, action: Action): Disk {
    if !d.present then d
    else
      match action
      case Create(name, kind) =>
        if d.At(name).now.Some? then d
        else
          d.(nodes := d.nodes[d.next := ForeignNode(kind)], next := d.next + 1,
             slots := d.slots[name := Slot(Some(d.next), d.At(name).durable + {Some(d.next)})])
      case Remove(name) =>
        if !d.Foreign(d.At(name).now) then d
        else d.(slots := d.slots[name := Slot(None, d.At(name).durable + {None})])
  }

  /** The frame of other processes, closed under repetition. */
  ghost predicate Interference(d: Disk, e: Disk) {
    && d.next <= e.next && d.present == e.present && d.linked == e.linked
    && (forall i :: i in d.nodes ==> i in e.nodes && e.nodes[i] == d.nodes[i])
    && (forall i :: i in e.nodes && i !in d.nodes ==> d.next <= i && e.nodes[i].ForeignNode?)
    && forall name {:trigger e.At(name)} :: SlotFrame(d, e, name)
  }

  ghost predicate SlotFrame(d: Disk, e: Disk, name: string) {
    d.At(name) == e.At(name) || SlotTaken(d, d.At(name), e, e.At(name))
  }

  ghost predicate SlotTaken(d: Disk, s: Slot, e: Disk, t: Slot) {
    && (s.now == None || d.Foreign(s.now))
    && (t.now == None || e.Foreign(t.now))
    && s.durable <= t.durable
    && forall target :: target in t.durable && target !in s.durable ==> target == None || e.Foreign(target)
  }

  lemma ActInterferes(d: Disk, action: Action)
    requires d.Valid()
    ensures Act(d, action).Valid() && Interference(d, Act(d, action))
  {
    var e := Act(d, action);
    forall name ensures SlotFrame(d, e, name) {
    }
  }

  lemma InterferenceTransitive(d: Disk, e: Disk, f: Disk)
    requires d.Valid() && Interference(d, e) && Interference(e, f)
    ensures Interference(d, f)
  {
    forall name ensures SlotFrame(d, f, name) {
      assert SlotFrame(d, e, name) && SlotFrame(e, f, name);
    }
  }

  lemma UnpublishedStable(d: Disk, e: Disk, name: string)
    requires Unpublished(d, name) && Interference(d, e)
    ensures Unpublished(e, name)
  {
    assert SlotFrame(d, e, name);
  }

  /** An entry of ours, current or merely possible after a crash, survives
      whatever other processes do. */
  lemma OursStable(d: Disk, e: Disk, name: string)
    requires Interference(d, e) && d.At(name).now.Some? && !d.Foreign(d.At(name).now)
    ensures e.At(name) == d.At(name)
  {
    assert SlotFrame(d, e, name);
  }

  // ------------------------------------------------------------ own steps

  /** The entry stays, and a crash can show no more of it than before. */
  predicate Kept(before: Slot, after: Slot) {
    after.now == before.now && after.durable <= before.durable
  }

  /** What a step of ours never does: touch or invent a node of another process,
      or make the parent's own entry less durable. */
  ghost predicate OthersKept(d: Disk, e: Disk) {
    && (forall i :: d.Foreign(Some(i)) ==> i in e.nodes && e.nodes[i] == d.nodes[i])
    && (forall i :: e.Foreign(Some(i)) ==> d.Foreign(Some(i)))
    && e.linked <= d.linked + {true}
  }

  /** A step of ours outside the watched name: every entry of another process,
      and the watched one whoever owns it, stays. */
  ghost predicate PrivateStep(d: Disk, e: Disk, watched: string) {
    OthersKept(d, e) && forall name {:trigger e.At(name)} :: name == watched || d.Foreign(d.At(name).now) ==>
        Kept(d.At(name), e.At(name))
  }
}
