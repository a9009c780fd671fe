/** `writePublicationDirectory` of cmd/rufus-channel-admin/main.go: a directory
    is staged privately, synced and renamed into place without replacement. */
module Publication {
  import opened Base
  import opened FileSystem
  import opened Kernels

  const FILE_MODE := 0x1A4       // 0644
  const DIRECTORY_MODE := 0x1ED  // 0755
  const SUMS := "SHA256SUMS"

  // ------------------------------------------------------- sorted names

  /** Go's string order. */
  predicate Before(a: string, b: string) {
    if b == [] then false
    else if a == [] then true
    else if a[0] != b[0] then a[0] < b[0]
    else Before(a[1..], b[1..])
  }

  /** It is the order of a dictionary: a text comes after its own beginnings, and
      otherwise the first difference decides. */
  lemma {:induction false} BeforeIsDictionary(front: string, x: char, s: string, y: char, t: string)
    requires x != y
    ensures Before(front, front + [x] + s) && !Before(front + [x] + s, front)
    ensures Before(front + [x] + s, front + [y] + t) <==> x < y
  {
    if front != "" {
      BeforeIsDictionary(front[1..], x, s, y, t);
      assert (front + [x] + s)[1..] == front[1..] + [x] + s && (front + [y] + t)[1..] == front[1..] + [y] + t;
    }
  }

  ghost predicate Sorted(names: seq<string>) {
    forall i, j :: 0 <= i < j < |names| ==> Before(names[i], names[j])
  }

  function Elements(names: seq<string>): set<string> {
    set name | name in names
  }

  lemma {:induction false} BeforeIsTotal(a: string, b: string)
    ensures !Before(a, a)
    ensures a != b ==> (Before(a, b) <==> !Before(b, a))
  {
    if a != [] && b != [] && a[0] == b[0] {
      BeforeIsTotal(a[1..], b[1..]);
      assert a == [a[0]] + a[1..] && b == [b[0]] + b[1..];
    }
    if a != [] { BeforeIrreflexive(a); }
  }

  lemma {:induction false} BeforeIrreflexive(a: string)
    ensures !Before(a, a)
  {
    if a != [] { BeforeIrreflexive(a[1..]); }
  }

  lemma {:induction false} BeforeTransitive(a: string, b: string, c: string)
    requires Before(a, b) && Before(b, c)
    ensures Before(a, c)
  {
    if a != [] && a[0] == b[0] && b[0] == c[0] {
      BeforeTransitive(a[1..], b[1..], c[1..]);
    }
  }

  function Insert(name: string, names: seq<string>): seq<string> {
    if names == [] || !Before(names[0], name) then [name] + names
    else [names[0]] + Insert(name, names[1..])
  }

  /** `sort.Strings`. */
  function Sort(names: seq<string>): seq<string> {
    if names == [] then [] else Insert(names[0], Sort(names[1..]))
  }

  lemma {:induction false} InsertSorts(name: string, names: seq<string>)
    requires Sorted(names) && name !in names
    ensures Sorted(Insert(name, names)) && Elements(Insert(name, names)) == Elements(names) + {name}
  {
    if names == [] {
    } else if !Before(names[0], name) {
      BeforeIsTotal(name, names[0]);
      forall i | 0 < i < |names| ensures Before(name, names[i]) {
        BeforeTransitive(name, names[0], names[i]);
      }
    } else {
      InsertSorts(name, names[1..]);
      var tail := Insert(name, names[1..]);
      forall i | 0 <= i < |tail| ensures Before(names[0], tail[i]) {
        assert tail[i] in Elements(tail);
      }
      forall x ensures x in Elements(Insert(name, names)) <==> x in Elements(names) + {name} {
        assert x in Insert(name, names) <==> x == names[0] || x in tail;
        assert x in tail <==> x in Elements(tail);
        assert x in names <==> x == names[0] || x in names[1..];
      }
    }
  }

  predicate Distinct(names: seq<string>) {
    forall i, j :: 0 <= i < j < |names| ==> names[i] != names[j]
  }

  lemma {:induction false} SortSorts(names: seq<string>)
    requires Distinct(names)
    ensures Sorted(Sort(names)) && Elements(Sort(names)) == Elements(names)
  {
    if names != [] {
      SortSorts(names[1..]);
      assert names[0] !in names[1..];
      assert names[0] !in Elements(Sort(names[1..]));
      InsertSorts(names[0], Sort(names[1..]));
      assert Elements(names) == Elements(names[1..]) + {names[0]};
    }
  }

  /** A set of names has one sorted listing only: the outcome cannot depend on
      the order in which the map was ranged over. */
  lemma {:induction false} SortedListingIsUnique(a: seq<string>, b: seq<string>)
    requires Sorted(a) && Sorted(b) && Elements(a) == Elements(b)
    ensures a == b
  {
    if a == [] || b == [] {
      NoElements(a);
      NoElements(b);
    } else {
      assert a[0] in Elements(b) && b[0] in Elements(a);
      var i :| 0 <= i < |b| && b[i] == a[0];
      var j :| 0 <= j < |a| && a[j] == b[0];
      BeforeIsTotal(a[0], b[0]);
      assert a[0] == b[0];
      SortedTail(a);
      SortedTail(b);
      SortedListingIsUnique(a[1..], b[1..]);
      assert a == [a[0]] + a[1..] && b == [b[0]] + b[1..];
    }
  }

  lemma NoElements(a: seq<string>)
    ensures Elements(a) == {} <==> a == []
  {
    if a != [] { assert a[0] in Elements(a); }
  }

  lemma SortedTail(a: seq<string>)
    requires Sorted(a) && a != []
    ensures Sorted(a[1..]) && Elements(a[1..]) == Elements(a) - {a[0]}
  {
    BeforeIrreflexive(a[0]);
    forall x ensures x in Elements(a[1..]) <==> x in Elements(a) - {a[0]} {
      assert x in a <==> x == a[0] || x in a[1..];
    }
  }

  // ------------------------------------------------------------- the goal

  function Line(digest: Octets -> string, files: map<string, Octets>, name: string): string
    requires name in files
  {
    digest(files[name]) + "  " + name
  }

  /** `strings.Join(lines, "\n") + "\n"` over a listing of the files. */
  function SumsText(digest: Octets -> string, files: map<string, Octets>, names: seq<string>): string
    requires forall name :: name in names ==> name in files
  {
    if names == [] then "\n"
    else if |names| == 1 then Line(digest, files, names[0]) + "\n"
    else Line(digest, files, names[0]) + "\n" + SumsText(digest, files, names[1..])
  }

  function Join(lines: seq<string>): string {
    if lines == [] then "" else if |lines| == 1 then lines[0] else lines[0] + "\n" + Join(lines[1..])
  }

  function Lines(digest: Octets -> string, files: map<string, Octets>, names: seq<string>): seq<string>
    requires forall name :: name in names ==> name in files
  {
    if names == [] then [] else [Line(digest, files, names[0])] + Lines(digest, files, names[1..])
  }

  lemma {:induction false} JoinedLines(digest: Octets -> string, files: map<string, Octets>, names: seq<string>)
    requires forall name :: name in names ==> name in files
    ensures |Lines(digest, files, names)| == |names|
    ensures Join(Lines(digest, files, names)) + "\n" == SumsText(digest, files, names)
  {
    if names != [] {
      JoinedLines(digest, files, names[1..]);
      var line, rest := Line(digest, files, names[0]), Lines(digest, files, names[1..]);
      assert ([line] + rest)[1..] == rest;
      if |names| > 1 {
        assert line + "\n" + Join(rest) + "\n" == line + "\n" + (Join(rest) + "\n");
      }
    }
  }

  lemma {:induction false} LinesSnoc(digest: Octets -> string, files: map<string, Octets>, names: seq<string>,
          name: string)
    requires name in files && forall n :: n in names ==> n in files
    ensures Lines(digest, files, names + [name]) == Lines(digest, files, names) + [Line(digest, files, name)]
  {
    if names == [] {
      assert names + [name] == [name];
    } else {
      LinesSnoc(digest, files, names[1..], name);
      assert (names + [name])[1..] == names[1..] + [name];
    }
  }

  /** The complete publication: every file in full and one checksum line per
      file in sorted order. */
  ghost predicate IsGoal(digest: Octets -> string, files: map<string, Octets>, goal: Seen) {
    && goal.Tree? && goal.mode == DIRECTORY_MODE
    && goal.files.Keys == files.Keys + {SUMS}
    && (forall name :: name in files && name != SUMS ==> goal.files[name] == Image(files[name], FILE_MODE))
    && goal.files[SUMS].mode == FILE_MODE
    && forall names | Sorted(names) && Elements(names) == files.Keys ::
         goal.files[SUMS].bytes == SumsText(digest, files, names)
  }

  // --------------------------------------------------------------- staging

  /** A staged file: its entry still awaits the directory sync. */
  ghost predicate StagedEntry(d: Disk, slot: Slot, image: Image) {
    && slot.now.Some? && slot.durable == {None, slot.now} && slot.now.value in d.nodes
    && d.nodes[slot.now.value] == FileNode(image.bytes, image.mode, true)
  }

  ghost predicate Staged(d: Disk, temporary: string, t: Inode, staged: map<string, Image>) {
    && d.At(temporary).now == Some(t) && t in d.nodes && d.nodes[t].DirNode?
    && d.nodes[t].slots.Keys == staged.Keys
    && forall name :: name in staged ==> StagedEntry(d, d.nodes[t].slots[name], staged[name])
  }

  /** One more file j is open; the others are staged. */
  ghost predicate Writing(d: Disk, temporary: string, t: Inode, staged: map<string, Image>, name: string, j: Inode) {
    && d.At(temporary).now == Some(t) && t in d.nodes && d.nodes[t].DirNode? && j != t
    && name !in staged && d.nodes[t].slots.Keys == staged.Keys + {name}
    && d.nodes[t].slots[name] == Slot(Some(j), {None, Some(j)}) && j in d.nodes && d.nodes[j].FileNode?
    && forall n :: n in staged ==> StagedEntry(d, d.nodes[t].slots[n], staged[n]) && d.nodes[t].slots[n].now != Some(j)
  }

  lemma StagedStable(d: Disk, e: Disk, temporary: string, t: Inode, staged: map<string, Image>)
    requires Staged(d, temporary, t, staged) && Interference(d, e)
    ensures Staged(e, temporary, t, staged)
  {
    OursStable(d, e, temporary);
    forall name | name in staged ensures StagedEntry(e, e.nodes[t].slots[name], staged[name]) {
      assert StagedEntry(d, d.nodes[t].slots[name], staged[name]);
    }
  }

  lemma WritingStable(d: Disk, e: Disk, temporary: string, t: Inode, staged: map<string, Image>, name: string, j: Inode)
    requires Writing(d, temporary, t, staged, name, j) && Interference(d, e)
    ensures Writing(e, temporary, t, staged, name, j) && e.nodes[j] == d.nodes[j]
  {
    OursStable(d, e, temporary);
    forall n | n in staged ensures StagedEntry(e, e.nodes[t].slots[n], staged[n]) {
      assert StagedEntry(d, d.nodes[t].slots[n], staged[n]);
    }
  }

  /** Changing a private node publishes nothing. */
  lemma PrivateChange(d: Disk, i: Inode, node: Node, watched: string)
    requires d.Valid() && Unpublished(d, watched)
    requires i in d.nodes && !d.nodes[i].ForeignNode? && !node.ForeignNode?
    ensures var e := SetNode(d, i, node); e.Valid() && Unpublished(e, watched) && PrivateStep(d, e, watched)
  {
  }

  lemma WritingChange(d: Disk, temporary: string, t: Inode, staged: map<string, Image>, name: string, j: Inode,
          node: Node)
    requires Writing(d, temporary, t, staged, name, j) && node.FileNode?
    ensures Writing(SetNode(d, j, node), temporary, t, staged, name, j)
  {
    var e := SetNode(d, j, node);
    forall n | n in staged ensures StagedEntry(e, e.nodes[t].slots[n], staged[n]) {
      assert StagedEntry(d, d.nodes[t].slots[n], staged[n]);
    }
  }

  lemma InnerCreated(d: Disk, temporary: string, t: Inode, staged: map<string, Image>, name: string, watched: string)
    requires d.Valid() && Unpublished(d, watched) && Staged(d, temporary, t, staged) && name !in staged
    ensures var e := NewInner(d, t, name);
            && e.Valid() && Unpublished(e, watched) && PrivateStep(d, e, watched)
            && Writing(e, temporary, t, staged, name, d.next)
  {
    var e := NewInner(d, t, name);
    forall n | n in staged ensures StagedEntry(e, e.nodes[t].slots[n], staged[n])
        && e.nodes[t].slots[n].now != Some(d.next) {
      assert StagedEntry(d, d.nodes[t].slots[n], staged[n]);
    }
  }

  lemma WritingDone(d: Disk, temporary: string, t: Inode, staged: map<string, Image>, name: string, j: Inode,
          image: Image)
    requires Writing(d, temporary, t, staged, name, j) && d.nodes[j] == FileNode(image.bytes, image.mode, true)
    ensures Staged(d, temporary, t, staged[name := image])
  {
    forall n | n in staged[name := image] ensures StagedEntry(d, d.nodes[t].slots[n], staged[name := image][n]) {
      if n != name { assert StagedEntry(d, d.nodes[t].slots[n], staged[n]); }
    }
  }

  ghost predicate OwnsDirectory(d: Disk, temporary: string, t: Inode) {
    d.At(temporary).now == Some(t) && t in d.nodes && d.nodes[t].DirNode?
  }

  /** `os.OpenFile` with O_CREATE and O_EXCL inside the private directory. */
  method OpenPrivate(k: Kernel, temporary: string, t: Inode, name: string,
        ghost staged: map<string, Image>) returns (j: Option<Inode>)
    requires k.Valid() && Unpublished(k.disk, k.watched) && Staged(k.disk, temporary, t, staged)
    modifies k
    ensures k.Valid() && Unpublished(k.disk, k.watched) && old(k.trace) <= k.trace
    ensures k.disk.linked == old(k.disk.linked)
    ensures OwnsDirectory(k.disk, temporary, t)
    ensures j.Some? ==> name !in staged && Writing(k.disk, temporary, t, staged, name, j.value)
    ensures j.Some? ==> name != "." && name != ".."
    ensures j.None? && k.Undisturbed() ==> name == "." || name == ".." || name in staged
    ensures k.Undisturbed() ==> old(k.Undisturbed())
  {
    ghost var d, call := k.disk, k.clock;
    var failed := k.Interfere();
    assert k.Undisturbed() ==> k.CalmAt(call);
    UnpublishedStable(d, k.disk, k.watched);
    StagedStable(d, k.disk, temporary, t, staged);
    if failed || name == "." || name == ".." || name in k.disk.nodes[t].slots { return None; }
    InnerCreated(k.disk, temporary, t, staged, name, k.watched);
    j := Some(k.disk.next);
    k.Commit(NewInner(k.disk, t, name));
  }

  /** Open exclusively, write, chmod, sync and close one private file. */
  method StageFile(k: Kernel, temporary: string, t: Inode, name: string, data: Octets,
        ghost staged: map<string, Image>) returns (ok: bool)
    requires k.Valid() && Unpublished(k.disk, k.watched) && Staged(k.disk, temporary, t, staged)
    modifies k
    ensures k.Valid() && Unpublished(k.disk, k.watched) && old(k.trace) <= k.trace
    ensures k.disk.linked == old(k.disk.linked)
    ensures OwnsDirectory(k.disk, temporary, t)
    ensures ok ==> name !in staged && Staged(k.disk, temporary, t, staged[name := Image(data, FILE_MODE)])
    ensures ok ==> name != "." && name != ".."
    ensures !ok && k.Undisturbed() ==> name == "." || name == ".." || name in staged
    ensures k.Undisturbed() ==> old(k.Undisturbed())
  {
    var entry := OpenPrivate(k, temporary, t, name, staged);
    if entry.None? { return false; }
    var j := entry.value;
    var done := FillFile(k, temporary, t, name, j, data, staged);
    if !done { return false; }
    ghost var d, call := k.disk, k.clock;
    var failed := k.Interfere();
    assert k.Undisturbed() ==> k.CalmAt(call);
    UnpublishedStable(d, k.disk, k.watched);
    WritingStable(d, k.disk, temporary, t, staged, name, j);
    if failed { return false; }
    WritingDone(k.disk, temporary, t, staged, name, j, Image(data, FILE_MODE));
    return true;
  }

  /** Write, chmod and sync. */
  method FillFile(k: Kernel, temporary: string, t: Inode, name: string, j: Inode, data: Octets,
          ghost staged: map<string, Image>) returns (done: bool)
    requires k.Valid() && Unpublished(k.disk, k.watched) && Writing(k.disk, temporary, t, staged, name, j)
    modifies k
    ensures k.Valid() && Unpublished(k.disk, k.watched) && old(k.trace) <= k.trace
    ensures k.disk.linked == old(k.disk.linked)
    ensures Writing(k.disk, temporary, t, staged, name, j)
    ensures done ==> k.disk.nodes[j] == FileNode(data, FILE_MODE, true)
    ensures !done ==> !k.Undisturbed()
    ensures k.Undisturbed() ==> old(k.Undisturbed())
  {
    done := WriteNode(k, temporary, t, name, j, FileNode(data, 0, false), staged);
    if !done { return; }
    done := WriteNode(k, temporary, t, name, j, FileNode(data, FILE_MODE, false), staged);
    if !done { return; }
    done := WriteNode(k, temporary, t, name, j, FileNode(data, FILE_MODE, true), staged);
  }

  /** One call on the open file. A failed write may leave a prefix behind. */
  method WriteNode(k: Kernel, temporary: string, t: Inode, name: string, j: Inode, node: Node,
        ghost staged: map<string, Image>) returns (done: bool)
    requires k.Valid() && Unpublished(k.disk, k.watched) && Writing(k.disk, temporary, t, staged, name, j)
    requires node.FileNode?
    modifies k
    ensures k.Valid() && Unpublished(k.disk, k.watched) && old(k.trace) <= k.trace
    ensures k.disk.linked == old(k.disk.linked)
    ensures Writing(k.disk, temporary, t, staged, name, j)
    ensures done ==> k.disk.nodes[j] == node
    ensures !done ==> !k.Undisturbed()
    ensures k.Undisturbed() ==> old(k.Undisturbed())
  {
    ghost var d, call := k.disk, k.clock;
    var failed := k.Interfere();
    assert k.Undisturbed() ==> k.CalmAt(call);
    UnpublishedStable(d, k.disk, k.watched);
    WritingStable(d, k.disk, temporary, t, staged, name, j);
    var kept := k.written(k.clock);
    var left := if failed then FileNode(if 0 <= kept <= |node.bytes| then node.bytes[..kept]
        else "", k.disk.nodes[j].mode, false) else node;
    PrivateChange(k.disk, j, left, k.watched);
    WritingChange(k.disk, temporary, t, staged, name, j, left);
    k.Commit(SetNode(k.disk, j, left));
    done := !failed;
  }

  // ------------------------------------------------------------ publication

  /** `unicode.IsSpace`: what Go's `strings.TrimSpace` removes. */
  predicate GoSpace(c: char) {
    IsSpace(c) && !('\U{1C}' <= c <= '\U{1F}')
  }

  lemma SpacesOfGo()
    ensures GoSpace(' ') && GoSpace('\t') && GoSpace('\n') && GoSpace('\r') && GoSpace('\U{85}') && GoSpace('\U{A0}')
    ensures !GoSpace('\U{1C}') && !GoSpace('\U{1F}') && forall c :: '!' <= c <= '~' ==> !GoSpace(c)
  {
  }

  /** The name check made while ranging over the map. */
  predicate PlainName(name: string) {
    name != "" && forall c :: c in name ==> c != '/' && c != '\\'
  }

  /** The names left that cannot be staged beside the checksum list. */
  predicate Storable(name: string) {
    name != "." && name != ".." && name != SUMS
  }

  predicate Publishable(files: map<string, Octets>) {
    forall name :: name in files ==> PlainName(name) && Storable(name)
  }

  /** Range over the map in any order, then sort. */
  method CollectNames(files: map<string, Octets>) returns (names: Option<seq<string>>)
    ensures names.Some? <==> forall name :: name in files ==> PlainName(name)
    ensures names.Some? ==> Sorted(names.value) && Elements(names.value) == files.Keys
  {
    var pending := files.Keys;
    var collected: seq<string> := [];
    while pending != {}
      invariant Elements(collected) + pending == files.Keys && Elements(collected) !! pending
      invariant Distinct(collected) && forall name :: name in collected ==> PlainName(name)
      decreases pending
    {
      var name :| name in pending;
      if !PlainName(name) { return None; }
      assert name !in Elements(collected);
      ghost var before := collected;
      collected := collected + [name];
      pending := pending - {name};
      assert Elements(collected) == Elements(before) + {name};
    }
    assert forall name :: name in files ==> name in Elements(collected);
    SortSorts(collected);
    return Some(Sort(collected));
  }

  /** The deferred `os.RemoveAll(temporary)`; its own failure is ignored. */
  method RemoveAll(k: Kernel, temporary: string, ghost t: Inode)
    requires k.Valid() && Unpublished(k.disk, k.watched) && temporary != k.watched
    requires OwnsDirectory(k.disk, temporary, t)
    modifies k
    ensures k.Valid() && Unpublished(k.disk, k.watched) && old(k.trace) <= k.trace
    ensures k.disk.linked == old(k.disk.linked)
    ensures k.clock > 0 && (k.fails(k.clock - 1) || k.disk.At(temporary).now == None)
    ensures k.Undisturbed() ==> old(k.Undisturbed())
  {
    ghost var d := k.disk;
    var failed := k.Interfere();
    UnpublishedStable(d, k.disk, k.watched);
    OursStable(d, k.disk, temporary);
    if failed { return; }
    UnlinkIsPrivate(k.disk, temporary, k.watched);
    k.Commit(Unlink(k.disk, temporary));
  }

  /** Settling a staged directory makes it whole. */
  lemma StagedBecomesWhole(d: Disk, temporary: string, t: Inode, staged: map<string, Image>, watched: string)
    requires d.Valid() && Unpublished(d, watched) && Staged(d, temporary, t, staged)
    ensures var e := SetNode(d, t, DirNode(Settle(d.nodes[t].slots), DIRECTORY_MODE, true));
            && e.Valid() && Unpublished(e, watched) && PrivateStep(d, e, watched)
            && Whole(e, t, Tree(staged, DIRECTORY_MODE))
  {
    var e := SetNode(d, t, DirNode(Settle(d.nodes[t].slots), DIRECTORY_MODE, true));
    PrivateChange(d, t, DirNode(Settle(d.nodes[t].slots), DIRECTORY_MODE, true), watched);
    forall name | name in e.nodes[t].slots ensures WholeEntry(e, e.nodes[t].slots[name], staged[name]) {
      assert StagedEntry(d, d.nodes[t].slots[name], staged[name]);
    }
  }

  /** A rename onto a free name publishes a whole node in one step. */
  lemma RenamePublishes(d: Disk, from: string, to: string, goal: Seen)
    requires d.Valid() && Unpublished(d, to) && from != to && d.At(from).now.Some? && !d.Foreign(d.At(from).now)
    requires d.At(to).now == None && Whole(d, d.At(from).now.value, goal)
    ensures var e := Rename(d, from, to); e.Valid() && PublishStep(d, e, to, false, goal)
  {
    var e := Rename(d, from, to);
    assert from in d.slots && to in e.slots && from in e.slots;
    WholeStable(d, e, d.At(from).now.value, goal);
    forall name, target | name in e.slots && target in e.slots[name].durable && target.Some?
        ensures target.value in e.nodes {
      if name != from && name != to { assert name in d.slots; }
    }
  }

  method MakeTemporary(k: Kernel, temporary: string) returns (t: Option<Inode>)
    requires k.Valid() && Unpublished(k.disk, k.watched) && temporary != k.watched && k.disk.present
    modifies k
    ensures k.Valid() && Unpublished(k.disk, k.watched) && old(k.trace) <= k.trace
    ensures k.disk.linked == old(k.disk.linked)
    ensures t.Some? ==> Staged(k.disk, temporary, t.value, map[])
    ensures t.None? && temporary == k.temporary && old(k.disk.At(temporary).now) == None ==> !k.Undisturbed()
    ensures k.Undisturbed() ==> old(k.Undisturbed())
  {
    ghost var d, call := k.disk, k.clock;
    var failed := k.Interfere();
    assert k.Undisturbed() ==> k.CalmAt(call);
    UnpublishedStable(d, k.disk, k.watched);
    k.SparedByOthers(d, k.actions(call));
    if failed || k.disk.At(temporary).now.Some? { return None; }
    t := Some(k.disk.next);
    NewEntryIsPrivate(k.disk, temporary, DirNode(map[], 0x1C0, false), k.watched);
    k.Commit(NewEntry(k.disk, temporary, DirNode(map[], 0x1C0, false)));
  }

  /** The first i names are staged and listed. */
  ghost predicate Listed(digest: Octets -> string, files: map<string, Octets>, names: seq<string>, i: nat,
                         staged: map<string, Image>, lines: seq<string>)
  {
    && i <= |names| && (forall name :: name in names ==> name in files)
    && staged.Keys == Elements(names[..i])
    && (forall name :: name in staged ==> staged[name] == Image(files[name], FILE_MODE))
    && lines == Lines(digest, files, names[..i])
  }

  lemma ListedNext(digest: Octets -> string, files: map<string, Octets>, names: seq<string>, i: nat,
        staged: map<string, Image>, lines: seq<string>)
    requires Listed(digest, files, names, i, staged, lines) && i < |names|
    ensures Listed(digest, files, names, i + 1, staged[names[i] := Image(files[names[i]], FILE_MODE)],
                   lines + [Line(digest, files, names[i])])
  {
    LinesSnoc(digest, files, names[..i], names[i]);
    assert names[..i + 1] == names[..i] + [names[i]];
    assert Elements(names[..i + 1]) == Elements(names[..i]) + {names[i]};
  }

  lemma ListedAll(digest: Octets -> string, files: map<string, Octets>, names: seq<string>, staged: map<string, Image>,
          lines: seq<string>)
    requires Listed(digest, files, names, |names|, staged, lines) && SUMS !in staged
    requires Sorted(names) && Elements(names) == files.Keys
    ensures IsGoal(digest, files, Tree(staged[SUMS := Image(Join(lines) + "\n", FILE_MODE)], DIRECTORY_MODE))
  {
    assert names[..|names|] == names;
    JoinedLines(digest, files, names);
    forall other | Sorted(other) && Elements(other) == files.Keys
      ensures (forall name :: name in other ==> name in files) && Join(lines) + "\n" == SumsText(digest, files, other)
    {
      SortedListingIsUnique(names, other);
    }
  }

  /** Every name before the first `i` could be staged. */
  ghost predicate StorableBefore(names: seq<string>, i: nat) {
    i <= |names| && forall k :: 0 <= k < i ==> names[k] != "." && names[k] != ".."
  }

  lemma NotYetStaged(digest: Octets -> string, files: map<string, Octets>, names: seq<string>, i: nat,
        staged: map<string, Image>, lines: seq<string>)
    requires Listed(digest, files, names, i, staged, lines) && i < |names| && Sorted(names)
    ensures names[i] !in staged
  {
    BeforeIrreflexive(names[i]);
  }

  lemma BadName(names: seq<string>, i: nat)
    requires i < |names| && (names[i] == "." || names[i] == "..")
    ensures exists name :: name in names && !Storable(name)
  {
    assert names[i] in names && !Storable(names[i]);
  }

  /** Write every file into the private directory, in the order of the names. */
  method StageFiles(k: Kernel, temporary: string, t: Inode, names: seq<string>, digest: Octets -> string,
          files: map<string, Octets>)
      returns (ok: bool, ghost staged: map<string, Image>, lines: seq<string>)
    requires k.Valid() && Unpublished(k.disk, k.watched) && Staged(k.disk, temporary, t, map[])
    requires Sorted(names) && forall name :: name in names ==> name in files
    modifies k
    ensures k.Valid() && Unpublished(k.disk, k.watched) && old(k.trace) <= k.trace
    ensures k.disk.linked == old(k.disk.linked) && OwnsDirectory(k.disk, temporary, t)
    ensures ok ==> Staged(k.disk, temporary, t, staged) && Listed(digest, files, names, |names|, staged, lines)
    ensures ok ==> StorableBefore(names, |names|)
    ensures !ok && k.Undisturbed() ==> exists name :: name in names && !Storable(name)
    ensures k.Undisturbed() ==> old(k.Undisturbed())
  {
    staged, lines, ok := map[], [], true;
    var i := 0;
    while i < |names|
      invariant Listed(digest, files, names, i, staged, lines) && old(k.trace) <= k.trace
      invariant k.Valid() && Unpublished(k.disk, k.watched) && Staged(k.disk, temporary, t, staged)
      invariant k.disk.linked == old(k.disk.linked) && StorableBefore(names, i) && ok
      invariant k.Undisturbed() ==> old(k.Undisturbed())
    {
      var data := files[names[i]];
      NotYetStaged(digest, files, names, i, staged, lines);
      ok := StageFile(k, temporary, t, names[i], data, staged);
      if !ok {
        if k.Undisturbed() { BadName(names, i); }
        return;
      }
      ListedNext(digest, files, names, i, staged, lines);
      staged := staged[names[i] := Image(data, FILE_MODE)];
      lines := lines + [digest(data) + "  " + names[i]];
      i := i + 1;
    }
  }

  lemma StagedNames(digest: Octets -> string, files: map<string, Octets>, names: seq<string>,
        staged: map<string, Image>, lines: seq<string>)
    requires Listed(digest, files, names, |names|, staged, lines) && StorableBefore(names, |names|)
    ensures SUMS in staged ==> SUMS in names
    ensures SUMS !in staged ==> forall name :: name in names ==> Storable(name)
  {
    assert names[..|names|] == names;
    assert forall name :: name in names ==> name in Elements(names);
  }

  /** Write every file and the checksum list into the private directory. */
  method StageAll(k: Kernel, temporary: string, t: Inode, names: seq<string>, digest: Octets -> string,
          files: map<string, Octets>)
      returns (ok: bool, ghost staged: map<string, Image>)
    requires k.Valid() && Unpublished(k.disk, k.watched) && Staged(k.disk, temporary, t, map[])
    requires Sorted(names) && Elements(names) == files.Keys
    modifies k
    ensures k.Valid() && Unpublished(k.disk, k.watched) && old(k.trace) <= k.trace
    ensures k.disk.linked == old(k.disk.linked) && OwnsDirectory(k.disk, temporary, t)
    ensures ok ==> Staged(k.disk, temporary, t, staged) && IsGoal(digest, files, Tree(staged, DIRECTORY_MODE))
    ensures ok ==> forall name :: name in names ==> Storable(name)
    ensures !ok && k.Undisturbed() ==> exists name :: name in names && !Storable(name)
    ensures k.Undisturbed() ==> old(k.Undisturbed())
  {
    assert forall name :: name in names ==> name in Elements(names);
    var lines;
    ok, staged, lines := StageFiles(k, temporary, t, names, digest, files);
    if !ok { return; }
    StagedNames(digest, files, names, staged, lines);
    ok := StageFile(k, temporary, t, SUMS, Join(lines) + "\n", staged);
    if !ok {
      assert k.Undisturbed() ==> SUMS in names && !Storable(SUMS);
      return;
    }
    ListedAll(digest, files, names, staged, lines);
    staged := staged[SUMS := Image(Join(lines) + "\n", FILE_MODE)];
  }

  method QuietStaged(k: Kernel, temporary: string, t: Inode, ghost staged: map<string, Image>) returns (failed: bool)
    requires k.Valid() && Unpublished(k.disk, k.watched) && Staged(k.disk, temporary, t, staged)
    modifies k
    ensures k.Valid() && Unpublished(k.disk, k.watched) && old(k.trace) <= k.trace
    ensures k.disk.linked == old(k.disk.linked)
    ensures Staged(k.disk, temporary, t, staged)
    ensures failed ==> !k.Undisturbed()
    ensures k.Undisturbed() ==> old(k.Undisturbed())
  {
    ghost var d, call := k.disk, k.clock;
    failed := k.Interfere();
    assert k.Undisturbed() ==> k.CalmAt(call);
    UnpublishedStable(d, k.disk, k.watched);
    StagedStable(d, k.disk, temporary, t, staged);
  }

  ghost predicate Ready(d: Disk, temporary: string, t: Inode, goal: Seen) {
    OwnsDirectory(d, temporary, t) && Whole(d, t, goal)
  }

  method QuietReady(k: Kernel, temporary: string, t: Inode) returns (failed: bool)
    requires k.Valid() && Unpublished(k.disk, k.watched) && Ready(k.disk, temporary, t, k.goal)
    modifies k
    ensures k.Valid() && Unpublished(k.disk, k.watched) && old(k.trace) <= k.trace
    ensures k.disk.linked == old(k.disk.linked)
    ensures Ready(k.disk, temporary, t, k.goal)
    ensures failed ==> !k.Undisturbed()
    ensures k.Undisturbed() ==> old(k.Undisturbed())
  {
    ghost var d, call := k.disk, k.clock;
    failed := k.Interfere();
    assert k.Undisturbed() ==> k.CalmAt(call);
    UnpublishedStable(d, k.disk, k.watched);
    OursStable(d, k.disk, temporary);
    WholeStable(d, k.disk, t, k.goal);
  }

  method SettleStaged(k: Kernel, temporary: string, t: Inode, ghost staged: map<string, Image>)
    requires k.Valid() && Unpublished(k.disk, k.watched) && Staged(k.disk, temporary, t, staged)
    requires k.goal == Tree(staged, DIRECTORY_MODE)
    modifies k
    ensures k.Valid() && Unpublished(k.disk, k.watched) && old(k.trace) <= k.trace
    ensures k.disk.linked == old(k.disk.linked)
    ensures Ready(k.disk, temporary, t, k.goal)
    ensures k.Undisturbed() ==> old(k.Undisturbed())
  {
    StagedBecomesWhole(k.disk, temporary, t, staged, k.watched);
    k.Commit(SetNode(k.disk, t, DirNode(Settle(k.disk.nodes[t].slots), DIRECTORY_MODE, true)));
  }

  /** Chmod, open, sync and close the private directory, then rename it onto the
      free public name. */
  method PublishStaged(k: Kernel, temporary: string, t: Inode, ghost staged: map<string, Image>) returns (ok: bool)
    requires k.Valid() && Unpublished(k.disk, k.watched) && Staged(k.disk, temporary, t, staged)
    requires temporary != k.watched && k.goal == Tree(staged, DIRECTORY_MODE)
    modifies k
    ensures k.Valid() && old(k.trace) <= k.trace && k.disk.linked == old(k.disk.linked)
    ensures ok ==> Complete(k.disk, k.watched, k.goal)
    ensures !ok ==> Unpublished(k.disk, k.watched) && OwnsDirectory(k.disk, temporary, t)
    ensures !ok && StartsFree(k) ==> !k.Undisturbed()
    ensures k.Undisturbed() ==> old(k.Undisturbed())
  {
    var failed := QuietStaged(k, temporary, t, staged);  // chmod
    if failed { return false; }
    failed := QuietStaged(k, temporary, t, staged);      // open and sync
    if failed { return false; }
    SettleStaged(k, temporary, t, staged);
    ok := RenameReady(k, temporary, t);
  }

  /** Close the directory, then `renameat2` with RENAME_NOREPLACE. */
  method RenameReady(k: Kernel, temporary: string, t: Inode) returns (ok: bool)
    requires k.Valid() && Unpublished(k.disk, k.watched) && temporary != k.watched
    requires Ready(k.disk, temporary, t, k.goal)
    modifies k
    ensures k.Valid() && old(k.trace) <= k.trace && k.disk.linked == old(k.disk.linked)
    ensures ok ==> Complete(k.disk, k.watched, k.goal)
    ensures !ok ==> Unpublished(k.disk, k.watched) && OwnsDirectory(k.disk, temporary, t)
    ensures !ok && StartsFree(k) ==> !k.Undisturbed()
    ensures k.Undisturbed() ==> old(k.Undisturbed())
  {
    var failed := QuietReady(k, temporary, t);
    if failed { return false; }
    failed := QuietReady(k, temporary, t);
    if failed || k.disk.At(k.watched).now.Some? { return false; }
    RenamePublishes(k.disk, temporary, k.watched, k.goal);
    k.Publish(Rename(k.disk, temporary, k.watched));
    return true;
  }

  /** Refuse an existing name, then make sure the parent directory exists. */
  method PrepareParent(k: Kernel) returns (ok: bool)
    requires k.Valid() && Unpublished(k.disk, k.watched)
    modifies k
    ensures k.Valid() && Unpublished(k.disk, k.watched) && old(k.trace) <= k.trace
    ensures ok ==> k.disk.present && (false in k.disk.linked <==> false in old(k.disk.linked))
    ensures ok ==> SeenFree(k.trace, |old(k.trace)| - 1, k.watched)
    ensures !ok && StartsFree(k) ==> !k.Undisturbed()
    ensures k.Undisturbed() && old(k.disk.At(k.temporary).now) == None ==> k.disk.At(k.temporary).now == None
    ensures k.Undisturbed() ==> old(k.Undisturbed())
  {
    var failed := Quiet(k);  // lstat
    if failed || k.disk.At(k.watched).now.Some? { return false; }
    ghost var looked := k.trace;
    assert looked[|looked| - 1].disk.At(k.watched).now == None;
    ok := CreateParent(k);
    StillSeen(looked, k.trace, |old(k.trace)| - 1, k.watched);
  }

  /** The whole publication. `parentIsPlain` is the outcome of resolving the
      parent's symbolic links; the kernel's `temporary` is the random name of the
      private directory. Whatever other processes and failing calls do, the watched
      name is all-or-nothing throughout (`k.Valid()`), and success means published:
      durably so exactly when the parent directory was durable itself. A run that
      nothing disturbs succeeds exactly for an acceptable request. */
  method WritePublicationDirectory(k: Kernel, path: string, parentIsPlain: bool,
                                   digest: Octets -> string, files: map<string, Octets>) returns (ok: bool)
    requires k.Valid() && Unpublished(k.disk, k.watched) && !k.replace && k.temporary != k.watched
    requires IsGoal(digest, files, k.goal)
    modifies k
    ensures k.Valid() && old(k.trace) <= k.trace
    ensures ok ==> Complete(k.disk, k.watched, k.goal)
    ensures ok ==>
        ((forall seen :: CrashShows(k.disk, k.watched, seen) ==> seen == k.goal) <==> false !in old(k.disk.linked))
    ensures !ok ==> Unpublished(k.disk, k.watched) || Complete(k.disk, k.watched, k.goal)
    ensures ok ==> SeenFree(k.trace, |old(k.trace)| - 1, k.watched)
    ensures (exists c :: c in path && !GoSpace(c)) || !ok
    ensures ok ==> parentIsPlain && Publishable(files)
    ensures k.Undisturbed() && StartsFree(k) && old(k.disk.At(k.temporary).now) == None ==>
      (ok <==> (exists c :: c in path && !GoSpace(c)) && parentIsPlain && Publishable(files))
    ensures k.Undisturbed() ==> old(k.Undisturbed())
  {
    if forall c :: c in path ==> GoSpace(c) { return false; }
    ok := PrepareParent(k);
    if !ok || !parentIsPlain { return false; }
    ghost var looked := k.trace;
    ok := PublishUnder(k, k.temporary, digest, files);
    StillSeen(looked, k.trace, |old(k.trace)| - 1, k.watched);
  }

  /** From the private directory to the synced parent. */
  method PublishUnder(k: Kernel, temporary: string, digest: Octets -> string,
        files: map<string, Octets>) returns (ok: bool)
    requires k.Valid() && Unpublished(k.disk, k.watched) && temporary != k.watched && k.disk.present
    requires IsGoal(digest, files, k.goal)
    modifies k
    ensures k.Valid() && old(k.trace) <= k.trace
    ensures ok ==> Complete(k.disk, k.watched, k.goal) && Publishable(files)
    ensures ok ==>
        ((forall seen :: CrashShows(k.disk, k.watched, seen) ==> seen == k.goal) <==> false !in old(k.disk.linked))
    ensures !ok ==> Unpublished(k.disk, k.watched) || Complete(k.disk, k.watched, k.goal)
    ensures k.Undisturbed() && StartsFree(k) && temporary == k.temporary ==>
      ok || !Publishable(files) || old(k.disk.At(temporary).now) != None
    ensures k.Undisturbed() ==> old(k.Undisturbed())
  {
    var t := MakeTemporary(k, temporary);
    if t.None? { return false; }
    ok := FillAndPublish(k, temporary, t.value, digest, files);
    if !ok { return false; }
    ok := SyncPublished(k);
  }

  method StageAndPublish(k: Kernel, temporary: string, t: Inode, names: seq<string>, digest: Octets -> string,
          files: map<string, Octets>) returns (ok: bool)
    requires k.Valid() && Unpublished(k.disk, k.watched) && temporary != k.watched
    requires Staged(k.disk, temporary, t, map[]) && IsGoal(digest, files, k.goal)
    requires Sorted(names) && Elements(names) == files.Keys
    modifies k
    ensures k.Valid() && old(k.trace) <= k.trace && k.disk.linked == old(k.disk.linked)
    ensures ok ==> Complete(k.disk, k.watched, k.goal)
    ensures !ok ==> Unpublished(k.disk, k.watched) && OwnsDirectory(k.disk, temporary, t)
    ensures ok ==> forall name :: name in names ==> Storable(name)
    ensures !ok && StartsFree(k) && k.Undisturbed() ==> exists name :: name in names && !Storable(name)
    ensures k.Undisturbed() ==> old(k.Undisturbed())
  {
    ghost var staged;
    ok, staged := StageAll(k, temporary, t, names, digest, files);
    if !ok { return; }
    GoalIsUnique(digest, files, names, k.goal, Tree(staged, DIRECTORY_MODE));
    ok := PublishStaged(k, temporary, t, staged);
  }

  /** From the name check to the rename, with the deferred clean-up. */
  method FillAndPublish(k: Kernel, temporary: string, t: Inode, digest: Octets -> string,
        files: map<string, Octets>) returns (ok: bool)
    requires k.Valid() && Unpublished(k.disk, k.watched) && temporary != k.watched
    requires Staged(k.disk, temporary, t, map[]) && IsGoal(digest, files, k.goal)
    modifies k
    ensures k.Valid() && old(k.trace) <= k.trace && k.disk.linked == old(k.disk.linked)
    ensures ok ==> Complete(k.disk, k.watched, k.goal) && Publishable(files)
    ensures !ok ==> Unpublished(k.disk, k.watched)
    ensures !ok ==> k.clock > 0 && (k.fails(k.clock - 1) || k.disk.At(temporary).now == None)
    ensures !ok && StartsFree(k) && k.Undisturbed() ==> !Publishable(files)
    ensures k.Undisturbed() ==> old(k.Undisturbed())
  {
    var names := CollectNames(files);
    ok := false;
    if names.Some? {
      ok := StageAndPublish(k, temporary, t, names.value, digest, files);
    }
    if !ok { RemoveAll(k, temporary, t); }
  }

  /** There is exactly one publication of a set of files. */
  lemma GoalIsUnique(digest: Octets -> string, files: map<string, Octets>, names: seq<string>, a: Seen, b: Seen)
    requires IsGoal(digest, files, a) && IsGoal(digest, files, b)
    requires Sorted(names) && Elements(names) == files.Keys
    ensures a == b
  {
    assert forall name :: name in names ==> name in Elements(names);
    assert a.files[SUMS].bytes == SumsText(digest, files, names) == b.files[SUMS].bytes;
    forall name | name in a.files ensures a.files[name] == b.files[name] {
      if name != SUMS { assert name in files; }
    }
    assert a.files == b.files;
  }

  /** Every set of files has a publication. */
  lemma GoalExists(digest: Octets -> string, files: map<string, Octets>) returns (goal: Seen)
    ensures IsGoal(digest, files, goal)
  {
    var names := ListingExists(files.Keys);
    assert forall name :: name in names ==> name in Elements(names);
    var image := map name | name in files :: Image(files[name], FILE_MODE);
    goal := Tree(image[SUMS := Image(SumsText(digest, files, names), FILE_MODE)], DIRECTORY_MODE);
    forall other | Sorted(other) && Elements(other) == files.Keys
      ensures (forall name :: name in other ==> name in files)
      ensures goal.files[SUMS].bytes == SumsText(digest, files, other)
    {
      SortedListingIsUnique(names, other);
    }
  }

  lemma {:induction false} ListingExists(keys: set<string>) returns (names: seq<string>)
    ensures Sorted(names) && Elements(names) == keys
  {
    if keys == {} {
      names := [];
    } else {
      var x :| x in keys;
      names := ListingExists(keys - {x});
      assert x !in Elements(names);
      InsertSorts(x, names);
      names := Insert(x, names);
    }
  }
}
