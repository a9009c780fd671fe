/** The single-file writers that publish by rename: `writeAtomicOutput` of
    cmd/rufus-channel-admin/main.go and `atomic_write_json` of
    gui/rufusarm64_logic.py. Both keep the same all-or-nothing contract. */
module AtomicWriters {
  import opened Base
  import opened FileSystem
  import opened Kernels

  const PRIVATE_MODE := 0x180  // 0600

  ghost function Goal(data: Octets): Seen {
    Single(Image(data, PRIVATE_MODE))
  }

  ghost predicate Owns(d: Disk, temporary: string, t: Inode) {
    d.At(temporary).now == Some(t) && t in d.nodes && d.nodes[t].FileNode?
  }

  lemma OwnsStable(d: Disk, e: Disk, temporary: string, t: Inode)
    requires Owns(d, temporary, t) && Interference(d, e)
    ensures Owns(e, temporary, t) && e.nodes[t] == d.nodes[t]
  {
    OursStable(d, e, temporary);
  }

  method QuietOwned(k: Kernel, temporary: string, t: Inode) returns (failed: bool)
    requires k.Valid() && Unpublished(k.disk, k.watched) && Owns(k.disk, temporary, t)
    modifies k
    ensures k.Valid() && Unpublished(k.disk, k.watched) && old(k.trace) <= k.trace
    ensures k.disk.linked == old(k.disk.linked)
    ensures Owns(k.disk, temporary, t) && k.disk.nodes[t] == old(k.disk.nodes[t])
    ensures k.clock == old(k.clock) + 1 && failed == k.fails(old(k.clock))
    ensures failed ==> !k.Undisturbed()
    ensures k.Undisturbed() ==> old(k.Undisturbed())
  {
    ghost var d, call := k.disk, k.clock;
    failed := k.Interfere();
    assert k.Undisturbed() ==> k.CalmAt(call);
    UnpublishedStable(d, k.disk, k.watched);
    OwnsStable(d, k.disk, temporary, t);
  }

  /** One call on the open temporary file; a failed write may leave a prefix. */
  method Put(k: Kernel, temporary: string, t: Inode, node: Node) returns (done: bool)
    requires k.Valid() && Unpublished(k.disk, k.watched) && Owns(k.disk, temporary, t) && node.FileNode?
    modifies k
    ensures k.Valid() && Unpublished(k.disk, k.watched) && old(k.trace) <= k.trace
    ensures k.disk.linked == old(k.disk.linked)
    ensures Owns(k.disk, temporary, t) && (done ==> k.disk.nodes[t] == node)
    ensures !done ==> !k.Undisturbed()
    ensures k.Undisturbed() ==> old(k.Undisturbed())
  {
    var failed := QuietOwned(k, temporary, t);
    var kept := k.written(k.clock);
    var left := if failed then FileNode(if 0 <= kept <= |node.bytes| then node.bytes[..kept]
        else "", k.disk.nodes[t].mode, false) else node;
    k.Commit(SetNode(k.disk, t, left));
    done := !failed;
  }

  /** Chmod, write and sync. */
  method FillTemporary(k: Kernel, temporary: string, t: Inode, data: Octets) returns (ok: bool)
    requires k.Valid() && Unpublished(k.disk, k.watched) && temporary != k.watched && Owns(k.disk, temporary, t)
    modifies k
    ensures k.Valid() && Unpublished(k.disk, k.watched) && old(k.trace) <= k.trace
    ensures k.disk.linked == old(k.disk.linked) && Owns(k.disk, temporary, t)
    ensures ok ==> k.disk.nodes[t] == FileNode(data, PRIVATE_MODE, true)
    ensures !ok ==> !k.Undisturbed()
    ensures k.Undisturbed() ==> old(k.Undisturbed())
  {
    ok := Put(k, temporary, t, FileNode("", PRIVATE_MODE, false));
    if !ok { return; }
    ok := Put(k, temporary, t, FileNode(data, PRIVATE_MODE, false));
    if !ok { return; }
    ok := Put(k, temporary, t, FileNode(data, PRIVATE_MODE, true));
  }

  /** Create the temporary file exclusively. */
  method CreateTemporary(k: Kernel, temporary: string) returns (t: Option<Inode>)
    requires k.Valid() && Unpublished(k.disk, k.watched) && temporary != k.watched && k.disk.present
    modifies k
    ensures k.Valid() && Unpublished(k.disk, k.watched) && old(k.trace) <= k.trace
    ensures k.disk.linked == old(k.disk.linked)
    ensures t.Some? ==> Owns(k.disk, temporary, t.value)
    ensures t.None? && temporary == k.temporary && old(k.disk.At(temporary).now) == None ==> !k.Undisturbed()
    ensures k.Undisturbed() ==> old(k.Undisturbed())
  {
    var failed := Quiet(k);
    if failed || k.disk.At(temporary).now.Some? { return None; }
    t := Some(k.disk.next);
    NewEntryIsPrivate(k.disk, temporary, FileNode("", 0, false), k.watched);
    k.Commit(NewEntry(k.disk, temporary, FileNode("", 0, false)));
  }

  /** Create, chmod, write, sync and close the temporary file beside the name. */
  method WriteTemporary(k: Kernel, temporary: string, data: Octets) returns (t: Option<Inode>, ok: bool)
    requires k.Valid() && Unpublished(k.disk, k.watched) && temporary != k.watched && k.disk.present
    modifies k
    ensures k.Valid() && Unpublished(k.disk, k.watched) && old(k.trace) <= k.trace
    ensures k.disk.linked == old(k.disk.linked)
    ensures t.Some? ==> Owns(k.disk, temporary, t.value)
    ensures ok ==> t.Some? && k.disk.nodes[t.value] == FileNode(data, PRIVATE_MODE, true)
    ensures !ok && temporary == k.temporary && old(k.disk.At(temporary).now) == None ==> !k.Undisturbed()
    ensures k.Undisturbed() ==> old(k.Undisturbed())
  {
    ok := false;
    t := CreateTemporary(k, temporary);
    if t.None? { return; }
    ok := FillTemporary(k, temporary, t.value, data);
    if !ok { return; }
    var failed := QuietOwned(k, temporary, t.value);
    ok := !failed;
  }

  /** The deferred removal of the temporary file. */
  method RemoveTemporary(k: Kernel, temporary: string, t: Inode)
    requires k.Valid() && Unpublished(k.disk, k.watched) && temporary != k.watched && Owns(k.disk, temporary, t)
    modifies k
    ensures k.Valid() && Unpublished(k.disk, k.watched) && old(k.trace) <= k.trace
    ensures k.disk.linked == old(k.disk.linked)
    ensures k.clock > 0 && (k.fails(k.clock - 1) || k.disk.At(temporary).now == None)
    ensures k.Undisturbed() ==> old(k.Undisturbed())
  {
    var failed := QuietOwned(k, temporary, t);
    if failed { return; }
    UnlinkIsPrivate(k.disk, temporary, k.watched);
    k.Commit(Unlink(k.disk, temporary));
  }

  /** Whether a rename onto the name succeeds: never onto a directory, and onto
      another existing entry only when replacing. */
  predicate MayRename(d: Disk, watched: string, replace: bool) {
    match d.At(watched).now
    case None => true
    case Some(i) => replace && i in d.nodes && d.nodes[i].ForeignNode? && !d.nodes[i].kind.Directory?
  }

  /** The destination is an entry of this kind from the start. */
  ghost predicate StartsAs(k: Kernel, kind: Kind)
    requires k.trace != []
    reads k
  {
    var d := k.trace[0].disk;
    d.At(k.watched).now.Some? && d.At(k.watched).now.value in d.nodes
    && d.nodes[d.At(k.watched).now.value] == ForeignNode(kind)
  }

  /** The destination is free from the start, or one to be replaced; */
  ghost predicate StartsReplaceable(k: Kernel)
    reads k
  {
    k.trace != [] && (StartsFree(k) || (k.replace && (StartsAs(k, Regular) || StartsAs(k, Symlink))))
  }

  /** or one the first look lets through. */
  ghost predicate StartsAdmissible(k: Kernel, force: bool)
    reads k
  {
    k.trace != [] && (StartsFree(k) || (force && StartsAs(k, Regular)))
  }

  lemma RenameReplaces(d: Disk, temporary: string, t: Inode, watched: string, data: Octets, replace: bool)
    requires d.Valid() && Unpublished(d, watched) && temporary != watched && Owns(d, temporary, t)
    requires d.nodes[t] == FileNode(data, PRIVATE_MODE, true) && MayRename(d, watched, replace)
    ensures var e := Rename(d, temporary, watched);
            e.Valid() && PublishStep(d, e, watched, replace, Goal(data))
  {
    var e := Rename(d, temporary, watched);
    assert temporary in d.slots;
    forall name, target | name in e.slots && target in e.slots[name].durable && target.Some?
        ensures target.value in e.nodes {
      if name != temporary && name != watched { assert name in d.slots; }
    }
    assert Whole(e, t, Goal(data));
  }

  /** Rename into place; on failure the temporary file is removed. */
  method Replace(k: Kernel, temporary: string, t: Inode, data: Octets) returns (ok: bool)
    requires k.Valid() && Unpublished(k.disk, k.watched) && temporary != k.watched && Owns(k.disk, temporary, t)
    requires k.disk.nodes[t] == FileNode(data, PRIVATE_MODE, true) && k.goal == Goal(data)
    modifies k
    ensures k.Valid() && old(k.trace) <= k.trace && k.disk.linked == old(k.disk.linked)
    ensures ok ==> Complete(k.disk, k.watched, k.goal)
    ensures !ok ==> Unpublished(k.disk, k.watched) && Owns(k.disk, temporary, t)
    ensures !ok && StartsReplaceable(k) ==> !k.Undisturbed()
    ensures k.Undisturbed() ==> old(k.Undisturbed())
  {
    var failed := QuietOwned(k, temporary, t);
    if failed || !MayRename(k.disk, k.watched, k.replace) { return false; }
    RenameReplaces(k.disk, temporary, t, k.watched, data, k.replace);
    k.Publish(Rename(k.disk, temporary, k.watched));
    return true;
  }

  /** From the temporary file to the rename, with the deferred clean-up;
      `recheck` is the second look at the destination. */
  method WriteAndReplace(k: Kernel, temporary: string, data: Octets, recheck: bool) returns (ok: bool)
    requires k.Valid() && Unpublished(k.disk, k.watched) && temporary != k.watched && k.disk.present
    requires k.goal == Goal(data)
    modifies k
    ensures k.Valid() && old(k.trace) <= k.trace && k.disk.linked == old(k.disk.linked)
    ensures ok ==> Complete(k.disk, k.watched, k.goal)
    ensures !ok ==> Unpublished(k.disk, k.watched)
    ensures !ok && temporary == k.temporary && old(k.disk.At(temporary).now) == None ==>
      !k.Undisturbed() || !StartsReplaceable(k) || (recheck && !StartsFree(k))
    ensures k.Undisturbed() ==> old(k.Undisturbed())
  {
    var t;
    t, ok := WriteTemporary(k, temporary, data);
    if t.None? { return false; }
    if ok { ok := Swap(k, temporary, t.value, data, recheck); }
    if !ok { RemoveTemporary(k, temporary, t.value); }
  }

  /** The second look and the rename. */
  method Swap(k: Kernel, temporary: string, t: Inode, data: Octets, recheck: bool) returns (ok: bool)
    requires k.Valid() && Unpublished(k.disk, k.watched) && temporary != k.watched && Owns(k.disk, temporary, t)
    requires k.disk.nodes[t] == FileNode(data, PRIVATE_MODE, true) && k.goal == Goal(data)
    modifies k
    ensures k.Valid() && old(k.trace) <= k.trace && k.disk.linked == old(k.disk.linked)
    ensures ok ==> Complete(k.disk, k.watched, k.goal)
    ensures !ok ==> Unpublished(k.disk, k.watched) && Owns(k.disk, temporary, t)
    ensures !ok ==> !k.Undisturbed() || !StartsReplaceable(k) || (recheck && !StartsFree(k))
    ensures k.Undisturbed() ==> old(k.Undisturbed())
  {
    ok := Recheck(k, temporary, t, recheck);
    if ok { ok := Replace(k, temporary, t, data); }
  }

  /** The second look at the destination, if there is one. */
  method Recheck(k: Kernel, temporary: string, t: Inode, recheck: bool) returns (ok: bool)
    requires k.Valid() && Unpublished(k.disk, k.watched) && Owns(k.disk, temporary, t)
    modifies k
    ensures k.Valid() && Unpublished(k.disk, k.watched) && old(k.trace) <= k.trace
    ensures k.disk.linked == old(k.disk.linked)
    ensures Owns(k.disk, temporary, t) && k.disk.nodes[t] == old(k.disk.nodes[t])
    ensures !ok ==> !k.Undisturbed() || (recheck && !StartsFree(k))
    ensures k.Undisturbed() ==> old(k.Undisturbed())
  {
    if !recheck { return true; }
    var failed := QuietOwned(k, temporary, t);  // lstat
    ok := !failed && k.disk.At(k.watched).now.None?;
  }

  /** `os.Lstat` of the destination before writing. */
  function Refused(d: Disk, watched: string, force: bool): bool {
    match d.At(watched).now
    case None => false
    case Some(i) => !force || !(i in d.nodes && d.nodes[i] == ForeignNode(Regular))
  }

  /** `writeAtomicOutput`. Without force an existing entry is never replaced; at
      every step and after any crash the name shows the old entry, nothing, or
      the complete new file (`k.Valid()`). */
  method WriteAtomicOutput(k: Kernel, pathIsBlank: bool, data: Octets,
          force: bool) returns (ok: bool)
    requires k.Valid() && Unpublished(k.disk, k.watched) && k.replace == force && k.temporary != k.watched
    requires k.goal == Goal(data)
    modifies k
    ensures k.Valid() && old(k.trace) <= k.trace
    ensures ok ==> Complete(k.disk, k.watched, k.goal)
    ensures ok ==>
        ((forall seen :: CrashShows(k.disk, k.watched, seen) ==> seen == k.goal) <==> false !in old(k.disk.linked))
    ensures !ok ==> Unpublished(k.disk, k.watched) || Complete(k.disk, k.watched, k.goal)
    ensures ok ==> SeenAdmissible(k.trace, |old(k.trace)| - 1, k.watched, force)
    ensures ok && !force ==> SeenFree(k.trace, |old(k.trace)| - 1, k.watched)
    ensures pathIsBlank ==> !ok
    ensures k.Undisturbed() && StartsAdmissible(k, force) && old(k.disk.At(k.temporary).now) == None ==>
      (ok <==> !pathIsBlank)
    ensures k.Undisturbed() ==> old(k.Undisturbed())
  {
    if pathIsBlank { return false; }
    ok := PrepareOutput(k, force);
    if !ok { return; }
    ghost var looked := k.trace;
    ok := WriteAndReplace(k, k.temporary, data, !force);
    if !ok { return; }
    ok := SyncPublished(k);
    StillAdmissible(looked, k.trace, |old(k.trace)| - 1, k.watched, force);
  }

  /** At some moment since `from` the destination was one the first look lets
      through: free, or a regular file to be replaced. */
  ghost predicate SeenAdmissible(trace: seq<Moment>, from: int, name: string, force: bool) {
    exists i :: 0 <= i < |trace| && from <= i && Admits(trace[i].disk, name, force)
  }

  predicate Admits(d: Disk, name: string, force: bool) {
    var now := d.At(name).now;
    now == None || (force && now.value in d.nodes && d.nodes[now.value] == ForeignNode(Regular))
  }

  lemma StillAdmissible(trace: seq<Moment>, more: seq<Moment>, from: int, name: string, force: bool)
    requires SeenAdmissible(trace, from, name, force) && trace <= more
    ensures SeenAdmissible(more, from, name, force) && (!force ==> SeenFree(more, from, name))
  {
    var i :| 0 <= i < |trace| && from <= i && Admits(trace[i].disk, name, force);
    assert more[i] == trace[i];
  }

  /** Make the parent directory, then look at the destination. */
  method PrepareOutput(k: Kernel, force: bool) returns (ok: bool)
    requires k.Valid() && Unpublished(k.disk, k.watched)
    modifies k
    ensures k.Valid() && Unpublished(k.disk, k.watched) && old(k.trace) <= k.trace
    ensures ok ==> k.disk.present && (false in k.disk.linked <==> false in old(k.disk.linked))
    ensures ok ==> SeenAdmissible(k.trace, |old(k.trace)| - 1, k.watched, force)
    ensures !ok && StartsAdmissible(k, force) ==> !k.Undisturbed()
    ensures k.Undisturbed() && old(k.disk.At(k.temporary).now) == None ==> k.disk.At(k.temporary).now == None
    ensures k.Undisturbed() ==> old(k.Undisturbed())
  {
    ok := CreateParent(k);
    if !ok { return; }
    var failed := Quiet(k);  // lstat
    if failed || Refused(k.disk, k.watched, force) { return false; }
    assert Admits(k.trace[|k.trace| - 1].disk, k.watched, force);
  }

  /** Make the directory, look at it, and set its mode. */
  method PrepareDirectory(k: Kernel, directoryIsReal: bool) returns (ok: bool)
    requires k.Valid() && Unpublished(k.disk, k.watched)
    modifies k
    ensures k.Valid() && Unpublished(k.disk, k.watched) && old(k.trace) <= k.trace
    ensures ok ==> k.disk.present && (false in k.disk.linked <==> false in old(k.disk.linked))
    ensures (ok ==> directoryIsReal) && (!ok && directoryIsReal ==> !k.Undisturbed())
    ensures k.Undisturbed() && old(k.disk.At(k.temporary).now) == None ==> k.disk.At(k.temporary).now == None
    ensures k.Undisturbed() ==> old(k.Undisturbed())
  {
    ok := CreateParent(k);
    if !ok { return; }
    var failed := Quiet(k);  // lstat of the directory
    if failed || !directoryIsReal { return false; }
    failed := Quiet(k);      // chmod of the directory
    ok := !failed;
  }

  /** `atomic_write_json`, given the rendered document: the same contract with
      replacement always allowed. */
  method AtomicWriteJson(k: Kernel, directoryIsReal: bool, data: Octets) returns (ok: bool)
    requires k.Valid() && Unpublished(k.disk, k.watched) && k.replace && k.temporary != k.watched
    requires k.goal == Goal(data)
    modifies k
    ensures k.Valid() && old(k.trace) <= k.trace
    ensures ok ==> Complete(k.disk, k.watched, k.goal)
    ensures ok ==>
        ((forall seen :: CrashShows(k.disk, k.watched, seen) ==> seen == k.goal) <==> false !in old(k.disk.linked))
    ensures !ok ==> Unpublished(k.disk, k.watched) || Complete(k.disk, k.watched, k.goal)
    ensures !directoryIsReal ==> !ok
    ensures k.Undisturbed() && StartsReplaceable(k) && old(k.disk.At(k.temporary).now) == None ==>
      (ok <==> directoryIsReal)
    ensures k.Undisturbed() ==> old(k.Undisturbed())
  {
    ok := PrepareDirectory(k, directoryIsReal);
    if !ok { return; }
    ok := WriteAndReplace(k, k.temporary, data, false);
    if !ok { return; }
    ok := SyncPublished(k);
  }
}
