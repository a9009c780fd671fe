/** `save_new_qualification_report` of gui/rufusarm64_qualification_report.py:
    an exclusive create followed by a loop of partial writes. */
module ReportSaver {
  import opened Base

  type Octets = string

  /** The directory entry under the chosen name. For our own file: its bytes,
      whether they are synced, and whether its name is. */
  datatype Entry = Absent | Foreign | Ours(bytes: Octets, synced: bool, linked: bool)

  /** The answers of the operating system: which calls fail, and what each
      `os.write` returns. */
  datatype System = System(openDirectoryFails: bool, openFails: bool, writeFails: nat -> bool, wrote: nat -> int,
                           syncFails: bool, closeFails: bool, directorySyncFails: bool, unlinkFails: bool)

  /** The system accepts the whole document when every write makes progress. */
  ghost predicate Accepts(os: System) {
    && !os.openDirectoryFails && !os.openFails && !os.syncFails && !os.closeFails && !os.directorySyncFails
    && forall n: nat :: !os.writeFails(n) && os.wrote(n) > 0
  }

  predicate NameOk(path: string, name: string) {
    path != "" && path[0] == '/' && name != "" && name != "." && name != ".."
  }

  /** The write loop. `written <= 0` is an error; the system never reports more
      than it was given. */
  method WriteAll(data: Octets, os: System) returns (ok: bool, entry: Entry, ghost seen: seq<Entry>)
    ensures entry.Ours? && entry.bytes <= data && (ok ==> entry == Ours(data, false, false))
    ensures (forall n: nat :: !os.writeFails(n) && os.wrote(n) > 0) ==> ok
    ensures forall e :: e in seen ==> e.Ours? && e.bytes <= data
  {
    var view := data;
    entry := Ours("", false, false);
    seen := [entry];
    var n: nat := 0;
    while view != ""
      invariant entry.Ours? && !entry.synced && !entry.linked && entry.bytes + view == data
      invariant forall e :: e in seen ==> e.Ours? && e.bytes <= data
      decreases |view|
    {
      if os.writeFails(n) || os.wrote(n) <= 0 { return false, entry, seen; }
      var written := Min(os.wrote(n), |view|);
      entry := entry.(bytes := entry.bytes + view[..written]);
      assert view == view[..written] + view[written..];
      assert entry.bytes + view[written..] == data;
      view := view[written..];
      seen := seen + [entry];
      n := n + 1;
    }
    ok := true;
  }

  /** Success means: the name was free and now holds exactly the document, with
      its bytes and its name synced.
      Failure with a working unlink leaves the name as it was. In between, a
      reader sees the old entry or a prefix of the document, nothing else. */
  method SaveNewReport(path: string, name: string, data: Octets, before: Entry, os: System)
      returns (ok: bool, after: Entry, ghost seen: seq<Entry>)
    requires !before.Ours?
    ensures ok ==> before == Absent && after == Ours(data, true, true)
    ensures !ok && !os.unlinkFails ==> after == before
    ensures before == Foreign ==> after == Foreign
    ensures !ok ==> after == before || (after.Ours? && after.bytes <= data)
    ensures NameOk(path, name) && before == Absent && Accepts(os) ==> ok
    ensures forall e :: e in seen ==> e == before || (e.Ours? && e.bytes <= data)
  {
    after, seen := before, [before];
    if !NameOk(path, name) { return false, after, seen; }
    if os.openDirectoryFails { return false, after, seen; }
    if os.openFails || before != Absent { return false, after, seen; }
    ghost var during;
    ok, after, during := WriteAll(data, os);
    seen := seen + during;
    ok := ok && !os.syncFails;
    if ok { after := after.(synced := true); }
    ok := ok && !os.closeFails && !os.directorySyncFails;
    if ok {
      after := after.(linked := true);
    } else if !os.unlinkFails {
      after := Absent;
      seen := seen + [after];
    }
  }
}
