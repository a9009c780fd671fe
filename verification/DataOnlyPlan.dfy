/** The data-only plan contract of gui/rufusarm64_nonbootable.py. Every failed
    check there is a `ValueError`, so their order does not matter here. */
module DataOnlyPlan {
  import opened Base
  import opened PythonJson

  const ALIGNMENT := 1024 * 1024
  const TAIL := 1024 * 1024
  const MAX_FAT16 := 4 * 1024 * 1024 * 1024 - 512
  const MAX_FAT32 := 2 * 1024 * 1024 * 1024 * 1024
  const TWO_32 := 0x1_0000_0000

  datatype Scheme = Gpt | Mbr

  datatype Filesystem = Fat16 | Fat32 | ExFat | Ntfs | Udf | Ext2 | Ext3 | Ext4

  function SchemeName(s: Scheme): string {
    if s == Gpt then "gpt" else "mbr"
  }

  function FilesystemName(f: Filesystem): string {
    match f
    case Fat16 => "fat16"
    case Fat32 => "fat32"
    case ExFat => "exfat"
    case Ntfs => "ntfs"
    case Udf => "udf"
    case Ext2 => "ext2"
    case Ext3 => "ext3"
    case Ext4 => "ext4"
  }

  function Display(f: Filesystem): string {
    match f
    case Fat16 => "FAT16"
    case Fat32 => "FAT32"
    case ExFat => "exFAT"
    case Ntfs => "NTFS"
    case Udf => "UDF"
    case Ext2 => "ext2"
    case Ext3 => "ext3"
    case Ext4 => "ext4"
  }

  function PartitionType(s: Scheme, f: Filesystem): string {
    if s == Gpt then
      if f.Ext2? || f.Ext3? || f.Ext4? then "0FC63DAF-8483-4772-8E79-3D69D8477DE4"
          else "EBD0A0A2-B9E5-4433-87C0-68B6B72699C7"
    else
      match f
      case Fat16 => "06"
      case Fat32 => "0c"
      case ExFat => "07"
      case Ntfs => "07"
      case Udf => "07"
      case Ext2 => "83"
      case Ext3 => "83"
      case Ext4 => "83"
  }

  function SchemeOf(name: string): Option<Scheme> {
    if name == "gpt" then Some(Gpt) else if name == "mbr" then Some(Mbr) else None
  }

  function FilesystemOf(name: string): Option<Filesystem> {
    if name == "fat16" then Some(Fat16)
    else if name == "fat32" then Some(Fat32)
    else if name == "exfat" then Some(ExFat)
    else if name == "ntfs" then Some(Ntfs)
    else if name == "udf" then Some(Udf)
    else if name == "ext2" then Some(Ext2)
    else if name == "ext3" then Some(Ext3)
    else if name == "ext4" then Some(Ext4)
    else None
  }

  // --------------------------------------------------------------- labels

  /** Encoded lengths of one character. */
  function Utf8Length(c: char): nat {
    if c < '\U{80}' then 1 else if c < '\U{800}' then 2 else if c < '\U{10000}' then 3 else 4
  }

  function Utf16Units(c: char): nat {
    if c < '\U{10000}' then 1 else 2
  }

  function Total(s: string, size: char -> nat): nat {
    if s == "" then 0 else size(s[0]) + Total(s[1..], size)
  }

  predicate Control(c: char) {
    c < ' ' || '\U{7F}' <= c <= '\U{9F}'
  }

  predicate FatChar(c: char) {
    'A' <= c <= 'Z' || '0' <= c <= '9' || c == ' ' || c == '_' || c == '-'
  }

  predicate LabelFits(name: string, f: Filesystem) {
    match f
    case Fat16 => (forall c :: c in name ==> FatChar(c)) && |name| <= 11
    case Fat32 => (forall c :: c in name ==> FatChar(c)) && |name| <= 11
    case Udf => (forall c :: c in name ==> c < '\U{10000}')
        && |name| <= (if exists c :: c in name && c > '\U{FF}' then 63 else 126)
    case ExFat => Total(name, Utf16Units) <= 15
    case Ntfs => Total(name, Utf16Units) <= 32
    case _ => Total(name, Utf8Length) <= 16
  }

  /** `_normalize_label`. */
  function NormalizeLabel(a: Json, f: Filesystem): (r: Got<string>)
    ensures r.Value? ==> a == Str(r.value) && LabelFits(r.value, f)
    ensures !r.Escaped?
  {
    if a.Str? && Strip(a.s) == a.s && (forall c :: c in a.s ==> !Control(c)) && LabelFits(a.s, f) then Value(a.s)
        else Rejected
  }

  /** The longest label in the characters every filesystem takes. */
  function PlainLimit(f: Filesystem): nat {
    match f
    case Fat16 => 11
    case Fat32 => 11
    case ExFat => 15
    case Ntfs => 32
    case Udf => 126
    case _ => 16
  }

  predicate PlainLabel(name: string) {
    forall c :: c in name ==> 'A' <= c <= 'Z' || '0' <= c <= '9' || c == '_' || c == '-'
  }

  lemma {:induction false} OneEach(name: string, size: char -> nat)
    requires forall c :: c in name ==> size(c) == 1
    ensures Total(name, size) == |name|
  {
    if name != "" { OneEach(name[1..], size); }
  }

  /** In whatever units a filesystem counts, plain labels are accepted exactly up
      to its limit. */
  lemma PlainLabelIff(name: string, f: Filesystem)
    requires PlainLabel(name)
    ensures NormalizeLabel(Str(name), f) == Value(name) <==> |name| <= PlainLimit(f)
  {
    OneEach(name, Utf8Length);
    OneEach(name, Utf16Units);
    PlainIsUnspaced(name);
  }

  /** Characters beyond the plain ones: what FAT takes besides, and lengths. */
  lemma OtherCharacters()
    ensures FatChar(' ') && FatChar('_') && FatChar('-') && FatChar('A') && FatChar('Z') && FatChar('0') && FatChar('9')
    ensures !FatChar('a') && !FatChar('z') && !FatChar('.') && !FatChar('/') && forall c :: c > 'z' ==> !FatChar(c)
    ensures Utf8Length('z') == 1 && Utf8Length('\U{E9}') == 2 && Utf8Length('\U{20AC}') == 3
    ensures Utf8Length('\U{1D11E}') == 4 && Utf16Units('\U{20AC}') == 1 && Utf16Units('\U{1D11E}') == 2
    ensures Control('\t') && Control('\U{7F}') && Control('\U{9F}') && !Control(' ') && !Control('\U{A0}')
  {
  }

  lemma PlainIsUnspaced(name: string)
    requires PlainLabel(name)
    ensures Strip(name) == name
  {
    if name != "" { assert name[0] in name && name[|name| - 1] in name; }
  }

  // ---------------------------------------------------------------- plans

  datatype PlanPayload = PlanPayload(
    schema: Json, mode: Json, bootable: Json, destructive: Json, devicePath: Json, identity: Json, scheme: Json,
    filesystem: Json, display: Json, sectorSize: Json, deviceSize: Json, start: Json, size: Json, partitionNumber: Json,
    partitionType: Json, name: Json, tools: Json, warnings: Json)

  datatype TablePayload = TablePayload(
    schema: Json, scheme: Json, devicePath: Json, sectorSize: Json, partitionNumber: Json, startSector: Json,
    sizeSectors: Json, partitionType: Json, filesystem: Json, display: Json, name: Json)

  datatype Payload = Payload(
    devicePath: Json, deviceSize: Json, identity: Json, plan: Option<PlanPayload>, table: Option<TablePayload>,
    confirmation: Json)

  datatype Plan = Plan(
    devicePath: string, identity: string, deviceSize: int, sector: int, scheme: Scheme, filesystem: Filesystem,
    name: string, start: int, size: int)

  /** The fixed contents of the contract: the tools of each filesystem and the
      two warnings. */
  datatype Contract = Contract(tools: Filesystem -> Json, warnings: Json)

  /** The canonical partition of a device. */
  function StartOf(sector: int): int
    requires sector > 0
  {
    (ALIGNMENT + sector - 1) / sector * sector
  }

  function EndOf(deviceSize: int, sector: int): int
    requires sector > 0
  {
    (deviceSize - TAIL) / sector * sector
  }

  predicate Geometry(p: Plan) {
    && (p.sector == 512 || p.sector == 4096) && p.start == StartOf(p.sector) && p.size > 0
    && p.start + p.size == EndOf(p.deviceSize, p.sector) && p.start + p.size <= p.deviceSize
    && (p.filesystem == Fat16 ==> p.size <= MAX_FAT16) && (p.filesystem == Fat32 ==> p.size <= MAX_FAT32)
    && (p.scheme == Mbr ==> (p.start + p.size) / p.sector <= TWO_32)
  }

  /** The scheme and filesystem names, in any letter case, with their display. */
  function ReadLayout(py: Python, p: PlanPayload): (r: Got<(Scheme, Filesystem)>)
    ensures r.Value? ==>
        Text(py, p.display) == Display(r.value.1) && Text(py, p.partitionType) == PartitionType(r.value.0, r.value.1)
    ensures !r.Escaped?
  {
    var scheme := SchemeOf(Lower(Text(py, p.scheme)));
    var filesystem := FilesystemOf(Lower(Text(py, p.filesystem)));
    var _ :- Need(scheme.Some? && filesystem.Some?);
    var _ :- Need(Text(py, p.display) == Display(filesystem.value));
    var _ :- Need(Text(py, p.partitionType) == PartitionType(scheme.value, filesystem.value));
    Value((scheme.value, filesystem.value))
  }

  /** The safety envelope, the device path and its identity. */
  function ReadTarget(py: Python, p: PlanPayload): (r: Got<(string, string)>)
    ensures r.Value? ==> "/dev/" <= r.value.0 && py.isNormalPath(r.value.0) && r.value.1 != ""
    ensures r.Value? ==> r.value.0 == Text(py, p.devicePath) && r.value.1 == Text(py, p.identity)
    ensures !r.Escaped?
  {
    var _ :- Need(p.schema == Int(1) && p.mode == Str("non-bootable") && p.bootable == Bool(false)
        && p.destructive == Bool(true));
    var devicePath :- NeedText(py, p.devicePath);
    var _ :- Need("/dev/" <= devicePath && py.isNormalPath(devicePath));
    var identity :- NeedText(py, p.identity);
    Value((devicePath, identity))
  }

  /** Sector size, capacity, start and size of the single partition. */
  function ReadNumbers(p: PlanPayload): (r: Got<(int, int, int, int)>)
    ensures r.Value? ==> (r.value.0 == 512 || r.value.0 == 4096) && r.value.1 > 0
    ensures !r.Escaped?
  {
    var sector :- Exact(p.sectorSize, 1);
    var _ :- Need(sector == 512 || sector == 4096);
    var deviceSize :- Exact(p.deviceSize, 1);
    var start :- Exact(p.start, 1);
    var size :- Exact(p.size, 1);
    var _ :- Need(p.partitionNumber == Int(1));
    Value((sector, deviceSize, start, size))
  }

  /** `_normalize_plan_fields`. */
  function NormalizeFields(py: Python, k: Contract, payload: Option<PlanPayload>): (r: Got<Plan>)
    ensures r.Value? ==>
      && payload.Some? && Geometry(r.value) && r.value.deviceSize > 0
      && NormalizeLabel(Str(r.value.name), r.value.filesystem).Value?
      && ReadTarget(py, payload.value) == Value((r.value.devicePath, r.value.identity))
      && ReadLayout(py, payload.value) == Value((r.value.scheme, r.value.filesystem))
    ensures !r.Escaped?
  {
    var _ :- Need(payload.Some?);
    var p := payload.value;
    var target :- ReadTarget(py, p);
    var layout :- ReadLayout(py, p);
    var numbers :- ReadNumbers(p);
    var name :- NormalizeLabel(p.name, layout.1);
    var plan := Plan(target.0, target.1, numbers.1, numbers.0, layout.0, layout.1, name, numbers.2, numbers.3);
    var _ :- Need(Geometry(plan));
    var _ :- Need(p.tools == k.tools(layout.1) && p.warnings == k.warnings);
    Value(plan)
  }

  /** The names a partition table repeats. */
  predicate TableNames(py: Python, t: TablePayload, plan: Plan) {
    && Lower(Text(py, t.scheme)) == SchemeName(plan.scheme) && Text(py, t.devicePath) == plan.devicePath
    && Text(py, t.partitionType) == PartitionType(plan.scheme, plan.filesystem)
    && Lower(Text(py, t.filesystem)) == FilesystemName(plan.filesystem)
    && Text(py, t.display) == Display(plan.filesystem)
    && (if !Truthy(t.name) then "" else if t.name.Str? then t.name.s else py.repr(t.name)) == plan.name
  }

  /** `_normalize_table`: the partition table repeats the plan in sectors. */
  function NormalizeTable(py: Python, payload: Option<TablePayload>, plan: Plan): (r: Got<()>)
    ensures !r.Escaped?
  {
    var _ :- Need(payload.Some?);
    var t := payload.value;
    var sector :- Exact(t.sectorSize, 1);
    var start :- Exact(t.startSector, 1);
    var size :- Exact(t.sizeSectors, 1);
    var _ :- Need(t.schema == Int(1) && t.partitionNumber == Int(1));
    var _ :- Need(sector == plan.sector && start * sector == plan.start && size * sector == plan.size);
    Need(TableNames(py, t, plan))
  }

  /** `_phrase_from_fields`. */
  function PhraseFor(p: Plan): string {
    "FORMAT " + (p.devicePath + Rest(p))
  }

  /** The phrase behind the device path. */
  function Rest(p: Plan): string {
    [' '] + Words(p.filesystem, p.scheme, Tail(p.name))
  }

  function Words(f: Filesystem, s: Scheme, tail: string): string {
    "AS " + (Display(f) + [' '] + ("USING " + (Upper(SchemeName(s)) + [' '] + tail)))
  }

  function Tail(name: string): string {
    if name == "" then "WITHOUT A LABEL" else "LABEL " + name
  }

  /** `normalize_plan`. */
  function NormalizePlan(py: Python, k: Contract, payload: Payload): (r: Got<Plan>)
    ensures r.Value? ==> Geometry(r.value) && Text(py, payload.confirmation) == PhraseFor(r.value)
    ensures r.Value? ==> NormalizeFields(py, k, payload.plan) == r
    ensures !r.Escaped?
  {
    var identity :- NeedText(py, payload.identity);
    var plan :- NormalizeFields(py, k, payload.plan);
    var _ :- NormalizeTable(py, payload.table, plan);
    var path :- NeedText(py, payload.devicePath);
    var size :- Exact(payload.deviceSize, 1);
    var _ :- Need(path == plan.devicePath && size == plan.deviceSize && identity == plan.identity);
    var returned :- NeedText(py, payload.confirmation);
    var _ :- Need(returned == PhraseFor(plan));
    Value(plan)
  }

  // ------------------------------------------------------------- geometry

  lemma MultipleAtMost(end: int, limit: int, sector: int)
    requires (sector == 512 || sector == 4096) && end % sector == 0 && end <= limit
    ensures end <= limit / sector * sector
  {
    if sector == 512 {
      assert end <= limit / 512 * 512;
    } else {
      assert end <= limit / 4096 * 4096;
    }
  }

  lemma Aligned(sector: int)
    requires sector == 512 || sector == 4096
    ensures StartOf(sector) == ALIGNMENT && ALIGNMENT % sector == 0
  {
  }

  lemma EndIsWhole(deviceSize: int, sector: int)
    requires sector == 512 || sector == 4096
    ensures EndOf(deviceSize, sector) % sector == 0 && EndOf(deviceSize, sector) <= deviceSize - TAIL
  {
  }

  lemma Differences(a: int, b: int, sector: int)
    requires (sector == 512 || sector == 4096) && a % sector == 0 && b % sector == 0
    ensures (a - b) % sector == 0 && (a + b) % sector == 0
  {
  }

  lemma SectorCounts(start: int, size: int, sector: int)
    requires (sector == 512 || sector == 4096) && start == ALIGNMENT && size > 0 && size % sector == 0
    requires (start + size) / sector <= TWO_32
    ensures 0 < start / sector < TWO_32 && 0 < size / sector < TWO_32
  {
    if sector == 512 {
      assert size / 512 < TWO_32;
    } else {
      assert size / 4096 < TWO_32;
    }
  }

  /** The device of a plan has room for a partition of whole sectors. */
  predicate Fits(p: Plan, start: int, size: int)
    requires p.sector > 0
  {
    && start % p.sector == 0 && size % p.sector == 0
    && start >= ALIGNMENT && start + size <= p.deviceSize - TAIL
  }

  /** The accepted partition is the largest one that starts on a sector at or
      after the alignment, ends on a sector, and leaves the tail reserve; on an
      MBR its start and length fit 32 bits. */
  lemma LargestPartition(py: Python, k: Contract, payload: Payload, start: int, size: int)
    requires NormalizePlan(py, k, payload).Value?
    ensures var p := NormalizePlan(py, k, payload).value;
            && p.start % p.sector == 0 && p.size % p.sector == 0 && p.start >= ALIGNMENT
            && p.start + p.size <= p.deviceSize - TAIL
            && (Fits(p, start, size) ==> size <= p.size)
            && (p.scheme == Mbr ==> 0 < p.start / p.sector < TWO_32 && 0 < p.size / p.sector < TWO_32)
  {
    var p := NormalizePlan(py, k, payload).value;
    GeometryIsLargest(p, start, size);
  }

  lemma GeometryIsLargest(p: Plan, start: int, size: int)
    requires Geometry(p)
    ensures p.start % p.sector == 0 && p.size % p.sector == 0 && p.start >= ALIGNMENT
    ensures p.start + p.size <= p.deviceSize - TAIL
    ensures Fits(p, start, size) ==> size <= p.size
    ensures p.scheme == Mbr ==> 0 < p.start / p.sector < TWO_32 && 0 < p.size / p.sector < TWO_32
  {
    Aligned(p.sector);
    EndIsWhole(p.deviceSize, p.sector);
    Differences(p.start + p.size, p.start, p.sector);
    if p.scheme == Mbr { SectorCounts(p.start, p.size, p.sector); }
    if start % p.sector == 0 && size % p.sector == 0 && start + size <= p.deviceSize - TAIL {
      Differences(start, size, p.sector);
      MultipleAtMost(start + size, p.deviceSize - TAIL, p.sector);
    }
  }

  // -------------------------------------------------------------- phrases

  /** A text up to its first blank, and the rest, are determined by the whole. */
  lemma CutAtBlank(a: string, x: string, b: string, y: string)
    requires ' ' !in a && ' ' !in b && a + [' '] + x == b + [' '] + y
    ensures a == b && x == y
  {
    BeforeFound(a, ' ', x);
    BeforeFound(b, ' ', y);
    PrefixCancels(a + [' '], x, y);
  }

  lemma PrefixCancels(prefix: string, x: string, y: string)
    requires prefix + x == prefix + y
    ensures x == y
  {
    assert (prefix + x)[|prefix|..] == x && (prefix + y)[|prefix|..] == y;
  }

  function Untail(tail: string): string {
    if tail == "" || tail[0] == 'W' || |tail| < 6 then "" else tail[6..]
  }

  lemma TailReadsBack(name: string)
    ensures Untail(Tail(name)) == name
  {
    if name != "" {
      var tail := "LABEL " + name;
      assert tail[0] == 'L' && tail[6..] == name;
    }
  }

  lemma NamesHaveNoBlank(f: Filesystem, s: Scheme)
    ensures ' ' !in Display(f) && ' ' !in Upper(SchemeName(s))
  {
    assert Upper("gpt") == "GPT" && Upper("mbr") == "MBR";
  }

  lemma DisplayDetermines(f: Filesystem, g: Filesystem)
    requires Display(f) == Display(g)
    ensures f == g
  {
  }

  lemma SchemeDetermines(s: Scheme, t: Scheme)
    requires Upper(SchemeName(s)) == Upper(SchemeName(t))
    ensures s == t
  {
    assert Upper("gpt")[0] == 'G' && Upper("mbr")[0] == 'M';
  }

  lemma RestDetermines(p: Plan, q: Plan)
    requires Rest(p) == Rest(q)
    ensures p.filesystem == q.filesystem && p.scheme == q.scheme && p.name == q.name
  {
    var s1, s2 := Upper(SchemeName(p.scheme)), Upper(SchemeName(q.scheme));
    var u1, u2 := s1 + [' '] + Tail(p.name), s2 + [' '] + Tail(q.name);
    var f1, f2 := Display(p.filesystem) + [' '] + ("USING " + u1), Display(q.filesystem) + [' '] + ("USING " + u2);
    PrefixCancels([' '], "AS " + f1, "AS " + f2);
    PrefixCancels("AS ", f1, f2);
    NamesHaveNoBlank(p.filesystem, p.scheme);
    NamesHaveNoBlank(q.filesystem, q.scheme);
    CutAtBlank(Display(p.filesystem), "USING " + u1, Display(q.filesystem), "USING " + u2);
    PrefixCancels("USING ", u1, u2);
    CutAtBlank(s1, Tail(p.name), s2, Tail(q.name));
    DisplayDetermines(p.filesystem, q.filesystem);
    SchemeDetermines(p.scheme, q.scheme);
    TailReadsBack(p.name);
    TailReadsBack(q.name);
  }

  /** Nowhere in the text does a blank stand before `AS`. */
  predicate NoAs(t: string) {
    forall i :: 0 <= i < |t| - 2 ==> !AsAt(t, i)
  }

  predicate AsAt(t: string, i: nat)
    requires i + 2 < |t|
  {
    t[i] == ' ' && t[i + 1] == 'A' && t[i + 2] == 'S'
  }

  lemma NoAsJoins(a: string, b: string)
    requires NoAs(a) && NoAs(b) && a != "" && b != "" && a[|a| - 1] != 'A' && (a[|a| - 1] == ' ' ==> b[0] != 'A')
    ensures NoAs(a + b)
  {
    var t := a + b;
    forall i | 0 <= i < |t| - 2 ensures !AsAt(t, i) {
      if i + 2 < |a| {
        assert !AsAt(a, i);
      } else if i >= |a| {
        assert !AsAt(b, i - |a|);
      }
    }
  }

  lemma WordsHaveNoAs(f: Filesystem, s: Scheme, tail: string)
    requires NoAs(tail) && tail != "" && tail[0] != 'A'
    ensures NoAs(Words(f, s, tail))
  {
    var display, scheme := Display(f), Upper(SchemeName(s));
    NamesHaveNoBlank(f, s);
    NamesJoin(f, s);
    NoAsJoins(scheme + [' '], tail);
    NoAsJoins("USING ", scheme + [' '] + tail);
    NoAsJoins(display + [' '], "USING " + (scheme + [' '] + tail));
    NoAsJoins("AS ", display + [' '] + ("USING " + (scheme + [' '] + tail)));
  }

  lemma NamesJoin(f: Filesystem, s: Scheme)
    ensures Display(f) != "" && Display(f)[0] != 'A' && Upper(SchemeName(s)) != ""
    ensures NoAs(Display(f) + [' ']) && NoAs(Upper(SchemeName(s)) + [' '])
  {
    NamesHaveNoBlank(f, s);
    BlankLast(Display(f));
    BlankLast(Upper(SchemeName(s)));
  }

  lemma BlankLast(name: string)
    requires ' ' !in name
    ensures NoAs(name + [' '])
  {
    forall i | 0 <= i < |name| - 1 ensures !AsAt(name + [' '], i) {
      assert (name + [' '])[i] == name[i] && name[i] in name;
    }
  }

  /** A labelled phrase behind its path, up to the label. */
  function Glue(f: Filesystem, s: Scheme): string {
    [' '] + Words(f, s, "LABEL ")
  }

  lemma Associative(a: string, b: string, c: string)
    ensures a + (b + c) == a + b + c
  {
  }

  lemma RestByGlue(p: Plan)
    requires p.name != ""
    ensures Rest(p) == Glue(p.filesystem, p.scheme) + p.name
    ensures |Glue(p.filesystem, p.scheme)| > 6
    ensures Glue(p.filesystem, p.scheme)[|Glue(p.filesystem, p.scheme)| - 2] == 'L'
    ensures Glue(p.filesystem, p.scheme)[|Glue(p.filesystem, p.scheme)| - 1] == ' '
  {
    var display, scheme := Display(p.filesystem) + [' '], Upper(SchemeName(p.scheme)) + [' '];
    var t1 := scheme + "LABEL ";
    Associative(scheme, "LABEL ", p.name);
    Associative("USING ", t1, p.name);
    Associative(display, "USING " + t1, p.name);
    Associative("AS ", display + ("USING " + t1), p.name);
    Associative([' '], "AS " + (display + ("USING " + t1)), p.name);
  }

  /** Inside such a rest another one can only begin at the blank in front of the
      label, or later. */
  lemma NextRest(p: Plan, d: nat)
    requires 0 < d < |Rest(p)| - 2 && AsAt(Rest(p), d)
    ensures p.name != "" && d >= |Glue(p.filesystem, p.scheme)| - 1
  {
    if p.name == "" {
      WordsHaveNoAs(p.filesystem, p.scheme, "WITHOUT A LABEL");
      assert AsAt(Words(p.filesystem, p.scheme, "WITHOUT A LABEL"), d - 1);
    } else {
      RestByGlue(p);
      WordsHaveNoAs(p.filesystem, p.scheme, "LABEL ");
      if d < |Glue(p.filesystem, p.scheme)| - 2 { assert AsAt(Words(p.filesystem, p.scheme, "LABEL "), d - 1); }
    }
  }

  /** The device path of q reads like the phrase of p up to its label, and the
      label of p, with the blank in front of it, like the rest of the phrase of q. */
  predicate Inside(p: Plan, q: Plan) {
    var head := p.devicePath + Glue(p.filesystem, p.scheme)[..|Glue(p.filesystem, p.scheme)| - 1];
    p.name != "" && head <= q.devicePath && [' '] + p.name == q.devicePath[|head|..] + Rest(q)
  }

  predicate SameLayout(p: Plan, q: Plan) {
    p.devicePath == q.devicePath && p.filesystem == q.filesystem && p.scheme == q.scheme && p.name == q.name
  }

  lemma InsideIff(p: Plan, q: Plan)
    requires |p.devicePath| < |q.devicePath|
    ensures p.devicePath + Rest(p) == q.devicePath + Rest(q) <==> Inside(p, q)
  {
    var n, d := |p.devicePath|, |q.devicePath| - |p.devicePath|;
    if p.devicePath + Rest(p) == q.devicePath + Rest(q) {
      var whole := p.devicePath + Rest(p);
      assert p.devicePath == whole[..n] && q.devicePath == whole[..n + d];
      assert Rest(p) == whole[n..] && Rest(q) == whole[n + d..];
      RestOpens(q);
      assert Rest(q)[0] == Rest(p)[d] && Rest(q)[1] == Rest(p)[d + 1] && Rest(q)[2] == Rest(p)[d + 2];
      NextRest(p, d);
      RestByGlue(p);
      Split(p, q);
    } else if Inside(p, q) {
      RestByGlue(p);
      Joined(p, q);
    }
  }

  lemma RestOpens(q: Plan)
    ensures |Rest(q)| > 3 && AsAt(Rest(q), 0)
  {
  }

  lemma Split(p: Plan, q: Plan)
    requires p.name != "" && Rest(p) == Glue(p.filesystem, p.scheme) + p.name
    requires Glue(p.filesystem, p.scheme)[|Glue(p.filesystem, p.scheme)| - 1] == ' '
    requires p.devicePath + Rest(p) == q.devicePath + Rest(q)
    requires |q.devicePath| >= |p.devicePath| + |Glue(p.filesystem, p.scheme)| - 1
    ensures Inside(p, q)
  {
    var glue := Glue(p.filesystem, p.scheme);
    var front := glue[..|glue| - 1];
    assert glue == front + [' '];
    SplitAt(p.devicePath + front, [' '] + p.name, q.devicePath, Rest(q)) by {
      Associative(front, [' '], p.name);
      Associative(p.devicePath, front, [' '] + p.name);
    }
  }

  lemma SplitAt(head: string, rest: string, longer: string, shorter: string)
    requires head + rest == longer + shorter && |longer| >= |head|
    ensures head <= longer && rest == longer[|head|..] + shorter
  {
    var whole := head + rest;
    assert head == whole[..|longer|][..|head|] && longer == whole[..|longer|];
    assert rest == whole[|head|..] && shorter == whole[|longer|..];
  }

  lemma Joined(p: Plan, q: Plan)
    requires p.name != "" && Rest(p) == Glue(p.filesystem, p.scheme) + p.name
    requires Glue(p.filesystem, p.scheme)[|Glue(p.filesystem, p.scheme)| - 1] == ' ' && Inside(p, q)
    ensures p.devicePath + Rest(p) == q.devicePath + Rest(q)
  {
    var front := Glue(p.filesystem, p.scheme)[..|Glue(p.filesystem, p.scheme)| - 1];
    var head := p.devicePath + front;
    assert Glue(p.filesystem, p.scheme) == front + [' '];
    assert q.devicePath == head + q.devicePath[|head|..];
    Associative(head, q.devicePath[|head|..], Rest(q));
    Associative(front, [' '], p.name);
    Associative(p.devicePath, front, [' '] + p.name);
  }

  /** Two plans have one phrase exactly if they are one layout, or one of them
      stands inside the other: that takes blanks in a device path and a label
      that reads like the end of a phrase. */
  lemma PhraseIff(p: Plan, q: Plan)
    ensures PhraseFor(p) == PhraseFor(q) <==> SameLayout(p, q) || Inside(p, q) || Inside(q, p)
  {
    if PhraseFor(p) == PhraseFor(q) { PrefixCancels("FORMAT ", p.devicePath + Rest(p), q.devicePath + Rest(q)); }
    if |p.devicePath| < |q.devicePath| {
      InsideIff(p, q);
      NotInside(q, p);
    } else if |q.devicePath| < |p.devicePath| {
      InsideIff(q, p);
      NotInside(p, q);
    } else {
      NotInside(p, q);
      NotInside(q, p);
      if p.devicePath + Rest(p) == q.devicePath + Rest(q) {
        assert p.devicePath == (p.devicePath + Rest(p))[..|p.devicePath|] == q.devicePath;
        PrefixCancels(p.devicePath, Rest(p), Rest(q));
        RestDetermines(p, q);
      }
    }
  }

  lemma NotInside(p: Plan, q: Plan)
    requires |p.devicePath| >= |q.devicePath|
    ensures !Inside(p, q)
  {
    assert |Glue(p.filesystem, p.scheme)| > 1;
  }

  /** Without blanks in the device paths, a phrase identifies one layout. */
  lemma PhraseDetermines(p: Plan, q: Plan)
    requires ' ' !in p.devicePath && ' ' !in q.devicePath && PhraseFor(p) == PhraseFor(q)
    ensures SameLayout(p, q)
  {
    PhraseIff(p, q);
    if Inside(p, q) {
      InsideHasBlank(p, q);
    } else if Inside(q, p) {
      InsideHasBlank(q, p);
    }
  }

  lemma InsideHasBlank(p: Plan, q: Plan)
    requires Inside(p, q)
    ensures ' ' in q.devicePath
  {
    var n := |p.devicePath|;
    assert |Glue(p.filesystem, p.scheme)| > 1
        && (p.devicePath + Glue(p.filesystem, p.scheme)[..|Glue(p.filesystem, p.scheme)| - 1])[n] == ' ';
    assert q.devicePath[n] == ' ';
  }

  // ------------------------------------------------- normalizing twice

  /** The payload that `normalize_plan` returns for an accepted plan. */
  function Normalized(k: Contract, p: Plan): Payload
    requires p.sector > 0
  {
    var kind := Str(PartitionType(p.scheme, p.filesystem));
    var display := Str(Display(p.filesystem));
    var scheme, filesystem := Str(SchemeName(p.scheme)), Str(FilesystemName(p.filesystem));
    Payload(
      Str(p.devicePath), Int(p.deviceSize), Str(p.identity),
      Some(PlanPayload(
        Int(1), Str("non-bootable"), Bool(false), Bool(true), Str(p.devicePath), Str(p.identity), scheme,
        filesystem, display,
        Int(p.sector), Int(p.deviceSize), Int(p.start), Int(p.size), Int(1), kind, Str(p.name), k.tools(p.filesystem),
        k.warnings)),
      Some(TablePayload(
        Int(1), scheme, Str(p.devicePath), Int(p.sector), Int(1), Int(p.start / p.sector), Int(p.size / p.sector), kind,
        filesystem, display, Str(p.name))),
      Str(PhraseFor(p)))
  }

  lemma PlainText(py: Python, s: string)
    requires Unspaced(s)
    ensures Text(py, Str(s)) == s
  {
    UnspacedStays(s);
  }

  lemma NamesAreRead(py: Python, s: Scheme, f: Filesystem)
    ensures Lower(Text(py, Str(SchemeName(s)))) == SchemeName(s) && SchemeOf(SchemeName(s)) == Some(s)
    ensures Lower(Text(py, Str(FilesystemName(f)))) == FilesystemName(f) && FilesystemOf(FilesystemName(f)) == Some(f)
  {
    SchemeIsNamed(s);
    FilesystemIsNamed(f);
    PlainText(py, SchemeName(s));
    PlainText(py, FilesystemName(f));
  }

  lemma SchemeIsNamed(s: Scheme)
    ensures Lower(SchemeName(s)) == SchemeName(s) && SchemeOf(SchemeName(s)) == Some(s) && Unspaced(SchemeName(s))
  {
  }

  lemma FilesystemIsNamed(f: Filesystem)
    ensures Lower(FilesystemName(f)) == FilesystemName(f) && FilesystemOf(FilesystemName(f)) == Some(f)
    ensures Unspaced(FilesystemName(f))
  {
  }

  lemma LayoutTwice(py: Python, k: Contract, p: Plan)
    requires p.sector > 0
    requires Text(py, Str(Display(p.filesystem))) == Display(p.filesystem)
    requires Text(py, Str(PartitionType(p.scheme, p.filesystem))) == PartitionType(p.scheme, p.filesystem)
    ensures ReadLayout(py, Normalized(k, p).plan.value) == Value((p.scheme, p.filesystem))
  {
    NamesAreRead(py, p.scheme, p.filesystem);
  }

  /** The geometry in whole sectors. */
  lemma TableNumbers(p: Plan)
    requires Geometry(p)
    ensures p.start / p.sector >= 1 && p.start / p.sector * p.sector == p.start
    ensures p.size / p.sector >= 1 && p.size / p.sector * p.sector == p.size
  {
    Aligned(p.sector);
    EndIsWhole(p.deviceSize, p.sector);
    Differences(p.start + p.size, p.start, p.sector);
    SectorsBack(p.start, p.sector);
    SectorsBack(p.size, p.sector);
  }

  lemma TableNamesTwice(py: Python, k: Contract, p: Plan)
    requires p.sector > 0
    requires Text(py, Str(Display(p.filesystem))) == Display(p.filesystem)
    requires Text(py, Str(p.devicePath)) == p.devicePath
    requires Text(py, Str(PartitionType(p.scheme, p.filesystem))) == PartitionType(p.scheme, p.filesystem)
    requires Lower(Text(py, Str(SchemeName(p.scheme)))) == SchemeName(p.scheme)
    requires Lower(Text(py, Str(FilesystemName(p.filesystem)))) == FilesystemName(p.filesystem)
    ensures TableNames(py, Normalized(k, p).table.value, p)
  {
    var t := Normalized(k, p).table.value;
    NamesStated(py, t, p, SchemeName(p.scheme), FilesystemName(p.filesystem));
  }

  lemma NamesStated(py: Python, t: TablePayload, p: Plan, scheme: string, filesystem: string)
    requires t.scheme == Str(scheme) && Lower(Text(py, Str(scheme))) == scheme == SchemeName(p.scheme)
    requires t.filesystem == Str(filesystem)
        && Lower(Text(py, Str(filesystem))) == filesystem == FilesystemName(p.filesystem)
    requires Text(py, t.devicePath) == p.devicePath && t.name == Str(p.name)
    requires Text(py, t.partitionType) == PartitionType(p.scheme, p.filesystem)
    requires Text(py, t.display) == Display(p.filesystem)
    ensures TableNames(py, t, p)
  {
  }

  lemma TableTwice(py: Python, k: Contract, p: Plan)
    requires p.sector > 0 && p.start / p.sector >= 1 && p.start / p.sector * p.sector == p.start
    requires p.size / p.sector >= 1 && p.size / p.sector * p.sector == p.size
    requires TableNames(py, Normalized(k, p).table.value, p)
    ensures NormalizeTable(py, Normalized(k, p).table, p) == Value(())
  {
    TableRead(py, Normalized(k, p).table.value, p, p.start / p.sector, p.size / p.sector);
  }

  lemma TableRead(py: Python, t: TablePayload, p: Plan, start: int, size: int)
    requires p.sector > 0 && start >= 1 && start * p.sector == p.start && size >= 1 && size * p.sector == p.size
    requires t.sectorSize == Int(p.sector) && t.startSector == Int(start) && t.sizeSectors == Int(size)
    requires t.schema == Int(1) && t.partitionNumber == Int(1) && TableNames(py, t, p)
    ensures NormalizeTable(py, Some(t), p) == Value(())
  {
  }

  lemma SectorsBack(n: int, sector: int)
    requires (sector == 512 || sector == 4096) && n > 0 && n % sector == 0
    ensures n / sector >= 1 && n / sector * sector == n
  {
    if sector == 512 {
      assert n / 512 * 512 == n;
    } else {
      assert n / 4096 * 4096 == n;
    }
  }

  lemma TargetTwice(py: Python, k: Contract, p: Plan)
    requires p.sector > 0 && "/dev/" <= p.devicePath && py.isNormalPath(p.devicePath) && p.identity != ""
    requires Text(py, Str(p.devicePath)) == p.devicePath && Text(py, Str(p.identity)) == p.identity
    ensures ReadTarget(py, Normalized(k, p).plan.value) == Value((p.devicePath, p.identity))
  {
  }

  lemma NumbersTwice(k: Contract, p: Plan)
    requires Geometry(p) && p.deviceSize > 0
    ensures ReadNumbers(Normalized(k, p).plan.value) == Value((p.sector, p.deviceSize, p.start, p.size))
  {
    Aligned(p.sector);
  }

  lemma FieldsTwice(py: Python, k: Contract, p: Plan)
    requires Geometry(p) && NormalizeLabel(Str(p.name), p.filesystem).Value?
    requires ReadTarget(py, Normalized(k, p).plan.value) == Value((p.devicePath, p.identity))
    requires ReadLayout(py, Normalized(k, p).plan.value) == Value((p.scheme, p.filesystem))
    requires ReadNumbers(Normalized(k, p).plan.value) == Value((p.sector, p.deviceSize, p.start, p.size))
    ensures NormalizeFields(py, k, Normalized(k, p).plan) == Value(p)
  {
  }

  lemma AcceptedTwice(py: Python, k: Contract, p: Plan)
    requires Geometry(p) && p.deviceSize > 0 && p.devicePath != "" && p.identity != ""
    requires NormalizeFields(py, k, Normalized(k, p).plan) == Value(p)
    requires NormalizeTable(py, Normalized(k, p).table, p) == Value(())
    requires Text(py, Str(p.devicePath)) == p.devicePath && Text(py, Str(p.identity)) == p.identity
    requires Text(py, Str(PhraseFor(p))) == PhraseFor(p) != ""
    ensures NormalizePlan(py, k, Normalized(k, p)) == Value(p)
  {
    var payload := Normalized(k, p);
    PayloadAccepted(py, k, p, payload.plan, payload.table, PhraseFor(p));
  }

  lemma PayloadAccepted(py: Python, k: Contract, p: Plan, plan: Option<PlanPayload>, table: Option<TablePayload>,
      phrase: string)
    requires p.deviceSize > 0 && p.devicePath != "" && p.identity != "" && phrase == PhraseFor(p) != ""
    requires NormalizeFields(py, k, plan) == Value(p) && NormalizeTable(py, table, p) == Value(())
    requires Text(py, Str(p.devicePath)) == p.devicePath && Text(py, Str(p.identity)) == p.identity
    requires Text(py, Str(phrase)) == phrase
    ensures NormalizePlan(py, k,
        Payload(Str(p.devicePath), Int(p.deviceSize), Str(p.identity), plan, table, Str(phrase)))
         == Value(p)
  {
  }

  /** Texts an accepted payload stated are stripped already. */
  lemma StatedTexts(py: Python, p: PlanPayload, target: (string, string), layout: (Scheme, Filesystem))
    requires ReadTarget(py, p) == Value(target) && ReadLayout(py, p) == Value(layout)
    ensures Text(py, Str(target.0)) == target.0 && Text(py, Str(target.1)) == target.1
    ensures Text(py, Str(Display(layout.1))) == Display(layout.1)
    ensures Text(py, Str(PartitionType(layout.0, layout.1))) == PartitionType(layout.0, layout.1)
  {
    TextIsStripped(py, p.devicePath);
    TextIsStripped(py, p.identity);
    TextIsStripped(py, p.display);
    TextIsStripped(py, p.partitionType);
  }

  /** Every plan with sound fields is accepted in its own normalized form. */
  lemma NormalizedIsAccepted(py: Python, k: Contract, p: Plan)
    requires Geometry(p) && p.deviceSize > 0 && NormalizeLabel(Str(p.name), p.filesystem).Value?
    requires "/dev/" <= p.devicePath && py.isNormalPath(p.devicePath) && p.identity != ""
    requires Text(py, Str(p.devicePath)) == p.devicePath && Text(py, Str(p.identity)) == p.identity
    requires Text(py, Str(Display(p.filesystem))) == Display(p.filesystem)
    requires Text(py, Str(PartitionType(p.scheme, p.filesystem))) == PartitionType(p.scheme, p.filesystem)
    requires Text(py, Str(PhraseFor(p))) == PhraseFor(p)
    ensures NormalizePlan(py, k, Normalized(k, p)) == Value(p)
  {
    NamesAreRead(py, p.scheme, p.filesystem);
    LayoutTwice(py, k, p);
    TableNumbers(p);
    TableNamesTwice(py, k, p);
    TableTwice(py, k, p);
    TargetTwice(py, k, p);
    NumbersTwice(k, p);
    FieldsTwice(py, k, p);
    AcceptedTwice(py, k, p);
  }

  /** Normalizing the normalized plan again accepts it and changes nothing. */
  lemma NormalizeTwice(py: Python, k: Contract, payload: Payload)
    requires NormalizePlan(py, k, payload).Value?
    ensures NormalizePlan(py, k, Normalized(k, NormalizePlan(py, k, payload).value)) == NormalizePlan(py, k, payload)
  {
    var p := NormalizePlan(py, k, payload).value;
    StatedTexts(py, payload.plan.value, (p.devicePath, p.identity), (p.scheme, p.filesystem));
    TextIsStripped(py, payload.confirmation);
    NormalizedIsAccepted(py, k, p);
  }

  // -------------------------------------------------- two accepted payloads

  function Example(path: string, identity: string, filesystem: Filesystem, name: string): Plan {
    Plan(path, identity, 4 * ALIGNMENT, 512, Gpt, filesystem, name, ALIGNMENT, 2 * ALIGNMENT)
  }

  lemma {:induction false} UnitsOfAscii(s: string)
    requires forall i :: 0 <= i < |s| ==> s[i] < '\U{80}'
    ensures Total(s, Utf16Units) == |s|
  {
    if s != "" { UnitsOfAscii(s[1..]); }
  }

  predicate Printable(s: string) {
    forall i :: 0 <= i < |s| ==> ' ' <= s[i] <= 'z'
  }

  lemma GlueIsPrintable(f: Filesystem)
    ensures Printable(Glue(f, Gpt)) && |Glue(f, Gpt)| == 21 + |Display(f)|
  {
    WordsArePrintable(f);
    assert Upper("gpt") == "GPT";
    var a := "GPT" + [' '] + "LABEL ";
    var b := Display(f) + [' '] + ("USING " + a);
    assert Printable(a) && |a| == 10;
    assert Printable(b) && |b| == |Display(f)| + 17;
  }

  lemma WordsArePrintable(f: Filesystem)
    ensures Printable("AS ") && Printable("USING ") && Printable("LABEL ") && Printable("GPT") && Printable(Display(f))
  {
  }

  lemma CollidingLabelFits(name: string)
    requires name == "z" + (Glue(Udf, Gpt) + "y")
    ensures NormalizeLabel(Str(name), Ntfs) == Value(name) && Unspaced(name)
  {
    GlueIsPrintable(Udf);
    UnitsOfAscii(name);
    assert |"UDF"| == 3 && Unspaced(name);
    UnspacedStays(name);
  }

  lemma KindIsRead(py: Python, f: Filesystem)
    requires f == Ntfs || f == Udf
    ensures Text(py, Str(Display(f))) == Display(f) && Text(py, Str(PartitionType(Gpt, f))) == PartitionType(Gpt, f)
  {
    PlainText(py, Display(f));
    PlainText(py, PartitionType(Gpt, f));
  }

  lemma PhraseIsRead(py: Python, p: Plan)
    requires p.name != "" && Unspaced(p.name)
    ensures Text(py, Str(PhraseFor(p))) == PhraseFor(p)
  {
    RestByGlue(p);
    var phrase := PhraseFor(p);
    assert phrase[0] == 'F' && phrase[|phrase| - 1] == p.name[|p.name| - 1];
    PlainText(py, phrase);
  }

  lemma ExampleIsAccepted(py: Python, k: Contract, p: Plan, path: string, identity: string, f: Filesystem, name: string)
    requires p == Example(path, identity, f, name) && (f == Ntfs || f == Udf)
    requires NormalizeLabel(Str(name), f).Value? && name != "" && Unspaced(name)
    requires "/dev/" <= path && py.isNormalPath(path) && Unspaced(path) && identity != "" && Unspaced(identity)
    ensures NormalizePlan(py, k, Normalized(k, p)) == Value(p)
  {
    PlainText(py, path);
    PlainText(py, identity);
    KindIsRead(py, f);
    PhraseIsRead(py, p);
    ExampleGeometry(path, identity, f, name);
    NormalizedIsAccepted(py, k, p);
  }

  lemma ExampleGeometry(path: string, identity: string, f: Filesystem, name: string)
    requires f == Ntfs || f == Udf
    ensures Geometry(Example(path, identity, f, name))
  {
  }

  /** Two payloads, both accepted, for different devices and filesystems, that
      ask for one phrase. */
  lemma AcceptedCollision(py: Python, k: Contract, identity: string, p: Plan, q: Plan)
    requires p == Example("/dev/a", identity, Ntfs, "z" + (Glue(Udf, Gpt) + "y"))
    requires q == Example("/dev/a" + (Glue(Ntfs, Gpt) + "z"), identity, Udf, "y")
    requires py.isNormalPath(p.devicePath) && py.isNormalPath(q.devicePath) && identity != "" && Unspaced(identity)
    ensures NormalizePlan(py, k, Normalized(k, p)) == Value(p) && NormalizePlan(py, k, Normalized(k, q)) == Value(q)
    ensures PhraseFor(p) == PhraseFor(q) && p.devicePath != q.devicePath
  {
    CollidingLabelFits(p.name);
    ExampleIsAccepted(py, k, p, p.devicePath, identity, Ntfs, p.name);
    CollidingPath(q.devicePath, Glue(Ntfs, Gpt));
    PlainLabelFits();
    ExampleIsAccepted(py, k, q, q.devicePath, identity, Udf, "y");
    Nested(p, q, "z");
  }

  lemma CollidingPath(path: string, glue: string)
    requires path == "/dev/a" + (glue + "z")
    ensures "/dev/" <= path && Unspaced(path)
  {
    assert path[|path| - 1] == 'z';
  }

  lemma PlainLabelFits()
    ensures NormalizeLabel(Str("y"), Udf) == Value("y") && Unspaced("y")
  {
    UnspacedStays("y");
  }

  lemma Nested(p: Plan, q: Plan, z: string)
    requires p.name == z + (Glue(q.filesystem, q.scheme) + q.name) && q.name != ""
    requires q.devicePath == p.devicePath + (Glue(p.filesystem, p.scheme) + z)
    ensures PhraseFor(p) == PhraseFor(q) && p.devicePath != q.devicePath
  {
    RestByGlue(p);
    RestByGlue(q);
    var rest := Glue(q.filesystem, q.scheme) + q.name;
    Associative(Glue(p.filesystem, p.scheme), z, rest);
    Associative(p.devicePath, Glue(p.filesystem, p.scheme) + z, rest);
  }
}
