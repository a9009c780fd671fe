/** `_catalogue_boot_entries` of gui/rufusarm64_linux_compatibility.py. */
module BootCatalogue {
  import opened Base
  import opened ElTorito

  datatype Firmware = Bios | Uefi

  datatype Entry = Entry(firmware: Firmware, lba: nat)

  /** `_platform_name`. */
  function PlatformName(value: Byte): Option<Firmware> {
    if value == 0x00 then Some(Bios) else if value == 0xEF then Some(Uefi) else None
  }

  /** `struct.unpack_from("<I", data, at)`. */
  function Le32(data: Bytes, at: nat): (n: nat)
    requires at + 4 <= |data|
  {
    data[at] as int + 256 * data[at + 1] as int + 65536 * data[at + 2] as int + 16777216 * data[at + 3] as int
  }

  /** The boot entry a 32-octet record stands for under its section's platform:
      bootable, of a known platform, at a non-zero address. */
  function Bootable(platform: Byte, record: Bytes): (r: Option<Entry>)
    requires |record| == RECORD
  {
    if record[0] == 0x88 && PlatformName(platform).Some? && Le32(record, 8) > 0
    then Some(Entry(PlatformName(platform).value, Le32(record, 8)))
    else None
  }

  /** Read octet by octet. */
  lemma BootableMeans(platform: Byte, record: Bytes)
    requires |record| == RECORD
    ensures Bootable(platform, record).Some? <==>
      && record[0] == 136 && (platform == 0 || platform == 239)
      && (record[8] != 0 || record[9] != 0 || record[10] != 0 || record[11] != 0)
    ensures Bootable(platform, record).Some? ==> (Bootable(platform, record).value.firmware == Bios <==> platform == 0)
  {
  }

  function One(entry: Option<Entry>): seq<Entry> {
    if entry.Some? then [entry.value] else []
  }

  /** `add_entry`. */
  function Add(entries: seq<Entry>, platform: Byte, record: Bytes): (r: seq<Entry>)
    requires |record| == RECORD
  {
    if |entries| < MAX_BOOT_ENTRIES then entries + One(Bootable(platform, record)) else entries
  }

  /** Entries and position after a section; `cut` when the data ran out. */
  datatype Taken = Taken(entries: seq<Entry>, offset: nat, cut: bool)

  function Take(c: Bytes, offset: nat, platform: Byte, count: nat, entries: seq<Entry>): (r: Taken)
    requires |entries| <= MAX_BOOT_ENTRIES
    ensures |r.entries| <= MAX_BOOT_ENTRIES && r.offset >= offset && entries <= r.entries
    decreases count
  {
    if count == 0 then Taken(entries, offset, false)
    else if offset + RECORD > |c| then Taken(entries, offset, true)
    else Take(c, offset + RECORD, platform, count - 1, Add(entries, platform, c[offset..offset + RECORD]))
  }

  function Scan(c: Bytes, offset: nat, entries: seq<Entry>): (r: seq<Entry>)
    requires |entries| <= MAX_BOOT_ENTRIES
    ensures |r| <= MAX_BOOT_ENTRIES && entries <= r
    decreases |c| - offset
  {
    if offset + RECORD > |c| || |entries| == MAX_BOOT_ENTRIES then entries
    else if c[offset] != 0x90 && c[offset] != 0x91 then Scan(c, offset + RECORD, entries)
    else
      var taken := Take(c, offset + RECORD, c[offset + 1], Min(c[offset + 2], MAX_BOOT_ENTRIES - |entries|), entries);
      if taken.cut || c[offset] == 0x91 then taken.entries else Scan(c, taken.offset, taken.entries)
  }

  function Entries(c: Bytes): (r: seq<Entry>)
    ensures |r| <= MAX_BOOT_ENTRIES
  {
    if |c| < 64 || !ValidValidation(c[..32]) then []
    else Scan(c, 64, Add([], c[1], c[32..64]))
  }

  /** The inner loop: the records of one section. */
  method TakeSection(c: Bytes, start: nat, platform: Byte, count: nat, before: seq<Entry>) returns (entries: seq<Entry>,
          offset: nat, cut: bool)
    requires |before| <= MAX_BOOT_ENTRIES
    ensures Taken(entries, offset, cut) == Take(c, start, platform, count, before)
  {
    entries, offset := before, start;
    var i := 0;
    while i < count
      invariant 0 <= i <= count && |entries| <= MAX_BOOT_ENTRIES
      invariant Take(c, offset, platform, count - i, entries) == Take(c, start, platform, count, before)
    {
      if offset + RECORD > |c| { return entries, offset, true; }
      ghost var left: nat := count - i - 1;
      var next := Add(entries, platform, c[offset..offset + RECORD]);
      assert Take(c, offset, platform, left + 1, entries) == Take(c, offset + RECORD, platform, left, next);
      entries := next;
      offset := offset + RECORD;
      i := i + 1;
    }
    cut := false;
  }

  /** On arbitrary octets the loops end, stay in bounds and compute `Entries`. */
  method CatalogueBootEntries(c: Bytes) returns (entries: seq<Entry>)
    ensures entries == Entries(c) && |entries| <= MAX_BOOT_ENTRIES
  {
    if |c| < 64 || !ValidValidation(c[..32]) { return []; }
    entries := Add([], c[1], c[32..64]);
    var offset := 64;
    while offset + RECORD <= |c| && |entries| < MAX_BOOT_ENTRIES
      invariant |entries| <= MAX_BOOT_ENTRIES
      invariant Scan(c, offset, entries) == Entries(c)
      decreases |c| - offset
    {
      var headerId := c[offset];
      if headerId != 0x90 && headerId != 0x91 {
        offset := offset + RECORD;
        continue;
      }
      var count := Min(c[offset + 2], MAX_BOOT_ENTRIES - |entries|);
      var cut: bool;
      entries, offset, cut := TakeSection(c, offset + RECORD, c[offset + 1], count, entries);
      if cut || headerId == 0x91 { return; }
    }
  }

  // -------------------------------------------------- what is returned

  /** Every entry comes from a whole record of the data that is bootable, at a
      non-zero address, under one of the two known platforms. */
  ghost predicate Grounded(c: Bytes, entry: Entry) {
    exists at: nat, platform: Byte :: Stated(c, at, platform, entry)
  }

  predicate Stated(c: Bytes, at: nat, platform: Byte, entry: Entry) {
    at + RECORD <= |c| && Bootable(platform, c[at..at + RECORD]) == Some(entry)
  }

  /** Every entry a record of the data can stand for satisfies `good`. */
  ghost predicate Covers(c: Bytes, good: Entry -> bool) {
    forall at: nat, platform: Byte, entry :: Stated(c, at, platform, entry) ==> good(entry)
  }

  ghost predicate All(entries: seq<Entry>, good: Entry -> bool) {
    forall i :: 0 <= i < |entries| ==> good(entries[i])
  }

  lemma AddKeepsGood(c: Bytes, entries: seq<Entry>, platform: Byte, at: nat, good: Entry -> bool)
    requires All(entries, good) && at + RECORD <= |c| && Covers(c, good)
    ensures All(Add(entries, platform, c[at..at + RECORD]), good)
  {
    var entry := Bootable(platform, c[at..at + RECORD]);
    if entry.Some? {
      assert Stated(c, at, platform, entry.value);
    }
  }

  lemma {:induction false} TakeKeepsGood(c: Bytes, offset: nat, platform: Byte, count: nat, entries: seq<Entry>,
          good: Entry -> bool)
    requires |entries| <= MAX_BOOT_ENTRIES && All(entries, good) && Covers(c, good)
    ensures All(Take(c, offset, platform, count, entries).entries, good)
    decreases count
  {
    if count > 0 && offset + RECORD <= |c| {
      AddKeepsGood(c, entries, platform, offset, good);
      TakeKeepsGood(c, offset + RECORD, platform, count - 1, Add(entries, platform, c[offset..offset + RECORD]), good);
    }
  }

  lemma {:induction false} ScanKeepsGood(c: Bytes, offset: nat, entries: seq<Entry>, good: Entry -> bool)
    requires |entries| <= MAX_BOOT_ENTRIES && All(entries, good) && Covers(c, good)
    ensures All(Scan(c, offset, entries), good)
    decreases |c| - offset
  {
    if offset + RECORD <= |c| && |entries| < MAX_BOOT_ENTRIES {
      if c[offset] != 0x90 && c[offset] != 0x91 {
        ScanKeepsGood(c, offset + RECORD, entries, good);
      } else {
        var count := Min(c[offset + 2], MAX_BOOT_ENTRIES - |entries|);
        TakeKeepsGood(c, offset + RECORD, c[offset + 1], count, entries, good);
        var taken := Take(c, offset + RECORD, c[offset + 1], count, entries);
        ScanKeepsGood(c, taken.offset, taken.entries, good);
      }
    }
  }

  lemma EntriesAreGood(c: Bytes, good: Entry -> bool)
    requires Covers(c, good)
    ensures All(Entries(c), good)
  {
    if |c| >= 64 && ValidValidation(c[..32]) {
      AddKeepsGood(c, [], c[1], 32, good);
      ScanKeepsGood(c, 64, Add([], c[1], c[32..64]), good);
    }
  }

  /** No entry is invented, on any octets, and none is returned without a valid
      validation entry. */
  lemma EntriesAreGrounded(c: Bytes, k: nat)
    requires k < |Entries(c)|
    ensures Grounded(c, Entries(c)[k]) && |c| >= 64 && ValidValidation(c[..32])
  {
    EntriesAreGood(c, entry => Grounded(c, entry));
  }

  // ------------------------------------------------------------ printing

  /** A section: platform, the rest of its header, and its records. */
  datatype Section = Section(platform: Byte, id: Bytes, records: seq<Bytes>)

  predicate Whole(records: seq<Bytes>) {
    forall i :: 0 <= i < |records| ==> |records[i]| == RECORD
  }

  predicate WellFormed(s: Section) {
    |s.id| == 28 && |s.records| < 256 && Whole(s.records)
  }

  predicate AllWellFormed(sections: seq<Section>) {
    forall i :: 0 <= i < |sections| ==> WellFormed(sections[i])
  }

  function Flat(records: seq<Bytes>): (r: Bytes)
    requires Whole(records)
    ensures |r| == RECORD * |records|
  {
    if records == [] then [] else records[0] + Flat(records[1..])
  }

  function PrintSection(s: Section, last: bool): (r: Bytes)
    requires WellFormed(s)
    ensures |r| == RECORD + RECORD * |s.records|
  {
    Header(s, last) + Flat(s.records)
  }

  function PrintSections(sections: seq<Section>): (r: Bytes)
    requires AllWellFormed(sections)
  {
    if sections == [] then [] else PrintSection(sections[0], |sections| == 1) + PrintSections(sections[1..])
  }

  /** The boot entries of a list of records. */
  function Keep(platform: Byte, records: seq<Bytes>): (r: seq<Entry>)
    requires Whole(records)
    ensures |r| <= |records|
  {
    if records == [] then []
    else One(Bootable(platform, records[0])) + Keep(platform, records[1..])
  }

  function KeepAll(sections: seq<Section>): (r: seq<Entry>)
    requires AllWellFormed(sections)
    ensures |r| <= Count(sections)
  {
    if sections == [] then [] else Keep(sections[0].platform, sections[0].records) + KeepAll(sections[1..])
  }

  function Count(sections: seq<Section>): nat {
    if sections == [] then 0 else |sections[0].records| + Count(sections[1..])
  }

  /** `part` stands at this offset. */
  predicate At(c: Bytes, offset: nat, part: Bytes) {
    offset + |part| <= |c| && c[offset..offset + |part|] == part
  }

  lemma AtSplits(c: Bytes, offset: nat, a: Bytes, b: Bytes)
    requires At(c, offset, a + b)
    ensures At(c, offset, a) && At(c, offset + |a|, b)
  {
    var whole := c[offset..offset + |a| + |b|];
    assert whole[..|a|] == a && whole[|a|..] == b;
  }

  lemma AddKeeps(entries: seq<Entry>, platform: Byte, records: seq<Bytes>)
    requires records != [] && Whole(records) && |entries| < MAX_BOOT_ENTRIES
    ensures Add(entries, platform, records[0]) + Keep(platform, records[1..]) == entries + Keep(platform, records)
    ensures |Add(entries, platform, records[0])| <= |entries| + 1
  {
    Associative(entries, One(Bootable(platform, records[0])), Keep(platform, records[1..]));
  }

  lemma Associative(a: seq<Entry>, b: seq<Entry>, c: seq<Entry>)
    ensures (a + b) + c == a + (b + c)
  {
  }

  lemma TakeStep(c: Bytes, offset: nat, platform: Byte, count: nat, record: Bytes, entries: seq<Entry>)
    requires count > 0 && |entries| <= MAX_BOOT_ENTRIES && |record| == RECORD && At(c, offset, record)
    ensures Take(c, offset, platform, count, entries)
         == Take(c, offset + RECORD, platform, count - 1, Add(entries, platform, record))
  {
  }

  lemma {:induction false} TakeReadsBack(c: Bytes, offset: nat, platform: Byte, records: seq<Bytes>,
          entries: seq<Entry>)
    requires Whole(records) && At(c, offset, Flat(records)) && |entries| + |records| <= MAX_BOOT_ENTRIES
    ensures Take(c, offset, platform, |records|, entries)
         == Taken(entries + Keep(platform, records), offset + RECORD * |records|, false)
    decreases |records|
  {
    if records == [] {
      assert entries + Keep(platform, records) == entries;
    } else {
      AtSplits(c, offset, records[0], Flat(records[1..]));
      AddKeeps(entries, platform, records);
      TakeStep(c, offset, platform, |records|, records[0], entries);
      TakeReadsBack(c, offset + RECORD, platform, records[1..], Add(entries, platform, records[0]));
    }
  }

  function Header(s: Section, last: bool): (r: Bytes)
    requires WellFormed(s)
    ensures |r| == RECORD && r[0] == (if last then 0x91 else 0x90) && r[1] == s.platform && r[2] == |s.records|
  {
    [if last then 0x91 else 0x90, s.platform, |s.records|, 0] + s.id
  }

  lemma HeaderIsRead(c: Bytes, offset: nat, s: Section, last: bool)
    requires WellFormed(s) && At(c, offset, Header(s, last))
    ensures offset + RECORD <= |c| && c[offset] == (if last then 0x91 else 0x90) && c[offset + 1] == s.platform
    ensures c[offset + 2] == |s.records|
  {
    var h := c[offset..offset + RECORD];
    assert h[0] == c[offset] && h[1] == c[offset + 1] && h[2] == c[offset + 2];
  }

  /** One header read by the outer loop. */
  lemma ScanHeader(c: Bytes, offset: nat, id: int, platform: Byte, count: nat, entries: seq<Entry>, taken: Taken)
    requires offset + RECORD <= |c| && |entries| < MAX_BOOT_ENTRIES && |entries| + count <= MAX_BOOT_ENTRIES
    requires c[offset] == id && (id == 0x90 || id == 0x91) && c[offset + 1] == platform && c[offset + 2] == count
    requires taken == Take(c, offset + RECORD, platform, count, entries) && !taken.cut
    ensures Scan(c, offset, entries) == if id == 0x91 then taken.entries else Scan(c, taken.offset, taken.entries)
  {
  }

  lemma ScanStep(c: Bytes, offset: nat, s: Section, last: bool, entries: seq<Entry>)
    requires WellFormed(s) && At(c, offset, Header(s, last)) && At(c, offset + RECORD, Flat(s.records))
    requires |entries| < MAX_BOOT_ENTRIES && |entries| + |s.records| <= MAX_BOOT_ENTRIES
    ensures var more := entries + Keep(s.platform, s.records);
            Scan(c, offset, entries) == if last then more else Scan(c, offset + RECORD + RECORD * |s.records|, more)
  {
    HeaderIsRead(c, offset, s, last);
    TakeReadsBack(c, offset + RECORD, s.platform, s.records, entries);
    var more := entries + Keep(s.platform, s.records);
    ScanHeader(c, offset, if last then 0x91 else 0x90, s.platform, |s.records|, entries,
            Taken(more, offset + RECORD + RECORD * |s.records|, false));
  }

  lemma SectionParts(c: Bytes, offset: nat, s: Section, last: bool, rest: Bytes)
    requires WellFormed(s) && At(c, offset, PrintSection(s, last) + rest)
    ensures At(c, offset, Header(s, last)) && At(c, offset + RECORD, Flat(s.records))
    ensures At(c, offset + RECORD + RECORD * |s.records|, rest)
  {
    AtSplits(c, offset, PrintSection(s, last), rest);
    AtSplits(c, offset, Header(s, last), Flat(s.records));
  }

  /** The sections stand one after another from this offset. */
  predicate Standing(c: Bytes, offset: nat, sections: seq<Section>)
    requires AllWellFormed(sections)
    decreases |sections|
  {
    sections == [] ||
    var s := sections[0];
    && At(c, offset, Header(s, |sections| == 1)) && At(c, offset + RECORD, Flat(s.records))
    && Standing(c, offset + RECORD + RECORD * |s.records|, sections[1..])
  }

  lemma {:induction false} PrintedStand(c: Bytes, offset: nat, sections: seq<Section>)
    requires AllWellFormed(sections) && At(c, offset, PrintSections(sections))
    ensures Standing(c, offset, sections)
    decreases |sections|
  {
    if sections != [] {
      var s, rest := sections[0], sections[1..];
      SectionParts(c, offset, s, |sections| == 1, PrintSections(rest));
      PrintedStand(c, offset + RECORD + RECORD * |s.records|, rest);
    }
  }

  lemma {:induction false} ScanReadsBack(c: Bytes, offset: nat, sections: seq<Section>, entries: seq<Entry>)
    requires sections != [] && AllWellFormed(sections) && Standing(c, offset, sections)
    requires |entries| + Count(sections) <= MAX_BOOT_ENTRIES
    ensures Scan(c, offset, entries) == entries + KeepAll(sections)
    decreases |sections|
  {
    if |entries| < MAX_BOOT_ENTRIES {
      var s, rest := sections[0], sections[1..];
      var more := entries + Keep(s.platform, s.records);
      ScanStep(c, offset, s, |sections| == 1, entries);
      if |sections| > 1 {
        ScanReadsBack(c, offset + RECORD + RECORD * |s.records|, rest, more);
      } else {
        assert KeepAll(rest) == [];
      }
      Associative(entries, Keep(s.platform, s.records), KeepAll(rest));
    } else {
      assert KeepAll(sections) == [];
    }
  }

  lemma {:induction false} ScanSkipsPadding(c: Bytes, offset: nat, entries: seq<Entry>)
    requires |entries| <= MAX_BOOT_ENTRIES && forall i :: offset <= i < |c| ==> c[i] == 0
    ensures Scan(c, offset, entries) == entries
    decreases |c| - offset
  {
    if offset + RECORD <= |c| && |entries| < MAX_BOOT_ENTRIES {
      ScanSkipsPadding(c, offset + RECORD, entries);
    }
  }

  function Zeros(n: nat): (r: Bytes)
    ensures |r| == n && forall i :: 0 <= i < n ==> r[i] == 0
  {
    seq(n, _ => 0)
  }

  /** A catalogue on the medium: validation entry, default entry, sections, and
      padding, which may be anything once a last section has been written. */
  function Print(platform: Byte, default: Bytes, sections: seq<Section>, padding: Bytes): Bytes
    requires |default| == RECORD && AllWellFormed(sections)
  {
    Validation(platform) + default + PrintSections(sections) + padding
  }

  lemma PrintedParts(platform: Byte, default: Bytes, sections: Bytes, padding: Bytes)
    requires |default| == RECORD
    ensures var c := Validation(platform) + default + sections + padding;
            |c| >= 64 && c[..32] == Validation(platform) && c[32..64] == default && At(c, 64, sections)
                && c[1] == Validation(platform)[1]
  {
  }

  /** Printing and parsing yields exactly the bootable, known-platform, non-zero
      records in order, up to 32 records in all. */
  lemma RoundTrip(platform: Byte, default: Bytes, sections: seq<Section>, padding: Bytes)
    requires |default| == RECORD && AllWellFormed(sections)
    requires 1 + Count(sections) <= MAX_BOOT_ENTRIES
    requires sections == [] ==> padding == Zeros(|padding|)
    ensures Entries(Print(platform, default, sections, padding)) == Keep(platform, [default]) + KeepAll(sections)
  {
    var c := Print(platform, default, sections, padding);
    PrintedIsValid(platform);
    PrintedParts(platform, default, PrintSections(sections), padding);
    var first := Add([], platform, default);
    assert first == Keep(platform, [default]) by {
      assert [default][1..] == [];
    }
    if sections == [] {
      ScanSkipsPadding(c, 64, first);
      assert first + KeepAll(sections) == first;
    } else {
      PrintedStand(c, 64, sections);
      ScanReadsBack(c, 64, sections, first);
    }
  }
}
