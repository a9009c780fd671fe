/** Bounded inspection of a Linux image and the corpus fixtures:
    gui/rufusarm64_linux_compatibility.py and scripts/linux_iso_corpus.py. */
module LinuxIso {
  import opened Base
  import opened ElTorito
  import opened BootCatalogue

  const SECTOR := 2048
  const FIRST_DESCRIPTOR := 16
  const LAST_DESCRIPTOR := 64

  /** `_read_at`: a read past the end returns what there is. */
  function ReadAt(image: Bytes, offset: nat, size: nat): Bytes {
    if offset >= |image| then [] else image[offset..Min(offset + size, |image|)]
  }

  /** `_has_disk_layout`: a boot signature and one used partition slot. */
  predicate HasDiskLayout(image: Bytes) {
    var sector := ReadAt(image, 0, 512);
    |sector| == 512 && sector[510] == 0x55 && sector[511] == 0xAA
    && exists k :: 0 <= k < 4 && SlotUsed(sector, k)
  }

  predicate SlotUsed(sector: Bytes, k: nat)
    requires |sector| == 512 && k < 4
  {
    sector[446 + 16 * k + 4] != 0 && Le32(sector, 446 + 16 * k + 12) != 0
  }

  const CD001: Bytes := [67, 68, 48, 48, 49]

  /** The octets of "EL TORITO SPECIFICATION". */
  const EL_TORITO: Bytes := [69, 76, 32, 84, 79, 82, 73, 84, 79, 32, 83, 80, 69, 67, 73, 70, 73, 67, 65, 84, 73, 79, 78]

  /** `rstrip(b" \x00")`. */
  function StripPadding(s: Bytes): Bytes {
    if s != [] && (s[|s| - 1] == 32 || s[|s| - 1] == 0) then StripPadding(s[..|s| - 1]) else s
  }

  predicate Descriptor(d: Bytes) {
    |d| >= 75 && d[1..6] == CD001 && d[6] == 1
  }

  predicate BootRecord(d: Bytes) {
    Descriptor(d) && d[0] == 0 && StripPadding(d[7..39]) == EL_TORITO
  }

  /** What the descriptors from this sector on say, given what was seen. */
  function Descriptors(image: Bytes, sector: nat, hasIso: bool, lba: nat): (bool, nat)
    decreases LAST_DESCRIPTOR + 1 - sector
  {
    var d := ReadAt(image, sector * SECTOR, SECTOR);
    if sector > LAST_DESCRIPTOR || |d| < 75 then (hasIso, lba)
    else if !Descriptor(d) then Descriptors(image, sector + 1, hasIso, lba)
    else if BootRecord(d) then Descriptors(image, sector + 1, hasIso, Le32(d, 71))
    else if d[0] == 1 then Descriptors(image, sector + 1, true, lba)
    else if d[0] == 255 then (hasIso, lba)
    else Descriptors(image, sector + 1, hasIso, lba)
  }

  /** `_iso_boot_catalogue`. */
  method IsoBootCatalogue(image: Bytes) returns (hasIso: bool, lba: nat)
    ensures (hasIso, lba) == Descriptors(image, FIRST_DESCRIPTOR, false, 0)
  {
    hasIso, lba := false, 0;
    var sector := FIRST_DESCRIPTOR;
    while sector <= LAST_DESCRIPTOR
      invariant FIRST_DESCRIPTOR <= sector <= LAST_DESCRIPTOR + 1
      invariant Descriptors(image, sector, hasIso, lba) == Descriptors(image, FIRST_DESCRIPTOR, false, 0)
    {
      var d := ReadAt(image, sector * SECTOR, SECTOR);
      if |d| < 75 { break; }
      if Descriptor(d) {
        if BootRecord(d) {
          lba := Le32(d, 71);
        } else if d[0] == 1 {
          hasIso := true;
        } else if d[0] == 255 {
          break;
        }
      }
      sector := sector + 1;
    }
  }

  /** `_catalogue_boot_entries` from its address on the image. */
  function EntriesAt(image: Bytes, lba: nat): (r: seq<Entry>) {
    if lba == 0 then [] else Entries(ReadAt(image, lba * SECTOR, 2048))
  }

  /** The facts the profile is built from. */
  datatype Facts = Facts(diskLayout: bool, hasIso: bool, entries: seq<Entry>)

  function Inspect(image: Bytes): Facts {
    var (hasIso, lba) := Descriptors(image, FIRST_DESCRIPTOR, false, 0);
    Facts(HasDiskLayout(image), hasIso, if hasIso then EntriesAt(image, lba) else [])
  }

  // ------------------------------------------------------------- fixtures

  const FIXTURE_SIZE := 262144

  /** Octet `i` of a fixture, apart from its boot loader marker. */
  function Content(hybrid: bool, platform: Byte, i: nat): Byte {
    if i < 512 then
      if !hybrid then 0
      else if i == 510 then 0x55 else if i == 511 then 0xAA
      else if i == 450 then 0x17 else if i == 454 then 1 else if i == 458 then 100 else 0
    else if 32768 <= i < 38912 then DescriptorContent((i - 32768) / SECTOR, (i - 32768) % SECTOR)
    else if 40960 <= i < 40992 then Validation(platform)[i - 40960]
    else if i == 40992 then 0x88
    else if i == 41000 then 40
    else 0
  }

  function DescriptorContent(k: nat, i: nat): Byte
    requires k < 3
  {
    if i == 0 then (if k == 0 then 0 else if k == 1 then 1 else 255)
    else if 1 <= i < 6 then CD001[i - 1]
    else if i == 6 then 1
    else if k == 0 && 7 <= i < 30 then EL_TORITO[i - 7]
    else if k == 0 && i == 71 then 20
    else 0
  }

  /** Slice assignment into a bytearray. */
  method Store(data: array<Byte>, at: nat, bytes: Bytes)
    requires at + |bytes| <= data.Length
    modifies data
    ensures forall i :: 0 <= i < data.Length ==>
        data[i] == if at <= i < at + |bytes| then bytes[i - at] else old(data[i])
  {
    var i := 0;
    while i < |bytes|
      invariant 0 <= i <= |bytes|
      invariant forall j :: 0 <= j < data.Length ==> data[j] == if at <= j < at + i then bytes[j - at] else old(data[j])
    {
      data[at + i] := bytes[i];
      i := i + 1;
    }
  }

  predicate Blank(data: seq<Byte>, from: nat, to: nat) {
    to <= |data| && forall i :: from <= i < to ==> data[i] == 0
  }

  function DescriptorAt(k: nat): nat {
    32768 + SECTOR * k
  }

  /** One volume descriptor of the fixture, in a blank sector. */
  method StoreDescriptor(data: array<Byte>, k: nat)
    requires k < 3 && data.Length == FIXTURE_SIZE && Blank(data[..], DescriptorAt(k), DescriptorAt(k) + SECTOR)
    modifies data
    ensures forall i :: DescriptorAt(k) <= i < DescriptorAt(k) + SECTOR ==> data[i] == Content(false, 0, i)
    ensures forall i :: 0 <= i < data.Length && !(DescriptorAt(k) <= i < DescriptorAt(k) + SECTOR) ==>
        data[i] == old(data[i])
  {
    var at := DescriptorAt(k);
    assert forall i :: at <= i < at + SECTOR ==> data[..][i] == data[i];
    data[at] := if k == 0 then 0 else if k == 1 then 1 else 255;
    Store(data, at + 1, CD001);
    data[at + 6] := 1;
    if k == 0 {
      Store(data, at + 7, EL_TORITO);
      Store(data, at + 71, [20, 0, 0, 0]);
    }
    forall i | at <= i < at + SECTOR ensures data[i] == Content(false, 0, i) {
      SectorOf(i - 32768);
      assert (i - 32768) / SECTOR == k;
    }
  }

  /** Boot record, primary descriptor and terminator. */
  method StoreDescriptors(data: array<Byte>)
    requires data.Length == FIXTURE_SIZE && Blank(data[..], 32768, 38912)
    modifies data
    ensures forall i :: 32768 <= i < 38912 ==> data[i] == Content(false, 0, i)
    ensures forall i :: 0 <= i < data.Length && !(32768 <= i < 38912) ==> data[i] == old(data[i])
  {
    assert forall i :: 32768 <= i < 38912 ==> data[..][i] == data[i];
    StoreDescriptor(data, 0);
    StoreDescriptor(data, 1);
    StoreDescriptor(data, 2);
  }

  /** The partition table of a hybrid fixture, in blank data. */
  method StoreLayout(data: array<Byte>)
    requires data.Length == FIXTURE_SIZE && forall i :: 0 <= i < 512 ==> data[i] == 0
    modifies data
    ensures forall i :: 0 <= i < 512 ==> data[i] == Content(true, 0, i)
    ensures forall i :: 512 <= i < data.Length ==> data[i] == old(data[i])
  {
    data[510], data[511] := 0x55, 0xAA;
    data[446 + 4] := 0x17;
    Store(data, 446 + 8, [1, 0, 0, 0]);
    Store(data, 446 + 12, [100, 0, 0, 0]);
  }

  /** The boot catalogue, in blank data. */
  method StoreCatalogue(data: array<Byte>, platform: Byte)
    requires data.Length == FIXTURE_SIZE && forall i :: 40960 <= i < 43008 ==> data[i] == 0
    modifies data
    ensures forall i :: 40960 <= i < 43008 ==> data[i] == Content(false, platform, i)
    ensures forall i :: 0 <= i < data.Length && !(40960 <= i < 43008) ==> data[i] == old(data[i])
  {
    var validation := CatalogueValidation(platform);
    Store(data, 40960, validation);
    data[40992] := 0x88;
    Store(data, 40992 + 8, [40, 0, 0, 0]);
  }

  /** `materialize_fixture` for the three El Torito generators. */
  method MaterializeFixture(hybrid: bool, platform: Byte, marker: Bytes) returns (data: array<Byte>)
    requires |marker| <= SECTOR
    ensures data.Length == FIXTURE_SIZE && forall i :: 0 <= i < 81920 ==> data[i] == Content(hybrid, platform, i)
    ensures forall j :: 0 <= j < |marker| ==> data[81920 + j] == marker[j]
    ensures Inspect(data[..]) == FixtureFacts(hybrid, platform)
  {
    data := new Byte[FIXTURE_SIZE](_ => 0);
    if hybrid { StoreLayout(data); }
    StoreDescriptors(data);
    StoreCatalogue(data, platform);
    Store(data, 81920, marker);
    FixtureIsRecognized(data[..], hybrid, platform);
  }

  lemma SectorOf(n: nat)
    requires n < 3 * SECTOR
    ensures n / SECTOR < 3 && n == SECTOR * (n / SECTOR) + n % SECTOR
    ensures DescriptorAt(n / SECTOR) + n % SECTOR == 32768 + n
  {
  }

  // ------------------------------------------- what inspection sees in them

  function FixtureFacts(hybrid: bool, platform: Byte): Facts {
    Facts(hybrid, true, if PlatformName(platform).Some? then [Entry(PlatformName(platform).value, 40)] else [])
  }

  ghost predicate IsFixture(image: Bytes, hybrid: bool, platform: Byte) {
    |image| == FIXTURE_SIZE && forall i :: 0 <= i < 81920 ==> image[i] == Content(hybrid, platform, i)
  }

  lemma {:induction false} StripZeros(s: Bytes, n: nat)
    requires s != [] && s[|s| - 1] != 0 && s[|s| - 1] != 32
    ensures StripPadding(s + Zeros(n)) == s
  {
    if n == 0 {
      assert s + Zeros(0) == s;
    } else {
      assert (s + Zeros(n))[..|s| + n - 1] == s + Zeros(n - 1);
      StripZeros(s, n - 1);
    }
  }

  /** Sector 16 + k of the fixture, octet by octet. */
  lemma ReadDescriptor(image: Bytes, hybrid: bool, platform: Byte, k: nat)
    requires IsFixture(image, hybrid, platform) && k < 3
    ensures var d := ReadAt(image, (FIRST_DESCRIPTOR + k) * SECTOR, SECTOR);
            |d| == SECTOR && forall j :: 0 <= j < SECTOR ==> d[j] == DescriptorContent(k, j)
  {
    var d := ReadAt(image, (FIRST_DESCRIPTOR + k) * SECTOR, SECTOR);
    forall j | 0 <= j < SECTOR ensures d[j] == DescriptorContent(k, j) {
      var n := SECTOR * k + j;
      assert n / SECTOR == k && n % SECTOR == j;
      assert d[j] == image[32768 + n];
    }
  }

  lemma DescriptorKinds(d: Bytes, k: nat)
    requires k < 3 && |d| == SECTOR && forall j :: 0 <= j < SECTOR ==> d[j] == DescriptorContent(k, j)
    ensures Descriptor(d) && (k == 0 ==> BootRecord(d) && Le32(d, 71) == 20) && (k == 1 ==> d[0] == 1)
    ensures (k == 2 ==> d[0] == 255)
  {
    assert d[1..6] == CD001;
    if k == 0 {
      assert d[7..39] == EL_TORITO + Zeros(9);
      StripZeros(EL_TORITO, 9);
    }
  }

  lemma FixtureDescriptors(image: Bytes, hybrid: bool, platform: Byte)
    requires IsFixture(image, hybrid, platform)
    ensures Descriptors(image, FIRST_DESCRIPTOR, false, 0) == (true, 20)
  {
    ReadDescriptor(image, hybrid, platform, 0);
    ReadDescriptor(image, hybrid, platform, 1);
    ReadDescriptor(image, hybrid, platform, 2);
    DescriptorKinds(ReadAt(image, 16 * SECTOR, SECTOR), 0);
    DescriptorKinds(ReadAt(image, 17 * SECTOR, SECTOR), 1);
    DescriptorKinds(ReadAt(image, 18 * SECTOR, SECTOR), 2);
    assert Descriptors(image, 18, true, 20) == (true, 20);
    assert Descriptors(image, 17, false, 20) == Descriptors(image, 18, true, 20);
  }

  function DefaultRecord(): (r: Bytes)
    ensures |r| == RECORD
  {
    [0x88] + Zeros(7) + [40, 0, 0, 0] + Zeros(20)
  }

  lemma FixturePrinted(image: Bytes, hybrid: bool, platform: Byte)
    requires IsFixture(image, hybrid, platform)
    ensures ReadAt(image, 20 * SECTOR, 2048) == Print(platform, DefaultRecord(), [], Zeros(1984))
  {
    var c, printed := ReadAt(image, 20 * SECTOR, 2048), Validation(platform) + DefaultRecord() + [] + Zeros(1984);
    assert |c| == |printed|;
    forall j | 0 <= j < |c| ensures c[j] == printed[j] {
      assert c[j] == image[40960 + j];
    }
  }

  lemma FixtureCatalogue(image: Bytes, hybrid: bool, platform: Byte)
    requires IsFixture(image, hybrid, platform)
    ensures EntriesAt(image, 20) == FixtureFacts(hybrid, platform).entries
  {
    FixturePrinted(image, hybrid, platform);
    RoundTrip(platform, DefaultRecord(), [], Zeros(1984));
    assert Keep(platform, [DefaultRecord()])
        == One(Bootable(platform, DefaultRecord())) + Keep(platform, [DefaultRecord()][1..]);
    assert Le32(DefaultRecord(), 8) == 40;
  }

  lemma FixtureLayout(image: Bytes, hybrid: bool, platform: Byte)
    requires IsFixture(image, hybrid, platform)
    ensures HasDiskLayout(image) == hybrid
  {
    var sector := ReadAt(image, 0, 512);
    assert sector[510] == image[510] && sector[511] == image[511];
    if hybrid {
      assert sector[450] == image[450] && sector[458] == image[458] && sector[459] == image[459]
          && sector[460] == image[460] && sector[461] == image[461];
      assert SlotUsed(sector, 0);
    }
  }

  /** Every fixture is read back as what it was made to be. */
  lemma FixtureIsRecognized(image: Bytes, hybrid: bool, platform: Byte)
    requires IsFixture(image, hybrid, platform)
    ensures Inspect(image) == FixtureFacts(hybrid, platform)
  {
    FixtureDescriptors(image, hybrid, platform);
    FixtureCatalogue(image, hybrid, platform);
    FixtureLayout(image, hybrid, platform);
  }
}
