/** El Torito boot catalogues: the parser of gui/rufusarm64_linux_compatibility.py
    and the printer of scripts/linux_iso_corpus.py. Sections 2.0 to 2.4 of the
    El Torito Bootable CD-ROM Format Specification 1.0. */
module ElTorito {
  import opened Base

  const MAX_BOOT_ENTRIES := 32
  const RECORD := 32

  // --------------------------------------------------- validation entry

  type Word = w: int | 0 <= w < 0x10000

  function Join(lo: int, hi: int): (w: Word)
    requires 0 <= lo < 256 && 0 <= hi < 256
  {
    lo + 256 * hi
  }

  function Low(w: Word): Byte {
    w % 256
  }

  function High(w: Word): Byte {
    w / 256
  }

  /** `struct.unpack("<16H", entry)`. */
  function Words(e: Bytes): (ws: seq<Word>)
    requires |e| == RECORD
    ensures |ws| == 16
  {
    seq(16, i requires 0 <= i < 16 => Join(e[2 * i], e[2 * i + 1]))
  }

  /** `struct.pack("<16H", *words)`. */
  function Pack(ws: seq<Word>): (e: Bytes)
    requires |ws| == 16
    ensures |e| == RECORD
  {
    seq(RECORD, j requires 0 <= j < RECORD => if j % 2 == 0 then Low(ws[j / 2]) else High(ws[j / 2]))
  }

  lemma JoinSplits(w: Word, lo: Byte, hi: Byte)
    ensures Join(Low(w), High(w)) == w && Low(Join(lo, hi)) == lo && High(Join(lo, hi)) == hi
  {
  }

  lemma Parity(j: nat)
    ensures if j % 2 == 0 then j == 2 * (j / 2) else j == 2 * (j / 2) + 1
  {
  }

  /** Packing the words of an entry after one update is updating two octets. */
  lemma PackUpdated(e: Bytes, k: nat, w: Word)
    requires |e| == RECORD && k < 16
    ensures Pack(Words(e)[k := w]) == WithWord(e, k, w)
  {
    forall j | 0 <= j < RECORD ensures Pack(Words(e)[k := w])[j] == WithWord(e, k, w)[j] {
      Parity(j);
      JoinSplits(w, e[2 * (j / 2)], e[2 * (j / 2) + 1]);
    }
  }

  lemma WordsUpdated(e: Bytes, k: nat, w: Word)
    requires |e| == RECORD && k < 16
    ensures Words(WithWord(e, k, w)) == Words(e)[k := w]
  {
    JoinSplits(w, 0, 0);
  }

  /** The entry with one 16-bit word replaced. */
  function WithWord(e: Bytes, k: nat, w: Word): (r: Bytes)
    requires |e| == RECORD && k < 16
    ensures |r| == RECORD
  {
    e[2 * k := Low(w)][2 * k + 1 := High(w)]
  }

  function Sum(ws: seq<Word>): (s: int)
    ensures 0 <= s
  {
    if ws == [] then 0 else Sum(ws[..|ws| - 1]) + ws[|ws| - 1]
  }

  lemma {:induction false} SumUpdate(ws: seq<Word>, k: nat, w: Word)
    requires k < |ws|
    ensures Sum(ws[k := w]) == Sum(ws) - ws[k] + w
  {
    var changed := ws[k := w];
    if k == |ws| - 1 {
      assert changed[..|ws| - 1] == ws[..|ws| - 1];
    } else {
      SumUpdate(ws[..|ws| - 1], k, w);
      assert changed[..|ws| - 1] == ws[..|ws| - 1][k := w];
    }
  }

  /** Header id and key octets. */
  predicate Framed(e: Bytes) {
    |e| == RECORD && e[0] == 1 && e[30] == 0x55 && e[31] == 0xAA
  }

  /** `_valid_catalogue_validation`. */
  predicate ValidValidation(e: Bytes) {
    Framed(e) && Vanishes(Total(e))
  }

  /** The entry before its checksum is set. */
  function Unsealed(platform: Byte): (e: Bytes)
    ensures |e| == RECORD
  {
    [1, platform] + seq(28, _ => 0) + [0x55, 0xAA]
  }

  /** Unpack, set the checksum word, pack. */
  function SealedBytes(e: Bytes): Bytes
    requires |e| == RECORD
  {
    var words := Words(e);
    Pack(words[14 := -Sum(words) % 0x10000])
  }

  lemma SealedIsPrinted(platform: Byte)
    ensures SealedBytes(Unsealed(platform)) == Validation(platform)
    ensures ValidValidation(Validation(platform)) && Validation(platform)[1] == platform
  {
    PackUpdated(Unsealed(platform), 14, -Total(Unsealed(platform)) % 0x10000);
    PrintedIsValid(platform);
  }

  /** `_catalogue_validation`. */
  method CatalogueValidation(platform: Byte) returns (entry: Bytes)
    ensures entry == Validation(platform) && ValidValidation(entry) && entry[1] == platform
  {
    var bytes := new Byte[RECORD](_ => 0);
    bytes[0] := 1;
    bytes[1] := platform;
    bytes[30], bytes[31] := 0x55, 0xAA;
    assert bytes[..] == Unsealed(platform);
    entry := SealedBytes(bytes[..]);
    SealedIsPrinted(platform);
  }

  function Validation(platform: Byte): (e: Bytes)
    ensures |e| == RECORD
  {
    WithWord(Unsealed(platform), 14, -Total(Unsealed(platform)) % 0x10000)
  }

  /** The 16-bit checksum as a number; kept apart from the recursion of Sum. */
  function Total(e: Bytes): int
    requires |e| == RECORD
  {
    Sum(Words(e))
  }

  lemma TotalAfter(e: Bytes, k: nat, w: Word)
    requires |e| == RECORD && k < 16
    ensures Total(WithWord(e, k, w)) == Total(e) - Words(e)[k] + w
  {
    SumUpdate(Words(e), k, w);
    WordsUpdated(e, k, w);
  }

  predicate Vanishes(total: int) {
    total % 0x10000 == 0
  }

  lemma Changed(total: int, a: Word, b: Word)
    ensures Vanishes(total) && a != b ==> !Vanishes(total - a + b)
  {
    var m, n := total / 0x10000, (total - a + b) / 0x10000;
    assert Vanishes(total) && Vanishes(total - a + b) ==> a - b == 0x10000 * (m - n);
  }

  lemma Chosen(rest: int, w: Word)
    ensures Vanishes(rest + w) <==> w == -rest % 0x10000
  {
    var m, n := (rest + w) / 0x10000, -rest / 0x10000;
    assert Vanishes(rest + w) ==> w + rest == 0x10000 * m;
    assert -rest == 0x10000 * n + -rest % 0x10000;
  }

  /** Validity of an entry with a given word sum. */
  lemma ValidByTotal(e: Bytes, total: int)
    requires |e| == RECORD && Total(e) == total
    ensures ValidValidation(e) <==> Framed(e) && Vanishes(total)
  {
  }

  /** The printed entry is valid for every platform byte. */
  lemma PrintedIsValid(platform: Byte)
    ensures ValidValidation(Validation(platform)) && Validation(platform)[1] == platform
  {
    var e := Unsealed(platform);
    var w: Word := -Total(e) % 0x10000;
    assert Words(e)[14] == 0;
    TotalAfter(e, 14, w);
    Chosen(Total(e), w);
    ValidByTotal(WithWord(e, 14, w), Total(e) - Words(e)[14] + w);
  }

  /** Any single changed word breaks a valid entry. */
  lemma SingleChangeIsCaught(e: Bytes, k: nat, w: Word)
    requires ValidValidation(e) && k < 16 && w != Words(e)[k]
    ensures !ValidValidation(WithWord(e, k, w))
  {
    TotalAfter(e, k, w);
    Changed(Total(e), Words(e)[k], w);
    ValidByTotal(WithWord(e, k, w), Total(e) - Words(e)[k] + w);
  }

  /** Exactly one checksum word makes an entry with its header and key valid. */
  lemma ChecksumIsUnique(e: Bytes, w: Word)
    requires Framed(e)
    ensures ValidValidation(WithWord(e, 14, w)) <==> w == -(Total(e) - Words(e)[14]) % 0x10000
  {
    var rest := Total(e) - Words(e)[14];
    TotalAfter(e, 14, w);
    Chosen(rest, w);
    ValidByTotal(WithWord(e, 14, w), rest + w);
  }
}
