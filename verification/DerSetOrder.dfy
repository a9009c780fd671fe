/** DER SET order of signed attributes (internal/ffu/catalog_signature_der.go),
    together with the definite-length parser that produces the compared
    encodings (internal/ffu/catalog_member.go). */
module DerSetOrder {
  import opened Base

  const MAX_NODES: nat := 4096

  /** `derValue`, reduced to the complete encoding the order is defined on. */
  datatype Value = Value(full: Bytes, content: Bytes)

  // ---------------------------------------------------------------- parser

  function BigEndian(digits: Bytes): (n: nat) {
    if digits == [] then 0 else BigEndian(digits[..|digits| - 1]) * 256 + digits[|digits| - 1]
  }

  /** The length of the whole encoding announced by a header, when the header
      is complete and canonical. */
  function AnnouncedLength(data: Bytes): (total: Option<nat>)
    ensures total.Some? ==> |data| >= 2 && 2 <= HeaderLength(data) <= total.value
  {
    if |data| < 2 || data[0] % 32 == 31 then None
    else if data[1] < 128 then
      var length: int := data[1];
      Some(2 + length)
    else
      var count: int := data[1] - 128;
      if count == 0 || count > 8 || |data| < 2 + count || data[2] == 0 then None
      else
        var length := BigEndian(data[2..2 + count]);
        if length < 128 then None else Some(2 + count + length)
  }

  function HeaderLength(data: Bytes): nat
    requires |data| >= 2
  {
    if data[1] < 128 then 2 else (data[1] as int) - 126
  }

  /** One value and the octets that follow it. */
  function ValueOf(data: Bytes): Option<(Value, Bytes)> {
    match AnnouncedLength(data)
    case None => None
    case Some(total) =>
      if total > |data| then None
      else Some((Value(data[..total], data[HeaderLength(data)..total]), data[total..]))
  }

  /** All values of a content, at most `maximum`, within the node budget. */
  function ChildrenOf(data: Bytes, maximum: nat, nodes: nat): Option<seq<Value>>
    decreases |data|
  {
    if data == [] then Some([])
    else if maximum == 0 || nodes >= MAX_NODES then None
    else
      match ValueOf(data)
      case None => None
      case Some((head, rest)) =>
        match ChildrenOf(rest, maximum - 1, nodes + 1)
        case None => None
        case Some(tail) => Some([head] + tail)
  }

  lemma {:induction false} BigEndianBound(digits: Bytes, prefix: nat)
    requires prefix <= |digits| <= 8
    ensures BigEndian(digits[..prefix]) < Power256(prefix) <= Power256(8) == UINT64_MAX + 1
  {
    Power256Monotone(prefix);
    if prefix > 0 {
      BigEndianBound(digits, prefix - 1);
      assert digits[..prefix][..prefix - 1] == digits[..prefix - 1];
    }
  }

  function Power256(n: nat): nat {
    if n == 0 then 1 else 256 * Power256(n - 1)
  }

  lemma {:induction false} Power256Monotone(n: nat)
    requires n <= 8
    ensures Power256(n) <= Power256(8) == UINT64_MAX + 1
    decreases 8 - n
  {
    assert Power256(8) == 256 * Power256(7) == 65536 * Power256(6);
    assert Power256(6) == 65536 * Power256(4) && Power256(4) == 65536 * Power256(2) && Power256(2) == 65536;
    if n < 8 { Power256Monotone(n + 1); }
  }

  /** `parseDERValue`: the 64-bit accumulation loop never takes its overflow
      branch, so the result is the mathematical one. */
  method ParseValue(data: Bytes, nodes: nat) returns (parsed: Option<(Value, Bytes)>, nodes': nat)
    ensures nodes' == nodes + 1
    ensures parsed == if nodes >= MAX_NODES then None else ValueOf(data)
  {
    nodes' := nodes + 1;
    if nodes' > MAX_NODES { return None, nodes'; }
    if |data| < 2 { return None, nodes'; }
    if data[0] % 32 == 31 { return None, nodes'; }
    var headerLength := 2;
    var contentLength: nat := 0;
    if data[1] < 128 {
      contentLength := data[1];
    } else {
      var lengthBytes: int := data[1] - 128;
      if lengthBytes == 0 { return None, nodes'; }
      if lengthBytes > 8 || |data| < 2 + lengthBytes { return None, nodes'; }
      if data[2] == 0 { return None, nodes'; }
      var digits := data[2..2 + lengthBytes];
      var i := 0;
      while i < lengthBytes
        invariant 0 <= i <= lengthBytes
        invariant contentLength == BigEndian(digits[..i])
      {
        BigEndianBound(digits, i + 1);
        assert digits[..i + 1][..i] == digits[..i];
        if contentLength > (UINT64_MAX - digits[i]) / 256 { return None, nodes'; }
        contentLength := contentLength * 256 + digits[i];
        i := i + 1;
      }
      assert digits[..i] == digits;
      if contentLength < 128 { return None, nodes'; }
      headerLength := headerLength + lengthBytes;
    }
    if contentLength > |data| - headerLength { return None, nodes'; }
    var end := headerLength + contentLength;
    parsed := Some((Value(data[..end], data[headerLength..end]), data[end..]));
  }

  /** `parseDERChildren` with no minimum. */
  method ParseChildren(content: Bytes, maximum: nat, nodes: nat) returns (children: Option<seq<Value>>)
    ensures children == ChildrenOf(content, maximum, nodes)
  {
    var result: seq<Value> := [];
    var data := content;
    var used := nodes;
    assert forall tail: seq<Value> :: [] + tail == tail;
    while data != []
      invariant |result| <= maximum && used == nodes + |result|
      invariant Joined(result, ChildrenOf(data, maximum - |result|, used)) == ChildrenOf(content, maximum, nodes)
      decreases |data|
    {
      if |result| >= maximum { return None; }
      var child;
      child, used := ParseValue(data, used);
      if child.None? { return None; }
      assert |child.value.1| < |data|;
      ghost var before := result;
      result := result + [child.value.0];
      data := child.value.1;
      assert forall tail: seq<Value> :: before + ([child.value.0] + tail) == result + tail;
    }
    assert result + [] == result;
    return Some(result);
  }

  function Joined(head: seq<Value>, tail: Option<seq<Value>>): Option<seq<Value>> {
    match tail
    case None => None
    case Some(t) => Some(head + t)
  }

  // --------------------------------------------------------------- encoder

  /** The shortest big-endian digits of a number; none for zero. */
  function Digits(n: nat): Bytes {
    if n == 0 then [] else Digits(n / 256) + [n % 256]
  }

  /** The definite form of a length with the fewest octets (sections 8.1.3 and
      10.1 of ITU-T X.690). */
  function LengthOctets(n: nat): Bytes
    requires n <= UINT64_MAX
  {
    if n < 128 then [n] else DigitsFit(n); [128 + |Digits(n)|] + Digits(n)
  }

  function Encode(identifier: Byte, content: Bytes): Bytes
    requires |content| <= UINT64_MAX
  {
    [identifier] + LengthOctets(|content|) + content
  }

  /** What the parser is for: identifiers of one octet, lengths within 64 bits. */
  predicate Encodable(identifier: Byte, content: Bytes) {
    identifier % 32 != 31 && |content| <= UINT64_MAX
  }

  lemma {:induction false} DigitsReadBack(n: nat)
    ensures BigEndian(Digits(n)) == n && (n > 0 ==> Digits(n) != [] && Digits(n)[0] != 0)
  {
    if n > 0 {
      DigitsReadBack(n / 256);
      assert Digits(n)[..|Digits(n)| - 1] == Digits(n / 256);
    }
  }

  lemma {:induction false} DigitsWithin(n: nat, k: nat)
    requires n < Power256(k)
    ensures |Digits(n)| <= k
  {
    if n > 0 { DigitsWithin(n / 256, k - 1); }
  }

  lemma DigitsFit(n: nat)
    requires n <= UINT64_MAX
    ensures |Digits(n)| <= 8
  {
    Power256Monotone(8);
    DigitsWithin(n, 8);
  }

  /** Digits that do not start with zero are the shortest. */
  lemma {:induction false} DigitsAreShortest(digits: Bytes)
    requires digits != [] ==> digits[0] != 0
    ensures Digits(BigEndian(digits)) == digits && (digits != [] ==> BigEndian(digits) > 0)
    decreases |digits|
  {
    if digits != [] {
      var front := digits[..|digits| - 1];
      DigitsAreShortest(front);
      assert digits == front + [digits[|digits| - 1]];
      assert BigEndian(digits) / 256 == BigEndian(front) && BigEndian(digits) % 256 == digits[|digits| - 1];
    }
  }

  lemma InThree(a: Bytes, b: Bytes, c: Bytes)
    ensures var data := a + (b + c);
            && data == a + b + c && data[..|a| + |b|] == a + b
            && data[|a|..|a| + |b|] == b && data[|a| + |b|..] == c
  {
  }

  lemma ShortHeader(data: Bytes)
    requires |data| >= 2 && data[0] % 32 != 31 && data[1] < 128
    ensures AnnouncedLength(data) == Some((2 + data[1]) as nat) && HeaderLength(data) == 2
  {
  }

  lemma LongHeader(data: Bytes, digits: Bytes)
    requires 0 < |digits| <= 8 && |data| >= 2 + |digits| && data[0] % 32 != 31 && data[1] == 128 + |digits|
    requires data[2..2 + |digits|] == digits && digits[0] != 0 && BigEndian(digits) >= 128
    ensures AnnouncedLength(data) == Some(2 + |digits| + BigEndian(digits)) && HeaderLength(data) == 2 + |digits|
  {
    assert data[2] == data[2..2 + |digits|][0];
  }

  lemma HeaderHolds(identifier: Byte, octets: Bytes, tail: Bytes)
    requires octets != []
    ensures var data := [identifier] + octets + tail;
      && data[0] == identifier && data[1] == octets[0] && data[2..1 + |octets|] == octets[1..]
  {
  }

  lemma HeaderAnnounces(identifier: Byte, n: nat, data: Bytes)
    requires identifier % 32 != 31 && n <= UINT64_MAX
    requires |data| >= 1 + |LengthOctets(n)| && data[0] == identifier && data[1] == LengthOctets(n)[0]
    requires data[2..1 + |LengthOctets(n)|] == LengthOctets(n)[1..]
    ensures AnnouncedLength(data) == Some(1 + |LengthOctets(n)| + n) && HeaderLength(data) == 1 + |LengthOctets(n)|
  {
    if n < 128 {
      ShortHeader(data);
    } else {
      DigitsFit(n);
      DigitsReadBack(n);
      assert LengthOctets(n)[1..] == Digits(n);
      LongHeader(data, Digits(n));
    }
  }

  /** Whatever is encoded is parsed back, whatever follows it: the complete
      encoding, its content and the rest. */
  lemma EncodedIsParsed(identifier: Byte, content: Bytes, rest: Bytes)
    requires Encodable(identifier, content)
    ensures ValueOf(Encode(identifier, content) + rest)
         == Some((Value(Encode(identifier, content), content), rest))
  {
    var header := [identifier] + LengthOctets(|content|);
    HeaderHolds(identifier, LengthOctets(|content|), content + rest);
    HeaderAnnounces(identifier, |content|, header + (content + rest));
    InThree(header, content, rest);
  }

  lemma HeaderIsEncoded(data: Bytes)
    requires AnnouncedLength(data).Some?
    ensures var header, total := HeaderLength(data), AnnouncedLength(data).value;
      && header <= |data| && total - header <= UINT64_MAX && data[0] % 32 != 31
      && data[..header] == [data[0]] + LengthOctets(total - header)
  {
    if data[1] < 128 {
      assert data[..2] == [data[0]] + [data[1]];
    } else {
      var digits := data[2..HeaderLength(data)];
      BigEndianBound(digits, |digits|);
      assert digits[..|digits|] == digits;
      DigitsAreShortest(digits);
      assert data[..HeaderLength(data)] == [data[0]] + ([data[1]] + digits);
    }
  }

  /** And whatever is parsed has that form. */
  lemma ParsedIsEncoded(data: Bytes)
    requires ValueOf(data).Some?
    ensures var (value, rest) := ValueOf(data).value;
            && data != [] && Encodable(data[0], value.content)
            && value.full == Encode(data[0], value.content) && data == value.full + rest
  {
    HeaderIsEncoded(data);
    var header, total := HeaderLength(data), AnnouncedLength(data).value;
    assert data[..total] == data[..header] + data[header..total];
  }

  predicate AllEncodable(items: seq<(Byte, Bytes)>) {
    forall i :: 0 <= i < |items| ==> Encodable(items[i].0, items[i].1)
  }

  function Joint(items: seq<(Byte, Bytes)>): Bytes
    requires AllEncodable(items)
  {
    if items == [] then []
    else
      Encode(items[0].0, items[0].1) + Joint(items[1..])
  }

  /** The children of a content are the encodings it was put together from, as
      long as there are no more of them than allowed. */
  lemma {:induction false} ChildrenAreItems(items: seq<(Byte, Bytes)>, maximum: nat, nodes: nat)
    requires AllEncodable(items)
    requires |items| <= maximum && nodes + |items| <= MAX_NODES
    ensures var children := ChildrenOf(Joint(items), maximum, nodes);
            && children.Some? && |children.value| == |items|
            && forall i :: 0 <= i < |items| ==>
                 children.value[i] == Value(Encode(items[i].0, items[i].1), items[i].1)
    decreases |items|
  {
    if items != [] {
      EncodedIsParsed(items[0].0, items[0].1, Joint(items[1..]));
      ChildrenAreItems(items[1..], maximum - 1, nodes + 1);
      assert Joint(items) != [];
    }
  }

  /** Content that is parsed was put together that way. */
  lemma {:induction false} ChildrenCoverContent(data: Bytes, maximum: nat, nodes: nat)
      returns (items: seq<(Byte, Bytes)>)
    requires ChildrenOf(data, maximum, nodes).Some?
    ensures AllEncodable(items) && Joint(items) == data
    ensures |items| == |ChildrenOf(data, maximum, nodes).value| <= maximum
    ensures items != [] ==> nodes + |items| <= MAX_NODES
    decreases |data|
  {
    items := [];
    if data != [] {
      ParsedIsEncoded(data);
      var (value, rest) := ValueOf(data).value;
      var tail := ChildrenCoverContent(rest, maximum - 1, nodes + 1);
      items := [(data[0], value.content)] + tail;
      assert items[1..] == tail;
    }
  }

  // ----------------------------------------------------------------- order

  /** `bytes.Compare`. */
  function Compare(a: Bytes, b: Bytes): int {
    if a == [] then (if b == [] then 0 else -1)
    else if b == [] then 1
    else if a[0] != b[0] then (if a[0] < b[0] then -1 else 1)
    else Compare(a[1..], b[1..])
  }

  /** It is zero on equal strings only, and turns its sign with the sides. */
  lemma {:induction false} CompareIsSigned(a: Bytes, b: Bytes)
    ensures (Compare(a, b) == 0 <==> a == b) && Compare(b, a) == -Compare(a, b)
    ensures a < b ==> Compare(a, b) < 0
  {
    if a != [] && b != [] && a[0] == b[0] {
      CompareIsSigned(a[1..], b[1..]);
      assert a == [a[0]] + a[1..] && b == [b[0]] + b[1..];
    }
  }

  ghost predicate ScanAccepts(values: seq<Value>) {
    forall i :: 0 < i < |values| ==> Compare(values[i - 1].full, values[i].full) <= 0
  }

  /** `requireCanonicalDEROrder`. */
  method RequireCanonicalOrder(values: seq<Value>) returns (ok: bool)
    ensures ok <==> ScanAccepts(values)
  {
    var index := 1;
    while index < |values|
      invariant 1 <= index
      invariant forall i :: 0 < i < index && i < |values| ==> Compare(values[i - 1].full, values[i].full) <= 0
    {
      if Compare(values[index - 1].full, values[index].full) > 0 { return false; }
      index := index + 1;
    }
    return true;
  }

  /** The octet at a position once the shorter string is padded with zeros
      (section 11.6 of ITU-T X.690). */
  function Padded(a: Bytes, k: nat): Byte {
    if k < |a| then a[k] else 0
  }

  ghost predicate AgreeBelow(a: Bytes, b: Bytes, k: nat) {
    forall m: nat :: m < k ==> Padded(a, m) == Padded(b, m)
  }

  /** a comes strictly after b in the padded octet-string order. */
  ghost predicate After(a: Bytes, b: Bytes) {
    exists k: nat :: AgreeBelow(a, b, k) && Padded(a, k) > Padded(b, k)
  }

  ghost predicate Ascending(values: seq<Value>) {
    forall i, j :: 0 <= i < j < |values| ==> !After(values[i].full, values[j].full)
  }

  lemma {:induction false} CompareIsPaddedOrder(a: Bytes, b: Bytes)
    requires !(a < b) && !(b < a)
    ensures Compare(a, b) > 0 <==> After(a, b)
  {
    if a == [] || b == [] {
      assert a == b;
    } else if a[0] != b[0] {
      assert Padded(a, 0) == a[0] && Padded(b, 0) == b[0];
      assert AgreeBelow(a, b, 0);
    } else {
      var s, t := a[1..], b[1..];
      assert a == [a[0]] + s && b == [a[0]] + t;
      CompareIsPaddedOrder(s, t);
      AfterConsEqual(a[0], s, t);
    }
  }

  lemma AfterConsEqual(x: Byte, s: Bytes, t: Bytes)
    ensures After([x] + s, [x] + t) <==> After(s, t)
  {
    var a, b := [x] + s, [x] + t;
    assert forall m: nat :: Padded(a, m + 1) == Padded(s, m) && Padded(b, m + 1) == Padded(t, m);
    if After(s, t) {
      var k: nat :| AgreeBelow(s, t, k) && Padded(s, k) > Padded(t, k);
      forall m: nat | m < k + 1 ensures Padded(a, m) == Padded(b, m) {
        assert m > 0 ==> Padded(s, m - 1) == Padded(t, m - 1);
      }
      assert AgreeBelow(a, b, k + 1) && Padded(a, k + 1) > Padded(b, k + 1);
    }
    if After(a, b) {
      var k: nat :| AgreeBelow(a, b, k) && Padded(a, k) > Padded(b, k);
      assert k > 0;
      forall m: nat | m < k - 1 ensures Padded(s, m) == Padded(t, m) {
        assert Padded(a, m + 1) == Padded(b, m + 1);
      }
      assert AgreeBelow(s, t, k - 1) && Padded(s, k - 1) > Padded(t, k - 1);
    }
  }

  lemma {:induction false} FirstDifference(a: Bytes, b: Bytes, k: nat) returns (m: nat)
    ensures m <= k && AgreeBelow(a, b, m)
    ensures m < k ==> Padded(a, m) != Padded(b, m)
  {
    m := 0;
    while m < k && Padded(a, m) == Padded(b, m)
      invariant m <= k && AgreeBelow(a, b, m)
    {
      m := m + 1;
    }
  }

  /** Whatever lies between a and c in a sequence is passed by one of them. */
  lemma AfterSplits(a: Bytes, b: Bytes, c: Bytes)
    requires After(a, c)
    ensures After(a, b) || After(b, c)
  {
    var k: nat :| AgreeBelow(a, c, k) && Padded(a, k) > Padded(c, k);
    var m := FirstDifference(a, b, k);
    if Padded(a, m) > Padded(b, m) {
      assert After(a, b);
    } else {
      forall n: nat | n < m ensures Padded(b, n) == Padded(c, n) {
        assert Padded(a, n) == Padded(b, n) && Padded(a, n) == Padded(c, n);
      }
      assert m < k ==> Padded(a, m) == Padded(c, m);
      assert AgreeBelow(b, c, m) && Padded(b, m) > Padded(c, m);
    }
  }

  /** Neighbours decide the whole sequence for any relation with the splitting
      property. */
  lemma {:induction false} NeighboursDecide(values: seq<Value>, after: (Bytes, Bytes) -> bool, i: nat, j: nat)
    requires i < j < |values|
    requires forall a, b, c :: after(a, c) ==> after(a, b) || after(b, c)
    requires forall n :: 0 < n < |values| ==> !after(values[n - 1].full, values[n].full)
    ensures !after(values[i].full, values[j].full)
    decreases j
  {
    if i + 1 < j {
      NeighboursDecide(values, after, i, j - 1);
      assert !after(values[j - 1].full, values[j].full);
    }
  }

  /** Definite-length encodings delimit themselves: no complete encoding is a
      proper prefix of another one. */
  lemma SelfDelimiting(a: Bytes, b: Bytes)
    requires AnnouncedLength(a) == Some(|a|) && AnnouncedLength(b) == Some(|b|) && a <= b
    ensures a == b
  {
    assert a[0] == b[0] && a[1] == b[1];
    if a[1] >= 128 {
      var count: int := a[1] - 128;
      assert a[2..2 + count] == b[2..2 + count];
    }
    assert |a| == |b|;
  }

  ghost predicate Complete(value: Value) {
    AnnouncedLength(value.full) == Some(|value.full|)
  }

  lemma ParsedIsComplete(data: Bytes)
    requires ValueOf(data).Some?
    ensures Complete(ValueOf(data).value.0)
  {
    var full := ValueOf(data).value.0.full;
    assert full[0] == data[0] && full[1] == data[1];
    if data[1] >= 128 {
      var count: int := data[1] - 128;
      assert full[2..2 + count] == data[2..2 + count];
    }
  }

  lemma {:induction false} ChildrenAreComplete(data: Bytes, maximum: nat, nodes: nat)
    requires ChildrenOf(data, maximum, nodes).Some?
    ensures forall v :: v in ChildrenOf(data, maximum, nodes).value ==> Complete(v)
    decreases |data|
  {
    if data != [] {
      ParsedIsComplete(data);
      ChildrenAreComplete(ValueOf(data).value.1, maximum - 1, nodes + 1);
    }
  }

  /** Whatever octets arrive, the adjacent-pair scan over the parsed attributes
      accepts exactly the sequences that are globally in DER SET order. */
  lemma ScanEqualsStandard(data: Bytes, maximum: nat, nodes: nat)
    requires ChildrenOf(data, maximum, nodes).Some?
    ensures ScanAccepts(ChildrenOf(data, maximum, nodes).value) <==> Ascending(ChildrenOf(data, maximum, nodes).value)
  {
    var values := ChildrenOf(data, maximum, nodes).value;
    ChildrenAreComplete(data, maximum, nodes);
    forall i | 0 < i < |values|
      ensures Compare(values[i - 1].full, values[i].full) > 0 <==> After(values[i - 1].full, values[i].full)
    {
      assert Complete(values[i - 1]) && Complete(values[i]);
      if values[i - 1].full <= values[i].full { SelfDelimiting(values[i - 1].full, values[i].full); }
      if values[i].full <= values[i - 1].full { SelfDelimiting(values[i].full, values[i - 1].full); }
      CompareIsPaddedOrder(values[i - 1].full, values[i].full);
    }
    var after := (a: Bytes, b: Bytes) => After(a, b);
    if ScanAccepts(values) {
      forall a, b, c | after(a, c) ensures after(a, b) || after(b, c) {
        AfterSplits(a, b, c);
      }
      forall i, j | 0 <= i < j < |values| ensures !After(values[i].full, values[j].full) {
        NeighboursDecide(values, after, i, j);
        assert !after(values[i].full, values[j].full);
      }
    }
  }

  /** Self-delimitation is what the equality rests on: between a string and its
      own zero extension the scan and the standard disagree. */
  lemma PrefixesSeparateScanFromStandard()
    ensures var values := [Value([1, 0], []), Value([1], [])];
            Ascending(values) && Compare(values[0].full, values[1].full) > 0
  {
    var a: Bytes, b: Bytes := [1, 0], [1];
    forall k: nat ensures Padded(a, k) == Padded(b, k) {}
    assert Compare(a, b) == Compare(a[1..], b[1..]) == 1;
  }
}
