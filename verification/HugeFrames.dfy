/** A message with more than 994 buffers that the decoder accepts, as something else: its offset table reads as
    a legacy frame whose first part is the blank object "{ }". */
module HugeFrames {
  import opened Prelude
  import opened JsonValues
  import opened ByteOrder
  import opened FrameLayout
  import opened FrameCodec

  function Same(offset: nat, n: nat): seq<nat> {
    seq(n, _ => offset)
  }

  function Fill(b: byte, n: nat): bytes {
    seq(n, _ => b)
  }

  function Empties(n: nat): seq<bytes> {
    seq(n, _ => [])
  }

  // ---- concatenated parts ----

  lemma {:induction false} ConcatAppend(a: seq<bytes>, b: seq<bytes>)
    ensures Concat(a + b) == Concat(a) + Concat(b)
  {
    if a == [] {
      assert a + b == b;
    } else {
      assert (a + b)[1..] == a[1..] + b;
      ConcatAppend(a[1..], b);
    }
  }

  lemma {:induction false} BoundariesConcat(start: nat, a: seq<bytes>, b: seq<bytes>)
    ensures Boundaries(start, a + b) == Boundaries(start, a)[..|a|] + Boundaries(start + |Concat(a)|, b)
    decreases |a|
  {
    if a == [] {
      assert a + b == b;
    } else {
      assert (a + b)[1..] == a[1..] + b;
      BoundariesConcat(start + |a[0]|, a[1..], b);
    }
  }

  lemma {:induction false} BoundariesOfEmpties(start: nat, n: nat)
    ensures Boundaries(start, Empties(n)) == Same(start, n + 1)
    ensures Concat(Empties(n)) == []
    decreases n
  {
    if n > 0 {
      assert Empties(n)[1..] == Empties(n - 1);
      BoundariesOfEmpties(start, n - 1);
    }
  }

  /** `n` empty parts before the others. */
  lemma EmptiesFirst(start: nat, n: nat, parts: seq<bytes>)
    ensures Boundaries(start, Empties(n) + parts) == Same(start, n) + Boundaries(start, parts)
  {
    BoundariesOfEmpties(start, n);
    BoundariesConcat(start, Empties(n), parts);
    assert Same(start, n + 1)[..n] == Same(start, n);
  }

  /** One part that fills the frame up to `next` before the others. */
  lemma FillerFirst(start: nat, next: nat, parts: seq<bytes>)
    requires start <= next
    ensures Boundaries(start, [Fill(0, next - start)] + parts) == [start] + Boundaries(next, parts)
  {
    assert ([Fill(0, next - start)] + parts)[1..] == parts;
  }

  // ---- tables ----

  lemma {:induction false} TableAppend(field: Field, a: seq<nat>, b: seq<nat>)
    ensures Table(field, a + b) == Table(field, a) + Table(field, b)
  {
    if a == [] {
      assert a + b == b;
    } else {
      assert (a + b)[1..] == a[1..] + b;
      TableAppend(field, a[1..], b);
    }
  }

  lemma {:induction false} TableOfRepeated(n: nat, b: byte, k: nat)
    requires LITTLE_U64.Pack(n) == Fill(b, 8)
    ensures Table(LITTLE_U64, Same(n, k)) == Fill(b, 8 * k)
    decreases k
  {
    if k > 0 {
      assert Same(n, k)[1..] == Same(n, k - 1);
      TableOfRepeated(n, b, k - 1);
    }
  }

  // ---- the buffers ----

  /** Buffers that bring the offsets to `a`, then `m - 2` times to `s`, then to `b` for good. */
  function Padding(o: nat, a: nat, s: nat, b: nat, m: nat, rest: nat): (buffers: seq<bytes>)
    requires o <= a <= s <= b && m >= 3
    ensures |buffers| == m + 25 + rest
  {
    Empties(25)
    + ([Fill(0, a - o)]
       + ([Fill(0, s - a)] + (Empties(m - 3) + ([Fill(0, b - s)] + Empties(rest)))))
  }

  lemma OffsetsOfBuffers(o: nat, a: nat, s: nat, b: nat, m: nat, rest: nat)
    requires o <= a <= s <= b && m >= 3
    ensures Boundaries(o, Padding(o, a, s, b, m, rest))
            == Same(o, 26) + ([a] + Same(s, m - 2) + [b]) + Same(b, rest)
  {
    hide Boundaries;
    var t3 := [Fill(0, b - s)] + Empties(rest);
    var t2 := Empties(m - 3) + t3;
    var t1 := [Fill(0, s - a)] + t2;
    var t0 := [Fill(0, a - o)] + t1;
    BoundariesOfEmpties(b, rest);
    FillerFirst(s, b, Empties(rest));
    EmptiesFirst(s, m - 3, t3);
    assert Same(b, rest + 1) == [b] + Same(b, rest);
    assert Same(s, m - 3) + [s] == Same(s, m - 2);
    assert Boundaries(s, t2) == Same(s, m - 2) + ([b] + Same(b, rest));
    FillerFirst(a, s, t2);
    FillerFirst(o, a, t1);
    EmptiesFirst(o, 25, t0);
    assert Same(o, 25) + [o] == Same(o, 26);
  }

  // ---- the legacy reading ----

  lemma FirstSlice(frame: bytes, b: seq<nat>)
    requires |b| >= 2 && b[0] <= b[1] <= |frame|
    ensures Slices(frame, b)[0] == frame[b[0]..b[1]]
  {
  }

  lemma FirstTwoFields(field: Field, b: bytes, n: nat)
    requires n >= 2 && field.Size(n) <= |b| && 2 * field.width <= |b|
    ensures ReadTable(field, b, n)[0] == field.Unpack(b[..field.width])
    ensures ReadTable(field, b, n)[1] == field.Unpack(b[field.width..2 * field.width])
  {
    var rest := b[field.width..];
    assert ReadTable(field, b, n)[1] == ReadTable(field, rest, n - 1)[0];
    assert rest[..field.width] == b[field.width..2 * field.width];
  }

  /** What an accepted legacy frame has for its first part. */
  lemma FirstLegacyPart(frame: bytes, end: nat)
    requires SplitLegacy(frame).Some? && |frame| >= 12
    requires UnpackBig(frame[..4]) >= 2 && UnpackBig(frame[8..12]) == end
    requires UnpackBig(frame[4..8]) <= end <= |frame|
    ensures SplitLegacy(frame).value[0] == frame[UnpackBig(frame[4..8])..end]
  {
    var n := UnpackBig(frame[..4]);
    BIG_U32.SizeIsProduct(n);
    var offsets := ReadTable(BIG_U32, frame[4..], n);
    FirstTwoFields(BIG_U32, frame[4..], n);
    assert frame[4..][..4] == frame[4..8] && frame[4..][4..8] == frame[8..12];
    FirstSlice(frame, offsets + [|frame|]);
  }

  // ---- the frame ----

  /** "{", white space, "}": a JSON text for the empty object. */
  function BlankObject(spaces: nat): bytes {
    [0x7B] + Fill(9, 7) + Fill(0x20, spaces) + [0x7D]
  }

  const FIRST: nat := 0x0909_0909_0909_097B
  const MIDDLE: nat := 0x2020_2020_2020_2020
  const LAST: nat := 0x7D20_2020_2020_2020

  lemma PackedOffsets()
    ensures LITTLE_U64.Pack(FIRST) == [0x7B, 9, 9, 9, 9, 9, 9, 9]
    ensures LITTLE_U64.Pack(MIDDLE) == Fill(0x20, 8)
    ensures LITTLE_U64.Pack(LAST) == Fill(0x20, 7) + [0x7D]
  {
    Packed([0x7B, 9, 9, 9, 9, 9, 9, 9]);
    Packed([0x20, 0x20, 0x20, 0x20, 0x20, 0x20, 0x20, 0x20]);
    Packed([0x20, 0x20, 0x20, 0x20, 0x20, 0x20, 0x20, 0x7D]);
    assert Fill(0x20, 8) == [0x20, 0x20, 0x20, 0x20, 0x20, 0x20, 0x20, 0x20];
    assert Fill(0x20, 7) == [0x20, 0x20, 0x20, 0x20, 0x20, 0x20, 0x20];
  }

  lemma Packed(b: bytes)
    requires |b| == 8
    ensures LITTLE_U64.Pack(Four(b[0], b[1], b[2], b[3]) + 0x1_0000_0000 * Four(b[4], b[5], b[6], b[7])) == b
  {
    EightLittle(b);
    FourLittle(b[4..]);
    LITTLE_U64.RoundTripBack(b);
  }

  lemma BlankObjectInThree(spaces: nat)
    ensures BlankObject(spaces + 7) == LITTLE_U64.Pack(FIRST) + Fill(0x20, spaces) + LITTLE_U64.Pack(LAST)
  {
    PackedOffsets();
    assert Fill(0x20, spaces + 7) == Fill(0x20, spaces) + Fill(0x20, 7);
    assert [0x7B] + Fill(9, 7) == [0x7B, 9, 9, 9, 9, 9, 9, 9];
  }

  /** The offsets that spell the blank object. */
  lemma TableSpellsObject(m: nat)
    requires m >= 3
    ensures Table(LITTLE_U64, [FIRST] + Same(MIDDLE, m - 2) + [LAST]) == BlankObject(8 * (m - 2) + 7)
  {
    hide Table, BlankObject, Field.Pack, Same, Fill;
    var middle := Same(MIDDLE, m - 2);
    TableAppend(LITTLE_U64, [FIRST] + middle, [LAST]);
    TableAppend(LITTLE_U64, [FIRST], middle);
    TableOfMiddle(m - 2);
    TableOfOne(FIRST);
    TableOfOne(LAST);
    BlankObjectInThree(8 * (m - 2));
  }

  lemma TableOfMiddle(k: nat)
    ensures Table(LITTLE_U64, Same(MIDDLE, k)) == Fill(0x20, 8 * k)
  {
    hide Table, Same, Fill, Field.Pack;
    PackedOffsets();
    TableOfRepeated(MIDDLE, 0x20, k);
  }

  lemma TableOfOne(n: nat)
    ensures Table(LITTLE_U64, [n]) == LITTLE_U64.Pack(n)
  {
    assert [n][1..] == [];
  }

  /** A v1 frame for `head` and the padding: its table spells the blank object right after its 31st offset. */
  lemma FrameSpellsObject(head: seq<bytes>, m: nat, rest: nat, start: nat, o: nat)
    requires |head| == 5 && m >= 3 && start == 8 * (m + rest + 32) && o == start + |Concat(head)| && o <= FIRST
    ensures var parts := head + Padding(o, FIRST, MIDDLE, LAST, m, rest);
            var frame := JoinV1(parts);
            && |parts| == m + 30 + rest
            && |frame| == LAST && 256 + 8 * m <= |frame|
            && frame[..8] == LITTLE_U64.Pack(|parts| + 1)
            && frame[8..16] == LITTLE_U64.Pack(start)
            && frame[256..256 + 8 * m] == BlankObject(8 * (m - 2) + 7)
  {
    hide Table, BlankObject, Field.Pack, JoinV1;
    var padding := Padding(o, FIRST, MIDDLE, LAST, m, rest);
    var parts := head + padding;
    BoundariesConcat(start, head, padding);
    OffsetsOfBuffers(o, FIRST, MIDDLE, LAST, m, rest);
    var before := Boundaries(start, head)[..5] + Same(o, 26);
    var spelling := [FIRST] + Same(MIDDLE, m - 2) + [LAST];
    var offsets := Boundaries(start, parts);
    assert offsets == before + spelling + Same(LAST, rest);
    TableAppend(LITTLE_U64, before + spelling, Same(LAST, rest));
    TableAppend(LITTLE_U64, before, spelling);
    TableSpellsObject(m);
    SpelledFrame(parts, before, spelling, Same(LAST, rest), start, m);
    BoundariesAscend(start, parts);
    JoinV1Length(parts);
    assert offsets[|parts|] == LAST;
  }

  lemma SpelledFrame(
    parts: seq<bytes>, before: seq<nat>, spelling: seq<nat>, after: seq<nat>, start: nat, m: nat)
    requires |before| == 31 && |spelling| == m && before[0] == start == 8 * (|parts| + 2)
    requires Boundaries(start, parts) == before + spelling + after
    requires Table(LITTLE_U64, before + spelling + after)
             == Table(LITTLE_U64, before) + Table(LITTLE_U64, spelling) + Table(LITTLE_U64, after)
    ensures var frame := JoinV1(parts);
            && 256 + 8 * m <= |frame|
            && frame[..8] == LITTLE_U64.Pack(|parts| + 1)
            && frame[8..16] == LITTLE_U64.Pack(start)
            && frame[256..256 + 8 * m] == Table(LITTLE_U64, spelling)
  {
    hide Table, Boundaries, Concat, Field.Pack;
    LITTLE_U64.SizeIsProduct(31);
    LITTLE_U64.SizeIsProduct(m);
    TableStarts(before);
    SlicesOfFrame(
      LITTLE_U64.Pack(|parts| + 1), Table(LITTLE_U64, before), Table(LITTLE_U64, spelling),
      Table(LITTLE_U64, after), Concat(parts));
  }

  lemma SlicesOfFrame(count: bytes, t1: bytes, t2: bytes, t3: bytes, body: bytes)
    requires |count| == 8 && |t1| == 248
    ensures var frame := count + (t1 + t2 + t3) + body;
            frame[..8] == count && frame[8..16] == t1[..8] && frame[256..256 + |t2|] == t2
  {
  }

  lemma TableStarts(ns: seq<nat>)
    requires ns != []
    ensures LITTLE_U64.width <= |Table(LITTLE_U64, ns)| && Table(LITTLE_U64, ns)[..8] == LITTLE_U64.Pack(ns[0])
  {
  }

  // ---- the message ----

  /** Enough offsets to fill the first legacy part. */
  const CHUNKS := 16_777_215

  const SPACES := 8 * (CHUNKS - 2) + 7

  /** The head of the frame, read as a legacy count and the first two legacy offsets. */
  lemma HeadReadsAsLegacy(frame: bytes)
    requires |frame| >= 16 && frame[..8] == LITTLE_U64.Pack(SMALLEST_LEGACY_COUNT)
    requires frame[8..16] == LITTLE_U64.Pack(8 * (SMALLEST_LEGACY_COUNT + 1))
    ensures UnpackBig(frame[..4]) == 63 && UnpackBig(frame[4..8]) == 256
    ensures UnpackBig(frame[8..12]) == 256 + 8 * CHUNKS
  {
    SmallestLegacyCountLooksLegacy();
    Packed([8, 0, 0, 0xF8, 1, 0, 8, 0]);
    FourBig(frame[..4]);
    FourBig(frame[4..8]);
    FourBig(frame[8..12]);
    assert frame[..4] == frame[..8][..4] && frame[4..8] == frame[..8][4..];
    assert frame[8..12] == frame[8..16][..4];
  }

  /** The message, and how the layout checks take its frame. */
  lemma HugeMessage(codec: Codec) returns (message: Outgoing)
    requires |codec.encode(codec.str(Str("shell")))| < 0x1_0000_0000 && |codec.dumps(NO_FIELDS)| < 0x1_0000_0000
    ensures |BuffersOf(message)| + 6 == SMALLEST_LEGACY_COUNT
    ensures var frame := JoinV1(Parts(codec, message));
            && |frame| < LITTLE_U64.Limit() && SplitV1(frame).None?
            && SplitLegacy(frame).Some? && SplitLegacy(frame).value[0] == BlankObject(SPACES)
  {
    hide JoinV1, SplitV1, SplitLegacy, Concat, BlankObject, Field.Pack, Padding, CountLooksLegacy;
    var head := Parts(codec, Outgoing(map[], NotGiven));
    var count: nat := SMALLEST_LEGACY_COUNT;
    var m: nat, start := CHUNKS, 8 * (count + 1);
    var rest: nat := count - m - 31;
    ConcatOfFive(head);
    var o := start + |Concat(head)|;
    var padding := Padding(o, FIRST, MIDDLE, LAST, m, rest);
    message := Outgoing(map[], Buffers(padding));
    var parts := Parts(codec, message);
    assert parts == head + padding;
    FrameSpellsObject(head, m, rest, start, o);
    RangeOfEight();
    SplitAfterJoinV1(parts);
    SmallestLegacyCountLooksLegacy();
    LegacyLayoutOfV1Frame(parts);
    HeadReadsAsLegacy(JoinV1(parts));
    FirstLegacyPart(JoinV1(parts), 256 + 8 * m);
  }

  /** With a codec that writes short default fields and reads white space as JSON does, this message of
      SMALLEST_LEGACY_COUNT - 6 buffers is accepted, and none of its six fields comes back: the bound of
      EncodedMessageRoundTrip is the best possible. */
  lemma SmallestLegacyCountIsAccepted(codec: Codec) returns (message: Outgoing)
    requires |codec.encode(codec.str(Str("shell")))| < 0x1_0000_0000 && |codec.dumps(NO_FIELDS)| < 0x1_0000_0000
    requires codec.loads(BlankObject(SPACES)) == Ok(Obj(map[]))
    ensures |BuffersOf(message)| + 6 == SMALLEST_LEGACY_COUNT
    ensures |JoinV1(Parts(codec, message))| < LITTLE_U64.Limit()
    ensures var decoded := DecodeFrame(codec, Binary(JoinV1(Parts(codec, message))));
            decoded.Ok? && decoded.value.fields == map[]
  {
    hide JoinV1, SplitV1, SplitLegacy, BlankObject, Parts;
    message := HugeMessage(codec);
  }

  lemma ConcatOfFive(parts: seq<bytes>)
    requires |parts| == 5
    ensures |Concat(parts)| == |parts[0]| + |parts[1]| + |parts[2]| + |parts[3]| + |parts[4]|
  {
    hide Concat;
    LongerByOne([], parts[0]);
    LongerByOne([parts[0]], parts[1]);
    LongerByOne([parts[0], parts[1]], parts[2]);
    LongerByOne([parts[0], parts[1], parts[2]], parts[3]);
    LongerByOne([parts[0], parts[1], parts[2], parts[3]], parts[4]);
    assert [] + [parts[0]] == [parts[0]] && [parts[0]] + [parts[1]] == [parts[0], parts[1]];
    assert [parts[0], parts[1]] + [parts[2]] == [parts[0], parts[1], parts[2]];
    assert [parts[0], parts[1], parts[2]] + [parts[3]] == [parts[0], parts[1], parts[2], parts[3]];
    assert parts == [parts[0], parts[1], parts[2], parts[3]] + [parts[4]];
  }

  lemma LongerByOne(parts: seq<bytes>, part: bytes)
    ensures |Concat(parts + [part])| == |Concat(parts)| + |part|
    ensures |Concat([])| == 0
  {
    ConcatAppend(parts, [part]);
    assert [part][1..] == [];
  }
}
