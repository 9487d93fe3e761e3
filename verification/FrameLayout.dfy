/** Layout of the two binary WebSocket frames of runtime/runner.py: a count, a table of offsets, the parts. */
module FrameLayout {
  import opened Prelude
  import opened ByteOrder

  function Concat(parts: seq<bytes>): bytes {
    if parts == [] then [] else parts[0] + Concat(parts[1..])
  }

  /** The boundaries of parts laid out one after the other from `start`. */
  function Boundaries(start: nat, parts: seq<bytes>): (b: seq<nat>)
    ensures |b| == |parts| + 1 && b[0] == start
    decreases |parts|
  {
    if parts == [] then [start] else [start] + Boundaries(start + |parts[0]|, parts[1..])
  }

  /** struct.pack of consecutive fields. */
  function Table(field: Field, ns: seq<nat>): (b: bytes)
    ensures |b| == field.Size(|ns|)
  {
    if ns == [] then [] else field.Pack(ns[0]) + Table(field, ns[1..])
  }

  /** struct.unpack of the first `n` fields. */
  function ReadTable(field: Field, b: bytes, n: nat): (ns: seq<nat>)
    requires field.Size(n) <= |b|
    ensures |ns| == n
    decreases n
  {
    if n == 0 then []
    else [field.Unpack(b[..field.width])] + ReadTable(field, b[field.width..], n - 1)
  }

  /** Python's `frame[from_:to]` for non-negative bounds: clamped to the frame, empty when out of order. */
  function PySlice(frame: bytes, from_: nat, to: nat): bytes {
    var hi := if to < |frame| then to else |frame|;
    if from_ <= hi then frame[from_..hi] else []
  }

  function Slices(frame: bytes, boundaries: seq<nat>): (parts: seq<bytes>)
    requires boundaries != []
    ensures |parts| == |boundaries| - 1
  {
    if |boundaries| == 1 then []
    else [PySlice(frame, boundaries[0], boundaries[1])] + Slices(frame, boundaries[1..])
  }

  predicate Ascending(ns: seq<nat>) {
    |ns| > 1 ==> ns[0] <= ns[1] && Ascending(ns[1..])
  }

  const V1_MIN := 6
  const V1_MAX := 1000
  const LEGACY_MAX := 1000

  /** The bytes encode_v1_message produces for its parts. */
  function JoinV1(parts: seq<bytes>): bytes {
    var count := |parts| + 1;
    LITTLE_U64.Pack(count) + Table(LITTLE_U64, Boundaries(8 * (count + 1), parts)) + Concat(parts)
  }

  /** Layout checks and slicing of _decode_v1_message; None is its InfrastructureError. */
  function SplitV1(frame: bytes): Option<seq<bytes>> {
    if |frame| < 56 then None
    else
      var count := LITTLE_U64.Unpack(frame[..8]);
      if count < V1_MIN || count > V1_MAX then None
      else if 8 * (count + 1) > |frame| then None
      else
        LITTLE_U64.SizeIsProduct(count);
        var offsets := ReadTable(LITTLE_U64, frame[8..], count);
        if offsets[0] != 8 * (count + 1) || offsets[count - 1] != |frame| then None
        else if !Ascending(offsets) then None
        else Some(Slices(frame, offsets))
  }

  /** A well-formed legacy frame with the given parts. */
  function JoinLegacy(parts: seq<bytes>): bytes {
    var starts := Boundaries(4 * (|parts| + 1), parts);
    BIG_U32.Pack(|parts|) + Table(BIG_U32, starts[..|parts|]) + Concat(parts)
  }

  /** Layout checks and slicing of _decode_legacy_binary_message; None is its InfrastructureError. */
  function SplitLegacy(frame: bytes): (r: Option<seq<bytes>>)
    ensures r.Some? ==> 1 <= |r.value| <= LEGACY_MAX
  {
    if |frame| < 8 then None
    else
      var count := BIG_U32.Unpack(frame[..4]);
      if count < 1 || count > LEGACY_MAX then None
      else if 4 * (count + 1) > |frame| then None
      else
        BIG_U32.SizeIsProduct(count);
        var offsets := ReadTable(BIG_U32, frame[4..], count);
        if offsets[0] != 4 * (count + 1) then None
        else Some(Slices(frame, offsets + [|frame|]))
  }

  // ---- tables ----

  ghost predicate Fits(field: Field, ns: seq<nat>) {
    forall i | 0 <= i < |ns| :: ns[i] < field.Limit()
  }

  lemma {:induction false} TableReadsBack(field: Field, ns: seq<nat>, after: bytes)
    requires Fits(field, ns)
    ensures ReadTable(field, Table(field, ns) + after, |ns|) == ns
  {
    if ns != [] {
      var b := Table(field, ns) + after;
      TableReadsBack(field, ns[1..], after);
      field.RoundTrip(ns[0]);
      assert b[..field.width] == field.Pack(ns[0]);
      assert b[field.width..] == Table(field, ns[1..]) + after;
    }
  }

  lemma {:induction false} TableWritesBack(field: Field, b: bytes, n: nat)
    requires field.Size(n) <= |b|
    ensures Table(field, ReadTable(field, b, n)) == b[..field.Size(n)]
    ensures Fits(field, ReadTable(field, b, n))
    decreases n
  {
    if n > 0 {
      var head, tail := b[..field.width], b[field.width..];
      var rest := ReadTable(field, tail, n - 1);
      TableWritesBack(field, tail, n - 1);
      field.RoundTripBack(head);
      assert ReadTable(field, b, n) == [field.Unpack(head)] + rest;
      TableOfCons(field, field.Unpack(head), rest);
      assert b[..field.width + field.Size(n - 1)] == head + tail[..field.Size(n - 1)];
    }
  }

  lemma TableOfCons(field: Field, n: nat, ns: seq<nat>)
    ensures Table(field, [n] + ns) == field.Pack(n) + Table(field, ns)
  {
    assert ([n] + ns)[1..] == ns;
  }

  // ---- parts ----

  lemma {:induction false} BoundariesAscend(start: nat, parts: seq<bytes>)
    ensures var b := Boundaries(start, parts);
            && Ascending(b)
            && b[|parts|] == start + |Concat(parts)|
            && forall i | 0 <= i <= |parts| :: b[i] <= b[|parts|]
    decreases |parts|
  {
    if parts != [] {
      BoundariesAscend(start + |parts[0]|, parts[1..]);
    }
  }

  lemma {:induction false} SlicesAreParts(before: bytes, parts: seq<bytes>)
    ensures Slices(before + Concat(parts), Boundaries(|before|, parts)) == parts
    decreases |parts|
  {
    if parts != [] {
      assert before + Concat(parts) == (before + parts[0]) + Concat(parts[1..]);
      SlicesAreParts(before + parts[0], parts[1..]);
      assert PySlice(before + Concat(parts), |before|, |before| + |parts[0]|) == parts[0];
      var b := Boundaries(|before|, parts);
      assert b[1..] == Boundaries(|before| + |parts[0]|, parts[1..]);
    }
  }

  /** Ascending boundaries inside the frame are the boundaries of their own slices. */
  lemma {:induction false} SlicesJoinBack(frame: bytes, b: seq<nat>)
    requires b != [] && Ascending(b) && b[|b| - 1] <= |frame|
    ensures Boundaries(b[0], Slices(frame, b)) == b
    ensures b[0] <= b[|b| - 1] && Concat(Slices(frame, b)) == frame[b[0]..b[|b| - 1]]
    decreases |b|
  {
    if |b| > 1 {
      SlicesJoinBack(frame, b[1..]);
      OneMoreSlice(frame, b[0], b[1], b[|b| - 1]);
      assert b == [b[0]] + b[1..];
    }
  }

  lemma OneMoreSlice(frame: bytes, a: nat, b: nat, c: nat)
    requires a <= b <= c <= |frame|
    ensures PySlice(frame, a, b) == frame[a..b] && frame[a..c] == frame[a..b] + frame[b..c]
  {
  }

  // ---- the two formats ----

  /** The table and part lemmas put together for an arbitrary field. */
  lemma FrameReadsBack(field: Field, head: bytes, parts: seq<bytes>, n: nat, start: nat)
    requires |parts| <= n <= |parts| + 1 && start == |head| + field.Size(n)
    requires start + |Concat(parts)| < field.Limit()
    ensures var b := Boundaries(start, parts);
            var frame := head + Table(field, b[..n]) + Concat(parts);
            && |frame| == b[|parts|]
            && field.Size(n) <= |frame[|head|..]|
            && ReadTable(field, frame[|head|..], n) == b[..n]
            && Slices(frame, b) == parts
  {
    hide Table, ReadTable, Concat, Slices, Boundaries, Field.Size, Field.Limit;
    var b := Boundaries(start, parts);
    var table, body := Table(field, b[..n]), Concat(parts);
    BoundariesAscend(start, parts);
    assert Fits(field, b[..n]);
    TableReadsBack(field, b[..n], body);
    assert (head + table + body)[|head|..] == table + body;
    assert |head + table| == start;
    SlicesAreParts(head + table, parts);
  }

  lemma JoinV1Length(parts: seq<bytes>)
    ensures |JoinV1(parts)| == 8 * (|parts| + 2) + |Concat(parts)|
  {
    LITTLE_U64.SizeIsProduct(|parts| + 1);
  }

  /** Splitting undoes joining exactly when there are 5 to 999 parts; other part counts are rejected. */
  lemma SplitAfterJoinV1(parts: seq<bytes>)
    requires |JoinV1(parts)| < LITTLE_U64.Limit()
    ensures SplitV1(JoinV1(parts)) == if 5 <= |parts| <= 999 then Some(parts) else None
  {
    hide Table, ReadTable, Concat, Slices, Boundaries, Field.Size;
    var count := |parts| + 1;
    var head := LITTLE_U64.Pack(count);
    var frame := JoinV1(parts);
    var b := Boundaries(8 * (count + 1), parts);
    JoinV1Length(parts);
    LITTLE_U64.SizeIsProduct(count);
    FrameReadsBack(LITTLE_U64, head, parts, count, 8 * (count + 1));
    assert b[..count] == b;
    assert frame[..8] == head;
    LITTLE_U64.RoundTrip(count);
    BoundariesAscend(8 * (count + 1), parts);
  }

  /** Joining undoes splitting: the checked offsets leave no freedom, so an accepted frame is reproduced. */
  lemma JoinAfterSplitV1(frame: bytes)
    requires SplitV1(frame).Some?
    ensures var parts := SplitV1(frame).value;
            JoinV1(parts) == frame && 5 <= |parts| <= 999 && |frame| < LITTLE_U64.Limit()
  {
    hide Table, ReadTable, Concat, Slices, Boundaries, Field.Size;
    var count := LITTLE_U64.Unpack(frame[..8]);
    LITTLE_U64.SizeIsProduct(count);
    var offsets := ReadTable(LITTLE_U64, frame[8..], count);
    TableWritesBack(LITTLE_U64, frame[8..], count);
    LITTLE_U64.RoundTripBack(frame[..8]);
    SlicesJoinBack(frame, offsets);
    assert frame == frame[..8] + frame[8..][..8 * count] + frame[8 * (count + 1)..];
  }

  lemma JoinLegacyLength(parts: seq<bytes>)
    ensures |JoinLegacy(parts)| == 4 * (|parts| + 1) + |Concat(parts)|
  {
    BIG_U32.SizeIsProduct(|parts|);
  }

  /** A well-formed legacy frame yields exactly its parts when there are 1 to 1000 of them. */
  lemma SplitAfterJoinLegacy(parts: seq<bytes>)
    requires |JoinLegacy(parts)| < BIG_U32.Limit()
    ensures SplitLegacy(JoinLegacy(parts)) == if 1 <= |parts| <= LEGACY_MAX then Some(parts) else None
  {
    hide Table, ReadTable, Concat, Slices, Boundaries, Field.Size;
    var count := |parts|;
    var head := BIG_U32.Pack(count);
    var frame := JoinLegacy(parts);
    var b := Boundaries(4 * (count + 1), parts);
    JoinLegacyLength(parts);
    BIG_U32.SizeIsProduct(count);
    FrameReadsBack(BIG_U32, head, parts, count, 4 * (count + 1));
    assert frame[..4] == head;
    BIG_U32.RoundTrip(count);
    assert b == b[..count] + [|frame|];
  }

  lemma SmallLittleCount(b: bytes)
    requires |b| >= 2 && 0 < UnpackLittle(b) < 65536
    ensures b[0] != 0 || b[1] != 0
  {
    assert UnpackLittle(b) == b[0] + 256 * UnpackLittle(b[1..]);
    assert UnpackLittle(b[1..]) == b[1] + 256 * UnpackLittle(b[1..][1..]);
  }

  lemma SmallBigCount(b: bytes)
    requires |b| == 4 && UnpackBig(b) < 65536
    ensures b[0] == 0 && b[1] == 0
  {
    var b3, b2 := b[..3], b[..3][..2];
    assert UnpackBig(b) == 256 * UnpackBig(b3) + b[3];
    assert UnpackBig(b3) == 256 * UnpackBig(b2) + b3[2];
    assert UnpackBig(b2) == 256 * UnpackBig(b2[..1]) + b2[1];
    assert UnpackBig(b2[..1]) == 256 * UnpackBig(b2[..1][..0]) + b2[0];
  }

  /** No byte string passes the layout checks of both formats. */
  lemma FormatsAreDisjoint(frame: bytes)
    ensures SplitV1(frame).None? || SplitLegacy(frame).None?
  {
    if SplitV1(frame).Some? && SplitLegacy(frame).Some? {
      SmallLittleCount(frame[..8]);
      SmallBigCount(frame[..4]);
      assert false;
    }
  }

  // ---- the bytes of the two formats ----

  lemma {:induction false} ReadTableAt(field: Field, b: bytes, n: nat, i: nat)
    requires field.Size(n) <= |b| && i < n
    ensures 0 <= i * field.width <= i * field.width + field.width <= |b|
    ensures ReadTable(field, b, n)[i] == field.Unpack(b[i * field.width..i * field.width + field.width])
    decreases n
  {
    field.SizeIsProduct(n);
    var w := field.width;
    if i == 0 {
      assert n * w >= w;
    } else {
      var tail := b[w..];
      ReadTableAt(field, tail, n - 1, i - 1);
      assert (i - 1) * w + w == i * w;
      assert tail[(i - 1) * w..(i - 1) * w + w] == b[i * w..i * w + w];
    }
  }

  /** The bytes of `frame` from `from_` up to `to`, clamped to the frame; none when out of order. */
  ghost predicate IsSlice(part: bytes, frame: bytes, from_: nat, to: nat) {
    && (from_ + |part| <= |frame| || part == [])
    && (forall j | 0 <= j < |part| :: part[j] == frame[from_ + j])
    && (part != [] || (from_ < |frame| && from_ < to) ==> from_ + |part| == if to < |frame| then to else |frame|)
  }

  lemma {:induction false} SlicesAt(frame: bytes, b: seq<nat>, i: nat)
    requires i + 1 < |b|
    ensures IsSlice(Slices(frame, b)[i], frame, b[i], b[i + 1])
  {
    if i > 0 {
      SlicesAt(frame, b[1..], i - 1);
    }
  }

  /** Four bytes as an integer, the lowest one first. */
  function Four(a: int, b: int, c: int, d: int): int {
    a + 0x100 * b + 0x1_0000 * c + 0x100_0000 * d
  }

  lemma FourLittle(b: bytes)
    requires |b| == 4
    ensures UnpackLittle(b) == Four(b[0], b[1], b[2], b[3])
  {
    assert b[1..][1..] == b[2..] && b[2..][1..] == b[3..] && b[3..][1..] == [];
    assert UnpackLittle(b[3..]) == b[3];
    assert UnpackLittle(b[2..]) == b[2] + 256 * UnpackLittle(b[3..]);
    assert UnpackLittle(b[1..]) == b[1] + 256 * UnpackLittle(b[2..]);
  }

  lemma FourBig(b: bytes)
    requires |b| == 4
    ensures UnpackBig(b) == Four(b[3], b[2], b[1], b[0])
  {
    assert b[..3][..2] == b[..2] && b[..2][..1] == b[..1] && b[..1][..0] == [];
    assert UnpackBig(b[..1]) == b[0];
    assert UnpackBig(b[..2]) == 256 * UnpackBig(b[..1]) + b[1];
    assert UnpackBig(b[..3]) == 256 * UnpackBig(b[..2]) + b[2];
  }

  /** The big-endian integer at byte `k`. */
  function BigAt(frame: bytes, k: nat): nat
    requires k + 4 <= |frame|
  {
    Four(frame[k + 3], frame[k + 2], frame[k + 1], frame[k])
  }

  lemma BigIsAt(frame: bytes, k: nat)
    requires k + 4 <= |frame|
    ensures UnpackBig(frame[k..k + 4]) == BigAt(frame, k)
  {
    FourBig(frame[k..k + 4]);
  }

  /** Where legacy part `i` begins by the table; past the last one, the end of the frame. */
  function LegacyBoundary(frame: bytes, count: nat, i: nat): nat
    requires i <= count && 4 * (count + 1) <= |frame|
  {
    if i < count then BigAt(frame, 4 * (i + 1)) else |frame|
  }

  /** Exactly what the legacy layout checks accept, whatever else the bytes are: a count from 1 to 1000, a table that
      fits, and a first part right after it. */
  predicate LooksLegacy(frame: bytes) {
    && |frame| >= 8 && 1 <= BigAt(frame, 0) <= 1000
    && 4 * (BigAt(frame, 0) + 1) <= |frame| && BigAt(frame, 4) == 4 * (BigAt(frame, 0) + 1)
  }

  /** The legacy parts are the slices between neighbouring boundaries, clamped to the frame when the offsets are out
      of order or of range. */
  lemma LegacyLayoutIsExact(frame: bytes)
    ensures SplitLegacy(frame).Some? <==> LooksLegacy(frame)
    ensures LooksLegacy(frame) ==>
              var parts, count := SplitLegacy(frame).value, BigAt(frame, 0);
              && |parts| == count
              && forall i | 0 <= i < count ::
                   IsSlice(parts[i], frame, LegacyBoundary(frame, count, i), LegacyBoundary(frame, count, i + 1))
  {
    hide ReadTable, Slices, IsSlice, UnpackBig, BigAt;
    if |frame| >= 8 {
      assert frame[0..4] == frame[..4];
      BigIsAt(frame, 0);
      BigIsAt(frame, 4);
      var count := BigAt(frame, 0);
      if 1 <= count <= LEGACY_MAX && 4 * (count + 1) <= |frame| {
        LegacyOffsets(frame, count);
        var offsets := ReadTable(BIG_U32, frame[4..], count);
        forall i | 0 <= i < count
          ensures IsSlice(Slices(frame, offsets + [|frame|])[i], frame,
                          LegacyBoundary(frame, count, i), LegacyBoundary(frame, count, i + 1))
        {
          SlicesAt(frame, offsets + [|frame|], i);
        }
      }
    }
  }

  lemma LegacyOffsets(frame: bytes, count: nat)
    requires 4 * (count + 1) <= |frame|
    ensures BIG_U32.Size(count) <= |frame[4..]|
    ensures forall i | 0 <= i < count :: ReadTable(BIG_U32, frame[4..], count)[i] == LegacyBoundary(frame, count, i)
  {
    BIG_U32.SizeIsProduct(count);
    forall i | 0 <= i < count
      ensures ReadTable(BIG_U32, frame[4..], count)[i] == LegacyBoundary(frame, count, i)
    {
      ReadTableAt(BIG_U32, frame[4..], count, i);
      assert frame[4..][4 * i..4 * i + 4] == frame[4 * (i + 1)..4 * (i + 1) + 4];
      BigIsAt(frame, 4 * (i + 1));
    }
  }

  lemma {:induction false} BoundariesStep(start: nat, parts: seq<bytes>, i: nat)
    requires i < |parts|
    ensures Boundaries(start, parts)[i + 1] == Boundaries(start, parts)[i] + |parts[i]|
    decreases |parts|
  {
    if i > 0 {
      BoundariesStep(start + |parts[0]|, parts[1..], i - 1);
    }
  }

  /** Where part `i` of a v1 frame begins: after the count, the table and the parts before it. */
  function PartStart(parts: seq<bytes>, i: nat): nat
    requires i <= |parts|
  {
    if i == 0 then 8 * (|parts| + 2) else PartStart(parts, i - 1) + |parts[i - 1]|
  }

  lemma {:induction false} BoundariesAreStarts(parts: seq<bytes>, i: nat)
    requires i <= |parts|
    ensures Boundaries(8 * (|parts| + 2), parts)[i] == PartStart(parts, i)
  {
    if i > 0 {
      BoundariesAreStarts(parts, i - 1);
      BoundariesStep(8 * (|parts| + 2), parts, i - 1);
    }
  }

  /** A v1 frame byte by byte: the number of offsets, the offsets (where each part begins, and the length of the
      frame), each in eight bytes with the lowest first, and the parts at their offsets. */
  ghost predicate IsV1Frame(frame: bytes, parts: seq<bytes>) {
    var n := |parts|;
    && |frame| == PartStart(parts, n) >= 8 * (n + 2)
    && UnpackLittle(frame[..8]) == n + 1
    && (forall i | 0 <= i <= n :: UnpackLittle(frame[8 * i + 8..8 * i + 16]) == PartStart(parts, i))
    && (forall i | 0 <= i < n :: IsSlice(parts[i], frame, PartStart(parts, i), PartStart(parts, i + 1)))
  }

  lemma V1FrameIsExact(parts: seq<bytes>)
    requires |JoinV1(parts)| < LITTLE_U64.Limit()
    ensures IsV1Frame(JoinV1(parts), parts)
  {
    hide Table, ReadTable, Concat, Slices, Boundaries, Field.Size, IsSlice, UnpackLittle;
    var frame, n, head := JoinV1(parts), |parts|, LITTLE_U64.Pack(|parts| + 1);
    var b := Boundaries(8 * (n + 2), parts);
    JoinV1Length(parts);
    LITTLE_U64.SizeIsProduct(n + 1);
    FrameReadsBack(LITTLE_U64, head, parts, n + 1, 8 * (n + 2));
    assert b[..n + 1] == b;
    assert frame[..8] == head;
    LITTLE_U64.RoundTrip(n + 1);
    BoundariesAreStarts(parts, n);
    forall i | 0 <= i <= n ensures UnpackLittle(frame[8 * i + 8..8 * i + 16]) == PartStart(parts, i) {
      ReadTableAt(LITTLE_U64, frame[8..], n + 1, i);
      assert frame[8..][8 * i..8 * i + 8] == frame[8 * i + 8..8 * i + 16];
      BoundariesAreStarts(parts, i);
    }
    forall i | 0 <= i < n ensures IsSlice(parts[i], frame, PartStart(parts, i), PartStart(parts, i + 1)) {
      SlicesAt(frame, b, i);
      BoundariesAreStarts(parts, i);
      BoundariesAreStarts(parts, i + 1);
    }
  }
}
