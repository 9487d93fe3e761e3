/** Encoding and decoding of Jupyter WebSocket messages (runtime/runner.py). */
module FrameCodec {
  import opened Prelude
  import opened JsonValues
  import opened ByteOrder
  import opened FrameLayout

  /** Why `json.loads(data.decode())` raises: no UTF-8 or no JSON, an integer with too many digits
      (a plain ValueError), or too deep a nesting (a RecursionError). */
  datatype LoadError = Malformed | TooLong | TooDeep

  /** Python's json and UTF-8 codecs and `str`; None stands for a UnicodeDecodeError. */
  datatype Codec = Codec(
    dumps: Json -> bytes,
    loads: bytes -> Result<Json, LoadError>,
    encode: string -> bytes,
    decode: bytes -> Option<string>,
    str: Json -> string)

  datatype Error = InfrastructureError | ValueError | StructError | RecursionError

  /** A decoded message: its JSON fields, and the `buffers` entry when it is a list of byte strings. */
  datatype Message = Message(fields: map<string, Json>, buffers: Option<seq<bytes>>)

  datatype Frame = Text(text: string) | Binary(data: bytes)

  /** _json_object: only malformed text and values that are no object become InfrastructureError. */
  function JsonObject(codec: Codec, data: bytes): Result<map<string, Json>, Error> {
    match codec.loads(data)
    case Err(Malformed) => Err(InfrastructureError)
    case Err(TooLong) => Err(ValueError)
    case Err(TooDeep) => Err(RecursionError)
    case Ok(value) => if value.Obj? then Ok(value.fields) else Err(InfrastructureError)
  }

  /** _decode_v1_message. */
  function DecodeV1(codec: Codec, frame: bytes): Result<Message, Error> {
    match SplitV1(frame)
    case None => Err(InfrastructureError)
    case Some(parts) =>
      JoinAfterSplitV1(frame);
      var channel := codec.decode(parts[0]);
      if channel.None? then Err(ValueError)
      else
        var header, parent := JsonObject(codec, parts[1]), JsonObject(codec, parts[2]);
        var metadata, content := JsonObject(codec, parts[3]), JsonObject(codec, parts[4]);
        if header.Err? then Err(header.error)
        else if parent.Err? then Err(parent.error)
        else if metadata.Err? then Err(metadata.error)
        else if content.Err? then Err(content.error)
        else
          Ok(Message(
               map["channel" := Str(channel.value), "header" := Obj(header.value),
                   "parent_header" := Obj(parent.value), "metadata" := Obj(metadata.value),
                   "content" := Obj(content.value)],
               Some(parts[5..])))
  }

  /** _decode_legacy_binary_message. */
  function DecodeLegacy(codec: Codec, frame: bytes): Result<Message, Error> {
    match SplitLegacy(frame)
    case None => Err(InfrastructureError)
    case Some(parts) =>
      match JsonObject(codec, parts[0])
      case Err(error) => Err(error)
      case Ok(fields) => Ok(Message(fields - {"buffers"}, Some(parts[1..])))
  }

  /** What the except clause of decode_message_frame catches. */
  predicate Caught(error: Error) {
    error.InfrastructureError? || error.ValueError? || error.StructError?
  }

  /** decode_message_frame. */
  function DecodeFrame(codec: Codec, frame: Frame): Result<Message, Error> {
    match frame
    case Text(text) =>
      (match JsonObject(codec, codec.encode(text))
       case Err(error) => Err(error)
       case Ok(fields) => Ok(Message(fields, None)))
    case Binary(data) =>
      var v1 := DecodeV1(codec, data);
      if v1.Err? && Caught(v1.error) then DecodeLegacy(codec, data) else v1
  }

  /** The dispatcher with the two formats tried the other way round. */
  function DecodeLegacyFirst(codec: Codec, data: bytes): Result<Message, Error> {
    var legacy := DecodeLegacy(codec, data);
    if legacy.Err? && Caught(legacy.error) then DecodeV1(codec, data) else legacy
  }

  /** The fallback never misreads a format: either order of trial decodes the same messages. */
  lemma OrderOfTrialIsIrrelevant(codec: Codec, data: bytes, message: Message)
    ensures DecodeFrame(codec, Binary(data)) == Ok(message) <==> DecodeLegacyFirst(codec, data) == Ok(message)
  {
    FormatsAreDisjoint(data);
  }

  /** The bytes are the text of a JSON object. */
  predicate IsObject(codec: Codec, data: bytes) {
    codec.loads(data).Ok? && codec.loads(data).value.Obj?
  }

  /** The first of the four JSON parts of a v1 frame that is no object makes `loads` raise `error`. */
  predicate FirstBadPart(codec: Codec, parts: seq<bytes>, error: LoadError)
    requires |parts| >= 5
  {
    exists n | 1 <= n <= 4 ::
      codec.loads(parts[n]) == Err(error) && forall i | 1 <= i < n :: IsObject(codec, parts[i])
  }

  /** The parts of a v1 frame are those of the message. */
  predicate ArePartsOf(codec: Codec, parts: seq<bytes>, m: Message) {
    && |parts| >= 5
    && m.fields.Keys == {"channel", "header", "parent_header", "metadata", "content"}
    && codec.decode(parts[0]).Some? && m.fields["channel"] == Str(codec.decode(parts[0]).value)
    && m.fields["header"].Obj? && codec.loads(parts[1]) == Ok(m.fields["header"])
    && m.fields["parent_header"].Obj? && codec.loads(parts[2]) == Ok(m.fields["parent_header"])
    && m.fields["metadata"].Obj? && codec.loads(parts[3]) == Ok(m.fields["metadata"])
    && m.fields["content"].Obj? && codec.loads(parts[4]) == Ok(m.fields["content"])
    && m.buffers == Some(parts[5..])
  }

  /** The frame is this message: as a text, in the v1 format, or in the legacy format. */
  predicate Spells(codec: Codec, frame: Frame, m: Message) {
    match frame
    case Text(text) => m.buffers.None? && codec.loads(codec.encode(text)) == Ok(Obj(m.fields))
    case Binary(data) =>
      || (SplitV1(data).Some? && ArePartsOf(codec, SplitV1(data).value, m))
      || (SplitLegacy(data).Some? && SplitLegacy(data).value != []
          && IsObject(codec, SplitLegacy(data).value[0])
          && m.fields == codec.loads(SplitLegacy(data).value[0]).value.fields - {"buffers"}
          && m.buffers == Some(SplitLegacy(data).value[1..]))
  }

  lemma V1SpellsExactly(codec: Codec, data: bytes, m: Message)
    requires SplitV1(data).Some?
    ensures DecodeV1(codec, data) == Ok(m) <==> ArePartsOf(codec, SplitV1(data).value, m)
  {
    hide SplitV1;
    JoinAfterSplitV1(data);
    var parts := SplitV1(data).value;
    if ArePartsOf(codec, parts, m) {
      assert DecodeV1(codec, data).Ok?;
      assert DecodeV1(codec, data).value.fields == m.fields;
    }
  }

  /** A frame decodes to a message if and only if it spells that message: a text frame to the object it is the JSON
      text of, a binary frame to the parts of its layout. */
  lemma FrameSpellsMessage(codec: Codec, frame: Frame, m: Message)
    ensures DecodeFrame(codec, frame) == Ok(m) <==> Spells(codec, frame, m)
  {
    hide SplitV1, SplitLegacy, DecodeV1, ArePartsOf;
    if frame.Binary? {
      FormatsAreDisjoint(frame.data);
      if SplitV1(frame.data).Some? {
        V1SpellsExactly(codec, frame.data, m);
        LegacyRefuses(codec, frame.data);
      } else {
        V1Refuses(codec, frame.data);
      }
    }
  }

  lemma LegacyRefuses(codec: Codec, data: bytes)
    requires SplitLegacy(data).None?
    ensures DecodeLegacy(codec, data) == Err(InfrastructureError)
  {
  }

  lemma V1Refuses(codec: Codec, data: bytes)
    requires SplitV1(data).None?
    ensures DecodeV1(codec, data) == Err(InfrastructureError)
  {
  }

  /** The text is no JSON, or not the JSON text of an object. */
  predicate NoObject(codec: Codec, data: bytes) {
    codec.loads(data) == Err(Malformed) || (codec.loads(data).Ok? && !codec.loads(data).value.Obj?)
  }

  /** The channel of a v1 frame is no text, or the first of its JSON parts that is no object is not nested too
      deeply. */
  predicate BadParts(codec: Codec, parts: seq<bytes>)
    requires |parts| >= 5
  {
    || codec.decode(parts[0]).None?
    || exists n | 1 <= n <= 4 ::
         !IsObject(codec, parts[n]) && codec.loads(parts[n]) != Err(TooDeep)
         && forall i | 1 <= i < n :: IsObject(codec, parts[i])
  }

  lemma V1RefusesParts(codec: Codec, data: bytes)
    requires SplitV1(data).Some? && |SplitV1(data).value| >= 5
    ensures var r := DecodeV1(codec, data);
            r.Err? && Caught(r.error) <==> BadParts(codec, SplitV1(data).value)
  {
    hide SplitV1;
    var parts := SplitV1(data).value;
    if IsObject(codec, parts[1]) {
      if IsObject(codec, parts[2]) {
        if IsObject(codec, parts[3]) {
          assert IsObject(codec, parts[4]) || !IsObject(codec, parts[4]);
        }
      }
    }
  }

  /** Exactly these frames raise InfrastructureError: a text that is no object, where a text decides; a binary frame
      in neither layout; a v1 frame with a bad channel or JSON part. */
  lemma RefusalsAreExact(codec: Codec, frame: Frame)
    ensures DecodeFrame(codec, frame) == Err(InfrastructureError) <==>
            || (PlainText(codec, frame).Some? && NoObject(codec, PlainText(codec, frame).value))
            || (frame.Binary? && SplitV1(frame.data).None? && SplitLegacy(frame.data).None?)
            || (frame.Binary? && SplitV1(frame.data).Some? && BadParts(codec, SplitV1(frame.data).value))
  {
    hide SplitV1, SplitLegacy, BadParts, DecodeV1;
    if frame.Binary? {
      FormatsAreDisjoint(frame.data);
      if SplitV1(frame.data).Some? {
        JoinAfterSplitV1(frame.data);
        V1RefusesParts(codec, frame.data);
        LegacyRefuses(codec, frame.data);
      } else {
        V1Refuses(codec, frame.data);
      }
    }
  }

  /** The text that decides a frame without a readable v1 layout: all of a text frame, the first part of a
      legacy frame. */
  function PlainText(codec: Codec, frame: Frame): Option<bytes> {
    match frame
    case Text(text) => Some(codec.encode(text))
    case Binary(data) => if SplitLegacy(data).Some? then Some(SplitLegacy(data).value[0]) else None
  }

  lemma FirstBadPartEscapes(codec: Codec, frame: bytes)
    requires SplitV1(frame).Some? && |SplitV1(frame).value| >= 5
    ensures var parts := SplitV1(frame).value;
            DecodeV1(codec, frame) == Err(RecursionError)
            <==> codec.decode(parts[0]).Some? && FirstBadPart(codec, parts, TooDeep)
  {
    hide SplitV1, SplitLegacy;
    var parts := SplitV1(frame).value;
    assert JsonObject(codec, parts[1]) == Err(RecursionError) ==> codec.loads(parts[1]) == Err(TooDeep);
    assert JsonObject(codec, parts[2]) == Err(RecursionError) ==> codec.loads(parts[2]) == Err(TooDeep);
    assert JsonObject(codec, parts[3]) == Err(RecursionError) ==> codec.loads(parts[3]) == Err(TooDeep);
    assert JsonObject(codec, parts[4]) == Err(RecursionError) ==> codec.loads(parts[4]) == Err(TooDeep);
  }

  /** Decoding is total, and exactly these frames make it raise something else than InfrastructureError: an
      integer that is too long outside the v1 format, and a nesting that is too deep in either format. */
  lemma OnlyOddJsonEscapes(codec: Codec, frame: Frame)
    ensures var r, text := DecodeFrame(codec, frame), PlainText(codec, frame);
            && r != Err(StructError)
            && (r == Err(ValueError) <==> text.Some? && codec.loads(text.value) == Err(TooLong))
            && (r == Err(RecursionError) <==>
                  || (text.Some? && codec.loads(text.value) == Err(TooDeep))
                  || (frame.Binary? && SplitV1(frame.data).Some?
                      && codec.decode(SplitV1(frame.data).value[0]).Some?
                      && FirstBadPart(codec, SplitV1(frame.data).value, TooDeep)))
  {
    hide SplitLegacy, FirstBadPart;
    if frame.Binary? {
      FormatsAreDisjoint(frame.data);
      if SplitV1(frame.data).Some? {
        JoinAfterSplitV1(frame.data);
        FirstBadPartEscapes(codec, frame.data);
      }
    }
  }

  // ---- encoding ----

  datatype BufferArgument = NotGiven | NotAList | Buffers(list: seq<bytes>)

  datatype Outgoing = Outgoing(fields: map<string, Json>, buffers: BufferArgument)

  function BuffersOf(message: Outgoing): seq<bytes> {
    if message.buffers.Buffers? then message.buffers.list else []
  }

  const NO_FIELDS := Obj(map[])

  function Parts(codec: Codec, message: Outgoing): (parts: seq<bytes>)
    ensures |parts| == 5 + |BuffersOf(message)|
  {
    [codec.encode(codec.str(GetOr(message.fields, "channel", Str("shell")))),
     codec.dumps(GetOr(message.fields, "header", NO_FIELDS)),
     codec.dumps(GetOr(message.fields, "parent_header", NO_FIELDS)),
     codec.dumps(GetOr(message.fields, "metadata", NO_FIELDS)),
     codec.dumps(GetOr(message.fields, "content", NO_FIELDS))] + BuffersOf(message)
  }

  lemma {:induction false} BoundariesAppend(start: nat, parts: seq<bytes>, part: bytes)
    ensures var b := Boundaries(start, parts);
            Boundaries(start, parts + [part]) == b + [b[|parts|] + |part|]
    decreases |parts|
  {
    if parts != [] {
      BoundariesAppend(start + |parts[0]|, parts[1..], part);
      assert (parts + [part])[1..] == parts[1..] + [part];
    } else {
      assert (parts + [part])[1..] == [];
    }
  }

  /** The text of the channel, the JSON texts of the four fields, and the buffers; "shell" and empty objects stand
      for missing fields. */
  predicate AreEncoded(codec: Codec, message: Outgoing, parts: seq<bytes>) {
    && |parts| >= 5
    && parts[0] == codec.encode(codec.str(
                       if "channel" in message.fields then message.fields["channel"] else Str("shell")))
    && IsEncoded(codec, message, "header", parts[1]) && IsEncoded(codec, message, "parent_header", parts[2])
    && IsEncoded(codec, message, "metadata", parts[3]) && IsEncoded(codec, message, "content", parts[4])
    && parts[5..] == if message.buffers.Buffers? then message.buffers.list else []
  }

  predicate IsEncoded(codec: Codec, message: Outgoing, key: string, part: bytes) {
    part == codec.dumps(if key in message.fields then message.fields[key] else Obj(map[]))
  }

  /** The frame is, byte by byte, a v1 frame of the encoded parts of the message. */
  ghost predicate HoldsMessage(codec: Codec, message: Outgoing, frame: bytes) {
    exists parts :: AreEncoded(codec, message, parts) && IsV1Frame(frame, parts)
  }

  lemma FrameHoldsParts(codec: Codec, message: Outgoing)
    requires |JoinV1(Parts(codec, message))| < LITTLE_U64.Limit()
    ensures HoldsMessage(codec, message, JoinV1(Parts(codec, message)))
  {
    hide IsV1Frame, AreEncoded, JoinV1;
    V1FrameIsExact(Parts(codec, message));
    PartsAreEncoded(codec, message);
  }

  /** encode_v1_message. */
  method EncodeV1Message(codec: Codec, message: Outgoing) returns (r: Result<bytes, Error>)
    ensures r == if message.buffers.NotAList? then Err(InfrastructureError)
                 else if |JoinV1(Parts(codec, message))| >= LITTLE_U64.Limit() then Err(StructError)
                 else Ok(JoinV1(Parts(codec, message)))
    ensures r.Ok? ==> HoldsMessage(codec, message, r.value)
  {
    hide HoldsMessage;
    if message.buffers.NotAList? {
      return Err(InfrastructureError);
    }
    var parts := Parts(codec, message);
    var offsetCount := |parts| + 1;
    var headerSize := 8 * (offsetCount + 1);
    var offsets: seq<nat> := [headerSize];
    for i := 0 to |parts|
      invariant offsets == Boundaries(headerSize, parts[..i])
    {
      BoundariesAppend(headerSize, parts[..i], parts[i]);
      assert parts[..i + 1] == parts[..i] + [parts[i]];
      offsets := offsets + [offsets[|offsets| - 1] + |parts[i]|];
    }
    assert parts[..|parts|] == parts;
    BoundariesAscend(headerSize, parts);
    JoinV1Length(parts);
    if offsets[|offsets| - 1] >= LITTLE_U64.Limit() {
      return Err(StructError);
    }
    r := Ok(LITTLE_U64.Pack(offsetCount) + Table(LITTLE_U64, offsets) + Concat(parts));
    FrameHoldsParts(codec, message);
  }

  lemma PartsAreEncoded(codec: Codec, message: Outgoing)
    ensures AreEncoded(codec, message, Parts(codec, message))
  {
    assert Parts(codec, message)[5..] == BuffersOf(message);
  }

  /** The message a receiver should get: the six fields, with the encoder's defaults filled in. */
  function Expected(codec: Codec, message: Outgoing): Message {
    Message(
      map["channel" := Str(codec.str(GetOr(message.fields, "channel", Str("shell")))),
          "header" := GetOr(message.fields, "header", NO_FIELDS),
          "parent_header" := GetOr(message.fields, "parent_header", NO_FIELDS),
          "metadata" := GetOr(message.fields, "metadata", NO_FIELDS),
          "content" := GetOr(message.fields, "content", NO_FIELDS)],
      Some(BuffersOf(message)))
  }

  predicate HasObjectFields(message: Outgoing) {
    && GetOr(message.fields, "header", NO_FIELDS).Obj?
    && GetOr(message.fields, "parent_header", NO_FIELDS).Obj?
    && GetOr(message.fields, "metadata", NO_FIELDS).Obj?
    && GetOr(message.fields, "content", NO_FIELDS).Obj?
  }

  /** Whether the legacy layout checks accept a v1 frame can be read off the eight bytes of its count. */
  predicate CountLooksLegacy(count: nat) {
    var head := LITTLE_U64.Pack(count);
    var n := BIG_U32.Unpack(head[..4]);
    1 <= n <= LEGACY_MAX && BIG_U32.Unpack(head[4..]) == 4 * (n + 1)
  }

  lemma LegacyLayoutOfV1Frame(parts: seq<bytes>)
    requires 5 <= |parts| && |JoinV1(parts)| < LITTLE_U64.Limit()
    ensures SplitLegacy(JoinV1(parts)).Some? <==> CountLooksLegacy(|parts| + 1)
  {
    var frame := JoinV1(parts);
    var head := LITTLE_U64.Pack(|parts| + 1);
    JoinV1Length(parts);
    assert frame[..4] == head[..4];
    var n := BIG_U32.Unpack(head[..4]);
    BIG_U32.SizeIsProduct(n);
    assert frame[4..][..4] == head[4..];
    if CountLooksLegacy(|parts| + 1) {
      LITTLE_U64.RoundTrip(|parts| + 1);
      SmallBigCount(head[..4]);
      if |parts| < 1000 { SmallLittleCount(head); }
    }
  }

  lemma EightLittle(b: bytes)
    requires |b| == 8
    ensures UnpackLittle(b) == Four(b[0], b[1], b[2], b[3]) + 0x1_0000_0000 * UnpackLittle(b[4..])
  {
    var b1, b2, b3 := b[1..], b[2..], b[3..];
    assert b1[1..] == b2 && b2[1..] == b3 && b3[1..] == b[4..];
  }

  /** 2^48 + 63 * 2^24: it reads as 63 legacy parts whose table ends at byte 256. */
  const SMALLEST_LEGACY_COUNT := 0x0001_0000_3F00_0000

  lemma LegacyHeadIsLarge(b: bytes, n: nat)
    requires |b| == 8 && 1 <= n <= LEGACY_MAX
    requires Four(b[3], b[2], b[1], b[0]) == n && Four(b[7], b[6], b[5], b[4]) == 4 * (n + 1)
    ensures Four(b[0], b[1], b[2], b[3]) + 0x1_0000_0000 * Four(b[4], b[5], b[6], b[7]) >= SMALLEST_LEGACY_COUNT
  {
    assert b[0] == 0 && b[1] == 0 && b[4] == 0 && b[5] == 0;
    assert b[6] == 1 && b[7] == 0 ==> n == 63;
    assert b[6] == 0 ==> b[7] > 0;
  }

  /** No smaller count passes for the head of a legacy frame. */
  lemma SmallCountsNeverLookLegacy(count: nat)
    requires count < SMALLEST_LEGACY_COUNT
    ensures !CountLooksLegacy(count)
  {
    RangeOfEight();
    LITTLE_U64.RoundTrip(count);
    var head := LITTLE_U64.Pack(count);
    if CountLooksLegacy(count) {
      HeadOfLegacyCount(head, UnpackBig(head[..4]));
    }
  }

  lemma HeadOfLegacyCount(head: bytes, n: nat)
    requires |head| == 8 && 1 <= n <= LEGACY_MAX
    requires UnpackBig(head[..4]) == n && UnpackBig(head[4..]) == 4 * (n + 1)
    ensures UnpackLittle(head) >= SMALLEST_LEGACY_COUNT
  {
    EightLittle(head);
    FourLittle(head[4..]);
    FourBig(head[..4]);
    FourBig(head[4..]);
    LegacyHeadIsLarge(head, n);
  }

  lemma RangeOfEight()
    ensures LITTLE_U64.Limit() == 0x1_0000_0000_0000_0000
  {
    assert Range(4) == 0x1_0000_0000;
    assert Range(6) == 0x1_0000_0000_0000;
    assert Range(8) == 0x1_0000_0000_0000_0000;
  }

  /** The count itself does. */
  lemma SmallestLegacyCountLooksLegacy()
    ensures LITTLE_U64.Pack(SMALLEST_LEGACY_COUNT) == [0, 0, 0, 63, 0, 0, 1, 0]
    ensures CountLooksLegacy(SMALLEST_LEGACY_COUNT)
  {
    hide PackLittle, PackBig, Range;
    var head: bytes := [0, 0, 0, 63, 0, 0, 1, 0];
    EightLittle(head);
    FourLittle(head[4..]);
    LITTLE_U64.RoundTripBack(head);
    FourBig(head[..4]);
    FourBig(head[4..]);
  }

  /** The legacy layout checks accept the frame, and its first legacy part is a JSON object. */
  predicate ReadsAsLegacy(codec: Codec, frame: bytes) {
    SplitLegacy(frame).Some? && JsonObject(codec, SplitLegacy(frame).value[0]).Ok?
  }

  /** The codec reads back this JSON value. */
  predicate ReadsBack(codec: Codec, value: Json) {
    codec.loads(codec.dumps(value)) == Ok(value)
  }

  /** The codec reads back the channel and the four JSON fields of this message. */
  predicate FieldsReadBack(codec: Codec, message: Outgoing) {
    var channel := codec.str(GetOr(message.fields, "channel", Str("shell")));
    && codec.decode(codec.encode(channel)) == Some(channel)
    && ReadsBack(codec, GetOr(message.fields, "header", NO_FIELDS))
    && ReadsBack(codec, GetOr(message.fields, "parent_header", NO_FIELDS))
    && ReadsBack(codec, GetOr(message.fields, "metadata", NO_FIELDS))
    && ReadsBack(codec, GetOr(message.fields, "content", NO_FIELDS))
  }

  /** Up to 994 buffers, decoding an encoded message gives its six fields back exactly when the codec reads them
      back and the four are objects; a field that is read back but is no object is an InfrastructureError. With
      more buffers decoding fails exactly when the count bytes do not look like the head of a legacy frame or the
      first legacy part is no JSON object; below the smallest count that looks legacy the failure is always an
      InfrastructureError. */
  lemma EncodedMessageRoundTrip(codec: Codec, message: Outgoing)
    requires |JoinV1(Parts(codec, message))| < LITTLE_U64.Limit()
    ensures var frame, count := JoinV1(Parts(codec, message)), |BuffersOf(message)| + 6;
            var decoded := DecodeFrame(codec, Binary(frame));
            if |BuffersOf(message)| <= 994 then
              && (decoded == Ok(Expected(codec, message)) <==>
                    FieldsReadBack(codec, message) && HasObjectFields(message))
              && (FieldsReadBack(codec, message) && !HasObjectFields(message) ==> decoded == Err(InfrastructureError))
            else
              && (decoded.Err? <==> !CountLooksLegacy(count) || !ReadsAsLegacy(codec, frame))
              && (!CountLooksLegacy(count) ==> decoded == Err(InfrastructureError))
              && (count < SMALLEST_LEGACY_COUNT ==> decoded == Err(InfrastructureError))
  {
    var parts := Parts(codec, message);
    SplitAfterJoinV1(parts);
    LegacyLayoutOfV1Frame(parts);
    if |parts| + 1 < SMALLEST_LEGACY_COUNT {
      SmallCountsNeverLookLegacy(|parts| + 1);
    }
    if |parts| <= 999 {
      FormatsAreDisjoint(JoinV1(parts));
      DecodesFields(codec, message);
    }
  }

  lemma DecodesFields(codec: Codec, message: Outgoing)
    requires SplitV1(JoinV1(Parts(codec, message))) == Some(Parts(codec, message))
    ensures var decoded := DecodeV1(codec, JoinV1(Parts(codec, message)));
            && (decoded == Ok(Expected(codec, message)) <==> FieldsReadBack(codec, message) && HasObjectFields(message))
            && (FieldsReadBack(codec, message) && !HasObjectFields(message) ==> decoded == Err(InfrastructureError))
  {
    hide SplitV1, JoinV1;
    var parts := Parts(codec, message);
    assert parts[5..] == BuffersOf(message);
    var decoded := DecodeV1(codec, JoinV1(parts));
    if decoded == Ok(Expected(codec, message)) {
      var got, sent := decoded.value.fields, Expected(codec, message).fields;
      assert got["channel"] == sent["channel"] && got["header"] == sent["header"];
      assert got["parent_header"] == sent["parent_header"];
      assert got["metadata"] == sent["metadata"] && got["content"] == sent["content"];
    }
  }

  /** A well-formed legacy frame decodes to its JSON object and its remaining parts when the codec reads the object
      back. */
  lemma LegacyRoundTrip(codec: Codec, fields: map<string, Json>, buffers: seq<bytes>)
    requires |buffers| < LEGACY_MAX
    requires |JoinLegacy([codec.dumps(Obj(fields))] + buffers)| < BIG_U32.Limit()
    requires ReadsBack(codec, Obj(fields))
    ensures DecodeFrame(codec, Binary(JoinLegacy([codec.dumps(Obj(fields))] + buffers)))
            == Ok(Message(fields - {"buffers"}, Some(buffers)))
  {
    var parts := [codec.dumps(Obj(fields))] + buffers;
    SplitAfterJoinLegacy(parts);
    FormatsAreDisjoint(JoinLegacy(parts));
    assert parts[1..] == buffers;
  }

  // ---- frames that raise something else ----

  function Times(text: string, n: nat): string {
    if n == 0 then "" else text + Times(text, n - 1)
  }

  /** An object with an integer of 4301 digits: one more than Python converts. */
  function LongObject(): string {
    "{\"a\":" + Times("1", 4301) + "}"
  }

  /** An object with arrays nested deeper than Python's recursion limit. */
  function DeepObject(): string {
    "{\"a\":" + Times("[", 100_000) + Times("]", 100_000) + "}"
  }

  /** A v1 frame with the given content and otherwise empty fields. */
  function FrameWithContent(codec: Codec, content: bytes): bytes {
    JoinV1([codec.encode("shell"), codec.encode("{}"), codec.encode("{}"), codec.encode("{}"), content])
  }

  lemma HowFramesRaise(codec: Codec, text: string, error: LoadError)
    requires codec.loads(codec.encode(text)) == Err(error) && codec.loads(codec.encode("{}")) == Ok(NO_FIELDS)
    requires codec.decode(codec.encode("shell")).Some?
    requires |JoinLegacy([codec.encode(text)])| < BIG_U32.Limit()
    requires |FrameWithContent(codec, codec.encode(text))| < LITTLE_U64.Limit()
    ensures var data, raised := codec.encode(text), JsonObject(codec, codec.encode(text)).error;
            && DecodeFrame(codec, Text(text)) == Err(raised)
            && DecodeFrame(codec, Binary(JoinLegacy([data]))) == Err(raised)
            && DecodeFrame(codec, Binary(FrameWithContent(codec, data)))
               == Err(if raised.RecursionError? then raised else InfrastructureError)
  {
    hide SplitV1, SplitLegacy, JoinV1, JoinLegacy;
    var data := codec.encode(text);
    SplitAfterJoinLegacy([data]);
    FormatsAreDisjoint(JoinLegacy([data]));
    SplitAfterJoinV1([codec.encode("shell"), codec.encode("{}"), codec.encode("{}"), codec.encode("{}"), data]);
    FormatsAreDisjoint(FrameWithContent(codec, data));
  }

  /** The decoder raises a plain ValueError for a text frame and a legacy frame with an integer that is too long,
      though not for a v1 frame with it, and a RecursionError for all three with too deep a nesting. */
  lemma SomeFramesRaiseOtherErrors(codec: Codec)
    requires codec.loads(codec.encode("{}")) == Ok(NO_FIELDS) && codec.decode(codec.encode("shell")).Some?
    requires codec.loads(codec.encode(LongObject())) == Err(TooLong)
    requires codec.loads(codec.encode(DeepObject())) == Err(TooDeep)
    requires |codec.encode(LongObject())| < 0x100_0000 && |codec.encode(DeepObject())| < 0x100_0000
    requires |codec.encode("{}")| < 0x100 && |codec.encode("shell")| < 0x100
    ensures var long, deep := codec.encode(LongObject()), codec.encode(DeepObject());
            && DecodeFrame(codec, Text(LongObject())) == Err(ValueError)
            && DecodeFrame(codec, Binary(JoinLegacy([long]))) == Err(ValueError)
            && DecodeFrame(codec, Binary(FrameWithContent(codec, long))) == Err(InfrastructureError)
            && DecodeFrame(codec, Text(DeepObject())) == Err(RecursionError)
            && DecodeFrame(codec, Binary(JoinLegacy([deep]))) == Err(RecursionError)
            && DecodeFrame(codec, Binary(FrameWithContent(codec, deep))) == Err(RecursionError)
  {
    hide LongObject, DeepObject, DecodeFrame, JoinLegacy, FrameWithContent;
    FramesFit(codec, codec.encode(LongObject()));
    FramesFit(codec, codec.encode(DeepObject()));
    HowFramesRaise(codec, LongObject(), TooLong);
    HowFramesRaise(codec, DeepObject(), TooDeep);
  }

  lemma FramesFit(codec: Codec, data: bytes)
    requires |data| < 0x100_0000 && |codec.encode("{}")| < 0x100 && |codec.encode("shell")| < 0x100
    ensures |JoinLegacy([data])| < BIG_U32.Limit()
    ensures |FrameWithContent(codec, data)| < LITTLE_U64.Limit()
  {
    RangeOfEight();
    JoinLegacyLength([data]);
    LengthOfOne(data);
    var shell, empty := codec.encode("shell"), codec.encode("{}");
    JoinV1Length([shell, empty, empty, empty, data]);
    LengthOfFive(shell, empty, data);
  }

  lemma LengthOfOne(data: bytes)
    ensures |Concat([data])| == |data|
  {
    assert [data][1..] == [];
  }

  lemma LengthOfFive(shell: bytes, empty: bytes, data: bytes)
    ensures |Concat([shell, empty, empty, empty, data])| == |shell| + 3 * |empty| + |data|
  {
    LengthOfOne(data);
    assert [empty, data][1..] == [data] && [empty, empty, data][1..] == [empty, data];
    assert [empty, empty, empty, data][1..] == [empty, empty, data];
    assert [shell, empty, empty, empty, data][1..] == [empty, empty, empty, data];
    assert |Concat([empty, data])| == |empty| + |data|;
    assert |Concat([empty, empty, data])| == 2 * |empty| + |data|;
    assert |Concat([empty, empty, empty, data])| == 3 * |empty| + |data|;
  }
}
