/** The receive loop of JupyterSessionRunner.run (runtime/runner.py). */
module ReceiveLoop {
  import opened Prelude
  import opened JsonValues
  import opened ByteOrder
  import opened FrameLayout
  import opened FrameCodec
  import opened CollectorMeaning
  import opened Collector
  import opened Confluence

  /** What the awaits of the loop yield, in order. */
  datatype Event = Received(frame: Frame) | TimedOut | ConnectionClosed | OtherFailure

  /** The event is a frame that decodes to a message the collector accepts. */
  predicate Readable(codec: Codec, requestMsgId: string, e: Event) {
    && e.Received?
    && var m := DecodeFrame(codec, e.frame);
       m.Ok? && (Related(requestMsgId, m.value) ==> WellFormed(m.value))
  }

  ghost predicate AllReadable(codec: Codec, requestMsgId: string, events: seq<Event>) {
    forall i | 0 <= i < |events| :: Readable(codec, requestMsgId, events[i])
  }

  /** The related messages among readable events. */
  ghost function SignalsOf(codec: Codec, requestMsgId: string, events: seq<Event>): seq<Signal>
    requires AllReadable(codec, requestMsgId, events)
  {
    if events == [] then []
    else
      var init, last := events[..|events| - 1], DecodeFrame(codec, events[|events| - 1].frame).value;
      SignalsOf(codec, requestMsgId, init)
      + if Related(requestMsgId, last) then [SignalOf(codec, last)] else []
  }

  /** The loop read the events before `n`, of which no proper prefix completes the request; it ends with
      the result of what it read, or with the error of the event it could not use. */
  ghost predicate Outcome(
    codec: Codec, requestMsgId: string, timeoutSeconds: int, events: seq<Event>,
    r: Result<ExecutionResult, RunError>, n: nat)
  {
    && n <= |events|
    && AllReadable(codec, requestMsgId, events[..n])
    && (forall j | 0 <= j < n ::
          AllReadable(codec, requestMsgId, events[..j]) && !Complete(SignalsOf(codec, requestMsgId, events[..j])))
    && var h := SignalsOf(codec, requestMsgId, events[..n]);
       if Complete(h) then r == ResultOf(h)
       else
         var stop := if n < |events| then events[n] else TimedOut;
         !Readable(codec, requestMsgId, stop)
         && r == Err(if stop.TimedOut? then
                       CodeError(
                         "ExecutionTimeout", "Step exceeded " + codec.str(Int(timeoutSeconds)) + " seconds", None)
                     else Protocol)
  }

  /** run, after the request is sent: receives until reply and idle have both arrived. An endless silence
      is a timeout, so running out of events counts as one. */
  method Run(codec: Codec, requestMsgId: string, timeoutSeconds: int, events: seq<Event>)
    returns (r: Result<ExecutionResult, RunError>, n: nat)
    ensures Outcome(codec, requestMsgId, timeoutSeconds, events, r, n)
  {
    hide JupyterMessageCollector.Valid, JupyterMessageCollector.IsComplete, Complete, ResultOf;
    hide DecodeFrame, SignalOf, Related;
    var collector := new JupyterMessageCollector(codec, requestMsgId);
    n := 0;
    while !collector.IsComplete()
      invariant n <= |events| && collector.Valid()
      invariant collector.codec == codec && collector.requestMsgId == requestMsgId
      invariant fresh(collector)
      invariant AllReadable(codec, requestMsgId, events[..n])
      invariant collector.signals == SignalsOf(codec, requestMsgId, events[..n])
      invariant forall j | 0 <= j < n ::
                  && AllReadable(codec, requestMsgId, events[..j])
                  && !Complete(SignalsOf(codec, requestMsgId, events[..j]))
      decreases |events| - n
    {
      var e := if n < |events| then events[n] else TimedOut;
      if e.TimedOut? {
        return Err(CodeError(
                     "ExecutionTimeout", "Step exceeded " + codec.str(Int(timeoutSeconds)) + " seconds", None)), n;
      }
      if !e.Received? {
        return Err(Protocol), n;
      }
      var message := DecodeFrame(codec, e.frame);
      if message.Err? {
        return Err(Protocol), n;
      }
      var collected := collector.Collect(message.value);
      if collected.Err? {
        return Err(Protocol), n;
      }
      assert events[..n + 1][..n] == events[..n];
      assert events[..n + 1] == events[..n] + [e];
      n := n + 1;
    }
    r := collector.BuildResult();
  }

  lemma PrefixSignals(codec: Codec, requestMsgId: string, events: seq<Event>, n: nat)
    requires AllReadable(codec, requestMsgId, events) && n <= |events|
    ensures AllReadable(codec, requestMsgId, events[..n])
    ensures SignalsOf(codec, requestMsgId, events[..n]) <= SignalsOf(codec, requestMsgId, events)
    decreases |events| - n
  {
    if n < |events| {
      var prefix := events[..n + 1];
      assert prefix[..n] == events[..n];
      PrefixSignals(codec, requestMsgId, events, n + 1);
    } else {
      assert events[..n] == events;
    }
  }

  /** With unrelated messages anywhere and the reply anywhere in the IOPub sequence, the loop ends exactly
      when it has consumed both channels, with the result of the whole interleaving. */
  lemma LoopConsumesBothChannels(
    codec: Codec, requestMsgId: string, timeoutSeconds: int, events: seq<Event>,
    r: Result<ExecutionResult, RunError>, n: nat, io: seq<Signal>, reply: Signal, k: nat)
    requires Outcome(codec, requestMsgId, timeoutSeconds, events, r, n)
    requires Channel(io) && reply.Reply? && k <= |io|
    requires AllReadable(codec, requestMsgId, events)
    requires SignalsOf(codec, requestMsgId, events) == Interleave(io, reply, k)
    ensures SignalsOf(codec, requestMsgId, events[..n]) == Interleave(io, reply, k)
    ensures r == ResultOf(Interleave(io, reply, k))
  {
    var h := Interleave(io, reply, k);
    PrefixSignals(codec, requestMsgId, events, n);
    var got := SignalsOf(codec, requestMsgId, events[..n]);
    assert got == h[..|got|];
    CompletesAtTheEnd(io, reply, k, |got|);
    if n == |events| {
      assert events[..n] == events;
    }
  }

  /** Two runs over the same two channels end with the same result or error, however the channels and the
      unrelated traffic interleave, when reply and IOPub agree. */
  lemma RunsAreConfluent(
    codec: Codec, requestMsgId: string, timeoutSeconds: int, io: seq<Signal>, reply: Signal,
    events1: seq<Event>, r1: Result<ExecutionResult, RunError>, n1: nat, k1: nat,
    events2: seq<Event>, r2: Result<ExecutionResult, RunError>, n2: nat, k2: nat)
    requires Channel(io) && reply.Reply? && Agree(io, reply) && k1 <= |io| && k2 <= |io|
    requires AllReadable(codec, requestMsgId, events1) && AllReadable(codec, requestMsgId, events2)
    requires SignalsOf(codec, requestMsgId, events1) == Interleave(io, reply, k1)
    requires SignalsOf(codec, requestMsgId, events2) == Interleave(io, reply, k2)
    requires Outcome(codec, requestMsgId, timeoutSeconds, events1, r1, n1)
    requires Outcome(codec, requestMsgId, timeoutSeconds, events2, r2, n2)
    ensures r1 == r2
  {
    LoopConsumesBothChannels(codec, requestMsgId, timeoutSeconds, events1, r1, n1, io, reply, k1);
    LoopConsumesBothChannels(codec, requestMsgId, timeoutSeconds, events2, r2, n2, io, reply, k2);
    ResultsAreConfluent(io, reply);
  }

  // ---- the framing of the messages ----

  /** Two frames with a message each, of the same header, parent header and content. */
  predicate SameMessage(codec: Codec, f: Frame, g: Frame) {
    var a, b := DecodeFrame(codec, f), DecodeFrame(codec, g);
    a.Ok? && b.Ok? && SameParts(a.value, b.value)
  }

  predicate SameParts(a: Message, b: Message) {
    && GetOr(a.fields, "header", NO_FIELDS) == GetOr(b.fields, "header", NO_FIELDS)
    && GetOr(a.fields, "parent_header", NO_FIELDS) == GetOr(b.fields, "parent_header", NO_FIELDS)
    && GetOr(a.fields, "content", NO_FIELDS) == GetOr(b.fields, "content", NO_FIELDS)
  }

  predicate SameEvent(codec: Codec, e: Event, f: Event) {
    e == f || (e.Received? && f.Received? && SameMessage(codec, e.frame, f.frame))
  }

  /** A message as a text frame and as a v1 frame; the channel, the metadata and the buffers do not matter. */
  lemma TextAndV1AreSame(codec: Codec, message: Outgoing, text: string)
    requires codec.loads(codec.encode(text)) == Ok(Obj(message.fields))
    requires |BuffersOf(message)| <= 994 && |JoinV1(Parts(codec, message))| < LITTLE_U64.Limit()
    requires FieldsReadBack(codec, message) && HasObjectFields(message)
    ensures SameMessage(codec, Text(text), Binary(JoinV1(Parts(codec, message))))
  {
    hide JoinV1, DecodeFrame, Spells;
    EncodedMessageRoundTrip(codec, message);
    TextDecodes(codec, text, message.fields);
    assert SameParts(Message(message.fields, None), Expected(codec, message));
  }

  lemma TextDecodes(codec: Codec, text: string, fields: map<string, Json>)
    ensures DecodeFrame(codec, Text(text)) == Ok(Message(fields, None))
            <==> codec.loads(codec.encode(text)) == Ok(Obj(fields))
  {
    hide DecodeFrame;
    FrameSpellsMessage(codec, Text(text), Message(fields, None));
  }

  /** A message as a text frame and as a well-formed legacy frame. */
  lemma TextAndLegacyAreSame(codec: Codec, fields: map<string, Json>, buffers: seq<bytes>, text: string)
    requires codec.loads(codec.encode(text)) == Ok(Obj(fields)) && ReadsBack(codec, Obj(fields))
    requires |buffers| < LEGACY_MAX
    requires |JoinLegacy([codec.dumps(Obj(fields))] + buffers)| < BIG_U32.Limit()
    ensures SameMessage(codec, Text(text), Binary(JoinLegacy([codec.dumps(Obj(fields))] + buffers)))
  {
    hide DecodeFrame, JoinLegacy;
    LegacyRoundTrip(codec, fields, buffers);
    TextDecodes(codec, text, fields);
    assert SameParts(Message(fields, None), Message(fields - {"buffers"}, Some(buffers)));
  }

  lemma SameEventsReadAlike(codec: Codec, requestMsgId: string, e: Event, f: Event)
    requires SameEvent(codec, e, f)
    ensures Readable(codec, requestMsgId, e) <==> Readable(codec, requestMsgId, f)
    ensures e.TimedOut? <==> f.TimedOut?
    ensures Readable(codec, requestMsgId, e) ==>
              var a, b := DecodeFrame(codec, e.frame).value, DecodeFrame(codec, f.frame).value;
              (Related(requestMsgId, a) <==> Related(requestMsgId, b))
              && (Related(requestMsgId, a) ==> SignalOf(codec, a) == SignalOf(codec, b))
  {
    hide DecodeFrame, SignalFrom, GetOr;
  }

  ghost predicate SameEvents(codec: Codec, events1: seq<Event>, events2: seq<Event>) {
    |events1| == |events2| && forall i | 0 <= i < |events1| :: SameEvent(codec, events1[i], events2[i])
  }

  lemma {:induction false} SameEventsGiveSameSignals(
    codec: Codec, requestMsgId: string, events1: seq<Event>, events2: seq<Event>)
    requires SameEvents(codec, events1, events2)
    ensures AllReadable(codec, requestMsgId, events1) <==> AllReadable(codec, requestMsgId, events2)
    ensures AllReadable(codec, requestMsgId, events1) ==>
              SignalsOf(codec, requestMsgId, events1) == SignalsOf(codec, requestMsgId, events2)
    decreases |events1|
  {
    hide DecodeFrame, Readable, Related, SignalOf, SameEvent;
    forall i | 0 <= i < |events1|
      ensures Readable(codec, requestMsgId, events1[i]) <==> Readable(codec, requestMsgId, events2[i])
    {
      SameEventsReadAlike(codec, requestMsgId, events1[i], events2[i]);
    }
    if events1 != [] && AllReadable(codec, requestMsgId, events1) {
      var n := |events1| - 1;
      SameEventsGiveSameSignals(codec, requestMsgId, events1[..n], events2[..n]);
      SameEventsReadAlike(codec, requestMsgId, events1[n], events2[n]);
    }
  }

  /** The framing does not matter: when each message of a run comes in another frame (a text frame of the default
      protocol, a v1 or a legacy one), the loop reads as far and ends with the same result or error. */
  lemma FramingIsIrrelevant(
    codec: Codec, requestMsgId: string, timeoutSeconds: int, events1: seq<Event>, events2: seq<Event>,
    r: Result<ExecutionResult, RunError>, n: nat)
    requires SameEvents(codec, events1, events2)
    requires Outcome(codec, requestMsgId, timeoutSeconds, events1, r, n)
    ensures Outcome(codec, requestMsgId, timeoutSeconds, events2, r, n)
  {
    hide DecodeFrame, Readable, Related, SignalOf, SameEvent, Complete, ResultOf, AllReadable, SignalsOf;
    forall j | 0 <= j <= n
      ensures AllReadable(codec, requestMsgId, events1[..j]) <==> AllReadable(codec, requestMsgId, events2[..j])
      ensures AllReadable(codec, requestMsgId, events1[..j]) ==>
                SignalsOf(codec, requestMsgId, events1[..j]) == SignalsOf(codec, requestMsgId, events2[..j])
    {
      SameEventsGiveSameSignals(codec, requestMsgId, events1[..j], events2[..j]);
    }
    if n < |events1| {
      SameEventsReadAlike(codec, requestMsgId, events1[n], events2[n]);
    }
  }
}
