/** What the collector does with each kind of message, said of the JSON keys it reads and of its fields. */
module MessageLaws {
  import opened Prelude
  import opened JsonValues
  import opened Records
  import opened FrameCodec
  import opened CollectorMeaning

  /** The fields of the collector at one moment. */
  datatype Fields = Fields(
    outputs: seq<JupyterOutput>,
    executionCount: Option<Json>,
    payload: seq<map<string, Json>>,
    replyReceived: bool,
    idleReceived: bool,
    replyStatus: Option<string>,
    errorType: Option<string>,
    errorMessage: Option<string>,
    traceback: seq<string>,
    clearOnNextOutput: bool)

  /** The object under a key, which may be missing. */
  predicate ObjectAt(fields: map<string, Json>, key: string, value: map<string, Json>) {
    if key in fields then fields[key] == Obj(value) else value == map[]
  }

  /** A message in reply to the request: its parent header names it. */
  predicate Addressed(requestMsgId: string, m: Message) {
    && "parent_header" in m.fields && m.fields["parent_header"].Obj?
    && "msg_id" in m.fields["parent_header"].fields
    && m.fields["parent_header"].fields["msg_id"] == Str(requestMsgId)
  }

  /** A message in reply to the request, of the kind its header names, with an object as content. */
  predicate Carries(requestMsgId: string, m: Message, kind: string, content: map<string, Json>) {
    && Addressed(requestMsgId, m) && ObjectAt(m.fields, "content", content)
    && "header" in m.fields && m.fields["header"].Obj?
    && "msg_type" in m.fields["header"].fields && m.fields["header"].fields["msg_type"] == Str(kind)
  }

  /** A header or a content that is there is no object. */
  predicate Broken(m: Message) {
    || ("header" in m.fields && !m.fields["header"].Obj?)
    || ("content" in m.fields && !m.fields["content"].Obj?)
  }

  /** The header names no kind. */
  predicate Nameless(m: Message) {
    "header" in m.fields ==>
      m.fields["header"].Obj?
      && ("msg_type" in m.fields["header"].fields ==> !m.fields["header"].fields["msg_type"].Str?)
  }

  /** The text of the value under a key, or of the fallback when the key is missing. */
  predicate TextAt(codec: Codec, content: map<string, Json>, key: string, fallback: string, text: string) {
    text == codec.str(if key in content then content[key] else Str(fallback))
  }

  /** The object under a key; anything else counts as empty. */
  predicate DictAt(content: map<string, Json>, key: string, value: map<string, Json>) {
    if key in content && content[key].Obj? then content[key] == Obj(value) else value == map[]
  }

  /** The texts of the list under a key; anything else counts as empty. */
  predicate TextsAt(codec: Codec, content: map<string, Json>, key: string, texts: seq<string>) {
    if key in content && content[key].Arr? then
      && |texts| == |content[key].items|
      && forall i | 0 <= i < |texts| :: texts[i] == codec.str(content[key].items[i])
    else texts == []
  }

  /** The integer under a key, a bool as 0 or 1; anything else counts as none. */
  predicate IntegerAt(content: map<string, Json>, key: string, count: Option<Json>) {
    if key in content && content[key].Int? then count == Some(content[key])
    else if key in content && content[key] == Bool(true) then count == Some(Int(1))
    else if key in content && content[key] == Bool(false) then count == Some(Int(0))
    else count.None?
  }

  /** The output a stream message shows. */
  predicate IsStream(codec: Codec, content: map<string, Json>, o: JupyterOutput) {
    && o.outputType == "stream" && o.data.None? && o.metadata == map[]
    && o.name.Some? && TextAt(codec, content, "name", "stdout", o.name.value)
    && o.text.Some? && TextAt(codec, content, "text", "", o.text.value)
  }

  /** The output a display_data or an execute_result shows. */
  predicate IsRich(kind: string, content: map<string, Json>, o: JupyterOutput) {
    && o.outputType == kind && o.name.None? && o.text.None?
    && o.data.Some? && DictAt(content, "data", o.data.value) && DictAt(content, "metadata", o.metadata)
  }

  /** An error message, or a reply with status "error". */
  predicate IsError(
    codec: Codec, content: map<string, Json>, errorType: string, errorMessage: string, traceback: seq<string>)
  {
    && TextAt(codec, content, "ename", "CodeExecutionError", errorType)
    && TextAt(codec, content, "evalue", "", errorMessage)
    && TextsAt(codec, content, "traceback", traceback)
  }

  /** How many objects there are among the first `n` items. */
  function ObjectsBefore(items: seq<Json>, n: nat): (k: nat)
    requires n <= |items|
  {
    if n == 0 then 0 else ObjectsBefore(items, n - 1) + if items[n - 1].Obj? then 1 else 0
  }

  /** The objects among the items, each of them, in order, and nothing else. */
  ghost predicate OnlyObjects(items: seq<Json>, objects: seq<map<string, Json>>) {
    && |objects| == ObjectsBefore(items, |items|)
    && forall i | 0 <= i < |items| && items[i].Obj? ::
         ObjectsBefore(items, i) < |objects| && objects[ObjectsBefore(items, i)] == items[i].fields
  }

  /** An output is appended, after a pending clear. */
  ghost predicate Shown(was: Fields, now: Fields, o: JupyterOutput) {
    && now.outputs == (if was.clearOnNextOutput then [] else was.outputs) + [o]
    && !now.clearOnNextOutput
  }

  /** What a reply does to the error fields. */
  ghost predicate ReplyError(codec: Codec, content: map<string, Json>, status: string, was: Fields, now: Fields) {
    if status == "error" then
      && now.errorType.Some? && now.errorMessage.Some?
      && IsError(codec, content, now.errorType.value, now.errorMessage.value, now.traceback)
    else if status == "aborted" then
      && now.errorType == Some("ExecutionAborted")
      && now.errorMessage == Some("Jupyter kernel aborted the execution")
      && now.traceback == was.traceback
    else
      && now.errorType == was.errorType && now.errorMessage == was.errorMessage && now.traceback == was.traceback
  }

  ghost predicate ReplyRead(codec: Codec, content: map<string, Json>, was: Fields, now: Fields) {
    && now.outputs == was.outputs && now.clearOnNextOutput == was.clearOnNextOutput
    && now.idleReceived == was.idleReceived && now.replyReceived
    && now.replyStatus.Some? && TextAt(codec, content, "status", "error", now.replyStatus.value)
    && ReplyError(codec, content, now.replyStatus.value, was, now)
    && (IntegerAt(content, "execution_count", None) ==> now.executionCount == was.executionCount)
    && (!IntegerAt(content, "execution_count", None) ==> IntegerAt(content, "execution_count", now.executionCount))
    && if "payload" in content && content["payload"].Arr? then OnlyObjects(content["payload"].items, now.payload)
       else now.payload == was.payload
  }

  /** What Python takes for false. */
  predicate Falsy(value: Json) {
    || value == Null || value == Bool(false) || value == Int(0) || value == Float(0.0)
    || value == Str("") || value == Arr([]) || value == Obj(map[])
  }

  /** A stream, display_data or execute_result message shows its output. */
  ghost predicate OutputRead(was: Fields, now: Fields) {
    && now.outputs != [] && Shown(was, now, now.outputs[|now.outputs| - 1])
    && now == was.(outputs := now.outputs, clearOnNextOutput := false, executionCount := now.executionCount)
  }

  ghost predicate ResultRead(content: map<string, Json>, was: Fields, now: Fields) {
    && OutputRead(was, now) && IsRich("execute_result", content, now.outputs[|now.outputs| - 1])
    && IntegerAt(content, "execution_count", now.executionCount)
  }

  ghost predicate ClearRead(content: map<string, Json>, was: Fields, now: Fields) {
    now == if "wait" in content && !Falsy(content["wait"]) then was.(clearOnNextOutput := true)
           else was.(outputs := [])
  }

  ghost predicate ErrorRead(codec: Codec, content: map<string, Json>, was: Fields, now: Fields) {
    && now.errorType.Some? && now.errorMessage.Some?
    && IsError(codec, content, now.errorType.value, now.errorMessage.value, now.traceback)
    && now == was.(errorType := now.errorType, errorMessage := now.errorMessage, traceback := now.traceback)
  }

  ghost predicate StatusRead(content: map<string, Json>, was: Fields, now: Fields) {
    now == if "execution_state" in content && content["execution_state"] == Str("idle")
           then was.(idleReceived := true) else was
  }

  /** What a message of each kind does to the fields. */
  ghost predicate Understood(
    codec: Codec, kind: string, content: map<string, Json>, was: Fields, now: Fields)
  {
    if kind == "stream" then
      && OutputRead(was, now) && IsStream(codec, content, now.outputs[|now.outputs| - 1])
      && now.executionCount == was.executionCount
    else if kind == "display_data" then
      && OutputRead(was, now) && IsRich("display_data", content, now.outputs[|now.outputs| - 1])
      && now.executionCount == was.executionCount
    else if kind == "execute_result" then ResultRead(content, was, now)
    else if kind == "clear_output" then ClearRead(content, was, now)
    else if kind == "error" then ErrorRead(codec, content, was, now)
    else if kind == "execute_reply" then ReplyRead(codec, content, was, now)
    else if kind == "status" then StatusRead(content, was, now)
    else now == was
  }

  lemma {:induction false} ObjectsBeforeTail(items: seq<Json>, n: nat)
    requires 0 < n <= |items|
    ensures ObjectsBefore(items, n) == (if items[0].Obj? then 1 else 0) + ObjectsBefore(items[1..], n - 1)
  {
    if n > 1 {
      ObjectsBeforeTail(items, n - 1);
    } else {
      assert ObjectsBefore(items, 0) == 0;
    }
  }

  lemma {:induction false} ObjectsAreCounted(items: seq<Json>)
    ensures |Objects(items)| == ObjectsBefore(items, |items|)
  {
    if items != [] {
      ObjectsAreCounted(items[1..]);
      ObjectsBeforeTail(items, |items|);
    }
  }

  lemma {:induction false} ObjectHasItsPlace(items: seq<Json>, i: nat)
    requires i < |items| && items[i].Obj?
    ensures ObjectsBefore(items, i) < |Objects(items)|
    ensures Objects(items)[ObjectsBefore(items, i)] == items[i].fields
  {
    if i > 0 {
      var rest := items[1..];
      ObjectHasItsPlace(rest, i - 1);
      ObjectsBeforeTail(items, i);
    }
  }

  lemma ObjectsOfAList(items: seq<Json>)
    ensures OnlyObjects(items, Objects(items))
  {
    ObjectsAreCounted(items);
    forall i | 0 <= i < |items| && items[i].Obj?
      ensures ObjectsBefore(items, i) < |Objects(items)|
              && Objects(items)[ObjectsBefore(items, i)] == items[i].fields
    {
      ObjectHasItsPlace(items, i);
    }
  }

  // ---- the functions of the collector read the keys that way ----

  lemma CarriedIs(requestMsgId: string, m: Message, kind: string, content: map<string, Json>)
    requires Carries(requestMsgId, m, kind, content)
    ensures Related(requestMsgId, m) && WellFormed(m)
    ensures MessageType(m) == Str(kind) && ContentOf(m) == content
  {
  }

  lemma AddressedIsRelated(requestMsgId: string, m: Message)
    ensures Related(requestMsgId, m) <==> Addressed(requestMsgId, m)
    ensures WellFormed(m) <==> !Broken(m)
    ensures Nameless(m) && WellFormed(m) ==> !MessageType(m).Str?
  {
  }

  lemma StreamIsStream(codec: Codec, content: map<string, Json>)
    ensures IsStream(codec, content, StreamOutput(codec, content))
  {
  }

  lemma RichIsRich(kind: string, content: map<string, Json>)
    ensures IsRich(kind, content, RichOutput(kind, content))
  {
  }

  lemma RichIs(kind: string, content: map<string, Json>)
    ensures RichOutput(kind, content)
            == JupyterOutput(kind, None, None, Some(AsDict(Get(content, "data"))), AsDict(Get(content, "metadata")))
  {
  }

  lemma ErrorIsError(codec: Codec, content: map<string, Json>)
    ensures var e := ErrorOf(codec, content);
            IsError(codec, content, e.errorType, e.errorMessage, e.traceback)
  {
  }

  lemma CountIsInteger(content: map<string, Json>, key: string)
    ensures IntegerAt(content, key, IntOrNone(Get(content, key)))
    ensures IntegerAt(content, key, None) <==> IntOrNone(Get(content, key)).None?
    ensures IsInt(Get(content, key)) <==> IntOrNone(Get(content, key)).Some?
  {
  }

  lemma WaitIsRead(content: map<string, Json>)
    ensures Truthy(GetOr(content, "wait", Bool(false))) <==> "wait" in content && !Falsy(content["wait"])
  {
  }

  lemma PartsOfReply(codec: Codec, content: map<string, Json>)
    ensures var reply := ReplyOf(codec, content);
            var count, items := Get(content, "execution_count"), Get(content, "payload");
            && reply.status == codec.str(GetOr(content, "status", Str("error")))
            && Count(reply) == (if IsInt(count) then Some(IntOrNone(count)) else None)
            && PayloadWrite(reply) == (if items.Arr? then Some(Objects(items.items)) else None)
            && ErrorWrite(reply) == ErrorWrite(Reply(reply.status, None, None, ErrorOf(codec, content)))
            && TracebackWrite(reply) == TracebackWrite(Reply(reply.status, None, None, ErrorOf(codec, content)))
  {
    hide ErrorOf, Objects;
  }

  /** What a reply writes, as last writes. */
  ghost predicate ReplyWritten(reply: Signal, was: Fields, now: Fields)
    requires reply.Reply?
  {
    && now == was.(replyReceived := true, replyStatus := Some(reply.status),
                   executionCount := OrElse(Count(reply), was.executionCount),
                   payload := OrElse(PayloadWrite(reply), was.payload),
                   traceback := OrElse(TracebackWrite(reply), was.traceback),
                   errorType := now.errorType, errorMessage := now.errorMessage)
    && var error := ErrorWrite(reply);
       && now.errorType == (if error.Some? then Some(error.value.0) else was.errorType)
       && now.errorMessage == (if error.Some? then Some(error.value.1) else was.errorMessage)
  }

  lemma ReplyIsRead(codec: Codec, content: map<string, Json>, was: Fields, now: Fields)
    requires ReplyWritten(ReplyOf(codec, content), was, now)
    ensures ReplyRead(codec, content, was, now)
  {
    hide IsError, OnlyObjects, ErrorOf, IntegerAt, IntOrNone, Objects;
    CountIsInteger(content, "execution_count");
    ErrorIsError(codec, content);
    if Get(content, "payload").Arr? {
      ObjectsOfAList(Get(content, "payload").items);
    }
  }

  // ---- lines ----

  /** Where line `i` begins in a text of several lines. */
  function LineStart(lines: seq<string>, i: nat): nat
    requires i <= |lines|
  {
    if i == 0 then 0 else LineStart(lines, i - 1) + |lines[i - 1]| + 1
  }

  /** The text is these lines, with a line break between two of them and nothing else. */
  ghost predicate IsLines(text: string, lines: seq<string>) {
    && |text| + 1 == LineStart(lines, |lines|)
    && forall i | 0 <= i < |lines| :: LineAt(text, lines, i)
  }

  ghost predicate LineAt(text: string, lines: seq<string>, i: nat)
    requires i < |lines|
  {
    var start := LineStart(lines, i);
    var end := start + |lines[i]|;
    && end <= |text| && text[start..end] == lines[i]
    && (i + 1 < |lines| ==> end < |text| && text[end] == '\n')
  }

  lemma {:induction false} LineStartTail(lines: seq<string>, i: nat)
    requires 0 < i <= |lines|
    ensures LineStart(lines, i) == |lines[0]| + 1 + LineStart(lines[1..], i - 1)
  {
    if i > 1 {
      LineStartTail(lines, i - 1);
    } else {
      assert LineStart(lines, 0) == 0;
    }
  }

  lemma {:induction false} JoinedLength(lines: seq<string>)
    requires lines != []
    ensures |JoinLines(lines)| + 1 == LineStart(lines, |lines|)
  {
    if |lines| > 1 {
      JoinedLength(lines[1..]);
      LineStartTail(lines, |lines|);
    }
  }

  lemma SliceAfter(first: string, rest: string, start: nat, end: nat)
    requires start <= end <= |rest|
    ensures (first + rest)[|first| + start..|first| + end] == rest[start..end]
    ensures end < |rest| ==> (first + rest)[|first| + end] == rest[end]
  {
  }

  lemma {:induction false} JoinedAt(lines: seq<string>, i: nat)
    requires i < |lines|
    ensures LineAt(JoinLines(lines), lines, i)
  {
    if i > 0 {
      var rest := lines[1..];
      JoinedAt(rest, i - 1);
      LineStartTail(lines, i);
      var start := LineStart(rest, i - 1);
      SliceAfter(lines[0] + "\n", JoinLines(rest), start, start + |lines[i]|);
    }
  }

  /** "\n".join. */
  lemma JoinedAreLines(lines: seq<string>)
    requires lines != []
    ensures IsLines(JoinLines(lines), lines)
  {
    JoinedLength(lines);
    forall i | 0 <= i < |lines| ensures LineAt(JoinLines(lines), lines, i) {
      JoinedAt(lines, i);
    }
  }

  // ---- the error of a whole request ----

  lemma {:induction false} LastWriteAt<V>(h: seq<Signal>, i: nat, writes: Signal -> Option<V>)
    requires i < |h| && writes(h[i]).Some? && forall j | i < j < |h| :: writes(h[j]).None?
    ensures LastWrite(h, writes) == writes(h[i])
    decreases |h|
  {
    var n := |h| - 1;
    if i < n {
      assert h[..n][i] == h[i] && forall j | i < j < n :: h[..n][j] == h[j];
      LastWriteAt(h[..n], i, writes);
    }
  }

  /** The message reports an error: an error message, or a reply whose status is "error". */
  predicate ReportsError(codec: Codec, kind: string, content: map<string, Json>) {
    kind == "error" || (kind == "execute_reply" && TextAt(codec, content, "status", "error", "error"))
  }

  /** No error report and no abort. */
  predicate WritesNoError(s: Signal) {
    !s.Failure? && !(s.Reply? && (s.status == "error" || s.status == "aborted"))
  }

  lemma ErrorSignal(
    codec: Codec, requestMsgId: string, m: Message, kind: string, content: map<string, Json>,
    errorType: string, errorMessage: string, traceback: seq<string>)
    requires Carries(requestMsgId, m, kind, content) && ReportsError(codec, kind, content)
    requires IsError(codec, content, errorType, errorMessage, traceback)
    ensures WellFormed(m)
    ensures ErrorWrite(SignalOf(codec, m)) == Some((errorType, errorMessage))
    ensures TracebackWrite(SignalOf(codec, m)) == Some(traceback)
  {
    hide Carries, WellFormed, MessageType, ContentOf, IsError, ErrorOf, IntOrNone, Objects, StreamOutput, RichOutput;
    CarriedIs(requestMsgId, m, kind, content);
    ErrorIsError(codec, content);
    OneError(codec, content, ErrorOf(codec, content), errorType, errorMessage, traceback);
  }

  /** The keys determine the error. */
  lemma OneError(
    codec: Codec, content: map<string, Json>, e: ErrorInfo,
    errorType: string, errorMessage: string, traceback: seq<string>)
    requires IsError(codec, content, e.errorType, e.errorMessage, e.traceback)
    requires IsError(codec, content, errorType, errorMessage, traceback)
    ensures e == ErrorInfo(errorType, errorMessage, traceback)
  {
  }

  lemma LastErrorWritten(h: seq<Signal>, i: nat, error: (string, string), traceback: seq<string>)
    requires i < |h| && ErrorWrite(h[i]) == Some(error) && TracebackWrite(h[i]) == Some(traceback)
    requires forall j | i < j < |h| :: WritesNoError(h[j])
    ensures LastWrite(h, ErrorWrite) == Some(error) && LastWrite(h, TracebackWrite) == Some(traceback)
  {
    forall j | i < j < |h| ensures ErrorWrite(h[j]).None? && TracebackWrite(h[j]).None? {
      assert WritesNoError(h[j]);
    }
    LastWriteAt(h, i, ErrorWrite);
    LastWriteAt(h, i, TracebackWrite);
  }

  lemma RaisedTexts(error: (string, string), traceback: seq<string>)
    ensures var e := RaisedError(Some(error), traceback);
            && e.CodeError?
            && IsTextOf(e.errorType, Some(error.0), "CodeExecutionError")
            && IsTextOf(e.errorMessage, Some(error.1), "Jupyter code execution failed")
            && (traceback == [] ==> e.traceback.None?)
            && (traceback != [] ==> e.traceback.Some? && IsLines(e.traceback.value, traceback))
  {
    hide IsLines, JoinLines;
    if traceback != [] {
      JoinedAreLines(traceback);
    }
  }

  /** A request that is answered with anything but "ok" raises the error that was reported last, with the type, the
      message and the traceback its keys hold. */
  lemma LastErrorIsRaised(
    codec: Codec, requestMsgId: string, h: seq<Signal>, i: nat, m: Message, kind: string, content: map<string, Json>,
    errorType: string, errorMessage: string, traceback: seq<string>)
    requires Carries(requestMsgId, m, kind, content) && ReportsError(codec, kind, content)
    requires IsError(codec, content, errorType, errorMessage, traceback)
    requires i < |h| && WellFormed(m) && h[i] == SignalOf(codec, m)
    requires forall j | i < j < |h| :: WritesNoError(h[j])
    requires Complete(h) && LastWrite(h, Status) != Some("ok")
    ensures ResultOf(h).Err? && ResultOf(h).error.CodeError?
    ensures var e := ResultOf(h).error;
            && IsTextOf(e.errorType, Some(errorType), "CodeExecutionError")
            && IsTextOf(e.errorMessage, Some(errorMessage), "Jupyter code execution failed")
            && (traceback == [] ==> e.traceback.None?)
            && (traceback != [] ==> e.traceback.Some? && IsLines(e.traceback.value, traceback))
  {
    hide Complete, LastWrite, IsLines, Carries, WellFormed, SignalOf, IsError, ReportsError, RaisedError, IsTextOf;
    ErrorSignal(codec, requestMsgId, m, kind, content, errorType, errorMessage, traceback);
    LastErrorWritten(h, i, (errorType, errorMessage), traceback);
    RaisedTexts((errorType, errorMessage), traceback);
  }
}
