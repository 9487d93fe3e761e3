/** What a sequence of kernel messages means for one request, stated over the whole sequence
    (runtime/collector.py; "Messaging in Jupyter", sections "Execution results", "Clear output"
    and "Kernel status"). */
module CollectorMeaning {
  import opened Prelude
  import opened JsonValues
  import opened Records
  import opened FrameCodec

  datatype JupyterOutput = JupyterOutput(
    outputType: string,
    name: Option<string>,
    text: Option<string>,
    data: Option<map<string, Json>>,
    metadata: map<string, Json>)

  datatype ErrorInfo = ErrorInfo(errorType: string, errorMessage: string, traceback: seq<string>)

  /** What one related message contributes. */
  datatype Signal =
    | Output(output: JupyterOutput, sets: Option<Option<Json>>)  // sets: the execution count an execute_result writes
    | Clear(wait: bool)
    | Failure(error: ErrorInfo)
    | Reply(status: string, count: Option<Json>, payload: Option<seq<map<string, Json>>>, error: ErrorInfo)
    | Idle
    | Ignored

  /** _is_related_message. */
  predicate Related(requestMsgId: string, m: Message) {
    var parent := GetOr(m.fields, "parent_header", NO_FIELDS);
    parent.Obj? && Get(parent.fields, "msg_id") == Str(requestMsgId)
  }

  /** The header and the content are objects. */
  predicate WellFormed(m: Message) {
    GetOr(m.fields, "header", NO_FIELDS).Obj? && GetOr(m.fields, "content", NO_FIELDS).Obj?
  }

  /** _as_dict. */
  function AsDict(value: Json): map<string, Json> {
    if value.Obj? then value.fields else map[]
  }

  /** _as_string_list. */
  function AsStringList(codec: Codec, value: Json): seq<string> {
    if value.Arr? then seq(|value.items|, i requires 0 <= i < |value.items| => codec.str(value.items[i])) else []
  }

  /** The objects of a JSON list. */
  function Objects(items: seq<Json>): seq<map<string, Json>> {
    if items == [] then []
    else (if items[0].Obj? then [items[0].fields] else []) + Objects(items[1..])
  }

  /** An execution count; the result model's integer field turns a bool, which is an int, into 0 or 1. */
  function IntOrNone(value: Json): Option<Json> {
    match value
    case Int(_) => Some(value)
    case Bool(b) => Some(Int(if b then 1 else 0))
    case _ => None
  }

  function RichOutput(kind: string, content: map<string, Json>): JupyterOutput {
    JupyterOutput(kind, None, None, Some(AsDict(Get(content, "data"))), AsDict(Get(content, "metadata")))
  }

  function StreamOutput(codec: Codec, content: map<string, Json>): JupyterOutput {
    JupyterOutput(
      "stream", Some(codec.str(GetOr(content, "name", Str("stdout")))),
      Some(codec.str(GetOr(content, "text", Str("")))), None, map[])
  }

  function ErrorOf(codec: Codec, content: map<string, Json>): ErrorInfo {
    ErrorInfo(
      codec.str(GetOr(content, "ename", Str("CodeExecutionError"))),
      codec.str(GetOr(content, "evalue", Str(""))),
      AsStringList(codec, Get(content, "traceback")))
  }

  function ReplyOf(codec: Codec, content: map<string, Json>): Signal {
    var payload := Get(content, "payload");
    Reply(
      codec.str(GetOr(content, "status", Str("error"))),
      IntOrNone(Get(content, "execution_count")),
      if payload.Arr? then Some(Objects(payload.items)) else None,
      ErrorOf(codec, content))
  }

  function MessageType(m: Message): Json
    requires WellFormed(m)
  {
    Get(GetOr(m.fields, "header", NO_FIELDS).fields, "msg_type")
  }

  function ContentOf(m: Message): map<string, Json>
    requires WellFormed(m)
  {
    GetOr(m.fields, "content", NO_FIELDS).fields
  }

  /** How a message of this type with this content is read. */
  function SignalFrom(codec: Codec, kind: Json, content: map<string, Json>): Signal {
    if kind == Str("stream") then Output(StreamOutput(codec, content), None)
    else if kind == Str("execute_result") then
      Output(RichOutput("execute_result", content), Some(IntOrNone(Get(content, "execution_count"))))
    else if kind == Str("display_data") then Output(RichOutput("display_data", content), None)
    else if kind == Str("clear_output") then Clear(Truthy(GetOr(content, "wait", Bool(false))))
    else if kind == Str("error") then Failure(ErrorOf(codec, content))
    else if kind == Str("execute_reply") then ReplyOf(codec, content)
    else if kind == Str("status") && Get(content, "execution_state") == Str("idle") then Idle
    else Ignored
  }

  /** How a related, well-formed message is read. */
  function SignalOf(codec: Codec, m: Message): Signal
    requires WellFormed(m)
  {
    SignalFrom(codec, MessageType(m), ContentOf(m))
  }

  // ---- outputs and clearing ----

  /** Output `i` survives: no later immediate clear, and no later waiting clear that an output followed. */
  ghost predicate KeptAt(h: seq<Signal>, i: int)
    requires 0 <= i < |h|
  {
    && h[i].Output?
    && (forall j | i < j < |h| :: h[j] != Clear(false))
    && (forall j, k | i < j < k < |h| && h[j] == Clear(true) :: !h[k].Output?)
  }

  /** The surviving outputs among the first `n` signals, in arrival order. */
  ghost function KeptUpTo(h: seq<Signal>, n: nat): seq<JupyterOutput>
    requires n <= |h|
  {
    if n == 0 then []
    else KeptUpTo(h, n - 1) + if KeptAt(h, n - 1) then [h[n - 1].output] else []
  }

  ghost function Kept(h: seq<Signal>): seq<JupyterOutput> {
    KeptUpTo(h, |h|)
  }

  /** A waiting clear has come after the last output. */
  ghost predicate Waiting(h: seq<Signal>) {
    exists j | 0 <= j < |h| && h[j] == Clear(true) :: forall k | j < k < |h| :: !h[k].Output?
  }

  // ---- last writes ----

  /** The most recent value some signal of `h` writes. */
  function LastWrite<V>(h: seq<Signal>, writes: Signal -> Option<V>): Option<V> {
    if h == [] then None
    else
      var last := writes(h[|h| - 1]);
      if last.Some? then last else LastWrite(h[..|h| - 1], writes)
  }

  function Count(s: Signal): Option<Option<Json>> {
    match s
    case Output(_, sets) => sets
    case Reply(_, count, _, _) => if count.Some? then Some(count) else None
    case _ => None
  }

  function PayloadWrite(s: Signal): Option<seq<map<string, Json>>> {
    if s.Reply? then s.payload else None
  }

  function Status(s: Signal): Option<string> {
    if s.Reply? then Some(s.status) else None
  }

  function Aborted(): (string, string) {
    ("ExecutionAborted", "Jupyter kernel aborted the execution")
  }

  /** Error type and message. */
  function ErrorWrite(s: Signal): Option<(string, string)> {
    match s
    case Failure(e) => Some((e.errorType, e.errorMessage))
    case Reply(status, _, _, e) =>
      if status == "error" then Some((e.errorType, e.errorMessage))
      else if status == "aborted" then Some(Aborted())
      else None
    case _ => None
  }

  function TracebackWrite(s: Signal): Option<seq<string>> {
    match s
    case Failure(e) => Some(e.traceback)
    case Reply(status, _, _, e) => if status == "error" then Some(e.traceback) else None
    case _ => None
  }

  // ---- completion and result ----

  predicate HasReply(h: seq<Signal>) {
    exists i | 0 <= i < |h| :: h[i].Reply?
  }

  predicate HasIdle(h: seq<Signal>) {
    exists i | 0 <= i < |h| :: h[i].Idle?
  }

  predicate Complete(h: seq<Signal>) {
    HasReply(h) && HasIdle(h)
  }

  datatype ExecutionResult = ExecutionResult(
    executionCount: Option<Json>, outputs: seq<JupyterOutput>, payload: seq<map<string, Json>>)

  datatype RunError =
    | Incomplete
    | CodeError(errorType: string, errorMessage: string, traceback: Option<string>)
    | Protocol

  function JoinLines(lines: seq<string>): string {
    if lines == [] then "" else if |lines| == 1 then lines[0] else lines[0] + "\n" + JoinLines(lines[1..])
  }

  /** The CodeExecutionError build_result raises from the recorded error. */
  function RaisedError(error: Option<(string, string)>, traceback: seq<string>): RunError {
    CodeError(
      TextOr(if error.Some? then Some(error.value.0) else None, "CodeExecutionError"),
      TextOr(if error.Some? then Some(error.value.1) else None, "Jupyter code execution failed"),
      if traceback == [] then None else Some(JoinLines(traceback)))
  }

  /** build_result after the signals `h`. */
  ghost function ResultOf(h: seq<Signal>): Result<ExecutionResult, RunError> {
    if !Complete(h) then Err(Incomplete)
    else if LastWrite(h, Status) != Some("ok") then
      Err(RaisedError(LastWrite(h, ErrorWrite), OrElse(LastWrite(h, TracebackWrite), [])))
    else
      Ok(ExecutionResult(
           OrElse(LastWrite(h, Count), None), Kept(h), OrElse(LastWrite(h, PayloadWrite), [])))
  }

  // ---- one more signal ----

  lemma {:induction false} KeptUpToAppend(h: seq<Signal>, s: Signal, n: nat)
    requires n <= |h|
    ensures !s.Clear? && !s.Output? ==> KeptUpTo(h + [s], n) == KeptUpTo(h, n)
    ensures s == Clear(true) ==> KeptUpTo(h + [s], n) == KeptUpTo(h, n)
    ensures s == Clear(false) ==> KeptUpTo(h + [s], n) == []
    ensures s.Output? && Waiting(h) ==> KeptUpTo(h + [s], n) == []
    ensures s.Output? && !Waiting(h) ==> KeptUpTo(h + [s], n) == KeptUpTo(h, n)
  {
    if n > 0 {
      KeptUpToAppend(h, s, n - 1);
      var g := h + [s];
      var i := n - 1;
      assert forall j | 0 <= j < |h| :: g[j] == h[j];
      assert g[|h|] == s;
      if s == Clear(false) {
        assert !KeptAt(g, i);
      } else if s.Output? && Waiting(h) {
        var j :| 0 <= j < |h| && h[j] == Clear(true) && forall k | j < k < |h| :: !h[k].Output?;
        assert !KeptAt(g, i);
      } else {
        assert KeptAt(g, i) ==> KeptAt(h, i);
        if KeptAt(h, i) {
          forall j, k | i < j < k < |g| && g[j] == Clear(true) ensures !g[k].Output? {
            assert h[j] == Clear(true);
          }
        }
      }
    }
  }

  /** How the surviving outputs and the waiting flag follow from one more signal. */
  lemma OutputsAppend(h: seq<Signal>, s: Signal)
    ensures Kept(h + [s]) == match s
                             case Output(o, _) => (if Waiting(h) then [] else Kept(h)) + [o]
                             case Clear(wait) => if wait then Kept(h) else []
                             case _ => Kept(h)
    ensures Waiting(h + [s]) <==> s == Clear(true) || (!s.Output? && Waiting(h))
  {
    var g := h + [s];
    KeptUpToAppend(h, s, |h|);
    assert g[|h|] == s;
    assert forall j | 0 <= j < |h| :: g[j] == h[j];
    if Waiting(h) && !s.Output? {
      var j :| 0 <= j < |h| && h[j] == Clear(true) && forall k | j < k < |h| :: !h[k].Output?;
      assert g[j] == Clear(true);
    }
    if s == Clear(true) {
      assert g[|h|] == Clear(true);
    }
  }

  lemma WritesAppend<V>(h: seq<Signal>, s: Signal, writes: Signal -> Option<V>)
    ensures LastWrite(h + [s], writes) == if writes(s).Some? then writes(s) else LastWrite(h, writes)
  {
    assert (h + [s])[..|h|] == h;
  }

  lemma CompletionAppend(h: seq<Signal>, s: Signal)
    ensures HasReply(h + [s]) <==> HasReply(h) || s.Reply?
    ensures HasIdle(h + [s]) <==> HasIdle(h) || s.Idle?
  {
    var g := h + [s];
    assert g[|h|] == s;
    assert forall j | 0 <= j < |h| :: g[j] == h[j];
  }
}
