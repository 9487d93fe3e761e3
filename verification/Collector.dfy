/** JupyterMessageCollector (runtime/collector.py): fields updated message by message, kept equal to the
    meaning of everything collected so far. */
module Collector {
  import opened Prelude
  import opened JsonValues
  import opened Records
  import opened FrameCodec
  import opened CollectorMeaning
  import opened MessageLaws

  /** The fields are the meaning of a sequence of signals. */
  ghost predicate Means(f: Fields, h: seq<Signal>) {
    && f.outputs == Kept(h)
    && f.clearOnNextOutput == Waiting(h)
    && f.executionCount == OrElse(LastWrite(h, Count), None)
    && f.payload == OrElse(LastWrite(h, PayloadWrite), [])
    && f.replyReceived == HasReply(h)
    && f.idleReceived == HasIdle(h)
    && f.replyStatus == LastWrite(h, Status)
    && f.traceback == OrElse(LastWrite(h, TracebackWrite), [])
    && match LastWrite(h, ErrorWrite)
       case None => f.errorType.None? && f.errorMessage.None?
       case Some(error) => f.errorType == Some(error.0) && f.errorMessage == Some(error.1)
  }

  lemma AppendFacts(h: seq<Signal>, s: Signal)
    ensures Kept(h + [s]) == match s
                             case Output(o, _) => (if Waiting(h) then [] else Kept(h)) + [o]
                             case Clear(wait) => if wait then Kept(h) else []
                             case _ => Kept(h)
    ensures Waiting(h + [s]) <==> s == Clear(true) || (!s.Output? && Waiting(h))
    ensures HasReply(h + [s]) <==> HasReply(h) || s.Reply?
    ensures HasIdle(h + [s]) <==> HasIdle(h) || s.Idle?
    ensures LastWrite(h + [s], Count) == if Count(s).Some? then Count(s) else LastWrite(h, Count)
    ensures LastWrite(h + [s], PayloadWrite)
            == if PayloadWrite(s).Some? then PayloadWrite(s) else LastWrite(h, PayloadWrite)
    ensures LastWrite(h + [s], Status) == if Status(s).Some? then Status(s) else LastWrite(h, Status)
    ensures LastWrite(h + [s], ErrorWrite) == if ErrorWrite(s).Some? then ErrorWrite(s) else LastWrite(h, ErrorWrite)
    ensures LastWrite(h + [s], TracebackWrite)
            == if TracebackWrite(s).Some? then TracebackWrite(s) else LastWrite(h, TracebackWrite)
  {
    OutputsAppend(h, s);
    CompletionAppend(h, s);
    WritesAppend(h, s, Count);
    WritesAppend(h, s, PayloadWrite);
    WritesAppend(h, s, Status);
    WritesAppend(h, s, ErrorWrite);
    WritesAppend(h, s, TracebackWrite);
  }

  /** One more output. */
  lemma OutputMeans(f: Fields, h: seq<Signal>, output: JupyterOutput, sets: Option<Option<Json>>)
    requires Means(f, h)
    ensures Means(f.(outputs := (if f.clearOnNextOutput then [] else f.outputs) + [output], clearOnNextOutput := false,
                     executionCount := OrElse(sets, f.executionCount)),
                  h + [Output(output, sets)])
  {
    hide Kept, Waiting, HasReply, HasIdle, LastWrite;
    AppendFacts(h, Output(output, sets));
  }

  /** One more clear. */
  lemma ClearMeans(f: Fields, h: seq<Signal>, wait: bool)
    requires Means(f, h)
    ensures Means(if wait then f.(clearOnNextOutput := true) else f.(outputs := []), h + [Clear(wait)])
  {
    hide Kept, Waiting, HasReply, HasIdle, LastWrite;
    AppendFacts(h, Clear(wait));
  }

  class JupyterMessageCollector {
    const codec: Codec
    const requestMsgId: string

    var outputs: seq<JupyterOutput>
    var executionCount: Option<Json>
    var payload: seq<map<string, Json>>
    var replyReceived: bool
    var idleReceived: bool
    var replyStatus: Option<string>
    var errorType: Option<string>
    var errorMessage: Option<string>
    var traceback: seq<string>
    var clearOnNextOutput: bool

    /** The related messages collected so far. */
    ghost var signals: seq<Signal>

    /** The fields are the meaning of what has been collected. */
    ghost predicate Valid()
      reads this
    {
      Means(Now(), signals)
    }

    ghost function Now(): Fields
      reads this
    {
      Fields(outputs, executionCount, payload, replyReceived, idleReceived, replyStatus, errorType, errorMessage,
             traceback, clearOnNextOutput)
    }

    constructor (codec: Codec, requestMsgId: string)
      ensures Valid() && signals == []
      ensures this.codec == codec && this.requestMsgId == requestMsgId
    {
      this.codec := codec;
      this.requestMsgId := requestMsgId;
      outputs, executionCount, payload := [], None, [];
      replyReceived, idleReceived, replyStatus := false, false, None;
      errorType, errorMessage, traceback := None, None, [];
      clearOnNextOutput := false;
      signals := [];
    }

    /** is_complete. */
    predicate IsComplete()
      requires Valid()
      reads this
      ensures IsComplete() <==> Complete(signals)
    {
      replyReceived && idleReceived
    }

    /** collect: an unrelated message changes nothing; a related one without an object header and content
        raises; any other is understood by its kind and becomes the next signal. */
    method Collect(message: Message) returns (r: Result<bool, Error>)
      requires Valid()
      modifies this
      ensures Valid()
      ensures !Addressed(requestMsgId, message) ==> r == Ok(false) && Now() == old(Now())
      ensures Addressed(requestMsgId, message) ==>
                if Broken(message) then r == Err(InfrastructureError) && Now() == old(Now())
                else r == Ok(replyReceived && idleReceived)
      ensures forall kind, content | Carries(requestMsgId, message, kind, content) ::
                Understood(codec, kind, content, old(Now()), Now())
      ensures Nameless(message) ==> Now() == old(Now())
      ensures !Related(requestMsgId, message) ==> r == Ok(false) && signals == old(signals)
      ensures Related(requestMsgId, message) && !WellFormed(message) ==>
                r == Err(InfrastructureError) && signals == old(signals)
      ensures Related(requestMsgId, message) && WellFormed(message) ==>
                signals == old(signals) + [SignalOf(codec, message)] && r == Ok(Complete(signals))
    {
      hide Kept, Waiting, HasReply, HasIdle, LastWrite, Complete, Valid, Understood, Related, Carries, Addressed;
      hide Broken, Nameless, StreamOutput, RichOutput, ErrorOf, ReplyOf, IntOrNone;
      AddressedIsRelated(requestMsgId, message);
      if !Related(requestMsgId, message) {
        forall kind, content | Carries(requestMsgId, message, kind, content) ensures false {
          CarriedIs(requestMsgId, message, kind, content);
        }
        return Ok(false);
      }
      var header := GetOr(message.fields, "header", NO_FIELDS);
      var content := GetOr(message.fields, "content", NO_FIELDS);
      if !header.Obj? || !content.Obj? {
        forall kind, content | Carries(requestMsgId, message, kind, content) ensures false {
          CarriedIs(requestMsgId, message, kind, content);
        }
        return Err(InfrastructureError);
      }
      var msgType := Get(header.fields, "msg_type");
      Dispatch(msgType, content.fields);
      forall kind, content | Carries(requestMsgId, message, kind, content)
        ensures Understood(codec, kind, content, old(Now()), Now())
      {
        CarriedIs(requestMsgId, message, kind, content);
      }
      r := Ok(IsComplete());
    }

    /** The match of collect. */
    method Dispatch(msgType: Json, content: map<string, Json>)
      requires Valid()
      modifies this
      ensures Valid() && signals == old(signals) + [SignalFrom(codec, msgType, content)]
      ensures if msgType.Str? then Understood(codec, msgType.s, content, old(Now()), Now()) else Now() == old(Now())
    {
      hide Kept, Waiting, HasReply, HasIdle, LastWrite, Valid, ReplyRead, IsError, IsRich, IsStream, IntegerAt;
      hide ErrorOf, ReplyOf, IntOrNone, Truthy, ResultRead, ClearRead, ErrorRead, StatusRead;
      if msgType == Str("stream") {
        StreamIsStream(codec, content);
        AddOutput(JupyterOutput(
                    "stream", Some(codec.str(GetOr(content, "name", Str("stdout")))),
                    Some(codec.str(GetOr(content, "text", Str("")))), None, map[]));
      } else if msgType == Str("execute_result") {
        CollectResult(content);
      } else if msgType == Str("display_data") {
        RichIsRich("display_data", content);
        AddOutput(JupyterOutput(
                    "display_data", None, None,
                    Some(AsDict(Get(content, "data"))), AsDict(Get(content, "metadata"))));
      } else if msgType == Str("clear_output") {
        CollectClearOutput(content);
      } else if msgType == Str("error") {
        CollectFailure(content);
      } else if msgType == Str("execute_reply") {
        CollectExecuteReply(content);
      } else if msgType == Str("status") {
        CollectStatus(content);
      } else {
        Observe(Ignored);
      }
    }

    /** Appends a signal that touches no field. */
    ghost method Observe(s: Signal)
      requires Valid() && s.Ignored?
      modifies this`signals
      ensures Valid() && signals == old(signals) + [s]
    {
      hide Kept, Waiting, HasReply, HasIdle, LastWrite;
      AppendFacts(signals, s);
      signals := signals + [s];
    }

    /** _prepare_output. */
    method PrepareOutput()
      modifies this`outputs, this`clearOnNextOutput
      ensures outputs == if old(clearOnNextOutput) then [] else old(outputs)
      ensures !clearOnNextOutput
    {
      if clearOnNextOutput {
        outputs := [];
        clearOnNextOutput := false;
      }
    }

    /** _collect_stream and _collect_display_data. */
    method AddOutput(output: JupyterOutput)
      requires Valid()
      modifies this
      ensures Valid() && signals == old(signals) + [Output(output, None)]
      ensures Now() == old(Now()).(outputs := (if old(clearOnNextOutput) then [] else old(outputs)) + [output],
                                   clearOnNextOutput := false)
    {
      hide Means;
      OutputMeans(Now(), signals, output, None);
      PrepareOutput();
      outputs := outputs + [output];
      signals := signals + [Output(output, None)];
    }

    /** _collect_result. */
    method CollectResult(content: map<string, Json>)
      requires Valid()
      modifies this
      ensures Valid()
      ensures signals == old(signals) + [Output(RichOutput("execute_result", content),
                                                Some(IntOrNone(Get(content, "execution_count"))))]
      ensures ResultRead(content, old(Now()), Now())
    {
      hide Means, Get, AsDict, IntOrNone, IsRich, IntegerAt, RichOutput;
      RichIsRich("execute_result", content);
      CountIsInteger(content, "execution_count");
      ghost var o, count' := RichOutput("execute_result", content), IntOrNone(Get(content, "execution_count"));
      OutputMeans(Now(), signals, o, Some(count'));
      PrepareOutput();
      var count := Get(content, "execution_count");
      executionCount := IntOrNone(count);
      var output := JupyterOutput(
        "execute_result", None, None, Some(AsDict(Get(content, "data"))), AsDict(Get(content, "metadata")));
      assert output == o by { RichIs("execute_result", content); }
      outputs := outputs + [output];
      signals := signals + [Output(o, Some(count'))];
    }

    /** _collect_clear_output. */
    method CollectClearOutput(content: map<string, Json>)
      requires Valid()
      modifies this
      ensures Valid() && signals == old(signals) + [Clear(Truthy(GetOr(content, "wait", Bool(false))))]
      ensures ClearRead(content, old(Now()), Now())
    {
      hide Means, Truthy;
      WaitIsRead(content);
      var wait := Truthy(GetOr(content, "wait", Bool(false)));
      ClearMeans(Now(), signals, wait);
      if wait {
        clearOnNextOutput := true;
      } else {
        outputs := [];
      }
      signals := signals + [Clear(wait)];
    }

    /** _collect_error. */
    method CollectError(content: map<string, Json>)
      modifies this`errorType, this`errorMessage, this`traceback
      ensures var e := ErrorOf(codec, content);
              errorType == Some(e.errorType) && errorMessage == Some(e.errorMessage) && traceback == e.traceback
      ensures IsError(codec, content, errorType.value, errorMessage.value, traceback)
    {
      ErrorIsError(codec, content);
      errorType := Some(codec.str(GetOr(content, "ename", Str("CodeExecutionError"))));
      errorMessage := Some(codec.str(GetOr(content, "evalue", Str(""))));
      traceback := AsStringList(codec, Get(content, "traceback"));
    }

    method CollectFailure(content: map<string, Json>)
      requires Valid()
      modifies this
      ensures Valid() && signals == old(signals) + [Failure(ErrorOf(codec, content))]
      ensures ErrorRead(codec, content, old(Now()), Now())
    {
      hide Kept, Waiting, HasReply, HasIdle, LastWrite, IsError, ErrorOf;
      AppendFacts(signals, Failure(ErrorOf(codec, content)));
      CollectError(content);
      signals := signals + [Failure(ErrorOf(codec, content))];
    }

    /** _collect_execute_reply: what it does to each field. */
    method RecordReply(content: map<string, Json>)
      modifies this`replyReceived, this`replyStatus, this`executionCount, this`payload
      modifies this`errorType, this`errorMessage, this`traceback
      ensures ReplyWritten(ReplyOf(codec, content), old(Now()), Now())
    {
      hide Get, GetOr, Objects, ErrorOf, IntOrNone, IsInt, ReplyOf, Count, PayloadWrite, ErrorWrite, TracebackWrite;
      PartsOfReply(codec, content);
      replyReceived := true;
      var status := codec.str(GetOr(content, "status", Str("error")));
      replyStatus := Some(status);
      var count := Get(content, "execution_count");
      if IsInt(count) {
        executionCount := IntOrNone(count);
      }
      var items := Get(content, "payload");
      if items.Arr? {
        payload := Objects(items.items);
      }
      RecordReplyError(status, content);
    }

    /** The end of _collect_execute_reply. */
    method RecordReplyError(status: string, content: map<string, Json>)
      modifies this`errorType, this`errorMessage, this`traceback
      ensures var reply := Reply(status, None, None, ErrorOf(codec, content));
              && traceback == OrElse(TracebackWrite(reply), old(traceback))
              && var error := ErrorWrite(reply);
                 && errorType == (if error.Some? then Some(error.value.0) else old(errorType))
                 && errorMessage == (if error.Some? then Some(error.value.1) else old(errorMessage))
    {
      hide ErrorOf, IsError;
      if status == "error" {
        CollectError(content);
      } else if status == "aborted" {
        errorType := Some("ExecutionAborted");
        errorMessage := Some("Jupyter kernel aborted the execution");
      }
    }

    /** _collect_execute_reply. */
    method CollectExecuteReply(content: map<string, Json>)
      requires Valid()
      modifies this
      ensures Valid() && signals == old(signals) + [ReplyOf(codec, content)]
      ensures ReplyRead(codec, content, old(Now()), Now())
    {
      hide Kept, Waiting, HasReply, HasIdle, LastWrite, ReplyRead, ErrorOf, IntOrNone, Objects, Get, GetOr;
      ghost var s := ReplyOf(codec, content);
      AppendFacts(signals, s);
      RecordReply(content);
      ReplyIsRead(codec, content, old(Now()), Now());
      signals := signals + [s];
    }

    /** _collect_status. */
    method CollectStatus(content: map<string, Json>)
      requires Valid()
      modifies this
      ensures Valid()
      ensures signals == old(signals) + [if Get(content, "execution_state") == Str("idle") then Idle else Ignored]
      ensures StatusRead(content, old(Now()), Now())
    {
      hide Kept, Waiting, HasReply, HasIdle, LastWrite;
      if Get(content, "execution_state") == Str("idle") {
        AppendFacts(signals, Idle);
        idleReceived := true;
        signals := signals + [Idle];
      } else {
        Observe(Ignored);
      }
    }

    /** build_result. */
    method BuildResult() returns (r: Result<ExecutionResult, RunError>)
      requires Valid()
      ensures r == ResultOf(signals)
      ensures !(replyReceived && idleReceived) ==> r == Err(Incomplete)
      ensures replyReceived && idleReceived && replyStatus == Some("ok") ==>
                && r.Ok? && r.value.executionCount == executionCount
                && r.value.outputs == outputs && r.value.payload == payload
      ensures replyReceived && idleReceived && replyStatus != Some("ok") ==>
                && r.Err? && r.error.CodeError?
                && IsTextOf(r.error.errorType, errorType, "CodeExecutionError")
                && IsTextOf(r.error.errorMessage, errorMessage, "Jupyter code execution failed")
                && (traceback == [] ==> r.error.traceback.None?)
                && (traceback != [] ==> r.error.traceback.Some? && IsLines(r.error.traceback.value, traceback))
    {
      if !IsComplete() {
        return Err(Incomplete);
      }
      if replyStatus != Some("ok") {
        if traceback != [] {
          JoinedAreLines(traceback);
        }
        return Err(CodeError(
                     TextOr(errorType, "CodeExecutionError"),
                     TextOr(errorMessage, "Jupyter code execution failed"),
                     if traceback == [] then None else Some(JoinLines(traceback))));
      }
      r := Ok(ExecutionResult(executionCount, outputs, payload));
    }
  }
}
