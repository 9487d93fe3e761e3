/** The shell reply and the IOPub messages of a request arrive on two channels: what is collected does
    not depend on how they interleave, exactly when the reply and IOPub agree. */
module Confluence {
  import opened Prelude
  import opened JsonValues
  import opened CollectorMeaning

  /** The reply arrives after the first `k` IOPub messages. */
  function Interleave(io: seq<Signal>, reply: Signal, k: nat): seq<Signal>
    requires k <= |io|
  {
    io[..k] + [reply] + io[k..]
  }

  /** An IOPub sequence of one request: no reply, and idle is its last message and only there. */
  ghost predicate Channel(io: seq<Signal>) {
    && io != [] && io[|io| - 1].Idle?
    && (forall i | 0 <= i < |io| - 1 :: !io[i].Idle?)
    && (forall i | 0 <= i < |io| :: !io[i].Reply?)
  }

  lemma {:induction false} LastWriteConcat<V>(a: seq<Signal>, b: seq<Signal>, writes: Signal -> Option<V>)
    ensures LastWrite(a + b, writes)
            == if LastWrite(b, writes).Some? then LastWrite(b, writes) else LastWrite(a, writes)
    decreases |b|
  {
    if b == [] {
      assert a + b == a;
    } else {
      assert (a + b)[..|a + b| - 1] == a + b[..|b| - 1];
      LastWriteConcat(a, b[..|b| - 1], writes);
    }
  }

  /** Where the reply lands decides only whether it or a later IOPub message writes last. */
  lemma LastWriteInterleave<V>(io: seq<Signal>, reply: Signal, k: nat, writes: Signal -> Option<V>)
    requires k <= |io|
    ensures var last := LastWrite(Interleave(io, reply, k), writes);
            last == if LastWrite(io[k..], writes).Some? then LastWrite(io, writes)
                    else if writes(reply).Some? then writes(reply)
                    else LastWrite(io, writes)
    ensures LastWrite(io[k..], writes).Some? ==> LastWrite(io, writes) == LastWrite(io[k..], writes)
  {
    hide LastWrite;
    LastWriteConcat(io[..k] + [reply], io[k..], writes);
    WritesAppend(io[..k], reply, writes);
    LastWriteConcat(io[..k], io[k..], writes);
    assert io[..k] + io[k..] == io;
  }

  /** A reply is neither an output nor a clear, so it leaves the surviving outputs alone. */
  lemma {:induction false} KeptInterleave(a: seq<Signal>, reply: Signal, b: seq<Signal>)
    requires reply.Reply?
    ensures Kept(a + [reply] + b) == Kept(a + b)
    ensures Waiting(a + [reply] + b) <==> Waiting(a + b)
    decreases |b|
  {
    if b == [] {
      OutputsAppend(a, reply);
      assert a + [reply] + b == a + [reply] && a + b == a;
    } else {
      var init, last := b[..|b| - 1], b[|b| - 1];
      KeptInterleave(a, reply, init);
      OutputsAppend(a + [reply] + init, last);
      OutputsAppend(a + init, last);
      assert a + [reply] + b == (a + [reply] + init) + [last];
      assert a + b == (a + init) + [last];
    }
  }

  /** The loop is done exactly when both channels are consumed to the end. */
  lemma CompletesAtTheEnd(io: seq<Signal>, reply: Signal, k: nat, n: nat)
    requires Channel(io) && reply.Reply? && k <= |io| && n <= |io| + 1
    ensures Complete(Interleave(io, reply, k)[..n]) <==> n == |io| + 1
  {
    var h := Interleave(io, reply, k);
    assert h[k] == reply;
    assert forall i | 0 <= i < k :: h[i] == io[i];
    assert forall i | k < i < |h| :: h[i] == io[i - 1];
    if n == |io| + 1 {
      assert h[..n][k].Reply?;
      var last := if k == |io| then |io| - 1 else |io|;
      assert h[..n][last].Idle?;
    } else if k < |io| {
      assert !HasIdle(h[..n]);
    } else {
      assert !HasReply(h[..n]);
    }
  }

  /** What `error_type`, `error_message` and `traceback` of the raised error will be. */
  function RaisedFrom(error: (string, string), traceback: seq<string>): RunError {
    RaisedError(Some(error), traceback)
  }

  /** Reply and IOPub agree on whatever both of them report. */
  ghost predicate Agree(io: seq<Signal>, reply: Signal)
    requires reply.Reply?
  {
    if reply.status == "ok" then
      var written := LastWrite(io, Count);
      reply.count.None? || written.None? || written.value == reply.count
    else
      var error, traceback := LastWrite(io, ErrorWrite), LastWrite(io, TracebackWrite);
      && (error.Some? && ErrorWrite(reply).Some? ==>
            RaisedFrom(error.value, []) == RaisedFrom(ErrorWrite(reply).value, []))
      && (traceback.Some? && TracebackWrite(reply).Some? ==>
            RaisedFrom(Aborted(), traceback.value) == RaisedFrom(Aborted(), TracebackWrite(reply).value))
  }

  lemma {:induction false} OnlyRepliesWrite(io: seq<Signal>)
    requires forall i | 0 <= i < |io| :: !io[i].Reply?
    ensures LastWrite(io, Status).None? && LastWrite(io, PayloadWrite).None?
  {
    if io != [] {
      OnlyRepliesWrite(io[..|io| - 1]);
    }
  }

  /** Every interleaving gives the same result or the same error exactly when reply and IOPub agree. */
  lemma ResultsAreConfluent(io: seq<Signal>, reply: Signal)
    requires Channel(io) && reply.Reply?
    ensures (forall k: nat | k <= |io| ::
               ResultOf(Interleave(io, reply, k)) == ResultOf(Interleave(io, reply, |io|)))
            <==> Agree(io, reply)
  {
    var n := |io|;
    assert io[n..] == [] && io[0..] == io;
    forall k: nat | k <= n
      ensures Agree(io, reply) ==> ResultOf(Interleave(io, reply, k)) == ResultOf(Interleave(io, reply, n))
    {
      SlotsOf(io, reply, k);
      SlotsOf(io, reply, n);
    }
    SlotsOf(io, reply, 0);
    SlotsOf(io, reply, n);
    assert ResultOf(Interleave(io, reply, 0)) == ResultOf(Interleave(io, reply, n)) ==> Agree(io, reply);
  }

  /** What is recorded after an interleaving, each field as IOPub's last word or the reply's. */
  lemma SlotsOf(io: seq<Signal>, reply: Signal, k: nat)
    requires Channel(io) && reply.Reply? && k <= |io|
    ensures var h := Interleave(io, reply, k);
            && Complete(h)
            && LastWrite(h, Status) == Some(reply.status)
            && Kept(h) == Kept(io)
            && LastWrite(h, PayloadWrite) == reply.payload
            && LastWrite(h, Count) == (if LastWrite(io[k..], Count).Some? then LastWrite(io, Count)
                                       else if Count(reply).Some? then Count(reply) else LastWrite(io, Count))
            && LastWrite(h, ErrorWrite) == (if LastWrite(io[k..], ErrorWrite).Some? then LastWrite(io, ErrorWrite)
                                            else if ErrorWrite(reply).Some? then ErrorWrite(reply)
                                            else LastWrite(io, ErrorWrite))
            && LastWrite(h, TracebackWrite)
               == (if LastWrite(io[k..], TracebackWrite).Some? then LastWrite(io, TracebackWrite)
                   else if TracebackWrite(reply).Some? then TracebackWrite(reply)
                   else LastWrite(io, TracebackWrite))
    ensures LastWrite(io[k..], Count).Some? ==> LastWrite(io, Count).Some?
    ensures LastWrite(io[k..], ErrorWrite).Some? ==> LastWrite(io, ErrorWrite).Some?
    ensures LastWrite(io[k..], TracebackWrite).Some? ==> LastWrite(io, TracebackWrite).Some?
  {
    hide LastWrite, Kept, Waiting, Complete, ErrorWrite, TracebackWrite, Count;
    CompletesAtTheEnd(io, reply, k, |io| + 1);
    assert Interleave(io, reply, k)[..|io| + 1] == Interleave(io, reply, k);
    KeptInterleave(io[..k], reply, io[k..]);
    assert io[..k] + io[k..] == io;
    OnlyRepliesWrite(io[k..]);
    OnlyRepliesWrite(io);
    LastWriteInterleave(io, reply, k, Status);
    LastWriteInterleave(io, reply, k, PayloadWrite);
    LastWriteInterleave(io, reply, k, Count);
    LastWriteInterleave(io, reply, k, ErrorWrite);
    LastWriteInterleave(io, reply, k, TracebackWrite);
  }

  /** A reply and IOPub messages that disagree: an execute_result without a count and an "ok" reply with one.
      If the reply comes last the result has its count, if it comes first the result has none. */
  lemma SomeInterleavingsDiffer(output: JupyterOutput, count: Json, error: ErrorInfo)
    ensures var io, reply := [Output(output, Some(None)), Idle], Reply("ok", Some(count), None, error);
            && Channel(io) && !Agree(io, reply)
            && ResultOf(Interleave(io, reply, 0)) == Ok(ExecutionResult(None, [output], []))
            && ResultOf(Interleave(io, reply, 2)) == Ok(ExecutionResult(Some(count), [output], []))
  {
    hide LastWrite, Kept, Interleave, Complete;
    var io, reply := [Output(output, Some(None)), Idle], Reply("ok", Some(count), None, error);
    ResultWithoutCount(output);
    SlotsOf(io, reply, 0);
    SlotsOf(io, reply, 2);
    assert io[0..] == io && io[2..] == [];
  }

  lemma ResultWithoutCount(output: JupyterOutput)
    ensures var io := [Output(output, Some(None)), Idle];
            && LastWrite(io, Count) == Some(None) && LastWrite([], Count) == None && Kept(io) == [output]
  {
    var result: seq<Signal> := [Output(output, Some(None))];
    OutputsAppend([], Output(output, Some(None)));
    OutputsAppend(result, Idle);
    WritesAppend(result, Idle, Count);
    WritesAppend([], Output(output, Some(None)), Count);
    assert [] + [Output(output, Some(None))] == result;
    assert result + [Idle] == [Output(output, Some(None)), Idle];
  }
}
