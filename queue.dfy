/**
 * The queue consumer's batch step (`SQSConsumer.readAndProcess`): one
 * receive, the wait-time adaptation, and for each message of the batch the
 * validation, the hand-over to the processor and the delete.
 *
 * The queue service, the processor and the JSON parser are collaborators:
 * the outcome of the receive is a parameter of the step, the processor's
 * outcome for a body and the parser are functions fixed at construction.
 * The calls the consumer makes on its collaborators are recorded, in order,
 * in a ghost trace. The outcome of a delete is only logged by the source, so
 * nothing in the model depends on it.
 */
module Queue {
  import opened Wrappers
  import opened Errors
  import opened Json

  const MaxNumberOfMsg: int := 10
  const DefSqsWaitTime: int := 0

  /** The consumer's settings that the batch step reads (the queue ARN, name and endpoint only serve the connection set-up). */
  datatype SqsConfig = SqsConfig(timeout: int, maxWaitTime: int)

  /** The receive request of `readMssgs`. */
  datatype ReceiveQuery = ReceiveQuery(maxNumberOfMessages: int, waitTimeSeconds: int, visibilityTimeout: int)

  /** An element of a received batch: Go's `*sqs.Message` may be nil, and so may its body. */
  datatype SqsMessage = NilMessage | Message(receiptHandle: string, body: Option<string>)

  /** A call the consumer makes on its collaborators. */
  datatype QueueCall = Receive(query: ReceiveQuery) | Process(body: string) | Delete(receiptHandle: string)

  /** The notification-service envelope that wraps a payload. */
  function Envelope(payload: string): Json
  {
    JObject(map["Message" := JString(payload)])
  }

  /**
   * `removeSNSEnvelope`: decode the body into a struct with one string field
   * `Message`. An absent or null field gives ""; text that is not JSON, a
   * document that is not an object, or a non-string `Message` is the
   * "unexpected mssg format" error.
   */
  function RemoveSnsEnvelope(decode: Decoder, snsNotif: string): (r: Result<string, Error>)
    ensures r.Failure? ==> r.error == UnexpectedMssgFormat
    ensures r.Success? <==>
      (decode(snsNotif).Some? && IsStructLike(decode(snsNotif).value)
       && DecodeString(Member(decode(snsNotif).value, "Message"), "Message").Success?)
    ensures r.Success? ==> r.value == DecodeString(Member(decode(snsNotif).value, "Message"), "Message").value
  {
    match decode(snsNotif)
    case None => Failure(UnexpectedMssgFormat)
    case Some(v) =>
      if !IsStructLike(v) then Failure(UnexpectedMssgFormat)
      else
        match DecodeString(Member(v, "Message"), "Message")
        case Success(m) => Success(m)
        case Failure(_) => Failure(UnexpectedMssgFormat)
  }

  /** Unwrapping an envelope gives back the payload it wraps; an object without `Message` gives "". */
  lemma UnwrapEnvelope(decode: Decoder, s: string, payload: string)
    ensures decode(s) == Some(Envelope(payload)) ==> RemoveSnsEnvelope(decode, s) == Success(payload)
    ensures decode(s) == Some(JObject(map[])) ==> RemoveSnsEnvelope(decode, s) == Success("")
    ensures decode(s) == Some(JString(payload)) ==> RemoveSnsEnvelope(decode, s) == Failure(UnexpectedMssgFormat)
  {
  }

  /** `validateMssg`: a nil message or a nil body is an error; otherwise the envelope is removed. */
  function ValidateMssg(decode: Decoder, m: SqsMessage): (r: Result<string, Error>)
    ensures m.NilMessage? || m.body.None? ==> r == Failure(UnexpectedNilMessage)
    ensures m.Message? && m.body.Some? ==> r == RemoveSnsEnvelope(decode, m.body.value)
  {
    if m.NilMessage? || m.body.None? then Failure(UnexpectedNilMessage)
    else RemoveSnsEnvelope(decode, m.body.value)
  }

  /**
   * The calls made for one message: an invalid message is deleted and never
   * processed; a valid one is processed and deleted only when processing
   * succeeded. A nil message has no receipt handle, so nothing is deleted
   * for it (the source dereferences it; see `MessageCallsAsWritten`).
   */
  function MessageCalls(decode: Decoder, process: string -> Option<Error>, m: SqsMessage): seq<QueueCall>
  {
    match ValidateMssg(decode, m)
    case Failure(_) => if m.Message? then [Delete(m.receiptHandle)] else []
    case Success(body) => [Process(body)] + (if process(body).None? then [Delete(m.receiptHandle)] else [])
  }

  /** The calls made for a batch: those of each message, in batch order. */
  function BatchCalls(decode: Decoder, process: string -> Option<Error>, batch: seq<SqsMessage>): seq<QueueCall>
  {
    if batch == [] then []
    else BatchCalls(decode, process, batch[..|batch| - 1]) + MessageCalls(decode, process, batch[|batch| - 1])
  }

  /** The bodies handed to the processor, in order. */
  function ProcessedBodies(calls: seq<QueueCall>): seq<string>
  {
    if calls == [] then []
    else ProcessedBodies(calls[..|calls| - 1]) + (if calls[|calls| - 1].Process? then [calls[|calls| - 1].body] else [])
  }

  /** The receipt handles deleted, in order. */
  function DeletedHandles(calls: seq<QueueCall>): seq<string>
  {
    if calls == [] then []
    else DeletedHandles(calls[..|calls| - 1]) + (if calls[|calls| - 1].Delete? then [calls[|calls| - 1].receiptHandle] else [])
  }

  /** The body a message yields when it passes validation. */
  function ValidBody(decode: Decoder, m: SqsMessage): seq<string>
  {
    var v := ValidateMssg(decode, m);
    if v.Success? then [v.value] else []
  }

  /** The handle of a message that must leave the queue: an invalid one, or one processed successfully. */
  function HandleToDelete(decode: Decoder, process: string -> Option<Error>, m: SqsMessage): seq<string>
  {
    var v := ValidateMssg(decode, m);
    if m.Message? && (v.Failure? || process(v.value).None?) then [m.receiptHandle] else []
  }

  /** Reference definition: the bodies of the messages that pass validation, in batch order. */
  function ValidBodies(decode: Decoder, batch: seq<SqsMessage>): seq<string>
  {
    if batch == [] then [] else ValidBody(decode, batch[0]) + ValidBodies(decode, batch[1..])
  }

  /** Reference definition: the handles of the messages that must leave the queue, in batch order. */
  function HandlesToDelete(decode: Decoder, process: string -> Option<Error>, batch: seq<SqsMessage>): seq<string>
  {
    if batch == [] then []
    else HandleToDelete(decode, process, batch[0]) + HandlesToDelete(decode, process, batch[1..])
  }

  lemma {:induction false} ProcessedBodiesAppend(a: seq<QueueCall>, b: seq<QueueCall>)
    ensures ProcessedBodies(a + b) == ProcessedBodies(a) + ProcessedBodies(b)
    ensures DeletedHandles(a + b) == DeletedHandles(a) + DeletedHandles(b)
    decreases |b|
  {
    if b == [] {
      assert a + b == a;
    } else {
      assert (a + b)[..|a + b| - 1] == a + b[..|b| - 1];
      ProcessedBodiesAppend(a, b[..|b| - 1]);
    }
  }

  lemma SingletonEffects(c: QueueCall)
    ensures ProcessedBodies([c]) == (if c.Process? then [c.body] else [])
    ensures DeletedHandles([c]) == (if c.Delete? then [c.receiptHandle] else [])
  {
    assert [c][..0] == [];
  }

  /** What one message contributes to the processed bodies and to the deleted handles. */
  lemma MessageEffects(decode: Decoder, process: string -> Option<Error>, m: SqsMessage)
    ensures ProcessedBodies(MessageCalls(decode, process, m)) == ValidBody(decode, m)
    ensures DeletedHandles(MessageCalls(decode, process, m)) == HandleToDelete(decode, process, m)
  {
    var v := ValidateMssg(decode, m);
    if v.Success? {
      SingletonEffects(Process(v.value));
      if process(v.value).None? {
        SingletonEffects(Delete(m.receiptHandle));
        ProcessedBodiesAppend([Process(v.value)], [Delete(m.receiptHandle)]);
      } else {
        assert MessageCalls(decode, process, m) == [Process(v.value)];
      }
    } else if m.Message? {
      SingletonEffects(Delete(m.receiptHandle));
    }
  }

  lemma {:induction false} ValidBodiesSnoc(decode: Decoder, process: string -> Option<Error>, batch: seq<SqsMessage>)
    requires batch != []
    ensures ValidBodies(decode, batch) == ValidBodies(decode, batch[..|batch| - 1]) + ProcessedBodies(MessageCalls(decode, process, batch[|batch| - 1]))
  {
    var n := |batch|;
    var init, last := batch[..n - 1], batch[n - 1];
    MessageEffects(decode, process, last);
    if n == 1 {
      assert init == [] && batch[1..] == [];
    } else {
      var tail := batch[1..];
      ValidBodiesSnoc(decode, process, tail);
      assert tail[..|tail| - 1] == init[1..] && tail[|tail| - 1] == last && init[0] == batch[0];
    }
  }

  lemma {:induction false} HandlesToDeleteSnoc(decode: Decoder, process: string -> Option<Error>, batch: seq<SqsMessage>)
    requires batch != []
    ensures HandlesToDelete(decode, process, batch)
         == HandlesToDelete(decode, process, batch[..|batch| - 1]) + DeletedHandles(MessageCalls(decode, process, batch[|batch| - 1]))
  {
    var n := |batch|;
    var init, last := batch[..n - 1], batch[n - 1];
    MessageEffects(decode, process, last);
    if n == 1 {
      assert init == [] && batch[1..] == [];
    } else {
      var tail := batch[1..];
      HandlesToDeleteSnoc(decode, process, tail);
      assert tail[..|tail| - 1] == init[1..] && tail[|tail| - 1] == last && init[0] == batch[0];
    }
  }

  /**
   * Over a whole batch, the processor receives exactly the bodies of the
   * valid messages, in order, and the deleted handles are exactly those of
   * the invalid messages and of the successfully processed ones, in order.
   */
  lemma {:induction false} BatchEffects(decode: Decoder, process: string -> Option<Error>, batch: seq<SqsMessage>)
    ensures ProcessedBodies(BatchCalls(decode, process, batch)) == ValidBodies(decode, batch)
    ensures DeletedHandles(BatchCalls(decode, process, batch)) == HandlesToDelete(decode, process, batch)
  {
    if batch != [] {
      var init := batch[..|batch| - 1];
      BatchEffects(decode, process, init);
      ProcessedBodiesAppend(BatchCalls(decode, process, init), MessageCalls(decode, process, batch[|batch| - 1]));
      ValidBodiesSnoc(decode, process, batch);
      HandlesToDeleteSnoc(decode, process, batch);
    }
  }

  /** A valid message whose processing fails is processed once and not deleted. */
  lemma FailedProcessingNotDeleted(decode: Decoder, process: string -> Option<Error>, m: SqsMessage)
    requires ValidateMssg(decode, m).Success? && process(ValidateMssg(decode, m).value).Some?
    ensures MessageCalls(decode, process, m) == [Process(ValidateMssg(decode, m).value)]
  {
  }

  /** N valid messages that all process successfully give N process calls and N deletes. */
  lemma {:induction false} AllProcessedAllDeleted(decode: Decoder, process: string -> Option<Error>, batch: seq<SqsMessage>)
    requires forall i :: 0 <= i < |batch| ==> ValidateMssg(decode, batch[i]).Success?
    requires forall i :: 0 <= i < |batch| ==> process(ValidateMssg(decode, batch[i]).value).None?
    ensures |ProcessedBodies(BatchCalls(decode, process, batch))| == |batch|
    ensures |DeletedHandles(BatchCalls(decode, process, batch))| == |batch|
  {
    BatchEffects(decode, process, batch);
    AllValidCounts(decode, process, batch);
  }

  lemma {:induction false} AllValidCounts(decode: Decoder, process: string -> Option<Error>, batch: seq<SqsMessage>)
    requires forall i :: 0 <= i < |batch| ==> ValidateMssg(decode, batch[i]).Success?
    requires forall i :: 0 <= i < |batch| ==> process(ValidateMssg(decode, batch[i]).value).None?
    ensures |ValidBodies(decode, batch)| == |batch| && |HandlesToDelete(decode, process, batch)| == |batch|
  {
    if batch != [] {
      assert batch[0].Message? by { assert ValidateMssg(decode, batch[0]).Success?; }
      AllValidCounts(decode, process, batch[1..]);
    }
  }

  // ---- The source as written: a nil message reaches `deleteMessage` ----

  /**
   * One message as the source handles it: `validateMssg` rejects a nil
   * message and the loop then passes it to `deleteMessage`, which reads
   * `mssg.ReceiptHandle` through the nil pointer. `None` stands for that
   * panic, which unwinds out of the batch step and stops the consumer.
   */
  function MessageCallsAsWritten(decode: Decoder, process: string -> Option<Error>, m: SqsMessage): Option<seq<QueueCall>>
  {
    if m.NilMessage? then None else Some(MessageCalls(decode, process, m))
  }

  function BatchCallsAsWritten(decode: Decoder, process: string -> Option<Error>, batch: seq<SqsMessage>): Option<seq<QueueCall>>
  {
    if batch == [] then Some([])
    else
      match (BatchCallsAsWritten(decode, process, batch[..|batch| - 1]), MessageCallsAsWritten(decode, process, batch[|batch| - 1]))
      case (Some(a), Some(b)) => Some(a + b)
      case _ => None
  }

  /** As written, a batch holding a nil message panics; the corrected step skips that message. */
  lemma NilMessagePanics(decode: Decoder, process: string -> Option<Error>)
    ensures BatchCallsAsWritten(decode, process, [NilMessage]) == None
    ensures BatchCalls(decode, process, [NilMessage]) == []
  {
    assert [NilMessage][..0] == [];
  }

  /** On batches without nil messages the source as written and the corrected step make the same calls. */
  lemma {:induction false} AsWrittenAgreesWithoutNil(decode: Decoder, process: string -> Option<Error>, batch: seq<SqsMessage>)
    requires forall i :: 0 <= i < |batch| ==> batch[i].Message?
    ensures BatchCallsAsWritten(decode, process, batch) == Some(BatchCalls(decode, process, batch))
  {
    if batch != [] {
      AsWrittenAgreesWithoutNil(decode, process, batch[..|batch| - 1]);
    }
  }

  /** A queue consumer: its settings, its collaborators and its adaptive wait time. */
  class SqsConsumer {
    const config: SqsConfig
    /** The JSON parser used to read envelopes. */
    const decode: Decoder
    /** The outcome of `ProcessMessage` for a body. */
    const processor: string -> Option<Error>
    var sqsWaitTime: int
    /** The calls made on the queue service and the processor so far. */
    ghost var calls: seq<QueueCall>

    constructor (config: SqsConfig, decode: Decoder, processor: string -> Option<Error>)
      ensures this.config == config && this.decode == decode && this.processor == processor
      ensures sqsWaitTime == DefSqsWaitTime && calls == []
    {
      this.config := config;
      this.decode := decode;
      this.processor := processor;
      sqsWaitTime := DefSqsWaitTime;
      calls := [];
    }

    /** The request `readMssgs` sends: at most ten messages, the current wait time, the configured visibility timeout. */
    function Query(): (q: ReceiveQuery)
      reads this
      ensures q.maxNumberOfMessages == MaxNumberOfMsg
      ensures q.waitTimeSeconds == sqsWaitTime && q.visibilityTimeout == config.timeout
    {
      ReceiveQuery(MaxNumberOfMsg, sqsWaitTime, config.timeout)
    }

    /**
     * One step: receive a batch (`received` is what the queue answers), adapt
     * the wait time, then validate, process and delete message by message.
     */
    method ReadAndProcess(received: Result<seq<SqsMessage>, Error>) returns (err: Option<Error>)
      modifies this
      ensures received.Failure? ==> err == Some(received.error) && sqsWaitTime == old(sqsWaitTime)
      ensures received.Failure? ==> calls == old(calls) + [Receive(old(Query()))]
      ensures received.Success? ==> err == None
      ensures received.Success? && received.value == [] ==> sqsWaitTime == config.maxWaitTime
      ensures received.Success? && received.value != [] ==> sqsWaitTime == DefSqsWaitTime
      ensures received.Success? ==>
        calls == old(calls) + [Receive(old(Query()))] + BatchCalls(decode, processor, received.value)
    {
      calls := calls + [Receive(Query())];
      if received.Failure? {
        return Some(received.error);
      }
      var mssgs := received.value;
      if |mssgs| == 0 {
        sqsWaitTime := config.maxWaitTime;
      } else {
        sqsWaitTime := DefSqsWaitTime;
      }
      ghost var before := calls;
      ghost var wait := sqsWaitTime;
      for i := 0 to |mssgs|
        invariant sqsWaitTime == wait
        invariant calls == before + BatchCalls(decode, processor, mssgs[..i])
      {
        assert mssgs[..i + 1][..i] == mssgs[..i];
        var mssg := mssgs[i];
        var body := ValidateMssg(decode, mssg);
        if body.Failure? {
          if mssg.Message? {
            calls := calls + [Delete(mssg.receiptHandle)];
          }
          continue;
        }
        calls := calls + [Process(body.value)];
        if processor(body.value).Some? {
          continue;
        }
        calls := calls + [Delete(mssg.receiptHandle)];
      }
      assert mssgs[..|mssgs|] == mssgs;
      return None;
    }
  }
}
