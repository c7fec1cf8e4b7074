/** MQClientSampler itself: the JMeter Java sampler whose fields setupTest,
    runTest and teardownTest update, and the SampleResult it fills in step by
    step. Every call into the MQ library goes through one of the Call methods,
    which ask the library and append the call and its answer to trace. */
module Sampler {
  import opened JavaLang
  import opened MQ
  import opened Exchange

  /** The fields of a JMeter SampleResult that the sampler sets. */
  class SampleResult {
    var samplerData: Option<string>
    var successful: bool
    var responseCode: string
    var responseMessage: string
    var responseData: ResponseData
    /** How many times the sample was ended (sampleEnd); the timing itself is not modelled. */
    ghost var ends: nat

    /** newSampleResult */
    constructor ()
      ensures View() == Started(None) && ends == 0
    {
      samplerData := None;
      successful := false;
      responseCode := "";
      responseMessage := "";
      responseData := Text("");
      ends := 0;
    }

    function View(): ResultView
      reads this
    {
      ResultView(samplerData, successful, responseCode, responseMessage, responseData)
    }
  }

  class MQClientSampler {
    /** The MQ library and the platform charsets the sampler talks to. */
    const lib: Library
    const charsets: Charsets
    /** The queue manager of the last successful connect, if any. */
    var mqMgr: Option<nat>
    /** The connection properties table; null until setupTest runs. */
    var properties: Option<Props>
    /** Every call made into the MQ library so far, with its answer. */
    var trace: seq<Event>

    constructor (lib: Library, charsets: Charsets)
      ensures this.lib == lib && this.charsets == charsets
      ensures mqMgr == None && properties == None && trace == []
    {
      this.lib := lib;
      this.charsets := charsets;
      mqMgr := None;
      properties := None;
      trace := [];
    }

    /** setupTest: fill a new properties table in place. A null host or
        channel makes Hashtable.put throw, a bad port makes Integer.parseInt
        throw; either exception leaves the entries stored so far. */
    method SetupTest(ctx: Context) returns (r: Status)
      modifies this`properties
      ensures var host, port, channel := ctx.Param(HostNameParam), ParseInt(ctx.Param(PortParam)), ctx.Param(ChannelParam);
              && (host.None? ==> r == Threw(NullPointer) && properties == Some(map[]))
              && (host.Some? && port.Thrown? ==>
                    r == Threw(port.exn) && properties == Some(map[HostNameProperty := PString(host.value)]))
              && (host.Some? && port.Ok? && channel.None? ==>
                    && r == Threw(NullPointer)
                    && properties == Some(map[HostNameProperty := PString(host.value), PortProperty := PInt(port.value)]))
              && (host.Some? && port.Ok? && channel.Some? ==>
                    && r == Done
                    && properties == Some(ConnectionProperties(host.value, port.value, channel.value,
                                                               ctx.Param(UserIdParam), ctx.Param(PasswordParam))))
    {
      properties := Some(map[]);
      var host := ctx.Param(HostNameParam);
      if host.None? {
        return Threw(NullPointer);
      }
      properties := Some(properties.value[HostNameProperty := PString(host.value)]);
      var port := ParseInt(ctx.Param(PortParam));
      if port.Thrown? {
        return Threw(port.exn);
      }
      properties := Some(properties.value[PortProperty := PInt(port.value)]);
      var channel := ctx.Param(ChannelParam);
      if channel.None? {
        return Threw(NullPointer);
      }
      properties := Some(properties.value[ChannelProperty := PString(channel.value)]);
      properties := Some(properties.value[UseMQCSPAuthenticationProperty := PBool(true)]);
      var user := ctx.Param(UserIdParam);
      if !IsNullOrEmpty(user) {
        properties := Some(properties.value[UserIdProperty := PString(user.value)]);
      }
      var password := ctx.Param(PasswordParam);
      if !IsNullOrEmpty(password) {
        properties := Some(properties.value[PasswordProperty := PString(password.value)]);
      }
      return Done;
    }

    /** teardownTest: disconnect the stored manager when it reports itself
        connected; an MQException from disconnect is swallowed, any other
        exception propagates. */
    method TeardownTest() returns (r: Status)
      modifies this`trace
      ensures var disconnects := mqMgr.Some? && lib.isConnected(old(trace), mqMgr.value);
              && (!disconnects ==> trace == old(trace) && r == Done)
              && (disconnects ==>
                    var s := DisconnectCall(lib, old(trace), mqMgr.value);
                    && trace == old(trace) + s.events
                    && r == if s.result.Thrown? && !IsMQException(s.result.exn.cls) then Threw(s.result.exn) else Done)
    {
      r := Done;
      if mqMgr.Some? && lib.isConnected(trace, mqMgr.value) {
        var s := CallDisconnect(mqMgr.value);
        if s.Thrown? && !IsMQException(s.exn.cls) {
          r := Threw(s.exn);
        }
      }
    }

    /** runTest: connect and store the manager in mqMgr, put, get, and report
        exactly one success or failure; the manager is not disconnected. */
    method RunTest(ctx: Context) returns (result: SampleResult)
      modifies this`mqMgr, this`trace
      ensures fresh(result)
      ensures var run := Iteration(lib, charsets, old(trace), properties, ctx);
              && trace == old(trace) + run.events
              && mqMgr == (if run.manager.Some? then run.manager else old(mqMgr))
              && result.View() == Report(ctx.Param(MessageParam), run.outcome, lib.lookupReasonCode)
              && result.ends == 1
    {
      result := new SampleResult();
      var message := ctx.Param(MessageParam);
      SampleResultStart(result, message);
      var outcome := ConnectPutGet(ctx, message);
      if outcome.Ok? {
        SampleResultSuccess(result, outcome.value);
      } else {
        SampleResultFail(result, FailCode, outcome.exn);
      }
    }

    /** The try block of runTest: connect, keep the manager, put, get; the
        first exception ends the block and becomes the outcome. */
    method ConnectPutGet(ctx: Context, message: Option<string>) returns (outcome: Result<Option<string>>)
      requires message == ctx.Param(MessageParam)
      modifies this`mqMgr, this`trace
      ensures var run := Iteration(lib, charsets, old(trace), properties, ctx);
              && outcome == run.outcome
              && trace == old(trace) + run.events
              && mqMgr == (if run.manager.Some? then run.manager else old(mqMgr))
    {
      ghost var h := trace;
      ghost var run := Iteration(lib, charsets, h, properties, ctx);
      var managerName := ctx.Param(ManagerParam);
      var connected := CallConnect(managerName, properties);
      ghost var connect := ConnectCall(lib, h, managerName, properties);
      if connected.Thrown? {
        outcome := Thrown(connected.exn);
        assert run == Run(outcome, connect.events, None);
        return;
      }
      mqMgr := Some(connected.value);
      var messageId := PutMQMessage(ctx, message);
      ghost var put := PutMessage(lib, charsets, h + connect.events, |h|, ctx, message);
      if messageId.Thrown? {
        outcome := Thrown(messageId.exn);
        assert run == Run(outcome, connect.events + put.events, Some(|h|));
        return;
      }
      outcome := GetMQMessage(ctx, messageId.value);
      ghost var get := GetMessage(lib, charsets, h + connect.events + put.events, |h|, ctx, messageId.value);
      assert run == Run(outcome, connect.events + put.events + get.events, Some(|h|));
      AppendAssociates(h, connect.events, put.events, get.events);
    }

    /** putMQMessage: open the request queue for output, put the encoded
        message, close the queue and answer the id the put assigned. */
    method PutMQMessage(ctx: Context, message: Option<string>) returns (r: Result<Bytes>)
      requires mqMgr.Some?
      modifies this`trace
      ensures var s := PutMessage(lib, charsets, old(trace), mqMgr.value, ctx, message);
              r == s.result && trace == old(trace) + s.events
    {
      var queueName := ctx.Param(RequestQueueParam);
      var encoding := ctx.Param(EncodingParam);
      var queue := CallAccessQueue(mqMgr.value, queueName, MQOO_OUTPUT);
      if queue.Thrown? {
        return Thrown(queue.exn);
      }
      var payload := Encode(charsets, message, encoding);
      if payload.Thrown? {
        return Thrown(payload.exn);
      }
      var messageId := CallPut(queue.value, payload.value);
      if messageId.Thrown? {
        return messageId;
      }
      var closed := CallClose(queue.value);
      if closed.Thrown? {
        return Thrown(closed.exn);
      }
      return messageId;
    }

    /** getMQMessage: when a reply queue is configured, open it for input, set
        the filter and the wait options, get one message, decode it and close
        the queue; otherwise answer null. */
    method GetMQMessage(ctx: Context, messageId: Bytes) returns (r: Result<Option<string>>)
      requires mqMgr.Some?
      modifies this`trace
      ensures var s := GetMessage(lib, charsets, old(trace), mqMgr.value, ctx, messageId);
              r == s.result && trace == old(trace) + s.events
    {
      ghost var h := trace;
      var queueName := ctx.Param(ReplyQueueParam);
      var gmo := DefaultGetOptions;
      var response: Option<string> := None;
      if !IsNullOrEmpty(queueName) {
        var encoding := ctx.Param(EncodingParam);
        var correlate := ctx.Param(CorrelateParam);
        var msg2 := NewMsg2;
        var queue := CallAccessQueue(mqMgr.value, queueName, MQOO_INPUT_AS_Q_DEF);
        if queue.Thrown? {
          return Thrown(queue.exn);
        }
        if IsNullOrEmpty(correlate) {
          msg2 := msg2.(messageId := Some(messageId));
        } else if correlate.value == MessageIdMode {
          msg2 := msg2.(messageId := Some(messageId));
        } else if correlate.value == CorrelationIdMode {
          msg2 := msg2.(correlationId := Some(messageId));
        }
        assert msg2 == CorrelationFilter(correlate, messageId);
        ghost var afterOpen := trace;
        var wait := ctx.Param(WaitIntervalParam);
        if !IsNullOrEmpty(wait) && IsNumeric(wait) {
          gmo := gmo.(options := MQGMO_WAIT);
          var interval := ParseInt(wait);
          if interval.Thrown? {
            return Thrown(interval.exn);
          }
          gmo := gmo.(waitInterval := interval.value);
        }
        assert WaitOptions(wait) == Ok(gmo);
        var data := CallGetMsg2(queue.value, msg2, gmo);
        if data.Thrown? {
          return Thrown(data.exn);
        }
        var text := Decode(charsets, data.value, encoding);
        if text.Thrown? {
          return Thrown(text.exn);
        }
        response := Some(text.value);
        ghost var got := trace;
        var closed := CallClose(queue.value);
        AppendAssociates(h, AccessCall(lib, h, mqMgr.value, queueName, MQOO_INPUT_AS_Q_DEF).events,
                         GetCall(lib, afterOpen, queue.value, msg2, gmo).events, CloseCall(lib, got, queue.value).events);
        if closed.Thrown? {
          return Thrown(closed.exn);
        }
      }
      return Ok(response);
    }

    /** sampleResultStart: record the request as the sampler data. */
    method SampleResultStart(result: SampleResult, data: Option<string>)
      modifies result
      ensures result.View() == old(result.View()).(samplerData := data)
      ensures result.ends == old(result.ends)
    {
      result.samplerData := data;
    }

    /** sampleResultSuccess: end the sample as successful with the OK code and
        the response, or the sentinel when there is none. */
    method SampleResultSuccess(result: SampleResult, response: Option<string>)
      modifies result
      ensures result.View() == old(result.View()).(successful := true, responseCode := OkCode,
                                                  responseData := Text(SuccessData(response)))
      ensures result.ends == old(result.ends) + 1
    {
      result.ends := result.ends + 1;
      result.successful := true;
      result.responseCode := OkCode;
      if response.Some? {
        result.responseData := Text(response.value);
      } else {
        result.responseData := Text(NoResponse);
      }
    }

    /** sampleResultFail: end the sample as failed with the given code, the
        composed failure message and the exception's stack trace. */
    method SampleResultFail(result: SampleResult, reason: string, e: Exn)
      modifies result
      ensures result.View() == old(result.View()).(successful := false, responseCode := reason,
                                                  responseMessage := FailureMessage(e, lib.lookupReasonCode),
                                                  responseData := StackTrace(e))
      ensures result.ends == old(result.ends) + 1
    {
      result.ends := result.ends + 1;
      result.successful := false;
      result.responseCode := reason;
      var responseMessage := "Exception: " + Render(e.message);
      responseMessage := responseMessage + (if e.cls == MQException then " MQ Reason Code: " + Render(lib.lookupReasonCode(e.reason)) else "");
      responseMessage := responseMessage + (if e.cause.Some? then " Cause: " + e.cause.value else "");
      result.responseMessage := responseMessage;
      result.responseData := StackTrace(e);
    }

    /** new MQQueueManager(name, properties). */
    method CallConnect(name: Option<string>, props: Option<Props>) returns (r: Result<nat>)
      modifies this`trace
      ensures var s := ConnectCall(lib, old(trace), name, props); r == s.result && trace == old(trace) + s.events
    {
      var status := lib.connect(trace, name, props);
      r := Answer(status, |trace|);
      trace := trace + [Connect(name, props, status)];
    }

    /** mqMgr.accessQueue(name, options). */
    method CallAccessQueue(mgr: nat, name: Option<string>, options: int) returns (r: Result<nat>)
      modifies this`trace
      ensures var s := AccessCall(lib, old(trace), mgr, name, options); r == s.result && trace == old(trace) + s.events
    {
      var status := lib.accessQueue(trace, mgr, name, options);
      r := Answer(status, |trace|);
      trace := trace + [AccessQueue(mgr, name, options, status)];
    }

    /** queue.put(message, new MQPutMessageOptions()), answering message.messageId. */
    method CallPut(queue: nat, payload: Bytes) returns (r: Result<Bytes>)
      modifies this`trace
      ensures var s := PutCall(lib, old(trace), queue, payload); r == s.result && trace == old(trace) + s.events
    {
      r := lib.put(trace, queue, payload);
      trace := trace + [Put(queue, payload, r)];
    }

    /** queue.getMsg2(msg2, gmo), answering msg2.getMessageData(). */
    method CallGetMsg2(queue: nat, filter: Msg2, gmo: GetOptions) returns (r: Result<Bytes>)
      modifies this`trace
      ensures var s := GetCall(lib, old(trace), queue, filter, gmo); r == s.result && trace == old(trace) + s.events
    {
      r := lib.getMsg2(trace, queue, filter, gmo);
      trace := trace + [GetMsg2(queue, filter, gmo, r)];
    }

    /** queue.close(). */
    method CallClose(queue: nat) returns (r: Result<()>)
      modifies this`trace
      ensures var s := CloseCall(lib, old(trace), queue); r == s.result && trace == old(trace) + s.events
    {
      var status := lib.close(trace, queue);
      r := Answer(status, ());
      trace := trace + [Close(queue, status)];
    }

    /** mqMgr.disconnect(). */
    method CallDisconnect(mgr: nat) returns (r: Result<()>)
      modifies this`trace
      ensures var s := DisconnectCall(lib, old(trace), mgr); r == s.result && trace == old(trace) + s.events
    {
      var status := lib.disconnect(trace, mgr);
      r := Answer(status, ());
      trace := trace + [Disconnect(mgr, status)];
    }
  }

  lemma AppendAssociates(h: seq<Event>, a: seq<Event>, b: seq<Event>, c: seq<Event>)
    ensures h + a + b + c == h + (a + b + c)
  {
  }

  /** Two iterations followed by teardownTest, as JMeter drives one thread:
      runTest never disconnects, so the only disconnect is teardownTest's,
      made last and for the manager stored by the most recent successful
      connect; a manager replaced by a later connect is never disconnected. */
  method RunTwiceThenTeardown(sampler: MQClientSampler, ctx: Context) returns (r: Status)
    modifies sampler
    ensures forall i :: |old(sampler.trace)| <= i < |sampler.trace| && sampler.trace[i].Disconnect? ==>
              && i == |sampler.trace| - 1
              && sampler.mqMgr.Some? && sampler.trace[i].mgr == sampler.mqMgr.value
  {
    ghost var h0 := sampler.trace;
    var first := sampler.RunTest(ctx);
    ghost var h1 := sampler.trace;
    var second := sampler.RunTest(ctx);
    ghost var h2 := sampler.trace;
    assert forall i :: |h0| <= i < |h2| ==> !h2[i].Disconnect? by {
      forall i | |h0| <= i < |h2| ensures !h2[i].Disconnect? {
        if i < |h1| {
          assert h2[i] == h1[i];
        }
      }
    }
    r := sampler.TeardownTest();
  }
}
