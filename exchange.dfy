/** The decisions of MQClientSampler, as functions: the string rules that pick
    the get filter and the wait options, the composition of the result texts,
    the connection properties, and, in state-passing form over the trace of
    MQ calls, what putMQMessage, getMQMessage and runTest do. */
module Exchange {
  import opened JavaLang
  import opened MQ

  /** Names of the sampler's parameters. */
  const ManagerParam := "mq_manager"
  const RequestQueueParam := "mq_queue_rqst"
  const ReplyQueueParam := "mq_queue_rsps"
  const CorrelateParam := "mq_correlate_rsps_msg"
  const HostNameParam := "mq_hostname"
  const ChannelParam := "mq_channel"
  const UserIdParam := "mq_user_id"
  const PasswordParam := "mq_user_password"
  const PortParam := "mq_port"
  const MessageParam := "mq_message"
  const EncodingParam := "mq_encoding_message"
  const WaitIntervalParam := "mq_wait_interval"

  /** The two recognised correlation modes. */
  const MessageIdMode := "messageId"
  const CorrelationIdMode := "correlationId"

  /** Response texts and codes of the sample result. */
  const NoResponse := "No response required"
  const OkCode := "200"
  const FailCode := "500"

  /** The sampler context: getParameter answers null for a missing name. */
  datatype Context = Context(params: map<string, string>) {
    function Param(name: string): Option<string> {
      if name in params then Some(params[name]) else None
    }
  }

  /** The filter getMQMessage hands to getMsg2: a null or empty mode, or
      exactly "messageId", selects by message id; exactly "correlationId"
      selects by correlation id; every other string (compared case-sensitively)
      sets no id at all. */
  function CorrelationFilter(mode: Option<string>, id: Bytes): (m: Msg2)
    ensures m.messageId.Some? <==> IsNullOrEmpty(mode) || mode == Some(MessageIdMode)
    ensures m.correlationId.Some? <==> mode == Some(CorrelationIdMode)
    ensures m.messageId.Some? ==> m.messageId.value == id
    ensures m.correlationId.Some? ==> m.correlationId.value == id
  {
    if IsNullOrEmpty(mode) then NewMsg2.(messageId := Some(id))
    else if mode.value == MessageIdMode then NewMsg2.(messageId := Some(id))
    else if mode.value == CorrelationIdMode then NewMsg2.(correlationId := Some(id))
    else NewMsg2
  }

  /** The get-message options: only a non-empty, all-digit wait interval
      switches on MQGMO_WAIT with that interval; Integer.parseInt then throws
      when the digits exceed the int range. */
  function WaitOptions(wait: Option<string>): (r: Result<GetOptions>)
    ensures !IsNumeric(wait) ==> r == Ok(DefaultGetOptions)
    ensures IsNumeric(wait) && DecimalValue(wait.value) <= MaxInt
            ==> r == Ok(GetOptions(MQGMO_WAIT, DecimalValue(wait.value)))
    ensures IsNumeric(wait) && DecimalValue(wait.value) > MaxInt
            ==> r == Thrown(BadNumber(wait.value))
  {
    if !IsNullOrEmpty(wait) && IsNumeric(wait) then
      match ParseInt(wait)
      case Ok(n) => Ok(GetOptions(MQGMO_WAIT, n))
      case Thrown(e) => Thrown(e)
    else
      Ok(DefaultGetOptions)
  }

  /** The response data of a successful sample. */
  function SuccessData(response: Option<string>): string {
    if response.Some? then response.value else NoResponse
  }

  /** The reason-code part of the failure message: present only for an
      exception whose class is exactly MQException. */
  function ReasonPart(e: Exn, lookup: int -> Option<string>): string {
    if e.cls == MQException then " MQ Reason Code: " + Render(lookup(e.reason)) else ""
  }

  /** The cause part of the failure message: present only when there is a cause. */
  function CausePart(e: Exn): string {
    if e.cause.Some? then " Cause: " + e.cause.value else ""
  }

  /** The response message of a failed sample. */
  function FailureMessage(e: Exn, lookup: int -> Option<string>): (m: string)
    ensures "Exception: " + Render(e.message) <= m
    ensures e.cause.Some? ==> EndsWith(m, " Cause: " + e.cause.value)
    ensures e.cls == MQException ==> "Exception: " + Render(e.message) + " MQ Reason Code: " + Render(lookup(e.reason)) <= m
    ensures e.cls == MQException && e.cause.None?
            ==> EndsWith(m, " MQ Reason Code: " + Render(lookup(e.reason)))
    ensures e.cls != MQException && e.cause.None? ==> m == "Exception: " + Render(e.message)
    ensures |m| == 11 + |Render(e.message)|
                   + (if e.cls == MQException then 17 + |Render(lookup(e.reason))| else 0)
                   + (if e.cause.Some? then 8 + |e.cause.value| else 0)
  {
    var head := "Exception: " + Render(e.message);
    var m := head + ReasonPart(e, lookup) + CausePart(e);
    assert m[..|head|] == head;
    assert m[..|head + ReasonPart(e, lookup)|] == head + ReasonPart(e, lookup);
    m
  }

  /** The connection properties setupTest stores once every mandatory value is
      present: host, port, channel and MQCSP authentication always, a user id and
      a password only when they are non-null and non-empty. */
  function ConnectionProperties(host: string, port: int, channel: string,
                                user: Option<string>, password: Option<string>): (p: Props)
    ensures p.Keys == {HostNameProperty, PortProperty, ChannelProperty, UseMQCSPAuthenticationProperty}
                      + (if IsNullOrEmpty(user) then {} else {UserIdProperty})
                      + (if IsNullOrEmpty(password) then {} else {PasswordProperty})
    ensures p[HostNameProperty] == PString(host) && p[PortProperty] == PInt(port)
    ensures p[ChannelProperty] == PString(channel)
    ensures p[UseMQCSPAuthenticationProperty] == PBool(true)
    ensures UserIdProperty in p ==> p[UserIdProperty] == PString(user.value)
    ensures PasswordProperty in p ==> p[PasswordProperty] == PString(password.value)
  {
    var base := map[HostNameProperty := PString(host), PortProperty := PInt(port),
                    ChannelProperty := PString(channel), UseMQCSPAuthenticationProperty := PBool(true)];
    var withUser := if IsNullOrEmpty(user) then base else base[UserIdProperty := PString(user.value)];
    if IsNullOrEmpty(password) then withUser else withUser[PasswordProperty := PString(password.value)]
  }

  /** What a sequence of MQ calls produced, and the calls it made. */
  datatype Step<+T> = Step(result: Result<T>, events: seq<Event>)

  function Answer<T>(s: Status, v: T): Result<T> {
    if s.Done? then Ok(v) else Thrown(s.exn)
  }

  /** One call into the library after history h; a new manager or queue is
      named by the position of its event, |h|. */
  function ConnectCall(lib: Library, h: seq<Event>, name: Option<string>, props: Option<Props>): Step<nat> {
    var s := lib.connect(h, name, props);
    Step(Answer(s, |h|), [Connect(name, props, s)])
  }

  function AccessCall(lib: Library, h: seq<Event>, mgr: nat, queue: Option<string>, options: int): Step<nat> {
    var s := lib.accessQueue(h, mgr, queue, options);
    Step(Answer(s, |h|), [AccessQueue(mgr, queue, options, s)])
  }

  function PutCall(lib: Library, h: seq<Event>, q: nat, payload: Bytes): Step<Bytes> {
    var r := lib.put(h, q, payload);
    Step(r, [Put(q, payload, r)])
  }

  function GetCall(lib: Library, h: seq<Event>, q: nat, filter: Msg2, gmo: GetOptions): Step<Bytes> {
    var r := lib.getMsg2(h, q, filter, gmo);
    Step(r, [GetMsg2(q, filter, gmo, r)])
  }

  function CloseCall(lib: Library, h: seq<Event>, q: nat): Step<()> {
    var s := lib.close(h, q);
    Step(Answer(s, ()), [Close(q, s)])
  }

  function DisconnectCall(lib: Library, h: seq<Event>, mgr: nat): Step<()> {
    var s := lib.disconnect(h, mgr);
    Step(Answer(s, ()), [Disconnect(mgr, s)])
  }

  /** A call on the reply side of the exchange. */
  predicate IsReplySide(e: Event) {
    (e.AccessQueue? && e.openOptions == MQOO_INPUT_AS_Q_DEF) || e.GetMsg2?
  }

  /** putMQMessage on manager mgr after history h: open the request queue for
      output, encode the message, put it, close the queue, and answer the
      message id the put assigned. */
  function PutMessage(lib: Library, cs: Charsets, h: seq<Event>, mgr: nat, ctx: Context,
                      message: Option<string>): (s: Step<Bytes>)
    ensures 1 <= |s.events| <= 3
    ensures s.events[0] == AccessQueue(mgr, ctx.Param(RequestQueueParam), MQOO_OUTPUT,
                                       lib.accessQueue(h, mgr, ctx.Param(RequestQueueParam), MQOO_OUTPUT))
    ensures forall i :: 0 <= i < |s.events| ==> !IsReplySide(s.events[i])
    ensures forall i :: 0 <= i < |s.events| ==> !s.events[i].Connect? && !s.events[i].Disconnect?
    ensures forall i :: 0 < i < |s.events| ==> !s.events[i].AccessQueue?
    ensures forall i :: 0 <= i < |s.events| && s.events[i].Close? ==> i == 2 && s.events[i].handle == |h|
    ensures |s.events| >= 2 ==>
              var payload := Encode(cs, message, ctx.Param(EncodingParam));
              && payload.Ok? && s.events[1].Put? && s.events[1].handle == |h|
              && s.events[1].payload == payload.value
    ensures |s.events| == 3 ==> s.events[2].Close?
    ensures |s.events| >= 2 ==> s.events[1].assignedId == lib.put(h + [s.events[0]], |h|, s.events[1].payload)
    ensures |s.events| == 3 ==> s.events[2].status == lib.close(h + [s.events[0], s.events[1]], |h|)
    ensures s.result.Ok? <==> |s.events| == 3 && Succeeded(s.events[2])
    ensures s.result.Ok? ==>
              var payload := Encode(cs, message, ctx.Param(EncodingParam));
              && payload.Ok?
              && s.events[1] == Put(|h|, payload.value, Ok(s.result.value))
              && s.events[2] == Close(|h|, Done)
    ensures forall i :: 0 <= i < |s.events| && !Succeeded(s.events[i]) ==>
              i == |s.events| - 1 && s.result == Thrown(ThrownBy(s.events[i]))
    ensures s.result.Thrown? && Succeeded(s.events[|s.events| - 1]) ==>
              var payload := Encode(cs, message, ctx.Param(EncodingParam));
              |s.events| == 1 && payload.Thrown? && s.result.exn == payload.exn
  {
    var access := AccessCall(lib, h, mgr, ctx.Param(RequestQueueParam), MQOO_OUTPUT);
    if access.result.Thrown? then Step(Thrown(access.result.exn), access.events)
    else
      var q := access.result.value;
      var payload := Encode(cs, message, ctx.Param(EncodingParam));
      if payload.Thrown? then Step(Thrown(payload.exn), access.events)
      else
        var put := PutCall(lib, h + access.events, q, payload.value);
        if put.result.Thrown? then Step(put.result, access.events + put.events)
        else
          assert h + access.events + put.events == h + [access.events[0], put.events[0]];
          var close := CloseCall(lib, h + access.events + put.events, q);
          Step(if close.result.Thrown? then Thrown(close.result.exn) else put.result,
               access.events + put.events + close.events)
  }

  /** getMQMessage on manager mgr after history h, correlating with id: when a
      reply queue is configured, open it for input, build the filter and the
      wait options, get one message, decode it and close the queue; otherwise
      touch nothing and answer null. */
  function GetMessage(lib: Library, cs: Charsets, h: seq<Event>, mgr: nat, ctx: Context,
                      id: Bytes): (s: Step<Option<string>>)
    ensures |s.events| <= 3
    ensures IsNullOrEmpty(ctx.Param(ReplyQueueParam)) <==> s.events == []
    ensures IsNullOrEmpty(ctx.Param(ReplyQueueParam)) ==> s.result == Ok(None)
    ensures !IsNullOrEmpty(ctx.Param(ReplyQueueParam)) ==>
              s.events[0] == AccessQueue(mgr, ctx.Param(ReplyQueueParam), MQOO_INPUT_AS_Q_DEF,
                                         lib.accessQueue(h, mgr, ctx.Param(ReplyQueueParam), MQOO_INPUT_AS_Q_DEF))
    ensures forall i :: 0 <= i < |s.events| ==> !s.events[i].Connect? && !s.events[i].Disconnect?
    ensures forall i :: 0 < i < |s.events| ==> !s.events[i].AccessQueue?
    ensures |s.events| >= 2 ==> s.events[1].GetMsg2?
    ensures |s.events| == 3 ==> s.events[2].Close?
    ensures |s.events| >= 2 ==>
              s.events[1].data == lib.getMsg2(h + [s.events[0]], |h|, s.events[1].filter, s.events[1].gmo)
    ensures |s.events| == 3 ==> s.events[2].status == lib.close(h + [s.events[0], s.events[1]], |h|)
    ensures forall i :: 0 <= i < |s.events| && s.events[i].GetMsg2? ==>
              && i == 1
              && WaitOptions(ctx.Param(WaitIntervalParam)).Ok?
              && s.events[i].handle == |h|
              && s.events[i].filter == CorrelationFilter(ctx.Param(CorrelateParam), id)
              && s.events[i].gmo == WaitOptions(ctx.Param(WaitIntervalParam)).value
    ensures s.result.Ok? && !IsNullOrEmpty(ctx.Param(ReplyQueueParam)) ==>
              && |s.events| == 3 && s.events[1].GetMsg2? && s.events[1].data.Ok?
              && var text := Decode(cs, s.events[1].data.value, ctx.Param(EncodingParam));
              && text.Ok? && s.result.value == Some(text.value)
              && s.events[2] == Close(|h|, Done)
    ensures forall i :: 0 <= i < |s.events| && s.events[i].Close? ==> i == 2 && s.events[i].handle == |h|
    ensures forall i :: 0 <= i < |s.events| && !Succeeded(s.events[i]) ==>
              i == |s.events| - 1 && s.result == Thrown(ThrownBy(s.events[i]))
    ensures s.result.Thrown? && |s.events| > 0 && Succeeded(s.events[|s.events| - 1]) ==>
              var gmo := WaitOptions(ctx.Param(WaitIntervalParam));
              || (|s.events| == 1 && gmo.Thrown? && s.result.exn == gmo.exn)
              || (&& |s.events| == 2 && s.events[1].GetMsg2? && s.events[1].data.Ok?
                  && var text := Decode(cs, s.events[1].data.value, ctx.Param(EncodingParam));
                  text.Thrown? && s.result.exn == text.exn)
  {
    var queue := ctx.Param(ReplyQueueParam);
    if IsNullOrEmpty(queue) then Step(Ok(None), [])
    else
      var encoding := ctx.Param(EncodingParam);
      var mode := ctx.Param(CorrelateParam);
      var access := AccessCall(lib, h, mgr, queue, MQOO_INPUT_AS_Q_DEF);
      if access.result.Thrown? then Step(Thrown(access.result.exn), access.events)
      else
        var q := access.result.value;
        var filter := CorrelationFilter(mode, id);
        var gmo := WaitOptions(ctx.Param(WaitIntervalParam));
        if gmo.Thrown? then Step(Thrown(gmo.exn), access.events)
        else
          var get := GetCall(lib, h + access.events, q, filter, gmo.value);
          if get.result.Thrown? then Step(Thrown(get.result.exn), access.events + get.events)
          else
            var text := Decode(cs, get.result.value, encoding);
            if text.Thrown? then Step(Thrown(text.exn), access.events + get.events)
            else
              assert h + access.events + get.events == h + [access.events[0], get.events[0]];
              var close := CloseCall(lib, h + access.events + get.events, q);
              Step(if close.result.Thrown? then Thrown(close.result.exn) else Ok(Some(text.value)),
                   access.events + get.events + close.events)
  }

  /** One runTest after history h: the response (or the exception caught), the
      MQ calls made, and the manager stored in mqMgr when the connect succeeded. */
  datatype Run = Run(outcome: Result<Option<string>>, events: seq<Event>, manager: Option<nat>)

  /** runTest: connect, put, get, all inside one try; the manager is kept in
      mqMgr and never disconnected here. */
  function Iteration(lib: Library, cs: Charsets, h: seq<Event>, props: Option<Props>,
                     ctx: Context): (run: Run)
    ensures 1 <= |run.events| <= 7
    ensures run.events[0] == Connect(ctx.Param(ManagerParam), props,
                                     lib.connect(h, ctx.Param(ManagerParam), props))
    ensures run.manager.Some? <==> Succeeded(run.events[0])
    ensures run.manager.Some? ==> run.manager.value == |h|
    ensures run.manager.None? ==> |run.events| == 1 && run.outcome == Thrown(ThrownBy(run.events[0]))
    ensures forall i :: 0 <= i < |run.events| ==> !run.events[i].Disconnect?
    ensures forall i :: 0 < i < |run.events| ==> !run.events[i].Connect?
  {
    var message := ctx.Param(MessageParam);
    var connect := ConnectCall(lib, h, ctx.Param(ManagerParam), props);
    if connect.result.Thrown? then Run(Thrown(connect.result.exn), connect.events, None)
    else
      var mgr := connect.result.value;
      var put := PutMessage(lib, cs, h + connect.events, mgr, ctx, message);
      if put.result.Thrown? then Run(Thrown(put.result.exn), connect.events + put.events, Some(mgr))
      else
        var get := GetMessage(lib, cs, h + connect.events + put.events, mgr, ctx, put.result.value);
        Run(get.result, connect.events + put.events + get.events, Some(mgr))
  }

  /** The response data of a sample: a text, or the stack trace of an exception
      (whose rendering is not modelled). */
  datatype ResponseData = Text(text: string) | StackTrace(of: Exn)

  /** The fields of a JMeter SampleResult the sampler sets. */
  datatype ResultView = ResultView(samplerData: Option<string>, successful: bool, responseCode: string,
                                   responseMessage: string, responseData: ResponseData)

  /** A fresh SampleResult with its sampler data set to the request message. */
  function Started(message: Option<string>): ResultView {
    ResultView(message, false, "", "", Text(""))
  }

  /** The sample result runTest returns for the given outcome: exactly one of
      sampleResultSuccess and sampleResultFail has been applied to it. */
  function Report(message: Option<string>, outcome: Result<Option<string>>,
                  lookup: int -> Option<string>): (v: ResultView)
    ensures v.samplerData == message
    ensures v.successful <==> outcome.Ok?
    ensures v.successful ==> v.responseCode == OkCode && v.responseMessage == ""
    ensures outcome.Ok? && outcome.value.Some? ==> v.responseData == Text(outcome.value.value)
    ensures outcome.Ok? && outcome.value.None? ==> v.responseData == Text(NoResponse)
    ensures !v.successful ==> v.responseCode == FailCode
                              && v.responseMessage == FailureMessage(outcome.exn, lookup)
                              && v.responseData == StackTrace(outcome.exn)
  {
    var v := Started(message);
    match outcome
    case Ok(response) =>
      v.(successful := true, responseCode := OkCode, responseData := Text(SuccessData(response)))
    case Thrown(e) =>
      v.(successful := false, responseCode := FailCode, responseMessage := FailureMessage(e, lookup),
         responseData := StackTrace(e))
  }
}
