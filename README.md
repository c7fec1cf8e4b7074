# MQ request/reply sampler

A Dafny model of `MQClientSampler`, a JMeter Java sampler that sends one
message to an IBM MQ request queue and can also read the matching reply from
a reply queue. Per test thread, `setupTest` builds the connection properties
table once. Each iteration runs `runTest`, which:

1. connects to the queue manager and keeps it in the `mqMgr` field;
2. puts the encoded message (`putMQMessage`);
3. optionally gets the reply (`getMQMessage`), filtering on the put's message
   id under the configured correlation mode and wait interval;
4. fills in a JMeter `SampleResult` as either a success or a failure.

`teardownTest` disconnects the stored manager if it reports itself connected.

The model is split into five modules:

- `JavaLang` covers the Java platform pieces the sampler depends on:
  - null references, as `Option`;
  - exceptions, as `Exn` values;
  - `Integer.parseInt`;
  - the digit test of `StringUtils.isNumeric`.
- `MQ` describes the MQ client library as an abstract collaborator. Each call
  (connect, accessQueue, put, getMsg2, close, disconnect, isConnected, and the
  reason-code lookup) is a total function of the call history and the call's
  arguments. Connect, accessQueue, put, getMsg2, close and disconnect may
  answer anything or throw at any step, and each is recorded with its answer
  as an `Event` in a trace. `isConnected` and the reason-code lookup are not
  recorded and cannot throw. A queue manager or queue handle is named by the
  position of the event that created it.
- `Exchange` holds the sampler's decisions as functions:
  - the correlation filter and the wait options;
  - the success data and the failure message;
  - the charset steps `Encode` (`message.getBytes`, line 246) and `Decode`
    (`new String(data, encoding)`, line 291), which throw
    NullPointerException for a null argument and otherwise give the platform
    charset's answer. These and `SuccessData` are plain definitions; what
    they mean for a run is stated by `Exchange.PutMessage`,
    `Exchange.GetMessage`, `Exchange.Report` and
    `ExchangeProperties.OutcomeFollowsCalls`;
  - the connection properties;
  - in state-passing form over the trace, what `putMQMessage`,
    `getMQMessage` and one `runTest` iteration do: the calls made, their
    order, and the outcome.
- `ExchangeProperties` proves properties of one iteration:
  - ordering;
  - correlation with the put's id;
  - failures end the iteration;
  - which queue handles stay open;
  - behaviour for malformed wait intervals.
- `Sampler` is the imperative form:
  - the classes `MQClientSampler` (fields `mqMgr`, `properties`, and the
    `trace` of library calls) and `SampleResult`;
  - their methods, each proved to update the state exactly as the `Exchange`
    functions say.

Behaviours of the code worth knowing:

- **Success code.** The success response code is `"200"`: the code calls
  `setResponseCodeOK()`, which sets JMeter's OK code. The javadoc of
  `sampleResultSuccess` (MQClientSampler.java:327) says `setResponseCode("OK")`;
  the model follows the code.
- **No disconnect in `runTest`.** `runTest` never disconnects; a connection
  stays open until `teardownTest`. Each iteration whose connect succeeds replaces
  `mqMgr`, and only
  `teardownTest` disconnects, at most once, for the last stored manager
  (`Sampler.RunTwiceThenTeardown`).
- **Queue handles can stay open.** Queue handles are closed only on the
  normal path. An exception after a successful `accessQueue` and before the
  queue's `close` is attempted leaves that queue open
  (`ExchangeProperties.FailureLeavesQueueOpen`). A close that was attempted
  counts as closing the queue, even when `close` itself threw.
- **Failed connect keeps the old manager.** A failed connect leaves the
  previous `mqMgr` in place.
- **`setupTest` can stop part way.** `setupTest` throws part way for a null
  host or channel (`Hashtable.put` rejects null) and for a bad port. Entries
  stored before the exception are kept.

## Model

All source paths are `src/main/java/co/signal/mqmeter/MQClientSampler.java`.

| member | source | states |
|---|---|---|
| JavaLang.ParseInt | src/main/java/co/signal/mqmeter/MQClientSampler.java:286 | Integer.parseInt: results stay within 32 bits. Failures are NumberFormatException without a cause; for a non-null string the message is `For input string` with that string. A digit string parses exactly when its decimal value fits in an int, and then to that value. A non-digit string without a sign throws. |
| JavaLang.ParseIntOfToString | src/main/java/co/signal/mqmeter/MQClientSampler.java:161 | Checks the ParseInt model against a reference Integer.toString: every 32-bit int rendered in decimal parses back to itself. |
| JavaLang.DigitsValue | src/main/java/co/signal/mqmeter/MQClientSampler.java:161 | The reference decimal rendering used to check ParseInt has the value it renders. |
| JavaLang.DecimalValueLowerBound | src/main/java/co/signal/mqmeter/MQClientSampler.java:284-286 | A digit string without a leading zero is worth at least 10^(length-1). |
| JavaLang.PowMonotone | src/main/java/co/signal/mqmeter/MQClientSampler.java:284-286 | Powers of ten grow with the exponent. |
| JavaLang.LongNumeralOverflows | src/main/java/co/signal/mqmeter/MQClientSampler.java:284-286 | Any digit string of 11 or more digits without a leading zero passes StringUtils.isNumeric but makes Integer.parseInt throw. |
| JavaLang.Digits | src/main/java/co/signal/mqmeter/MQClientSampler.java:161 | The reference decimal rendering used to check ParseInt is non-empty, all digits, and unsigned. |
| JavaLang.IsNumeric | src/main/java/co/signal/mqmeter/MQClientSampler.java:284 | StringUtils.isNumeric: a numeric string is non-null, non-empty and unsigned, and a string whose first character is not an ASCII digit is not numeric. |
| MQ.Encode | src/main/java/co/signal/mqmeter/MQClientSampler.java:246 | A definition without a contract (a null message or charset name throws NullPointerException, otherwise the platform charset answers); what it means for a run is stated by Exchange.PutMessage and ExchangeProperties.OutcomeFollowsCalls. |
| MQ.Decode | src/main/java/co/signal/mqmeter/MQClientSampler.java:291 | A definition without a contract (a null charset name throws NullPointerException, otherwise the platform charset answers); what it means for a run is stated by Exchange.GetMessage and ExchangeProperties.OutcomeFollowsCalls. |
| Exchange.SuccessData | src/main/java/co/signal/mqmeter/MQClientSampler.java:341-344 | A definition without a contract (the response, or the sentinel for null); what it means for a sample is stated by Exchange.Report. |
| Exchange.CorrelationFilter | src/main/java/co/signal/mqmeter/MQClientSampler.java:275-280 | The message id is set iff the mode is null, empty or exactly "messageId". The correlation id is set iff the mode is exactly "correlationId". Whichever field is set equals the put's id. |
| Exchange.WaitOptions | src/main/java/co/signal/mqmeter/MQClientSampler.java:262-287 | A wait that is not numeric keeps the default options (no wait, interval 0). A numeric wait in range sets MQGMO_WAIT with its decimal value. A numeric wait out of range throws the parseInt exception. |
| Exchange.FailureMessage | src/main/java/co/signal/mqmeter/MQClientSampler.java:363-366 | The message starts with "Exception: " and the exception's message. For class exactly MQException the reason-code text " MQ Reason Code: " and the looked-up name follow that prefix, with or without a cause; for any other class it is absent. The cause suffix appears only when there is a cause. The exact text is given when neither applies, plus the exact length. |
| Exchange.ConnectionProperties | src/main/java/co/signal/mqmeter/MQClientSampler.java:159-171 | The keys are host, port, channel and MQCSP authentication (true), plus userID or password only when that value is non-null and non-empty. Every value is the one supplied. |
| Exchange.PutMessage | src/main/java/co/signal/mqmeter/MQClientSampler.java:237-251 | At most three calls, on every path: access the request queue for OUTPUT first; any second call is the put of the encoded message on that handle; any third call is the close of that handle. The put's assigned id and the close's status are exactly what the library answered after the calls before them. It never touches the reply side. It succeeds iff all three calls succeed. It then answers the id the put assigned to the encoded message. A failing call is the last and its exception is the result. A failure with no failing call is an encoding failure. |
| Exchange.GetMessage | src/main/java/co/signal/mqmeter/MQClientSampler.java:260-297 | With no reply queue it makes no calls and answers null. Otherwise, on every path, the first call opens the reply queue for input, any second call is getMsg2 on that handle with the correlation filter and wait options above, and any third call is the close of that handle. The getMsg2 data and the close's status are exactly what the library answered after the calls before them. On success it answers the decoded data and closes the queue. A failing call is last. The only local failures are a parseInt failure (before getMsg2) and a decode failure (before close). |
| Exchange.Iteration | src/main/java/co/signal/mqmeter/MQClientSampler.java:201-227 | At most seven calls, starting with the connect. The manager is stored iff the connect succeeded. A failed connect is the only call and its exception is the outcome. No later connect and no disconnect occur. |
| Exchange.Report | src/main/java/co/signal/mqmeter/MQClientSampler.java:208-224 | The sampler data is the message. The sample is successful iff no exception was caught. On success: code 200, the response text or "No response required". On failure: code 500, the failure message, the exception's stack trace. |
| ExchangeProperties.NoReplyQueueMeansNoReplySide | src/main/java/co/signal/mqmeter/MQClientSampler.java:261-296 | Without a reply queue there is no reply-side call. Success means exactly four calls with the last succeeding, and the data is the sentinel. |
| ExchangeProperties.ReplyQueueSuccessDecodesReply | src/main/java/co/signal/mqmeter/MQClientSampler.java:265-296 | With a reply queue, a successful run makes seven calls; getMsg2 on the reply-queue handle is the sixth with data, the answer is the decoded data, and the reply queue is closed last. |
| ExchangeProperties.PublishPrecedesReply | src/main/java/co/signal/mqmeter/MQClientSampler.java:213-217 | Any reply-side call comes after a successful connect, request-queue access, put and close, in that order. |
| ExchangeProperties.CorrelationUsesPutId | src/main/java/co/signal/mqmeter/MQClientSampler.java:215-290 | getMsg2 is the sixth call. It filters on the id the put returned, on the reply-queue handle, with the configured wait options. |
| ExchangeProperties.FailureEndsIteration | src/main/java/co/signal/mqmeter/MQClientSampler.java:210-225 | A failing call is the last one. Its exception is the outcome, reported with code 500. |
| ExchangeProperties.OutcomeFollowsCalls | src/main/java/co/signal/mqmeter/MQClientSampler.java:210-291 | Success implies every call succeeded. A failure with no failing call is an encode, wait-interval or decode failure at the matching position. |
| ExchangeProperties.PutOutcomeFollowsCalls | src/main/java/co/signal/mqmeter/MQClientSampler.java:244-250 | When putMQMessage threw, the sample failed; if no call failed, the failure is the encoding of the request, after two calls. |
| ExchangeProperties.GetOutcomeFollowsCalls | src/main/java/co/signal/mqmeter/MQClientSampler.java:260-297 | When putMQMessage returned, success means every call succeeded, and a failure with no failing call is the wait-interval parse (after five calls) or the decode (after six). |
| ExchangeProperties.SuccessClosesQueues | src/main/java/co/signal/mqmeter/MQClientSampler.java:249-293 | A successful iteration closes every queue it opened. |
| ExchangeProperties.FailureLeavesQueueOpen | src/main/java/co/signal/mqmeter/MQClientSampler.java:244-293 | A failed iteration leaves a queue open iff the last call is neither a close nor a failed connect or access; a close that was attempted counts as closing, even when it threw. |
| ExchangeProperties.PutFailureLeavesQueueOpen | src/main/java/co/signal/mqmeter/MQClientSampler.java:244-249 | The same iff, when putMQMessage threw. |
| ExchangeProperties.GetFailureLeavesQueueOpen | src/main/java/co/signal/mqmeter/MQClientSampler.java:272-293 | The same iff, when getMQMessage threw. |
| ExchangeProperties.WaitOverflowStopsGet | src/main/java/co/signal/mqmeter/MQClientSampler.java:284-290 | With an out-of-range numeric wait, getMQMessage stops after opening the reply queue, with the parseInt exception. |
| ExchangeProperties.BadNumberReport | src/main/java/co/signal/mqmeter/MQClientSampler.java:357-366 | A NumberFormatException is reported as failed, code 500, message `Exception: For input string: "…"`. |
| ExchangeProperties.WaitOverflowFails | src/main/java/co/signal/mqmeter/MQClientSampler.java:284-290 | An out-of-range numeric wait fails the sample without any getMsg2. The reply queue stays unclosed. The exact reported result is given. |
| ExchangeProperties.MalformedWaitIntervalsAreUnset | src/main/java/co/signal/mqmeter/MQClientSampler.java:284 | "-5", "abc" and "" behave exactly like an unset wait interval. |
| ExchangeProperties.CorrelationModeIsCaseSensitive | src/main/java/co/signal/mqmeter/MQClientSampler.java:277-280 | "MessageId", "correlationid" and " messageId" set no id. |
| Sampler.SampleResult.constructor | src/main/java/co/signal/mqmeter/MQClientSampler.java:304-309 | A new result is not yet successful, with empty code, message and data and no sampler data. |
| Sampler.MQClientSampler.constructor | src/main/java/co/signal/mqmeter/MQClientSampler.java:122-127 | mqMgr and properties start null and no call has been made. |
| Sampler.MQClientSampler.SetupTest | src/main/java/co/signal/mqmeter/MQClientSampler.java:156-175 | There are four cases. A null host throws NPE and leaves an empty table. A bad port throws parseInt's exception and leaves the host only. A null channel throws NPE and leaves host and port. Otherwise the table is exactly ConnectionProperties. No MQ call is made. |
| Sampler.MQClientSampler.TeardownTest | src/main/java/co/signal/mqmeter/MQClientSampler.java:182-192 | It disconnects exactly when mqMgr is non-null and connected. An MQException or subclass from disconnect is swallowed; any other exception propagates. |
| Sampler.MQClientSampler.RunTest | src/main/java/co/signal/mqmeter/MQClientSampler.java:201-227 | The trace grows by exactly the Iteration's calls. mqMgr becomes the new manager iff the connect succeeded. The fresh result equals Report, after exactly one sample end. |
| Sampler.MQClientSampler.ConnectPutGet | src/main/java/co/signal/mqmeter/MQClientSampler.java:210-217 | The try block of runTest: its outcome, calls and mqMgr update are those of Iteration. |
| Sampler.MQClientSampler.PutMQMessage | src/main/java/co/signal/mqmeter/MQClientSampler.java:237-251 | It answers the result of PutMessage and appends exactly its calls. |
| Sampler.MQClientSampler.GetMQMessage | src/main/java/co/signal/mqmeter/MQClientSampler.java:260-297 | It mutates the filter and get options in place, answers the result of GetMessage and appends exactly its calls. |
| Sampler.MQClientSampler.SampleResultStart | src/main/java/co/signal/mqmeter/MQClientSampler.java:320-323 | Only the sampler data changes. |
| Sampler.MQClientSampler.SampleResultSuccess | src/main/java/co/signal/mqmeter/MQClientSampler.java:337-345 | It marks the result successful with code 200 and the response or the sentinel, and ends the sample once. |
| Sampler.MQClientSampler.SampleResultFail | src/main/java/co/signal/mqmeter/MQClientSampler.java:357-371 | It marks the result failed with the given code, FailureMessage and the stack trace, and ends the sample once. |
| Sampler.MQClientSampler.CallConnect | src/main/java/co/signal/mqmeter/MQClientSampler.java:213 | It asks the library once and records the connect. The new manager is named by its position in the trace. |
| Sampler.MQClientSampler.CallAccessQueue | src/main/java/co/signal/mqmeter/MQClientSampler.java:244-272 | It asks the library once and records the access. The new queue handle is named by its position in the trace. |
| Sampler.MQClientSampler.CallPut | src/main/java/co/signal/mqmeter/MQClientSampler.java:247-250 | It asks the library once and records the put with the id it assigned. |
| Sampler.MQClientSampler.CallGetMsg2 | src/main/java/co/signal/mqmeter/MQClientSampler.java:290-291 | It asks the library once and records the get with its filter, options and data. |
| Sampler.MQClientSampler.CallClose | src/main/java/co/signal/mqmeter/MQClientSampler.java:249-293 | It asks the library once and records the close. |
| Sampler.MQClientSampler.CallDisconnect | src/main/java/co/signal/mqmeter/MQClientSampler.java:186 | It asks the library once and records the disconnect. |
| Sampler.RunTwiceThenTeardown | src/main/java/co/signal/mqmeter/MQClientSampler.java:182-227 | Over two iterations and a teardown, any disconnect is the last call and targets the currently stored manager. A manager replaced by a later connect is never disconnected. |

## Left out

- The IBM MQ library's own behaviour is not modelled. This covers message-id generation, how getMsg2 matches and waits, timeouts, and whether a manager reports itself connected. Each is an answer of the abstract `Library`, and the reason-code name table (`MQConstants.lookupReasonCode`) is a `Library` function too.
- `String.getBytes(charset)` and `new String(bytes, charset)` are abstract `Charsets` functions; only their null-charset and null-message exceptions are modelled. `MQMessage.write` is treated as never throwing.
- Timing is not modelled: `sampleStart` and `sampleEnd` keep only a count of sample ends, not timestamps.
- `setDataEncoding` and `setDataType` in `newSampleResult` set nothing the model reads.
- The stack trace rendered into the response data is not modelled; a failed result records the exception itself.
- Logging (`log.info`) is left out, including the evaluation of its arguments.
- `getDefaultParameters` is left out; it only lists default parameter values for the JMeter user interface.
- Concurrency across JMeter threads is left out: each sampler instance is used by one thread.
- `java.lang.Error` is left out: it is not caught by `runTest` and is not produced by anything modelled.
- JavaLang.ParseInt: accepts only ASCII digits, while Java also accepts other Unicode decimal digits (and `StringUtils.isNumeric` does as well).
- JavaLang.ParseInt: the text of the null-input message follows JDK 17.
- JavaLang.IsNumeric: accepts only ASCII digits, while `StringUtils.isNumeric` accepts every Unicode decimal digit; a string starting with, say, an Arabic-Indic digit is numeric in Java but not in the model.
- NullPointerException messages are modelled as absent (null) rather than the JDK's helpful message text.
