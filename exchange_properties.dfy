/** Properties of one runTest iteration relating its MQ calls, its outcome and
    the sample result it reports. */
module ExchangeProperties {
  import opened JavaLang
  import opened MQ
  import opened Exchange

  /** Some call of events closes queue handle q; a close that was attempted
      counts, even when it threw. */
  predicate HasClose(events: seq<Event>, q: nat) {
    exists j :: 0 <= j < |events| && events[j].Close? && events[j].handle == q
  }

  /** Some queue opened in events (handles numbered from base) is never closed. */
  predicate LeavesQueueOpen(events: seq<Event>, base: nat) {
    exists i :: 0 <= i < |events| && events[i].AccessQueue? && Succeeded(events[i])
                && !HasClose(events, base + i)
  }

  /** With no reply queue configured the reply side is never touched, and a
      run that gets past the put reports the "No response required" sentinel. */
  lemma NoReplyQueueMeansNoReplySide(lib: Library, cs: Charsets, h: seq<Event>, props: Option<Props>,
                                     ctx: Context)
    requires IsNullOrEmpty(ctx.Param(ReplyQueueParam))
    ensures var run := Iteration(lib, cs, h, props, ctx);
            && (forall i :: 0 <= i < |run.events| ==> !IsReplySide(run.events[i]))
            && (run.outcome.Ok? <==> |run.events| == 4 && Succeeded(run.events[3]))
            && (run.outcome.Ok? ==>
                  && run.outcome.value.None?
                  && Report(ctx.Param(MessageParam), run.outcome, lib.lookupReasonCode).responseData
                     == Text(NoResponse))
  {
  }

  /** With a reply queue configured, a successful run makes all seven calls:
      the reply arrives from getMsg2 as the sixth, the answer is its decoded
      data, and the reply queue is closed last. */
  lemma ReplyQueueSuccessDecodesReply(lib: Library, cs: Charsets, h: seq<Event>, props: Option<Props>,
                                      ctx: Context)
    requires !IsNullOrEmpty(ctx.Param(ReplyQueueParam))
    ensures var run := Iteration(lib, cs, h, props, ctx);
            run.outcome.Ok? ==>
              && |run.events| == 7
              && run.events[5].GetMsg2? && run.events[5].handle == |h| + 4 && run.events[5].data.Ok?
              && Decode(cs, run.events[5].data.value, ctx.Param(EncodingParam)) == Ok(run.outcome.value.value)
              && run.events[6] == Close(|h| + 4, Done)
  {
    var run := Iteration(lib, cs, h, props, ctx);
    if run.outcome.Ok? {
      var connect := ConnectCall(lib, h, ctx.Param(ManagerParam), props);
      var put := PutMessage(lib, cs, h + connect.events, |h|, ctx, ctx.Param(MessageParam));
      var get := GetMessage(lib, cs, h + connect.events + put.events, |h|, ctx, put.result.value);
      assert run.events == connect.events + put.events + get.events;
      assert run.events[5] == get.events[1] && run.events[6] == get.events[2];
    }
  }

  /** The reply side is reached only after connect, request-queue access, put
      and close have all returned normally, in that order. */
  lemma PublishPrecedesReply(lib: Library, cs: Charsets, h: seq<Event>, props: Option<Props>,
                             ctx: Context, i: nat)
    requires var run := Iteration(lib, cs, h, props, ctx); i < |run.events| && IsReplySide(run.events[i])
    ensures var run := Iteration(lib, cs, h, props, ctx);
            && 4 <= i
            && run.events[0].Connect? && Succeeded(run.events[0])
            && run.events[1] == AccessQueue(|h|, ctx.Param(RequestQueueParam), MQOO_OUTPUT, Done)
            && run.events[2].Put? && run.events[2].handle == |h| + 1 && run.events[2].assignedId.Ok?
            && run.events[3] == Close(|h| + 1, Done)
  {
  }

  /** getMsg2 filters on the very id the put returned, under the configured
      correlation mode, and uses the wait options of the configured interval. */
  lemma CorrelationUsesPutId(lib: Library, cs: Charsets, h: seq<Event>, props: Option<Props>,
                             ctx: Context, i: nat)
    requires var run := Iteration(lib, cs, h, props, ctx); i < |run.events| && run.events[i].GetMsg2?
    ensures var run := Iteration(lib, cs, h, props, ctx);
            && i == 5 && run.events[2].Put? && run.events[2].assignedId.Ok?
            && run.events[i].handle == |h| + 4
            && run.events[i].filter == CorrelationFilter(ctx.Param(CorrelateParam), run.events[2].assignedId.value)
            && WaitOptions(ctx.Param(WaitIntervalParam)).Ok?
            && run.events[i].gmo == WaitOptions(ctx.Param(WaitIntervalParam)).value
  {
    PublishPrecedesReply(lib, cs, h, props, ctx, i);
    var connect := ConnectCall(lib, h, ctx.Param(ManagerParam), props);
    var put := PutMessage(lib, cs, h + connect.events, |h|, ctx, ctx.Param(MessageParam));
    var get := GetMessage(lib, cs, h + connect.events + put.events, |h|, ctx, put.result.value);
    var run := Iteration(lib, cs, h, props, ctx);
    assert run.events == connect.events + put.events + get.events;
    assert run.events[i] == get.events[i - 4];
  }

  /** An exception from any MQ call ends the iteration: no further call is
      made and that exception is the one reported, with code 500. */
  lemma FailureEndsIteration(lib: Library, cs: Charsets, h: seq<Event>, props: Option<Props>,
                             ctx: Context, i: nat)
    requires var run := Iteration(lib, cs, h, props, ctx); i < |run.events| && !Succeeded(run.events[i])
    ensures var run := Iteration(lib, cs, h, props, ctx);
            && i == |run.events| - 1 && run.outcome == Thrown(ThrownBy(run.events[i]))
            && Report(ctx.Param(MessageParam), run.outcome, lib.lookupReasonCode).responseCode == FailCode
  {
    var run := Iteration(lib, cs, h, props, ctx);
    var connect := ConnectCall(lib, h, ctx.Param(ManagerParam), props);
    if i > 0 {
      var put := PutMessage(lib, cs, h + connect.events, |h|, ctx, ctx.Param(MessageParam));
      if put.result.Thrown? {
        assert run.events == connect.events + put.events;
        assert run.events[i] == put.events[i - 1];
      } else {
        var get := GetMessage(lib, cs, h + connect.events + put.events, |h|, ctx, put.result.value);
        assert run.events == connect.events + put.events + get.events;
        assert i >= 4;
        assert run.events[i] == get.events[i - 4];
      }
    }
  }

  /** A successful sample means every MQ call returned normally; a failed
      sample whose calls all returned normally failed in a local step:
      encoding the request, parsing the wait interval or decoding the reply. */
  lemma OutcomeFollowsCalls(lib: Library, cs: Charsets, h: seq<Event>, props: Option<Props>, ctx: Context)
    ensures var run := Iteration(lib, cs, h, props, ctx);
            && (run.outcome.Ok? ==> forall i :: 0 <= i < |run.events| ==> Succeeded(run.events[i]))
            && (run.outcome.Thrown? && (forall i :: 0 <= i < |run.events| ==> Succeeded(run.events[i])) ==>
                 var encoding := ctx.Param(EncodingParam);
                 var encoded := Encode(cs, ctx.Param(MessageParam), encoding);
                 var gmo := WaitOptions(ctx.Param(WaitIntervalParam));
                 || (|run.events| == 2 && encoded.Thrown? && run.outcome.exn == encoded.exn)
                 || (|run.events| == 5 && gmo.Thrown? && run.outcome.exn == gmo.exn)
                 || (&& |run.events| == 6 && run.events[5].GetMsg2? && run.events[5].data.Ok?
                     && var decoded := Decode(cs, run.events[5].data.value, encoding);
                     decoded.Thrown? && run.outcome.exn == decoded.exn))
  {
    var connect := ConnectCall(lib, h, ctx.Param(ManagerParam), props);
    if connect.result.Ok? {
      var put := PutMessage(lib, cs, h + connect.events, |h|, ctx, ctx.Param(MessageParam));
      if put.result.Ok? {
        GetOutcomeFollowsCalls(lib, cs, h, props, ctx);
      } else {
        PutOutcomeFollowsCalls(lib, cs, h, props, ctx);
      }
    }
  }

  /** OutcomeFollowsCalls when putMQMessage threw. */
  lemma PutOutcomeFollowsCalls(lib: Library, cs: Charsets, h: seq<Event>, props: Option<Props>, ctx: Context)
    requires ConnectCall(lib, h, ctx.Param(ManagerParam), props).result.Ok?
    requires PutMessage(lib, cs, h + ConnectCall(lib, h, ctx.Param(ManagerParam), props).events, |h|, ctx,
                        ctx.Param(MessageParam)).result.Thrown?
    ensures var run := Iteration(lib, cs, h, props, ctx);
            && run.outcome.Thrown?
            && ((forall i :: 0 <= i < |run.events| ==> Succeeded(run.events[i])) ==>
                 var encoded := Encode(cs, ctx.Param(MessageParam), ctx.Param(EncodingParam));
                 |run.events| == 2 && encoded.Thrown? && run.outcome.exn == encoded.exn)
  {
    var run := Iteration(lib, cs, h, props, ctx);
    var connect := ConnectCall(lib, h, ctx.Param(ManagerParam), props);
    var put := PutMessage(lib, cs, h + connect.events, |h|, ctx, ctx.Param(MessageParam));
    assert run.events == connect.events + put.events;
    if forall i :: 0 <= i < |run.events| ==> Succeeded(run.events[i]) {
      assert forall i :: 0 <= i < |put.events| ==> put.events[i] == run.events[i + 1];
    }
  }

  /** OutcomeFollowsCalls when putMQMessage returned. */
  lemma GetOutcomeFollowsCalls(lib: Library, cs: Charsets, h: seq<Event>, props: Option<Props>, ctx: Context)
    requires ConnectCall(lib, h, ctx.Param(ManagerParam), props).result.Ok?
    requires PutMessage(lib, cs, h + ConnectCall(lib, h, ctx.Param(ManagerParam), props).events, |h|, ctx,
                        ctx.Param(MessageParam)).result.Ok?
    ensures var run := Iteration(lib, cs, h, props, ctx);
            && (run.outcome.Ok? ==> forall i :: 0 <= i < |run.events| ==> Succeeded(run.events[i]))
            && (run.outcome.Thrown? && (forall i :: 0 <= i < |run.events| ==> Succeeded(run.events[i])) ==>
                 var encoding := ctx.Param(EncodingParam);
                 var gmo := WaitOptions(ctx.Param(WaitIntervalParam));
                 || (|run.events| == 5 && gmo.Thrown? && run.outcome.exn == gmo.exn)
                 || (&& |run.events| == 6 && run.events[5].GetMsg2? && run.events[5].data.Ok?
                     && var decoded := Decode(cs, run.events[5].data.value, encoding);
                     decoded.Thrown? && run.outcome.exn == decoded.exn))
  {
    var run := Iteration(lib, cs, h, props, ctx);
    var connect := ConnectCall(lib, h, ctx.Param(ManagerParam), props);
    var put := PutMessage(lib, cs, h + connect.events, |h|, ctx, ctx.Param(MessageParam));
    var get := GetMessage(lib, cs, h + connect.events + put.events, |h|, ctx, put.result.value);
    assert run.events == connect.events + put.events + get.events;
    assert forall i :: 0 <= i < |get.events| ==> get.events[i] == run.events[i + 4];
    assert forall i :: 0 <= i < |put.events| ==> put.events[i] == run.events[i + 1];
  }

  /** A successful iteration closes every queue it opened. */
  lemma SuccessClosesQueues(lib: Library, cs: Charsets, h: seq<Event>, props: Option<Props>, ctx: Context)
    ensures var run := Iteration(lib, cs, h, props, ctx);
            run.outcome.Ok? ==> !LeavesQueueOpen(run.events, |h|)
  {
    var run := Iteration(lib, cs, h, props, ctx);
    if run.outcome.Ok? {
      var connect := ConnectCall(lib, h, ctx.Param(ManagerParam), props);
      var put := PutMessage(lib, cs, h + connect.events, |h|, ctx, ctx.Param(MessageParam));
      var get := GetMessage(lib, cs, h + connect.events + put.events, |h|, ctx, put.result.value);
      assert run.events == connect.events + put.events + get.events;
      forall i | 0 <= i < |run.events| && run.events[i].AccessQueue? && Succeeded(run.events[i])
        ensures HasClose(run.events, |h| + i)
      {
        if i == 1 {
          assert run.events[3] == put.events[2];
        } else {
          assert i == 4 && run.events[4] == get.events[0];
          assert run.events[6] == get.events[2];
        }
      }
    }
  }

  /** A failed iteration leaves a queue handle open exactly when the exception
      came after a successful accessQueue and before the matching close. */
  lemma FailureLeavesQueueOpen(lib: Library, cs: Charsets, h: seq<Event>, props: Option<Props>, ctx: Context)
    ensures var run := Iteration(lib, cs, h, props, ctx);
            var last := run.events[|run.events| - 1];
            run.outcome.Thrown? ==>
              (LeavesQueueOpen(run.events, |h|)
               <==> !last.Close? && !((last.Connect? || last.AccessQueue?) && !Succeeded(last)))
  {
    var run := Iteration(lib, cs, h, props, ctx);
    if run.outcome.Thrown? && |run.events| > 1 {
      var connect := ConnectCall(lib, h, ctx.Param(ManagerParam), props);
      var put := PutMessage(lib, cs, h + connect.events, |h|, ctx, ctx.Param(MessageParam));
      if put.result.Thrown? {
        PutFailureLeavesQueueOpen(lib, cs, h, props, ctx);
      } else {
        GetFailureLeavesQueueOpen(lib, cs, h, props, ctx);
      }
    }
  }

  /** FailureLeavesQueueOpen when putMQMessage threw. */
  lemma PutFailureLeavesQueueOpen(lib: Library, cs: Charsets, h: seq<Event>, props: Option<Props>, ctx: Context)
    requires ConnectCall(lib, h, ctx.Param(ManagerParam), props).result.Ok?
    requires PutMessage(lib, cs, h + ConnectCall(lib, h, ctx.Param(ManagerParam), props).events, |h|, ctx,
                        ctx.Param(MessageParam)).result.Thrown?
    ensures var run := Iteration(lib, cs, h, props, ctx);
            var last := run.events[|run.events| - 1];
            LeavesQueueOpen(run.events, |h|) <==> !last.Close? && !(last.AccessQueue? && !Succeeded(last))
  {
    var run := Iteration(lib, cs, h, props, ctx);
    var n := |run.events|;
    var last := run.events[n - 1];
    var connect := ConnectCall(lib, h, ctx.Param(ManagerParam), props);
    var put := PutMessage(lib, cs, h + connect.events, |h|, ctx, ctx.Param(MessageParam));
    assert run.events == connect.events + put.events;
    assert forall j :: 1 <= j < n ==> run.events[j] == put.events[j - 1];
    if !last.Close? && !(last.AccessQueue? && !Succeeded(last)) {
      assert run.events[1].AccessQueue? && Succeeded(run.events[1]);
      assert !HasClose(run.events, |h| + 1);
    }
  }

  /** FailureLeavesQueueOpen when getMQMessage threw. */
  lemma GetFailureLeavesQueueOpen(lib: Library, cs: Charsets, h: seq<Event>, props: Option<Props>, ctx: Context)
    requires ConnectCall(lib, h, ctx.Param(ManagerParam), props).result.Ok?
    requires PutMessage(lib, cs, h + ConnectCall(lib, h, ctx.Param(ManagerParam), props).events, |h|, ctx,
                        ctx.Param(MessageParam)).result.Ok?
    requires Iteration(lib, cs, h, props, ctx).outcome.Thrown?
    ensures var run := Iteration(lib, cs, h, props, ctx);
            var last := run.events[|run.events| - 1];
            LeavesQueueOpen(run.events, |h|) <==> !last.Close? && !(last.AccessQueue? && !Succeeded(last))
  {
    var run := Iteration(lib, cs, h, props, ctx);
    var n := |run.events|;
    var last := run.events[n - 1];
    var connect := ConnectCall(lib, h, ctx.Param(ManagerParam), props);
    var put := PutMessage(lib, cs, h + connect.events, |h|, ctx, ctx.Param(MessageParam));
    var get := GetMessage(lib, cs, h + connect.events + put.events, |h|, ctx, put.result.value);
    assert run.events == connect.events + put.events + get.events;
    assert run.events[3] == put.events[2];
    assert forall j :: 4 <= j < n ==> run.events[j] == get.events[j - 4];
    if !last.Close? && !(last.AccessQueue? && !Succeeded(last)) {
      assert run.events[4].AccessQueue? && Succeeded(run.events[4]);
      assert !HasClose(run.events, |h| + 4);
    } else {
      forall i | 0 <= i < n && run.events[i].AccessQueue? && Succeeded(run.events[i])
        ensures HasClose(run.events, |h| + i)
      {
        if i != 1 {
          assert i == 4 && last.Close? && last == get.events[|get.events| - 1];
        }
      }
    }
  }

  /** The get step alone: with an overflowing wait interval it stops right
      after opening the reply queue, with the parse exception. */
  lemma WaitOverflowStopsGet(lib: Library, cs: Charsets, h: seq<Event>, mgr: nat, ctx: Context, id: Bytes)
    requires !IsNullOrEmpty(ctx.Param(ReplyQueueParam))
    requires IsNumeric(ctx.Param(WaitIntervalParam)) && DecimalValue(ctx.Param(WaitIntervalParam).value) > MaxInt
    ensures var get := GetMessage(lib, cs, h, mgr, ctx, id);
            && |get.events| == 1 && get.result.Thrown?
            && (Succeeded(get.events[0]) ==> get.result == Thrown(BadNumber(ctx.Param(WaitIntervalParam).value)))
  {
    var get := GetMessage(lib, cs, h, mgr, ctx, id);
    assert WaitOptions(ctx.Param(WaitIntervalParam)) == Thrown(BadNumber(ctx.Param(WaitIntervalParam).value));
  }

  /** The failed sample reported for a malformed number. */
  lemma BadNumberReport(message: Option<string>, text: string, lookup: int -> Option<string>)
    ensures Report(message, Thrown(BadNumber(text)), lookup)
            == ResultView(message, false, FailCode, "Exception: For input string: \"" + text + "\"",
                          StackTrace(BadNumber(text)))
  {
    assert FailureMessage(BadNumber(text), lookup) == "Exception: For input string: \"" + text + "\"";
  }

  /** A digit-only wait interval beyond the int range makes Integer.parseInt
      throw after the reply queue was opened: no get is made, the reply queue
      stays open, and the sample fails with code 500 and the parse message. */
  lemma WaitOverflowFails(lib: Library, cs: Charsets, h: seq<Event>, props: Option<Props>, ctx: Context)
    requires !IsNullOrEmpty(ctx.Param(ReplyQueueParam))
    requires IsNumeric(ctx.Param(WaitIntervalParam)) && DecimalValue(ctx.Param(WaitIntervalParam).value) > MaxInt
    ensures var run := Iteration(lib, cs, h, props, ctx);
            var wait := ctx.Param(WaitIntervalParam).value;
            && run.outcome.Thrown?
            && (forall i :: 0 <= i < |run.events| ==> !run.events[i].GetMsg2?)
            && (|run.events| == 5 && Succeeded(run.events[4]) ==>
                  && run.outcome == Thrown(BadNumber(wait))
                  && !HasClose(run.events, |h| + 4)
                  && Report(ctx.Param(MessageParam), run.outcome, lib.lookupReasonCode)
                     == ResultView(ctx.Param(MessageParam), false, FailCode,
                                   "Exception: For input string: \"" + wait + "\"",
                                   StackTrace(BadNumber(wait))))
  {
    var run := Iteration(lib, cs, h, props, ctx);
    var connect := ConnectCall(lib, h, ctx.Param(ManagerParam), props);
    if connect.result.Ok? {
      var put := PutMessage(lib, cs, h + connect.events, |h|, ctx, ctx.Param(MessageParam));
      if put.result.Thrown? {
        assert run.events == connect.events + put.events;
        assert forall j :: 1 <= j < |run.events| ==> run.events[j] == put.events[j - 1];
      } else {
        var get := GetMessage(lib, cs, h + connect.events + put.events, |h|, ctx, put.result.value);
        WaitOverflowStopsGet(lib, cs, h + connect.events + put.events, |h|, ctx, put.result.value);
        assert run.events == connect.events + put.events + [get.events[0]];
        assert run.events[3] == put.events[2];
        if |run.events| == 5 && Succeeded(run.events[4]) {
          BadNumberReport(ctx.Param(MessageParam), ctx.Param(WaitIntervalParam).value, lib.lookupReasonCode);
        }
      }
    }
  }

  /** Wait intervals such as "-5", "abc" and "" behave exactly like an unset one. */
  lemma MalformedWaitIntervalsAreUnset()
    ensures WaitOptions(Some("-5")) == WaitOptions(None) == Ok(DefaultGetOptions)
    ensures WaitOptions(Some("abc")) == WaitOptions(None)
    ensures WaitOptions(Some("")) == WaitOptions(None)
  {
    assert !IsDigit("-5"[0]);
    assert !IsDigit("abc"[0]);
  }

  /** Mode matching is exact and case-sensitive: near misses set no id. */
  lemma CorrelationModeIsCaseSensitive(id: Bytes)
    ensures CorrelationFilter(Some("MessageId"), id) == NewMsg2
    ensures CorrelationFilter(Some("correlationid"), id) == NewMsg2
    ensures CorrelationFilter(Some(" messageId"), id) == NewMsg2
  {
  }
}
