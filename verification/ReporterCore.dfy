/** What the OpenAI stream reporter does, as functions on values (openai-stream.ts). */
module ReporterCore {
  import opened Options
  import opened Sequences
  import opened ResponsesTrace
  import opened ResponsesCore
  import opened CanonicalApplier
  import opened EncoderCore

  datatype LoopEvent =
    | LlmOutput(kind: string, step: string, content: string)
    | LlmResponses(streamId: string, event: CanonicalEvent)
    | OtherLoopEvent

  datatype Ending =
    | Finish(success: bool, reason: Option<string>, errorCode: Option<string>, generated: string, now: int)
    | Fail(message: string, newId: string, now: int)

  datatype Rep = Rep(enc: Enc, sawTextDelta: bool, report: Option<string>)

  function NewRep(model: string): Rep {
    Rep(NewEnc(model), false, None)
  }

  predicate IsReport(event: LoopEvent) {
    event.LlmOutput? && event.kind == "assistant_message" && event.step == "REPORT"
  }

  function OnStart(r: Rep, newId: string, now: int): Rep {
    r.(enc := Start(r.enc, newId, now))
  }

  function OnEvent(r: Rep, event: LoopEvent, generated: string): Rep {
    if IsReport(event) then r.(report := Some(event.content))
    else if event.LlmResponses? then
      r.(sawTextDelta := r.sawTextDelta || event.event.OutputTextDelta?,
         enc := Push(r.enc, event.streamId, event.event, generated))
    else r
  }

  const REPORT_STREAM := "report"

  /** createReportOnlyCanonicalEvents */
  function ReportEvents(text: string): seq<CanonicalEvent> {
    [OutputTextDelta(Some(text)), OutputTextDone(Some(text)), ContentPartDone,
     OutputItemDone(Some(RawItem(Some("message"), None, None, None, None)))]
  }

  function PushAll(e: Enc, events: seq<CanonicalEvent>, generated: string): Enc {
    if events == [] then e
    else Push(PushAll(e, events[..|events| - 1], generated), REPORT_STREAM, events[|events| - 1], generated)
  }

  /** The remembered report goes out if no text was streamed. */
  function Reported(r: Rep, generated: string): Enc {
    if !r.sawTextDelta && r.report.Some? then PushAll(r.enc, ReportEvents(r.report.value), generated) else r.enc
  }

  function OnFinish(r: Rep, success: bool, reason: Option<string>, errorCode: Option<string>,
                    generated: string, now: int): Rep
  {
    var message := if Truthy(reason) then reason else if success then None else Some("Unknown error");
    var enc := Reported(r, generated);
    r.(enc := Complete(enc, success, message, errorCode, now))
  }

  function OnError(r: Rep, message: string, newId: string, now: int): Rep {
    r.(enc := Crash(r.enc, message, newId, now))
  }

  /** Any events; each brings the item id its handling would generate. */
  function AfterEvents(r: Rep, events: seq<(LoopEvent, string)>): Rep {
    if events == [] then r
    else
      var last := events[|events| - 1];
      OnEvent(AfterEvents(r, events[..|events| - 1]), last.0, last.1)
  }

  /** onStart, then any events. */
  function Opened(model: string, startId: string, startNow: int, events: seq<(LoopEvent, string)>): Rep {
    AfterEvents(OnStart(NewRep(model), startId, startNow), events)
  }

  function End(r: Rep, ending: Ending): Rep {
    match ending
    case Finish(success, reason, errorCode, generated, now) => OnFinish(r, success, reason, errorCode, generated, now)
    case Fail(message, newId, now) => OnError(r, message, newId, now)
  }

  function TerminalCount(lines: seq<Line>): nat {
    if lines == [] then 0
    else TerminalCount(lines[..|lines| - 1]) + if Terminal(lines[|lines| - 1].body) then 1 else 0
  }

  lemma {:induction false} TerminalConcat(a: seq<Line>, b: seq<Line>)
    ensures TerminalCount(a + b) == TerminalCount(a) + TerminalCount(b)
  {
    if b == [] {
      assert a + b == a;
    } else {
      TerminalConcat(a, b[..|b| - 1]);
      assert (a + b)[..|a + b| - 1] == a + b[..|b| - 1];
    }
  }

  lemma {:induction false} NoTerminals(lines: seq<Line>)
    requires forall k | 0 <= k < |lines| :: !Terminal(lines[k].body)
    ensures TerminalCount(lines) == 0
  {
    if lines == [] {
    } else {
      NoTerminals(lines[..|lines| - 1]);
    }
  }

  /** Pushing events neither ends the stream nor touches the response id. */
  lemma PushNeutral(e: Enc, streamId: string, event: CanonicalEvent, generated: string)
    ensures var r := Push(e, streamId, event, generated);
      && TerminalCount(r.lines) == TerminalCount(e.lines)
      && r.id == e.id && r.createdAt == e.createdAt && r.model == e.model
  {
    if Running(e) {
      var op := Meaning(streamId, event, generated);
      StepAppends(e.core, op);
      var more := Numbered(e.next, Deltas(Step(e.core, op).trace[|e.core.trace|..]));
      TerminalConcat(e.lines, more);
      NoTerminals(more);
    }
  }

  lemma {:induction false} PushAllNeutral(e: Enc, events: seq<CanonicalEvent>, generated: string)
    ensures var r := PushAll(e, events, generated);
      && TerminalCount(r.lines) == TerminalCount(e.lines)
      && r.id == e.id && r.createdAt == e.createdAt && r.model == e.model
  {
    if events == [] {
    } else {
      PushAllNeutral(e, events[..|events| - 1], generated);
      PushNeutral(PushAll(e, events[..|events| - 1], generated), REPORT_STREAM, events[|events| - 1], generated);
    }
  }

  lemma {:induction false} OpenedNeutral(model: string, startId: string, startNow: int,
                                       events: seq<(LoopEvent, string)>)
    ensures var e := Opened(model, startId, startNow, events).enc;
      && TerminalCount(e.lines) == 0 && e.id == Some(startId) && e.createdAt == Some(EpochSeconds(startNow))
      && e.model == model
  {
    if events == [] {
      NoTerminals(Opened(model, startId, startNow, events).enc.lines);
    } else {
      OpenedNeutral(model, startId, startNow, events[..|events| - 1]);
      var last := events[|events| - 1];
      if last.0.LlmResponses? {
        PushNeutral(Opened(model, startId, startNow, events[..|events| - 1]).enc,
                    last.0.streamId, last.0.event, last.1);
      }
    }
  }

  /** The response id in force when the session ends. */
  function EffectiveId(startId: string, ending: Ending): string {
    if startId != "" || ending.Finish? then startId else ending.newId
  }

  lemma EmitOneCounts(e: Enc, body: Body)
    ensures var lines := Emit(e, [body]).lines;
      TerminalCount(lines) == TerminalCount(e.lines) + (if Terminal(body) then 1 else 0)
      && lines != [] && lines[|lines| - 1].body == body
  {
    var lines := Emit(e, [body]).lines;
    assert lines[..|lines| - 1] == e.lines;
  }

  /** A running stream that completes gets one terminal line, at its end. */
  lemma CompleteCounts(e: Enc, ok: bool, message: Option<string>, code: Option<string>, now: int)
    ensures var lines := Complete(e, ok, message, code, now).lines;
      if Running(e) then
        TerminalCount(lines) == TerminalCount(e.lines) + 1 && lines != [] && Terminal(lines[|lines| - 1].body)
      else lines == e.lines
  {
    if Running(e) {
      var response := FinalResponse(e, ok, message, code, now);
      EmitOneCounts(e, if ok then ResponseCompleted(response) else ResponseFailed(response));
    }
  }

  lemma ReportedNeutral(r: Rep, generated: string)
    ensures var e := Reported(r, generated);
      && TerminalCount(e.lines) == TerminalCount(r.enc.lines)
      && e.id == r.enc.id && e.createdAt == r.enc.createdAt && e.model == r.enc.model
  {
    if !r.sawTextDelta && r.report.Some? {
      PushAllNeutral(r.enc, ReportEvents(r.report.value), generated);
    }
  }

  lemma {:induction false} FinishEnds(r: Rep, success: bool, reason: Option<string>, errorCode: Option<string>,
                   generated: string, now: int)
    requires TerminalCount(r.enc.lines) == 0 && r.enc.createdAt.Some?
    ensures var lines := OnFinish(r, success, reason, errorCode, generated, now).enc.lines;
      if Truthy(r.enc.id) then TerminalCount(lines) == 1 && lines != [] && Terminal(lines[|lines| - 1].body)
      else TerminalCount(lines) == 0
  {
    var message := if Truthy(reason) then reason else if success then None else Some("Unknown error");
    ReportedNeutral(r, generated);
    CompleteCounts(Reported(r, generated), success, message, errorCode, now);
  }

  lemma StartNeutral(e: Enc, newId: string, now: int)
    ensures var r := Start(e, newId, now);
      TerminalCount(r.lines) == TerminalCount(e.lines) && r.id == (if Truthy(e.id) then e.id else Some(newId))
      && (e.createdAt.Some? || !Truthy(e.id) ==> r.createdAt.Some?)
  {
    var r := Start(e, newId, now);
    var started := r.lines[|e.lines|..];
    assert r.lines == e.lines + started;
    TerminalConcat(e.lines, started);
    NoTerminals(started);
  }

  lemma {:induction false} ErrorEnds(r: Rep, text: string, newId: string, now: int)
    requires TerminalCount(r.enc.lines) == 0 && r.enc.createdAt.Some?
    ensures var e := OnError(r, text, newId, now).enc;
      if Truthy(r.enc.id) || newId != "" then
        TerminalCount(e.lines) == 1 && e.lines != [] && Terminal(e.lines[|e.lines| - 1].body)
      else TerminalCount(e.lines) == 0
  {
    var message := if text == "" then "Unexpected error" else text;
    StartNeutral(r.enc, newId, now);
    var e := Start(r.enc, newId, now);
    var error := StreamError(ApiError("server_error", message));
    EmitOneCounts(e, error);
    CompleteCounts(Emit(e, [error]), false, Some(message), None, now);
  }

  /**
   A session of onStart, any events, and onFinish or onError writes exactly one completed or
   failed line, as its last line, if and only if the response id in force is not empty;
   with an empty id it writes none.
   */
  lemma {:induction false} SessionEndsOnce(model: string, startId: string, startNow: int,
                                         events: seq<(LoopEvent, string)>, ending: Ending)
    ensures var lines := End(Opened(model, startId, startNow, events), ending).enc.lines;
      && (EffectiveId(startId, ending) != "" <==>
            TerminalCount(lines) == 1 && lines != [] && Terminal(lines[|lines| - 1].body))
      && (EffectiveId(startId, ending) == "" <==> TerminalCount(lines) == 0)
  {
    var r := Opened(model, startId, startNow, events);
    OpenedNeutral(model, startId, startNow, events);
    match ending
    case Finish(success, reason, errorCode, generated, now) =>
      FinishEnds(r, success, reason, errorCode, generated, now);
    case Fail(message, newId, now) =>
      ErrorEnds(r, message, newId, now);
  }

  /** What a session that finishes without success, or fails, says went wrong. */
  function SessionError(ending: Ending): ApiError {
    match ending
    case Finish(_, reason, errorCode, _, _) =>
      ApiError(if errorCode == Some("usage_error") then "invalid_prompt" else "server_error",
               if Truthy(reason) then reason.value else "Unknown error")
    case Fail(message, _, _) => ApiError("server_error", if message == "" then "Unexpected error" else message)
  }

  /**
   How every session with a non-empty id in force ends: with a completed response if and only if it
   finished successfully, and otherwise with a failed one that gives the reason; after a failure the
   error line before it says the same. The response is that of the whole session.
   */
  lemma {:induction false} SessionEndTold(model: string, startId: string, startNow: int,
                                        events: seq<(LoopEvent, string)>, ending: Ending)
    requires EffectiveId(startId, ending) != ""
    ensures var e := End(Opened(model, startId, startNow, events), ending).enc;
      && e.lines != [] && Terminal(LastBody(e)) && LastBody(e).response.id == EffectiveId(startId, ending)
      && LastBody(e).response.createdAt == EpochSeconds(if startId != "" then startNow else ending.now)
      && LastBody(e).response.model == model && LastBody(e).response.output == e.core.output
      && LastBody(e).response.outputText == OutputText(e.core.output)
      && (if ending.Finish? && ending.success then
            EndsWell(LastBody(e)) && LastBody(e).response.completedAt == Some(EpochSeconds(ending.now))
          else EndsBadly(LastBody(e), SessionError(ending)))
      && (ending.Fail? ==>
            |e.lines| >= 2 && e.lines[|e.lines| - 2].body == StreamError(SessionError(ending)))
  {
    var r := Opened(model, startId, startNow, events);
    OpenedNeutral(model, startId, startNow, events);
    match ending
    case Finish(success, reason, errorCode, generated, now) =>
      var message := if Truthy(reason) then reason else if success then None else Some("Unknown error");
      ReportedNeutral(r, generated);
      CompleteTells(Reported(r, generated), success, message, errorCode, now);
    case Fail(message, newId, now) =>
      CrashTells(r.enc, message, newId, now);
  }

  /** With an empty response id a session that finishes is never completed. */
  lemma {:induction false} EmptyIdNeverEnds(events: seq<(LoopEvent, string)>, now: int)
    ensures var ending := Finish(true, None, None, "", now);
      TerminalCount(End(Opened("", "", now, events), ending).enc.lines) == 0
  {
    var ending := Finish(true, None, None, "", now);
    SessionEndsOnce("", "", now, events, ending);
    assert EffectiveId("", ending) == "";
  }

  // ---------------------------------------------------------------- what the reporter remembers

  /** The content of the last REPORT message among the events. */
  function LastReport(events: seq<(LoopEvent, string)>): Option<string> {
    if events == [] then None
    else
      var last := events[|events| - 1].0;
      if IsReport(last) then Some(last.content) else LastReport(events[..|events| - 1])
  }

  /** Event k is an assistant message of the REPORT step with this text, and none after it is one. */
  predicate ReportsLast(events: seq<(LoopEvent, string)>, k: nat, text: string)
    requires k < |events|
  {
    && events[k].0 == LlmOutput("assistant_message", "REPORT", text)
    && forall j | k < j < |events| && events[j].0.LlmOutput? ::
         events[j].0 != LlmOutput("assistant_message", "REPORT", events[j].0.content)
  }

  lemma {:induction false} LastReportMeans(events: seq<(LoopEvent, string)>, text: string)
    ensures LastReport(events) == Some(text) <==> exists k: nat :: k < |events| && ReportsLast(events, k, text)
  {
    if events == [] {
    } else {
      var front, n := events[..|events| - 1], |events| - 1;
      LastReportMeans(front, text);
      if IsReport(events[n].0) {
        assert ReportsLast(events, n, events[n].0.content);
      } else {
        assert forall k: nat | k < n :: ReportsLast(front, k, text) <==> ReportsLast(events, k, text);
      }
    }
  }

  predicate TextStreamed(events: seq<(LoopEvent, string)>) {
    exists k :: 0 <= k < |events| && events[k].0.LlmResponses? && events[k].0.event.OutputTextDelta?
  }

  /** The reporter remembers whether any text was streamed and what the last report said. */
  lemma {:induction false} OpenedRemembers(model: string, startId: string, startNow: int,
                                         events: seq<(LoopEvent, string)>)
    ensures var r := Opened(model, startId, startNow, events);
      r.sawTextDelta == TextStreamed(events) && r.report == LastReport(events)
  {
    if events == [] {
    } else {
      OpenedRemembers(model, startId, startNow, events[..|events| - 1]);
    }
  }

  /** After streamed text, or without a report, finishing adds nothing to the output. */
  lemma NoReportAfterText(model: string, startId: string, startNow: int, events: seq<(LoopEvent, string)>,
                          success: bool, reason: Option<string>, errorCode: Option<string>, generated: string, now: int)
    requires LastReport(events).None? || TextStreamed(events)
    ensures var r := Opened(model, startId, startNow, events);
            OnFinish(r, success, reason, errorCode, generated, now).enc.core == r.enc.core
  {
    OpenedRemembers(model, startId, startNow, events);
  }

  // ---------------------------------------------------------------- a session is an encoder run

  /** The encoder call an event asks for, if any. */
  function CallOf(event: (LoopEvent, string)): seq<EncCall> {
    if event.0.LlmResponses? then [CallPush(event.0.streamId, event.0.event, event.1)] else []
  }

  function CallsOf(events: seq<(LoopEvent, string)>): seq<EncCall> {
    if events == [] then [] else CallsOf(events[..|events| - 1]) + CallOf(events[|events| - 1])
  }

  /** The calls that write a report. */
  function ReportCalls(events: seq<CanonicalEvent>, generated: string): seq<EncCall> {
    if events == [] then []
    else ReportCalls(events[..|events| - 1], generated)
         + [CallPush(REPORT_STREAM, events[|events| - 1], generated)]
  }

  /** The last report goes out when the session finishes, unless text was streamed. */
  function FinalReport(events: seq<(LoopEvent, string)>, generated: string): seq<EncCall> {
    if TextStreamed(events) || LastReport(events).None? then []
    else ReportCalls(ReportEvents(LastReport(events).value), generated)
  }

  /** The last call of an ending. */
  function LastCall(ending: Ending): EncCall {
    match ending
    case Finish(success, reason, errorCode, _, now) =>
      CallComplete(success, if Truthy(reason) then reason else if success then None else Some("Unknown error"),
                   errorCode, now)
    case Fail(message, newId, now) => CallCrash(message, newId, now)
  }

  /** The calls an ending makes. */
  function EndingCalls(events: seq<(LoopEvent, string)>, ending: Ending): seq<EncCall> {
    (if ending.Finish? then FinalReport(events, ending.generated) else []) + [LastCall(ending)]
  }

  lemma {:induction false} EventsAreRun(model: string, calls: seq<EncCall>, r: Rep, events: seq<(LoopEvent, string)>)
    requires r.enc == EncRun(model, calls)
    ensures AfterEvents(r, events).enc == EncRun(model, calls + CallsOf(events))
  {
    if events == [] {
      assert calls + [] == calls;
    } else {
      var front, last := events[..|events| - 1], events[|events| - 1];
      EventsAreRun(model, calls, r, front);
      Regroup(calls, CallsOf(front), CallOf(last));
      if last.0.LlmResponses? {
        RunSnoc(model, calls + CallsOf(front), CallPush(last.0.streamId, last.0.event, last.1));
      } else {
        assert calls + CallsOf(front) + [] == calls + CallsOf(front);
      }
    }
  }

  lemma {:induction false} PushAllIsRun(model: string, calls: seq<EncCall>, events: seq<CanonicalEvent>,
                                     generated: string)
    ensures PushAll(EncRun(model, calls), events, generated)
            == EncRun(model, calls + ReportCalls(events, generated))
  {
    if events == [] {
      assert calls + [] == calls;
    } else {
      var front, call := events[..|events| - 1], CallPush(REPORT_STREAM, events[|events| - 1], generated);
      PushAllIsRun(model, calls, front, generated);
      Regroup(calls, ReportCalls(front, generated), [call]);
      RunSnoc(model, calls + ReportCalls(front, generated), call);
    }
  }

  lemma ReportedIsRun(model: string, calls: seq<EncCall>, r: Rep, events: seq<(LoopEvent, string)>,
                      generated: string)
    requires r.enc == EncRun(model, calls)
    requires r.sawTextDelta == TextStreamed(events) && r.report == LastReport(events)
    ensures Reported(r, generated) == EncRun(model, calls + FinalReport(events, generated))
  {
    if !r.sawTextDelta && r.report.Some? {
      PushAllIsRun(model, calls, ReportEvents(r.report.value), generated);
    } else {
      assert calls + [] == calls;
    }
  }

  lemma EndSteps(r: Rep, ending: Ending)
    ensures End(r, ending).enc
            == EncStep(if ending.Finish? then Reported(r, ending.generated) else r.enc, LastCall(ending))
  {
  }

  /** One more call, after some first and some second ones. */
  lemma ThenOne(model: string, first: seq<EncCall>, second: seq<EncCall>, before: Enc, call: EncCall, after: Enc)
    requires before == EncRun(model, first + second) && after == EncStep(before, call)
    ensures after == EncRun(model, first + (second + [call]))
  {
    Regroup(first, second, [call]);
    RunSnoc(model, first + second, call);
  }

  lemma {:induction false} EndIsRun(model: string, calls: seq<EncCall>, r: Rep, events: seq<(LoopEvent, string)>,
                                  ending: Ending)
    requires r.enc == EncRun(model, calls)
    requires r.sawTextDelta == TextStreamed(events) && r.report == LastReport(events)
    ensures End(r, ending).enc == EncRun(model, calls + EndingCalls(events, ending))
  {
    EndSteps(r, ending);
    match ending
    case Finish(_, _, _, generated, _) =>
      ReportedIsRun(model, calls, r, events, generated);
      ThenOne(model, calls, FinalReport(events, generated), Reported(r, generated), LastCall(ending),
              End(r, ending).enc);
    case Fail(_, _, _) =>
      assert calls + [] == calls;
      ThenOne(model, calls, [], r.enc, LastCall(ending), End(r, ending).enc);
  }

  /**
   Every session is the run of the encoder calls its events and its ending ask for, so all that is
   proved of such runs holds of sessions.
   */
  lemma {:induction false} SessionIsRun(model: string, startId: string, startNow: int,
                                      events: seq<(LoopEvent, string)>, ending: Ending)
    ensures End(Opened(model, startId, startNow, events), ending).enc
            == EncRun(model, [CallStart(startId, startNow)] + CallsOf(events) + EndingCalls(events, ending))
  {
    var start := [CallStart(startId, startNow)];
    RunSnoc(model, [], start[0]);
    assert [] + [start[0]] == start;
    EventsAreRun(model, start, OnStart(NewRep(model), startId, startNow), events);
    OpenedRemembers(model, startId, startNow, events);
    EndIsRun(model, start + CallsOf(events), Opened(model, startId, startNow, events), events, ending);
  }

  lemma {:induction false} SessionNumbered(model: string, startId: string, startNow: int,
                                         events: seq<(LoopEvent, string)>, ending: Ending)
    ensures NumberedFromZero(End(Opened(model, startId, startNow, events), ending).enc.lines)
  {
    SessionIsRun(model, startId, startNow, events, ending);
    RunSequenced(model, [CallStart(startId, startNow)] + CallsOf(events) + EndingCalls(events, ending));
  }

  // ---------------------------------------------------------------- the report text

  /** No text was streamed and nobody used the stream the reporter reserves for its report. */
  predicate ReportStreamFree(events: seq<(LoopEvent, string)>) {
    forall k | 0 <= k < |events| && events[k].0.LlmResponses? ::
      !events[k].0.event.OutputTextDelta? && events[k].0.streamId != REPORT_STREAM
  }

  /** An operation that touches no text stream but `s`. */
  predicate OnlyOn(op: Op, s: string) {
    match op
    case OpMessage(t, _, _) => t == s
    case OpTextPart(t, _) => t == s
    case OpTextDelta(t, _, _) => t == s
    case OpTextDone(t, _, _) => t == s
    case OpPartDone(t, _) => t == s
    case OpMessageDone(t, _) => t == s
    case OpFinishText(_, _, _) => false
    case _ => true
  }

  lemma OtherStreams(c: Core, s: string, op: Op)
    requires REPORT_STREAM !in c.texts && s != REPORT_STREAM && OnlyOn(op, s)
    ensures REPORT_STREAM !in Step(c, op).texts
  {
    if op.OpTextPart? || op.OpTextDelta? || op.OpTextDone? || op.OpPartDone? || op.OpMessageDone? {
      assert REPORT_STREAM !in EnsureTextPart(c, s, op.id).texts;
    }
  }

  lemma {:induction false} OpenedForReport(model: string, startId: string, startNow: int,
                                         events: seq<(LoopEvent, string)>)
    requires ReportStreamFree(events)
    ensures var r := Opened(model, startId, startNow, events);
      !r.sawTextDelta && r.report == LastReport(events) && REPORT_STREAM !in r.enc.core.texts
  {
    if events == [] {
    } else {
      var before, last := events[..|events| - 1], events[|events| - 1];
      OpenedForReport(model, startId, startNow, before);
      if last.0.LlmResponses? {
        OtherStreams(Opened(model, startId, startNow, before).enc.core, last.0.streamId,
                     Meaning(last.0.streamId, last.0.event, last.1));
      }
    }
  }

  /** A core whose last item is the report message, with the given progress flags. */
  predicate Reporting(c: Core, output: seq<Item>, id: string, text: string, shown: string,
                      textDone: bool, partDone: bool) {
    && REPORT_STREAM in c.texts
    && c.texts[REPORT_STREAM] == TextItem(|output|, id, 0, text, true, textDone, partDone, false)
    && c.output == output + [Message(id, "assistant", InProgress, [shown])]
  }

  lemma {:induction false} PushAllSnoc(e: Enc, events: seq<CanonicalEvent>, event: CanonicalEvent, id: string)
    requires Running(PushAll(e, events, id))
    ensures var r := PushAll(e, events + [event], id);
      Running(r) && r.core == Step(PushAll(e, events, id).core, Meaning(REPORT_STREAM, event, id))
  {
    assert (events + [event])[..|events|] == events;
  }

  /** The first two report events open the message and store the text. */
  lemma {:induction false} ReportStart(e: Enc, text: string, id: string)
    requires Running(e) && REPORT_STREAM !in e.core.texts
    ensures var r := PushAll(e, [ReportEvents(text)[0]] + [ReportEvents(text)[1]], id);
      Running(r) && Reporting(r.core, e.core.output, id, text, text, true, false)
  {
    var output, es := e.core.output, ReportEvents(text);
    assert [] + [""] == [""] && "" + text == text;
    PushAllSnoc(e, [], es[0], id);
    assert [] + [es[0]] == [es[0]];
    assert [""][0 := text] == [text];
    PushAllSnoc(e, [es[0]], es[1], id);
  }

  /** The four report events add exactly one finished message to an unused report stream. */
  lemma {:induction false} ReportAddsMessage(e: Enc, text: string, id: string)
    requires Running(e) && REPORT_STREAM !in e.core.texts
    ensures PushAll(e, ReportEvents(text), id).core.output
            == e.core.output + [Message(id, "assistant", Completed, [text])]
  {
    var es := ReportEvents(text);
    ReportStart(e, text, id);
    ReportFinish(e, [es[0]] + [es[1]], e.core.output, text, id);
    assert es == [es[0]] + [es[1]] + [es[2]] + [es[3]];
  }

  lemma {:induction false} ReportFinish(e: Enc, events: seq<CanonicalEvent>, output: seq<Item>,
                                      text: string, id: string)
    requires Running(PushAll(e, events, id))
    requires Reporting(PushAll(e, events, id).core, output, id, text, text, true, false)
    ensures var es := ReportEvents(text);
      PushAll(e, events + [es[2]] + [es[3]], id).core.output == output + [Message(id, "assistant", Completed, [text])]
  {
    var es := ReportEvents(text);
    assert [text][0 := text] == [text];
    PushAllSnoc(e, events, es[2], id);
    assert [text][0 := text] == [text];
    PushAllSnoc(e, events + [es[2]], es[3], id);
  }

  /**
   If no text was streamed and the report stream is unused, a successful finish ends with a
   completed response whose output_text is the text so far followed by the last REPORT text.
   */
  lemma {:induction false} ReportIsLastText(model: string, startId: string, startNow: int,
                         events: seq<(LoopEvent, string)>, reason: Option<string>, errorCode: Option<string>,
                         generated: string, now: int)
    requires startId != "" && ReportStreamFree(events) && LastReport(events).Some?
    ensures var r := Opened(model, startId, startNow, events);
            var lines := OnFinish(r, true, reason, errorCode, generated, now).enc.lines;
            lines != [] && lines[|lines| - 1].body.ResponseCompleted?
            && lines[|lines| - 1].body.response.outputText == OutputText(r.enc.core.output) + LastReport(events).value
  {
    var r := Opened(model, startId, startNow, events);
    var text := LastReport(events).value;
    OpenedNeutral(model, startId, startNow, events);
    OpenedForReport(model, startId, startNow, events);
    PushAllNeutral(r.enc, ReportEvents(text), generated);
    ReportAddsMessage(r.enc, text, generated);
    var m := Message(generated, "assistant", Completed, [text]);
    assert (r.enc.core.output + [m])[..|r.enc.core.output|] == r.enc.core.output;
    assert Joined([text]) == text by { assert [text][1..] == []; }
  }
}
