/**
 What the stream encoder does, as functions on values, and what holds of every run of it
 (openai-stream-encoder.ts).
 */
module EncoderCore {
  import opened Options
  import opened Sequences
  import opened ResponsesTrace
  import opened ResponsesCore
  import opened CanonicalApplier

  datatype ApiError = ApiError(code: string, message: string)

  datatype Response = Response(id: string, createdAt: int, status: string, model: string, outputText: string,
                               output: seq<Item>, error: Option<ApiError>, completedAt: Option<int>)

  datatype Body =
    | ResponseCreated(response: Response)
    | ResponseInProgress(response: Response)
    | StateEvent(event: Event<Item>)
    | StreamError(error: ApiError)
    | ResponseCompleted(response: Response)
    | ResponseFailed(response: Response)

  datatype Line = Line(sequenceNumber: nat, body: Body)

  predicate Terminal(body: Body) {
    body.ResponseCompleted? || body.ResponseFailed?
  }

  /** toEpochSeconds: a floor, also before 1970. */
  function EpochSeconds(ms: int): (s: int)
    ensures s * 1000 <= ms < (s + 1) * 1000
  {
    ms / 1000
  }

  // ---------------------------------------------------------------- the encoder on values

  /** Encoder fields plus every line it ever returned. */
  datatype Enc = Enc(model: string, core: Core, next: nat, id: Option<string>, createdAt: Option<int>, lines: seq<Line>)

  function NewEnc(model: string): Enc {
    Enc(model, EMPTY, 0, None, None, [])
  }

  function Numbered(from: nat, bodies: seq<Body>): (lines: seq<Line>)
    ensures |lines| == |bodies|
    ensures forall k | 0 <= k < |lines| :: lines[k] == Line(from + k, bodies[k])
  {
    seq(|bodies|, k requires 0 <= k < |bodies| => Line(from + k, bodies[k]))
  }

  function Emit(e: Enc, bodies: seq<Body>): Enc {
    e.(lines := e.lines + Numbered(e.next, bodies), next := e.next + |bodies|)
  }

  predicate Running(e: Enc) {
    Truthy(e.id) && e.createdAt.Some?
  }

  function Start(e: Enc, newId: string, now: int): Enc {
    if Truthy(e.id) then e
    else
      var response := Response(newId, EpochSeconds(now), "in_progress", e.model, "", [], None, None);
      Emit(e.(id := Some(newId), createdAt := Some(EpochSeconds(now))),
           [ResponseCreated(response), ResponseInProgress(response)])
  }

  function Deltas(events: seq<Event<Item>>): (bodies: seq<Body>)
    ensures |bodies| == |events|
  {
    seq(|events|, k requires 0 <= k < |events| => StateEvent(events[k]))
  }

  function Push(e: Enc, streamId: string, event: CanonicalEvent, generated: string): Enc {
    if !Running(e) then e
    else
      var op := Meaning(streamId, event, generated);
      StepAppends(e.core, op);
      var core := Step(e.core, op);
      Emit(e.(core := core), Deltas(core.trace[|e.core.trace|..]))
  }

  function FinalResponse(e: Enc, ok: bool, message: Option<string>, code: Option<string>, now: int): Response
    requires Running(e)
  {
    Response(e.id.value, e.createdAt.value, if ok then "completed" else "failed", e.model,
             OutputText(e.core.output), e.core.output,
             if ok then None
             else Some(ApiError(if code == Some("usage_error") then "invalid_prompt" else "server_error",
                                TextOr(message, "Unknown error"))),
             if ok then Some(EpochSeconds(now)) else None)
  }

  function Complete(e: Enc, ok: bool, message: Option<string>, code: Option<string>, now: int): Enc {
    if !Running(e) then e
    else
      var response := FinalResponse(e, ok, message, code, now);
      Emit(e, [if ok then ResponseCompleted(response) else ResponseFailed(response)])
  }

  function Crash(e: Enc, message: string, newId: string, now: int): Enc {
    var message := if message == "" then "Unexpected error" else message;
    var e := Emit(Start(e, newId, now), [StreamError(ApiError("server_error", message))]);
    Complete(e, false, Some(message), None, now)
  }

  function UsageError(e: Enc, message: string, code: Option<string>, newId: string, now: int): Enc {
    var code := TextOr(code, "usage_error");
    var e := Emit(Start(e, newId, now), [StreamError(ApiError(code, message))]);
    Complete(e, false, Some(message), Some(code), now)
  }

  // ---------------------------------------------------------------- runs

  /** A call; `newId`, `generated` and `now` are what the id generators and the clock would return. */
  datatype EncCall =
    | CallStart(newId: string, now: int)
    | CallPush(streamId: string, event: CanonicalEvent, generated: string)
    | CallComplete(ok: bool, message: Option<string>, code: Option<string>, now: int)
    | CallCrash(text: string, newId: string, now: int)
    | CallUsageError(text: string, code: Option<string>, newId: string, now: int)

  function EncStep(e: Enc, call: EncCall): Enc {
    match call
    case CallStart(newId, now) => Start(e, newId, now)
    case CallPush(streamId, event, generated) => Push(e, streamId, event, generated)
    case CallComplete(ok, message, code, now) => Complete(e, ok, message, code, now)
    case CallCrash(message, newId, now) => Crash(e, message, newId, now)
    case CallUsageError(message, code, newId, now) => UsageError(e, message, code, newId, now)
  }

  function EncRun(model: string, calls: seq<EncCall>): Enc {
    if calls == [] then NewEnc(model) else EncStep(EncRun(model, calls[..|calls| - 1]), calls[|calls| - 1])
  }

  lemma RunSnoc(model: string, calls: seq<EncCall>, call: EncCall)
    ensures EncRun(model, calls + [call]) == EncStep(EncRun(model, calls), call)
  {
    assert (calls + [call])[..|calls|] == calls;
  }

  /** How many `response.created` lines there are. */
  function CreatedCount(lines: seq<Line>): nat {
    if lines == [] then 0
    else CreatedCount(lines[..|lines| - 1]) + if lines[|lines| - 1].body.ResponseCreated? then 1 else 0
  }

  /** The protocol events among the lines, in order. */
  function Carried(lines: seq<Line>): seq<Event<Item>> {
    if lines == [] then []
    else
      var body := lines[|lines| - 1].body;
      Carried(lines[..|lines| - 1]) + if body.StateEvent? then [body.event] else []
  }

  lemma {:induction false} CarriedConcat(a: seq<Line>, b: seq<Line>)
    ensures Carried(a + b) == Carried(a) + Carried(b)
    ensures CreatedCount(a + b) == CreatedCount(a) + CreatedCount(b)
  {
    if b == [] {
      assert a + b == a;
    } else {
      var body := b[|b| - 1].body;
      CarriedConcat(a, b[..|b| - 1]);
      assert (a + b)[..|a + b| - 1] == a + b[..|b| - 1];
      Regroup(Carried(a), Carried(b[..|b| - 1]), if body.StateEvent? then [body.event] else []);
    }
  }

  lemma {:induction false} CarriedDeltas(from: nat, events: seq<Event<Item>>)
    ensures Carried(Numbered(from, Deltas(events))) == events
    ensures CreatedCount(Numbered(from, Deltas(events))) == 0
  {
    if events == [] {
    } else {
      var front := events[..|events| - 1];
      CarriedDeltas(from, front);
      var lines := Numbered(from, Deltas(events));
      assert lines[..|lines| - 1] == Numbered(from, Deltas(front));
    }
  }

  /** The ids offered by the calls that try to start the stream. */
  function Offers(calls: seq<EncCall>): seq<string> {
    if calls == [] then [] else Offers(calls[..|calls| - 1]) + Offered(calls[|calls| - 1])
  }

  function Offered(call: EncCall): seq<string> {
    if call.CallPush? || call.CallComplete? then [] else [call.newId]
  }

  /** Offers that actually start the stream: all up to the first non-empty id. */
  function Starts(offers: seq<string>): nat {
    if offers == [] then 0 else if offers[0] != "" then 1 else 1 + Starts(offers[1..])
  }

  lemma {:induction false} StartsSnoc(offers: seq<string>, id: string)
    ensures Starts(offers + [id]) == Starts(offers) + if exists k :: 0 <= k < |offers| && offers[k] != "" then 0 else 1
  {
    if offers == [] {
    } else {
      assert (offers + [id])[1..] == offers[1..] + [id];
      StartsSnoc(offers[1..], id);
      if exists k :: 0 <= k < |offers| && offers[k] != "" {
        var k :| 0 <= k < |offers| && offers[k] != "";
        if offers[0] == "" {
          assert offers[1..][k - 1] != "";
        }
      } else {
        assert forall k | 0 <= k < |offers[1..]| :: offers[1..][k] == offers[k + 1];
      }
    }
  }

  predicate NumberedFromZero(lines: seq<Line>) {
    forall k | 0 <= k < |lines| :: lines[k].sequenceNumber == k
  }

  /** The output starts with created and in_progress of one response. */
  predicate HasPrologue(lines: seq<Line>) {
    && |lines| >= 2 && lines[0].body.ResponseCreated? && lines[1].body.ResponseInProgress?
    && lines[0].body.response == lines[1].body.response
  }

  lemma EmitNumbers(e: Enc, bodies: seq<Body>)
    requires e.next == |e.lines| && NumberedFromZero(e.lines)
    ensures Emit(e, bodies).next == |Emit(e, bodies).lines| && NumberedFromZero(Emit(e, bodies).lines)
  {
  }

  /** Sequence numbers, prologue, carried events and start bookkeeping of one encoder state. */
  ghost predicate WellSequenced(e: Enc, offers: seq<string>) {
    && e.next == |e.lines|
    && NumberedFromZero(e.lines)
    && (e.lines != [] ==> HasPrologue(e.lines))
    && e.createdAt.Some? == e.id.Some? && (e.id.Some? ==> |e.lines| >= 2)
    && Carried(e.lines) == e.core.trace
    && CreatedCount(e.lines) == Starts(offers)
    && (Truthy(e.id) <==> exists k :: 0 <= k < |offers| && offers[k] != "")
    && Sound(e.core)
  }

  lemma EmitSequenced(e: Enc, bodies: seq<Body>, offers: seq<string>)
    requires WellSequenced(e, offers) && e.lines != []
    requires forall k | 0 <= k < |bodies| :: !bodies[k].StateEvent? && !bodies[k].ResponseCreated?
    ensures WellSequenced(Emit(e, bodies), offers)
  {
    var more := Numbered(e.next, bodies);
    CarriedConcat(e.lines, more);
    CarriesNothing(more);
  }

  lemma {:induction false} CarriesNothing(lines: seq<Line>)
    requires forall k | 0 <= k < |lines| :: !lines[k].body.StateEvent? && !lines[k].body.ResponseCreated?
    ensures Carried(lines) == [] && CreatedCount(lines) == 0
  {
    if lines == [] {
    } else {
      CarriesNothing(lines[..|lines| - 1]);
    }
  }

  lemma PrologueCarries(from: nat, r: Response)
    ensures var lines := Numbered(from, [ResponseCreated(r), ResponseInProgress(r)]);
            Carried(lines) == [] && CreatedCount(lines) == 1
  {
    var lines := Numbered(from, [ResponseCreated(r), ResponseInProgress(r)]);
    assert lines[..1] == [lines[0]] && lines[..1][..0] == [];
    assert Carried(lines[..1]) == [] && CreatedCount(lines[..1]) == 1;
  }

  /** Some id offered so far is not empty. */
  lemma OffersSnoc(offers: seq<string>, id: string)
    ensures (exists k :: 0 <= k < |offers + [id]| && (offers + [id])[k] != "")
            <==> (exists k :: 0 <= k < |offers| && offers[k] != "") || id != ""
  {
    assert (offers + [id])[|offers|] == id;
    assert forall k | 0 <= k < |offers| :: (offers + [id])[k] == offers[k];
  }

  lemma StartIgnored(e: Enc, offers: seq<string>, newId: string)
    requires WellSequenced(e, offers) && Truthy(e.id)
    ensures WellSequenced(e, offers + [newId])
  {
    StartsSnoc(offers, newId);
    OffersSnoc(offers, newId);
  }

  lemma StartOpens(e: Enc, offers: seq<string>, newId: string, now: int)
    requires WellSequenced(e, offers) && !Truthy(e.id)
    ensures WellSequenced(Start(e, newId, now), offers + [newId])
  {
    StartsSnoc(offers, newId);
    OffersSnoc(offers, newId);
    var r := Response(newId, EpochSeconds(now), "in_progress", e.model, "", [], None, None);
    var bodies := [ResponseCreated(r), ResponseInProgress(r)];
    EmitNumbers(e, bodies);
    CarriedConcat(e.lines, Numbered(e.next, bodies));
    PrologueCarries(e.next, r);
    assert HasPrologue(Start(e, newId, now).lines);
  }

  lemma StartSequenced(e: Enc, offers: seq<string>, newId: string, now: int)
    requires WellSequenced(e, offers)
    ensures WellSequenced(Start(e, newId, now), offers + [newId])
    ensures Start(e, newId, now).lines != []
  {
    if Truthy(e.id) {
      StartIgnored(e, offers, newId);
    } else {
      StartOpens(e, offers, newId, now);
    }
  }

  lemma PushSequenced(e: Enc, offers: seq<string>, streamId: string, event: CanonicalEvent, generated: string)
    requires WellSequenced(e, offers)
    ensures WellSequenced(Push(e, streamId, event, generated), offers)
  {
    if Running(e) {
      var op := Meaning(streamId, event, generated);
      StepAppends(e.core, op);
      StepSound(e.core, op);
      var news := Step(e.core, op).trace[|e.core.trace|..];
      CarriedConcat(e.lines, Numbered(e.next, Deltas(news)));
      CarriedDeltas(e.next, news);
    }
  }

  lemma CompleteSequenced(e: Enc, offers: seq<string>, ok: bool, message: Option<string>,
                          code: Option<string>, now: int)
    requires WellSequenced(e, offers)
    ensures WellSequenced(Complete(e, ok, message, code, now), offers)
  {
    if Running(e) {
      var response := FinalResponse(e, ok, message, code, now);
      EmitSequenced(e, [if ok then ResponseCompleted(response) else ResponseFailed(response)], offers);
    }
  }

  /** An error line after a start, then the failed response. */
  lemma ErrorSequenced(e: Enc, offers: seq<string>, newId: string, error: ApiError, message: string,
                       code: Option<string>, now: int)
    requires WellSequenced(e, offers)
    ensures WellSequenced(Complete(Emit(Start(e, newId, now), [StreamError(error)]), false, Some(message), code, now),
                          offers + [newId])
  {
    StartSequenced(e, offers, newId, now);
    var e, offers := Start(e, newId, now), offers + [newId];
    EmitSequenced(e, [StreamError(error)], offers);
    CompleteSequenced(Emit(e, [StreamError(error)]), offers, false, Some(message), code, now);
  }

  lemma CrashSequenced(e: Enc, offers: seq<string>, text: string, newId: string, now: int)
    requires WellSequenced(e, offers)
    ensures WellSequenced(Crash(e, text, newId, now), offers + [newId])
  {
    var message := if text == "" then "Unexpected error" else text;
    ErrorSequenced(e, offers, newId, ApiError("server_error", message), message, None, now);
  }

  lemma UsageErrorSequenced(e: Enc, offers: seq<string>, text: string, code: Option<string>, newId: string, now: int)
    requires WellSequenced(e, offers)
    ensures WellSequenced(UsageError(e, text, code, newId, now), offers + [newId])
  {
    var shown := TextOr(code, "usage_error");
    ErrorSequenced(e, offers, newId, ApiError(shown, text), text, Some(shown), now);
  }

  lemma StepSequenced(e: Enc, offers: seq<string>, call: EncCall)
    requires WellSequenced(e, offers)
    ensures WellSequenced(EncStep(e, call), offers + Offered(call))
  {
    assert call.CallPush? || call.CallComplete? ==> offers + Offered(call) == offers;
    match call
    case CallStart(newId, now) => StartSequenced(e, offers, newId, now);
    case CallPush(streamId, event, generated) => PushSequenced(e, offers, streamId, event, generated);
    case CallComplete(ok, message, code, now) => CompleteSequenced(e, offers, ok, message, code, now);
    case CallCrash(text, newId, now) => CrashSequenced(e, offers, text, newId, now);
    case CallUsageError(text, code, newId, now) => UsageErrorSequenced(e, offers, text, code, newId, now);
  }

  lemma {:induction false} RunSequenced(model: string, calls: seq<EncCall>)
    ensures WellSequenced(EncRun(model, calls), Offers(calls))
  {
    if calls == [] {
      RunSound([]);
    } else {
      RunSequenced(model, calls[..|calls| - 1]);
      StepSequenced(EncRun(model, calls[..|calls| - 1]), Offers(calls[..|calls| - 1]), calls[|calls| - 1]);
    }
  }

  /** The k-th line of any run carries sequence number k. */
  lemma {:induction false} SequenceNumbers(model: string, calls: seq<EncCall>, k: nat)
    requires k < |EncRun(model, calls).lines|
    ensures EncRun(model, calls).lines[k].sequenceNumber == k
  {
    RunSequenced(model, calls);
  }

  /** Any output begins with created and in_progress, which show the same response. */
  lemma {:induction false} Prologue(model: string, calls: seq<EncCall>)
    ensures var lines := EncRun(model, calls).lines;
      lines != [] ==>
      && |lines| >= 2 && lines[0].body.ResponseCreated? && lines[1].body.ResponseInProgress?
      && lines[0].body.response == lines[1].body.response
  {
    RunSequenced(model, calls);
  }

  /** The first call that offers an id. */
  function FirstOffering(calls: seq<EncCall>): (first: Option<EncCall>)
    ensures first.Some? ==> Offered(first.value) != []
  {
    if calls == [] then None
    else
      var first, last := FirstOffering(calls[..|calls| - 1]), calls[|calls| - 1];
      if first.Some? then first else if Offered(last) != [] then Some(last) else None
  }

  lemma StepExtends(e: Enc, call: EncCall)
    ensures e.lines <= EncStep(e, call).lines && EncStep(e, call).model == e.model
    ensures Offered(call) == [] && e.lines == [] && e.id.None? ==> EncStep(e, call) == e
  {
  }

  /** What a call that offers an id makes of an encoder that has written nothing. */
  lemma FirstLines(e: Enc, call: EncCall)
    requires e.lines == [] && e.id.None? && Offered(call) != []
    ensures var lines := EncStep(e, call).lines;
      && |lines| >= 2 && lines[0].body.ResponseCreated?
      && lines[0].body.response
         == Response(call.newId, EpochSeconds(call.now), "in_progress", e.model, "", [], None, None)
  {
    var start := Start(e, call.newId, call.now);
    assert start.lines[0] == Numbered(e.next, [ResponseCreated(start.lines[0].body.response),
                                               ResponseInProgress(start.lines[0].body.response)])[0];
  }

  /**
   Nothing is written before an id is offered; then the prologue shows the id and the time of the
   first call that offered one, and an empty response in progress.
   */
  lemma {:induction false} PrologueShows(model: string, calls: seq<EncCall>)
    ensures var e, first := EncRun(model, calls), FirstOffering(calls);
      && e.model == model
      && (if first.None? then e.lines == [] && e.id.None?
          else
            && |e.lines| >= 2 && e.lines[0].body.ResponseCreated?
            && e.lines[0].body.response
               == Response(first.value.newId, EpochSeconds(first.value.now), "in_progress", model, "", [], None, None))
  {
    if calls == [] {
    } else {
      var front, last := calls[..|calls| - 1], calls[|calls| - 1];
      PrologueShows(model, front);
      StepExtends(EncRun(model, front), last);
      if FirstOffering(front).None? && Offered(last) != [] {
        FirstLines(EncRun(model, front), last);
      }
    }
  }

  lemma OneStart(offers: seq<string>)
    ensures Starts(offers) <= 1 <==> |offers| <= 1 || offers[0] != ""
  {
    if |offers| >= 2 && offers[0] == "" {
      assert offers[1..] != [];
    }
  }

  /**
   The stream is announced at most once if and only if it is asked to start at most once or the
   first response id offered is not empty: an empty id is falsy, so the next start repeats it.
   */
  lemma {:induction false} CreatedOnce(model: string, calls: seq<EncCall>)
    ensures CreatedCount(EncRun(model, calls).lines) <= 1
            <==> |Offers(calls)| <= 1 || Offers(calls)[0] != ""
  {
    RunSequenced(model, calls);
    OneStart(Offers(calls));
  }

  /** Two starts that are offered an empty id announce the stream twice. */
  lemma EmptyIdRepeats(now: int)
    ensures CreatedCount(EncRun("", [CallStart("", now), CallStart("", now)]).lines) == 2
  {
    var calls := [CallStart("", now), CallStart("", now)];
    RunSequenced("", calls);
    assert calls[..1] == [CallStart("", now)] && calls[..1][..0] == [];
    assert Offers(calls[..1]) == [] + [""] && Offers(calls) == [""] + [""];
    assert Starts(["", ""][1..]) == 1;
  }

  /** The lines on the wire are a trace the strict client accepts, and it rebuilds the state. */
  lemma {:induction false} WireRefinement(model: string, calls: seq<EncCall>)
    ensures var e := EncRun(model, calls);
      && Accepted(Carried(e.lines)) && |Replay(Carried(e.lines)).value| == |e.core.output|
      && forall i | 0 <= i < |e.core.output| :: e.core.output[i] == Stored(Replay(Carried(e.lines)).value[i])
  {
    RunSequenced(model, calls);
    var e := EncRun(model, calls);
    var view := Replay(e.core.trace).value;
    forall i | 0 <= i < |e.core.output| ensures e.core.output[i] == Stored(view[i]) {
      assert Mirrors(view, e.core.output, e.core.owners, e.core.texts, e.core.calls, i);
    }
  }

  /** What a call asks of the state: an event pushed after a non-empty id was offered has its meaning. */
  function OpOf(offers: seq<string>, call: EncCall): seq<Op> {
    if call.CallPush? && (exists k :: 0 <= k < |offers| && offers[k] != "")
    then [Meaning(call.streamId, call.event, call.generated)] else []
  }

  function OpsOf(calls: seq<EncCall>): seq<Op> {
    if calls == [] then []
    else OpsOf(calls[..|calls| - 1]) + OpOf(Offers(calls[..|calls| - 1]), calls[|calls| - 1])
  }

  lemma OpsSnoc(ops: seq<Op>, op: Op, c: Core)
    requires c == Run(ops)
    ensures Step(c, op) == Run(ops + [op])
  {
    assert (ops + [op])[..|ops|] == ops;
  }

  lemma CallOperates(e: Enc, offers: seq<string>, call: EncCall)
    requires WellSequenced(e, offers)
    ensures EncStep(e, call).core == if OpOf(offers, call) == [] then e.core else Step(e.core, OpOf(offers, call)[0])
  {
  }

  /** The state behind any run is the one those operations lead to: no event is lost, added or altered. */
  lemma {:induction false} RunIsOps(model: string, calls: seq<EncCall>)
    ensures EncRun(model, calls).core == Run(OpsOf(calls))
  {
    if calls == [] {
    } else {
      var front, last := calls[..|calls| - 1], calls[|calls| - 1];
      RunIsOps(model, front);
      RunSequenced(model, front);
      CallOperates(EncRun(model, front), Offers(front), last);
      var op := OpOf(Offers(front), last);
      if op == [] {
        assert OpsOf(front) + [] == OpsOf(front);
      } else {
        assert op == [op[0]];
        OpsSnoc(OpsOf(front), op[0], EncRun(model, front).core);
      }
    }
  }

  // ---------------------------------------------------------------- how a response ends

  /** A completed response: nothing went wrong. */
  predicate EndsWell(body: Body) {
    body.ResponseCompleted? && body.response.status == "completed" && body.response.error.None?
    && body.response.completedAt.Some?
  }

  /** A failed response that says what went wrong. */
  predicate EndsBadly(body: Body, error: ApiError) {
    body.ResponseFailed? && body.response.status == "failed" && body.response.error == Some(error)
    && body.response.completedAt.None?
  }

  /** The response is that of this encoder, with all it has put out. */
  predicate ShowsEncoder(e: Enc, response: Response) {
    && Some(response.id) == e.id && Some(response.createdAt) == e.createdAt && response.model == e.model
    && response.output == e.core.output && response.outputText == OutputText(e.core.output)
  }

  function LastBody(e: Enc): Body
    requires e.lines != []
  {
    e.lines[|e.lines| - 1].body
  }

  /** The code of an error response: only usage errors are the caller's fault. */
  function ErrorCode(code: Option<string>): string {
    if code == Some("usage_error") then "invalid_prompt" else "server_error"
  }

  /**
   Completing a running response adds one line: completed, at the time given and without an error,
   or failed, with the message given and the code it maps to.
   */
  lemma CompleteTells(e: Enc, ok: bool, message: Option<string>, code: Option<string>, now: int)
    requires Running(e)
    ensures var r := Complete(e, ok, message, code, now);
      && |r.lines| == |e.lines| + 1 && e.lines <= r.lines && ShowsEncoder(e, LastBody(r).response)
      && r.core == e.core && r.id == e.id && r.createdAt == e.createdAt && r.model == e.model
      && (if ok then EndsWell(LastBody(r)) && LastBody(r).response.completedAt == Some(EpochSeconds(now))
          else EndsBadly(LastBody(r), ApiError(ErrorCode(code), TextOr(message, "Unknown error"))))
  {
  }

  /** A failure writes the error and then the failed response, with one message. */
  ghost predicate Failed(e: Enc, r: Enc, shown: string, code: string, message: string) {
    && |r.lines| >= |e.lines| + 2 && e.lines <= r.lines
    && r.lines[|r.lines| - 2].body == StreamError(ApiError(shown, message))
    && EndsBadly(LastBody(r), ApiError(code, message)) && ShowsEncoder(r, LastBody(r).response)
  }

  lemma FailureTells(e: Enc, error: ApiError, newId: string, now: int, code: Option<string>)
    requires (Truthy(e.id) && e.createdAt.Some?) || (!Truthy(e.id) && newId != "")
    ensures var s := Emit(Start(e, newId, now), [StreamError(error)]);
      Failed(e, Complete(s, false, Some(error.message), code, now), error.code, ErrorCode(code), error.message)
  {
    var s := Emit(Start(e, newId, now), [StreamError(error)]);
    assert Running(s);
    CompleteTells(s, false, Some(error.message), code, now);
    assert LastBody(s) == StreamError(error);
  }

  /** A crash of a stream with a non-empty id: server errors with the message, or a default one. */
  lemma CrashTells(e: Enc, text: string, newId: string, now: int)
    requires (Truthy(e.id) && e.createdAt.Some?) || (!Truthy(e.id) && newId != "")
    ensures Failed(e, Crash(e, text, newId, now), "server_error", "server_error",
                   if text == "" then "Unexpected error" else text)
  {
    var message := if text == "" then "Unexpected error" else text;
    FailureTells(e, ApiError("server_error", message), newId, now, None);
  }

  /** A usage error shows the code it is given, or the default, and maps the default to invalid_prompt. */
  lemma UsageErrorTells(e: Enc, text: string, code: Option<string>, newId: string, now: int)
    requires (Truthy(e.id) && e.createdAt.Some?) || (!Truthy(e.id) && newId != "")
    ensures Failed(e, UsageError(e, text, code, newId, now), TextOr(code, "usage_error"),
                   if code.None? || code.value == "usage_error" then "invalid_prompt" else "server_error", text)
  {
    var shown := TextOr(code, "usage_error");
    FailureTells(e, ApiError(shown, text), newId, now, Some(shown));
  }
}
