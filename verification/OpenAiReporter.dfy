/** The reporter object that writes the stream line by line (openai-stream.ts). */
module OpenAiReporter {
  import opened Options
  import opened ResponsesState
  import opened CanonicalApplier
  import opened EncoderCore
  import opened StreamEncoder
  import opened ReporterCore
  import Spec = ReporterCore

  class OpenAiStreamReporter {
    const encoder: OpenAiStreamEncoder
    var sawOutputTextDelta: bool
    var reportText: Option<string>
    /** The lines handed to the writer. */
    var written: seq<Line>

    ghost predicate Valid()
      reads this, encoder, encoder.state, encoder.state.own.items, encoder.state.own.arrays
      reads encoder.state.handed.items, encoder.state.handed.arrays
    {
      encoder.Valid() && written == encoder.lines
    }

    ghost function View(): Rep
      reads this, encoder, encoder.state
    {
      Rep(encoder.View(), sawOutputTextDelta, reportText)
    }

    constructor (model: string)
      ensures Valid() && View() == NewRep(model) && written == []
      ensures fresh(encoder) && fresh(encoder.state)
      ensures encoder.state.own == NOTHING && encoder.state.handed == NOTHING
    {
      encoder := new OpenAiStreamEncoder(model);
      sawOutputTextDelta, reportText, written := false, None, [];
    }

    /** Writes the lines one by one. */
    method WriteAll(lines: seq<Line>)
      modifies this`written
      ensures written == old(written) + lines
    {
      for k := 0 to |lines|
        invariant written == old(written) + lines[..k]
      {
        written := written + [lines[k]];
      }
    }

    method OnStart(newId: string, now: int)
      requires Valid()
      modifies this, encoder
      ensures Valid() && View() == Spec.OnStart(old(View()), newId, now)
    {
      var lines := encoder.Start(newId, now);
      WriteAll(lines);
    }

    /** Pushes one canonical event and writes the lines it gives. */
    method Forward(streamId: string, event: CanonicalEvent, generated: string) returns (thrown: bool)
      requires Valid()
      modifies this`written, encoder, encoder.state, encoder.state.own.items, encoder.state.own.arrays
      ensures Valid() && encoder.View() == Push(old(encoder.View()), streamId, event, generated)
      ensures thrown <==> Running(old(encoder.View())) && Throws(event)
      ensures encoder.state.Grown()
    {
      var lines;
      lines, thrown := encoder.PushResponsesEvent(streamId, event, generated);
      WriteAll(lines);
    }

    method OnEvent(event: LoopEvent, generated: string) returns (thrown: bool)
      requires Valid()
      modifies this, encoder, encoder.state, encoder.state.own.items, encoder.state.own.arrays
      ensures Valid() && View() == Spec.OnEvent(old(View()), event, generated)
      ensures thrown <==> event.LlmResponses? && Running(old(encoder.View())) && Throws(event.event)
      ensures encoder.state.Grown()
    {
      if IsReport(event) {
        reportText := Some(event.content);
        return false;
      }
      thrown := false;
      if event.LlmResponses? {
        if event.event.OutputTextDelta? {
          sawOutputTextDelta := true;
        }
        thrown := Forward(event.streamId, event.event, generated);
      }
    }

    /** Sends the events of the report-only message. */
    method PushReport(events: seq<CanonicalEvent>, generated: string)
      requires Valid() && forall e | e in events :: !Throws(e)
      modifies this`written, encoder, encoder.state, encoder.state.own.items, encoder.state.own.arrays
      ensures Valid() && encoder.View() == PushAll(old(encoder.View()), events, generated)
    {
      for k := 0 to |events|
        invariant Valid() && encoder.View() == PushAll(old(encoder.View()), events[..k], generated)
        invariant encoder.state.Grown()
      {
        assert events[..k + 1][..k] == events[..k];
        var thrown := Forward(REPORT_STREAM, events[k], generated);
        assert !thrown;
      }
      assert events[..|events|] == events;
    }

    /** The report as a message of its own, if no text was streamed. */
    method SendReport(generated: string)
      requires Valid()
      modifies this`written, encoder, encoder.state, encoder.state.own.items, encoder.state.own.arrays
      ensures Valid() && encoder.View() == Reported(old(View()), generated)
    {
      if !sawOutputTextDelta && reportText.Some? {
        PushReport(ReportEvents(reportText.value), generated);
      }
    }

    method OnFinish(success: bool, reason: Option<string>, errorCode: Option<string>, generated: string, now: int)
      requires Valid()
      modifies this, encoder, encoder.state, encoder.state.own.items, encoder.state.own.arrays
      ensures Valid() && View() == Spec.OnFinish(old(View()), success, reason, errorCode, generated, now)
    {
      var message := if Truthy(reason) then reason else if success then None else Some("Unknown error");
      SendReport(generated);
      var lines := encoder.Complete(success, message, errorCode, now);
      WriteAll(lines);
    }

    method OnError(message: string, newId: string, now: int)
      requires Valid()
      modifies this, encoder
      ensures Valid() && View() == Spec.OnError(old(View()), message, newId, now)
    {
      var lines := encoder.Crash(message, newId, now);
      WriteAll(lines);
    }

    /** onFinish or onError. */
    method Conclude(ending: Ending)
      requires Valid()
      modifies this, encoder, encoder.state, encoder.state.own.items, encoder.state.own.arrays
      ensures Valid() && View() == End(old(View()), ending)
    {
      match ending
      case Finish(success, reason, errorCode, generated, now) =>
        OnFinish(success, reason, errorCode, generated, now);
      case Fail(message, newId, now) =>
        OnError(message, newId, now);
    }

    /** Handles events one after the other, whether they throw or not; each brings the id it would generate. */
    method OnEvents(events: seq<(LoopEvent, string)>)
      requires Valid()
      modifies this, encoder, encoder.state, encoder.state.own.items, encoder.state.own.arrays
      ensures Valid() && View() == AfterEvents(old(View()), events)
      ensures encoder.state.Grown()
    {
      for k := 0 to |events|
        invariant Valid() && View() == AfterEvents(old(View()), events[..k])
        invariant encoder.state.Grown()
      {
        assert events[..k + 1][..k] == events[..k];
        var thrown := OnEvent(events[k].0, events[k].1);
      }
      assert events[..|events|] == events;
    }
  }

  /**
   A whole session on a new reporter: exactly one completed or failed line is written, as the
   last one, if and only if the response id in force is not empty; and the lines carry the
   sequence numbers 0, 1, 2, and so on.
   */
  method RunSession(model: string, startId: string, startNow: int, events: seq<(LoopEvent, string)>, ending: Ending)
    returns (lines: seq<Line>)
    ensures lines == End(Opened(model, startId, startNow, events), ending).enc.lines
    ensures EffectiveId(startId, ending) != "" <==>
              TerminalCount(lines) == 1 && lines != [] && Terminal(lines[|lines| - 1].body)
    ensures NumberedFromZero(lines)
  {
    var reporter := new OpenAiStreamReporter(model);
    reporter.OnStart(startId, startNow);
    reporter.OnEvents(events);
    SessionEndsOnce(model, startId, startNow, events, ending);
    SessionNumbered(model, startId, startNow, events, ending);
    reporter.Conclude(ending);
    lines := reporter.written;
  }
}
