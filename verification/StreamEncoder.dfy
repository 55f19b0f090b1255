/** The stream encoder object (openai-stream-encoder.ts). */
module StreamEncoder {
  import opened Options
  import opened Sequences
  import opened ResponsesTrace
  import opened ResponsesCore
  import opened ResponsesState
  import opened CanonicalApplier
  import Spec = EncoderCore
  import opened EncoderCore

  class OpenAiStreamEncoder {
    const model: string
    const state: OpenAiResponsesState
    const applier: OpenAiResponsesCanonicalApplier
    var sequenceNumber: nat
    var responseId: Option<string>
    var createdAt: Option<int>
    ghost var lines: seq<Line>

    ghost predicate Valid()
      reads this, state, state.own.items, state.own.arrays, state.handed.items, state.handed.arrays
    {
      state.Valid() && applier.state == state
    }

    ghost function View(): Enc
      reads this, state
    {
      Enc(model, state.View(), sequenceNumber, responseId, createdAt, lines)
    }

    constructor (model: string)
      ensures Valid() && View() == NewEnc(model)
      ensures fresh(state) && state.own == NOTHING && state.handed == NOTHING
    {
      var state := new OpenAiResponsesState();
      var applier := new OpenAiResponsesCanonicalApplier(state);
      this.model, this.state, this.applier := model, state, applier;
      sequenceNumber, responseId, createdAt, lines := 0, None, None, [];
    }

    method NextSequenceNumber() returns (n: nat)
      modifies this`sequenceNumber
      ensures n == old(sequenceNumber) && sequenceNumber == n + 1
    {
      n := sequenceNumber;
      sequenceNumber := sequenceNumber + 1;
    }

    /** Numbers the bodies in order. */
    method Sequence(bodies: seq<Body>) returns (out: seq<Line>)
      modifies this`sequenceNumber, this`lines
      ensures out == Numbered(old(sequenceNumber), bodies)
      ensures lines == old(lines) + out && sequenceNumber == old(sequenceNumber) + |bodies|
    {
      out := [];
      for k := 0 to |bodies|
        invariant sequenceNumber == old(sequenceNumber) + k
        invariant |out| == k && forall j | 0 <= j < k :: out[j] == Line(old(sequenceNumber) + j, bodies[j])
        invariant lines == old(lines)
      {
        var n := NextSequenceNumber();
        out := out + [Line(n, bodies[k])];
      }
      lines := lines + out;
    }

    method Start(newId: string, now: int) returns (out: seq<Line>)
      requires Valid()
      modifies this
      ensures Valid() && lines == old(lines) + out
      ensures View() == Spec.Start(old(View()), newId, now)
    {
      if Truthy(responseId) {
        return [];
      }
      responseId := Some(newId);
      createdAt := Some(EpochSeconds(now));
      var response := Response(newId, EpochSeconds(now), "in_progress", model, "", [], None, None);
      out := Sequence([ResponseCreated(response), ResponseInProgress(response)]);
    }

    /** Applies one canonical event and numbers whatever the state emits for it. */
    method PushResponsesEvent(streamId: string, event: CanonicalEvent, generated: string)
      returns (out: seq<Line>, thrown: bool)
      requires Valid()
      modifies this, state, state.own.items, state.own.arrays
      ensures Valid() && lines == old(lines) + out
      ensures View() == Spec.Push(old(View()), streamId, event, generated)
      ensures thrown <==> Running(old(View())) && Throws(event)
      ensures thrown ==> out == []
      ensures state.Grown()
    {
      if !Truthy(responseId) || createdAt.None? {
        return [], false;
      }
      StepAppends(state.View(), Meaning(streamId, event, generated));
      var emitted;
      emitted, thrown := applier.Apply(streamId, event, generated);
      if thrown {
        return [], true;
      }
      var bodies := Bodies(emitted);
      out := Sequence(bodies);
    }

    /** The emissions of the last call as JSON-ready values. */
    method Bodies(emitted: seq<Emission>) returns (bodies: seq<Body>)
      requires Valid() && |emitted| <= |state.log| && state.log[|state.log| - |emitted|..] == emitted
      ensures bodies == Deltas(state.trace[|state.trace| - |emitted|..])
    {
      bodies := [];
      ghost var skip := |state.log| - |emitted|;
      for k := 0 to |emitted|
        invariant |bodies| == k && forall j | 0 <= j < k :: bodies[j] == StateEvent(state.trace[skip + j])
      {
        assert ShownAt(state.log, state.trace, state.handed, skip + k);
        assert emitted[k] == state.log[skip + k];
        bodies := bodies + [StateEvent(Freeze(emitted[k]))];
      }
    }

    method Complete(ok: bool, message: Option<string>, code: Option<string>, now: int) returns (out: seq<Line>)
      requires Valid()
      modifies this
      ensures Valid() && lines == old(lines) + out
      ensures View() == Spec.Complete(old(View()), ok, message, code, now)
    {
      if !Truthy(responseId) || createdAt.None? {
        return [];
      }
      var outputText := state.CollectOutputText();
      var output := Snapshot();
      var error := if ok then None
                   else Some(ApiError(if code == Some("usage_error") then "invalid_prompt" else "server_error",
                                      TextOr(message, "Unknown error")));
      var response := Response(responseId.value, createdAt.value, if ok then "completed" else "failed", model,
                               outputText, output, error, if ok then Some(EpochSeconds(now)) else None);
      out := Sequence([if ok then ResponseCompleted(response) else ResponseFailed(response)]);
    }

    /** The live output array as it is serialised. */
    method Snapshot() returns (items: seq<Item>)
      requires Valid()
      ensures items == state.values
    {
      items := [];
      for k := 0 to |state.output|
        invariant items == state.values[..k]
      {
        assert HoldsAt(state.output, state.own, state.values, k);
        items := items + [state.output[k].Value()];
      }
    }

    method ErrorLine(error: ApiError) returns (out: seq<Line>)
      requires Valid()
      modifies this`sequenceNumber, this`lines
      ensures Valid() && lines == old(lines) + out
      ensures View() == Emit(old(View()), [StreamError(error)])
    {
      out := Sequence([StreamError(error)]);
    }

    method Crash(text: string, newId: string, now: int) returns (out: seq<Line>)
      requires Valid()
      modifies this
      ensures Valid() && lines == old(lines) + out
      ensures View() == Spec.Crash(old(View()), text, newId, now)
    {
      var message := if text == "" then "Unexpected error" else text;
      out := Start(newId, now);
      var more := ErrorLine(ApiError("server_error", message));
      Regroup(old(lines), out, more);
      out := out + more;
      more := Complete(false, Some(message), None, now);
      Regroup(old(lines), out, more);
      out := out + more;
    }

    method UsageError(text: string, code: Option<string>, newId: string, now: int) returns (out: seq<Line>)
      requires Valid()
      modifies this
      ensures Valid() && lines == old(lines) + out
      ensures View() == Spec.UsageError(old(View()), text, code, newId, now)
    {
      var shown := TextOr(code, "usage_error");
      out := Start(newId, now);
      var more := ErrorLine(ApiError(shown, text));
      Regroup(old(lines), out, more);
      out := out + more;
      more := Complete(false, Some(text), Some(shown), now);
      Regroup(old(lines), out, more);
      out := out + more;
    }
  }
}
