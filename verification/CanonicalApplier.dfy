/** Dispatch of canonical events to state transitions (openai-responses-canonical-applier.ts). */
module CanonicalApplier {
  import opened Options
  import opened ResponsesCore
  import opened ResponsesState

  /** The string-valued fields of an item record; a missing or non-string field is `None`. */
  datatype RawItem = RawItem(kind: Option<string>, id: Option<string>, callId: Option<string>,
                             name: Option<string>, arguments: Option<string>)

  /** The `item_id` of an untrusted record: missing, a string, or anything else. */
  datatype ItemId = NoId | TextId(text: string) | OtherId(truthy: bool)

  /** Canonical events as untrusted records: an item that is not a record is `None`. */
  datatype CanonicalEvent =
    | OutputItemAdded(item: Option<RawItem>)
    | ArgumentsDelta(itemId: ItemId, delta: Option<string>)
    | ArgumentsDone(itemId: ItemId, arguments: Option<string>, name: Option<string>)
    | OutputItemDone(item: Option<RawItem>)
    | ContentPartAdded
    | OutputTextDelta(delta: Option<string>)
    | OutputTextDone(text: Option<string>)
    | ContentPartDone
    | OtherEvent

  const PREFIX := "function_call:"

  /** formatCanonicalFunctionCallItemId */
  function FormatItemId(callId: string): string {
    PREFIX + callId
  }

  /** parseCanonicalFunctionCallItemId, where it returns. */
  function ParseItemId(itemId: ItemId): Option<string> {
    if !itemId.TextId? || itemId.text == "" then None
    else if !(PREFIX <= itemId.text) then None
    else
      var callId := itemId.text[|PREFIX|..];
      if callId == "" then None else Some(callId)
  }

  /** Only a string has a prefix: a truthy id of another type passes the first guard and then throws. */
  predicate ParseThrows(itemId: ItemId) {
    itemId.OtherId? && itemId.truthy
  }

  /** Applying the event throws. */
  predicate Throws(event: CanonicalEvent) {
    (event.ArgumentsDelta? || event.ArgumentsDone?) && ParseThrows(event.itemId)
  }

  /** Parsing accepts exactly the formatted ids of non-empty call ids. */
  lemma ParseInvertsFormat(itemId: string, callId: string)
    ensures ParseItemId(TextId(itemId)) == Some(callId) <==> itemId == FormatItemId(callId) && callId != ""
  {
    if itemId == FormatItemId(callId) {
      assert itemId[|PREFIX|..] == callId;
    }
    if PREFIX <= itemId {
      assert itemId == PREFIX + itemId[|PREFIX|..];
    }
  }

  /** The state transition an event asks for; malformed events ask for none. */
  function Meaning(streamId: string, event: CanonicalEvent, generated: string): Op {
    match event
    case OutputItemAdded(None) => OpNothing
    case OutputItemAdded(Some(item)) =>
      if item.kind == Some("function_call") then
        if !Truthy(item.callId) || !Truthy(item.name) then OpNothing
        else OpCall(item.callId.value, item.name.value, TextOr(item.id, generated))
      else if item.kind == Some("message") then
        OpMessage(streamId, "assistant", TextOr(item.id, generated))
      else OpNothing
    case ArgumentsDelta(itemId, delta) =>
      var callId := ParseItemId(itemId);
      if callId.None? || delta.None? then OpNothing else OpArgsDelta(callId.value, delta.value)
    case ArgumentsDone(itemId, arguments, name) =>
      var callId := ParseItemId(itemId);
      if callId.None? || arguments.None? then OpNothing else OpArgsDone(callId.value, arguments.value, name)
    case OutputItemDone(None) => OpNothing
    case OutputItemDone(Some(item)) =>
      if item.kind == Some("function_call") then
        if !Truthy(item.callId) || item.arguments.None? then OpNothing
        else OpCallDone(item.callId.value, item.arguments.value)
      else if item.kind == Some("message") then OpMessageDone(streamId, generated)
      else OpNothing
    case ContentPartAdded => OpTextPart(streamId, generated)
    case OutputTextDelta(delta) =>
      if delta.None? then OpNothing else OpTextDelta(streamId, delta.value, generated)
    case OutputTextDone(text) => OpTextDone(streamId, text, generated)
    case ContentPartDone => OpPartDone(streamId, generated)
    case OtherEvent => OpNothing
  }

  // ---------------------------------------------------------------- what well-formed events ask for

  /** The events a producer makes for one function call: start, argument deltas, final arguments, end. */
  function CallEvents(callId: string, name: string, itemId: Option<string>, deltas: seq<string>, args: string):
    seq<CanonicalEvent>
  {
    var item := RawItem(Some("function_call"), itemId, Some(callId), Some(name), Some(args));
    [OutputItemAdded(Some(item.(arguments := Some(""))))]
    + seq(|deltas|, k requires 0 <= k < |deltas| => ArgumentsDelta(TextId(FormatItemId(callId)), Some(deltas[k])))
    + [ArgumentsDone(TextId(FormatItemId(callId)), Some(args), Some(name)), OutputItemDone(Some(item))]
  }

  /** They ask for exactly the start of the call, its deltas in order, its final arguments and its end. */
  lemma CallEventsMean(streamId: string, callId: string, name: string, itemId: Option<string>, deltas: seq<string>,
                       args: string, generated: string, k: nat)
    requires callId != "" && name != "" && k < |deltas| + 3
    ensures var events := CallEvents(callId, name, itemId, deltas, args);
      && |events| == |deltas| + 3
      && Meaning(streamId, events[k], generated)
         == (if k == 0 then OpCall(callId, name, TextOr(itemId, generated))
             else if k <= |deltas| then OpArgsDelta(callId, deltas[k - 1])
             else if k == |deltas| + 1 then OpArgsDone(callId, args, Some(name))
             else OpCallDone(callId, args))
  {
    ParseInvertsFormat(FormatItemId(callId), callId);
  }

  /** Exactly the argument events with a truthy id that is no string throw. */
  lemma ThrowsExactly(event: CanonicalEvent, truthy: bool, text: Option<string>, name: Option<string>)
    ensures Throws(ArgumentsDelta(OtherId(truthy), text)) <==> truthy
    ensures Throws(ArgumentsDone(OtherId(truthy), text, name)) <==> truthy
    ensures Throws(event) ==>
              (event.ArgumentsDelta? && event.itemId == OtherId(true))
              || (event.ArgumentsDone? && event.itemId == OtherId(true))
  {
  }

  /** The events a producer makes for a text message: start, part, deltas, and three ends. */
  lemma MessageEventsMean(streamId: string, itemId: Option<string>, text: string, generated: string)
    ensures var item := RawItem(Some("message"), itemId, None, None, None);
      && Meaning(streamId, OutputItemAdded(Some(item)), generated)
         == OpMessage(streamId, "assistant", TextOr(itemId, generated))
      && Meaning(streamId, ContentPartAdded, generated) == OpTextPart(streamId, generated)
      && Meaning(streamId, OutputTextDelta(Some(text)), generated) == OpTextDelta(streamId, text, generated)
      && Meaning(streamId, OutputTextDone(Some(text)), generated) == OpTextDone(streamId, Some(text), generated)
      && Meaning(streamId, OutputTextDone(None), generated) == OpTextDone(streamId, None, generated)
      && Meaning(streamId, ContentPartDone, generated) == OpPartDone(streamId, generated)
      && Meaning(streamId, OutputItemDone(Some(item)), generated) == OpMessageDone(streamId, generated)
  {
  }

  /** The fields that an event must have to mean anything. */
  ghost predicate SaysSomething(event: CanonicalEvent) {
    match event
    case OutputItemAdded(item) =>
      item.Some? && (item.value.kind == Some("message")
                     || (item.value.kind == Some("function_call") && Truthy(item.value.callId)
                         && Truthy(item.value.name)))
    case OutputItemDone(item) =>
      item.Some? && (item.value.kind == Some("message")
                     || (item.value.kind == Some("function_call") && Truthy(item.value.callId)
                         && item.value.arguments.Some?))
    case ArgumentsDelta(itemId, delta) => (exists c :: c != "" && itemId == TextId(FormatItemId(c))) && delta.Some?
    case ArgumentsDone(itemId, args, _) => (exists c :: c != "" && itemId == TextId(FormatItemId(c))) && args.Some?
    case OutputTextDelta(delta) => delta.Some?
    case OtherEvent => false
    case _ => true
  }

  /** Exactly the events that lack such a field ask for nothing. */
  lemma MalformedAsksNothing(streamId: string, event: CanonicalEvent, generated: string)
    ensures Meaning(streamId, event, generated) == OpNothing <==> !SaysSomething(event)
  {
    if (event.ArgumentsDelta? || event.ArgumentsDone?) && event.itemId.TextId? {
      var id := event.itemId.text;
      if ParseItemId(event.itemId).Some? {
        ParseInvertsFormat(id, ParseItemId(event.itemId).value);
      }
      forall c | c != "" && id == FormatItemId(c) ensures ParseItemId(event.itemId) == Some(c) {
        ParseInvertsFormat(id, c);
      }
    }
  }

  class OpenAiResponsesCanonicalApplier {
    const state: OpenAiResponsesState

    constructor (state: OpenAiResponsesState)
      ensures this.state == state
    {
      this.state := state;
    }

    /** Applies one event. `generated` is what the item id generator would return. */
    method Apply(streamId: string, event: CanonicalEvent, generated: string)
      returns (out: seq<Emission>, thrown: bool)
      requires state.Valid()
      modifies state, state.own.items, state.own.arrays
      ensures state.Valid() && state.Returned(out)
      ensures thrown <==> Throws(event)
      ensures thrown ==> state.View() == old(state.View())
      ensures state.View() == Step(old(state.View()), Meaning(streamId, event, generated))
    {
      thrown := false;
      if event.ArgumentsDelta? || event.ArgumentsDone? {
        out, thrown := ApplyArguments(streamId, event, generated);
      } else if event.OutputItemAdded? || event.OutputItemDone? {
        if event.item.None? {
          return [], false;
        }
        out := ApplyItem(streamId, event, generated);
      } else {
        out := ApplyText(streamId, event, generated);
      }
    }

    method ApplyItem(streamId: string, event: CanonicalEvent, generated: string) returns (out: seq<Emission>)
      requires state.Valid()
      requires (event.OutputItemAdded? || event.OutputItemDone?) && event.item.Some?
      modifies state, state.own.items, state.own.arrays
      ensures state.Valid() && state.Returned(out)
      ensures state.View() == Step(old(state.View()), Meaning(streamId, event, generated))
    {
      var item := event.item.value;
      if event.OutputItemAdded? {
        out := ApplyAdded(streamId, item, generated);
      } else {
        out := ApplyDone(streamId, item, generated);
      }
    }

    method ApplyAdded(streamId: string, item: RawItem, generated: string) returns (out: seq<Emission>)
      requires state.Valid()
      modifies state, state.own.items, state.own.arrays
      ensures state.Valid() && state.Returned(out)
      ensures state.View() == Step(old(state.View()), Meaning(streamId, OutputItemAdded(Some(item)), generated))
    {
      if item.kind == Some("function_call") {
        if !Truthy(item.callId) || !Truthy(item.name) {
          return [];
        }
        out := state.StartFunctionCall(item.callId.value, item.name.value, item.id, generated);
      } else if item.kind == Some("message") {
        out := state.EnsureMessage(streamId, "assistant", item.id, generated);
      } else {
        out := [];
      }
    }

    method ApplyDone(streamId: string, item: RawItem, generated: string) returns (out: seq<Emission>)
      requires state.Valid()
      modifies state, state.own.items, state.own.arrays
      ensures state.Valid() && state.Returned(out)
      ensures state.View() == Step(old(state.View()), Meaning(streamId, OutputItemDone(Some(item)), generated))
    {
      if item.kind == Some("function_call") {
        if !Truthy(item.callId) || item.arguments.None? {
          return [];
        }
        out := state.FinishFunctionCall(item.callId.value, item.arguments.value);
      } else if item.kind == Some("message") {
        out := state.DoneMessageItem(streamId, generated);
      } else {
        out := [];
      }
    }

    method ApplyArguments(streamId: string, event: CanonicalEvent, generated: string)
      returns (out: seq<Emission>, thrown: bool)
      requires state.Valid() && (event.ArgumentsDelta? || event.ArgumentsDone?)
      modifies state, state.own.items, state.own.arrays
      ensures state.Valid() && state.Returned(out)
      ensures thrown <==> Throws(event)
      ensures thrown ==> state.View() == old(state.View())
      ensures state.View() == Step(old(state.View()), Meaning(streamId, event, generated))
    {
      if ParseThrows(event.itemId) {
        return [], true;
      }
      thrown := false;
      var callId := ParseItemId(event.itemId);
      if callId.None? {
        return [], false;
      }
      match event
      case ArgumentsDelta(_, delta) =>
        if delta.None? {
          return [], false;
        }
        out := state.AppendFunctionCallArgs(callId.value, delta.value);
      case ArgumentsDone(_, arguments, name) =>
        if arguments.None? {
          return [], false;
        }
        out := state.FinishFunctionCallArgs(callId.value, arguments.value, name);
    }

    method ApplyText(streamId: string, event: CanonicalEvent, generated: string) returns (out: seq<Emission>)
      requires state.Valid() && !event.ArgumentsDelta? && !event.ArgumentsDone?
      requires !event.OutputItemAdded? && !event.OutputItemDone?
      modifies state, state.own.items, state.own.arrays
      ensures state.Valid() && state.Returned(out)
      ensures state.View() == Step(old(state.View()), Meaning(streamId, event, generated))
    {
      match event
      case OutputTextDelta(delta) =>
        if delta.None? {
          return [];
        }
        out := state.AppendTextDelta(streamId, delta.value, generated);
      case OutputTextDone(text) => out := state.DoneOutputText(streamId, text, generated);
      case ContentPartAdded => out := state.EnsureTextPart(streamId, generated);
      case ContentPartDone => out := state.DoneContentPart(streamId, generated);
      case OtherEvent => out := [];
    }
  }
}
