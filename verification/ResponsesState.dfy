/**
 The mutable object behind a responses stream (openai-responses-state.ts). Output items and their
 content arrays are heap objects that are edited in place; events carry clones of them. Every method
 is proved to act on the values exactly as ResponsesCore says, and no later edit ever changes a
 clone handed out, neither its own fields nor its content.
 */
module ResponsesState {
  import opened Options
  import opened Sequences
  import opened ResponsesTrace
  import Spec = ResponsesCore
  import opened ResponsesCore

  /** The content array of an item, pushed to and written to in place. A part is replaced, never edited. */
  class ContentArray {
    var parts: seq<string>

    constructor (parts: seq<string>)
      ensures this.parts == parts
    {
      this.parts := parts;
    }

    method Push(part: string)
      modifies this
      ensures parts == old(parts) + [part]
    {
      parts := parts + [part];
    }

    method SetFirst(part: string)
      requires parts != []
      modifies this
      ensures parts == old(parts)[0 := part]
    {
      parts := parts[0 := part];
    }
  }

  datatype Kind = MessageKind(role: string) | CallKind(callId: string, name: string)

  function NewItem(id: string, kind: Kind): Item {
    match kind
    case MessageKind(role) => Message(id, role, InProgress, [])
    case CallKind(callId, name) => FunctionCall(id, callId, name, "", InProgress)
  }

  /** An item of the `output` array. A call's content array stays empty and does not show. */
  class OutputItem {
    const id: string
    const kind: Kind
    const content: ContentArray
    var status: Status
    var arguments: string

    constructor (id: string, kind: Kind, status: Status, arguments: string, content: ContentArray)
      ensures this.id == id && this.kind == kind && this.status == status && this.arguments == arguments
      ensures this.content == content
    {
      this.id, this.kind, this.status, this.arguments, this.content := id, kind, status, arguments, content;
    }

    /** The item as it would be serialised right now. */
    function Value(): Item
      reads this, content
    {
      match kind
      case MessageKind(role) => Message(id, role, status, content.parts)
      case CallKind(callId, name) => FunctionCall(id, callId, name, arguments, status)
    }
  }

  type Emission = Event<OutputItem>

  /** An emission as the value it holds right now. */
  function Freeze(e: Emission): Event<Item>
    reads if e.ItemAdded? || e.ItemDone? then {e.item, e.item.content} else {}
  {
    match e
    case ItemAdded(i, item) => ItemAdded(i, item.Value())
    case ItemDone(i, item) => ItemDone(i, item.Value())
    case PartAdded(i, id, c, part) => PartAdded(i, id, c, part)
    case TextDelta(i, id, c, delta) => TextDelta(i, id, c, delta)
    case TextDone(i, id, c, text) => TextDone(i, id, c, text)
    case PartDone(i, id, c, part) => PartDone(i, id, c, part)
    case ArgsDelta(i, id, delta) => ArgsDelta(i, id, delta)
    case ArgsDone(i, id, name, arguments) => ArgsDone(i, id, name, arguments)
  }

  ghost predicate Shows(e: Emission, event: Event<Item>)
    reads if e.ItemAdded? || e.ItemDone? then {e.item, e.item.content} else {}
  {
    Freeze(e) == event
  }

  /** Items and content arrays. */
  datatype Objects = Objects(items: set<OutputItem>, arrays: set<ContentArray>) {
    predicate Has(item: OutputItem) {
      item in items && item.content in arrays
    }

    predicate HasAll(e: Emission) {
      e.ItemAdded? || e.ItemDone? ==> Has(e.item)
    }

    predicate Apart(other: Objects) {
      items !! other.items && arrays !! other.arrays
    }

    function With(more: Objects): Objects {
      Objects(items + more.items, arrays + more.arrays)
    }
  }

  const NOTHING := Objects({}, {})

  function Both(item: OutputItem): Objects {
    Objects({item}, {item.content})
  }

  // ---------------------------------------------------------------- objects and their values

  ghost predicate ShownAt(log: seq<Emission>, trace: seq<Event<Item>>, handed: Objects, k: nat)
    requires k < |log| && k < |trace|
    reads handed.items, handed.arrays
  {
    handed.HasAll(log[k]) && Shows(log[k], trace[k])
  }

  /** Every snapshot in `handed` still shows the value it was emitted with. */
  ghost predicate Shown(log: seq<Emission>, trace: seq<Event<Item>>, handed: Objects)
    reads handed.items, handed.arrays
  {
    |log| == |trace| && forall k: nat | k < |log| :: ShownAt(log, trace, handed, k)
  }

  lemma ShownSnoc(log: seq<Emission>, trace: seq<Event<Item>>, handed: Objects,
                  e: Emission, event: Event<Item>, copies: Objects)
    requires Shown(log, trace, handed)
    requires Shows(e, event) && copies.HasAll(e)
    ensures Shown(log + [e], trace + [event], handed.With(copies))
  {
    forall k: nat | k < |log + [e]| ensures ShownAt(log + [e], trace + [event], handed.With(copies), k) {
      if k < |log| {
        assert ShownAt(log, trace, handed, k);
      }
    }
  }

  ghost predicate HoldsAt(output: seq<OutputItem>, own: Objects, values: seq<Item>, i: nat)
    requires i < |output| && i < |values|
    reads own.items, own.arrays
  {
    own.Has(output[i]) && output[i].Value() == values[i]
  }

  /** Two places of the output array share no object. */
  ghost predicate Different(output: seq<OutputItem>, i: nat, j: nat)
    requires i < |output| && j < |output|
  {
    output[i] != output[j] && output[i].content != output[j].content
  }

  /** The output objects and their content arrays are distinct members of `own` and hold `values`. */
  ghost predicate Holds(output: seq<OutputItem>, own: Objects, values: seq<Item>)
    reads own.items, own.arrays
  {
    && |output| == |values|
    && (forall i: nat | i < |output| :: HoldsAt(output, own, values, i))
    && (forall i: nat, j: nat | i < j < |output| :: Different(output, i, j))
  }

  lemma HoldsPush(output: seq<OutputItem>, own: Objects, values: seq<Item>, item: OutputItem)
    requires Holds(output, own, values) && item !in own.items && item.content !in own.arrays
    ensures Holds(output + [item], own.With(Both(item)), values + [item.Value()])
  {
    var output', own', values' := output + [item], own.With(Both(item)), values + [item.Value()];
    forall i: nat | i < |output'| ensures HoldsAt(output', own', values', i) {
      if i < |output| {
        assert HoldsAt(output, own, values, i);
      }
    }
    forall i: nat, j: nat | i < j < |output'| ensures Different(output', i, j) {
      assert HoldsAt(output, own, values, i);
      if j < |output| {
        assert Different(output, i, j);
      }
    }
  }

  class OpenAiResponsesState {
    var output: seq<OutputItem>
    var textItems: map<string, TextItem>
    var functionCalls: map<string, Call>
    /** The objects of the output array, and the owner and current value of each index. */
    ghost var own: Objects
    ghost var owners: seq<Owner>
    ghost var values: seq<Item>
    /** Everything emitted so far, as objects handed out and as values at emission time. */
    ghost var log: seq<Emission>
    ghost var trace: seq<Event<Item>>
    ghost var handed: Objects

    /** The output objects hold `values`; every clone handed out still shows what was emitted and is none of them. */
    ghost predicate Valid()
      reads this, own.items, own.arrays, handed.items, handed.arrays
    {
      Holds(output, own, values) && Shown(log, trace, handed) && own.Apart(handed)
    }

    /** The state as a value. */
    ghost function View(): Core
      reads this
    {
      Spec.Core(values, owners, textItems, functionCalls, trace)
    }

    /** All objects the state gained are new. */
    twostate predicate Grown()
      reads this
    {
      && old(handed).items <= handed.items && fresh(handed.items - old(handed).items)
      && old(handed).arrays <= handed.arrays && fresh(handed.arrays - old(handed).arrays)
      && old(own).items <= own.items && fresh(own.items - old(own).items)
      && old(own).arrays <= own.arrays && fresh(own.arrays - old(own).arrays)
    }

    /** This call returned exactly what it logged; all objects it brought in are new. */
    twostate predicate Returned(new out: seq<Emission>)
      reads this
    {
      log == old(log) + out && Grown()
    }

    constructor ()
      ensures Valid() && View() == EMPTY && log == [] && output == [] && own == NOTHING && handed == NOTHING
    {
      output, textItems, functionCalls := [], map[], map[];
      own, owners, values, log, trace, handed := NOTHING, [], [], [], [], NOTHING;
    }

    /** cloneOutputItem: a new object with the same fields and a new content array with the same parts. */
    static method CloneOutputItem(item: OutputItem) returns (copy: OutputItem)
      ensures fresh(copy) && fresh(copy.content) && copy.Value() == item.Value()
    {
      var parts := [];
      for k := 0 to |item.content.parts|
        invariant parts == item.content.parts[..k]
      {
        parts := parts + [item.content.parts[k]];
      }
      var content := new ContentArray(parts);
      copy := new OutputItem(item.id, item.kind, item.status, item.arguments, content);
    }

    /** Logs one emission; `copies` are the clones it hands out. */
    ghost method Record(e: Emission, event: Event<Item>, copies: Objects)
      requires Valid() && Shows(e, event) && copies.HasAll(e)
      requires own.Apart(copies)
      modifies this`log, this`trace, this`handed
      ensures Valid()
      ensures log == old(log) + [e] && trace == old(trace) + [event] && handed == old(handed).With(copies)
    {
      ShownSnoc(log, trace, handed, e, event, copies);
      log, trace, handed := log + [e], trace + [event], handed.With(copies);
    }

    /** Logs an emission that hands out no object. */
    ghost method RecordPlain(e: Emission, event: Event<Item>)
      requires Valid() && Shows(e, event) && !e.ItemAdded? && !e.ItemDone?
      modifies this`log, this`trace
      ensures Valid()
      ensures log == old(log) + [e] && trace == old(trace) + [event]
    {
      ShownSnoc(log, trace, handed, e, event, NOTHING);
      assert handed.With(NOTHING) == handed;
      log, trace := log + [e], trace + [event];
    }

    /** Pushes a new item with an empty content array. */
    method AppendItem(id: string, kind: Kind, ghost owner: Owner)
      requires Valid()
      modifies this`output, this`own, this`values, this`owners
      ensures Valid() && Grown() && |output| == |old(output)| + 1
      ensures values == old(values) + [NewItem(id, kind)] && owners == old(owners) + [owner]
    {
      var content := new ContentArray([]);
      var item := new OutputItem(id, kind, InProgress, "", content);
      HoldsPush(output, own, values, item);
      output, own := output + [item], own.With(Both(item));
      values, owners := values + [item.Value()], owners + [owner];
    }

    /** Announces the last item with a clone. */
    method AnnounceItem() returns (out: seq<Emission>)
      requires Valid() && output != []
      modifies this`log, this`trace, this`handed
      ensures Valid() && Returned(out)
      ensures trace == old(trace) + [ItemAdded(|output| - 1, values[|output| - 1])]
    {
      var n := |output| - 1;
      assert HoldsAt(output, own, values, n);
      var copy := CloneOutputItem(output[n]);
      out := [ItemAdded(n, copy)];
      Record(out[0], ItemAdded(n, copy.Value()), Both(copy));
    }

    /** Pushes a new item and logs its announcement. */
    method PushItem(id: string, kind: Kind, ghost owner: Owner) returns (out: seq<Emission>)
      requires Valid()
      modifies this`output, this`own, this`values, this`owners, this`log, this`trace, this`handed
      ensures Valid() && Returned(out) && |output| == |old(output)| + 1
      ensures values == old(values) + [NewItem(id, kind)] && owners == old(owners) + [owner]
      ensures trace == old(trace) + [ItemAdded(|old(output)|, NewItem(id, kind))]
    {
      AppendItem(id, kind, owner);
      assert Grown();
      out := AnnounceItem();
    }

    /** item.content.push(part) */
    method PushPart(i: nat, part: string)
      requires Valid() && i < |output| && values[i].Message?
      modifies output[i].content, this`values
      ensures Valid() && values == old(values)[i := old(values)[i].(content := old(values)[i].content + [part])]
    {
      assert HoldsAt(output, own, values, i);
      values := values[i := values[i].(content := values[i].content + [part])];
      output[i].content.Push(part);
      forall j: nat | j < |output| ensures HoldsAt(output, own, values, j) {
        assert old(HoldsAt(output, own, values, j));
        assert (j < i ==> Different(output, j, i)) && (i < j ==> Different(output, i, j));
      }
    }

    /** Writes the only part of a message, pushing it if there is none. */
    method WritePart(i: nat, text: string)
      requires Valid() && i < |output| && values[i].Message?
      modifies output[i].content, this`values
      ensures Valid() && values == old(values)[i := WithPart(old(values)[i], text)]
    {
      assert HoldsAt(output, own, values, i);
      values := values[i := WithPart(values[i], text)];
      if |output[i].content.parts| == 0 {
        output[i].content.Push(text);
      } else {
        output[i].content.SetFirst(text);
      }
      forall j: nat | j < |output| ensures HoldsAt(output, own, values, j) {
        assert old(HoldsAt(output, own, values, j));
        assert (j < i ==> Different(output, j, i)) && (i < j ==> Different(output, i, j));
      }
    }

    /** item.arguments = args */
    method SetArguments(i: nat, args: string)
      requires Valid() && i < |output| && values[i].FunctionCall?
      modifies output[i], this`values
      ensures Valid() && values == old(values)[i := old(values)[i].(arguments := args)]
    {
      assert HoldsAt(output, own, values, i);
      values := values[i := values[i].(arguments := args)];
      output[i].arguments := args;
      forall j: nat | j < |output| ensures HoldsAt(output, own, values, j) {
        assert old(HoldsAt(output, own, values, j));
        assert (j < i ==> Different(output, j, i)) && (i < j ==> Different(output, i, j));
      }
    }

    /** Sets the arguments of the item if it is a call. */
    method WriteArguments(i: nat, args: string)
      requires Valid()
      modifies own.items, this`values
      ensures Valid()
      ensures values == if IsCallAt(old(values), i) then old(values)[i := old(values)[i].(arguments := args)]
                        else old(values)
    {
      assert i < |output| ==> HoldsAt(output, own, values, i);
      if i < |output| && output[i].kind.CallKind? {
        SetArguments(i, args);
      }
    }

    /** item.status = 'completed' */
    method SetCompleted(i: nat)
      requires Valid() && i < |output|
      modifies output[i], this`values
      ensures Valid() && values == old(values)[i := CompletedItem(old(values)[i])]
    {
      assert HoldsAt(output, own, values, i);
      values := values[i := CompletedItem(values[i])];
      output[i].status := Completed;
      forall j: nat | j < |output| ensures HoldsAt(output, own, values, j) {
        assert old(HoldsAt(output, own, values, j));
        assert (j < i ==> Different(output, j, i)) && (i < j ==> Different(output, i, j));
      }
    }

    /** Completes an item and announces it with a clone. */
    method CompleteItem(i: nat) returns (out: seq<Emission>)
      requires Valid() && i < |output|
      modifies output[i], this`values, this`log, this`trace, this`handed
      ensures Valid() && Returned(out)
      ensures var value := CompletedItem(old(values)[i]);
              values == old(values)[i := value] && trace == old(trace) + [ItemDone(i, value)]
    {
      SetCompleted(i);
      assert HoldsAt(output, own, values, i);
      var copy := CloneOutputItem(output[i]);
      out := [ItemDone(i, copy)];
      Record(out[0], ItemDone(i, copy.Value()), Both(copy));
    }

    /** Completes the stream's message with its final text and announces it. */
    method CompleteMessage(streamId: string, st: TextItem) returns (out: seq<Emission>)
      requires Valid() && st.outputIndex < |output| && IsMessageAt(values, st.outputIndex)
      modifies this, output[st.outputIndex], output[st.outputIndex].content
      ensures Valid() && Returned(out)
      ensures var item := CompletedItem(WithPart(old(values)[st.outputIndex], st.text));
              View() == Spec.PutText(old(View()), streamId, st, item, ItemDone(st.outputIndex, item))
    {
      textItems := textItems[streamId := st];
      WritePart(st.outputIndex, st.text);
      out := CompleteItem(st.outputIndex);
    }

    /** Writes the stream's text into its message and logs an event without a clone. */
    method PutPart(streamId: string, st: TextItem, e: Emission, ghost event: Event<Item>)
      requires Valid() && st.outputIndex < |output| && IsMessageAt(values, st.outputIndex)
      requires !e.ItemAdded? && !e.ItemDone? && Shows(e, event)
      modifies output[st.outputIndex].content, this`textItems, this`values, this`log, this`trace
      ensures Valid() && log == old(log) + [e]
      ensures View() == Spec.PutPart(old(View()), streamId, st, event)
    {
      textItems := textItems[streamId := st];
      WritePart(st.outputIndex, st.text);
      RecordPlain(e, event);
    }

    /** Pushes the empty part of the stream's message and announces it. */
    method StartPart(streamId: string, st: TextItem) returns (out: seq<Emission>)
      requires Valid() && st.outputIndex < |output| && IsMessageAt(values, st.outputIndex)
      modifies output[st.outputIndex].content, this`textItems, this`values, this`log, this`trace
      ensures Valid() && log == old(log) + out
      ensures var i, message := st.outputIndex, old(values)[st.outputIndex];
              View() == Spec.PutText(old(View()), streamId, st, message.(content := message.content + [""]),
                                     PartAdded(i, st.itemId, st.contentIndex, ""))
    {
      textItems := textItems[streamId := st];
      PushPart(st.outputIndex, "");
      out := [PartAdded(st.outputIndex, st.itemId, st.contentIndex, "")];
      RecordPlain(out[0], PartAdded(st.outputIndex, st.itemId, st.contentIndex, ""));
    }

    method EnsureMessage(streamId: string, role: string, itemId: Option<string>, generated: string)
      returns (out: seq<Emission>)
      requires Valid()
      modifies this
      ensures Valid() && Returned(out)
      ensures View() == Spec.EnsureMessage(old(View()), streamId, role, TextOr(itemId, generated))
    {
      if streamId in textItems {
        return [];
      }
      var outputIndex := |output|;
      var id := TextOr(itemId, generated);
      out := PushItem(id, MessageKind(role), Stream(streamId));
      textItems := textItems[streamId := TextItem(outputIndex, id, 0, "", false, false, false, false)];
    }

    method EnsureTextPart(streamId: string, generated: string) returns (out: seq<Emission>)
      requires Valid()
      modifies this, own.items, own.arrays
      ensures Valid() && Returned(out)
      ensures View() == Spec.EnsureTextPart(old(View()), streamId, generated)
    {
      out := [];
      if streamId !in textItems {
        out := EnsureMessage(streamId, "assistant", None, generated);
      }
      var st := textItems[streamId];
      if st.outputItemDone || st.contentStarted {
        return;
      }
      st := st.(contentStarted := true);
      var i := st.outputIndex;
      assert i < |output| ==> HoldsAt(output, own, values, i);
      if i >= |output| || !output[i].kind.MessageKind? {
        textItems := textItems[streamId := st];
        return;
      }
      var part := StartPart(streamId, st);
      Regroup(old(log), out, part);
      out := out + part;
    }

    method AppendTextDelta(streamId: string, delta: string, generated: string) returns (out: seq<Emission>)
      requires Valid()
      modifies this, own.items, own.arrays
      ensures Valid() && Returned(out)
      ensures View() == Spec.AppendTextDelta(old(View()), streamId, delta, generated)
    {
      out := EnsureTextPart(streamId, generated);
      var st, i := textItems[streamId], textItems[streamId].outputIndex;
      if st.outputItemDone {
        return;
      }
      textItems := textItems[streamId := st.(text := st.text + delta)];
      var e := TextDelta(i, st.itemId, st.contentIndex, delta);
      RecordPlain(e, TextDelta(i, st.itemId, st.contentIndex, delta));
      Regroup(old(log), out, [e]);
      out := out + [e];
    }

    method DoneOutputText(streamId: string, text: Option<string>, generated: string) returns (out: seq<Emission>)
      requires Valid()
      modifies this, own.items, own.arrays
      ensures Valid() && Returned(out)
      ensures View() == Spec.DoneOutputText(old(View()), streamId, text, generated)
    {
      out := EnsureTextPart(streamId, generated);
      var st, i := textItems[streamId], textItems[streamId].outputIndex;
      if st.outputItemDone {
        return;
      }
      if st.outputTextDone {
        return;
      }
      if text.Some? {
        st := st.(text := text.value);
      }
      assert i < |output| ==> HoldsAt(output, own, values, i);
      if i >= |output| || !output[i].kind.MessageKind? {
        textItems := textItems[streamId := st];
        return;
      }
      var e := TextDone(i, st.itemId, st.contentIndex, st.text);
      PutPart(streamId, st.(outputTextDone := true), e, TextDone(i, st.itemId, st.contentIndex, st.text));
      Regroup(old(log), out, [e]);
      out := out + [e];
    }

    method DoneContentPart(streamId: string, generated: string) returns (out: seq<Emission>)
      requires Valid()
      modifies this, own.items, own.arrays
      ensures Valid() && Returned(out)
      ensures View() == Spec.DoneContentPart(old(View()), streamId, generated)
    {
      out := EnsureTextPart(streamId, generated);
      var st, i := textItems[streamId], textItems[streamId].outputIndex;
      if st.outputItemDone {
        return;
      }
      if st.contentPartDone {
        return;
      }
      assert i < |output| ==> HoldsAt(output, own, values, i);
      if i >= |output| || !output[i].kind.MessageKind? {
        return;
      }
      var e := PartDone(i, st.itemId, st.contentIndex, st.text);
      PutPart(streamId, st.(contentPartDone := true), e, PartDone(i, st.itemId, st.contentIndex, st.text));
      Regroup(old(log), out, [e]);
      out := out + [e];
    }

    method DoneMessageItem(streamId: string, generated: string) returns (out: seq<Emission>)
      requires Valid()
      modifies this, own.items, own.arrays
      ensures Valid() && Returned(out)
      ensures View() == Spec.DoneMessageItem(old(View()), streamId, generated)
    {
      out := EnsureTextPart(streamId, generated);
      var st, i := textItems[streamId], textItems[streamId].outputIndex;
      if st.outputItemDone {
        return;
      }
      assert i < |output| ==> HoldsAt(output, own, values, i);
      if i >= |output| || !output[i].kind.MessageKind? {
        return;
      }
      var done := CompleteMessage(streamId, st.(outputItemDone := true));
      Regroup(old(log), out, done);
      out := out + done;
    }

    /** The first two calls of FinishText. */
    method FinishPart(streamId: string, text: Option<string>, generated: string) returns (out: seq<Emission>)
      requires Valid()
      modifies this, own.items, own.arrays
      ensures Valid() && Returned(out)
      ensures View() == Spec.DoneContentPart(Spec.DoneOutputText(old(View()), streamId, text, generated),
                                     streamId, generated)
    {
      out := DoneOutputText(streamId, text, generated);
      assert Returned(out);
      var part := DoneContentPart(streamId, generated);
      Regroup(old(log), out, part);
      out := out + part;
    }

    method FinishText(streamId: string, text: Option<string>, generated: string) returns (out: seq<Emission>)
      requires Valid()
      modifies this, own.items, own.arrays
      ensures Valid() && Returned(out)
      ensures View() == Spec.FinishText(old(View()), streamId, text, generated)
    {
      out := FinishPart(streamId, text, generated);
      assert Returned(out);
      var item := DoneMessageItem(streamId, generated);
      Regroup(old(log), out, item);
      out := out + item;
    }

    method StartFunctionCall(callId: string, toolName: string, itemId: Option<string>, generated: string)
      returns (out: seq<Emission>)
      requires Valid()
      modifies this
      ensures Valid() && Returned(out)
      ensures View() == Spec.StartFunctionCall(old(View()), callId, toolName, TextOr(itemId, generated))
    {
      if callId in functionCalls {
        return [];
      }
      var outputIndex := |output|;
      var id := TextOr(itemId, generated);
      out := PushItem(id, CallKind(callId, toolName), CallOf(callId));
      functionCalls := functionCalls[callId := Call(outputIndex, id, toolName, "", false)];
    }

    method AppendFunctionCallArgs(callId: string, delta: string) returns (out: seq<Emission>)
      requires Valid()
      modifies this
      ensures Valid() && Returned(out)
      ensures View() == Spec.AppendFunctionCallArgs(old(View()), callId, delta)
    {
      if callId !in functionCalls || functionCalls[callId].done {
        return [];
      }
      var st := functionCalls[callId];
      functionCalls := functionCalls[callId := st.(args := st.args + delta)];
      out := [ArgsDelta(st.outputIndex, st.itemId, delta)];
      RecordPlain(out[0], ArgsDelta(st.outputIndex, st.itemId, delta));
    }

    method FinishFunctionCallArgs(callId: string, args: string, toolName: Option<string>) returns (out: seq<Emission>)
      requires Valid()
      modifies this, own.items, own.arrays
      ensures Valid() && Returned(out)
      ensures View() == Spec.FinishFunctionCallArgs(old(View()), callId, args, toolName)
    {
      if callId !in functionCalls || functionCalls[callId].done {
        return [];
      }
      var st := functionCalls[callId].(args := args);
      functionCalls := functionCalls[callId := st];
      var i, name := st.outputIndex, TextOr(toolName, st.name);
      out := [ArgsDone(i, st.itemId, name, args)];
      WriteArguments(i, args);
      RecordPlain(out[0], ArgsDone(i, st.itemId, name, args));
    }

    method FinishFunctionCall(callId: string, args: string) returns (out: seq<Emission>)
      requires Valid()
      modifies this, own.items, own.arrays
      ensures Valid() && Returned(out)
      ensures View() == Spec.FinishFunctionCall(old(View()), callId, args)
    {
      if callId !in functionCalls || functionCalls[callId].done {
        return [];
      }
      var st := functionCalls[callId].(done := true, args := args);
      functionCalls := functionCalls[callId := st];
      var i := st.outputIndex;
      assert i < |output| ==> HoldsAt(output, own, values, i);
      if i >= |output| || !output[i].kind.CallKind? {
        return [];
      }
      SetArguments(i, args);
      out := CompleteItem(i);
    }

    /** Adds the texts of a message that are not empty. */
    static method AddTexts(content: seq<string>, parts0: seq<string>) returns (parts: seq<string>)
      ensures Joined(parts) == Joined(parts0) + Joined(content)
    {
      parts := parts0;
      for k := 0 to |content|
        invariant Joined(parts) == Joined(parts0) + Joined(content[..k])
      {
        JoinedSnoc(content[..k], content[k]);
        assert content[..k + 1] == content[..k] + [content[k]];
        if content[k] != "" {
          JoinedSnoc(parts, content[k]);
          parts := parts + [content[k]];
        }
      }
      assert content[..|content|] == content;
    }

    /** All text of all messages, in output order. */
    method CollectOutputText() returns (text: string)
      requires Valid()
      ensures text == OutputText(View().output)
    {
      var parts := [];
      for n := 0 to |output|
        invariant Joined(parts) == OutputText(values[..n])
      {
        assert HoldsAt(output, own, values, n);
        assert values[..n + 1][..n] == values[..n];
        if output[n].kind.MessageKind? {
          parts := AddTexts(output[n].content.parts, parts);
        }
      }
      assert values[..|values|] == values;
      text := Joined(parts);
    }
  }
}
