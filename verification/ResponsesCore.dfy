/**
 What every call on the responses state does, as a function on values, and the proof that a
 client which sees only the events rebuilds the state (openai-responses-state.ts).
 */
module ResponsesCore {
  import opened Options
  import opened ResponsesTrace

  datatype TextItem = TextItem(outputIndex: nat, itemId: string, contentIndex: nat, text: string,
                               contentStarted: bool, outputTextDone: bool,
                               contentPartDone: bool, outputItemDone: bool)

  datatype Call = Call(outputIndex: nat, itemId: string, name: string, args: string, done: bool)

  /** Which text stream or function call opened an output index. */
  datatype Owner = Stream(streamId: string) | CallOf(callId: string)

  /** The output array, its index owners, the two index maps, and all events emitted so far. */
  datatype Core = Core(output: seq<Item>, owners: seq<Owner>, texts: map<string, TextItem>,
                       calls: map<string, Call>, trace: seq<Event<Item>>)

  const EMPTY := Core([], [], map[], map[], [])

  predicate IsMessageAt(output: seq<Item>, i: nat) {
    i < |output| && output[i].Message?
  }

  predicate IsCallAt(output: seq<Item>, i: nat) {
    i < |output| && output[i].FunctionCall?
  }

  function EnsureMessage(c: Core, s: string, role: string, id: string): Core {
    if s in c.texts then c
    else
      var n, message := |c.output|, Message(id, role, InProgress, []);
      Core(c.output + [message], c.owners + [Stream(s)],
           c.texts[s := TextItem(n, id, 0, "", false, false, false, false)], c.calls,
           c.trace + [ItemAdded(n, message)])
  }

  /** The text part being written back into a message: pushed if there is none, else replaced. */
  function WithPart(item: Item, text: string): Item
    requires item.Message?
  {
    if item.content == [] then item.(content := [text]) else item.(content := item.content[0 := text])
  }

  /** Writes back the state of stream `s` and its message, and emits one event. */
  function PutText(c: Core, s: string, st: TextItem, item: Item, e: Event<Item>): Core
    requires st.outputIndex < |c.output|
  {
    c.(output := c.output[st.outputIndex := item], texts := c.texts[s := st], trace := c.trace + [e])
  }

  /** The same, with the stream's text as the message's part. */
  function PutPart(c: Core, s: string, st: TextItem, e: Event<Item>): Core
    requires IsMessageAt(c.output, st.outputIndex)
  {
    PutText(c, s, st, WithPart(c.output[st.outputIndex], st.text), e)
  }

  function EnsureTextPart(c: Core, s: string, id: string): (r: Core)
    ensures r.texts.Keys == c.texts.Keys + {s}
    ensures r.texts[s].outputItemDone || r.texts[s].contentStarted
  {
    var c := EnsureMessage(c, s, "assistant", id);
    var st := c.texts[s];
    if st.outputItemDone || st.contentStarted then c
    else
      var st, i := st.(contentStarted := true), st.outputIndex;
      if !IsMessageAt(c.output, i) then c.(texts := c.texts[s := st])
      else
        PutText(c, s, st, c.output[i].(content := c.output[i].content + [""]),
                PartAdded(i, st.itemId, st.contentIndex, ""))
  }

  function AppendTextDelta(c: Core, s: string, delta: string, id: string): Core {
    var c := EnsureTextPart(c, s, id);
    var st := c.texts[s];
    if st.outputItemDone then c
    else
      c.(texts := c.texts[s := st.(text := st.text + delta)],
         trace := c.trace + [TextDelta(st.outputIndex, st.itemId, st.contentIndex, delta)])
  }

  function DoneOutputText(c: Core, s: string, text: Option<string>, id: string): Core {
    var c := EnsureTextPart(c, s, id);
    var st, i := c.texts[s], c.texts[s].outputIndex;
    if st.outputItemDone || st.outputTextDone then c
    else
      var st := st.(text := TextOr(text, st.text));
      if !IsMessageAt(c.output, i) then c.(texts := c.texts[s := st])
      else PutPart(c, s, st.(outputTextDone := true), TextDone(i, st.itemId, st.contentIndex, st.text))
  }

  function DoneContentPart(c: Core, s: string, id: string): Core {
    var c := EnsureTextPart(c, s, id);
    var st, i := c.texts[s], c.texts[s].outputIndex;
    if st.outputItemDone || st.contentPartDone || !IsMessageAt(c.output, i) then c
    else
      PutPart(c, s, st.(contentPartDone := true), PartDone(i, st.itemId, st.contentIndex, st.text))
  }

  function DoneMessageItem(c: Core, s: string, id: string): Core {
    var c := EnsureTextPart(c, s, id);
    var st, i := c.texts[s], c.texts[s].outputIndex;
    if st.outputItemDone || !IsMessageAt(c.output, i) then c
    else
      var item := CompletedItem(WithPart(c.output[i], st.text));
      PutText(c, s, st.(outputItemDone := true), item, ItemDone(i, item))
  }

  function CompletedItem(item: Item): Item {
    match item
    case Message(id, role, _, content) => Message(id, role, Completed, content)
    case FunctionCall(id, callId, name, arguments, _) => FunctionCall(id, callId, name, arguments, Completed)
  }

  function FinishText(c: Core, s: string, text: Option<string>, id: string): Core {
    DoneMessageItem(DoneContentPart(DoneOutputText(c, s, text, id), s, id), s, id)
  }

  function StartFunctionCall(c: Core, callId: string, name: string, id: string): Core {
    if callId in c.calls then c
    else
      var n, item := |c.output|, FunctionCall(id, callId, name, "", InProgress);
      Core(c.output + [item], c.owners + [CallOf(callId)], c.texts,
           c.calls[callId := Call(n, id, name, "", false)], c.trace + [ItemAdded(n, item)])
  }

  function AppendFunctionCallArgs(c: Core, callId: string, delta: string): Core {
    if callId !in c.calls || c.calls[callId].done then c
    else
      var st := c.calls[callId];
      c.(calls := c.calls[callId := st.(args := st.args + delta)],
         trace := c.trace + [ArgsDelta(st.outputIndex, st.itemId, delta)])
  }

  function FinishFunctionCallArgs(c: Core, callId: string, args: string, name: Option<string>): Core {
    if callId !in c.calls || c.calls[callId].done then c
    else
      var st, i := c.calls[callId].(args := args), c.calls[callId].outputIndex;
      c.(output := if IsCallAt(c.output, i) then c.output[i := c.output[i].(arguments := args)] else c.output,
         calls := c.calls[callId := st],
         trace := c.trace + [ArgsDone(i, st.itemId, TextOr(name, st.name), args)])
  }

  function FinishFunctionCall(c: Core, callId: string, args: string): Core {
    if callId !in c.calls || c.calls[callId].done then c
    else
      var st, i := c.calls[callId].(args := args, done := true), c.calls[callId].outputIndex;
      if !IsCallAt(c.output, i) then c.(calls := c.calls[callId := st])
      else
        var item := CompletedItem(c.output[i].(arguments := args));
        c.(output := c.output[i := item], calls := c.calls[callId := st],
           trace := c.trace + [ItemDone(i, item)])
  }

  // ---------------------------------------------------------------- server state = decoded trace

  /** What the `output` array holds for a slot: only `*.done` calls refresh its text. */
  function Stored(slot: Slot): Item {
    if slot.item.Message? && slot.item.content == [] then slot.item
    else WithText(slot.item, slot.stored)
  }

  function TextItemOf(i: nat, slot: Slot): TextItem
    requires slot.item.Message?
  {
    TextItem(i, slot.item.id, 0, TextOf(slot.item), slot.item.content != [], slot.textDone,
             slot.partDone, slot.item.status.Completed?)
  }

  function CallStateOf(i: nat, slot: Slot): Call
    requires slot.item.FunctionCall?
  {
    Call(i, slot.item.id, slot.item.name, slot.item.arguments, slot.item.status.Completed?)
  }

  /** Index `i` belongs to exactly one stream or call, whose state is what the client sees there. */
  predicate Owns(owner: Owner, i: nat, slot: Slot, texts: map<string, TextItem>, calls: map<string, Call>) {
    match owner
    case Stream(s) =>
      slot.item.Message? && s in texts && texts[s] == TextItemOf(i, slot)
    case CallOf(c) =>
      slot.item.FunctionCall? && slot.item.callId == c && c in calls && calls[c] == CallStateOf(i, slot)
  }

  predicate TextOwned(owners: seq<Owner>, texts: map<string, TextItem>, s: string) {
    s in texts ==> texts[s].outputIndex < |owners| && owners[texts[s].outputIndex] == Stream(s)
  }

  predicate CallOwned(owners: seq<Owner>, calls: map<string, Call>, c: string) {
    c in calls ==> calls[c].outputIndex < |owners| && owners[calls[c].outputIndex] == CallOf(c)
  }

  predicate Mirrors(view: seq<Slot>, output: seq<Item>, owners: seq<Owner>,
                    texts: map<string, TextItem>, calls: map<string, Call>, i: nat)
    requires i < |view| && i < |output| && i < |owners|
  {
    output[i] == Stored(view[i]) && Owns(owners[i], i, view[i], texts, calls)
  }

  /** The replay refinement: output array and both index maps are the decoded client view. */
  ghost predicate Tracks(view: seq<Slot>, owners: seq<Owner>, output: seq<Item>,
                         texts: map<string, TextItem>, calls: map<string, Call>)
  {
    && |owners| == |view| == |output| == |texts| + |calls|
    && (forall i: nat | i < |view| :: Mirrors(view, output, owners, texts, calls, i))
    && (forall s :: TextOwned(owners, texts, s))
    && (forall c :: CallOwned(owners, calls, c))
  }

  /** Opening a new index for a text stream keeps the refinement. */
  lemma TracksOpenText(view: seq<Slot>, owners: seq<Owner>, output: seq<Item>,
                       texts: map<string, TextItem>, calls: map<string, Call>, x: string, item: Item)
    requires Tracks(view, owners, output, texts, calls)
    requires x !in texts && item.Message? && Blank(item)
    ensures Tracks(view + [NewSlot(item)], owners + [Stream(x)], output + [item],
                   texts[x := TextItemOf(|view|, NewSlot(item))],
                   calls)
  {
    var view', owners', output' := view + [NewSlot(item)], owners + [Stream(x)], output + [item];
    var texts' := texts[x := TextItemOf(|view|, NewSlot(item))];
    forall i: nat | i < |view'| ensures Mirrors(view', output', owners', texts', calls, i) {
      if i < |view| {
        assert Mirrors(view, output, owners, texts, calls, i);
      }
    }
    forall s ensures TextOwned(owners', texts', s) {
      assert TextOwned(owners, texts, s);
    }
    forall c ensures CallOwned(owners', calls, c) {
      assert CallOwned(owners, calls, c);
    }
  }

  /** Opening a new index for a function call keeps the refinement. */
  lemma TracksOpenCall(view: seq<Slot>, owners: seq<Owner>, output: seq<Item>,
                       texts: map<string, TextItem>, calls: map<string, Call>, x: string, item: Item)
    requires Tracks(view, owners, output, texts, calls)
    requires x !in calls && item.FunctionCall? && Blank(item) && item.callId == x
    ensures Tracks(view + [NewSlot(item)], owners + [CallOf(x)], output + [item],
                   texts,
                   calls[x := CallStateOf(|view|, NewSlot(item))])
  {
    var view', owners', output' := view + [NewSlot(item)], owners + [CallOf(x)], output + [item];
    var calls' := calls[x := CallStateOf(|view|, NewSlot(item))];
    forall i: nat | i < |view'| ensures Mirrors(view', output', owners', texts, calls', i) {
      if i < |view| {
        assert Mirrors(view, output, owners, texts, calls, i);
      }
    }
    forall s ensures TextOwned(owners', texts, s) {
      assert TextOwned(owners, texts, s);
    }
    forall c ensures CallOwned(owners', calls', c) {
      assert CallOwned(owners, calls, c);
    }
  }

  /** Updating an index together with its owner's state keeps the refinement. */
  lemma TracksText(view: seq<Slot>, owners: seq<Owner>, output: seq<Item>,
                   texts: map<string, TextItem>, calls: map<string, Call>, x: string, slot: Slot)
    requires Tracks(view, owners, output, texts, calls)
    requires x in texts && slot.item.Message?
    ensures texts[x].outputIndex < |view|
    ensures var i := texts[x].outputIndex;
            Tracks(view[i := slot], owners, output[i := Stored(slot)],
                   texts[x := TextItemOf(i, slot)], calls)
  {
    assert TextOwned(owners, texts, x);
    var i := texts[x].outputIndex;
    var view', output', texts' := view[i := slot], output[i := Stored(slot)], texts[x := TextItemOf(i, slot)];
    forall j: nat | j < |view'| ensures Mirrors(view', output', owners, texts', calls, j) {
      assert Mirrors(view, output, owners, texts, calls, j);
    }
    forall s ensures TextOwned(owners, texts', s) {
      assert TextOwned(owners, texts, s);
    }
    forall c ensures CallOwned(owners, calls, c) {
      assert CallOwned(owners, calls, c);
    }
  }

  /** Updating an index together with its owner's state keeps the refinement. */
  lemma TracksCall(view: seq<Slot>, owners: seq<Owner>, output: seq<Item>,
                   texts: map<string, TextItem>, calls: map<string, Call>, x: string, slot: Slot)
    requires Tracks(view, owners, output, texts, calls)
    requires x in calls && slot.item.FunctionCall? && slot.item.callId == x
    ensures calls[x].outputIndex < |view|
    ensures var i := calls[x].outputIndex;
            Tracks(view[i := slot], owners, output[i := Stored(slot)],
                   texts, calls[x := CallStateOf(i, slot)])
  {
    assert CallOwned(owners, calls, x);
    var i := calls[x].outputIndex;
    var view', output', calls' := view[i := slot], output[i := Stored(slot)], calls[x := CallStateOf(i, slot)];
    forall j: nat | j < |view'| ensures Mirrors(view', output', owners, texts, calls', j) {
      assert Mirrors(view, output, owners, texts, calls, j);
    }
    forall s ensures TextOwned(owners, texts, s) {
      assert TextOwned(owners, texts, s);
    }
    forall c ensures CallOwned(owners, calls', c) {
      assert CallOwned(owners, calls, c);
    }
  }

  /** The state invariant of every run. */
  ghost predicate Sound(c: Core) {
    Accepted(c.trace) && Tracks(Replay(c.trace).value, c.owners, c.output, c.texts, c.calls)
  }

  // ---------------------------------------------------------------- every call keeps it

  /** What a known stream looks like; in particular its output item is a message. */
  lemma TextSlot(c: Core, s: string)
    requires Sound(c) && s in c.texts
    ensures var view, i := Replay(c.trace).value, c.texts[s].outputIndex;
      && i < |view| == |c.output| == |c.owners| && c.owners[i] == Stream(s)
      && view[i].item.Message? && |view[i].item.content| <= 1
      && c.texts[s] == TextItemOf(i, view[i]) && c.output[i] == Stored(view[i])
      && (forall text :: WithPart(c.output[i], text) == c.output[i].(content := [text]))
  {
    var view, i := Replay(c.trace).value, c.texts[s].outputIndex;
    assert TextOwned(c.owners, c.texts, s);
    assert Mirrors(view, c.output, c.owners, c.texts, c.calls, i);
    FlagsAreCounts(c.trace, i);
  }

  /** What a known call looks like; in particular its output item is a function call. */
  lemma CallSlot(c: Core, callId: string)
    requires Sound(c) && callId in c.calls
    ensures var view, i := Replay(c.trace).value, c.calls[callId].outputIndex;
      && i < |view| == |c.output| == |c.owners| && c.owners[i] == CallOf(callId)
      && view[i].item.FunctionCall? && view[i].item.callId == callId
      && c.calls[callId] == CallStateOf(i, view[i]) && c.output[i] == Stored(view[i])
  {
    var view, i := Replay(c.trace).value, c.calls[callId].outputIndex;
    assert CallOwned(c.owners, c.calls, callId);
    assert Mirrors(view, c.output, c.owners, c.texts, c.calls, i);
  }

  /** One protocol step on an open message, with the stream state and item it decodes to. */
  lemma SoundText(c: Core, s: string, st: TextItem, item: Item, e: Event<Item>)
    requires Sound(c) && s in c.texts && e.index == c.texts[s].outputIndex == st.outputIndex
    requires e.index < |c.output| && e.index < |Replay(c.trace).value| && !e.ItemAdded?
    requires var slot := Replay(c.trace).value[e.index];
      && slot.item.status.InProgress?
      && Evolve(slot, e).Some? && Evolve(slot, e).value.item.Message?
      && st == TextItemOf(e.index, Evolve(slot, e).value) && item == Stored(Evolve(slot, e).value)
    ensures Sound(PutText(c, s, st, item, e))
  {
    var view := Replay(c.trace).value;
    ReplaySnoc(c.trace, e);
    TracksText(view, c.owners, c.output, c.texts, c.calls, s, Evolve(view[e.index], e).value);
  }

  lemma SoundCall(c: Core, callId: string, st: Call, item: Item, e: Event<Item>)
    requires Sound(c) && callId in c.calls && e.index == c.calls[callId].outputIndex == st.outputIndex
    requires e.index < |c.output| && e.index < |Replay(c.trace).value| && !e.ItemAdded?
    requires var slot := Replay(c.trace).value[e.index];
      && slot.item.status.InProgress?
      && Evolve(slot, e).Some? && Evolve(slot, e).value.item.FunctionCall?
      && Evolve(slot, e).value.item.callId == callId
      && st == CallStateOf(e.index, Evolve(slot, e).value) && item == Stored(Evolve(slot, e).value)
    ensures Sound(c.(output := c.output[e.index := item], calls := c.calls[callId := st], trace := c.trace + [e]))
  {
    var view := Replay(c.trace).value;
    ReplaySnoc(c.trace, e);
    TracksCall(view, c.owners, c.output, c.texts, c.calls, callId, Evolve(view[e.index], e).value);
  }

  lemma SoundEnsureMessage(c: Core, s: string, role: string, id: string)
    requires Sound(c)
    ensures Sound(EnsureMessage(c, s, role, id))
  {
    if s !in c.texts {
      var item := Message(id, role, InProgress, []);
      ReplaySnoc(c.trace, ItemAdded(|c.output|, item));
      TracksOpenText(Replay(c.trace).value, c.owners, c.output, c.texts, c.calls, s, item);
    }
  }

  lemma SoundStartFunctionCall(c: Core, callId: string, name: string, id: string)
    requires Sound(c)
    ensures Sound(StartFunctionCall(c, callId, name, id))
  {
    if callId !in c.calls {
      var item := FunctionCall(id, callId, name, "", InProgress);
      ReplaySnoc(c.trace, ItemAdded(|c.output|, item));
      TracksOpenCall(Replay(c.trace).value, c.owners, c.output, c.texts, c.calls, callId, item);
    }
  }

  lemma SoundEnsureTextPart(c: Core, s: string, id: string)
    requires Sound(c)
    ensures Sound(EnsureTextPart(c, s, id))
  {
    SoundEnsureMessage(c, s, "assistant", id);
    var c := EnsureMessage(c, s, "assistant", id);
    TextSlot(c, s);
    var st, i := c.texts[s], c.texts[s].outputIndex;
    if !st.outputItemDone && !st.contentStarted {
      assert c.output[i].content + [""] == [""];
      SoundText(c, s, st.(contentStarted := true), c.output[i].(content := [""]),
                PartAdded(i, st.itemId, st.contentIndex, ""));
    }
  }

  lemma SoundAppendTextDelta(c: Core, s: string, delta: string, id: string)
    requires Sound(c)
    ensures Sound(AppendTextDelta(c, s, delta, id))
  {
    SoundEnsureTextPart(c, s, id);
    var c := EnsureTextPart(c, s, id);
    TextSlot(c, s);
    var st, i := c.texts[s], c.texts[s].outputIndex;
    if !st.outputItemDone {
      SoundText(c, s, st.(text := st.text + delta), c.output[i], TextDelta(i, st.itemId, st.contentIndex, delta));
      assert c.output[i := c.output[i]] == c.output;
    }
  }

  /** Writes the final text into an open message and reports it. */
  lemma SoundReportText(c: Core, s: string, text: string)
    requires Sound(c) && s in c.texts && !c.texts[s].outputItemDone && !c.texts[s].outputTextDone
    requires c.texts[s].contentStarted
    ensures var st := c.texts[s].(text := text, outputTextDone := true);
      IsMessageAt(c.output, st.outputIndex)
      && Sound(PutPart(c, s, st, TextDone(st.outputIndex, st.itemId, st.contentIndex, text)))
  {
    TextSlot(c, s);
    var st, i := c.texts[s].(text := text, outputTextDone := true), c.texts[s].outputIndex;
    SoundText(c, s, st, c.output[i].(content := [text]), TextDone(i, st.itemId, st.contentIndex, text));
  }

  /** Writes the current text into an open message and reports its part. */
  lemma SoundReportPart(c: Core, s: string)
    requires Sound(c) && s in c.texts && !c.texts[s].outputItemDone && !c.texts[s].contentPartDone
    requires c.texts[s].contentStarted
    ensures var st := c.texts[s].(contentPartDone := true);
      IsMessageAt(c.output, st.outputIndex)
      && Sound(PutPart(c, s, st, PartDone(st.outputIndex, st.itemId, st.contentIndex, st.text)))
  {
    TextSlot(c, s);
    var st, i := c.texts[s].(contentPartDone := true), c.texts[s].outputIndex;
    SoundText(c, s, st, c.output[i].(content := [st.text]), PartDone(i, st.itemId, st.contentIndex, st.text));
  }

  lemma SoundDoneOutputText(c: Core, s: string, text: Option<string>, id: string)
    requires Sound(c)
    ensures Sound(DoneOutputText(c, s, text, id))
  {
    SoundEnsureTextPart(c, s, id);
    var c := EnsureTextPart(c, s, id);
    var st := c.texts[s];
    if !st.outputItemDone && !st.outputTextDone {
      SoundReportText(c, s, TextOr(text, st.text));
    }
  }

  lemma SoundDoneContentPart(c: Core, s: string, id: string)
    requires Sound(c)
    ensures Sound(DoneContentPart(c, s, id))
  {
    SoundEnsureTextPart(c, s, id);
    var c := EnsureTextPart(c, s, id);
    if !c.texts[s].outputItemDone && !c.texts[s].contentPartDone {
      SoundReportPart(c, s);
    }
  }

  /** After this call the message is completed and the array holds the client's copy of it. */
  lemma SoundCompleteItem(c: Core, s: string)
    requires Sound(c) && s in c.texts && !c.texts[s].outputItemDone && c.texts[s].contentStarted
    ensures var st, i := c.texts[s], c.texts[s].outputIndex;
      && IsMessageAt(c.output, i)
      && var item := CompletedItem(WithPart(c.output[i], st.text));
         Sound(PutText(c, s, st.(outputItemDone := true), item, ItemDone(i, item)))
  {
    TextSlot(c, s);
    var st, i := c.texts[s], c.texts[s].outputIndex;
    var item := CompletedItem(WithPart(c.output[i], st.text));
    SoundText(c, s, st.(outputItemDone := true), item, ItemDone(i, item));
  }

  lemma SoundDoneMessageItem(c: Core, s: string, id: string)
    requires Sound(c)
    ensures var r := DoneMessageItem(c, s, id);
      && Sound(r) && s in r.texts && r.texts[s].outputItemDone
      && r.texts[s].text == EnsureTextPart(c, s, id).texts[s].text
  {
    SoundEnsureTextPart(c, s, id);
    var c := EnsureTextPart(c, s, id);
    if !c.texts[s].outputItemDone {
      SoundCompleteItem(c, s);
    }
  }

  lemma SoundAppendFunctionCallArgs(c: Core, callId: string, delta: string)
    requires Sound(c)
    ensures Sound(AppendFunctionCallArgs(c, callId, delta))
  {
    if callId in c.calls && !c.calls[callId].done {
      CallSlot(c, callId);
      var st, i := c.calls[callId], c.calls[callId].outputIndex;
      SoundCall(c, callId, st.(args := st.args + delta), c.output[i], ArgsDelta(i, st.itemId, delta));
      assert c.output[i := c.output[i]] == c.output;
    }
  }

  lemma SoundFinishFunctionCallArgs(c: Core, callId: string, args: string, name: Option<string>)
    requires Sound(c)
    ensures Sound(FinishFunctionCallArgs(c, callId, args, name))
  {
    if callId in c.calls && !c.calls[callId].done {
      CallSlot(c, callId);
      var st, i := c.calls[callId], c.calls[callId].outputIndex;
      SoundCall(c, callId, st.(args := args), c.output[i].(arguments := args),
                ArgsDone(i, st.itemId, TextOr(name, st.name), args));
    }
  }

  lemma SoundFinishFunctionCall(c: Core, callId: string, args: string)
    requires Sound(c)
    ensures Sound(FinishFunctionCall(c, callId, args))
  {
    if callId in c.calls && !c.calls[callId].done {
      CallSlot(c, callId);
      var st, i := c.calls[callId], c.calls[callId].outputIndex;
      var item := CompletedItem(c.output[i].(arguments := args));
      SoundCall(c, callId, st.(args := args, done := true), item, ItemDone(i, item));
    }
  }

  // ---------------------------------------------------------------- whole runs

  /** A call on the state; `id` is what the item id generator would return. */
  datatype Op =
    | OpMessage(s: string, role: string, id: string)
    | OpTextPart(s: string, id: string)
    | OpTextDelta(s: string, delta: string, id: string)
    | OpTextDone(s: string, text: Option<string>, id: string)
    | OpPartDone(s: string, id: string)
    | OpMessageDone(s: string, id: string)
    | OpFinishText(s: string, text: Option<string>, id: string)
    | OpCall(callId: string, name: string, id: string)
    | OpArgsDelta(callId: string, delta: string)
    | OpArgsDone(callId: string, args: string, newName: Option<string>)
    | OpCallDone(callId: string, args: string)
    | OpNothing

  function Step(c: Core, op: Op): Core {
    match op
    case OpMessage(s, role, id) => EnsureMessage(c, s, role, id)
    case OpTextPart(s, id) => EnsureTextPart(c, s, id)
    case OpTextDelta(s, delta, id) => AppendTextDelta(c, s, delta, id)
    case OpTextDone(s, text, id) => DoneOutputText(c, s, text, id)
    case OpPartDone(s, id) => DoneContentPart(c, s, id)
    case OpMessageDone(s, id) => DoneMessageItem(c, s, id)
    case OpFinishText(s, text, id) => FinishText(c, s, text, id)
    case OpCall(callId, name, id) => StartFunctionCall(c, callId, name, id)
    case OpArgsDelta(callId, delta) => AppendFunctionCallArgs(c, callId, delta)
    case OpArgsDone(callId, args, name) => FinishFunctionCallArgs(c, callId, args, name)
    case OpCallDone(callId, args) => FinishFunctionCall(c, callId, args)
    case OpNothing => c
  }

  function Run(ops: seq<Op>): Core {
    if ops == [] then EMPTY else Step(Run(ops[..|ops| - 1]), ops[|ops| - 1])
  }

  lemma SoundFinishText(c: Core, s: string, text: Option<string>, id: string)
    requires Sound(c)
    ensures Sound(FinishText(c, s, text, id))
  {
    var c1 := DoneOutputText(c, s, text, id);
    SoundDoneOutputText(c, s, text, id);
    var c2 := DoneContentPart(c1, s, id);
    SoundDoneContentPart(c1, s, id);
    SoundDoneMessageItem(c2, s, id);
  }

  lemma StepFinishes(c: Core, s: string, text: Option<string>, id: string)
    ensures Step(c, OpFinishText(s, text, id)) == FinishText(c, s, text, id)
  {
  }

  lemma FinishStepSound(c: Core, s: string, text: Option<string>, id: string)
    requires Sound(c)
    ensures Sound(Step(c, OpFinishText(s, text, id)))
  {
    SoundFinishText(c, s, text, id);
    StepFinishes(c, s, text, id);
  }

  /** The operation is a single one of a text stream. */
  predicate OnText(op: Op) {
    op.OpMessage? || op.OpTextPart? || op.OpTextDelta? || op.OpTextDone? || op.OpPartDone? || op.OpMessageDone?
  }

  lemma TextStepSound(c: Core, op: Op)
    requires Sound(c) && OnText(op)
    ensures Sound(Step(c, op))
  {
    match op
    case OpMessage(s, role, id) => SoundEnsureMessage(c, s, role, id);
    case OpTextPart(s, id) => SoundEnsureTextPart(c, s, id);
    case OpTextDelta(s, delta, id) => SoundAppendTextDelta(c, s, delta, id);
    case OpTextDone(s, text, id) => SoundDoneOutputText(c, s, text, id);
    case OpPartDone(s, id) => SoundDoneContentPart(c, s, id);
    case OpMessageDone(s, id) => SoundDoneMessageItem(c, s, id);
  }

  lemma StepSound(c: Core, op: Op)
    requires Sound(c)
    ensures Sound(Step(c, op))
  {
    match op
    case OpCall(callId, name, id) => SoundStartFunctionCall(c, callId, name, id);
    case OpArgsDelta(callId, delta) => SoundAppendFunctionCallArgs(c, callId, delta);
    case OpArgsDone(callId, args, name) => SoundFinishFunctionCallArgs(c, callId, args, name);
    case OpCallDone(callId, args) => SoundFinishFunctionCall(c, callId, args);
    case OpNothing =>
    case OpFinishText(s, text, id) => FinishStepSound(c, s, text, id);
    case _ => TextStepSound(c, op);
  }

  /**
   Replay refinement: after any sequence of calls the strict client accepts the emitted trace,
   and its slots decode to the output array and to both index maps.
   */
  lemma {:induction false} RunSound(ops: seq<Op>)
    ensures Sound(Run(ops))
  {
    if ops == [] {
    } else {
      RunSound(ops[..|ops| - 1]);
      StepSound(Run(ops[..|ops| - 1]), ops[|ops| - 1]);
    }
  }

  /** The last `*.done` text of a completed slot is its final text. */
  lemma {:induction false} DoneSlotsStored(trace: seq<Event<Item>>, i: nat)
    requires Accepted(trace) && i < |Replay(trace).value|
    ensures var slot := Replay(trace).value[i];
            slot.item.status.Completed? ==> slot.stored == TextOf(slot.item)
  {
    if trace == [] || i >= |Replay(trace[..|trace| - 1]).value| {
    } else {
      DoneSlotsStored(trace[..|trace| - 1], i);
    }
  }

  /**
   Index `i` read on both sides: the client has an item there, and its text, arguments and status
   are those of the stream or call that owns the index; if done, it is the item of the output.
   */
  ghost predicate Rebuilt(c: Core, i: nat)
    requires i < |c.output|
  {
    && Accepted(c.trace) && |Replay(c.trace).value| == |c.output| == |c.owners| == |c.texts| + |c.calls|
    && var item := Replay(c.trace).value[i].item;
       && (item.status.Completed? ==> c.output[i] == item)
       && match c.owners[i]
          case Stream(s) =>
            && s in c.texts && c.texts[s].outputIndex == i && item.Message? && item.id == c.texts[s].itemId
            && item.content == (if c.texts[s].contentStarted then [c.texts[s].text] else [])
            && item.status.Completed? == c.texts[s].outputItemDone
          case CallOf(callId) =>
            && callId in c.calls && c.calls[callId].outputIndex == i
            && item.FunctionCall? && item.callId == callId && item.id == c.calls[callId].itemId
            && item.name == c.calls[callId].name && item.arguments == c.calls[callId].args
            && item.status.Completed? == c.calls[callId].done
  }

  lemma SoundRebuilds(c: Core, i: nat)
    requires Sound(c) && i < |c.output|
    ensures Rebuilt(c, i)
  {
    assert Mirrors(Replay(c.trace).value, c.output, c.owners, c.texts, c.calls, i);
    FlagsAreCounts(c.trace, i);
    DoneSlotsStored(c.trace, i);
  }

  /** The refinement over all runs: what the client shows is what the owner's state says. */
  lemma {:induction false} ReplayRefinement(ops: seq<Op>, i: nat)
    requires i < |Run(ops).output|
    ensures Rebuilt(Run(ops), i)
  {
    RunSound(ops);
    SoundRebuilds(Run(ops), i);
  }

  /** No output index is shared: distinct streams and calls own distinct indices. */
  lemma {:induction false} OneOwnerPerIndex(ops: seq<Op>)
    ensures var c := Run(ops);
      && (forall s, t | s in c.texts && t in c.texts && c.texts[s].outputIndex == c.texts[t].outputIndex :: s == t)
      && (forall s, t | s in c.calls && t in c.calls && c.calls[s].outputIndex == c.calls[t].outputIndex :: s == t)
      && (forall s, t | s in c.texts && t in c.calls :: c.texts[s].outputIndex != c.calls[t].outputIndex)
  {
    RunSound(ops);
    var c := Run(ops);
    assert forall s | s in c.texts :: TextOwned(c.owners, c.texts, s);
    assert forall t | t in c.calls :: CallOwned(c.owners, c.calls, t);
  }

  /** The wrong-type guards of the source never fire. */
  lemma {:induction false} GuardsNeverFire(ops: seq<Op>)
    ensures var c := Run(ops);
      && (forall s | s in c.texts :: IsMessageAt(c.output, c.texts[s].outputIndex))
      && (forall callId | callId in c.calls :: IsCallAt(c.output, c.calls[callId].outputIndex))
  {
    RunSound(ops);
    var c := Run(ops);
    forall s | s in c.texts ensures IsMessageAt(c.output, c.texts[s].outputIndex) {
      TextSlot(c, s);
    }
    forall callId | callId in c.calls ensures IsCallAt(c.output, c.calls[callId].outputIndex) {
      CallSlot(c, callId);
    }
  }

  // ---------------------------------------------------------------- frozen output, collected text

  lemma TextPartAppends(c: Core, s: string, id: string)
    ensures c.trace <= EnsureTextPart(c, s, id).trace
  {
  }

  lemma DeltaAppends(c: Core, s: string, delta: string, id: string)
    ensures c.trace <= AppendTextDelta(c, s, delta, id).trace
  {
    TextPartAppends(c, s, id);
  }

  lemma DoneTextAppends(c: Core, s: string, text: Option<string>, id: string)
    ensures c.trace <= DoneOutputText(c, s, text, id).trace
  {
    TextPartAppends(c, s, id);
  }

  lemma DonePartAppends(c: Core, s: string, id: string)
    ensures c.trace <= DoneContentPart(c, s, id).trace
  {
    TextPartAppends(c, s, id);
  }

  lemma DoneItemAppends(c: Core, s: string, id: string)
    ensures c.trace <= DoneMessageItem(c, s, id).trace
  {
    TextPartAppends(c, s, id);
  }

  lemma FinishAppends(c: Core, s: string, text: Option<string>, id: string)
    ensures c.trace <= FinishText(c, s, text, id).trace
  {
    var c1 := DoneOutputText(c, s, text, id);
    DoneTextAppends(c, s, text, id);
    DonePartAppends(c1, s, id);
    DoneItemAppends(DoneContentPart(c1, s, id), s, id);
  }

  lemma FinishStepAppends(c: Core, s: string, text: Option<string>, id: string)
    ensures c.trace <= Step(c, OpFinishText(s, text, id)).trace
  {
    FinishAppends(c, s, text, id);
    StepFinishes(c, s, text, id);
  }

  /** Calls only ever append to the trace. */
  lemma StepAppends(c: Core, op: Op)
    ensures c.trace <= Step(c, op).trace
  {
    match op
    case OpTextPart(s, id) => TextPartAppends(c, s, id);
    case OpTextDelta(s, delta, id) => DeltaAppends(c, s, delta, id);
    case OpTextDone(s, text, id) => DoneTextAppends(c, s, text, id);
    case OpPartDone(s, id) => DonePartAppends(c, s, id);
    case OpMessageDone(s, id) => DoneItemAppends(c, s, id);
    case OpFinishText(s, text, id) => FinishStepAppends(c, s, text, id);
    case _ =>
  }

  lemma {:induction false} RunAppends(ops: seq<Op>, more: seq<Op>)
    ensures Run(ops).trace <= Run(ops + more).trace
  {
    if more == [] {
      assert ops + more == ops;
    } else {
      var front := more[..|more| - 1];
      assert (ops + more)[..|ops + more| - 1] == ops + front;
      RunAppends(ops, front);
      StepAppends(Run(ops + front), more[|more| - 1]);
    }
  }

  /** A completed item of the output array is never touched again, whatever is called later. */
  lemma {:induction false} CompletedOutputIsFrozen(ops: seq<Op>, more: seq<Op>, i: nat)
    requires i < |Run(ops).output| && Run(ops).output[i].status.Completed?
    ensures i < |Run(ops + more).output| && Run(ops + more).output[i] == Run(ops).output[i]
  {
    var c, d := Run(ops), Run(ops + more);
    RunSound(ops);
    RunSound(ops + more);
    RunAppends(ops, more);
    assert d.trace == c.trace + d.trace[|c.trace|..];
    DoneItemsAreFrozen(c.trace, d.trace[|c.trace|..], i);
    assert Mirrors(Replay(c.trace).value, c.output, c.owners, c.texts, c.calls, i);
    assert Mirrors(Replay(d.trace).value, d.output, d.owners, d.texts, d.calls, i);
  }

  /** parts.join(''). */
  function Joined(parts: seq<string>): string {
    if parts == [] then "" else parts[0] + Joined(parts[1..])
  }

  lemma {:induction false} JoinedSnoc(parts: seq<string>, part: string)
    ensures Joined(parts + [part]) == Joined(parts) + part
  {
    if parts == [] {
      assert [part][1..] == [];
    } else {
      assert (parts + [part])[1..] == parts[1..] + [part];
      JoinedSnoc(parts[1..], part);
    }
  }

  function OutputText(output: seq<Item>): string {
    if output == [] then ""
    else
      var item := output[|output| - 1];
      OutputText(output[..|output| - 1]) + if item.Message? then Joined(item.content) else ""
  }
}
