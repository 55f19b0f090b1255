/**
 The wire protocol of the responses stream, seen from the receiving side.

 `Replay` is a strict client: it rebuilds one slot per output index from the events alone and
 gives up (`None`) on the first event that breaks the protocol. That a trace is accepted is
 therefore the trace grammar; the lemmas below spell the grammar out.
 */
module ResponsesTrace {
  import opened Options

  datatype Status = InProgress | Completed

  /** An output item. The parts of a message are all output_text parts; a part is its text. */
  datatype Item =
    | Message(id: string, role: string, status: Status, content: seq<string>)
    | FunctionCall(id: string, callId: string, name: string, arguments: string, status: Status)

  /** Unsequenced stream events. `I` is the item snapshot they carry: an object or its value. */
  datatype Event<I> =
    | ItemAdded(index: nat, item: I)
    | PartAdded(index: nat, itemId: string, contentIndex: nat, part: string)
    | TextDelta(index: nat, itemId: string, contentIndex: nat, delta: string)
    | TextDone(index: nat, itemId: string, contentIndex: nat, text: string)
    | PartDone(index: nat, itemId: string, contentIndex: nat, part: string)
    | ArgsDelta(index: nat, itemId: string, delta: string)
    | ArgsDone(index: nat, itemId: string, name: string, arguments: string)
    | ItemDone(index: nat, item: I)

  /**
   What the client knows of one output index. `item` is up to date with every delta; `stored`
   is the text (or the arguments) as of the last `*.done` event only.
   */
  datatype Slot = Slot(item: Item, stored: string, textDone: bool, partDone: bool)

  function NewSlot(item: Item): Slot {
    Slot(item, "", false, false)
  }

  predicate Blank(item: Item) {
    item.status.InProgress? && if item.Message? then item.content == [] else item.arguments == ""
  }

  /** The single text of a slot: the first part of a message, the arguments of a call. */
  function TextOf(item: Item): string {
    if item.FunctionCall? then item.arguments
    else if item.content == [] then "" else item.content[0]
  }

  function WithText(item: Item, text: string): Item {
    if item.FunctionCall? then item.(arguments := text) else item.(content := [text])
  }

  predicate StartedMessage(slot: Slot, itemId: string, contentIndex: nat) {
    slot.item.Message? && slot.item.id == itemId && |slot.item.content| == 1 && contentIndex == 0
  }

  /** One protocol step of an open slot; `None` is a protocol error. */
  function Evolve(slot: Slot, e: Event<Item>): Option<Slot> {
    var item := slot.item;
    match e
    case ItemAdded(_, _) => None
    case PartAdded(_, id, c, part) =>
      if item.Message? && item.id == id && item.content == [] && c == 0 && part == "" then
        Some(slot.(item := WithText(item, ""), stored := ""))
      else None
    case TextDelta(_, id, c, delta) =>
      if StartedMessage(slot, id, c) then Some(slot.(item := WithText(item, TextOf(item) + delta)))
      else None
    case TextDone(_, id, c, text) =>
      if StartedMessage(slot, id, c) && !slot.textDone then
        Some(slot.(item := WithText(item, text), stored := text, textDone := true))
      else None
    case PartDone(_, id, c, part) =>
      if StartedMessage(slot, id, c) && !slot.partDone && part == TextOf(item) then
        Some(slot.(stored := part, partDone := true))
      else None
    case ArgsDelta(_, id, delta) =>
      if item.FunctionCall? && item.id == id then
        Some(slot.(item := WithText(item, TextOf(item) + delta)))
      else None
    case ArgsDone(_, id, _, arguments) =>
      if item.FunctionCall? && item.id == id then
        Some(slot.(item := WithText(item, arguments), stored := arguments))
      else None
    case ItemDone(_, final) =>
      // A finished message must repeat exactly the text already streamed; a finished call may
      // bring its definitive arguments.
      if match item
         case Message(id, role, _, content) => |content| == 1 && final == Message(id, role, Completed, content)
         case FunctionCall(id, callId, name, _, _) =>
           final.FunctionCall? && final == FunctionCall(id, callId, name, final.arguments, Completed)
      then Some(slot.(item := final, stored := TextOf(final)))
      else None
  }

  /** One protocol step of the whole client. */
  function Receive(view: seq<Slot>, e: Event<Item>): Option<seq<Slot>> {
    if e.ItemAdded? then
      if e.index == |view| && Blank(e.item) then Some(view + [NewSlot(e.item)]) else None
    else if e.index < |view| && view[e.index].item.status.InProgress? then
      match Evolve(view[e.index], e)
      case Some(slot) => Some(view[e.index := slot])
      case None => None
    else None
  }

  /** The strict client after a whole trace. */
  function Replay(trace: seq<Event<Item>>): Option<seq<Slot>> {
    if trace == [] then Some([])
    else match Replay(trace[..|trace| - 1])
         case Some(view) => Receive(view, trace[|trace| - 1])
         case None => None
  }

  predicate Accepted(trace: seq<Event<Item>>) {
    Replay(trace).Some?
  }

  lemma ReplaySnoc(trace: seq<Event<Item>>, e: Event<Item>)
    ensures Replay(trace + [e]) == if Accepted(trace) then Receive(Replay(trace).value, e) else None
  {
    assert (trace + [e])[..|trace|] == trace;
  }

  /** Every prefix of an accepted trace is accepted. */
  lemma {:induction false} PrefixAccepted(trace: seq<Event<Item>>, k: nat)
    requires Accepted(trace) && k <= |trace|
    ensures Accepted(trace[..k])
    ensures k < |trace| ==> Receive(Replay(trace[..k]).value, trace[k]).Some?
  {
    if k == |trace| {
      assert trace[..k] == trace;
    } else if k == |trace| - 1 {
    } else {
      var front := trace[..|trace| - 1];
      PrefixAccepted(front, k);
      assert front[..k] == trace[..k];
    }
  }

  // ---------------------------------------------------------------- grammar

  datatype Kind = AddItem | AddPart | Delta | DoneText | DonePart | GrowArgs | DoneArgs | DoneItem

  function KindOf<I>(e: Event<I>): Kind {
    match e
    case ItemAdded(_, _) => AddItem
    case PartAdded(_, _, _, _) => AddPart
    case TextDelta(_, _, _, _) => Delta
    case TextDone(_, _, _, _) => DoneText
    case PartDone(_, _, _, _) => DonePart
    case ArgsDelta(_, _, _) => GrowArgs
    case ArgsDone(_, _, _, _) => DoneArgs
    case ItemDone(_, _) => DoneItem
  }

  /** How many events of a kind a trace holds for an output index. */
  function Count(trace: seq<Event<Item>>, i: nat, kind: Kind): nat {
    if trace == [] then 0
    else
      var e := trace[|trace| - 1];
      Count(trace[..|trace| - 1], i, kind) + if e.index == i && KindOf(e) == kind then 1 else 0
  }

  function Bit(b: bool): nat {
    if b then 1 else 0
  }

  /** The client's flags are exact event counts. */
  lemma {:induction false} FlagsAreCounts(trace: seq<Event<Item>>, i: nat)
    requires Accepted(trace)
    ensures var view := Replay(trace).value;
            Count(trace, i, AddItem) == Bit(i < |view|)
    ensures var view := Replay(trace).value;
            i < |view| ==>
              && Count(trace, i, DoneItem) == Bit(view[i].item.status.Completed?)
              && Count(trace, i, DoneText) == Bit(view[i].textDone)
              && Count(trace, i, DonePart) == Bit(view[i].partDone)
              && Count(trace, i, AddPart) == (if view[i].item.Message? then |view[i].item.content| else 0)
              && (view[i].item.Message? ==> |view[i].item.content| <= 1)
              && (view[i].item.Message? && view[i].item.status.Completed? ==> |view[i].item.content| == 1)
    ensures i >= |Replay(trace).value| ==> forall kind :: Count(trace, i, kind) == 0
  {
    if trace == [] {
    } else {
      FlagsAreCounts(trace[..|trace| - 1], i);
    }
  }

  /**
   The grammar of one output index, at every position `k` of an accepted trace:
   `output_item.added` is first and unique; `content_part.added` comes at most once and before
   any text event; `output_text.done` and `content_part.done` come at most once each;
   nothing follows `output_item.done`.
   */
  lemma PerItemGrammar(trace: seq<Event<Item>>, k: nat)
    requires Accepted(trace) && k < |trace|
    ensures var before, i, kind := trace[..k], trace[k].index, KindOf(trace[k]);
            && (kind.AddItem? ==> forall any :: Count(before, i, any) == 0)
            && (!kind.AddItem? ==> Count(before, i, AddItem) == 1 && Count(before, i, DoneItem) == 0)
            && (kind.AddPart? || kind.DoneText? || kind.DonePart? ==> Count(before, i, kind) == 0)
            && (kind.Delta? || kind.DoneText? || kind.DonePart? ==> Count(before, i, AddPart) == 1)
  {
    PrefixAccepted(trace, k);
    FlagsAreCounts(trace[..k], trace[k].index);
  }

  /** A message is never reported done without its content part. */
  lemma DoneMessageHasPart(trace: seq<Event<Item>>, k: nat)
    requires Accepted(trace) && k < |trace| && trace[k].ItemDone? && trace[k].item.Message?
    ensures Count(trace[..k], trace[k].index, AddPart) == 1
  {
    PrefixAccepted(trace, k);
    FlagsAreCounts(trace[..k], trace[k].index);
  }

  /** Once `output_item.done` is received, the item never changes again. */
  lemma {:induction false} DoneItemsAreFrozen(trace: seq<Event<Item>>, more: seq<Event<Item>>, i: nat)
    requires Accepted(trace + more)
    ensures Accepted(trace)
    ensures var view := Replay(trace).value;
            i < |view| && view[i].item.status.Completed? ==>
              i < |Replay(trace + more).value| && Replay(trace + more).value[i] == view[i]
  {
    if more == [] {
      assert trace + more == trace;
    } else {
      var front := more[..|more| - 1];
      assert (trace + more)[..|trace + more| - 1] == trace + front;
      DoneItemsAreFrozen(trace, front, i);
    }
  }
}
