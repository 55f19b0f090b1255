/**
 Over every sequence of calls on the responses state, its trace, its output order, and the text or
 arguments of every stream and function call are functions of the calls alone
 (openai-responses-state.ts).
 */
module ResponsesRuns {
  import opened Options
  import opened Sequences
  import opened ResponsesTrace
  import opened ResponsesCore
  import opened ResponsesScript

  /** Who a call opens an output index for, if it is the first to do so. */
  function Opener(op: Op): Option<Owner> {
    if OnText(op) || op.OpFinishText? then Some(Stream(op.s))
    else if op.OpCall? then Some(CallOf(op.callId))
    else None
  }

  /** Streams and function calls in the order in which they are opened. */
  function Order(ops: seq<Op>): seq<Owner> {
    if ops == [] then []
    else
      var order, w := Order(ops[..|ops| - 1]), Opener(ops[|ops| - 1]);
      if w.Some? && w.value !in order then order + [w.value] else order
  }

  /** The position of `w`, or the next free one. */
  function Position(order: seq<Owner>, w: Owner): nat {
    if order == [] || order[0] == w then 0 else 1 + Position(order[1..], w)
  }

  /** The events of a call that comes after the calls `ops`. */
  function EventsOf(ops: seq<Op>, op: Op): seq<Event<Item>> {
    if OnText(op) || op.OpFinishText? then
      var h := Heeded(ops, op.s);
      TaleSnoc(op.s, h, op);
      Said(Position(Order(ops), Stream(op.s)), TaleOf(op.s, h), op, TaleOf(op.s, Heed(h, op)))
    else if op.OpNothing? then []
    else CallSaid(Position(Order(ops), CallOf(op.callId)), HeededCall(ops, op.callId), op)
  }

  /** All events of all calls, from the calls alone. */
  function Script(ops: seq<Op>): seq<Event<Item>> {
    if ops == [] then [] else Script(ops[..|ops| - 1]) + EventsOf(ops[..|ops| - 1], ops[|ops| - 1])
  }

  /** The state is what the calls say. */
  ghost predicate Faithful(c: Core, ops: seq<Op>) {
    && c.owners == Order(ops) && c.trace == Script(ops)
    && (forall s :: Fits(c, s, TaleOf(s, Heeded(ops, s))))
    && (forall d :: CallFits(c, d, HeededCall(ops, d)))
  }

  lemma {:induction false} FirstPosition(order: seq<Owner>, w: Owner, i: nat)
    requires i <= |order| && (i < |order| ==> order[i] == w) && forall j | 0 <= j < i :: order[j] != w
    ensures Position(order, w) == i
  {
    if i == 0 {
    } else {
      FirstPosition(order[1..], w, i - 1);
    }
  }

  /** A stream's index is its position in the order, and no other stream has it. */
  lemma StreamPosition(c: Core, s: string)
    requires Sound(c)
    ensures PlaceOf(c, s) == Position(c.owners, Stream(s)) && (s in c.texts <==> Stream(s) in c.owners)
    ensures forall u | u in c.texts && u != s ::
              c.texts[u].outputIndex < |c.output| && c.texts[u].outputIndex != PlaceOf(c, s)
  {
    var view := Replay(c.trace).value;
    forall j: nat | j < |c.owners| && c.owners[j] == Stream(s) ensures s in c.texts && c.texts[s].outputIndex == j {
      assert Mirrors(view, c.output, c.owners, c.texts, c.calls, j);
    }
    assert TextOwned(c.owners, c.texts, s);
    FirstPosition(c.owners, Stream(s), PlaceOf(c, s));
    forall u | u in c.texts && u != s
      ensures c.texts[u].outputIndex < |c.output| && c.texts[u].outputIndex != PlaceOf(c, s)
    {
      assert TextOwned(c.owners, c.texts, u);
    }
  }

  lemma CallPosition(c: Core, callId: string)
    requires Sound(c)
    ensures CallPlaceOf(c, callId) == Position(c.owners, CallOf(callId))
    ensures callId in c.calls <==> CallOf(callId) in c.owners
    ensures forall u | u in c.texts ::
              c.texts[u].outputIndex < |c.output| && c.texts[u].outputIndex != CallPlaceOf(c, callId)
  {
    var view := Replay(c.trace).value;
    forall j: nat | j < |c.owners| && c.owners[j] == CallOf(callId)
      ensures callId in c.calls && c.calls[callId].outputIndex == j
    {
      assert Mirrors(view, c.output, c.owners, c.texts, c.calls, j);
    }
    assert CallOwned(c.owners, c.calls, callId);
    FirstPosition(c.owners, CallOf(callId), CallPlaceOf(c, callId));
    forall u | u in c.texts
      ensures c.texts[u].outputIndex < |c.output| && c.texts[u].outputIndex != CallPlaceOf(c, callId)
    {
      assert TextOwned(c.owners, c.texts, u);
    }
  }

  lemma StreamStepKeeps(c: Core, ops: seq<Op>, op: Op, u: string, s: string)
    requires Sound(c) && Faithful(c, ops) && OnStream(op, u)
    ensures Fits(Step(c, op), s, TaleOf(s, Heeded(ops + [op], s)))
  {
    assert (ops + [op])[..|ops|] == ops;
    assert Fits(c, s, TaleOf(s, Heeded(ops, s))) && Fits(c, u, TaleOf(u, Heeded(ops, u)));
    var j := if s in c.texts then c.texts[s].outputIndex else 0;
    StepOnStream(c, op, u, TaleOf(u, Heeded(ops, u)), s, j);
    if s == u {
      TaleSnoc(u, Heeded(ops, u), op);
    } else {
      StreamPosition(c, u);
    }
  }

  lemma ScriptSnoc(ops: seq<Op>, op: Op)
    ensures Script(ops + [op]) == Script(ops) + EventsOf(ops, op)
  {
    assert (ops + [op])[..|ops|] == ops;
  }

  lemma OrderSnoc(ops: seq<Op>, op: Op)
    ensures Order(ops + [op]) == if Opener(op).Some? && Opener(op).value !in Order(ops)
                                 then Order(ops) + [Opener(op).value] else Order(ops)
  {
    assert (ops + [op])[..|ops|] == ops;
  }

  lemma StreamStepTells(c: Core, ops: seq<Op>, op: Op, u: string)
    requires Sound(c) && Faithful(c, ops) && OnStream(op, u)
    ensures Step(c, op).trace == c.trace + EventsOf(ops, op)
    ensures Step(c, op).owners == Order(ops + [op]) && Step(c, op).calls == c.calls
  {
    var h := Heeded(ops, u);
    assert Fits(c, u, TaleOf(u, h));
    StepOnStream(c, op, u, TaleOf(u, h), u, 0);
    StreamPosition(c, u);
    OrderSnoc(ops, op);
    assert EventsOf(ops, op) == Said(PlaceOf(c, u), TaleOf(u, h), op, Next(TaleOf(u, h), u, op)) by {
      TaleSnoc(u, h, op);
    }
  }

  lemma CallStepKeeps(c: Core, ops: seq<Op>, op: Op, callId: string, d: string)
    requires Sound(c) && Faithful(c, ops) && OnCall(op, callId)
    ensures CallFits(Step(c, op), d, HeededCall(ops + [op], d))
  {
    assert (ops + [op])[..|ops|] == ops;
    assert CallFits(c, d, HeededCall(ops, d)) && CallFits(c, callId, HeededCall(ops, callId));
    StepOnCall(c, op, callId, HeededCall(ops, callId));
    StepBesideCall(c, op, callId, d, 0);
  }

  lemma CallTells(c: Core, ops: seq<Op>, op: Op, callId: string, r: Core)
    requires c.owners == Order(ops) && OnCall(op, callId) && CallElsewhere(c, op, r, callId, callId, 0)
    requires CallFollows(c, callId, HeededCall(ops, callId), op, r)
    requires CallPlaceOf(c, callId) == Position(c.owners, CallOf(callId))
    requires callId in c.calls <==> CallOf(callId) in c.owners
    ensures r.trace == c.trace + EventsOf(ops, op) && r.owners == Order(ops + [op])
  {
    OrderSnoc(ops, op);
    assert !OnText(op) && !op.OpFinishText? && !op.OpNothing?;
  }

  lemma CallStepTells(c: Core, ops: seq<Op>, op: Op, callId: string)
    requires Sound(c) && Faithful(c, ops) && OnCall(op, callId)
    ensures Step(c, op).trace == c.trace + EventsOf(ops, op)
    ensures Step(c, op).owners == Order(ops + [op])
  {
    var h := HeededCall(ops, callId);
    assert CallFits(c, callId, h);
    StepOnCall(c, op, callId, h);
    StepBesideCall(c, op, callId, callId, 0);
    CallPosition(c, callId);
    CallTells(c, ops, op, callId, Step(c, op));
  }

  /** A stream that keeps its state and item still fits. */
  lemma StillFits(c: Core, s: string, t: Tale, r: Core)
    requires Fits(c, s, t) && (s in r.texts <==> s in c.texts)
    requires s in c.texts ==> r.texts[s] == c.texts[s]
    requires s in c.texts ==> var i := c.texts[s].outputIndex; i < |r.output| && r.output[i] == c.output[i]
    ensures Fits(r, s, t)
  {
  }

  lemma CallStepKeepsStream(c: Core, ops: seq<Op>, op: Op, callId: string, s: string)
    requires Sound(c) && Faithful(c, ops) && OnCall(op, callId)
    ensures Fits(Step(c, op), s, TaleOf(s, Heeded(ops + [op], s)))
  {
    assert (ops + [op])[..|ops|] == ops;
    assert Fits(c, s, TaleOf(s, Heeded(ops, s)));
    StepBesideCall(c, op, callId, callId, if s in c.texts then c.texts[s].outputIndex else 0);
    CallPosition(c, callId);
    StillFits(c, s, TaleOf(s, Heeded(ops, s)), Step(c, op));
  }

  lemma HeedOther(ops: seq<Op>, op: Op, s: string)
    ensures Heeded(ops + [op], s) == if OnStream(op, s) then Heed(Heeded(ops, s), op) else Heeded(ops, s)
  {
    assert (ops + [op])[..|ops|] == ops;
  }

  lemma HeedElse(ops: seq<Op>, op: Op, d: string)
    requires !OnCall(op, d)
    ensures HeededCall(ops + [op], d) == HeededCall(ops, d)
  {
    assert (ops + [op])[..|ops|] == ops;
  }

  lemma NothingHeeded(c: Core, ops: seq<Op>, s: string)
    requires Faithful(c, ops)
    ensures Fits(c, s, TaleOf(s, Heeded(ops + [OpNothing], s)))
    ensures CallFits(c, s, HeededCall(ops + [OpNothing], s))
  {
    HeedOther(ops, OpNothing, s);
    HeedElse(ops, OpNothing, s);
    assert Fits(c, s, TaleOf(s, Heeded(ops, s))) && CallFits(c, s, HeededCall(ops, s));
  }

  lemma NothingStepKeeps(c: Core, ops: seq<Op>)
    requires Faithful(c, ops)
    ensures Faithful(c, ops + [OpNothing])
  {
    ScriptSnoc(ops, OpNothing);
    OrderSnoc(ops, OpNothing);
    assert Script(ops) + [] == Script(ops);
    forall s ensures Fits(c, s, TaleOf(s, Heeded(ops + [OpNothing], s))) {
      NothingHeeded(c, ops, s);
    }
    forall d ensures CallFits(c, d, HeededCall(ops + [OpNothing], d)) {
      NothingHeeded(c, ops, d);
    }
  }

  lemma StillCallFits(c: Core, d: string, h: seq<Op>, r: Core)
    requires CallFits(c, d, h) && r.calls == c.calls
    ensures CallFits(r, d, h)
  {
  }

  lemma StreamStepKeepsCall(c: Core, ops: seq<Op>, op: Op, u: string, d: string, r: Core)
    requires Faithful(c, ops) && OnStream(op, u) && r.calls == c.calls
    ensures CallFits(r, d, HeededCall(ops + [op], d))
  {
    HeedElse(ops, op, d);
    assert CallFits(c, d, HeededCall(ops, d));
    StillCallFits(c, d, HeededCall(ops, d), r);
  }

  lemma StreamStepKeepsAll(c: Core, ops: seq<Op>, op: Op, u: string)
    requires Sound(c) && Faithful(c, ops) && OnStream(op, u)
    ensures Faithful(Step(c, op), ops + [op])
  {
    var r, more := Step(c, op), ops + [op];
    StreamStepTells(c, ops, op, u);
    ScriptSnoc(ops, op);
    forall s ensures Fits(r, s, TaleOf(s, Heeded(more, s))) {
      StreamStepKeeps(c, ops, op, u, s);
    }
    forall d ensures CallFits(r, d, HeededCall(more, d)) {
      StreamStepKeepsCall(c, ops, op, u, d, r);
    }
  }

  lemma CallStepKeepsAll(c: Core, ops: seq<Op>, op: Op, callId: string)
    requires Sound(c) && Faithful(c, ops) && OnCall(op, callId)
    ensures Faithful(Step(c, op), ops + [op])
  {
    var r, more := Step(c, op), ops + [op];
    CallStepTells(c, ops, op, callId);
    ScriptSnoc(ops, op);
    forall s ensures Fits(r, s, TaleOf(s, Heeded(more, s))) {
      CallStepKeepsStream(c, ops, op, callId, s);
    }
    forall d ensures CallFits(r, d, HeededCall(more, d)) {
      CallStepKeeps(c, ops, op, callId, d);
    }
  }

  lemma StepKeepsFaithful(c: Core, ops: seq<Op>, op: Op)
    requires Sound(c) && Faithful(c, ops)
    ensures Faithful(Step(c, op), ops + [op])
  {
    if OnText(op) || op.OpFinishText? {
      StreamStepKeepsAll(c, ops, op, op.s);
    } else if op.OpNothing? {
      NothingStepKeeps(c, ops);
    } else {
      CallStepKeepsAll(c, ops, op, op.callId);
    }
  }

  lemma FaithfulAfter(c: Core, ops: seq<Op>, op: Op, all: seq<Op>)
    requires Sound(c) && Faithful(c, ops) && all == ops + [op]
    ensures Faithful(Step(c, op), all)
  {
    StepKeepsFaithful(c, ops, op);
  }

  lemma NothingCalled()
    ensures Faithful(EMPTY, [])
  {
  }

  /** Over every sequence of calls, trace, owners and state are what the calls say. */
  lemma {:induction false} RunIsFaithful(ops: seq<Op>)
    ensures Faithful(Run(ops), ops)
  {
    if ops == [] {
      NothingCalled();
    } else {
      var front := ops[..|ops| - 1];
      RunIsFaithful(front);
      RunSound(front);
      FaithfulAfter(Run(front), front, ops[|ops| - 1], ops);
    }
  }

  // ---------------------------------------------------------------- main results

  /** The trace of every run is told by the calls alone, event by event. */
  lemma TraceIsScript(ops: seq<Op>)
    ensures Run(ops).trace == Script(ops)
  {
    RunIsFaithful(ops);
  }

  /** What the client shows of a stream or function call whose state fits. */
  lemma StreamShown(c: Core, s: string, t: Tale)
    requires Sound(c) && Fits(c, s, t) && t.known
    ensures var i := c.texts[s].outputIndex;
      && Accepted(c.trace) && i < |Replay(c.trace).value|
      && Replay(c.trace).value[i].item
         == Message(t.id, t.role, if t.closed then Completed else InProgress, if t.started then [t.text] else [])
  {
    TextSlot(c, s);
    SoundRebuilds(c, c.texts[s].outputIndex);
  }

  /**
   A stream is known exactly if it was called, and then its text is what the calls it heeds leave;
   its item id and flags are those of these calls, and the client shows the same.
   */
  lemma {:induction false} TextIsTold(ops: seq<Op>, s: string)
    ensures var c, h := Run(ops), Heeded(ops, s);
      && (s in c.texts <==> h != [])
      && (h != [] ==>
            var i, st := Position(Order(ops), Stream(s)), c.texts[s];
            && st == TextItem(i, h[0].id, 0, TextLeft(h), PartStarted(h), TextTold(h), PartTold(h), ClosedBy(h))
            && Accepted(c.trace) && i < |Replay(c.trace).value|
            && Replay(c.trace).value[i].item
               == Message(h[0].id, RoleOf(h[0]), if ClosedBy(h) then Completed else InProgress,
                          if PartStarted(h) then [TextLeft(h)] else []))
  {
    var c, h := Run(ops), Heeded(ops, s);
    RunIsFaithful(ops);
    RunSound(ops);
    assert Fits(c, s, TaleOf(s, h));
    StreamPosition(c, s);
    if h != [] {
      StreamShown(c, s, TaleOf(s, h));
    }
  }

  lemma CallShown(c: Core, callId: string, h: seq<Op>)
    requires Sound(c) && CallFits(c, callId, h) && h != []
    ensures var i, done := c.calls[callId].outputIndex, h[|h| - 1].OpCallDone?;
      && c.calls[callId] == Call(i, h[0].id, h[0].name, ArgsLeft(h), done)
      && Accepted(c.trace) && i < |Replay(c.trace).value|
      && Replay(c.trace).value[i].item
         == FunctionCall(h[0].id, callId, h[0].name, ArgsLeft(h), if done then Completed else InProgress)
  {
    CallSlot(c, callId);
  }

  /** A function call is known exactly if it was started; its arguments are those given last and the deltas since. */
  lemma {:induction false} ArgumentsAreTold(ops: seq<Op>, callId: string)
    ensures var c, h := Run(ops), HeededCall(ops, callId);
      && (callId in c.calls <==> h != [])
      && (h != [] ==>
            var i, done := Position(Order(ops), CallOf(callId)), h[|h| - 1].OpCallDone?;
            && c.calls[callId] == Call(i, h[0].id, h[0].name, ArgsLeft(h), done)
            && Accepted(c.trace) && i < |Replay(c.trace).value|
            && Replay(c.trace).value[i].item
               == FunctionCall(h[0].id, callId, h[0].name, ArgsLeft(h), if done then Completed else InProgress))
  {
    var c, h := Run(ops), HeededCall(ops, callId);
    RunIsFaithful(ops);
    RunSound(ops);
    assert CallFits(c, callId, h);
    CallPosition(c, callId);
    if h != [] {
      CallShown(c, callId, h);
    }
  }

  /** The output lists streams and function calls in the order in which they were opened. */
  lemma OutputInOrder(ops: seq<Op>)
    ensures Run(ops).owners == Order(ops) && |Run(ops).output| == |Order(ops)|
  {
    RunIsFaithful(ops);
    RunSound(ops);
  }

  // ---------------------------------------------------------------- what the output holds

  /** The text or arguments a done event reports. */
  function DoneText(e: Event<Item>): Option<string> {
    match e
    case TextDone(_, _, _, text) => Some(text)
    case PartDone(_, _, _, part) => Some(part)
    case ArgsDone(_, _, _, arguments) => Some(arguments)
    case ItemDone(_, Message(_, _, _, content)) => Some(Joined(content))
    case ItemDone(_, FunctionCall(_, _, _, arguments, _)) => Some(arguments)
    case _ => None
  }

  /** What was last reported done at an output index. */
  function LastDone(trace: seq<Event<Item>>, i: nat): string {
    if trace == [] then ""
    else
      var e := trace[|trace| - 1];
      if e.index == i && DoneText(e).Some? then DoneText(e).value else LastDone(trace[..|trace| - 1], i)
  }

  lemma JoinedOne(s: string)
    ensures Joined([s]) == s
  {
    assert [s][1..] == [];
  }

  lemma {:induction false} NothingDoneYet(trace: seq<Event<Item>>, i: nat)
    requires Accepted(trace) && i >= |Replay(trace).value|
    ensures LastDone(trace, i) == ""
  {
    if trace == [] {
    } else {
      NothingDoneYet(trace[..|trace| - 1], i);
    }
  }

  /** The client keeps for every index what was last reported done there. */
  lemma {:induction false} StoredIsLastDone(trace: seq<Event<Item>>, i: nat)
    requires Accepted(trace) && i < |Replay(trace).value|
    ensures var slot := Replay(trace).value[i];
      && slot.stored == LastDone(trace, i) && (slot.item.Message? && slot.item.content == [] ==> slot.stored == "")
  {
    var front, e := trace[..|trace| - 1], trace[|trace| - 1];
    if i >= |Replay(front).value| {
      NothingDoneYet(front, i);
    } else {
      StoredIsLastDone(front, i);
      if e.index == i && e.ItemDone? && e.item.Message? {
        assert e.item.content == [e.item.content[0]];
        JoinedOne(e.item.content[0]);
      }
    }
  }

  /** An output item against the client's item and what was last reported done. */
  predicate ShowsLast(stored: Item, item: Item, last: string) {
    if item.Message? && item.content == [] then stored == item && last == "" else stored == WithText(item, last)
  }

  lemma OutputAt(c: Core, i: nat)
    requires Sound(c) && i < |c.output|
    ensures Accepted(c.trace) && i < |Replay(c.trace).value| && i < |c.owners|
    ensures ShowsLast(c.output[i], Replay(c.trace).value[i].item, LastDone(c.trace, i))
    ensures match c.owners[i]
            case Stream(s) => s in c.texts && c.texts[s].outputIndex == i
            case CallOf(callId) => callId in c.calls && c.calls[callId].outputIndex == i
  {
    assert Mirrors(Replay(c.trace).value, c.output, c.owners, c.texts, c.calls, i);
    StoredIsLastDone(c.trace, i);
  }

  /** The output item of a stream with the calls `h`, if `last` was last reported done of it. */
  predicate MessageShows(item: Item, s: string, h: seq<Op>, last: string)
    requires AllOn(h, s)
  {
    && h != [] && (PartStarted(h) || last == "")
    && item == Message(h[0].id, RoleOf(h[0]), if ClosedBy(h) then Completed else InProgress,
                       if PartStarted(h) then [last] else [])
  }

  /** The output item of a function call with the calls `h`. */
  predicate CallShows(item: Item, callId: string, h: seq<Op>, last: string)
    requires CallLog(h, callId)
  {
    h != [] && item == FunctionCall(h[0].id, callId, h[0].name, last,
                                    if h[|h| - 1].OpCallDone? then Completed else InProgress)
  }

  lemma MessageShown(c: Core, i: nat, s: string, h: seq<Op>)
    requires Sound(c) && i < |c.output| && i < |c.owners| && c.owners[i] == Stream(s)
    requires AllOn(h, s) && Fits(c, s, TaleOf(s, h))
    ensures MessageShows(c.output[i], s, h, LastDone(c.trace, i)) && PlaceOf(c, s) == i
  {
    OutputAt(c, i);
    StreamShown(c, s, TaleOf(s, h));
  }

  lemma CallItemShown(c: Core, i: nat, callId: string, h: seq<Op>)
    requires Sound(c) && i < |c.output| && i < |c.owners| && c.owners[i] == CallOf(callId)
    requires CallFits(c, callId, h)
    ensures CallShows(c.output[i], callId, h, LastDone(c.trace, i)) && CallPlaceOf(c, callId) == i
  {
    OutputAt(c, i);
    CallShown(c, callId, h);
  }

  /**
   The output holds a message for every stream and a function call for every call, at its position,
   with the text or arguments last reported done there: deltas since then are not in it.
   */
  lemma {:induction false} OutputShowsLastDone(ops: seq<Op>, i: nat)
    requires i < |Order(ops)|
    ensures |Run(ops).output| == |Order(ops)|
    ensures var w, item, last := Order(ops)[i], Run(ops).output[i], LastDone(Script(ops), i);
      && Position(Order(ops), w) == i
      && match w
         case Stream(s) => MessageShows(item, s, Heeded(ops, s), last)
         case CallOf(callId) => CallShows(item, callId, HeededCall(ops, callId), last)
  {
    var c := Run(ops);
    RunIsFaithful(ops);
    RunSound(ops);
    OutputInOrder(ops);
    match Order(ops)[i]
    case Stream(s) =>
      assert Fits(c, s, TaleOf(s, Heeded(ops, s)));
      MessageShown(c, i, s, Heeded(ops, s));
      StreamPosition(c, s);
    case CallOf(callId) =>
      assert CallFits(c, callId, HeededCall(ops, callId));
      CallItemShown(c, i, callId, HeededCall(ops, callId));
      CallPosition(c, callId);
  }

  /** The texts of the items that streams own. */
  function TextsOf(owners: seq<Owner>, texts: seq<string>): string
    requires |owners| == |texts|
  {
    if owners == [] then ""
    else
      var n := |owners| - 1;
      TextsOf(owners[..n], texts[..n]) + if owners[n].Stream? then texts[n] else ""
  }

  predicate ShowsText(item: Item, w: Owner, text: string) {
    item.Message? == w.Stream? && (item.Message? ==> Joined(item.content) == text)
  }

  lemma {:induction false} OutputTexts(output: seq<Item>, owners: seq<Owner>, texts: seq<string>)
    requires |output| == |owners| == |texts|
    requires forall i | 0 <= i < |output| :: ShowsText(output[i], owners[i], texts[i])
    ensures OutputText(output) == TextsOf(owners, texts)
  {
    if output == [] {
    } else {
      var n := |output| - 1;
      OutputTexts(output[..n], owners[..n], texts[..n]);
      assert ShowsText(output[n], owners[n], texts[n]);
    }
  }

  lemma ItemShowsText(ops: seq<Op>, i: nat)
    requires i < |Order(ops)| == |Run(ops).output|
    ensures ShowsText(Run(ops).output[i], Order(ops)[i], LastDone(Script(ops), i))
  {
    OutputShowsLastDone(ops, i);
    JoinedOne(LastDone(Script(ops), i));
  }

  /** The output text is what was last reported done of every message, in output order. */
  lemma OutputTextIsShown(ops: seq<Op>)
    ensures OutputText(Run(ops).output)
            == TextsOf(Order(ops), seq(|Order(ops)|, i requires i >= 0 => LastDone(Script(ops), i)))
  {
    OutputInOrder(ops);
    var output, texts := Run(ops).output, seq(|Order(ops)|, i requires i >= 0 => LastDone(Script(ops), i));
    forall i | 0 <= i < |output| ensures ShowsText(output[i], Order(ops)[i], texts[i]) {
      ItemShowsText(ops, i);
    }
    OutputTexts(output, Order(ops), texts);
  }

  // ---------------------------------------------------------------- the deltas reported

  function DeltasAt(trace: seq<Event<Item>>, i: nat): seq<string> {
    if trace == [] then []
    else
      var e := trace[|trace| - 1];
      DeltasAt(trace[..|trace| - 1], i) + if e.TextDelta? && e.index == i then [e.delta] else []
  }

  lemma {:induction false} DeltasAtConcat(a: seq<Event<Item>>, b: seq<Event<Item>>, i: nat)
    ensures DeltasAt(a + b, i) == DeltasAt(a, i) + DeltasAt(b, i)
  {
    if b == [] {
      assert a + b == a;
    } else {
      var front, e := b[..|b| - 1], b[|b| - 1];
      DeltasAtConcat(a, front, i);
      assert (a + b)[..|a + b| - 1] == a + front;
      Regroup(DeltasAt(a, i), DeltasAt(front, i), if e.TextDelta? && e.index == i then [e.delta] else []);
    }
  }

  predicate AllAt(trace: seq<Event<Item>>, i: nat) {
    forall k | 0 <= k < |trace| :: trace[k].index == i
  }

  lemma {:induction false} NoDeltasAt(trace: seq<Event<Item>>, i: nat)
    requires forall k | 0 <= k < |trace| && trace[k].TextDelta? :: trace[k].index != i
    ensures DeltasAt(trace, i) == []
  {
    if trace == [] {
    } else {
      NoDeltasAt(trace[..|trace| - 1], i);
    }
  }

  lemma SaidAt(i: nat, t: Tale, op: Op, r: Tale)
    ensures AllAt(Said(i, t, op, r), i)
  {
    assert AllAt(Opens(i, t, r), i) && AllAt(Ends(i, t, r), i);
  }

  lemma DeltasTold(i: nat, t: Tale, op: Op, r: Tale)
    ensures DeltasAt(Tells(i, t, op, r), i) == if op.OpTextDelta? then [op.delta] else []
  {
    var delta, ends := if op.OpTextDelta? then [TextDelta(i, r.id, 0, op.delta)] else [], Ends(i, t, r);
    NoDeltasAt(ends, i);
    DeltasAtConcat(delta, ends, i);
    if op.OpTextDelta? {
      assert delta[..0] == [];
    }
  }

  lemma DeltasSaid(i: nat, t: Tale, op: Op, r: Tale)
    ensures DeltasAt(Said(i, t, op, r), i) == if op.OpTextDelta? && !t.closed then [op.delta] else []
  {
    if !t.closed {
      NoDeltasAt(Opens(i, t, r), i);
      DeltasTold(i, t, op, r);
      DeltasAtConcat(Opens(i, t, r), Tells(i, t, op, r), i);
    }
  }

  /** What a call is called on. */
  function Target(op: Op): Owner
    requires !op.OpNothing?
  {
    if OnText(op) || op.OpFinishText? then Stream(op.s) else CallOf(op.callId)
  }

  lemma EventsAtTarget(ops: seq<Op>, op: Op)
    ensures op.OpNothing? ==> EventsOf(ops, op) == []
    ensures !op.OpNothing? ==> AllAt(EventsOf(ops, op), Position(Order(ops), Target(op)))
  {
    if OnText(op) || op.OpFinishText? {
      var h := Heeded(ops, op.s);
      TaleSnoc(op.s, h, op);
      SaidAt(Position(Order(ops), Stream(op.s)), TaleOf(op.s, h), op, TaleOf(op.s, Heed(h, op)));
    }
  }

  lemma {:induction false} PositionMeans(order: seq<Owner>, w: Owner)
    ensures if w in order then Position(order, w) < |order| && order[Position(order, w)] == w
            else Position(order, w) == |order|
  {
    if order == [] || order[0] == w {
    } else {
      PositionMeans(order[1..], w);
    }
  }

  lemma {:induction false} PositionSnoc(order: seq<Owner>, w: Owner, v: Owner)
    requires w in order || v == w
    ensures Position(order + [v], w) == Position(order, w)
  {
    if order == [] || order[0] == w {
    } else {
      assert (order + [v])[1..] == order[1..] + [v];
      PositionSnoc(order[1..], w, v);
    }
  }

  predicate Below(trace: seq<Event<Item>>, n: nat) {
    forall k | 0 <= k < |trace| :: trace[k].index < n
  }

  /** A call that opens nothing gives no events before its function call is opened. */
  lemma EventsNeedOpening(ops: seq<Op>, op: Op)
    requires EventsOf(ops, op) != []
    ensures !op.OpNothing? && Position(Order(ops), Target(op)) < |Order(ops + [op])|
  {
    OrderSnoc(ops, op);
    PositionMeans(Order(ops), Target(op));
    if Opener(op).None? {
      RunIsFaithful(ops);
      RunSound(ops);
      CallPosition(Run(ops), op.callId);
      assert CallFits(Run(ops), op.callId, HeededCall(ops, op.callId));
    }
  }

  lemma OneMoreBelow(ops: seq<Op>, op: Op)
    requires Below(Script(ops), |Order(ops)|)
    ensures Below(Script(ops + [op]), |Order(ops + [op])|)
  {
    OrderSnoc(ops, op);
    ScriptSnoc(ops, op);
    if EventsOf(ops, op) != [] {
      EventsNeedOpening(ops, op);
      EventsAtTarget(ops, op);
    }
  }

  lemma {:induction false} ScriptBelow(ops: seq<Op>)
    ensures Below(Script(ops), |Order(ops)|)
  {
    if ops == [] {
    } else {
      var front, op := ops[..|ops| - 1], ops[|ops| - 1];
      ScriptBelow(front);
      OneMoreBelow(front, op);
      assert front + [op] == ops;
    }
  }

  /** A stream is in the order exactly if it was called. */
  lemma InOrderIfCalled(ops: seq<Op>, s: string)
    ensures Stream(s) in Order(ops) <==> Heeded(ops, s) != []
  {
    RunIsFaithful(ops);
    RunSound(ops);
    assert Fits(Run(ops), s, TaleOf(s, Heeded(ops, s)));
    StreamPosition(Run(ops), s);
  }

  lemma DeltasOfOther(ops: seq<Op>, op: Op, s: string)
    requires Stream(s) in Order(ops) && !OnStream(op, s)
    ensures DeltasAt(EventsOf(ops, op), Position(Order(ops), Stream(s))) == []
  {
    EventsAtTarget(ops, op);
    PositionMeans(Order(ops), Stream(s));
    if !op.OpNothing? {
      PositionMeans(Order(ops), Target(op));
    }
    NoDeltasAt(EventsOf(ops, op), Position(Order(ops), Stream(s)));
  }

  lemma DeltasOfOwn(ops: seq<Op>, op: Op, s: string)
    requires OnStream(op, s)
    ensures DeltasIn(Heed(Heeded(ops, s), op))
            == DeltasIn(Heeded(ops, s)) + DeltasAt(EventsOf(ops, op), Position(Order(ops), Stream(s)))
  {
    var h, i := Heeded(ops, s), Position(Order(ops), Stream(s));
    TaleSnoc(s, h, op);
    DeltasSaid(i, TaleOf(s, h), op, TaleOf(s, Heed(h, op)));
    if !ClosedBy(h) {
      assert (h + [op])[..|h|] == h;
    }
  }

  /** The deltas at a place, after one more call. */
  lemma DeltasStep(ops: seq<Op>, op: Op, s: string)
    requires Stream(s) in Order(ops + [op])
    requires DeltasAt(Script(ops), Position(Order(ops), Stream(s))) == DeltasIn(Heeded(ops, s))
    ensures DeltasAt(Script(ops) + EventsOf(ops, op), Position(Order(ops), Stream(s)))
            == DeltasIn(Heeded(ops + [op], s))
  {
    HeedOther(ops, op, s);
    OrderSnoc(ops, op);
    DeltasAtConcat(Script(ops), EventsOf(ops, op), Position(Order(ops), Stream(s)));
    if OnStream(op, s) {
      DeltasOfOwn(ops, op, s);
    } else {
      DeltasOfOther(ops, op, s);
    }
  }

  /** A place once taken stays, and the first place taken is the one that was free. */
  lemma SamePlace(ops: seq<Op>, op: Op, w: Owner)
    requires w in Order(ops + [op])
    ensures Position(Order(ops + [op]), w) == Position(Order(ops), w)
  {
    OrderSnoc(ops, op);
    if Order(ops + [op]) != Order(ops) {
      PositionSnoc(Order(ops), w, Opener(op).value);
    }
  }

  lemma NothingBefore(ops: seq<Op>, s: string)
    requires Stream(s) !in Order(ops)
    ensures DeltasAt(Script(ops), Position(Order(ops), Stream(s))) == DeltasIn(Heeded(ops, s))
  {
    PositionMeans(Order(ops), Stream(s));
    ScriptBelow(ops);
    NoDeltasAt(Script(ops), |Order(ops)|);
    InOrderIfCalled(ops, s);
  }

  /** The deltas reported at a place, known or still free, are those passed for the stream. */
  predicate DeltasFit(ops: seq<Op>, s: string) {
    DeltasAt(Script(ops), Position(Order(ops), Stream(s))) == DeltasIn(Heeded(ops, s))
  }

  lemma DeltasFitAfter(ops: seq<Op>, op: Op, all: seq<Op>, s: string)
    requires all == ops + [op] && (Stream(s) in Order(ops) ==> DeltasFit(ops, s))
    ensures DeltasFit(all, s)
  {
    if Stream(s) !in Order(ops) {
      NothingBefore(ops, s);
    }
    if Stream(s) in Order(all) {
      DeltasStep(ops, op, s);
      SamePlace(ops, op, Stream(s));
      ScriptSnoc(ops, op);
    } else {
      NothingBefore(all, s);
    }
  }

  lemma {:induction false} DeltasFitAll(ops: seq<Op>, s: string)
    ensures DeltasFit(ops, s)
  {
    if ops == [] {
      NothingBefore(ops, s);
    } else {
      DeltasFitAll(ops[..|ops| - 1], s);
      DeltasFitAfter(ops[..|ops| - 1], ops[|ops| - 1], ops, s);
    }
  }

  /** The deltas reported at a stream's index are exactly those passed for it until its message is finished. */
  lemma DeltasAreReported(ops: seq<Op>, s: string)
    ensures DeltasAt(Script(ops), Position(Order(ops), Stream(s))) == DeltasIn(Heeded(ops, s))
  {
    DeltasFitAll(ops, s);
  }
}
