/**
 What the calls on the responses state say, told without any state: which calls a stream or a
 function call still heeds, what text they leave, and which events each of them gives
 (openai-responses-state.ts). The state machine turns out to do exactly that.
 */
module ResponsesScript {
  import opened Options
  import opened Sequences
  import opened ResponsesTrace
  import opened ResponsesCore

  // ---------------------------------------------------------------- what the calls on a stream say

  predicate OnStream(op: Op, s: string) {
    (OnText(op) || op.OpFinishText?) && op.s == s
  }

  /** The call finishes the message. */
  predicate Closes(op: Op) {
    op.OpMessageDone? || op.OpFinishText?
  }

  /** The call says that the text is final, and perhaps what it is. */
  predicate TellsText(op: Op) {
    op.OpTextDone? || op.OpFinishText?
  }

  predicate TellsPart(op: Op) {
    op.OpPartDone? || op.OpFinishText?
  }

  predicate ClosedBy(h: seq<Op>) {
    h != [] && Closes(h[|h| - 1])
  }

  function Heed(h: seq<Op>, op: Op): seq<Op> {
    if ClosedBy(h) then h else h + [op]
  }

  predicate AllOn(h: seq<Op>, s: string) {
    forall k | 0 <= k < |h| :: OnStream(h[k], s)
  }

  /** The calls on a stream up to and including the one that finishes its message. */
  function Heeded(ops: seq<Op>, s: string): (h: seq<Op>)
    ensures AllOn(h, s)
  {
    if ops == [] then []
    else
      var h, op := Heeded(ops[..|ops| - 1], s), ops[|ops| - 1];
      if OnStream(op, s) then Heed(h, op) else h
  }

  function DeltasIn(h: seq<Op>): seq<string> {
    if h == [] then [] else DeltasIn(h[..|h| - 1]) + if h[|h| - 1].OpTextDelta? then [h[|h| - 1].delta] else []
  }

  /** The position of the first call that says the text is final. */
  function FirstTold(h: seq<Op>): (k: nat)
    ensures k <= |h| && (k < |h| ==> TellsText(h[k]))
    ensures forall j | 0 <= j < k :: !TellsText(h[j])
  {
    if h == [] then 0 else if TellsText(h[0]) then 0 else 1 + FirstTold(h[1..])
  }

  predicate TextTold(h: seq<Op>) {
    exists k :: 0 <= k < |h| && TellsText(h[k])
  }

  predicate PartTold(h: seq<Op>) {
    exists k :: 0 <= k < |h| && TellsPart(h[k])
  }

  /** All calls but the one that only opens the message start its text part. */
  predicate PartStarted(h: seq<Op>) {
    exists k :: 0 <= k < |h| && !h[k].OpMessage?
  }

  /** The text given by the call at `k`, if it gives one, followed by the deltas since; else all deltas. */
  function TextFrom(h: seq<Op>, k: nat): string
    requires k < |h| && TellsText(h[k])
  {
    if h[k].text.Some? then h[k].text.value + Joined(DeltasIn(h[k + 1..])) else Joined(DeltasIn(h))
  }

  /** The first call that says the text is final decides; without one the text is all deltas. */
  function TextLeft(h: seq<Op>): string {
    if TextTold(h) then TextFrom(h, FirstTold(h)) else Joined(DeltasIn(h))
  }

  /** Role and item id come with the first call. */
  function RoleOf(op: Op): string {
    if op.OpMessage? then op.role else "assistant"
  }

  /** All that the calls on a stream come to. */
  datatype Tale = Tale(known: bool, id: string, role: string, text: string, started: bool, told: bool,
                       partTold: bool, closed: bool)

  const BLANK := Tale(false, "", "", "", false, false, false, false)

  function TaleOf(s: string, h: seq<Op>): Tale
    requires AllOn(h, s)
  {
    if h == [] then BLANK
    else Tale(true, h[0].id, RoleOf(h[0]), TextLeft(h), PartStarted(h), TextTold(h), PartTold(h), ClosedBy(h))
  }

  // ---------------------------------------------------------------- one more call

  lemma {:induction false} DeltasConcat(a: seq<Op>, b: seq<Op>)
    ensures DeltasIn(a + b) == DeltasIn(a) + DeltasIn(b)
  {
    if b == [] {
      assert a + b == a;
    } else {
      var front, last := b[..|b| - 1], b[|b| - 1];
      DeltasConcat(a, front);
      assert (a + b)[..|a + b| - 1] == a + front;
      Regroup(DeltasIn(a), DeltasIn(front), if last.OpTextDelta? then [last.delta] else []);
    }
  }

  lemma DeltasSnoc(h: seq<Op>, op: Op)
    ensures Joined(DeltasIn(h + [op])) == Joined(DeltasIn(h)) + if op.OpTextDelta? then op.delta else ""
  {
    assert (h + [op])[..|h|] == h;
    if op.OpTextDelta? {
      JoinedSnoc(DeltasIn(h), op.delta);
    } else {
      assert DeltasIn(h) + [] == DeltasIn(h);
    }
  }

  lemma ToldSnoc(h: seq<Op>, op: Op)
    ensures FirstTold(h + [op]) == if TextTold(h) then FirstTold(h) else if TellsText(op) then |h| else |h| + 1
    ensures TextTold(h + [op]) <==> TextTold(h) || TellsText(op)
  {
    var r, k, j := h + [op], FirstTold(h), FirstTold(h + [op]);
    assert forall l | 0 <= l < |h| :: r[l] == h[l];
    assert r[|h|] == op;
    if TextTold(h) {
      assert k < |h| && TellsText(r[k]);
    } else if TellsText(op) {
      assert j >= |h|;
    }
  }

  lemma MarksSnoc(h: seq<Op>, op: Op)
    ensures PartTold(h + [op]) <==> PartTold(h) || TellsPart(op)
    ensures PartStarted(h + [op]) <==> PartStarted(h) || !op.OpMessage?
  {
    var r := h + [op];
    assert forall l | 0 <= l < |h| :: r[l] == h[l];
    assert r[|h|] == op;
  }

  /** What one more heeded call does to the text. */
  function NewText(text: string, told: bool, op: Op): string {
    if op.OpTextDelta? then text + op.delta
    else if TellsText(op) && !told then TextOr(op.text, text)
    else text
  }

  lemma TextFromSnoc(h: seq<Op>, op: Op, k: nat)
    requires k < |h| && TellsText(h[k])
    ensures TextFrom(h + [op], k) == TextFrom(h, k) + if op.OpTextDelta? then op.delta else ""
  {
    DeltasSnoc(h, op);
    var tail := h[k + 1..];
    assert (h + [op])[k] == h[k] && (h + [op])[k + 1..] == tail + [op];
    DeltasSnoc(tail, op);
    if h[k].text.Some? {
      Regroup(h[k].text.value, Joined(DeltasIn(tail)), if op.OpTextDelta? then op.delta else "");
    }
  }

  lemma NoneSince(text: string)
    ensures text + Joined(DeltasIn([])) == text
  {
  }

  lemma TextFromLast(h: seq<Op>, op: Op)
    requires TellsText(op)
    ensures TextFrom(h + [op], |h|) == TextOr(op.text, Joined(DeltasIn(h)))
  {
    var r := h + [op];
    assert r[|h|] == op && r[|h| + 1..] == [];
    if op.text.Some? {
      NoneSince(op.text.value);
    } else {
      DeltasSnoc(h, op);
    }
  }

  lemma TextSnoc(h: seq<Op>, op: Op)
    ensures TextLeft(h + [op]) == NewText(TextLeft(h), TextTold(h), op)
  {
    ToldSnoc(h, op);
    if TextTold(h) {
      TextFromSnoc(h, op, FirstTold(h));
    } else if TellsText(op) {
      TextFromLast(h, op);
    } else {
      DeltasSnoc(h, op);
    }
  }

  /** What one more call does to a tale. */
  function Next(t: Tale, s: string, op: Op): Tale
    requires OnStream(op, s)
  {
    if t.closed then t
    else
      Tale(true, if t.known then t.id else op.id, if t.known then t.role else RoleOf(op),
           NewText(t.text, t.told, op), t.started || !op.OpMessage?, t.told || TellsText(op),
           t.partTold || TellsPart(op), Closes(op))
  }

  lemma NothingSaid()
    ensures TextLeft([]) == "" && !TextTold([]) && !PartTold([]) && !PartStarted([])
  {
  }

  lemma TaleFirst(s: string, op: Op)
    requires OnStream(op, s)
    ensures AllOn([op], s) && TaleOf(s, [op]) == Next(BLANK, s, op)
  {
    NothingSaid();
    assert [] + [op] == [op];
    assert TextLeft([op]) == NewText("", false, op) by {
      TextSnoc([], op);
    }
    assert TextTold([op]) == TellsText(op) by {
      ToldSnoc([], op);
    }
    assert PartTold([op]) == TellsPart(op) && PartStarted([op]) == !op.OpMessage? by {
      MarksSnoc([], op);
    }
  }

  lemma TaleMore(s: string, h: seq<Op>, op: Op)
    requires h != [] && !ClosedBy(h) && AllOn(h, s) && OnStream(op, s)
    ensures AllOn(h + [op], s) && TaleOf(s, h + [op]) == Next(TaleOf(s, h), s, op)
  {
    var r := h + [op];
    assert r[0] == h[0] && r[|r| - 1] == op;
    assert TextLeft(r) == NewText(TextLeft(h), TextTold(h), op) by {
      TextSnoc(h, op);
    }
    assert TextTold(r) == (TextTold(h) || TellsText(op)) by {
      ToldSnoc(h, op);
    }
    assert PartTold(r) == (PartTold(h) || TellsPart(op)) && PartStarted(r) == (PartStarted(h) || !op.OpMessage?) by {
      MarksSnoc(h, op);
    }
  }

  lemma TaleSnoc(s: string, h: seq<Op>, op: Op)
    requires AllOn(h, s) && OnStream(op, s)
    ensures AllOn(Heed(h, op), s) && TaleOf(s, Heed(h, op)) == Next(TaleOf(s, h), s, op)
  {
    if h == [] {
      assert Heed(h, op) == [op];
      TaleFirst(s, op);
    } else if !ClosedBy(h) {
      TaleMore(s, h, op);
    }
  }

  // ---------------------------------------------------------------- the events of one call on a stream

  /** The events that open the item and its part, if this is new in the tale. */
  function Opens(i: nat, t: Tale, r: Tale): seq<Event<Item>> {
    (if !t.known then [ItemAdded(i, Message(r.id, r.role, InProgress, []))] else [])
    + (if r.started && !t.started then [PartAdded(i, r.id, 0, "")] else [])
  }

  /** What else is new in the tale. */
  function Ends(i: nat, t: Tale, r: Tale): seq<Event<Item>> {
    (if r.told && !t.told then [TextDone(i, r.id, 0, r.text)] else [])
    + (if r.partTold && !t.partTold then [PartDone(i, r.id, 0, r.text)] else [])
    + (if r.closed then [ItemDone(i, Message(r.id, r.role, Completed, [r.text]))] else [])
  }

  /** The delta, and what is finished. */
  function Tells(i: nat, t: Tale, op: Op, r: Tale): seq<Event<Item>> {
    (if op.OpTextDelta? then [TextDelta(i, r.id, 0, op.delta)] else []) + Ends(i, t, r)
  }

  /** The events of a call on a stream at place `i`, which takes its tale from `t` to `r`. */
  function Said(i: nat, t: Tale, op: Op, r: Tale): seq<Event<Item>> {
    if t.closed then [] else Opens(i, t, r) + Tells(i, t, op, r)
  }

  // ---------------------------------------------------------------- the state fits the tale

  /** The output item of a stream: of its text it may hold an older version. */
  predicate ItemFits(item: Item, t: Tale) {
    item.Message? && item == Message(t.id, t.role, if t.closed then Completed else InProgress, item.content)
    && |item.content| == Bit(t.started)
  }

  /** The stream's state and item are what its tale says. */
  predicate Fits(c: Core, s: string, t: Tale) {
    && t.known == (s in c.texts)
    && (t.known ==>
          var i := c.texts[s].outputIndex;
          && c.texts[s] == TextItem(i, t.id, 0, t.text, t.started, t.told, t.partTold, t.closed)
          && i < |c.output| && ItemFits(c.output[i], t))
    && (!t.known ==> t == BLANK) && (t.closed ==> t.started)
  }

  /** Where the stream's item is, or will be. */
  function PlaceOf(c: Core, s: string): nat {
    if s in c.texts then c.texts[s].outputIndex else |c.output|
  }

  /** The call has the effect on its stream that the script says. */
  predicate Follows(c: Core, s: string, t: Tale, op: Op, r: Core)
    requires OnStream(op, s)
  {
    && Fits(r, s, Next(t, s, op)) && PlaceOf(r, s) == PlaceOf(c, s)
    && r.trace == c.trace + Said(PlaceOf(c, s), t, op, Next(t, s, op))
  }

  lemma MessageFollows(c: Core, s: string, t: Tale, role: string, id: string)
    requires Fits(c, s, t)
    ensures Follows(c, s, t, OpMessage(s, role, id), EnsureMessage(c, s, role, id))
  {
  }

  lemma PartFollows(c: Core, s: string, t: Tale, id: string)
    requires Fits(c, s, t)
    ensures Follows(c, s, t, OpTextPart(s, id), EnsureTextPart(c, s, id))
  {
  }

  // Each of the other calls starts the part if need be and then does its own.

  lemma AlreadyStarted(c: Core, s: string, t: Tale, id: string)
    requires Fits(c, s, t) && t.started
    ensures EnsureTextPart(c, s, id) == c
  {
  }

  lemma SaidInTwo(i: nat, s: string, t: Tale, op: Op)
    requires OnStream(op, s) && !op.OpMessage? && !t.closed
    ensures var part := OpTextPart(s, op.id);
      var t1, r := Next(t, s, part), Next(t, s, op);
      Next(t1, s, op) == r && Said(i, t, part, t1) + Said(i, t1, op, r) == Said(i, t, op, r)
  {
    var part := OpTextPart(s, op.id);
    var t1, r := Next(t, s, part), Next(t, s, op);
    assert Tells(i, t, part, t1) == [] && Opens(i, t1, r) == [];
    assert Said(i, t, part, t1) == Opens(i, t, r);
    assert Said(i, t1, op, r) == Tells(i, t, op, r);
  }

  /** A call that first starts the part, taken in two. */
  lemma FollowsOn(c: Core, s: string, t: Tale, c1: Core, op: Op, r: Core)
    requires OnStream(op, s) && !op.OpMessage? && !t.closed
    requires var part := OpTextPart(s, op.id);
      Follows(c, s, t, part, c1) && Follows(c1, s, Next(t, s, part), op, r)
    ensures Follows(c, s, t, op, r)
  {
    var i, t1 := PlaceOf(c, s), Next(t, s, OpTextPart(s, op.id));
    SaidInTwo(i, s, t, op);
    Regroup(c.trace, Said(i, t, OpTextPart(s, op.id), t1), Said(i, t1, op, Next(t, s, op)));
  }

  lemma DeltaOnStarted(c: Core, s: string, t: Tale, delta: string, id: string)
    requires Fits(c, s, t) && t.started
    ensures Follows(c, s, t, OpTextDelta(s, delta, id), AppendTextDelta(c, s, delta, id))
  {
    AlreadyStarted(c, s, t, id);
  }

  lemma DeltaFollows(c: Core, s: string, t: Tale, delta: string, id: string)
    requires Fits(c, s, t)
    ensures Follows(c, s, t, OpTextDelta(s, delta, id), AppendTextDelta(c, s, delta, id))
  {
    if t.started {
      DeltaOnStarted(c, s, t, delta, id);
    } else {
      var c1, t1 := EnsureTextPart(c, s, id), Next(t, s, OpTextPart(s, id));
      PartFollows(c, s, t, id);
      AlreadyStarted(c1, s, t1, id);
      DeltaOnStarted(c1, s, t1, delta, id);
      FollowsOn(c, s, t, c1, OpTextDelta(s, delta, id), AppendTextDelta(c1, s, delta, id));
    }
  }

  lemma TextDoneOnStarted(c: Core, s: string, t: Tale, text: Option<string>, id: string)
    requires Fits(c, s, t) && t.started
    ensures Follows(c, s, t, OpTextDone(s, text, id), DoneOutputText(c, s, text, id))
  {
    AlreadyStarted(c, s, t, id);
  }

  lemma PartDoneOnStarted(c: Core, s: string, t: Tale, id: string)
    requires Fits(c, s, t) && t.started
    ensures Follows(c, s, t, OpPartDone(s, id), DoneContentPart(c, s, id))
  {
    AlreadyStarted(c, s, t, id);
  }

  lemma MessageDoneOnStarted(c: Core, s: string, t: Tale, id: string)
    requires Fits(c, s, t) && t.started
    ensures Follows(c, s, t, OpMessageDone(s, id), DoneMessageItem(c, s, id))
  {
    AlreadyStarted(c, s, t, id);
    if !t.closed {
      assert WithPart(c.output[c.texts[s].outputIndex], t.text).content == [t.text];
    }
  }

  lemma TextDoneFollows(c: Core, s: string, t: Tale, text: Option<string>, id: string)
    requires Fits(c, s, t)
    ensures Follows(c, s, t, OpTextDone(s, text, id), DoneOutputText(c, s, text, id))
  {
    if t.started {
      TextDoneOnStarted(c, s, t, text, id);
    } else {
      var c1, t1 := EnsureTextPart(c, s, id), Next(t, s, OpTextPart(s, id));
      PartFollows(c, s, t, id);
      AlreadyStarted(c1, s, t1, id);
      TextDoneOnStarted(c1, s, t1, text, id);
      FollowsOn(c, s, t, c1, OpTextDone(s, text, id), DoneOutputText(c1, s, text, id));
    }
  }

  lemma PartDoneFollows(c: Core, s: string, t: Tale, id: string)
    requires Fits(c, s, t)
    ensures Follows(c, s, t, OpPartDone(s, id), DoneContentPart(c, s, id))
  {
    if t.started {
      PartDoneOnStarted(c, s, t, id);
    } else {
      var c1, t1 := EnsureTextPart(c, s, id), Next(t, s, OpTextPart(s, id));
      PartFollows(c, s, t, id);
      AlreadyStarted(c1, s, t1, id);
      PartDoneOnStarted(c1, s, t1, id);
      FollowsOn(c, s, t, c1, OpPartDone(s, id), DoneContentPart(c1, s, id));
    }
  }

  lemma MessageDoneFollows(c: Core, s: string, t: Tale, id: string)
    requires Fits(c, s, t)
    ensures Follows(c, s, t, OpMessageDone(s, id), DoneMessageItem(c, s, id))
  {
    if t.started {
      MessageDoneOnStarted(c, s, t, id);
    } else {
      var c1, t1 := EnsureTextPart(c, s, id), Next(t, s, OpTextPart(s, id));
      PartFollows(c, s, t, id);
      AlreadyStarted(c1, s, t1, id);
      MessageDoneOnStarted(c1, s, t1, id);
      FollowsOn(c, s, t, c1, OpMessageDone(s, id), DoneMessageItem(c1, s, id));
    }
  }

  lemma SaidDone(i: nat, s: string, t: Tale, op: Op)
    requires OnStream(op, s) && t.known && t.started && !t.closed && (op.OpPartDone? || op.OpMessageDone?)
    ensures var r := Next(t, s, op);
      Said(i, t, op, r) == if op.OpMessageDone? then [ItemDone(i, Message(t.id, t.role, Completed, [t.text]))]
                           else if t.partTold then [] else [PartDone(i, t.id, 0, t.text)]
  {
  }

  lemma SaidFinish(i: nat, s: string, t: Tale, text: Option<string>, id: string)
    requires !t.closed
    ensures var r := Next(t, s, OpFinishText(s, text, id));
      Said(i, t, OpFinishText(s, text, id), r)
      == Said(i, t, OpTextDone(s, text, id), Next(t, s, OpTextDone(s, text, id)))
         + ((if t.partTold then [] else [PartDone(i, r.id, 0, r.text)])
            + [ItemDone(i, Message(r.id, r.role, Completed, [r.text]))])
  {
    var op, op1 := OpFinishText(s, text, id), OpTextDone(s, text, id);
    var r, t1 := Next(t, s, op), Next(t, s, op1);
    var told := if r.told && !t.told then [TextDone(i, r.id, 0, r.text)] else [];
    var part := if t.partTold then [] else [PartDone(i, r.id, 0, r.text)];
    var done := [ItemDone(i, Message(r.id, r.role, Completed, [r.text]))];
    assert Opens(i, t, t1) == Opens(i, t, r) && Tells(i, t, op1, t1) == told;
    assert Tells(i, t, op, r) == told + (part + done);
    Regroup(Opens(i, t, r), told, part + done);
  }

  /** finishText is the three done calls one after the other, and says what they say. */
  lemma FinishInThree(c: Core, s: string, t: Tale, c1: Core, c2: Core, r: Core, text: Option<string>, id: string)
    requires var op1, op2 := OpTextDone(s, text, id), OpPartDone(s, id);
      && Follows(c, s, t, op1, c1) && Follows(c1, s, Next(t, s, op1), op2, c2)
      && Follows(c2, s, Next(Next(t, s, op1), s, op2), OpMessageDone(s, id), r)
    ensures Follows(c, s, t, OpFinishText(s, text, id), r)
  {
    var op1, op2, op3 := OpTextDone(s, text, id), OpPartDone(s, id), OpMessageDone(s, id);
    var i, t1 := PlaceOf(c, s), Next(t, s, op1);
    var t2 := Next(t1, s, op2);
    if !t.closed {
      SaidDone(i, s, t1, op2);
      SaidDone(i, s, t2, op3);
      SaidFinish(i, s, t, text, id);
      var said1, said2, said3 := Said(i, t, op1, t1), Said(i, t1, op2, t2), Said(i, t2, op3, Next(t2, s, op3));
      Regroup(c.trace + said1, said2, said3);
      Regroup(c.trace, said1, said2 + said3);
    }
  }

  lemma FinishFollows(c: Core, s: string, t: Tale, text: Option<string>, id: string)
    requires Fits(c, s, t)
    ensures Follows(c, s, t, OpFinishText(s, text, id), FinishText(c, s, text, id))
  {
    var t1 := Next(t, s, OpTextDone(s, text, id));
    var t2 := Next(t1, s, OpPartDone(s, id));
    var c1 := DoneOutputText(c, s, text, id);
    var c2 := DoneContentPart(c1, s, id);
    TextDoneFollows(c, s, t, text, id);
    PartDoneFollows(c1, s, t1, id);
    MessageDoneFollows(c2, s, t2, id);
    FinishInThree(c, s, t, c1, c2, DoneMessageItem(c2, s, id), text, id);
  }

  // ---------------------------------------------------------------- what the calls on a function call say

  predicate OnCall(op: Op, callId: string) {
    (op.OpCall? || op.OpArgsDelta? || op.OpArgsDone? || op.OpCallDone?) && op.callId == callId
  }

  /** A function call is opened by its start; it heeds what comes then, up to what finishes it. */
  function HeedCall(h: seq<Op>, op: Op): seq<Op> {
    if h == [] then if op.OpCall? then [op] else []
    else if op.OpCall? || h[|h| - 1].OpCallDone? then h
    else h + [op]
  }

  predicate CallLog(h: seq<Op>, callId: string) {
    (h != [] ==> h[0].OpCall?) && forall k | 0 <= k < |h| :: OnCall(h[k], callId)
  }

  function HeededCall(ops: seq<Op>, callId: string): (h: seq<Op>)
    ensures CallLog(h, callId)
  {
    if ops == [] then []
    else
      var h, op := HeededCall(ops[..|ops| - 1], callId), ops[|ops| - 1];
      if OnCall(op, callId) then HeedCall(h, op) else h
  }

  /** The arguments the calls leave: those given last, followed by the deltas since. */
  function ArgsLeft(h: seq<Op>): string {
    if h == [] then ""
    else
      var last := h[|h| - 1];
      if last.OpArgsDone? || last.OpCallDone? then last.args
      else ArgsLeft(h[..|h| - 1]) + if last.OpArgsDelta? then last.delta else ""
  }

  /** What the state must hold for a function call whose calls were `h`. */
  function CallState(i: nat, h: seq<Op>): Call
    requires h != [] && h[0].OpCall?
  {
    Call(i, h[0].id, h[0].name, ArgsLeft(h), h[|h| - 1].OpCallDone?)
  }

  /** The events of a call on a function call at place `i`. */
  function CallSaid(i: nat, h: seq<Op>, op: Op): seq<Event<Item>>
    requires h != [] ==> h[0].OpCall?
  {
    if h == [] then
      if op.OpCall? then [ItemAdded(i, FunctionCall(op.id, op.callId, op.name, "", InProgress))] else []
    else if h[|h| - 1].OpCallDone? then []
    else
      match op
      case OpArgsDelta(_, delta) => [ArgsDelta(i, h[0].id, delta)]
      case OpArgsDone(_, args, name) => [ArgsDone(i, h[0].id, TextOr(name, h[0].name), args)]
      case OpCallDone(callId, args) => [ItemDone(i, FunctionCall(h[0].id, callId, h[0].name, args, Completed))]
      case _ => []
  }

  /** The state of a function call is what its calls `h` say. */
  ghost predicate CallFits(c: Core, callId: string, h: seq<Op>) {
    && CallLog(h, callId) && (h == [] <==> callId !in c.calls)
    && (h != [] ==> c.calls[callId] == CallState(c.calls[callId].outputIndex, h))
  }

  function CallPlaceOf(c: Core, callId: string): nat {
    if callId in c.calls then c.calls[callId].outputIndex else |c.output|
  }

  ghost predicate CallFollows(c: Core, callId: string, h: seq<Op>, op: Op, r: Core)
    requires CallLog(h, callId) && OnCall(op, callId)
  {
    && CallFits(r, callId, HeedCall(h, op))
    && (HeedCall(h, op) != [] ==> CallPlaceOf(r, callId) == CallPlaceOf(c, callId))
    && r.trace == c.trace + CallSaid(CallPlaceOf(c, callId), h, op)
  }

  lemma CallStateSnoc(i: nat, callId: string, h: seq<Op>, op: Op)
    requires h != [] && CallLog(h, callId) && OnCall(op, callId) && !h[|h| - 1].OpCallDone? && !op.OpCall?
    ensures CallLog(h + [op], callId)
    ensures var st := CallState(i, h);
      CallState(i, h + [op])
      == st.(args := if op.OpArgsDelta? then st.args + op.delta else op.args, done := op.OpCallDone?)
  {
    assert (h + [op])[..|h|] == h && (h + [op])[0] == h[0];
  }

  lemma StartFollows(c: Core, callId: string, h: seq<Op>, name: string, id: string)
    requires CallFits(c, callId, h)
    ensures CallFollows(c, callId, h, OpCall(callId, name, id), StartFunctionCall(c, callId, name, id))
  {
    if h == [] {
      assert ArgsLeft([OpCall(callId, name, id)]) == "";
    } else {
      assert c.trace + [] == c.trace;
    }
  }

  lemma ArgsDeltaFollows(c: Core, callId: string, h: seq<Op>, delta: string)
    requires CallFits(c, callId, h)
    ensures CallFollows(c, callId, h, OpArgsDelta(callId, delta), AppendFunctionCallArgs(c, callId, delta))
  {
    if h == [] || h[|h| - 1].OpCallDone? {
      assert c.trace + [] == c.trace;
    } else {
      CallStateSnoc(c.calls[callId].outputIndex, callId, h, OpArgsDelta(callId, delta));
    }
  }

  lemma ArgsDoneFollows(c: Core, callId: string, h: seq<Op>, args: string, name: Option<string>)
    requires CallFits(c, callId, h)
    ensures CallFollows(c, callId, h, OpArgsDone(callId, args, name), FinishFunctionCallArgs(c, callId, args, name))
  {
    if h == [] || h[|h| - 1].OpCallDone? {
      assert c.trace + [] == c.trace;
    } else {
      CallStateSnoc(c.calls[callId].outputIndex, callId, h, OpArgsDone(callId, args, name));
    }
  }

  lemma CallDoneFollows(c: Core, callId: string, h: seq<Op>, args: string)
    requires Sound(c) && CallFits(c, callId, h)
    ensures CallFollows(c, callId, h, OpCallDone(callId, args), FinishFunctionCall(c, callId, args))
  {
    if h == [] || h[|h| - 1].OpCallDone? {
      assert c.trace + [] == c.trace;
    } else {
      CallSlot(c, callId);
      CallStateSnoc(c.calls[callId].outputIndex, callId, h, OpCallDone(callId, args));
    }
  }

  // ---------------------------------------------------------------- nobody else is touched

  /** A call on stream `u` opens it if need be, and leaves stream `s` and the item at `j` alone. */
  predicate Elsewhere(c: Core, r: Core, u: string, s: string, j: nat) {
    && r.calls == c.calls && r.owners == (if u in c.texts then c.owners else c.owners + [Stream(u)])
    && u in r.texts && PlaceOf(r, u) == PlaceOf(c, u) && |r.output| >= |c.output|
    && (s != u ==> (s in r.texts <==> s in c.texts) && (s in c.texts ==> r.texts[s] == c.texts[s]))
    && (j < |c.output| && j != PlaceOf(c, u) ==> r.output[j] == c.output[j])
  }

  lemma ElsewhereOn(c: Core, c1: Core, r: Core, u: string, s: string, j: nat)
    requires Elsewhere(c, c1, u, s, j) && Elsewhere(c1, r, u, s, j)
    ensures Elsewhere(c, r, u, s, j)
  {
  }

  lemma PartElsewhere(c: Core, u: string, id: string, s: string, j: nat)
    ensures Elsewhere(c, EnsureTextPart(c, u, id), u, s, j)
  {
  }

  lemma DeltaElsewhere(c: Core, u: string, delta: string, id: string, s: string, j: nat)
    ensures Elsewhere(c, AppendTextDelta(c, u, delta, id), u, s, j)
  {
    PartElsewhere(c, u, id, s, j);
  }

  lemma TextDoneElsewhere(c: Core, u: string, text: Option<string>, id: string, s: string, j: nat)
    ensures Elsewhere(c, DoneOutputText(c, u, text, id), u, s, j)
  {
    PartElsewhere(c, u, id, s, j);
  }

  lemma PartDoneElsewhere(c: Core, u: string, id: string, s: string, j: nat)
    ensures Elsewhere(c, DoneContentPart(c, u, id), u, s, j)
  {
    PartElsewhere(c, u, id, s, j);
  }

  lemma MessageDoneElsewhere(c: Core, u: string, id: string, s: string, j: nat)
    ensures Elsewhere(c, DoneMessageItem(c, u, id), u, s, j)
  {
    PartElsewhere(c, u, id, s, j);
  }

  lemma FinishElsewhere(c: Core, u: string, text: Option<string>, id: string, s: string, j: nat)
    ensures Elsewhere(c, FinishText(c, u, text, id), u, s, j)
  {
    var c1 := DoneOutputText(c, u, text, id);
    var c2 := DoneContentPart(c1, u, id);
    TextDoneElsewhere(c, u, text, id, s, j);
    PartDoneElsewhere(c1, u, id, s, j);
    MessageDoneElsewhere(c2, u, id, s, j);
    ElsewhereOn(c, c1, c2, u, s, j);
    ElsewhereOn(c, c2, DoneMessageItem(c2, u, id), u, s, j);
  }

  lemma FinishOnStream(c: Core, u: string, text: Option<string>, id: string, t: Tale, s: string, j: nat)
    requires Fits(c, u, t)
    ensures var op := OpFinishText(u, text, id);
      Follows(c, u, t, op, Step(c, op)) && Elsewhere(c, Step(c, op), u, s, j)
  {
    StepFinishes(c, u, text, id);
    FinishFollows(c, u, t, text, id);
    FinishElsewhere(c, u, text, id, s, j);
  }

  /** One call on stream `u`: what it does there, and what it leaves alone. */
  lemma StepOnStream(c: Core, op: Op, u: string, t: Tale, s: string, j: nat)
    requires OnStream(op, u) && Fits(c, u, t)
    ensures Follows(c, u, t, op, Step(c, op)) && Elsewhere(c, Step(c, op), u, s, j)
  {
    match op
    case OpMessage(_, role, id) => MessageFollows(c, u, t, role, id);
    case OpTextPart(_, id) =>
      PartFollows(c, u, t, id);
      PartElsewhere(c, u, id, s, j);
    case OpTextDelta(_, delta, id) =>
      DeltaFollows(c, u, t, delta, id);
      DeltaElsewhere(c, u, delta, id, s, j);
    case OpTextDone(_, text, id) =>
      TextDoneFollows(c, u, t, text, id);
      TextDoneElsewhere(c, u, text, id, s, j);
    case OpPartDone(_, id) =>
      PartDoneFollows(c, u, t, id);
      PartDoneElsewhere(c, u, id, s, j);
    case OpMessageDone(_, id) =>
      MessageDoneFollows(c, u, t, id);
      MessageDoneElsewhere(c, u, id, s, j);
    case OpFinishText(_, text, id) => FinishOnStream(c, u, text, id, t, s, j);
  }

  /** A call on function call `callId` opens it if it starts it, and leaves call `d` and the item at `j` alone. */
  predicate CallElsewhere(c: Core, op: Op, r: Core, callId: string, d: string, j: nat) {
    && r.texts == c.texts && |r.output| >= |c.output|
    && r.owners == (if callId in c.calls || !op.OpCall? then c.owners else c.owners + [CallOf(callId)])
    && (d != callId ==> (d in r.calls <==> d in c.calls) && (d in c.calls ==> r.calls[d] == c.calls[d]))
    && (j < |c.output| && j != CallPlaceOf(c, callId) ==> r.output[j] == c.output[j])
  }

  /** What one call on function call `callId` leaves alone. */
  lemma StepBesideCall(c: Core, op: Op, callId: string, d: string, j: nat)
    requires OnCall(op, callId)
    ensures CallElsewhere(c, op, Step(c, op), callId, d, j)
  {
  }

  /** And what it does there. */
  lemma StepOnCall(c: Core, op: Op, callId: string, h: seq<Op>)
    requires OnCall(op, callId) && Sound(c) && CallFits(c, callId, h)
    ensures CallFollows(c, callId, h, op, Step(c, op))
  {
    match op
    case OpCall(_, name, id) => StartFollows(c, callId, h, name, id);
    case OpArgsDelta(_, delta) => ArgsDeltaFollows(c, callId, h, delta);
    case OpArgsDone(_, args, name) => ArgsDoneFollows(c, callId, h, args, name);
    case OpCallDone(_, args) => CallDoneFollows(c, callId, h, args);
  }
}
