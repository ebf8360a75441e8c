/** The Anthropic Messages stream vocabulary and a client that rebuilds content
    blocks from it. The client is written from the protocol alone. It refuses
    every breach of block discipline and counts the departures the converters
    are known to allow, so that theorems can say exactly when they occur. */
module ClaudeProtocol {
  import opened Common

  datatype Kind = Text | Thinking | ToolUse(id: string, name: string)

  datatype Delta = TextDelta(text: string) | ThinkingDelta(text: string) | JsonDelta(text: string)

  datatype Counts = Counts(input: int, output: int, cacheRead: Option<int>, cacheWrite: Option<int>)

  datatype Event =
    | MessageStart(id: string, model: string, input: int)
    | BlockStart(index: nat, kind: Kind)
    | BlockDelta(index: nat, delta: Delta)
    | BlockStop(index: nat)
    | MessageDelta(reason: string, counts: Counts)
    | MessageStop

  /** One content block as rebuilt so far. */
  datatype Block = Block(kind: Kind, text: string, open: bool)

  /** `stray` counts argument deltas to a stopped call block, `late` block events
      after message_delta, `dangling` terminal events with a block still open,
      `early` events before the first message_start; `verdict` is the last
      message_delta. */
  datatype Client = Rejected
                  | Client(starts: nat, deltas: nat, stops: nat, verdict: Option<Event>, blocks: seq<Block>,
                           stray: nat, late: nat, dangling: nat, early: nat)

  const START := Client(0, 0, 0, None, [], 0, 0, 0, 0)

  predicate LastOpen(blocks: seq<Block>) {
    blocks != [] && blocks[|blocks| - 1].open
  }

  predicate Fits(kind: Kind, delta: Delta) {
    match delta
    case TextDelta(_) => kind.Text?
    case ThinkingDelta(_) => kind.Thinking?
    case JsonDelta(_) => kind.ToolUse?
  }

  function Bump(b: bool): nat { if b then 1 else 0 }

  /** Block-level effect of one event; None is a breach. Only the newest block
      is ever open, so a start, a delta and a stop all concern the newest one,
      except for the tolerated argument delta to a stopped call block. */
  function AcceptBlock(blocks: seq<Block>, e: Event): Option<seq<Block>> {
    match e
    case BlockStart(i, kind) =>
      if i == |blocks| && !LastOpen(blocks) then Some(blocks + [Block(kind, "", true)]) else None
    case BlockDelta(i, delta) =>
      if i < |blocks| && Fits(blocks[i].kind, delta) && (blocks[i].open || delta.JsonDelta?)
      then Some(blocks[i := blocks[i].(text := blocks[i].text + delta.text)]) else None
    case BlockStop(i) =>
      if i < |blocks| && blocks[i].open then Some(blocks[i := blocks[i].(open := false)]) else None
    case _ => Some(blocks)
  }

  function Accept(c: Client, e: Event): Client {
    if c.Rejected? then c
    else
      var blocks := AcceptBlock(c.blocks, e);
      if blocks.None? then Rejected
      else
        var onBlocks := e.BlockStart? || e.BlockDelta? || e.BlockStop?;
        Client(c.starts + Bump(e.MessageStart?), c.deltas + Bump(e.MessageDelta?), c.stops + Bump(e.MessageStop?),
               if e.MessageDelta? then Some(e) else c.verdict, blocks.value,
               c.stray + Bump(e.BlockDelta? && e.index < |c.blocks| && !c.blocks[e.index].open),
               c.late + Bump(onBlocks && c.deltas > 0),
               c.dangling + Bump((e.MessageDelta? || e.MessageStop?) && LastOpen(c.blocks)),
               c.early + Bump(!e.MessageStart? && c.starts == 0))
  }

  function Replay(log: seq<Event>): Client {
    if log == [] then START else Accept(Replay(log[..|log| - 1]), log[|log| - 1])
  }

  lemma {:induction false} ReplayAppend(log: seq<Event>, e: Event)
    ensures Replay(log + [e]) == Accept(Replay(log), e)
  {
    assert (log + [e])[..|log|] == log;
  }

  // ---- what acceptance means, in terms of the log alone ----

  function StartCount(log: seq<Event>, i: nat): nat {
    if log == [] then 0
    else StartCount(log[..|log| - 1], i) + Bump(log[|log| - 1].BlockStart? && log[|log| - 1].index == i)
  }

  function StopCount(log: seq<Event>, i: nat): nat {
    if log == [] then 0
    else StopCount(log[..|log| - 1], i) + Bump(log[|log| - 1].BlockStop? && log[|log| - 1].index == i)
  }

  function DeltaText(log: seq<Event>, i: nat): string {
    if log == [] then ""
    else
      var e := log[|log| - 1];
      DeltaText(log[..|log| - 1], i) + (if e.BlockDelta? && e.index == i then e.delta.text else "")
  }

  /** The indices of the block starts, in emission order. */
  function Starts(log: seq<Event>): seq<nat> {
    if log == [] then []
    else
      var e := log[|log| - 1];
      Starts(log[..|log| - 1]) + (if e.BlockStart? then [e.index] else [])
  }

  function UpTo(n: nat): (s: seq<nat>)
    ensures |s| == n && forall i :: 0 <= i < n ==> s[i] == i
  {
    if n == 0 then [] else UpTo(n - 1) + [n - 1]
  }

  ghost predicate OnlyLastOpen(blocks: seq<Block>) {
    forall i :: 0 <= i < |blocks| - 1 ==> !blocks[i].open
  }

  lemma {:induction false} BlockStep(blocks: seq<Block>, e: Event)
    requires OnlyLastOpen(blocks) && AcceptBlock(blocks, e).Some?
    ensures OnlyLastOpen(AcceptBlock(blocks, e).value)
    ensures |AcceptBlock(blocks, e).value| == |blocks| + Bump(e.BlockStart?)
    ensures e.BlockStart? ==> e.index == |blocks|
  {
  }

  /** Block starts carry 0, 1, 2, … and only the newest block can be open. */
  lemma {:induction false} AcceptedStartsInOrder(log: seq<Event>)
    requires Replay(log).Client?
    ensures Starts(log) == UpTo(|Replay(log).blocks|)
    ensures OnlyLastOpen(Replay(log).blocks)
  {
    hide AcceptBlock;
    if log == [] {
      assert Replay(log).blocks == [] && Starts(log) == UpTo(0);
    } else {
      var shorter, e := log[..|log| - 1], log[|log| - 1];
      AcceptedStartsInOrder(shorter);
      BlockStep(Replay(shorter).blocks, e);
      hide OnlyLastOpen;
    }
  }

  /** Each block was started once, stopped once unless it is still open, and
      holds exactly the deltas sent to it. */
  lemma {:induction false} AcceptedIsTallied(log: seq<Event>, i: nat)
    requires Replay(log).Client?
    ensures var blocks := Replay(log).blocks;
            && StartCount(log, i) == Bump(i < |blocks|)
            && StopCount(log, i) == Bump(i < |blocks| && !blocks[i].open)
            && (i < |blocks| ==> DeltaText(log, i) == blocks[i].text)
            && (i >= |blocks| ==> DeltaText(log, i) == "")
  {
    if log == [] {
    } else {
      AcceptedIsTallied(log[..|log| - 1], i);
    }
  }

  /** With nothing dangling at the end, every started block was stopped exactly once. */
  lemma {:induction false} DanglingIsOpen(log: seq<Event>)
    requires Replay(log).Client? && log != [] && log[|log| - 1].MessageStop?
    ensures Replay(log).dangling == 0 ==> forall i: nat :: StopCount(log, i) == StartCount(log, i)
  {
    AcceptedStartsInOrder(log);
    forall i: nat
      ensures Replay(log).dangling == 0 ==> StopCount(log, i) == StartCount(log, i)
    {
      AcceptedIsTallied(log, i);
    }
  }

  /** Nothing precedes message_start exactly when the log is empty or opens with it. */
  lemma {:induction false} EarlyIffNotFirst(log: seq<Event>)
    requires Replay(log).Client?
    ensures Replay(log).early == 0 <==> log == [] || log[0].MessageStart?
    ensures log != [] && log[0].MessageStart? ==> Replay(log).starts > 0
  {
    if log == [] {
    } else {
      var shorter := log[..|log| - 1];
      EarlyIffNotFirst(shorter);
      assert shorter != [] ==> shorter[0] == log[0];
    }
  }

  predicate IsMeta(e: Event) { e.MessageStart? || e.MessageDelta? || e.MessageStop? }

  /** The message-level events of a log. */
  function Meta(log: seq<Event>): seq<Event> {
    if log == [] then []
    else
      var e := log[|log| - 1];
      Meta(log[..|log| - 1]) + (if IsMeta(e) then [e] else [])
  }

  lemma {:induction false} MetaAppend(log: seq<Event>, e: Event)
    ensures Meta(log + [e]) == Meta(log) + (if IsMeta(e) then [e] else [])
  {
    assert (log + [e])[..|log|] == log;
  }
}
