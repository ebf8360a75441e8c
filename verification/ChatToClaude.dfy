/** The Chat Completions -> Anthropic Messages leg of the stream converter
    (internal/adapter/chatcompletions/stream.go) as a state machine. `Desk` is
    the part that opens and closes content blocks; `log` collects the events. */
module ChatToClaude {
  import opened Common
  import opened ChatChunks
  import opened ClaudeProtocol

  /** One upstream tool_calls index. */
  datatype Call = Call(blockIndex: nat, id: string, name: string, args: string, stopped: bool)

  datatype Desk = Desk(thinkOpen: bool, thinkIndex: nat, textOpen: bool, textIndex: nat, nextIndex: nat,
                       tools: map<int, Call>, toolOrder: seq<int>, toolsSeen: bool, log: seq<Event>)

  /** The stream snapshot flags the pump reads. */
  datatype Flags = Flags(started: bool, finishSeen: bool, doneSeen: bool, terminalSeen: bool)

  datatype Conv = Conv(desk: Desk, started: bool, usage: Option<Usage>, finished: bool, heldFinish: string,
                       terminalSent: bool, flushed: bool, done: bool, flags: Flags)

  const BLANK := Desk(false, 0, false, 0, 0, map[], [], false, [])
  const FRESH := Conv(BLANK, false, None, false, "", false, false, false, Flags(false, false, false, false))

  type Outcome = Result<Conv, StreamError>

  function Emit(d: Desk, e: Event): Desk { d.(log := d.log + [e]) }

  // ---- closing ----

  function StopThinking(d: Desk): Desk {
    if d.thinkOpen then Emit(d.(thinkOpen := false), BlockStop(d.thinkIndex)) else d
  }

  function StopText(d: Desk): Desk {
    if d.textOpen then Emit(d.(textOpen := false), BlockStop(d.textIndex)) else d
  }

  function StopCall(d: Desk, k: int): Desk {
    if k in d.tools && !d.tools[k].stopped
    then Emit(d.(tools := d.tools[k := d.tools[k].(stopped := true)]), BlockStop(d.tools[k].blockIndex))
    else d
  }

  function StopCalls(d: Desk, order: seq<int>): Desk
    decreases |order|
  {
    if order == [] then d else StopCalls(StopCall(d, order[0]), order[1..])
  }

  /** Close whatever is open: thinking, text, then calls in arrival order. */
  function StopBlocks(d: Desk): Desk {
    StopCalls(StopText(StopThinking(d)), d.toolOrder)
  }

  // ---- opening and writing ----

  function OpenThinking(d: Desk): Desk {
    Emit(d.(thinkOpen := true, thinkIndex := d.nextIndex, nextIndex := d.nextIndex + 1), BlockStart(d.nextIndex, Thinking))
  }

  function Think(d: Desk, text: string): Desk {
    var d1 := if d.thinkOpen then d else OpenThinking(StopBlocks(d));
    Emit(d1, BlockDelta(d1.thinkIndex, ThinkingDelta(text)))
  }

  function OpenText(d: Desk): Desk {
    Emit(d.(textOpen := true, textIndex := d.nextIndex, nextIndex := d.nextIndex + 1), BlockStart(d.nextIndex, Text))
  }

  function Say(d: Desk, text: string): Desk {
    var d1 := if d.textOpen then d else OpenText(StopBlocks(d));
    Emit(d1, BlockDelta(d1.textIndex, TextDelta(text)))
  }

  function OpenCall(d: Desk, tc: ToolDelta): Desk {
    Emit(d.(tools := d.tools[tc.index := Call(d.nextIndex, tc.id, tc.name, "", false)], toolOrder := d.toolOrder + [tc.index],
            toolsSeen := true, nextIndex := d.nextIndex + 1),
         BlockStart(d.nextIndex, ToolUse(tc.id, tc.name)))
  }

  function WriteArgs(d: Desk, tc: ToolDelta): Desk
    requires tc.index in d.tools
  {
    var t := d.tools[tc.index];
    if tc.args == "" then d
    else Emit(d.(tools := d.tools[tc.index := t.(args := t.args + tc.args)]), BlockDelta(t.blockIndex, JsonDelta(tc.args)))
  }

  function TakeFragment(d: Desk, tc: ToolDelta): Desk {
    WriteArgs(if tc.index in d.tools then d else OpenCall(StopBlocks(d), tc), tc)
  }

  function TakeFragments(d: Desk, deltas: seq<ToolDelta>): Desk
    decreases |deltas|
  {
    if deltas == [] then d else TakeFragments(TakeFragment(d, deltas[0]), deltas[1..])
  }

  // ---- chunks ----

  /** The mapped stop reason; observed calls outrank it. */
  function StopReason(finish: string): string {
    if finish == "tool_calls" then "tool_use"
    else if finish == "length" then "max_tokens"
    else if finish == "content_filter" then "refusal"
    else "end_turn"
  }

  function ClampSubtract(value: int, part: Option<int>): int {
    var rest := if part.Some? then value - part.value else value;
    if rest < 0 then 0 else rest
  }

  function CountsOf(usage: Option<Usage>): Counts {
    if usage.None? then Counts(0, 0, None, None)
    else Counts(ClampSubtract(usage.value.prompt, usage.value.cached), usage.value.completion, usage.value.cached, None)
  }

  /** The held message_delta, once. */
  function Terminal(sc: Conv): Conv {
    if sc.heldFinish == "" then sc
    else
      var reason := if sc.desk.toolsSeen then "tool_use" else StopReason(sc.heldFinish);
      sc.(heldFinish := "", terminalSent := true, desk := Emit(sc.desk, MessageDelta(reason, CountsOf(sc.usage))))
  }

  function Start(sc: Conv, chunk: Chunk): Conv {
    if sc.started || chunk.choices == [] then sc
    else
      var input := if chunk.usage.Some? then chunk.usage.value.prompt else 0;
      sc.(started := true, desk := Emit(sc.desk, MessageStart(chunk.id, chunk.model, input)))
  }

  function Write(d: Desk, choice: Choice): Desk {
    var d1 := if choice.reasoning.Some? then Think(d, choice.reasoning.value) else d;
    var d2 := if choice.content != "" then Say(d1, choice.content) else d1;
    TakeFragments(d2, choice.toolCalls)
  }

  function TakeChoice(sc: Conv, choice: Choice): Conv {
    var s1 := sc.(desk := Write(sc.desk, choice), flags := sc.flags.(finishSeen := sc.flags.finishSeen || choice.finish != ""));
    if choice.finish != "" && !sc.finished
    then s1.(finished := true, heldFinish := choice.finish, desk := StopBlocks(s1.desk))
    else s1
  }

  function TakeChunk(sc: Conv, chunk: Chunk): Conv {
    var s0 := sc.(usage := if chunk.usage.Some? then chunk.usage else sc.usage,
                  flags := if chunk.choices != [] then sc.flags.(started := true) else sc.flags);
    var s1 := Start(Terminal(s0), chunk);
    if chunk.choices == [] then s1 else TakeChoice(s1, chunk.choices[0])
  }

  // ---- the end ----

  /** Are the accumulated arguments of every call complete JSON? */
  predicate ArgumentsComplete(json: Json, d: Desk) {
    forall k :: k in d.toolOrder && k in d.tools ==> json.valid(DefaultArgs(d.tools[k].args))
  }

  function TakeDone(json: Json, sc: Conv): Outcome {
    if !ArgumentsComplete(json, sc.desk) then Err(IncompleteArguments)
    else
      var s1 := Terminal(sc.(done := true, flags := sc.flags.(doneSeen := true, terminalSeen := true), desk := StopBlocks(sc.desk)));
      Ok(s1.(desk := Emit(s1.desk, MessageStop)))
  }

  /** Close without [DONE]: nothing unless a finish_reason was seen. */
  function Flush(sc: Conv): Conv {
    if sc.flushed then sc
    else
      var s0 := sc.(flushed := true);
      if s0.heldFinish == "" && !s0.terminalSent then s0
      else
        var s1 := Terminal(s0);
        s1.(desk := Emit(s1.desk, MessageStop))
  }

  function Finalize(json: Json, sc: Conv): Outcome {
    if sc.flags.terminalSeen then Ok(sc)
    else if !sc.flags.finishSeen then Err(NoFinishReason)
    else if !ArgumentsComplete(json, sc.desk) then Err(IncompleteArguments)
    else
      var s1 := Flush(sc);
      Ok(s1.(flags := s1.flags.(terminalSeen := true)))
  }

  function TakeLine(json: Json, sc: Conv, line: string): Outcome {
    match Classify(line)
    case Ignored => Ok(sc)
    case Done => TakeDone(json, sc)
    case Payload(data) =>
      var chunk :- json.decode(data);
      Ok(TakeChunk(sc, chunk))
  }
}
