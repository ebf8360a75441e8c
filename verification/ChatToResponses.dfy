/** The Chat Completions -> Responses leg of the stream converter
    (internal/adapter/chatcompletions/stream.go) as a state machine: one
    function per Go method, each mapping the converter before to the converter
    after. `log` collects the events in emission order. */
module ChatToResponses {
  import opened Common
  import opened ToolNames
  import opened ChatChunks
  import opened ResponsesProtocol

  /** One upstream tool_calls index. */
  datatype Tool = Tool(blockIndex: nat, id: string, name: string, args: string, announced: bool, custom: bool,
                       argsSent: nat, identity: Identity, responseDone: bool)

  datatype Conv = Conv(
    started: bool, id: string, model: string, nextIndex: nat,
    msgIndex: int, msgItemID: ItemId, textPartOpen: bool, textClosed: bool, respText: string,
    thinkIndexIn: int, thinkItemID: ItemId, thinkSeen: bool, thinkStopped: bool, thinkBuf: string, reasonOrdinal: nat,
    tools: map<int, Tool>, toolOrder: seq<int>,
    usage: Option<Usage>, finished: bool, heldFinish: string, terminalSent: bool, flushed: bool, done: bool,
    responseItems: map<nat, Item>, respSequence: nat, log: seq<Event>)

  /** Converter parameters: the JSON layer and the request's tool declarations. */
  datatype Env = Env(json: Json, tools: ToolContext)

  const FRESH := Conv(false, "", "", 0, -1, MessageId("", 0), false, false, "",
                      -1, ReasoningId("", 0), false, false, "", 0, map[], [],
                      None, false, "", false, false, false, map[], 0, [])

  type Outcome = Result<Conv, StreamError>

  function Emit(sc: Conv, b: Body): Conv {
    sc.(respSequence := sc.respSequence + 1, log := sc.log + [Event(sc.respSequence + 1, b)])
  }

  predicate ThinkOpen(sc: Conv) { sc.thinkSeen && !sc.thinkStopped }

  predicate TextOpen(sc: Conv) { sc.msgIndex >= 0 && !sc.textClosed }

  function AsIndex(i: int): nat { if i < 0 then 0 else i }

  function StopReasoning(sc: Conv): Conv {
    if !ThinkOpen(sc) then sc
    else
      var i := AsIndex(sc.thinkIndexIn);
      var item := Reasoning(sc.thinkItemID, sc.thinkBuf);
      var s1 := sc.(thinkStopped := true, responseItems := sc.responseItems[i := item]);
      var s2 := Emit(s1, TextDone(sc.thinkItemID, i, sc.thinkBuf));
      var s3 := Emit(s2, PartDone(sc.thinkItemID, i, sc.thinkBuf));
      Emit(s3, ItemDone(i, item))
  }

  function CloseText(sc: Conv, status: string): Conv {
    if !TextOpen(sc) then sc
    else
      var i := AsIndex(sc.msgIndex);
      var item := Message(sc.msgItemID, status, sc.respText);
      var s1 := sc.(textClosed := true, responseItems := sc.responseItems[i := item]);
      var s2 := Emit(s1, TextDone(sc.msgItemID, i, sc.respText));
      var s3 := Emit(s2, PartDone(sc.msgItemID, i, sc.respText));
      Emit(s3, ItemDone(i, item))
  }

  /** A stopped reasoning item makes room for the next one. */
  function ResetReasoning(sc: Conv): Conv {
    if sc.thinkStopped
    then sc.(thinkStopped := false, thinkSeen := false, thinkBuf := "", reasonOrdinal := sc.reasonOrdinal + 1)
    else sc
  }

  function BeginReasoning(sc: Conv): Conv {
    sc.(thinkSeen := true, thinkIndexIn := sc.nextIndex, nextIndex := sc.nextIndex + 1,
        thinkItemID := ReasoningId(sc.id, sc.reasonOrdinal))
  }

  function AddReasoning(sc: Conv): Conv {
    var s1 := BeginReasoning(sc);
    Emit(Emit(s1, ItemAdded(sc.nextIndex, ReasoningShell(s1.thinkItemID))), PartAdded(s1.thinkItemID, sc.nextIndex))
  }

  /** A thinking fragment opens a reasoning item unless one is open. */
  function OpenReasoning(sc: Conv): Conv {
    var s1 := ResetReasoning(sc);
    if s1.thinkSeen then s1 else AddReasoning(s1)
  }

  function TakeReasoning(sc: Conv, thinking: string): Conv {
    var s1 := OpenReasoning(CloseText(sc, "completed"));
    Emit(s1.(thinkBuf := s1.thinkBuf + thinking), TextDelta(s1.thinkItemID, AsIndex(s1.thinkIndexIn), thinking))
  }

  function AddMessage(sc: Conv): Conv {
    var id := MessageId(sc.id, sc.nextIndex);
    Emit(sc.(msgIndex := sc.nextIndex, nextIndex := sc.nextIndex + 1, msgItemID := id, textClosed := false,
             textPartOpen := false, respText := ""),
         ItemAdded(sc.nextIndex, MessageShell(id)))
  }

  function AddTextPart(sc: Conv): Conv {
    Emit(sc.(textPartOpen := true), PartAdded(sc.msgItemID, AsIndex(sc.msgIndex)))
  }

  function OpenText(sc: Conv): Conv {
    var s1 := if TextOpen(sc) then sc else AddMessage(sc);
    if s1.textPartOpen then s1 else AddTextPart(s1)
  }

  function TakeContent(sc: Conv, content: string): Conv {
    var s1 := OpenText(StopReasoning(sc));
    Emit(s1.(respText := s1.respText + content), TextDelta(s1.msgItemID, AsIndex(s1.msgIndex), content))
  }

  // ---- tool calls ----

  /** How a streamed name chunk extends what is known of the name. */
  function MergeName(name: string, piece: string): string {
    if name == "" then piece
    else if piece == name then name
    else if name <= piece then piece
    else name + piece
  }

  function OutputName(t: Tool): string { if t.identity.name != "" then t.identity.name else t.name }

  function ToolShell(t: Tool): Shell {
    if t.custom then CustomShell(t.id, OutputName(t), t.identity.namespace)
    else FunctionShell(t.id, OutputName(t), t.identity.namespace)
  }

  function Absorb(t: Tool, tc: ToolDelta): Tool {
    t.(id := if tc.id != "" && !t.announced && t.id == "" then tc.id else t.id,
       name := if tc.name != "" && !t.announced then MergeName(t.name, tc.name) else t.name,
       args := t.args + tc.args)
  }

  /** Announce as soon as the name is exact or can no longer become one. */
  function Resolve(ctx: ToolContext, t: Tool): Tool {
    var kind := ClassifyStreamedName(ctx, t.name);
    if !t.announced && t.name != "" && !kind.Wait? then
      var known := ResolveChatName(ctx, t.name);
      t.(identity := if known.Some? then known.value else t.identity,
         custom := kind.Exact? && kind.kind == "custom", announced := true)
    else t
  }

  function Sent(t: Tool): Tool { if t.announced && !t.custom then t.(argsSent := |t.args|) else t }

  /** Argument bytes received but not yet streamed. */
  function FlushArgs(sc: Conv, before: Tool, after: Tool): Conv {
    if after.announced && !after.custom && before.argsSent < |after.args|
    then Emit(sc, ArgsDelta(after.id, after.blockIndex, after.args[before.argsSent..]))
    else sc
  }

  function OpenTool(sc: Conv, tc: ToolDelta): Conv {
    if tc.index in sc.tools then sc
    else sc.(tools := sc.tools[tc.index := Tool(sc.nextIndex, tc.id, "", "", false, false, 0, NO_IDENTITY, false)],
             nextIndex := sc.nextIndex + 1, toolOrder := sc.toolOrder + [tc.index])
  }

  function TakeTool(env: Env, sc: Conv, tc: ToolDelta): Outcome {
    var s1 := CloseText(StopReasoning(sc), "completed");
    if tc.index in s1.tools && s1.tools[tc.index].responseDone && tc.args != "" then Err(ArgumentsAfterCompletion)
    else
      var s2 := OpenTool(s1, tc);
      var before := s2.tools[tc.index];
      var after := Sent(Resolve(env.tools, Absorb(before, tc)));
      var s3 := s2.(tools := s2.tools[tc.index := after]);
      var s4 := if after.announced && !before.announced then Emit(s3, ItemAdded(after.blockIndex, ToolShell(after))) else s3;
      Ok(FlushArgs(s4, before, after))
  }

  function TakeTools(env: Env, sc: Conv, deltas: seq<ToolDelta>): Outcome
    decreases |deltas|
  {
    if deltas == [] then Ok(sc)
    else
      var s1 :- TakeTool(env, sc, deltas[0]);
      TakeTools(env, s1, deltas[1..])
  }

  // ---- finish_reason ----

  /** An unresolved name at finish is kept, conservatively, as a function. */
  function FinishTool(env: Env, sc: Conv, index: int): Outcome {
    if index !in sc.tools then Ok(sc) else
    var before := sc.tools[index];
    var after := Sent(before.(announced := true));
    if after.custom && env.json.unwrap(after.args).None? then Err(BadCustomInput)
    else if !after.custom && !env.json.valid(DefaultArgs(after.args)) then Err(IncompleteArguments)
    else
      var s1 := sc.(tools := sc.tools[index := after]);
      var s2 := if !before.announced then Emit(s1, ItemAdded(after.blockIndex, FunctionShell(after.id, after.name, ""))) else s1;
      Ok(FlushArgs(s2, before, after))
  }

  function FinishTools(env: Env, sc: Conv, order: seq<int>): Outcome
    decreases |order|
  {
    if order == [] then Ok(sc)
    else
      var s1 :- FinishTool(env, sc, order[0]);
      FinishTools(env, s1, order[1..])
  }

  function Finish(env: Env, sc: Conv, finish: string): Outcome {
    var s1 :- FinishTools(env, sc, sc.toolOrder);
    Ok(StopReasoning(s1.(finished := true, heldFinish := finish)))
  }

  // ---- terminal ----

  /** closeResponseTools for one call: skipped when done, unannounced or not valid JSON. */
  function CloseTool(env: Env, sc: Conv, index: int): Outcome {
    if index !in sc.tools then Ok(sc) else
    var t := sc.tools[index];
    if t.responseDone || !t.announced then Ok(sc)
    else if t.custom then
      var input := env.json.unwrap(t.args);
      if input.None? then Err(BadCustomInput)
      else
        var item := CustomCall(t.id, OutputName(t), t.identity.namespace, input.value);
        Ok(Emit(Emit(Closing(sc, index, item), InputDone(t.id, t.blockIndex, input.value)), ItemDone(t.blockIndex, item)))
    else if !env.json.valid(DefaultArgs(t.args)) then Ok(sc)
    else
      var item := FunctionCall(t.id, OutputName(t), t.identity.namespace, DefaultArgs(t.args));
      Ok(Emit(Emit(Closing(sc, index, item), ArgsDone(t.id, t.blockIndex, DefaultArgs(t.args))), ItemDone(t.blockIndex, item)))
  }

  function Closing(sc: Conv, index: int, item: Item): Conv
    requires index in sc.tools
  {
    sc.(tools := sc.tools[index := sc.tools[index].(responseDone := true)],
        responseItems := sc.responseItems[sc.tools[index].blockIndex := item])
  }

  function CloseTools(env: Env, sc: Conv, order: seq<int>): Outcome
    decreases |order|
  {
    if order == [] then Ok(sc)
    else
      var s1 :- CloseTool(env, sc, order[0]);
      CloseTools(env, s1, order[1..])
  }

  function StatusOf(finish: string): string { if finish == "length" then "incomplete" else "completed" }

  /** The stored items below `n`, in index order. */
  function Output(items: map<nat, Item>, n: nat): seq<Item> {
    if n == 0 then [] else Output(items, n - 1) + (if n - 1 in items then [items[n - 1]] else [])
  }

  /** Close everything and emit response.completed, unless a call is left open. */
  function Complete(env: Env, sc: Conv, status: string): Outcome {
    var s1 := CloseText(StopReasoning(sc), status);
    var s2 :- CloseTools(env, s1, s1.toolOrder);
    if exists i :: i in s2.toolOrder && i in s2.tools && !s2.tools[i].responseDone then Err(IncompleteTool)
    else Ok(Emit(s2.(terminalSent := true), Completed(s2.id, s2.model, status, s2.usage, Output(s2.responseItems, s2.nextIndex))))
  }

  function Terminal(env: Env, sc: Conv, allowSynthetic: bool): Outcome {
    if sc.terminalSent then Ok(sc)
    else
      var s0 := sc.(heldFinish := "");
      if sc.heldFinish == "" && !allowSynthetic then Ok(s0)
      else if sc.heldFinish == "" && !sc.started then Err(EmptyStream)
      else Complete(env, s0, StatusOf(if sc.heldFinish == "" then "stop" else sc.heldFinish))
  }

  // ---- one chunk, one line ----

  /** The first chunk with choices binds the identity and opens the response. */
  function Start(sc: Conv, chunk: Chunk): Conv {
    if sc.started || chunk.choices == [] then sc
    else Emit(Emit(sc.(started := true, id := chunk.id, model := chunk.model), Created(chunk.id, chunk.model)), InProgress(chunk.id, chunk.model))
  }

  /** The thinking and the text of a choice. */
  function Speak(sc: Conv, choice: Choice): Conv {
    var s1 := if choice.reasoning.Some? then TakeReasoning(sc, choice.reasoning.value) else sc;
    if choice.content != "" then TakeContent(s1, choice.content) else s1
  }

  function TakeChoice(env: Env, sc: Conv, choice: Choice): Outcome {
    var s3 :- TakeTools(env, Speak(sc, choice), choice.toolCalls);
    if choice.finish != "" && !s3.finished then Finish(env, s3, choice.finish) else Ok(s3)
  }

  function TakeChunk(env: Env, sc: Conv, chunk: Chunk): Outcome {
    var s0 := sc.(usage := if chunk.usage.Some? then chunk.usage else sc.usage);
    var s1 :- if sc.heldFinish != "" then Terminal(env, s0, false) else Ok(s0);
    var s2 := Start(s1, chunk);
    if chunk.choices == [] then Ok(s2) else TakeChoice(env, s2, chunk.choices[0])
  }

  /** End of input without [DONE]; one-shot. */
  function FlushEnd(env: Env, sc: Conv): Outcome {
    if sc.flushed then Ok(sc) else Terminal(env, sc.(flushed := true), true)
  }

  /** [DONE] closes the stream with a synthesized finish when none was held. */
  function TakeDone(env: Env, sc: Conv): Outcome {
    var s1 :- Terminal(env, StopReasoning(sc), true);
    Ok(s1.(done := true))
  }
}
