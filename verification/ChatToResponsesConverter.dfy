/** The stream converter for Responses clients as the mutable object it is in
    internal/adapter/chatcompletions/stream.go. Every method is proved against
    the state machine of ChatToResponses; `State` is the abstraction. */
module ChatToResponsesConverter {
  import opened Common
  import opened ToolNames
  import opened ChatChunks
  import opened ResponsesProtocol
  import opened ChatToResponses
  import opened LineFeed

  /** One data line. */
  function TakeLine(env: Env, sc: Conv, line: string): ChatToResponses.Outcome {
    match Classify(line)
    case Ignored => Ok(sc)
    case Done => TakeDone(env, sc)
    case Payload(data) =>
      var chunk :- env.json.decode(data);
      TakeChunk(env, sc, chunk)
  }

  function LineHandler(env: Env): Handler<Conv, StreamError> {
    Handler((sc: Conv, line: string) => TakeLine(env, sc, line), (sc: Conv) => sc.done)
  }

  class StreamConverter {
    const env: Env
    var lineBuf: string
    var done: bool
    var started: bool
    var id: string
    var model: string
    var nextIndex: nat
    var msgIndex: int
    var thinkItemID: ItemId
    var thinkIndexIn: int
    var thinkStopped: bool
    var thinkSeen: bool
    var thinkBuf: string
    var tools: map<int, Tool>
    var toolOrder: seq<int>
    var usage: Option<Usage>
    var finished: bool
    var heldFinish: string
    var terminalSent: bool
    var flushed: bool
    var respText: string
    var respSequence: nat
    var msgItemID: ItemId
    var textPartOpen: bool
    var textClosed: bool
    var responseItems: map<nat, Item>
    var reasonOrdinal: nat
    ghost var log: seq<Event>

    ghost function State(): Conv
      reads this
    {
      Conv(started, id, model, nextIndex, msgIndex, msgItemID, textPartOpen, textClosed, respText,
           thinkIndexIn, thinkItemID, thinkSeen, thinkStopped, thinkBuf, reasonOrdinal,
           tools, toolOrder, usage, finished, heldFinish, terminalSent, flushed, done,
           responseItems, respSequence, log)
    }

    constructor (env: Env)
      ensures this.env == env && State() == FRESH && lineBuf == ""
    {
      this.env := env;
      lineBuf, done, started, id, model := "", false, false, "", "";
      nextIndex, msgIndex, msgItemID, textPartOpen, textClosed, respText := 0, -1, MessageId("", 0), false, false, "";
      thinkIndexIn, thinkItemID, thinkSeen, thinkStopped := -1, ReasoningId("", 0), false, false;
      thinkBuf, reasonOrdinal, tools, toolOrder, usage := "", 0, map[], [], None;
      finished, heldFinish, terminalSent, flushed := false, "", false, false;
      responseItems, respSequence, log := map[], 0, [];
    }

    method Send(b: Body) returns (event: Event)
      modifies `respSequence, `log
      ensures State() == Emit(old(State()), b) && log == old(log) + [event]
    {
      respSequence := respSequence + 1;
      event := Event(respSequence, b);
      log := log + [event];
    }

    method StopReasoning() returns (events: seq<Event>)
      modifies this
      ensures State() == ChatToResponses.StopReasoning(old(State()))
      ensures log == old(log) + events && lineBuf == old(lineBuf)
    {
      if !thinkSeen || thinkStopped {
        return [];
      }
      hide Emit;
      thinkStopped := true;
      var i := AsIndex(thinkIndexIn);
      var item := Reasoning(thinkItemID, thinkBuf);
      responseItems := responseItems[i := item];
      assert State() == old(State()).(thinkStopped := true, responseItems := responseItems);
      var e1 := Send(TextDone(thinkItemID, i, thinkBuf));
      var e2 := Send(PartDone(thinkItemID, i, thinkBuf));
      var e3 := Send(ItemDone(i, item));
      events := [e1, e2, e3];
    }

    method CloseResponseText(status: string) returns (events: seq<Event>)
      modifies this
      ensures State() == CloseText(old(State()), status)
      ensures log == old(log) + events && lineBuf == old(lineBuf)
    {
      if msgIndex < 0 || textClosed {
        return [];
      }
      hide Emit;
      textClosed := true;
      var i := AsIndex(msgIndex);
      var item := Message(msgItemID, status, respText);
      responseItems := responseItems[i := item];
      assert State() == old(State()).(textClosed := true, responseItems := responseItems);
      var e1 := Send(TextDone(msgItemID, i, respText));
      var e2 := Send(PartDone(msgItemID, i, respText));
      var e3 := Send(ItemDone(i, item));
      events := [e1, e2, e3];
    }

    method TakeReasoning(thinking: string) returns (events: seq<Event>)
      modifies this
      ensures State() == ChatToResponses.TakeReasoning(old(State()), thinking)
      ensures log == old(log) + events && lineBuf == old(lineBuf)
    {
      hide Emit, CloseText, ChatToResponses.OpenReasoning;
      events := CloseResponseText("completed");
      var opening := OpenReasoning();
      thinkBuf := thinkBuf + thinking;
      var e := Send(TextDelta(thinkItemID, AsIndex(thinkIndexIn), thinking));
      events := events + opening + [e];
    }

    method ResetReasoning()
      modifies this
      ensures State() == ChatToResponses.ResetReasoning(old(State()))
      ensures log == old(log) && lineBuf == old(lineBuf)
    {
      if thinkStopped {
        thinkStopped, thinkSeen, thinkBuf := false, false, "";
        reasonOrdinal := reasonOrdinal + 1;
      }
    }

    /** Allocate the next output index. */
    method ClaimIndex() returns (n: nat)
      modifies `nextIndex
      ensures n == old(nextIndex) && State() == old(State()).(nextIndex := n + 1)
    {
      n := nextIndex;
      nextIndex := n + 1;
    }

    method NameReasoning(item: ItemId)
      modifies `thinkSeen, `thinkItemID
      ensures State() == old(State()).(thinkSeen := true, thinkItemID := item)
    {
      thinkSeen, thinkItemID := true, item;
    }

    method BeginReasoning() returns (n: nat)
      modifies `thinkSeen, `thinkIndexIn, `thinkItemID, `nextIndex
      ensures n == old(nextIndex) && State() == ChatToResponses.BeginReasoning(old(State()))
    {
      n := ClaimIndex();
      thinkIndexIn := n;
      NameReasoning(ReasoningId(id, reasonOrdinal));
    }

    method AddReasoning() returns (events: seq<Event>)
      modifies this
      ensures State() == ChatToResponses.AddReasoning(old(State()))
      ensures log == old(log) + events && lineBuf == old(lineBuf)
    {
      hide Emit, ChatToResponses.BeginReasoning;
      var n := BeginReasoning();
      var e1 := Send(ItemAdded(n, ReasoningShell(thinkItemID)));
      var e2 := Send(PartAdded(thinkItemID, n));
      events := [e1, e2];
    }

    method OpenReasoning() returns (events: seq<Event>)
      modifies this
      ensures State() == ChatToResponses.OpenReasoning(old(State()))
      ensures log == old(log) + events && lineBuf == old(lineBuf)
    {
      hide ChatToResponses.ResetReasoning, ChatToResponses.AddReasoning;
      ResetReasoning();
      if thinkSeen {
        return [];
      }
      events := AddReasoning();
    }

    method TakeContent(content: string) returns (events: seq<Event>)
      modifies this
      ensures State() == ChatToResponses.TakeContent(old(State()), content)
      ensures log == old(log) + events && lineBuf == old(lineBuf)
    {
      hide Emit, ChatToResponses.StopReasoning, ChatToResponses.OpenText;
      events := StopReasoning();
      var opening := OpenText();
      respText := respText + content;
      var e := Send(TextDelta(msgItemID, AsIndex(msgIndex), content));
      events := events + opening + [e];
    }

    method BeginMessage(n: nat, item: ItemId)
      modifies `msgIndex, `msgItemID
      ensures State() == old(State()).(msgIndex := n, msgItemID := item)
    {
      msgIndex, msgItemID := n, item;
    }

    method ClearText()
      modifies `textPartOpen, `respText
      ensures State() == old(State()).(textPartOpen := false, respText := "")
    {
      textPartOpen, respText := false, "";
    }

    method BlankText()
      modifies `textClosed, `textPartOpen, `respText
      ensures State() == old(State()).(textClosed := false, textPartOpen := false, respText := "")
    {
      textClosed := false;
      ClearText();
    }

    method AddMessage() returns (events: seq<Event>)
      modifies this
      ensures State() == ChatToResponses.AddMessage(old(State()))
      ensures log == old(log) + events && lineBuf == old(lineBuf)
    {
      hide Emit;
      var n := ClaimIndex();
      var item := MessageId(id, n);
      BeginMessage(n, item);
      BlankText();
      var e := Send(ItemAdded(n, MessageShell(item)));
      events := [e];
    }

    method AddTextPart() returns (events: seq<Event>)
      modifies this
      ensures State() == ChatToResponses.AddTextPart(old(State()))
      ensures log == old(log) + events && lineBuf == old(lineBuf)
    {
      hide Emit;
      textPartOpen := true;
      var e := Send(PartAdded(msgItemID, AsIndex(msgIndex)));
      events := [e];
    }

    method OpenText() returns (events: seq<Event>)
      modifies this
      ensures State() == ChatToResponses.OpenText(old(State()))
      ensures log == old(log) + events && lineBuf == old(lineBuf)
    {
      hide ChatToResponses.AddMessage, ChatToResponses.AddTextPart;
      events := [];
      if msgIndex < 0 || textClosed {
        events := AddMessage();
      }
      if !textPartOpen {
        var part := AddTextPart();
        events := events + part;
      }
    }

    method OpenTool(tc: ToolDelta)
      modifies this
      ensures State() == ChatToResponses.OpenTool(old(State()), tc)
      ensures log == old(log) && lineBuf == old(lineBuf)
    {
      if tc.index !in tools {
        tools := tools[tc.index := Tool(nextIndex, tc.id, "", "", false, false, 0, NO_IDENTITY, false)];
        nextIndex := nextIndex + 1;
        toolOrder := toolOrder + [tc.index];
      }
    }

    /** A call ends whatever thinking or text is open. */
    method CloseSpeech() returns (events: seq<Event>)
      modifies this
      ensures State() == CloseText(ChatToResponses.StopReasoning(old(State())), "completed")
      ensures log == old(log) + events && lineBuf == old(lineBuf)
    {
      hide Emit, ChatToResponses.StopReasoning, CloseText;
      events := StopReasoning();
      var closing := CloseResponseText("completed");
      events := events + closing;
    }

    method TakeTool(tc: ToolDelta) returns (events: seq<Event>, error: Option<StreamError>)
      modifies this
      ensures Reports(ChatToResponses.TakeTool(env, old(State()), tc), error, State())
      ensures error.None? ==> log == old(log) + events && lineBuf == old(lineBuf)
    {
      hide Emit, FlushArgs, ChatToResponses.StopReasoning, CloseText, Resolve, Absorb, ToolShell, ChatToResponses.OpenTool, Sent;
      error := None;
      events := CloseSpeech();
      if tc.index in tools && tools[tc.index].responseDone && tc.args != "" {
        return [], Some(ArgumentsAfterCompletion);
      }
      OpenTool(tc);
      OpenToolHas(old(State()), tc);
      var before := tools[tc.index];
      var after := Sent(Resolve(env.tools, Absorb(before, tc)));
      StoreTool(tc.index, after);
      var announcing := Announce(before, after, ToolShell(after));
      var owed := Flush(before, after);
      events := events + announcing + owed;
    }

    method StoreTool(index: int, t: Tool)
      modifies `tools
      ensures State() == old(State()).(tools := old(tools)[index := t])
    {
      tools := tools[index := t];
    }

    method Announce(before: Tool, after: Tool, shell: Shell) returns (events: seq<Event>)
      modifies this
      ensures State() == (if after.announced && !before.announced then Emit(old(State()), ItemAdded(after.blockIndex, shell)) else old(State()))
      ensures log == old(log) + events && lineBuf == old(lineBuf) && tools == old(tools)
    {
      hide Emit;
      events := [];
      if after.announced && !before.announced {
        var e := Send(ItemAdded(after.blockIndex, shell));
        events := [e];
      }
    }

    /** Stream the argument bytes received but not yet sent. */
    method Flush(before: Tool, after: Tool) returns (events: seq<Event>)
      modifies this
      ensures State() == FlushArgs(old(State()), before, after)
      ensures log == old(log) + events && lineBuf == old(lineBuf) && tools == old(tools)
    {
      hide Emit;
      events := [];
      if after.announced && !after.custom && before.argsSent < |after.args| {
        var e := Send(ArgsDelta(after.id, after.blockIndex, after.args[before.argsSent..]));
        events := [e];
      }
    }

    method TakeTools(deltas: seq<ToolDelta>) returns (events: seq<Event>, error: Option<StreamError>)
      modifies this
      ensures Reports(ChatToResponses.TakeTools(env, old(State()), deltas), error, State())
      ensures error.None? ==> log == old(log) + events && lineBuf == old(lineBuf)
    {
      hide ChatToResponses.TakeTool;
      events, error := [], None;
      for i := 0 to |deltas|
        invariant ChatToResponses.TakeTools(env, old(State()), deltas) == ChatToResponses.TakeTools(env, State(), deltas[i..])
        invariant log == old(log) + events && lineBuf == old(lineBuf)
      {
        var more, failed := TakeTool(deltas[i]);
        if failed.Some? {
          return [], failed;
        }
        events := events + more;
        assert deltas[i..][1..] == deltas[i + 1..];
      }
    }

    // ---- finish_reason ----

    method FinishTool(index: int) returns (events: seq<Event>, error: Option<StreamError>)
      modifies this
      ensures Reports(ChatToResponses.FinishTool(env, old(State()), index), error, State())
      ensures error.None? ==> log == old(log) + events && lineBuf == old(lineBuf)
    {
      hide Emit, FlushArgs, Sent;
      events, error := [], None;
      if index !in tools {
        return;
      }
      var before := tools[index];
      var after := Sent(before.(announced := true));
      StoreTool(index, after);
      var announcing := Announce(before, after, FunctionShell(after.id, after.name, ""));
      SentAnnounced(before);
      if after.custom && env.json.unwrap(after.args).None? {
        return [], Some(BadCustomInput);
      }
      var owed := Flush(before, after);
      if !after.custom && !env.json.valid(DefaultArgs(after.args)) {
        return [], Some(IncompleteArguments);
      }
      events := announcing + owed;
    }

    method FinishTools() returns (events: seq<Event>, error: Option<StreamError>)
      modifies this
      ensures Reports(ChatToResponses.FinishTools(env, old(State()), old(toolOrder)), error, State())
      ensures error.None? ==> log == old(log) + events && lineBuf == old(lineBuf)
    {
      hide ChatToResponses.FinishTool;
      events, error := [], None;
      var order := toolOrder;
      for i := 0 to |order|
        invariant ChatToResponses.FinishTools(env, old(State()), order) == ChatToResponses.FinishTools(env, State(), order[i..])
        invariant log == old(log) + events && lineBuf == old(lineBuf)
      {
        var more, failed := FinishTool(order[i]);
        if failed.Some? {
          return [], failed;
        }
        events := events + more;
        assert order[i..][1..] == order[i + 1..];
      }
    }

    method Finish(finish: string) returns (events: seq<Event>, error: Option<StreamError>)
      modifies this
      ensures Reports(ChatToResponses.Finish(env, old(State()), finish), error, State())
      ensures error.None? ==> log == old(log) + events && lineBuf == old(lineBuf)
    {
      hide ChatToResponses.FinishTools, ChatToResponses.StopReasoning;
      events, error := FinishTools();
      if error.Some? {
        return [], error;
      }
      finished, heldFinish := true, finish;
      var stopping := StopReasoning();
      events := events + stopping;
    }

    // ---- terminal ----

    method CloseTool(index: int) returns (events: seq<Event>, error: Option<StreamError>)
      modifies this
      ensures Reports(ChatToResponses.CloseTool(env, old(State()), index), error, State())
      ensures error.None? ==> log == old(log) + events && lineBuf == old(lineBuf)
    {
      hide Emit, OutputName;
      events, error := [], None;
      if index !in tools || tools[index].responseDone || !tools[index].announced {
        return;
      }
      var t := tools[index];
      if t.custom {
        var input := env.json.unwrap(t.args);
        if input.None? {
          return [], Some(BadCustomInput);
        }
        var item := CustomCall(t.id, OutputName(t), t.identity.namespace, input.value);
        Store(index, item);
        var e1 := Send(InputDone(t.id, t.blockIndex, input.value));
        var e2 := Send(ItemDone(t.blockIndex, item));
        events := [e1, e2];
      } else if env.json.valid(DefaultArgs(t.args)) {
        var item := FunctionCall(t.id, OutputName(t), t.identity.namespace, DefaultArgs(t.args));
        Store(index, item);
        var e1 := Send(ArgsDone(t.id, t.blockIndex, DefaultArgs(t.args)));
        var e2 := Send(ItemDone(t.blockIndex, item));
        events := [e1, e2];
      }
    }

    /** Mark a call done and keep its finished item for response.completed. */
    method Store(index: int, item: Item)
      requires index in tools
      modifies `tools, `responseItems
      ensures State() == Closing(old(State()), index, item)
    {
      responseItems := responseItems[tools[index].blockIndex := item];
      tools := tools[index := tools[index].(responseDone := true)];
    }

    method CloseResponseTools() returns (events: seq<Event>, error: Option<StreamError>)
      modifies this
      ensures Reports(CloseTools(env, old(State()), old(toolOrder)), error, State())
      ensures error.None? ==> log == old(log) + events && lineBuf == old(lineBuf)
    {
      hide ChatToResponses.CloseTool;
      events, error := [], None;
      var order := toolOrder;
      for i := 0 to |order|
        invariant CloseTools(env, old(State()), order) == CloseTools(env, State(), order[i..])
        invariant log == old(log) + events && lineBuf == old(lineBuf)
      {
        var more, failed := CloseTool(order[i]);
        if failed.Some? {
          return [], failed;
        }
        events := events + more;
        assert order[i..][1..] == order[i + 1..];
      }
    }

    /** Is some mentioned call still without its done event? */
    method SomeToolOpen() returns (b: bool)
      ensures b <==> exists i :: i in toolOrder && i in tools && !tools[i].responseDone
    {
      for n := 0 to |toolOrder|
        invariant forall m :: 0 <= m < n && toolOrder[m] in tools ==> tools[toolOrder[m]].responseDone
      {
        var k := toolOrder[n];
        if k in tools && !tools[k].responseDone {
          assert k in toolOrder && k in tools && !tools[k].responseDone;
          b := true;
          return;
        }
      }
      return false;
    }

    /** The finished items below nextIndex, in index order. */
    method CollectOutput() returns (output: seq<Item>)
      ensures output == Output(responseItems, nextIndex)
    {
      output := [];
      for i := 0 to nextIndex
        invariant output == Output(responseItems, i)
      {
        if i in responseItems {
          output := output + [responseItems[i]];
        }
      }
    }

    method Complete(status: string) returns (events: seq<Event>, error: Option<StreamError>)
      modifies this
      ensures Reports(ChatToResponses.Complete(env, old(State()), status), error, State())
      ensures error.None? ==> log == old(log) + events && lineBuf == old(lineBuf)
    {
      hide Emit, ChatToResponses.StopReasoning, CloseText, CloseTools, Output;
      error := None;
      events := StopReasoning();
      var closing := CloseResponseText(status);
      var calls, failed := CloseResponseTools();
      if failed.Some? {
        return [], failed;
      }
      var open := SomeToolOpen();
      if open {
        return [], Some(IncompleteTool);
      }
      var e := Finalize(status);
      events := events + closing + calls + [e];
    }

    method Finalize(status: string) returns (event: Event)
      modifies `terminalSent, `respSequence, `log
      ensures var s := old(State());
              State() == Emit(s.(terminalSent := true), Completed(s.id, s.model, status, s.usage, Output(s.responseItems, s.nextIndex)))
      ensures log == old(log) + [event]
    {
      hide Emit, Output;
      var output := CollectOutput();
      terminalSent := true;
      event := Send(Completed(id, model, status, usage, output));
    }

    method ResponsesTerminal(allowSynthetic: bool) returns (events: seq<Event>, error: Option<StreamError>)
      modifies this
      ensures Reports(Terminal(env, old(State()), allowSynthetic), error, State())
      ensures error.None? ==> log == old(log) + events && lineBuf == old(lineBuf)
    {
      hide ChatToResponses.Complete, StatusOf;
      events, error := [], None;
      if terminalSent {
        return;
      }
      var finish := heldFinish;
      heldFinish := "";
      if finish == "" {
        if !allowSynthetic {
          return;
        }
        if !started {
          return [], Some(EmptyStream);
        }
        finish := "stop";
      }
      events, error := Complete(StatusOf(finish));
    }

    // ---- lines ----

    method Identify(chunk: Chunk)
      modifies `id, `model
      ensures State() == old(State()).(id := chunk.id, model := chunk.model)
    {
      id, model := chunk.id, chunk.model;
    }

    method Start(chunk: Chunk) returns (events: seq<Event>)
      modifies this
      ensures State() == ChatToResponses.Start(old(State()), chunk)
      ensures log == old(log) + events && lineBuf == old(lineBuf)
    {
      hide Emit;
      events := [];
      if !started && chunk.choices != [] {
        started := true;
        Identify(chunk);
        var e1 := Send(Created(id, model));
        var e2 := Send(InProgress(id, model));
        events := [e1, e2];
      }
    }

    /** The thinking and the text of a choice. */
    method Speak(choice: Choice) returns (events: seq<Event>)
      modifies this
      ensures State() == ChatToResponses.Speak(old(State()), choice)
      ensures log == old(log) + events && lineBuf == old(lineBuf)
    {
      hide ChatToResponses.TakeReasoning, ChatToResponses.TakeContent;
      events := [];
      if choice.reasoning.Some? {
        events := TakeReasoning(choice.reasoning.value);
      }
      if choice.content != "" {
        var more := TakeContent(choice.content);
        events := events + more;
      }
    }

    method TakeChoice(choice: Choice) returns (events: seq<Event>, error: Option<StreamError>)
      modifies this
      ensures Reports(ChatToResponses.TakeChoice(env, old(State()), choice), error, State())
      ensures error.None? ==> log == old(log) + events && lineBuf == old(lineBuf)
    {
      hide ChatToResponses.Speak, ChatToResponses.TakeTools, ChatToResponses.Finish;
      error := None;
      events := Speak(choice);
      var calls, failed := TakeTools(choice.toolCalls);
      if failed.Some? {
        return [], failed;
      }
      events := events + calls;
      if choice.finish != "" && !finished {
        var more, bad := Finish(choice.finish);
        if bad.Some? {
          return [], bad;
        }
        events := events + more;
      }
    }

    method CaptureUsage(chunk: Chunk)
      modifies `usage
      ensures State() == old(State()).(usage := if chunk.usage.Some? then chunk.usage else old(usage))
    {
      if chunk.usage.Some? {
        usage := chunk.usage;
      }
    }

    method TakeChunk(chunk: Chunk) returns (events: seq<Event>, error: Option<StreamError>)
      modifies this
      ensures Reports(ChatToResponses.TakeChunk(env, old(State()), chunk), error, State())
      ensures error.None? ==> log == old(log) + events && lineBuf == old(lineBuf)
    {
      hide Terminal, ChatToResponses.Start, ChatToResponses.TakeChoice;
      events, error := [], None;
      CaptureUsage(chunk);
      if heldFinish != "" {
        events, error := ResponsesTerminal(false);
        if error.Some? {
          return [], error;
        }
      }
      var opening := Start(chunk);
      events := events + opening;
      if chunk.choices == [] {
        return;
      }
      var more, failed := TakeChoice(chunk.choices[0]);
      if failed.Some? {
        return [], failed;
      }
      events := events + more;
    }

    method TakeDone() returns (events: seq<Event>, error: Option<StreamError>)
      modifies this
      ensures Reports(ChatToResponses.TakeDone(env, old(State())), error, State())
      ensures error.None? ==> log == old(log) + events && lineBuf == old(lineBuf)
    {
      hide Terminal, ChatToResponses.StopReasoning;
      events := StopReasoning();
      var terminal, failed := ResponsesTerminal(true);
      if failed.Some? {
        return [], failed;
      }
      done := true;
      return events + terminal, None;
    }

    method ResponsesLine(line: string) returns (events: seq<Event>, error: Option<StreamError>)
      modifies this
      ensures Reports(TakeLine(env, old(State()), line), error, State())
      ensures error.None? ==> log == old(log) + events && lineBuf == old(lineBuf)
    {
      hide ChatToResponses.TakeChunk, ChatToResponses.TakeDone;
      events, error := [], None;
      match Classify(line)
      case Ignored =>
      case Done =>
        events, error := TakeDone();
      case Payload(data) =>
        var chunk := env.json.decode(data);
        if chunk.Err? {
          return [], Some(chunk.error);
        }
        events, error := TakeChunk(chunk.value);
    }

    // ---- bytes ----

    /** Any piece of the byte stream. After a failure the converter is dead: only
        the error and the events of the lines before it are meaningful. */
    method Feed(chunk: string) returns (events: seq<Event>, isDone: bool, error: Option<StreamError>)
      modifies this
      ensures var fed := LineFeed.Feed(LineHandler(env), Fed(old(State()), old(lineBuf), None), chunk);
              && error == fed.error
              && old(log) + events == fed.state.log
              && (error.None? ==> State() == fed.state && lineBuf == fed.rest && isDone == done)
    {
      hide TakeLine, Drain, LineHandler;
      HandlerDone(env, State());
      events, error := [], None;
      if done {
        return [], true, None;
      }
      var h := LineHandler(env);
      lineBuf := lineBuf + chunk;
      ghost var goal := Drain(h, State(), lineBuf);
      while true
        invariant !done && goal == Drain(h, State(), lineBuf) && log == old(log) + events
        decreases |lineBuf|
      {
        var i := Newline(lineBuf);
        DrainLine(env, State(), lineBuf);
        if i == |lineBuf| {
          break;
        }
        var line := TrimSuffixCR(lineBuf[..i]);
        lineBuf := lineBuf[i + 1..];
        var more, failed := ResponsesLine(line);
        if failed.Some? {
          return events, false, failed;
        }
        events := events + more;
        if done {
          break;
        }
      }
      isDone := done;
    }

    /** The upstream closed without [DONE]. */
    method FlushWithError() returns (events: seq<Event>, error: Option<StreamError>)
      modifies this
      ensures Reports(FlushEnd(env, old(State())), error, State())
      ensures error.None? ==> log == old(log) + events && lineBuf == old(lineBuf)
    {
      hide Terminal;
      if flushed {
        return [], None;
      }
      flushed := true;
      events, error := ResponsesTerminal(true);
    }
  }

  lemma {:induction false} HandlerDone(env: Env, sc: Conv)
    ensures LineHandler(env).done(sc) == sc.done
  {
  }

  /** One round of the drain loop. */
  lemma {:induction false} DrainLine(env: Env, sc: Conv, buf: string)
    ensures var i := Newline(buf);
            var h := LineHandler(env);
            Drain(h, sc, buf) ==
              if i == |buf| then Fed(sc, buf, None)
              else
                match TakeLine(env, sc, TrimSuffixCR(buf[..i]))
                case Err(e) => Fed(sc, buf[i + 1..], Some(e))
                case Ok(next) => if next.done then Fed(next, buf[i + 1..], None) else Drain(h, next, buf[i + 1..])
  {
    hide TakeLine;
  }

  lemma {:induction false} OpenToolHas(sc: Conv, tc: ToolDelta)
    ensures tc.index in ChatToResponses.OpenTool(CloseText(ChatToResponses.StopReasoning(sc), "completed"), tc).tools
  {
    hide ChatToResponses.StopReasoning, CloseText;
  }

  lemma {:induction false} SentAnnounced(t: Tool)
    ensures var s := Sent(t.(announced := true));
            s.announced && s.custom == t.custom && s.args == t.args
  {
  }

  /** What a fallible method reports: the error, or the state it reached. */
  ghost predicate Reports(o: ChatToResponses.Outcome, error: Option<StreamError>, state: Conv) {
    if o.Ok? then error.None? && state == o.value else error == Some(o.error)
  }
}
