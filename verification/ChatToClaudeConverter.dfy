/** The stream converter for Claude clients as the mutable object it is in
    internal/adapter/chatcompletions/stream.go, proved against ChatToClaude. */
module ChatToClaudeConverter {
  import opened Common
  import opened ChatChunks
  import opened ClaudeProtocol
  import opened ChatToClaude
  import opened LineFeed

  function LineHandler(json: Json): Handler<Conv, StreamError> {
    Handler((sc: Conv, line: string) => TakeLine(json, sc, line), (sc: Conv) => sc.done)
  }

  class StreamConverter {
    const json: Json
    var lineBuf: string
    var done: bool
    var started: bool
    var textOpen: bool
    var textIndex: nat
    var thinkOpen: bool
    var thinkIndex: nat
    var nextIndex: nat
    var tools: map<int, Call>
    var toolOrder: seq<int>
    var toolsSeen: bool
    var usage: Option<Usage>
    var finished: bool
    var heldFinish: string
    var terminalSent: bool
    var flushed: bool
    var streamState: Flags
    ghost var log: seq<Event>

    ghost function TheDesk(): Desk
      reads this
    {
      Desk(thinkOpen, thinkIndex, textOpen, textIndex, nextIndex, tools, toolOrder, toolsSeen, log)
    }

    ghost function State(): Conv
      reads this
    {
      Conv(TheDesk(), started, usage, finished, heldFinish, terminalSent, flushed, done, streamState)
    }

    constructor (json: Json)
      ensures this.json == json && State() == FRESH && lineBuf == ""
    {
      this.json := json;
      lineBuf, done, started := "", false, false;
      textOpen, textIndex, thinkOpen, thinkIndex, nextIndex := false, 0, false, 0, 0;
      tools, toolOrder, toolsSeen, usage := map[], [], false, None;
      finished, heldFinish, terminalSent, flushed := false, "", false, false;
      streamState, log := Flags(false, false, false, false), [];
    }

    method Send(e: Event)
      modifies `log
      ensures TheDesk() == Emit(old(TheDesk()), e) && log == old(log) + [e]
      ensures State() == old(State()).(desk := TheDesk())
    {
      log := log + [e];
    }

    // ---- closing ----

    method StopThinking() returns (events: seq<Event>)
      modifies `thinkOpen, `log
      ensures TheDesk() == ChatToClaude.StopThinking(old(TheDesk())) && log == old(log) + events
    {
      if !thinkOpen {
        return [];
      }
      thinkOpen := false;
      events := [BlockStop(thinkIndex)];
      Send(BlockStop(thinkIndex));
    }

    method StopText() returns (events: seq<Event>)
      modifies `textOpen, `log
      ensures TheDesk() == ChatToClaude.StopText(old(TheDesk())) && log == old(log) + events
    {
      if !textOpen {
        return [];
      }
      textOpen := false;
      events := [BlockStop(textIndex)];
      Send(BlockStop(textIndex));
    }

    method StopCalls() returns (events: seq<Event>)
      modifies `tools, `log
      ensures TheDesk() == ChatToClaude.StopCalls(old(TheDesk()), old(toolOrder)) && log == old(log) + events
    {
      events := [];
      ghost var goal := ChatToClaude.StopCalls(TheDesk(), toolOrder);
      for i := 0 to |toolOrder|
        invariant goal == ChatToClaude.StopCalls(TheDesk(), toolOrder[i..])
        invariant log == old(log) + events
      {
        var k := toolOrder[i];
        assert toolOrder[i..][1..] == toolOrder[i + 1..];
        if k in tools && !tools[k].stopped {
          var t := tools[k];
          tools := tools[k := t.(stopped := true)];
          events := events + [BlockStop(t.blockIndex)];
          Send(BlockStop(t.blockIndex));
        }
      }
    }

    method StopBlocks() returns (events: seq<Event>)
      modifies `thinkOpen, `textOpen, `tools, `log
      ensures TheDesk() == ChatToClaude.StopBlocks(old(TheDesk())) && log == old(log) + events
      ensures State() == old(State()).(desk := TheDesk())
    {
      hide ChatToClaude.StopThinking, ChatToClaude.StopText, ChatToClaude.StopCalls;
      var thinking := StopThinking();
      var text := StopText();
      var calls := StopCalls();
      events := thinking + text + calls;
    }

    // ---- writing ----

    method OpenThinking() returns (events: seq<Event>)
      modifies `thinkOpen, `thinkIndex, `nextIndex, `log
      ensures TheDesk() == ChatToClaude.OpenThinking(old(TheDesk())) && log == old(log) + events
    {
      thinkIndex := nextIndex;
      nextIndex := nextIndex + 1;
      thinkOpen := true;
      events := [BlockStart(thinkIndex, Thinking)];
      Send(BlockStart(thinkIndex, Thinking));
    }

    method Think(text: string) returns (events: seq<Event>)
      modifies `thinkOpen, `thinkIndex, `textOpen, `nextIndex, `tools, `log
      ensures TheDesk() == ChatToClaude.Think(old(TheDesk()), text) && log == old(log) + events
    {
      hide Emit, ChatToClaude.StopBlocks, ChatToClaude.OpenThinking;
      events := [];
      if !thinkOpen {
        events := StopBlocks();
        var opening := OpenThinking();
        events := events + opening;
      }
      events := events + [BlockDelta(thinkIndex, ThinkingDelta(text))];
      Send(BlockDelta(thinkIndex, ThinkingDelta(text)));
    }

    method OpenText() returns (events: seq<Event>)
      modifies `textOpen, `textIndex, `nextIndex, `log
      ensures TheDesk() == ChatToClaude.OpenText(old(TheDesk())) && log == old(log) + events
    {
      textIndex := nextIndex;
      nextIndex := nextIndex + 1;
      textOpen := true;
      events := [BlockStart(textIndex, Text)];
      Send(BlockStart(textIndex, Text));
    }

    method Say(text: string) returns (events: seq<Event>)
      modifies `thinkOpen, `textOpen, `textIndex, `nextIndex, `tools, `log
      ensures TheDesk() == ChatToClaude.Say(old(TheDesk()), text) && log == old(log) + events
    {
      hide Emit, ChatToClaude.StopBlocks, ChatToClaude.OpenText;
      events := [];
      if !textOpen {
        events := StopBlocks();
        var opening := OpenText();
        events := events + opening;
      }
      events := events + [BlockDelta(textIndex, TextDelta(text))];
      Send(BlockDelta(textIndex, TextDelta(text)));
    }

    method OpenCall(tc: ToolDelta) returns (events: seq<Event>)
      modifies `tools, `toolOrder, `toolsSeen, `nextIndex, `log
      ensures TheDesk() == ChatToClaude.OpenCall(old(TheDesk()), tc) && log == old(log) + events
    {
      var n := nextIndex;
      tools := tools[tc.index := Call(n, tc.id, tc.name, "", false)];
      nextIndex := n + 1;
      toolsSeen := true;
      toolOrder := toolOrder + [tc.index];
      events := [BlockStart(n, ToolUse(tc.id, tc.name))];
      Send(BlockStart(n, ToolUse(tc.id, tc.name)));
    }

    method TakeFragment(tc: ToolDelta) returns (events: seq<Event>)
      modifies `thinkOpen, `textOpen, `tools, `toolOrder, `toolsSeen, `nextIndex, `log
      ensures TheDesk() == ChatToClaude.TakeFragment(old(TheDesk()), tc) && log == old(log) + events
    {
      hide ChatToClaude.StopBlocks;
      events := [];
      if tc.index !in tools {
        events := StopBlocks();
        var opening := OpenCall(tc);
        events := events + opening;
      }
      if tc.args != "" {
        var t := tools[tc.index];
        tools := tools[tc.index := t.(args := t.args + tc.args)];
        events := events + [BlockDelta(t.blockIndex, JsonDelta(tc.args))];
        Send(BlockDelta(t.blockIndex, JsonDelta(tc.args)));
      }
    }

    method TakeFragments(deltas: seq<ToolDelta>) returns (events: seq<Event>)
      modifies `thinkOpen, `textOpen, `tools, `toolOrder, `toolsSeen, `nextIndex, `log
      ensures TheDesk() == ChatToClaude.TakeFragments(old(TheDesk()), deltas) && log == old(log) + events
    {
      hide ChatToClaude.TakeFragment;
      events := [];
      ghost var goal := ChatToClaude.TakeFragments(TheDesk(), deltas);
      for i := 0 to |deltas|
        invariant goal == ChatToClaude.TakeFragments(TheDesk(), deltas[i..])
        invariant log == old(log) + events
      {
        assert deltas[i..][1..] == deltas[i + 1..];
        var more := TakeFragment(deltas[i]);
        events := events + more;
      }
    }

    // ---- chunks ----

    method ClaudeTerminal() returns (events: seq<Event>)
      modifies `heldFinish, `terminalSent, `log
      ensures State() == Terminal(old(State())) && log == old(log) + events
    {
      hide CountsOf, StopReason;
      var finish := heldFinish;
      heldFinish := "";
      if finish == "" {
        return [];
      }
      terminalSent := true;
      var reason := if toolsSeen then "tool_use" else StopReason(finish);
      events := [MessageDelta(reason, CountsOf(usage))];
      Send(MessageDelta(reason, CountsOf(usage)));
    }

    method Write(choice: Choice) returns (events: seq<Event>)
      modifies `thinkOpen, `thinkIndex, `textOpen, `textIndex, `tools, `toolOrder, `toolsSeen, `nextIndex, `log
      ensures TheDesk() == ChatToClaude.Write(old(TheDesk()), choice) && log == old(log) + events
    {
      hide ChatToClaude.Think, ChatToClaude.Say, ChatToClaude.TakeFragments, TheDesk;
      events := [];
      if choice.reasoning.Some? {
        events := Think(choice.reasoning.value);
      }
      if choice.content != "" {
        var more := Say(choice.content);
        events := events + more;
      }
      var calls := TakeFragments(choice.toolCalls);
      events := events + calls;
    }

    method WriteOnly(choice: Choice) returns (events: seq<Event>)
      modifies `thinkOpen, `thinkIndex, `textOpen, `textIndex, `tools, `toolOrder, `toolsSeen, `nextIndex, `log
      ensures State() == old(State()).(desk := ChatToClaude.Write(old(TheDesk()), choice)) && log == old(log) + events
    {
      hide TheDesk, ChatToClaude.Write;
      events := Write(choice);
    }

    method Start(chunk: Chunk) returns (events: seq<Event>)
      modifies `started, `log
      ensures State() == ChatToClaude.Start(old(State()), chunk) && log == old(log) + events
    {
      events := [];
      if !started && chunk.choices != [] {
        started := true;
        var input := if chunk.usage.Some? then chunk.usage.value.prompt else 0;
        events := [MessageStart(chunk.id, chunk.model, input)];
        Send(MessageStart(chunk.id, chunk.model, input));
      }
    }

    method NoteFinish(choice: Choice)
      modifies `streamState
      ensures State() == old(State()).(flags := old(streamState).(finishSeen := old(streamState).finishSeen || choice.finish != ""))
    {
      if choice.finish != "" && !streamState.finishSeen {
        streamState := streamState.(finishSeen := true);
      }
    }

    method HoldFinish(finish: string)
      modifies `finished, `heldFinish
      ensures State() == old(State()).(finished := true, heldFinish := finish)
    {
      finished, heldFinish := true, finish;
    }

    method TakeChoice(choice: Choice) returns (events: seq<Event>)
      modifies this
      ensures State() == ChatToClaude.TakeChoice(old(State()), choice)
      ensures log == old(log) + events && lineBuf == old(lineBuf)
    {
      hide ChatToClaude.Write, ChatToClaude.StopBlocks, TheDesk;
      NoteFinish(choice);
      events := WriteOnly(choice);
      if choice.finish != "" && !finished {
        HoldFinish(choice.finish);
        var stops := StopBlocks();
        events := events + stops;
      }
    }

    method Note(chunk: Chunk)
      modifies `usage, `streamState
      ensures State() == old(State()).(usage := if chunk.usage.Some? then chunk.usage else old(usage),
                                       flags := if chunk.choices != [] then old(streamState).(started := true) else old(streamState))
    {
      if chunk.usage.Some? {
        usage := chunk.usage;
      }
      if chunk.choices != [] {
        streamState := streamState.(started := true);
      }
    }

    method TakeChunk(chunk: Chunk) returns (events: seq<Event>)
      modifies this
      ensures State() == ChatToClaude.TakeChunk(old(State()), chunk)
      ensures log == old(log) + events && lineBuf == old(lineBuf)
    {
      hide Terminal, ChatToClaude.Start, ChatToClaude.TakeChoice;
      Note(chunk);
      events := ClaudeTerminal();
      var opening := Start(chunk);
      events := events + opening;
      if chunk.choices == [] {
        return;
      }
      var more := TakeChoice(chunk.choices[0]);
      events := events + more;
    }

    // ---- the end ----

    method ValidateAccumulatedTools() returns (complete: bool)
      ensures complete == ArgumentsComplete(json, TheDesk())
    {
      for i := 0 to |toolOrder|
        invariant forall j :: 0 <= j < i && toolOrder[j] in tools ==> json.valid(DefaultArgs(tools[toolOrder[j]].args))
      {
        var k := toolOrder[i];
        if k in tools && !json.valid(DefaultArgs(tools[k].args)) {
          assert k in toolOrder;
          return false;
        }
      }
      return true;
    }

    method MarkDone()
      modifies `done, `streamState
      ensures State() == old(State()).(done := true, flags := old(streamState).(doneSeen := true, terminalSeen := true))
    {
      done := true;
      streamState := streamState.(doneSeen := true, terminalSeen := true);
    }

    method TakeDone() returns (events: seq<Event>, error: Option<StreamError>)
      modifies this
      ensures Reports(ChatToClaude.TakeDone(json, old(State())), error, State())
      ensures log == old(log) + events && lineBuf == old(lineBuf)
    {
      hide ChatToClaude.StopBlocks, Terminal, ArgumentsComplete, Emit;
      var complete := ValidateAccumulatedTools();
      if !complete {
        return [], Some(IncompleteArguments);
      }
      error := None;
      MarkDone();
      events := StopBlocks();
      var terminal := ClaudeTerminal();
      Send(MessageStop);
      events := events + terminal + [MessageStop];
    }

    method Flush() returns (events: seq<Event>)
      modifies this
      ensures State() == ChatToClaude.Flush(old(State()))
      ensures log == old(log) + events && lineBuf == old(lineBuf)
    {
      if flushed {
        return [];
      }
      flushed := true;
      events := ClaudeTerminal();
      if events == [] && !terminalSent {
        return;
      }
      Send(MessageStop);
      events := events + [MessageStop];
    }

    method FinalizeStream() returns (events: seq<Event>, error: Option<StreamError>)
      modifies this
      ensures Reports(Finalize(json, old(State())), error, State())
      ensures log == old(log) + events && lineBuf == old(lineBuf)
    {
      hide ChatToClaude.Flush, ArgumentsComplete;
      if streamState.terminalSeen {
        return [], None;
      }
      if !streamState.finishSeen {
        return [], Some(NoFinishReason);
      }
      var complete := ValidateAccumulatedTools();
      if !complete {
        return [], Some(IncompleteArguments);
      }
      error := None;
      events := Flush();
      streamState := streamState.(terminalSeen := true);
    }

    // ---- bytes ----

    method ClaudeLine(line: string) returns (events: seq<Event>, error: Option<StreamError>)
      modifies this
      ensures Reports(TakeLine(json, old(State()), line), error, State())
      ensures log == old(log) + events && lineBuf == old(lineBuf)
    {
      hide ChatToClaude.TakeChunk, ChatToClaude.TakeDone;
      events, error := [], None;
      match Classify(line)
      case Ignored =>
      case Done =>
        events, error := TakeDone();
      case Payload(data) =>
        var chunk := json.decode(data);
        if chunk.Err? {
          return [], Some(chunk.error);
        }
        events := TakeChunk(chunk.value);
    }

    /** Any piece of the byte stream. */
    method Feed(chunk: string) returns (events: seq<Event>, isDone: bool, error: Option<StreamError>)
      modifies this
      ensures var fed := LineFeed.Feed(LineHandler(json), Fed(old(State()), old(lineBuf), None), chunk);
              && error == fed.error
              && old(log) + events == fed.state.desk.log
              && (error.None? ==> State() == fed.state && lineBuf == fed.rest && isDone == done)
    {
      hide TakeLine, Drain, LineHandler;
      HandlerIs(json, State(), "");
      events, error := [], None;
      if done {
        return [], true, None;
      }
      var h := LineHandler(json);
      lineBuf := lineBuf + chunk;
      ghost var goal := Drain(h, State(), lineBuf);
      while true
        invariant !done && goal == Drain(h, State(), lineBuf) && log == old(log) + events
        decreases |lineBuf|
      {
        var i := Newline(lineBuf);
        DrainLine(json, State(), lineBuf);
        if i == |lineBuf| {
          break;
        }
        var line := TrimSuffixCR(lineBuf[..i]);
        lineBuf := lineBuf[i + 1..];
        var more, failed := ClaudeLine(line);
        if failed.Some? {
          return events, false, failed;
        }
        events := events + more;
        if done {
          break;
        }
      }
      isDone := done;
    }
  }

  lemma {:induction false} HandlerIs(json: Json, sc: Conv, line: string)
    ensures LineHandler(json).done(sc) == sc.done && LineHandler(json).line(sc, line) == TakeLine(json, sc, line)
  {
  }

  /** One round of the drain loop, in this leg's terms. */
  lemma {:induction false} DrainLine(json: Json, sc: Conv, buf: string)
    ensures var i := Newline(buf);
            var h := LineHandler(json);
            Drain(h, sc, buf) ==
              if i == |buf| then Fed(sc, buf, None)
              else
                match TakeLine(json, sc, TrimSuffixCR(buf[..i]))
                case Err(e) => Fed(sc, buf[i + 1..], Some(e))
                case Ok(next) => if next.done then Fed(next, buf[i + 1..], None) else Drain(h, next, buf[i + 1..])
  {
    hide TakeLine, LineHandler, Drain;
    DrainStep(LineHandler(json), sc, buf);
    var line := TrimSuffixCR(buf[..Newline(buf)]);
    HandlerIs(json, sc, line);
    if TakeLine(json, sc, line).Ok? {
      HandlerIs(json, TakeLine(json, sc, line).value, line);
    }
  }

  /** What a fallible method reports; a failing one leaves the state alone. */
  ghost predicate Reports(o: ChatToClaude.Outcome, error: Option<StreamError>, state: Conv) {
    if o.Ok? then error.None? && state == o.value else error == Some(o.error)
  }
}
