/** What follows response.completed on the Chat Completions -> Responses leg:
    exactly when it is the last event, and streams for which it is not. */
module ChatToResponsesTail {
  import opened Common
  import opened ToolNames
  import opened ChatChunks
  import opened ResponsesProtocol
  import opened ChatToResponses
  import opened ChatToResponsesSafety
  import opened ChatToResponsesRuns

  /** response.completed is the last event so far and nothing is open. */
  ghost predicate Ended(sc: Conv) {
    && sc.terminalSent && sc.started && sc.finished && Sealed(sc) && Replay(sc.log).trailing == 0
    && !TextOpen(sc) && !ThinkOpen(sc)
  }

  /** The delta neither announces its call nor extends an announced function call. */
  predicate QuietDelta(env: Env, sc: Conv, tc: ToolDelta) {
    var before := OpenTool(sc, tc).tools[tc.index];
    var after := Resolve(env.tools, Absorb(before, tc));
    && (after.announced ==> before.announced)
    && (after.announced && !after.custom ==> |after.args| <= before.argsSent)
  }

  predicate QuietDeltas(env: Env, sc: Conv, deltas: seq<ToolDelta>)
    decreases |deltas|
  {
    deltas == []
    || (QuietDelta(env, sc, deltas[0])
        && var o := TakeTool(env, sc, deltas[0]);
           o.Ok? ==> QuietDeltas(env, o.value, deltas[1..]))
  }

  /** The usage trailer and other chunks that say nothing. */
  predicate QuietChunk(env: Env, sc: Conv, chunk: Chunk) {
    chunk.choices == []
    || (chunk.choices[0].reasoning.None? && chunk.choices[0].content == "" && QuietDeltas(env, sc, chunk.choices[0].toolCalls))
  }

  /** Storing a call's new state emits exactly on announcement and on owed bytes. */
  lemma {:induction false} AdvancedEmits(sc: Conv, index: int, after: Tool)
    requires index in sc.tools
    ensures var before := sc.tools[index];
            Advanced(sc, index, after).respSequence == sc.respSequence <==>
              (after.announced ==> before.announced) && (after.announced && !after.custom ==> |after.args| <= before.argsSent)
  {
    hide ToolShell, Emit;
    var s1 := sc.(tools := sc.tools[index := after]);
    var s2 := if after.announced && !sc.tools[index].announced then Emit(s1, ItemAdded(after.blockIndex, ToolShell(after))) else s1;
    EmitCounts(s1, ItemAdded(after.blockIndex, ToolShell(after)));
    if after.announced && !after.custom && sc.tools[index].argsSent < |after.args| {
      EmitCounts(s2, ArgsDelta(after.id, after.blockIndex, after.args[sc.tools[index].argsSent..]));
    }
  }

  lemma {:induction false} EmitCounts(sc: Conv, b: Body)
    ensures Emit(sc, b).respSequence == sc.respSequence + 1
  {
  }

  lemma {:induction false} SentKeeps(t: Tool)
    ensures Sent(t).announced == t.announced && Sent(t).custom == t.custom && Sent(t).args == t.args
  {
  }

  /** With nothing open, a delta only moves its own call. */
  lemma {:induction false} DeltaAdvances(env: Env, sc: Conv, tc: ToolDelta)
    requires !TextOpen(sc) && !ThinkOpen(sc) && TakeTool(env, sc, tc).Ok?
    ensures var s2 := OpenTool(sc, tc);
            TakeTool(env, sc, tc).value == Advanced(s2, tc.index, Sent(Resolve(env.tools, Absorb(s2.tools[tc.index], tc))))
  {
    hide Resolve, Absorb, ToolShell, Sent, Emit, FlushArgs, OpenTool;
  }

  lemma {:induction false} OpenToolKeeps(sc: Conv, tc: ToolDelta)
    ensures var s := OpenTool(sc, tc);
            && tc.index in s.tools && Follows(sc, s) && s.respSequence == sc.respSequence
            && TextOpen(s) == TextOpen(sc) && ThinkOpen(s) == ThinkOpen(sc) && s.finished == sc.finished
  {
    hide Follows;
    OpenToolFlags(sc, tc);
    hide OpenTool, TextOpen, ThinkOpen;
    FollowsQuietly(sc, OpenTool(sc, tc));
  }

  lemma {:induction false} OpenToolFlags(sc: Conv, tc: ToolDelta)
    ensures var s := OpenTool(sc, tc);
            && tc.index in s.tools && s.respSequence == sc.respSequence && s.log == sc.log && s.usage == sc.usage
            && s.terminalSent == sc.terminalSent && s.started == sc.started && s.heldFinish == sc.heldFinish
            && TextOpen(s) == TextOpen(sc) && ThinkOpen(s) == ThinkOpen(sc) && s.finished == sc.finished
            && s.id == sc.id && s.model == sc.model
  {
    if tc.index in sc.tools {
      assert OpenTool(sc, tc) == sc;
    }
  }

  /** With nothing open, a delta emits exactly when it is not quiet. */
  lemma {:induction false} DeltaEmits(env: Env, sc: Conv, tc: ToolDelta)
    requires !TextOpen(sc) && !ThinkOpen(sc) && TakeTool(env, sc, tc).Ok?
    ensures var s := TakeTool(env, sc, tc).value;
            && Follows(sc, s) && !TextOpen(s) && !ThinkOpen(s) && s.finished == sc.finished
            && (s.respSequence == sc.respSequence <==> QuietDelta(env, sc, tc))
  {
    hide Follows, Resolve, Absorb, Sent, Advanced, SameButLog, TakeTool, OpenTool;
    DeltaAdvances(env, sc, tc);
    OpenToolKeeps(sc, tc);
    var s2 := OpenTool(sc, tc);
    var plain := Resolve(env.tools, Absorb(s2.tools[tc.index], tc));
    var after := Sent(plain);
    var s := Advanced(s2, tc.index, after);
    SentKeeps(plain);
    AdvancedFollows(s2, tc.index, after);
    FollowsTransitive(sc, s2, s);
    AdvancedFrame(s2, tc.index, after);
    AdvancedEmits(s2, tc.index, after);
    SameOpen(s, s2, after, tc.index);
  }

  lemma {:induction false} SameOpen(s: Conv, s2: Conv, after: Tool, index: int)
    requires SameButLog(s, s2.(tools := s2.tools[index := after]))
    ensures TextOpen(s) == TextOpen(s2) && ThinkOpen(s) == ThinkOpen(s2) && s.finished == s2.finished
  {
  }

  lemma {:induction false} DeltasEmit(env: Env, sc: Conv, deltas: seq<ToolDelta>)
    requires !TextOpen(sc) && !ThinkOpen(sc) && TakeTools(env, sc, deltas).Ok?
    ensures var s := TakeTools(env, sc, deltas).value;
            && Follows(sc, s) && !TextOpen(s) && !ThinkOpen(s) && s.finished == sc.finished
            && (s.respSequence == sc.respSequence <==> QuietDeltas(env, sc, deltas))
    decreases |deltas|
  {
    hide TakeTool, QuietDelta, Sealed, Replay;
    if deltas == [] {
    } else {
      DeltaEmits(env, sc, deltas[0]);
      var s1 := TakeTool(env, sc, deltas[0]).value;
      DeltasEmit(env, s1, deltas[1..]);
      FollowsTransitive(sc, s1, TakeTools(env, s1, deltas[1..]).value);
    }
  }

  lemma {:induction false} ReasoningEmits(sc: Conv, thinking: string)
    ensures Follows(sc, TakeReasoning(sc, thinking)) && sc.respSequence < TakeReasoning(sc, thinking).respSequence
  {
    TakeReasoningFollows(sc, thinking);
    hide Follows, CloseText, OpenReasoning;
    var s0 := CloseText(sc, "completed");
    CloseTextFollows(sc, "completed");
    OpenReasoningFollows(s0);
    LaterThan(sc, s0);
    LaterThan(s0, OpenReasoning(s0));
  }

  lemma {:induction false} ContentEmits(sc: Conv, content: string)
    requires content != ""
    ensures Follows(sc, TakeContent(sc, content)) && sc.respSequence < TakeContent(sc, content).respSequence
  {
    TakeContentFollows(sc, content);
    hide Follows, StopReasoning, OpenText;
    var s0 := StopReasoning(sc);
    StopReasoningFollows(sc);
    OpenTextFollows(s0);
    LaterThan(sc, s0);
    LaterThan(s0, OpenText(s0));
  }

  lemma {:induction false} LaterThan(sc: Conv, s: Conv)
    requires Follows(sc, s)
    ensures sc.respSequence <= s.respSequence
  {
    hide Sealed;
  }

  /** After the end a choice emits exactly when it speaks. */
  lemma {:induction false} ChoiceEmits(env: Env, sc: Conv, chunk: Chunk)
    requires !TextOpen(sc) && !ThinkOpen(sc) && sc.finished && chunk.choices != [] && TakeChoice(env, sc, chunk.choices[0]).Ok?
    ensures var s := TakeChoice(env, sc, chunk.choices[0]).value;
            && Follows(sc, s)
            && (s.respSequence == sc.respSequence <==> QuietChunk(env, sc, chunk))
            && (QuietChunk(env, sc, chunk) ==> !TextOpen(s) && !ThinkOpen(s) && s.finished)
  {
    hide Sealed, Replay, TakeReasoning, TakeContent, TakeTools, Finish, QuietDeltas;
    var choice := chunk.choices[0];
    TakeChoiceFollows(env, sc, choice);
    var s := TakeChoice(env, sc, choice).value;
    var s1 := if choice.reasoning.Some? then TakeReasoning(sc, choice.reasoning.value) else sc;
    var s2 := if choice.content != "" then TakeContent(s1, choice.content) else s1;
    if choice.reasoning.Some? {
      ReasoningEmits(sc, choice.reasoning.value);
    }
    if choice.content != "" {
      ContentEmits(s1, choice.content);
    }
    if choice.reasoning.None? && choice.content == "" {
      DeltasEmit(env, sc, choice.toolCalls);
    } else {
      TakeToolsFollows(env, s2, choice.toolCalls);
    }
  }

  /** Exactly the quiet chunks keep response.completed the last event. */
  lemma {:induction false} QuietKeepsCompletedLast(env: Env, sc: Conv, chunk: Chunk)
    requires Ended(sc) && TakeChunk(env, sc, chunk).Ok?
    ensures var s := TakeChunk(env, sc, chunk).value;
            && Sealed(s) && Replay(s.log).completed == Replay(sc.log).completed
            && (Replay(s.log).trailing == 0 <==> QuietChunk(env, WithUsage(sc, chunk), chunk))
            && (Ended(s) <==> QuietChunk(env, WithUsage(sc, chunk), chunk))
  {
    hide TakeChoice, Replay;
    var s0 := WithUsage(sc, chunk);
    assert Start(s0, chunk) == s0;
    if chunk.choices != [] {
      ChoiceEmits(env, s0, chunk);
    }
  }

  // ---- the trailer itself ----

  /** The state the terminal leaves behind for the chunk that triggered it. */
  ghost function AtEnd(env: Env, sc: Conv, chunk: Chunk): ChatToResponses.Outcome {
    Terminal(env, WithUsage(sc, chunk), false)
  }

  /** The first chunk after finish_reason leaves response.completed last exactly
      when it says nothing itself. */
  lemma {:induction false} TrailerKeepsCompletedLast(env: Env, sc: Conv, chunk: Chunk)
    requires Inv(sc) && !sc.terminalSent && sc.heldFinish != "" && sc.finished && TakeChunk(env, sc, chunk).Ok?
    ensures AtEnd(env, sc, chunk).Ok? && Ended(AtEnd(env, sc, chunk).value)
    ensures var s := TakeChunk(env, sc, chunk).value;
            && Sealed(s) && (Replay(s.log).trailing == 0 <==> QuietChunk(env, AtEnd(env, sc, chunk).value, chunk))
            && (Ended(s) <==> QuietChunk(env, AtEnd(env, sc, chunk).value, chunk))
  {
    hide TakeChoice, Replay, Terminal, QuietDeltas, TextOpen, ThinkOpen;
    HeldIsStarted(sc);
    ChunkEndsResponse(env, sc, chunk);
    var s1 := AtEnd(env, sc, chunk).value;
    TerminalEnds(env, WithUsage(sc, chunk));
    assert Start(s1, chunk) == s1;
    if chunk.choices != [] {
      ChoiceEmits(env, s1, chunk);
    }
  }

  lemma {:induction false} TerminalEnds(env: Env, sc: Conv)
    requires Tracks(sc) && !sc.terminalSent && sc.heldFinish != "" && sc.finished && Terminal(env, sc, false).Ok?
    ensures Ended(Terminal(env, sc, false).value)
  {
    hide Tracks, Output, StatusAtEnd, Terminal, BeforeCompleted;
    TerminalSeals(env, sc, false);
    var s2 := BeforeCompleted(env, sc).value;
    SealedByIs(sc, s2, Terminal(env, sc, false).value);
  }

  // ---- runs ----

  /** A finish_reason is held only between its chunk and its terminal. */
  ghost predicate Orderly(sc: Conv) {
    (sc.heldFinish != "" ==> sc.finished && !sc.terminalSent) && (sc.terminalSent ==> sc.finished)
  }

  lemma {:induction false} RunIsOrderly(env: Env, chunks: seq<Chunk>)
    requires Run(env, chunks).Ok?
    ensures Orderly(Run(env, chunks).value)
  {
    hide TakeChunk, Inv, Orderly;
    if chunks == [] {
      assert Orderly(FRESH) by {
        FreshIsOrderly();
      }
    } else {
      var shorter := chunks[..|chunks| - 1];
      RunKeepsInvariant(env, shorter);
      RunIsOrderly(env, shorter);
      ChunkIsOrderly(env, Run(env, shorter).value, chunks[|chunks| - 1]);
    }
  }

  lemma {:induction false} FreshIsOrderly()
    ensures Orderly(FRESH)
  {
  }

  lemma {:induction false} ChunkIsOrderly(env: Env, sc: Conv, chunk: Chunk)
    requires Inv(sc) && Orderly(sc) && TakeChunk(env, sc, chunk).Ok?
    ensures Orderly(TakeChunk(env, sc, chunk).value)
  {
    hide TakeChoice, Terminal, Sealed, Replay, Tracks, Inv, Start;
    var s0 := WithUsage(sc, chunk);
    if sc.heldFinish != "" {
      UsageInv(sc, s0);
      TerminalUnholds(env, s0);
    }
    var s1 := if sc.heldFinish != "" then Terminal(env, s0, false).value else s0;
    StartHolds(s1, chunk);
    var s2 := Start(s1, chunk);
    assert Orderly(s2);
    if chunk.choices != [] {
      ChoiceIsOrderly(env, s2, chunk.choices[0]);
    }
  }

  lemma {:induction false} ChoiceIsOrderly(env: Env, sc: Conv, choice: Choice)
    requires Orderly(sc) && TakeChoice(env, sc, choice).Ok?
    ensures Orderly(TakeChoice(env, sc, choice).value)
  {
    hide TakeChoice, Sealed, Replay;
    TakeChoiceFollows(env, sc, choice);
  }

  lemma {:induction false} UsageInv(sc: Conv, s: Conv)
    requires Inv(sc) && s == sc.(usage := s.usage)
    ensures Inv(s)
  {
    Irrelevant(sc, s);
    hide Tracks;
  }

  lemma {:induction false} TerminalUnholds(env: Env, sc: Conv)
    requires Inv(sc) && !sc.terminalSent && sc.heldFinish != "" && Terminal(env, sc, false).Ok?
    ensures var s := Terminal(env, sc, false).value;
            s.heldFinish == "" && s.finished == sc.finished && s.terminalSent && s.started == sc.started && s.id == sc.id && s.model == sc.model
  {
    hide Tracks, Output, StatusAtEnd, Terminal, BeforeCompleted, Sealed;
    HeldIsStarted(sc);
    TerminalSeals(env, sc, false);
    StartedHere(sc);
    SealedByIs(sc, BeforeCompleted(env, sc).value, Terminal(env, sc, false).value);
  }

  lemma {:induction false} StartedHere(sc: Conv)
    requires Tracks(sc)
    ensures sc.started
  {
    hide Live, Items, ToolsOk, OpenOk, Covered, Mirror;
  }

  lemma {:induction false} StartHolds(sc: Conv, chunk: Chunk)
    ensures var s := Start(sc, chunk);
            s.heldFinish == sc.heldFinish && s.finished == sc.finished && s.terminalSent == sc.terminalSent
  {
  }

  /** For every stream whose next chunk completes the response: response.completed
      is the last event after that chunk exactly when the chunk says nothing. */
  lemma {:induction false} CompletedIsLastIffQuiet(env: Env, chunks: seq<Chunk>, trailer: Chunk)
    requires Run(env, chunks).Ok? && Run(env, chunks).value.heldFinish != "" && Run(env, chunks + [trailer]).Ok?
    ensures var sc := Run(env, chunks).value;
            var s := Run(env, chunks + [trailer]).value;
            && AtEnd(env, sc, trailer).Ok? && Sealed(s)
            && (Replay(s.log).trailing == 0 <==> QuietChunk(env, AtEnd(env, sc, trailer).value, trailer))
  {
    hide TakeChunk, Sealed, Replay, QuietChunk, Inv;
    assert (chunks + [trailer])[..|chunks|] == chunks;
    RunKeepsInvariant(env, chunks);
    RunIsOrderly(env, chunks);
    TrailerKeepsCompletedLast(env, Run(env, chunks).value, trailer);
  }

  /** A concrete stream whose completed event is not the last one: content in
      the chunk after finish_reason. */
  lemma {:induction false} LateContentFollowsCompleted(env: Env)
    ensures var first := Chunk("r", "m", [Choice(None, "a", [], "stop")], None);
            var late := Chunk("r", "m", [Choice(None, "b", [], "")], None);
            var o := Run(env, [first, late]);
            o.Ok? && Replay(o.value.log).Client? && Replay(o.value.log).trailing > 0
  {
    var first := Chunk("r", "m", [Choice(None, "a", [], "stop")], None);
    var late := Chunk("r", "m", [Choice(None, "b", [], "")], None);
    assert [first] + [late] == [first, late];
    assert [first][..0] == [] && ([first] + [late])[..1] == [first];
    FirstHolds(env, first);
    hide Sealed, Replay, Inv, TakeContent, Emit;
    var sc := Run(env, [first]).value;
    TerminalOfText(env, WithUsage(sc, late));
    CompletedIsLastIffQuiet(env, [first], late);
  }

  lemma {:induction false} FirstHolds(env: Env, first: Chunk)
    requires first == Chunk("r", "m", [Choice(None, "a", [], "stop")], None)
    ensures Run(env, [first]).Ok?
    ensures var sc := Run(env, [first]).value;
            sc.heldFinish == "stop" && !sc.terminalSent && sc.toolOrder == []
  {
    assert [first][..0] == [] && [first][0] == first;
    hide Emit;
    var s1 := Start(FRESH, first);
    EmitTwiceFrame(FRESH.(started := true, id := "r", model := "m"), Created("r", "m"), InProgress("r", "m"));
    TakeContentFrame(s1, "a");
    hide TakeContent;
    var s2 := TakeContent(s1, "a");
    StopReasoningFrame(s2.(finished := true, heldFinish := "stop"));
    hide StopReasoning, Start;
    assert TakeTools(env, s2, []) == Ok(s2);
    assert FinishTools(env, s2, []) == Ok(s2);
  }

  lemma {:induction false} TakeContentFrame(sc: Conv, content: string)
    ensures var s := TakeContent(sc, content);
            s.toolOrder == sc.toolOrder && s.finished == sc.finished && s.terminalSent == sc.terminalSent && s.heldFinish == sc.heldFinish
  {
    hide StopReasoning, Emit;
    StopReasoningFrame(sc);
    var s0 := StopReasoning(sc);
    var id := MessageId(s0.id, s0.nextIndex);
    var s1 := s0.(msgIndex := s0.nextIndex, nextIndex := s0.nextIndex + 1, msgItemID := id, textClosed := false,
                  textPartOpen := false, respText := "");
    EmitFrame(s1, ItemAdded(s0.nextIndex, MessageShell(id)));
    var s2 := if TextOpen(s0) then s0 else Emit(s1, ItemAdded(s0.nextIndex, MessageShell(id)));
    EmitFrame(s2.(textPartOpen := true), PartAdded(s2.msgItemID, AsIndex(s2.msgIndex)));
    var s3 := OpenText(s0);
    EmitFrame(s3.(respText := s3.respText + content), TextDelta(s3.msgItemID, AsIndex(s3.msgIndex), content));
  }

  lemma {:induction false} TerminalOfText(env: Env, sc: Conv)
    requires sc.toolOrder == []
    ensures Terminal(env, sc, false).Ok?
  {
    hide Output, StopReasoning, CloseText, Emit;
    var s0 := sc.(heldFinish := "");
    StopReasoningFrame(s0);
    CloseTextFrame(StopReasoning(s0), StatusOf(if sc.heldFinish == "" then "stop" else sc.heldFinish));
  }
}
