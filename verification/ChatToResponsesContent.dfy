/** Conservation on the Chat Completions -> Responses leg: the finished response
    carries exactly the upstream text, thinking, call arguments and last usage. */
module ChatToResponsesContent {
  import opened Common
  import opened ToolNames
  import opened ChatChunks
  import opened ResponsesProtocol
  import opened ChatToResponses
  import opened ChatToResponsesSafety
  import opened ChatToResponsesRuns
  import opened ChatToResponsesCalls
  import Shape = ChatToResponsesShape

  // ---- what the converter holds, index by index ----

  function SlotText(sc: Conv, i: nat): string {
    if TextOpen(sc) && i == sc.msgIndex then sc.respText
    else if i in sc.responseItems && sc.responseItems[i].Message? then sc.responseItems[i].text
    else ""
  }

  function SlotThinking(sc: Conv, i: nat): string {
    if ThinkOpen(sc) && i == sc.thinkIndexIn then sc.thinkBuf
    else if i in sc.responseItems && sc.responseItems[i].Reasoning? then sc.responseItems[i].text
    else ""
  }

  /** All message text, in index order. */
  function Said(sc: Conv, n: nat): string {
    if n == 0 then "" else Said(sc, n - 1) + SlotText(sc, n - 1)
  }

  /** All thinking text, in index order. */
  function Thought(sc: Conv, n: nat): string {
    if n == 0 then "" else Thought(sc, n - 1) + SlotThinking(sc, n - 1)
  }

  /** What a call has accumulated; None for a call never mentioned. */
  function ArgsHeld(sc: Conv, index: int): Option<string> {
    if index in sc.tools then Some(sc.tools[index].args) else None
  }

  /** From `sc` to `s` the open item may have grown by `said` and `thought`, and
      nothing else changed in what is held. */
  ghost predicate Grew(sc: Conv, s: Conv, said: string, thought: string) {
    Said(s, s.nextIndex) == Said(sc, sc.nextIndex) + said && Thought(s, s.nextIndex) == Thought(sc, sc.nextIndex) + thought
  }

  lemma {:induction false} Blank(s: string)
    ensures s + "" == s
  {
  }

  lemma {:induction false} NothingThen(r: Conv, s: Conv, t: Conv, said: string, thought: string)
    requires Grew(r, s, "", "") && Grew(s, t, said, thought)
    ensures Grew(r, t, said, thought)
  {
    Blank(Said(r, r.nextIndex));
    Blank(Thought(r, r.nextIndex));
  }

  lemma {:induction false} ThenNothing(r: Conv, s: Conv, t: Conv, said: string, thought: string)
    requires Grew(r, s, said, thought) && Grew(s, t, "", "")
    ensures Grew(r, t, said, thought)
  {
    Blank(Said(s, s.nextIndex));
    Blank(Thought(s, s.nextIndex));
  }

  lemma {:induction false} SameSlots(sc: Conv, s: Conv, n: nat)
    requires forall i: nat :: i < n ==> SlotText(s, i) == SlotText(sc, i) && SlotThinking(s, i) == SlotThinking(sc, i)
    ensures Said(s, n) == Said(sc, n) && Thought(s, n) == Thought(sc, n)
  {
    if n == 0 {
    } else {
      SameSlots(sc, s, n - 1);
    }
  }

  /** Nothing grows when slots stay equal and a possible new last slot is blank. */
  lemma {:induction false} NothingGrew(sc: Conv, s: Conv)
    requires sc.nextIndex <= s.nextIndex <= sc.nextIndex + 1
    requires forall i: nat :: i < sc.nextIndex ==> SlotText(s, i) == SlotText(sc, i) && SlotThinking(s, i) == SlotThinking(sc, i)
    requires s.nextIndex == sc.nextIndex + 1 ==> SlotText(s, sc.nextIndex) == "" && SlotThinking(s, sc.nextIndex) == ""
    ensures Grew(sc, s, "", "")
  {
    SameSlots(sc, s, sc.nextIndex);
  }

  lemma {:induction false} StopReasoningGrew(sc: Conv)
    requires OpenOk(sc)
    ensures Grew(sc, StopReasoning(sc), "", "")
  {
    hide Said, Thought;
    StopReasoningFrame(sc);
    hide Emit;
    var i := AsIndex(sc.thinkIndexIn);
    var item := Reasoning(sc.thinkItemID, sc.thinkBuf);
    var s1 := sc.(thinkStopped := true, responseItems := sc.responseItems[i := item]);
    EmitThriceFrame(s1, TextDone(sc.thinkItemID, i, sc.thinkBuf), PartDone(sc.thinkItemID, i, sc.thinkBuf), ItemDone(i, item));
    NothingGrew(sc, StopReasoning(sc));
  }

  lemma {:induction false} CloseTextGrew(sc: Conv, status: string)
    requires OpenOk(sc)
    ensures Grew(sc, CloseText(sc, status), "", "")
  {
    hide Said, Thought;
    CloseTextFrame(sc, status);
    hide Emit;
    var i := AsIndex(sc.msgIndex);
    var item := Message(sc.msgItemID, status, sc.respText);
    var s1 := sc.(textClosed := true, responseItems := sc.responseItems[i := item]);
    EmitThriceFrame(s1, TextDone(sc.msgItemID, i, sc.respText), PartDone(sc.msgItemID, i, sc.respText), ItemDone(i, item));
    NothingGrew(sc, CloseText(sc, status));
  }

  lemma {:induction false} OpenReasoningGrew(sc: Conv)
    requires OpenOk(sc) && !TextOpen(sc)
    ensures Grew(sc, OpenReasoning(sc), "", "")
  {
    hide Said, Thought, Emit;
    var s2 := BeginReasoning(ResetReasoning(sc));
    EmitTwiceFrame(s2, ItemAdded(sc.nextIndex, ReasoningShell(s2.thinkItemID)), PartAdded(s2.thinkItemID, sc.nextIndex));
    NothingGrew(sc, OpenReasoning(sc));
  }

  lemma {:induction false} OpenTextGrew(sc: Conv)
    requires OpenOk(sc) && !ThinkOpen(sc)
    ensures Grew(sc, OpenText(sc), "", "")
  {
    hide Said, Thought;
    NothingGrew(sc, OpenText(sc));
  }

  /** Growth of the item open at the newest index. */
  lemma {:induction false} LastGrew(sc: Conv, s: Conv, said: string, thought: string)
    requires s.nextIndex == sc.nextIndex > 0
    requires forall i: nat :: i < sc.nextIndex - 1 ==> SlotText(s, i) == SlotText(sc, i) && SlotThinking(s, i) == SlotThinking(sc, i)
    requires SlotText(s, s.nextIndex - 1) == SlotText(sc, sc.nextIndex - 1) + said
    requires SlotThinking(s, s.nextIndex - 1) == SlotThinking(sc, sc.nextIndex - 1) + thought
    ensures Grew(sc, s, said, thought)
  {
    hide SlotText, SlotThinking;
    var n := sc.nextIndex - 1;
    SameSlots(sc, s, n);
    assert Said(s, n) + (SlotText(sc, n) + said) == (Said(s, n) + SlotText(sc, n)) + said;
    assert Thought(s, n) + (SlotThinking(sc, n) + thought) == (Thought(s, n) + SlotThinking(sc, n)) + thought;
  }

  lemma {:induction false} TakeReasoningGrew(sc: Conv, thinking: string)
    requires Tracks(sc)
    ensures Grew(sc, TakeReasoning(sc, thinking), "", thinking)
  {
    hide Live, Items, Said, Thought, OpenReasoning, CloseText, Grew, ToolsOk, Covered, Mirror;
    CloseTextGrew(sc, "completed");
    CloseTextTracks(sc, "completed");
    var s0 := CloseText(sc, "completed");
    OpenReasoningGrew(s0);
    OpenReasoningTracks(s0);
    var s1 := OpenReasoning(s0);
    var s := TakeReasoning(sc, thinking);
    LastGrew(s1, s, "", thinking);
    NothingThen(s0, s1, s, "", thinking);
    NothingThen(sc, s0, s, "", thinking);
  }

  lemma {:induction false} TakeContentGrew(sc: Conv, content: string)
    requires Tracks(sc)
    ensures Grew(sc, TakeContent(sc, content), content, "")
  {
    hide Live, Items, Said, Thought, OpenText, StopReasoning, Grew, ToolsOk, Covered, Mirror;
    StopReasoningGrew(sc);
    StopReasoningTracks(sc);
    var s0 := StopReasoning(sc);
    OpenTextGrew(s0);
    OpenTextTracks(s0);
    var s1 := OpenText(s0);
    var s := TakeContent(sc, content);
    LastGrew(s1, s, content, "");
    NothingThen(s0, s1, s, content, "");
    NothingThen(sc, s0, s, content, "");
  }

  // ---- call arguments ----

  lemma {:induction false} TakeToolGrew(env: Env, sc: Conv, tc: ToolDelta)
    requires Tracks(sc) && Undone(sc) && TakeTool(env, sc, tc).Ok?
    ensures var s := TakeTool(env, sc, tc).value;
            Grew(sc, s, "", "")
            && forall k :: ArgsHeld(s, k) == Join(ArgsHeld(sc, k), Fragment(tc, k))
  {
    hide Live, Items, Said, Thought, StopReasoning, CloseText, Grew, Emit, FlushArgs, ToolsOk, Covered, Mirror;
    StopReasoningGrew(sc);
    StopReasoningTracks(sc);
    var s0 := StopReasoning(sc);
    CloseTextGrew(s0, "completed");
    CloseTextTracks(s0, "completed");
    var s1 := CloseText(s0, "completed");
    var s2 := OpenTool(s1, tc);
    var after := Sent(Resolve(env.tools, Absorb(s2.tools[tc.index], tc)));
    var s := Advanced(s2, tc.index, after);
    AdvancedFrame(s2, tc.index, after);
    assert TakeTool(env, sc, tc).value == s;
    NothingGrew(s1, s) by {
      hide Absorb, Resolve, Sent, Advanced;
    }
    NothingThen(s0, s1, s, "", "");
    NothingThen(sc, s0, s, "", "");
    ArgsAfterTool(env, s1, s, tc);
  }

  lemma {:induction false} AbsorbedArgs(ctx: ToolContext, t: Tool, tc: ToolDelta)
    ensures Sent(Resolve(ctx, Absorb(t, tc))).args == t.args + tc.args
  {
    hide ClassifyStreamedName, ResolveChatName, MergeName;
  }

  lemma {:induction false} ArgsAfterTool(env: Env, sc: Conv, s: Conv, tc: ToolDelta)
    requires var s2 := OpenTool(sc, tc);
             s.tools == s2.tools[tc.index := Sent(Resolve(env.tools, Absorb(s2.tools[tc.index], tc)))]
    ensures forall k :: ArgsHeld(s, k) == Join(ArgsHeld(sc, k), Fragment(tc, k))
  {
    hide Sent, Resolve, Absorb;
    AbsorbedArgs(env.tools, OpenTool(sc, tc).tools[tc.index], tc);
    assert "" + tc.args == tc.args;
  }

  lemma {:induction false} TakeToolsGrew(env: Env, sc: Conv, deltas: seq<ToolDelta>)
    requires Tracks(sc) && Undone(sc) && TakeTools(env, sc, deltas).Ok?
    ensures var s := TakeTools(env, sc, deltas).value;
            Grew(sc, s, "", "") && forall k :: ArgsHeld(s, k) == Join(ArgsHeld(sc, k), Fragments(deltas, k))
    decreases |deltas|
  {
    hide Tracks, Undone, TakeTool, ArgsHeld, Grew, Fragment;
    Still(sc);
    if deltas == [] {
    } else {
      TakeToolGrew(env, sc, deltas[0]);
      TakeToolTracks(env, sc, deltas[0]);
      var s1 := TakeTool(env, sc, deltas[0]).value;
      TakeToolsGrew(env, s1, deltas[1..]);
      var s := TakeTools(env, s1, deltas[1..]).value;
      NothingThen(sc, s1, s, "", "");
      forall k
        ensures ArgsHeld(s, k) == Join(ArgsHeld(sc, k), Fragments(deltas, k))
      {
        JoinAssociative(ArgsHeld(sc, k), Fragment(deltas[0], k), Fragments(deltas[1..], k));
      }
    }
  }

  lemma {:induction false} FinishToolGrew(env: Env, sc: Conv, index: int)
    requires FinishTool(env, sc, index).Ok?
    ensures var s := FinishTool(env, sc, index).value;
            Grew(sc, s, "", "") && forall k :: ArgsHeld(s, k) == ArgsHeld(sc, k)
  {
    hide Emit, FlushArgs, Grew, SameButLog;
    Still(sc);
    if index in sc.tools {
      var before := sc.tools[index];
      var after := Sent(before.(announced := true));
      var s1 := sc.(tools := sc.tools[index := after]);
      var s2 := if !before.announced then Emit(s1, ItemAdded(after.blockIndex, FunctionShell(after.id, after.name, ""))) else s1;
      EmitFrame(s1, ItemAdded(after.blockIndex, FunctionShell(after.id, after.name, "")));
      FlushFrame(s2, before, after);
      SameButLogTransitive(FlushArgs(s2, before, after), s2, s1);
      if FinishTool(env, sc, index).value != sc {
        ToolsReplaced(sc, FinishTool(env, sc, index).value, sc.tools[index := after]);
      }
    }
  }

  lemma {:induction false} ToolsReplaced(sc: Conv, s: Conv, tools: map<int, Tool>)
    requires SameButLog(s, sc.(tools := tools))
    requires tools.Keys == sc.tools.Keys && forall k :: k in tools ==> tools[k].args == sc.tools[k].args
    ensures Grew(sc, s, "", "") && forall k :: ArgsHeld(s, k) == ArgsHeld(sc, k)
  {
    hide Said, Thought;
    NothingGrew(sc, s);
  }

  lemma {:induction false} FinishToolsGrew(env: Env, sc: Conv, order: seq<int>)
    requires FinishTools(env, sc, order).Ok?
    ensures var s := FinishTools(env, sc, order).value;
            Grew(sc, s, "", "") && forall k :: ArgsHeld(s, k) == ArgsHeld(sc, k)
    decreases |order|
  {
    hide FinishTool, ArgsHeld, Grew;
    Still(sc);
    if order == [] {
    } else {
      FinishToolGrew(env, sc, order[0]);
      var s1 := FinishTool(env, sc, order[0]).value;
      FinishToolsGrew(env, s1, order[1..]);
      NothingThen(sc, s1, FinishTools(env, s1, order[1..]).value, "", "");
    }
  }

  // ---- one chunk ----

  lemma {:induction false} TakeChoiceGrew(env: Env, sc: Conv, choice: Choice)
    requires Tracks(sc) && Undone(sc) && TakeChoice(env, sc, choice).Ok?
    ensures var s := TakeChoice(env, sc, choice).value;
            Grew(sc, s, choice.content, if choice.reasoning.Some? then choice.reasoning.value else "")
            && forall k :: ArgsHeld(s, k) == Join(ArgsHeld(sc, k), Fragments(choice.toolCalls, k))
  {
    hide Tracks, Undone, Grew, TakeReasoning, TakeContent, TakeTools, Finish;
    var thought := if choice.reasoning.Some? then choice.reasoning.value else "";
    var s1 := if choice.reasoning.Some? then TakeReasoning(sc, choice.reasoning.value) else sc;
    Still(sc);
    if choice.reasoning.Some? {
      TakeReasoningGrew(sc, thought);
      TakeReasoningTracks(sc, thought);
      assert Undone(s1) by {
        StillUndone(sc, s1);
      }
    }
    var s2 := if choice.content != "" then TakeContent(s1, choice.content) else s1;
    Still(s1);
    if choice.content != "" {
      TakeContentGrew(s1, choice.content);
      TakeContentTracks(s1, choice.content);
      assert Undone(s2) by {
        StillUndone(s1, s2);
      }
    }
    ThoughtThenSaid(sc, s1, s2, choice.content, thought);
    TakeToolsGrew(env, s2, choice.toolCalls);
    TakeToolsTracks(env, s2, choice.toolCalls);
    var s3 := TakeTools(env, s2, choice.toolCalls).value;
    ThenNothing(sc, s2, s3, choice.content, thought);
    assert forall k :: ArgsHeld(s2, k) == ArgsHeld(sc, k);
    if choice.finish != "" && !s3.finished {
      FinishGrew(env, s3, choice.finish);
      ThenNothing(sc, s3, Finish(env, s3, choice.finish).value, choice.content, thought);
    }
  }

  lemma {:induction false} StillUndone(sc: Conv, s: Conv)
    requires Undone(sc) && s.tools == sc.tools
    ensures Undone(s)
  {
  }

  lemma {:induction false} Still(sc: Conv)
    ensures Grew(sc, sc, "", "")
  {
    Blank(Said(sc, sc.nextIndex));
    Blank(Thought(sc, sc.nextIndex));
  }

  lemma {:induction false} ThoughtThenSaid(r: Conv, s: Conv, t: Conv, said: string, thought: string)
    requires Grew(r, s, "", thought) && Grew(s, t, said, "")
    ensures Grew(r, t, said, thought)
  {
    Blank(Said(r, r.nextIndex));
    Blank(Thought(s, s.nextIndex));
  }

  lemma {:induction false} FinishGrew(env: Env, sc: Conv, finish: string)
    requires Tracks(sc) && Undone(sc) && Finish(env, sc, finish).Ok?
    ensures var s := Finish(env, sc, finish).value;
            Grew(sc, s, "", "") && forall k :: ArgsHeld(s, k) == ArgsHeld(sc, k)
  {
    hide Tracks, Undone, Grew, FinishTools, StopReasoning;
    FinishToolsGrew(env, sc, sc.toolOrder);
    FinishToolsTracks(env, sc, sc.toolOrder);
    var s1 := FinishTools(env, sc, sc.toolOrder).value;
    var s2 := s1.(finished := true, heldFinish := finish);
    Irrelevant(s1, s2);
    StopReasoningFrame(s2);
    assert OpenOk(s2) by {
      TracksOpen(s2);
    }
    StopReasoningGrew(s2);
    hide Said, Thought;
    Relabeled(s1, s2);
    NothingThen(s1, s2, StopReasoning(s2), "", "");
    NothingThen(sc, s1, StopReasoning(s2), "", "");
  }

  lemma {:induction false} TracksOpen(sc: Conv)
    requires Tracks(sc)
    ensures OpenOk(sc)
  {
  }

  lemma {:induction false} Relabeled(sc: Conv, s: Conv)
    requires s == sc.(finished := s.finished, heldFinish := s.heldFinish, usage := s.usage, flushed := s.flushed)
    ensures Grew(sc, s, "", "")
  {
    hide Said, Thought;
    NothingGrew(sc, s);
  }

  // ---- one chunk, whole runs ----

  /** The converter holds exactly what the chunks carried. */
  ghost predicate Carries(sc: Conv, chunks: seq<Chunk>) {
    && Said(sc, sc.nextIndex) == ContentOf(chunks) && Thought(sc, sc.nextIndex) == ReasoningOf(chunks)
    && (forall k :: ArgsHeld(sc, k) == ArgumentsOf(chunks, k))
    && sc.usage == LastUsage(chunks)
  }

  lemma {:induction false} StartGrew(sc: Conv, chunk: Chunk)
    requires Inv(sc) && !sc.terminalSent
    ensures var s := Start(sc, chunk);
            Grew(sc, s, "", "") && (forall k :: ArgsHeld(s, k) == ArgsHeld(sc, k)) && s.usage == sc.usage
            && (chunk.choices != [] ==> Tracks(s) && Undone(s))
  {
    hide Said, Thought, Tracks;
    if !sc.started && chunk.choices != [] {
      StartTracks(sc, chunk);
    }
    NothingGrew(sc, Start(sc, chunk));
  }

  lemma {:induction false} UsageIrrelevant(sc: Conv, usage: Option<Usage>)
    requires Inv(sc) && !sc.terminalSent
    ensures Inv(sc.(usage := usage)) && Grew(sc, sc.(usage := usage), "", "")
  {
    var s := sc.(usage := usage);
    Irrelevant(sc, s);
    Relabeled(sc, s);
    hide Tracks, Grew;
  }

  lemma {:induction false} TakeChoiceKeepsUsage(env: Env, sc: Conv, choice: Choice)
    requires TakeChoice(env, sc, choice).Ok?
    ensures TakeChoice(env, sc, choice).value.usage == sc.usage
  {
    hide TakeChoice;
    TakeChoiceFollows(env, sc, choice);
  }

  lemma {:induction false} ChunkGrew(env: Env, sc: Conv, chunk: Chunk)
    requires Inv(sc) && !sc.terminalSent && sc.heldFinish == "" && TakeChunk(env, sc, chunk).Ok?
    ensures var s := TakeChunk(env, sc, chunk).value;
            Grew(sc, s, ChunkContent(chunk), ChunkReasoning(chunk))
            && (forall k :: ArgsHeld(s, k) == Join(ArgsHeld(sc, k), ChunkArguments(chunk, k)))
            && s.usage == (if chunk.usage.Some? then chunk.usage else sc.usage)
  {
    hide Tracks, TakeChoice, Start, Undone, ArgsHeld, Inv, Grew, Fragments;
    var usage := if chunk.usage.Some? then chunk.usage else sc.usage;
    var s0 := sc.(usage := usage);
    UsageIrrelevant(sc, usage);
    SameHeld(sc, s0);
    var s1 := Start(s0, chunk);
    StartGrew(s0, chunk);
    NothingThen(sc, s0, s1, "", "");
    if chunk.choices != [] {
      TakeChoiceGrew(env, s1, chunk.choices[0]);
      TakeChoiceKeepsUsage(env, s1, chunk.choices[0]);
      NothingThen(sc, s1, TakeChoice(env, s1, chunk.choices[0]).value, ChunkContent(chunk), ChunkReasoning(chunk));
    }
  }

  lemma {:induction false} ChunkCarries(env: Env, sc: Conv, before: seq<Chunk>, chunk: Chunk)
    requires Inv(sc) && !sc.terminalSent && sc.heldFinish == "" && Carries(sc, before) && TakeChunk(env, sc, chunk).Ok?
    ensures Carries(TakeChunk(env, sc, chunk).value, before + [chunk])
  {
    hide TakeChunk, ArgsHeld, Inv, Said, Thought, ChunkContent, ChunkReasoning, ChunkArguments, Join;
    ChunkGrew(env, sc, chunk);
    var chunks := before + [chunk];
    assert chunks[..|before|] == before && chunks[|before|] == chunk;
  }

  lemma {:induction false} SameHeld(sc: Conv, s: Conv)
    requires s.tools == sc.tools
    ensures forall k :: ArgsHeld(s, k) == ArgsHeld(sc, k)
  {
  }

  /** The response is still open and no finish_reason is waiting for it. */
  lemma {:induction false} RunCarries(env: Env, chunks: seq<Chunk>)
    requires Run(env, chunks).Ok? && !Run(env, chunks).value.terminalSent
    ensures Inv(Run(env, chunks).value) && Carries(Run(env, chunks).value, chunks)
  {
    hide Tracks, TakeChunk, Undone, Carries, Inv;
    RunKeepsInvariant(env, chunks);
    if chunks == [] {
      assert Carries(FRESH, []) by {
        NothingCarried();
      }
    } else {
      var shorter := chunks[..|chunks| - 1];
      var chunk := chunks[|chunks| - 1];
      assert shorter + [chunk] == chunks;
      RunKeepsInvariant(env, shorter);
      var sc := Run(env, shorter).value;
      StillOpen(env, sc, chunk);
      RunCarries(env, shorter);
      ChunkCarries(env, sc, shorter, chunk);
    }
  }

  lemma {:induction false} NothingCarried()
    ensures Carries(FRESH, [])
  {
  }

  // ---- the terminal ----

  lemma {:induction false} CloseToolGrew(env: Env, sc: Conv, index: int)
    requires Tracks(sc) && CloseTool(env, sc, index).Ok? && !TextOpen(sc) && !ThinkOpen(sc)
    ensures var s := CloseTool(env, sc, index).value;
            Grew(sc, s, "", "") && forall k :: ArgsHeld(s, k) == ArgsHeld(sc, k)
  {
    Still(sc);
    var s := CloseTool(env, sc, index).value;
    if s != sc {
      ClosedFrame(env, sc, index);
      ClosingGrew(env, sc, s, index, FinishedCall(env, sc.tools[index]).value);
    }
  }

  lemma {:induction false} ClosingGrew(env: Env, sc: Conv, s: Conv, index: int, item: Item)
    requires ToolsOk(sc) && index in sc.tools && !sc.tools[index].responseDone && (item.FunctionCall? || item.CustomCall?)
    requires SameButLog(s, Closing(sc, index, item)) && !TextOpen(sc) && !ThinkOpen(sc)
    ensures Grew(sc, s, "", "") && forall k :: ArgsHeld(s, k) == ArgsHeld(sc, k)
  {
    hide Said, Thought;
    assert ToolOk(sc, sc.tools[index]);
    NothingGrew(sc, s);
  }

  /** Every finished call is stored as the item its arguments make. */
  ghost predicate Kept(env: Env, sc: Conv) {
    forall k :: k in sc.tools && sc.tools[k].responseDone ==>
      sc.tools[k].blockIndex in sc.responseItems && FinishedCall(env, sc.tools[k]) == Some(sc.responseItems[sc.tools[k].blockIndex])
  }

  lemma {:induction false} CloseToolKept(env: Env, sc: Conv, index: int)
    requires Tracks(sc) && CloseTool(env, sc, index).Ok? && Kept(env, sc)
    ensures Kept(env, CloseTool(env, sc, index).value)
  {
    hide Live, Items, OpenOk, Covered, Mirror, CloseTool, ToolShell;
    var s := CloseTool(env, sc, index).value;
    if s != sc {
      ClosedFrame(env, sc, index);
      forall k | k in s.tools
        ensures FinishedCall(env, s.tools[k]) == FinishedCall(env, sc.tools[k])
      {
      }
      hide FinishedCall;
    }
  }

  lemma {:induction false} CloseToolsGrew(env: Env, sc: Conv, order: seq<int>)
    requires Tracks(sc) && CloseTools(env, sc, order).Ok? && !TextOpen(sc) && !ThinkOpen(sc) && Kept(env, sc)
    ensures var s := CloseTools(env, sc, order).value;
            Grew(sc, s, "", "") && (forall k :: ArgsHeld(s, k) == ArgsHeld(sc, k)) && Kept(env, s)
    decreases |order|
  {
    hide Tracks, CloseTool, ArgsHeld, Kept, Grew;
    Still(sc);
    if order == [] {
    } else {
      CloseToolGrew(env, sc, order[0]);
      CloseToolKept(env, sc, order[0]);
      CloseToolTracks(env, sc, order[0]);
      var s1 := CloseTool(env, sc, order[0]).value;
      CloseToolsGrew(env, s1, order[1..]);
      NothingThen(sc, s1, CloseTools(env, s1, order[1..]).value, "", "");
    }
  }

  lemma {:induction false} QuietedGrew(sc: Conv)
    requires Tracks(sc)
    ensures Grew(sc, Quieted(sc), "", "") && Quieted(sc).tools == sc.tools
  {
    hide Tracks, StopReasoning, CloseText, StatusAtEnd, Grew;
    var s0 := sc.(heldFinish := "");
    Irrelevant(sc, s0);
    Relabeled(sc, s0);
    TracksOpen(s0);
    StopReasoningGrew(s0);
    StopReasoningTracks(s0);
    StopReasoningFrame(s0);
    var s1 := StopReasoning(s0);
    TracksOpen(s1);
    CloseTextGrew(s1, StatusAtEnd(sc));
    CloseTextFrame(s1, StatusAtEnd(sc));
    NothingThen(sc, s0, s1, "", "");
    NothingThen(sc, s1, Quieted(sc), "", "");
  }

  // ---- the finished response ----

  function MessageText(output: seq<Item>): string {
    if output == [] then ""
    else
      var last := output[|output| - 1];
      MessageText(output[..|output| - 1]) + (if last.Message? then last.text else "")
  }

  function ThinkingText(output: seq<Item>): string {
    if output == [] then ""
    else
      var last := output[|output| - 1];
      ThinkingText(output[..|output| - 1]) + (if last.Reasoning? then last.text else "")
  }

  /** The output holds all text and thinking of the chunks in order; `place` says
      where it holds, for each upstream call, the item that the call's own fragments
      amount to; and it holds no other call. */
  ghost predicate Conveys(env: Env, output: seq<Item>, chunks: seq<Chunk>, place: map<int, nat>) {
    && MessageText(output) == ContentOf(chunks)
    && ThinkingText(output) == ReasoningOf(chunks)
    && (forall k :: k in place <==> ArgumentsOf(chunks, k).Some?)
    && (forall k :: k in place ==>
          place[k] < |output|
          && Some(output[place[k]]) == ItemOf(env, Named(env.tools, DeltasOf(chunks, k)), ArgumentsOf(chunks, k).value))
    && (forall j, k :: j in place && k in place && j != k ==> place[j] != place[k])
    && (forall i :: 0 <= i < |output| && IsCall(output[i]) ==> exists k :: k in place && place[k] == i)
  }

  lemma {:induction false} OutputText(sc: Conv, n: nat)
    requires !TextOpen(sc) && !ThinkOpen(sc) && forall i: nat :: i < n ==> i in sc.responseItems
    ensures MessageText(Output(sc.responseItems, n)) == Said(sc, n)
    ensures ThinkingText(Output(sc.responseItems, n)) == Thought(sc, n)
  {
    if n == 0 {
    } else {
      OutputText(sc, n - 1);
      var output := Output(sc.responseItems, n);
      assert output[..|output| - 1] == Output(sc.responseItems, n - 1);
    }
  }

  ghost function Places(sc: Conv): map<int, nat> {
    map k | k in sc.tools :: sc.tools[k].blockIndex
  }

  lemma {:induction false} StoredConveys(env: Env, sc: Conv, chunks: seq<Chunk>)
    requires Tracks(sc) && !TextOpen(sc) && !ThinkOpen(sc) && Kept(env, sc) && CallsOwned(sc)
    requires forall k :: k in sc.tools ==> sc.tools[k].responseDone
    requires forall i: nat :: i < sc.nextIndex ==> i in sc.responseItems
    requires Said(sc, sc.nextIndex) == ContentOf(chunks) && Thought(sc, sc.nextIndex) == ReasoningOf(chunks)
    requires forall k :: ArgsHeld(sc, k) == ArgumentsOf(chunks, k)
    requires forall k :: NameStays(env.tools, sc, k, DeltasOf(chunks, k))
    ensures Conveys(env, Output(sc.responseItems, sc.nextIndex), chunks, Places(sc))
  {
    hide Said, Thought, Live, Items, Covered, Mirror, OpenOk, ContentOf, ReasoningOf, MessageText, ThinkingText, ArgumentsOf;
    hide Named, ItemOf, FinishedCall, DeltasOf;
    OutputText(sc, sc.nextIndex);
    OutputComplete(sc.responseItems, sc.nextIndex);
    var output := Output(sc.responseItems, sc.nextIndex);
    forall k | k in sc.tools
      ensures ArgumentsOf(chunks, k) == Some(sc.tools[k].args) && sc.tools[k].blockIndex < |output|
      ensures Some(output[sc.tools[k].blockIndex]) == ItemOf(env, Named(env.tools, DeltasOf(chunks, k)), sc.tools[k].args)
    {
      assert ArgsHeld(sc, k) == ArgumentsOf(chunks, k);
      assert ToolOk(sc, sc.tools[k]);
      assert NameStays(env.tools, sc, k, DeltasOf(chunks, k));
      ItemIsOf(env, sc.tools[k]);
      AnnouncingIsNothing(env, Named(env.tools, DeltasOf(chunks, k)), sc.tools[k].args);
    }
    forall k
      ensures k in sc.tools <==> ArgumentsOf(chunks, k).Some?
    {
      assert ArgsHeld(sc, k) == ArgumentsOf(chunks, k);
    }
    forall i | 0 <= i < |output| && IsCall(output[i])
      ensures exists k :: k in Places(sc) && Places(sc)[k] == i
    {
      assert ToolAt(sc, i);
      var k :| k in sc.tools && sc.tools[k].blockIndex == i;
      assert k in Places(sc) && Places(sc)[k] == i;
    }
    assert PlacesApart(sc);
    hide ToolsOk, Kept, CallsOwned, NameStays;
  }

  ghost predicate PlacesApart(sc: Conv) {
    forall j, k :: j in sc.tools && k in sc.tools && j != k ==> sc.tools[j].blockIndex != sc.tools[k].blockIndex
  }

  lemma {:induction false} TerminalConveys(env: Env, sc: Conv, chunks: seq<Chunk>, allowSynthetic: bool)
    requires Tracks(sc) && Undone(sc) && !sc.terminalSent && (allowSynthetic || sc.heldFinish != "")
    requires Said(sc, sc.nextIndex) == ContentOf(chunks) && Thought(sc, sc.nextIndex) == ReasoningOf(chunks)
    requires forall k :: ArgsHeld(sc, k) == ArgumentsOf(chunks, k)
    requires CallsOwned(sc) && forall k :: NameStays(env.tools, sc, k, DeltasOf(chunks, k))
    requires Terminal(env, sc, allowSynthetic).Ok? && Shape.Shaped(Shape.CoreOf(sc), Shape.LineOf(chunks))
    ensures var o := BeforeCompleted(env, sc);
            && o.Ok? && Conveys(env, Output(o.value.responseItems, o.value.nextIndex), chunks, Places(o.value))
            && Shape.Shows(Output(o.value.responseItems, o.value.nextIndex), Shape.LineOf(chunks), Places(o.value), sc.id, StatusAtEnd(sc))
  {
    hide Shape.Shaped, Shape.Shows, Shape.LineOf, StatusAtEnd;
    hide Tracks, Undone, Said, Thought, ArgsHeld, Terminal, CloseTools, Quieted, Conveys, SealedBy, Places, Kept, NameStays, CallsOwned;
    TerminalSeals(env, sc, allowSynthetic);
    var s1 := Quieted(sc);
    QuietedGrew(sc);
    QuietedTracks(sc);
    ClosesSame(sc, s1);
    StillUndone(sc, s1);
    UndoneKept(env, s1);
    SameHeld(sc, s1);
    CloseToolsGrew(env, s1, s1.toolOrder);
    var s2 := BeforeCompleted(env, sc).value;
    NothingThen(sc, s1, s2, "", "");
    Blank(Said(sc, sc.nextIndex));
    Blank(Thought(sc, sc.nextIndex));
    SealedParts(sc, s2, Terminal(env, sc, allowSynthetic).value);
    TerminalNeedsAll(env, sc, allowSynthetic);
    OrderIsTools(s2);
    TerminalOwns(env, sc);
    forall k
      ensures NameStays(env.tools, s2, k, DeltasOf(chunks, k))
    {
      TerminalNames(env, sc, k, DeltasOf(chunks, k));
    }
    StoredConveys(env, s2, chunks);
    Shape.TerminalShows(env, sc, Shape.LineOf(chunks));
    PlacesOfCore(s2);
  }

  lemma {:induction false} PlacesOfCore(sc: Conv)
    ensures Shape.CoreOf(sc).places == Places(sc)
  {
  }

  /** An open run has the shape of its chunks, whatever its usage and flush say. */
  lemma {:induction false} ShapedToo(env: Env, chunks: seq<Chunk>, s: Conv)
    requires Run(env, chunks).Ok? && !Run(env, chunks).value.terminalSent
    requires s == Run(env, chunks).value.(usage := s.usage, flushed := s.flushed)
    ensures Shape.Shaped(Shape.CoreOf(s), Shape.LineOf(chunks))
  {
    hide Run, Shape.Shaped, Shape.LineOf;
    Shape.RunShaped(env, chunks);
    assert Shape.CoreOf(s) == Shape.CoreOf(Run(env, chunks).value);
  }

  lemma {:induction false} UndoneKept(env: Env, sc: Conv)
    requires Undone(sc)
    ensures Kept(env, sc)
  {
  }

  lemma {:induction false} SealedParts(sc: Conv, s2: Conv, s: Conv)
    requires SealedBy(sc, s2, s)
    ensures Tracks(s2) && !TextOpen(s2) && !ThinkOpen(s2) && forall i: nat :: i < s2.nextIndex ==> i in s2.responseItems
    ensures Sealed(s) && Replay(s.log).Client? && Replay(s.log).trailing == 0
    ensures Replay(s.log).completed == Some(Completed(sc.id, sc.model, StatusAtEnd(sc), sc.usage, Output(s2.responseItems, s2.nextIndex)))
  {
    hide Tracks, StatusAtEnd;
  }

  lemma {:induction false} TerminalNeedsAll(env: Env, sc: Conv, allowSynthetic: bool)
    requires !sc.terminalSent && (allowSynthetic || sc.heldFinish != "") && Terminal(env, sc, allowSynthetic).Ok?
    ensures var s2 := BeforeCompleted(env, sc).value;
            BeforeCompleted(env, sc).Ok? && forall i :: i in s2.toolOrder && i in s2.tools ==> s2.tools[i].responseDone
  {
    hide StopReasoning, CloseText, CloseTools, StatusOf;
  }

  /** What a run knows of its calls when the terminal comes. */
  lemma {:induction false} RunCalls(env: Env, chunks: seq<Chunk>, s: Conv)
    requires Run(env, chunks).Ok? && !Run(env, chunks).value.terminalSent
    requires s.tools == Run(env, chunks).value.tools && s.responseItems == Run(env, chunks).value.responseItems
    ensures CallsOwned(s) && forall k :: NameStays(env.tools, s, k, DeltasOf(chunks, k))
  {
    hide Run, DeltasOf, NameStays;
    var sc := Run(env, chunks).value;
    RunOwns(env, chunks);
    SameItems(sc, s);
    TalkKeepsOwned(sc, s);
    forall k
      ensures NameStays(env.tools, s, k, DeltasOf(chunks, k))
    {
      RunNames(env, chunks, k);
      SameTool(env.tools, sc, s, k, DeltasOf(chunks, k));
    }
  }

  // ---- the theorems ----

  /** The first chunk after the finish_reason completes the response. Its output
      conveys everything up to and including the finishing chunk, its usage is
      the trailer's if the trailer has one. */
  lemma {:induction false} TrailerCompletes(env: Env, chunks: seq<Chunk>, trailer: Chunk) returns (output: seq<Item>, place: map<int, nat>)
    requires Run(env, chunks).Ok? && !Run(env, chunks).value.terminalSent && Run(env, chunks).value.heldFinish != ""
    requires Run(env, chunks + [trailer]).Ok?
    ensures var c := Replay(Run(env, chunks + [trailer]).value.log);
            c.Client? && c.completed == Some(Completed(Run(env, chunks).value.id, Run(env, chunks).value.model, StatusOf(Run(env, chunks).value.heldFinish),
                                                          LastUsage(chunks + [trailer]), output))
    ensures Conveys(env, output, chunks, place)
    ensures Shape.Shows(output, Shape.LineOf(chunks), place, Run(env, chunks).value.id, StatusOf(Run(env, chunks).value.heldFinish))
  {
    hide Shape.Shaped, Shape.Shows, Shape.LineOf;
    hide Tracks, Undone, TakeChunk, Said, Thought, ArgsHeld, Terminal, SealedBy, BeforeCompleted, Conveys, Sealed, Untouched, Places, NameStays, CallsOwned;
    var all := chunks + [trailer];
    assert all[..|chunks|] == chunks && all[|chunks|] == trailer;
    RunCarries(env, chunks);
    var sc := Run(env, chunks).value;
    HeldIsStarted(sc);
    assert Undone(sc);
    ChunkEndsResponse(env, sc, trailer);
    var s0 := WithUsage(sc, trailer);
    StillUndone(sc, s0);
    SameHeld(sc, s0);
    Relabeled(sc, s0);
    Blank(Said(sc, sc.nextIndex));
    Blank(Thought(sc, sc.nextIndex));
    RunCalls(env, chunks, s0);
    ShapedToo(env, chunks, s0);
    TerminalConveys(env, s0, chunks, false);
    var s2 := BeforeCompleted(env, s0).value;
    SealedParts(s0, s2, Terminal(env, s0, false).value);
    output := Output(s2.responseItems, s2.nextIndex);
    place := Places(s2);
    FollowsKeepsCompleted(Terminal(env, s0, false).value, TakeChunk(env, sc, trailer).value);
  }

  lemma {:induction false} FollowsKeepsCompleted(sc: Conv, s: Conv)
    requires Follows(sc, s) && Sealed(sc)
    ensures Replay(s.log).Client? && Replay(s.log).completed == Replay(sc.log).completed
  {
  }

  /** [DONE] (or, at end of input, the flush) completes a response that no
      trailer completed; without a finish_reason the status is that of "stop". */
  lemma {:induction false} EndCompletes(env: Env, chunks: seq<Chunk>) returns (output: seq<Item>, place: map<int, nat>)
    requires Run(env, chunks).Ok? && !Run(env, chunks).value.terminalSent
    requires Terminal(env, Run(env, chunks).value, true).Ok?
    ensures var sc := Run(env, chunks).value;
            var c := Replay(Terminal(env, sc, true).value.log);
            && c.Client? && c.trailing == 0
            && c.completed == Some(Completed(sc.id, sc.model, StatusOf(if sc.heldFinish == "" then "stop" else sc.heldFinish), LastUsage(chunks), output))
    ensures Conveys(env, output, chunks, place)
    ensures var sc := Run(env, chunks).value;
            Shape.Shows(output, Shape.LineOf(chunks), place, sc.id, StatusOf(if sc.heldFinish == "" then "stop" else sc.heldFinish))
  {
    hide *;
    output, place := ClosingCompletes(env, chunks, Run(env, chunks).value);
  }

  /** The same whether or not the converter has noted that it is being flushed. */
  lemma {:induction false} ClosingCompletes(env: Env, chunks: seq<Chunk>, s: Conv) returns (output: seq<Item>, place: map<int, nat>)
    requires Run(env, chunks).Ok? && !Run(env, chunks).value.terminalSent && s == Run(env, chunks).value.(flushed := s.flushed)
    requires Terminal(env, s, true).Ok?
    ensures var c := Replay(Terminal(env, s, true).value.log);
            && s.started && c.Client? && c.trailing == 0
            && c.completed == Some(Completed(s.id, s.model, StatusOf(if s.heldFinish == "" then "stop" else s.heldFinish), LastUsage(chunks), output))
    ensures Conveys(env, output, chunks, place)
    ensures Shape.Shows(output, Shape.LineOf(chunks), place, s.id, StatusOf(if s.heldFinish == "" then "stop" else s.heldFinish))
  {
    hide Shape.Shaped, Shape.Shows, Shape.LineOf;
    hide Tracks, Undone, TakeChunk, Said, Thought, ArgsHeld, SealedBy, BeforeCompleted, Conveys, Sealed, Untouched, Places, NameStays, CallsOwned;
    RunCarries(env, chunks);
    var sc := Run(env, chunks).value;
    FlushingKeeps(sc, s);
    SameHeld(sc, s);
    Relabeled(sc, s);
    Blank(Said(sc, sc.nextIndex));
    Blank(Thought(sc, sc.nextIndex));
    EmptyStreamFails(env, s);
    hide Terminal;
    TerminalSeals(env, s, true);
    RunCalls(env, chunks, s);
    ShapedToo(env, chunks, s);
    TerminalConveys(env, s, chunks, true);
    var s2 := BeforeCompleted(env, s).value;
    SealedParts(s, s2, Terminal(env, s, true).value);
    output := Output(s2.responseItems, s2.nextIndex);
    place := Places(s2);
  }

  lemma {:induction false} FlushingKeeps(sc: Conv, s: Conv)
    requires Inv(sc) && s == sc.(flushed := s.flushed)
    ensures Inv(s)
  {
    Irrelevant(sc, s);
    hide Tracks;
  }

  lemma {:induction false} EmptyStreamFails(env: Env, sc: Conv)
    requires Inv(sc) && !sc.terminalSent && Terminal(env, sc, true).Ok?
    ensures sc.started && Tracks(sc) && Undone(sc)
  {
    hide Tracks, Undone;
  }

  /** [DONE] closes a thinking run first, which the terminal would do anyway. */
  lemma {:induction false} DoneIsTheTerminal(env: Env, sc: Conv)
    requires !sc.terminalSent
    ensures TakeDone(env, sc).Ok? == Terminal(env, sc, true).Ok?
    ensures TakeDone(env, sc).Err? ==> TakeDone(env, sc).error == Terminal(env, sc, true).error
    ensures TakeDone(env, sc).Ok? ==> TakeDone(env, sc).value == Terminal(env, sc, true).value.(done := true)
  {
    hide Complete, StatusOf, StopReasoning;
    StopReasoningFrame(sc);
    StopsOnce(sc);
    CompleteStops(env, StopReasoning(sc).(heldFinish := ""), sc.(heldFinish := ""),
                  StatusOf(if sc.heldFinish == "" then "stop" else sc.heldFinish));
  }

  lemma {:induction false} CompleteStops(env: Env, s: Conv, t: Conv, status: string)
    requires StopReasoning(s) == StopReasoning(t)
    ensures Complete(env, s, status) == Complete(env, t, status)
  {
    hide CloseText, CloseTools, Output, Emit, StopReasoning;
  }

  lemma {:induction false} StopsOnce(sc: Conv)
    ensures StopReasoning(StopReasoning(sc).(heldFinish := "")) == StopReasoning(sc.(heldFinish := ""))
    ensures StopReasoning(sc).heldFinish == sc.heldFinish
  {
    hide Emit;
    if ThinkOpen(sc) {
      var i := AsIndex(sc.thinkIndexIn);
      var item := Reasoning(sc.thinkItemID, sc.thinkBuf);
      var s0 := sc.(thinkStopped := true, responseItems := sc.responseItems[i := item]);
      Unheld(s0, TextDone(sc.thinkItemID, i, sc.thinkBuf));
      var s1 := Emit(s0, TextDone(sc.thinkItemID, i, sc.thinkBuf));
      Unheld(s1, PartDone(sc.thinkItemID, i, sc.thinkBuf));
      var s2 := Emit(s1, PartDone(sc.thinkItemID, i, sc.thinkBuf));
      Unheld(s2, ItemDone(i, item));
    }
  }

  lemma {:induction false} Unheld(sc: Conv, b: Body)
    ensures Emit(sc, b).(heldFinish := "") == Emit(sc.(heldFinish := ""), b)
    ensures Emit(sc, b).heldFinish == sc.heldFinish && Emit(sc, b).thinkStopped == sc.thinkStopped
  {
  }

  // ---- argument streaming, at every moment ----

  /** For each call of an open response: once announced as a function, the
      deltas emitted so far are exactly the argument bytes received so far, and
      argsSent counts them; before that, and for custom calls, there are none. */
  lemma {:induction false} ArgumentsAreStreamed(env: Env, chunks: seq<Chunk>, k: int)
    requires Run(env, chunks).Ok? && !Run(env, chunks).value.terminalSent && k in Run(env, chunks).value.tools
    ensures var sc := Run(env, chunks).value;
            var t := sc.tools[k];
            var streams := t.announced && !t.custom;
            && ArgumentsOf(chunks, k) == Some(t.args) && t.argsSent <= |t.args|
            && ArgsStream(sc.log, t.blockIndex) == t.args[..t.argsSent]
            && t.argsSent == (if streams then |t.args| else 0)
  {
    hide Carries, Covered, Replay, AcceptItem, Run, OpenAt;
    RunCarries(env, chunks);
    var sc := Run(env, chunks).value;
    var t := sc.tools[k];
    assert ArgumentsOf(chunks, k) == Some(t.args) by {
      CarriesArgs(sc, chunks, k);
    }
    assert Tracks(sc) && ToolOk(sc, t);
    AcceptedIsTallied(sc.log, t.blockIndex);
    if !t.announced {
      assert t.blockIndex !in Items(sc) by {
        UnannouncedUnseen(sc, k);
      }
    }
  }

  lemma {:induction false} CarriesArgs(sc: Conv, chunks: seq<Chunk>, k: int)
    requires Carries(sc, chunks) && k in sc.tools
    ensures ArgumentsOf(chunks, k) == Some(sc.tools[k].args)
  {
    assert ArgsHeld(sc, k) == ArgumentsOf(chunks, k);
  }

  /** The client has not heard of a call that is not announced. */
  lemma {:induction false} UnannouncedUnseen(sc: Conv, k: int)
    requires Tracks(sc) && k in sc.tools && !sc.tools[k].announced
    ensures sc.tools[k].blockIndex !in Items(sc)
  {
    hide Live, Items, ToolView, Covered;
    assert ToolOk(sc, sc.tools[k]);
    assert !AnnouncedAt(sc, sc.tools[k].blockIndex);
  }
}
