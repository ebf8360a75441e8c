/** When the Chat Completions -> Responses leg fails: exactly when a call is not
    complete at the finish_reason or at the end, when arguments come for a call that
    is done, or when the stream carried no choice. */
module ChatToResponsesFailures {
  import opened Common
  import opened ToolNames
  import opened ChatChunks
  import opened ChatPayloads
  import opened LineFeed
  import opened ResponsesProtocol
  import opened ChatToResponses
  import opened ChatToResponsesSafety
  import opened ChatToResponsesRuns
  import opened ChatToResponsesCalls
  import opened ChatToResponsesContent
  import opened ChatToResponsesTail
  import opened ChatToResponsesConverter
  import opened ChatToResponsesBytes

  /** The call's fragments amount to an item. */
  ghost predicate Whole(env: Env, chunks: seq<Chunk>, k: int) {
    ArgumentsOf(chunks, k).Some? ==> ItemOf(env, Named(env.tools, DeltasOf(chunks, k)), ArgumentsOf(chunks, k).value).Some?
  }

  /** The call's name is decided. */
  ghost predicate Known(env: Env, chunks: seq<Chunk>, k: int) {
    ArgumentsOf(chunks, k).Some? ==> Decided(env.tools, Spelled(Settled(env.tools, DeltasOf(chunks, k))))
  }

  /** The call is one of a custom tool. */
  ghost predicate Custom(env: Env, chunks: seq<Chunk>, k: int) { Named(env.tools, DeltasOf(chunks, k)).custom }

  ghost predicate LateDelta(told: seq<Chunk>, tc: ToolDelta) { tc.args != "" && ArgumentsOf(told, tc.index).Some? }

  /** The chunk has arguments for a call of the chunks told. */
  ghost predicate Late(told: seq<Chunk>, chunk: Chunk) {
    chunk.choices != [] && exists i :: 0 <= i < |chunk.choices[0].toolCalls| && LateDelta(told, chunk.choices[0].toolCalls[i])
  }

  /** What the converter demands of the chunks: at the first finish_reason every call
      is whole, and behind it none gets arguments. */
  ghost predicate Goes(env: Env, chunks: seq<Chunk>) {
    EndsInFinish(Told(chunks)) ==>
      && (forall k :: Whole(env, Told(chunks), k))
      && (forall n :: |Told(chunks)| <= n < |chunks| ==> !Late(Told(chunks), chunks[n]))
  }

  /** What the end demands of chunks without a finish_reason: a choice, and calls
      that are whole under decided names. */
  ghost predicate Ends(env: Env, chunks: seq<Chunk>) {
    EndsInFinish(Told(chunks)) || (Opener(chunks).Some? && forall k :: Known(env, chunks, k) && Whole(env, chunks, k))
  }

  // ---- fragments ----

  ghost function DoneCalls(sc: Conv): set<int> {
    set k | k in sc.tools && sc.tools[k].responseDone
  }

  lemma {:induction false} TakeToolExactly(env: Env, sc: Conv, tc: ToolDelta)
    ensures TakeTool(env, sc, tc).Ok? <==> !(tc.args != "" && tc.index in DoneCalls(sc))
    ensures TakeTool(env, sc, tc).Err? ==> TakeTool(env, sc, tc).error == ArgumentsAfterCompletion
    ensures TakeTool(env, sc, tc).Ok? ==> DoneCalls(TakeTool(env, sc, tc).value) == DoneCalls(sc)
  {
    hide StopReasoning, CloseText, Resolve, Absorb, Sent, FlushArgs, Emit, OpenTool, ToolShell;
    StopReasoningFrame(sc);
    CloseTextFrame(StopReasoning(sc), "completed");
    assert TakeTool(env, sc, tc).Ok? <==> !(tc.args != "" && tc.index in DoneCalls(sc));
    if TakeTool(env, sc, tc).Ok? {
      TakeToolTools(env, sc, tc);
      AbsorbingEndsNothing(env.tools, Found(sc, tc), tc);
      hide TakeTool;
    }
  }

  lemma {:induction false} AbsorbingEndsNothing(ctx: ToolContext, t: Tool, tc: ToolDelta)
    ensures Sent(Resolve(ctx, Absorb(t, tc))).responseDone == t.responseDone
  {
    hide ClassifyStreamedName, ResolveChatName, MergeName;
  }

  lemma {:induction false} TakeToolsExactly(env: Env, sc: Conv, deltas: seq<ToolDelta>)
    ensures TakeTools(env, sc, deltas).Err? ==> TakeTools(env, sc, deltas).error == ArgumentsAfterCompletion
    ensures TakeTools(env, sc, deltas).Ok? <==> forall i :: 0 <= i < |deltas| ==> !(deltas[i].args != "" && deltas[i].index in DoneCalls(sc))
    ensures TakeTools(env, sc, deltas).Ok? ==> DoneCalls(TakeTools(env, sc, deltas).value) == DoneCalls(sc)
    decreases |deltas|
  {
    hide TakeTool, DoneCalls;
    if deltas == [] {
    } else {
      TakeToolExactly(env, sc, deltas[0]);
      if TakeTool(env, sc, deltas[0]).Ok? {
        TakeToolsExactly(env, TakeTool(env, sc, deltas[0]).value, deltas[1..]);
        forall i | 0 < i < |deltas|
          ensures deltas[i] == deltas[1..][i - 1]
        {
        }
      }
    }
  }

  /** Thinking and text leave the calls alone. */
  lemma {:induction false} SpeakTools(sc: Conv, choice: Choice)
    ensures var s := Speak(sc, choice);
            s.tools == sc.tools && s.toolOrder == sc.toolOrder && s.finished == sc.finished
  {
    hide TakeReasoning, TakeContent;
    if choice.reasoning.Some? {
      ThinkingTools(sc, choice.reasoning.value);
    }
    var s1 := if choice.reasoning.Some? then TakeReasoning(sc, choice.reasoning.value) else sc;
    SayingTools(s1, choice.content);
  }

  lemma {:induction false} ThinkingTools(sc: Conv, text: string)
    ensures var s := TakeReasoning(sc, text);
            s.tools == sc.tools && s.toolOrder == sc.toolOrder && s.finished == sc.finished
  {
    hide CloseText;
    CloseTextFrame(sc, "completed");
  }

  lemma {:induction false} SayingTools(sc: Conv, text: string)
    ensures var s := TakeContent(sc, text);
            s.tools == sc.tools && s.toolOrder == sc.toolOrder && s.finished == sc.finished
  {
    hide StopReasoning, OpenText, Emit;
    StopReasoningFrame(sc);
    OpenTextTools(StopReasoning(sc));
    var s1 := OpenText(StopReasoning(sc));
    EmitTools(s1.(respText := s1.respText + text), TextDelta(s1.msgItemID, AsIndex(s1.msgIndex), text));
  }

  lemma {:induction false} EmitTools(sc: Conv, b: Body)
    ensures var s := Emit(sc, b);
            s.tools == sc.tools && s.toolOrder == sc.toolOrder && s.finished == sc.finished
  {
  }

  lemma {:induction false} OpenTextTools(sc: Conv)
    ensures var s := OpenText(sc);
            s.tools == sc.tools && s.toolOrder == sc.toolOrder && s.finished == sc.finished
  {
  }

  // ---- the finish_reason ----

  /** What is wrong with a call that is not whole. */
  function Fault(custom: bool): StreamError { if custom then BadCustomInput else IncompleteArguments }

  /** At the finish a call passes exactly if it is whole; the others stay as they are. */
  lemma {:induction false} FinishToolExactly(env: Env, sc: Conv, index: int)
    ensures FinishTool(env, sc, index).Ok? <==> (index in sc.tools ==> FinishedCall(env, sc.tools[index]).Some?)
    ensures FinishTool(env, sc, index).Err? ==> FinishTool(env, sc, index).error == Fault(sc.tools[index].custom)
    ensures var o := FinishTool(env, sc, index);
            o.Ok? ==> o.value.tools.Keys == sc.tools.Keys && (forall k :: k in sc.tools ==> o.value.tools[k].custom == sc.tools[k].custom)
                      && (forall k :: k in sc.tools ==> FinishedCall(env, o.value.tools[k]).Some? == FinishedCall(env, sc.tools[k]).Some?)
                      && (forall k :: k in sc.tools && (k == index || sc.tools[k].announced) ==> o.value.tools[k].announced)
  {
    hide Emit, FlushArgs, SameButLog;
    if index in sc.tools && FinishTool(env, sc, index).Ok? {
      FinishToolFrame(env, sc, index);
      AdvancedTools(sc, FinishTool(env, sc, index).value, index, Sent(sc.tools[index].(announced := true)));
      hide FinishTool;
    }
  }

  lemma {:induction false} FinishToolsExactly(env: Env, sc: Conv, order: seq<int>)
    ensures FinishTools(env, sc, order).Ok? <==> forall i :: i in order && i in sc.tools ==> FinishedCall(env, sc.tools[i]).Some?
    ensures var o := FinishTools(env, sc, order);
            o.Err? ==> exists i :: i in order && i in sc.tools && FinishedCall(env, sc.tools[i]).None? && o.error == Fault(sc.tools[i].custom)
    ensures var o := FinishTools(env, sc, order);
            o.Ok? ==> o.value.tools.Keys == sc.tools.Keys
                      && forall k :: k in sc.tools && (k in order || sc.tools[k].announced) ==> o.value.tools[k].announced
    decreases |order|
  {
    hide FinishTool, FinishedCall;
    if order == [] {
    } else {
      FinishToolExactly(env, sc, order[0]);
      if FinishTool(env, sc, order[0]).Ok? {
        FinishToolsExactly(env, FinishTool(env, sc, order[0]).value, order[1..]);
        forall i
          ensures i in order <==> i == order[0] || i in order[1..]
        {
        }
      }
    }
  }

  // ---- the terminal ----

  ghost predicate Bad(env: Env, t: Tool) { !t.responseDone && t.announced && t.custom && FinishedCall(env, t).None? }

  ghost predicate CanClose(env: Env, t: Tool) { t.responseDone || (t.announced && FinishedCall(env, t).Some?) }

  lemma {:induction false} CloseToolExactly(env: Env, sc: Conv, index: int)
    requires index in sc.tools
    ensures var o, t := CloseTool(env, sc, index), sc.tools[index];
            && (o.Err? <==> Bad(env, t)) && (o.Err? ==> o.error == BadCustomInput)
            && (o.Ok? ==> o.value.tools == if CanClose(env, t) then sc.tools[index := t.(responseDone := true)] else sc.tools)
            && (o.Ok? ==> o.value.toolOrder == sc.toolOrder)
  {
    hide Emit, SameButLog, Closing, OutputName;
    var t := sc.tools[index];
    if t.responseDone {
      assert sc.tools[index := t.(responseDone := true)] == sc.tools;
    } else if t.announced && FinishedCall(env, t).Some? {
      var item := FinishedCall(env, t).value;
      var b := if t.custom then InputDone(t.id, t.blockIndex, item.input) else ArgsDone(t.id, t.blockIndex, DefaultArgs(t.args));
      EmitTwiceFrame(Closing(sc, index, item), b, ItemDone(t.blockIndex, item));
      ClosedTools(sc, CloseTool(env, sc, index).value, index, item);
    }
  }

  lemma {:induction false} ClosedTools(sc: Conv, s: Conv, index: int, item: Item)
    requires index in sc.tools && SameButLog(s, Closing(sc, index, item))
    ensures s.tools == sc.tools[index := sc.tools[index].(responseDone := true)] && s.toolOrder == sc.toolOrder
  {
  }

  /** The closing loop ends exactly the calls that can close. */
  lemma {:induction false} CloseToolsExactly(env: Env, sc: Conv, order: seq<int>)
    requires forall i :: i in order ==> i in sc.tools
    ensures var o := CloseTools(env, sc, order);
            && (o.Err? <==> exists i :: i in order && Bad(env, sc.tools[i])) && (o.Err? ==> o.error == BadCustomInput)
            && (o.Ok? ==> o.value.tools.Keys == sc.tools.Keys && o.value.toolOrder == sc.toolOrder
                          && forall k :: k in sc.tools ==>
                               o.value.tools[k] == if k in order && CanClose(env, sc.tools[k]) then sc.tools[k].(responseDone := true) else sc.tools[k])
    decreases |order|
  {
    hide CloseTool, FinishedCall;
    if order == [] {
    } else {
      CloseToolExactly(env, sc, order[0]);
      if CloseTool(env, sc, order[0]).Ok? {
        var s1 := CloseTool(env, sc, order[0]).value;
        CloseToolsExactly(env, s1, order[1..]);
        forall i
          ensures i in order <==> i == order[0] || i in order[1..]
        {
        }
        assert forall i :: i in order ==> CanClose(env, s1.tools[i]) == CanClose(env, sc.tools[i]);
        assert forall i :: i in order ==> Bad(env, s1.tools[i]) == Bad(env, sc.tools[i]);
      }
    }
  }

  /** A response that was held or begun completes exactly if every call can close. */
  lemma {:induction false} TerminalExactly(env: Env, sc: Conv, allowSynthetic: bool)
    requires !sc.terminalSent && (sc.heldFinish != "" || allowSynthetic) && forall k :: k in sc.toolOrder <==> k in sc.tools
    ensures var o := Terminal(env, sc, allowSynthetic);
            && (o.Ok? <==> (sc.heldFinish != "" || sc.started) && forall k :: k in sc.tools ==> CanClose(env, sc.tools[k]))
            && (o.Ok? ==> DoneCalls(o.value) == sc.tools.Keys == o.value.tools.Keys)
            && (o.Err? ==> o.error == if sc.heldFinish == "" && !sc.started then EmptyStream
                                      else if exists k :: k in sc.tools && Bad(env, sc.tools[k]) then BadCustomInput else IncompleteTool)
  {
    hide StopReasoning, CloseText, CloseTools, StatusOf, CanClose, Output, Bad;
    var s0, status := sc.(heldFinish := ""), StatusOf(if sc.heldFinish == "" then "stop" else sc.heldFinish);
    StopReasoningFrame(s0);
    CloseTextFrame(StopReasoning(s0), status);
    var s1 := CloseText(StopReasoning(s0), status);
    CloseToolsExactly(env, s1, s1.toolOrder);
    var o := CloseTools(env, s1, s1.toolOrder);
    forall k | k in sc.tools && Bad(env, sc.tools[k])
      ensures !CanClose(env, sc.tools[k])
    {
      DoneCanClose(env, sc.tools[k]);
    }
    if o.Ok? {
      forall k | k in sc.tools
        ensures o.value.tools[k].responseDone <==> CanClose(env, sc.tools[k])
      {
        DoneCanClose(env, sc.tools[k]);
        assert k in s1.toolOrder;
      }
      assert (forall k :: k in sc.tools ==> CanClose(env, sc.tools[k])) ==> DoneCalls(o.value) == sc.tools.Keys;
    }
  }

  lemma {:induction false} DoneCanClose(env: Env, t: Tool)
    ensures t.responseDone ==> CanClose(env, t)
    ensures Bad(env, t) ==> !CanClose(env, t)
  {
  }

  // ---- the calls of a run ----

  /** An open run has exactly the calls of its chunks; each is whole if they are. */
  lemma {:induction false} RunHolds(env: Env, chunks: seq<Chunk>)
    requires Run(env, chunks).Ok? && !Run(env, chunks).value.terminalSent
    ensures var sc := Run(env, chunks).value;
            && DoneCalls(sc) == {} && (forall k :: k in sc.toolOrder <==> k in sc.tools)
            && (forall k :: k in sc.tools <==> ArgumentsOf(chunks, k).Some?)
            && (forall k :: k in sc.tools ==> (FinishedCall(env, sc.tools[k]).Some? <==> Whole(env, chunks, k)))
            && (forall k :: k in sc.tools ==> (sc.tools[k].custom <==> Custom(env, chunks, k)))
            && (sc.heldFinish == "" ==> forall k :: k in sc.tools ==> (sc.tools[k].announced <==> Known(env, chunks, k)))
  {
    hide Run, ItemOf, FinishedCall, Decided, Settled, Spelled, FirstId, ClassifyStreamedName, ResolveChatName, Tracks;
    RunCarries(env, chunks);
    var sc := Run(env, chunks).value;
    InvTools(sc);
    hide Inv;
    forall k
      ensures k in sc.tools <==> ArgumentsOf(chunks, k).Some?
      ensures k in sc.tools ==> (FinishedCall(env, sc.tools[k]).Some? <==> Whole(env, chunks, k))
      ensures k in sc.tools ==> (sc.tools[k].custom <==> Custom(env, chunks, k))
      ensures k in sc.tools && sc.heldFinish == "" ==> (sc.tools[k].announced <==> Known(env, chunks, k))
    {
      RunNames(env, chunks, k);
      assert ArgsHeld(sc, k) == ArgumentsOf(chunks, k);
      if k in sc.tools {
        ItemIsOf(env, sc.tools[k]);
        AnnouncingIsNothing(env, Named(env.tools, DeltasOf(chunks, k)), sc.tools[k].args);
      }
    }
  }

  lemma {:induction false} InvTools(sc: Conv)
    requires Inv(sc) && !sc.terminalSent
    ensures DoneCalls(sc) == {} && forall k :: k in sc.toolOrder <==> k in sc.tools
  {
    if sc.started {
      OrderIsTools(sc);
      hide Tracks;
      assert forall k :: k !in DoneCalls(sc);
    } else {
      assert forall k :: k !in DoneCalls(sc);
    }
  }

  // ---- one more chunk ----

  /** The error is that of some call that is not whole. */
  ghost predicate Blames(env: Env, chunks: seq<Chunk>, e: StreamError) {
    exists k :: !Whole(env, chunks, k) && e == Fault(Custom(env, chunks, k))
  }

  /** The same chunk without its finish_reason. */
  ghost function Unfinished(chunk: Chunk): Chunk
    requires chunk.choices != []
  {
    chunk.(choices := [chunk.choices[0].(finish := "")] + chunk.choices[1..])
  }

  lemma {:induction false} SameCalls(chunks: seq<Chunk>, chunk: Chunk, k: int)
    requires chunk.choices != []
    ensures ArgumentsOf(chunks + [Unfinished(chunk)], k) == ArgumentsOf(chunks + [chunk], k)
    ensures DeltasOf(chunks + [Unfinished(chunk)], k) == DeltasOf(chunks + [chunk], k)
  {
    hide Fragments, Mine;
    assert (chunks + [Unfinished(chunk)])[..|chunks|] == chunks && (chunks + [chunk])[..|chunks|] == chunks;
  }

  /** Taking a finishing chunk is taking it without the finish_reason, and then finishing. */
  lemma {:induction false} FinishComesLast(env: Env, sc: Conv, chunk: Chunk)
    requires sc.heldFinish == "" && !sc.finished && HasFinish(chunk)
    requires TakeChunk(env, sc, Unfinished(chunk)).Ok? && !TakeChunk(env, sc, Unfinished(chunk)).value.finished
    ensures TakeChunk(env, sc, chunk) == Finish(env, TakeChunk(env, sc, Unfinished(chunk)).value, chunk.choices[0].finish)
  {
    hide Start, TakeChoice, Finish;
    var s0 := WithUsage(sc, chunk);
    UnfinishedSame(s0, chunk);
    StartCalls(s0, chunk);
    ChoiceFinishesLast(env, Start(s0, chunk), chunk.choices[0]);
  }

  lemma {:induction false} ChoiceFinishesLast(env: Env, sc: Conv, choice: Choice)
    requires choice.finish != ""
    ensures var o := TakeChoice(env, sc, choice.(finish := ""));
            o.Ok? && !o.value.finished ==> TakeChoice(env, sc, choice) == Finish(env, o.value, choice.finish)
  {
    hide Speak, TakeTools, Finish;
    SpeakSame(sc, choice);
  }

  lemma {:induction false} SpeakSame(sc: Conv, choice: Choice)
    ensures Speak(sc, choice.(finish := "")) == Speak(sc, choice)
  {
    hide TakeReasoning, TakeContent;
  }

  lemma {:induction false} UnfinishedSame(sc: Conv, chunk: Chunk)
    requires chunk.choices != []
    ensures Start(sc, Unfinished(chunk)) == Start(sc, chunk)
  {
    hide Emit;
  }

  /** While the stream is open a chunk is taken, up to its finish_reason. */
  lemma {:induction false} OpenTakes(env: Env, sc: Conv, chunk: Chunk)
    requires sc.heldFinish == "" && !sc.finished && DoneCalls(sc) == {} && !HasFinish(chunk)
    ensures TakeChunk(env, sc, chunk).Ok?
  {
    hide DoneCalls, TakeTools, Speak, Start;
    var s1 := Start(WithUsage(sc, chunk), chunk);
    StartCalls(WithUsage(sc, chunk), chunk);
    if chunk.choices != [] {
      SpeakTools(s1, chunk.choices[0]);
      SameDone(sc, Speak(s1, chunk.choices[0]));
      TakeToolsExactly(env, Speak(s1, chunk.choices[0]), chunk.choices[0].toolCalls);
    }
  }

  lemma {:induction false} StartCalls(sc: Conv, chunk: Chunk)
    ensures var s := Start(sc, chunk);
            s.tools == sc.tools && s.finished == sc.finished
  {
  }

  lemma {:induction false} SameDone(sc: Conv, s: Conv)
    requires s.tools == sc.tools
    ensures DoneCalls(s) == DoneCalls(sc)
  {
  }

  /** The finishing chunk passes exactly if then every call is whole. */
  lemma {:induction false} FinishingChunk(env: Env, chunks: seq<Chunk>, chunk: Chunk)
    requires Run(env, chunks).Ok? && !EndsInFinish(Told(chunks)) && HasFinish(chunk)
    ensures Run(env, chunks + [chunk]).Ok? <==> forall k :: Whole(env, chunks + [chunk], k)
    ensures Run(env, chunks + [chunk]).Err? ==> Blames(env, chunks + [chunk], Run(env, chunks + [chunk]).error)
    ensures var o := Run(env, chunks + [chunk]);
            o.Ok? ==> forall k :: k in o.value.tools ==> o.value.tools[k].announced
  {
    hide Run, TakeChunk, ItemOf, FinishTools, FinishedCall, DeltasOf, ArgumentsOf, Named, StopReasoning;
    var open := Unfinished(chunk);
    var sc := Run(env, chunks).value;
    RunStands(env, chunks);
    RunHolds(env, chunks);
    OpenTakes(env, sc, open);
    RunAppend(env, chunks, open);
    RunAppend(env, chunks, chunk);
    RunStands(env, chunks + [open]);
    assert (chunks + [open])[..|chunks|] == chunks;
    RunHolds(env, chunks + [open]);
    var s := Run(env, chunks + [open]).value;
    FinishComesLast(env, sc, chunk);
    FinishToolsExactly(env, s, s.toolOrder);
    forall k
      ensures Whole(env, chunks + [open], k) == Whole(env, chunks + [chunk], k)
      ensures Custom(env, chunks + [open], k) == Custom(env, chunks + [chunk], k)
      ensures k !in s.tools ==> Whole(env, chunks + [chunk], k)
    {
      SameCalls(chunks, chunk, k);
    }
    if FinishTools(env, s, s.toolOrder).Ok? {
      StopReasoningFrame(FinishTools(env, s, s.toolOrder).value.(finished := true, heldFinish := chunk.choices[0].finish));
    }
  }

  // ---- behind the finish_reason ----

  /** The calls that are done are those of the chunks told. */
  ghost predicate DoneAreTold(sc: Conv, told: seq<Chunk>) {
    forall k :: k in DoneCalls(sc) <==> ArgumentsOf(told, k).Some?
  }

  /** Behind the finish_reason a choice is taken unless it has arguments for a call
      that was told. */
  lemma {:induction false} LateChoice(env: Env, sc: Conv, choice: Choice, told: seq<Chunk>)
    requires sc.finished && DoneAreTold(sc, told)
    ensures TakeChoice(env, sc, choice).Err? ==> TakeChoice(env, sc, choice).error == ArgumentsAfterCompletion
    ensures TakeChoice(env, sc, choice).Ok? <==> forall i :: 0 <= i < |choice.toolCalls| ==> !LateDelta(told, choice.toolCalls[i])
    ensures TakeChoice(env, sc, choice).Ok? ==> DoneAreTold(TakeChoice(env, sc, choice).value, told)
  {
    hide DoneCalls, TakeTools, Speak, ArgumentsOf;
    var s1 := Speak(sc, choice);
    SpeakTools(sc, choice);
    SameDone(sc, s1);
    TakeToolsExactly(env, s1, choice.toolCalls);
    forall i | 0 <= i < |choice.toolCalls|
      ensures LateDelta(told, choice.toolCalls[i]) <==> choice.toolCalls[i].args != "" && choice.toolCalls[i].index in DoneCalls(s1)
    {
    }
    if TakeTools(env, s1, choice.toolCalls).Ok? {
      TakeToolsTalk(env, s1, choice.toolCalls);
    }
  }

  /** What a chunk does behind the terminal it may have triggered. */
  ghost function Onward(env: Env, sc: Conv, chunk: Chunk): ChatToResponses.Outcome {
    if chunk.choices == [] then Ok(Start(sc, chunk)) else TakeChoice(env, Start(sc, chunk), chunk.choices[0])
  }

  lemma {:induction false} LateChunk(env: Env, sc: Conv, chunk: Chunk, told: seq<Chunk>)
    requires sc.finished && DoneAreTold(sc, told)
    ensures Onward(env, sc, chunk).Err? ==> Onward(env, sc, chunk).error == ArgumentsAfterCompletion
    ensures Onward(env, sc, chunk).Ok? <==> !Late(told, chunk)
    ensures Onward(env, sc, chunk).Ok? ==> DoneAreTold(Onward(env, sc, chunk).value, told)
  {
    hide DoneCalls, TakeChoice, ArgumentsOf, Start, LateDelta;
    var s1 := Start(sc, chunk);
    StartCalls(sc, chunk);
    SameDone(sc, s1);
    if chunk.choices != [] {
      LateChoice(env, s1, chunk.choices[0], told);
    }
  }

  /** The chunk behind the finish_reason: the response completes, then it is late. */
  lemma {:induction false} TrailingChunk(env: Env, chunks: seq<Chunk>, chunk: Chunk)
    requires Run(env, chunks).Ok? && EndsInFinish(chunks) && Told(chunks) == chunks && forall k :: Whole(env, chunks, k)
    requires forall k :: k in Run(env, chunks).value.tools ==> Run(env, chunks).value.tools[k].announced
    ensures TakeChunk(env, Run(env, chunks).value, chunk).Err? ==> TakeChunk(env, Run(env, chunks).value, chunk).error == ArgumentsAfterCompletion
    ensures TakeChunk(env, Run(env, chunks).value, chunk).Ok? <==> !Late(chunks, chunk)
    ensures TakeChunk(env, Run(env, chunks).value, chunk).Ok? ==> DoneAreTold(TakeChunk(env, Run(env, chunks).value, chunk).value, chunks)
  {
    hide Run, DoneCalls, TakeChoice, ArgumentsOf, Start, Terminal, Late, FinishedCall, DeltasOf, Named, ItemOf;
    RunStands(env, chunks);
    RunHolds(env, chunks);
    var sc := Run(env, chunks).value;
    var s0 := WithUsage(sc, chunk);
    TerminalExactly(env, s0, false);
    RunKeepsInvariant(env, chunks);
    UsageInv(sc, s0);
    TerminalUnholds(env, s0);
    TerminalCourse(env, s0, false);
    var s1 := Terminal(env, s0, false).value;
    LateChunk(env, s1, chunk, chunks);
    assert TakeChunk(env, sc, chunk) == Onward(env, s1, chunk);
  }

  /** A run that passes keeps to the demands; behind its finish_reason exactly the
      calls told are done. */
  ghost predicate Ran(env: Env, chunks: seq<Chunk>) {
    var o := Run(env, chunks);
    && (o.Ok? <==> Goes(env, chunks))
    && (o.Err? ==> if forall k :: Whole(env, Told(chunks), k) then o.error == ArgumentsAfterCompletion else Blames(env, Told(chunks), o.error))
    && (o.Ok? && Told(chunks) != chunks ==> DoneAreTold(o.value, Told(chunks)))
    && (o.Ok? && EndsInFinish(chunks) && Told(chunks) == chunks ==> forall k :: k in o.value.tools ==> o.value.tools[k].announced)
  }

  lemma {:induction false} ToldMore(chunks: seq<Chunk>, chunk: Chunk)
    ensures Told(chunks + [chunk]) == if EndsInFinish(Told(chunks)) then Told(chunks) else chunks + [chunk]
  {
    assert (chunks + [chunk])[..|chunks|] == chunks;
  }

  lemma {:induction false} OneMore(env: Env, chunks: seq<Chunk>, chunk: Chunk)
    requires Ran(env, chunks)
    ensures Ran(env, chunks + [chunk])
  {
    hide Run, TakeChunk, Whole, DoneAreTold, Late, Told, Blames;
    var all, told := chunks + [chunk], Told(chunks);
    ToldMore(chunks, chunk);
    if Run(env, chunks).Err? {
      RunFails(env, chunks, [chunk]);
      assert forall n :: 0 <= n < |chunks| ==> all[n] == chunks[n];
    } else {
      RunAppend(env, chunks, chunk);
      var sc := Run(env, chunks).value;
      RunStands(env, chunks);
      assert all[|chunks|] == chunk && forall n :: 0 <= n < |chunks| ==> all[n] == chunks[n];
      if !EndsInFinish(told) {
        if HasFinish(chunk) {
          FinishingChunk(env, chunks, chunk);
        } else {
          RunHolds(env, chunks);
          OpenTakes(env, sc, chunk);
        }
      } else if told == chunks {
        TrailingChunk(env, chunks, chunk);
      } else {
        UsageDone(sc, chunk, told);
        LateChunk(env, WithUsage(sc, chunk), chunk, told);
        OnwardIsTaken(env, sc, chunk);
      }
    }
  }

  lemma {:induction false} UsageDone(sc: Conv, chunk: Chunk, told: seq<Chunk>)
    ensures DoneAreTold(WithUsage(sc, chunk), told) == DoneAreTold(sc, told)
  {
  }

  lemma {:induction false} OnwardIsTaken(env: Env, sc: Conv, chunk: Chunk)
    requires sc.heldFinish == ""
    ensures TakeChunk(env, sc, chunk) == Onward(env, WithUsage(sc, chunk), chunk)
  {
    hide TakeChoice, Start;
  }

  // ---- the theorems ----

  /** The chunks are converted without failure exactly if at the first finish_reason
      every call amounts to an item, and behind it no such call gets arguments. The
      error names the fault. */
  lemma {:induction false} RunsExactly(env: Env, chunks: seq<Chunk>)
    ensures Run(env, chunks).Ok? <==> Goes(env, chunks)
    ensures var o := Run(env, chunks);
            o.Err? ==> if forall k :: Whole(env, Told(chunks), k) then o.error == ArgumentsAfterCompletion else Blames(env, Told(chunks), o.error)
    ensures Ran(env, chunks)
  {
    hide TakeChunk, Goes, Blames, Whole;
    if chunks == [] {
      assert Ran(env, []) by {
        NothingRan(env);
      }
    } else {
      var shorter := chunks[..|chunks| - 1];
      RunsExactly(env, shorter);
      OneMore(env, shorter, chunks[|chunks| - 1]);
      assert shorter + [chunks[|chunks| - 1]] == chunks;
    }
  }

  lemma {:induction false} NothingRan(env: Env)
    ensures Ran(env, [])
  {
  }

  /** The end of such a stream, [DONE] or end of input, passes exactly if the response
      finished, or began and has no call that is incomplete or not yet named. */
  lemma {:induction false} EndsExactly(env: Env, chunks: seq<Chunk>, ended: bool)
    requires Run(env, chunks).Ok?
    ensures ClosedBy(env, Run(env, chunks).value, ended).Ok? <==> Ends(env, chunks)
    ensures var o := ClosedBy(env, Run(env, chunks).value, ended);
            o.Err? ==> o.error == if Opener(chunks).None? then EmptyStream
                                  else if exists k :: Known(env, chunks, k) && Custom(env, chunks, k) && !Whole(env, chunks, k) then BadCustomInput
                                  else IncompleteTool
  {
    hide Run, TakeChunk, DoneAreTold, Told, TakeDone, FlushEnd, Terminal, ItemOf, Decided, FinishedCall, ClosedBy;
    RunsExactly(env, chunks);
    RunStands(env, chunks);
    var sc := Run(env, chunks).value;
    if sc.terminalSent {
      EndAfterEnd(env, sc, ended);
    } else {
      RunCloses(env, chunks);
      EndIsTerminal(env, sc, ended);
      TerminalExactly(env, if ended then sc else sc.(flushed := true), true);
      hide Whole, Known, CanClose, Custom, Bad;
      if EndsInFinish(chunks) {
        assert forall k :: k in sc.tools ==> CanClose(env, sc.tools[k]);
      }
    }
  }

  /** What the terminal asks of the calls of an open run. */
  lemma {:induction false} RunCloses(env: Env, chunks: seq<Chunk>)
    requires Run(env, chunks).Ok? && !Run(env, chunks).value.terminalSent
    ensures var sc := Run(env, chunks).value;
            && (forall k :: k in sc.toolOrder <==> k in sc.tools)
            && (forall k :: k in sc.tools ==> (CanClose(env, sc.tools[k]) <==> sc.tools[k].announced && Whole(env, chunks, k)))
            && (forall k :: k in sc.tools ==> (Bad(env, sc.tools[k]) <==> sc.tools[k].announced && Custom(env, chunks, k) && !Whole(env, chunks, k)))
            && (forall k :: k !in sc.tools ==> Whole(env, chunks, k) && Known(env, chunks, k))
            && (sc.heldFinish == "" ==> forall k :: k in sc.tools ==> (sc.tools[k].announced <==> Known(env, chunks, k)))
  {
    hide Run, ItemOf, FinishedCall, Decided, Named;
    RunHolds(env, chunks);
    var sc := Run(env, chunks).value;
    forall k
      ensures k in sc.tools ==> !sc.tools[k].responseDone
    {
      assert k !in DoneCalls(sc);
    }
  }

  lemma {:induction false} EndAfterEnd(env: Env, sc: Conv, ended: bool)
    requires sc.terminalSent
    ensures ClosedBy(env, sc, ended).Ok?
  {
    hide StopReasoning, Complete;
    StopReasoningFrame(sc);
  }

  lemma {:induction false} EndIsTerminal(env: Env, sc: Conv, ended: bool)
    requires !sc.terminalSent && !sc.flushed
    ensures var o, t := ClosedBy(env, sc, ended), Terminal(env, if ended then sc else sc.(flushed := true), true);
            (o.Ok? <==> t.Ok?) && (o.Err? ==> o.error == t.error)
  {
    hide Terminal, TakeDone;
    DoneIsTheTerminal(env, sc);
  }

  /** Over bytes: a stream is read to its end without failure exactly if its payloads
      decode, its chunks pass and its end does. */
  lemma {:induction false} ByteStreamsFailExactly(env: Env, pieces: seq<string>)
    ensures var fed, r := FeedAll(LineHandler(env), Fed(FRESH, "", None), pieces), Read(env.json, Concat(pieces));
            (fed.error.None? && (fed.state.done || FlushEnd(env, fed.state).Ok?))
            <==> r.error.None? && Goes(env, r.chunks) && Ends(env, r.chunks)
  {
    hide Run, FeedAll, LineHandler, TakeDone, FlushEnd, Read, Goes, Ends;
    FeedsRead(env, pieces);
    var r := Read(env.json, Concat(pieces));
    RunsExactly(env, r.chunks);
    if Run(env, r.chunks).Ok? {
      var sc := Run(env, r.chunks).value;
      EndsExactly(env, r.chunks, r.ended);
      RunStands(env, r.chunks);
      if r.ended && TakeDone(env, sc).Ok? {
        DoneIsDone(env, sc);
      }
    }
  }
}
