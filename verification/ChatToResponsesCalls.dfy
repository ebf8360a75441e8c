/** Who a call is on the Chat Completions -> Responses leg: its id, name and kind,
    read off its own fragments, and the finished item they amount to. */
module ChatToResponsesCalls {
  import opened Common
  import opened ToolNames
  import opened ChatChunks
  import opened ResponsesProtocol
  import opened ChatToResponses
  import opened ChatToResponsesSafety
  import opened ChatToResponsesRuns

  // ---- the fragments of one call ----

  function Mine(deltas: seq<ToolDelta>, k: int): seq<ToolDelta> {
    if deltas == [] then [] else (if deltas[0].index == k then [deltas[0]] else []) + Mine(deltas[1..], k)
  }

  function ChunkDeltas(chunk: Chunk, k: int): seq<ToolDelta> {
    if chunk.choices == [] then [] else Mine(chunk.choices[0].toolCalls, k)
  }

  function DeltasOf(chunks: seq<Chunk>, k: int): seq<ToolDelta> {
    if chunks == [] then [] else DeltasOf(chunks[..|chunks| - 1], k) + ChunkDeltas(chunks[|chunks| - 1], k)
  }

  /** The name as its pieces spell it. */
  function Spelled(deltas: seq<ToolDelta>): string {
    if deltas == [] then ""
    else
      var before, piece := Spelled(deltas[..|deltas| - 1]), deltas[|deltas| - 1].name;
      if piece == "" then before else MergeName(before, piece)
  }

  /** The first id that is not empty. */
  function FirstId(deltas: seq<ToolDelta>): string {
    if deltas == [] then ""
    else
      var before := FirstId(deltas[..|deltas| - 1]);
      if before != "" then before else deltas[|deltas| - 1].id
  }

  /** The name is a declared one or can no longer become one. */
  predicate Decided(ctx: ToolContext, name: string) { name != "" && !ClassifyStreamedName(ctx, name).Wait? }

  /** The fragments up to the one that decides the name; all of them if none does. */
  function Settled(ctx: ToolContext, deltas: seq<ToolDelta>): seq<ToolDelta> {
    if deltas == [] then []
    else
      var before := Settled(ctx, deltas[..|deltas| - 1]);
      if Decided(ctx, Spelled(before)) then before else deltas
  }

  /** Who a call is; `announced` says that its name is decided. */
  datatype Naming = Naming(id: string, name: string, announced: bool, custom: bool, identity: Identity)

  /** Only the fragments up to the decision name a call. */
  function Named(ctx: ToolContext, deltas: seq<ToolDelta>): Naming {
    var told := Settled(ctx, deltas);
    var id, name := FirstId(told), Spelled(told);
    if !Decided(ctx, name) then Naming(id, name, false, false, NO_IDENTITY)
    else
      var kind, known := ClassifyStreamedName(ctx, name), ResolveChatName(ctx, name);
      Naming(id, name, true, kind.Exact? && kind.kind == "custom", if known.Some? then known.value else NO_IDENTITY)
  }

  /** The finished item of a call so named with these arguments; None when they are
      not complete. */
  function ItemOf(env: Env, n: Naming, args: string): Option<Item> {
    var name := if n.identity.name != "" then n.identity.name else n.name;
    if n.custom then
      if env.json.unwrap(args).None? then None
      else Some(CustomCall(n.id, name, n.identity.namespace, env.json.unwrap(args).value))
    else if !env.json.valid(DefaultArgs(args)) then None
    else Some(FunctionCall(n.id, name, n.identity.namespace, DefaultArgs(args)))
  }

  function NamingOf(t: Tool): Naming { Naming(t.id, t.name, t.announced, t.custom, t.identity) }

  lemma {:induction false} ItemIsOf(env: Env, t: Tool)
    ensures FinishedCall(env, t) == ItemOf(env, NamingOf(t), t.args)
    ensures ItemOf(env, NamingOf(t).(announced := true), t.args) == ItemOf(env, NamingOf(t), t.args)
  {
  }

  lemma {:induction false} AnnouncingIsNothing(env: Env, n: Naming, args: string)
    ensures ItemOf(env, n.(announced := true), args) == ItemOf(env, n, args)
  {
  }

  // ---- one more fragment ----

  lemma {:induction false} LastFragment(deltas: seq<ToolDelta>, tc: ToolDelta)
    ensures Spelled(deltas + [tc]) == if tc.name == "" then Spelled(deltas) else MergeName(Spelled(deltas), tc.name)
    ensures FirstId(deltas + [tc]) == if FirstId(deltas) != "" then FirstId(deltas) else tc.id
  {
    hide MergeName;
    assert (deltas + [tc])[..|deltas|] == deltas;
  }

  lemma {:induction false} LastSettled(ctx: ToolContext, deltas: seq<ToolDelta>, tc: ToolDelta)
    ensures Settled(ctx, deltas + [tc])
            == if Decided(ctx, Spelled(Settled(ctx, deltas))) then Settled(ctx, deltas) else deltas + [tc]
  {
    hide Spelled, Decided;
    assert (deltas + [tc])[..|deltas|] == deltas;
  }

  /** While the name is open every fragment counts. */
  lemma {:induction false} UndecidedIsAll(ctx: ToolContext, deltas: seq<ToolDelta>)
    ensures Decided(ctx, Spelled(Settled(ctx, deltas))) || Settled(ctx, deltas) == deltas
  {
    hide Spelled, Decided;
  }

  /** The converter's step on one fragment is that of the fragments alone. */
  lemma {:induction false} FragmentNames(ctx: ToolContext, t: Tool, deltas: seq<ToolDelta>, tc: ToolDelta)
    requires NamingOf(t) == Named(ctx, deltas)
    ensures NamingOf(Sent(Resolve(ctx, Absorb(t, tc)))) == Named(ctx, deltas + [tc])
  {
    hide MergeName, ClassifyStreamedName, ResolveChatName, Spelled, FirstId, Settled;
    UndecidedIsAll(ctx, deltas);
    LastSettled(ctx, deltas, tc);
    LastFragment(deltas, tc);
  }

  /** The first fragment gives its id twice over. */
  lemma {:induction false} FirstAbsorbs(ctx: ToolContext, t: Tool, tc: ToolDelta)
    requires t.id == tc.id && !t.announced
    ensures Absorb(t, tc) == Absorb(t.(id := ""), tc)
  {
    hide MergeName;
  }

  lemma {:induction false} NothingNames(ctx: ToolContext)
    ensures Named(ctx, []) == Naming("", "", false, false, NO_IDENTITY)
  {
    hide ClassifyStreamedName, ResolveChatName;
    assert Settled(ctx, []) == [];
  }

  /** A call opened by its first fragment. */
  lemma {:induction false} FirstNames(ctx: ToolContext, t: Tool, tc: ToolDelta)
    requires t.id == tc.id && t.name == "" && !t.announced && !t.custom && t.identity == NO_IDENTITY
    ensures NamingOf(Sent(Resolve(ctx, Absorb(t, tc)))) == Named(ctx, [tc])
  {
    var blank := t.(id := "");
    FirstAbsorbs(ctx, t, tc);
    hide Named, Resolve, Absorb, Sent;
    NothingNames(ctx);
    FragmentNames(ctx, blank, [], tc);
    assert [] + [tc] == [tc];
  }

  /** The stream is where it was: not ended, flushed or finished in between. */
  predicate SameCourse(sc: Conv, s: Conv) {
    s.done == sc.done && s.flushed == sc.flushed && s.finished == sc.finished && s.heldFinish == sc.heldFinish
  }

  // ---- the converter's calls ----

  /** The call is named by its fragments so far. */
  ghost predicate NameIs(ctx: ToolContext, sc: Conv, k: int, deltas: seq<ToolDelta>) {
    if k in sc.tools then NamingOf(sc.tools[k]) == Named(ctx, deltas) else deltas == []
  }

  /** The same, but for its being announced: finish_reason announces every call. */
  ghost predicate NameStays(ctx: ToolContext, sc: Conv, k: int, deltas: seq<ToolDelta>) {
    if k in sc.tools then NamingOf(sc.tools[k]).(announced := true) == Named(ctx, deltas).(announced := true) else deltas == []
  }

  lemma {:induction false} SameTool(ctx: ToolContext, sc: Conv, s: Conv, k: int, deltas: seq<ToolDelta>)
    requires k in s.tools <==> k in sc.tools
    requires k in sc.tools ==> NamingOf(s.tools[k]) == NamingOf(sc.tools[k])
    ensures NameIs(ctx, s, k, deltas) == NameIs(ctx, sc, k, deltas) && NameStays(ctx, s, k, deltas) == NameStays(ctx, sc, k, deltas)
  {
  }

  lemma {:induction false} OpenToolKeepsTools(sc: Conv, tc: ToolDelta)
    ensures var s := OpenTool(sc, tc);
            && s.responseItems == sc.responseItems && SameCourse(sc, s) && tc.index in s.tools
            && s.tools == sc.tools[tc.index := s.tools[tc.index]]
            && (tc.index in sc.tools ==> s.tools == sc.tools)
            && (tc.index !in sc.tools ==>
                  s.tools[tc.index] == Tool(sc.nextIndex, tc.id, "", "", false, false, 0, NO_IDENTITY, false))
  {
    if tc.index in sc.tools {
      assert OpenTool(sc, tc) == sc;
    }
  }

  /** The call as a fragment finds it. */
  ghost function Found(sc: Conv, tc: ToolDelta): Tool {
    if tc.index in sc.tools then sc.tools[tc.index] else Tool(sc.nextIndex, tc.id, "", "", false, false, 0, NO_IDENTITY, false)
  }

  /** A fragment moves its own call alone. */
  lemma {:induction false} TakeToolTools(env: Env, sc: Conv, tc: ToolDelta)
    requires TakeTool(env, sc, tc).Ok?
    ensures var s1 := CloseText(StopReasoning(sc), "completed");
            var s := TakeTool(env, sc, tc).value;
            && s.tools == sc.tools[tc.index := Sent(Resolve(env.tools, Absorb(Found(sc, tc), tc)))]
            && s.responseItems == s1.responseItems && SameCourse(s1, s)
  {
    hide StopReasoning, CloseText, Resolve, Absorb, Sent, Emit, FlushArgs, ToolShell, SameButLog, OpenTool;
    StopReasoningFrame(sc);
    CloseTextFrame(StopReasoning(sc), "completed");
    var s1 := CloseText(StopReasoning(sc), "completed");
    OpenToolKeepsTools(s1, tc);
    var s2 := OpenTool(s1, tc);
    var after := Sent(Resolve(env.tools, Absorb(s2.tools[tc.index], tc)));
    AdvancedFrame(s2, tc.index, after);
    assert TakeTool(env, sc, tc).value == Advanced(s2, tc.index, after);
    hide Advanced, TakeTool;
    AdvancedTools(s2, Advanced(s2, tc.index, after), tc.index, after);
  }

  lemma {:induction false} TakeToolNames(env: Env, sc: Conv, tc: ToolDelta, k: int, deltas: seq<ToolDelta>)
    requires TakeTool(env, sc, tc).Ok? && NameIs(env.tools, sc, k, deltas)
    ensures NameIs(env.tools, TakeTool(env, sc, tc).value, k, deltas + (if tc.index == k then [tc] else []))
  {
    hide Named, TakeTool, Resolve, Absorb, Sent;
    TakeToolTools(env, sc, tc);
    assert deltas + [] == deltas;
    if tc.index == k {
      if k in sc.tools {
        FragmentNames(env.tools, sc.tools[k], deltas, tc);
      } else {
        FirstNames(env.tools, Found(sc, tc), tc);
        assert deltas + [tc] == [tc];
      }
    }
  }

  lemma {:induction false} AdvancedTools(sc: Conv, s: Conv, index: int, after: Tool)
    requires SameButLog(s, sc.(tools := sc.tools[index := after]))
    ensures s.tools == sc.tools[index := after] && s.responseItems == sc.responseItems && SameCourse(sc, s)
  {
  }

  lemma {:induction false} TakeToolsNames(env: Env, sc: Conv, deltas: seq<ToolDelta>, k: int, had: seq<ToolDelta>)
    requires TakeTools(env, sc, deltas).Ok? && NameIs(env.tools, sc, k, had)
    ensures NameIs(env.tools, TakeTools(env, sc, deltas).value, k, had + Mine(deltas, k))
    decreases |deltas|
  {
    hide TakeTool, NameIs;
    if deltas == [] {
      assert had + [] == had;
    } else {
      var first := if deltas[0].index == k then [deltas[0]] else [];
      TakeToolNames(env, sc, deltas[0], k, had);
      TakeToolsNames(env, TakeTool(env, sc, deltas[0]).value, deltas[1..], k, had + first);
      assert had + first + Mine(deltas[1..], k) == had + (first + Mine(deltas[1..], k));
    }
  }

  lemma {:induction false} FinishToolNames(env: Env, sc: Conv, index: int, k: int, deltas: seq<ToolDelta>)
    requires FinishTool(env, sc, index).Ok? && NameStays(env.tools, sc, k, deltas)
    ensures NameStays(env.tools, FinishTool(env, sc, index).value, k, deltas)
  {
    hide Named, Emit, FlushArgs, SameButLog, Sent;
    if index in sc.tools {
      FinishToolFrame(env, sc, index);
      var before := sc.tools[index];
      var after := Sent(before.(announced := true));
      SentNames(before.(announced := true));
      AdvancedTools(sc, FinishTool(env, sc, index).value, index, after);
    }
  }

  lemma {:induction false} SentNames(t: Tool)
    ensures NamingOf(Sent(t)) == NamingOf(t)
  {
  }

  lemma {:induction false} FinishToolFrame(env: Env, sc: Conv, index: int)
    requires FinishTool(env, sc, index).Ok? && index in sc.tools
    ensures SameButLog(FinishTool(env, sc, index).value,
                       sc.(tools := sc.tools[index := Sent(sc.tools[index].(announced := true))]))
  {
    hide Emit, FlushArgs, SameButLog, Sent;
    var before := sc.tools[index];
    var after := Sent(before.(announced := true));
    var s1 := sc.(tools := sc.tools[index := after]);
    var shell := ItemAdded(after.blockIndex, FunctionShell(after.id, after.name, ""));
    var s2 := if !before.announced then Emit(s1, shell) else s1;
    EmitFrame(s1, shell);
    FlushFrame(s2, before, after);
    SameButLogTransitive(FlushArgs(s2, before, after), s2, s1);
  }

  lemma {:induction false} FinishToolsNames(env: Env, sc: Conv, order: seq<int>, k: int, deltas: seq<ToolDelta>)
    requires FinishTools(env, sc, order).Ok? && NameStays(env.tools, sc, k, deltas)
    ensures NameStays(env.tools, FinishTools(env, sc, order).value, k, deltas)
    decreases |order|
  {
    hide FinishTool, NameStays;
    if order == [] {
    } else {
      FinishToolNames(env, sc, order[0], k, deltas);
      FinishToolsNames(env, FinishTool(env, sc, order[0]).value, order[1..], k, deltas);
    }
  }

  lemma {:induction false} NameIsStays(ctx: ToolContext, sc: Conv, k: int, deltas: seq<ToolDelta>)
    requires NameIs(ctx, sc, k, deltas)
    ensures NameStays(ctx, sc, k, deltas)
  {
    hide Named;
  }

  lemma {:induction false} FinishNames(env: Env, sc: Conv, finish: string, k: int, deltas: seq<ToolDelta>)
    requires Finish(env, sc, finish).Ok? && NameStays(env.tools, sc, k, deltas)
    ensures NameStays(env.tools, Finish(env, sc, finish).value, k, deltas)
    ensures Finish(env, sc, finish).value.heldFinish == finish
  {
    hide FinishTools, StopReasoning, NameStays;
    FinishToolsNames(env, sc, sc.toolOrder, k, deltas);
    var s1 := FinishTools(env, sc, sc.toolOrder).value;
    var s2 := s1.(finished := true, heldFinish := finish);
    StopReasoningFrame(s2);
    SameTool(env.tools, s1, StopReasoning(s2), k, deltas);
  }

  // ---- one chunk, whole runs ----

  /** What a run knows of a call: its name, loosely once finish_reason is held. */
  ghost predicate NameHeld(ctx: ToolContext, sc: Conv, k: int, deltas: seq<ToolDelta>) {
    NameStays(ctx, sc, k, deltas) && (sc.heldFinish == "" ==> NameIs(ctx, sc, k, deltas))
  }

  lemma {:induction false} TakeChoiceNames(env: Env, sc: Conv, choice: Choice, k: int, deltas: seq<ToolDelta>)
    requires Tracks(sc) && Undone(sc) && TakeChoice(env, sc, choice).Ok? && NameIs(env.tools, sc, k, deltas)
    ensures NameHeld(env.tools, TakeChoice(env, sc, choice).value, k, deltas + Mine(choice.toolCalls, k))
  {
    hide Tracks, Undone, TakeReasoning, TakeContent, TakeTools, Finish, NameIs, NameStays, Mine;
    var s1 := if choice.reasoning.Some? then TakeReasoning(sc, choice.reasoning.value) else sc;
    if choice.reasoning.Some? {
      TakeReasoningTracks(sc, choice.reasoning.value);
    }
    var s2 := if choice.content != "" then TakeContent(s1, choice.content) else s1;
    if choice.content != "" {
      TakeContentTracks(s1, choice.content);
    }
    SameTool(env.tools, sc, s2, k, deltas);
    TakeToolsNames(env, s2, choice.toolCalls, k, deltas);
    var s3 := TakeTools(env, s2, choice.toolCalls).value;
    var all := deltas + Mine(choice.toolCalls, k);
    NameIsStays(env.tools, s3, k, all);
    if choice.finish != "" && !s3.finished {
      FinishNames(env, s3, choice.finish, k, all);
    }
  }

  lemma {:induction false} ChunkNames(env: Env, sc: Conv, chunk: Chunk, k: int, deltas: seq<ToolDelta>)
    requires Inv(sc) && !sc.terminalSent && sc.heldFinish == "" && TakeChunk(env, sc, chunk).Ok? && NameIs(env.tools, sc, k, deltas)
    ensures NameHeld(env.tools, TakeChunk(env, sc, chunk).value, k, deltas + ChunkDeltas(chunk, k))
  {
    var s0 := WithUsage(sc, chunk);
    Irrelevant(sc, s0);
    hide Tracks, Undone, TakeChoice, Emit, NameIs, NameStays, Mine;
    var s1 := Start(s0, chunk);
    if chunk.choices == [] {
      assert deltas + [] == deltas;
      SameTool(env.tools, sc, s0, k, deltas);
      NameIsStays(env.tools, s0, k, deltas);
    } else {
      if !sc.started {
        StartTracks(s0, chunk);
      }
      StartTools(s0, chunk);
      hide Start, Untouched;
      SameTool(env.tools, sc, s1, k, deltas);
      TakeChoiceNames(env, s1, chunk.choices[0], k, deltas);
    }
  }

  lemma {:induction false} StartTools(sc: Conv, chunk: Chunk)
    ensures Start(sc, chunk).tools == sc.tools && Start(sc, chunk).responseItems == sc.responseItems
    ensures Start(sc, chunk).started <==> sc.started || chunk.choices != []
  {
  }

  /** While the response is open every call is named by its own fragments. */
  lemma {:induction false} RunNames(env: Env, chunks: seq<Chunk>, k: int)
    requires Run(env, chunks).Ok? && !Run(env, chunks).value.terminalSent
    ensures NameHeld(env.tools, Run(env, chunks).value, k, DeltasOf(chunks, k))
  {
    hide TakeChunk, Inv, NameIs, NameStays;
    if chunks == [] {
      NothingNamed(env.tools, k);
    } else {
      var shorter, chunk := chunks[..|chunks| - 1], chunks[|chunks| - 1];
      RunKeepsInvariant(env, shorter);
      var sc := Run(env, shorter).value;
      StillOpen(env, sc, chunk);
      RunNames(env, shorter, k);
      ChunkNames(env, sc, chunk, k, DeltasOf(shorter, k));
    }
  }

  lemma {:induction false} NothingNamed(ctx: ToolContext, k: int)
    ensures NameIs(ctx, FRESH, k, []) && NameStays(ctx, FRESH, k, [])
  {
  }

  // ---- the terminal ----

  lemma {:induction false} CloseToolNames(env: Env, sc: Conv, index: int, k: int, deltas: seq<ToolDelta>)
    requires CloseTool(env, sc, index).Ok? && NameStays(env.tools, sc, k, deltas)
    ensures NameStays(env.tools, CloseTool(env, sc, index).value, k, deltas)
  {
    hide CloseTool, NameStays, SameButLog, FinishedCall;
    var s := CloseTool(env, sc, index).value;
    if s != sc {
      ClosedFrame(env, sc, index);
      ClosingTool(sc, s, index, FinishedCall(env, sc.tools[index]).value);
      SameTool(env.tools, sc, s, k, deltas);
    }
  }

  lemma {:induction false} ClosingTool(sc: Conv, s: Conv, index: int, item: Item)
    requires index in sc.tools && SameButLog(s, Closing(sc, index, item))
    ensures s.tools.Keys == sc.tools.Keys && forall k :: k in sc.tools ==> NamingOf(s.tools[k]) == NamingOf(sc.tools[k])
    ensures forall k :: k in sc.tools ==> s.tools[k].blockIndex == sc.tools[k].blockIndex
    ensures s.responseItems == sc.responseItems[sc.tools[index].blockIndex := item] && SameCourse(sc, s)
  {
  }

  lemma {:induction false} CloseToolsNames(env: Env, sc: Conv, order: seq<int>, k: int, deltas: seq<ToolDelta>)
    requires CloseTools(env, sc, order).Ok? && NameStays(env.tools, sc, k, deltas)
    ensures NameStays(env.tools, CloseTools(env, sc, order).value, k, deltas)
    decreases |order|
  {
    hide CloseTool, NameStays;
    if order == [] {
    } else {
      CloseToolNames(env, sc, order[0], k, deltas);
      CloseToolsNames(env, CloseTool(env, sc, order[0]).value, order[1..], k, deltas);
    }
  }

  lemma {:induction false} TerminalNames(env: Env, sc: Conv, k: int, deltas: seq<ToolDelta>)
    requires BeforeCompleted(env, sc).Ok? && NameStays(env.tools, sc, k, deltas)
    ensures NameStays(env.tools, BeforeCompleted(env, sc).value, k, deltas)
  {
    hide StopReasoning, CloseText, CloseTools, StatusAtEnd, NameStays;
    var s0 := sc.(heldFinish := "");
    StopReasoningFrame(s0);
    CloseTextFrame(StopReasoning(s0), StatusAtEnd(sc));
    SameTool(env.tools, sc, Quieted(sc), k, deltas);
    CloseToolsNames(env, Quieted(sc), Quieted(sc).toolOrder, k, deltas);
  }

  // ---- no other call is stored ----

  predicate IsCall(item: Item) { item.FunctionCall? || item.CustomCall? }

  /** Stored calls are upstream calls. */
  ghost predicate CallsOwned(sc: Conv) {
    forall i :: i in sc.responseItems && IsCall(sc.responseItems[i]) ==> ToolAt(sc, i)
  }

  /** Only text and thinking were stored in between, and no call was moved. */
  ghost predicate StoresTalk(sc: Conv, s: Conv) {
    && (forall i :: i in s.responseItems && IsCall(s.responseItems[i]) ==> i in sc.responseItems && sc.responseItems[i] == s.responseItems[i])
    && (forall k :: k in sc.tools ==> k in s.tools && s.tools[k].blockIndex == sc.tools[k].blockIndex)
  }

  lemma {:induction false} TalkKeepsOwned(sc: Conv, s: Conv)
    requires CallsOwned(sc) && StoresTalk(sc, s)
    ensures CallsOwned(s)
  {
    forall i | i in s.responseItems && IsCall(s.responseItems[i])
      ensures ToolAt(s, i)
    {
      assert ToolAt(sc, i);
      var k :| k in sc.tools && sc.tools[k].blockIndex == i;
      assert s.tools[k].blockIndex == i;
    }
  }

  lemma {:induction false} TalkTransitive(r: Conv, s: Conv, t: Conv)
    requires StoresTalk(r, s) && StoresTalk(s, t)
    ensures StoresTalk(r, t)
  {
  }

  lemma {:induction false} SameItems(sc: Conv, s: Conv)
    requires s.responseItems == sc.responseItems && s.tools == sc.tools
    ensures StoresTalk(sc, s)
  {
  }

  lemma {:induction false} StopReasoningTalks(sc: Conv)
    ensures StoresTalk(sc, StopReasoning(sc)) && SameCourse(sc, StopReasoning(sc))
  {
    hide Emit;
    var i := AsIndex(sc.thinkIndexIn);
    var item := Reasoning(sc.thinkItemID, sc.thinkBuf);
    EmitThriceFrame(sc.(thinkStopped := true, responseItems := sc.responseItems[i := item]),
                    TextDone(sc.thinkItemID, i, sc.thinkBuf), PartDone(sc.thinkItemID, i, sc.thinkBuf), ItemDone(i, item));
  }

  lemma {:induction false} CloseTextTalks(sc: Conv, status: string)
    ensures StoresTalk(sc, CloseText(sc, status)) && SameCourse(sc, CloseText(sc, status))
  {
    hide Emit;
    var i := AsIndex(sc.msgIndex);
    var item := Message(sc.msgItemID, status, sc.respText);
    EmitThriceFrame(sc.(textClosed := true, responseItems := sc.responseItems[i := item]),
                    TextDone(sc.msgItemID, i, sc.respText), PartDone(sc.msgItemID, i, sc.respText), ItemDone(i, item));
  }

  lemma {:induction false} EmitItems(sc: Conv, b: Body)
    ensures Emit(sc, b).responseItems == sc.responseItems && Emit(sc, b).tools == sc.tools && SameCourse(sc, Emit(sc, b))
  {
  }

  lemma {:induction false} OpenReasoningItems(sc: Conv)
    ensures OpenReasoning(sc).responseItems == sc.responseItems && OpenReasoning(sc).tools == sc.tools
    ensures SameCourse(sc, OpenReasoning(sc))
  {
    hide Emit;
    var s1 := ResetReasoning(sc);
    var s2 := BeginReasoning(s1);
    var s3 := Emit(s2, ItemAdded(s1.nextIndex, ReasoningShell(s2.thinkItemID)));
    EmitItems(s2, ItemAdded(s1.nextIndex, ReasoningShell(s2.thinkItemID)));
    EmitItems(s3, PartAdded(s2.thinkItemID, s1.nextIndex));
  }

  lemma {:induction false} TakeReasoningTalks(sc: Conv, thinking: string)
    ensures StoresTalk(sc, TakeReasoning(sc, thinking)) && SameCourse(sc, TakeReasoning(sc, thinking))
  {
    hide CloseText, StoresTalk, OpenReasoning, Emit;
    CloseTextTalks(sc, "completed");
    var s0 := CloseText(sc, "completed");
    OpenReasoningItems(s0);
    var s1 := OpenReasoning(s0);
    EmitItems(s1.(thinkBuf := s1.thinkBuf + thinking), TextDelta(s1.thinkItemID, AsIndex(s1.thinkIndexIn), thinking));
    SameItems(s0, TakeReasoning(sc, thinking));
    TalkTransitive(sc, s0, TakeReasoning(sc, thinking));
  }

  lemma {:induction false} AddMessageItems(sc: Conv)
    ensures AddMessage(sc).responseItems == sc.responseItems && AddMessage(sc).tools == sc.tools
    ensures AddTextPart(sc).responseItems == sc.responseItems && AddTextPart(sc).tools == sc.tools
    ensures SameCourse(sc, AddMessage(sc)) && SameCourse(sc, AddTextPart(sc))
  {
  }

  lemma {:induction false} OpenTextItems(sc: Conv)
    ensures OpenText(sc).responseItems == sc.responseItems && OpenText(sc).tools == sc.tools && SameCourse(sc, OpenText(sc))
  {
    hide AddMessage, AddTextPart;
    AddMessageItems(sc);
    AddMessageItems(if TextOpen(sc) then sc else AddMessage(sc));
  }

  lemma {:induction false} TakeContentTalks(sc: Conv, content: string)
    ensures StoresTalk(sc, TakeContent(sc, content)) && SameCourse(sc, TakeContent(sc, content))
  {
    hide StopReasoning, StoresTalk, OpenText, Emit;
    StopReasoningTalks(sc);
    var s0 := StopReasoning(sc);
    OpenTextItems(s0);
    var s1 := OpenText(s0);
    EmitItems(s1.(respText := s1.respText + content), TextDelta(s1.msgItemID, AsIndex(s1.msgIndex), content));
    SameItems(s0, TakeContent(sc, content));
    TalkTransitive(sc, s0, TakeContent(sc, content));
  }

  lemma {:induction false} TakeToolTalks(env: Env, sc: Conv, tc: ToolDelta)
    requires TakeTool(env, sc, tc).Ok?
    ensures StoresTalk(sc, TakeTool(env, sc, tc).value) && SameCourse(sc, TakeTool(env, sc, tc).value)
  {
    hide StopReasoning, CloseText, Resolve, Absorb, Sent, TakeTool;
    TakeToolTools(env, sc, tc);
    StopReasoningTalks(sc);
    var s0 := StopReasoning(sc);
    CloseTextTalks(s0, "completed");
    AbsorbedPlace(env.tools, Found(sc, tc), tc);
  }

  lemma {:induction false} AbsorbedPlace(ctx: ToolContext, t: Tool, tc: ToolDelta)
    ensures Sent(Resolve(ctx, Absorb(t, tc))).blockIndex == t.blockIndex
  {
    hide ClassifyStreamedName, ResolveChatName, MergeName;
  }

  lemma {:induction false} TakeToolsTalk(env: Env, sc: Conv, deltas: seq<ToolDelta>)
    requires TakeTools(env, sc, deltas).Ok?
    ensures StoresTalk(sc, TakeTools(env, sc, deltas).value) && SameCourse(sc, TakeTools(env, sc, deltas).value)
    decreases |deltas|
  {
    hide TakeTool, StoresTalk;
    SameItems(sc, sc);
    if deltas == [] {
    } else {
      var s1 := TakeTool(env, sc, deltas[0]).value;
      TakeToolTalks(env, sc, deltas[0]);
      TakeToolsTalk(env, s1, deltas[1..]);
      TalkTransitive(sc, s1, TakeTools(env, sc, deltas).value);
    }
  }

  lemma {:induction false} FinishToolsTalk(env: Env, sc: Conv, order: seq<int>)
    requires FinishTools(env, sc, order).Ok?
    ensures StoresTalk(sc, FinishTools(env, sc, order).value) && SameCourse(sc, FinishTools(env, sc, order).value)
    decreases |order|
  {
    hide FinishTool, StoresTalk;
    SameItems(sc, sc);
    if order == [] {
    } else {
      var s1 := FinishTool(env, sc, order[0]).value;
      FinishToolTalks(env, sc, order[0]);
      FinishToolsTalk(env, s1, order[1..]);
      TalkTransitive(sc, s1, FinishTools(env, sc, order).value);
    }
  }

  lemma {:induction false} FinishToolTalks(env: Env, sc: Conv, index: int)
    requires FinishTool(env, sc, index).Ok?
    ensures StoresTalk(sc, FinishTool(env, sc, index).value) && SameCourse(sc, FinishTool(env, sc, index).value)
  {
    hide SameButLog, Emit, FlushArgs;
    if index in sc.tools {
      FinishToolFrame(env, sc, index);
      AdvancedTools(sc, FinishTool(env, sc, index).value, index, Sent(sc.tools[index].(announced := true)));
      hide FinishTool;
    }
  }

  lemma {:induction false} TakeChoiceTalks(env: Env, sc: Conv, choice: Choice)
    requires TakeChoice(env, sc, choice).Ok?
    ensures StoresTalk(sc, TakeChoice(env, sc, choice).value)
    ensures var s := TakeChoice(env, sc, choice).value;
            && s.done == sc.done && s.flushed == sc.flushed && (s.finished <==> sc.finished || choice.finish != "")
            && s.heldFinish == if choice.finish != "" && !sc.finished then choice.finish else sc.heldFinish
  {
    hide TakeReasoning, TakeContent, TakeTools, FinishTools, StopReasoning, StoresTalk;
    SameItems(sc, sc);
    var s1 := if choice.reasoning.Some? then TakeReasoning(sc, choice.reasoning.value) else sc;
    if choice.reasoning.Some? {
      TakeReasoningTalks(sc, choice.reasoning.value);
    }
    SameItems(s1, s1);
    TakeContentTalks(s1, choice.content);
    var s2 := if choice.content != "" then TakeContent(s1, choice.content) else s1;
    TalkTransitive(sc, s1, s2);
    TakeToolsTalk(env, s2, choice.toolCalls);
    var s3 := TakeTools(env, s2, choice.toolCalls).value;
    TalkTransitive(sc, s2, s3);
    if choice.finish != "" && !s3.finished {
      FinishToolsTalk(env, s3, s3.toolOrder);
      var s4 := FinishTools(env, s3, s3.toolOrder).value;
      var s5 := s4.(finished := true, heldFinish := choice.finish);
      SameItems(s4, s5);
      StopReasoningTalks(s5);
      TalkTransitive(sc, s3, s4);
      TalkTransitive(sc, s4, s5);
      TalkTransitive(sc, s5, StopReasoning(s5));
    }
  }

  /** While the response is open only upstream calls are stored. */
  lemma {:induction false} RunOwns(env: Env, chunks: seq<Chunk>)
    requires Run(env, chunks).Ok? && !Run(env, chunks).value.terminalSent
    ensures CallsOwned(Run(env, chunks).value)
  {
    hide TakeChunk, Inv;
    if chunks == [] {
    } else {
      var shorter, chunk := chunks[..|chunks| - 1], chunks[|chunks| - 1];
      RunKeepsInvariant(env, shorter);
      hide CallsOwned;
      var sc := Run(env, shorter).value;
      StillOpen(env, sc, chunk);
      RunOwns(env, shorter);
      ChunkTalks(env, sc, chunk);
      TalkKeepsOwned(sc, TakeChunk(env, sc, chunk).value);
    }
  }

  lemma {:induction false} ChunkTalks(env: Env, sc: Conv, chunk: Chunk)
    requires sc.heldFinish == "" && TakeChunk(env, sc, chunk).Ok?
    ensures StoresTalk(sc, TakeChunk(env, sc, chunk).value)
  {
    hide TakeChoice, StoresTalk;
    var s1 := Start(WithUsage(sc, chunk), chunk);
    StartTools(WithUsage(sc, chunk), chunk);
    hide Start;
    SameItems(sc, s1);
    if chunk.choices != [] {
      TakeChoiceTalks(env, s1, chunk.choices[0]);
      TalkTransitive(sc, s1, TakeChoice(env, s1, chunk.choices[0]).value);
    }
  }

  lemma {:induction false} CloseToolOwns(env: Env, sc: Conv, index: int)
    requires CloseTool(env, sc, index).Ok? && CallsOwned(sc)
    ensures CallsOwned(CloseTool(env, sc, index).value)
  {
    hide CloseTool, SameButLog, FinishedCall;
    var s := CloseTool(env, sc, index).value;
    if s != sc {
      ClosedFrame(env, sc, index);
      ClosingTool(sc, s, index, FinishedCall(env, sc.tools[index]).value);
      forall i | i in s.responseItems && IsCall(s.responseItems[i])
        ensures ToolAt(s, i)
      {
        if i == sc.tools[index].blockIndex {
          assert s.tools[index].blockIndex == i;
        } else {
          assert ToolAt(sc, i);
          var k :| k in sc.tools && sc.tools[k].blockIndex == i;
          assert s.tools[k].blockIndex == i;
        }
      }
    }
  }

  lemma {:induction false} CloseToolsOwn(env: Env, sc: Conv, order: seq<int>)
    requires CloseTools(env, sc, order).Ok? && CallsOwned(sc)
    ensures CallsOwned(CloseTools(env, sc, order).value)
    decreases |order|
  {
    hide CloseTool, CallsOwned;
    if order == [] {
    } else {
      CloseToolOwns(env, sc, order[0]);
      CloseToolsOwn(env, CloseTool(env, sc, order[0]).value, order[1..]);
    }
  }

  lemma {:induction false} TerminalOwns(env: Env, sc: Conv)
    requires BeforeCompleted(env, sc).Ok? && CallsOwned(sc)
    ensures CallsOwned(BeforeCompleted(env, sc).value)
  {
    hide StopReasoning, CloseText, CloseTools, StatusAtEnd, CallsOwned, StoresTalk;
    var s0 := sc.(heldFinish := "");
    SameItems(sc, s0);
    StopReasoningTalks(s0);
    CloseTextTalks(StopReasoning(s0), StatusAtEnd(sc));
    TalkTransitive(sc, s0, StopReasoning(s0));
    TalkTransitive(sc, StopReasoning(s0), Quieted(sc));
    TalkKeepsOwned(sc, Quieted(sc));
    CloseToolsOwn(env, Quieted(sc), Quieted(sc).toolOrder);
  }

  // ---- the course of the stream ----

  lemma {:induction false} CloseToolsCourse(env: Env, sc: Conv, order: seq<int>)
    requires CloseTools(env, sc, order).Ok?
    ensures SameCourse(sc, CloseTools(env, sc, order).value)
    decreases |order|
  {
    hide CloseTool, FinishedCall, SameButLog;
    if order == [] {
    } else {
      var s1 := CloseTool(env, sc, order[0]).value;
      if s1 != sc {
        ClosedFrame(env, sc, order[0]);
        ClosingTool(sc, s1, order[0], FinishedCall(env, sc.tools[order[0]]).value);
      }
      CloseToolsCourse(env, s1, order[1..]);
    }
  }

  lemma {:induction false} TerminalCourse(env: Env, sc: Conv, allowSynthetic: bool)
    requires Terminal(env, sc, allowSynthetic).Ok?
    ensures var s := Terminal(env, sc, allowSynthetic).value;
            s.done == sc.done && s.flushed == sc.flushed && s.finished == sc.finished
  {
    hide StopReasoning, CloseText, CloseTools, Output, StatusOf;
    var s0, status := sc.(heldFinish := ""), StatusOf(if sc.heldFinish == "" then "stop" else sc.heldFinish);
    StopReasoningTalks(s0);
    CloseTextTalks(StopReasoning(s0), status);
    var s1 := CloseText(StopReasoning(s0), status);
    if CloseTools(env, s1, s1.toolOrder).Ok? {
      CloseToolsCourse(env, s1, s1.toolOrder);
    }
  }
}
