/** What the Chat Completions -> Claude leg tells around the content, for every
    stream: message_start, message_delta and message_stop exactly, and who each
    call is, all read off the chunks. */
module ChatToClaudeTold {
  import opened Common
  import opened ChatChunks
  import opened ClaudeProtocol
  import opened ChatToClaude
  import opened ChatToClaudeSafety
  import opened ChatToClaudeRuns

  /** Who a call is said to be. */
  function Head(d: Desk, k: int): Option<(string, string)> {
    if k in d.tools then Some((d.tools[k].id, d.tools[k].name)) else None
  }

  function HeadOf(tc: Option<ToolDelta>): Option<(string, string)> {
    if tc.Some? then Some((tc.value.id, tc.value.name)) else None
  }

  // ---- block events only ----

  /** From `d` to `d2` only block events were sent, and no call was met or renamed. */
  ghost predicate Beside(d: Desk, d2: Desk) {
    && d.log <= d2.log && Meta(d2.log) == Meta(d.log) && d2.toolsSeen == d.toolsSeen
    && forall k :: Head(d2, k) == Head(d, k)
  }

  lemma {:induction false} BesideThen(a: Desk, b: Desk, c: Desk)
    requires Beside(a, b) && Beside(b, c)
    ensures Beside(a, c)
  {
    hide Meta;
  }

  lemma {:induction false} EmitTells(d: Desk, e: Event)
    ensures var d2 := Emit(d, e);
            && Meta(d2.log) == Meta(d.log) + (if IsMeta(e) then [e] else []) && d.log <= d2.log
            && (forall k :: Head(d2, k) == Head(d, k)) && (!IsMeta(e) ==> Beside(d, d2)) && Beside(d, d)
  {
    assert (d.log + [e])[..|d.log|] == d.log;
  }

  lemma {:induction false} StopsBeside(d: Desk)
    ensures Beside(d, StopThinking(d)) && Beside(d, StopText(d))
  {
    hide Meta;
    EmitTells(d.(thinkOpen := false), BlockStop(d.thinkIndex));
    EmitTells(d.(textOpen := false), BlockStop(d.textIndex));
    EmitTells(d, MessageStop);
  }

  lemma {:induction false} StopCallBeside(d: Desk, k: int)
    ensures Beside(d, StopCall(d, k))
  {
    hide Meta;
    EmitTells(d, MessageStop);
    if k in d.tools && !d.tools[k].stopped {
      EmitTells(d.(tools := d.tools[k := d.tools[k].(stopped := true)]), BlockStop(d.tools[k].blockIndex));
    }
  }

  lemma {:induction false} StopCallsBeside(d: Desk, order: seq<int>)
    ensures Beside(d, StopCalls(d, order))
    decreases |order|
  {
    hide Beside, StopCall;
    if order == [] {
      EmitTells(d, MessageStop);
    } else {
      StopCallBeside(d, order[0]);
      StopCallsBeside(StopCall(d, order[0]), order[1..]);
      BesideThen(d, StopCall(d, order[0]), StopCalls(d, order));
    }
  }

  lemma {:induction false} StopBlocksBeside(d: Desk)
    ensures Beside(d, StopBlocks(d))
  {
    hide Beside, StopCalls, StopText, StopThinking;
    var d1 := StopThinking(d);
    StopsBeside(d);
    StopsBeside(d1);
    StopCallsBeside(StopText(d1), d.toolOrder);
    BesideThen(d, d1, StopText(d1));
    BesideThen(d, StopText(d1), StopBlocks(d));
  }

  lemma {:induction false} ThinkBeside(d: Desk, text: string)
    ensures Beside(d, Think(d, text))
  {
    hide Meta, StopBlocks;
    StopBlocksBeside(d);
    var d0 := StopBlocks(d);
    EmitTells(d0.(thinkOpen := true, thinkIndex := d0.nextIndex, nextIndex := d0.nextIndex + 1), BlockStart(d0.nextIndex, Thinking));
    var d1 := if d.thinkOpen then d else OpenThinking(d0);
    EmitTells(d1, BlockDelta(d1.thinkIndex, ThinkingDelta(text)));
  }

  lemma {:induction false} SayBeside(d: Desk, text: string)
    ensures Beside(d, Say(d, text))
  {
    hide Meta, StopBlocks;
    StopBlocksBeside(d);
    var d0 := StopBlocks(d);
    EmitTells(d0.(textOpen := true, textIndex := d0.nextIndex, nextIndex := d0.nextIndex + 1), BlockStart(d0.nextIndex, Text));
    var d1 := if d.textOpen then d else OpenText(d0);
    EmitTells(d1, BlockDelta(d1.textIndex, TextDelta(text)));
  }

  // ---- calls ----

  /** Block events only, and calls are known by the first of `deltas` that names them. */
  ghost predicate Meets(d: Desk, d2: Desk, deltas: seq<ToolDelta>) {
    && d.log <= d2.log && Meta(d2.log) == Meta(d.log)
    && forall k :: Head(d2, k) == if Head(d, k).Some? then Head(d, k) else HeadOf(FirstOf(deltas, k))
  }

  lemma {:induction false} WriteArgsBeside(d: Desk, tc: ToolDelta)
    requires tc.index in d.tools
    ensures Beside(d, WriteArgs(d, tc))
  {
    hide Meta;
    var t := d.tools[tc.index];
    EmitTells(d.(tools := d.tools[tc.index := t.(args := t.args + tc.args)]), BlockDelta(t.blockIndex, JsonDelta(tc.args)));
    EmitTells(d, MessageStop);
  }

  lemma {:induction false} FragmentMeets(d: Desk, tc: ToolDelta)
    ensures Meets(d, TakeFragment(d, tc), [tc])
  {
    hide Meta, StopBlocks, WriteArgs;
    assert forall k :: FirstOf([tc], k) == if tc.index == k then Some(tc) else None;
    if tc.index in d.tools {
      WriteArgsBeside(d, tc);
    } else {
      StopBlocksBeside(d);
      var d0 := StopBlocks(d);
      var begun := d0.(tools := d0.tools[tc.index := Call(d0.nextIndex, tc.id, tc.name, "", false)], toolOrder := d0.toolOrder + [tc.index],
                        toolsSeen := true, nextIndex := d0.nextIndex + 1);
      EmitTells(begun, BlockStart(d0.nextIndex, ToolUse(tc.id, tc.name)));
      assert Head(d0, tc.index) == Head(d, tc.index);
      WriteArgsBeside(OpenCall(d0, tc), tc);
    }
  }

  lemma {:induction false} FragmentsMeet(d: Desk, deltas: seq<ToolDelta>)
    ensures Meets(d, TakeFragments(d, deltas), deltas)
    decreases |deltas|
  {
    hide Meta, TakeFragment;
    if deltas == [] {
    } else {
      var d1 := TakeFragment(d, deltas[0]);
      FragmentMeets(d, deltas[0]);
      FragmentsMeet(d1, deltas[1..]);
      assert forall k :: FirstOf([deltas[0]], k) == if deltas[0].index == k then Some(deltas[0]) else None;
      hide TakeFragments;
    }
  }

  lemma {:induction false} WriteMeets(d: Desk, choice: Choice)
    ensures Meets(d, Write(d, choice), choice.toolCalls)
  {
    hide Meta, Think, Say, TakeFragments, FirstOf;
    EmitTells(d, MessageStop);
    var d1 := if choice.reasoning.Some? then Think(d, choice.reasoning.value) else d;
    if choice.reasoning.Some? {
      ThinkBeside(d, choice.reasoning.value);
    }
    EmitTells(d1, MessageStop);
    var d2 := if choice.content != "" then Say(d1, choice.content) else d1;
    SayBeside(d1, choice.content);
    FragmentsMeet(d2, choice.toolCalls);
  }

  // ---- one chunk ----

  /** The opening event, from the first chunk with a choice. */
  function Beginning(chunks: seq<Chunk>): seq<Event> {
    var o := Opener(chunks);
    if o.None? then [] else [MessageStart(o.value.id, o.value.model, if o.value.usage.Some? then o.value.usage.value.prompt else 0)]
  }

  /** Cached prompt tokens are told apart from the others. */
  function Spent(usage: Option<Usage>): Counts {
    if usage.None? then Counts(0, 0, None, None)
    else
      var cached := if usage.value.cached.Some? then usage.value.cached.value else 0;
      Counts(if usage.value.prompt > cached then usage.value.prompt - cached else 0, usage.value.completion, usage.value.cached, None)
  }

  /** The message_delta for a stream that finished with its last chunk. */
  ghost function Ending(told: seq<Chunk>, usage: Option<Usage>): Event
    requires EndsInFinish(told)
  {
    var finish := told[|told| - 1].choices[0].finish;
    var called := exists k :: FirstFragment(told, k).Some?;
    MessageDelta(if called || finish == "tool_calls" then "tool_use"
                 else if finish == "length" then "max_tokens"
                 else if finish == "content_filter" then "refusal"
                 else "end_turn", Spent(usage))
  }

  /** What a run has told, and where it stands. */
  ghost predicate Tells(sc: Conv, chunks: seq<Chunk>) {
    && Meta(sc.desk.log) == Beginning(chunks) + (if Told(chunks) == chunks then [] else [Ending(Told(chunks), LastUsage(Counted(chunks)))])
    && (forall k :: Head(sc.desk, k) == HeadOf(FirstFragment(chunks, k)))
    && (sc.started <==> Opener(chunks).Some?) && (sc.finished <==> EndsInFinish(Told(chunks)))
    && sc.heldFinish == (if EndsInFinish(chunks) && Told(chunks) == chunks then chunks[|chunks| - 1].choices[0].finish else "")
  }

  /** The held finish_reason is told once; the rest of the converter stays. */
  lemma {:induction false} TerminalTells(sc: Conv)
    ensures var s := Terminal(sc);
            && Meta(s.desk.log) == Meta(sc.desk.log) + (if sc.heldFinish == "" then [] else [Verdict(sc)]) && sc.desk.log <= s.desk.log
            && (forall k :: Head(s.desk, k) == Head(sc.desk, k))
            && s.started == sc.started && s.finished == sc.finished && s.heldFinish == ""
  {
    hide CountsOf, StopReason, Meta;
    if sc.heldFinish == "" {
      assert Meta(sc.desk.log) + [] == Meta(sc.desk.log);
    } else {
      EmitTells(sc.desk, Verdict(sc));
    }
  }

  lemma {:induction false} StartTells(sc: Conv, chunk: Chunk)
    ensures var s := Start(sc, chunk);
            && Meta(s.desk.log) == Meta(sc.desk.log) + (if sc.started then [] else Beginning([chunk])) && sc.desk.log <= s.desk.log
            && (forall k :: Head(s.desk, k) == Head(sc.desk, k))
            && (s.started <==> sc.started || chunk.choices != []) && s.finished == sc.finished && s.heldFinish == sc.heldFinish
  {
    hide Meta;
    assert [chunk][..0] == [];
    assert Opener([chunk]) == if chunk.choices == [] then None else Some(chunk);
    assert Meta(sc.desk.log) + [] == Meta(sc.desk.log);
    if !sc.started && chunk.choices != [] {
      EmitTells(sc.desk, MessageStart(chunk.id, chunk.model, if chunk.usage.Some? then chunk.usage.value.prompt else 0));
    }
  }

  lemma {:induction false} ChoiceTells(sc: Conv, choice: Choice)
    ensures var s := TakeChoice(sc, choice);
            && Meets(sc.desk, s.desk, choice.toolCalls) && s.started == sc.started
            && (s.finished <==> sc.finished || choice.finish != "")
            && s.heldFinish == if choice.finish != "" && !sc.finished then choice.finish else sc.heldFinish
  {
    hide Meta, Write, StopBlocks, FirstOf;
    WriteMeets(sc.desk, choice);
    StopBlocksBeside(Write(sc.desk, choice));
  }

  /** A converter that holds a finish_reason holds the ending of its chunks. */
  lemma {:induction false} VerdictIsEnding(sc: Conv, chunks: seq<Chunk>)
    requires EndsInFinish(chunks) && sc.heldFinish == chunks[|chunks| - 1].choices[0].finish
    requires forall k :: Head(sc.desk, k) == HeadOf(FirstFragment(chunks, k))
    requires sc.desk.toolsSeen <==> exists k :: k in sc.desk.tools
    ensures Verdict(sc) == Ending(chunks, sc.usage)
  {
    hide FirstFragment;
    assert forall k :: k in sc.desk.tools <==> Head(sc.desk, k).Some?;
    assert forall k :: Head(sc.desk, k).Some? <==> FirstFragment(chunks, k).Some?;
  }

  lemma {:induction false} OneMore(before: seq<Chunk>, chunk: Chunk)
    ensures var chunks := before + [chunk];
            && Opener(chunks) == (if Opener(before).Some? || chunk.choices == [] then Opener(before) else Some(chunk))
            && (forall k :: FirstFragment(chunks, k) == if FirstFragment(before, k).Some? || chunk.choices == [] then FirstFragment(before, k)
                                                        else FirstOf(chunk.choices[0].toolCalls, k))
            && Told(chunks) == (if EndsInFinish(Told(before)) then Told(before) else chunks)
            && (Told(before) != before ==> Counted(chunks) == Counted(before))
            && (Told(before) == before && EndsInFinish(before) ==> Counted(chunks) == chunks)
            && |Told(before)| <= |before| && (EndsInFinish(chunks) <==> HasFinish(chunk))
            && Beginning(chunks) == Beginning(before) + (if Opener(before).Some? then [] else Beginning([chunk]))
  {
    var chunks := before + [chunk];
    assert chunks[..|before|] == before && [chunk][..0] == [];
    assert Told(before) != before ==> |Told(before)| < |before|;
    assert chunks[..|chunks|] == chunks;
    if Told(before) != before {
      assert chunks[..|Told(before)| + 1] == before[..|Told(before)| + 1];
    }
    assert Opener([chunk]) == if chunk.choices == [] then None else Some(chunk);
    if Opener(before).Some? {
      assert Beginning(before) + [] == Beginning(before);
    } else {
      assert [] + Beginning([chunk]) == Beginning([chunk]);
    }
  }

  // ---- whole runs ----

  /** At every moment of every stream: message_start was sent from the first chunk
      with a choice, message_delta with the chunk behind the first finish_reason,
      and nothing else but blocks; each call is who its first fragment says. */
  lemma {:induction false} RunTells(chunks: seq<Chunk>)
    ensures Tells(Run(chunks), chunks)
  {
    hide Meta, Run, FirstFragment, Opener, Ending, Beginning, FirstOf, LastUsage;
    if chunks == [] {
      NothingTold();
    } else {
      var before, chunk := chunks[..|chunks| - 1], chunks[|chunks| - 1];
      assert before + [chunk] == chunks;
      RunTells(before);
      RunUnfolds(chunks);
      OneMore(before, chunk);
      UsageAndCalls(before);
      ChunkTells(Run(before), before, chunk);
    }
  }

  lemma {:induction false} NothingTold()
    ensures Tells(Run([]), [])
  {
  }

  lemma {:induction false} UsageAndCalls(chunks: seq<Chunk>)
    ensures var sc := Run(chunks);
            sc.usage == LastUsage(chunks) && (sc.desk.toolsSeen <==> exists k :: k in sc.desk.tools) && (sc.finished ==> sc.started)
  {
    hide Run, FocusOn, With, Counters;
    RunInv(chunks);
    SeenIffAny(Run(chunks), FocusOn(chunks));
  }

  lemma {:induction false} ChunkTells(sc: Conv, before: seq<Chunk>, chunk: Chunk)
    requires Tells(sc, before) && sc.usage == LastUsage(before) && (sc.desk.toolsSeen <==> exists k :: k in sc.desk.tools)
    requires sc.finished ==> sc.started
    ensures Tells(TakeChunk(sc, chunk), before + [chunk])
  {
    var chunks := before + [chunk];
    OneMore(before, chunk);
    UsageGrows(before, chunk);
    hide Meta, FirstFragment, Opener, Ending, Beginning, FirstOf, LastUsage, Terminal, Start, TakeChoice, Verdict, Told, Counted;
    var s0 := sc.(usage := if chunk.usage.Some? then chunk.usage else sc.usage,
                  flags := if chunk.choices != [] then sc.flags.(started := true) else sc.flags);
    TerminalTells(s0);
    var s1 := Terminal(s0);
    StartTells(s1, chunk);
    var s2 := Start(s1, chunk);
    if EndsInFinish(before) && Told(before) == before {
      VerdictIsEnding(s0, before);
    }
    assert Meta(s2.desk.log) == Beginning(chunks) + (if Told(chunks) == chunks then [] else [Ending(Told(chunks), LastUsage(Counted(chunks)))]) by {
      Around(Beginning(before), Beginning([chunk]), sc.started);
    }
    if chunk.choices != [] {
      ChoiceTells(s2, chunk.choices[0]);
    }
  }

  lemma {:induction false} Around(a: seq<Event>, b: seq<Event>, started: bool)
    ensures a + [] + [] + (if started then [] else b) == a + (if started then [] else b) + []
    ensures forall e :: a + [] + [e] + [] == a + [e] && a + [e] + [] + [] == a + [e]
  {
  }

  lemma {:induction false} UsageGrows(before: seq<Chunk>, chunk: Chunk)
    ensures LastUsage(before + [chunk]) == if chunk.usage.Some? then chunk.usage else LastUsage(before)
  {
    assert (before + [chunk])[..|before|] == before;
  }

  // ---- the end of the stream ----

  /** All that a closed stream told around its blocks. */
  ghost function Frame(chunks: seq<Chunk>): seq<Event> {
    Beginning(chunks) + (if EndsInFinish(Told(chunks)) then [Ending(Told(chunks), LastUsage(Counted(chunks)))] else []) + [MessageStop]
  }

  lemma {:induction false} ClosedTells(sc: Conv, chunks: seq<Chunk>, d: Desk)
    requires Tells(sc, chunks) && Beside(sc.desk, d) && sc.usage == LastUsage(chunks)
    requires sc.desk.toolsSeen <==> exists k :: k in sc.desk.tools
    ensures var s := Terminal(sc.(desk := d));
            && Meta(Emit(s.desk, MessageStop).log) == Frame(chunks)
            && forall k :: Head(Emit(s.desk, MessageStop), k) == HeadOf(FirstFragment(chunks, k))
  {
    hide Meta, FirstFragment, Opener, Ending, Beginning, LastUsage, Terminal, Verdict;
    var s0 := sc.(desk := d);
    TerminalTells(s0);
    EmitTells(Terminal(s0).desk, MessageStop);
    if EndsInFinish(chunks) && Told(chunks) == chunks {
      assert Counted(chunks) == chunks;
      SameCallers(sc.desk, d);
      VerdictIsEnding(s0, chunks);
    }
    Around(Beginning(chunks), [], true);
  }

  lemma {:induction false} SameCallers(d: Desk, d2: Desk)
    requires Beside(d, d2)
    ensures forall k :: k in d2.tools <==> k in d.tools
    ensures (exists k :: k in d2.tools) <==> exists k :: k in d.tools
  {
    hide Meta;
    assert forall k :: Head(d2, k) == Head(d, k);
    assert forall k :: (k in d2.tools <==> Head(d2, k).Some?) && (k in d.tools <==> Head(d, k).Some?);
    if k :| k in d.tools {
      assert k in d2.tools;
    }
    if k :| k in d2.tools {
      assert k in d.tools;
    }
  }

  /** [DONE] after any stream whose arguments are complete: message_start of the
      first chunk with a choice, message_delta if a finish_reason came, and
      message_stop, once each and in this order, with only blocks between them. */
  lemma {:induction false} DoneTellsAll(json: Json, chunks: seq<Chunk>)
    requires AllComplete(json, chunks)
    ensures TakeDone(json, Run(chunks)).Ok?
    ensures var d := TakeDone(json, Run(chunks)).value.desk;
            Meta(d.log) == Frame(chunks) && forall k :: Head(d, k) == HeadOf(FirstFragment(chunks, k))
  {
    hide Meta, Run, FirstFragment, Frame, StopBlocks, Tells, AllComplete, ArgumentsComplete, Terminal;
    ArgumentsAreChecked(json, chunks);
    RunTells(chunks);
    UsageAndCalls(chunks);
    var sc := Run(chunks);
    StopBlocksBeside(sc.desk);
    ClosedTells(sc, chunks, StopBlocks(sc.desk));
    FlagsAside(sc.(desk := StopBlocks(sc.desk)), true);
  }

  lemma {:induction false} FlagsAside(sc: Conv, done: bool)
    ensures Terminal(sc.(done := done, flags := sc.flags.(doneSeen := true, terminalSeen := true))).desk == Terminal(sc).desk
    ensures Terminal(sc.(flushed := true)).desk == Terminal(sc).desk
  {
    hide CountsOf, StopReason;
  }

  /** The same at the end of input, when a finish_reason came. */
  lemma {:induction false} EofTellsAll(json: Json, chunks: seq<Chunk>)
    requires AllComplete(json, chunks) && EndsInFinish(Told(chunks))
    ensures Finalize(json, Run(chunks)).Ok?
    ensures var d := Finalize(json, Run(chunks)).value.desk;
            Meta(d.log) == Frame(chunks) && forall k :: Head(d, k) == HeadOf(FirstFragment(chunks, k))
  {
    hide Meta, Run, FirstFragment, Frame, Tells, AllComplete, ArgumentsComplete, Terminal, Finalize, Inv, FocusOn;
    ArgumentsAreChecked(json, chunks);
    RunTells(chunks);
    UsageAndCalls(chunks);
    RunIsOpen(chunks);
    var sc := Run(chunks);
    RunInv(chunks);
    StageFinishes(sc, FocusOn(chunks));
    StageHolds(sc, chunks);
    FinalizeIs(json, sc);
    EmitTells(sc.desk, MessageStop);
    ClosedTells(sc, chunks, sc.desk);
    FlagsAside(sc, true);
  }

  lemma {:induction false} StageHolds(sc: Conv, chunks: seq<Chunk>)
    requires Tells(sc, chunks) && Inv(sc, FocusOn(chunks))
    ensures sc.finished == EndsInFinish(Told(chunks)) && (sc.finished ==> sc.heldFinish != "" || sc.terminalSent)
  {
    hide Meta, Beginning, Ending, FirstFragment, With, Counters;
  }

  /** Every call is a block of its own id and name, the ones its first fragment
      gave, with all its argument fragments, at every moment. */
  lemma {:induction false} CallsAreNamed(chunks: seq<Chunk>, k: int)
    requires FirstFragment(chunks, k).Some?
    ensures k in Run(chunks).desk.tools
    ensures var first, c := FirstFragment(chunks, k).value, Replay(Run(chunks).desk.log);
            var i := Run(chunks).desk.tools[k].blockIndex;
            && c.Client? && i < |c.blocks| && c.blocks[i].kind == ToolUse(first.id, first.name)
            && Some(c.blocks[i].text) == ArgumentsOf(chunks, k)
  {
    hide Meta, Run, FirstFragment, Replay, ArgumentsOf, ContentOf, ReasoningOf, Gather, Beginning, Ending;
    RunTells(chunks);
    EveryRunConservesContent(chunks);
    assert Head(Run(chunks).desk, k) == HeadOf(FirstFragment(chunks, k));
  }

  // ---- the log only grows ----

  lemma {:induction false} ChunkGrows(sc: Conv, chunk: Chunk)
    ensures sc.desk.log <= TakeChunk(sc, chunk).desk.log
  {
    hide Meta, Terminal, Start, TakeChoice;
    var s0 := sc.(usage := if chunk.usage.Some? then chunk.usage else sc.usage,
                  flags := if chunk.choices != [] then sc.flags.(started := true) else sc.flags);
    TerminalTells(s0);
    StartTells(Terminal(s0), chunk);
    if chunk.choices != [] {
      ChoiceTells(Start(Terminal(s0), chunk), chunk.choices[0]);
    }
  }

  lemma {:induction false} ClosingGrows(json: Json, sc: Conv)
    ensures TakeDone(json, sc).Ok? ==> sc.desk.log <= TakeDone(json, sc).value.desk.log
    ensures Finalize(json, sc).Ok? ==> sc.desk.log <= Finalize(json, sc).value.desk.log
  {
    hide Meta, Terminal, StopBlocks, ArgumentsComplete;
    StopBlocksBeside(sc.desk);
    var s1 := sc.(done := true, flags := sc.flags.(doneSeen := true, terminalSeen := true), desk := StopBlocks(sc.desk));
    TerminalTells(s1);
    EmitTells(Terminal(s1).desk, MessageStop);
    TerminalTells(sc.(flushed := true));
    EmitTells(Terminal(sc.(flushed := true)).desk, MessageStop);
  }

  /** All content is still there once the end of input is told. */
  lemma {:induction false} EofConservesContent(json: Json, chunks: seq<Chunk>)
    requires Finalize(json, Run(chunks)).Ok?
    ensures Conserves(Finalize(json, Run(chunks)).value.desk, chunks)
  {
    hide Run, Conserves, Terminal, ArgumentsComplete;
    EveryRunConservesContent(chunks);
    var sc := Run(chunks);
    DeskTold(sc, chunks);
    FlagsAside(sc, true);
    MetaEventKeeps(Terminal(sc).desk, MessageStop, chunks);
  }
}
