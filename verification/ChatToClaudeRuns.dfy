/** Whole runs of the Chat Completions -> Claude leg. `Focus` follows where the
    upstream writes, from the chunks alone; the theorems tie the client's
    bookkeeping to it and to what the chunks carry. */
module ChatToClaudeRuns {
  import opened Common
  import opened ChatChunks
  import opened ClaudeProtocol
  import opened ChatToClaude
  import opened ChatToClaudeSafety

  // ---- the upstream's side ----

  /** The block the upstream last wrote to or opened, the calls it has mentioned,
      argument fragments to a call it had left, whether it has finished, and
      whether it spoke after that. */
  datatype Focus = Focus(cursor: Cursor, seen: set<int>, stray: nat, finished: bool, late: bool)

  const AWAY := Focus(Nowhere, {}, 0, false, false)

  predicate SpeaksCalls(seen: set<int>, deltas: seq<ToolDelta>) {
    deltas != [] && (deltas[0].index !in seen || deltas[0].args != "" || SpeaksCalls(seen, deltas[1..]))
  }

  predicate Speaks(seen: set<int>, choice: Choice) {
    choice.reasoning.Some? || choice.content != "" || SpeaksCalls(seen, choice.toolCalls)
  }

  function FocusFragment(f: Focus, tc: ToolDelta): Focus {
    var cur := AfterFragment(f.cursor, tc.index in f.seen, tc);
    f.(cursor := cur, seen := f.seen + {tc.index}, stray := f.stray + Bump(tc.args != "" && cur != InCall(tc.index)))
  }

  function FocusFragments(f: Focus, deltas: seq<ToolDelta>): Focus
    decreases |deltas|
  {
    if deltas == [] then f else FocusFragments(FocusFragment(f, deltas[0]), deltas[1..])
  }

  function FocusWrite(f: Focus, choice: Choice): Focus {
    var f1 := if choice.reasoning.Some? then f.(cursor := InThought) else f;
    var f2 := if choice.content != "" then f1.(cursor := InText) else f1;
    FocusFragments(f2, choice.toolCalls)
  }

  function FocusChunk(f: Focus, chunk: Chunk): Focus {
    if chunk.choices == [] then f
    else
      var choice := chunk.choices[0];
      var f1 := FocusWrite(f.(late := f.late || (f.finished && Speaks(f.seen, choice))), choice);
      if choice.finish != "" && !f1.finished then f1.(cursor := Nowhere, finished := true) else f1
  }

  function FocusOn(chunks: seq<Chunk>): Focus {
    if chunks == [] then AWAY else FocusChunk(FocusOn(chunks[..|chunks| - 1]), chunks[|chunks| - 1])
  }

  // ---- one choice ----

  /** The desk is where the upstream is. */
  ghost predicate With(d: Desk, f: Focus) {
    Good(d) && At(d, f.cursor) && forall k :: k in d.tools <==> k in f.seen
  }

  lemma {:induction false} FragmentWith(d: Desk, f: Focus, tc: ToolDelta)
    requires With(d, f)
    ensures var d2 := TakeFragment(d, tc);
            var f2 := FocusFragment(f, tc);
            && With(d2, f2) && Moves(d, d2, f2.stray - f.stray) && Wrote(d, d2, "", "")
            && (forall k :: Held(d2, k) == Join(Held(d, k), Fragment(tc, k)))
            && (|d2.log| > |d.log| <==> tc.index !in f.seen || tc.args != "")
            && f2.finished == f.finished && f2.late == f.late && f2.stray >= f.stray
  {
    hide Good, At, TakeFragment, Moves, Wrote;
    FragmentGood(d, f.cursor, tc);
    var d2 := TakeFragment(d, tc);
    forall k
      ensures k in d2.tools <==> k in FocusFragment(f, tc).seen
    {
      assert Held(d2, k) == Join(Held(d, k), Fragment(tc, k));
    }
  }

  lemma {:induction false} FragmentsWith(d: Desk, f: Focus, deltas: seq<ToolDelta>)
    requires With(d, f)
    ensures var d2 := TakeFragments(d, deltas);
            var f2 := FocusFragments(f, deltas);
            && f2.stray >= f.stray && With(d2, f2) && Moves(d, d2, f2.stray - f.stray) && Wrote(d, d2, "", "")
            && (forall k :: Held(d2, k) == Join(Held(d, k), Fragments(deltas, k)))
            && (|d2.log| > |d.log| <==> SpeaksCalls(f.seen, deltas))
            && f2.finished == f.finished && f2.late == f.late
    decreases |deltas|
  {
    hide TakeFragment, FocusFragment, Held, Fragment, Moves, Good, At, Wrote;
    if deltas == [] {
      Unmoved(d);
      Unwritten(d);
    } else {
      var tc := deltas[0];
      FragmentWith(d, f, tc);
      var d1 := TakeFragment(d, tc);
      var f1 := FocusFragment(f, tc);
      FragmentsWith(d1, f1, deltas[1..]);
      var d2 := TakeFragments(d, deltas);
      MovesTransitive(d, d1, d2, f1.stray - f.stray, FocusFragments(f, deltas).stray - f1.stray);
      WroteThen(d, d1, d2, "", "", "", "");
      Blank("");
      forall k
        ensures Held(d2, k) == Join(Held(d, k), Fragments(deltas, k))
      {
        JoinAssociative(Held(d, k), Fragment(tc, k), Fragments(deltas[1..], k));
      }
      Longer(d, d1, f1.stray - f.stray);
      Longer(d1, d2, FocusFragments(f, deltas).stray - f1.stray);
      if tc.index in f.seen {
        SeenAlready(f, tc);
      }
    }
  }

  lemma {:induction false} SeenAlready(f: Focus, tc: ToolDelta)
    requires tc.index in f.seen
    ensures FocusFragment(f, tc).seen == f.seen
  {
  }

  lemma {:induction false} Unwritten(d: Desk)
    ensures Wrote(d, d, "", "")
  {
    Blank(Words(d, Text));
    Blank(Words(d, Thinking));
  }

  lemma {:induction false} WroteThen(a: Desk, b: Desk, c: Desk, said: string, thought: string, said2: string, thought2: string)
    requires Wrote(a, b, said, thought) && Wrote(b, c, said2, thought2)
    ensures Wrote(a, c, said + said2, thought + thought2)
  {
    hide Words;
    assert (Words(a, Text) + said) + said2 == Words(a, Text) + (said + said2);
    assert (Words(a, Thinking) + thought) + thought2 == Words(a, Thinking) + (thought + thought2);
  }

  lemma {:induction false} Longer(d: Desk, d2: Desk, stray: nat)
    requires Moves(d, d2, stray)
    ensures |d2.log| >= |d.log|
  {
  }

  function Thought(choice: Choice): string {
    if choice.reasoning.Some? then choice.reasoning.value else ""
  }

  /** The think and say part of a choice. */
  ghost function Spoken(d: Desk, choice: Choice): Desk {
    var d1 := if choice.reasoning.Some? then Think(d, choice.reasoning.value) else d;
    if choice.content != "" then Say(d1, choice.content) else d1
  }

  ghost function FocusSpoken(f: Focus, choice: Choice): Focus {
    var f1 := if choice.reasoning.Some? then f.(cursor := InThought) else f;
    if choice.content != "" then f1.(cursor := InText) else f1
  }

  lemma {:induction false} SpokenWith(d: Desk, f: Focus, choice: Choice)
    requires With(d, f)
    ensures var d2 := Spoken(d, choice);
            && With(d2, FocusSpoken(f, choice)) && Moves(d, d2, 0) && Wrote(d, d2, choice.content, Thought(choice))
            && (forall k :: Held(d2, k) == Held(d, k))
            && (|d2.log| > |d.log| <==> choice.reasoning.Some? || choice.content != "")
  {
    hide Good, At, Moves, Think, Say, Words;
    Unmoved(d);
    Unwritten(d);
    var d1 := if choice.reasoning.Some? then Think(d, choice.reasoning.value) else d;
    var f1 := if choice.reasoning.Some? then f.(cursor := InThought) else f;
    if choice.reasoning.Some? {
      ThinkGood(d, f.cursor, choice.reasoning.value);
    }
    var d2 := Spoken(d, choice);
    if choice.content != "" {
      SayGood(d1, f1.cursor, choice.content);
      MovesTransitive(d, d1, d2, 0, 0);
      WroteThen(d, d1, d2, "", Thought(choice), choice.content, "");
      assert "" + choice.content == choice.content;
      Blank(Thought(choice));
    }
    Longer(d, d1, 0);
  }

  lemma {:induction false} WriteWith(d: Desk, f: Focus, choice: Choice)
    requires With(d, f)
    ensures var d2 := Write(d, choice);
            var f2 := FocusWrite(f, choice);
            && f2.stray >= f.stray && With(d2, f2) && Moves(d, d2, f2.stray - f.stray) && Wrote(d, d2, choice.content, Thought(choice))
            && (forall k :: Held(d2, k) == Join(Held(d, k), Fragments(choice.toolCalls, k)))
            && (|d2.log| > |d.log| <==> Speaks(f.seen, choice))
            && f2.finished == f.finished && f2.late == f.late
  {
    hide With, Moves, Held, TakeFragments, Wrote, Think, Say, FocusFragments;
    SpokenWith(d, f, choice);
    var d1 := Spoken(d, choice);
    var f1 := FocusSpoken(f, choice);
    FragmentsWith(d1, f1, choice.toolCalls);
    var d2 := Write(d, choice);
    MovesTransitive(d, d1, d2, 0, FocusWrite(f, choice).stray - f.stray);
    WroteThen(d, d1, d2, choice.content, Thought(choice), "", "");
    Blank(choice.content);
    Blank(Thought(choice));
    Longer(d, d1, 0);
    Longer(d1, d2, FocusWrite(f, choice).stray - f.stray);
  }

  // ---- the invariant of a run ----

  /** The client's counters while the stream is open. */
  ghost predicate Counters(c: Client, sc: Conv, f: Focus) {
    && c.Client? && c.starts == Bump(sc.started) && c.deltas == Bump(sc.terminalSent) && c.stops == 0
    && c.dangling == 0 && c.early == 0 && c.stray == f.stray
    && (c.late > 0 <==> f.late)
  }

  ghost predicate Stage(sc: Conv, f: Focus) {
    && (sc.heldFinish != "" ==> sc.finished && !sc.terminalSent && f.cursor == Nowhere)
    && (sc.finished ==> sc.started && (sc.heldFinish != "" || sc.terminalSent))
    && (sc.terminalSent ==> sc.finished) && (!sc.terminalSent ==> !f.late)
    && (!sc.started ==> sc.desk == BLANK && f == AWAY)
    && f.finished == sc.finished && sc.flags.finishSeen == sc.finished
  }

  ghost predicate Inv(sc: Conv, f: Focus) {
    With(sc.desk, f) && Stage(sc, f) && Counters(Replay(sc.desk.log), sc, f)
  }

  ghost predicate Carries(sc: Conv, chunks: seq<Chunk>) {
    && Words(sc.desk, Text) == ContentOf(chunks) && Words(sc.desk, Thinking) == ReasoningOf(chunks)
    && (forall k :: Held(sc.desk, k) == ArgumentsOf(chunks, k))
    && sc.usage == LastUsage(chunks)
  }

  /** The message_delta a held finish_reason turns into. */
  function Verdict(sc: Conv): Event {
    MessageDelta(if sc.desk.toolsSeen then "tool_use" else StopReason(sc.heldFinish), CountsOf(sc.usage))
  }

  ghost function LastVerdict(d: Desk): Option<Event> {
    var c := Replay(d.log);
    if c.Client? then c.verdict else None
  }

  /** A message-level event leaves the desk alone. */
  lemma {:induction false} Aside(d: Desk, f: Focus, e: Event)
    requires With(d, f) && (e.MessageStart? || e.MessageDelta? || e.MessageStop?)
    ensures var d2 := Emit(d, e);
            && With(d2, f) && (forall k :: Held(d2, k) == Held(d, k)) && Words(d2, Text) == Words(d, Text)
            && Words(d2, Thinking) == Words(d, Thinking)
            && Replay(d2.log) == Accept(Replay(d.log), e) && Replay(d2.log).Client?
            && Replay(d2.log).dangling == Replay(d.log).dangling + Bump(!e.MessageStart? && f.cursor != Nowhere)
  {
    hide Replay, Gather;
    ReplayAppend(d.log, e);
    OpenIffSomewhere(d, f.cursor);
  }

  lemma {:induction false} OpenIffSomewhere(d: Desk, cur: Cursor)
    requires Good(d) && At(d, cur)
    ensures LastOpen(Replay(d.log).blocks) <==> cur != Nowhere
  {
    hide Replay;
    if cur.InCall? {
      assert Owns(d.tools[cur.index], Replay(d.log).blocks);
    }
  }

  lemma {:induction false} TerminalInv(sc: Conv, f: Focus)
    requires Inv(sc, f)
    ensures var s := Terminal(sc);
            && Inv(s, f) && s.started == sc.started && s.usage == sc.usage && s.finished == sc.finished
            && (sc.heldFinish != "" ==> s.terminalSent && LastVerdict(s.desk) == Some(Verdict(sc))) && s.heldFinish == ""
            && (forall k :: Held(s.desk, k) == Held(sc.desk, k))
            && Words(s.desk, Text) == Words(sc.desk, Text) && Words(s.desk, Thinking) == Words(sc.desk, Thinking)
  {
    hide With, Held, Words, CountsOf, StopReason, Replay;
    if sc.heldFinish != "" {
      Aside(sc.desk, f, Verdict(sc));
    }
  }

  lemma {:induction false} StartInv(sc: Conv, f: Focus, chunk: Chunk)
    requires Inv(sc, f)
    ensures var s := Start(sc, chunk);
            && Inv(s, f) && (chunk.choices != [] ==> s.started) && s.usage == sc.usage && s.heldFinish == sc.heldFinish
            && LastVerdict(s.desk) == LastVerdict(sc.desk)
            && (forall k :: Held(s.desk, k) == Held(sc.desk, k))
            && Words(s.desk, Text) == Words(sc.desk, Text) && Words(s.desk, Thinking) == Words(sc.desk, Thinking)
  {
    hide With, Held, Words;
    if !sc.started && chunk.choices != [] {
      var input := if chunk.usage.Some? then chunk.usage.value.prompt else 0;
      Aside(sc.desk, f, MessageStart(chunk.id, chunk.model, input));
    }
  }

  /** Writing a choice of an open stream. */
  lemma {:induction false} WriteInv(sc: Conv, f: Focus, choice: Choice)
    requires Inv(sc, f) && sc.started && sc.heldFinish == ""
    ensures var f0 := f.(late := f.late || (f.finished && Speaks(f.seen, choice)));
            Inv(sc.(desk := Write(sc.desk, choice)), FocusWrite(f0, choice))
  {
    hide Good, At, Write, FocusWrite;
    var f0 := f.(late := f.late || (f.finished && Speaks(f.seen, choice)));
    WriteWith(sc.desk, f0, choice);
  }

  lemma {:induction false} ChoiceInv(sc: Conv, f: Focus, chunk: Chunk)
    requires Inv(sc, f) && sc.started && sc.heldFinish == "" && chunk.choices != []
    ensures Inv(TakeChoice(sc, chunk.choices[0]), FocusChunk(f, chunk))
    ensures LastVerdict(TakeChoice(sc, chunk.choices[0]).desk) == LastVerdict(sc.desk)
    ensures Wrote(sc.desk, TakeChoice(sc, chunk.choices[0]).desk, ChunkContent(chunk), ChunkReasoning(chunk))
    ensures forall k :: Held(TakeChoice(sc, chunk.choices[0]).desk, k) == Join(Held(sc.desk, k), ChunkArguments(chunk, k))
  {
    hide Good, At, Write, FocusWrite, Held, Wrote, Fragments, StopBlocks, Replay;
    var choice := chunk.choices[0];
    var f0 := f.(late := f.late || (f.finished && Speaks(f.seen, choice)));
    WriteInv(sc, f, choice);
    WriteWith(sc.desk, f0, choice);
    var d1 := Write(sc.desk, choice);
    if choice.finish != "" && !sc.finished {
      StopInv(sc.(desk := d1), FocusWrite(f0, choice));
      StopBlocksWrites(d1);
      WroteThen(sc.desk, d1, StopBlocks(d1), choice.content, Thought(choice), "", "");
      Blank(choice.content);
      Blank(Thought(choice));
    }
  }

  lemma {:induction false} StopInv(sc: Conv, f: Focus)
    requires With(sc.desk, f) && Counters(Replay(sc.desk.log), sc, f) && !sc.terminalSent && sc.started
    ensures With(StopBlocks(sc.desk), f.(cursor := Nowhere))
    ensures Counters(Replay(StopBlocks(sc.desk).log), sc, f.(cursor := Nowhere))
    ensures LastVerdict(StopBlocks(sc.desk)) == LastVerdict(sc.desk)
  {
    hide Good, StopBlocks, Replay;
    StopBlocksGood(sc.desk);
  }

  /** The chunk after usage capture, a due terminal and the opening event. */
  ghost function Prepared(sc: Conv, chunk: Chunk): Conv {
    var s0 := sc.(usage := if chunk.usage.Some? then chunk.usage else sc.usage,
                  flags := if chunk.choices != [] then sc.flags.(started := true) else sc.flags);
    Start(Terminal(s0), chunk)
  }

  lemma {:induction false} PreparedInv(sc: Conv, f: Focus, chunk: Chunk)
    requires Inv(sc, f)
    ensures var s := Prepared(sc, chunk);
            && Inv(s, f) && s.heldFinish == "" && (chunk.choices != [] ==> s.started)
            && s.usage == (if chunk.usage.Some? then chunk.usage else sc.usage)
            && (sc.heldFinish != "" ==>
                  LastVerdict(s.desk) == Some(Verdict(sc.(usage := if chunk.usage.Some? then chunk.usage else sc.usage))))
            && (forall k :: Held(s.desk, k) == Held(sc.desk, k))
            && Words(s.desk, Text) == Words(sc.desk, Text) && Words(s.desk, Thinking) == Words(sc.desk, Thinking)
  {
    hide With, Counters, Held, Words, Terminal, Start;
    var s0 := sc.(usage := if chunk.usage.Some? then chunk.usage else sc.usage,
                  flags := if chunk.choices != [] then sc.flags.(started := true) else sc.flags);
    SameCounters(sc, s0, f);
    TerminalInv(s0, f);
    hide Inv;
    StartInv(Terminal(s0), f, chunk);
  }

  lemma {:induction false} ChunkInv(sc: Conv, f: Focus, before: seq<Chunk>, chunk: Chunk)
    requires Inv(sc, f) && Carries(sc, before)
    ensures Inv(TakeChunk(sc, chunk), FocusChunk(f, chunk)) && Carries(TakeChunk(sc, chunk), before + [chunk])
  {
    hide Inv, Held, Words, TakeChoice, Prepared, ChunkContent, ChunkReasoning, ChunkArguments, Join;
    var chunks := before + [chunk];
    assert chunks[..|before|] == before && chunks[|before|] == chunk;
    PreparedInv(sc, f, chunk);
    var s1 := Prepared(sc, chunk);
    ChunkIsPrepared(sc, chunk);
    hide TakeChunk;
    if chunk.choices != [] {
      ChoiceInv(s1, f, chunk);
      ChoiceKeepsUsage(s1, chunk.choices[0]);
    } else {
      SilentChunk(chunk);
      Blank(Words(s1.desk, Text));
      Blank(Words(s1.desk, Thinking));
      assert forall k :: Join(Held(s1.desk, k), None) == Held(s1.desk, k) by {
        JoinNone();
      }
    }
  }

  lemma {:induction false} JoinNone()
    ensures forall a: Option<string> :: Join(a, None) == a
  {
  }

  lemma {:induction false} ChunkIsPrepared(sc: Conv, chunk: Chunk)
    ensures TakeChunk(sc, chunk) == if chunk.choices == [] then Prepared(sc, chunk) else TakeChoice(Prepared(sc, chunk), chunk.choices[0])
  {
    hide Terminal, Start, TakeChoice;
  }

  lemma {:induction false} SameCounters(sc: Conv, s: Conv, f: Focus)
    requires Counters(Replay(sc.desk.log), sc, f) && s == sc.(usage := s.usage, flags := s.flags)
    ensures Counters(Replay(s.desk.log), s, f)
  {
  }

  lemma {:induction false} SilentChunk(chunk: Chunk)
    requires chunk.choices == []
    ensures ChunkContent(chunk) == "" && ChunkReasoning(chunk) == "" && forall k :: ChunkArguments(chunk, k) == None
  {
  }

  lemma {:induction false} ChoiceKeepsUsage(sc: Conv, choice: Choice)
    ensures TakeChoice(sc, choice).usage == sc.usage
  {
  }

  // ---- whole runs ----

  /** Feeding chunks one after another; nothing in this leg fails on a decoded chunk. */
  function Run(chunks: seq<Chunk>): Conv {
    if chunks == [] then FRESH else TakeChunk(Run(chunks[..|chunks| - 1]), chunks[|chunks| - 1])
  }

  lemma {:induction false} RunInv(chunks: seq<Chunk>)
    ensures Inv(Run(chunks), FocusOn(chunks)) && Carries(Run(chunks), chunks)
  {
    hide TakeChunk, FocusChunk, Carries, With, Counters, Stage;
    if chunks == [] {
      FreshInv();
    } else {
      var n := |chunks| - 1;
      assert chunks[..n] + [chunks[n]] == chunks;
      hide Inv;
      RunInv(chunks[..n]);
      ChunkInv(Run(chunks[..n]), FocusOn(chunks[..n]), chunks[..n], chunks[n]);
    }
  }

  lemma {:induction false} FreshInv()
    ensures Inv(FRESH, AWAY) && Carries(FRESH, [])
  {
  }

  /** Block discipline for every stream of chunks: starts in order, one block
      open at a time, every delta to a block of its kind, each stop once; and
      the two relaxations happen exactly when the upstream asks for them. */
  lemma {:induction false} EveryRunKeepsDiscipline(chunks: seq<Chunk>)
    ensures var log := Run(chunks).desk.log;
            var c := Replay(log);
            && c.Client? && Starts(log) == UpTo(|c.blocks|)
            && (forall i :: 0 <= i < |c.blocks| - 1 ==> !c.blocks[i].open)
            && c.starts <= 1 && c.deltas <= 1 && c.stops == 0 && c.early == 0 && c.dangling == 0
            && c.stray == FocusOn(chunks).stray
            && (c.late > 0 <==> FocusOn(chunks).late)
            && (c.deltas == 1 ==> FocusOn(chunks).finished)
  {
    hide With, Run, FocusOn, Replay;
    RunInv(chunks);
    AcceptedStartsInOrder(Run(chunks).desk.log);
  }

  /** The client holds all text and all thinking of the chunks, and each call's
      block all its fragments. */
  ghost predicate Conserves(d: Desk, chunks: seq<Chunk>) {
    var c := Replay(d.log);
    && c.Client? && Gather(c.blocks, Text) == ContentOf(chunks) && Gather(c.blocks, Thinking) == ReasoningOf(chunks)
    && (forall k :: k in d.tools <==> ArgumentsOf(chunks, k).Some?)
    && (forall k :: k in d.tools ==>
          var t := d.tools[k];
          t.blockIndex < |c.blocks| && c.blocks[t.blockIndex].kind == ToolUse(t.id, t.name)
          && Some(c.blocks[t.blockIndex].text) == ArgumentsOf(chunks, k))
  }

  lemma {:induction false} GoodConserves(d: Desk, chunks: seq<Chunk>)
    requires Good(d) && Words(d, Text) == ContentOf(chunks) && Words(d, Thinking) == ReasoningOf(chunks)
    requires forall k :: Held(d, k) == ArgumentsOf(chunks, k)
    ensures Conserves(d, chunks)
  {
    hide Replay, ArgumentsOf, ContentOf, ReasoningOf, Gather;
    forall k
      ensures k in d.tools <==> ArgumentsOf(chunks, k).Some?
      ensures k in d.tools ==> Owns(d.tools[k], Replay(d.log).blocks) && Some(d.tools[k].args) == ArgumentsOf(chunks, k)
    {
      assert Held(d, k) == ArgumentsOf(chunks, k);
    }
  }

  /** All text, all thinking and every call's arguments reach the client, at
      every moment and for every stream. */
  lemma {:induction false} EveryRunConservesContent(chunks: seq<Chunk>)
    ensures Conserves(Run(chunks).desk, chunks)
  {
    hide Run, FocusOn, Replay, ArgumentsOf, ContentOf, ReasoningOf, Gather, At, Stage, Counters;
    RunInv(chunks);
    GoodConserves(Run(chunks).desk, chunks);
  }

  /** The held finish_reason is told with the next chunk: its stop reason (calls
      outrank it) and the usage that came with or before that chunk. */
  lemma {:induction false} TrailerTellsUsage(chunks: seq<Chunk>, trailer: Chunk)
    requires Run(chunks).heldFinish != ""
    ensures var sc := Run(chunks);
            var c := Replay(Run(chunks + [trailer]).desk.log);
            && c.Client? && c.deltas == 1
            && c.verdict == Some(MessageDelta(if exists k :: k in sc.desk.tools then "tool_use" else StopReason(sc.heldFinish),
                                              CountsOf(LastUsage(chunks + [trailer]))))
  {
    hide Run, FocusOn, Inv, Held, Words, TakeChoice, Prepared, TakeChunk, With, CountsOf, StopReason;
    var all := chunks + [trailer];
    assert all[..|chunks|] == chunks && all[|chunks|] == trailer;
    RunInv(chunks);
    RunInv(all);
    var sc := Run(chunks);
    RunUnfolds(all);
    assert LastVerdict(Run(all).desk).Some? && Run(all).terminalSent ==> Replay(Run(all).desk.log).Client?;
    SeenIffAny(sc, FocusOn(chunks));
    PreparedInv(sc, FocusOn(chunks), trailer);
    ChunkIsPrepared(sc, trailer);
    var s1 := Prepared(sc, trailer);
    if trailer.choices != [] {
      ChoiceInv(s1, FocusOn(chunks), trailer);
    }
    InvClient(Run(all), FocusOn(all));
    ChunkKeepsTerminal(sc, trailer);
  }

  lemma {:induction false} RunUnfolds(chunks: seq<Chunk>)
    requires chunks != []
    ensures Run(chunks) == TakeChunk(Run(chunks[..|chunks| - 1]), chunks[|chunks| - 1])
  {
    hide TakeChunk;
  }

  lemma {:induction false} InvClient(sc: Conv, f: Focus)
    requires Inv(sc, f)
    ensures Replay(sc.desk.log).Client? && Replay(sc.desk.log).deltas == Bump(sc.terminalSent)
  {
  }

  lemma {:induction false} SeenIffAny(sc: Conv, f: Focus)
    requires Inv(sc, f)
    ensures sc.desk.toolsSeen <==> exists k :: k in sc.desk.tools
  {
    hide Replay;
    if sc.desk.toolsSeen {
      var k := sc.desk.toolOrder[0];
      assert k in sc.desk.toolOrder;
      assert k in sc.desk.tools;
    } else {
      assert forall k :: k in sc.desk.tools ==> k in sc.desk.toolOrder;
    }
  }

  lemma {:induction false} ChunkKeepsTerminal(sc: Conv, chunk: Chunk)
    ensures sc.heldFinish != "" ==> TakeChunk(sc, chunk).terminalSent
  {
    hide Write, StopBlocks, CountsOf;
  }

  // ---- the end of the stream ----

  /** [DONE] after any stream: every block is stopped exactly once, message_stop
      comes last and once, message_delta came exactly if a finish_reason did, and
      a stream without any choice yields the bare message_stop. */
  lemma {:induction false} DoneEndsCleanly(json: Json, chunks: seq<Chunk>)
    requires TakeDone(json, Run(chunks)).Ok?
    ensures var s := TakeDone(json, Run(chunks)).value;
            var c := Replay(s.desk.log);
            && c.Client? && c.stops == 1 && c.dangling == 0 && c.stray == FocusOn(chunks).stray
            && c.deltas == Bump(FocusOn(chunks).finished) && c.starts == Bump(Run(chunks).started)
            && c.early == Bump(!Run(chunks).started)
            && s.desk.log != [] && s.desk.log[|s.desk.log| - 1] == MessageStop
            && (forall i: nat :: StopCount(s.desk.log, i) == StartCount(s.desk.log, i))
            && s.done && s.flags.doneSeen && s.flags.terminalSeen
  {
    hide Run, FocusOn, With, StopBlocks, Terminal, StartCount, StopCount, Replay, Inv;
    RunInv(chunks);
    var sc := Run(chunks);
    var f := FocusOn(chunks).(cursor := Nowhere);
    StoppedDesk(sc, FocusOn(chunks));
    var s1 := sc.(done := true, flags := sc.flags.(doneSeen := true, terminalSeen := true), desk := StopBlocks(sc.desk));
    DoneTerminal(s1, f);
    var s2 := Terminal(s1);
    Aside(s2.desk, f, MessageStop);
    DanglingIsOpen(Emit(s2.desk, MessageStop).log);
  }

  /** Closing everything moves no counter but those of block events. */
  lemma {:induction false} StoppedDesk(sc: Conv, f: Focus)
    requires Inv(sc, f)
    ensures var d := StopBlocks(sc.desk);
            var c, c2 := Replay(sc.desk.log), Replay(d.log);
            && With(d, f.(cursor := Nowhere)) && c.Client? && c2.Client?
            && c2.starts == Bump(sc.started) && c2.deltas == Bump(sc.terminalSent) && c2.stops == 0 && c2.dangling == 0
            && c2.stray == f.stray && c2.early == 0
            && (sc.heldFinish != "" ==> !sc.terminalSent && sc.started)
            && (f.finished <==> sc.heldFinish != "" || sc.terminalSent)
  {
    hide Good, StopBlocks;
    StopBlocksGood(sc.desk);
    UnopenedStops(sc.desk);
  }

  /** With nothing open there is nothing to stop. */
  lemma {:induction false} UnopenedStops(d: Desk)
    ensures d == BLANK ==> StopBlocks(d) == d
  {
  }

  lemma {:induction false} DoneTerminal(sc: Conv, f: Focus)
    requires With(sc.desk, f) && f.cursor == Nowhere && Replay(sc.desk.log).deltas == Bump(sc.terminalSent)
    requires sc.heldFinish != "" ==> !sc.terminalSent && sc.started && Replay(sc.desk.log).starts == 1
    ensures var s := Terminal(sc);
            var c, c2 := Replay(sc.desk.log), Replay(s.desk.log);
            && With(s.desk, f) && c2.Client? && c2.starts == c.starts && c2.stops == c.stops && c2.dangling == c.dangling
            && c2.stray == c.stray && c2.early == c.early && c2.deltas == Bump(sc.terminalSent || sc.heldFinish != "")
            && s.done == sc.done && s.flags == sc.flags
  {
    hide With, CountsOf;
    if sc.heldFinish != "" {
      var reason := if sc.desk.toolsSeen then "tool_use" else StopReason(sc.heldFinish);
      Aside(sc.desk, f, MessageDelta(reason, CountsOf(sc.usage)));
    } else {
      WithIsClient(sc.desk, f);
    }
  }

  lemma {:induction false} WithIsClient(d: Desk, f: Focus)
    requires With(d, f)
    ensures Replay(d.log).Client?
  {
  }

  /** The same once [DONE] has closed every block. */
  lemma {:induction false} DoneConservesContent(json: Json, chunks: seq<Chunk>)
    requires TakeDone(json, Run(chunks)).Ok?
    ensures Conserves(TakeDone(json, Run(chunks)).value.desk, chunks)
  {
    hide Run, FocusOn, With, StopBlocks, Replay, Inv, Good, SameWords, SameCalls, Words, Conserves, Carries, Terminal;
    RunInv(chunks);
    var sc := Run(chunks);
    InvIsGood(sc, FocusOn(chunks));
    StopBlocksGood(sc.desk);
    var d := StopBlocks(sc.desk);
    ClosedCarries(sc, d, chunks);
    var s1 := sc.(done := true, flags := sc.flags.(doneSeen := true, terminalSeen := true), desk := d);
    DeskTold(s1, chunks);
    var d2 := Terminal(s1).desk;
    MetaEventKeeps(d2, MessageStop, chunks);
  }

  lemma {:induction false} InvIsGood(sc: Conv, f: Focus)
    requires Inv(sc, f)
    ensures Good(sc.desk)
  {
    hide Good;
  }

  lemma {:induction false} ClosedCarries(sc: Conv, d: Desk, chunks: seq<Chunk>)
    requires Carries(sc, chunks) && Good(sc.desk) && Good(d) && SameCalls(sc.desk, d) && SameWords(sc.desk, d)
    ensures Conserves(d, chunks)
  {
    hide Replay, ArgumentsOf, ContentOf, ReasoningOf, Gather, Good, Conserves;
    SameGather(Replay(sc.desk.log).blocks, Replay(d.log).blocks, Text);
    SameGather(Replay(sc.desk.log).blocks, Replay(d.log).blocks, Thinking);
    forall k
      ensures Held(d, k) == ArgumentsOf(chunks, k)
    {
      assert Held(sc.desk, k) == ArgumentsOf(chunks, k);
    }
    GoodConserves(d, chunks);
  }

  /** Terminal events change no block. */
  lemma {:induction false} TerminalKeepsBlocks(log: seq<Event>, e: Event)
    requires Replay(log).Client? && (e.MessageDelta? || e.MessageStop?)
    ensures Replay(log + [e]).Client? && Replay(log + [e]).blocks == Replay(log).blocks
  {
    hide Replay;
    ReplayAppend(log, e);
  }

  lemma {:induction false} MetaEventKeeps(d: Desk, e: Event, chunks: seq<Chunk>)
    requires Conserves(d, chunks) && (e.MessageDelta? || e.MessageStop?)
    ensures Conserves(Emit(d, e), chunks)
  {
    hide Replay, Gather, ContentOf, ReasoningOf, ArgumentsOf;
    TerminalKeepsBlocks(d.log, e);
  }

  lemma {:induction false} DeskTold(sc: Conv, chunks: seq<Chunk>)
    requires Conserves(sc.desk, chunks)
    ensures Conserves(Terminal(sc).desk, chunks)
  {
    hide CountsOf, StopReason, Conserves;
    if sc.heldFinish != "" {
      var reason := if sc.desk.toolsSeen then "tool_use" else StopReason(sc.heldFinish);
      MetaEventKeeps(sc.desk, MessageDelta(reason, CountsOf(sc.usage)), chunks);
    }
  }

  /** The joined arguments of every call of the stream are valid JSON. */
  ghost predicate AllComplete(json: Json, chunks: seq<Chunk>) {
    forall k :: ArgumentsOf(chunks, k).Some? ==> json.valid(DefaultArgs(ArgumentsOf(chunks, k).value))
  }

  /** The check made at [DONE] and at the end of input, over the chunks alone. */
  lemma {:induction false} ArgumentsAreChecked(json: Json, chunks: seq<Chunk>)
    ensures ArgumentsComplete(json, Run(chunks).desk) <==> AllComplete(json, chunks)
    ensures TakeDone(json, Run(chunks)).Ok? <==> AllComplete(json, chunks)
  {
    hide Run, FocusOn, Replay, ArgumentsOf, ContentOf, ReasoningOf, At, Stage, Counters, Words, DefaultArgs, Terminal, StopBlocks;
    RunInv(chunks);
    var d := Run(chunks).desk;
    OrderIsKnown(d);
    if ArgumentsComplete(json, d) {
      forall k | ArgumentsOf(chunks, k).Some?
        ensures json.valid(DefaultArgs(ArgumentsOf(chunks, k).value))
      {
        assert Held(d, k) == ArgumentsOf(chunks, k);
      }
    } else {
      var k :| k in d.toolOrder && k in d.tools && !json.valid(DefaultArgs(d.tools[k].args));
      assert ArgumentsOf(chunks, k) == Held(d, k) == Some(d.tools[k].args);
      assert !json.valid(DefaultArgs(ArgumentsOf(chunks, k).value));
    }
  }

  lemma {:induction false} OrderIsKnown(d: Desk)
    requires Good(d)
    ensures forall k :: k in d.toolOrder <==> k in d.tools
  {
  }

  /** The flush of a finished run: the held message_delta, then message_stop. */
  lemma {:induction false} FlushEnds(sc: Conv, f: Focus)
    requires Inv(sc, f) && sc.finished && !sc.flushed
    ensures var d := Flush(sc).desk;
            var c := Replay(d.log);
            && c.Client? && c.starts == 1 && c.deltas == 1 && c.stops == 1 && c.early == 0 && c.stray == f.stray
            && (c.dangling == 0 <==> f.cursor == Nowhere)
  {
    hide With, CountsOf, StopReason, Replay, Held, Words, Terminal;
    var s0 := sc.(flushed := true);
    TerminalInv(sc, f);
    TerminalIgnoresFlush(sc);
    var d := Terminal(sc).desk;
    Aside(d, f, MessageStop);
    assert Flush(sc).desk == Emit(d, MessageStop);
  }

  lemma {:induction false} TerminalIgnoresFlush(sc: Conv)
    ensures Terminal(sc.(flushed := true)) == Terminal(sc).(flushed := true)
    ensures sc.heldFinish == "" ==> Terminal(sc) == sc
  {
    hide CountsOf, StopReason;
  }

  lemma {:induction false} FinalizeIs(json: Json, sc: Conv)
    requires !sc.flags.terminalSeen
    ensures Finalize(json, sc)
            == if !sc.flags.finishSeen then Err(NoFinishReason)
               else if !ArgumentsComplete(json, sc.desk) then Err(IncompleteArguments)
               else Ok(Flush(sc).(flags := Flush(sc).flags.(terminalSeen := true)))
  {
    hide Flush, ArgumentsComplete;
  }

  lemma {:induction false} StageFinishes(sc: Conv, f: Focus)
    requires Inv(sc, f)
    ensures sc.flags.finishSeen == sc.finished == f.finished
  {
    hide With, Counters;
  }

  /** End of input without [DONE]: it fails exactly when no finish_reason came, or
      else when some call's arguments are incomplete; otherwise it sends one
      message_delta and one message_stop, with a block left open exactly when the
      upstream's cursor is still in one, which takes text, thinking or a new call
      after the finish. */
  lemma {:induction false} EofEndsOnlyAfterFinish(json: Json, chunks: seq<Chunk>)
    ensures var o := Finalize(json, Run(chunks));
            && (o == Err(NoFinishReason) <==> !FocusOn(chunks).finished)
            && (o == Err(IncompleteArguments) <==> FocusOn(chunks).finished && !AllComplete(json, chunks))
            && (o.Ok? <==> FocusOn(chunks).finished && AllComplete(json, chunks))
            && (o.Ok? ==>
                  var c := Replay(o.value.desk.log);
                  && FocusOn(chunks).finished && c.Client? && c.starts == 1 && c.deltas == 1 && c.stops == 1 && c.early == 0
                  && c.stray == FocusOn(chunks).stray
                  && (c.dangling == 0 <==> FocusOn(chunks).cursor == Nowhere)
                  && (c.dangling > 0 ==> FocusOn(chunks).late)
                  && o.value.flags.terminalSeen)
  {
    hide Run, FocusOn, Inv, Replay, Flush, ArgumentsComplete, AllComplete, Finalize;
    RunInv(chunks);
    RunIsOpen(chunks);
    var sc, f := Run(chunks), FocusOn(chunks);
    FinishedSettles(chunks);
    ArgumentsAreChecked(json, chunks);
    StageFinishes(sc, f);
    FinalizeIs(json, sc);
    if sc.finished {
      FlushEnds(sc, f);
    }
  }

  /** A concrete stream whose end leaves a block open: text behind the finish. */
  lemma {:induction false} LateTextDangles(json: Json)
    ensures var chunks := [Chunk("r", "m", [Choice(None, "a", [], "stop")], None), Chunk("r", "m", [Choice(None, "b", [], "")], None)];
            var o := Finalize(json, Run(chunks));
            o.Ok? && Replay(o.value.desk.log).Client? && Replay(o.value.desk.log).dangling > 0
  {
    hide Run, Replay, Finalize;
    var first, late := Chunk("r", "m", [Choice(None, "a", [], "stop")], None), Chunk("r", "m", [Choice(None, "b", [], "")], None);
    var chunks := [first, late];
    assert chunks[..1] == [first] && [first][..0] == [];
    assert FocusOn([first]).finished && FocusOn(chunks).finished && FocusOn(chunks).cursor == InText;
    forall k
      ensures ArgumentsOf(chunks, k).None?
    {
      assert ArgumentsOf([first], k).None?;
    }
    EofEndsOnlyAfterFinish(json, chunks);
  }

  /** Only [DONE] and the end of input set these. */
  lemma {:induction false} RunIsOpen(chunks: seq<Chunk>)
    ensures var s := Run(chunks);
            !s.flushed && !s.done && !s.flags.doneSeen && !s.flags.terminalSeen
  {
    hide Terminal, Start, TakeChoice;
    if chunks == [] {
    } else {
      RunIsOpen(chunks[..|chunks| - 1]);
      var sc := Run(chunks[..|chunks| - 1]);
      PreparedFlags(sc, chunks[|chunks| - 1]);
    }
  }

  lemma {:induction false} PreparedFlags(sc: Conv, chunk: Chunk)
    ensures var s := TakeChunk(sc, chunk);
            s.flushed == sc.flushed && s.done == sc.done && s.flags.doneSeen == sc.flags.doneSeen
            && s.flags.terminalSeen == sc.flags.terminalSeen
  {
    hide Terminal, Start, TakeChoice;
    var s0 := sc.(usage := if chunk.usage.Some? then chunk.usage else sc.usage,
                  flags := if chunk.choices != [] then sc.flags.(started := true) else sc.flags);
    TerminalFlags(s0);
    StartFlags(Terminal(s0), chunk);
    if chunk.choices != [] {
      ChoiceFlags(Start(Terminal(s0), chunk), chunk.choices[0]);
    }
  }

  lemma {:induction false} TerminalFlags(sc: Conv)
    ensures var s := Terminal(sc);
            s.flushed == sc.flushed && s.done == sc.done && s.flags == sc.flags
  {
    hide CountsOf;
  }

  lemma {:induction false} StartFlags(sc: Conv, chunk: Chunk)
    ensures var s := Start(sc, chunk);
            s.flushed == sc.flushed && s.done == sc.done && s.flags == sc.flags
  {
  }

  lemma {:induction false} ChoiceFlags(sc: Conv, choice: Choice)
    ensures var s := TakeChoice(sc, choice);
            s.flushed == sc.flushed && s.done == sc.done && s.flags.doneSeen == sc.flags.doneSeen
            && s.flags.terminalSeen == sc.flags.terminalSeen
  {
    hide Write, StopBlocks;
  }

  /** Writing after the finish is what moves the cursor away again. */
  lemma {:induction false} FinishedSettles(chunks: seq<Chunk>)
    ensures var f := FocusOn(chunks);
            f.finished && f.cursor != Nowhere ==> f.late
  {
    if chunks == [] {
    } else {
      FinishedSettles(chunks[..|chunks| - 1]);
      var f := FocusOn(chunks[..|chunks| - 1]);
      var chunk := chunks[|chunks| - 1];
      if chunk.choices != [] && f.finished {
        var f0 := f.(late := f.late || Speaks(f.seen, chunk.choices[0]));
        SilentStays(f0, chunk.choices[0]);
      } else if chunk.choices != [] {
        WriteKeepsFinish(f.(late := f.late), chunk.choices[0]);
      }
    }
  }

  lemma {:induction false} SilentStays(f: Focus, choice: Choice)
    ensures FocusWrite(f, choice).late == f.late && FocusWrite(f, choice).finished == f.finished
    ensures !Speaks(f.seen, choice) ==> FocusWrite(f, choice).cursor == f.cursor
  {
    QuietCalls(f, choice.toolCalls);
    WriteKeepsFinish(f, choice);
  }

  lemma {:induction false} WriteKeepsFinish(f: Focus, choice: Choice)
    ensures FocusWrite(f, choice).late == f.late && FocusWrite(f, choice).finished == f.finished
  {
    var f1 := if choice.reasoning.Some? then f.(cursor := InThought) else f;
    var f2 := if choice.content != "" then f1.(cursor := InText) else f1;
    QuietCalls(f2, choice.toolCalls);
  }

  lemma {:induction false} QuietCalls(f: Focus, deltas: seq<ToolDelta>)
    ensures var f2 := FocusFragments(f, deltas);
            && f2.late == f.late && f2.finished == f.finished
            && (!SpeaksCalls(f.seen, deltas) ==> f2.cursor == f.cursor)
    decreases |deltas|
  {
    if deltas == [] {
    } else {
      QuietCalls(FocusFragment(f, deltas[0]), deltas[1..]);
      if deltas[0].index in f.seen {
        SeenAlready(f, deltas[0]);
      }
    }
  }

  /** Two calls whose fragments interleave: the third fragment reaches a block
      that was already stopped. */
  lemma {:induction false} InterleavedFragmentsStray()
    ensures var one := Choice(None, "", [ToolDelta(0, "a", "f", "x"), ToolDelta(1, "b", "g", "y"), ToolDelta(0, "", "", "z")], "");
            var c := Replay(Run([Chunk("r", "m", [one], None)]).desk.log);
            c.Client? && c.stray == 1
  {
    var deltas := [ToolDelta(0, "a", "f", "x"), ToolDelta(1, "b", "g", "y"), ToolDelta(0, "", "", "z")];
    var chunks := [Chunk("r", "m", [Choice(None, "", deltas, "")], None)];
    EveryRunKeepsDiscipline(chunks);
    assert chunks[..0] == [];
    assert deltas[1..] == [deltas[1], deltas[2]] && deltas[1..][1..] == [deltas[2]];
    var f1 := FocusFragment(AWAY, deltas[0]);
    var f2 := FocusFragment(f1, deltas[1]);
    assert FocusFragments(f2, [deltas[2]]) == FocusFragment(f2, deltas[2]);
    assert FocusFragments(AWAY, deltas) == FocusFragment(f2, deltas[2]);
  }
}
