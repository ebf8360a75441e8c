/** Safety of the Chat Completions -> Claude leg: block discipline for every
    stream, exactly when it is relaxed, and conservation of content. */
module ChatToClaudeSafety {
  import opened Common
  import opened ChatChunks
  import opened ClaudeProtocol
  import opened ChatToClaude

  // ---- the invariant ----

  ghost predicate AllStopped(d: Desk) {
    forall k :: k in d.tools ==> d.tools[k].stopped
  }

  /** The client's blocks are the converter's, index by index. */
  ghost predicate Tracks(d: Desk, blocks: seq<Block>) {
    && |blocks| == d.nextIndex
    && (forall i :: 0 <= i < |blocks| - 1 ==> !blocks[i].open)
    && (d.thinkOpen ==> d.thinkIndex == |blocks| - 1 && blocks[d.thinkIndex].kind.Thinking? && LastOpen(blocks))
    && (d.textOpen ==> d.textIndex == |blocks| - 1 && blocks[d.textIndex].kind.Text? && LastOpen(blocks))
    && (!d.thinkOpen && !d.textOpen && AllStopped(d) ==> !LastOpen(blocks))
    && (forall k :: k in d.tools ==> Owns(d.tools[k], blocks))
    && (forall j, k :: j in d.tools && k in d.tools && j != k ==> d.tools[j].blockIndex != d.tools[k].blockIndex)
    && (forall k :: k in d.toolOrder <==> k in d.tools)
    && (d.toolsSeen <==> d.toolOrder != [])
  }

  ghost predicate Owns(t: Call, blocks: seq<Block>) {
    t.blockIndex < |blocks| && blocks[t.blockIndex] == Block(ToolUse(t.id, t.name), t.args, !t.stopped)
  }

  ghost predicate Good(d: Desk) {
    Replay(d.log).Client? && Tracks(d, Replay(d.log).blocks)
  }

  /** Everything from `c` to `c2` was `n` block events, `stray` of them astray. */
  ghost predicate Writes(c: Client, c2: Client, n: nat, stray: nat) {
    && c.Client? && c2.Client? && c2.starts == c.starts && c2.deltas == c.deltas && c2.stops == c.stops && c2.dangling == c.dangling
    && c2.verdict == c.verdict
    && c2.early == c.early + (if c.starts == 0 then n else 0)
    && c2.late == c.late + (if c.deltas > 0 then n else 0)
    && c2.stray == c.stray + stray
  }

  ghost predicate Moves(d: Desk, d2: Desk, stray: nat) {
    |d.log| <= |d2.log| && Writes(Replay(d.log), Replay(d2.log), |d2.log| - |d.log|, stray)
  }

  lemma {:induction false} Unmoved(d: Desk)
    requires Good(d)
    ensures Moves(d, d, 0)
  {
  }

  lemma {:induction false} MovesTransitive(a: Desk, b: Desk, c: Desk, m: nat, n: nat)
    requires Moves(a, b, m) && Moves(b, c, n)
    ensures Moves(a, c, m + n)
  {
  }

  // ---- closing ----

  ghost predicate Quiet(d: Desk) { !d.thinkOpen && !d.textOpen && AllStopped(d) }

  /** Equal in all that survives closing: what each call accumulated. */
  ghost predicate SameCalls(d: Desk, d2: Desk) {
    && d2.nextIndex == d.nextIndex && d2.toolOrder == d.toolOrder && d2.tools.Keys == d.tools.Keys
    && forall k :: k in d.tools ==> d2.tools[k] == d.tools[k].(stopped := d2.tools[k].stopped)
                                    && (d.tools[k].stopped ==> d2.tools[k].stopped)
  }

  /** Closing keeps kinds and texts. */
  ghost predicate SameWords(d: Desk, d2: Desk) {
    var b, b2 := Replay(d.log), Replay(d2.log);
    b.Client? && b2.Client? && |b2.blocks| == |b.blocks|
    && forall i :: 0 <= i < |b.blocks| ==> b2.blocks[i].kind == b.blocks[i].kind && b2.blocks[i].text == b.blocks[i].text
  }

  /** The client's side of a stop: the block closes, nothing else moves. */
  lemma {:induction false} Stopped(log: seq<Event>, i: nat)
    requires var c := Replay(log);
             c.Client? && i < |c.blocks| && c.blocks[i].open
    ensures var c, c2 := Replay(log), Replay(log + [BlockStop(i)]);
            Writes(c, c2, 1, 0) && c2.Client? && c2.blocks == c.blocks[i := c.blocks[i].(open := false)]
  {
    ReplayAppend(log, BlockStop(i));
    hide Replay;
  }

  /** The client's side of a start: one blank open block more. */
  lemma {:induction false} Started(log: seq<Event>, n: nat, kind: Kind)
    requires var c := Replay(log);
             c.Client? && n == |c.blocks| && !LastOpen(c.blocks)
    ensures var c, c2 := Replay(log), Replay(log + [BlockStart(n, kind)]);
            Writes(c, c2, 1, 0) && c2.Client? && c2.blocks == c.blocks + [Block(kind, "", true)]
  {
    ReplayAppend(log, BlockStart(n, kind));
    hide Replay;
  }

  lemma {:induction false} StopThinkingGood(d: Desk)
    requires Good(d)
    ensures var d2 := StopThinking(d);
            && Good(d2) && !d2.thinkOpen && d2.textOpen == d.textOpen && SameCalls(d, d2) && SameWords(d, d2) && Moves(d, d2, 0)
  {
    hide Replay, Writes;
    if d.thinkOpen {
      Stopped(d.log, d.thinkIndex);
    } else {
      Unmoved(d);
    }
  }

  lemma {:induction false} StopTextGood(d: Desk)
    requires Good(d)
    ensures var d2 := StopText(d);
            && Good(d2) && !d2.textOpen && d2.thinkOpen == d.thinkOpen && SameCalls(d, d2) && SameWords(d, d2) && Moves(d, d2, 0)
  {
    hide Replay, Writes;
    if d.textOpen {
      Stopped(d.log, d.textIndex);
    } else {
      Unmoved(d);
    }
  }

  lemma {:induction false} StopCallGood(d: Desk, k: int)
    requires Good(d) && !d.thinkOpen && !d.textOpen
    ensures var d2 := StopCall(d, k);
            && Good(d2) && !d2.thinkOpen && !d2.textOpen && SameCalls(d, d2) && SameWords(d, d2) && Moves(d, d2, 0)
            && (k in d.tools ==> d2.tools[k].stopped)
  {
    hide Replay, Writes;
    if k in d.tools && !d.tools[k].stopped {
      assert Owns(d.tools[k], Replay(d.log).blocks);
      Stopped(d.log, d.tools[k].blockIndex);
    } else {
      Unmoved(d);
    }
  }

  lemma {:induction false} StopCallsGood(d: Desk, order: seq<int>)
    requires Good(d) && !d.thinkOpen && !d.textOpen
    ensures var d2 := StopCalls(d, order);
            && Good(d2) && !d2.thinkOpen && !d2.textOpen && SameCalls(d, d2) && SameWords(d, d2) && Moves(d, d2, 0)
            && forall k :: k in order && k in d.tools ==> d2.tools[k].stopped
    decreases |order|
  {
    if order == [] {
      Unmoved(d);
    } else {
      StopCallGood(d, order[0]);
      StopCallsGood(StopCall(d, order[0]), order[1..]);
      hide Good, StopCall;
      MovesTransitive(d, StopCall(d, order[0]), StopCalls(d, order), 0, 0);
    }
  }

  lemma {:induction false} SameCallsTransitive(a: Desk, b: Desk, c: Desk)
    requires SameCalls(a, b) && SameCalls(b, c)
    ensures SameCalls(a, c)
  {
  }

  lemma {:induction false} SameWordsTransitive(a: Desk, b: Desk, c: Desk)
    requires SameWords(a, b) && SameWords(b, c)
    ensures SameWords(a, c)
  {
    hide Replay;
  }

  lemma {:induction false} QuietIsClosed(d: Desk)
    requires Good(d) && !d.thinkOpen && !d.textOpen && forall k :: k in d.toolOrder && k in d.tools ==> d.tools[k].stopped
    ensures Quiet(d) && !LastOpen(Replay(d.log).blocks)
  {
    hide Replay;
  }

  lemma {:induction false} StopBlocksGood(d: Desk)
    requires Good(d)
    ensures var d2 := StopBlocks(d);
            && Good(d2) && Quiet(d2) && !LastOpen(Replay(d2.log).blocks) && SameCalls(d, d2) && SameWords(d, d2) && Moves(d, d2, 0)
  {
    hide StopThinking, StopText, StopCalls, Moves, Good, SameWords, Replay;
    StopThinkingGood(d);
    var d1 := StopThinking(d);
    StopTextGood(d1);
    var d2 := StopText(d1);
    StopCallsGood(d2, d2.toolOrder);
    var d3 := StopBlocks(d);
    assert forall k :: k in d3.toolOrder && k in d3.tools ==> d3.tools[k].stopped;
    hide SameCalls, Quiet;
    QuietIsClosed(d3);
    MovesTransitive(d, d1, d2, 0, 0);
    MovesTransitive(d, d2, d3, 0, 0);
    SameCallsTransitive(d, d1, d2);
    SameCallsTransitive(d, d2, d3);
    SameWordsTransitive(d, d1, d2);
    SameWordsTransitive(d, d2, d3);
  }

  // ---- where the upstream is writing ----

  datatype Cursor = Nowhere | InThought | InText | InCall(index: int)

  ghost predicate At(d: Desk, cur: Cursor) {
    match cur
    case Nowhere => Quiet(d)
    case InThought => d.thinkOpen && !d.textOpen && AllStopped(d)
    case InText => d.textOpen && !d.thinkOpen && AllStopped(d)
    case InCall(k) =>
      !d.thinkOpen && !d.textOpen && k in d.tools && !d.tools[k].stopped
      && forall j :: j in d.tools && j != k ==> d.tools[j].stopped
  }

  /** The text of all blocks of one kind, in order. */
  function Gather(blocks: seq<Block>, kind: Kind): string {
    if blocks == [] then ""
    else
      var last := blocks[|blocks| - 1];
      Gather(blocks[..|blocks| - 1], kind) + (if last.kind == kind then last.text else "")
  }

  function Words(d: Desk, kind: Kind): string {
    var c := Replay(d.log);
    if c.Client? then Gather(c.blocks, kind) else ""
  }

  lemma {:induction false} SameGather(b: seq<Block>, b2: seq<Block>, kind: Kind)
    requires |b2| == |b| && forall i :: 0 <= i < |b| ==> b2[i].kind == b[i].kind && (b[i].kind == kind ==> b2[i].text == b[i].text)
    ensures Gather(b2, kind) == Gather(b, kind)
  {
    if b == [] {
    } else {
      SameGather(b[..|b| - 1], b2[..|b| - 1], kind);
    }
  }

  lemma {:induction false} SameWordsGather(d: Desk, d2: Desk, kind: Kind)
    requires SameWords(d, d2)
    ensures Words(d2, kind) == Words(d, kind)
  {
    SameGather(Replay(d.log).blocks, Replay(d2.log).blocks, kind);
  }

  /** A block event at the newest block: a start adds a blank one, a delta
      extends it; `kind` words grow by exactly `text`. */
  lemma {:induction false} NewestGrows(b: seq<Block>, b2: seq<Block>, text: string, kind: Kind)
    requires b != [] && b2 == b[|b| - 1 := b[|b| - 1].(text := b[|b| - 1].text + text)]
    ensures Gather(b2, kind) == Gather(b, kind) + (if b[|b| - 1].kind == kind then text else "")
  {
    var n := |b| - 1;
    assert b2[..n] == b[..n];
    assert Gather(b[..n], kind) + (b[n].text + text) == (Gather(b[..n], kind) + b[n].text) + text;
    assert Gather(b, kind) + "" == Gather(b, kind);
  }

  lemma {:induction false} StartAddsBlank(b: seq<Block>, kind: Kind, added: Kind)
    ensures Gather(b + [Block(added, "", true)], kind) == Gather(b, kind)
  {
    assert (b + [Block(added, "", true)])[..|b|] == b;
    assert Gather(b, kind) + "" == Gather(b, kind);
  }

  // ---- thinking and text ----

  lemma {:induction false} OpenThinkingGood(d: Desk)
    requires Good(d) && Quiet(d)
    ensures var d2 := OpenThinking(d);
            && Good(d2) && At(d2, InThought) && d2.tools == d.tools && Moves(d, d2, 0)
            && Replay(d2.log).blocks == Replay(d.log).blocks + [Block(Thinking, "", true)]
  {
    hide Replay, Writes;
    Started(d.log, d.nextIndex, Thinking);
  }

  lemma {:induction false} ThinkOnGood(d: Desk, text: string)
    requires Good(d) && At(d, InThought)
    ensures var d2 := Emit(d, BlockDelta(d.thinkIndex, ThinkingDelta(text)));
            var b := Replay(d.log).blocks;
            && Good(d2) && At(d2, InThought) && d2.tools == d.tools && Moves(d, d2, 0) && |d2.log| > |d.log|
            && b != [] && b[|b| - 1].kind == Thinking
            && Replay(d2.log).blocks == b[|b| - 1 := b[|b| - 1].(text := b[|b| - 1].text + text)]
  {
    ReplayAppend(d.log, BlockDelta(d.thinkIndex, ThinkingDelta(text)));
  }

  lemma {:induction false} OpenTextGood(d: Desk)
    requires Good(d) && Quiet(d)
    ensures var d2 := OpenText(d);
            && Good(d2) && At(d2, InText) && d2.tools == d.tools && Moves(d, d2, 0)
            && Replay(d2.log).blocks == Replay(d.log).blocks + [Block(Text, "", true)]
  {
    hide Replay, Writes;
    Started(d.log, d.nextIndex, Text);
  }

  lemma {:induction false} SayOnGood(d: Desk, text: string)
    requires Good(d) && At(d, InText)
    ensures var d2 := Emit(d, BlockDelta(d.textIndex, TextDelta(text)));
            var b := Replay(d.log).blocks;
            && Good(d2) && At(d2, InText) && d2.tools == d.tools && Moves(d, d2, 0) && |d2.log| > |d.log|
            && b != [] && b[|b| - 1].kind == Text
            && Replay(d2.log).blocks == b[|b| - 1 := b[|b| - 1].(text := b[|b| - 1].text + text)]
  {
    ReplayAppend(d.log, BlockDelta(d.textIndex, TextDelta(text)));
  }

  /** What a call has accumulated; None for a call never mentioned. */
  function Held(d: Desk, k: int): Option<string> {
    if k in d.tools then Some(d.tools[k].args) else None
  }

  /** From `d` to `d2`: `said` and `thought` were written, the calls kept what they hold. */
  ghost predicate Wrote(d: Desk, d2: Desk, said: string, thought: string) {
    && Words(d2, Text) == Words(d, Text) + said && Words(d2, Thinking) == Words(d, Thinking) + thought
  }

  ghost predicate KeepsCalls(d: Desk, d2: Desk) {
    d2.tools.Keys == d.tools.Keys && forall k :: Held(d2, k) == Held(d, k)
  }

  lemma {:induction false} Blank(s: string)
    ensures s + "" == s
  {
  }

  lemma {:induction false} StopBlocksWrites(d: Desk)
    requires Good(d)
    ensures Wrote(d, StopBlocks(d), "", "") && KeepsCalls(d, StopBlocks(d))
  {
    hide StopBlocks, Good, Gather;
    StopBlocksGood(d);
    SameWordsGather(d, StopBlocks(d), Text);
    SameWordsGather(d, StopBlocks(d), Thinking);
    Blank(Words(d, Text));
    Blank(Words(d, Thinking));
  }

  lemma {:induction false} ThinkGood(d: Desk, cur: Cursor, text: string)
    requires Good(d) && At(d, cur)
    ensures var d2 := Think(d, text);
            && Good(d2) && At(d2, InThought) && Moves(d, d2, 0) && |d2.log| > |d.log|
            && Wrote(d, d2, "", text) && KeepsCalls(d, d2)
  {
    hide Good, Gather, StopBlocks, OpenThinking, Replay, Moves;
    StopBlocksGood(d);
    StopBlocksWrites(d);
    Unmoved(d);
    var d0 := if d.thinkOpen then d else StopBlocks(d);
    var d1 := if d.thinkOpen then d else OpenThinking(d0);
    if !d.thinkOpen {
      OpenThinkingGood(d0);
      StartAddsBlank(Replay(d0.log).blocks, Text, Thinking);
      StartAddsBlank(Replay(d0.log).blocks, Thinking, Thinking);
      MovesTransitive(d, d0, d1, 0, 0);
    }
    ThinkOnGood(d1, text);
    var d2 := Think(d, text);
    MovesTransitive(d, d1, d2, 0, 0);
    GoodIsClient(d);
    GoodIsClient(d0);
    GoodIsClient(d1);
    GoodIsClient(d2);
    NewestGrows(Replay(d1.log).blocks, Replay(d2.log).blocks, text, Text);
    NewestGrows(Replay(d1.log).blocks, Replay(d2.log).blocks, text, Thinking);
    Blank(Words(d, Text));
    Blank(Words(d, Thinking));
    MovesGrow(d, d1);
  }

  lemma {:induction false} GoodIsClient(d: Desk)
    requires Good(d)
    ensures Replay(d.log).Client?
  {
  }

  lemma {:induction false} MovesGrow(d: Desk, d2: Desk)
    requires Moves(d, d2, 0)
    ensures |d.log| <= |d2.log|
  {
  }

  lemma {:induction false} SayGood(d: Desk, cur: Cursor, text: string)
    requires Good(d) && At(d, cur)
    ensures var d2 := Say(d, text);
            && Good(d2) && At(d2, InText) && Moves(d, d2, 0) && |d2.log| > |d.log|
            && Wrote(d, d2, text, "") && KeepsCalls(d, d2)
  {
    hide Good, Gather, StopBlocks, OpenText, Replay, Moves;
    StopBlocksGood(d);
    StopBlocksWrites(d);
    Unmoved(d);
    var d0 := if d.textOpen then d else StopBlocks(d);
    var d1 := if d.textOpen then d else OpenText(d0);
    if !d.textOpen {
      OpenTextGood(d0);
      StartAddsBlank(Replay(d0.log).blocks, Text, Text);
      StartAddsBlank(Replay(d0.log).blocks, Thinking, Text);
      MovesTransitive(d, d0, d1, 0, 0);
    }
    SayOnGood(d1, text);
    var d2 := Say(d, text);
    MovesTransitive(d, d1, d2, 0, 0);
    GoodIsClient(d);
    GoodIsClient(d0);
    GoodIsClient(d1);
    GoodIsClient(d2);
    NewestGrows(Replay(d1.log).blocks, Replay(d2.log).blocks, text, Text);
    NewestGrows(Replay(d1.log).blocks, Replay(d2.log).blocks, text, Thinking);
    Blank(Words(d, Text));
    Blank(Words(d, Thinking));
    MovesGrow(d, d1);
  }

  // ---- calls ----

  lemma {:induction false} OpenCallGood(d: Desk, tc: ToolDelta)
    requires Good(d) && Quiet(d) && tc.index !in d.tools
    ensures var d2 := OpenCall(d, tc);
            && Good(d2) && At(d2, InCall(tc.index)) && Moves(d, d2, 0) && |d2.log| > |d.log|
            && Replay(d2.log).blocks == Replay(d.log).blocks + [Block(ToolUse(tc.id, tc.name), "", true)]
  {
    hide Replay, Writes;
    Started(d.log, d.nextIndex, ToolUse(tc.id, tc.name));
    var d2 := OpenCall(d, tc);
    forall k | k in d2.tools
      ensures Owns(d2.tools[k], Replay(d2.log).blocks)
    {
      if k in d.tools {
        assert Owns(d.tools[k], Replay(d.log).blocks);
      }
    }
    assert forall k :: k in d.tools ==> Owns(d.tools[k], Replay(d.log).blocks);
    assert forall k :: k in d2.toolOrder <==> k in d2.tools;
    assert forall i :: 0 <= i < d.nextIndex ==> Replay(d2.log).blocks[i] == Replay(d.log).blocks[i];
    assert d2.tools[tc.index].blockIndex == d.nextIndex;
  }

  lemma {:induction false} OpenCallWrites(d: Desk, tc: ToolDelta)
    requires Good(d) && Quiet(d) && tc.index !in d.tools
    ensures var d2 := OpenCall(d, tc);
            && Wrote(d, d2, "", "") && tc.index in d2.tools
            && forall k :: Held(d2, k) == if k == tc.index then Some("") else Held(d, k)
  {
    OpenCallGood(d, tc);
    GoodIsClient(d);
    GoodIsClient(OpenCall(d, tc));
    hide Good, Replay, Gather;
    StartAddsBlank(Replay(d.log).blocks, Text, ToolUse(tc.id, tc.name));
    StartAddsBlank(Replay(d.log).blocks, Thinking, ToolUse(tc.id, tc.name));
    Blank(Words(d, Text));
    Blank(Words(d, Thinking));
  }

  lemma {:induction false} WriteArgsTracks(d: Desk, cur: Cursor, tc: ToolDelta, b: seq<Block>)
    requires Tracks(d, b) && At(d, cur) && tc.index in d.tools && tc.args != ""
    ensures var i := d.tools[tc.index].blockIndex;
            && i < |b| && b[i].kind.ToolUse? && (b[i].open <==> cur == InCall(tc.index))
            && At(WriteArgs(d, tc), cur)
            && Tracks(WriteArgs(d, tc), b[i := b[i].(text := b[i].text + tc.args)])
  {
    var t := d.tools[tc.index];
    assert Owns(t, b);
    var b2 := b[t.blockIndex := b[t.blockIndex].(text := b[t.blockIndex].text + tc.args)];
    var d2 := WriteArgs(d, tc);
    forall k | k in d2.tools
      ensures Owns(d2.tools[k], b2) && d2.tools[k].stopped == d.tools[k].stopped
    {
      assert Owns(d.tools[k], b);
    }
    assert d2.tools.Keys == d.tools.Keys;
    assert AllStopped(d2) == AllStopped(d);
  }

  lemma {:induction false} WriteArgsGood(d: Desk, cur: Cursor, tc: ToolDelta)
    requires Good(d) && At(d, cur) && tc.index in d.tools && tc.args != ""
    ensures var d2 := WriteArgs(d, tc);
            var i := d.tools[tc.index].blockIndex;
            var b := Replay(d.log).blocks;
            && Good(d2) && At(d2, cur) && Moves(d, d2, Bump(cur != InCall(tc.index))) && |d2.log| > |d.log|
            && i < |b| && b[i].kind.ToolUse? && Replay(d2.log).blocks == b[i := b[i].(text := b[i].text + tc.args)]
  {
    hide Tracks, At;
    WriteArgsTracks(d, cur, tc, Replay(d.log).blocks);
    ReplayAppend(d.log, BlockDelta(d.tools[tc.index].blockIndex, JsonDelta(tc.args)));
  }

  lemma {:induction false} WriteArgsWrites(d: Desk, cur: Cursor, tc: ToolDelta)
    requires Good(d) && At(d, cur) && tc.index in d.tools && tc.args != ""
    ensures var d2 := WriteArgs(d, tc);
            && Wrote(d, d2, "", "")
            && forall k :: Held(d2, k) == Join(Held(d, k), Fragment(tc, k))
  {
    WriteArgsGood(d, cur, tc);
    var d2 := WriteArgs(d, tc);
    GoodIsClient(d);
    GoodIsClient(d2);
    hide Good, Replay, Gather;
    SameGather(Replay(d.log).blocks, Replay(d2.log).blocks, Text);
    SameGather(Replay(d.log).blocks, Replay(d2.log).blocks, Thinking);
    Blank(Words(d, Text));
    Blank(Words(d, Thinking));
  }

  /** Where the upstream writes after a fragment: an unheard-of call takes over. */
  function AfterFragment(cur: Cursor, heard: bool, tc: ToolDelta): Cursor {
    if heard then cur else InCall(tc.index)
  }

  lemma {:induction false} FragmentGood(d: Desk, cur: Cursor, tc: ToolDelta)
    requires Good(d) && At(d, cur)
    ensures var d2 := TakeFragment(d, tc);
            var cur2 := AfterFragment(cur, tc.index in d.tools, tc);
            && Good(d2) && At(d2, cur2) && Moves(d, d2, Bump(tc.args != "" && cur2 != InCall(tc.index))) && Wrote(d, d2, "", "")
            && (forall k :: Held(d2, k) == Join(Held(d, k), Fragment(tc, k)))
            && (|d2.log| > |d.log| <==> tc.index !in d.tools || tc.args != "")
  {
    hide Good, Gather, StopBlocks, OpenCall, Replay, Moves, Words, At, WriteArgs;
    StopBlocksGood(d);
    StopBlocksWrites(d);
    Unmoved(d);
    Blank(Words(d, Text));
    Blank(Words(d, Thinking));
    var d0 := if tc.index in d.tools then d else StopBlocks(d);
    var d1 := if tc.index in d.tools then d else OpenCall(d0, tc);
    if tc.index !in d.tools {
      OpenCallGood(d0, tc);
      OpenCallWrites(d0, tc);
      MovesTransitive(d, d0, d1, 0, 0);
      Blank(Words(d0, Text));
      Blank(Words(d0, Thinking));
      MovesGrow(d, d0);
    }
    var cur2 := AfterFragment(cur, tc.index in d.tools, tc);
    if tc.args != "" {
      WriteArgsGood(d1, cur2, tc);
      WriteArgsWrites(d1, cur2, tc);
      MovesTransitive(d, d1, TakeFragment(d, tc), 0, Bump(cur2 != InCall(tc.index)));
      Blank(Words(d1, Text));
      Blank(Words(d1, Thinking));
    } else {
      NothingToWrite(d1, tc);
    }
    assert "" + tc.args == tc.args;
  }

  lemma {:induction false} NothingToWrite(d: Desk, tc: ToolDelta)
    requires tc.index in d.tools && tc.args == ""
    ensures WriteArgs(d, tc) == d
    ensures forall k :: Held(d, k) == Join(Held(d, k), Fragment(tc, k))
  {
    Blank(d.tools[tc.index].args);
  }
}
