/** The shape of the finished response on the Chat Completions -> Responses leg:
    which items there are, in which order, under which ids and with which status,
    read off the chunks as a line of segments. */
module ChatToResponsesShape {
  import opened Common
  import opened ToolNames
  import opened ChatChunks
  import opened ResponsesProtocol
  import opened ChatToResponses
  import opened ChatToResponsesSafety
  import opened ChatToResponsesRuns
  import opened ChatToResponsesCalls

  // ---- the line of segments ----

  datatype Segment = Thought(text: string) | Said(text: string) | CallOf(index: int)

  /** The segments so far; `growing` says that more of the last one may follow. */
  datatype Line = Line(segments: seq<Segment>, growing: bool)

  const NOTHING := Line([], false)

  predicate Last(l: Line, thought: bool) {
    l.growing && l.segments != [] && (if thought then l.segments[|l.segments| - 1].Thought? else l.segments[|l.segments| - 1].Said?)
  }

  function Grown(l: Line, s: Segment): Line
    requires l.segments != []
  {
    Line(l.segments[..|l.segments| - 1] + [s], true)
  }

  /** Thinking goes on in a growing thought and else begins a new one. */
  function AddThought(l: Line, text: string): Line {
    if Last(l, true) then Grown(l, Thought(l.segments[|l.segments| - 1].text + text)) else Line(l.segments + [Thought(text)], true)
  }

  function AddSaid(l: Line, text: string): Line {
    if Last(l, false) then Grown(l, Said(l.segments[|l.segments| - 1].text + text)) else Line(l.segments + [Said(text)], true)
  }

  /** A call fragment ends what was growing; a new call is a segment. */
  function AddCall(l: Line, index: int): Line {
    Line(if CallOf(index) in l.segments then l.segments else l.segments + [CallOf(index)], false)
  }

  function AddCalls(l: Line, deltas: seq<ToolDelta>): Line
    decreases |deltas|
  {
    if deltas == [] then l else AddCalls(AddCall(l, deltas[0].index), deltas[1..])
  }

  /** In a choice thinking comes first, then text, then calls; the finish ends a
      thought, not a text. */
  function AddChoice(l: Line, choice: Choice): Line {
    var l1 := if choice.reasoning.Some? then AddThought(l, choice.reasoning.value) else l;
    var l2 := if choice.content != "" then AddSaid(l1, choice.content) else l1;
    var l3 := AddCalls(l2, choice.toolCalls);
    if choice.finish != "" && Last(l3, true) then l3.(growing := false) else l3
  }

  function LineOf(chunks: seq<Chunk>): Line {
    if chunks == [] then NOTHING
    else
      var before, chunk := LineOf(chunks[..|chunks| - 1]), chunks[|chunks| - 1];
      if chunk.choices == [] then before else AddChoice(before, chunk.choices[0])
  }

  /** How many of the first `n` segments are thoughts. */
  function Thoughts(segments: seq<Segment>, n: nat): nat
    requires n <= |segments|
  {
    if n == 0 then 0 else Thoughts(segments, n - 1) + (if segments[n - 1].Thought? then 1 else 0)
  }

  /** The finished output, segment by segment: thoughts are numbered, messages named
      by their place, and only a message still growing has the final status. */
  ghost predicate Shows(output: seq<Item>, l: Line, place: map<int, nat>, id: string, status: string) {
    |output| == |l.segments| && forall i :: 0 <= i < |output| ==> ShowsAt(output, l, i, place, id, status)
  }

  ghost predicate ShowsAt(output: seq<Item>, l: Line, i: int, place: map<int, nat>, id: string, status: string)
    requires 0 <= i < |output| == |l.segments|
  {
    match l.segments[i]
    case Thought(text) => output[i] == Reasoning(ReasoningId(id, Thoughts(l.segments, i)), text)
    case Said(text) => output[i] == Message(MessageId(id, i), if l.growing && i == |output| - 1 then status else "completed", text)
    case CallOf(k) => k in place && place[k] == i
  }

  // ---- the part of the converter that matters here ----

  datatype Core = Core(id: string, next: nat, msgIndex: int, msgItemID: ItemId, textClosed: bool, said: string,
                       thinkIndex: int, thinkItemID: ItemId, thinkSeen: bool, thinkStopped: bool, thought: string, ordinal: nat,
                       places: map<int, nat>, items: map<nat, Item>)

  function CoreOf(sc: Conv): Core {
    Core(sc.id, sc.nextIndex, sc.msgIndex, sc.msgItemID, sc.textClosed, sc.respText, sc.thinkIndexIn, sc.thinkItemID, sc.thinkSeen,
         sc.thinkStopped, sc.thinkBuf, sc.reasonOrdinal, map k | k in sc.tools :: sc.tools[k].blockIndex, sc.responseItems)
  }

  predicate Thinks(c: Core) { c.thinkSeen && !c.thinkStopped }

  predicate Speaks(c: Core) { c.msgIndex >= 0 && !c.textClosed }

  function Unthought(c: Core): Core {
    if !Thinks(c) then c
    else c.(thinkStopped := true, items := c.items[AsIndex(c.thinkIndex) := Reasoning(c.thinkItemID, c.thought)])
  }

  function Unsaid(c: Core, status: string): Core {
    if !Speaks(c) then c else c.(textClosed := true, items := c.items[AsIndex(c.msgIndex) := Message(c.msgItemID, status, c.said)])
  }

  function Thinking(c: Core, text: string): Core {
    if Thinks(c) then c.(thought := c.thought + text)
    else
      var ordinal := if c.thinkStopped then c.ordinal + 1 else c.ordinal;
      c.(thinkSeen := true, thinkStopped := false, thought := text, thinkIndex := c.next, next := c.next + 1, ordinal := ordinal,
         thinkItemID := ReasoningId(c.id, ordinal))
  }

  function Saying(c: Core, text: string): Core {
    if Speaks(c) then c.(said := c.said + text)
    else c.(msgIndex := c.next, msgItemID := MessageId(c.id, c.next), next := c.next + 1, textClosed := false, said := text)
  }

  function Meeting(c: Core, index: int): Core {
    if index in c.places then c else c.(places := c.places[index := c.next], next := c.next + 1)
  }

  lemma {:induction false} EmitCore(sc: Conv, b: Body)
    ensures CoreOf(Emit(sc, b)) == CoreOf(sc)
  {
  }

  lemma {:induction false} StopCore(sc: Conv)
    ensures CoreOf(StopReasoning(sc)) == Unthought(CoreOf(sc))
  {
    hide Emit;
    if ThinkOpen(sc) {
      var i := AsIndex(sc.thinkIndexIn);
      var item := Reasoning(sc.thinkItemID, sc.thinkBuf);
      var s1 := sc.(thinkStopped := true, responseItems := sc.responseItems[i := item]);
      EmitCore(s1, TextDone(sc.thinkItemID, i, sc.thinkBuf));
      var s2 := Emit(s1, TextDone(sc.thinkItemID, i, sc.thinkBuf));
      EmitCore(s2, PartDone(sc.thinkItemID, i, sc.thinkBuf));
      EmitCore(Emit(s2, PartDone(sc.thinkItemID, i, sc.thinkBuf)), ItemDone(i, item));
    }
  }

  lemma {:induction false} CloseCore(sc: Conv, status: string)
    ensures CoreOf(CloseText(sc, status)) == Unsaid(CoreOf(sc), status)
  {
    hide Emit;
    if TextOpen(sc) {
      var i := AsIndex(sc.msgIndex);
      var item := Message(sc.msgItemID, status, sc.respText);
      var s1 := sc.(textClosed := true, responseItems := sc.responseItems[i := item]);
      EmitCore(s1, TextDone(sc.msgItemID, i, sc.respText));
      var s2 := Emit(s1, TextDone(sc.msgItemID, i, sc.respText));
      EmitCore(s2, PartDone(sc.msgItemID, i, sc.respText));
      EmitCore(Emit(s2, PartDone(sc.msgItemID, i, sc.respText)), ItemDone(i, item));
    }
  }

  lemma {:induction false} OpenReasoningCore(sc: Conv)
    requires !sc.thinkSeen ==> sc.thinkBuf == "" && !sc.thinkStopped
    ensures CoreOf(OpenReasoning(sc)) == if ThinkOpen(sc) then CoreOf(sc) else Thinking(CoreOf(sc), "")
  {
    hide Emit;
    var s1 := ResetReasoning(sc);
    if !s1.thinkSeen {
      var s2 := BeginReasoning(s1);
      EmitCore(s2, ItemAdded(s1.nextIndex, ReasoningShell(s2.thinkItemID)));
      EmitCore(Emit(s2, ItemAdded(s1.nextIndex, ReasoningShell(s2.thinkItemID))), PartAdded(s2.thinkItemID, s1.nextIndex));
    }
  }

  lemma {:induction false} ThinkCore(sc: Conv, text: string)
    requires !sc.thinkSeen ==> sc.thinkBuf == "" && !sc.thinkStopped
    ensures CoreOf(TakeReasoning(sc, text)) == Thinking(Unsaid(CoreOf(sc), "completed"), text)
  {
    hide Emit, OpenReasoning, CloseText;
    CloseCore(sc, "completed");
    var s0 := CloseText(sc, "completed");
    ClosedThinking(sc, "completed");
    OpenReasoningCore(s0);
    var s1 := OpenReasoning(s0);
    EmitCore(s1.(thinkBuf := s1.thinkBuf + text), TextDelta(s1.thinkItemID, AsIndex(s1.thinkIndexIn), text));
    assert "" + text == text;
  }

  lemma {:induction false} ClosedThinking(sc: Conv, status: string)
    ensures var s := CloseText(sc, status);
            s.thinkSeen == sc.thinkSeen && s.thinkStopped == sc.thinkStopped && s.thinkBuf == sc.thinkBuf
  {
    hide CloseText;
    CloseCore(sc, status);
    assert CoreOf(CloseText(sc, status)).thinkSeen == sc.thinkSeen;
  }

  lemma {:induction false} OpenTextCore(sc: Conv)
    ensures CoreOf(OpenText(sc)) == if TextOpen(sc) then CoreOf(sc) else Saying(CoreOf(sc), "")
  {
  }

  lemma {:induction false} SayCore(sc: Conv, text: string)
    ensures CoreOf(TakeContent(sc, text)) == Saying(Unthought(CoreOf(sc)), text)
  {
    hide Emit, StopReasoning, OpenText;
    StopCore(sc);
    var s0 := StopReasoning(sc);
    OpenTextCore(s0);
    var s1 := OpenText(s0);
    EmitCore(s1.(respText := s1.respText + text), TextDelta(s1.msgItemID, AsIndex(s1.msgIndex), text));
    assert "" + text == text;
  }

  lemma {:induction false} ToolCore(env: Env, sc: Conv, tc: ToolDelta)
    requires TakeTool(env, sc, tc).Ok?
    ensures CoreOf(TakeTool(env, sc, tc).value) == Meeting(Unsaid(Unthought(CoreOf(sc)), "completed"), tc.index)
  {
    hide StopReasoning, CloseText, Resolve, Absorb, Sent, Emit, FlushArgs, ToolShell, SameButLog, OpenTool;
    StopCore(sc);
    CloseCore(StopReasoning(sc), "completed");
    var s1 := CloseText(StopReasoning(sc), "completed");
    OpenToolCore(s1, tc);
    OpenToolKeepsTools(s1, tc);
    var s2 := OpenTool(s1, tc);
    var after := Sent(Resolve(env.tools, Absorb(s2.tools[tc.index], tc)));
    AdvancedFrame(s2, tc.index, after);
    assert TakeTool(env, sc, tc).value == Advanced(s2, tc.index, after);
    AbsorbedPlace(env.tools, s2.tools[tc.index], tc);
    hide TakeTool, Advanced;
    SameCore(Advanced(s2, tc.index, after), s2, tc.index, after);
  }

  lemma {:induction false} OpenToolCore(sc: Conv, tc: ToolDelta)
    ensures CoreOf(OpenTool(sc, tc)) == Meeting(CoreOf(sc), tc.index)
  {
    assert tc.index in sc.tools <==> tc.index in CoreOf(sc).places;
    if tc.index !in sc.tools {
      assert CoreOf(OpenTool(sc, tc)).places == CoreOf(sc).places[tc.index := sc.nextIndex];
    }
  }

  lemma {:induction false} SameCore(s: Conv, sc: Conv, index: int, after: Tool)
    requires SameButLog(s, sc.(tools := sc.tools[index := after])) && index in sc.tools && after.blockIndex == sc.tools[index].blockIndex
    ensures CoreOf(s) == CoreOf(sc)
  {
    assert CoreOf(s).places == CoreOf(sc).places;
  }

  // ---- the converter follows the line ----

  /** Segment `i` of the line is in the converter: stored, open, or a call's place. */
  ghost predicate Kept(c: Core, l: Line, i: nat)
    requires i < |l.segments|
  {
    match l.segments[i]
    case Thought(text) =>
      if Thinks(c) && i == c.thinkIndex then c.thought == text && c.thinkItemID == ReasoningId(c.id, Thoughts(l.segments, i))
      else i in c.items && c.items[i] == Reasoning(ReasoningId(c.id, Thoughts(l.segments, i)), text)
    case Said(text) =>
      if Speaks(c) && i == c.msgIndex then c.said == text && c.msgItemID == MessageId(c.id, i)
      else i in c.items && c.items[i] == Message(MessageId(c.id, i), "completed", text)
    case CallOf(k) => k in c.places && c.places[k] == i
  }

  ghost predicate Shaped(c: Core, l: Line) {
    var n := |l.segments|;
    && c.next == n && (forall i: nat :: i < n ==> Kept(c, l, i))
    && (forall k :: k in c.places ==> c.places[k] < n && l.segments[c.places[k]] == CallOf(k))
    && (l.growing ==> n > 0 && !l.segments[n - 1].CallOf?)
    && (Thinks(c) <==> Last(l, true)) && (Thinks(c) ==> c.thinkIndex == n - 1)
    && (Speaks(c) <==> Last(l, false)) && (Speaks(c) ==> c.msgIndex == n - 1)
    && (if c.thinkSeen then c.ordinal + 1 == Thoughts(l.segments, n) else c.ordinal == Thoughts(l.segments, n) == 0 && !c.thinkStopped && c.thought == "")
  }

  /** Earlier segments count the same thoughts. */
  lemma {:induction false} ThoughtsPrefix(a: seq<Segment>, b: seq<Segment>, n: nat)
    requires n <= |a| && n <= |b| && forall i :: 0 <= i < n ==> a[i].Thought? == b[i].Thought?
    ensures Thoughts(a, n) == Thoughts(b, n)
  {
    if n == 0 {
    } else {
      ThoughtsPrefix(a, b, n - 1);
    }
  }

  lemma {:induction false} ThoughtsSame(l: Line, g: Line)
    requires |l.segments| <= |g.segments| && forall i :: 0 <= i < |l.segments| ==> g.segments[i].Thought? == l.segments[i].Thought?
    ensures forall i: nat :: i <= |l.segments| ==> Thoughts(g.segments, i) == Thoughts(l.segments, i)
  {
    forall i: nat | i <= |l.segments|
      ensures Thoughts(g.segments, i) == Thoughts(l.segments, i)
    {
      ThoughtsPrefix(g.segments, l.segments, i);
    }
  }

  lemma {:induction false} UnthoughtShaped(c: Core, l: Line)
    requires Shaped(c, l)
    ensures Shaped(Unthought(c), if Last(l, true) then l.(growing := false) else l) && !Thinks(Unthought(c))
  {
    hide Thoughts;
    var d, g := Unthought(c), if Last(l, true) then l.(growing := false) else l;
    forall i: nat | i < |l.segments|
      ensures Kept(d, g, i)
    {
      assert Kept(c, l, i);
    }
  }

  lemma {:induction false} UnsaidShaped(c: Core, l: Line)
    requires Shaped(c, l)
    ensures Shaped(Unsaid(c, "completed"), if Last(l, false) then l.(growing := false) else l) && !Speaks(Unsaid(c, "completed"))
  {
    hide Thoughts;
    var d, g := Unsaid(c, "completed"), if Last(l, false) then l.(growing := false) else l;
    forall i: nat | i < |l.segments|
      ensures Kept(d, g, i)
    {
      assert Kept(c, l, i);
    }
  }

  lemma {:induction false} ThinkingShaped(c: Core, l: Line, text: string)
    requires Shaped(c, l) && !Speaks(c)
    ensures Shaped(Thinking(c, text), AddThought(l, text))
  {
    var d, g := Thinking(c, text), AddThought(l, text);
    var n := |l.segments|;
    assert Thoughts(g.segments, |g.segments|) == Thoughts(l.segments, n) + (if Thinks(c) then 0 else 1) by {
      if Thinks(c) {
        ThoughtsPrefix(g.segments, l.segments, n);
      } else {
        ThoughtsPrefix(g.segments, l.segments, n);
      }
    }
    ThoughtsSame(l, g);
    hide Thoughts;
    forall i: nat | i < |g.segments|
      ensures Kept(d, g, i)
    {
      assert i < n ==> Kept(c, l, i);
    }
  }

  lemma {:induction false} SayingShaped(c: Core, l: Line, text: string)
    requires Shaped(c, l) && !Thinks(c)
    ensures Shaped(Saying(c, text), AddSaid(l, text))
  {
    var d, g := Saying(c, text), AddSaid(l, text);
    var n := |l.segments|;
    ThoughtsPrefix(g.segments, l.segments, n);
    ThoughtsSame(l, g);
    assert Thoughts(g.segments, |g.segments|) == Thoughts(l.segments, n);
    hide Thoughts;
    forall i: nat | i < |g.segments|
      ensures Kept(d, g, i)
    {
      assert i < n ==> Kept(c, l, i);
    }
  }

  lemma {:induction false} MeetingShaped(c: Core, l: Line, index: int)
    requires Shaped(c, l) && !Thinks(c) && !Speaks(c)
    ensures Shaped(Meeting(c, index), AddCall(l, index))
  {
    var d, g := Meeting(c, index), AddCall(l, index);
    var n := |l.segments|;
    assert index in c.places <==> CallOf(index) in l.segments by {
      if CallOf(index) in l.segments {
        var i: nat :| i < n && l.segments[i] == CallOf(index);
        assert Kept(c, l, i);
      }
    }
    ThoughtsPrefix(g.segments, l.segments, n);
    ThoughtsSame(l, g);
    assert Thoughts(g.segments, |g.segments|) == Thoughts(l.segments, n);
    hide Thoughts;
    forall i: nat | i < |g.segments|
      ensures Kept(d, g, i)
    {
      assert i < n ==> Kept(c, l, i);
    }
  }

  // ---- one choice, one chunk ----

  lemma {:induction false} TakeReasoningShaped(sc: Conv, l: Line, text: string)
    requires Shaped(CoreOf(sc), l)
    ensures Shaped(CoreOf(TakeReasoning(sc, text)), AddThought(l, text))
  {
    hide TakeReasoning, Kept, Thoughts, Unsaid, Thinking;
    ThinkCore(sc, text);
    UnsaidShaped(CoreOf(sc), l);
    var g := if Last(l, false) then l.(growing := false) else l;
    assert AddThought(g, text) == AddThought(l, text);
    ThinkingShaped(Unsaid(CoreOf(sc), "completed"), g, text);
  }

  lemma {:induction false} TakeContentShaped(sc: Conv, l: Line, text: string)
    requires Shaped(CoreOf(sc), l)
    ensures Shaped(CoreOf(TakeContent(sc, text)), AddSaid(l, text))
  {
    hide TakeContent, Shaped, Thoughts, Unthought, Saying;
    SayCore(sc, text);
    UnthoughtShaped(CoreOf(sc), l);
    var g := if Last(l, true) then l.(growing := false) else l;
    assert AddSaid(g, text) == AddSaid(l, text);
    SayingShaped(Unthought(CoreOf(sc)), g, text);
  }

  lemma {:induction false} TakeToolShaped(env: Env, sc: Conv, tc: ToolDelta, l: Line)
    requires TakeTool(env, sc, tc).Ok? && Shaped(CoreOf(sc), l)
    ensures Shaped(CoreOf(TakeTool(env, sc, tc).value), AddCall(l, tc.index))
  {
    hide TakeTool, Shaped, Thoughts, Unthought, Unsaid, Meeting;
    ToolCore(env, sc, tc);
    var c1 := Unthought(CoreOf(sc));
    UnthoughtShaped(CoreOf(sc), l);
    var g := if Last(l, true) then l.(growing := false) else l;
    UnsaidShaped(c1, g);
    StillUnthought(c1);
    var h := if Last(g, false) then g.(growing := false) else g;
    MeetingShaped(Unsaid(c1, "completed"), h, tc.index);
    assert AddCall(h, tc.index) == AddCall(l, tc.index);
  }

  lemma {:induction false} StillUnthought(c: Core)
    ensures Thinks(Unsaid(c, "completed")) == Thinks(c)
  {
  }

  lemma {:induction false} TakeToolsShaped(env: Env, sc: Conv, deltas: seq<ToolDelta>, l: Line)
    requires TakeTools(env, sc, deltas).Ok? && Shaped(CoreOf(sc), l)
    ensures Shaped(CoreOf(TakeTools(env, sc, deltas).value), AddCalls(l, deltas))
    decreases |deltas|
  {
    hide TakeTool, Shaped, AddCall;
    if deltas == [] {
    } else {
      TakeToolShaped(env, sc, deltas[0], l);
      TakeToolsShaped(env, TakeTool(env, sc, deltas[0]).value, deltas[1..], AddCall(l, deltas[0].index));
    }
  }

  lemma {:induction false} FinishToolsCore(env: Env, sc: Conv, order: seq<int>)
    requires FinishTools(env, sc, order).Ok?
    ensures CoreOf(FinishTools(env, sc, order).value) == CoreOf(sc)
    decreases |order|
  {
    hide FinishTool, SameButLog;
    if order == [] {
    } else {
      var s1 := FinishTool(env, sc, order[0]).value;
      if order[0] in sc.tools {
        FinishToolFrame(env, sc, order[0]);
        SameCore(s1, sc, order[0], Sent(sc.tools[order[0]].(announced := true)));
      } else {
        UnknownFinishes(env, sc, order[0]);
      }
      FinishToolsCore(env, s1, order[1..]);
    }
  }

  lemma {:induction false} UnknownFinishes(env: Env, sc: Conv, index: int)
    requires index !in sc.tools
    ensures FinishTool(env, sc, index) == Ok(sc)
  {
  }

  lemma {:induction false} ChoiceShaped(env: Env, sc: Conv, choice: Choice, l: Line)
    requires TakeChoice(env, sc, choice).Ok? && Shaped(CoreOf(sc), l) && !sc.finished
    ensures Shaped(CoreOf(TakeChoice(env, sc, choice).value), AddChoice(l, choice))
  {
    hide TakeReasoning, TakeContent, TakeTools, FinishTools, StopReasoning, Shaped, AddThought, AddSaid, AddCalls, Unthought;
    var s1 := if choice.reasoning.Some? then TakeReasoning(sc, choice.reasoning.value) else sc;
    var l1 := if choice.reasoning.Some? then AddThought(l, choice.reasoning.value) else l;
    if choice.reasoning.Some? {
      TakeReasoningShaped(sc, l, choice.reasoning.value);
    }
    var s2 := if choice.content != "" then TakeContent(s1, choice.content) else s1;
    var l2 := if choice.content != "" then AddSaid(l1, choice.content) else l1;
    if choice.content != "" {
      TakeContentShaped(s1, l1, choice.content);
    }
    TakeToolsShaped(env, s2, choice.toolCalls, l2);
    TakeToolsTalk(env, s2, choice.toolCalls);
    var s3 := TakeTools(env, s2, choice.toolCalls).value;
    SpeaksOn(sc, choice);
    if choice.finish != "" {
      FinishToolsCore(env, s3, s3.toolOrder);
      var s4 := FinishTools(env, s3, s3.toolOrder).value;
      var s5 := s4.(finished := true, heldFinish := choice.finish);
      assert CoreOf(s5) == CoreOf(s4);
      StopCore(s5);
      UnthoughtShaped(CoreOf(s5), AddCalls(l2, choice.toolCalls));
    }
  }

  /** Thinking and text do not finish the stream. */
  lemma {:induction false} SpeaksOn(sc: Conv, choice: Choice)
    ensures Speak(sc, choice).finished == sc.finished
  {
    hide TakeReasoning, TakeContent;
    if choice.reasoning.Some? {
      TakeReasoningTalks(sc, choice.reasoning.value);
    }
    TakeContentTalks(if choice.reasoning.Some? then TakeReasoning(sc, choice.reasoning.value) else sc, choice.content);
  }

  lemma {:induction false} ChunkShaped(env: Env, sc: Conv, chunk: Chunk, l: Line)
    requires Shaped(CoreOf(sc), l) && sc.heldFinish == "" && !sc.finished && (!sc.started ==> l == NOTHING)
    requires TakeChunk(env, sc, chunk).Ok?
    ensures Shaped(CoreOf(TakeChunk(env, sc, chunk).value), if chunk.choices == [] then l else AddChoice(l, chunk.choices[0]))
  {
    hide TakeChoice, AddChoice, Thoughts;
    var s0 := WithUsage(sc, chunk);
    assert CoreOf(s0) == CoreOf(sc);
    StartCore(s0, chunk);
    StartedOn(s0, chunk);
    var s1 := Start(s0, chunk);
    hide Start;
    assert Shaped(CoreOf(s1), l);
    hide Shaped;
    if chunk.choices != [] {
      ChoiceShaped(env, s1, chunk.choices[0], l);
    }
  }

  lemma {:induction false} StartedOn(sc: Conv, chunk: Chunk)
    ensures Start(sc, chunk).finished == sc.finished
  {
  }

  lemma {:induction false} StartCore(sc: Conv, chunk: Chunk)
    ensures CoreOf(Start(sc, chunk)) == if sc.started || chunk.choices == [] then CoreOf(sc) else CoreOf(sc).(id := chunk.id)
  {
  }

  // ---- whole runs ----

  /** The converter of an open run has the shape of the run's chunks. */
  ghost predicate HasShape(sc: Conv, chunks: seq<Chunk>) {
    Shaped(CoreOf(sc), LineOf(chunks)) && (!sc.started ==> LineOf(chunks) == NOTHING) && (sc.finished ==> sc.heldFinish != "")
  }

  lemma {:induction false} RunShaped(env: Env, chunks: seq<Chunk>)
    requires Run(env, chunks).Ok? && !Run(env, chunks).value.terminalSent
    ensures HasShape(Run(env, chunks).value, chunks)
  {
    hide TakeChunk, Inv, Shaped;
    if chunks == [] {
      assert Shaped(CoreOf(FRESH), NOTHING) by {
        FreshShaped();
      }
    } else {
      var shorter, chunk := chunks[..|chunks| - 1], chunks[|chunks| - 1];
      RunKeepsInvariant(env, shorter);
      var sc := Run(env, shorter).value;
      StillOpen(env, sc, chunk);
      RunShaped(env, shorter);
      ChunkShaped(env, sc, chunk, LineOf(shorter));
      ChunkCourses(env, sc, chunk);
    }
  }

  lemma {:induction false} FreshShaped()
    ensures Shaped(CoreOf(FRESH), NOTHING)
  {
  }

  lemma {:induction false} ChunkCourses(env: Env, sc: Conv, chunk: Chunk)
    requires sc.heldFinish == "" && !sc.finished && TakeChunk(env, sc, chunk).Ok?
    ensures var s := TakeChunk(env, sc, chunk).value;
            (s.finished ==> s.heldFinish != "") && (chunk.choices != [] ==> s.started) && (s.started <==> sc.started || chunk.choices != [])
  {
    hide TakeChoice, StoresTalk;
    var s1 := Start(WithUsage(sc, chunk), chunk);
    StartTools(WithUsage(sc, chunk), chunk);
    StartedOn(WithUsage(sc, chunk), chunk);
    if chunk.choices != [] {
      TakeChoiceTalks(env, s1, chunk.choices[0]);
      TakeChoiceKeepsFlags(env, s1, chunk.choices[0]);
    }
  }

  // ---- the terminal ----

  /** Segment `i` is stored as it is shown, or a call's place. */
  ghost predicate SettledAt(c: Core, l: Line, i: nat, status: string)
    requires i < |l.segments|
  {
    match l.segments[i]
    case Thought(text) => i in c.items && c.items[i] == Reasoning(ReasoningId(c.id, Thoughts(l.segments, i)), text)
    case Said(text) =>
      i in c.items && c.items[i] == Message(MessageId(c.id, i), if l.growing && i == |l.segments| - 1 then status else "completed", text)
    case CallOf(k) => k in c.places && c.places[k] == i
  }

  ghost predicate Settled(c: Core, l: Line, status: string) {
    var n := |l.segments|;
    && c.next == n && (forall k :: k in c.places ==> c.places[k] < n && l.segments[c.places[k]] == CallOf(k))
    && forall i: nat :: i < n ==> SettledAt(c, l, i, status)
  }

  lemma {:induction false} ClosedSettles(c: Core, l: Line, status: string)
    requires Shaped(c, l)
    ensures Settled(Unsaid(Unthought(c), status), l, status)
  {
    hide Thoughts;
    var d := Unsaid(Unthought(c), status);
    forall i: nat | i < |l.segments|
      ensures SettledAt(d, l, i, status)
    {
      assert Kept(c, l, i);
    }
  }

  lemma {:induction false} CloseToolSettled(env: Env, sc: Conv, index: int, l: Line, status: string)
    requires CloseTool(env, sc, index).Ok? && Settled(CoreOf(sc), l, status)
    ensures Settled(CoreOf(CloseTool(env, sc, index).value), l, status)
  {
    hide CloseTool, SameButLog, FinishedCall, Thoughts;
    var s := CloseTool(env, sc, index).value;
    if s != sc {
      ClosedFrame(env, sc, index);
      ClosingCore(sc, s, index, FinishedCall(env, sc.tools[index]).value);
      SettledElsewhere(CoreOf(sc), l, status, index, FinishedCall(env, sc.tools[index]).value);
    }
  }

  /** Storing a call moves no other segment. */
  lemma {:induction false} SettledElsewhere(c: Core, l: Line, status: string, index: int, item: Item)
    requires Settled(c, l, status) && index in c.places
    ensures Settled(c.(items := c.items[c.places[index] := item]), l, status)
  {
    hide Thoughts;
    var d := c.(items := c.items[c.places[index] := item]);
    forall i: nat | i < |l.segments|
      ensures SettledAt(d, l, i, status)
    {
      assert SettledAt(c, l, i, status);
    }
  }

  lemma {:induction false} ClosingCore(sc: Conv, s: Conv, index: int, item: Item)
    requires index in sc.tools && SameButLog(s, Closing(sc, index, item))
    ensures CoreOf(s) == CoreOf(sc).(items := sc.responseItems[sc.tools[index].blockIndex := item])
    ensures index in CoreOf(sc).places && CoreOf(sc).places[index] == sc.tools[index].blockIndex
  {
    assert CoreOf(s).places == CoreOf(sc).places;
  }

  lemma {:induction false} CloseToolsSettled(env: Env, sc: Conv, order: seq<int>, l: Line, status: string)
    requires CloseTools(env, sc, order).Ok? && Settled(CoreOf(sc), l, status)
    ensures Settled(CoreOf(CloseTools(env, sc, order).value), l, status) && CloseTools(env, sc, order).value.id == sc.id
    decreases |order|
  {
    hide CloseTool, Settled;
    if order == [] {
    } else {
      CloseToolSettled(env, sc, order[0], l, status);
      CloseToolKeepsId(env, sc, order[0]);
      CloseToolsSettled(env, CloseTool(env, sc, order[0]).value, order[1..], l, status);
    }
  }

  lemma {:induction false} CloseToolKeepsId(env: Env, sc: Conv, index: int)
    requires CloseTool(env, sc, index).Ok?
    ensures CloseTool(env, sc, index).value.id == sc.id
  {
    hide CloseTool, FinishedCall;
    if CloseTool(env, sc, index).value != sc {
      ClosedFrame(env, sc, index);
    }
  }

  /** The output the terminal lists shows the line. */
  lemma {:induction false} TerminalShows(env: Env, sc: Conv, l: Line)
    requires Shaped(CoreOf(sc), l) && BeforeCompleted(env, sc).Ok?
    requires forall i: nat :: i < BeforeCompleted(env, sc).value.nextIndex ==> i in BeforeCompleted(env, sc).value.responseItems
    ensures var s2 := BeforeCompleted(env, sc).value;
            Shows(Output(s2.responseItems, s2.nextIndex), l, CoreOf(s2).places, sc.id, StatusAtEnd(sc))
  {
    hide StopReasoning, CloseText, CloseTools, StatusAtEnd, Shaped, Settled, Thoughts, Output;
    var s0 := sc.(heldFinish := "");
    assert CoreOf(s0) == CoreOf(sc);
    StopCore(s0);
    CloseCore(StopReasoning(s0), StatusAtEnd(sc));
    ClosedSettles(CoreOf(sc), l, StatusAtEnd(sc));
    var s1 := Quieted(sc);
    CloseToolsSettled(env, s1, s1.toolOrder, l, StatusAtEnd(sc));
    var s2 := BeforeCompleted(env, sc).value;
    QuietId(CoreOf(sc), StatusAtEnd(sc));
    OutputComplete(s2.responseItems, s2.nextIndex);
    SettledShows(CoreOf(s2), l, StatusAtEnd(sc), Output(s2.responseItems, s2.nextIndex));
  }

  lemma {:induction false} QuietId(c: Core, status: string)
    ensures Unsaid(Unthought(c), status).id == c.id
  {
  }

  lemma {:induction false} SettledShows(c: Core, l: Line, status: string, output: seq<Item>)
    requires Settled(c, l, status) && |output| == c.next && forall i: nat :: i < c.next ==> i in c.items && output[i] == c.items[i]
    ensures Shows(output, l, c.places, c.id, status)
  {
    hide Thoughts;
    forall i | 0 <= i < |output|
      ensures ShowsAt(output, l, i, c.places, c.id, status)
    {
      assert SettledAt(c, l, i, status);
    }
  }
}
