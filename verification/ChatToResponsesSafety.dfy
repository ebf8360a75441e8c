/** Safety of the Chat Completions -> Responses leg: the strict Responses client
    accepts every event up to and including response.completed, for every
    stream of chunks, and what it rebuilds is what the converter holds. */
module ChatToResponsesSafety {
  import opened Common
  import opened ToolNames
  import opened ChatChunks
  import opened ResponsesProtocol
  import opened ChatToResponses

  // ---- the invariant ----

  ghost function Items(sc: Conv): map<nat, View> {
    var c := Replay(sc.log);
    if c.Client? then c.items else map[]
  }

  /** The client is mid-response and agrees on the sequence number. */
  ghost predicate Live(sc: Conv) {
    var c := Replay(sc.log);
    c.Client? && c.completed.None? && c.trailing == 0 && c.stage.Running? && c.seen == sc.respSequence
  }

  /** The client has seen response.completed. */
  ghost predicate Sealed(sc: Conv) {
    var c := Replay(sc.log);
    c.Client? && c.completed.Some? && c.seen == sc.respSequence
  }

  ghost predicate OpenAt(sc: Conv, i: int) {
    (TextOpen(sc) && i == sc.msgIndex) || (ThinkOpen(sc) && i == sc.thinkIndexIn)
  }

  ghost predicate ToolOk(sc: Conv, t: Tool) {
    && t.blockIndex < sc.nextIndex && !OpenAt(sc, t.blockIndex)
    && (t.responseDone <==> t.blockIndex in sc.responseItems)
    && (!t.announced ==> !t.custom && t.identity == NO_IDENTITY && !t.responseDone)
    && t.argsSent == (if t.announced && !t.custom then |t.args| else 0)
  }

  ghost predicate ToolAt(sc: Conv, i: int) {
    exists k :: k in sc.tools && sc.tools[k].blockIndex == i
  }

  ghost predicate AnnouncedAt(sc: Conv, i: int) {
    exists k :: k in sc.tools && sc.tools[k].blockIndex == i && sc.tools[k].announced
  }

  ghost predicate ToolsOk(sc: Conv) {
    && (forall k :: k in sc.toolOrder <==> k in sc.tools)
    && (forall k :: k in sc.tools ==> ToolOk(sc, sc.tools[k]))
    && (forall j, k :: j in sc.tools && k in sc.tools && j != k ==> sc.tools[j].blockIndex != sc.tools[k].blockIndex)
  }

  /** At most one of text and reasoning is open, and it is the newest index. */
  ghost predicate OpenOk(sc: Conv) {
    && (TextOpen(sc) ==> sc.msgIndex == sc.nextIndex - 1 && sc.textPartOpen && sc.msgItemID.MessageId?)
    && (ThinkOpen(sc) ==> 0 <= sc.thinkIndexIn == sc.nextIndex - 1 && sc.thinkItemID.ReasoningId?)
    && !(TextOpen(sc) && ThinkOpen(sc))
    && (!sc.thinkSeen ==> sc.thinkBuf == "")
    && (forall i :: i in sc.responseItems ==> i < sc.nextIndex && !OpenAt(sc, i))
  }

  /** Every allocated index is stored, open, or owned by a tool. */
  ghost predicate Covered(sc: Conv) {
    forall i :: 0 <= i < sc.nextIndex ==> i in sc.responseItems || OpenAt(sc, i) || ToolAt(sc, i)
  }

  /** The client's view of a call that has been announced and not yet closed. */
  ghost function ToolView(t: Tool): View {
    View(ToolShell(t), Announced, if t.custom then "" else t.args, None)
  }

  ghost predicate Mirror(sc: Conv, items: map<nat, View>) {
    && (forall i :: i in items ==> i in sc.responseItems || OpenAt(sc, i) || AnnouncedAt(sc, i))
    && (forall i :: i in sc.responseItems ==> i in items && items[i].done == Some(sc.responseItems[i]))
    && (TextOpen(sc) ==> sc.msgIndex in items && items[sc.msgIndex] == View(MessageShell(sc.msgItemID), Open, sc.respText, None))
    && (ThinkOpen(sc) ==>
          sc.thinkIndexIn in items && items[sc.thinkIndexIn] == View(ReasoningShell(sc.thinkItemID), Open, sc.thinkBuf, None))
    && (forall k :: k in sc.tools && sc.tools[k].announced && !sc.tools[k].responseDone ==>
          sc.tools[k].blockIndex in items && items[sc.tools[k].blockIndex] == ToolView(sc.tools[k]))
  }

  ghost predicate Tracks(sc: Conv) {
    sc.started && Live(sc) && ToolsOk(sc) && OpenOk(sc) && Covered(sc) && Mirror(sc, Items(sc))
  }

  ghost predicate Undone(sc: Conv) {
    forall k :: k in sc.tools ==> !sc.tools[k].responseDone
  }

  ghost predicate Untouched(sc: Conv) {
    sc.log == [] && sc.respSequence == 0 && sc.nextIndex == 0 && sc.msgIndex < 0 && !sc.thinkSeen && !sc.thinkStopped && sc.thinkBuf == ""
    && sc.tools == map[] && sc.toolOrder == [] && sc.responseItems == map[] && sc.heldFinish == "" && !sc.textPartOpen
  }

  ghost predicate Inv(sc: Conv) {
    if sc.terminalSent then Sealed(sc) && sc.started
    else if !sc.started then Untouched(sc)
    else Tracks(sc) && Undone(sc)
  }

  // ---- one emission ----

  lemma {:induction false} EmitLive(sc: Conv, b: Body)
    requires Live(sc) && AcceptItem(Items(sc), b).Some?
    ensures Live(Emit(sc, b)) && Items(Emit(sc, b)) == AcceptItem(Items(sc), b).value
  {
    ReplayAppend(sc.log, Event(sc.respSequence + 1, b));
  }

  /** Equal in everything but the emitted events. */
  ghost predicate SameButLog(s: Conv, t: Conv) {
    s == t.(log := s.log, respSequence := s.respSequence)
  }

  lemma {:induction false} EmitFrame(sc: Conv, b: Body)
    ensures SameButLog(Emit(sc, b), sc) && SameButLog(sc, sc)
  {
  }

  lemma {:induction false} SameButLogTransitive(r: Conv, s: Conv, t: Conv)
    requires SameButLog(r, s) && SameButLog(s, t)
    ensures SameButLog(r, t)
  {
  }

  lemma {:induction false} EmitTwiceFrame(sc: Conv, a: Body, b: Body)
    ensures SameButLog(Emit(Emit(sc, a), b), sc)
  {
    hide Emit, SameButLog;
    EmitFrame(sc, a);
    EmitFrame(Emit(sc, a), b);
    SameButLogTransitive(Emit(Emit(sc, a), b), Emit(sc, a), sc);
  }

  lemma {:induction false} EmitThriceFrame(sc: Conv, a: Body, b: Body, c: Body)
    ensures SameButLog(Emit(Emit(Emit(sc, a), b), c), sc)
  {
    hide Emit, SameButLog;
    EmitTwiceFrame(sc, a, b);
    EmitFrame(Emit(Emit(sc, a), b), c);
    SameButLogTransitive(Emit(Emit(Emit(sc, a), b), c), Emit(Emit(sc, a), b), sc);
  }

  lemma {:induction false} SameLog(sc: Conv, s: Conv)
    requires s.log == sc.log && s.respSequence == sc.respSequence
    ensures Live(s) == Live(sc) && Sealed(s) == Sealed(sc) && Items(s) == Items(sc)
  {
  }

  // ---- text and reasoning ----

  /** The client holds the open item exactly as the converter does. */
  lemma {:induction false} OpenView(sc: Conv)
    requires Tracks(sc)
    ensures sc.started && Live(sc) && sc.nextIndex !in Items(sc)
    ensures TextOpen(sc) ==> !ThinkOpen(sc) && sc.msgIndex in Items(sc) && sc.msgItemID.MessageId? && sc.textPartOpen
                             && Items(sc)[sc.msgIndex] == View(MessageShell(sc.msgItemID), Open, sc.respText, None)
    ensures ThinkOpen(sc) ==> sc.thinkIndexIn in Items(sc) && sc.thinkItemID.ReasoningId?
                              && Items(sc)[sc.thinkIndexIn] == View(ReasoningShell(sc.thinkItemID), Open, sc.thinkBuf, None)
    ensures !sc.thinkSeen ==> sc.thinkBuf == ""
  {
    hide Live, Items, ToolView;
  }

  /** Closing an open text or reasoning item at `i`: three events. */
  lemma {:induction false} CloseEvents(sc: Conv, i: nat, id: ItemId, text: string, item: Item)
    requires Live(sc) && i in Items(sc) && Items(sc)[i] == View(Owner(id), Open, text, None)
    requires if id.MessageId? then item.Message? && item.id == id && item.text == text else item == Reasoning(id, text)
    ensures var s3 := Emit(Emit(Emit(sc, TextDone(id, i, text)), PartDone(id, i, text)), ItemDone(i, item));
            Live(s3) && Items(s3) == Items(sc)[i := View(Owner(id), Closed, text, Some(item))]
  {
    hide Live, Items;
    EmitLive(sc, TextDone(id, i, text));
    var s1 := Emit(sc, TextDone(id, i, text));
    EmitLive(s1, PartDone(id, i, text));
    EmitLive(Emit(s1, PartDone(id, i, text)), ItemDone(i, item));
  }

  lemma {:induction false} StopReasoningTracks(sc: Conv)
    requires Tracks(sc)
    ensures Tracks(StopReasoning(sc)) && !ThinkOpen(StopReasoning(sc)) && TextOpen(StopReasoning(sc)) == TextOpen(sc)
    ensures StopReasoning(sc).tools == sc.tools && StopReasoning(sc).nextIndex == sc.nextIndex
  {
    if ThinkOpen(sc) {
      var i := AsIndex(sc.thinkIndexIn);
      var item := Reasoning(sc.thinkItemID, sc.thinkBuf);
      var s1 := sc.(thinkStopped := true, responseItems := sc.responseItems[i := item]);
      assert Live(s1) && Items(s1) == Items(sc);
      CloseEvents(s1, i, sc.thinkItemID, sc.thinkBuf, item);
      hide Live, Items;
      var s3 := StopReasoning(sc);
      Stored(sc, s3, i, Reasoning(sc.thinkItemID, sc.thinkBuf));
    }
  }

  /** The open item at `i` moves to the stored ones; nothing else changes. */
  lemma {:induction false} Stored(sc: Conv, s: Conv, i: nat, item: Item)
    requires Tracks(sc) && OpenAt(sc, i) && s.started && Live(s)
    requires s.tools == sc.tools && s.toolOrder == sc.toolOrder && s.nextIndex == sc.nextIndex
    requires s.responseItems == sc.responseItems[i := item]
    requires !TextOpen(s) && !ThinkOpen(s) && (!s.thinkSeen ==> s.thinkBuf == "")
    requires Items(s) == Items(sc)[i := View(ShellOf(item), Closed, Items(sc)[i].text, Some(item))]
    ensures Tracks(s)
  {
    assert ToolsOk(s) && OpenOk(s) by {
      hide Live, Items, ToolView, Mirror, Covered;
    }
    assert Covered(s) by {
      hide Live, Items, ToolView, Mirror, ToolsOk;
      StoredCovered(sc, s, i, item);
    }
    assert Mirror(s, Items(s)) by {
      StoredMirror(sc, s, i, item);
    }
    hide Live, Items, ToolView, Mirror, Covered, ToolsOk, OpenOk;
  }

  lemma {:induction false} StoredCovered(sc: Conv, s: Conv, i: nat, item: Item)
    requires Covered(sc) && OpenOk(sc) && OpenAt(sc, i)
    requires s.tools == sc.tools && s.nextIndex == sc.nextIndex && s.responseItems == sc.responseItems[i := item]
    ensures Covered(s)
  {
    forall j | 0 <= j < s.nextIndex
      ensures j in s.responseItems || OpenAt(s, j) || ToolAt(s, j)
    {
      if ToolAt(sc, j) {
        var k :| k in sc.tools && sc.tools[k].blockIndex == j;
        assert s.tools[k].blockIndex == j;
      }
    }
  }

  lemma {:induction false} StoredMirror(sc: Conv, s: Conv, i: nat, item: Item)
    requires Mirror(sc, Items(sc)) && OpenOk(sc) && ToolsOk(sc) && OpenAt(sc, i)
    requires s.tools == sc.tools && s.responseItems == sc.responseItems[i := item] && !TextOpen(s) && !ThinkOpen(s)
    requires Items(s) == Items(sc)[i := View(ShellOf(item), Closed, Items(sc)[i].text, Some(item))]
    ensures Mirror(s, Items(s))
  {
    hide Items, ToolView;
    forall j | j in Items(s)
      ensures j in s.responseItems || OpenAt(s, j) || AnnouncedAt(s, j)
    {
      if j != i && AnnouncedAt(sc, j) {
        var k :| k in sc.tools && sc.tools[k].blockIndex == j && sc.tools[k].announced;
        assert s.tools[k].blockIndex == j;
      }
    }
  }

  lemma {:induction false} CloseTextTracks(sc: Conv, status: string)
    requires Tracks(sc)
    ensures Tracks(CloseText(sc, status)) && !TextOpen(CloseText(sc, status))
    ensures ThinkOpen(CloseText(sc, status)) == ThinkOpen(sc)
    ensures CloseText(sc, status).tools == sc.tools && CloseText(sc, status).nextIndex == sc.nextIndex
  {
    if TextOpen(sc) {
      var i := AsIndex(sc.msgIndex);
      var item := Message(sc.msgItemID, status, sc.respText);
      var s1 := sc.(textClosed := true, responseItems := sc.responseItems[i := item]);
      assert Live(s1) && Items(s1) == Items(sc);
      CloseEvents(s1, i, sc.msgItemID, sc.respText, item);
      hide Live, Items;
      Stored(sc, CloseText(sc, status), i, item);
    }
  }

  /** A new text or reasoning item opens at the next free index. */
  lemma {:induction false} NewItemEvents(sc: Conv, n: nat, id: ItemId)
    requires Live(sc) && n !in Items(sc)
    ensures var s2 := Emit(Emit(sc, ItemAdded(n, Owner(id))), PartAdded(id, n));
            Live(s2) && Items(s2) == Items(sc)[n := View(Owner(id), Open, "", None)]
  {
    hide Live, Items;
    EmitLive(sc, ItemAdded(n, Owner(id)));
    EmitLive(Emit(sc, ItemAdded(n, Owner(id))), PartAdded(id, n));
  }

  lemma {:induction false} NextIndexIsNew(sc: Conv)
    requires Tracks(sc)
    ensures forall i :: i in Items(sc) ==> i < sc.nextIndex
    ensures forall i :: i in sc.responseItems ==> i < sc.nextIndex
    ensures forall k :: k in sc.tools ==> sc.tools[k].blockIndex < sc.nextIndex
  {
    hide Live, Items, ToolView;
  }

  lemma {:induction false} Opened(sc: Conv, s: Conv, n: nat, id: ItemId)
    requires Tracks(sc) && !TextOpen(sc) && !ThinkOpen(sc) && n == sc.nextIndex && s.nextIndex == n + 1
    requires s.started && Live(s) && s.tools == sc.tools && s.toolOrder == sc.toolOrder && s.responseItems == sc.responseItems
    requires if id.MessageId? then TextOpen(s) && !ThinkOpen(s) && s.msgIndex == n && s.msgItemID == id && s.textPartOpen && s.respText == ""
             else ThinkOpen(s) && !TextOpen(s) && s.thinkIndexIn == n && s.thinkItemID == id && s.thinkBuf == ""
    requires !s.thinkSeen ==> s.thinkBuf == ""
    requires Items(s) == Items(sc)[n := View(Owner(id), Open, "", None)]
    ensures Tracks(s)
  {
    NextIndexIsNew(sc);
    assert OpenOk(s) by {
      hide Live, Items, Mirror, Covered, ToolsOk;
    }
    assert ToolsOk(s) by {
      hide Live, Items, Mirror, Covered, OpenOk;
      SameTools(sc, s);
    }
    assert Covered(s) by {
      hide Live, Items, Mirror, ToolsOk, OpenOk;
      SameCover(sc, s);
    }
    assert Mirror(s, Items(s)) by {
      hide Live, Items, Covered, ToolsOk, OpenOk;
      OpenedMirror(sc, s, Items(sc), n, id);
    }
    hide Live, Items, Mirror, Covered, ToolsOk, OpenOk;
  }

  lemma {:induction false} SameTools(sc: Conv, s: Conv)
    requires ToolsOk(sc) && s.tools == sc.tools && s.toolOrder == sc.toolOrder && s.responseItems == sc.responseItems
    requires sc.nextIndex <= s.nextIndex && forall i :: i < sc.nextIndex && OpenAt(s, i) ==> OpenAt(sc, i)
    ensures ToolsOk(s)
  {
    forall k | k in s.tools
      ensures ToolOk(s, s.tools[k])
    {
      assert ToolOk(sc, sc.tools[k]);
    }
  }

  lemma {:induction false} SameCover(sc: Conv, s: Conv)
    requires Covered(sc) && s.tools == sc.tools && s.responseItems == sc.responseItems
    requires forall i :: OpenAt(sc, i) ==> OpenAt(s, i)
    requires forall i :: sc.nextIndex <= i < s.nextIndex ==> OpenAt(s, i)
    ensures Covered(s)
  {
    forall i | 0 <= i < s.nextIndex
      ensures i in s.responseItems || OpenAt(s, i) || ToolAt(s, i)
    {
      if ToolAt(sc, i) {
        var k :| k in sc.tools && sc.tools[k].blockIndex == i;
        assert s.tools[k].blockIndex == i;
      }
    }
  }

  lemma {:induction false} SameAnnounced(sc: Conv, s: Conv, i: int)
    requires s.tools == sc.tools && AnnouncedAt(sc, i)
    ensures AnnouncedAt(s, i)
  {
    var k :| k in sc.tools && sc.tools[k].blockIndex == i && sc.tools[k].announced;
    assert s.tools[k].blockIndex == i;
  }

  lemma {:induction false} OpenedMirror(sc: Conv, s: Conv, items: map<nat, View>, n: nat, id: ItemId)
    requires Mirror(sc, items) && !TextOpen(sc) && !ThinkOpen(sc)
    requires forall i :: i in sc.responseItems ==> i < n
    requires forall k :: k in sc.tools ==> sc.tools[k].blockIndex < n
    requires s.tools == sc.tools && s.responseItems == sc.responseItems
    requires if id.MessageId? then TextOpen(s) && !ThinkOpen(s) && s.msgIndex == n && s.msgItemID == id && s.respText == ""
             else ThinkOpen(s) && !TextOpen(s) && s.thinkIndexIn == n && s.thinkItemID == id && s.thinkBuf == ""
    ensures Mirror(s, items[n := View(Owner(id), Open, "", None)])
  {
    hide ToolView;
    forall i | i in items && i !in sc.responseItems
      ensures AnnouncedAt(s, i)
    {
      SameAnnounced(sc, s, i);
    }
  }

  /** The open item at `i` grows by one delta. */
  lemma {:induction false} Extended(sc: Conv, s: Conv, i: nat, delta: string)
    requires Tracks(sc) && OpenAt(sc, i)
    requires s.started && Live(s) && s.tools == sc.tools && s.toolOrder == sc.toolOrder && s.responseItems == sc.responseItems
    requires s.nextIndex == sc.nextIndex && TextOpen(s) == TextOpen(sc) && ThinkOpen(s) == ThinkOpen(sc)
    requires s.msgIndex == sc.msgIndex && s.msgItemID == sc.msgItemID && s.textPartOpen == sc.textPartOpen
    requires s.thinkIndexIn == sc.thinkIndexIn && s.thinkItemID == sc.thinkItemID && s.thinkSeen == sc.thinkSeen
    requires s.respText == (if TextOpen(sc) then sc.respText + delta else sc.respText)
    requires s.thinkBuf == (if ThinkOpen(sc) then sc.thinkBuf + delta else sc.thinkBuf)
    requires i in Items(sc) && Items(s) == Items(sc)[i := Items(sc)[i].(text := Items(sc)[i].text + delta)]
    ensures Tracks(s)
  {
    assert OpenOk(s) by {
      hide Live, Items, Mirror, Covered, ToolsOk;
    }
    assert ToolsOk(s) by {
      hide Live, Items, Mirror, Covered, OpenOk;
      SameTools(sc, s);
    }
    assert Covered(s) by {
      hide Live, Items, Mirror, ToolsOk, OpenOk;
      SameCover(sc, s);
    }
    assert Mirror(s, Items(s)) by {
      hide Live, Items, Covered;
      ExtendedMirror(sc, s, Items(sc), i, delta);
    }
    hide Live, Items, Mirror, Covered, ToolsOk, OpenOk;
  }

  lemma {:induction false} ExtendedMirror(sc: Conv, s: Conv, items: map<nat, View>, i: nat, delta: string)
    requires Mirror(sc, items) && OpenAt(sc, i) && OpenOk(sc) && ToolsOk(sc)
    requires s.tools == sc.tools && s.responseItems == sc.responseItems
    requires TextOpen(s) == TextOpen(sc) && ThinkOpen(s) == ThinkOpen(sc)
    requires s.msgIndex == sc.msgIndex && s.msgItemID == sc.msgItemID
    requires s.thinkIndexIn == sc.thinkIndexIn && s.thinkItemID == sc.thinkItemID
    requires s.respText == (if TextOpen(sc) then sc.respText + delta else sc.respText)
    requires s.thinkBuf == (if ThinkOpen(sc) then sc.thinkBuf + delta else sc.thinkBuf)
    requires i in items
    ensures Mirror(s, items[i := items[i].(text := items[i].text + delta)])
  {
    hide ToolView;
    forall j | j in items && j !in sc.responseItems && !OpenAt(sc, j)
      ensures AnnouncedAt(s, j)
    {
      SameAnnounced(sc, s, j);
    }
  }

  lemma {:induction false} OpenReasoningTracks(sc: Conv)
    requires Tracks(sc) && !TextOpen(sc)
    ensures Tracks(OpenReasoning(sc)) && ThinkOpen(OpenReasoning(sc)) && !TextOpen(OpenReasoning(sc))
    ensures OpenReasoning(sc).tools == sc.tools
  {
    if !ThinkOpen(sc) {
      OpenView(sc);
      hide Tracks, Live, Items, Emit;
      var s2 := BeginReasoning(ResetReasoning(sc));
      SameLog(sc, s2);
      assert OpenReasoning(sc) == AddReasoning(ResetReasoning(sc));
      NewItemEvents(s2, sc.nextIndex, s2.thinkItemID);
      EmitTwiceFrame(s2, ItemAdded(sc.nextIndex, ReasoningShell(s2.thinkItemID)), PartAdded(s2.thinkItemID, sc.nextIndex));
      Opened(sc, OpenReasoning(sc), sc.nextIndex, s2.thinkItemID);
    }
  }

  lemma {:induction false} TakeReasoningTracks(sc: Conv, thinking: string)
    requires Tracks(sc)
    ensures Tracks(TakeReasoning(sc, thinking)) && TakeReasoning(sc, thinking).tools == sc.tools
  {
    hide Tracks, Live, Items, OpenReasoning, CloseText;
    CloseTextTracks(sc, "completed");
    var s0 := CloseText(sc, "completed");
    OpenReasoningTracks(s0);
    var s1 := OpenReasoning(s0);
    OpenView(s1);
    var i := AsIndex(s1.thinkIndexIn);
    var s2 := s1.(thinkBuf := s1.thinkBuf + thinking);
    SameLog(s1, s2);
    EmitLive(s2, TextDelta(s1.thinkItemID, i, thinking));
    Extended(s1, Emit(s2, TextDelta(s1.thinkItemID, i, thinking)), i, thinking);
  }

  /** A fresh message with its text part, before its two events. */
  ghost function FreshMessage(sc: Conv): Conv {
    sc.(msgIndex := sc.nextIndex, nextIndex := sc.nextIndex + 1, msgItemID := MessageId(sc.id, sc.nextIndex), textClosed := false,
        textPartOpen := true, respText := "")
  }

  lemma {:induction false} OpenTextEmits(sc: Conv)
    requires !TextOpen(sc)
    ensures var id := MessageId(sc.id, sc.nextIndex);
            OpenText(sc) == Emit(Emit(FreshMessage(sc), ItemAdded(sc.nextIndex, MessageShell(id))), PartAdded(id, sc.nextIndex))
  {
  }

  lemma {:induction false} OpenTextTracks(sc: Conv)
    requires Tracks(sc) && !ThinkOpen(sc)
    ensures Tracks(OpenText(sc)) && TextOpen(OpenText(sc)) && !ThinkOpen(OpenText(sc)) && OpenText(sc).tools == sc.tools
  {
    OpenView(sc);
    hide Tracks, Live, Items, Emit;
    if !TextOpen(sc) {
      var id, s1 := MessageId(sc.id, sc.nextIndex), FreshMessage(sc);
      OpenTextEmits(sc);
      hide OpenText;
      SameLog(sc, s1);
      NewItemEvents(s1, sc.nextIndex, id);
      EmitTwiceFrame(s1, ItemAdded(sc.nextIndex, MessageShell(id)), PartAdded(id, sc.nextIndex));
      Opened(sc, OpenText(sc), sc.nextIndex, id);
    }
  }

  lemma {:induction false} TakeContentTracks(sc: Conv, content: string)
    requires Tracks(sc)
    ensures Tracks(TakeContent(sc, content)) && TakeContent(sc, content).tools == sc.tools
  {
    hide Tracks, Live, Items, OpenText, StopReasoning;
    StopReasoningTracks(sc);
    var s0 := StopReasoning(sc);
    OpenTextTracks(s0);
    var s1 := OpenText(s0);
    OpenView(s1);
    var i := AsIndex(s1.msgIndex);
    var s2 := s1.(respText := s1.respText + content);
    SameLog(s1, s2);
    EmitLive(s2, TextDelta(s1.msgItemID, i, content));
    Extended(s1, Emit(s2, TextDelta(s1.msgItemID, i, content)), i, content);
  }

  // ---- tool calls ----

  lemma {:induction false} OpenToolTracks(sc: Conv, tc: ToolDelta)
    requires Tracks(sc) && !TextOpen(sc) && !ThinkOpen(sc) && Undone(sc)
    ensures Tracks(OpenTool(sc, tc)) && Undone(OpenTool(sc, tc)) && tc.index in OpenTool(sc, tc).tools
  {
    if tc.index !in sc.tools {
      var s := OpenTool(sc, tc);
      NextIndexIsNew(sc);
      hide Live, Items, Mirror, Covered, ToolsOk;
      SameLog(sc, s);
      OpenToolTools(sc, tc);
      OpenToolCover(sc, tc);
      OpenToolMirror(sc, tc, Items(sc));
    }
  }

  lemma {:induction false} OpenToolTools(sc: Conv, tc: ToolDelta)
    requires ToolsOk(sc) && OpenOk(sc) && tc.index !in sc.tools && !TextOpen(sc) && !ThinkOpen(sc)
    ensures ToolsOk(OpenTool(sc, tc))
  {
    var s := OpenTool(sc, tc);
    forall k | k in s.tools
      ensures ToolOk(s, s.tools[k])
    {
      assert k != tc.index ==> ToolOk(sc, sc.tools[k]);
    }
  }

  lemma {:induction false} OpenToolCover(sc: Conv, tc: ToolDelta)
    requires Covered(sc) && tc.index !in sc.tools && !TextOpen(sc) && !ThinkOpen(sc)
    ensures Covered(OpenTool(sc, tc))
  {
    var s := OpenTool(sc, tc);
    assert s.tools[tc.index].blockIndex == sc.nextIndex;
    forall i | 0 <= i < sc.nextIndex
      ensures i in s.responseItems || OpenAt(s, i) || ToolAt(s, i)
    {
      if ToolAt(sc, i) {
        var k :| k in sc.tools && sc.tools[k].blockIndex == i;
        assert s.tools[k].blockIndex == i;
      }
    }
  }

  lemma {:induction false} OpenToolMirror(sc: Conv, tc: ToolDelta, items: map<nat, View>)
    requires Mirror(sc, items) && tc.index !in sc.tools && !TextOpen(sc) && !ThinkOpen(sc)
    ensures Mirror(OpenTool(sc, tc), items)
  {
    hide ToolView;
    var s := OpenTool(sc, tc);
    forall i | i in items && AnnouncedAt(sc, i)
      ensures AnnouncedAt(s, i)
    {
      var k :| k in sc.tools && sc.tools[k].blockIndex == i && sc.tools[k].announced;
      assert s.tools[k].blockIndex == i && s.tools[k].announced;
    }
  }

  /** A call moves from `before` to `after` without losing anything announced. */
  ghost predicate Advances(before: Tool, after: Tool) {
    && after.blockIndex == before.blockIndex && before.args <= after.args
    && !before.responseDone && !after.responseDone
    && (before.announced ==> after.announced && ToolShell(after) == ToolShell(before) && after.custom == before.custom)
    && (!after.announced ==> !after.custom && after.identity == NO_IDENTITY)
    && after.argsSent == (if after.announced && !after.custom then |after.args| else 0)
  }

  /** Store the new call state and emit what is owed for it. */
  ghost function Advanced(sc: Conv, index: int, after: Tool): Conv
    requires index in sc.tools
  {
    var s1 := sc.(tools := sc.tools[index := after]);
    FlushArgs(if after.announced && !sc.tools[index].announced then Emit(s1, ItemAdded(after.blockIndex, ToolShell(after))) else s1,
              sc.tools[index], after)
  }

  /** The client's item map once the call is at `after`. */
  ghost function AdvancedItems(items: map<nat, View>, after: Tool): map<nat, View> {
    if after.announced then items[after.blockIndex := ToolView(after)] else items
  }

  lemma {:induction false} ToolEvents(sc: Conv, s1: Conv, before: Tool, after: Tool)
    requires Live(sc) && s1.log == sc.log && s1.respSequence == sc.respSequence && Advances(before, after)
    requires before.announced ==> before.blockIndex in Items(sc) && Items(sc)[before.blockIndex] == ToolView(before)
    requires !before.announced ==> before.blockIndex !in Items(sc)
    requires before.argsSent == (if before.announced && !before.custom then |before.args| else 0)
    ensures var s := FlushArgs(if after.announced && !before.announced then Emit(s1, ItemAdded(after.blockIndex, ToolShell(after))) else s1,
                               before, after);
            Live(s) && Items(s) == AdvancedItems(Items(sc), after)
  {
    hide Live, Items;
    SameLog(sc, s1);
    var s2 := if after.announced && !before.announced then Emit(s1, ItemAdded(after.blockIndex, ToolShell(after))) else s1;
    if after.announced && !before.announced {
      EmitLive(s1, ItemAdded(after.blockIndex, ToolShell(after)));
    }
    if after.announced && !after.custom && before.argsSent < |after.args| {
      EmitLive(s2, ArgsDelta(after.id, after.blockIndex, after.args[before.argsSent..]));
      assert after.args == after.args[..before.argsSent] + after.args[before.argsSent..];
      assert before.announced ==> after.args[..before.argsSent] == before.args;
    } else if before.announced && !after.custom {
      assert after.args == before.args;
    }
  }

  lemma {:induction false} AdvancedTracks(sc: Conv, index: int, after: Tool)
    requires Tracks(sc) && Undone(sc) && index in sc.tools && Advances(sc.tools[index], after)
    ensures Tracks(Advanced(sc, index, after)) && Undone(Advanced(sc, index, after))
  {
    hide Tracks, Live, Items, AdvancedItems, Advances, ToolView, Advanced, SameButLog;
    ToolViewOf(sc, index);
    AdvancedEvents(sc, index, after);
    AdvancedFrame(sc, index, after);
    AdvancedState(sc, Advanced(sc, index, after), index, after);
  }

  lemma {:induction false} AdvancedFrame(sc: Conv, index: int, after: Tool)
    requires index in sc.tools
    ensures SameButLog(Advanced(sc, index, after), sc.(tools := sc.tools[index := after]))
  {
    hide Emit, SameButLog, FlushArgs, ToolShell;
    var s1 := sc.(tools := sc.tools[index := after]);
    var s2 := if after.announced && !sc.tools[index].announced then Emit(s1, ItemAdded(after.blockIndex, ToolShell(after))) else s1;
    EmitFrame(s1, ItemAdded(after.blockIndex, ToolShell(after)));
    FlushFrame(s2, sc.tools[index], after);
    SameButLogTransitive(Advanced(sc, index, after), s2, s1);
  }

  lemma {:induction false} FlushFrame(sc: Conv, before: Tool, after: Tool)
    ensures SameButLog(FlushArgs(sc, before, after), sc)
  {
    hide Emit, SameButLog;
    EmitFrame(sc, Created("", ""));
    if after.announced && !after.custom && before.argsSent < |after.args| {
      EmitFrame(sc, ArgsDelta(after.id, after.blockIndex, after.args[before.argsSent..]));
    }
  }

  lemma {:induction false} AdvancedState(sc: Conv, s: Conv, index: int, after: Tool)
    requires Tracks(sc) && Undone(sc) && index in sc.tools && Advances(sc.tools[index], after)
    requires Live(s) && Items(s) == AdvancedItems(Items(sc), after)
    requires SameButLog(s, sc.(tools := sc.tools[index := after]))
    ensures Tracks(s) && Undone(s)
  {
    hide Live, Items, ToolView, ToolsOk, OpenOk, Covered, Mirror, AdvancedItems;
    AdvancedStructure(sc, s, index, after);
    AdvancedCover(sc, s, index, after);
    AdvancedMirror(sc, s, Items(sc), index, after);
  }

  lemma {:induction false} AdvancedEvents(sc: Conv, index: int, after: Tool)
    requires Live(sc) && index in sc.tools && Advances(sc.tools[index], after)
    requires var t := sc.tools[index];
             && (t.announced ==> t.blockIndex in Items(sc) && Items(sc)[t.blockIndex] == ToolView(t))
             && (!t.announced ==> t.blockIndex !in Items(sc))
             && t.argsSent == (if t.announced && !t.custom then |t.args| else 0)
    ensures var s := Advanced(sc, index, after);
            Live(s) && Items(s) == AdvancedItems(Items(sc), after)
  {
    hide Live, Items, AdvancedItems, ToolView, Emit;
    ToolEvents(sc, sc.(tools := sc.tools[index := after]), sc.tools[index], after);
  }

  lemma {:induction false} AdvancedStructure(sc: Conv, s: Conv, index: int, after: Tool)
    requires ToolsOk(sc) && OpenOk(sc) && index in sc.tools && Advances(sc.tools[index], after)
    requires s.tools == sc.tools[index := after] && s.toolOrder == sc.toolOrder && s.responseItems == sc.responseItems
    requires s.nextIndex == sc.nextIndex && s.msgIndex == sc.msgIndex && s.textClosed == sc.textClosed && s.msgItemID == sc.msgItemID
    requires s.textPartOpen == sc.textPartOpen && s.thinkIndexIn == sc.thinkIndexIn && s.thinkItemID == sc.thinkItemID
    requires s.thinkSeen == sc.thinkSeen && s.thinkStopped == sc.thinkStopped && s.thinkBuf == sc.thinkBuf
    ensures ToolsOk(s) && OpenOk(s)
  {
    hide ToolShell;
    forall k | k in s.tools
      ensures ToolOk(s, s.tools[k])
    {
      assert ToolOk(sc, sc.tools[k]);
    }
  }

  lemma {:induction false} ToolViewOf(sc: Conv, index: int)
    requires Tracks(sc) && Undone(sc) && index in sc.tools
    ensures Live(sc)
    ensures var t := sc.tools[index];
            && (t.announced ==> t.blockIndex in Items(sc) && Items(sc)[t.blockIndex] == ToolView(t))
            && (!t.announced ==> t.blockIndex !in Items(sc))
            && t.argsSent == (if t.announced && !t.custom then |t.args| else 0)
            && t.identity == (if t.announced then t.identity else NO_IDENTITY) && (!t.announced ==> !t.custom)
  {
    hide Live, Items, ToolView, Covered;
    var t := sc.tools[index];
    assert ToolOk(sc, t);
    assert !t.announced ==> !AnnouncedAt(sc, t.blockIndex);
  }

  lemma {:induction false} AdvancedCover(sc: Conv, s: Conv, index: int, after: Tool)
    requires Covered(sc) && index in sc.tools && s.tools == sc.tools[index := after] && after.blockIndex == sc.tools[index].blockIndex
    requires s.responseItems == sc.responseItems && s.nextIndex == sc.nextIndex && forall i :: OpenAt(sc, i) ==> OpenAt(s, i)
    ensures Covered(s)
  {
    forall i | 0 <= i < s.nextIndex
      ensures i in s.responseItems || OpenAt(s, i) || ToolAt(s, i)
    {
      if ToolAt(sc, i) {
        var k :| k in sc.tools && sc.tools[k].blockIndex == i;
        assert s.tools[k].blockIndex == i;
      }
    }
  }

  lemma {:induction false} AdvancedMirror(sc: Conv, s: Conv, items: map<nat, View>, index: int, after: Tool)
    requires Mirror(sc, items) && ToolsOk(sc) && OpenOk(sc) && index in sc.tools && Advances(sc.tools[index], after)
    requires s.tools == sc.tools[index := after] && s.responseItems == sc.responseItems
    requires TextOpen(s) == TextOpen(sc) && ThinkOpen(s) == ThinkOpen(sc) && s.msgIndex == sc.msgIndex && s.msgItemID == sc.msgItemID
    requires s.thinkIndexIn == sc.thinkIndexIn && s.thinkItemID == sc.thinkItemID && s.respText == sc.respText && s.thinkBuf == sc.thinkBuf
    ensures Mirror(s, AdvancedItems(items, after))
  {
    assert ToolOk(sc, sc.tools[index]);
    AdvancedAnnounced(sc, s, index, after);
    hide ToolView, AnnouncedAt, ToolOk;
  }

  lemma {:induction false} AdvancedAnnounced(sc: Conv, s: Conv, index: int, after: Tool)
    requires index in sc.tools && Advances(sc.tools[index], after) && s.tools == sc.tools[index := after]
    ensures forall i :: AnnouncedAt(sc, i) ==> AnnouncedAt(s, i)
    ensures after.announced ==> AnnouncedAt(s, after.blockIndex)
  {
    forall i | AnnouncedAt(sc, i)
      ensures AnnouncedAt(s, i)
    {
      var k :| k in sc.tools && sc.tools[k].blockIndex == i && sc.tools[k].announced;
      assert s.tools[k].blockIndex == i && s.tools[k].announced;
    }
    assert after.announced ==> s.tools[index].blockIndex == after.blockIndex;
  }

  lemma {:induction false} AbsorbAdvances(env: Env, sc: Conv, index: int, tc: ToolDelta)
    requires Tracks(sc) && Undone(sc) && index in sc.tools
    ensures Advances(sc.tools[index], Sent(Resolve(env.tools, Absorb(sc.tools[index], tc))))
  {
    ToolViewOf(sc, index);
    hide Tracks, Live, Items, ClassifyStreamedName, ResolveChatName, MergeName, ToolView;
    var before := sc.tools[index];
    var absorbed := Absorb(before, tc);
    assert before.args <= absorbed.args;
    assert Resolve(env.tools, absorbed).args == absorbed.args;
  }

  lemma {:induction false} TakeToolTracks(env: Env, sc: Conv, tc: ToolDelta)
    requires Tracks(sc) && Undone(sc)
    ensures var o := TakeTool(env, sc, tc);
            o.Ok? ==> Tracks(o.value) && Undone(o.value)
  {
    hide Tracks, StopReasoning, CloseText, OpenTool, Advances;
    StopReasoningTracks(sc);
    CloseTextTracks(StopReasoning(sc), "completed");
    var s1 := CloseText(StopReasoning(sc), "completed");
    OpenToolTracks(s1, tc);
    var s2 := OpenTool(s1, tc);
    AbsorbAdvances(env, s2, tc.index, tc);
    AdvancedTracks(s2, tc.index, Sent(Resolve(env.tools, Absorb(s2.tools[tc.index], tc))));
  }

  lemma {:induction false} TakeToolsTracks(env: Env, sc: Conv, deltas: seq<ToolDelta>)
    requires Tracks(sc) && Undone(sc)
    ensures var o := TakeTools(env, sc, deltas);
            o.Ok? ==> Tracks(o.value) && Undone(o.value)
    decreases |deltas|
  {
    hide Tracks, Undone, TakeTool;
    if deltas == [] {
    } else {
      TakeToolTracks(env, sc, deltas[0]);
      var o := TakeTool(env, sc, deltas[0]);
      if o.Ok? {
        TakeToolsTracks(env, o.value, deltas[1..]);
      }
    }
  }

  lemma {:induction false} FinishToolTracks(env: Env, sc: Conv, index: int)
    requires Tracks(sc) && Undone(sc)
    ensures var o := FinishTool(env, sc, index);
            o.Ok? ==> Tracks(o.value) && Undone(o.value)
  {
    if index in sc.tools {
      ToolViewOf(sc, index);
      hide Tracks, Live, Items, ToolView;
      var before := sc.tools[index];
      var after := Sent(before.(announced := true));
      AdvancedTracks(sc, index, after);
      hide Emit, FlushArgs;
      assert !before.announced ==> ToolShell(after) == FunctionShell(after.id, after.name, "");
    }
  }

  lemma {:induction false} FinishToolsTracks(env: Env, sc: Conv, order: seq<int>)
    requires Tracks(sc) && Undone(sc)
    ensures var o := FinishTools(env, sc, order);
            o.Ok? ==> Tracks(o.value) && Undone(o.value)
    decreases |order|
  {
    hide Tracks, Undone, FinishTool;
    if order == [] {
    } else {
      FinishToolTracks(env, sc, order[0]);
      var o := FinishTool(env, sc, order[0]);
      if o.Ok? {
        FinishToolsTracks(env, o.value, order[1..]);
      }
    }
  }

  /** Fields no invariant reads may change freely. */
  lemma {:induction false} Irrelevant(sc: Conv, s: Conv)
    requires s == sc.(finished := s.finished, heldFinish := s.heldFinish, usage := s.usage, done := s.done, flushed := s.flushed)
    ensures Tracks(s) == Tracks(sc) && Undone(s) == Undone(sc) && Sealed(s) == Sealed(sc)
  {
    SameLog(sc, s);
    hide Live, Items, ToolView, Sealed;
    assert forall i :: OpenAt(s, i) == OpenAt(sc, i);
    assert forall i :: ToolAt(s, i) == ToolAt(sc, i) && AnnouncedAt(s, i) == AnnouncedAt(sc, i);
    assert forall t :: ToolOk(s, t) == ToolOk(sc, t);
    hide OpenAt, ToolAt, AnnouncedAt, ToolOk;
    assert ToolsOk(s) == ToolsOk(sc);
    assert Covered(s) == Covered(sc);
    hide ToolsOk, Covered;
    assert OpenOk(s) == OpenOk(sc);
    assert Mirror(s, Items(s)) == Mirror(sc, Items(sc));
  }

  lemma {:induction false} FinishTracks(env: Env, sc: Conv, finish: string)
    requires Tracks(sc) && Undone(sc)
    ensures var o := Finish(env, sc, finish);
            o.Ok? ==> Tracks(o.value) && Undone(o.value)
  {
    hide Tracks, StopReasoning, FinishTools;
    FinishToolsTracks(env, sc, sc.toolOrder);
    var o := FinishTools(env, sc, sc.toolOrder);
    if o.Ok? {
      var s := o.value.(finished := true, heldFinish := finish);
      Irrelevant(o.value, s);
      StopReasoningTracks(s);
    }
  }
}
