/** Whole runs of the Chat Completions -> Responses leg: the terminal event, the
    events after it, and what the finished response says about the stream. */
module ChatToResponsesRuns {
  import opened Common
  import opened ToolNames
  import opened ChatChunks
  import opened ResponsesProtocol
  import opened ChatToResponses
  import opened ChatToResponsesSafety

  // ---- closing the tools ----

  /** The finished item of a call. */
  ghost function FinishedCall(env: Env, t: Tool): Option<Item> {
    if t.custom then
      if env.json.unwrap(t.args).Some?
      then Some(CustomCall(t.id, OutputName(t), t.identity.namespace, env.json.unwrap(t.args).value)) else None
    else if env.json.valid(DefaultArgs(t.args))
    then Some(FunctionCall(t.id, OutputName(t), t.identity.namespace, DefaultArgs(t.args))) else None
  }

  lemma {:induction false} CloseToolEvents(env: Env, sc: Conv, s: Conv, t: Tool, item: Item)
    requires Live(sc) && s.log == sc.log && s.respSequence == sc.respSequence
    requires t.blockIndex in Items(sc) && Items(sc)[t.blockIndex] == ToolView(t) && FinishedCall(env, t) == Some(item)
    ensures var b := if item.CustomCall? then InputDone(t.id, t.blockIndex, item.input) else ArgsDone(t.id, t.blockIndex, DefaultArgs(t.args));
            var s2 := Emit(Emit(s, b), ItemDone(t.blockIndex, item));
            Live(s2) && Items(s2).Keys == Items(sc).Keys
            && (forall i :: i in Items(sc) && i != t.blockIndex ==> Items(s2)[i] == Items(sc)[i])
            && Items(s2)[t.blockIndex].done == Some(item)
  {
    hide Live, Items;
    SameLog(sc, s);
    var b := if item.CustomCall? then InputDone(t.id, t.blockIndex, item.input) else ArgsDone(t.id, t.blockIndex, DefaultArgs(t.args));
    EmitLive(s, b);
    EmitLive(Emit(s, b), ItemDone(t.blockIndex, item));
  }

  /** What a closing step leaves alone. */
  ghost predicate ClosesOnly(sc: Conv, s: Conv) {
    && !TextOpen(s) && !ThinkOpen(s) && s.tools.Keys == sc.tools.Keys && s.toolOrder == sc.toolOrder
    && s.usage == sc.usage && s.terminalSent == sc.terminalSent && s.nextIndex == sc.nextIndex && s.finished == sc.finished
    && s.heldFinish == sc.heldFinish && s.id == sc.id && s.model == sc.model
  }

  lemma {:induction false} CloseToolTracks(env: Env, sc: Conv, index: int)
    requires Tracks(sc) && !TextOpen(sc) && !ThinkOpen(sc)
    ensures var o := CloseTool(env, sc, index);
            o.Ok? ==> Tracks(o.value) && ClosesOnly(sc, o.value)
  {
    hide Tracks, Emit, Closing, ClosesOnly, OutputName;
    ClosesNothing(sc);
    if index in sc.tools {
      var t := sc.tools[index];
      if !t.responseDone && t.announced && FinishedCall(env, t).Some? {
        ClosedTool(env, sc, index, FinishedCall(env, t).value);
      }
    }
  }

  lemma {:induction false} ClosesNothing(sc: Conv)
    requires !TextOpen(sc) && !ThinkOpen(sc)
    ensures ClosesOnly(sc, sc)
  {
  }

  lemma {:induction false} ClosesOnlyTransitive(r: Conv, s: Conv, t: Conv)
    requires ClosesOnly(r, s) && ClosesOnly(s, t)
    ensures ClosesOnly(r, t)
  {
  }

  lemma {:induction false} ClosedTool(env: Env, sc: Conv, index: int, item: Item)
    requires Tracks(sc) && !TextOpen(sc) && !ThinkOpen(sc) && index in sc.tools
    requires !sc.tools[index].responseDone && sc.tools[index].announced && FinishedCall(env, sc.tools[index]) == Some(item)
    ensures var t := sc.tools[index];
            var b := if item.CustomCall? then InputDone(t.id, t.blockIndex, item.input) else ArgsDone(t.id, t.blockIndex, DefaultArgs(t.args));
            var s := Emit(Emit(Closing(sc, index, item), b), ItemDone(t.blockIndex, item));
            Tracks(s) && ClosesOnly(sc, s)
  {
    hide Live, Items, ToolView, Emit, FinishedCall, SameButLog, ToolsOk, OpenOk, Covered;
    var t := sc.tools[index];
    assert t.blockIndex in Items(sc) && Items(sc)[t.blockIndex] == ToolView(t) && Live(sc);
    hide Tracks, Mirror;
    var s1 := Closing(sc, index, item);
    CloseToolEvents(env, sc, s1, t, item);
    var b := if item.CustomCall? then InputDone(t.id, t.blockIndex, item.input) else ArgsDone(t.id, t.blockIndex, DefaultArgs(t.args));
    EmitTwiceFrame(s1, b, ItemDone(t.blockIndex, item));
    ClosingTracks(sc, Emit(Emit(s1, b), ItemDone(t.blockIndex, item)), index, item);
  }

  lemma {:induction false} ClosingTracks(sc: Conv, s: Conv, index: int, item: Item)
    requires Tracks(sc) && index in sc.tools && sc.tools[index].announced && !sc.tools[index].responseDone
    requires !TextOpen(sc) && !ThinkOpen(sc)
    requires SameButLog(s, Closing(sc, index, item)) && Live(s)
    requires Items(s).Keys == Items(sc).Keys
    requires forall i :: i in Items(sc) && i != sc.tools[index].blockIndex ==> Items(s)[i] == Items(sc)[i]
    requires sc.tools[index].blockIndex in Items(s) && Items(s)[sc.tools[index].blockIndex].done == Some(item)
    ensures Tracks(s) && ClosesOnly(sc, s)
  {
    hide Live, Items, ToolView, ToolsOk, OpenOk, Covered, Mirror, Closing, SameButLog;
    ClosingTools(sc, s, index, item);
    ClosingCover(sc, s, index, item);
    ClosingMirror(sc, s, Items(sc), Items(s), index, item);
  }

  lemma {:induction false} ClosingTools(sc: Conv, s: Conv, index: int, item: Item)
    requires ToolsOk(sc) && OpenOk(sc) && index in sc.tools && sc.tools[index].announced
    requires !TextOpen(sc) && !ThinkOpen(sc)
    requires SameButLog(s, Closing(sc, index, item))
    ensures ToolsOk(s) && OpenOk(s) && s.started == sc.started && ClosesOnly(sc, s)
  {
    hide ToolShell;
    assert ToolOk(sc, sc.tools[index]);
    assert s.tools.Keys == sc.tools.Keys;
    forall k | k in s.tools
      ensures ToolOk(s, s.tools[k])
    {
      assert ToolOk(sc, sc.tools[k]);
    }
  }

  lemma {:induction false} ClosingCover(sc: Conv, s: Conv, index: int, item: Item)
    requires Covered(sc) && index in sc.tools && !TextOpen(sc) && !ThinkOpen(sc)
    requires SameButLog(s, Closing(sc, index, item))
    ensures Covered(s)
  {
    forall i | 0 <= i < s.nextIndex
      ensures i in s.responseItems || OpenAt(s, i) || ToolAt(s, i)
    {
      if ToolAt(sc, i) {
        var k :| k in sc.tools && sc.tools[k].blockIndex == i;
        assert s.tools[k].blockIndex == i;
      }
    }
  }

  lemma {:induction false} ClosingMirror(sc: Conv, s: Conv, items: map<nat, View>, items': map<nat, View>, index: int, item: Item)
    requires Mirror(sc, items) && ToolsOk(sc) && index in sc.tools && sc.tools[index].announced
    requires SameButLog(s, Closing(sc, index, item)) && !TextOpen(sc) && !ThinkOpen(sc)
    requires items'.Keys == items.Keys && forall i :: i in items && i != sc.tools[index].blockIndex ==> items'[i] == items[i]
    requires sc.tools[index].blockIndex in items' && items'[sc.tools[index].blockIndex].done == Some(item)
    ensures Mirror(s, items')
  {
    hide ToolView, ToolOk, AnnouncedAt;
    ClosingAnnounced(sc, s, index, item);
    forall k | k in s.tools && s.tools[k].announced && !s.tools[k].responseDone
      ensures s.tools[k].blockIndex in items' && items'[s.tools[k].blockIndex] == ToolView(s.tools[k])
    {
      assert k != index && s.tools[k] == sc.tools[k];
    }
  }

  lemma {:induction false} ClosingAnnounced(sc: Conv, s: Conv, index: int, item: Item)
    requires index in sc.tools && SameButLog(s, Closing(sc, index, item))
    ensures forall i :: AnnouncedAt(sc, i) ==> AnnouncedAt(s, i)
  {
    forall i | AnnouncedAt(sc, i)
      ensures AnnouncedAt(s, i)
    {
      var k :| k in sc.tools && sc.tools[k].blockIndex == i && sc.tools[k].announced;
      assert s.tools[k].blockIndex == i && s.tools[k].announced;
    }
  }

  lemma {:induction false} CloseToolsTracks(env: Env, sc: Conv, order: seq<int>)
    requires Tracks(sc) && !TextOpen(sc) && !ThinkOpen(sc)
    ensures var o := CloseTools(env, sc, order);
            o.Ok? ==> Tracks(o.value) && ClosesOnly(sc, o.value)
    decreases |order|
  {
    hide Tracks, CloseTool;
    ClosesNothing(sc);
    if order == [] {
    } else {
      CloseToolTracks(env, sc, order[0]);
      var o := CloseTool(env, sc, order[0]);
      if o.Ok? {
        CloseToolsTracks(env, o.value, order[1..]);
        if CloseTools(env, sc, order).Ok? {
          ClosesOnlyTransitive(sc, o.value, CloseTools(env, sc, order).value);
        }
      }
    }
  }

  /** A call that closes stores its finished item and changes nothing else. */
  lemma {:induction false} ClosedFrame(env: Env, sc: Conv, index: int)
    requires CloseTool(env, sc, index).Ok? && CloseTool(env, sc, index).value != sc
    ensures index in sc.tools && !sc.tools[index].responseDone && FinishedCall(env, sc.tools[index]).Some?
    ensures SameButLog(CloseTool(env, sc, index).value, Closing(sc, index, FinishedCall(env, sc.tools[index]).value))
  {
    hide Emit, SameButLog, Closing, OutputName;
    var t := sc.tools[index];
    var item := FinishedCall(env, t).value;
    var b := if t.custom then InputDone(t.id, t.blockIndex, item.input) else ArgsDone(t.id, t.blockIndex, DefaultArgs(t.args));
    EmitTwiceFrame(Closing(sc, index, item), b, ItemDone(t.blockIndex, item));
  }

  // ---- response.completed ----

  lemma {:induction false} OutputComplete(items: map<nat, Item>, n: nat)
    requires forall i: nat :: i < n ==> i in items
    ensures |Output(items, n)| == n && forall i: nat :: i < n ==> Output(items, n)[i] == items[i]
  {
    if n == 0 {
    } else {
      OutputComplete(items, n - 1);
    }
  }

  /** With nothing open and every call done, each index is a stored item and the
      client's items are exactly the output. */
  lemma {:induction false} AllStored(sc: Conv)
    requires Tracks(sc) && !TextOpen(sc) && !ThinkOpen(sc)
    requires forall k :: k in sc.tools ==> sc.tools[k].responseDone
    ensures forall i: nat :: i < sc.nextIndex ==> i in sc.responseItems
    ensures ExactOutput(Items(sc), Output(sc.responseItems, sc.nextIndex))
  {
    hide Live, Items, ToolView;
    forall i: nat | i < sc.nextIndex
      ensures i in sc.responseItems
    {
      if ToolAt(sc, i) {
        var k :| k in sc.tools && sc.tools[k].blockIndex == i;
        assert ToolOk(sc, sc.tools[k]);
      }
    }
    OutputComplete(sc.responseItems, sc.nextIndex);
    forall i | i in Items(sc)
      ensures i < |Output(sc.responseItems, sc.nextIndex)|
    {
      if AnnouncedAt(sc, i) {
        var k :| k in sc.tools && sc.tools[k].blockIndex == i && sc.tools[k].announced;
        assert ToolOk(sc, sc.tools[k]);
      }
    }
  }

  lemma {:induction false} EmitCompleted(sc: Conv, s: Conv, b: Body)
    requires Live(sc) && s.log == sc.log && s.respSequence == sc.respSequence && b.Completed? && ExactOutput(Items(sc), b.output)
    ensures Sealed(Emit(s, b)) && Replay(Emit(s, b).log).completed == Some(b) && Replay(Emit(s, b).log).trailing == 0
    ensures Items(Emit(s, b)) == Items(sc)
  {
    ReplayAppend(s.log, Event(s.respSequence + 1, b));
  }

  /** The converter just before the completed event of a terminal. */
  ghost function BeforeCompleted(env: Env, sc: Conv): ChatToResponses.Outcome {
    var s1 := Quieted(sc);
    CloseTools(env, s1, s1.toolOrder)
  }

  ghost function StatusAtEnd(sc: Conv): string {
    StatusOf(if sc.heldFinish == "" then "stop" else sc.heldFinish)
  }

  ghost function Quieted(sc: Conv): Conv {
    CloseText(StopReasoning(sc.(heldFinish := "")), StatusAtEnd(sc))
  }

  lemma {:induction false} QuietedTracks(sc: Conv)
    requires Tracks(sc)
    ensures Tracks(Quieted(sc)) && ClosesOnly(sc.(msgIndex := -1, thinkSeen := false, heldFinish := ""), Quieted(sc))
  {
    hide Tracks, StopReasoning, CloseText, StatusAtEnd;
    var s0 := sc.(heldFinish := "");
    Irrelevant(sc, s0);
    StopReasoningTracks(s0);
    CloseTextTracks(StopReasoning(s0), StatusAtEnd(sc));
    StopReasoningFrame(s0);
    CloseTextFrame(StopReasoning(s0), StatusAtEnd(sc));
  }

  lemma {:induction false} StopReasoningFrame(sc: Conv)
    ensures var s := StopReasoning(sc);
            s.usage == sc.usage && s.terminalSent == sc.terminalSent && s.tools == sc.tools && s.toolOrder == sc.toolOrder
            && s.nextIndex == sc.nextIndex && s.started == sc.started && s.finished == sc.finished && s.heldFinish == sc.heldFinish
            && s.id == sc.id && s.model == sc.model
  {
    hide Emit;
    var i := AsIndex(sc.thinkIndexIn);
    var item := Reasoning(sc.thinkItemID, sc.thinkBuf);
    EmitThriceFrame(sc.(thinkStopped := true, responseItems := sc.responseItems[i := item]),
                    TextDone(sc.thinkItemID, i, sc.thinkBuf), PartDone(sc.thinkItemID, i, sc.thinkBuf), ItemDone(i, item));
  }

  lemma {:induction false} CloseTextFrame(sc: Conv, status: string)
    ensures var s := CloseText(sc, status);
            s.usage == sc.usage && s.terminalSent == sc.terminalSent && s.tools == sc.tools && s.toolOrder == sc.toolOrder
            && s.nextIndex == sc.nextIndex && s.started == sc.started && s.finished == sc.finished && s.heldFinish == sc.heldFinish
            && s.id == sc.id && s.model == sc.model
  {
    hide Emit;
    var i := AsIndex(sc.msgIndex);
    var item := Message(sc.msgItemID, status, sc.respText);
    EmitThriceFrame(sc.(textClosed := true, responseItems := sc.responseItems[i := item]),
                    TextDone(sc.msgItemID, i, sc.respText), PartDone(sc.msgItemID, i, sc.respText), ItemDone(i, item));
  }

  /** A terminal either does nothing, or ends the response with one completed
      event that lists exactly `nextIndex` items, the announced ones. */
  lemma {:induction false} TerminalSeals(env: Env, sc: Conv, allowSynthetic: bool)
    requires Tracks(sc) && !sc.terminalSent && (allowSynthetic || sc.heldFinish != "")
    ensures var o := Terminal(env, sc, allowSynthetic);
            o.Ok? ==> BeforeCompleted(env, sc).Ok? && SealedBy(sc, BeforeCompleted(env, sc).value, o.value)
  {
    hide Tracks, StopReasoning, CloseText, CloseTools, StatusOf, SealedBy;
    OpenView(sc);
    QuietedTracks(sc);
    hide ClosesOnly;
    var s1 := Quieted(sc);
    ClosesSame(sc, s1);
    CloseToolsTracks(env, s1, s1.toolOrder);
    var o := CloseTools(env, s1, s1.toolOrder);
    if o.Ok? {
      var s2 := o.value;
      ClosesOnlyTransitive(sc.(msgIndex := -1, thinkSeen := false, heldFinish := ""), s1, s2);
      ClosesSame(sc, s2);
      if forall i :: i in s2.toolOrder && i in s2.tools ==> s2.tools[i].responseDone {
        SealTracked(sc, s2);
      }
    }
  }

  lemma {:induction false} ClosesSame(sc: Conv, s: Conv)
    requires ClosesOnly(sc.(msgIndex := -1, thinkSeen := false, heldFinish := ""), s)
    ensures !TextOpen(s) && !ThinkOpen(s) && s.usage == sc.usage && s.nextIndex == sc.nextIndex && s.terminalSent == sc.terminalSent
    ensures s.finished == sc.finished && s.heldFinish == "" && s.id == sc.id && s.model == sc.model
  {
  }

  /** What the completed event says: every index below nextIndex is a stored,
      finished item, in order, and the client agrees. */
  ghost predicate SealedBy(sc: Conv, s2: Conv, s: Conv) {
    var completed := Completed(sc.id, sc.model, StatusAtEnd(sc), sc.usage, Output(s2.responseItems, s2.nextIndex));
    && Tracks(s2) && !TextOpen(s2) && !ThinkOpen(s2) && s2.nextIndex == sc.nextIndex && s2.finished == sc.finished && s2.heldFinish == ""
    && s2.id == sc.id && s2.model == sc.model
    && (forall i: nat :: i < s2.nextIndex ==> i in s2.responseItems)
    && |completed.output| == sc.nextIndex
    && s == Emit(s2.(terminalSent := true), completed)
    && Sealed(s) && Replay(s.log).trailing == 0 && Replay(s.log).completed == Some(completed)
  }

  lemma {:induction false} SealTracked(sc: Conv, s2: Conv)
    requires Tracks(s2) && !TextOpen(s2) && !ThinkOpen(s2) && s2.nextIndex == sc.nextIndex && s2.usage == sc.usage && s2.finished == sc.finished && s2.heldFinish == ""
    requires s2.id == sc.id && s2.model == sc.model
    requires forall i :: i in s2.toolOrder && i in s2.tools ==> s2.tools[i].responseDone
    ensures SealedBy(sc, s2, Emit(s2.(terminalSent := true), Completed(s2.id, s2.model, StatusAtEnd(sc), s2.usage, Output(s2.responseItems, s2.nextIndex))))
  {
    OrderIsTools(s2);
    OpenView(s2);
    hide Tracks, Live, Items, Sealed, StatusAtEnd;
    AllStored(s2);
    OutputComplete(s2.responseItems, s2.nextIndex);
    EmitCompleted(s2, s2.(terminalSent := true), Completed(s2.id, s2.model, StatusAtEnd(sc), s2.usage, Output(s2.responseItems, s2.nextIndex)));
  }

  lemma {:induction false} OrderIsTools(sc: Conv)
    requires Tracks(sc)
    ensures forall k :: k in sc.toolOrder <==> k in sc.tools
  {
  }

  // ---- after response.completed ----

  /** From `sc` to `s` nothing but further events happened: a sealed response
      stays sealed by the same completed event. */
  ghost predicate Follows(sc: Conv, s: Conv) {
    && s.terminalSent == sc.terminalSent && s.started == sc.started && s.usage == sc.usage && s.id == sc.id && s.model == sc.model
    && sc.respSequence <= s.respSequence
    && (if s.finished == sc.finished then s.heldFinish == sc.heldFinish else s.finished)
    && (Sealed(sc) ==> Sealed(s) && Replay(s.log).completed == Replay(sc.log).completed
                       && Replay(s.log).trailing == Replay(sc.log).trailing + (s.respSequence - sc.respSequence))
  }

  lemma {:induction false} FollowsQuietly(sc: Conv, s: Conv)
    requires s.log == sc.log && s.respSequence == sc.respSequence && s.terminalSent == sc.terminalSent && s.started == sc.started && s.usage == sc.usage
    requires s.finished == sc.finished && s.heldFinish == sc.heldFinish && s.id == sc.id && s.model == sc.model
    ensures Follows(sc, s)
  {
  }

  lemma {:induction false} FollowsEmit(sc: Conv, s: Conv, b: Body)
    requires Follows(sc, s) && !b.Completed?
    ensures Follows(sc, Emit(s, b))
  {
    ReplayAppend(s.log, Event(s.respSequence + 1, b));
  }

  lemma {:induction false} FollowsTransitive(r: Conv, s: Conv, t: Conv)
    requires Follows(r, s) && Follows(s, t)
    ensures Follows(r, t)
  {
  }

  lemma {:induction false} StopReasoningFollows(sc: Conv)
    ensures Follows(sc, StopReasoning(sc))
  {
    hide Follows, Emit;
    FollowsQuietly(sc, sc);
    if ThinkOpen(sc) {
      var i := AsIndex(sc.thinkIndexIn);
      var s1 := sc.(thinkStopped := true, responseItems := sc.responseItems[i := Reasoning(sc.thinkItemID, sc.thinkBuf)]);
      FollowsQuietly(sc, s1);
      FollowsEmit(sc, s1, TextDone(sc.thinkItemID, i, sc.thinkBuf));
      var s2 := Emit(s1, TextDone(sc.thinkItemID, i, sc.thinkBuf));
      FollowsEmit(sc, s2, PartDone(sc.thinkItemID, i, sc.thinkBuf));
      FollowsEmit(sc, Emit(s2, PartDone(sc.thinkItemID, i, sc.thinkBuf)), ItemDone(i, Reasoning(sc.thinkItemID, sc.thinkBuf)));
    }
  }

  lemma {:induction false} CloseTextFollows(sc: Conv, status: string)
    ensures Follows(sc, CloseText(sc, status))
  {
    hide Follows, Emit;
    FollowsQuietly(sc, sc);
    if TextOpen(sc) {
      var i := AsIndex(sc.msgIndex);
      var item := Message(sc.msgItemID, status, sc.respText);
      var s1 := sc.(textClosed := true, responseItems := sc.responseItems[i := item]);
      FollowsQuietly(sc, s1);
      FollowsEmit(sc, s1, TextDone(sc.msgItemID, i, sc.respText));
      var s2 := Emit(s1, TextDone(sc.msgItemID, i, sc.respText));
      FollowsEmit(sc, s2, PartDone(sc.msgItemID, i, sc.respText));
      FollowsEmit(sc, Emit(s2, PartDone(sc.msgItemID, i, sc.respText)), ItemDone(i, item));
    }
  }

  lemma {:induction false} TakeReasoningFollows(sc: Conv, thinking: string)
    ensures Follows(sc, TakeReasoning(sc, thinking))
  {
    hide Follows, Emit, CloseText;
    CloseTextFollows(sc, "completed");
    var s0 := CloseText(sc, "completed");
    OpenReasoningFollows(s0);
    var s1 := OpenReasoning(s0);
    var s2 := s1.(thinkBuf := s1.thinkBuf + thinking);
    hide OpenReasoning;
    FollowsQuietly(s1, s2);
    FollowsTransitive(sc, s0, s1);
    FollowsTransitive(sc, s1, s2);
    FollowsEmit(sc, s2, TextDelta(s1.thinkItemID, AsIndex(s1.thinkIndexIn), thinking));
  }

  lemma {:induction false} OpenReasoningFollows(sc: Conv)
    ensures Follows(sc, OpenReasoning(sc))
  {
    hide Follows, AddReasoning;
    var s1 := ResetReasoning(sc);
    FollowsQuietly(sc, s1);
    if !s1.thinkSeen {
      AddReasoningFollows(s1);
      FollowsTransitive(sc, s1, AddReasoning(s1));
    }
  }

  lemma {:induction false} AddReasoningFollows(sc: Conv)
    ensures Follows(sc, AddReasoning(sc))
  {
    hide Follows, Emit;
    var s1 := BeginReasoning(sc);
    FollowsQuietly(sc, s1);
    FollowsEmit(sc, s1, ItemAdded(sc.nextIndex, ReasoningShell(s1.thinkItemID)));
    FollowsEmit(sc, Emit(s1, ItemAdded(sc.nextIndex, ReasoningShell(s1.thinkItemID))), PartAdded(s1.thinkItemID, sc.nextIndex));
  }

  lemma {:induction false} OpenTextFollows(sc: Conv)
    ensures Follows(sc, OpenText(sc))
  {
    hide Follows, AddMessage, AddTextPart;
    FollowsQuietly(sc, sc);
    AddMessageFollows(sc);
    var s1 := if TextOpen(sc) then sc else AddMessage(sc);
    AddTextPartFollows(s1);
    FollowsTransitive(sc, s1, AddTextPart(s1));
  }

  lemma {:induction false} AddMessageFollows(sc: Conv)
    ensures Follows(sc, AddMessage(sc))
  {
    hide Follows, Emit;
    var id := MessageId(sc.id, sc.nextIndex);
    var blank := sc.(msgIndex := sc.nextIndex, nextIndex := sc.nextIndex + 1, msgItemID := id, textClosed := false,
                     textPartOpen := false, respText := "");
    FollowsQuietly(sc, blank);
    FollowsEmit(sc, blank, ItemAdded(sc.nextIndex, MessageShell(id)));
  }

  lemma {:induction false} AddTextPartFollows(sc: Conv)
    ensures Follows(sc, AddTextPart(sc))
  {
    hide Follows, Emit;
    FollowsQuietly(sc, sc.(textPartOpen := true));
    FollowsEmit(sc, sc.(textPartOpen := true), PartAdded(sc.msgItemID, AsIndex(sc.msgIndex)));
  }

  lemma {:induction false} TakeContentFollows(sc: Conv, content: string)
    ensures Follows(sc, TakeContent(sc, content))
  {
    hide Follows, Emit, StopReasoning;
    StopReasoningFollows(sc);
    var s0 := StopReasoning(sc);
    OpenTextFollows(s0);
    var s1 := OpenText(s0);
    var s2 := s1.(respText := s1.respText + content);
    hide OpenText;
    FollowsQuietly(s1, s2);
    FollowsTransitive(sc, s0, s1);
    FollowsTransitive(sc, s1, s2);
    FollowsEmit(sc, s2, TextDelta(s1.msgItemID, AsIndex(s1.msgIndex), content));
  }

  lemma {:induction false} AdvancedFollows(sc: Conv, index: int, after: Tool)
    requires index in sc.tools
    ensures Follows(sc, Advanced(sc, index, after))
  {
    hide Follows, Emit;
    var before := sc.tools[index];
    var s1 := sc.(tools := sc.tools[index := after]);
    FollowsQuietly(sc, s1);
    FollowsEmit(sc, s1, ItemAdded(after.blockIndex, ToolShell(after)));
    var s2 := if after.announced && !before.announced then Emit(s1, ItemAdded(after.blockIndex, ToolShell(after))) else s1;
    if after.announced && !after.custom && before.argsSent < |after.args| {
      FollowsEmit(sc, s2, ArgsDelta(after.id, after.blockIndex, after.args[before.argsSent..]));
    }
  }

  lemma {:induction false} TakeToolsFollows(env: Env, sc: Conv, deltas: seq<ToolDelta>)
    ensures var o := TakeTools(env, sc, deltas);
            o.Ok? ==> Follows(sc, o.value)
    decreases |deltas|
  {
    hide Follows, StopReasoning, CloseText, Emit, FlushArgs;
    FollowsQuietly(sc, sc);
    if deltas == [] {
    } else {
      var tc := deltas[0];
      StopReasoningFollows(sc);
      var s0 := StopReasoning(sc);
      CloseTextFollows(s0, "completed");
      var s1 := CloseText(s0, "completed");
      FollowsTransitive(sc, s0, s1);
      var s2 := OpenTool(s1, tc);
      FollowsQuietly(s1, s2);
      FollowsTransitive(sc, s1, s2);
      var after := Sent(Resolve(env.tools, Absorb(s2.tools[tc.index], tc)));
      AdvancedFollows(s2, tc.index, after);
      FollowsTransitive(sc, s2, Advanced(s2, tc.index, after));
      var o := TakeTool(env, sc, tc);
      if o.Ok? {
        assert o.value == Advanced(s2, tc.index, after);
        TakeToolsFollows(env, o.value, deltas[1..]);
        hide TakeTool;
        if TakeTools(env, sc, deltas).Ok? {
          FollowsTransitive(sc, o.value, TakeTools(env, sc, deltas).value);
        }
      }
    }
  }

  lemma {:induction false} FinishToolFollows(env: Env, sc: Conv, index: int)
    ensures var o := FinishTool(env, sc, index);
            o.Ok? ==> Follows(sc, o.value)
  {
    hide Follows, Emit;
    FollowsQuietly(sc, sc);
    if index in sc.tools {
      var before := sc.tools[index];
      var after := Sent(before.(announced := true));
      var s1 := sc.(tools := sc.tools[index := after]);
      FollowsQuietly(sc, s1);
      FollowsEmit(sc, s1, ItemAdded(after.blockIndex, FunctionShell(after.id, after.name, "")));
      var s2 := if !before.announced then Emit(s1, ItemAdded(after.blockIndex, FunctionShell(after.id, after.name, ""))) else s1;
      if !after.custom && before.argsSent < |after.args| {
        FollowsEmit(sc, s2, ArgsDelta(after.id, after.blockIndex, after.args[before.argsSent..]));
      }
    }
  }

  lemma {:induction false} FinishToolsFollows(env: Env, sc: Conv, order: seq<int>)
    ensures var o := FinishTools(env, sc, order);
            o.Ok? ==> Follows(sc, o.value)
    decreases |order|
  {
    hide Follows, FinishTool;
    FollowsQuietly(sc, sc);
    if order == [] {
    } else {
      FinishToolFollows(env, sc, order[0]);
      var o := FinishTool(env, sc, order[0]);
      if o.Ok? {
        FinishToolsFollows(env, o.value, order[1..]);
        if FinishTools(env, sc, order).Ok? {
          FollowsTransitive(sc, o.value, FinishTools(env, sc, order).value);
        }
      }
    }
  }

  lemma {:induction false} TakeChoiceFollows(env: Env, sc: Conv, choice: Choice)
    ensures var o := TakeChoice(env, sc, choice);
            o.Ok? ==> Follows(sc, o.value)
  {
    hide Follows, TakeReasoning, TakeContent, TakeTools, FinishTools, StopReasoning;
    FollowsQuietly(sc, sc);
    var s1 := if choice.reasoning.Some? then TakeReasoning(sc, choice.reasoning.value) else sc;
    if choice.reasoning.Some? {
      TakeReasoningFollows(sc, choice.reasoning.value);
    }
    var s2 := if choice.content != "" then TakeContent(s1, choice.content) else s1;
    FollowsQuietly(s1, s1);
    TakeContentFollows(s1, choice.content);
    FollowsTransitive(sc, s1, s2);
    TakeToolsFollows(env, s2, choice.toolCalls);
    var o := TakeTools(env, s2, choice.toolCalls);
    if o.Ok? {
      FollowsTransitive(sc, s2, o.value);
      if !o.value.finished {
        FinishFollows(env, o.value, choice.finish);
        if Finish(env, o.value, choice.finish).Ok? {
          FollowsTransitive(sc, o.value, Finish(env, o.value, choice.finish).value);
        }
      }
    }
  }

  lemma {:induction false} FinishFollows(env: Env, sc: Conv, finish: string)
    requires !sc.finished
    ensures var o := Finish(env, sc, finish);
            o.Ok? ==> Follows(sc, o.value)
  {
    hide Follows, FinishTools, StopReasoning;
    FinishToolsFollows(env, sc, sc.toolOrder);
    var o := FinishTools(env, sc, sc.toolOrder);
    if o.Ok? {
      var s := o.value.(finished := true, heldFinish := finish);
      Held(sc, o.value, s);
      StopReasoningFollows(s);
      FollowsTransitive(sc, s, StopReasoning(s));
    }
  }

  lemma {:induction false} Held(r: Conv, sc: Conv, s: Conv)
    requires Follows(r, sc) && !r.finished && s.finished && s == sc.(finished := true, heldFinish := s.heldFinish)
    ensures Follows(r, s)
  {
  }

  // ---- one chunk ----

  lemma {:induction false} TakeChoiceTracks(env: Env, sc: Conv, choice: Choice)
    requires Tracks(sc) && Undone(sc)
    ensures var o := TakeChoice(env, sc, choice);
            o.Ok? ==> Tracks(o.value) && Undone(o.value)
  {
    hide Tracks, TakeReasoning, TakeContent, TakeTools, Finish;
    var s1 := if choice.reasoning.Some? then TakeReasoning(sc, choice.reasoning.value) else sc;
    if choice.reasoning.Some? {
      TakeReasoningTracks(sc, choice.reasoning.value);
    }
    var s2 := if choice.content != "" then TakeContent(s1, choice.content) else s1;
    TakeContentTracks(s1, choice.content);
    TakeToolsTracks(env, s2, choice.toolCalls);
    var o := TakeTools(env, s2, choice.toolCalls);
    if o.Ok? {
      FinishTracks(env, o.value, choice.finish);
    }
  }

  lemma {:induction false} StartTracks(sc: Conv, chunk: Chunk)
    requires Untouched(sc) && !sc.started && chunk.choices != []
    ensures Tracks(Start(sc, chunk)) && Undone(Start(sc, chunk))
  {
    hide ToolView;
    var s := Start(sc, chunk);
    ReplayAppend([], Event(1, Created(chunk.id, chunk.model)));
    ReplayAppend([Event(1, Created(chunk.id, chunk.model))], Event(2, InProgress(chunk.id, chunk.model)));
    assert s.log == [Event(1, Created(chunk.id, chunk.model))] + [Event(2, InProgress(chunk.id, chunk.model))];
  }

  ghost function WithUsage(sc: Conv, chunk: Chunk): Conv {
    sc.(usage := if chunk.usage.Some? then chunk.usage else sc.usage)
  }

  /** A chunk after response.completed. */
  lemma {:induction false} ChunkAfterEnd(env: Env, sc: Conv, chunk: Chunk)
    requires sc.terminalSent && Sealed(sc) && sc.started
    ensures var o := TakeChunk(env, sc, chunk);
            o.Ok? ==> Follows(WithUsage(sc, chunk), o.value) && Follows(sc, o.value.(usage := sc.usage))
  {
    hide Follows, Sealed, TakeChoice, Emit;
    var s0 := WithUsage(sc, chunk);
    FollowsQuietly(s0, s0);
    FollowsQuietly(sc, sc);
    assert Start(s0, chunk) == s0;
    if chunk.choices != [] {
      TakeChoiceFollows(env, s0, chunk.choices[0]);
      var o := TakeChoice(env, s0, chunk.choices[0]);
      if o.Ok? {
        FollowsWithUsage(sc, s0, o.value);
      }
    }
  }

  lemma {:induction false} FollowsWithUsage(sc: Conv, s0: Conv, s: Conv)
    requires s0 == sc.(usage := s0.usage) && Follows(s0, s)
    ensures Follows(sc, s.(usage := sc.usage))
  {
  }

  /** The first chunk after finish_reason completes the response. */
  lemma {:induction false} ChunkEndsResponse(env: Env, sc: Conv, chunk: Chunk)
    requires Tracks(sc) && !sc.terminalSent && sc.heldFinish != "" && TakeChunk(env, sc, chunk).Ok?
    ensures var s0 := WithUsage(sc, chunk);
            var s := TakeChunk(env, sc, chunk).value;
            && Tracks(s0) && BeforeCompleted(env, s0).Ok? && Terminal(env, s0, false).Ok?
            && SealedBy(s0, BeforeCompleted(env, s0).value, Terminal(env, s0, false).value)
            && Follows(Terminal(env, s0, false).value, s)
            && s.terminalSent && s.started && Sealed(s)
  {
    var s0 := WithUsage(sc, chunk);
    Irrelevant(sc, s0);
    hide Tracks, Sealed, TakeChoice, Terminal, Emit, SealedBy, BeforeCompleted;
    TerminalSeals(env, s0, false);
    var o := Terminal(env, s0, false);
    SealedByIs(s0, BeforeCompleted(env, s0).value, o.value);
    assert Start(o.value, chunk) == o.value;
    FollowsQuietly(o.value, o.value);
    if chunk.choices != [] {
      TakeChoiceFollows(env, o.value, chunk.choices[0]);
    }
  }

  lemma {:induction false} SealedByIs(sc: Conv, s2: Conv, s: Conv)
    requires SealedBy(sc, s2, s)
    ensures Sealed(s) && s.terminalSent && s.started
  {
    hide Live, Items, Sealed, Output, ToolsOk, OpenOk, Covered, Mirror;
  }

  /** Any other chunk extends the response. */
  lemma {:induction false} ChunkExtends(env: Env, sc: Conv, chunk: Chunk)
    requires !sc.terminalSent && sc.heldFinish == "" && Inv(sc) && TakeChunk(env, sc, chunk).Ok?
    ensures var s := TakeChunk(env, sc, chunk).value;
            Inv(s) && !s.terminalSent
  {
    var s0 := WithUsage(sc, chunk);
    Irrelevant(sc, s0);
    hide Tracks, Undone, TakeChoice, Emit;
    if chunk.choices != [] {
      var s1 := Start(s0, chunk);
      if !sc.started {
        StartTracks(s0, chunk);
      }
      StartFlags(s0, chunk);
      hide Start, Untouched;
      TakeChoiceTracks(env, s1, chunk.choices[0]);
      TakeChoiceKeepsFlags(env, s1, chunk.choices[0]);
    }
  }

  lemma {:induction false} StartFlags(sc: Conv, chunk: Chunk)
    ensures chunk.choices != [] ==> Start(sc, chunk).started
    ensures Start(sc, chunk).terminalSent == sc.terminalSent
  {
  }

  lemma {:induction false} TakeChoiceKeepsFlags(env: Env, sc: Conv, choice: Choice)
    ensures var o := TakeChoice(env, sc, choice);
            o.Ok? ==> o.value.terminalSent == sc.terminalSent && o.value.started == sc.started
                      && o.value.id == sc.id && o.value.model == sc.model
  {
    hide Sealed, TakeChoice;
    TakeChoiceFollows(env, sc, choice);
  }

  lemma {:induction false} TakeChunkKeepsInvariant(env: Env, sc: Conv, chunk: Chunk)
    requires Inv(sc) && TakeChunk(env, sc, chunk).Ok?
    ensures Inv(TakeChunk(env, sc, chunk).value)
  {
    hide Tracks, TakeChunk, Undone, Untouched;
    if sc.terminalSent {
      ChunkAfterEnd(env, sc, chunk);
    } else if sc.heldFinish != "" {
      HeldIsStarted(sc);
      ChunkEndsResponse(env, sc, chunk);
    } else {
      ChunkExtends(env, sc, chunk);
    }
  }

  lemma {:induction false} HeldIsStarted(sc: Conv)
    requires Inv(sc) && !sc.terminalSent && sc.heldFinish != ""
    ensures Tracks(sc)
  {
  }

  // ---- whole runs ----

  /** Feeding chunks one after another; an error ends the run. */
  function Run(env: Env, chunks: seq<Chunk>): ChatToResponses.Outcome {
    if chunks == [] then Ok(FRESH)
    else
      var sc :- Run(env, chunks[..|chunks| - 1]);
      TakeChunk(env, sc, chunks[|chunks| - 1])
  }

  /** A response that is open after a chunk was open before it, with nothing held. */
  lemma {:induction false} StillOpen(env: Env, sc: Conv, chunk: Chunk)
    requires Inv(sc) && TakeChunk(env, sc, chunk).Ok? && !TakeChunk(env, sc, chunk).value.terminalSent
    ensures !sc.terminalSent && sc.heldFinish == ""
  {
    hide Tracks, Undone, TakeChunk, Sealed, SealedBy, Untouched;
    if sc.terminalSent {
      ChunkAfterEnd(env, sc, chunk);
    } else if sc.heldFinish != "" {
      HeldIsStarted(sc);
      ChunkEndsResponse(env, sc, chunk);
    }
  }

  lemma {:induction false} RunKeepsInvariant(env: Env, chunks: seq<Chunk>)
    requires Run(env, chunks).Ok?
    ensures Inv(Run(env, chunks).value)
  {
    hide Tracks, TakeChunk, Undone, Sealed;
    if chunks == [] {
    } else {
      RunKeepsInvariant(env, chunks[..|chunks| - 1]);
      hide Inv;
      TakeChunkKeepsInvariant(env, Run(env, chunks[..|chunks| - 1]).value, chunks[|chunks| - 1]);
    }
  }

  /** What the invariant says about the log. */
  lemma {:induction false} InvIsAccepted(sc: Conv)
    requires Inv(sc)
    ensures Replay(sc.log).Client? && Numbered(sc.log)
    ensures sc.terminalSent <==> Replay(sc.log).completed.Some?
    ensures sc.terminalSent ==> exists k :: WellCompleted(sc.log, k)
    ensures !sc.terminalSent ==> forall j :: 0 <= j < |sc.log| ==> !sc.log[j].body.Completed?
  {
    hide ToolsOk, OpenOk, Covered, Mirror;
    AcceptedIsNumbered(sc.log);
    if sc.terminalSent {
      var k := AcceptedIsWellCompleted(sc.log);
    } else {
      OpenHasNoCompleted(sc.log);
    }
  }

  /** For every stream: the strict client accepts all events emitted so far, and
      once the response is completed the log is well completed for good. */
  lemma {:induction false} EveryRunIsAccepted(env: Env, chunks: seq<Chunk>)
    requires Run(env, chunks).Ok?
    ensures var sc := Run(env, chunks).value;
            && Replay(sc.log).Client? && Numbered(sc.log)
            && (sc.terminalSent <==> Replay(sc.log).completed.Some?)
            && (sc.terminalSent ==> exists k :: WellCompleted(sc.log, k))
            && (!sc.terminalSent ==> forall j :: 0 <= j < |sc.log| ==> !sc.log[j].body.Completed?)
  {
    hide Inv, Run;
    RunKeepsInvariant(env, chunks);
    InvIsAccepted(Run(env, chunks).value);
  }
}
