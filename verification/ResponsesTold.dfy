/** What the Responses -> Claude leg tells around the content, for every list of
    upstream events: each message_start, message_delta and message_stop. */
module ResponsesTold {
  import opened Common
  import opened ClaudeProtocol
  import opened ResponsesToClaude

  /** The last response id told, or the stand-in. */
  function IdTold(events: seq<Upstream>): string {
    if events == [] then "commandcode"
    else
      var e := events[|events| - 1];
      if e.Created? && e.id != "" then e.id else IdTold(events[..|events| - 1])
  }

  function ModelTold(events: seq<Upstream>): string {
    if events == [] then ""
    else
      var e := events[|events| - 1];
      if e.Created? && e.model != "" then e.model else ModelTold(events[..|events| - 1])
  }

  /** Some item was a function call. */
  predicate Called(events: seq<Upstream>) {
    events != [] && ((events[|events| - 1].Item? && events[|events| - 1].isCall) || Called(events[..|events| - 1]))
  }

  /** What the client is told: a start for each response, and at its end the stop
      reason, where calls outrank an incomplete status, and the stop. */
  function MetaTold(events: seq<Upstream>): seq<Event> {
    if events == [] then []
    else
      var before, e := events[..|events| - 1], events[|events| - 1];
      MetaTold(before)
      + (match e
         case Created(_, _) => [MessageStart(IdTold(events), ModelTold(events), 0)]
         case Ended(incomplete, counts) =>
           [MessageDelta(if Called(before) then "tool_use" else if incomplete then "max_tokens" else "end_turn", counts), MessageStop]
         case _ => [])
  }

  /** From `log` to `log2` only block events were sent. */
  ghost predicate Beside(log: seq<Event>, log2: seq<Event>) { Meta(log2) == Meta(log) }

  lemma {:induction false} StopsBeside(log: seq<Event>, open: seq<nat>)
    ensures Beside(log, StopAll(log, open))
    decreases |open|
  {
    if open == [] {
    } else {
      MetaAppend(log, BlockStop(open[0]));
      StopsBeside(log + [BlockStop(open[0])], open[1..]);
      assert Meta(log) + [] == Meta(log);
    }
  }

  lemma {:induction false} OpenBeside(sc: Conv, index: nat, kind: Kind)
    ensures var s := OpenBlock(sc, index, kind);
            Beside(sc.log, s.log) && s.id == sc.id && s.model == sc.model && s.toolCallsSeen == sc.toolCallsSeen
  {
    hide Meta;
    StopsBeside(sc.log, sc.openBlocks);
    MetaAppend(CloseOpenBlocks(sc).log, BlockStart(index, kind));
    assert Meta(sc.log) + [] == Meta(sc.log);
  }

  lemma {:induction false} TakeTells(sc: Conv, e: Upstream)
    ensures var s := Take(sc, e);
            && s.id == (if e.Created? && e.id != "" then e.id else sc.id)
            && s.model == (if e.Created? && e.model != "" then e.model else sc.model)
            && (s.toolCallsSeen <==> sc.toolCallsSeen || (e.Item? && e.isCall))
            && Meta(s.log) == Meta(sc.log)
                              + match e
                                case Created(_, _) => [MessageStart(s.id, s.model, 0)]
                                case Ended(incomplete, counts) =>
                                  [MessageDelta(if sc.toolCallsSeen then "tool_use" else if incomplete then "max_tokens" else "end_turn", counts),
                                   MessageStop]
                                case _ => []
  {
    hide Meta, OpenBlock, Resolve, Bind, StopAll;
    assert forall m: seq<Event> :: m + [] == m;
    match e
    case Created(id, model) =>
      MetaAppend(sc.log, MessageStart(if id != "" then id else sc.id, if model != "" then model else sc.model, 0));
    case TextDelta(delta) =>
      OpenBeside(sc, sc.nextIndex, Text);
      var s := if sc.textOpen then sc else OpenText(sc);
      MetaAppend(s.log, BlockDelta(AsNat(s.textIndex), ClaudeProtocol.TextDelta(delta)));
    case Item(isCall, callId, itemId, name, args) =>
      if isCall {
        var r := Resolve(sc.tracker.calls, callId, itemId, sc.nextIndex);
        var deliver := args != "" && r.1 !in sc.tracker.delivered;
        var s1 := WithTracker(sc.(toolCallsSeen := true), r, if deliver then sc.tracker.delivered + {r.1} else sc.tracker.delivered);
        OpenBeside(s1, r.1, ToolUse(callId, name));
        var s2 := if r.0 then OpenBlock(s1, r.1, ToolUse(callId, name)) else s1;
        MetaAppend(s2.log, BlockDelta(r.1, JsonDelta(args)));
      }
    case ArgsDelta(itemId, delta) =>
      var r := Resolve(sc.tracker.calls, itemId, "", sc.nextIndex);
      var s1 := WithTracker(sc, r, sc.tracker.delivered + {r.1});
      OpenBeside(s1, r.1, ToolUse(itemId, ""));
      var s2 := if r.0 then OpenBlock(s1, r.1, ToolUse(itemId, "")) else s1;
      MetaAppend(s2.log, BlockDelta(r.1, JsonDelta(delta)));
    case Ended(incomplete, counts) =>
      StopsBeside(sc.log, sc.openBlocks);
      var log := StopAll(sc.log, sc.openBlocks);
      var told := MessageDelta(Reason(sc, incomplete), counts);
      MetaAppend(log, told);
      MetaAppend(log + [told], MessageStop);
      assert Meta(sc.log) + [told] + [MessageStop] == Meta(sc.log) + [told, MessageStop];
    case Informational =>
  }

  /** For every stream the message-level events are exactly those its upstream
      events call for. */
  lemma {:induction false} StreamTellsExactly(events: seq<Upstream>)
    ensures var sc := Run(events);
            && Meta(sc.log) == MetaTold(events) && sc.id == IdTold(events) && sc.model == ModelTold(events)
            && (sc.toolCallsSeen <==> Called(events))
  {
    hide Take, Meta;
    if events == [] {
      assert Meta([]) == [] by {
        NothingTold();
      }
    } else {
      StreamTellsExactly(events[..|events| - 1]);
      TakeTells(Run(events[..|events| - 1]), events[|events| - 1]);
    }
  }

  lemma {:induction false} NothingTold()
    ensures Meta([]) == []
  {
  }
}
