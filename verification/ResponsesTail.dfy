/** The Responses -> Claude leg behind a terminal event: exactly which upstream
    streams the client refuses. */
module ResponsesTail {
  import opened Common
  import opened ClaudeProtocol
  import opened ResponsesToClaude
  import opened ResponsesFocus

  /** Where a stream stands, by its events alone. A terminal event that cuts a text
      run makes the run stale; the next call leaves it so, and only another call
      begun while that one is open clears it. More text in between is refused. */
  datatype Course = Fine | Stale(open: bool) | Refused

  function Moved(c: Course, f: Focus, e: Upstream): Course {
    match c
    case Fine => if e.Ended? && f.cursor == InText then Stale(false) else Fine
    case Stale(open) =>
      if e.TextDelta? then Refused
      else if Begins(f, e).Some? then (if open then Fine else Stale(true))
      else if e.Ended? then Stale(false)
      else c
    case Refused => Refused
  }

  function CourseOf(events: seq<Upstream>): Course {
    if events == [] then Fine
    else Moved(CourseOf(events[..|events| - 1]), FocusOn(events[..|events| - 1]), events[|events| - 1])
  }

  // ---- converter and client, terminal events included ----

  /** Block starts in order and at most the newest block open, as the converter knows. */
  ghost predicate Loose(sc: Conv) {
    var c := Replay(sc.log);
    && c.Client? && |c.blocks| == sc.nextIndex
    && (sc.openBlocks == [] || (sc.nextIndex > 0 && sc.openBlocks == [sc.nextIndex - 1]))
    && (LastOpen(c.blocks) <==> sc.openBlocks != [])
    && (forall i :: 0 <= i < |c.blocks| - 1 ==> !c.blocks[i].open)
    && (forall k :: k in sc.tracker.calls ==> sc.tracker.calls[k] < |c.blocks| && c.blocks[sc.tracker.calls[k]].kind.ToolUse?)
  }

  ghost predicate TextLive(sc: Conv)
    requires Loose(sc)
  {
    var blocks := Replay(sc.log).blocks;
    sc.openBlocks != [] && 0 <= sc.textIndex == |blocks| - 1 && blocks[|blocks| - 1].kind.Text?
  }

  ghost predicate TextStale(sc: Conv)
    requires Loose(sc)
  {
    var blocks := Replay(sc.log).blocks;
    0 <= sc.textIndex < |blocks| && blocks[sc.textIndex].kind.Text? && !blocks[sc.textIndex].open
  }

  ghost predicate Stands(sc: Conv, c: Course, inText: bool) {
    match c
    case Fine => Loose(sc) && sc.textOpen == inText && (sc.textOpen ==> TextLive(sc))
    case Stale(open) => Loose(sc) && sc.textOpen && TextStale(sc) && (open <==> sc.openBlocks != [])
    case Refused => Replay(sc.log).Rejected?
  }

  // ---- one event ----

  lemma {:induction false} StopsOpen(sc: Conv)
    requires Loose(sc)
    ensures var c, c2 := Replay(sc.log), Replay(StopAll(sc.log, sc.openBlocks));
            && c2.Client? && |c2.blocks| == |c.blocks| && !LastOpen(c2.blocks)
            && forall i :: 0 <= i < |c.blocks| ==> c2.blocks[i] == c.blocks[i].(open := false)
  {
    if sc.openBlocks != [] {
      ReplayAppend(sc.log, BlockStop(sc.openBlocks[0]));
      assert sc.openBlocks[1..] == [];
      assert StopAll(sc.log + [BlockStop(sc.openBlocks[0])], []) == sc.log + [BlockStop(sc.openBlocks[0])];
    }
  }

  /** Opening the newest block; `s1` may already know its index. */
  lemma {:induction false} Opened(sc: Conv, s1: Conv, kind: Kind)
    requires Loose(sc) && s1.log == sc.log && s1.openBlocks == sc.openBlocks && s1.textOpen == sc.textOpen
    ensures var s := OpenBlock(s1, sc.nextIndex, kind);
            var c, c2 := Replay(sc.log), Replay(s.log);
            && c2.Client? && |c2.blocks| == |c.blocks| + 1 && c2.blocks[|c.blocks|] == Block(kind, "", true)
            && (forall i :: 0 <= i < |c.blocks| ==> c2.blocks[i] == c.blocks[i].(open := false))
            && s == s1.(log := s.log, openBlocks := [sc.nextIndex], textOpen := sc.textOpen && sc.openBlocks == [])
  {
    hide Replay, StopAll;
    StopsOpen(sc);
    StartedGrew(StopAll(sc.log, sc.openBlocks), sc.nextIndex, kind);
    assert sc.openBlocks == [] ==> StopAll(sc.log, sc.openBlocks) == sc.log by {
      StopNothing(sc.log);
    }
  }

  lemma {:induction false} StopNothing(log: seq<Event>)
    ensures StopAll(log, []) == log
  {
  }

  lemma {:induction false} RefusedForGood(log: seq<Event>, e: Event)
    requires Replay(log).Rejected?
    ensures Replay(log + [e]).Rejected?
  {
    ReplayAppend(log, e);
  }

  lemma {:induction false} StopsRefused(log: seq<Event>, open: seq<nat>)
    requires Replay(log).Rejected?
    ensures Replay(StopAll(log, open)).Rejected?
    decreases |open|
  {
    if open == [] {
    } else {
      RefusedForGood(log, BlockStop(open[0]));
      StopsRefused(log + [BlockStop(open[0])], open[1..]);
    }
  }

  lemma {:induction false} OpenRefused(sc: Conv, index: nat, kind: Kind)
    requires Replay(sc.log).Rejected?
    ensures Replay(OpenBlock(sc, index, kind).log).Rejected?
  {
    hide Replay;
    StopsRefused(sc.log, sc.openBlocks);
    RefusedForGood(CloseOpenBlocks(sc).log, BlockStart(index, kind));
  }

  lemma {:induction false} TakeRefused(sc: Conv, e: Upstream)
    requires Replay(sc.log).Rejected?
    ensures Replay(Take(sc, e).log).Rejected?
  {
    hide Replay, OpenBlock, StopAll, Reason, Resolve;
    match e
    case Created(id, model) =>
      RefusedForGood(sc.log, MessageStart(if id != "" then id else sc.id, if model != "" then model else sc.model, 0));
    case TextDelta(delta) =>
      OpenRefused(sc, sc.nextIndex, Text);
      var s := if sc.textOpen then sc else OpenText(sc);
      RefusedForGood(s.log, BlockDelta(AsNat(s.textIndex), ClaudeProtocol.TextDelta(delta)));
    case Item(isCall, callId, itemId, name, args) =>
      if isCall {
        var r := Resolve(sc.tracker.calls, callId, itemId, sc.nextIndex);
        var deliver := args != "" && r.1 !in sc.tracker.delivered;
        var delivered := if deliver then sc.tracker.delivered + {r.1} else sc.tracker.delivered;
        var s1 := Announced(sc, r, delivered, true, ToolUse(callId, name));
        OpenRefused(WithTracker(sc.(toolCallsSeen := true), r, delivered), r.1, ToolUse(callId, name));
        RefusedForGood(s1.log, BlockDelta(r.1, JsonDelta(args)));
      }
    case ArgsDelta(itemId, delta) =>
      var r := Resolve(sc.tracker.calls, itemId, "", sc.nextIndex);
      var s1 := Announced(sc, r, sc.tracker.delivered + {r.1}, sc.toolCallsSeen, ToolUse(itemId, ""));
      OpenRefused(WithTracker(sc, r, sc.tracker.delivered + {r.1}), r.1, ToolUse(itemId, ""));
      RefusedForGood(s1.log, BlockDelta(r.1, JsonDelta(delta)));
    case Ended(incomplete, counts) =>
      StopsRefused(sc.log, sc.openBlocks);
      var stopped := StopAll(sc.log, sc.openBlocks);
      RefusedForGood(stopped, MessageDelta(Reason(sc, incomplete), counts));
      RefusedForGood(stopped + [MessageDelta(Reason(sc, incomplete), counts)], MessageStop);
    case Informational =>
  }

  lemma {:induction false} CreatedStands(sc: Conv, c: Course, inText: bool, e: Upstream)
    requires Stands(sc, c, inText) && !c.Refused? && e.Created?
    ensures Stands(Take(sc, e), c, inText)
  {
    hide Replay;
    var id := if e.id != "" then e.id else sc.id;
    var model := if e.model != "" then e.model else sc.model;
    MessageStarted(sc.log, MessageStart(id, model, 0));
  }

  /** Text goes to the live block, opens a new one, or is refused by the stale one. */
  lemma {:induction false} TextStands(sc: Conv, c: Course, inText: bool, e: Upstream)
    requires Stands(sc, c, inText) && !c.Refused? && e.TextDelta?
    ensures Stands(Take(sc, e), if c.Fine? then Fine else Refused, true)
  {
    hide Replay, Grew;
    var d := ClaudeProtocol.TextDelta(e.delta);
    if c.Stale? {
      StaleRefuses(sc.log, sc.textIndex, d);
    } else if sc.textOpen {
      WriteGood(sc.log, sc.textIndex, d);
    } else {
      Opened(sc, sc, Text);
      hide OpenBlock;
      WriteGood(OpenText(sc).log, sc.nextIndex, d);
    }
  }

  lemma {:induction false} StaleRefuses(log: seq<Event>, i: nat, d: Delta)
    requires var c := Replay(log);
             c.Client? && i < |c.blocks| && !c.blocks[i].open && !d.JsonDelta?
    ensures Replay(log + [BlockDelta(i, d)]).Rejected?
  {
    ReplayAppend(log, BlockDelta(i, d));
  }

  /** The course once an event has begun a call, or not. */
  function Cleared(c: Course, begun: bool): Course {
    if !begun || c == Fine then c else if c == Stale(true) then Fine else Stale(true)
  }

  /** A call that begins closes what is open, and the text run with it. */
  lemma {:induction false} BegunStands(sc: Conv, c: Course, inText: bool, s1: Conv, kind: Kind)
    requires Stands(sc, c, inText) && !c.Refused? && kind.ToolUse?
    requires s1 == sc.(tracker := s1.tracker, toolCallsSeen := s1.toolCallsSeen, nextIndex := sc.nextIndex + 1)
    requires forall k :: k in s1.tracker.calls ==> (k in sc.tracker.calls && s1.tracker.calls[k] == sc.tracker.calls[k])
                                                   || s1.tracker.calls[k] == sc.nextIndex
    ensures var s := OpenBlock(s1, sc.nextIndex, kind);
            && Stands(s, Cleared(c, true), false) && s.nextIndex == sc.nextIndex + 1
            && Replay(s.log).Client? && sc.nextIndex < |Replay(s.log).blocks| && Replay(s.log).blocks[sc.nextIndex].kind.ToolUse?
  {
    hide Replay;
    Opened(sc, s1, kind);
    hide OpenBlock;
  }

  lemma {:induction false} AnnouncedStands(sc: Conv, c: Course, inText: bool, key: string, alias: string, delivered: set<nat>, seen: bool,
                                           kind: Kind)
    requires Stands(sc, c, inText) && !c.Refused? && kind.ToolUse?
    ensures var r := Resolve(sc.tracker.calls, key, alias, sc.nextIndex);
            var s := Announced(sc, r, delivered, seen, kind);
            && Stands(s, Cleared(c, r.0), inText && !r.0)
            && Replay(s.log).Client? && r.1 < |Replay(s.log).blocks| == s.nextIndex && Replay(s.log).blocks[r.1].kind.ToolUse?
  {
    hide Replay, OpenBlock;
    var r := Resolve(sc.tracker.calls, key, alias, sc.nextIndex);
    if r.0 {
      BegunStands(sc, c, inText, WithTracker(sc.(toolCallsSeen := seen), r, delivered), kind);
    }
  }

  /** Arguments reach their block, open or not. */
  lemma {:induction false} ArgumentsStand(sc: Conv, c: Course, inText: bool, i: nat, args: string)
    requires Stands(sc, c, inText) && !c.Refused? && i < sc.nextIndex && Replay(sc.log).blocks[i].kind.ToolUse?
    ensures Stands(Emit(sc, BlockDelta(i, JsonDelta(args))), c, inText)
  {
    hide Replay, Grew;
    WriteGood(sc.log, i, JsonDelta(args));
  }

  lemma {:induction false} CallStands(sc: Conv, c: Course, inText: bool, e: Upstream)
    requires Stands(sc, c, inText) && !c.Refused? && (e.Item? || e.ArgsDelta?)
    ensures var begun := Opens(sc, e).Some?;
            Stands(Take(sc, e), Cleared(c, begun), inText && !begun)
  {
    hide Stands, OpenBlock, Replay;
    if e.ArgsDelta? {
      var r := Resolve(sc.tracker.calls, e.itemId, "", sc.nextIndex);
      AnnouncedStands(sc, c, inText, e.itemId, "", sc.tracker.delivered + {r.1}, sc.toolCallsSeen, ToolUse(e.itemId, ""));
      var s1 := Announced(sc, r, sc.tracker.delivered + {r.1}, sc.toolCallsSeen, ToolUse(e.itemId, ""));
      ArgumentsStand(s1, Cleared(c, r.0), inText && !r.0, r.1, e.delta);
    } else if e.isCall {
      var r := Resolve(sc.tracker.calls, e.callId, e.itemId, sc.nextIndex);
      var deliver := e.args != "" && r.1 !in sc.tracker.delivered;
      var delivered := if deliver then sc.tracker.delivered + {r.1} else sc.tracker.delivered;
      AnnouncedStands(sc, c, inText, e.callId, e.itemId, delivered, true, ToolUse(e.callId, e.name));
      var s1 := Announced(sc, r, delivered, true, ToolUse(e.callId, e.name));
      ArgumentsStand(s1, Cleared(c, r.0), inText && !r.0, r.1, e.args);
    }
  }

  /** The terminal event stops the open block and forgets only that it is open. */
  lemma {:induction false} EndStands(sc: Conv, c: Course, inText: bool, e: Upstream)
    requires Stands(sc, c, inText) && !c.Refused? && e.Ended?
    ensures Stands(Take(sc, e), if c == Fine && !inText then Fine else Stale(false), inText)
  {
    hide Replay, StopAll, Reason;
    StopsOpen(sc);
    MessageEnded(StopAll(sc.log, sc.openBlocks), MessageDelta(Reason(sc, e.incomplete), e.counts));
  }

  // ---- whole streams ----

  /** Converter and focus know the same identifiers, terminal events or not. */
  lemma {:induction false} SameKeys(events: seq<Upstream>)
    ensures Run(events).tracker.calls.Keys == FocusOn(events).known.Keys
  {
    hide Take, Writes;
    if events == [] {
      assert Run(events) == FRESH && FocusOn(events) == AWAY;
    } else {
      SameKeys(events[..|events| - 1]);
      TrackerOf(Run(events[..|events| - 1]), events[|events| - 1]);
    }
  }

  lemma {:induction false} BeginsIsOpens(sc: Conv, f: Focus, e: Upstream)
    requires sc.tracker.calls.Keys == f.known.Keys && !e.TextDelta?
    ensures Begins(f, e).Some? <==> Opens(sc, e).Some?
  {
  }

  lemma {:induction false} TakeStands(sc: Conv, c: Course, f: Focus, e: Upstream)
    requires Stands(sc, c, f.cursor == InText) && sc.tracker.calls.Keys == f.known.Keys
    ensures Stands(Take(sc, e), Moved(c, f, e), Look(f, e).cursor == InText)
  {
    hide Stands, Take, Opens;
    if c.Refused? {
      IsRefused(sc, f.cursor == InText);
      TakeRefused(sc, e);
      RefusedStands(Take(sc, e), Look(f, e).cursor == InText);
    } else {
      var inText := f.cursor == InText;
      match e
      case Created(_, _) => CreatedStands(sc, c, inText, e);
      case TextDelta(_) => TextStands(sc, c, inText, e);
      case Item(_, _, _, _, _) => BeginsIsOpens(sc, f, e); CallStands(sc, c, inText, e);
      case ArgsDelta(_, _) => BeginsIsOpens(sc, f, e); CallStands(sc, c, inText, e);
      case Ended(_, _) => EndStands(sc, c, inText, e);
      case Informational => SilentTake(sc, e);
    }
  }

  lemma {:induction false} SilentTake(sc: Conv, e: Upstream)
    requires e.Informational?
    ensures Take(sc, e) == sc
  {
  }

  lemma {:induction false} IsRefused(sc: Conv, inText: bool)
    requires Stands(sc, Refused, inText)
    ensures Replay(sc.log).Rejected?
  {
  }

  lemma {:induction false} RefusedStands(sc: Conv, inText: bool)
    requires Replay(sc.log).Rejected?
    ensures Stands(sc, Refused, inText)
  {
  }

  lemma {:induction false} RunStands(events: seq<Upstream>)
    ensures Stands(Run(events), CourseOf(events), FocusOn(events).cursor == InText)
  {
    hide Stands, Take, Moved, Look;
    if events == [] {
      FreshStands();
    } else {
      var shorter, e := events[..|events| - 1], events[|events| - 1];
      RunStands(shorter);
      SameKeys(shorter);
      TakeStands(Run(shorter), CourseOf(shorter), FocusOn(shorter), e);
    }
  }

  lemma {:induction false} FreshStands()
    ensures Stands(FRESH, Fine, false)
  {
  }

  /** For every stream of events, with any number of terminal events anywhere: the
      client refuses what the converter sends exactly if text arrives for a run that
      a terminal event has cut and no second call has cleared. */
  lemma {:induction false} RefusedIffStaleText(events: seq<Upstream>)
    ensures Replay(Run(events).log).Rejected? <==> CourseOf(events).Refused?
  {
    hide Run, CourseOf, FocusOn, Replay, TextLive, TextStale;
    RunStands(events);
  }

  lemma {:induction false} Step(events: seq<Upstream>, e: Upstream)
    ensures CourseOf(events + [e]) == Moved(CourseOf(events), FocusOn(events), e)
    ensures FocusOn(events + [e]) == Look(FocusOn(events), e)
  {
    hide Moved, Look;
    assert (events + [e])[..|events|] == events;
  }

  lemma {:induction false} NothingYet()
    ensures CourseOf([]) == Fine && FocusOn([]) == AWAY
  {
  }

  lemma {:induction false} TextMoves(f: Focus, e: Upstream)
    requires e.TextDelta?
    ensures Moved(Fine, f, e) == Fine && Moved(Stale(true), f, e) == Refused
    ensures Look(f, e).cursor == InText && Look(f, e).known == f.known
  {
  }

  lemma {:induction false} EndMoves(f: Focus, e: Upstream)
    requires e.Ended?
    ensures f.cursor == InText ==> Moved(Fine, f, e) == Stale(false)
    ensures Look(f, e).known == f.known
  {
  }

  lemma {:induction false} CallMoves(f: Focus, e: Upstream)
    requires e.Item? && e.isCall && f.known == map[]
    ensures Moved(Stale(false), f, e) == Stale(true)
  {
  }

  /** A call between the terminal event and the text does not help. */
  lemma {:induction false} OneCallDoesNotClear(e0: Upstream, e1: Upstream, e2: Upstream, e3: Upstream)
    requires e0.TextDelta? && e1.Ended? && e2.Item? && e2.isCall && e3.TextDelta?
    ensures Replay(Run([e0, e1, e2, e3]).log).Rejected?
  {
    hide Moved, Look, CourseOf, FocusOn, Run, Replay;
    NothingYet();
    Step([], e0);
    TextMoves(AWAY, e0);
    Step([] + [e0], e1);
    EndMoves(FocusOn([] + [e0]), e1);
    Step([] + [e0] + [e1], e2);
    CallMoves(FocusOn([] + [e0] + [e1]), e2);
    Step([] + [e0] + [e1] + [e2], e3);
    TextMoves(FocusOn([] + [e0] + [e1] + [e2]), e3);
    assert [] + [e0] + [e1] + [e2] + [e3] == [e0, e1, e2, e3];
    RefusedIffStaleText([e0, e1, e2, e3]);
  }
}
