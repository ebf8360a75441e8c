/** The Responses -> Claude stream converter (internal/adapter/responses/stream.go):
    the announce-or-replay table for calls and the one-open-block discipline. */
module ResponsesToClaude {
  import opened Common
  import opened ClaudeProtocol

  /** Decoded upstream frames; `Item` is output_item.added or .done. */
  datatype Upstream =
    | Created(id: string, model: string)
    | TextDelta(delta: string)
    | Item(isCall: bool, callId: string, itemId: string, name: string, args: string)
    | ArgsDelta(itemId: string, delta: string)
    | Ended(incomplete: bool, counts: Counts)
    | Informational

  /** The source's table of call records: a record is known by its index, which
      no other record shares, and `delivered` holds those whose arguments went out. */
  datatype Tracker = Tracker(calls: map<string, nat>, delivered: set<nat>)

  datatype Conv = Conv(id: string, model: string, toolCallsSeen: bool, textIndex: int, textOpen: bool, nextIndex: nat,
                       openBlocks: seq<nat>, tracker: Tracker, log: seq<Event>)

  const FRESH := Conv("commandcode", "", false, -1, false, 0, [], Tracker(map[], {}), [])

  function Emit(sc: Conv, e: Event): Conv { sc.(log := sc.log + [e]) }

  function Bind(calls: map<string, nat>, key: string, index: nat): map<string, nat> {
    if key == "" then calls else calls[key := index]
  }

  /** Resolve a call by either identifier, binding both; `fresh` is the index a
      new record gets. */
  function Resolve(calls: map<string, nat>, key: string, alias: string, next: nat): (r: (bool, nat, map<string, nat>))
    ensures r.1 == if key in calls then calls[key] else if alias in calls then calls[alias] else next
  {
    if key in calls then (false, calls[key], Bind(calls, alias, calls[key]))
    else if alias in calls then (false, calls[alias], Bind(calls, key, calls[alias]))
    else (true, next, Bind(Bind(calls, key, next), alias, next))
  }

  function StopAll(log: seq<Event>, open: seq<nat>): seq<Event>
    decreases |open|
  {
    if open == [] then log else StopAll(log + [BlockStop(open[0])], open[1..])
  }

  /** Stop what is open; the text block must then be reopened for more text. */
  function CloseOpenBlocks(sc: Conv): Conv {
    if sc.openBlocks == [] then sc
    else sc.(log := StopAll(sc.log, sc.openBlocks), openBlocks := [], textOpen := false)
  }

  function OpenBlock(sc: Conv, index: nat, kind: Kind): Conv {
    var s := CloseOpenBlocks(sc);
    Emit(s.(openBlocks := s.openBlocks + [index]), BlockStart(index, kind))
  }

  function AsNat(i: int): nat { if i < 0 then 0 else i }

  /** A text block at the next free index; any open block stops first. */
  function OpenText(sc: Conv): Conv {
    var s := OpenBlock(sc, sc.nextIndex, Text);
    s.(textIndex := sc.nextIndex, nextIndex := sc.nextIndex + 1, textOpen := true)
  }

  function Say(sc: Conv, delta: string): Conv {
    var s := if sc.textOpen then sc else OpenText(sc);
    Emit(s, BlockDelta(AsNat(s.textIndex), ClaudeProtocol.TextDelta(delta)))
  }

  function WithTracker(sc: Conv, r: (bool, nat, map<string, nat>), delivered: set<nat>): Conv {
    sc.(tracker := Tracker(r.2, delivered), nextIndex := if r.0 then sc.nextIndex + 1 else sc.nextIndex)
  }

  /** output_item.added/.done of a function call. */
  function TakeItem(sc: Conv, e: Upstream): Conv
    requires e.Item?
  {
    if !e.isCall then sc
    else
      var r := Resolve(sc.tracker.calls, e.callId, e.itemId, sc.nextIndex);
      var deliver := e.args != "" && r.1 !in sc.tracker.delivered;
      var s1 := WithTracker(sc.(toolCallsSeen := true), r, if deliver then sc.tracker.delivered + {r.1} else sc.tracker.delivered);
      var s2 := if r.0 then OpenBlock(s1, r.1, ToolUse(e.callId, e.name)) else s1;
      if deliver then Emit(s2, BlockDelta(r.1, JsonDelta(e.args))) else s2
  }

  function TakeArgs(sc: Conv, itemId: string, delta: string): Conv {
    var r := Resolve(sc.tracker.calls, itemId, "", sc.nextIndex);
    var s1 := WithTracker(sc, r, sc.tracker.delivered + {r.1});
    var s2 := if r.0 then OpenBlock(s1, r.1, ToolUse(itemId, "")) else s1;
    Emit(s2, BlockDelta(r.1, JsonDelta(delta)))
  }

  /** Observed calls outrank the reason the status gives. */
  function Reason(sc: Conv, incomplete: bool): string {
    if sc.toolCallsSeen then "tool_use" else if incomplete then "max_tokens" else "end_turn"
  }

  function Terminal(sc: Conv, incomplete: bool, counts: Counts): Conv {
    var s := sc.(log := StopAll(sc.log, sc.openBlocks), openBlocks := []);
    Emit(Emit(s, MessageDelta(Reason(sc, incomplete), counts)), MessageStop)
  }

  function Take(sc: Conv, e: Upstream): Conv {
    match e
    case Created(id, model) =>
      var s := sc.(id := if id != "" then id else sc.id, model := if model != "" then model else sc.model);
      Emit(s, MessageStart(s.id, s.model, 0))
    case TextDelta(delta) => Say(sc, delta)
    case Item(_, _, _, _, _) => TakeItem(sc, e)
    case ArgsDelta(itemId, delta) => TakeArgs(sc, itemId, delta)
    case Ended(incomplete, counts) => Terminal(sc, incomplete, counts)
    case Informational => sc
  }

  function Run(events: seq<Upstream>): Conv {
    if events == [] then FRESH else Take(Run(events[..|events| - 1]), events[|events| - 1])
  }

  // ---- the invariant, up to the terminal ----

  ghost predicate Tracks(sc: Conv, blocks: seq<Block>) {
    && |blocks| == sc.nextIndex
    && sc.openBlocks == (if sc.nextIndex == 0 then [] else [sc.nextIndex - 1])
    && (LastOpen(blocks) <==> sc.openBlocks != [])
    && (forall i :: 0 <= i < |blocks| - 1 ==> !blocks[i].open)
    && (sc.textOpen ==> sc.textIndex == |blocks| - 1 && sc.openBlocks != [] && blocks[sc.textIndex].kind.Text?)
    && (blocks != [] && blocks[|blocks| - 1].kind.Text? ==> sc.textOpen)
    && (forall i :: 0 <= i < |blocks| ==> !blocks[i].kind.Thinking?)
    && (forall k :: k in sc.tracker.calls ==> sc.tracker.calls[k] < |blocks| && blocks[sc.tracker.calls[k]].kind.ToolUse?)
  }

  ghost predicate Good(sc: Conv) {
    Replay(sc.log).Client? && Tracks(sc, Replay(sc.log).blocks)
  }

  /** What one upstream event writes into which block, if any. */
  function Writes(sc: Conv, e: Upstream): Option<(nat, string)> {
    match e
    case TextDelta(delta) => Some((if sc.textOpen then AsNat(sc.textIndex) else sc.nextIndex, delta))
    case Item(isCall, callId, itemId, _, args) =>
      var i := Resolve(sc.tracker.calls, callId, itemId, sc.nextIndex).1;
      if isCall && args != "" && i !in sc.tracker.delivered then Some((i, args)) else None
    case ArgsDelta(itemId, delta) => Some((Resolve(sc.tracker.calls, itemId, "", sc.nextIndex).1, delta))
    case _ => None
  }

  /** The block an event starts, if any. */
  function Opens(sc: Conv, e: Upstream): Option<Kind> {
    match e
    case TextDelta(_) => if sc.textOpen then None else Some(Text)
    case Item(isCall, callId, itemId, name, _) =>
      if isCall && callId !in sc.tracker.calls && itemId !in sc.tracker.calls then Some(ToolUse(callId, name)) else None
    case ArgsDelta(itemId, _) =>
      if itemId !in sc.tracker.calls && "" !in sc.tracker.calls then Some(ToolUse(itemId, "")) else None
    case _ => None
  }

  /** The event goes to a block that is no longer the newest. */
  predicate Strays(sc: Conv, e: Upstream) {
    Writes(sc, e).Some? && Writes(sc, e).value.0 + 1 < sc.nextIndex
  }

  // ---- what blocks hold ----

  function TextAt(blocks: seq<Block>, i: nat): string {
    if i < |blocks| then blocks[i].text else ""
  }

  function Piece(w: Option<(nat, string)>, i: nat): string {
    if w.Some? && w.value.0 == i then w.value.1 else ""
  }

  /** Kinds stay, and every text grows by exactly what was written to its block. */
  ghost predicate Grew(b: seq<Block>, b2: seq<Block>, w: Option<(nat, string)>) {
    && |b| <= |b2| && (forall i :: 0 <= i < |b| ==> b2[i].kind == b[i].kind)
    && forall i: nat :: TextAt(b2, i) == TextAt(b, i) + Piece(w, i)
  }

  lemma {:induction false} Blank(s: string)
    ensures s + "" == s && "" + s == s
  {
  }

  lemma {:induction false} KeptGrew(b: seq<Block>, b2: seq<Block>)
    requires |b| <= |b2| && forall i :: 0 <= i < |b| ==> b2[i].kind == b[i].kind && b2[i].text == b[i].text
    requires forall i :: |b| <= i < |b2| ==> b2[i].text == ""
    ensures Grew(b, b2, None)
  {
    forall i: nat
      ensures TextAt(b2, i) == TextAt(b, i) + Piece(None, i)
    {
      Blank(TextAt(b, i));
    }
  }

  lemma {:induction false} WriteGrew(b: seq<Block>, i: nat, text: string)
    requires i < |b|
    ensures Grew(b, b[i := b[i].(text := b[i].text + text)], Some((i, text)))
  {
    var b2 := b[i := b[i].(text := b[i].text + text)];
    forall j: nat
      ensures TextAt(b2, j) == TextAt(b, j) + Piece(Some((i, text)), j)
    {
      Blank(TextAt(b, j));
    }
  }

  lemma {:induction false} GrewThen(a: seq<Block>, b: seq<Block>, c: seq<Block>, w: Option<(nat, string)>)
    requires Grew(a, b, None) && Grew(b, c, w)
    ensures Grew(a, c, w)
  {
    hide TextAt;
    forall i: nat
      ensures TextAt(c, i) == TextAt(a, i) + Piece(w, i)
    {
      Blank(TextAt(a, i));
    }
  }

  /** No message-level counter moved, and none that an open stream leaves alone. */
  ghost predicate Counted(c: Client, c2: Client, starts: nat, stray: nat) {
    && c.Client? && c2.Client? && c2.starts == c.starts + starts && c2.deltas == c.deltas && c2.stops == c.stops
    && c2.dangling == c.dangling && c2.stray == c.stray + stray
    && (c.starts > 0 ==> c2.early == c.early) && (c.deltas == 0 ==> c2.late == c.late)
  }

  // ---- one event of an open stream ----

  lemma {:induction false} StopOpenGood(sc: Conv)
    requires Good(sc)
    ensures var c, c2 := Replay(sc.log), Replay(StopAll(sc.log, sc.openBlocks));
            && Counted(c, c2, 0, 0) && |c2.blocks| == |c.blocks| && !LastOpen(c2.blocks)
            && forall i :: 0 <= i < |c.blocks| ==> c2.blocks[i] == c.blocks[i].(open := false)
  {
    if sc.openBlocks != [] {
      ReplayAppend(sc.log, BlockStop(sc.openBlocks[0]));
      assert sc.openBlocks[1..] == [];
      assert StopAll(sc.log + [BlockStop(sc.openBlocks[0])], []) == sc.log + [BlockStop(sc.openBlocks[0])];
    }
  }

  lemma {:induction false} OpenBlockIs(sc: Conv, index: nat, kind: Kind)
    requires sc.openBlocks == [] ==> !sc.textOpen
    ensures OpenBlock(sc, index, kind)
            == sc.(log := StopAll(sc.log, sc.openBlocks) + [BlockStart(index, kind)], openBlocks := [index], textOpen := false)
  {
  }

  lemma {:induction false} StartedGrew(log: seq<Event>, n: nat, kind: Kind)
    requires var c := Replay(log);
             c.Client? && n == |c.blocks| && !LastOpen(c.blocks)
    ensures var c, c2 := Replay(log), Replay(log + [BlockStart(n, kind)]);
            && Counted(c, c2, 0, 0) && Grew(c.blocks, c2.blocks, None) && c2.blocks == c.blocks + [Block(kind, "", true)]
  {
    hide Grew, Replay;
    ReplayAppend(log, BlockStart(n, kind));
    var b := Replay(log).blocks;
    KeptGrew(b, b + [Block(kind, "", true)]);
  }

  /** Starting the newest block; `s1` may already know its index. */
  lemma {:induction false} OpenBlockGood(sc: Conv, s1: Conv, kind: Kind)
    requires Good(sc) && s1.log == sc.log && s1.openBlocks == sc.openBlocks && s1.textOpen == sc.textOpen
    ensures var s := OpenBlock(s1, sc.nextIndex, kind);
            var c, c2 := Replay(sc.log), Replay(s.log);
            && Counted(c, c2, 0, 0) && Grew(c.blocks, c2.blocks, None)
            && |c2.blocks| == |c.blocks| + 1 && c2.blocks[|c.blocks|] == Block(kind, "", true)
            && (forall i :: 0 <= i < |c.blocks| ==> c2.blocks[i] == c.blocks[i].(open := false))
            && s == s1.(log := s.log, openBlocks := [sc.nextIndex], textOpen := false)
  {
    hide Grew, Replay, OpenBlock, StopAll;
    StopOpenGood(sc);
    OpenBlockIs(s1, sc.nextIndex, kind);
    var stopped := StopAll(sc.log, sc.openBlocks);
    StartedGrew(stopped, sc.nextIndex, kind);
    KeptGrew(Replay(sc.log).blocks, Replay(stopped).blocks);
    var s := OpenBlock(s1, sc.nextIndex, kind);
    GrewThen(Replay(sc.log).blocks, Replay(stopped).blocks, Replay(s.log).blocks, None);
  }

  /** A delta of the block's own kind. */
  lemma {:induction false} WriteGood(log: seq<Event>, i: nat, d: Delta)
    requires var c := Replay(log);
             c.Client? && i < |c.blocks| && Fits(c.blocks[i].kind, d) && (d.JsonDelta? || c.blocks[i].open)
    ensures var c, c2 := Replay(log), Replay(log + [BlockDelta(i, d)]);
            && Counted(c, c2, 0, Bump(!c.blocks[i].open)) && Grew(c.blocks, c2.blocks, Some((i, d.text)))
            && c2.blocks == c.blocks[i := c.blocks[i].(text := c.blocks[i].text + d.text)]
  {
    hide Grew, Replay;
    ReplayAppend(log, BlockDelta(i, d));
    WriteGrew(Replay(log).blocks, i, d.text);
  }

  /** Discipline is kept, every block grows by exactly what the event writes, and
      the write is astray exactly when it addresses a block that is not the newest. */
  ghost predicate Stepped(sc: Conv, e: Upstream, s: Conv) {
    && Good(s) && Counted(Replay(sc.log), Replay(s.log), Bump(e.Created?), Bump(Strays(sc, e)))
    && Grew(Replay(sc.log).blocks, Replay(s.log).blocks, Writes(sc, e))
    && s.nextIndex == sc.nextIndex + Bump(Opens(sc, e).Some?)
    && (Opens(sc, e).Some? ==> Replay(s.log).blocks[sc.nextIndex].kind == Opens(sc, e).value)
  }

  lemma {:induction false} CreatedSteps(sc: Conv, e: Upstream)
    requires Good(sc) && e.Created?
    ensures Stepped(sc, e, Take(sc, e))
  {
    hide Grew, Replay;
    var id := if e.id != "" then e.id else sc.id;
    var model := if e.model != "" then e.model else sc.model;
    MessageStarted(sc.log, MessageStart(id, model, 0));
  }

  lemma {:induction false} MessageStarted(log: seq<Event>, e: Event)
    requires Replay(log).Client? && e.MessageStart?
    ensures var c, c2 := Replay(log), Replay(log + [e]);
            Counted(c, c2, 1, 0) && c2.blocks == c.blocks && Grew(c.blocks, c2.blocks, None)
  {
    ReplayAppend(log, e);
    KeptGrew(Replay(log).blocks, Replay(log).blocks);
    hide Grew;
  }

  lemma {:induction false} SaySteps(sc: Conv, e: Upstream)
    requires Good(sc) && e.TextDelta?
    ensures Stepped(sc, e, Take(sc, e))
  {
    hide Grew, Replay;
    var d := ClaudeProtocol.TextDelta(e.delta);
    if sc.textOpen {
      WriteGood(sc.log, sc.textIndex, d);
    } else {
      OpenBlockGood(sc, sc, Text);
      hide OpenBlock;
      var s1 := OpenText(sc);
      WriteGood(s1.log, sc.nextIndex, d);
      GrewThen(Replay(sc.log).blocks, Replay(s1.log).blocks, Replay(Say(sc, e.delta).log).blocks, Writes(sc, e));
    }
  }

  /** The block a call event leaves behind, before it writes. */
  ghost function Announced(sc: Conv, r: (bool, nat, map<string, nat>), delivered: set<nat>, seen: bool, kind: Kind): Conv {
    var s1 := WithTracker(sc.(toolCallsSeen := seen), r, delivered);
    if r.0 then OpenBlock(s1, r.1, kind) else s1
  }

  lemma {:induction false} AnnouncedGood(sc: Conv, key: string, alias: string, delivered: set<nat>, seen: bool, kind: Kind)
    requires Good(sc) && kind.ToolUse?
    ensures var r := Resolve(sc.tracker.calls, key, alias, sc.nextIndex);
            var s := Announced(sc, r, delivered, seen, kind);
            var c, c2 := Replay(sc.log), Replay(s.log);
            && Good(s) && Counted(c, c2, 0, 0) && Grew(c.blocks, c2.blocks, None)
            && r.1 < |c2.blocks| && c2.blocks[r.1].kind.ToolUse? && s.nextIndex == sc.nextIndex + Bump(r.0)
            && (r.0 ==> c2.blocks[r.1].kind == kind)
            && (r.0 ==> c2.blocks[r.1].open && r.1 == sc.nextIndex)
            && (!r.0 ==> s.log == sc.log && r.1 < sc.nextIndex)
  {
    hide Grew, Replay;
    var r := Resolve(sc.tracker.calls, key, alias, sc.nextIndex);
    var s1 := WithTracker(sc.(toolCallsSeen := seen), r, delivered);
    if r.0 {
      OpenBlockGood(sc, s1, kind);
    } else {
      MessageUnchanged(sc);
    }
    hide OpenBlock;
  }

  lemma {:induction false} MessageUnchanged(sc: Conv)
    requires Good(sc)
    ensures Counted(Replay(sc.log), Replay(sc.log), 0, 0) && Grew(Replay(sc.log).blocks, Replay(sc.log).blocks, None)
  {
    KeptGrew(Replay(sc.log).blocks, Replay(sc.log).blocks);
    hide Grew;
  }

  lemma {:induction false} ItemSteps(sc: Conv, e: Upstream)
    requires Good(sc) && e.Item?
    ensures Stepped(sc, e, Take(sc, e))
  {
    hide Grew, Replay, OpenBlock;
    MessageUnchanged(sc);
    if e.isCall {
      var r := Resolve(sc.tracker.calls, e.callId, e.itemId, sc.nextIndex);
      var deliver := e.args != "" && r.1 !in sc.tracker.delivered;
      var delivered := if deliver then sc.tracker.delivered + {r.1} else sc.tracker.delivered;
      AnnouncedGood(sc, e.callId, e.itemId, delivered, true, ToolUse(e.callId, e.name));
      var s1 := Announced(sc, r, delivered, true, ToolUse(e.callId, e.name));
      if deliver {
        DeliverSteps(sc, s1, r.1, r.0, e.args);
      }
    }
  }

  lemma {:induction false} ArgsSteps(sc: Conv, e: Upstream)
    requires Good(sc) && e.ArgsDelta?
    ensures Stepped(sc, e, Take(sc, e))
  {
    hide Grew, Replay, OpenBlock;
    var r := Resolve(sc.tracker.calls, e.itemId, "", sc.nextIndex);
    var delivered := sc.tracker.delivered + {r.1};
    AnnouncedGood(sc, e.itemId, "", delivered, sc.toolCallsSeen, ToolUse(e.itemId, ""));
    var s1 := Announced(sc, r, delivered, sc.toolCallsSeen, ToolUse(e.itemId, ""));
    DeliverSteps(sc, s1, r.1, r.0, e.delta);
  }

  /** Arguments to a call's block, right after it was announced or later. */
  lemma {:induction false} DeliverSteps(sc: Conv, s1: Conv, i: nat, first: bool, args: string)
    requires Good(sc) && Good(s1) && Counted(Replay(sc.log), Replay(s1.log), 0, 0)
    requires Grew(Replay(sc.log).blocks, Replay(s1.log).blocks, None)
    requires i < |Replay(s1.log).blocks| && Replay(s1.log).blocks[i].kind.ToolUse?
    requires if first then Replay(s1.log).blocks[i].open && i == sc.nextIndex else s1.log == sc.log && i < sc.nextIndex
    ensures var s := Emit(s1, BlockDelta(i, JsonDelta(args)));
            && Good(s) && Counted(Replay(sc.log), Replay(s.log), 0, Bump(i + 1 < sc.nextIndex))
            && Grew(Replay(sc.log).blocks, Replay(s.log).blocks, Some((i, args)))
            && (forall j :: 0 <= j < |Replay(s1.log).blocks| ==> Replay(s.log).blocks[j].kind == Replay(s1.log).blocks[j].kind)
  {
    hide Grew, Replay;
    WriteGood(s1.log, i, JsonDelta(args));
    var s := Emit(s1, BlockDelta(i, JsonDelta(args)));
    GrewThen(Replay(sc.log).blocks, Replay(s1.log).blocks, Replay(s.log).blocks, Some((i, args)));
  }

  // ---- whole streams ----

  lemma {:induction false} TakeSteps(sc: Conv, e: Upstream)
    requires Good(sc) && !e.Ended?
    ensures Stepped(sc, e, Take(sc, e))
  {
    hide Stepped, Take, Good;
    match e
    case Created(_, _) => CreatedSteps(sc, e);
    case TextDelta(_) => SaySteps(sc, e);
    case Item(_, _, _, _, _) => ItemSteps(sc, e);
    case ArgsDelta(_, _) => ArgsSteps(sc, e);
    case Informational => SilentSteps(sc, e);
  }

  lemma {:induction false} SilentSteps(sc: Conv, e: Upstream)
    requires Good(sc) && e.Informational?
    ensures Stepped(sc, e, Take(sc, e))
  {
    MessageUnchanged(sc);
    hide Grew, Replay;
  }

  ghost predicate Streaming(events: seq<Upstream>) {
    forall i :: 0 <= i < |events| ==> !events[i].Ended?
  }

  function CreatedCount(events: seq<Upstream>): nat {
    if events == [] then 0 else CreatedCount(events[..|events| - 1]) + Bump(events[|events| - 1].Created?)
  }

  /** Writes to a block that is no longer the newest. */
  function StrayCount(events: seq<Upstream>): nat {
    if events == [] then 0
    else StrayCount(events[..|events| - 1]) + Bump(Strays(Run(events[..|events| - 1]), events[|events| - 1]))
  }

  /** Everything the events write to block `i`, in order. */
  function WrittenTo(events: seq<Upstream>, i: nat): string {
    if events == [] then ""
    else WrittenTo(events[..|events| - 1], i) + Piece(Writes(Run(events[..|events| - 1]), events[|events| - 1]), i)
  }

  /** Block discipline for every upstream stream, up to its terminal event: one
      block open at a time, starts in order, text only to the open text block,
      arguments astray exactly when a call is left and taken up again. */
  lemma {:induction false} EveryStreamKeepsDiscipline(events: seq<Upstream>)
    requires Streaming(events)
    ensures var sc := Run(events);
            var c := Replay(sc.log);
            && Good(sc) && c.deltas == 0 && c.stops == 0 && c.dangling == 0 && c.late == 0
            && c.starts == CreatedCount(events) && c.stray == StrayCount(events)
            && (forall i: nat :: TextAt(c.blocks, i) == WrittenTo(events, i))
  {
    hide Take, Writes, Strays, Piece, TextAt, Tracks;
    if events == [] {
      NothingRun();
    } else {
      var shorter, e := events[..|events| - 1], events[|events| - 1];
      assert Streaming(shorter);
      EveryStreamKeepsDiscipline(shorter);
      TakeSteps(Run(shorter), e);
      hide Replay;
    }
  }

  lemma {:induction false} NothingRun()
    ensures Good(FRESH) && Replay(FRESH.log) == START && forall i: nat :: TextAt([], i) == ""
  {
  }

  lemma {:induction false} MessageEnded(log: seq<Event>, e: Event)
    requires Replay(log).Client? && !LastOpen(Replay(log).blocks) && e.MessageDelta?
    ensures var c, c2 := Replay(log), Replay(log + [e] + [MessageStop]);
            c2.Client? && c2 == c.(deltas := c.deltas + 1, stops := c.stops + 1, verdict := Some(e), early := c2.early)
  {
    hide Replay;
    ReplayAppend(log, e);
    ReplayAppend(log + [e], MessageStop);
  }

  lemma {:induction false} TerminalGood(sc: Conv, incomplete: bool, counts: Counts)
    requires Good(sc)
    ensures var s := Terminal(sc, incomplete, counts);
            var c, c2 := Replay(sc.log), Replay(s.log);
            && c2.Client? && |c2.blocks| == |c.blocks| && !LastOpen(c2.blocks)
            && (forall i :: 0 <= i < |c.blocks| ==> c2.blocks[i] == c.blocks[i].(open := false))
            && c2.starts == c.starts && c2.deltas == c.deltas + 1 && c2.stops == c.stops + 1 && c2.dangling == c.dangling
            && c2.stray == c.stray && (c.deltas == 0 ==> c2.late == c.late)
            && c2.verdict == Some(MessageDelta(Reason(sc, incomplete), counts))
            && |s.log| > 0 && s.log[|s.log| - 1] == MessageStop
            && s == sc.(log := s.log, openBlocks := [])
  {
    hide StopAll, Replay, Tracks, Reason;
    StopOpenGood(sc);
    MessageEnded(StopAll(sc.log, sc.openBlocks), MessageDelta(Reason(sc, incomplete), counts));
  }

  /** The terminal event of a stream: every block stopped exactly once, one
      message_delta, one message_stop. */
  lemma {:induction false} TerminalEndsCleanly(events: seq<Upstream>, incomplete: bool, counts: Counts)
    requires Streaming(events)
    ensures var s := Terminal(Run(events), incomplete, counts);
            var c := Replay(s.log);
            && c.Client? && c.deltas == 1 && c.stops == 1 && c.dangling == 0 && c.late == 0
            && c.starts == CreatedCount(events) && c.stray == StrayCount(events)
            && (forall i: nat :: StopCount(s.log, i) == StartCount(s.log, i))
            && c.verdict == Some(MessageDelta(Reason(Run(events), incomplete), counts))
  {
    hide Run, CreatedCount, StrayCount, StopCount, StartCount, Terminal, Replay, Good, WrittenTo, TextAt, Streaming;
    EveryStreamKeepsDiscipline(events);
    TerminalGood(Run(events), incomplete, counts);
    DanglingIsOpen(Terminal(Run(events), incomplete, counts).log);
  }

  /** Behind the terminal event the discipline ends: text is refused by the
      client exactly if the text block was the open one. */
  lemma {:induction false} TextAfterTerminal(sc: Conv, incomplete: bool, counts: Counts, delta: string)
    requires Good(sc)
    ensures Replay(Say(Terminal(sc, incomplete, counts), delta).log).Client? <==> !sc.textOpen
  {
    hide Replay, Terminal;
    TerminalGood(sc, incomplete, counts);
    var s := Terminal(sc, incomplete, counts);
    var d := ClaudeProtocol.TextDelta(delta);
    if sc.textOpen {
      ReplayAppend(s.log, BlockDelta(sc.textIndex, d));
    } else {
      ReplayAppend(s.log, BlockStart(sc.nextIndex, Text));
      ReplayAppend(s.log + [BlockStart(sc.nextIndex, Text)], BlockDelta(sc.nextIndex, d));
    }
  }

  // ---- announce or replay ----

  /** Both identifiers of an event name one call from then on. */
  lemma {:induction false} ResolveBindsBoth(calls: map<string, nat>, key: string, alias: string, next: nat)
    ensures var r := Resolve(calls, key, alias, next);
            && (key != "" ==> key in r.2 && r.2[key] == r.1) && (alias != "" && key != "" ==> alias in r.2 && r.2[alias] == r.1)
            && (forall k :: k in calls ==> k in r.2)
            && (forall k :: k in calls && k != key && k != alias ==> r.2[k] == calls[k])
            && (r.0 ==> key !in calls && alias !in calls)
            && (forall k :: k in r.2 ==> k in calls || k == key || k == alias)
  {
  }

  /** How an event changes the table. */
  function TrackerNext(sc: Conv, e: Upstream): Tracker {
    match e
    case Item(isCall, callId, itemId, _, args) =>
      var r := Resolve(sc.tracker.calls, callId, itemId, sc.nextIndex);
      if !isCall then sc.tracker
      else Tracker(r.2, if Writes(sc, e).Some? then sc.tracker.delivered + {r.1} else sc.tracker.delivered)
    case ArgsDelta(itemId, _) =>
      var r := Resolve(sc.tracker.calls, itemId, "", sc.nextIndex);
      Tracker(r.2, sc.tracker.delivered + {r.1})
    case _ => sc.tracker
  }

  lemma {:induction false} OpenKeepsTracker(sc: Conv, index: nat, kind: Kind)
    ensures OpenBlock(sc, index, kind).tracker == sc.tracker
  {
    hide StopAll;
  }

  lemma {:induction false} TrackerOf(sc: Conv, e: Upstream)
    ensures Take(sc, e).tracker == TrackerNext(sc, e)
  {
    hide StopAll, OpenBlock, Reason;
    if e.TextDelta? {
      OpenKeepsTracker(sc, sc.nextIndex, Text);
    } else if e.Item? && e.isCall {
      var r := Resolve(sc.tracker.calls, e.callId, e.itemId, sc.nextIndex);
      var deliver := e.args != "" && r.1 !in sc.tracker.delivered;
      var delivered := if deliver then sc.tracker.delivered + {r.1} else sc.tracker.delivered;
      OpenKeepsTracker(WithTracker(sc.(toolCallsSeen := true), r, delivered), r.1, ToolUse(e.callId, e.name));
    } else if e.ArgsDelta? {
      var r := Resolve(sc.tracker.calls, e.itemId, "", sc.nextIndex);
      OpenKeepsTracker(WithTracker(sc, r, sc.tracker.delivered + {r.1}), r.1, ToolUse(e.itemId, ""));
    }
  }

  /** A call whose arguments were never delivered has an empty block. */
  ghost predicate Undelivered(t: Tracker, blocks: seq<Block>) {
    forall i :: 0 <= i < |blocks| && blocks[i].kind.ToolUse? && i !in t.delivered ==> blocks[i].text == ""
  }

  /** The identifier a block was announced under; "" for none. */
  function IdAt(blocks: seq<Block>, i: nat): string {
    if i < |blocks| && blocks[i].kind.ToolUse? then blocks[i].kind.id else ""
  }

  /** A call announced under an identifier stays known by it, so no identifier
      is announced twice. */
  ghost predicate AnnouncedOnce(t: Tracker, blocks: seq<Block>) {
    && (forall i: nat :: IdAt(blocks, i) != "" ==> IdAt(blocks, i) in t.calls)
    && (forall i: nat, j: nat :: i < j && IdAt(blocks, i) != "" ==> IdAt(blocks, i) != IdAt(blocks, j))
  }

  function TextHeld(sc: Conv, i: nat): string {
    var c := Replay(sc.log);
    if c.Client? then TextAt(c.blocks, i) else ""
  }

  lemma {:induction false} EventKeepsUndelivered(sc: Conv, e: Upstream)
    requires Good(sc) && Undelivered(sc.tracker, Replay(sc.log).blocks) && !e.Ended?
    ensures var s := Take(sc, e);
            && Good(s) && Undelivered(s.tracker, Replay(s.log).blocks)
            && (e.Item? && Writes(sc, e).Some? ==> TextHeld(sc, Writes(sc, e).value.0) == "")
  {
    TakeSteps(sc, e);
    TrackerOf(sc, e);
    hide Take, Replay, Counted;
    var s := Take(sc, e);
    var b, b2 := Replay(sc.log).blocks, Replay(s.log).blocks;
    forall i | 0 <= i < |b2| && b2[i].kind.ToolUse? && i !in s.tracker.delivered
      ensures b2[i].text == ""
    {
      assert TextAt(b2, i) == TextAt(b, i) + Piece(Writes(sc, e), i);
    }
  }

  lemma {:induction false} OnceExtends(t: Tracker, t2: Tracker, b: seq<Block>, b2: seq<Block>, added: Option<Kind>)
    requires AnnouncedOnce(t, b) && forall k :: k in t.calls ==> k in t2.calls
    requires |b2| == |b| + Bump(added.Some?) && forall i: nat :: i < |b| ==> IdAt(b2, i) == IdAt(b, i)
    requires added.Some? ==> b2[|b|].kind == added.value
    requires added.Some? && added.value.ToolUse? && added.value.id != "" ==>
               added.value.id in t2.calls && added.value.id !in t.calls
    ensures AnnouncedOnce(t2, b2)
  {
    forall i: nat | i >= |b2|
      ensures IdAt(b2, i) == ""
    {
    }
    forall i: nat, j: nat | i < j && IdAt(b2, i) != ""
      ensures IdAt(b2, i) != IdAt(b2, j)
    {
      assert IdAt(b2, i) in t2.calls;
    }
  }

  lemma {:induction false} EventKeepsAnnouncedOnce(sc: Conv, e: Upstream)
    requires Good(sc) && AnnouncedOnce(sc.tracker, Replay(sc.log).blocks) && !e.Ended?
    ensures Good(Take(sc, e)) && AnnouncedOnce(Take(sc, e).tracker, Replay(Take(sc, e).log).blocks)
  {
    hide Take, Replay, Counted, TextAt, Writes, AnnouncedOnce, Opens, TrackerNext;
    TakeSteps(sc, e);
    TrackerOf(sc, e);
    TrackerNextKeeps(sc, e);
    var s := Take(sc, e);
    OnceExtends(sc.tracker, s.tracker, Replay(sc.log).blocks, Replay(s.log).blocks, Opens(sc, e));
  }

  /** The table forgets no identifier, and the identifier of a new block is new. */
  lemma {:induction false} TrackerNextKeeps(sc: Conv, e: Upstream)
    ensures var t, o := TrackerNext(sc, e), Opens(sc, e);
            && (forall k :: k in sc.tracker.calls ==> k in t.calls)
            && (o.Some? && o.value.ToolUse? && o.value.id != "" ==> o.value.id in t.calls && o.value.id !in sc.tracker.calls)
  {
    hide Writes;
  }

  /** For every stream: an identifier is announced at most once, and complete
      arguments are only ever written to a block that is still empty. */
  lemma {:induction false} EveryStreamAnnouncesOnce(events: seq<Upstream>)
    requires Streaming(events)
    ensures var sc := Run(events);
            Good(sc) && AnnouncedOnce(sc.tracker, Replay(sc.log).blocks) && Undelivered(sc.tracker, Replay(sc.log).blocks)
    ensures forall n :: 0 <= n < |events| && events[n].Item? ==>
              var w := Writes(Run(events[..n]), events[n]);
              w.Some? ==> TextHeld(Run(events[..n]), w.value.0) == ""
  {
    hide Take, Replay, Good, AnnouncedOnce, Undelivered, Writes, TextHeld;
    if events == [] {
      NothingRun();
      NothingAnnounced();
    } else {
      var shorter, e := events[..|events| - 1], events[|events| - 1];
      assert Streaming(shorter);
      EveryStreamAnnouncesOnce(shorter);
      EventKeepsAnnouncedOnce(Run(shorter), e);
      EventKeepsUndelivered(Run(shorter), e);
      forall n | 0 <= n < |events| && events[n].Item?
        ensures var w := Writes(Run(events[..n]), events[n]);
                w.Some? ==> TextHeld(Run(events[..n]), w.value.0) == ""
      {
        if n < |shorter| {
          assert events[..n] == shorter[..n] && events[n] == shorter[n];
        }
      }
    }
  }

  lemma {:induction false} NothingAnnounced()
    ensures AnnouncedOnce(FRESH.tracker, Replay(FRESH.log).blocks) && Undelivered(FRESH.tracker, Replay(FRESH.log).blocks)
  {
  }
}
