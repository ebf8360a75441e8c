/** The Responses -> Claude stream converter as the mutable object it is in
    internal/adapter/responses/stream.go, proved against ResponsesToClaude. */
module ResponsesToClaudeConverter {
  import opened Common
  import opened ClaudeProtocol
  import opened ResponsesToClaude

  /** The announce-or-replay table; records are known by their index. */
  class ToolCallTracker {
    var calls: map<string, nat>
    var delivered: set<nat>

    ghost function State(): Tracker
      reads this
    {
      Tracker(calls, delivered)
    }

    constructor ()
      ensures State() == Tracker(map[], {})
    {
      calls, delivered := map[], {};
    }

    method Bind(key: string, index: nat)
      modifies `calls
      ensures calls == ResponsesToClaude.Bind(old(calls), key, index)
    {
      if key != "" {
        calls := calls[key := index];
      }
    }

    /** Resolve a call by either identifier; `next` is the index of a new record. */
    method Find(key: string, alias: string, next: nat) returns (first: bool, index: nat)
      modifies `calls
      ensures (first, index, calls) == Resolve(old(calls), key, alias, next)
    {
      if key in calls {
        first, index := false, calls[key];
        Bind(alias, index);
      } else if alias in calls {
        first, index := false, calls[alias];
        Bind(key, index);
      } else {
        first, index := true, next;
        Bind(key, index);
        Bind(alias, index);
      }
    }

    method Observe(callId: string, itemId: string, argsComplete: bool, next: nat)
      returns (first: bool, index: nat, deliver: bool)
      modifies this
      ensures (first, index, calls) == Resolve(old(calls), callId, itemId, next)
      ensures deliver == (argsComplete && index !in old(delivered))
      ensures delivered == if deliver then old(delivered) + {index} else old(delivered)
    {
      first, index := Find(callId, itemId, next);
      deliver := argsComplete && index !in delivered;
      if deliver {
        delivered := delivered + {index};
      }
    }

    method StreamArgs(itemId: string, next: nat) returns (first: bool, index: nat)
      modifies this
      ensures (first, index, calls) == Resolve(old(calls), itemId, "", next)
      ensures delivered == old(delivered) + {index}
    {
      first, index := Find(itemId, "", next);
      delivered := delivered + {index};
    }
  }

  class StreamConverter {
    var id: string
    var model: string
    var toolCallsSeen: bool
    var textIndex: int
    var textOpen: bool
    var nextIndex: nat
    var openBlocks: seq<nat>
    const tracker: ToolCallTracker
    ghost var log: seq<Event>

    ghost function State(): Conv
      reads this, tracker
    {
      Conv(id, model, toolCallsSeen, textIndex, textOpen, nextIndex, openBlocks, tracker.State(), log)
    }

    constructor ()
      ensures State() == FRESH && fresh(tracker)
    {
      id, model, toolCallsSeen := "commandcode", "", false;
      textIndex, textOpen, nextIndex, openBlocks := -1, false, 0, [];
      tracker := new ToolCallTracker();
      log := [];
    }

    method Send(e: Event)
      modifies `log
      ensures State() == Emit(old(State()), e) && log == old(log) + [e]
    {
      log := log + [e];
    }

    method StopAll() returns (events: seq<Event>)
      modifies `log
      ensures log == ResponsesToClaude.StopAll(old(log), openBlocks) && log == old(log) + events
    {
      events := [];
      for i := 0 to |openBlocks|
        invariant ResponsesToClaude.StopAll(old(log), openBlocks) == ResponsesToClaude.StopAll(log, openBlocks[i..])
        invariant log == old(log) + events
      {
        assert openBlocks[i..][1..] == openBlocks[i + 1..];
        events := events + [BlockStop(openBlocks[i])];
        log := log + [BlockStop(openBlocks[i])];
      }
    }

    method CloseOpenBlocks() returns (events: seq<Event>)
      modifies `openBlocks, `textOpen, `log
      ensures State() == ResponsesToClaude.CloseOpenBlocks(old(State())) && log == old(log) + events
    {
      hide ResponsesToClaude.StopAll;
      if openBlocks == [] {
        return [];
      }
      events := StopAll();
      openBlocks := [];
      textOpen := false;
    }

    method OpenBlock(index: nat, kind: Kind) returns (events: seq<Event>)
      modifies `openBlocks, `textOpen, `log
      ensures State() == ResponsesToClaude.OpenBlock(old(State()), index, kind) && log == old(log) + events
    {
      hide ResponsesToClaude.CloseOpenBlocks;
      events := CloseOpenBlocks();
      openBlocks := openBlocks + [index];
      Send(BlockStart(index, kind));
      events := events + [BlockStart(index, kind)];
    }

    method TextDelta(delta: string) returns (events: seq<Event>)
      modifies `textIndex, `textOpen, `nextIndex, `openBlocks, `log
      ensures State() == Say(old(State()), delta) && log == old(log) + events
    {
      hide ResponsesToClaude.OpenBlock, Emit;
      events := [];
      if !textOpen {
        var index := nextIndex;
        events := OpenBlock(index, Text);
        textIndex, nextIndex, textOpen := index, index + 1, true;
      }
      var e := BlockDelta(AsNat(textIndex), ClaudeProtocol.TextDelta(delta));
      Send(e);
      events := events + [e];
    }

    method OutputItem(e: Upstream) returns (events: seq<Event>)
      requires e.Item?
      modifies this, tracker
      ensures State() == TakeItem(old(State()), e) && log == old(log) + events
    {
      hide ResponsesToClaude.OpenBlock, Emit, Resolve;
      if !e.isCall {
        return [];
      }
      toolCallsSeen := true;
      var first, index, deliver := tracker.Observe(e.callId, e.itemId, e.args != "", nextIndex);
      if first {
        nextIndex := nextIndex + 1;
      }
      events := [];
      if first {
        events := OpenBlock(index, ToolUse(e.callId, e.name));
      }
      if deliver {
        Send(BlockDelta(index, JsonDelta(e.args)));
        events := events + [BlockDelta(index, JsonDelta(e.args))];
      }
    }

    method ArgsFragment(itemId: string, delta: string) returns (events: seq<Event>)
      modifies this, tracker
      ensures State() == TakeArgs(old(State()), itemId, delta) && log == old(log) + events
    {
      hide ResponsesToClaude.OpenBlock, Emit, Resolve;
      var first, index := tracker.StreamArgs(itemId, nextIndex);
      if first {
        nextIndex := nextIndex + 1;
      }
      events := [];
      if first {
        events := OpenBlock(index, ToolUse(itemId, ""));
      }
      Send(BlockDelta(index, JsonDelta(delta)));
      events := events + [BlockDelta(index, JsonDelta(delta))];
    }

    method Terminal(incomplete: bool, counts: Counts) returns (events: seq<Event>)
      modifies `openBlocks, `log
      ensures State() == ResponsesToClaude.Terminal(old(State()), incomplete, counts) && log == old(log) + events
    {
      hide Emit, ResponsesToClaude.StopAll;
      var reason := if toolCallsSeen then "tool_use" else if incomplete then "max_tokens" else "end_turn";
      events := StopAll();
      openBlocks := [];
      Send(MessageDelta(reason, counts));
      Send(MessageStop);
      events := events + [MessageDelta(reason, counts), MessageStop];
    }

    /** One decoded upstream event; the result says whether it was terminal. */
    method ConvertEvent(e: Upstream) returns (events: seq<Event>, done: bool)
      modifies this, tracker
      ensures State() == Take(old(State()), e) && log == old(log) + events && done == e.Ended?
    {
      hide Say, TakeItem, TakeArgs, ResponsesToClaude.Terminal;
      events, done := [], false;
      match e
      case Created(newId, newModel) =>
        if newId != "" {
          id := newId;
        }
        if newModel != "" {
          model := newModel;
        }
        Send(MessageStart(id, model, 0));
        events := [MessageStart(id, model, 0)];
      case TextDelta(delta) =>
        events := TextDelta(delta);
      case Item(_, _, _, _, _) =>
        events := OutputItem(e);
      case ArgsDelta(itemId, delta) =>
        events := ArgsFragment(itemId, delta);
      case Ended(incomplete, counts) =>
        events := Terminal(incomplete, counts);
        done := true;
      case Informational =>
    }
  }
}
