/** The Chat Completions -> Chat Completions leg of the stream converter
    (internal/adapter/chatcompletions/stream.go, passthroughLine): payloads are
    forwarded while the tool calls they carry are watched on the side. */
module ChatPassthrough {
  import opened Common
  import opened ChatChunks
  import opened ChatPayloads
  import opened LineFeed

  /** The JSON layer: a lenient chunk decoder, validity, and the reasoning backfill
      (None when the payload is forwarded as it is). */
  datatype Wire = Wire(observe: string -> Option<Chunk>, valid: string -> bool, backfill: string -> Option<string>)

  datatype Call = Call(id: string, name: string, args: string)

  datatype Conv = Conv(tools: map<int, Call>, toolOrder: seq<int>, finishSeen: bool, terminalSeen: bool, done: bool, out: seq<string>)

  const FRESH := Conv(map[], [], false, false, false, [])

  type Outcome = Result<Conv, StreamError>

  function TakeFragment(sc: Conv, tc: ToolDelta): Conv {
    var s1 := if tc.index in sc.tools then sc
              else sc.(tools := sc.tools[tc.index := Call(tc.id, "", "")], toolOrder := sc.toolOrder + [tc.index]);
    var t := s1.tools[tc.index];
    s1.(tools := s1.tools[tc.index := t.(name := t.name + tc.name, args := t.args + tc.args)])
  }

  function TakeFragments(sc: Conv, deltas: seq<ToolDelta>): Conv
    decreases |deltas|
  {
    if deltas == [] then sc else TakeFragments(TakeFragment(sc, deltas[0]), deltas[1..])
  }

  function Watch(sc: Conv, chunk: Chunk): Conv {
    if chunk.choices == [] then sc
    else
      var c := chunk.choices[0];
      TakeFragments(sc.(finishSeen := sc.finishSeen || c.finish != ""), c.toolCalls)
  }

  function Forwarded(wire: Wire, data: string): string {
    if wire.backfill(data).Some? then wire.backfill(data).value else data
  }

  function Take(wire: Wire, sc: Conv, data: string): Conv {
    var s1 := if wire.observe(data).Some? then Watch(sc, wire.observe(data).value) else sc;
    s1.(out := s1.out + [Forwarded(wire, data)])
  }

  predicate Complete(wire: Wire, sc: Conv) {
    forall k :: k in sc.toolOrder && k in sc.tools ==> wire.valid(DefaultArgs(sc.tools[k].args))
  }

  function TakeLine(wire: Wire, sc: Conv, line: string): Outcome {
    match Classify(line)
    case Ignored => Ok(sc)
    case Done => if Complete(wire, sc) then Ok(sc.(done := true, terminalSeen := true)) else Err(IncompleteArguments)
    case Payload(data) => Ok(Take(wire, sc, data))
  }

  /** End of input, by the grace timer or by close. Nothing more is emitted. */
  function Finalize(wire: Wire, sc: Conv): Outcome {
    if sc.terminalSeen then Ok(sc)
    else if !sc.finishSeen then Err(NoFinishReason)
    else if !Complete(wire, sc) then Err(IncompleteArguments)
    else Ok(sc.(terminalSeen := true))
  }

  function LineHandler(wire: Wire): Handler<Conv, StreamError> {
    Handler((sc: Conv, line: string) => TakeLine(wire, sc, line), (sc: Conv) => sc.done)
  }

  // ---- what the bytes carry, read without a converter ----

  /** The chunks among the payloads that decode. */
  function Observed(wire: Wire, payloads: seq<string>): seq<Chunk> {
    if payloads == [] then []
    else
      var c := wire.observe(payloads[|payloads| - 1]);
      Observed(wire, payloads[..|payloads| - 1]) + (if c.Some? then [c.value] else [])
  }

  function AllForwarded(wire: Wire, payloads: seq<string>): seq<string> {
    seq(|payloads|, i requires 0 <= i < |payloads| => Forwarded(wire, payloads[i]))
  }

  /** The state after some payloads. */
  function Run(wire: Wire, payloads: seq<string>): Conv {
    if payloads == [] then FRESH else Take(wire, Run(wire, payloads[..|payloads| - 1]), payloads[|payloads| - 1])
  }

  lemma {:induction false} RunAppend(wire: Wire, payloads: seq<string>, data: string)
    ensures Run(wire, payloads + [data]) == Take(wire, Run(wire, payloads), data)
  {
    assert (payloads + [data])[..|payloads|] == payloads;
  }

  // ---- the drain loop is the run ----

  predicate Failing(wire: Wire, sc: Conv, heard: Heard) { heard.ended && !Complete(wire, sc) }

  function Concluding(wire: Wire, sc: Conv, heard: Heard): Conv {
    if heard.ended && Complete(wire, sc) then sc.(done := true, terminalSeen := true) else sc
  }

  lemma {:induction false} HandlerIs(wire: Wire, sc: Conv, line: string)
    ensures LineHandler(wire).done(sc) == sc.done && LineHandler(wire).line(sc, line) == TakeLine(wire, sc, line)
  {
  }

  lemma {:induction false} DrainLine(wire: Wire, sc: Conv, buf: string)
    ensures var i := Newline(buf);
            var h := LineHandler(wire);
            Drain(h, sc, buf) ==
              if i == |buf| then Fed(sc, buf, None)
              else
                match TakeLine(wire, sc, TrimSuffixCR(buf[..i]))
                case Err(e) => Fed(sc, buf[i + 1..], Some(e))
                case Ok(next) => if next.done then Fed(next, buf[i + 1..], None) else Drain(h, next, buf[i + 1..])
  {
    hide TakeLine, LineHandler, Drain;
    DrainStep(LineHandler(wire), sc, buf);
    var line := TrimSuffixCR(buf[..Newline(buf)]);
    HandlerIs(wire, sc, line);
    if TakeLine(wire, sc, line).Ok? {
      HandlerIs(wire, TakeLine(wire, sc, line).value, line);
    }
  }

  lemma {:induction false} WatchKeepsFlags(sc: Conv, chunk: Chunk)
    ensures var s := Watch(sc, chunk);
            s.done == sc.done && s.terminalSeen == sc.terminalSeen && s.out == sc.out
            && s.finishSeen == (sc.finishSeen || HasFinish(chunk))
  {
    if chunk.choices != [] {
      FragmentsKeepFlags(sc.(finishSeen := sc.finishSeen || chunk.choices[0].finish != ""), chunk.choices[0].toolCalls);
    }
  }

  lemma {:induction false} FragmentsKeepFlags(sc: Conv, deltas: seq<ToolDelta>)
    ensures var s := TakeFragments(sc, deltas);
            s.done == sc.done && s.terminalSeen == sc.terminalSeen && s.out == sc.out && s.finishSeen == sc.finishSeen
    decreases |deltas|
  {
    if deltas == [] {
    } else {
      FragmentsKeepFlags(TakeFragment(sc, deltas[0]), deltas[1..]);
    }
  }

  lemma {:induction false} RunIsOpen(wire: Wire, payloads: seq<string>)
    ensures var s := Run(wire, payloads);
            !s.done && !s.terminalSeen
  {
    hide Watch;
    if payloads == [] {
    } else {
      var before := Run(wire, payloads[..|payloads| - 1]);
      RunIsOpen(wire, payloads[..|payloads| - 1]);
      var c := wire.observe(payloads[|payloads| - 1]);
      if c.Some? {
        WatchKeepsFlags(before, c.value);
      }
    }
  }

  /** Draining a buffer after some payloads is running the payloads it holds too. */
  lemma {:induction false} DrainRuns(wire: Wire, before: seq<string>, buf: string)
    ensures var heard := Hear(buf);
            var all := Run(wire, before + heard.payloads);
            var fed := Drain(LineHandler(wire), Run(wire, before), buf);
            && fed.state == Concluding(wire, all, heard)
            && fed.error == (if Failing(wire, all, heard) then Some(IncompleteArguments) else None)
    decreases |buf|
  {
    hide LineHandler, Drain, Run, Take, Complete, Classify;
    DrainLine(wire, Run(wire, before), buf);
    RunIsOpen(wire, before);
    assert before + [] == before;
    var i := Newline(buf);
    if i < |buf| {
      match Classify(TrimSuffixCR(buf[..i]))
      case Ignored =>
        DrainRuns(wire, before, buf[i + 1..]);
      case Done =>
      case Payload(data) =>
        RunAppend(wire, before, data);
        RunIsOpen(wire, before + [data]);
        DrainRuns(wire, before + [data], buf[i + 1..]);
        assert before + [data] + Hear(buf[i + 1..]).payloads == before + ([data] + Hear(buf[i + 1..]).payloads);
    }
  }

  // ---- what a run knows and forwards ----

  function ArgsHeld(sc: Conv, k: int): Option<string> { if k in sc.tools then Some(sc.tools[k].args) else None }

  lemma {:induction false} FragmentsJoin(sc: Conv, deltas: seq<ToolDelta>, k: int)
    requires forall j :: j in sc.tools <==> j in sc.toolOrder
    ensures var s := TakeFragments(sc, deltas);
            && ArgsHeld(s, k) == Join(ArgsHeld(sc, k), Fragments(deltas, k))
            && (forall j :: j in s.tools <==> j in s.toolOrder)
    decreases |deltas|
  {
    if deltas == [] {
    } else {
      var s1 := TakeFragment(sc, deltas[0]);
      assert "" + deltas[0].args == deltas[0].args;
      assert ArgsHeld(s1, k) == Join(ArgsHeld(sc, k), Fragment(deltas[0], k));
      FragmentsJoin(s1, deltas[1..], k);
      JoinAssociative(ArgsHeld(sc, k), Fragment(deltas[0], k), Fragments(deltas[1..], k));
    }
  }

  lemma {:induction false} WatchJoins(sc: Conv, chunk: Chunk, k: int)
    requires forall j :: j in sc.tools <==> j in sc.toolOrder
    ensures var s := Watch(sc, chunk);
            ArgsHeld(s, k) == Join(ArgsHeld(sc, k), ChunkArguments(chunk, k)) && forall j :: j in s.tools <==> j in s.toolOrder
  {
    hide TakeFragments, Fragments;
    if chunk.choices != [] {
      FragmentsJoin(sc.(finishSeen := sc.finishSeen || chunk.choices[0].finish != ""), chunk.choices[0].toolCalls, k);
    }
  }

  /** After any payloads: every one was forwarded in order, byte for byte unless the
      backfill applies; each call holds all its argument fragments; and a finish was
      seen exactly when some chunk carried one. */
  lemma {:induction false} RunForwards(wire: Wire, payloads: seq<string>, k: int)
    ensures var s := Run(wire, payloads);
            && s.out == AllForwarded(wire, payloads)
            && ArgsHeld(s, k) == ArgumentsOf(Observed(wire, payloads), k)
            && (forall j :: j in s.tools <==> j in s.toolOrder)
            && (s.finishSeen <==> exists i :: 0 <= i < |Observed(wire, payloads)| && HasFinish(Observed(wire, payloads)[i]))
  {
    hide Watch, ArgsHeld, ChunkArguments, HasFinish;
    if payloads == [] {
      assert ArgsHeld(FRESH, k).None? by {
        NothingHeld(k);
      }
    } else {
      var rest, data := payloads[..|payloads| - 1], payloads[|payloads| - 1];
      RunForwards(wire, rest, k);
      var before := Run(wire, rest);
      var seen, now := Observed(wire, rest), Observed(wire, payloads);
      if wire.observe(data).Some? {
        var chunk := wire.observe(data).value;
        WatchKeepsFlags(before, chunk);
        WatchJoins(before, chunk, k);
        assert now == seen + [chunk] && now[..|seen|] == seen;
        assert forall i :: 0 <= i < |seen| ==> now[i] == seen[i];
        assert now[|seen|] == chunk;
        ArgsIgnoreOut(Watch(before, chunk), [Forwarded(wire, data)], k);
      } else {
        assert now == seen;
        ArgsIgnoreOut(before, [Forwarded(wire, data)], k);
      }
      assert AllForwarded(wire, payloads) == AllForwarded(wire, rest) + [Forwarded(wire, data)];
    }
  }

  lemma {:induction false} NothingHeld(k: int)
    ensures ArgsHeld(FRESH, k).None?
  {
  }

  lemma {:induction false} ArgsIgnoreOut(sc: Conv, more: seq<string>, k: int)
    ensures ArgsHeld(sc.(out := sc.out + more), k) == ArgsHeld(sc, k)
  {
  }

  /** [DONE] is accepted exactly when every call's joined arguments are valid JSON. */
  lemma {:induction false} DoneChecksArguments(wire: Wire, payloads: seq<string>)
    ensures Complete(wire, Run(wire, payloads))
            <==> forall k :: ArgumentsOf(Observed(wire, payloads), k).Some?
                             ==> wire.valid(DefaultArgs(ArgumentsOf(Observed(wire, payloads), k).value))
  {
    hide Run, Observed, ArgumentsOf, DefaultArgs;
    var s := Run(wire, payloads);
    forall k
      ensures ArgsHeld(s, k) == ArgumentsOf(Observed(wire, payloads), k) && (k in s.tools <==> k in s.toolOrder)
    {
      RunForwards(wire, payloads, k);
    }
    if Complete(wire, s) {
      forall k | ArgumentsOf(Observed(wire, payloads), k).Some?
        ensures wire.valid(DefaultArgs(ArgumentsOf(Observed(wire, payloads), k).value))
      {
        assert ArgsHeld(s, k).Some?;
      }
    } else {
      var k :| k in s.toolOrder && k in s.tools && !wire.valid(DefaultArgs(s.tools[k].args));
      assert ArgumentsOf(Observed(wire, payloads), k) == ArgsHeld(s, k) == Some(s.tools[k].args);
      assert !wire.valid(DefaultArgs(ArgumentsOf(Observed(wire, payloads), k).value));
    }
  }

  /** Over bytes, however cut: the client gets exactly the payloads before [DONE], in
      order; [DONE] with incomplete arguments is the only failure. */
  lemma {:induction false} EveryByteStreamIsForwarded(wire: Wire, pieces: seq<string>)
    ensures var heard := Hear(Concat(pieces));
            var fed := FeedAll(LineHandler(wire), Fed(FRESH, "", None), pieces);
            && fed.state.out == AllForwarded(wire, heard.payloads)
            && (fed.state.done <==> heard.ended && Complete(wire, Run(wire, heard.payloads)))
            && (fed.error.Some? <==> heard.ended && !Complete(wire, Run(wire, heard.payloads)))
            && (!fed.state.done ==> fed.state == Run(wire, heard.payloads))
  {
    hide LineHandler, Drain, FeedAll, Complete, Hear;
    AnySplit(LineHandler(wire), FRESH, pieces);
    var all := Concat(pieces);
    HandlerIs(wire, FRESH, "");
    assert "" + all == all;
    assert Run(wire, []) == FRESH;
    DrainRuns(wire, [], all);
    var payloads := Hear(all).payloads;
    assert [] + payloads == payloads;
    RunIsOpen(wire, payloads);
    RunForwards(wire, payloads, 0);
    hide Run, AllForwarded;
  }
}
/** The passthrough leg as the program runs it, and its runs under the pump. */
module ChatPassthroughConverter {
  import opened Common
  import opened ChatChunks
  import opened LineFeed
  import ChatPayloads
  import Leg = ChatPassthrough
  import Pump = StreamPump

  class StreamConverter {
    const wire: Leg.Wire
    var lineBuf: string
    var tools: map<int, Leg.Call>
    var toolOrder: seq<int>
    var finishSeen: bool
    var terminalSeen: bool
    var done: bool
    ghost var out: seq<string>

    ghost function State(): Leg.Conv
      reads this
    {
      Leg.Conv(tools, toolOrder, finishSeen, terminalSeen, done, out)
    }

    constructor (wire: Leg.Wire)
      ensures State() == Leg.FRESH && lineBuf == "" && this.wire == wire
    {
      this.wire := wire;
      lineBuf, tools, toolOrder, finishSeen, terminalSeen, done, out := "", map[], [], false, false, false, [];
    }

    method TakeFragments(deltas: seq<ToolDelta>)
      modifies `tools, `toolOrder
      ensures State() == Leg.TakeFragments(old(State()), deltas)
    {
      for i := 0 to |deltas|
        invariant Leg.TakeFragments(State(), deltas[i..]) == Leg.TakeFragments(old(State()), deltas)
      {
        var tc := deltas[i];
        ghost var before := State();
        assert deltas[i..][0] == tc && deltas[i..][1..] == deltas[i + 1..];
        if tc.index !in tools {
          tools := tools[tc.index := Leg.Call(tc.id, "", "")];
          toolOrder := toolOrder + [tc.index];
        }
        var t := tools[tc.index];
        if tc.name != "" {
          t := t.(name := t.name + tc.name);
        }
        if tc.args != "" {
          t := t.(args := t.args + tc.args);
        }
        assert t.name + "" == t.name && t.args + "" == t.args;
        tools := tools[tc.index := t];
        assert State() == Leg.TakeFragment(before, tc);
      }
    }

    method ValidateAccumulatedTools() returns (complete: bool)
      ensures complete == Leg.Complete(wire, State())
    {
      for i := 0 to |toolOrder|
        invariant forall j :: 0 <= j < i && toolOrder[j] in tools ==> wire.valid(DefaultArgs(tools[toolOrder[j]].args))
      {
        var k := toolOrder[i];
        if k in tools && !wire.valid(DefaultArgs(tools[k].args)) {
          assert !Leg.Complete(wire, State());
          return false;
        }
      }
      complete := true;
    }

    method PassthroughLine(line: string) returns (events: seq<string>, error: Option<StreamError>)
      modifies `tools, `toolOrder, `finishSeen, `terminalSeen, `done, `out
      ensures var o := Leg.TakeLine(wire, old(State()), line);
              if o.Ok? then error.None? && State() == o.value else error == Some(o.error) && State() == old(State())
      ensures out == old(out) + events
    {
      hide Leg.TakeFragments, Leg.Complete;
      events, error := [], None;
      match Classify(line)
      case Ignored =>
      case Done =>
        var complete := ValidateAccumulatedTools();
        if !complete {
          return [], Some(IncompleteArguments);
        }
        done, terminalSeen := true, true;
      case Payload(data) =>
        var observed := wire.observe(data);
        if observed.Some? && |observed.value.choices| > 0 {
          var c := observed.value.choices[0];
          if c.finish != "" && !finishSeen {
            finishSeen := true;
          }
          TakeFragments(c.toolCalls);
        }
        var fixed := wire.backfill(data);
        events := if fixed.Some? then [fixed.value] else [data];
        out := out + events;
    }

    /** Any piece of the byte stream. */
    method Feed(chunk: string) returns (events: seq<string>, isDone: bool, error: Option<StreamError>)
      modifies this
      ensures var fed := LineFeed.Feed(Leg.LineHandler(wire), Fed(old(State()), old(lineBuf), None), chunk);
              && error == fed.error && State() == fed.state && out == old(out) + events
              && (error.None? ==> lineBuf == fed.rest && isDone == done)
    {
      hide Leg.TakeLine, Drain, Leg.LineHandler;
      Leg.HandlerIs(wire, State(), "");
      events, error := [], None;
      if done {
        return [], true, None;
      }
      var h := Leg.LineHandler(wire);
      lineBuf := lineBuf + chunk;
      ghost var goal := Drain(h, State(), lineBuf);
      while true
        invariant !done && goal == Drain(h, State(), lineBuf) && out == old(out) + events
        decreases |lineBuf|
      {
        var i := Newline(lineBuf);
        Leg.DrainLine(wire, State(), lineBuf);
        if i == |lineBuf| {
          break;
        }
        var line := TrimSuffixCR(lineBuf[..i]);
        lineBuf := lineBuf[i + 1..];
        var more, failed := PassthroughLine(line);
        if failed.Some? {
          return events, false, failed;
        }
        events := events + more;
        if done {
          break;
        }
      }
      isDone := done;
    }

    /** End of input: nothing is emitted, and a stream without a finish fails. */
    method FinalizeStream() returns (error: Option<StreamError>)
      modifies `terminalSeen
      ensures var o := Leg.Finalize(wire, old(State()));
              if o.Ok? then error.None? && State() == o.value else error == Some(o.error) && State() == old(State())
    {
      hide Leg.Complete;
      if terminalSeen {
        return None;
      }
      if !finishSeen {
        return Some(NoFinishReason);
      }
      var complete := ValidateAccumulatedTools();
      if !complete {
        return Some(IncompleteArguments);
      }
      terminalSeen := true;
      error := None;
    }
  }

  // ---- under the pump ----

  type Feeding = LineFeed.Fed<Leg.Conv, StreamError>

  function ErrorText(e: StreamError): string {
    if e.NoFinishReason? then "Chat Completions stream ended before finish_reason"
    else "tool call arguments were incomplete at stream completion"
  }

  function FeedOne(wire: Leg.Wire, s: Feeding, bytes: string): Pump.Fed<Feeding> {
    var f := LineFeed.Feed(Leg.LineHandler(wire), s, bytes);
    Pump.Fed(f, if |s.state.out| <= |f.state.out| then f.state.out[|s.state.out|..] else [], f.state.done,
             if f.error.Some? then Some(ErrorText(f.error.value)) else None)
  }

  function FinishOne(wire: Leg.Wire, s: Feeding): Result<seq<string>, string> {
    match Leg.Finalize(wire, s.state)
    case Ok(_) => Ok([])
    case Err(e) => Err(ErrorText(e))
  }

  function Stream(wire: Leg.Wire, progress: Feeding -> nat): Pump.Converter<Feeding> {
    Pump.Converter((s: Feeding, bytes: string) => FeedOne(wire, s, bytes),
                   (s: Feeding) => Pump.Snapshot(progress(s), s.state.finishSeen),
                   (s: Feeding) => FinishOne(wire, s), (s: Feeding) => FinishOne(wire, s))
  }

  const START: Feeding := LineFeed.Fed(Leg.FRESH, "", None)

  lemma {:induction false} PumpFeedsLines(wire: Leg.Wire, progress: Feeding -> nat, payloads: seq<string>)
    ensures var f := Pump.FeedAll(Stream(wire, progress), START, payloads);
            f.state == LineFeed.FeedAll(Leg.LineHandler(wire), START, payloads) && f.done == f.state.state.done
  {
    hide Leg.LineHandler;
    if payloads == [] {
    } else {
      PumpFeedsLines(wire, progress, payloads[..|payloads| - 1]);
    }
  }

  /** A run of the pump that closes downstream without a label carried [DONE] or a
      chunk with a finish_reason, and every call's arguments were complete. */
  lemma {:induction false} LabelFreeMeansFinished(wire: Leg.Wire, progress: Feeding -> nat, job: Pump.Job<Feeding>, fed: nat,
                                                  work: seq<Pump.HostCall>, ending: Pump.Ending)
    requires job.conv == Stream(wire, progress) && job.start == START
    requires fed <= |job.script| && Pump.Explained(job, fed, work, ending) && ending.Ended?
    ensures var heard := ChatPayloads.Hear(LineFeed.Concat(Pump.Payloads(job.script[..fed])));
            var chunks := Leg.Observed(wire, heard.payloads);
            && (heard.ended || exists i :: 0 <= i < |chunks| && HasFinish(chunks[i]))
            && Leg.Complete(wire, Leg.Run(wire, heard.payloads))
  {
    hide Leg.LineHandler, Leg.Run, Leg.Complete, ChatPayloads.Hear, HasFinish, Leg.Observed, Pump.FeedAll, LineFeed.FeedAll,
         LineFeed.Concat, Pump.Explained, Pump.Payloads, Pump.Emitted;
    var payloads := Pump.Payloads(job.script[..fed]);
    Pump.ExplainedConcludes(job, fed, work, ending);
    PumpFeedsLines(wire, progress, payloads);
    Leg.EveryByteStreamIsForwarded(wire, payloads);
    var heard := ChatPayloads.Hear(LineFeed.Concat(payloads));
    Leg.RunForwards(wire, heard.payloads, 0);
    Leg.RunIsOpen(wire, heard.payloads);
  }
}
