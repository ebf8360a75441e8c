/** The pump over the Chat Completions converter for Claude and for Chat clients:
    a stream that closes without an error label was finished by the upstream. */
module PumpedChat {
  import opened Common
  import opened ChatChunks
  import opened ClaudeProtocol
  import opened ChatToClaude
  import opened ChatToClaudeRuns
  import opened ChatToClaudeTold
  import opened ChatToClaudeConverter
  import opened ChatToClaudeBytes
  import ChatPayloads
  import LineFeed
  import Pump = StreamPump

  type Feeding = LineFeed.Fed<Conv, StreamError>

  function ErrorText(e: StreamError): string {
    match e
    case MalformedChunk => "malformed Chat Completions stream chunk"
    case UpstreamFailure => "upstream failure"
    case EmptyStream => "Responses stream ended without any response events"
    case IncompleteArguments => "tool call arguments were incomplete at stream completion"
    case ArgumentsAfterCompletion => "tool call received arguments after completion"
    case BadCustomInput => "custom tool input"
    case IncompleteTool => "tool call was incomplete when the stream ended"
    case NoFinishReason => "Chat Completions stream ended before finish_reason"
  }

  function Rendered(events: seq<Event>, render: Event -> string): seq<string> {
    if events == [] then [] else Rendered(events[..|events| - 1], render) + [render(events[|events| - 1])]
  }

  /** The events a step added to the log. */
  function News(before: seq<Event>, after: seq<Event>, render: Event -> string): seq<string> {
    if |before| <= |after| then Rendered(after[|before|..], render) else []
  }

  function FeedClaude(json: Json, render: Event -> string, s: Feeding, bytes: string): Pump.Fed<Feeding> {
    var f := LineFeed.Feed(LineHandler(json), s, bytes);
    Pump.Fed(f, News(s.state.desk.log, f.state.desk.log, render), f.state.done,
             if f.error.Some? then Some(ErrorText(f.error.value)) else None)
  }

  function FinishClaude(json: Json, render: Event -> string, s: Feeding): Result<seq<string>, string> {
    match Finalize(json, s.state)
    case Ok(c) => Ok(News(s.state.desk.log, c.desk.log, render))
    case Err(e) => Err(ErrorText(e))
  }

  /** The converter for Claude clients; flushing is finalizing. */
  function ClaudeStream(json: Json, render: Event -> string, progress: Feeding -> nat): Pump.Converter<Feeding> {
    Pump.Converter((s: Feeding, bytes: string) => FeedClaude(json, render, s, bytes),
                   (s: Feeding) => Pump.Snapshot(progress(s), s.state.flags.finishSeen),
                   (s: Feeding) => FinishClaude(json, render, s),
                   (s: Feeding) => FinishClaude(json, render, s))
  }

  const START: Feeding := LineFeed.Fed(FRESH, "", None)

  lemma {:induction false} PumpFeedsLines(json: Json, render: Event -> string, progress: Feeding -> nat, payloads: seq<string>)
    ensures Pump.FeedAll(ClaudeStream(json, render, progress), START, payloads).state
            == LineFeed.FeedAll(LineHandler(json), START, payloads)
  {
    hide LineHandler, News;
    if payloads == [] {
    } else {
      PumpFeedsLines(json, render, progress, payloads[..|payloads| - 1]);
    }
  }

  /** A run of the pump that closes downstream without a label, by [DONE], by the
      flush at end of input or by the finish grace, means that the reads fed held
      [DONE] or a finish_reason, and that the joined arguments of every call in
      them were complete. */
  lemma {:induction false} LabelFreeMeansFinished(json: Json, render: Event -> string, progress: Feeding -> nat, job: Pump.Job<Feeding>,
                                                  fed: nat, work: seq<Pump.HostCall>, ending: Pump.Ending)
    requires job.conv == ClaudeStream(json, render, progress) && job.start == START
    requires fed <= |job.script| && Pump.Explained(job, fed, work, ending) && ending.Ended?
    ensures var r := ChatPayloads.Read(json, LineFeed.Concat(Pump.Payloads(job.script[..fed])));
            (r.ended || FocusOn(r.chunks).finished) && AllComplete(json, r.chunks)
  {
    hide LineHandler, News, Run, FocusOn, TakeDone, ChatPayloads.Read, AllComplete, LineFeed.Concat, LineFeed.FeedAll, Finalize,
         Pump.Explained, Pump.FeedAll, Pump.Payloads, Pump.Emitted;
    var payloads := Pump.Payloads(job.script[..fed]);
    Pump.ExplainedConcludes(job, fed, work, ending);
    PumpFeedsLines(json, render, progress, payloads);
    FeedsRead(json, payloads);
    LastFedDone(json, render, progress, payloads);
    var r := ChatPayloads.Read(json, LineFeed.Concat(payloads));
    RunIsOpen(r.chunks);
    ArgumentsAreChecked(json, r.chunks);
    EofEndsOnlyAfterFinish(json, r.chunks);
  }

  lemma {:induction false} LastFedDone(json: Json, render: Event -> string, progress: Feeding -> nat, payloads: seq<string>)
    ensures var f := Pump.FeedAll(ClaudeStream(json, render, progress), START, payloads);
            f.done == f.state.state.done
  {
    hide LineHandler, News;
  }

  // ---- what reaches the client ----

  lemma {:induction false} RenderedConcat(a: seq<Event>, b: seq<Event>, render: Event -> string)
    ensures Rendered(a + b, render) == Rendered(a, render) + Rendered(b, render)
    decreases |b|
  {
    if b == [] {
      assert a + b == a;
    } else {
      RenderedConcat(a, b[..|b| - 1], render);
      assert (a + b)[..|a + b| - 1] == a + b[..|b| - 1];
    }
  }

  /** News on top of what was sent is the whole log. */
  lemma {:induction false} NewsAddsUp(before: seq<Event>, after: seq<Event>, render: Event -> string)
    requires before <= after
    ensures Rendered(before, render) + News(before, after, render) == Rendered(after, render)
  {
    RenderedConcat(before, after[|before|..], render);
    assert before + after[|before|..] == after;
  }

  lemma {:induction false} LineGrows(json: Json, sc: Conv, line: string)
    ensures TakeLine(json, sc, line).Ok? ==> sc.desk.log <= TakeLine(json, sc, line).value.desk.log
  {
    hide TakeChunk, TakeDone;
    ClosingGrows(json, sc);
    match ChatChunks.Classify(line)
    case Payload(data) =>
      if json.decode(data).Ok? {
        ChunkGrows(sc, json.decode(data).value);
      }
    case _ =>
  }

  lemma {:induction false} DrainGrows(json: Json, sc: Conv, buf: string)
    ensures sc.desk.log <= LineFeed.Drain(LineHandler(json), sc, buf).state.desk.log
    decreases |buf|
  {
    hide LineFeed.Drain, LineHandler, TakeLine;
    LineFeed.DrainStep(LineHandler(json), sc, buf);
    var i := LineFeed.Newline(buf);
    if i < |buf| {
      var line := TrimSuffixCR(buf[..i]);
      HandlerIs(json, sc, line);
      LineGrows(json, sc, line);
      if TakeLine(json, sc, line).Ok? {
        DrainGrows(json, TakeLine(json, sc, line).value, buf[i + 1..]);
      }
    }
  }

  /** The events the pump is given are the converter's log, rendered. */
  lemma {:induction false} EventsAreTheLog(json: Json, render: Event -> string, progress: Feeding -> nat, payloads: seq<string>)
    ensures var f := Pump.FeedAll(ClaudeStream(json, render, progress), START, payloads);
            f.events == Rendered(f.state.state.desk.log, render)
  {
    hide LineHandler, News, LineFeed.Drain;
    if payloads == [] {
    } else {
      var conv := ClaudeStream(json, render, progress);
      var before, bytes := Pump.FeedAll(conv, START, payloads[..|payloads| - 1]), payloads[|payloads| - 1];
      EventsAreTheLog(json, render, progress, payloads[..|payloads| - 1]);
      var f := LineFeed.Feed(LineHandler(json), before.state, bytes);
      DrainGrows(json, before.state.state, before.state.rest + bytes);
      NewsAddsUp(before.state.state.desk.log, f.state.desk.log, render);
    }
  }

  /** End to end: what a run that closes without a label sent downstream is one
      Claude stream, rendered, that tells message_start, message_delta and
      message_stop of the upstream's chunks exactly, with all their content. */
  lemma {:induction false} LabelFreeRunsTellAll(json: Json, render: Event -> string, progress: Feeding -> nat, job: Pump.Job<Feeding>,
                                                fed: nat, work: seq<Pump.HostCall>, ending: Pump.Ending) returns (d: Desk)
    requires job.conv == ClaudeStream(json, render, progress) && job.start == START
    requires fed <= |job.script| && Pump.Explained(job, fed, work, ending) && ending.Ended?
    ensures Pump.Emitted(work) == Rendered(d.log, render)
    ensures var chunks := ChatPayloads.Read(json, LineFeed.Concat(Pump.Payloads(job.script[..fed]))).chunks;
            Meta(d.log) == Frame(chunks) && Conserves(d, chunks)
  {
    hide LineHandler, News, Run, FocusOn, TakeDone, ChatPayloads.Read, AllComplete, LineFeed.Concat, LineFeed.FeedAll, Finalize,
         Pump.Explained, Pump.FeedAll, Pump.Payloads, Pump.Emitted, Meta, Frame, Conserves, Rendered;
    var payloads := Pump.Payloads(job.script[..fed]);
    Pump.ExplainedConcludes(job, fed, work, ending);
    PumpFeedsLines(json, render, progress, payloads);
    FeedsRead(json, payloads);
    LastFedDone(json, render, progress, payloads);
    EventsAreTheLog(json, render, progress, payloads);
    var r := ChatPayloads.Read(json, LineFeed.Concat(payloads));
    var sc := Run(r.chunks);
    RunIsOpen(r.chunks);
    ArgumentsAreChecked(json, r.chunks);
    EofEndsOnlyAfterFinish(json, r.chunks);
    if r.ended {
      DoneIsDone(json, sc);
      DoneTellsAll(json, r.chunks);
      DoneConservesContent(json, r.chunks);
      d := TakeDone(json, sc).value.desk;
    } else {
      FinishedIsTold(r.chunks);
      EofTellsAll(json, r.chunks);
      EofConservesContent(json, r.chunks);
      ClosingGrows(json, sc);
      NewsAddsUp(sc.desk.log, Finalize(json, sc).value.desk.log, render);
      d := Finalize(json, sc).value.desk;
    }
  }

  lemma {:induction false} FinishedIsTold(chunks: seq<Chunk>)
    requires FocusOn(chunks).finished
    ensures EndsInFinish(Told(chunks))
  {
    hide Run, Meta, FirstFragment, Beginning, Ending, FocusOn, Inv;
    RunInv(chunks);
    StageFinishes(Run(chunks), FocusOn(chunks));
    RunTells(chunks);
  }
}
