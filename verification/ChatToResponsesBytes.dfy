/** The Responses leg over bytes: whatever the upstream sends and however it is
    cut into pieces, the strict client accepts what the converter emits. */
module ChatToResponsesBytes {
  import opened Common
  import opened ChatChunks
  import opened ChatPayloads
  import opened ResponsesProtocol
  import opened ChatToResponses
  import opened ChatToResponsesSafety
  import opened ChatToResponsesRuns
  import opened ChatToResponsesCalls
  import opened ChatToResponsesContent
  import Shape = ChatToResponsesShape
  import opened ChatToResponsesTail
  import opened ChatToResponsesConverter
  import opened LineFeed

  lemma {:induction false} DoneKeepsInvariant(env: Env, sc: Conv)
    requires Inv(sc) && TakeDone(env, sc).Ok?
    ensures Inv(TakeDone(env, sc).value) && TakeDone(env, sc).value.terminalSent
  {
    hide Tracks, Undone, Terminal, StopReasoning, Sealed, SealedBy, TakeDone, BeforeCompleted;
    if sc.terminalSent {
      DoneAfterEnd(env, sc);
    } else {
      DoneIsTheTerminal(env, sc);
      EmptyStreamFails(env, sc);
      TerminalSeals(env, sc, true);
      SealedByIs(sc, BeforeCompleted(env, sc).value, Terminal(env, sc, true).value);
      DoneFlag(Terminal(env, sc, true).value);
    }
  }

  lemma {:induction false} DoneFlag(sc: Conv)
    ensures Sealed(sc.(done := true)) == Sealed(sc)
  {
  }

  lemma {:induction false} DoneAfterEnd(env: Env, sc: Conv)
    requires sc.terminalSent && sc.started && Sealed(sc) && TakeDone(env, sc).Ok?
    ensures var s := TakeDone(env, sc).value;
            s.terminalSent && s.started && Sealed(s)
  {
    hide StopReasoning, Complete, Sealed;
    StopReasoningFollows(sc);
    hide Follows;
    FollowsSealed(sc, StopReasoning(sc));
    DoneFlag(StopReasoning(sc));
  }

  lemma {:induction false} FollowsSealed(sc: Conv, s: Conv)
    requires Follows(sc, s) && Sealed(sc)
    ensures Sealed(s) && s.terminalSent == sc.terminalSent && s.started == sc.started
  {
  }

  /** End of input without [DONE]: the same terminal, with "stop" synthesized
      when no finish_reason is held. */
  lemma {:induction false} FlushKeepsInvariant(env: Env, sc: Conv)
    requires Inv(sc) && FlushEnd(env, sc).Ok?
    ensures Inv(FlushEnd(env, sc).value) && (!sc.flushed ==> FlushEnd(env, sc).value.terminalSent)
  {
    hide Tracks, Undone, Terminal, Sealed, SealedBy, BeforeCompleted;
    var s0 := sc.(flushed := true);
    FlushingKeeps(sc, s0);
    if !sc.flushed && !sc.terminalSent {
      EmptyStreamFails(env, s0);
      TerminalSeals(env, s0, true);
      SealedByIs(s0, BeforeCompleted(env, s0).value, Terminal(env, s0, true).value);
    } else if !sc.flushed {
      TerminalIsOneShot(env, s0);
    }
  }

  lemma {:induction false} TerminalIsOneShot(env: Env, sc: Conv)
    requires sc.terminalSent
    ensures Terminal(env, sc, true) == Ok(sc)
  {
  }

  lemma {:induction false} LineKeepsInvariant(env: Env, sc: Conv, line: string)
    requires Inv(sc) && TakeLine(env, sc, line).Ok?
    ensures Inv(TakeLine(env, sc, line).value)
  {
    hide Inv, TakeChunk, TakeDone;
    match Classify(line)
    case Ignored =>
    case Done => DoneKeepsInvariant(env, sc);
    case Payload(data) => TakeChunkKeepsInvariant(env, sc, env.json.decode(data).value);
  }

  lemma {:induction false} DrainKeepsInvariant(env: Env, sc: Conv, buf: string)
    requires Inv(sc)
    ensures Inv(Drain(LineHandler(env), sc, buf).state)
    decreases |buf|
  {
    hide Inv, TakeLine, Drain, LineHandler;
    DrainLine(env, sc, buf);
    var i := Newline(buf);
    if i < |buf| {
      var o := TakeLine(env, sc, TrimSuffixCR(buf[..i]));
      if o.Ok? {
        LineKeepsInvariant(env, sc, TrimSuffixCR(buf[..i]));
        DrainKeepsInvariant(env, o.value, buf[i + 1..]);
      }
    }
  }

  lemma {:induction false} FeedsKeepInvariant(env: Env, pieces: seq<string>)
    ensures Inv(FeedAll(LineHandler(env), Fed(FRESH, "", None), pieces).state)
  {
    hide Tracks, Sealed, Drain, LineHandler;
    if pieces == [] {
    } else {
      hide Inv;
      FeedsKeepInvariant(env, pieces[..|pieces| - 1]);
      var fed := FeedAll(LineHandler(env), Fed(FRESH, "", None), pieces[..|pieces| - 1]);
      DrainKeepsInvariant(env, fed.state, fed.rest + pieces[|pieces| - 1]);
    }
  }

  /** The leg's main safety theorem, over bytes. */
  lemma {:induction false} EveryByteStreamIsAccepted(env: Env, pieces: seq<string>)
    ensures var sc := FeedAll(LineHandler(env), Fed(FRESH, "", None), pieces).state;
            && Replay(sc.log).Client? && Numbered(sc.log)
            && (sc.terminalSent <==> Replay(sc.log).completed.Some?)
            && (sc.terminalSent ==> exists k :: WellCompleted(sc.log, k))
            && (!sc.terminalSent ==> forall j :: 0 <= j < |sc.log| ==> !sc.log[j].body.Completed?)
            && sc == Feed(LineHandler(env), Fed(FRESH, "", None), Concat(pieces)).state
  {
    hide Tracks, Undone, Untouched, FeedAll, Feed, LineHandler;
    FeedsKeepInvariant(env, pieces);
    AnySplit(LineHandler(env), FRESH, pieces);
    var sc := FeedAll(LineHandler(env), Fed(FRESH, "", None), pieces).state;
    InvIsAccepted(sc);
  }

  // ---- which chunks the finished response is about ----

  lemma {:induction false} ChunkCourse(env: Env, sc: Conv, chunk: Chunk)
    requires Inv(sc) && Orderly(sc) && TakeChunk(env, sc, chunk).Ok?
    ensures var s := TakeChunk(env, sc, chunk).value;
            && s.done == sc.done && s.flushed == sc.flushed && (s.finished <==> sc.finished || HasFinish(chunk))
            && (s.terminalSent <==> sc.terminalSent || sc.heldFinish != "")
            && s.heldFinish == (if HasFinish(chunk) && !sc.finished then chunk.choices[0].finish else "")
            && (s.started <==> sc.started || chunk.choices != [])
            && s.id == (if sc.started || chunk.choices == [] then sc.id else chunk.id)
            && s.model == (if sc.started || chunk.choices == [] then sc.model else chunk.model)
  {
    hide TakeChoice, Terminal, Inv, Start;
    var s0 := WithUsage(sc, chunk);
    if sc.heldFinish != "" {
      UsageInv(sc, s0);
      TerminalUnholds(env, s0);
      TerminalCourse(env, s0, false);
    }
    var s1 := if sc.heldFinish != "" then Terminal(env, s0, false).value else s0;
    StartCourse(s1, chunk);
    if chunk.choices != [] {
      TakeChoiceTalks(env, Start(s1, chunk), chunk.choices[0]);
      TakeChoiceKeepsFlags(env, Start(s1, chunk), chunk.choices[0]);
    }
  }

  lemma {:induction false} StartCourse(sc: Conv, chunk: Chunk)
    ensures SameCourse(sc, Start(sc, chunk)) && Start(sc, chunk).terminalSent == sc.terminalSent
    ensures var s := Start(sc, chunk);
            && (s.started <==> sc.started || chunk.choices != [])
            && s.id == (if sc.started || chunk.choices == [] then sc.id else chunk.id)
            && s.model == (if sc.started || chunk.choices == [] then sc.model else chunk.model)
  {
  }

  /** Where a run stands, read off its chunks. */
  ghost predicate Stands(sc: Conv, chunks: seq<Chunk>) {
    && !sc.done && !sc.flushed && (sc.finished <==> EndsInFinish(Told(chunks)))
    && (sc.terminalSent <==> Told(chunks) != chunks)
    && (sc.heldFinish != "" <==> EndsInFinish(chunks) && Told(chunks) == chunks)
    && (sc.heldFinish != "" ==> sc.heldFinish == FinishOf(chunks))
    && (sc.started <==> Opener(chunks).Some?)
    && (sc.started ==> sc.id == Opener(chunks).value.id && sc.model == Opener(chunks).value.model)
  }

  lemma {:induction false} RunStands(env: Env, chunks: seq<Chunk>)
    requires Run(env, chunks).Ok?
    ensures Stands(Run(env, chunks).value, chunks)
  {
    hide TakeChunk, Inv;
    if chunks == [] {
    } else {
      var shorter, chunk := chunks[..|chunks| - 1], chunks[|chunks| - 1];
      RunStands(env, shorter);
      RunKeepsInvariant(env, shorter);
      RunIsOrderly(env, shorter);
      ChunkCourse(env, Run(env, shorter).value, chunk);
      assert |Told(shorter)| < |chunks|;
    }
  }

  // ---- the bytes are the chunks they decode to ----

  /** The stream that a reading amounts to. */
  function RunOf(env: Env, r: Reading): ChatToResponses.Outcome {
    var sc :- Run(env, r.chunks);
    if r.error.Some? then Err(r.error.value) else if r.ended then TakeDone(env, sc) else Ok(sc)
  }

  ghost predicate Amounts(fed: Fed<Conv, StreamError>, o: ChatToResponses.Outcome) {
    match o
    case Ok(s) => fed.error.None? && fed.state == s
    case Err(e) => fed.error == Some(e)
  }

  lemma {:induction false} RunAppend(env: Env, chunks: seq<Chunk>, chunk: Chunk)
    requires Run(env, chunks).Ok?
    ensures Run(env, chunks + [chunk]) == TakeChunk(env, Run(env, chunks).value, chunk)
  {
    hide TakeChunk;
    assert (chunks + [chunk])[..|chunks|] == chunks;
  }

  /** A failed run stays failed. */
  lemma {:induction false} RunFails(env: Env, chunks: seq<Chunk>, more: seq<Chunk>)
    requires Run(env, chunks).Err?
    ensures Run(env, chunks + more) == Run(env, chunks)
    decreases |more|
  {
    hide TakeChunk;
    if more == [] {
      assert chunks + more == chunks;
    } else {
      var all := chunks + more;
      assert all[..|all| - 1] == chunks + more[..|more| - 1];
      RunFails(env, chunks, more[..|more| - 1]);
    }
  }

  lemma {:induction false} DoneIsDone(env: Env, sc: Conv)
    requires TakeDone(env, sc).Ok?
    ensures TakeDone(env, sc).value.done
  {
    hide StopReasoning, Terminal;
  }

  /** Draining a buffer after some chunks is reading on from them. */
  lemma {:induction false} DrainReads(env: Env, chunks: seq<Chunk>, buf: string)
    requires Run(env, chunks).Ok?
    ensures Amounts(Drain(LineHandler(env), Run(env, chunks).value, buf), RunOf(env, After(chunks, Read(env.json, buf))))
    decreases |buf|
  {
    hide Drain, LineHandler, Run, TakeChunk, TakeDone, Classify, Read;
    var sc := Run(env, chunks).value;
    DrainLine(env, sc, buf);
    ReadLine(env.json, buf);
    RunStands(env, chunks);
    assert chunks + [] == chunks;
    var i := Newline(buf);
    if i < |buf| {
      match Classify(TrimSuffixCR(buf[..i]))
      case Ignored => DrainReads(env, chunks, buf[i + 1..]);
      case Done =>
        if TakeDone(env, sc).Ok? {
          DoneIsDone(env, sc);
        }
      case Payload(data) =>
        if env.json.decode(data).Ok? {
          var chunk, rest := env.json.decode(data).value, Read(env.json, buf[i + 1..]);
          RunAppend(env, chunks, chunk);
          AfterAfter(chunks, [chunk], rest);
          if Run(env, chunks + [chunk]).Ok? {
            RunStands(env, chunks + [chunk]);
            DrainReads(env, chunks + [chunk], buf[i + 1..]);
          } else {
            RunFails(env, chunks + [chunk], rest.chunks);
          }
        }
    }
  }

  lemma {:induction false} FeedsRead(env: Env, pieces: seq<string>)
    ensures Amounts(FeedAll(LineHandler(env), Fed(FRESH, "", None), pieces), RunOf(env, Read(env.json, Concat(pieces))))
  {
    hide Drain, LineHandler, FeedAll, TakeDone, Read;
    AnySplit(LineHandler(env), FRESH, pieces);
    HandlerDone(env, FRESH);
    var all := Concat(pieces);
    assert "" + all == all && Run(env, []) == Ok(FRESH);
    DrainReads(env, [], all);
    AfterAfter([], [], Read(env.json, all));
  }

  // ---- the finished response, over bytes ----

  // ---- the finished response, over bytes ----

  ghost predicate Completes(sc: Conv, completed: Body) {
    Replay(sc.log).Client? && Replay(sc.log).completed == Some(completed)
  }

  lemma {:induction false} PrefixRuns(env: Env, chunks: seq<Chunk>, n: nat)
    requires n <= |chunks| && Run(env, chunks).Ok?
    ensures Run(env, chunks[..n]).Ok?
  {
    hide Run;
    assert chunks[..n] + chunks[n..] == chunks;
    if Run(env, chunks[..n]).Err? {
      RunFails(env, chunks[..n], chunks[n..]);
    }
  }

  /** Chunks behind the terminal leave the completed event as it is. */
  lemma {:induction false} CompletedStays(env: Env, chunks: seq<Chunk>, n: nat, completed: Body)
    requires n <= |chunks| && Run(env, chunks).Ok? && Run(env, chunks[..n]).Ok?
    requires Run(env, chunks[..n]).value.terminalSent && Completes(Run(env, chunks[..n]).value, completed)
    ensures Run(env, chunks).value.terminalSent && Completes(Run(env, chunks).value, completed)
    decreases |chunks|
  {
    hide TakeChunk, Replay, Sealed, Follows, Inv;
    if n == |chunks| {
      assert chunks[..n] == chunks;
    } else {
      var shorter, chunk := chunks[..|chunks| - 1], chunks[|chunks| - 1];
      assert shorter[..n] == chunks[..n];
      CompletedStays(env, shorter, n, completed);
      RunKeepsInvariant(env, shorter);
      AfterEnd(env, Run(env, shorter).value, chunk);
    }
  }

  lemma {:induction false} AfterEnd(env: Env, sc: Conv, chunk: Chunk)
    requires Inv(sc) && sc.terminalSent && TakeChunk(env, sc, chunk).Ok?
    ensures var s := TakeChunk(env, sc, chunk).value;
            s.terminalSent && Replay(s.log).Client? && Replay(s.log).completed == Replay(sc.log).completed
  {
    hide TakeChunk, Sealed, Replay;
    ChunkAfterEnd(env, sc, chunk);
    var s := TakeChunk(env, sc, chunk).value;
    FollowsKeepsCompleted(sc, s.(usage := sc.usage));
  }

  /** [DONE] and the flush leave a completed response as it is. */
  lemma {:induction false} ClosedTwice(env: Env, sc: Conv)
    requires Inv(sc) && sc.terminalSent
    ensures TakeDone(env, sc).Ok? ==> Replay(TakeDone(env, sc).value.log).Client?
                                      && Replay(TakeDone(env, sc).value.log).completed == Replay(sc.log).completed
    ensures FlushEnd(env, sc).Ok? && FlushEnd(env, sc).value.log == sc.log
  {
    hide StopReasoning, Complete, Sealed, Replay, Follows;
    StopReasoningFollows(sc);
    FollowsKeepsCompleted(sc, StopReasoning(sc));
    FollowsSealed(sc, StopReasoning(sc));
  }

  /** What closes a stream: [DONE], or the flush at end of input. */
  function ClosedBy(env: Env, sc: Conv, ended: bool): ChatToResponses.Outcome {
    if ended then TakeDone(env, sc) else FlushEnd(env, sc)
  }

  /** The status a finish_reason amounts to. */
  function StatusFor(chunks: seq<Chunk>): string {
    if FinishOf(chunks) == "length" then "incomplete" else "completed"
  }

  /** response.completed as the chunks call for it: of the response the first choice
      opened, incomplete exactly if it was cut at its length. */
  function CompletedFor(chunks: seq<Chunk>, output: seq<Item>): Body
    requires Opener(chunks).Some?
  {
    Completed(Opener(chunks).value.id, Opener(chunks).value.model, StatusFor(chunks),
              LastUsage(Counted(chunks)), output)
  }

  /** The output shows the segments told, under ids of the response opened. */
  ghost predicate Lists(chunks: seq<Chunk>, output: seq<Item>, place: map<int, nat>)
    requires Opener(chunks).Some?
  {
    Shape.Shows(output, Shape.LineOf(Told(chunks)), place, Opener(chunks).value.id, StatusFor(chunks))
  }

  lemma {:induction false} OpenerStays(chunks: seq<Chunk>, n: nat)
    requires n <= |chunks| && Opener(chunks[..n]).Some?
    ensures Opener(chunks) == Opener(chunks[..n])
  {
    if n == |chunks| {
      assert chunks[..n] == chunks;
    } else {
      assert chunks[..|chunks| - 1][..n] == chunks[..n];
      OpenerStays(chunks[..|chunks| - 1], n);
    }
  }

  /** A closed run, whatever completed it: the trailer, [DONE] or the flush. */
  lemma {:induction false} ClosedRunCompletes(env: Env, chunks: seq<Chunk>, ended: bool)
    returns (output: seq<Item>, place: map<int, nat>)
    requires Run(env, chunks).Ok? && ClosedBy(env, Run(env, chunks).value, ended).Ok?
    ensures Opener(chunks).Some? && Completes(ClosedBy(env, Run(env, chunks).value, ended).value, CompletedFor(chunks, output))
    ensures Conveys(env, output, Told(chunks), place) && Lists(chunks, output, place)
  {
    hide Run, TakeDone, FlushEnd, Conveys, LastUsage, Replay, Inv, Terminal, Opener, Shape.Shows;
    var sc := Run(env, chunks).value;
    RunStands(env, chunks);
    if Told(chunks) == chunks {
      ClosingIsTerminal(env, sc, ended);
      output, place := ClosingCompletes(env, chunks, if ended then sc else sc.(flushed := true));
    } else {
      RunKeepsInvariant(env, chunks);
      output, place := TrailedRunCompletes(env, chunks);
      ClosedTwice(env, sc);
    }
  }

  /** A run that went on behind its finish_reason completed there. */
  lemma {:induction false} TrailedRunCompletes(env: Env, chunks: seq<Chunk>) returns (output: seq<Item>, place: map<int, nat>)
    requires Run(env, chunks).Ok? && Told(chunks) != chunks
    ensures Opener(chunks).Some? && Completes(Run(env, chunks).value, CompletedFor(chunks, output))
    ensures Conveys(env, output, Told(chunks), place) && Lists(chunks, output, place)
  {
    hide Run, Conveys, LastUsage, Replay, Opener, Shape.Shows;
    var told := Told(chunks);
    var n := |told|;
    var trailer := chunks[n];
    assert told == chunks[..n] && told + [trailer] == chunks[..n + 1];
    PrefixRuns(env, chunks, n);
    PrefixRuns(env, chunks, n + 1);
    ToldTwice(chunks, n);
    RunStands(env, told);
    RunStands(env, told + [trailer]);
    FinishOpens(told);
    output, place := TrailerCompletes(env, told, trailer);
    OpenerStays(chunks, n);
    CompletedStays(env, chunks, n + 1, CompletedFor(chunks, output));
  }

  lemma {:induction false} FinishOpens(chunks: seq<Chunk>)
    requires EndsInFinish(chunks)
    ensures Opener(chunks).Some?
  {
  }

  /** The chunks told are those of any longer prefix too. */
  lemma {:induction false} ToldTwice(chunks: seq<Chunk>, n: nat)
    requires n == |Told(chunks)| < |chunks|
    ensures Told(chunks[..n]) == chunks[..n] && Told(chunks[..n + 1]) == chunks[..n] && FinishOf(chunks[..n]) == FinishOf(chunks)
  {
    var shorter := chunks[..|chunks| - 1];
    if n < |shorter| {
      assert shorter[..n] == chunks[..n] && shorter[..n + 1] == chunks[..n + 1];
      ToldTwice(shorter, n);
    } else {
      assert chunks[..n] == shorter && chunks[..n + 1] == chunks;
    }
  }

  lemma {:induction false} ClosingIsTerminal(env: Env, sc: Conv, ended: bool)
    requires !sc.terminalSent && !sc.flushed && ClosedBy(env, sc, ended).Ok?
    ensures var s := if ended then sc else sc.(flushed := true);
            Terminal(env, s, true).Ok? && ClosedBy(env, sc, ended).value.log == Terminal(env, s, true).value.log
  {
    hide Terminal, TakeDone;
    DoneIsTheTerminal(env, sc);
  }

  /** For every cutting of every byte stream that is read to its end without failure:
      the response is completed once, its output conveys all that the bytes carried
      up to the first finish_reason, its status is that of this finish_reason, its
      usage the last one reported up to the chunk behind it. */
  lemma {:induction false} EveryByteStreamCompletes(env: Env, pieces: seq<string>)
    returns (output: seq<Item>, place: map<int, nat>)
    requires var fed := FeedAll(LineHandler(env), Fed(FRESH, "", None), pieces);
             fed.error.None? && (fed.state.done || FlushEnd(env, fed.state).Ok?)
    ensures var fed, chunks := FeedAll(LineHandler(env), Fed(FRESH, "", None), pieces), Read(env.json, Concat(pieces)).chunks;
            && Opener(chunks).Some?
            && Completes(if fed.state.done then fed.state else FlushEnd(env, fed.state).value, CompletedFor(chunks, output))
    ensures Conveys(env, output, Told(Read(env.json, Concat(pieces)).chunks), place) && Lists(Read(env.json, Concat(pieces)).chunks, output, place)
  {
    hide Run, FeedAll, LineHandler, TakeDone, FlushEnd, Conveys, Replay, Read, Completes, Told, Opener, CompletedFor, Lists;
    FeedsRead(env, pieces);
    var r := Read(env.json, Concat(pieces));
    RunStands(env, r.chunks);
    if r.ended {
      DoneIsDone(env, Run(env, r.chunks).value);
    }
    output, place := ClosedRunCompletes(env, r.chunks, r.ended);
  }
}
