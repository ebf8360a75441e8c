/** The Claude leg over bytes: block discipline for whatever the upstream sends
    and however it is cut into pieces. */
module ChatToClaudeBytes {
  import opened Common
  import opened ChatChunks
  import opened ChatPayloads
  import opened ClaudeProtocol
  import opened ChatToClaude
  import opened ChatToClaudeSafety
  import opened ChatToClaudeRuns
  import opened ChatToClaudeConverter
  import opened LineFeed

  /** The converter once a reading is through: an accepted [DONE] closes the run. */
  function Concluding(json: Json, r: Reading): Conv {
    if !r.ended then Run(r.chunks)
    else
      match TakeDone(json, Run(r.chunks))
      case Ok(s) => s
      case Err(_) => Run(r.chunks)
  }

  /** What a reading fails with: its own error, or [DONE] behind incomplete arguments. */
  function Failing(json: Json, r: Reading): Option<StreamError> {
    if r.error.Some? then r.error
    else if !r.ended then None
    else
      match TakeDone(json, Run(r.chunks))
      case Ok(_) => None
      case Err(e) => Some(e)
  }

  lemma {:induction false} RunAppend(chunks: seq<Chunk>, chunk: Chunk)
    ensures Run(chunks + [chunk]) == TakeChunk(Run(chunks), chunk)
  {
    hide TakeChunk;
    assert (chunks + [chunk])[..|chunks|] == chunks;
  }

  lemma {:induction false} DoneIsDone(json: Json, sc: Conv)
    requires TakeDone(json, sc).Ok?
    ensures TakeDone(json, sc).value.done
  {
    hide StopBlocks, CountsOf;
  }

  /** Draining a buffer after some chunks is reading on from them. */
  lemma {:induction false} DrainReads(json: Json, chunks: seq<Chunk>, buf: string)
    ensures var r := After(chunks, Read(json, buf));
            var fed := Drain(LineHandler(json), Run(chunks), buf);
            fed.state == Concluding(json, r) && fed.error == Failing(json, r)
    decreases |buf|
  {
    hide Drain, LineHandler, Run, TakeChunk, TakeDone, Classify, Read;
    DrainLine(json, Run(chunks), buf);
    ReadLine(json, buf);
    RunIsOpen(chunks);
    assert chunks + [] == chunks;
    var i := Newline(buf);
    if i < |buf| {
      match Classify(TrimSuffixCR(buf[..i]))
      case Ignored => DrainReads(json, chunks, buf[i + 1..]);
      case Done =>
        if TakeDone(json, Run(chunks)).Ok? {
          DoneIsDone(json, Run(chunks));
        }
      case Payload(data) =>
        if json.decode(data).Ok? {
          var chunk := json.decode(data).value;
          RunAppend(chunks, chunk);
          RunIsOpen(chunks + [chunk]);
          DrainReads(json, chunks + [chunk], buf[i + 1..]);
          AfterAfter(chunks, [chunk], Read(json, buf[i + 1..]));
        }
    }
  }

  /** Feeding the pieces is reading their concatenation. */
  lemma {:induction false} FeedsRead(json: Json, pieces: seq<string>)
    ensures var r, fed := Read(json, Concat(pieces)), FeedAll(LineHandler(json), Fed(FRESH, "", None), pieces);
            fed.state == Concluding(json, r) && fed.error == Failing(json, r)
  {
    hide Drain, LineHandler, FeedAll, TakeDone, Read;
    AnySplit(LineHandler(json), FRESH, pieces);
    HandlerIs(json, FRESH, "");
    var all := Concat(pieces);
    assert "" + all == all && Run([]) == FRESH;
    DrainReads(json, [], all);
    AfterAfter([], [], Read(json, all));
  }

  /** The leg's main safety theorem, over bytes: block discipline, the exact
      counters and all content for the chunks that the bytes decode to. */
  lemma {:induction false} EveryByteStreamKeepsDiscipline(json: Json, pieces: seq<string>)
    ensures var r, fed := Read(json, Concat(pieces)), FeedAll(LineHandler(json), Fed(FRESH, "", None), pieces);
            var sc := fed.state;
            var c := Replay(sc.desk.log);
            && (sc.done <==> r.ended && AllComplete(json, r.chunks))
            && fed.error == (if r.ended && !AllComplete(json, r.chunks) then Some(IncompleteArguments) else r.error)
            && c.Client? && Starts(sc.desk.log) == UpTo(|c.blocks|)
            && c.starts <= 1 && c.deltas <= 1 && c.stops == Bump(sc.done) && c.dangling == 0
            && c.stray == FocusOn(r.chunks).stray
            && (sc.done ==> forall i: nat :: StopCount(sc.desk.log, i) == StartCount(sc.desk.log, i))
            && (sc.done ==> c.deltas == Bump(FocusOn(r.chunks).finished))
            && Conserves(sc.desk, r.chunks)
  {
    hide FeedAll, LineHandler, Run, FocusOn, Replay, TakeDone, StartCount, StopCount, Read, AllComplete, Concat, Conserves;
    FeedsRead(json, pieces);
    var r := Read(json, Concat(pieces));
    ReadingEndsOrFails(json, Concat(pieces));
    RunIsOpen(r.chunks);
    ArgumentsAreChecked(json, r.chunks);
    DoneFailsOnArguments(json, Run(r.chunks));
    EveryRunKeepsDiscipline(r.chunks);
    EveryRunConservesContent(r.chunks);
    if TakeDone(json, Run(r.chunks)).Ok? {
      DoneEndsCleanly(json, r.chunks);
      DoneConservesContent(json, r.chunks);
    }
    AcceptedStartsInOrder(FeedAll(LineHandler(json), Fed(FRESH, "", None), pieces).state.desk.log);
  }

  lemma {:induction false} DoneFailsOnArguments(json: Json, sc: Conv)
    ensures TakeDone(json, sc).Err? ==> TakeDone(json, sc).error == IncompleteArguments
  {
    hide StopBlocks, Terminal;
  }
}
