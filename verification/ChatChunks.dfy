/** The upstream Chat Completions stream as the converters see it: data lines
    and the decoded chunk shape. JSON decoding itself stays a parameter. */
module ChatChunks {
  import opened Common

  datatype ToolDelta = ToolDelta(index: int, id: string, name: string, args: string)

  /** `reasoning` is the thinking text of any vendor spelling, when present. */
  datatype Choice = Choice(reasoning: Option<string>, content: string, toolCalls: seq<ToolDelta>, finish: string)

  datatype Usage = Usage(prompt: int, completion: int, cached: Option<int>, reasoning: Option<int>)

  datatype Chunk = Chunk(id: string, model: string, choices: seq<Choice>, usage: Option<Usage>)

  datatype StreamError = MalformedChunk | UpstreamFailure | EmptyStream | IncompleteArguments
                       | ArgumentsAfterCompletion | BadCustomInput | IncompleteTool | NoFinishReason

  /** The JSON layer: payload decoding, validity, and the custom-tool wrapper. */
  datatype Json = Json(decode: string -> Result<Chunk, StreamError>, valid: string -> bool, unwrap: string -> Option<string>)

  /** What one line means to a converter. */
  datatype Line = Ignored | Done | Payload(data: string)

  const DATA_PREFIX := "data:"
  const DONE_SENTINEL := "[DONE]"

  function Classify(line: string): Line {
    if DATA_PREFIX <= line then
      var data := TrimSpace(line[|DATA_PREFIX|..]);
      if data == "" then Ignored else if data == DONE_SENTINEL then Done else Payload(data)
    else Ignored
  }

  // ---- what a stream of chunks carries, independently of any converter ----

  /** Argument text accumulated by a call; None while the call is unheard of. */
  function Join(a: Option<string>, b: Option<string>): Option<string> {
    if b.None? then a else if a.None? then b else Some(a.value + b.value)
  }

  lemma {:induction false} JoinAssociative(a: Option<string>, b: Option<string>, c: Option<string>)
    ensures Join(Join(a, b), c) == Join(a, Join(b, c))
  {
    if a.Some? && b.Some? && c.Some? {
      assert (a.value + b.value) + c.value == a.value + (b.value + c.value);
    }
  }

  function Fragment(delta: ToolDelta, index: int): Option<string> {
    if delta.index == index then Some(delta.args) else None
  }

  /** All argument fragments a list of deltas carries for one call. */
  function Fragments(deltas: seq<ToolDelta>, index: int): Option<string> {
    if deltas == [] then None else Join(Fragment(deltas[0], index), Fragments(deltas[1..], index))
  }

  /** Only the first choice of a chunk is translated. */
  function ContentOf(chunks: seq<Chunk>): string {
    if chunks == [] then ""
    else ContentOf(chunks[..|chunks| - 1]) + ChunkContent(chunks[|chunks| - 1])
  }

  function ChunkContent(chunk: Chunk): string {
    if chunk.choices == [] then "" else chunk.choices[0].content
  }

  function ReasoningOf(chunks: seq<Chunk>): string {
    if chunks == [] then ""
    else ReasoningOf(chunks[..|chunks| - 1]) + ChunkReasoning(chunks[|chunks| - 1])
  }

  function ChunkReasoning(chunk: Chunk): string {
    if chunk.choices == [] || chunk.choices[0].reasoning.None? then "" else chunk.choices[0].reasoning.value
  }

  function ArgumentsOf(chunks: seq<Chunk>, index: int): Option<string> {
    if chunks == [] then None
    else Join(ArgumentsOf(chunks[..|chunks| - 1], index), ChunkArguments(chunks[|chunks| - 1], index))
  }

  function ChunkArguments(chunk: Chunk, index: int): Option<string> {
    if chunk.choices == [] then None else Fragments(chunk.choices[0].toolCalls, index)
  }

  /** The last usage report of the stream. */
  function LastUsage(chunks: seq<Chunk>): Option<Usage> {
    if chunks == [] then None
    else if chunks[|chunks| - 1].usage.Some? then chunks[|chunks| - 1].usage
    else LastUsage(chunks[..|chunks| - 1])
  }

  // ---- the course of a stream ----

  /** The first chunk with a choice names the response. */
  function Opener(chunks: seq<Chunk>): Option<Chunk> {
    if chunks == [] then None
    else
      var before := Opener(chunks[..|chunks| - 1]);
      if before.Some? || chunks[|chunks| - 1].choices == [] then before else Some(chunks[|chunks| - 1])
  }

  predicate HasFinish(chunk: Chunk) { chunk.choices != [] && chunk.choices[0].finish != "" }

  predicate EndsInFinish(chunks: seq<Chunk>) { chunks != [] && HasFinish(chunks[|chunks| - 1]) }

  /** The chunks up to the first with a finish_reason; all of them without one. */
  function Told(chunks: seq<Chunk>): (told: seq<Chunk>)
    ensures told <= chunks && (EndsInFinish(told) || told == chunks)
  {
    if chunks == [] then []
    else
      var before := Told(chunks[..|chunks| - 1]);
      if EndsInFinish(before) then before else chunks
  }

  /** Those and the trailer behind them, if it came. */
  function Counted(chunks: seq<Chunk>): seq<Chunk> {
    if Told(chunks) == chunks then chunks else chunks[..|Told(chunks)| + 1]
  }

  /** The first finish_reason, "stop" without one. */
  function FinishOf(chunks: seq<Chunk>): string {
    var told := Told(chunks);
    if EndsInFinish(told) then told[|told| - 1].choices[0].finish else "stop"
  }

  /** The first fragment of a call says who it is. */
  function FirstOf(deltas: seq<ToolDelta>, index: int): Option<ToolDelta> {
    if deltas == [] then None else if deltas[0].index == index then Some(deltas[0]) else FirstOf(deltas[1..], index)
  }

  function FirstFragment(chunks: seq<Chunk>, index: int): Option<ToolDelta> {
    if chunks == [] then None
    else
      var before, chunk := FirstFragment(chunks[..|chunks| - 1], index), chunks[|chunks| - 1];
      if before.Some? || chunk.choices == [] then before else FirstOf(chunk.choices[0].toolCalls, index)
  }
}
