/** The Messages -> Responses route in its two forms: the stream converter of
    internal/adapter/messages/stream.go and the batch converter of
    internal/adapter/messages/convert.go, which must agree. */
module MessagesToResponses {
  import opened Common
  import opened OutputAssembly
  import opened SortedInts

  datatype Kind = Text | ToolUse(id: string, name: string) | Thinking | Unknown

  /** Decoded upstream frames that can reach the converter. */
  datatype Upstream =
    | MessageStart(id: string)
    | BlockStart(index: int, kind: Kind)
    | TextDelta(index: int, text: string)
    | JsonDelta(index: int, text: string)
    | MessageDelta(stopReason: string)
    | MessageStop
    | Other

  datatype Shell = MessageShell(id: string) | CallShell(id: string, name: string)

  datatype Event =
    | Created
    | ItemAdded(index: nat, shell: Shell)
    | TextSent(at: int, text: string)
    | ArgsSent(callId: string, at: int, text: string)
    | Completed(status: string, output: seq<Option<Item>>)

  datatype Failure = ArgumentsWithoutBlock | IncompleteArguments | UnknownBlock

  datatype BlockState = BlockState(kind: Kind, outIdx: nat, text: string, args: string)

  datatype Conv = Conv(msgID: string, blocks: map<int, BlockState>, msgIdx: Option<nat>, outCount: nat, stopReason: string,
                       done: bool, log: seq<Event>)

  const FRESH := Conv("", map[], None, 0, "", false, [])

  function Emit(sc: Conv, e: Event): Conv { sc.(log := sc.log + [e]) }

  // ---- the terminal output ----

  function StatusOf(stop: string): string { if stop == "max_tokens" then "incomplete" else "completed" }

  /** A content block of a finished message. */
  datatype Content = Content(index: int, kind: Kind, text: string, args: string)

  /** One block's contribution; `render` renders call arguments. */
  function AddContent(a: Assembly, kind: Kind, text: string, args: string, render: string -> string): Assembly {
    match kind
    case Text => WithText(Reserved(a), text)
    case ToolUse(id, name) => WithItem(a, FunctionCall(id, name, "", render(DefaultArgs(args))))
    case _ => a
  }

  function Assemble(id: string, contents: seq<Content>, render: string -> string): Assembly {
    if contents == [] then Empty(id)
    else
      var c := contents[|contents| - 1];
      AddContent(Assemble(id, contents[..|contents| - 1], render), c.kind, c.text, c.args, render)
  }

  /** The batch converter on a message; `canonical` re-encodes call arguments. */
  function Batch(id: string, contents: seq<Content>, canonical: string -> string): Result<seq<Option<Item>>, Failure> {
    if exists i :: 0 <= i < |contents| && contents[i].kind.Unknown? then Err(UnknownBlock)
    else Ok(Rendered(Assemble(id, contents, canonical)))
  }

  /** The assembler after the blocks at the given indexes, in that order. */
  function AssembleAt(id: string, blocks: map<int, BlockState>, indexes: seq<int>): Assembly {
    if indexes == [] then Empty(id)
    else
      var i := indexes[|indexes| - 1];
      var a := AssembleAt(id, blocks, indexes[..|indexes| - 1]);
      if i in blocks then AddContent(a, blocks[i].kind, blocks[i].text, blocks[i].args, Verbatim) else a
  }

  function Verbatim(args: string): string { args }

  ghost function OutputItems(sc: Conv): seq<Option<Item>> {
    Rendered(AssembleAt(sc.msgID, sc.blocks, SortedKeys(sc.blocks.Keys)))
  }

  // ---- one frame ----

  function Started(sc: Conv, index: int, kind: Kind): Conv {
    var out := if kind.ToolUse? then sc.outCount else 0;
    var s := sc.(blocks := sc.blocks[index := BlockState(kind, out, "", "")]);
    match kind
    case Text =>
      if sc.msgIdx.Some? then s
      else Emit(s.(msgIdx := Some(sc.outCount), outCount := sc.outCount + 1), ItemAdded(sc.outCount, MessageShell(sc.msgID)))
    case ToolUse(id, name) =>
      Emit(s.(outCount := sc.outCount + 1), ItemAdded(sc.outCount, CallShell(id, name)))
    case _ => s
  }

  function TakeText(sc: Conv, index: int, text: string): Conv {
    var s := if index in sc.blocks then sc.(blocks := sc.blocks[index := sc.blocks[index].(text := sc.blocks[index].text + text)]) else sc;
    Emit(s, TextSent(if sc.msgIdx.Some? then sc.msgIdx.value else index, text))
  }

  predicate ArgumentsComplete(sc: Conv, valid: string -> bool) {
    forall i :: i in sc.blocks && sc.blocks[i].kind.ToolUse? ==> valid(DefaultArgs(sc.blocks[i].args))
  }

  /** response.completed; it is emitted before the arguments are validated. */
  ghost function Complete(sc: Conv): Conv {
    Emit(sc.(done := true), Completed(StatusOf(sc.stopReason), OutputItems(sc)))
  }

  ghost function Take(sc: Conv, e: Upstream, valid: string -> bool): Result<Conv, Failure> {
    match e
    case MessageStart(id) => Ok(Emit(sc.(msgID := id), Created))
    case BlockStart(index, kind) => Ok(Started(sc, index, kind))
    case TextDelta(index, text) => Ok(TakeText(sc, index, text))
    case JsonDelta(index, text) =>
      if index !in sc.blocks || !sc.blocks[index].kind.ToolUse? then Err(ArgumentsWithoutBlock)
      else
        var b := sc.blocks[index];
        Ok(Emit(sc.(blocks := sc.blocks[index := b.(args := b.args + text)]), ArgsSent(b.kind.id, b.outIdx, text)))
    case MessageDelta(stop) => Ok(sc.(stopReason := stop))
    case MessageStop =>
      if !ArgumentsComplete(sc, valid) then Err(IncompleteArguments) else Ok(Complete(sc))
    case Other => Ok(sc)
  }

  /** The converter a frame leaves behind: a refused one has no effect, but
      message_stop has sent response.completed before it is refused. */
  ghost function Left(sc: Conv, e: Upstream, valid: string -> bool): Conv {
    match Take(sc, e, valid)
    case Ok(s) => s
    case Err(_) => if e.MessageStop? then Complete(sc) else sc
  }

  ghost function Run(events: seq<Upstream>, valid: string -> bool): Result<Conv, Failure> {
    if events == [] then Ok(FRESH)
    else
      var sc :- Run(events[..|events| - 1], valid);
      Take(sc, events[|events| - 1], valid)
  }
}
