/** The Messages -> Responses stream converter as the mutable object it is in
    internal/adapter/messages/stream.go, and the batch converter's loop of
    internal/adapter/messages/convert.go, proved against MessagesToResponses. */
module MessagesConverters {
  import opened Common
  import opened OutputAssembly
  import opened SortedInts
  import opened MessagesToResponses

  /** sort.Ints over map keys, by repeated selection. */
  method SortKeys(keys: set<int>) returns (xs: seq<int>)
    ensures Increasing(xs) && forall k :: k in keys <==> k in xs
    ensures xs == SortedKeys(keys)
  {
    hide Increasing;
    xs := [];
    var rest := keys;
    while rest != {}
      invariant rest <= keys && SortedKeys(keys) == xs + SortedKeys(rest)
      decreases |rest|
    {
      var least := SelectLeast(rest);
      assert xs + SortedKeys(rest) == xs + [least] + SortedKeys(rest - {least});
      xs := xs + [least];
      rest := rest - {least};
    }
    assert xs + SortedKeys({}) == xs;
    SortedIsListing(keys);
  }

  method SelectLeast(keys: set<int>) returns (m: int)
    requires keys != {}
    ensures m == Least(keys)
  {
    ghost var k := Pick(keys);
    m :| m in keys;
    var rest := keys - {m};
    while rest != {}
      invariant rest <= keys && m in keys && forall k :: k in keys && k !in rest ==> m <= k
      decreases |rest|
    {
      ghost var p := Pick(rest);
      var k :| k in rest;
      if k < m {
        m := k;
      }
      rest := rest - {k};
    }
  }

  /** The shared assembler step for one content block. */
  method Append(oa: OutputAssembler, kind: Kind, text: string, args: string, render: string -> string)
    requires Sound(oa.State())
    modifies oa
    ensures oa.State() == AddContent(old(oa.State()), kind, text, args, render) && Sound(oa.State())
  {
    hide Sound;
    match kind
    case Text =>
      UseStaysSound(oa.State(), text, TheMessage(oa.State()));
      oa.ReserveTextSlot();
      UseStaysSound(oa.State(), text, TheMessage(oa.State()));
      oa.AddText(text);
    case ToolUse(id, name) =>
      UseStaysSound(oa.State(), text, FunctionCall(id, name, "", render(DefaultArgs(args))));
      oa.AppendFunctionCall(id, name, render(DefaultArgs(args)));
    case Thinking =>
    case Unknown =>
  }

  /** The batch converter's content loop; it stops at the first unknown block. */
  method ClaudeToResponses(id: string, contents: seq<Content>, canonical: string -> string)
    returns (output: Result<seq<Option<Item>>, Failure>)
    ensures output == Batch(id, contents, canonical)
  {
    hide AddContent, Rendered;
    var oa := new OutputAssembler(id);
    for i := 0 to |contents|
      invariant fresh(oa) && oa.State() == Assemble(id, contents[..i], canonical) && Sound(oa.State())
      invariant forall j :: 0 <= j < i ==> !contents[j].kind.Unknown?
    {
      var c := contents[i];
      if c.kind.Unknown? {
        return Err(UnknownBlock);
      }
      assert contents[..i + 1][..i] == contents[..i];
      Append(oa, c.kind, c.text, c.args, canonical);
    }
    assert contents[..|contents|] == contents;
    var items := oa.Render();
    output := Ok(items);
  }

  class StreamConverter {
    const valid: string -> bool
    var msgID: string
    var blocks: map<int, BlockState>
    var msgIdx: Option<nat>
    var outCount: nat
    var stopReason: string
    var done: bool
    ghost var log: seq<Event>

    ghost function State(): Conv
      reads this
    {
      Conv(msgID, blocks, msgIdx, outCount, stopReason, done, log)
    }

    constructor (valid: string -> bool)
      ensures this.valid == valid && State() == FRESH
    {
      this.valid := valid;
      msgID, blocks, msgIdx, outCount, stopReason, done, log := "", map[], None, 0, "", false, [];
    }

    method Send(e: Event)
      modifies `log
      ensures State() == Emit(old(State()), e) && log == old(log) + [e]
    {
      log := log + [e];
    }

    method BlockStarted(index: int, kind: Kind) returns (events: seq<Event>)
      modifies `blocks, `msgIdx, `outCount, `log
      ensures State() == Started(old(State()), index, kind) && log == old(log) + events
    {
      events := [];
      blocks := blocks[index := BlockState(kind, if kind.ToolUse? then outCount else 0, "", "")];
      match kind
      case Text =>
        if msgIdx.None? {
          var n := outCount;
          msgIdx, outCount := Some(n), n + 1;
          events := [ItemAdded(n, MessageShell(msgID))];
          Send(ItemAdded(n, MessageShell(msgID)));
        }
      case ToolUse(id, name) =>
        var n := outCount;
        outCount := n + 1;
        events := [ItemAdded(n, CallShell(id, name))];
        Send(ItemAdded(n, CallShell(id, name)));
      case Thinking =>
      case Unknown =>
    }

    method TextWritten(index: int, text: string) returns (events: seq<Event>)
      modifies `blocks, `log
      ensures State() == TakeText(old(State()), index, text) && log == old(log) + events
    {
      if index in blocks {
        blocks := blocks[index := blocks[index].(text := blocks[index].text + text)];
      }
      var at := if msgIdx.Some? then msgIdx.value else index;
      events := [TextSent(at, text)];
      Send(TextSent(at, text));
    }

    method ValidateTools() returns (complete: bool)
      ensures complete == ArgumentsComplete(State(), valid)
    {
      var rest := blocks.Keys;
      while rest != {}
        invariant rest <= blocks.Keys
        invariant forall i :: i in blocks && i !in rest && blocks[i].kind.ToolUse? ==> valid(DefaultArgs(blocks[i].args))
        decreases |rest|
      {
        ghost var p := Pick(rest);
        var i :| i in rest;
        if blocks[i].kind.ToolUse? && !valid(DefaultArgs(blocks[i].args)) {
          return false;
        }
        rest := rest - {i};
      }
      return true;
    }

    method CollectOutput() returns (output: seq<Option<Item>>)
      ensures output == OutputItems(State())
    {
      var indexes := SortKeys(blocks.Keys);
      var oa := new OutputAssembler(msgID);
      for i := 0 to |indexes|
        invariant fresh(oa) && oa.State() == AssembleAt(msgID, blocks, indexes[..i]) && Sound(oa.State())
      {
        assert indexes[..i + 1][..i] == indexes[..i];
        if indexes[i] in blocks {
          var b := blocks[indexes[i]];
          Append(oa, b.kind, b.text, b.args, Verbatim);
        }
      }
      assert indexes[..|indexes|] == indexes;
      output := oa.Render();
    }

    method DispatchResponses(e: Upstream) returns (events: seq<Event>, error: Option<Failure>)
      modifies this
      ensures Take(old(State()), e, valid).Ok? <==> error.None?
      ensures error.Some? ==> Take(old(State()), e, valid) == Err(error.value)
      ensures State() == Left(old(State()), e, valid) && log == old(log) + events
      ensures error == Some(IncompleteArguments) ==>
                e.MessageStop? && done && events == [Completed(StatusOf(old(stopReason)), OutputItems(old(State())))]
    {
      hide OutputItems;
      events, error := [], None;
      match e
      case MessageStart(id) =>
        msgID := id;
        events := [Created];
        Send(Created);
      case BlockStart(index, kind) =>
        events := BlockStarted(index, kind);
      case TextDelta(index, text) =>
        events := TextWritten(index, text);
      case JsonDelta(index, text) =>
        if index !in blocks || !blocks[index].kind.ToolUse? {
          return [], Some(ArgumentsWithoutBlock);
        }
        var b := blocks[index];
        blocks := blocks[index := b.(args := b.args + text)];
        events := [ArgsSent(b.kind.id, b.outIdx, text)];
        Send(ArgsSent(b.kind.id, b.outIdx, text));
      case MessageDelta(stop) =>
        stopReason := stop;
      case MessageStop =>
        var output := CollectOutput();
        var complete := ValidateTools();
        done := true;
        events := [Completed(StatusOf(stopReason), output)];
        Send(Completed(StatusOf(stopReason), output));
        if !complete {
          error := Some(IncompleteArguments);
        }
      case Other =>
    }
  }
}
