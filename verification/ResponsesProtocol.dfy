/** The Responses event vocabulary and a strict client that replays it. The
    client is written from the protocol alone: it knows nothing of the
    converters and is the yardstick their event logs are measured by. */
module ResponsesProtocol {
  import opened Common
  import opened ChatChunks

  /** Item identities; rendered as msg_<response>_<index> and rs_<response>_<n>. */
  datatype ItemId = MessageId(response: string, index: nat) | ReasoningId(response: string, ordinal: nat)

  /** An item as announced, before any content. */
  datatype Shell = MessageShell(id: ItemId) | ReasoningShell(id: ItemId)
                 | FunctionShell(callId: string, name: string, namespace: string)
                 | CustomShell(callId: string, name: string, namespace: string)

  /** A finished item as it appears in output_item.done and response.completed. */
  datatype Item = Message(id: ItemId, status: string, text: string) | Reasoning(id: ItemId, text: string)
                | FunctionCall(callId: string, name: string, namespace: string, args: string)
                | CustomCall(callId: string, name: string, namespace: string, input: string)

  function ShellOf(item: Item): Shell {
    match item
    case Message(id, _, _) => MessageShell(id)
    case Reasoning(id, _) => ReasoningShell(id)
    case FunctionCall(callId, name, ns, _) => FunctionShell(callId, name, ns)
    case CustomCall(callId, name, ns, _) => CustomShell(callId, name, ns)
  }

  datatype Body =
    | Created(response: string, model: string)
    | InProgress(response: string, model: string)
    | ItemAdded(index: nat, shell: Shell)
    | PartAdded(id: ItemId, index: nat)
    | TextDelta(id: ItemId, index: nat, delta: string)
    | TextDone(id: ItemId, index: nat, text: string)
    | PartDone(id: ItemId, index: nat, text: string)
    | ArgsDelta(callId: string, index: nat, delta: string)
    | ArgsDone(callId: string, index: nat, args: string)
    | InputDone(callId: string, index: nat, input: string)
    | ItemDone(index: nat, item: Item)
    | Completed(response: string, model: string, status: string, usage: Option<Usage>, output: seq<Item>)

  /** One emitted event; `seqNo` is its sequence_number. */
  datatype Event = Event(seqNo: nat, body: Body)

  // ---- the client ----

  datatype Phase = Announced | Open | TextFinished | PartFinished | Closed

  /** What the client has rebuilt of one item. */
  datatype View = View(shell: Shell, phase: Phase, text: string, done: Option<Item>)

  datatype Stage = Fresh | Opened | Running

  /** `trailing` counts events after response.completed. */
  datatype Client = Rejected
                  | Client(seen: nat, stage: Stage, items: map<nat, View>, completed: Option<Body>, trailing: nat)

  const START := Client(0, Fresh, map[], None, 0)

  predicate Known(items: map<nat, View>, index: nat, shell: Shell, phase: Phase) {
    index in items && items[index].shell == shell && items[index].phase == phase
  }

  /** The shell a content part belongs to. */
  function Owner(id: ItemId): Shell {
    if id.MessageId? then MessageShell(id) else ReasoningShell(id)
  }

  /** Does the finished item agree with everything streamed for it? */
  predicate Agrees(view: View, item: Item) {
    && view.done.None? && view.shell == ShellOf(item)
    && match item
       case Message(_, _, text) => view.phase == PartFinished && text == view.text
       case Reasoning(_, text) => view.phase == PartFinished && text == view.text
       case FunctionCall(_, _, _, args) => view.phase == TextFinished && args == DefaultArgs(view.text)
       case CustomCall(_, _, _, input) => view.phase == TextFinished && input == view.text
  }

  /** The output list is every announced item, finished, in index order. */
  predicate ExactOutput(items: map<nat, View>, output: seq<Item>) {
    && (forall i :: i in items ==> i < |output|)
    && (forall i: nat :: i < |output| ==> i in items && items[i].done == Some(output[i]))
  }

  /** Item-level effect of one event; None is a protocol violation. */
  function AcceptItem(items: map<nat, View>, b: Body): Option<map<nat, View>> {
    match b
    case ItemAdded(i, shell) =>
      if i !in items then Some(items[i := View(shell, Announced, "", None)]) else None
    case PartAdded(id, i) =>
      if Known(items, i, Owner(id), Announced) then Some(items[i := items[i].(phase := Open)]) else None
    case TextDelta(id, i, delta) =>
      if Known(items, i, Owner(id), Open) then Some(items[i := items[i].(text := items[i].text + delta)]) else None
    case TextDone(id, i, text) =>
      if Known(items, i, Owner(id), Open) && text == items[i].text
      then Some(items[i := items[i].(phase := TextFinished)]) else None
    case PartDone(id, i, text) =>
      if Known(items, i, Owner(id), TextFinished) && text == items[i].text
      then Some(items[i := items[i].(phase := PartFinished)]) else None
    case ArgsDelta(callId, i, delta) =>
      if i in items && items[i].shell.FunctionShell? && items[i].shell.callId == callId && items[i].phase == Announced
      then Some(items[i := items[i].(text := items[i].text + delta)]) else None
    case ArgsDone(callId, i, args) =>
      if i in items && items[i].shell.FunctionShell? && items[i].shell.callId == callId && items[i].phase == Announced
         && args == DefaultArgs(items[i].text)
      then Some(items[i := items[i].(phase := TextFinished)]) else None
    case InputDone(callId, i, input) =>
      if i in items && items[i].shell.CustomShell? && items[i].shell.callId == callId && items[i].phase == Announced
         && items[i].text == ""
      then Some(items[i := items[i].(phase := TextFinished, text := input)]) else None
    case ItemDone(i, item) =>
      if i in items && Agrees(items[i], item)
      then Some(items[i := items[i].(phase := Closed, done := Some(item))]) else None
    case _ => None
  }

  function Accept(c: Client, e: Event): Client {
    if c.Rejected? || e.seqNo != c.seen + 1 then Rejected
    else if c.completed.Some? then
      if e.body.Completed? then Rejected else c.(seen := e.seqNo, trailing := c.trailing + 1)
    else if e.body.Created? then
      if c.stage.Fresh? then c.(seen := e.seqNo, stage := Opened) else Rejected
    else if e.body.InProgress? then
      if c.stage.Opened? then c.(seen := e.seqNo, stage := Running) else Rejected
    else if !c.stage.Running? then Rejected
    else if e.body.Completed? then
      if ExactOutput(c.items, e.body.output) then c.(seen := e.seqNo, completed := Some(e.body)) else Rejected
    else
      var items := AcceptItem(c.items, e.body);
      if items.None? then Rejected else c.(seen := e.seqNo, items := items.value)
  }

  function Replay(log: seq<Event>): Client {
    if log == [] then START else Accept(Replay(log[..|log| - 1]), log[|log| - 1])
  }

  lemma {:induction false} ReplayAppend(log: seq<Event>, e: Event)
    ensures Replay(log + [e]) == Accept(Replay(log), e)
  {
    assert (log + [e])[..|log|] == log;
  }

  // ---- what acceptance means, in terms of the log alone ----

  ghost predicate Numbered(log: seq<Event>) {
    forall n :: 0 <= n < |log| ==> log[n].seqNo == n + 1
  }

  predicate Adds(e: Event, i: nat) { e.body.ItemAdded? && e.body.index == i }

  predicate Finishes(e: Event, i: nat) { e.body.ItemDone? && e.body.index == i }

  function AddCount(log: seq<Event>, i: nat): nat {
    if log == [] then 0 else AddCount(log[..|log| - 1], i) + (if Adds(log[|log| - 1], i) then 1 else 0)
  }

  function DoneCount(log: seq<Event>, i: nat): nat {
    if log == [] then 0 else DoneCount(log[..|log| - 1], i) + (if Finishes(log[|log| - 1], i) then 1 else 0)
  }

  /** The argument deltas of one index, concatenated. */
  function ArgsStream(log: seq<Event>, i: nat): string {
    if log == [] then ""
    else
      var b := log[|log| - 1].body;
      ArgsStream(log[..|log| - 1], i) + (if b.ArgsDelta? && b.index == i then b.delta else "")
  }

  /** The text deltas of one index, concatenated. */
  function TextStream(log: seq<Event>, i: nat): string {
    if log == [] then ""
    else
      var b := log[|log| - 1].body;
      TextStream(log[..|log| - 1], i) + (if b.TextDelta? && b.index == i then b.delta else "")
  }

  /** The client accepts only logs numbered 1, 2, 3, … */
  lemma {:induction false} AcceptedIsNumbered(log: seq<Event>)
    requires Replay(log).Client?
    ensures Numbered(log) && Replay(log).seen == |log|
  {
    if log == [] {
    } else {
      AcceptedIsNumbered(log[..|log| - 1]);
    }
  }

  /** Per index, an accepted log announces at most once, finishes at most once
      and after the announcement, and the deltas are what the view holds. */
  ghost predicate Tallied(log: seq<Event>, items: map<nat, View>, i: nat) {
    && AddCount(log, i) == (if i in items then 1 else 0)
    && DoneCount(log, i) == (if i in items && items[i].done.Some? then 1 else 0)
    && (i in items && items[i].done.Some? ==> items[i].phase == Closed)
    && (i in items && (items[i].shell.MessageShell? || items[i].shell.ReasoningShell?) ==>
          TextStream(log, i) == items[i].text && ArgsStream(log, i) == "")
    && (i in items && items[i].shell.FunctionShell? ==> ArgsStream(log, i) == items[i].text)
    && (i in items && items[i].shell.CustomShell? ==> ArgsStream(log, i) == "")
    && (i !in items ==> TextStream(log, i) == "" && ArgsStream(log, i) == "")
    && (i in items && items[i].done.Some? ==> Described(items[i]))
  }

  ghost predicate Described(v: View) {
    v.done.Some? && v.shell == ShellOf(v.done.value)
    && match v.done.value
       case Message(_, _, text) => text == v.text
       case Reasoning(_, text) => text == v.text
       case FunctionCall(_, _, _, args) => args == DefaultArgs(v.text)
       case CustomCall(_, _, _, input) => input == v.text
  }

  lemma {:induction false} AcceptedIsTallied(log: seq<Event>, i: nat)
    requires Replay(log).Client? && Replay(log).completed.None?
    ensures Tallied(log, Replay(log).items, i)
  {
    hide Tallied, AcceptItem;
    if log == [] {
      NothingTallied(i);
    } else {
      AcceptedIsTallied(log[..|log| - 1], i);
      TallyStep(log[..|log| - 1], Replay(log[..|log| - 1]).items, log[|log| - 1], i);
      assert log == log[..|log| - 1] + [log[|log| - 1]];
    }
  }

  lemma {:induction false} NothingTallied(i: nat)
    ensures Tallied([], map[], i)
  {
  }

  /** What one more event adds to the tallies of an index. */
  lemma {:induction false} TalliesAppend(log: seq<Event>, e: Event, i: nat)
    ensures AddCount(log + [e], i) == AddCount(log, i) + (if Adds(e, i) then 1 else 0)
    ensures DoneCount(log + [e], i) == DoneCount(log, i) + (if Finishes(e, i) then 1 else 0)
    ensures TextStream(log + [e], i)
            == TextStream(log, i) + (if e.body.TextDelta? && e.body.index == i then e.body.delta else "")
    ensures ArgsStream(log + [e], i)
            == ArgsStream(log, i) + (if e.body.ArgsDelta? && e.body.index == i then e.body.delta else "")
  {
    assert (log + [e])[..|log|] == log;
  }

  lemma {:induction false} TallyStep(log: seq<Event>, items: map<nat, View>, e: Event, i: nat)
    requires Tallied(log, items, i)
    ensures e.body.Created? || e.body.InProgress? ==> Tallied(log + [e], items, i)
    ensures AcceptItem(items, e.body).Some? ==> Tallied(log + [e], AcceptItem(items, e.body).value, i)
  {
    hide AddCount, DoneCount, TextStream, ArgsStream;
    TalliesAppend(log, e, i);
    assert TextStream(log, i) + "" == TextStream(log, i) && ArgsStream(log, i) + "" == ArgsStream(log, i);
  }

  /** The log is a well-formed response that is completed by event `k`. */
  ghost predicate WellCompleted(log: seq<Event>, k: nat) {
    && k < |log| && log[k].body.Completed? && Numbered(log)
    && (forall j :: 0 <= j < |log| && j != k ==> !log[j].body.Completed?)
    && (forall i: nat :: EachOnce(log[..k], log[k].body.output, i))
  }

  /** Index `i` of a response: announced once and done once before the end if it
      is in the output, never otherwise; and its deltas are its final content. */
  ghost predicate EachOnce(log: seq<Event>, output: seq<Item>, i: nat) {
    if i < |output| then
      && AddCount(log, i) == 1 && DoneCount(log, i) == 1
      && match output[i]
         case Message(_, _, text) => TextStream(log, i) == text && ArgsStream(log, i) == ""
         case Reasoning(_, text) => TextStream(log, i) == text && ArgsStream(log, i) == ""
         case FunctionCall(_, _, _, args) => args == DefaultArgs(ArgsStream(log, i))
         case CustomCall(_, _, _, _) => ArgsStream(log, i) == ""
    else AddCount(log, i) == 0 && DoneCount(log, i) == 0
  }

  lemma {:induction false} ExactIsEachOnce(log: seq<Event>, output: seq<Item>, i: nat)
    requires Replay(log).Client? && Replay(log).completed.None? && ExactOutput(Replay(log).items, output)
    ensures EachOnce(log, output, i)
  {
    hide Replay, AddCount, DoneCount, TextStream, ArgsStream;
    AcceptedIsTallied(log, i);
  }

  /** An accepted log without a completed event in the client has none at all. */
  lemma {:induction false} OpenHasNoCompleted(log: seq<Event>)
    requires Replay(log).Client? && Replay(log).completed.None?
    ensures forall j :: 0 <= j < |log| ==> !log[j].body.Completed?
  {
    if log == [] {
    } else {
      OpenHasNoCompleted(log[..|log| - 1]);
    }
  }

  /** What the client's acceptance of a finished response amounts to. */
  lemma {:induction false} AcceptedIsWellCompleted(log: seq<Event>) returns (k: nat)
    requires Replay(log).Client? && Replay(log).completed.Some?
    ensures WellCompleted(log, k) && log[k].body == Replay(log).completed.value
    ensures Replay(log).trailing == |log| - 1 - k
  {
    AcceptedIsNumbered(log);
    var shorter := log[..|log| - 1];
    if Replay(shorter).completed.None? {
      k := |log| - 1;
      OpenHasNoCompleted(shorter);
      forall i: nat
        ensures EachOnce(log[..k], log[k].body.output, i)
      {
        ExactIsEachOnce(shorter, log[k].body.output, i);
      }
      NothingTrailing(shorter);
    } else {
      k := AcceptedIsWellCompleted(shorter);
      assert shorter[..k] == log[..k];
      hide EachOnce;
      assert forall j :: 0 <= j < |shorter| ==> log[j] == shorter[j];
    }
  }

  lemma {:induction false} NothingTrailing(log: seq<Event>)
    requires Replay(log).Client? && Replay(log).completed.None?
    ensures Replay(log).trailing == 0
  {
    if log == [] {
    } else {
      NothingTrailing(log[..|log| - 1]);
    }
  }
}
