/** Parity of the two forms of the Messages -> Responses route: announced
    positions, streamed content, and the batch converter's output. */
module MessagesParity {
  import opened Common
  import opened OutputAssembly
  import opened SortedInts
  import opened MessagesToResponses

  // ---- the message a stream folds into ----

  function Extended(c: Content, index: int, text: string, args: string): Content {
    if c.index == index then c.(text := c.text + text, args := c.args + args) else c
  }

  function Update(contents: seq<Content>, index: int, text: string, args: string): (r: seq<Content>)
    ensures |r| == |contents| && forall p :: 0 <= p < |r| ==> r[p] == Extended(contents[p], index, text, args)
  {
    if contents == [] then []
    else Update(contents[..|contents| - 1], index, text, args) + [Extended(contents[|contents| - 1], index, text, args)]
  }

  /** The finished message: blocks in start order with their deltas. */
  function Fold(events: seq<Upstream>): seq<Content> {
    if events == [] then [] else FoldOne(Fold(events[..|events| - 1]), events[|events| - 1])
  }

  function FoldOne(contents: seq<Content>, e: Upstream): seq<Content> {
    match e
    case BlockStart(index, kind) => contents + [Content(index, kind, "", "")]
    case TextDelta(index, text) => Update(contents, index, text, "")
    case JsonDelta(index, text) => Update(contents, index, "", text)
    case _ => contents
  }

  /** Every block starts at a higher index than all blocks before it. */
  ghost predicate IncreasingStarts(events: seq<Upstream>) {
    forall n :: 0 <= n < |events| && events[n].BlockStart? ==> Above(events[n].index, Fold(events[..n]))
  }

  ghost predicate Above(index: int, contents: seq<Content>) {
    forall p :: 0 <= p < |contents| ==> contents[p].index < index
  }

  ghost predicate Ordered(contents: seq<Content>) {
    forall p, q :: 0 <= p < q < |contents| ==> contents[p].index < contents[q].index
  }

  function Indexes(contents: seq<Content>): (r: seq<int>)
    ensures |r| == |contents| && forall p :: 0 <= p < |r| ==> r[p] == contents[p].index
  {
    if contents == [] then [] else Indexes(contents[..|contents| - 1]) + [contents[|contents| - 1].index]
  }

  lemma {:induction false} ShorterStarts(events: seq<Upstream>)
    requires IncreasingStarts(events) && events != []
    ensures var shorter, e := events[..|events| - 1], events[|events| - 1];
            IncreasingStarts(shorter) && (e.BlockStart? ==> Above(e.index, Fold(shorter)))
  {
    hide Above, Fold;
    var shorter := events[..|events| - 1];
    forall n | 0 <= n < |shorter| && shorter[n].BlockStart?
      ensures Above(shorter[n].index, Fold(shorter[..n]))
    {
      assert shorter[n] == events[n] && shorter[..n] == events[..n];
    }
  }

  // ---- positions ----

  /** The output position a block gets when it starts after `contents`. */
  function NextOut(contents: seq<Content>): nat { |Assemble("", contents, Verbatim).items| }

  function MessageAt(contents: seq<Content>): Option<nat> { Assemble("", contents, Verbatim).textSlot }

  ghost predicate SameKinds(f: seq<Content>, g: seq<Content>) {
    |f| == |g| && forall p :: 0 <= p < |f| ==> f[p].kind == g[p].kind && f[p].index == g[p].index
  }

  /** Positions depend on the kinds alone. */
  lemma {:induction false} KindsFixPositions(id: string, f: seq<Content>, g: seq<Content>, render: string -> string)
    requires SameKinds(f, g)
    ensures |Assemble(id, f, render).items| == NextOut(g) && Assemble(id, f, render).textSlot == MessageAt(g)
  {
    if f == [] {
    } else {
      KindsFixPositions(id, f[..|f| - 1], g[..|g| - 1], render);
    }
  }

  function OutOf(f: seq<Content>, p: nat): nat
    requires p < |f|
  {
    if f[p].kind.ToolUse? then NextOut(f[..p]) else 0
  }

  ghost predicate Matches(b: BlockState, c: Content, out: nat) {
    b == BlockState(c.kind, out, c.text, c.args)
  }

  /** The converter's blocks are the folded message, and its counters the next
      free positions of the output. */
  ghost predicate Tracked(sc: Conv, f: seq<Content>) {
    && Ordered(f)
    && (forall k :: k in sc.blocks ==> k in Indexes(f))
    && (forall p :: 0 <= p < |f| ==> f[p].index in sc.blocks && Matches(sc.blocks[f[p].index], f[p], OutOf(f, p)))
    && sc.outCount == NextOut(f) && sc.msgIdx == MessageAt(f)
  }

  lemma {:induction false} StartPositions(f: seq<Content>, c: Content)
    ensures var g := f + [c];
            && NextOut(g) == NextOut(f) + (if c.kind.ToolUse? || (c.kind.Text? && MessageAt(f).None?) then 1 else 0)
            && MessageAt(g) == (if c.kind.Text? && MessageAt(f).None? then Some(NextOut(f)) else MessageAt(f))
            && (forall p :: 0 <= p < |f| ==> OutOf(g, p) == OutOf(f, p))
            && OutOf(g, |f|) == (if c.kind.ToolUse? then NextOut(f) else 0)
            && (forall k :: k in Indexes(g) <==> k in Indexes(f) || k == c.index)
  {
    var g := f + [c];
    assert g[..|f|] == f;
    assert forall p :: 0 <= p < |f| ==> g[..p] == f[..p];
    assert Indexes(g) == Indexes(f) + [c.index];
  }

  lemma {:induction false} StartTracks(sc: Conv, f: seq<Content>, index: int, kind: Kind)
    requires Tracked(sc, f) && Above(index, f)
    ensures Tracked(Started(sc, index, kind), f + [Content(index, kind, "", "")])
  {
    hide NextOut, MessageAt, Indexes, OutOf;
    var c := Content(index, kind, "", "");
    StartPositions(f, c);
    var g := f + [c];
    var s := Started(sc, index, kind);
    forall p | 0 <= p < |g|
      ensures g[p].index in s.blocks && Matches(s.blocks[g[p].index], g[p], OutOf(g, p))
    {
      if p < |f| {
        assert Matches(sc.blocks[f[p].index], f[p], OutOf(f, p));
      }
    }
  }

  lemma {:induction false} UpdatePositions(f: seq<Content>, g: seq<Content>)
    requires SameKinds(f, g)
    ensures NextOut(g) == NextOut(f) && MessageAt(g) == MessageAt(f) && Indexes(g) == Indexes(f)
    ensures forall p :: 0 <= p < |f| ==> OutOf(g, p) == OutOf(f, p)
  {
    KindsFixPositions("", g, f, Verbatim);
    forall p | 0 <= p < |f|
      ensures OutOf(g, p) == OutOf(f, p)
    {
      KindsFixPositions("", g[..p], f[..p], Verbatim);
    }
  }

  ghost function Written(sc: Conv, index: int, text: string, args: string): Conv {
    if index in sc.blocks
    then
      var b := sc.blocks[index];
      sc.(blocks := sc.blocks[index := b.(text := b.text + text, args := b.args + args)])
    else sc
  }

  lemma {:induction false} UpdateTracks(sc: Conv, f: seq<Content>, index: int, text: string, args: string)
    requires Tracked(sc, f)
    ensures Tracked(Written(sc, index, text, args), Update(f, index, text, args))
  {
    hide NextOut, MessageAt, OutOf, Indexes, Update;
    var g := Update(f, index, text, args);
    UpdatePositions(f, g);
    var s := Written(sc, index, text, args);
    forall p | 0 <= p < |g|
      ensures g[p].index in s.blocks && Matches(s.blocks[g[p].index], g[p], OutOf(g, p))
    {
      assert Matches(sc.blocks[f[p].index], f[p], OutOf(f, p));
    }
  }

  lemma {:induction false} Blank(s: string)
    ensures s + "" == s
  {
  }

  lemma {:induction false} FrameTracks(sc: Conv, f: seq<Content>, e: Upstream, valid: string -> bool)
    requires Tracked(sc, f) && Take(sc, e, valid).Ok? && (e.BlockStart? ==> Above(e.index, f))
    ensures Tracked(Take(sc, e, valid).value, FoldOne(f, e))
  {
    hide Started, NextOut, MessageAt, OutOf, Indexes, Update, Above, OutputItems;
    match e
    case BlockStart(index, kind) => StartTracks(sc, f, index, kind);
    case TextDelta(index, text) =>
      UpdateTracks(sc, f, index, text, "");
      if index in sc.blocks {
        Blank(sc.blocks[index].args);
      }
    case JsonDelta(index, text) =>
      UpdateTracks(sc, f, index, "", text);
      Blank(sc.blocks[index].text);
    case _ =>
  }

  lemma {:induction false} RunTracks(events: seq<Upstream>, valid: string -> bool)
    requires IncreasingStarts(events) && Run(events, valid).Ok?
    ensures Tracked(Run(events, valid).value, Fold(events))
  {
    hide Take, Tracked, FoldOne, IncreasingStarts, Above;
    if events == [] {
      NothingTracked();
    } else {
      ShorterStarts(events);
      RunTracks(events[..|events| - 1], valid);
      FrameTracks(Run(events[..|events| - 1], valid).value, Fold(events[..|events| - 1]), events[|events| - 1], valid);
    }
  }

  lemma {:induction false} NothingTracked()
    ensures Tracked(FRESH, [])
  {
  }

  // ---- parity of the two forms ----

  lemma {:induction false} AssembleInOrder(sc: Conv, f: seq<Content>, n: nat)
    requires Tracked(sc, f) && n <= |f|
    ensures AssembleAt(sc.msgID, sc.blocks, Indexes(f[..n])) == Assemble(sc.msgID, f[..n], Verbatim)
  {
    hide NextOut, MessageAt, OutOf, AddContent;
    if n == 0 {
    } else {
      AssembleInOrder(sc, f, n - 1);
      assert f[..n][..n - 1] == f[..n - 1];
      assert Indexes(f[..n]) == Indexes(f[..n - 1]) + [f[n - 1].index];
      assert Matches(sc.blocks[f[n - 1].index], f[n - 1], OutOf(f, n - 1));
    }
  }

  /** Sorting the observed block indexes gives back the order of arrival, so the
      terminal output is that of the folded message. */
  lemma {:induction false} OutputIsFold(sc: Conv, f: seq<Content>)
    requires Tracked(sc, f)
    ensures OutputItems(sc) == Rendered(Assemble(sc.msgID, f, Verbatim))
  {
    hide NextOut, MessageAt, OutOf, Rendered, Assemble, AssembleAt;
    forall k | k in Indexes(f)
      ensures k in sc.blocks.Keys
    {
      var p :| 0 <= p < |f| && Indexes(f)[p] == k;
      assert f[p].index in sc.blocks;
    }
    SortedIsUnique(sc.blocks.Keys, Indexes(f));
    AssembleInOrder(sc, f, |f|);
    assert f[..|f|] == f;
  }

  function Recoded(render: string -> string, item: Option<Item>): Option<Item> {
    if item.Some? && item.value.FunctionCall? then Some(item.value.(args := render(item.value.args))) else item
  }

  function RecodedAll(render: string -> string, items: seq<Option<Item>>): (r: seq<Option<Item>>)
    ensures |r| == |items| && forall i :: 0 <= i < |r| ==> r[i] == Recoded(render, items[i])
  {
    if items == [] then [] else RecodedAll(render, items[..|items| - 1]) + [Recoded(render, items[|items| - 1])]
  }

  lemma {:induction false} AssembleRecodes(id: string, f: seq<Content>, render: string -> string)
    ensures var a, b := Assemble(id, f, render), Assemble(id, f, Verbatim);
            a == b.(items := RecodedAll(render, b.items))
  {
    if f == [] {
    } else {
      AssembleRecodes(id, f[..|f| - 1], render);
      var a, b := Assemble(id, f, render), Assemble(id, f, Verbatim);
      assert a.items == RecodedAll(render, b.items);
    }
  }

  lemma {:induction false} RenderRecodes(a: Assembly, render: string -> string)
    ensures Rendered(a.(items := RecodedAll(render, a.items))) == RecodedAll(render, Rendered(a))
  {
    var b := a.(items := RecodedAll(render, a.items));
    assert Rendered(b) == RecodedAll(render, Rendered(a));
  }

  /** For every accepted upstream stream with increasing block starts, the batch
      converter on the folded message gives the terminal output of the stream,
      up to the re-encoding of arguments; it refuses exactly the messages with a
      block kind that the stream silently drops. */
  lemma {:induction false} StreamEqualsBatch(events: seq<Upstream>, valid: string -> bool, canonical: string -> string)
    requires IncreasingStarts(events) && Run(events, valid).Ok?
    ensures var sc := Run(events, valid).value;
            var batch := Batch(sc.msgID, Fold(events), canonical);
            && (batch.Ok? <==> forall p :: 0 <= p < |Fold(events)| ==> !Fold(events)[p].kind.Unknown?)
            && (batch.Ok? ==> batch.value == RecodedAll(canonical, OutputItems(sc)))
  {
    hide Run, Fold, Rendered, Assemble, OutputItems, Tracked, RecodedAll;
    RunTracks(events, valid);
    var sc, f := Run(events, valid).value, Fold(events);
    OutputIsFold(sc, f);
    AssembleRecodes(sc.msgID, f, canonical);
    RenderRecodes(Assemble(sc.msgID, f, Verbatim), canonical);
  }

  // ---- announced positions ----

  /** The announcements of a log, in order. */
  function Announced(log: seq<Event>): seq<(nat, Shell)> {
    if log == [] then []
    else
      var e := log[|log| - 1];
      Announced(log[..|log| - 1]) + (if e.ItemAdded? then [(e.index, e.shell)] else [])
  }

  predicate Describes(shell: Shell, item: Option<Item>) {
    match shell
    case MessageShell(_) => item.None? || item.value.Message?
    case CallShell(id, name) => item.Some? && item.value.FunctionCall? && item.value.callId == id && item.value.name == name
  }

  ghost predicate AllAnnounced(log: seq<Event>, items: seq<Option<Item>>) {
    && |Announced(log)| == |items|
    && forall i :: 0 <= i < |items| ==> Announced(log)[i].0 == i && Describes(Announced(log)[i].1, items[i])
  }

  lemma {:induction false} AnnouncedAppend(log: seq<Event>, e: Event)
    ensures Announced(log + [e]) == Announced(log) + (if e.ItemAdded? then [(e.index, e.shell)] else [])
  {
    assert (log + [e])[..|log|] == log;
  }

  /** Descriptions survive an update of texts and arguments. */
  lemma {:induction false} SameKindsDescribe(f: seq<Content>, g: seq<Content>, shell: Shell, i: nat)
    requires SameKinds(f, g) && i < NextOut(f) && Describes(shell, Assemble("", f, Verbatim).items[i])
    ensures i < NextOut(g) && Describes(shell, Assemble("", g, Verbatim).items[i])
  {
    KindsFixPositions("", f, g, Verbatim);
    if f == [] {
    } else {
      var f', g' := f[..|f| - 1], g[..|g| - 1];
      KindsFixPositions("", f', g', Verbatim);
      if i < NextOut(f') {
        SameKindsDescribe(f', g', shell, i);
      }
    }
  }

  lemma {:induction false} FrameAnnounces(sc: Conv, f: seq<Content>, e: Upstream, valid: string -> bool)
    requires Tracked(sc, f) && Take(sc, e, valid).Ok? && AllAnnounced(sc.log, Assemble("", f, Verbatim).items)
    ensures AllAnnounced(Take(sc, e, valid).value.log, Assemble("", FoldOne(f, e), Verbatim).items)
  {
    hide Indexes, OutOf, Update, OutputItems, Tracked, Describes, Announced;
    var s := Take(sc, e, valid).value;
    var g := FoldOne(f, e);
    if e.BlockStart? {
      assert g[..|f|] == f;
      assert Tracked(sc, f) ==> sc.outCount == NextOut(f) && sc.msgIdx == MessageAt(f) by {
        TrackedCounts(sc, f);
      }
      StartAnnounces(sc, f, e);
    } else {
      assert SameKinds(f, g);
      KindsFixPositions("", g, f, Verbatim);
      if s.log != sc.log {
        AnnouncedAppend(sc.log, s.log[|s.log| - 1]);
      }
      forall i | 0 <= i < NextOut(g)
        ensures Describes(Announced(sc.log)[i].1, Assemble("", g, Verbatim).items[i])
      {
        SameKindsDescribe(f, g, Announced(sc.log)[i].1, i);
      }
    }
  }

  lemma {:induction false} TrackedCounts(sc: Conv, f: seq<Content>)
    requires Tracked(sc, f)
    ensures sc.outCount == NextOut(f) && sc.msgIdx == MessageAt(f)
  {
  }

  lemma {:induction false} StartAnnounces(sc: Conv, f: seq<Content>, e: Upstream)
    requires e.BlockStart? && sc.outCount == NextOut(f) && sc.msgIdx == MessageAt(f)
    requires AllAnnounced(sc.log, Assemble("", f, Verbatim).items)
    ensures AllAnnounced(Started(sc, e.index, e.kind).log, Assemble("", FoldOne(f, e), Verbatim).items)
  {
    hide Announced;
    var g := FoldOne(f, e);
    assert g[..|f|] == f;
    var s := Started(sc, e.index, e.kind);
    if s.log != sc.log {
      AnnouncedAppend(sc.log, s.log[|s.log| - 1]);
    }
  }

  lemma {:induction false} RunAnnounces(events: seq<Upstream>, valid: string -> bool)
    requires IncreasingStarts(events) && Run(events, valid).Ok?
    ensures AllAnnounced(Run(events, valid).value.log, Assemble("", Fold(events), Verbatim).items)
  {
    hide Take, Tracked, FoldOne, IncreasingStarts, Above, Assemble;
    if events == [] {
      NothingAnnounced();
    } else {
      hide AllAnnounced;
      var shorter := events[..|events| - 1];
      ShorterStarts(events);
      RunAnnounces(shorter, valid);
      RunTracks(shorter, valid);
      FrameAnnounces(Run(shorter, valid).value, Fold(shorter), events[|events| - 1], valid);
    }
  }

  lemma {:induction false} NothingAnnounced()
    ensures AllAnnounced([], Assemble("", [], Verbatim).items)
  {
  }

  /** Without a text block there is no text. */
  lemma {:induction false} NoSlotNoText(id: string, f: seq<Content>)
    ensures var a := Assemble(id, f, Verbatim);
            Sound(a) && (a.textSlot.None? ==> a.text == "")
  {
    if f == [] {
    } else {
      NoSlotNoText(id, f[..|f| - 1]);
    }
  }

  /** Only the message carries the identity. */
  lemma {:induction false} IdentityIsMessages(id: string, f: seq<Content>)
    ensures Assemble(id, f, Verbatim) == Assemble("", f, Verbatim).(messageId := id)
  {
    if f == [] {
    } else {
      IdentityIsMessages(id, f[..|f| - 1]);
    }
  }

  /** message_stop after any stream with increasing block starts: the k-th
      announcement carried output_index k and describes item k of the terminal
      output, which has no other item and no hole. */
  lemma {:induction false} AnnouncedPositionsHold(events: seq<Upstream>, valid: string -> bool)
    requires IncreasingStarts(events) && Run(events, valid).Ok? && Take(Run(events, valid).value, MessageStop, valid).Ok?
    ensures var sc := Run(events, valid).value;
            var s := Take(sc, MessageStop, valid).value;
            var output := OutputItems(sc);
            && s.log == sc.log + [Completed(StatusOf(sc.stopReason), output)]
            && AllAnnounced(sc.log, output) && Announced(s.log) == Announced(sc.log)
            && forall i :: 0 <= i < |output| ==> output[i].Some?
  {
    hide Run, Fold, Tracked, Assemble, Announced;
    RunTracks(events, valid);
    RunAnnounces(events, valid);
    var sc, f := Run(events, valid).value, Fold(events);
    OutputIsFold(sc, f);
    NoSlotNoText(sc.msgID, f);
    IdentityIsMessages(sc.msgID, f);
    RenderIsFull(Assemble(sc.msgID, f, Verbatim));
    AnnouncedAppend(sc.log, Completed(StatusOf(sc.stopReason), OutputItems(sc)));
    hide OutputItems;
  }

  // ---- streamed content ----

  function ArgsAt(log: seq<Event>, i: nat): string {
    if log == [] then ""
    else
      var e := log[|log| - 1];
      ArgsAt(log[..|log| - 1], i) + (if e.ArgsSent? && e.at == i then e.text else "")
  }

  function TextsSent(log: seq<Event>): string {
    if log == [] then ""
    else
      var e := log[|log| - 1];
      TextsSent(log[..|log| - 1]) + (if e.TextSent? then e.text else "")
  }

  lemma {:induction false} SentAppend(log: seq<Event>, e: Event, i: nat)
    ensures ArgsAt(log + [e], i) == ArgsAt(log, i) + (if e.ArgsSent? && e.at == i then e.text else "")
    ensures TextsSent(log + [e]) == TextsSent(log) + (if e.TextSent? then e.text else "")
  {
    assert (log + [e])[..|log|] == log;
  }

  lemma {:induction false} OutGrows(f: seq<Content>, n: nat)
    requires n <= |f|
    ensures NextOut(f[..n]) <= NextOut(f)
    decreases |f| - n
  {
    if n < |f| {
      assert f[..n + 1][..n] == f[..n];
      OutGrows(f, n + 1);
    } else {
      assert f[..n] == f;
    }
  }

  /** Calls have distinct positions, below the next free one. */
  lemma {:induction false} OutsDiffer(f: seq<Content>, p: nat, q: nat)
    requires p < q < |f| && f[p].kind.ToolUse? && f[q].kind.ToolUse?
    ensures OutOf(f, p) < OutOf(f, q) < NextOut(f)
  {
    var g := f[..q];
    assert g[..p + 1] == f[..p + 1] && f[..p + 1][..p] == f[..p] && f[..q + 1][..q] == g;
    OutGrows(g, p + 1);
    OutGrows(f, q + 1);
  }

  lemma {:induction false} OutBelow(f: seq<Content>, p: nat)
    requires p < |f| && f[p].kind.ToolUse?
    ensures OutOf(f, p) < NextOut(f)
  {
    assert f[..p + 1][..p] == f[..p];
    OutGrows(f, p + 1);
  }

  /** Each call's deltas are its arguments; free positions have none. */
  ghost predicate ArgsFollow(log: seq<Event>, f: seq<Content>) {
    && (forall p :: 0 <= p < |f| && f[p].kind.ToolUse? ==> ArgsAt(log, OutOf(f, p)) == f[p].args)
    && (forall i: nat :: i >= NextOut(f) ==> ArgsAt(log, i) == "")
  }

  lemma {:induction false} SilentArgs(log: seq<Event>, e: Event, f: seq<Content>)
    requires ArgsFollow(log, f) && !e.ArgsSent?
    ensures ArgsFollow(log + [e], f)
  {
    hide ArgsAt;
    forall i: nat
      ensures ArgsAt(log + [e], i) == ArgsAt(log, i)
    {
      SentAppend(log, e, i);
      Blank(ArgsAt(log, i));
    }
  }

  lemma {:induction false} JsonArgs(sc: Conv, f: seq<Content>, e: Upstream)
    requires Tracked(sc, f) && ArgsFollow(sc.log, f) && e.JsonDelta? && e.index in sc.blocks && sc.blocks[e.index].kind.ToolUse?
    ensures var b := sc.blocks[e.index];
            ArgsFollow(sc.log + [ArgsSent(b.kind.id, b.outIdx, e.text)], FoldOne(f, e))
  {
    hide ArgsAt, Update;
    var b := sc.blocks[e.index];
    var event := ArgsSent(b.kind.id, b.outIdx, e.text);
    var g := FoldOne(f, e);
    UpdatePositions(f, g);
    var q :| 0 <= q < |f| && Indexes(f)[q] == e.index;
    assert Matches(b, f[q], OutOf(f, q));
    hide Indexes, OutOf, NextOut;
    OutBelow(f, q);
    forall i: nat
      ensures ArgsAt(sc.log + [event], i) == ArgsAt(sc.log, i) + (if i == OutOf(f, q) then e.text else "")
    {
      SentAppend(sc.log, event, i);
    }
    forall p | 0 <= p < |g| && g[p].kind.ToolUse?
      ensures ArgsAt(sc.log + [event], OutOf(g, p)) == g[p].args
    {
      Blank(f[p].args);
      if p < q {
        OutsDiffer(f, p, q);
      } else if q < p {
        OutsDiffer(f, q, p);
      }
    }
    forall i: nat | i >= NextOut(g)
      ensures ArgsAt(sc.log + [event], i) == ""
    {
      Blank(ArgsAt(sc.log, i));
    }
  }

  lemma {:induction false} StartArgs(log: seq<Event>, f: seq<Content>, c: Content)
    requires ArgsFollow(log, f) && c.args == ""
    ensures ArgsFollow(log, f + [c])
  {
    hide ArgsAt, NextOut, OutOf;
    StartPositions(f, c);
  }

  lemma {:induction false} SameArgs(log: seq<Event>, f: seq<Content>, g: seq<Content>)
    requires ArgsFollow(log, f) && SameKinds(f, g) && forall p :: 0 <= p < |f| && f[p].kind.ToolUse? ==> g[p].args == f[p].args
    ensures ArgsFollow(log, g)
  {
    UpdatePositions(f, g);
    hide ArgsAt, NextOut, OutOf;
  }

  lemma {:induction false} FrameArgs(sc: Conv, f: seq<Content>, e: Upstream, valid: string -> bool)
    requires Tracked(sc, f) && ArgsFollow(sc.log, f) && Take(sc, e, valid).Ok?
    ensures ArgsFollow(Take(sc, e, valid).value.log, FoldOne(f, e))
  {
    hide ArgsFollow, Tracked, OutputItems, Update;
    var s := Take(sc, e, valid).value;
    match e
    case BlockStart(index, kind) =>
      if s.log != sc.log {
        SilentArgs(sc.log, s.log[|s.log| - 1], f);
      }
      StartArgs(s.log, f, Content(index, kind, "", ""));
    case TextDelta(index, text) =>
      SilentArgs(sc.log, s.log[|s.log| - 1], f);
      forall p | 0 <= p < |f|
        ensures Extended(f[p], index, text, "").args == f[p].args
      {
        Blank(f[p].args);
      }
      SameArgs(s.log, f, FoldOne(f, e));
    case JsonDelta(_, _) => JsonArgs(sc, f, e);
    case MessageStart(_) => SilentArgs(sc.log, Created, f);
    case MessageStop => SilentArgs(sc.log, Completed(StatusOf(sc.stopReason), OutputItems(sc)), f);
    case MessageDelta(_) =>
    case Other =>
  }

  /** For every stream with increasing starts: the deltas sent for each call are
      its arguments, at every moment. */
  lemma {:induction false} RunArgsFollow(events: seq<Upstream>, valid: string -> bool)
    requires IncreasingStarts(events) && Run(events, valid).Ok?
    ensures ArgsFollow(Run(events, valid).value.log, Fold(events))
  {
    hide Take, Tracked, FoldOne, IncreasingStarts, Above, ArgsFollow;
    if events == [] {
      NoArgs();
    } else {
      var shorter := events[..|events| - 1];
      ShorterStarts(events);
      RunArgsFollow(shorter, valid);
      RunTracks(shorter, valid);
      FrameArgs(Run(shorter, valid).value, Fold(shorter), events[|events| - 1], valid);
    }
  }

  lemma {:induction false} NoArgs()
    ensures ArgsFollow([], [])
  {
  }
}
