/** What the Messages -> Responses route sends at the end, read off the upstream
    frames: the output item by item, its status and identity, and exactly when
    the stream is refused. */
module MessagesTold {
  import opened Common
  import opened OutputAssembly
  import opened SortedInts
  import opened MessagesToResponses
  import opened MessagesParity

  // ---- the output of a message ----

  /** The calls of a message, in order; blank and null arguments default. */
  function CallsIn(contents: seq<Content>, render: string -> string): seq<Option<Item>> {
    if contents == [] then []
    else
      var c := contents[|contents| - 1];
      CallsIn(contents[..|contents| - 1], render)
      + (if c.kind.ToolUse? then [Some(FunctionCall(c.kind.id, c.kind.name, "", render(DefaultArgs(c.args))))] else [])
  }

  /** All its text. */
  function TextIn(contents: seq<Content>): string {
    if contents == [] then ""
    else
      var c := contents[|contents| - 1];
      TextIn(contents[..|contents| - 1]) + (if c.kind.Text? then c.text else "")
  }

  predicate HasText(contents: seq<Content>) { exists p :: 0 <= p < |contents| && contents[p].kind.Text? }

  /** The output: the calls, with one message holding all text where the first text
      block stands, if there is one. */
  ghost predicate IsOutput(output: seq<Option<Item>>, id: string, contents: seq<Content>, render: string -> string) {
    if HasText(contents) then
      exists p :: 0 <= p < |contents| && contents[p].kind.Text? && !HasText(contents[..p])
        && output == CallsIn(contents[..p], render) + [Some(Message(id, "", TextIn(contents)))] + CallsIn(contents[p..], render)
    else output == CallsIn(contents, render)
  }

  lemma {:induction false} CallsConcat(a: seq<Content>, b: seq<Content>, render: string -> string)
    ensures CallsIn(a + b, render) == CallsIn(a, render) + CallsIn(b, render)
    decreases |b|
  {
    if b == [] {
      assert a + b == a;
    } else {
      CallsConcat(a, b[..|b| - 1], render);
      assert (a + b)[..|a + b| - 1] == a + b[..|b| - 1];
    }
  }

  /** The assembler after a message, first text block at `p`. */
  ghost predicate Assembled(a: Assembly, id: string, f: seq<Content>, p: nat, render: string -> string) {
    && p <= |f| && !HasText(f[..p]) && (p < |f| ==> f[p].kind.Text?)
    && a.messageId == id && a.status == "" && a.text == TextIn(f)
    && if p == |f| then a.textSlot == None && a.items == CallsIn(f, render)
       else a.textSlot == Some(|CallsIn(f[..p], render)|) && a.items == CallsIn(f[..p], render) + [None] + CallsIn(f[p..], render)
  }

  lemma {:induction false} NoTextHere(f: seq<Content>, c: Content)
    ensures HasText(f + [c]) <==> HasText(f) || c.kind.Text?
  {
    if HasText(f) {
      var p :| 0 <= p < |f| && f[p].kind.Text?;
      assert (f + [c])[p].kind.Text?;
    }
    if c.kind.Text? {
      assert (f + [c])[|f|].kind.Text?;
    }
  }

  lemma {:induction false} OneContent(a: Assembly, id: string, f: seq<Content>, p: nat, c: Content, render: string -> string) returns (q: nat)
    requires Assembled(a, id, f, p, render)
    ensures Assembled(AddContent(a, c.kind, c.text, c.args, render), id, f + [c], q, render)
  {
    hide HasText, AddContent;
    var g := f + [c];
    assert g[..|f|] == f && g[|f|] == c && g[..|g|] == g && g[..p] == f[..p] && f[..|f|] == f;
    NoTextHere(f, c);
    assert TextIn(g) == TextIn(f) + (if c.kind.Text? then c.text else "");
    CallsConcat(f, [c], render);
    hide TextIn, CallsIn;
    if p < |f| {
      q := p;
      assert g[p..] == f[p..] + [c];
      CallsConcat(f[p..], [c], render);
      LaterContent(a, c, render);
    } else {
      q := if c.kind.Text? then |f| else |g|;
      FirstContent(a, c, render);
      if c.kind.Text? {
        assert g[q..] == [c] && g[..q] == f;
      }
    }
  }

  lemma {:induction false} LaterContent(a: Assembly, c: Content, render: string -> string)
    requires a.textSlot.Some?
    ensures AddContent(a, c.kind, c.text, c.args, render)
            == a.(items := a.items + CallsIn([c], render), text := a.text + (if c.kind.Text? then c.text else ""))
  {
    assert [c][..0] == [] && a.items + [] == a.items && a.text + "" == a.text;
  }

  lemma {:induction false} FirstContent(a: Assembly, c: Content, render: string -> string)
    requires a.textSlot.None?
    ensures AddContent(a, c.kind, c.text, c.args, render)
            == if c.kind.Text? then a.(items := a.items + [None] + CallsIn([c], render), textSlot := Some(|a.items|), text := a.text + c.text)
               else a.(items := a.items + CallsIn([c], render), text := a.text + "")
  {
    assert [c][..0] == [] && a.items + [] == a.items && a.text + "" == a.text && a.items + [None] + [] == a.items + [None];
  }

  lemma {:induction false} AssembleIs(id: string, f: seq<Content>, render: string -> string) returns (p: nat)
    ensures Assembled(Assemble(id, f, render), id, f, p, render)
  {
    if f == [] {
      p := 0;
    } else {
      hide AddContent, HasText;
      var shorter, c := f[..|f| - 1], f[|f| - 1];
      assert shorter + [c] == f;
      p := AssembleIs(id, shorter, render);
      p := OneContent(Assemble(id, shorter, render), id, shorter, p, c, render);
    }
  }

  /** What the batch converter makes of a message: it refuses unknown kinds, and
      otherwise lists the calls and the one message. */
  lemma {:induction false} BatchIs(id: string, contents: seq<Content>, canonical: string -> string)
    ensures var batch := Batch(id, contents, canonical);
            && (batch.Err? <==> exists p :: 0 <= p < |contents| && contents[p].kind.Unknown?)
            && (batch.Ok? ==> IsOutput(batch.value, id, contents, canonical))
  {
    hide Assemble;
    OutputOf(id, contents, canonical);
  }

  lemma {:induction false} OutputOf(id: string, contents: seq<Content>, render: string -> string)
    ensures IsOutput(Rendered(Assemble(id, contents, render)), id, contents, render)
  {
    hide Assemble;
    var p := AssembleIs(id, contents, render);
    var a := Assemble(id, contents, render);
    if p == |contents| {
      assert contents[..p] == contents;
      NoTextNoWords(contents);
    } else {
      assert contents[p].kind.Text?;
      var calls := CallsIn(contents[..p], render);
      assert a.items[|calls| := Some(TheMessage(a))] == calls + [Some(TheMessage(a))] + CallsIn(contents[p..], render);
    }
  }

  lemma {:induction false} NoTextNoWords(f: seq<Content>)
    requires !HasText(f)
    ensures TextIn(f) == ""
  {
    if f == [] {
    } else {
      var shorter, c := f[..|f| - 1], f[|f| - 1];
      assert shorter + [c] == f;
      NoTextHere(shorter, c);
      NoTextNoWords(shorter);
    }
  }

  // ---- the whole stream ----

  /** The last message identity and the last stop reason told. */
  function IdTold(events: seq<Upstream>): string {
    if events == [] then ""
    else if events[|events| - 1].MessageStart? then events[|events| - 1].id
    else IdTold(events[..|events| - 1])
  }

  function StopTold(events: seq<Upstream>): string {
    if events == [] then ""
    else if events[|events| - 1].MessageDelta? then events[|events| - 1].stopReason
    else StopTold(events[..|events| - 1])
  }

  lemma {:induction false} RunHears(events: seq<Upstream>, valid: string -> bool)
    requires Run(events, valid).Ok?
    ensures Run(events, valid).value.msgID == IdTold(events) && Run(events, valid).value.stopReason == StopTold(events)
  {
    hide OutputItems;
    if events == [] {
    } else {
      RunHears(events[..|events| - 1], valid);
    }
  }

  /** The frame is one the converter refuses: argument text for no call of the
      message so far, or the end while some call's arguments are incomplete. */
  ghost predicate Refused(contents: seq<Content>, e: Upstream, valid: string -> bool) {
    || (e.JsonDelta? && forall p :: 0 <= p < |contents| ==> contents[p].index != e.index || !contents[p].kind.ToolUse?)
    || (e.MessageStop? && exists p :: 0 <= p < |contents| && contents[p].kind.ToolUse? && !valid(DefaultArgs(contents[p].args)))
  }

  lemma {:induction false} FrameRefused(sc: Conv, f: seq<Content>, e: Upstream, valid: string -> bool)
    requires Tracked(sc, f)
    ensures Take(sc, e, valid).Err? <==> Refused(f, e, valid)
    ensures Take(sc, e, valid).Err? ==> Take(sc, e, valid).error == if e.MessageStop? then IncompleteArguments else ArgumentsWithoutBlock
  {
    hide NextOut, MessageAt, OutOf, OutputItems, DefaultArgs;
    assert forall p :: 0 <= p < |f| ==> Matches(sc.blocks[f[p].index], f[p], OutOf(f, p));
    forall k | k in sc.blocks
      ensures exists p :: 0 <= p < |f| && f[p].index == k
    {
      assert k in Indexes(f);
    }
  }

  /** A stream with increasing block starts is refused exactly at the frames the
      message so far has no place for. */
  lemma {:induction false} RefusedExactly(events: seq<Upstream>, e: Upstream, valid: string -> bool)
    requires IncreasingStarts(events) && Run(events, valid).Ok?
    ensures Run(events + [e], valid).Err? <==> Refused(Fold(events), e, valid)
    ensures Run(events + [e], valid).Err? ==>
              Run(events + [e], valid).error == if e.MessageStop? then IncompleteArguments else ArgumentsWithoutBlock
  {
    hide Take, Fold, Tracked;
    assert (events + [e])[..|events|] == events;
    RunTracks(events, valid);
    FrameRefused(Run(events, valid).value, Fold(events), e, valid);
  }

  /** message_stop after any such stream whose arguments are complete: the last
      event is response.completed with the status of the last stop reason and the
      output of the folded message under the last identity told. */
  lemma {:induction false} StopTellsAll(events: seq<Upstream>, valid: string -> bool) returns (output: seq<Option<Item>>)
    requires IncreasingStarts(events) && Run(events, valid).Ok?
    requires forall p :: 0 <= p < |Fold(events)| && Fold(events)[p].kind.ToolUse? ==> valid(DefaultArgs(Fold(events)[p].args))
    ensures Run(events + [MessageStop], valid).Ok?
    ensures Run(events + [MessageStop], valid).value.log
            == Run(events, valid).value.log + [Completed(if StopTold(events) == "max_tokens" then "incomplete" else "completed", output)]
    ensures IsOutput(output, IdTold(events), Fold(events), Verbatim)
  {
    hide Fold, Tracked, OutputItems, IsOutput;
    RunTracks(events, valid);
    RunHears(events, valid);
    RefusedExactly(events, MessageStop, valid);
    var sc := Run(events, valid).value;
    assert (events + [MessageStop])[..|events|] == events;
    output := OutputItems(sc);
    OutputIsFold(sc, Fold(events));
    OutputOf(sc.msgID, Fold(events), Verbatim);
  }
}
