/** How a call's name is put together from the pieces it is streamed in, on the
    Chat Completions -> Responses leg: a declared tool cut into pieces is found
    again under its own name, namespace and kind. */
module ChatToResponsesNames {
  import opened Common
  import opened ToolNames
  import opened ToolDeclarations
  import opened ChatChunks
  import opened ResponsesProtocol
  import opened ChatToResponses
  import opened ChatToResponsesCalls
  import opened ChatToResponsesContent

  /** The name pieces of a call's fragments. */
  function Pieces(deltas: seq<ToolDelta>): seq<string> {
    if deltas == [] then []
    else
      var piece := deltas[|deltas| - 1].name;
      Pieces(deltas[..|deltas| - 1]) + (if piece == "" then [] else [piece])
  }

  function Joined(pieces: seq<string>): string {
    if pieces == [] then "" else Joined(pieces[..|pieces| - 1]) + pieces[|pieces| - 1]
  }

  /** A cutting that can be followed: what the pieces spell is no declared name
      before the last one, and no piece starts with all that came before it. */
  ghost predicate CleanCut(ctx: ToolContext, pieces: seq<string>) {
    forall k :: 0 < k < |pieces| ==> Joined(pieces[..k]) !in ctx.kinds && !(Joined(pieces[..k]) <= pieces[k])
  }

  // ---- the pieces of a list of fragments ----

  lemma {:induction false} LastPiece(ctx: ToolContext, deltas: seq<ToolDelta>)
    requires deltas != []
    ensures var before, piece := Pieces(deltas[..|deltas| - 1]), deltas[|deltas| - 1].name;
            && Pieces(deltas) == (if piece == "" then before else before + [piece])
            && Joined(Pieces(deltas)) == Joined(before) + piece
            && (CleanCut(ctx, Pieces(deltas)) ==> CleanCut(ctx, before))
            && (CleanCut(ctx, Pieces(deltas)) && piece != "" && before != [] ==>
                  Joined(before) !in ctx.kinds && !(Joined(before) <= piece))
  {
    var before, piece := Pieces(deltas[..|deltas| - 1]), deltas[|deltas| - 1].name;
    var all := Pieces(deltas);
    if piece == "" {
      assert all == before && Joined(before) + piece == Joined(before);
    } else {
      assert all[..|before|] == before && all[|before|] == piece;
      forall k | 0 < k < |before|
        ensures all[..k] == before[..k] && all[k] == before[k]
      {
      }
    }
  }

  lemma {:induction false} PiecesAreNotEmpty(deltas: seq<ToolDelta>)
    ensures Joined(Pieces(deltas)) == "" <==> Pieces(deltas) == []
    ensures deltas == [] ==> Pieces(deltas) == []
  {
    if deltas == [] {
    } else {
      PiecesAreNotEmpty(deltas[..|deltas| - 1]);
      LastPiece(EMPTY_CONTEXT, deltas);
    }
  }

  /** A clean cutting spells the pieces joined. */
  lemma {:induction false} SpelledIsJoined(ctx: ToolContext, deltas: seq<ToolDelta>)
    requires CleanCut(ctx, Pieces(deltas))
    ensures Spelled(deltas) == Joined(Pieces(deltas))
  {
    hide CleanCut;
    if deltas == [] {
    } else {
      hide Pieces, Joined, Spelled, MergeName;
      var before, tc := deltas[..|deltas| - 1], deltas[|deltas| - 1];
      assert before + [tc] == deltas;
      LastPiece(ctx, deltas);
      SpelledIsJoined(ctx, before);
      PiecesAreNotEmpty(before);
      if tc.name == "" {
        LastFragment(before, tc);
      } else {
        PieceExtends(before, tc);
        assert "" + tc.name == tc.name && "" <= tc.name;
      }
    }
  }

  /** Until the name is whole it stays open, and every fragment counts. */
  lemma {:induction false} OpenUntilWhole(ctx: ToolContext, deltas: seq<ToolDelta>, name: string)
    requires CleanCut(ctx, Pieces(deltas)) && name in ctx.kinds && Joined(Pieces(deltas)) <= name
    requires Joined(Pieces(deltas)) == "" || Joined(Pieces(deltas)) !in ctx.kinds
    ensures Settled(ctx, deltas) == deltas && !Decided(ctx, Spelled(deltas))
  {
    hide CleanCut, Pieces, Joined, Spelled;
    SpelledIsJoined(ctx, deltas);
    if deltas == [] {
    } else {
      var before := deltas[..|deltas| - 1];
      LastPiece(ctx, deltas);
      PiecesAreNotEmpty(before);
      OpenUntilWhole(ctx, before, name);
    }
  }

  /** Only the fragments up to the one that makes the name whole count. */
  lemma {:induction false} SettledIsWhole(ctx: ToolContext, deltas: seq<ToolDelta>) returns (n: nat)
    requires CleanCut(ctx, Pieces(deltas)) && Joined(Pieces(deltas)) in ctx.kinds && Pieces(deltas) != []
    ensures 0 < n <= |deltas| && Settled(ctx, deltas) == deltas[..n] && Spelled(deltas[..n]) == Joined(Pieces(deltas))
    ensures Pieces(deltas[..n]) == Pieces(deltas) != Pieces(deltas[..n - 1])
  {
    hide CleanCut, Pieces, Joined, Spelled;
    PiecesAreNotEmpty(deltas);
    var before, piece := deltas[..|deltas| - 1], deltas[|deltas| - 1].name;
    LastPiece(ctx, deltas);
    if piece == "" {
      n := SettledIsWhole(ctx, before);
      assert before[..n] == deltas[..n] && before[..n - 1] == deltas[..n - 1];
    } else {
      n := |deltas|;
      PiecesAreNotEmpty(before);
      OpenUntilWhole(ctx, before, Joined(Pieces(deltas)));
      SpelledIsJoined(ctx, deltas);
      assert deltas[..n] == deltas;
    }
  }

  /** A declared name, cut cleanly, names the call: with its kind and identity, and
      with the first id among the fragments up to the one that completes it. */
  lemma {:induction false} CutNameIsWhole(ctx: ToolContext, deltas: seq<ToolDelta>) returns (n: nat)
    requires CleanCut(ctx, Pieces(deltas)) && Joined(Pieces(deltas)) in ctx.kinds && Pieces(deltas) != []
    ensures 0 < n <= |deltas| && Pieces(deltas[..n]) == Pieces(deltas) != Pieces(deltas[..n - 1])
    ensures var name := Joined(Pieces(deltas));
            Named(ctx, deltas) == Naming(FirstId(deltas[..n]), name, true, ctx.kinds[name] == "custom",
                                         if name in ctx.byChatName then ctx.byChatName[name] else NO_IDENTITY)
  {
    hide CleanCut, Pieces, Joined, Spelled, FirstId;
    n := SettledIsWhole(ctx, deltas);
    PiecesAreNotEmpty(deltas);
  }

  /** The first id that is not empty, or none. */
  lemma {:induction false} FirstIdIsFirst(deltas: seq<ToolDelta>)
    ensures FirstId(deltas) == "" <==> forall i :: 0 <= i < |deltas| ==> deltas[i].id == ""
    ensures FirstId(deltas) != "" ==> exists i :: 0 <= i < |deltas| && deltas[i].id == FirstId(deltas)
                                                && forall j :: 0 <= j < i ==> deltas[j].id == ""
  {
    if deltas == [] {
    } else {
      var before := deltas[..|deltas| - 1];
      FirstIdIsFirst(before);
      if FirstId(before) != "" {
        var i :| 0 <= i < |before| && before[i].id == FirstId(before) && forall j :: 0 <= j < i ==> before[j].id == "";
        assert deltas[i].id == FirstId(deltas);
      }
    }
  }

  // ---- pieces that are not cut cleanly ----

  /** A piece that starts with the name so far, as a repeated name does, is the
      name from then on; any other piece is put behind it. */
  lemma {:induction false} PieceExtends(deltas: seq<ToolDelta>, tc: ToolDelta)
    requires tc.name != ""
    ensures var before, after := Spelled(deltas), Spelled(deltas + [tc]);
            && (tc.name == before ==> after == before)
            && (before <= tc.name ==> after == tc.name)
            && (!(before <= tc.name) ==> after == before + tc.name)
  {
    LastFragment(deltas, tc);
  }

  /** A first piece that no declared name starts with is the name at once, of a
      function without identity, whatever follows. */
  lemma {:induction false} UnknownNameIsFunction(ctx: ToolContext, deltas: seq<ToolDelta>, n: nat)
    requires n < |deltas| && Pieces(deltas[..n]) == [] && deltas[n].name != ""
    requires forall name :: name in ctx.kinds ==> !(deltas[n].name <= name)
    requires forall name :: name in ctx.byChatName ==> name in ctx.kinds
    ensures Named(ctx, deltas) == Naming(FirstId(deltas[..n + 1]), deltas[n].name, true, false, NO_IDENTITY)
  {
    hide FirstId, Spelled;
    var told := deltas[..n + 1];
    assert told[..n] == deltas[..n];
    NamelessIsOpen(ctx, deltas[..n]);
    LastFragment(deltas[..n], deltas[n]);
    assert deltas[..n] + [deltas[n]] == told;
    LastSettled(ctx, deltas[..n], deltas[n]);
    DecidedStays(ctx, deltas, n + 1);
  }

  lemma {:induction false} NamelessIsOpen(ctx: ToolContext, deltas: seq<ToolDelta>)
    requires Pieces(deltas) == []
    ensures Settled(ctx, deltas) == deltas && Spelled(deltas) == ""
  {
    if deltas == [] {
    } else {
      NamelessIsOpen(ctx, deltas[..|deltas| - 1]);
    }
  }

  /** What a decided call is called does not depend on later fragments. */
  lemma {:induction false} DecidedStays(ctx: ToolContext, deltas: seq<ToolDelta>, n: nat)
    requires n <= |deltas| && Decided(ctx, Spelled(Settled(ctx, deltas[..n])))
    ensures Settled(ctx, deltas) == Settled(ctx, deltas[..n])
    ensures Named(ctx, deltas) == Named(ctx, deltas[..n])
  {
    hide Decided, Spelled, FirstId, ClassifyStreamedName, ResolveChatName;
    if n == |deltas| {
      assert deltas[..n] == deltas;
    } else {
      var before := deltas[..|deltas| - 1];
      assert before[..n] == deltas[..n];
      DecidedStays(ctx, before, n);
    }
  }

  // ---- a declared tool ----

  lemma {:induction false} DeclaredResolves(decls: seq<Decl>, strict: bool, namespace: string, tool: Decl)
    requires BuildFrom(EMPTY_BUILDER, decls, strict).error.None? && Placed(namespace, tool) in Flat(decls) && Supported(tool)
    ensures Declares(BuildFrom(EMPTY_BUILDER, decls, strict).st.ctx, namespace, tool)
    ensures Consistent(BuildFrom(EMPTY_BUILDER, decls, strict).st.ctx)
  {
    FlatIs(decls, Placed(namespace, tool));
    hide BuildFrom, Declares, Supported, Consistent, Flat;
    FlatteningIsReversible(decls, strict);
    var ctx := BuildFrom(EMPTY_BUILDER, decls, strict).st.ctx;
    if namespace == "" && tool.kind != "namespace" && tool in decls {
      var i :| 0 <= i < |decls| && decls[i] == tool;
      assert DeclaresAll(ctx, decls[i]);
    } else {
      var i :| 0 <= i < |decls| && decls[i].kind == "namespace" && TrimSpace(decls[i].name) == namespace && tool in decls[i].children;
      assert DeclaresAll(ctx, decls[i]);
      var j :| 0 <= j < |decls[i].children| && decls[i].children[j] == tool;
    }
  }

  /** A call whose pieces spell the flattened name of a declared tool becomes the
      item of that tool, under its own name and namespace and of its own kind. */
  lemma {:induction false} DeclaredCallIsItsTool(env: Env, decls: seq<Decl>, strict: bool, namespace: string, tool: Decl,
                                                 deltas: seq<ToolDelta>, args: string) returns (n: nat)
    requires BuildFrom(EMPTY_BUILDER, decls, strict).error.None? && env.tools == BuildFrom(EMPTY_BUILDER, decls, strict).st.ctx
    requires Placed(namespace, tool) in Flat(decls) && Supported(tool)
    requires CleanCut(env.tools, Pieces(deltas))
    requires Joined(Pieces(deltas)) == ChatName(Placed(namespace, tool))
    ensures n <= |deltas|
    ensures ItemOf(env, Named(env.tools, deltas), args)
            == if TrimSpace(tool.kind) == "custom" then
                 var input := env.json.unwrap(args);
                 if input.None? then None else Some(CustomCall(FirstId(deltas[..n]), TrimSpace(tool.name), namespace, input.value))
               else if env.json.valid(DefaultArgs(args)) then
                 Some(FunctionCall(FirstId(deltas[..n]), TrimSpace(tool.name), namespace, DefaultArgs(args)))
               else None
    ensures Pieces(deltas[..n]) == Pieces(deltas) && (n > 0 ==> Pieces(deltas[..n - 1]) != Pieces(deltas))
  {
    hide CleanCut, Pieces, Joined, FirstId, BuildFrom, Flat, TrimSpace, Named, DefaultArgs;
    DeclaredResolves(decls, strict, namespace, tool);
    var name := Joined(Pieces(deltas));
    assert name == Flatten(namespace, TrimSpace(tool.name)) by {
      assert "" + TrimSpace(tool.name) == TrimSpace(tool.name);
    }
    assert NamedRight(env.tools, name, env.tools.byChatName[name]);
    PiecesAreNotEmpty(deltas);
    n := CutNameIsWhole(env.tools, deltas);
  }

  /** So in every completed response: a call whose own fragments spell a declared
      tool stands in the output as a call of that tool, with its joined arguments. */
  lemma {:induction false} DeclaredCallIsConveyed(env: Env, decls: seq<Decl>, strict: bool, namespace: string, tool: Decl,
                                                  chunks: seq<Chunk>, output: seq<Item>, place: map<int, nat>, k: int)
    requires BuildFrom(EMPTY_BUILDER, decls, strict).error.None? && env.tools == BuildFrom(EMPTY_BUILDER, decls, strict).st.ctx
    requires Placed(namespace, tool) in Flat(decls) && Supported(tool)
    requires Conveys(env, output, chunks, place) && k in place
    requires CleanCut(env.tools, Pieces(DeltasOf(chunks, k)))
    requires Joined(Pieces(DeltasOf(chunks, k))) == ChatName(Placed(namespace, tool))
    ensures place[k] < |output| && ArgumentsOf(chunks, k).Some?
    ensures var item, args := output[place[k]], ArgumentsOf(chunks, k).value;
            if TrimSpace(tool.kind) == "custom" then
              && item.CustomCall? && item.name == TrimSpace(tool.name) && item.namespace == namespace
              && env.json.unwrap(args) == Some(item.input)
            else
              && item.FunctionCall? && item.name == TrimSpace(tool.name) && item.namespace == namespace
              && item.args == DefaultArgs(args)
  {
    hide CleanCut, Pieces, Joined, FirstId, BuildFrom, Flat, TrimSpace, Named, DefaultArgs, ItemOf, ArgumentsOf, DeltasOf;
    var n := DeclaredCallIsItsTool(env, decls, strict, namespace, tool, DeltasOf(chunks, k), ArgumentsOf(chunks, k).value);
  }
}
