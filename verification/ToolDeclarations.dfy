/** Exactly which declaration lists the tool context accepts, and exactly which
    Chat functions it then declares upstream. */
module ToolDeclarations {
  import opened Common
  import opened ToolNames

  /** A declared tool and the namespace it stands in; "" at top level. */
  datatype Placed = Placed(namespace: string, tool: Decl)

  function Children(namespace: string, tools: seq<Decl>): seq<Placed>
    decreases |tools|
  {
    if tools == [] then [] else [Placed(namespace, tools[0])] + Children(namespace, tools[1..])
  }

  /** All tools of a list of declarations, in order. */
  function Flat(decls: seq<Decl>): seq<Placed>
    decreases |decls|
  {
    if decls == [] then []
    else
      (if decls[0].kind == "namespace" then Children(TrimSpace(decls[0].name), decls[0].children) else [Placed("", decls[0])])
      + Flat(decls[1..])
  }

  lemma {:induction false} ChildrenAre(namespace: string, tools: seq<Decl>, p: Placed)
    ensures p in Children(namespace, tools) <==> p.namespace == namespace && p.tool in tools
    decreases |tools|
  {
    if tools == [] {
    } else {
      ChildrenAre(namespace, tools[1..], p);
      assert p.tool in tools <==> p.tool == tools[0] || p.tool in tools[1..];
    }
  }

  /** A tool stands at top level or among the children of a namespace. */
  lemma {:induction false} FlatIs(decls: seq<Decl>, p: Placed)
    requires p in Flat(decls)
    ensures (p.namespace == "" && p.tool.kind != "namespace" && p.tool in decls)
            || exists i :: 0 <= i < |decls| && decls[i].kind == "namespace" && TrimSpace(decls[i].name) == p.namespace
                           && p.tool in decls[i].children
    decreases |decls|
  {
    hide TrimSpace;
    var d := decls[0];
    ChildrenAre(TrimSpace(d.name), d.children, p);
    if p in Flat(decls[1..]) {
      FlatIs(decls[1..], p);
      if i :| 0 <= i < |decls[1..]| && decls[1..][i].kind == "namespace" && TrimSpace(decls[1..][i].name) == p.namespace
              && p.tool in decls[1..][i].children {
        assert decls[i + 1] == decls[1..][i];
      }
    }
  }

  /** Namespaces are named and hold plain tools; tools hold none. */
  predicate WellShaped(d: Decl) {
    if d.kind == "namespace" then TrimSpace(d.name) != "" && AllPlain(d.children) else d.children == []
  }

  predicate AllPlain(tools: seq<Decl>) {
    forall i :: 0 <= i < |tools| ==> tools[i].kind != "namespace" && tools[i].children == []
  }

  // ---- one tool ----

  /** Functions and custom tools are declared upstream. */
  predicate Declared(p: Placed) { TrimSpace(p.tool.kind) == "function" || TrimSpace(p.tool.kind) == "custom" }

  function ChatName(p: Placed): string {
    (if p.namespace == "" then "" else p.namespace + "__") + TrimSpace(p.tool.name)
  }

  /** The Chat function it becomes; custom tools take one input string. */
  function AsFunction(p: Placed): ChatFunction {
    ChatFunction(ChatName(p), p.tool.description, if TrimSpace(p.tool.kind) == "custom" then "{input:string}" else p.tool.schema,
                 p.tool.strictFlag)
  }

  /** Acceptable by itself: of another kind only when those are skipped, and else
      with a name that flattens to at most 64 bytes and a format that is text. */
  predicate Fine(p: Placed, strict: bool) {
    if !Declared(p) then !strict
    else
      && TrimSpace(p.tool.name) != "" && |ChatName(p)| <= 64
      && (TrimSpace(p.tool.kind) == "custom" ==>
            !p.tool.format.Undecodable? && (p.tool.format.FormatType? && strict ==> p.tool.format.kind == "text"))
  }

  function KeyOf(p: Placed): string { Key(p.namespace, TrimSpace(p.tool.name)) }

  /** Two declarations go together: of one key they are the same function of the same
      kind, of two keys they have two Chat names. */
  predicate Agree(p: Placed, q: Placed) {
    Declared(p) && Declared(q) ==>
      if KeyOf(p) == KeyOf(q) then TrimSpace(p.tool.kind) == TrimSpace(q.tool.kind) && AsFunction(p) == AsFunction(q)
      else ChatName(p) != ChatName(q)
  }

  /** Everything in the list goes together. */
  ghost predicate AllAgree(tools: seq<Placed>) {
    forall i, j :: 0 <= i < j < |tools| ==> Agree(tools[i], tools[j])
  }

  /** The declared function of every key, where it first appears. */
  function Functions(tools: seq<Placed>): seq<ChatFunction> {
    if tools == [] then []
    else
      var before, last := tools[..|tools| - 1], tools[|tools| - 1];
      Functions(before) + (if Declared(last) && !Knows(before, KeyOf(last)) then [AsFunction(last)] else [])
  }

  predicate Knows(tools: seq<Placed>, key: string) { exists i :: 0 <= i < |tools| && Declared(tools[i]) && KeyOf(tools[i]) == key }

  predicate Uses(tools: seq<Placed>, name: string) { exists i :: 0 <= i < |tools| && Declared(tools[i]) && ChatName(tools[i]) == name }

  // ---- the builder after some tools ----

  /** The builder has taken exactly these tools, which go together. */
  ghost predicate Holds(st: Builder, done: seq<Placed>) {
    && BuilderInv(st) && AllAgree(done) && st.out == Functions(done)
    && (forall key :: key in st.seenSchema <==> Knows(done, key))
    && (forall name :: name in st.ctx.byChatName <==> Uses(done, name))
    && (forall i :: 0 <= i < |done| && Declared(done[i]) ==>
          && KeyOf(done[i]) in st.seenSchema && st.seenSchema[KeyOf(done[i])] == AsFunction(done[i])
          && KeyOf(done[i]) in st.ctx.byIdentity && st.ctx.byIdentity[KeyOf(done[i])].kind == TrimSpace(done[i].tool.kind))
  }

  lemma {:induction false} KnowsAppend(done: seq<Placed>, p: Placed, key: string, name: string)
    ensures Knows(done + [p], key) <==> Knows(done, key) || (Declared(p) && KeyOf(p) == key)
    ensures Uses(done + [p], name) <==> Uses(done, name) || (Declared(p) && ChatName(p) == name)
  {
    var more := done + [p];
    assert more[|done|] == p && forall i :: 0 <= i < |done| ==> more[i] == done[i];
    if Knows(done, key) {
      var i :| 0 <= i < |done| && Declared(done[i]) && KeyOf(done[i]) == key;
      assert Declared(more[i]) && KeyOf(more[i]) == key;
    }
    if Uses(done, name) {
      var i :| 0 <= i < |done| && Declared(done[i]) && ChatName(done[i]) == name;
      assert Declared(more[i]) && ChatName(more[i]) == name;
    }
  }

  /** The names and functions of the builder are those of the declaration. */
  lemma {:induction false} SameTerms(p: Placed)
    ensures IdentityOf(p.tool, p.namespace).chatName == ChatName(p)
    ensures Key(IdentityOf(p.tool, p.namespace).namespace, IdentityOf(p.tool, p.namespace).name) == KeyOf(p)
    ensures IdentityOf(p.tool, p.namespace).kind == TrimSpace(p.tool.kind)
    ensures Function(p.tool, ChatName(p)) == AsFunction(p) && (Supported(p.tool) <==> Declared(p))
  {
    hide TrimSpace;
    assert "" + TrimSpace(p.tool.name) == TrimSpace(p.tool.name);
  }

  /** Whether one more tool is accepted. */
  lemma {:induction false} AddAccepts(st: Builder, done: seq<Placed>, p: Placed, strict: bool)
    requires Holds(st, done)
    ensures Add(st, p.tool, p.namespace, strict).error.None? <==> Fine(p, strict) && forall i :: 0 <= i < |done| ==> Agree(done[i], p)
  {
    hide TrimSpace, Functions, BuilderInv;
    SameTerms(p);
    if Declared(p) && Fine(p, strict) {
      var key, name := KeyOf(p), ChatName(p);
      if key in st.seenSchema {
        var i :| 0 <= i < |done| && Declared(done[i]) && KeyOf(done[i]) == key;
        SameKeyAgrees(done, p, i);
      } else {
        if name in st.ctx.byChatName {
          FreshKey(st, p);
        }
        NewKeyAgrees(done, p);
      }
    }
  }

  lemma {:induction false} SameKeyAgrees(done: seq<Placed>, p: Placed, i: nat)
    requires AllAgree(done) && i < |done| && Declared(done[i]) && Declared(p) && KeyOf(done[i]) == KeyOf(p)
    ensures (forall j :: 0 <= j < |done| ==> Agree(done[j], p)) <==> Agree(done[i], p)
  {
    hide TrimSpace;
    if Agree(done[i], p) {
      forall j | 0 <= j < |done|
        ensures Agree(done[j], p)
      {
        assert j < i ==> Agree(done[j], done[i]);
        assert i < j ==> Agree(done[i], done[j]);
      }
    }
  }

  lemma {:induction false} NewKeyAgrees(done: seq<Placed>, p: Placed)
    requires Declared(p) && !Knows(done, KeyOf(p))
    ensures (forall j :: 0 <= j < |done| ==> Agree(done[j], p)) <==> !Uses(done, ChatName(p))
  {
    hide TrimSpace;
  }

  /** A Chat name in use under a key that is new belongs to another pair. */
  lemma {:induction false} FreshKey(st: Builder, p: Placed)
    requires BuilderInv(st) && KeyOf(p) !in st.seenSchema && ChatName(p) in st.ctx.byChatName
    ensures var other := st.ctx.byChatName[ChatName(p)];
            other.namespace != p.namespace || other.name != TrimSpace(p.tool.name)
  {
    hide TrimSpace;
    assert NamedRight(st.ctx, ChatName(p), st.ctx.byChatName[ChatName(p)]);
  }

  lemma {:induction false} AddHolds(st: Builder, done: seq<Placed>, p: Placed, strict: bool)
    requires Holds(st, done) && Add(st, p.tool, p.namespace, strict).error.None?
    ensures Holds(Add(st, p.tool, p.namespace, strict).st, done + [p])
  {
    hide TrimSpace, BuilderInv, KeyOf, ChatName, AsFunction, Declared;
    AddAccepts(st, done, p, strict);
    SameTerms(p);
    AddKeepsInvariant(st, p.tool, p.namespace, strict);
    var t, all := Add(st, p.tool, p.namespace, strict).st, done + [p];
    assert all[..|done|] == done && all[|done|] == p;
    AgreeAppend(done, p);
    AddedState(st, p, strict);
    hide Add, Agree, AllAgree;
    forall key: string, name: string
      ensures Knows(all, key) <==> Knows(done, key) || (Declared(p) && KeyOf(p) == key)
      ensures Uses(all, name) <==> Uses(done, name) || (Declared(p) && ChatName(p) == name)
    {
      KnowsAppend(done, p, key, name);
    }
    hide Knows, Uses;
  }

  lemma {:induction false} AgreeAppend(done: seq<Placed>, p: Placed)
    ensures AllAgree(done + [p]) <==> AllAgree(done) && forall i :: 0 <= i < |done| ==> Agree(done[i], p)
  {
    hide Agree;
    var all := done + [p];
    if AllAgree(all) {
      forall i | 0 <= i < |done|
        ensures Agree(done[i], p)
      {
        assert Agree(all[i], all[|done|]);
      }
      forall i, j | 0 <= i < j < |done|
        ensures Agree(done[i], done[j])
      {
        assert Agree(all[i], all[j]);
      }
    }
  }

  /** What an accepted tool adds to the builder. */
  lemma {:induction false} AddedState(st: Builder, p: Placed, strict: bool)
    requires Add(st, p.tool, p.namespace, strict).error.None?
    ensures var t, key := Add(st, p.tool, p.namespace, strict).st, KeyOf(p);
            if !Declared(p) then t == st
            else if key in st.seenSchema then
              t == st && st.seenSchema[key] == AsFunction(p) && key in st.ctx.byIdentity && st.ctx.byIdentity[key].kind == TrimSpace(p.tool.kind)
            else
              && t.out == st.out + [AsFunction(p)] && t.seenSchema == st.seenSchema[key := AsFunction(p)]
              && t.ctx.byChatName.Keys == st.ctx.byChatName.Keys + {ChatName(p)}
              && t.ctx.byIdentity.Keys == st.ctx.byIdentity.Keys + {key} && t.ctx.byIdentity[key].kind == TrimSpace(p.tool.kind)
              && forall k :: k in st.ctx.byIdentity && k != key ==> t.ctx.byIdentity[k] == st.ctx.byIdentity[k]
  {
    hide TrimSpace;
    SameTerms(p);
  }

  // ---- lists of tools ----

  /** Adding tools one after another, up to the first refusal. */
  function AddAll(st: Builder, tools: seq<Placed>, strict: bool): Outcome
    decreases |tools|
  {
    if tools == [] then Outcome(st, None)
    else
      var first := Add(st, tools[0].tool, tools[0].namespace, strict);
      if first.error.Some? then first else AddAll(first.st, tools[1..], strict)
  }

  lemma {:induction false} AddAllConcat(st: Builder, a: seq<Placed>, b: seq<Placed>, strict: bool)
    ensures AddAll(st, a + b, strict) == if AddAll(st, a, strict).error.Some? then AddAll(st, a, strict) else AddAll(AddAll(st, a, strict).st, b, strict)
    decreases |a|
  {
    hide Add;
    if a == [] {
      assert a + b == b;
    } else {
      assert (a + b)[1..] == a[1..] + b;
      var first := Add(st, a[0].tool, a[0].namespace, strict);
      if first.error.None? {
        AddAllConcat(first.st, a[1..], b, strict);
      }
    }
  }

  lemma {:induction false} ChildrenAdd(st: Builder, tools: seq<Decl>, namespace: string, strict: bool)
    ensures AllPlain(tools) ==> AddChildren(st, tools, namespace, strict) == AddAll(st, Children(namespace, tools), strict)
    ensures !AllPlain(tools) ==> AddChildren(st, tools, namespace, strict).error.Some?
    decreases |tools|
  {
    hide Add;
    if tools == [] {
    } else {
      PlainStep(tools);
      hide AllPlain;
      var first := Add(st, tools[0], namespace, strict);
      if first.error.None? {
        ChildrenAdd(first.st, tools[1..], namespace, strict);
      }
      assert Children(namespace, tools)[1..] == Children(namespace, tools[1..]);
    }
  }

  lemma {:induction false} PlainStep(tools: seq<Decl>)
    requires tools != []
    ensures AllPlain(tools) <==> tools[0].kind != "namespace" && tools[0].children == [] && AllPlain(tools[1..])
  {
    if AllPlain(tools[1..]) {
      assert forall i :: 1 <= i < |tools| ==> tools[i] == tools[1..][i - 1];
    }
  }

  /** A build adds all tools of its declarations in order, or finds one misshapen. */
  lemma {:induction false} BuildAdds(st: Builder, decls: seq<Decl>, strict: bool)
    ensures (forall d :: d in decls ==> WellShaped(d)) ==> BuildFrom(st, decls, strict) == AddAll(st, Flat(decls), strict)
    ensures (exists d :: d in decls && !WellShaped(d)) ==> BuildFrom(st, decls, strict).error.Some?
    decreases |decls|
  {
    hide Add, AddChildren, AllPlain, TrimSpace;
    if decls == [] {
    } else {
      var d := decls[0];
      var head := if d.kind == "namespace" then Children(TrimSpace(d.name), d.children) else [Placed("", d)];
      if d.kind == "namespace" {
        ChildrenAdd(st, d.children, TrimSpace(d.name), strict);
      } else {
        assert [Placed("", d)][1..] == [];
      }
      AddAllConcat(st, head, Flat(decls[1..]), strict);
      var first := AddDeclaration(st, d, strict);
      assert WellShaped(d) ==> first == AddAll(st, head, strict);
      if first.error.None? {
        BuildAdds(first.st, decls[1..], strict);
      }
      assert forall e :: e in decls <==> e == d || e in decls[1..];
    }
  }

  lemma {:induction false} AddAllExactly(st: Builder, done: seq<Placed>, tools: seq<Placed>, strict: bool)
    requires Holds(st, done)
    ensures var o := AddAll(st, tools, strict);
            && (o.error.None? <==> (forall p :: p in tools ==> Fine(p, strict)) && AllAgree(done + tools))
            && (o.error.None? ==> Holds(o.st, done + tools))
    decreases |tools|
  {
    hide Add, Fine, AllAgree, Holds;
    if tools == [] {
      assert done + tools == done;
      HoldsAgrees(st, done);
    } else {
      var p := tools[0];
      var first := Add(st, p.tool, p.namespace, strict);
      AddAccepts(st, done, p, strict);
      HoldsAgrees(st, done);
      AgreeAppend(done, p);
      assert done + tools == done + [p] + tools[1..];
      if first.error.None? {
        AddHolds(st, done, p, strict);
        AddAllExactly(first.st, done + [p], tools[1..], strict);
        assert forall q :: q in tools <==> q == p || q in tools[1..];
      } else if AllAgree(done + tools) {
        PrefixAgrees(done + [p], tools[1..]);
      }
    }
  }

  lemma {:induction false} HoldsAgrees(st: Builder, done: seq<Placed>)
    requires Holds(st, done)
    ensures AllAgree(done)
  {
    hide BuilderInv, AllAgree;
  }

  lemma {:induction false} PrefixAgrees(a: seq<Placed>, b: seq<Placed>)
    requires AllAgree(a + b)
    ensures AllAgree(a)
  {
    hide Agree;
    forall i, j | 0 <= i < j < |a|
      ensures Agree(a[i], a[j])
    {
      assert Agree((a + b)[i], (a + b)[j]);
    }
  }

  /** Exactly the declaration lists whose namespaces are well shaped, whose tools
      are each acceptable and which go together are accepted; and what is then
      declared upstream is the function of every key, where it first appears. */
  lemma {:induction false} AcceptedExactly(decls: seq<Decl>, strict: bool)
    ensures var o := BuildFrom(EMPTY_BUILDER, decls, strict);
            && (o.error.None? <==>
                  && (forall d :: d in decls ==> WellShaped(d))
                  && (forall p :: p in Flat(decls) ==> Fine(p, strict))
                  && AllAgree(Flat(decls)))
            && (o.error.None? ==> o.st.out == Functions(Flat(decls)))
  {
    hide BuildFrom, Fine, AllAgree, Flat, WellShaped, Functions;
    BuildAdds(EMPTY_BUILDER, decls, strict);
    NothingHolds();
    AddAllExactly(EMPTY_BUILDER, [], Flat(decls), strict);
    assert [] + Flat(decls) == Flat(decls);
    if BuildFrom(EMPTY_BUILDER, decls, strict).error.None? {
      HoldsOutput(BuildFrom(EMPTY_BUILDER, decls, strict).st, Flat(decls));
    }
  }

  lemma {:induction false} HoldsOutput(st: Builder, done: seq<Placed>)
    requires Holds(st, done)
    ensures st.out == Functions(done)
  {
    hide BuilderInv, AllAgree, Functions;
  }

  lemma {:induction false} NothingHolds()
    ensures Holds(EMPTY_BUILDER, [])
  {
    forall n
      ensures CountsRight(EMPTY_CONTEXT, n)
    {
      assert Locals(EMPTY_CONTEXT.byIdentity, n) == {};
    }
  }
}
