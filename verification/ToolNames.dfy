/** Responses tool declarations flattened onto Chat Completions names
    (internal/adapter/shared/shared.go): the context build, the two resolvers
    and the streamed-name classifier. */
module ToolNames {
  import opened Common

  /** A declaration's `format` member after JSON decoding. */
  datatype Format = NoFormat | Undecodable | FormatType(kind: string)

  /** One declared tool; `children` is non-empty for namespaces only. */
  datatype Decl = Decl(kind: string, name: string, description: string, schema: string, strictFlag: bool,
                       format: Format, children: seq<Decl>)

  datatype Identity = Identity(kind: string, name: string, namespace: string, chatName: string)

  const NO_IDENTITY := Identity("", "", "", "")

  /** The Chat function as declared upstream. */
  datatype ChatFunction = ChatFunction(name: string, description: string, schema: string, strictFlag: bool)

  datatype ToolContext = ToolContext(kinds: map<string, string>, byChatName: map<string, Identity>,
                                     byIdentity: map<string, Identity>, localCount: map<string, nat>)

  const EMPTY_CONTEXT := ToolContext(map[], map[], map[], map[])

  datatype ToolError = UnsupportedKind | NameRequired | NameTooLong | BadCustomFormat | ConflictingDuplicate
                     | FlattenedCollision | NamespaceNameRequired | NestedNamespace | NestedTools

  datatype Builder = Builder(ctx: ToolContext, seenSchema: map<string, ChatFunction>, out: seq<ChatFunction>)

  const EMPTY_BUILDER := Builder(EMPTY_CONTEXT, map[], [])

  /** A failed build still hands back what it had collected so far. */
  datatype Outcome = Outcome(st: Builder, error: Option<ToolError>)

  const CUSTOM_SCHEMA := "{input:string}"

  function Flatten(namespace: string, name: string): string {
    if namespace != "" then namespace + "__" + name else name
  }

  function Key(namespace: string, name: string): string {
    namespace + "\0" + name
  }

  function Count(c: ToolContext, name: string): nat {
    if name in c.localCount then c.localCount[name] else 0
  }

  predicate Supported(tool: Decl) {
    TrimSpace(tool.kind) == "function" || TrimSpace(tool.kind) == "custom"
  }

  function Function(tool: Decl, chatName: string): ChatFunction {
    ChatFunction(chatName, tool.description,
                 if TrimSpace(tool.kind) == "custom" then CUSTOM_SCHEMA else tool.schema, tool.strictFlag)
  }

  /** Registers one new identity in all four maps. */
  function Insert(c: ToolContext, key: string, id: Identity): ToolContext {
    ToolContext(c.kinds[id.chatName := id.kind], c.byChatName[id.chatName := id],
                c.byIdentity[key := id], c.localCount[id.name := Count(c, id.name) + 1])
  }

  /** The per-tool checks that need no index. */
  function Refusal(tool: Decl, chatName: string, strict: bool): Option<ToolError> {
    if TrimSpace(tool.name) == "" then Some(NameRequired)
    else if |chatName| > 64 then Some(NameTooLong)
    else if TrimSpace(tool.kind) == "custom"
            && (tool.format.Undecodable? || (tool.format.FormatType? && strict && tool.format.kind != "text"))
    then Some(BadCustomFormat)
    else None
  }

  function IdentityOf(tool: Decl, namespace: string): Identity {
    var name := TrimSpace(tool.name);
    Identity(TrimSpace(tool.kind), name, namespace, Flatten(namespace, name))
  }

  /** Duplicate and collision checks, then registration. */
  function Register(st: Builder, id: Identity, fn: ChatFunction): Outcome {
    var key := Key(id.namespace, id.name);
    if key in st.seenSchema then
      if key !in st.ctx.byIdentity || st.ctx.byIdentity[key].kind != id.kind || st.seenSchema[key] != fn
      then Outcome(st, Some(ConflictingDuplicate))
      else Outcome(st, None)
    else if id.chatName in st.ctx.byChatName
            && (st.ctx.byChatName[id.chatName].namespace != id.namespace || st.ctx.byChatName[id.chatName].name != id.name) then
      Outcome(st, Some(FlattenedCollision))
    else
      Outcome(Builder(Insert(st.ctx, key, id), st.seenSchema[key := fn], st.out + [fn]), None)
  }

  /** The closure `add` of buildResponsesToolContext. */
  function Add(st: Builder, tool: Decl, namespace: string, strict: bool): Outcome {
    var id := IdentityOf(tool, namespace);
    if !Supported(tool) then Outcome(st, if strict then Some(UnsupportedKind) else None)
    else
      var refused := Refusal(tool, id.chatName, strict);
      if refused.Some? then Outcome(st, refused) else Register(st, id, Function(tool, id.chatName))
  }

  function AddChildren(st: Builder, children: seq<Decl>, namespace: string, strict: bool): Outcome
    decreases |children|
  {
    if children == [] then Outcome(st, None)
    else if children[0].kind == "namespace" || children[0].children != [] then Outcome(st, Some(NestedNamespace))
    else
      var first := Add(st, children[0], namespace, strict);
      if first.error.Some? then first else AddChildren(first.st, children[1..], namespace, strict)
  }

  function AddDeclaration(st: Builder, tool: Decl, strict: bool): Outcome {
    if tool.kind == "namespace" then
      var ns := TrimSpace(tool.name);
      if ns == "" then Outcome(st, Some(NamespaceNameRequired)) else AddChildren(st, tool.children, ns, strict)
    else if tool.children != [] then Outcome(st, Some(NestedTools))
    else Add(st, tool, "", strict)
  }

  function BuildFrom(st: Builder, decls: seq<Decl>, strict: bool): Outcome
    decreases |decls|
  {
    if decls == [] then Outcome(st, None)
    else
      var first := AddDeclaration(st, decls[0], strict);
      if first.error.Some? then first else BuildFrom(first.st, decls[1..], strict)
  }

  method Build(decls: seq<Decl>, strict: bool) returns (o: Outcome)
    ensures o == BuildFrom(EMPTY_BUILDER, decls, strict)
  {
    var st := EMPTY_BUILDER;
    var i := 0;
    while i < |decls|
      invariant 0 <= i <= |decls|
      invariant BuildFrom(EMPTY_BUILDER, decls, strict) == BuildFrom(st, decls[i..], strict)
    {
      var tool := decls[i];
      if tool.kind == "namespace" {
        var ns := TrimSpace(tool.name);
        if ns == "" {
          return Outcome(st, Some(NamespaceNameRequired));
        }
        var j := 0;
        ghost var before := st;
        while j < |tool.children|
          invariant 0 <= j <= |tool.children|
          invariant AddChildren(before, tool.children, ns, strict) == AddChildren(st, tool.children[j..], ns, strict)
        {
          var child := tool.children[j];
          if child.kind == "namespace" || child.children != [] {
            return Outcome(st, Some(NestedNamespace));
          }
          var added := Add(st, child, ns, strict);
          st := added.st;
          if added.error.Some? {
            return added;
          }
          j := j + 1;
        }
      } else {
        if tool.children != [] {
          return Outcome(st, Some(NestedTools));
        }
        var added := Add(st, tool, "", strict);
        st := added.st;
        if added.error.Some? {
          return added;
        }
      }
      i := i + 1;
    }
    o := Outcome(st, None);
  }

  // ---- what every context built this way satisfies ----

  /** The declared identities whose local name is `name`. */
  ghost function Locals(byIdentity: map<string, Identity>, name: string): set<string> {
    set k | k in byIdentity && byIdentity[k].name == name
  }

  ghost predicate CountsRight(c: ToolContext, name: string) {
    Count(c, name) == |Locals(c.byIdentity, name)|
  }

  /** Index entry `k` names its own identity, which its Chat name leads back to. */
  ghost predicate KeyedRight(c: ToolContext, k: string, id: Identity) {
    k == Key(id.namespace, id.name) && id.chatName == Flatten(id.namespace, id.name)
    && id.chatName in c.byChatName && c.byChatName[id.chatName] == id
  }

  ghost predicate NamedRight(c: ToolContext, n: string, id: Identity) {
    id.chatName == n && n in c.kinds && c.kinds[n] == id.kind
    && Key(id.namespace, id.name) in c.byIdentity && c.byIdentity[Key(id.namespace, id.name)] == id
  }

  ghost predicate Consistent(c: ToolContext) {
    && (forall k :: k in c.byIdentity ==> KeyedRight(c, k, c.byIdentity[k]))
    && (forall n :: n in c.byChatName ==> NamedRight(c, n, c.byChatName[n]))
    && (forall n :: n in c.kinds ==> n in c.byChatName)
    && (forall n :: CountsRight(c, n))
  }

  ghost function Names(out: seq<ChatFunction>): set<string> {
    if out == [] then {} else Names(out[..|out| - 1]) + {out[|out| - 1].name}
  }

  ghost predicate Distinct(out: seq<ChatFunction>) {
    forall i, j :: 0 <= i < j < |out| ==> out[i].name != out[j].name
  }

  /** The emitted functions carry each declared Chat name exactly once. */
  ghost predicate OutputRight(c: ToolContext, out: seq<ChatFunction>) {
    (forall n :: n in Names(out) <==> n in c.byChatName) && Distinct(out)
  }

  ghost predicate SchemasRight(st: Builder) {
    (forall k :: k in st.seenSchema <==> k in st.ctx.byIdentity)
    && (forall k :: k in st.seenSchema ==> st.seenSchema[k].name == st.ctx.byIdentity[k].chatName)
  }

  ghost predicate BuilderInv(st: Builder) {
    Consistent(st.ctx) && SchemasRight(st) && OutputRight(st.ctx, st.out)
  }

  /** Every Chat name of `c` still leads to the same identity in `d`. */
  ghost predicate Grows(c: ToolContext, d: ToolContext) {
    forall n :: n in c.byChatName ==> n in d.byChatName && d.byChatName[n] == c.byChatName[n]
  }

  lemma {:induction false} LocalsAfterInsert(m: map<string, Identity>, key: string, id: Identity, n: string)
    requires key !in m
    ensures |Locals(m[key := id], n)| == |Locals(m, n)| + (if n == id.name then 1 else 0)
  {
    if n == id.name {
      assert Locals(m[key := id], n) == Locals(m, n) + {key};
    } else {
      assert Locals(m[key := id], n) == Locals(m, n);
    }
  }

  /** Two pairs with the same index key and the same Chat name are the same pair. */
  lemma {:induction false} KeyAndFlattenInjective(ns1: string, n1: string, ns2: string, n2: string)
    requires Key(ns1, n1) == Key(ns2, n2) && Flatten(ns1, n1) == Flatten(ns2, n2)
    ensures ns1 == ns2 && n1 == n2
  {
    if |ns1| == |ns2| {
      assert Key(ns1, n1)[..|ns1|] == ns1 && Key(ns2, n2)[..|ns2|] == ns2;
      assert Key(ns1, n1)[|ns1| + 1..] == n1 && Key(ns2, n2)[|ns2| + 1..] == n2;
    } else if |ns1| < |ns2| {
      KeyAndFlattenDiffer(ns1, n1, ns2, n2);
      assert false;
    } else {
      KeyAndFlattenDiffer(ns2, n2, ns1, n1);
      assert false;
    }
  }

  lemma {:induction false} KeyAndFlattenDiffer(ns1: string, n1: string, ns2: string, n2: string)
    requires Key(ns1, n1) == Key(ns2, n2) && |ns1| < |ns2|
    ensures Flatten(ns1, n1) != Flatten(ns2, n2)
  {
    assert |Key(ns1, n1)| == |ns1| + 1 + |n1| && |Key(ns2, n2)| == |ns2| + 1 + |n2|;
    if ns1 == "" {
      assert |Flatten(ns1, n1)| == |n1| && |Flatten(ns2, n2)| == |ns2| + 2 + |n2|;
    } else {
      assert Key(ns1, n1)[|ns1|] == '\0' && Key(ns2, n2)[|ns1|] == ns2[|ns1|];
      assert Flatten(ns1, n1)[|ns1|] == '_' && Flatten(ns2, n2)[|ns1|] == ns2[|ns1|];
    }
  }

  /** A Chat name met for the first time under a new key is new itself: the
      collision check would have refused it otherwise. */
  lemma {:induction false} FreshChatName(c: ToolContext, namespace: string, name: string)
    requires Consistent(c) && Key(namespace, name) !in c.byIdentity
    requires Flatten(namespace, name) in c.byChatName
    ensures c.byChatName[Flatten(namespace, name)].namespace != namespace || c.byChatName[Flatten(namespace, name)].name != name
  {
    var n := Flatten(namespace, name);
    assert NamedRight(c, n, c.byChatName[n]);
  }

  lemma {:induction false} InsertKeepsConsistent(c: ToolContext, id: Identity)
    requires Consistent(c)
    requires Key(id.namespace, id.name) !in c.byIdentity
    requires id.chatName == Flatten(id.namespace, id.name) && id.chatName !in c.byChatName
    ensures Consistent(Insert(c, Key(id.namespace, id.name), id))
  {
    var key := Key(id.namespace, id.name);
    var d := Insert(c, key, id);
    forall n
      ensures CountsRight(d, n)
    {
      assert CountsRight(c, n);
      LocalsAfterInsert(c.byIdentity, key, id, n);
    }
    forall k | k in d.byIdentity
      ensures KeyedRight(d, k, d.byIdentity[k])
    {
      assert k != key ==> KeyedRight(c, k, c.byIdentity[k]);
    }
    forall n | n in d.byChatName
      ensures NamedRight(d, n, d.byChatName[n])
    {
      assert n != id.chatName ==> NamedRight(c, n, c.byChatName[n]);
    }
  }

  lemma {:induction false} NameEmitted(out: seq<ChatFunction>, i: nat)
    requires i < |out|
    ensures out[i].name in Names(out)
  {
    if i < |out| - 1 {
      NameEmitted(out[..|out| - 1], i);
    }
  }

  lemma {:induction false} AppendKeepsOutput(c: ToolContext, d: ToolContext, out: seq<ChatFunction>, fn: ChatFunction)
    requires OutputRight(c, out) && fn.name !in c.byChatName
    requires forall n :: n in d.byChatName <==> n in c.byChatName || n == fn.name
    ensures OutputRight(d, out + [fn])
  {
    assert (out + [fn])[..|out|] == out;
    forall i | 0 <= i < |out|
      ensures out[i].name != fn.name
    {
      NameEmitted(out, i);
    }
  }

  lemma {:induction false} SchemasAfterInsert(st: Builder, id: Identity, fn: ChatFunction)
    requires SchemasRight(st) && fn.name == id.chatName
    ensures var key := Key(id.namespace, id.name);
            SchemasRight(Builder(Insert(st.ctx, key, id), st.seenSchema[key := fn], st.out + [fn]))
  {
  }

  lemma {:induction false} RegisterNew(st: Builder, id: Identity, fn: ChatFunction)
    requires BuilderInv(st) && id.chatName == Flatten(id.namespace, id.name) && fn.name == id.chatName
    requires Key(id.namespace, id.name) !in st.ctx.byIdentity && id.chatName !in st.ctx.byChatName
    ensures BuilderInv(Builder(Insert(st.ctx, Key(id.namespace, id.name), id),
                               st.seenSchema[Key(id.namespace, id.name) := fn], st.out + [fn]))
  {
    hide Consistent, OutputRight, SchemasRight;
    InsertKeepsConsistent(st.ctx, id);
    AppendKeepsOutput(st.ctx, Insert(st.ctx, Key(id.namespace, id.name), id), st.out, fn);
    SchemasAfterInsert(st, id, fn);
  }

  lemma {:induction false} RegisterKeepsInvariant(st: Builder, id: Identity, fn: ChatFunction)
    requires BuilderInv(st) && id.chatName == Flatten(id.namespace, id.name) && fn.name == id.chatName
    ensures var o := Register(st, id, fn);
            BuilderInv(o.st) && Grows(st.ctx, o.st.ctx) && (o.error.None? ==> ResolveChatName(o.st.ctx, id.chatName) == Some(id))
  {
    hide Consistent, OutputRight, SchemasRight;
    var key := Key(id.namespace, id.name);
    var o := Register(st, id, fn);
    if key in st.seenSchema {
      if o.error.None? {
        KnownKey(st, id, fn);
      }
    } else if o.error.None? {
      NewKey(st, id);
      RegisterNew(st, id, fn);
    }
  }

  /** A repeated declaration that passes the duplicate check is the known one. */
  lemma {:induction false} KnownKey(st: Builder, id: Identity, fn: ChatFunction)
    requires BuilderInv(st) && id.chatName == Flatten(id.namespace, id.name) && fn.name == id.chatName
    requires var key := Key(id.namespace, id.name);
             key in st.seenSchema && key in st.ctx.byIdentity && st.ctx.byIdentity[key].kind == id.kind && st.seenSchema[key] == fn
    ensures ResolveChatName(st.ctx, id.chatName) == Some(id)
  {
    var key := Key(id.namespace, id.name);
    var known := st.ctx.byIdentity[key];
    assert KeyedRight(st.ctx, key, known);
    KeyAndFlattenInjective(id.namespace, id.name, known.namespace, known.name);
  }

  /** A key met for the first time that passes the collision check has a Chat
      name met for the first time. */
  lemma {:induction false} NewKey(st: Builder, id: Identity)
    requires BuilderInv(st) && id.chatName == Flatten(id.namespace, id.name)
    requires Key(id.namespace, id.name) !in st.seenSchema
    requires id.chatName in st.ctx.byChatName ==>
               st.ctx.byChatName[id.chatName].namespace == id.namespace && st.ctx.byChatName[id.chatName].name == id.name
    ensures Key(id.namespace, id.name) !in st.ctx.byIdentity && id.chatName !in st.ctx.byChatName
  {
    if id.chatName in st.ctx.byChatName {
      FreshChatName(st.ctx, id.namespace, id.name);
      assert false;
    }
  }

  /** The context maps this declaration's Chat name back to exactly its identity,
      which has a name. */
  ghost predicate Declares(c: ToolContext, namespace: string, tool: Decl) {
    ResolveChatName(c, IdentityOf(tool, namespace).chatName) == Some(IdentityOf(tool, namespace)) && IdentityOf(tool, namespace).name != ""
  }

  lemma {:induction false} AddKeepsInvariant(st: Builder, tool: Decl, namespace: string, strict: bool)
    requires BuilderInv(st)
    ensures var o := Add(st, tool, namespace, strict);
            BuilderInv(o.st) && Grows(st.ctx, o.st.ctx)
            && (o.error.None? && Supported(tool) ==> Declares(o.st.ctx, namespace, tool))
  {
    var id := IdentityOf(tool, namespace);
    if Supported(tool) && Refusal(tool, id.chatName, strict).None? {
      RegisterKeepsInvariant(st, id, Function(tool, id.chatName));
    }
  }

  ghost predicate DeclaresEach(c: ToolContext, namespace: string, tools: seq<Decl>) {
    forall i :: 0 <= i < |tools| && Supported(tools[i]) ==> Declares(c, namespace, tools[i])
  }

  lemma {:induction false} ChildrenKeepInvariant(st: Builder, children: seq<Decl>, namespace: string, strict: bool)
    requires BuilderInv(st)
    ensures var o := AddChildren(st, children, namespace, strict);
            BuilderInv(o.st) && Grows(st.ctx, o.st.ctx) && (o.error.None? ==> DeclaresEach(o.st.ctx, namespace, children))
    decreases |children|
  {
    hide BuilderInv, Add;
    if children != [] && children[0].kind != "namespace" && children[0].children == [] {
      AddKeepsInvariant(st, children[0], namespace, strict);
      var first := Add(st, children[0], namespace, strict);
      if first.error.None? {
        ChildrenKeepInvariant(first.st, children[1..], namespace, strict);
        var o := AddChildren(st, children, namespace, strict);
        if o.error.None? {
          forall i | 0 <= i < |children| && Supported(children[i])
            ensures Declares(o.st.ctx, namespace, children[i])
          {
            assert i > 0 ==> children[i] == children[1..][i - 1];
          }
        }
      }
    }
  }

  /** All supported tools of one top-level declaration resolve. */
  ghost predicate DeclaresAll(c: ToolContext, tool: Decl) {
    if tool.kind == "namespace" then DeclaresEach(c, TrimSpace(tool.name), tool.children)
    else Supported(tool) ==> Declares(c, "", tool)
  }

  lemma {:induction false} DeclarationKeepsInvariant(st: Builder, tool: Decl, strict: bool)
    requires BuilderInv(st)
    ensures var o := AddDeclaration(st, tool, strict);
            BuilderInv(o.st) && Grows(st.ctx, o.st.ctx) && (o.error.None? ==> DeclaresAll(o.st.ctx, tool))
  {
    if tool.kind == "namespace" {
      ChildrenKeepInvariant(st, tool.children, TrimSpace(tool.name), strict);
    } else {
      AddKeepsInvariant(st, tool, "", strict);
    }
  }

  lemma {:induction false} DeclaresStays(c: ToolContext, d: ToolContext, tool: Decl)
    requires Grows(c, d) && DeclaresAll(c, tool)
    ensures DeclaresAll(d, tool)
  {
    if tool.kind == "namespace" {
      forall i | 0 <= i < |tool.children| && Supported(tool.children[i])
        ensures Declares(d, TrimSpace(tool.name), tool.children[i])
      {
        assert Declares(c, TrimSpace(tool.name), tool.children[i]);
      }
    }
  }

  lemma {:induction false} BuildKeepsInvariant(st: Builder, decls: seq<Decl>, strict: bool)
    requires BuilderInv(st)
    ensures var o := BuildFrom(st, decls, strict);
            BuilderInv(o.st) && Grows(st.ctx, o.st.ctx)
            && (o.error.None? ==> forall i :: 0 <= i < |decls| ==> DeclaresAll(o.st.ctx, decls[i]))
    decreases |decls|
  {
    hide BuilderInv, AddDeclaration, DeclaresAll;
    if decls == [] {
    } else {
      DeclarationKeepsInvariant(st, decls[0], strict);
      var first := AddDeclaration(st, decls[0], strict);
      if first.error.None? {
        BuildKeepsInvariant(first.st, decls[1..], strict);
        var o := BuildFrom(st, decls, strict);
        if o.error.None? {
          forall i | 0 <= i < |decls|
            ensures DeclaresAll(o.st.ctx, decls[i])
          {
            if i == 0 {
              DeclaresStays(first.st.ctx, o.st.ctx, decls[0]);
            } else {
              assert decls[i] == decls[1..][i - 1];
            }
          }
        }
      }
    }
  }

  /** Flattening is reversible: after an accepted build the emitted Chat names
      are pairwise distinct and each resolves to the pair it was built from. */
  lemma {:induction false} FlatteningIsReversible(decls: seq<Decl>, strict: bool)
    ensures var o := BuildFrom(EMPTY_BUILDER, decls, strict);
            && Consistent(o.st.ctx)
            && Distinct(o.st.out) && Names(o.st.out) == o.st.ctx.byChatName.Keys
            && (o.error.None? ==> forall i :: 0 <= i < |decls| ==> DeclaresAll(o.st.ctx, decls[i]))
  {
    forall n
      ensures CountsRight(EMPTY_CONTEXT, n)
    {
      assert Locals(EMPTY_CONTEXT.byIdentity, n) == {};
    }
    BuildKeepsInvariant(EMPTY_BUILDER, decls, strict);
  }

  // ---- resolvers ----

  function ResolveChatName(c: ToolContext, name: string): Option<Identity> {
    if name in c.byChatName then Some(c.byChatName[name]) else None
  }

  /** A namespaced declaration whose key is spelled like the bare key of `name`. */
  predicate Shadowed(c: ToolContext, name: string) {
    Key("", name) in c.byIdentity && c.byIdentity[Key("", name)].namespace != ""
  }

  predicate IsNamed(id: Identity, namespace: string, name: string) { id.namespace == namespace && id.name == name }

  /** A NUL inside a name is all that can shift the separator of a key. */
  lemma {:induction false} KeySplits(ns: string, n: string, ns2: string, n2: string)
    requires Key(ns, n) == Key(ns2, n2)
    ensures |ns2| == |ns| || '\0' in ns || '\0' in n
    ensures |ns2| == |ns| ==> ns2 == ns && n2 == n
  {
    var k := Key(ns, n);
    assert k[..|ns|] == ns && k[|ns| + 1..] == n && Key(ns2, n2)[..|ns2|] == ns2 && Key(ns2, n2)[|ns2| + 1..] == n2;
    if |ns2| < |ns| {
      assert ns[|ns2|] == k[|ns2|] == '\0';
    } else if |ns2| > |ns| {
      assert n[|ns2| - |ns| - 1] == k[|ns2|] == '\0';
    }
  }

  /** Such a shift: two different pairs, one key. */
  lemma {:induction false} NulShiftsSeparator()
    ensures Key("a", "\0b") == Key("a\0", "b")
  {
    assert Key("a", "\0b") == "a\0\0b";
  }

  /** ResolveCall; the final loop visits the map in an arbitrary order. */
  method ResolveCall(c: ToolContext, namespace: string, name: string) returns (r: Option<Identity>)
    requires Consistent(c)
    ensures namespace != "" ==>
              r == if Key(namespace, name) in c.byIdentity then Some(c.byIdentity[Key(namespace, name)]) else None
    ensures namespace != "" && r.Some? ==>
              (|r.value.namespace| == |namespace| || '\0' in namespace || '\0' in name)
              && (|r.value.namespace| == |namespace| ==> r.value.namespace == namespace && r.value.name == name)
    ensures r.None? ==> forall k :: k in c.byIdentity ==> !(namespace != "" && IsNamed(c.byIdentity[k], namespace, name))
    ensures namespace == "" ==> (r.Some? <==> Count(c, name) == 1 || (Count(c, name) == 0 && Shadowed(c, name)))
    ensures namespace == "" && r.Some? && !Shadowed(c, name) ==>
              r.value.name == name && Locals(c.byIdentity, name) == {Key(r.value.namespace, r.value.name)}
    ensures namespace == "" && r.Some? && Shadowed(c, name) ==> r.value.name != name
  {
    ghost var locals := Locals(c.byIdentity, name);
    assert CountsRight(c, name);
    if namespace == "" && Key("", name) in c.byIdentity {
      BareKey(c, name);
    }
    if namespace == "" && Count(c, name) > 1 {
      return None;
    }
    if Key(namespace, name) in c.byIdentity {
      assert KeyedRight(c, Key(namespace, name), c.byIdentity[Key(namespace, name)]);
      KeySplits(namespace, name, c.byIdentity[Key(namespace, name)].namespace, c.byIdentity[Key(namespace, name)].name);
      return Some(c.byIdentity[Key(namespace, name)]);
    }
    if namespace == "" && Count(c, name) == 1 {
      var keys := c.byIdentity.Keys;
      ghost var k0 :| k0 in locals;
      assert locals == {k0} by {
        assert |locals - {k0}| == 0;
      }
      while keys != {}
        invariant keys <= c.byIdentity.Keys && k0 in keys
        decreases |keys|
      {
        var k :| k in keys;
        if c.byIdentity[k].name == name {
          assert k in locals;
          return Some(c.byIdentity[k]);
        }
        keys := keys - {k};
      }
    }
    return None;
  }

  /** A bare key in the index is either the flat declaration itself, and then the
      only local one when the count is one, or a shadowing namespaced key. */
  lemma {:induction false} BareKey(c: ToolContext, name: string)
    requires Consistent(c) && Key("", name) in c.byIdentity
    ensures var id := c.byIdentity[Key("", name)];
            if Shadowed(c, name) then id.name != name
            else id.name == name && Key("", name) in Locals(c.byIdentity, name)
                 && (Count(c, name) == 1 ==> Locals(c.byIdentity, name) == {Key(id.namespace, id.name)})
                 && Count(c, name) != 0
  {
    var k := Key("", name);
    var id := c.byIdentity[k];
    assert KeyedRight(c, k, id) && CountsRight(c, name);
    if Shadowed(c, name) {
      assert |k| == 1 + |name| && |Key(id.namespace, id.name)| == |id.namespace| + 1 + |id.name|;
    } else {
      assert k[1..] == name && Key(id.namespace, id.name)[1..] == id.name;
      assert k in Locals(c.byIdentity, name);
      if Count(c, name) == 1 {
        assert |Locals(c.byIdentity, name) - {k}| == 0;
        assert Locals(c.byIdentity, name) == {k};
      }
    }
  }

  /** Shadowing needs a declared namespace that begins with a NUL character. */
  lemma {:induction false} ShadowNeedsNul(c: ToolContext, name: string)
    requires Consistent(c) && Shadowed(c, name)
    ensures c.byIdentity[Key("", name)].namespace[0] == '\0'
  {
    var id := c.byIdentity[Key("", name)];
    assert KeyedRight(c, Key("", name), id);
    assert Key("", name)[0] == Key(id.namespace, id.name)[0];
  }

  function Nested(ns: string, n: string): Decl {
    Decl("namespace", ns, "", "", false, NoFormat, [Decl("function", n, "", "", false, NoFormat, [])])
  }

  lemma {:induction false} FunctionTrims()
    ensures TrimSpace("function") == "function"
  {
    TrimmedStays("function");
  }

  /** One namespace with one function registers exactly that pair. */
  lemma {:induction false} NestedBuild(ns: string, n: string)
    requires TrimSpace(ns) == ns != "" && TrimSpace(n) == n != "" && |ns| + 2 + |n| <= 64
    ensures BuildFrom(EMPTY_BUILDER, [Nested(ns, n)], true).st.ctx
            == Insert(EMPTY_CONTEXT, Key(ns, n), Identity("function", n, ns, Flatten(ns, n)))
  {
    FunctionTrims();
    hide TrimSpace;
    var child := Decl("function", n, "", "", false, NoFormat, []);
    var o := Add(EMPTY_BUILDER, child, ns, true);
    assert o.error.None?;
    assert AddChildren(o.st, [child][1..], ns, true) == o;
    assert AddDeclaration(EMPTY_BUILDER, Nested(ns, n), true) == o;
    assert BuildFrom(o.st, [Nested(ns, n)][1..], true) == o;
  }

  lemma {:induction false} SampleTrims()
    ensures TrimSpace("\0y") == "\0y" && TrimSpace("n") == "n"
  {
    var y, n := "\0y", "n";
    assert |y| == 2 && y[0] == '\0' && y[1] == 'y' && |n| == 1 && n[0] == 'n';
    TrimmedStays(y);
    TrimmedStays(n);
  }

  /** A lone namespaced pair whose key reads as a bare key shadows that bare name. */
  lemma {:induction false} ShadowsBare(ns: string, n: string, bare: string)
    requires ns != "" && n != bare && Key(ns, n) == Key("", bare)
    ensures var c := Insert(EMPTY_CONTEXT, Key(ns, n), Identity("function", n, ns, Flatten(ns, n)));
            Shadowed(c, bare) && Count(c, bare) == 0
  {
  }

  /** The concrete stray: one namespace spelled NUL-y declaring n makes the bare
      name y-NUL-n resolvable although nothing declares that local name. */
  lemma {:induction false} NulNamespaceResolvesUndeclaredName()
    ensures var c := BuildFrom(EMPTY_BUILDER, [Nested("\0y", "n")], true).st.ctx;
            Shadowed(c, "y\0n") && Count(c, "y\0n") == 0
  {
    hide TrimSpace, BuildFrom, Insert, Shadowed, Count;
    SampleTrims();
    NestedBuild("\0y", "n");
    assert Key("\0y", "n") == Key("", "y\0n");
    ShadowsBare("\0y", "n", "y\0n");
  }

  // ---- streamed names ----

  datatype NameClass = Exact(kind: string) | Wait | Unknown

  function ClassifyStreamedName(c: ToolContext, name: string): (r: NameClass)
    ensures r.Wait? ==> exists longer :: longer in c.kinds && name < longer
  {
    if name in c.kinds then Exact(c.kinds[name])
    else if exists candidate :: candidate in c.kinds && name <= candidate && candidate != name then Wait
    else Unknown
  }
}
