/** Grouping blocks into messages of alternating roles
    (internal/adapter/messages/request.go, msgBuilder). */
module MessageGrouping {
  import opened Common

  /** A content block: plain text, or any other kind with its body. */
  datatype Block = Text(text: string) | Other(kind: string, body: string)

  /** A lone text block is sent as a bare string. */
  datatype Content = Bare(text: string) | Blocks(blocks: seq<Block>)

  datatype Message = Message(role: string, content: Content)

  /** One call of add. */
  datatype Call = Call(key: string, role: string, block: Block)

  datatype Pending = Pending(role: string, blocks: seq<Block>)

  datatype Builder = Builder(cur: Option<Pending>, curKey: string, msgs: seq<Message>)

  const START := Builder(None, "", [])
  const USER := "user"
  const ASSISTANT := "assistant"
  const USER_TOOL := "user:tool"

  function Packed(blocks: seq<Block>): Content {
    if |blocks| == 1 && blocks[0].Text? then Bare(blocks[0].text) else Blocks(blocks)
  }

  function Flush(b: Builder): Builder {
    if b.cur.None? then b else Builder(None, "", b.msgs + [Message(b.cur.value.role, Packed(b.cur.value.blocks))])
  }

  predicate Opens(b: Builder, call: Call) {
    b.cur.None? || (b.curKey != call.key && !(call.role == USER && b.cur.value.role == USER))
  }

  function Add(b: Builder, call: Call): Builder {
    if Opens(b, call) then Flush(b).(cur := Some(Pending(call.role, [call.block])), curKey := call.key)
    else b.(cur := Some(b.cur.value.(blocks := b.cur.value.blocks + [call.block])))
  }

  function AddAll(calls: seq<Call>): Builder {
    if calls == [] then START else Add(AddAll(calls[..|calls| - 1]), calls[|calls| - 1])
  }

  function Grouped(calls: seq<Call>): seq<Message> { Flush(AddAll(calls)).msgs }

  // ---- what the messages mean ----

  function Unpacked(content: Content): seq<Block> { if content.Bare? then [Text(content.text)] else content.blocks }

  function Tagged(role: string, blocks: seq<Block>): seq<(string, Block)> {
    seq(|blocks|, i requires 0 <= i < |blocks| => (role, blocks[i]))
  }

  /** The (role, block) sequence the messages carry. */
  function Flatten(msgs: seq<Message>): seq<(string, Block)> {
    if msgs == [] then []
    else Flatten(msgs[..|msgs| - 1]) + Tagged(msgs[|msgs| - 1].role, Unpacked(msgs[|msgs| - 1].content))
  }

  function Given(calls: seq<Call>): seq<(string, Block)> {
    seq(|calls|, i requires 0 <= i < |calls| => (calls[i].role, calls[i].block))
  }

  predicate Alternates(msgs: seq<Message>) { forall i :: 0 <= i < |msgs| - 1 ==> msgs[i].role != msgs[i + 1].role }

  predicate NoneEmpty(msgs: seq<Message>) { forall i :: 0 <= i < |msgs| ==> Unpacked(msgs[i].content) != [] }

  /** A lone text block is always bare. */
  predicate Normal(msgs: seq<Message>) { forall i :: 0 <= i < |msgs| ==> msgs[i].content == Packed(Unpacked(msgs[i].content)) }

  predicate WellFormed(msgs: seq<Message>) { Alternates(msgs) && NoneEmpty(msgs) && Normal(msgs) }

  // ---- which calls keep the discipline ----

  /** The keys fix the role, and only the user role has more than one key. */
  ghost predicate Disciplined(pairs: set<(string, string)>) {
    forall p, q :: p in pairs && q in pairs ==> (p.0 == q.0 ==> p.1 == q.1) && (p.1 == q.1 && p.1 != USER ==> p.0 == q.0)
  }

  ghost predicate Drawn(calls: seq<Call>, pairs: set<(string, string)>) {
    forall i :: 0 <= i < |calls| ==> (calls[i].key, calls[i].role) in pairs
  }

  /** The calls the Chat Completions and Responses translators make. */
  const TRANSLATORS: set<(string, string)> := {(ASSISTANT, ASSISTANT), (USER_TOOL, USER), (USER, USER)}

  lemma {:induction false} TranslatorsAreDisciplined()
    ensures Disciplined(TRANSLATORS)
  {
    assert USER[0] == 'u' && ASSISTANT[0] == 'a' && USER_TOOL[0] == 'u' && |USER_TOOL| != |USER|;
  }

  /** The pending message as the messages would end if flushed now. */
  function Closed(b: Builder): seq<Message> { Flush(b).msgs }

  ghost predicate Ok(b: Builder, calls: seq<Call>, pairs: set<(string, string)>) {
    && WellFormed(Closed(b)) && Flatten(Closed(b)) == Given(calls)
    && (b.cur.Some? ==> b.cur.value.blocks != []
                        && ((b.curKey, b.cur.value.role) in pairs))
    && (b.cur.None? ==> b.msgs == [])
  }

  lemma {:induction false} PackUnpack(blocks: seq<Block>)
    ensures Unpacked(Packed(blocks)) == blocks
  {
  }

  lemma {:induction false} FlattenAppend(msgs: seq<Message>, m: Message)
    ensures Flatten(msgs + [m]) == Flatten(msgs) + Tagged(m.role, Unpacked(m.content))
  {
    assert (msgs + [m])[..|msgs|] == msgs;
  }

  lemma {:induction false} TaggedAppend(role: string, blocks: seq<Block>, block: Block)
    ensures Tagged(role, blocks + [block]) == Tagged(role, blocks) + [(role, block)]
  {
  }

  lemma {:induction false} AddKeeps(b: Builder, calls: seq<Call>, call: Call, pairs: set<(string, string)>)
    requires Ok(b, calls, pairs) && Disciplined(pairs) && (call.key, call.role) in pairs
    ensures Ok(Add(b, call), calls + [call], pairs)
  {
    hide Tagged, Flatten, Packed, Unpacked;
    assert Given(calls + [call]) == Given(calls) + [(call.role, call.block)];
    var t := Add(b, call);
    var role, blocks := t.cur.value.role, t.cur.value.blocks;
    PackUnpack(blocks);
    FlattenAppend(t.msgs, Message(role, Packed(blocks)));
    if Opens(b, call) {
      TaggedAppend(role, [], call.block);
      assert [] + [call.block] == [call.block];
      assert Tagged(role, []) == [] by {
        TaggedNothing(role);
      }
    } else {
      var before := b.cur.value.blocks;
      PackUnpack(before);
      TaggedAppend(role, before, call.block);
      FlattenAppend(b.msgs, Message(role, Packed(before)));
      assert call.role == role;
      assert Closed(b)[..|b.msgs|] == b.msgs;
      assert forall i :: 0 <= i < |b.msgs| ==> Closed(t)[i] == Closed(b)[i];
      assert Closed(t)[|b.msgs|].role == Closed(b)[|b.msgs|].role;
    }
  }

  lemma {:induction false} TaggedNothing(role: string)
    ensures Tagged(role, []) == []
  {
  }

  /** For every disciplined call sequence the messages alternate roles, none is empty,
      and they carry exactly the added (role, block) sequence. */
  lemma {:induction false} GroupingIsFaithful(calls: seq<Call>, pairs: set<(string, string)>)
    requires Disciplined(pairs) && Drawn(calls, pairs)
    ensures WellFormed(Grouped(calls)) && Flatten(Grouped(calls)) == Given(calls)
    ensures Ok(AddAll(calls), calls, pairs)
  {
    hide Add, WellFormed, Flatten, Disciplined;
    if calls == [] {
      assert WellFormed([]) && Flatten([]) == Given([]) by {
        NothingGrouped();
      }
    } else {
      var rest, call := calls[..|calls| - 1], calls[|calls| - 1];
      assert (call.key, call.role) in pairs;
      GroupingIsFaithful(rest, pairs);
      AddKeeps(AddAll(rest), rest, call, pairs);
      assert rest + [call] == calls;
    }
  }

  lemma {:induction false} NothingGrouped()
    ensures WellFormed([]) && Flatten([]) == Given([])
  {
  }

  // ---- the grouping is the only one ----

  lemma {:induction false} FlattenFront(m: Message, msgs: seq<Message>)
    ensures Flatten([m] + msgs) == Tagged(m.role, Unpacked(m.content)) + Flatten(msgs)
    decreases |msgs|
  {
    hide Tagged, Unpacked;
    if msgs == [] {
      assert [m] + msgs == [m];
      assert [m][..0] == [];
    } else {
      FlattenFront(m, msgs[..|msgs| - 1]);
      assert ([m] + msgs)[..|msgs|] == [m] + msgs[..|msgs| - 1];
    }
  }

  /** The first message takes the whole first run of its role. */
  lemma {:induction false} NotShorter(a: seq<Message>, b: seq<Message>)
    requires a != [] && b != [] && WellFormed(a) && WellFormed(b) && Flatten(a) == Flatten(b)
    ensures a[0].role == b[0].role && |Unpacked(a[0].content)| >= |Unpacked(b[0].content)|
  {
    hide Packed, Unpacked, Flatten;
    assert [a[0]] + a[1..] == a && [b[0]] + b[1..] == b;
    FlattenFront(a[0], a[1..]);
    FlattenFront(b[0], b[1..]);
    var x, y := Unpacked(a[0].content), Unpacked(b[0].content);
    assert Flatten(a)[0] == (a[0].role, x[0]) && Flatten(b)[0] == (b[0].role, y[0]);
    if |a| > 1 {
      assert [a[1]] + a[2..] == a[1..];
      FlattenFront(a[1], a[2..]);
      assert Flatten(a)[|x|].0 == a[1].role != a[0].role;
    } else {
      assert a[1..] == [];
      NothingGrouped();
      assert |Flatten(a)| == |x|;
    }
    assert forall i :: 0 <= i < |y| ==> Flatten(b)[i].0 == b[0].role;
  }

  lemma {:induction false} GroupingIsUnique(a: seq<Message>, b: seq<Message>)
    requires WellFormed(a) && WellFormed(b) && Flatten(a) == Flatten(b)
    ensures a == b
    decreases |a|
  {
    hide Packed, Unpacked, Flatten;
    if a == [] || b == [] {
      SomethingFlattens(a);
      SomethingFlattens(b);
    } else {
      NotShorter(a, b);
      NotShorter(b, a);
      assert [a[0]] + a[1..] == a && [b[0]] + b[1..] == b;
      FlattenFront(a[0], a[1..]);
      FlattenFront(b[0], b[1..]);
      var x, y := Unpacked(a[0].content), Unpacked(b[0].content);
      forall i | 0 <= i < |x|
        ensures x[i] == y[i]
      {
        assert Flatten(a)[i] == (a[0].role, x[i]) && Flatten(b)[i] == (b[0].role, y[i]);
      }
      assert x == y;
      assert Flatten(a)[|x|..] == Flatten(a[1..]) && Flatten(b)[|x|..] == Flatten(b[1..]);
      GroupingIsUnique(a[1..], b[1..]);
    }
  }

  lemma {:induction false} SomethingFlattens(a: seq<Message>)
    requires NoneEmpty(a)
    ensures Flatten(a) == [] <==> a == []
  {
  }

  /** The builder's output is the only well-formed message list that carries the
      added blocks. */
  lemma {:induction false} GroupingIsCanonical(calls: seq<Call>, pairs: set<(string, string)>, msgs: seq<Message>)
    requires Disciplined(pairs) && Drawn(calls, pairs)
    requires WellFormed(msgs) && Flatten(msgs) == Given(calls)
    ensures msgs == Grouped(calls)
  {
    hide *;
    GroupingIsFaithful(calls, pairs);
    GroupingIsUnique(msgs, Grouped(calls));
  }

  // ---- the discipline is needed ----

  ghost predicate AlwaysFaithful(pairs: set<(string, string)>) {
    forall calls :: Drawn(calls, pairs) ==> WellFormed(Grouped(calls)) && Flatten(Grouped(calls)) == Given(calls)
  }

  lemma {:induction false} TwoCalls(p: (string, string), q: (string, string))
    ensures var calls := [Call(p.0, p.1, Text("")), Call(q.0, q.1, Text(""))];
            && (p.0 == q.0 && p.1 != q.1 ==> Flatten(Grouped(calls)) != Given(calls))
            && (p.0 != q.0 && p.1 == q.1 && p.1 != USER ==> !Alternates(Grouped(calls)))
  {
    var t := Text("");
    var first, second := Call(p.0, p.1, t), Call(q.0, q.1, t);
    var calls := [first, second];
    assert calls[..1] == [first] && [first][..0] == [];
    var one := Builder(Some(Pending(p.1, [t])), p.0, []);
    assert AddAll([first]) == one;
    assert AddAll(calls) == Add(one, second);
    assert [t] + [t] == [t, t];
    var msgs := Grouped(calls);
    if p.0 == q.0 && p.1 != q.1 {
      assert msgs == [Message(p.1, Blocks([t, t]))];
      FlattenAppend([], Message(p.1, Blocks([t, t])));
      assert [] + msgs == msgs;
      assert Flatten(msgs)[1] == (p.1, t);
      assert Given(calls)[1] == (q.1, t);
    }
    if p.0 != q.0 && p.1 == q.1 && p.1 != USER {
      assert msgs == [Message(p.1, Bare("")), Message(q.1, Bare(""))];
      assert msgs[0].role == msgs[0 + 1].role;
    }
  }

  /** The builder is faithful on every sequence of calls drawn from some key and role
      pairs exactly when those pairs are disciplined. */
  lemma {:induction false} FaithfulIffDisciplined(pairs: set<(string, string)>)
    ensures AlwaysFaithful(pairs) <==> Disciplined(pairs)
  {
    hide Grouped, WellFormed, Flatten, Given;
    if Disciplined(pairs) {
      forall calls | Drawn(calls, pairs)
        ensures WellFormed(Grouped(calls)) && Flatten(Grouped(calls)) == Given(calls)
      {
        GroupingIsFaithful(calls, pairs);
      }
    }
    if AlwaysFaithful(pairs) {
      forall p, q | p in pairs && q in pairs
        ensures (p.0 == q.0 ==> p.1 == q.1) && (p.1 == q.1 && p.1 != USER ==> p.0 == q.0)
      {
        TwoCalls(p, q);
        var calls := [Call(p.0, p.1, Text("")), Call(q.0, q.1, Text(""))];
        assert Drawn(calls, pairs);
        WellFormedAlternates(Grouped(calls));
      }
    }
  }

  lemma {:induction false} WellFormedAlternates(msgs: seq<Message>)
    ensures WellFormed(msgs) ==> Alternates(msgs)
  {
  }
}
/** The builder object. */
module MessageBuilder {
  import opened Common
  import Spec = MessageGrouping

  class MsgBuilder {
    var curKey: string
    var cur: Option<Spec.Pending>
    var msgs: seq<Spec.Message>

    ghost function State(): Spec.Builder
      reads this
    {
      Spec.Builder(cur, curKey, msgs)
    }

    constructor ()
      ensures State() == Spec.START
    {
      curKey, cur, msgs := "", None, [];
    }

    method Flush()
      modifies this
      ensures State() == Spec.Flush(old(State()))
    {
      if cur.None? {
        return;
      }
      var blocks := cur.value.blocks;
      var content := Spec.Blocks(blocks);
      if |blocks| == 1 && blocks[0].Text? {
        content := Spec.Bare(blocks[0].text);
      }
      msgs := msgs + [Spec.Message(cur.value.role, content)];
      cur := None;
      curKey := "";
    }

    method Add(key: string, role: string, block: Spec.Block)
      modifies this
      ensures State() == Spec.Add(old(State()), Spec.Call(key, role, block))
    {
      if cur.None? || (curKey != key && !(role == Spec.USER && cur.value.role == Spec.USER)) {
        Flush();
        cur := Some(Spec.Pending(role, []));
        curKey := key;
      }
      cur := Some(cur.value.(blocks := cur.value.blocks + [block]));
      assert [] + [block] == [block];
    }
  }

  /** A translator's run: every add, then the closing flush. */
  method Assemble(calls: seq<Spec.Call>) returns (msgs: seq<Spec.Message>)
    requires Spec.Drawn(calls, Spec.TRANSLATORS)
    ensures Spec.WellFormed(msgs) && Spec.Flatten(msgs) == Spec.Given(calls)
  {
    var b := new MsgBuilder();
    for i := 0 to |calls|
      invariant b.State() == Spec.AddAll(calls[..i])
    {
      assert calls[..i + 1][..i] == calls[..i];
      b.Add(calls[i].key, calls[i].role, calls[i].block);
    }
    assert calls[..|calls|] == calls;
    b.Flush();
    msgs := b.msgs;
    Spec.TranslatorsAreDisciplined();
    Spec.GroupingIsFaithful(calls, Spec.TRANSLATORS);
  }
}
