/** The Responses -> Claude leg in upstream terms. `Focus` follows, from the
    events alone, which call each identifier names and where the upstream last
    began to write; the theorems tie the client's blocks and stray count to it. */
module ResponsesFocus {
  import opened Common
  import opened ClaudeProtocol
  import opened ResponsesToClaude
  import ChatToClaudeSafety

  /** What the upstream began last: a text run, or its n-th call. */
  datatype Cursor = Nowhere | InText | InCall(call: nat)

  /** How a call was announced. */
  datatype Head = Head(id: string, name: string)

  /** Identifiers are bound to call ordinals 0, 1, 2, …; `told` are the calls whose
      arguments have arrived. */
  datatype Focus = Focus(known: map<string, nat>, heads: seq<Head>, told: set<nat>, cursor: Cursor, strays: nat)

  const AWAY := Focus(map[], [], {}, Nowhere, 0)

  /** The call an event is about, as the two identifiers name it. */
  function Named(f: Focus, key: string, alias: string): (bool, nat, map<string, nat>) {
    Resolve(f.known, key, alias, |f.heads|)
  }

  /** The call an event begins, if any. */
  function Begins(f: Focus, e: Upstream): Option<Head> {
    match e
    case Item(isCall, callId, itemId, name, _) => if isCall && Named(f, callId, itemId).0 then Some(Head(callId, name)) else None
    case ArgsDelta(itemId, _) => if Named(f, itemId, "").0 then Some(Head(itemId, "")) else None
    case _ => None
  }

  /** The arguments an event brings and the call they belong to. Complete arguments
      count only while nothing has arrived for the call. */
  function Fragment(f: Focus, e: Upstream): Option<(nat, string)> {
    match e
    case Item(isCall, callId, itemId, _, args) =>
      var k := Named(f, callId, itemId).1;
      if isCall && args != "" && k !in f.told then Some((k, args)) else None
    case ArgsDelta(itemId, delta) => Some((Named(f, itemId, "").1, delta))
    case _ => None
  }

  function Knows(f: Focus, e: Upstream): map<string, nat> {
    match e
    case Item(isCall, callId, itemId, _, _) => if isCall then Named(f, callId, itemId).2 else f.known
    case ArgsDelta(itemId, _) => Named(f, itemId, "").2
    case _ => f.known
  }

  /** A fragment of a call the upstream has left for another one or for text. */
  predicate Returns(f: Focus, e: Upstream) {
    Fragment(f, e).Some? && Begins(f, e).None? && f.cursor != InCall(Fragment(f, e).value.0)
  }

  function Look(f: Focus, e: Upstream): Focus {
    var begun, said := Begins(f, e), Fragment(f, e);
    Focus(Knows(f, e), if begun.Some? then f.heads + [begun.value] else f.heads,
          if said.Some? then f.told + {said.value.0} else f.told,
          if e.TextDelta? then InText else if begun.Some? then InCall(|f.heads|) else f.cursor,
          f.strays + Bump(Returns(f, e)))
  }

  function FocusOn(events: seq<Upstream>): Focus {
    if events == [] then AWAY else Look(FocusOn(events[..|events| - 1]), events[|events| - 1])
  }

  /** All fragments of one call, joined. */
  function ArgsOf(events: seq<Upstream>, k: nat): string {
    if events == [] then ""
    else ArgsOf(events[..|events| - 1], k) + Piece(Fragment(FocusOn(events[..|events| - 1]), events[|events| - 1]), k)
  }

  function Spoken(e: Upstream): string { if e.TextDelta? then e.delta else "" }

  function TextOf(events: seq<Upstream>): string {
    if events == [] then "" else TextOf(events[..|events| - 1]) + Spoken(events[|events| - 1])
  }

  // ---- calls among the blocks ----

  /** How many calls come before block `i`. */
  function Rank(blocks: seq<Block>, i: nat): nat
    requires i <= |blocks|
  {
    if i == 0 then 0 else Rank(blocks, i - 1) + Bump(blocks[i - 1].kind.ToolUse?)
  }

  lemma {:induction false} RankKept(b: seq<Block>, b2: seq<Block>, i: nat)
    requires i <= |b| <= |b2| && forall j :: 0 <= j < |b| ==> b2[j].kind == b[j].kind
    ensures Rank(b2, i) == Rank(b, i)
  {
    if i == 0 {
    } else {
      RankKept(b, b2, i - 1);
    }
  }

  /** Calls keep their order, so distinct call blocks have distinct ranks. */
  lemma {:induction false} RankRises(b: seq<Block>, i: nat, j: nat)
    requires i <= j <= |b|
    ensures Rank(b, i) <= Rank(b, j)
    ensures i < j && b[i].kind.ToolUse? ==> Rank(b, i) < Rank(b, j)
    decreases j
  {
    if i == j {
    } else {
      RankRises(b, i, j - 1);
    }
  }

  /** Where the client's newest block puts the upstream. */
  function CursorOf(b: seq<Block>): Cursor {
    if b == [] then Nowhere else if b[|b| - 1].kind.ToolUse? then InCall(Rank(b, |b| - 1)) else InText
  }

  // ---- converter and focus agree ----

  ghost predicate SameNames(calls: map<string, nat>, b: seq<Block>, known: map<string, nat>) {
    && calls.Keys == known.Keys
    && forall k :: k in calls ==> calls[k] <= |b| && known[k] == Rank(b, calls[k])
  }

  ghost predicate SameTold(delivered: set<nat>, b: seq<Block>, told: set<nat>) {
    && (forall i :: i in delivered ==> i < |b|)
    && (forall k :: k in told ==> k < Rank(b, |b|))
    && (forall i :: 0 <= i < |b| && b[i].kind.ToolUse? ==> (i in delivered <==> Rank(b, i) in told))
  }

  ghost predicate SameHeads(b: seq<Block>, heads: seq<Head>) {
    && |heads| == Rank(b, |b|)
    && forall i :: 0 <= i < |b| && b[i].kind.ToolUse? ==>
         Rank(b, i) < |heads| && b[i].kind == ToolUse(heads[Rank(b, i)].id, heads[Rank(b, i)].name)
  }

  ghost predicate Agrees(sc: Conv, b: seq<Block>, f: Focus) {
    && SameNames(sc.tracker.calls, b, f.known) && SameTold(sc.tracker.delivered, b, f.told) && SameHeads(b, f.heads)
    && f.cursor == CursorOf(b)
  }

  /** Both tables resolve a pair of identifiers to the same call. */
  lemma {:induction false} SameResolve(calls: map<string, nat>, b: seq<Block>, known: map<string, nat>, key: string, alias: string)
    requires SameNames(calls, b, known)
    ensures var r, q := Resolve(calls, key, alias, |b|), Resolve(known, key, alias, Rank(b, |b|));
            r.0 == q.0 && r.1 <= |b| && q.1 == Rank(b, r.1) && SameNames(r.2, b, q.2)
  {
    hide Rank;
  }

  lemma {:induction false} NamesGrow(calls: map<string, nat>, b: seq<Block>, b2: seq<Block>, known: map<string, nat>)
    requires SameNames(calls, b, known) && |b| <= |b2| && forall j :: 0 <= j < |b| ==> b2[j].kind == b[j].kind
    ensures SameNames(calls, b2, known)
  {
    forall k | k in calls
      ensures known[k] == Rank(b2, calls[k])
    {
      RankKept(b, b2, calls[k]);
    }
  }

  /** The client's blocks after an event: kinds stay, at most one is added. */
  ghost predicate Added(b: seq<Block>, b2: seq<Block>, kind: Option<Kind>) {
    && |b2| == |b| + Bump(kind.Some?) && (forall j :: 0 <= j < |b| ==> b2[j].kind == b[j].kind)
    && (kind.Some? ==> b2[|b|].kind == kind.value)
  }

  /** What an event begins, as a block kind. */
  function KindOf(head: Option<Head>): Option<Kind> {
    if head.Some? then Some(ToolUse(head.value.id, head.value.name)) else None
  }

  lemma {:induction false} HeadsGrow(b: seq<Block>, b2: seq<Block>, heads: seq<Head>, kind: Option<Kind>, begun: Option<Head>)
    requires SameHeads(b, heads) && Added(b, b2, kind)
    requires if begun.Some? then kind == KindOf(begun) else kind.None? || kind.value.Text?
    ensures SameHeads(b2, if begun.Some? then heads + [begun.value] else heads)
  {
    RankKept(b, b2, |b|);
    forall i | 0 <= i < |b2| && b2[i].kind.ToolUse?
      ensures Rank(b2, i) < Rank(b2, |b2|) && (i < |b| ==> Rank(b2, i) == Rank(b, i) < |heads|)
    {
      RankRises(b2, i, |b2|);
      if i < |b| {
        RankKept(b, b2, i);
        RankRises(b, i, |b|);
      }
    }
  }

  lemma {:induction false} ToldGrow(delivered: set<nat>, b: seq<Block>, b2: seq<Block>, told: set<nat>, kind: Option<Kind>, w: Option<nat>)
    requires SameTold(delivered, b, told) && Added(b, b2, kind)
    requires w.Some? ==> w.value < |b2| && b2[w.value].kind.ToolUse?
    ensures SameTold(if w.Some? then delivered + {w.value} else delivered, b2,
                     if w.Some? then told + {Rank(b2, w.value)} else told)
  {
    RankKept(b, b2, |b|);
    RankRises(b2, |b|, |b2|);
    if w.Some? {
      RankRises(b2, w.value, |b2|);
    }
    forall i | 0 <= i < |b2| && b2[i].kind.ToolUse?
      ensures i < |b| ==> Rank(b2, i) == Rank(b, i)
      ensures w.Some? && i != w.value ==> Rank(b2, i) != Rank(b2, w.value)
      ensures i == |b| ==> Rank(b2, i) == Rank(b, |b|)
    {
      if i < |b| {
        RankKept(b, b2, i);
      }
      if w.Some? && i < w.value {
        RankRises(b2, i, w.value);
      } else if w.Some? && w.value < i {
        RankRises(b2, w.value, i);
      }
    }
  }

  lemma {:induction false} CursorMoves(b: seq<Block>, b2: seq<Block>, kind: Option<Kind>)
    requires Added(b, b2, kind) && forall j :: 0 <= j < |b2| ==> !b2[j].kind.Thinking?
    ensures CursorOf(b2) == if kind.None? then CursorOf(b) else if kind.value.ToolUse? then InCall(Rank(b, |b|)) else InText
  {
    if kind.Some? {
      RankKept(b, b2, |b|);
    } else if b != [] {
      RankKept(b, b2, |b| - 1);
    }
  }

  // ---- what the blocks hold ----

  lemma {:induction false} TextSame(b: seq<Block>, b2: seq<Block>)
    requires |b| == |b2| && forall i :: 0 <= i < |b| ==> b2[i].kind == b[i].kind && (b[i].kind.Text? ==> b2[i].text == b[i].text)
    ensures ChatToClaudeSafety.Gather(b2, Text) == ChatToClaudeSafety.Gather(b, Text)
  {
    if b == [] {
    } else {
      TextSame(b[..|b| - 1], b2[..|b| - 1]);
    }
  }

  function SaidAt(b: seq<Block>, i: nat): string { if i < |b| && b[i].kind.Text? then b[i].text else "" }

  lemma {:induction false} LastGathers(b: seq<Block>)
    requires b != []
    ensures ChatToClaudeSafety.Gather(b, Text) == ChatToClaudeSafety.Gather(b[..|b| - 1], Text) + SaidAt(b, |b| - 1)
  {
    Blank(ChatToClaudeSafety.Gather(b[..|b| - 1], Text));
  }

  /** A write to the newest block adds its text; a write to a call adds none. */
  lemma {:induction false} TextGathers(b: seq<Block>, b2: seq<Block>, kind: Option<Kind>, w: Option<(nat, string)>)
    requires Added(b, b2, kind) && forall i: nat :: TextAt(b2, i) == TextAt(b, i) + Piece(w, i)
    requires w.Some? ==> w.value.0 < |b2| && (b2[w.value.0].kind.Text? ==> w.value.0 == |b2| - 1)
    ensures ChatToClaudeSafety.Gather(b2, Text)
            == ChatToClaudeSafety.Gather(b, Text) + (if w.Some? && b2[w.value.0].kind.Text? then w.value.1 else "")
  {
    hide ChatToClaudeSafety.Gather;
    var n := |b2|;
    if n == 0 {
      Blank(ChatToClaudeSafety.Gather(b, Text));
    } else {
      var before := b[..n - 1];
      forall i | 0 <= i < n - 1
        ensures b2[i].kind == before[i].kind && (before[i].kind.Text? ==> b2[i].text == before[i].text)
      {
        assert TextAt(b2, i) == TextAt(b, i) + Piece(w, i);
        Blank(TextAt(b, i));
      }
      TextSame(before, b2[..n - 1]);
      LastGathers(b2);
      LastSaid(b, b2, kind, w);
      Joined(ChatToClaudeSafety.Gather(before, Text), SaidAt(b, n - 1), if w.Some? && b2[w.value.0].kind.Text? then w.value.1 else "");
      if kind.None? {
        LastGathers(b);
      } else {
        assert before == b;
        Blank(ChatToClaudeSafety.Gather(b, Text));
      }
    }
  }

  lemma {:induction false} LastSaid(b: seq<Block>, b2: seq<Block>, kind: Option<Kind>, w: Option<(nat, string)>)
    requires Added(b, b2, kind) && b2 != [] && forall i: nat :: TextAt(b2, i) == TextAt(b, i) + Piece(w, i)
    requires w.Some? ==> w.value.0 < |b2| && (b2[w.value.0].kind.Text? ==> w.value.0 == |b2| - 1)
    ensures SaidAt(b2, |b2| - 1) == SaidAt(b, |b2| - 1) + (if w.Some? && b2[w.value.0].kind.Text? then w.value.1 else "")
  {
    var i := |b2| - 1;
    assert TextAt(b2, i) == TextAt(b, i) + Piece(w, i);
    Blank("");
  }

  lemma {:induction false} Joined(a: string, b: string, c: string)
    ensures a + (b + c) == (a + b) + c
  {
  }

  // ---- one event ----

  /** The event does to the client's blocks what the focus says it does. */
  ghost predicate Follows(b: seq<Block>, b2: seq<Block>, f: Focus, e: Upstream) {
    && ChatToClaudeSafety.Gather(b2, Text) == ChatToClaudeSafety.Gather(b, Text) + Spoken(e)
    && forall i :: 0 <= i < |b2| && b2[i].kind.ToolUse? ==>
         TextAt(b2, i) == TextAt(b, i) + Piece(Fragment(f, e), Rank(b2, i))
  }

  /** The block a fragment goes to, by the converter's own table. */
  function Addressed(sc: Conv, e: Upstream): Option<nat> {
    if !e.TextDelta? && Writes(sc, e).Some? then Some(Writes(sc, e).value.0) else None
  }

  lemma {:induction false} SameEffect(sc: Conv, e: Upstream, b: seq<Block>, f: Focus)
    requires Tracks(sc, b) && Agrees(sc, b, f) && !e.Ended? && !e.TextDelta?
    ensures Opens(sc, e) == KindOf(Begins(f, e)) && SameNames(TrackerNext(sc, e).calls, b, Knows(f, e))
    ensures Writes(sc, e).Some? <==> Fragment(f, e).Some?
    ensures Writes(sc, e).Some? ==>
              var w, q := Writes(sc, e).value, Fragment(f, e).value;
              && w.1 == q.1 && w.0 <= |b| && q.0 == Rank(b, w.0) && (w.0 == |b| <==> Begins(f, e).Some?)
              && (w.0 < |b| ==> b[w.0].kind.ToolUse?)
    ensures TrackerNext(sc, e).delivered
            == if Addressed(sc, e).Some? then sc.tracker.delivered + {Addressed(sc, e).value} else sc.tracker.delivered
  {
    hide Rank, CursorOf, SameHeads, SameNames, SameTold, LastOpen;
    HeadCount(b, f.heads);
    var calls := sc.tracker.calls;
    match e
    case Item(isCall, callId, itemId, _, _) =>
      SameResolve(calls, b, f.known, callId, itemId);
      NamedIsCall(sc, b, callId, itemId);
      ToldAlike(sc, b, f, Resolve(calls, callId, itemId, |b|).1);
    case ArgsDelta(itemId, _) =>
      SameResolve(calls, b, f.known, itemId, "");
      NamedIsCall(sc, b, itemId, "");
    case _ =>
  }

  /** The table only ever names call blocks, or the next free one. */
  lemma {:induction false} NamedIsCall(sc: Conv, b: seq<Block>, key: string, alias: string)
    requires Tracks(sc, b)
    ensures var r := Resolve(sc.tracker.calls, key, alias, |b|);
            (r.0 <==> r.1 == |b|) && (r.1 < |b| ==> b[r.1].kind.ToolUse?)
  {
  }

  /** Whether a call's arguments went out is the same question on both sides. */
  lemma {:induction false} ToldAlike(sc: Conv, b: seq<Block>, f: Focus, i: nat)
    requires SameTold(sc.tracker.delivered, b, f.told) && i <= |b| && (i < |b| ==> b[i].kind.ToolUse?)
    ensures i in sc.tracker.delivered <==> Rank(b, i) in f.told
  {
    hide Rank;
  }

  lemma {:induction false} StraysAlike(sc: Conv, e: Upstream, b: seq<Block>, f: Focus)
    requires Tracks(sc, b) && Agrees(sc, b, f) && !e.Ended?
    ensures Strays(sc, e) <==> Returns(f, e)
  {
    if !e.TextDelta? {
      SameEffect(sc, e, b, f);
      if Writes(sc, e).Some? && Writes(sc, e).value.0 + 1 < |b| {
        RankRises(b, Writes(sc, e).value.0, |b| - 1);
      }
    }
    hide Writes, Fragment, Begins, Rank;
  }

  lemma {:induction false} EventFollows(sc: Conv, e: Upstream, f: Focus)
    requires Good(sc) && Agrees(sc, Replay(sc.log).blocks, f) && !e.Ended?
    ensures var s := Take(sc, e);
            && Good(s) && Agrees(s, Replay(s.log).blocks, Look(f, e))
            && Follows(Replay(sc.log).blocks, Replay(s.log).blocks, f, e)
            && (Strays(sc, e) <==> Returns(f, e))
  {
    hide Take, Replay, Strays, Returns, Counted, Writes, Opens, TrackerNext, Begins, Fragment, Knows, Rank, CursorOf, Agrees, Tracks;
    TakeSteps(sc, e);
    TrackerOf(sc, e);
    var s := Take(sc, e);
    var b, b2 := Replay(sc.log).blocks, Replay(s.log).blocks;
    StraysAlike(sc, e, b, f);
    SizesAre(sc, b);
    SizesAre(s, b2);
    if e.TextDelta? {
      TextFollows(sc, s, e, b, b2, f);
    } else {
      CallFollows(sc, s, e, b, b2, f);
    }
  }

  lemma {:induction false} SizesAre(sc: Conv, b: seq<Block>)
    requires Tracks(sc, b)
    ensures |b| == sc.nextIndex && forall i :: 0 <= i < |b| ==> !b[i].kind.Thinking?
  {
  }

  /** What one step is known to do to the blocks. */
  ghost predicate Effect(sc: Conv, s: Conv, e: Upstream, b: seq<Block>, b2: seq<Block>) {
    && Tracks(sc, b) && Tracks(s, b2) && s.tracker == TrackerNext(sc, e)
    && Added(b, b2, Opens(sc, e)) && (forall i: nat :: TextAt(b2, i) == TextAt(b, i) + Piece(Writes(sc, e), i))
  }

  lemma {:induction false} TextFollows(sc: Conv, s: Conv, e: Upstream, b: seq<Block>, b2: seq<Block>, f: Focus)
    requires Effect(sc, s, e, b, b2) && Agrees(sc, b, f) && e.TextDelta?
    ensures Agrees(s, b2, Look(f, e)) && Follows(b, b2, f, e)
  {
    hide Rank;
    var kind := Opens(sc, e);
    NamesGrow(sc.tracker.calls, b, b2, f.known);
    HeadsGrow(b, b2, f.heads, kind, None);
    ToldGrow(sc.tracker.delivered, b, b2, f.told, kind, None);
    CursorMoves(b, b2, kind);
    TextGathers(b, b2, kind, Writes(sc, e));
    forall i | 0 <= i < |b2| && b2[i].kind.ToolUse?
      ensures TextAt(b2, i) == TextAt(b, i) + Piece(Fragment(f, e), Rank(b2, i))
    {
      assert TextAt(b2, i) == TextAt(b, i) + Piece(Writes(sc, e), i);
    }
  }

  lemma {:induction false} CallFollows(sc: Conv, s: Conv, e: Upstream, b: seq<Block>, b2: seq<Block>, f: Focus)
    requires Effect(sc, s, e, b, b2) && Agrees(sc, b, f) && !e.TextDelta? && !e.Ended?
    ensures Agrees(s, b2, Look(f, e)) && Follows(b, b2, f, e)
  {
    hide Rank, Begins, Fragment, Knows, Writes, Opens, TrackerNext, CursorOf, SameNames, SameTold, SameHeads, TextAt;
    SameEffect(sc, e, b, f);
    SizesAre(s, b2);
    var kind, w := Opens(sc, e), Addressed(sc, e);
    RankKept(b, b2, |b|);
    NamesGrow(TrackerNext(sc, e).calls, b, b2, Knows(f, e));
    HeadsGrow(b, b2, f.heads, kind, Begins(f, e));
    if w.Some? {
      RankKept(b, b2, w.value);
    }
    ToldGrow(sc.tracker.delivered, b, b2, f.told, kind, w);
    CursorMoves(b, b2, kind);
    HeadCount(b, f.heads);
    TextGathers(b, b2, kind, Writes(sc, e));
    forall i | 0 <= i < |b2| && b2[i].kind.ToolUse?
      ensures TextAt(b2, i) == TextAt(b, i) + Piece(Fragment(f, e), Rank(b2, i))
    {
      assert TextAt(b2, i) == TextAt(b, i) + Piece(Writes(sc, e), i);
      if w.Some? && i < w.value {
        RankRises(b2, i, w.value);
      } else if w.Some? && w.value < i {
        RankRises(b2, w.value, i);
      }
    }
  }

  lemma {:induction false} HeadCount(b: seq<Block>, heads: seq<Head>)
    requires SameHeads(b, heads)
    ensures |heads| == Rank(b, |b|)
  {
  }

  // ---- whole streams ----

  /** Every known identifier names a call that has begun. */
  ghost predicate Begun(f: Focus) {
    (forall id :: id in f.known ==> f.known[id] < |f.heads|) && (forall k :: k in f.told ==> k < |f.heads|)
  }

  lemma {:induction false} LookBegun(f: Focus, e: Upstream)
    requires Begun(f)
    ensures Begun(Look(f, e)) && |f.heads| <= |Look(f, e).heads|
    ensures Fragment(f, e).Some? ==> Fragment(f, e).value.0 < |Look(f, e).heads|
    ensures Fragment(f, e).Some? && Begins(f, e).None? ==> Fragment(f, e).value.0 < |f.heads|
    ensures Fragment(f, e).Some? && Begins(f, e).Some? ==> Fragment(f, e).value.0 == |f.heads|
  {
  }

  lemma {:induction false} FocusBegun(events: seq<Upstream>)
    ensures Begun(FocusOn(events))
  {
    hide Look, Begun;
    if events == [] {
      assert Begun(AWAY) by {
        NothingBegun();
      }
    } else {
      FocusBegun(events[..|events| - 1]);
      LookBegun(FocusOn(events[..|events| - 1]), events[|events| - 1]);
    }
  }

  lemma {:induction false} NothingBegun()
    ensures Begun(AWAY)
  {
  }

  /** A call that has not begun has said nothing. */
  lemma {:induction false} Unsaid(events: seq<Upstream>, k: nat)
    requires k >= |FocusOn(events).heads|
    ensures ArgsOf(events, k) == ""
  {
    hide Look, Fragment, Begins;
    if events == [] {
    } else {
      var shorter := events[..|events| - 1];
      FocusBegun(shorter);
      LookBegun(FocusOn(shorter), events[|events| - 1]);
      Unsaid(shorter, k);
      Blank("");
    }
  }

  ghost predicate Told(b: seq<Block>, events: seq<Upstream>) {
    && ChatToClaudeSafety.Gather(b, Text) == TextOf(events)
    && forall i :: 0 <= i < |b| && b[i].kind.ToolUse? ==> b[i].text == ArgsOf(events, Rank(b, i))
  }

  lemma {:induction false} ToldFollows(sc: Conv, s: Conv, b: seq<Block>, b2: seq<Block>, shorter: seq<Upstream>, e: Upstream)
    requires Told(b, shorter) && Follows(b, b2, FocusOn(shorter), e) && Agrees(sc, b, FocusOn(shorter))
    requires Agrees(s, b2, Look(FocusOn(shorter), e))
    requires Added(b, b2, Opens(sc, e))
    ensures Told(b2, shorter + [e])
  {
    hide Look, Begins, SameNames, SameTold, Opens, CursorOf, FocusOn, Fragment, Spoken, ChatToClaudeSafety.Gather;
    var events := shorter + [e];
    assert events[..|events| - 1] == shorter;
    RankKept(b, b2, |b|);
    forall i | 0 <= i < |b2| && b2[i].kind.ToolUse?
      ensures b2[i].text == ArgsOf(events, Rank(b2, i))
    {
      assert TextAt(b2, i) == TextAt(b, i) + Piece(Fragment(FocusOn(shorter), e), Rank(b2, i));
      if i < |b| {
        RankKept(b, b2, i);
      } else {
        HeadCount(b, FocusOn(shorter).heads);
        Unsaid(shorter, Rank(b2, i));
      }
    }
  }

  lemma {:induction false} StreamFollows(events: seq<Upstream>)
    requires Streaming(events)
    ensures var sc := Run(events);
            var c := Replay(sc.log);
            Good(sc) && Agrees(sc, c.blocks, FocusOn(events)) && Told(c.blocks, events) && StrayCount(events) == FocusOn(events).strays
  {
    hide Take, Replay, Good, Agrees, Told, Strays, Begins, Fragment, Knows, Returns, Follows;
    if events == [] {
      NothingFollows();
    } else {
      var shorter, e := events[..|events| - 1], events[|events| - 1];
      assert Streaming(shorter) && shorter + [e] == events;
      StreamFollows(shorter);
      var sc, s := Run(shorter), Run(events);
      GoodIsAccepted(sc);
      EventFollows(sc, e, FocusOn(shorter));
      GoodIsAccepted(s);
      TakeAdds(sc, e);
      ToldFollows(sc, s, Replay(sc.log).blocks, Replay(s.log).blocks, shorter, e);
    }
  }

  lemma {:induction false} TakeAdds(sc: Conv, e: Upstream)
    requires Good(sc) && !e.Ended?
    ensures Good(Take(sc, e)) && Added(Replay(sc.log).blocks, Replay(Take(sc, e).log).blocks, Opens(sc, e))
  {
    hide Take, Replay, Counted, Opens, Strays;
    TakeSteps(sc, e);
  }

  lemma {:induction false} GoodIsAccepted(sc: Conv)
    requires Good(sc)
    ensures Replay(sc.log).Client?
  {
  }

  lemma {:induction false} NothingFollows()
    ensures Good(FRESH) && Agrees(FRESH, Replay(FRESH.log).blocks, AWAY) && Told(Replay(FRESH.log).blocks, [])
  {
  }

  /** For every stream before its terminal event, in upstream terms alone: the text
      blocks hold all text, the n-th call block carries the n-th announcement and all
      fragments of that call, and the stray writes are the fragments of calls the
      upstream had left. */
  lemma {:induction false} EveryStreamFollowsFocus(events: seq<Upstream>)
    requires Streaming(events)
    ensures var c, f := Replay(Run(events).log), FocusOn(events);
            && c.Client? && c.stray == f.strays && ChatToClaudeSafety.Gather(c.blocks, Text) == TextOf(events)
            && Rank(c.blocks, |c.blocks|) == |f.heads|
            && forall i :: 0 <= i < |c.blocks| && c.blocks[i].kind.ToolUse? ==>
                 var k := Rank(c.blocks, i);
                 k < |f.heads| && c.blocks[i].kind == ToolUse(f.heads[k].id, f.heads[k].name) && c.blocks[i].text == ArgsOf(events, k)
  {
    hide Run, FocusOn, Replay, StrayCount, Rank, ArgsOf, TextOf, ChatToClaudeSafety.Gather, Tracks, WrittenTo, SameNames, SameTold, CursorOf;
    StreamFollows(events);
    EveryStreamKeepsDiscipline(events);
  }

  // ---- contiguous fragments ----

  predicate BeginsAt(events: seq<Upstream>, i: nat, k: nat) {
    i < |events| && Begins(FocusOn(events[..i]), events[i]).Some? && |FocusOn(events[..i]).heads| == k
  }

  /** Text, or another call's beginning. */
  predicate InterruptsAt(events: seq<Upstream>, m: nat) {
    m < |events| && (events[m].TextDelta? || Begins(FocusOn(events[..m]), events[m]).Some?)
  }

  predicate FragmentAt(events: seq<Upstream>, n: nat, k: nat) {
    n < |events| && Fragment(FocusOn(events[..n]), events[n]).Some? && Fragment(FocusOn(events[..n]), events[n]).value.0 == k
  }

  /** Nothing interrupts a call between its beginning and any of its fragments. */
  ghost predicate Contiguous(events: seq<Upstream>) {
    forall i: nat, m: nat, n: nat, k: nat :: i < m < n && BeginsAt(events, i, k) && InterruptsAt(events, m) ==> !FragmentAt(events, n, k)
  }

  /** Looking at a longer stream does not change what an earlier event was. */
  lemma {:induction false} EarlierSame(events: seq<Upstream>, e: Upstream, i: nat, k: nat)
    requires i < |events|
    ensures BeginsAt(events + [e], i, k) <==> BeginsAt(events, i, k)
    ensures InterruptsAt(events + [e], i) <==> InterruptsAt(events, i)
    ensures FragmentAt(events + [e], i, k) <==> FragmentAt(events, i, k)
  {
    assert (events + [e])[..i] == events[..i];
  }

  lemma {:induction false} LastIs(events: seq<Upstream>, e: Upstream, k: nat)
    ensures var f := FocusOn(events);
            && (BeginsAt(events + [e], |events|, k) <==> Begins(f, e).Some? && |f.heads| == k)
            && (InterruptsAt(events + [e], |events|) <==> e.TextDelta? || Begins(f, e).Some?)
            && (FragmentAt(events + [e], |events|, k) <==> Fragment(f, e).Some? && Fragment(f, e).value.0 == k)
            && FocusOn(events + [e]) == Look(f, e)
  {
    assert (events + [e])[..|events|] == events;
    hide Look, Begins, Fragment;
  }

  /** Every call has begun somewhere. */
  lemma {:induction false} CallBegan(events: seq<Upstream>, k: nat) returns (i: nat)
    requires k < |FocusOn(events).heads|
    ensures BeginsAt(events, i, k)
  {
    hide Begins, Fragment;
    var shorter, e := events[..|events| - 1], events[|events| - 1];
    assert shorter + [e] == events;
    LastIs(shorter, e, k);
    if k < |FocusOn(shorter).heads| {
      i := CallBegan(shorter, k);
      EarlierSame(shorter, e, i, k);
    } else {
      i := |shorter|;
    }
  }

  /** The cursor stays in a call until something interrupts it. */
  lemma {:induction false} CursorUntilInterrupted(events: seq<Upstream>, i: nat, k: nat)
    requires BeginsAt(events, i, k)
    ensures k < |FocusOn(events).heads|
    ensures FocusOn(events).cursor == InCall(k) <==> forall m: nat :: i < m < |events| ==> !InterruptsAt(events, m)
  {
    hide Begins, Fragment, Knows, Returns, BeginsAt, InterruptsAt;
    BeginsIndex(events, i, k);
    var shorter, e := events[..|events| - 1], events[|events| - 1];
    assert shorter + [e] == events;
    LastIs(shorter, e, k);
    CallIsNoText(FocusOn(shorter), e);
    if i < |shorter| {
      EarlierSame(shorter, e, i, k);
      CursorUntilInterrupted(shorter, i, k);
      forall m: nat | i < m < |shorter|
        ensures InterruptsAt(events, m) <==> InterruptsAt(shorter, m)
      {
        EarlierSame(shorter, e, m, k);
      }
      assert FocusOn(events).cursor == InCall(k)
             <==> !InterruptsAt(events, |shorter|) && FocusOn(shorter).cursor == InCall(k);
    }
  }

  lemma {:induction false} CallIsNoText(f: Focus, e: Upstream)
    ensures Begins(f, e).Some? ==> !e.TextDelta?
  {
  }

  lemma {:induction false} BeginsIndex(events: seq<Upstream>, i: nat, k: nat)
    requires BeginsAt(events, i, k)
    ensures i < |events|
  {
  }

  /** One more event strays exactly when it breaks contiguity. */
  lemma {:induction false} ReturnsIffBroken(events: seq<Upstream>, e: Upstream)
    ensures Returns(FocusOn(events), e) <==> BrokenAt(events + [e], |events|)
  {
    hide Begins, Fragment, Knows, BeginsAt, InterruptsAt, FragmentAt, Look;
    var f, longer := FocusOn(events), events + [e];
    FocusBegun(events);
    LookBegun(f, e);
    if Returns(f, e) {
      var k := Fragment(f, e).value.0;
      var i := CallBegan(events, k);
      BeginsIndex(events, i, k);
      CursorUntilInterrupted(events, i, k);
      LastIs(events, e, k);
      var m: nat :| i < m < |events| && InterruptsAt(events, m);
      EarlierSame(events, e, i, k);
      EarlierSame(events, e, m, k);
      assert BeginsAt(longer, i, k) && InterruptsAt(longer, m) && FragmentAt(longer, |events|, k);
    }
    forall i: nat, m: nat, k: nat | i < m < |events| && BeginsAt(longer, i, k) && InterruptsAt(longer, m)
                                    && FragmentAt(longer, |events|, k)
      ensures Returns(f, e)
    {
      EarlierSame(events, e, i, k);
      EarlierSame(events, e, m, k);
      LastIs(events, e, k);
      CursorUntilInterrupted(events, i, k);
    }
  }

  /** A stream has no stray write if and only if every call's fragments are contiguous. */
  lemma {:induction false} NoStraysIffContiguous(events: seq<Upstream>)
    ensures FocusOn(events).strays == 0 <==> Contiguous(events)
  {
    hide Begins, Fragment, Knows, BeginsAt, InterruptsAt, FragmentAt, Returns;
    if events == [] {
      NothingAt();
    } else {
      var shorter, e := events[..|events| - 1], events[|events| - 1];
      assert shorter + [e] == events;
      NoStraysIffContiguous(shorter);
      ReturnsIffBroken(shorter, e);
      LastIs(shorter, e, 0);
      ContiguousStep(shorter, e);
    }
  }

  lemma {:induction false} NothingAt()
    ensures Contiguous([])
  {
  }

  /** The call `k` is interrupted before event `n`, which brings a fragment of it. */
  ghost predicate BrokenAt(events: seq<Upstream>, n: nat) {
    exists i: nat, m: nat, k: nat :: i < m < n && BeginsAt(events, i, k) && InterruptsAt(events, m) && FragmentAt(events, n, k)
  }

  lemma {:induction false} ContiguousIs(events: seq<Upstream>)
    ensures Contiguous(events) <==> forall n: nat :: !BrokenAt(events, n)
  {
    hide BeginsAt, InterruptsAt, FragmentAt;
    if forall n: nat :: !BrokenAt(events, n) {
      forall i: nat, m: nat, n: nat, k: nat | i < m < n && BeginsAt(events, i, k) && InterruptsAt(events, m)
        ensures !FragmentAt(events, n, k)
      {
        assert !BrokenAt(events, n);
      }
    }
  }

  lemma {:induction false} BrokenEarlier(events: seq<Upstream>, e: Upstream, n: nat)
    ensures n < |events| ==> (BrokenAt(events + [e], n) <==> BrokenAt(events, n))
    ensures n > |events| ==> !BrokenAt(events + [e], n)
    ensures n >= |events| ==> !BrokenAt(events, n)
  {
    hide BeginsAt, InterruptsAt, FragmentAt;
    var longer := events + [e];
    forall i: nat, k: nat
      ensures i < |events| ==> (BeginsAt(longer, i, k) <==> BeginsAt(events, i, k))
      ensures i < |events| ==> (FragmentAt(longer, i, k) <==> FragmentAt(events, i, k))
      ensures (i >= |events| ==> !FragmentAt(events, i, k)) && (i > |events| ==> !FragmentAt(longer, i, k))
    {
      BeyondNothing(events, i, k);
      BeyondNothing(longer, i, k);
      if i < |events| {
        EarlierSame(events, e, i, k);
      }
    }
    if n < |events| && BrokenAt(events, n) {
      var i: nat, m: nat, k: nat :| i < m < n && BeginsAt(events, i, k) && InterruptsAt(events, m) && FragmentAt(events, n, k);
      EarlierSame(events, e, m, k);
      assert BeginsAt(longer, i, k) && InterruptsAt(longer, m) && FragmentAt(longer, n, k);
    }
    if n < |events| && BrokenAt(longer, n) {
      var i: nat, m: nat, k: nat :| i < m < n && BeginsAt(longer, i, k) && InterruptsAt(longer, m) && FragmentAt(longer, n, k);
      EarlierSame(events, e, m, k);
      assert BeginsAt(events, i, k) && InterruptsAt(events, m) && FragmentAt(events, n, k);
    }
  }

  lemma {:induction false} ContiguousStep(events: seq<Upstream>, e: Upstream)
    ensures Contiguous(events + [e]) <==> Contiguous(events) && !BrokenAt(events + [e], |events|)
  {
    hide BrokenAt, Contiguous;
    ContiguousIs(events);
    ContiguousIs(events + [e]);
    forall n: nat
      ensures (n < |events| ==> (BrokenAt(events + [e], n) <==> BrokenAt(events, n)))
              && (n > |events| ==> !BrokenAt(events + [e], n)) && (n >= |events| ==> !BrokenAt(events, n))
    {
      BrokenEarlier(events, e, n);
    }
  }

  lemma {:induction false} BeyondNothing(events: seq<Upstream>, n: nat, k: nat)
    ensures n >= |events| ==> !FragmentAt(events, n, k)
  {
  }

  lemma {:induction false} FocusStep(events: seq<Upstream>, e: Upstream)
    ensures FocusOn(events + [e]) == Look(FocusOn(events), e)
  {
    assert (events + [e])[..|events|] == events;
    hide Look;
  }

  /** Two calls announced one after the other, then a fragment of the first. */
  lemma {:induction false} LeftCallStrays(a: string, c: string, b: string, d: string, x: string)
    requires "" !in {a, b, c, d} && a != b && a != c && a != d && b != c && b != d && c != d
    ensures FocusOn([] + [Item(true, a, c, "f", "")] + [Item(true, b, d, "g", "")] + [ArgsDelta(c, x)]).strays == 1
  {
    hide FocusOn;
    var e0, e1, e2 := Item(true, a, c, "f", ""), Item(true, b, d, "g", ""), ArgsDelta(c, x);
    FocusStep([], e0);
    FocusStep([] + [e0], e1);
    FocusStep([] + [e0] + [e1], e2);
    NothingSeen();
    var f0 := Look(AWAY, e0);
    assert f0.known.Keys == {a, c} && f0.known[c] == 0 && |f0.heads| == 1 && f0.strays == 0;
    var f1 := Look(f0, e1);
    assert c in f1.known && f1.known[c] == 0 && f1.cursor == InCall(1) && f1.strays == 0;
  }

  /** The two calls by name: the fragment reaches a stopped block. */
  lemma {:induction false} InterleavedCallsStray()
    ensures var events := [Item(true, "a", "c", "f", ""), Item(true, "b", "d", "g", ""), ArgsDelta("c", "x")];
            var c := Replay(Run(events).log);
            c.Client? && c.stray == 1 && !Contiguous(events)
  {
    hide Run, Replay, Contiguous, FocusOn;
    var events := [Item(true, "a", "c", "f", ""), Item(true, "b", "d", "g", ""), ArgsDelta("c", "x")];
    assert "a"[0] != "b"[0] && "a"[0] != "c"[0] && "a"[0] != "d"[0] && "b"[0] != "c"[0] && "b"[0] != "d"[0] && "c"[0] != "d"[0];
    assert events == [] + [events[0]] + [events[1]] + [events[2]];
    LeftCallStrays("a", "c", "b", "d", "x");
    EveryStreamFollowsFocus(events);
    NoStraysIffContiguous(events);
  }

  lemma {:induction false} NothingSeen()
    ensures FocusOn([]) == AWAY
  {
  }

  // ---- identifiers ----

  /** The event names a known call under an identifier of another known call. */
  predicate Clashes(f: Focus, e: Upstream) {
    e.Item? && e.isCall && e.callId in f.known && e.itemId in f.known && f.known[e.callId] != f.known[e.itemId]
  }

  /** Without a clash an identifier names the same call for good. */
  lemma {:induction false} IdentifiersStay(events: seq<Upstream>, n: nat, id: string)
    requires n <= |events| && id in FocusOn(events[..n]).known
    requires forall m :: n <= m < |events| ==> !Clashes(FocusOn(events[..m]), events[m])
    ensures id in FocusOn(events).known && FocusOn(events).known[id] == FocusOn(events[..n]).known[id]
  {
    hide Returns, Begins, Fragment;
    if n == |events| {
      assert events[..n] == events;
    } else {
      var shorter, e := events[..|events| - 1], events[|events| - 1];
      assert shorter[..n] == events[..n];
      forall m | n <= m < |shorter|
        ensures !Clashes(FocusOn(shorter[..m]), shorter[m])
      {
        assert shorter[..m] == events[..m] && shorter[m] == events[m];
      }
      IdentifiersStay(shorter, n, id);
      assert !Clashes(FocusOn(shorter), e);
    }
  }

  // ---- behind the terminal event ----

  /** A concrete stream that goes on behind its terminal event: the client refuses it. */
  lemma {:induction false} TextBehindTerminalIsRefused()
    ensures Replay(Run([Upstream.TextDelta("a"), Ended(false, Counts(0, 0, None, None)), Upstream.TextDelta("b")]).log).Rejected?
  {
    hide Replay, Tracks;
    var e0, e1 := Upstream.TextDelta("a"), Ended(false, Counts(0, 0, None, None));
    var e2 := Upstream.TextDelta("b");
    assert [e0, e1, e2][..2] == [e0, e1] && [e0, e1][..1] == [e0] && [e0][..0] == [];
    assert Streaming([e0]);
    EveryStreamKeepsDiscipline([e0]);
    assert Run([e0]).textOpen;
    TextAfterTerminal(Run([e0]), false, Counts(0, 0, None, None), "b");
  }
}
