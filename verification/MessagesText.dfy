/** Streamed text on the Messages -> Responses route: exactly for which order of
    deltas the text sent is the text of the folded message. */
module MessagesText {
  import opened Common
  import opened OutputAssembly
  import opened MessagesToResponses
  import opened MessagesParity

  function AllText(f: seq<Content>): string { Assemble("", f, Verbatim).text }

  function Voice(e: Upstream): string { if e.TextDelta? then e.text else "" }

  /** All text deltas in the order of arrival. */
  function SpokenIn(events: seq<Upstream>): string {
    if events == [] then "" else SpokenIn(events[..|events| - 1]) + Voice(events[|events| - 1])
  }

  ghost predicate TextBlock(f: seq<Content>, index: int) {
    exists p :: 0 <= p < |f| && f[p].index == index && f[p].kind.Text?
  }

  /** Each text delta addresses a text block that has started, none before a block
      that text has reached. */
  ghost predicate InOrder(events: seq<Upstream>) {
    forall n :: 0 <= n < |events| && events[n].TextDelta? ==> Addresses(events, n)
  }

  ghost predicate Addresses(events: seq<Upstream>, n: nat)
    requires n < |events| && events[n].TextDelta?
  {
    && TextBlock(Fold(events[..n]), events[n].index)
    && forall m :: 0 <= m < n && events[m].TextDelta? ==> events[m].index <= events[n].index
  }

  // ---- the text of a message ----

  lemma {:induction false} LastPart(f: seq<Content>)
    requires f != []
    ensures var c := f[|f| - 1];
            AllText(f) == AllText(f[..|f| - 1]) + (if c.kind.Text? then c.text else "")
  {
    Blank(AllText(f[..|f| - 1]));
  }

  ghost predicate Silent(f: seq<Content>) {
    forall p :: 0 <= p < |f| && f[p].kind.Text? ==> f[p].text == ""
  }

  lemma {:induction false} SilentMessage(f: seq<Content>)
    requires Silent(f)
    ensures AllText(f) == ""
  {
    if f == [] {
      assert AllText(f) == "";
    } else {
      SilentMessage(f[..|f| - 1]);
      LastPart(f);
    }
  }

  lemma {:induction false} SameTexts(f: seq<Content>, g: seq<Content>)
    requires SameKinds(f, g) && forall p :: 0 <= p < |f| && f[p].kind.Text? ==> g[p].text == f[p].text
    ensures AllText(g) == AllText(f)
  {
    hide AllText;
    if f == [] {
      assert g == f;
    } else {
      SameTexts(f[..|f| - 1], g[..|g| - 1]);
      LastPart(f);
      LastPart(g);
    }
  }

  /** Text for the last block that has any, or a later one, ends the message's text. */
  lemma {:induction false} LastVoiceGrows(f: seq<Content>, index: int, text: string)
    requires Ordered(f) && TextBlock(f, index) && forall p :: 0 <= p < |f| && f[p].index > index ==> f[p].text == ""
    ensures AllText(Update(f, index, text, "")) == AllText(f) + text
  {
    hide AllText;
    var n := |f| - 1;
    var g, f', c := Update(f, index, text, ""), f[..n], f[n];
    var g' := Update(f', index, text, "");
    assert g[..n] == g' && g[n] == Extended(c, index, text, "");
    LastPart(f);
    LastPart(g);
    if c.index == index {
      assert g' == f';
      assert AllText(f') + (c.text + text) == (AllText(f') + c.text) + text;
    } else {
      assert TextBlock(f', index);
      LastVoiceGrows(f', index, text);
      Blank(AllText(f'));
      Blank(AllText(g'));
    }
  }

  lemma {:induction false} TextIsReserved(f: seq<Content>)
    ensures MessageAt(f).Some? <==> exists p :: 0 <= p < |f| && f[p].kind.Text?
  {
    if f == [] {
      assert MessageAt(f).None?;
    } else {
      TextIsReserved(f[..|f| - 1]);
      var rest := f[..|f| - 1];
      if p :| 0 <= p < |rest| && rest[p].kind.Text? {
        assert f[p].kind.Text?;
      }
    }
  }

  // ---- what has been reached ----

  /** A block no text delta has addressed is silent. */
  lemma {:induction false} Unreached(events: seq<Upstream>, p: nat)
    requires p < |Fold(events)| && forall m :: 0 <= m < |events| && events[m].TextDelta? ==> events[m].index != Fold(events)[p].index
    ensures Fold(events)[p].text == ""
  {
    var shorter, e := events[..|events| - 1], events[|events| - 1];
    if p < |Fold(shorter)| {
      assert Fold(events)[p].index == Fold(shorter)[p].index;
      forall m | 0 <= m < |shorter| && shorter[m].TextDelta?
        ensures shorter[m].index != Fold(shorter)[p].index
      {
        assert shorter[m] == events[m];
      }
      Unreached(shorter, p);
      Blank("");
    }
  }

  lemma {:induction false} ShorterOrder(events: seq<Upstream>)
    requires InOrder(events) && events != []
    ensures InOrder(events[..|events| - 1])
    ensures events[|events| - 1].TextDelta? ==> Addresses(events, |events| - 1)
  {
    hide TextBlock, Fold;
    var shorter := events[..|events| - 1];
    forall n | 0 <= n < |shorter| && shorter[n].TextDelta?
      ensures Addresses(shorter, n)
    {
      assert Addresses(events, n) && shorter[..n] == events[..n];
    }
  }

  /** A delta in order finds every later block silent. */
  lemma {:induction false} LaterSilent(events: seq<Upstream>, index: int)
    requires forall m :: 0 <= m < |events| && events[m].TextDelta? ==> events[m].index <= index
    ensures var f := Fold(events);
            forall p :: 0 <= p < |f| && f[p].index > index ==> f[p].text == ""
  {
    hide Fold;
    var f := Fold(events);
    forall p | 0 <= p < |f| && f[p].index > index
      ensures f[p].text == ""
    {
      Unreached(events, p);
    }
  }

  lemma {:induction false} FoldOrdered(events: seq<Upstream>)
    requires IncreasingStarts(events)
    ensures Ordered(Fold(events))
  {
    hide IncreasingStarts;
    if events == [] {
      assert Fold(events) == [];
    } else {
      ShorterStarts(events);
      FoldOrdered(events[..|events| - 1]);
    }
  }

  // ---- in order, the text sent is the text of the message ----

  /** All text sent is the message's text, sent to the message's position. */
  ghost predicate TextFollows(log: seq<Event>, f: seq<Content>) {
    TextsSent(log) == AllText(f) && forall n :: 0 <= n < |log| && log[n].TextSent? ==> MessageAt(f) == Some(log[n].at)
  }

  /** Text-silent growth of the log and of the message. */
  lemma {:induction false} QuietText(log: seq<Event>, tail: seq<Event>, f: seq<Content>, g: seq<Content>)
    requires TextFollows(log, f) && |tail| <= 1 && (tail != [] ==> !tail[0].TextSent?)
    requires AllText(g) == AllText(f) && (MessageAt(f).Some? ==> MessageAt(g) == MessageAt(f))
    ensures TextFollows(log + tail, g)
  {
    hide AllText, MessageAt, TextsSent;
    if tail == [] {
      assert log + tail == log;
    } else {
      SentAppend(log, tail[0], 0);
      assert tail == [tail[0]];
      Blank(TextsSent(log));
    }
  }

  lemma {:induction false} SentText(log: seq<Event>, at: int, text: string, f: seq<Content>, g: seq<Content>)
    requires TextFollows(log, f) && AllText(g) == AllText(f) + text && MessageAt(g) == MessageAt(f) == Some(at)
    ensures TextFollows(log + [TextSent(at, text)], g)
  {
    hide AllText, MessageAt, TextsSent;
    SentAppend(log, TextSent(at, text), 0);
  }

  lemma {:induction false} FrameText(sc: Conv, f: seq<Content>, e: Upstream, valid: string -> bool)
    requires Tracked(sc, f) && TextFollows(sc.log, f) && Take(sc, e, valid).Ok?
    requires e.TextDelta? ==> TextBlock(f, e.index) && forall p :: 0 <= p < |f| && f[p].index > e.index ==> f[p].text == ""
    ensures TextFollows(Take(sc, e, valid).value.log, FoldOne(f, e))
  {
    hide Tracked, OutputItems, AllText, MessageAt, Update, TextFollows, NextOut;
    TrackedCounts(sc, f);
    TrackedOrder(sc, f);
    match e
    case BlockStart(index, kind) =>
      StartText(f, Content(index, kind, "", ""));
      var log := Take(sc, e, valid).value.log;
      QuietText(sc.log, log[|sc.log|..], f, FoldOne(f, e));
      assert sc.log + log[|sc.log|..] == log;
    case TextDelta(index, text) =>
      LastVoiceGrows(f, index, text);
      TextIsReserved(f);
      UpdatePositions(f, FoldOne(f, e));
      SentText(sc.log, sc.msgIdx.value, text, f, FoldOne(f, e));
    case JsonDelta(index, text) =>
      ArgsKeepText(f, FoldOne(f, e));
      var b := sc.blocks[index];
      QuietText(sc.log, [ArgsSent(b.kind.id, b.outIdx, text)], f, FoldOne(f, e));
    case MessageStart(_) => QuietText(sc.log, [Created], f, f);
    case MessageStop => QuietText(sc.log, [Completed(StatusOf(sc.stopReason), OutputItems(sc))], f, f);
    case MessageDelta(_) =>
    case Other =>
  }

  lemma {:induction false} TrackedOrder(sc: Conv, f: seq<Content>)
    requires Tracked(sc, f)
    ensures Ordered(f)
  {
  }

  lemma {:induction false} StartText(f: seq<Content>, c: Content)
    requires c.text == ""
    ensures AllText(f + [c]) == AllText(f) && (MessageAt(f).Some? ==> MessageAt(f + [c]) == MessageAt(f))
  {
    assert (f + [c])[..|f|] == f;
    Blank(AllText(f));
  }

  lemma {:induction false} ArgsKeepText(f: seq<Content>, g: seq<Content>)
    requires SameKinds(f, g) && forall p :: 0 <= p < |f| ==> g[p].text == f[p].text || g[p].text == f[p].text + ""
    ensures AllText(g) == AllText(f) && MessageAt(g) == MessageAt(f)
  {
    KindsFixPositions("", g, f, Verbatim);
    forall p | 0 <= p < |f|
      ensures g[p].text == f[p].text
    {
      Blank(f[p].text);
    }
    SameTexts(f, g);
  }

  /** For every stream with increasing starts whose text deltas come in order: the
      text sent so far, all of it to the message's position, is the text of the
      folded message. */
  lemma {:induction false} RunTextFollows(events: seq<Upstream>, valid: string -> bool)
    requires IncreasingStarts(events) && InOrder(events) && Run(events, valid).Ok?
    ensures TextFollows(Run(events, valid).value.log, Fold(events))
  {
    hide Take, Tracked, FoldOne, IncreasingStarts, Above, TextFollows, TextBlock, InOrder;
    if events == [] {
      NoText();
    } else {
      var shorter, e := events[..|events| - 1], events[|events| - 1];
      ShorterStarts(events);
      ShorterOrder(events);
      RunTextFollows(shorter, valid);
      RunTracks(shorter, valid);
      if e.TextDelta? {
        forall m | 0 <= m < |shorter| && shorter[m].TextDelta?
          ensures shorter[m].index <= e.index
        {
          assert shorter[m] == events[m];
        }
        LaterSilent(shorter, e.index);
      }
      FrameText(Run(shorter, valid).value, Fold(shorter), e, valid);
    }
  }

  lemma {:induction false} NoText()
    ensures TextFollows([], [])
  {
  }

  // ---- the text sent is the deltas in the order of arrival ----

  lemma {:induction false} FrameSpeaks(sc: Conv, e: Upstream, valid: string -> bool)
    requires Take(sc, e, valid).Ok?
    ensures TextsSent(Take(sc, e, valid).value.log) == TextsSent(sc.log) + Voice(e)
  {
    hide TextsSent, OutputItems;
    Blank(TextsSent(sc.log));
    var log := Take(sc, e, valid).value.log;
    if log != sc.log {
      assert log == sc.log + [log[|log| - 1]];
      SentAppend(sc.log, log[|log| - 1], 0);
    }
  }

  lemma {:induction false} SentIsSpoken(events: seq<Upstream>, valid: string -> bool)
    requires Run(events, valid).Ok?
    ensures TextsSent(Run(events, valid).value.log) == SpokenIn(events)
  {
    hide Take;
    if events == [] {
      assert TextsSent([]) == "";
    } else {
      SentIsSpoken(events[..|events| - 1], valid);
      FrameSpeaks(Run(events[..|events| - 1], valid).value, events[|events| - 1], valid);
    }
  }

  // ---- and only in order, whatever the texts ----

  /** The same events but for the texts of text deltas. */
  ghost predicate SameShape(events: seq<Upstream>, other: seq<Upstream>) {
    |other| == |events| && forall n :: 0 <= n < |events| ==> Alike(events[n], other[n])
  }

  predicate Alike(e: Upstream, o: Upstream) { o == e || (e.TextDelta? && o.TextDelta? && o.index == e.index) }

  lemma {:induction false} FoldStep(t: seq<Upstream>, k: nat)
    requires 0 < k <= |t|
    ensures Fold(t[..k]) == FoldOne(Fold(t[..k - 1]), t[k - 1])
  {
    hide FoldOne;
    assert t[..k][..k - 1] == t[..k - 1] && t[..k][k - 1] == t[k - 1];
  }

  lemma {:induction false} FoldNothing()
    ensures Fold([]) == []
  {
  }

  lemma {:induction false} KindsNext(f: seq<Content>, g: seq<Content>, e: Upstream, o: Upstream)
    requires SameKinds(f, g) && Alike(e, o)
    ensures SameKinds(FoldOne(f, e), FoldOne(g, o))
  {
    hide Update;
  }

  lemma {:induction false} ShapeFixesKinds(events: seq<Upstream>, other: seq<Upstream>, n: nat)
    requires SameShape(events, other) && n <= |events|
    ensures SameKinds(Fold(events[..n]), Fold(other[..n]))
  {
    hide Fold, FoldOne;
    if n == 0 {
      FoldNothing();
      assert events[..0] == [] && other[..0] == [];
    } else {
      ShapeFixesKinds(events, other, n - 1);
      FoldStep(events, n);
      FoldStep(other, n);
      KindsNext(Fold(events[..n - 1]), Fold(other[..n - 1]), events[n - 1], other[n - 1]);
    }
  }

  lemma {:induction false} ShapeFixesStarts(events: seq<Upstream>, other: seq<Upstream>)
    requires SameShape(events, other) && IncreasingStarts(events)
    ensures IncreasingStarts(other)
  {
    forall n | 0 <= n < |other| && other[n].BlockStart?
      ensures Above(other[n].index, Fold(other[..n]))
    {
      assert Alike(events[n], other[n]);
      assert Above(events[n].index, Fold(events[..n]));
      ShapeFixesKinds(events, other, n);
    }
  }

  lemma {:induction false} ShapeFixesOrder(events: seq<Upstream>, other: seq<Upstream>)
    requires SameShape(events, other) && InOrder(events)
    ensures InOrder(other)
  {
    hide Fold;
    forall n | 0 <= n < |other| && other[n].TextDelta?
      ensures Addresses(other, n)
    {
      assert Alike(events[n], other[n]);
      assert Addresses(events, n);
      ShapeFixesKinds(events, other, n);
      SameTextBlock(Fold(events[..n]), Fold(other[..n]), events[n].index);
      forall m | 0 <= m < n && other[m].TextDelta?
        ensures other[m].index <= other[n].index
      {
        assert Alike(events[m], other[m]);
      }
    }
  }

  lemma {:induction false} SameTextBlock(f: seq<Content>, g: seq<Content>, index: int)
    requires SameKinds(f, g)
    ensures TextBlock(f, index) == TextBlock(g, index)
  {
    if TextBlock(f, index) {
      var p :| 0 <= p < |f| && f[p].index == index && f[p].kind.Text?;
      assert g[p].index == index && g[p].kind.Text?;
    }
    if TextBlock(g, index) {
      var p :| 0 <= p < |g| && g[p].index == index && g[p].kind.Text?;
      assert f[p].index == index && f[p].kind.Text?;
    }
  }

  /** In order, the deltas as they come are the text of the message. */
  lemma {:induction false} OrderSuffices(events: seq<Upstream>)
    requires IncreasingStarts(events) && InOrder(events)
    ensures SpokenIn(events) == AllText(Fold(events))
  {
    hide AllText, FoldOne, IncreasingStarts, InOrder, TextBlock;
    if events == [] {
      SilentMessage([]);
    } else {
      var shorter, e := events[..|events| - 1], events[|events| - 1];
      ShorterStarts(events);
      ShorterOrder(events);
      OrderSuffices(shorter);
      FoldOrdered(shorter);
      if e.TextDelta? {
        forall m | 0 <= m < |shorter| && shorter[m].TextDelta?
          ensures shorter[m].index <= e.index
        {
          assert shorter[m] == events[m];
        }
        LaterSilent(shorter, e.index);
      }
      FoldSpeaks(Fold(shorter), e);
    }
  }

  lemma {:induction false} FoldSpeaks(f: seq<Content>, e: Upstream)
    requires Ordered(f)
    requires e.TextDelta? ==> TextBlock(f, e.index) && forall p :: 0 <= p < |f| && f[p].index > e.index ==> f[p].text == ""
    ensures AllText(FoldOne(f, e)) == AllText(f) + Voice(e)
  {
    hide AllText, Update, TextBlock;
    Blank(AllText(f));
    match e
    case BlockStart(index, kind) => StartText(f, Content(index, kind, "", ""));
    case TextDelta(index, text) => LastVoiceGrows(f, index, text);
    case JsonDelta(index, text) => ArgsKeepText(f, FoldOne(f, e));
    case _ =>
  }

  // ---- a stream out of order, and texts that show it ----

  /** The stream with a text for delta `m`, one for delta `n`, and none elsewhere. */
  function Retold(events: seq<Upstream>, m: int, x: string, n: int, y: string): (r: seq<Upstream>)
    ensures |r| == |events|
    ensures forall k :: 0 <= k < |r| ==>
              r[k] == if events[k].TextDelta? then TextDelta(events[k].index, if k == m then x else if k == n then y else "") else events[k]
  {
    seq(|events|, k requires 0 <= k < |events| =>
      if events[k].TextDelta? then TextDelta(events[k].index, if k == m then x else if k == n then y else "") else events[k])
  }

  lemma {:induction false} RetoldShape(events: seq<Upstream>, m: int, x: string, n: int, y: string)
    ensures SameShape(events, Retold(events, m, x, n, y))
  {
  }

  /** What has been said of it after `k` events. */
  lemma {:induction false} SpokenStep(t: seq<Upstream>, k: nat)
    requires 0 < k <= |t|
    ensures SpokenIn(t[..k]) == SpokenIn(t[..k - 1]) + Voice(t[k - 1])
  {
    assert t[..k][..k - 1] == t[..k - 1] && t[..k][k - 1] == t[k - 1];
  }

  lemma {:induction false} RetoldSpeaks(events: seq<Upstream>, m: int, x: string, n: int, y: string, k: nat)
    requires k <= |events| && m < n < |events|
    requires 0 <= n && events[n].TextDelta? && (m >= 0 ==> events[m].TextDelta?)
    ensures SpokenIn(Retold(events, m, x, n, y)[..k]) == (if 0 <= m < k then x else "") + (if n < k then y else "")
  {
    var t := Retold(events, m, x, n, y);
    if k == 0 {
      assert t[..0] == [];
    } else {
      RetoldSpeaks(events, m, x, n, y, k - 1);
      SpokenStep(t, k);
      hide SpokenIn, Retold;
    }
  }

  /** A text that misses every text block is sent and lost. */
  lemma {:induction false} MissedText(events: seq<Upstream>, n: nat, y: string, k: nat)
    requires n < |events| && k <= |events| && events[n].TextDelta? && !TextBlock(Fold(events[..n]), events[n].index)
    ensures Silent(Fold(Retold(events, -1, "", n, y)[..k]))
  {
    hide TextBlock, Silent;
    var t := Retold(events, -1, "", n, y);
    if k == 0 {
      assert t[..0] == [] && Silent([]) by {
        NothingSaid();
      }
    } else {
      MissedText(events, n, y, k - 1);
      assert t[..k][..k - 1] == t[..k - 1] && t[..k][k - 1] == t[k - 1];
      if k - 1 == n {
        RetoldShape(events, -1, "", n, y);
        ShapeFixesKinds(events, t, n);
        SameTextBlock(Fold(events[..n]), Fold(t[..n]), events[n].index);
      }
      SilentNext(Fold(t[..k - 1]), t[k - 1]);
    }
  }

  lemma {:induction false} NothingSaid()
    ensures Silent([])
  {
  }

  lemma {:induction false} SilentNext(f: seq<Content>, e: Upstream)
    requires Silent(f) && (e.TextDelta? ==> e.text == "" || !TextBlock(f, e.index))
    ensures Silent(FoldOne(f, e))
  {
    Blank("");
    hide Update;
    var g := FoldOne(f, e);
    forall p | 0 <= p < |g| && g[p].kind.Text?
      ensures g[p].text == ""
    {
      if p < |f| {
        assert f[p].text == "" && f[p].kind.Text?;
      }
    }
  }

  /** The texts of two text blocks after `k` events. */
  ghost predicate Holds(f: seq<Content>, i: int, x: string, j: int, y: string) {
    forall p :: 0 <= p < |f| && f[p].kind.Text? ==> f[p].text == if f[p].index == i then x else if f[p].index == j then y else ""
  }

  lemma {:induction false} NothingHeld(i: int, j: int)
    ensures Holds([], i, "", j, "")
  {
  }

  lemma {:induction false} SwappedText(events: seq<Upstream>, m: nat, x: string, n: nat, y: string, k: nat)
    requires m < n < |events| && k <= |events| && events[m].TextDelta? && events[n].TextDelta? && IncreasingStarts(events)
    requires events[m].index != events[n].index
    requires TextBlock(Fold(events[..m]), events[m].index) && TextBlock(Fold(events[..n]), events[n].index)
    ensures Holds(Fold(Retold(events, m, x, n, y)[..k]), events[m].index, if m < k then x else "", events[n].index, if n < k then y else "")
  {
    hide IncreasingStarts, Fold, FoldOne, Holds, TextBlock;
    var t := Retold(events, m, x, n, y);
    if k == 0 {
      assert t[..0] == [] && Fold([]) == [] by {
        FoldNothing();
      }
      NothingHeld(events[m].index, events[n].index);
    } else {
      SwappedText(events, m, x, n, y, k - 1);
      FoldStep(t, k);
      if events[k - 1].BlockStart? {
        RetoldShape(events, m, x, n, y);
        NewIndex(events, t, m, k - 1);
        NewIndex(events, t, n, k - 1);
      }
      Blank("");
      HoldsNext(Fold(t[..k - 1]), t[k - 1], events[m].index, if m < k - 1 then x else "", events[n].index, if n < k - 1 then y else "",
                if m < k then x else "", if n < k then y else "");
    }
  }

  /** A block that starts after a text block was addressed has another index. */
  lemma {:induction false} NewIndex(events: seq<Upstream>, t: seq<Upstream>, m: nat, k: nat)
    requires SameShape(events, t) && IncreasingStarts(events) && m < |events| && k < |events| && events[k].BlockStart?
    requires events[m].TextDelta? && TextBlock(Fold(events[..m]), events[m].index)
    ensures m < k ==> events[k].index != events[m].index
  {
    if m < k {
      StaysBlock(events, m, k, events[m].index);
      var p :| 0 <= p < |Fold(events[..k])| && Fold(events[..k])[p].index == events[m].index;
      assert Above(events[k].index, Fold(events[..k]));
    }
  }

  lemma {:induction false} StaysBlock(events: seq<Upstream>, m: nat, k: nat, index: int)
    requires m <= k <= |events| && TextBlock(Fold(events[..m]), index)
    ensures TextBlock(Fold(events[..k]), index)
  {
    if m == k {
    } else {
      StaysBlock(events, m, k - 1, index);
      assert events[..k][..k - 1] == events[..k - 1] && events[..k][k - 1] == events[k - 1];
      var f := Fold(events[..k - 1]);
      var p :| 0 <= p < |f| && f[p].index == index && f[p].kind.Text?;
      assert Fold(events[..k])[p].index == index && Fold(events[..k])[p].kind.Text?;
    }
  }

  lemma {:induction false} HoldsNext(f: seq<Content>, e: Upstream, i: int, x: string, j: int, y: string, x2: string, y2: string)
    requires Holds(f, i, x, j, y) && i != j
    requires e.TextDelta? ==> (e.index == i ==> x2 == x + e.text) && (e.index == j ==> y2 == y + e.text)
                              && (e.index != i ==> x2 == x) && (e.index != j ==> y2 == y) && (e.index != i && e.index != j ==> e.text == "")
    requires !e.TextDelta? ==> x2 == x && y2 == y
    requires e.BlockStart? ==> (e.index == i ==> x == "") && (e.index == j ==> y == "")
    ensures Holds(FoldOne(f, e), i, x2, j, y2)
  {
    hide Update;
  }

  /** The text of a message in which two blocks speak. */
  lemma {:induction false} TwoSpeak(f: seq<Content>, i: int, x: string, j: int, y: string)
    requires Ordered(f) && j < i && Holds(f, i, x, j, y)
    ensures AllText(f) == (if TextBlock(f, j) then y else "") + (if TextBlock(f, i) then x else "")
  {
    hide AllText;
    if f == [] {
      SilentMessage(f);
    } else {
      var rest, c := f[..|f| - 1], f[|f| - 1];
      TwoSpeak(rest, i, x, j, y);
      LastPart(f);
      LastBlock(f, i);
      LastBlock(f, j);
      assert c.index == j ==> !TextBlock(rest, i);
    }
  }

  lemma {:induction false} LastBlock(f: seq<Content>, index: int)
    requires f != [] && Ordered(f)
    ensures var rest, c := f[..|f| - 1], f[|f| - 1];
            && (TextBlock(f, index) <==> TextBlock(rest, index) || (c.index == index && c.kind.Text?))
            && (c.index <= index ==> !TextBlock(rest, index))
  {
    var rest, c := f[..|f| - 1], f[|f| - 1];
    if TextBlock(rest, index) {
      var p :| 0 <= p < |rest| && rest[p].index == index && rest[p].kind.Text?;
      assert f[p].index == index && f[p].kind.Text?;
    }
    if c.index == index && c.kind.Text? {
      assert f[|f| - 1].index == index && f[|f| - 1].kind.Text?;
    }
    if TextBlock(f, index) {
      var p :| 0 <= p < |f| && f[p].index == index && f[p].kind.Text?;
      if p < |rest| {
        assert rest[p].index == index && rest[p].kind.Text?;
      }
    }
  }

  /** Texts that come out wrong when a delta misses every text block. */
  lemma {:induction false} MissShows(events: seq<Upstream>, n: nat)
    requires n < |events| && events[n].TextDelta? && !TextBlock(Fold(events[..n]), events[n].index)
    ensures var t := Retold(events, -1, "", n, "x");
            SameShape(events, t) && SpokenIn(t) != AllText(Fold(t))
  {
    hide AllText, Fold, TextBlock, Silent;
    var t := Retold(events, -1, "", n, "x");
    RetoldShape(events, -1, "", n, "x");
    RetoldSpeaks(events, -1, "", n, "x", |events|);
    MissedText(events, n, "x", |events|);
    assert t[..|events|] == t;
    SilentMessage(Fold(t));
  }

  /** Texts that come out swapped when a delta goes back to an earlier block. */
  lemma {:induction false} ReturnShows(events: seq<Upstream>, m: nat, n: nat)
    requires m < n < |events| && events[m].TextDelta? && events[n].TextDelta? && IncreasingStarts(events)
    requires events[n].index < events[m].index
    requires TextBlock(Fold(events[..m]), events[m].index) && TextBlock(Fold(events[..n]), events[n].index)
    ensures var t := Retold(events, m, "x", n, "y");
            SameShape(events, t) && SpokenIn(t) == "xy" && AllText(Fold(t)) == "yx"
  {
    hide AllText, Fold, TextBlock, Holds, IncreasingStarts;
    var t := Retold(events, m, "x", n, "y");
    RetoldShape(events, m, "x", n, "y");
    RetoldSpeaks(events, m, "x", n, "y", |events|);
    SwappedText(events, m, "x", n, "y", |events|);
    assert t[..|events|] == t && events[..|events|] == events;
    ShapeFixesStarts(events, t);
    FoldOrdered(t);
    StaysBlock(events, m, |events|, events[m].index);
    StaysBlock(events, n, |events|, events[n].index);
    ShapeFixesKinds(events, t, |events|);
    SameTextBlock(Fold(events), Fold(t), events[m].index);
    SameTextBlock(Fold(events), Fold(t), events[n].index);
    TwoSpeak(Fold(t), events[m].index, "x", events[n].index, "y");
  }

  /** The deltas as they come are the text of the message, whatever their texts are,
      if and only if they come in order. */
  lemma {:induction false} SentIsFoldedIffInOrder(events: seq<Upstream>)
    requires IncreasingStarts(events)
    ensures InOrder(events) <==> forall t :: SameShape(events, t) ==> SpokenIn(t) == AllText(Fold(t))
  {
    hide AllText, Fold, TextBlock, IncreasingStarts, SameShape, SpokenIn;
    if InOrder(events) {
      forall t | SameShape(events, t)
        ensures SpokenIn(t) == AllText(Fold(t))
      {
        ShapeFixesStarts(events, t);
        ShapeFixesOrder(events, t);
        OrderSuffices(t);
      }
    } else {
      var n :| 0 <= n < |events| && events[n].TextDelta? && !Addresses(events, n);
      if !TextBlock(Fold(events[..n]), events[n].index) {
        MissShows(events, n);
      } else {
        var m :| 0 <= m < n && events[m].TextDelta? && events[m].index > events[n].index;
        if !TextBlock(Fold(events[..m]), events[m].index) {
          MissShows(events, m);
        } else {
          ReturnShows(events, m, n);
          assert "xy"[0] != "yx"[0];
        }
      }
    }
  }

  lemma {:induction false} TwoParts(a: Content, b: Content)
    requires a.kind.Text? && b.kind.Text?
    ensures AllText([a, b]) == a.text + b.text
  {
    hide AllText;
    SilentMessage([]);
    LastPart([a]);
    LastPart([a, b]);
    assert [a][..0] == [] && [a, b][..1] == [a];
    assert "" + a.text == a.text;
  }

  lemma {:induction false} FourSpoken(events: seq<Upstream>)
    requires |events| == 4
    ensures SpokenIn(events) == Voice(events[0]) + Voice(events[1]) + Voice(events[2]) + Voice(events[3])
  {
    assert events[..0] == [] && events[..4] == events && SpokenIn([]) == "";
    SpokenStep(events, 1);
    SpokenStep(events, 2);
    SpokenStep(events, 3);
    SpokenStep(events, 4);
    hide SpokenIn, Voice;
    assert "" + Voice(events[0]) == Voice(events[0]);
  }

  lemma {:induction false} TwoExtended(a: Content, b: Content, index: int, text: string)
    ensures Update([a, b], index, text, "") == [Extended(a, index, text, ""), Extended(b, index, text, "")]
    ensures a.text == "" ==> Extended(a, index, text, "") == if a.index == index then a.(text := text) else a
    ensures b.text == "" ==> Extended(b, index, text, "") == if b.index == index then b.(text := text) else b
    ensures a.index != index ==> Extended(a, index, text, "") == a
    ensures b.index != index ==> Extended(b, index, text, "") == b
  {
    Blank(a.args);
    Blank(b.args);
    assert "" + text == text;
  }

  lemma {:induction false} FourFolded(events: seq<Upstream>)
    requires |events| == 4
    ensures Fold(events[..0]) == [] && Fold(events[..1]) == FoldOne([], events[0])
    ensures Fold(events) == FoldOne(FoldOne(FoldOne(FoldOne([], events[0]), events[1]), events[2]), events[3])
  {
    hide FoldOne;
    assert events[..0] == [] && events[..4] == events;
    FoldNothing();
    FoldStep(events, 1);
    FoldStep(events, 2);
    FoldStep(events, 3);
    FoldStep(events, 4);
    hide Fold;
  }

  lemma {:induction false} FoldsSwapped()
    ensures var a, b := Content(0, Text, "", ""), Content(1, Text, "", "");
            FoldOne(FoldOne(FoldOne(FoldOne([], BlockStart(0, Text)), BlockStart(1, Text)), TextDelta(1, "x")), TextDelta(0, "y"))
            == [a.(text := "y"), b.(text := "x")]
  {
    var a, b := Content(0, Text, "", ""), Content(1, Text, "", "");
    TwoExtended(a, b, 1, "x");
    TwoExtended(a, b.(text := "x"), 0, "y");
    hide Update, Extended;
    assert [] + [a] == [a] && [a] + [b] == [a, b];
  }

  lemma {:induction false} TwoStarts(events: seq<Upstream>)
    requires |events| == 4 && events[0] == BlockStart(0, Text) && events[1] == BlockStart(1, Text)
    requires !events[2].BlockStart? && !events[3].BlockStart?
    ensures IncreasingStarts(events)
  {
    FourFolded(events);
    hide Fold;
  }

  /** A concrete stream: the second of two text blocks speaks first. */
  lemma {:induction false} SwappedBlocks()
    ensures var events := [BlockStart(0, Text), BlockStart(1, Text), TextDelta(1, "x"), TextDelta(0, "y")];
            IncreasingStarts(events) && SpokenIn(events) == "xy" && AllText(Fold(events)) == "yx"
  {
    var events := [BlockStart(0, Text), BlockStart(1, Text), TextDelta(1, "x"), TextDelta(0, "y")];
    hide SpokenIn, AllText, Fold, FoldOne, IncreasingStarts;
    FourSpoken(events);
    FourFolded(events);
    FoldsSwapped();
    TwoStarts(events);
    TwoParts(Content(0, Text, "y", ""), Content(1, Text, "x", ""));
  }
}
