/** The SSE framer and frame renderer of internal/adapter/shared/shared.go. */
module SseFraming {
  import opened Common
  import opened LineFeed

  datatype Frame = Frame(eventType: string, data: string, raw: string)

  datatype Framer = Framer(buf: string, eventType: string, data: string, sawFrame: bool, wantRaw: bool, raw: string)

  const COMMENT := ":"
  const EVENT := "event:"
  const DATA := "data:"

  function Pushed(f: Framer, chunk: string): Framer { f.(buf := f.buf + chunk) }

  function TrimOneSpace(s: string): string { if s != "" && s[0] == ' ' then s[1..] else s }

  /** A data line joins what the frame has so far, unless that is empty. */
  function JoinData(data: string, value: string): string {
    if data == "" then value else data + "\n" + value
  }

  /** One line, without its line end. */
  function TakeText(g: Framer, text: string): (r: (Framer, Option<Frame>))
    ensures r.0.buf == g.buf && r.0.wantRaw == g.wantRaw
  {
    if text == "" then
      if !g.sawFrame then (g, None)
      else (g.(eventType := "", data := "", sawFrame := false, raw := ""), Some(Frame(g.eventType, g.data, g.raw)))
    else if COMMENT <= text then (g, None)
    else if EVENT <= text then (g.(eventType := TrimSpace(text[|EVENT|..]), sawFrame := true), None)
    else if DATA <= text then (g.(data := JoinData(g.data, TrimOneSpace(text[|DATA|..])), sawFrame := true), None)
    else (g, None)
  }

  /** One line up to its newline; a carriage return before the newline is dropped. */
  function TakeLine(f: Framer, line: string): (r: (Framer, Option<Frame>))
    ensures r.0.buf == f.buf && r.0.wantRaw == f.wantRaw
  {
    TakeText(if f.wantRaw then f.(raw := f.raw + line + "\n") else f, TrimSuffixCR(line))
  }

  /** Take the first line out of the buffer. */
  function Step(f: Framer): (Framer, Option<Frame>)
    requires Newline(f.buf) < |f.buf|
    ensures |Step(f).0.buf| < |f.buf|
  {
    var i := Newline(f.buf);
    TakeLine(f.(buf := f.buf[i + 1..]), f.buf[..i])
  }

  /** The next complete frame, if the buffer holds one. */
  function Polled(f: Framer): (Framer, Option<Frame>)
    decreases |f.buf|
  {
    if Newline(f.buf) == |f.buf| then (f, None)
    else
      var r := Step(f);
      if r.1.Some? then r else Polled(r.0)
  }

  function Prepend(head: Option<Frame>, rest: (seq<Frame>, Framer)): (seq<Frame>, Framer) {
    if head.Some? then ([head.value] + rest.0, rest.1) else rest
  }

  /** All frames the buffer holds, and what is left. */
  function Drain(f: Framer): (seq<Frame>, Framer)
    decreases |f.buf|
  {
    if Newline(f.buf) == |f.buf| then ([], f)
    else
      var r := Step(f);
      Prepend(r.1, Drain(r.0))
  }

  // ---- however it is polled and cut ----

  /** Polling takes the frames of the drain one by one. */
  lemma {:induction false} NextIsFirst(f: Framer)
    ensures var r := Polled(f);
            if r.1.Some? then Drain(f) == Prepend(r.1, Drain(r.0)) && |r.0.buf| < |f.buf|
            else Drain(f) == ([], r.0)
    decreases |f.buf|
  {
    hide Step;
    if Newline(f.buf) < |f.buf| {
      var r := Step(f);
      if r.1.None? {
        NextIsFirst(r.0);
      }
    }
  }

  /** What a split input yields in all. */
  function Then(first: (seq<Frame>, Framer), more: string): (seq<Frame>, Framer) {
    var later := Drain(Pushed(first.1, more));
    (first.0 + later.0, later.1)
  }

  lemma {:induction false} ThenPrepends(head: Option<Frame>, first: (seq<Frame>, Framer), more: string)
    ensures Then(Prepend(head, first), more) == Prepend(head, Then(first, more))
  {
    hide Drain;
    var later := Drain(Pushed(first.1, more));
    if head.Some? {
      assert ([head.value] + first.0) + later.0 == [head.value] + (first.0 + later.0);
    }
  }

  lemma {:induction false} StepIgnoresTail(f: Framer, more: string)
    requires Newline(f.buf) < |f.buf|
    ensures Newline(f.buf + more) < |f.buf + more|
    ensures Step(Pushed(f, more)) == (Pushed(Step(f).0, more), Step(f).1)
  {
    hide TrimSpace, TrimSuffixCR, JoinData;
    var i := Newline(f.buf);
    NewlineAt(f.buf + more, i);
    assert (f.buf + more)[..i] == f.buf[..i] && (f.buf + more)[i + 1..] == f.buf[i + 1..] + more;
  }

  /** Frames already polled before more bytes arrive are the first frames of all
      the bytes: where the input is cut, and when it is polled, does not matter. */
  lemma {:induction false} DrainSplit(f: Framer, more: string)
    ensures Drain(Pushed(f, more)) == Then(Drain(f), more)
    decreases |f.buf|
  {
    hide Step;
    if Newline(f.buf) < |f.buf| {
      StepIgnoresTail(f, more);
      var r := Step(f);
      DrainSplit(r.0, more);
      assert Drain(Pushed(f, more)) == Prepend(r.1, Drain(Pushed(r.0, more)));
      hide Drain, Then;
      ThenPrepends(r.1, Drain(r.0), more);
      DrainOnce(f);
    } else {
      assert [] + Drain(Pushed(f, more)).0 == Drain(Pushed(f, more)).0;
    }
  }

  lemma {:induction false} DrainOnce(f: Framer)
    requires Newline(f.buf) < |f.buf|
    ensures Drain(f) == Prepend(Step(f).1, Drain(Step(f).0))
  {
    hide Step;
  }

  /** Push a list of pieces, draining after each. */
  function FeedAll(f: Framer, pieces: seq<string>): (seq<Frame>, Framer) {
    if pieces == [] then Drain(f)
    else
      var before := FeedAll(f, pieces[..|pieces| - 1]);
      var now := Drain(Pushed(before.1, pieces[|pieces| - 1]));
      (before.0 + now.0, now.1)
  }

  lemma {:induction false} AnySplitFrames(f: Framer, pieces: seq<string>)
    ensures FeedAll(f, pieces) == Drain(Pushed(f, Concat(pieces)))
  {
    hide Drain;
    if pieces == [] {
      assert f.buf + "" == f.buf;
    } else {
      var n := |pieces| - 1;
      AnySplitFrames(f, pieces[..n]);
      DrainSplit(Pushed(f, Concat(pieces[..n])), pieces[n]);
      assert (f.buf + Concat(pieces[..n])) + pieces[n] == f.buf + (Concat(pieces[..n]) + pieces[n]);
    }
  }

  // ---- raw capture loses nothing ----

  function Raws(frames: seq<Frame>): string {
    if frames == [] then "" else frames[0].raw + Raws(frames[1..])
  }

  /** The bytes a drain accounts for: emitted blocks, pending block, buffer. */
  function Account(r: (seq<Frame>, Framer)): string {
    Raws(r.0) + (r.1.raw + r.1.buf)
  }

  lemma {:induction false} AccountPrepends(head: Option<Frame>, rest: (seq<Frame>, Framer))
    ensures Account(Prepend(head, rest)) == (if head.Some? then head.value.raw else "") + Account(rest)
  {
    if head.Some? {
      assert ([head.value] + rest.0)[1..] == rest.0;
      assert (head.value.raw + Raws(rest.0)) + (rest.1.raw + rest.1.buf) == head.value.raw + (Raws(rest.0) + (rest.1.raw + rest.1.buf));
    } else {
      assert "" + Account(rest) == Account(rest);
    }
  }

  lemma {:induction false} LineRaw(f: Framer, line: string)
    requires f.wantRaw
    ensures var r := TakeLine(f, line);
            && (r.1.Some? ==> r.1.value.raw == f.raw + line + "\n" && r.0.raw == "")
            && (r.1.None? ==> r.0.raw == f.raw + line + "\n")
  {
    hide TrimSpace, TrimSuffixCR, JoinData;
  }

  lemma {:induction false} Regroup(raw: string, line: string, rest: string)
    ensures (raw + line + "\n") + ("" + rest) == raw + (line + "\n" + rest)
    ensures "" + ((raw + line + "\n") + rest) == raw + (line + "\n" + rest)
  {
  }

  lemma {:induction false} StepAccounts(f: Framer)
    requires f.wantRaw && Newline(f.buf) < |f.buf|
    ensures var r := Step(f);
            r.0.wantRaw && (if r.1.Some? then r.1.value.raw else "") + (r.0.raw + r.0.buf) == f.raw + f.buf
  {
    hide TakeLine;
    var i := Newline(f.buf);
    var line, rest := f.buf[..i], f.buf[i + 1..];
    LineRaw(f.(buf := rest), line);
    Regroup(f.raw, line, rest);
    assert f.buf == line + "\n" + rest;
  }

  /** With raw capture on, the raw blocks, the pending block and the buffer are
      exactly the bytes pushed. */
  lemma {:induction false} RawIsConserved(f: Framer)
    requires f.wantRaw
    ensures Account(Drain(f)) == f.raw + f.buf && Drain(f).1.wantRaw
    decreases |f.buf|
  {
    hide Step, Account;
    if Newline(f.buf) < |f.buf| {
      var r := Step(f);
      StepAccounts(f);
      RawIsConserved(r.0);
      AccountPrepends(r.1, Drain(r.0));
    } else {
      assert Account(([], f)) == f.raw + f.buf by {
        NothingDrained(f);
      }
    }
  }

  lemma {:induction false} NothingDrained(f: Framer)
    ensures Account(([], f)) == f.raw + f.buf
  {
    assert "" + (f.raw + f.buf) == f.raw + f.buf;
  }

  // ---- rendering and reading back ----

  /** One named frame around a rendered payload. */
  function SseEvent(name: string, payload: string): string {
    "event: " + name + "\ndata: " + payload + "\n\n"
  }

  function Render(events: seq<(string, string)>): string {
    if events == [] then "" else SseEvent(events[0].0, events[0].1) + Render(events[1..])
  }

  predicate OneLine(s: string) { forall i :: 0 <= i < |s| ==> s[i] != '\n' }

  /** What survives the wire: a trimmed one-line name and a one-line payload
      that does not end in a carriage return. */
  predicate Clean(name: string, payload: string) {
    OneLine(name) && Trimmed(name) && OneLine(payload) && (payload != "" ==> payload[|payload| - 1] != '\r')
  }

  function Idle(wantRaw: bool, buf: string): Framer { Framer(buf, "", "", false, wantRaw, "") }

  lemma {:induction false} SpaceThenName(name: string)
    requires Trimmed(name)
    ensures TrimSpace(" " + name) == name
  {
    assert (" " + name)[1..] == name;
    TrimmedStays(name);
  }

  /** The first line of a text made of a line, a newline and the rest. */
  lemma {:induction false} FirstLine(f: Framer, line: string, rest: string)
    requires OneLine(line) && f.buf == line + "\n" + rest
    ensures Newline(f.buf) < |f.buf| && Step(f) == TakeLine(f.(buf := rest), line)
  {
    hide TakeLine;
    NewlineAt(f.buf, |line|);
    assert f.buf[..|line|] == line && f.buf[|line| + 1..] == rest;
  }

  lemma {:induction false} EventLine(f: Framer, name: string)
    requires Trimmed(name)
    ensures var r := TakeLine(f, "event: " + name);
            r.1.None? && r.0.eventType == name && r.0.data == f.data && r.0.sawFrame
  {
    SpaceThenName(name);
    var line := "event: " + name;
    if name != "" {
      assert line[|line| - 1] == name[|name| - 1];
    }
    assert TrimSuffixCR(line) == line;
    assert line[0] == 'e' && line[..|EVENT|] == EVENT && line[|EVENT|..] == " " + name;
    hide TrimSpace, TrimSuffixCR;
  }

  lemma {:induction false} DataLine(f: Framer, payload: string)
    requires payload != "" ==> payload[|payload| - 1] != '\r'
    ensures var r := TakeLine(f, "data: " + payload);
            r.1.None? && r.0.eventType == f.eventType && r.0.data == JoinData(f.data, payload) && r.0.sawFrame
  {
    var line := "data: " + payload;
    if payload != "" {
      assert line[|line| - 1] == payload[|payload| - 1];
    }
    assert TrimSuffixCR(line) == line;
    assert line[0] == 'd' && line[..|DATA|] == DATA && line[|DATA|..] == " " + payload;
    assert (" " + payload)[1..] == payload;
    hide TrimSpace, TrimSuffixCR;
  }

  lemma {:induction false} BlankLine(f: Framer)
    requires f.sawFrame
    ensures var r := TakeLine(f, "");
            r.0 == Idle(f.wantRaw, f.buf) && r.1.Some? && r.1.value.eventType == f.eventType && r.1.value.data == f.data
  {
  }

  /** One rendered event at the front of the buffer comes back as one frame. */
  lemma {:induction false} EventReadsBack(wantRaw: bool, name: string, payload: string, rest: string) returns (frame: Frame)
    requires Clean(name, payload)
    ensures frame.eventType == name && frame.data == payload
    ensures Drain(Idle(wantRaw, SseEvent(name, payload) + rest)) == Prepend(Some(frame), Drain(Idle(wantRaw, rest)))
  {
    hide TakeLine, Drain, Prepend, Newline, OneLine, Trimmed;
    var l1, l2 := "event: " + name, "data: " + payload;
    var after2 := "" + "\n" + rest;
    var after1 := l2 + "\n" + after2;
    var f0 := Idle(wantRaw, SseEvent(name, payload) + rest);
    assert f0.buf == l1 + "\n" + after1;
    CleanLines(name, payload);
    LineDrains(f0, l1, after1);
    EventLine(f0.(buf := after1), name);
    var f1 := TakeLine(f0.(buf := after1), l1).0;
    LineDrains(f1, l2, after2);
    DataLine(f1.(buf := after2), payload);
    var f2 := TakeLine(f1.(buf := after2), l2).0;
    LineDrains(f2, "", rest);
    BlankLine(f2.(buf := rest));
    frame := TakeLine(f2.(buf := rest), "").1.value;
    PrependNone(Drain(f1));
    PrependNone(Drain(f2));
  }

  /** Both lines of a clean event are single lines. */
  lemma {:induction false} CleanLines(name: string, payload: string)
    requires Clean(name, payload)
    ensures OneLine("event: " + name) && OneLine("data: " + payload) && OneLine("")
    ensures Trimmed(name) && (payload != "" ==> payload[|payload| - 1] != '\r')
  {
  }

  /** A buffer that starts with one line drains by taking that line. */
  lemma {:induction false} LineDrains(f: Framer, line: string, rest: string)
    requires OneLine(line) && f.buf == line + "\n" + rest
    ensures var r := TakeLine(f.(buf := rest), line);
            Drain(f) == Prepend(r.1, Drain(r.0))
  {
    hide TakeLine, Drain, Prepend;
    FirstLine(f, line, rest);
    DrainOnce(f);
  }

  /** Comments, and lines of any other field, leave no trace in the frames. */
  lemma {:induction false} OtherLinesAreIgnored(f: Framer, line: string, rest: string)
    requires !f.wantRaw && OneLine(line) && line != "" && line[|line| - 1] != '\r' && f.buf == line + "\n" + rest
    requires line[0] == ':' || !("event:" <= line || "data:" <= line)
    ensures Drain(f) == Drain(f.(buf := rest))
  {
    hide Drain;
    LineDrains(f, line, rest);
    assert line[0] == ':' ==> line[..1] == ":";
    PrependNone(Drain(f.(buf := rest)));
  }

  lemma {:induction false} PrependNone(r: (seq<Frame>, Framer))
    ensures Prepend(None, r) == r
  {
  }

  function Parts(frames: seq<Frame>): seq<(string, string)> {
    if frames == [] then [] else [(frames[0].eventType, frames[0].data)] + Parts(frames[1..])
  }

  /** Rendering any list of clean events and framing the bytes gives the list
      back, leaving the framer as it was. */
  lemma {:induction false} RenderedReadsBack(wantRaw: bool, events: seq<(string, string)>)
    requires forall i :: 0 <= i < |events| ==> Clean(events[i].0, events[i].1)
    ensures var r := Drain(Idle(wantRaw, Render(events)));
            Parts(r.0) == events && r.1 == Idle(wantRaw, "")
  {
    hide Step, Clean, SseEvent;
    if events == [] {
      NoNewline("");
    } else {
      RenderedReadsBack(wantRaw, events[1..]);
      var frame := EventReadsBack(wantRaw, events[0].0, events[0].1, Render(events[1..]));
      var rest := Drain(Idle(wantRaw, Render(events[1..])));
      hide Drain;
      assert ([frame] + rest.0)[1..] == rest.0;
      assert events == [(events[0].0, events[0].1)] + events[1..];
    }
  }

  // ---- and nothing else survives ----

  function Newlines(s: string): nat {
    if s == "" then 0 else (if s[0] == '\n' then 1 else 0) + Newlines(s[1..])
  }

  lemma {:induction false} NewlinesConcat(a: string, b: string)
    ensures Newlines(a + b) == Newlines(a) + Newlines(b)
  {
    if a == "" {
      assert a + b == b;
    } else {
      NewlinesConcat(a[1..], b);
      assert (a + b)[1..] == a[1..] + b;
    }
  }

  /** Bytes of data in emitted frames and in the pending one. */
  function DataSize(r: (seq<Frame>, Framer)): nat {
    FramesSize(r.0) + |r.1.data|
  }

  function FramesSize(frames: seq<Frame>): nat {
    if frames == [] then 0 else |frames[0].data| + FramesSize(frames[1..])
  }

  lemma {:induction false} LineShrinks(f: Framer, line: string)
    ensures var r := TakeLine(f, line);
            (if r.1.Some? then |r.1.value.data| else 0) + |r.0.data| <= |f.data| + |line|
  {
    hide TrimSpace;
  }

  lemma {:induction false} StepShrinks(f: Framer)
    requires Newline(f.buf) < |f.buf|
    ensures var r := Step(f);
            (if r.1.Some? then |r.1.value.data| else 0) + |r.0.data| + |r.0.buf| + 1 <= |f.data| + |f.buf|
            && Newlines(f.buf) == 1 + Newlines(r.0.buf)
  {
    hide TakeLine;
    var i := Newline(f.buf);
    var line, rest := f.buf[..i], f.buf[i + 1..];
    LineShrinks(f.(buf := rest), line);
    assert f.buf == line + ("\n" + rest);
    NewlinesConcat(line, "\n" + rest);
    assert ("\n" + rest)[1..] == rest;
    NoNewlines(line);
  }

  lemma {:induction false} NoNewlines(s: string)
    requires OneLine(s)
    ensures Newlines(s) == 0
  {
    if s == "" {
    } else {
      NoNewlines(s[1..]);
    }
  }

  /** Framing loses at least one byte of data per line. */
  lemma {:induction false} DrainShrinks(f: Framer)
    ensures DataSize(Drain(f)) + Newlines(f.buf) <= |f.data| + |f.buf|
    decreases |f.buf|
  {
    hide Step;
    if Newline(f.buf) < |f.buf| {
      StepShrinks(f);
      var r := Step(f);
      DrainShrinks(r.0);
      var rest := Drain(r.0);
      if r.1.Some? {
        assert ([r.1.value] + rest.0)[1..] == rest.0;
      }
    } else {
      NoNewlines(f.buf);
    }
  }

  /** Event types are trimmed and of one line, always. */
  ghost predicate NamesOk(f: Framer) { OneLine(f.eventType) && Trimmed(f.eventType) }

  lemma {:induction false} TrimIsTrimmed(s: string)
    ensures Trimmed(TrimSpace(s)) && (OneLine(s) ==> OneLine(TrimSpace(s)))
  {
    hide LeadSpace, TailSpace;
    LeftTrims(s);
    RightTrims(TrimLeft(s));
    PrefixLeads(TrimSpace(s), TrimLeft(s));
  }

  lemma {:induction false} LeftTrims(s: string)
    ensures var t := TrimLeft(s);
            LeadSpace(t) == 0 && (OneLine(s) ==> OneLine(t))
  {
    hide LeadSpace;
    if LeadSpace(s) == 0 {
    } else {
      LeftTrims(s[LeadSpace(s)..]);
    }
  }

  lemma {:induction false} RightTrims(s: string)
    ensures var t := TrimRight(s);
            t <= s && TailSpace(t) == 0 && (OneLine(s) ==> OneLine(t))
  {
    hide TailSpace;
    if TailSpace(s) == 0 {
    } else {
      RightTrims(s[..|s| - TailSpace(s)]);
    }
  }

  /** A prefix starts with no white space that the whole does not start with. */
  lemma {:induction false} PrefixLeads(s: string, t: string)
    requires s <= t && LeadSpace(t) == 0
    ensures LeadSpace(s) == 0
  {
  }

  lemma {:induction false} StepNames(f: Framer)
    requires Newline(f.buf) < |f.buf| && NamesOk(f)
    ensures var r := Step(f);
            NamesOk(r.0) && (r.1.Some? ==> OneLine(r.1.value.eventType) && Trimmed(r.1.value.eventType))
  {
    var text := TrimSuffixCR(f.buf[..Newline(f.buf)]);
    assert OneLine(text);
    if EVENT <= text {
      TrimIsTrimmed(text[|EVENT|..]);
    }
    hide TrimSpace, JoinData;
  }

  lemma {:induction false} DrainNames(f: Framer)
    requires NamesOk(f)
    ensures forall i :: 0 <= i < |Drain(f).0| ==> OneLine(Drain(f).0[i].eventType) && Trimmed(Drain(f).0[i].eventType)
    decreases |f.buf|
  {
    hide Step, OneLine, Trimmed;
    if Newline(f.buf) < |f.buf| {
      assert OneLine(f.eventType) && Trimmed(f.eventType);
      StepNames(f);
      DrainNames(Step(f).0);
    }
  }

  lemma {:induction false} TwoNewlines(s: string)
    ensures Newlines(s + "\n\n") == Newlines(s) + 2
  {
    NewlinesConcat(s, "\n\n");
    assert "\n\n"[1..] == "\n" && "\n"[1..] == "";
  }

  /** A payload with a newline comes back shorter, if at all. */
  lemma {:induction false} NewlinesShrink(wantRaw: bool, name: string, payload: string)
    requires OneLine(name) && Trimmed(name) && !OneLine(payload)
    ensures DataSize(Drain(Idle(wantRaw, SseEvent(name, payload)))) < |payload|
  {
    hide TakeLine, Step, Drain, Trimmed, Newlines;
    var i := Newline(payload);
    assert i < |payload|;
    var p, q := payload[..i], payload[i + 1..];
    var tail := q + "\n\n";
    var l1, l2 := "event: " + name, "data: " + p;
    var f0 := Idle(wantRaw, SseEvent(name, payload));
    assert payload == p + "\n" + q;
    assert f0.buf == l1 + "\n" + (l2 + "\n" + tail);
    FirstLine(f0, l1, l2 + "\n" + tail);
    EventLine(f0.(buf := l2 + "\n" + tail), name);
    var f1 := Step(f0).0;
    FirstLine(f1, l2, tail);
    FirstDataSize(f1.(buf := tail), p);
    var f2 := Step(f1).0;
    DrainOnce(f0);
    DrainOnce(f1);
    PrependNone(Drain(f1));
    PrependNone(Drain(f2));
    DrainShrinks(f2);
    TwoNewlines(q);
  }

  lemma {:induction false} FirstDataSize(f: Framer, value: string)
    requires f.data == ""
    ensures var r := TakeLine(f, "data: " + value);
            r.1.None? && |r.0.data| <= |value| && (value != "" && value[|value| - 1] == '\r' ==> |r.0.data| < |value|)
  {
    var line := "data: " + value;
    var text := TrimSuffixCR(line);
    assert line[0] == 'd' && line[..|DATA|] == DATA;
    if value != "" {
      assert line[|line| - 1] == value[|value| - 1];
    }
    assert text[0] == 'd' && text[..|DATA|] == DATA;
    assert text[|DATA|] == ' ';
    hide TrimSpace;
  }

  lemma {:induction false} CarriageReturnShrinks(wantRaw: bool, name: string, payload: string)
    requires OneLine(name) && Trimmed(name) && OneLine(payload) && payload != "" && payload[|payload| - 1] == '\r'
    ensures DataSize(Drain(Idle(wantRaw, SseEvent(name, payload)))) < |payload|
  {
    hide TakeLine, Step, Drain, Trimmed;
    var l1, l2 := "event: " + name, "data: " + payload;
    var f0 := Idle(wantRaw, SseEvent(name, payload));
    assert f0.buf == l1 + "\n" + (l2 + "\n" + "\n");
    FirstLine(f0, l1, l2 + "\n" + "\n");
    EventLine(f0.(buf := l2 + "\n" + "\n"), name);
    var f1 := Step(f0).0;
    FirstLine(f1, l2, "\n");
    FirstDataSize(f1.(buf := "\n"), payload);
    var f2 := Step(f1).0;
    DrainOnce(f0);
    DrainOnce(f1);
    PrependNone(Drain(f1));
    PrependNone(Drain(f2));
    DrainShrinks(f2);
    assert "\n"[1..] == "";
  }

  /** The exact condition of the round trip, for every name and payload. */
  lemma {:induction false} ReadsBackIffClean(wantRaw: bool, name: string, payload: string)
    ensures Parts(Drain(Idle(wantRaw, SseEvent(name, payload))).0) == [(name, payload)] <==> Clean(name, payload)
  {
    hide Step, Drain, SseEvent, Trimmed, OneLine;
    var r := Drain(Idle(wantRaw, SseEvent(name, payload)));
    if Clean(name, payload) {
      assert Render([(name, payload)]) == SseEvent(name, payload) by {
        assert [(name, payload)][1..] == [];
        assert SseEvent(name, payload) + "" == SseEvent(name, payload);
      }
      RenderedReadsBack(wantRaw, [(name, payload)]);
    } else if Parts(r.0) == [(name, payload)] {
      OnePart(r.0, name, payload);
      assert NamesOk(Idle(wantRaw, SseEvent(name, payload))) by {
        BlankName();
      }
      DrainNames(Idle(wantRaw, SseEvent(name, payload)));
      if !OneLine(payload) {
        NewlinesShrink(wantRaw, name, payload);
      } else {
        CarriageReturnShrinks(wantRaw, name, payload);
      }
    }
  }

  lemma {:induction false} BlankName()
    ensures OneLine("") && Trimmed("")
  {
  }

  lemma {:induction false} OnePart(frames: seq<Frame>, name: string, payload: string)
    requires Parts(frames) == [(name, payload)]
    ensures |frames| == 1 && frames[0].eventType == name && frames[0].data == payload && FramesSize(frames) == |payload|
  {
    assert Parts(frames)[1..] == Parts(frames[1..]);
    assert Parts(frames)[0] == (name, payload);
  }

  // ---- against section 9.2.6 of the WHATWG HTML standard ----

  /** How the standard assembles data lines: joined with newlines, empty ones included. */
  function Joined(values: seq<string>): string {
    if |values| == 0 then "" else if |values| == 1 then values[0]
    else Joined(values[..|values| - 1]) + "\n" + values[|values| - 1]
  }

  /** How the framer does. */
  function Framed(values: seq<string>): string {
    if values == [] then "" else JoinData(Framed(values[..|values| - 1]), values[|values| - 1])
  }

  /** The framer agrees with the standard exactly when the first data line is
      not empty, or is the only one. */
  lemma {:induction false} FramedIsJoinedIff(values: seq<string>)
    ensures Framed(values) == Joined(values) <==> |values| <= 1 || values[0] != ""
    ensures values != [] && values[0] != "" ==> Framed(values) != ""
    ensures |Framed(values)| <= |Joined(values)|
  {
    if |values| == 1 {
      assert values[..0] == [];
    } else if |values| > 1 {
      var shorter, last := values[..|values| - 1], values[|values| - 1];
      FramedIsJoinedIff(shorter);
      assert shorter[0] == values[0];
      if values[0] != "" {
        assert Framed(shorter) == Joined(shorter);
      } else if Framed(shorter) != "" {
        assert Framed(values) == Framed(shorter) + "\n" + last;
        JoinedDiffers(Framed(shorter), Joined(shorter), last);
      }
    }
  }

  lemma {:induction false} JoinedDiffers(a: string, b: string, last: string)
    requires a != b
    ensures a + "\n" + last != b + "\n" + last
  {
    assert (a + "\n" + last)[..|a|] == a;
    assert (b + "\n" + last)[..|b|] == b;
    assert |a + "\n" + last| - |b + "\n" + last| == |a| - |b|;
  }

  /** The lines of one frame's data. */
  function DataLines(values: seq<string>): string {
    if values == [] then "" else DataLines(values[..|values| - 1]) + ("data: " + values[|values| - 1] + "\n")
  }

  /** What the framer holds after any data lines is what Framed says. */
  lemma {:induction false} DataLinesAreFramed(wantRaw: bool, values: seq<string>)
    requires forall i :: 0 <= i < |values| ==> Clean("", values[i])
    ensures var r := Drain(Idle(wantRaw, DataLines(values)));
            && r.0 == [] && r.1.buf == "" && r.1.data == Framed(values) && r.1.eventType == "" && (r.1.sawFrame <==> values != [])
  {
    hide Step, TakeLine, Drain;
    if values == [] {
      DrainOfNothing(Idle(wantRaw, ""));
    } else {
      var n := |values| - 1;
      var line := "data: " + values[n];
      DataLinesAreFramed(wantRaw, values[..n]);
      var f := Idle(wantRaw, DataLines(values[..n]));
      DrainSplit(f, line + "\n");
      var g := Pushed(Drain(f).1, line + "\n");
      assert g.buf == line + "\n" + "";
      FirstLine(g, line, "");
      DataLine(g.(buf := ""), values[n]);
      DrainOnce(g);
      PrependNone(Drain(Step(g).0));
      DrainOfNothing(Step(g).0);
    }
  }

  lemma {:induction false} DrainOfNothing(f: Framer)
    requires f.buf == ""
    ensures Drain(f) == ([], f)
  {
  }

  /** A lone carriage return ends a line in the standard; here it is data. */
  lemma {:induction false} LoneCarriageReturnIsData(wantRaw: bool)
    ensures var r := Drain(Idle(wantRaw, SseEvent("e", "a\rb")));
            Parts(r.0) == [("e", "a\rb")]
  {
    assert Clean("e", "a\rb");
    hide Clean, Drain, SseEvent;
    ReadsBackIffClean(wantRaw, "e", "a\rb");
  }

  // ---- the framer as an object ----

  class SseFramer {
    var buf: string
    var eventType: string
    var data: string
    var sawFrame: bool
    const wantRaw: bool
    var raw: string

    ghost function State(): Framer
      reads this
    {
      Framer(buf, eventType, data, sawFrame, wantRaw, raw)
    }

    constructor (wantRaw: bool)
      ensures State() == Idle(wantRaw, "")
    {
      this.wantRaw := wantRaw;
      buf, eventType, data, sawFrame, raw := "", "", "", false, "";
    }

    method Push(chunk: string)
      modifies `buf
      ensures State() == Pushed(old(State()), chunk)
    {
      buf := buf + chunk;
    }

    /** What one line without its end does to the frame being collected. */
    method TakeOne(text: string) returns (frame: Option<Frame>)
      modifies `eventType, `data, `sawFrame, `raw
      ensures (State(), frame) == TakeText(old(State()), text)
    {
      frame := None;
      if text == "" {
        if sawFrame {
          frame := Some(Frame(eventType, data, raw));
          eventType, data, sawFrame, raw := "", "", false, "";
        }
      } else if COMMENT <= text {
      } else if EVENT <= text {
        eventType := TrimSpace(text[|EVENT|..]);
        sawFrame := true;
      } else if DATA <= text {
        data := JoinData(data, TrimOneSpace(text[|DATA|..]));
        sawFrame := true;
      }
    }

    /** The next complete frame; None when the buffer needs more input. */
    method Next() returns (frame: Option<Frame>)
      modifies this
      ensures (State(), frame) == Polled(old(State()))
    {
      hide TakeText, TrimSuffixCR;
      ghost var goal := Polled(State());
      while true
        invariant goal == Polled(State())
        decreases |buf|
      {
        var i := Newline(buf);
        if i == |buf| {
          return None;
        }
        var line := buf[..i];
        buf := buf[i + 1..];
        if wantRaw {
          raw := raw + line + "\n";
        }
        frame := TakeOne(TrimSuffixCR(line));
        if frame.Some? {
          return;
        }
      }
    }
  }
}
