/** The framer's line ends against those of section 9.2.6 of the WHATWG HTML
    standard, and what the framer makes of a whole text. */
module SseLines {
  import opened Common
  import LineFeed
  import opened SseFraming

  /** Text that ends in a newline, or is empty. */
  predicate Ended(text: string) { text == "" || text[|text| - 1] == '\n' }

  /** The framer's lines: cut at newlines, one carriage return before each dropped. */
  function FramerLines(text: string): seq<string>
    decreases |text|
  {
    var i := LineFeed.Newline(text);
    if i == |text| then [] else [TrimSuffixCR(text[..i])] + FramerLines(text[i + 1..])
  }

  /** Position of the first line end of any kind, or the length when there is none. */
  function LineEnd(text: string): (i: nat)
    ensures i <= |text|
    ensures forall j :: 0 <= j < i ==> text[j] != '\n' && text[j] != '\r'
    ensures i < |text| ==> text[i] == '\n' || text[i] == '\r'
  {
    if text == "" || text[0] == '\n' || text[0] == '\r' then 0 else 1 + LineEnd(text[1..])
  }

  /** The characters of the line end at `i`: two for a carriage return and newline. */
  function EndSize(text: string, i: nat): (n: nat)
    requires i < |text|
    ensures 1 <= n <= |text| - i
  {
    if text[i] == '\r' && i + 1 < |text| && text[i + 1] == '\n' then 2 else 1
  }

  /** The standard's lines: each ends at a carriage return, a newline, or the pair. */
  function StandardLines(text: string): seq<string>
    decreases |text|
  {
    var i := LineEnd(text);
    if i == |text| then [] else [text[..i]] + StandardLines(text[i + EndSize(text, i)..])
  }

  /** Every carriage return is followed by a newline. */
  predicate Paired(text: string) {
    forall i :: 0 <= i < |text| && text[i] == '\r' ==> i + 1 < |text| && text[i + 1] == '\n'
  }

  /** The first line of both kinds ends at the same newline. */
  predicate SameCut(text: string) {
    var j := LineEnd(text);
    j < |text| && j + EndSize(text, j) == LineFeed.Newline(text) + 1
  }

  lemma {:induction false} EndedCuts(text: string)
    requires Ended(text) && text != ""
    ensures LineFeed.Newline(text) < |text| && LineEnd(text) <= LineFeed.Newline(text) && Ended(text[LineFeed.Newline(text) + 1..])
    ensures text[..LineFeed.Newline(text) + 1][LineFeed.Newline(text)] == '\n'
  {
    assert text[|text| - 1] == '\n';
  }

  /** Up to a common cut both have the same line, without a carriage return. */
  lemma {:induction false} SameFirstLine(text: string)
    requires Ended(text) && text != "" && SameCut(text)
    ensures text[..LineEnd(text)] == TrimSuffixCR(text[..LineFeed.Newline(text)])
  {
    EndedCuts(text);
    var i, j := LineFeed.Newline(text), LineEnd(text);
    if j < i {
      assert j == i - 1 && text[..i][i - 1] == '\r' && text[..i][..i - 1] == text[..j];
    } else {
      assert j == i && (j > 0 ==> text[..i][j - 1] != '\r');
    }
  }

  /** Otherwise a lone carriage return cut the standard's line short. */
  lemma {:induction false} OtherFirstLine(text: string)
    requires Ended(text) && text != "" && !SameCut(text)
    ensures |text[..LineEnd(text)]| < |TrimSuffixCR(text[..LineFeed.Newline(text)])| && !Paired(text)
  {
    EndedCuts(text);
    var j := LineEnd(text);
    assert text[j] == '\r' && text[j + 1] != '\n';
  }

  /** A common cut leaves the pairing of carriage returns to the rest. */
  lemma {:induction false} PairedRest(text: string)
    requires Ended(text) && text != "" && SameCut(text)
    ensures Paired(text) <==> Paired(text[LineFeed.Newline(text) + 1..])
  {
    EndedCuts(text);
    var n := LineFeed.Newline(text) + 1;
    var rest := text[n..];
    assert forall i :: 0 <= i < |rest| ==> rest[i] == text[n + i];
    if Paired(rest) {
      forall i | 0 <= i < |text| && text[i] == '\r'
        ensures i + 1 < |text| && text[i + 1] == '\n'
      {
        if i >= n {
          assert rest[i - n] == '\r';
        } else {
          assert i == LineEnd(text);
        }
      }
    }
  }

  /** The framer reads the standard's lines exactly from the texts in which every
      carriage return is followed by a newline. */
  lemma {:induction false} LinesAgreeIffPaired(text: string)
    requires Ended(text)
    ensures FramerLines(text) == StandardLines(text) <==> Paired(text)
    decreases |text|
  {
    if text == "" {
    } else {
      EndedCuts(text);
      var rest := text[LineFeed.Newline(text) + 1..];
      assert FramerLines(text) == [TrimSuffixCR(text[..LineFeed.Newline(text)])] + FramerLines(rest);
      if SameCut(text) {
        SameFirstLine(text);
        PairedRest(text);
        LinesAgreeIffPaired(rest);
        var line := text[..LineEnd(text)];
        assert StandardLines(text) == [line] + StandardLines(rest);
        assert ([line] + FramerLines(rest))[1..] == FramerLines(rest) && ([line] + StandardLines(rest))[1..] == StandardLines(rest);
      } else {
        OtherFirstLine(text);
        assert StandardLines(text)[0] == text[..LineEnd(text)] && FramerLines(text)[0] == TrimSuffixCR(text[..LineFeed.Newline(text)]);
      }
    }
  }

  // ---- the framer reads its lines ----

  /** Taking lines one after another. */
  function TakeAll(f: Framer, lines: seq<string>): (seq<Frame>, Framer)
    decreases |lines|
  {
    if lines == [] then ([], f)
    else
      var r := TakeText(f, lines[0]);
      Prepend(r.1, TakeAll(r.0, lines[1..]))
  }

  /** Draining a text that ends in a newline takes exactly its framer lines. */
  lemma {:induction false} DrainTakesLines(f: Framer)
    requires !f.wantRaw && Ended(f.buf)
    ensures Drain(f) == TakeAll(f.(buf := ""), FramerLines(f.buf))
    decreases |f.buf|
  {
    hide Prepend, TakeText;
    if f.buf == "" {
    } else {
      EndedCuts(f.buf);
      var i := LineFeed.Newline(f.buf);
      var line, rest := TrimSuffixCR(f.buf[..i]), f.buf[i + 1..];
      DrainOnce(f);
      assert Step(f) == TakeText(f.(buf := rest), line);
      TextIgnoresBuffer(f, rest, line);
      DrainTakesLines(TakeText(f.(buf := rest), line).0);
      var lines := [line] + FramerLines(rest);
      assert lines[1..] == FramerLines(rest);
      assert FramerLines(f.buf) == lines;
    }
  }

  lemma {:induction false} TextIgnoresBuffer(f: Framer, rest: string, line: string)
    ensures var r, q := TakeText(f.(buf := rest), line), TakeText(f.(buf := ""), line);
            r.1 == q.1 && r.0.(buf := "") == q.0 && r.0.buf == rest
  {
  }

  /** So on paired texts the framer takes exactly the standard's lines. */
  lemma {:induction false} PairedTextIsStandard(text: string)
    requires Ended(text) && Paired(text)
    ensures Drain(Idle(false, text)) == TakeAll(Idle(false, ""), StandardLines(text))
  {
    hide Drain, TakeAll, FramerLines, StandardLines;
    DrainTakesLines(Idle(false, text));
    LinesAgreeIffPaired(text);
  }

  // ---- an empty first data line ----

  /** The bytes of two data lines, the first one empty: the standard's data is a
      newline and a, the framer's is a. */
  lemma {:induction false} EmptyFirstLineIsLost()
    ensures var r := Drain(Idle(false, "data: \ndata: a\n\n"));
            |r.0| == 1 && r.0[0].data == "a" && Joined(["", "a"]) == "\na"
  {
    hide Drain, Prepend, TakeText, TakeLine;
    var f0, f1 := Idle(false, "data: \ndata: a\n\n"), Framer("data: a\n\n", "", "", true, false, "");
    var f2 := Framer("\n", "", "a", true, false, "");
    assert f0.buf == "data: " + "\n" + "data: a\n\n" && f1.buf == "data: a" + "\n" + "\n" && f2.buf == "" + "\n" + "";
    assert "data: " == "data: " + "" && "data: a" == "data: " + "a";
    LineDrains(f0, "data: ", "data: a\n\n");
    TakesData(f0.(buf := "data: a\n\n"), "");
    LineDrains(f1, "data: a", "\n");
    TakesData(f1.(buf := "\n"), "a");
    LineDrains(f2, "", "");
    BlankLine(f2.(buf := ""));
    DrainOfNothing(Idle(false, ""));
    PrependNone(Drain(f1));
    PrependNone(Drain(f2));
    PrependsOne(TakeLine(f2.(buf := ""), "").1, Drain(Idle(false, "")));
    assert ["", "a"][..1] == [""];
  }

  lemma {:induction false} PrependsOne(head: Option<Frame>, rest: (seq<Frame>, Framer))
    requires head.Some? && rest.0 == []
    ensures Prepend(head, rest).0 == [head.value]
  {
  }

  /** A data line of a framer without raw capture. */
  lemma {:induction false} TakesData(f: Framer, payload: string)
    requires !f.wantRaw && (payload != "" ==> payload[|payload| - 1] != '\r')
    ensures TakeLine(f, "data: " + payload) == (f.(data := JoinData(f.data, payload), sawFrame := true), None)
  {
    var line := "data: " + payload;
    if payload != "" {
      assert line[|line| - 1] == payload[|payload| - 1];
    }
    assert TrimSuffixCR(line) == line;
    assert line[0] == 'd' && line[..|DATA|] == DATA && line[|DATA|..] == " " + payload;
    assert (" " + payload)[1..] == payload;
    hide TrimSpace, TrimSuffixCR;
  }
}
