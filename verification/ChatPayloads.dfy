/** What the bytes of a Chat Completions stream carry, read without a converter. */
module ChatPayloads {
  import opened Common
  import opened ChatChunks
  import opened LineFeed

  /** The payloads of the complete lines before [DONE], and whether it was there. */
  datatype Heard = Heard(payloads: seq<string>, ended: bool)

  function Hear(buf: string): Heard
    decreases |buf|
  {
    var i := Newline(buf);
    if i == |buf| then Heard([], false)
    else
      match Classify(TrimSuffixCR(buf[..i]))
      case Ignored => Hear(buf[i + 1..])
      case Done => Heard([], true)
      case Payload(data) => var rest := Hear(buf[i + 1..]); Heard([data] + rest.payloads, rest.ended)
  }

  /** The chunks of those payloads up to the first that does not decode; `ended`
      says that all decode and [DONE] follows them. */
  datatype Reading = Reading(chunks: seq<Chunk>, ended: bool, error: Option<StreamError>)

  function Decoded(json: Json, heard: Heard): Reading
    decreases |heard.payloads|
  {
    if heard.payloads == [] then Reading([], heard.ended, None)
    else
      match json.decode(heard.payloads[0])
      case Err(e) => Reading([], false, Some(e))
      case Ok(chunk) => After([chunk], Decoded(json, Heard(heard.payloads[1..], heard.ended)))
  }

  function Read(json: Json, buf: string): Reading { Decoded(json, Hear(buf)) }

  /** The reading that continues some chunks. */
  function After(chunks: seq<Chunk>, r: Reading): Reading { r.(chunks := chunks + r.chunks) }

  lemma {:induction false} AfterAfter(a: seq<Chunk>, b: seq<Chunk>, r: Reading)
    ensures After(a, After(b, r)) == After(a + b, r) && After([], r) == r
  {
    assert a + (b + r.chunks) == (a + b) + r.chunks;
  }

  /** A reading that fails has not ended. */
  lemma {:induction false} EndsOrFails(json: Json, heard: Heard)
    ensures Decoded(json, heard).ended ==> Decoded(json, heard).error.None?
    decreases |heard.payloads|
  {
    if heard.payloads == [] {
    } else if json.decode(heard.payloads[0]).Ok? {
      EndsOrFails(json, Heard(heard.payloads[1..], heard.ended));
    }
  }

  lemma {:induction false} ReadingEndsOrFails(json: Json, buf: string)
    ensures Read(json, buf).ended ==> Read(json, buf).error.None?
  {
    EndsOrFails(json, Hear(buf));
  }

  /** Reading one line. */
  lemma {:induction false} ReadLine(json: Json, buf: string)
    ensures var i := Newline(buf);
            Read(json, buf) ==
              if i == |buf| then Reading([], false, None)
              else
                match Classify(TrimSuffixCR(buf[..i]))
                case Ignored => Read(json, buf[i + 1..])
                case Done => Reading([], true, None)
                case Payload(data) =>
                  match json.decode(data)
                  case Err(e) => Reading([], false, Some(e))
                  case Ok(chunk) => After([chunk], Read(json, buf[i + 1..]))
  {
    hide Classify;
    var i := Newline(buf);
    if i < |buf| && Classify(TrimSuffixCR(buf[..i])).Payload? {
      var data, rest := Classify(TrimSuffixCR(buf[..i])).data, Hear(buf[i + 1..]);
      assert ([data] + rest.payloads)[1..] == rest.payloads;
    }
  }

  /** A line is a payload exactly if it is a data line with something in it other
      than the closing mark. */
  lemma {:induction false} DataLineIs(pad: string, text: string)
    requires (forall i :: 0 <= i < |pad| ==> IsSpace(pad[i])) && Trimmed(text)
    ensures Classify("data:" + pad + text) == if text == "" then Ignored else if text == "[DONE]" then Done else Payload(text)
    ensures forall line :: !("data:" <= line) ==> Classify(line) == Ignored
  {
    var line := "data:" + pad + text;
    assert line[|"data:"|..] == pad + text;
    LeadingSpaces(pad, text);
    TrimmedStays(text);
    hide TrimSpace;
  }

  /** So what the bytes of a stream say: line by line, data up to the closing mark. */
  lemma {:induction false} HeardLineByLine(pad: string, text: string, rest: string)
    requires (forall i :: 0 <= i < |pad| ==> pad[i] == ' ') && Trimmed(text) && '\n' !in text
    ensures var heard := Hear("data:" + pad + text + "\n" + rest);
            if text == "" then heard == Hear(rest)
            else if text == "[DONE]" then heard == Heard([], true)
            else heard == Heard([text] + Hear(rest).payloads, Hear(rest).ended)
  {
    var line := "data:" + pad + text;
    var buf := line + "\n" + rest;
    assert buf[|line|] == '\n' && buf[..|line|] == line && buf[|line| + 1..] == rest;
    assert forall j :: 0 <= j < |line| ==> buf[j] == line[j] && line[j] != '\n' by {
      assert "data:" == ['d', 'a', 't', 'a', ':'];
    }
    NewlineAt(buf, |line|);
    NoReturn(pad, text);
    DataLineIs(pad, text);
    hide Classify;
  }

  lemma {:induction false} NoReturn(pad: string, text: string)
    requires (forall i :: 0 <= i < |pad| ==> pad[i] == ' ') && Trimmed(text)
    ensures TrimSuffixCR("data:" + pad + text) == "data:" + pad + text
  {
    var line := "data:" + pad + text;
    if text != "" {
      assert line[|line| - 1] == text[|text| - 1];
    } else if pad != "" {
      assert line[|line| - 1] == pad[|pad| - 1];
    } else {
      assert line[|line| - 1] == "data:"[4];
    }
  }
}
