/** The line buffer both stream converters share: bytes arrive in arbitrary
    pieces, complete lines go to a handler until it fails or reports done. */
module LineFeed {
  import opened Common

  /** Handler state, the buffered partial line, and the error that ended it. */
  datatype Fed<S, E> = Fed(state: S, rest: string, error: Option<E>)

  /** A line handler and the end-of-stream flag of its state. */
  datatype Handler<!S, !E> = Handler(line: (S, string) -> Result<S, E>, done: S -> bool)

  /** Position of the first newline, or the length when there is none. */
  function Newline(buf: string): (i: nat)
    ensures i <= |buf|
    ensures forall j :: 0 <= j < i ==> buf[j] != '\n'
    ensures i < |buf| ==> buf[i] == '\n'
  {
    if buf == "" || buf[0] == '\n' then 0 else 1 + Newline(buf[1..])
  }

  /** Handle every complete line of `buf` in turn. */
  function Drain<S, E>(h: Handler<S, E>, state: S, buf: string): Fed<S, E>
    decreases |buf|
  {
    var i := Newline(buf);
    if i == |buf| then Fed(state, buf, None)
    else
      var rest := buf[i + 1..];
      match h.line(state, TrimSuffixCR(buf[..i]))
      case Err(e) => Fed(state, rest, Some(e))
      case Ok(next) => if h.done(next) then Fed(next, rest, None) else Drain(h, next, rest)
  }

  /** One round of the drain loop. */
  lemma {:induction false} DrainStep<S, E>(h: Handler<S, E>, state: S, buf: string)
    ensures var i := Newline(buf);
            Drain(h, state, buf) ==
              if i == |buf| then Fed(state, buf, None)
              else
                match h.line(state, TrimSuffixCR(buf[..i]))
                case Err(e) => Fed(state, buf[i + 1..], Some(e))
                case Ok(next) => if h.done(next) then Fed(next, buf[i + 1..], None) else Drain(h, next, buf[i + 1..])
  {
  }

  function Feed<S, E>(h: Handler<S, E>, fed: Fed<S, E>, chunk: string): Fed<S, E> {
    if fed.error.Some? || h.done(fed.state) then fed else Drain(h, fed.state, fed.rest + chunk)
  }

  function FeedAll<S, E>(h: Handler<S, E>, fed: Fed<S, E>, chunks: seq<string>): Fed<S, E> {
    if chunks == [] then fed else Feed(h, FeedAll(h, fed, chunks[..|chunks| - 1]), chunks[|chunks| - 1])
  }

  /** Equal in everything a caller can still observe: the buffer of a finished
      or failed feed is never read again. */
  ghost predicate Same<S, E>(h: Handler<S, E>, a: Fed<S, E>, b: Fed<S, E>) {
    a.state == b.state && a.error == b.error && (a.error.None? && !h.done(a.state) ==> a.rest == b.rest)
  }

  lemma {:induction false} NewlineAt(buf: string, i: nat)
    requires i < |buf| && buf[i] == '\n' && forall j :: 0 <= j < i ==> buf[j] != '\n'
    ensures Newline(buf) == i
  {
    if i == 0 {
    } else {
      NewlineAt(buf[1..], i - 1);
    }
  }

  lemma {:induction false} NoNewline(buf: string)
    requires forall j :: 0 <= j < |buf| ==> buf[j] != '\n'
    ensures Newline(buf) == |buf|
  {
    if buf == "" {
    } else {
      NoNewline(buf[1..]);
    }
  }

  /** Draining two pieces one after the other is draining them at once. */
  lemma {:induction false} DrainSplit<S, E>(h: Handler<S, E>, state: S, a: string, b: string)
    requires !h.done(state)
    ensures var first := Drain(h, state, a);
            Same(h, if first.error.Some? || h.done(first.state) then first else Drain(h, first.state, first.rest + b),
                    Drain(h, state, a + b))
    decreases |a|
  {
    var i := Newline(a);
    if i < |a| {
      NewlineAt(a + b, i);
      assert (a + b)[..i] == a[..i] && (a + b)[i + 1..] == a[i + 1..] + b;
      var o := h.line(state, TrimSuffixCR(a[..i]));
      if o.Ok? && !h.done(o.value) {
        DrainSplit(h, o.value, a[i + 1..], b);
      }
    }
  }

  /** What a drain leaves buffered holds no complete line. */
  lemma {:induction false} RestIsPartial<S, E>(h: Handler<S, E>, state: S, buf: string)
    ensures var fed := Drain(h, state, buf);
            fed.error.None? && !h.done(fed.state) && !h.done(state) ==> Newline(fed.rest) == |fed.rest|
    decreases |buf|
  {
    var i := Newline(buf);
    if i < |buf| {
      var o := h.line(state, TrimSuffixCR(buf[..i]));
      if o.Ok? && !h.done(o.value) {
        RestIsPartial(h, o.value, buf[i + 1..]);
      }
    }
  }

  lemma {:induction false} FeedSplit<S, E>(h: Handler<S, E>, fed: Fed<S, E>, a: string, b: string)
    ensures Same(h, Feed(h, Feed(h, fed, a), b), Feed(h, fed, a + b))
  {
    if fed.error.None? && !h.done(fed.state) {
      assert fed.rest + (a + b) == (fed.rest + a) + b;
      DrainSplit(h, fed.state, fed.rest + a, b);
    }
  }

  function Concat(chunks: seq<string>): string {
    if chunks == [] then "" else Concat(chunks[..|chunks| - 1]) + chunks[|chunks| - 1]
  }

  lemma {:induction false} FeedSame<S, E>(h: Handler<S, E>, a: Fed<S, E>, b: Fed<S, E>, chunk: string)
    requires Same(h, a, b)
    ensures Same(h, Feed(h, a, chunk), Feed(h, b, chunk))
  {
  }

  /** However the bytes are cut into pieces, the result is that of one piece. */
  lemma {:induction false} AnySplit<S, E>(h: Handler<S, E>, state: S, chunks: seq<string>)
    ensures Same(h, FeedAll(h, Fed(state, "", None), chunks), Feed(h, Fed(state, "", None), Concat(chunks)))
  {
    var start: Fed<S, E> := Fed(state, "", None);
    if chunks == [] {
      NoNewline("");
    } else {
      var n := |chunks| - 1;
      AnySplit(h, state, chunks[..n]);
      FeedSame(h, FeedAll(h, start, chunks[..n]), Feed(h, start, Concat(chunks[..n])), chunks[n]);
      FeedSplit(h, start, Concat(chunks[..n]), chunks[n]);
    }
  }
}
