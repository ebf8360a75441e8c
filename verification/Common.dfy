/** Shared vocabulary: optional values, fallible results and the few text
    helpers of the Go standard library the adapters rely on. */
module Common {

  datatype Option<+T> = None | Some(value: T)

  /** Success or a classified failure; usable with `:-`. */
  datatype Result<+T, +E> = Ok(value: T) | Err(error: E) {
    predicate IsFailure() {
      Err?
    }

    function PropagateFailure<U>(): Result<U, E>
      requires Err?
    {
      Err(error)
    }

    function Extract(): T
      requires Ok?
    {
      value
    }
  }

  /** The white space of one byte. */
  predicate IsSpace(c: char) {
    c == ' ' || c == '\t' || c == '\n' || c == '\r' || c == '\U{0B}' || c == '\U{0C}'
  }

  /** U+0085 and U+00A0 in their two bytes. */
  predicate IsSpace2(a: char, b: char) { a == '\U{C2}' && (b == '\U{85}' || b == '\U{A0}') }

  /** The other Unicode spaces, in their three bytes. */
  predicate IsSpace3(a: char, b: char, c: char) {
    || (a == '\U{E1}' && b == '\U{9A}' && c == '\U{80}')
    || (a == '\U{E2}' && b == '\U{80}' && ('\U{80}' <= c <= '\U{8A}' || c == '\U{A8}' || c == '\U{A9}' || c == '\U{AF}'))
    || (a == '\U{E2}' && b == '\U{81}' && c == '\U{9F}')
    || (a == '\U{E3}' && b == '\U{80}' && c == '\U{80}')
  }

  /** Bytes of the white space a string starts with; 0 for none. */
  function LeadSpace(s: string): (n: nat)
    ensures n <= |s|
  {
    if |s| >= 1 && IsSpace(s[0]) then 1
    else if |s| >= 2 && IsSpace2(s[0], s[1]) then 2
    else if |s| >= 3 && IsSpace3(s[0], s[1], s[2]) then 3
    else 0
  }

  /** Bytes of the white space a string ends with; 0 for none. */
  function TailSpace(s: string): (n: nat)
    ensures n <= |s|
  {
    var k := |s|;
    if k >= 1 && IsSpace(s[k - 1]) then 1
    else if k >= 2 && IsSpace2(s[k - 2], s[k - 1]) then 2
    else if k >= 3 && IsSpace3(s[k - 3], s[k - 2], s[k - 1]) then 3
    else 0
  }

  function TrimLeft(s: string): string {
    if LeadSpace(s) > 0 then TrimLeft(s[LeadSpace(s)..]) else s
  }

  function TrimRight(s: string): string {
    if TailSpace(s) > 0 then TrimRight(s[..|s| - TailSpace(s)]) else s
  }

  /** strings.TrimSpace: Unicode white space in its UTF-8 bytes, on both ends. */
  function TrimSpace(s: string): string {
    TrimRight(TrimLeft(s))
  }

  /** A string that TrimSpace leaves alone. */
  predicate Trimmed(s: string) {
    LeadSpace(s) == 0 && TailSpace(s) == 0
  }

  lemma {:induction false} TrimmedStays(s: string)
    requires Trimmed(s)
    ensures TrimSpace(s) == s
  {
  }

  /** The absent-arguments policy: blank or null tool arguments become {}. */
  function DefaultArgs(args: string): string {
    var s := TrimSpace(args);
    if s == "" || s == "null" then "{}" else args
  }

  function TrimSuffixCR(line: string): string {
    if line != "" && line[|line| - 1] == '\r' then line[..|line| - 1] else line
  }

  // ---- trimming ----

  lemma {:induction false} LeadingSpaces(pad: string, s: string)
    requires forall i :: 0 <= i < |pad| ==> IsSpace(pad[i])
    ensures TrimSpace(pad + s) == TrimSpace(s)
  {
    if pad == "" {
      assert pad + s == s;
    } else {
      LeadingSpaces(pad[1..], s);
      assert (pad + s)[1..] == pad[1..] + s;
    }
  }

  /** Blank and null arguments, and only these, become the empty object. */
  lemma {:induction false} DefaultArgsIs(args: string)
    ensures DefaultArgs(args) == args || DefaultArgs(args) == "{}"
    ensures TrimSpace(args) != "" && TrimSpace(args) != "null" <==> TrimSpace(DefaultArgs(args)) == TrimSpace(args)
  {
    TrimmedStays("{}");
  }
}
