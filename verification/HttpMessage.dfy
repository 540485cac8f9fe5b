/** What the two HTTP request parsers share: bytes and character classes, the parsed request, and the
    loop that feeds a parser one byte at a time. */
module HttpMessage {
  import opened Wrappers

  type Byte = c: char | c as int < 256

  type Bytes = seq<Byte>

  datatype Header = Header(name: Bytes, value: Bytes)

  /** The version numbers are unbounded here; the program keeps them in an `int`. */
  datatype Request = Request(method_: Bytes, uri: Bytes, major: int, minor: int, headers: seq<Header>, content: Bytes)

  const NO_REQUEST := Request([], [], 0, 0, [], [])

  datatype Tribool = True | False | Indeterminate

  // ---------------------------------------------------------------- character classes (section 2.2 of RFC 1945)

  predicate IsChar(c: Byte) {
    c as int <= 127
  }

  predicate IsCtl(c: Byte) {
    c as int <= 31 || c as int == 127
  }

  predicate IsTspecial(c: Byte) {
    c in "()<>@,;:\\\"/[]?={} \t"
  }

  predicate IsDigit(c: Byte) {
    '0' <= c <= '9'
  }

  predicate IsTokenChar(c: Byte) {
    IsChar(c) && !IsCtl(c) && !IsTspecial(c)
  }

  predicate IsToken(s: Bytes) {
    s != [] && forall i :: 0 <= i < |s| ==> IsTokenChar(s[i])
  }

  predicate HasNoCtl(s: Bytes) {
    forall i :: 0 <= i < |s| ==> !IsCtl(s[i])
  }

  predicate IsSevenBit(s: Bytes) {
    forall i :: 0 <= i < |s| ==> IsChar(s[i])
  }

  function Digit(n: int, c: Byte): int {
    n * 10 + c as int - '0' as int
  }

  /** The header list after a byte is added to the name, or to the value, of the last header. */
  function AddToName(hs: seq<Header>, c: Byte): seq<Header>
    requires hs != []
  {
    hs[|hs| - 1 := hs[|hs| - 1].(name := hs[|hs| - 1].name + [c])]
  }

  function AddToValue(hs: seq<Header>, c: Byte): seq<Header>
    requires hs != []
  {
    hs[|hs| - 1 := hs[|hs| - 1].(value := hs[|hs| - 1].value + [c])]
  }

  // ---------------------------------------------------------------- the parse loop

  /** The state reached, the verdict, and the number of bytes consumed. */
  datatype Outcome<S> = Outcome(state: S, verdict: Tribool, used: nat)

  /** Bytes are consumed until one of them gives a definite verdict. */
  function Parse<S>(step: (S, Byte) -> (S, Tribool), s: S, input: Bytes): (r: Outcome<S>)
    ensures r.used <= |input| && (r.verdict == Indeterminate ==> r.used == |input|)
    decreases |input|
  {
    if input == [] then Outcome(s, Indeterminate, 0)
    else
      var (s', v) := step(s, input[0]);
      if v != Indeterminate then Outcome(s', v, 1)
      else
        var r := Parse(step, s', input[1..]);
        Outcome(r.state, r.verdict, r.used + 1)
  }

  /** Parsing may stop after a chunk and resume with the next: only an undecided parse goes on. */
  lemma {:induction false} ParseConcat<S>(step: (S, Byte) -> (S, Tribool), s: S, a: Bytes, b: Bytes)
    ensures var r := Parse(step, s, a);
      Parse(step, s, a + b) ==
      if r.verdict != Indeterminate then r
      else Outcome(Parse(step, r.state, b).state, Parse(step, r.state, b).verdict, |a| + Parse(step, r.state, b).used)
    decreases |a|
  {
    if a == [] {
      assert a + b == b;
    } else {
      assert (a + b)[0] == a[0] && (a + b)[1..] == a[1..] + b;
      ParseConcat(step, step(s, a[0]).0, a[1..], b);
    }
  }

  /** One more byte after an undecided prefix. */
  lemma ParseSnoc<S>(step: (S, Byte) -> (S, Tribool), s: S, input: Bytes, n: nat)
    requires n < |input| && Parse(step, s, input[..n]).verdict == Indeterminate
    ensures var (s', v) := step(Parse(step, s, input[..n]).state, input[n]);
      Parse(step, s, input[..n + 1]) == Outcome(s', v, n + 1)
  {
    var p, c := Parse(step, s, input[..n]).state, input[n];
    ParseConcat(step, s, input[..n], [c]);
    assert input[..n + 1] == input[..n] + [c];
    assert [c][1..] == [];
    assert Parse(step, step(p, c).0, [c][1..]) == Outcome(step(p, c).0, Indeterminate, 0);
  }

  /** A definite verdict on a prefix is the verdict on the whole. */
  lemma ParseDecided<S>(step: (S, Byte) -> (S, Tribool), s: S, input: Bytes, n: nat)
    requires n <= |input| && Parse(step, s, input[..n]).verdict != Indeterminate
    ensures Parse(step, s, input) == Parse(step, s, input[..n])
  {
    assert input == input[..n] + input[n..];
    ParseConcat(step, s, input[..n], input[n..]);
  }

  function Flatten(chunks: seq<Bytes>): Bytes {
    if chunks == [] then [] else chunks[0] + Flatten(chunks[1..])
  }

  /** A parser that is given its input chunk by chunk, until it decides. */
  function ParseChunks<S>(step: (S, Byte) -> (S, Tribool), s: S, chunks: seq<Bytes>): Outcome<S>
    decreases |chunks|
  {
    if chunks == [] then Outcome(s, Indeterminate, 0)
    else
      var r := Parse(step, s, chunks[0]);
      if r.verdict != Indeterminate then r
      else
        var q := ParseChunks(step, r.state, chunks[1..]);
        Outcome(q.state, q.verdict, r.used + q.used)
  }

  /** How the input is cut into chunks does not matter. */
  lemma {:induction false} ChunksDoNotMatter<S>(step: (S, Byte) -> (S, Tribool), s: S, chunks: seq<Bytes>)
    ensures ParseChunks(step, s, chunks) == Parse(step, s, Flatten(chunks))
    decreases |chunks|
  {
    if chunks != [] {
      var r := Parse(step, s, chunks[0]);
      ParseConcat(step, s, chunks[0], Flatten(chunks[1..]));
      if r.verdict == Indeterminate {
        ChunksDoNotMatter(step, r.state, chunks[1..]);
      }
    }
  }
}
