/** When the switch parser and the coroutine parser agree.

    They agree on a whole input exactly if the URI is not empty, no header value has a byte above 127,
    and an accepted request has no effective Content-Length.  The condition is read off the result of
    the switch parser alone.
*/
module ParserAgreement {
  import opened HttpMessage
  import Sw = SwitchParser
  import Co = CoroutineParser

  /** The point at which the coroutine waits when the switch parser is in a given state. */
  function PointOf(s: Sw.State): Co.Point {
    match s
    case MethodStart => Co.Begin
    case Method => Co.MethodNext
    case Uri => Co.UriNext
    case HttpVersionH => Co.ProtocolH
    case HttpVersionT1 => Co.ProtocolT1
    case HttpVersionT2 => Co.ProtocolT2
    case HttpVersionP => Co.ProtocolP
    case HttpVersionSlash => Co.Slash
    case HttpVersionMajorStart => Co.MajorStart
    case HttpVersionMajor => Co.MajorNext
    case HttpVersionMinorStart => Co.MinorStart
    case HttpVersionMinor => Co.MinorNext
    case ExpectingNewline1 => Co.Newline1
    case HeaderLineStart => Co.Headers
    case HeaderLws => Co.LwsNext
    case HeaderName => Co.NameNext
    case SpaceBeforeHeaderValue => Co.Space
    case HeaderValue => Co.ValueNext
    case ExpectingNewline2 => Co.Newline2
    case ExpectingNewline3 => Co.Newline3
  }

  predicate BeforeVersion(s: Sw.State) {
    s in {Sw.MethodStart, Sw.Method, Sw.Uri, Sw.HttpVersionH, Sw.HttpVersionT1, Sw.HttpVersionT2, Sw.HttpVersionP,
          Sw.HttpVersionSlash}
  }

  /** The two parsers have read the same input and agree so far. */
  ghost predicate Sim(a: Sw.Parser, b: Co.Parser) {
    && Sw.Valid(a)
    && b.point == PointOf(a.state)
    && (if a.state == Sw.MethodStart then a.req == NO_REQUEST else b.req == a.req && b.contentLength == 0)
    && a.req.content == []
    && (BeforeVersion(a.state) ==> a.req.major == 0 && a.req.minor == 0)
    && (a.state == Sw.Method ==> a.req.method_ != [])
  }

  predicate LengthIsZero(cast: Co.Cast, hs: seq<Header>) {
    Co.LengthScan(cast, 0, hs) == (true, 0)
  }

  /** The bytes on which the parsers part. */
  predicate Diverges(cast: Co.Cast, a: Sw.Parser, c: Byte) {
    || (a.state == Sw.Uri && a.req.uri == [] && c == ' ')
    || ((a.state == Sw.HeaderValue || (a.state == Sw.HeaderLws && !Co.IsSpace(c))) && !IsChar(c))
    || (a.state == Sw.ExpectingNewline3 && c == '\n' && !LengthIsZero(cast, a.req.headers))
  }

  /** On one byte the verdicts are equal exactly if the byte is not one of those; and then the parsers
      stay together, with equal requests. */
  lemma StepAgreement(cast: Co.Cast, a: Sw.Parser, b: Co.Parser, c: Byte)
    requires Sim(a, b)
    ensures var (a', v) := Sw.Consume(a, c); var (b', w) := Co.Consume(cast, b, c);
      && (v == w <==> !Diverges(cast, a, c))
      && (v == w == Indeterminate ==> Sim(a', b'))
      && (v == w == True ==> b'.req == a'.req)
      && (v != w ==> v != False && w != True)
  {
    if a.state == Sw.HeaderLineStart {
      HeaderLineStep(cast, a, b, c);
    } else if Sw.InHeader(a.state) {
      HeaderStep(cast, a, b, c);
    } else if BeforeVersion(a.state) {
      RequestLineStep(cast, a, b, c);
    }
  }

  lemma RequestLineStep(cast: Co.Cast, a: Sw.Parser, b: Co.Parser, c: Byte)
    requires Sim(a, b) && BeforeVersion(a.state)
    ensures var (a', v) := Sw.Consume(a, c); var (b', w) := Co.Consume(cast, b, c);
      && (v == w <==> !Diverges(cast, a, c)) && v != True && w != True
      && (v == w == Indeterminate ==> Sim(a', b'))
      && (v != w ==> v != False)
  {
  }

  lemma HeaderLineStep(cast: Co.Cast, a: Sw.Parser, b: Co.Parser, c: Byte)
    requires Sim(a, b) && a.state == Sw.HeaderLineStart
    ensures var (a', v) := Sw.Consume(a, c); var (b', w) := Co.Consume(cast, b, c);
      v == w && (v == Indeterminate ==> Sim(a', b')) && v != True
  {
    var hs, n := a.req.headers, |a.req.headers|;
    var x := hs + [Header([], [])];
    assert x[n].name + [c] == [c];
    assert AddToName(x, c) == hs + [Header([c], [])];
  }

  lemma HeaderStep(cast: Co.Cast, a: Sw.Parser, b: Co.Parser, c: Byte)
    requires Sim(a, b) && Sw.InHeader(a.state)
    ensures var (a', v) := Sw.Consume(a, c); var (b', w) := Co.Consume(cast, b, c);
      && (v == w <==> !Diverges(cast, a, c)) && v != True && w != True
      && (v == w == Indeterminate ==> Sim(a', b'))
      && (v != w ==> v != False)
  {
  }

  // ---------------------------------------------------------------- whole inputs

  /** The URI has been read, and it was empty. */
  predicate EmptyUri(a: Sw.Parser) {
    a.state != Sw.MethodStart && a.state != Sw.Method && a.state != Sw.Uri && a.req.uri == []
  }

  ghost predicate SevenBitValues(hs: seq<Header>) {
    forall i :: 0 <= i < |hs| ==> IsSevenBit(hs[i].value)
  }

  /** The condition for agreement, on the outcome of the switch parser. */
  ghost predicate Clean(cast: Co.Cast, r: Outcome<Sw.Parser>) {
    !EmptyUri(r.state) && SevenBitValues(r.state.req.headers)
        && (r.verdict == True ==> LengthIsZero(cast, r.state.req.headers))
  }

  /** The same verdict at the same byte and, on acceptance, the same request. */
  ghost predicate SameOutcome(r: Outcome<Sw.Parser>, q: Outcome<Co.Parser>) {
    r.verdict == q.verdict && r.used == q.used && (r.verdict == True ==> r.state.req == q.state.req)
  }

  lemma StepTaint(a: Sw.Parser, c: Byte)
    requires Sw.Valid(a)
    ensures var a' := Sw.Consume(a, c).0;
      && (EmptyUri(a) ==> EmptyUri(a'))
      && (!SevenBitValues(a.req.headers) ==> !SevenBitValues(a'.req.headers))
  {
    var a' := Sw.Consume(a, c).0;
    if i :| 0 <= i < |a.req.headers| && !IsSevenBit(a.req.headers[i].value) {
      var v, v' := a.req.headers[i].value, a'.req.headers[i].value;
      assert v <= v';
      var k :| 0 <= k < |v| && !IsChar(v[k]);
      assert v'[k] == v[k];
    }
  }

  /** An empty URI, or a byte above 127 in a value, is there to stay. */
  lemma {:induction false} RunTaint(a: Sw.Parser, input: Bytes)
    requires Sw.Valid(a)
    ensures EmptyUri(a) ==> EmptyUri(Sw.Run(a, input).state)
    ensures !SevenBitValues(a.req.headers) ==> !SevenBitValues(Sw.Run(a, input).state.req.headers)
    decreases |input|
  {
    if input != [] {
      StepTaint(a, input[0]);
      RunTaint(Sw.Consume(a, input[0]).0, input[1..]);
    }
  }

  /** A byte on which the parsers stay together leaves the condition as it is; the others violate it. */
  lemma StepClean(cast: Co.Cast, a: Sw.Parser, c: Byte)
    requires Sw.Valid(a) && !EmptyUri(a) && SevenBitValues(a.req.headers)
    ensures var (a', v) := Sw.Consume(a, c);
      && (v != True && !Diverges(cast, a, c) ==> !EmptyUri(a') && SevenBitValues(a'.req.headers))
      && (v != True && Diverges(cast, a, c) ==> EmptyUri(a') || !SevenBitValues(a'.req.headers))
      && (v == True ==> a' == a && (Diverges(cast, a, c) <==> !LengthIsZero(cast, a.req.headers)))
  {
    if (a.state == Sw.HeaderValue || (a.state == Sw.HeaderLws && !Co.IsSpace(c))) && !IsChar(c) {
      HighByte(a.req.headers, c);
    }
  }

  lemma HighByte(hs: seq<Header>, c: Byte)
    requires hs != [] && !IsChar(c)
    ensures !SevenBitValues(AddToValue(hs, c))
  {
    var n := |hs| - 1;
    var v := AddToValue(hs, c)[n].value;
    assert !IsChar(v[|v| - 1]);
  }

  lemma {:induction false} AgreementFrom(cast: Co.Cast, a: Sw.Parser, b: Co.Parser, input: Bytes)
    requires Sim(a, b) && !EmptyUri(a) && SevenBitValues(a.req.headers)
    ensures SameOutcome(Sw.Run(a, input), Co.Run(cast, b, input)) <==> Clean(cast, Sw.Run(a, input))
    decreases |input|
  {
    if input != [] {
      var c, rest := input[0], input[1..];
      var (a', v) := Sw.Consume(a, c);
      var (b', w) := Co.Consume(cast, b, c);
      StepAgreement(cast, a, b, c);
      StepClean(cast, a, c);
      assert Sw.Run(a, input) == if v != Indeterminate then Outcome(a', v, 1) else
        Outcome(Sw.Run(a', rest).state, Sw.Run(a', rest).verdict, Sw.Run(a', rest).used + 1);
      assert Co.Run(cast, b, input) == if w != Indeterminate then Outcome(b', w, 1) else
        Outcome(Co.Run(cast, b', rest).state, Co.Run(cast, b', rest).verdict, Co.Run(cast, b', rest).used + 1);
      if v == w == Indeterminate {
        AgreementFrom(cast, a', b', rest);
      } else if v == Indeterminate {
        RunTaint(a', rest);
      }
    }
  }

  /** The two parsers, started on any input, have the same outcome if and only if the outcome of the
      switch parser is clean. */
  lemma Agreement(cast: Co.Cast, before: Request, input: Bytes)
    ensures SameOutcome(Sw.Run(Sw.START, input), Co.Run(cast, Co.Start(before), input))
       <==> Clean(cast, Sw.Run(Sw.START, input))
  {
    AgreementFrom(cast, Sw.START, Co.Start(before), input);
  }

  predicate NamesContentLength(hs: seq<Header>) {
    exists i :: 0 <= i < |hs| && Co.HeadersEqual(hs[i].name, Co.CONTENT_LENGTH)
  }

  lemma {:induction false} NoLength(cast: Co.Cast, hs: seq<Header>)
    requires !NamesContentLength(hs)
    ensures LengthIsZero(cast, hs)
  {
    if hs != [] {
      NoLength(cast, hs[..|hs| - 1]);
      assert !Co.HeadersEqual(hs[|hs| - 1].name, Co.CONTENT_LENGTH);
    }
  }

  lemma StepSevenBit(a: Sw.Parser, c: Byte)
    requires Sw.Valid(a) && SevenBitValues(a.req.headers) && IsChar(c)
    ensures SevenBitValues(Sw.Consume(a, c).0.req.headers)
  {
  }

  lemma {:induction false} RunSevenBit(a: Sw.Parser, input: Bytes)
    requires Sw.Valid(a) && SevenBitValues(a.req.headers) && IsSevenBit(input)
    ensures SevenBitValues(Sw.Run(a, input).state.req.headers)
    decreases |input|
  {
    if input != [] {
      StepSevenBit(a, input[0]);
      RunSevenBit(Sw.Consume(a, input[0]).0, input[1..]);
    }
  }

  /** On a 7-bit input with a non-empty URI and no Content-Length header, cut into any chunks, different
      ones for each parser, the verdict, the byte at which it is given and the request are the same. */
  lemma SevenBitAgreement(cast: Co.Cast, before: Request, chunks: seq<Bytes>, chunks': seq<Bytes>)
    requires Flatten(chunks') == Flatten(chunks) && IsSevenBit(Flatten(chunks))
    requires var r := Sw.Run(Sw.START, Flatten(chunks)); !EmptyUri(r.state) && !NamesContentLength(r.state.req.headers)
    ensures SameOutcome(ParseChunks(Sw.Consume, Sw.START, chunks),
                        ParseChunks(Co.Stepper(cast), Co.Start(before), chunks'))
  {
    ChunksDoNotMatter(Sw.Consume, Sw.START, chunks);
    ChunksDoNotMatter(Co.Stepper(cast), Co.Start(before), chunks');
    RunSevenBit(Sw.START, Flatten(chunks));
    NoLength(cast, Sw.Run(Sw.START, Flatten(chunks)).state.req.headers);
    Agreement(cast, before, Flatten(chunks));
  }
}
