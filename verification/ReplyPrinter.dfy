/** The printer of replies, and the request parser as the reader of the header block it prints. */
module ReplyPrinter {
  import opened HttpMessage
  import Sw = SwitchParser
  import Co = CoroutineParser
  import ParserAgreement

  const CRLF: Bytes := "\r\n"
  const NAME_VALUE_SEPARATOR: Bytes := ": "

  function Line(h: Header): Bytes {
    h.name + NAME_VALUE_SEPARATOR + h.value + CRLF
  }

  function Lines(hs: seq<Header>): Bytes {
    if hs == [] then [] else Lines(hs[..|hs| - 1]) + Line(hs[|hs| - 1])
  }

  /** The header block: a line for each header, and an empty line. */
  function Block(hs: seq<Header>): Bytes {
    Lines(hs) + CRLF
  }

  lemma {:induction false} FlattenSnoc(chunks: seq<Bytes>, b: Bytes)
    ensures Flatten(chunks + [b]) == Flatten(chunks) + b
  {
    if chunks == [] {
      assert [] + [b] == [b] && [b][1..] == [];
    } else {
      assert (chunks + [b])[1..] == chunks[1..] + [b];
      FlattenSnoc(chunks[1..], b);
    }
  }

  lemma FlattenLine(chunks: seq<Bytes>, h: Header)
    ensures Flatten(chunks + [h.name] + [NAME_VALUE_SEPARATOR] + [h.value] + [CRLF]) == Flatten(chunks) + Line(h)
  {
    FlattenSnoc(chunks, h.name);
    FlattenSnoc(chunks + [h.name], NAME_VALUE_SEPARATOR);
    FlattenSnoc(chunks + [h.name] + [NAME_VALUE_SEPARATOR], h.value);
    FlattenSnoc(chunks + [h.name] + [NAME_VALUE_SEPARATOR] + [h.value], CRLF);
  }

  // ---------------------------------------------------------------- status lines

  const OK: Bytes := "OK"
  const CREATED: Bytes := "Created"
  const ACCEPTED: Bytes := "Accepted"
  const NO_CONTENT: Bytes := "No Content"
  const MULTIPLE_CHOICES: Bytes := "Multiple Choices"
  const MOVED_PERMANENTLY: Bytes := "Moved Permanently"
  const MOVED_TEMPORARILY: Bytes := "Moved Temporarily"
  const NOT_MODIFIED: Bytes := "Not Modified"
  const BAD_REQUEST: Bytes := "Bad Request"
  const UNAUTHORIZED: Bytes := "Unauthorized"
  const FORBIDDEN: Bytes := "Forbidden"
  const NOT_FOUND: Bytes := "Not Found"
  const INTERNAL_SERVER_ERROR: Bytes := "Internal Server Error"
  const NOT_IMPLEMENTED: Bytes := "Not Implemented"
  const BAD_GATEWAY: Bytes := "Bad Gateway"
  const SERVICE_UNAVAILABLE: Bytes := "Service Unavailable"
  const VERSION: Bytes := "HTTP/1.0 "

  function VersionLine(code: Bytes, phrase: Bytes): Bytes {
    VERSION + code + [' '] + phrase + CRLF
  }

  /** `status_strings::to_buffer`. */
  function StatusLine(status: int): Bytes {
    match status
    case 200 => VersionLine("200", OK)
    case 201 => VersionLine("201", CREATED)
    case 202 => VersionLine("202", ACCEPTED)
    case 204 => VersionLine("204", NO_CONTENT)
    case 300 => VersionLine("300", MULTIPLE_CHOICES)
    case 301 => VersionLine("301", MOVED_PERMANENTLY)
    case 302 => VersionLine("302", MOVED_TEMPORARILY)
    case 304 => VersionLine("304", NOT_MODIFIED)
    case 400 => VersionLine("400", BAD_REQUEST)
    case 401 => VersionLine("401", UNAUTHORIZED)
    case 403 => VersionLine("403", FORBIDDEN)
    case 404 => VersionLine("404", NOT_FOUND)
    case 500 => VersionLine("500", INTERNAL_SERVER_ERROR)
    case 501 => VersionLine("501", NOT_IMPLEMENTED)
    case 502 => VersionLine("502", BAD_GATEWAY)
    case 503 => VersionLine("503", SERVICE_UNAVAILABLE)
    case _ => VersionLine("500", INTERNAL_SERVER_ERROR)
  }

  const STATUS_TYPES: set<int> := {200, 201, 202, 204, 300, 301, 302, 304, 400, 401, 403, 404, 500, 501, 502, 503}

  /** The number that three digits stand for. */
  function Code(a: Byte, b: Byte, c: Byte): int {
    100 * (a as int - '0' as int) + 10 * (b as int - '0' as int) + (c as int - '0' as int)
  }

  /** A line of HTTP/1.0 with this code, which ends with its only control characters. */
  predicate IsStatusLine(l: Bytes, code: int) {
    && 15 <= |l| && l[..9] == VERSION && Code(l[9], l[10], l[11]) == code
    && l[|l| - 2..] == CRLF && HasNoCtl(l[..|l| - 2])
  }

  lemma IsVersionLine(code: Bytes, phrase: Bytes)
    requires |code| == 3 && HasNoCtl(code) && HasNoCtl(phrase)
    ensures IsStatusLine(VersionLine(code, phrase), Code(code[0], code[1], code[2]))
  {
    var l := VersionLine(code, phrase);
    assert l[..|l| - 2] == VERSION + code + [' '] + phrase;
    assert l[..9] == VERSION && l[9..12] == code && l[|l| - 2..] == CRLF;
  }

  lemma SuccessPhrases()
    ensures HasNoCtl(OK) && HasNoCtl(CREATED) && HasNoCtl(ACCEPTED) && HasNoCtl(NO_CONTENT)
  {
  }

  lemma RedirectPhrases()
    ensures HasNoCtl(MULTIPLE_CHOICES) && HasNoCtl(MOVED_PERMANENTLY) && HasNoCtl(MOVED_TEMPORARILY)
            && HasNoCtl(NOT_MODIFIED)
  {
  }

  lemma ClientErrorPhrases()
    ensures HasNoCtl(BAD_REQUEST) && HasNoCtl(UNAUTHORIZED) && HasNoCtl(FORBIDDEN) && HasNoCtl(NOT_FOUND)
  {
  }

  lemma ServerErrorPhrases()
    ensures HasNoCtl(INTERNAL_SERVER_ERROR) && HasNoCtl(NOT_IMPLEMENTED) && HasNoCtl(BAD_GATEWAY)
            && HasNoCtl(SERVICE_UNAVAILABLE)
  {
  }

  lemma SuccessLines(status: int)
    requires status in {200, 201, 202, 204}
    ensures IsStatusLine(StatusLine(status), status)
  {
    SuccessPhrases();
    match status
    case 200 => IsVersionLine("200", OK);
    case 201 => IsVersionLine("201", CREATED);
    case 202 => IsVersionLine("202", ACCEPTED);
    case 204 => IsVersionLine("204", NO_CONTENT);
  }

  lemma RedirectLines(status: int)
    requires status in {300, 301, 302, 304}
    ensures IsStatusLine(StatusLine(status), status)
  {
    RedirectPhrases();
    match status
    case 300 => IsVersionLine("300", MULTIPLE_CHOICES);
    case 301 => IsVersionLine("301", MOVED_PERMANENTLY);
    case 302 => IsVersionLine("302", MOVED_TEMPORARILY);
    case 304 => IsVersionLine("304", NOT_MODIFIED);
  }

  lemma ClientErrorLines(status: int)
    requires status in {400, 401, 403, 404}
    ensures IsStatusLine(StatusLine(status), status)
  {
    ClientErrorPhrases();
    match status
    case 400 => IsVersionLine("400", BAD_REQUEST);
    case 401 => IsVersionLine("401", UNAUTHORIZED);
    case 403 => IsVersionLine("403", FORBIDDEN);
    case 404 => IsVersionLine("404", NOT_FOUND);
  }

  lemma ServerErrorLines(status: int)
    requires status in {500, 501, 502, 503}
    ensures IsStatusLine(StatusLine(status), status)
  {
    ServerErrorPhrases();
    match status
    case 500 => IsVersionLine("500", INTERNAL_SERVER_ERROR);
    case 501 => IsVersionLine("501", NOT_IMPLEMENTED);
    case 502 => IsVersionLine("502", BAD_GATEWAY);
    case 503 => IsVersionLine("503", SERVICE_UNAVAILABLE);
  }

  /** The status line carries the status, or 500 for a number that is not a status, and it is one line. */
  lemma StatusLineCode(status: int)
    ensures IsStatusLine(StatusLine(status), if status in STATUS_TYPES then status else 500)
  {
    if status !in STATUS_TYPES {
      assert StatusLine(status) == StatusLine(500);
      ServerErrorLines(500);
    } else if status < 300 {
      SuccessLines(status);
    } else if status < 400 {
      RedirectLines(status);
    } else if status < 500 {
      ClientErrorLines(status);
    } else {
      ServerErrorLines(status);
    }
  }

  /** A reply; its status is kept as the line that stands for it. */
  class Reply {
    var statusLine: Bytes
    var headers: seq<Header>
    var content: Bytes

    constructor (status: int, headers: seq<Header>, content: Bytes)
      ensures statusLine == StatusLine(status) && this.headers == headers && this.content == content
    {
      this.statusLine, this.headers, this.content := StatusLine(status), headers, content;
    }

    /** `to_buffers`: what is sent, as a list of buffers. */
    method ToBuffers() returns (buffers: seq<Bytes>)
      ensures Flatten(buffers) == statusLine + Block(headers) + content
      ensures |buffers| == 3 + 4 * |headers|
    {
      buffers := [statusLine];
      FlattenSnoc([], statusLine);
      var i := 0;
      while i < |headers|
        invariant 0 <= i <= |headers| && |buffers| == 1 + 4 * i
        invariant Flatten(buffers) == statusLine + Lines(headers[..i])
      {
        var h := headers[i];
        FlattenLine(buffers, h);
        buffers := buffers + [h.name];
        buffers := buffers + [NAME_VALUE_SEPARATOR];
        buffers := buffers + [h.value];
        buffers := buffers + [CRLF];
        assert headers[..i + 1][..i] == headers[..i];
        i := i + 1;
      }
      assert headers[..i] == headers;
      FlattenSnoc(buffers, CRLF);
      buffers := buffers + [CRLF];
      FlattenSnoc(buffers, content);
      buffers := buffers + [content];
    }
  }

  // ---------------------------------------------------------------- reading the block back

  predicate WellFormed(h: Header) {
    IsToken(h.name) && HasNoCtl(h.value)
  }

  ghost predicate AllWellFormed(hs: seq<Header>) {
    forall i :: 0 <= i < |hs| ==> WellFormed(hs[i])
  }

  /** `input` takes the parser from `p` to `q` without a verdict. */
  ghost predicate Reads(p: Sw.Parser, input: Bytes, q: Sw.Parser) {
    Sw.Run(p, input) == Outcome(q, Indeterminate, |input|)
  }

  lemma ReadsByte(p: Sw.Parser, c: Byte, q: Sw.Parser)
    requires Sw.Consume(p, c) == (q, Indeterminate)
    ensures Reads(p, [c], q)
  {
    assert [c][1..] == [];
    assert Parse(Sw.Consume, q, [c][1..]) == Outcome(q, Indeterminate, 0);
  }

  lemma ReadsConcat(p: Sw.Parser, a: Bytes, q: Sw.Parser, b: Bytes, r: Sw.Parser)
    requires Reads(p, a, q) && Reads(q, b, r)
    ensures Reads(p, a + b, r)
  {
    ParseConcat(Sw.Consume, p, a, b);
  }

  /** A parser inside the header block, with the headers read so far. */
  function At(s: Sw.State, req: Request, hs: seq<Header>): Sw.Parser {
    Sw.Parser(s, req.(headers := hs))
  }

  lemma {:induction false} ReadsName(req: Request, hs: seq<Header>, name: Bytes)
    requires IsToken(name)
    ensures Reads(At(Sw.HeaderLineStart, req, hs), name, At(Sw.HeaderName, req, hs + [Header(name, [])]))
  {
    var n := |name| - 1;
    var c := name[n];
    assert name == name[..n] + [c];
    if n == 0 {
      assert name == [c];
      ReadsByte(At(Sw.HeaderLineStart, req, hs), c, At(Sw.HeaderName, req, hs + [Header([c], [])]));
    } else {
      ReadsName(req, hs, name[..n]);
      var before := hs + [Header(name[..n], [])];
      assert before[|before| - 1] == Header(name[..n], []);
      assert AddToName(before, c) == hs + [Header(name, [])];
      ReadsByte(At(Sw.HeaderName, req, before), c, At(Sw.HeaderName, req, hs + [Header(name, [])]));
      ReadsConcat(At(Sw.HeaderLineStart, req, hs), name[..n], At(Sw.HeaderName, req, before), [c],
                  At(Sw.HeaderName, req, hs + [Header(name, [])]));
    }
  }

  lemma {:induction false} ReadsValue(req: Request, hs: seq<Header>, name: Bytes, value: Bytes)
    requires HasNoCtl(value)
    ensures Reads(At(Sw.HeaderValue, req, hs + [Header(name, [])]), value,
                  At(Sw.HeaderValue, req, hs + [Header(name, value)]))
  {
    if value != [] {
      var n := |value| - 1;
      var c := value[n];
      assert value == value[..n] + [c];
      ReadsValue(req, hs, name, value[..n]);
      var before := hs + [Header(name, value[..n])];
      assert before[|before| - 1] == Header(name, value[..n]);
      assert AddToValue(before, c) == hs + [Header(name, value)];
      ReadsByte(At(Sw.HeaderValue, req, before), c, At(Sw.HeaderValue, req, hs + [Header(name, value)]));
      ReadsConcat(At(Sw.HeaderValue, req, hs + [Header(name, [])]), value[..n], At(Sw.HeaderValue, req, before), [c],
                  At(Sw.HeaderValue, req, hs + [Header(name, value)]));
    }
  }

  /** `a` and then `b` are read as two single bytes. */
  lemma ReadsTwo(p: Sw.Parser, a: Byte, q: Sw.Parser, b: Byte, r: Sw.Parser)
    requires Sw.Consume(p, a) == (q, Indeterminate) && Sw.Consume(q, b) == (r, Indeterminate)
    ensures Reads(p, [a, b], r)
  {
    ReadsByte(p, a, q);
    ReadsByte(q, b, r);
    ReadsConcat(p, [a], q, [b], r);
    assert [a] + [b] == [a, b];
  }

  lemma ReadsNamed(req: Request, hs: seq<Header>, name: Bytes)
    requires IsToken(name)
    ensures Reads(At(Sw.HeaderLineStart, req, hs), name + NAME_VALUE_SEPARATOR,
                  At(Sw.HeaderValue, req, hs + [Header(name, [])]))
  {
    var named := hs + [Header(name, [])];
    ReadsName(req, hs, name);
    ReadsTwo(At(Sw.HeaderName, req, named), ':', At(Sw.SpaceBeforeHeaderValue, req, named), ' ',
             At(Sw.HeaderValue, req, named));
    ReadsConcat(At(Sw.HeaderLineStart, req, hs), name, At(Sw.HeaderName, req, named),
                NAME_VALUE_SEPARATOR, At(Sw.HeaderValue, req, named));
  }

  lemma ReadsEnd(req: Request, hs: seq<Header>)
    ensures Reads(At(Sw.HeaderValue, req, hs), CRLF, At(Sw.HeaderLineStart, req, hs))
  {
    ReadsTwo(At(Sw.HeaderValue, req, hs), '\r', At(Sw.ExpectingNewline2, req, hs), '\n',
             At(Sw.HeaderLineStart, req, hs));
  }

  lemma ReadsLine(req: Request, hs: seq<Header>, h: Header)
    requires WellFormed(h)
    ensures Reads(At(Sw.HeaderLineStart, req, hs), Line(h), At(Sw.HeaderLineStart, req, hs + [h]))
  {
    var start, value := At(Sw.HeaderLineStart, req, hs), At(Sw.HeaderValue, req, hs + [h]);
    ReadsNamed(req, hs, h.name);
    ReadsValue(req, hs, h.name, h.value);
    ReadsConcat(start, h.name + NAME_VALUE_SEPARATOR, At(Sw.HeaderValue, req, hs + [Header(h.name, [])]), h.value,
                value);
    ReadsEnd(req, hs + [h]);
    ReadsConcat(start, h.name + NAME_VALUE_SEPARATOR + h.value, value, CRLF, At(Sw.HeaderLineStart, req, hs + [h]));
  }

  lemma {:induction false} ReadsLines(req: Request, hs: seq<Header>)
    requires AllWellFormed(hs)
    ensures Reads(At(Sw.HeaderLineStart, req, []), Lines(hs), At(Sw.HeaderLineStart, req, hs))
  {
    if hs != [] {
      var n := |hs| - 1;
      ReadsLines(req, hs[..n]);
      ReadsLine(req, hs[..n], hs[n]);
      assert hs[..n] + [hs[n]] == hs;
      ReadsConcat(At(Sw.HeaderLineStart, req, []), Lines(hs[..n]), At(Sw.HeaderLineStart, req, hs[..n]), Line(hs[n]),
                  At(Sw.HeaderLineStart, req, hs));
    }
  }

  /** The block is accepted with its last byte, whatever follows it. */
  lemma ReadsBlock(req: Request, hs: seq<Header>, content: Bytes)
    requires AllWellFormed(hs)
    ensures Sw.Run(At(Sw.HeaderLineStart, req, []), Block(hs) + content)
         == Outcome(At(Sw.ExpectingNewline3, req, hs), True, |Block(hs)|)
  {
    var start, q, last := At(Sw.HeaderLineStart, req, []), At(Sw.HeaderLineStart, req, hs),
        At(Sw.ExpectingNewline3, req, hs);
    ReadsLines(req, hs);
    ReadsByte(q, '\r', last);
    ReadsConcat(start, Lines(hs), q, ['\r'], last);
    var input := Block(hs) + content;
    var n := |Lines(hs)| + 1;
    assert input[..n] == Lines(hs) + ['\r'];
    ParseSnoc(Sw.Consume, start, input, n);
    ParseDecided(Sw.Consume, start, input, n + 1);
  }

  // ---------------------------------------------------------------- what the parser can have read

  /** Names are tokens and values have no controls, all along. */
  lemma StepWellFormed(p: Sw.Parser, c: Byte)
    requires Sw.Valid(p) && AllWellFormed(p.req.headers)
    ensures AllWellFormed(Sw.Consume(p, c).0.req.headers)
  {
    var hs, n := p.req.headers, |p.req.headers| - 1;
    if p.state == Sw.HeaderName && IsTokenChar(c) {
      assert WellFormed(hs[n]);
      assert WellFormed(hs[n].(name := hs[n].name + [c]));
    } else if p.state == Sw.HeaderLineStart && IsTokenChar(c) {
      assert WellFormed(Header([c], []));
    } else if (p.state == Sw.HeaderLws || p.state == Sw.HeaderValue) && !IsCtl(c) {
      assert WellFormed(hs[n]);
      assert WellFormed(hs[n].(value := hs[n].value + [c]));
    }
  }

  lemma {:induction false} RunWellFormed(p: Sw.Parser, input: Bytes)
    requires Sw.Valid(p) && AllWellFormed(p.req.headers)
    ensures AllWellFormed(Sw.Run(p, input).state.req.headers)
    decreases |input|
  {
    if input != [] {
      StepWellFormed(p, input[0]);
      RunWellFormed(Sw.Consume(p, input[0]).0, input[1..]);
    }
  }

  /** Round trip: the printed block is read back into exactly the printed headers, stopping at the first
      content byte, if and only if every name is a non-empty token and no value has a control. */
  lemma RoundTrip(req: Request, hs: seq<Header>, content: Bytes)
    ensures var r := Sw.Run(At(Sw.HeaderLineStart, req, []), Block(hs) + content);
      (r.verdict == True && r.used == |Block(hs)| && r.state.req == req.(headers := hs)) <==> AllWellFormed(hs)
  {
    RunWellFormed(At(Sw.HeaderLineStart, req, []), Block(hs) + content);
    if AllWellFormed(hs) {
      ReadsBlock(req, hs, content);
    }
  }

  /** The coroutine parser reads the block in the same way when moreover the values are 7-bit and no
      header is a Content-Length. */
  lemma CoroutineRoundTrip(cast: Co.Cast, req: Request, hs: seq<Header>, content: Bytes)
    requires AllWellFormed(hs) && ParserAgreement.SevenBitValues(hs) && !ParserAgreement.NamesContentLength(hs)
    requires req.uri != [] && req.content == []
    ensures var r := Co.Run(cast, Co.Parser(Co.Headers, req.(headers := []), 0), Block(hs) + content);
      r.verdict == True && r.used == |Block(hs)| && r.state.req == req.(headers := hs)
  {
    ReadsBlock(req, hs, content);
    ParserAgreement.NoLength(cast, hs);
    ParserAgreement.AgreementFrom(cast, At(Sw.HeaderLineStart, req, []), Co.Parser(Co.Headers, req.(headers := []), 0),
                                  Block(hs) + content);
  }
}
