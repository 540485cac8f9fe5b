/** The request parser of `http_server4`: one coroutine that is resumed with each byte.

    A parser state is the point at which the coroutine is suspended, the request, and the content
    length.  The functions below follow its control flow from a point of suspension to the next
    `yield` or `return`.  `boost::lexical_cast<std::size_t>` is the parameter `cast`, `None` standing
    for its exception.  A coroutine that has returned is finished, and a finished coroutine that is
    resumed falls through to `return true`.
*/
module CoroutineParser {
  import opened Wrappers
  import opened HttpMessage

  type Cast = Bytes -> Option<nat>

  datatype Point =
    | Begin
    | MethodNext | UriNext | ProtocolH | ProtocolT1 | ProtocolT2 | ProtocolP | Slash
    | MajorStart | MajorNext | MinorStart | MinorNext | Newline1
    | Headers | LwsNext | NameNext | Space | ValueNext | Newline2 | Newline3
    | ContentNext | Finished

  datatype Parser = Parser(point: Point, req: Request, contentLength: nat)

  function Start(req: Request): Parser {
    Parser(Begin, req, 0)
  }

  const CONTENT_LENGTH: Bytes := "Content-Length"

  function Lower(c: Byte): Byte {
    if 'A' <= c <= 'Z' then (c as int + 32) as char else c
  }

  predicate HeadersEqual(a: Bytes, b: Bytes) {
    |a| == |b| && forall i :: 0 <= i < |a| ==> Lower(a[i]) == Lower(b[i])
  }

  /** The search for Content-Length headers: whether every one of them could be converted, and the
      length taken from the last conversion, `before` if there is none. */
  function LengthScan(cast: Cast, before: nat, hs: seq<Header>): (bool, nat) {
    if hs == [] then (true, before)
    else
      var (ok, n) := LengthScan(cast, before, hs[..|hs| - 1]);
      var h := hs[|hs| - 1];
      if !ok || !HeadersEqual(h.name, CONTENT_LENGTH) then (ok, n)
      else if cast(h.value).None? then (false, n)
      else (true, cast(h.value).value)
  }

  // ---------------------------------------------------------------- control flow

  function Yield(p: Parser, at: Point): (Parser, Tribool) {
    (p.(point := at), Indeterminate)
  }

  function Fail(p: Parser): (Parser, Tribool) {
    (p.(point := Finished), False)
  }

  function MethodLoop(p: Parser, c: Byte): (Parser, Tribool) {
    if IsTokenChar(c) && c != ' ' then Yield(p.(req := p.req.(method_ := p.req.method_ + [c])), MethodNext)
    else if p.req.method_ == [] || c != ' ' then Fail(p)
    else Yield(p, UriNext)
  }

  function UriLoop(p: Parser, c: Byte): (Parser, Tribool) {
    if !IsCtl(c) && c != ' ' then Yield(p.(req := p.req.(uri := p.req.uri + [c])), UriNext)
    else if p.req.uri == [] || c != ' ' then Fail(p)
    else Yield(p, ProtocolH)
  }

  function Expect(p: Parser, c: Byte, expected: Byte, next: Point): (Parser, Tribool) {
    if c != expected then Fail(p) else Yield(p, next)
  }

  function MajorLoop(p: Parser, c: Byte): (Parser, Tribool) {
    if IsDigit(c) then Yield(p.(req := p.req.(major := Digit(p.req.major, c))), MajorNext)
    else Expect(p, c, '.', MinorStart)
  }

  function MinorLoop(p: Parser, c: Byte): (Parser, Tribool) {
    if IsDigit(c) then Yield(p.(req := p.req.(minor := Digit(p.req.minor, c))), MinorNext)
    else Expect(p, c, '\r', Newline1)
  }

  predicate IsSpace(c: Byte) {
    c == ' ' || c == '\t'
  }

  function HeaderLoop(p: Parser, c: Byte): (Parser, Tribool) {
    if IsSpace(c) then if p.req.headers == [] then Fail(p) else LwsLoop(p, c)
    else if IsTokenChar(c) && c != '\r' then NameLoop(p.(req := p.req.(headers := p.req.headers + [Header([], [])])), c)
    else Expect(p, c, '\r', Newline3)
  }

  function LwsLoop(p: Parser, c: Byte): (Parser, Tribool) {
    if IsSpace(c) then Yield(p, LwsNext) else ValueLoop(p, c)
  }

  function NameLoop(p: Parser, c: Byte): (Parser, Tribool) {
    if IsTokenChar(c) && c != ':' && p.req.headers != []
    then Yield(p.(req := p.req.(headers := AddToName(p.req.headers, c))), NameNext)
    else Expect(p, c, ':', Space)
  }

  function ValueLoop(p: Parser, c: Byte): (Parser, Tribool) {
    if IsChar(c) && !IsCtl(c) && c != '\r' && p.req.headers != []
    then Yield(p.(req := p.req.(headers := AddToValue(p.req.headers, c))), ValueNext)
    else Expect(p, c, '\r', Newline2)
  }

  function ContentLoop(p: Parser): (Parser, Tribool) {
    if |p.req.content| < p.contentLength then Yield(p, ContentNext) else (p.(point := Finished), True)
  }

  function FindLength(cast: Cast, p: Parser): (Parser, Tribool) {
    var (ok, n) := LengthScan(cast, p.contentLength, p.req.headers);
    if ok then ContentLoop(p.(contentLength := n)) else Fail(p.(contentLength := n))
  }

  /** `consume`. */
  function Consume(cast: Cast, p: Parser, c: Byte): (Parser, Tribool) {
    match p.point
    case Begin => MethodLoop(p.(req := NO_REQUEST, contentLength := 0), c)
    case MethodNext => MethodLoop(p, c)
    case UriNext => UriLoop(p, c)
    case ProtocolH => Expect(p, c, 'H', ProtocolT1)
    case ProtocolT1 => Expect(p, c, 'T', ProtocolT2)
    case ProtocolT2 => Expect(p, c, 'T', ProtocolP)
    case ProtocolP => Expect(p, c, 'P', Slash)
    case Slash => Expect(p, c, '/', MajorStart)
    case MajorStart => if !IsDigit(c) then Fail(p) else MajorLoop(p, c)
    case MajorNext => MajorLoop(p, c)
    case MinorStart => if !IsDigit(c) then Fail(p) else MinorLoop(p, c)
    case MinorNext => MinorLoop(p, c)
    case Newline1 => Expect(p, c, '\n', Headers)
    case Headers => HeaderLoop(p, c)
    case LwsNext => LwsLoop(p, c)
    case NameNext => NameLoop(p, c)
    case Space => Expect(p, c, ' ', ValueNext)
    case ValueNext => ValueLoop(p, c)
    case Newline2 => Expect(p, c, '\n', Headers)
    case Newline3 => if c != '\n' then Fail(p) else FindLength(cast, p)
    case ContentNext => ContentLoop(p.(req := p.req.(content := p.req.content + [c])))
    case Finished => (p, True)
  }

  function Stepper(cast: Cast): (Parser, Byte) -> (Parser, Tribool) {
    (p: Parser, c: Byte) => Consume(cast, p, c)
  }

  function Run(cast: Cast, p: Parser, input: Bytes): Outcome<Parser> {
    Parse(Stepper(cast), p, input)
  }

  // ---------------------------------------------------------------- the object

  class HttpRequest {
    var method_: Bytes
    var uri: Bytes
    var major: int
    var minor: int
    var headers: seq<Header>
    var content: Bytes

    constructor ()
      ensures Value() == NO_REQUEST
    {
      method_, uri, major, minor, headers, content := [], [], 0, 0, [], [];
    }

    function Value(): Request
      reads this
    {
      Request(method_, uri, major, minor, headers, content)
    }
  }

  /** The points inside the loops that extend the last header. */
  predicate InHeader(at: Point) {
    at.LwsNext? || at.NameNext? || at.Space? || at.ValueNext?
  }

  class RequestParser {
    const cast: Cast
    var point: Point
    var contentLength: nat

    constructor (cast: Cast)
      ensures point == Begin && this.cast == cast
    {
      this.cast, point, contentLength := cast, Begin, 0;
    }

    function Value(req: HttpRequest): Parser
      reads this, req
    {
      Parser(point, req.Value(), contentLength)
    }

    ghost predicate ValidFor(req: HttpRequest)
      reads this, req
    {
      InHeader(point) ==> req.headers != []
    }

    /** `if (c != expected) return false; yield return indeterminate;` */
    method ExpectByte(req: HttpRequest, c: Byte, expected: Byte, next: Point) returns (r: Tribool)
      modifies this
      ensures (Value(req), r) == Expect(old(Value(req)), c, expected, next)
    {
      if c != expected {
        point := Finished;
        return False;
      }
      point := next;
      return Indeterminate;
    }

    method ConsumeRequestLine(req: HttpRequest, c: Byte) returns (r: Tribool)
      requires point in {Begin, MethodNext, UriNext, MajorStart, MajorNext, MinorStart, MinorNext}
      modifies this, req
      ensures (Value(req), r) == Consume(cast, old(Value(req)), c)
    {
      if point == Begin {
        req.method_, req.uri, req.major, req.minor, req.headers, req.content := [], [], 0, 0, [], [];
        contentLength := 0;
      }
      if point == Begin || point == MethodNext {
        if IsChar(c) && !IsCtl(c) && !IsTspecial(c) && c != ' ' {
          req.method_ := req.method_ + [c];
          point := MethodNext;
          return Indeterminate;
        }
        if req.method_ == [] {
          point := Finished;
          return False;
        }
        r := ExpectByte(req, c, ' ', UriNext);
      } else if point == UriNext {
        if !IsCtl(c) && c != ' ' {
          req.uri := req.uri + [c];
          return Indeterminate;
        }
        if req.uri == [] {
          point := Finished;
          return False;
        }
        r := ExpectByte(req, c, ' ', ProtocolH);
      } else if point == MajorStart || point == MajorNext {
        if IsDigit(c) {
          req.major := req.major * 10 + c as int - '0' as int;
          point := MajorNext;
          return Indeterminate;
        }
        if point == MajorStart {
          point := Finished;
          return False;
        }
        r := ExpectByte(req, c, '.', MinorStart);
      } else {
        if IsDigit(c) {
          req.minor := req.minor * 10 + c as int - '0' as int;
          point := MinorNext;
          return Indeterminate;
        }
        if point == MinorStart {
          point := Finished;
          return False;
        }
        r := ExpectByte(req, c, '\r', Newline1);
      }
    }

    method ConsumeHeaders(req: HttpRequest, c: Byte) returns (r: Tribool)
      requires ValidFor(req) && point in {Headers, LwsNext, NameNext, ValueNext}
      modifies this, req
      ensures (Value(req), r) == Consume(cast, old(Value(req)), c)
      ensures ValidFor(req)
    {
      var at := point;
      if at == Headers {
        if !((IsChar(c) && !IsCtl(c) && !IsTspecial(c) && c != '\r') || c == ' ' || c == '\t') {
          r := ExpectByte(req, c, '\r', Newline3);
          return;
        }
        if c == ' ' || c == '\t' {
          if req.headers == [] {
            point := Finished;
            return False;
          }
          at := LwsNext;
        } else {
          req.headers := req.headers + [Header([], [])];
          at := NameNext;
        }
      }
      if at == LwsNext && (c == ' ' || c == '\t') {
        point := LwsNext;
        return Indeterminate;
      }
      var last := |req.headers| - 1;
      if at == NameNext {
        if IsChar(c) && !IsCtl(c) && !IsTspecial(c) && c != ':' {
          req.headers := req.headers[last := req.headers[last].(name := req.headers[last].name + [c])];
          point := NameNext;
          return Indeterminate;
        }
        r := ExpectByte(req, c, ':', Space);
      } else {
        if IsChar(c) && !IsCtl(c) && c != '\r' {
          req.headers := req.headers[last := req.headers[last].(value := req.headers[last].value + [c])];
          point := ValueNext;
          return Indeterminate;
        }
        r := ExpectByte(req, c, '\r', Newline2);
      }
    }

    /** The loop over the headers at the end of the header block, and the test of the content loop. */
    method FindContentLength(req: HttpRequest) returns (r: Tribool)
      modifies this
      ensures (Value(req), r) == FindLength(cast, old(Value(req)))
    {
      var i := 0;
      while i < |req.headers|
        invariant 0 <= i <= |req.headers| && point == old(point) && req.Value() == old(req.Value())
        invariant LengthScan(cast, old(contentLength), req.headers[..i]) == (true, contentLength)
      {
        assert req.headers[..i + 1][..i] == req.headers[..i];
        if HeadersEqual(req.headers[i].name, CONTENT_LENGTH) {
          var n := cast(req.headers[i].value);
          if n.None? {
            ScanFails(cast, old(contentLength), req.headers, i + 1);
            point := Finished;
            return False;
          }
          contentLength := n.value;
        }
        i := i + 1;
      }
      assert req.headers[..i] == req.headers;
      if |req.content| < contentLength {
        point := ContentNext;
        return Indeterminate;
      }
      point := Finished;
      return True;
    }

    method ConsumeByte(req: HttpRequest, c: Byte) returns (r: Tribool)
      requires ValidFor(req)
      modifies this, req
      ensures ValidFor(req)
      ensures (Value(req), r) == Consume(cast, old(Value(req)), c)
    {
      match point
      case ProtocolH => r := ExpectByte(req, c, 'H', ProtocolT1);
      case ProtocolT1 => r := ExpectByte(req, c, 'T', ProtocolT2);
      case ProtocolT2 => r := ExpectByte(req, c, 'T', ProtocolP);
      case ProtocolP => r := ExpectByte(req, c, 'P', Slash);
      case Slash => r := ExpectByte(req, c, '/', MajorStart);
      case Newline1 => r := ExpectByte(req, c, '\n', Headers);
      case Space => r := ExpectByte(req, c, ' ', ValueNext);
      case Newline2 => r := ExpectByte(req, c, '\n', Headers);
      case Newline3 =>
        if c != '\n' {
          point := Finished;
          return False;
        }
        r := FindContentLength(req);
      case ContentNext =>
        req.content := req.content + [c];
        if |req.content| < contentLength {
          return Indeterminate;
        }
        point := Finished;
        return True;
      case Finished => r := True;
      case Headers => r := ConsumeHeaders(req, c);
      case LwsNext => r := ConsumeHeaders(req, c);
      case NameNext => r := ConsumeHeaders(req, c);
      case ValueNext => r := ConsumeHeaders(req, c);
      case _ => r := ConsumeRequestLine(req, c);
    }

    /** `parse`: feeds `input` until the coroutine decides. */
    method ParseChunk(req: HttpRequest, input: Bytes) returns (verdict: Tribool, used: nat)
      requires ValidFor(req)
      modifies this, req
      ensures ValidFor(req)
      ensures Outcome(Value(req), verdict, used) == Run(cast, old(Value(req)), input)
    {
      ghost var p0 := Value(req);
      var begin := 0;
      while begin != |input|
        invariant 0 <= begin <= |input| && ValidFor(req)
        invariant Run(cast, p0, input[..begin]) == Outcome(Value(req), Indeterminate, begin)
      {
        ParseSnoc(Stepper(cast), p0, input, begin);
        verdict := ConsumeByte(req, input[begin]);
        begin := begin + 1;
        if verdict != Indeterminate {
          ParseDecided(Stepper(cast), p0, input, begin);
          return verdict, begin;
        }
      }
      assert input[..begin] == input;
      return Indeterminate, begin;
    }
  }

  /** A conversion that fails decides the whole scan. */
  lemma {:induction false} ScanFails(cast: Cast, before: nat, hs: seq<Header>, i: nat)
    requires i <= |hs| && !LengthScan(cast, before, hs[..i]).0
    ensures LengthScan(cast, before, hs) == LengthScan(cast, before, hs[..i])
    decreases |hs|
  {
    if i < |hs| {
      assert hs[..|hs| - 1][..i] == hs[..i];
      ScanFails(cast, before, hs[..|hs| - 1], i);
    } else {
      assert hs[..i] == hs;
    }
  }
}
