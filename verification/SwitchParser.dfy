/** The request parser of `http_server` (and of its copies): a switch over twenty states. */
module SwitchParser {
  import opened HttpMessage

  datatype State =
    | MethodStart | Method | Uri
    | HttpVersionH | HttpVersionT1 | HttpVersionT2 | HttpVersionP | HttpVersionSlash
    | HttpVersionMajorStart | HttpVersionMajor | HttpVersionMinorStart | HttpVersionMinor
    | ExpectingNewline1 | HeaderLineStart | HeaderLws | HeaderName | SpaceBeforeHeaderValue | HeaderValue
    | ExpectingNewline2 | ExpectingNewline3

  /** The parser together with the request it fills in. */
  datatype Parser = Parser(state: State, req: Request)

  const START := Parser(MethodStart, NO_REQUEST)

  /** The states in which the last header exists. */
  predicate InHeader(s: State) {
    s.HeaderLws? || s.HeaderName? || s.SpaceBeforeHeaderValue? || s.HeaderValue?
  }

  predicate Valid(p: Parser) {
    InHeader(p.state) ==> p.req.headers != []
  }

  function Go(p: Parser, s: State): (Parser, Tribool) {
    (p.(state := s), Indeterminate)
  }

  function Reject(p: Parser): (Parser, Tribool) {
    (p, False)
  }

  /** Moves to `s` on the expected byte. */
  function Expect(p: Parser, c: Byte, expected: Byte, s: State): (Parser, Tribool) {
    if c == expected then Go(p, s) else Reject(p)
  }

  function Keep(p: Parser, s: State, r: Request): (Parser, Tribool) {
    (Parser(s, r), Indeterminate)
  }

  /** `consume`. */
  function Consume(p: Parser, c: Byte): (r: (Parser, Tribool))
    ensures Valid(p) ==> Valid(r.0)
  {
    var req := p.req;
    match p.state
    case MethodStart =>
      if !IsTokenChar(c) then Reject(p) else Keep(p, Method, req.(method_ := req.method_ + [c]))
    case Method =>
      if c == ' ' then Go(p, Uri)
      else if !IsTokenChar(c) then Reject(p)
      else Keep(p, Method, req.(method_ := req.method_ + [c]))
    case Uri =>
      if c == ' ' then Go(p, HttpVersionH)
      else if IsCtl(c) then Reject(p)
      else Keep(p, Uri, req.(uri := req.uri + [c]))
    case HttpVersionH => Expect(p, c, 'H', HttpVersionT1)
    case HttpVersionT1 => Expect(p, c, 'T', HttpVersionT2)
    case HttpVersionT2 => Expect(p, c, 'T', HttpVersionP)
    case HttpVersionP => Expect(p, c, 'P', HttpVersionSlash)
    case HttpVersionSlash =>
      if c == '/' then Keep(p, HttpVersionMajorStart, req.(major := 0, minor := 0)) else Reject(p)
    case HttpVersionMajorStart =>
      if IsDigit(c) then Keep(p, HttpVersionMajor, req.(major := Digit(req.major, c))) else Reject(p)
    case HttpVersionMajor =>
      if c == '.' then Go(p, HttpVersionMinorStart)
      else if IsDigit(c) then Keep(p, HttpVersionMajor, req.(major := Digit(req.major, c)))
      else Reject(p)
    case HttpVersionMinorStart =>
      if IsDigit(c) then Keep(p, HttpVersionMinor, req.(minor := Digit(req.minor, c))) else Reject(p)
    case HttpVersionMinor =>
      if c == '\r' then Go(p, ExpectingNewline1)
      else if IsDigit(c) then Keep(p, HttpVersionMinor, req.(minor := Digit(req.minor, c)))
      else Reject(p)
    case ExpectingNewline1 => Expect(p, c, '\n', HeaderLineStart)
    case HeaderLineStart =>
      if c == '\r' then Go(p, ExpectingNewline3)
      else if req.headers != [] && (c == ' ' || c == '\t') then Go(p, HeaderLws)
      else if !IsTokenChar(c) then Reject(p)
      else Keep(p, HeaderName, req.(headers := req.headers + [Header([c], [])]))
    case HeaderLws =>
      if c == '\r' then Go(p, ExpectingNewline2)
      else if c == ' ' || c == '\t' then Go(p, HeaderLws)
      else if IsCtl(c) || req.headers == [] then Reject(p)
      else Keep(p, HeaderValue, req.(headers := AddToValue(req.headers, c)))
    case HeaderName =>
      if c == ':' then Go(p, SpaceBeforeHeaderValue)
      else if !IsTokenChar(c) || req.headers == [] then Reject(p)
      else Keep(p, HeaderName, req.(headers := AddToName(req.headers, c)))
    case SpaceBeforeHeaderValue => Expect(p, c, ' ', HeaderValue)
    case HeaderValue =>
      if c == '\r' then Go(p, ExpectingNewline2)
      else if IsCtl(c) || req.headers == [] then Reject(p)
      else Keep(p, HeaderValue, req.(headers := AddToValue(req.headers, c)))
    case ExpectingNewline2 => Expect(p, c, '\n', HeaderLineStart)
    case ExpectingNewline3 => (p, if c == '\n' then True else False)
  }

  function Run(p: Parser, input: Bytes): Outcome<Parser> {
    Parse(Consume, p, input)
  }

  // ---------------------------------------------------------------- the object

  class HttpRequest {
    var method_: Bytes
    var uri: Bytes
    var major: int
    var minor: int
    var headers: seq<Header>

    constructor ()
      ensures Value() == NO_REQUEST
    {
      method_, uri, major, minor, headers := [], [], 0, 0, [];
    }

    function Value(): Request
      reads this
    {
      Request(method_, uri, major, minor, headers, [])
    }
  }

  class RequestParser {
    var state: State

    constructor ()
      ensures state == MethodStart
    {
      state := MethodStart;
    }

    ghost predicate ValidFor(req: HttpRequest)
      reads this, req
    {
      Valid(Parser(state, req.Value()))
    }

    method ConsumeByte(req: HttpRequest, input: Byte) returns (r: Tribool)
      requires ValidFor(req)
      modifies this, req
      ensures ValidFor(req)
      ensures (Parser(state, req.Value()), r) == Consume(old(Parser(state, req.Value())), input)
    {
      r := Indeterminate;
      var last := |req.headers| - 1;
      match state
      case MethodStart =>
        if !IsChar(input) || IsCtl(input) || IsTspecial(input) {
          r := False;
        } else {
          state := Method;
          req.method_ := req.method_ + [input];
        }
      case Method =>
        if input == ' ' {
          state := Uri;
        } else if !IsChar(input) || IsCtl(input) || IsTspecial(input) {
          r := False;
        } else {
          req.method_ := req.method_ + [input];
        }
      case Uri =>
        if input == ' ' {
          state := HttpVersionH;
        } else if IsCtl(input) {
          r := False;
        } else {
          req.uri := req.uri + [input];
        }
      case HttpVersionH =>
        if input == 'H' { state := HttpVersionT1; } else { r := False; }
      case HttpVersionT1 =>
        if input == 'T' { state := HttpVersionT2; } else { r := False; }
      case HttpVersionT2 =>
        if input == 'T' { state := HttpVersionP; } else { r := False; }
      case HttpVersionP =>
        if input == 'P' { state := HttpVersionSlash; } else { r := False; }
      case HttpVersionSlash =>
        if input == '/' {
          req.major, req.minor := 0, 0;
          state := HttpVersionMajorStart;
        } else {
          r := False;
        }
      case HttpVersionMajorStart =>
        if IsDigit(input) {
          req.major := req.major * 10 + input as int - '0' as int;
          state := HttpVersionMajor;
        } else {
          r := False;
        }
      case HttpVersionMajor =>
        if input == '.' {
          state := HttpVersionMinorStart;
        } else if IsDigit(input) {
          req.major := req.major * 10 + input as int - '0' as int;
        } else {
          r := False;
        }
      case HttpVersionMinorStart =>
        if IsDigit(input) {
          req.minor := req.minor * 10 + input as int - '0' as int;
          state := HttpVersionMinor;
        } else {
          r := False;
        }
      case HttpVersionMinor =>
        if input == '\r' {
          state := ExpectingNewline1;
        } else if IsDigit(input) {
          req.minor := req.minor * 10 + input as int - '0' as int;
        } else {
          r := False;
        }
      case ExpectingNewline1 =>
        if input == '\n' { state := HeaderLineStart; } else { r := False; }
      case HeaderLineStart =>
        if input == '\r' {
          state := ExpectingNewline3;
        } else if req.headers != [] && (input == ' ' || input == '\t') {
          state := HeaderLws;
        } else if !IsChar(input) || IsCtl(input) || IsTspecial(input) {
          r := False;
        } else {
          req.headers := req.headers + [Header([], [])];
          req.headers := req.headers[last + 1 := Header([input], [])];
          assert req.headers == old(req.headers) + [Header([input], [])];
          state := HeaderName;
        }
      case HeaderLws =>
        if input == '\r' {
          state := ExpectingNewline2;
        } else if input == ' ' || input == '\t' {
        } else if IsCtl(input) {
          r := False;
        } else {
          state := HeaderValue;
          req.headers := req.headers[last := req.headers[last].(value := req.headers[last].value + [input])];
        }
      case HeaderName =>
        if input == ':' {
          state := SpaceBeforeHeaderValue;
        } else if !IsChar(input) || IsCtl(input) || IsTspecial(input) {
          r := False;
        } else {
          req.headers := req.headers[last := req.headers[last].(name := req.headers[last].name + [input])];
        }
      case SpaceBeforeHeaderValue =>
        if input == ' ' { state := HeaderValue; } else { r := False; }
      case HeaderValue =>
        if input == '\r' {
          state := ExpectingNewline2;
        } else if IsCtl(input) {
          r := False;
        } else {
          req.headers := req.headers[last := req.headers[last].(value := req.headers[last].value + [input])];
        }
      case ExpectingNewline2 =>
        if input == '\n' { state := HeaderLineStart; } else { r := False; }
      case ExpectingNewline3 =>
        r := if input == '\n' then True else False;
    }

    /** `parse`: feeds `input` until the parser decides. */
    method ParseChunk(req: HttpRequest, input: Bytes) returns (verdict: Tribool, used: nat)
      requires ValidFor(req)
      modifies this, req
      ensures ValidFor(req)
      ensures Outcome(Parser(state, req.Value()), verdict, used) == Run(old(Parser(state, req.Value())), input)
    {
      ghost var p0 := Parser(state, req.Value());
      var begin := 0;
      while begin != |input|
        invariant 0 <= begin <= |input| && ValidFor(req)
        invariant Run(p0, input[..begin]) == Outcome(Parser(state, req.Value()), Indeterminate, begin)
      {
        ParseSnoc(Consume, p0, input, begin);
        verdict := ConsumeByte(req, input[begin]);
        begin := begin + 1;
        if verdict != Indeterminate {
          ParseDecided(Consume, p0, input, begin);
          return verdict, begin;
        }
      }
      assert input[..begin] == input;
      return Indeterminate, begin;
    }
  }
}
