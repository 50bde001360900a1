/**
 The incremental HTTP request parser (dc/net/http/httpContext.cc, dc/net/http/httpRequest.h).
 */
module Http {
  import opened Bytes
  import opened Buffers
  import opened Options

  datatype Method = Invalid | Get | Post | Delete | Put | Head
  datatype Version = Unknown | Http10 | Http11
  datatype State = ExpectRequestLine | ExpectHeaders | ExpectBody | GotAll

  /** The request's fields, except for the time it was received at. */
  datatype Request = Request(verb: Method, version: Version, path: seq<Byte>, query: seq<Byte>,
                             headers: map<seq<Byte>, seq<Byte>>)

  const EMPTY_REQUEST: Request := Request(Invalid, Unknown, [], [], map[])

  // ----- the request line

  function MethodOf(m: seq<Byte>): Method {
    if m == "GET" then Get else if m == "POST" then Post
    else if m == "PUT" then Put else if m == "DELETE" then Delete else Invalid
  }

  function VersionOf(v: seq<Byte>): Version {
    if v == "HTTP/1.1" then Http11 else if v == "HTTP/1.0" then Http10 else Unknown
  }

  /** Fields and verdict left by a request line. A line that fails has set the fields it got to. */
  datatype LineResult = LineResult(ok: bool, request: Request)

  function RequestLine(request: Request, line: seq<Byte>): LineResult {
    var space := Find(line, ' ');
    if space == |line| then LineResult(false, request)
    else
      var request := request.(verb := MethodOf(line[..space]));
      if request.verb == Invalid then LineResult(false, request)
      else TargetAndVersion(request, line[space + 1..])
  }

  function TargetAndVersion(request: Request, rest: seq<Byte>): LineResult {
    var space := Find(rest, ' ');
    if space == |rest| then LineResult(false, request)
    else
      var request := SetTarget(request, rest[..space]);
      var version := VersionOf(rest[space + 1..]);
      if version == Unknown then LineResult(false, request) else LineResult(true, request.(version := version))
  }

  /** Path and query; a target without a question mark leaves the query alone. */
  function SetTarget(request: Request, target: seq<Byte>): Request {
    var question := Find(target, '?');
    if question < |target| then request.(path := target[..question], query := target[question..])
    else request.(path := target)
  }

  // ----- header fields

  predicate IsSpace(c: Byte) {
    c == ' ' || 9 <= c as int <= 13
  }

  function TrimLeft(s: seq<Byte>): (r: seq<Byte>)
    ensures |r| <= |s|
  {
    if s != [] && IsSpace(s[0]) then TrimLeft(s[1..]) else s
  }

  function TrimRight(s: seq<Byte>): (r: seq<Byte>)
    ensures |r| <= |s|
  {
    if s != [] && IsSpace(s[|s| - 1]) then TrimRight(s[..|s| - 1]) else s
  }

  function Trim(s: seq<Byte>): seq<Byte> {
    TrimRight(TrimLeft(s))
  }

  function AddHeader(request: Request, line: seq<Byte>, colon: nat): Request
    requires colon < |line|
  {
    request.(headers := request.headers[line[..colon] := Trim(line[colon + 1..])])
  }

  // ----- a whole input

  datatype Parsed = Parsed(ok: bool, state: State, request: Request, rest: seq<Byte>)

  /** One line taken from the input, or the reason to stop. */
  datatype Step = More(request: Request, rest: seq<Byte>) | Done(result: Parsed)

  function FirstLine(request: Request, input: seq<Byte>): (s: Step)
    ensures s.More? ==> |s.rest| < |input|
  {
    match FindCrlf(input)
    case None => Done(Parsed(true, ExpectRequestLine, request, input))
    case Some(crlf) =>
      var r := RequestLine(request, input[..crlf]);
      if r.ok then More(r.request, input[crlf + 2..]) else Done(Parsed(false, ExpectRequestLine, r.request, input))
  }

  function HeaderLine(request: Request, input: seq<Byte>): (s: Step)
    ensures s.More? ==> |s.rest| < |input|
  {
    match FindCrlf(input)
    case None => Done(Parsed(true, ExpectHeaders, request, input))
    case Some(crlf) =>
      var line, rest := input[..crlf], input[crlf + 2..];
      var colon := Find(line, ':');
      if colon < |line| then More(AddHeader(request, line, colon), rest) else Done(Parsed(true, GotAll, request, rest))
  }

  /** What parsing `input` comes to: verdict, state and request reached, and the bytes not consumed. */
  function Parse(state: State, request: Request, input: seq<Byte>): Parsed
    requires state == ExpectRequestLine || state == ExpectHeaders
    decreases |input|
  {
    var step := if state == ExpectRequestLine then FirstLine(request, input) else HeaderLine(request, input);
    match step
    case More(request, rest) => Parse(ExpectHeaders, request, rest)
    case Done(result) => result
  }

  // ----- the parser object

  /** The two loops of addHeader. */
  method TrimValue(s: seq<Byte>) returns (value: seq<Byte>)
    ensures value == Trim(s)
  {
    var start := 0;
    while start < |s| && IsSpace(s[start])
      invariant start <= |s| && TrimLeft(s) == TrimLeft(s[start..])
    {
      start := start + 1;
    }
    value := s[start..];
    while value != [] && IsSpace(value[|value| - 1])
      invariant Trim(s) == TrimRight(value)
      decreases |value|
    {
      value := value[..|value| - 1];
    }
  }

  class HttpContext {
    var state: State
    var request: Request
    var receiveTime: int

    constructor ()
      ensures state == ExpectRequestLine && request == EMPTY_REQUEST
    {
      state, request, receiveTime := ExpectRequestLine, EMPTY_REQUEST, 0;
    }

    method Reset()
      modifies this
      ensures state == ExpectRequestLine && request == EMPTY_REQUEST
    {
      state := ExpectRequestLine;
      request, receiveTime := EMPTY_REQUEST, 0;
    }

    method SetMethod(m: seq<Byte>) returns (ok: bool)
      requires request.verb == Invalid
      modifies `request
      ensures request == old(request).(verb := MethodOf(m))
      ensures ok <==> request.verb != Invalid
      ensures ok ==> m == MethodString(request.verb)
      ensures ok <==> m == "GET" || m == "POST" || m == "PUT" || m == "DELETE"
    {
      request := request.(verb := MethodOf(m));
      ok := request.verb != Invalid;
    }

    method ProcessRequestLine(line: seq<Byte>) returns (succeed: bool)
      requires request.verb == Invalid
      modifies `request
      ensures LineResult(succeed, request) == RequestLine(old(request), line)
    {
      succeed := false;
      var space := Find(line, ' ');
      if space != |line| {
        var known := SetMethod(line[..space]);
        if known {
          succeed := ProcessTargetAndVersion(line[space + 1..]);
        }
      }
    }

    method ProcessTargetAndVersion(rest: seq<Byte>) returns (succeed: bool)
      modifies `request
      ensures LineResult(succeed, request) == TargetAndVersion(old(request), rest)
      ensures succeed ==> '?' !in request.path
      ensures succeed && '?' in rest[..Find(rest, ' ')] ==>
        request.path + request.query == rest[..Find(rest, ' ')] && request.query != [] && request.query[0] == '?'
    {
      succeed := false;
      var space := Find(rest, ' ');
      if space != |rest| {
        var question := Find(rest[..space], '?');
        if question != space {
          request := request.(path := rest[..question]);
          request := request.(query := rest[question..space]);
        } else {
          request := request.(path := rest[..space]);
        }
        assert rest[..space][..question] == rest[..question] && rest[..space][question..] == rest[question..space];
        succeed := ProcessVersion(rest[space + 1..]);
      }
    }

    method ProcessVersion(version: seq<Byte>) returns (succeed: bool)
      modifies `request
      ensures succeed == (VersionOf(version) != Unknown)
      ensures request == if succeed then old(request).(version := VersionOf(version)) else old(request)
    {
      succeed := |version| == 8 && version[..7] == "HTTP/1.";
      VersionByLastByte(version);
      if succeed {
        if version[7] == '1' {
          request := request.(version := Http11);
        } else if version[7] == '0' {
          request := request.(version := Http10);
        } else {
          succeed := false;
        }
      }
    }

    /** The parser's loop. Each turn leaves the outcome of the whole input what it was. */
    method ParseRequest(buf: Buffer, now: int) returns (ok: bool)
      requires buf.Valid()
      requires state == ExpectRequestLine || state == ExpectHeaders
      requires state == ExpectRequestLine ==> request.verb == Invalid
      modifies this, buf
      ensures buf.Valid()
      ensures Parsed(ok, state, request, buf.Contents()) == Parse(old(state), old(request), old(buf.Contents()))
      ensures receiveTime == if old(state) == ExpectRequestLine && state != ExpectRequestLine then now else old(receiveTime)
    {
      ok := true;
      var hasMore := true;
      while hasMore
        invariant buf.Valid()
        invariant hasMore ==> ok && (state == ExpectRequestLine || state == ExpectHeaders)
        invariant hasMore && state == ExpectRequestLine ==> request.verb == Invalid
        invariant hasMore ==> Parse(state, request, buf.Contents()) == Parse(old(state), old(request), old(buf.Contents()))
        invariant !hasMore ==> Parsed(ok, state, request, buf.Contents()) == Parse(old(state), old(request), old(buf.Contents()))
        invariant old(state) == ExpectHeaders ==> state != ExpectRequestLine
        invariant receiveTime == if old(state) == ExpectRequestLine && state != ExpectRequestLine then now else old(receiveTime)
        decreases hasMore, buf.Readable()
      {
        if state == ExpectRequestLine {
          ok, hasMore := TakeRequestLine(buf, now);
        } else {
          hasMore := TakeHeader(buf);
        }
      }
    }

    method TakeRequestLine(buf: Buffer, now: int) returns (ok: bool, hasMore: bool)
      requires buf.Valid() && state == ExpectRequestLine && request.verb == Invalid
      modifies this, buf
      ensures buf.Valid()
      ensures FirstLine(old(request), old(buf.Contents())) ==
              if hasMore then More(request, buf.Contents()) else Done(Parsed(ok, state, request, buf.Contents()))
      ensures state == (if hasMore then ExpectHeaders else ExpectRequestLine) && (hasMore ==> ok)
      ensures receiveTime == if hasMore then now else old(receiveTime)
    {
      ok, hasMore := true, false;
      var input := buf.buffers[buf.reader..buf.writer];
      var crlf := FindCrlf(input);
      if crlf.Some? {
        ok := ProcessRequestLine(input[..crlf.value]);
        if ok {
          receiveTime := now;
          buf.Retrieve(crlf.value + 2);
          state := ExpectHeaders;
          hasMore := true;
        }
      }
    }

    method TakeHeader(buf: Buffer) returns (hasMore: bool)
      requires buf.Valid() && state == ExpectHeaders
      modifies `state, `request, buf
      ensures buf.Valid()
      ensures HeaderLine(old(request), old(buf.Contents())) ==
              if hasMore then More(request, buf.Contents()) else Done(Parsed(true, state, request, buf.Contents()))
      ensures hasMore ==> state == ExpectHeaders
      ensures state != ExpectRequestLine
    {
      hasMore := false;
      var input := buf.buffers[buf.reader..buf.writer];
      var crlf := FindCrlf(input);
      if crlf.Some? {
        var line := input[..crlf.value];
        var colon := Find(line, ':');
        if colon != |line| {
          var value := TrimValue(line[colon + 1..]);
          request := request.(headers := request.headers[line[..colon] := value]);
          hasMore := true;
        } else {
          state := GotAll;
        }
        buf.Retrieve(crlf.value + 2);
      }
    }
  }

  lemma VersionByLastByte(version: seq<Byte>)
    ensures if |version| == 8 && version[..7] == "HTTP/1." then
              VersionOf(version) == if version[7] == '1' then Http11 else if version[7] == '0' then Http10 else Unknown
            else VersionOf(version) == Unknown
  {
    if |version| == 8 {
      assert version == version[..7] + [version[7]];
    }
  }

  // ----- independence of chunking

  lemma CrlfInLonger(s: seq<Byte>, t: seq<Byte>)
    requires FindCrlf(s).Some?
    ensures FindCrlf(s + t) == FindCrlf(s)
  {
    var k, j := FindCrlf(s).value, FindCrlf(s + t);
    assert CrlfAt(s + t, k);
    assert j.value < k ==> CrlfAt(s, j.value);
  }

  /** A line that is complete in `s` is taken in the same way from `s + t`. */
  lemma StepInLonger(request: Request, s: seq<Byte>, t: seq<Byte>)
    requires FindCrlf(s).Some?
    ensures match FirstLine(request, s)
            case More(q, rest) => FirstLine(request, s + t) == More(q, rest + t)
            case Done(r) => FirstLine(request, s + t) == Done(r.(rest := r.rest + t))
    ensures match HeaderLine(request, s)
            case More(q, rest) => HeaderLine(request, s + t) == More(q, rest + t)
            case Done(r) => HeaderLine(request, s + t) == Done(r.(rest := r.rest + t))
  {
    CrlfInLonger(s, t);
    var k := FindCrlf(s).value;
    assert (s + t)[..k] == s[..k];
    assert (s + t)[k + 2..] == s[k + 2..] + t;
  }

  predicate Finished(r: Parsed) {
    !r.ok || r.state == GotAll
  }

  lemma {:induction false} StateReached(state: State, request: Request, s: seq<Byte>)
    requires state == ExpectRequestLine || state == ExpectHeaders
    ensures var r := Parse(state, request, s);
            && r.state != ExpectBody && (state == ExpectHeaders ==> r.state != ExpectRequestLine)
            && (!Finished(r) ==> FindCrlf(r.rest).None?)
            && (r.ok && r.state == ExpectRequestLine ==> r.request == request)
    decreases |s|
  {
    var step := if state == ExpectRequestLine then FirstLine(request, s) else HeaderLine(request, s);
    if step.More? {
      StateReached(ExpectHeaders, step.request, step.rest);
    }
  }

  /**
   Parsing `s` and then, unless that finished, what it left followed by `t`, gives what parsing
   `s + t` at once gives. If `s` finished, `t` stays behind what it left.
   */
  lemma {:induction false} ParseInTwo(state: State, request: Request, s: seq<Byte>, t: seq<Byte>)
    requires state == ExpectRequestLine || state == ExpectHeaders
    ensures var a := Parse(state, request, s);
            && (Finished(a) ==> Parse(state, request, s + t) == a.(rest := a.rest + t))
            && (!Finished(a) ==> a.state in {ExpectRequestLine, ExpectHeaders})
            && (!Finished(a) ==> Parse(state, request, s + t) == Parse(a.state, a.request, a.rest + t))
    decreases |s|
  {
    StateReached(state, request, s);
    if FindCrlf(s).Some? {
      StepInLonger(request, s, t);
      var step := if state == ExpectRequestLine then FirstLine(request, s) else HeaderLine(request, s);
      if step.More? {
        ParseInTwo(ExpectHeaders, step.request, step.rest, t);
      }
    }
  }

  function Concat(chunks: seq<seq<Byte>>): seq<Byte> {
    if chunks == [] then [] else chunks[0] + Concat(chunks[1..])
  }

  /** Input that arrives in pieces: each is appended to what is left, and parsed unless the parser is finished. */
  function Feed(state: State, request: Request, pending: seq<Byte>, chunks: seq<seq<Byte>>): Parsed
    requires state == ExpectRequestLine || state == ExpectHeaders
    decreases |chunks|
  {
    var r := Parse(state, request, pending);
    StateReached(state, request, pending);
    if chunks == [] then r
    else if Finished(r) then r.(rest := r.rest + Concat(chunks))
    else Feed(r.state, r.request, r.rest + chunks[0], chunks[1..])
  }

  /** However the input is cut into pieces, the outcome is that of the whole input. */
  lemma {:induction false} ChunkingIsIrrelevant(state: State, request: Request, pending: seq<Byte>, chunks: seq<seq<Byte>>)
    requires state == ExpectRequestLine || state == ExpectHeaders
    ensures Feed(state, request, pending, chunks) == Parse(state, request, pending + Concat(chunks))
    decreases |chunks|
  {
    hide Parse;
    if chunks == [] {
      assert pending + Concat(chunks) == pending;
    } else {
      var r := Parse(state, request, pending);
      StateReached(state, request, pending);
      ParseInTwo(state, request, pending, Concat(chunks));
      if !Finished(r) {
        ChunkingIsIrrelevant(r.state, r.request, r.rest + chunks[0], chunks[1..]);
        assert r.rest + Concat(chunks) == r.rest + chunks[0] + Concat(chunks[1..]);
      }
    }
  }

  // ----- when the loop returns

  /** What the parser's loop works on. */
  datatype Turn = Turn(ok: bool, hasMore: bool, state: State, request: Request, rest: seq<Byte>)

  /** One turn of the loop, which has no statement for the two states behind the header fields. */
  function TakeTurn(t: Turn): Turn {
    match t.state
    case ExpectRequestLine => (
      match FirstLine(t.request, t.rest)
      case More(request, rest) => t.(ok := true, state := ExpectHeaders, request := request, rest := rest)
      case Done(r) => Turn(r.ok, false, r.state, r.request, r.rest))
    case ExpectHeaders => (
      match HeaderLine(t.request, t.rest)
      case More(request, rest) => t.(request := request, rest := rest)
      case Done(r) => Turn(t.ok, false, r.state, r.request, r.rest))
    case ExpectBody => t
    case GotAll => t
  }

  /** At most `n` turns, fewer if the loop ends before. */
  function Turns(t: Turn, n: nat): Turn
    decreases n
  {
    if n == 0 || !t.hasMore then t else Turns(TakeTurn(t), n - 1)
  }

  /** A turn changes nothing, and so every following one changes nothing, in exactly those two states. */
  lemma StuckIff(t: Turn)
    requires t.hasMore
    ensures TakeTurn(t) == t <==> t.state == GotAll || t.state == ExpectBody
  {
  }

  lemma {:induction false} StuckForever(t: Turn, n: nat)
    requires t.hasMore && (t.state == GotAll || t.state == ExpectBody)
    ensures Turns(t, n) == t
  {
    if n > 0 {
      StuckForever(t, n - 1);
    }
  }

  /** In the other two states the loop ends after as many turns as there are bytes, at most, with the outcome of Parse. */
  lemma {:induction false} TurnsParse(t: Turn, n: nat)
    requires t.hasMore && t.ok && (t.state == ExpectRequestLine || t.state == ExpectHeaders) && n > |t.rest|
    ensures var r := Parse(t.state, t.request, t.rest);
            Turns(t, n) == Turn(r.ok, false, r.state, r.request, r.rest)
    decreases n
  {
    var u := TakeTurn(t);
    if u.hasMore {
      TurnsParse(u, n - 1);
    } else {
      assert Turns(u, n - 1) == u;
    }
  }

  /** The loop returns if and only if it is entered in one of those, whatever the input. */
  lemma ReturnsIff(state: State, request: Request, input: seq<Byte>)
    ensures (exists n: nat :: !Turns(Turn(true, true, state, request, input), n).hasMore)
            <==> state == ExpectRequestLine || state == ExpectHeaders
  {
    var t := Turn(true, true, state, request, input);
    if state == ExpectRequestLine || state == ExpectHeaders {
      TurnsParse(t, |input| + 1);
    } else {
      forall n: nat ensures Turns(t, n).hasMore {
        StuckForever(t, n);
      }
    }
  }

  // ----- what is accepted

  lemma FindOf(s: seq<Byte>, c: Byte, t: seq<Byte>)
    requires c !in s
    ensures Find(s + [c] + t, c) == |s| && Find(s, c) == |s|
  {
    var u := s + [c] + t;
    assert u[|s|] == c;
    assert forall j :: 0 <= j < |s| ==> u[j] == s[j];
  }

  predicate AllSpace(s: seq<Byte>) {
    forall i :: 0 <= i < |s| ==> IsSpace(s[i])
  }

  /** No white space at either end. */
  predicate Bare(s: seq<Byte>) {
    s == [] || (!IsSpace(s[0]) && !IsSpace(s[|s| - 1]))
  }

  /** White space is what isspace() says: the space, and the codes from tab to carriage return. */
  lemma WhiteSpace(c: Byte)
    ensures IsSpace(c) <==> c in [' ', '\t', '\n', 11 as char, 12 as char, '\r']
  {
  }

  /** Trimming removes white space from both ends, and nothing else. */
  lemma TrimSplits(s: seq<Byte>) returns (pre: seq<Byte>, post: seq<Byte>)
    ensures s == pre + Trim(s) + post && AllSpace(pre) && AllSpace(post) && Bare(Trim(s))
  {
    pre := TrimLeftSplits(s);
    post := TrimRightSplits(TrimLeft(s));
  }

  lemma {:induction false} TrimLeftSplits(s: seq<Byte>) returns (pre: seq<Byte>)
    ensures s == pre + TrimLeft(s) && AllSpace(pre) && (TrimLeft(s) != [] ==> !IsSpace(TrimLeft(s)[0]))
  {
    if s != [] && IsSpace(s[0]) {
      pre := TrimLeftSplits(s[1..]);
      pre := [s[0]] + pre;
    } else {
      pre := [];
    }
  }

  lemma {:induction false} TrimRightSplits(s: seq<Byte>) returns (post: seq<Byte>)
    ensures s == TrimRight(s) + post && AllSpace(post)
    ensures var r := TrimRight(s); r != [] ==> !IsSpace(r[|r| - 1]) && r[0] == s[0]
  {
    if s != [] && IsSpace(s[|s| - 1]) {
      post := TrimRightSplits(s[..|s| - 1]);
      post := post + [s[|s| - 1]];
    } else {
      post := [];
    }
  }

  /** A known method, a target without a space, and a known version, separated by single spaces. */
  predicate IsRequestLine(line: seq<Byte>, m: seq<Byte>, target: seq<Byte>, v: seq<Byte>) {
    line == m + [' '] + target + [' '] + v && ' ' !in target && MethodOf(m) != Invalid && VersionOf(v) != Unknown
  }

  /** Exactly the lines of that form are accepted. */
  lemma RequestLineAccepts(request: Request, line: seq<Byte>)
    ensures RequestLine(request, line).ok <==> exists m, target, v :: IsRequestLine(line, m, target, v)
  {
    if RequestLine(request, line).ok {
      var m, target, v := SplitRequestLine(request, line);
    }
    forall m, target, v | IsRequestLine(line, m, target, v) ensures RequestLine(request, line).ok {
      RequestLineOf(request, m, target, v);
    }
  }

  lemma SplitRequestLine(request: Request, line: seq<Byte>) returns (m: seq<Byte>, target: seq<Byte>, v: seq<Byte>)
    requires RequestLine(request, line).ok
    ensures IsRequestLine(line, m, target, v)
  {
    var rest;
    m, rest := SplitMethod(request, line);
    target, v := SplitTarget(request.(verb := MethodOf(m)), rest);
    Associate(m, target, v);
  }

  lemma Associate(m: seq<Byte>, target: seq<Byte>, v: seq<Byte>)
    ensures m + [' '] + (target + [' '] + v) == m + [' '] + target + [' '] + v
  {
  }

  lemma SplitMethod(request: Request, line: seq<Byte>) returns (m: seq<Byte>, rest: seq<Byte>)
    requires RequestLine(request, line).ok
    ensures line == m + [' '] + rest && MethodOf(m) != Invalid
    ensures TargetAndVersion(request.(verb := MethodOf(m)), rest).ok
  {
    hide TargetAndVersion, MethodOf;
    var space := Find(line, ' ');
    m, rest := line[..space], line[space + 1..];
  }

  lemma SplitTarget(request: Request, rest: seq<Byte>) returns (target: seq<Byte>, v: seq<Byte>)
    requires TargetAndVersion(request, rest).ok
    ensures rest == target + [' '] + v && ' ' !in target && VersionOf(v) != Unknown
  {
    var space := Find(rest, ' ');
    target, v := rest[..space], rest[space + 1..];
  }

  /** HttpRequest::methodString. */
  function MethodString(verb: Method): seq<Byte> {
    match verb
    case Get => "GET"
    case Post => "POST"
    case Put => "PUT"
    case Delete => "DELETE"
    case Head => "HEAD"
    case Invalid => "UNKNOWN"
  }

  /** Every method but one is known by the name that it is printed with; no other name is known. */
  lemma MethodNames(verb: Method, m: seq<Byte>)
    ensures MethodOf(MethodString(verb)) == verb <==> verb != Head
    ensures MethodOf(m) == verb && verb != Invalid ==> m == MethodString(verb)
  {
  }

  function VersionString(version: Version): seq<Byte>
    requires version != Unknown
  {
    if version == Http10 then "HTTP/1.0" else "HTTP/1.1"
  }

  lemma VersionNames(version: Version, v: seq<Byte>)
    requires version != Unknown
    ensures VersionOf(v) == version <==> v == VersionString(version)
  {
  }

  /** The target is cut at its first question mark, which begins the query; without one it is all path. */
  lemma TargetParts(request: Request, target: seq<Byte>)
    ensures var r := SetTarget(request, target);
            && r.verb == request.verb && r.version == request.version && r.headers == request.headers
            && '?' !in r.path
            && if '?' in target then r.path + r.query == target && r.query != [] && r.query[0] == '?'
               else r.path == target && r.query == request.query
  {
  }

  /** There is only one way to cut it like that. */
  lemma TargetOf(request: Request, path: seq<Byte>, query: seq<Byte>)
    requires '?' !in path && (query != [] ==> query[0] == '?') && (query == [] ==> request.query == [])
    ensures SetTarget(request, path + query) == request.(path := path, query := query)
  {
    if query == [] {
      assert path + query == path;
    } else {
      FindOf(path, '?', query[1..]);
      assert path + query == path + ['?'] + query[1..];
    }
  }

  /** What an accepted line sets, and that it leaves the header fields alone. */
  lemma RequestLineSets(request: Request, m: seq<Byte>, target: seq<Byte>, v: seq<Byte>)
    requires ' ' !in target && MethodOf(m) != Invalid && VersionOf(v) != Unknown
    ensures var r := RequestLine(request, m + [' '] + target + [' '] + v);
            && r.ok && m == MethodString(r.request.verb) && v == VersionString(r.request.version)
            && r.request.headers == request.headers && '?' !in r.request.path
            && if '?' in target then r.request.path + r.request.query == target && r.request.query[0] == '?'
               else r.request.path == target && r.request.query == request.query
  {
    RequestLineOf(request, m, target, v);
    TargetParts(request.(verb := MethodOf(m)), target);
    MethodNames(MethodOf(m), m);
    VersionNames(VersionOf(v), v);
  }

  /** A line that is refused leaves the version and the header fields alone. */
  lemma RefusedLine(request: Request, line: seq<Byte>)
    requires !RequestLine(request, line).ok
    ensures var r := RequestLine(request, line).request; r.version == request.version && r.headers == request.headers
  {
  }

  /** The same, as the specification has it. */
  lemma RequestLineOf(request: Request, m: seq<Byte>, target: seq<Byte>, v: seq<Byte>)
    requires ' ' !in target && MethodOf(m) != Invalid && VersionOf(v) != Unknown
    ensures RequestLine(request, m + [' '] + target + [' '] + v) ==
            LineResult(true, SetTarget(request.(verb := MethodOf(m)), target).(version := VersionOf(v)))
  {
    var line, rest := m + [' '] + target + [' '] + v, target + [' '] + v;
    MethodHasNoSpace(m);
    Associate(m, target, v);
    FindOf(m, ' ', rest);
    FindOf(target, ' ', v);
    assert line[..|m|] == m && line[|m| + 1..] == rest;
    assert rest[..|target|] == target && rest[|target| + 1..] == v;
  }

  lemma MethodHasNoSpace(m: seq<Byte>)
    requires MethodOf(m) != Invalid
    ensures ' ' !in m
  {
  }

  // ----- line by line

  /** The first CR LF of `line` followed by one comes after `line`. */
  predicate IsLine(line: seq<Byte>, rest: seq<Byte>) {
    FindCrlf(line + ['\r', '\n'] + rest) == Some(|line|)
  }

  /** Without a complete line nothing happens. */
  lemma NoLine(state: State, request: Request, input: seq<Byte>)
    requires (state == ExpectRequestLine || state == ExpectHeaders) && forall i :: !CrlfAt(input, i)
    ensures Parse(state, request, input) == Parsed(true, state, request, input)
  {
  }

  /** A request line that is not accepted stops the parser, and is not consumed; one that is leads on to the header fields. */
  lemma OnRequestLine(request: Request, line: seq<Byte>, rest: seq<Byte>)
    requires IsLine(line, rest)
    ensures var input, r := line + ['\r', '\n'] + rest, RequestLine(request, line);
            Parse(ExpectRequestLine, request, input) ==
              if exists m, target, v :: IsRequestLine(line, m, target, v) then Parse(ExpectHeaders, r.request, rest)
              else Parsed(false, ExpectRequestLine, r.request, input)
  {
    RequestLineAccepts(request, line);
    var input := line + ['\r', '\n'] + rest;
    assert input[..|line|] == line && input[|line| + 2..] == rest;
  }

  /** A header line with a colon sets the field before it to what follows it, trimmed. */
  lemma OnHeader(request: Request, name: seq<Byte>, value: seq<Byte>, rest: seq<Byte>)
    requires ':' !in name && IsLine(name + [':'] + value, rest)
    ensures Parse(ExpectHeaders, request, name + [':'] + value + ['\r', '\n'] + rest) ==
            Parse(ExpectHeaders, request.(headers := request.headers[name := Trim(value)]), rest)
  {
    var line := name + [':'] + value;
    var input := line + ['\r', '\n'] + rest;
    assert input[..|line|] == line && input[|line| + 2..] == rest;
    FindOf(name, ':', value);
    assert line[..|name|] == name && line[|name| + 1..] == value;
  }

  /** A line without a colon, be it empty or not, ends the request. */
  lemma OnOtherLine(request: Request, line: seq<Byte>, rest: seq<Byte>)
    requires ':' !in line && IsLine(line, rest)
    ensures Parse(ExpectHeaders, request, line + ['\r', '\n'] + rest) == Parsed(true, GotAll, request, rest)
  {
    var input := line + ['\r', '\n'] + rest;
    assert input[..|line|] == line && input[|line| + 2..] == rest;
  }

  // ----- round trip

  type Field = (seq<Byte>, seq<Byte>)

  predicate WellFormed(f: Field) {
    ':' !in f.0 && '\r' !in f.0 && '\r' !in f.1 && Bare(f.1)
  }

  function RenderHeaders(fields: seq<Field>): seq<Byte> {
    if fields == [] then ['\r', '\n']
    else fields[0].0 + [':'] + [' '] + fields[0].1 + ['\r', '\n'] + RenderHeaders(fields[1..])
  }

  function HeaderMap(headers: map<seq<Byte>, seq<Byte>>, fields: seq<Field>): map<seq<Byte>, seq<Byte>>
    decreases |fields|
  {
    if fields == [] then headers else HeaderMap(headers[fields[0].0 := fields[0].1], fields[1..])
  }

  function RenderRequest(m: seq<Byte>, target: seq<Byte>, v: seq<Byte>, fields: seq<Field>): seq<Byte> {
    m + [' '] + target + [' '] + v + ['\r', '\n'] + RenderHeaders(fields)
  }

  lemma CrlfAfter(s: seq<Byte>, t: seq<Byte>)
    requires '\r' !in s
    ensures FindCrlf(s + ['\r', '\n'] + t) == Some(|s|)
  {
    var u := s + ['\r', '\n'] + t;
    assert CrlfAt(u, |s|);
    forall j | 0 <= j < |s| ensures !CrlfAt(u, j) {
      assert u[j] == s[j];
    }
  }

  lemma {:induction false} TrimBare(s: seq<Byte>)
    requires Bare(s)
    ensures Trim([' '] + s) == s
  {
    assert ([' '] + s)[1..] == s;
    assert TrimLeft([' '] + s) == TrimLeft(s) == s;
  }

  lemma {:induction false} HeadersRoundTrip(request: Request, fields: seq<Field>, rest: seq<Byte>)
    requires forall i :: 0 <= i < |fields| ==> WellFormed(fields[i])
    ensures Parse(ExpectHeaders, request, RenderHeaders(fields) + rest) ==
            Parsed(true, GotAll, request.(headers := HeaderMap(request.headers, fields)), rest)
    decreases |fields|
  {
    var input := RenderHeaders(fields) + rest;
    if fields == [] {
      assert input == [] + ['\r', '\n'] + rest;
      CrlfAfter([], rest);
      assert input[2..] == rest && input[..0] == [];
    } else {
      var f := fields[0];
      var line, tail := f.0 + [':'] + ([' '] + f.1), RenderHeaders(fields[1..]) + rest;
      assert input == line + ['\r', '\n'] + tail;
      CrlfAfter(line, tail);
      assert input[..|line|] == line && input[|line| + 2..] == tail;
      FindOf(f.0, ':', [' '] + f.1);
      assert line[..|f.0|] == f.0 && line[|f.0| + 1..] == [' '] + f.1;
      TrimBare(f.1);
      HeadersRoundTrip(AddHeader(request, line, |f.0|), fields[1..], tail[|RenderHeaders(fields[1..])|..]);
    }
  }

  /** A request written out is parsed back to its fields, and what follows it is left for the next one. */
  lemma RequestRoundTrip(verb: Method, version: Version, path: seq<Byte>, query: seq<Byte>, fields: seq<Field>, rest: seq<Byte>)
    requires verb != Invalid && verb != Head && version != Unknown
    requires ' ' !in path && '\r' !in path && '?' !in path
    requires ' ' !in query && '\r' !in query && (query != [] ==> query[0] == '?')
    requires forall i :: 0 <= i < |fields| ==> WellFormed(fields[i])
    ensures Parse(ExpectRequestLine, EMPTY_REQUEST,
                  RenderRequest(MethodString(verb), path + query, VersionString(version), fields) + rest) ==
            Parsed(true, GotAll, Request(verb, version, path, query, HeaderMap(map[], fields)), rest)
  {
    var m, target, v := MethodString(verb), path + query, VersionString(version);
    MethodNames(verb, m);
    VersionNames(version, v);
    TargetOf(EMPTY_REQUEST.(verb := verb), path, query);
    hide SetTarget, MethodOf, VersionOf, RequestLine, MethodString, VersionString;
    ParsedBack(m, target, v, fields, rest);
  }

  lemma RenderSplits(m: seq<Byte>, target: seq<Byte>, v: seq<Byte>, fields: seq<Field>, rest: seq<Byte>)
    ensures RenderRequest(m, target, v, fields) + rest == m + [' '] + target + [' '] + v + ['\r', '\n'] + (RenderHeaders(fields) + rest)
  {
    hide RenderHeaders;
  }

  lemma ParsedBack(m: seq<Byte>, target: seq<Byte>, v: seq<Byte>, fields: seq<Field>, rest: seq<Byte>)
    requires ' ' !in target && '\r' !in target && MethodOf(m) != Invalid && VersionOf(v) != Unknown
    requires forall i :: 0 <= i < |fields| ==> WellFormed(fields[i])
    ensures Parse(ExpectRequestLine, EMPTY_REQUEST, RenderRequest(m, target, v, fields) + rest) ==
            Parsed(true, GotAll,
                   SetTarget(EMPTY_REQUEST.(verb := MethodOf(m)), target).(version := VersionOf(v), headers := HeaderMap(map[], fields)),
                   rest)
  {
    var line, tail := m + [' '] + target + [' '] + v, RenderHeaders(fields) + rest;
    var input := RenderRequest(m, target, v, fields) + rest;
    LineHasNoCr(m, target, v);
    CrlfAfter(line, tail);
    RequestLineOf(EMPTY_REQUEST, m, target, v);
    RenderSplits(m, target, v, fields, rest);
    hide Parse, RequestLine, RenderRequest, RenderHeaders, SetTarget, HeaderMap, MethodOf, VersionOf;
    assert IsRequestLine(line, m, target, v);
    OnRequestLine(EMPTY_REQUEST, line, tail);
    HeadersRoundTrip(RequestLine(EMPTY_REQUEST, line).request, fields, rest);
  }

  lemma LineHasNoCr(m: seq<Byte>, target: seq<Byte>, v: seq<Byte>)
    requires '\r' !in target && MethodOf(m) != Invalid && VersionOf(v) != Unknown
    ensures '\r' !in m + [' '] + target + [' '] + v
  {
    assert '\r' !in m;
    assert '\r' !in v;
  }
}
