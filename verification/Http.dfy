/**
 Incremental parsing of HTTP requests: the parser as a function of its state, the request so far and
 the unread bytes, with its partner, the text of a request.
*/
module HttpModel {
  import opened Common
  import opened TextSearch

  datatype Method = Invalid | Get | Post | Head | Put | Delete
  datatype Version = Unknown | Http10 | Http11

  datatype Request = Request(
    method_: Method,
    version: Version,
    path: string,
    query: string,
    receiveTime: int,
    headers: map<string, string>)

  const EMPTY_REQUEST := Request(Invalid, Unknown, "", "", 0, map[])

  datatype ParseState = ExpectRequestLine | ExpectHeaders | ExpectBody | GotAll

  /** What parseRequest leaves behind: its verdict, its context and the unread bytes. */
  datatype Outcome = Outcome(ok: bool, state: ParseState, request: Request, rest: string)

  // ---------- trimming ----------

  predicate IsSpace(c: char) {
    c == ' ' || ('\t' <= c <= '\r')
  }

  function TrimLeft(s: string): string {
    if s != "" && IsSpace(s[0]) then TrimLeft(s[1..]) else s
  }

  function TrimRight(s: string): string {
    if s != "" && IsSpace(s[|s| - 1]) then TrimRight(s[..|s| - 1]) else s
  }

  // ---------- the request line and the header lines ----------

  function MethodOf(token: string): Method {
    if token == "GET" then Get
    else if token == "POST" then Post
    else if token == "HEAD" then Head
    else if token == "PUT" then Put
    else if token == "DELETE" then Delete
    else Invalid
  }

  /** setPath and setQuery on the request target; the query keeps its question mark. */
  function WithTarget(r: Request, target: string): Request {
    var question := Find(target, '?');
    if question < |target| then r.(path := target[..question], query := target[question..]) else r.(path := target)
  }

  function VersionOf(s: string): Version {
    if |s| == 8 && s[..7] == "HTTP/1." && s[7] == '1' then Http11
    else if |s| == 8 && s[..7] == "HTTP/1." && s[7] == '0' then Http10
    else Unknown
  }

  /** processRequestLine: the verdict, and the request with all that was set before a failure. */
  function ProcessRequestLine(r: Request, line: string): (bool, Request)
    requires r.method_ == Invalid
  {
    var space := Find(line, ' ');
    if space == |line| then (false, r) else
      var r1 := r.(method_ := MethodOf(line[..space]));
      if r1.method_ == Invalid then (false, r1) else
        var rest := line[space + 1..];
        var space2 := Find(rest, ' ');
        if space2 == |rest| then (false, r1) else
          var r2 := WithTarget(r1, rest[..space2]);
          var v := VersionOf(rest[space2 + 1..]);
          if v == Unknown then (false, r2) else (true, r2.(version := v))
  }

  /** addHeader for a line with a colon at `colon`; a later field of the same name replaces an earlier one. */
  function AddHeader(r: Request, line: string, colon: nat): Request
    requires colon < |line|
  {
    r.(headers := r.headers[line[..colon] := TrimRight(TrimLeft(line[colon + 1..]))])
  }

  // ---------- the parser ----------

  /** The states in which parseRequest may be entered, and what its assert on the method needs. */
  predicate Ready(state: ParseState, r: Request) {
    (state == ExpectRequestLine && r.method_ == Invalid) || state == ExpectHeaders
  }

  function Parse(state: ParseState, r: Request, buf: string, time: int): (o: Outcome)
    requires Ready(state, r)
    ensures o.ok && o.state != GotAll ==> Ready(o.state, o.request)
    ensures !o.ok ==> o.state == ExpectRequestLine
    decreases |buf|
  {
    match FirstCrlf(buf)
    case None => Outcome(true, state, r, buf)
    case Some(i) =>
      var line, rest := buf[..i], buf[i + 2..];
      if state == ExpectRequestLine then
        var (ok, r1) := ProcessRequestLine(r, line);
        if ok then Parse(ExpectHeaders, r1.(receiveTime := time), rest, time)
        else Outcome(false, state, r1, buf)
      else
        var colon := Find(line, ':');
        if colon < |line| then Parse(ExpectHeaders, AddHeader(r, line, colon), rest, time)
        else Outcome(true, GotAll, r, rest)
  }

  // ---------- chunk independence ----------

  /** More bytes arrive. They are parsed unless the parser has stopped: failed, or got a whole request. */
  predicate Running(o: Outcome) {
    o.ok && o.state != GotAll && Ready(o.state, o.request)
  }

  function Feed(o: Outcome, chunk: string, time: int): (r: Outcome)
    requires o.ok && o.state != GotAll ==> Running(o)
    ensures r.ok && r.state != GotAll ==> Running(r)
  {
    if Running(o) then Parse(o.state, o.request, o.rest + chunk, time) else o.(rest := o.rest + chunk)
  }

  datatype Chunk = Chunk(bytes: string, time: int)

  function FeedAll(o: Outcome, chunks: seq<Chunk>): (r: Outcome)
    requires o.ok && o.state != GotAll ==> Running(o)
    ensures r.ok && r.state != GotAll ==> Running(r)
    decreases |chunks|
  {
    if chunks == [] then o else FeedAll(Feed(o, chunks[0].bytes, chunks[0].time), chunks[1..])
  }

  function AllBytes(chunks: seq<Chunk>): string
    decreases |chunks|
  {
    if chunks == [] then "" else chunks[0].bytes + AllBytes(chunks[1..])
  }

  const START := Outcome(true, ExpectRequestLine, EMPTY_REQUEST, "")

  /** Parsing in two pieces is parsing in one. */
  lemma {:induction false} ParseSplit(state: ParseState, r: Request, a: string, b: string, time: int)
    requires Ready(state, r)
    ensures var o := Parse(state, r, a, time);
            Parse(state, r, a + b, time) == Feed(o, b, time)
    decreases |a|
  {
    if FirstCrlf(a).Some? {
      CrlfStable(a, b);
      var i := FirstCrlf(a).value;
      assert (a + b)[..i] == a[..i] && (a + b)[i + 2..] == a[i + 2..] + b;
      var line := a[..i];
      if state == ExpectRequestLine {
        var (ok, r1) := ProcessRequestLine(r, line);
        if ok {
          ParseSplit(ExpectHeaders, r1.(receiveTime := time), a[i + 2..], b, time);
        }
      } else {
        var colon := Find(line, ':');
        if colon < |line| {
          ParseSplit(ExpectHeaders, AddHeader(r, line, colon), a[i + 2..], b, time);
        }
      }
    }
  }

  function Timeless(o: Outcome): Outcome {
    o.(request := o.request.(receiveTime := 0))
  }

  lemma LineTimeless(r: Request, line: string, time: int)
    requires r.method_ == Invalid
    ensures ProcessRequestLine(r.(receiveTime := time), line) ==
            (ProcessRequestLine(r, line).0, ProcessRequestLine(r, line).1.(receiveTime := time))
  {
    hide Find;
  }

  lemma {:induction false} HeadersTimeless(r: Request, buf: string, time: int, x: int)
    ensures Parse(ExpectHeaders, r.(receiveTime := x), buf, 0) ==
            var o := Parse(ExpectHeaders, r, buf, time);
            o.(request := o.request.(receiveTime := x))
    decreases |buf|
  {
    hide Find, FirstCrlf;
    if FirstCrlf(buf).Some? {
      var i := FirstCrlf(buf).value;
      var line := buf[..i];
      var colon := Find(line, ':');
      if colon < |line| {
        var r1 := AddHeader(r, line, colon);
        assert AddHeader(r.(receiveTime := x), line, colon) == r1.(receiveTime := x);
        HeadersTimeless(r1, buf[i + 2..], time, x);
      }
    }
  }

  /** The receive time is recorded but never consulted. */
  lemma TimeIsOnlyRecorded(state: ParseState, r: Request, buf: string, time: int)
    requires Ready(state, r)
    ensures Timeless(Parse(state, r, buf, time)) == Parse(state, r.(receiveTime := 0), buf, 0)
  {
    hide ProcessRequestLine, Find, FirstCrlf;
    if state == ExpectHeaders {
      HeadersTimeless(r, buf, time, 0);
    } else if FirstCrlf(buf).Some? {
      var i := FirstCrlf(buf).value;
      var line := buf[..i];
      LineTimeless(r, line, 0);
      var (ok, r1) := ProcessRequestLine(r, line);
      if ok {
        HeadersTimeless(r1.(receiveTime := time), buf[i + 2..], time, 0);
      }
    }
  }

  lemma FeedTimeless(o: Outcome, chunk: string, time: int)
    requires o.ok && o.state != GotAll ==> Running(o)
    ensures Timeless(Feed(o, chunk, time)) == Feed(Timeless(o), chunk, 0)
  {
    if Running(o) {
      TimeIsOnlyRecorded(o.state, o.request, o.rest + chunk, time);
    }
  }

  lemma FeedConcat(o: Outcome, a: string, b: string)
    requires o.ok && o.state != GotAll ==> Running(o)
    ensures Feed(o, a + b, 0) == Feed(Feed(o, a, 0), b, 0)
  {
    assert o.rest + (a + b) == (o.rest + a) + b;
    if Running(o) {
      ParseSplit(o.state, o.request, o.rest + a, b, 0);
    }
  }

  /** Whether the bytes before now have been fully parsed: parsing them again changes nothing. */
  ghost predicate Settled(o: Outcome) {
    o.ok && o.state != GotAll ==> Running(o) && FirstCrlf(o.rest).None?
  }

  lemma {:induction false} ParseSettles(state: ParseState, r: Request, buf: string, time: int)
    requires Ready(state, r)
    ensures Settled(Parse(state, r, buf, time))
    decreases |buf|
  {
    if FirstCrlf(buf).Some? {
      var i := FirstCrlf(buf).value;
      var line, rest := buf[..i], buf[i + 2..];
      if state == ExpectRequestLine {
        var (ok, r1) := ProcessRequestLine(r, line);
        if ok {
          ParseSettles(ExpectHeaders, r1.(receiveTime := time), rest, time);
        }
      } else if Find(line, ':') < |line| {
        ParseSettles(ExpectHeaders, AddHeader(r, line, Find(line, ':')), rest, time);
      }
    }
  }

  lemma {:induction false} FeedAllIsFeed(o: Outcome, chunks: seq<Chunk>)
    requires Settled(o)
    ensures Timeless(FeedAll(o, chunks)) == Feed(Timeless(o), AllBytes(chunks), 0)
    decreases |chunks|
  {
    if chunks == [] {
      assert o.rest + "" == o.rest;
    } else {
      var o1 := Feed(o, chunks[0].bytes, chunks[0].time);
      if Running(o) {
        ParseSettles(o.state, o.request, o.rest + chunks[0].bytes, chunks[0].time);
      }
      FeedAllIsFeed(o1, chunks[1..]);
      FeedTimeless(o, chunks[0].bytes, chunks[0].time);
      FeedConcat(Timeless(o), chunks[0].bytes, AllBytes(chunks[1..]));
    }
  }

  /**
   Chunk independence: however the bytes are split, and whenever the pieces arrive, verdict, parse
   state, request (receive time aside) and unread bytes are those of parsing them in one piece.
  */
  lemma ChunkIndependence(chunks: seq<Chunk>, time: int)
    ensures Timeless(FeedAll(START, chunks)) == Timeless(Feed(START, AllBytes(chunks), time))
  {
    FeedAllIsFeed(START, chunks);
    FeedTimeless(START, AllBytes(chunks), time);
  }

  // ---------- termination, and the server's use of the parser ----------

  /** The variables of the loop of parseRequest. */
  datatype Loop = Loop(hasMore: bool, ok: bool, state: ParseState, request: Request, buf: string)

  predicate LoopReady(l: Loop) {
    l.state == ExpectRequestLine ==> l.request.method_ == Invalid
  }

  /** One execution of the loop body, in any of the four states. */
  function Body(l: Loop, time: int): Loop
    requires LoopReady(l)
  {
    if l.state == ExpectRequestLine then
      match FirstCrlf(l.buf)
      case None => l.(hasMore := false)
      case Some(i) =>
        var (ok, r1) := ProcessRequestLine(l.request, l.buf[..i]);
        if ok then l.(ok := ok, state := ExpectHeaders, request := r1.(receiveTime := time), buf := l.buf[i + 2..])
        else l.(hasMore := false, ok := ok, request := r1)
    else if l.state == ExpectHeaders then
      match FirstCrlf(l.buf)
      case None => l.(hasMore := false)
      case Some(i) =>
        var line := l.buf[..i];
        var colon := Find(line, ':');
        if colon < |line| then l.(request := AddHeader(l.request, line, colon), buf := l.buf[i + 2..])
        else l.(hasMore := false, state := GotAll, buf := l.buf[i + 2..])
    else l
  }

  /** The loop after at most n executions of its body. */
  function Iterate(l: Loop, n: nat, time: int): Loop
    requires LoopReady(l)
    decreases n
  {
    if n == 0 || !l.hasMore then l else
      var l1 := Body(l, time);
      if l1.hasMore then Iterate(l1, n - 1, time) else l1
  }

  /**
   parseRequest terminates exactly when it is entered expecting a request line or headers; then it
   ends within one round per byte and one more, as Parse says. Entered in either other state it loops for ever.
  */
  lemma {:induction false} TerminatesIff(state: ParseState, r: Request, buf: string, time: int)
    requires state == ExpectRequestLine ==> r.method_ == Invalid
    ensures (exists n :: !Iterate(Loop(true, true, state, r, buf), n, time).hasMore) <==>
            (state == ExpectRequestLine || state == ExpectHeaders)
    ensures Ready(state, r) ==>
              var o := Parse(state, r, buf, time);
              Iterate(Loop(true, true, state, r, buf), |buf| + 1, time) == Loop(false, o.ok, o.state, o.request, o.rest)
  {
    var l := Loop(true, true, state, r, buf);
    if Ready(state, r) {
      LoopIsParse(l, |buf| + 1, time);
      assert !Iterate(l, |buf| + 1, time).hasMore;
    } else {
      forall n: nat ensures Iterate(l, n, time).hasMore {
        Spins(l, n, time);
      }
    }
  }

  lemma {:induction false} Spins(l: Loop, n: nat, time: int)
    requires l.hasMore && (l.state == ExpectBody || l.state == GotAll)
    ensures Iterate(l, n, time) == l
  {
    if n > 0 {
      Spins(l, n - 1, time);
    }
  }

  lemma {:induction false} LoopIsParse(l: Loop, n: nat, time: int)
    requires l.hasMore && l.ok && Ready(l.state, l.request) && n > |l.buf|
    ensures var o := Parse(l.state, l.request, l.buf, time);
            Iterate(l, n, time) == Loop(false, o.ok, o.state, o.request, o.rest)
    decreases n
  {
    hide ProcessRequestLine, Find, FirstCrlf;
    var l1 := Body(l, time);
    if l1.hasMore {
      LoopIsParse(l1, n - 1, time);
    }
  }

  /** HttpServer::onMessage: after a whole request the context is reset; the unread bytes stay. */
  function OnMessage(o: Outcome, chunk: string, time: int): Outcome
    requires Running(o)
  {
    var r := Feed(o, chunk, time);
    if r.ok && r.state == GotAll then r.(state := ExpectRequestLine, request := EMPTY_REQUEST) else r
  }

  /** What the server does to the connection. */
  datatype Reply = Send(text: string) | Shutdown

  /** The text of a response, and whether the connection is to be closed after it. */
  datatype Response = Response(text: string, close: bool)

  const BAD_REQUEST := "HTTP/1.1 400 Bad Request\r\n\r\n"

  /** Whether the request asks for the connection to be closed after the answer. */
  predicate WantsClose(r: Request) {
    HeaderOf(r, "Connection") == "close" || (r.version == Http10 && HeaderOf(r, "Connection") != "Keep-Alive")
  }

  /** getHeader. */
  function HeaderOf(r: Request, field: string): string {
    if field in r.headers then r.headers[field] else ""
  }

  /** onRequest; the callback makes the response, and may decide otherwise about closing. */
  function Answer(r: Request, callback: (Request, bool) -> Response): seq<Reply> {
    var response := callback(r, WantsClose(r));
    [Send(response.text)] + (if response.close then [Shutdown] else [])
  }

  /** What onMessage does to the connection when parsing has led to `o`. */
  function Replies(o: Outcome, callback: (Request, bool) -> Response): seq<Reply> {
    (if !o.ok then [Send(BAD_REQUEST), Shutdown] else []) +
    (if o.state == GotAll then Answer(o.request, callback) else [])
  }

  /** Each message is met with exactly one of: nothing yet, the refusal of a malformed request, one answer. */
  lemma OneReply(o: Outcome, chunk: string, time: int, callback: (Request, bool) -> Response)
    requires Running(o)
    ensures var r := Feed(o, chunk, time);
            Replies(r, callback) ==
              if !r.ok then [Send(BAD_REQUEST), Shutdown]
              else if r.state == GotAll then Answer(r.request, callback)
              else []
  {
    if o.state == ExpectRequestLine && !Feed(o, chunk, time).ok {
      LineFails(o.request, o.rest + chunk, time);
    } else if o.state == ExpectHeaders {
      HeadersNeverFail(o.request, o.rest + chunk, time);
    }
  }

  /** What the server does with messages that arrive one after the other, as long as none is malformed. */
  function ServeAll(o: Outcome, chunks: seq<Chunk>, callback: (Request, bool) -> Response): seq<Reply>
    requires Running(o)
    decreases |chunks|
  {
    if chunks == [] then [] else
      var r := Feed(o, chunks[0].bytes, chunks[0].time);
      OnMessageKeepsRunning(o, chunks[0].bytes, chunks[0].time);
      Replies(r, callback) +
      (if r.ok then ServeAll(OnMessage(o, chunks[0].bytes, chunks[0].time), chunks[1..], callback) else [])
  }

  /**
   A request that arrives in any number of messages, the last of which completes it, is answered exactly
   once, and as the request that it is.
  */
  lemma {:induction false} AnsweredOnce(o: Outcome, chunks: seq<Chunk>, last: Chunk, callback: (Request, bool) -> Response)
    requires Running(o) && Running(FeedAll(o, chunks)) && FeedAll(o, chunks + [last]).state == GotAll
    ensures ServeAll(o, chunks + [last], callback) == Answer(FeedAll(o, chunks + [last]).request, callback)
    decreases |chunks|
  {
    hide Parse, Answer;
    var all := chunks + [last];
    if chunks == [] {
      assert all[1..] == [];
      var r := Feed(o, last.bytes, last.time);
      assert FeedAll(o, all) == FeedAll(r, []) == r;
      OneReply(o, last.bytes, last.time, callback);
      GotAllIsOk(o, last.bytes, last.time);
      OnMessageKeepsRunning(o, last.bytes, last.time);
      assert ServeAll(OnMessage(o, last.bytes, last.time), [], callback) == [];
    } else {
      assert all[0] == chunks[0] && all[1..] == chunks[1..] + [last];
      var r := Feed(o, chunks[0].bytes, chunks[0].time);
      StaysStopped(r, chunks[1..]);
      OneReply(o, chunks[0].bytes, chunks[0].time, callback);
      assert OnMessage(o, chunks[0].bytes, chunks[0].time) == r;
      AnsweredOnce(r, chunks[1..], last, callback);
    }
  }

  lemma GotAllIsOk(o: Outcome, chunk: string, time: int)
    requires Running(o) && Feed(o, chunk, time).state == GotAll
    ensures Feed(o, chunk, time).ok
  {
    if !Feed(o, chunk, time).ok {
      if o.state == ExpectRequestLine {
        LineFails(o.request, o.rest + chunk, time);
      } else {
        HeadersNeverFail(o.request, o.rest + chunk, time);
      }
    }
  }

  /** The parser that has stopped does not start again by itself. */
  lemma {:induction false} StaysStopped(o: Outcome, chunks: seq<Chunk>)
    requires o.ok && o.state != GotAll ==> Running(o)
    ensures Running(FeedAll(o, chunks)) ==> Running(o)
    decreases |chunks|
  {
    hide Parse;
    if chunks != [] {
      StaysStopped(Feed(o, chunks[0].bytes, chunks[0].time), chunks[1..]);
    }
  }

  /** So as long as no request was malformed the next call finds the parser in a state where it terminates. */
  lemma OnMessageKeepsRunning(o: Outcome, chunk: string, time: int)
    requires Running(o)
    ensures var r := OnMessage(o, chunk, time);
            r.ok ==> Running(r) && r.state != ExpectBody && r.state != GotAll
  {
  }

  /**
   After a failure the bad line is still unread. Parsing again is safe for the assert of setMethod
   exactly if the line has no space or its first word is not a known method.
  */
  lemma ReparseAfterFailure(o: Outcome, chunk: string, time: int)
    requires Running(o) && !Feed(o, chunk, time).ok
    ensures var r := Feed(o, chunk, time);
            var line := BadLineOf(o, chunk);
            && r.rest == o.rest + chunk && line <= r.rest
            && (Ready(r.state, r.request) <==>
                  Find(line, ' ') == |line| || MethodOf(line[..Find(line, ' ')]) == Invalid)
  {
    var buf := o.rest + chunk;
    if o.state == ExpectHeaders {
      HeadersNeverFail(o.request, buf, time);
    } else {
      LineFails(o.request, buf, time);
      hide FirstCrlf, Parse, Find;
    }
  }

  /** The only failure is that of a request line, and it leaves the bytes and most of the request alone. */
  lemma LineFails(r: Request, buf: string, time: int)
    requires r.method_ == Invalid && !Parse(ExpectRequestLine, r, buf, time).ok
    ensures FirstCrlf(buf).Some?
    ensures var line := buf[..FirstCrlf(buf).value];
            Parse(ExpectRequestLine, r, buf, time) ==
            Outcome(false, ExpectRequestLine, ProcessRequestLine(r, line).1, buf)
  {
    hide ProcessRequestLine, FirstCrlf;
    if FirstCrlf(buf).Some? {
      var i := FirstCrlf(buf).value;
      var (ok, r1) := ProcessRequestLine(r, buf[..i]);
      if ok {
        HeadersNeverFail(r1.(receiveTime := time), buf[i + 2..], time);
      }
    }
  }

  /** The request line at the front of the bytes that are about to be parsed. */
  function BadLineOf(o: Outcome, chunk: string): string {
    var buf := o.rest + chunk;
    match FirstCrlf(buf)
    case Some(i) => buf[..i]
    case None => ""
  }

  lemma {:induction false} HeadersNeverFail(r: Request, buf: string, time: int)
    ensures Parse(ExpectHeaders, r, buf, time).ok
    decreases |buf|
  {
    hide AddHeader, Find, FirstCrlf;
    if FirstCrlf(buf).Some? {
      var i := FirstCrlf(buf).value;
      var line := buf[..i];
      if Find(line, ':') < |line| {
        HeadersNeverFail(AddHeader(r, line, Find(line, ':')), buf[i + 2..], time);
      }
    }
  }

  // ---------- round trip ----------

  /** What is not yet ended by a line end stays, and nothing else changes. */
  lemma WaitsForLineEnd(state: ParseState, r: Request, buf: string, time: int)
    requires Ready(state, r) && forall i :: 0 <= i < |buf| - 1 ==> !(buf[i] == '\r' && buf[i + 1] == '\n')
    ensures Parse(state, r, buf, time) == Outcome(true, state, r, buf)
  {
    NoCrlf(buf);
  }

  /** Any header line without a colon ends the headers, and is used up. */
  lemma NoColonEndsHeaders(r: Request, line: string, rest: string, time: int)
    requires '\r' !in line && ':' !in line
    ensures Parse(ExpectHeaders, r, line + "\r\n" + rest, time) == Outcome(true, GotAll, r, rest)
  {
    CrlfAfter(line, rest);
    FindIs(line, ':', |line|);
  }

  /** White space is what isspace accepts: a blank, and the codes 9 to 13. */
  lemma WhiteSpace(c: char)
    ensures IsSpace(c) <==> c as int == 32 || 9 <= c as int <= 13
  {
  }

  /** A header field with optional white space around its value (section 3.2 of RFC 7230). */
  datatype Header = Header(field: string, before: string, value: string, after: string)

  datatype Message = Message(
    method_: Method, path: string, query: string, version: Version, headers: seq<Header>)

  function MethodText(m: Method): string {
    match m
    case Get => "GET"
    case Post => "POST"
    case Head => "HEAD"
    case Put => "PUT"
    case Delete => "DELETE"
    case Invalid => ""
  }

  function VersionText(v: Version): string {
    if v == Http10 then "HTTP/1.0" else "HTTP/1.1"
  }

  function LineText(m: Message): string {
    MethodText(m.method_) + " " + (m.path + m.query) + " " + VersionText(m.version)
  }

  function HeaderText(h: Header): string {
    h.field + ":" + (h.before + h.value + h.after)
  }

  function HeadersText(hs: seq<Header>): string {
    if hs == [] then "\r\n" else HeaderText(hs[0]) + "\r\n" + HeadersText(hs[1..])
  }

  function MessageText(m: Message): string {
    LineText(m) + "\r\n" + HeadersText(m.headers)
  }

  predicate Blank(s: string) {
    forall i :: 0 <= i < |s| ==> s[i] == ' ' || s[i] == '\t'
  }

  predicate HeaderOk(h: Header) {
    && ':' !in h.field && '\r' !in h.field && '\r' !in h.value
    && Blank(h.before) && Blank(h.after)
    && (h.value != "" ==> !IsSpace(h.value[0]) && !IsSpace(h.value[|h.value| - 1]))
  }

  predicate MessageOk(m: Message) {
    && m.method_ != Invalid && m.version != Unknown
    && ' ' !in m.path && '?' !in m.path && '\r' !in m.path
    && ' ' !in m.query && '\r' !in m.query && (m.query != "" ==> m.query[0] == '?')
    && forall i :: 0 <= i < |m.headers| ==> HeaderOk(m.headers[i])
  }

  /** Header fields by name; of two with the same name the later one counts. */
  function HeaderMap(init: map<string, string>, hs: seq<Header>): map<string, string>
    decreases |hs|
  {
    if hs == [] then init else HeaderMap(init[hs[0].field := hs[0].value], hs[1..])
  }

  lemma {:induction false} TrimLeftBlank(b: string, s: string)
    requires Blank(b) && (s != "" ==> !IsSpace(s[0]))
    ensures TrimLeft(b + s) == s
  {
    if b == "" {
      assert b + s == s;
    } else {
      assert (b + s)[0] == b[0] && (b + s)[1..] == b[1..] + s;
      TrimLeftBlank(b[1..], s);
    }
  }

  lemma {:induction false} TrimRightBlank(s: string, b: string)
    requires Blank(b) && (s != "" ==> !IsSpace(s[|s| - 1]))
    ensures TrimRight(s + b) == s
  {
    if b == "" {
      assert s + b == s;
    } else {
      assert (s + b)[..|s + b| - 1] == s + b[..|b| - 1];
      TrimRightBlank(s, b[..|b| - 1]);
    }
  }

  lemma TrimExact(h: Header)
    requires HeaderOk(h)
    ensures TrimRight(TrimLeft(h.before + h.value + h.after)) == h.value
  {
    if h.value == "" {
      assert h.before + h.value + h.after == (h.before + h.after) + "";
      TrimLeftBlank(h.before + h.after, "");
    } else {
      assert h.before + h.value + h.after == h.before + (h.value + h.after);
      TrimLeftBlank(h.before, h.value + h.after);
      TrimRightBlank(h.value, h.after);
    }
  }

  lemma HeaderParses(r: Request, h: Header)
    requires HeaderOk(h)
    ensures var line := HeaderText(h);
            && '\r' !in line && Find(line, ':') == |h.field|
            && AddHeader(r, line, |h.field|) == r.(headers := r.headers[h.field := h.value])
  {
    var line := HeaderText(h);
    assert line[..|h.field|] == h.field && line[|h.field| + 1..] == h.before + h.value + h.after;
    FindIs(line, ':', |h.field|);
    TrimExact(h);
  }

  lemma {:induction false} HeadersParse(r: Request, hs: seq<Header>, rest: string, time: int)
    requires forall i :: 0 <= i < |hs| ==> HeaderOk(hs[i])
    ensures Parse(ExpectHeaders, r, HeadersText(hs) + rest, time) ==
            Outcome(true, GotAll, r.(headers := HeaderMap(r.headers, hs)), rest)
    decreases |hs|
  {
    if hs == [] {
      assert HeadersText(hs) + rest == "" + "\r\n" + rest;
      CrlfAfter("", rest);
      assert Find("", ':') == 0;
    } else {
      var line := HeaderText(hs[0]);
      HeaderParses(r, hs[0]);
      assert HeadersText(hs) + rest == line + "\r\n" + (HeadersText(hs[1..]) + rest);
      CrlfAfter(line, HeadersText(hs[1..]) + rest);
      HeadersParse(r.(headers := r.headers[hs[0].field := hs[0].value]), hs[1..], rest, time);
    }
  }

  lemma TargetParses(r: Request, path: string, query: string)
    requires '?' !in path && (query != "" ==> query[0] == '?')
    ensures WithTarget(r, path + query) == (if query != "" then r.(path := path, query := query) else r.(path := path))
  {
    var t := path + query;
    assert t[..|path|] == path && t[|path|..] == query;
    FindIs(t, '?', |path|);
  }

  lemma SplitAt(a: string, b: string)
    requires ' ' !in a
    ensures var s := a + " " + b;
            Find(s, ' ') == |a| && s[..|a|] == a && s[|a| + 1..] == b
  {
    var s := a + " " + b;
    assert s[..|a|] == a && s[|a|] == ' ' && s[|a| + 1..] == b;
    FindIs(s, ' ', |a|);
  }

  lemma WordsOk(m: Message)
    requires m.method_ != Invalid && m.version != Unknown
    ensures var mt, vt := MethodText(m.method_), VersionText(m.version);
            ' ' !in mt && '\r' !in mt && '\r' !in vt && MethodOf(mt) == m.method_ && VersionOf(vt) == m.version
  {
  }

  lemma {:induction false} ThreeWords(r: Request, mt: string, t: string, vt: string)
    requires r.method_ == Invalid && ' ' !in mt && ' ' !in t && MethodOf(mt) != Invalid && VersionOf(vt) != Unknown
    ensures ProcessRequestLine(r, mt + " " + (t + " " + vt)) ==
            (true, WithTarget(r.(method_ := MethodOf(mt)), t).(version := VersionOf(vt)))
  {
    hide MethodOf, VersionOf, Find, WithTarget;
    SplitAt(mt, t + " " + vt);
    SplitAt(t, vt);
  }

  lemma {:induction false} LineParses(m: Message)
    requires MessageOk(m)
    ensures '\r' !in LineText(m)
    ensures ProcessRequestLine(EMPTY_REQUEST, LineText(m)) ==
            (true, Request(m.method_, m.version, m.path, m.query, 0, map[]))
  {
    hide MethodText, VersionText, MethodOf, VersionOf, Find, WithTarget, ProcessRequestLine;
    var mt, t, vt := MethodText(m.method_), m.path + m.query, VersionText(m.version);
    WordsOk(m);
    assert LineText(m) == mt + " " + (t + " " + vt);
    ThreeWords(EMPTY_REQUEST, mt, t, vt);
    TargetParses(EMPTY_REQUEST.(method_ := m.method_), m.path, m.query);
  }

  /**
   Round trip: the text of a well-formed request, whatever follows it, parses to its method, path,
   query with the question mark, version and trimmed header fields, and leaves exactly what follows.
  */
  lemma RoundTrip(m: Message, rest: string, time: int)
    requires MessageOk(m)
    ensures Parse(ExpectRequestLine, EMPTY_REQUEST, MessageText(m) + rest, time) ==
            Outcome(true, GotAll,
                    Request(m.method_, m.version, m.path, m.query, time, HeaderMap(map[], m.headers)), rest)
  {
    LineParses(m);
    var line := LineText(m);
    assert MessageText(m) + rest == line + "\r\n" + (HeadersText(m.headers) + rest);
    CrlfAfter(line, HeadersText(m.headers) + rest);
    HeadersParse(Request(m.method_, m.version, m.path, m.query, time, map[]), m.headers, rest, time);
  }

  /** Both together: however the text of a request is split, feeding the pieces gives the request. */
  lemma ChunkedRoundTrip(m: Message, rest: string, chunks: seq<Chunk>)
    requires MessageOk(m) && AllBytes(chunks) == MessageText(m) + rest
    ensures var o := FeedAll(START, chunks);
            && o.ok && o.state == GotAll && o.rest == rest
            && o.request.(receiveTime := 0) ==
               Request(m.method_, m.version, m.path, m.query, 0, HeaderMap(map[], m.headers))
  {
    ChunkIndependence(chunks, 0);
    RoundTrip(m, rest, 0);
    assert "" + AllBytes(chunks) == AllBytes(chunks);
  }

  // ---------- which request lines are accepted ----------

  lemma WordIs(token: string)
    ensures MethodOf(token) != Invalid ==> token == MethodText(MethodOf(token))
    ensures VersionOf(token) != Unknown ==> token == VersionText(VersionOf(token))
  {
    if VersionOf(token) != Unknown {
      assert token == token[..7] + [token[7]];
    }
  }

  lemma SplitBack(line: string, i: nat)
    requires i < |line| && line[i] == ' '
    ensures line == line[..i] + " " + line[i + 1..]
  {
  }

  /** The line is a method, a target without blanks, and a version, with one blank between them. */
  ghost predicate IsRequestLine(line: string) {
    exists m, t, v :: LineIs(line, m, t, v)
  }

  predicate LineIs(line: string, m: Method, t: string, v: Version) {
    m != Invalid && v != Unknown && ' ' !in t && line == MethodText(m) + " " + (t + " " + VersionText(v))
  }

  lemma FindStops(s: string, c: char)
    ensures Find(s, c) <= |s| && c !in s[..Find(s, c)] && (Find(s, c) < |s| ==> s[Find(s, c)] == c)
  {
  }

  /** processRequestLine accepts exactly the request lines. */
  lemma LineAcceptedIff(r: Request, line: string)
    requires r.method_ == Invalid
    ensures ProcessRequestLine(r, line).0 <==> IsRequestLine(line)
  {
    if ProcessRequestLine(r, line).0 {
      AcceptedIsLine(r, line);
    }
    if IsRequestLine(line) {
      var m, t, v :| LineIs(line, m, t, v);
      MethodWord(m);
      VersionWord(v);
      ThreeWords(r, MethodText(m), t, VersionText(v));
    }
  }

  lemma MethodWord(m: Method)
    requires m != Invalid
    ensures ' ' !in MethodText(m) && MethodOf(MethodText(m)) == m
  {
  }

  lemma VersionWord(v: Version)
    requires v != Unknown
    ensures VersionOf(VersionText(v)) == v
  {
    assert VersionText(v)[..7] == "HTTP/1.";
  }

  lemma AcceptedIsLine(r: Request, line: string)
    requires r.method_ == Invalid && ProcessRequestLine(r, line).0
    ensures IsRequestLine(line)
  {
    hide Find, MethodOf, VersionOf, MethodText, VersionText, WithTarget;
    var i := Find(line, ' ');
    FindStops(line, ' ');
    var rest := line[i + 1..];
    var j := Find(rest, ' ');
    FindStops(rest, ' ');
    SplitBack(line, i);
    SplitBack(rest, j);
    WordIs(line[..i]);
    WordIs(rest[j + 1..]);
    assert line == line[..i] + " " + (rest[..j] + " " + rest[j + 1..]);
    assert LineIs(line, MethodOf(line[..i]), rest[..j], VersionOf(rest[j + 1..]));
  }

  // ---------- several requests on one connection ----------

  /** A request that arrives in pieces, of which `last` is the last. */
  datatype Arrival = Arrival(message: Message, chunks: seq<Chunk>, last: Chunk)

  predicate ArrivalOk(a: Arrival) {
    MessageOk(a.message) && a.last.bytes != "" && AllBytes(a.chunks + [a.last]) == MessageText(a.message)
  }

  function AllChunks(arrivals: seq<Arrival>): seq<Chunk> {
    if arrivals == [] then [] else (arrivals[0].chunks + [arrivals[0].last]) + AllChunks(arrivals[1..])
  }

  /** The request that was sent; its receive time is that of one of its pieces. */
  function SentRequest(a: Arrival): Request {
    var m := a.message;
    Request(m.method_, m.version, m.path, m.query, FeedAll(START, a.chunks + [a.last]).request.receiveTime,
            HeaderMap(map[], m.headers))
  }

  function Answers(arrivals: seq<Arrival>, callback: (Request, bool) -> Response): seq<Reply> {
    if arrivals == [] then [] else Answer(SentRequest(arrivals[0]), callback) + Answers(arrivals[1..], callback)
  }

  lemma {:induction false} FeedLast(o: Outcome, chunks: seq<Chunk>, last: Chunk)
    requires o.ok && o.state != GotAll ==> Running(o)
    ensures FeedAll(o, chunks + [last]) == Feed(FeedAll(o, chunks), last.bytes, last.time)
    decreases |chunks|
  {
    hide Parse;
    if chunks == [] {
      assert ([] + [last])[1..] == [];
    } else {
      assert (chunks + [last])[0] == chunks[0] && (chunks + [last])[1..] == chunks[1..] + [last];
      FeedLast(Feed(o, chunks[0].bytes, chunks[0].time), chunks[1..], last);
    }
  }

  /** Before its last piece a request is not complete. */
  lemma NotYetComplete(a: Arrival)
    requires ArrivalOk(a)
    ensures Running(FeedAll(START, a.chunks))
    ensures var o := FeedAll(START, a.chunks + [a.last]);
            o.ok && o.state == GotAll && o.rest == "" && o.request == SentRequest(a)
  {
    hide FeedAll, AllBytes, MessageText, HeaderMap;
    assert MessageText(a.message) + "" == MessageText(a.message);
    ChunkedRoundTrip(a.message, "", a.chunks + [a.last]);
    FeedLast(START, a.chunks, a.last);
    assert Running(FeedAll(START, a.chunks));
  }

  /** When a request has been completed the server answers it and is as at the start. */
  lemma {:induction false} ServeOne(o: Outcome, chunks: seq<Chunk>, last: Chunk, more: seq<Chunk>, callback: (Request, bool) -> Response)
    requires Running(o) && Running(FeedAll(o, chunks))
    requires var r := FeedAll(o, chunks + [last]); r.ok && r.state == GotAll && r.rest == ""
    ensures ServeAll(o, (chunks + [last]) + more, callback) ==
            Answer(FeedAll(o, chunks + [last]).request, callback) + ServeAll(START, more, callback)
    decreases |chunks|
  {
    hide Parse, Answer;
    var all := (chunks + [last]) + more;
    if chunks == [] {
      assert all[0] == last && all[1..] == more && ([] + [last])[1..] == [];
      OneReply(o, last.bytes, last.time, callback);
      assert OnMessage(o, last.bytes, last.time) == START;
    } else {
      assert all[0] == chunks[0] && all[1..] == (chunks[1..] + [last]) + more;
      assert (chunks + [last])[0] == chunks[0] && (chunks + [last])[1..] == chunks[1..] + [last];
      var r := Feed(o, chunks[0].bytes, chunks[0].time);
      StaysStopped(r, chunks[1..]);
      OneReply(o, chunks[0].bytes, chunks[0].time, callback);
      assert OnMessage(o, chunks[0].bytes, chunks[0].time) == r;
      ServeOne(r, chunks[1..], last, more, callback);
      assert [] + ServeAll(r, all[1..], callback) == ServeAll(r, all[1..], callback);
    }
  }

  /**
   Any number of requests one after the other on a connection, each in any number of pieces: the server
   gives one answer for each, in order, and as the request that it is; nothing of an earlier one is left.
  */
  lemma {:induction false} EachIsAnswered(arrivals: seq<Arrival>, callback: (Request, bool) -> Response)
    requires forall i :: 0 <= i < |arrivals| ==> ArrivalOk(arrivals[i])
    ensures ServeAll(START, AllChunks(arrivals), callback) == Answers(arrivals, callback)
    decreases |arrivals|
  {
    if arrivals != [] {
      hide ServeAll, FeedAll, Answer, ArrivalOk, SentRequest;
      var a := arrivals[0];
      NotYetComplete(a);
      ServeOne(START, a.chunks, a.last, AllChunks(arrivals[1..]), callback);
      EachIsAnswered(arrivals[1..], callback);
    }
  }

  // ---------- persistent connections ----------

  /** The value of the last header field of that name. */
  predicate LastValueIs(hs: seq<Header>, field: string, value: string) {
    exists i :: 0 <= i < |hs| && hs[i].field == field && hs[i].value == value &&
                forall j :: i < j < |hs| ==> hs[j].field != field
  }

  lemma {:induction false} HeaderMapLast(init: map<string, string>, hs: seq<Header>, field: string)
    requires field !in init
    ensures field in HeaderMap(init, hs) <==> exists i :: 0 <= i < |hs| && hs[i].field == field
    ensures forall v :: LastValueIs(hs, field, v) <==> field in HeaderMap(init, hs) && HeaderMap(init, hs)[field] == v
  {
    HeaderMapFrom(init, hs, field);
  }

  /** As above, for any initial map. */
  lemma {:induction false} HeaderMapFrom(init: map<string, string>, hs: seq<Header>, field: string)
    ensures var m := HeaderMap(init, hs);
            && ((forall i :: 0 <= i < |hs| ==> hs[i].field != field) ==>
                  (field in m <==> field in init) && (field in m ==> m[field] == init[field]))
            && ((exists i :: 0 <= i < |hs| && hs[i].field == field) ==> field in m && LastValueIs(hs, field, m[field]))
            && forall v, w :: LastValueIs(hs, field, v) && LastValueIs(hs, field, w) ==> v == w
    decreases |hs|
  {
    if hs != [] {
      var rest, init1 := hs[1..], init[hs[0].field := hs[0].value];
      HeaderMapFrom(init1, rest, field);
      assert forall i :: 0 < i < |hs| ==> hs[i] == rest[i - 1];
      if exists i :: 0 <= i < |rest| && rest[i].field == field {
        var v := HeaderMap(init, hs)[field];
        var i :| 0 <= i < |rest| && rest[i].field == field && rest[i].value == v &&
                 forall j :: i < j < |rest| ==> rest[j].field != field;
        assert hs[i + 1].field == field && hs[i + 1].value == v;
        assert forall j :: i + 1 < j < |hs| ==> hs[j] == rest[j - 1];
      } else {
        assert hs[0].field == field ==> LastValueIs(hs, field, hs[0].value);
      }
    }
  }

  lemma HeaderValue(r: Request, hs: seq<Header>, field: string, value: string)
    requires r.headers == HeaderMap(map[], hs) && value != ""
    ensures HeaderOf(r, field) == value <==> LastValueIs(hs, field, value)
  {
    HeaderMapLast(map[], hs, field);
  }

  /** What the client asks: to close, or not to keep a connection of version 1.0 alive. */
  predicate AsksToClose(m: Message) {
    LastValueIs(m.headers, "Connection", "close") ||
    (m.version == Http10 && !LastValueIs(m.headers, "Connection", "Keep-Alive"))
  }

  lemma WantsCloseIff(r: Request, m: Message)
    requires r.headers == HeaderMap(map[], m.headers) && r.version == m.version
    ensures WantsClose(r) <==> AsksToClose(m)
  {
    HeaderValue(r, m.headers, "Connection", "close");
    HeaderValue(r, m.headers, "Connection", "Keep-Alive");
  }

  /**
   A request that arrives in any number of messages is answered by the one response that the callback
   makes for it. The callback is told to close if and only if the request asks for it, and the connection
   is shut down after the response exactly if the callback then says so.
  */
  lemma ClosesAsAsked(m: Message, rest: string, chunks: seq<Chunk>, last: Chunk, callback: (Request, bool) -> Response)
    requires MessageOk(m) && AllBytes(chunks + [last]) == MessageText(m) + rest && Running(FeedAll(START, chunks))
    ensures var r := FeedAll(START, chunks + [last]).request;
            var response := callback(r, AsksToClose(m));
            && r.(receiveTime := 0) == Request(m.method_, m.version, m.path, m.query, 0, HeaderMap(map[], m.headers))
            && ServeAll(START, chunks + [last], callback) ==
               [Send(response.text)] + (if response.close then [Shutdown] else [])
  {
    hide ServeAll, FeedAll, AllBytes, MessageText, AsksToClose, WantsClose;
    ChunkedRoundTrip(m, rest, chunks + [last]);
    AnsweredOnce(START, chunks, last, callback);
    WantsCloseIff(FeedAll(START, chunks + [last]).request, m);
  }
}

/** HttpRequest, HttpContext and the server's message handler, as classes. */
module HttpClass {
  import opened Common
  import opened TextSearch
  import opened HttpModel
  import opened BufferClass

  /** std::find */
  method FindChar(s: string, c: char) returns (i: nat)
    ensures i == Find(s, c)
  {
    i := 0;
    while i < |s| && s[i] != c
      invariant i <= |s| && c !in s[..i]
    {
      i := i + 1;
    }
    FindIs(s, c, i);
  }

  class HttpRequest {
    var method_: Method
    var version: Version
    var path: string
    var query: string
    var receiveTime: int
    var headers: map<string, string>

    function View(): Request
      reads this
    {
      Request(method_, version, path, query, receiveTime, headers)
    }

    constructor ()
      ensures View() == EMPTY_REQUEST
    {
      method_, version, path, query, receiveTime, headers := Invalid, Unknown, "", "", 0, map[];
    }

    /** setMethod; the precondition is its assert. */
    method SetMethod(m: string) returns (known: bool)
      requires method_ == Invalid
      modifies this`method_
      ensures View() == old(View()).(method_ := MethodOf(m)) && known == (MethodOf(m) != Invalid)
    {
      if m == "GET" {
        method_ := Get;
      } else if m == "POST" {
        method_ := Post;
      } else if m == "HEAD" {
        method_ := Head;
      } else if m == "PUT" {
        method_ := Put;
      } else if m == "DELETE" {
        method_ := Delete;
      } else {
        method_ := Invalid;
      }
      known := method_ != Invalid;
    }

    /** addHeader, with its two trimming loops. */
    method PutHeader(line: string, colon: nat)
      requires colon < |line|
      modifies this`headers
      ensures View() == AddHeader(old(View()), line, colon)
    {
      var field := line[..colon];
      var start := colon + 1;
      while start < |line| && IsSpace(line[start])
        invariant start <= |line| && TrimLeft(line[start..]) == TrimLeft(line[colon + 1..])
      {
        assert line[start..][1..] == line[start + 1..];
        start := start + 1;
      }
      var value := line[start..];
      assert TrimLeft(value) == value;
      while value != "" && IsSpace(value[|value| - 1])
        invariant TrimRight(value) == TrimRight(line[start..])
        decreases |value|
      {
        value := value[..|value| - 1];
      }
      headers := headers[field := value];
    }

    /** swap with an empty request. */
    method Reset()
      modifies this
      ensures View() == EMPTY_REQUEST
    {
      method_, version, path, query, receiveTime, headers := Invalid, Unknown, "", "", 0, map[];
    }
  }

  class HttpContext {
    var state: ParseState
    const request: HttpRequest

    constructor ()
      ensures state == ExpectRequestLine && request.View() == EMPTY_REQUEST && fresh(request)
    {
      state := ExpectRequestLine;
      request := new HttpRequest();
    }

    ghost function Snapshot(ok: bool, buf: Buffer): Outcome
      requires buf.Valid()
      reads this, request, buf, buf.data
    {
      Outcome(ok, state, request.View(), buf.Contents())
    }

    /** processRequestLine on the bytes before the line end. */
    method RequestLine(line: string) returns (succeed: bool)
      requires request.View().method_ == Invalid
      modifies request
      ensures (succeed, request.View()) == ProcessRequestLine(old(request.View()), line)
    {
      hide Find, MethodOf, WithTarget, VersionOf;
      succeed := false;
      var space := FindChar(line, ' ');
      if space != |line| {
        var known := request.SetMethod(line[..space]);
        if known {
          var rest := line[space + 1..];
          space := FindChar(rest, ' ');
          if space != |rest| {
            SetTarget(rest[..space]);
            succeed := SetVersion(rest[space + 1..]);
          }
        }
      }
    }

    /** The last part of processRequestLine. */
    method SetVersion(version: string) returns (succeed: bool)
      modifies request`version
      ensures succeed == (VersionOf(version) != Unknown)
      ensures request.View() == if succeed then old(request.View()).(version := VersionOf(version)) else old(request.View())
    {
      succeed := |version| == 8 && version[..7] == "HTTP/1.";
      if succeed {
        if version[7] == '1' {
          request.version := Http11;
        } else if version[7] == '0' {
          request.version := Http10;
        } else {
          succeed := false;
        }
      }
    }

    method SetTarget(target: string)
      modifies request
      ensures request.View() == WithTarget(old(request.View()), target)
    {
      var question := FindChar(target, '?');
      if question != |target| {
        request.path := target[..question];
        request.query := target[question..];
      } else {
        request.path := target;
      }
    }

    ghost function Vars(hasMore: bool, ok: bool, buf: Buffer): Loop
      requires buf.Valid()
      reads this, request, buf, buf.data
    {
      Loop(hasMore, ok, state, request.View(), buf.Contents())
    }

    /** The branch of the loop for a request line that ends at `crlf`. */
    method TakeRequestLine(buf: Buffer, crlf: nat, time: int) returns (hasMore: bool, ok: bool)
      requires buf.Valid() && Ready(state, request.View()) && state == ExpectRequestLine
      requires FirstCrlf(buf.Contents()) == Some(crlf)
      modifies this, request, buf`readerIndex, buf`writerIndex
      ensures buf.Valid() && Vars(hasMore, ok, buf) == Body(old(Vars(true, true, buf)), time)
    {
      hide ProcessRequestLine, FirstCrlf, Find;
      assert buf.data[buf.readerIndex..buf.readerIndex + crlf] == buf.Contents()[..crlf];
      ok := RequestLine(buf.data[buf.readerIndex..buf.readerIndex + crlf]);
      hasMore := ok;
      if ok {
        request.receiveTime := time;
        buf.Retrieve(crlf + 2);
        state := ExpectHeaders;
      }
    }

    /** The branch for a header line, or the line that ends the headers. */
    method TakeHeader(buf: Buffer, crlf: nat, ghost time: int) returns (hasMore: bool)
      requires buf.Valid() && state == ExpectHeaders && FirstCrlf(buf.Contents()) == Some(crlf)
      modifies this, request, buf`readerIndex, buf`writerIndex
      ensures buf.Valid() && Vars(hasMore, true, buf) == Body(old(Vars(true, true, buf)), time)
    {
      hide ProcessRequestLine, FirstCrlf, Find, TrimLeft, TrimRight;
      hasMore := true;
      var line := buf.data[buf.readerIndex..buf.readerIndex + crlf];
      assert line == buf.Contents()[..crlf];
      var colon := FindChar(line, ':');
      FindBound(line, ':');
      if colon != |line| {
        request.PutHeader(line, colon);
      } else {
        state := GotAll;
        hasMore := false;
      }
      buf.Retrieve(crlf + 2);
    }

    lemma FindBound(s: string, c: char)
      ensures Find(s, c) <= |s|
    {
    }

    lemma BodyIsParse(l: Loop, time: int)
      requires l.hasMore && l.ok && Ready(l.state, l.request)
      ensures var l1 := Body(l, time);
              if l1.hasMore then
                && l1.ok && Ready(l1.state, l1.request) && |l1.buf| < |l.buf|
                && Parse(l1.state, l1.request, l1.buf, time) == Parse(l.state, l.request, l.buf, time)
              else
                Outcome(l1.ok, l1.state, l1.request, l1.buf) == Parse(l.state, l.request, l.buf, time)
    {
      hide ProcessRequestLine, Find;
    }

    /** parseRequest: the loop ends, and leaves what Parse says. */
    method ParseRequest(buf: Buffer, time: int) returns (ok: bool)
      requires buf.Valid() && Ready(state, request.View())
      modifies this, request, buf`readerIndex, buf`writerIndex
      ensures buf.Valid()
      ensures Snapshot(ok, buf) == Parse(old(state), old(request.View()), old(buf.Contents()), time)
    {
      hide FirstCrlf, Parse, Body;
      ghost var o := Parse(state, request.View(), buf.Contents(), time);
      ok := true;
      var hasMore := true;
      while hasMore
        invariant buf.Valid() && buf.data == old(buf.data)
        invariant hasMore ==> ok && Ready(state, request.View()) && Parse(state, request.View(), buf.Contents(), time) == o
        invariant !hasMore ==> Snapshot(ok, buf) == o
        decreases hasMore, |buf.Contents()|
      {
        BodyIsParse(Vars(true, true, buf), time);
        var crlf := buf.FindCRLF(0);
        assert buf.Contents()[0..] == buf.Contents();
        if crlf.None? {
          BodyStops(Vars(true, true, buf), time);
          hasMore := false;
        } else if state == ExpectRequestLine {
          hasMore, ok := TakeRequestLine(buf, crlf.value, time);
        } else {
          hasMore := TakeHeader(buf, crlf.value, time);
        }
      }
    }

    lemma BodyStops(l: Loop, time: int)
      requires l.hasMore && Ready(l.state, l.request) && FirstCrlf(l.buf).None?
      ensures Body(l, time) == l.(hasMore := false)
    {
    }

    /** onMessage: parse, refuse or answer, and after a whole request reset. `answered` are its calls on the connection. */
    method OnMessageArrived(buf: Buffer, chunk: seq<char>, time: int, callback: (Request, bool) -> Response, ghost before: string)
      returns (bad: bool, answered: seq<Reply>)
      requires buf.Valid() && Ready(state, request.View()) && buf.Contents() == before + chunk
      modifies this, request, buf`readerIndex, buf`writerIndex
      ensures buf.Valid()
      ensures var o := Outcome(true, old(state), old(request.View()), before);
              && Snapshot(!bad, buf) == OnMessage(o, chunk, time)
              && answered == Replies(Feed(o, chunk, time), callback)
    {
      ghost var o := Outcome(true, state, request.View(), before);
      var ok := ParseRequest(buf, time);
      ghost var r := Snapshot(ok, buf);
      assert r == Feed(o, chunk, time);
      hide Parse, Feed;
      bad := !ok;
      answered := [];
      if bad {
        answered := answered + [Send(BAD_REQUEST), Shutdown];
      }
      if state == GotAll {
        var answer := OnRequest(callback);
        answered := answered + answer;
        GotAllIsOk(o, chunk, time);
        state := ExpectRequestLine;
        request.Reset();
      }
    }

    /** onRequest, with getHeader. */
    method OnRequest(callback: (Request, bool) -> Response) returns (answer: seq<Reply>)
      ensures answer == Answer(request.View(), callback)
    {
      var connection := "";
      if "Connection" in request.headers {
        connection := request.headers["Connection"];
      }
      var close := connection == "close" || (request.version == Http10 && connection != "Keep-Alive");
      var response := callback(request.View(), close);
      answer := [Send(response.text)];
      if response.close {
        answer := answer + [Shutdown];
      }
    }
  }
}
