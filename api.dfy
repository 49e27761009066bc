/**
 * The chat-completion client: the request sendMessage builds from the
 * configuration and the conversation, the choice between the streaming and
 * the plain exchange, the extraction of the reply from a plain response,
 * and the line-by-line reading of a streamed (server-sent events) response
 * with the callbacks it fires.
 *
 * The network is a parameter: `transport` maps the request to the response
 * the server gives. The JSON text parser is a parameter too: `parse` maps a
 * text to the JSON value it denotes, or None when org.json would throw.
 */
module Api {
  import opened Wrappers
  import opened Json
  import opened Entities
  import opened Codec

  // ---------------------------------------------------------------------------
  // The request

  /** An HTTP POST as OkHttp's Request.Builder assembles it: URL, headers in order, body and its media type. */
  datatype Request = Request(url: string, headers: seq<(string, string)>, body: Json, mediaType: string)

  const JsonMediaType: string := "application/json; charset=utf-8"

  /** The value of the first header with that name. */
  function Header(headers: seq<(string, string)>, name: string): (r: Option<string>)
    ensures r.Some? <==> exists k :: 0 <= k < |headers| && headers[k].0 == name
    ensures r.Some? ==> exists k :: 0 <= k < |headers| && headers[k] == (name, r.value) &&
                                    forall j :: 0 <= j < k ==> headers[j].0 != name
  {
    if headers == [] then None
    else if headers[0].0 == name then Some(headers[0].1)
    else Header(headers[1..], name)
  }

  /** The entry a conversation message becomes in the request's messages array. */
  function MessageEntry(m: Message): Json {
    JObj(map["role" := JStr(m.role), "content" := JStr(m.content)])
  }

  /** The leading entry carrying the system prompt. */
  function SystemEntry(prompt: string): Json {
    JObj(map["role" := JStr("system"), "content" := JStr(prompt)])
  }

  /** The system entry when a system prompt is configured, then one entry per message, in order. */
  function RequestMessages(config: ApiConfig, history: seq<Message>): (r: seq<Json>)
    ensures |r| == |history| + (if config.systemPrompt != [] then 1 else 0)
    ensures |r| > |history| <==> config.systemPrompt != []
  {
    (if config.systemPrompt != [] then [SystemEntry(config.systemPrompt)] else [])
      + seq(|history|, k requires 0 <= k < |history| => MessageEntry(history[k]))
  }

  /** What a server reads from one entry of the messages array: role and content. */
  function ReadEntry(j: Json): Option<(string, string)> {
    if !j.JObj? then None
    else match (GetString(j.fields, "role"), GetString(j.fields, "content"))
      case (Some(role), Some(content)) => Some((role, content))
      case _ => None
  }

  /** The roles and contents of a conversation, in order. */
  function Turns(history: seq<Message>): (r: seq<(string, string)>)
    ensures |r| == |history|
  {
    seq(|history|, k requires 0 <= k < |history| => (history[k].role, history[k].content))
  }

  /**
   * Reading the messages array back gives the system prompt first exactly
   * when one is configured, then every message's role and content in order.
   */
  lemma RequestMessagesRead(config: ApiConfig, history: seq<Message>)
    ensures DecodeAll(RequestMessages(config, history), ReadEntry)
         == Some((if config.systemPrompt != [] then [("system", config.systemPrompt)] else []) + Turns(history))
  {
    var items := RequestMessages(config, history);
    var expected := (if config.systemPrompt != [] then [("system", config.systemPrompt)] else []) + Turns(history);
    var p := if config.systemPrompt != [] then 1 else 0;
    forall k | 0 <= k < |items| ensures ReadEntry(items[k]) == Some(expected[k]) {
      if k >= p {
        assert items[k] == MessageEntry(history[k - p]);
      }
    }
    DecodeAllReads(items, ReadEntry);
    var r := DecodeAll(items, ReadEntry).value;
    assert |r| == |expected|;
    forall k | 0 <= k < |r| ensures r[k] == expected[k] {
      assert ReadEntry(items[k]) == Some(r[k]);
    }
    assert r == expected;
  }

  /** The JSON body: model, messages, temperature, max_tokens and the stream flag. */
  function RequestBody(config: ApiConfig, history: seq<Message>, stream: bool): Json {
    JObj(map[
      "model" := JStr(config.model),
      "messages" := JArr(RequestMessages(config, history)),
      "temperature" := JNum(config.temperature),
      "max_tokens" := JInt(config.maxTokens as int),
      "stream" := JBool(stream)])
  }

  /**
   * The request of sendMessage: posted to the configured endpoint with a
   * JSON content type and a bearer token made of the API key; its body
   * carries the configured model and sampling parameters and the stream
   * flag as given, whichever path then reads the response.
   */
  function BuildRequest(config: ApiConfig, history: seq<Message>, stream: bool): (r: Request)
    ensures r.url == config.endpoint && r.mediaType == JsonMediaType
    ensures Header(r.headers, "Authorization") == Some("Bearer " + config.apiKey)
    ensures Header(r.headers, "Content-Type") == Some("application/json")
    ensures r.body.JObj?
    ensures GetString(r.body.fields, "model") == Some(config.model)
    ensures GetArray(r.body.fields, "messages") == Some(RequestMessages(config, history))
    ensures OptDouble(r.body.fields, "temperature", 0.0) == config.temperature
    ensures OptInt(r.body.fields, "max_tokens", 0) == config.maxTokens
    ensures "stream" in r.body.fields && r.body.fields["stream"] == JBool(stream)
  {
    var headers := [("Content-Type", "application/json"), ("Authorization", "Bearer " + config.apiKey)];
    assert headers[1..][0].0 == "Authorization";
    Request(config.endpoint, headers, RequestBody(config, history, stream), JsonMediaType)
  }

  // ---------------------------------------------------------------------------
  // The response

  /** How reading the body ends after its last line: it is exhausted, or the reader throws. */
  datatype BodyEnd = Exhausted | Fails(reason: Option<string>)

  /** A response body as a sequence of lines, the way readUtf8Line hands them out. */
  datatype Body = Body(lines: seq<string>, end: BodyEnd)

  /** An HTTP response: status code, reason phrase, and the body when there is one. */
  datatype Response = Response(code: int, message: string, body: Option<Body>)

  /** Why a call throws. */
  datatype Failure =
    | HttpStatus(code: int, message: string)   // a status outside 200..299
    | EmptyResponse                            // no response body
    | ReadFailure(reason: Option<string>)      // the body reader threw, with this message or none
    | MalformedResponse                        // org.json threw on the plain response

  /** Response.isSuccessful */
  predicate IsSuccessful(code: int) {
    200 <= code < 300
  }

  /** The decimal digits of a number, with a minus sign when negative: Kotlin's `${response.code}` in the error text. */
  function DecimalText(n: int): string
    decreases if n < 0 then 1 - n else n
  {
    if n < 0 then "-" + DecimalText(-n)
    else if n < 10 then ["0123456789"[n]]
    else DecimalText(n / 10) + ["0123456789"[n % 10]]
  }

  /** The text of a failure as the code builds it, and as onError receives it. */
  function Describe(f: Failure): string {
    match f
    case HttpStatus(code, message) => "HTTP " + DecimalText(code) + ": " + message
    case EmptyResponse => "Empty response"
    case ReadFailure(reason) => reason.GetOr("Unknown error")
    case MalformedResponse => "Malformed response"
  }

  /** The whole body as ResponseBody.string() reads it: the lines joined by line feeds. */
  function JoinLines(lines: seq<string>): string {
    if lines == [] then ""
    else if |lines| == 1 then lines[0]
    else lines[0] + "\n" + JoinLines(lines[1..])
  }

  // ---------------------------------------------------------------------------
  // The plain exchange

  /** choices[0].message.content of an OpenAI-style completion, each step a `get` that may fail. */
  function CompletionContent(o: Fields): Option<string> {
    match GetArray(o, "choices")
    case None => None
    case Some(choices) =>
      match ElementObject(choices, 0)
      case None => None
      case Some(first) =>
        match GetObject(first, "message")
        case None => None
        case Some(message) => GetString(message, "content")
  }

  /**
   * normalRequest: an unsuccessful status, a missing body, a body that
   * cannot be read, a body that is not a JSON object or lacks
   * choices[0].message.content each make it throw; otherwise it returns
   * that content.
   */
  function NormalRequest(response: Response, parse: string -> Option<Json>): (r: Result<string, Failure>)
    ensures !IsSuccessful(response.code) ==> r == Err(HttpStatus(response.code, response.message))
    ensures IsSuccessful(response.code) && response.body.None? ==> r == Err(EmptyResponse)
    ensures IsSuccessful(response.code) && response.body.Some? && response.body.value.end.Fails? ==>
      r == Err(ReadFailure(response.body.value.end.reason))
    ensures r.Ok? ==> && response.body.Some? && response.body.value.end.Exhausted?
                      && var j := parse(JoinLines(response.body.value.lines));
                         j.Some? && j.value.JObj? && CompletionContent(j.value.fields) == Some(r.value)
    ensures IsSuccessful(response.code) && response.body.Some? && response.body.value.end.Exhausted? ==>
      var j := parse(JoinLines(response.body.value.lines));
      j.Some? && j.value.JObj? && CompletionContent(j.value.fields).Some? ==>
        r == Ok(CompletionContent(j.value.fields).value)
  {
    if !IsSuccessful(response.code) then Err(HttpStatus(response.code, response.message))
    else match response.body
      case None => Err(EmptyResponse)
      case Some(body) =>
        if body.end.Fails? then Err(ReadFailure(body.end.reason))
        else match parse(JoinLines(body.lines))
          case Some(JObj(o)) =>
            (match CompletionContent(o)
             case Some(content) => Ok(content)
             case None => Err(MalformedResponse))
          case _ => Err(MalformedResponse)
  }

  /** A completion document whose first choice's message has this content. */
  function CompletionDocument(content: string): Json {
    JObj(map["choices" := JArr([JObj(map["message" := JObj(map["content" := JStr(content)])])])])
  }

  /** A successful one-line response holding a completion document yields that document's content. */
  lemma NormalRequestReadsCompletion(code: int, message: string, text: string, content: string,
                                     parse: string -> Option<Json>)
    requires IsSuccessful(code) && parse(text) == Some(CompletionDocument(content))
    ensures NormalRequest(Response(code, message, Some(Body([text], Exhausted))), parse) == Ok(content)
  {
    assert JoinLines([text]) == text;
  }

  // ---------------------------------------------------------------------------
  // The streamed exchange

  /** What the callback receives, in order. */
  datatype Event = OnChunk(chunk: string) | OnComplete(fullResponse: string) | OnError(error: string)

  /** What a call gives: its value or the failure it throws, and the callbacks it fired. */
  datatype Exchange = Exchange(result: Result<string, Failure>, events: seq<Event>)

  const DataPrefix: string := "data: "
  const DoneMarker: string := "[DONE]"

  /** A server-sent events line carrying data: it starts with "data: ", space included. */
  predicate IsDataLine(line: string) {
    |DataPrefix| <= |line| && line[..|DataPrefix|] == DataPrefix
  }

  /** The payload of a data line, after its prefix. */
  function Payload(line: string): string
    requires IsDataLine(line)
  {
    line[|DataPrefix|..]
  }

  /** The data line that ends the stream. */
  predicate IsDoneLine(line: string) {
    IsDataLine(line) && Payload(line) == DoneMarker
  }

  /**
   * The text delta of one payload: choices[0].delta.content, or "" when the
   * payload is not a JSON object, has no choices or no delta, or when
   * getJSONObject(0) throws (which the inner catch turns into nothing).
   */
  function DeltaContent(payload: string, parse: string -> Option<Json>): string {
    match parse(payload)
    case Some(JObj(o)) =>
      (match OptArray(o, "choices")
       case None => ""
       case Some(choices) =>
         match ElementObject(choices, 0)
         case None => ""
         case Some(first) =>
           match OptObject(first, "delta")
           case None => ""
           case Some(delta) => OptString(delta, "content", ""))
    case _ => ""
  }

  /** The text one line contributes: the delta of a data line, nothing for any other line. */
  function LineText(line: string, parse: string -> Option<Json>): string {
    if IsDataLine(line) then DeltaContent(Payload(line), parse) else ""
  }

  /** The chunk one line delivers: its text, unless that is empty. */
  function LineChunks(line: string, parse: string -> Option<Json>): seq<string> {
    var text := LineText(line, parse);
    if text == [] then [] else [text]
  }

  /**
   * What a run of lines delivers, line after line, up to the first line
   * that stops it: each line's chunks, in order.
   */
  function Deliver(lines: seq<string>, stops: string -> bool, chunk: string -> seq<string>): seq<string> {
    if lines == [] || stops(lines[0]) then [] else chunk(lines[0]) + Deliver(lines[1..], stops, chunk)
  }

  /** Some line of the run stops it. */
  predicate Stops(lines: seq<string>, stops: string -> bool) {
    lines != [] && (stops(lines[0]) || Stops(lines[1..], stops))
  }

  /** A run whose first line does not stop it delivers that line's chunks, then the rest's. */
  lemma DeliverCons(lines: seq<string>, stops: string -> bool, chunk: string -> seq<string>)
    requires lines != [] && !stops(lines[0])
    ensures Deliver(lines, stops, chunk) == chunk(lines[0]) + Deliver(lines[1..], stops, chunk)
  {
  }

  /**
   * One turn of a loop over the lines: a line that does not stop the run
   * adds its chunks to those delivered so far; the rest of the run stops
   * exactly when the run from that line did.
   */
  lemma DeliverStep(lines: seq<string>, i: nat, delivered: seq<string>, stops: string -> bool, chunk: string -> seq<string>)
    requires i < |lines| && !stops(lines[i])
    requires Deliver(lines, stops, chunk) == delivered + Deliver(lines[i..], stops, chunk)
    ensures Deliver(lines, stops, chunk) == (delivered + chunk(lines[i])) + Deliver(lines[i + 1..], stops, chunk)
    ensures Stops(lines[i..], stops) == Stops(lines[i + 1..], stops)
  {
    var rest := lines[i..];
    assert rest[0] == lines[i] && rest[1..] == lines[i + 1..];
    DeliverCons(rest, stops, chunk);
  }

  /** Two runs one after the other deliver the first's chunks, then, unless the first stopped, the second's. */
  lemma {:induction false} DeliverAppend(a: seq<string>, b: seq<string>, stops: string -> bool, chunk: string -> seq<string>)
    ensures Deliver(a + b, stops, chunk) == Deliver(a, stops, chunk) + (if Stops(a, stops) then [] else Deliver(b, stops, chunk))
  {
    if a == [] {
      assert a + b == b;
    } else {
      assert (a + b)[0] == a[0] && (a + b)[1..] == a[1..] + b;
      if !stops(a[0]) {
        DeliverAppend(a[1..], b, stops, chunk);
        DeliverCons(a + b, stops, chunk);
        DeliverCons(a, stops, chunk);
      }
    }
  }

  /** The chunks one line delivers, as a function of the line. */
  function ChunkOf(parse: string -> Option<Json>): string -> seq<string> {
    (line: string) => LineChunks(line, parse)
  }

  /** The chunks the stream delivers: the non-empty deltas, in order, up to the first "[DONE]" line. */
  function Chunks(lines: seq<string>, parse: string -> Option<Json>): seq<string> {
    Deliver(lines, IsDoneLine, ChunkOf(parse))
  }

  /** Some line is the "[DONE]" line. */
  predicate ReachesDone(lines: seq<string>) {
    Stops(lines, IsDoneLine)
  }

  /** No chunk is empty: an empty delta fires no onChunk. */
  lemma {:induction false} ChunksNonEmpty(lines: seq<string>, parse: string -> Option<Json>)
    ensures forall k :: 0 <= k < |Chunks(lines, parse)| ==> Chunks(lines, parse)[k] != []
  {
    if lines != [] && !IsDoneLine(lines[0]) {
      ChunksNonEmpty(lines[1..], parse);
      DeliverCons(lines, IsDoneLine, ChunkOf(parse));
      var head, rest := LineChunks(lines[0], parse), Chunks(lines[1..], parse);
      assert Chunks(lines, parse) == head + rest;
      forall k | 0 <= k < |head + rest|
        ensures (head + rest)[k] != []
      {
        if k >= |head| {
          assert (head + rest)[k] == rest[k - |head|];
        }
      }
    }
  }

  /**
   * One turn of the loop of streamRequest: a line other than the "[DONE]"
   * line whose text is content adds content, unless it is empty, and leaves
   * whether "[DONE]" is still ahead unchanged.
   */
  lemma ChunksStep(lines: seq<string>, i: nat, chunks: seq<string>, content: string, parse: string -> Option<Json>)
    requires i < |lines| && !IsDoneLine(lines[i]) && LineText(lines[i], parse) == content
    requires Chunks(lines, parse) == chunks + Chunks(lines[i..], parse)
    ensures content != [] ==> Chunks(lines, parse) == (chunks + [content]) + Chunks(lines[i + 1..], parse)
    ensures content == [] ==> Chunks(lines, parse) == chunks + Chunks(lines[i + 1..], parse)
    ensures ReachesDone(lines[i..]) == ReachesDone(lines[i + 1..])
  {
    assert ChunkOf(parse)(lines[i]) == LineChunks(lines[i], parse);
    DeliverStep(lines, i, chunks, IsDoneLine, ChunkOf(parse));
    if content == [] {
      assert chunks + [] == chunks;
    }
  }

  /** A run that starts with the "[DONE]" line reaches it and delivers nothing. */
  lemma DoneStops(lines: seq<string>, parse: string -> Option<Json>)
    requires lines != [] && IsDoneLine(lines[0])
    ensures ReachesDone(lines) && Chunks(lines, parse) == []
  {
  }

  /** The concatenation of the chunks, as the StringBuilder accumulates them. */
  function Concat(chunks: seq<string>): string {
    if chunks == [] then "" else chunks[0] + Concat(chunks[1..])
  }

  /** One onChunk per chunk, in order. */
  function ChunkEvents(chunks: seq<string>): seq<Event> {
    seq(|chunks|, k requires 0 <= k < |chunks| => OnChunk(chunks[k]))
  }

  /**
   * streamRequest: an unsuccessful status fires onError and throws; a
   * missing body throws without any callback; otherwise every chunk goes to
   * onChunk, and then onComplete receives their concatenation, which is
   * returned, unless the reader throws before a "[DONE]" line, which fires
   * onError and rethrows.
   */
  function Streamed(response: Response, parse: string -> Option<Json>): Exchange {
    if !IsSuccessful(response.code) then
      var f := HttpStatus(response.code, response.message);
      Exchange(Err(f), [OnError(Describe(f))])
    else match response.body
      case None => Exchange(Err(EmptyResponse), [])
      case Some(body) =>
        var chunks := Chunks(body.lines, parse);
        if ReachesDone(body.lines) || body.end.Exhausted? then
          Exchange(Ok(Concat(chunks)), ChunkEvents(chunks) + [OnComplete(Concat(chunks))])
        else
          var f := ReadFailure(body.end.reason);
          Exchange(Err(f), ChunkEvents(chunks) + [OnError(Describe(f))])
  }

  /** Appending a chunk to the accumulator appends it to the concatenation. */
  lemma {:induction false} ConcatAppend(chunks: seq<string>, chunk: string)
    ensures Concat(chunks + [chunk]) == Concat(chunks) + chunk
  {
    if chunks != [] {
      assert (chunks + [chunk])[1..] == chunks[1..] + [chunk];
      ConcatAppend(chunks[1..], chunk);
    }
  }

  /** One more chunk adds one onChunk event. */
  lemma ChunkEventsAppend(chunks: seq<string>, chunk: string)
    ensures ChunkEvents(chunks + [chunk]) == ChunkEvents(chunks) + [OnChunk(chunk)]
  {
  }

  /**
   * What the loop body of streamRequest makes of one line: whether it is the
   * "data: [DONE]" line, and otherwise the text delta it carries ("" for a
   * line that is not a data line or whose payload yields no delta).
   */
  method InspectLine(line: string, parse: string -> Option<Json>) returns (isDone: bool, content: string)
    ensures isDone == IsDoneLine(line)
    ensures !isDone ==> content == LineText(line, parse)
  {
    content := "";
    isDone := false;
    if |DataPrefix| <= |line| && line[..|DataPrefix|] == DataPrefix {
      var data := line[|DataPrefix|..];
      if data == DoneMarker {
        return true, content;
      }
      content := DeltaContent(data, parse);
    }
  }

  /**
   * The loop of streamRequest over the lines of a body: every chunk goes to
   * onChunk and into the accumulated text, until a "[DONE]" line or the end
   * of the lines; done tells whether "[DONE]" was met.
   */
  method ReadLines(lines: seq<string>, parse: string -> Option<Json>) returns (fullResponse: string, events: seq<Event>, done: bool)
    ensures fullResponse == Concat(Chunks(lines, parse))
    ensures events == ChunkEvents(Chunks(lines, parse))
    ensures done == ReachesDone(lines)
  {
    fullResponse := "";
    ghost var chunks: seq<string> := [];
    events := [];
    done := false;
    var i := 0;
    while i < |lines|
      invariant 0 <= i <= |lines|
      invariant Chunks(lines, parse) == chunks + Chunks(lines[i..], parse)
      invariant fullResponse == Concat(chunks) && events == ChunkEvents(chunks)
      invariant ReachesDone(lines) == ReachesDone(lines[i..])
      invariant !done
    {
      var isDone, content := InspectLine(lines[i], parse);
      if isDone {
        DoneStops(lines[i..], parse);
        done := true;
        break;
      }
      ChunksStep(lines, i, chunks, content, parse);
      if content != [] {
        ConcatAppend(chunks, content);
        ChunkEventsAppend(chunks, content);
        fullResponse := fullResponse + content;
        events := events + [OnChunk(content)];
        chunks := chunks + [content];
      }
      i := i + 1;
    }
    if !done {
      assert lines[i..] == [];
      assert !ReachesDone(lines[i..]);
    }
    assert chunks + [] == chunks;
    assert Chunks(lines, parse) == chunks;
  }

  /**
   * streamRequest: it returns what Streamed describes and fires the
   * callbacks in that order.
   */
  method StreamRequest(response: Response, parse: string -> Option<Json>) returns (result: Result<string, Failure>, events: seq<Event>)
    ensures Exchange(result, events) == Streamed(response, parse)
  {
    if !IsSuccessful(response.code) {
      var f := HttpStatus(response.code, response.message);
      events := [OnError(Describe(f))];
      return Err(f), events;
    }
    if response.body.None? {
      return Err(EmptyResponse), [];
    }
    var body := response.body.value;
    var fullResponse, done;
    fullResponse, events, done := ReadLines(body.lines, parse);
    if done || body.end.Exhausted? {
      events := events + [OnComplete(fullResponse)];
      result := Ok(fullResponse);
    } else {
      var f := ReadFailure(body.end.reason);
      events := events + [OnError(Describe(f))];
      result := Err(f);
    }
  }


  // ---------------------------------------------------------------------------
  // sendMessage

  /**
   * sendMessage builds the request, sends it, and streams the response only
   * when streaming is asked for and a callback is given; otherwise it reads
   * the plain response, and no callback fires.
   */
  method SendMessage(config: ApiConfig, history: seq<Message>, stream: bool, hasCallback: bool,
                     transport: Request -> Response, parse: string -> Option<Json>)
    returns (result: Result<string, Failure>, events: seq<Event>)
    ensures var response := transport(BuildRequest(config, history, stream));
      && (stream && hasCallback ==> Exchange(result, events) == Streamed(response, parse))
      && (!(stream && hasCallback) ==> result == NormalRequest(response, parse) && events == [])
  {
    var request := BuildRequest(config, history, stream);
    var response := transport(request);
    if stream && hasCallback {
      result, events := StreamRequest(response, parse);
    } else {
      result := NormalRequest(response, parse);
      events := [];
    }
  }

  // ---------------------------------------------------------------------------
  // Properties of the stream

  /** The chunk texts of a trace, in order. */
  function ChunkTexts(events: seq<Event>): seq<string> {
    if events == [] then []
    else (if events[0].OnChunk? then [events[0].chunk] else []) + ChunkTexts(events[1..])
  }

  /** The number of onComplete and onError calls in a trace. */
  function Terminals(events: seq<Event>): nat {
    if events == [] then 0
    else (if events[0].OnChunk? then 0 else 1) + Terminals(events[1..])
  }

  lemma {:induction false} ChunkEventsTexts(chunks: seq<string>, last: Event)
    requires !last.OnChunk?
    ensures ChunkTexts(ChunkEvents(chunks) + [last]) == chunks
    ensures Terminals(ChunkEvents(chunks) + [last]) == 1
  {
    var es := ChunkEvents(chunks) + [last];
    if chunks == [] {
      assert es[1..] == [];
    } else {
      assert es[1..] == ChunkEvents(chunks[1..]) + [last];
      ChunkEventsTexts(chunks[1..], last);
    }
  }

  /**
   * A streamed exchange with a body fires exactly one terminal callback,
   * last; onComplete receives, and the call returns, the concatenation of
   * everything onChunk received, in order.
   */
  lemma StreamedTrace(response: Response, parse: string -> Option<Json>)
    requires IsSuccessful(response.code) && response.body.Some?
    ensures var x := Streamed(response, parse);
      && Terminals(x.events) == 1 && !x.events[|x.events| - 1].OnChunk?
      && (x.result.Ok? ==> x.events[|x.events| - 1] == OnComplete(Concat(ChunkTexts(x.events)))
                           && x.result.value == Concat(ChunkTexts(x.events)))
      && (x.result.Err? ==> x.events[|x.events| - 1] == OnError(Describe(x.result.error)))
  {
    var body := response.body.value;
    var chunks := Chunks(body.lines, parse);
    if ReachesDone(body.lines) || body.end.Exhausted? {
      ChunkEventsTexts(chunks, OnComplete(Concat(chunks)));
    } else {
      ChunkEventsTexts(chunks, OnError(Describe(ReadFailure(body.end.reason))));
    }
  }

  /** An unsuccessful status fires onError with "HTTP code: message" and nothing else, and the call throws. */
  lemma StreamedHttpError(response: Response, parse: string -> Option<Json>)
    requires !IsSuccessful(response.code)
    ensures var x := Streamed(response, parse);
      && x.result == Err(HttpStatus(response.code, response.message))
      && x.events == [OnError("HTTP " + DecimalText(response.code) + ": " + response.message)]
      && ChunkTexts(x.events) == []
  {
  }

  /** Nothing after a "[DONE]" line is delivered. */
  lemma DoneIgnoresRest(before: seq<string>, done: string, after: seq<string>, parse: string -> Option<Json>)
    requires IsDoneLine(done)
    ensures Chunks(before + [done] + after, parse) == Chunks(before, parse)
  {
    DeliverAppend(before, [done] + after, IsDoneLine, ChunkOf(parse));
    assert before + [done] + after == before + ([done] + after);
  }

  /**
   * A line that is not a data line ("", "event: x", "data:[DONE]" without
   * the space), or a data line whose payload does not parse as a JSON
   * object, delivers nothing.
   */
  lemma InertLineSkipped(line: string, rest: seq<string>, parse: string -> Option<Json>)
    requires !IsDataLine(line) || (Payload(line) != DoneMarker && (parse(Payload(line)).None? || !parse(Payload(line)).value.JObj?))
    ensures Chunks([line] + rest, parse) == Chunks(rest, parse)
  {
    assert ([line] + rest)[0] == line && ([line] + rest)[1..] == rest;
  }

  /**
   * A data line whose payload is a JSON object without a choices array,
   * without an object at choices[0], or without a delta object there,
   * delivers nothing and does not stop the stream.
   */
  lemma NoDeltaLineSkipped(line: string, rest: seq<string>, parse: string -> Option<Json>, o: Fields)
    requires IsDataLine(line) && Payload(line) != DoneMarker && parse(Payload(line)) == Some(JObj(o))
    requires || OptArray(o, "choices").None?
             || ElementObject(OptArray(o, "choices").value, 0).None?
             || OptObject(ElementObject(OptArray(o, "choices").value, 0).value, "delta").None?
    ensures Chunks([line] + rest, parse) == Chunks(rest, parse)
  {
    assert ([line] + rest)[0] == line && ([line] + rest)[1..] == rest;
  }

  /** A delta document carrying this text in choices[0].delta.content. */
  function DeltaDocument(text: string): Json {
    JObj(map["choices" := JArr([JObj(map["delta" := JObj(map["content" := JStr(text)])])])])
  }

  /** One data line per payload, in order. */
  function DataLines(payloads: seq<string>): seq<string> {
    if payloads == [] then [] else [DataPrefix + payloads[0]] + DataLines(payloads[1..])
  }

  /** The data line of a delta document's payload is no end marker, and its text is the delta's text. */
  lemma DeltaLineText(payload: string, text: string, parse: string -> Option<Json>)
    requires payload != DoneMarker && parse(payload) == Some(DeltaDocument(text))
    ensures !IsDoneLine(DataPrefix + payload) && LineText(DataPrefix + payload, parse) == text
  {
    var line := DataPrefix + payload;
    assert line[..|DataPrefix|] == DataPrefix && Payload(line) == payload;
  }

  /** Data lines whose payloads are delta documents with non-empty texts deliver those texts, in order. */
  lemma {:induction false} DeltaLinesChunks(payloads: seq<string>, texts: seq<string>, parse: string -> Option<Json>)
    requires |payloads| == |texts|
    requires forall k :: 0 <= k < |payloads| ==> payloads[k] != DoneMarker && parse(payloads[k]) == Some(DeltaDocument(texts[k]))
    requires forall k :: 0 <= k < |texts| ==> texts[k] != []
    ensures Chunks(DataLines(payloads), parse) == texts
  {
    if payloads != [] {
      var line := DataPrefix + payloads[0];
      DeltaLineText(payloads[0], texts[0], parse);
      var lines := DataLines(payloads);
      assert lines[0] == line && lines[1..] == DataLines(payloads[1..]);
      DeliverCons(lines, IsDoneLine, ChunkOf(parse));
      DeltaLinesChunks(payloads[1..], texts[1..], parse);
      assert texts == [texts[0]] + texts[1..];
    }
  }

  /**
   * A stream of data lines whose payloads are delta documents, ended by
   * "data: [DONE]", delivers the non-empty texts in order; whatever follows
   * is ignored.
   */
  lemma DeltaLinesDeliver(payloads: seq<string>, texts: seq<string>, after: seq<string>, parse: string -> Option<Json>)
    requires |payloads| == |texts|
    requires forall k :: 0 <= k < |payloads| ==> payloads[k] != DoneMarker && parse(payloads[k]) == Some(DeltaDocument(texts[k]))
    requires forall k :: 0 <= k < |texts| ==> texts[k] != []
    ensures Chunks(DataLines(payloads) + [DataPrefix + DoneMarker] + after, parse) == texts
  {
    var done := DataPrefix + DoneMarker;
    assert Payload(done) == DoneMarker;
    DoneIgnoresRest(DataLines(payloads), done, after, parse);
    DeltaLinesChunks(payloads, texts, parse);
  }
}
