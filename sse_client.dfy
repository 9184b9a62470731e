/** The client side of the streaming protocol, shared by
    `load_conversations.py` and `chat.py`: the request they post, the
    response they get, and the loop that reads `data: ` lines and
    accumulates the delta contents until `[DONE]`. */
module SseClient {
  import opened Common

  /** The JSON body posted to the proxy, with the URL it is posted to.
      `temperature` is carried, never computed with. */
  datatype Payload = Payload(url: string, model: string, messages: seq<Message>, stream: bool,
                             temperature: real, maxTokens: int)

  /** The sampling temperature both scripts send. */
  const Temperature: real := 0.7

  /** The streaming request both scripts post: to the proxy with the
      upstream as its `p` parameter, with the given messages, the model and
      the token limit, streaming. */
  function StreamPayload(proxyUrl: string, upstreamUrl: string, model: string, messages: seq<Message>,
                         maxTokens: int): (payload: Payload)
    ensures payload.url == proxyUrl + "?p=" + upstreamUrl
    ensures payload.messages == messages && payload.model == model
    ensures payload.stream && payload.temperature == Temperature && payload.maxTokens == maxTokens
  {
    Payload(proxyUrl + "?p=" + upstreamUrl, model, messages, true, Temperature, maxTokens)
  }

  /** One line of the streamed body: its UTF-8 text, bytes that are not
      valid UTF-8 (decoding raises), or a transport failure while reading
      the next line (a `requests` exception). */
  datatype Line = Text(text: string) | Undecodable(error: string) | Broken(error: string)

  /** What `json.loads` and the `choices[0].delta.content` lookup make of a
      data part: not JSON at all (skipped); a chunk whose first delta has
      the given content, empty when there are no choices, no delta or no
      content; or a JSON value whose shape makes the lookup raise. */
  datatype ParsedData = NotJson | Chunk(content: string) | ShapeError(error: string)

  /** The JSON decoder and field lookup, left abstract. */
  type JsonParser = string -> ParsedData

  /** The reply to a POST: the request failed (connection error or an error
      status, both `requests` exceptions), or a body streamed as lines. */
  datatype HttpResponse = RequestFailed(error: string) | Streaming(lines: seq<Line>)

  /** The server behind the URL, as a function of what is posted to it. */
  type Server = Payload -> HttpResponse

  /** How reading the stream ended: with the accumulated text, with a
      `requests` exception, or with any other exception. */
  datatype StreamOutcome = Completed(text: string) | TransportFault(error: string) | UnexpectedFault(error: string)

  const DataPrefix: string := "data: "
  const DoneMarker: string := "[DONE]"

  /** Puts `prefix` in front of the text of a completed outcome. */
  function Prepend(prefix: string, o: StreamOutcome): StreamOutcome
  {
    match o
    case Completed(text) => Completed(prefix + text)
    case _ => o
  }

  /** Whether a line is a `data: ` line whose payload is the end marker. */
  predicate IsDoneLine(line: Line)
  {
    line.Text? && StartsWith(line.text, DataPrefix) && Strip(line.text[|DataPrefix|..]) == DoneMarker
  }

  /** The accumulated text read from `lines`: only `data: ` lines count,
      reading stops at the first whose payload strips to `[DONE]`, payloads
      that are not JSON are skipped, and non-empty delta contents are
      concatenated in order. Undecodable lines and shape errors raise. */
  function Accumulate(lines: seq<Line>, parse: JsonParser): StreamOutcome
  {
    if lines == [] then Completed("")
    else
      match lines[0]
      case Broken(e) => TransportFault(e)
      case Undecodable(e) => UnexpectedFault(e)
      case Text(t) =>
        if !StartsWith(t, DataPrefix) then Accumulate(lines[1..], parse)
        else
          var dataPart := t[|DataPrefix|..];
          if Strip(dataPart) == DoneMarker then Completed("")
          else
            match parse(dataPart)
            case NotJson => Accumulate(lines[1..], parse)
            case ShapeError(e) => UnexpectedFault(e)
            case Chunk(content) => Prepend(content, Accumulate(lines[1..], parse))
  }

  /** The line loop of `send_conversation` and `send_message`. */
  method ConsumeStream(lines: seq<Line>, parse: JsonParser) returns (outcome: StreamOutcome)
    ensures outcome == Accumulate(lines, parse)
  {
    var fullResponse := "";
    var i := 0;
    while i < |lines|
      invariant 0 <= i <= |lines|
      invariant Accumulate(lines, parse) == Prepend(fullResponse, Accumulate(lines[i..], parse))
    {
      assert lines[i..][1..] == lines[i + 1..];
      match lines[i] {
        case Broken(e) =>
          return TransportFault(e);
        case Undecodable(e) =>
          return UnexpectedFault(e);
        case Text(lineText) =>
          if lineText != "" && StartsWith(lineText, DataPrefix) {
            var dataPart := lineText[|DataPrefix|..];
            if Strip(dataPart) == DoneMarker {
              break;
            }
            match parse(dataPart) {
              case NotJson =>
              case ShapeError(e) =>
                return UnexpectedFault(e);
              case Chunk(content) =>
                if content != "" {
                  fullResponse := fullResponse + content;
                }
            }
          }
      }
      i := i + 1;
    }
    outcome := Completed(fullResponse);
  }

  /** One POST and the read of its streamed reply: a failed request is a
      `requests` exception; otherwise the body is read line by line. */
  function Exchange(server: Server, payload: Payload, parse: JsonParser): StreamOutcome
  {
    match server(payload)
    case RequestFailed(e) => TransportFault(e)
    case Streaming(lines) => Accumulate(lines, parse)
  }

  /** Nothing after the end marker is read: once a prefix of the stream ends
      with a `[DONE]` line, more lines change nothing. */
  lemma {:induction false} AccumulateStopsAtDone(lines: seq<Line>, more: seq<Line>, parse: JsonParser)
    requires lines != [] && IsDoneLine(lines[|lines| - 1])
    ensures Accumulate(lines + more, parse) == Accumulate(lines, parse)
  {
    assert (lines + more)[0] == lines[0];
    if |lines| > 1 {
      AccumulateStopsAtDone(lines[1..], more, parse);
      assert (lines + more)[1..] == lines[1..] + more;
    }
  }

  /** Whether a stream prefix is read to its end without stopping: no end
      marker, no fault. */
  predicate ReadThrough(lines: seq<Line>, parse: JsonParser)
  {
    forall i :: 0 <= i < |lines| ==> PassesThrough(lines[i], parse)
  }

  predicate PassesThrough(line: Line, parse: JsonParser)
  {
    line.Text? &&
    (StartsWith(line.text, DataPrefix) ==>
      Strip(line.text[|DataPrefix|..]) != DoneMarker && !parse(line.text[|DataPrefix|..]).ShapeError?)
  }

  /** The text a read-through prefix contributes: the delta contents of its
      JSON data lines, in order. */
  function Contents(lines: seq<Line>, parse: JsonParser): string
  {
    if lines == [] then ""
    else
      var rest := Contents(lines[1..], parse);
      match lines[0]
      case Text(t) =>
        if StartsWith(t, DataPrefix) && parse(t[|DataPrefix|..]).Chunk? then parse(t[|DataPrefix|..]).content + rest
        else rest
      case _ => rest
  }

  /** Accumulation is in-order concatenation: reading a prefix that neither
      ends the stream nor faults puts that prefix's delta contents in front
      of whatever the rest of the stream gives. */
  lemma {:induction false} AccumulateConcat(lines: seq<Line>, more: seq<Line>, parse: JsonParser)
    requires ReadThrough(lines, parse)
    ensures Accumulate(lines + more, parse) == Prepend(Contents(lines, parse), Accumulate(more, parse))
  {
    if lines == [] {
      assert lines + more == more;
      assert Prepend("", Accumulate(more, parse)) == Accumulate(more, parse);
    } else {
      assert (lines + more)[0] == lines[0];
      assert (lines + more)[1..] == lines[1..] + more;
      assert PassesThrough(lines[0], parse);
      AccumulateConcat(lines[1..], more, parse);
      var o := Accumulate(more, parse);
      var c0 := Contents([lines[0]], parse);
      assert Prepend(c0, Prepend(Contents(lines[1..], parse), o)) == Prepend(c0 + Contents(lines[1..], parse), o);
    }
  }
}
