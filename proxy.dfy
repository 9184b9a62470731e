/** The request bookkeeping of `run.py`: the "last message" history
    extractor, the comprehensive log record, the handler's sequence of log
    writes, store append, learner call and snapshot save, and the relay
    loop that forwards upstream chunks while accumulating their text.

    The handler's `finally` block runs when `return StreamingResponse(...)`
    executes, before the client has read a single chunk; the model follows
    that order, so the bookkeeping of a successful request always sees an
    empty response and records the "no response" sentinel. */
module Proxy {
  import opened Common
  import opened ExampleStore
  import Chatbot

  /** Upstream used when the query has no `p` parameter. */
  const DefaultUpstream: string := "https://openrouter.ai/api/v1"
  const MissingProxyDetail: string := "Missing proxy 'p' parameter"

  /** Response text recorded when nothing (or only whitespace) was
      accumulated. */
  const NoResponseSentinel: string := "[No response from upstream]"

  /** Response text of the comprehensive record written on an upstream
      failure when nothing was accumulated. */
  const NoResponseReceived: string := "[Error: No response received]"

  /** A chunk of upstream bytes. */
  type Chunk = seq<byte>

  /** `bytes.decode("utf-8", errors="replace")`, left abstract. */
  type Decoder = Chunk -> string

  /** The validated request body. `temperature` is carried, never computed
      with. */
  datatype ChatRequest = ChatRequest(model: string, messages: seq<Message>, stream: bool, temperature: real, maxTokens: int)

  /** The JSON body as received, logged verbatim. */
  datatype RawBody = RawBody(json: string)

  /** A value of the `processing_results` dictionary. */
  datatype ResultValue = TextValue(text: string) | CountValue(count: nat)

  type ProcessingResults = map<string, ResultValue>

  /** One line of the audit log (timestamps left out). */
  datatype LogRecord =
    | RequestRecord(body: RawBody)
    | ResponseRecord(text: string)
    | ErrorRecord(text: string)
    | ComprehensiveRecord(request: ChatRequest, currentMessage: string, messageHistory: seq<Message>,
                          upstreamResponse: string, processingResults: ProcessingResults)

  /** What the upstream call does: stream a body in chunks, or raise while
      building or sending the request. */
  datatype Upstream = Streamed(chunks: seq<Chunk>) | Unreachable(error: string)

  /** What the handler gives the framework: a streaming response over the
      upstream chunks (with the value the relay's accumulator starts from),
      an HTTP error, or an exception the handler does not catch (a body
      that is not JSON or fails validation). */
  datatype Reply =
    | StreamingReply(chunks: seq<Chunk>, accumulatorStart: string)
    | HttpError(status: nat, detail: string)
    | Unhandled

  // ---------------------------------------------------------------------
  // History extraction, "last message" mode
  // ---------------------------------------------------------------------

  /** `extract_current_message_and_history`: the content of the final
      message, whatever its role, and every message before it in order;
      `("", [])` for no message. */
  function ExtractCurrentMessageAndHistory(messages: seq<Message>): (r: (string, seq<Message>))
    ensures messages == [] ==> r == ("", [])
    ensures messages != [] ==> r.0 == messages[|messages| - 1].content
    ensures messages != [] ==> r.1 + [messages[|messages| - 1]] == messages
  {
    if messages == [] then ("", [])
    else (messages[|messages| - 1].content, messages[..|messages| - 1])
  }

  /** The two extraction modes agree exactly when the final message is the
      last user message: then both give its content and everything before
      it. */
  lemma ExtractorsAgreeOnTrailingUser(messages: seq<Message>)
    requires messages != [] && messages[|messages| - 1].role == "user"
    ensures LastUserIndex(messages) == Some(|messages| - 1)
    ensures ExtractCurrentMessageAndHistory(messages).0 == messages[|messages| - 1].content
    ensures ExtractCurrentMessageAndHistory(messages).1 == messages[..LastUserIndex(messages).value]
  {
  }

  /** When the final message is not from the user but an earlier one is,
      the "last message" history is strictly longer than the "last user
      message" history: the two modes disagree. */
  lemma ExtractorsDisagreeOnTrailingNonUser(messages: seq<Message>, i: nat)
    requires i < |messages| && messages[i].role == "user"
    requires messages[|messages| - 1].role != "user"
    ensures LastUserIndex(messages).Some?
    ensures |ExtractCurrentMessageAndHistory(messages).1| > LastUserIndex(messages).value
  {
  }

  // ---------------------------------------------------------------------
  // Response text and the comprehensive record
  // ---------------------------------------------------------------------

  /** The `finally` block's guard: a response that strips to nothing is
      replaced by the sentinel, so the recorded text is never blank. */
  function ResponseForBookkeeping(fullResponse: string): (r: string)
    ensures !IsBlank(r)
    ensures !IsBlank(fullResponse) ==> r == fullResponse
    ensures IsBlank(fullResponse) ==> r == NoResponseSentinel
  {
    StripEmptyIff(fullResponse);
    assert !IsSpace(NoResponseSentinel[0]);
    if Strip(fullResponse) == "" then NoResponseSentinel else fullResponse
  }

  /** The `processing_results` dictionary for the given inputs: a
      `shaggoth_response` entry only for a non-empty response, an `error`
      entry only when there is an error, and always the stored-example
      count. */
  predicate DescribesResults(results: ProcessingResults, shaggothResponse: Option<string>, error: Option<string>, storedCount: nat)
  {
    && results.Keys <= {"shaggoth_response", "error", "stored_examples_count"}
    && ("shaggoth_response" in results <==> shaggothResponse.Some? && shaggothResponse.value != "")
    && ("shaggoth_response" in results ==> results["shaggoth_response"] == TextValue(shaggothResponse.value))
    && ("error" in results <==> error.Some?)
    && ("error" in results ==> results["error"] == TextValue(error.value))
    && "stored_examples_count" in results
    && results["stored_examples_count"] == CountValue(storedCount)
  }

  /** Builds `processing_results` step by step, as `log_comprehensive_data`
      does. */
  method BuildProcessingResults(shaggothResponse: Option<string>, error: Option<string>, storedCount: nat)
    returns (results: ProcessingResults)
    ensures DescribesResults(results, shaggothResponse, error, storedCount)
  {
    results := map[];
    if shaggothResponse.Some? && shaggothResponse.value != "" {
      results := results["shaggoth_response" := TextValue(shaggothResponse.value)];
    }
    if error.Some? {
      results := results["error" := TextValue(error.value)];
    }
    results := results["stored_examples_count" := CountValue(storedCount)];
  }

  /** Whether `record` is the comprehensive record for these inputs. */
  predicate IsComprehensive(record: LogRecord, request: ChatRequest, upstreamResponse: string,
                            currentMessage: string, messageHistory: seq<Message>,
                            shaggothResponse: Option<string>, error: Option<string>, storedCount: nat)
  {
    && record.ComprehensiveRecord?
    && record.request == request
    && record.currentMessage == currentMessage
    && record.messageHistory == messageHistory
    && record.upstreamResponse == upstreamResponse
    && DescribesResults(record.processingResults, shaggothResponse, error, storedCount)
  }

  /** The one dictionary that `DescribesResults` admits. */
  function ProcessingResultsFor(shaggothResponse: Option<string>, error: Option<string>, storedCount: nat): (r: ProcessingResults)
    ensures DescribesResults(r, shaggothResponse, error, storedCount)
  {
    var withResponse: ProcessingResults :=
      if shaggothResponse.Some? && shaggothResponse.value != "" then map["shaggoth_response" := TextValue(shaggothResponse.value)]
      else map[];
    var withError := if error.Some? then withResponse["error" := TextValue(error.value)] else withResponse;
    withError["stored_examples_count" := CountValue(storedCount)]
  }

  /** `processing_results` is determined by its inputs: two dictionaries
      that both describe them are equal. */
  lemma DescribesResultsUnique(a: ProcessingResults, b: ProcessingResults, shaggothResponse: Option<string>,
                               error: Option<string>, storedCount: nat)
    requires DescribesResults(a, shaggothResponse, error, storedCount)
    requires DescribesResults(b, shaggothResponse, error, storedCount)
    ensures a == b
  {
    assert a.Keys == b.Keys;
  }

  /** The comprehensive record for these inputs. */
  function ComprehensiveFor(request: ChatRequest, upstreamResponse: string, currentMessage: string,
                            messageHistory: seq<Message>, shaggothResponse: Option<string>, error: Option<string>,
                            storedCount: nat): (r: LogRecord)
    ensures IsComprehensive(r, request, upstreamResponse, currentMessage, messageHistory, shaggothResponse, error, storedCount)
  {
    ComprehensiveRecord(request, currentMessage, messageHistory, upstreamResponse,
                        ProcessingResultsFor(shaggothResponse, error, storedCount))
  }

  // ---------------------------------------------------------------------
  // The relay
  // ---------------------------------------------------------------------

  /** The concatenated decodes of `chunks`, in order. */
  function DecodedText(chunks: seq<Chunk>, decode: Decoder): string
  {
    if chunks == [] then "" else DecodedText(chunks[..|chunks| - 1], decode) + decode(chunks[|chunks| - 1])
  }

  /** Decoding distributes over concatenation: what is accumulated from two
      stretches of the stream is the accumulation of the first followed by
      that of the second. */
  lemma {:induction false} DecodedTextAppend(a: seq<Chunk>, b: seq<Chunk>, decode: Decoder)
    ensures DecodedText(a + b, decode) == DecodedText(a, decode) + DecodedText(b, decode)
    decreases |b|
  {
    if b == [] {
      assert a + b == a;
    } else {
      DecodedTextAppend(a, b[..|b| - 1], decode);
      assert (a + b)[..|a + b| - 1] == a + b[..|b| - 1];
    }
  }

  /** `generate_stream`: every upstream chunk is passed on unchanged and in
      order, and the accumulator ends as its starting value followed by the
      decodes of all chunks. */
  method GenerateStream(chunks: seq<Chunk>, decode: Decoder, fullResponse: string)
    returns (yielded: seq<Chunk>, accumulated: string)
    ensures yielded == chunks
    ensures accumulated == fullResponse + DecodedText(chunks, decode)
  {
    yielded, accumulated := [], fullResponse;
    var i := 0;
    while i < |chunks|
      invariant 0 <= i <= |chunks|
      invariant yielded == chunks[..i]
      invariant accumulated == fullResponse + DecodedText(chunks[..i], decode)
    {
      var chunk := chunks[i];
      var decoded := decode(chunk);
      accumulated := accumulated + decoded;
      yielded := yielded + [chunk];
      assert chunks[..i + 1][..i] == chunks[..i];
      i := i + 1;
    }
    assert chunks[..i] == chunks;
  }

  // ---------------------------------------------------------------------
  // The application: module state of run.py
  // ---------------------------------------------------------------------

  /** The module-level state `run.py` works with: its audit log, the deque
      it imported by name when it was loaded (`examples`), the
      `shoggoth_utils` module whose own binding a load may replace
      (`utils`), and the key-value client set at startup. */
  class App {
    var auditLog: seq<LogRecord>
    const examples: Store
    const utils: UtilsModule
    var redis: Option<KeyValueStore>

    ghost predicate Valid()
      reads this, examples, utils, utils.conversationExamples
    {
      examples.Valid() && utils.conversationExamples.Valid()
    }

    /** Importing `run.py`: `conversation_examples` is bound to the deque
        `shoggoth_utils` holds at that moment; no client yet. */
    constructor (utils: UtilsModule)
      requires utils.conversationExamples.Valid()
      ensures this.utils == utils && examples == utils.conversationExamples
      ensures auditLog == [] && redis == None
      ensures Valid()
    {
      this.utils := utils;
      examples := utils.conversationExamples;
      auditLog := [];
      redis := None;
    }

    function RedisFrame(): set<KeyValueStore>
      reads this
    {
      if redis.Some? then {redis.value} else {}
    }

    /** `on_startup`: `connection` is the client `from_url` built (`None`
        if it raised). The client stays set even when the ping fails; the
        load runs only after a successful ping. */
    method OnStartup(connection: Option<KeyValueStore>)
      requires Valid()
      modifies this`redis, utils
      ensures Valid()
      ensures redis == connection
      ensures connection.Some? && connection.value.available ==>
        match LoadedExamples(true, connection.value.entries)
        case Some(loaded) =>
          fresh(utils.conversationExamples) && utils.conversationExamples.items == Bounded(loaded)
        case None =>
          utils.conversationExamples == old(utils.conversationExamples)
      ensures !(connection.Some? && connection.value.available) ==>
        utils.conversationExamples == old(utils.conversationExamples)
    {
      redis := connection;
      if connection.Some? && connection.value.available {
        utils.LoadConversationExamples(connection.value);
      }
    }

    /** `log_comprehensive_data`: appends one comprehensive record, counting
        the examples of the deque `run.py` holds. */
    method LogComprehensiveData(request: ChatRequest, fullResponse: string, currentMessage: string,
                                messageHistory: seq<Message>, shaggothResponse: Option<string>, error: Option<string>)
      modifies this`auditLog
      ensures auditLog == old(auditLog) +
        [ComprehensiveFor(request, fullResponse, currentMessage, messageHistory, shaggothResponse, error, |examples.items|)]
    {
      var results := BuildProcessingResults(shaggothResponse, error, |examples.items|);
      DescribesResultsUnique(results, ProcessingResultsFor(shaggothResponse, error, |examples.items|),
                             shaggothResponse, error, |examples.items|);
      auditLog := auditLog + [ComprehensiveRecord(request, currentMessage, messageHistory, fullResponse, results)];
    }

    /** The handler's `finally` block: makes the response non-blank, logs
        it, appends the example to the deque `run.py` holds, asks the
        learner, saves the deque `shoggoth_utils` holds when a client
        exists, and writes the comprehensive record. None of these steps
        can raise here: the learner wrapper and the save catch their own
        exceptions, so `processingError` is passed through unchanged. */
    method FinishRequest(chatRequest: ChatRequest, fullResponse: string, currentMessage: string,
                         messageHistory: seq<Message>, processingError: Option<string>, predictor: Chatbot.Predictor)
      returns (recorded: string)
      requires Valid()
      modifies this`auditLog, examples, RedisFrame()
      ensures Valid()
      ensures recorded == ResponseForBookkeeping(fullResponse)
      ensures redis.Some? ==> redis.value.available == old(redis.value.available)
      ensures examples.items == Bounded(old(examples.items) + [ConversationExample(chatRequest.messages, recorded)])
      ensures auditLog == old(auditLog) + [ResponseRecord(recorded),
        ComprehensiveFor(chatRequest, recorded, currentMessage, messageHistory,
                         Some(Chatbot.ChatbotReply(currentMessage, messageHistory, predictor)), processingError,
                         |examples.items|)]
      ensures redis.Some? && redis.value.available ==>
        redis.value.entries ==
          old(redis.value.entries)[ConversationsKey := Snapshot(EncodeAll(utils.conversationExamples.items))]
      ensures redis.Some? && !redis.value.available ==> redis.value.entries == old(redis.value.entries)
      ensures redis.Some? && redis.value.available && utils.conversationExamples == examples ==>
        LoadedExamples(true, redis.value.entries) == Some(examples.items)
    {
      recorded := ResponseForBookkeeping(fullResponse);
      auditLog := auditLog + [ResponseRecord(recorded)];

      examples.Append(ConversationExample(chatRequest.messages, recorded));

      var generated := Chatbot.GenerateChatbotResponse(currentMessage, messageHistory, predictor);
      var shaggothResponse := Some(generated);

      if redis.Some? {
        utils.SaveConversationExamples(redis.value);
        if redis.value.available && utils.conversationExamples == examples {
          LoadAfterSave(old(redis.value.entries), examples.items);
        }
      }

      LogComprehensiveData(chatRequest, recorded, currentMessage, messageHistory, shaggothResponse, processingError);
    }

    /** The handler's `except` branch for an upstream call that raised:
        an error record, then a comprehensive record with no learner
        response, the error, and `upstreamResponse` (the accumulated text,
        or the "no response received" text when there is none). */
    method LogUpstreamFailure(chatRequest: ChatRequest, upstreamResponse: string, currentMessage: string,
                              messageHistory: seq<Message>, error: string)
      modifies this`auditLog
      ensures auditLog == old(auditLog) + [ErrorRecord(error),
        ComprehensiveFor(chatRequest, upstreamResponse, currentMessage, messageHistory, None, Some(error), |examples.items|)]
    {
      auditLog := auditLog + [ErrorRecord(error)];
      LogComprehensiveData(chatRequest, upstreamResponse, currentMessage, messageHistory, None, Some(error));
    }

    /** `proxy_chat_completions` for a body that parsed and validated, up to
        the moment the framework starts reading the stream. */
    method HandleChatRequest(rawBody: RawBody, chatRequest: ChatRequest, upstream: Upstream, predictor: Chatbot.Predictor)
      returns (reply: Reply)
      requires Valid()
      modifies this`auditLog, examples, RedisFrame()
      ensures Valid()
      ensures redis.Some? ==> redis.value.available == old(redis.value.available)
      ensures examples.items == Bounded(old(examples.items) + [ConversationExample(chatRequest.messages, NoResponseSentinel)])
      ensures upstream.Streamed? ==>
        var extracted := ExtractCurrentMessageAndHistory(chatRequest.messages);
        && reply == StreamingReply(upstream.chunks, NoResponseSentinel)
        && auditLog == old(auditLog) + [
             RequestRecord(rawBody),
             ResponseRecord(NoResponseSentinel),
             ComprehensiveFor(chatRequest, NoResponseSentinel, extracted.0, extracted.1,
                              Some(Chatbot.ChatbotReply(extracted.0, extracted.1, predictor)), None, |examples.items|)]
      ensures upstream.Unreachable? ==>
        var extracted := ExtractCurrentMessageAndHistory(chatRequest.messages);
        && reply == HttpError(500, upstream.error)
        && auditLog == old(auditLog) + [
             RequestRecord(rawBody),
             ErrorRecord(upstream.error),
             ComprehensiveFor(chatRequest, NoResponseReceived, extracted.0, extracted.1,
                              None, Some(upstream.error), |old(examples.items)|),
             ResponseRecord(NoResponseSentinel),
             ComprehensiveFor(chatRequest, NoResponseSentinel, extracted.0, extracted.1,
                              Some(Chatbot.ChatbotReply(extracted.0, extracted.1, predictor)), Some(upstream.error),
                              |examples.items|)]
      ensures redis.Some? && redis.value.available ==>
        redis.value.entries ==
          old(redis.value.entries)[ConversationsKey := Snapshot(EncodeAll(utils.conversationExamples.items))]
      ensures redis.Some? && !redis.value.available ==> redis.value.entries == old(redis.value.entries)
      ensures redis.Some? && redis.value.available && utils.conversationExamples == examples ==>
        LoadedExamples(true, redis.value.entries) == Some(examples.items)
    {
      var extracted := ExtractCurrentMessageAndHistory(chatRequest.messages);
      var currentMessage, messageHistory := extracted.0, extracted.1;

      auditLog := auditLog + [RequestRecord(rawBody)];

      var fullResponse := "";
      var processingError: Option<string> := None;

      // try: build and send the upstream request.
      match upstream {
        case Unreachable(e) =>
          processingError := Some(e);
          LogUpstreamFailure(chatRequest, if fullResponse != "" then fullResponse else NoResponseReceived,
                             currentMessage, messageHistory, e);
          reply := HttpError(500, e);
        case Streamed(chunks) =>
          reply := StreamingReply(chunks, "");
      }

      // finally: runs before the stream is read.
      assert IsBlank(fullResponse);
      fullResponse := FinishRequest(chatRequest, fullResponse, currentMessage, messageHistory, processingError, predictor);

      if upstream.Streamed? {
        // The generator closes over `full_response`, which now holds the
        // sentinel.
        reply := StreamingReply(upstream.chunks, fullResponse);
      }
    }

    /** `proxy_chat_completions`. `p` is the query parameter, `parsed` the
        validated body (`None` when parsing or validation raises),
        `upstream` what the upstream call does and `predictor` the learner.

        A request that gets past validation always produces, in this order:
        the request record (before any upstream call); on an upstream
        failure an error record and a comprehensive record; then the
        response record with the sentinel, the example appended to the
        deque `run.py` holds, the learner's reply, a save of the deque
        `shoggoth_utils` holds when a client exists, and a final
        comprehensive record. */
    method ProxyChatCompletions(p: Option<string>, rawBody: RawBody, parsed: Option<ChatRequest>,
                                upstream: Upstream, predictor: Chatbot.Predictor)
      returns (reply: Reply)
      requires Valid()
      modifies this`auditLog, examples, RedisFrame()
      ensures Valid()
      ensures redis.Some? ==> redis.value.available == old(redis.value.available)
      // Rejected before anything is logged or stored.
      ensures p == Some("") ==>
        reply == HttpError(400, MissingProxyDetail) && auditLog == old(auditLog) && examples.items == old(examples.items)
      ensures p != Some("") && parsed.None? ==>
        reply == Unhandled && auditLog == old(auditLog) && examples.items == old(examples.items)
      // The example is stored whatever the upstream did.
      ensures p != Some("") && parsed.Some? ==>
        examples.items == Bounded(old(examples.items) + [ConversationExample(parsed.value.messages, NoResponseSentinel)])
      // Success: three records, and the stream is handed over.
      ensures p != Some("") && parsed.Some? && upstream.Streamed? ==>
        var extracted := ExtractCurrentMessageAndHistory(parsed.value.messages);
        && reply == StreamingReply(upstream.chunks, NoResponseSentinel)
        && auditLog == old(auditLog) + [
             RequestRecord(rawBody),
             ResponseRecord(NoResponseSentinel),
             ComprehensiveFor(parsed.value, NoResponseSentinel, extracted.0, extracted.1,
                              Some(Chatbot.ChatbotReply(extracted.0, extracted.1, predictor)), None, |examples.items|)]
      // Failure: five records, then HTTP 500.
      ensures p != Some("") && parsed.Some? && upstream.Unreachable? ==>
        var extracted := ExtractCurrentMessageAndHistory(parsed.value.messages);
        && reply == HttpError(500, upstream.error)
        && auditLog == old(auditLog) + [
             RequestRecord(rawBody),
             ErrorRecord(upstream.error),
             ComprehensiveFor(parsed.value, NoResponseReceived, extracted.0, extracted.1,
                              None, Some(upstream.error), |old(examples.items)|),
             ResponseRecord(NoResponseSentinel),
             ComprehensiveFor(parsed.value, NoResponseSentinel, extracted.0, extracted.1,
                              Some(Chatbot.ChatbotReply(extracted.0, extracted.1, predictor)), Some(upstream.error),
                              |examples.items|)]
      // Persistence: the deque `shoggoth_utils` holds is saved, and only
      // when a client exists.
      ensures p != Some("") && parsed.Some? && redis.Some? && redis.value.available ==>
        redis.value.entries ==
          old(redis.value.entries)[ConversationsKey := Snapshot(EncodeAll(utils.conversationExamples.items))]
      ensures !(p != Some("") && parsed.Some? && redis.Some? && redis.value.available) ==>
        redis.Some? ==> redis.value.entries == old(redis.value.entries)
      // The new example reaches the service only while both modules still
      // share one deque.
      ensures p != Some("") && parsed.Some? && redis.Some? && redis.value.available && utils.conversationExamples == examples ==>
        LoadedExamples(true, redis.value.entries) == Some(examples.items)
    {
      var upstreamUrl := if p.Some? then p.value else DefaultUpstream;
      if upstreamUrl == "" {
        return HttpError(400, MissingProxyDetail);
      }
      if parsed.None? {
        return Unhandled;
      }
      reply := HandleChatRequest(rawBody, parsed.value, upstream, predictor);
    }
  }
}
