/** `chat.py`: the interactive client's conversation history and the
    request it sends for every user message. The server and the JSON
    decoder are parameters; terminal output is left out. */
module ChatClient {
  import opened Common
  import opened SseClient

  const DefaultProxyUrl: string := "http://localhost:7000/chat/completions"
  const DefaultUpstreamUrl: string := "http://10.0.0.2:8000/v1"
  const DefaultModel: string := "hello"
  const MaxTokens: int := 1000

  const ConnectionErrorPrefix: string := "Error connecting to server: "
  const UnexpectedErrorPrefix: string := "Unexpected error: "

  /** What `send_message` returns for an outcome: the accumulated text, or
      the error message with the prefix of its kind. */
  function ReplyText(outcome: StreamOutcome): (r: string)
    ensures outcome.TransportFault? ==> StartsWith(r, ConnectionErrorPrefix) && r[|ConnectionErrorPrefix|..] == outcome.error
    ensures outcome.UnexpectedFault? ==> StartsWith(r, UnexpectedErrorPrefix) && r[|UnexpectedErrorPrefix|..] == outcome.error
    ensures outcome.Completed? ==> r == outcome.text
  {
    match outcome
    case Completed(text) => text
    case TransportFault(e) => ConnectionErrorPrefix + e
    case UnexpectedFault(e) => UnexpectedErrorPrefix + e
  }

  /** The history after a turn: the user message is always kept; the
      assistant's reply is added only when the stream completed with
      non-empty text. */
  function HistoryAfter(history: seq<Message>, userMessage: string, outcome: StreamOutcome): (r: seq<Message>)
    ensures |r| == |history| + (if outcome.Completed? && outcome.text != "" then 2 else 1)
    ensures r[..|history| + 1] == history + [Message("user", userMessage)]
    ensures |r| == |history| + 2 ==> r[|history| + 1] == Message("assistant", outcome.text)
  {
    var withUser := history + [Message("user", userMessage)];
    if outcome.Completed? && outcome.text != "" then withUser + [Message("assistant", outcome.text)] else withUser
  }

  /** `StreamingChatClient`: the target configuration and the history. */
  class StreamingChatClient {
    const proxyUrl: string
    const upstreamUrl: string
    const model: string
    var conversationHistory: seq<Message>

    constructor (proxyUrl: string, upstreamUrl: string, model: string)
      ensures this.proxyUrl == proxyUrl && this.upstreamUrl == upstreamUrl && this.model == model
      ensures conversationHistory == []
    {
      this.proxyUrl := proxyUrl;
      this.upstreamUrl := upstreamUrl;
      this.model := model;
      conversationHistory := [];
    }

    /** `add_message`: one message at the end, nothing else changed. */
    method AddMessage(role: string, content: string)
      modifies this`conversationHistory
      ensures conversationHistory == old(conversationHistory) + [Message(role, content)]
    {
      conversationHistory := conversationHistory + [Message(role, content)];
    }

    /** `send_message`: appends the user message, posts the whole history
        (the new message included), reads the stream, and appends the
        reply when there is one. Never raises. */
    method SendMessage(userMessage: string, server: Server, parse: JsonParser) returns (reply: string)
      modifies this`conversationHistory
      ensures var sent := old(conversationHistory) + [Message("user", userMessage)];
        var outcome := Exchange(server, StreamPayload(proxyUrl, upstreamUrl, model, sent, MaxTokens), parse);
        && reply == ReplyText(outcome)
        && conversationHistory == HistoryAfter(old(conversationHistory), userMessage, outcome)
    {
      AddMessage("user", userMessage);
      var payload := StreamPayload(proxyUrl, upstreamUrl, model, conversationHistory, MaxTokens);
      var outcome: StreamOutcome;
      match server(payload) {
        case RequestFailed(e) =>
          outcome := TransportFault(e);
        case Streaming(lines) =>
          outcome := ConsumeStream(lines, parse);
      }
      match outcome {
        case Completed(fullResponse) =>
          if fullResponse != "" {
            AddMessage("assistant", fullResponse);
          }
          reply := fullResponse;
        case TransportFault(e) =>
          reply := ConnectionErrorPrefix + e;
        case UnexpectedFault(e) =>
          reply := UnexpectedErrorPrefix + e;
      }
    }

    /** `clear_history`. */
    method ClearHistory()
      modifies this`conversationHistory
      ensures conversationHistory == []
    {
      conversationHistory := [];
    }
  }

  /** Every assistant message directly answers a user message. */
  predicate AnswersFollowQuestions(history: seq<Message>)
  {
    forall j :: 0 <= j < |history| && history[j].role == "assistant" ==> j > 0 && history[j - 1].role == "user"
  }

  /** A turn keeps that shape: the client never records two replies in a
      row, nor a reply before any question. */
  lemma HistoryAfterKeepsShape(history: seq<Message>, userMessage: string, outcome: StreamOutcome)
    requires AnswersFollowQuestions(history)
    ensures AnswersFollowQuestions(HistoryAfter(history, userMessage, outcome))
  {
    var r := HistoryAfter(history, userMessage, outcome);
    forall j | 0 <= j < |r| && r[j].role == "assistant"
      ensures j > 0 && r[j - 1].role == "user"
    {
      if j < |history| {
        assert r[j] == history[j] && r[j - 1] == history[j - 1];
      } else {
        assert j == |history| + 1;
      }
    }
  }
}
