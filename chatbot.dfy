/** The learner's side of `shoggoth_dspy.py`: turning a message list into
    (user, assistant) turns, and the wrapper that turns a failing predictor
    into an error string. The predictor itself is a parameter. */
module Chatbot {
  import opened Common

  /** One history entry: `{"current_message": ..., "response": ...}`. */
  datatype Turn = Turn(currentMessage: string, response: string)

  /** The chatbot predictor: given the current message and the history, a
      response text, or the message of the exception it raised. */
  type Predictor = (string, seq<Turn>) -> Result<string, string>

  /** Prefix of the text returned when the predictor fails. */
  const ErrorPrefix: string := "Error generating response: "

  /** Whether positions `i` and `i + 1` hold a user message followed by an
      assistant message. */
  predicate PairAt(messages: seq<Message>, i: nat)
  {
    i + 1 < |messages| && messages[i].role == "user" && messages[i + 1].role == "assistant"
  }

  /** The turns the pairing loop produces: messages are taken two by two
      from the start, and each pair whose roles are user then assistant
      gives one turn. */
  function HistoryPairs(messages: seq<Message>): seq<Turn>
    decreases |messages|
  {
    if |messages| < 2 then []
    else
      (if PairAt(messages, 0) then [Turn(messages[0].content, messages[1].content)] else [])
      + HistoryPairs(messages[2..])
  }

  /** `fastapi_messages_to_dspy_history`: the step-2 loop over positions
      0, 2, 4, ... */
  method FastapiMessagesToDspyHistory(messages: seq<Message>) returns (history: seq<Turn>)
    ensures history == HistoryPairs(messages)
  {
    history := [];
    var i := 0;
    while i < |messages| - 1
      invariant 0 <= i <= |messages| && i % 2 == 0
      invariant HistoryPairs(messages) == history + HistoryPairs(messages[i..])
    {
      if i + 1 < |messages| {
        var userMsg := messages[i];
        var assistantMsg := messages[i + 1];
        if userMsg.role == "user" && assistantMsg.role == "assistant" {
          history := history + [Turn(userMsg.content, assistantMsg.content)];
        }
      }
      assert messages[i..][2..] == messages[i + 2..];
      i := i + 2;
    }
  }

  /** There are at most half as many turns as messages; empty and
      one-message lists give no turn. */
  lemma {:induction false} HistoryPairsLength(messages: seq<Message>)
    ensures |HistoryPairs(messages)| <= |messages| / 2
  {
    if |messages| >= 2 {
      HistoryPairsLength(messages[2..]);
    }
  }

  /** Pairing is compositional over an even-length prefix: the turns of
      `a + b` are the turns of `a` followed by those of `b`, so the output
      keeps input order. */
  lemma {:induction false} HistoryPairsAppend(a: seq<Message>, b: seq<Message>)
    requires |a| % 2 == 0
    ensures HistoryPairs(a + b) == HistoryPairs(a) + HistoryPairs(b)
    decreases |a|
  {
    if a == [] {
      assert a + b == b;
    } else {
      var ab := a + b;
      var head := if PairAt(a, 0) then [Turn(a[0].content, a[1].content)] else [];
      assert ab[0] == a[0] && ab[1] == a[1] && ab[2..] == a[2..] + b;
      assert HistoryPairs(a) == head + HistoryPairs(a[2..]);
      assert HistoryPairs(ab) == head + HistoryPairs(a[2..] + b);
      HistoryPairsAppend(a[2..], b);
    }
  }

  /** Every turn comes from an even position `i` holding a user message
      followed at `i + 1` by an assistant message, with the user content as
      the current message and the assistant content as the response. */
  lemma {:induction false} HistoryPairsSound(messages: seq<Message>, k: nat)
    requires k < |HistoryPairs(messages)|
    ensures exists i :: (0 <= i && i % 2 == 0 && PairAt(messages, i) &&
      HistoryPairs(messages)[k] == Turn(messages[i].content, messages[i + 1].content))
    decreases |messages|
  {
    var rest := messages[2..];
    if PairAt(messages, 0) && k == 0 {
      assert PairAt(messages, 0);
    } else {
      var k' := if PairAt(messages, 0) then k - 1 else k;
      HistoryPairsSound(rest, k');
      var i :| 0 <= i && i % 2 == 0 && PairAt(rest, i) &&
        HistoryPairs(rest)[k'] == Turn(rest[i].content, rest[i + 1].content);
      assert PairAt(messages, i + 2);
    }
  }

  /** Every even position holding a user message followed by an assistant
      message contributes its turn. */
  lemma {:induction false} HistoryPairsComplete(messages: seq<Message>, i: nat)
    requires i % 2 == 0 && PairAt(messages, i)
    ensures Turn(messages[i].content, messages[i + 1].content) in HistoryPairs(messages)
    decreases |messages|
  {
    if i >= 2 {
      HistoryPairsComplete(messages[2..], i - 2);
    }
  }

  /** Pairs are never re-aligned: when a non-user message (a system
      prompt, say) comes first and a perfectly alternating user/assistant
      conversation follows, every position pair is mismatched and no turn
      at all is produced. */
  lemma {:induction false} LeadingMessageShiftsPairsOut(leading: Message, rest: seq<Message>)
    requires leading.role != "user"
    requires forall j :: 0 <= j < |rest| ==> rest[j].role == (if j % 2 == 0 then "user" else "assistant")
    ensures HistoryPairs([leading] + rest) == []
    decreases |rest|
  {
    var ms := [leading] + rest;
    if |ms| >= 2 {
      assert !PairAt(ms, 0);
      if |rest| >= 2 {
        var rest' := rest[2..];
        forall j | 0 <= j < |rest'|
          ensures rest'[j].role == (if j % 2 == 0 then "user" else "assistant")
        {
          assert rest'[j] == rest[j + 2];
        }
        LeadingMessageShiftsPairsOut(rest[1], rest');
        assert ms[2..] == [rest[1]] + rest';
      } else {
        assert |ms[2..]| < 2;
      }
    }
  }

  /** What `generate_chatbot_response` returns: the predictor's response, or
      the error prefix followed by the failure's message. */
  function ChatbotReply(currentMessage: string, messageHistory: seq<Message>, predictor: Predictor): string
  {
    match predictor(currentMessage, HistoryPairs(messageHistory))
    case Ok(response) => response
    case Err(message) => ErrorPrefix + message
  }

  /** `generate_chatbot_response`: converts the history, runs the predictor
      on it and never raises; a failure becomes an error string. */
  method GenerateChatbotResponse(currentMessage: string, messageHistory: seq<Message>, predictor: Predictor)
    returns (reply: string)
    ensures reply == ChatbotReply(currentMessage, messageHistory, predictor)
    ensures predictor(currentMessage, HistoryPairs(messageHistory)).Err? ==>
      StartsWith(reply, ErrorPrefix) &&
      reply[|ErrorPrefix|..] == predictor(currentMessage, HistoryPairs(messageHistory)).error
    ensures predictor(currentMessage, HistoryPairs(messageHistory)).Ok? ==>
      reply == predictor(currentMessage, HistoryPairs(messageHistory)).value
  {
    var dspyHistory := FastapiMessagesToDspyHistory(messageHistory);
    var response := predictor(currentMessage, dspyHistory);
    match response
    case Ok(text) =>
      reply := text;
    case Err(message) =>
      reply := ErrorPrefix + message;
  }
}
