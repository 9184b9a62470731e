/** `load_conversations.py`: reads a dataset file of conversations, keeps
    the lists of a reasonable length, optionally shuffles them, selects a
    window, and posts each one to the proxy as a streaming chat request,
    counting successes and errors.

    The file read and `json.load` become the `dataset` parameter (`None`
    when either raises); the server, the JSON decoder, the shuffled order
    and the sleeps are parameters or results, not effects. */
module Loader {
  import opened Common
  import opened SseClient

  const DefaultProxyUrl: string := "http://localhost:7000/chat/completions"
  const DefaultUpstreamUrl: string := "http://10.0.0.2:8000/v1"
  const DefaultModel: string := "hello"
  const MaxTokens: int := 500

  /** Conversations outside this range of message counts are dropped. */
  const MinMessages: nat := 1
  const MaxMessages: nat := 20

  /** One top-level item of the dataset file: a list of message
      dictionaries, or any other JSON value. */
  datatype JsonItem = ConversationList(messages: seq<RawMessage>) | OtherJson

  /** How one conversation went: nothing to send, streamed to the end, or
      failed with an exception. */
  datatype Delivery = Skipped | Delivered(response: string) | Failed(error: string)

  // ---------------------------------------------------------------------
  // Message normalisation
  // ---------------------------------------------------------------------

  /** `d.get(key, '')` for a string-valued dictionary. */
  function Get(msg: RawMessage, key: string): string
  {
    if key in msg then msg[key] else ""
  }

  /** The role names mapped to `user` and to `assistant`. */
  const UserAliases: seq<string> := ["prompter", "human", "person1"]
  const AssistantAliases: seq<string> := ["assistant", "ai", "person2"]

  /** The normalised role: lowered, with the user and assistant aliases
      mapped to `user` and `assistant`; any other name is kept lowered. */
  function CanonicalRole(role: string): (r: string)
    ensures IsLowered(r)
  {
    ToLowerSpec(role);
    var lowered := ToLower(role);
    if lowered in UserAliases then "user"
    else if lowered in AssistantAliases then "assistant"
    else lowered
  }

  /** The alias table: a role normalises to `user` exactly when, lowered,
      it is `user` or a user alias; to `assistant` exactly when, lowered, it
      is an assistant alias (`assistant` among them); any other role
      normalises to itself, lowered. */
  lemma CanonicalRoleMapping(role: string)
    ensures CanonicalRole(role) == "user" <==> ToLower(role) == "user" || ToLower(role) in UserAliases
    ensures CanonicalRole(role) == "assistant" <==> ToLower(role) in AssistantAliases
    ensures CanonicalRole(role) != "user" && CanonicalRole(role) != "assistant" ==> CanonicalRole(role) == ToLower(role)
  {
  }

  /** Normalising is case-blind and idempotent: a normalised role is left
      as it is, so `user` and `assistant` are fixed points. */
  lemma CanonicalRoleStable(role: string)
    ensures CanonicalRole(ToLower(role)) == CanonicalRole(role)
    ensures CanonicalRole(CanonicalRole(role)) == CanonicalRole(role)
  {
    ToLowerSpec(role);
    assert ToLower("user") == "user";
    assert ToLower("assistant") == "assistant";
    var lowered := ToLower(role);
    if lowered !in UserAliases && lowered !in AssistantAliases {
      ToLowerSpec(lowered);
    }
  }

  /** The role of a raw message: `user` when it has none. */
  function RoleOf(msg: RawMessage): string
  {
    CanonicalRole(if "role" in msg then msg["role"] else "user")
  }

  /** The first non-empty value among `content`, `text` and `message`, or
      the empty string. */
  function MessageContent(msg: RawMessage): (c: string)
    ensures c == "" <==> Get(msg, "content") == "" && Get(msg, "text") == "" && Get(msg, "message") == ""
    ensures c != "" ==> c == Get(msg, "content") || c == Get(msg, "text") || c == Get(msg, "message")
    ensures Get(msg, "content") != "" ==> c == Get(msg, "content")
  {
    if Get(msg, "content") != "" then Get(msg, "content")
    else if Get(msg, "text") != "" then Get(msg, "text")
    else Get(msg, "message")
  }

  /** One raw message after formatting: dropped when its content is blank,
      otherwise the normalised role and the stripped content. */
  function Formatted(msg: RawMessage): Option<Message>
  {
    var content := MessageContent(msg);
    if Strip(content) != "" then Some(Message(RoleOf(msg), Strip(content))) else None
  }

  /** The messages `send_conversation` posts, in input order. */
  function FormattedMessages(messages: seq<RawMessage>): seq<Message>
  {
    if messages == [] then []
    else
      var last := Formatted(messages[|messages| - 1]);
      FormattedMessages(messages[..|messages| - 1]) + (if last.Some? then [last.value] else [])
  }

  /** The formatting loop of `send_conversation`. */
  method FormatMessages(messages: seq<RawMessage>) returns (formatted: seq<Message>)
    ensures formatted == FormattedMessages(messages)
  {
    formatted := [];
    var i := 0;
    while i < |messages|
      invariant 0 <= i <= |messages|
      invariant formatted == FormattedMessages(messages[..i])
    {
      var msg := messages[i];
      var role := CanonicalRole(if "role" in msg then msg["role"] else "user");
      var content := MessageContent(msg);
      if Strip(content) != "" {
        formatted := formatted + [Message(role, Strip(content))];
      }
      assert messages[..i + 1][..i] == messages[..i];
      i := i + 1;
    }
    assert messages[..i] == messages;
  }

  /** Formatting works message by message: the formatted concatenation is
      the concatenation of the formatted parts, so order is kept. */
  lemma {:induction false} FormattedMessagesAppend(a: seq<RawMessage>, b: seq<RawMessage>)
    ensures FormattedMessages(a + b) == FormattedMessages(a) + FormattedMessages(b)
    decreases |b|
  {
    if b == [] {
      assert a + b == a;
    } else {
      FormattedMessagesAppend(a, b[..|b| - 1]);
      assert (a + b)[..|a + b| - 1] == a + b[..|b| - 1];
    }
  }

  /** Every posted message has stripped, non-blank content and a lowered
      role; there are never more of them than raw messages. */
  lemma {:induction false} FormattedMessagesClean(messages: seq<RawMessage>)
    ensures |FormattedMessages(messages)| <= |messages|
    ensures forall i :: 0 <= i < |FormattedMessages(messages)| ==>
      var m := FormattedMessages(messages)[i];
      m.content != "" && !IsBlank(m.content) && Strip(m.content) == m.content && IsLowered(m.role)
  {
    if messages != [] {
      var init := messages[..|messages| - 1];
      FormattedMessagesClean(init);
      var content := MessageContent(messages[|messages| - 1]);
      StripIdempotent(content);
      StripEmptyIff(Strip(content));
    }
  }

  /** A message is dropped exactly when its content is blank. */
  lemma FormattedDropsBlank(msg: RawMessage)
    ensures Formatted(msg).None? <==> IsBlank(MessageContent(msg))
  {
    StripEmptyIff(MessageContent(msg));
  }

  /** A message with non-blank content is posted. */
  lemma {:induction false} FormattedMessagesKeeps(messages: seq<RawMessage>, i: nat)
    requires i < |messages| && !IsBlank(MessageContent(messages[i]))
    ensures FormattedMessages(messages) != []
  {
    var init := messages[..|messages| - 1];
    if i == |messages| - 1 {
      FormattedDropsBlank(messages[i]);
    } else {
      assert init[i] == messages[i];
      FormattedMessagesKeeps(init, i);
    }
  }

  /** Messages with blank content only post nothing. */
  lemma {:induction false} FormattedMessagesAllBlank(messages: seq<RawMessage>)
    requires forall i :: 0 <= i < |messages| ==> IsBlank(MessageContent(messages[i]))
    ensures FormattedMessages(messages) == []
  {
    if messages != [] {
      var init := messages[..|messages| - 1];
      assert forall i :: 0 <= i < |init| ==> init[i] == messages[i];
      FormattedMessagesAllBlank(init);
      FormattedDropsBlank(messages[|messages| - 1]);
    }
  }

  /** Nothing is posted exactly when every message's content is blank. */
  lemma FormattedMessagesEmpty(messages: seq<RawMessage>)
    ensures FormattedMessages(messages) == [] <==>
      forall i :: 0 <= i < |messages| ==> IsBlank(MessageContent(messages[i]))
  {
    if forall i :: 0 <= i < |messages| ==> IsBlank(MessageContent(messages[i])) {
      FormattedMessagesAllBlank(messages);
    } else {
      var i :| 0 <= i < |messages| && !IsBlank(MessageContent(messages[i]));
      FormattedMessagesKeeps(messages, i);
    }
  }

  // ---------------------------------------------------------------------
  // Filtering the dataset
  // ---------------------------------------------------------------------

  predicate Acceptable(item: JsonItem)
  {
    item.ConversationList? && MinMessages <= |item.messages| <= MaxMessages
  }

  /** The conversations kept from the dataset: lists of 1 to 20 messages,
      in file order. */
  function Conversations(items: seq<JsonItem>): (r: seq<seq<RawMessage>>)
    ensures |r| <= |items|
  {
    if items == [] then []
    else
      var last := items[|items| - 1];
      Conversations(items[..|items| - 1]) + (if Acceptable(last) then [last.messages] else [])
  }

  /** Filtering keeps file order: the kept conversations of two runs of
      items are those of the first followed by those of the second. */
  lemma {:induction false} ConversationsAppend(a: seq<JsonItem>, b: seq<JsonItem>)
    ensures Conversations(a + b) == Conversations(a) + Conversations(b)
    decreases |b|
  {
    if b == [] {
      assert a + b == a;
    } else {
      var init := b[..|b| - 1];
      assert (a + b)[..|a + b| - 1] == a + init;
      assert (a + b)[|a + b| - 1] == b[|b| - 1];
      ConversationsAppend(a, init);
    }
  }

  /** The filtering loop of `load_and_send_conversations`. */
  method FilterConversations(items: seq<JsonItem>) returns (filtered: seq<seq<RawMessage>>)
    ensures filtered == Conversations(items)
  {
    filtered := [];
    var i := 0;
    while i < |items|
      invariant 0 <= i <= |items|
      invariant filtered == Conversations(items[..i])
    {
      var conv := items[i];
      if conv.ConversationList? && MinMessages <= |conv.messages| <= MaxMessages {
        filtered := filtered + [conv.messages];
      }
      assert items[..i + 1][..i] == items[..i];
      i := i + 1;
    }
    assert items[..i] == items;
  }

  /** Only lists of an acceptable length are kept... */
  lemma {:induction false} ConversationsSound(items: seq<JsonItem>)
    ensures forall i :: 0 <= i < |Conversations(items)| ==>
      MinMessages <= |Conversations(items)[i]| <= MaxMessages
  {
    if items != [] {
      ConversationsSound(items[..|items| - 1]);
    }
  }

  /** ...and every one of them is kept. */
  lemma {:induction false} ConversationsComplete(items: seq<JsonItem>, i: nat)
    requires i < |items| && Acceptable(items[i])
    ensures items[i].messages in Conversations(items)
  {
    var init := items[..|items| - 1];
    if i < |items| - 1 {
      assert init[i] == items[i];
      ConversationsComplete(init, i);
    }
  }

  // ---------------------------------------------------------------------
  // The loader
  // ---------------------------------------------------------------------

  /** `ConversationLoader`: the target configuration and three counters. */
  class ConversationLoader {
    const proxyUrl: string
    const upstreamUrl: string
    const model: string
    var sentCount: nat
    var successCount: nat
    var errorCount: nat

    /** A conversation is counted as sent only when it succeeds. */
    ghost predicate Valid()
      reads this
    {
      sentCount == successCount
    }

    constructor (proxyUrl: string, upstreamUrl: string, model: string)
      ensures this.proxyUrl == proxyUrl && this.upstreamUrl == upstreamUrl && this.model == model
      ensures sentCount == 0 && successCount == 0 && errorCount == 0
      ensures Valid()
    {
      this.proxyUrl := proxyUrl;
      this.upstreamUrl := upstreamUrl;
      this.model := model;
      sentCount, successCount, errorCount := 0, 0, 0;
    }

    /** What sending one conversation amounts to. */
    function DeliveryOf(messages: seq<RawMessage>, server: Server, parse: JsonParser): Delivery
    {
      var formatted := FormattedMessages(messages);
      if formatted == [] then Skipped
      else
        match Exchange(server, StreamPayload(proxyUrl, upstreamUrl, model, formatted, MaxTokens), parse)
        case Completed(text) => Delivered(text)
        case TransportFault(e) => Failed(e)
        case UnexpectedFault(e) => Failed(e)
    }

    /** `send_conversation`: formats the messages, skips an empty result,
        otherwise posts them and reads the stream to its end.
        `conversationId` only appears in progress lines. */
    method SendConversation(messages: seq<RawMessage>, conversationId: int, server: Server, parse: JsonParser)
      returns (ok: bool)
      requires Valid()
      modifies this`sentCount, this`successCount, this`errorCount
      ensures Valid()
      ensures ok <==> DeliveryOf(messages, server, parse).Delivered?
      ensures DeliveryOf(messages, server, parse).Skipped? ==>
        sentCount == old(sentCount) && successCount == old(successCount) && errorCount == old(errorCount)
      ensures DeliveryOf(messages, server, parse).Delivered? ==>
        sentCount == old(sentCount) + 1 && successCount == old(successCount) + 1 && errorCount == old(errorCount)
      ensures DeliveryOf(messages, server, parse).Failed? ==>
        sentCount == old(sentCount) && successCount == old(successCount) && errorCount == old(errorCount) + 1
    {
      var formatted := FormatMessages(messages);
      if formatted == [] {
        return false;
      }
      var payload := StreamPayload(proxyUrl, upstreamUrl, model, formatted, MaxTokens);
      var outcome: StreamOutcome;
      match server(payload) {
        case RequestFailed(e) =>
          outcome := TransportFault(e);
        case Streaming(lines) =>
          outcome := ConsumeStream(lines, parse);
      }
      match outcome {
        case Completed(_) =>
          sentCount := sentCount + 1;
          successCount := successCount + 1;
          ok := true;
        case TransportFault(_) =>
          errorCount := errorCount + 1;
          ok := false;
        case UnexpectedFault(_) =>
          errorCount := errorCount + 1;
          ok := false;
      }
    }

    /** How many of `conversations` are delivered. */
    function Successes(conversations: seq<seq<RawMessage>>, server: Server, parse: JsonParser): nat
    {
      if conversations == [] then 0
      else
        Successes(conversations[..|conversations| - 1], server, parse) +
        (if DeliveryOf(conversations[|conversations| - 1], server, parse).Delivered? then 1 else 0)
    }

    /** How many of `conversations` fail. */
    function Failures(conversations: seq<seq<RawMessage>>, server: Server, parse: JsonParser): nat
    {
      if conversations == [] then 0
      else
        Failures(conversations[..|conversations| - 1], server, parse) +
        (if DeliveryOf(conversations[|conversations| - 1], server, parse).Failed? then 1 else 0)
    }

    /** Every conversation is delivered, fails or is skipped: successes and
        failures together never exceed the number of conversations, and
        reach it when no conversation is empty after formatting. */
    lemma {:induction false} SuccessesAndFailures(conversations: seq<seq<RawMessage>>, server: Server, parse: JsonParser)
      ensures Successes(conversations, server, parse) + Failures(conversations, server, parse) <= |conversations|
      ensures (forall i :: 0 <= i < |conversations| ==> FormattedMessages(conversations[i]) != []) ==>
        Successes(conversations, server, parse) + Failures(conversations, server, parse) == |conversations|
    {
      if conversations != [] {
        var init := conversations[..|conversations| - 1];
        SuccessesAndFailures(init, server, parse);
        assert forall i :: 0 <= i < |init| ==> init[i] == conversations[i];
      }
    }

    /** The sending loop of `load_and_send_conversations`: conversation
        `i` of the selection goes out with id `startFrom + i + 1`, and a
        pause follows every conversation but the last. */
    method SendSelected(selected: seq<seq<RawMessage>>, startFrom: int, delay: real, server: Server, parse: JsonParser)
      returns (attempts: seq<int>, pauses: nat)
      requires Valid()
      modifies this`sentCount, this`successCount, this`errorCount
      ensures Valid()
      ensures |attempts| == |selected| && forall i :: 0 <= i < |attempts| ==> attempts[i] == startFrom + i + 1
      ensures pauses == (if delay > 0.0 && |selected| > 0 then |selected| - 1 else 0)
      ensures successCount == old(successCount) + Successes(selected, server, parse)
      ensures errorCount == old(errorCount) + Failures(selected, server, parse)
    {
      attempts, pauses := [], 0;
      var i := 0;
      while i < |selected|
        invariant 0 <= i <= |selected|
        invariant Valid()
        invariant |attempts| == i && forall k :: 0 <= k < i ==> attempts[k] == startFrom + k + 1
        invariant pauses == (if delay > 0.0 && i > 0 then Min(i, |selected| - 1) else 0)
        invariant successCount == old(successCount) + Successes(selected[..i], server, parse)
        invariant errorCount == old(errorCount) + Failures(selected[..i], server, parse)
      {
        var conversationId := startFrom + i + 1;
        var success := SendConversation(selected[i], conversationId, server, parse);
        attempts := attempts + [conversationId];
        if delay > 0.0 && i < |selected| - 1 {
          pauses := pauses + 1;
        }
        assert selected[..i + 1][..i] == selected[..i];
        i := i + 1;
      }
      assert selected[..i] == selected;
    }

    /** `load_and_send_conversations`. `dataset` is the parsed file (`None`
        when reading or parsing raised), `shuffled` the order
        `random.shuffle` produced (a permutation of the kept
        conversations). Returns the result, the conversation ids in the
        order they were sent, and how many pauses were taken. */
    method LoadAndSendConversations(dataset: Option<seq<JsonItem>>, count: int, delay: real, shuffle: bool,
                                    startFrom: int, shuffled: seq<seq<RawMessage>>, server: Server, parse: JsonParser)
      returns (ok: bool, attempts: seq<int>, pauses: nat)
      requires Valid()
      requires shuffle && dataset.Some? ==> multiset(shuffled) == multiset(Conversations(dataset.value))
      modifies this`sentCount, this`successCount, this`errorCount
      ensures Valid()
      // A file that cannot be read, or holds no usable conversation, sends
      // nothing.
      ensures dataset.None? || Conversations(dataset.value) == [] ==>
        !ok && attempts == [] && pauses == 0 &&
        sentCount == old(sentCount) && successCount == old(successCount) && errorCount == old(errorCount)
      ensures dataset.Some? && Conversations(dataset.value) != [] ==>
        var ordered := if shuffle then shuffled else Conversations(dataset.value);
        var selected := PySlice(ordered, startFrom, startFrom + count);
        && |attempts| == |selected|
        && (forall i :: 0 <= i < |attempts| ==> attempts[i] == startFrom + i + 1)
        && pauses == (if delay > 0.0 && |selected| > 0 then |selected| - 1 else 0)
        && successCount == old(successCount) + Successes(selected, server, parse)
        && errorCount == old(errorCount) + Failures(selected, server, parse)
        && ok == (successCount > 0)
    {
      if dataset.None? {
        return false, [], 0;
      }
      var filtered := FilterConversations(dataset.value);
      if filtered == [] {
        return false, [], 0;
      }
      if shuffle {
        filtered := shuffled;
      }
      var selected := PySlice(filtered, startFrom, startFrom + count);
      attempts, pauses := SendSelected(selected, startFrom, delay, server, parse);
      ok := successCount > 0;
    }
  }
}
