/** The conversation-example store of `shoggoth_utils.py`: the example
    record and its dictionary form, the deque bounded at 1000 entries, its
    whole-snapshot load and save against the key-value service, the two
    diagnostic views and the "last user message" history extractor. */
module ExampleStore {
  import opened Common

  /** `deque(maxlen=1000)`. */
  const Capacity: nat := 1000

  /** `EXAMPLE_STORAGE_KEY` with its default value. */
  const ExampleStorageKey: string := "examples:shaggothrl"

  /** The key under which the whole store is saved. */
  const ConversationsKey: string := ExampleStorageKey + ":conversations"

  /** Length of the response preview of the recent-conversations view. */
  const PreviewLength: nat := 100

  /** One completed exchange: the messages the caller sent and the text
      recorded as the answer. */
  datatype ConversationExample = ConversationExample(messages: seq<Message>, response: string)

  /** A value of a serialised example dictionary. */
  datatype DictValue = MessageList(messages: seq<Message>) | Text(text: string)

  /** The dictionary `to_dict` produces and `from_dict` consumes. */
  type ExampleDict = map<string, DictValue>

  // ---------------------------------------------------------------------
  // to_dict / from_dict
  // ---------------------------------------------------------------------

  /** `ConversationExample.to_dict`. */
  function ToDict(e: ConversationExample): (d: ExampleDict)
    ensures d.Keys == {"messages", "response"}
  {
    map["messages" := MessageList(e.messages), "response" := Text(e.response)]
  }

  /** `ConversationExample.from_dict`: `None` where Python raises (a missing
      key) or where the value is not of the kind `to_dict` writes. */
  function FromDict(d: ExampleDict): (r: Option<ConversationExample>)
    ensures r.Some? <==>
      "messages" in d && "response" in d && d["messages"].MessageList? && d["response"].Text?
    ensures r.Some? ==> r.value.messages == d["messages"].messages && r.value.response == d["response"].text
  {
    if "messages" in d && "response" in d && d["messages"].MessageList? && d["response"].Text? then
      Some(ConversationExample(d["messages"].messages, d["response"].text))
    else None
  }

  /** Round trip: decoding the dictionary of an example gives the example
      back, with the same messages and response. */
  lemma FromDictToDict(e: ConversationExample)
    ensures FromDict(ToDict(e)) == Some(e)
  {
  }

  /** `[ex.to_dict() for ex in examples]`. */
  function EncodeAll(examples: seq<ConversationExample>): (ds: seq<ExampleDict>)
    ensures |ds| == |examples|
    ensures forall i :: 0 <= i < |ds| ==> ds[i] == ToDict(examples[i])
  {
    seq(|examples|, i requires 0 <= i < |examples| => ToDict(examples[i]))
  }

  /** `[ConversationExample.from_dict(ex) for ex in data]`: `None` as soon as
      one dictionary cannot be decoded. */
  function DecodeAll(data: seq<ExampleDict>): (r: Option<seq<ConversationExample>>)
    ensures r.Some? ==> |r.value| == |data|
    ensures r.Some? ==> forall i :: 0 <= i < |data| ==> FromDict(data[i]) == Some(r.value[i])
    ensures r.None? ==> exists i :: 0 <= i < |data| && FromDict(data[i]).None?
  {
    if data == [] then Some([])
    else
      match (FromDict(data[0]), DecodeAll(data[1..]))
      case (Some(e), Some(rest)) => Some([e] + rest)
      case (None, _) => None
      case (_, None) => None
  }

  /** Decoding the encoded list gives back the same examples in the same
      order. */
  lemma {:induction false} DecodeEncode(examples: seq<ConversationExample>)
    ensures DecodeAll(EncodeAll(examples)) == Some(examples)
  {
    if examples != [] {
      var data := EncodeAll(examples);
      DecodeEncode(examples[1..]);
      assert data[1..] == EncodeAll(examples[1..]);
      FromDictToDict(examples[0]);
      assert FromDict(data[0]) == Some(examples[0]);
      assert [examples[0]] + examples[1..] == examples;
    }
  }

  // ---------------------------------------------------------------------
  // The bounded deque
  // ---------------------------------------------------------------------

  /** What a deque with `maxlen=1000` keeps of the items fed to it in order:
      the last 1000 of them. */
  function Bounded(s: seq<ConversationExample>): (r: seq<ConversationExample>)
    ensures |r| == Min(|s|, Capacity)
    ensures r == s[|s| - |r|..]
  {
    if |s| <= Capacity then s else s[|s| - Capacity..]
  }

  /** Appending to a full store drops exactly the oldest example and keeps
      the rest in order; appending to a store with room keeps everything. */
  lemma BoundedAppend(s: seq<ConversationExample>, e: ConversationExample)
    requires |s| <= Capacity
    ensures |s| == Capacity ==> Bounded(s + [e]) == s[1..] + [e]
    ensures |s| < Capacity ==> Bounded(s + [e]) == s + [e]
    ensures Bounded(s + [e])[|Bounded(s + [e])| - 1] == e
  {
  }

  /** The store after appending `es` one by one, as `deque.append` does. */
  function AppendEach(s: seq<ConversationExample>, es: seq<ConversationExample>): seq<ConversationExample>
    decreases |es|
  {
    if es == [] then s else AppendEach(Bounded(s + [es[0]]), es[1..])
  }

  /** Appending any number of examples one at a time to a store leaves the
      most recent 1000 of the old contents followed by the new examples, in
      their original relative order. */
  lemma {:induction false} AppendEachKeepsLast(s: seq<ConversationExample>, es: seq<ConversationExample>)
    requires |s| <= Capacity
    ensures AppendEach(s, es) == Bounded(s + es)
    decreases |es|
  {
    if es == [] {
      assert s + es == s;
    } else {
      var s1 := s + [es[0]];
      var s' := Bounded(s1);
      assert AppendEach(s, es) == Bounded(s' + es[1..]) by {
        AppendEachKeepsLast(s', es[1..]);
      }
      assert Bounded(s' + es[1..]) == Bounded(s + es) by {
        BoundedSuffix(s1, es[1..]);
        assert s1 + es[1..] == s + es;
      }
    }
  }

  /** Appending N >= 1000 examples to an empty store leaves exactly the
      last 1000 appended, in order. */
  lemma {:induction false} AppendManyToEmpty(es: seq<ConversationExample>)
    requires |es| >= Capacity
    ensures AppendEach([], es) == es[|es| - Capacity..]
  {
    var empty: seq<ConversationExample> := [];
    AppendEachKeepsLast(empty, es);
    assert empty + es == es;
    assert Bounded(es) == es[|es| - Capacity..];
  }

  /** Keeping the last 1000 of a prefix and then adding more is the same as
      keeping the last 1000 of everything. */
  lemma BoundedSuffix(s: seq<ConversationExample>, t: seq<ConversationExample>)
    ensures Bounded(Bounded(s) + t) == Bounded(s + t)
  {
    if |s| > Capacity {
      var bs := Bounded(s);
      assert bs + t == (s + t)[|s| - Capacity..];
      assert Bounded(bs + t) == (bs + t)[|bs + t| - Capacity..];
      assert Bounded(s + t) == (s + t)[|s + t| - Capacity..];
    }
  }

  /** A `deque(maxlen=1000)`: the examples in order, oldest first. */
  class Store {
    var items: seq<ConversationExample>

    ghost predicate Valid()
      reads this
    {
      |items| <= Capacity
    }

    /** `deque(initial, maxlen=1000)`. */
    constructor (initial: seq<ConversationExample>)
      ensures Valid()
      ensures items == Bounded(initial)
    {
      items := Bounded(initial);
    }

    /** `deque.append`: the example goes to the tail; a full deque first
        drops its head. */
    method Append(e: ConversationExample)
      requires Valid()
      modifies this
      ensures Valid()
      ensures items == Bounded(old(items) + [e])
      ensures items[|items| - 1] == e
    {
      if |items| == Capacity {
        items := items[1..] + [e];
      } else {
        items := items + [e];
      }
      BoundedAppend(old(items), e);
    }
  }

  // ---------------------------------------------------------------------
  // The key-value service
  // ---------------------------------------------------------------------

  /** What `get` returns under a key: an empty string (falsy in Python), a
      text that does not decode to a list of dictionaries, or such a list. */
  datatype StoredValue = Blank | Malformed | Snapshot(items: seq<ExampleDict>)

  /** The key-value service: its entries, and whether requests to it
      succeed. */
  class KeyValueStore {
    var entries: map<string, StoredValue>
    var available: bool

    constructor (entries: map<string, StoredValue>, available: bool)
      ensures this.entries == entries && this.available == available
    {
      this.entries := entries;
      this.available := available;
    }
  }

  /** What a load reads from the service: the decoded snapshot, or `None`
      when the store must stay as it is (service unreachable, key absent,
      empty value, undecodable payload). */
  function LoadedExamples(available: bool, entries: map<string, StoredValue>): (r: Option<seq<ConversationExample>>)
    ensures r.Some? ==> available && ConversationsKey in entries && entries[ConversationsKey].Snapshot?
    ensures r.Some? ==> Some(r.value) == DecodeAll(entries[ConversationsKey].items)
  {
    if !available || ConversationsKey !in entries then None
    else match entries[ConversationsKey]
      case Snapshot(data) => DecodeAll(data)
      case _ => None
  }

  /** Save then load from the same entries reproduces the store exactly,
      in order. */
  lemma {:induction false} LoadAfterSave(entries: map<string, StoredValue>, examples: seq<ConversationExample>)
    requires |examples| <= Capacity
    ensures LoadedExamples(true, entries[ConversationsKey := Snapshot(EncodeAll(examples))]) == Some(examples)
    ensures Bounded(examples) == examples
  {
    DecodeEncode(examples);
  }

  /** The module-level state of `shoggoth_utils`: the name
      `conversation_examples`, which a successful load rebinds to a new
      deque. Modules that imported the name earlier keep the old deque. */
  class UtilsModule {
    var conversationExamples: Store

    constructor ()
      ensures fresh(conversationExamples)
      ensures conversationExamples.items == [] && conversationExamples.Valid()
    {
      conversationExamples := new Store([]);
    }

    /** `load_redis_conversation_examples`: a present, non-empty, decodable
        snapshot rebinds the store to a fresh deque of its last 1000
        examples in order; anything else leaves the binding and the store as
        they were. */
    method LoadConversationExamples(client: KeyValueStore)
      requires conversationExamples.Valid()
      modifies this
      ensures conversationExamples.Valid()
      ensures match LoadedExamples(client.available, client.entries)
        case Some(loaded) =>
          fresh(conversationExamples) && conversationExamples.items == Bounded(loaded)
        case None =>
          conversationExamples == old(conversationExamples)
    {
      var loaded := LoadedExamples(client.available, client.entries);
      if loaded.Some? {
        conversationExamples := new Store(loaded.value);
      }
    }

    /** `save_redis_conversation_examples`: writes every stored example, in
        store order, under the conversations key; a failing service is
        reported and ignored. */
    method SaveConversationExamples(client: KeyValueStore)
      modifies client`entries
      ensures client.available ==>
        client.entries == old(client.entries)[ConversationsKey := Snapshot(EncodeAll(conversationExamples.items))]
      ensures !client.available ==> client.entries == old(client.entries)
    {
      if client.available {
        client.entries := client.entries[ConversationsKey := Snapshot(EncodeAll(conversationExamples.items))];
      }
    }

    /** `add_conversation_example`: the new example becomes the last one of
        the current store, and the call reports success. */
    method AddConversationExample(messages: seq<Message>, response: string) returns (ok: bool)
      requires conversationExamples.Valid()
      modifies conversationExamples
      ensures conversationExamples.Valid()
      ensures conversationExamples.items == Bounded(old(conversationExamples.items) + [ConversationExample(messages, response)])
      ensures conversationExamples.items[|conversationExamples.items| - 1] == ConversationExample(messages, response)
      ensures ok
    {
      conversationExamples.Append(ConversationExample(messages, response));
      ok := true;
    }
  }

  // ---------------------------------------------------------------------
  // Diagnostic views
  // ---------------------------------------------------------------------

  /** The integer part of `get_conversation_stats`: `totalMessages` is
      `None` where the dictionary has no `total_messages` key. */
  datatype Stats = Stats(count: nat, totalMessages: Option<nat>)

  /** `sum(len(ex.messages) for ex in examples)`. */
  function TotalMessages(examples: seq<ConversationExample>): nat
  {
    if examples == [] then 0 else |examples[0].messages| + TotalMessages(examples[1..])
  }

  /** Appending an example adds its message count to the total. */
  lemma {:induction false} TotalMessagesAppend(examples: seq<ConversationExample>, e: ConversationExample)
    ensures TotalMessages(examples + [e]) == TotalMessages(examples) + |e.messages|
  {
    if examples != [] {
      assert (examples + [e])[1..] == examples[1..] + [e];
      TotalMessagesAppend(examples[1..], e);
    }
  }

  /** `get_conversation_stats` without the rounded average: an empty store
      reports count 0 and no total; otherwise the count is the store size
      and the total the number of stored messages. */
  function ConversationStats(examples: seq<ConversationExample>): (r: Stats)
    ensures r.count == |examples|
    ensures r.totalMessages.None? <==> examples == []
    ensures r.totalMessages.Some? ==> r.totalMessages.value == TotalMessages(examples)
  {
    if examples == [] then Stats(0, None)
    else Stats(|examples|, Some(TotalMessages(examples)))
  }

  /** One entry of `get_recent_conversations`. */
  datatype Summary = Summary(messageCount: nat, lastMessage: Option<Message>, responsePreview: string)

  /** `response[:100] + "..."` when the response is longer than 100
      characters, the response itself otherwise. */
  function Preview(response: string): (p: string)
    ensures |response| <= PreviewLength ==> p == response
    ensures |response| > PreviewLength ==> |p| == PreviewLength + 3 && p[..PreviewLength] == response[..PreviewLength] && p[PreviewLength..] == "..."
  {
    if |response| > PreviewLength then response[..PreviewLength] + "..." else response
  }

  function Summarize(e: ConversationExample): Summary
  {
    Summary(|e.messages|, if e.messages != [] then Some(e.messages[|e.messages| - 1]) else None, Preview(e.response))
  }

  /** `get_recent_conversations(limit)`: summaries of `examples[-limit:]`.
      For `limit >= 1` these are the last `limit` examples (all of them when
      fewer are stored), oldest first; `limit == 0` gives every example,
      since `-0` is `0` in a Python slice. */
  function RecentConversations(examples: seq<ConversationExample>, limit: int): (r: seq<Summary>)
    ensures limit >= 0 ==> |r| == (if limit == 0 then |examples| else Min(limit, |examples|))
    ensures limit >= 1 ==> forall i :: 0 <= i < |r| ==> r[i] == Summarize(examples[|examples| - |r| + i])
    ensures limit == 0 ==> forall i :: 0 <= i < |r| ==> r[i] == Summarize(examples[i])
    ensures forall i :: 0 <= i < |r| ==> (r[i].lastMessage.None? <==> r[i].messageCount == 0)
  {
    var recent := PySliceFrom(examples, -limit);
    seq(|recent|, i requires 0 <= i < |recent| => Summarize(recent[i]))
  }

  // ---------------------------------------------------------------------
  // History extraction, "last user message" mode
  // ---------------------------------------------------------------------

  /** Position of the last `user` message, if there is one. */
  function LastUserIndex(messages: seq<Message>): (r: Option<nat>)
    ensures r.Some? ==> r.value < |messages| && messages[r.value].role == "user"
    ensures r.Some? ==> forall j :: r.value < j < |messages| ==> messages[j].role != "user"
    ensures r.None? ==> forall j :: 0 <= j < |messages| ==> messages[j].role != "user"
  {
    if messages == [] then None
    else if messages[|messages| - 1].role == "user" then Some(|messages| - 1)
    else LastUserIndex(messages[..|messages| - 1])
  }

  /** `extract_current_message_and_history_from_messages`: the current
      message is the content of the last `user` message and the history is
      everything strictly before it; with no user message (in particular
      with no message at all) the current message is empty and the history
      is the whole list. */
  method ExtractCurrentMessageAndHistoryFromMessages(messages: seq<Message>) returns (current: string, history: seq<Message>)
    ensures match LastUserIndex(messages)
      case Some(i) => current == messages[i].content && history == messages[..i]
      case None => current == "" && history == messages
    ensures messages == [] ==> current == "" && history == []
  {
    if messages == [] {
      return "", [];
    }
    var currentMessage: Option<string> := None;
    history := [];
    var i := |messages| - 1;
    while i >= 0
      invariant -1 <= i < |messages|
      invariant currentMessage.None?
      invariant forall j :: i < j < |messages| ==> messages[j].role != "user"
    {
      if messages[i].role == "user" {
        currentMessage := Some(messages[i].content);
        history := messages[..i];
        LastUserIndexAt(messages, i);
        break;
      }
      i := i - 1;
    }
    if currentMessage.None? {
      currentMessage := Some("");
      history := messages;
    }
    current := currentMessage.value;
  }

  /** A `user` message with no `user` message after it is the one
      LastUserIndex finds. */
  lemma {:induction false} LastUserIndexAt(messages: seq<Message>, i: nat)
    requires i < |messages| && messages[i].role == "user"
    requires forall j :: i < j < |messages| ==> messages[j].role != "user"
    ensures LastUserIndex(messages) == Some(i)
  {
    if i < |messages| - 1 {
      LastUserIndexAt(messages[..|messages| - 1], i);
    }
  }
}
