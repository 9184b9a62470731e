/** `download_dataset.py`: the table of known datasets, the converters
    that turn each dataset's rows into lists of `{role, content}` messages,
    and the download step that picks a split, applies the limit, converts,
    drops empty conversations and names the output file.

    `load_dataset` is a parameter; the JSON file write is reduced to
    whether it succeeds. */
module Datasets {
  import opened Common

  /** A converted conversation: message dictionaries. */
  type Conversation = seq<RawMessage>

  /** The `parent_id` column of an oasst1 row: absent, `None` (a root
      message), or the id of the parent. */
  datatype ParentField = NoParentKey | RootParent | ChildOf(id: string)

  /** A dataset row, with the columns the converters look at (`None` when
      the row has no such key). */
  datatype Item = Item(
    conversation: Option<Conversation>,
    messages: Option<Conversation>,
    parentId: ParentField,
    role: Option<string>,
    text: Option<string>,
    previousUtterance: Option<seq<string>>,
    freeMessages: Option<seq<string>>,
    dialogue: Option<string>)

  /** `{"role": role, "content": content}`. */
  function Msg(role: string, content: string): RawMessage
  {
    map["role" := role, "content" := content]
  }

  // ---------------------------------------------------------------------
  // The known datasets
  // ---------------------------------------------------------------------

  /** A dataset's hub name and its configuration, when it needs one. */
  datatype DatasetInfo = DatasetInfo(name: string, config: Option<string>)

  const AvailableDatasets: map<string, DatasetInfo> := map[
    "lmsys-chat" := DatasetInfo("lmsys/lmsys-chat-1m", None),
    "chatbot-arena" := DatasetInfo("lmsys/chatbot_arena_conversations", None),
    "oasst1" := DatasetInfo("OpenAssistant/oasst1", None),
    "blended-skill" := DatasetInfo("blended_skill_talk", None),
    "dialogsum" := DatasetInfo("knkarthick/dialogsum", None),
    "nemotron-mind" := DatasetInfo("nvidia/Nemotron-MIND", None),
    "llama-nemotron" := DatasetInfo("nvidia/Llama-Nemotron-Post-Training-Dataset", Some("SFT"))
  ]

  // ---------------------------------------------------------------------
  // Collecting one result per input, the loop shape of most converters
  // ---------------------------------------------------------------------

  /** The values `f` gives for the elements of `xs`, in order, skipping
      the elements it gives `None` for. */
  function Collect<T, U>(xs: seq<T>, f: T -> Option<U>): seq<U>
  {
    if xs == [] then []
    else
      var last := f(xs[|xs| - 1]);
      Collect(xs[..|xs| - 1], f) + (if last.Some? then [last.value] else [])
  }

  /** The `for item in data: if ...: conversations.append(...)` loop. */
  method CollectEach<T, U>(xs: seq<T>, f: T -> Option<U>) returns (collected: seq<U>)
    ensures collected == Collect(xs, f)
  {
    collected := [];
    var i := 0;
    while i < |xs|
      invariant 0 <= i <= |xs|
      invariant collected == Collect(xs[..i], f)
    {
      var result := f(xs[i]);
      if result.Some? {
        collected := collected + [result.value];
      }
      assert xs[..i + 1][..i] == xs[..i];
      i := i + 1;
    }
    assert xs[..i] == xs;
  }

  /** Collecting works element by element: order is kept, and there is
      at most one output per input. */
  lemma {:induction false} CollectAppend<T, U>(a: seq<T>, b: seq<T>, f: T -> Option<U>)
    ensures Collect(a + b, f) == Collect(a, f) + Collect(b, f)
    decreases |b|
  {
    if b == [] {
      assert a + b == a;
    } else {
      CollectAppend(a, b[..|b| - 1], f);
      assert (a + b)[..|a + b| - 1] == a + b[..|b| - 1];
    }
  }

  lemma {:induction false} CollectLength<T, U>(xs: seq<T>, f: T -> Option<U>)
    ensures |Collect(xs, f)| <= |xs|
    ensures (forall i :: 0 <= i < |xs| ==> f(xs[i]).Some?) ==> |Collect(xs, f)| == |xs|
    ensures (forall i :: 0 <= i < |xs| ==> f(xs[i]).None?) ==> Collect(xs, f) == []
  {
    if xs != [] {
      var init := xs[..|xs| - 1];
      CollectLength(init, f);
      assert forall i :: 0 <= i < |init| ==> init[i] == xs[i];
    }
  }

  /** Every output comes from some input... */
  lemma {:induction false} CollectSound<T, U>(xs: seq<T>, f: T -> Option<U>, k: nat)
    requires k < |Collect(xs, f)|
    ensures exists i :: 0 <= i < |xs| && f(xs[i]) == Some(Collect(xs, f)[k])
  {
    var init := xs[..|xs| - 1];
    if k < |Collect(init, f)| {
      CollectSound(init, f, k);
      var i :| 0 <= i < |init| && f(init[i]) == Some(Collect(init, f)[k]);
      assert init[i] == xs[i];
    } else {
      assert f(xs[|xs| - 1]) == Some(Collect(xs, f)[k]);
    }
  }

  /** ...and every input `f` accepts gives an output. */
  lemma {:induction false} CollectComplete<T, U>(xs: seq<T>, f: T -> Option<U>, i: nat)
    requires i < |xs| && f(xs[i]).Some?
    ensures f(xs[i]).value in Collect(xs, f)
  {
    var init := xs[..|xs| - 1];
    if i < |xs| - 1 {
      assert init[i] == xs[i];
      CollectComplete(init, f, i);
    }
  }

  /** Two row functions that accept the same rows collect side by side:
      the `k`-th outputs of both come from the same row. */
  lemma {:induction false} CollectAligned<T, U, V>(xs: seq<T>, f: T -> Option<U>, g: T -> Option<V>)
    requires forall i :: 0 <= i < |xs| ==> (f(xs[i]).Some? <==> g(xs[i]).Some?)
    ensures |Collect(xs, f)| == |Collect(xs, g)|
    ensures forall k :: 0 <= k < |Collect(xs, f)| ==>
      exists i :: 0 <= i < |xs| && f(xs[i]) == Some(Collect(xs, f)[k]) && g(xs[i]) == Some(Collect(xs, g)[k])
  {
    if xs != [] {
      var init := xs[..|xs| - 1];
      assert forall i :: 0 <= i < |init| ==> init[i] == xs[i];
      CollectAligned(init, f, g);
      forall k | 0 <= k < |Collect(xs, f)|
        ensures exists i :: 0 <= i < |xs| && f(xs[i]) == Some(Collect(xs, f)[k]) && g(xs[i]) == Some(Collect(xs, g)[k])
      {
        if k < |Collect(init, f)| {
          var i :| 0 <= i < |init| && f(init[i]) == Some(Collect(init, f)[k]) && g(init[i]) == Some(Collect(init, g)[k]);
          assert init[i] == xs[i];
        } else {
          assert f(xs[|xs| - 1]) == Some(Collect(xs, f)[k]);
        }
      }
    }
  }

  // ---------------------------------------------------------------------
  // lmsys-chat and chatbot-arena; llama-nemotron; the fallback
  // ---------------------------------------------------------------------

  /** An arena row gives its `conversation`, else its `messages`, else
      nothing. */
  function ArenaConversation(item: Item): (r: Option<Conversation>)
    ensures r.None? <==> item.conversation.None? && item.messages.None?
    ensures item.conversation.Some? ==> r == item.conversation
    ensures item.conversation.None? ==> r == item.messages
  {
    if item.conversation.Some? then item.conversation else item.messages
  }

  /** A llama-nemotron row gives its `messages`, whatever else it holds,
      and a row without them gives nothing. */
  function NemotronConversation(item: Item): (r: Option<Conversation>)
    ensures r.None? <==> item.messages.None?
    ensures r.Some? ==> r.value == item.messages.value
  {
    item.messages
  }

  /** Any other dataset: a row with `text` gives a one-message user
      conversation. */
  function FallbackConversation(item: Item): (r: Option<Conversation>)
    ensures r.Some? <==> item.text.Some?
    ensures r.Some? ==> r.value == [Msg("user", item.text.value)]
  {
    if item.text.Some? then Some([Msg("user", item.text.value)]) else None
  }

  // ---------------------------------------------------------------------
  // blended-skill
  // ---------------------------------------------------------------------

  /** `utterances` as messages whose roles alternate, starting with
      `first`. */
  function Alternating(utterances: seq<string>, first: string, second: string): seq<RawMessage>
  {
    seq(|utterances|, i requires 0 <= i < |utterances| => Msg(if i % 2 == 0 then first else second, utterances[i]))
  }

  /** The two `enumerate` loops of the blended-skill branch. */
  method BlendedMessages(previousUtterance: seq<string>, freeMessages: seq<string>) returns (conv: Conversation)
    ensures conv == Alternating(previousUtterance, "user", "assistant") + Alternating(freeMessages, "assistant", "user")
  {
    conv := [];
    var i := 0;
    while i < |previousUtterance|
      invariant 0 <= i <= |previousUtterance|
      invariant conv == Alternating(previousUtterance[..i], "user", "assistant")
    {
      var role := if i % 2 == 0 then "user" else "assistant";
      conv := conv + [Msg(role, previousUtterance[i])];
      i := i + 1;
    }
    assert previousUtterance[..i] == previousUtterance;
    var prefix := conv;
    var j := 0;
    while j < |freeMessages|
      invariant 0 <= j <= |freeMessages|
      invariant conv == prefix + Alternating(freeMessages[..j], "assistant", "user")
    {
      var role := if j % 2 == 0 then "assistant" else "user";
      conv := conv + [Msg(role, freeMessages[j])];
      j := j + 1;
    }
    assert freeMessages[..j] == freeMessages;
  }

  /** A blended-skill row with both lists gives them as one conversation;
      a row missing either key gives nothing. */
  function BlendedConversation(item: Item): Option<Conversation>
  {
    if item.previousUtterance.Some? && item.freeMessages.Some? then
      Some(Alternating(item.previousUtterance.value, "user", "assistant") +
           Alternating(item.freeMessages.value, "assistant", "user"))
    else None
  }

  /** The blended conversation holds every utterance, in order: the
      previous utterances alternate user/assistant starting with the user,
      then the free messages alternate assistant/user starting with the
      assistant. */
  lemma BlendedShape(item: Item)
    requires item.previousUtterance.Some? && item.freeMessages.Some?
    ensures var prev, free := item.previousUtterance.value, item.freeMessages.value;
      var conv := BlendedConversation(item).value;
      && |conv| == |prev| + |free|
      && (forall i :: 0 <= i < |prev| ==>
            conv[i] == Msg(if i % 2 == 0 then "user" else "assistant", prev[i]))
      && (forall j :: 0 <= j < |free| ==>
            conv[|prev| + j] == Msg(if j % 2 == 0 then "assistant" else "user", free[j]))
  {
  }

  /** The blended-skill branch's row loop. */
  method ConvertBlended(items: seq<Item>) returns (conversations: seq<Conversation>)
    ensures conversations == Collect(items, BlendedConversation)
  {
    conversations := [];
    var i := 0;
    while i < |items|
      invariant 0 <= i <= |items|
      invariant conversations == Collect(items[..i], BlendedConversation)
    {
      var item := items[i];
      if item.previousUtterance.Some? && item.freeMessages.Some? {
        var conv := BlendedMessages(item.previousUtterance.value, item.freeMessages.value);
        conversations := conversations + [conv];
      }
      assert items[..i + 1][..i] == items[..i];
      i := i + 1;
    }
    assert items[..i] == items;
  }

  // ---------------------------------------------------------------------
  // dialogsum
  // ---------------------------------------------------------------------

  const Person1Tag: string := "#Person1#:"
  const Person2Tag: string := "#Person2#:"

  /** One dialogue line: a `#Person1#:` line is the user's, a `#Person2#:`
      line the assistant's, each with its tag deleted (every occurrence)
      and the rest stripped; any other line is dropped. */
  function DialogueLine(line: string): (r: Option<RawMessage>)
    ensures r.Some? <==> StartsWith(line, Person1Tag) || StartsWith(line, Person2Tag)
    ensures r.Some? ==> r.value.Keys == {"role", "content"}
    ensures r.Some? ==> (r.value["role"] == "user" <==> StartsWith(line, Person1Tag))
    ensures r.Some? ==> (r.value["role"] == "assistant" <==> !StartsWith(line, Person1Tag))
    ensures r.Some? ==>
      r.value["content"] == Strip(RemoveAll(line, if StartsWith(line, Person1Tag) then Person1Tag else Person2Tag))
  {
    if StartsWith(line, Person1Tag) then Some(Msg("user", Strip(RemoveAll(line, Person1Tag))))
    else if StartsWith(line, Person2Tag) then Some(Msg("assistant", Strip(RemoveAll(line, Person2Tag))))
    else None
  }

  /** The messages of a dialogue: its tagged lines, in order. */
  function DialogueMessages(dialogue: string): Conversation
  {
    Collect(Split(dialogue, '\n'), DialogueLine)
  }

  /** A line that carries a speaker tag. */
  function TaggedLine(line: string): Option<string>
  {
    if StartsWith(line, Person1Tag) || StartsWith(line, Person2Tag) then Some(line) else None
  }

  /** The tagged lines of a dialogue, in order. */
  function TaggedLines(dialogue: string): seq<string>
  {
    Collect(Split(dialogue, '\n'), TaggedLine)
  }

  /** The dialogue's messages follow its tagged lines one for one and in
      order: the `k`-th message is the user's exactly when the `k`-th
      tagged line starts with `#Person1#:`, and its content is that line
      without the tag, stripped. */
  lemma DialogueRolesFollowTags(dialogue: string)
    ensures |DialogueMessages(dialogue)| == |TaggedLines(dialogue)|
    ensures forall k :: 0 <= k < |DialogueMessages(dialogue)| ==>
      var m := DialogueMessages(dialogue)[k];
      var line := TaggedLines(dialogue)[k];
      && "role" in m && "content" in m
      && (m["role"] == "user" <==> StartsWith(line, Person1Tag))
      && (m["role"] == "assistant" <==> !StartsWith(line, Person1Tag))
      && m["content"] == Strip(RemoveAll(line, if StartsWith(line, Person1Tag) then Person1Tag else Person2Tag))
  {
    var lines := Split(dialogue, '\n');
    CollectAligned(lines, DialogueLine, TaggedLine);
    forall k | 0 <= k < |DialogueMessages(dialogue)|
      ensures var m := DialogueMessages(dialogue)[k];
        var line := TaggedLines(dialogue)[k];
        && "role" in m && "content" in m
        && (m["role"] == "user" <==> StartsWith(line, Person1Tag))
        && (m["role"] == "assistant" <==> !StartsWith(line, Person1Tag))
        && m["content"] == Strip(RemoveAll(line, if StartsWith(line, Person1Tag) then Person1Tag else Person2Tag))
    {
      var i :| 0 <= i < |lines| && DialogueLine(lines[i]) == Some(DialogueMessages(dialogue)[k])
        && TaggedLine(lines[i]) == Some(TaggedLines(dialogue)[k]);
    }
  }

  /** Every dialogue message is the user's or the assistant's, with
      stripped content, and there are no more of them than lines. */
  lemma {:induction false} DialogueMessagesShape(dialogue: string)
    ensures |DialogueMessages(dialogue)| <= |Split(dialogue, '\n')|
    ensures forall k :: 0 <= k < |DialogueMessages(dialogue)| ==>
      var m := DialogueMessages(dialogue)[k];
      && m.Keys == {"role", "content"}
      && (m["role"] == "user" || m["role"] == "assistant")
      && Strip(m["content"]) == m["content"]
  {
    var lines := Split(dialogue, '\n');
    CollectLength(lines, DialogueLine);
    forall k | 0 <= k < |DialogueMessages(dialogue)|
      ensures var m := DialogueMessages(dialogue)[k];
        && m.Keys == {"role", "content"}
        && (m["role"] == "user" || m["role"] == "assistant")
        && Strip(m["content"]) == m["content"]
    {
      CollectSound(lines, DialogueLine, k);
      var i :| 0 <= i < |lines| && DialogueLine(lines[i]) == Some(DialogueMessages(dialogue)[k]);
      if StartsWith(lines[i], Person1Tag) {
        StripIdempotent(RemoveAll(lines[i], Person1Tag));
      } else {
        StripIdempotent(RemoveAll(lines[i], Person2Tag));
      }
    }
  }

  /** A dialogsum row with a `dialogue` always gives a conversation, even
      an empty one. */
  function DialogueConversation(item: Item): (r: Option<Conversation>)
    ensures r.Some? <==> item.dialogue.Some?
  {
    if item.dialogue.Some? then Some(DialogueMessages(item.dialogue.value)) else None
  }

  /** The line loop of the dialogsum branch. */
  method ParseDialogue(dialogue: string) returns (conv: Conversation)
    ensures conv == DialogueMessages(dialogue)
  {
    var lines := Split(dialogue, '\n');
    conv := CollectEach(lines, DialogueLine);
  }

  /** The dialogsum branch's row loop. */
  method ConvertDialogsum(items: seq<Item>) returns (conversations: seq<Conversation>)
    ensures conversations == Collect(items, DialogueConversation)
  {
    conversations := [];
    var i := 0;
    while i < |items|
      invariant 0 <= i <= |items|
      invariant conversations == Collect(items[..i], DialogueConversation)
    {
      var item := items[i];
      if item.dialogue.Some? {
        var conv := ParseDialogue(item.dialogue.value);
        conversations := conversations + [conv];
      }
      assert items[..i + 1][..i] == items[..i];
      i := i + 1;
    }
    assert items[..i] == items;
  }

  // ---------------------------------------------------------------------
  // oasst1
  // ---------------------------------------------------------------------

  /** The loop state of the oasst1 branch: the finished conversations and
      the one being built. */
  datatype OasstState = OasstState(conversations: seq<Conversation>, current: Conversation)

  predicate IsRoot(item: Item)
  {
    item.parentId.RootParent?
  }

  /** A row the oasst1 branch can read: it has `parent_id`, `role` and
      `text`. */
  predicate OasstReadable(item: Item)
  {
    !item.parentId.NoParentKey? && item.role.Some? && item.text.Some?
  }

  /** One row of the oasst1 loop: a missing key raises (named after the
      first key looked up and missing); a root row closes the current
      conversation, if it has messages, and starts a new one; any other row
      extends the current conversation. */
  function OasstStep(st: OasstState, item: Item): (r: Result<OasstState, string>)
    ensures r.Ok? <==> OasstReadable(item)
  {
    if item.parentId.NoParentKey? then Err("parent_id")
    else if item.role.None? then Err("role")
    else if item.text.None? then Err("text")
    else
      var msg := Msg(item.role.value, item.text.value);
      if IsRoot(item) then
        Ok(OasstState(if st.current != [] then st.conversations + [st.current] else st.conversations, [msg]))
      else
        Ok(OasstState(st.conversations, st.current + [msg]))
  }

  /** The loop state after `items`, or the first error. */
  function OasstRun(items: seq<Item>): Result<OasstState, string>
  {
    if items == [] then Ok(OasstState([], []))
    else
      match OasstRun(items[..|items| - 1])
      case Err(e) => Err(e)
      case Ok(st) => OasstStep(st, items[|items| - 1])
  }

  /** The oasst1 conversion: the run, then the last conversation if it has
      messages. */
  function OasstConversations(items: seq<Item>): Result<seq<Conversation>, string>
  {
    match OasstRun(items)
    case Err(e) => Err(e)
    case Ok(st) => Ok(if st.current != [] then st.conversations + [st.current] else st.conversations)
  }

  /** The oasst1 branch's loop. */
  method ConvertOasst(items: seq<Item>) returns (r: Result<seq<Conversation>, string>)
    ensures r == OasstConversations(items)
  {
    var conversations: seq<Conversation> := [];
    var currentConv: Conversation := [];
    var i := 0;
    while i < |items|
      invariant 0 <= i <= |items|
      invariant OasstRun(items[..i]) == Ok(OasstState(conversations, currentConv))
    {
      var item := items[i];
      assert items[..i + 1][..i] == items[..i];
      if item.parentId.NoParentKey? {
        OasstRunKeepsError(items, i + 1);
        return Err("parent_id");
      }
      if item.role.None? {
        OasstRunKeepsError(items, i + 1);
        return Err("role");
      }
      if item.text.None? {
        OasstRunKeepsError(items, i + 1);
        return Err("text");
      }
      if item.parentId.RootParent? {
        if currentConv != [] {
          conversations := conversations + [currentConv];
        }
        currentConv := [Msg(item.role.value, item.text.value)];
      } else {
        currentConv := currentConv + [Msg(item.role.value, item.text.value)];
      }
      i := i + 1;
    }
    assert items[..i] == items;
    if currentConv != [] {
      conversations := conversations + [currentConv];
    }
    r := Ok(conversations);
  }

  /** An error stops the run: once a prefix fails, the whole run fails
      with the same error. */
  lemma {:induction false} OasstRunKeepsError(items: seq<Item>, k: nat)
    requires k <= |items| && OasstRun(items[..k]).Err?
    ensures OasstRun(items) == OasstRun(items[..k])
  {
    if k == |items| {
      assert items[..k] == items;
    } else {
      var init := items[..|items| - 1];
      assert init[..k] == items[..k];
      OasstRunKeepsError(init, k);
    }
  }

  /** The conversion fails exactly when some row lacks a key it reads. */
  lemma {:induction false} OasstRunOkIff(items: seq<Item>)
    ensures OasstRun(items).Ok? <==> forall i :: 0 <= i < |items| ==> OasstReadable(items[i])
  {
    if items != [] {
      var init := items[..|items| - 1];
      OasstRunOkIff(init);
      assert forall i :: 0 <= i < |init| ==> init[i] == items[i];
    }
  }

  /** The messages of all conversations, in order. */
  function Flatten(conversations: seq<Conversation>): Conversation
  {
    if conversations == [] then []
    else Flatten(conversations[..|conversations| - 1]) + conversations[|conversations| - 1]
  }

  /** The message each readable row becomes. */
  function OasstMessages(items: seq<Item>): (r: Conversation)
    requires forall i :: 0 <= i < |items| ==> OasstReadable(items[i])
    ensures |r| == |items|
  {
    if items == [] then []
    else
      var last := items[|items| - 1];
      assert OasstReadable(last);
      OasstMessages(items[..|items| - 1]) + [Msg(last.role.value, last.text.value)]
  }

  /** How many rows are roots. */
  function RootCount(items: seq<Item>): nat
  {
    if items == [] then 0
    else RootCount(items[..|items| - 1]) + (if IsRoot(items[|items| - 1]) then 1 else 0)
  }

  /** What the oasst1 loop keeps true: every row became exactly one
      message, in order; finished conversations are never empty; the
      current one is empty only before the first row; and a conversation
      starts at every root row, plus one for rows before the first root. */
  lemma {:induction false} OasstRunInvariant(items: seq<Item>)
    requires forall i :: 0 <= i < |items| ==> OasstReadable(items[i])
    ensures OasstRun(items).Ok?
    ensures var st := OasstRun(items).value;
      && Flatten(st.conversations) + st.current == OasstMessages(items)
      && (forall c :: c in st.conversations ==> c != [])
      && (st.current == [] <==> items == [])
      && |st.conversations| + (if st.current != [] then 1 else 0) ==
           RootCount(items) + (if items != [] && !IsRoot(items[0]) then 1 else 0)
  {
    OasstRunOkIff(items);
    if items != [] {
      var init := items[..|items| - 1];
      assert forall i :: 0 <= i < |init| ==> init[i] == items[i];
      OasstRunInvariant(init);
      var st := OasstRun(init).value;
      var item := items[|items| - 1];
      var msg := Msg(item.role.value, item.text.value);
      assert OasstMessages(items) == OasstMessages(init) + [msg];
      if IsRoot(item) && st.current != [] {
        assert Flatten(st.conversations + [st.current]) == Flatten(st.conversations) + st.current;
      }
      if init != [] {
        assert init[0] == items[0];
      }
    }
  }

  /** Row `i` exists and is a root. */
  predicate RootAt(items: seq<Item>, i: int)
  {
    0 <= i < |items| && IsRoot(items[i])
  }

  /** Where the oasst1 loop splits the rows into the finished
      conversations `C` (the `k`-th of which starts at row
      `|Flatten(C[..k])|`): every one after the first, and the current one
      once some conversation is finished, starts at a root row; and every
      root row after the first row starts one of them. */
  ghost predicate SplitsAtRoots(items: seq<Item>, C: seq<Conversation>)
  {
    && (forall k :: 0 < k < |C| ==> RootAt(items, |Flatten(C[..k])|))
    && (C != [] ==> RootAt(items, |Flatten(C)|))
    && (forall i :: 0 < i < |items| && IsRoot(items[i]) ==>
          exists k :: 0 < k <= |C| && |Flatten(C[..k])| == i)
  }

  /** A reply row leaves the split where it was. */
  lemma SplitsAtRootsReply(items: seq<Item>, C: seq<Conversation>, item: Item)
    requires SplitsAtRoots(items, C) && !IsRoot(item)
    ensures SplitsAtRoots(items + [item], C)
  {
    var items' := items + [item];
    assert forall i :: 0 <= i < |items| ==> items'[i] == items[i];
  }

  /** A root row closes the current conversation `cur`, which starts where
      the finished ones end, and starts the next one at its own row. */
  lemma SplitsAtRootsRoot(items: seq<Item>, C: seq<Conversation>, cur: Conversation, item: Item)
    requires SplitsAtRoots(items, C) && IsRoot(item) && cur != []
    requires |Flatten(C)| + |cur| == |items|
    ensures SplitsAtRoots(items + [item], C + [cur])
  {
    var items' := items + [item];
    var C' := C + [cur];
    assert forall i :: 0 <= i < |items| ==> items'[i] == items[i];
    assert C'[..|C|] == C;
    assert Flatten(C') == Flatten(C) + cur;
    assert forall k :: 0 < k <= |C| ==> C'[..k] == C[..k];
    forall i | 0 < i < |items'| && IsRoot(items'[i])
      ensures exists k :: 0 < k <= |C'| && |Flatten(C'[..k])| == i
    {
      if i == |items| {
        assert C'[..|C'|] == C';
      } else {
        var k :| 0 < k <= |C| && |Flatten(C[..k])| == i;
        assert C'[..k] == C[..k];
      }
    }
  }

  /** The oasst1 loop keeps its finished conversations split at the root
      rows. */
  lemma {:induction false} OasstRunBoundaries(items: seq<Item>)
    requires forall i :: 0 <= i < |items| ==> OasstReadable(items[i])
    ensures OasstRun(items).Ok?
    ensures SplitsAtRoots(items, OasstRun(items).value.conversations)
  {
    OasstRunOkIff(items);
    if items != [] {
      var init := items[..|items| - 1];
      var item := items[|items| - 1];
      assert init + [item] == items;
      assert forall i :: 0 <= i < |init| ==> init[i] == items[i];
      OasstRunBoundaries(init);
      OasstRunInvariant(init);
      var st := OasstRun(init).value;
      if !IsRoot(item) {
        SplitsAtRootsReply(init, st.conversations, item);
      } else if st.current != [] {
        SplitsAtRootsRoot(init, st.conversations, st.current, item);
      } else {
        assert init == [];
      }
    }
  }

  /** The oasst1 conversion loses and invents nothing: its conversations,
      concatenated, are the rows' messages in row order; none is empty;
      and there is one per root row, plus one when the rows begin with a
      reply; a conversation after the first starts exactly at each root row
      after the first row. */
  lemma OasstConversationsSpec(items: seq<Item>)
    requires forall i :: 0 <= i < |items| ==> OasstReadable(items[i])
    ensures OasstConversations(items).Ok?
    ensures var convs := OasstConversations(items).value;
      && Flatten(convs) == OasstMessages(items)
      && (forall c :: c in convs ==> c != [])
      && |convs| == RootCount(items) + (if items != [] && !IsRoot(items[0]) then 1 else 0)
      && (forall k :: 0 < k < |convs| ==> RootAt(items, |Flatten(convs[..k])|))
      && (forall i :: 0 < i < |items| && IsRoot(items[i]) ==>
            exists k :: 0 < k < |convs| && |Flatten(convs[..k])| == i)
  {
    OasstRunInvariant(items);
    OasstRunBoundaries(items);
    var st := OasstRun(items).value;
    var C := st.conversations;
    if st.current != [] {
      var convs := C + [st.current];
      assert convs[..|C|] == C;
      assert Flatten(convs) == Flatten(C) + st.current;
      forall k | 0 < k <= |C|
        ensures convs[..k] == C[..k]
      {
      }
    }
  }

  // ---------------------------------------------------------------------
  // Dispatch
  // ---------------------------------------------------------------------

  /** `convert_to_messages_format`, by dataset key; only the oasst1 branch
      can raise. */
  function Converted(datasetKey: string, items: seq<Item>): Result<seq<Conversation>, string>
  {
    if datasetKey == "lmsys-chat" || datasetKey == "chatbot-arena" then Ok(Collect(items, ArenaConversation))
    else if datasetKey == "oasst1" then OasstConversations(items)
    else if datasetKey == "blended-skill" then Ok(Collect(items, BlendedConversation))
    else if datasetKey == "dialogsum" then Ok(Collect(items, DialogueConversation))
    else if datasetKey == "llama-nemotron" then Ok(Collect(items, NemotronConversation))
    else Ok(Collect(items, FallbackConversation))
  }

  method ConvertToMessagesFormat(datasetKey: string, items: seq<Item>) returns (r: Result<seq<Conversation>, string>)
    ensures r == Converted(datasetKey, items)
    ensures datasetKey != "oasst1" ==> r.Ok?
  {
    if datasetKey == "lmsys-chat" || datasetKey == "chatbot-arena" {
      var conversations := CollectEach(items, ArenaConversation);
      r := Ok(conversations);
    } else if datasetKey == "oasst1" {
      r := ConvertOasst(items);
    } else if datasetKey == "blended-skill" {
      var conversations := ConvertBlended(items);
      r := Ok(conversations);
    } else if datasetKey == "dialogsum" {
      var conversations := ConvertDialogsum(items);
      r := Ok(conversations);
    } else if datasetKey == "llama-nemotron" {
      var conversations := CollectEach(items, NemotronConversation);
      r := Ok(conversations);
    } else {
      var conversations := CollectEach(items, FallbackConversation);
      r := Ok(conversations);
    }
  }

  // ---------------------------------------------------------------------
  // Download
  // ---------------------------------------------------------------------

  /** A split of a loaded dataset. */
  datatype DatasetSplit = DatasetSplit(name: string, rows: seq<Item>)

  /** `load_dataset(name[, config])`: the splits in order, or the message
      of the exception it raised. */
  type DatasetSource = (string, Option<string>) -> Result<seq<DatasetSplit>, string>

  /** The file written and the conversations in it. */
  datatype Saved = Saved(path: string, conversations: seq<Conversation>)

  /** The `train` split if there is one, else the first; `None` (an
      `IndexError`) when there is no split at all. */
  function ChosenSplit(splits: seq<DatasetSplit>): (r: Option<seq<Item>>)
    ensures r.None? <==> splits == []
    ensures (exists i :: 0 <= i < |splits| && splits[i].name == "train") ==>
      exists i :: 0 <= i < |splits| && splits[i].name == "train" && r == Some(splits[i].rows)
    ensures splits != [] && (forall i :: 0 <= i < |splits| ==> splits[i].name != "train") ==> r == Some(splits[0].rows)
  {
    if splits == [] then None
    else
      var train := TrainSplit(splits);
      if train.Some? then train else Some(splits[0].rows)
  }

  /** The rows of the first split named `train`. */
  function TrainSplit(splits: seq<DatasetSplit>): (r: Option<seq<Item>>)
    ensures r.None? <==> forall i :: 0 <= i < |splits| ==> splits[i].name != "train"
    ensures r.Some? ==> exists i :: 0 <= i < |splits| && splits[i].name == "train" && r == Some(splits[i].rows)
  {
    if splits == [] then None
    else if splits[0].name == "train" then Some(splits[0].rows)
    else
      var rest := TrainSplit(splits[1..]);
      assert forall i :: 1 <= i < |splits| ==> splits[i] == splits[1..][i - 1];
      rest
  }

  /** `data.select(range(min(limit, len(data))))` when `limit` is truthy:
      a positive limit keeps that many leading rows, a negative one keeps
      none, and no limit or zero keeps them all. */
  function ApplyLimit(rows: seq<Item>, limit: Option<int>): (r: seq<Item>)
    ensures limit.None? || limit == Some(0) ==> r == rows
    ensures limit.Some? && limit.value > 0 ==> r == rows[..Min(limit.value, |rows|)]
    ensures limit.Some? && limit.value < 0 ==> r == []
  {
    if limit.None? || limit.value == 0 then rows
    else
      var n := Min(limit.value, |rows|);
      if n <= 0 then [] else rows[..n]
  }

  /** The comprehension that drops empty conversations. */
  function NonEmptyConversations(conversations: seq<Conversation>): (r: seq<Conversation>)
    ensures |r| <= |conversations|
    ensures forall k :: 0 <= k < |r| ==> r[k] != [] && r[k] in conversations
  {
    if conversations == [] then []
    else
      var init := NonEmptyConversations(conversations[..|conversations| - 1]);
      var last := conversations[|conversations| - 1];
      assert forall c :: c in conversations[..|conversations| - 1] ==> c in conversations;
      init + (if last != [] then [last] else [])
  }

  /** The filter keeps order and multiplicity: filtering two runs of
      conversations is filtering each and concatenating. */
  lemma {:induction false} NonEmptyAppend(a: seq<Conversation>, b: seq<Conversation>)
    ensures NonEmptyConversations(a + b) == NonEmptyConversations(a) + NonEmptyConversations(b)
    decreases |b|
  {
    if b == [] {
      assert a + b == a;
    } else {
      var init := b[..|b| - 1];
      assert (a + b)[..|a + b| - 1] == a + init;
      assert (a + b)[|a + b| - 1] == b[|b| - 1];
      NonEmptyAppend(a, init);
    }
  }

  /** No non-empty conversation is dropped. */
  lemma {:induction false} NonEmptyConversationsComplete(conversations: seq<Conversation>, i: nat)
    requires i < |conversations| && conversations[i] != []
    ensures conversations[i] in NonEmptyConversations(conversations)
  {
    var init := conversations[..|conversations| - 1];
    if i < |conversations| - 1 {
      assert init[i] == conversations[i];
      NonEmptyConversationsComplete(init, i);
    }
  }

  /** The output file's path. */
  function OutputFile(outputDir: string, datasetKey: string): string
  {
    outputDir + "/" + datasetKey + ".json"
  }

  /** The sample printed after the write reads `role` and `content` of
      the first three messages of the first conversation; a missing key
      raises `KeyError`, which the function's handler catches. */
  predicate SamplePrintable(conversations: seq<Conversation>)
  {
    conversations == [] ||
    forall j :: 0 <= j < |conversations[0]| && j < 3 ==>
      "role" in conversations[0][j] && "content" in conversations[0][j]
  }

  /** What `download_dataset` leaves behind: the file it wrote, if any, and
      what it returns (the file's path, or `None`). */
  datatype Download = Download(written: Option<Saved>, returned: Option<string>)

  /** `download_dataset`: nothing for an unknown key; nothing written and
      `None` returned when the load, the split choice (no split at all),
      the oasst1 conversion or the write (`writable` being whether the
      directory and file can be written) raises; once the file is written,
      its path is returned unless printing the sample raises. */
  function DownloadDataset(datasetKey: string, limit: Option<int>, outputDir: string,
                           source: DatasetSource, writable: bool): (r: Download)
    ensures datasetKey !in AvailableDatasets ==> r == Download(None, None)
    ensures r.returned.Some? ==> r.written.Some? && r.returned.value == r.written.value.path
    ensures r.written.Some? ==> datasetKey in AvailableDatasets && writable
    ensures r.written.Some? ==> r.written.value.path == OutputFile(outputDir, datasetKey)
    ensures r.written.Some? ==> forall k :: 0 <= k < |r.written.value.conversations| ==> r.written.value.conversations[k] != []
    ensures r.written.Some? ==> (r.returned.Some? <==> SamplePrintable(r.written.value.conversations))
  {
    if datasetKey !in AvailableDatasets then Download(None, None)
    else
      var info := AvailableDatasets[datasetKey];
      match source(info.name, info.config)
      case Err(_) => Download(None, None)
      case Ok(splits) =>
        match ChosenSplit(splits)
        case None => Download(None, None)
        case Some(rows) =>
          match Converted(datasetKey, ApplyLimit(rows, limit))
          case Err(_) => Download(None, None)
          case Ok(conversations) =>
            if writable then
              var saved := Saved(OutputFile(outputDir, datasetKey), NonEmptyConversations(conversations));
              Download(Some(saved), if SamplePrintable(saved.conversations) then Some(saved.path) else None)
            else Download(None, None)
  }

  /** An unknown key is rejected before anything is loaded: the result
      does not depend on the dataset source at all. */
  lemma UnknownKeyLoadsNothing(datasetKey: string, limit: Option<int>, outputDir: string,
                               source1: DatasetSource, source2: DatasetSource, writable: bool)
    requires datasetKey !in AvailableDatasets
    ensures DownloadDataset(datasetKey, limit, outputDir, source1, writable) ==
            DownloadDataset(datasetKey, limit, outputDir, source2, writable)
  {
  }

  /** A known key whose load, split choice, conversion and write all
      succeed saves exactly the non-empty converted conversations, and
      returns the file's path unless the sample cannot be printed. */
  lemma DownloadSaves(datasetKey: string, limit: Option<int>, outputDir: string, source: DatasetSource)
    requires datasetKey in AvailableDatasets
    requires var info := AvailableDatasets[datasetKey];
      source(info.name, info.config).Ok? && source(info.name, info.config).value != []
    requires var info := AvailableDatasets[datasetKey];
      Converted(datasetKey, ApplyLimit(ChosenSplit(source(info.name, info.config).value).value, limit)).Ok?
    ensures var info := AvailableDatasets[datasetKey];
      var rows := ChosenSplit(source(info.name, info.config).value).value;
      var kept := NonEmptyConversations(Converted(datasetKey, ApplyLimit(rows, limit)).value);
      var path := OutputFile(outputDir, datasetKey);
      DownloadDataset(datasetKey, limit, outputDir, source, true) ==
        Download(Some(Saved(path, kept)), if SamplePrintable(kept) then Some(path) else None)
  {
  }
}
