# ShoggothAI bookkeeping, modelled in Dafny

ShoggothAI is a streaming chat-completion proxy. It forwards each
OpenAI-style request to an upstream LLM API chosen by the `p` query
parameter. It logs every request, response and error to an audit log.
It stores each exchange as a conversation example in a deque bounded at
1000 entries, persists that deque to Redis, and asks a DSPy chatbot for
its own reply. Helper scripts download public conversation datasets,
convert them to `{role, content}` messages, and replay them through the
proxy. An interactive client keeps a chat history.

This project models the sequential data handling around those pieces:

- `common.dfy` (`Common`): `Option`/`Result`, the message record, and the
  Python string operations the code relies on: `str.isspace`/`strip`,
  ASCII `lower`, `startswith`, `split('\n')`, `replace(tag, '')`, and
  slicing with negative bounds.
- `example_store.dfy` (`ExampleStore`, from `shoggoth_utils.py`): the
  example record and its dictionary form; the bounded deque as a class
  over a `seq`; the Redis service as a class holding a map; the module
  global `conversation_examples` as a class whose field a load rebinds;
  the stats and recent-conversations views; and the "last user message"
  extractor (a backward loop with `break`).
- `chatbot.dfy` (`Chatbot`, from `shoggoth_dspy.py`): the step-2 pairing
  loop and the wrapper that turns a predictor failure into an error
  string. The predictor is a parameter.
- `proxy.dfy` (`Proxy`, from `run.py`): the "last message" extractor, the
  comprehensive log record, the relay loop, and the handler's sequence of
  log writes, store append, chatbot call and Redis save. The `App` class
  holds the audit log, the deque `run.py` imported by name at load time,
  the `shoggoth_utils` module and the Redis client.
- `sse_client.dfy` (`SseClient`): the server-sent-events reader shared by
  `load_conversations.py` and `chat.py`.
- `loader.dfy` (`Loader`, from `load_conversations.py`): role and content
  normalisation, the length filter, the selection window, and the
  success/error counters.
- `datasets.dfy` (`Datasets`, from `download_dataset.py`): every branch of
  `convert_to_messages_format`, split choice, the limit, the
  empty-conversation filter, and the unknown-key check.
- `chat_client.dfy` (`ChatClient`, from `chat.py`): the chat history and
  `send_message`.

Behaviour that the code has and the model follows:

- `finally` runs when the handler returns its `StreamingResponse`, before
  any chunk is read. On the success path the bookkeeping therefore sees an
  empty response and records `"[No response from upstream]"`. The relay's
  accumulator then starts from that sentinel, so `Reply.StreamingReply`
  carries its starting value.
- The relay accumulates the decoded raw SSE bytes, not the delta contents.
- `run.py` imports `conversation_examples` by name. After a successful
  load rebinds the module global, the handler appends to the old deque
  while the save writes the new one. Only while both names denote one
  deque does a saved snapshot reproduce the handler's store
  (`Proxy.App.ProxyChatCompletions`).
- A stored snapshot `[]` is truthy text, so loading it replaces the store
  with an empty deque.
- On the success path `processing_error` is never set. The chatbot wrapper
  and the save catch their own exceptions, and appending to a deque does
  not fail. The `except` branches around them in the handler are
  unreachable, and the model has none.
- `get_recent_conversations(0)` returns every example, because `-0` is
  `0` in a Python slice.
- `replace('#Person1#:', '')` deletes every occurrence of the tag, not
  just the leading one.

## Model

| member | source | states |
|---|---|---|
| `ExampleStore.ToDict` | shoggoth_utils.py:18-23 | the dictionary has exactly the keys `messages` and `response` |
| `ExampleStore.FromDict` | shoggoth_utils.py:25-28 | decoding succeeds exactly when both keys are present with values of the right kind, and then takes the messages and response from them |
| `ExampleStore.FromDictToDict` | shoggoth_utils.py:18-28 | `from_dict(to_dict(e))` gives back `e` |
| `ExampleStore.EncodeAll` | shoggoth_utils.py:80 | one dictionary per example, in store order |
| `ExampleStore.DecodeAll` | shoggoth_utils.py:66-70 | a decoded list has one example per dictionary, in order; decoding fails exactly when some dictionary does not decode |
| `ExampleStore.DecodeEncode` | shoggoth_utils.py:66-70 | decoding the encoded store gives back the same examples in the same order |
| `ExampleStore.Bounded` | shoggoth_utils.py:31 | a deque of capacity 1000 keeps at most 1000 items, and they are the most recent ones |
| `ExampleStore.BoundedAppend` | shoggoth_utils.py:142 | appending to a full store drops exactly the oldest example and keeps the rest in order; with room, nothing is dropped; the new example is last |
| `ExampleStore.AppendEachKeepsLast` | shoggoth_utils.py:31 | appending examples one at a time leaves the last 1000 of old contents plus new examples, in order |
| `ExampleStore.AppendManyToEmpty` | shoggoth_utils.py:31 | after 1000 or more appends to an empty store, exactly the last 1000 appended remain |
| `ExampleStore.BoundedSuffix` | shoggoth_utils.py:67-70 | truncating to 1000 and then appending is the same as appending and then truncating |
| `ExampleStore.Store.constructor` | shoggoth_utils.py:67-70 | `deque(items, maxlen=1000)` keeps the last 1000 items in order |
| `ExampleStore.Store.Append` | shoggoth_utils.py:142 | the example goes to the tail, the oldest is evicted when full, and the bound is kept |
| `ExampleStore.KeyValueStore.constructor` | run.py:283-284 | a client holds the given entries, and whether it is reachable |
| `ExampleStore.LoadedExamples` | shoggoth_utils.py:63-69 | a load yields examples only from a reachable service with a snapshot under the conversations key, and only by decoding that snapshot |
| `ExampleStore.LoadAfterSave` | shoggoth_utils.py:64-83 | saving then loading from the same entries reproduces the store exactly, in order |
| `ExampleStore.UtilsModule.constructor` | shoggoth_utils.py:31 | the module starts with a fresh empty deque |
| `ExampleStore.UtilsModule.LoadConversationExamples` | shoggoth_utils.py:60-75 | a present, non-empty, decodable snapshot rebinds the global to a fresh deque of its last 1000 examples; anything else leaves the binding as it was |
| `ExampleStore.UtilsModule.SaveConversationExamples` | shoggoth_utils.py:77-87 | every example of the current global deque is written, in order, under `examples:shaggothrl:conversations`; an unreachable service changes nothing |
| `ExampleStore.UtilsModule.AddConversationExample` | shoggoth_utils.py:138-146 | the new example becomes the last one, the bound is kept, and the call returns true |
| `ExampleStore.TotalMessagesAppend` | shoggoth_utils.py:96 | appending an example adds its message count to the total |
| `ExampleStore.ConversationStats` | shoggoth_utils.py:91-103 | an empty store gives count 0 and no `total_messages`; otherwise the count is the store size and the total is the sum of message-list lengths |
| `ExampleStore.Preview` | shoggoth_utils.py:112 | a response of at most 100 characters is kept; a longer one becomes its first 100 characters followed by `...` |
| `ExampleStore.RecentConversations` | shoggoth_utils.py:105-115 | for `limit >= 1`, summaries of the last `limit` examples in order; for 0, of all examples; `last_message` is absent exactly for an empty message list |
| `ExampleStore.LastUserIndex` | shoggoth_utils.py:126-130 | the index found holds a `user` message with none after it; with no index, no message is from the user |
| `ExampleStore.ExtractCurrentMessageAndHistoryFromMessages` | shoggoth_utils.py:117-136 | `current` is the content of the last `user` message and `history` is everything before it; with no user message, `("", messages)`; empty input gives `("", [])` |
| `ExampleStore.LastUserIndexAt` | shoggoth_utils.py:126-130 | a `user` message with no `user` message after it is the one the backward scan stops at |
| `Chatbot.FastapiMessagesToDspyHistory` | shoggoth_dspy.py:31-47 | the pairing loop computes the position-pair history |
| `Chatbot.HistoryPairsLength` | shoggoth_dspy.py:36 | there are at most `len(messages) / 2` pairs, so empty and one-message input give none |
| `Chatbot.HistoryPairsAppend` | shoggoth_dspy.py:36-46 | pairing over an even-length prefix composes, so pairs keep input order |
| `Chatbot.HistoryPairsSound` | shoggoth_dspy.py:36-45 | each pair comes from an even position `i` with `user` at `i` and `assistant` at `i+1`, taking the user content as current message and the assistant content as response |
| `Chatbot.HistoryPairsComplete` | shoggoth_dspy.py:36-45 | every such even position contributes its pair |
| `Chatbot.LeadingMessageShiftsPairsOut` | shoggoth_dspy.py:41 | pairs are never re-aligned: a leading non-user message before an alternating conversation yields no pair at all |
| `Chatbot.GenerateChatbotResponse` | shoggoth_dspy.py:50-65 | never fails; returns the predictor's response, or `"Error generating response: "` followed by the failure's message |
| `SseClient.ConsumeStream` | load_conversations.py:64-81 | the line loop computes the stream outcome: only `data: ` lines count, it stops at `[DONE]`, skips non-JSON, and faults on undecodable lines or bad shapes |
| `SseClient.AccumulateStopsAtDone` | load_conversations.py:71-72 | nothing after a `[DONE]` line is read |
| `SseClient.AccumulateConcat` | load_conversations.py:73-79 | the accumulated text is the in-order concatenation of the delta contents |
| `SseClient.StreamPayload` | load_conversations.py:50-58 | both scripts post to `proxy_url?p=upstream_url`, streaming, with the messages, the model, temperature 0.7 and their token limit (500 for the loader, 1000 for the chat client, chat.py:34-43) |
| `Proxy.ExtractCurrentMessageAndHistory` | run.py:89-97 | empty input gives `("", [])`; otherwise the final message's content, whatever its role, and every message before it in order |
| `Proxy.ExtractorsAgreeOnTrailingUser` | run.py:89-97 | when the final message is from the user, both extractors give the same result |
| `Proxy.ExtractorsDisagreeOnTrailingNonUser` | run.py:94-95 | when the final message is not from the user but an earlier one is, the "last message" history is longer than the "last user message" history |
| `Proxy.ResponseForBookkeeping` | run.py:223-225 | the recorded response is never blank; a blank response becomes `"[No response from upstream]"` and any other is kept |
| `Proxy.BuildProcessingResults` | run.py:124-139 | `shaggoth_response` is present only when truthy, `error` only when set, and `stored_examples_count` always |
| `Proxy.ProcessingResultsFor` | run.py:124-139 | the dictionary built from its inputs meets that description |
| `Proxy.DescribesResultsUnique` | run.py:124-139 | the description determines the dictionary |
| `Proxy.ComprehensiveFor` | run.py:107-139 | the record carries the request, the extracted message and history, the upstream text and the described results |
| `Proxy.DecodedTextAppend` | run.py:196-198 | accumulating two stretches of the stream is accumulating each in turn |
| `Proxy.GenerateStream` | run.py:194-199 | every upstream chunk is yielded unchanged and in order, and the accumulator ends as its start plus the decodes of all chunks |
| `Proxy.App.constructor` | run.py:21 | `run.py` binds the deque `shoggoth_utils` holds at import time, with an empty log and no client |
| `Proxy.App.OnStartup` | run.py:278-288 | the client is set even when the ping fails; the snapshot is loaded only after a successful ping |
| `Proxy.App.LogComprehensiveData` | run.py:107-141 | appends exactly one comprehensive record, counting the deque `run.py` holds |
| `Proxy.App.LogUpstreamFailure` | run.py:203-218 | an upstream exception writes an error record, then a comprehensive record with the error and no chatbot reply |
| `Proxy.App.FinishRequest` | run.py:222-273 | the `finally` block writes the response record, appends the example, asks the chatbot, saves only when a client exists, and writes the final comprehensive record |
| `Proxy.App.HandleChatRequest` | run.py:159-273 | on success, three records and the stream handed over with the sentinel as accumulator start; on failure, five records and HTTP 500; the example is appended either way |
| `Proxy.App.ProxyChatCompletions` | run.py:146-273 | an empty `p` is HTTP 400 before anything is logged; the request record comes before any upstream call; the example is stored and the snapshot saved; a save persists the handler's example only while both modules share one deque |
| `Loader.CanonicalRole` | load_conversations.py:33-37 | a normalised role is lower case |
| `Loader.CanonicalRoleMapping` | load_conversations.py:33-37 | a role becomes `user` exactly when, lowered, it is `user`, `prompter`, `human` or `person1`; `assistant` exactly when it is `assistant`, `ai` or `person2`; any other role becomes itself, lowered |
| `Loader.CanonicalRoleStable` | load_conversations.py:33-37 | normalising ignores case and is idempotent |
| `Loader.MessageContent` | load_conversations.py:39 | content is the first non-empty of `content`, `text` and `message`, and empty only when all three are |
| `Loader.FormatMessages` | load_conversations.py:30-44 | the formatting loop computes the formatted list |
| `Loader.FormattedMessagesAppend` | load_conversations.py:31-44 | formatting works message by message, so input order is kept |
| `Loader.FormattedMessagesClean` | load_conversations.py:40-44 | every kept message has stripped, non-blank content and a lower-case role |
| `Loader.FormattedDropsBlank` | load_conversations.py:39-44 | a message is dropped exactly when its content is blank |
| `Loader.FormattedMessagesKeeps` | load_conversations.py:40-44 | a message with non-blank content makes the posted list non-empty |
| `Loader.FormattedMessagesAllBlank` | load_conversations.py:40-48 | when every content is blank nothing is posted |
| `Loader.FormattedMessagesEmpty` | load_conversations.py:40-48 | nothing is posted exactly when every content is blank |
| `Loader.Conversations` | load_conversations.py:117-120 | there are never more kept conversations than items; `ConversationsAppend` shows they stay in file order |
| `Loader.ConversationsAppend` | load_conversations.py:117-120 | filtering keeps file order: the kept conversations of `a + b` are those of `a` followed by those of `b` |
| `Loader.FilterConversations` | load_conversations.py:117-120 | the filtering loop computes the kept conversations |
| `Loader.ConversationsSound` | load_conversations.py:119 | every kept conversation has 1 to 20 messages |
| `Loader.ConversationsComplete` | load_conversations.py:118-120 | every list of 1 to 20 messages is kept |
| `Loader.ConversationLoader.constructor` | load_conversations.py:17-24 | the counters start at zero |
| `Loader.ConversationLoader.SendConversation` | load_conversations.py:26-100 | an empty conversation returns false with counters unchanged; success bumps `sent` and `success`; any exception bumps only `error`; `sent == success` is kept |
| `Loader.ConversationLoader.SuccessesAndFailures` | load_conversations.py:83-100 | each conversation is delivered, fails or is skipped |
| `Loader.ConversationLoader.SendSelected` | load_conversations.py:146-153 | conversation `i` of the selection is sent with id `start_from + i + 1`, a pause follows every conversation but the last, and the counters advance by the selection's successes and failures |
| `Loader.ConversationLoader.LoadAndSendConversations` | load_conversations.py:102-168 | an unreadable or empty dataset returns false; otherwise the slice `[start, start+count)` of the (shuffled) kept list is sent with ids `start+i+1`, no pause after the last, and the result is `success_count > 0` |
| `Datasets.CollectEach` | download_dataset.py:58-64 | the row loop collects, in order, what each row gives |
| `Datasets.CollectAppend` | download_dataset.py:59-63 | collecting keeps row order |
| `Datasets.CollectLength` | download_dataset.py:59-63 | at most one conversation per row, exactly one when every row gives one |
| `Datasets.CollectSound` | download_dataset.py:59-63 | every output comes from some row |
| `Datasets.CollectComplete` | download_dataset.py:59-63 | every row that gives a conversation contributes it |
| `Datasets.ArenaConversation` | download_dataset.py:60-63 | a row gives its `conversation` (preferred) or its `messages`, or nothing |
| `Datasets.NemotronConversation` | download_dataset.py:117-123 | a llama-nemotron row gives its `messages` and nothing else; a row without them gives nothing |
| `Datasets.FallbackConversation` | download_dataset.py:126-132 | a row with `text` gives one single-user-message conversation; others give nothing |
| `Datasets.BlendedMessages` | download_dataset.py:88-97 | the two `enumerate` loops compute the alternating messages |
| `Datasets.ConvertBlended` | download_dataset.py:83-100 | the blended-skill loop skips rows missing either key |
| `Datasets.BlendedShape` | download_dataset.py:88-97 | previous utterances alternate user/assistant from the user, free messages alternate assistant/user from the assistant, and the length is the sum |
| `Datasets.DialogueLine` | download_dataset.py:110-113 | a line is kept exactly when it begins with `#Person1#:` or `#Person2#:`; the message has just `role` and `content`; the role is `user` exactly for `#Person1#:` and `assistant` otherwise; the content is the line with every occurrence of its tag removed, stripped |
| `Datasets.CollectAligned` | download_dataset.py:105-114 | two row functions accepting the same rows give outputs side by side, the `k`-th of each from the same row |
| `Datasets.DialogueRolesFollowTags` | download_dataset.py:107-114 | the dialogue's messages match its tagged lines one for one and in order: user exactly for a `#Person1#:` line, with that line's untagged, stripped text |
| `Datasets.DialogueMessagesShape` | download_dataset.py:108-113 | every dialogue message is `{role, content}` with role user or assistant and stripped content |
| `Datasets.DialogueConversation` | download_dataset.py:106-114 | a row with `dialogue` always gives a conversation, possibly empty |
| `Datasets.ParseDialogue` | download_dataset.py:108-113 | the line loop computes the dialogue's messages |
| `Datasets.ConvertDialogsum` | download_dataset.py:102-115 | the dialogsum row loop |
| `Datasets.OasstStep` | download_dataset.py:71-77 | a row is processed exactly when it has `parent_id`, `role` and `text` |
| `Datasets.ConvertOasst` | download_dataset.py:66-81 | the oasst1 loop computes the linearisation, failing at the first row with a missing key |
| `Datasets.OasstRunKeepsError` | download_dataset.py:71-77 | a failing row stops the conversion with its error |
| `Datasets.OasstRunOkIff` | download_dataset.py:72-77 | the conversion fails exactly when some row lacks a key |
| `Datasets.OasstRunInvariant` | download_dataset.py:71-80 | the loop invariant: rows become messages one for one and in order, finished conversations are non-empty, the current one is empty only before the first row, and conversations are counted by roots |
| `Datasets.SplitsAtRootsReply` | download_dataset.py:76-77 | a reply row extends the current conversation and moves no boundary |
| `Datasets.SplitsAtRootsRoot` | download_dataset.py:72-75 | a root row closes a non-empty current conversation and starts the next one at its own row |
| `Datasets.OasstRunBoundaries` | download_dataset.py:71-77 | the loop invariant on boundaries: every finished conversation after the first, and the current one once some are finished, starts at a root row, and every root row after the first row starts one |
| `Datasets.OasstConversationsSpec` | download_dataset.py:66-81 | flattening gives one message per row in row order; no conversation is empty; there is one per root plus one for leading replies; every conversation after the first starts at a root row, and every root row after the first row starts a conversation |
| `Datasets.ConvertToMessagesFormat` | download_dataset.py:53-132 | dispatches on the dataset key; only the oasst1 branch can fail |
| `Datasets.ChosenSplit` | download_dataset.py:157-162 | the `train` split when there is one, else the first; failure when there is none |
| `Datasets.TrainSplit` | download_dataset.py:157-158 | finds a split named `train` exactly when there is one |
| `Datasets.ApplyLimit` | download_dataset.py:165-166 | a truthy limit keeps the first `min(limit, len)` rows (none for a negative limit); no limit or 0 keeps all |
| `Datasets.NonEmptyConversations` | download_dataset.py:175 | every kept conversation is non-empty and comes from the input; `NonEmptyAppend` shows order and multiplicity are kept |
| `Datasets.NonEmptyConversationsComplete` | download_dataset.py:175 | no non-empty conversation is dropped |
| `Datasets.NonEmptyAppend` | download_dataset.py:175 | the filter keeps order and multiplicity: filtering `a + b` is filtering `a` followed by filtering `b` |
| `Datasets.DownloadDataset` | download_dataset.py:134-199 | an unknown key writes and returns nothing; a file is written only to `<output>/<key>.json` and holds only non-empty conversations; the path is returned only for a written file, and exactly when the sample print finds `role` and `content` in the first three messages of the first conversation |
| `Datasets.UnknownKeyLoadsNothing` | download_dataset.py:137-141 | for an unknown key the result does not depend on the dataset source: nothing is loaded |
| `Datasets.DownloadSaves` | download_dataset.py:149-195 | when the load, split choice, conversion and write succeed, the file holds exactly the non-empty converted conversations, and its path is returned unless the sample print raises `KeyError` |
| `ChatClient.ReplyText` | chat.py:83-92 | the reply is the streamed text, or the error prefixed by `"Error connecting to server: "` or `"Unexpected error: "` by kind |
| `ChatClient.HistoryAfter` | chat.py:28-83 | the user message is always kept; an assistant message follows only for non-empty streamed text |
| `ChatClient.HistoryAfterKeepsShape` | chat.py:28-83 | every assistant message in the history directly follows a user message, and a turn keeps that |
| `ChatClient.StreamingChatClient.constructor` | chat.py:13-19 | the history starts empty |
| `ChatClient.StreamingChatClient.AddMessage` | chat.py:21-26 | appends exactly one message at the end |
| `ChatClient.StreamingChatClient.SendMessage` | chat.py:28-92 | the user message is appended before sending and is part of the payload; the reply and the new history follow from the stream outcome |
| `ChatClient.StreamingChatClient.ClearHistory` | chat.py:94-96 | the history is empty afterwards |
| `Common.StripEmptyIff` | run.py:224 | `s.strip()` is empty exactly when `s` is all whitespace |
| `Common.StripIdempotent` | load_conversations.py:40-43 | stripping twice is stripping once |
| `Common.Strip` | load_conversations.py:40-43 | `str.strip` never lengthens the text and leaves no whitespace at either end |
| `Common.StripSlice` | load_conversations.py:40-43 | `str.strip` removes the surrounding whitespace and nothing else: the result is a slice `s[i..j]` with only whitespace before `i` and after `j` |
| `Common.Split` | download_dataset.py:108 | `split('\n')` gives at least one piece and no piece contains the separator (with `Common.SplitJoin`, this fixes the pieces) |
| `Common.RemoveAll` | download_dataset.py:111 | `replace(tag, '')` never lengthens the text, keeps no character more often than the text has it, and leaves a text without the tag unchanged |
| `Common.RemoveAllLeading` | download_dataset.py:111 | a leading tag is deleted: `(tag + t).replace(tag, '')` is `t` when `t` holds no further tag |
| `Common.PyIndex` | shoggoth_utils.py:107 | a slice bound counts from the end when negative and is clamped to `[0, len]` |
| `Common.PySlice` | load_conversations.py:134 | `s[lo:hi]` holds the elements from the clamped `lo` up to the clamped `hi`, and for `0 <= lo <= hi` is `s[min(lo, len):min(hi, len)]` |
| `Common.SplitJoin` | download_dataset.py:108 | `split('\n')` loses nothing: joining the pieces gives the text back |
| `Common.ToLowerSpec` | load_conversations.py:33 | lowering leaves no capital and is idempotent |

## Left out

- I/O is a parameter or left out: HTTP, Redis, dspy, HuggingFace `load_dataset`, file reads and writes, and `print` (except the sample print of `download_dataset`, whose `KeyError` changes the result). The upstream is a chunk sequence or a failure. A server is a function from request to response. The predictor is a function. The audit log is a sequence of records.
- Floating point and clocks are left out: `temperature` is carried but never used, and timestamps, `average_length`, durations, success rates and `time.sleep` are not modelled. The loader returns how many pauses it would take.
- `json.loads`/`json.dumps` and `bytes.decode(errors="replace")` are abstract: a parser function, stored values already decoded, and a decoder function.
- `lower()` maps ASCII letters only.
- Dataset fields and message values are assumed to be of the expected types (strings and lists). Values of the wrong type in a loaded snapshot count as a decode failure.
- `random.shuffle` is a permutation passed in by the caller.
- Concurrency is left out: requests racing on the shared deque, and the `async` scheduling.
- The legacy `load_redis_examples`/`save_redis_examples` (shoggoth_utils.py:38-58) depend on dspy `Example` and are not modelled.
- Environment-variable overrides of `EXAMPLE_STORAGE_KEY`, the log path and the Redis URL are not modelled; the defaults are used.
- Log-write failures (`write_jsonl_line` catching its own errors) are not modelled; every record is appended.
- A request body that is not JSON or fails validation is an unhandled exception (`Reply.Unhandled`). FastAPI routing, CORS and pydantic are not modelled.
- The relay's later read of the streamed body is modelled on its own in `Proxy.GenerateStream` and is not joined to the handler's log trace; the handler's `finally` ordering itself is modelled in `Proxy.App.HandleChatRequest`.
- `Proxy.App.FinishRequest`: the `except` branches that would set `processing_error` while storing, generating or saving cannot be reached, so the model has no path where they fire.
- `chat.py` `main` and `show_history`, the `download_dataset.py` `main` and `--list`, the request timeouts, and the two network smoke-test scripts are not modelled.
- A message entry that is not a dictionary (which makes `send_conversation` raise outside its `try`) is not modelled; messages are string maps.
