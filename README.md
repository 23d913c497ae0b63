# Flowbotics chatbot: conversation bookkeeping

A Dafny model of the conversation manager `FlowboticsChatbotOptimized` in
`chatbot_llm.py`. The manager forwards user messages to a hosted
completion API. It can add retrieved passages from a vector store to the
prompt, keeps the conversation history, sends only the latest part of that
history with each request, and passes every exchange to a feedback (RLHF)
subsystem.

The collaborators are not modelled; they become arguments instead:

- the vector store is a function `Retriever` from a question and a result
  count to a `QueryResult`;
- the completion API is a function from the message list sent to a `Reply`
  (`Success(text)` or `Failure`, the exception path);
- the streaming completion API is a function from the message list to a
  `StreamReply`: the delta contents delivered before the stream ended, and
  whether it then raised;
- the feedback subsystem is a ghost log `feedback` of
  `(question, response, context)` triples on the `Chatbot` object.

Modules:

- `Strings` — `str.join`, repeated `+=`, and ASCII `lower`, `upper` and
  `strip`, with a predicate `InfixAt` for "occurs at this index".
- `Context` — the formatter of `get_relevant_context`. It has a method with
  the source's loop, proved against the function `FormatContext`.
- `Prompt` — greeting detection and the choice of prompt shared by `chat`
  and `stream_chat`. The function `BuildTurn` specifies the method
  `PrepareTurn`.
- `Conversation` — the history class `Chatbot`. It covers the window of the
  last ten entries, one synchronous turn (`Chat`), one streamed turn
  (`StreamChat`, whose relay loop is `RelayStream`), `ClearHistory`, and the
  transcript text of `SaveConversation`. The predicate `Valid()` says that
  user and assistant entries alternate. `Chat`, `StreamChat` and
  `ClearHistory` keep it whenever it held before.
- `Commands` — what one input line of the console loop asks for.

Some behaviour of the code is easy to misread. The model follows the code
in each case:

- The feedback call (`chatbot_llm.py:203-209`, `279-285`) is not wrapped in
  a `try`, so a failure there would propagate out of `chat`. The model
  assumes that the call returns.
- A vector store exception inside `get_relevant_context` also propagates
  (there is no `try`). The model's `Retriever` always answers. An empty
  answer is the only "no context" case.
- `stream_chat` is a generator, and the user turn is appended before the
  stream loop (`chatbot_llm.py:238-241`). A caller that stops after the
  first fragment therefore leaves a lone `("user", prompt)` entry. It leaves
  no assistant entry and makes no feedback call, and the history stops
  alternating. The model covers only fully consumed streams (see
  "## Left out").
- The code comment at `chatbot_llm.py:179` says "last 10 exchanges". The
  slice actually keeps the last 10 messages, which is what `HistoryWindow`
  models.

## Model

| member | source | states |
|---|---|---|
| `Context.Passages` | chatbot_llm.py:120-127 | No passages when the answer is empty or has no documents. Otherwise min(documents, metadatas) passages, the i-th pairing the i-th document with the i-th source. |
| `Context.FormatContext` | chatbot_llm.py:120-131 | The sources are one per zipped pair, in order. The context is empty exactly when there is no pair. |
| `Context.NoDocumentsNoContext` | chatbot_llm.py:120-121 | With no answer, or no documents in it, the result is the empty context and an empty source list. |
| `Context.PassageInContext` | chatbot_llm.py:127-131 | Each pair's block `[Source: s]\n` + document occurs verbatim in the joined context, with the document right after its tag. |
| `Context.GetRelevantContext` | chatbot_llm.py:116-132 | The loop that builds parts and sources, followed by the join, returns exactly `FormatContext` of the store's answer to `(question, n_results)`. |
| `Prompt.RagPrompt` | chatbot_llm.py:158-164 | The template holds the context right after its preamble and the question right after `\n\nQuestion: `. It is longer than both. |
| `Prompt.PrepareTurn` | chatbot_llm.py:146-168 | The greeting test, the optional retrieval and the prompt choice give exactly `BuildTurn`. |
| `Prompt.RawPromptIff` | chatbot_llm.py:147-168 | The prompt is the raw message if and only if the message is a greeting, `use_rag` is false, or retrieval yields an empty context. |
| `Prompt.GreetingSkipsRetrieval` | chatbot_llm.py:147-154 | For a greeting the turn is the raw message with empty context and sources, whatever `use_rag` is. |
| `Prompt.RawPromptHasNoSources` | chatbot_llm.py:150-168 | Whenever the raw message is the prompt, the context and the sources are empty. |
| `Prompt.TurnSources` | chatbot_llm.py:154-155 | When retrieval runs, the turn's sources are those of the zipped passages, in order. |
| `Prompt.AugmentedPromptIsTemplate` | chatbot_llm.py:154-164 | A prompt other than the raw message comes only from a non-greeting with `use_rag` on and a non-empty context, and it is the template around that context. |
| `Prompt.DocumentInTemplate` | chatbot_llm.py:158-164 | Every retrieved document occurs verbatim in the template built around the context. |
| `Prompt.AugmentedPromptContents` | chatbot_llm.py:154-164 | A prompt other than the raw message contains every retrieved document and the question verbatim. |
| `Prompt.PromptNonEmpty` | chatbot_llm.py:153-168 | A non-empty message gives a non-empty prompt. |
| `Prompt.GreetingCaseAndSpace` | chatbot_llm.py:147-148 | For every greeting word `g`, every `m` whose lower-case form is `g`, and any whitespace before and after it, the message is a greeting. |
| `Prompt.GreetingWordsPlain` | chatbot_llm.py:147 | No greeting word is empty, starts or ends with whitespace, or contains an upper-case letter. |
| `Prompt.GreetingStripped` | chatbot_llm.py:147-148 | Example: the test strips surrounding whitespace (`" hello\n"` is a greeting). |
| `Prompt.GreetingFolded` | chatbot_llm.py:147-148 | Example: the test folds case (`"WASSUP"` is a greeting). |
| `Prompt.GreetingExact` | chatbot_llm.py:147-148 | Example: otherwise the match is exact, so `"hello there"`, `"hii"` and `""` are not greetings. |
| `Conversation.RecentWindow` | chatbot_llm.py:179 | `h[-n:]` is a suffix of `h`. For `n > 0` it has min(n, len(h)) entries. For `n = 0` it is all of `h`, because `-0` is `0`. |
| `Conversation.ModelMessages` | chatbot_llm.py:177-180 | The request is the system prompt followed by the last min(10, len(h)) entries in order, at most 11 messages, ending with the latest entry. |
| `Conversation.RequestEndsWithTurn` | chatbot_llm.py:171-180 | The window is taken after the user turn is appended, so the request ends with that turn and has 2 to 11 messages. |
| `Conversation.FirstRequestAfterClear` | chatbot_llm.py:177-180 | With the user turn as the only history entry, the request is exactly the system prompt plus that turn. |
| `Conversation.Chatbot.constructor` | chatbot_llm.py:39-76 | A new chatbot has an empty history and an empty feedback log and keeps the `enable_rlhf` flag. |
| `Conversation.Chatbot.Chat` | chatbot_llm.py:134-211 | An alternating history stays alternating. The history grows by exactly `("user", prompt)` and `("assistant", answer)`, and older entries are unchanged. The answer is the gateway's text, or the fixed apology on failure. The feedback log gets `(user_message, answer, context)` when RLHF is on. |
| `Conversation.RelayStream` | chatbot_llm.py:249-270 | The fragments relayed are the non-empty deltas in order, plus the error fragment on failure. The accumulated text is the deltas' concatenation, or the error fragment alone on failure (earlier tokens discarded). |
| `Conversation.YieldedMatchesStored` | chatbot_llm.py:260-276 | No relayed fragment is empty. On success the fragments concatenate to the stored content. On failure the last fragment is the stored content, which is the error fragment. |
| `Conversation.Chatbot.StreamChat` | chatbot_llm.py:213-285 | Same bookkeeping as `Chat`, for a stream consumed to its end. The relayed fragments are `Yielded` of the stream and the stored assistant content is `Streamed` of the stream. |
| `Conversation.TurnKeepsAlternating` | chatbot_llm.py:171-200 | Appending a user turn and its reply keeps the history alternating user/assistant. |
| `Conversation.Chatbot.ClearHistory` | chatbot_llm.py:301-303 | The history becomes empty and the feedback log is unchanged. |
| `Conversation.LabelIsUpperRole` | chatbot_llm.py:314 | The transcript labels are the upper-cased role names (`USER`, `ASSISTANT`, `SYSTEM`). |
| `Conversation.TranscriptAppend` | chatbot_llm.py:313-316 | The transcript of a concatenated history is the concatenation of the transcripts. |
| `Conversation.TranscriptHasEntry` | chatbot_llm.py:313-316 | Every history entry, not just the last ten, has its block in the transcript, right after the blocks of all earlier entries. |
| `Conversation.TurnExtendsTranscript` | chatbot_llm.py:313-316 | One finished turn adds exactly its user block and its assistant block to the transcript. |
| `Conversation.Chatbot.SaveConversation` | chatbot_llm.py:306-316 | The file name is the one given, or `conversation_<timestamp>.txt`. The text written is `Transcript(history)`, one `ROLE:\ncontent\n\n` block per entry. |
| `Strings.JoinPartAt` | chatbot_llm.py:131 | Every part of `sep.join(parts)` occurs verbatim in the result. |
| `Strings.JoinEmptyIff` | chatbot_llm.py:131 | A join of non-empty parts is empty exactly when there are no parts. |
| `Strings.ConcatNonEmpty` | chatbot_llm.py:261-263 | Skipping empty deltas does not change the accumulated text. |
| `Strings.TrimLeft` | chatbot_llm.py:148 | The leading part of `strip()`: only whitespace is removed, and the result does not start with whitespace. |
| `Strings.TrimRight` | chatbot_llm.py:148 | The trailing part of `strip()`: only whitespace is removed, and the result does not end with whitespace. |
| `Strings.TrimLeftSkips` | chatbot_llm.py:148 | A leading run of whitespace is removed exactly, up to the first non-whitespace character. |
| `Strings.TrimRightSkips` | chatbot_llm.py:148 | A trailing run of whitespace is removed exactly, back to the last non-whitespace character. |
| `Strings.LowerAppend` | chatbot_llm.py:148 | `lower()` distributes over concatenation. |
| `Strings.LowerSpaces` | chatbot_llm.py:148 | `lower()` leaves whitespace unchanged. |
| `Commands.Classify` | chatbot_llm.py:350-373 | The line is stripped. It is skipped exactly when empty. It quits exactly on `quit`/`exit`/`q` in any case. It is `Stats`, `Improve`, `Clear` or `Save` exactly when it is `stats`, `improve`, `clear` or `save` in any case. It is a chat message exactly when it is none of the command words, and a chat message is sent stripped. |

## Left out

- The completion calls (`chatbot_llm.py:184-191`, `251-258`) are network I/O. They are oracle arguments, so the model name and the sampling constants 0.7, 2048 and 0.9 are not modelled.
- `VectorDBStore` and `AutomatedRLHFSystem` are foreign modules and are not part of this model. Retrieval is an argument, and the feedback calls only append to a ghost log.
- Exceptions raised by the vector store or by the feedback subsystem are not modelled. The code does not catch them.
- A metadata entry without a `source` key (a `KeyError` in the code) is not modelled: each metadata is reduced to its source string.
- A `None` delta content in the stream is modelled as the empty string, since both are skipped. A `None` message content in a synchronous reply is not modelled.
- The file `open`/`write` and `datetime.now()` are I/O and clock. The timestamp is passed in, and only the written text is modelled.
- `interactive_chat` is console I/O, and only its decision per input line (`Commands.Classify`) is modelled. `show_rlhf_stats` and `show_improvements` only print or call the feedback subsystem, and logging is left out.
- Generator laziness of `stream_chat` is left out. The model returns every fragment the generator would yield, as if the caller consumes the stream to the end.
- Conversation.Chatbot.StreamChat: a stream the caller abandons is not modelled. The code then keeps the user turn (`chatbot_llm.py:238-241`) without an assistant turn or a feedback call, which breaks `Valid()`; alternation is proved only for streams consumed to their end.
- `str.lower`, `str.upper` and `str.strip` are modelled on ASCII only (whitespace: tab to carriage return, 0x1C-0x1F, space); full Unicode case mapping is not.
- Conversation.Chatbot.constructor: takes the non-empty API key as a precondition rather than modelling the `ValueError` raised for an empty key.
