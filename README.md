# Chatbot backend: conversation store, context trimming and Mistral prompt

This project models the core of `index.js`, the persona chatbot server. The
server keeps an in-memory map from session id to message list. Each
`POST /chat` request goes through these steps:

1. it appends the user message to the session's list;
2. it trims a copy of the list to a turn and character budget;
3. it serialises the copy into one Mistral / Llama-2 instruction prompt;
4. it asks the upstream model for a reply;
5. it appends the reply and stores the trimmed list back.

The model is split into four modules, one per part of the program:

- `Messages` (`messages.dfy`): the `{ role, content }` message and the list
  operations that `index.js` uses. These are `find` of the first system
  message, `filter` of the other messages, `[system, ...list].filter(Boolean)`,
  `map` to contents, and `join`.
- `ContextTrim` (`trim_context.dfy`): `trimContext`. The spec function
  `Trimmed` describes the result, and `DropOldestPairs` describes the
  character loop. The method `TrimContext` runs the source's copy loop,
  `slice` and `while` loop, and is proved equal to `Trimmed`.
- `Prompt` (`mistral_prompt.dfy`): `buildMistralPrompt`. Its reference
  definition is `ReferenceChunks`. It gives one chunk per user message. The
  chunk is closed by the next non-system message when that message is an
  assistant reply. The system block goes into the first chunk only. The
  method `BuildMistralPrompt` keeps the source's loop, with its
  `firstUserFound` and `pendingAssistant` flags and its five branches. It is
  proved equal to `MistralPrompt`. There is one step lemma per branch.
- `ChatServer` (`conversation_store.dfy`): the class `ConversationStore`. It
  holds the `conversations` map and two methods. `GetOrCreateConversation`
  models `getOrCreateConversation`. `Chat` models the handler's sequence of
  store mutations. The upstream call is a function parameter that answers a
  prompt with a reply or an error.

## Model

| member | source | states |
|---|---|---|
| Messages.FirstSystem | index.js:88 | `find` yields nothing exactly when the list has no system message; otherwise it yields a system message of the list |
| Messages.FirstSystemIsFirst | index.js:88 | what `find` returns is the first system message: it sits at an index before which no message is a system message |
| Messages.NonSystem | index.js:89 | `filter` leaves no system message and never lengthens the list |
| Messages.NonSystemKeepsAll | index.js:89 | a list without system messages passes the filter unchanged |
| Messages.NonSystemAppend | index.js:89 | filtering a concatenation filters each part |
| Messages.NonSystemIdempotent | index.js:223-224 | filtering an already filtered list changes nothing |
| Messages.WithSystemParts | index.js:109 | `find` and `filter` recover exactly the system message and the list from `[system, ...list].filter(Boolean)` |
| Messages.WithSystem | index.js:100-101 | definition: `[system, ...list].filter(Boolean)` is `list` with the system message in front when there is one, and `list` alone otherwise |
| Messages.Contents | index.js:102 | definition: the contents of the messages, one per message, in order |
| Messages.Join | index.js:103 | definition: `join` gives `""` for no parts and the part itself for one part; otherwise it gives the first part, the separator and the join of the rest |
| Messages.JoinStartsWithFirst | index.js:103 | a non-empty join starts with its first part |
| Messages.JoinSnoc | index.js:103 | joining one more part appends the separator and that part, or gives the part alone after nothing |
| ContextTrim.SliceFromEnd | index.js:95-96 | `slice(-n)` is a suffix; `n == 0` keeps the whole list; otherwise its length is `min(n, length)` |
| ContextTrim.Rebuild | index.js:99-103 | definition: `rebuild(list)` is the newline join of the contents of the system message, if any, followed by `list` |
| ContextTrim.DropOldestPairs | index.js:104-107 | definition: while `rebuild` is longer than `maxChars` and more than two messages remain, drop the first two; the lemmas below state what this keeps |
| ContextTrim.DropOldestPairsSuffix | index.js:104-107 | the character loop keeps a suffix, drops an even number of messages, and never empties a non-empty list |
| ContextTrim.DropOldestPairsBudget | index.js:104-107 | on exit the joined text fits `maxChars` or at most two messages remain; the list two messages longer did not pass the test, so no pair is dropped needlessly |
| ContextTrim.Kept | index.js:88-107 | definition: the character loop applied to the last `2 * maxTurns` non-system messages (all of them when `maxTurns == 0`), measured with the first system message |
| ContextTrim.Trimmed | index.js:85-110 | definition: an empty list is returned as it is; otherwise the first system message, if any, followed by `Kept` |
| ContextTrim.KeptIsSuffix | index.js:88-107 | the kept non-system messages are a contiguous suffix of the input's non-system messages |
| ContextTrim.TrimContext | index.js:85-110 | the copy loop, `slice` and `while` loop compute exactly `Trimmed` |
| ContextTrim.TrimmedShape | index.js:86-109 | an empty list comes back empty; otherwise the input's first system message (and no other) comes first, followed by a contiguous suffix of its non-system messages in order |
| ContextTrim.TrimmedTurnBound | index.js:95-96 | with `maxTurns >= 1` at most `2 * maxTurns` non-system messages remain; with `maxTurns == 0` the count limit keeps everything |
| ContextTrim.TrimmedCharBound | index.js:99-107 | the result's newline-joined contents fit `maxChars`, or at most two non-system messages remain |
| ContextTrim.TrimmedKeepsLatest | index.js:96-109 | the most recent non-system message always survives, as the last element |
| ContextTrim.KeptIsStable | index.js:95-107 | the kept messages already pass both the count and the character limit |
| ContextTrim.TrimmedIdempotent | index.js:85-110 | trimming a trimmed list changes nothing |
| Prompt.SystemBlock | index.js:44 | the `<<SYS>>` block is empty exactly when the system text is empty |
| Prompt.OpenChunk | index.js:53 | definition: the chunk a user message pushes (also at index.js:63, with an empty block), `<s>[INST] ` + block + content + ` [/INST]` |
| Prompt.ClosingReply | index.js:58 | definition: what a reply appends to the open chunk, ` ` + content + `</s>` |
| Prompt.ReferenceChunks | index.js:46-72 | reference definition: one chunk per user message, in order, closed by the next message when that is an assistant message; the block goes into the first chunk only; every other assistant message adds nothing |
| Prompt.MistralPrompt | index.js:34-77 | definition: the reference chunks of the non-system messages, with the block of `systemText`, joined by `"\n"` |
| Prompt.UserOpensChunk | index.js:51-55 | a user message adds one chunk `<s>[INST] … [/INST]`, carrying the system block exactly when no chunk existed before |
| Prompt.AssistantClosesOpenChunk | index.js:57-61 | an assistant message after an unanswered user message appends ` content</s>` to the last chunk and changes no other chunk |
| Prompt.AssistantWithoutOpenChunkDropped | index.js:46-72 | an assistant message with no unanswered user message before it matches no branch and changes nothing |
| Prompt.SystemStep | index.js:47-50 | the system-message branch leaves the loop state as it is |
| Prompt.FirstUserStep | index.js:51-55 | the first-user branch moves the loop state to that of one more message |
| Prompt.AnswerStep | index.js:57-61 | the reply branch moves the loop state to that of one more message |
| Prompt.LaterUserStep | index.js:62-66 | the later-user branch moves the loop state to that of one more message |
| Prompt.DroppedStep | index.js:67-72 | an assistant message that no branch takes leaves the loop state as it is |
| Prompt.BuildMistralPrompt | index.js:34-77 | the loop with its two flags returns exactly `MistralPrompt` (the reference chunks joined by newlines); its duplicate fifth branch is unreachable |
| Prompt.PromptIgnoresSystemMessages | index.js:47-50 | system messages in the list play no part in the prompt |
| Prompt.ChunkCount | index.js:51-55 | there are exactly as many chunks as user messages |
| Prompt.ChunkPerUserMessage | index.js:53 | chunk `k` starts with `<s>[INST] `, then the system block when `k == 0`, then the `k`-th user message and ` [/INST]` |
| Prompt.SystemBlockOnlyInFirstChunk | index.js:44 | the system block changes the first chunk only, right after `<s>[INST] `; every later chunk is the same as without it |
| Prompt.PromptOpening | index.js:76 | the prompt is empty exactly when there is no user message (so an empty list gives `""`); otherwise it starts with the first user message's chunk, including the system block |
| Prompt.ChunksEndOpen | index.js:62-66 | chunks whose last message is a user message join to a string that ends with that message and ` [/INST]` |
| Prompt.PromptEndsOpen | index.js:74-76 | when the last non-system message is a user message, the prompt ends with it and ` [/INST]`, open for the model |
| Prompt.LeadingMessagesDroppedChunks | index.js:57-72 | messages before the first user message contribute no chunk |
| Prompt.LeadingAssistantDropped | index.js:57-72 | everything before the first user message (a leading assistant reply in particular) leaves the prompt unchanged |
| Prompt.SecondAssistantDroppedChunks | index.js:57-72 | the second of two consecutive assistant messages contributes nothing to the chunks |
| Prompt.SecondAssistantDropped | index.js:57-72 | of two consecutive assistant messages the second is dropped from the prompt |
| Prompt.ThreeTurnExample | index.js:34-77 | `user A, assistant B, user C` without system text gives `<s>[INST] A [/INST] B</s>\n<s>[INST] C [/INST]` |
| ChatServer.ValidRequest | index.js:207-208 | definition: the request passes validation exactly when both `sessionId` and `message` are present and non-empty |
| ChatServer.Existing | index.js:116-134 | definition: the list stored for the id, or the list holding only the persona system message for an unseen id |
| ChatServer.PromptFor | index.js:220-225 | definition: the prompt built from the trimmed conversation. Its first system message's content, or `""`, is the system text, and its non-system messages are the turns |
| ChatServer.SeededAppend | index.js:217 | appending a user or assistant message keeps the persona message first and alone among system messages |
| ChatServer.TrimmedSeeded | index.js:234 | trimming a seeded conversation keeps it seeded, and with `maxTurns >= 1` at most `2 * maxTurns + 1` messages long |
| ChatServer.PromptEndsWithNewMessage | index.js:214-225 | the prompt for a conversation that has just received a user message ends with that message and ` [/INST]`, however much is trimmed |
| ChatServer.ConversationStore.constructor | index.js:26 | the store starts empty |
| ChatServer.ConversationStore.GetOrCreateConversation | index.js:116-135 | an unseen id is seeded with exactly the persona system message; existing sessions and other keys are unchanged; the list returned is the one stored |
| ChatServer.ConversationStore.Chat | index.js:199-243 | no token gives a 500 and a missing or empty field gives a 400, both with the store untouched. After an upstream error the session holds the old list plus the user message, untrimmed, and the error detail is returned. After a reply the session holds the trimmed old list plus the user message and the reply, and the reply is returned. Every stored list stays seeded |

## Behaviour of the code worth noting

- The code keeps the first system message wherever it appears in the
  list (`find`) and moves it to the front. The first message is not
  special.
- The count bound is `slice(-MAX_TURNS * 2)`. With `MAX_TURNS` at 0 this
  is `slice(-0)`, which keeps every message, so then only the character
  budget drops messages.
- A missing API token does not stop the server. Each request checks it
  and answers 500 (`Response.Misconfigured`).
- The list sent upstream is a trimmed copy. The stored list is trimmed
  only after a reply. After an upstream error the store keeps the
  untrimmed list with the new user message.

## Left out

- Express routing, CORS, JSON body parsing and `app.listen`; the
  `/health` and `/session` endpoints, including uuid generation, which is
  randomness.
- `callMistral`: the HTTP request, status check, payload and reply
  extraction (`index.js:140-179`). The upstream is a parameter
  `string -> UpstreamResult`, and the `detail` it yields stands for
  `String(err)`. Any other exception caught at `index.js:237-242` is not
  part of this model.
- Reading `.env` and `me.json`, and building the persona text
  (`index.js:118-130`). The persona is an opaque string, `HF_TOKEN` is a
  boolean, and `MAX_TURNS` / `MAX_CHARS` are `nat`. Non-numeric or negative
  environment values (`Number(...)` yielding `NaN` or a fraction) are not
  modelled.
- Concurrency. Each request is one atomic step. The code awaits the
  upstream between the user push and the reply push. Interleaved requests
  on one session, and the short-lived untrimmed list after the reply push
  that only they could observe, are not modelled.
- Aliasing. The handler pushes onto the array the map holds. The model
  writes the extended list back into the map entry, which has the same
  observable effect on the store.
- Non-string JSON values. `String(message)` on a number or an object, a
  non-string truthy `sessionId`, and the `req.body || {}` fallback are
  outside the model. Fields are `Option<string>`, and a falsy field is
  `None` or `""`.
- Roles other than `system`, `user` and `assistant`. `buildMistralPrompt`
  would ignore them.
- Character counting. JavaScript's `length` counts UTF-16 code units. The
  model counts the elements of a Dafny `string`.
- The `console.error` logging of failures.
