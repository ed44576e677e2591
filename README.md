# Feedback streaming route, system prompts and message actions — a Dafny model

This project models the decision logic of a chat application's prompt-feedback feature:

- **`lib/ai/prompts.ts`** (module `Prompts`, file `prompts.dfy`). The system prompt builders. They branch on the chat model id, the interface language (`"en"` or anything else) and the artifact kind. Hint values that are `undefined` render as `"undefined"`, and null document content renders as `"null"`, as template literals do.
- **`app/api/feedback/schema.ts`** (module `Schema`, file `schema.dfy`). The zod body schema. It appears both as a validity predicate over the parsed body and as a parser from JSON. A round-trip lemma ties the two together.
- **`app/api/feedback/route.ts`** (module `FeedbackRoute`, file `route.dfy`).
  - The module-level `globalStreamContext` cache, the stream-id table and the feedback table are the fields of the class `Server`.
  - `POST` is an ordered guard chain. It registers the stream id once, after all guards pass, then serves the resumable wrapper or the raw stream.
  - `onFinish` persistence swallows its failures.
  - `GET` is a second guard chain. It ends in the chat's most recent stream id and falls back to the 15-second reconstruction policy.
  - Every other I/O result is a parameter: the parsed JSON, the session user, the database lookups, the generated UUID, what `createStreamId` did, and whether context creation succeeded.
- **`components/message-actions.tsx`** (module `MessageActions`, file `message_actions.dfy`). The vote-cache updater passed to SWR's `mutate`, the copy-text pipeline, the artifact transition, the feedback request and the button enable rules.

Helper modules: `Wrappers` (`Option`), `Json` (JSON values and JavaScript truthiness) and `Text` (`join` and `trim` over ECMAScript white space, plus `split('\n')`, the inverse of the line-feed join, used to state what the copied text holds).

The model keeps the handler's crash and no-response paths as explicit outcomes:

- An empty `messages` array passes the schema, but `messages[0].data` then throws outside the `try` (`PostCrash(NoRequestMessage)`).
- `getMessageById` returns an array, and only `null` is guarded. An empty array reaches `message[0].parts` and throws (`PostCrash(NoStoredMessage)`).
- A non-`ChatSDKError` thrown by `createStreamId` inside the `try` makes the handler return `undefined` (`NoResponse`).
- A chat with no stream ids gets `not_found:stream` from `GET`, not an empty stream.

## Model

| member | source | states |
|---|---|---|
| `Prompts.RequestPromptFromHints` | lib/ai/prompts.ts:45-51 | The hints prompt starts with the header line and ends with a line feed. |
| `Prompts.HintsPromptLines` | lib/ai/prompts.ts:45-51 | Split at line feeds, the hints prompt is the header followed by one labelled line each for lat, lon, city and country, in that order, then the empty tail after the final line feed. This holds when no hint value contains a line feed. |
| `Prompts.SystemPrompt` | lib/ai/prompts.ts:53-77 | When the model is not the reasoning model and the language is not `"en"`, the prompt opens with the language prompt and a blank line. In every other case it opens with the regular prompt and a blank line. |
| `Prompts.ReasoningPromptIgnoresLanguage` | lib/ai/prompts.ts:65-67 | For `chat-model-reasoning` and every language, the prompt is the regular prompt, a blank line and the hints prompt. |
| `Prompts.EnglishPromptExtendsReasoningPrompt` | lib/ai/prompts.ts:65-71 | For any other model, the `"en"` prompt is the reasoning prompt followed by a blank line and the artifacts prompt. So the reasoning prompt is exactly the English prompt without the artifacts guide. |
| `Prompts.OtherLanguagePrefixesEnglishPrompt` | lib/ai/prompts.ts:70-74 | For any other model and a language other than `"en"`, the prompt is the language prompt, a blank line, then the `"en"` prompt for the same inputs. |
| `Prompts.OtherLanguagesAgree` | lib/ai/prompts.ts:72-81 | Any two languages other than `"en"` give the same system prompt and the same feedback prompt, because there is a single language instruction. |
| `Prompts.SystemPromptForFeedback` | lib/ai/prompts.ts:195-201 | The feedback guide is always a suffix of the result. The result equals the feedback guide iff the language is `"en"`. Otherwise the language prompt and a blank line come before it. |
| `Prompts.DocumentHeader` | lib/ai/prompts.ts:116-133 | The kind has a header iff it is `text`, `code` or `sheet`. |
| `Prompts.UpdateDocumentPrompt` | lib/ai/prompts.ts:112-134 | The result is empty iff the kind is not `text`, `code` or `sheet`. Otherwise it is the kind's header, a blank line, the current content (`"null"` when absent) and a line feed. |
| `Prompts.DocumentPromptsDiffer` | lib/ai/prompts.ts:116-133 | For the same content, the three kinds give three different prompts. |
| `Schema.IsUuid` | app/api/feedback/schema.ts:9-17 | The 8-4-4-4-12 shape of `z.string().uuid()`: 36 characters, hyphens at positions 8, 13, 18 and 23, hexadecimal digits of either case elsewhere. It is a definition, stated through the parser rows below. |
| `Schema.ValidBody` | app/api/feedback/schema.ts:8-24 | The parsed body's constraints: a UUID `id`, and every message with role `user`, content of at most 2000 characters, and valid `data`. There is no lower bound on the number of messages. It is a definition, tied to the parser by `Schema.ParseBodyOfJson`. |
| `Schema.ParseData` | app/api/feedback/schema.ts:15-19 | A parsed `data` object has UUID `chatId` and `messageId` and a `language` of 1 to 10 characters, each read from the matching string field. |
| `Schema.ParseMessage` | app/api/feedback/schema.ts:11-20 | A parsed message is valid, and its `role`, `content`, `parts` and `data` are read from the object's fields: the strings under `role` and `content`, the array under `parts`, and the parse of the object under `data`. |
| `Schema.ParseMessages` | app/api/feedback/schema.ts:10-22 | The array parses iff every element parses. Then element i of the result is the parse of item i, so the result has one valid message per item, in order. |
| `Schema.ParseBody` | app/api/feedback/schema.ts:8-24 | A body comes out iff the input is an object with a UUID string `id` and a `messages` array whose every element parses. It then holds that `id` and those messages, and it is valid: role exactly `user`, content of at most 2000 characters, and valid `data`. |
| `Schema.ParseMessageOfJson` | app/api/feedback/schema.ts:11-19 | An encoded message parses back to itself iff it is valid, and fails otherwise. |
| `Schema.ParseBodyOfJson` | app/api/feedback/schema.ts:8-24 | A body encoded with exactly the schema's keys parses back to itself iff it is valid, and fails otherwise. With the three extra-key lemmas, this covers bodies that carry keys zod strips at the body, message or `data` level. |
| `Schema.ParseDataIgnoresExtraKeys` | app/api/feedback/schema.ts:15-19 | Keys a `data` object has beyond `chatId`, `messageId` and `language` never change its parse. |
| `Schema.ParseMessageIgnoresExtraKeys` | app/api/feedback/schema.ts:11-19 | Keys a message object has beyond `role`, `content`, `parts` and `data` never change its parse. |
| `Schema.ParseBodyIgnoresExtraKeys` | app/api/feedback/schema.ts:8-24 | Keys a body has beyond `id` and `messages` never change its parse. |
| `Schema.ClientMessageParses` | app/api/feedback/schema.ts:11-19 | A client message carrying extra keys (such as `id` or `createdAt`) parses to the message its schema keys encode iff that message is valid. |
| `Schema.PartsAreUnconstrained` | app/api/feedback/schema.ts:3-14 | A message's validity never depends on its `parts`. Any array passes, and the unused text-part schema constrains nothing. |
| `Schema.EmptyMessagesAndForeignChatIdAccepted` | app/api/feedback/schema.ts:9-22 | These bodies are accepted: one with an empty `messages` array, and one whose `data.chatId` differs from the top-level `id`, with empty content. |
| `Schema.ValidBodyHasIds` | app/api/feedback/schema.ts:9-17 | In an accepted body, `id` and every message's `chatId` and `messageId` are non-empty. So the route's missing-id guard can never fire after parsing. |
| `FeedbackRoute.NextContext` | app/api/feedback/route.ts:17-35 | One `getStreamContext` call: a cached context is kept. From an empty cache, the result is set iff the creation succeeded, and it is then the created context. |
| `FeedbackRoute.FirstCreated` | app/api/feedback/route.ts:17-35 | Returns a context iff some attempt created one. That context comes from the first successful attempt, and every earlier attempt failed. |
| `FeedbackRoute.ContextNeverReplaced` | app/api/feedback/route.ts:18-34 | Once the cached context is set, any sequence of later calls leaves it unchanged. |
| `FeedbackRoute.ContextIsFirstSuccess` | app/api/feedback/route.ts:16-35 | Starting from null, a failed creation leaves the cache null and is retried. The cache ends holding the first context any call created. |
| `FeedbackRoute.Server.constructor` | app/api/feedback/route.ts:16 | The cache starts null, and both tables start empty. |
| `FeedbackRoute.Server.GetStreamContext` | app/api/feedback/route.ts:17-35 | Returns the cached context unchanged when there is one. Otherwise it stores and returns a newly created context, or stays null when creation fails. |
| `FeedbackRoute.ExtractContent` | app/api/feedback/route.ts:73-77 | There is no content for a non-array or an empty array. Any content is the `text` value of the first part, which is an object with that key. |
| `FeedbackRoute.ContentFromFirstPartOnly` | app/api/feedback/route.ts:73-77 | Content exists iff the first part is an object with a `text` key, and then it is that value. Later parts never matter. |
| `FeedbackRoute.Admit` | app/api/feedback/route.ts:40-82 | A request is admitted iff the body parses with a message, there is a user, and the lookup has a stored message whose first-part text is truthy. The admitted request carries the body's `id`, the first message's `messageId` and `language`, the stored text and the user. Rejections use only `bad_request:api`, `unauthorized:feedback` and `not_found:feedback`. |
| `FeedbackRoute.PostDecision` | app/api/feedback/route.ts:38-181 | The whole of POST: a stream is served iff the request is admitted and registration succeeded. It is served under the generated stream id for the admitted request, as the resumable wrapper iff a context exists and as the raw stream otherwise. |
| `FeedbackRoute.PostGuardOrder` | app/api/feedback/route.ts:40-82 | The guards run in this fixed order, and the first that fails decides the response regardless of later inputs: (1) a body that does not parse gives `bad_request:api`; (2) empty messages crash; (3) no user gives `unauthorized:feedback`; (4) a null lookup gives `not_found:feedback`; (5) an empty lookup crashes; (6) missing or falsy content gives `bad_request:api`. |
| `FeedbackRoute.PostServesExactlyAdmissible` | app/api/feedback/route.ts:40-99 | A stream is served iff every guard passes and the stream id was registered. The served request then carries the body's top-level `id` as chat id, the first message's `messageId` and `language`, and the stored first-part text. Its system prompt is the feedback prompt for that language. |
| `FeedbackRoute.ServedStreamIsRegisteredStream` | app/api/feedback/route.ts:165-174 | A served stream uses the registered stream id. It is the resumable wrapper keyed by that id and context iff the context exists, and the raw stream otherwise. |
| `FeedbackRoute.PostErrorCodes` | app/api/feedback/route.ts:46-180 | Every POST error is `bad_request:api`, `unauthorized:feedback`, `not_found:feedback`, or the `ChatSDKError` code thrown by registration. There is no response iff an admitted request's registration threw something else. |
| `FeedbackRoute.Server.Post` | app/api/feedback/route.ts:38-181 | The outcome is the guard-chain decision. The stream-id table gains exactly one entry (the stream id, the body's `id`) iff a stream is served, and is unchanged otherwise. The context cache is consulted only on that path. |
| `FeedbackRoute.TrailingAssistantId` | app/api/feedback/route.ts:106-110 | Returns nothing iff the response has no assistant message. Otherwise it returns the id of an assistant message with no assistant message after it. |
| `FeedbackRoute.FinishEffectOf` | app/api/feedback/route.ts:102-146 | Nothing is attempted iff the user has no truthy id. A saved record carries the freshly generated record id. |
| `FeedbackRoute.FinishSavesTaggedRecord` | app/api/feedback/route.ts:102-146 | A record is saved iff all of these hold: the user has a non-empty id, the response has an assistant message, the last assistant message has a non-empty id, the append produced the assistant message, and the save succeeded. The record carries the request's `messageId`, `chatId` and the assistant parts. |
| `FeedbackRoute.Server.OnFinish` | app/api/feedback/route.ts:102-146 | The feedback table gains the record exactly when it is saved. Every failure is swallowed, and no other state changes. |
| `FeedbackRoute.DifferenceInSeconds` | app/api/feedback/route.ts:253-255 | The millisecond difference divided by 1000 and truncated toward zero: bracketed within one second, non-negative for non-negative differences, non-positive for negative ones. |
| `FeedbackRoute.Reconstruct` | app/api/feedback/route.ts:241-268 | The reconstruction policy: either an empty stream or exactly one `append-message` event holding the chat's last message. |
| `FeedbackRoute.ReconstructReplaysRecentAssistant` | app/api/feedback/route.ts:241-268 | The reconstruction gives the `append-message` event iff the last message exists, is an assistant message, and is less than 16000 ms old. So exactly 15 whole seconds, and a negative age, still replay. |
| `FeedbackRoute.StreamIdsOf` | app/api/feedback/route.ts:220 | A chat's stream ids are exactly the ids registered in the table for that chat: every returned id has an entry for the chat, and every entry for the chat has its id returned. |
| `FeedbackRoute.StreamIdsOfAppend` | app/api/feedback/route.ts:220 | Appending to the stream-id table appends to each chat's stream-id list in the same order. |
| `FeedbackRoute.GetDecision` | app/api/feedback/route.ts:183-271 | The whole of GET: a resumed or reconstructed answer needs a context, granted access and at least one stream id for the chat. A resumed stream is the side channel's stream for an id registered for that chat. A reconstructed answer is the reconstruction policy's stream. |
| `FeedbackRoute.GetGuardOrder` | app/api/feedback/route.ts:183-230 | With no context the answer is 204, and only then. After that the order is: (1) missing chat id gives `bad_request:api`; (2) no user gives `unauthorized:chat`; (3) a lookup that throws or returns null gives `not_found:chat`; (4) a private chat whose owner is not the session user gives `forbidden:chat`; (5) with access granted, no stream ids gives `not_found:stream`; (6) a last stream id that is empty also gives `not_found:stream`. |
| `FeedbackRoute.GetTargetsLatestStream` | app/api/feedback/route.ts:226-269 | After the guards, GET resumes the chat's last stream id if the side channel has it, and otherwise applies the reconstruction. An older live stream is never served. |
| `FeedbackRoute.GetAfterPostTargetsNewStream` | app/api/feedback/route.ts:86-239 | After a stream id is registered for a chat, a permitted GET for that chat resumes exactly that stream, or reconstructs. |
| `FeedbackRoute.Server.Get` | app/api/feedback/route.ts:183-271 | The context cache is consulted first and updated like `GetStreamContext`. The outcome is the GET decision over the current stream-id table. |
| `FeedbackRoute.PostThenGet` | app/api/feedback/route.ts:84-239 | A served POST is followed by a permitted GET for the same chat, and each request calls `getStreamContext` itself. GET gets 204 iff POST served the raw stream and GET's retried context creation fails too. Otherwise, when POST had a context or GET's retry created one, GET resumes or reconstructs the stream that POST registered. |
| `MessageActions.WithoutMessage` | components/message-actions.tsx:147-149 | The filter leaves no vote for the message. It keeps every other vote with its multiplicity, as a subsequence in the original order. |
| `MessageActions.UpdateVotes` | components/message-actions.tsx:144-159 | An undefined cache becomes `[]`. Otherwise the result has exactly one vote for the message: it is last, with `isUpvoted` true for up and false for down. Every other vote is kept with its multiplicity and order. |
| `MessageActions.WithoutMessageIdempotent` | components/message-actions.tsx:147-149 | Filtering out a message twice is the same as filtering it once. |
| `MessageActions.WithoutMessageDropsLast` | components/message-actions.tsx:147-158 | A vote for the message appended at the end disappears in the next filter. |
| `MessageActions.UpdateVotesOverrides` | components/message-actions.tsx:147-211 | A second update for the same message overrides the first. The same update twice equals it once, and an upvote followed by a downvote equals the downvote alone. |
| `MessageActions.FindVote` | components/message-actions.tsx:30 | The `vote` prop is a cached vote for the message. It is absent iff no cached vote is for the message. |
| `MessageActions.FindLastOnly` | components/message-actions.tsx:30 | When only the last cached vote is for the message, the lookup finds that vote. |
| `MessageActions.ActionBarFor` | components/message-actions.tsx:71-181 | Nothing is shown iff loading. For a user message, only the feedback button is shown, disabled iff a vote exists and is not upvoted. Otherwise upvote is disabled iff a vote exists and is upvoted, downvote iff a vote exists and is not upvoted, and never both. |
| `MessageActions.VotedButtonDisabled` | components/message-actions.tsx:127-211 | After a vote is cached, the message's vote lookup finds that vote. Exactly the button of the direction just cast is disabled. |
| `Text.Join` | components/message-actions.tsx:104 | `join('\n')`: the empty list joins to the empty string, and a non-empty list's join starts with its first element. `Text.JoinOfLines` and `Text.LinesOfJoin` prove that it and `Text.Lines` are inverses. |
| `Text.JoinOfLines` | components/message-actions.tsx:104 | Joining the line-feed pieces of any string gives the string back. |
| `Text.LinesOfJoin` | components/message-actions.tsx:104 | Splitting the line-feed join of a non-empty list of lines without line feeds gives the list back. |
| `Text.Lines` | components/message-actions.tsx:104 | Splitting at line feeds, the inverse of `Text.Join` with a line feed: it gives at least one piece, and no piece contains a line feed. The copy-text lemma uses it to recover the joined text parts. |
| `Text.TrimIdempotent` | components/message-actions.tsx:105 | Trimming an already trimmed text changes nothing. |
| `MessageActions.TextsOf` | components/message-actions.tsx:101-103 | The texts are exactly those of the text parts: a one-part list gives its text iff it is a text part, and the list is never longer than the parts. |
| `MessageActions.TextsOfAppend` | components/message-actions.tsx:101-103 | The filter and map distribute over concatenation. Together with the one-part case, this fixes the texts and their order. |
| `MessageActions.CopyText` | components/message-actions.tsx:101-110 | The copied text is exactly the text parts joined with line feeds, then trimmed. Nothing is copied iff the message has no parts or that joined text is all white space. A copied text is non-empty and has no leading or trailing white space. |
| `MessageActions.CopyTextRecoversTextParts` | components/message-actions.tsx:101-105 | Take text parts that are non-empty single lines without surrounding white space. The copied text is then their join with line feeds, and splitting it gives back exactly the text parts, in order. |
| `Text.Trim` | components/message-actions.tsx:105 | The result is an infix of the input, and everything dropped before and after it is white space. It starts and ends with a non-space character, which fixes it uniquely. It is empty iff the input is all white space. |
| `MessageActions.CloseArtifact` | components/message-actions.tsx:49-56 | A streaming artifact is kept with only `isVisible` set to false. Any other artifact becomes the initial artifact data with status `idle`. The result is streaming iff the input was. |
| `MessageActions.CloseArtifactIdempotent` | components/message-actions.tsx:49-56 | Applying the transition twice is the same as applying it once. |
| `MessageActions.FeedbackClick` | components/message-actions.tsx:48-69 | The effects run in this order: the artifact transition, clearing the local messages, then (only when `chatId` is non-empty) a user message with empty content and data `{chatId, messageId: message.id, language: locale}`. |
| `MessageActions.FeedbackRequestMatchesSchema` | components/message-actions.tsx:57-67 | The feedback message passes the route's message schema, whatever its parts, iff the chat id and message id are UUIDs and the locale has 1 to 10 characters. |

## Left out

- Prompt texts: the artifacts prompt keeps only the first sentence of its opening line (lib/ai/prompts.ts:5), and the feedback prompt keeps only its opening line (line 137). `codePrompt` and `sheetPrompt` (lines 82-110) are constants that no modelled operation reads; the artifact handlers that use them are not part of this model. No proved property depends on their wording. The regular and language prompts are verbatim.
- `Prompts.ReasoningPromptIgnoresLanguage`: this states the reasoning prompt exactly (regular prompt plus hints). It does not state that the result "never contains the artifacts prompt", because a hint value could itself contain that text.
- Logging: console output is not modelled. That includes the `REDIS_URL` message in `getStreamContext`, whose two catch branches both leave the cache null.
- Streaming internals: `createDataStream`, `streamText`, `smoothStream`, `mergeIntoDataStream`, `consumeStream`, the OpenAI call, telemetry, `after`/`waitUntil`, and concurrent readers of one stream. A served stream is an opaque value.
- The resumable-stream side channel is a map of the streams it can still serve, where a missing id means it returns null. Its own creation of a new stream for an unknown id is not modelled.
- Database queries and `auth()` are inputs. `getStreamIdsByChatId` reads the stream-id table in registration order; the query's own ordering is not part of this model.
- `generateUUID` is an input. So is `appendResponseMessages`, as the parts of the second message it returns, if any.
- `getTrailingMessageId` (lib/utils is not part of this model) is taken as the id of the last message of the assistant-only list.
- `FeedbackRoute.Server.Post`: a throw from `resumableStream` itself after registration is not modelled. It would also give no response.
- `FeedbackRoute.Server.Post`: a throw from `auth()` (route.ts:61) or from `getMessageById` (route.ts:67) is not modelled. Both run outside any `try`, so it would escape the handler like the two modelled crash sites. The user and lookup inputs only express a returned value.
- `FeedbackRoute.Server.Get`: a throw from `getMessagesByChatId`, `getStreamIdsByChatId`, `auth()` or the side channel's `resumableStream` (route.ts:236) is not modelled. It would escape the handler. Only `getChatById`'s throw is caught, and that one is modelled.
- `FeedbackRoute.PostThenGet`: both requests run in one module instance, and no other request touches the cache between them.
- `ChatSDKError.toResponse` status codes (lib/errors is not part of this model): errors are kept as `type:surface` codes.
- `Schema.ParseBody`: lengths count Unicode scalar values, while zod counts UTF-16 code units, so the two differ for characters outside the Basic Multilingual Plane.
- `Schema.IsUuid`: this is the 8-4-4-4-12 hexadecimal shape. Newer zod versions also check the version and variant digits.
- The JSON parse step: `request.json()` is an `Option<Json>`, where None means the body is not JSON. JSON numbers are reals. zod's stripping of unknown keys is the parser reading only the named keys, as the extra-key lemmas state.
- `MessageActions.FindVote`: the parent component's lookup of the `vote` prop is not part of this model. It is taken to be the first cached vote for the message.
- `MessageActions.CloseArtifact`: `initialArtifactData` (hooks/use-artifact is not part of this model) is a parameter. The artifact's other fields are grouped into one component that is copied whole.
- UI plumbing: `fetch('/api/vote')`, toasts, the clipboard, SWR `mutate`, React rendering and the memo comparator. Only the updater passed to `mutate` and the copy-text value are modelled.
- Other files: components/auth-form.tsx, components/lang-selector.tsx, components/suggested-actions.tsx, components/artifact-close-button.tsx (its transition is the one at message-actions.tsx:49-56), next.config.ts, and the older app/(chat)/api/feedback/route.ts variant are not part of this model.
