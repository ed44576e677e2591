/** app/api/feedback/route.ts: the feedback route. `POST` admits a request through an ordered
    chain of guards, registers a stream id and serves the generation either through the
    resumable-stream context or raw; `GET` resumes the most recent stream of a chat or falls
    back to a reconstruction policy. The module-level stream context, the stream-id table and
    the feedback table are the fields of `Server`; every other I/O result is a parameter. */
module FeedbackRoute {
  import opened Wrappers
  import opened Json
  import Schema
  import Prompts

  // ---------------------------------------------------------------------------------------
  // Errors and collaborators' values

  /** `ChatSDKError` codes, written `type:surface` in the source. */
  datatype ErrorType = BadRequest | Unauthorized | Forbidden | NotFound
  datatype Surface = Api | Chat | Feedback | Stream
  datatype ErrorCode = ErrorCode(errorType: ErrorType, surface: Surface)

  const BadRequestApi := ErrorCode(BadRequest, Api)
  const UnauthorizedFeedback := ErrorCode(Unauthorized, Feedback)
  const NotFoundFeedback := ErrorCode(NotFound, Feedback)
  const UnauthorizedChat := ErrorCode(Unauthorized, Chat)
  const NotFoundChat := ErrorCode(NotFound, Chat)
  const ForbiddenChat := ErrorCode(Forbidden, Chat)
  const NotFoundStream := ErrorCode(NotFound, Stream)

  /** `session.user`; its `id` may be undefined. */
  datatype User = User(id: Option<string>)

  /** A row of the message table: `parts` is stored JSON, `createdAtMs` the creation time. */
  datatype StoredMessage = StoredMessage(id: string, chatId: string, role: string, parts: Json, createdAtMs: int)

  /** A resumable-stream context created by `createResumableStreamContext`. */
  datatype StreamContext = StreamContext(instance: nat)

  /** One call of `createResumableStreamContext`: it returns a context or throws. */
  datatype ContextAttempt = Created(context: StreamContext) | CreateFailed(message: string)

  /** A row of the stream-id table written by `createStreamId`. */
  datatype StreamIdEntry = StreamIdEntry(streamId: string, chatId: string)

  /** An opaque readable stream handed out by the resumable-stream side channel. */
  datatype StreamToken = StreamToken(handle: nat)

  /** What `createStreamId` did: stored the row, or threw (a `ChatSDKError` with its code,
      or anything else). */
  datatype Registration = Registered | RegistrationFailed(sdkError: Option<ErrorCode>)

  // ---------------------------------------------------------------------------------------
  // The lazily cached stream context (route.ts:16-35)

  /** One call of `getStreamContext`: a cached context is returned unchanged; otherwise a
      creation is tried, and a failure leaves the cache empty. */
  function NextContext(cached: Option<StreamContext>, attempt: ContextAttempt): (r: Option<StreamContext>)
    ensures cached.Some? ==> r == cached
    ensures cached.None? ==> (r.Some? <==> attempt.Created?)
    ensures cached.None? && attempt.Created? ==> r == Some(attempt.context)
  {
    if cached.Some? then cached
    else if attempt.Created? then Some(attempt.context)
    else None
  }

  /** The cache after a sequence of `getStreamContext` calls. */
  function ContextAfter(cached: Option<StreamContext>, attempts: seq<ContextAttempt>): Option<StreamContext>
    decreases |attempts|
  {
    if attempts == [] then cached else ContextAfter(NextContext(cached, attempts[0]), attempts[1..])
  }

  /** The first context that any attempt created. */
  function FirstCreated(attempts: seq<ContextAttempt>): (r: Option<StreamContext>)
    ensures r.Some? <==> exists i :: 0 <= i < |attempts| && attempts[i].Created?
    ensures r.Some? ==> exists i :: 0 <= i < |attempts| && attempts[i] == Created(r.value)
                                     && forall j :: 0 <= j < i ==> attempts[j].CreateFailed?
  {
    if attempts == [] then None
    else if attempts[0].Created? then Some(attempts[0].context)
    else
      var r := FirstCreated(attempts[1..]);
      assert r.Some? ==> exists i :: 0 <= i < |attempts| && attempts[i] == Created(r.value)
                                     && forall j :: 0 <= j < i ==> attempts[j].CreateFailed? by {
        if r.Some? {
          var i :| 0 <= i < |attempts[1..]| && attempts[1..][i] == Created(r.value)
                   && forall j :: 0 <= j < i ==> attempts[1..][j].CreateFailed?;
          assert attempts[i + 1] == Created(r.value);
          assert forall j :: 0 <= j < i + 1 ==> attempts[j].CreateFailed? by {
            forall j | 0 <= j < i + 1 ensures attempts[j].CreateFailed? {
              if j > 0 { assert attempts[j] == attempts[1..][j - 1]; }
            }
          }
        }
      }
      r
  }

  /** Once the context is set, no later call replaces it. */
  lemma {:induction false} ContextNeverReplaced(cached: Option<StreamContext>, attempts: seq<ContextAttempt>)
    requires cached.Some?
    ensures ContextAfter(cached, attempts) == cached
    decreases |attempts|
  {
    if attempts != [] {
      ContextNeverReplaced(NextContext(cached, attempts[0]), attempts[1..]);
    }
  }

  /** From an empty cache, failed creations are retried until one succeeds, and that first
      success is kept. */
  lemma {:induction false} ContextIsFirstSuccess(attempts: seq<ContextAttempt>)
    ensures ContextAfter(None, attempts) == FirstCreated(attempts)
    decreases |attempts|
  {
    if attempts != [] {
      if attempts[0].Created? {
        ContextNeverReplaced(Some(attempts[0].context), attempts[1..]);
      } else {
        ContextIsFirstSuccess(attempts[1..]);
      }
    }
  }

  // ---------------------------------------------------------------------------------------
  // POST (route.ts:38-181)

  /** Where `POST` throws outside its `try`: `messages[0]` of an empty array (line 51), and
      `message[0]` of an empty lookup result (line 73). */
  datatype CrashSite = NoRequestMessage | NoStoredMessage

  /** An admitted request: the chat id is the body's top-level `id`, the message id and
      language come from `messages[0].data`, the content from the stored message. */
  datatype FeedbackRequest = FeedbackRequest(
    chatId: string, messageId: string, language: string, content: Json, user: User)

  datatype Admission = Rejected(code: ErrorCode) | Crashed(site: CrashSite) | Admitted(request: FeedbackRequest)

  /** What the served response streams: the resumable wrapper keyed by the stream id, or the
      raw data stream. */
  datatype ServedBody = ResumableWrapper(streamId: string, context: StreamContext) | RawStream

  /** The outcome of `POST`: an error response, an exception that escapes the handler, no
      response at all (a non-`ChatSDKError` caught at line 176), or a served stream. */
  datatype PostOutcome =
    | PostError(code: ErrorCode)
    | PostCrash(site: CrashSite)
    | NoResponse
    | Serve(streamId: string, request: FeedbackRequest, body: ServedBody)

  /** What the model call receives: the feedback system prompt and one user message. */
  datatype Generation = Generation(system: string, userContent: Json)

  /** The content of a stored message: `parts[0].text`, provided `parts` is an array whose
      first element is an object with a `text` key (route.ts:73-77). */
  function ExtractContent(parts: Json): (r: Option<Json>)
    ensures !parts.JArr? || parts.items == [] ==> r.None?
    ensures r.Some? ==> parts.items[0].JObj? && "text" in parts.items[0].fields
                        && r.value == parts.items[0].fields["text"]
  {
    if parts.JArr? && |parts.items| > 0 && parts.items[0].JObj? && "text" in parts.items[0].fields
    then Some(parts.items[0].fields["text"])
    else None
  }

  /** The stored parts yield a truthy content (the guard at route.ts:80). */
  predicate ContentAccepted(parts: Json) {
    ExtractContent(parts).Some? && Truthy(ExtractContent(parts).value)
  }

  /** Only the first part is ever read: later parts never change the content. */
  lemma ContentFromFirstPartOnly(first: Json, rest1: seq<Json>, rest2: seq<Json>)
    ensures ExtractContent(JArr([first] + rest1)) == ExtractContent(JArr([first] + rest2))
    ensures ExtractContent(JArr([first] + rest1)).Some?
        <==> first.JObj? && "text" in first.fields
    ensures ExtractContent(JArr([first] + rest1)).Some?
        ==> ExtractContent(JArr([first] + rest1)).value == first.fields["text"]
  {
  }

  /** The guard chain of `POST`, lines 40-82, in source order. `raw` is what
      `request.json()` produced (None: not JSON); `lookup` is what `getMessageById`
      returned for the requested message id. */
  function Admit(raw: Option<Json>, user: Option<User>, lookup: Option<seq<StoredMessage>>): (r: Admission)
    ensures r.Admitted? <==>
      && ParsedBody(raw).Some? && ParsedBody(raw).value.messages != []
      && user.Some? && lookup.Some? && lookup.value != []
      && ContentAccepted(lookup.value[0].parts)
    ensures r.Admitted? ==>
      && r.request.chatId == ParsedBody(raw).value.id
      && r.request.messageId == ParsedBody(raw).value.messages[0].data.messageId
      && r.request.language == ParsedBody(raw).value.messages[0].data.language
      && Some(r.request.content) == ExtractContent(lookup.value[0].parts)
      && r.request.user == user.value
    ensures r.Rejected? ==> r.code in {BadRequestApi, UnauthorizedFeedback, NotFoundFeedback}
  {
    var body := if raw.Some? then Schema.ParseBody(raw.value) else None;
    if body.None? then Rejected(BadRequestApi)
    else if |body.value.messages| == 0 then Crashed(NoRequestMessage)
    else
      Schema.ValidBodyHasIds(body.value);
      var chatId := body.value.id;
      var messageId := body.value.messages[0].data.messageId;
      var language := body.value.messages[0].data.language;
      if chatId == "" || messageId == "" then Rejected(BadRequestApi)
      else if user.None? then Rejected(UnauthorizedFeedback)
      else if lookup.None? then Rejected(NotFoundFeedback)
      else if |lookup.value| == 0 then Crashed(NoStoredMessage)
      else
        var content := ExtractContent(lookup.value[0].parts);
        if content.None? || !Truthy(content.value) then Rejected(BadRequestApi)
        else Admitted(FeedbackRequest(chatId, messageId, language, content.value, user.value))
  }

  /** The whole of `POST` given the values its I/O produces; `context` is what
      `getStreamContext` returns once the stream id is registered. */
  function PostDecision(raw: Option<Json>, user: Option<User>, lookup: Option<seq<StoredMessage>>,
                        streamId: string, registration: Registration, context: Option<StreamContext>): (r: PostOutcome)
    ensures r.Serve? <==> Admit(raw, user, lookup).Admitted? && registration == Registered
    ensures r.Serve? ==>
      && r.streamId == streamId && r.request == Admit(raw, user, lookup).request
      && r.body == if context.Some? then ResumableWrapper(streamId, context.value) else RawStream
  {
    match Admit(raw, user, lookup)
    case Rejected(code) => PostError(code)
    case Crashed(site) => PostCrash(site)
    case Admitted(request) =>
      match registration
      case RegistrationFailed(Some(code)) => PostError(code)
      case RegistrationFailed(None) => NoResponse
      case Registered =>
        Serve(streamId, request, if context.Some? then ResumableWrapper(streamId, context.value) else RawStream)
  }

  /** The generation an admitted request starts. */
  function GenerationOf(request: FeedbackRequest): Generation {
    Generation(Prompts.SystemPromptForFeedback(request.language), request.content)
  }

  /** The body `POST` parsed, if any. */
  function ParsedBody(raw: Option<Json>): Option<Schema.PostRequestBody> {
    if raw.Some? then Schema.ParseBody(raw.value) else None
  }

  /** The guards run in a fixed order and each failing one decides the response, whatever
      the later inputs are. */
  lemma PostGuardOrder(raw: Option<Json>, user: Option<User>, lookup: Option<seq<StoredMessage>>,
                       streamId: string, registration: Registration, context: Option<StreamContext>)
    ensures var out := PostDecision(raw, user, lookup, streamId, registration, context);
      var body := ParsedBody(raw);
      && (body.None? ==> out == PostError(BadRequestApi))
      && (body.Some? && body.value.messages == [] ==> out == PostCrash(NoRequestMessage))
      && ((body.Some? && body.value.messages != [] && user.None?) ==>
            out == PostError(UnauthorizedFeedback))
      && ((body.Some? && body.value.messages != [] && user.Some? && lookup.None?) ==>
            out == PostError(NotFoundFeedback))
      && ((body.Some? && body.value.messages != [] && user.Some? && lookup == Some([])) ==>
            out == PostCrash(NoStoredMessage))
      && ((body.Some? && body.value.messages != [] && user.Some? && lookup.Some? && lookup.value != []
           && !ContentAccepted(lookup.value[0].parts)) ==>
            out == PostError(BadRequestApi))
  {
    var body := ParsedBody(raw);
    if body.Some? && body.value.messages != [] {
      Schema.ValidBodyHasIds(body.value);
    }
  }

  /** `POST` serves a stream exactly when every guard passes and the stream id was
      registered; then the request carries the body's `id`, the first message's id and
      language, and the stored message's first text. */
  lemma PostServesExactlyAdmissible(raw: Option<Json>, user: Option<User>, lookup: Option<seq<StoredMessage>>,
                                    streamId: string, registration: Registration, context: Option<StreamContext>)
    ensures var out := PostDecision(raw, user, lookup, streamId, registration, context);
      var body := ParsedBody(raw);
      out.Serve? <==>
        && body.Some? && body.value.messages != []
        && user.Some? && lookup.Some? && lookup.value != []
        && ContentAccepted(lookup.value[0].parts)
        && registration == Registered
    ensures var out := PostDecision(raw, user, lookup, streamId, registration, context);
      var body := ParsedBody(raw);
      out.Serve? ==>
        && out.request.chatId == body.value.id
        && out.request.messageId == body.value.messages[0].data.messageId
        && out.request.language == body.value.messages[0].data.language
        && Some(out.request.content) == ExtractContent(lookup.value[0].parts)
        && GenerationOf(out.request).system == Prompts.SystemPromptForFeedback(body.value.messages[0].data.language)
  {
    var body := ParsedBody(raw);
    if body.Some? && body.value.messages != [] {
      Schema.ValidBodyHasIds(body.value);
    }
  }

  /** A served stream is keyed by the registered stream id: the resumable wrapper when the
      context exists, the raw stream otherwise. */
  lemma ServedStreamIsRegisteredStream(raw: Option<Json>, user: Option<User>, lookup: Option<seq<StoredMessage>>,
                                       streamId: string, registration: Registration, context: Option<StreamContext>)
    requires PostDecision(raw, user, lookup, streamId, registration, context).Serve?
    ensures var out := PostDecision(raw, user, lookup, streamId, registration, context);
      && out.streamId == streamId
      && (out.body.ResumableWrapper? <==> context.Some?)
      && (out.body.ResumableWrapper? ==> out.body.streamId == streamId && Some(out.body.context) == context)
  {
  }

  /** Every error response of `POST` is one of the three guard codes, or the code of the
      `ChatSDKError` that `createStreamId` threw. */
  lemma PostErrorCodes(raw: Option<Json>, user: Option<User>, lookup: Option<seq<StoredMessage>>,
                       streamId: string, registration: Registration, context: Option<StreamContext>)
    ensures var out := PostDecision(raw, user, lookup, streamId, registration, context);
      out.PostError? ==>
        out.code in {BadRequestApi, UnauthorizedFeedback, NotFoundFeedback}
        || registration == RegistrationFailed(Some(out.code))
    ensures var out := PostDecision(raw, user, lookup, streamId, registration, context);
      out.NoResponse? <==> Admit(raw, user, lookup).Admitted? && registration == RegistrationFailed(None)
  {
  }

  // ---------------------------------------------------------------------------------------
  // onFinish persistence (route.ts:102-146)

  /** One message of the generation's response. */
  datatype ResponseMessage = ResponseMessage(id: string, role: string)

  /** A row of the feedback table. */
  datatype FeedbackRecord = FeedbackRecord(id: string, messageId: string, chatId: string, contents: seq<Json>)

  /** Why the `try` in `onFinish` gave up; every reason is caught and logged. */
  datatype FinishFailure = NoAssistantMessage | NoAppendedAssistant | SaveFailed

  datatype FinishEffect = NotAttempted | Swallowed(failure: FinishFailure) | Saved(record: FeedbackRecord)

  /** The id of the last assistant message, as `getTrailingMessageId` of the assistant-only
      filter gives it. */
  function TrailingAssistantId(messages: seq<ResponseMessage>): (r: Option<string>)
    ensures r.None? <==> forall i :: 0 <= i < |messages| ==> messages[i].role != "assistant"
    ensures r.Some? ==> exists i :: 0 <= i < |messages| && messages[i].role == "assistant"
                          && messages[i].id == r.value
                          && forall j :: i < j < |messages| ==> messages[j].role != "assistant"
  {
    if messages == [] then None
    else if messages[|messages| - 1].role == "assistant" then Some(messages[|messages| - 1].id)
    else
      var front := messages[..|messages| - 1];
      var r := TrailingAssistantId(front);
      assert forall i :: 0 <= i < |front| ==> messages[i] == front[i];
      r
  }

  /** `onFinish`: nothing is tried without a truthy user id; a missing assistant message, a
      missing appended message or a failed save is swallowed; otherwise the record of the
      request's message and chat is saved. `appendedAssistantParts` is the `parts` of the
      second message `appendResponseMessages` returns, if there is one. */
  function FinishEffectOf(request: FeedbackRequest, responseMessages: seq<ResponseMessage>,
                          appendedAssistantParts: Option<seq<Json>>, recordId: string, saveSucceeds: bool): (e: FinishEffect)
    ensures e.NotAttempted? <==> request.user.id.None? || request.user.id.value == ""
    ensures e.Saved? ==> e.record.id == recordId
  {
    if request.user.id.None? || request.user.id.value == "" then NotAttempted
    else
      var assistantId := TrailingAssistantId(responseMessages);
      if assistantId.None? || assistantId.value == "" then Swallowed(NoAssistantMessage)
      else if appendedAssistantParts.None? then Swallowed(NoAppendedAssistant)
      else if !saveSucceeds then Swallowed(SaveFailed)
      else Saved(FeedbackRecord(recordId, request.messageId, request.chatId, appendedAssistantParts.value))
  }

  /** A record is saved exactly when the user has an id, the response has an assistant
      message, the append produced it and the save went through; it carries the request's
      message id and chat id. */
  lemma FinishSavesTaggedRecord(request: FeedbackRequest, responseMessages: seq<ResponseMessage>,
                                appendedAssistantParts: Option<seq<Json>>, recordId: string, saveSucceeds: bool)
    ensures var e := FinishEffectOf(request, responseMessages, appendedAssistantParts, recordId, saveSucceeds);
      e.Saved? <==>
        && request.user.id.Some? && request.user.id.value != ""
        && (exists i :: 0 <= i < |responseMessages| && responseMessages[i].role == "assistant")
        && TrailingAssistantId(responseMessages).value != ""
        && appendedAssistantParts.Some? && saveSucceeds
    ensures var e := FinishEffectOf(request, responseMessages, appendedAssistantParts, recordId, saveSucceeds);
      e.Saved? ==> e.record.messageId == request.messageId && e.record.chatId == request.chatId
                   && e.record.contents == appendedAssistantParts.value
  {
  }

  // ---------------------------------------------------------------------------------------
  // GET (route.ts:183-272)

  /** A row of the chat table. */
  datatype ChatRecord = ChatRecord(id: string, userId: string, visibility: string)

  /** What `getChatById` did: threw, or returned a chat or nothing. */
  datatype ChatLookup = ChatLookupThrew | ChatLookupReturned(chat: Option<ChatRecord>)

  /** A data-stream event written by the reconstruction: `append-message` with the message. */
  datatype WireEvent = AppendMessageEvent(message: StoredMessage)

  /** The outcome of `GET`: 204 without a context, an error response, the side channel's
      stream for the chat's latest stream id, or a 200 data stream built by the
      reconstruction policy. */
  datatype GetOutcome =
    | NoContent
    | GetError(code: ErrorCode)
    | Resumed(streamId: string, stream: StreamToken)
    | Reconstructed(events: seq<WireEvent>)

  /** The staleness threshold of the reconstruction policy, in whole seconds. */
  const StaleAfterSeconds: int := 15

  /** `differenceInSeconds(later, earlier)` of date-fns: the millisecond difference divided
      by 1000 and truncated toward zero. */
  function DifferenceInSeconds(laterMs: int, earlierMs: int): (r: int)
    ensures r * 1000 <= laterMs - earlierMs < (r + 1) * 1000 || laterMs - earlierMs < 0
    ensures laterMs - earlierMs >= 0 ==> r >= 0
    ensures laterMs - earlierMs < 0 ==> r <= 0 && (r - 1) * 1000 < laterMs - earlierMs <= r * 1000
  {
    var d := laterMs - earlierMs;
    if d >= 0 then d / 1000 else -((-d) / 1000)
  }

  /** The reconstruction policy (lines 241-268) when the side channel returns nothing. */
  function Reconstruct(messages: seq<StoredMessage>, requestedAtMs: int): (events: seq<WireEvent>)
    ensures events == [] || (messages != [] && events == [AppendMessageEvent(messages[|messages| - 1])])
  {
    if messages == [] then []
    else
      var last := messages[|messages| - 1];
      if last.role != "assistant" then []
      else if DifferenceInSeconds(requestedAtMs, last.createdAtMs) > StaleAfterSeconds then []
      else [AppendMessageEvent(last)]
  }

  /** The reconstruction replays the last message, as exactly one `append-message` event,
      precisely when it is an assistant message created less than 16000 ms before the
      request (so 15 whole seconds, and any negative age, still replay); otherwise the
      stream is empty. */
  lemma ReconstructReplaysRecentAssistant(messages: seq<StoredMessage>, requestedAtMs: int)
    ensures var events := Reconstruct(messages, requestedAtMs);
      events == [] || (messages != [] && events == [AppendMessageEvent(messages[|messages| - 1])])
    ensures var events := Reconstruct(messages, requestedAtMs);
      events != [] <==>
        && messages != []
        && messages[|messages| - 1].role == "assistant"
        && requestedAtMs - messages[|messages| - 1].createdAtMs < 16000
  {
    if messages != [] {
      var last := messages[|messages| - 1];
      var d := DifferenceInSeconds(requestedAtMs, last.createdAtMs);
      if requestedAtMs - last.createdAtMs < 16000 {
        assert d <= 15;
      } else {
        assert d >= 16;
      }
    }
  }

  /** The stream ids of a chat, in registration order (`getStreamIdsByChatId`). */
  function StreamIdsOf(log: seq<StreamIdEntry>, chatId: string): (ids: seq<string>)
    ensures |ids| <= |log|
    ensures forall id :: id in ids ==> StreamIdEntry(id, chatId) in log
    ensures forall i :: 0 <= i < |log| && log[i].chatId == chatId ==> log[i].streamId in ids
  {
    if log == [] then []
    else (if log[0].chatId == chatId then [log[0].streamId] else []) + StreamIdsOf(log[1..], chatId)
  }

  /** Appending to the table appends to every chat's id list. */
  lemma {:induction false} StreamIdsOfAppend(log: seq<StreamIdEntry>, more: seq<StreamIdEntry>, chatId: string)
    ensures StreamIdsOf(log + more, chatId) == StreamIdsOf(log, chatId) + StreamIdsOf(more, chatId)
    decreases |log|
  {
    if log == [] {
      assert log + more == more;
    } else {
      StreamIdsOfAppend(log[1..], more, chatId);
      assert (log + more)[1..] == log[1..] + more;
    }
  }

  /** The whole of `GET` given the values its I/O produces; `context` is what
      `getStreamContext` returned, `live` the streams the side channel can still serve. */
  function GetDecision(context: Option<StreamContext>, chatIdParam: Option<string>, user: Option<User>,
                       chat: ChatLookup, log: seq<StreamIdEntry>, live: map<string, StreamToken>,
                       messages: seq<StoredMessage>, requestedAtMs: int): (r: GetOutcome)
    ensures r.Resumed? || r.Reconstructed? ==>
      context.Some? && GetAccessGranted(chatIdParam, user, chat) && StreamIdsOf(log, chatIdParam.value) != []
    ensures r.Resumed? ==>
      r.streamId in live && r.stream == live[r.streamId] && StreamIdEntry(r.streamId, chatIdParam.value) in log
    ensures r.Reconstructed? ==> r.events == Reconstruct(messages, requestedAtMs)
  {
    if context.None? then NoContent
    else if chatIdParam.None? || chatIdParam.value == "" then GetError(BadRequestApi)
    else if user.None? then GetError(UnauthorizedChat)
    else if chat.ChatLookupThrew? || chat.chat.None? then GetError(NotFoundChat)
    else if chat.chat.value.visibility == "private" && Some(chat.chat.value.userId) != user.value.id then
      GetError(ForbiddenChat)
    else
      var ids := StreamIdsOf(log, chatIdParam.value);
      if ids == [] then GetError(NotFoundStream)
      else
        var recent := ids[|ids| - 1];
        if recent == "" then GetError(NotFoundStream)
        else if recent in live then Resumed(recent, live[recent])
        else Reconstructed(Reconstruct(messages, requestedAtMs))
  }

  /** True when `GET`'s access guards (chat id, user, chat lookup, visibility) all pass. */
  predicate GetAccessGranted(chatIdParam: Option<string>, user: Option<User>, chat: ChatLookup) {
    && chatIdParam.Some? && chatIdParam.value != ""
    && user.Some?
    && chat.ChatLookupReturned? && chat.chat.Some?
    && !(chat.chat.value.visibility == "private" && Some(chat.chat.value.userId) != user.value.id)
  }

  /** Without a context the answer is 204 before anything else is looked at; with one, the
      guards answer in order (chat id, user, chat lookup, visibility); a chat without stream
      ids is `not_found:stream`. */
  lemma GetGuardOrder(context: Option<StreamContext>, chatIdParam: Option<string>, user: Option<User>,
                      chat: ChatLookup, log: seq<StreamIdEntry>, live: map<string, StreamToken>,
                      messages: seq<StoredMessage>, requestedAtMs: int)
    ensures var out := GetDecision(context, chatIdParam, user, chat, log, live, messages, requestedAtMs);
      && (context.None? <==> out == NoContent)
      && ((context.Some? && (chatIdParam.None? || chatIdParam == Some(""))) ==>
            out == GetError(BadRequestApi))
      && ((context.Some? && chatIdParam.Some? && chatIdParam.value != "" && user.None?) ==>
            out == GetError(UnauthorizedChat))
      && ((context.Some? && chatIdParam.Some? && chatIdParam.value != "" && user.Some?
           && (chat == ChatLookupThrew || chat == ChatLookupReturned(None))) ==>
            out == GetError(NotFoundChat))
      && ((context.Some? && chatIdParam.Some? && chatIdParam.value != "" && user.Some?
           && chat.ChatLookupReturned? && chat.chat.Some? && chat.chat.value.visibility == "private"
           && Some(chat.chat.value.userId) != user.value.id) ==>
            out == GetError(ForbiddenChat))
      && ((context.Some? && GetAccessGranted(chatIdParam, user, chat)
           && StreamIdsOf(log, chatIdParam.value) == []) ==>
            out == GetError(NotFoundStream))
      && ((context.Some? && GetAccessGranted(chatIdParam, user, chat)
           && StreamIdsOf(log, chatIdParam.value) != []
           && StreamIdsOf(log, chatIdParam.value)[|StreamIdsOf(log, chatIdParam.value)| - 1] == "") ==>
            out == GetError(NotFoundStream))
  {
  }

  /** Resumption only ever targets the chat's most recently registered stream id: a live
      older stream is never served, and when the latest is not live the reconstruction
      policy answers. */
  lemma GetTargetsLatestStream(context: Option<StreamContext>, chatIdParam: Option<string>, user: Option<User>,
                               chat: ChatLookup, log: seq<StreamIdEntry>, live: map<string, StreamToken>,
                               messages: seq<StoredMessage>, requestedAtMs: int)
    requires context.Some? && GetAccessGranted(chatIdParam, user, chat)
    requires var ids := StreamIdsOf(log, chatIdParam.value); ids != [] && ids[|ids| - 1] != ""
    ensures var ids := StreamIdsOf(log, chatIdParam.value);
      var latest := ids[|ids| - 1];
      GetDecision(context, chatIdParam, user, chat, log, live, messages, requestedAtMs)
        == if latest in live then Resumed(latest, live[latest])
           else Reconstructed(Reconstruct(messages, requestedAtMs))
  {
  }

  /** After `POST` registers a stream for a chat, a `GET` for that chat targets exactly that
      stream: it resumes it if the side channel still has it and reconstructs otherwise. */
  lemma {:induction false} GetAfterPostTargetsNewStream(
    log: seq<StreamIdEntry>, streamId: string, context: Option<StreamContext>, chatId: string,
    user: Option<User>, chat: ChatLookup, live: map<string, StreamToken>,
    messages: seq<StoredMessage>, requestedAtMs: int)
    requires context.Some? && GetAccessGranted(Some(chatId), user, chat)
    requires streamId != ""
    ensures GetDecision(context, Some(chatId), user, chat, log + [StreamIdEntry(streamId, chatId)], live, messages, requestedAtMs)
         == if streamId in live then Resumed(streamId, live[streamId])
            else Reconstructed(Reconstruct(messages, requestedAtMs))
  {
    StreamIdsOfAppend(log, [StreamIdEntry(streamId, chatId)], chatId);
    assert StreamIdsOf([StreamIdEntry(streamId, chatId)], chatId) == [streamId];
  }

  // ---------------------------------------------------------------------------------------
  // The route's state

  /** The route module: the cached stream context and the two tables it writes. */
  class Server {
    /** `globalStreamContext`. */
    var globalStreamContext: Option<StreamContext>
    /** The stream-id table, in registration order. */
    var streamIdLog: seq<StreamIdEntry>
    /** The feedback table, in save order. */
    var feedbackLog: seq<FeedbackRecord>

    constructor ()
      ensures globalStreamContext == None && streamIdLog == [] && feedbackLog == []
    {
      globalStreamContext := None;
      streamIdLog := [];
      feedbackLog := [];
    }

    /** `getStreamContext`. */
    method GetStreamContext(attempt: ContextAttempt) returns (context: Option<StreamContext>)
      modifies this`globalStreamContext
      ensures context == globalStreamContext == NextContext(old(globalStreamContext), attempt)
      ensures old(globalStreamContext).Some? ==> globalStreamContext == old(globalStreamContext)
      ensures old(globalStreamContext).None? && attempt.CreateFailed? ==> globalStreamContext.None?
    {
      if globalStreamContext.None? {
        match attempt {
          case Created(c) => globalStreamContext := Some(c);
          case CreateFailed(_) =>
        }
      }
      context := globalStreamContext;
    }

    /** `POST`: the stream id is registered once, after every guard passes, and only then
        is the context looked up. */
    method Post(raw: Option<Json>, user: Option<User>, lookup: Option<seq<StoredMessage>>,
                streamId: string, registration: Registration, attempt: ContextAttempt)
      returns (out: PostOutcome)
      modifies this`globalStreamContext, this`streamIdLog
      ensures out == PostDecision(raw, user, lookup, streamId, registration,
                                  NextContext(old(globalStreamContext), attempt))
      ensures streamIdLog == old(streamIdLog) + (if out.Serve? then [StreamIdEntry(streamId, out.request.chatId)] else [])
      ensures globalStreamContext == if out.Serve? then NextContext(old(globalStreamContext), attempt)
                                     else old(globalStreamContext)
    {
      var admission := Admit(raw, user, lookup);
      match admission {
        case Rejected(code) =>
          out := PostError(code);
        case Crashed(site) =>
          out := PostCrash(site);
        case Admitted(request) =>
          match registration {
            case RegistrationFailed(sdkError) =>
              out := if sdkError.Some? then PostError(sdkError.value) else NoResponse;
            case Registered =>
              streamIdLog := streamIdLog + [StreamIdEntry(streamId, request.chatId)];
              var context := GetStreamContext(attempt);
              var body := if context.Some? then ResumableWrapper(streamId, context.value) else RawStream;
              out := Serve(streamId, request, body);
          }
      }
    }

    /** The `onFinish` callback of a served request: appends the record when it is saved and
        changes nothing else (the response was already decided). */
    method OnFinish(request: FeedbackRequest, responseMessages: seq<ResponseMessage>,
                    appendedAssistantParts: Option<seq<Json>>, recordId: string, saveSucceeds: bool)
      modifies this`feedbackLog
      ensures var e := FinishEffectOf(request, responseMessages, appendedAssistantParts, recordId, saveSucceeds);
        feedbackLog == old(feedbackLog) + (if e.Saved? then [e.record] else [])
    {
      var e := FinishEffectOf(request, responseMessages, appendedAssistantParts, recordId, saveSucceeds);
      if e.Saved? {
        feedbackLog := feedbackLog + [e.record];
      }
    }

    /** `GET`: the context is looked up first; the stream ids come from the table. */
    method Get(attempt: ContextAttempt, chatIdParam: Option<string>, user: Option<User>, chat: ChatLookup,
               live: map<string, StreamToken>, messages: seq<StoredMessage>, requestedAtMs: int)
      returns (out: GetOutcome)
      modifies this`globalStreamContext
      ensures globalStreamContext == NextContext(old(globalStreamContext), attempt)
      ensures out == GetDecision(globalStreamContext, chatIdParam, user, chat, streamIdLog, live,
                                 messages, requestedAtMs)
    {
      var context := GetStreamContext(attempt);
      out := GetDecision(context, chatIdParam, user, chat, streamIdLog, live, messages, requestedAtMs);
    }
  }

  /** A client of `Server`: a served `POST` for a chat followed by a `GET` for the same
      chat, with access granted. Each request calls `getStreamContext` itself, so a `GET`
      after a raw-served `POST` retries creating the context: it gets 204 only when that
      retry fails too, and otherwise resumes or reconstructs the stream that `POST`
      registered, as it does whenever `POST` already had a context. */
  method PostThenGet(server: Server, raw: Option<Json>, user: Option<User>, lookup: Option<seq<StoredMessage>>,
                     streamId: string, postAttempt: ContextAttempt, getAttempt: ContextAttempt, chat: ChatLookup,
                     live: map<string, StreamToken>, messages: seq<StoredMessage>, requestedAtMs: int)
    returns (posted: PostOutcome, resumed: GetOutcome)
    requires streamId != ""
    requires ParsedBody(raw).Some? ==> GetAccessGranted(Some(ParsedBody(raw).value.id), user, chat)
    modifies server
    ensures posted.Serve? && posted.body.RawStream? && getAttempt.CreateFailed? ==> resumed == NoContent
    ensures posted.Serve? && (posted.body.ResumableWrapper? || getAttempt.Created?) ==>
      resumed == if streamId in live then Resumed(streamId, live[streamId])
                 else Reconstructed(Reconstruct(messages, requestedAtMs))
  {
    posted := server.Post(raw, user, lookup, streamId, Registered, postAttempt);
    var postContext := server.globalStreamContext;
    resumed := server.Get(getAttempt, if posted.Serve? then Some(posted.request.chatId) else None,
                          user, chat, live, messages, requestedAtMs);
    if posted.Serve? && server.globalStreamContext.Some? {
      PostServesExactlyAdmissible(raw, user, lookup, streamId, Registered, postContext);
      GetAfterPostTargetsNewStream(old(server.streamIdLog), streamId, server.globalStreamContext,
                                   posted.request.chatId, user, chat, live, messages, requestedAtMs);
    }
  }
}
