/** `postRequestBodySchema` of app/api/feedback/schema.ts: which JSON bodies the feedback
    route accepts, as a validity predicate over the parsed body and as the parser from JSON. */
module Schema {
  import opened Wrappers
  import opened Json

  /** Upper bound on a message's `content` length. */
  const MaxContentLength: nat := 2000

  /** Bounds on `data.language` length. */
  const MinLanguageLength: nat := 1
  const MaxLanguageLength: nat := 10

  predicate IsHexDigit(c: char) {
    '0' <= c <= '9' || 'a' <= c <= 'f' || 'A' <= c <= 'F'
  }

  /** Positions of the four hyphens of a UUID. */
  predicate IsUuidHyphenAt(i: int) {
    i == 8 || i == 13 || i == 18 || i == 23
  }

  /** The 8-4-4-4-12 hexadecimal shape of `z.string().uuid()` (either letter case). */
  predicate IsUuid(s: string) {
    && |s| == 36
    && forall i :: 0 <= i < 36 ==> if IsUuidHyphenAt(i) then s[i] == '-' else IsHexDigit(s[i])
  }

  /** `messages[i].data`. */
  datatype FeedbackData = FeedbackData(chatId: string, messageId: string, language: string)

  /** One element of `messages`; `parts` is `z.array(z.any())`. */
  datatype BodyMessage = BodyMessage(role: string, content: string, parts: seq<Json>, data: FeedbackData)

  /** The parsed request body (zod drops keys the schema does not name). */
  datatype PostRequestBody = PostRequestBody(id: string, messages: seq<BodyMessage>)

  predicate ValidData(d: FeedbackData) {
    && IsUuid(d.chatId)
    && IsUuid(d.messageId)
    && MinLanguageLength <= |d.language| <= MaxLanguageLength
  }

  /** The role must be exactly "user"; the content may be empty; the parts are unconstrained. */
  predicate ValidMessage(m: BodyMessage) {
    && m.role == "user"
    && |m.content| <= MaxContentLength
    && ValidData(m.data)
  }

  /** The top-level id is a UUID and every message is valid. There is no lower bound on the
      number of messages and no relation between `id` and any `data.chatId`. */
  predicate ValidBody(b: PostRequestBody) {
    && IsUuid(b.id)
    && forall i :: 0 <= i < |b.messages| ==> ValidMessage(b.messages[i])
  }

  /** The string under `key`, if the object has one there. */
  function StringField(fields: map<string, Json>, key: string): Option<string> {
    if key in fields && fields[key].JStr? then Some(fields[key].s) else None
  }

  /** Parsing `data`: an object whose three string fields meet the constraints. */
  function ParseData(j: Json): (r: Option<FeedbackData>)
    ensures r.Some? ==> ValidData(r.value)
    ensures r.Some? ==> j.JObj? && StringField(j.fields, "chatId") == Some(r.value.chatId)
                        && StringField(j.fields, "messageId") == Some(r.value.messageId)
                        && StringField(j.fields, "language") == Some(r.value.language)
  {
    if !j.JObj? then None
    else
      var chatId := StringField(j.fields, "chatId");
      var messageId := StringField(j.fields, "messageId");
      var language := StringField(j.fields, "language");
      if chatId.None? || messageId.None? || language.None? then None
      else
        var d := FeedbackData(chatId.value, messageId.value, language.value);
        if ValidData(d) then Some(d) else None
  }

  /** Parsing one element of `messages`. */
  function ParseMessage(j: Json): (r: Option<BodyMessage>)
    ensures r.Some? ==> ValidMessage(r.value)
    ensures r.Some? ==> j.JObj? && StringField(j.fields, "role") == Some(r.value.role)
                        && StringField(j.fields, "content") == Some(r.value.content)
                        && "parts" in j.fields && j.fields["parts"] == JArr(r.value.parts)
                        && "data" in j.fields && ParseData(j.fields["data"]) == Some(r.value.data)
  {
    if !j.JObj? then None
    else
      var role := StringField(j.fields, "role");
      var content := StringField(j.fields, "content");
      var data := if "data" in j.fields then ParseData(j.fields["data"]) else None;
      if role.None? || content.None? || data.None? then None
      else if !("parts" in j.fields && j.fields["parts"].JArr?) then None
      else
        var m := BodyMessage(role.value, content.value, j.fields["parts"].items, data.value);
        if ValidMessage(m) then Some(m) else None
  }

  /** Parsing the `messages` array element by element; one bad element fails the whole. */
  function ParseMessages(items: seq<Json>): (r: Option<seq<BodyMessage>>)
    ensures r.Some? ==> |r.value| == |items|
    ensures r.Some? ==> forall i :: 0 <= i < |r.value| ==> ValidMessage(r.value[i])
    ensures r.Some? <==> forall i :: 0 <= i < |items| ==> ParseMessage(items[i]).Some?
    ensures r.Some? ==> forall i :: 0 <= i < |items| ==> Some(r.value[i]) == ParseMessage(items[i])
  {
    if items == [] then Some([])
    else
      var head := ParseMessage(items[0]);
      var tail := ParseMessages(items[1..]);
      if head.None? || tail.None? then None
      else Some([head.value] + tail.value)
  }

  /** `postRequestBodySchema.parse`: a body comes out exactly when the input is an object
      with a UUID string `id` and a `messages` array whose every element parses, and then it
      holds that id and those messages; it is always valid. */
  function ParseBody(j: Json): (r: Option<PostRequestBody>)
    ensures r.Some? ==> ValidBody(r.value)
    ensures r.Some? <==>
      && j.JObj? && StringField(j.fields, "id").Some? && IsUuid(StringField(j.fields, "id").value)
      && "messages" in j.fields && j.fields["messages"].JArr?
      && ParseMessages(j.fields["messages"].items).Some?
    ensures r.Some? ==> Some(r.value.id) == StringField(j.fields, "id")
                        && Some(r.value.messages) == ParseMessages(j.fields["messages"].items)
  {
    if !j.JObj? then None
    else
      var id := StringField(j.fields, "id");
      if id.None? || !IsUuid(id.value) then None
      else if !("messages" in j.fields && j.fields["messages"].JArr?) then None
      else
        var messages := ParseMessages(j.fields["messages"].items);
        if messages.None? then None
        else Some(PostRequestBody(id.value, messages.value))
  }

  /** The JSON a client sends for a parsed body (the encoding `ParseBody` reads). */
  function DataToJson(d: FeedbackData): Json {
    JObj(map["chatId" := JStr(d.chatId), "messageId" := JStr(d.messageId), "language" := JStr(d.language)])
  }

  function MessageToJson(m: BodyMessage): Json {
    JObj(map["role" := JStr(m.role), "content" := JStr(m.content), "parts" := JArr(m.parts),
             "data" := DataToJson(m.data)])
  }

  function MessagesToJson(ms: seq<BodyMessage>): (r: seq<Json>)
    ensures |r| == |ms|
  {
    if ms == [] then [] else [MessageToJson(ms[0])] + MessagesToJson(ms[1..])
  }

  function BodyToJson(b: PostRequestBody): Json {
    JObj(map["id" := JStr(b.id), "messages" := JArr(MessagesToJson(b.messages))])
  }

  /** Parsing an encoded message gives it back exactly when it is valid. */
  lemma ParseMessageOfJson(m: BodyMessage)
    ensures ParseMessage(MessageToJson(m)) == if ValidMessage(m) then Some(m) else None
  {
    var j := MessageToJson(m);
    assert StringField(j.fields, "role") == Some(m.role);
    assert StringField(j.fields, "content") == Some(m.content);
    var dj := DataToJson(m.data);
    assert StringField(dj.fields, "chatId") == Some(m.data.chatId);
    assert StringField(dj.fields, "messageId") == Some(m.data.messageId);
    assert StringField(dj.fields, "language") == Some(m.data.language);
  }

  /** Parsing an encoded list gives it back exactly when every message is valid. */
  lemma {:induction false} ParseMessagesOfJson(ms: seq<BodyMessage>)
    ensures ParseMessages(MessagesToJson(ms))
         == if forall i :: 0 <= i < |ms| ==> ValidMessage(ms[i]) then Some(ms) else None
    decreases |ms|
  {
    if ms != [] {
      ParseMessageOfJson(ms[0]);
      ParseMessagesOfJson(ms[1..]);
      var js := MessagesToJson(ms);
      assert js[0] == MessageToJson(ms[0]) && js[1..] == MessagesToJson(ms[1..]);
      if forall i :: 0 <= i < |ms| ==> ValidMessage(ms[i]) {
        assert forall i :: 0 <= i < |ms[1..]| ==> ValidMessage(ms[1..][i]) by {
          forall i | 0 <= i < |ms[1..]| ensures ValidMessage(ms[1..][i]) {
            assert ms[1..][i] == ms[i + 1];
          }
        }
        assert [ms[0]] + ms[1..] == ms;
      } else {
        var k :| 0 <= k < |ms| && !ValidMessage(ms[k]);
        if k > 0 {
          assert ms[1..][k - 1] == ms[k];
        }
      }
    }
  }

  /** The schema accepts an encoded body exactly when the body is valid, and then parses it
      back unchanged. */
  lemma ParseBodyOfJson(b: PostRequestBody)
    ensures ParseBody(BodyToJson(b)) == if ValidBody(b) then Some(b) else None
  {
    ParseMessagesOfJson(b.messages);
    var j := BodyToJson(b);
    assert StringField(j.fields, "id") == Some(b.id);
    assert j.fields["messages"] == JArr(MessagesToJson(b.messages));
  }

  /** Keys the `data` schema does not name are stripped: adding them changes nothing. */
  lemma ParseDataIgnoresExtraKeys(fields: map<string, Json>, extra: map<string, Json>)
    requires forall k :: k in extra ==> k != "chatId" && k != "messageId" && k != "language"
    ensures ParseData(JObj(fields + extra)) == ParseData(JObj(fields))
  {
    var all := fields + extra;
    assert StringField(all, "chatId") == StringField(fields, "chatId");
    assert StringField(all, "messageId") == StringField(fields, "messageId");
    assert StringField(all, "language") == StringField(fields, "language");
  }

  /** Keys the message schema does not name are stripped: adding them changes nothing. */
  lemma ParseMessageIgnoresExtraKeys(fields: map<string, Json>, extra: map<string, Json>)
    requires forall k :: k in extra ==> k != "role" && k != "content" && k != "parts" && k != "data"
    ensures ParseMessage(JObj(fields + extra)) == ParseMessage(JObj(fields))
  {
    var all := fields + extra;
    assert StringField(all, "role") == StringField(fields, "role");
    assert StringField(all, "content") == StringField(fields, "content");
    assert ("parts" in all) == ("parts" in fields);
    assert ("data" in all) == ("data" in fields);
  }

  /** Keys the body schema does not name are stripped: adding them changes nothing. */
  lemma ParseBodyIgnoresExtraKeys(fields: map<string, Json>, extra: map<string, Json>)
    requires forall k :: k in extra ==> k != "id" && k != "messages"
    ensures ParseBody(JObj(fields + extra)) == ParseBody(JObj(fields))
  {
    var all := fields + extra;
    assert StringField(all, "id") == StringField(fields, "id");
    assert ("messages" in all) == ("messages" in fields);
  }

  /** A client message that carries keys beyond the schema's (`id`, `createdAt`, ...) parses
      to the message its named keys encode, exactly when that message is valid. */
  lemma ClientMessageParses(m: BodyMessage, extra: map<string, Json>)
    requires forall k :: k in extra ==> k != "role" && k != "content" && k != "parts" && k != "data"
    ensures ParseMessage(JObj(MessageToJson(m).fields + extra)) == if ValidMessage(m) then Some(m) else None
  {
    ParseMessageIgnoresExtraKeys(MessageToJson(m).fields, extra);
    ParseMessageOfJson(m);
  }

  /** The validity of a message never depends on its parts: any array of anything passes. */
  lemma PartsAreUnconstrained(m: BodyMessage, parts: seq<Json>)
    ensures ValidMessage(m.(parts := parts)) == ValidMessage(m)
  {
  }

  /** A UUID made of one repeated hexadecimal digit. */
  function UniformUuid(c: char): string {
    seq(8, _ => c) + "-" + seq(4, _ => c) + "-" + seq(4, _ => c) + "-" + seq(4, _ => c) + "-" + seq(12, _ => c)
  }

  lemma UniformUuidIsUuid(c: char)
    requires IsHexDigit(c)
    ensures IsUuid(UniformUuid(c))
  {
    var u := UniformUuid(c);
    forall i | 0 <= i < 36
      ensures if IsUuidHyphenAt(i) then u[i] == '-' else IsHexDigit(u[i])
    {
      if i < 8 {} else if i == 8 {} else if i < 13 {} else if i == 13 {}
      else if i < 18 {} else if i == 18 {} else if i < 23 {} else if i == 23 {} else {}
    }
  }

  /** An empty `messages` array is accepted, and so is a message whose `data.chatId` differs
      from the top-level `id`, and one with empty content. */
  lemma EmptyMessagesAndForeignChatIdAccepted()
    ensures ValidBody(PostRequestBody(UniformUuid('0'), []))
    ensures ValidBody(PostRequestBody(UniformUuid('0'),
              [BodyMessage("user", "", [], FeedbackData(UniformUuid('1'), UniformUuid('2'), "it"))]))
    ensures UniformUuid('0') != UniformUuid('1')
  {
    UniformUuidIsUuid('0');
    UniformUuidIsUuid('1');
    UniformUuidIsUuid('2');
    assert UniformUuid('0')[0] != UniformUuid('1')[0];
  }

  /** Every accepted body has non-empty `id` and, in every message, non-empty `chatId` and
      `messageId` (a UUID has 36 characters). */
  lemma ValidBodyHasIds(b: PostRequestBody)
    requires ValidBody(b)
    ensures b.id != ""
    ensures forall i :: 0 <= i < |b.messages| ==>
      b.messages[i].data.chatId != "" && b.messages[i].data.messageId != ""
  {
  }
}
