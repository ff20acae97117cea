/**
 * lib/type-guards.ts: run-time checks that a parsed JSON value has the shape
 * of a `Message`, a `ChatSession` or a `ChatState`. A JavaScript object is a
 * `JObj`; an absent property is a missing key (JSON has no `undefined`).
 * Each guard is paired with the encoding of the typed value it accepts and a
 * reading of an accepted value back into that type.
 */
module TypeGuards {
  import opened Optional
  import opened Json
  import opened ChatTypes

  /** types/chat.ts: the stored state of all conversations. */
  datatype ChatState = ChatState(sessions: seq<ChatSession>, activeSessionId: Option<string>, version: int)

  predicate IsString(v: Option<Json>) { v.Some? && v.value.JStr? }
  predicate IsNumber(v: Option<Json>) { v.Some? && v.value.JNum? }

  /** `isMessage` */
  predicate IsMessage(v: Json) {
    if !v.JObj? then false
    else
      IsString(Get(v, "id"))
      && (Get(v, "role") == Some(JStr("user")) || Get(v, "role") == Some(JStr("assistant")))
      && IsString(Get(v, "content"))
      && IsNumber(Get(v, "timestamp"))
      && (Get(v, "isStreaming").None? || Get(v, "isStreaming").value.JBool?)
  }

  /** `value.every(isMessage)` on an array. */
  predicate AllMessages(items: seq<Json>) {
    forall i :: 0 <= i < |items| ==> IsMessage(items[i])
  }

  /** `isChatSession` */
  predicate IsChatSession(v: Json) {
    if !v.JObj? then false
    else
      IsString(Get(v, "id"))
      && IsString(Get(v, "title"))
      && Get(v, "messages").Some? && Get(v, "messages").value.JArr?
      && AllMessages(Get(v, "messages").value.items)
      && IsNumber(Get(v, "createdAt"))
      && IsNumber(Get(v, "updatedAt"))
  }

  predicate AllSessions(items: seq<Json>) {
    forall i :: 0 <= i < |items| ==> IsChatSession(items[i])
  }

  /** `isChatState`: `activeSessionId` must be present, as `null` or a string. */
  predicate IsChatState(v: Json) {
    if !v.JObj? then false
    else
      Get(v, "sessions").Some? && Get(v, "sessions").value.JArr?
      && AllSessions(Get(v, "sessions").value.items)
      && (Get(v, "activeSessionId") == Some(JNull) || IsString(Get(v, "activeSessionId")))
      && IsNumber(Get(v, "version"))
  }

  // ---------------------------------------------------------------------
  // Encodings of the typed values
  // ---------------------------------------------------------------------

  function RoleName(role: Role): string {
    match role
    case User => "user"
    case Assistant => "assistant"
  }

  function MessageFields(m: Message): map<string, Json> {
    map["id" := JStr(m.id), "role" := JStr(RoleName(m.role)), "content" := JStr(m.content),
        "timestamp" := JNum(m.timestamp)]
  }

  /** A message as `JSON.parse(JSON.stringify(m))` sees it: `isStreaming` only when set. */
  function MessageToJson(m: Message): Json {
    match m.isStreaming
    case None => JObj(MessageFields(m))
    case Some(b) => JObj(MessageFields(m)["isStreaming" := JBool(b)])
  }

  function MessagesToJson(ms: seq<Message>): (r: seq<Json>)
    ensures |r| == |ms|
  {
    seq(|ms|, i requires 0 <= i < |ms| => MessageToJson(ms[i]))
  }

  function SessionToJson(s: ChatSession): Json {
    JObj(map["id" := JStr(s.id), "title" := JStr(s.title), "messages" := JArr(MessagesToJson(s.messages)),
             "createdAt" := JNum(s.createdAt), "updatedAt" := JNum(s.updatedAt)])
  }

  function StateToJson(st: ChatState): Json {
    var sessions := seq(|st.sessions|, i requires 0 <= i < |st.sessions| => SessionToJson(st.sessions[i]));
    JObj(map["sessions" := JArr(sessions),
             "activeSessionId" := (match st.activeSessionId case None => JNull case Some(id) => JStr(id)),
             "version" := JNum(st.version)])
  }

  // ---------------------------------------------------------------------
  // Reading accepted values back
  // ---------------------------------------------------------------------

  function MessageOf(v: Json): Message
    requires IsMessage(v)
  {
    Message(Get(v, "id").value.s,
            if Get(v, "role") == Some(JStr("user")) then User else Assistant,
            Get(v, "content").value.s,
            Get(v, "timestamp").value.n,
            if Get(v, "isStreaming").None? then None else Some(Get(v, "isStreaming").value.b))
  }

  function SessionOf(v: Json): ChatSession
    requires IsChatSession(v)
  {
    var items := Get(v, "messages").value.items;
    ChatSession(Get(v, "id").value.s, Get(v, "title").value.s,
                seq(|items|, i requires 0 <= i < |items| => MessageOf(items[i])),
                Get(v, "createdAt").value.n, Get(v, "updatedAt").value.n)
  }

  // ---------------------------------------------------------------------
  // Properties
  // ---------------------------------------------------------------------

  /** Only objects can pass a guard: `null`, arrays, strings, numbers and booleans fail all three. */
  lemma GuardsRejectNonObjects(v: Json)
    requires !v.JObj?
    ensures !IsMessage(v) && !IsChatSession(v) && !IsChatState(v)
  {
  }

  /** Every message passes `isMessage` once encoded, and reads back as itself. */
  lemma MessageRoundTrip(m: Message)
    ensures IsMessage(MessageToJson(m))
    ensures MessageOf(MessageToJson(m)) == m
  {
    var v := MessageToJson(m);
    assert Get(v, "id") == Some(JStr(m.id));
    assert Get(v, "role") == Some(JStr(RoleName(m.role)));
    assert Get(v, "content") == Some(JStr(m.content));
    assert Get(v, "timestamp") == Some(JNum(m.timestamp));
    assert RoleName(Assistant) != "user";
    match m.isStreaming {
      case None =>
        assert "isStreaming" !in MessageFields(m);
      case Some(b) =>
        assert Get(v, "isStreaming") == Some(JBool(b));
    }
  }

  /** Properties other than the five a message has do not change the verdict of `isMessage`. */
  lemma ExtraFieldsIgnored(fields: map<string, Json>, key: string, extra: Json)
    requires key !in {"id", "role", "content", "timestamp", "isStreaming"}
    ensures IsMessage(JObj(fields[key := extra])) == IsMessage(JObj(fields))
  {
    var v, w := JObj(fields[key := extra]), JObj(fields);
    assert Get(v, "id") == Get(w, "id");
    assert Get(v, "role") == Get(w, "role");
    assert Get(v, "content") == Get(w, "content");
    assert Get(v, "timestamp") == Get(w, "timestamp");
    assert Get(v, "isStreaming") == Get(w, "isStreaming");
  }

  /** A message whose `isStreaming` is present but not a boolean is rejected. */
  lemma NonBooleanStreamingRejected(fields: map<string, Json>)
    requires "isStreaming" in fields && !fields["isStreaming"].JBool?
    ensures !IsMessage(JObj(fields))
  {
    assert Get(JObj(fields), "isStreaming") == Some(fields["isStreaming"]);
  }

  /** Every session passes `isChatSession` once encoded, and reads back as itself. */
  lemma SessionRoundTrip(s: ChatSession)
    ensures IsChatSession(SessionToJson(s))
    ensures SessionOf(SessionToJson(s)) == s
  {
    var v := SessionToJson(s);
    var items := MessagesToJson(s.messages);
    assert Get(v, "messages") == Some(JArr(items));
    forall i | 0 <= i < |items| ensures IsMessage(items[i]) && MessageOf(items[i]) == s.messages[i] {
      MessageRoundTrip(s.messages[i]);
    }
    assert Get(v, "id") == Some(JStr(s.id));
    assert Get(v, "title") == Some(JStr(s.title));
    assert Get(v, "createdAt") == Some(JNum(s.createdAt));
    assert Get(v, "updatedAt") == Some(JNum(s.updatedAt));
  }

  /** A session with no messages passes: `[].every(isMessage)` holds. */
  lemma EmptySessionAccepted(id: string, title: string, createdAt: int, updatedAt: int)
    ensures IsChatSession(JObj(map["id" := JStr(id), "title" := JStr(title), "messages" := JArr([]),
                                   "createdAt" := JNum(createdAt), "updatedAt" := JNum(updatedAt)]))
  {
    SessionRoundTrip(ChatSession(id, title, [], createdAt, updatedAt));
  }

  /** One message failing `isMessage` makes the whole session fail. */
  lemma BadMessageRejectsSession(v: Json, i: nat)
    requires v.JObj? && Get(v, "messages").Some? && Get(v, "messages").value.JArr?
    requires i < |Get(v, "messages").value.items| && !IsMessage(Get(v, "messages").value.items[i])
    ensures !IsChatSession(v)
  {
  }

  /** Every state passes `isChatState` once encoded. */
  lemma StateAccepted(st: ChatState)
    ensures IsChatState(StateToJson(st))
  {
    var v := StateToJson(st);
    var items := seq(|st.sessions|, i requires 0 <= i < |st.sessions| => SessionToJson(st.sessions[i]));
    assert Get(v, "sessions") == Some(JArr(items));
    forall i | 0 <= i < |items| ensures IsChatSession(items[i]) {
      SessionRoundTrip(st.sessions[i]);
    }
    assert Get(v, "version") == Some(JNum(st.version));
  }

  /** A state without an `activeSessionId` property is rejected: absent is not `null`. */
  lemma MissingActiveSessionRejected(fields: map<string, Json>)
    requires "activeSessionId" !in fields
    ensures !IsChatState(JObj(fields))
  {
  }
}
