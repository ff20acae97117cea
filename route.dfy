/**
 * The chat endpoint `POST /api/chat` of app/api/chat/route.ts: validate the
 * request body, ask the model for a streamed reply, and send each piece of
 * text as one server-sent event `data: {"text":...}` followed by
 * `data: [DONE]`. Errors thrown on the way become JSON error responses.
 *
 * The model is reduced to its observable behaviour: whether creating it
 * throws, whether starting the stream throws, and the texts the stream
 * produces before it ends or throws.
 */
module ChatRoute {
  import opened Optional
  import opened Json
  import opened JsErrors
  import opened ChatTypes
  import JsStrings
  import SseClient

  /** What `req.json()` gives: the parsed body, or the error it throws. */
  datatype RequestBody = Body(value: Json) | Malformed(error: Thrown)

  /** The model's streamed reply: texts, then the end or an error thrown by the stream or by `chunk.text()`. */
  datatype Reply = Reply(texts: seq<string>, failure: Option<Thrown>)

  /** What the SDK does: `getGeminiModel()` may throw, then `sendMessageStream` may throw or stream a reply. */
  datatype Model = Model(setupError: Option<Thrown>, sendResult: Result)
  datatype Result = Sent(reply: Reply) | SendFailed(error: Thrown)

  datatype Response =
    | ErrorResponse(status: int, message: string, code: ErrorCode)
    | EventStream(reply: Reply)

  function InvalidMessageResponse(): Response { ErrorResponse(400, "메시지가 유효하지 않습니다.", InvalidMessage) }
  function TooLongResponse(): Response { ErrorResponse(400, "메시지가 너무 깁니다. (최대 4000자)", MessageTooLong) }
  function HistoryTooLongResponse(): Response { ErrorResponse(400, "대화 히스토리가 너무 깁니다. (최대 10개)", HistoryTooLong) }

  // ---------------------------------------------------------------------
  // Error mapping
  // ---------------------------------------------------------------------

  /** `error instanceof Error ? error.message : String(error)` */
  function ErrorText(e: Thrown): string {
    match e
    case Primitive(text) => text
    case Object(isError, _, message, _, _) => if isError then message else "[object Object]"
  }

  /** The catch block: the error's text decides 401, 429 or 500, checked in that order. */
  function MapError(e: Thrown): Response {
    var text := ErrorText(e);
    if JsStrings.Includes(text, "API key") then
      ErrorResponse(401, "API 인증에 실패했습니다.", PermissionDenied)
    else if JsStrings.Includes(text, "quota") || JsStrings.Includes(text, "RESOURCE_EXHAUSTED") then
      ErrorResponse(429, "요청 한도를 초과했습니다. 잠시 후 다시 시도해주세요.", RateLimitExceeded)
    else
      ErrorResponse(500, "메시지 처리 중 오류가 발생했습니다.", ApiError)
  }

  /**
   * The catch block answers with an error: 401 exactly when the text
   * mentions "API key", otherwise 429 exactly when it mentions "quota" or
   * "RESOURCE_EXHAUSTED", otherwise 500 API_ERROR.
   */
  lemma MapErrorStatus(e: Thrown)
    ensures var r := MapError(e);
      && r.ErrorResponse?
      && (r.status == 401 <==> JsStrings.Includes(ErrorText(e), "API key"))
      && (r.status == 429 <==>
            !JsStrings.Includes(ErrorText(e), "API key")
            && (JsStrings.Includes(ErrorText(e), "quota") || JsStrings.Includes(ErrorText(e), "RESOURCE_EXHAUSTED")))
      && (r.status == 500 ==> r.code == ApiError)
      && r.status in {401, 429, 500}
  {
  }

  /** The 500 answer of the catch block. */
  function ApiErrorResponse(): Response {
    ErrorResponse(500, "메시지 처리 중 오류가 발생했습니다.", ApiError)
  }

  /** A text that mentions none of "API key", "quota" and "RESOURCE_EXHAUSTED". */
  predicate Unmatched(text: string) {
    !JsStrings.Includes(text, "API key") && !JsStrings.Includes(text, "quota")
    && !JsStrings.Includes(text, "RESOURCE_EXHAUSTED")
  }

  /** An error whose text mentions none of the three is answered with 500. */
  lemma InternalWhenUnmatched(e: Thrown)
    requires Unmatched(ErrorText(e))
    ensures MapError(e) == ApiErrorResponse()
  {
  }

  /** A text lacking a character of each of the three mentions none of them. */
  lemma UnmatchedByChars(text: string, c: char, d: char, x: char)
    requires c in "API key" && d in "quota" && x in "RESOURCE_EXHAUSTED"
    requires c !in text && d !in text && x !in text
    ensures Unmatched(text)
  {
    JsStrings.MissingCharExcludes(text, "API key", c);
    JsStrings.MissingCharExcludes(text, "quota", d);
    JsStrings.MissingCharExcludes(text, "RESOURCE_EXHAUSTED", x);
  }

  /** The message `getGeminiModel` throws with when no key is configured. */
  const MissingKeyMessage: string := "GEMINI_API_KEY is not configured"

  /** The missing-key message says "API_KEY", not "API key": it has no lower-case `y`, no `q` and no `X`. */
  lemma MissingKeyUnmatched()
    ensures Unmatched(MissingKeyMessage)
  {
    MissingKeyLacks('y');
    MissingKeyLacks('q');
    MissingKeyLacks('X');
    UnmatchedByChars(MissingKeyMessage, 'y', 'q', 'X');
  }

  // Each absent character on its own: the three together cost the solver too much in one proof.
  lemma MissingKeyLacks(c: char) requires c in "yqX" ensures c !in MissingKeyMessage {}

  /** So the missing-key error is answered with 500, not 401. */
  lemma MissingKeyIsInternal(message: string)
    requires message == MissingKeyMessage
    ensures MapError(NewError(message)) == ApiErrorResponse()
  {
    MissingKeyUnmatched();
    InternalWhenUnmatched(NewError(message));
  }

  /** The TypeErrors the engine raises for a null body, a null history, a non-array history and a null entry. */
  const NullBodyMessage: string := "Cannot destructure " + "property 'message' " + "of 'body' as it is null."
  const NullHistoryMessage: string := "Cannot read " + "properties of null " + "(reading 'length')"
  const NotArrayMessage: string := "history.map is not a function"
  const NullEntryMessage: string := "Cannot read " + "properties of null " + "(reading 'role')"

  // None of the engine's messages has an upper-case `P`, a `q` or an `X`.
  lemma NullBodyUnmatched()
    ensures Unmatched(NullBodyMessage)
  {
    NullBodyLacks('P');
    NullBodyLacks('q');
    NullBodyLacks('X');
    UnmatchedByChars(NullBodyMessage, 'P', 'q', 'X');
  }

  lemma NullBodyLacks(c: char) requires c in "PqX" ensures c !in NullBodyMessage {}

  lemma NullHistoryUnmatched()
    ensures Unmatched(NullHistoryMessage)
  {
    NullHistoryLacks('P');
    NullHistoryLacks('q');
    NullHistoryLacks('X');
    UnmatchedByChars(NullHistoryMessage, 'P', 'q', 'X');
  }

  lemma NullHistoryLacks(c: char) requires c in "PqX" ensures c !in NullHistoryMessage {}

  lemma NotArrayUnmatched()
    ensures Unmatched(NotArrayMessage)
  {
    NotArrayLacks('P');
    NotArrayLacks('q');
    NotArrayLacks('X');
    UnmatchedByChars(NotArrayMessage, 'P', 'q', 'X');
  }

  lemma NotArrayLacks(c: char) requires c in "PqX" ensures c !in NotArrayMessage {}

  lemma NullEntryUnmatched()
    ensures Unmatched(NullEntryMessage)
  {
    NullEntryLacks('P');
    NullEntryLacks('q');
    NullEntryLacks('X');
    UnmatchedByChars(NullEntryMessage, 'P', 'q', 'X');
  }

  lemma NullEntryLacks(c: char) requires c in "PqX" ensures c !in NullEntryMessage {}

  /** Each of those TypeErrors is answered with 500. */
  lemma EngineErrorsAreInternal(message: string)
    requires message == NullBodyMessage || message == NullHistoryMessage
      || message == NotArrayMessage || message == NullEntryMessage
    ensures MapError(NewTypeError(message)) == ApiErrorResponse()
  {
    if message == NullBodyMessage {
      NullBodyUnmatched();
    } else if message == NullHistoryMessage {
      NullHistoryUnmatched();
    } else if message == NotArrayMessage {
      NotArrayUnmatched();
    } else {
      NullEntryUnmatched();
    }
    InternalWhenUnmatched(NewTypeError(message));
  }

  // ---------------------------------------------------------------------
  // Validation
  // ---------------------------------------------------------------------

  /** `history.length > 10` for the value destructured as `history`; `None` is `undefined`, which defaults to `[]`. */
  function HistoryOverLimit(history: Option<Json>): bool {
    match history
    case None => false
    case Some(JArr(items)) => |items| > MaxHistoryLength
    case Some(JStr(s)) => |s| > MaxHistoryLength
    case Some(JObj(fields)) => "length" in fields && fields["length"].JNum? && fields["length"].n > MaxHistoryLength
    case Some(_) => false
  }

  /** What the rest of the handler needs from a history that passed the length check. */
  datatype HistoryUse = Usable(items: seq<Json>) | Unusable(error: Thrown)

  /**
   * `convertHistoryToGeminiFormat(history)`: `null.length` has already thrown
   * for a null history; anything that is not an array has no `map`; a null
   * entry has no `role`.
   */
  function HistoryItems(history: Option<Json>): HistoryUse {
    match history
    case None => Usable([])
    case Some(JArr(items)) =>
      if exists i :: 0 <= i < |items| && items[i].JNull?
      then Unusable(NewTypeError(NullEntryMessage))
      else Usable(items)
    case Some(_) => Unusable(NewTypeError(NotArrayMessage))
  }

  /**
   * The handler from `req.json()` to the response. The TypeErrors the engine
   * raises on the way reach the catch block, which answers them with 500
   * (EngineErrorsAreInternal).
   */
  function Post(body: RequestBody, model: Model): Response {
    match body
    case Malformed(e) => MapError(e)
    case Body(v) =>
      if v.JNull? then ApiErrorResponse()
      else Handle(Get(v, "message"), Get(v, "history"), model)
  }

  /** The validation chain and the call into the model, for the destructured `message` and `history`. */
  function Handle(message: Option<Json>, history: Option<Json>, model: Model): Response {
    if !(message.Some? && message.value.JStr? && JsStrings.Trim(message.value.s) != "") then
      InvalidMessageResponse()
    else if |message.value.s| > MaxMessageLength then TooLongResponse()
    else if history == Some(JNull) then ApiErrorResponse()
    else if HistoryOverLimit(history) then HistoryTooLongResponse()
    else if model.setupError.Some? then MapError(model.setupError.value)
    else if HistoryItems(history).Unusable? then ApiErrorResponse()
    else match model.sendResult
      case SendFailed(e) => MapError(e)
      case Sent(reply) => EventStream(reply)
  }

  /** A request whose `message` is a string. */
  function Request(message: string, history: Option<Json>): Json {
    if history.Some? then JObj(map["message" := JStr(message), "history" := history.value])
    else JObj(map["message" := JStr(message)])
  }

  /** Destructuring a request gives back its message and its history. */
  lemma Destructured(message: string, history: Option<Json>, model: Model)
    ensures Post(Body(Request(message, history)), model) == Handle(Some(JStr(message)), history, model)
  {
    var v := Request(message, history);
    assert Get(v, "message") == Some(JStr(message));
    assert Get(v, "history") == history;
  }

  /**
   * The message check runs first: a missing, non-string, empty or blank
   * message is answered 400 INVALID_MESSAGE whatever the rest of the body.
   */
  lemma InvalidMessageFirst(v: Json, model: Model)
    requires !v.JNull?
    requires Get(v, "message").None? || !Get(v, "message").value.JStr? || JsStrings.AllWhitespace(Get(v, "message").value.s)
    ensures Post(Body(v), model) == InvalidMessageResponse()
  {
    if Get(v, "message").Some? && Get(v, "message").value.JStr? {
      JsStrings.TrimEmptyIff(Get(v, "message").value.s);
    }
  }

  /** The length limit counts the untrimmed message: a non-blank message over 4000 characters is refused. */
  lemma TooLongMessage(message: string, history: Option<Json>, model: Model)
    requires |message| > MaxMessageLength && !JsStrings.AllWhitespace(message)
    ensures Post(Body(Request(message, history)), model) == TooLongResponse()
  {
    JsStrings.TrimEmptyIff(message);
    Destructured(message, history, model);
  }

  /** A valid message, a usable history and a model that neither fails to start nor to send: the reply is streamed. */
  lemma Streams(message: string, history: Option<Json>, reply: Reply)
    requires JsStrings.Trim(message) != [] && |message| <= MaxMessageLength
    requires history != Some(JNull) && !HistoryOverLimit(history) && HistoryItems(history).Usable?
    ensures Handle(Some(JStr(message)), history, Model(None, Sent(reply))) == EventStream(reply)
  {
  }

  /** Within the limits and without errors, the reply is streamed. */
  lemma AcceptedRequest(message: string, items: seq<Json>, reply: Reply)
    requires |message| <= MaxMessageLength && !JsStrings.AllWhitespace(message)
    requires |items| <= MaxHistoryLength && forall i :: 0 <= i < |items| ==> !items[i].JNull?
    ensures Post(Body(Request(message, Some(JArr(items)))), Model(None, Sent(reply))) == EventStream(reply)
  {
    JsStrings.TrimEmptyIff(message);
    Destructured(message, Some(JArr(items)), Model(None, Sent(reply)));
    assert HistoryItems(Some(JArr(items))) == Usable(items);
    Streams(message, Some(JArr(items)), reply);
  }

  /** A missing history counts as empty: the reply is streamed. */
  lemma AcceptedWithoutHistory(message: string, reply: Reply)
    requires |message| <= MaxMessageLength && !JsStrings.AllWhitespace(message)
    ensures Post(Body(Request(message, None)), Model(None, Sent(reply))) == EventStream(reply)
  {
    JsStrings.TrimEmptyIff(message);
    Destructured(message, None, Model(None, Sent(reply)));
    Streams(message, None, reply);
  }

  /** Eleven history entries are refused with 400 HISTORY_TOO_LONG before the model is touched. */
  lemma HistoryTooLongRefused(message: string, items: seq<Json>, model: Model)
    requires |message| <= MaxMessageLength && !JsStrings.AllWhitespace(message)
    requires |items| > MaxHistoryLength
    ensures Post(Body(Request(message, Some(JArr(items)))), model) == HistoryTooLongResponse()
  {
    JsStrings.TrimEmptyIff(message);
    Destructured(message, Some(JArr(items)), model);
    assert HistoryOverLimit(Some(JArr(items)));
  }

  // ---------------------------------------------------------------------
  // The event stream
  // ---------------------------------------------------------------------

  /** The line of one text chunk: `data: ` and `JSON.stringify({ text })`. */
  function DataLine(text: string): (line: string)
    ensures '\n' !in line
  {
    SseClient.DataPrefix + StringifyText(text)
  }

  const DoneFrame: string := "data: [DONE]\n\n"

  /** One frame per chunk text. */
  function FramesOf(texts: seq<string>): (r: seq<string>)
    ensures |r| == |texts|
    ensures forall i :: 0 <= i < |r| ==> r[i] == DataLine(texts[i]) + SseClient.Separator
  {
    seq(|texts|, i requires 0 <= i < |texts| => DataLine(texts[i]) + SseClient.Separator)
  }

  /** The readable stream's controller: the enqueued chunks, and whether it was closed or errored. */
  datatype Controller = Controller(queue: seq<string>, closed: bool, error: Option<Thrown>)

  /** `start(controller)`: enqueue a frame per chunk, then the end marker and close; on a failure, error the stream. */
  method Start(reply: Reply) returns (c: Controller)
    ensures reply.failure.None? ==> c == Controller(FramesOf(reply.texts) + [DoneFrame], true, None)
    ensures reply.failure.Some? ==> c == Controller(FramesOf(reply.texts), false, reply.failure)
  {
    var queue: seq<string> := [];
    for i := 0 to |reply.texts|
      invariant queue == FramesOf(reply.texts[..i])
    {
      var data := StringifyText(reply.texts[i]);
      queue := queue + [SseClient.DataPrefix + data + SseClient.Separator];
      assert reply.texts[..i + 1] == reply.texts[..i] + [reply.texts[i]];
    }
    assert reply.texts[..|reply.texts|] == reply.texts;
    if reply.failure.Some? {
      return Controller(queue, false, reply.failure);
    }
    return Controller(queue + [DoneFrame], true, None);
  }

  /** `JSON.parse` reads back what `JSON.stringify({ text })` wrote. */
  ghost predicate ReadsTextObjects(parse: string -> Option<Json>) {
    forall t :: parse(StringifyText(t)) == Some(TextObject(t))
  }

  lemma {:induction false} ConcatFrames(texts: seq<string>)
    ensures SseClient.Concat(FramesOf(texts)) == SseClient.Frames(Lines(texts))
    decreases |texts|
  {
    if texts != [] {
      assert FramesOf(texts)[1..] == FramesOf(texts[1..]);
      assert Lines(texts)[1..] == Lines(texts[1..]);
      ConcatFrames(texts[1..]);
    }
  }

  function Lines(texts: seq<string>): (r: seq<string>)
    ensures |r| == |texts| && forall i :: 0 <= i < |r| ==> r[i] == DataLine(texts[i])
  {
    seq(|texts|, i requires 0 <= i < |texts| => DataLine(texts[i]))
  }

  lemma ConcatAppend(a: seq<string>, b: seq<string>)
    ensures SseClient.Concat(a + b) == SseClient.Concat(a) + SseClient.Concat(b)
    decreases |a|
  {
    if a == [] {
      assert a + b == b;
    } else {
      assert (a + b)[1..] == a[1..] + b;
      ConcatAppend(a[1..], b);
    }
  }

  lemma FramesAppend(a: seq<string>, b: seq<string>)
    ensures SseClient.Frames(a + b) == SseClient.Frames(a) + SseClient.Frames(b)
    decreases |a|
  {
    if a == [] {
      assert a + b == b;
    } else {
      assert (a + b)[1..] == a[1..] + b;
      FramesAppend(a[1..], b);
    }
  }

  /** The text lines decode to one item each. */
  lemma {:induction false} EventsOfLines(texts: seq<string>, parse: string -> Option<Json>)
    requires ReadsTextObjects(parse)
    ensures SseClient.Events(Lines(texts), parse)
      == Items(texts)
    decreases |texts|
  {
    if texts != [] {
      calc {
        SseClient.Events(Lines(texts), parse);
        == { assert Lines(texts)[1..] == Lines(texts[1..]); }
        SseClient.LineEvents(DataLine(texts[0]), parse) + SseClient.Events(Lines(texts[1..]), parse);
        == { DataLineEvents(texts[0], parse); EventsOfLines(texts[1..], parse); }
        [SseClient.Item(TextObject(texts[0]))] + Items(texts[1..]);
        == { assert Items(texts)[1..] == Items(texts[1..]); }
        Items(texts);
      }
    }
  }

  /** One text line decodes to the item of its text. */
  lemma DataLineEvents(text: string, parse: string -> Option<Json>)
    requires ReadsTextObjects(parse)
    ensures SseClient.LineEvents(DataLine(text), parse) == [SseClient.Item(TextObject(text))]
  {
    var line := DataLine(text);
    assert line[|SseClient.DataPrefix|..] == StringifyText(text);
    assert JsStrings.StartsWith(line, SseClient.DataPrefix);
    assert StringifyText(text) != SseClient.DoneMarker by {
      assert StringifyText(text)[0] == '{';
    }
  }

  function Items(texts: seq<string>): (r: seq<SseClient.Event>)
    ensures |r| == |texts| && forall i :: 0 <= i < |r| ==> r[i] == SseClient.Item(TextObject(texts[i]))
  {
    seq(|texts|, i requires 0 <= i < |texts| => SseClient.Item(TextObject(texts[i])))
  }

  function Yields(texts: seq<string>): (r: seq<SseClient.Step>)
    ensures |r| == |texts| && forall i :: 0 <= i < |r| ==> r[i] == SseClient.Yield(TextObject(texts[i]))
  {
    seq(|texts|, i requires 0 <= i < |texts| => SseClient.Yield(TextObject(texts[i])))
  }

  lemma {:induction false} FinishItems(texts: seq<string>, tail: seq<SseClient.Event>, readError: Option<Thrown>)
    ensures SseClient.Finish(Items(texts) + tail, readError) == Yields(texts) + SseClient.Finish(tail, readError)
    decreases |texts|
  {
    if texts == [] {
      assert Items(texts) + tail == tail;
    } else {
      assert (Items(texts) + tail)[0] == SseClient.Item(TextObject(texts[0]));
      assert (Items(texts) + tail)[1..] == Items(texts[1..]) + tail;
      FinishItems(texts[1..], tail, readError);
      assert Yields(texts) == [SseClient.Yield(TextObject(texts[0]))] + Yields(texts[1..]);
    }
  }

  /** The line of the end marker. */
  const DoneLine: string := SseClient.DataPrefix + SseClient.DoneMarker

  /** The queue of a complete reply is the frames of its text lines and the end marker's line. */
  lemma CompleteQueueText(texts: seq<string>)
    ensures SseClient.Concat(FramesOf(texts) + [DoneFrame]) == SseClient.Frames(Lines(texts) + [DoneLine])
  {
    calc {
      SseClient.Concat(FramesOf(texts) + [DoneFrame]);
      == { ConcatAppend(FramesOf(texts), [DoneFrame]); }
      SseClient.Concat(FramesOf(texts)) + SseClient.Concat([DoneFrame]);
      == { ConcatFrames(texts); DoneFrameIsDoneLine(); }
      SseClient.Frames(Lines(texts)) + SseClient.Frames([DoneLine]);
      == { FramesAppend(Lines(texts), [DoneLine]); }
      SseClient.Frames(Lines(texts) + [DoneLine]);
    }
  }

  lemma DoneFrameIsDoneLine()
    ensures SseClient.Concat([DoneFrame]) == SseClient.Frames([DoneLine])
  {
    assert SseClient.Concat([DoneFrame]) == DoneFrame + SseClient.Concat([]);
    assert SseClient.Frames([DoneLine]) == DoneLine + SseClient.Separator + SseClient.Frames([]);
  }

  /** A complete reply decodes to one item per text and the end marker. */
  lemma CompleteQueueEvents(texts: seq<string>, parse: string -> Option<Json>)
    requires ReadsTextObjects(parse)
    ensures SseClient.Decoded(SseClient.Concat(FramesOf(texts) + [DoneFrame]), parse) == Items(texts) + [SseClient.Stop]
  {
    var lines := Lines(texts) + [DoneLine];
    calc {
      SseClient.Decoded(SseClient.Concat(FramesOf(texts) + [DoneFrame]), parse);
      == { CompleteQueueText(texts); assert SseClient.Frames(lines) + "" == SseClient.Frames(lines); }
      SseClient.Decoded(SseClient.Frames(lines) + "", parse);
      == { LinesHaveNoLineFeed(texts); SseClient.UnterminatedFrameIgnored(lines, "", parse); }
      SseClient.Events(lines, parse);
      == { SseClient.EventsAppend(Lines(texts), [DoneLine], parse); }
      SseClient.Events(Lines(texts), parse) + SseClient.Events([DoneLine], parse);
      == { EventsOfLines(texts, parse); assert SseClient.Events([DoneLine], parse) == [SseClient.Stop]; }
      Items(texts) + [SseClient.Stop];
    }
  }

  lemma LinesHaveNoLineFeed(texts: seq<string>)
    ensures var lines := Lines(texts) + [DoneLine];
      forall i :: 0 <= i < |lines| ==> '\n' !in lines[i]
  {
  }

  /** The frames `start` enqueues for a reply: a frame per text, and the end marker only when nothing failed. */
  function Enqueued(reply: Reply): (q: seq<string>)
    ensures reply.failure.None? ==> q == FramesOf(reply.texts) + [DoneFrame]
    ensures reply.failure.Some? ==> q == FramesOf(reply.texts)
  {
    if reply.failure.None? then FramesOf(reply.texts) + [DoneFrame] else FramesOf(reply.texts)
  }

  /**
   * A reply without failure, however the network cuts its frames into
   * chunks, is read back as its texts and then the end of the stream; a read
   * error after the end marker is never seen.
   */
  lemma RoundTripComplete(texts: seq<string>, chunks: seq<string>, readError: Option<Thrown>, parse: string -> Option<Json>)
    requires ReadsTextObjects(parse)
    requires SseClient.Concat(chunks) == SseClient.Concat(FramesOf(texts) + [DoneFrame])
    ensures SseClient.Steps(SseClient.Responded(true, SseClient.Parsed(JNull), Some(SseClient.Body(chunks, readError))), parse)
      == Yields(texts) + [SseClient.Done]
  {
    SseClient.StepsOfBody(chunks, readError, SseClient.Parsed(JNull), parse);
    CompleteQueueEvents(texts, parse);
    FinishItems(texts, [SseClient.Stop], readError);
  }

  /**
   * A failed reply: the error the route passes to `controller.error` does
   * not travel over the network. The browser reads the frames sent before it
   * and then either the body simply ends, and the generator returns with the
   * partial reply, or its read rejects with an error of the browser's own.
   */
  lemma RoundTripFailed(texts: seq<string>, chunks: seq<string>, readError: Option<Thrown>, parse: string -> Option<Json>)
    requires ReadsTextObjects(parse)
    requires SseClient.Concat(chunks) == SseClient.Concat(FramesOf(texts))
    ensures SseClient.Steps(SseClient.Responded(true, SseClient.Parsed(JNull), Some(SseClient.Body(chunks, readError))), parse)
      == Yields(texts) + [if readError.None? then SseClient.Done else SseClient.Fail(readError.value)]
  {
    var lines := Lines(texts);
    ConcatFrames(texts);
    SseClient.UnterminatedFrameIgnored(lines, "", parse);
    assert SseClient.Frames(lines) + "" == SseClient.Concat(FramesOf(texts));
    EventsOfLines(texts, parse);
    SseClient.StepsOfBody(chunks, readError, SseClient.Parsed(JNull), parse);
    FinishItems(texts, [], readError);
    assert Items(texts) + [] == Items(texts);
  }

  /**
   * The route's frames, read by the browser's stream decoder however the
   * network cuts them into chunks, give back exactly the model's texts as
   * `{ text }` chunks, in order. The generator then ends, unless the reply
   * failed and the browser's read of the cut-off body rejected.
   */
  lemma RoundTrip(reply: Reply, chunks: seq<string>, readError: Option<Thrown>, parse: string -> Option<Json>)
    requires ReadsTextObjects(parse)
    requires SseClient.Concat(chunks) == SseClient.Concat(Enqueued(reply))
    ensures SseClient.Steps(SseClient.Responded(true, SseClient.Parsed(JNull), Some(SseClient.Body(chunks, readError))), parse)
      == Yields(reply.texts)
         + [if reply.failure.None? || readError.None? then SseClient.Done else SseClient.Fail(readError.value)]
  {
    if reply.failure.None? {
      RoundTripComplete(reply.texts, chunks, readError, parse);
    } else {
      RoundTripFailed(reply.texts, chunks, readError, parse);
    }
  }
}
