/**
 * components/chat/ChatContainer.tsx: sending a message (the user message, the
 * assistant placeholder, up to three streamed attempts, the failure toast),
 * the connectivity effect, dismissing the toast and the unmount abort.
 */
module ChatContainer {
  import opened Optional
  import opened Json
  import opened JsErrors
  import opened ChatTypes
  import SseClient
  import opened Retry
  import opened UseChat
  import ChatRoute

  /** The toast's `type`: 'error' or 'offline'. */
  datatype Kind = Error | Offline

  /** The `error` state: `{ message, type }`. */
  datatype Toast = Toast(message: string, kind: Kind)

  const OfflineNotice: string := "인터넷 연결이 끊어졌습니다. 연결을 확인해주세요."
  const OfflineSendNotice: string := "오프라인 상태에서는 메시지를 보낼 수 없습니다."
  const CancelledNotice: string := "요청이 취소되었습니다."
  const GenericFailureNotice: string := "메시지 전송 중 오류가 발생했습니다."

  /** How many of the latest messages go along as history. */
  const HistoryWindow: nat := 10

  /** `retry(performRequest, { maxAttempts: 3, backoff: true, onRetry })` */
  const SendRetry: RetryOptions := RetryOptions(Some(3), None, Some(true), true)

  // ---------------------------------------------------------------------
  // The toast
  // ---------------------------------------------------------------------

  /** The connectivity effect on a change from `wasOnline` to `isOnline`. */
  function AfterConnectivity(error: Option<Toast>, wasOnline: bool, isOnline: bool): Option<Toast> {
    if !isOnline && wasOnline then Some(Toast(OfflineNotice, Offline))
    else if isOnline && !wasOnline then (if error.Some? && error.value.kind == Offline then None else error)
    else error
  }

  /** `onDismiss`: an offline toast stays while offline; anything else goes. */
  function AfterDismiss(error: Option<Toast>, isOnline: bool): Option<Toast> {
    if error.Some? && error.value.kind == Offline && !isOnline then error else None
  }

  /** An online send keeps an offline toast and clears any other. */
  function AtSend(error: Option<Toast>): Option<Toast> {
    if error.Some? && error.value.kind == Offline then error else None
  }

  /** The toast after the last attempt failed, with `isOnline` as the send saw it. */
  function FailureToast(err: Thrown, isOnline: bool): (t: Toast)
    ensures IsAbortError(err) ==> t == Toast(CancelledNotice, Error)
    ensures !IsAbortError(err) ==> t.kind == (if isOnline then Error else Offline)
    ensures !IsAbortError(err) && err.Object? && err.isError ==> t.message == err.message
    ensures !(err.Object? && err.isError) ==> t.message == GenericFailureNotice
  {
    var errorMessage := if err.Object? && err.isError then err.message else GenericFailureNotice;
    if IsAbortError(err) then Toast(CancelledNotice, Error)
    else Toast(errorMessage, if isOnline then Error else Offline)
  }

  /** Losing the connection and getting it back leaves no toast at all. */
  lemma OfflineThenOnline(error: Option<Toast>)
    ensures AfterConnectivity(AfterConnectivity(error, true, false), false, true) == None
  {
  }

  /** Getting the connection back removes an offline toast and only that. */
  lemma ReconnectClears(error: Option<Toast>)
    ensures AfterConnectivity(error, false, true) == None <==> (error.None? || error.value.kind == Offline)
    ensures error.Some? && error.value.kind == Error ==> AfterConnectivity(error, false, true) == error
  {
  }

  /** While offline the offline toast cannot be dismissed; online every toast can. */
  lemma DismissRule(error: Option<Toast>)
    ensures AfterDismiss(AfterConnectivity(error, true, false), false) == Some(Toast(OfflineNotice, Offline))
    ensures AfterDismiss(error, true) == None
    ensures AfterDismiss(error, false) == error <==> (error.None? || error.value.kind == Offline)
  {
  }

  /**
   * The send only reaches its failure toast online (offline it returns
   * first), so the toast it shows is never of the offline kind.
   */
  lemma FailureIsNeverOffline(err: Thrown)
    ensures FailureToast(err, true).kind == Error
  {
  }

  // ---------------------------------------------------------------------
  // One attempt
  // ---------------------------------------------------------------------

  const NullTextMessage: string := "Cannot read " + "properties of null " + "(reading 'text')"

  /**
   * `fullContent += chunk.text`: the text a parsed chunk adds. `null.text`
   * throws; a missing field reads `undefined`, which `+=` appends as a word.
   */
  function TextOf(chunk: Json): (r: Outcome<string>)
    ensures r.Threw? <==> chunk.JNull?
    ensures Get(chunk, "text").Some? ==> r == Returned(ToJsString(Get(chunk, "text").value))
    ensures !chunk.JNull? && Get(chunk, "text").None? ==> r == Returned("undefined")
  {
    if chunk.JNull? then Threw(NewTypeError(NullTextMessage))
    else match Get(chunk, "text")
      case Some(v) => Returned(ToJsString(v))
      case None => Returned("undefined")
  }

  /** How one attempt ended, and the placeholder's content at that point. */
  datatype Attempt = Attempt(outcome: Outcome<()>, content: string)

  /** The `for await` loop over the stream's steps, from the content accumulated so far. */
  function Consume(steps: seq<SseClient.Step>, content: string): (a: Attempt)
    ensures JsStrings.StartsWith(a.content, content)
    decreases |steps|
  {
    if steps == [] then Attempt(Returned(()), content)
    else match steps[0]
      case Yield(v) =>
        (match TextOf(v)
         case Threw(e) => Attempt(Threw(e), content)
         case Returned(t) =>
           var a := Consume(steps[1..], content + t);
           assert a.content[..|content|] == (content + t)[..|content|];
           a)
      case Done => Attempt(Returned(()), content)
      case Fail(e) => Attempt(Threw(e), content)
  }

  /** One attempt against the response it gets. */
  function AttemptOf(response: SseClient.Response, parse: string -> Option<Json>): Attempt {
    Consume(SseClient.Steps(response, parse), "")
  }

  /** The operation `retry` calls: the n-th attempt gets the n-th response. */
  function Operation(respond: nat -> SseClient.Response, parse: string -> Option<Json>): nat -> Outcome<()> {
    (n: nat) => AttemptOf(respond(n), parse).outcome
  }

  /** What each attempt reads: the n-th attempt gets the n-th response. */
  function Attempts(respond: nat -> SseClient.Response, parse: string -> Option<Json>): nat -> Attempt {
    (n: nat) => AttemptOf(respond(n), parse)
  }

  /** `attempts` and `operation` give, for every n, the n-th attempt against `respond(n)` and its outcome. */
  ghost predicate Linked(attempts: nat -> Attempt, operation: nat -> Outcome<()>,
                         respond: nat -> SseClient.Response, parse: string -> Option<Json>) {
    forall n: nat {:trigger respond(n)} :: attempts(n) == AttemptOf(respond(n), parse) && operation(n) == attempts(n).outcome
  }

  /** The whole retried send. */
  function SendRun(respond: nat -> SseClient.Response, parse: string -> Option<Json>): Run<()> {
    Spec(Operation(respond, parse), SendRetry)
  }

  /** `JSON.parse` gives the `{ text }` object back: its text is what is appended. */
  lemma TextOfTextObject(t: string)
    ensures TextOf(TextObject(t)) == Returned(t)
  {
    assert Get(TextObject(t), "text") == Some(JStr(t));
  }

  /** Consuming the yields of text objects appends their texts, in order, and ends as the stream does. */
  lemma {:induction false} ConsumeTexts(texts: seq<string>, last: SseClient.Step, content: string)
    requires !last.Yield?
    ensures Consume(ChatRoute.Yields(texts) + [last], content)
      == Attempt(if last.Fail? then Threw(last.error) else Returned(()), content + SseClient.Concat(texts))
    decreases |texts|
  {
    var steps := ChatRoute.Yields(texts) + [last];
    if texts == [] {
      assert steps == [last];
    } else {
      assert steps == [SseClient.Yield(TextObject(texts[0]))] + (ChatRoute.Yields(texts[1..]) + [last]);
      ConsumeText(texts[0], ChatRoute.Yields(texts[1..]) + [last], content);
      ConsumeTexts(texts[1..], last, content + texts[0]);
      assert content + texts[0] + SseClient.Concat(texts[1..]) == content + SseClient.Concat(texts);
    }
  }

  /** A yielded text object appends its text and consuming goes on. */
  lemma ConsumeText(t: string, rest: seq<SseClient.Step>, content: string)
    ensures Consume([SseClient.Yield(TextObject(t))] + rest, content) == Consume(rest, content + t)
  {
    TextOfTextObject(t);
    assert ([SseClient.Yield(TextObject(t))] + rest)[1..] == rest;
  }

  /**
   * End to end: the frames the chat route writes for a reply, cut into any
   * chunks and read back by the window's attempt, fill the placeholder with
   * the concatenation of the reply's texts. The attempt fails only when the
   * reply failed and the browser's read rejected, and then with the
   * browser's error; when the cut-off body simply ends, the attempt succeeds
   * with the partial reply.
   */
  lemma ReceivesWhatRouteSent(reply: ChatRoute.Reply, chunks: seq<string>, readError: Option<Thrown>,
                              parse: string -> Option<Json>)
    requires ChatRoute.ReadsTextObjects(parse)
    requires SseClient.Concat(chunks) == SseClient.Concat(ChatRoute.Enqueued(reply))
    ensures AttemptOf(SseClient.Responded(true, SseClient.Parsed(JNull), Some(SseClient.Body(chunks, readError))), parse)
      == Attempt(if reply.failure.Some? && readError.Some? then Threw(readError.value) else Returned(()),
                 SseClient.Concat(reply.texts))
  {
    ChatRoute.RoundTrip(reply, chunks, readError, parse);
    if reply.failure.None? || readError.None? {
      ConsumeTexts(reply.texts, SseClient.Done, "");
    } else {
      ConsumeTexts(reply.texts, SseClient.Fail(readError.value), "");
    }
  }

  /** Three retryable failures: three calls, `onRetry` after the first two, and waits of 500 and 1000 ms. */
  lemma SendSchedule(respond: nat -> SseClient.Response, parse: string -> Option<Json>)
    requires forall k :: 1 <= k <= 3 ==> Operation(respond, parse)(k).Threw? && Retryable(Operation(respond, parse)(k).error)
    ensures var op := Operation(respond, parse);
      SendRun(respond, parse)
        == Run(op(3), 3, [OnRetry(1, op(1).error), Sleep(500), OnRetry(2, op(2).error), Sleep(1000)])
  {
    var op := Operation(respond, parse);
    assert op(1).Threw? && op(2).Threw? && op(3).Threw?;
    assert WaitTime(500, true, 1) == 500;
    assert WaitTime(500, true, 2) == 1000 by {
      assert Pow2(1) == 2;
    }
    var r2 := RunFrom(op, 3, 500, true, true, 2);
    assert r2 == Run(op(3), 1, []);
    var r1 := RunFrom(op, 3, 500, true, true, 1);
    assert r1 == Run(op(3), 2, [OnRetry(2, op(2).error), Sleep(1000)]);
  }

  // ---------------------------------------------------------------------
  // The request
  // ---------------------------------------------------------------------

  /** The body `{ message, history }` of the request. */
  datatype ChatRequest = ChatRequest(message: string, history: seq<ChatMessage>)

  /** `messages.slice(-10).map(({ role, content }) => ...)` */
  function History(messages: seq<Message>): (h: seq<ChatMessage>)
    ensures |h| == if |messages| <= HistoryWindow then |messages| else HistoryWindow
    ensures forall i :: 0 <= i < |h| ==>
      h[i] == ChatMessage(messages[|messages| - |h| + i].role, messages[|messages| - |h| + i].content)
  {
    var start := if |messages| <= HistoryWindow then 0 else |messages| - HistoryWindow;
    seq(|messages| - start, i requires 0 <= i < |messages| - start =>
      ChatMessage(messages[start + i].role, messages[start + i].content))
  }

  function RoleName(role: Role): string {
    match role
    case User => "user"
    case Assistant => "assistant"
  }

  /** The history as the route reads it from the request body. */
  function HistoryJson(h: seq<ChatMessage>): (j: Json)
    ensures j.JArr? && |j.items| == |h|
    ensures forall i :: 0 <= i < |h| ==> !j.items[i].JNull?
  {
    JArr(seq(|h|, i requires 0 <= i < |h| =>
      JObj(map["role" := JStr(RoleName(h[i].role)), "content" := JStr(h[i].content)])))
  }

  /** The history the window sends always passes the route's length check and its null-entry check. */
  lemma HistoryFitsRoute(messages: seq<Message>)
    ensures !ChatRoute.HistoryOverLimit(Some(HistoryJson(History(messages))))
    ensures ChatRoute.HistoryItems(Some(HistoryJson(History(messages)))).Usable?
  {
  }

  // ---------------------------------------------------------------------
  // The component
  // ---------------------------------------------------------------------

  /** The assistant placeholder with the given content and streaming flag. */
  function Placeholder(id: string, timestamp: int, content: string, streaming: bool): Message {
    Message(id, Assistant, content, timestamp, Some(streaming))
  }

  /** `n` copies of a request. */
  function Repeat(request: ChatRequest, n: nat): (r: seq<ChatRequest>)
    ensures |r| == n && forall i :: 0 <= i < n ==> r[i] == request
  {
    seq(n, i => request)
  }

  /**
   * The controllers aborted over `calls` attempts whose controllers are
   * numbered from `first`: each attempt aborts the one before it, so the
   * controller in flight before the send (if any) and every attempt's but the
   * last.
   */
  function AbortedBy(ref: Option<nat>, first: nat, calls: nat): (r: set<nat>)
    ensures calls == 0 ==> r == {}
    ensures calls > 0 ==> forall k :: k in r <==> (ref.Some? && k == ref.value) || first <= k < first + calls - 1
  {
    if calls == 0 then {} else (if ref.Some? then {ref.value} else {}) + Numbers(first, calls - 1)
  }

  /** The `count` numbers from `first` on. */
  function Numbers(first: nat, count: nat): (r: set<nat>)
    ensures forall k :: k in r <==> first <= k < first + count
  {
    if count == 0 then {} else Numbers(first, count - 1) + {first + count - 1}
  }

  /** The window's fields, and the hook's session state, at one moment. */
  datatype Snapshot = Snapshot(requests: seq<ChatRequest>, controllers: nat, controllerRef: Option<nat>, aborted: set<nat>,
                               isLoading: bool, error: Option<Toast>, wasOnline: bool,
                               currentSession: Option<ChatSession>, sessions: seq<ChatSession>)

  /**
   * What `performRequest` does to the window before it reads the reply:
   * abort the controller in flight, if any, install the next one and send
   * the request.
   */
  function Begun(s: Snapshot, request: ChatRequest): Snapshot {
    s.(requests := s.requests + [request], controllers := s.controllers + 1, controllerRef := Some(s.controllers),
       aborted := s.aborted + (if s.controllerRef.Some? then {s.controllerRef.value} else {}))
  }

  /** The window after `calls` attempts of one send, from `s`. */
  function Attempted(s: Snapshot, request: ChatRequest, calls: nat): Snapshot {
    if calls == 0 then s else Begun(Attempted(s, request, calls - 1), request)
  }

  /**
   * Over `calls` attempts: one request and one new controller each, each
   * attempt aborting the controller before it, the last one left in flight,
   * and nothing else changed.
   */
  lemma {:induction false} AttemptedCounts(s: Snapshot, request: ChatRequest, calls: nat)
    ensures Attempted(s, request, calls).requests == s.requests + Repeat(request, calls)
    ensures Attempted(s, request, calls).controllers == s.controllers + calls
    ensures Attempted(s, request, calls).controllerRef == (if calls == 0 then s.controllerRef else Some(s.controllers + calls - 1))
    ensures Attempted(s, request, calls).aborted == s.aborted + AbortedBy(s.controllerRef, s.controllers, calls)
    ensures Attempted(s, request, calls).(requests := s.requests, controllers := s.controllers,
                                          controllerRef := s.controllerRef, aborted := s.aborted) == s
  {
    if calls > 0 {
      AttemptedCounts(s, request, calls - 1);
      AbortedByStep(s.controllerRef, s.controllers, calls - 1);
      assert Repeat(request, calls) == Repeat(request, calls - 1) + [request];
    }
  }

  /** One more attempt aborts the controller of the attempt before it. */
  lemma AbortedByStep(ref: Option<nat>, first: nat, calls: nat)
    ensures AbortedBy(ref, first, calls + 1)
      == AbortedBy(ref, first, calls) + (if calls == 0 then (if ref.Some? then {ref.value} else {}) else {first + calls - 1})
  {
  }

  /** The n-th call of the operation is the n-th attempt. */
  lemma OperationAt(respond: nat -> SseClient.Response, parse: string -> Option<Json>, n: nat)
    ensures Operation(respond, parse)(n) == AttemptOf(respond(n), parse).outcome
  {
  }

  /** Updating the last message, when no other message has its id. */
  lemma UpdateLast(base: seq<Message>, last: Message, p: Patch)
    requires Unused(base, last.id)
    ensures WithUpdate(base + [last], last.id, p) == base + [Merge(last, p)]
  {
  }

  class Container {
    const hook: ChatHook
    var isLoading: bool
    var error: Option<Toast>
    /** `abortControllerRef.current`, by the number of the controller. */
    var controllerRef: Option<nat>
    /** How many controllers were created so far; the next one gets this number. */
    var controllers: nat
    /** The controllers `abort()` was called on. */
    var aborted: set<nat>
    /** `wasOnlineRef.current` */
    var wasOnline: bool
    /** The request bodies sent, in order. */
    var requests: seq<ChatRequest>

    constructor (hook: ChatHook)
      ensures this.hook == hook
      ensures !isLoading && error == None && controllerRef == None && controllers == 0 && aborted == {}
      ensures wasOnline && requests == []
    {
      this.hook := hook;
      isLoading := false;
      error := None;
      controllerRef := None;
      controllers := 0;
      aborted := {};
      wasOnline := true;
      requests := [];
    }

    /** The input's `disabled` prop. */
    function InputDisabled(isOnline: bool): (r: bool)
      reads this
      ensures r <==> isLoading || !isOnline
    {
      isLoading || !isOnline
    }

    /** The window's state, but for the message list. */
    ghost function Snap(): Snapshot
      reads this, hook
    {
      Snapshot(requests, controllers, controllerRef, aborted, isLoading, error, wasOnline, hook.currentSession, hook.sessions)
    }

    /** The list `calls` attempts into a send: the reply `last` before any, else the reply the latest attempt left. */
    ghost predicate Showing(base: seq<Message>, last: Message, assistantId: string, assistantTime: int,
                            attempts: nat -> Attempt, operation: nat -> Outcome<()>, calls: nat)
      reads hook
    {
      hook.messages == base + [if calls == 0 then last else Placeholder(assistantId, assistantTime, attempts(calls).content, operation(calls).Threw?)]
    }

    /** The connectivity effect, run with the new `isOnline`. */
    method OnConnectivity(isOnline: bool)
      modifies this
      ensures error == AfterConnectivity(old(error), old(wasOnline), isOnline) && wasOnline == isOnline
      ensures isLoading == old(isLoading) && controllerRef == old(controllerRef) && controllers == old(controllers)
      ensures aborted == old(aborted) && requests == old(requests)
    {
      if !isOnline && wasOnline {
        error := Some(Toast(OfflineNotice, Offline));
      }
      if isOnline && !wasOnline {
        if error.Some? && error.value.kind == Offline {
          error := None;
        }
      }
      wasOnline := isOnline;
    }

    /** The toast's `onDismiss`. */
    method Dismiss(isOnline: bool)
      modifies this
      ensures error == AfterDismiss(old(error), isOnline)
      ensures isLoading == old(isLoading) && controllerRef == old(controllerRef) && controllers == old(controllers)
      ensures aborted == old(aborted) && requests == old(requests) && wasOnline == old(wasOnline)
    {
      if !(error.Some? && error.value.kind == Offline && !isOnline) {
        error := None;
      }
    }

    /** The unmount cleanup: abort the request in flight, if any. */
    method Unmount()
      modifies this
      ensures aborted == old(aborted) + (if old(controllerRef).Some? then {old(controllerRef).value} else {})
      ensures isLoading == old(isLoading) && error == old(error) && controllerRef == old(controllerRef)
      ensures controllers == old(controllers) && requests == old(requests) && wasOnline == old(wasOnline)
    {
      if controllerRef.Some? {
        aborted := aborted + {controllerRef.value};
      }
    }

    /**
     * `performRequest()`: abort the previous request, install a fresh
     * controller, reset the assistant placeholder to an empty streaming
     * reply, send the request and read the event stream it answers with.
     */
    method PerformRequest(request: ChatRequest, assistantId: string, assistantTime: int,
                          response: SseClient.Response, parse: string -> Option<Json>,
                          ghost base: seq<Message>, ghost last: Message)
      returns (outcome: Outcome<()>)
      requires Unused(base, assistantId)
      requires hook.messages == base + [last] && last.id == assistantId && last.role == Assistant && last.timestamp == assistantTime
      modifies this, hook
      ensures outcome == AttemptOf(response, parse).outcome
      ensures hook.messages
        == base + [Placeholder(assistantId, assistantTime, AttemptOf(response, parse).content, outcome.Threw?)]
      ensures hook.currentSession == old(hook.currentSession) && hook.sessions == old(hook.sessions)
      ensures controllerRef == Some(old(controllers)) && controllers == old(controllers) + 1
      ensures aborted == old(aborted) + (if old(controllerRef).Some? then {old(controllerRef).value} else {})
      ensures requests == old(requests) + [request]
      ensures isLoading == old(isLoading) && error == old(error) && wasOnline == old(wasOnline)
    {
      if controllerRef.Some? {
        aborted := aborted + {controllerRef.value};
      }
      controllerRef := Some(controllers);
      controllers := controllers + 1;
      UpdateLast(base, last, Patch(None, None, Some(""), None, Some(true)));
      hook.UpdateMessage(assistantId, Patch(None, None, Some(""), None, Some(true)));
      requests := requests + [request];

      var stream := new SseClient.SseStream(response, parse);
      outcome := ReadReply(stream, assistantId, assistantTime, base);
    }

    /**
     * The `for await` loop of `performRequest`: append each chunk's text to
     * the reply and stop at the end of the stream, at an error it throws, or
     * at a chunk whose text cannot be read.
     */
    method ReadReply(stream: SseClient.SseStream, assistantId: string, assistantTime: int, ghost base: seq<Message>)
      returns (outcome: Outcome<()>)
      requires stream.Valid() && stream.phase != SseClient.Finished
      requires Unused(base, assistantId)
      requires hook.messages == base + [Placeholder(assistantId, assistantTime, "", true)]
      modifies hook, stream
      ensures outcome == Consume(old(stream.Remaining()), "").outcome
      ensures hook.messages
        == base + [Placeholder(assistantId, assistantTime, Consume(old(stream.Remaining()), "").content, outcome.Threw?)]
      ensures hook.currentSession == old(hook.currentSession) && hook.sessions == old(hook.sessions)
    {
      var fullContent := "";
      ghost var target := Consume(stream.Remaining(), "");
      while true
        invariant stream.Valid() && stream.phase != SseClient.Finished
        invariant Consume(stream.Remaining(), fullContent) == target
        invariant hook.messages == base + [Placeholder(assistantId, assistantTime, fullContent, true)]
        invariant hook.currentSession == old(hook.currentSession) && hook.sessions == old(hook.sessions)
        decreases |stream.Remaining()|
      {
        ghost var remaining := stream.Remaining();
        var step := stream.Next();
        assert remaining[0] == step && remaining[1..] == stream.Remaining();
        match step {
          case Yield(chunk) =>
            var text := TextOf(chunk);
            if text.Threw? {
              stream.Return();
              return Threw(text.error);
            }
            fullContent := fullContent + text.value;
            UpdateLast(base, Placeholder(assistantId, assistantTime, fullContent[..|fullContent| - |text.value|], true),
                       Patch(None, None, Some(fullContent), None, Some(true)));
            hook.UpdateMessage(assistantId, Patch(None, None, Some(fullContent), None, Some(true)));
          case Done =>
            UpdateLast(base, Placeholder(assistantId, assistantTime, fullContent, true),
                       Patch(None, None, None, None, Some(false)));
            hook.UpdateMessage(assistantId, Patch(None, None, None, None, Some(false)));
            return Returned(());
          case Fail(e) =>
            assert Consume(remaining, fullContent) == Attempt(Threw(e), fullContent);
            return Threw(e);
        }
      }
    }

    /** Attempt number `attempt + 1` of a send: the request it makes, the controller it installs and the reply it shows. */
    method SendAttempt(request: ChatRequest, assistantId: string, assistantTime: int,
                       respond: nat -> SseClient.Response, parse: string -> Option<Json>, attempt: nat,
                       ghost attempts: nat -> Attempt, ghost operation: nat -> Outcome<()>,
                       ghost base: seq<Message>, ghost last: Message, ghost start: Snapshot)
      returns (outcome: Outcome<()>)
      requires Snap() == Attempted(start, request, attempt)
      requires Linked(attempts, operation, respond, parse)
      requires Unused(base, assistantId)
      requires last.id == assistantId && last.role == Assistant && last.timestamp == assistantTime
      requires Showing(base, last, assistantId, assistantTime, attempts, operation, attempt)
      modifies this, hook
      ensures outcome == operation(attempt + 1)
      ensures Showing(base, last, assistantId, assistantTime, attempts, operation, attempt + 1)
      ensures Snap() == Attempted(start, request, attempt + 1)
    {
      ghost var current := if attempt == 0 then last
        else Placeholder(assistantId, assistantTime, attempts(attempt).content, operation(attempt).Threw?);
      outcome := PerformRequest(request, assistantId, assistantTime, respond(attempt + 1), parse, base, current);
    }

    /**
     * One turn of the retry loop of src/lib/retry.ts: the attempt numbered
     * `attempt + 1`, then either the run's end or the `onRetry` call and the
     * wait before the next attempt. `attempts` names what each attempt reads
     * and `operation` what each returns to `retry`.
     */
    method RetryTurn(maxAttempts: int, delay: int, backoff: bool, hasOnRetry: bool, attempt: nat, trace: seq<RetryEvent>,
                     request: ChatRequest, assistantId: string, assistantTime: int,
                     respond: nat -> SseClient.Response, parse: string -> Option<Json>,
                     ghost attempts: nat -> Attempt, ghost operation: nat -> Outcome<()>,
                     ghost base: seq<Message>, ghost last: Message, ghost start: Snapshot)
      returns (stop: Option<Run<()>>, next: seq<RetryEvent>)
      requires attempt < maxAttempts
      requires Snap() == Attempted(start, request, attempt)
      requires Linked(attempts, operation, respond, parse)
      requires Unused(base, assistantId)
      requires last.id == assistantId && last.role == Assistant && last.timestamp == assistantTime
      requires Showing(base, last, assistantId, assistantTime, attempts, operation, attempt)
      modifies this, hook
      ensures stop.Some? ==> (stop.value.calls == attempt + 1 && stop.value.outcome == operation(attempt + 1)
        && stop.value == After(attempt, trace, RunFrom(operation, maxAttempts, delay, backoff, hasOnRetry, attempt)))
      ensures stop.None? ==> (attempt + 1 < maxAttempts
        && After(attempt, trace, RunFrom(operation, maxAttempts, delay, backoff, hasOnRetry, attempt))
          == After(attempt + 1, next, RunFrom(operation, maxAttempts, delay, backoff, hasOnRetry, attempt + 1)))
      ensures Showing(base, last, assistantId, assistantTime, attempts, operation, attempt + 1)
      ensures Snap() == Attempted(start, request, attempt + 1)
    {
      var outcome := SendAttempt(request, assistantId, assistantTime, respond, parse, attempt,
                                 attempts, operation, base, last, start);
      next := trace;
      match outcome {
        case Returned(v) =>
          FinalStep(operation, maxAttempts, delay, backoff, hasOnRetry, attempt, trace);
          return Some(Run(Returned(v), attempt + 1, trace)), next;
        case Threw(error) =>
          if IsAbortError(error) || IsClientError(error) || attempt + 1 >= maxAttempts {
            FinalStep(operation, maxAttempts, delay, backoff, hasOnRetry, attempt, trace);
            return Some(Run(Threw(error), attempt + 1, trace)), next;
          }
          RetriedStep(operation, maxAttempts, delay, backoff, hasOnRetry, attempt, trace);
          next := BetweenAttempts(trace, attempt + 1, error, hasOnRetry, delay, backoff);
          return None, next;
      }
    }

    /** `retry(performRequest, options)`: turns until one ends the run, or the attempts run out. */
    method RetryRequests(options: RetryOptions, request: ChatRequest, assistantId: string, assistantTime: int,
                         respond: nat -> SseClient.Response, parse: string -> Option<Json>,
                         ghost attempts: nat -> Attempt, ghost operation: nat -> Outcome<()>,
                         ghost base: seq<Message>, ghost last: Message, ghost start: Snapshot)
      returns (r: Run<()>)
      requires Snap() == start
      requires Linked(attempts, operation, respond, parse)
      requires Unused(base, assistantId)
      requires hook.messages == base + [last] && last.id == assistantId && last.role == Assistant && last.timestamp == assistantTime
      modifies this, hook
      ensures r == Spec(operation, options)
      ensures r.calls == 0 ==> hook.messages == old(hook.messages)
      ensures r.calls > 0 ==> (hook.messages
        == base + [Placeholder(assistantId, assistantTime, attempts(r.calls).content, r.outcome.Threw?)])
      ensures Snap() == Attempted(start, request, r.calls)
    {
      var maxAttempts := options.maxAttempts.GetOr(DefaultMaxAttempts);
      var delay := options.delay.GetOr(DefaultDelay);
      var backoff := options.backoff.GetOr(false);
      var attempt: nat := 0;
      var trace: seq<RetryEvent> := [];
      assert After(0, [], RunFrom(operation, maxAttempts, delay, backoff, options.hasOnRetry, 0))
        == RunFrom(operation, maxAttempts, delay, backoff, options.hasOnRetry, 0);
      while attempt < maxAttempts
        invariant Spec(operation, options)
          == After(attempt, trace, RunFrom(operation, maxAttempts, delay, backoff, options.hasOnRetry, attempt))
        invariant Showing(base, last, assistantId, assistantTime, attempts, operation, attempt)
        invariant attempt == 0 || attempt < maxAttempts
        invariant Snap() == Attempted(start, request, attempt)
        decreases maxAttempts - attempt
      {
        var stop;
        stop, trace := RetryTurn(maxAttempts, delay, backoff, options.hasOnRetry, attempt, trace,
                                 request, assistantId, assistantTime, respond, parse, attempts, operation, base, last, start);
        attempt := attempt + 1;
        if stop.Some? {
          return stop.value;
        }
      }
      r := Run(Threw(Exhausted()), attempt, trace);
      assert trace + [] == trace;
    }

    /**
     * `handleSend(content)`: `isOnline` is the connectivity the send sees;
     * the two ids and clock readings are the fresh values `generateId` and
     * `Date.now` give; the n-th attempt gets `respond(n)`. Offline, nothing
     * is sent and `None` is returned; online, the run of the retried send.
     */
    method HandleSend(content: string, isOnline: bool, userId: string, userTime: int, assistantId: string, assistantTime: int,
                      respond: nat -> SseClient.Response, parse: string -> Option<Json>)
      returns (r: Option<Run<()>>)
      requires userId != assistantId && Unused(hook.messages, assistantId)
      modifies this, hook
      ensures !isOnline ==> (r == None && error == Some(Toast(OfflineSendNotice, Offline))
        && hook.messages == old(hook.messages) && isLoading == old(isLoading) && controllerRef == old(controllerRef)
        && controllers == old(controllers) && aborted == old(aborted) && requests == old(requests))
      ensures isOnline ==> r == Some(SendRun(respond, parse))
      ensures isOnline && r.value.outcome.Returned? ==>
        hook.messages == old(hook.messages) + [Message(userId, User, content, userTime, None),
          Placeholder(assistantId, assistantTime, AttemptOf(respond(r.value.calls), parse).content, false)]
        && error == AtSend(old(error))
      ensures isOnline && r.value.outcome.Threw? ==>
        hook.messages == old(hook.messages) + [Message(userId, User, content, userTime, None)]
        && error == Some(FailureToast(r.value.outcome.error, isOnline))
      ensures isOnline ==> (!isLoading && controllerRef == None
        && requests == old(requests) + Repeat(ChatRequest(content, History(old(hook.messages))), r.value.calls))
      ensures isOnline ==> (controllers == old(controllers) + r.value.calls
        && aborted == old(aborted) + AbortedBy(old(controllerRef), old(controllers), r.value.calls))
      ensures hook.currentSession == old(hook.currentSession) && hook.sessions == old(hook.sessions)
      ensures wasOnline == old(wasOnline)
    {
      if !isOnline {
        error := Some(Toast(OfflineSendNotice, Offline));
        return None;
      }
      ghost var base := hook.messages + [Message(userId, User, content, userTime, None)];
      var request := BeginSend(content, userId, userTime, assistantId, assistantTime);
      ghost var attempts := Attempts(respond, parse);
      ghost var operation := Operation(respond, parse);
      ghost var begun := Snap();
      var run := RetryRequests(SendRetry, request, assistantId, assistantTime, respond, parse,
                               attempts, operation, base, Placeholder(assistantId, assistantTime, "", true), begun);
      AttemptedCounts(begun, request, run.calls);
      NeverExhaustedWithAttempts(operation, SendRetry);
      EndSend(run, isOnline, assistantId, assistantTime, base, attempts(run.calls).content);
      return Some(run);
    }

    /** The start of an online send: clear a non-offline toast, show the user message and an empty streaming reply. */
    method BeginSend(content: string, userId: string, userTime: int, assistantId: string, assistantTime: int)
      returns (request: ChatRequest)
      requires userId != assistantId && Unused(hook.messages, assistantId)
      modifies this, hook
      ensures hook.messages == old(hook.messages)
        + [Message(userId, User, content, userTime, None), Placeholder(assistantId, assistantTime, "", true)]
      ensures Unused(old(hook.messages) + [Message(userId, User, content, userTime, None)], assistantId)
      ensures request == ChatRequest(content, History(old(hook.messages)))
      ensures error == AtSend(old(error)) && isLoading
      ensures controllerRef == old(controllerRef) && controllers == old(controllers) && aborted == old(aborted)
      ensures requests == old(requests) && wasOnline == old(wasOnline)
      ensures hook.currentSession == old(hook.currentSession) && hook.sessions == old(hook.sessions)
    {
      error := AtSend(error);
      var messages := hook.messages;
      var userMessage := Message(userId, User, content, userTime, None);
      hook.AddMessage(userMessage);
      hook.AddMessage(Placeholder(assistantId, assistantTime, "", true));
      isLoading := true;
      request := ChatRequest(content, History(messages));
    }

    /** The end of an online send: a failed run shows its toast and drops the reply; loading stops either way. */
    method EndSend(run: Run<()>, isOnline: bool, assistantId: string, assistantTime: int,
                   ghost base: seq<Message>, ghost content: string)
      requires Unused(base, assistantId)
      requires hook.messages == base + [Placeholder(assistantId, assistantTime, content, run.outcome.Threw?)]
      modifies this, hook
      ensures run.outcome.Returned? ==> hook.messages == old(hook.messages) && error == old(error)
      ensures run.outcome.Threw? ==> hook.messages == base && error == Some(FailureToast(run.outcome.error, isOnline))
      ensures !isLoading && controllerRef == None
      ensures controllers == old(controllers) && aborted == old(aborted)
      ensures requests == old(requests) && wasOnline == old(wasOnline)
      ensures hook.currentSession == old(hook.currentSession) && hook.sessions == old(hook.sessions)
    {
      if run.outcome.Threw? {
        error := Some(FailureToast(run.outcome.error, isOnline));
        RemoveUndoesAdd(base, Placeholder(assistantId, assistantTime, content, true));
        hook.RemoveMessage(assistantId);
      }
      isLoading := false;
      controllerRef := None;
    }
  }
}
