/**
 * The session store of lib/storage.ts: an upsert-by-id list of chat sessions
 * kept as JSON text under the key "chat_sessions" of the browser's key-value
 * storage, with the id of the active session under "current_session_id".
 *
 * The key-value storage is a map from keys to strings, as the test harness's
 * localStorage stand-in (jest.setup.js) defines it. Every `setItem` may throw:
 * the outcomes of the upcoming `setItem` calls are a script (the n-th entry is
 * `Some(fault)` when the n-th call throws); once the script is exhausted every
 * write succeeds. `JSON.stringify`/`JSON.parse` of the session list are an
 * oracle `Codec`.
 */
module Storage {
  import opened Optional
  import opened ChatTypes
  import JsStrings
  import JsArrays

  const SessionsKey: string := "chat_sessions"
  const CurrentSessionKey: string := "current_session_id"
  /** Reserved by the store; no operation reads or writes it. */
  const SettingsKey: string := "chat_settings"

  const MaxSessions: nat := 20
  /** How many sessions the quota-exceeded path keeps before it retries. */
  const QuotaKeepCount: int := 5
  const TitleLength: nat := 30

  /** Why a `setItem` call threw: a `DOMException` named `QuotaExceededError`, or anything else. */
  datatype Fault = QuotaExceeded | WriteFailed

  /** How a storage operation ended: normally, or by throwing. */
  datatype WriteResult = Written | Threw(fault: Fault)

  /** `JSON.stringify` and `JSON.parse` of a session list. */
  datatype Codec = Codec(encode: seq<ChatSession> -> string, decode: string -> Option<seq<ChatSession>>)

  /** Parsing what was stringified gives the list back, and the text is never empty. */
  ghost predicate Lawful(c: Codec) {
    forall ss: seq<ChatSession> :: c.encode(ss) != "" && c.decode(c.encode(ss)) == Some(ss)
  }

  /** The state of the key-value storage after some operation, and how the operation ended. */
  datatype Effect = Effect(items: map<string, string>, script: seq<Option<Fault>>, result: WriteResult)

  // ---------------------------------------------------------------------
  // The key-value storage: one scripted `setItem`
  // ---------------------------------------------------------------------

  /** The outcome of the next `setItem` call. */
  function NextWrite(script: seq<Option<Fault>>): WriteResult {
    if script == [] || script[0].None? then Written else Threw(script[0].value)
  }

  function AfterWrite(script: seq<Option<Fault>>): seq<Option<Fault>> {
    if script == [] then [] else script[1..]
  }

  /** `localStorage.setItem(key, value)`: the map changes only when the call does not throw. */
  function WriteEffect(items: map<string, string>, script: seq<Option<Fault>>, key: string, value: string): (e: Effect)
    ensures e.script == AfterWrite(script) && e.result == NextWrite(script)
    ensures e.items == if e.result.Written? then items[key := value] else items
  {
    match NextWrite(script)
    case Written => Effect(items[key := value], AfterWrite(script), Written)
    case Threw(f) => Effect(items, AfterWrite(script), Threw(f))
  }

  // ---------------------------------------------------------------------
  // Pure operations on the session list
  // ---------------------------------------------------------------------

  /** `getSessions` on the stored text: `data ? JSON.parse(data) : []`, and `[]` when parsing throws. */
  function ParseSessions(data: Option<string>, codec: Codec): (r: seq<ChatSession>)
    ensures data.None? || data == Some("") ==> r == []
    ensures data.Some? && data.value != "" && codec.decode(data.value).None? ==> r == []
    ensures data.Some? && data.value != "" && codec.decode(data.value).Some? ==> r == codec.decode(data.value).value
  {
    match data
    case None => []
    case Some(text) => if text == "" then [] else codec.decode(text).GetOr([])
  }

  /** The session list a reader of the storage sees. */
  function StoredSessions(available: bool, codec: Codec, items: map<string, string>): seq<ChatSession> {
    if !available then []
    else ParseSessions(if SessionsKey in items then Some(items[SessionsKey]) else None, codec)
  }

  /** What was written is what is read back. */
  lemma ReadBack(codec: Codec, items: map<string, string>, ss: seq<ChatSession>)
    requires Lawful(codec)
    ensures StoredSessions(true, codec, items[SessionsKey := codec.encode(ss)]) == ss
  {
  }

  /** `findIndex(s => s.id === id)`: the first index holding the id, or -1. */
  function IndexOf(ss: seq<ChatSession>, id: string): (i: int)
    ensures -1 <= i < |ss|
    ensures 0 <= i ==> ss[i].id == id
    ensures forall j :: 0 <= j < |ss| && (i == -1 || j < i) ==> ss[j].id != id
  {
    if ss == [] then -1
    else if ss[0].id == id then 0
    else
      var k := IndexOf(ss[1..], id);
      if k < 0 then -1 else k + 1
  }

  /** `find(s => s.id === id) || null`: the first session holding the id. */
  function Find(ss: seq<ChatSession>, id: string): (r: Option<ChatSession>)
    ensures r.None? <==> forall j :: 0 <= j < |ss| ==> ss[j].id != id
    ensures r.Some? ==> r.value.id == id && r.value in ss
    ensures r.Some? ==> exists i :: 0 <= i < |ss| && ss[i] == r.value && forall j :: 0 <= j < i ==> ss[j].id != id
  {
    var i := IndexOf(ss, id);
    if 0 <= i then Some(ss[i]) else None
  }

  /** The ids of a session list, in order. */
  function Ids(ss: seq<ChatSession>): (r: seq<string>)
    ensures |r| == |ss| && forall i :: 0 <= i < |ss| ==> r[i] == ss[i].id
  {
    seq(|ss|, i requires 0 <= i < |ss| => ss[i].id)
  }

  /** The upsert of `saveSession`: an existing id is replaced where it stands, a new one goes first. */
  function Upsert(ss: seq<ChatSession>, s: ChatSession): seq<ChatSession> {
    var i := IndexOf(ss, s.id);
    if 0 <= i then ss[i := s] else [s] + ss
  }

  /** `slice(0, n)` for a non-negative n. */
  function Take<T>(s: seq<T>, n: nat): (r: seq<T>)
    ensures |r| == if |s| <= n then |s| else n
    ensures r == s[..|r|]
  {
    if |s| <= n then s else s[..n]
  }

  /** The cap of `saveSession`: at most `MaxSessions` entries, taken from the front. */
  function Cap(ss: seq<ChatSession>): seq<ChatSession> {
    Take(ss, MaxSessions)
  }

  /** `filter(s => s.id !== id)` */
  function Without(ss: seq<ChatSession>, id: string): seq<ChatSession> {
    JsArrays.Filter(ss, (s: ChatSession) => s.id != id)
  }

  // ---- upsert ----

  /**
   * Saving an id that is present keeps the list's length and its order of ids
   * and puts the new value where the old one stood; saving a new id puts it
   * in front of the unchanged list.
   */
  lemma UpsertPositions(ss: seq<ChatSession>, s: ChatSession)
    ensures var i := IndexOf(ss, s.id);
      if 0 <= i then
        Ids(Upsert(ss, s)) == Ids(ss) && Upsert(ss, s)[i] == s
        && forall j :: 0 <= j < |ss| && j != i ==> Upsert(ss, s)[j] == ss[j]
      else
        Upsert(ss, s) == [s] + ss && Ids(Upsert(ss, s)) == [s.id] + Ids(ss)
  {
    var i := IndexOf(ss, s.id);
    if 0 <= i {
      UpsertReplaces(ss, s, i);
    } else {
      IdsCons(s, ss);
    }
  }

  lemma UpsertReplaces(ss: seq<ChatSession>, s: ChatSession, i: nat)
    requires i < |ss| && ss[i].id == s.id
    ensures Ids(ss[i := s]) == Ids(ss)
  {
    assert forall j :: 0 <= j < |ss| ==> Ids(ss[i := s])[j] == Ids(ss)[j];
  }

  lemma IdsCons(s: ChatSession, ss: seq<ChatSession>)
    ensures Ids([s] + ss) == [s.id] + Ids(ss)
  {
    assert forall j :: 0 <= j < |ss| + 1 ==> Ids([s] + ss)[j] == ([s.id] + Ids(ss))[j];
  }

  /** After the upsert the saved id is found with the saved value; every other id is found as before. */
  lemma {:induction false} FindAfterUpsert(ss: seq<ChatSession>, s: ChatSession, other: string)
    ensures Find(Upsert(ss, s), s.id) == Some(s)
    ensures other != s.id ==> Find(Upsert(ss, s), other) == Find(ss, other)
  {
    var i := IndexOf(ss, s.id);
    var r := Upsert(ss, s);
    if 0 <= i {
      assert IndexOf(r, s.id) == i by {
        IndexOfIsFirst(r, s.id, i);
      }
      if other != s.id {
        var k := IndexOf(ss, other);
        if 0 <= k {
          IndexOfIsFirst(r, other, k);
        }
      }
    } else {
      assert r[0] == s;
      if other != s.id {
        var k := IndexOf(ss, other);
        if 0 <= k {
          IndexOfIsFirst(r, other, k + 1);
        } else {
          assert forall j :: 0 <= j < |r| ==> r[j].id != other by {
            forall j | 0 <= j < |r| ensures r[j].id != other {
              if j > 0 { assert r[j] == ss[j - 1]; }
            }
          }
        }
      }
    }
  }

  /** The first index holding an id is what IndexOf computes. */
  lemma IndexOfIsFirst(ss: seq<ChatSession>, id: string, i: nat)
    requires i < |ss| && ss[i].id == id
    requires forall j :: 0 <= j < i ==> ss[j].id != id
    ensures IndexOf(ss, id) == i
  {
  }

  // ---- many saves ----

  /** Saving each session of `news` in turn, every write succeeding. */
  function SaveAll(ss: seq<ChatSession>, news: seq<ChatSession>): seq<ChatSession>
    decreases |news|
  {
    if news == [] then ss else SaveAll(Cap(Upsert(ss, news[0])), news[1..])
  }

  predicate DistinctIds(ss: seq<ChatSession>) {
    forall i, j :: 0 <= i < j < |ss| ==> ss[i].id != ss[j].id
  }

  function Reverse<T>(s: seq<T>): (r: seq<T>)
    ensures |r| == |s| && forall i :: 0 <= i < |s| ==> r[i] == s[|s| - 1 - i]
  {
    if s == [] then [] else Reverse(s[1..]) + [s[0]]
  }

  lemma TakeOfTake<T>(a: seq<T>, y: seq<T>, n: nat)
    ensures Take(a + Take(y, n), n) == Take(a + y, n)
  {
    if |y| > n {
      var b := y[..n];
      if |a| >= n {
        assert (a + b)[..n] == a[..n] by {
          assert forall k :: 0 <= k < n ==> (a + b)[k] == a[k];
        }
        assert (a + y)[..n] == a[..n] by {
          assert forall k :: 0 <= k < n ==> (a + y)[k] == a[k];
        }
      } else {
        assert (a + b)[..n] == a + b[..n - |a|];
        assert (a + y)[..n] == a + y[..n - |a|];
        assert b[..n - |a|] == y[..n - |a|];
      }
    }
  }

  /** No id of `news` occurs in `ss`. */
  predicate FreshIds(news: seq<ChatSession>, ss: seq<ChatSession>) {
    forall i, j :: 0 <= i < |news| && 0 <= j < |ss| ==> news[i].id != ss[j].id
  }

  lemma FreshIdsStep(news: seq<ChatSession>, ss: seq<ChatSession>)
    requires news != [] && DistinctIds(news) && FreshIds(news, ss)
    ensures DistinctIds(news[1..])
    ensures FreshIds(news[1..], Cap([news[0]] + ss))
  {
    var y := [news[0]] + ss;
    forall i, j | 0 <= i < |news[1..]| && 0 <= j < |Cap(y)|
      ensures news[1..][i].id != Cap(y)[j].id
    {
      if j > 0 { assert Cap(y)[j] == ss[j - 1]; }
    }
  }

  /**
   * Saving sessions whose ids are new and pairwise distinct leaves them in
   * reverse order of saving in front of the old list, capped at MaxSessions.
   */
  lemma {:induction false} SaveAllDistinct(ss: seq<ChatSession>, news: seq<ChatSession>)
    requires |ss| <= MaxSessions && DistinctIds(news) && FreshIds(news, ss)
    ensures SaveAll(ss, news) == Take(Reverse(news) + ss, MaxSessions)
    decreases |news|
  {
    if news != [] {
      var n0 := news[0];
      var y := [n0] + ss;
      calc {
        SaveAll(ss, news);
        == { assert IndexOf(ss, n0.id) == -1; }
        SaveAll(Cap(y), news[1..]);
        == { FreshIdsStep(news, ss); SaveAllDistinct(Cap(y), news[1..]); }
        Take(Reverse(news[1..]) + Take(y, MaxSessions), MaxSessions);
        == { TakeOfTake(Reverse(news[1..]), y, MaxSessions); }
        Take(Reverse(news[1..]) + y, MaxSessions);
        == { assert Reverse(news) == Reverse(news[1..]) + [n0]; }
        Take(Reverse(news) + ss, MaxSessions);
      }
    }
  }

  /** Saving 25 sessions with distinct ids into an empty store keeps the last 20 saved, newest first. */
  lemma TwentyFiveSaves(news: seq<ChatSession>)
    requires |news| == 25 && DistinctIds(news)
    ensures |SaveAll([], news)| == 20
    ensures forall k :: 0 <= k < 20 ==> SaveAll([], news)[k] == news[24 - k]
  {
    SaveAllDistinct([], news);
    assert Reverse(news) + [] == Reverse(news);
  }

  // ---- cleanup: a stable sort by updatedAt, newest first ----

  /** Puts `s` before the first entry that is not newer than it. */
  function InsertByRecency(s: ChatSession, sorted: seq<ChatSession>): (r: seq<ChatSession>)
    ensures |r| == |sorted| + 1
    ensures multiset(r) == multiset(sorted) + multiset{s}
  {
    if sorted == [] || sorted[0].updatedAt <= s.updatedAt then [s] + sorted
    else
      assert sorted == [sorted[0]] + sorted[1..];
      [sorted[0]] + InsertByRecency(s, sorted[1..])
  }

  /** `sort((a, b) => b.updatedAt - a.updatedAt)`, which is stable. */
  function SortNewestFirst(ss: seq<ChatSession>): (r: seq<ChatSession>)
    ensures |r| == |ss|
  {
    if ss == [] then [] else InsertByRecency(ss[0], SortNewestFirst(ss[1..]))
  }

  predicate NewestFirst(ss: seq<ChatSession>) {
    forall i, j :: 0 <= i < j < |ss| ==> ss[i].updatedAt >= ss[j].updatedAt
  }

  /** The sessions last updated at time t, in list order. */
  function UpdatedAt(ss: seq<ChatSession>, t: int): seq<ChatSession> {
    JsArrays.Filter(ss, (s: ChatSession) => s.updatedAt == t)
  }

  lemma {:induction false} InsertKeepsOrder(s: ChatSession, sorted: seq<ChatSession>)
    requires NewestFirst(sorted)
    ensures NewestFirst(InsertByRecency(s, sorted))
    ensures InsertByRecency(s, sorted)[0] == s || InsertByRecency(s, sorted)[0] == sorted[0]
    decreases |sorted|
  {
    if !(sorted == [] || sorted[0].updatedAt <= s.updatedAt) {
      InsertKeepsOrder(s, sorted[1..]);
    }
  }

  lemma {:induction false} InsertIsStable(s: ChatSession, sorted: seq<ChatSession>, t: int)
    ensures UpdatedAt(InsertByRecency(s, sorted), t)
         == (if s.updatedAt == t then [s] else []) + UpdatedAt(sorted, t)
    decreases |sorted|
  {
    if sorted == [] || sorted[0].updatedAt <= s.updatedAt {
      assert ([s] + sorted)[1..] == sorted;
    } else {
      var r := [sorted[0]] + InsertByRecency(s, sorted[1..]);
      assert r[1..] == InsertByRecency(s, sorted[1..]);
      InsertIsStable(s, sorted[1..], t);
    }
  }

  /**
   * The cleanup sort orders the sessions newest first, loses and invents
   * none, and keeps sessions with equal `updatedAt` in their stored order.
   */
  lemma {:induction false} SortNewestFirstCorrect(ss: seq<ChatSession>)
    ensures NewestFirst(SortNewestFirst(ss))
    ensures multiset(SortNewestFirst(ss)) == multiset(ss)
    ensures forall t :: UpdatedAt(SortNewestFirst(ss), t) == UpdatedAt(ss, t)
    decreases |ss|
  {
    if ss != [] {
      SortNewestFirstCorrect(ss[1..]);
      InsertKeepsOrder(ss[0], SortNewestFirst(ss[1..]));
      assert ss == [ss[0]] + ss[1..];
      forall t ensures UpdatedAt(SortNewestFirst(ss), t) == UpdatedAt(ss, t) {
        InsertIsStable(ss[0], SortNewestFirst(ss[1..]), t);
      }
    }
  }

  /** What `cleanupOldSessions(keepCount)` writes: the first keepCount entries of the sorted list. */
  function Newest(ss: seq<ChatSession>, keepCount: int): seq<ChatSession> {
    JsStrings.SliceTo(SortNewestFirst(ss), keepCount)
  }

  /** Every session the cleanup keeps is at least as new as every session it drops. */
  lemma NewestKeepsMostRecent(ss: seq<ChatSession>, keepCount: nat)
    ensures var sorted := SortNewestFirst(ss);
      Newest(ss, keepCount) == sorted[..|Newest(ss, keepCount)|]
      && forall i, j :: 0 <= i < |Newest(ss, keepCount)| <= j < |sorted|
           ==> sorted[i].updatedAt >= sorted[j].updatedAt
  {
    SortNewestFirstCorrect(ss);
  }

  /** Timestamps 1, 3, 2 with keepCount 2 keep the newest and then the middle one. */
  lemma CleanupExample(oldest: ChatSession, newest: ChatSession, middle: ChatSession)
    requires oldest.updatedAt == 1 && newest.updatedAt == 3 && middle.updatedAt == 2
    ensures Newest([oldest, newest, middle], 2) == [newest, middle]
  {
    assert [oldest, newest, middle][1..] == [newest, middle];
    assert [newest, middle][1..] == [middle];
    assert SortNewestFirst([middle]) == [middle];
    assert SortNewestFirst([newest, middle]) == [newest, middle];
    assert InsertByRecency(oldest, [middle]) == [middle, oldest];
    assert SortNewestFirst([oldest, newest, middle]) == [newest, middle, oldest];
  }

  // ---- titles ----

  /** The index of the first user message, or -1. */
  function FirstUserIndex(messages: seq<Message>): (i: int)
    ensures -1 <= i < |messages|
    ensures 0 <= i ==> messages[i].role == User
    ensures forall j :: 0 <= j < |messages| && (i == -1 || j < i) ==> messages[j].role != User
  {
    if messages == [] then -1
    else if messages[0].role == User then 0
    else
      var k := FirstUserIndex(messages[1..]);
      if k < 0 then -1 else k + 1
  }

  /** `messages.find(m => m.role === 'user')` */
  function FirstUserMessage(messages: seq<Message>): (r: Option<Message>)
    ensures r.None? <==> forall i :: 0 <= i < |messages| ==> messages[i].role != User
    ensures r.Some? ==> r.value.role == User && r.value in messages
  {
    var i := FirstUserIndex(messages);
    if 0 <= i then Some(messages[i]) else None
  }

  /** The title made from a first message: its first 30 characters, with "..." when cut. */
  function TitleFrom(content: string): (t: string)
    ensures |content| <= TitleLength ==> t == content
    ensures TitleLength < |content| ==> t == content[..TitleLength] + "..." && |t| == TitleLength + 3
  {
    JsStrings.SliceTo(content, TitleLength) + (if |content| > TitleLength then "..." else "")
  }

  /**
   * The session `updateSessionTitle` writes, if any: the stored session with
   * the id, retitled from the first user message and stamped `now`, provided
   * it still has the default title.
   */
  function Retitled(ss: seq<ChatSession>, id: string, messages: seq<Message>, now: int): Option<ChatSession> {
    var found := Find(ss, id);
    var first := FirstUserMessage(messages);
    if found.Some? && first.Some? && found.value.title == DefaultTitle then
      Some(found.value.(title := TitleFrom(first.value.content), updatedAt := now))
    else None
  }

  /**
   * A retitle happens exactly when the session exists, still has the default
   * title and a user message is present; it changes only the title and the
   * update time.
   */
  lemma RetitledWhen(ss: seq<ChatSession>, id: string, messages: seq<Message>, now: int)
    ensures Retitled(ss, id, messages, now).Some?
      <==> Find(ss, id).Some? && Find(ss, id).value.title == DefaultTitle
           && exists i :: 0 <= i < |messages| && messages[i].role == User
    ensures Retitled(ss, id, messages, now).Some? ==>
      var s := Find(ss, id).value;
      Retitled(ss, id, messages, now).value
        == ChatSession(s.id, TitleFrom(FirstUserMessage(messages).value.content), s.messages, s.createdAt, now)
  {
  }

  /**
   * Once a session has been retitled (from a message other than the default
   * title itself) and saved, a later retitle with any messages writes nothing.
   */
  lemma TitleSetOnce(ss: seq<ChatSession>, id: string, m1: seq<Message>, m2: seq<Message>, t1: int, t2: int)
    requires Retitled(ss, id, m1, t1).Some?
    requires FirstUserMessage(m1).value.content != DefaultTitle
    ensures Retitled(Cap(Upsert(ss, Retitled(ss, id, m1, t1).value)), id, m2, t2).None?
  {
    var x := Retitled(ss, id, m1, t1).value;
    var c := FirstUserMessage(m1).value.content;
    assert x.title != DefaultTitle by {
      if |c| > TitleLength { assert |x.title| == 33; }
    }
    var r := Upsert(ss, x);
    FindAfterUpsert(ss, x, id);
    FindInPrefix(r, id);
    assert Find(Cap(r), id).Some? ==> Find(Cap(r), id).value == x;
  }

  /** A session found in the capped list is the one found in the whole list. */
  lemma FindInPrefix(ss: seq<ChatSession>, id: string)
    ensures Find(Cap(ss), id).Some? ==> Find(Cap(ss), id) == Find(ss, id)
  {
    var capped := Cap(ss);
    var k := IndexOf(capped, id);
    if 0 <= k {
      assert capped[k] == ss[k];
      assert forall j :: 0 <= j < k ==> ss[j].id != id;
      IndexOfIsFirst(ss, id, k);
    }
  }

  /** A 40-character first user message after an assistant message gives a 30-character title plus "...". */
  lemma LongTitleExample(s: ChatSession, a: Message, u: Message, now: int)
    requires s.title == DefaultTitle && a.role == Assistant && u.role == User && |u.content| == 40
    ensures Retitled([s], s.id, [a, u], now) == Some(s.(title := u.content[..30] + "...", updatedAt := now))
  {
    assert FirstUserIndex([a, u]) == 1 by {
      assert [a, u][1..] == [u];
    }
    assert Find([s], s.id) == Some(s);
    assert TitleFrom(u.content) == u.content[..30] + "...";
  }

  // ---- the current-session id ----

  /** `setCurrentSessionId(id)`: a non-empty id is written, null or "" removes the key. */
  function CurrentIdEffect(items: map<string, string>, script: seq<Option<Fault>>, id: Option<string>): (e: Effect)
    ensures id.Some? && id.value != "" ==> e == WriteEffect(items, script, CurrentSessionKey, id.value)
    ensures id.None? || id.value == "" ==> e == Effect(items - {CurrentSessionKey}, script, Written)
  {
    if id.Some? && id.value != "" then WriteEffect(items, script, CurrentSessionKey, id.value)
    else Effect(items - {CurrentSessionKey}, script, Written)
  }

  /** Removes the current-session key when it names `id`. */
  function ClearCurrentIdIf(items: map<string, string>, id: string): map<string, string> {
    if CurrentSessionKey in items && items[CurrentSessionKey] == id then items - {CurrentSessionKey} else items
  }

  /**
   * `deleteSession(id)` on available storage: write the list without the
   * session; when that write succeeds, remove the current-session key if it
   * names the session. A failed write is logged and swallowed.
   */
  function DeleteEffect(codec: Codec, items: map<string, string>, script: seq<Option<Fault>>, id: string): (e: Effect)
    ensures e.result == Written && e.script == AfterWrite(script)
    ensures NextWrite(script).Threw? ==> e.items == items
  {
    var w := WriteEffect(items, script, SessionsKey, codec.encode(Without(StoredSessions(true, codec, items), id)));
    if w.result.Threw? then Effect(items, w.script, Written)
    else Effect(ClearCurrentIdIf(w.items, id), w.script, Written)
  }

  // ---- saveSession ----

  /**
   * `saveSession(s)` on available storage: upsert, cap and write; on a
   * quota error clean up to the 5 newest sessions and write `[s]` alone.
   * A failure of that last write, and any error other than the quota, is
   * logged and swallowed; a failure of the cleanup's own write escapes the
   * catch block and propagates.
   */
  function SaveEffect(codec: Codec, items: map<string, string>, script: seq<Option<Fault>>, s: ChatSession): Effect {
    var current := StoredSessions(true, codec, items);
    var first := WriteEffect(items, script, SessionsKey, codec.encode(Cap(Upsert(current, s))));
    match first.result
    case Written => first
    case Threw(WriteFailed) => Effect(items, first.script, Written)
    case Threw(QuotaExceeded) =>
      var cleanup := WriteEffect(items, first.script, SessionsKey, codec.encode(Newest(current, QuotaKeepCount)));
      if cleanup.result.Threw? then cleanup
      else
        var retry := WriteEffect(cleanup.items, cleanup.script, SessionsKey, codec.encode([s]));
        Effect(retry.items, retry.script, Written)
  }

  /**
   * What a save leaves stored: the upserted and capped list when the first
   * write succeeds; only the saved session when the quota was exceeded and
   * both the cleanup and the retry succeed.
   */
  lemma SavedSessions(codec: Codec, items: map<string, string>, script: seq<Option<Fault>>, s: ChatSession)
    requires Lawful(codec)
    ensures var after := StoredSessions(true, codec, SaveEffect(codec, items, script, s).items);
      NextWrite(script) == Written ==> after == Cap(Upsert(StoredSessions(true, codec, items), s))
    ensures var after := StoredSessions(true, codec, SaveEffect(codec, items, script, s).items);
      (NextWrite(script) == Threw(QuotaExceeded) && NextWrite(AfterWrite(script)) == Written
       && NextWrite(AfterWrite(AfterWrite(script))) == Written) ==> after == [s]
  {
    var current := StoredSessions(true, codec, items);
    if NextWrite(script) == Written {
      ReadBack(codec, items, Cap(Upsert(current, s)));
    } else if NextWrite(script) == Threw(QuotaExceeded) && NextWrite(AfterWrite(script)) == Written {
      var cleaned := items[SessionsKey := codec.encode(Newest(current, QuotaKeepCount))];
      ReadBack(codec, cleaned, [s]);
      assert cleaned[SessionsKey := codec.encode([s])] == items[SessionsKey := codec.encode([s])];
    }
  }

  /** `createSession()` on available storage: save the new session, then point at it. */
  function CreateEffect(codec: Codec, items: map<string, string>, script: seq<Option<Fault>>, s: ChatSession): Effect {
    var saved := SaveEffect(codec, items, script, s);
    if saved.result.Threw? then saved else CurrentIdEffect(saved.items, saved.script, Some(s.id))
  }

  /** `updateSessionTitle(id, messages)`: save the retitled session, if there is one; otherwise touch nothing. */
  function TitleEffect(codec: Codec, available: bool, items: map<string, string>, script: seq<Option<Fault>>,
                       id: string, messages: seq<Message>, now: int): Effect {
    match Retitled(StoredSessions(available, codec, items), id, messages, now)
    case None => Effect(items, script, Written)
    case Some(t) => SaveEffect(codec, items, script, t)
  }

  class SessionStore {
    /** Whether a window, and so localStorage, exists (false during server rendering). */
    const available: bool
    const codec: Codec
    /** The key-value storage. */
    var items: map<string, string>
    /** The outcomes of the upcoming `setItem` calls. */
    var script: seq<Option<Fault>>

    ghost predicate Valid() {
      Lawful(codec)
    }

    constructor (available: bool, codec: Codec, items: map<string, string>, script: seq<Option<Fault>>)
      requires Lawful(codec)
      ensures Valid()
      ensures this.available == available && this.codec == codec
      ensures this.items == items && this.script == script
    {
      this.available := available;
      this.codec := codec;
      this.items := items;
      this.script := script;
    }

    /** `localStorage.setItem(key, value)` */
    method SetItem(key: string, value: string) returns (r: WriteResult)
      modifies this
      ensures Effect(items, script, r) == WriteEffect(old(items), old(script), key, value)
    {
      r := NextWrite(script);
      if r.Written? {
        items := items[key := value];
      }
      script := AfterWrite(script);
    }

    /** `localStorage.removeItem(key)`; it never throws. */
    method RemoveItem(key: string)
      modifies this
      ensures items == old(items) - {key} && script == old(script)
    {
      items := items - {key};
    }

    /** `getSessions()` */
    function Sessions(): (r: seq<ChatSession>)
      reads this
      ensures !available ==> r == []
      ensures SessionsKey !in items || items[SessionsKey] == "" ==> r == []
      ensures SessionsKey in items && codec.decode(items[SessionsKey]).None? ==> r == []
    {
      StoredSessions(available, codec, items)
    }

    /** `getSession(id)` */
    function GetSession(id: string): (r: Option<ChatSession>)
      reads this
      ensures r.Some? ==> r.value.id == id && r.value in Sessions()
      ensures r.None? <==> forall j :: 0 <= j < |Sessions()| ==> Sessions()[j].id != id
      ensures r.Some? ==>
        exists i :: 0 <= i < |Sessions()| && Sessions()[i] == r.value && forall j :: 0 <= j < i ==> Sessions()[j].id != id
    {
      Find(Sessions(), id)
    }

    /** `getCurrentSessionId()` */
    function GetCurrentSessionId(): (r: Option<string>)
      reads this
      ensures !available || CurrentSessionKey !in items ==> r == None
      ensures available && CurrentSessionKey in items ==> r == Some(items[CurrentSessionKey])
    {
      if available && CurrentSessionKey in items then Some(items[CurrentSessionKey]) else None
    }

    /** `setCurrentSessionId(id)`; a failing write propagates. */
    method SetCurrentSessionId(id: Option<string>) returns (r: WriteResult)
      modifies this
      ensures available ==> Effect(items, script, r) == CurrentIdEffect(old(items), old(script), id)
      ensures !available ==> items == old(items) && script == old(script) && r == Written
      ensures available && r.Written? ==> GetCurrentSessionId() == (if id == Some("") then None else id)
    {
      if !available {
        return Written;
      }
      if id.Some? && id.value != "" {
        r := SetItem(CurrentSessionKey, id.value);
      } else {
        RemoveItem(CurrentSessionKey);
        r := Written;
      }
    }

    /** `cleanupOldSessions(keepCount)`: overwrites the list; a failing write propagates. */
    method CleanupOldSessions(keepCount: int) returns (r: WriteResult)
      modifies this
      ensures available ==> (Effect(items, script, r)
        == WriteEffect(old(items), old(script), SessionsKey, codec.encode(Newest(old(Sessions()), keepCount))))
      ensures !available ==> items == old(items) && script == old(script) && r == Written
      ensures Valid() && available && r.Written? ==> Sessions() == Newest(old(Sessions()), keepCount)
    {
      if !available {
        return Written;
      }
      var kept := JsStrings.SliceTo(SortNewestFirst(Sessions()), keepCount);
      r := SetItem(SessionsKey, codec.encode(kept));
    }

    /** `saveSession(s)` */
    method SaveSession(s: ChatSession) returns (r: WriteResult)
      modifies this
      ensures available ==> Effect(items, script, r) == SaveEffect(codec, old(items), old(script), s)
      ensures !available ==> items == old(items) && script == old(script) && r == Written
      ensures r.Threw? ==> r.fault == NextWrite(AfterWrite(old(script))).fault
    {
      if !available {
        return Written;
      }
      var sessions := Sessions();
      var index := IndexOf(sessions, s.id);
      if index >= 0 {
        sessions := sessions[index := s];
      } else {
        sessions := [s] + sessions;
      }
      if |sessions| > MaxSessions {
        sessions := sessions[..MaxSessions];
      }
      var w := SetItem(SessionsKey, codec.encode(sessions));
      r := Written;
      if w == Threw(QuotaExceeded) {
        var cleaned := CleanupOldSessions(QuotaKeepCount);
        if cleaned.Threw? {
          return cleaned;
        }
        var retry := SetItem(SessionsKey, codec.encode([s]));
      }
    }

    /** `deleteSession(id)`: nothing propagates; a failed write leaves the current-session key alone. */
    method DeleteSession(id: string)
      modifies this
      ensures !available ==> items == old(items) && script == old(script)
      ensures available ==> Effect(items, script, Written) == DeleteEffect(codec, old(items), old(script), id)
      ensures available ==> script == AfterWrite(old(script))
      ensures available && NextWrite(old(script)).Threw? ==> items == old(items)
      ensures available && NextWrite(old(script)).Written?
        ==> items == ClearCurrentIdIf(old(items)[SessionsKey := codec.encode(Without(old(Sessions()), id))], id)
      ensures Valid() && available && NextWrite(old(script)).Written? ==>
        Sessions() == Without(old(Sessions()), id)
        && GetCurrentSessionId() == (if old(GetCurrentSessionId()) == Some(id) then None else old(GetCurrentSessionId()))
    {
      if !available {
        return;
      }
      var kept := JsArrays.Filter(Sessions(), (s: ChatSession) => s.id != id);
      var w := SetItem(SessionsKey, codec.encode(kept));
      if w.Threw? {
        return;
      }
      if GetCurrentSessionId() == Some(id) {
        var cleared := SetCurrentSessionId(None);
      }
    }

    /** `createSession()` with the fresh id and the two clock readings as inputs. */
    method CreateSession(id: string, createdAt: int, updatedAt: int) returns (session: ChatSession, r: WriteResult)
      modifies this
      ensures session == ChatSession(id, DefaultTitle, [], createdAt, updatedAt)
      ensures available ==> Effect(items, script, r) == CreateEffect(codec, old(items), old(script), session)
      ensures !available ==> items == old(items) && script == old(script) && r == Written
      ensures Valid() && available && old(script) == [] ==>
        r == Written
        && Sessions() == Cap(Upsert(old(Sessions()), session))
        && GetCurrentSessionId() == (if id == "" then None else Some(id))
    {
      session := ChatSession(id, DefaultTitle, [], createdAt, updatedAt);
      r := SaveSession(session);
      if r.Threw? {
        return;
      }
      r := SetCurrentSessionId(Some(id));
    }

    /** `updateSessionTitle(id, messages)` with the clock reading `now` as input. */
    method UpdateSessionTitle(id: string, messages: seq<Message>, now: int) returns (r: WriteResult)
      modifies this
      ensures Retitled(old(Sessions()), id, messages, now).None? ==>
        items == old(items) && script == old(script) && r == Written
      ensures Retitled(old(Sessions()), id, messages, now).Some? ==> (available &&
        Effect(items, script, r)
          == SaveEffect(codec, old(items), old(script), Retitled(old(Sessions()), id, messages, now).value))
      ensures Effect(items, script, r) == TitleEffect(codec, available, old(items), old(script), id, messages, now)
    {
      var session := GetSession(id);
      if session.None? {
        return Written;
      }
      var firstUser := FirstUserMessage(messages);
      if firstUser.Some? && session.value.title == DefaultTitle {
        var retitled := session.value.(title := TitleFrom(firstUser.value.content), updatedAt := now);
        r := SaveSession(retitled);
      } else {
        r := Written;
      }
    }
  }
}
