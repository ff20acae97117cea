/**
 * hooks/useChat.ts: the message-list transforms the hook hands out, and the
 * hook's three state cells (`currentSession`, `messages`, `sessions`) over
 * the session store.
 */
module UseChat {
  import opened Optional
  import opened ChatTypes
  import JsArrays
  import opened Storage

  // ---------------------------------------------------------------------
  // The message list
  // ---------------------------------------------------------------------

  /** `Partial<Message>`: the fields an update sets; `None` is a field the update does not name. */
  datatype Patch = Patch(id: Option<string>, role: Option<Role>, content: Option<string>,
                         timestamp: Option<int>, isStreaming: Option<bool>)

  /** An update that leaves the id alone. */
  predicate KeepsId(p: Patch, id: string) {
    p.id.None? || p.id == Some(id)
  }

  /** `{ ...msg, ...updates }` */
  function Merge(m: Message, p: Patch): Message {
    Message(p.id.GetOr(m.id), p.role.GetOr(m.role), p.content.GetOr(m.content), p.timestamp.GetOr(m.timestamp),
            if p.isStreaming.Some? then p.isStreaming else m.isStreaming)
  }

  /** `addMessage`: `[...prev, message]` */
  function WithMessage(ms: seq<Message>, m: Message): (r: seq<Message>)
    ensures |r| == |ms| + 1 && r[..|ms|] == ms && r[|ms|] == m
  {
    ms + [m]
  }

  /** `updateMessage`: every message with the id takes the update; every other one, the length and the order stay. */
  function WithUpdate(ms: seq<Message>, id: string, p: Patch): (r: seq<Message>)
    ensures |r| == |ms|
    ensures forall i :: 0 <= i < |ms| && ms[i].id != id ==> r[i] == ms[i]
    ensures forall i :: 0 <= i < |ms| && ms[i].id == id ==> r[i] == Merge(ms[i], p)
  {
    seq(|ms|, i requires 0 <= i < |ms| => if ms[i].id == id then Merge(ms[i], p) else ms[i])
  }

  /** `removeMessage`: `prev.filter(msg => msg.id !== id)` */
  function WithoutMessage(ms: seq<Message>, id: string): (r: seq<Message>)
    ensures forall i :: 0 <= i < |r| ==> r[i].id != id && r[i] in ms
    ensures forall i :: 0 <= i < |ms| && ms[i].id != id ==> ms[i] in r
  {
    JsArrays.Filter(ms, (m: Message) => m.id != id)
  }

  /** No message carries the id. */
  predicate Unused(ms: seq<Message>, id: string) {
    forall i :: 0 <= i < |ms| ==> ms[i].id != id
  }

  /** Removing an id that is not there changes nothing. */
  lemma RemoveAbsent(ms: seq<Message>, id: string)
    requires Unused(ms, id)
    ensures WithoutMessage(ms, id) == ms
  {
    JsArrays.FilterAllKept(ms, (m: Message) => m.id != id);
  }

  /** Removing is idempotent. */
  lemma RemoveTwice(ms: seq<Message>, id: string)
    ensures WithoutMessage(WithoutMessage(ms, id), id) == WithoutMessage(ms, id)
  {
    RemoveAbsent(WithoutMessage(ms, id), id);
  }

  /** Adding a message with a new id and removing that id gives back the list. */
  lemma RemoveUndoesAdd(ms: seq<Message>, m: Message)
    requires Unused(ms, m.id)
    ensures WithoutMessage(WithMessage(ms, m), m.id) == ms
  {
    var keep := (x: Message) => x.id != m.id;
    JsArrays.FilterAppend(ms, [m], keep);
    JsArrays.FilterAllKept(ms, keep);
    assert JsArrays.Filter([m], keep) == [];
  }

  /** Updating an id no message has changes nothing. */
  lemma UpdateAbsent(ms: seq<Message>, id: string, p: Patch)
    requires Unused(ms, id)
    ensures WithUpdate(ms, id, p) == ms
  {
  }

  /** An update that keeps the id, applied twice, is applied once. */
  lemma UpdateTwice(ms: seq<Message>, id: string, p: Patch)
    requires KeepsId(p, id)
    ensures WithUpdate(WithUpdate(ms, id, p), id, p) == WithUpdate(ms, id, p)
  {
  }

  /** Removing after an update that keeps the id is removing alone. */
  lemma {:induction false} RemoveAfterUpdate(ms: seq<Message>, id: string, p: Patch)
    requires KeepsId(p, id)
    ensures WithoutMessage(WithUpdate(ms, id, p), id) == WithoutMessage(ms, id)
    decreases |ms|
  {
    if ms != [] {
      var keep := (x: Message) => x.id != id;
      assert WithUpdate(ms, id, p) == [WithUpdate(ms, id, p)[0]] + WithUpdate(ms[1..], id, p);
      assert ms == [ms[0]] + ms[1..];
      JsArrays.FilterAppend([WithUpdate(ms, id, p)[0]], WithUpdate(ms[1..], id, p), keep);
      JsArrays.FilterAppend([ms[0]], ms[1..], keep);
      RemoveAfterUpdate(ms[1..], id, p);
    }
  }

  /** The placeholder's streaming updates: after them the message holds the last content and still streams. */
  lemma UpdateMerges(m: Message, content: string, streaming: bool)
    ensures Merge(m, Patch(None, None, Some(content), None, Some(streaming)))
      == m.(content := content, isStreaming := Some(streaming))
  {
  }

  // ---------------------------------------------------------------------
  // The session list
  // ---------------------------------------------------------------------

  /** `prev.map(s => s.id === session.id ? session : s)` */
  function Replaced(ss: seq<ChatSession>, s: ChatSession): (r: seq<ChatSession>)
    ensures |r| == |ss|
    ensures forall i :: 0 <= i < |ss| ==> r[i] == if ss[i].id == s.id then s else ss[i]
  {
    seq(|ss|, i requires 0 <= i < |ss| => if ss[i].id == s.id then s else ss[i])
  }

  /** The replacement keeps the ids in place, and the saved session is what the id now finds. */
  lemma ReplacedInPlace(ss: seq<ChatSession>, s: ChatSession)
    ensures Ids(Replaced(ss, s)) == Ids(ss)
    ensures (exists i :: 0 <= i < |ss| && ss[i].id == s.id) ==> Find(Replaced(ss, s), s.id) == Some(s)
    ensures (forall i :: 0 <= i < |ss| ==> ss[i].id != s.id) ==> Replaced(ss, s) == ss
  {
    var r := Replaced(ss, s);
    if exists i :: 0 <= i < |ss| && ss[i].id == s.id {
      var i :| 0 <= i < |ss| && ss[i].id == s.id;
      assert r[i].id == s.id;
      var found := Find(r, s.id);
      var k :| 0 <= k < |r| && r[k] == found.value;
      assert ss[k].id == s.id;
    }
  }

  /** The list after deleting `id` and adding `replacement`: `[replacement, ...prev.filter(s => s.id !== id)]`. */
  function AfterDelete(ss: seq<ChatSession>, id: string, replacement: ChatSession): (r: seq<ChatSession>)
    requires replacement.id != id
    ensures |r| >= 1 && r[0] == replacement
    ensures forall i :: 0 <= i < |r| ==> r[i].id != id
    ensures forall i :: 0 <= i < |ss| && ss[i].id != id ==> ss[i] in r
  {
    [replacement] + Without(ss, id)
  }

  /** Deleting the current one of three sessions leaves the replacement and the two others, in order. */
  lemma DeleteCurrentOfThree(a: ChatSession, b: ChatSession, c: ChatSession, replacement: ChatSession)
    requires a.id != b.id && b.id != c.id && a.id != c.id && replacement.id != b.id
    ensures AfterDelete([a, b, c], b.id, replacement) == [replacement, a, c]
  {
    var keep := (s: ChatSession) => s.id != b.id;
    assert [a, b, c] == [a] + [b] + [c];
    JsArrays.FilterAppend([a] + [b], [c], keep);
    JsArrays.FilterAppend([a], [b], keep);
  }

  // ---------------------------------------------------------------------
  // The hook
  // ---------------------------------------------------------------------

  /** No session of the list carries the id. */
  predicate Lacks(ss: seq<ChatSession>, id: string) {
    forall j :: 0 <= j < |ss| ==> ss[j].id != id
  }

  /**
   * With every write succeeding, the deleted session is gone from storage
   * after `deleteSession`: after the store's own delete, and also after the
   * replacement that deleting the current session creates.
   */
  lemma DeletedSessionLeavesStorage(codec: Codec, items: map<string, string>, id: string, replacement: Option<ChatSession>)
    requires Lawful(codec)
    requires replacement.Some? ==> replacement.value.id != id
    ensures var deleted := DeleteEffect(codec, items, [], id);
      var after := if replacement.None? then deleted.items else CreateEffect(codec, deleted.items, deleted.script, replacement.value).items;
      Lacks(StoredSessions(true, codec, after), id)
  {
    var kept := Without(StoredSessions(true, codec, items), id);
    var written := items[SessionsKey := codec.encode(kept)];
    ReadBack(codec, items, kept);
    var deleted := DeleteEffect(codec, items, [], id);
    assert deleted.items == ClearCurrentIdIf(written, id);
    assert StoredSessions(true, codec, deleted.items) == kept by {
      assert SessionsKey in deleted.items && deleted.items[SessionsKey] == written[SessionsKey];
    }
    if replacement.Some? {
      var incoming := replacement.value;
      SavedSessions(codec, deleted.items, deleted.script, incoming);
      var saved := SaveEffect(codec, deleted.items, deleted.script, incoming);
      var upserted := Upsert(kept, incoming);
      assert StoredSessions(true, codec, saved.items) == Cap(upserted);
      UpsertPositions(kept, incoming);
      if 0 <= IndexOf(kept, incoming.id) {
        assert forall j :: 0 <= j < |upserted| ==> upserted[j].id == Ids(upserted)[j] == Ids(kept)[j];
      }
      assert Lacks(upserted, id);
      var created := CreateEffect(codec, deleted.items, deleted.script, incoming);
      assert SessionsKey in created.items && created.items[SessionsKey] == saved.items[SessionsKey];
      assert StoredSessions(true, codec, created.items) == Cap(upserted);
    }
  }

  /** The session `{ ...currentSession, messages, updatedAt: now }` the persisting effect saves. */
  function Snapshot(current: ChatSession, messages: seq<Message>, now: int): (s: ChatSession)
    ensures s.id == current.id && s.title == current.title && s.createdAt == current.createdAt
    ensures s.messages == messages && s.updatedAt == now
  {
    current.(messages := messages, updatedAt := now)
  }

  /**
   * The storage effect of the persisting effect: save the snapshot, then
   * retitle from the messages, as long as neither throws.
   */
  function PersistEffect(codec: Codec, available: bool, items: map<string, string>, script: seq<Option<Fault>>,
                         s: ChatSession, titledAt: int): Effect {
    if !available then Effect(items, script, Written)
    else
      var saved := SaveEffect(codec, items, script, s);
      if saved.result.Threw? then saved
      else TitleEffect(codec, available, saved.items, saved.script, s.id, s.messages, titledAt)
  }

  /**
   * The state of `useChat()`. The effects run when the caller calls `Init`
   * and `Persist`; the replacement ids and clock readings are inputs. A storage
   * call that throws ends the callback there: the state cells already set
   * stay set and the failure is returned.
   */
  class ChatHook {
    const store: SessionStore
    var currentSession: Option<ChatSession>
    var messages: seq<Message>
    var sessions: seq<ChatSession>

    ghost predicate Valid() {
      store.Valid()
    }

    constructor (store: SessionStore)
      requires store.Valid()
      ensures Valid() && this.store == store
      ensures currentSession == None && messages == [] && sessions == []
    {
      this.store := store;
      currentSession := None;
      messages := [];
      sessions := [];
    }

    /** The stored session the current-session key names, when the current-session key is set and non-empty. */
    function StoredCurrent(): (r: Option<ChatSession>)
      reads store
      ensures r.Some? ==> store.GetCurrentSessionId() == Some(r.value.id) && r.value in store.Sessions()
    {
      var id := store.GetCurrentSessionId();
      if id.Some? && id.value != "" then store.GetSession(id.value) else None
    }

    /**
     * The initialising effect: resume the session the current-session key names, or
     * create a session (`id`, `createdAt`, `updatedAt` feed `createSession`)
     * and put it before the stored ones.
     */
    method Init(id: string, createdAt: int, updatedAt: int) returns (r: WriteResult)
      requires Valid()
      modifies this, store
      ensures Valid()
      ensures old(StoredCurrent()).Some? ==>
        r == Written && unchanged(store)
        && currentSession == old(StoredCurrent()) && messages == old(StoredCurrent()).value.messages
        && sessions == old(store.Sessions())
      ensures old(StoredCurrent()).None? && store.available ==>
        Effect(store.items, store.script, r)
          == CreateEffect(store.codec, old(store.items), old(store.script), ChatSession(id, DefaultTitle, [], createdAt, updatedAt))
      ensures old(StoredCurrent()).None? && !store.available ==> store.items == old(store.items) && store.script == old(store.script) && r == Written
      ensures old(StoredCurrent()).None? && r.Written? ==>
        currentSession == Some(ChatSession(id, DefaultTitle, [], createdAt, updatedAt))
        && messages == [] && sessions == [currentSession.value] + old(store.Sessions())
      ensures old(StoredCurrent()).None? && r.Threw? ==>
        currentSession == old(currentSession) && messages == old(messages) && sessions == old(store.Sessions())
    {
      var sessionId := store.GetCurrentSessionId();
      var allSessions := store.Sessions();
      sessions := allSessions;
      if sessionId.Some? && sessionId.value != "" {
        var session := store.GetSession(sessionId.value);
        if session.Some? {
          currentSession := session;
          messages := session.value.messages;
          return Written;
        }
      }
      var newSession;
      newSession, r := store.CreateSession(id, createdAt, updatedAt);
      if r.Threw? {
        return;
      }
      currentSession := Some(newSession);
      messages := [];
      sessions := [newSession] + allSessions;
    }

    /**
     * The persisting effect: save the current session with the messages
     * and the time `savedAt`, retitle it at `titledAt`, and replace the
     * same-id entries of the session list with the saved session.
     */
    method Persist(savedAt: int, titledAt: int) returns (r: WriteResult)
      requires Valid()
      modifies this, store
      ensures Valid()
      ensures currentSession == old(currentSession) && messages == old(messages)
      ensures old(currentSession).None? ==> unchanged(store) && sessions == old(sessions) && r == Written
      ensures old(currentSession).Some? ==>
        Effect(store.items, store.script, r)
          == PersistEffect(store.codec, store.available, old(store.items), old(store.script),
                           Snapshot(old(currentSession).value, old(messages), savedAt), titledAt)
      ensures old(currentSession).Some? && r.Written? ==>
        sessions == Replaced(old(sessions), Snapshot(old(currentSession).value, old(messages), savedAt))
      ensures r.Threw? ==> sessions == old(sessions)
    {
      if currentSession.None? {
        return Written;
      }
      var session := currentSession.value.(messages := messages, updatedAt := savedAt);
      r := store.SaveSession(session);
      if r.Threw? {
        return;
      }
      r := store.UpdateSessionTitle(currentSession.value.id, messages, titledAt);
      if r.Threw? {
        return;
      }
      sessions := Replaced(sessions, session);
    }

    /** `addMessage(message)` */
    method AddMessage(m: Message)
      modifies this
      ensures messages == WithMessage(old(messages), m)
      ensures currentSession == old(currentSession) && sessions == old(sessions)
    {
      messages := messages + [m];
    }

    /** `updateMessage(id, updates)` */
    method UpdateMessage(id: string, p: Patch)
      modifies this
      ensures messages == WithUpdate(old(messages), id, p)
      ensures currentSession == old(currentSession) && sessions == old(sessions)
    {
      messages := WithUpdate(messages, id, p);
    }

    /** `removeMessage(id)` */
    method RemoveMessage(id: string)
      modifies this
      ensures messages == WithoutMessage(old(messages), id)
      ensures currentSession == old(currentSession) && sessions == old(sessions)
    {
      messages := JsArrays.Filter(messages, (m: Message) => m.id != id);
    }

    /** `createNewSession()`: a new empty session, first in the list. */
    method CreateNewSession(id: string, createdAt: int, updatedAt: int) returns (r: WriteResult)
      requires Valid()
      modifies this, store
      ensures Valid()
      ensures store.available ==>
        Effect(store.items, store.script, r)
          == CreateEffect(store.codec, old(store.items), old(store.script), ChatSession(id, DefaultTitle, [], createdAt, updatedAt))
      ensures !store.available ==> store.items == old(store.items) && store.script == old(store.script) && r == Written
      ensures r.Written? ==>
        currentSession == Some(ChatSession(id, DefaultTitle, [], createdAt, updatedAt))
        && messages == [] && sessions == [currentSession.value] + old(sessions)
      ensures r.Threw? ==> unchanged(this)
    {
      var newSession;
      newSession, r := store.CreateSession(id, createdAt, updatedAt);
      if r.Threw? {
        return;
      }
      currentSession := Some(newSession);
      messages := [];
      sessions := [newSession] + sessions;
    }

    /** `switchSession(id)`: nothing happens unless storage has the session. */
    method SwitchSession(id: string) returns (r: WriteResult)
      requires Valid()
      modifies this, store
      ensures Valid()
      ensures sessions == old(sessions)
      ensures old(store.GetSession(id)).None? ==> unchanged(this) && unchanged(store) && r == Written
      ensures old(store.GetSession(id)).Some? ==>
        currentSession == old(store.GetSession(id)) && messages == currentSession.value.messages
      ensures old(store.GetSession(id)).Some? ==>
        Effect(store.items, store.script, r) == CurrentIdEffect(old(store.items), old(store.script), Some(id))
    {
      var session := store.GetSession(id);
      if session.None? {
        return Written;
      }
      currentSession := session;
      messages := session.value.messages;
      r := store.SetCurrentSessionId(Some(id));
    }

    /**
     * `deleteSession(id)`: delete it from storage and from the list; when
     * it was the current session, a new one (`freshId`, `createdAt`,
     * `updatedAt`) takes its place at the front.
     */
    method DeleteSession(id: string, freshId: string, createdAt: int, updatedAt: int) returns (r: WriteResult)
      requires Valid()
      requires freshId != id
      modifies this, store
      ensures Valid()
      ensures old(currentSession).None? || old(currentSession).value.id != id ==>
        r == Written && currentSession == old(currentSession) && messages == old(messages)
        && sessions == Without(old(sessions), id)
      ensures old(currentSession).Some? && old(currentSession).value.id == id && r.Written? ==>
        currentSession == Some(ChatSession(freshId, DefaultTitle, [], createdAt, updatedAt)) && messages == []
        && sessions == AfterDelete(old(sessions), id, currentSession.value)
      ensures r.Threw? ==>
        currentSession == old(currentSession) && messages == old(messages) && sessions == Without(old(sessions), id)
      ensures !store.available ==> store.items == old(store.items) && store.script == old(store.script)
      ensures store.available && (old(currentSession).None? || old(currentSession).value.id != id) ==>
        Effect(store.items, store.script, r) == DeleteEffect(store.codec, old(store.items), old(store.script), id)
      ensures store.available && old(currentSession).Some? && old(currentSession).value.id == id ==>
        var deleted := DeleteEffect(store.codec, old(store.items), old(store.script), id);
        Effect(store.items, store.script, r)
          == CreateEffect(store.codec, deleted.items, deleted.script, ChatSession(freshId, DefaultTitle, [], createdAt, updatedAt))
    {
      store.DeleteSession(id);
      sessions := Without(sessions, id);
      if currentSession.Some? && currentSession.value.id == id {
        var newSession;
        newSession, r := store.CreateSession(freshId, createdAt, updatedAt);
        if r.Threw? {
          return;
        }
        currentSession := Some(newSession);
        messages := [];
        sessions := [newSession] + sessions;
      } else {
        r := Written;
      }
    }
  }
}
