/**
 * `convertHistoryToGeminiFormat` of lib/gemini.ts: the chat history in the
 * shape the Gemini SDK takes, one content entry per message.
 */
module Gemini {
  import opened ChatTypes

  datatype GeminiRole = UserRole | ModelRole

  datatype Part = Part(text: string)

  datatype Content = Content(role: GeminiRole, parts: seq<Part>)

  /** `history.map(...)`: 'user' stays 'user', every other role becomes 'model'; one text part each. */
  function ConvertHistory(history: seq<ChatMessage>): (r: seq<Content>)
    ensures |r| == |history|
    ensures forall i :: 0 <= i < |r| ==>
      (r[i].role == UserRole <==> history[i].role == User) && r[i].parts == [Part(history[i].content)]
    decreases |history|
  {
    if history == [] then []
    else
      [Content(if history[0].role == User then UserRole else ModelRole, [Part(history[0].content)])]
        + ConvertHistory(history[1..])
  }

  /** Reads a chat message back from a content entry. */
  function ToChatMessage(c: Content): ChatMessage {
    ChatMessage(if c.role == UserRole then User else Assistant, if c.parts == [] then "" else c.parts[0].text)
  }

  function FromGemini(contents: seq<Content>): (r: seq<ChatMessage>)
    decreases |contents|
  {
    if contents == [] then [] else [ToChatMessage(contents[0])] + FromGemini(contents[1..])
  }

  /** The conversion loses nothing: every role and every content can be read back, in order. */
  lemma {:induction false} ConvertHistoryRoundTrip(history: seq<ChatMessage>)
    ensures FromGemini(ConvertHistory(history)) == history
    decreases |history|
  {
    if history != [] {
      ConvertHistoryRoundTrip(history[1..]);
      assert ConvertHistory(history)[1..] == ConvertHistory(history[1..]);
    }
  }

  /** Converting a concatenation converts each part separately. */
  lemma {:induction false} ConvertHistoryAppend(a: seq<ChatMessage>, b: seq<ChatMessage>)
    ensures ConvertHistory(a + b) == ConvertHistory(a) + ConvertHistory(b)
    decreases |a|
  {
    if a != [] {
      assert (a + b)[1..] == a[1..] + b;
      ConvertHistoryAppend(a[1..], b);
    } else {
      assert a + b == b;
    }
  }
}
