/**
 * The browser side of the chat stream (lib/sseClient.ts): a generator that
 * posts the request, reads the response body chunk by chunk, cuts the text
 * into events at every blank line ("\n\n"), and yields the JSON value of
 * every `data: ` event until the `[DONE]` marker or the end of the body.
 *
 * The decoded chunks of the body are given as strings (the UTF-8 decoding of
 * `TextDecoder` is not modelled); `JSON.parse` is an oracle `parse`.
 */
module SseClient {
  import opened Optional
  import opened Json
  import opened JsErrors
  import JsStrings

  const Separator: string := "\n\n"
  const DataPrefix: string := "data: "
  const DoneMarker: string := "[DONE]"

  // ---------------------------------------------------------------------
  // `String.prototype.split("\n\n")`
  // ---------------------------------------------------------------------

  /** `s.split("\n\n")`: the pieces between non-overlapping separators, scanned left to right. */
  function Split(s: string): (r: seq<string>)
    ensures |r| >= 1
    decreases |s|
  {
    if |s| < 2 then [s]
    else if s[..2] == Separator then [""] + Split(s[2..])
    else PrependChar(s[0], Split(s[1..]))
  }

  /** Puts a character in front of the first piece. */
  function PrependChar(c: char, pieces: seq<string>): (r: seq<string>)
    requires |pieces| >= 1
    ensures |r| == |pieces| && r[0] == [c] + pieces[0] && r[1..] == pieces[1..]
  {
    [[c] + pieces[0]] + pieces[1..]
  }

  /** `pieces.join("\n\n")` */
  function Join(pieces: seq<string>): string
    requires |pieces| >= 1
    decreases |pieces|
  {
    if |pieces| == 1 then pieces[0] else pieces[0] + Separator + Join(pieces[1..])
  }

  function Last<T>(s: seq<T>): T
    requires |s| >= 1
  {
    s[|s| - 1]
  }

  function AllButLast<T>(s: seq<T>): seq<T>
    requires |s| >= 1
  {
    s[..|s| - 1]
  }

  /** Joining the pieces with the separator gives the text back. */
  lemma {:induction false} JoinSplit(s: string)
    ensures Join(Split(s)) == s
    decreases |s|
  {
    if |s| < 2 {
    } else if s[..2] == Separator {
      JoinSplit(s[2..]);
      assert s == Separator + s[2..];
    } else {
      JoinSplit(s[1..]);
      JoinPrepend(s[0], Split(s[1..]));
      assert s == [s[0]] + s[1..];
    }
  }

  /** Putting a character in front of the first piece puts it in front of the joined text. */
  lemma JoinPrepend(c: char, pieces: seq<string>)
    requires |pieces| >= 1
    ensures Join(PrependChar(c, pieces)) == [c] + Join(pieces)
  {
    var r := PrependChar(c, pieces);
    if |pieces| == 1 {
      assert Join(r) == r[0];
    } else {
      var tail := Join(pieces[1..]);
      assert r[1..] == pieces[1..];
      JoinCons(r, tail);
      JoinCons(pieces, tail);
      PrependAssoc(c, pieces[0], Separator + tail);
    }
  }

  lemma JoinCons(pieces: seq<string>, tail: string)
    requires |pieces| > 1 && Join(pieces[1..]) == tail
    ensures Join(pieces) == pieces[0] + (Separator + tail)
  {
  }

  lemma PrependAssoc(c: char, a: string, b: string)
    ensures ([c] + a) + b == [c] + (a + b)
  {
  }

  /** A text that does not split is its own only piece. */
  lemma SplitSingle(s: string)
    requires |Split(s)| == 1
    ensures Split(s) == [s]
  {
    JoinSplit(s);
  }

  /** The unfinished tail kept as the buffer never splits again. */
  lemma {:induction false} LastPieceDoesNotSplit(s: string)
    ensures |Split(Last(Split(s)))| == 1
    decreases |s|
  {
    if |s| < 2 {
    } else if s[..2] == Separator {
      LastPieceDoesNotSplit(s[2..]);
      assert Last(Split(s)) == Last(Split(s[2..]));
    } else {
      var rest := Split(s[1..]);
      if |rest| == 1 {
        SplitSingle(s);
      } else {
        LastPieceDoesNotSplit(s[1..]);
        assert Last(Split(s)) == Last(rest) by {
          assert Split(s) == PrependChar(s[0], rest);
        }
      }
    }
  }

  lemma SplitAppendStep(p: string, y: string)
    requires |p| >= 2 && p[..2] != Separator
    ensures Split(p + y) == PrependChar(p[0], Split(p[1..] + y))
  {
    assert (p + y)[..2] == p[..2];
    assert (p + y)[1..] == p[1..] + y;
  }

  /**
   * Appending text only ever extends the unfinished last piece: the complete
   * pieces of `p` stay as they are, and the rest splits as if it began with
   * that last piece.
   */
  lemma {:induction false} SplitAppend(p: string, y: string)
    ensures Split(p + y) == AllButLast(Split(p)) + Split(Last(Split(p)) + y)
    decreases |p|, 1
  {
    if |p| < 2 {
      assert Split(p) == [p];
    } else if p[..2] == Separator {
      SplitAppendAtSeparator(p, y);
    } else {
      SplitAppendAtChar(p, y);
    }
  }

  lemma {:induction false} SplitAppendAtSeparator(p: string, y: string)
    requires |p| >= 2 && p[..2] == Separator
    ensures Split(p + y) == AllButLast(Split(p)) + Split(Last(Split(p)) + y)
    decreases |p|, 0
  {
    var a := Split(p[2..]);
    assert (p + y)[..2] == Separator;
    assert (p + y)[2..] == p[2..] + y;
    assert Split(p + y) == [""] + Split(p[2..] + y);
    SplitAppend(p[2..], y);
    assert Split(p) == [""] + a;
    assert AllButLast(Split(p)) == [""] + AllButLast(a);
    assert Last(Split(p)) == Last(a);
  }

  lemma {:induction false} SplitAppendAtChar(p: string, y: string)
    requires |p| >= 2 && p[..2] != Separator
    ensures Split(p + y) == AllButLast(Split(p)) + Split(Last(Split(p)) + y)
    decreases |p|, 0
  {
    var a := Split(p[1..]);
    var c := p[0];
    SplitAppendStep(p, y);
    SplitAppend(p[1..], y);
    var t := Split(Last(a) + y);
    if |a| == 1 {
      JoinSplit(p);
      assert Split(p) == [p];
      assert AllButLast(Split(p)) == [];
    } else {
      assert Split(p[1..] + y) == AllButLast(a) + t;
      assert PrependChar(c, AllButLast(a) + t) == PrependChar(c, AllButLast(a)) + t;
      assert AllButLast(Split(p)) == PrependChar(c, AllButLast(a));
      assert Last(Split(p)) == Last(a);
    }
  }

  /** A piece free of line feeds followed by the separator is cut off whole. */
  lemma {:induction false} SplitAtFrame(q: string, rest: string)
    requires '\n' !in q
    ensures Split(q + Separator + rest) == [q] + Split(rest)
    decreases |q|
  {
    if q == [] {
      assert q + Separator + rest == Separator + rest;
      assert (Separator + rest)[2..] == rest;
    } else {
      var t := q + Separator + rest;
      assert t[..2] != Separator by {
        assert t[0] == q[0];
      }
      assert t[1..] == q[1..] + Separator + rest;
      SplitAtFrame(q[1..], rest);
      assert [q[0]] + q[1..] == q;
    }
  }

  // ---------------------------------------------------------------------
  // Events
  // ---------------------------------------------------------------------

  /** What one complete piece contributes: a parsed value, the end marker, or nothing. */
  datatype Event = Item(value: Json) | Stop

  /** The handling of one line: only `data: ` lines count; `[DONE]` stops; a parse failure is logged and skipped. */
  function LineEvents(line: string, parse: string -> Option<Json>): (r: seq<Event>)
    ensures |r| <= 1
    ensures r == [Stop] <==> line == DataPrefix + DoneMarker
    ensures r != [] && r[0].Item? ==>
      JsStrings.StartsWith(line, DataPrefix) && parse(line[|DataPrefix|..]) == Some(r[0].value)
    ensures !JsStrings.StartsWith(line, DataPrefix) ==> r == []
    ensures JsStrings.StartsWith(line, DataPrefix) && line[|DataPrefix|..] != DoneMarker
      ==> r == (match parse(line[|DataPrefix|..]) case Some(v) => [Item(v)] case None => [])
  {
    if JsStrings.StartsWith(line, DataPrefix) then
      var data := line[|DataPrefix|..];
      assert line == DataPrefix + data;
      if data == DoneMarker then [Stop]
      else match parse(data)
        case Some(v) => [Item(v)]
        case None => []
    else []
  }

  function Events(lines: seq<string>, parse: string -> Option<Json>): seq<Event>
    decreases |lines|
  {
    if lines == [] then [] else LineEvents(lines[0], parse) + Events(lines[1..], parse)
  }

  lemma {:induction false} EventsAppend(a: seq<string>, b: seq<string>, parse: string -> Option<Json>)
    ensures Events(a + b, parse) == Events(a, parse) + Events(b, parse)
    decreases |a|
  {
    if a != [] {
      assert (a + b)[0] == a[0];
      assert (a + b)[1..] == a[1..] + b;
      EventsAppend(a[1..], b, parse);
    } else {
      assert a + b == b;
    }
  }

  /** The events of the complete pieces of a whole body text; an unterminated tail is ignored. */
  function Decoded(text: string, parse: string -> Option<Json>): seq<Event> {
    Events(AllButLast(Split(text)), parse)
  }

  /**
   * The read loop: each chunk is appended to the buffer, the complete pieces
   * are handled, and the last piece becomes the new buffer.
   */
  function Feed(buffer: string, chunks: seq<string>, parse: string -> Option<Json>): seq<Event>
    decreases |chunks|
  {
    if chunks == [] then []
    else
      var pieces := Split(buffer + chunks[0]);
      Events(AllButLast(pieces), parse) + Feed(Last(pieces), chunks[1..], parse)
  }

  function Concat(chunks: seq<string>): string
    decreases |chunks|
  {
    if chunks == [] then "" else chunks[0] + Concat(chunks[1..])
  }

  /** Feeding the chunks one by one handles exactly the pieces of their concatenation. */
  lemma {:induction false} FeedIsDecoded(buffer: string, chunks: seq<string>, parse: string -> Option<Json>)
    requires |Split(buffer)| == 1
    ensures Feed(buffer, chunks, parse) == Decoded(buffer + Concat(chunks), parse)
    decreases |chunks|, 1
  {
    if chunks == [] {
      SplitSingle(buffer);
      assert buffer + Concat(chunks) == buffer;
    } else {
      FeedIsDecodedStep(buffer, chunks, parse);
    }
  }

  lemma {:induction false} FeedIsDecodedStep(buffer: string, chunks: seq<string>, parse: string -> Option<Json>)
    requires |Split(buffer)| == 1 && chunks != []
    ensures Feed(buffer, chunks, parse) == Decoded(buffer + Concat(chunks), parse)
    decreases |chunks|, 0
  {
    var p := buffer + chunks[0];
    var y := Concat(chunks[1..]);
    var pieces := Split(p);
    var tail := Split(Last(pieces) + y);
    LastPieceDoesNotSplit(p);
    FeedIsDecoded(Last(pieces), chunks[1..], parse);
    assert Feed(buffer, chunks, parse) == Events(AllButLast(pieces), parse) + Events(AllButLast(tail), parse);
    SplitAppend(p, y);
    AllButLastAppend(AllButLast(pieces), tail);
    assert AllButLast(Split(p + y)) == AllButLast(pieces) + AllButLast(tail);
    EventsAppend(AllButLast(pieces), AllButLast(tail), parse);
    ConcatAfter(buffer, chunks);
  }

  lemma ConcatAfter(buffer: string, chunks: seq<string>)
    requires chunks != []
    ensures buffer + Concat(chunks) == (buffer + chunks[0]) + Concat(chunks[1..])
  {
  }

  lemma AllButLastAppend<T>(a: seq<T>, b: seq<T>)
    requires |b| >= 1
    ensures AllButLast(a + b) == a + AllButLast(b)
  {
    assert (a + b)[..|a + b| - 1] == a + b[..|b| - 1];
  }

  /**
   * How the body is cut into reads does not matter: the events handled are
   * those of the whole body text.
   */
  lemma ChunkingIrrelevant(chunks: seq<string>, parse: string -> Option<Json>)
    ensures Feed("", chunks, parse) == Decoded(Concat(chunks), parse)
  {
    FeedIsDecoded("", chunks, parse);
    assert "" + Concat(chunks) == Concat(chunks);
  }

  /** The frame the server writes for one line: `line` followed by a blank line. */
  function Frames(lines: seq<string>): string
    decreases |lines|
  {
    if lines == [] then "" else lines[0] + Separator + Frames(lines[1..])
  }

  /** Frames whose lines hold no line feed are cut back into exactly those lines. */
  lemma {:induction false} SplitFrames(lines: seq<string>, rest: string)
    requires forall i :: 0 <= i < |lines| ==> '\n' !in lines[i]
    ensures Split(Frames(lines) + rest) == lines + Split(rest)
    decreases |lines|
  {
    if lines != [] {
      var tail := Frames(lines[1..]) + rest;
      calc {
        Split(Frames(lines) + rest);
        == { FramesCons(lines, rest); }
        Split(lines[0] + Separator + tail);
        == { SplitAtFrame(lines[0], tail); }
        [lines[0]] + Split(tail);
        == { SplitFrames(lines[1..], rest); }
        [lines[0]] + (lines[1..] + Split(rest));
        == { ConsAppend(lines, Split(rest)); }
        lines + Split(rest);
      }
    } else {
      assert Frames(lines) + rest == rest;
    }
  }

  lemma ConsAppend<T>(s: seq<T>, x: seq<T>)
    requires s != []
    ensures [s[0]] + (s[1..] + x) == s + x
  {
    assert s == [s[0]] + s[1..];
  }

  lemma FramesCons(lines: seq<string>, rest: string)
    requires lines != []
    ensures Frames(lines) + rest == lines[0] + Separator + (Frames(lines[1..]) + rest)
  {
  }

  /** A text without line feeds does not split. */
  lemma {:induction false} SplitSingleLine(s: string)
    requires '\n' !in s
    ensures Split(s) == [s]
    decreases |s|
  {
    if |s| >= 2 {
      assert s[0] != '\n';
      SplitSingleLine(s[1..]);
      assert [s[0]] + s[1..] == s;
    }
  }

  /** A last frame the body does not terminate with a blank line is never handled. */
  lemma UnterminatedFrameIgnored(lines: seq<string>, tail: string, parse: string -> Option<Json>)
    requires forall i :: 0 <= i < |lines| ==> '\n' !in lines[i]
    requires '\n' !in tail
    ensures Decoded(Frames(lines) + tail, parse) == Events(lines, parse)
  {
    SplitFrames(lines, tail);
    assert Split(tail) == [tail] by {
      SplitSingleLine(tail);
    }
    AllButLastAppend(lines, [tail]);
  }

  // ---------------------------------------------------------------------
  // The generator's observable steps
  // ---------------------------------------------------------------------

  /** What one pull of the generator gives: a chunk, the end, or a thrown error. */
  datatype Step = Yield(chunk: Json) | Done | Fail(error: Thrown)

  /** The steps for a list of events followed by the end of the body (or a failing read). */
  function Finish(events: seq<Event>, readError: Option<Thrown>): (r: seq<Step>)
    ensures |r| >= 1 && !Last(r).Yield?
    ensures forall i :: 0 <= i < |r| - 1 ==> r[i].Yield?
    decreases |events|
  {
    if events == [] then [if readError.None? then Done else Fail(readError.value)]
    else match events[0]
      case Stop => [Done]
      case Item(v) => [Yield(v)] + Finish(events[1..], readError)
  }

  /** What `response.json()` gives for a failed response: a value, or the error it throws. */
  datatype ErrorBody = Parsed(value: Json) | Unparseable(error: Thrown)

  /** The body of a successful response: its decoded chunks, then the end or a failing read. */
  datatype Body = Body(chunks: seq<string>, readError: Option<Thrown>)

  /** What `fetch` gives: a rejection, or a response. */
  datatype Response =
    | Rejected(error: Thrown)
    | Responded(ok: bool, errorBody: ErrorBody, body: Option<Body>)

  /** The error thrown for a response that is not ok: `new Error(error.error || 'Request failed')`. */
  function RequestError(errorBody: ErrorBody): (e: Thrown)
    ensures errorBody.Parsed? && errorBody.value.JObj? && "error" in errorBody.value.fields
      && errorBody.value.fields["error"].JStr? && errorBody.value.fields["error"].s != ""
      ==> e == NewError(errorBody.value.fields["error"].s)
    ensures errorBody.Parsed? && !errorBody.value.JNull?
      && (Get(errorBody.value, "error").None? || !Truthy(Get(errorBody.value, "error").value))
      ==> e == NewError("Request failed")
    ensures errorBody.Parsed? && !errorBody.value.JNull?
      && Get(errorBody.value, "error").Some? && Truthy(Get(errorBody.value, "error").value)
      ==> e == NewError(ToJsString(Get(errorBody.value, "error").value))
    ensures errorBody.Parsed? && errorBody.value.JNull? ==> e.Object? && e.name == "TypeError"
    ensures errorBody.Unparseable? ==> e == errorBody.error
  {
    match errorBody
    case Unparseable(thrown) => thrown
    case Parsed(v) =>
      if v.JNull? then NewTypeError("Cannot read properties of null (reading 'error')")
      else
        var message := Get(v, "error");
        if message.Some? && Truthy(message.value) then NewError(ToJsString(message.value))
        else NewError("Request failed")
  }

  /** Every step the generator produces for a response, in order. */
  function Steps(response: Response, parse: string -> Option<Json>): (r: seq<Step>)
    ensures |r| >= 1 && !Last(r).Yield?
  {
    match response
    case Rejected(e) => [Fail(e)]
    case Responded(ok, errorBody, body) =>
      if !ok then [Fail(RequestError(errorBody))]
      else if body.None? then [Fail(NewError("No response body"))]
      else Finish(Feed("", body.value.chunks, parse), body.value.readError)
  }

  /**
   * The generator yields the parsed `data: ` events of the complete frames
   * of the whole body, in order, up to the first `[DONE]`; it then ends, or
   * throws the read error when the body failed before a `[DONE]`.
   */
  lemma StepsOfBody(chunks: seq<string>, readError: Option<Thrown>, errorBody: ErrorBody, parse: string -> Option<Json>)
    ensures Steps(Responded(true, errorBody, Some(Body(chunks, readError))), parse)
      == Finish(Decoded(Concat(chunks), parse), readError)
  {
    ChunkingIrrelevant(chunks, parse);
  }

  /** Events after the first `[DONE]` are never seen, and neither is a later read error. */
  lemma StopEndsStream(before: seq<Event>, after: seq<Event>, readError: Option<Thrown>)
    requires forall i :: 0 <= i < |before| ==> before[i].Item?
    ensures Finish(before + [Stop] + after, readError)
      == seq(|before|, i requires 0 <= i < |before| => Yield(before[i].value)) + [Done]
    decreases |before|
  {
    if before != [] {
      assert (before + [Stop] + after)[1..] == before[1..] + [Stop] + after;
      StopEndsStream(before[1..], after, readError);
    }
  }

  /** Handling the first pending line: it yields, stops, or is skipped. */
  lemma PendingStep(pending: seq<string>, fed: seq<Event>, readError: Option<Thrown>, parse: string -> Option<Json>)
    requires pending != []
    ensures var rest := Finish(Events(pending[1..], parse) + fed, readError);
      var line := pending[0];
      var e := LineEvents(line, parse);
      Finish(Events(pending, parse) + fed, readError)
        == if e == [] then rest else if e[0].Stop? then [Done] else [Yield(e[0].value)] + rest
  {
    var e := LineEvents(pending[0], parse);
    assert Events(pending, parse) + fed == e + (Events(pending[1..], parse) + fed);
    var tail := Events(pending[1..], parse) + fed;
    if e != [] {
      assert (e + tail)[0] == e[0];
      assert (e + tail)[1..] == tail;
    } else {
      assert e + tail == tail;
    }
  }

  /** A read moves the complete pieces of the grown buffer to the pending lines. */
  lemma ReadStep(buffer: string, unread: seq<string>, parse: string -> Option<Json>)
    requires unread != []
    ensures var pieces := Split(buffer + unread[0]);
      Events([], parse) + Feed(buffer, unread, parse)
        == Events(AllButLast(pieces), parse) + Feed(Last(pieces), unread[1..], parse)
  {
  }

  datatype Phase = NotStarted | Streaming | Finished

  /**
   * The generator object of `streamSSE`. Each `Next` runs the generator body
   * until its next `yield`, `return` or `throw`.
   */
  class SseStream {
    const response: Response
    const parse: string -> Option<Json>
    var phase: Phase
    /** The unfinished last piece of the text read so far. */
    var buffer: string
    /** The complete pieces of the current read not yet handled. */
    var pending: seq<string>
    /** The chunks not yet read. */
    var unread: seq<string>
    /** Whether the body's reader holds the stream's lock. */
    var lockHeld: bool

    ghost predicate Valid()
      reads this
    {
      (phase == Streaming ==> response.Responded? && response.ok && response.body.Some?)
      && (phase == Streaming <==> lockHeld)
    }

    /** The steps still to come. */
    function Remaining(): seq<Step>
      reads this
      requires Valid()
    {
      match phase
      case NotStarted => Steps(response, parse)
      case Streaming => Finish(Events(pending, parse) + Feed(buffer, unread, parse), response.body.value.readError)
      case Finished => []
    }

    constructor (response: Response, parse: string -> Option<Json>)
      ensures Valid() && phase == NotStarted && !lockHeld
      ensures this.response == response && this.parse == parse
      ensures Remaining() == Steps(response, parse)
    {
      this.response := response;
      this.parse := parse;
      phase := NotStarted;
      buffer := "";
      pending := [];
      unread := [];
      lockHeld := false;
    }

    /** `next()`: the next step, which is the head of the remaining steps. */
    method Next() returns (r: Step)
      requires Valid()
      modifies this
      ensures Valid()
      ensures old(phase) != Finished ==> old(Remaining()) == [r] + Remaining()
      ensures old(phase) == Finished ==> r == Done && phase == Finished
      ensures r.Yield? <==> phase == Streaming
      ensures !r.Yield? ==> !lockHeld && phase == Finished
    {
      if phase == Finished {
        return Done;
      }
      if phase == NotStarted {
        var failure := Open();
        if failure.Some? {
          return Fail(failure.value);
        }
      }
      r := Pull();
    }

    /** The generator's code up to the read loop: the fetch, the status check and `getReader()`. */
    method Open() returns (failure: Option<Thrown>)
      requires Valid() && phase == NotStarted
      modifies this
      ensures Valid()
      ensures failure.Some? ==> phase == Finished && !lockHeld && old(Remaining()) == [Fail(failure.value)]
      ensures failure.None? ==> phase == Streaming && Remaining() == old(Remaining())
    {
      match response
      case Rejected(e) =>
        phase := Finished;
        return Some(e);
      case Responded(ok, errorBody, body) =>
        if !ok {
          phase := Finished;
          return Some(RequestError(errorBody));
        }
        if body.None? {
          phase := Finished;
          return Some(NewError("No response body"));
        }
        phase := Streaming;
        lockHeld := true;
        buffer := "";
        pending := [];
        unread := body.value.chunks;
        assert Events(pending, parse) + Feed(buffer, unread, parse) == Feed("", body.value.chunks, parse);
        return None;
    }

    /** The read loop, from where it last stopped to the next `yield`, `return` or `throw`. */
    method Pull() returns (r: Step)
      requires Valid() && phase == Streaming
      modifies this
      ensures Valid()
      ensures old(Remaining()) == [r] + Remaining()
      ensures r.Yield? <==> phase == Streaming
      ensures !r.Yield? ==> !lockHeld && phase == Finished
    {
      ghost var target := Remaining();
      while true
        invariant Valid() && phase == Streaming
        invariant Remaining() == target
        decreases |unread|, |pending|
      {
        if pending != [] {
          var step := TakeLine();
          if step.Some? {
            return step.value;
          }
        } else if unread == [] {
          lockHeld := false;
          phase := Finished;
          var readError := response.body.value.readError;
          if readError.Some? {
            return Fail(readError.value);
          }
          return Done;
        } else {
          ReadChunk();
        }
      }
    }

    /** The next buffered line: a step for a `data: ` line, nothing for any other line. */
    method TakeLine() returns (r: Option<Step>)
      requires Valid() && phase == Streaming && pending != []
      modifies this
      ensures Valid()
      ensures r.None? ==> (phase == Streaming && Remaining() == old(Remaining())
        && unread == old(unread) && |pending| < old(|pending|))
      ensures r.Some? ==> (old(Remaining()) == [r.value] + Remaining()
        && (r.value.Yield? <==> phase == Streaming) && (!r.value.Yield? ==> !lockHeld && phase == Finished))
    {
      var line := pending[0];
      ghost var rest := Finish(Events(pending[1..], parse) + Feed(buffer, unread, parse), response.body.value.readError);
      ghost var e := LineEvents(line, parse);
      PendingStep(pending, Feed(buffer, unread, parse), response.body.value.readError, parse);
      pending := pending[1..];
      assert Remaining() == rest;
      if JsStrings.StartsWith(line, DataPrefix) {
        var data := line[|DataPrefix|..];
        if data == DoneMarker {
          assert e == [Stop];
          lockHeld := false;
          phase := Finished;
          return Some(Done);
        }
        var chunk := parse(data);
        if chunk.Some? {
          assert e == [Item(chunk.value)];
          return Some(Yield(chunk.value));
        }
        assert e == [];
      } else {
        assert e == [];
      }
      return None;
    }

    /** `reader.read()` once the buffered lines are used up: split the buffer and the next chunk into lines. */
    method ReadChunk()
      requires Valid() && phase == Streaming && pending == [] && unread != []
      modifies this
      ensures Valid() && phase == Streaming && Remaining() == old(Remaining()) && |unread| < old(|unread|)
    {
      var pieces := Split(buffer + unread[0]);
      ReadStep(buffer, unread, parse);
      buffer := Last(pieces);
      pending := AllButLast(pieces);
      unread := unread[1..];
    }

    /** `return()`, as an early `break` out of `for await` calls it: the `finally` block releases the lock. */
    method Return()
      requires Valid()
      modifies this
      ensures Valid() && phase == Finished && !lockHeld && Remaining() == []
    {
      lockHeld := false;
      phase := Finished;
    }
  }
}
