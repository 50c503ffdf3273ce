/**
 * The browser side of the streaming route, from the home page's `generate`:
 * the target questions read from the text area, and the loop that appends each
 * decoded piece of the response to a buffer, cuts complete frames off at the
 * first blank line, reads the `event:` and `data:` lines of each frame and
 * updates what the page shows.
 */
module ClientPage {
  import opened Wrappers
  import opened Text
  import Json
  import Errors
  import Orchestrator
  import Validation
  import StreamRoute

  // ---------------------------------------------------------------------------
  // Target questions

  /** The trimmed lines that are not empty, in order (`.map(s => s.trim()).filter(Boolean)`). */
  function Kept(lines: seq<string>): (r: seq<string>)
    ensures forall i :: 0 <= i < |r| ==> r[i] != [] && IsTrimmed(r[i])
  {
    if lines == [] then []
    else (if Trim(lines[0]) == [] then [] else [Trim(lines[0])]) + Kept(lines[1..])
  }

  /** `questionsText.split('\n').map(s => s.trim()).filter(Boolean)`. */
  function Questions(text: string): seq<string> {
    Kept(Split(text, '\n'))
  }

  lemma {:induction false} KeptNoNewline(lines: seq<string>)
    requires forall i :: 0 <= i < |lines| ==> '\n' !in lines[i]
    ensures forall i :: 0 <= i < |Kept(lines)| ==> '\n' !in Kept(lines)[i]
    decreases |lines|
  {
    if lines != [] {
      var tail := lines[1..];
      assert forall i :: 0 <= i < |tail| ==> '\n' !in tail[i] by {
        forall i | 0 <= i < |tail| ensures '\n' !in tail[i] {
          assert tail[i] == lines[i + 1];
        }
      }
      KeptNoNewline(tail);
      PieceNoNewline(lines[0]);
    }
  }

  lemma PieceNoNewline(line: string)
    requires '\n' !in line
    ensures '\n' !in Trim(line)
  {
    var t := Trim(line);
    TrimPiece(line);
    forall k | 0 <= k < |t| ensures t[k] != '\n' {
      assert t[k] == line[|line| - |TrimStart(line)| + k];
    }
  }

  /** Every question is a non-empty line with no whitespace at either end. */
  lemma QuestionsShape(text: string)
    ensures forall i :: 0 <= i < |Questions(text)| ==>
              Questions(text)[i] != [] && IsTrimmed(Questions(text)[i]) && '\n' !in Questions(text)[i]
  {
    KeptNoNewline(Split(text, '\n'));
  }

  lemma {:induction false} KeptAll(lines: seq<string>)
    requires forall i :: 0 <= i < |lines| ==> lines[i] != [] && IsTrimmed(lines[i])
    ensures Kept(lines) == lines
    decreases |lines|
  {
    if lines != [] {
      var t := lines[1..];
      assert forall i :: 0 <= i < |t| ==> t[i] != [] && IsTrimmed(t[i]) by {
        forall i | 0 <= i < |t| ensures t[i] != [] && IsTrimmed(t[i]) {
          assert t[i] == lines[i + 1];
        }
      }
      KeptAll(t);
      assert Trim(lines[0]) == lines[0] by {
        TrimTrimmed(lines[0]);
      }
      assert Kept(lines) == [lines[0]] + t;
      assert [lines[0]] + t == lines;
    }
  }

  /** Questions typed one per line are read back as typed. */
  lemma QuestionsRoundTrip(qs: seq<string>)
    requires forall i :: 0 <= i < |qs| ==> qs[i] != [] && IsTrimmed(qs[i]) && '\n' !in qs[i]
    ensures Questions(Join(qs, "\n")) == qs
  {
    if qs == [] {
      assert Split("", '\n') == [""];
    } else {
      JoinSplit(qs, '\n');
      KeptAll(qs);
    }
  }

  // ---------------------------------------------------------------------------
  // Cutting the buffer into frames

  /** A blank line, `\n\n`, starts at `i`. */
  predicate BlankAt(s: string, i: int) {
    0 <= i && i + 1 < |s| && s[i] == '\n' && s[i + 1] == '\n'
  }

  /** The first blank line at or after `k`. */
  function BlankFrom(s: string, k: nat): (r: Option<nat>)
    ensures r.Some? ==> k <= r.value && BlankAt(s, r.value) && forall j :: k <= j < r.value ==> !BlankAt(s, j)
    ensures r.None? ==> forall j :: k <= j ==> !BlankAt(s, j)
    decreases |s| - k
  {
    if k + 1 >= |s| then None
    else if BlankAt(s, k) then Some(k)
    else BlankFrom(s, k + 1)
  }

  /** `buffer.indexOf('\n\n')`, with `None` for -1. */
  function IndexOfBlank(s: string): Option<nat> {
    BlankFrom(s, 0)
  }

  lemma FirstBlank(s: string, i: nat)
    requires BlankAt(s, i) && forall j :: 0 <= j < i ==> !BlankAt(s, j)
    ensures IndexOfBlank(s) == Some(i)
  {
  }

  /** Text appended after a blank line does not move the first one. */
  lemma BlankAppend(a: string, b: string)
    requires IndexOfBlank(a).Some?
    ensures IndexOfBlank(a + b) == IndexOfBlank(a)
  {
    var i := IndexOfBlank(a).value;
    assert BlankAt(a + b, i);
    forall j | 0 <= j < i ensures !BlankAt(a + b, j) {
      assert !BlankAt(a, j);
    }
    FirstBlank(a + b, i);
  }

  /** The inner `while` over a buffer: the complete frames, each the text before the first
      blank line, which is dropped with it; and what is left, which holds no blank line. */
  function Frames(s: string): (r: (seq<string>, string))
    ensures IndexOfBlank(r.1).None?
    decreases |s|
  {
    match IndexOfBlank(s)
    case None => ([], s)
    case Some(i) =>
      var rest := Frames(s[i + 2..]);
      ([s[..i]] + rest.0, rest.1)
  }

  /** Cutting `a + b` is cutting `a`, then cutting what `a` left with `b` after it; so the
      frames do not depend on how the text arrives in pieces. */
  lemma {:induction false} FramesAppend(a: string, b: string)
    ensures Frames(a + b) == (Frames(a).0 + Frames(Frames(a).1 + b).0, Frames(Frames(a).1 + b).1)
    decreases |a|
  {
    match IndexOfBlank(a)
    case None =>
      assert Frames(a) == ([], a);
      assert [] + Frames(a + b).0 == Frames(a + b).0;
    case Some(i) =>
      BlankAppend(a, b);
      assert (a + b)[..i] == a[..i];
      assert (a + b)[i + 2..] == a[i + 2..] + b;
      FramesAppend(a[i + 2..], b);
      var tail := Frames(a[i + 2..]);
      var more := Frames(tail.1 + b);
      ConcatAssoc([a[..i]], tail.0, more.0);
  }

  /** The pieces read from the body, joined. */
  function Concat(pieces: seq<string>): string {
    if pieces == [] then "" else Concat(pieces[..|pieces| - 1]) + pieces[|pieces| - 1]
  }

  lemma ConcatSnoc(pieces: seq<string>, k: nat)
    requires k < |pieces|
    ensures Concat(pieces[..k + 1]) == Concat(pieces[..k]) + pieces[k]
  {
    assert pieces[..k + 1][..k] == pieces[..k];
  }

  // ---------------------------------------------------------------------------
  // Reading one frame

  /** The first line that starts with `prefix` (`lines.find(l => l.startsWith(prefix))`). */
  function FirstLine(lines: seq<string>, prefix: string): (r: Option<string>)
    ensures r.Some? ==> StartsWith(r.value, prefix)
  {
    if lines == [] then None
    else if StartsWith(lines[0], prefix) then Some(lines[0])
    else FirstLine(lines[1..], prefix)
  }

  /** A frame's event name and the text of its data line. */
  datatype Frame = Frame(event: string, data: string)

  /** The event name is the first `event:` line without that prefix, trimmed, or empty; the
      data is the first `data:` line without its prefix, trimmed. A frame with no data line
      is `None`. A line that starts with the prefix has it as its first occurrence, which is
      what `replace` removes. */
  function ParseFrame(chunk: string): (r: Option<Frame>) {
    var lines := Split(chunk, '\n');
    var event := match FirstLine(lines, "event:")
                 case None => ""
                 case Some(l) => Trim(l[6..]);
    match FirstLine(lines, "data:")
    case None => None
    case Some(l) => Some(Frame(event, Trim(l[5..])))
  }

  /** What the page shows: the progress lines, the slug and title of the finished post
      (`None` for `undefined`), and an error. */
  datatype View = View(progress: seq<string>, slug: Option<string>, title: Option<string>, error: Option<string>)

  /** The handling of one parsed frame: its view, event name and payload to the new view. */
  type Handler = (View, string, seq<(string, string)>) -> View

  /** A value in a template string: `undefined` when the property is missing. */
  function Show(v: Option<string>): string {
    match v
    case Some(s) => s
    case None => "undefined"
  }

  /** The progress line of a status: `${payload.phase}: ${payload.message}`. */
  function Line(payload: seq<(string, string)>): string {
    Show(Json.Field(payload, "phase")) + ": " + Show(Json.Field(payload, "message"))
  }

  /** The handling as written: a status adds `<phase>: <message>`, `done` sets the slug and
      title, and nothing else changes the view; the `throw` for an `error` frame is caught
      by the `catch` beside it and ignored like a malformed frame. */
  function Receive(v: View, event: string, payload: seq<(string, string)>): (r: View)
    ensures r.error == v.error
  {
    if event == "status" then v.(progress := v.progress + [Line(payload)])
    else if event == "done" then
      v.(slug := Json.Field(payload, "slug"), title := Json.Field(payload, "title"))
    else v
  }

  /** `payload.message || 'Generation error'`. */
  function ErrorText(payload: seq<(string, string)>): (msg: string)
    ensures msg != []
  {
    match Json.Field(payload, "message")
    case Some(m) => if m != [] then m else "Generation error"
    case None => "Generation error"
  }

  /** The handling the `throw` is evidently meant to have: the error reaches the outer
      `catch`, which shows its message, and no later frame is read. */
  function ReceiveCorrected(v: View, event: string, payload: seq<(string, string)>): View {
    if v.error.Some? then v
    else if event == "error" then v.(error := Some(ErrorText(payload)))
    else Receive(v, event, payload)
  }

  /** One frame: parse its data as JSON and hand it over; a frame without a data line, or
      whose data is not a JSON object of strings, leaves the view as it was. */
  function Step(v: View, chunk: string, handle: Handler): View {
    match ParseFrame(chunk)
    case None => v
    case Some(f) =>
      match Json.ParseObject(f.data)
      case None => v
      case Some(payload) => handle(v, f.event, payload)
  }

  /** The frames handled one after the other. */
  function Fold(v: View, frames: seq<string>, handle: Handler): View
    decreases |frames|
  {
    if frames == [] then v else Fold(Step(v, frames[0], handle), frames[1..], handle)
  }

  /** Handling two runs of frames is handling the second from where the first left off. */
  lemma {:induction false} FoldAppend(v: View, a: seq<string>, b: seq<string>, handle: Handler)
    ensures Fold(v, a + b, handle) == Fold(Fold(v, a, handle), b, handle)
    decreases |a|
  {
    if a == [] {
      assert a + b == b;
    } else {
      assert (a + b)[1..] == a[1..] + b;
      FoldAppend(Step(v, a[0], handle), a[1..], b, handle);
    }
  }

  lemma FoldSnoc(v: View, frames: seq<string>, chunk: string, handle: Handler)
    ensures Fold(v, frames + [chunk], handle) == Step(Fold(v, frames, handle), chunk, handle)
  {
    FoldAppend(v, frames, [chunk], handle);
    assert [chunk][1..] == [];
  }

  // ---------------------------------------------------------------------------
  // The reading loop

  /** The inner `while`: as long as the buffer holds a blank line, the text before it is
      handled as a frame and dropped from the buffer with the blank line. */
  method Drain(v0: View, b0: string, handle: Handler) returns (v: View, buffer: string)
    ensures v == Fold(v0, Frames(b0).0, handle)
    ensures buffer == Frames(b0).1
  {
    v, buffer := v0, b0;
    while IndexOfBlank(buffer).Some?
      invariant Fold(v, Frames(buffer).0, handle) == Fold(v0, Frames(b0).0, handle)
      invariant Frames(buffer).1 == Frames(b0).1
      decreases |buffer|
    {
      var idx := IndexOfBlank(buffer).value;
      var chunk := buffer[..idx];
      ghost var before := buffer;
      buffer := buffer[idx + 2..];
      assert Frames(before) == ([chunk] + Frames(buffer).0, Frames(buffer).1);
      assert ([chunk] + Frames(buffer).0)[1..] == Frames(buffer).0;
      v := Step(v, chunk, handle);
    }
    assert Frames(buffer) == ([], buffer);
  }

  /** The `for (;;)` over the pieces of the body: each is appended to the buffer, which is
      then drained. The view is that of the frames of the joined pieces, and the buffer
      keeps their unfinished tail. */
  method Read(pieces: seq<string>, v0: View, handle: Handler) returns (v: View, buffer: string)
    ensures v == Fold(v0, Frames(Concat(pieces)).0, handle)
    ensures buffer == Frames(Concat(pieces)).1
  {
    v, buffer := v0, "";
    for k := 0 to |pieces|
      invariant v == Fold(v0, Frames(Concat(pieces[..k])).0, handle)
      invariant buffer == Frames(Concat(pieces[..k])).1
    {
      ConcatSnoc(pieces, k);
      FramesAppend(Concat(pieces[..k]), pieces[k]);
      FoldAppend(v0, Frames(Concat(pieces[..k])).0, Frames(buffer + pieces[k]).0, handle);
      v, buffer := Drain(v, buffer + pieces[k], handle);
    }
    assert pieces[..|pieces|] == pieces;
  }

  // ---------------------------------------------------------------------------
  // The frames `send` writes, read back

  /** An event whose name can be framed: no line break and no whitespace at either end. */
  predicate Framable(e: StreamRoute.Event) {
    '\n' !in e.name && IsTrimmed(e.name)
  }

  /** What `send` writes for one event: both of its chunks. */
  function FrameText(e: StreamRoute.Event): string {
    StreamRoute.EventLine(e.name) + StreamRoute.DataLine(e.payload)
  }

  /** The frame as the client cuts it off: the two lines without the blank line. */
  function FrameBody(e: StreamRoute.Event): string {
    EventPart(e.name) + DataPart(e.payload)
  }

  function EventPart(name: string): string {
    "event: " + name + "\n"
  }

  function DataPart(payload: seq<(string, string)>): string {
    "data: " + Json.EncodeObject(payload)
  }

  lemma FrameTextBody(e: StreamRoute.Event)
    ensures FrameText(e) == FrameBody(e) + "\n\n"
  {
    ConcatAssoc(EventPart(e.name), DataPart(e.payload), "\n\n");
  }

  lemma EventPartNewlines(name: string)
    requires '\n' !in name
    ensures var p := EventPart(name);
            && |p| >= 1 && p[|p| - 1] == '\n' && forall k :: 0 <= k < |p| - 1 ==> p[k] != '\n'
  {
    var p := EventPart(name);
    forall k | 0 <= k < |p| - 1 ensures p[k] != '\n' {
      if k >= 7 {
        assert p[k] == name[k - 7];
      }
    }
  }

  lemma DataPartShape(payload: seq<(string, string)>)
    ensures var d := DataPart(payload);
            && |d| >= 8 && d[0] == 'd' && d[|d| - 1] == '}' && '\n' !in d
  {
    var d := DataPart(payload);
    var j := Json.EncodeObject(payload);
    Json.EncodeObjectNoControl(payload);
    assert d[|d| - 1] == j[|j| - 1];
    forall k | 0 <= k < |d| ensures d[k] != '\n' {
      if k >= 6 {
        assert d[k] == j[k - 6];
      }
    }
  }

  lemma OneNewline(p: string, d: string)
    requires |p| >= 1 && p[|p| - 1] == '\n' && forall k :: 0 <= k < |p| - 1 ==> p[k] != '\n'
    requires '\n' !in d
    ensures forall j :: 0 <= j < |p + d| && (p + d)[j] == '\n' ==> j == |p| - 1
  {
    var b := p + d;
    forall j | 0 <= j < |p| - 1 ensures b[j] != '\n' {
      assert b[j] == p[j];
    }
    forall j | |p| <= j < |b| ensures b[j] != '\n' {
      assert b[j] == d[j - |p|];
    }
  }

  /** The one line break of a frame's body ends its event line, and the data line after it
      starts with `d`. */
  lemma BodyNewlines(e: StreamRoute.Event)
    requires '\n' !in e.name
    ensures var b := FrameBody(e); var p := EventPart(e.name);
            && |p| < |b| && b[|p|] == 'd' && b[|b| - 1] == '}'
            && forall j :: 0 <= j < |b| && b[j] == '\n' ==> j == |p| - 1
  {
    var b := FrameBody(e);
    var p := EventPart(e.name);
    var d := DataPart(e.payload);
    EventPartNewlines(e.name);
    DataPartShape(e.payload);
    assert b[|p|] == d[0];
    assert b[|b| - 1] == d[|d| - 1];
    OneNewline(p, d);
  }

  /** The frames of one event's text: its body, with nothing left over. */
  lemma FramesOfOne(e: StreamRoute.Event)
    requires Framable(e)
    ensures Frames(FrameText(e)) == ([FrameBody(e)], "")
  {
    var b := FrameBody(e);
    var t := FrameText(e);
    FrameTextBody(e);
    BodyNewlines(e);
    assert BlankAt(t, |b|);
    forall j | 0 <= j < |b| ensures !BlankAt(t, j) {
      assert t[j] == b[j];
      if b[j] == '\n' {
        assert t[j + 1] == b[|EventPart(e.name)|];
      }
    }
    FirstBlank(t, |b|);
    assert IndexOfBlank(t) == Some(|b|);
    assert t[..|b|] == b;
    assert t[|b| + 2..] == "";
    assert Frames("") == ([], "");
    assert Frames(t) == ([t[..|b|]] + Frames(t[|b| + 2..]).0, Frames(t[|b| + 2..]).1);
    assert [b] + [] == [b];
  }

  lemma TrimAfterSpace(x: string)
    requires IsTrimmed(x)
    ensures Trim(" " + x) == x
  {
    assert (" " + x)[1..] == x;
    assert TrimStart(" " + x) == TrimStart(x);
    TrimTrimmed(x);
    assert x != [] ==> TrimStart(x) == x;
  }

  /** A frame's body is its event line and its data line. */
  lemma BodyLines(e: StreamRoute.Event)
    requires '\n' !in e.name
    ensures Split(FrameBody(e), '\n') == ["event: " + e.name, "data: " + Json.EncodeObject(e.payload)]
  {
    var first := "event: " + e.name;
    var second := DataPart(e.payload);
    DataPartShape(e.payload);
    assert '\n' !in first by {
      forall k | 0 <= k < |first| ensures first[k] != '\n' {
        if k >= 7 {
          assert first[k] == e.name[k - 7];
        }
      }
    }
    assert FrameBody(e) == first + ['\n'] + second;
    SplitConcat(first, '\n', second);
    SplitNone(second, '\n');
  }

  /** A frame of an event line and a data line, in that order. */
  lemma ParseTwoLines(body: string, first: string, second: string)
    requires StartsWith(first, "event:") && StartsWith(second, "data:")
    requires Split(body, '\n') == [first, second]
    ensures ParseFrame(body) == Some(Frame(Trim(first[6..]), Trim(second[5..])))
  {
    assert !StartsWith(first, "data:") by {
      assert first[0] == 'e';
    }
    assert [first, second][1..] == [second];
    assert FirstLine([first, second], "event:") == Some(first);
    assert FirstLine([first, second], "data:") == Some(second);
  }

  lemma EncodedTrimmed(payload: seq<(string, string)>)
    ensures IsTrimmed(Json.EncodeObject(payload))
  {
    var j := Json.EncodeObject(payload);
    assert j[0] == '{' && j[|j| - 1] == '}';
  }

  lemma PrefixTrim(prefix: string, x: string)
    requires |prefix| >= 1 && prefix[|prefix| - 1] == ' ' && IsTrimmed(x)
    ensures Trim((prefix + x)[|prefix| - 1..]) == x
  {
    assert (prefix + x)[|prefix| - 1..] == " " + x;
    TrimAfterSpace(x);
  }

  lemma PartsTrim(e: StreamRoute.Event)
    requires IsTrimmed(e.name)
    ensures Trim(("event: " + e.name)[6..]) == e.name
    ensures Trim(("data: " + Json.EncodeObject(e.payload))[5..]) == Json.EncodeObject(e.payload)
  {
    PrefixTrim("event: ", e.name);
    EncodedTrimmed(e.payload);
    PrefixTrim("data: ", Json.EncodeObject(e.payload));
  }

  /** The client reads back the event name and the payload that `send` wrote. */
  lemma ParseFrameBody(e: StreamRoute.Event)
    requires Framable(e)
    ensures ParseFrame(FrameBody(e)) == Some(Frame(e.name, Json.EncodeObject(e.payload)))
    ensures Json.ParseObject(Json.EncodeObject(e.payload)) == Some(e.payload)
  {
    BodyLines(e);
    ParseTwoLines(FrameBody(e), "event: " + e.name, "data: " + Json.EncodeObject(e.payload));
    PartsTrim(e);
    Json.ParseEncodedObject(e.payload);
  }

  /** A frame written by `send` is handled as its own event and payload. */
  lemma StepOnFrame(v: View, e: StreamRoute.Event, handle: Handler)
    requires Framable(e)
    ensures Step(v, FrameBody(e), handle) == handle(v, e.name, e.payload)
  {
    ParseFrameBody(e);
  }

  /** The text of a whole stream: all chunks, in order. */
  function Wire(events: seq<StreamRoute.Event>): string {
    Concat(StreamRoute.Chunks(events))
  }

  lemma ConcatPair(cs: seq<string>, x: string, y: string)
    ensures Concat(cs + [x, y]) == Concat(cs) + (x + y)
  {
    var all := cs + [x, y];
    assert all[..|cs| + 1] == cs + [x];
    assert (cs + [x])[..|cs|] == cs;
    ConcatAssoc(Concat(cs), x, y);
  }

  lemma WireSnoc(events: seq<StreamRoute.Event>, e: StreamRoute.Event)
    ensures Wire(events + [e]) == Wire(events) + FrameText(e)
  {
    StreamRoute.ChunksSnoc(events, e);
    ConcatPair(StreamRoute.Chunks(events), StreamRoute.EventLine(e.name), StreamRoute.DataLine(e.payload));
  }

  /** The bodies of the events' frames, in order. */
  function Bodies(events: seq<StreamRoute.Event>): (r: seq<string>)
    ensures |r| == |events|
  {
    if events == [] then [] else Bodies(events[..|events| - 1]) + [FrameBody(events[|events| - 1])]
  }

  /** The events handled one after the other. */
  function Replay(v: View, events: seq<StreamRoute.Event>, handle: Handler): View {
    if events == [] then v
    else
      var e := events[|events| - 1];
      handle(Replay(v, events[..|events| - 1], handle), e.name, e.payload)
  }

  /** The whole stream cuts into exactly the events' frames, with nothing left over. */
  lemma {:induction false} WireFrames(events: seq<StreamRoute.Event>)
    requires forall i :: 0 <= i < |events| ==> Framable(events[i])
    ensures Frames(Wire(events)) == (Bodies(events), "")
    decreases |events|
  {
    if events == [] {
      assert Wire(events) == "";
    } else {
      var init := events[..|events| - 1];
      var e := events[|events| - 1];
      assert events == init + [e];
      WireFrames(init);
      WireSnoc(init, e);
      FramesAppend(Wire(init), FrameText(e));
      assert "" + FrameText(e) == FrameText(e);
      FramesOfOne(e);
    }
  }

  lemma {:induction false} FoldBodies(v: View, events: seq<StreamRoute.Event>, handle: Handler)
    requires forall i :: 0 <= i < |events| ==> Framable(events[i])
    ensures Fold(v, Bodies(events), handle) == Replay(v, events, handle)
    decreases |events|
  {
    if events != [] {
      var init := events[..|events| - 1];
      var e := events[|events| - 1];
      FoldBodies(v, init, handle);
      FoldSnoc(v, Bodies(init), FrameBody(e), handle);
      StepOnFrame(Fold(v, Bodies(init), handle), e, handle);
    }
  }

  /** However the stream's text is cut into pieces on the way, the page ends with the view
      of the events in the order they were sent, and an empty buffer. */
  lemma ClientReadsStream(pieces: seq<string>, events: seq<StreamRoute.Event>, v0: View, handle: Handler)
    requires Concat(pieces) == Wire(events)
    requires forall i :: 0 <= i < |events| ==> Framable(events[i])
    ensures Frames(Concat(pieces)) == (Bodies(events), "")
    ensures Fold(v0, Frames(Concat(pieces)).0, handle) == Replay(v0, events, handle)
  {
    WireFrames(events);
    FoldBodies(v0, events, handle);
  }

  // ---------------------------------------------------------------------------
  // The page after a whole stream

  /** The progress lines of a run of statuses. */
  function Log(statuses: seq<StreamRoute.Event>): (r: seq<string>)
    ensures |r| == |statuses|
  {
    if statuses == [] then [] else Log(statuses[..|statuses| - 1]) + [Line(statuses[|statuses| - 1].payload)]
  }

  lemma FieldPair(a: string, x: string, b: string, y: string)
    requires a != b
    ensures Json.Field([(a, x), (b, y)], a) == Some(x) && Json.Field([(a, x), (b, y)], b) == Some(y)
  {
    assert [(a, x), (b, y)][..1] == [(a, x)];
    assert [(a, x)][..0] == [];
  }

  /** A status frame logs its phase, a colon and its message. */
  lemma StatusLine(phase: string, message: string)
    ensures Line(StreamRoute.Status(phase, message).payload) == phase + ": " + message
  {
    FieldPair("phase", phase, "message", message);
  }

  /** The message shown for a server's error frame: the server's message, or the fallback
      when it is empty. */
  lemma FailureText(e: Errors.Thrown)
    ensures ErrorText(StreamRoute.Failure(e).payload) == Shown(e)
  {
    assert [("message", StreamRoute.ErrorMessage(e))][..0] == [];
  }

  /** Statuses only add their lines to the progress. */
  lemma {:induction false} ReplayStatuses(v: View, statuses: seq<StreamRoute.Event>)
    requires forall i :: 0 <= i < |statuses| ==> statuses[i].name == "status"
    ensures Replay(v, statuses, Receive) == v.(progress := v.progress + Log(statuses))
    decreases |statuses|
  {
    if statuses == [] {
      assert v.progress + [] == v.progress;
    } else {
      var init := statuses[..|statuses| - 1];
      ReplayStatuses(v, init);
      ConcatAssoc(v.progress, Log(init), [Line(statuses[|statuses| - 1].payload)]);
    }
  }

  /** Before any error the corrected handling of statuses is the handling as written. */
  lemma {:induction false} ReplayCorrectedStatuses(v: View, statuses: seq<StreamRoute.Event>)
    requires v.error.None?
    requires forall i :: 0 <= i < |statuses| ==> statuses[i].name == "status"
    ensures Replay(v, statuses, ReceiveCorrected) == Replay(v, statuses, Receive)
    decreases |statuses|
  {
    if statuses != [] {
      ReplayCorrectedStatuses(v, statuses[..|statuses| - 1]);
      ReplayStatuses(v, statuses[..|statuses| - 1]);
    }
  }

  /** A stream the route can send: statuses, then one `done` or `error`. */
  predicate Finished(ev: seq<StreamRoute.Event>) {
    && |ev| >= 1
    && (forall i :: 0 <= i < |ev| - 1 ==> ev[i].name == "status")
    && (ev[|ev| - 1].name == "done" || ev[|ev| - 1].name == "error")
  }

  lemma FinishedFramable(ev: seq<StreamRoute.Event>)
    requires Finished(ev)
    ensures forall i :: 0 <= i < |ev| ==> Framable(ev[i])
  {
    assert Framable(StreamRoute.Event("status", [])) && Framable(StreamRoute.Event("done", []))
           && Framable(StreamRoute.Event("error", []));
    forall i | 0 <= i < |ev| ensures Framable(ev[i]) {
      assert Framable(ev[i]) == Framable(StreamRoute.Event(ev[i].name, []));
    }
  }

  /** Reading a finished stream as written: the statuses are logged, `done` sets the slug
      and the title, and an `error` frame changes nothing at all. */
  lemma ReadFinished(pieces: seq<string>, ev: seq<StreamRoute.Event>, v0: View)
    requires Concat(pieces) == Wire(ev) && Finished(ev)
    ensures var v := Fold(v0, Frames(Concat(pieces)).0, Receive); var last := ev[|ev| - 1];
            && Frames(Concat(pieces)).1 == ""
            && v.progress == v0.progress + Log(ev[..|ev| - 1])
            && v.error == v0.error
            && (last.name == "done" ==> v.slug == Json.Field(last.payload, "slug") && v.title == Json.Field(last.payload, "title"))
            && (last.name == "error" ==> v.slug == v0.slug && v.title == v0.title)
  {
    FinishedFramable(ev);
    ClientReadsStream(pieces, ev, v0, Receive);
    var init := ev[..|ev| - 1];
    ReplayStatuses(v0, init);
  }

  /** Reading a finished stream with the corrected handling: as before, except that an
      `error` frame's message is shown. */
  lemma ReadFinishedCorrected(pieces: seq<string>, ev: seq<StreamRoute.Event>, v0: View)
    requires Concat(pieces) == Wire(ev) && Finished(ev) && v0.error.None?
    ensures var v := Fold(v0, Frames(Concat(pieces)).0, ReceiveCorrected); var last := ev[|ev| - 1];
            && Frames(Concat(pieces)).1 == ""
            && v.progress == v0.progress + Log(ev[..|ev| - 1])
            && (last.name == "done" ==> v.error.None? && v.slug == Json.Field(last.payload, "slug") && v.title == Json.Field(last.payload, "title"))
            && (last.name == "error" ==> v.error == Some(ErrorText(last.payload)) && v.slug == v0.slug && v.title == v0.title)
  {
    FinishedFramable(ev);
    ClientReadsStream(pieces, ev, v0, ReceiveCorrected);
    var init := ev[..|ev| - 1];
    ReplayCorrectedStatuses(v0, init);
    ReplayStatuses(v0, init);
  }

  /** The page after a stream from the route, as written: a post that was saved is shown by
      its slug and title, but a generation that failed leaves no error on the page. */
  lemma PageAsWritten(pieces: seq<string>, input: Orchestrator.Input, w: Orchestrator.World,
                      save: StreamRoute.Save, v0: View)
    requires Concat(pieces) == Wire(StreamRoute.StreamEvents(input, w, save))
    ensures var g := Orchestrator.GeneratePost(input, w);
            var v := Fold(v0, Frames(Concat(pieces)).0, Receive);
            && v.error == v0.error
            && (g.Ok? && save(g.value.slug + ".md", g.value.markdown).None? ==>
                  v.slug == Some(g.value.slug) && v.title == Some(g.value.title))
            && (g.Err? ==> v.slug == v0.slug && v.title == v0.title)
  {
    var ev := StreamRoute.StreamEvents(input, w, save);
    var g := Orchestrator.GeneratePost(input, w);
    StreamRoute.EventOrder(input, w, save);
    StreamRoute.StreamMatchesGeneratePost(input, w, save);
    ReadFinished(pieces, ev, v0);
    if g.Ok? && save(g.value.slug + ".md", g.value.markdown).None? {
      StreamRoute.OutcomeDone(g.value, save);
      FieldPair("slug", g.value.slug, "title", g.value.title);
    }
  }

  /** The message the corrected page shows for a thrown error. */
  function Shown(e: Errors.Thrown): (msg: string)
    ensures msg != []
  {
    if StreamRoute.ErrorMessage(e) != [] then StreamRoute.ErrorMessage(e) else "Generation error"
  }

  /** The page after a stream from the route, with the corrected handling: a failed
      generation or a failed save shows its message, and a saved post shows no error. */
  lemma PageCorrected(pieces: seq<string>, input: Orchestrator.Input, w: Orchestrator.World,
                      save: StreamRoute.Save, v0: View)
    requires Concat(pieces) == Wire(StreamRoute.StreamEvents(input, w, save)) && v0.error.None?
    ensures var g := Orchestrator.GeneratePost(input, w);
            var v := Fold(v0, Frames(Concat(pieces)).0, ReceiveCorrected);
            && (g.Err? ==> v.error == Some(Shown(g.error)) && v.slug == v0.slug)
            && (g.Ok? && save(g.value.slug + ".md", g.value.markdown).Some? ==>
                  v.error == Some(Shown(save(g.value.slug + ".md", g.value.markdown).value)) && v.slug == v0.slug)
            && (g.Ok? && save(g.value.slug + ".md", g.value.markdown).None? ==>
                  v.error.None? && v.slug == Some(g.value.slug) && v.title == Some(g.value.title))
  {
    var ev := StreamRoute.StreamEvents(input, w, save);
    var g := Orchestrator.GeneratePost(input, w);
    StreamRoute.EventOrder(input, w, save);
    StreamRoute.StreamMatchesGeneratePost(input, w, save);
    ReadFinishedCorrected(pieces, ev, v0);
    if g.Err? {
      FailureText(g.error);
    } else {
      match save(g.value.slug + ".md", g.value.markdown)
      case Some(e) =>
        FailureText(e);
      case None =>
        StreamRoute.OutcomeDone(g.value, save);
        FieldPair("slug", g.value.slug, "title", g.value.title);
    }
  }

  /** Each progress line is that of the status at the same place. */
  lemma {:induction false} LogAt(statuses: seq<StreamRoute.Event>, i: nat)
    requires i < |statuses|
    ensures Log(statuses)[i] == Line(statuses[i].payload)
    decreases |statuses|
  {
    if i < |statuses| - 1 {
      var init := statuses[..|statuses| - 1];
      LogAt(init, i);
      assert init[i] == statuses[i];
    }
  }

  lemma ReadCounts(pieces: seq<string>, ev: seq<StreamRoute.Event>, v0: View, n: nat)
    requires Concat(pieces) == Wire(ev) && Finished(ev) && |ev| >= 6
    requires ev[1] == StreamRoute.Status("research", StreamRoute.Found(n))
    requires ev[3] == StreamRoute.Status("analysis", StreamRoute.Analyzed(n))
    ensures var v := Fold(v0, Frames(Concat(pieces)).0, Receive);
            && |v.progress| >= |v0.progress| + 5
            && v.progress[..|v0.progress|] == v0.progress
            && v.progress[|v0.progress| + 1] == "research" + ": " + StreamRoute.Found(n)
            && v.progress[|v0.progress| + 3] == "analysis" + ": " + StreamRoute.Analyzed(n)
  {
    ReadFinished(pieces, ev, v0);
    var init := ev[..|ev| - 1];
    var v := Fold(v0, Frames(Concat(pieces)).0, Receive);
    assert v.progress == v0.progress + Log(init);
    LogAt(init, 1);
    LogAt(init, 3);
    StatusLine("research", StreamRoute.Found(n));
    StatusLine("analysis", StreamRoute.Analyzed(n));
    assert v.progress[|v0.progress| + 1] == Log(init)[1];
    assert v.progress[|v0.progress| + 3] == Log(init)[3];
  }

  /** Once research succeeds, the second and fourth progress lines report how many sources
      were found and analysed. */
  lemma PageShowsCounts(pieces: seq<string>, input: Orchestrator.Input, w: Orchestrator.World,
                        save: StreamRoute.Save, v0: View)
    requires Concat(pieces) == Wire(StreamRoute.StreamEvents(input, w, save))
    requires Orchestrator.Research(input, w).Ok?
    ensures var n := |Orchestrator.Research(input, w).value.sources|;
            var v := Fold(v0, Frames(Concat(pieces)).0, Receive);
            && |v.progress| >= |v0.progress| + 5
            && v.progress[..|v0.progress|] == v0.progress
            && v.progress[|v0.progress| + 1] == "research" + ": " + StreamRoute.Found(n)
            && v.progress[|v0.progress| + 3] == "analysis" + ": " + StreamRoute.Analyzed(n)
  {
    StreamRoute.EventOrder(input, w, save);
    StreamRoute.SourceCounts(input, w, save);
    ReadCounts(pieces, StreamRoute.StreamEvents(input, w, save), v0, |Orchestrator.Research(input, w).value.sources|);
  }

  /** `generate` once the response is in: a refused request throws 'Failed to start
      generation', which the outer `catch` shows; a stream is read frame by frame. */
  function Page(r: StreamRoute.Response, pieces: seq<string>, v0: View, handle: Handler): View {
    match r
    case Rejected(_, _, _) => v0.(error := Some("Failed to start generation"))
    case Streamed(_, _) => Fold(v0, Frames(Concat(pieces)).0, handle)
  }

  /** A request the route refuses shows the start failure and no progress; one it accepts
      is read to its end, and as written never shows an error. */
  lemma PageOfPost(body: Result<Validation.GenerateRequest, string>, describe: Validation.GenerateRequest -> string,
                   w: Orchestrator.World, save: StreamRoute.Save, pieces: seq<string>, v0: View)
    ensures var r := StreamRoute.Post(body, describe, w, save);
            var v := Page(r, pieces, v0, Receive);
            && (!(body.Ok? && StreamRoute.StreamAccepts(body.value)) ==>
                  v.error == Some("Failed to start generation") && v.progress == v0.progress)
            && (r.Streamed? && Concat(pieces) == Wire(r.events) ==>
                  v.error == v0.error && Frames(Concat(pieces)).1 == "")
  {
    var r := StreamRoute.Post(body, describe, w, save);
    if r.Streamed? && Concat(pieces) == Wire(r.events) {
      StreamRoute.AcceptedStreams(body, describe, w, save);
      ReadFinished(pieces, r.events, v0);
    }
  }
}
