/**
 The event stream between the broker and the kitchen display: the frame printer of
 the broker, the incremental frame parser of the display, and the board it drives.
 The wire format is the event stream of the WHATWG HTML Living Standard,
 sections 9.2.5 and 9.2.6. Characters stand for decoded text.
 */
module EventStream {
  import opened Wrappers
  import Broker

  const BLANK_LINE := "\n\n"

  // ---------- splitting ----------

  predicate AtBlankLine(s: string) {
    |s| >= 2 && s[0] == '\n' && s[1] == '\n'
  }

  predicate HasBlankLine(s: string) {
    exists i :: 0 <= i < |s| - 1 && s[i] == '\n' && s[i + 1] == '\n'
  }

  /** Split on the blank line, leftmost separators first; the last piece is what follows the last separator. */
  function SplitFrames(s: string): (pieces: seq<string>)
    ensures |pieces| >= 1
  {
    if s == "" then [""]
    else if AtBlankLine(s) then [""] + SplitFrames(s[2..])
    else
      var rest := SplitFrames(s[1..]);
      [[s[0]] + rest[0]] + rest[1..]
  }

  function CompleteFrames(s: string): seq<string> {
    var pieces := SplitFrames(s);
    pieces[..|pieces| - 1]
  }

  /** The unfinished frame kept in the buffer. */
  function Tail(s: string): string {
    var pieces := SplitFrames(s);
    pieces[|pieces| - 1]
  }

  /** Every frame followed by its blank line, then the unfinished one: what the split was made from. */
  function Glue(frames: seq<string>, tail: string): string {
    if frames == [] then tail else frames[0] + BLANK_LINE + Glue(frames[1..], tail)
  }

  /** A complete frame holds no blank line, not even together with the first newline of its separator. */
  predicate Tight(frame: string) {
    !HasBlankLine(frame + "\n")
  }

  /** A blank line is either at the front or in the rest. */
  lemma BlankLineShifts(s: string)
    requires s != ""
    ensures HasBlankLine(s) <==> AtBlankLine(s) || HasBlankLine(s[1..])
  {
    var rest := s[1..];
    assert forall i :: 0 <= i < |rest| ==> rest[i] == s[i + 1];
    forall i | 0 < i < |s| - 1
      ensures s[i] == rest[i - 1] && s[i + 1] == rest[i]
    {
    }
  }

  lemma TightTail(frame: string)
    requires frame != ""
    requires Tight(frame)
    ensures Tight(frame[1..]) && !AtBlankLine(frame + BLANK_LINE)
  {
    var f, g := frame + "\n", frame[1..] + "\n";
    assert g == f[1..];
    BlankLineShifts(f);
    assert f[0] == (frame + BLANK_LINE)[0] && f[1] == (frame + BLANK_LINE)[1];
  }

  /** A tight frame and its separator are split off the front of whatever follows. */
  lemma {:induction false} SplitFront(frame: string, s: string)
    requires Tight(frame)
    ensures SplitFrames(frame + BLANK_LINE + s) == [frame] + SplitFrames(s)
  {
    var whole := frame + BLANK_LINE + s;
    if frame == "" {
      assert whole[2..] == s;
    } else {
      TightTail(frame);
      assert whole[0] == (frame + BLANK_LINE)[0] && whole[1] == (frame + BLANK_LINE)[1];
      assert whole[1..] == frame[1..] + BLANK_LINE + s;
      SplitFront(frame[1..], s);
      assert [frame[0]] + frame[1..] == frame;
    }
  }

  lemma {:induction false} SplitNothing(s: string)
    requires !HasBlankLine(s)
    ensures SplitFrames(s) == [s]
  {
    if s != "" {
      assert !AtBlankLine(s);
      BlankLineShifts(s);
      SplitNothing(s[1..]);
      assert [s[0]] + s[1..] == s;
    }
  }

  /**
   The split is the only decomposition of the text into tight frames, separators and
   a tail without a blank line.
   */
  lemma {:induction false} SplitUnique(frames: seq<string>, tail: string)
    requires forall i :: 0 <= i < |frames| ==> Tight(frames[i])
    requires !HasBlankLine(tail)
    ensures SplitFrames(Glue(frames, tail)) == frames + [tail]
  {
    if frames == [] {
      SplitNothing(tail);
    } else {
      SplitFront(frames[0], Glue(frames[1..], tail));
      SplitUnique(frames[1..], tail);
      assert frames[0] + BLANK_LINE + Glue(frames[1..], tail) == Glue(frames, tail);
      assert [frames[0]] + (frames[1..] + [tail]) == frames + [tail];
    }
  }

  /** A way of cutting `s` into complete frames and a tail. */
  predicate Decomposes(s: string, frames: seq<string>, tail: string) {
    && (forall i :: 0 <= i < |frames| ==> Tight(frames[i]))
    && !HasBlankLine(tail)
    && Glue(frames, tail) == s
  }

  /** A frame stays tight when a character is put in front that starts no blank line. */
  lemma TightExtends(c: char, frame: string)
    requires Tight(frame) && !AtBlankLine([c] + frame + BLANK_LINE)
    ensures Tight([c] + frame)
  {
    var f := [c] + frame + "\n";
    assert f[1..] == frame + "\n";
    assert f[0] == ([c] + frame + BLANK_LINE)[0] && f[1] == ([c] + frame + BLANK_LINE)[1];
    BlankLineShifts(f);
  }

  lemma PrependToTail(c: char, tail: string)
    requires Decomposes(tail, [], tail) && !AtBlankLine([c] + tail)
    ensures Decomposes([c] + tail, [], [c] + tail)
  {
    assert ([c] + tail)[1..] == tail;
    BlankLineShifts([c] + tail);
  }

  lemma PrependToFrame(c: char, frame: string, frames: seq<string>, tail: string, s: string)
    requires Decomposes(s, [frame] + frames, tail) && !AtBlankLine([c] + s)
    ensures Decomposes([c] + s, [[c] + frame] + frames, tail)
  {
    var rest, first := Glue(frames, tail), [c] + frame;
    assert ([frame] + frames)[1..] == frames && ([first] + frames)[1..] == frames;
    assert s == frame + BLANK_LINE + rest;
    assert [c] + s == first + BLANK_LINE + rest;
    assert (first + BLANK_LINE)[0] == ([c] + s)[0] && (first + BLANK_LINE)[1] == ([c] + s)[1];
    assert ([frame] + frames)[0] == frame;
    TightExtends(c, frame);
    forall i | 0 <= i < |[first] + frames|
      ensures Tight(([first] + frames)[i])
    {
      if i > 0 {
        assert ([first] + frames)[i] == ([frame] + frames)[i];
      }
    }
  }

  lemma PrependEmptyFrame(frames: seq<string>, tail: string, s: string)
    requires Decomposes(s, frames, tail)
    ensures Decomposes(BLANK_LINE + s, [""] + frames, tail)
  {
    assert ([""] + frames)[1..] == frames;
    assert "" + BLANK_LINE + s == BLANK_LINE + s;
    assert Tight("");
  }

  lemma SplitOfPlain(s: string)
    requires s != "" && !AtBlankLine(s)
    ensures var frames := CompleteFrames(s[1..]);
            if frames == [] then CompleteFrames(s) == [] && Tail(s) == [s[0]] + Tail(s[1..])
            else CompleteFrames(s) == [[s[0]] + frames[0]] + frames[1..] && Tail(s) == Tail(s[1..])
  {
  }

  /** And it is such a decomposition. */
  lemma {:induction false} SplitDecomposes(s: string)
    ensures Decomposes(s, CompleteFrames(s), Tail(s))
  {
    if s == "" {
      assert CompleteFrames(s) == [];
    } else if AtBlankLine(s) {
      SplitDecomposes(s[2..]);
      assert CompleteFrames(s) == [""] + CompleteFrames(s[2..]);
      PrependEmptyFrame(CompleteFrames(s[2..]), Tail(s), s[2..]);
      assert s == BLANK_LINE + s[2..];
    } else {
      var frames, tail := CompleteFrames(s[1..]), Tail(s[1..]);
      SplitDecomposes(s[1..]);
      SplitOfPlain(s);
      assert s == [s[0]] + s[1..];
      if frames == [] {
        PrependToTail(s[0], tail);
      } else {
        assert frames == [frames[0]] + frames[1..];
        PrependToFrame(s[0], frames[0], frames[1..], tail, s[1..]);
      }
    }
  }

  // ---------- chunk independence ----------

  lemma {:induction false} GlueAppend(frames: seq<string>, tail: string, s: string)
    ensures Glue(frames, tail) + s == Glue(frames, tail + s)
  {
    if frames != [] {
      var rest := Glue(frames[1..], tail);
      GlueAppend(frames[1..], tail, s);
      assert frames[0] + BLANK_LINE + rest + s == frames[0] + BLANK_LINE + (rest + s);
    }
  }

  lemma {:induction false} GlueConcat(frames: seq<string>, more: seq<string>, tail: string)
    ensures Glue(frames, Glue(more, tail)) == Glue(frames + more, tail)
  {
    if frames == [] {
      assert frames + more == more;
    } else {
      GlueConcat(frames[1..], more, tail);
      assert (frames + more)[1..] == frames[1..] + more;
    }
  }

  /** Reading on from the buffered tail loses and repeats nothing. */
  lemma {:induction false} SplitResumes(s: string, chunk: string)
    ensures CompleteFrames(s + chunk) == CompleteFrames(s) + CompleteFrames(Tail(s) + chunk)
    ensures Tail(s + chunk) == Tail(Tail(s) + chunk)
  {
    var rest := Tail(s) + chunk;
    var frames := CompleteFrames(s) + CompleteFrames(rest);
    SplitDecomposes(s);
    SplitDecomposes(rest);
    GlueAppend(CompleteFrames(s), Tail(s), chunk);
    GlueConcat(CompleteFrames(s), CompleteFrames(rest), Tail(rest));
    SplitUnique(frames, Tail(rest));
    assert SplitFrames(s + chunk) == frames + [Tail(rest)];
  }

  // ---------- one frame ----------

  /** Split on single newlines. */
  function Lines(s: string): (lines: seq<string>)
    ensures |lines| >= 1
    ensures forall l :: l in lines ==> '\n' !in l
  {
    if s == "" then [""]
    else
      var rest := Lines(s[1..]);
      if s[0] == '\n' then [""] + rest else [[s[0]] + rest[0]] + rest[1..]
  }

  /** The rest of the first line that starts with `prefix`. */
  function Field(lines: seq<string>, prefix: string): (value: Option<string>)
    ensures value.Some? ==> exists l :: l in lines && prefix <= l && value.value == l[|prefix|..]
  {
    if lines == [] then None
    else if prefix <= lines[0] then Some(lines[0][|prefix|..])
    else Field(lines[1..], prefix)
  }

  /** Line `i` is the first that starts with `prefix`. */
  predicate IsFirst(lines: seq<string>, prefix: string, i: nat) {
    i < |lines| && prefix <= lines[i] && forall j :: 0 <= j < i ==> !(prefix <= lines[j])
  }

  lemma {:induction false} FieldIsFirst(lines: seq<string>, prefix: string)
    ensures Field(lines, prefix).None? <==> forall i :: 0 <= i < |lines| ==> !(prefix <= lines[i])
    ensures forall i: nat :: IsFirst(lines, prefix, i) ==> Field(lines, prefix) == Some(lines[i][|prefix|..])
  {
    if lines != [] {
      FieldIsFirst(lines[1..], prefix);
      forall i: nat | IsFirst(lines, prefix, i)
        ensures Field(lines, prefix) == Some(lines[i][|prefix|..])
      {
        if i > 0 {
          assert !(prefix <= lines[0]) && IsFirst(lines[1..], prefix, i - 1);
        }
      }
      if prefix <= lines[0] {
        assert Field(lines, prefix).Some?;
      } else {
        assert forall i :: 0 < i < |lines| ==> lines[i] == lines[1..][i - 1];
      }
    }
  }

  const EVENT_PREFIX := "event: "
  const DATA_PREFIX := "data: "

  datatype Event = Event(name: string, data: string)

  /** What one frame hands on: nothing without a non-empty data line, the empty name without an event line. */
  function ParseFrame(frame: string): seq<Event> {
    var name, data := Field(Lines(frame), EVENT_PREFIX), Field(Lines(frame), DATA_PREFIX);
    if data.None? || data.value == "" then [] else [Event(if name.Some? then name.value else "", data.value)]
  }

  /** A frame's data is what follows "data: " on the first line that has it, and its name what follows "event: ", or nothing. */
  lemma {:induction false} FrameMeans(frame: string, i: nat)
    requires IsFirst(Lines(frame), "data: ", i) && Lines(frame)[i] != "data: "
    ensures |ParseFrame(frame)| == 1 && ParseFrame(frame)[0].data == Lines(frame)[i][6..]
    ensures forall j: nat :: IsFirst(Lines(frame), "event: ", j) ==> ParseFrame(frame)[0].name == Lines(frame)[j][7..]
    ensures (forall l :: l in Lines(frame) ==> !("event: " <= l)) ==> ParseFrame(frame)[0].name == ""
  {
    FieldIsFirst(Lines(frame), DATA_PREFIX);
    FieldIsFirst(Lines(frame), EVENT_PREFIX);
    assert Lines(frame)[i] == "data: " + Lines(frame)[i][6..];
  }

  /** The results of `parse` on each frame, in order. */
  function Collect(frames: seq<string>, parse: string -> seq<Event>): seq<Event> {
    if frames == [] then [] else parse(frames[0]) + Collect(frames[1..], parse)
  }

  lemma {:induction false} CollectConcat(a: seq<string>, b: seq<string>, parse: string -> seq<Event>)
    ensures Collect(a + b, parse) == Collect(a, parse) + Collect(b, parse)
  {
    if a == [] {
      assert a + b == b;
    } else {
      var first, rest, more := parse(a[0]), Collect(a[1..], parse), Collect(b, parse);
      CollectConcat(a[1..], b, parse);
      assert (a + b)[1..] == a[1..] + b && (a + b)[0] == a[0];
      assert first + (rest + more) == first + rest + more;
    }
  }

  /** All events of a text received in one piece. */
  function Events(s: string): seq<Event> {
    Collect(CompleteFrames(s), ParseFrame)
  }

  function Text(chunks: seq<string>): string {
    if chunks == [] then "" else Text(chunks[..|chunks| - 1]) + chunks[|chunks| - 1]
  }

  /** A stream cut short hands on a prefix of what the whole stream would have. */
  lemma {:induction false} TruncationGivesPrefix(s: string, lost: string)
    ensures Events(s) <= Events(s + lost)
  {
    SplitResumes(s, lost);
    CollectConcat(CompleteFrames(s), CompleteFrames(Tail(s) + lost), ParseFrame);
  }

  /** One connection of the display: the buffer and everything handed to the frame handler so far. */
  class StreamReader {
    var buffer: string
    var handed: seq<Event>

    constructor ()
      ensures buffer == "" && handed == []
    {
      buffer, handed := "", [];
    }

    /**
     Reads chunks until the stream ends. Whatever the cuts, the handler gets exactly
     the events of the text as a whole, in order.
     */
    method Consume(chunks: seq<string>)
      requires buffer == "" && handed == []
      modifies this
      ensures handed == Events(Text(chunks))
      ensures buffer == Tail(Text(chunks))
    {
      var n := 0;
      assert SplitFrames("") == [""];
      assert chunks[..0] == [];
      while n < |chunks|
        invariant n <= |chunks|
        invariant handed == Events(Text(chunks[..n])) && buffer == Tail(Text(chunks[..n]))
      {
        ghost var seen := Text(chunks[..n]);
        assert chunks[..n + 1][..n] == chunks[..n];
        SplitResumes(seen, chunks[n]);
        CollectConcat(CompleteFrames(seen), CompleteFrames(buffer + chunks[n]), ParseFrame);
        buffer := buffer + chunks[n];
        var frames := SplitFrames(buffer);
        buffer := frames[|frames| - 1];
        HandleAll(frames[..|frames| - 1]);
        n := n + 1;
      }
      assert chunks[..n] == chunks;
    }

    method HandleAll(frames: seq<string>)
      modifies this`handed
      ensures handed == old(handed) + Collect(frames, ParseFrame)
    {
      var i := 0;
      while i < |frames|
        invariant i <= |frames|
        invariant handed == old(handed) + Collect(frames[..i], ParseFrame)
      {
        assert frames[..i + 1] == frames[..i] + [frames[i]];
        CollectConcat(frames[..i], [frames[i]], ParseFrame);
        assert Collect([frames[i]], ParseFrame) == ParseFrame(frames[i]);
        Handle(frames[i]);
        i := i + 1;
      }
      assert frames[..i] == frames;
    }

    method Handle(frame: string)
      modifies this`handed
      ensures handed == old(handed) + ParseFrame(frame)
    {
      var lines := Lines(frame);
      var name := Field(lines, EVENT_PREFIX);
      var data := Field(lines, DATA_PREFIX);
      if data.None? || data.value == "" {
        return;
      }
      handed := handed + [Event(if name.Some? then name.value else "", data.value)];
    }
  }

  // ---------- the printer ----------

  /** What the broker writes: keep-alive comments and events. */
  datatype Frame = Comment(text: string) | Message(event: Event)

  function Body(f: Frame): string {
    match f
    case Comment(text) => ": " + text
    case Message(e) => EVENT_PREFIX + e.name + "\n" + DATA_PREFIX + e.data
  }

  function Print(f: Frame): string {
    Body(f) + BLANK_LINE
  }

  function PrintAll(fs: seq<Frame>): string {
    if fs == [] then "" else Print(fs[0]) + PrintAll(fs[1..])
  }

  /** Comments without newlines; event names without newlines; data as JSON text: non-empty, on one line. */
  predicate Printable(f: Frame) {
    match f
    case Comment(text) => '\n' !in text
    case Message(e) => '\n' !in e.name && '\n' !in e.data && e.data != ""
  }

  function Messages(fs: seq<Frame>): seq<Event> {
    if fs == [] then [] else (if fs[0].Message? then [fs[0].event] else []) + Messages(fs[1..])
  }

  lemma {:induction false} LinesOfOne(s: string)
    requires '\n' !in s
    ensures Lines(s) == [s]
  {
    if s != "" {
      LinesOfOne(s[1..]);
      assert [s[0]] + s[1..] == s;
    }
  }

  lemma {:induction false} LinesFront(line: string, s: string)
    requires '\n' !in line
    ensures Lines(line + "\n" + s) == [line] + Lines(s)
  {
    var whole := line + "\n" + s;
    if line == "" {
      assert whole[1..] == s;
    } else {
      assert whole[1..] == line[1..] + "\n" + s;
      LinesFront(line[1..], s);
      assert [line[0]] + line[1..] == line;
    }
  }

  /** The frame of a printable comment parses to nothing, that of a printable event to that event. */
  lemma {:induction false} ParseBody(f: Frame)
    requires Printable(f)
    ensures ParseFrame(Body(f)) == if f.Message? then [f.event] else []
  {
    match f
    case Comment(text) =>
      var line := ": " + text;
      LinesOfOne(line);
      assert line[0] == ':' && EVENT_PREFIX[0] == 'e' && DATA_PREFIX[0] == 'd';
    case Message(e) =>
      MessageLines(e);
      var first, second := EVENT_PREFIX + e.name, DATA_PREFIX + e.data;
      var lines := [first, second];
      assert first[0] == 'e' && DATA_PREFIX[0] == 'd';
      assert lines[1..] == [second];
      assert Field(lines, EVENT_PREFIX) == Some(e.name);
      assert Field([second], DATA_PREFIX) == Some(e.data);
      assert Field(lines, DATA_PREFIX) == Some(e.data);
  }

  lemma MessageLines(e: Event)
    requires '\n' !in e.name && '\n' !in e.data
    ensures Lines(Body(Message(e))) == [EVENT_PREFIX + e.name, DATA_PREFIX + e.data]
  {
    var first, second := EVENT_PREFIX + e.name, DATA_PREFIX + e.data;
    LinesFront(first, second);
    LinesOfOne(second);
    assert Body(Message(e)) == first + "\n" + second;
  }

  lemma BodyIsTight(f: Frame)
    requires Printable(f)
    ensures Tight(Body(f))
  {
    match f
    case Comment(text) =>
    case Message(e) =>
      var first, second := EVENT_PREFIX + e.name, DATA_PREFIX + e.data;
      var s := first + "\n" + second + "\n";
      assert s == Body(f) + "\n";
      forall i | 0 <= i < |s| - 1
        ensures !(s[i] == '\n' && s[i + 1] == '\n')
      {
        if i < |first| {
          assert s[i] == first[i];
        } else if i == |first| {
          assert s[i + 1] == second[0] == 'd';
        } else {
          assert s[i] == second[i - |first| - 1];
        }
      }
  }

  /** Any mix of printable comments, pings and events reads back as exactly its events, in order, with nothing left over. */
  lemma {:induction false} RoundTrip(fs: seq<Frame>)
    requires forall i :: 0 <= i < |fs| ==> Printable(fs[i])
    ensures Events(PrintAll(fs)) == Messages(fs)
    ensures Tail(PrintAll(fs)) == ""
  {
    if fs == [] {
      assert SplitFrames("") == [""];
    } else {
      var rest := PrintAll(fs[1..]);
      RoundTrip(fs[1..]);
      BodyIsTight(fs[0]);
      SplitFront(Body(fs[0]), rest);
      assert CompleteFrames(PrintAll(fs)) == [Body(fs[0])] + CompleteFrames(rest);
      ParseBody(fs[0]);
    }
  }

  /** However a printed stream is cut short, the events that got through are the first ones printed. */
  lemma {:induction false} TruncatedRoundTrip(fs: seq<Frame>, received: string, lost: string)
    requires forall i :: 0 <= i < |fs| ==> Printable(fs[i])
    requires received + lost == PrintAll(fs)
    ensures Events(received) <= Messages(fs)
  {
    TruncationGivesPrefix(received, lost);
    RoundTrip(fs);
  }

  /** What the handler can ever be given. */
  predicate Clean(e: Event) {
    '\n' !in e.name && '\n' !in e.data && e.data != ""
  }

  lemma {:induction false} CollectedEventsAreClean(frames: seq<string>)
    ensures forall e :: e in Collect(frames, ParseFrame) ==> Clean(e)
  {
    if frames != [] {
      CollectedEventsAreClean(frames[1..]);
      FrameEventsAreClean(frames[0]);
    }
  }

  lemma FrameEventsAreClean(frame: string)
    ensures forall e :: e in ParseFrame(frame) ==> Clean(e)
  {
  }

  /** A single event survives printing and parsing exactly when its name and data are on one line and the data is not empty. */
  lemma {:induction false} SurvivesExactlyWhenClean(e: Event)
    ensures Events(Print(Message(e))) == [e] <==> Clean(e)
  {
    if Clean(e) {
      RoundTrip([Message(e)]);
      assert PrintAll([Message(e)]) == Print(Message(e));
    } else {
      CollectedEventsAreClean(CompleteFrames(Print(Message(e))));
      assert e in [e];
    }
  }

  // ---------- opening a stream ----------

  const ALL := "*"

  const DISPLAY_FILTER: seq<string> := [
    "order.placed", "order.confirmed", "order.preparing", "order.ready", "order.cancelled", "order.completed"]

  predicate Known(name: string) {
    name == ALL || Broker.IsRegistered(name)
  }

  predicate FilterAccepted(filter: seq<string>) {
    forall name :: name in filter ==> Known(name)
  }

  predicate Subscribes(filter: seq<string>, name: string) {
    filter == [] || ALL in filter || name in filter
  }

  /** All a connection gets while the bus publishes `published`; an unknown name in the filter ends it at once. */
  function Stream(filter: seq<string>, refusal: string, hello: string, published: seq<Event>): seq<Frame> {
    if !FilterAccepted(filter) then [Comment("connected"), Message(Event("error", refusal))]
    else [Comment("connected"), Message(Event("hello", hello))] + Forwarded(filter, published)
  }

  function Forwarded(filter: seq<string>, published: seq<Event>): seq<Frame> {
    if published == [] then []
    else (if Subscribes(filter, published[0].name) then [Message(published[0])] else []) + Forwarded(filter, published[1..])
  }

  /** The events of `published` whose name is one of `names`. */
  function Named(published: seq<Event>, names: seq<string>): seq<Event> {
    if published == [] then []
    else (if published[0].name in names then [published[0]] else []) + Named(published[1..], names)
  }

  lemma {:induction false} ForwardedMeans(filter: seq<string>, published: seq<Event>)
    ensures Messages(Forwarded(filter, published)) == if filter == [] || "*" in filter then published else Named(published, filter)
  {
    if published != [] {
      ForwardedMeans(filter, published[1..]);
      var rest := Forwarded(filter, published[1..]);
      if Subscribes(filter, published[0].name) {
        assert Forwarded(filter, published) == [Message(published[0])] + rest;
        assert ([Message(published[0])] + rest)[1..] == rest;
        assert [published[0]] + published[1..] == published;
      } else {
        assert Forwarded(filter, published) == [] + rest == rest;
      }
    }
  }

  lemma OpeningMessages(first: Event, rest: seq<Frame>)
    ensures Messages([Comment("connected"), Message(first)] + rest) == [first] + Messages(rest)
  {
    var fs := [Comment("connected"), Message(first)] + rest;
    assert fs[1..] == [Message(first)] + rest && fs[1..][1..] == rest;
    assert Messages(fs) == [] + Messages(fs[1..]);
  }

  /**
   A connection whose filter has only registered names gets a greeting and then, in
   order, everything published when it names nothing or "*", else exactly the events
   it names; any other filter gets one error and nothing more.
   */
  lemma {:induction false} StreamMeans(filter: seq<string>, refusal: string, hello: string, published: seq<Event>)
    ensures Messages(Stream(filter, refusal, hello, published)) ==
            if forall name :: name in filter ==> name == "*" || Broker.IsRegistered(name)
            then [Event("hello", hello)] + (if filter == [] || "*" in filter then published else Named(published, filter))
            else [Event("error", refusal)]
  {
    ForwardedMeans(filter, published);
    if FilterAccepted(filter) {
      OpeningMessages(Event("hello", hello), Forwarded(filter, published));
    } else {
      OpeningMessages(Event("error", refusal), []);
      assert [Comment("connected"), Message(Event("error", refusal))] + [] == Stream(filter, refusal, hello, published);
    }
  }

  lemma NoSuchEvent()
    ensures !Broker.IsRegistered("order.cancelled")
  {
    assert forall e: Broker.EventType :: |Broker.NameOf(e)| != 15 || Broker.NameOf(e)[7] != 'a';
    assert "order.cancelled"[7] == 'a' && |"order.cancelled"| == 15;
  }

  /** The display's own filter names an event the registry lacks, so its stream is refused whatever is published. */
  lemma {:induction false} DisplayFilterRefused(refusal: string, hello: string, published: seq<Event>)
    ensures !FilterAccepted(DISPLAY_FILTER)
    ensures Messages(Stream(DISPLAY_FILTER, refusal, hello, published)) == [Event("error", refusal)]
  {
    var name := "order.cancelled";
    assert DISPLAY_FILTER[4] == name;
    NoSuchEvent();
    assert name in DISPLAY_FILTER && !Known(name);
    var fs := Stream(DISPLAY_FILTER, refusal, hello, published);
    assert fs == [Comment("connected"), Message(Event("error", refusal))];
    assert fs[1..] == [Message(Event("error", refusal))];
    assert fs[1..][1..] == [];
    assert Messages(fs[1..]) == [Event("error", refusal)];
  }

  // ---------- the board ----------

  datatype Column = Waiting | Preparing | Ready

  datatype Dish = Dish(name: string, quantity: int, price: real)

  /** What a placed order brings to its card. */
  datatype Details = Details(roomNumber: Option<string>, items: seq<Dish>, total: real)

  datatype Card = Card(orderId: string, details: Details, column: Column)

  /** The order id and details of an event's JSON, or None when the JSON is malformed. */
  type Decoder = string -> Option<(string, Details)>

  datatype Command = Place | Move(column: Column) | Remove | Ignore

  function CommandOf(name: string): Command {
    if name == "order.placed" then Place
    else if name == "order.confirmed" then Move(Waiting)
    else if name == "order.preparing" then Move(Preparing)
    else if name == "order.ready" then Move(Ready)
    else if name == "order.cancelled" || name == "order.completed" then Remove
    else Ignore
  }

  /** Which events place a card, in which column each of them puts it, and which remove it. */
  lemma {:induction false} CommandsMean(name: string)
    ensures CommandOf(name) == Place <==> name == "order.placed"
    ensures CommandOf(name) == Move(Waiting) <==> name == "order.confirmed"
    ensures CommandOf(name) == Move(Preparing) <==> name == "order.preparing"
    ensures CommandOf(name) == Move(Ready) <==> name == "order.ready"
    ensures CommandOf(name) == Remove <==> name == "order.completed" || name == "order.cancelled"
  {
    assert "order.placed"[6] == 'p' && "order.confirmed"[6] == 'c' && "order.preparing"[6] == 'p' && "order.ready"[6] == 'r';
    assert "order.completed"[8] == 'm' && "order.cancelled"[8] == 'n' && "order.confirmed"[8] == 'n' && "order.confirmed"[7] == 'o';
  }

  function MoveCard(cards: seq<Card>, orderId: string, column: Column): (moved: seq<Card>)
    ensures |moved| == |cards|
    ensures forall i :: 0 <= i < |cards| ==>
      moved[i] == if cards[i].orderId == orderId then cards[i].(column := column) else cards[i]
  {
    if cards == [] then []
    else [if cards[0].orderId == orderId then cards[0].(column := column) else cards[0]] + MoveCard(cards[1..], orderId, column)
  }

  function RemoveCard(cards: seq<Card>, orderId: string): (kept: seq<Card>)
    ensures forall c :: c in kept <==> c in cards && c.orderId != orderId
  {
    if cards == [] then []
    else (if cards[0].orderId == orderId then [] else [cards[0]]) + RemoveCard(cards[1..], orderId)
  }

  function Apply(cards: seq<Card>, command: Command, orderId: string, details: Details): seq<Card> {
    match command
    case Place => [Card(orderId, details, Waiting)] + RemoveCard(cards, orderId)
    case Move(column) => MoveCard(cards, orderId, column)
    case Remove => RemoveCard(cards, orderId)
    case Ignore => cards
  }

  function Show(cards: seq<Card>, e: Event, decode: Decoder): seq<Card> {
    match decode(e.data)
    case None => cards
    case Some(order) => Apply(cards, CommandOf(e.name), order.0, order.1)
  }

  function Board(events: seq<Event>, decode: Decoder): seq<Card> {
    if events == [] then [] else Show(Board(events[..|events| - 1], decode), events[|events| - 1], decode)
  }

  /** The life of one order seen on its own: absent, or shown with its details in one column. */
  function Life(events: seq<Event>, decode: Decoder, orderId: string): Option<Card> {
    if events == [] then None
    else
      var before, e := Life(events[..|events| - 1], decode, orderId), events[|events| - 1];
      match decode(e.data)
      case None => before
      case Some(order) =>
        if order.0 != orderId then before
        else match CommandOf(e.name)
          case Place => Some(Card(orderId, order.1, Waiting))
          case Move(column) => if before.Some? then Some(before.value.(column := column)) else None
          case Remove => None
          case Ignore => before
  }

  predicate OneCardPerOrder(cards: seq<Card>) {
    forall i, j :: 0 <= i < j < |cards| ==> cards[i].orderId != cards[j].orderId
  }

  lemma {:induction false} RemovalKeepsDistinct(cards: seq<Card>, orderId: string)
    requires OneCardPerOrder(cards)
    ensures OneCardPerOrder(RemoveCard(cards, orderId))
  {
    if cards != [] {
      RemovalKeepsDistinct(cards[1..], orderId);
    }
  }

  /** A command for one order leaves the cards of all others alone. */
  lemma ApplyKeepsOthers(cards: seq<Card>, command: Command, orderId: string, details: Details, c: Card)
    requires c.orderId != orderId
    ensures c in Apply(cards, command, orderId, details) <==> c in cards
  {
    if command.Move? && c in cards {
      var moved := MoveCard(cards, orderId, command.column);
      var i :| 0 <= i < |cards| && cards[i] == c;
      assert moved[i] == c;
    }
  }

  lemma ApplyKeepsDistinct(cards: seq<Card>, command: Command, orderId: string, details: Details)
    requires OneCardPerOrder(cards)
    ensures OneCardPerOrder(Apply(cards, command, orderId, details))
  {
    RemovalKeepsDistinct(cards, orderId);
    if command.Place? {
      PlacingKeepsDistinct(RemoveCard(cards, orderId), Card(orderId, details, Waiting));
    }
  }

  lemma PlacingKeepsDistinct(kept: seq<Card>, card: Card)
    requires OneCardPerOrder(kept) && forall c :: c in kept ==> c.orderId != card.orderId
    ensures OneCardPerOrder([card] + kept)
  {
    var cards := [card] + kept;
    forall i, j | 0 <= i < j < |cards|
      ensures cards[i].orderId != cards[j].orderId
    {
      assert cards[j] == kept[j - 1] && kept[j - 1] in kept;
    }
  }

  /** The board shows each order at most once, and shows exactly what that order's own events say. */
  lemma {:induction false} BoardShowsEachLife(events: seq<Event>, decode: Decoder, orderId: string)
    ensures OneCardPerOrder(Board(events, decode))
    ensures forall c: Card :: c.orderId == orderId ==> (c in Board(events, decode) <==> Life(events, decode, orderId) == Some(c))
    ensures Life(events, decode, orderId).Some? ==> Life(events, decode, orderId).value.orderId == orderId
  {
    if events != [] {
      var init, e := events[..|events| - 1], events[|events| - 1];
      BoardShowsEachLife(init, decode, orderId);
      var before := Board(init, decode);
      match decode(e.data)
      case None =>
      case Some(order) =>
        ApplyKeepsDistinct(before, CommandOf(e.name), order.0, order.1);
        if order.0 != orderId {
          forall c: Card | c.orderId == orderId
            ensures c in Board(events, decode) <==> c in before
          {
            ApplyKeepsOthers(before, CommandOf(e.name), order.0, order.1, c);
          }
        } else if CommandOf(e.name).Move? {
          MoveOne(before, orderId, CommandOf(e.name).column);
        }
    }
  }

  lemma MoveOne(cards: seq<Card>, orderId: string, column: Column)
    requires OneCardPerOrder(cards)
    ensures forall c: Card :: c.orderId == orderId ==>
      (c in MoveCard(cards, orderId, column) <==> exists b :: b in cards && b.orderId == orderId && c == b.(column := column))
  {
    var moved := MoveCard(cards, orderId, column);
    forall b | b in cards && b.orderId == orderId
      ensures b.(column := column) in moved
    {
      var i :| 0 <= i < |cards| && cards[i] == b;
      assert moved[i] == b.(column := column);
    }
  }

  // ---------- the order of the board ----------

  /** The place among the events of the last one that placed the order, or -1. */
  function LastPlaced(events: seq<Event>, decode: Decoder, orderId: string): (n: int)
    ensures -1 <= n < |events|
  {
    if events == [] then -1
    else if PlacedBy(events[|events| - 1], decode, orderId) then |events| - 1
    else LastPlaced(events[..|events| - 1], decode, orderId)
  }

  predicate PlacedBy(e: Event, decode: Decoder, orderId: string) {
    CommandOf(e.name) == Place && decode(e.data).Some? && decode(e.data).value.0 == orderId
  }

  /** Cards stand in the order in which they were last placed, the latest first. */
  predicate LatestFirst(cards: seq<Card>, events: seq<Event>, decode: Decoder) {
    cards == [] ||
    (LatestFirst(cards[1..], events, decode) &&
     forall c :: c in cards[1..] ==> LastPlaced(events, decode, c.orderId) < LastPlaced(events, decode, cards[0].orderId))
  }

  /** Other orders are placed when they were. */
  lemma {:induction false} RestStaysLatestFirst(cards: seq<Card>, events: seq<Event>, e: Event, decode: Decoder)
    requires LatestFirst(cards, events, decode)
    requires forall c :: c in cards ==> !PlacedBy(e, decode, c.orderId)
    ensures LatestFirst(cards, events + [e], decode)
  {
    assert (events + [e])[..|events|] == events;
    if cards != [] {
      RestStaysLatestFirst(cards[1..], events, e, decode);
      assert cards[0] in cards;
    }
  }

  lemma {:induction false} RemovalStaysLatestFirst(cards: seq<Card>, events: seq<Event>, decode: Decoder, orderId: string)
    requires LatestFirst(cards, events, decode)
    ensures LatestFirst(RemoveCard(cards, orderId), events, decode)
  {
    if cards != [] {
      RemovalStaysLatestFirst(cards[1..], events, decode, orderId);
      var kept := RemoveCard(cards[1..], orderId);
      if cards[0].orderId != orderId {
        assert RemoveCard(cards, orderId)[1..] == kept;
      } else {
        assert RemoveCard(cards, orderId) == kept;
      }
    }
  }

  /** Only the order ids matter. */
  lemma {:induction false} SameOrdersLatestFirst(cards: seq<Card>, moved: seq<Card>, events: seq<Event>, decode: Decoder)
    requires LatestFirst(cards, events, decode) && |moved| == |cards|
    requires forall i :: 0 <= i < |cards| ==> moved[i].orderId == cards[i].orderId
    ensures LatestFirst(moved, events, decode)
  {
    if cards != [] {
      SameOrdersLatestFirst(cards[1..], moved[1..], events, decode);
      forall c | c in moved[1..]
        ensures LastPlaced(events, decode, c.orderId) < LastPlaced(events, decode, moved[0].orderId)
      {
        var i :| 0 < i < |moved| && moved[i] == c;
        assert cards[1..][i - 1] in cards[1..];
      }
    }
  }

  lemma PlacingStaysLatestFirst(cards: seq<Card>, events: seq<Event>, e: Event, decode: Decoder)
    requires LatestFirst(cards, events, decode) && CommandOf(e.name) == Place && decode(e.data).Some?
    ensures LatestFirst(Show(cards, e, decode), events + [e], decode)
  {
    var orderId := decode(e.data).value.0;
    var kept := RemoveCard(cards, orderId);
    RemovalStaysLatestFirst(cards, events, decode, orderId);
    RestStaysLatestFirst(kept, events, e, decode);
    assert (events + [e])[..|events|] == events;
    assert Show(cards, e, decode)[1..] == kept;
  }

  /** After any events the board shows its orders by the time they were last placed, the latest first. */
  lemma {:induction false} BoardShowsLatestFirst(events: seq<Event>, decode: Decoder)
    ensures LatestFirst(Board(events, decode), events, decode)
  {
    if events != [] {
      var init, e := events[..|events| - 1], events[|events| - 1];
      BoardShowsLatestFirst(init, decode);
      assert events == init + [e];
      var before, command := Board(init, decode), CommandOf(e.name);
      if decode(e.data).Some? && command == Place {
        PlacingStaysLatestFirst(before, init, e, decode);
      } else {
        RestStaysLatestFirst(before, init, e, decode);
        if decode(e.data).Some? {
          var orderId := decode(e.data).value.0;
          RemovalStaysLatestFirst(before, events, decode, orderId);
          var column := if command.Move? then command.column else Waiting;
          SameOrdersLatestFirst(before, MoveCard(before, orderId, column), events, decode);
        }
      }
    }
  }

  /** As shipped, the kitchen display stays empty: it is refused and ignores the refusal. */
  lemma {:induction false} DisplayStaysEmpty(refusal: string, hello: string, published: seq<Event>, decode: Decoder)
    requires Clean(Event("error", refusal))
    ensures Board(Events(PrintAll(Stream(DISPLAY_FILTER, refusal, hello, published))), decode) == []
  {
    var fs := Stream(DISPLAY_FILTER, refusal, hello, published);
    var error := Event("error", refusal);
    DisplayFilterRefused(refusal, hello, published);
    RoundTrip(fs);
    assert error.name[0] == 'e';
    assert CommandOf(error.name) == Ignore;
    assert [error][..0] == [];
  }
}
