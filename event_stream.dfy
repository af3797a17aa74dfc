/** The text/event-stream wire format used by the notification stream and the
    AI chat stream (HTML Living Standard, sections 9.2.5 and 9.2.6): messages
    are `data: <payload>` lines ended by a blank line, and keep-alives are
    comment lines starting with a colon. Besides the producer side, this
    module holds a small interpreter of the standard's parsing rules, so that
    the frames can be shown to carry exactly their payloads to a client. */
module EventStream {
  import opened Text

  datatype Header = Header(name: string, value: string)

  /** The headers both streaming routes answer with. */
  const StreamHeaders: seq<Header> := [
    Header("Content-Type", "text/event-stream"),
    Header("Cache-Control", "no-cache"),
    Header("Connection", "keep-alive")
  ]

  /** A frame as the server writes it. */
  datatype Frame = Data(payload: string) | Comment(text: string)

  /** `data: ${payload}\n\n` */
  function DataFrame(payload: string): string {
    "data: " + payload + "\n\n"
  }

  /** `: ${text}\n\n` */
  function CommentFrame(text: string): string {
    ": " + text + "\n\n"
  }

  /** The keep-alive frame of the notification stream. */
  const PingFrame: string := CommentFrame("ping")

  /** The serialized `{ type: "connected" }` greeting. */
  const ConnectedPayload: string := "{\"type\":\"connected\"}"

  function Render(f: Frame): string {
    match f
    case Data(p) => DataFrame(p)
    case Comment(t) => CommentFrame(t)
  }

  /** The bytes of a sequence of frames written one after the other. */
  function Stream(fs: seq<Frame>): string {
    if fs == [] then "" else Render(fs[0]) + Stream(fs[1..])
  }

  /** Payloads must not break the line structure. JSON text produced by a
      serializer never holds a raw line feed or carriage return. */
  predicate OneLine(s: string) {
    '\n' !in s && '\r' !in s
  }

  predicate WellFormed(fs: seq<Frame>) {
    forall i :: 0 <= i < |fs| ==> OneLine(if fs[i].Data? then fs[i].payload else fs[i].text)
  }

  /** The payloads a client is told about, in order. */
  function Payloads(fs: seq<Frame>): (r: seq<string>)
    ensures |r| <= |fs|
  {
    if fs == [] then []
    else if fs[0].Data? then [fs[0].payload] + Payloads(fs[1..])
    else Payloads(fs[1..])
  }

  // ---- the client-side interpretation (section 9.2.6) ----

  /** Field name and value of a non-comment line: the text before the first
      colon, and the text after it with one leading space removed; a line
      without a colon is a field name with the empty value. */
  function FieldValue(line: string): (string, string) {
    var field := Split(line, ':')[0];
    if |field| == |line| then (line, "")
    else
      var rest := line[|field| + 1..];
      (field, if rest != [] && rest[0] == ' ' then rest[1..] else rest)
  }

  /** Drop one trailing line feed from the data buffer. */
  function StripLF(buf: string): string {
    if buf != [] && buf[|buf| - 1] == '\n' then buf[..|buf| - 1] else buf
  }

  /** Process complete lines with the given data buffer: a blank line
      dispatches the buffer (when non-empty), a comment line is ignored and a
      `data` field appends its value and a line feed to the buffer. */
  function Feed(lines: seq<string>, buf: string): seq<string> {
    if lines == [] then []
    else
      var line := lines[0];
      if line == "" then
        if buf == "" then Feed(lines[1..], "") else [StripLF(buf)] + Feed(lines[1..], "")
      else if line[0] == ':' then Feed(lines[1..], buf)
      else
        var (field, value) := FieldValue(line);
        if field == "data" then Feed(lines[1..], buf + value + "\n") else Feed(lines[1..], buf)
  }

  /** The events a client dispatches on receiving `s`: every complete line
      (the text after the last line feed is still incomplete) is fed in turn. */
  function Events(s: string): seq<string> {
    var lines := Split(s, '\n');
    Feed(lines[..|lines| - 1], "")
  }

  /** The lines of a stream of frames. */
  function Lines(fs: seq<Frame>): seq<string> {
    if fs == [] then []
    else (if fs[0].Data? then ["data: " + fs[0].payload] else [": " + fs[0].text]) + [""] + Lines(fs[1..])
  }

  /** A line-feed-free line followed by a blank line splits off as the two
      lines themselves. */
  lemma LineThenBlank(head: string, rest: string)
    requires '\n' !in head
    ensures Split(head + "\n\n" + rest, '\n') == [head, ""] + Split(rest, '\n')
  {
    var tail := [] + ['\n'] + rest;
    assert head + "\n\n" + rest == head + ['\n'] + tail;
    SplitAppend(head, '\n', tail);
    SplitNoSep(head, '\n');
    SplitAppend([], '\n', rest);
  }

  lemma DataField(payload: string)
    ensures FieldValue("data: " + payload) == ("data", payload)
  {
    var line := "data: " + payload;
    assert line == "data" + [':'] + (" " + payload);
    SplitAppend("data", ':', " " + payload);
    SplitNoSep("data", ':');
    assert Split(line, ':')[0] == "data";
    assert line[5..] == " " + payload;
  }

  lemma WellFormedCons(fs: seq<Frame>)
    requires fs != [] && WellFormed(fs)
    ensures WellFormed(fs[1..])
    ensures OneLine(if fs[0].Data? then fs[0].payload else fs[0].text)
  {
    forall i | 0 <= i < |fs[1..]|
      ensures OneLine(if fs[1..][i].Data? then fs[1..][i].payload else fs[1..][i].text)
    {
      assert fs[1..][i] == fs[i + 1];
    }
  }

  /** A frame's bytes are its field line followed by a blank line. */
  lemma RenderLine(f: Frame)
    requires OneLine(if f.Data? then f.payload else f.text)
    ensures var head := if f.Data? then "data: " + f.payload else ": " + f.text;
      '\n' !in head && Render(f) == head + "\n\n"
  {
  }

  lemma {:induction false} StreamLines(fs: seq<Frame>)
    requires WellFormed(fs)
    ensures Split(Stream(fs), '\n') == Lines(fs) + [""]
  {
    if fs != [] {
      var f := fs[0];
      var head := if f.Data? then "data: " + f.payload else ": " + f.text;
      WellFormedCons(fs);
      StreamLines(fs[1..]);
      RenderLine(f);
      LineThenBlank(head, Stream(fs[1..]));
      LinesCons(fs);
      Assoc([head, ""], Lines(fs[1..]), [""]);
    }
  }

  lemma LinesCons(fs: seq<Frame>)
    requires fs != []
    ensures Lines(fs) == [if fs[0].Data? then "data: " + fs[0].payload else ": " + fs[0].text, ""] + Lines(fs[1..])
  {
  }

  lemma WellFormedAppend(a: seq<Frame>, b: seq<Frame>)
    requires WellFormed(a) && WellFormed(b)
    ensures WellFormed(a + b)
  {
    var fs := a + b;
    forall i | 0 <= i < |fs| ensures OneLine(if fs[i].Data? then fs[i].payload else fs[i].text) {
      if i < |a| { assert fs[i] == a[i]; } else { assert fs[i] == b[i - |a|]; }
    }
  }

  lemma {:induction false} FeedLines(fs: seq<Frame>)
    ensures Feed(Lines(fs), "") == Payloads(fs)
  {
    if fs != [] {
      var f := fs[0];
      FeedLines(fs[1..]);
      var line := if f.Data? then "data: " + f.payload else ": " + f.text;
      var after := [""] + Lines(fs[1..]);
      assert Lines(fs) == [line] + after;
      assert Feed(after, "") == Payloads(fs[1..]);
      if f.Data? {
        DataField(f.payload);
        assert ([line] + after)[0] == line && ([line] + after)[1..] == after;
        assert line != "" && line[0] == 'd';
        assert "" + f.payload + "\n" == f.payload + "\n";
        assert Feed([line] + after, "") == Feed(after, f.payload + "\n");
        assert StripLF(f.payload + "\n") == f.payload;
      } else {
        assert Feed([line] + after, "") == Feed(after, "");
      }
    }
  }

  /** A client receiving the frames dispatches exactly the data payloads, in
      order; comment frames such as the keep-alive dispatch nothing. */
  lemma RoundTrip(fs: seq<Frame>)
    requires WellFormed(fs)
    ensures Events(Stream(fs)) == Payloads(fs)
  {
    StreamLines(fs);
    var lines := Lines(fs) + [""];
    assert lines[..|lines| - 1] == Lines(fs);
    FeedLines(fs);
  }

  /** One data frame carries its payload; the keep-alive carries nothing. */
  lemma SingleFrames(payload: string)
    requires OneLine(payload)
    ensures Events(DataFrame(payload)) == [payload]
    ensures Events(PingFrame) == []
  {
    var d := [Data(payload)];
    assert Stream(d) == DataFrame(payload) + "";
    assert DataFrame(payload) + "" == DataFrame(payload);
    RoundTrip(d);
    var p := [Comment("ping")];
    assert Stream(p) == PingFrame + "";
    assert PingFrame + "" == PingFrame;
    RoundTrip(p);
  }

  /** Frames that are all data frames carry their payloads. */
  lemma {:induction false} PayloadsOfData(ps: seq<string>)
    ensures Payloads(seq(|ps|, i requires 0 <= i < |ps| => Data(ps[i]))) == ps
  {
    var fs := seq(|ps|, i requires 0 <= i < |ps| => Data(ps[i]));
    if ps != [] {
      PayloadsOfData(ps[1..]);
      assert fs[1..] == seq(|ps[1..]|, i requires 0 <= i < |ps[1..]| => Data(ps[1..][i]));
      assert ps == [ps[0]] + ps[1..];
    }
  }
}
