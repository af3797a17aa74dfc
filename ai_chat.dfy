/** POST /api/ai/chat (src/app/api/ai/chat/route.ts): the guards in order
    (no user, then an invalid body, then a conversation the user does not
    own), the two messages saved, and the event stream that replays the
    assistant's reply word by word. The analysis route
    (src/app/api/ai/analyze/route.ts) streams its report with the same
    chunker after a `meta` event. Stream payloads are JSON objects; here they
    are the `ChatEvent` values, and their serialization is the `encode`
    parameter. */
module AiChat {
  import opened Values
  import opened Text
  import opened ApiHelpers
  import opened EventStream
  import AiMock

  /** Longest accepted message, in characters. */
  const MaxMessageLength: int := 5000

  /** `z.string().min(1)` */
  predicate ValidConversationId(v: Json) {
    v.Str? && |v.s| >= 1
  }

  /** `z.string().min(1).max(5000)` */
  predicate ValidMessage(v: Json) {
    v.Str? && 1 <= |v.s| <= MaxMessageLength
  }

  /** The issues `chatSchema.safeParse(body)` reports, each named by the path
      of the offending field ("" for the body itself). */
  function ChatIssues(body: Json): seq<string> {
    if !body.Obj? then [""]
    else
      (if ValidConversationId(Get(body, "conversationId")) then [] else ["conversationId"])
      + (if ValidMessage(Get(body, "message")) then [] else ["message"])
  }

  datatype ChatRequest = ChatRequest(conversationId: string, message: string)

  /** `chatSchema.safeParse(body)`: the parsed request, or the issues. */
  function ParseChat(body: Json): (r: Option<ChatRequest>)
    ensures r.Some? <==> ChatIssues(body) == []
    ensures r.Some? ==> Get(body, "conversationId") == Str(r.value.conversationId) && Get(body, "message") == Str(r.value.message)
  {
    if ChatIssues(body) == [] then Some(ChatRequest(Get(body, "conversationId").s, Get(body, "message").s))
    else None
  }

  datatype Role = USER | ASSISTANT

  datatype SavedMessage = SavedMessage(role: Role, content: string, conversationId: string)

  /** The stream's events: `{type: "chunk", content}`, `{type: "done"}` and
      the analysis route's `{type: "meta", conversationId}`. */
  datatype ChatEvent = Chunk(content: string) | Done | Meta(conversationId: string)

  /** Chunk `i`: the i-th word, preceded by a space except for the first. */
  function ChunkText(words: seq<string>, i: nat): string
    requires i < |words|
  {
    (if i == 0 then "" else " ") + words[i]
  }

  function ChunkTexts(words: seq<string>): seq<string> {
    seq(|words|, i requires 0 <= i < |words| => ChunkText(words, i))
  }

  /** One chunk event per word, in word order, then one `done`. */
  function ChatEvents(words: seq<string>): seq<ChatEvent> {
    seq(|words|, i requires 0 <= i < |words| => Chunk(ChunkText(words, i))) + [Done]
  }

  /** The data frames carrying the serialized events. */
  function Framed(events: seq<ChatEvent>, encode: ChatEvent -> string): seq<Frame> {
    seq(|events|, i requires 0 <= i < |events| => Data(encode(events[i])))
  }

  /** The stream's `start`: one frame per word, then the `done` frame. */
  method StreamWords(words: seq<string>, encode: ChatEvent -> string) returns (frames: seq<Frame>)
    ensures frames == Framed(ChatEvents(words), encode)
  {
    frames := [];
    for i := 0 to |words|
      invariant |frames| == i
      invariant forall k :: 0 <= k < i ==> frames[k] == Data(encode(Chunk(ChunkText(words, k))))
    {
      var chunk := (if i == 0 then "" else " ") + words[i];
      frames := frames + [Data(encode(Chunk(chunk)))];
    }
    frames := frames + [Data(encode(Done))];
  }

  /** The analysis route's `start`: the `meta` frame, then the chunker. */
  method StreamAnalysis(conversationId: string, words: seq<string>, encode: ChatEvent -> string) returns (frames: seq<Frame>)
    ensures frames == Framed([Meta(conversationId)] + ChatEvents(words), encode)
  {
    var rest := StreamWords(words, encode);
    frames := [Data(encode(Meta(conversationId)))] + rest;
  }

  /** The route's answer: an error response, or the two messages saved and
      the stream with its headers. */
  datatype ChatReply =
    | Refused(response: Response<()>)
    | Streamed(saved: seq<SavedMessage>, events: seq<ChatEvent>, headers: seq<Header>)

  /** POST for the signed-in user `user` (if any), with conversation owners
      given by `owners` (conversation id to user id). */
  function Chat(user: Option<string>, body: Json, owners: map<string, string>): ChatReply {
    if user.None? then Refused(Error("Unauthorized", 401))
    else
      var parsed := ParseChat(body);
      if parsed.None? then Refused(ErrorResponse("Validation failed", Some(422), Some(ChatIssues(body))))
      else
        var req := parsed.value;
        if !(req.conversationId in owners && owners[req.conversationId] == user.value) then
          Refused(Error("Conversation not found", 404))
        else
          var reply := AiMock.GetMockAIResponse(req.message);
          Streamed([SavedMessage(USER, req.message, req.conversationId), SavedMessage(ASSISTANT, reply, req.conversationId)],
                   ChatEvents(Split(reply, ' ')), StreamHeaders)
  }

  /** A well-formed chat body is accepted exactly when the conversation id
      is non-empty and the message has 1 to 5000 characters. */
  lemma AcceptedBodies(conversationId: string, message: string)
    ensures var body := Obj(map["conversationId" := Str(conversationId), "message" := Str(message)]);
      ParseChat(body).Some? <==> |conversationId| >= 1 && 1 <= |message| <= 5000
  {
  }

  /** A body that is not an object, or lacks a field, is refused. */
  lemma RefusedBodies(body: Json)
    requires !body.Obj? || "conversationId" !in body.fields || "message" !in body.fields
    ensures ParseChat(body).None?
  {
  }

  /** The guards, in order: 401 without a user; then 422 for an invalid
      body, with the issues as details; then 404 for a conversation that is
      missing or owned by someone else; otherwise the stream. Refusals save
      nothing. */
  lemma ChatGuards(user: Option<string>, body: Json, owners: map<string, string>)
    ensures var r := Chat(user, body, owners);
      && (user.None? ==> r == Refused(Failure(401, ErrorBody("Unauthorized", None))))
      && (user.Some? && ChatIssues(body) != [] ==>
            r == Refused(Failure(422, ErrorBody("Validation failed", Some(ChatIssues(body))))))
      && (user.Some? && ChatIssues(body) == [] ==>
            var id := Get(body, "conversationId").s;
            (r.Refused? <==> !(id in owners && owners[id] == user.value))
            && (r.Refused? ==> r == Refused(Failure(404, ErrorBody("Conversation not found", None)))))
  {
  }

  /** An accepted request saves exactly two messages in the conversation:
      first the user's message, then the assistant's reply; and the stream
      carries that reply. */
  lemma ChatSavesTwo(user: Option<string>, body: Json, owners: map<string, string>)
    requires Chat(user, body, owners).Streamed?
    ensures var r := Chat(user, body, owners);
      var id := Get(body, "conversationId").s;
      var message := Get(body, "message").s;
      && |r.saved| == 2
      && r.saved[0] == SavedMessage(USER, message, id)
      && r.saved[1] == SavedMessage(ASSISTANT, AiMock.GetMockAIResponse(message), id)
      && r.events == ChatEvents(Split(r.saved[1].content, ' '))
      && r.headers == StreamHeaders
  {
  }

  /** The chunks concatenate to the joined words. */
  lemma {:induction false} ConcatChunks(words: seq<string>)
    requires words != []
    ensures Concat(ChunkTexts(words)) == Join(words, " ")
  {
    var cs := ChunkTexts(words);
    var rest := words[1..];
    assert cs == [words[0]] + Spaced(rest) by {
      assert cs[0] == "" + words[0] == words[0];
      forall i | 1 <= i < |cs| ensures cs[i] == Spaced(rest)[i - 1] {
        assert rest[i - 1] == words[i];
      }
    }
    assert cs[1..] == Spaced(rest);
    ConcatSpaced(rest);
  }

  /** Every word with a space in front. */
  function Spaced(ws: seq<string>): seq<string> {
    seq(|ws|, i requires 0 <= i < |ws| => " " + ws[i])
  }

  lemma {:induction false} ConcatSpaced(ws: seq<string>)
    ensures Concat(Spaced(ws)) == if ws == [] then "" else " " + Join(ws, " ")
  {
    if ws != [] {
      SpacedCons(ws);
      ConcatSpaced(ws[1..]);
      var j := Join(ws[1..], " ");
      if |ws| > 1 {
        assert Concat(Spaced(ws)) == " " + ws[0] + (" " + j);
        Assoc(" " + ws[0], " ", j);
        Assoc(" ", ws[0] + " ", j);
        Assoc(" ", ws[0], " ");
      } else {
        assert Concat(Spaced(ws)) == " " + ws[0] + "";
      }
    }
  }

  lemma SpacedCons(ws: seq<string>)
    requires ws != []
    ensures Spaced(ws)[0] == " " + ws[0] && Spaced(ws)[1..] == Spaced(ws[1..])
  {
  }

  /** With `words = aiResponse.split(" ")`, the chunks concatenate to
      exactly the reply. */
  lemma ChunksRebuildReply(reply: string)
    ensures Concat(ChunkTexts(Split(reply, ' '))) == reply
  {
    ConcatChunks(Split(reply, ' '));
    JoinSplit(reply, ' ');
  }

  /** The chat widget's loop: append the content of every `chunk` event
      whose content is non-empty, ignore everything else. */
  function Accumulate(events: seq<ChatEvent>): string {
    if events == [] then ""
    else
      var e := events[|events| - 1];
      Accumulate(events[..|events| - 1]) + (if e.Chunk? && e.content != "" then e.content else "")
  }

  lemma {:induction false} AccumulateAppend(a: seq<ChatEvent>, b: seq<ChatEvent>)
    ensures Accumulate(a + b) == Accumulate(a) + Accumulate(b)
    decreases |b|
  {
    if b == [] {
      assert a + b == a;
    } else {
      var e := b[|b| - 1];
      FrontOfAppend(a, b);
      AccumulateAppend(a, b[..|b| - 1]);
      Assoc(Accumulate(a), Accumulate(b[..|b| - 1]), if e.Chunk? && e.content != "" then e.content else "");
    }
  }

  /** Skipping empty contents loses nothing: accumulating chunk events gives
      the concatenation of their contents. */
  lemma {:induction false} AccumulateChunks(ts: seq<string>)
    ensures Accumulate(seq(|ts|, i requires 0 <= i < |ts| => Chunk(ts[i]))) == Concat(ts)
    decreases |ts|
  {
    var es := seq(|ts|, i requires 0 <= i < |ts| => Chunk(ts[i]));
    if ts != [] {
      var init := ts[..|ts| - 1];
      assert es[..|es| - 1] == seq(|init|, i requires 0 <= i < |init| => Chunk(init[i]));
      AccumulateChunks(init);
      assert ts == init + [ts[|ts| - 1]];
      ConcatAppend(init, [ts[|ts| - 1]]);
    }
  }

  /** A client accumulating the chat stream reconstructs exactly the reply
      the route saved as the assistant's message. */
  lemma ClientRebuildsReply(reply: string)
    ensures Accumulate(ChatEvents(Split(reply, ' '))) == reply
  {
    var words := Split(reply, ' ');
    var ts := ChunkTexts(words);
    var chunks := seq(|ts|, i requires 0 <= i < |ts| => Chunk(ts[i]));
    assert ChatEvents(words) == chunks + [Done];
    AccumulateAppend(chunks, [Done]);
    assert Accumulate([Done]) == Accumulate([]) + "";
    AccumulateChunks(ts);
    ChunksRebuildReply(reply);
  }

  /** The same for the analysis stream: the leading `meta` event adds
      nothing to the text. */
  lemma ClientRebuildsAnalysis(conversationId: string, report: string)
    ensures Accumulate([Meta(conversationId)] + ChatEvents(Split(report, ' '))) == report
  {
    AccumulateAppend([Meta(conversationId)], ChatEvents(Split(report, ' ')));
    assert Accumulate([Meta(conversationId)]) == Accumulate([]) + "";
    ClientRebuildsReply(report);
  }

  /** One chunk event per word, in word order, then exactly one `done`, as
      the last event. */
  lemma ChatEventsShape(words: seq<string>)
    ensures |ChatEvents(words)| == |words| + 1
    ensures forall i :: 0 <= i < |words| ==> ChatEvents(words)[i] == Chunk(ChunkText(words, i))
    ensures ChatEvents(words)[|words|] == Done
    ensures forall i :: 0 <= i < |words| ==> ChatEvents(words)[i] != Done
  {
  }

  /** Whatever the serializer, as long as it writes one-line text, a client
      of the event stream receives exactly the serialized events, in order. */
  lemma WireCarriesEvents(events: seq<ChatEvent>, encode: ChatEvent -> string)
    requires forall e :: OneLine(encode(e))
    ensures Events(Stream(Framed(events, encode))) == seq(|events|, i requires 0 <= i < |events| => encode(events[i]))
  {
    var ps := seq(|events|, i requires 0 <= i < |events| => encode(events[i]));
    var fs := Framed(events, encode);
    assert fs == seq(|ps|, i requires 0 <= i < |ps| => Data(ps[i]));
    PayloadsOfData(ps);
    assert WellFormed(fs) by {
      forall i | 0 <= i < |fs| ensures OneLine(if fs[i].Data? then fs[i].payload else fs[i].text) {
        assert fs[i] == Data(encode(events[i]));
      }
    }
    RoundTrip(fs);
  }

  /** For an accepted request, what the client shows at the end of the
      stream is exactly the assistant message the route saved. */
  lemma ChatTranscript(user: Option<string>, body: Json, owners: map<string, string>)
    requires Chat(user, body, owners).Streamed?
    ensures Accumulate(Chat(user, body, owners).events) == Chat(user, body, owners).saved[1].content
  {
    ChatSavesTwo(user, body, owners);
    ClientRebuildsReply(Chat(user, body, owners).saved[1].content);
  }
}
