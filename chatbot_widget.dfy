/**
 * The streaming chat widget: sending a message appends the user's message
 * and an empty bot placeholder, posts the conversation, reads the reply as
 * a stream of `data:` lines, and shows the bot text as it accumulates,
 * flushing a buffer into the placeholder at most every 50 ms.
 *
 * The reply stream is an input: the chunks the reader yields, in order, and
 * whether reading ends with an error. JSON parsing of a payload is the
 * parameter `decode`, and the clock is `clock(k)`, the value of the k-th
 * `Date.now()` reading of the stream loop.
 */
module ChatbotWidget {
  import opened Wrappers
  import opened Text

  datatype Sender = UserSender | BotSender
  datatype Message = Message(id: string, sender: Sender, content: string)

  /** One entry of the history sent to the assistant. */
  datatype Turn = Turn(role: string, content: string)

  const GREETING: string :=
    "Hello \U{1F44B} I'm your AI travel assistant. Ask me anything about your location, safety tips, weather, or local attractions!"
  const FAILURE_TEXT: string := "\U{26A0}\U{FE0F} Bot failed. Please try again."
  const FLUSH_INTERVAL: int := 50

  // ---------------------------------------------------------------
  // Request history
  // ---------------------------------------------------------------

  function Role(s: Sender): string {
    if s == UserSender then "user" else "assistant"
  }

  /** `messages.map(m => ({role, content}))`. */
  function Turns(messages: seq<Message>): (ts: seq<Turn>)
    ensures |ts| == |messages|
    ensures forall i :: 0 <= i < |ts| ==> ts[i] == Turn(Role(messages[i].sender), messages[i].content)
  {
    if messages == [] then [] else [Turn(Role(messages[0].sender), messages[0].content)] + Turns(messages[1..])
  }

  /** The history posted for a new input: the earlier messages, then the input as a user turn. */
  function History(messages: seq<Message>, input: string): (h: seq<Turn>)
    ensures |h| == |messages| + 1
    ensures h[|messages|] == Turn("user", input)
  {
    Turns(messages) + [Turn("user", input)]
  }

  function UserMessageCount(messages: seq<Message>): nat {
    if messages == [] then 0 else (if messages[0].sender == UserSender then 1 else 0) + UserMessageCount(messages[1..])
  }

  function UserTurnCount(turns: seq<Turn>): nat {
    if turns == [] then 0 else (if turns[0].role == "user" then 1 else 0) + UserTurnCount(turns[1..])
  }

  lemma {:induction false} UserTurnCountAppend(a: seq<Turn>, b: seq<Turn>)
    ensures UserTurnCount(a + b) == UserTurnCount(a) + UserTurnCount(b)
  {
    if a == [] {
      assert a + b == b;
    } else {
      assert (a + b)[0] == a[0];
      assert (a + b)[1..] == a[1..] + b;
      UserTurnCountAppend(a[1..], b);
    }
  }

  /** Every user message, and only those, becomes a `"user"` turn; the new input adds one more. */
  lemma {:induction false} HistoryUserTurns(messages: seq<Message>, input: string)
    ensures UserTurnCount(History(messages, input)) == UserMessageCount(messages) + 1
  {
    TurnsUserCount(messages);
    UserTurnCountAppend(Turns(messages), [Turn("user", input)]);
  }

  lemma {:induction false} TurnsUserCount(messages: seq<Message>)
    ensures UserTurnCount(Turns(messages)) == UserMessageCount(messages)
  {
    if messages != [] {
      TurnsUserCount(messages[1..]);
    }
  }

  // ---------------------------------------------------------------
  // updateBotMessage
  // ---------------------------------------------------------------

  /** `prev.map(m => m.id === id ? {...m, content: text} : m)`. */
  function UpdateBotMessage(messages: seq<Message>, id: string, text: string): (r: seq<Message>)
    ensures |r| == |messages|
    ensures forall i :: 0 <= i < |r| && messages[i].id == id ==> r[i] == messages[i].(content := text)
    ensures forall i :: 0 <= i < |r| && messages[i].id != id ==> r[i] == messages[i]
  {
    seq(|messages|, i requires 0 <= i < |messages| =>
      if messages[i].id == id then messages[i].(content := text) else messages[i])
  }

  /** A second update of the same message overrides the first. */
  lemma UpdateTwice(messages: seq<Message>, id: string, first: string, second: string)
    ensures UpdateBotMessage(UpdateBotMessage(messages, id, first), id, second) == UpdateBotMessage(messages, id, second)
  {
    var once := UpdateBotMessage(messages, id, first);
    assert forall i :: 0 <= i < |messages| ==> once[i].id == messages[i].id;
  }

  /** What the list shows for the bot text so far: the placeholder list until the first flush. */
  function Displayed(base: seq<Message>, id: string, botContent: string): seq<Message> {
    if botContent == "" then base else UpdateBotMessage(base, id, botContent)
  }

  /** Showing a non-empty text replaces whatever was shown before. */
  lemma FlushShows(base: seq<Message>, id: string, shown: string, text: string)
    requires text != ""
    ensures UpdateBotMessage(Displayed(base, id, shown), id, text) == Displayed(base, id, text)
  {
    if shown != "" {
      UpdateTwice(base, id, shown, text);
    }
  }

  // ---------------------------------------------------------------
  // Stream lines
  // ---------------------------------------------------------------

  /** The outcome of `JSON.parse` and `choices[0].delta.content` on one payload; `""` when there is no delta. */
  datatype Parsed = Unparsable | Json(delta: string)

  datatype Line = Ignored | Payload(json: string)

  /** `s.replace(/^data: /, "")`: one leading `"data: "`, with exactly one space, is removed. */
  function StripData(s: string): (r: string)
    ensures StartsWith(s, "data: ") ==> s == "data: " + r
    ensures !StartsWith(s, "data: ") ==> r == s
  {
    if StartsWith(s, "data: ") then s[6..] else s
  }

  /** A line is used when its trimmed form is a `data:` line whose payload is not `[DONE]`. */
  function ParseLine(line: string): (r: Line)
    ensures r.Payload? <==> StartsWith(Trim(line), "data:") && Trim(StripData(Trim(line))) != "[DONE]"
    ensures r.Payload? ==> Trim(line) != "" && r.json == Trim(StripData(Trim(line))) && r.json != "[DONE]"
  {
    var t := Trim(line);
    if t == "" || !StartsWith(t, "data:") then Ignored
    else
      var json := Trim(StripData(t));
      if json == "[DONE]" then Ignored else Payload(json)
  }

  /** A standard `data: ` line yields its payload unchanged. */
  lemma DataLinePayload(p: string)
    requires p != "" && Trim(p) == p && p != "[DONE]"
    ensures ParseLine("data: " + p) == Payload(p)
  {
    var line := "data: " + p;
    TrimmedPrefix("data: ", p);
    assert StartsWith(line, "data:") by {
      assert line[..5] == "data:";
    }
    assert StripData(line) == p by {
      assert line[..6] == "data: ";
      assert line[6..] == p;
    }
  }

  /** Without the space after the colon nothing is stripped, so the payload keeps the `data:` prefix. */
  lemma NoSpaceKeepsPrefix(p: string)
    requires p != "" && Trim(p) == p
    ensures ParseLine("data:" + p) == Payload("data:" + p)
  {
    var line := "data:" + p;
    TrimmedEnds(p);
    assert line[0] == 'd' && line[|line| - 1] == p[|p| - 1];
    TrimOfTrimmed(line);
    assert line[..5] == "data:";
    assert line[5] == p[0] && p[0] != ' ';
    assert !StartsWith(line, "data: ");
    assert line[0] != "[DONE]"[0];
  }

  /** The text one line contributes: its delta, or nothing when it is ignored, unparsable or has no delta. */
  function LineDelta(line: string, decode: string -> Parsed): string {
    match ParseLine(line)
    case Ignored => ""
    case Payload(json) =>
      match decode(json)
      case Unparsable => ""
      case Json(delta) => delta
  }

  /** The deltas of a list of lines, in order. */
  function LinesText(lines: seq<string>, decode: string -> Parsed): string {
    if lines == [] then "" else LinesText(lines[..|lines| - 1], decode) + LineDelta(lines[|lines| - 1], decode)
  }

  lemma AppendAssoc(a: string, b: string, c: string)
    ensures a + b + c == a + (b + c)
  {
  }

  lemma LinesTextStep(lines: seq<string>, l: nat, decode: string -> Parsed)
    requires l < |lines|
    ensures LinesText(lines[..l + 1], decode) == LinesText(lines[..l], decode) + LineDelta(lines[l], decode)
  {
    assert lines[..l + 1][..l] == lines[..l];
  }

  /** Each chunk is split on `"\n"` on its own, so a line cut across two reads is parsed as two fragments. */
  function ChunkText(chunk: string, decode: string -> Parsed): string {
    LinesText(Split(chunk, '\n'), decode)
  }

  /** The deltas of all chunks, in order. */
  function StreamText(chunks: seq<string>, decode: string -> Parsed): string {
    if chunks == [] then "" else StreamText(chunks[..|chunks| - 1], decode) + ChunkText(chunks[|chunks| - 1], decode)
  }

  lemma StreamTextStep(chunks: seq<string>, c: nat, decode: string -> Parsed)
    requires c < |chunks|
    ensures StreamText(chunks[..c + 1], decode) == StreamText(chunks[..c], decode) + ChunkText(chunks[c], decode)
  {
    assert chunks[..c + 1][..c] == chunks[..c];
  }

  /** An unparsable payload contributes nothing. */
  lemma UnparsableAddsNothing(lines: seq<string>, line: string, decode: string -> Parsed)
    requires ParseLine(line).Payload? && decode(ParseLine(line).json).Unparsable?
    ensures LinesText(lines + [line], decode) == LinesText(lines, decode)
  {
    assert (lines + [line])[..|lines|] == lines;
  }

  /** A chunk without a line break is one line. */
  lemma ChunkWithoutBreak(chunk: string, decode: string -> Parsed)
    requires '\n' !in chunk
    ensures ChunkText(chunk, decode) == LineDelta(chunk, decode)
  {
    SplitNoSeparator(chunk, '\n');
    assert [chunk][..0] == [];
  }

  // ---------------------------------------------------------------
  // The widget
  // ---------------------------------------------------------------

  /** The reply to the post: refused (a thrown fetch, a status that is not ok, no body), or a stream. */
  datatype StreamReply = Refused | Streamed(chunks: seq<string>, broken: bool)

  /** What the message list ends as after a send, from the list with the user message and placeholder. */
  function Outcome(base: seq<Message>, botId: string, reply: StreamReply, decode: string -> Parsed): seq<Message> {
    if reply.Refused? || reply.broken then UpdateBotMessage(base, botId, FAILURE_TEXT)
    else Displayed(base, botId, StreamText(reply.chunks, decode))
  }

  class Chatbot {
    var messages: seq<Message>
    var inputMessage: string
    var isLoading: bool

    constructor()
      ensures messages == [Message("1", BotSender, GREETING)] && inputMessage == "" && !isLoading
    {
      messages := [Message("1", BotSender, GREETING)];
      inputMessage := "";
      isLoading := false;
    }

    /**
     * One line: a non-empty delta is added to `buffer`, which is flushed
     * into `botContent` and shown when more than 50 ms have passed since
     * the last flush.
     */
    method ReadLine(line: string, decode: string -> Parsed, clock: nat -> int, botId: string, ghost base: seq<Message>,
                    readings: nat, lastFlush: int, botContent: string, buffer: string)
        returns (readings': nat, lastFlush': int, botContent': string, buffer': string)
      requires messages == Displayed(base, botId, botContent)
      modifies this`messages
      ensures botContent' + buffer' == botContent + buffer + LineDelta(line, decode)
      ensures messages == Displayed(base, botId, botContent')
    {
      readings', lastFlush', botContent', buffer' := readings, lastFlush, botContent, buffer;
      var delta := LineDelta(line, decode);
      if delta != "" {
        buffer' := buffer' + delta;
        var now := clock(readings');
        readings' := readings' + 1;
        if now - lastFlush' > FLUSH_INTERVAL {
          FlushShows(base, botId, botContent', botContent' + buffer');
          botContent' := botContent' + buffer';
          messages := UpdateBotMessage(messages, botId, botContent');
          buffer' := "";
          lastFlush' := now;
        }
      }
    }

    /** The lines of one chunk, in order. */
    method ReadLines(lines: seq<string>, decode: string -> Parsed, clock: nat -> int, botId: string, ghost base: seq<Message>,
                     readings: nat, lastFlush: int, botContent: string, buffer: string)
        returns (readings': nat, lastFlush': int, botContent': string, buffer': string)
      requires messages == Displayed(base, botId, botContent)
      modifies this`messages
      ensures botContent' + buffer' == botContent + buffer + LinesText(lines, decode)
      ensures messages == Displayed(base, botId, botContent')
    {
      readings', lastFlush', botContent', buffer' := readings, lastFlush, botContent, buffer;
      var l := 0;
      while l < |lines|
        invariant 0 <= l <= |lines|
        invariant botContent' + buffer' == botContent + buffer + LinesText(lines[..l], decode)
        invariant messages == Displayed(base, botId, botContent')
      {
        LinesTextStep(lines, l, decode);
        AppendAssoc(botContent + buffer, LinesText(lines[..l], decode), LineDelta(lines[l], decode));
        readings', lastFlush', botContent', buffer' :=
          ReadLine(lines[l], decode, clock, botId, base, readings', lastFlush', botContent', buffer');
        l := l + 1;
      }
      assert lines[..l] == lines;
    }

    /** The read loop over the chunks the reader yields. */
    method ReadStream(chunks: seq<string>, decode: string -> Parsed, clock: nat -> int, botId: string, ghost base: seq<Message>)
        returns (botContent: string, buffer: string)
      requires messages == base
      modifies this`messages
      ensures botContent + buffer == StreamText(chunks, decode)
      ensures messages == Displayed(base, botId, botContent)
    {
      botContent, buffer := "", "";
      var readings := 0;
      var lastFlush := clock(readings);
      readings := readings + 1;
      var c := 0;
      while c < |chunks|
        invariant 0 <= c <= |chunks|
        invariant botContent + buffer == StreamText(chunks[..c], decode)
        invariant messages == Displayed(base, botId, botContent)
      {
        StreamTextStep(chunks, c, decode);
        readings, lastFlush, botContent, buffer :=
          ReadLines(Split(chunks[c], '\n'), decode, clock, botId, base, readings, lastFlush, botContent, buffer);
        c := c + 1;
      }
      assert chunks[..c] == chunks;
    }

    /** The reply's part of a send: the placeholder ends as the streamed text, or as the failure text. */
    method FinishReply(reply: StreamReply, decode: string -> Parsed, clock: nat -> int, botId: string)
      modifies this`messages
      ensures messages == Outcome(old(messages), botId, reply, decode)
    {
      ghost var base := messages;
      match reply {
        case Refused =>
          messages := UpdateBotMessage(messages, botId, FAILURE_TEXT);
        case Streamed(chunks, broken) =>
          var botContent, buffer := ReadStream(chunks, decode, clock, botId, base);
          if broken {
            FlushShows(base, botId, botContent, FAILURE_TEXT);
            messages := UpdateBotMessage(messages, botId, FAILURE_TEXT);
          } else if buffer != "" {
            FlushShows(base, botId, botContent, botContent + buffer);
            botContent := botContent + buffer;
            messages := UpdateBotMessage(messages, botId, botContent);
          } else {
            assert botContent == botContent + buffer;
          }
      }
    }

    /**
     * `handleSendMessage`: nothing happens for a blank input or while a
     * reply is loading. Otherwise the user message (id `now`, one clock
     * reading) and an empty bot placeholder (id `later + 1`, the next
     * reading) are appended, the input is
     * cleared, the history is posted, and the placeholder ends as the
     * streamed text, or as the failure text when the stream fails; loading
     * ends in every case.
     */
    method HandleSendMessage(now: nat, later: nat, reply: StreamReply, decode: string -> Parsed, clock: nat -> int)
        returns (request: Option<seq<Turn>>)
      modifies this
      ensures Trim(old(inputMessage)) == "" || old(isLoading) ==>
                request == None && messages == old(messages) && inputMessage == old(inputMessage) && isLoading == old(isLoading)
      ensures Trim(old(inputMessage)) != "" && !old(isLoading) ==>
                var base := old(messages) + [Message(NatToString(now), UserSender, old(inputMessage)),
                                             Message(NatToString(later + 1), BotSender, "")];
                request == Some(History(old(messages), old(inputMessage))) &&
                messages == Outcome(base, NatToString(later + 1), reply, decode) &&
                inputMessage == "" && !isLoading
    {
      if Trim(inputMessage) == "" || isLoading {
        return None;
      }
      var userMessage := Message(NatToString(now), UserSender, inputMessage);
      var prior := messages;
      messages := messages + [userMessage];
      inputMessage := "";
      isLoading := true;
      var botId := NatToString(later + 1);
      messages := messages + [Message(botId, BotSender, "")];
      request := Some(History(prior, userMessage.content));
      FinishReply(reply, decode, clock, botId);
      isLoading := false;
    }
  }

  /** A failed send leaves the earlier messages and the user message as they were, and shows the failure text. */
  lemma FailureShowsErrorText(base: seq<Message>, botId: string, decode: string -> Parsed)
    requires |base| >= 1 && base[|base| - 1].id == botId
    ensures var shown := Outcome(base, botId, Refused, decode);
            |shown| == |base| && shown[|base| - 1].content == FAILURE_TEXT
  {
  }

  /** After a complete stream the placeholder holds all the streamed text, in order. */
  lemma CompleteStreamShowsAllText(base: seq<Message>, botId: string, chunks: seq<string>, decode: string -> Parsed)
    requires |base| >= 1 && base[|base| - 1].id == botId && base[|base| - 1].content == ""
    ensures Outcome(base, botId, Streamed(chunks, false), decode)[|base| - 1].content == StreamText(chunks, decode)
  {
  }
}
