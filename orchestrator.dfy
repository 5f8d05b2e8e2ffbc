/**
 * The request handling of api_server.py: turning a backend reply into text,
 * generating for one agent, the server-sent event streams, the batch endpoint and
 * the simulated press conference. The language-model backend is an oracle: a call
 * made for the item at position k of a request gets the reply `replies(k)`.
 */
module Orchestrator {
  import opened Wrappers
  import opened Text
  import OrderedMap
  import opened Profiles
  import Templates
  import Directory

  // ---------------------------------------------------------------- backend replies

  /** The first choice's message: `content` ("" when absent) and `reasoning_content`. */
  datatype Completion = Completion(content: string, reasoning: Option<string>)

  /** One streamed chunk: without choices, or carrying the first choice's delta content. */
  datatype StreamChunk = NoChoices | Delta(content: Option<string>)

  /** What one backend call produced. */
  datatype BackendReply =
    | Answered(completion: Completion)                              // a dumpable completion
    | Streamed(chunks: seq<StreamChunk>, interruption: Option<string>) // a stream, possibly broken off
    | Unparsed                                                      // no dump, no choices, or unreadable
    | Failed(reason: string)                                        // the call itself raised

  /** An HTTP error, or an error re-raised under another status with a prefix. */
  datatype Failure =
    | HttpError(status: nat, detail: string)
    | Wrapped(status: nat, prefix: string, cause: Failure)

  function MediaNotFound(agentId: string): Failure {
    HttpError(404, "媒体 '" + agentId + "' 不存在")
  }
  const UserNotFound := HttpError(404, "用户不存在")
  const BadAgentType := HttpError(400, "agent_type 必须是 'media' 或 'user'")
  function BackendFailure(reason: string): Failure {
    HttpError(500, "AI API调用失败: " + reason)
  }
  const MalformedReply := HttpError(500, "AI API返回格式异常")

  // ---------------------------------------------------------------- text extraction

  /** A reasoning line that reads like a final answer. */
  predicate IsAnswerLine(line: string) {
    |line| > 10 && !StartsWith(line, "我需要") && !StartsWith(line, "作为一个")
  }

  /** Position of the last line that reads like an answer; -1 when none does. */
  function LastAnswerIndex(lines: seq<string>): (i: int)
    ensures -1 <= i < |lines|
    ensures i >= 0 ==> IsAnswerLine(lines[i])
    ensures forall k | i < k < |lines| :: !IsAnswerLine(lines[k])
  {
    if lines == [] then -1
    else if IsAnswerLine(lines[|lines| - 1]) then |lines| - 1
    else LastAnswerIndex(lines[..|lines| - 1])
  }

  /** Each line stripped. */
  function Stripped(lines: seq<string>): (r: seq<string>)
    ensures |r| == |lines|
  {
    seq(|lines|, k requires 0 <= k < |lines| => Strip(lines[k]))
  }

  /** The reasoning's lines, each stripped. */
  function StrippedLines(reasoning: string): seq<string> {
    Stripped(Split(reasoning, '\n'))
  }

  /** The answer pulled out of non-empty reasoning: the last answer-like line, or else
      the last 200 characters. */
  function FromReasoning(reasoning: string): string {
    var lines := StrippedLines(reasoning);
    var i := LastAnswerIndex(lines);
    if i >= 0 then lines[i] else LastChars(reasoning, 200)
  }

  /** The text `generate_with_zhipuai` returns for a completion. */
  function ExtractText(c: Completion): string {
    if c.content != "" then c.content
    else if c.reasoning.None? || c.reasoning.value == "" then c.content
    else FromReasoning(c.reasoning.value)
  }

  /** Non-empty content wins; otherwise the result is the last stripped reasoning line
      that is longer than ten characters and opens with neither 我需要 nor 作为一个,
      and when no line qualifies, the reasoning's last 200 characters. */
  lemma ExtractTextSpec(c: Completion)
    ensures c.content != "" ==> ExtractText(c) == c.content
    ensures c.content == "" && (c.reasoning.None? || c.reasoning.value == "") ==> ExtractText(c) == ""
    ensures c.content == "" && c.reasoning.Some? && c.reasoning.value != "" ==>
      var lines := StrippedLines(c.reasoning.value);
      && ((exists j | 0 <= j < |lines| :: IsAnswerLine(lines[j])) ==>
            exists j | 0 <= j < |lines| ::
              && ExtractText(c) == lines[j]
              && IsAnswerLine(ExtractText(c))
              && forall k | j < k < |lines| :: !IsAnswerLine(lines[k]))
      && ((forall j | 0 <= j < |lines| :: !IsAnswerLine(lines[j])) ==>
            ExtractText(c) == LastChars(c.reasoning.value, 200))
  {
    if c.content == "" && c.reasoning.Some? && c.reasoning.value != "" {
      var lines := StrippedLines(c.reasoning.value);
      var i := LastAnswerIndex(lines);
      if i >= 0 {
        assert ExtractText(c) == lines[i];
      }
    }
  }

  /** The extraction loop of `generate_with_zhipuai`: reasoning lines from last to first. */
  method ExtractFinalAnswer(c: Completion) returns (text: string)
    ensures text == ExtractText(c)
  {
    if c.content != "" || c.reasoning.None? || c.reasoning.value == "" {
      return c.content;
    }
    text := AnswerFromReasoning(c.reasoning.value);
  }

  /** The reverse scan over the reasoning's lines, with the 200-character tail as fallback. */
  method AnswerFromReasoning(reasoning: string) returns (text: string)
    ensures text == FromReasoning(reasoning)
  {
    var lines := Split(reasoning, '\n');
    ghost var stripped := Stripped(lines);
    var i := |lines|;
    while i > 0
      invariant 0 <= i <= |lines|
      invariant LastAnswerIndex(stripped) == LastAnswerIndex(stripped[..i])
    {
      assert stripped[..i][..i - 1] == stripped[..i - 1];
      i := i - 1;
      var line := Strip(lines[i]);
      assert line == stripped[i];
      if IsAnswerLine(line) {
        return line;
      }
    }
    return LastChars(reasoning, 200);
  }

  // ---------------------------------------------------------------- streamed text

  /** The text a chunk contributes, "" when it has none. */
  function ChunkText(chunk: StreamChunk): string {
    if chunk.Delta? && chunk.content.Some? then chunk.content.value else ""
  }

  /** The non-empty delta contents, in order. */
  function Deltas(chunks: seq<StreamChunk>): (texts: seq<string>)
    ensures forall k | 0 <= k < |texts| :: texts[k] != ""
  {
    if chunks == [] then []
    else
      var last := ChunkText(chunks[|chunks| - 1]);
      Deltas(chunks[..|chunks| - 1]) + (if last != "" then [last] else [])
  }

  /** What `stream_response_generator` yields: the non-empty deltas, then one
      "错误: …" text when the iteration broke off. */
  function StreamTexts(chunks: seq<StreamChunk>, interruption: Option<string>): seq<string> {
    Deltas(chunks) + (if interruption.Some? then ["错误: " + interruption.value] else [])
  }

  /** All chunk texts glued together. */
  function AllText(chunks: seq<StreamChunk>): string {
    if chunks == [] then "" else AllText(chunks[..|chunks| - 1]) + ChunkText(chunks[|chunks| - 1])
  }

  function Concat(parts: seq<string>): string {
    if parts == [] then "" else Concat(parts[..|parts| - 1]) + parts[|parts| - 1]
  }

  lemma {:induction false} ConcatAppend(a: seq<string>, b: seq<string>)
    ensures Concat(a + b) == Concat(a) + Concat(b)
    decreases |b|
  {
    if b == [] {
      assert a + b == a;
    } else {
      var n := |b| - 1;
      assert (a + b)[..|a + b| - 1] == a + b[..n];
      ConcatAppend(a, b[..n]);
    }
  }

  /** Every yielded text is non-empty, and dropping empty deltas loses no text: the
      yielded texts glue to the whole streamed text, plus the error text if any. */
  lemma {:induction false} StreamTextsSpec(chunks: seq<StreamChunk>, interruption: Option<string>)
    ensures forall k | 0 <= k < |StreamTexts(chunks, interruption)| :: StreamTexts(chunks, interruption)[k] != ""
    ensures Concat(StreamTexts(chunks, interruption)) ==
      AllText(chunks) + (if interruption.Some? then "错误: " + interruption.value else "")
  {
    DeltasText(chunks);
    ConcatAppend(Deltas(chunks), if interruption.Some? then ["错误: " + interruption.value] else []);
    if interruption.Some? {
      assert Concat(["错误: " + interruption.value]) == Concat([]) + "错误: " + interruption.value;
    }
  }

  lemma {:induction false} DeltasText(chunks: seq<StreamChunk>)
    ensures Concat(Deltas(chunks)) == AllText(chunks)
  {
    if chunks != [] {
      var init := chunks[..|chunks| - 1];
      var last := ChunkText(chunks[|chunks| - 1]);
      DeltasText(init);
      if last != "" {
        assert Concat(Deltas(init) + [last]) == Concat(Deltas(init)) + last;
      } else {
        assert Deltas(init) + [] == Deltas(init);
      }
    }
  }

  /** `stream_response_generator` over a finite stream. */
  method CollectStream(chunks: seq<StreamChunk>, interruption: Option<string>) returns (texts: seq<string>)
    ensures texts == StreamTexts(chunks, interruption)
  {
    texts := [];
    for i := 0 to |chunks|
      invariant texts == Deltas(chunks[..i])
    {
      assert chunks[..i + 1][..i] == chunks[..i];
      var chunk := chunks[i];
      if chunk.Delta? && chunk.content.Some? && chunk.content.value != "" {
        texts := texts + [chunk.content.value];
      }
    }
    assert chunks[..|chunks|] == chunks;
    if interruption.Some? {
      texts := texts + ["错误: " + interruption.value];
    }
  }

  /** The texts a reply delivers when its text is read (the corrected reading). */
  function ReplyChunks(reply: BackendReply): seq<string> {
    match reply
    case Answered(c) => [ExtractText(c)]
    case Streamed(chunks, interruption) => StreamTexts(chunks, interruption)
    case Unparsed => []
    case Failed(_) => []
  }

  function ReplyText(reply: BackendReply): string {
    Concat(ReplyChunks(reply))
  }

  // ---------------------------------------------------------------- generation

  datatype AgentRequest = AgentRequest(
    agentType: string,
    agentId: string,
    topic: string,
    attributes: Attributes,
    context: string,
    temperature: Option<real>,
    maxTokens: Option<int>,
    stream: Option<bool>)

  /** The prompt a request resolves to (the prompt text itself is not modelled). */
  datatype Prompt = MediaAsk(media: Templates.MediaPrompt) | UserAsk(user: Templates.UserPrompt)

  datatype Metadata = Metadata(temperature: real, maxTokens: int, stream: bool)

  datatype Generation = Generation(agentId: string, agentType: string, content: string, metadata: Metadata, prompt: Prompt)

  /** Agent lookup and prompt construction shared by the generate endpoints: a media
      agent by id or name (an empty profile counts as missing), a user by exact id,
      attributes of the request overriding the profile's. */
  function ResolvePrompt(media: OrderedMap.Entries<Attributes>, users: OrderedMap.Entries<Attributes>,
                         agentType: string, agentId: string, topic: string, attributes: Attributes,
                         context: string): Result<Prompt, Failure>
  {
    if agentType == "media" then
      var profile := Directory.Find(media, agentId);
      if profile.None? || profile.value == NoAttributes then Err(MediaNotFound(agentId))
      else Ok(MediaAsk(Templates.GetMediaPrompt(topic, Merge(profile.value, attributes), context)))
    else if agentType == "user" then
      if !OrderedMap.HasKey(users, agentId) then Err(UserNotFound)
      else
        var profile := OrderedMap.Get(users, agentId).value;
        Ok(UserAsk(Templates.GetUserPrompt(topic, Merge(profile, attributes), context)))
    else Err(BadAgentType)
  }

  /** A media agent resolves exactly when the lookup finds a non-empty profile, a user
      exactly when the id is a key; any other agent type is a 400. */
  lemma ResolvePromptSpec(media: OrderedMap.Entries<Attributes>, users: OrderedMap.Entries<Attributes>,
                          agentType: string, agentId: string, topic: string, attributes: Attributes, context: string)
    ensures var r := ResolvePrompt(media, users, agentType, agentId, topic, attributes, context);
      && (agentType == "media" ==>
            (r.Ok? <==> Directory.Find(media, agentId).Some? && Directory.Find(media, agentId).value != NoAttributes)
            && (r.Ok? ==>
                  && r.value.MediaAsk?
                  && r.value.media == Templates.GetMediaPrompt(topic, Merge(Directory.Find(media, agentId).value, attributes), context))
            && (r.Err? ==> r.error == MediaNotFound(agentId)))
      && (agentType == "user" ==>
            (r.Ok? <==> OrderedMap.HasKey(users, agentId))
            && (r.Ok? ==>
                  && r.value.UserAsk?
                  && r.value.user == Templates.GetUserPrompt(topic, Merge(OrderedMap.Get(users, agentId).value, attributes), context))
            && (r.Err? ==> r.error == UserNotFound))
      && (agentType != "media" && agentType != "user" ==> r == Err(BadAgentType))
  {
  }

  /** `generate_content` with the backend's text read as the source evidently intends:
      the reply text, stripped, plus the request's parameters with their defaults. */
  function Generate(media: OrderedMap.Entries<Attributes>, users: OrderedMap.Entries<Attributes>,
                    request: AgentRequest, reply: BackendReply): Result<Generation, Failure>
  {
    var prompt :- ResolvePrompt(media, users, request.agentType, request.agentId, request.topic,
                                request.attributes, request.context);
    if reply.Failed? then Err(BackendFailure(reply.reason))
    else
      var metadata := Metadata(request.temperature.GetOr(0.7), request.maxTokens.GetOr(300), request.stream.GetOr(false));
      Ok(Generation(request.agentId, request.agentType, Strip(ReplyText(reply)), metadata, prompt))
  }

  /** A generation succeeds exactly when the agent resolves and the backend call does not
      raise; it then echoes the agent, carries the stripped reply text and fills the
      parameter defaults 0.7, 300 and false. */
  lemma GenerateSpec(media: OrderedMap.Entries<Attributes>, users: OrderedMap.Entries<Attributes>,
                     request: AgentRequest, reply: BackendReply)
    ensures var prompt := ResolvePrompt(media, users, request.agentType, request.agentId, request.topic,
                                        request.attributes, request.context);
      var r := Generate(media, users, request, reply);
      && (r.Ok? <==> prompt.Ok? && !reply.Failed?)
      && (prompt.Err? ==> r == Err(prompt.error))
      && (prompt.Ok? && reply.Failed? ==> r == Err(BackendFailure(reply.reason)))
      && (r.Ok? ==>
            && r.value.agentId == request.agentId
            && r.value.agentType == request.agentType
            && r.value.prompt == prompt.value
            && r.value.content == Strip(ReplyText(reply))
            && (request.temperature.None? ==> r.value.metadata.temperature == 0.7)
            && (request.temperature.Some? ==> r.value.metadata.temperature == request.temperature.value)
            && (request.maxTokens.None? ==> r.value.metadata.maxTokens == 300)
            && (request.maxTokens.Some? ==> r.value.metadata.maxTokens == request.maxTokens.value)
            && r.value.metadata.stream == (request.stream == Some(true)))
  {
  }

  /** `generate_content` as written: the text `generate_with_zhipuai` returns is a plain
      string, so the non-stream branch finds no `choices` on it and fails, and the stream
      branch iterates its characters, none of which has `choices`, and collects nothing. */
  function GenerateAsWritten(media: OrderedMap.Entries<Attributes>, users: OrderedMap.Entries<Attributes>,
                             request: AgentRequest, reply: BackendReply): Result<Generation, Failure>
  {
    var prompt :- ResolvePrompt(media, users, request.agentType, request.agentId, request.topic,
                                request.attributes, request.context);
    if reply.Failed? then Err(BackendFailure(reply.reason))
    else if !request.stream.GetOr(false) then Err(MalformedReply)
    else
      var metadata := Metadata(request.temperature.GetOr(0.7), request.maxTokens.GetOr(300), true);
      Ok(Generation(request.agentId, request.agentType, "", metadata, prompt))
  }

  /** The discrepancy: for a resolvable agent and a backend that answers, the code as
      written never succeeds without streaming and yields empty content with it, while the
      corrected generation carries the answer. */
  lemma GenerateAsWrittenLosesText(media: OrderedMap.Entries<Attributes>, users: OrderedMap.Entries<Attributes>,
                                   request: AgentRequest, answer: string)
    requires ResolvePrompt(media, users, request.agentType, request.agentId, request.topic,
                           request.attributes, request.context).Ok?
    requires Strip(answer) != ""
    ensures var reply := Answered(Completion(answer, None));
      && (!request.stream.GetOr(false) ==> GenerateAsWritten(media, users, request, reply) == Err(MalformedReply))
      && (request.stream.GetOr(false) ==>
            GenerateAsWritten(media, users, request, reply).Ok?
            && GenerateAsWritten(media, users, request, reply).value.content == "")
      && Generate(media, users, request, reply).Ok?
      && Generate(media, users, request, reply).value.content == Strip(answer) != ""
  {
    var reply := Answered(Completion(answer, None));
    assert ExtractText(Completion(answer, None)) == answer by {
      assert answer != "";
    }
    assert [answer][..0] == [];
    assert Concat([answer]) == Concat([]) + answer;
    assert ReplyText(reply) == answer;
    GenerateSpec(media, users, request, reply);
  }

  /** The agent lookup and prompt choice of the generate endpoints, over the directory. */
  method ResolveAgentPrompt(dir: Directory.AgentDirectory, agentType: string, agentId: string, topic: string,
                            attributes: Attributes, context: string) returns (r: Result<Prompt, Failure>)
    ensures r == ResolvePrompt(dir.media, dir.users, agentType, agentId, topic, attributes, context)
  {
    if agentType == "media" {
      var profile := dir.FindMedia(agentId);
      if profile.None? || profile.value == NoAttributes {
        return Err(MediaNotFound(agentId));
      }
      return Ok(MediaAsk(Templates.GetMediaPrompt(topic, Merge(profile.value, attributes), context)));
    } else if agentType == "user" {
      var profile := dir.FindUser(agentId);
      if profile.None? {
        return Err(UserNotFound);
      }
      return Ok(UserAsk(Templates.GetUserPrompt(topic, Merge(profile.value, attributes), context)));
    }
    return Err(BadAgentType);
  }

  /** The text of a reply that did not fail: the extracted answer, or the joined stream. */
  method ReadReply(reply: BackendReply) returns (text: string)
    requires !reply.Failed?
    ensures text == ReplyText(reply)
  {
    match reply {
      case Answered(c) =>
        var answer := ExtractFinalAnswer(c);
        text := Concat([answer]);
      case Streamed(chunks, interruption) =>
        var texts := CollectStream(chunks, interruption);
        text := Concat(texts);
      case Unparsed =>
        text := "";
    }
  }

  /** `generate_content` over the directory: lookup, prompt, backend reply, result. */
  method GenerateContent(dir: Directory.AgentDirectory, request: AgentRequest, reply: BackendReply)
    returns (r: Result<Generation, Failure>)
    ensures r == Generate(dir.media, dir.users, request, reply)
  {
    var prompt := ResolveAgentPrompt(dir, request.agentType, request.agentId, request.topic,
                                     request.attributes, request.context);
    if prompt.Err? {
      return Err(prompt.error);
    }
    if reply.Failed? {
      return Err(BackendFailure(reply.reason));
    }
    var temperature := if request.temperature.Some? then request.temperature.value else 0.7;
    var maxTokens := if request.maxTokens.Some? then request.maxTokens.value else 300;
    var stream := if request.stream.Some? then request.stream.value else false;
    var text := ReadReply(reply);
    r := Ok(Generation(request.agentId, request.agentType, Strip(text), Metadata(temperature, maxTokens, stream), prompt.value));
  }

  // ---------------------------------------------------------------- single-agent stream

  datatype StreamRequest = StreamRequest(agentType: string, agentId: string, topic: string,
                                         attributes: Attributes, context: string)

  datatype StreamEvent = Start(agentId: string, agentType: string) | Content(chunk: string) | End | Error(message: string)

  /** One `content` event per non-empty text, in order. */
  function ContentEvents(texts: seq<string>): (events: seq<StreamEvent>)
    ensures forall k | 0 <= k < |events| :: events[k].Content? && events[k].chunk != ""
  {
    if texts == [] then []
    else
      var last := texts[|texts| - 1];
      ContentEvents(texts[..|texts| - 1]) + (if last != "" then [Content(last)] else [])
  }

  /** The chunks of the content events among `events`, glued together. */
  function ContentText(events: seq<StreamEvent>): string {
    if events == [] then ""
    else
      var last := events[|events| - 1];
      ContentText(events[..|events| - 1]) + (if last.Content? then last.chunk else "")
  }

  lemma {:induction false} ContentTextAppend(a: seq<StreamEvent>, b: seq<StreamEvent>)
    ensures ContentText(a + b) == ContentText(a) + ContentText(b)
    decreases |b|
  {
    if b == [] {
      assert a + b == a;
    } else {
      var n := |b| - 1;
      assert (a + b)[..|a + b| - 1] == a + b[..n];
      ContentTextAppend(a, b[..n]);
    }
  }

  /** The content events carry all the text they came from. */
  lemma {:induction false} ContentEventsText(texts: seq<string>)
    ensures ContentText(ContentEvents(texts)) == Concat(texts)
  {
    if texts != [] {
      var init := texts[..|texts| - 1];
      var last := texts[|texts| - 1];
      ContentEventsText(init);
      if last != "" {
        ContentTextAppend(ContentEvents(init), [Content(last)]);
        assert ContentText([Content(last)]) == ContentText([]) + last by {
          assert [Content(last)][..0] == [];
        }
      } else {
        assert ContentEvents(texts) == ContentEvents(init) + [];
        assert ContentEvents(init) + [] == ContentEvents(init);
      }
    }
  }

  /** The event generator: `start`, the content events, `end`. */
  function EventsOf(agentId: string, agentType: string, texts: seq<string>): seq<StreamEvent> {
    [Start(agentId, agentType)] + ContentEvents(texts) + [End]
  }

  /** `stream_generate_content` with the streamed reply's texts read as intended. A
      failure before streaming starts is answered with a 500 response. */
  function StreamEvents(media: OrderedMap.Entries<Attributes>, users: OrderedMap.Entries<Attributes>,
                        request: StreamRequest, reply: BackendReply): Result<seq<StreamEvent>, Failure>
  {
    var prompt := ResolvePrompt(media, users, request.agentType, request.agentId, request.topic,
                                request.attributes, request.context);
    if prompt.Err? then Err(Wrapped(500, "流式生成失败: ", prompt.error))
    else if reply.Failed? then Err(Wrapped(500, "流式生成失败: ", BackendFailure(reply.reason)))
    else Ok(EventsOf(request.agentId, request.agentType, ReplyChunks(reply)))
  }

  /** `stream_generate_content` as written: the streamed string yields no chunk. */
  function StreamEventsAsWritten(media: OrderedMap.Entries<Attributes>, users: OrderedMap.Entries<Attributes>,
                                 request: StreamRequest, reply: BackendReply): Result<seq<StreamEvent>, Failure>
  {
    var prompt := ResolvePrompt(media, users, request.agentType, request.agentId, request.topic,
                                request.attributes, request.context);
    if prompt.Err? then Err(Wrapped(500, "流式生成失败: ", prompt.error))
    else if reply.Failed? then Err(Wrapped(500, "流式生成失败: ", BackendFailure(reply.reason)))
    else Ok([Start(request.agentId, request.agentType), End])
  }

  /** A successful stream opens with `start`, closes with the one `end`, carries only
      non-empty content events in between, never an `error` event, and its content
      glues to the reply's text. Any failure before streaming is a 500. */
  lemma StreamEventsSpec(media: OrderedMap.Entries<Attributes>, users: OrderedMap.Entries<Attributes>,
                         request: StreamRequest, reply: BackendReply)
    ensures var r := StreamEvents(media, users, request, reply);
      && (r.Ok? <==> ResolvePrompt(media, users, request.agentType, request.agentId, request.topic,
                                   request.attributes, request.context).Ok? && !reply.Failed?)
      && (r.Err? ==> r.error.status == 500)
      && (r.Ok? ==>
            var events := r.value;
            && |events| >= 2
            && events[0] == Start(request.agentId, request.agentType)
            && events[|events| - 1] == End
            && (forall k | 0 < k < |events| - 1 :: events[k].Content? && events[k].chunk != "")
            && (forall k | 0 <= k < |events| :: !events[k].Error?)
            && ContentText(events) == ReplyText(reply))
  {
    var r := StreamEvents(media, users, request, reply);
    if r.Ok? {
      EventsOfSpec(request.agentId, request.agentType, ReplyChunks(reply));
    }
  }

  lemma EventsOfSpec(agentId: string, agentType: string, texts: seq<string>)
    ensures var events := EventsOf(agentId, agentType, texts);
      && |events| >= 2
      && events[0] == Start(agentId, agentType)
      && events[|events| - 1] == End
      && (forall k | 0 < k < |events| - 1 :: events[k].Content? && events[k].chunk != "")
      && (forall k | 0 <= k < |events| :: !events[k].Error?)
      && ContentText(events) == Concat(texts)
  {
    var contents := ContentEvents(texts);
    var events := EventsOf(agentId, agentType, texts);
    ContentEventsText(texts);
    ContentTextAppend([Start(agentId, agentType)] + contents, [End]);
    ContentTextAppend([Start(agentId, agentType)], contents);
    assert [Start(agentId, agentType)][..0] == [];
    assert [End][..0] == [];
    forall k | 0 < k < |events| - 1 ensures events[k].Content? && events[k].chunk != "" {
      assert events[k] == contents[k - 1];
    }
  }

  /** The discrepancy: for every answering backend the stream as written carries no
      content at all, while the corrected stream carries the reply's text. */
  lemma StreamAsWrittenIsEmpty(media: OrderedMap.Entries<Attributes>, users: OrderedMap.Entries<Attributes>,
                               request: StreamRequest, reply: BackendReply)
    requires ResolvePrompt(media, users, request.agentType, request.agentId, request.topic,
                           request.attributes, request.context).Ok?
    requires !reply.Failed?
    ensures StreamEventsAsWritten(media, users, request, reply) == Ok([Start(request.agentId, request.agentType), End])
    ensures StreamEvents(media, users, request, reply).Ok?
    ensures ContentText(StreamEvents(media, users, request, reply).value) == ReplyText(reply)
  {
    EventsOfSpec(request.agentId, request.agentType, ReplyChunks(reply));
  }

  /** The `event_generator` loop over the texts `stream_response_generator` yields. */
  method GenerateEvents(agentId: string, agentType: string, texts: seq<string>) returns (events: seq<StreamEvent>)
    ensures events == EventsOf(agentId, agentType, texts)
  {
    events := [Start(agentId, agentType)];
    for i := 0 to |texts|
      invariant events == [Start(agentId, agentType)] + ContentEvents(texts[..i])
    {
      assert texts[..i + 1][..i] == texts[..i];
      if texts[i] != "" {
        events := events + [Content(texts[i])];
      }
    }
    assert texts[..|texts|] == texts;
    events := events + [End];
  }

  // ---------------------------------------------------------------- batch

  datatype BatchError = BatchError(agentId: string, agentType: string, error: Failure)

  datatype BatchReport = BatchReport(results: seq<Generation>, errors: seq<BatchError>)

  /** Batch items are generated without streaming. */
  function Unstreamed(request: AgentRequest): AgentRequest {
    request.(stream := Some(false))
  }

  function BatchItem(media: OrderedMap.Entries<Attributes>, users: OrderedMap.Entries<Attributes>,
                     request: AgentRequest, reply: BackendReply): Result<Generation, Failure> {
    Generate(media, users, Unstreamed(request), reply)
  }

  /** Each item's outcome: generated without streaming, with the reply at its position. */
  function Outcomes(media: OrderedMap.Entries<Attributes>, users: OrderedMap.Entries<Attributes>,
                    requests: seq<AgentRequest>, replies: nat -> BackendReply): (outcomes: seq<Result<Generation, Failure>>)
    ensures |outcomes| == |requests|
  {
    seq(|requests|, k requires 0 <= k < |requests| => BatchItem(media, users, requests[k], replies(k)))
  }

  /** Outcomes sorted into results and errors, each list in request order. */
  function Tally(requests: seq<AgentRequest>, outcomes: seq<Result<Generation, Failure>>): BatchReport
    requires |outcomes| == |requests|
  {
    if requests == [] then BatchReport([], [])
    else
      var n := |requests| - 1;
      var before := Tally(requests[..n], outcomes[..n]);
      match outcomes[n]
      case Ok(g) => before.(results := before.results + [g])
      case Err(e) => before.(errors := before.errors + [BatchError(requests[n].agentId, requests[n].agentType, e)])
  }

  /** `batch_generate_content`. */
  function Batch(media: OrderedMap.Entries<Attributes>, users: OrderedMap.Entries<Attributes>,
                 requests: seq<AgentRequest>, replies: nat -> BackendReply): BatchReport
  {
    Tally(requests, Outcomes(media, users, requests, replies))
  }

  lemma {:induction false} TallyAccounts(requests: seq<AgentRequest>, outcomes: seq<Result<Generation, Failure>>)
    requires |outcomes| == |requests|
    ensures |Tally(requests, outcomes).results| + |Tally(requests, outcomes).errors| == |requests|
    ensures forall k | 0 <= k < |requests| ::
      match outcomes[k]
      case Ok(g) => g in Tally(requests, outcomes).results
      case Err(e) => BatchError(requests[k].agentId, requests[k].agentType, e) in Tally(requests, outcomes).errors
  {
    if requests != [] {
      var n := |requests| - 1;
      TallyAccounts(requests[..n], outcomes[..n]);
      var before := Tally(requests[..n], outcomes[..n]);
      var after := Tally(requests, outcomes);
      assert forall g | g in before.results :: g in after.results;
      assert forall e | e in before.errors :: e in after.errors;
      forall k | 0 <= k < n
        ensures match outcomes[k]
          case Ok(g) => g in after.results
          case Err(e) => BatchError(requests[k].agentId, requests[k].agentType, e) in after.errors
      {
        assert requests[..n][k] == requests[k] && outcomes[..n][k] == outcomes[k];
      }
    }
  }

  lemma {:induction false} TallyPrefix(requests: seq<AgentRequest>, outcomes: seq<Result<Generation, Failure>>, m: nat)
    requires |outcomes| == |requests| && m <= |requests|
    ensures var part := Tally(requests[..m], outcomes[..m]);
      var whole := Tally(requests, outcomes);
      && |part.results| <= |whole.results| && whole.results[..|part.results|] == part.results
      && |part.errors| <= |whole.errors| && whole.errors[..|part.errors|] == part.errors
    decreases |requests| - m
  {
    if m < |requests| {
      var n := |requests| - 1;
      assert requests[..n][..m] == requests[..m];
      assert outcomes[..n][..m] == outcomes[..m];
      TallyPrefix(requests[..n], outcomes[..n], m);
    } else {
      assert requests[..m] == requests;
      assert outcomes[..m] == outcomes;
    }
  }

  /** Success and error counts add up to the number of requests, and every item's own
      outcome is recorded whatever the other items did. */
  lemma BatchAccounts(media: OrderedMap.Entries<Attributes>, users: OrderedMap.Entries<Attributes>,
                      requests: seq<AgentRequest>, replies: nat -> BackendReply)
    ensures |Batch(media, users, requests, replies).results| + |Batch(media, users, requests, replies).errors| == |requests|
    ensures forall k | 0 <= k < |requests| ::
      match BatchItem(media, users, requests[k], replies(k))
      case Ok(g) => g in Batch(media, users, requests, replies).results
      case Err(e) => BatchError(requests[k].agentId, requests[k].agentType, e) in Batch(media, users, requests, replies).errors
  {
    TallyAccounts(requests, Outcomes(media, users, requests, replies));
  }

  /** Later requests only append: the report of a prefix of the requests is a prefix of
      the report of all of them, so order is kept and no item disturbs an earlier one. */
  lemma BatchPrefix(media: OrderedMap.Entries<Attributes>, users: OrderedMap.Entries<Attributes>,
                    requests: seq<AgentRequest>, replies: nat -> BackendReply, m: nat)
    requires m <= |requests|
    ensures var part := Batch(media, users, requests[..m], replies);
      var whole := Batch(media, users, requests, replies);
      && |part.results| <= |whole.results| && whole.results[..|part.results|] == part.results
      && |part.errors| <= |whole.errors| && whole.errors[..|part.errors|] == part.errors
  {
    var outcomes := Outcomes(media, users, requests, replies);
    assert Outcomes(media, users, requests[..m], replies) == outcomes[..m];
    TallyPrefix(requests, outcomes, m);
  }

  /** The batch loop. */
  method BatchGenerate(dir: Directory.AgentDirectory, requests: seq<AgentRequest>, replies: nat -> BackendReply)
    returns (report: BatchReport)
    ensures report == Batch(dir.media, dir.users, requests, replies)
  {
    ghost var outcomes := Outcomes(dir.media, dir.users, requests, replies);
    var results: seq<Generation> := [];
    var errors: seq<BatchError> := [];
    for i := 0 to |requests|
      invariant BatchReport(results, errors) == Tally(requests[..i], outcomes[..i])
    {
      assert requests[..i + 1][..i] == requests[..i];
      assert outcomes[..i + 1][..i] == outcomes[..i];
      var request := requests[i];
      var result := GenerateContent(dir, Unstreamed(request), replies(i));
      assert result == outcomes[i];
      if result.Ok? {
        results := results + [result.value];
      } else {
        errors := errors + [BatchError(request.agentId, request.agentType, result.error)];
      }
    }
    assert requests[..|requests|] == requests;
    assert outcomes[..|requests|] == outcomes;
    report := BatchReport(results, errors);
  }

  // ---------------------------------------------------------------- press conference

  /** The conference body with its keys' defaults applied. */
  datatype ConferenceRequest = ConferenceRequest(topic: string, mediaIds: seq<string>, context: string, stream: bool)

  /** The request made for each invited medium. */
  function QuestionRequest(mediaId: string, topic: string, context: string): AgentRequest {
    AgentRequest("media", mediaId, topic, NoAttributes, context, Some(0.7), Some(200), Some(false))
  }

  /** A question, or the placeholder left where its generation failed (content ""). */
  datatype Question = Asked(generation: Generation) | Placeholder(agentId: string, error: Failure)

  function QuestionContent(q: Question): string {
    if q.Asked? then q.generation.content else ""
  }

  function QuestionAgent(q: Question): string {
    if q.Asked? then q.generation.agentId else q.agentId
  }

  function QuestionOf(media: OrderedMap.Entries<Attributes>, users: OrderedMap.Entries<Attributes>,
                      mediaId: string, topic: string, context: string, reply: BackendReply): Question {
    match QuestionOutcome(media, users, mediaId, topic, context, reply)
    case Ok(g) => Asked(g)
    case Err(e) => Placeholder(mediaId, e)
  }

  /** The invited ids the directory knows, in order. */
  function KnownIds(media: OrderedMap.Entries<Attributes>, ids: seq<string>): seq<string> {
    if ids == [] then []
    else
      var n := |ids| - 1;
      KnownIds(media, ids[..n]) + (if OrderedMap.HasKey(media, ids[n]) then [ids[n]] else [])
  }

  /** The positions of the invited ids the directory knows, in order. */
  function KnownPositions(media: OrderedMap.Entries<Attributes>, ids: seq<string>): seq<nat> {
    if ids == [] then []
    else
      var n := |ids| - 1;
      KnownPositions(media, ids[..n]) + (if OrderedMap.HasKey(media, ids[n]) then [n] else [])
  }

  /** The positions run in increasing order over exactly the known ids, and the id at
      each is the matching known id. */
  lemma {:induction false} KnownPositionsSpec(media: OrderedMap.Entries<Attributes>, ids: seq<string>)
    ensures var ps := KnownPositions(media, ids);
      && |ps| == |KnownIds(media, ids)|
      && (forall j | 0 <= j < |ps| :: ps[j] < |ids| && ids[ps[j]] == KnownIds(media, ids)[j])
      && (forall j | 0 <= j < |ps| :: OrderedMap.HasKey(media, ids[ps[j]]))
      && (forall j, k | 0 <= j < k < |ps| :: ps[j] < ps[k])
      && (forall i | 0 <= i < |ids| && OrderedMap.HasKey(media, ids[i]) :: i in ps)
  {
    if ids != [] {
      var n := |ids| - 1;
      var init := ids[..n];
      KnownPositionsSpec(media, init);
      var ps := KnownPositions(media, ids);
      var ps0 := KnownPositions(media, init);
      forall j | 0 <= j < |ps0| ensures ps[j] == ps0[j] && ids[ps[j]] == init[ps0[j]] && ps0[j] < n {
      }
      forall i | 0 <= i < |ids| && OrderedMap.HasKey(media, ids[i]) ensures i in ps {
        if i < n {
          assert init[i] == ids[i];
          assert i in ps0;
        } else {
          assert ps[|ps| - 1] == n;
        }
      }
    }
  }

  /** The report entry `q` is what invited id `p` yields: its generation, or a
      placeholder carrying its id and its error. */
  predicate QuestionFrom(media: OrderedMap.Entries<Attributes>, users: OrderedMap.Entries<Attributes>,
                         ids: seq<string>, topic: string, context: string, replies: nat -> BackendReply,
                         p: nat, q: Question)
  {
    && p < |ids|
    && var outcome := QuestionOutcome(media, users, ids[p], topic, context, replies(p));
    && (outcome.Ok? ==> q == Asked(outcome.value))
    && (outcome.Err? ==> q == Placeholder(ids[p], outcome.error))
  }

  /** The non-stream loop: unknown ids are skipped, each known one gets its question. */
  function Questions(media: OrderedMap.Entries<Attributes>, users: OrderedMap.Entries<Attributes>,
                     ids: seq<string>, topic: string, context: string, replies: nat -> BackendReply): seq<Question>
  {
    if ids == [] then []
    else
      var n := |ids| - 1;
      Questions(media, users, ids[..n], topic, context, replies)
        + (if OrderedMap.HasKey(media, ids[n]) then [QuestionOf(media, users, ids[n], topic, context, replies(n))] else [])
  }

  /** One entry per known id, in invitation order, naming that id; a placeholder has
      empty content. Entry `j` is the outcome of the `j`-th known id: its generation
      when that succeeds, else a placeholder with its error. */
  lemma {:induction false} QuestionsSpec(media: OrderedMap.Entries<Attributes>, users: OrderedMap.Entries<Attributes>,
                                         ids: seq<string>, topic: string, context: string, replies: nat -> BackendReply)
    ensures var qs := Questions(media, users, ids, topic, context, replies);
      && |qs| == |KnownIds(media, ids)|
      && (forall j | 0 <= j < |qs| :: QuestionAgent(qs[j]) == KnownIds(media, ids)[j])
      && (forall j | 0 <= j < |qs| :: qs[j].Placeholder? ==> QuestionContent(qs[j]) == "")
      && |KnownPositions(media, ids)| == |qs|
      && (forall j | 0 <= j < |qs| ::
            QuestionFrom(media, users, ids, topic, context, replies, KnownPositions(media, ids)[j], qs[j]))
  {
    if ids != [] {
      var n := |ids| - 1;
      var init := ids[..n];
      QuestionsSpec(media, users, init, topic, context, replies);
      var qs0 := Questions(media, users, init, topic, context, replies);
      var ps0 := KnownPositions(media, init);
      var qs := Questions(media, users, ids, topic, context, replies);
      var ps := KnownPositions(media, ids);
      forall j | 0 <= j < |qs0|
        ensures QuestionFrom(media, users, ids, topic, context, replies, ps[j], qs[j])
      {
        assert QuestionFrom(media, users, init, topic, context, replies, ps0[j], qs0[j]);
        assert ps[j] == ps0[j] && qs[j] == qs0[j] && init[ps0[j]] == ids[ps[j]];
      }
      if OrderedMap.HasKey(media, ids[n]) {
        var q := QuestionOf(media, users, ids[n], topic, context, replies(n));
        GenerateSpec(media, users, QuestionRequest(ids[n], topic, context), replies(n));
        assert QuestionAgent(q) == ids[n];
        assert ps[|qs0|] == n && qs[|qs0|] == q;
      }
    }
  }

  datatype ConferenceReport = ConferenceReport(topic: string, context: string, totalMedia: nat, questions: seq<Question>)

  datatype ConferenceEvent =
    | ConferenceStart(topic: string, totalMedia: nat)
    | MediaStart(mediaId: string, mediaName: string, index: nat)
    | QuestionAsked(mediaId: string, question: string)
    | MediaEnd(mediaId: string)
    | MediaError(mediaId: string, error: Failure)
    | ConferenceEnd(message: string)

  /** The display name of a medium, its id when the profile has none. */
  function DisplayName(profile: Attributes, mediaId: string): string {
    if profile.basicInfo.Some? && profile.basicInfo.value.name.Some? then profile.basicInfo.value.name.value else mediaId
  }

  /** The generation made for an invited medium. */
  function QuestionOutcome(media: OrderedMap.Entries<Attributes>, users: OrderedMap.Entries<Attributes>,
                           mediaId: string, topic: string, context: string, reply: BackendReply): Result<Generation, Failure> {
    Generate(media, users, QuestionRequest(mediaId, topic, context), reply)
  }

  /** The events for the invited id at `index`: none for an unknown id, otherwise
      `media_start` followed by the question and `media_end`, or by an error. */
  function AgentEvents(media: OrderedMap.Entries<Attributes>, mediaId: string, index: nat,
                       outcome: Result<Generation, Failure>): seq<ConferenceEvent>
  {
    if !OrderedMap.HasKey(media, mediaId) then []
    else
      var opening := MediaStart(mediaId, DisplayName(OrderedMap.Get(media, mediaId).value, mediaId), index);
      match outcome
      case Ok(g) => [opening, QuestionAsked(mediaId, g.content), MediaEnd(mediaId)]
      case Err(e) => [opening, MediaError(mediaId, e)]
  }

  function AllAgentEvents(media: OrderedMap.Entries<Attributes>, users: OrderedMap.Entries<Attributes>,
                          ids: seq<string>, topic: string, context: string, replies: nat -> BackendReply): seq<ConferenceEvent>
  {
    if ids == [] then []
    else
      var n := |ids| - 1;
      AllAgentEvents(media, users, ids[..n], topic, context, replies)
        + AgentEvents(media, ids[n], n, QuestionOutcome(media, users, ids[n], topic, context, replies(n)))
  }

  const ClosingMessage := "新闻发布会结束"

  function ConferenceEvents(media: OrderedMap.Entries<Attributes>, users: OrderedMap.Entries<Attributes>,
                            ids: seq<string>, topic: string, context: string, replies: nat -> BackendReply): seq<ConferenceEvent>
  {
    [ConferenceStart(topic, |ids|)] + AllAgentEvents(media, users, ids, topic, context, replies) + [ConferenceEnd(ClosingMessage)]
  }

  /** Each known medium's block opens with its `media_start` at its invitation index and
      ends with its `media_end` after the question, or with its error. */
  lemma AgentEventsSpec(media: OrderedMap.Entries<Attributes>, mediaId: string, index: nat,
                        outcome: Result<Generation, Failure>)
    ensures var block := AgentEvents(media, mediaId, index, outcome);
      && (!OrderedMap.HasKey(media, mediaId) <==> block == [])
      && (block != [] ==>
            && block[0].MediaStart? && block[0].mediaId == mediaId && block[0].index == index
            && (|block| == 3 <==> outcome.Ok?)
            && (|block| == 3 ==> block[1] == QuestionAsked(mediaId, outcome.value.content) && block[2] == MediaEnd(mediaId))
            && (|block| == 2 ==> block[1] == MediaError(mediaId, outcome.error)))
      && (forall k | 0 <= k < |block| :: !block[k].ConferenceStart? && !block[k].ConferenceEnd?)
  {
  }

  /** A block holds one `media_start`, for its own id, exactly when that id is known. */
  lemma AgentEventsOpeners(media: OrderedMap.Entries<Attributes>, mediaId: string, index: nat,
                           outcome: Result<Generation, Failure>)
    ensures Openers(AgentEvents(media, mediaId, index, outcome)) == (if OrderedMap.HasKey(media, mediaId) then [mediaId] else [])
  {
    var block := AgentEvents(media, mediaId, index, outcome);
    if block != [] {
      var rest := block[1..];
      assert forall k | 0 <= k < |rest| :: !rest[k].MediaStart?;
      NoOpeners(rest);
    }
  }

  lemma {:induction false} NoOpeners(events: seq<ConferenceEvent>)
    requires forall k | 0 <= k < |events| :: !events[k].MediaStart?
    ensures Openers(events) == []
  {
    if events != [] {
      NoOpeners(events[1..]);
    }
  }

  /** Exactly the known ids produce `media_start` events, in invitation order; no
      conference-level event appears inside. */
  lemma {:induction false} AllAgentEventsSpec(media: OrderedMap.Entries<Attributes>, users: OrderedMap.Entries<Attributes>,
                                              ids: seq<string>, topic: string, context: string, replies: nat -> BackendReply)
    ensures var events := AllAgentEvents(media, users, ids, topic, context, replies);
      && (forall k | 0 <= k < |events| :: !events[k].ConferenceStart? && !events[k].ConferenceEnd?)
      && Openers(events) == KnownIds(media, ids)
  {
    if ids != [] {
      var n := |ids| - 1;
      AllAgentEventsSpec(media, users, ids[..n], topic, context, replies);
      var before := AllAgentEvents(media, users, ids[..n], topic, context, replies);
      var outcome := QuestionOutcome(media, users, ids[n], topic, context, replies(n));
      var block := AgentEvents(media, ids[n], n, outcome);
      AgentEventsSpec(media, ids[n], n, outcome);
      AgentEventsOpeners(media, ids[n], n, outcome);
      OpenersAppend(before, block);
    }
  }

  /** The ids of the `media_start` events, in order. */
  function Openers(events: seq<ConferenceEvent>): seq<string> {
    if events == [] then []
    else (if events[0].MediaStart? then [events[0].mediaId] else []) + Openers(events[1..])
  }

  lemma {:induction false} OpenersAppend(a: seq<ConferenceEvent>, b: seq<ConferenceEvent>)
    ensures Openers(a + b) == Openers(a) + Openers(b)
  {
    if a != [] {
      assert (a + b)[1..] == a[1..] + b;
      OpenersAppend(a[1..], b);
    } else {
      assert a + b == b;
    }
  }

  datatype ConferenceOutcome = Report(report: ConferenceReport) | EventStream(events: seq<ConferenceEvent>)

  /** The line-up: the invited ids, or the default one when none are given. */
  function LineUp(media: OrderedMap.Entries<Attributes>, mediaIds: seq<string>): seq<string> {
    if mediaIds == [] then Directory.DefaultLineUp(media) else mediaIds
  }

  /** `simulate_press_conference`. The 400 for a missing topic is raised inside the
      handler's catch-all, which re-raises it as a 500. */
  function Conference(media: OrderedMap.Entries<Attributes>, users: OrderedMap.Entries<Attributes>,
                      request: ConferenceRequest, replies: nat -> BackendReply): Result<ConferenceOutcome, Failure>
  {
    if request.topic == "" then Err(Wrapped(500, "", HttpError(400, "需要提供议题")))
    else
      var ids := LineUp(media, request.mediaIds);
      if request.stream then Ok(EventStream(ConferenceEvents(media, users, ids, request.topic, request.context, replies)))
      else
        var qs := Questions(media, users, ids, request.topic, request.context, replies);
        Ok(Report(ConferenceReport(request.topic, request.context, |qs|, qs)))
  }

  /** The conference stream announces every invited id, known or not, is bracketed by
      the start and closing events, and opens one block per known id, in order. */
  lemma ConferenceEventsSpec(media: OrderedMap.Entries<Attributes>, users: OrderedMap.Entries<Attributes>,
                             ids: seq<string>, topic: string, context: string, replies: nat -> BackendReply)
    ensures var events := ConferenceEvents(media, users, ids, topic, context, replies);
      && |events| >= 2
      && events[0] == ConferenceStart(topic, |ids|)
      && events[|events| - 1] == ConferenceEnd(ClosingMessage)
      && (forall k | 0 < k < |events| - 1 :: !events[k].ConferenceStart? && !events[k].ConferenceEnd?)
      && Openers(events) == KnownIds(media, ids)
  {
    var inner := AllAgentEvents(media, users, ids, topic, context, replies);
    var events := ConferenceEvents(media, users, ids, topic, context, replies);
    AllAgentEventsSpec(media, users, ids, topic, context, replies);
    OpenersAppend([ConferenceStart(topic, |ids|)] + inner, [ConferenceEnd(ClosingMessage)]);
    OpenersAppend([ConferenceStart(topic, |ids|)], inner);
    assert [ConferenceStart(topic, |ids|)][1..] == [];
    assert [ConferenceEnd(ClosingMessage)][1..] == [];
    forall k | 0 < k < |events| - 1 ensures !events[k].ConferenceStart? && !events[k].ConferenceEnd? {
      assert events[k] == inner[k - 1];
    }
  }

  /** An empty topic is rejected; otherwise the report counts its entries, one per known
      invited id, and the stream is the conference event sequence for the line-up. */
  lemma ConferenceSpec(media: OrderedMap.Entries<Attributes>, users: OrderedMap.Entries<Attributes>,
                       request: ConferenceRequest, replies: nat -> BackendReply)
    ensures Conference(media, users, request, replies).Err? <==> request.topic == ""
    ensures var r := Conference(media, users, request, replies);
      var ids := LineUp(media, request.mediaIds);
      r.Ok? && r.value.Report? ==>
        && r.value.report.totalMedia == |r.value.report.questions| == |KnownIds(media, ids)|
        && (forall j | 0 <= j < |r.value.report.questions| ::
              QuestionAgent(r.value.report.questions[j]) == KnownIds(media, ids)[j])
        && r.value.report.questions == Questions(media, users, ids, request.topic, request.context, replies)
    ensures var r := Conference(media, users, request, replies);
      var ids := LineUp(media, request.mediaIds);
      r.Ok? && r.value.EventStream? ==>
        r.value.events == ConferenceEvents(media, users, ids, request.topic, request.context, replies)
    ensures var r := Conference(media, users, request, replies);
      r.Ok? ==> (r.value.EventStream? <==> request.stream)
  {
    var ids := LineUp(media, request.mediaIds);
    if request.topic != "" && !request.stream {
      QuestionsSpec(media, users, ids, request.topic, request.context, replies);
    }
  }

  /** The non-stream conference loop. */
  method AskAll(dir: Directory.AgentDirectory, ids: seq<string>, topic: string, context: string,
                replies: nat -> BackendReply) returns (questions: seq<Question>)
    ensures questions == Questions(dir.media, dir.users, ids, topic, context, replies)
  {
    questions := [];
    for i := 0 to |ids|
      invariant questions == Questions(dir.media, dir.users, ids[..i], topic, context, replies)
    {
      assert ids[..i + 1][..i] == ids[..i];
      var mediaId := ids[i];
      if OrderedMap.HasKey(dir.media, mediaId) {
        var result := GenerateContent(dir, QuestionRequest(mediaId, topic, context), replies(i));
        if result.Ok? {
          questions := questions + [Asked(result.value)];
        } else {
          questions := questions + [Placeholder(mediaId, result.error)];
        }
      }
    }
    assert ids[..|ids|] == ids;
  }

  /** The conference stream generator. */
  method StreamConference(dir: Directory.AgentDirectory, ids: seq<string>, topic: string, context: string,
                          replies: nat -> BackendReply) returns (events: seq<ConferenceEvent>)
    ensures events == ConferenceEvents(dir.media, dir.users, ids, topic, context, replies)
  {
    var body: seq<ConferenceEvent> := [];
    for i := 0 to |ids|
      invariant body == AllAgentEvents(dir.media, dir.users, ids[..i], topic, context, replies)
    {
      assert ids[..i + 1][..i] == ids[..i];
      var mediaId := ids[i];
      if OrderedMap.HasKey(dir.media, mediaId) {
        var profile := OrderedMap.Get(dir.media, mediaId).value;
        var opening := MediaStart(mediaId, DisplayName(profile, mediaId), i);
        var result := GenerateContent(dir, QuestionRequest(mediaId, topic, context), replies(i));
        assert result == QuestionOutcome(dir.media, dir.users, mediaId, topic, context, replies(i));
        if result.Ok? {
          body := body + [opening, QuestionAsked(mediaId, result.value.content), MediaEnd(mediaId)];
        } else {
          body := body + [opening, MediaError(mediaId, result.error)];
        }
      }
    }
    assert ids[..|ids|] == ids;
    events := [ConferenceStart(topic, |ids|)] + body + [ConferenceEnd(ClosingMessage)];
  }

  /** `simulate_press_conference` over the directory. */
  method SimulatePressConference(dir: Directory.AgentDirectory, request: ConferenceRequest, replies: nat -> BackendReply)
    returns (r: Result<ConferenceOutcome, Failure>)
    ensures r == Conference(dir.media, dir.users, request, replies)
  {
    if request.topic == "" {
      return Err(Wrapped(500, "", HttpError(400, "需要提供议题")));
    }
    var ids := request.mediaIds;
    if ids == [] {
      ids := dir.DefaultSelection();
    }
    if request.stream {
      var events := StreamConference(dir, ids, request.topic, request.context, replies);
      r := Ok(EventStream(events));
    } else {
      var questions := AskAll(dir, ids, request.topic, request.context, replies);
      r := Ok(Report(ConferenceReport(request.topic, request.context, |questions|, questions)));
    }
  }
}
