/** The chat request path (ai-service/app/main.py): `RagService.generate_response`
    calls the model on the built prompt and packs the reply into a loosely
    typed dictionary, and the `/api/chat` handler validates the request,
    reshapes that dictionary into a `ChatResponse` and maps every failure to
    an HTTP status with a fixed message.

    The remote model call is the `generateContent` function carried by the
    service: it receives the full prompt and says what the call produced.
    Whether the service could be constructed at start-up is whether the
    handler is given `Some(service)` or `None`. */
module Service {
  import opened Wrappers
  import opened Schema
  import Text
  import Prompt

  /** What one call of the model produced: a reply with text (possibly
      empty), a reply without text (or no reply at all), or an exception with
      its message. */
  datatype ModelResult = Reply(text: string) | NoText | Raised(message: string)

  /** A constructed service: the model it calls on a prompt. */
  datatype RagService = RagService(generateContent: string -> ModelResult)

  /** The model the service is configured with. */
  const ModelName: string := "gemini-2.5-flash"

  /** The answer given when the model produces no text. */
  const FallbackAnswer: string := "ვერ შევძელი ამ კითხვის დამუშავება, სცადე სხვა ფორმულირება."

  /** The fixed content and section of the one placeholder source. */
  const SourceContent: string := "პასუხი გენერირებულია Gemini მოდელით მოცემული ისტორიის და კითხვის საფუძველზე."
  const SourceSection: string := "model: " + ModelName

  /** One entry of the dictionary's "source_documents" list; either key may
      be missing. */
  datatype SourceDoc = SourceDoc(content: Option<string>, section: Option<string>)

  /** The source documents the service reports: one placeholder saying the
      answer was generated by the model, since nothing is retrieved. */
  const PlaceholderDocs: seq<SourceDoc> := [SourceDoc(Some(SourceContent), Some(SourceSection))]

  /** The metadata the service reports. */
  function ServiceMetadata(hasHistory: bool): (m: map<string, MetaValue>)
    ensures m.Keys == {"model", "has_history"}
    ensures m["model"] == Str(ModelName) && m["has_history"] == Flag(hasHistory)
  {
    map["model" := Str(ModelName), "has_history" := Flag(hasHistory)]
  }

  /** The dictionary `generate_response` returns; each of its three keys may
      be missing as far as the handler is concerned. */
  datatype RawResult = RawResult(
    answer: Option<string>,
    sourceDocuments: Option<seq<SourceDoc>>,
    metadata: Option<map<string, MetaValue>>)

  /** The terminal outcome of one request: a response body, or an HTTP error
      status with its detail message. */
  datatype Outcome = Ok(response: ChatResponse) | HttpError(status: int, detail: string)

  const StatusBadRequest: int := 400
  const StatusInternalError: int := 500
  const StatusUnavailable: int := 503

  /** The answer text made of a model reply that did not raise: its text when
      there is some, the fallback otherwise. */
  function AnswerText(reply: ModelResult): (answer: string)
    requires !reply.Raised?
    ensures answer != []
    ensures reply.Reply? && reply.text != [] ==> answer == reply.text
    ensures reply.NoText? || reply == Reply([]) ==> answer == FallbackAnswer
  {
    if reply.NoText? || reply.text == [] then FallbackAnswer else reply.text
  }

  /** `RagService.generate_response`: builds the prompt and calls the model
      once on it. An exception of the call becomes a failure whose message
      carries the original one. Otherwise the result holds every key: a
      non-empty answer (the model's text, or the fallback when there is
      none), exactly one source document with both fields present, and
      metadata naming the model and saying whether there was history. */
  function GenerateResponse(service: RagService, query: string, history: seq<Prompt.HistoryEntry>)
    : (r: Result<RawResult, string>)
    ensures var reply := service.generateContent(Prompt.FullPrompt(history, query));
            && (r.Failure? <==> reply.Raised?)
            && (r.Failure? ==> && "Gemini error: " <= r.error
                               && |r.error| == |"Gemini error: "| + |reply.message|
                               && |reply.message| <= |r.error|
                               && r.error[|r.error| - |reply.message|..] == reply.message)
            && (r.Success? ==>
                  && r.value.answer.Some?
                  && r.value.answer.value != []
                  && (reply.Reply? && reply.text != [] ==> r.value.answer.value == reply.text)
                  && (reply.NoText? || reply == Reply([]) ==> r.value.answer.value == FallbackAnswer))
            && (r.Success? ==>
                  && r.value.sourceDocuments.Some?
                  && |r.value.sourceDocuments.value| == 1
                  && r.value.sourceDocuments.value[0].content == Some(SourceContent)
                  && r.value.sourceDocuments.value[0].section == Some(SourceSection))
            && (r.Success? ==>
                  && r.value.metadata.Some?
                  && r.value.metadata.value.Keys == {"model", "has_history"}
                  && r.value.metadata.value["model"] == Str(ModelName)
                  && r.value.metadata.value["has_history"] == Flag(|history| > 0))
  {
    var reply := service.generateContent(Prompt.FullPrompt(history, query));
    if reply.Raised? then
      var e := "Gemini error: " + reply.message;
      assert e[|e| - |reply.message|..] == reply.message;
      Failure(e)
    else
      Success(RawResult(
        Some(AnswerText(reply)),
        Some(PlaceholderDocs),
        Some(ServiceMetadata(|history| > 0))))
  }

  /** The service consults the model only on the prompt: two services whose
      models answer the prompt for `history` and `query` alike give the same
      result. */
  lemma GenerateDependsOnlyOnPrompt(s1: RagService, s2: RagService, query: string,
                                    history: seq<Prompt.HistoryEntry>)
    requires s1.generateContent(Prompt.FullPrompt(history, query))
             == s2.generateContent(Prompt.FullPrompt(history, query))
    ensures GenerateResponse(s1, query, history) == GenerateResponse(s2, query, history)
  {
  }

  /** The history as the handler hands it to the service: one entry per
      message, in order, with the role written out by name. */
  function HistoryPayload(history: seq<ConversationMessage>): (payload: seq<Prompt.HistoryEntry>)
    ensures |payload| == |history|
    ensures forall i :: 0 <= i < |history| ==>
              payload[i].content == history[i].content
              && (payload[i].role == "user" <==> history[i].role == User)
  {
    seq(|history|, i requires 0 <= i < |history| =>
      Prompt.HistoryEntry(RoleName(history[i].role), history[i].content))
  }

  /** The sources of the response for the source documents `docs`, the first
      of which sits at position `start`: each document becomes one source
      whose id is its position and whose missing fields are empty strings. */
  function SourcesFrom(docs: seq<SourceDoc>, start: nat): (sources: seq<Source>)
    ensures |sources| == |docs|
    ensures forall i :: 0 <= i < |docs| ==>
              && sources[i].id == start + i
              && sources[i].content == (if docs[i].content.Some? then docs[i].content.value else "")
              && sources[i].section == (if docs[i].section.Some? then docs[i].section.value else "")
    decreases |docs|
  {
    if |docs| == 0 then []
    else
      [Source(start, docs[0].content.GetOr(""), docs[0].section.GetOr(""))]
      + SourcesFrom(docs[1..], start + 1)
  }

  /** Reshapes the service's dictionary into the response schema: a missing
      answer becomes "", missing source documents no sources, missing
      metadata the empty dictionary. */
  function ToChatResponse(raw: RawResult): (response: ChatResponse)
    ensures response.answer == (if raw.answer.Some? then raw.answer.value else "")
    ensures response.metadata == (if raw.metadata.Some? then raw.metadata.value else map[])
    ensures raw.sourceDocuments.None? ==> response.sources == []
    ensures raw.sourceDocuments.Some? ==>
              var docs := raw.sourceDocuments.value;
              && |response.sources| == |docs|
              && forall i :: 0 <= i < |docs| ==>
                   response.sources[i] == Source(i, docs[i].content.GetOr(""), docs[i].section.GetOr(""))
  {
    ChatResponse(
      raw.answer.GetOr(""),
      SourcesFrom(raw.sourceDocuments.GetOr([]), 0),
      raw.metadata.GetOr(map[]))
  }

  /** The `/api/chat` handler. Checks run in a fixed order: a missing
      service answers 503 whatever the request, then a blank message answers
      400, and only then is the model called; any failure of that call answers
      500 with a fixed detail. */
  function Chat(service: Option<RagService>, request: ChatRequest): (r: Outcome)
    ensures service.None? ==> r == HttpError(StatusUnavailable, ErrorMessages[ServiceUnavailableKey])
    ensures service.Some? && Text.IsBlank(request.message) ==>
              r == HttpError(StatusBadRequest, ErrorMessages[EmptyQueryKey])
  {
    if service.None? then
      HttpError(StatusUnavailable, ErrorMessages[ServiceUnavailableKey])
    else if Text.IsBlank(request.message) then
      HttpError(StatusBadRequest, ErrorMessages[EmptyQueryKey])
    else
      var history := HistoryPayload(request.conversationHistory);
      match GenerateResponse(service.value, request.message, history)
      case Failure(_) => HttpError(StatusInternalError, ErrorMessages[ProcessingErrorKey])
      case Success(raw) => Ok(ToChatResponse(raw))
  }

  /** The `/chat` handler, which delegates to `/api/chat`. */
  function ChatAlias(service: Option<RagService>, request: ChatRequest): Outcome {
    Chat(service, request)
  }

  /** The prompt the handler sends to the model for `request`. */
  function PromptFor(request: ChatRequest): string {
    Prompt.FullPrompt(HistoryPayload(request.conversationHistory), request.message)
  }

  /** The reply the model gives the handler for `request`. */
  function ReplyFor(service: RagService, request: ChatRequest): ModelResult {
    service.generateContent(PromptFor(request))
  }

  /** Every request ends in exactly one of four ways, and which one is decided
      by the service's presence, the message, and the model's reply to the
      prompt, in that order. */
  lemma ChatOutcomes(service: Option<RagService>, request: ChatRequest)
    ensures var r := Chat(service, request);
            && (r.HttpError? && r.status == StatusUnavailable <==> service.None?)
            && (r.HttpError? && r.status == StatusBadRequest <==>
                  service.Some? && Text.IsBlank(request.message))
            && (r.HttpError? && r.status == StatusInternalError <==>
                  service.Some? && !Text.IsBlank(request.message)
                  && ReplyFor(service.value, request).Raised?)
            && (r.Ok? <==>
                  service.Some? && !Text.IsBlank(request.message)
                  && !ReplyFor(service.value, request).Raised?)
  {
  }

  /** A rejected request never reaches the model: when the message is blank,
      the outcome is the same whatever model the service calls. */
  lemma BlankMessageSkipsModel(s1: RagService, s2: RagService, request: ChatRequest)
    requires Text.IsBlank(request.message)
    ensures Chat(Some(s1), request) == Chat(Some(s2), request)
  {
  }

  /** The model is consulted only on the prompt built from the request: two
      models that answer that prompt alike give the same outcome. */
  lemma OutcomeDependsOnlyOnReply(s1: RagService, s2: RagService, request: ChatRequest)
    requires ReplyFor(s1, request) == ReplyFor(s2, request)
    ensures Chat(Some(s1), request) == Chat(Some(s2), request)
  {
  }

  /** A failing model call answers 500 with the fixed processing-error
      detail, which does not depend on the exception's message. */
  lemma ModelFailureIsOpaque(service: RagService, request: ChatRequest)
    ensures !Text.IsBlank(request.message) && ReplyFor(service, request).Raised? ==>
              Chat(Some(service), request) == HttpError(StatusInternalError, ErrorMessages[ProcessingErrorKey])
  {
  }

  /** A request that passes validation and whose model call does not raise
      succeeds: the answer is the model's text, or the fallback when there is
      none; there is exactly one source, with id 0 and the fixed texts; the
      metadata names the model and says whether there was history. */
  lemma SuccessfulResponse(service: RagService, request: ChatRequest)
    ensures var reply := ReplyFor(service, request);
            var r := Chat(Some(service), request);
            !Text.IsBlank(request.message) && !reply.Raised? ==>
            && r.Ok?
            && r.response.answer != []
            && (reply.Reply? && reply.text != [] ==> r.response.answer == reply.text)
            && (reply.NoText? || reply == Reply([]) ==> r.response.answer == FallbackAnswer)
            && r.response.sources == [Source(0, SourceContent, SourceSection)]
            && r.response.metadata.Keys == {"model", "has_history"}
            && r.response.metadata["model"] == Str(ModelName)
            && r.response.metadata["has_history"] == Flag(|request.conversationHistory| > 0)
  {
    if !Text.IsBlank(request.message) && !ReplyFor(service, request).Raised? {
      var history := HistoryPayload(request.conversationHistory);
      var raw := RawResult(Some(AnswerText(ReplyFor(service, request))), Some(PlaceholderDocs),
                           Some(ServiceMetadata(|history| > 0)));
      assert Chat(Some(service), request) == Ok(ToChatResponse(raw));
      var sources := ToChatResponse(raw).sources;
      assert |sources| == 1 && sources[0] == Source(0, SourceContent, SourceSection);
    }
  }

  /** `/chat` answers every request exactly as `/api/chat` does. */
  lemma AliasAgrees(service: Option<RagService>, request: ChatRequest)
    ensures ChatAlias(service, request) == Chat(service, request)
  {
  }

  /** The history reaches the prompt one line per message, in order, each
      labelled by the message's role, when no message spans several lines. */
  lemma RequestHistoryLines(request: ChatRequest)
    requires |request.conversationHistory| > 0
    requires forall i :: 0 <= i < |request.conversationHistory| ==>
               '\n' !in request.conversationHistory[i].content
    ensures var history := request.conversationHistory;
            var lines := Text.Split(Prompt.HistoryText(HistoryPayload(history)), '\n');
            && |lines| == |history|
            && forall i :: 0 <= i < |history| ==>
                 lines[i] == (if history[i].role == User then "User: " else "Assistant: ")
                             + history[i].content
  {
    var payload := HistoryPayload(request.conversationHistory);
    Prompt.HistoryLines(payload);
  }

  /** A first greeting with no history, answered by a model that says
      "Hi there", gives that answer with the placeholder source and
      `has_history` false. */
  lemma GreetingExample(service: RagService)
    requires service.generateContent(Prompt.FullPrompt([], "Hello")) == Reply("Hi there")
    ensures Chat(Some(service), ChatRequest("Hello", [])) ==
              Ok(ChatResponse(
                   "Hi there",
                   [Source(0, SourceContent, SourceSection)],
                   map["model" := Str(ModelName), "has_history" := Flag(false)]))
  {
    var request := ChatRequest("Hello", []);
    assert !Text.IsWhitespace('o');
    assert Text.Strip("Hello") != [];
    assert PromptFor(request) == Prompt.FullPrompt([], "Hello");
    SuccessfulResponse(service, request);
  }

  /** A message of spaces is refused as an empty query whatever the history. */
  lemma SpacesAreRefused(service: RagService, history: seq<ConversationMessage>)
    ensures Chat(Some(service), ChatRequest("   ", history))
            == HttpError(StatusBadRequest, ErrorMessages[EmptyQueryKey])
  {
    var spaces := "   ";
    assert forall k :: 0 <= k < |spaces| ==> spaces[k] == ' ';
    assert Text.AllWhitespace(spaces);
    assert Text.IsBlank(spaces);
  }
}
