/** The request and response schemas of the chat endpoint and its
    client-facing error messages (ai-service/app/main.py, lines 17-46). */
module Schema {

  /** The only two roles the request schema admits for a history entry. */
  datatype Role = User | Assistant

  /** The wire name of a role, as the request's `Literal["user", "assistant"]`
      spells it. */
  function RoleName(role: Role): string {
    match role
    case User => "user"
    case Assistant => "assistant"
  }

  /** One earlier turn of the conversation, supplied by the caller. */
  datatype ConversationMessage = ConversationMessage(role: Role, content: string)

  /** The body of `POST /api/chat`: the new query and the history before it,
      oldest first (empty when the caller omits it). */
  datatype ChatRequest = ChatRequest(message: string, conversationHistory: seq<ConversationMessage>)

  /** One entry of the response's `sources`; `id` is its position. */
  datatype Source = Source(id: int, content: string, section: string)

  /** A value of the response's free-form `metadata` dictionary. The service
      only ever stores strings and booleans there. */
  datatype MetaValue = Str(s: string) | Flag(b: bool)

  /** The body of a successful response. */
  datatype ChatResponse = ChatResponse(answer: string, sources: seq<Source>, metadata: map<string, MetaValue>)

  /** The keys of the error-message table. */
  const EmptyQueryKey: string := "empty_query"
  const ServiceUnavailableKey: string := "service_unavailable"
  const ProcessingErrorKey: string := "processing_error"

  /** The client-facing error messages, keyed as the service keys them. */
  const ErrorMessages: map<string, string> := map[
    EmptyQueryKey := "გთხოვთ დაწეროთ თქვენი კითხვა",
    ServiceUnavailableKey := "სერვისი დროებით მიუწვდომელია",
    ProcessingErrorKey := "შეცდომა დამუშავებისას"
  ]

  /** The three messages are pairwise different, so a client can tell the
      three failures apart by their detail alone. */
  lemma ErrorMessagesDistinct()
    ensures EmptyQueryKey in ErrorMessages && ServiceUnavailableKey in ErrorMessages
         && ProcessingErrorKey in ErrorMessages
    ensures ErrorMessages[EmptyQueryKey] != ErrorMessages[ServiceUnavailableKey]
    ensures ErrorMessages[EmptyQueryKey] != ErrorMessages[ProcessingErrorKey]
    ensures ErrorMessages[ServiceUnavailableKey] != ErrorMessages[ProcessingErrorKey]
  {
    assert ErrorMessages[EmptyQueryKey][0] == 'გ';
    assert ErrorMessages[ServiceUnavailableKey][0] == 'ს';
    assert ErrorMessages[ProcessingErrorKey][0] == 'შ';
  }
}
