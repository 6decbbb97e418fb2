# Chat backend request path, modelled in Dafny

The service is a small chat backend. It accepts `POST /api/chat` (or its alias
`POST /chat`) with a `message` and an optional `conversation_history`. It
builds one text prompt from them and sends it to a hosted Gemini model. It
returns the answer in a fixed `ChatResponse` shape, or an HTTP error with a
fixed Georgian message.

The model covers the two pieces of logic in `ai-service/app/main.py`.

- The prompt builder of `RagService.generate_response` (`prompt.dfy`). Each
  history message becomes one line, `"User: …"` or `"Assistant: …"`. The lines
  are joined with newlines, and an empty history becomes the placeholder `"—"`.
  The history block and the query line `"User: <query>"` are placed between a
  fixed system instruction and a fixed closing request.
- The handler (`service.dfy`). It checks, in this order, that the service
  exists (otherwise 503), that the message is not blank (otherwise 400), and
  then calls the model once. A reply with no text becomes a fixed fallback
  answer. An exception becomes a 500 whose detail is a fixed message. On
  success the response is built from the service's loosely typed dictionary:
  sources get ids equal to their positions, missing fields default to `""`,
  and the metadata says whether there was history.

Inputs that come from outside the program are parameters.

- The remote model call is the function `RagService.generateContent:
  string -> ModelResult`. It receives the full prompt. Its result is one of
  `Reply(text)`, `NoText` or `Raised(message)`.
- Whether the service could be built at start-up is an `Option<RagService>`.

With these two inputs the handler `Service.Chat` is a total pure function.
"The model is never consulted" is therefore stated as "the outcome is the same
for every model".

Modules:

- `Wrappers`: `Option` and `Result`.
- `Text`: Python's `str.join`, `str.strip()` and its whitespace table, plus
  `Split` (Python's `str.split` with one separator character). The service
  never splits; `Split` is the inverse against which the join is stated.
- `Schema`: the request and response schemas and the error-message table.
- `Prompt`: the prompt builder.
- `Service`: `generate_response`, the response shaping, and the two handlers.

The Georgian literals are the exact strings of the source.

## Model

| member | source | states |
|---|---|---|
| Text.TrimLeft | ai-service/app/main.py:169 | `lstrip` returns a suffix of the input; everything it dropped is whitespace, and what remains does not start with whitespace |
| Text.TrimRight | ai-service/app/main.py:169 | `rstrip` returns a prefix of the input; everything it dropped is whitespace, and what remains does not end with whitespace |
| Text.WhitespaceTable | ai-service/app/main.py:169 | the whitespace test used by `strip()` holds of a character exactly when it is one of the 29 code points for which Python's `str.isspace()` is true, listed one by one in `PyWhitespace`; on ASCII that is tab through carriage return, 0x1C-0x1F and space, and the zero-width space and byte-order mark are not whitespace |
| Text.StripEmptyIffAllWhitespace | ai-service/app/main.py:169 | `message.strip()` is empty exactly when every character of the message is whitespace |
| Text.IsBlank | ai-service/app/main.py:169 | the guard `not message or not message.strip()` holds exactly when every character of the message is whitespace, the empty message included |
| Text.Join | ai-service/app/main.py:82 | a non-empty join starts with its first line |
| Text.SplitJoin | ai-service/app/main.py:82 | splitting the newline-joined lines on newline gives back exactly the lines, in order, when no line contains a newline |
| Text.JoinSplit | ai-service/app/main.py:82 | joining the pieces of a split gives back the original text, so the join loses and adds nothing |
| Prompt.HistoryText | ai-service/app/main.py:77-82 | the history block is the placeholder "—" if and only if the history is empty; otherwise it starts with the first message's rendered line |
| Prompt.LineHasNoBreak | ai-service/app/main.py:79-80 | a rendered line contains a line break only if the message content does (its first clause only spells out the line's shape) |
| Prompt.HistoryLines | ai-service/app/main.py:77-82 | a non-empty history block has one line per message, in order; line i is "User: " + content when the role is "user" and "Assistant: " + content otherwise |
| Prompt.PromptLayout | ai-service/app/main.py:84-95 | the prompt built by `FullPrompt` consists of five pieces, each verbatim at its offset: the system instruction with "\n\n" and the history header, then the history block, then "\n\n", the query header and "User: ", then the query, then "\n\n" and the closing request |
| Prompt.PromptFrame | ai-service/app/main.py:84-95 | every prompt starts with the system instruction and ends with the closing request |
| Prompt.QueryRoundTrip | ai-service/app/main.py:90-95 | the query can be read back out of the prompt built for it |
| Prompt.PromptDeterminesQuery | ai-service/app/main.py:90-95 | two different queries after the same history never give the same prompt |
| Schema.ErrorMessagesDistinct | ai-service/app/main.py:17-21 | the table has the three keys, and their three messages are pairwise different |
| Service.AnswerText | ai-service/app/main.py:102-105 | the answer is never empty: it is the model's text when that is non-empty, and the fallback when the reply has no text or empty text |
| Service.GenerateResponse | ai-service/app/main.py:97-129 | the call fails exactly when the model raises on the full prompt, and then the failure message is exactly "Gemini error: " followed by the exception's message (its prefix, its suffix and its length are fixed). On success every key is present. The answer is non-empty: the model's text when that is non-empty, the fallback otherwise. There is exactly one source document, with content and section present. The metadata has exactly "model" and "has_history", and has_history is true exactly when the history is non-empty |
| Service.GenerateDependsOnlyOnPrompt | ai-service/app/main.py:90-100 | two services whose models reply alike to the full prompt give the same result, so the model sees nothing but the prompt |
| Service.ServiceMetadata | ai-service/app/main.py:116-119 | the metadata has exactly the keys "model" and "has_history", holding the model name and the given flag |
| Service.HistoryPayload | ai-service/app/main.py:177-180 | the payload has one entry per history message, in order, with the same content; its role is "user" exactly when the message's role is User |
| Service.SourcesFrom | ai-service/app/main.py:189-197 | one source per document, in order; each id is the document's position, and a missing content or section becomes "" |
| Service.ToChatResponse | ai-service/app/main.py:188-203 | a missing answer becomes "", missing metadata becomes the empty dictionary, missing documents give no sources, and source i has id i with its document's fields or "" |
| Service.Chat | ai-service/app/main.py:160-173 | with no service the outcome is 503 "service_unavailable" for every request, including empty messages; with a service, a blank message gives 400 "empty_query" |
| Service.ChatOutcomes | ai-service/app/main.py:160-214 | every request ends in exactly one of 503, 400, 500 or success; the service's presence decides first, then the message, then whether the model raised on the request's prompt |
| Service.BlankMessageSkipsModel | ai-service/app/main.py:168-173 | for a blank message the outcome is the same whatever the model would reply, so the model is never consulted |
| Service.OutcomeDependsOnlyOnReply | ai-service/app/main.py:175-204 | two models that give the same reply to the request's prompt produce the same outcome |
| Service.ModelFailureIsOpaque | ai-service/app/main.py:206-214 | when the model raises, the outcome is 500 with the fixed "processing_error" detail, whatever the exception message was |
| Service.SuccessfulResponse | ai-service/app/main.py:100-125 | when validation passes and the model does not raise, the outcome is a success. The answer is never empty and is the model's text or the fallback. There is exactly one source, with id 0 and the fixed texts. The metadata has exactly the keys "model" and "has_history"; has_history is true exactly when the history is non-empty |
| Service.AliasAgrees | ai-service/app/main.py:217-220 | `ChatAlias` (`/chat`) gives the same outcome as `Chat` (`/api/chat`) for every service state and request |
| Service.RequestHistoryLines | ai-service/app/main.py:177-186 | the request's history reaches the prompt one line per message, in order, labelled "User: " for User messages and "Assistant: " for Assistant messages |
| Service.GreetingExample | ai-service/app/main.py:159-204 | "Hello" with no history, when the model says "Hi there", gives that answer, the one placeholder source, model "gemini-2.5-flash" and has_history false |
| Service.SpacesAreRefused | ai-service/app/main.py:168-173 | a message of three spaces is refused with 400 "empty_query", whatever the history |

## Left out

- Prompt.HistoryLines: the one-line-per-message statement needs message contents without newlines. Content that contains a newline spreads over several lines of the block, so the split would not give back one line per message.
- Service.RequestHistoryLines: the same newline restriction as Prompt.HistoryLines.
- The process-start construction of `RagService` (lines 54-61 and 133-137) reads `GEMINI_API_KEY` from the environment and configures the Gemini SDK. This is environment and foreign-library I/O, so it becomes the `Option<RagService>` parameter.
- The Gemini SDK call `generate_content` is a network call. It is the `generateContent` function of `RagService`. A `response.text` access that raises inside the SDK is a `Raised` result.
- The `print` logging at lines 136 and 210 is I/O.
- The FastAPI app, the CORS middleware and the `/health` endpoint (lines 143-156) are framework wiring. Pydantic validation and JSON (de)serialisation are left out too. History roles outside "user" and "assistant" are rejected by the request schema, which is why `Role` has two values.
- The `except HTTPException: raise` branch (lines 206-207) has no model. Nothing inside that `try` block raises an `HTTPException`, so the branch is never taken.
- Strings are sequences of Unicode scalar values. A Python `str` can also hold lone surrogates, for example from the JSON escape `"\ud800"`; such strings have no counterpart in the model.
- `async`/`await` scheduling adds no behaviour to a single request and is left out.
- `ai-service/app/config/settings.py` loads configuration with pydantic-settings. Its fields are not read by the request path, so it is not part of this model.
