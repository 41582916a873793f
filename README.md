# Cloud architecture cost estimator: prompt orchestration in Dafny

This project models the deterministic core of a Streamlit assistant. Given an uploaded
cloud-architecture diagram, the assistant asks a vision-capable chat model to identify
the services in it. It then uses that reply to build a second request: a monthly cost
estimate on the estimator page, or optimisation advice on the optimiser page. The optimiser
page also keeps a chat history, and each follow-up message replays that history to the model.

The language model is a function from a request to a reply or a failure
(`ModelClient.Model`). `json.loads` is a function from text to an optional parsed value
(`CostEstimator.JsonLoads`). The data frame is a sequence of records.

Modules, leaf first:

- `Errors`: the exceptions that escape the core (`Failure`), plus `Result` and `Option`.
- `Messages`: role-tagged messages. Content is a plain string or a list of text and image-URL parts.
- `Base64`: `base64.b64encode(...).decode()`, following section 4 of RFC 4648 (standard
  alphabet, `=` padding), with a strict decoder as its inverse.
- `ModelClient`: the request shape (`messages`, `response_format`), the model oracle, and
  the streaming call as the client is written.
- `Prompt` (prompt.py): the pure message builders and the stateful class
  `CostEstimationPrompt`. The stage-2 generator reads a field that only the stage-1 generator sets.
- `CostEstimator` (app.py): the response formatter and the two-stage pipeline, modelled
  both as written and in corrected form.
- `Optimiser` (pages/optimiser.py): the class `ChatSession`. It holds
  `st.session_state.messages` (absent until the first run), with methods for one run, the
  upload, the two model calls, and one chat turn. Each method is specified by a pure step
  function, and lemmas state the append-only and ordering properties.

## Model

| member | source | states |
|---|---|---|
| `Base64.Encode` | app.py:102-107 | the encoding of n bytes has length 4·⌈n/3⌉ |
| `Base64.Rfc4648Vectors` | app.py:106 | the test vectors of section 10 of RFC 4648 ("", "f" … "foobar"), which fix the alphabet's order and the padding |
| `Base64.EncodeAlphabet` | app.py:106 | the encoding uses only A–Z, a–z, 0–9, `+`, `/` and `=`; `=` occurs exactly in the last (3 − n mod 3) mod 3 positions |
| `Base64.DecodeEncode` | pages/optimiser.py:108-113 | decoding the encoding of any byte string returns exactly those bytes |
| `Base64.EncodeDecode` | app.py:106 | any string the strict decoder accepts is the encoding of what it decodes to, so each byte string has exactly one encoding |
| `Base64.EncodeInjective` | pages/optimiser.py:112 | distinct images give distinct encodings |
| `Base64.IndexOf` | app.py:106 | a character has a six-bit value exactly when it is in the standard alphabet |
| `Base64.IndexOfCharOf` | app.py:106 | every six-bit value maps to an alphabet character, and that character maps back to the same value |
| `Messages.TextMessage` | prompt.py:48-56 | a message with one text part and no image part |
| `Prompt.ImageDataUri` | prompt.py:33-38 | the image URL is `data:image/jpeg;base64,` followed by the payload, whatever the upload's format |
| `Prompt.ImagePayloadOfDataUri` | prompt.py:36 | stripping the scheme returns the payload, and a URI yields a given payload exactly when it is that payload's data URI |
| `Prompt.SystemPrompt` | prompt.py:9-19 | the system message has role system and a single text part, with no image; it does not depend on the image |
| `Prompt.IdentifyServiceMessages` | prompt.py:21-41 | exactly two messages: the system message, then a user message whose two parts are the instruction text and then the image data URI |
| `Prompt.CostEstimationMessages` | prompt.py:45-72 | the earlier messages unchanged, then an assistant message whose only part is the stage-1 reply verbatim (the empty reply included), then a user message with a single text part; length grows by 2 and the well-formed prefix invariant is kept |
| `Prompt.ImageUrlsAppend` | prompt.py:58-72 | the images of concatenated prompts are the images of each part, in order |
| `Prompt.CostEstimationSendsOneImage` | prompt.py:58-72 | both stage prompts carry exactly one image, the same data URI |
| `Prompt.CostEstimationPrompt.constructor` | prompt.py:5-7 | stores the payload and the system message; neither generated prompt is set yet |
| `Prompt.CostEstimationPrompt.GenerateIdentifyServicePrompt` | prompt.py:21-43 | returns the identification prompt and stores exactly it; as the payload is fixed, a second call returns an equal sequence |
| `Prompt.CostEstimationPrompt.GenerateCostEstimationPrompt` | prompt.py:45-74 | before the identification prompt is set it raises AttributeError and stores nothing; afterwards it returns the stored identification prompt plus the assistant reply and the instruction, and stores exactly that |
| `CostEstimator.Unpack2` | app.py:62-64 | two-name unpacking succeeds exactly on two-element lists, and fails with ValueError(expected 2, got n) otherwise |
| `CostEstimator.FromRecords` | app.py:87 | a list of objects becomes one row per element, in order, each row that object's fields; any other element is an error |
| `CostEstimator.FormatCostEstimationResponse` | app.py:83-88 | error for text that is not JSON and for a non-object value; KeyError for a missing `services` (checked first) or a missing `total_estimated_monthly_cost`; succeeds exactly when both keys exist and `services` is a list of objects; the rows are those objects in order, and the total is the stored value untouched, with no summing and no check against the rows |
| `CostEstimator.FormatServicesDocument` | app.py:83-88 | formatting a reply that holds given rows and a total returns exactly those rows and that total |
| `CostEstimator.PromptCarriesImage` | app.py:59-61 | the uploaded bytes can be recovered from the image URL in the identification prompt |
| `CostEstimator.EstimateCostAsWritten` | app.py:58-81 | as written, exactly one model call is made, with the system message as `messages` and the user message as `response_format`; the result is always an error: the model's failure, or ValueError (expected 2, got 4) |
| `CostEstimator.EstimateCost` | app.py:58-81 | the identification call comes first; the estimation call happens only after it succeeds, and its prompt is built from the identification prompt and that reply; the result is the formatter applied to the second reply, and failures propagate; a failure other than RuntimeError comes from the formatter on a reply that arrived, so a backend failure cannot be confused with a malformed reply |
| `ModelClient.StreamAsWritten` | openai_client.py:33-35 | a call with `stream=True` always raises TypeError, because the client declares no such parameter |
| `Optimiser.ProjectRoleContent` | pages/optimiser.py:71-75 | projecting each entry to its role and content gives back the history itself, in order |
| `Optimiser.UserEntry` | pages/optimiser.py:64 | a user-role entry whose content is the submitted text as a plain string |
| `Optimiser.AssistantEntry` | pages/optimiser.py:79 | an assistant-role entry whose content is the reply as a plain string (also at pages/optimiser.py:99) |
| `Optimiser.Submitted` | pages/optimiser.py:62 | the walrus truth test: no input and the empty string start no turn; any non-empty text does |
| `Optimiser.IdentifyRequest` | pages/optimiser.py:86-92 | the builder's identification prompt for a Base64 text that decodes back to exactly the uploaded bytes, with no response format |
| `Optimiser.OptimisationRequest` | pages/optimiser.py:93-96 | the builder's optimisation prompt for that same Base64 text and the identification reply, with no response format |
| `Optimiser.OptimisationResponse` | pages/optimiser.py:89-96 | the first call's failure, when it fails, is the result; otherwise the result is the optimisation call's, built from the identification reply |
| `Optimiser.InitHistory` | pages/optimiser.py:29-31 | the history is set to empty only when absent; an existing history is kept as is |
| `Optimiser.ChatTurnAppendsPair` | pages/optimiser.py:61-79 | a chat turn whose reply arrives grows the history by exactly 2: the user message, then the reply; earlier entries are unchanged |
| `Optimiser.ChatTurnAsWritten` | pages/optimiser.py:71-77 | with the client as written, a turn appends the user message, raises TypeError, and never appends a reply |
| `Optimiser.ChatTurnStreamed` | pages/optimiser.py:71-79 | with a streaming call that answers like a plain call, the model receives the whole history, including the new user message, and its reply is appended |
| `Optimiser.IdentifyServicesStep` | pages/optimiser.py:85-100 | a failed identification call is the step's outcome, with the history unchanged; otherwise the optimisation request is built from the identification reply, its failure leaves the history unchanged, and its reply is appended as one assistant entry; every failure is the client's RuntimeError (the call order is stated by `ChatSession.IdentifyServices`) |
| `Optimiser.ChatTurnStep` | pages/optimiser.py:62-79 | the history keeps its entries and gains the user entry; the turn completes exactly when the call on the history including that entry answers, and then exactly one more entry is added, the assistant entry carrying that reply; a failure is the call's own |
| `Optimiser.ShowChatStep` | pages/optimiser.py:61-79 | without a submitted message nothing changes; the history keeps its entries and grows, by at most two, exactly when a message was submitted |
| `Optimiser.RunStep` | pages/optimiser.py:23-35 | no upload: the initialised history and success; an upload PIL cannot open: UnidentifiedImageError with nothing appended (pages/optimiser.py:55, 82); a run with an upload that completes has appended to the history |
| `Optimiser.LoadPageAsWritten` | pages/optimiser.py:11 | as written, loading the page raises ImportError for `CloudOptimisationPrompt` before `run`, and the session state is left as it was |
| `Optimiser.LoadPageAsWrittenNeverRuns` | pages/optimiser.py:11-35 | a first visit as written ends with no history and ImportError, where a run with the builder supplied creates the empty history and completes when nothing is uploaded |
| `Optimiser.RunAppendOnly` | pages/optimiser.py:23-35 | a run only appends, at most three entries; the earlier history is a prefix of the new one; without an upload nothing changes and no chat is handled |
| `Optimiser.RunAppendsAdviceFirst` | pages/optimiser.py:33-35 | with an upload that opens as an image, the optimisation reply is appended first, right after the earlier history, before any chat entry; if either model call fails, nothing is appended and the chat is skipped |
| `Optimiser.RunKeepsHistoryShape` | pages/optimiser.py:64-99 | every history entry has role user or assistant and plain string content; no system message or image ever enters it |
| `Optimiser.ChatSession.constructor` | pages/optimiser.py:30 | a new session has no `messages` entry |
| `Optimiser.ChatSession.Run` | pages/optimiser.py:23-35 | the new history and outcome are those of the run step; the history stays well formed, and the old history is a prefix of the new one |
| `Optimiser.ChatSession.UploadArchDiagram` | pages/optimiser.py:45-59 | no upload: returns false and changes nothing; an upload PIL cannot open: UnidentifiedImageError from `__display_image`, nothing changed; otherwise runs the identification step, returns true on success and raises its failure otherwise |
| `Optimiser.ChatSession.IdentifyServices` | pages/optimiser.py:85-103 | the identification call first; the optimisation call only after it succeeds, built from its reply; the reply of the second call is appended as one assistant entry |
| `Optimiser.ChatSession.ShowChat` | pages/optimiser.py:61-79 | a turn happens only on a non-empty submitted message; the messages replayed are the whole old history plus the user message; the history becomes that of the chat step |

## Left out

- Streamlit presentation is not modelled: page setup, titles, `st.write`, `st.markdown`,
  `st.image`, the uploader widgets, `__display_response` and the menu in menu.py. It has no
  effect on the messages.
- `__display_image` on the optimiser page is modelled only by whether `Image.open` accepts the
  upload (`Optimiser.ImageOpens`). PIL's format detection is a foreign call and is a parameter.
- `CostEstimator.EstimateCost`: app.py's `__upload_arch_diagram` (app.py:38-52) is not part of
  this model. It calls `Image.open` on the upload (app.py:46, 55) before `__estimate_cost`, so a
  file PIL cannot open raises before any model call. The model of `__estimate_cost` starts
  after that call and assumes it succeeded.
- The sidebar's provider, tier and price selections are not modelled. They are collected
  but no prompt reads them.
- openai_client.py is a model parameter, not code. The AzureOpenAI SDK, configuration from
  the environment and the network are replaced by the `Model` oracle. Its result type
  (`ModelClient.ClientResult`) admits only a reply or RuntimeError, the one exception the
  client re-raises (openai_client.py:39-48). The cause's text is left unconstrained.
- `st.write_stream` is not modelled fragment by fragment. A streamed reply is one complete string.
- `json.loads` and PIL's `Image.open` are parameters (`CostEstimator.JsonLoads`,
  `Optimiser.ImageOpens`); `dotenv` is absent.
- `CloudOptimisationPrompt` is not part of this model. pages/optimiser.py:11 imports it,
  but prompt.py does not define it, so the page as written fails at import. The model takes
  the builder's two generators as a parameter (`Optimiser.OptimisationPromptBuilder`).
- Streamlit reruns are not modelled as a sequence. One `run`, and the chat turn inside it,
  is the unit of state change. Across runs the history is only appended to.
- testapp.py (a UI prototype) is not modelled.
- `CostEstimator.FromRecords`, `CostEstimator.FormatCostEstimationResponse`: `pd.DataFrame.from_records` is modelled only
  for a list of objects, with each row that object's fields. Other shapes pandas also
  accepts (a dict of columns, lists of lists) are modelled as an error, and column order is
  not modelled. When the objects have different keys, pandas gives every row all the columns,
  with NaN where an object lacks one. The model keeps each object's own keys.
- The SDK can return `None` as the message content. `f"{None}"` would then embed the text
  `None`. Replies are modelled as strings only.
- The formatter has no fallback to raw text. A reply that is not JSON, or that lacks either
  key, raises out of the page. app.py has no try/except around the formatter, so the failure
  escapes `__upload_arch_diagram`.
- Only the optimisation reply enters the optimiser's history. The optimisation instruction
  itself is never appended (pages/optimiser.py:98-100), and the model follows the code.

## Findings

| source | as written | input that shows it | evidently intended | confidence | as-written member | corrected member |
|---|---|---|---|---|---|---|
| app.py:62-73 | each generator's list is unpacked into a prompt and a response format: the system message is sent as the messages and the user message as the format, and the four-message estimation list cannot be unpacked into two names | any uploaded image: a failed identification call propagates its failure; if the call returns, ValueError (expected 2, got 4) is raised | send each list as the prompt, with no format for identification, then format the reply. The JSON-object format for the estimation call is a reconstruction: prompt.py:67 asks for a markdown layout and never names JSON or the `services` and `total_estimated_monthly_cost` keys the formatter reads | not executed | `CostEstimator.EstimateCostAsWritten` | `CostEstimator.EstimateCost` |
| pages/optimiser.py:71-77 | `generate_response` is called with `stream=True`, which it does not declare (openai_client.py:33-35), so every follow-up raises TypeError after the user message was appended | once a `CloudOptimisationPrompt` exists (as written the page fails at import, pages/optimiser.py:11), any non-empty chat message after an upload: the history gains the user entry and never a reply | a streaming call whose complete reply is appended, so the history grows by two | not executed | `Optimiser.ChatTurnAsWritten` | `Optimiser.ChatTurnStreamed` |
| pages/optimiser.py:11 | `CloudOptimisationPrompt` is imported from prompt.py, which defines only `CostEstimationPrompt`, so loading the page raises ImportError | any visit to the optimiser page: `run` never starts and `st.session_state.messages` is never created | an optimisation prompt builder with `generate_identify_service_prompt` and `synthesise_optimisation_prompt`, used by `run` | not executed | `Optimiser.LoadPageAsWrittenNeverRuns` | `Optimiser.RunStep` |
