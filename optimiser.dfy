/**
 * The optimiser page: on a run with an uploaded diagram it asks the model to identify the
 * services and then for optimisation advice, appends the advice to the session's chat
 * history, and answers one follow-up message by replaying the whole history to the model.
 */
module Optimiser {
  import opened Errors
  import opened Messages
  import Base64
  import opened ModelClient

  /**
   * The optimisation prompt builder the page constructs from the encoded image: its
   * identification prompt, and its optimisation prompt given the identification reply.
   * prompt.py does not define this builder, so the model takes its two generators as given.
   */
  datatype OptimisationPromptBuilder = OptimisationPromptBuilder(
    identifyServicePrompt: string -> seq<Message>,
    synthesiseOptimisationPrompt: (string, string) -> seq<Message>)

  /**
   * Whether `Image.open` accepts the uploaded bytes, that is, whether PIL can identify them
   * as an image. When it cannot, `__display_image` raises before any model call.
   */
  type ImageOpens = seq<Base64.Byte> -> bool

  /** The name pages/optimiser.py imports from prompt.py, which prompt.py does not define. */
  const OptimisationPromptName: string := "CloudOptimisationPrompt"

  /** `{"role": "user", "content": text}` */
  function UserEntry(text: string): (m: Message)
    ensures m.role == User && m.content.PlainText? && m.content.text == text
  {
    Message(User, PlainText(text))
  }

  /** `{"role": "assistant", "content": text}` */
  function AssistantEntry(text: string): (m: Message)
    ensures m.role == Assistant && m.content.PlainText? && m.content.text == text
  {
    Message(Assistant, PlainText(text))
  }

  /** What the chat history admits: user or assistant entries with plain string content. */
  predicate IsHistoryEntry(m: Message)
  {
    (m.role == User || m.role == Assistant) && m.content.PlainText?
  }

  predicate IsHistory(h: seq<Message>)
  {
    forall i :: 0 <= i < |h| ==> IsHistoryEntry(h[i])
  }

  /**
   * The messages sent for a follow-up: `[{"role": m["role"], "content": m["content"]} for m in history]`.
   * History entries carry only those two keys, so the projection is the history itself, in order.
   */
  function ProjectRoleContent(h: seq<Message>): (r: seq<Message>)
    ensures r == h
  {
    seq(|h|, i requires 0 <= i < |h| => Message(h[i].role, h[i].content))
  }

  /** The history a run starts from: the stored list, or a new empty one when there is none. */
  function InitHistory(session: Option<seq<Message>>): (h: seq<Message>)
    ensures session.Some? ==> h == session.value
    ensures session.None? ==> h == []
  {
    if session.None? then [] else session.value
  }

  /** The history after a step, and whether the step completed or raised. */
  datatype Step = Step(history: seq<Message>, outcome: Result<()>)

  /**
   * The first model call of `__identify_services`: the builder's identification prompt for
   * the Base64 text of the upload, which decodes back to exactly the uploaded bytes, sent with
   * no response format.
   */
  function IdentifyRequest(image: seq<Base64.Byte>, builder: OptimisationPromptBuilder): (r: Request)
    ensures r.responseFormat == NoFormat
    ensures exists b64 :: Base64.Decode(b64) == Some(image) && r.messages == MessageList(builder.identifyServicePrompt(b64))
  {
    Base64.DecodeEncode(image);
    Request(MessageList(builder.identifyServicePrompt(Base64.Encode(image))), NoFormat)
  }

  /**
   * The second model call: the builder's optimisation prompt for the same Base64 text and the
   * identification reply, sent with no response format.
   */
  function OptimisationRequest(image: seq<Base64.Byte>, builder: OptimisationPromptBuilder, identifyReply: string): (r: Request)
    ensures r.responseFormat == NoFormat
    ensures exists b64 ::
              Base64.Decode(b64) == Some(image) &&
              r.messages == MessageList(builder.synthesiseOptimisationPrompt(b64, identifyReply))
  {
    Base64.DecodeEncode(image);
    Request(MessageList(builder.synthesiseOptimisationPrompt(Base64.Encode(image), identifyReply)), NoFormat)
  }

  /** The optimisation advice: the second call's reply, or the first failure of the two calls. */
  function OptimisationResponse(image: seq<Base64.Byte>, builder: OptimisationPromptBuilder, model: Model): (r: Result<string>)
    ensures model(IdentifyRequest(image, builder)).Err? ==> r == Err(model(IdentifyRequest(image, builder)).error)
    ensures model(IdentifyRequest(image, builder)).Ok? ==>
      r == model(OptimisationRequest(image, builder, model(IdentifyRequest(image, builder)).value))
  {
    match model(IdentifyRequest(image, builder))
    case Err(e) => Err(e)
    case Ok(identifyReply) => model(OptimisationRequest(image, builder, identifyReply))
  }

  /**
   * `__identify_services`: a failed identification call ends the step before the optimisation
   * call; otherwise the optimisation call is built from the identification reply, and its
   * reply is appended as one assistant entry. A failure appends nothing.
   */
  function IdentifyServicesStep(h: seq<Message>, image: seq<Base64.Byte>, builder: OptimisationPromptBuilder, model: Model): (r: Step)
    ensures var first := model(IdentifyRequest(image, builder));
      first.Err? ==> r == Step(h, Err(first.error))
    ensures var first := model(IdentifyRequest(image, builder));
      first.Ok? ==>
        var second := model(OptimisationRequest(image, builder, first.value));
        && (second.Err? ==> r == Step(h, Err(second.error)))
        && (second.Ok? ==> r == Step(h + [AssistantEntry(second.value)], Ok(())))
    ensures r.outcome.Err? ==> r.outcome.error.RuntimeError? && r.history == h
  {
    match OptimisationResponse(image, builder, model)
    case Err(e) => Step(h, Err(e))
    case Ok(advice) => Step(h + [AssistantEntry(advice)], Ok(()))
  }

  /**
   * One follow-up turn: the user entry is appended, the history including it is replayed,
   * and the reply is appended. If the call raises, the user entry stays and no reply is added.
   */
  function ChatTurnStep(h: seq<Message>, prompt: string, stream: ChatStream): (r: Step)
    ensures |h| + 1 <= |r.history| <= |h| + 2 && r.history[..|h| + 1] == h + [UserEntry(prompt)]
    ensures r.outcome.Ok? <==> stream(h + [UserEntry(prompt)]).Ok?
    ensures r.outcome.Ok? <==> |r.history| == |h| + 2
    ensures r.outcome.Err? ==> r.outcome.error == stream(h + [UserEntry(prompt)]).error
    ensures r.outcome.Ok? ==> r.history[|h| + 1] == AssistantEntry(stream(h + [UserEntry(prompt)]).value)
  {
    var withPrompt := h + [UserEntry(prompt)];
    match stream(ProjectRoleContent(withPrompt))
    case Err(e) => Step(withPrompt, Err(e))
    case Ok(reply) => Step(withPrompt + [AssistantEntry(reply)], Ok(()))
  }

  /** `st.chat_input` yields None, or the submitted text; only a non-empty text starts a turn. */
  predicate Submitted(chatInput: Option<string>): (b: bool)
    ensures chatInput.None? ==> !b
    ensures chatInput == Some("") ==> !b
    ensures b <==> chatInput.Some? && |chatInput.value| > 0
  {
    chatInput.Some? && chatInput.value != ""
  }

  /**
   * `__show_chat`: without a submitted message nothing changes; with one, the history keeps
   * its entries and gains the turn's one or two.
   */
  function ShowChatStep(h: seq<Message>, chatInput: Option<string>, stream: ChatStream): (r: Step)
    ensures !Submitted(chatInput) ==> r == Step(h, Ok(()))
    ensures |h| <= |r.history| <= |h| + 2 && r.history[..|h|] == h
    ensures |r.history| > |h| <==> Submitted(chatInput)
  {
    if Submitted(chatInput) then ChatTurnStep(h, chatInput.value, stream) else Step(h, Ok(()))
  }

  /**
   * `run`: initialise the history if absent; with an upload, open it as an image, identify
   * services, then show the chat. An upload PIL cannot open raises before any model call.
   */
  function RunStep(session: Option<seq<Message>>, upload: Option<seq<Base64.Byte>>, opens: ImageOpens,
                   chatInput: Option<string>, builder: OptimisationPromptBuilder, model: Model,
                   stream: ChatStream): (r: Step)
    ensures upload.None? ==> r == Step(InitHistory(session), Ok(()))
    ensures upload.Some? && !opens(upload.value) ==> r == Step(InitHistory(session), Err(UnidentifiedImageError))
    ensures upload.Some? && r.outcome.Ok? ==> |r.history| > |InitHistory(session)|
  {
    var h := InitHistory(session);
    if upload.None? then Step(h, Ok(()))
    else if !opens(upload.value) then Step(h, Err(UnidentifiedImageError))
    else
      var identified := IdentifyServicesStep(h, upload.value, builder, model);
      if identified.outcome.Err? then identified
      else ShowChatStep(identified.history, chatInput, stream)
  }

  /** A follow-up turn whose reply arrives grows the history by exactly the user entry and the reply. */
  lemma ChatTurnAppendsPair(h: seq<Message>, prompt: string, stream: ChatStream)
    requires stream(h + [UserEntry(prompt)]).Ok?
    ensures var step := ChatTurnStep(h, prompt, stream);
      step.outcome.Ok? && |step.history| == |h| + 2 && step.history[..|h|] == h &&
      step.history[|h|] == UserEntry(prompt) &&
      step.history[|h| + 1] == AssistantEntry(stream(h + [UserEntry(prompt)]).value)
  {
  }

  /**
   * A follow-up turn with the client as written: the streaming call raises TypeError, so the
   * user entry is appended and no reply ever is.
   */
  lemma ChatTurnAsWritten(h: seq<Message>, prompt: string)
    ensures var step := ChatTurnStep(h, prompt, StreamAsWritten);
      step.outcome.Err? && step.outcome.error.TypeError? && step.history == h + [UserEntry(prompt)]
  {
  }

  /** A follow-up with the client answering the replayed messages as a plain call would. */
  lemma ChatTurnStreamed(h: seq<Message>, prompt: string, model: Model)
    requires model(Request(MessageList(h + [UserEntry(prompt)]), NoFormat)).Ok?
    ensures ChatTurnStep(h, prompt, Streamed(model)).history ==
      h + [UserEntry(prompt), AssistantEntry(model(Request(MessageList(h + [UserEntry(prompt)]), NoFormat)).value)]
  {
    ChatTurnAppendsPair(h, prompt, Streamed(model));
  }

  /**
   * A run only appends: the stored history is a prefix of the new one, at most three entries
   * are added, and without an upload nothing is.
   */
  lemma RunAppendOnly(session: Option<seq<Message>>, upload: Option<seq<Base64.Byte>>, opens: ImageOpens,
                      chatInput: Option<string>, builder: OptimisationPromptBuilder, model: Model, stream: ChatStream)
    ensures var base := InitHistory(session);
      var step := RunStep(session, upload, opens, chatInput, builder, model, stream);
      |base| <= |step.history| <= |base| + 3 && step.history[..|base|] == base &&
      (upload.None? ==> step == Step(base, Ok(())))
  {
    var base := InitHistory(session);
    if upload.Some? && opens(upload.value) {
      var identified := IdentifyServicesStep(base, upload.value, builder, model);
      if identified.outcome.Ok? && Submitted(chatInput) {
        var withPrompt := identified.history + [UserEntry(chatInput.value)];
        assert (withPrompt + [AssistantEntry("")])[..|base|] == base;
      }
    }
  }

  /**
   * On a run with an upload that opens as an image, the optimisation advice is appended first,
   * at the end of the stored history; the follow-up entries come after it. A failed
   * identification or optimisation call ends the run with nothing appended and no follow-up
   * handled.
   */
  lemma RunAppendsAdviceFirst(session: Option<seq<Message>>, image: seq<Base64.Byte>, opens: ImageOpens,
                              chatInput: Option<string>, builder: OptimisationPromptBuilder, model: Model,
                              stream: ChatStream)
    requires opens(image)
    ensures var base := InitHistory(session);
      var step := RunStep(session, Some(image), opens, chatInput, builder, model, stream);
      match OptimisationResponse(image, builder, model)
      case Err(e) => step == Step(base, Err(e))
      case Ok(advice) =>
        |step.history| > |base| && step.history[|base|] == AssistantEntry(advice) &&
        (!Submitted(chatInput) ==> step == Step(base + [AssistantEntry(advice)], Ok(())))
  {
    var base := InitHistory(session);
    match OptimisationResponse(image, builder, model)
    case Err(e) =>
    case Ok(advice) =>
      var h1 := base + [AssistantEntry(advice)];
      if Submitted(chatInput) {
        var withPrompt := h1 + [UserEntry(chatInput.value)];
        assert (withPrompt + [AssistantEntry("")])[|base|] == AssistantEntry(advice);
      }
  }

  /** A run keeps the history to user and assistant entries with string content. */
  lemma RunKeepsHistoryShape(session: Option<seq<Message>>, upload: Option<seq<Base64.Byte>>, opens: ImageOpens,
                             chatInput: Option<string>, builder: OptimisationPromptBuilder, model: Model,
                             stream: ChatStream)
    requires session.Some? ==> IsHistory(session.value)
    ensures IsHistory(RunStep(session, upload, opens, chatInput, builder, model, stream).history)
  {
  }

  /**
   * Loading the page as written: pages/optimiser.py:11 imports `CloudOptimisationPrompt`,
   * which prompt.py does not define, so ImportError is raised before `run` starts. The
   * session state is left as it was: a first visit never gets a history.
   */
  function LoadPageAsWritten(session: Option<seq<Message>>): (r: (Option<seq<Message>>, Result<()>))
    ensures r.0 == session && r.1.Err? && r.1.error.ImportError?
  {
    (session, Err(ImportError(OptimisationPromptName)))
  }

  /**
   * The import failure against a run with the builder supplied: the first visit as written
   * ends with no history and an ImportError, while the run creates the empty history and
   * completes when nothing is uploaded.
   */
  lemma LoadPageAsWrittenNeverRuns(opens: ImageOpens, chatInput: Option<string>,
                                   builder: OptimisationPromptBuilder, model: Model, stream: ChatStream)
    ensures LoadPageAsWritten(None) == (None, Err(ImportError(OptimisationPromptName)))
    ensures RunStep(None, None, opens, chatInput, builder, model, stream) == Step([], Ok(()))
  {
  }

  /**
   * `st.session_state`, as far as the page uses it: `messages` is absent until the first run
   * creates it, and is then only appended to.
   */
  class ChatSession {
    var messages: Option<seq<Message>>

    ghost predicate Valid()
      reads this
    {
      messages.Some? ==> IsHistory(messages.value)
    }

    constructor ()
      ensures Valid() && messages == None
    {
      messages := None;
    }

    method Run(upload: Option<seq<Base64.Byte>>, opens: ImageOpens, chatInput: Option<string>,
               builder: OptimisationPromptBuilder, model: Model, stream: ChatStream)
      returns (outcome: Result<()>)
      requires Valid()
      modifies this
      ensures Valid() && messages.Some?
      ensures Step(messages.value, outcome) == RunStep(old(messages), upload, opens, chatInput, builder, model, stream)
      ensures old(messages).Some? ==> old(messages).value <= messages.value
    {
      RunAppendOnly(messages, upload, opens, chatInput, builder, model, stream);
      RunKeepsHistoryShape(messages, upload, opens, chatInput, builder, model, stream);
      if messages.None? {
        messages := Some([]);
      }
      var uploaded := UploadArchDiagram(upload, opens, builder, model);
      if uploaded.Err? {
        return Err(uploaded.error);
      }
      if uploaded.value {
        var replayed;
        outcome, replayed := ShowChat(chatInput, stream);
      } else {
        outcome := Ok(());
      }
    }

    /**
     * `__upload_arch_diagram`: whether a file was uploaded, after displaying it and
     * identifying its services. A file PIL cannot open raises UnidentifiedImageError from
     * `__display_image`, before any model call.
     */
    method UploadArchDiagram(upload: Option<seq<Base64.Byte>>, opens: ImageOpens,
                             builder: OptimisationPromptBuilder, model: Model)
      returns (r: Result<bool>)
      requires Valid() && messages.Some?
      modifies this
      ensures Valid() && messages.Some?
      ensures upload.None? ==> r == Ok(false) && messages == old(messages)
      ensures upload.Some? && !opens(upload.value) ==> r == Err(UnidentifiedImageError) && messages == old(messages)
      ensures upload.Some? && opens(upload.value) ==>
        var step := IdentifyServicesStep(old(messages).value, upload.value, builder, model);
        messages.value == step.history &&
        (step.outcome.Ok? ==> r == Ok(true)) &&
        (step.outcome.Err? ==> r == Err(step.outcome.error))
    {
      if upload.None? {
        return Ok(false);
      }
      if !opens(upload.value) {
        return Err(UnidentifiedImageError);
      }
      var outcome, calls := IdentifyServices(upload.value, builder, model);
      if outcome.Err? {
        return Err(outcome.error);
      }
      r := Ok(true);
    }

    /**
     * `__identify_services`: the identification call, then the optimisation call built from
     * its reply, then the advice appended to the history. `calls` lists the requests made.
     */
    method IdentifyServices(image: seq<Base64.Byte>, builder: OptimisationPromptBuilder, model: Model)
      returns (outcome: Result<()>, calls: seq<Request>)
      requires Valid() && messages.Some?
      modifies this
      ensures Valid() && messages.Some?
      ensures Step(messages.value, outcome) == IdentifyServicesStep(old(messages).value, image, builder, model)
      ensures 1 <= |calls| <= 2 && calls[0] == IdentifyRequest(image, builder)
      ensures model(calls[0]).Err? ==> |calls| == 1
      ensures model(calls[0]).Ok? ==> |calls| == 2 && calls[1] == OptimisationRequest(image, builder, model(calls[0]).value)
    {
      var base64Img := Base64.Encode(image);
      var identifyServicePrompt := builder.identifyServicePrompt(base64Img);
      var first := Request(MessageList(identifyServicePrompt), NoFormat);
      calls := [first];
      var identifyServiceResponse := model(first);
      if identifyServiceResponse.Err? {
        return Err(identifyServiceResponse.error), calls;
      }
      var optimisationPrompt := builder.synthesiseOptimisationPrompt(base64Img, identifyServiceResponse.value);
      var second := Request(MessageList(optimisationPrompt), NoFormat);
      calls := calls + [second];
      var optimisationResponse := model(second);
      if optimisationResponse.Err? {
        return Err(optimisationResponse.error), calls;
      }
      messages := Some(messages.value + [AssistantEntry(optimisationResponse.value)]);
      outcome := Ok(());
    }

    /**
     * `__show_chat`: on a submitted message, append it, replay the whole history to the model
     * (`replayed` is what was sent), and append the reply.
     */
    method ShowChat(chatInput: Option<string>, stream: ChatStream)
      returns (outcome: Result<()>, replayed: Option<seq<Message>>)
      requires Valid() && messages.Some?
      modifies this
      ensures Valid() && messages.Some?
      ensures Step(messages.value, outcome) == ShowChatStep(old(messages).value, chatInput, stream)
      ensures replayed.Some? <==> Submitted(chatInput)
      ensures replayed.Some? ==> replayed.value == old(messages).value + [UserEntry(chatInput.value)]
    {
      if !Submitted(chatInput) {
        return Ok(()), None;
      }
      var prompt := chatInput.value;
      messages := Some(messages.value + [UserEntry(prompt)]);
      var sent := ProjectRoleContent(messages.value);
      replayed := Some(sent);
      var response := stream(sent);
      if response.Err? {
        return Err(response.error), replayed;
      }
      messages := Some(messages.value + [AssistantEntry(response.value)]);
      outcome := Ok(());
    }
  }
}
