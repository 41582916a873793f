/**
 * The prompt builder for cost estimation: the stage-1 "identify services" message sequence,
 * and the stage-2 "cost estimation" sequence built on it and on the stage-1 reply.
 */
module Prompt {
  import opened Errors
  import opened Messages

  const SystemText: string :=
    "You are a solution architect. Your goal is to analyze architecture diagrams and estimate the cost of cloud services. Assume that all resources are created in UK and currency is in British Pound. Your tasks include: \n1. Identifying the cloud services used in the diagram.\n2. Determining the quantity of each service if specified. \n3. Make any sensible assumptions for each services such as compute options, data volume, token estimation, models etc. \n4. Based on the latest pricing information from cloud service providers, provide a cost estimation based on the identified services and quantities, include any assumptions made for each services."

  const IdentifyText: string :=
    "\n                                    Identify the cloud services used in the diagram and determine the quantity of each service if specified.\n                                "

  const CostEstimationText: string :=
    "Based on the cloud services identified, use latest pricing information from cloud service providers, provide a monthly cost estimation based on the identified services and quantities, include any assumptions made for each services. For each service, format the output as '**Assumptions** \n**Pricing Rate**\n**3. Monthly Cost**.' Aggregate the total monthly cost for each services in the end."

  /** The data-URI scheme the image is sent under, whatever format the upload had. */
  const ImageUriPrefix: string := "data:image/jpeg;base64,"

  function ImageDataUri(base64Image: string): (uri: string)
    ensures |uri| == |ImageUriPrefix| + |base64Image|
    ensures uri[..|ImageUriPrefix|] == ImageUriPrefix && uri[|ImageUriPrefix|..] == base64Image
  {
    ImageUriPrefix + base64Image
  }

  /** The payload of an image data URI, or None if the URI does not use the scheme. */
  function ImagePayload(uri: string): Option<string>
  {
    if |ImageUriPrefix| <= |uri| && uri[..|ImageUriPrefix|] == ImageUriPrefix
    then Some(uri[|ImageUriPrefix|..]) else None
  }

  /** The data URI gives back exactly the payload it was built from, and only its URIs do. */
  lemma ImagePayloadOfDataUri(base64Image: string, uri: string)
    ensures ImagePayload(ImageDataUri(base64Image)) == Some(base64Image)
    ensures ImagePayload(uri) == Some(base64Image) <==> uri == ImageDataUri(base64Image)
  {
    if ImagePayload(uri) == Some(base64Image) {
      assert uri == uri[..|ImageUriPrefix|] + uri[|ImageUriPrefix|..];
    }
  }

  /** `__generate_system_prompt`: the fixed, text-only system message. */
  function SystemPrompt(): (m: Message)
    ensures m.role == System && HasNoImage(m)
    ensures m.content.Parts? && m.content.parts == [TextPart(SystemText)]
  {
    TextMessage(System, SystemText)
  }

  /**
   * `generate_identify_service_prompt`: the system message, then a user message whose parts
   * are the instruction text and the image.
   */
  function IdentifyServiceMessages(base64Image: string): (p: seq<Message>)
    ensures |p| == 2 && p[0] == SystemPrompt() && WellFormedPrompt(p)
    ensures p[1].role == User && p[1].content.Parts? && |p[1].content.parts| == 2
    ensures p[1].content.parts[0] == TextPart(IdentifyText)
    ensures p[1].content.parts[1] == ImageUrlPart(ImageDataUri(base64Image))
  {
    [SystemPrompt(), Message(User, Parts([TextPart(IdentifyText), ImageUrlPart(ImageDataUri(base64Image))]))]
  }

  /**
   * `generate_cost_estimation_prompt`: the earlier messages unchanged, then the stage-1 reply
   * verbatim as an assistant message, then the text-only estimation instruction.
   */
  function CostEstimationMessages(prior: seq<Message>, previousResponse: string): (p: seq<Message>)
    ensures |p| == |prior| + 2 && p[..|prior|] == prior
    ensures p[|prior|].role == Assistant && p[|prior|].content == Parts([TextPart(previousResponse)])
    ensures p[|prior| + 1].role == User && p[|prior| + 1].content == Parts([TextPart(CostEstimationText)])
    ensures WellFormedPrompt(prior) ==> WellFormedPrompt(p)
  {
    prior + [TextMessage(Assistant, previousResponse), TextMessage(User, CostEstimationText)]
  }

  /** The image URLs of a message, in order. */
  function PartImageUrls(parts: seq<ContentPart>): seq<string>
  {
    if parts == [] then []
    else (if parts[0].ImageUrlPart? then [parts[0].url] else []) + PartImageUrls(parts[1..])
  }

  function MessageImageUrls(m: Message): seq<string>
  {
    if m.content.Parts? then PartImageUrls(m.content.parts) else []
  }

  /** The image URLs of a message sequence, in order. */
  function ImageUrls(p: seq<Message>): seq<string>
  {
    if p == [] then [] else MessageImageUrls(p[0]) + ImageUrls(p[1..])
  }

  lemma {:induction false} ImageUrlsAppend(a: seq<Message>, b: seq<Message>)
    ensures ImageUrls(a + b) == ImageUrls(a) + ImageUrls(b)
    decreases |a|
  {
    if a == [] {
      assert a + b == b;
    } else {
      assert (a + b)[0] == a[0] && (a + b)[1..] == a[1..] + b;
      ImageUrlsAppend(a[1..], b);
    }
  }

  /** A message that carries no image part contributes no image URL. */
  lemma {:induction false} NoImageNoUrls(parts: seq<ContentPart>)
    requires forall i :: 0 <= i < |parts| ==> parts[i].TextPart?
    ensures PartImageUrls(parts) == []
    decreases |parts|
  {
    if parts != [] {
      NoImageNoUrls(parts[1..]);
    }
  }

  /**
   * The cost-estimation prompt built on the identification prompt sends the diagram exactly
   * once, under the same data URI: neither the stage-1 reply nor the new instruction adds an image.
   */
  lemma CostEstimationSendsOneImage(base64Image: string, previousResponse: string)
    ensures ImageUrls(IdentifyServiceMessages(base64Image)) == [ImageDataUri(base64Image)]
    ensures ImageUrls(CostEstimationMessages(IdentifyServiceMessages(base64Image), previousResponse))
         == [ImageDataUri(base64Image)]
  {
    var id := IdentifyServiceMessages(base64Image);
    var tail := [TextMessage(Assistant, previousResponse), TextMessage(User, CostEstimationText)];
    NoImageNoUrls(SystemPrompt().content.parts);
    var userParts := id[1].content.parts;
    assert PartImageUrls(userParts[1..][1..]) == [];
    assert PartImageUrls(userParts[1..]) == [ImageDataUri(base64Image)];
    assert PartImageUrls(userParts) == [ImageDataUri(base64Image)];
    assert id[1..][1..] == [];
    assert MessageImageUrls(id[0]) == [] && MessageImageUrls(id[1]) == [ImageDataUri(base64Image)];
    assert ImageUrls(id[1..]) == MessageImageUrls(id[1]) + ImageUrls(id[1..][1..]);
    NoImageNoUrls(tail[0].content.parts);
    NoImageNoUrls(tail[1].content.parts);
    assert tail[1..][1..] == [];
    assert ImageUrls(tail) == [];
    ImageUrlsAppend(id, tail);
  }

  /**
   * The builder object. Both generators store what they return; the estimation generator
   * reads the identification prompt that only the identification generator sets.
   */
  class CostEstimationPrompt {
    const base64Image: string
    const systemPrompt: Message
    /** `self.identify_service_prompt`; None until the attribute is first assigned. */
    var identifyServicePrompt: Option<seq<Message>>
    /** `self.cost_estimation_prompt`; None until the attribute is first assigned. */
    var costEstimationPrompt: Option<seq<Message>>

    ghost predicate Valid()
      reads this
    {
      && systemPrompt == SystemPrompt()
      && (identifyServicePrompt.Some? ==> identifyServicePrompt.value == IdentifyServiceMessages(base64Image))
      && (costEstimationPrompt.Some? ==>
            identifyServicePrompt.Some? && |costEstimationPrompt.value| == 4 &&
            costEstimationPrompt.value[..2] == identifyServicePrompt.value)
    }

    constructor (base64Image: string)
      ensures Valid()
      ensures this.base64Image == base64Image && systemPrompt == SystemPrompt()
      ensures identifyServicePrompt == None && costEstimationPrompt == None
    {
      this.base64Image := base64Image;
      systemPrompt := SystemPrompt();
      identifyServicePrompt := None;
      costEstimationPrompt := None;
    }

    method GenerateIdentifyServicePrompt() returns (p: seq<Message>)
      requires Valid()
      modifies this`identifyServicePrompt
      ensures Valid()
      ensures p == IdentifyServiceMessages(base64Image) && identifyServicePrompt == Some(p)
    {
      p := [systemPrompt, Message(User, Parts([TextPart(IdentifyText), ImageUrlPart(ImageDataUri(base64Image))]))];
      identifyServicePrompt := Some(p);
    }

    /**
     * Called before GenerateIdentifyServicePrompt, reading the unset attribute raises
     * AttributeError and nothing is stored.
     */
    method GenerateCostEstimationPrompt(previousResponse: string) returns (r: Result<seq<Message>>)
      requires Valid()
      modifies this`costEstimationPrompt
      ensures Valid()
      ensures identifyServicePrompt.None? ==>
        r == Err(AttributeError("identify_service_prompt")) && costEstimationPrompt == old(costEstimationPrompt)
      ensures identifyServicePrompt.Some? ==>
        r == Ok(CostEstimationMessages(identifyServicePrompt.value, previousResponse)) &&
        costEstimationPrompt == Some(r.value)
    {
      if identifyServicePrompt.None? {
        return Err(AttributeError("identify_service_prompt"));
      }
      var assistantResponse := TextMessage(Assistant, previousResponse);
      var p := identifyServicePrompt.value + [assistantResponse] + [TextMessage(User, CostEstimationText)];
      assert p == CostEstimationMessages(identifyServicePrompt.value, previousResponse);
      costEstimationPrompt := Some(p);
      r := Ok(p);
    }
  }
}
