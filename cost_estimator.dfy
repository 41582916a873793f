/**
 * The cost-estimator page: the two-stage pipeline (identify the services in the diagram,
 * then estimate their monthly cost from that reply) and the formatter that turns the
 * parsed JSON reply into rows and a total.
 */
module CostEstimator {
  import opened Errors
  import opened Messages
  import Base64
  import opened ModelClient
  import opened Prompt

  /** A parsed JSON value, as `json.loads` returns it. */
  datatype Json =
    | JNull
    | JBool(b: bool)
    | JNumber(n: real)
    | JString(s: string)
    | JArray(items: seq<Json>)
    | JObject(fields: map<string, Json>)

  /** `json.loads`: the parsed value, or None where the text is not JSON. */
  type JsonLoads = string -> Option<Json>

  /** One row of the data frame: column name to cell. */
  type Record = map<string, Json>

  /** The data frame, as its sequence of rows. */
  type DataFrame = seq<Record>

  const ServicesKey: string := "services"
  const TotalKey: string := "total_estimated_monthly_cost"

  /** `a, b = xs`: the two elements, or the ValueError Python raises for any other length. */
  function Unpack2<T>(xs: seq<T>): (r: Result<(T, T)>)
    ensures r.Ok? <==> |xs| == 2
    ensures r.Ok? ==> r.value.0 == xs[0] && r.value.1 == xs[1]
    ensures r.Err? ==> r.error == ValueError(2, |xs|)
  {
    if |xs| == 2 then Ok((xs[0], xs[1])) else Err(ValueError(2, |xs|))
  }

  /** `pd.DataFrame.from_records` on a list: one row per object, in order. */
  function FromRecords(items: seq<Json>): (r: Option<DataFrame>)
    ensures r.Some? <==> forall i :: 0 <= i < |items| ==> items[i].JObject?
    ensures r.Some? ==> |r.value| == |items|
    ensures r.Some? ==> forall i :: 0 <= i < |items| ==> r.value[i] == items[i].fields
    decreases |items|
  {
    if items == [] then Some([])
    else if !items[0].JObject? then None
    else
      match FromRecords(items[1..])
      case None => None
      case Some(rows) => Some([items[0].fields] + rows)
  }

  /** The rows that `services` holds, when it is a list of objects. */
  predicate IsServiceList(services: Json)
  {
    services.JArray? && forall i :: 0 <= i < |services.items| ==> services.items[i].JObject?
  }

  /**
   * `__format_cost_estimation_response`: parse the reply, look up `services` and then the
   * total, and build one row per service. The total is returned as given, with no check
   * against the rows; every failure propagates.
   */
  function FormatCostEstimationResponse(jsonStr: string, loads: JsonLoads): (r: Result<(DataFrame, Json)>)
    ensures loads(jsonStr).None? ==> r == Err(JsonDecodeError)
    ensures loads(jsonStr).Some? && !loads(jsonStr).value.JObject? ==> r.Err? && r.error.TypeError?
    ensures loads(jsonStr).Some? && loads(jsonStr).value.JObject? ==>
      var fields := loads(jsonStr).value.fields;
      && (ServicesKey !in fields ==> r == Err(KeyError(ServicesKey)))
      && (ServicesKey in fields && TotalKey !in fields ==> r == Err(KeyError(TotalKey)))
      && (ServicesKey in fields && TotalKey in fields && !IsServiceList(fields[ServicesKey]) ==> r == Err(RecordsError))
    ensures r.Ok? <==>
      && loads(jsonStr).Some? && loads(jsonStr).value.JObject?
      && ServicesKey in loads(jsonStr).value.fields && TotalKey in loads(jsonStr).value.fields
      && IsServiceList(loads(jsonStr).value.fields[ServicesKey])
    ensures r.Ok? ==>
      var fields := loads(jsonStr).value.fields;
      var services := fields[ServicesKey].items;
      && r.value.1 == fields[TotalKey]
      && |r.value.0| == |services|
      && forall i :: 0 <= i < |services| ==> r.value.0[i] == services[i].fields
  {
    match loads(jsonStr)
    case None => Err(JsonDecodeError)
    case Some(jsonDict) =>
      if !jsonDict.JObject? then Err(TypeError("the parsed reply is not an object"))
      else if ServicesKey !in jsonDict.fields then Err(KeyError(ServicesKey))
      else
        var servicesDict := jsonDict.fields[ServicesKey];
        if TotalKey !in jsonDict.fields then Err(KeyError(TotalKey))
        else
          var totalEstimatedCost := jsonDict.fields[TotalKey];
          if !servicesDict.JArray? then Err(RecordsError)
          else
            match FromRecords(servicesDict.items)
            case None => Err(RecordsError)
            case Some(df) => Ok((df, totalEstimatedCost))
  }

  /** The reply the estimation stage asks for: the rows under `services`, and the total. */
  function ServicesDocument(rows: DataFrame, total: Json): Json
  {
    JObject(map[ServicesKey := JArray(seq(|rows|, i requires 0 <= i < |rows| => JObject(rows[i]))),
                TotalKey := total])
  }

  /** Formatting a reply in the expected shape gives back its rows, in order, and its total. */
  lemma FormatServicesDocument(jsonStr: string, loads: JsonLoads, rows: DataFrame, total: Json)
    requires loads(jsonStr) == Some(ServicesDocument(rows, total))
    ensures FormatCostEstimationResponse(jsonStr, loads) == Ok((rows, total))
  {
    var items := seq(|rows|, i requires 0 <= i < |rows| => JObject(rows[i]));
    assert ServicesKey != TotalKey;
    assert ServicesDocument(rows, total).fields[ServicesKey] == JArray(items);
    var df := FromRecords(items).value;
    assert df == rows;
  }

  /** The image the user uploaded can be recovered, byte for byte, from the identification prompt. */
  lemma PromptCarriesImage(image: seq<Base64.Byte>)
    ensures var uri := IdentifyServiceMessages(Base64.Encode(image))[1].content.parts[1].url;
      ImagePayload(uri).Some? && Base64.Decode(ImagePayload(uri).value) == Some(image)
  {
    ImagePayloadOfDataUri(Base64.Encode(image), ImageDataUri(Base64.Encode(image)));
    Base64.DecodeEncode(image);
  }

  /**
   * `__estimate_cost` as written. Each generator returns one list, which the caller unpacks
   * into a prompt and a response format: the two-message identification list unpacks into
   * the system message and the user message, which are sent as the messages and as the
   * response format; the four-message estimation list never unpacks into two, so ValueError
   * is raised before the second model call, whatever the model replied.
   */
  method EstimateCostAsWritten(image: seq<Base64.Byte>, model: Model, loads: JsonLoads)
    returns (r: Result<(DataFrame, Json)>, calls: seq<Request>)
    ensures |calls| == 1
    ensures calls[0] == Request(LoneMessage(SystemPrompt()),
                                MessageAsFormat(IdentifyServiceMessages(Base64.Encode(image))[1]))
    ensures model(calls[0]).Err? ==> r == Err(model(calls[0]).error)
    ensures model(calls[0]).Ok? ==> r == Err(ValueError(2, 4))
  {
    var base64Img := Base64.Encode(image);
    var promptGenerator := new CostEstimationPrompt(base64Img);
    var identifyList := promptGenerator.GenerateIdentifyServicePrompt();
    var (identifyServicePrompt, identifyServiceResponseFormat) := Unpack2(identifyList).value;
    var request := Request(LoneMessage(identifyServicePrompt), MessageAsFormat(identifyServiceResponseFormat));
    calls := [request];
    var identifyServiceResponse := model(request);
    if identifyServiceResponse.Err? {
      r := Err(identifyServiceResponse.error);
      return;
    }
    var costList := promptGenerator.GenerateCostEstimationPrompt(identifyServiceResponse.value);
    var unpacked := Unpack2(costList.value);
    r := Err(unpacked.error);
  }

  /**
   * `__estimate_cost` with each list used as the prompt it is: identification with no
   * response format, then estimation built from the identification prompt and its reply,
   * asking for a JSON object, then the formatter on that reply.
   */
  method EstimateCost(image: seq<Base64.Byte>, model: Model, loads: JsonLoads)
    returns (r: Result<(DataFrame, Json)>, calls: seq<Request>)
    ensures 1 <= |calls| <= 2
    ensures calls[0] == Request(MessageList(IdentifyServiceMessages(Base64.Encode(image))), NoFormat)
    ensures model(calls[0]).Err? ==> |calls| == 1 && r == Err(model(calls[0]).error)
    ensures model(calls[0]).Ok? ==> |calls| == 2
    ensures model(calls[0]).Ok? ==>
      calls[1] == Request(MessageList(CostEstimationMessages(calls[0].messages.list, model(calls[0]).value)),
                          JsonObjectFormat)
    ensures |calls| == 2 && model(calls[1]).Err? ==> r == Err(model(calls[1]).error)
    ensures |calls| == 2 && model(calls[1]).Ok? ==> r == FormatCostEstimationResponse(model(calls[1]).value, loads)
    ensures r.Err? && !r.error.RuntimeError? ==> |calls| == 2 && model(calls[1]).Ok?
  {
    var base64Img := Base64.Encode(image);
    var promptGenerator := new CostEstimationPrompt(base64Img);
    var identifyServicePrompt := promptGenerator.GenerateIdentifyServicePrompt();
    var first := Request(MessageList(identifyServicePrompt), NoFormat);
    calls := [first];
    var identifyServiceResponse := model(first);
    if identifyServiceResponse.Err? {
      r := Err(identifyServiceResponse.error);
      return;
    }
    var costEstimationPrompt := promptGenerator.GenerateCostEstimationPrompt(identifyServiceResponse.value);
    var second := Request(MessageList(costEstimationPrompt.value), JsonObjectFormat);
    calls := calls + [second];
    var costEstimationResponse := model(second);
    if costEstimationResponse.Err? {
      r := Err(costEstimationResponse.error);
      return;
    }
    r := FormatCostEstimationResponse(costEstimationResponse.value, loads);
  }
}
