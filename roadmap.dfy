/** The POST /api/generate-roadmap handler as a function from the request body,
    the upstream model and JSON.parse to the HTTP status and JSON body sent. */
module Roadmap {
  import opened Results
  import opened JsValues
  import opened Fences
  import opened Prompt

  /** What the handler writes with `res.status(...).json(...)`. */
  datatype Response = Response(status: nat, body: Json)

  const MissingFieldsError: string := "Missing required fields"
  const MissingFieldsDetails: string := "Career, experience, and goals are required"
  const InvalidFormatError: string := "Invalid response format"
  const InvalidFormatDetails: string := "The AI generated an invalid JSON response"
  const GenerationFailedError: string := "Failed to generate roadmap"

  /** The `{ error, details }` object of every failure response. */
  function ErrorBody(error: string, details: string): Json {
    JObject(map["error" := JString(error), "details" := JString(details)])
  }

  /** The 400 response for an incomplete request. */
  const MissingFieldsResponse: Response := Response(400, ErrorBody(MissingFieldsError, MissingFieldsDetails))

  /** The 500 response for a reply that is not a roadmap. */
  const InvalidFormatResponse: Response := Response(500, ErrorBody(InvalidFormatError, InvalidFormatDetails))

  /** The 500 response of the outer catch, echoing the thrown error's message. */
  function GenerationFailedResponse(message: string): Response {
    Response(500, ErrorBody(GenerationFailedError, message))
  }

  // ---------------------------------------------------------------------------
  // Request gate and prompt

  /** `career`, `experience` and `goals` of the request body are all truthy. */
  predicate HasRequiredFields(body: map<string, Json>) {
    Truthy(Lookup(body, "career")) && Truthy(Lookup(body, "experience")) && Truthy(Lookup(body, "goals"))
  }

  /** Evaluating the prompt template literal on the three field values: each
      is converted with ToString, left to right, and the first conversion that
      throws ends the evaluation. */
  function PromptFrom(career: Json, experience: Json, goals: Json): (r: Result<string, string>)
    ensures r.Err? <==> TemplateText(career).Err? || TemplateText(experience).Err? || TemplateText(goals).Err?
    ensures r.Err? ==> r.error == ToPrimitiveError
    ensures r.Ok? ==> r.value == BuildPrompt(TemplateText(career).value, TemplateText(experience).value, TemplateText(goals).value)
    ensures career.JString? && experience.JString? && goals.JString? ==> r == Ok(BuildPrompt(career.s, experience.s, goals.s))
  {
    match TemplateText(career)
    case Err(e) => Err(e)
    case Ok(c) =>
      match TemplateText(experience)
      case Err(e) => Err(e)
      case Ok(x) =>
        match TemplateText(goals)
        case Err(e) => Err(e)
        case Ok(g) => Ok(BuildPrompt(c, x, g))
  }

  /** The prompt the handler builds from a request that passed the gate. */
  function RequestPrompt(body: map<string, Json>): Result<string, string>
    requires HasRequiredFields(body)
  {
    PromptFrom(body["career"], body["experience"], body["goals"])
  }

  // ---------------------------------------------------------------------------
  // Reply validation

  /** Why a model reply was refused; all three land in the same catch. */
  datatype ReplyError =
    | Unparseable               // JSON.parse threw
    | NullRead(message: string) // the reply parsed to null and reading `title` threw
    | MissingRequiredFields     // the explicit throw of the shape check

  /** The accepted shape: an object whose `title` and `description` are truthy
      and whose `steps` is an array. The elements of `steps` are not examined. */
  predicate HasRoadmapShape(v: Json) {
    && v.JObject?
    && Truthy(Lookup(v.fields, "title"))
    && Truthy(Lookup(v.fields, "description"))
    && "steps" in v.fields && v.fields["steps"].JArray?
  }

  /** The handler's shape test on the parsed reply: `title` falsy, else
      `description` falsy, else `steps` not an array throws; each property is
      read in that order with JavaScript semantics, so null throws at the
      first read. */
  function CheckShape(v: Json): (r: Result<Json, ReplyError>)
    ensures r.Ok? <==> HasRoadmapShape(v)
    ensures r.Ok? ==> r.value == v
    ensures r.Err? ==> (r.error.NullRead? <==> v.JNull?)
    ensures r.Err? && r.error.NullRead? ==> r.error.message == NullReadError("title")
  {
    match ReadProperty(v, "title")
    case Err(e) => Err(NullRead(e))
    case Ok(title) =>
      if !Truthy(title) then Err(MissingRequiredFields)
      else
        match ReadProperty(v, "description")
        case Err(e) => Err(NullRead(e))
        case Ok(description) =>
          if !Truthy(description) then Err(MissingRequiredFields)
          else
            match ReadProperty(v, "steps")
            case Err(e) => Err(NullRead(e))
            case Ok(steps) =>
              if !(steps.Some? && steps.value.JArray?) then Err(MissingRequiredFields)
              else Ok(v)
  }

  /** The inner try block: strip the fences, parse, check the shape. */
  function InterpretReply(text: string, parse: string -> Option<Json>): (r: Result<Json, ReplyError>)
    ensures var parsed := parse(StripFences(text));
      && (r.Ok? <==> parsed.Some? && HasRoadmapShape(parsed.value))
      && (r.Ok? ==> r.value == parsed.value)
      && (r == Err(Unparseable) <==> parsed.None?)
  {
    match parse(StripFences(text))
    case None => Err(Unparseable)
    case Some(v) => CheckShape(v)
  }

  // ---------------------------------------------------------------------------
  // The handler

  /** The whole handler. `generate` stands for the upstream model call
      (generateContent followed by reading the response text), with `Err`
      for any error it throws; `parse` stands for JSON.parse, with `None` for
      a SyntaxError. */
  function GenerateRoadmap(body: map<string, Json>, generate: string -> Result<string, string>,
                           parse: string -> Option<Json>): (r: Response)
    ensures r.status == 200 || r.status == 400 || r.status == 500
    ensures r.status == 400 <==> !HasRequiredFields(body)
  {
    if !HasRequiredFields(body) then
      MissingFieldsResponse
    else
      match RequestPrompt(body)
      case Err(message) => GenerationFailedResponse(message)
      case Ok(prompt) =>
        match generate(prompt)
        case Err(message) => GenerationFailedResponse(message)
        case Ok(text) =>
          match InterpretReply(text, parse)
          case Ok(roadmap) => Response(200, roadmap)
          case Err(_) => InvalidFormatResponse
  }

  // ---------------------------------------------------------------------------
  // Properties of the handler

  /** An incomplete request gets the fixed 400 response, whatever the model
      and the parser would have done. */
  lemma IncompleteRequestRejected(body: map<string, Json>, generate: string -> Result<string, string>,
                                  parse: string -> Option<Json>)
    requires !HasRequiredFields(body)
    ensures GenerateRoadmap(body, generate, parse) == MissingFieldsResponse
  {
  }

  /** On an incomplete request the model is never consulted: the response is
      the same for every model and every parser. */
  lemma IncompleteRequestIgnoresModel(body: map<string, Json>,
                                      generate1: string -> Result<string, string>, parse1: string -> Option<Json>,
                                      generate2: string -> Result<string, string>, parse2: string -> Option<Json>)
    requires !HasRequiredFields(body)
    ensures GenerateRoadmap(body, generate1, parse1) == GenerateRoadmap(body, generate2, parse2)
  {
    IncompleteRequestRejected(body, generate1, parse1);
    IncompleteRequestRejected(body, generate2, parse2);
  }

  /** The model is asked exactly the built prompt: two models that answer that
      prompt alike lead to the same response, and when building the prompt
      throws, the model plays no part at all. */
  lemma ModelSeesOnlyPrompt(body: map<string, Json>, generate1: string -> Result<string, string>,
                            generate2: string -> Result<string, string>, parse: string -> Option<Json>)
    requires HasRequiredFields(body)
    requires RequestPrompt(body).Ok? ==> generate1(RequestPrompt(body).value) == generate2(RequestPrompt(body).value)
    ensures GenerateRoadmap(body, generate1, parse) == GenerateRoadmap(body, generate2, parse)
  {
  }

  /** When the template literal throws for any of the three fields, the
      handler ends in the outer catch with the ToPrimitive TypeError before
      the model is consulted: the converse of `OuterCatchOnlyBeforeReply`. */
  lemma PromptFailureReported(body: map<string, Json>, generate: string -> Result<string, string>,
                              parse: string -> Option<Json>)
    requires HasRequiredFields(body) && RequestPrompt(body).Err?
    ensures RequestPrompt(body).error == ToPrimitiveError
    ensures GenerateRoadmap(body, generate, parse) == GenerationFailedResponse(ToPrimitiveError)
  {
  }

  /** A field value whose ToString throws (an object with an own `toString`
      property) ends in the outer catch before the model is consulted. */
  lemma UnconvertibleFieldFails(body: map<string, Json>, generate: string -> Result<string, string>,
                                parse: string -> Option<Json>)
    requires HasRequiredFields(body)
    requires body["career"].JObject? && "toString" in body["career"].fields
    ensures GenerateRoadmap(body, generate, parse) == GenerationFailedResponse(ToPrimitiveError)
  {
    PromptFailureReported(body, generate, parse);
  }

  /** Once the model has replied, the response is 200 with the parsed value
      exactly when the stripped reply parses to a roadmap-shaped value, and
      otherwise the fixed "Invalid response format" response, which does not
      depend on the reply text. */
  lemma ReplyOutcome(body: map<string, Json>, generate: string -> Result<string, string>,
                     parse: string -> Option<Json>, text: string)
    requires HasRequiredFields(body)
    requires RequestPrompt(body).Ok? && generate(RequestPrompt(body).value) == Ok(text)
    ensures var r := GenerateRoadmap(body, generate, parse);
      var parsed := parse(StripFences(text));
      && (r.status == 200 <==> parsed.Some? && HasRoadmapShape(parsed.value))
      && (r.status == 200 ==> r.body == parsed.value)
      && (r.status != 200 ==> r == InvalidFormatResponse)
  {
  }

  /** A 200 response happens only when the model replied and the stripped
      reply parsed to a roadmap-shaped value, and its body is that value,
      extra fields included. */
  lemma SuccessMeansValidReply(body: map<string, Json>, generate: string -> Result<string, string>,
                               parse: string -> Option<Json>)
    ensures var r := GenerateRoadmap(body, generate, parse);
      r.status == 200 ==>
        && HasRequiredFields(body) && RequestPrompt(body).Ok?
        && var reply := generate(RequestPrompt(body).value);
        && reply.Ok?
        && parse(StripFences(reply.value)).Some?
        && HasRoadmapShape(parse(StripFences(reply.value)).value)
        && r.body == parse(StripFences(reply.value)).value
  {
  }

  /** An upstream failure is reported as "Failed to generate roadmap" with its
      own message, never as "Invalid response format". */
  lemma UpstreamFailureReported(body: map<string, Json>, generate: string -> Result<string, string>,
                                parse: string -> Option<Json>, message: string)
    requires HasRequiredFields(body)
    requires RequestPrompt(body).Ok? && generate(RequestPrompt(body).value) == Err(message)
    ensures GenerateRoadmap(body, generate, parse) == GenerationFailedResponse(message)
    ensures GenerateRoadmap(body, generate, parse) != InvalidFormatResponse
  {
    assert ErrorBody(GenerationFailedError, message).fields["error"] != ErrorBody(InvalidFormatError, InvalidFormatDetails).fields["error"];
  }

  /** Parse and shape errors never reach the outer catch: a "Failed to
      generate roadmap" response means the prompt or the model call threw. */
  lemma OuterCatchOnlyBeforeReply(body: map<string, Json>, generate: string -> Result<string, string>,
                                  parse: string -> Option<Json>, message: string)
    requires GenerateRoadmap(body, generate, parse) == GenerationFailedResponse(message)
    ensures HasRequiredFields(body)
    ensures RequestPrompt(body) == Err(message)
         || (RequestPrompt(body).Ok? && generate(RequestPrompt(body).value) == Err(message))
  {
    var r := GenerateRoadmap(body, generate, parse);
    assert r.body.fields["error"] == JString(GenerationFailedError);
    assert r.body.fields["details"] == JString(message);
    assert HasRequiredFields(body);
    var prompt := RequestPrompt(body);
    if prompt.Ok? && generate(prompt.value).Ok? {
      assert false;
    }
  }

  /** Every response is one of the four outcomes. */
  lemma FourOutcomes(body: map<string, Json>, generate: string -> Result<string, string>,
                     parse: string -> Option<Json>)
    ensures var r := GenerateRoadmap(body, generate, parse);
      || r == MissingFieldsResponse
      || r == InvalidFormatResponse
      || (exists message :: r == GenerationFailedResponse(message))
      || (r.status == 200 && HasRoadmapShape(r.body))
  {
  }

  /** The shape check never looks inside `steps`: replacing the steps of an
      accepted value by any other array keeps it accepted. */
  lemma StepsNotInspected(fields: map<string, Json>, steps: seq<Json>)
    requires HasRoadmapShape(JObject(fields))
    ensures HasRoadmapShape(JObject(fields["steps" := JArray(steps)]))
  {
  }

  /** A reply that parses to `null` is refused at the first property read. */
  lemma NullReplyRefused(text: string, parse: string -> Option<Json>)
    requires parse(StripFences(text)) == Some(JNull)
    ensures InterpretReply(text, parse) == Err(NullRead(NullReadError("title")))
  {
  }

  /** A reply holding only a title, whatever its value, is refused as a shape
      failure. */
  lemma TitleOnlyRefused(text: string, title: Json, parse: string -> Option<Json>)
    requires parse(StripFences(text)) == Some(JObject(map["title" := title]))
    ensures InterpretReply(text, parse) == Err(MissingRequiredFields)
  {
  }

  /** A roadmap in a ```json block: the fences and the opening line feed are
      stripped, the payload is parsed with one trailing line feed, and an
      accepted value is sent back with status 200. */
  lemma FencedReplyAccepted(body: map<string, Json>, generate: string -> Result<string, string>,
                            parse: string -> Option<Json>, payload: string, v: Json)
    requires HasRequiredFields(body)
    requires RequestPrompt(body).Ok?
    requires generate(RequestPrompt(body).value) == Ok(JsonOpening + payload + ClosingLine)
    requires !Occurs(Fence, payload)
    requires parse(payload + "\n") == Some(v) && HasRoadmapShape(v)
    ensures GenerateRoadmap(body, generate, parse) == Response(200, v)
  {
    StripJsonBlock(payload);
  }
}
