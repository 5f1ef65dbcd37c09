/** `POST /api/admin/generate-script`: a script for the posted deal. */
module GenerateScriptRoute {
  import opened Wrappers
  import opened Js
  import opened Llm
  import opened Http
  import opened DailyDealTypes
  import opened ShoppingScript

  /** Only the `deal` field of the body is read; a deal is an object, so it is truthy whenever present. */
  datatype ScriptBody = ScriptBody(deal: Option<DailyDeal>)

  const DealRequired := "Deal information is required"

  /**
   * The handler: 400 without a deal, the script in a success envelope, and
   * any failure as 500 carrying the error's own message.
   */
  function PostGenerateScript(incoming: Incoming<ScriptBody>, model: Prompts -> Result<seq<Block>, JsError>)
    : (r: Reply<string>)
    ensures incoming.Malformed? ==> r == Reply(500, Failure(incoming.message))
    ensures incoming.Parsed? && incoming.body.deal.None? ==> r == Reply(400, Failure(DealRequired))
    ensures incoming.Parsed? && incoming.body.deal.Some? ==>
      var script := GenerateShoppingScript(incoming.body.deal.value, model);
      && (script.Ok? ==> r == Reply(200, Success(script.value)))
      && (script.Err? ==> r == Reply(500, Failure(script.error.message)))
  {
    match incoming
    case Malformed(message) => Reply(500, Failure(message))
    case Parsed(body) =>
      match body.deal
      case None => Reply(400, Failure(DealRequired))
      case Some(deal) =>
        match GenerateShoppingScript(deal, model)
        case Ok(script) => Reply(200, Success(script))
        case Err(e) => Reply(500, Failure(e.message))
  }

  /** Unlike the search routes, a model failure reaches the client with its own message. */
  lemma ModelErrorIsExposed(deal: DailyDeal, model: Prompts -> Result<seq<Block>, JsError>)
    requires model(ScriptPrompts(deal)).Err?
    ensures PostGenerateScript(Parsed(ScriptBody(Some(deal))), model)
         == Reply(500, Failure(model(ScriptPrompts(deal)).error.message))
  {
  }

  /** A successful reply carries the model's text blocks joined, unchanged. */
  lemma ScriptIsReplyText(deal: DailyDeal, model: Prompts -> Result<seq<Block>, JsError>)
    requires model(ScriptPrompts(deal)).Ok?
    ensures PostGenerateScript(Parsed(ScriptBody(Some(deal))), model)
         == Reply(200, Success(ReplyText(model(ScriptPrompts(deal)).value)))
  {
  }

  /** Without a deal the model is never asked. */
  lemma MissingDealSkipsModel(m1: Prompts -> Result<seq<Block>, JsError>, m2: Prompts -> Result<seq<Block>, JsError>)
    ensures PostGenerateScript(Parsed(ScriptBody(None)), m1) == PostGenerateScript(Parsed(ScriptBody(None)), m2)
    ensures PostGenerateScript(Parsed(ScriptBody(None)), m1).status == 400
  {
  }
}
