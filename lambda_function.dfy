/** The translation Lambda: the request validator `validate_input` and the
    branching of `lambda_handler`, with the AWS Translate call, `json.loads`
    and the clock passed in as parameters. Responses are structured records;
    their bodies are the dictionaries the source hands to `json.dumps`. */
module LambdaFunction {
  import opened Python

  /** An API Gateway proxy response: status code, the optional `headers`
      entry and the body dictionary before serialisation. */
  datatype Response = Response(statusCode: int, headers: Option<map<string, string>>, body: map<string, Value>)

  /** The arguments handed to `translate.translate_text`. */
  datatype TranslateArgs = TranslateArgs(text: string, sourceLanguageCode: Value, targetLanguageCode: Value)

  /** What the Translate call ends in: a reply carrying the three fields the
      handler copies, one of the two exceptions it catches by name (with
      `str(e)`), or any other exception. */
  datatype TranslateOutcome =
    | Translated(translatedText: string, sourceLanguageCode: string, targetLanguageCode: string)
    | UnsupportedLanguagePair(message: string)
    | InvalidRequest(message: string)
    | OtherError

  /** The Lambda context object; the handler only reads its request id. */
  datatype Context = Context(awsRequestId: string)

  const RequiredFields: seq<string> := ["text", "target_language"]

  const EmptyBodyMessage: string := "Request body is empty"
  const BlankTextMessage: string := "Text field must be a non-empty string"
  const InvalidJsonMessage: string := "Invalid JSON in request body"
  const UnsupportedPairMessage: string := "Unsupported language pair"
  const InternalErrorMessage: string := "Internal server error"

  function MissingFieldMessage(field: string): (message: string)
  {
    "Missing required field: " + field
  }

  /** The headers of the success response; no other response has headers. */
  const SuccessHeaders: map<string, string> :=
    map["Content-Type" := "application/json", "Access-Control-Allow-Origin" := "*"]

  /** A 400 response without headers whose body holds only `error`. */
  function Rejection(message: string): (r: Response)
  {
    Response(400, None, map["error" := Str(message)])
  }

  /** A bare 400: no headers, and a body holding only a string `error`. */
  predicate IsRejection(r: Response)
  {
    r.statusCode == 400 && r.headers == None && r.body.Keys == {"error"} && r.body["error"].Str?
  }

  /** What `validate_input` accepts: a dict holding `text` and
      `target_language` whose `text` is a string with a non-whitespace
      character. Nothing else is asked of the body. */
  predicate Acceptable(body: Value)
  {
    && body.Dict?
    && "text" in body.entries
    && "target_language" in body.entries
    && body.entries["text"].Str?
    && HasContent(body.entries["text"].s)
  }

  /** The `for field in required_fields` loop: the index of the first field
      that is `not in body`, None when every field is, or the TypeError
      that `in` raises on a body that is not a container. */
  function FirstMissingField(fields: seq<string>, body: Value): (r: Try<Option<nat>>)
    ensures r.Returns? && r.value.Some? ==>
              && r.value.value < |fields|
              && Contains(fields[r.value.value], body) == Returns(false)
              && forall i | 0 <= i < r.value.value :: Contains(fields[i], body) == Returns(true)
    ensures r == Returns(None) <==> forall i | 0 <= i < |fields| :: Contains(fields[i], body) == Returns(true)
    ensures r.Raises? ==> |fields| > 0 && Contains(fields[0], body) == Raises(TypeError)
  {
    if fields == [] then Returns(None)
    else
      match Contains(fields[0], body)
      case Raises(e) => Raises(e)
      case Returns(present) =>
        if !present then Returns(Some(0))
        else
          match FirstMissingField(fields[1..], body)
          case Returns(Some(k)) => Returns(Some(k + 1))
          case other => other
  }

  /** `validate_input(body)`: the pair `(is_valid, error_response)`, or the
      TypeError it raises on a truthy body that is not a dict. */
  function ValidateInput(body: Value): (r: Try<(bool, Option<Response>)>)
    // the verdict is valid exactly when there is no error response, and every error is a bare 400
    ensures r.Returns? ==> (r.value.0 <==> r.value.1 == None)
    ensures r.Returns? && r.value.1.Some? ==> IsRejection(r.value.1.value)
    // valid exactly on the acceptable bodies
    ensures r == Returns((true, None)) <==> Acceptable(body)
    // only a truthy non-dict body makes it raise, and then a TypeError
    ensures r.Raises? ==> Truthy(body) && !body.Dict? && r.error == TypeError
    // the checks run in order: empty body, text, target_language, text's content
    ensures !Truthy(body) ==> r == Returns((false, Some(Rejection(EmptyBodyMessage))))
    ensures Truthy(body) && body.Dict? && "text" !in body.entries ==>
              r == Returns((false, Some(Rejection(MissingFieldMessage("text")))))
    ensures Truthy(body) && body.Dict? && "text" in body.entries && "target_language" !in body.entries ==>
              r == Returns((false, Some(Rejection(MissingFieldMessage("target_language")))))
    ensures body.Dict? && "text" in body.entries && "target_language" in body.entries && !Acceptable(body) ==>
              r == Returns((false, Some(Rejection(BlankTextMessage))))
  {
    if !Truthy(body) then Returns((false, Some(Rejection(EmptyBodyMessage))))
    else
      assert RequiredFields[0] == "text" && RequiredFields[1] == "target_language";
      match FirstMissingField(RequiredFields, body)
      case Raises(e) => Raises(e)
      case Returns(Some(k)) => Returns((false, Some(Rejection(MissingFieldMessage(RequiredFields[k])))))
      case Returns(None) =>
        match GetItem(body, "text")
        case Raises(e) => Raises(e)
        case Returns(text) =>
          if !text.Str? || Strip(text.s) == [] then Returns((false, Some(Rejection(BlankTextMessage))))
          else Returns((true, None))
  }

  /** `event['body']`, decoded with `json.loads` when it is a str. */
  function LoadBody(event: map<string, Value>, loads: string -> Option<Value>): (r: Try<Value>)
    ensures "body" !in event ==> r == Raises(KeyError)
    ensures "body" in event && event["body"].Str? ==>
              r == if loads(event["body"].s).Some? then Returns(loads(event["body"].s).value) else Raises(JsonDecodeError)
    ensures "body" in event && !event["body"].Str? ==> r == Returns(event["body"])
  {
    match GetItem(Dict(event), "body")
    case Raises(e) => Raises(e)
    case Returns(raw) =>
      if raw.Str? then
        match loads(raw.s)
        case Some(body) => Returns(body)
        case None => Raises(JsonDecodeError)
      else Returns(raw)
  }

  /** The catch-all branch: 500, echoing the context's request id, or JSON
      null without a context. */
  function InternalError(context: Option<Context>): (r: Response)
  {
    Response(500, None, map[
      "error" := Str(InternalErrorMessage),
      "request_id" := if context.Some? then Str(context.value.awsRequestId) else Null])
  }

  /** The response for what the Translate call ended in: the success
      response, or the `except` clause that catches its exception. */
  function TranslationResponse(outcome: TranslateOutcome, context: Option<Context>, timestamp: string): (r: Response)
    ensures r.statusCode == 200 <==> outcome.Translated?
    ensures r.headers.Some? <==> outcome.Translated?
    ensures r.statusCode == 400 <==> outcome.UnsupportedLanguagePair? || outcome.InvalidRequest?
    ensures r.statusCode == 500 <==> outcome.OtherError?
    ensures r.statusCode == 500 ==> r == InternalError(context)
    ensures r.statusCode == 200 ==>
              && r.headers == Some(SuccessHeaders)
              && r.body.Keys == {"translated_text", "detected_source_language", "target_language", "timestamp"}
              && r.body["timestamp"] == Str(timestamp)
    ensures r.statusCode != 200 ==> "error" in r.body && r.body["error"].Str?
  {
    match outcome
    case Translated(translated, source, target) =>
      Response(200, Some(SuccessHeaders), map[
        "translated_text" := Str(translated),
        "detected_source_language" := Str(source),
        "target_language" := Str(target),
        "timestamp" := Str(timestamp)])
    case UnsupportedLanguagePair(message) =>
      Response(400, None, map["error" := Str(UnsupportedPairMessage), "detail" := Str(message)])
    case InvalidRequest(message) => Rejection(message)
    case OtherError => InternalError(context)
  }

  /** `lambda_handler(event, context)`. `loads` stands for `json.loads`
      (None: JSONDecodeError), `translateText` for the AWS Translate call and
      `timestamp` for `datetime.utcnow().isoformat()` at line 90. */
  function LambdaHandler(
    event: map<string, Value>,
    context: Option<Context>,
    loads: string -> Option<Value>,
    translateText: TranslateArgs -> TranslateOutcome,
    timestamp: string): (r: Response)
    ensures r.statusCode == 200 || r.statusCode == 400 || r.statusCode == 500
    // only the success response has headers, and it has exactly the JSON/CORS pair
    ensures r.headers.Some? <==> r.statusCode == 200
    ensures r.statusCode == 200 ==>
              && r.headers == Some(SuccessHeaders)
              && r.body.Keys == {"translated_text", "detected_source_language", "target_language", "timestamp"}
              && r.body["timestamp"] == Str(timestamp)
    // every other response names an error
    ensures r.statusCode != 200 ==> "error" in r.body && r.body["error"].Str?
    // a 500 never says more than the generic message and the request id
    ensures r.statusCode == 500 ==> r == InternalError(context)
  {
    match LoadBody(event, loads)
    case Raises(JsonDecodeError) => Rejection(InvalidJsonMessage)
    case Raises(_) => InternalError(context)
    case Returns(body) =>
      match ValidateInput(body)
      case Raises(_) => InternalError(context)
      case Returns(verdict) =>
        if !verdict.0 then verdict.1.value
        else
          var args := TranslateArgs(
            body.entries["text"].s,
            DictGet(body.entries, "source_language", Str("auto")),
            body.entries["target_language"]);
          TranslationResponse(translateText(args), context, timestamp)
  }

  // ---------------------------------------------------------------------
  // Properties of the validator

  /** A dict missing both required fields is reported as missing `text`. */
  lemma BothMissingReportsText(entries: map<string, Value>)
    requires entries != map[]
    requires "text" !in entries && "target_language" !in entries
    ensures ValidateInput(Dict(entries)) == Returns((false, Some(Rejection("Missing required field: text"))))
  {
    assert MissingFieldMessage("text") == "Missing required field: text";
  }

  /** The value of `target_language` is never inspected: replacing it by any
      other value leaves the verdict unchanged. */
  lemma TargetLanguageUnchecked(entries: map<string, Value>, v: Value, w: Value)
    ensures ValidateInput(Dict(entries["target_language" := v]))
         == ValidateInput(Dict(entries["target_language" := w]))
  {
    var a, b := entries["target_language" := v], entries["target_language" := w];
    assert a.Keys == b.Keys;
    assert "text" in a ==> a["text"] == b["text"];
  }

  /** Fields other than the two required ones (`source_language` among them)
      do not affect the verdict on a non-empty dict. */
  lemma OtherFieldsIgnored(entries: map<string, Value>, key: string, v: Value)
    requires entries != map[]
    requires key !in RequiredFields
    ensures ValidateInput(Dict(entries[key := v])) == ValidateInput(Dict(entries))
  {
    var a := entries[key := v];
    assert a != map[] by { assert key in a; }
    assert "text" in a <==> "text" in entries;
    assert "target_language" in a <==> "target_language" in entries;
    assert "text" in entries ==> a["text"] == entries["text"];
  }

  /** A truthy non-dict body: a list or a str reports the first required
      field it does not contain, and raises once it contains both; a number
      or `True` always raises. */
  lemma NonDictBodies(body: Value)
    requires Truthy(body) && !body.Dict?
    ensures (body.List? || body.Str?) && Contains("text", body) == Returns(false) ==>
              ValidateInput(body) == Returns((false, Some(Rejection(MissingFieldMessage("text")))))
    ensures (body.List? || body.Str?) && Contains("text", body) == Returns(true)
              && Contains("target_language", body) == Returns(false) ==>
              ValidateInput(body) == Returns((false, Some(Rejection(MissingFieldMessage("target_language")))))
    ensures (body.List? || body.Str?) && Contains("text", body) == Returns(true)
              && Contains("target_language", body) == Returns(true) ==>
              ValidateInput(body) == Raises(TypeError)
    ensures body.Number? || body.Bool? ==> ValidateInput(body) == Raises(TypeError)
  {
    assert RequiredFields[0] == "text" && RequiredFields[1] == "target_language";
  }

  // ---------------------------------------------------------------------
  // Properties of the handler

  /** An unparsable string body gets the invalid-JSON 400, whatever the
      provider would have answered. */
  lemma InvalidJsonRejected(
    event: map<string, Value>, context: Option<Context>, loads: string -> Option<Value>,
    translateText: TranslateArgs -> TranslateOutcome, timestamp: string)
    requires "body" in event && event["body"].Str? && loads(event["body"].s) == None
    ensures LambdaHandler(event, context, loads, translateText, timestamp)
         == Response(400, None, map["error" := Str("Invalid JSON in request body")])
  {
  }

  /** The failures before the Translate call that no `except` clause names,
      a `KeyError` for an event without `body` and the `TypeError` that
      `validate_input` raises, end in the generic 500. */
  lemma PreCallFailuresAre500(
    event: map<string, Value>, context: Option<Context>, loads: string -> Option<Value>,
    translateText: TranslateArgs -> TranslateOutcome, timestamp: string)
    requires "body" !in event || (LoadBody(event, loads).Returns? && ValidateInput(LoadBody(event, loads).value).Raises?)
    ensures LambdaHandler(event, context, loads, translateText, timestamp) == InternalError(context)
  {
  }

  /** A list body that holds both field names passes the field checks and
      then fails on `body['text']`: the handler answers 500. */
  lemma ListBodyIs500(
    context: Option<Context>, loads: string -> Option<Value>,
    translateText: TranslateArgs -> TranslateOutcome, timestamp: string)
    ensures LambdaHandler(map["body" := List([Str("text"), Str("target_language")])], context, loads, translateText, timestamp)
         == InternalError(context)
  {
    var body := List([Str("text"), Str("target_language")]);
    NonDictBodies(body);
    PreCallFailuresAre500(map["body" := body], context, loads, translateText, timestamp);
  }

  /** A rejected body gets the validator's error response unchanged; the
      provider is not consulted, so every provider yields the same response. */
  lemma InvalidBodyShortCircuits(
    event: map<string, Value>, context: Option<Context>, loads: string -> Option<Value>,
    translateText: TranslateArgs -> TranslateOutcome, timestamp: string,
    body: Value, error: Response)
    requires LoadBody(event, loads) == Returns(body)
    requires ValidateInput(body) == Returns((false, Some(error)))
    ensures LambdaHandler(event, context, loads, translateText, timestamp) == error
    ensures IsRejection(error)
  {
  }

  /** An acceptable body reaches the provider with its `text`, its
      `target_language` as given, and its `source_language` or `'auto'`. */
  lemma AcceptedBodyCallsProvider(
    event: map<string, Value>, context: Option<Context>, loads: string -> Option<Value>,
    translateText: TranslateArgs -> TranslateOutcome, timestamp: string,
    entries: map<string, Value>)
    requires LoadBody(event, loads) == Returns(Dict(entries))
    requires Acceptable(Dict(entries))
    ensures var source := if "source_language" in entries then entries["source_language"] else Str("auto");
            var args := TranslateArgs(entries["text"].s, source, entries["target_language"]);
            LambdaHandler(event, context, loads, translateText, timestamp)
            == TranslationResponse(translateText(args), context, timestamp)
  {
  }

  /** How each provider outcome is reported: success copies the provider's
      three fields under 200 with the JSON/CORS headers; the two named
      exceptions become 400s carrying the message; anything else is a 500
      with the request id. */
  lemma OutcomeMapping(outcome: TranslateOutcome, context: Option<Context>, timestamp: string)
    ensures var r := TranslationResponse(outcome, context, timestamp);
            && (outcome.Translated? ==>
                  && r.statusCode == 200 && r.headers == Some(SuccessHeaders)
                  && r.body["translated_text"] == Str(outcome.translatedText)
                  && r.body["detected_source_language"] == Str(outcome.sourceLanguageCode)
                  && r.body["target_language"] == Str(outcome.targetLanguageCode))
            && (outcome.UnsupportedLanguagePair? ==>
                  r == Response(400, None, map["error" := Str("Unsupported language pair"),
                                               "detail" := Str(outcome.message)]))
            && (outcome.InvalidRequest? ==> r == Response(400, None, map["error" := Str(outcome.message)]))
            && (outcome.OtherError? ==>
                  && r.statusCode == 500 && r.headers == None
                  && r.body["error"] == Str("Internal server error")
                  && r.body["request_id"] == (if context.Some? then Str(context.value.awsRequestId) else Null))
  {
  }

  /** The handler answers 200 exactly when the body loads, is acceptable and
      the provider call succeeds. */
  lemma SuccessIff(
    event: map<string, Value>, context: Option<Context>, loads: string -> Option<Value>,
    translateText: TranslateArgs -> TranslateOutcome, timestamp: string)
    ensures LambdaHandler(event, context, loads, translateText, timestamp).statusCode == 200
        <==> && LoadBody(event, loads).Returns?
             && Acceptable(LoadBody(event, loads).value)
             && var entries := LoadBody(event, loads).value.entries;
                translateText(TranslateArgs(
                  entries["text"].s,
                  if "source_language" in entries then entries["source_language"] else Str("auto"),
                  entries["target_language"])).Translated?
  {
  }
}
