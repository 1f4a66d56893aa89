/** The scenarios of the repository's handler tests, stated as lemmas over
    the model: each fixes the event, the decoded body and the provider's
    behaviour, and states what the handler answers. */
module LambdaFunctionScenarios {
  import opened Python
  import opened LambdaFunction

  /** `{"text": "Hello world!", "target_language": "es"}` */
  const ValidBody: Value := Dict(map["text" := Str("Hello world!"), "target_language" := Str("es")])

  lemma ValidBodyAcceptable()
    ensures Acceptable(ValidBody)
  {
    assert !IsSpace(ValidBody.entries["text"].s[0]);
  }

  /** A request carrying `ValidBody` reaches the provider with its text,
      `'auto'` as source language and `es` as target. */
  lemma ValidBodyReachesProvider(raw: string, context: Option<Context>, loads: string -> Option<Value>, translateText: TranslateArgs -> TranslateOutcome, timestamp: string)
    requires loads(raw) == Some(ValidBody)
    ensures LambdaHandler(map["body" := Str(raw)], context, loads, translateText, timestamp)
         == TranslationResponse(translateText(TranslateArgs("Hello world!", Str("auto"), Str("es"))), context, timestamp)
  {
    ValidBodyAcceptable();
    var event := map["body" := Str(raw)];
    assert LoadBody(event, loads) == Returns(ValidBody);
    assert "source_language" !in ValidBody.entries;
    AcceptedBodyCallsProvider(event, context, loads, translateText, timestamp, ValidBody.entries);
  }

  /** A provider answering like the mocked client. */
  lemma SuccessfulTranslation(raw: string, loads: string -> Option<Value>, translateText: TranslateArgs -> TranslateOutcome, timestamp: string)
    requires loads(raw) == Some(ValidBody)
    requires translateText(TranslateArgs("Hello world!", Str("auto"), Str("es"))) == Translated("¡Hola mundo!", "en", "es")
    ensures LambdaHandler(map["body" := Str(raw)], None, loads, translateText, timestamp)
         == Response(200, Some(SuccessHeaders), map[
              "translated_text" := Str("¡Hola mundo!"),
              "detected_source_language" := Str("en"),
              "target_language" := Str("es"),
              "timestamp" := Str(timestamp)])
  {
    ValidBodyReachesProvider(raw, None, loads, translateText, timestamp);
  }

  /** A body without `target_language` is a 400 naming that field. */
  lemma MissingRequiredField(raw: string, loads: string -> Option<Value>, translateText: TranslateArgs -> TranslateOutcome, timestamp: string)
    requires loads(raw) == Some(Dict(map["text" := Str("Hello world!")]))
    ensures LambdaHandler(map["body" := Str(raw)], None, loads, translateText, timestamp)
         == Response(400, None, map["error" := Str("Missing required field: " + "target_language")])
  {
    var event := map["body" := Str(raw)];
    var body := Dict(map["text" := Str("Hello world!")]);
    assert LoadBody(event, loads) == Returns(body);
    assert "text" in body.entries && "target_language" !in body.entries;
    assert Truthy(body);
    var error := Rejection(MissingFieldMessage("target_language"));
    assert ValidateInput(body) == Returns((false, Some(error)));
    InvalidBodyShortCircuits(event, None, loads, translateText, timestamp, body, error);
  }

  /** An empty `text` is a 400 about the text field. */
  lemma EmptyText(raw: string, loads: string -> Option<Value>, translateText: TranslateArgs -> TranslateOutcome, timestamp: string)
    requires loads(raw) == Some(Dict(map["text" := Str(""), "target_language" := Str("es")]))
    ensures LambdaHandler(map["body" := Str(raw)], None, loads, translateText, timestamp)
         == Response(400, None, map["error" := Str("Text field must be a non-empty string")])
  {
    var event := map["body" := Str(raw)];
    var body := Dict(map["text" := Str(""), "target_language" := Str("es")]);
    assert LoadBody(event, loads) == Returns(body);
    assert "text" in body.entries && "target_language" in body.entries && !Acceptable(body);
    InvalidBodyShortCircuits(event, None, loads, translateText, timestamp, body, Rejection(BlankTextMessage));
  }

  /** A provider failure with no name of its own is a 500 echoing the request id. */
  lemma TranslateServiceError(raw: string, loads: string -> Option<Value>, translateText: TranslateArgs -> TranslateOutcome, timestamp: string)
    requires loads(raw) == Some(ValidBody)
    requires translateText(TranslateArgs("Hello world!", Str("auto"), Str("es"))) == OtherError
    ensures LambdaHandler(map["body" := Str(raw)], Some(Context("test-request-id")), loads, translateText, timestamp)
         == Response(500, None, map["error" := Str("Internal server error"), "request_id" := Str("test-request-id")])
  {
    var context := Some(Context("test-request-id"));
    ValidBodyReachesProvider(raw, context, loads, translateText, timestamp);
    var args := TranslateArgs("Hello world!", Str("auto"), Str("es"));
    assert translateText(args) == OtherError;
    assert TranslationResponse(OtherError, context, timestamp) == InternalError(context);
    assert InternalError(context) == Response(500, None, map["error" := Str("Internal server error"), "request_id" := Str("test-request-id")]);
  }

  /** An unsupported language pair is a 400 labelled as such, with the
      provider's message as detail. */
  lemma UnsupportedPair(raw: string, message: string, loads: string -> Option<Value>, translateText: TranslateArgs -> TranslateOutcome, timestamp: string)
    requires loads(raw) == Some(ValidBody)
    requires translateText(TranslateArgs("Hello world!", Str("auto"), Str("es"))) == UnsupportedLanguagePair(message)
    ensures LambdaHandler(map["body" := Str(raw)], None, loads, translateText, timestamp)
         == Response(400, None, map["error" := Str("Unsupported language pair"), "detail" := Str(message)])
  {
    ValidBodyReachesProvider(raw, None, loads, translateText, timestamp);
  }
}
