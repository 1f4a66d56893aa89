# Translation Lambda, modelled in Dafny

This project models the AWS Lambda handler of a small translation API
(`src/lambda_function.py`). The handler takes an API Gateway event. It
decodes the JSON request body and validates it with `validate_input`. It
then calls AWS Translate and maps the result, or the exception raised, to
an HTTP response.

The model is pure, as the source is:

- `python.dfy` (module `Python`) holds the pieces of Python semantics the
  handler relies on. These are the values `json.loads` produces, their
  truth value (`not body`), the `in` operator on a dict, a list or a str,
  subscripting with a string key, and `str.strip()` with Python's set of
  whitespace characters.
- `lambda_function.dfy` (module `LambdaFunction`) holds `validate_input`
  as `ValidateInput`, the `for` loop over the required fields as
  `FirstMissingField`, and `lambda_handler` as `LambdaHandler`. It also
  holds the lemmas about them.
- `test_lambda_function.dfy` (module `LambdaFunctionScenarios`) restates
  the scenarios of the repository's handler tests as lemmas over the model.

Three things are passed in as parameters:

- `json.loads` is a function from the raw string to an optional value, where
  none stands for `JSONDecodeError`.
- `translate.translate_text` is a function from the call's arguments to a
  `TranslateOutcome`: a reply with the translated text and the two
  language codes, `UnsupportedLanguagePairException(str(e))`,
  `InvalidRequestException(str(e))`, or any other exception.
- The timestamp written into the success body is an opaque string.

Responses are records with a status code, an optional headers map and
the body dictionary as it is before `json.dumps`.

The request body is a full JSON value, not only a dict, because
`event['body']` may be `None`, or may decode to a list, a str or a number.
The model keeps what Python does with those:

- A falsy value is rejected as an empty body.
- A list or a str answers `field in body` by membership or substring
  search. It is rejected for the first field it does not contain. Once it
  contains both fields, `body['text']` raises `TypeError`.
- A number or `True` makes `in` raise `TypeError`.

Each `TypeError`, like a `KeyError` for an event without `body`, ends in
the generic 500 branch.

The code has no 5000-character limit on `text`. It does
not check the length of language codes. It names the fields `text`,
`target_language` and `source_language`. It reports only the first
violation. It puts headers only on the success response. It has no OPTIONS
branch and no content-fetch endpoint.

## Model

| member | source | states |
|---|---|---|
| `Python.Contains` | src/lambda_function.py:32 | `field in body` is key membership on a dict, element equality on a list and substring search on a str; on any other operand it raises TypeError |
| `Python.IsSubstringIff` | src/lambda_function.py:32 | Python's substring test on str holds exactly when some suffix of the string starts with the field name |
| `Python.GetItem` | src/lambda_function.py:40 | `body['text']` yields the dict's entry; a dict without the key raises KeyError and a non-dict raises TypeError |
| `Python.Truthy` | src/lambda_function.py:23 | `not body` holds exactly for `None`, `False`, zero, the empty str, the empty list and the empty dict |
| `Python.IsSpace` | src/lambda_function.py:40 | the characters `strip()` removes are exactly the 29 code points for which `str.isspace()` holds |
| `Python.DictGet` | src/lambda_function.py:69 | `body.get('source_language', 'auto')` is the entry when the key is present and the default otherwise |
| `Python.LeadingSpaces` | src/lambda_function.py:40 | the whitespace run that `strip()` removes at the front: every character in it is whitespace and the next one is not |
| `Python.TrailingSpaces` | src/lambda_function.py:40 | the whitespace run that `strip()` removes at the back: every character in it is whitespace and the one before it is not |
| `Python.Strip` | src/lambda_function.py:40 | `text.strip()` is the slice of `text` between its leading and trailing whitespace; it is empty exactly when `text` has no non-whitespace character, and otherwise starts and ends with one |
| `LambdaFunction.FirstMissingField` | src/lambda_function.py:31-38 | the loop over the required fields stops at the first field that is not in the body: every earlier field is present, and it returns None exactly when all fields are present; it raises only when `in` raises on the first field |
| `LambdaFunction.ValidateInput` | src/lambda_function.py:19-48 | returns `(True, None)` exactly on a dict holding `text` and `target_language` whose `text` is a non-blank str; otherwise returns `(False, r)`, where `r` is a 400 without headers; the checks run in the order empty body, missing `text`, missing `target_language`, then `text` content, each with its exact message; only a truthy non-dict body makes it raise TypeError |
| `LambdaFunction.BothMissingReportsText` | src/lambda_function.py:21-38 | a non-empty dict without either required field is reported as `Missing required field: text` |
| `LambdaFunction.TargetLanguageUnchecked` | src/lambda_function.py:31-48 | the value of `target_language` is never inspected: any two values give the same verdict |
| `LambdaFunction.OtherFieldsIgnored` | src/lambda_function.py:31-48 | on a non-empty dict, adding or changing a field other than `text` and `target_language` (such as `source_language`) leaves the verdict unchanged |
| `LambdaFunction.NonDictBodies` | src/lambda_function.py:23-46 | a truthy list or str is rejected for the first required field it lacks and raises once it has both; a number or `True` always raises |
| `LambdaFunction.LoadBody` | src/lambda_function.py:58 | an event without `body` raises KeyError; a str body is decoded, and raises JSONDecodeError when it cannot be; any other body is used as it is |
| `LambdaFunction.LambdaHandler` | src/lambda_function.py:50-130 | every response is 200, 400 or 500; only the 200 carries headers, exactly `Content-Type: application/json` and `Access-Control-Allow-Origin: *`, with exactly the four body fields and the given timestamp; every other response has a string `error`; a 500 is always the generic internal error with the request id |
| `LambdaFunction.PreCallFailuresAre500` | src/lambda_function.py:56-64 | an event without `body` (KeyError at line 58) or a body on which `validate_input` raises TypeError gets the generic 500 with the request id (lines 122-130) |
| `LambdaFunction.ListBodyIs500` | src/lambda_function.py:31-46 | a list body holding both field names passes the field checks, fails on `body['text']` and gets the generic 500 |
| `LambdaFunction.InvalidJsonRejected` | src/lambda_function.py:56-121 | a string body that `json.loads` cannot decode gets 400 `Invalid JSON in request body` without headers, whatever the provider does |
| `LambdaFunction.InvalidBodyShortCircuits` | src/lambda_function.py:61-64 | a body the validator rejects gets the validator's error response unchanged (a 400 without headers whose body holds only `error`), for every provider, so the provider's behaviour is never observed |
| `LambdaFunction.AcceptedBodyCallsProvider` | src/lambda_function.py:66-78 | an accepted body reaches the provider with its `text`, its `target_language` as given, and its `source_language`, or `'auto'` when absent |
| `LambdaFunction.TranslationResponse` | src/lambda_function.py:80-130 | the response to the Translate call's outcome is 200 exactly on success, and only then has headers, the four body fields and the given timestamp; it is 400 exactly for the two named exceptions and 500 exactly for any other, which is the generic internal error; every non-200 has a string `error` |
| `LambdaFunction.OutcomeMapping` | src/lambda_function.py:80-130 | success is 200 with the JSON/CORS headers and the provider's `TranslatedText`, `SourceLanguageCode` and `TargetLanguageCode` copied; an unsupported pair is 400 with `Unsupported language pair` and the message as `detail`; an invalid request is 400 with the message as `error`; anything else is 500 `Internal server error` with the context's request id, or null without a context |
| `LambdaFunction.SuccessIff` | src/lambda_function.py:56-95 | the handler answers 200 exactly when the body loads, is accepted, and the provider call with the extracted arguments succeeds |
| `LambdaFunctionScenarios.SuccessfulTranslation` | tests/test_lambda_function.py:50-60 | with the mocked reply, a valid request gets 200 with the mocked fields and the timestamp |
| `LambdaFunctionScenarios.MissingRequiredField` | tests/test_lambda_function.py:62-67 | a body without `target_language` gets 400 `Missing required field: target_language` |
| `LambdaFunctionScenarios.EmptyText` | tests/test_lambda_function.py:69-74 | an empty `text` gets 400 `Text field must be a non-empty string` |
| `LambdaFunctionScenarios.TranslateServiceError` | tests/test_lambda_function.py:83-89 | a generic provider failure gets 500 echoing the context's request id |
| `LambdaFunctionScenarios.UnsupportedPair` | tests/test_lambda_function.py:91-99 | an unsupported language pair gets 400 labelled `Unsupported language pair` with the message as detail |

## Left out

- The boto3 client and the `translate_text` network call (lines 13 and 74-78). They are a parameter of the handler; the model says which arguments reach it and how every outcome is reported.
- `json.loads` and `json.dumps`. Decoding is a parameter. Responses keep their body as a structured map, not a serialised string.
- `datetime.utcnow().isoformat()` is an opaque string parameter. Its ISO-8601 format is not modelled.
- Logging (lines 8-10 and the `logger` calls). It is output only.
- The `TranslationError` class (lines 15-17). It is declared but never raised or caught.
- JSON numbers are rationals. The non-finite floats `NaN` and `Infinity`, which `json.loads` also accepts, are not represented. Both would be truthy numbers, so they would take the same TypeError path as any other number.
- Exceptions that `json.loads` raises other than `JSONDecodeError` are not modelled, for example `RecursionError` on deeply nested input.
- An event that is not a dict is not modelled, and neither is a context without `aws_request_id`.
- `Python.IsSpace` lists Python's whitespace characters for the Unicode version current at the time of writing. A later Unicode change to that set is not followed.
