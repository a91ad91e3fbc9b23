# Error responder and HTTP client facade of a FastAPI starter service

This project models the two utility layers of the service's `app/core` package.

**The error responder** (`app/core/exception_handler.py`, module `ExceptionHandler`) covers:
- `ExceptionType`, the fixed table of known application errors. Each entry is an `(http_code, code, message)` triple, and each gets an enum value from a running member count.
- `CustomException`, whose status and code fall back to defaults by Python truthiness.
- The validation-message builder `get_message_validation`.
- The three handlers. Each is reduced to the `(status, code, message)` triple it passes to the response schema.

**The HTTP client facade** (`app/core/http.py`, module `Http`) covers:
- The success and failure envelopes built by `http_response` and `http_error_handler`.
- Content-Type defaulting on the caller's header dict. All eight client methods do this, in place.
- The asynchronous clients' normalisation of the upstream response. A 200/201 response gives its parsed body. Any other status gives the parsed body for `get` but the failure object for `post`.
- The synchronous clients. They hand back the raw response.

The network is a parameter. A `Transport` maps the request a method builds to the upstream's response, or to a connection failure. That response is a status, a body text and an optional parsed JSON body; `None` means `response.json()` would raise. Python values are `Json.Value`. Python's `str(int)` is `Decimal.IntToString`, and `Decimal.ParseInt` undoes it.

Modelling choices:
- `CustomException` is a datatype built by the function `NewCustomException`, because its fields are assigned once in `__init__` and never written again.
- The caller's header dict is the class `Http.Headers`, because the client methods update it in place.
- The enum's value numbering is the loop `NumberMembers`, because `__new__` reads the running member count.
- `get_message_validation` is a method with a `for` loop, as in the source.

Behaviours of the code that the model keeps as they are:
- Only `get` parses the body of a response whose status is not 200 or 201. `post` returns the failure object on every such status, even when the body is valid JSON (`app/core/http.py:71-77`).
- `SyncJSONHTTPClient` passes no certificate flag, so `requests` keeps its default and verifies certificates (`Request.verifyTls == true` in its methods). The asynchronous clients turn verification off (`verify_ssl=False`). `SyncXFORMHTTPClient` passes the same keyword to `requests`, which rejects it with TypeError before anything is sent (see "## Findings"); the corrected methods pass `verify=False`.
- A connection failure propagates out of every client method as an exception (`Failure(ConnectionFailed)` in `GetOutcome` and `PostOutcome`). It is not turned into the failure object.
- A 200 or 201 response whose body does not parse raises (`JsonDecodeError`). It is not turned into the failure object either (`app/core/http.py:44,69`).

## Model

| member | source | states |
|---|---|---|
| `Decimal.IntToString` | app/core/exception_handler.py:35 | `str(n)`: never empty; all digits exactly when `n >= 0`, otherwise '-' followed by digits; no leading zero except for `0` itself |
| `Decimal.ParseIntToString` | app/core/exception_handler.py:35 | parsing `str(n)` gives `n` back, so a defaulted code determines its status |
| `Decimal.IntToStringInjective` | app/core/exception_handler.py:35 | distinct statuses get distinct default codes |
| `ExceptionHandler.Value` | app/core/exception_handler.py:11-20 | a member's enum value is its 1-based position in declaration order |
| `ExceptionHandler.NumberMembers` | app/core/exception_handler.py:16-20 | giving each declared member `len(__members__) + 1` numbers them 1, 2, 3, … in order; for the declared table this is `Value` |
| `ExceptionHandler.TableCodes` | app/core/exception_handler.py:11-14 | every table entry has status 500; codes are "99x", and distinct members have distinct codes |
| `ExceptionHandler.NewCustomException` | app/core/exception_handler.py:33-36 | a falsy status (absent or 0) becomes 500, a truthy one is kept; a falsy code (absent or "") becomes `str` of the resolved status, which parses back to it, a truthy one is kept; status is never 0 and code never empty; message kept as given, `None` included |
| `ExceptionHandler.HttpExceptionHandler` | app/core/exception_handler.py:39-43 | the reply carries the exception's status, code and message unchanged |
| `ExceptionHandler.FastapiErrorHandler` | app/core/exception_handler.py:53-57 | status 500, code the decimal string of 500, message the DATA_RESPONSE_MALFORMED text |
| `ExceptionHandler.TableEntryReply` | app/core/exception_handler.py:33-43 | an exception raised with a table entry's triple is rendered as exactly that triple |
| `ExceptionHandler.DefaultExceptionReply` | app/core/exception_handler.py:33-43 | `CustomException()` is rendered as (500, "500", None) |
| `ExceptionHandler.FallbackIsNotTableEntry` | app/core/exception_handler.py:53-57 | the fallback reply shares DATA_RESPONSE_MALFORMED's text but not its code "992" |
| `ExceptionHandler.Segments` | app/core/exception_handler.py:62-63 | one rendered segment per issue, in order |
| `ExceptionHandler.SegmentsStep` | app/core/exception_handler.py:62-63 | one loop round appends the next issue's segment followed by ", " |
| `ExceptionHandler.TerminatedIsJoinPlusSep` | app/core/exception_handler.py:62-65 | text built as segment-then-separator for a non-empty list equals the join plus one trailing separator |
| `ExceptionHandler.DropSeparator` | app/core/exception_handler.py:65 | `[:-2]` on the accumulated text leaves exactly the join, `""` for no issues |
| `ExceptionHandler.JoinEndsWithLast` | app/core/exception_handler.py:65 | the joined message ends with the last segment, so no trailing separator |
| `ExceptionHandler.GetMessageValidation` | app/core/exception_handler.py:60-67 | when every location has at least two parts, the result is the segments `/'<loc[1]>'/: <msg>` joined with ", "; otherwise IndexError |
| `ExceptionHandler.SingleIssueMessage` | app/core/exception_handler.py:60-67 | the issue at `["body","name"]` with "field required" renders as `/'name'/: field required` |
| `ExceptionHandler.ValidationExceptionHandler` | app/core/exception_handler.py:46-50 | status 400, code "400", the built message; IndexError from building it propagates |
| `Http.HttpResponse` | app/core/http.py:9-17 | status as given (200 by default); keys exactly track_id, ip, data; `None` data becomes `{}`, any other data kept |
| `Http.HttpErrorHandler` | app/core/http.py:20-30 | response status is the exception's; track_id and ip are `None`; the error holds the exception's status as code and its detail as message |
| `Http.EnvelopesRoundTrip` | app/core/http.py:9-30 | the payload or (code, message) can be read back from its envelope, and the two envelope kinds never look alike |
| `Http.DefaultHttpResponse` | app/core/http.py:9-17 | `http_response()` gives status 200 and `{track_id: None, ip: None, data: {}}` |
| `Http.WithDefaultContentType` | app/core/http.py:38-39 | afterwards Content-Type is set; a non-`None` one is never overwritten; a missing or `None` one becomes the default; no other key is added, removed or changed |
| `Http.DefaultingIsIdempotent` | app/core/http.py:38-39 | defaulting a second time changes nothing, whatever the second default |
| `Http.SentHeaders` | app/core/http.py:36-39 | with `headers=None`, the call sends a fresh dict whose only entry is the default Content-Type; with a caller's dict, it sends that dict in its defaulted form |
| `Http.DefaultContentType` | app/core/http.py:36-39 | `None` becomes a fresh dict holding only Content-Type; a given dict is updated in place to its defaulted form |
| `Http.ReadSentinelRoundTrip` | app/core/http.py:52-57 | the failure object gives back the body text and status it was built from |
| `Http.GetOutcome` | app/core/http.py:43-57 | a body that parses is returned unchanged whatever the status; an unparsable body raises on 200/201 and gives the failure object otherwise; connection failures propagate |
| `Http.PostOutcome` | app/core/http.py:68-77 | on 200/201 the parsed body (an unparsable one raises); any other status gives the failure object, even for valid JSON; connection failures propagate |
| `Http.GetPostAgreement` | app/core/http.py:43-77 | `get` and `post` give the same outcome exactly when the status is 200/201, or the body does not parse, or the parsed body already is the failure object |
| `Http.GetConflatesFailureWithBody` | app/core/http.py:46-57 | a real failure and a response whose JSON body looks like a failure object give the same `get` result |
| `Http.DocumentedOutcomes` | app/core/http.py:43-77 | 200 `{"x":1}` is returned unchanged by both; 404 `{"err":"nf"}` is a `get` result; 500 "boom" is the failure object `{data:0, code:"HTTP_ERROR", message:"boom", status:500}` |
| `Http.JsonHttpClient.Get` | app/core/http.py:35-57 | the caller's headers defaulted to application/json in place; result is `GetOutcome` of the upstream's answer to the request sent with those headers and without certificate checks |
| `Http.JsonHttpClient.Post` | app/core/http.py:60-77 | the same, with a JSON body, and the result is `PostOutcome` |
| `Http.XFormHttpClient.Get` | app/core/http.py:82-104 | as the JSON `get`, with application/x-www-form-urlencoded as the default |
| `Http.XFormHttpClient.Post` | app/core/http.py:107-124 | as the JSON `post`, with a form body and the form default |
| `Http.SessionCall` | app/core/http.py:135-137 | a requests call reaches the upstream exactly when every keyword is one requests accepts; otherwise a keyword requests does not accept raises TypeError before anything is sent |
| `Http.SyncCallsReachUpstream` | app/core/http.py:135-148 | the JSON synchronous calls and the corrected form calls are passed to the upstream unchanged |
| `Http.SyncJsonHttpClient.Get` | app/core/http.py:129-137 | headers defaulted to application/json in place; the raw upstream answer is returned; certificates checked (requests' default) |
| `Http.SyncJsonHttpClient.Post` | app/core/http.py:140-148 | the same, with a JSON body |
| `Http.SyncXFormAsWrittenAlwaysRaises` | app/core/http.py:160 | passing `verify_ssl` to requests raises TypeError for every request and upstream |
| `Http.SyncXFormHttpClient.GetAsWritten` | app/core/http.py:153-161 | as written: headers defaulted to the form type in place, then TypeError naming `verify_ssl` |
| `Http.SyncXFormHttpClient.PostAsWritten` | app/core/http.py:164-172 | as written: headers defaulted to the form type in place, then TypeError naming `verify_ssl` |
| `Http.SyncXFormHttpClient.Get` | app/core/http.py:153-161 | corrected: headers defaulted to the form type; the raw upstream answer to the request sent without certificate checks |
| `Http.SyncXFormHttpClient.Post` | app/core/http.py:164-172 | corrected: the same, with a form body |
| `Http.RepeatedGet` | app/core/http.py:35-57 | two identical `get` calls sharing a header dict send the same request and return the same result |

## Findings

| source | as written | input that shows it | evidently intended | confidence | as-written member | corrected member |
|---|---|---|---|---|---|---|
| app/core/http.py:160 | `session.get(..., verify_ssl=False)`, but `requests.Session.get` forwards its keywords to `Session.request`, which has no `verify_ssl` parameter | any call, e.g. `SyncXFORMHTTPClient.get("http://u")`: TypeError after the headers were defaulted | pass `verify=False`, as the aiohttp clients do with their own flag | high; not executed | `Http.SyncXFormHttpClient.GetAsWritten` | `Http.SyncXFormHttpClient.Get` |
| app/core/http.py:171 | `session.post(..., verify_ssl=False)`, with the same unknown keyword | any call, e.g. `SyncXFORMHTTPClient.post("http://u", {})` | pass `verify=False` | high; not executed | `Http.SyncXFormHttpClient.PostAsWritten` | `Http.SyncXFormHttpClient.Post` |

## Left out

- Network I/O is the `Transport` parameter. This covers aiohttp and requests sessions, connection set-up and release, timeouts and the async suspension. The timeout is only carried in the request.
- JSON decoding (`response.json()`) is the optional parsed body of the upstream response. JSON serialisation (`json.dumps`, `jsonable_encoder`) is not modelled.
- `JSONResponse` is only its status and content. `ResponseSchemaBase().custom_response` is reduced to its `(code, message)` arguments, because app/schemas/base.py is not part of this model.
- The texts of `app.resources.strings` are known only by name (`Strings.Resource`), because app/resources/strings.py is not part of this model.
- The `print` diagnostics on the `get` parse-failure path (app/core/http.py:51,98) are left out. They are output only.
- Python dicts keep insertion order; `Json.Dict` is a map. So key order in envelopes, failure objects and headers is not modelled.
- JSON numbers are integers only. Floats are not modelled.
- Header keys are compared exactly, as the dict does. A lower-case `content-type` key therefore gets a second `Content-Type` beside it, and the libraries' case-insensitive header merging is not modelled.
- Pydantic's `errors()` is a list of records with `loc` and `msg`. A record without `msg` would make the string concatenation raise TypeError; this is not modelled.
- Only the running member count of the `enum` machinery is modelled. Aliases and the `__members__` mapping are not.
- `http_code` and `code` have Python truthiness for their annotated types (`int`, `str`) only. Arguments of other types are not modelled.
- `Http.SessionCall`: the TypeError carries every unknown keyword, while CPython's message names only the first. The source never passes more than one unknown keyword.
