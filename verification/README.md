# Social-media-link upload of the Reality Defender Python SDK, in Dafny

This project models `upload_social_media_link` from the Reality Defender
Python SDK. The SDK is a client for a deepfake-detection service. The
function submits a social-media URL for analysis:

1. it calls `client.ensure_session()`;
2. it posts `{"socialLink": link}` to the social-media endpoint
   (`/api/files/social`);
3. it reads `requestId` from the response with `response.get("requestId", "")`;
4. it returns `{"request_id": <that value>, "media_id": None}` when the value
   is truthy, and otherwise raises `server_error` with the message
   "Invalid response from API - missing requestId";
5. its `except` clauses re-raise a `RealityDefenderError` unchanged. Any
   other `Exception` becomes `upload_failed`, with the message
   "Social media link upload failed: " followed by the original text.

The coroutine becomes a pure, sequential function. The HTTP client becomes
a scripted `Client`: the outcome of `ensure_session` and the outcome of
`post`. Each outcome either returns a value or raises one of three kinds
of exception:

- a `RealityDefenderError`, the SDK's own error kind;
- any other `Exception`;
- a `BaseException` that is not an `Exception`, for instance
  `asyncio.CancelledError`. `except Exception` does not catch this kind,
  so it reaches the caller unchanged.

The result is a `Run`. It holds the outcome and the list of calls made to
the client, in order. That list is what the unit tests inspect through
their mocks.

The response is any decoded JSON value, so every case the code
distinguishes can be written down:

- a value that is not a dict has no `.get`. The resulting
  `AttributeError` (for example `'list' object has no attribute 'get'`)
  is wrapped as `upload_failed`;
- a dict whose `requestId` is missing, `None`, empty, zero, `False` or
  otherwise falsy gets `server_error`;
- any truthy `requestId` is returned as it was found. This includes
  non-strings, because the code does not check the type.

Modules: `JsonValue` (JSON values, Python truthiness, `dict.get`),
`Errors` (error codes, `RealityDefenderError`, exception kinds, outcomes),
`HttpClient` (the scripted client, the call record, the endpoint path),
`Social` (the function itself: try body, except clauses, message wrapping)
and `SocialProperties` (lemmas relating outcomes to causes).

## Model

| member | source | states |
|---|---|---|
| `Social.UploadSocialMediaLink` | src/realitydefender/detection/social.py:6-29 | `ensure_session` is the first call and happens once. `post` is issued exactly when the session succeeded, to the social-media path with body `{socialLink: link}`. The call succeeds exactly when the response is a dict with a truthy `requestId`, and then returns that value with no media id. No generic exception escapes. |
| `Social.TryBody` | src/realitydefender/detection/social.py:9-23 | Inside the `try` block, `post` is issued exactly when `ensure_session` did not raise, to the social-media path with the link body. An exception from either collaborator is raised on as it is. A dict response returns its own truthy `requestId` with no media id exactly when that id is truthy, and otherwise raises the `server_error` for a missing id. Any other response raises the `AttributeError` of `.get`. |
| `Social.Handle` | src/realitydefender/detection/social.py:24-29 | Domain errors and bare `BaseException`s pass through the `except` clauses unchanged. Any other exception becomes `upload_failed`, with the fixed prefix followed by its `str(e)`. Hence no generic exception remains afterwards. |
| `Social.HandleIdempotent` | src/realitydefender/detection/social.py:24-25 | An error the handler has already produced passes through it unchanged, so it is never wrapped twice. |
| `Social.UploadFailedError` | src/realitydefender/detection/social.py:26-29 | The wrapped error has code `upload_failed`. Its message is the fixed prefix followed by the original text, kept intact. |
| `Social.WrappedCause` | src/realitydefender/detection/social.py:27-28 | Inverse of the wrapping: it returns a cause exactly when the message starts with the prefix, and prefix + cause rebuilds the message. |
| `Social.WrappedCauseRoundTrip` | src/realitydefender/detection/social.py:27-28 | The original text is recovered from every wrapped message. |
| `Social.UploadFailedErrorInjective` | src/realitydefender/detection/social.py:27-28 | Two wrapped errors are equal exactly when their original texts are equal. |
| `Social.SocialLinkBody` | src/realitydefender/detection/social.py:12-14 | The posted body is a dict whose only key is `socialLink`, mapped to the link unchanged. |
| `JsonValue.DictGet` | src/realitydefender/detection/social.py:16 | `response.get("requestId", "")` yields a value exactly when the response is a dict: the stored value if the key is present, else the default. On any other value it raises Python's `AttributeError` message. |
| `JsonValue.TruthyIffNotFalsyValue` | src/realitydefender/detection/social.py:17 | A value fails `if not request_id` exactly when it is `None`, `False`, `0`, `0.0`, `""`, `[]` or `{}`. |
| `Errors.CodeNameInjective` | src/realitydefender/detection/social.py:18-29 | The codes `server_error` and `upload_failed` raised here, and the other codes, have pairwise distinct spellings. |
| `HttpClient.Occurrences` | tests/test_social.py:67-75 | A call count never exceeds the number of calls, and it is zero exactly when the call was never made. |
| `HttpClient.PostCount` | tests/test_social.py:85-95 | The number of `post` calls is at most the number of calls, and it is zero exactly when no `post` was made. |
| `SocialProperties.CallCounts` | src/realitydefender/detection/social.py:10-14 | `ensure_session` is called exactly once. `post` is called at most once, and every `post` goes to the social-media path with the link unchanged. |
| `SocialProperties.SessionFailureSkipsPost` | src/realitydefender/detection/social.py:10-14 | If `ensure_session` raises, the only call made is `ensure_session`, and `post` is never issued. |
| `SocialProperties.SuccessCarriesRequestId` | src/realitydefender/detection/social.py:16-23 | A success returns the response's own `requestId`, which is truthy, and `media_id` is None. |
| `SocialProperties.MissingRequestIdRaisesServerError` | src/realitydefender/detection/social.py:16-25 | A dict response without a truthy `requestId` raises `server_error` with the fixed message. That error is re-raised as is and never becomes `upload_failed`. |
| `SocialProperties.DomainErrorPropagates` | src/realitydefender/detection/social.py:24-25 | A `RealityDefenderError` from `ensure_session` or from `post` reaches the caller with the same code and message. |
| `SocialProperties.ExactlyOneOutcome` | src/realitydefender/detection/social.py:9-29 | Every call ends in exactly one of four ways, and each way fixes the result: success with the response's id; a domain error passed through as it was raised; a generic exception from any step wrapped as `upload_failed` with the prefixed text; or a bare `BaseException` left uncaught. |
| `SocialProperties.TestedSuccess` | tests/test_social.py:31-53 | A response `{"requestId": "test-request-id"}` gives exactly that id with no media id. |
| `SocialProperties.TestedPostFailures` | tests/test_social.py:120-178 | `ValueError("Unexpected error")` from `post` becomes `upload_failed` with the message "Social media link upload failed: Unexpected error". The responses `{}` and `{"requestId": None}` both give the `server_error` for a missing id. |
| `SocialProperties.TestedSessionFailure` | tests/test_social.py:209-227 | An `unauthorized` "Session failed" error from `ensure_session` reaches the caller unchanged, and no `post` is made. |

## Left out

- Network I/O, `aiohttp` and session management: `ensure_session` and `post` appear only as scripted outcomes. Their arguments are recorded, but the outcome does not depend on them.
- async/await: the coroutine has no concurrency of its own, so the model is sequential.
- `RealityDefenderError.__str__` (for example "API error (Code: unauthorized)"): the errors module is not part of this model. An error is a (message, code) pair, and the six-code vocabulary is taken as fixed.
- `API_PATHS`: the constants module is not part of this model. The social-media path `/api/files/social` is taken from the test that asserts it.
- Exception chaining: raising the `upload_failed` error inside `except Exception as e` implicitly sets the original exception as its `__context__`. The model drops that link and keeps only the original text inside the message.
- The `str(e)` of a generic exception raised by a collaborator is an input (its message). Only the `AttributeError` text for a non-dict response is spelled out.
- NaN is not a JSON value here. `float('nan')` is truthy in Python, and the model's `JFloat` cannot represent it.
- Result normalisation, polling and file upload: their implementation is not part of this model. They also involve floats, sleeping and file I/O.
