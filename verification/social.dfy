/** `upload_social_media_link`: ensure the session, post the link to the
    social-media endpoint, validate the `requestId` of the response, and
    sort every outcome into success, a passed-through domain error, or a
    wrapped `upload_failed` error. The coroutine is modelled as a
    sequential, pure function of the client's scripted outcomes. */
module Social {
  import opened JsonValue
  import opened Errors
  import opened HttpClient

  datatype Option<+T> = None | Some(value: T)

  /** `{"request_id": ..., "media_id": ...}`. The request id is the JSON
      value the response carried, returned as it was found. */
  datatype UploadResult = UploadResult(requestId: Json, mediaId: Option<string>)

  /** The outcome of one call together with the calls it made. */
  datatype Run = Run(outcome: Outcome<UploadResult>, calls: seq<Call>)

  const RequestIdKey: string := "requestId"
  const SocialLinkKey: string := "socialLink"
  const MissingRequestIdMessage: string := "Invalid response from API - missing requestId"
  const UploadFailedPrefix: string := "Social media link upload failed: "

  /** The error raised when the response carries no usable request id. */
  const MissingRequestId: RealityDefenderError :=
    RealityDefenderError(MissingRequestIdMessage, ServerError)

  /** The body posted for a link: `{"socialLink": link}`. */
  function SocialLinkBody(link: string): (body: Json)
    ensures body.JObj? && body.fields.Keys == {SocialLinkKey}
    ensures body.fields[SocialLinkKey] == JStr(link)
  {
    JObj(map[SocialLinkKey := JStr(link)])
  }

  /** A response the upload accepts: a dict whose `requestId` is present
      and truthy. */
  predicate HasRequestId(response: Json) {
    response.JObj? && RequestIdKey in response.fields && Truthy(response.fields[RequestIdKey])
  }

  // ---------------------------------------------------------------------
  // Wrapping of generic exceptions and its inverse
  // ---------------------------------------------------------------------

  /** The `upload_failed` error made from a generic exception's `str(e)`:
      the fixed prefix followed by the original text, which survives
      intact at the end of the message. */
  function UploadFailedError(cause: string): (e: RealityDefenderError)
    ensures e.code == UploadFailed
    ensures |e.message| == |UploadFailedPrefix| + |cause|
    ensures e.message[..|UploadFailedPrefix|] == UploadFailedPrefix
    ensures e.message[|UploadFailedPrefix|..] == cause
  {
    RealityDefenderError(UploadFailedPrefix + cause, UploadFailed)
  }

  /** The original text of an `upload_failed` message, if the message
      carries the wrapping prefix. */
  function WrappedCause(message: string): (r: Option<string>)
    ensures r.Some? <==> |UploadFailedPrefix| <= |message| && message[..|UploadFailedPrefix|] == UploadFailedPrefix
    ensures r.Some? ==> UploadFailedPrefix + r.value == message
  {
    if |UploadFailedPrefix| <= |message| && message[..|UploadFailedPrefix|] == UploadFailedPrefix
    then
      assert message == message[..|UploadFailedPrefix|] + message[|UploadFailedPrefix|..];
      Some(message[|UploadFailedPrefix|..])
    else None
  }

  /** Wrapping loses nothing: the cause is recovered from the message. */
  lemma WrappedCauseRoundTrip(cause: string)
    ensures WrappedCause(UploadFailedError(cause).message) == Some(cause)
  {
  }

  /** Distinct generic failures give distinct `upload_failed` messages. */
  lemma UploadFailedErrorInjective(cause1: string, cause2: string)
    ensures UploadFailedError(cause1) == UploadFailedError(cause2) <==> cause1 == cause2
  {
  }

  // ---------------------------------------------------------------------
  // The procedure: the try body, then its except clauses
  // ---------------------------------------------------------------------

  /** The body of the `try` block: either it returns an upload result or
      it raises, and either way it has made some calls. */
  function TryBody(client: Client, link: string): (run: Run)
    // post is issued exactly when the session was established
    ensures run.calls == [EnsureSession] <==> client.session.Raise?
    ensures client.session.Ok? ==> run.calls == [EnsureSession, Post(SocialMediaPath, SocialLinkBody(link))]
    // a return carries the dict response's own, truthy requestId
    ensures run.outcome.Ok? ==>
              && client.session.Ok? && client.post.Ok? && client.post.value.JObj?
              && RequestIdKey in client.post.value.fields
              && run.outcome.value.requestId == client.post.value.fields[RequestIdKey]
              && Truthy(run.outcome.value.requestId)
              && run.outcome.value.mediaId == None
    // a collaborator's exception is raised on as it is
    ensures client.session.Raise? ==> run.outcome == Raise(client.session.exception)
    ensures client.session.Ok? && client.post.Raise? ==> run.outcome == Raise(client.post.exception)
    // a dict response fails the requestId check, anything else fails `.get`
    ensures client.session.Ok? && client.post.Ok? && client.post.value.JObj? ==>
              (run.outcome.Ok? <==> HasRequestId(client.post.value))
              && (run.outcome.Raise? ==> run.outcome.exception == Domain(MissingRequestId))
    ensures client.session.Ok? && client.post.Ok? && !client.post.value.JObj? ==>
              run.outcome == Raise(Generic(NoAttributeMessage(client.post.value, "get")))
  {
    match client.session
    case Raise(e) => Run(Raise(e), [EnsureSession])
    case Ok(_) =>
      var calls := [EnsureSession, Post(SocialMediaPath, SocialLinkBody(link))];
      match client.post
      case Raise(e) => Run(Raise(e), calls)
      case Ok(response) =>
        match DictGet(response, RequestIdKey, JStr(""))
        case NoAttribute(message) => Run(Raise(Generic(message)), calls)
        case Found(requestId) =>
          if !Truthy(requestId) then Run(Raise(Domain(MissingRequestId)), calls)
          else Run(Ok(UploadResult(requestId, None)), calls)
  }

  /** The `except` clauses: a `RealityDefenderError` is re-raised as it
      is, any other `Exception` becomes `upload_failed`, and a bare
      `BaseException` is not caught at all. */
  function Handle(e: Exception): (r: Exception)
    ensures !r.Generic?
    ensures r.Domain? <==> !e.BaseOnly?
    ensures e.Domain? || e.BaseOnly? ==> r == e
    ensures e.Generic? ==> r == Domain(UploadFailedError(e.message))
  {
    match e
    case Domain(_) => e
    case Generic(message) => Domain(UploadFailedError(message))
    case BaseOnly(_) => e
  }

  /** The handler leaves what it produces alone: an error it has already
      handled is never wrapped a second time. */
  lemma HandleIdempotent(e: Exception)
    ensures Handle(Handle(e)) == Handle(e)
  {
  }

  /** `upload_social_media_link(client, link)`. */
  function UploadSocialMediaLink(client: Client, link: string): (run: Run)
    // ensure_session first and exactly once; post only after it succeeded
    ensures 1 <= |run.calls| <= 2 && run.calls[0] == EnsureSession
    ensures |run.calls| == 2 <==> client.session.Ok?
    ensures |run.calls| == 2 ==> run.calls[1] == Post(SocialMediaPath, SocialLinkBody(link))
    // success exactly when the response is a dict with a truthy requestId
    ensures run.outcome.Ok? <==> client.session.Ok? && client.post.Ok? && HasRequestId(client.post.value)
    ensures run.outcome.Ok? ==>
      run.outcome.value == UploadResult(client.post.value.fields[RequestIdKey], None)
    // no generic exception escapes
    ensures run.outcome.Raise? ==> !run.outcome.exception.Generic?
  {
    var attempt := TryBody(client, link);
    match attempt.outcome
    case Ok(_) => attempt
    case Raise(e) => Run(Raise(Handle(e)), attempt.calls)
  }
}
