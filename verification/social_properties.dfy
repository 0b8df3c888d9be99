/** Properties of `upload_social_media_link` that relate its outcome to
    the collaborator's behaviour, one source promise per lemma. */
module SocialProperties {
  import opened JsonValue
  import opened Errors
  import opened HttpClient
  import opened Social

  /** `ensure_session` is called exactly once; `post` at most once, and
      only ever to the social-media path with the link unchanged. */
  lemma CallCounts(client: Client, link: string)
    ensures Occurrences(UploadSocialMediaLink(client, link).calls, EnsureSession) == 1
    ensures PostCount(UploadSocialMediaLink(client, link).calls) <= 1
    ensures PostCount(UploadSocialMediaLink(client, link).calls)
         == Occurrences(UploadSocialMediaLink(client, link).calls, Post(SocialMediaPath, SocialLinkBody(link)))
  {
  }

  /** A failing `ensure_session` stops the call before any `post`. */
  lemma SessionFailureSkipsPost(client: Client, link: string)
    requires client.session.Raise?
    ensures UploadSocialMediaLink(client, link).calls == [EnsureSession]
    ensures PostCount(UploadSocialMediaLink(client, link).calls) == 0
  {
  }

  /** Success returns the response's `requestId`, truthy, with no media id. */
  lemma SuccessCarriesRequestId(client: Client, link: string)
    requires UploadSocialMediaLink(client, link).outcome.Ok?
    ensures var r := UploadSocialMediaLink(client, link).outcome.value;
      && Truthy(r.requestId)
      && r.mediaId == None
      && client.post == Ok(JObj(client.post.value.fields))
      && client.post.value.fields[RequestIdKey] == r.requestId
  {
  }

  /** A dict response whose `requestId` is missing, `None`, empty or
      otherwise falsy raises `server_error` with the fixed message, and
      that error is not turned into `upload_failed`. */
  lemma MissingRequestIdRaisesServerError(client: Client, link: string)
    requires client.session.Ok? && client.post.Ok?
    requires client.post.value.JObj? && !HasRequestId(client.post.value)
    ensures UploadSocialMediaLink(client, link).outcome == Raise(Domain(MissingRequestId))
    ensures MissingRequestId.code == ServerError
  {
  }

  /** A domain error from `ensure_session` or `post` reaches the caller
      with the same code and message. */
  lemma DomainErrorPropagates(client: Client, link: string, e: RealityDefenderError)
    requires client.session == Raise(Domain(e))
          || (client.session.Ok? && client.post == Raise(Domain(e)))
    ensures UploadSocialMediaLink(client, link).outcome == Raise(Domain(e))
  {
  }

  /** The domain error raised inside the `try` block, if that is how it
      ends: by `ensure_session`, by `post`, or by the `requestId` check. */
  function DomainCause(client: Client): Option<RealityDefenderError> {
    if client.session.Raise? then
      (if client.session.exception.Domain? then Some(client.session.exception.error) else None)
    else if client.post.Raise? then
      (if client.post.exception.Domain? then Some(client.post.exception.error) else None)
    else if client.post.value.JObj? && !HasRequestId(client.post.value) then Some(MissingRequestId)
    else None
  }

  /** The text of the non-domain `Exception` raised inside the `try`
      block, if that is how it ends: by `ensure_session`, by `post`, or
      by `.get` on a response that is not a dict. */
  function GenericCause(client: Client): Option<string> {
    if client.session.Raise? then
      (if client.session.exception.Generic? then Some(client.session.exception.message) else None)
    else if client.post.Raise? then
      (if client.post.exception.Generic? then Some(client.post.exception.message) else None)
    else if !client.post.value.JObj? then Some(NoAttributeMessage(client.post.value, "get"))
    else None
  }

  /** The text of the bare `BaseException` raised by a collaborator, if
      that is how the `try` block ends. */
  function BaseCause(client: Client): Option<string> {
    if client.session.Raise? then
      (if client.session.exception.BaseOnly? then Some(client.session.exception.message) else None)
    else if client.post.Raise? then
      (if client.post.exception.BaseOnly? then Some(client.post.exception.message) else None)
    else None
  }

  /** Succeeds when the collaborators succeed and the response is usable. */
  predicate Accepted(client: Client) {
    client.session.Ok? && client.post.Ok? && HasRequestId(client.post.value)
  }

  /** Every call ends in exactly one way, and each way fixes the outcome:
      success with the response's id, a domain error passed through as
      it was raised, a non-domain exception wrapped as `upload_failed`,
      or a bare `BaseException` left uncaught. */
  lemma ExactlyOneOutcome(client: Client, link: string)
    ensures Accepted(client) || DomainCause(client).Some? || GenericCause(client).Some? || BaseCause(client).Some?
    ensures Accepted(client) ==> DomainCause(client).None? && GenericCause(client).None? && BaseCause(client).None?
    ensures DomainCause(client).Some? ==> GenericCause(client).None? && BaseCause(client).None?
    ensures GenericCause(client).Some? ==> BaseCause(client).None?
    ensures Accepted(client) ==>
              UploadSocialMediaLink(client, link).outcome
                == Ok(UploadResult(client.post.value.fields[RequestIdKey], None))
    ensures DomainCause(client).Some? ==>
              UploadSocialMediaLink(client, link).outcome == Raise(Domain(DomainCause(client).value))
    ensures GenericCause(client).Some? ==>
              UploadSocialMediaLink(client, link).outcome
                == Raise(Domain(UploadFailedError(GenericCause(client).value)))
    ensures BaseCause(client).Some? ==>
              UploadSocialMediaLink(client, link).outcome == Raise(BaseOnly(BaseCause(client).value))
  {
  }

  /** The successful upload the unit tests check the return value of. */
  lemma TestedSuccess(link: string)
    ensures UploadSocialMediaLink(Client(Ok(()), Ok(JObj(map["requestId" := JStr("test-request-id")]))), link).outcome
         == Ok(UploadResult(JStr("test-request-id"), None))
  {
  }

  /** The failing posts the unit tests exercise: a generic exception, an
      empty response, and a `None` request id. */
  lemma TestedPostFailures(link: string)
    ensures UploadSocialMediaLink(Client(Ok(()), Raise(Generic("Unexpected error"))), link).outcome
         == Raise(Domain(RealityDefenderError("Social media link upload failed: Unexpected error", UploadFailed)))
    ensures UploadSocialMediaLink(Client(Ok(()), Ok(JObj(map[]))), link).outcome
         == Raise(Domain(RealityDefenderError("Invalid response from API - missing requestId", ServerError)))
    ensures UploadSocialMediaLink(Client(Ok(()), Ok(JObj(map["requestId" := JNull]))), link).outcome
         == Raise(Domain(MissingRequestId))
  {
  }

  /** The session failure the unit tests exercise: passed through, no post. */
  lemma TestedSessionFailure(link: string)
    ensures UploadSocialMediaLink(Client(Raise(Domain(RealityDefenderError("Session failed", Unauthorized))), Ok(JNull)), link)
         == Run(Raise(Domain(RealityDefenderError("Session failed", Unauthorized))), [EnsureSession])
  {
  }
}
