/** The HTTP collaborator of the upload, reduced to what the upload
    observes: the outcome of `ensure_session()` and the outcome of
    `post(path, data)`, plus a record of the calls made to it. */
module HttpClient {
  import opened JsonValue
  import opened Errors

  /** One scripted client: how `ensure_session` ends (its return value is
      ignored, so success carries nothing) and how `post` ends. */
  datatype Client = Client(session: Outcome<()>, post: Outcome<Json>)

  /** A call issued to the client, in the order it was issued. */
  datatype Call = EnsureSession | Post(path: string, data: Json)

  /** `API_PATHS["SOCIAL_MEDIA"]`. */
  const SocialMediaPath: string := "/api/files/social"

  /** Number of times `c` appears in a call record: the mock's
      `call_count` for that exact call. */
  function Occurrences(calls: seq<Call>, c: Call): (n: nat)
    ensures n <= |calls|
    ensures n == 0 <==> c !in calls
  {
    if calls == [] then 0
    else (if calls[0] == c then 1 else 0) + Occurrences(calls[1..], c)
  }

  /** Number of `post` calls, whatever their arguments. */
  function PostCount(calls: seq<Call>): (n: nat)
    ensures n <= |calls|
    ensures n == 0 <==> forall i :: 0 <= i < |calls| ==> !calls[i].Post?
  {
    if calls == [] then 0
    else (if calls[0].Post? then 1 else 0) + PostCount(calls[1..])
  }
}
