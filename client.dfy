/**
 * The browser-side API helpers of utils/supabase/client.ts: the record types
 * the pages share, how an HTTP reply of the photo endpoints becomes a `Photo`
 * or a thrown error message, and the row `markersAPI.add` inserts.
 * The HTTP exchange itself is an input: a `Response` says whether the reply
 * was OK and what its body parsed to.
 */
module PhotosClient {
  import opened Common

  /** A photo as the pages see it (`interface Photo`). */
  datatype Photo = Photo(
    id: string,
    filePath: string,
    signedUrl: string,
    latitude: real,
    longitude: real,
    userId: Option<string>,
    createdAt: string)

  /** A row of the `profiles` table (`interface Profile`). */
  datatype Profile = Profile(
    id: string,
    username: Option<string>,
    fullName: Option<string>,
    avatarUrl: Option<string>,
    bio: Option<string>,
    createdAt: string)

  /** The row `markersAPI.add` inserts into the `markers` table. */
  datatype MarkerRow = MarkerRow(longitude: real, latitude: real, markerLabel: Option<string>)

  /** What `response.json()` gives: a parsed value, or a parse failure. */
  datatype Body<+T> = Unparsable | Parsed(value: T)

  /** The JSON object of a failed request; `error` is absent, null or a string. */
  datatype ErrorReply = ErrorReply(error: Option<string>)

  /** The JSON object of a successful upload, as far as the client reads it. */
  datatype UploadReply = UploadReply(
    photoId: string,
    filePath: Option<string>,
    signedUrl: string,
    latitude: real,
    longitude: real,
    userId: Option<string>,
    createdAt: Option<string>)

  /** The JSON object of a successful listing; `photos` may be absent or null. */
  datatype ListReply = ListReply(photos: Option<seq<Photo>>)

  /** An HTTP reply: `response.ok` with a body of the route's type, or not OK with an error body. */
  datatype Response<+T> = Success(body: Body<T>) | Failure(status: nat, errorBody: Body<ErrorReply>)

  /** What a helper throws: an `Error` with a message, or the parse error of `response.json()`. */
  datatype ClientError = Message(text: string) | BodyUnreadable

  const UploadFallback := "Failed to upload photo"
  const ListFallback := "Failed to fetch photos"
  const DeleteFallback := "Failed to delete photo"

  /**
   * The message thrown for a non-OK reply: the body's `error` field when it is
   * a non-empty string, otherwise (also when the body does not parse) the fallback.
   */
  function ErrorMessage(body: Body<ErrorReply>, fallback: string): (m: string)
    ensures body.Parsed? && Truthy(body.value.error) ==> m == body.value.error.value
    ensures !(body.Parsed? && Truthy(body.value.error)) ==> m == fallback
    ensures fallback != "" ==> m != ""
  {
    match body
    case Parsed(ErrorReply(Some(e))) => if e != "" then e else fallback
    case _ => fallback
  }

  /** The `Photo` built from a successful upload reply; `now` is `new Date().toISOString()`. */
  function PhotoFromUpload(reply: UploadReply, userId: Option<string>, now: string): (p: Photo)
    ensures p.id == reply.photoId && p.signedUrl == reply.signedUrl
    ensures p.latitude == reply.latitude && p.longitude == reply.longitude
    ensures reply.filePath.None? ==> p.filePath == ""
    ensures reply.filePath.Some? ==> p.filePath == reply.filePath.value
    ensures userId.Some? ==> p.userId == userId
    ensures userId.None? ==> p.userId == reply.userId
    ensures reply.createdAt.Some? ==> p.createdAt == reply.createdAt.value
    ensures reply.createdAt.None? ==> p.createdAt == now
  {
    Photo(
      reply.photoId,
      reply.filePath.GetOr(""),
      reply.signedUrl,
      reply.latitude,
      reply.longitude,
      if userId.Some? then userId else reply.userId,
      reply.createdAt.GetOr(now))
  }

  /** `photosAPI.upload` once the request has been answered. */
  function UploadResult(resp: Response<UploadReply>, userId: Option<string>, now: string): (r: Result<Photo, ClientError>)
    ensures resp.Failure? ==> r == Err(Message(ErrorMessage(resp.errorBody, UploadFallback)))
    ensures resp.Success? && resp.body.Unparsable? ==> r == Err(BodyUnreadable)
    ensures r.Ok? <==> resp.Success? && resp.body.Parsed?
    ensures r.Ok? ==> r.value.id == resp.body.value.photoId
    ensures resp.Success? && resp.body.Parsed? ==> r == Ok(PhotoFromUpload(resp.body.value, userId, now))
  {
    match resp
    case Failure(_, errorBody) => Err(Message(ErrorMessage(errorBody, UploadFallback)))
    case Success(Unparsable) => Err(BodyUnreadable)
    case Success(Parsed(reply)) => Ok(PhotoFromUpload(reply, userId, now))
  }

  /** The message `photosAPI.getAll` throws for a non-OK reply: the selected message and the status. */
  function ListErrorMessage(body: Body<ErrorReply>, status: nat): (m: string)
    ensures StartsWith(m, ErrorMessage(body, ListFallback))
    ensures m[|ErrorMessage(body, ListFallback)|..] == " (status " + NatToString(status) + ")"
  {
    ErrorMessage(body, ListFallback) + " (status " + NatToString(status) + ")"
  }

  /** For one error body, different statuses give different messages. */
  lemma ListErrorMessageShowsStatus(body: Body<ErrorReply>, s1: nat, s2: nat)
    ensures ListErrorMessage(body, s1) == ListErrorMessage(body, s2) ==> s1 == s2
  {
    if ListErrorMessage(body, s1) == ListErrorMessage(body, s2) {
      var m1, m2 := ListErrorMessage(body, s1), ListErrorMessage(body, s2);
      var n := |ErrorMessage(body, ListFallback)| + |" (status "|;
      var d1, d2 := NatToString(s1), NatToString(s2);
      assert m1[n..] == d1 + ")";
      assert m2[n..] == d2 + ")";
      assert |d1| == |d2|;
      assert d1 == (d1 + ")")[..|d1|] == (d2 + ")")[..|d2|] == d2;
      NatToStringInjective(s1, s2);
    }
  }

  /** `photosAPI.getAll` once the request has been answered; a missing `photos` field is `[]`. */
  function ListResult(resp: Response<ListReply>): (r: Result<seq<Photo>, ClientError>)
    ensures resp.Failure? ==> r == Err(Message(ListErrorMessage(resp.errorBody, resp.status)))
    ensures resp.Success? && resp.body.Unparsable? ==> r == Err(BodyUnreadable)
    ensures r.Ok? <==> resp.Success? && resp.body.Parsed?
    ensures r.Ok? && resp.body.value.photos.None? ==> r.value == []
    ensures r.Ok? && resp.body.value.photos.Some? ==> r.value == resp.body.value.photos.value
  {
    match resp
    case Failure(status, errorBody) => Err(Message(ListErrorMessage(errorBody, status)))
    case Success(Unparsable) => Err(BodyUnreadable)
    case Success(Parsed(reply)) => Ok(reply.photos.GetOr([]))
  }

  /** `photosAPI.delete` once the request has been answered; an OK reply's body is not read. */
  function DeleteResult(resp: Response<()>): (r: Result<(), ClientError>)
    ensures r.Ok? <==> resp.Success?
    ensures resp.Failure? ==> r == Err(Message(ErrorMessage(resp.errorBody, DeleteFallback)))
  {
    match resp
    case Success(_) => Ok(())
    case Failure(_, errorBody) => Err(Message(ErrorMessage(errorBody, DeleteFallback)))
  }

  /** The row `markersAPI.add` inserts: an absent or empty label is sent as null. */
  function NewMarkerRow(longitude: real, latitude: real, markerLabel: Option<string>): (row: MarkerRow)
    ensures row.longitude == longitude && row.latitude == latitude
    ensures row.markerLabel.None? <==> !Truthy(markerLabel)
    ensures row.markerLabel.Some? ==> row.markerLabel == markerLabel && row.markerLabel.value != ""
  {
    MarkerRow(longitude, latitude, OrElse(markerLabel, None))
  }
}
