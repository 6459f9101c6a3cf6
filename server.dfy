/**
 * The photo routes of the edge function in supabase/functions/server/index.tsx:
 * `POST /photos/upload`, `GET /photos` and `DELETE /photos/:id`.
 *
 * The function keeps two pieces of state: the key-value store (`kv_store`,
 * keys to JSON records) and the private storage bucket (blob paths to
 * contents). Everything the handlers ask the outside world — the clock, the
 * base64 decoder, the storage upload, the signed-URL service, the storage
 * removal — is an input of the handler.
 */
module PhotoServer {
  import opened Common

  /** A property of the request's JSON body: `undefined`, `null`, or a value. */
  datatype Field<+T> = Undefined | Null | Value(v: T)

  /** The properties the upload handler destructures from the body. */
  datatype UploadFields = UploadFields(
    base64Data: Field<string>,
    filename: Field<string>,
    latitude: Field<real>,
    longitude: Field<real>,
    userId: Field<string>)

  /** The upload request body: not JSON at all, the JSON value `null`, or an object. */
  datatype UploadRequest = Malformed(parseError: string) | NullBody | Body(fields: UploadFields)

  /** The metadata record kept in the key-value store under the photo's id. */
  datatype PhotoRecord = PhotoRecord(
    id: string,
    filePath: string,
    signedUrl: string,
    latitude: Field<real>,
    longitude: Field<real>,
    createdAt: string)

  /** The JSON object a route answers with. */
  datatype Reply =
    | ErrorReply(error: string)
    | Uploaded(photoId: string, signedUrl: string, latitude: Field<real>, longitude: Field<real>, createdAt: string)
    | PhotoList(photos: seq<PhotoRecord>)
    | Deleted

  datatype Response = Response(status: nat, reply: Reply)

  /** What the upload handler learns from outside, in the order it asks. */
  datatype UploadEnv = UploadEnv(
    decodeError: Option<string>,  // `atob` rejects the payload, with this message
    pathClock: nat,               // `Date.now()` when the blob path is built
    uploadError: Option<string>,  // the storage upload fails, with this message
    signError: Option<string>,    // `createSignedUrl` fails, with this message
    signedUrl: Option<string>,    // the URL `createSignedUrl` returns
    idClock: nat,                 // `Date.now()` when the photo id is built
    createdAt: string)            // `new Date().toISOString()`

  const PhotoPrefix := "photo_"
  const MissingFieldsError := "Missing required fields"
  const NotFoundError := "Photo not found"

  predicate TruthyField(f: Field<string>) {
    f.Value? && f.v != ""
  }

  /** `body ?? {}`: a `null` body has no properties. */
  function FieldsOf(req: UploadRequest): UploadFields
    requires !req.Malformed?
  {
    if req.NullBody? then UploadFields(Undefined, Undefined, Undefined, Undefined, Undefined) else req.fields
  }

  /** The 400 check: an empty string counts as missing, `null` coordinates do not. */
  predicate MissingRequired(f: UploadFields) {
    !TruthyField(f.base64Data) || !TruthyField(f.filename) || f.latitude.Undefined? || f.longitude.Undefined?
  }

  /** The request gets past parsing and validation. */
  predicate Accepted(req: UploadRequest) {
    !req.Malformed? && !MissingRequired(FieldsOf(req))
  }

  /** The signed-URL step fails: an error, or no (or an empty) URL. */
  predicate SignFails(env: UploadEnv) {
    env.signError.Some? || !Truthy(env.signedUrl)
  }

  /** The message of the signing failure; a missing error object prints as `undefined`. */
  function SignFailureMessage(env: UploadEnv): string {
    "Failed to create signed URL: " + (if env.signError.Some? then env.signError.value else "undefined")
  }

  // ---------------------------------------------------------------------
  // Keys, paths and the data-URL prefix

  /** The key and id of a photo stored at clock value `t`. */
  function PhotoKey(t: nat): (k: string)
    ensures StartsWith(k, PhotoPrefix)
    ensures forall i :: |PhotoPrefix| <= i < |k| ==> IsDigit(k[i])
    ensures |k| > |PhotoPrefix| && ParseDecimal(k[|PhotoPrefix|..]) == t
  {
    ParseNatToString(t);
    var k := PhotoPrefix + NatToString(t);
    assert k[|PhotoPrefix|..] == NatToString(t);
    k
  }

  /** Photos stored at different milliseconds get different keys. */
  lemma PhotoKeyInjective(t1: nat, t2: nat)
    ensures PhotoKey(t1) == PhotoKey(t2) ==> t1 == t2
  {
    if PhotoKey(t1) == PhotoKey(t2) {
      assert NatToString(t1) == PhotoKey(t1)[|PhotoPrefix|..];
      assert NatToString(t2) == PhotoKey(t2)[|PhotoPrefix|..];
      NatToStringInjective(t1, t2);
    }
  }

  /** The blob path of a file uploaded at clock value `t`. */
  function BlobPath(t: nat, filename: string): (p: string)
    ensures StartsWith(p, NatToString(t) + "-")
    ensures p[|NatToString(t)| + 1..] == filename
  {
    NatToString(t) + "-" + filename
  }

  lemma BlobPathFirstDash(t: nat, filename: string)
    ensures IndexOf(BlobPath(t, filename), '-') == |NatToString(t)|
  {
    var d, p := NatToString(t), BlobPath(t, filename);
    assert p[|d|] == '-';
    assert forall i :: 0 <= i < |d| ==> p[i] == d[i] && IsDigit(p[i]);
  }

  /** The path determines both the clock value and the file name. */
  lemma BlobPathInjective(t1: nat, f1: string, t2: nat, f2: string)
    ensures BlobPath(t1, f1) == BlobPath(t2, f2) ==> t1 == t2 && f1 == f2
  {
    var d1, d2 := NatToString(t1), NatToString(t2);
    if BlobPath(t1, f1) == BlobPath(t2, f2) {
      var p := BlobPath(t1, f1);
      // the first '-' of the path ends the digits of the clock value
      BlobPathFirstDash(t1, f1);
      BlobPathFirstDash(t2, f2);
      assert d1 == p[..|d1|] == d2;
      NatToStringInjective(t1, t2);
    }
  }

  /** The index of the first `c` in `s`, or `|s|` when there is none. */
  function IndexOf(s: string, c: char): (i: nat)
    ensures i <= |s|
    ensures i < |s| ==> s[i] == c
    ensures forall j :: 0 <= j < i ==> s[j] != c
  {
    if s == [] then 0
    else if s[0] == c then 0
    else 1 + IndexOf(s[1..], c)
  }

  /**
   * `base64Data.split(",")[1] || base64Data`: the text between the first and
   * the second comma, unless there is no comma or that text is empty.
   */
  function StripDataUrlHeader(data: string): (r: string)
    ensures r == data || (r != "" && ',' !in r)
    // otherwise the result is the text right after the first comma
    ensures r != data ==> IndexOf(data, ',') < |data| && StartsWith(data[IndexOf(data, ',') + 1..], r)
  {
    var i := IndexOf(data, ',');
    if i == |data| then data
    else
      var rest := data[i + 1..];
      var segment := rest[..IndexOf(rest, ',')];
      if segment == "" then data else segment
  }

  /** A data URL `data:<mediatype>;base64,<payload>` (RFC 2397, section 3) yields its payload. */
  lemma StripDataUrlHeaderOfDataUrl(header: string, payload: string)
    requires ',' !in header && ',' !in payload && payload != ""
    ensures StripDataUrlHeader(header + "," + payload) == payload
  {
    var data := header + "," + payload;
    assert data[|header|] == ',';
    assert data[..|header|] == header;
    assert IndexOf(data, ',') == |header|;
    assert data[|header| + 1..] == payload;
    assert payload[..|payload|] == payload;
  }

  /**
   * For any input `h,a` followed by nothing or by a comma and more text, with
   * no comma in `h` or `a`: the result is `a`, or the whole input when `a` is
   * empty.
   */
  lemma StripDataUrlHeaderSegments(h: string, a: string, rest: string)
    requires ',' !in h && ',' !in a && (rest == "" || rest[0] == ',')
    ensures StripDataUrlHeader(h + "," + a + rest) == (if a == "" then h + "," + a + rest else a)
  {
    var data := h + "," + a + rest;
    assert data == h + ("," + a + rest);
    IndexOfAfter(h, "," + a + rest, ',');
    var tail := data[|h| + 1..];
    assert tail == a + rest;
    IndexOfAfter(a, rest, ',');
    assert tail[..|a|] == a;
  }

  /** The first `c` of `s + t`, when `s` has none and `t` is empty or starts with `c`, is at `|s|`. */
  lemma IndexOfAfter(s: string, t: string, c: char)
    requires c !in s && (t == "" || t[0] == c)
    ensures IndexOf(s + t, c) == |s|
  {
    assert forall j :: 0 <= j < |s| ==> (s + t)[j] == s[j];
    assert t != "" ==> (s + t)[|s|] == c;
  }

  /** Plain base64 text, which has no comma, is used as it is. */
  lemma StripDataUrlHeaderOfPlain(data: string)
    requires ',' !in data
    ensures StripDataUrlHeader(data) == data
  {
  }

  // ---------------------------------------------------------------------
  // The handlers

  class PhotoStore {
    /** The key-value store: key to metadata record. */
    var kv: map<string, PhotoRecord>
    /** The storage bucket: blob path to the base64 text its bytes were decoded from. */
    var bucket: map<string, string>

    /** Every record under a photo key carries that key as its id. */
    ghost predicate Valid()
      reads this
    {
      forall k :: k in kv && StartsWith(k, PhotoPrefix) ==> kv[k].id == k
    }

    /** The keys the listing route's prefix scan finds. */
    ghost function PhotoKeys(): set<string>
      reads this
    {
      set k | k in kv && StartsWith(k, PhotoPrefix)
    }

    constructor ()
      ensures Valid() && kv == map[] && bucket == map[]
    {
      kv := map[];
      bucket := map[];
    }

    /** `POST /photos/upload` */
    method Upload(req: UploadRequest, env: UploadEnv) returns (resp: Response)
      requires Valid()
      modifies this
      ensures Valid()
      // a body that is not JSON: the handler's catch answers 500
      ensures req.Malformed? ==>
        resp == Response(500, ErrorReply("Server error: " + req.parseError))
        && kv == old(kv) && bucket == old(bucket)
      // missing fields: 400, nothing stored
      ensures !req.Malformed? && MissingRequired(FieldsOf(req)) ==>
        resp == Response(400, ErrorReply(MissingFieldsError))
        && kv == old(kv) && bucket == old(bucket)
      // a payload `atob` rejects: 500, nothing stored
      ensures Accepted(req) && env.decodeError.Some? ==>
        resp == Response(500, ErrorReply("Server error: " + env.decodeError.value))
        && kv == old(kv) && bucket == old(bucket)
      // storage upload fails: 500, nothing stored
      ensures Accepted(req) && env.decodeError.None? && env.uploadError.Some? ==>
        resp == Response(500, ErrorReply("Upload failed: " + env.uploadError.value))
        && kv == old(kv) && bucket == old(bucket)
      // signing fails: 500 and no record, but the blob already written stays
      ensures Accepted(req) && env.decodeError.None? && env.uploadError.None? && SignFails(env) ==>
        resp == Response(500, ErrorReply(SignFailureMessage(env)))
        && kv == old(kv)
        && bucket == old(bucket)[BlobPath(env.pathClock, FieldsOf(req).filename.v) := StripDataUrlHeader(FieldsOf(req).base64Data.v)]
      // success: exactly these six fields under `photo_<ms>`, coordinates echoed
      ensures resp.status == 200 <==> Accepted(req) && env.decodeError.None? && env.uploadError.None? && !SignFails(env)
      ensures resp.status == 200 ==>
        var f := FieldsOf(req);
        var key := PhotoKey(env.idClock);
        var path := BlobPath(env.pathClock, f.filename.v);
        && kv == old(kv)[key := PhotoRecord(key, path, env.signedUrl.value, f.latitude, f.longitude, env.createdAt)]
        && bucket == old(bucket)[path := StripDataUrlHeader(f.base64Data.v)]
        && resp.reply == Uploaded(key, env.signedUrl.value, f.latitude, f.longitude, env.createdAt)
    {
      if req.Malformed? {
        return Response(500, ErrorReply("Server error: " + req.parseError));
      }
      var f := FieldsOf(req);
      if MissingRequired(f) {
        return Response(400, ErrorReply(MissingFieldsError));
      }
      var payload := StripDataUrlHeader(f.base64Data.v);
      if env.decodeError.Some? {
        return Response(500, ErrorReply("Server error: " + env.decodeError.value));
      }
      var filePath := BlobPath(env.pathClock, f.filename.v);
      if env.uploadError.Some? {
        return Response(500, ErrorReply("Upload failed: " + env.uploadError.value));
      }
      bucket := bucket[filePath := payload];
      if SignFails(env) {
        return Response(500, ErrorReply(SignFailureMessage(env)));
      }
      var photoId := PhotoKey(env.idClock);
      kv := kv[photoId := PhotoRecord(photoId, filePath, env.signedUrl.value, f.latitude, f.longitude, env.createdAt)];
      return Response(200, Uploaded(photoId, env.signedUrl.value, f.latitude, f.longitude, env.createdAt));
    }

    /** `GET /photos`: every record whose key starts with `photo_`, each once, in the store's order. */
    method List() returns (resp: Response)
      requires Valid()
      ensures resp.status == 200 && resp.reply.PhotoList?
      ensures |resp.reply.photos| == |PhotoKeys()|
      ensures forall i :: 0 <= i < |resp.reply.photos| ==>
        resp.reply.photos[i].id in PhotoKeys() && kv[resp.reply.photos[i].id] == resp.reply.photos[i]
      ensures forall k :: k in PhotoKeys() ==> kv[k] in resp.reply.photos
    {
      var keys := set k | k in kv && StartsWith(k, PhotoPrefix);
      var remaining := keys;
      var photos: seq<PhotoRecord> := [];
      while remaining != {}
        invariant remaining <= keys
        invariant |photos| + |remaining| == |keys|
        invariant forall i :: 0 <= i < |photos| ==> photos[i].id in keys - remaining && kv[photos[i].id] == photos[i]
        invariant forall k :: k in keys - remaining ==> kv[k] in photos
        decreases |remaining|
      {
        var k :| k in remaining;
        photos := photos + [kv[k]];
        remaining := remaining - {k};
      }
      return Response(200, PhotoList(photos));
    }

    /** `DELETE /photos/:id` */
    method Delete(photoId: string, removeError: Option<string>) returns (resp: Response)
      requires Valid()
      modifies this
      ensures Valid()
      ensures photoId !in old(kv) ==>
        resp == Response(404, ErrorReply(NotFoundError)) && kv == old(kv) && bucket == old(bucket)
      // the metadata goes even when the blob removal reports an error
      ensures photoId in old(kv) ==>
        && resp == Response(200, Deleted)
        && kv == old(kv) - {photoId}
        && bucket == (if removeError.None? then old(bucket) - {old(kv)[photoId].filePath} else old(bucket))
    {
      if photoId !in kv {
        return Response(404, ErrorReply(NotFoundError));
      }
      var photo := kv[photoId];
      if removeError.None? {
        bucket := bucket - {photo.filePath};
      }
      kv := kv - {photoId};
      return Response(200, Deleted);
    }
  }

  /**
   * Two uploads whose photo ids are built in the same millisecond both
   * succeed, but the second record replaces the first: one key is added, it
   * holds the second photo, and the first photo's blob stays in the bucket.
   */
  method UploadsInSameMillisecond(store: PhotoStore, r1: UploadRequest, e1: UploadEnv, r2: UploadRequest, e2: UploadEnv)
    returns (first: Response, second: Response)
    requires store.Valid() && e1.idClock == e2.idClock
    modifies store
    ensures first.status == 200 ==> Accepted(r1)
    ensures second.status == 200 ==> Accepted(r2)
    ensures Accepted(r1) && Accepted(r2) && first.status == 200 && second.status == 200 ==>
      var key := PhotoKey(e1.idClock);
      var path1 := BlobPath(e1.pathClock, FieldsOf(r1).filename.v);
      var path2 := BlobPath(e2.pathClock, FieldsOf(r2).filename.v);
      && first.reply.Uploaded? && second.reply.Uploaded?
      && first.reply.photoId == second.reply.photoId == key
      && store.kv.Keys == old(store.kv.Keys) + {key}
      && store.kv[key].filePath == path2
      && (path1 != path2 ==> path1 in store.bucket && store.bucket[path1] == StripDataUrlHeader(FieldsOf(r1).base64Data.v))
  {
    first := store.Upload(r1, e1);
    second := store.Upload(r2, e2);
  }
}
