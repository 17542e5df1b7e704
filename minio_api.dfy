/**
 * The HTTP handlers of the MinIO gateway: bucket resolution, the upload
 * pipeline, the URL strategy of the download handler, and the two listing
 * pipelines. The object store is not called: each handler receives the
 * store's answer as a parameter and records the request it sends in the
 * ghost trace `calls`.
 */
module MinioApi {
  import Ascii

  newtype byte = b: int | 0 <= b < 0x100

  /** The answer of a store call or of a request-parsing step. */
  datatype Outcome<T> = Ok(value: T) | Err(msg: string)

  /** One JSON value of a handler's response body. */
  datatype Value = Str(s: string) | Bool(b: bool) | Strs(items: seq<string>)

  /** What a handler leaves for the HTTP layer to send. */
  datatype Response =
    | Json(status: int, body: map<string, Value>)  // a status code and a JSON object
    | NoBody                                       // the handler wrote nothing
    | Fatal(reason: string)                        // log.Fatal*: the process ends here

  /** One item of the store's lazy object listing. */
  datatype ObjectInfo = Object(key: string) | ObjectErr(err: string)

  /** One bucket record of the store's bucket listing. */
  datatype BucketInfo = BucketInfo(name: string)

  /** An uploaded multipart file: its name and the outcome of reading its
      content. The size its header declares is only logged, so it is absent. */
  datatype FormFile = FormFile(filename: string, content: Outcome<seq<byte>>)

  /** A request the gateway sends to the object store. */
  datatype StoreCall =
    | PutObject(bucket: string, key: string, data: seq<byte>, size: int, contentType: string)
    | PresignedGetObject(bucket: string, key: string, expirySeconds: int)
    | ListObjectsCall(bucket: string, recursive: bool)
    | ListBucketsCall

  const PresignExpirySeconds := 1000
  const UploadBucket := "public-demo-bucket"
  const UploadContentType := "application/octet-stream"
  const UploadMessage := "file uploaded successfully"
  const FileNameRequired := "file_name query parameter is required"
  const UploadErrorPrefix := "Error uploading object to MinIO: "

  /** The bucket in force after a request carrying the `bucket` query `query`. */
  function Resolve(current: string, query: string): string
  {
    if query != "" then query else current
  }

  /** The bucket in force after a series of requests, each applying its query. */
  function ResolveAll(current: string, queries: seq<string>): string
    decreases |queries|
  {
    if queries == [] then current else ResolveAll(Resolve(current, queries[0]), queries[1..])
  }

  /** Requests without a `bucket` query never move the default. */
  lemma {:induction false} EmptyQueriesKeepBucket(current: string, queries: seq<string>)
    requires forall i :: 0 <= i < |queries| ==> queries[i] == ""
    ensures ResolveAll(current, queries) == current
  {
    if queries != [] {
      EmptyQueriesKeepBucket(current, queries[1..]);
    }
  }

  /** A non-empty query becomes the default and stays the default for every
      later request that carries no query of its own. */
  lemma {:induction false} OverridePersists(current: string, before: seq<string>, x: string, after: seq<string>)
    requires x != ""
    requires forall i :: 0 <= i < |after| ==> after[i] == ""
    ensures ResolveAll(current, before + [x] + after) == x
    decreases |before|
  {
    if before == [] {
      assert before + [x] + after == [x] + after;
      EmptyQueriesKeepBucket(x, after);
    } else {
      assert (before + [x] + after)[1..] == before[1..] + [x] + after;
      OverridePersists(Resolve(current, before[0]), before[1..], x, after);
    }
  }

  /** The bucket in force is always the initial one or one of the queries. */
  lemma {:induction false} ResolvedBucketOrigin(current: string, queries: seq<string>)
    ensures var b := ResolveAll(current, queries);
            b == current || exists i :: 0 <= i < |queries| && queries[i] == b && b != ""
    decreases |queries|
  {
    if queries != [] {
      var next := Resolve(current, queries[0]);
      ResolvedBucketOrigin(next, queries[1..]);
      var b := ResolveAll(next, queries[1..]);
      if b != current {
        if b == next {
          assert queries[0] == b && b != "";
        } else {
          var i :| 0 <= i < |queries[1..]| && queries[1..][i] == b && b != "";
          assert queries[i + 1] == b;
        }
      }
    }
  }

  /** The public URL of an object: endpoint, bucket and key joined by '/'. */
  function PublicUrl(endpoint: string, bucket: string, key: string): (u: string)
    ensures |u| == |endpoint| + |bucket| + |key| + 2
    ensures u[..|endpoint|] == endpoint && u[|endpoint|] == '/'
    ensures u[|u| - |key| - 1] == '/' && u[|u| - |key|..] == key
  {
    endpoint + "/" + bucket + "/" + key
  }

  /** The position of the first '/' in `s`, if any. */
  function FirstSlash(s: string): (k: Outcome<nat>)
    ensures k.Ok? ==> k.value < |s| && s[k.value] == '/' && forall j :: 0 <= j < k.value ==> s[j] != '/'
    ensures k.Err? ==> forall j :: 0 <= j < |s| ==> s[j] != '/'
  {
    if s == [] then Err("no '/'")
    else if s[0] == '/' then Ok(0)
    else match FirstSlash(s[1..])
      case Ok(i) => Ok(i + 1)
      case Err(m) => Err(m)
  }

  /** Reads the bucket and key back out of a public URL for `endpoint`. */
  function SplitPublicUrl(endpoint: string, u: string): Outcome<(string, string)>
  {
    if |u| <= |endpoint| || u[..|endpoint| + 1] != endpoint + "/" then Err("not under the endpoint")
    else
      var rest := u[|endpoint| + 1..];
      match FirstSlash(rest)
      case Ok(i) => Ok((rest[..i], rest[i + 1..]))
      case Err(m) => Err(m)
  }

  /** For a bucket name without '/' (S3 rejects such names; the gateway does
      not check), the public URL determines the bucket and the key it was
      built from. */
  lemma PublicUrlRoundTrip(endpoint: string, bucket: string, key: string)
    requires forall i :: 0 <= i < |bucket| ==> bucket[i] != '/'
    ensures SplitPublicUrl(endpoint, PublicUrl(endpoint, bucket, key)) == Ok((bucket, key))
  {
    var u := PublicUrl(endpoint, bucket, key);
    assert u[..|endpoint| + 1] == endpoint + "/";
    var rest := u[|endpoint| + 1..];
    assert rest == bucket + "/" + key;
    assert rest[|bucket|] == '/';
    var k := FirstSlash(rest);
    assert k.Ok? && k.value == |bucket| by {
      forall j | 0 <= j < |bucket| ensures rest[j] != '/' {
        assert rest[j] == bucket[j];
      }
    }
    assert rest[..|bucket|] == bucket;
    assert rest[|bucket| + 1..] == key;
  }

  /** Without that restriction the join is ambiguous: a bucket containing
      '/' at position i yields the same public URL as the bucket cut at i
      with the rest moved in front of the key. */
  lemma PublicUrlAmbiguous(endpoint: string, bucket: string, key: string, i: int)
    requires 0 <= i < |bucket| && bucket[i] == '/'
    ensures PublicUrl(endpoint, bucket, key) == PublicUrl(endpoint, bucket[..i], bucket[i + 1..] + "/" + key)
  {
  }

  /** The access-type test of the download handler. */
  function IsPublicAccess(accessType: string): bool
  {
    Ascii.EqualFold(accessType, "public")
  }

  /** "public" selects the public URL whatever its letter case; the empty
      string, and any value of another length, selects the presigned URL. */
  lemma AccessTypeDispatch(accessType: string)
    ensures IsPublicAccess("public") && IsPublicAccess("PUBLIC") && IsPublicAccess("Public")
    ensures !IsPublicAccess("") && !IsPublicAccess("private")
    ensures |accessType| != 6 ==> !IsPublicAccess(accessType)
  {
  }

  /** The first error of a listing sits at position `k`. */
  ghost predicate FirstError(stream: seq<ObjectInfo>, k: int)
  {
    0 <= k < |stream| && stream[k].ObjectErr? && forall j :: 0 <= j < k ==> stream[j].Object?
  }

  /** The result of draining a listing: every key in stream order, or the
      first error and no keys at all. */
  function ListedKeys(stream: seq<ObjectInfo>): (r: Outcome<seq<string>>)
    ensures r.Ok? <==> forall i :: 0 <= i < |stream| ==> stream[i].Object?
    ensures r.Ok? ==> |r.value| == |stream| && forall i :: 0 <= i < |stream| ==> r.value[i] == stream[i].key
    ensures r.Err? ==> exists k :: FirstError(stream, k) && r.msg == stream[k].err
  {
    if stream == [] then Ok([])
    else match stream[0]
      case ObjectErr(e) =>
        assert FirstError(stream, 0);
        Err(e)
      case Object(key) =>
        match ListedKeys(stream[1..])
        case Ok(keys) => Ok([key] + keys)
        case Err(e) =>
          assert exists k :: FirstError(stream, k) && e == stream[k].err by {
            var k :| FirstError(stream[1..], k) && e == stream[1..][k].err;
            assert FirstError(stream, k + 1);
          }
          Err(e)
  }

  /** Only the items up to and including the first error decide the outcome:
      what the store would have sent after it is never looked at. */
  lemma FailFast(stream: seq<ObjectInfo>, k: int, later: seq<ObjectInfo>)
    requires FirstError(stream, k)
    ensures ListedKeys(stream) == Err(stream[k].err)
    ensures ListedKeys(stream[..k + 1] + later) == Err(stream[k].err)
  {
    FirstErrorUnique(stream, k);
    var s := stream[..k + 1] + later;
    assert FirstError(s, k) by {
      assert s[k] == stream[k];
      assert forall j :: 0 <= j < k ==> s[j] == stream[j];
    }
    FirstErrorUnique(s, k);
  }

  /** Whichever way the listing fails, it reports the first error. */
  lemma FirstErrorUnique(stream: seq<ObjectInfo>, k: int)
    requires FirstError(stream, k)
    ensures ListedKeys(stream) == Err(stream[k].err)
  {
  }

  /** The names of the buckets, in the order the store returned them. */
  function Names(buckets: seq<BucketInfo>): (names: seq<string>)
    ensures |names| == |buckets| && forall i :: 0 <= i < |buckets| ==> names[i] == buckets[i].name
  {
    if buckets == [] then [] else [buckets[0].name] + Names(buckets[1..])
  }

  /**
   * The gateway: the endpoint it was configured with and the process-wide
   * default bucket, which any request carrying a `bucket` query overwrites.
   */
  class Gateway {
    const endpoint: string
    var bucketName: string
    /** The requests sent to the object store so far, oldest first. */
    ghost var calls: seq<StoreCall>

    constructor (endpoint: string, defaultBucket: string)
      ensures this.endpoint == endpoint && bucketName == defaultBucket && calls == []
    {
      this.endpoint := endpoint;
      bucketName := defaultBucket;
      calls := [];
    }

    /** A non-empty `bucket` query replaces the default for this and all later requests. */
    method InitializeBucketIfProvided(query: string)
      modifies this`bucketName
      ensures query != "" ==> bucketName == query
      ensures query == "" ==> bucketName == old(bucketName)
    {
      if query != "" {
        bucketName := query;
      }
    }

    /** Asks the store for a presigned GET URL of `fileName` in the current
        bucket; a store failure ends the process (reported as Err). */
    method CreatePresignedUrl(fileName: string, presigned: Outcome<string>) returns (r: Outcome<string>)
      modifies this`calls
      ensures calls == old(calls) + [PresignedGetObject(bucketName, fileName, PresignExpirySeconds)]
      ensures r == presigned
    {
      calls := calls + [PresignedGetObject(bucketName, fileName, PresignExpirySeconds)];
      r := presigned;
    }

    /** GET /file: a public URL or a presigned URL for `fileName`. */
    method DownloadFile(fileName: string, accessType: string, bucketQuery: string, presigned: Outcome<string>)
      returns (resp: Response)
      modifies this
      ensures fileName == "" ==>
        resp == Json(400, map["error" := Str(FileNameRequired)]) &&
        bucketName == old(bucketName) && calls == old(calls)
      ensures fileName != "" ==> bucketName == Resolve(old(bucketName), bucketQuery)
      ensures fileName != "" && IsPublicAccess(accessType) ==>
        calls == old(calls) &&
        resp == Json(200, map["url" := Str(PublicUrl(endpoint, bucketName, fileName)), "error" := Bool(false)])
      ensures fileName != "" && !IsPublicAccess(accessType) ==>
        calls == old(calls) + [PresignedGetObject(bucketName, fileName, PresignExpirySeconds)] &&
        resp == match presigned
                case Ok(url) => Json(200, map["url" := Str(url), "error" := Bool(false)])
                case Err(m) => Fatal(m)
    {
      if fileName == "" {
        resp := Json(400, map["error" := Str(FileNameRequired)]);
        return;
      }
      InitializeBucketIfProvided(bucketQuery);
      if IsPublicAccess(accessType) {
        resp := Json(200, map["url" := Str(PublicUrl(endpoint, bucketName, fileName)), "error" := Bool(false)]);
      } else {
        var r := CreatePresignedUrl(fileName, presigned);
        match r
        case Ok(url) =>
          resp := Json(200, map["url" := Str(url), "error" := Bool(false)]);
        case Err(m) =>
          resp := Fatal(m);
      }
    }

    /** POST /file: stores the uploaded file under its own name in the
        fixed upload bucket. */
    method UploadFile(form: Outcome<FormFile>, bucketQuery: string, put: Outcome<int>) returns (resp: Response)
      modifies this
      ensures form.Err? ==>
        resp == Json(400, map["error" := Str(form.msg)]) &&
        bucketName == old(bucketName) && calls == old(calls)
      ensures form.Ok? ==> bucketName == Resolve(old(bucketName), bucketQuery)
      ensures form.Ok? && form.value.content.Err? ==>
        resp == Json(500, map["error" := Str(form.value.content.msg)]) && calls == old(calls)
      ensures form.Ok? && form.value.content.Ok? ==>
        var data := form.value.content.value;
        calls == old(calls) + [PutObject(UploadBucket, form.value.filename, data, |data|, UploadContentType)] &&
        resp == match put
                case Ok(_) => Json(200, map["filename" := Str(form.value.filename), "message" := Str(UploadMessage)])
                case Err(m) => Fatal(UploadErrorPrefix + m)
    {
      if form.Err? {
        resp := Json(400, map["error" := Str(form.msg)]);
        return;
      }
      var file := form.value;
      InitializeBucketIfProvided(bucketQuery);
      if file.content.Err? {
        resp := Json(500, map["error" := Str(file.content.msg)]);
        return;
      }
      var fileBytes := file.content.value;
      calls := calls + [PutObject(UploadBucket, file.filename, fileBytes, |fileBytes|, UploadContentType)];
      match put
      case Err(m) =>
        resp := Fatal(UploadErrorPrefix + m);
      case Ok(_) =>
        resp := Json(200, map["filename" := Str(file.filename), "message" := Str(UploadMessage)]);
    }

    /** GET /objects: drains the store's recursive listing of the current
        bucket, failing on the first error. */
    method ListObjects(bucketQuery: string, stream: seq<ObjectInfo>) returns (resp: Response)
      modifies this
      ensures bucketName == Resolve(old(bucketName), bucketQuery)
      ensures calls == old(calls) + [ListObjectsCall(bucketName, true)]
      ensures resp == match ListedKeys(stream)
                      case Ok(keys) => Json(200, map["error" := Bool(false), "data" := Strs(keys)])
                      case Err(m) => Json(400, map["error" := Bool(false), "data" := Str(m)])
    {
      InitializeBucketIfProvided(bucketQuery);
      calls := calls + [ListObjectsCall(bucketName, true)];
      var objects: seq<string> := [];
      var i := 0;
      while i < |stream|
        invariant 0 <= i <= |stream|
        invariant |objects| == i
        invariant forall j :: 0 <= j < i ==> stream[j].Object? && objects[j] == stream[j].key
      {
        if stream[i].ObjectErr? {
          FailFast(stream, i, []);
          resp := Json(400, map["error" := Bool(false), "data" := Str(stream[i].err)]);
          return;
        }
        objects := objects + [stream[i].key];
        i := i + 1;
      }
      assert objects == ListedKeys(stream).value;
      resp := Json(200, map["error" := Bool(false), "data" := Strs(objects)]);
    }

    /** GET /buckets: the names of all buckets; nothing is written when the
        store fails. */
    method ListBuckets(buckets: Outcome<seq<BucketInfo>>) returns (resp: Response)
      modifies this`calls
      ensures calls == old(calls) + [ListBucketsCall]
      ensures buckets.Err? ==> resp == NoBody
      ensures buckets.Ok? ==> resp == Json(200, map["buckets" := Strs(Names(buckets.value))])
    {
      calls := calls + [ListBucketsCall];
      if buckets.Err? {
        resp := NoBody;
        return;
      }
      var names: seq<string> := [];
      for i := 0 to |buckets.value|
        invariant names == Names(buckets.value[..i])
      {
        assert buckets.value[..i + 1] == buckets.value[..i] + [buckets.value[i]];
        names := names + [buckets.value[i].name];
      }
      assert buckets.value[..|buckets.value|] == buckets.value;
      resp := Json(200, map["buckets" := Strs(names)]);
    }
  }

  /** A `bucket` query on one request redirects the object listing of a
      later request that names no bucket. */
  method OverrideLeaksIntoLaterRequests(g: Gateway, fileName: string, x: string, presigned: Outcome<string>, stream: seq<ObjectInfo>)
    requires fileName != "" && x != ""
    requires presigned.Ok?
    modifies g
    ensures g.bucketName == x
    ensures |g.calls| == |old(g.calls)| + 2
    ensures g.calls[|g.calls| - 2] == PresignedGetObject(x, fileName, PresignExpirySeconds)
    ensures g.calls[|g.calls| - 1] == ListObjectsCall(x, true)
  {
    AccessTypeDispatch("private");
    var _ := g.DownloadFile(fileName, "private", x, presigned);
    var _ := g.ListObjects("", stream);
  }
}
