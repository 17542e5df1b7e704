# MinIO gateway handlers, modelled in Dafny

This project models the request handlers of a small HTTP gateway that sits in
front of an S3-compatible object store (MinIO). It covers four things:

- **Bucket resolution.** A process-wide default bucket is overwritten by any
  request that carries a non-empty `bucket` query. The new value stays in
  force for all later requests.
- **Upload.** `POST /file` reads the multipart file and puts it under its own
  file name. The target bucket is always the literal `public-demo-bucket`.
- **Download URL.** `GET /file` returns either a public URL, built as
  `endpoint/bucket/key`, or a presigned URL that expires after 1000 seconds.
  A case-insensitive `public` access type picks the public URL; every other
  value picks the presigned one.
- **Listings.** `GET /objects` drains the store's recursive object listing and
  fails on the first error, returning no keys. `GET /buckets` lists bucket
  names.

Files:

- `ascii.dfy`, module `Ascii`: ASCII case-insensitive equality, standing in
  for Go's `strings.EqualFold`.
- `minio_api.dfy`, module `MinioApi`: the response and store datatypes, the
  pure parts (bucket resolution over a series of requests, the public URL and
  its inverse, the access-type test, draining a listing), and class `Gateway`.

`Gateway` holds the configured `endpoint` (a constant) and the mutable
`bucketName`. Its methods are the handlers. The store is not called. Each
handler receives the store's answer as a parameter: the listing stream, the
bucket list, the presign outcome or the put outcome. The request the gateway
sends to the store (put, presign, object listing, bucket listing) is recorded in the ghost trace `calls`. That is how the
contracts state which bucket, key, size and expiry a store call uses, and that
the public-URL path makes no store call at all. A `log.Fatal*` call becomes
the terminal `Fatal` response. A handler that writes nothing becomes `NoBody`.

The model follows the code, also where the handlers' own doc comments say otherwise (handler/minio_api.go:18-19, 88-93):

- The missing-`file_name` response is `400 {"error": "file_name query parameter is required"}`.
  It is not a `{message, error: true}` pair.
- A presign failure ends the process inside `CreatePresignedUrl`. The 400
  branch of `DownloadFile` (handler/minio_api.go:117-125) therefore never
  runs, and the model has no such branch.
- An upload ignores the resolved bucket and always writes to
  `public-demo-bucket`. The `bucket` query still changes the default for
  later requests.
- A missing form file is rejected before the override is applied. A failed
  read of the file content happens after it, so the default has already
  changed by then; the response is 500.

## Model

| member | source | states |
|---|---|---|
| `Ascii.EqualFold` | handler/minio_api.go:106 | the access-type comparison holds exactly when both strings have the same length and agree position by position after ASCII lower-casing |
| `Ascii.EqualFoldRespectsCase` | handler/minio_api.go:106 | two access types that differ only in letter case get the same answer against any keyword |
| `MinioApi.AccessTypeDispatch` | handler/minio_api.go:106-131 | `public`, `PUBLIC` and `Public` select the public URL; the empty string, `private` and any value not six characters long fall through to the presigned URL |
| `MinioApi.EmptyQueriesKeepBucket` | handler/minio_api.go:164-168 | a run of requests without a `bucket` query leaves the default bucket unchanged |
| `MinioApi.OverridePersists` | handler/minio_api.go:164-168 | after a request with a non-empty `bucket` query X, X is the default for every later request without a query, whatever came before |
| `MinioApi.ResolvedBucketOrigin` | handler/minio_api.go:164-168 | the default bucket after any run of requests is the initial default or one of the non-empty queries |
| `MinioApi.Gateway.InitializeBucketIfProvided` | handler/minio_api.go:164-168 | a non-empty query becomes `bucketName`; an empty one leaves it unchanged; nothing else changes |
| `MinioApi.PublicUrl` | handler/minio_api.go:180-182 | the public URL starts with the endpoint and a '/', ends with '/' and the key, and is two characters longer than its three parts |
| `MinioApi.PublicUrlRoundTrip` | handler/minio_api.go:180-182 | for a bucket name without '/', the bucket and key are read back unchanged from the public URL, so distinct objects get distinct URLs |
| `MinioApi.PublicUrlAmbiguous` | handler/minio_api.go:180-182 | a bucket containing '/' at any position i gives the same public URL as the bucket cut at i with the remainder moved in front of the key, so the no-'/' condition of the round trip cannot be dropped |
| `MinioApi.Gateway.CreatePresignedUrl` | handler/minio_api.go:170-178 | one presign request goes to the store, for the current `bucketName`, the given file name and an expiry of 1000 seconds; its outcome is returned unchanged |
| `MinioApi.Gateway.DownloadFile` | handler/minio_api.go:94-132 | an empty file name gives 400 with the fixed message and changes neither the bucket nor the store; otherwise the bucket query is applied first; a public access type gives 200 with the public URL over the updated bucket and no store call; any other access type sends one presign request and gives 200 with the signed URL, or Fatal with the store's error |
| `MinioApi.Gateway.UploadFile` | handler/minio_api.go:22-70 | a missing form file gives 400 with its error before the bucket query is applied; a read failure gives 500; otherwise exactly one put goes to `public-demo-bucket` with the file name as key, the bytes read as data, their count as size and `application/octet-stream` as type; success gives 200 with the file name and `file uploaded successfully`; a put error is Fatal |
| `MinioApi.ListedKeys` | handler/minio_api.go:216-232 | draining a listing succeeds exactly when every item is an object, and then yields every key in stream order; otherwise it yields the message of the first error |
| `MinioApi.FirstErrorUnique` | handler/minio_api.go:217-225 | when the first error sits at position k, the drained result is exactly that error |
| `MinioApi.FailFast` | handler/minio_api.go:217-225 | items after the first error never affect the result: any continuation of the stream gives the same error |
| `MinioApi.Gateway.ListObjects` | handler/minio_api.go:206-233 | applies the bucket query, sends one recursive listing request for the updated `bucketName`, and answers 200 with `error: false` and all keys, or 400 with `error: false` and the first error's message |
| `MinioApi.Names` | handler/minio_api.go:153-157 | the bucket names, one per record, in the store's order |
| `MinioApi.Gateway.ListBuckets` | handler/minio_api.go:146-162 | one bucket-listing request goes to the store; a store error writes no response body; otherwise 200 with the bucket names in the store's order; the default bucket is untouched |
| `MinioApi.OverrideLeaksIntoLaterRequests` | handler/minio_api.go:104 | a download that carries `bucket=X` and whose presign succeeds makes a later object listing without a query list bucket X |

## Left out

- The gin context, multipart parsing, query extraction and JSON encoding. Inputs are strings, byte sequences and `Outcome` values. A response body is a map from field names to values. A nil Go slice encodes as `null` rather than `[]`; the model does not show that.
- The minio-go client. Put, list, presign and bucket listing are abstract outcomes passed to the handlers. How a presigned URL is computed is cryptography inside the client and is not modelled. The empty request parameters passed to the presign call are not recorded.
- Concurrency. Requests are sequential calls on one `Gateway`, so the race between concurrent requests on the shared default bucket is not modelled.
- Logging (`log.Printf`, `fmt.Println`) and real process termination. The size declared in the upload's header is only logged, so `FormFile` does not carry it. `log.Fatal*` is only the terminal `Fatal` response; the model does not stop accepting calls after it.
- `Ascii.EqualFold`: compares with ASCII case folding only, not Go's full Unicode simple folding. The only keyword compared against is the ASCII word `public`.
- The `io.Copy` buffering loop. The file content is read as a whole, as an `Outcome` of a byte sequence.
- The initial values of the default bucket and of the endpoint are defined in a file that is not part of this model. They are constructor parameters.
- main.go (startup, client construction, CORS middleware), handler/routes.go (route table), utils/common.go (a struct with no logic) and script.js (browser UI) are not part of this model.
