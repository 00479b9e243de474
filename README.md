# Tubely video upload: a verified model

The model covers the decision logic of the video-upload path of a small Go
service, Tubely. A client uploads an mp4 for a video record it owns. The
handler checks the request, stages the upload in a temporary file and
classifies its aspect ratio with ffprobe. It then remuxes the file for fast
start with ffmpeg, stores it in S3 under a random key inside
`landscape/`, `portrait/` or `other/`, and records the CloudFront URL in the
database.

The model has four modules:

- `Wrappers` (`wrappers.dfy`): `Option`.
- `Base64Url` (`base64url.dfy`): the unpadded base64url encoding that
  `getAssetPath` uses, that is, the alphabet of section 5 of RFC 4648 with
  padding omitted as section 3.2 allows. It includes a decoder and the
  round trip.
- `Assets` (`assets.dfy`): the helpers of `assets.go`:
  - the media-type extension, with Go's `strings.Split` written out;
  - the image whitelist;
  - the asset path, with the 32 random bytes as a parameter;
  - the aspect-ratio classifier and the checks `getVideoAspectRatio` makes
    on ffprobe's result;
  - the checks `processVideoForFastStart` makes on ffmpeg's result.
- `UploadVideo` (`upload_video.dfy`): `handlerUploadVideo`. Every library
  call, service call and external tool is an abstract outcome in
  `Outcomes`. The handler is specified in two ways, and the two are proved
  to agree:
  - `HandlerRun` follows the code phase by phase;
  - `ExitOf` names the step a request stops at, with the response, the call
    log and the files created and removed each given as a function of that
    exit.

  The class `Host` holds the state the handler changes: the set of live
  temporary files and the log of calls to S3 and to the database: the
  `GetVideo` lookup, `PutObject` and `UpdateVideo`.
  `Host.HandlerUploadVideo` runs the steps one by one. It is cut into five
  phase methods where the Go function's phases end. The `os.Remove` calls
  the Go code defers are kept in a `deferred` set, which is passed along and
  applied at whichever return the request takes.

The object key is a parameter of both handler specifications. The handler
passes `KeyOf(io)`, whose text is described by `KeyShape` and `Mp4Key`.

## Model

| member | source | states |
|---|---|---|
| Base64Url.Char | assets.go:30 | every 6-bit value is written as a character of the URL-safe alphabet `A-Z a-z 0-9 - _` |
| Base64Url.Value | assets.go:30 | a character has a 6-bit value exactly when it is in the URL-safe alphabet |
| Base64Url.ValueOfChar | assets.go:30 | reading a character back gives the value it encodes |
| Base64Url.CharInjective | assets.go:30 | distinct values are written as distinct characters |
| Base64Url.EncodeLength | assets.go:30 | unpadded encoding of n bytes has ceil(8n/6) characters, so 32 bytes give 43 |
| Base64Url.EncodeAlphabet | assets.go:30 | every character of the encoding is URL-safe; in particular there is no `=` padding |
| Base64Url.DecodeShort | assets.go:30 | final groups of one or two bytes decode back to those bytes |
| Base64Url.DecodeEncode | assets.go:30 | decoding the encoding of any byte sequence gives that sequence back |
| Base64Url.EncodeInjective | assets.go:30 | two byte sequences with the same encoding are equal |
| Assets.SplitPieces | assets.go:35 | `strings.Split` with a one-character separator gives one more piece than separators, none of which contains the separator, and joining the pieces restores the input |
| Assets.SplitNoSeparator | assets.go:35 | a string without the separator splits into itself alone |
| Assets.SplitAtFirst | assets.go:35 | splitting `a + sep + b`, where `a` has no separator, gives `a` followed by the pieces of `b` |
| Assets.MediaTypeToExt | assets.go:34-40 | the extension always starts with `.` and never contains `/` |
| Assets.MediaTypeWithOneSlash | assets.go:34-40 | for `type/subtype` with no other slash, the extension is `.` + subtype |
| Assets.MediaTypeWithoutOneSlash | assets.go:36-37 | with zero slashes or more than one, the extension is `.bin` |
| Assets.OneSlashDecomposes | assets.go:34-40 | a media type with exactly one slash is some `type/subtype`, and its extension is `.` and the text after the slash |
| Assets.ExtensionOfVideoMp4 | assets.go:34-40 | `video/mp4` has extension `.mp4` |
| Assets.ExtensionOfImagePng | assets.go:34-40 | `image/png` has extension `.png` |
| Assets.ExtensionOfImageJpeg | assets.go:34-40 | `image/jpeg` has extension `.jpeg` |
| Assets.ExtensionWithoutSlash | assets.go:36-37 | `""` and `mp4` have extension `.bin` |
| Assets.IsValidImageType | assets.go:42-51 | true exactly for `image/jpeg` and `image/png` |
| Assets.ValidImageExtension | assets.go:42-51 | an accepted image type has extension `.jpeg` or `.png` |
| Assets.GetAssetPath | assets.go:24-32 | the path is the 43-character base64url name of the random bytes (every character URL-safe) followed by the media type's extension, and it contains no `/` |
| Assets.AssetNameDecodes | assets.go:30-31 | the first 43 characters of the path decode back to the 32 random bytes |
| Assets.AssetPathInjective | assets.go:24-32 | equal asset paths come from equal random bytes, whatever the media types |
| Assets.WindowsDisjoint | assets.go:86-91 | no ratio lies within 0.1 of both 16/9 and 9/16, so at most one label test can succeed |
| Assets.ClassifyMatchesIntegers | assets.go:82-92 | the classifier on exact reals agrees with an independent integer-only reference: `10·abs(9w − 16h) < 9·abs(h)` gives `16:9`, the mirror test gives `9:16`; height 0 gives `other` |
| Assets.ClassifyScaleInvariant | assets.go:84 | scaling width and height by the same non-zero factor does not change the label |
| Assets.ClassifyExamples | assets.go:82-92 | 1920×1080 is `16:9`, 1080×1920 is `9:16`, a square is `other`, and height 0 is `other` |
| Assets.GetVideoAspectRatio | assets.go:53-93 | a failed ffprobe run, unparsable output and an empty stream list each give their error and no label; there is no error exactly when the run succeeded with at least one stream, and then the label classifies the first stream only |
| Assets.ProcessVideoForFastStart | assets.go:95-120 | an ffmpeg failure (carrying its stderr), a failed stat and an empty output each give their error and no path; there is no error exactly when ffmpeg succeeded and the output is non-empty, and then the path is the input path with `.processing` appended |
| UploadVideo.Directory | handler_upload_video.go:91-99 | `16:9` maps to `landscape`, `9:16` to `portrait`, and every other label to `other`, each in both directions |
| UploadVideo.DirectoryHasNoSlash | handler_upload_video.go:91-99 | a directory name is never empty and has no slash |
| UploadVideo.HandlerMatchesExit | handler_upload_video.go:20-145 | the phase-by-phase run of the handler has exactly the response, call log and final file set that its first failing step (or completion) determines |
| UploadVideo.VideoPartMatchesExit | handler_upload_video.go:49-64 | the same agreement from the form-file check on, for an authorized request |
| UploadVideo.StageMatchesExit | handler_upload_video.go:66-89 | the same agreement from temp-file creation on, for an accepted mp4 part |
| UploadVideo.RemuxMatchesExit | handler_upload_video.go:91-113 | the same agreement from the fast-start remux on, for a staged and probed upload |
| UploadVideo.PublishMatchesExit | handler_upload_video.go:115-145 | the same agreement for the upload and the database update |
| UploadVideo.FailuresBeforeStaging | handler_upload_video.go:20-70 | a request that stops before a temp file exists gets a 400, 401 or 500 error and leaves the files unchanged; its only call, if any, is the `GetVideo` lookup, so nothing is uploaded or updated |
| UploadVideo.OwnerMismatch | handler_upload_video.go:39-47 | a caller who does not own the video gets 401 "Not authorized to update this video" after the lookup alone, before the form file is read |
| UploadVideo.RejectedMediaType | handler_upload_video.go:56-64 | an unparsable media type or any type other than `video/mp4` ends with a 400 error, no call but the lookup, and no file change |
| UploadVideo.LookupComesFirst | handler_upload_video.go:20-43 | the database is read exactly when the ID, the token and the JWT are valid; the read is the first call, of that ID, and is never repeated |
| UploadVideo.ReachesUploadExactly | handler_upload_video.go:20-113 | a request gets as far as PutObject exactly when every check up to opening the processed file passed |
| UploadVideo.UploadOnlyAfterProcessing | handler_upload_video.go:85-126 | the handler calls anything after the lookup exactly when the probe, the remux and the open succeeded; that second call is the PutObject of the processed file, with content type `video/mp4`, and no other call is a PutObject |
| UploadVideo.UpdateOnlyAfterUpload | handler_upload_video.go:117-137 | at most three calls are made; the database is updated exactly when PutObject succeeded as well, and the record it receives carries the URL `https://<distribution>/<key>` |
| UploadVideo.TempFilesCleanedUp | handler_upload_video.go:72-106 | the staged file is gone on every exit after it is created; the processed file is gone on every exit after `processVideoForFastStart` returns it (line 106), including a failed `os.Open`; no other file changes |
| UploadVideo.ProcessedFileLeftBehind | handler_upload_video.go:101-106 | when ffmpeg wrote its output but processing then failed, the `.processing` file stays on disk while the staged file is removed |
| UploadVideo.CompletedUpload | handler_upload_video.go:115-145 | a completed request answers 200 with the record carrying its new URL; it makes exactly the lookup, the upload and the update, in that order, and leaves neither temp file behind |
| UploadVideo.FreshNamesNetEffect | handler_upload_video.go:66-106 | when the name `os.CreateTemp` picks and its `.processing` sibling are both new, a request leaves the files as it found them, except for ffmpeg's output after a failed remux |
| UploadVideo.KeyShape | handler_upload_video.go:115-116 | the key is `landscape`, `portrait` or `other`, one slash, then the asset path; the key has no other slash |
| UploadVideo.Mp4Key | handler_upload_video.go:115-116 | an accepted upload's key is the directory, `/`, the 43-character base64url name and `.mp4`; the name decodes to the random bytes |
| UploadVideo.Host.HandlerUploadVideo | handler_upload_video.go:15-146 | the response, the calls appended to the log and the new set of live temp files are the ones the request's exit determines |
| UploadVideo.Host.AuthorizeRequest | handler_upload_video.go:20-47 | the ID, token, JWT, lookup and ownership steps, with state changes equal to those of the phase-by-phase run |
| UploadVideo.Host.ReadVideoPart | handler_upload_video.go:49-64 | the form-file, content-type and `video/mp4` steps, with state changes equal to those of the phase-by-phase run |
| UploadVideo.Host.StageUpload | handler_upload_video.go:66-89 | creating, filling, rewinding and probing the temp file, with its deferred removal, as in the phase-by-phase run |
| UploadVideo.Host.RemuxUpload | handler_upload_video.go:91-113 | the directory choice, the remux and the open of the processed file, with its deferred removal, as in the phase-by-phase run |
| UploadVideo.Host.PublishUpload | handler_upload_video.go:115-145 | the key, PutObject, the URL, UpdateVideo and the JSON response, as in the phase-by-phase run |

## Left out

- HTTP handling is reduced to outcomes. Reading the path value, the bearer
  token, JWT validation, `r.FormFile`, `mime.ParseMediaType` and writing the
  JSON or error response are given as outcomes in `Outcomes`. The response
  is a status and a message or a record.
- The 1 GiB `MaxBytesReader` limit (handler_upload_video.go:16-17) is not
  modelled. An oversized body shows up only as a failed form read or copy.
- The database (`GetVideo`, `UpdateVideo`) and S3 (`PutObject`) are not
  modelled beyond their effect: each of these calls is recorded in the log,
  and its result (the record found, success or failure) is an outcome.
- ffprobe and ffmpeg (`exec.Command`) and the JSON decoding of ffprobe's
  output are not run. Their outcomes are given: the exit status, the parsed
  stream list, ffmpeg's stderr and the output size `os.Stat` reports.
- ffmpeg's output file is taken to exist exactly when `os.Stat` reports a
  size. This holds whether or not ffmpeg then succeeded.
- `crypto/rand` and the panic when it fails are not modelled. The 32 random
  bytes are a parameter (`Outcomes.random`).
- Assets.Classify: the ratio is computed on exact reals, not on float64.
  The labels can differ from Go's only for a ratio within one rounding error
  of a 0.1 window edge, in either direction. For example, 151×90, 53×80
  and 37×80 (and their multiples) lie exactly on an edge: the exact
  comparison gives `other`, while float64 rounding puts 151×90 in `16:9`
  and the other two in `9:16`. Heights of about 10^13 and more can also
  differ off an edge. Height 0 gives `other`, as Go's infinity and NaN
  comparisons do.
- The `Close` calls are not modelled, because they change nothing the model
  tracks. Errors from the deferred `os.Remove` calls are ignored, as in the
  Go code: a removed file is simply gone.
- Host.HandlerUploadVideo is one Go function cut into five methods at its
  phase boundaries. The control flow and order of steps are unchanged.
- Base64Url.Decode accepts any unused low bits in a final group of 2 or 3
  characters. It is only proved to invert the encoder, not to reject
  non-canonical input.
- `ensureAssetsDir` (assets.go:16-21) is left out because it only touches
  the filesystem.
- handler_upload_thumbnail.go is not part of this model. Its decision
  logic, `isValidImageType` and `getAssetPath`, is modelled in `Assets`.
- The commented-out presigned-URL code (handler_upload_video.go:139-143 and
  148-185) is dead code and is left out.
- Host.HandlerUploadVideo does not assume that the name `os.CreateTemp`
  returns, or that name with `.processing` appended, is new. If a live temp
  file already had that name, the model's deferred removal deletes it, as
  `os.Remove` would. FreshNamesNetEffect states the net effect when both
  names are new.
- Three behaviours of handler_upload_video.go are modelled as written:
  - a caller who does not own the video gets 401 (line 45);
  - the media type is checked only after the ID, the token, the JWT and
    the ownership (lines 56-64);
  - a `.processing` file that ffmpeg wrote is not removed when
    `processVideoForFastStart` returns an error, because its removal is
    deferred only at line 106, after that call succeeded.
