/**
 * handlerUploadVideo (handler_upload_video.go:15-146): a single pass of
 * checks and steps with early returns. Every library call, service call and
 * external tool is an abstract outcome in `Outcomes`; the handler's effect on
 * the world is the set of live temporary files and the log of calls made to
 * the object store and the database.
 *
 * The handler is specified twice. `HandlerRun` follows the code phase by
 * phase; `ExitOf` names the step at which a request stops, and the response,
 * the calls and the files created and removed are each given as a function of
 * that exit. `HandlerMatchesExit` proves the two agree, and the class `Host`
 * runs the steps one by one against the first.
 *
 * Both descriptions take the object key as a parameter, so that the control
 * flow is reasoned about apart from the key's text; the handler's own key is
 * `KeyOf(io)`, whose shape is proved separately.
 */
module UploadVideo {
  import opened Wrappers
  import opened Assets
  import Base64Url

  type UUID = string

  /** The database record the upload is attached to. */
  datatype Video = Video(id: UUID, userID: UUID, videoURL: Option<string>)

  datatype Config = Config(s3Bucket: string, s3CfDistribution: string)

  /** The outcome of every library call, service call and tool run the handler makes. */
  datatype Outcomes = Outcomes(
    videoID: Option<UUID>,      // uuid.Parse of the "videoID" path value
    token: Option<string>,      // auth.GetBearerToken
    userID: Option<UUID>,       // auth.ValidateJWT of the token
    video: Option<Video>,       // cfg.db.GetVideo
    formFileOk: bool,           // r.FormFile("video")
    mediaType: Option<string>,  // mime.ParseMediaType of the part's Content-Type
    tempFile: Option<string>,   // os.CreateTemp: the name of the new file
    copyOk: bool,               // io.Copy of the upload into the temp file
    seekOk: bool,               // tmpFile.Seek back to the start
    probe: ProbeRun,            // ffprobe on the temp file
    fastStart: FastStartRun,    // ffmpeg on the temp file, then os.Stat of its output
    openOk: bool,               // os.Open of the processed file
    random: RandomBytes,        // what rand.Read puts in getAssetPath's buffer
    putOk: bool,                // s3Client.PutObject
    updateOk: bool              // cfg.db.UpdateVideo
  )

  datatype Response =
    | ErrorResponse(status: int, message: string)
    | JsonResponse(status: int, video: Video)

  /** A call to an external service: the database lookup and update, and the S3 upload. */
  datatype Effect =
    | GetVideo(id: UUID)
    | PutObject(bucket: string, key: string, contentType: string, bodyPath: string)
    | UpdateVideo(video: Video)

  /** What a request ends with: its response, the calls it made in order, and the live temp files. */
  datatype Run = Run(response: Response, calls: seq<Effect>, files: set<string>)

  predicate ProbeSucceeds(run: ProbeRun) {
    run.succeeded && run.streams.Some? && |run.streams.value| > 0
  }

  predicate FastStartSucceeds(run: FastStartRun) {
    run.succeeded && run.outputSize.Some? && run.outputSize.value > 0
  }

  // ---------------------------------------------------------------------
  // Values the handler derives
  // ---------------------------------------------------------------------

  /** The label of the first probed stream. */
  function AspectRatioOf(io: Outcomes): string
    requires ProbeSucceeds(io.probe)
  {
    var first := io.probe.streams.value[0];
    Classify(first.width, first.height)
  }

  /** The storage directory for an aspect-ratio label (handler_upload_video.go:91-99). */
  function Directory(aspectRatio: string): (dir: string)
    ensures dir == "landscape" <==> aspectRatio == "16:9"
    ensures dir == "portrait" <==> aspectRatio == "9:16"
    ensures dir == "other" <==> aspectRatio != "16:9" && aspectRatio != "9:16"
  {
    match aspectRatio
    case "16:9" => "landscape"
    case "9:16" => "portrait"
    case _ => "other"
  }

  /** No directory name is empty or contains a slash. */
  lemma DirectoryHasNoSlash(aspectRatio: string)
    ensures '/' !in Directory(aspectRatio)
    ensures |Directory(aspectRatio)| > 0
  {
  }

  /** The object key: the aspect directory, a slash, and the asset path. */
  function ObjectKey(io: Outcomes): string
    requires io.mediaType.Some? && ProbeSucceeds(io.probe)
  {
    Directory(AspectRatioOf(io)) + "/" + GetAssetPath(io.mediaType.value, io.random)
  }

  /** The key a request would store its object under, once it has a media type and a first stream. */
  function KeyOf(io: Outcomes): string {
    if io.mediaType.Some? && ProbeSucceeds(io.probe) then ObjectKey(io) else ""
  }

  /** The public URL of an object behind the CloudFront distribution. */
  function ObjectURL(cfg: Config, key: string): string {
    "https://" + cfg.s3CfDistribution + "/" + key
  }

  /** The processed file's path, derived from the temp file's name. */
  function ProcessedPath(io: Outcomes): string
    requires io.tempFile.Some?
  {
    io.tempFile.value + ProcessingSuffix
  }

  /** The record as UpdateVideo receives it, with the URL of the object stored under `key`. */
  function PublishedVideo(cfg: Config, io: Outcomes, key: string): Video
    requires io.video.Some?
  {
    io.video.value.(videoURL := Some(ObjectURL(cfg, key)))
  }

  // ---------------------------------------------------------------------
  // The handler phase by phase. `files` is the set of live temp files when
  // the phase starts; each run ends after the deferred removals.
  // ---------------------------------------------------------------------

  /** respondWithError: a response, no calls, the files as they are. */
  function Stop(status: int, message: string, files: set<string>): Run {
    Run(ErrorResponse(status, message), [], files)
  }

  /** Lines 20-47: a well-formed ID, a valid token, and a video the caller owns. */
  predicate Authorized(io: Outcomes) {
    io.videoID.Some? && io.token.Some? && io.userID.Some? && io.video.Some?
    && io.video.value.userID == io.userID.value
  }

  /** Lines 49-64: a readable form file whose media type is exactly video/mp4. */
  predicate VideoPartAccepted(io: Outcomes) {
    Authorized(io) && io.formFileOk && io.mediaType == Some("video/mp4")
  }

  /** Lines 66-89: the upload is on disk, rewound, and has a first stream to classify. */
  predicate Staged(io: Outcomes) {
    VideoPartAccepted(io) && io.tempFile.Some? && io.copyOk && io.seekOk && ProbeSucceeds(io.probe)
  }

  /** Lines 101-113: the remuxed file exists, is not empty and opens. */
  predicate Remuxed(io: Outcomes) {
    Staged(io) && FastStartSucceeds(io.fastStart) && io.openOk
  }

  /** The whole handler, starting with the checks of lines 20-47. */
  function HandlerRun(cfg: Config, io: Outcomes, key: string, files: set<string>): Run {
    if io.videoID.None? then Stop(400, "Invalid ID", files)
    else if io.token.None? then Stop(401, "Couldn't find JWT", files)
    else if io.userID.None? then Stop(401, "Couldn't validate JWT", files)
    else
      var lookup := GetVideo(io.videoID.value);
      if io.video.None? then Run(ErrorResponse(500, "Couldn't find video"), [lookup], files)
      else if io.video.value.userID != io.userID.value then
        Run(ErrorResponse(401, "Not authorized to update this video"), [lookup], files)
      else
        var rest := VideoPartRun(cfg, io, key, files);
        rest.(calls := [lookup] + rest.calls)
  }

  /** Lines 49-64 and what follows them; the calls it lists come after the database lookup. */
  function VideoPartRun(cfg: Config, io: Outcomes, key: string, files: set<string>): Run
    requires Authorized(io)
  {
    if !io.formFileOk then Stop(500, "Unable to parse form file", files)
    else if io.mediaType.None? then Stop(400, "Invalid Content-Type", files)
    else if io.mediaType.value != "video/mp4" then Stop(400, "Invalid file type", files)
    else StageRun(cfg, io, key, files)
  }

  /** Lines 66-89 and what follows them; the temp file is removed on every exit after line 72. */
  function StageRun(cfg: Config, io: Outcomes, key: string, files: set<string>): Run
    requires VideoPartAccepted(io)
  {
    if io.tempFile.None? then Stop(500, "Unable to create temp file", files)
    else
      var tmpFile := io.tempFile.value;
      var staged := files + {tmpFile};
      if !io.copyOk then Stop(500, "Could not write file to disk", staged - {tmpFile})
      else if !io.seekOk then Stop(500, "Could not reset file pointer", staged - {tmpFile})
      else if !ProbeSucceeds(io.probe) then Stop(500, "Error calculating video aspect ratio", staged - {tmpFile})
      else RemuxRun(cfg, io, key, staged)
  }

  /**
   * Lines 91-113 and what follows them. ffmpeg's output is on disk exactly
   * when `outputSize` is `Some`, whether or not ffmpeg succeeded; it is
   * removed only once processVideoForFastStart has returned it (line 106).
   */
  function RemuxRun(cfg: Config, io: Outcomes, key: string, files: set<string>): Run
    requires Staged(io)
  {
    var tmpFile := io.tempFile.value;
    var processed := ProcessedPath(io);
    var written := if io.fastStart.outputSize.Some? then files + {processed} else files;
    if !FastStartSucceeds(io.fastStart) then Stop(500, "Could not proccess file", written - {tmpFile})
    else if !io.openOk then Stop(500, "Could not open proccessed file", written - {tmpFile, processed})
    else PublishRun(cfg, io, key, written)
  }

  /** Lines 115-145: store the object, then record its URL. */
  function PublishRun(cfg: Config, io: Outcomes, key: string, files: set<string>): Run
    requires Remuxed(io)
  {
    var put := PutObject(cfg.s3Bucket, key, io.mediaType.value, ProcessedPath(io));
    var cleaned := files - {io.tempFile.value, ProcessedPath(io)};
    if !io.putOk then Run(ErrorResponse(500, "Error uploading file to S3"), [put], cleaned)
    else
      var video := PublishedVideo(cfg, io, key);
      Run(if io.updateOk then JsonResponse(200, video) else ErrorResponse(500, "Couldn't update video file"),
          [put, UpdateVideo(video)], cleaned)
  }

  // ---------------------------------------------------------------------
  // The handler by its exit
  // ---------------------------------------------------------------------

  /** Where a request ends: the step that failed, or Completed. In pipeline order. */
  datatype Exit =
    | InvalidID | MissingToken | InvalidJWT | VideoNotFound | NotOwner
    | FormFileError | InvalidContentType | InvalidFileType
    | TempCreateFailed | CopyFailed | SeekFailed
    | AspectRatioFailed | ProcessFailed | OpenFailed
    | UploadFailed | UpdateFailed | Completed

  function Rank(e: Exit): nat {
    match e
    case InvalidID => 0
    case MissingToken => 1
    case InvalidJWT => 2
    case VideoNotFound => 3
    case NotOwner => 4
    case FormFileError => 5
    case InvalidContentType => 6
    case InvalidFileType => 7
    case TempCreateFailed => 8
    case CopyFailed => 9
    case SeekFailed => 10
    case AspectRatioFailed => 11
    case ProcessFailed => 12
    case OpenFailed => 13
    case UploadFailed => 14
    case UpdateFailed => 15
    case Completed => 16
  }

  /** The first check that fails, in the order the handler makes them. */
  function ExitOf(io: Outcomes): Exit {
    if io.videoID.None? then InvalidID
    else if io.token.None? then MissingToken
    else if io.userID.None? then InvalidJWT
    else if io.video.None? then VideoNotFound
    else if io.video.value.userID != io.userID.value then NotOwner
    else if !io.formFileOk then FormFileError
    else if io.mediaType.None? then InvalidContentType
    else if io.mediaType.value != "video/mp4" then InvalidFileType
    else if io.tempFile.None? then TempCreateFailed
    else if !io.copyOk then CopyFailed
    else if !io.seekOk then SeekFailed
    else if !ProbeSucceeds(io.probe) then AspectRatioFailed
    else if !FastStartSucceeds(io.fastStart) then ProcessFailed
    else if !io.openOk then OpenFailed
    else if !io.putOk then UploadFailed
    else if !io.updateOk then UpdateFailed
    else Completed
  }

  /** The request gets as far as the step whose failure is `step`: every earlier one succeeded. */
  predicate Reaches(io: Outcomes, step: Exit) {
    Rank(ExitOf(io)) >= Rank(step)
  }

  /** The HTTP status of each exit. */
  function StatusOf(e: Exit): int {
    match e
    case InvalidID | InvalidContentType | InvalidFileType => 400
    case MissingToken | InvalidJWT | NotOwner => 401
    case Completed => 200
    case _ => 500
  }

  /** The message respondWithError sends for each failure. */
  function MessageOf(e: Exit): string {
    match e
    case InvalidID => "Invalid ID"
    case MissingToken => "Couldn't find JWT"
    case InvalidJWT => "Couldn't validate JWT"
    case VideoNotFound => "Couldn't find video"
    case NotOwner => "Not authorized to update this video"
    case FormFileError => "Unable to parse form file"
    case InvalidContentType => "Invalid Content-Type"
    case InvalidFileType => "Invalid file type"
    case TempCreateFailed => "Unable to create temp file"
    case CopyFailed => "Could not write file to disk"
    case SeekFailed => "Could not reset file pointer"
    case AspectRatioFailed => "Error calculating video aspect ratio"
    case ProcessFailed => "Could not proccess file"
    case OpenFailed => "Could not open proccessed file"
    case UploadFailed => "Error uploading file to S3"
    case UpdateFailed => "Couldn't update video file"
    case Completed => ""
  }

  /** What HTTP response a request gets. */
  function ResponseOf(cfg: Config, io: Outcomes, key: string): Response {
    if ExitOf(io) == Completed then JsonResponse(200, PublishedVideo(cfg, io, key))
    else ErrorResponse(StatusOf(ExitOf(io)), MessageOf(ExitOf(io)))
  }

  /** The database lookup, made once the ID, the token and the JWT are valid (line 39). */
  function LookupOf(io: Outcomes): seq<Effect> {
    if Reaches(io, VideoNotFound) then [GetVideo(io.videoID.value)] else []
  }

  /** The calls after the lookup: the upload, and the update once the upload succeeded. */
  function StoreCallsOf(cfg: Config, io: Outcomes, key: string): seq<Effect> {
    if !Reaches(io, UploadFailed) then []
    else
      [PutObject(cfg.s3Bucket, key, io.mediaType.value, ProcessedPath(io))]
      + (if Reaches(io, UpdateFailed) then [UpdateVideo(PublishedVideo(cfg, io, key))] else [])
  }

  /** Every call a request makes to the database and the object store, in order. */
  function EffectsOf(cfg: Config, io: Outcomes, key: string): seq<Effect> {
    LookupOf(io) + StoreCallsOf(cfg, io, key)
  }

  /**
   * The files a request puts on disk: the staging file once CreateTemp
   * succeeds, and ffmpeg's output whenever ffmpeg leaves one behind.
   */
  function CreatedFiles(io: Outcomes): set<string> {
    if !Reaches(io, CopyFailed) then {}
    else if Reaches(io, ProcessFailed) && io.fastStart.outputSize.Some? then {io.tempFile.value, ProcessedPath(io)}
    else {io.tempFile.value}
  }

  /**
   * The files the deferred os.Remove calls delete: the staging file on every
   * exit after line 72, the processed file on every exit after line 106.
   */
  function RemovedFiles(io: Outcomes): set<string> {
    if !Reaches(io, CopyFailed) then {}
    else if Reaches(io, OpenFailed) then {io.tempFile.value, ProcessedPath(io)}
    else {io.tempFile.value}
  }

  // ---------------------------------------------------------------------
  // The two descriptions agree
  // ---------------------------------------------------------------------

  /** The phase-by-phase run describes the same request as its exit. */
  lemma HandlerMatchesExit(cfg: Config, io: Outcomes, key: string, files: set<string>)
    ensures HandlerRun(cfg, io, key, files)
         == Run(ResponseOf(cfg, io, key), EffectsOf(cfg, io, key), (files + CreatedFiles(io)) - RemovedFiles(io))
  {
    if io.videoID.None? {
      assert ExitOf(io) == InvalidID;
    } else if io.token.None? {
      assert ExitOf(io) == MissingToken;
    } else if io.userID.None? {
      assert ExitOf(io) == InvalidJWT;
    } else if io.video.None? {
      assert ExitOf(io) == VideoNotFound;
    } else if io.video.value.userID != io.userID.value {
      assert ExitOf(io) == NotOwner;
    } else {
      VideoPartMatchesExit(cfg, io, key, files);
      assert LookupOf(io) == [GetVideo(io.videoID.value)];
    }
  }

  lemma VideoPartMatchesExit(cfg: Config, io: Outcomes, key: string, files: set<string>)
    requires Authorized(io)
    ensures VideoPartRun(cfg, io, key, files)
         == Run(ResponseOf(cfg, io, key), StoreCallsOf(cfg, io, key), (files + CreatedFiles(io)) - RemovedFiles(io))
  {
    if !io.formFileOk {
      assert ExitOf(io) == FormFileError;
    } else if io.mediaType.None? {
      assert ExitOf(io) == InvalidContentType;
    } else if io.mediaType.value != "video/mp4" {
      assert ExitOf(io) == InvalidFileType;
    } else {
      StageMatchesExit(cfg, io, key, files);
    }
  }

  lemma StageMatchesExit(cfg: Config, io: Outcomes, key: string, files: set<string>)
    requires VideoPartAccepted(io)
    ensures StageRun(cfg, io, key, files)
         == Run(ResponseOf(cfg, io, key), StoreCallsOf(cfg, io, key), (files + CreatedFiles(io)) - RemovedFiles(io))
  {
    if io.tempFile.None? {
      assert ExitOf(io) == TempCreateFailed;
    } else {
      var tmpFile := io.tempFile.value;
      if !io.copyOk || !io.seekOk || !ProbeSucceeds(io.probe) {
        assert ExitOf(io) in {CopyFailed, SeekFailed, AspectRatioFailed};
        assert CreatedFiles(io) == {tmpFile} == RemovedFiles(io);
      } else {
        RemuxMatchesExit(cfg, io, key, files + {tmpFile});
        assert tmpFile in CreatedFiles(io);
        assert (files + {tmpFile}) + CreatedFiles(io) == files + CreatedFiles(io);
      }
    }
  }

  lemma RemuxMatchesExit(cfg: Config, io: Outcomes, key: string, files: set<string>)
    requires Staged(io) && io.tempFile.value in files
    ensures RemuxRun(cfg, io, key, files)
         == Run(ResponseOf(cfg, io, key), StoreCallsOf(cfg, io, key), (files + CreatedFiles(io)) - RemovedFiles(io))
  {
    var tmpFile, processed := io.tempFile.value, ProcessedPath(io);
    var written := if io.fastStart.outputSize.Some? then files + {processed} else files;
    assert files + CreatedFiles(io) == written;
    if !FastStartSucceeds(io.fastStart) {
      assert ExitOf(io) == ProcessFailed;
      assert RemovedFiles(io) == {tmpFile};
    } else if !io.openOk {
      assert ExitOf(io) == OpenFailed;
      assert RemovedFiles(io) == {tmpFile, processed};
    } else {
      PublishMatchesExit(cfg, io, key, written);
      assert written + CreatedFiles(io) == written;
    }
  }

  lemma PublishMatchesExit(cfg: Config, io: Outcomes, key: string, files: set<string>)
    requires Remuxed(io)
    ensures PublishRun(cfg, io, key, files)
         == Run(ResponseOf(cfg, io, key), StoreCallsOf(cfg, io, key), (files + CreatedFiles(io)) - RemovedFiles(io))
  {
    var tmpFile, processed := io.tempFile.value, ProcessedPath(io);
    assert CreatedFiles(io) == {tmpFile, processed} == RemovedFiles(io);
    if !io.putOk {
      assert ExitOf(io) == UploadFailed;
    } else if !io.updateOk {
      assert ExitOf(io) == UpdateFailed;
    } else {
      assert ExitOf(io) == Completed;
    }
  }

  // ---------------------------------------------------------------------
  // What the handler promises
  // ---------------------------------------------------------------------

  /**
   * A request stopped before CreateTemp gets an error and touches no file;
   * at most the database lookup is made, and nothing is stored or updated.
   */
  lemma FailuresBeforeStaging(cfg: Config, io: Outcomes, key: string, files: set<string>)
    requires !Reaches(io, CopyFailed)
    ensures HandlerRun(cfg, io, key, files)
         == Run(ErrorResponse(StatusOf(ExitOf(io)), MessageOf(ExitOf(io))), LookupOf(io), files)
    ensures StatusOf(ExitOf(io)) in {400, 401, 500}
    ensures forall c :: c in HandlerRun(cfg, io, key, files).calls ==> c.GetVideo?
  {
    HandlerMatchesExit(cfg, io, key, files);
  }

  /** A caller who does not own the video gets 401 before the form is read. */
  lemma OwnerMismatch(cfg: Config, io: Outcomes, key: string, files: set<string>)
    requires io.videoID.Some? && io.token.Some? && io.userID.Some? && io.video.Some?
    requires io.video.value.userID != io.userID.value
    ensures HandlerRun(cfg, io, key, files)
         == Run(ErrorResponse(401, "Not authorized to update this video"), [GetVideo(io.videoID.value)], files)
    ensures ExitOf(io) == NotOwner && !Reaches(io, FormFileError)
  {
  }

  /** Any media type other than video/mp4 is refused with 400 before anything is written or stored. */
  lemma RejectedMediaType(cfg: Config, io: Outcomes, key: string, files: set<string>)
    requires Authorized(io) && io.formFileOk
    requires io.mediaType.None? || io.mediaType.value != "video/mp4"
    ensures HandlerRun(cfg, io, key, files).response.ErrorResponse?
    ensures HandlerRun(cfg, io, key, files).response.status == 400
    ensures HandlerRun(cfg, io, key, files).calls == [GetVideo(io.videoID.value)]
    ensures HandlerRun(cfg, io, key, files).files == files
  {
  }

  /** The database is read exactly when the ID, the token and the JWT are valid, and before anything else. */
  lemma LookupComesFirst(cfg: Config, io: Outcomes, key: string, files: set<string>)
    ensures var calls := HandlerRun(cfg, io, key, files).calls;
      (|calls| > 0 <==> io.videoID.Some? && io.token.Some? && io.userID.Some?)
      && (|calls| > 0 ==> calls[0] == GetVideo(io.videoID.value))
      && (forall i :: 0 < i < |calls| ==> !calls[i].GetVideo?)
  {
    HandlerMatchesExit(cfg, io, key, files);
    if io.videoID.Some? && io.token.Some? && io.userID.Some? {
      assert Reaches(io, VideoNotFound);
    }
  }

  /** Reaching the upload means every check up to opening the processed file passed. */
  lemma ReachesUploadExactly(io: Outcomes)
    ensures Reaches(io, UploadFailed) <==> Remuxed(io)
  {
    if Remuxed(io) {
      assert Rank(ExitOf(io)) >= 14;
    }
  }

  /**
   * The object store is called only for a file that passed every check up to
   * line 113, and always with the processed file and the type video/mp4.
   */
  lemma UploadOnlyAfterProcessing(cfg: Config, io: Outcomes, key: string, files: set<string>)
    ensures var calls := HandlerRun(cfg, io, key, files).calls;
      (|calls| > 1 <==> Remuxed(io))
      && (|calls| > 1 ==> calls[1] == PutObject(cfg.s3Bucket, key, "video/mp4", io.tempFile.value + ProcessingSuffix))
      && (forall i :: 0 <= i < |calls| && calls[i].PutObject? ==> i == 1)
  {
    HandlerMatchesExit(cfg, io, key, files);
    ReachesUploadExactly(io);
    if Remuxed(io) {
      assert Reaches(io, VideoNotFound);
    }
  }

  /**
   * The database is updated only after the object was stored, at most once,
   * and with the video record pointing at the object's public URL.
   */
  lemma UpdateOnlyAfterUpload(cfg: Config, io: Outcomes, key: string, files: set<string>)
    ensures var calls := HandlerRun(cfg, io, key, files).calls;
      |calls| <= 3
      && (|calls| == 3 <==> Remuxed(io) && io.putOk)
      && (|calls| == 3 ==>
            calls[2] == UpdateVideo(io.video.value.(videoURL := Some("https://" + cfg.s3CfDistribution + "/" + key))))
  {
    HandlerMatchesExit(cfg, io, key, files);
    ReachesUploadExactly(io);
    if Remuxed(io) && io.putOk {
      assert Reaches(io, VideoNotFound) && Reaches(io, UpdateFailed);
    } else if Remuxed(io) {
      assert Reaches(io, VideoNotFound) && ExitOf(io) == UploadFailed;
    }
  }

  /**
   * The deferred removals: the staged file is gone on every exit after it is
   * created, the processed file on every exit after processVideoForFastStart
   * returns it (line 106, so a failed os.Open too), and no other file changes.
   */
  lemma TempFilesCleanedUp(cfg: Config, io: Outcomes, key: string, files: set<string>)
    ensures var after := HandlerRun(cfg, io, key, files).files;
      (Reaches(io, CopyFailed) ==> io.tempFile.value !in after)
      && (Reaches(io, OpenFailed) ==> io.tempFile.value + ProcessingSuffix !in after)
      && (io.tempFile.None? ==> after == files)
      && (io.tempFile.Some? ==>
            forall f :: f != io.tempFile.value && f != io.tempFile.value + ProcessingSuffix ==> (f in after <==> f in files))
  {
    HandlerMatchesExit(cfg, io, key, files);
    if Reaches(io, CopyFailed) {
      assert io.tempFile.value in RemovedFiles(io);
    }
    if io.tempFile.None? {
      assert !Reaches(io, CopyFailed);
    }
  }

  /**
   * The one file a request leaves on disk: ffmpeg's output, when ffmpeg wrote
   * it but the run then failed, since the removal is deferred only after
   * processVideoForFastStart returns it (lines 101-106).
   */
  lemma ProcessedFileLeftBehind(cfg: Config, io: Outcomes, key: string, files: set<string>)
    requires ExitOf(io) == ProcessFailed && io.fastStart.outputSize.Some?
    ensures io.tempFile.Some?
    ensures io.tempFile.value + ProcessingSuffix in HandlerRun(cfg, io, key, files).files
    ensures io.tempFile.value !in HandlerRun(cfg, io, key, files).files
  {
    HandlerMatchesExit(cfg, io, key, files);
    assert Reaches(io, ProcessFailed) && !Reaches(io, OpenFailed);
    assert |ProcessedPath(io)| > |io.tempFile.value|;
  }

  /** A completed request: the record with its new URL, the lookup, one upload and one update, and no temp file left. */
  lemma CompletedUpload(cfg: Config, io: Outcomes, key: string, files: set<string>)
    requires ExitOf(io) == Completed
    ensures io.video.Some? && io.tempFile.Some?
    ensures var video := io.video.value.(videoURL := Some("https://" + cfg.s3CfDistribution + "/" + key));
      var processed := io.tempFile.value + ProcessingSuffix;
      HandlerRun(cfg, io, key, files)
      == Run(JsonResponse(200, video),
             [GetVideo(io.videoID.value), PutObject(cfg.s3Bucket, key, "video/mp4", processed), UpdateVideo(video)],
             files - {io.tempFile.value, processed})
  {
    HandlerMatchesExit(cfg, io, key, files);
    assert Remuxed(io) && Reaches(io, VideoNotFound);
  }

  /**
   * os.CreateTemp picks a name no file has. When that name and ffmpeg's
   * output name are both new, a request leaves the files as it found them,
   * except for ffmpeg's output after a failed remux.
   */
  lemma FreshNamesNetEffect(cfg: Config, io: Outcomes, key: string, files: set<string>)
    requires io.tempFile.Some? ==> io.tempFile.value !in files && io.tempFile.value + ProcessingSuffix !in files
    ensures HandlerRun(cfg, io, key, files).files
         == if ExitOf(io) == ProcessFailed && io.fastStart.outputSize.Some?
            then files + {io.tempFile.value + ProcessingSuffix}
            else files
  {
    HandlerMatchesExit(cfg, io, key, files);
    if io.tempFile.Some? {
      assert |ProcessedPath(io)| > |io.tempFile.value|;
    }
    if ExitOf(io) == ProcessFailed && io.fastStart.outputSize.Some? {
      assert Reaches(io, ProcessFailed) && !Reaches(io, OpenFailed);
    }
  }

  /**
   * The key is one directory level deep: one of the three directories, a
   * slash, and the asset path, with no other slash.
   */
  lemma KeyShape(io: Outcomes)
    requires io.mediaType.Some? && ProbeSucceeds(io.probe)
    ensures var key := KeyOf(io); var dir := Directory(AspectRatioOf(io));
      dir in {"landscape", "portrait", "other"}
      && Count(key, '/') == 1
      && |key| > |dir| && key[..|dir|] == dir && key[|dir|] == '/'
      && key[|dir| + 1..] == GetAssetPath(io.mediaType.value, io.random)
  {
    var dir := Directory(AspectRatioOf(io));
    var path := GetAssetPath(io.mediaType.value, io.random);
    DirectoryHasNoSlash(AspectRatioOf(io));
    CountAbsent(dir, '/');
    CountAbsent(path, '/');
    CountAppend(dir, "/", '/');
    CountAppend(dir + "/", path, '/');
    assert KeyOf(io) == dir + "/" + path;
  }

  /**
   * The key of an accepted upload: a directory, a slash, the 43-character
   * base64url encoding of the random bytes, and ".mp4"; the name decodes back
   * to the random bytes.
   */
  lemma Mp4Key(io: Outcomes)
    requires VideoPartAccepted(io) && ProbeSucceeds(io.probe)
    ensures var name := Base64Url.Encode(io.random);
      |name| == NameLength
      && KeyOf(io) == Directory(AspectRatioOf(io)) + "/" + name + ".mp4"
      && Base64Url.Decode(name) == Some(io.random)
  {
    var mediaType := io.mediaType.value;
    ExtensionOfVideoMp4(mediaType);
    AssetNameDecodes(mediaType, io.random);
    var path := GetAssetPath(mediaType, io.random);
    assert path == path[..NameLength] + path[NameLength..];
  }

  /** The world outside the handler: temporary files on disk and calls to external services. */
  class Host {
    var tempFiles: set<string>
    var log: seq<Effect>

    constructor ()
      ensures tempFiles == {} && log == []
    {
      tempFiles := {};
      log := [];
    }

    /**
     * One request to the upload endpoint. The Go function is cut into five
     * methods at the points where a phase ends (lines 47, 64, 89 and 113),
     * each running its own checks and handing the request on. The os.Remove
     * calls the handler defers are collected in a set `deferred` that is
     * passed along and run wherever the request ends.
     */
    method HandlerUploadVideo(cfg: Config, io: Outcomes) returns (resp: Response)
      modifies this
      ensures resp == ResponseOf(cfg, io, KeyOf(io))
      ensures log == old(log) + EffectsOf(cfg, io, KeyOf(io))
      ensures tempFiles == (old(tempFiles) + CreatedFiles(io)) - RemovedFiles(io)
    {
      resp := AuthorizeRequest(cfg, io);
      HandlerMatchesExit(cfg, io, KeyOf(io), old(tempFiles));
    }

    /** Lines 20-47: parse the ID, authenticate, and check ownership. */
    method AuthorizeRequest(cfg: Config, io: Outcomes) returns (resp: Response)
      modifies this
      ensures resp == HandlerRun(cfg, io, KeyOf(io), old(tempFiles)).response
      ensures log == old(log) + HandlerRun(cfg, io, KeyOf(io), old(tempFiles)).calls
      ensures tempFiles == HandlerRun(cfg, io, KeyOf(io), old(tempFiles)).files
    {
      if io.videoID.None? {
        return ErrorResponse(400, "Invalid ID");
      }
      if io.token.None? {
        return ErrorResponse(401, "Couldn't find JWT");
      }
      if io.userID.None? {
        return ErrorResponse(401, "Couldn't validate JWT");
      }
      var userID := io.userID.value;
      log := log + [GetVideo(io.videoID.value)];
      if io.video.None? {
        return ErrorResponse(500, "Couldn't find video");
      }
      var video := io.video.value;
      if video.userID != userID {
        return ErrorResponse(401, "Not authorized to update this video");
      }
      resp := ReadVideoPart(cfg, io, video);
    }

    /** Lines 49-64: the form file and its media type, which must be video/mp4. */
    method ReadVideoPart(cfg: Config, io: Outcomes, video: Video) returns (resp: Response)
      requires Authorized(io) && video == io.video.value
      modifies this
      ensures resp == VideoPartRun(cfg, io, KeyOf(io), old(tempFiles)).response
      ensures log == old(log) + VideoPartRun(cfg, io, KeyOf(io), old(tempFiles)).calls
      ensures tempFiles == VideoPartRun(cfg, io, KeyOf(io), old(tempFiles)).files
    {
      if !io.formFileOk {
        return ErrorResponse(500, "Unable to parse form file");
      }
      if io.mediaType.None? {
        return ErrorResponse(400, "Invalid Content-Type");
      }
      var mediaType := io.mediaType.value;
      if mediaType != "video/mp4" {
        return ErrorResponse(400, "Invalid file type");
      }
      resp := StageUpload(cfg, io, video, mediaType);
    }

    /** Lines 66-89: stage the upload in a temp file, rewind it, and probe it. */
    method StageUpload(cfg: Config, io: Outcomes, video: Video, mediaType: string) returns (resp: Response)
      requires VideoPartAccepted(io)
      requires video == io.video.value && mediaType == io.mediaType.value
      modifies this
      ensures resp == StageRun(cfg, io, KeyOf(io), old(tempFiles)).response
      ensures log == old(log) + StageRun(cfg, io, KeyOf(io), old(tempFiles)).calls
      ensures tempFiles == StageRun(cfg, io, KeyOf(io), old(tempFiles)).files
    {
      if io.tempFile.None? {
        return ErrorResponse(500, "Unable to create temp file");
      }
      var tmpFile := io.tempFile.value;
      tempFiles := tempFiles + {tmpFile};
      var deferred := {tmpFile};
      if !io.copyOk {
        tempFiles := tempFiles - deferred;
        return ErrorResponse(500, "Could not write file to disk");
      }
      if !io.seekOk {
        tempFiles := tempFiles - deferred;
        return ErrorResponse(500, "Could not reset file pointer");
      }
      var aspectRatio, err := GetVideoAspectRatio(io.probe);
      if err.Some? {
        tempFiles := tempFiles - deferred;
        return ErrorResponse(500, "Error calculating video aspect ratio");
      }
      resp := RemuxUpload(cfg, io, video, mediaType, tmpFile, aspectRatio, deferred);
    }

    /** Lines 91-113: pick the directory, remux for fast start, and open the result. */
    method RemuxUpload(cfg: Config, io: Outcomes, video: Video, mediaType: string,
                       tmpFile: string, aspectRatio: string, deferred: set<string>)
      returns (resp: Response)
      requires Staged(io)
      requires video == io.video.value && mediaType == io.mediaType.value
      requires tmpFile == io.tempFile.value && aspectRatio == AspectRatioOf(io)
      requires deferred == {tmpFile}
      modifies this
      ensures resp == RemuxRun(cfg, io, KeyOf(io), old(tempFiles)).response
      ensures log == old(log) + RemuxRun(cfg, io, KeyOf(io), old(tempFiles)).calls
      ensures tempFiles == RemuxRun(cfg, io, KeyOf(io), old(tempFiles)).files
    {
      var directory := Directory(aspectRatio);
      // ffmpeg's output is on disk exactly when outputSize is Some, whether or not ffmpeg succeeded
      if io.fastStart.outputSize.Some? {
        tempFiles := tempFiles + {tmpFile + ProcessingSuffix};
      }
      var processedFilePath, err := ProcessVideoForFastStart(tmpFile, io.fastStart);
      if err.Some? {
        tempFiles := tempFiles - deferred;
        return ErrorResponse(500, "Could not proccess file");
      }
      var deferredAll := deferred + {processedFilePath};
      if !io.openOk {
        tempFiles := tempFiles - deferredAll;
        return ErrorResponse(500, "Could not open proccessed file");
      }
      resp := PublishUpload(cfg, io, video, mediaType, directory, processedFilePath, deferredAll);
    }

    /** Lines 115-145: store the processed file under a fresh key, then record its URL. */
    method PublishUpload(cfg: Config, io: Outcomes, video: Video, mediaType: string,
                         directory: string, processedFilePath: string, deferred: set<string>)
      returns (resp: Response)
      requires Remuxed(io)
      requires video == io.video.value && mediaType == io.mediaType.value
      requires directory == Directory(AspectRatioOf(io)) && processedFilePath == ProcessedPath(io)
      requires deferred == {io.tempFile.value, processedFilePath}
      modifies this
      ensures resp == PublishRun(cfg, io, KeyOf(io), old(tempFiles)).response
      ensures log == old(log) + PublishRun(cfg, io, KeyOf(io), old(tempFiles)).calls
      ensures tempFiles == PublishRun(cfg, io, KeyOf(io), old(tempFiles)).files
    {
      var key := GetAssetPath(mediaType, io.random);
      key := directory + "/" + key;
      var put := PutObject(cfg.s3Bucket, key, mediaType, processedFilePath);
      log := log + [put];
      if !io.putOk {
        tempFiles := tempFiles - deferred;
        return ErrorResponse(500, "Error uploading file to S3");
      }
      var objectUrl := "https://" + cfg.s3CfDistribution + "/" + key;
      var video := video.(videoURL := Some(objectUrl));
      log := log + [UpdateVideo(video)];
      assert log == old(log) + [put, UpdateVideo(video)];
      tempFiles := tempFiles - deferred;
      if !io.updateOk {
        return ErrorResponse(500, "Couldn't update video file");
      }
      return JsonResponse(200, video);
    }
  }
}
