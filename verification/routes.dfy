/** The HTTP layer of the server: the multipart file filter, temp-file
    naming, the mapping of multipart errors to responses, the
    storage-status and video-list endpoints, and the video upload handler.

    The upload handler is specified twice: `IngestPlan` says declaratively
    what a request leads to (which provider calls are made, which temp
    files are removed, what is answered or persisted), and
    `HandleUploadVideo` follows the handler's own step-by-step flow and is
    proved to agree with it. Everything outside the process (the multipart
    parser's result, the provider's replies, whether an unlink fails, the
    clock) is an input. */
module Routes {
  import opened Wrappers
  import opened Text
  import opened Schema
  import opened Cloudinary
  import opened Storage

  // ---------------------------------------------------------------------
  // Responses

  datatype Body =
    | ErrorBody(error: string, details: Option<string>)
    | UploadedBody(success: bool, video: Video)
    | VideoListBody(videos: seq<Video>)
    | StatusBody(cloudinaryConfigured: bool, storageType: string)

  datatype HttpResponse = HttpResponse(status: nat, body: Body)

  function BadRequest(error: string): HttpResponse
  {
    HttpResponse(400, ErrorBody(error, None))
  }

  /** The handler's catch-all: 500 with the thrown error's message. */
  function UploadFailed(details: string): HttpResponse
  {
    HttpResponse(500, ErrorBody("Failed to upload video", Some(details)))
  }

  // ---------------------------------------------------------------------
  // Multipart configuration

  /** Per-file size limit, applied to the thumbnail as well as the video. */
  const MaxFileBytes: nat := 500 * 1024 * 1024
  /** At most a video and a thumbnail. */
  const MaxFiles: nat := 2

  const AllowedVideoTypes: seq<string> :=
    ["video/mp4", "video/mov", "video/avi", "video/mkv", "video/webm", "video/quicktime"]
  const AllowedImageTypes: seq<string> :=
    ["image/jpeg", "image/jpg", "image/png", "image/webp"]

  /** Every listed type already passes the prefix test, so the lists add
      nothing to it. */
  lemma AllowListsWithinPrefixes()
    ensures forall t :: t in AllowedVideoTypes ==> StartsWith(t, "video/")
    ensures forall t :: t in AllowedImageTypes ==> StartsWith(t, "image/")
  {
    assert StartsWith("video/mp4", "video/") && StartsWith("video/mov", "video/");
    assert StartsWith("video/avi", "video/") && StartsWith("video/mkv", "video/");
    assert StartsWith("video/webm", "video/") && StartsWith("video/quicktime", "video/");
    assert StartsWith("image/jpeg", "image/") && StartsWith("image/jpg", "image/");
    assert StartsWith("image/png", "image/") && StartsWith("image/webp", "image/");
  }

  datatype FilterDecision = Accept | Reject(message: string)

  /** The multipart file filter: a `video` part is accepted exactly when its
      MIME type starts with `video/`, a `thumbnail` part exactly when its
      type starts with `image/`; any other field is refused by name. A
      refusal always carries a message. */
  function FileFilter(fieldname: string, mimetype: string): (d: FilterDecision)
    ensures d.Accept? <==>
              (fieldname == "video" && StartsWith(mimetype, "video/"))
              || (fieldname == "thumbnail" && StartsWith(mimetype, "image/"))
    ensures fieldname != "video" && fieldname != "thumbnail" ==>
              d == Reject("Unexpected field: " + fieldname)
    ensures d.Reject? ==> d.message != ""
  {
    AllowListsWithinPrefixes();
    if fieldname == "video" then
      if mimetype in AllowedVideoTypes || StartsWith(mimetype, "video/") then Accept
      else Reject("Invalid video file type: " + mimetype + ". Allowed types: MP4, MOV, AVI, MKV, WebM")
    else if fieldname == "thumbnail" then
      if mimetype in AllowedImageTypes || StartsWith(mimetype, "image/") then Accept
      else Reject("Invalid image file type: " + mimetype + ". Allowed types: JPG, PNG, WebP")
    else
      Reject("Unexpected field: " + fieldname)
  }

  /** The directory under the uploads root that a part is written to:
      `videos` exactly for the `video` field, `thumbnails` for any other. */
  function TempSubdirectory(fieldname: string): (dir: string)
    ensures dir == "videos" <==> fieldname == "video"
    ensures dir == "videos" || dir == "thumbnails"
  {
    if fieldname == "video" then "videos" else "thumbnails"
  }

  /** The path multer gives a part written under `root`. */
  function TempPath(root: string, fieldname: string, filename: string): string
  {
    root + "/" + TempSubdirectory(fieldname) + "/" + filename
  }

  /** The index of the last `.` in `s`, if any. */
  function LastDot(s: string): (r: Option<nat>)
    ensures r.Some? ==> r.value < |s| && s[r.value] == '.' && '.' !in s[r.value + 1..]
    ensures r.None? <==> '.' !in s
  {
    if s == [] then None
    else if s[|s| - 1] == '.' then Some(|s| - 1)
    else
      var r := LastDot(s[..|s| - 1]);
      assert s == s[..|s| - 1] + [s[|s| - 1]];
      if r.Some? then
        assert s[r.value + 1..] == s[..|s| - 1][r.value + 1..] + [s[|s| - 1]];
        r
      else r
  }

  /** `path.extname` of a bare file name: from the last `.` to the end,
      or empty when there is no dot, when the only dot starts the name,
      or when the name is `..`. The result is empty or a suffix of the
      name that starts with its only dot; it is the whole tail from the
      last dot whenever that dot is not the first character and the name
      is not `..`. */
  function ExtName(name: string): (r: string)
    ensures |r| <= |name| && r == name[|name| - |r|..]
    ensures r == [] || (r[0] == '.' && '.' !in r[1..])
    ensures '.' !in name ==> r == []
    ensures LastDot(name).Some? && LastDot(name).value > 0 && name != ".."
            ==> r == name[LastDot(name).value..]
    ensures r != [] <==> LastDot(name).Some? && LastDot(name).value > 0 && name != ".."
  {
    match LastDot(name)
    case None => ""
    case Some(i) => if i == 0 || name == ".." then "" else name[i..]
  }

  /** The temp-file name: field name, the clock, a random number and the
      original extension, `<field>-<time>-<random><ext>`. It begins with the
      field name and a dash and ends with the original name's extension. */
  function TempFileName(fieldname: string, now: nat, random: nat, originalName: string): (r: string)
    ensures StartsWith(r, fieldname + "-")
    ensures |r| >= |fieldname| + 4 + |ExtName(originalName)|
    ensures r[|r| - |ExtName(originalName)|..] == ExtName(originalName)
  {
    fieldname + "-" + NatToString(now) + "-" + NatToString(random) + ExtName(originalName)
  }

  /** The temp-file name, grouped around its first separator. */
  lemma TempFileNameParts(fieldname: string, now: nat, random: nat, originalName: string)
    ensures TempFileName(fieldname, now, random, originalName)
            == (fieldname + "-") + (NatToString(now) + ("-" + (NatToString(random) + ExtName(originalName))))
  {
  }

  lemma PrefixCancels(p: string, x: string, y: string)
    requires p + x == p + y
    ensures x == y
  {
    assert x == (p + x)[|p|..] && y == (p + y)[|p|..];
  }

  /** Temp-file names cannot collide unless the clock reading, the random
      number and the extension all coincide: the name determines them. */
  lemma TempFileNameInjective(fieldname: string, t1: nat, r1: nat, o1: string,
                              t2: nat, r2: nat, o2: string)
    requires TempFileName(fieldname, t1, r1, o1) == TempFileName(fieldname, t2, r2, o2)
    ensures t1 == t2 && r1 == r2 && ExtName(o1) == ExtName(o2)
  {
    var a1, a2 := NatToString(t1), NatToString(t2);
    var d1, d2 := NatToString(r1), NatToString(r2);
    var e1, e2 := ExtName(o1), ExtName(o2);
    var b1, b2 := "-" + (d1 + e1), "-" + (d2 + e2);
    TempFileNameParts(fieldname, t1, r1, o1);
    TempFileNameParts(fieldname, t2, r2, o2);
    PrefixCancels(fieldname + "-", a1 + b1, a2 + b2);
    assert '-' !in a1 && '-' !in a2;
    SplitAtSeparator(a1, b1, a2, b2, '-');
    assert d1 + e1 == b1[1..] && d2 + e2 == b2[1..];
    assert '.' !in d1 && '.' !in d2;
    SplitAtSeparator(d1, e1, d2, e2, '.');
    NatToStringInjective(t1, t2);
    NatToStringInjective(r1, r2);
  }

  /** An error reported by the multipart parser: a limit code, or none for
      an error thrown by the file filter. */
  datatype MulterError = MulterError(code: Option<string>, message: string)

  /** The multipart error response: always 400 with a non-empty message,
      fixed texts for the size and unexpected-field limits, otherwise the
      error's own message or a generic one. */
  function MulterErrorResponse(e: MulterError): (r: HttpResponse)
    ensures r.status == 400 && r.body.ErrorBody? && r.body.details.None?
    ensures r.body.error != ""
    ensures e.code == Some("LIMIT_FILE_SIZE") ==> r.body.error == "File too large. Maximum size is 500MB."
    ensures e.code == Some("LIMIT_UNEXPECTED_FILE") ==> r.body.error == "Unexpected file field."
    ensures e.code != Some("LIMIT_FILE_SIZE") && e.code != Some("LIMIT_UNEXPECTED_FILE") ==>
              r.body.error == (if e.message != "" then e.message else "File upload error")
  {
    if e.code == Some("LIMIT_FILE_SIZE") then BadRequest("File too large. Maximum size is 500MB.")
    else if e.code == Some("LIMIT_UNEXPECTED_FILE") then BadRequest("Unexpected file field.")
    else BadRequest(if e.message != "" then e.message else "File upload error")
  }

  /** A part the file filter refuses reaches the client as a 400 carrying
      the filter's own message. */
  lemma FilterRejectionReported(fieldname: string, mimetype: string)
    requires FileFilter(fieldname, mimetype).Reject?
    ensures MulterErrorResponse(MulterError(None, FileFilter(fieldname, mimetype).message))
            == BadRequest(FileFilter(fieldname, mimetype).message)
  {
  }

  // ---------------------------------------------------------------------
  // Read-only endpoints

  /** `GET /api/admin/storage-status`: the storage type is `cloud` exactly
      when the provider is configured, `local` otherwise. */
  function StorageStatusResponse(c: Credentials): (r: HttpResponse)
    ensures r.status == 200 && r.body.StatusBody?
    ensures r.body.cloudinaryConfigured == IsConfigured(c)
    ensures r.body.storageType == "cloud" <==> IsConfigured(c)
    ensures r.body.storageType == "local" <==> !IsConfigured(c)
  {
    HttpResponse(200, StatusBody(IsConfigured(c), if IsConfigured(c) then "cloud" else "local"))
  }

  /** `GET /api/videos`: every stored video, unfiltered, in insertion order. */
  method HandleGetVideos(store: MemStorage) returns (resp: HttpResponse)
    requires store.Valid()
    ensures resp.status == 200 && resp.body.VideoListBody?
    ensures resp.body.videos == store.videos
  {
    var videos := store.GetVideos();
    resp := HttpResponse(200, VideoListBody(videos));
  }

  // ---------------------------------------------------------------------
  // The upload handler

  /** A text field of the multipart body: missing, sent once, or not a
      string (sent several times, the parser gives an array; sent under a
      bracketed key, an object). */
  datatype FormField = Absent | Text(value: string) | Repeated(values: seq<string>)

  /** A file part the parser has written to a temp file. */
  datatype StoredFile = StoredFile(
    fieldname: string,
    originalName: string,
    mimetype: string,
    size: nat,
    filename: string,
    path: string)

  /** What reaches the handler: the parser's error, or the text fields and
      the files by field name. */
  datatype Submission =
    | MulterFailed(error: MulterError)
    | Parsed(title: FormField, description: FormField, files: map<string, seq<StoredFile>>)

  /** Everything outside the handler that decides its course: the
      credentials, the provider's reply to each upload, whether unlinking
      each temp file throws, and the clock. */
  datatype World = World(
    credentials: Credentials,
    videoReply: ProviderReply,
    thumbnailReply: ProviderReply,
    videoUnlinkFails: bool,
    thumbnailUnlinkFails: bool,
    now: Timestamp)

  /** What a request ends in: a response without persisting, or a record to
      persist (the response is then the stored record). */
  datatype Outcome = Respond(response: HttpResponse) | Persist(data: InsertVideo)

  /** The provider calls made, the temp files removed, and the outcome. */
  datatype Plan = Plan(uploads: seq<UploadRequest>, deleted: seq<string>, outcome: Outcome)

  /** `files.<name>[0]`. */
  function FirstFile(files: map<string, seq<StoredFile>>, name: string): Option<StoredFile>
  {
    if name in files && |files[name]| > 0 then Some(files[name][0]) else None
  }

  /** `!title || title.trim() === ''` for a title sent at most once: the
      field is absent, or nothing but whitespace. */
  function TitleMissing(title: FormField): (b: bool)
    ensures b <==> title.Absent? || (title.Text? && AllWhitespace(title.value))
  {
    title.Absent? || (title.Text? && (title.value == "" || Trim(title.value) == ""))
  }

  /** `description?.trim() || ''` for a description sent at most once:
      the trimmed text when there is one, the empty string otherwise; it
      never has whitespace at either end. */
  function DescriptionText(description: FormField): (r: string)
    ensures description.Text? ==> r == Trim(description.value)
    ensures !description.Text? ==> r == ""
    ensures Trim(r) == r
  {
    if description.Text? && Trim(description.value) != "" then
      TrimIdempotent(description.value);
      Trim(description.value)
    else ""
  }

  /** The message of the TypeError raised by calling `.trim` on an array
      or an object. */
  const TitleTrimError: string := "title.trim is not a function"
  const DescriptionTrimError: string := "description?.trim is not a function"

  function LocalVideoUrl(video: StoredFile): string
  {
    "/uploads/videos/" + video.filename
  }

  function LocalThumbnailUrl(thumbnail: Option<StoredFile>): string
  {
    if thumbnail.Some? then "/uploads/thumbnails/" + thumbnail.value.filename else ""
  }

  /** Both provider uploads that were needed succeeded. */
  predicate ProviderStoredAll(w: World, thumbnail: Option<StoredFile>)
  {
    IsConfigured(w.credentials) && w.videoReply.Stored?
    && (thumbnail.None? || w.thumbnailReply.Stored?)
  }

  /** The provider calls: none without configuration; otherwise the video,
      then the thumbnail only if there is one and the video call succeeded. */
  function ProviderUploads(w: World, video: StoredFile, thumbnail: Option<StoredFile>): (r: seq<UploadRequest>)
    ensures |r| <= MaxFiles
    ensures r == [] <==> !IsConfigured(w.credentials)
    ensures r != [] ==> r[0] == VideoUploadRequest(video.path, video.filename)
    ensures |r| == 2 <==> IsConfigured(w.credentials) && w.videoReply.Stored? && thumbnail.Some?
    ensures |r| == 2 ==> r[1] == ImageUploadRequest(thumbnail.value.path, thumbnail.value.filename)
  {
    if !IsConfigured(w.credentials) then []
    else
      [VideoUploadRequest(video.path, video.filename)]
      + if w.videoReply.Stored? && thumbnail.Some?
        then [ImageUploadRequest(thumbnail.value.path, thumbnail.value.filename)]
        else []
  }

  /** The temp files removed: only once every provider upload succeeded;
      an unlink that throws ends the clean-up silently. */
  function Deletions(w: World, video: StoredFile, thumbnail: Option<StoredFile>): (r: seq<string>)
    ensures |r| <= MaxFiles
    ensures r != [] ==> ProviderStoredAll(w, thumbnail) && r[0] == video.path
    ensures |r| == 2 ==> thumbnail.Some? && r[1] == thumbnail.value.path
    ensures ProviderStoredAll(w, thumbnail) && !w.videoUnlinkFails ==> r != []
    ensures w.videoUnlinkFails ==> r == []
    ensures w.thumbnailUnlinkFails ==> |r| <= 1
    ensures (ProviderStoredAll(w, thumbnail) && !w.videoUnlinkFails
             && thumbnail.Some? && !w.thumbnailUnlinkFails) ==> |r| == 2
  {
    if !ProviderStoredAll(w, thumbnail) || w.videoUnlinkFails then []
    else [video.path] + if thumbnail.Some? && !w.thumbnailUnlinkFails then [thumbnail.value.path] else []
  }

  /** The URLs recorded: the provider's when every upload succeeded, the
      local static paths otherwise. */
  function ChosenUrls(w: World, video: StoredFile, thumbnail: Option<StoredFile>): (r: (string, string))
    ensures ProviderStoredAll(w, thumbnail) ==> r.0 == w.videoReply.result.secureUrl
    ensures ProviderStoredAll(w, thumbnail) && thumbnail.Some? ==> r.1 == w.thumbnailReply.result.secureUrl
    ensures !ProviderStoredAll(w, thumbnail) ==> r.0 == LocalVideoUrl(video) && r.1 == LocalThumbnailUrl(thumbnail)
    ensures thumbnail.None? ==> r.1 == ""
  {
    if ProviderStoredAll(w, thumbnail) then
      (w.videoReply.result.secureUrl,
       if thumbnail.Some? then w.thumbnailReply.result.secureUrl else "")
    else (LocalVideoUrl(video), LocalThumbnailUrl(thumbnail))
  }

  /** The reference behaviour of `POST /api/admin/upload-video`. A record
      is persisted only for a parsed request with a single non-blank title,
      a video part and at most one description; no provider call is made
      without configuration, and no temp file is removed without a
      provider call. */
  function IngestPlan(s: Submission, w: World): (r: Plan)
    ensures r.outcome.Persist? ==>
              && s.Parsed? && s.title.Text? && !TitleMissing(s.title)
              && !s.description.Repeated? && FirstFile(s.files, "video").Some?
    ensures r.uploads != [] ==> IsConfigured(w.credentials)
    ensures r.uploads == [] ==> r.deleted == []
  {
    match s
    case MulterFailed(e) => Plan([], [], Respond(MulterErrorResponse(e)))
    case Parsed(title, description, files) =>
      if title.Repeated? then Plan([], [], Respond(UploadFailed(TitleTrimError)))
      else if TitleMissing(title) then Plan([], [], Respond(BadRequest("Title is required")))
      else if FirstFile(files, "video").None? then Plan([], [], Respond(BadRequest("Video file is required")))
      else
        var video := FirstFile(files, "video").value;
        var thumbnail := FirstFile(files, "thumbnail");
        var uploads := ProviderUploads(w, video, thumbnail);
        var deleted := Deletions(w, video, thumbnail);
        if description.Repeated? then Plan(uploads, deleted, Respond(UploadFailed(DescriptionTrimError)))
        else
          var (videoUrl, thumbnailUrl) := ChosenUrls(w, video, thumbnail);
          var data := InsertVideo(Trim(title.value), Some(DescriptionText(description)),
                                  thumbnailUrl, Some(videoUrl), Some(true));
          Plan(uploads, deleted, Persist(data))
  }

  /** The provider block of the upload handler: the video upload, then the
      thumbnail upload if the video one succeeded, then the clean-up of
      the temp files once both did; any provider error abandons the block
      and falls back to the local paths. */
  method UploadToProvider(videoFile: StoredFile, thumbnailFile: Option<StoredFile>, w: World)
    returns (videoUrl: string, thumbnailUrl: string, uploads: seq<UploadRequest>, deleted: seq<string>)
    requires IsConfigured(w.credentials)
    ensures uploads == ProviderUploads(w, videoFile, thumbnailFile)
    ensures deleted == Deletions(w, videoFile, thumbnailFile)
    ensures (videoUrl, thumbnailUrl) == ChosenUrls(w, videoFile, thumbnailFile)
  {
    thumbnailUrl, deleted := "", [];
    var failed := false;
    uploads := [VideoUploadRequest(videoFile.path, videoFile.filename)];
    var videoResult := UploadVideo(w.videoReply);
    if videoResult.Err? {
      failed := true;
    } else {
      videoUrl := videoResult.value.secureUrl;
      if thumbnailFile.Some? {
        uploads := uploads + [ImageUploadRequest(thumbnailFile.value.path, thumbnailFile.value.filename)];
        var thumbnailResult := UploadImage(w.thumbnailReply);
        if thumbnailResult.Err? {
          failed := true;
        } else {
          thumbnailUrl := thumbnailResult.value.secureUrl;
        }
      }
      if !failed && !w.videoUnlinkFails {
        deleted := [videoFile.path];
        if thumbnailFile.Some? && !w.thumbnailUnlinkFails {
          deleted := deleted + [thumbnailFile.value.path];
        }
      }
    }
    if failed {
      videoUrl := LocalVideoUrl(videoFile);
      thumbnailUrl := LocalThumbnailUrl(thumbnailFile);
    }
  }

  /** `POST /api/admin/upload-video`, step by step as the handler runs it:
      the parser error check, the title and video checks, the provider
      uploads with their fallback, the clean-up, the record, the store. It
      makes exactly the provider calls and removals `IngestPlan` names,
      answers what it says, and persists exactly when it says so. */
  method HandleUploadVideo(store: MemStorage, s: Submission, w: World)
    returns (resp: HttpResponse, uploads: seq<UploadRequest>, deleted: seq<string>)
    requires store.Valid()
    modifies store
    ensures store.Valid()
    ensures uploads == IngestPlan(s, w).uploads && deleted == IngestPlan(s, w).deleted
    ensures IngestPlan(s, w).outcome.Respond? ==>
              resp == IngestPlan(s, w).outcome.response && unchanged(store)
    ensures IngestPlan(s, w).outcome.Persist? ==>
              var v := NewVideo(old(store.currentId), IngestPlan(s, w).outcome.data, w.now);
              && resp == HttpResponse(200, UploadedBody(true, v))
              && store.videos == old(store.videos) + [v]
              && store.currentId == old(store.currentId) + 1
              && store.users == old(store.users)
  {
    uploads, deleted := [], [];
    if s.MulterFailed? {
      resp := MulterErrorResponse(s.error);
      return;
    }
    var title: FormField, description: FormField := s.title, s.description;
    var files: map<string, seq<StoredFile>> := s.files;

    if title.Repeated? {
      resp := UploadFailed(TitleTrimError);
      return;
    }
    if title.Absent? || title.value == "" || Trim(title.value) == "" {
      resp := BadRequest("Title is required");
      return;
    }
    if !("video" in files) || |files["video"]| == 0 {
      resp := BadRequest("Video file is required");
      return;
    }
    var videoFile: StoredFile := files["video"][0];
    var thumbnailFile := FirstFile(files, "thumbnail");

    var videoUrl: string, thumbnailUrl: string;
    if IsConfigured(w.credentials) {
      videoUrl, thumbnailUrl, uploads, deleted := UploadToProvider(videoFile, thumbnailFile, w);
    } else {
      videoUrl := LocalVideoUrl(videoFile);
      thumbnailUrl := LocalThumbnailUrl(thumbnailFile);
    }

    if description.Repeated? {
      resp := UploadFailed(DescriptionTrimError);
      return;
    }
    var trimmedDescription := if description.Text? then Trim(description.value) else "";
    var data := InsertVideo(Trim(title.value),
                            Some(if trimmedDescription != "" then trimmedDescription else ""),
                            thumbnailUrl, Some(videoUrl), Some(true));
    var video := store.CreateVideo(data, w.now);
    resp := HttpResponse(200, UploadedBody(true, video));
  }

  // ---------------------------------------------------------------------
  // Properties of the upload handler

  /** The title is checked before the video: a missing or blank title gets
      400 "Title is required" whether or not a video was sent, and nothing
      is uploaded, removed or stored. */
  lemma TitleCheckedFirst(title: FormField, description: FormField,
                          files: map<string, seq<StoredFile>>, w: World)
    requires TitleMissing(title)
    ensures IngestPlan(Parsed(title, description, files), w)
            == Plan([], [], Respond(BadRequest("Title is required")))
  {
  }

  /** With a usable title and no video part, the answer is 400 "Video file
      is required" and nothing is uploaded, removed or stored. */
  lemma VideoRequired(title: FormField, description: FormField,
                      files: map<string, seq<StoredFile>>, w: World)
    requires title.Text? && !TitleMissing(title)
    requires "video" !in files || files["video"] == []
    ensures IngestPlan(Parsed(title, description, files), w)
            == Plan([], [], Respond(BadRequest("Video file is required")))
  {
  }

  /** A 400 answer never comes with a provider call or a removal; every
      answer that persists nothing is a 400 or a 500 with a message. */
  lemma RejectionsTouchNothing(s: Submission, w: World)
    ensures var p := IngestPlan(s, w);
      p.outcome.Respond? ==>
        && (p.outcome.response.status == 400 || p.outcome.response.status == 500)
        && p.outcome.response.body.ErrorBody? && p.outcome.response.body.error != ""
        && (p.outcome.response.status == 400 ==> p.uploads == [] && p.deleted == [])
  {
  }

  /** The record persisted: the trimmed, non-blank title (already in
      trimmed form), the trimmed description or "", a video URL, and
      `isPublished` set to the column default, true. */
  lemma {:induction false} PersistedRecord(title: FormField, description: FormField,
                                           files: map<string, seq<StoredFile>>, w: World)
    requires IngestPlan(Parsed(title, description, files), w).outcome.Persist?
    ensures var d := IngestPlan(Parsed(title, description, files), w).outcome.data;
      && title.Text? && d.title == Trim(title.value)
      && d.title != "" && Trim(d.title) == d.title
      && d.description == Some(DescriptionText(description))
      && Trim(d.description.value) == d.description.value
      && d.videoUrl.Some?
      && d.isPublished == Some(VideoPublishedDefault)
  {
    TrimIdempotent(title.value);
    if description.Text? {
      TrimIdempotent(description.value);
    }
  }

  /** A valid submission for the given video and optional thumbnail. */
  predicate WellFormed(title: FormField, description: FormField,
                       files: map<string, seq<StoredFile>>)
  {
    title.Text? && !TitleMissing(title) && !description.Repeated?
    && FirstFile(files, "video").Some?
  }

  /** Without provider configuration the record points at the local static
      paths, no provider call is made and no temp file is removed. */
  lemma LocalUrlsWhenUnconfigured(title: FormField, description: FormField,
                                  files: map<string, seq<StoredFile>>, w: World)
    requires WellFormed(title, description, files) && !IsConfigured(w.credentials)
    ensures var p := IngestPlan(Parsed(title, description, files), w);
      var video := FirstFile(files, "video").value;
      && p.uploads == [] && p.deleted == [] && p.outcome.Persist?
      && p.outcome.data.videoUrl == Some("/uploads/videos/" + video.filename)
      && p.outcome.data.thumbnailUrl == LocalThumbnailUrl(FirstFile(files, "thumbnail"))
  {
  }

  /** With the provider configured and every upload stored, the record
      carries the provider's secure URLs (no thumbnail: ""), and the provider
      was asked for `videos/<file>` and, with a thumbnail, `thumbnails/<file>`. */
  lemma ProviderUrlsOnSuccess(title: FormField, description: FormField,
                              files: map<string, seq<StoredFile>>, w: World)
    requires WellFormed(title, description, files)
    requires ProviderStoredAll(w, FirstFile(files, "thumbnail"))
    ensures var p := IngestPlan(Parsed(title, description, files), w);
      var video := FirstFile(files, "video").value;
      var thumbnail := FirstFile(files, "thumbnail");
      && p.outcome.Persist?
      && p.outcome.data.videoUrl == Some(w.videoReply.result.secureUrl)
      && p.outcome.data.thumbnailUrl
         == (if thumbnail.Some? then w.thumbnailReply.result.secureUrl else "")
      && |p.uploads| == (if thumbnail.Some? then 2 else 1)
      && p.uploads[0].publicId == VideoIdPrefix + video.filename
      && (thumbnail.Some? ==> p.uploads[1].publicId == ImageIdPrefix + thumbnail.value.filename)
  {
  }

  /** A provider failure in either upload reverts both URLs to the local
      paths; the request still succeeds and no temp file is removed. */
  lemma FallbackOnProviderFailure(title: FormField, description: FormField,
                                  files: map<string, seq<StoredFile>>, w: World)
    requires WellFormed(title, description, files) && IsConfigured(w.credentials)
    requires w.videoReply.ProviderError?
             || (FirstFile(files, "thumbnail").Some? && w.thumbnailReply.ProviderError?)
    ensures var p := IngestPlan(Parsed(title, description, files), w);
      var video := FirstFile(files, "video").value;
      && p.outcome.Persist? && p.deleted == []
      && p.outcome.data.videoUrl == Some(LocalVideoUrl(video))
      && p.outcome.data.thumbnailUrl == LocalThumbnailUrl(FirstFile(files, "thumbnail"))
      && (w.videoReply.ProviderError? ==> |p.uploads| == 1)
  {
  }

  /** Temp files are removed only after every provider upload stored its
      file, only the request's own files are removed, and whenever the
      record points at local paths nothing was removed. */
  lemma DeletionOnlyAfterProviderStored(s: Submission, w: World)
    ensures var p := IngestPlan(s, w);
      p.deleted != [] ==>
        && s.Parsed? && FirstFile(s.files, "video").Some?
        && ProviderStoredAll(w, FirstFile(s.files, "thumbnail"))
        && p.deleted[0] == FirstFile(s.files, "video").value.path
        && (|p.deleted| == MaxFiles ==> p.deleted[1] == FirstFile(s.files, "thumbnail").value.path)
        && |p.deleted| <= MaxFiles
    ensures var p := IngestPlan(s, w);
      (s.Parsed? && FirstFile(s.files, "video").Some?
       && !ProviderStoredAll(w, FirstFile(s.files, "thumbnail"))) ==> p.deleted == []
  {
  }

  /** Where the static file handler mounted at `/uploads` finds a URL. */
  function ServedPath(root: string, url: string): Option<string>
  {
    if StartsWith(url, "/uploads/") then Some(root + url[|"/uploads"|..]) else None
  }

  /** A local video URL is served from the `videos` temp directory. */
  lemma LocalVideoUrlServed(root: string, video: StoredFile)
    ensures ServedPath(root, LocalVideoUrl(video)) == Some(TempPath(root, "video", video.filename))
  {
    var v := LocalVideoUrl(video);
    assert v == "/uploads" + ("/videos/" + video.filename);
    assert StartsWith(v, "/uploads/");
    assert v[|"/uploads"|..] == "/videos/" + video.filename;
    assert root + ("/videos/" + video.filename) == root + "/" + "videos" + "/" + video.filename;
  }

  /** A local thumbnail URL is served from the `thumbnails` temp directory. */
  lemma LocalThumbnailUrlServed(root: string, thumbnail: StoredFile)
    ensures ServedPath(root, LocalThumbnailUrl(Some(thumbnail)))
            == Some(TempPath(root, "thumbnail", thumbnail.filename))
  {
    var t := LocalThumbnailUrl(Some(thumbnail));
    assert t == "/uploads" + ("/thumbnails/" + thumbnail.filename);
    assert StartsWith(t, "/uploads/");
    assert t[|"/uploads"|..] == "/thumbnails/" + thumbnail.filename;
    assert root + ("/thumbnails/" + thumbnail.filename) == root + "/" + "thumbnails" + "/" + thumbnail.filename;
  }

  /** The local URLs the handler records resolve, through the static
      handler, to the very temp files the parser wrote (the files that are
      kept whenever local URLs are recorded). */
  lemma LocalUrlsServeTempFiles(root: string, video: StoredFile, thumbnail: StoredFile)
    requires video.fieldname == "video" && video.path == TempPath(root, "video", video.filename)
    requires thumbnail.fieldname == "thumbnail"
             && thumbnail.path == TempPath(root, "thumbnail", thumbnail.filename)
    ensures ServedPath(root, LocalVideoUrl(video)) == Some(video.path)
    ensures ServedPath(root, LocalThumbnailUrl(Some(thumbnail))) == Some(thumbnail.path)
  {
    LocalVideoUrlServed(root, video);
    LocalThumbnailUrlServed(root, thumbnail);
  }

  // ---------------------------------------------------------------------
  // Scenarios

  /** A titled upload of a small MP4 with local storage is stored with that
      title, published, under the first id. */
  method ScenarioTestSong()
  {
    var store := new MemStorage();
    var clip := StoredFile("video", "clip.mp4", "video/mp4", 1024 * 1024,
                           "video-1700000000000-42.mp4", "uploads/videos/video-1700000000000-42.mp4");
    var w := World(Credentials(None, None, None), ProviderError("unused"), ProviderError("unused"),
                   false, false, 1700000000000);
    var files := map["video" := [clip]];
    assert Trim("Test Song") == "Test Song" by {
      assert !IsJsWhitespace('T') && !IsJsWhitespace('g');
    }
    assert FirstFile(files, "video") == Some(clip);
    assert FirstFile(files, "thumbnail") == None by {
      assert "thumbnail" != "video";
    }
    var submission := Parsed(Text("Test Song"), Absent, files);
    LocalUrlsWhenUnconfigured(Text("Test Song"), Absent, files, w);
    PersistedRecord(Text("Test Song"), Absent, files, w);
    assert store.currentId == 1;
    var resp, uploads, deleted := HandleUploadVideo(store, submission, w);
    assert resp.status == 200;
    assert resp.body.video.id == 1 && resp.body.video.title == "Test Song";
    assert resp.body.video.videoUrl == Some(LocalVideoUrl(clip));
    assert resp.body.video.isPublished == Some(true);
    assert uploads == [] && deleted == [];
  }

  /** An upload without a title is refused with 400 and nothing is stored. */
  method ScenarioMissingTitle()
  {
    var store := new MemStorage();
    var clip := StoredFile("video", "clip.mp4", "video/mp4", 1024 * 1024,
                           "video-1700000000000-42.mp4", "uploads/videos/video-1700000000000-42.mp4");
    var w := World(Credentials(None, None, None), ProviderError("unused"), ProviderError("unused"),
                   false, false, 1700000000000);
    var resp, uploads, deleted := HandleUploadVideo(store, Parsed(Absent, Absent, map["video" := [clip]]), w);
    assert resp == BadRequest("Title is required");
    assert store.videos == [];
  }

  /** A PDF sent as the video part is refused by the filter, which the
      client sees as a 400; the handler stores nothing. */
  method ScenarioWrongType()
  {
    assert !StartsWith("application/pdf", "video/") by {
      assert "application/pdf"[0] != 'v';
    }
    var d := FileFilter("video", "application/pdf");
    assert d.Reject?;
    var store := new MemStorage();
    var w := World(Credentials(None, None, None), ProviderError("unused"), ProviderError("unused"),
                   false, false, 0);
    var resp, uploads, deleted := HandleUploadVideo(store, MulterFailed(MulterError(None, d.message)), w);
    assert resp.status == 400;
    assert store.videos == [];
  }
}
