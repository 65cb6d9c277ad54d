/** The admin page's batch-upload list: the entries being prepared, the
    operations that edit them, the client-side checks on attached files,
    and the upload loop that sends one form per entry.

    The list operations are pure functions of the list; the page itself is
    a class whose state (`videos`, `uploading`) the handlers reassign.
    The clock, the object URLs the browser creates for previews, and the
    server's answers are inputs. */
module Admin {
  import opened Wrappers
  import opened Text
  import Routes

  /** A file picked in the browser: its name, MIME type and size in bytes. */
  datatype BrowserFile = BrowserFile(name: string, mimeType: string, size: nat)

  /** One entry of the list being prepared for upload. */
  datatype VideoUpload = VideoUpload(
    id: string,
    title: string,
    description: string,
    file: Option<BrowserFile>,
    thumbnail: Option<BrowserFile>,
    preview: Option<string>,
    thumbnailPreview: Option<string>)

  /** An assignment to one field of an entry, as `updateVideo` makes it. */
  datatype FieldUpdate =
    | SetTitle(title: string)
    | SetDescription(description: string)
    | SetFile(file: Option<BrowserFile>)
    | SetThumbnail(thumbnail: Option<BrowserFile>)
    | SetPreview(preview: Option<string>)
    | SetThumbnailPreview(thumbnailPreview: Option<string>)

  /** `{ ...video, [field]: value }`: the named field takes the new value,
      every other field, the id included, keeps its old one. */
  function Apply(v: VideoUpload, u: FieldUpdate): (r: VideoUpload)
    ensures r.id == v.id
    ensures r.title == (if u.SetTitle? then u.title else v.title)
    ensures r.description == (if u.SetDescription? then u.description else v.description)
    ensures r.file == (if u.SetFile? then u.file else v.file)
    ensures r.thumbnail == (if u.SetThumbnail? then u.thumbnail else v.thumbnail)
    ensures r.preview == (if u.SetPreview? then u.preview else v.preview)
    ensures r.thumbnailPreview == (if u.SetThumbnailPreview? then u.thumbnailPreview else v.thumbnailPreview)
  {
    match u
    case SetTitle(t) => v.(title := t)
    case SetDescription(d) => v.(description := d)
    case SetFile(f) => v.(file := f)
    case SetThumbnail(t) => v.(thumbnail := t)
    case SetPreview(p) => v.(preview := p)
    case SetThumbnailPreview(p) => v.(thumbnailPreview := p)
  }

  /** A blank entry whose id is the clock reading in decimal. */
  function BlankEntry(now: nat): VideoUpload
  {
    VideoUpload(NatToString(now), "", "", None, None, None, None)
  }

  /** `addNewVideo`: the list with a blank entry appended. */
  function WithNewEntry(vs: seq<VideoUpload>, now: nat): (r: seq<VideoUpload>)
    ensures |r| == |vs| + 1 && r[..|vs|] == vs
    ensures r[|vs|].title == "" && r[|vs|].description == ""
    ensures r[|vs|].file.None? && r[|vs|].thumbnail.None?
    ensures r[|vs|].preview.None? && r[|vs|].thumbnailPreview.None?
    ensures r[|vs|].id == NatToString(now)
  {
    vs + [BlankEntry(now)]
  }

  /** `removeVideo`: the list without the entries carrying `id`. */
  function Without(vs: seq<VideoUpload>, id: string): (r: seq<VideoUpload>)
    ensures |r| <= |vs|
    ensures forall x :: x in r <==> x in vs && x.id != id
  {
    if vs == [] then []
    else (if vs[0].id == id then [] else [vs[0]]) + Without(vs[1..], id)
  }

  /** Removal keeps the relative order of what remains: it works entry by
      entry, so it splits over concatenation. */
  lemma {:induction false} WithoutSplits(a: seq<VideoUpload>, b: seq<VideoUpload>, id: string)
    ensures Without(a + b, id) == Without(a, id) + Without(b, id)
  {
    if a == [] {
      assert a + b == b;
    } else {
      assert (a + b)[0] == a[0];
      assert (a + b)[1..] == a[1..] + b;
      WithoutSplits(a[1..], b, id);
    }
  }

  /** Removing an id no entry carries changes nothing. */
  lemma {:induction false} WithoutAbsentId(vs: seq<VideoUpload>, id: string)
    requires forall x :: x in vs ==> x.id != id
    ensures Without(vs, id) == vs
  {
    if vs != [] {
      assert vs[1..] + [] == vs[1..];
      WithoutAbsentId(vs[1..], id);
      assert vs == [vs[0]] + vs[1..];
    }
  }

  /** Removing twice is removing once. */
  lemma WithoutIdempotent(vs: seq<VideoUpload>, id: string)
    ensures Without(Without(vs, id), id) == Without(vs, id)
  {
    WithoutAbsentId(Without(vs, id), id);
  }

  /** Adding an entry and removing it by its id gives the list back, when
      no earlier entry had that id. */
  lemma AddThenRemove(vs: seq<VideoUpload>, now: nat)
    requires forall x :: x in vs ==> x.id != NatToString(now)
    ensures Without(WithNewEntry(vs, now), NatToString(now)) == vs
  {
    WithoutSplits(vs, [BlankEntry(now)], NatToString(now));
    WithoutAbsentId(vs, NatToString(now));
    assert Without([BlankEntry(now)], NatToString(now)) == [];
  }

  /** `updateVideo`: every entry with `id` gets the update, the others
      stay as they are. */
  function WithUpdate(vs: seq<VideoUpload>, id: string, u: FieldUpdate): (r: seq<VideoUpload>)
    ensures |r| == |vs|
    ensures forall i :: 0 <= i < |vs| ==> r[i].id == vs[i].id
    ensures forall i :: 0 <= i < |vs| && vs[i].id != id ==> r[i] == vs[i]
  {
    seq(|vs|, i requires 0 <= i < |vs| => if vs[i].id == id then Apply(vs[i], u) else vs[i])
  }

  /** An update keeps the length and every entry's id, leaves entries with
      another id untouched, and applying it again changes nothing. */
  lemma UpdateFrame(vs: seq<VideoUpload>, id: string, u: FieldUpdate)
    ensures var r := WithUpdate(vs, id, u);
      && (forall i :: 0 <= i < |vs| ==> r[i].id == vs[i].id)
      && (forall i :: 0 <= i < |vs| && vs[i].id != id ==> r[i] == vs[i])
      && (forall i :: 0 <= i < |vs| && vs[i].id == id ==> r[i] == Apply(vs[i], u))
      && WithUpdate(r, id, u) == r
  {
    var r := WithUpdate(vs, id, u);
    forall i | 0 <= i < |vs| && vs[i].id == id
      ensures Apply(r[i], u) == r[i]
    {
      assert r[i] == Apply(vs[i], u);
    }
  }

  // ---------------------------------------------------------------------
  // Client-side checks on attached files

  const ClientVideoTypes: seq<string> :=
    ["video/mp4", "video/mov", "video/avi", "video/mkv", "video/webm"]
  const ClientImageTypes: seq<string> :=
    ["image/jpeg", "image/jpg", "image/png", "image/webp"]
  const ClientVideoMaxBytes: nat := 500 * 1024 * 1024
  const ClientThumbnailMaxBytes: nat := 5 * 1024 * 1024

  /** The page's check on a video file: accepted exactly when its type is
      MP4, MOV, AVI, MKV or WebM and it is at most 500 MiB; so it only ever
      accepts a `video/` type. */
  function VideoFileAcceptable(f: BrowserFile): (b: bool)
    ensures b <==> f.size <= 500 * 1024 * 1024
                   && f.mimeType in {"video/mp4", "video/mov", "video/avi", "video/mkv", "video/webm"}
    ensures b ==> StartsWith(f.mimeType, "video/") && f.size <= 500 * 1024 * 1024
  {
    assert forall t :: t in ClientVideoTypes ==> StartsWith(t, "video/") by {
      assert StartsWith("video/mp4", "video/") && StartsWith("video/mov", "video/");
      assert StartsWith("video/avi", "video/") && StartsWith("video/mkv", "video/");
      assert StartsWith("video/webm", "video/");
    }
    f.mimeType in ClientVideoTypes && f.size <= ClientVideoMaxBytes
  }

  /** The page's check on a thumbnail: accepted exactly when its type is
      JPEG (either spelling), PNG or WebP and it is at most 5 MiB; so it
      only ever accepts an `image/` type. */
  function ThumbnailAcceptable(f: BrowserFile): (b: bool)
    ensures b <==> f.size <= 5 * 1024 * 1024
                   && f.mimeType in {"image/jpeg", "image/jpg", "image/png", "image/webp"}
    ensures b ==> StartsWith(f.mimeType, "image/") && f.size <= 5 * 1024 * 1024
  {
    assert forall t :: t in ClientImageTypes ==> StartsWith(t, "image/") by {
      assert StartsWith("image/jpeg", "image/") && StartsWith("image/jpg", "image/");
      assert StartsWith("image/png", "image/") && StartsWith("image/webp", "image/");
    }
    f.mimeType in ClientImageTypes && f.size <= ClientThumbnailMaxBytes
  }

  /** `handleVideoFileChange`: an acceptable file is attached to the entry
      together with its preview URL; no file, a refused type or a file over
      500 MiB leaves the list as it was. */
  function AfterVideoFileChange(vs: seq<VideoUpload>, id: string, file: Option<BrowserFile>,
                                preview: string): (r: seq<VideoUpload>)
    ensures |r| == |vs|
    ensures forall i :: 0 <= i < |vs| ==> r[i].id == vs[i].id
    ensures file.None? || !VideoFileAcceptable(file.value) ==> r == vs
    ensures forall i :: 0 <= i < |vs| && vs[i].id != id ==> r[i] == vs[i]
  {
    if file.None? || !(file.value.mimeType in ClientVideoTypes) || file.value.size > ClientVideoMaxBytes then vs
    else WithUpdate(WithUpdate(vs, id, SetFile(file)), id, SetPreview(Some(preview)))
  }

  /** `handleThumbnailChange`: as for the video, with the image types and
      the 5 MiB limit. */
  function AfterThumbnailChange(vs: seq<VideoUpload>, id: string, file: Option<BrowserFile>,
                                preview: string): (r: seq<VideoUpload>)
    ensures |r| == |vs|
    ensures forall i :: 0 <= i < |vs| ==> r[i].id == vs[i].id
    ensures file.None? || !ThumbnailAcceptable(file.value) ==> r == vs
    ensures forall i :: 0 <= i < |vs| && vs[i].id != id ==> r[i] == vs[i]
  {
    if file.None? || !(file.value.mimeType in ClientImageTypes) || file.value.size > ClientThumbnailMaxBytes then vs
    else WithUpdate(WithUpdate(vs, id, SetThumbnail(file)), id, SetThumbnailPreview(Some(preview)))
  }

  /** A video file change either leaves the list alone (exactly when there
      is no file or it is refused) or sets the file and its preview on the
      entries with `id` and nothing else. */
  lemma VideoFileChangeEffect(vs: seq<VideoUpload>, id: string, file: Option<BrowserFile>, preview: string)
    ensures var r := AfterVideoFileChange(vs, id, file, preview);
      && (file.None? || !VideoFileAcceptable(file.value) ==> r == vs)
      && (file.Some? && VideoFileAcceptable(file.value) ==>
            forall i :: 0 <= i < |vs| ==>
              r[i] == if vs[i].id == id then vs[i].(file := file, preview := Some(preview)) else vs[i])
  {
  }

  /** A thumbnail change either leaves the list alone (exactly when there
      is no file or it is refused) or sets the thumbnail and its preview on
      the entries with `id` and nothing else. */
  lemma ThumbnailChangeEffect(vs: seq<VideoUpload>, id: string, file: Option<BrowserFile>, preview: string)
    ensures var r := AfterThumbnailChange(vs, id, file, preview);
      && (file.None? || !ThumbnailAcceptable(file.value) ==> r == vs)
      && (file.Some? && ThumbnailAcceptable(file.value) ==>
            forall i :: 0 <= i < |vs| ==>
              r[i] == if vs[i].id == id then vs[i].(thumbnail := file, thumbnailPreview := Some(preview)) else vs[i])
  {
  }

  /** Every attached file passed the client-side check. */
  predicate AttachmentsAcceptable(vs: seq<VideoUpload>)
  {
    forall i :: 0 <= i < |vs| ==>
      (vs[i].file.Some? ==> VideoFileAcceptable(vs[i].file.value))
      && (vs[i].thumbnail.Some? ==> ThumbnailAcceptable(vs[i].thumbnail.value))
  }

  /** Adding and removing entries keeps every attached file acceptable. */
  lemma AddRemoveKeepAttachments(vs: seq<VideoUpload>, id: string, now: nat)
    requires AttachmentsAcceptable(vs)
    ensures AttachmentsAcceptable(WithNewEntry(vs, now))
    ensures AttachmentsAcceptable(Without(vs, id))
  {
    var w := Without(vs, id);
    forall i | 0 <= i < |w|
      ensures (w[i].file.Some? ==> VideoFileAcceptable(w[i].file.value))
              && (w[i].thumbnail.Some? ==> ThumbnailAcceptable(w[i].thumbnail.value))
    {
      assert w[i] in vs;
    }
  }

  /** Text and preview edits keep every attached file acceptable. */
  lemma EditsKeepAttachments(vs: seq<VideoUpload>, id: string, u: FieldUpdate)
    requires AttachmentsAcceptable(vs)
    requires !u.SetFile? && !u.SetThumbnail?
    ensures AttachmentsAcceptable(WithUpdate(vs, id, u))
  {
  }

  /** The file handlers attach only files the checks accept. */
  lemma FileChangesKeepAttachments(vs: seq<VideoUpload>, id: string, file: Option<BrowserFile>, preview: string)
    requires AttachmentsAcceptable(vs)
    ensures AttachmentsAcceptable(AfterVideoFileChange(vs, id, file, preview))
    ensures AttachmentsAcceptable(AfterThumbnailChange(vs, id, file, preview))
  {
    VideoFileChangeEffect(vs, id, file, preview);
    ThumbnailChangeEffect(vs, id, file, preview);
  }

  /** What the client accepts the server's file filter and size limit
      accept too. */
  lemma ClientAcceptedPassesServer(f: BrowserFile)
    ensures VideoFileAcceptable(f) ==>
              Routes.FileFilter("video", f.mimeType).Accept? && f.size <= Routes.MaxFileBytes
    ensures ThumbnailAcceptable(f) ==>
              Routes.FileFilter("thumbnail", f.mimeType).Accept? && f.size <= Routes.MaxFileBytes
  {
    Routes.AllowListsWithinPrefixes();
  }

  /** The converse fails: a QuickTime movie, which the server accepts, is
      refused by the page. */
  lemma QuickTimeRefusedByClientOnly(f: BrowserFile)
    requires f.mimeType == "video/quicktime"
    ensures !VideoFileAcceptable(f)
    ensures Routes.FileFilter("video", f.mimeType).Accept?
  {
    Routes.AllowListsWithinPrefixes();
    assert "video/quicktime" != "video/mp4" && "video/quicktime" != "video/mov";
    assert "video/quicktime" != "video/avi" && "video/quicktime" != "video/mkv";
    assert "video/quicktime" != "video/webm";
  }

  // ---------------------------------------------------------------------
  // The upload loop

  /** An entry may be sent: it has a video file and a non-blank title,
      one with a character other than whitespace. */
  function ReadyToSend(v: VideoUpload): (b: bool)
    ensures b <==> v.file.Some? && !AllWhitespace(v.title)
  {
    v.file.Some? && v.title != "" && Trim(v.title) != ""
  }

  predicate AllReady(vs: seq<VideoUpload>)
  {
    forall i :: 0 <= i < |vs| ==> ReadyToSend(vs[i])
  }

  /** The pre-validation filter: the entries that may not be sent. The
      batch goes ahead exactly when there are none. */
  function NotReady(vs: seq<VideoUpload>): (r: seq<VideoUpload>)
    ensures forall x :: x in r <==> x in vs && !ReadyToSend(x)
    ensures r == [] <==> AllReady(vs)
  {
    if vs == [] then []
    else
      var rest := NotReady(vs[1..]);
      assert AllReady(vs) <==> ReadyToSend(vs[0]) && AllReady(vs[1..]) by {
        if ReadyToSend(vs[0]) && AllReady(vs[1..]) {
          forall i | 0 < i < |vs| ensures ReadyToSend(vs[i]) {
            assert vs[i] == vs[1..][i - 1];
          }
        }
      }
      (if ReadyToSend(vs[0]) then [] else [vs[0]]) + rest
  }

  /** The multipart form sent for one entry: the trimmed title and
      description, the video, and the thumbnail when there is one. */
  datatype UploadForm = UploadForm(
    title: string,
    description: string,
    video: BrowserFile,
    thumbnail: Option<BrowserFile>)

  function FormFor(v: VideoUpload): UploadForm
    requires v.file.Some?
  {
    UploadForm(Trim(v.title), Trim(v.description), v.file.value, v.thumbnail)
  }

  /** The forms for a run of entries, in list order. */
  function Forms(vs: seq<VideoUpload>): (r: seq<UploadForm>)
    requires AllReady(vs)
    ensures |r| == |vs|
  {
    seq(|vs|, i requires 0 <= i < |vs| => FormFor(vs[i]))
  }

  /** Each form is the entry's data: its trimmed, non-blank title, its
      trimmed description, its own video, and a thumbnail exactly when the
      entry has one. The server's title check accepts such a title, and
      trimming it again on the server changes nothing. */
  lemma {:induction false} FormsCarryEntries(vs: seq<VideoUpload>)
    requires AllReady(vs)
    ensures forall i :: 0 <= i < |vs| ==>
      && Forms(vs)[i].title == Trim(vs[i].title) && Forms(vs)[i].title != ""
      && Trim(Forms(vs)[i].title) == Forms(vs)[i].title
      && !Routes.TitleMissing(Routes.Text(Forms(vs)[i].title))
      && Forms(vs)[i].description == Trim(vs[i].description)
      && Some(Forms(vs)[i].video) == vs[i].file
      && Forms(vs)[i].thumbnail == vs[i].thumbnail
  {
    forall i | 0 <= i < |vs|
      ensures Trim(Forms(vs)[i].title) == Forms(vs)[i].title
    {
      TrimIdempotent(vs[i].title);
    }
  }

  /** The position of the first refused upload, if any. */
  function FirstRefusal(replies: seq<bool>): (r: Option<nat>)
    ensures r.Some? ==> r.value < |replies| && !replies[r.value]
    ensures r.Some? ==> forall j :: 0 <= j < r.value ==> replies[j]
    ensures r.None? <==> forall j :: 0 <= j < |replies| ==> replies[j]
  {
    if replies == [] then None
    else if !replies[0] then Some(0)
    else match FirstRefusal(replies[1..])
      case None => None
      case Some(k) => Some(k + 1)
  }

  /** How many forms the loop sends: all of them, or up to and including
      the first refused one. Every form before the last one sent was
      accepted, and stopping early means the last one sent was refused. */
  function SentCount(replies: seq<bool>): (n: nat)
    ensures n <= |replies|
    ensures forall j :: 0 <= j < n - 1 ==> replies[j]
    ensures n < |replies| ==> n >= 1 && !replies[n - 1]
    ensures n == |replies| || (n >= 1 && !replies[n - 1])
  {
    match FirstRefusal(replies)
    case None => |replies|
    case Some(k) => k + 1
  }

  /** The forms for one more entry are the forms so far and its own. */
  lemma FormsExtend(vs: seq<VideoUpload>, i: nat)
    requires AllReady(vs) && i < |vs|
    ensures Forms(vs[..i + 1]) == Forms(vs[..i]) + [FormFor(vs[i])]
  {
    assert AllReady(vs[..i]) && AllReady(vs[..i + 1]);
  }

  /** The first refusal is the one after an unbroken run of successes. */
  lemma FirstRefusalAfterRun(replies: seq<bool>, i: nat)
    requires i < |replies| && !replies[i]
    requires forall j :: 0 <= j < i ==> replies[j]
    ensures FirstRefusal(replies) == Some(i)
  {
  }

  class AdminPage {
    var videos: seq<VideoUpload>
    var uploading: bool

    /** The page as mounted: no entries, not uploading. */
    constructor ()
      ensures videos == [] && !uploading
    {
      videos := [];
      uploading := false;
    }

    method AddNewVideo(now: nat)
      modifies this
      ensures videos == WithNewEntry(old(videos), now) && uploading == old(uploading)
    {
      videos := videos + [BlankEntry(now)];
    }

    method RemoveVideo(id: string)
      modifies this
      ensures videos == Without(old(videos), id) && uploading == old(uploading)
    {
      videos := Without(videos, id);
    }

    method UpdateVideo(id: string, u: FieldUpdate)
      modifies this
      ensures videos == WithUpdate(old(videos), id, u) && uploading == old(uploading)
    {
      videos := WithUpdate(videos, id, u);
    }

    /** `preview` is the object URL the browser creates for the file. */
    method HandleVideoFileChange(id: string, file: Option<BrowserFile>, preview: string)
      modifies this
      ensures videos == AfterVideoFileChange(old(videos), id, file, preview)
      ensures uploading == old(uploading)
    {
      if file.Some? {
        if !(file.value.mimeType in ClientVideoTypes) {
          return;
        }
        if file.value.size > ClientVideoMaxBytes {
          return;
        }
        UpdateVideo(id, SetFile(file));
        UpdateVideo(id, SetPreview(Some(preview)));
      }
    }

    method HandleThumbnailChange(id: string, file: Option<BrowserFile>, preview: string)
      modifies this
      ensures videos == AfterThumbnailChange(old(videos), id, file, preview)
      ensures uploading == old(uploading)
    {
      if file.Some? {
        if !(file.value.mimeType in ClientImageTypes) {
          return;
        }
        if file.value.size > ClientThumbnailMaxBytes {
          return;
        }
        UpdateVideo(id, SetThumbnail(file));
        UpdateVideo(id, SetThumbnailPreview(Some(preview)));
      }
    }

    /** `uploadVideos`. `replies[i]` is whether the server answered the
        i-th entry's request with a success status. When some entry lacks a
        file or a title nothing is sent and nothing changes. Otherwise the
        forms go out in list order up to and including the first refused
        one, `uploading` ends false, and the list is cleared exactly when
        every request succeeded and there was at least one. */
    method UploadVideos(replies: seq<bool>) returns (sent: seq<UploadForm>)
      requires |replies| == |videos|
      modifies this
      ensures !AllReady(old(videos)) ==>
                sent == [] && videos == old(videos) && uploading == old(uploading)
      ensures AllReady(old(videos)) ==>
                && sent == Forms(old(videos)[..SentCount(replies)])
                && !uploading
                && videos == if FirstRefusal(replies).None? && |old(videos)| > 0 then [] else old(videos)
    {
      sent := [];
      var invalid := NotReady(videos);
      if |invalid| > 0 {
        return;
      }
      uploading := true;
      var list := videos;
      var uploadedCount := 0;
      var failed := false;
      var i := 0;
      while i < |list|
        invariant 0 <= i <= |list| && list == old(videos) && AllReady(list)
        invariant videos == old(videos) && uploading
        invariant uploadedCount == i
        invariant forall j :: 0 <= j < i ==> replies[j]
        invariant sent == Forms(list[..i])
      {
        FormsExtend(list, i);
        sent := sent + [FormFor(list[i])];
        if !replies[i] {
          failed := true;
          break;
        }
        uploadedCount := uploadedCount + 1;
        i := i + 1;
      }
      if failed {
        FirstRefusalAfterRun(replies, i);
      } else {
        assert FirstRefusal(replies).None?;
        assert list[..i] == list;
      }
      if !failed && uploadedCount > 0 {
        videos := [];
      }
      uploading := false;
    }
  }
}
