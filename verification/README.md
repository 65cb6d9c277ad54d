# Beatrepreneur video ingestion and metadata store, in Dafny

Beatrepreneur is a music artist's site. Its admin page lets the artist
prepare a batch of videos, with a title, a description, a video file and an
optional thumbnail for each one. The page sends them one by one to an
upload endpoint. The server filters and names the multipart files. It
checks the title and the video, then pushes both files to a cloud media
provider when one is configured. When the provider is not configured, or
either upload fails, it keeps the local temp files and serves them. It
removes the temp files only after both provider uploads succeeded. Finally
it stores a video record in an in-memory store whose single counter numbers
users and videos alike. The public pages list the published videos and
look one up by its id.

The model has these modules:

- `Wrappers` (`wrappers.dfy`): `Option` and `Result`.
- `Text` (`text.dfy`): the JavaScript string operations the path relies on:
  `trim` with ECMAScript's whitespace set, `startsWith`, and the decimal
  rendering of a non-negative integer.
- `Schema` (`schema.dfy`): the four record shapes, the insert payloads and the
  videos' `is_published` default. A nullable column is an `Option`.
- `Cloudinary` (`cloudinary.dfy`): the configuration test over the three
  credential variables, the requests the two upload helpers send (public ids,
  folders, formats), and how a provider reply becomes a result or an error.
- `Storage` (`storage.dfy`): the class `MemStorage`. Each table is a `Map`
  keyed by the record's own id, so it is kept as its values in insertion order.
  The class invariant says:
  - ids are positive and below the counter;
  - ids increase in insertion order;
  - no user shares an id with a video;
  - the two tables nothing writes stay empty.
- `Routes` (`routes.dfy`):
  - the multipart file filter, the temp-file directory and name, and the
    mapping of multipart errors to responses;
  - the storage-status and video-list endpoints;
  - the upload handler. `IngestPlan` is its reference behaviour: which provider
    calls are made, which temp files are removed, what is answered, what is
    persisted. `HandleUploadVideo` follows the handler step by step against a
    `MemStorage` and is proved to agree with that reference.
- `Admin` (`admin.dfy`):
  - the admin page's list operations as functions on the list;
  - the client-side checks on attached files;
  - the class `AdminPage`, whose handlers reassign `videos` and `uploading`.
    Its `UploadVideos` loop is proved against `Forms`, `FirstRefusal` and
    `SentCount`.
- `Views` (`views.dfy`): the published filter of the video section and the
  find-by-id of the player.

Inputs from outside the process become parameters:
- the multipart parser's outcome (`Routes.Submission`);
- the provider's reply to each call, whether each unlink throws, and the
  clock (`Routes.World`);
- `Date.now()` and `Math.random()` in temp-file names;
- the preview object URLs;
- the server's answer to each request the admin page sends (`replies`).

## Model

| member | source | states |
|---|---|---|
| Text.Trim | server/routes.ts:126 | `trim()` gives a blank string exactly when the input is all whitespace; otherwise the result has no whitespace at either end, and a string with none at either end is unchanged |
| Text.TrimIsInfix | server/routes.ts:126 | the result of `trim()` is the input with an all-whitespace prefix and an all-whitespace suffix cut off, so no other character is dropped, added or moved |
| Text.TrimIdempotent | server/routes.ts:187 | trimming an already trimmed title changes nothing |
| Text.NatToString | server/routes.ts:40 | the decimal rendering of the clock and the random number is non-empty, all digits, with no leading zero |
| Text.ParseNatToString | server/routes.ts:40 | the decimal rendering reads back as the number it renders |
| Text.NatToStringInjective | client/src/pages/admin.tsx:36 | distinct numbers have distinct decimal renderings |
| Schema.InsertFieldsOmitOnlyKeys | shared/schema.ts:54-60 | the video insert schema picks every column except `id` and `createdAt`: two videos share a payload iff they differ only in those two |
| Cloudinary.IsConfigured | server/cloudinary.ts:75-84 | the provider is used iff each of the three variables is set to a value that is neither empty nor `demo` |
| Cloudinary.SdkValue | server/cloudinary.ts:4-8 | a set, non-empty variable is passed to the SDK unchanged; the SDK gets the placeholder `demo` exactly when the variable is unset, empty or itself `demo` |
| Cloudinary.ConfiguredIff | server/cloudinary.ts:75-84 | the provider counts as configured iff each of the three variables is set, non-empty and not `demo`, iff the SDK received no placeholder |
| Cloudinary.OneBadCredentialDisables | server/cloudinary.ts:76-83 | one unset, empty or `demo` variable switches the provider off, whatever the other two are |
| Cloudinary.PublicIdRoundTrip | server/cloudinary.ts:18-50 | the video request asks for public id `videos/<file>` in `beatrepreneur/videos` as a video resource. The image request asks for `thumbnails/<file>` in `beatrepreneur/thumbnails` as WebP. Kind and file name read back from the id |
| Cloudinary.PublicIdsDistinct | server/cloudinary.ts:22-45 | distinct files get distinct public ids, and a video never shares one with a thumbnail |
| Cloudinary.UploadVideo | server/cloudinary.ts:18-39 | a stored reply passes through unchanged; a provider error becomes an error that starts `Failed to upload video: ` and then gives the provider's reason |
| Cloudinary.UploadImage | server/cloudinary.ts:41-63 | as for the video, with the prefix `Failed to upload image: ` |
| Storage.NewVideo | server/storage.ts:58-67 | the stored record has the given id and creation time, and its insert columns are exactly the payload |
| Storage.NewVideoRoundTrip | server/storage.ts:57-70 | a stored video carries its five insert columns unchanged, plus the id and the creation time; projecting onto the insert schema gives the payload back |
| Storage.UserWithId | server/storage.ts:31-33 | the lookup finds a user carrying the id, or none exactly when no user carries it |
| Storage.FirstWithUsername | server/storage.ts:35-39 | the first user in insertion order with the username, or none exactly when no user has it |
| Storage.MemStorage.constructor | server/storage.ts:23-29 | four empty tables, counter at 1, invariant established |
| Storage.MemStorage.GetUser | server/storage.ts:31-33 | the user stored under the id, or none when no user has it |
| Storage.MemStorage.GetUserByUsername | server/storage.ts:35-39 | a user with that name, the earliest created of them, or none when no user has it |
| Storage.MemStorage.CreateUser | server/storage.ts:41-46 | the new user takes the old counter as its id, above every existing user and video id; the counter goes up by one; only the users table grows, by exactly that record; duplicate names are not refused |
| Storage.MemStorage.GetMusicTracks | server/storage.ts:48-51 | always the empty list |
| Storage.MemStorage.GetVideos | server/storage.ts:53-55 | every stored video in insertion order, which is increasing id order; nothing changes |
| Storage.MemStorage.CreateVideo | server/storage.ts:57-70 | the new video is the payload with the old counter as id and the current time; the counter goes up by one; only the videos table changes, by appending that record; the invariant is kept |
| Storage.MemStorage.GetGalleryImages | server/storage.ts:72-74 | the gallery table's contents, which the invariant keeps empty |
| Routes.AllowListsWithinPrefixes | server/routes.ts:51-59 | every MIME type on the two allow-lists already passes the prefix test |
| Routes.FileFilter | server/routes.ts:47-67 | a `video` part is accepted iff its type starts with `video/`, a `thumbnail` part iff its type starts with `image/`; any other field is refused with `Unexpected field: <name>`; a refusal always has a message |
| Routes.TempSubdirectory | server/routes.ts:31-38 | temp files go to `videos` exactly for the `video` field, to `thumbnails` otherwise |
| Routes.LastDot | server/routes.ts:41 | the position of the last dot, or none exactly when there is no dot |
| Routes.ExtName | server/routes.ts:41 | the extension is empty or a suffix of the original name that starts with its only dot. It is the whole tail from the last dot exactly when that dot is not the first character and the name is not `..`; otherwise, and for a name without a dot, it is empty |
| Routes.TempFileName | server/routes.ts:39-42 | a temp name starts with the field name and a dash and ends with the original name's extension |
| Routes.TempFileNameInjective | server/routes.ts:39-42 | two temp names for the same field are equal only if the clock, the random number and the extension are equal |
| Routes.MulterErrorResponse | server/routes.ts:102-112 | every multipart error is a 400 with a non-empty message. The size limit and the unexpected-field limit get fixed texts; any other error gives its own message, or `File upload error` when that is empty |
| Routes.FilterRejectionReported | server/routes.ts:55-65 | a part the filter refuses is answered with 400 carrying the filter's message |
| Routes.StorageStatusResponse | server/routes.ts:90-95 | the storage type is `cloud` iff the provider is configured, `local` iff not |
| Routes.HandleGetVideos | server/routes.ts:79-87 | 200 with every stored video, in insertion order |
| Routes.TitleMissing | server/routes.ts:125-129 | the title check fails iff the title field is absent or nothing but whitespace |
| Routes.DescriptionText | server/routes.ts:188 | the stored description is the trimmed description when one was sent, `""` otherwise, and never has whitespace at either end |
| Routes.ProviderUploads | server/routes.ts:147-161 | no provider call without configuration; otherwise the video call first, and the thumbnail call second exactly when there is a thumbnail and the video call stored; never more than the two files the parser allows (routes.ts:70) |
| Routes.Deletions | server/routes.ts:163-171 | a temp file is removed only when every provider upload stored; the video's first, then the thumbnail's; at most two. Once the uploads stored, the video's file is removed unless its unlink throws, a throwing video unlink removes nothing further, and the thumbnail's file is removed exactly when there is one and its unlink does not throw |
| Routes.ChosenUrls | server/routes.ts:147-183 | the provider's secure URLs when every upload stored, the local static paths otherwise; the thumbnail URL is `""` without a thumbnail |
| Routes.IngestPlan | server/routes.ts:98-214 | a record is persisted only for a parsed request with a single non-blank title, a video part and at most one description; no provider call without configuration; no temp file removed without a provider call |
| Routes.UploadToProvider | server/routes.ts:147-177 | the provider block does the video call and then the thumbnail call. Temp files are removed only when both succeed. Any provider error means local URLs. All of it is as the reference plan says |
| Routes.HandleUploadVideo | server/routes.ts:98-214 | the handler makes exactly the provider calls and removals of the reference plan. It answers what the plan says without touching the store, or stores exactly the planned record under the next id and answers it with `success: true` |
| Routes.TitleCheckedFirst | server/routes.ts:125-129 | a missing or blank title gives 400 `Title is required` even without a video; nothing is uploaded, removed or stored |
| Routes.VideoRequired | server/routes.ts:131-134 | with a usable title and no video part: 400 `Video file is required`, nothing uploaded, removed or stored |
| Routes.RejectionsTouchNothing | server/routes.ts:102-134 | every answer that stores nothing is a 400 or a 500 with a message, and a 400 never comes after a provider call or a removal |
| Routes.PersistedRecord | server/routes.ts:185-192 | the stored title is the trimmed, non-blank title; the description is trimmed or empty; there is a video URL; the record is published, as the column default |
| Routes.LocalUrlsWhenUnconfigured | server/routes.ts:178-183 | without the provider: `/uploads/videos/<file>`, and `/uploads/thumbnails/<file>` or `""`; no provider call, no removal |
| Routes.ProviderUrlsOnSuccess | server/routes.ts:147-161 | when every provider upload stores, the record has the provider's secure URLs (`""` without a thumbnail), and the calls name `videos/<file>` and `thumbnails/<file>` |
| Routes.FallbackOnProviderFailure | server/routes.ts:172-177 | a failure in either upload reverts both URLs to the local paths; the request still stores the video, and nothing is removed |
| Routes.DeletionOnlyAfterProviderStored | server/routes.ts:163-171 | temp files are removed only after every provider upload stored, only the request's own files are removed, and when the provider did not store everything nothing is removed |
| Routes.LocalVideoUrlServed | server/routes.ts:76 | `/uploads/videos/<file>`, read as a plain path, maps to `<file>` in the `videos` temp directory under the uploads root |
| Routes.LocalThumbnailUrlServed | server/routes.ts:76 | `/uploads/thumbnails/<file>`, read as a plain path, maps to `<file>` in the `thumbnails` temp directory under the uploads root |
| Routes.LocalUrlsServeTempFiles | server/routes.ts:76 | the recorded local URLs, read as plain paths, resolve through the static handler to the very temp files the parser wrote |
| Admin.Apply | client/src/pages/admin.tsx:52 | an update sets exactly the named field; every other field, the id included, keeps its value |
| Admin.WithNewEntry | client/src/pages/admin.tsx:34-43 | one blank entry is appended, with the clock as id, empty texts, and no files or previews; the earlier entries are unchanged |
| Admin.Without | client/src/pages/admin.tsx:45-47 | the result holds exactly the entries whose id differs |
| Admin.WithoutSplits | client/src/pages/admin.tsx:45-47 | removal keeps the relative order of the rest: it splits over concatenation |
| Admin.WithoutAbsentId | client/src/pages/admin.tsx:45-47 | removing an id no entry has changes nothing |
| Admin.WithoutIdempotent | client/src/pages/admin.tsx:45-47 | removing twice is removing once |
| Admin.AddThenRemove | client/src/pages/admin.tsx:34-47 | removing a newly added entry by its fresh id gives the list back |
| Admin.WithUpdate | client/src/pages/admin.tsx:49-55 | an update keeps the length and every entry's id, and leaves entries with another id untouched |
| Admin.UpdateFrame | client/src/pages/admin.tsx:49-55 | an update keeps the length and the ids, changes only entries with the id, and repeating it changes nothing |
| Admin.VideoFileAcceptable | client/src/pages/admin.tsx:60-71 | the page accepts a video file iff its type is MP4, MOV, AVI, MKV or WebM and it is at most 500 MiB; so only `video/` types |
| Admin.ThumbnailAcceptable | client/src/pages/admin.tsx:94-105 | the page accepts a thumbnail iff its type is JPEG (either spelling), PNG or WebP and it is at most 5 MiB; so only `image/` types |
| Admin.AfterVideoFileChange | client/src/pages/admin.tsx:57-89 | the length and every id are kept, entries with another id are untouched, and no file or a refused one leaves the list as it was |
| Admin.AfterThumbnailChange | client/src/pages/admin.tsx:91-123 | the same for a thumbnail, with the image check |
| Admin.VideoFileChangeEffect | client/src/pages/admin.tsx:57-89 | no file, a type off the list or a file over 500 MiB leaves the list alone; otherwise the entry gets the file and its preview and nothing else changes |
| Admin.ThumbnailChangeEffect | client/src/pages/admin.tsx:91-123 | the same for thumbnails, with the image types and 5 MiB |
| Admin.AddRemoveKeepAttachments | client/src/pages/admin.tsx:34-47 | adding and removing entries keeps every attached file one the checks accept |
| Admin.EditsKeepAttachments | client/src/pages/admin.tsx:49-55 | text and preview edits keep every attached file acceptable |
| Admin.FileChangesKeepAttachments | client/src/pages/admin.tsx:57-123 | the file handlers attach only files the checks accept |
| Admin.ClientAcceptedPassesServer | client/src/pages/admin.tsx:60-71 | a video or thumbnail the page accepts also passes the server's filter and size limit |
| Admin.QuickTimeRefusedByClientOnly | client/src/pages/admin.tsx:60-61 | a `video/quicktime` file is refused by the page though the server would accept it |
| Admin.ReadyToSend | client/src/pages/admin.tsx:127-131 | an entry may be sent iff it has a video file and a title with a character other than whitespace |
| Admin.NotReady | client/src/pages/admin.tsx:127-131 | the entries lacking a file or a non-blank title; none exactly when the whole batch may be sent |
| Admin.Forms | client/src/pages/admin.tsx:149-155 | one form per entry, in list order; `Admin.FormsCarryEntries` states each form's contents |
| Admin.FormsCarryEntries | client/src/pages/admin.tsx:149-155 | each form has the entry's trimmed title, which is non-blank and passes the server's title check. It also has the trimmed description, the entry's own video, and the thumbnail exactly when the entry has one |
| Admin.FirstRefusal | client/src/pages/admin.tsx:163-172 | the position of the first refused request after an unbroken run of successes, or none exactly when all succeed |
| Admin.SentCount | client/src/pages/admin.tsx:147-173 | every form sent before the last one was accepted, and the loop stops before the end only right after a refused form; so it sends all forms, or exactly up to and including the first refused one |
| Admin.AdminPage.constructor | client/src/pages/admin.tsx:21-22 | no entries, not uploading |
| Admin.AdminPage.AddNewVideo | client/src/pages/admin.tsx:34-43 | the list becomes the list with a blank entry appended |
| Admin.AdminPage.RemoveVideo | client/src/pages/admin.tsx:45-47 | the list loses exactly the entries with the id |
| Admin.AdminPage.UpdateVideo | client/src/pages/admin.tsx:49-55 | the list becomes the updated list |
| Admin.AdminPage.HandleVideoFileChange | client/src/pages/admin.tsx:57-89 | the list becomes `AfterVideoFileChange` of the old list |
| Admin.AdminPage.HandleThumbnailChange | client/src/pages/admin.tsx:91-123 | the list becomes `AfterThumbnailChange` of the old list |
| Admin.AdminPage.UploadVideos | client/src/pages/admin.tsx:125-194 | when any entry is not ready, nothing is sent and nothing changes. Otherwise the forms go out in order, up to and including the first refused one, and `uploading` ends false. The list is cleared exactly when every request succeeded and there was at least one |
| Views.PublishedOnly | client/src/components/video-section.tsx:26 | exactly the videos whose flag is true |
| Views.PublishedOnlySplits | client/src/components/video-section.tsx:26 | the filter keeps the order of the list |
| Views.AllPublishedShown | client/src/components/video-section.tsx:26 | a list of published videos is shown whole |
| Views.FindById | client/src/components/video-player-modal.tsx:19 | a video whose decimal id is the requested string, or none exactly when no video has it |
| Views.FindByIdFirst | client/src/components/video-player-modal.tsx:19 | the video found is the first one whose decimal id is the requested string |
| Views.FindByIdOfListed | client/src/components/video-player-modal.tsx:19 | with distinct ids, every listed video is found by its own id string |

## Left out

- HTTP and multipart plumbing is not modelled: Express routing, the parser's own limit enforcement and field-count checks, the creation of the upload directories, static file serving beyond the path mapping in `Routes.ServedPath`, and the actual unlinking. The parser's outcome and each unlink's failure are inputs.
- The provider SDK calls and `deleteFile` are foreign network calls. Each upload is an input reply: stored with a result, or an error. `deleteFile` is never called on the ingestion path.
- The schema validator on the record built by the handler is taken to accept it, as it does for every record the handler can build.
- Routes.MulterErrorResponse: the parser's own error messages and codes are inputs, so which texts it produces is not modelled.
- Routes.LocalUrlsServeTempFiles: the static handler's query stripping, fragment handling and percent-decoding are not modelled; URLs are matched as plain paths, so a file name whose extension holds `?`, `#` or `%` gives a URL that does not actually serve its temp file.
- Routes.LocalVideoUrlServed: the same plain-path reading; the static handler's percent-decoding and query stripping are not modelled, so a name such as `video-1-2.a%41` is in fact looked up as `video-1-2.aA`.
- Routes.LocalThumbnailUrlServed: the same plain-path reading as for the video URL; percent-decoding, query stripping and fragments are not modelled.
- Routes.FileFilter: the parser is set up with a fixed list of two fields, so a part under any other field name is refused by the parser itself (`LIMIT_UNEXPECTED_FILE`) before the filter runs; the filter's `Unexpected field: <name>` branch is modelled but cannot be reached through the upload route.
- Routes.ExtName: applied to the whole original name; path separators inside it, which `path.extname` would honour, are not modelled.
- Routes.HandleUploadVideo: of the thrown errors that reach the 500 branch, only the reachable ones are modelled: a title or description field sent more than once arrives as an array, a bracketed key (`title[a]=x`) makes it an object, and calling `.trim` on either throws. The model's `Repeated` field stands for both shapes. Their detail texts are the engine's wording.
- JavaScript numbers are unbounded integers here. The clock and the counter never reach the precision limit of doubles, and `Math.round(Math.random() * 1E9)` is an input natural.
- Concurrency and `async` interleaving are not modelled: requests are handled one at a time by the single store instance, and admin-page edits made while `UploadVideos` is awaiting are not modelled.
- Admin.AdminPage.UploadVideos: the server's answers are one boolean per entry (success status or not); the response body, the toasts and the console output are not modelled.
- Toasts, logging, JSX rendering, the storage-status fetch on the admin page and the fetch error handling of the public components are not modelled.
- The tables are kept as value sequences in insertion order rather than maps. This relies on every key being its record's own id and on ids never repeating, which the class invariant guarantees.
- Admin.WithNewEntry: two entries added within the same millisecond share an id; the model shows that as it is and proves removal only for a fresh id.
- Music tracks and gallery images have no write operation in the store, so only their shapes and the two read operations are modelled; their `is_published` column defaults are not modelled, since nothing in the model inserts such a record.
