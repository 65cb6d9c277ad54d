/** The record shapes of the four tables (users, music tracks, videos,
    gallery images) and of the insert payloads the store accepts.
    A column declared `notNull` is a plain field; a nullable column is an
    `Option`. Every table's `id` is a serial primary key, a positive
    integer the store assigns. */
module Schema {
  import opened Wrappers

  /** Milliseconds since the epoch, what `new Date()` records. */
  type Timestamp = int

  datatype User = User(
    id: nat,
    username: string,          // declared not-null and unique
    password: string,
    createdAt: Option<Timestamp>)

  /** The insert payload for users: username and password only. */
  datatype InsertUser = InsertUser(username: string, password: string)

  datatype MusicTrack = MusicTrack(
    id: nat,
    title: string,
    artist: string,
    audioUrl: string,
    duration: Option<int>,     // seconds
    isPublished: Option<bool>,
    createdAt: Option<Timestamp>)

  datatype Video = Video(
    id: nat,
    title: string,
    description: Option<string>,
    thumbnailUrl: string,
    videoUrl: Option<string>,
    isPublished: Option<bool>,
    createdAt: Option<Timestamp>)

  /** The insert payload for videos: exactly the five picked columns;
      `id` and `createdAt` are not part of it. */
  datatype InsertVideo = InsertVideo(
    title: string,
    description: Option<string>,
    thumbnailUrl: string,
    videoUrl: Option<string>,
    isPublished: Option<bool>)

  datatype GalleryImage = GalleryImage(
    id: nat,
    title: string,
    imageUrl: string,
    altText: string,
    isPublished: Option<bool>,
    createdAt: Option<Timestamp>)

  /** Column default of `videos.is_published`. */
  const VideoPublishedDefault: bool := true

  /** The insert-schema projection of a stored video: the five columns the
      insert schema picks. */
  function InsertFieldsOf(v: Video): InsertVideo
  {
    InsertVideo(v.title, v.description, v.thumbnailUrl, v.videoUrl, v.isPublished)
  }

  /** The insert schema leaves out exactly `id` and `createdAt`: two videos
      have the same insert payload iff they differ in nothing else. */
  lemma InsertFieldsOmitOnlyKeys(v1: Video, v2: Video)
    ensures InsertFieldsOf(v1) == InsertFieldsOf(v2) <==>
              v1.(id := v2.id, createdAt := v2.createdAt) == v2
  {
  }
}
