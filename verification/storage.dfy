/** The in-memory metadata store: four tables keyed by id and one counter
    that numbers users and videos alike.

    Each table is a JavaScript `Map` from a record's id to the record. Since
    every entry's key is its own record's `id`, such a map is determined by
    its values in insertion order (the order `values()` walks), and that
    sequence is what the model keeps. */
module Storage {
  import opened Wrappers
  import opened Schema

  /** The record `createVideo` stores: the five insert columns copied, the
      id and creation time supplied by the store. */
  function NewVideo(id: nat, data: InsertVideo, now: Timestamp): (v: Video)
    ensures v.id == id && v.createdAt == Some(now)
    ensures InsertFieldsOf(v) == data
  {
    Video(id, data.title, data.description, data.thumbnailUrl, data.videoUrl, data.isPublished, Some(now))
  }

  /** The record `createUser` stores. */
  function NewUser(id: nat, data: InsertUser, now: Timestamp): User
  {
    User(id, data.username, data.password, Some(now))
  }

  /** A new video record carries its insert payload unchanged, and a stored
      record is rebuilt exactly from its insert columns, id and time: the
      store adds `id` and `createdAt` and nothing else. */
  lemma NewVideoRoundTrip(id: nat, data: InsertVideo, now: Timestamp, v: Video)
    ensures InsertFieldsOf(NewVideo(id, data, now)) == data
    ensures NewVideo(id, data, now).id == id && NewVideo(id, data, now).createdAt == Some(now)
    ensures v.createdAt.Some? ==> NewVideo(v.id, InsertFieldsOf(v), v.createdAt.value) == v
  {
  }

  /** The users' ids, listed in increasing order, each in `[1, bound)`. */
  ghost predicate UserIdsOrdered(us: seq<User>, bound: nat)
  {
    && (forall i :: 0 <= i < |us| ==> 1 <= us[i].id < bound)
    && (forall i, j :: 0 <= i < j < |us| ==> us[i].id < us[j].id)
  }

  /** The videos' ids, listed in increasing order, each in `[1, bound)`. */
  ghost predicate VideoIdsOrdered(vs: seq<Video>, bound: nat)
  {
    && (forall i :: 0 <= i < |vs| ==> 1 <= vs[i].id < bound)
    && (forall i, j :: 0 <= i < j < |vs| ==> vs[i].id < vs[j].id)
  }

  /** No user shares an id with a video. */
  ghost predicate IdsDisjoint(us: seq<User>, vs: seq<Video>)
  {
    forall i, j :: 0 <= i < |us| && 0 <= j < |vs| ==> us[i].id != vs[j].id
  }

  /** `users.get(id)`: the user whose key is `id`, if any. */
  function UserWithId(us: seq<User>, id: int): (r: Option<User>)
    ensures r.Some? ==> r.value in us && r.value.id == id
    ensures r.None? <==> forall x :: x in us ==> x.id != id
  {
    if us == [] then None
    else if us[0].id == id then Some(us[0])
    else UserWithId(us[1..], id)
  }

  /** The index of the first user with this username, if any
      (`Array.prototype.find` over the users in insertion order). */
  function FirstWithUsername(us: seq<User>, name: string): (r: Option<nat>)
    ensures r.Some? ==> r.value < |us| && us[r.value].username == name
    ensures r.Some? ==> forall j :: 0 <= j < r.value ==> us[j].username != name
    ensures r.None? <==> forall j :: 0 <= j < |us| ==> us[j].username != name
  {
    if us == [] then None
    else if us[0].username == name then Some(0)
    else match FirstWithUsername(us[1..], name)
      case None => None
      case Some(i) => Some(i + 1)
  }

  class MemStorage {
    var users: seq<User>
    var musicTracks: seq<MusicTrack>
    var videos: seq<Video>
    var galleryImages: seq<GalleryImage>
    /** The next id to hand out, shared by users and videos. */
    var currentId: nat

    /** The store's invariant: ids are positive, below the counter, in
        increasing insertion order, and never shared between a user and a
        video; the music and gallery tables, which no operation writes,
        stay empty. */
    ghost predicate Valid()
      reads this
    {
      && currentId >= 1
      && UserIdsOrdered(users, currentId)
      && VideoIdsOrdered(videos, currentId)
      && IdsDisjoint(users, videos)
      && musicTracks == []
      && galleryImages == []
    }

    /** A fresh store: four empty tables, ids start at 1. */
    constructor ()
      ensures Valid()
      ensures users == [] && musicTracks == [] && videos == [] && galleryImages == []
      ensures currentId == 1
    {
      users := [];
      musicTracks := [];
      videos := [];
      galleryImages := [];
      currentId := 1;
    }

    /** `getUser(id)`: the user stored under `id`, or none. */
    method GetUser(id: int) returns (u: Option<User>)
      requires Valid()
      ensures u.None? <==> forall x :: x in users ==> x.id != id
      ensures u.Some? ==> u.value in users && u.value.id == id
    {
      u := UserWithId(users, id);
    }

    /** `getUserByUsername(name)`: the earliest-created user with that
        username, or none when no user has it. */
    method GetUserByUsername(name: string) returns (u: Option<User>)
      requires Valid()
      ensures u.None? <==> forall x :: x in users ==> x.username != name
      ensures u.Some? ==> u.value in users && u.value.username == name
      ensures u.Some? ==> forall x :: x in users && x.username == name ==> u.value.id <= x.id
    {
      var i := FirstWithUsername(users, name);
      if i.Some? {
        u := Some(users[i.value]);
        forall x | x in users && x.username == name
          ensures u.value.id <= x.id
        {
          var j :| 0 <= j < |users| && users[j] == x;
          assert i.value <= j;
        }
      } else {
        u := None;
      }
    }

    /** `createUser(data)`: stores a user under the next id, taken from the
        shared counter; usernames are not checked for uniqueness. */
    method CreateUser(data: InsertUser, now: Timestamp) returns (u: User)
      requires Valid()
      modifies this
      ensures Valid()
      ensures u == NewUser(old(currentId), data, now)
      ensures currentId == old(currentId) + 1
      ensures forall x :: x in old(users) ==> x.id < u.id
      ensures forall x :: x in old(videos) ==> x.id < u.id
      ensures users == old(users) + [u]
      ensures videos == old(videos) && musicTracks == old(musicTracks)
      ensures galleryImages == old(galleryImages)
    {
      u := NewUser(currentId, data, now);
      users := users + [u];
      currentId := currentId + 1;
    }

    /** `getMusicTracks()`: always the empty list. */
    method GetMusicTracks() returns (r: seq<MusicTrack>)
      ensures r == []
    {
      r := [];
    }

    /** `getVideos()`: every stored video, in insertion order, which is also
        strictly increasing id order; the store is not changed. */
    method GetVideos() returns (r: seq<Video>)
      requires Valid()
      ensures r == videos
      ensures forall i, j :: 0 <= i < j < |r| ==> r[i].id < r[j].id
    {
      r := videos;
    }

    /** `createVideo(data)`: stores a video under the next id, taken from the
        shared counter, and returns it; only the video table and the counter
        change. */
    method CreateVideo(data: InsertVideo, now: Timestamp) returns (v: Video)
      requires Valid()
      modifies this
      ensures Valid()
      ensures v == NewVideo(old(currentId), data, now)
      ensures currentId == old(currentId) + 1
      ensures forall x :: x in old(users) ==> x.id < v.id
      ensures forall x :: x in old(videos) ==> x.id < v.id
      ensures videos == old(videos) + [v]
      ensures users == old(users) && musicTracks == old(musicTracks)
      ensures galleryImages == old(galleryImages)
    {
      v := NewVideo(currentId, data, now);
      videos := videos + [v];
      currentId := currentId + 1;
    }

    /** `getGalleryImages()`: the gallery table's entries, which the store's
        invariant keeps empty. */
    method GetGalleryImages() returns (r: seq<GalleryImage>)
      requires Valid()
      ensures r == []
    {
      r := galleryImages;
    }
  }
}
