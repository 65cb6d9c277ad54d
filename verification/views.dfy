/** The two places the public site reads the video list: the video section
    shows only the published videos, and the player finds the video whose
    id, rendered in decimal, is the requested id string. */
module Views {
  import opened Wrappers
  import opened Text
  import opened Schema

  /** `data.filter(video => video.isPublished)`: a missing flag is falsy. */
  function PublishedOnly(vs: seq<Video>): (r: seq<Video>)
    ensures |r| <= |vs|
    ensures forall v :: v in r <==> v in vs && v.isPublished == Some(true)
  {
    if vs == [] then []
    else (if vs[0].isPublished == Some(true) then [vs[0]] else []) + PublishedOnly(vs[1..])
  }

  /** The filter keeps the list's order: it splits over concatenation. */
  lemma {:induction false} PublishedOnlySplits(a: seq<Video>, b: seq<Video>)
    ensures PublishedOnly(a + b) == PublishedOnly(a) + PublishedOnly(b)
  {
    if a == [] {
      assert a + b == b;
    } else {
      assert (a + b)[0] == a[0];
      assert (a + b)[1..] == a[1..] + b;
      PublishedOnlySplits(a[1..], b);
    }
  }

  /** A list in which every video is published is shown whole, in order. */
  lemma {:induction false} AllPublishedShown(vs: seq<Video>)
    requires forall v :: v in vs ==> v.isPublished == Some(true)
    ensures PublishedOnly(vs) == vs
  {
    if vs != [] {
      AllPublishedShown(vs[1..]);
      assert vs == [vs[0]] + vs[1..];
    }
  }

  /** `videos.find(v => v.id.toString() === videoId)`: the first video whose
      decimal id is `videoId`. */
  function FindById(vs: seq<Video>, videoId: string): (r: Option<Video>)
    ensures r.Some? ==> r.value in vs && NatToString(r.value.id) == videoId
    ensures r.None? <==> forall v :: v in vs ==> NatToString(v.id) != videoId
  {
    if vs == [] then None
    else if NatToString(vs[0].id) == videoId then Some(vs[0])
    else FindById(vs[1..], videoId)
  }

  /** The video found is the first match: an entry whose id string is
      `videoId` and which no earlier entry shares is the one returned. */
  lemma {:induction false} FindByIdFirst(vs: seq<Video>, videoId: string, k: nat)
    requires k < |vs| && NatToString(vs[k].id) == videoId
    requires forall j :: 0 <= j < k ==> NatToString(vs[j].id) != videoId
    ensures FindById(vs, videoId) == Some(vs[k])
  {
    if k > 0 {
      assert vs[k] == vs[1..][k - 1];
      forall j | 0 <= j < k - 1 ensures NatToString(vs[1..][j].id) != videoId {
        assert vs[1..][j] == vs[j + 1];
      }
      FindByIdFirst(vs[1..], videoId, k - 1);
    }
  }

  /** In a list with distinct ids, the player finds every listed video by
      its own id string, and no other. */
  lemma {:induction false} FindByIdOfListed(vs: seq<Video>, i: nat)
    requires i < |vs|
    requires forall j, k :: 0 <= j < k < |vs| ==> vs[j].id != vs[k].id
    ensures FindById(vs, NatToString(vs[i].id)) == Some(vs[i])
  {
    if i == 0 {
    } else {
      assert NatToString(vs[0].id) != NatToString(vs[i].id) by {
        if NatToString(vs[0].id) == NatToString(vs[i].id) {
          NatToStringInjective(vs[0].id, vs[i].id);
        }
      }
      assert vs[i] == vs[1..][i - 1];
      FindByIdOfListed(vs[1..], i - 1);
    }
  }
}
