/**
 * The two updates the application makes to its video library: a generated
 * video goes to the front, a deleted video's entries are filtered out.
 */
module VideoLibrary {
  import opened JsValue

  /** A library entry: the own properties of the video object. */
  type Video = map<string, Value>

  /** `video.video_id` */
  function VideoId(v: Video): Value {
    if "video_id" in v then v["video_id"] else Undefined
  }

  /** The updater of `handleVideoGenerated`: `prev => [videoData, ...prev]`. */
  function AddGenerated(videos: seq<Video>, video: Video): seq<Video> {
    [video] + videos
  }

  /**
   * The updater of `handleVideoDeleted`:
   * `prev => prev.filter(video => video.video_id !== videoId)`.
   * No entry of the result has the deleted id, and every entry of the
   * result comes from the library.
   */
  function RemoveDeleted(videos: seq<Video>, videoId: Value): (r: seq<Video>)
    ensures |r| <= |videos|
    ensures forall v :: v in r ==> v in videos && !StrictEquals(VideoId(v), videoId)
    decreases videos
  {
    if videos == [] then []
    else if StrictEquals(VideoId(videos[0]), videoId) then RemoveDeleted(videos[1..], videoId)
    else [videos[0]] + RemoveDeleted(videos[1..], videoId)
  }

  /** A generated video comes first and the rest of the library follows, unchanged. */
  lemma AddGeneratedPrepends(videos: seq<Video>, video: Video)
    ensures |AddGenerated(videos, video)| == |videos| + 1
    ensures AddGenerated(videos, video)[0] == video
    ensures AddGenerated(videos, video)[1..] == videos
  {
  }

  /**
   * Filtering keeps the relative order: filtering a library made of two
   * parts is filtering each part and putting the results one after the other.
   */
  lemma {:induction false} RemoveDeletedDistributes(a: seq<Video>, b: seq<Video>, videoId: Value)
    ensures RemoveDeleted(a + b, videoId) == RemoveDeleted(a, videoId) + RemoveDeleted(b, videoId)
    decreases a
  {
    if a != [] {
      assert (a + b)[1..] == a[1..] + b;
      RemoveDeletedDistributes(a[1..], b, videoId);
    } else {
      assert a + b == b;
    }
  }

  /**
   * Entries with another id are all kept, as many times as they occur; entries
   * with the deleted id are all dropped.
   */
  lemma {:induction false} RemoveDeletedCounts(videos: seq<Video>, videoId: Value, v: Video)
    ensures !StrictEquals(VideoId(v), videoId) ==>
      multiset(RemoveDeleted(videos, videoId))[v] == multiset(videos)[v]
    ensures StrictEquals(VideoId(v), videoId) ==> multiset(RemoveDeleted(videos, videoId))[v] == 0
    decreases videos
  {
    if videos != [] {
      RemoveDeletedCounts(videos[1..], videoId, v);
      assert videos == [videos[0]] + videos[1..];
    }
  }

  /** Deleting an id no entry has leaves the library as it was. */
  lemma {:induction false} RemoveDeletedAbsent(videos: seq<Video>, videoId: Value)
    requires forall v :: v in videos ==> !StrictEquals(VideoId(v), videoId)
    ensures RemoveDeleted(videos, videoId) == videos
    decreases videos
  {
    if videos != [] {
      assert videos[0] in videos;
      assert forall v :: v in videos[1..] ==> v in videos;
      RemoveDeletedAbsent(videos[1..], videoId);
    }
  }

  /** Deleting the same id twice is deleting it once. */
  lemma RemoveDeletedIdempotent(videos: seq<Video>, videoId: Value)
    ensures RemoveDeleted(RemoveDeleted(videos, videoId), videoId) == RemoveDeleted(videos, videoId)
  {
    RemoveDeletedAbsent(RemoveDeleted(videos, videoId), videoId);
  }
}
