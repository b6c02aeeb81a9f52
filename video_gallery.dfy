/**
 * The public video gallery: the video record, the YouTube test on a URL, the
 * rule that picks an `<iframe>` or a `<video>` player, and the selected video
 * whose modal is open.
 */
module Gallery {
  import opened Wrappers

  /** A gallery video; an absent `isLocal` reads as false. */
  datatype VideoItem = VideoItem(
    id: string, title: string, description: string, embedUrl: string, thumbnailUrl: string, isLocal: bool)

  /** `t` occurs in `s` starting at index `k`. */
  predicate OccursAt(s: string, t: string, k: int)
  {
    0 <= k && k + |t| <= |s| && s[k..k + |t|] == t
  }

  /** `s.includes(t)`: `t` occurs somewhere in `s`. */
  predicate Contains(s: string, t: string)
  {
    exists k | 0 <= k <= |s| - |t| :: OccursAt(s, t, k)
  }

  /** `isYouTubeUrl`. */
  predicate IsYouTubeUrl(url: string)
  {
    Contains(url, "youtube.com") || Contains(url, "youtu.be")
  }

  /** The two players of the modal. */
  datatype Player = IFrame | VideoElement

  /** The player the modal shows for a video. */
  function PlayerFor(v: VideoItem): (p: Player)
    ensures IsYouTubeUrl(v.embedUrl) ==> p == IFrame
    ensures p == VideoElement <==> !IsYouTubeUrl(v.embedUrl) && v.isLocal
  {
    if IsYouTubeUrl(v.embedUrl) then IFrame else if v.isLocal then VideoElement else IFrame
  }

  /**
   * Any URL that holds "youtube.com" or "youtu.be" somewhere is a YouTube
   * URL, whatever surrounds it.
   */
  lemma {:induction false} YouTubeAnywhere(prefix: string, suffix: string)
    ensures IsYouTubeUrl(prefix + "youtube.com" + suffix)
    ensures IsYouTubeUrl(prefix + "youtu.be" + suffix)
  {
    var s := prefix + "youtube.com" + suffix;
    assert s[|prefix|..|prefix| + 11] == "youtube.com";
    assert OccursAt(s, "youtube.com", |prefix|);
    var t := prefix + "youtu.be" + suffix;
    assert t[|prefix|..|prefix| + 8] == "youtu.be";
    assert OccursAt(t, "youtu.be", |prefix|);
  }

  /** A video whose address holds "youtube.com" plays in an `<iframe>`. */
  lemma YouTubeUrlPlaysInFrame(v: VideoItem, prefix: string, suffix: string)
    requires v.embedUrl == prefix + "youtube.com" + suffix
    ensures PlayerFor(v) == IFrame
  {
    YouTubeAnywhere(prefix, suffix);
  }

  class VideoGallery {
    const videos: seq<VideoItem>
    var selectedVideo: Option<VideoItem>

    constructor (videos: seq<VideoItem>)
      ensures this.videos == videos && selectedVideo == None
    {
      this.videos := videos;
      selectedVideo := None;
    }

    /** `open={!!selectedVideo}`. */
    predicate ModalOpen()
      reads this
    {
      selectedVideo.Some?
    }

    /** `handleVideoClick`. */
    method Select(v: VideoItem)
      modifies this
      ensures selectedVideo == Some(v) && ModalOpen()
    {
      selectedVideo := Some(v);
    }

    /** `handleCloseModal`. */
    method Close()
      modifies this
      ensures selectedVideo == None && !ModalOpen()
    {
      selectedVideo := None;
    }
  }
}
