/**
 * The capture device as the component sees it: a stream handle holding
 * tracks that can be stopped, the outcome of asking for camera access, and
 * the video element the stream is shown on.
 */
module Device {

  /** One track of a media stream; stopping it releases that part of the device. */
  class Track {
    var ended: bool

    constructor ()
      ensures !ended
    {
      ended := false;
    }

    /** Stops the track; stopping a track that has already ended changes nothing. */
    method Stop()
      modifies this
      ensures ended
    {
      ended := true;
    }
  }

  /** A stream handle returned by a successful acquisition; its tracks are fixed at creation. */
  class MediaStream {
    const tracks: seq<Track>

    constructor (tracks: seq<Track>)
      ensures this.tracks == tracks
    {
      this.tracks := tracks;
    }
  }

  /** The tracks a possibly-absent handle holds: none when there is no handle. */
  function TracksOf(s: MediaStream?): set<Track>
  {
    if s == null then {} else set t | t in s.tracks
  }

  /**
   * Teardown of a handle: when there is one, each of its tracks is stopped in
   * turn, so every one of them ends; when there is none,
   * nothing happens. A track's only state is whether it has ended, so running
   * it again on the same handle leaves every track as the first run did.
   */
  method StopTracks(s: MediaStream?)
    modifies TracksOf(s)
    ensures forall t :: t in TracksOf(s) ==> t.ended
  {
    if s != null {
      var i := 0;
      while i < |s.tracks|
        invariant 0 <= i <= |s.tracks|
        invariant forall j :: 0 <= j < i ==> s.tracks[j].ended
      {
        s.tracks[i].Stop();
        i := i + 1;
      }
    }
  }

  /** What the request for video access resolves to. */
  datatype Acquisition = Granted(stream: MediaStream) | Denied(reason: string)

  /** The display surface; `srcObject` is the stream it renders, if any. */
  class VideoElement {
    var srcObject: MediaStream?

    constructor ()
      ensures srcObject == null
    {
      srcObject := null;
    }
  }

  /** The history panel; `pinnedEntries` is the number of entries the scroll offset sits below. */
  class HistoryPanel {
    var pinnedEntries: nat

    constructor ()
      ensures pinnedEntries == 0
    {
      pinnedEntries := 0;
    }
  }
}
