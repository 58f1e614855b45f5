/**
 * The camera-and-history component as a session object. Each field is one
 * piece of component state or one DOM reference; each method is one state
 * update or one effect run, called in the order the framework would run them.
 * Timer fires, the resolution of the camera request and clock readings arrive
 * as method calls and parameters.
 */
module Component {
  import opened Transcript
  import opened Device

  /** A registered interval timer and the signal value its callback captured when it was set up. */
  datatype Interval = Interval(id: nat, captured: bool)

  /** The timer registry after clearing the timer with the given id. */
  function Without(timers: seq<Interval>, id: nat): (r: seq<Interval>)
    ensures forall x :: x in r <==> x in timers && x.id != id
    ensures |r| <= |timers|
  {
    if timers == [] then []
    else if timers[0].id == id then Without(timers[1..], id)
    else [timers[0]] + Without(timers[1..], id)
  }

  class Session {
    /** The camera stream once acquisition succeeds; null before that or if it fails. */
    var stream: MediaStream?
    /** The simulated recognition signal. */
    var signal: bool
    /** The translation history, oldest first. */
    var history: seq<Entry>
    /** The video element the stream is shown on, when it is mounted. */
    const video: VideoElement?
    /** The history panel that is kept scrolled to its newest entry, when it is mounted. */
    const panel: HistoryPanel?
    /** The stream value the mount effect's cleanup closed over: the one of the first render. */
    const cleanupStream: MediaStream?
    /** Interval timers registered and not yet cleared. */
    var active: seq<Interval>
    /** The id of the timer the latest run of the ticker effect registered; its cleanup clears that one. */
    var tickerId: nat
    /** The id the next registered timer receives. */
    var nextId: nat
    /** Whether the component is mounted. */
    var mounted: bool
    /** Whether the one camera request made on mount is still unanswered. */
    var requestPending: bool

    /**
     * The session invariant: the handle part and the timer part below.
     */
    ghost predicate Valid()
      reads this
    {
      HandleValid() && TimersValid()
    }

    /**
     * The mount effect's cleanup closed over the first render's stream, which
     * is null, and no handle is held while the one camera request is unanswered.
     */
    ghost predicate HandleValid()
      reads this
    {
      && cleanupStream == null
      && (requestPending ==> stream == null)
    }

    /** At most one timer is ever registered: exactly one while mounted, none after unmount. */
    ghost predicate TimersValid()
      reads this
    {
      && |active| <= 1
      && (mounted <==> |active| == 1)
      && (mounted ==> active[0].id == tickerId < nextId)
    }

    /** The live timer captured the current signal, so its next fire reads the pre-flip value. */
    predicate Synced()
      reads this
    {
      mounted && |active| == 1 && active[0].captured == signal
    }

    /** The tick-relevant state as a value. */
    function Snap(): Snapshot
      reads this
    {
      Snapshot(signal, history)
    }

    /**
     * First render and the mount effects: no stream, signal off, empty
     * history; the camera request is started (its outcome arrives through
     * StartStream), one timer is registered over the current signal, and the
     * history panel is pinned to the (empty) end.
     */
    constructor (video: VideoElement?, panel: HistoryPanel?)
      modifies panel
      ensures Valid() && Synced()
      ensures Snap() == Initial()
      ensures stream == null && cleanupStream == null && requestPending
      ensures this.video == video && this.panel == panel
      ensures panel != null ==> panel.pinnedEntries == 0
    {
      var firstRender: MediaStream? := null;
      stream := firstRender;
      signal := false;
      history := [];
      this.video := video;
      this.panel := panel;
      cleanupStream := firstRender;
      active := [Interval(0, false)];
      tickerId := 0;
      nextId := 1;
      mounted := true;
      requestPending := true;
      new;
      if panel != null {
        panel.pinnedEntries := |history|;
      }
    }

    /** The status line under the video. */
    function Status(): (status: string)
      reads this
      ensures status == SignalDetected <==> signal
      ensures status == NoSignal <==> !signal
    {
      StatusText(signal)
    }

    /**
     * The one camera request made on mount resolves: on success the handle is
     * stored; on failure the error is only logged and the stream stays null.
     * The request is answered once, so a denial is final and a grant is the
     * only handle the session ever holds.
     */
    method StartStream(outcome: Acquisition)
      requires Valid() && requestPending
      modifies this`stream, this`requestPending
      ensures Valid() && !requestPending
      ensures outcome.Granted? ==> stream == outcome.stream
      ensures outcome.Denied? ==> stream == null
    {
      requestPending := false;
      match outcome
      case Granted(s) =>
        stream := s;
      case Denied(_) =>
    }

    /** The bind effect: the video shows the stream only when both the element and the stream exist. */
    method OnStreamChanged()
      modifies video
      ensures video != null ==> video.srcObject == if stream != null then stream else old(video.srcObject)
    {
      if video != null && stream != null {
        video.srcObject := stream;
      }
    }

    /**
     * A registered timer fires: the signal is negated and one entry is
     * appended, worded after the signal that timer's callback captured. When
     * the timer was registered over the current signal, that is the pre-flip
     * value. A cleared timer never fires, so after unmount nothing can tick.
     */
    method Tick(timer: Interval, now: Instant)
      requires Valid() && timer in active
      modifies this`signal, this`history
      ensures Valid()
      ensures signal == !old(signal)
      ensures history == Append(old(history), Entry(EntryText(timer.captured), now))
      ensures old(Synced()) ==> Snap() == TickStep(old(Snap()), now)
    {
      var entry := Entry(EntryText(timer.captured), now);
      signal := !signal;
      history := Append(history, entry);
    }

    /**
     * The ticker effect's cleanup: the timer it registered is cleared. It is
     * the first half of OnSignalChanged and of the unmounts, and leaves the
     * registry empty until RegisterTicker or the end of the unmount.
     */
    method ClearTicker()
      requires Valid()
      modifies this`active
      ensures active == Without(old(active), tickerId)
      ensures active == []
    {
      active := Without(active, tickerId);
    }

    /**
     * The ticker effect's body: a fresh timer over the current signal is
     * registered. It is the second half of OnSignalChanged and runs on an
     * empty registry of a mounted session, so exactly one timer results.
     */
    method RegisterTicker()
      requires mounted && active == [] && tickerId < nextId
      modifies this`active, this`tickerId, this`nextId
      ensures active == old(active) + [Interval(old(nextId), signal)]
      ensures tickerId == old(nextId) && nextId == old(nextId) + 1
      ensures TimersValid() && Synced()
    {
      active := active + [Interval(nextId, signal)];
      tickerId := nextId;
      nextId := nextId + 1;
    }

    /**
     * The signal changed, so the ticker effect runs again: the old timer is
     * cleared before the new one is registered, so there is never more than
     * one, and the new one reads the current signal.
     */
    method OnSignalChanged()
      requires Valid() && mounted
      modifies this`active, this`tickerId, this`nextId
      ensures Valid() && Synced()
      ensures forall x :: x in active ==> x.id != old(tickerId)
    {
      ClearTicker();
      RegisterTicker();
    }

    /** The scroll effect: the history panel, when mounted, is pinned below the newest entry. */
    method OnHistoryChanged()
      modifies panel
      ensures panel != null ==> panel.pinnedEntries == |history|
    {
      if panel != null {
        panel.pinnedEntries := |history|;
      }
    }

    /**
     * One timer period as the framework runs it: the callback fires, then the
     * ticker effect re-runs for the new signal and the scroll effect for the
     * new history.
     */
    method Step(now: Instant)
      requires Valid() && Synced()
      modifies this`signal, this`history, this`active, this`tickerId, this`nextId, panel
      ensures Valid() && Synced()
      ensures Snap() == TickStep(old(Snap()), now)
      ensures panel != null ==> panel.pinnedEntries == |history|
    {
      Tick(active[0], now);
      OnSignalChanged();
      OnHistoryChanged();
    }

    /** One timer period per timestamp, in order. */
    method RunTicks(stamps: seq<Instant>)
      requires Valid() && Synced()
      modifies this`signal, this`history, this`active, this`tickerId, this`nextId, panel
      ensures Valid() && Synced()
      ensures Snap() == Run(old(Snap()), stamps)
      ensures panel != null && stamps != [] ==> panel.pinnedEntries == |history|
    {
      var i := 0;
      while i < |stamps|
        invariant 0 <= i <= |stamps|
        invariant Valid() && Synced()
        invariant Snap() == Run(old(Snap()), stamps[..i])
        invariant panel != null && i > 0 ==> panel.pinnedEntries == |history|
      {
        Step(stamps[i]);
        assert stamps[..i + 1][..i] == stamps[..i];
        i := i + 1;
      }
      assert stamps[..i] == stamps;
    }

    /**
     * Unmount as written: the ticker's timer is cleared, and the mount
     * effect's cleanup releases the stream it closed over, which is the
     * first render's null, so no track is stopped.
     */
    method Unmount()
      requires Valid()
      modifies this`active, this`mounted, TracksOf(cleanupStream)
      ensures Valid() && !mounted && active == []
      ensures forall t :: t in TracksOf(cleanupStream) ==> t.ended
    {
      ClearTicker();
      mounted := false;
      StopTracks(cleanupStream);
    }

    /**
     * Unmount with the cleanup reading the current stream: the timer is
     * cleared and every track of the held stream is stopped.
     */
    method UnmountReleasing()
      requires Valid()
      modifies this`active, this`mounted, TracksOf(stream)
      ensures Valid() && !mounted && active == []
      ensures forall t :: t in TracksOf(stream) ==> t.ended
    {
      ClearTicker();
      mounted := false;
      StopTracks(stream);
    }
  }

  /** Three timer periods after mount, whatever the camera does: the history reads Hola, Hello, Hola and the signal ends on. */
  method ThreeTicks(t0: Instant, t1: Instant, t2: Instant) returns (texts: seq<string>, status: string)
    ensures texts == [Hola, Hello, Hola]
    ensures status == SignalDetected
  {
    var session := new Session(null, null);
    session.StartStream(Denied("camera unavailable"));
    session.RunTicks([t0, t1, t2]);
    RunFromInitial([t0, t1, t2]);
    texts := [session.history[0].text, session.history[1].text, session.history[2].text];
    status := session.Status();
  }

  /** A denied camera request leaves no stream and nothing bound to the video, while ticks still log entries. */
  method DeniedLeavesNoFeed(now: Instant) returns (held: MediaStream?, shown: MediaStream?, entries: nat)
    ensures held == null && shown == null
    ensures entries == 1
  {
    var video := new VideoElement();
    var session := new Session(video, null);
    session.StartStream(Denied("permission denied"));
    session.OnStreamChanged();
    session.Step(now);
    held, shown, entries := session.stream, video.srcObject, |session.history|;
  }

  /** A granted camera request is stored and then shown on the video. */
  method GrantedIsShown(granted: MediaStream) returns (held: MediaStream?, shown: MediaStream?)
    ensures held == granted && shown == granted
  {
    var video := new VideoElement();
    var session := new Session(video, null);
    session.StartStream(Granted(granted));
    session.OnStreamChanged();
    held, shown := session.stream, video.srcObject;
  }

  /** With the cleanup as written, the camera's track is still live after unmount. */
  method UnmountLeavesTrackLive() returns (track: Track)
    ensures !track.ended
  {
    track := new Track();
    var camera := new MediaStream([track]);
    var session := new Session(null, null);
    session.StartStream(Granted(camera));
    session.Unmount();
  }

  /** With the cleanup reading the current stream, the camera's track has ended after unmount. */
  method UnmountReleasingEndsTrack() returns (track: Track)
    ensures track.ended
  {
    track := new Track();
    var camera := new MediaStream([track]);
    var session := new Session(null, null);
    session.StartStream(Granted(camera));
    session.UnmountReleasing();
  }
}
