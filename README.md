# Camera feed with translation history: session model

This project models the state logic of the single `App` component of a
sign-recognition demo. The component shows the live camera feed beside a
scrolling "History" panel. A repeating timer simulates a recognition signal.
On each fire the signal is flipped and one timestamped phrase is logged.

The model has three modules:

- `Transcript` (transcript.dfy) holds the pure parts:
  - the history entry record `Entry` (text and timestamp), modelling the
    `TranslationEntry` record at src/App.tsx:4-7;
  - the phrase a tick logs (`EntryText`) and the status line (`StatusText`);
  - the first-render state (`Initial`);
  - the history updater (`Append`); the signal updater is the negation inside
    `TickStep`;
  - one tick as a value transition (`TickStep`) and a run of ticks (`Run`);
  - lemmas that pin down the history and the signal after any number of ticks.
- `Device` (device.dfy) holds the collaborators the component touches:
  - tracks and the stream handle that holds them;
  - the outcome of the camera request;
  - the video element and the history panel;
  - the teardown loop that stops every track of a handle (`StopTracks`).
- `Component` (session.dfy) holds the `Session` class. Its fields are the
  component's state (stream handle, signal, history) and its DOM references.
  Its timer registry is modelled explicitly: each registered interval remembers
  the signal value its callback closed over. Each React state update or effect
  run is one method. Timer fires, the resolution of the camera request and
  clock readings are method calls and parameters. Client methods at the end
  run whole sessions: three ticks after mount, a denied camera request, a
  granted one, and unmount with the cleanup as written and as corrected.

The ticker effect is re-registered on every signal change. The model
therefore keeps the closure's captured signal apart from the current one.
`Session.Synced()` says that the live timer captured the current signal.
When it holds, a tick's entry is worded after the pre-flip signal
(`Session.Tick`). `Session.OnSignalChanged` restores it after every flip, by
clearing the old timer before it registers the new one.

Three consequences of following the code closely:

- The code takes `new Date()` at each fire and enforces no order between
  timestamps, so the model treats them as opaque and claims no order.
- The unmount cleanup closes over the first render's `stream`, which is null,
  so as written it never stops a track (see Findings).
- The code has no idle/acquiring/streaming/stopped variable. The model keeps
  the code's own state: a nullable stream, a flag for the unanswered camera
  request, and a mounted flag.

## Model

| member | source | states |
|---|---|---|
| `Transcript.EntryText` | src/App.tsx:46 | The logged phrase is "Hello, how are you?" exactly when the signal it reads is on, and "Hola, ¿cómo estás?" exactly when it is off. |
| `Transcript.StatusText` | src/App.tsx:84 | The status line is "Signal Detected" exactly when the signal is on, and "No Signal" exactly when it is off. |
| `Transcript.Append` | src/App.tsx:49 | The new history is one longer, keeps the old history as its prefix, and ends with the new entry. |
| `Transcript.Initial` | src/App.tsx:10-12 | The first render holds no history entry and its status line reads "No Signal". |
| `Transcript.TickStep` | src/App.tsx:43-49 | One tick negates the signal and appends exactly one entry. That entry is worded after the signal before the flip and carries the tick's timestamp. Earlier entries are unchanged. |
| `Transcript.RunShape` | src/App.tsx:43-49 | After any run of ticks from any state, the old history is a prefix and one entry follows per tick. The k-th new entry is worded after the signal before that tick, and the signal has flipped once per tick. |
| `Transcript.RunFromInitial` | src/App.tsx:10-12 | From the first-render state (signal off, empty history), n ticks give exactly n entries, in tick order with their timestamps. The signal is on exactly when n is odd. Entry i reads "Hola, ¿cómo estás?" for even i and "Hello, how are you?" for odd i. |
| `Transcript.EntriesAlternate` | src/App.tsx:44-46 | In a history grown from the first render, no two consecutive entries carry the same phrase. |
| `Transcript.RunConcat` | src/App.tsx:49 | Ticking through one list of timestamps and then another gives the same state as ticking through both at once, so the history is append-only across runs. |
| `Transcript.StatusAfterRun` | src/App.tsx:84 | After n ticks from the first render, the status line reads "Signal Detected" exactly when n is odd. |
| `Component.Without` | src/App.tsx:52 | Clearing a timer id removes exactly the timers with that id and keeps every other one. |
| `Component.Session.constructor` | src/App.tsx:10-14 | The first render with its mount effects gives no stream, the signal off and an empty history. Exactly one timer is registered, over the current signal. The history panel is pinned to the empty end. The cleanup's captured stream is null. |
| `Component.Session.Status` | src/App.tsx:84 | The session's status line is "Signal Detected" exactly when its signal is on. |
| `Component.Session.StartStream` | src/App.tsx:17-24 | The one camera request made on mount is answered once. A grant stores the acquired handle; a denial leaves the stream null, and no later call can change that. Signal, history and timers are untouched in both cases. |
| `Component.Session.OnStreamChanged` | src/App.tsx:35-39 | The video's source becomes the stream only when both the video element and the stream exist. Otherwise it is left as it was. |
| `Component.Session.Tick` | src/App.tsx:43-49 | Only a registered timer can fire. Its fire negates the signal and appends exactly one entry, worded after the signal that timer's callback captured. When that timer was registered over the current signal, the new state is `TickStep` of the old one. Stream and timers are untouched. |
| `Component.Session.ClearTicker` | src/App.tsx:52 | The effect's cleanup removes the timer that effect run registered, which leaves the registry empty. |
| `Component.Session.RegisterTicker` | src/App.tsx:43-50 | Setting up the ticker on a cleared registry adds one timer with a fresh id, so exactly one is registered. That timer captures the signal at that moment. |
| `Component.Session.OnSignalChanged` | src/App.tsx:42-53 | When the signal changes, the old timer is cleared before the new one is registered. Exactly one timer stays live, none of them is the old one, and the new one has captured the current signal. |
| `Component.Session.OnHistoryChanged` | src/App.tsx:56-60 | When the history panel exists, it is pinned below the newest entry. |
| `Component.Session.Step` | src/App.tsx:42-60 | One full timer period (fire, ticker re-registration, scroll) performs `TickStep` on the state. It keeps a single live timer synced to the signal and pins the panel to the new end. |
| `Component.Session.RunTicks` | src/App.tsx:42-60 | A sequence of timer periods leaves the session in `Run` of its old state, still with one synced timer. |
| `Component.Session.Unmount` | src/App.tsx:28-33 | Unmount as written clears the live timer, so none is left and no further tick can fire. It stops every track of the stream the cleanup captured. The session invariant says that stream is the first render's null, so no track of any held stream is touched. |
| `Component.Session.UnmountReleasing` | src/App.tsx:28-32 | The corrected unmount clears the timer and stops every track of the stream the session holds. |
| `Device.StopTracks` | src/App.tsx:29-31 | Teardown of a handle stops every one of its tracks and touches no other track. With no handle, it changes nothing. |
| `Device.Track.Stop` | src/App.tsx:30 | A stopped track has ended. Stopping an ended track again leaves it ended. |
| `Component.ThreeTicks` | src/App.tsx:43-49 | Three timer periods after mount, even with the camera denied, log "Hola…", "Hello…", "Hola…" in that order, and the status reads "Signal Detected". |
| `Component.DeniedLeavesNoFeed` | src/App.tsx:18-23 | After a denied request no handle is held and nothing is bound to the video. A tick still logs an entry. |
| `Component.GrantedIsShown` | src/App.tsx:18-38 | After a granted request the handle is held, and the bind effect shows it on the video. |
| `Component.UnmountLeavesTrackLive` | src/App.tsx:28-33 | With the cleanup as written, a granted camera track is still live after unmount. |
| `Component.UnmountReleasingEndsTrack` | src/App.tsx:28-32 | With the corrected cleanup, the camera track has ended after unmount. |

## Findings

| source | as written | input that shows it | evidently intended | confidence | as-written member | corrected member |
|---|---|---|---|---|---|---|
| src/App.tsx:28-33 | The mount effect's cleanup reads the `stream` value of the first render. Its dependency list is empty, so that value is always null and no track is ever stopped. | Mount; the camera request is granted a stream with one live track; unmount. The track is still live. | Unmount stops every track of the stream the session holds. | not executed; high (the closure capture follows from the empty dependency list) | `Component.UnmountLeavesTrackLive` | `Component.Session.UnmountReleasing` |

## Left out

- Layout, CSS classes and icons are presentation only. The model keeps only the status-text choice.
- The camera API call and error logging are asynchronous foreign I/O. The request's result enters as an `Acquisition` value passed to `StartStream`, and the logged error is dropped.
- Real timers, the 3000 ms period and effect scheduling are left out. Timer fires and effect runs are explicit method calls. `Step` fixes the order the framework uses: callback, then ticker effect, then scroll effect.
- Batching of state updates is left out. Each setter takes effect when its method is called.
- React drops state updates after unmount. The model does not track this, so `StartStream` after `Unmount` still stores the handle.
- Wall-clock reading and locale time formatting are left out. Timestamps are opaque integers passed in by the caller.
- Scroll geometry is left out. The panel records how many entries it is pinned below.
- The video element's playback attributes (autoplay, inline, muted) are left out. They do not affect the session's state.
