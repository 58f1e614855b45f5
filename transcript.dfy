/**
 * The pure part of the translation panel: history entries, the phrase chosen
 * for each tick, the status line, and the state a run of ticks produces from
 * the state the component starts in.
 */
module Transcript {

  /** A wall-clock instant; the model never looks inside it. */
  type Instant = int

  /** One line of the translation history: its text and when it was added. */
  datatype Entry = Entry(text: string, timestamp: Instant)

  /** The phrase logged when the recognition signal was on before the tick. */
  const Hello: string := "Hello, how are you?"
  /** The phrase logged when the recognition signal was off before the tick. */
  const Hola: string := "Hola, ¿cómo estás?"

  /** The status line under the video. */
  const SignalDetected: string := "Signal Detected"
  const NoSignal: string := "No Signal"

  /** The text of the entry a tick adds, chosen from the signal the tick reads. */
  function EntryText(signal: bool): (text: string)
    ensures text == Hello <==> signal
    ensures text == Hola <==> !signal
  {
    if signal then Hello else Hola
  }

  /** The status line shown for a given recognition signal. */
  function StatusText(signal: bool): (status: string)
    ensures status == SignalDetected <==> signal
    ensures status == NoSignal <==> !signal
  {
    if signal then SignalDetected else NoSignal
  }

  /** The history updater run on every tick: the previous history with one entry added at its end. */
  function Append(history: seq<Entry>, entry: Entry): (r: seq<Entry>)
    ensures |r| == |history| + 1
    ensures r[..|history|] == history
    ensures r[|history|] == entry
  {
    history + [entry]
  }

  /** The part of the component's state that ticks change. */
  datatype Snapshot = Snapshot(signal: bool, history: seq<Entry>)

  /** The state on first render: the panel holds no entry and the status line reads "No Signal". */
  function Initial(): (r: Snapshot)
    ensures r.history == []
    ensures StatusText(r.signal) == NoSignal
  {
    Snapshot(false, [])
  }

  /**
   * One tick read against the signal it sees before the flip: the signal is
   * negated (the signal updater) and one entry, worded after the old signal,
   * is appended (the history updater).
   */
  function TickStep(s: Snapshot, now: Instant): (r: Snapshot)
    ensures r.signal != s.signal
    ensures |r.history| == |s.history| + 1
    ensures r.history[..|s.history|] == s.history
    ensures r.history[|s.history|] == Entry(EntryText(s.signal), now)
  {
    Snapshot(!s.signal, Append(s.history, Entry(EntryText(s.signal), now)))
  }

  /** The state after one tick per timestamp, in order. */
  function Run(s: Snapshot, stamps: seq<Instant>): Snapshot
    decreases |stamps|
  {
    if stamps == [] then s
    else TickStep(Run(s, stamps[..|stamps| - 1]), stamps[|stamps| - 1])
  }

  predicate Odd(n: nat)
  {
    n % 2 == 1
  }

  /**
   * Ticks from any state: the old history is kept as a prefix, one entry per
   * tick follows it, the k-th new entry is worded after the signal as it was
   * before that tick, and the signal has flipped once per tick.
   */
  lemma {:induction false} RunShape(s: Snapshot, stamps: seq<Instant>)
    ensures |Run(s, stamps).history| == |s.history| + |stamps|
    ensures Run(s, stamps).history[..|s.history|] == s.history
    ensures Run(s, stamps).signal == (s.signal != Odd(|stamps|))
    ensures forall k :: 0 <= k < |stamps| ==>
      Run(s, stamps).history[|s.history| + k] == Entry(EntryText(s.signal != Odd(k)), stamps[k])
    decreases |stamps|
  {
    if stamps != [] {
      var n := |stamps|;
      var p := stamps[..n - 1];
      RunShape(s, p);
      var before := Run(s, p);
      var after := Run(s, stamps);
      assert after == TickStep(before, stamps[n - 1]);
      assert after.history[..|before.history|] == before.history;
      calc {
        after.history[..|s.history|];
        after.history[..|before.history|][..|s.history|];
        before.history[..|s.history|];
      }
      forall k | 0 <= k < n
        ensures after.history[|s.history| + k] == Entry(EntryText(s.signal != Odd(k)), stamps[k])
      {
        if k < n - 1 {
          assert after.history[|s.history| + k] == after.history[..|before.history|][|s.history| + k];
          assert p[k] == stamps[k];
        }
      }
    }
  }

  /**
   * From the first-render state, n ticks give n entries, the signal is on
   * exactly when n is odd, and entry i reads Hola for even i and Hello for odd i.
   */
  lemma {:induction false} RunFromInitial(stamps: seq<Instant>)
    ensures |Run(Initial(), stamps).history| == |stamps|
    ensures Run(Initial(), stamps).signal == Odd(|stamps|)
    ensures forall i :: 0 <= i < |stamps| ==>
      Run(Initial(), stamps).history[i] == Entry(if i % 2 == 0 then Hola else Hello, stamps[i])
  {
    RunShape(Initial(), stamps);
  }

  /** Consecutive entries of a history grown from the first-render state never share a phrase. */
  lemma {:induction false} EntriesAlternate(stamps: seq<Instant>, i: nat)
    requires i + 1 < |stamps|
    ensures |Run(Initial(), stamps).history| == |stamps|
    ensures Run(Initial(), stamps).history[i].text != Run(Initial(), stamps).history[i + 1].text
  {
    RunFromInitial(stamps);
    var h := Run(Initial(), stamps).history;
    assert h[i].text == if i % 2 == 0 then Hola else Hello;
    assert h[i + 1].text == if i % 2 == 0 then Hello else Hola;
    assert |Hello| != |Hola|;
  }

  /** Ticking through a then b is ticking through a + b: the history is append-only across runs. */
  lemma {:induction false} RunConcat(s: Snapshot, a: seq<Instant>, b: seq<Instant>)
    ensures Run(s, a + b) == Run(Run(s, a), b)
    decreases |b|
  {
    if b == [] {
      assert a + b == a;
    } else {
      var n := |b|;
      assert (a + b)[..|a + b| - 1] == a + b[..n - 1];
      assert (a + b)[|a + b| - 1] == b[n - 1];
      RunConcat(s, a, b[..n - 1]);
    }
  }

  /** The status line after n ticks from the first render reads "Signal Detected" exactly when n is odd. */
  lemma {:induction false} StatusAfterRun(stamps: seq<Instant>)
    ensures StatusText(Run(Initial(), stamps).signal) == SignalDetected <==> Odd(|stamps|)
  {
    RunFromInitial(stamps);
  }
}
