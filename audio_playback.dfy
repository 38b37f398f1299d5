/**
 * The playback queue of the client (voice-agent-ui/src/services/audio/AudioPlaybackService.js):
 * audio chunks from the server wait in a FIFO queue and are played one after
 * the other; each chunk may carry a callback for the start and one for the
 * end of its playback.
 *
 * `playNext` is asynchronous: it runs up to the `await` of the decoder and
 * finishes later. The model keeps the chunks that were taken from the queue
 * and have not finished as `inFlight` (a decode pending, or a source
 * sounding), and the completions of the browser as operations of their own,
 * with the decoder's verdict as a parameter. The callbacks are recorded in
 * `calls`, in the order they are invoked.
 */
module PlaybackQueue {
  import opened Clr

  /** One queued item: the encoded audio and whether each callback was given. */
  datatype Entry = Entry(audio: seq<byte>, hasStart: bool, hasEnd: bool)

  /** A chunk taken from the queue: its decode is pending, or its source is playing. */
  datatype Flight = Decoding(entry: Entry) | Sounding(entry: Entry)

  /** A callback invocation. */
  datatype Call = PlaybackStart(entry: Entry) | PlaybackEnd(entry: Entry)

  /** The service's fields, with the browser's pending work on it. */
  datatype Playback = Playback(queue: seq<Entry>, isPlaying: bool, contextOpen: bool,
                               inFlight: seq<Flight>, calls: seq<Call>)

  function RemoveAt<T>(s: seq<T>, i: nat): seq<T>
    requires i < |s|
  {
    s[..i] + s[i + 1..]
  }

  function StartCall(e: Entry): seq<Call> {
    if e.hasStart then [PlaybackStart(e)] else []
  }

  function EndCall(e: Entry): seq<Call> {
    if e.hasEnd then [PlaybackEnd(e)] else []
  }

  /** 1 when `x` is the chunk `e` and has both callbacks, so that it counts for their pairing. */
  function Weight(e: Entry, x: Entry): nat {
    if x == e && x.hasStart && x.hasEnd then 1 else 0
  }

  /** How many times the start callback of `e` ran, counting only a chunk with both callbacks. */
  function Opened(calls: seq<Call>, e: Entry): nat {
    if calls == [] then 0
    else (if calls[0].PlaybackStart? then Weight(e, calls[0].entry) else 0) + Opened(calls[1..], e)
  }

  /** How many times the end callback of `e` ran, counting only a chunk with both callbacks. */
  function Closed(calls: seq<Call>, e: Entry): nat {
    if calls == [] then 0
    else (if calls[0].PlaybackEnd? then Weight(e, calls[0].entry) else 0) + Closed(calls[1..], e)
  }

  /** How many times `e` is in flight, counting only a chunk with both callbacks. */
  function Pending(fs: seq<Flight>, e: Entry): nat {
    if fs == [] then 0 else Weight(e, fs[0].entry) + Pending(fs[1..], e)
  }

  lemma {:induction false} OpenedAppend(a: seq<Call>, b: seq<Call>, e: Entry)
    ensures Opened(a + b, e) == Opened(a, e) + Opened(b, e)
  {
    if a == [] {
      assert a + b == b;
    } else {
      OpenedAppend(a[1..], b, e);
      assert (a + b)[0] == a[0] && (a + b)[1..] == a[1..] + b;
    }
  }

  lemma {:induction false} ClosedAppend(a: seq<Call>, b: seq<Call>, e: Entry)
    ensures Closed(a + b, e) == Closed(a, e) + Closed(b, e)
  {
    if a == [] {
      assert a + b == b;
    } else {
      ClosedAppend(a[1..], b, e);
      assert (a + b)[0] == a[0] && (a + b)[1..] == a[1..] + b;
    }
  }

  lemma {:induction false} PendingAppend(a: seq<Flight>, b: seq<Flight>, e: Entry)
    ensures Pending(a + b, e) == Pending(a, e) + Pending(b, e)
  {
    if a == [] {
      assert a + b == b;
    } else {
      PendingAppend(a[1..], b, e);
      assert (a + b)[0] == a[0] && (a + b)[1..] == a[1..] + b;
    }
  }

  /** Taking a chunk out of flight takes its weight out of `Pending`. */
  lemma PendingRemove(fs: seq<Flight>, i: nat, e: Entry)
    requires i < |fs|
    ensures Pending(fs, e) == Pending(RemoveAt(fs, i), e) + Weight(e, fs[i].entry)
  {
    assert fs == fs[..i] + ([fs[i]] + fs[i + 1..]);
    PendingAppend(fs[..i], [fs[i]] + fs[i + 1..], e);
    PendingAppend([fs[i]], fs[i + 1..], e);
    PendingAppend(fs[..i], fs[i + 1..], e);
    assert Pending([fs[i]], e) == Weight(e, fs[i].entry) by {
      assert [fs[i]][1..] == [];
    }
  }

  /** A decoded chunk that starts to sound keeps its weight. */
  lemma PendingReplace(fs: seq<Flight>, i: nat, f: Flight, e: Entry)
    requires i < |fs| && f.entry == fs[i].entry
    ensures Pending(fs[i := f], e) == Pending(fs, e)
  {
    PendingRemove(fs, i, e);
    PendingRemove(fs[i := f], i, e);
    assert RemoveAt(fs[i := f], i) == RemoveAt(fs, i);
  }

  // ------------------------------------------------------------- the steps

  /** `new AudioPlaybackService()`. */
  const Initial: Playback := Playback([], false, false, [], [])

  /**
   * `playNext`, up to its `await`: with an empty queue playback stops;
   * otherwise the head leaves the queue, the context is created if needed, the
   * start callback runs and the decode of the chunk begins.
   */
  function PlayNext(s: Playback): Playback {
    if s.queue == [] then s.(isPlaying := false)
    else
      var e := s.queue[0];
      s.(queue := s.queue[1..], isPlaying := true, contextOpen := true,
         calls := s.calls + StartCall(e), inFlight := s.inFlight + [Decoding(e)])
  }

  /** `enqueue`: the chunk joins the tail; playback starts if it was not running. */
  function Enqueue(s: Playback, e: Entry): Playback {
    var pushed := s.(queue := s.queue + [e]);
    if s.isPlaying then pushed else PlayNext(pushed)
  }

  /** The end of a chunk, normal or not: its end callback runs, then `playNext`. */
  function Finish(s: Playback, i: nat): Playback
    requires i < |s.inFlight|
  {
    var e := s.inFlight[i].entry;
    PlayNext(s.(inFlight := RemoveAt(s.inFlight, i), calls := s.calls + EndCall(e)))
  }

  /**
   * The `await` of `decodeAudioData` returns for the `i`-th chunk in flight.
   * The source is created and started only when the decode succeeded and the
   * context still exists (`cleanup` may have dropped it meanwhile, and then
   * `createBufferSource` throws); otherwise the catch block ends the chunk.
   */
  function DecodeDone(s: Playback, i: nat, decoded: bool): Playback
    requires i < |s.inFlight| && s.inFlight[i].Decoding?
  {
    if decoded && s.contextOpen then s.(inFlight := s.inFlight[i := Sounding(s.inFlight[i].entry)])
    else Finish(s, i)
  }

  /** The `onended` of the source of the `i`-th chunk in flight. */
  function SourceEnded(s: Playback, i: nat): Playback
    requires i < |s.inFlight| && s.inFlight[i].Sounding?
  {
    Finish(s, i)
  }

  /** `clearQueue`: the waiting chunks are dropped; chunks in flight go on. */
  function ClearQueue(s: Playback): Playback {
    s.(queue := [], isPlaying := false)
  }

  /** `cleanup`: the queue is cleared and the context closed and dropped. */
  function Cleanup(s: Playback): Playback {
    ClearQueue(s).(contextOpen := false)
  }

  /** `initialize`: the context is created unless it exists. */
  function Initialize(s: Playback): Playback {
    s.(contextOpen := true)
  }

  /** What can happen to the service: its methods, and the browser finishing work for it. */
  datatype Event =
    | Push(entry: Entry)
    | Decoded(index: nat, ok: bool)
    | SourceDone(index: nat)
    | Clear
    | Dispose
    | Init

  /** The completions name a chunk in flight in the matching stage. */
  predicate Enabled(s: Playback, ev: Event) {
    match ev
    case Decoded(i, _) => i < |s.inFlight| && s.inFlight[i].Decoding?
    case SourceDone(i) => i < |s.inFlight| && s.inFlight[i].Sounding?
    case _ => true
  }

  function Apply(s: Playback, ev: Event): Playback
    requires Enabled(s, ev)
  {
    match ev
    case Push(e) => Enqueue(s, e)
    case Decoded(i, ok) => DecodeDone(s, i, ok)
    case SourceDone(i) => SourceEnded(s, i)
    case Clear => ClearQueue(s)
    case Dispose => Cleanup(s)
    case Init => Initialize(s)
  }

  // ------------------------------------------------------------ properties

  /**
   * Every paired chunk whose start callback ran has had its end callback run,
   * or is still in flight: for each chunk, the starts equal the ends plus the
   * copies in flight.
   */
  ghost predicate Balanced(s: Playback) {
    forall e :: Opened(s.calls, e) == Closed(s.calls, e) + Pending(s.inFlight, e)
  }

  /**
   * What every reachable state keeps: chunks wait in the queue only while
   * something plays, something is in flight whenever the service says it is
   * playing, and the callbacks are balanced.
   */
  ghost predicate Consistent(s: Playback) {
    && (!s.isPlaying ==> s.queue == [])
    && (s.isPlaying ==> s.inFlight != [])
    && Balanced(s)
  }

  lemma InitialConsistent()
    ensures Consistent(Initial)
  {
  }

  lemma StartCallWeight(e: Entry, x: Entry)
    ensures Opened(StartCall(e), x) == Weight(x, e) && Closed(StartCall(e), x) == 0
  {
    if e.hasStart {
      assert StartCall(e)[1..] == [];
    }
  }

  lemma EndCallWeight(e: Entry, x: Entry)
    ensures Closed(EndCall(e), x) == Weight(x, e) && Opened(EndCall(e), x) == 0
  {
    if e.hasEnd {
      assert EndCall(e)[1..] == [];
    }
  }

  lemma PlayNextConsistent(s: Playback)
    requires Balanced(s)
    ensures Consistent(PlayNext(s))
  {
    if s.queue != [] {
      var e := s.queue[0];
      var t := PlayNext(s);
      forall x
        ensures Opened(t.calls, x) == Closed(t.calls, x) + Pending(t.inFlight, x)
      {
        OpenedAppend(s.calls, StartCall(e), x);
        ClosedAppend(s.calls, StartCall(e), x);
        StartCallWeight(e, x);
        PendingAppend(s.inFlight, [Decoding(e)], x);
        assert Pending([Decoding(e)], x) == Weight(x, e) by {
          assert [Decoding(e)][1..] == [];
        }
      }
    }
  }

  lemma FinishConsistent(s: Playback, i: nat)
    requires Balanced(s) && i < |s.inFlight|
    ensures Consistent(Finish(s, i))
  {
    var e := s.inFlight[i].entry;
    var t := s.(inFlight := RemoveAt(s.inFlight, i), calls := s.calls + EndCall(e));
    forall x
      ensures Opened(t.calls, x) == Closed(t.calls, x) + Pending(t.inFlight, x)
    {
      OpenedAppend(s.calls, EndCall(e), x);
      ClosedAppend(s.calls, EndCall(e), x);
      EndCallWeight(e, x);
      PendingRemove(s.inFlight, i, x);
    }
    PlayNextConsistent(t);
  }

  /** Every operation and every completion keeps the service consistent. */
  lemma ApplyConsistent(s: Playback, ev: Event)
    requires Consistent(s) && Enabled(s, ev)
    ensures Consistent(Apply(s, ev))
  {
    match ev
    case Push(e) =>
      if !s.isPlaying {
        PlayNextConsistent(s.(queue := s.queue + [e]));
      }
    case Decoded(i, ok) =>
      if ok && s.contextOpen {
        forall x
          ensures Pending(s.inFlight[i := Sounding(s.inFlight[i].entry)], x) == Pending(s.inFlight, x)
        {
          PendingReplace(s.inFlight, i, Sounding(s.inFlight[i].entry), x);
        }
      } else {
        FinishConsistent(s, i);
      }
    case SourceDone(i) => FinishConsistent(s, i);
    case Clear =>
    case Dispose =>
    case Init =>
  }

  /** An end callback never runs for a paired chunk more often than its start; once nothing is in flight, they match. */
  lemma EndsFollowStarts(s: Playback)
    requires Consistent(s)
    ensures forall e :: Closed(s.calls, e) <= Opened(s.calls, e)
    ensures s.inFlight == [] ==> (forall e :: Closed(s.calls, e) == Opened(s.calls, e)) && !s.isPlaying && s.queue == []
  {
    assert forall e :: Pending([], e) == 0;
  }

  /**
   * The queue is first in, first out: a push adds at the tail, and otherwise
   * it only loses chunks from its head.
   */
  lemma QueueIsFifo(s: Playback, ev: Event)
    requires Enabled(s, ev)
    ensures var q := if ev.Push? then s.queue + [ev.entry] else s.queue;
            exists k :: 0 <= k <= |q| && Apply(s, ev).queue == q[k..]
  {
    var q := if ev.Push? then s.queue + [ev.entry] else s.queue;
    var r := Apply(s, ev).queue;
    if r == q {
      assert r == q[0..];
    } else if r == [] {
      assert r == q[|q|..];
    } else {
      assert r == q[1..];
    }
  }

  /** A chunk whose decode fails still has its end callback run, and an idle service goes idle again. */
  lemma FailedDecodeStillEnds(s: Playback, e: Entry)
    requires Consistent(s) && !s.isPlaying
    ensures var started := Enqueue(s, e);
            var t := DecodeDone(started, |s.inFlight|, false);
            && started.inFlight == s.inFlight + [Decoding(e)]
            && t.calls == s.calls + StartCall(e) + EndCall(e)
            && t.inFlight == s.inFlight && t.queue == [] && !t.isPlaying
  {
    var started := Enqueue(s, e);
    assert RemoveAt(started.inFlight, |s.inFlight|) == s.inFlight;
  }

  /**
   * A decode that succeeds after `cleanup` dropped the context cannot start a
   * source: the chunk ends through the catch block, without playing.
   */
  lemma DecodeAfterCleanupEnds(s: Playback, i: nat)
    requires i < |s.inFlight| && s.inFlight[i].Decoding?
    ensures var t := DecodeDone(Cleanup(s), i, true);
            && t.calls == s.calls + EndCall(s.inFlight[i].entry)
            && t.inFlight == RemoveAt(s.inFlight, i)
            && !t.isPlaying && !t.contextOpen
  {
  }

  /**
   * `clearQueue` drops the waiting chunks but does not stop the one that is
   * playing, and resets `isPlaying`: the next push starts a second chunk
   * while the first still sounds.
   */
  lemma ClearThenPushOverlaps(s: Playback, playing: Entry, next: Entry)
    requires s.inFlight == [Sounding(playing)]
    ensures var t := Enqueue(ClearQueue(s), next);
            && t.inFlight == [Sounding(playing), Decoding(next)]
            && t.queue == [] && t.isPlaying
            && t.calls == s.calls + StartCall(next)
  {
  }
}

/** The service object over the queue model above. */
module AudioPlayback {
  import opened Clr
  import opened PlaybackQueue

  class AudioPlaybackService {
    var audioQueue: seq<Entry>
    var isPlaying: bool
    /** Whether `audioContext` holds a context. */
    var contextOpen: bool
    /** The pending decodes and the playing sources that refer back to this service. */
    var inFlight: seq<Flight>
    /** The callbacks run so far. */
    var calls: seq<Call>

    function State(): Playback
      reads this
    {
      Playback(audioQueue, isPlaying, contextOpen, inFlight, calls)
    }

    constructor ()
      ensures State() == Initial && Consistent(State())
    {
      audioQueue := [];
      isPlaying := false;
      contextOpen := false;
      inFlight := [];
      calls := [];
    }

    method Initialize()
      modifies this
      ensures State() == PlaybackQueue.Initialize(old(State()))
      ensures Consistent(old(State())) ==> Consistent(State())
    {
      if !contextOpen {
        contextOpen := true;
      }
    }

    method Enqueue(e: Entry)
      requires Consistent(State())
      modifies this
      ensures State() == PlaybackQueue.Enqueue(old(State()), e) && Consistent(State())
    {
      ApplyConsistent(State(), Push(e));
      audioQueue := audioQueue + [e];
      if !isPlaying {
        PlayNext();
      }
    }

    /** `playNext` up to its `await`. */
    method PlayNext()
      modifies this
      ensures State() == PlaybackQueue.PlayNext(old(State()))
    {
      if audioQueue == [] {
        isPlaying := false;
        return;
      }
      isPlaying := true;
      var e := audioQueue[0];
      audioQueue := audioQueue[1..];
      if !contextOpen {
        Initialize();
      }
      if e.hasStart {
        calls := calls + [PlaybackStart(e)];
      }
      inFlight := inFlight + [Decoding(e)];
    }

    /** The rest of `playNext` for the `i`-th chunk in flight, once its decode settles. */
    method DecodeFinished(i: nat, decoded: bool)
      requires Consistent(State()) && i < |inFlight| && inFlight[i].Decoding?
      modifies this
      ensures State() == DecodeDone(old(State()), i, decoded) && Consistent(State())
    {
      ApplyConsistent(State(), Decoded(i, decoded));
      if decoded && contextOpen {
        inFlight := inFlight[i := Sounding(inFlight[i].entry)];
      } else {
        Finish(i);
      }
    }

    /** `source.onended` for the `i`-th chunk in flight. */
    method SourceEnded(i: nat)
      requires Consistent(State()) && i < |inFlight| && inFlight[i].Sounding?
      modifies this
      ensures State() == PlaybackQueue.SourceEnded(old(State()), i) && Consistent(State())
    {
      ApplyConsistent(State(), SourceDone(i));
      Finish(i);
    }

    method Finish(i: nat)
      requires i < |inFlight|
      modifies this
      ensures State() == PlaybackQueue.Finish(old(State()), i)
    {
      var e := inFlight[i].entry;
      inFlight := RemoveAt(inFlight, i);
      if e.hasEnd {
        calls := calls + [PlaybackEnd(e)];
      }
      PlayNext();
    }

    method ClearQueue()
      modifies this
      ensures State() == PlaybackQueue.ClearQueue(old(State()))
      ensures Consistent(old(State())) ==> Consistent(State())
    {
      audioQueue := [];
      isPlaying := false;
    }

    method Cleanup()
      modifies this
      ensures State() == PlaybackQueue.Cleanup(old(State()))
      ensures Consistent(old(State())) ==> Consistent(State())
    {
      ClearQueue();
      if contextOpen {
        contextOpen := false;
      }
    }

    /** `getIsPlaying`: when it answers false, nothing waits in the queue. */
    function GetIsPlaying(): (playing: bool)
      reads this
      ensures Consistent(State()) && !playing ==> audioQueue == []
    {
      isPlaying
    }

    /** `getQueueLength`: chunks wait only while playback runs. */
    function GetQueueLength(): (n: nat)
      reads this
      ensures n == |audioQueue|
      ensures Consistent(State()) && n > 0 ==> isPlaying
    {
      |audioQueue|
    }
  }
}
