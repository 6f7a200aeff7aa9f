/**
 * The recording session of the `AudioRecorder` component.
 *
 * The component keeps a `recording` flag, three references to browser objects
 * (the `MediaRecorder`, the `AudioContext` and the microphone `MediaStream`),
 * the time the recording started and the remaining-time value it displays.
 * Two timers act on it every second: a duration timer that counts the time
 * down and stops at the cap, and a voice-activity poll that compares a fast-
 * and a slow-smoothed loudness estimate and stops when they agree.
 *
 * Each transition is a function on `Session`; the `Recorder` class holds the
 * same state in fields and its methods are proved to perform those functions.
 * Clocks, analysers and the browser objects are parameters of the transitions.
 */
module AudioRecorder {
  import opened Wrappers
  import opened Media

  /** `maxRecordingTime`: the cap on one recording, in milliseconds. */
  const MaxRecordingTime: int := 10000

  /** What the remaining-time display starts at, and what a stop resets it to, in seconds. */
  const InitialRemainingTime: int := 10

  /** The `fftSize` of both analysers. */
  const FftSize: nat := 2048

  /** An analyser's `frequencyBinCount`, half its `fftSize`: the length of each spectrum. */
  const FrequencyBinCount: nat := FftSize / 2

  /** The largest difference of the two band averages that still counts as silence (exclusive). */
  const SilenceThreshold: real := 1.0

  // ---------------------------------------------------------------------------
  // Remaining time

  /**
   * `Math.round(ms / 1000)`: the integer nearest to ms/1000, a tie going to the
   * larger integer (toward +∞), as section 21.3.2 of ECMA-262 (Math.round) states.
   */
  function RoundToSeconds(ms: int): (r: int)
    ensures 1000 * r - 500 <= ms < 1000 * r + 500
    ensures r as real - 0.5 <= ms as real / 1000.0 < r as real + 0.5
  {
    (ms + 500) / 1000
  }

  /** The value the duration timer displays after `elapsed` milliseconds of recording. */
  function RemainingTime(elapsed: int): (r: int)
    ensures 1000 * r - 500 <= MaxRecordingTime - elapsed < 1000 * r + 500
  {
    RoundToSeconds(MaxRecordingTime - elapsed)
  }

  /** Rounding has one answer: any integer that is nearest to ms/1000 (ties up) is the one computed. */
  lemma RoundToSecondsIsUnique(ms: int, k: int)
    requires 1000 * k - 500 <= ms < 1000 * k + 500
    ensures RoundToSeconds(ms) == k
  {
  }

  /** At the start of a recording the display reads its initial value. */
  lemma RemainingTimeAtStart()
    ensures RemainingTime(0) == InitialRemainingTime
  {
  }

  /** The display never goes up as the recording goes on. */
  lemma RemainingTimeNonIncreasing(earlier: int, later: int)
    requires earlier <= later
    ensures RemainingTime(later) <= RemainingTime(earlier)
  {
  }

  /** Before the cap the value shown is never negative, and after a proper start it is at most 10. */
  lemma RemainingTimeBeforeCap(elapsed: int)
    requires elapsed < MaxRecordingTime
    ensures 0 <= RemainingTime(elapsed)
    ensures 0 <= elapsed ==> RemainingTime(elapsed) <= InitialRemainingTime
  {
  }

  /** The formula itself is not clamped: 10.6 s into a recording it gives -1. */
  lemma RemainingTimeIsNotClamped()
    ensures RemainingTime(10600) == -1
  {
  }

  // ---------------------------------------------------------------------------
  // Voice activity

  /**
   * One analyser's byte spectrum (`getByteFrequencyData` into a
   * `Uint8Array(frequencyBinCount)`).
   */
  type Spectrum = s: seq<Byte> | |s| == FrequencyBinCount witness seq(FrequencyBinCount, _ => 0)

  /** `reduce((acc, val) => acc + val, 0)` over byte bins, folding from the left. */
  function BinSum(bins: seq<Byte>): (r: int)
    ensures 0 <= r <= 255 * |bins|
  {
    if bins == [] then 0 else BinSum(bins[..|bins| - 1]) + bins[|bins| - 1]
  }

  /**
   * A band average: the bin sum over `frequencyBinCount`. Division by 1024 and
   * the difference of two such values are exact in binary64, so the reals here
   * are the values the component computes.
   */
  function BandAverage(bins: Spectrum): (r: real)
    ensures 0.0 <= r <= 255.0
  {
    BinSum(bins) as real / FrequencyBinCount as real
  }

  function Abs(x: real): real
  {
    if x < 0.0 then -x else x
  }

  /**
   * The threshold test of `checkVolume`: the averages differ by less than 1.
   * Both averages share the divisor 1024, so the test is one on the sums.
   */
  function IsSilent(shortBins: Spectrum, longBins: Spectrum): (r: bool)
    ensures r <==> -1024 < BinSum(longBins) - BinSum(shortBins) < 1024
  {
    var long, short := BinSum(longBins), BinSum(shortBins);
    assert FrequencyBinCount as real == 1024.0;
    assert BandAverage(longBins) - BandAverage(shortBins) == (long - short) as real / 1024.0;
    Abs(BandAverage(longBins) - BandAverage(shortBins)) < SilenceThreshold
  }

  // ---------------------------------------------------------------------------
  // The session state

  /**
   * The component's state. `starting` is true between a start that passed its
   * guard and the moment the microphone stream arrives (or is refused); the
   * component as written has no such flag (see `BeginStartAsWritten`).
   */
  datatype Session = Session(
    recording: bool,
    starting: bool,
    mediaRecorder: Option<Handle>,
    audioContext: Option<Handle>,
    audioStream: Option<Handle>,
    startTime: int,
    remainingTime: int)

  /** The state when the component mounts. */
  function Initial(): Session
  {
    Session(false, false, None, None, None, 0, InitialRemainingTime)
  }

  predicate HoldsAllHandles(s: Session)
  {
    s.mediaRecorder.Some? && s.audioContext.Some? && s.audioStream.Some?
  }

  predicate HoldsNoHandle(s: Session)
  {
    s.mediaRecorder.None? && s.audioContext.None? && s.audioStream.None?
  }

  /**
   * What every reachable state satisfies, given that the browser calls after
   * the `await` of `startRecording` do not throw: a recording holds all three
   * handles and no start is pending; otherwise no handle is held; and the
   * displayed remaining time is not negative.
   */
  predicate SessionInvariant(s: Session)
  {
    && (s.recording ==> HoldsAllHandles(s) && !s.starting)
    && (!s.recording ==> HoldsNoHandle(s))
    && 0 <= s.remainingTime
  }

  // ---------------------------------------------------------------------------
  // Start

  /**
   * The guard of `startRecording` as written: a call gets past it unless
   * `recording` is set. Nothing is written before the `await getUserMedia`, so
   * a second call made before the first one's stream arrives passes as well.
   */
  predicate BeginStartAsWritten(s: Session)
  {
    !s.recording
  }

  /** The new state after a start call and whether the call goes on to acquire a stream. */
  datatype Gate = Gate(session: Session, proceed: bool)

  /**
   * The guard of `startRecording`, with the pending start recorded so that a
   * second call is refused until the first one has finished or failed.
   */
  function BeginStart(s: Session): Gate
  {
    if s.recording || s.starting then Gate(s, false) else Gate(s.(starting := true), true)
  }

  /** `getUserMedia` rejected: the pending start is forgotten and nothing else changes. */
  function AbortStart(s: Session): Session
  {
    s.(starting := false)
  }

  /** The stream arrived: the three new objects are stored, the clock read and `recording` set. */
  function CompleteStart(s: Session, recorder: Handle, context: Handle, stream: Handle, now: int): Session
  {
    s.(recording := true, starting := false,
       mediaRecorder := Some(recorder), audioContext := Some(context), audioStream := Some(stream),
       startTime := now)
  }

  /** A start while recording changes nothing, in the component as written and in the model. */
  lemma StartWhileRecordingIsNoOp(s: Session)
    requires s.recording
    ensures !BeginStartAsWritten(s)
    ensures BeginStart(s) == Gate(s, false)
  {
  }

  /** A start is refused exactly when a session is recording or being acquired. */
  lemma BeginStartProceedsIffIdle(s: Session)
    ensures BeginStart(s).proceed <==> !s.recording && !s.starting
    ensures BeginStart(s).proceed ==> BeginStart(s).session == s.(starting := true)
    ensures !BeginStart(s).proceed ==> BeginStart(s).session == s
  {
  }

  /** Once a start has passed the guard, every further start is refused. */
  lemma SecondStartIsRefused(s: Session)
    requires BeginStart(s).proceed
    ensures !BeginStart(BeginStart(s).session).proceed
    ensures BeginStart(BeginStart(s).session).session == BeginStart(s).session
  {
  }

  /**
   * A completed start leaves `recording` set, holds exactly the three new
   * objects, records `now` as the start time and keeps the displayed value.
   */
  lemma CompletedStartRecords(s: Session, recorder: Handle, context: Handle, stream: Handle, now: int)
    requires SessionInvariant(s) && s.starting
    ensures var t := CompleteStart(s, recorder, context, stream, now);
      && t.recording && !t.starting
      && t.mediaRecorder == Some(recorder) && t.audioContext == Some(context) && t.audioStream == Some(stream)
      && t.startTime == now && t.remainingTime == s.remainingTime
      && SessionInvariant(t)
  {
  }

  /** A start that completes never overwrites a handle that is still open. */
  lemma CompleteStartDropsNoHandle(s: Session)
    requires SessionInvariant(s) && s.starting
    ensures HoldsNoHandle(s) && !s.recording
  {
  }

  // ---------------------------------------------------------------------------
  // Stop

  /** Whether `stopRecording` gets past its guard: recording, with all three objects present. */
  predicate StopTakesEffect(s: Session)
  {
    s.recording && HoldsAllHandles(s)
  }

  /** `stopRecording`: leaves the state alone unless its guard passes; then ends the recording. */
  function Stop(s: Session): Session
  {
    if !StopTakesEffect(s) then s
    else s.(recording := false, remainingTime := InitialRemainingTime,
            mediaRecorder := None, audioStream := None, audioContext := None)
  }

  /**
   * Stopping twice is stopping once: the second call finds `recording` cleared
   * and does nothing; this is what makes the two timers safe to race.
   */
  lemma StopIsIdempotent(s: Session)
    ensures !StopTakesEffect(Stop(s))
    ensures Stop(Stop(s)) == Stop(s)
  {
  }

  /**
   * A stop of a recording session takes effect: it clears `recording`, resets
   * the display to 10 and releases all three objects, keeping the start time.
   */
  lemma StopEndsRecording(s: Session)
    requires SessionInvariant(s) && s.recording
    ensures StopTakesEffect(s)
    ensures var t := Stop(s);
      && !t.recording && t.remainingTime == InitialRemainingTime && HoldsNoHandle(t)
      && t.startTime == s.startTime && t.starting == s.starting
      && SessionInvariant(t)
  {
  }

  /** A stop when nothing is recording changes nothing. */
  lemma StopWhenIdleIsNoOp(s: Session)
    requires !s.recording
    ensures Stop(s) == s
  {
  }

  // ---------------------------------------------------------------------------
  // The two timers

  /**
   * The body of the one-second duration interval: while recording it shows
   * the rounded remaining seconds and stops once the cap is reached.
   */
  function DurationTick(s: Session, now: int): Session
  {
    if !s.recording then s
    else
      var elapsed := now - s.startTime;
      var shown := s.(remainingTime := RemainingTime(elapsed));
      if elapsed >= MaxRecordingTime then Stop(shown) else shown
  }

  /**
   * A duration tick while recording stops exactly when the elapsed time has
   * reached the cap, and otherwise only updates the display.
   */
  lemma DurationTickStopsAtCap(s: Session, now: int)
    requires SessionInvariant(s) && s.recording
    ensures var t := DurationTick(s, now);
      && (t.recording <==> now - s.startTime < MaxRecordingTime)
      && (now - s.startTime < MaxRecordingTime ==>
            t == s.(remainingTime := RemainingTime(now - s.startTime)))
      && (now - s.startTime >= MaxRecordingTime ==> t == Stop(s))
      && SessionInvariant(t)
  {
  }

  /** A duration tick while not recording changes nothing. */
  lemma DurationTickWhenIdleIsNoOp(s: Session, now: int)
    requires !s.recording
    ensures DurationTick(s, now) == s
  {
  }

  /** `checkVolume`: stops when recording and the two band averages agree to within 1. */
  function VolumeCheck(s: Session, shortBins: Spectrum, longBins: Spectrum): Session
  {
    if s.recording && IsSilent(shortBins, longBins) then Stop(s) else s
  }

  /** The state after one poll tick, and whether the interval stays scheduled. */
  datatype PollStep = PollStep(session: Session, keepPolling: bool)

  /**
   * The body of the one-second poll interval: while recording it checks the
   * volume; otherwise it cancels itself without looking at the spectra. The
   * tick that stops the recording leaves the interval scheduled, and the next
   * one cancels it only if no new session is recording by then: the interval
   * reads only `recording`, so an old one may go on polling the analysers of a
   * closed context and stop a later session. Any number of polls with any
   * spectra is an event of the model, so the proofs cover that case.
   */
  function PollTick(s: Session, shortBins: Spectrum, longBins: Spectrum): PollStep
  {
    if s.recording then PollStep(VolumeCheck(s, shortBins, longBins), true)
    else PollStep(s, false)
  }

  /**
   * A poll tick while recording stops exactly on silence; one while not
   * recording cancels the interval and changes nothing.
   */
  lemma PollTickStopsOnSilence(s: Session, shortBins: Spectrum, longBins: Spectrum)
    requires SessionInvariant(s)
    ensures var p := PollTick(s, shortBins, longBins);
      && (p.keepPolling <==> s.recording)
      && (!s.recording ==> p.session == s)
      && (s.recording ==>
            (p.session.recording <==> !(-1024 < BinSum(longBins) - BinSum(shortBins) < 1024)))
      && (s.recording && IsSilent(shortBins, longBins) ==> p.session == Stop(s))
      && (s.recording && !IsSilent(shortBins, longBins) ==> p.session == s)
      && SessionInvariant(p.session)
  {
  }

  /**
   * Either timer may fire first within a tick: both orders reach the same
   * state.
   */
  lemma TimersCommute(s: Session, now: int, shortBins: Spectrum, longBins: Spectrum)
    requires SessionInvariant(s)
    ensures DurationTick(PollTick(s, shortBins, longBins).session, now)
         == PollTick(DurationTick(s, now), shortBins, longBins).session
  {
  }

  // ---------------------------------------------------------------------------
  // Runs of events

  /** Everything that can happen to the component: a call, a callback or a timer. */
  datatype Event =
    | StartCall
    | StreamDenied
    | StreamArrived(recorder: Handle, context: Handle, stream: Handle, now: int)
    | StopCall
    | DurationTimer(now: int)
    | VolumePoll(shortBins: Spectrum, longBins: Spectrum)

  /** What an event did to the session's life cycle. */
  datatype Effect = Quiet | Began | Aborted | Opened | Closed

  datatype Stepped = Stepped(session: Session, effect: Effect)

  /**
   * One event. A stream that arrives, or is refused, with no start pending is
   * not something the browser delivers; it is modelled as changing nothing.
   */
  function Step(s: Session, e: Event): Stepped
  {
    match e
    case StartCall =>
      var g := BeginStart(s);
      Stepped(g.session, if g.proceed then Began else Quiet)
    case StreamDenied =>
      if s.starting then Stepped(AbortStart(s), Aborted) else Stepped(s, Quiet)
    case StreamArrived(r, c, st, now) =>
      if s.starting then Stepped(CompleteStart(s, r, c, st, now), Opened) else Stepped(s, Quiet)
    case StopCall =>
      Stepped(Stop(s), if StopTakesEffect(s) then Closed else Quiet)
    case DurationTimer(now) =>
      var t := DurationTick(s, now);
      Stepped(t, if s.recording && !t.recording then Closed else Quiet)
    case VolumePoll(sb, lb) =>
      var t := PollTick(s, sb, lb).session;
      Stepped(t, if s.recording && !t.recording then Closed else Quiet)
  }

  /** The life cycle of one session: Idle, acquiring a stream, live. */
  datatype Phase = Idle | Acquiring | Live

  function PhaseOf(s: Session): Phase
  {
    if s.recording then Live else if s.starting then Acquiring else Idle
  }

  /**
   * The only life-cycle moves: Idle to Acquiring by a start, Acquiring back to
   * Idle by a refusal or on to Live by the stream, Live to Idle by one stop.
   */
  function Move(p: Phase, eff: Effect): Option<Phase>
  {
    match eff
    case Quiet => Some(p)
    case Began => if p == Idle then Some(Acquiring) else None
    case Aborted => if p == Acquiring then Some(Idle) else None
    case Opened => if p == Acquiring then Some(Live) else None
    case Closed => if p == Live then Some(Idle) else None
  }

  /** The effects follow the life cycle from phase `p`. */
  predicate Follows(p: Phase, effects: seq<Effect>)
    decreases |effects|
  {
    effects == [] || (Move(p, effects[0]).Some? && Follows(Move(p, effects[0]).value, effects[1..]))
  }

  /** The state after a run of events. */
  function Run(s: Session, events: seq<Event>): Session
    decreases |events|
  {
    if events == [] then s else Run(Step(s, events[0]).session, events[1..])
  }

  /** The effects of a run of events, in order. */
  function Effects(s: Session, events: seq<Event>): seq<Effect>
    decreases |events|
  {
    if events == [] then [] else [Step(s, events[0]).effect] + Effects(Step(s, events[0]).session, events[1..])
  }

  /** Every event keeps the invariant and moves the life cycle along one of its edges. */
  lemma StepFollowsLifeCycle(s: Session, e: Event)
    requires SessionInvariant(s)
    ensures SessionInvariant(Step(s, e).session)
    ensures Move(PhaseOf(s), Step(s, e).effect) == Some(PhaseOf(Step(s, e).session))
  {
    match e
    case StartCall =>
    case StreamDenied =>
    case StreamArrived(r, c, st, now) =>
    case StopCall =>
    case DurationTimer(now) =>
      if s.recording {
        DurationTickStopsAtCap(s, now);
      }
    case VolumePoll(sb, lb) =>
      PollTickStopsOnSilence(s, sb, lb);
  }

  /**
   * Any run of events keeps the invariant and follows the life cycle: between
   * a stream's arrival and the next start that gets through there is exactly
   * one stop that takes effect, whichever of the manual stop, the duration
   * timer and the volume poll makes it.
   */
  lemma {:induction false} RunFollowsLifeCycle(s: Session, events: seq<Event>)
    requires SessionInvariant(s)
    ensures SessionInvariant(Run(s, events))
    ensures Follows(PhaseOf(s), Effects(s, events))
    ensures Reach(PhaseOf(s), Effects(s, events)) == PhaseOf(Run(s, events))
    decreases |events|
  {
    if events != [] {
      var st := Step(s, events[0]);
      StepFollowsLifeCycle(s, events[0]);
      RunFollowsLifeCycle(st.session, events[1..]);
      assert Effects(s, events) == [st.effect] + Effects(st.session, events[1..]);
    }
  }

  /** How often `e` occurs in `effects`. */
  function CountOf(e: Effect, effects: seq<Effect>): nat
    decreases |effects|
  {
    if effects == [] then 0 else (if effects[0] == e then 1 else 0) + CountOf(e, effects[1..])
  }

  /** The phase a run of effects that follows the life cycle from `p` ends in. */
  function Reach(p: Phase, effects: seq<Effect>): Phase
    requires Follows(p, effects)
    decreases |effects|
  {
    if effects == [] then p else Reach(Move(p, effects[0]).value, effects[1..])
  }

  function LiveCount(p: Phase): nat
  {
    if p == Live then 1 else 0
  }

  /**
   * Along the life cycle, stops that take effect and streams that arrive
   * alternate: each arrival is matched by exactly one stop, except for a
   * session live at the start (stopped without an arrival) or at the end
   * (an arrival not yet stopped).
   */
  lemma {:induction false} FollowsAlternates(p: Phase, effects: seq<Effect>)
    requires Follows(p, effects)
    ensures CountOf(Opened, effects) + LiveCount(p) == CountOf(Closed, effects) + LiveCount(Reach(p, effects))
    decreases |effects|
  {
    if effects != [] {
      FollowsAlternates(Move(p, effects[0]).value, effects[1..]);
    }
  }

  /**
   * From the mounted component, every run of events has exactly one stop that
   * takes effect per stream that arrived, except that the last session may
   * still be recording: no session is stopped twice, and none is left
   * without its stop before the next one opens.
   */
  lemma OneStopPerSession(events: seq<Event>)
    ensures var effects := Effects(Initial(), events);
      CountOf(Opened, effects)
        == CountOf(Closed, effects) + (if Run(Initial(), events).recording then 1 else 0)
  {
    RunFollowsLifeCycle(Initial(), events);
    FollowsAlternates(Idle, Effects(Initial(), events));
  }

  // ---------------------------------------------------------------------------
  // The start guard as written

  /**
   * The component as written: `pending` counts the `startRecording` calls that
   * passed the guard and still await their stream. No field of the component
   * records them, so the guard does not see them.
   */
  datatype WrittenSession = WrittenSession(session: Session, pending: nat)

  datatype WrittenStepped = WrittenStepped(state: WrittenSession, effect: Effect)

  /**
   * One event in the component as written. A start passes whenever nothing is
   * recording, and the stream of every start that passed is stored when it
   * arrives, whatever the session is doing by then. Stops and timers are those
   * of `Step`.
   */
  function StepAsWritten(w: WrittenSession, e: Event): WrittenStepped
  {
    match e
    case StartCall =>
      if BeginStartAsWritten(w.session) then WrittenStepped(w.(pending := w.pending + 1), Began)
      else WrittenStepped(w, Quiet)
    case StreamDenied =>
      if w.pending > 0 then WrittenStepped(w.(pending := w.pending - 1), Aborted)
      else WrittenStepped(w, Quiet)
    case StreamArrived(r, c, st, now) =>
      if w.pending > 0 then
        WrittenStepped(WrittenSession(CompleteStart(w.session, r, c, st, now), w.pending - 1), Opened)
      else WrittenStepped(w, Quiet)
    case _ =>
      var t := Step(w.session, e);
      WrittenStepped(w.(session := t.session), t.effect)
  }

  /** The state after a run of events, in the component as written. */
  function RunAsWritten(w: WrittenSession, events: seq<Event>): WrittenSession
    decreases |events|
  {
    if events == [] then w else RunAsWritten(StepAsWritten(w, events[0]).state, events[1..])
  }

  /** The effects of a run of events, in the component as written. */
  function EffectsAsWritten(w: WrittenSession, events: seq<Event>): seq<Effect>
    decreases |events|
  {
    if events == [] then []
    else [StepAsWritten(w, events[0]).effect] + EffectsAsWritten(StepAsWritten(w, events[0]).state, events[1..])
  }

  /**
   * As written, two clicks before the microphone answers both pass the guard,
   * and the second stream's arrival overwrites the first one's objects. One
   * stop then ends the only session still referenced: the run ends with no
   * start pending and nothing recording, yet two sessions were opened and one
   * was stopped. The first recorder, context and stream are never released,
   * and `OneStopPerSession` fails for the component as written.
   */
  lemma DoubleStartLeaks()
    ensures var w0 := WrittenSession(Initial(), 0);
      var events := [StartCall, StartCall,
                     StreamArrived(Handle(1), Handle(2), Handle(3), 0),
                     StreamArrived(Handle(4), Handle(5), Handle(6), 5),
                     StopCall];
      var effects := EffectsAsWritten(w0, events);
      var live := RunAsWritten(w0, events[..4]).session;
      var last := RunAsWritten(w0, events);
      && effects == [Began, Began, Opened, Opened, Closed]
      && live.mediaRecorder == Some(Handle(4))
      && live.audioContext == Some(Handle(5))
      && live.audioStream == Some(Handle(6))
      && last.pending == 0 && !last.session.recording
      && CountOf(Opened, effects) == CountOf(Closed, effects) + 1
  {
    var w0 := WrittenSession(Initial(), 0);
    var e0, e1 := StartCall, StreamArrived(Handle(1), Handle(2), Handle(3), 0);
    var e2, e3 := StreamArrived(Handle(4), Handle(5), Handle(6), 5), StopCall;
    var events := [e0, e0, e1, e2, e3];
    var w1 := StepAsWritten(w0, e0).state;
    var w2 := StepAsWritten(w1, e0).state;
    var w3 := StepAsWritten(w2, e1).state;
    var w4 := StepAsWritten(w3, e2).state;
    var w5 := StepAsWritten(w4, e3).state;
    assert w2.pending == 2;
    assert w4.session.recording && w4.pending == 0 && w4.session.mediaRecorder == Some(Handle(4));
    assert !w5.session.recording && w5.pending == 0;
    assert events[1..] == [e0, e1, e2, e3] && events[2..] == [e1, e2, e3];
    assert events[3..] == [e2, e3] && events[4..] == [e3] && events[5..] == [];
    assert RunAsWritten(w4, [e3]) == w5;
    assert RunAsWritten(w0, events) == w5 by {
      assert RunAsWritten(w0, events) == RunAsWritten(w1, events[1..]);
      assert RunAsWritten(w1, events[1..]) == RunAsWritten(w2, events[2..]);
      assert RunAsWritten(w2, events[2..]) == RunAsWritten(w3, events[3..]);
      assert RunAsWritten(w3, events[3..]) == RunAsWritten(w4, events[4..]);
    }
    var prefix := events[..4];
    assert prefix == [e0, e0, e1, e2];
    assert prefix[1..] == [e0, e1, e2] && prefix[2..] == [e1, e2] && prefix[3..] == [e2] && prefix[4..] == [];
    assert RunAsWritten(w0, prefix) == w4 by {
      assert RunAsWritten(w0, prefix) == RunAsWritten(w1, prefix[1..]);
      assert RunAsWritten(w1, prefix[1..]) == RunAsWritten(w2, prefix[2..]);
      assert RunAsWritten(w2, prefix[2..]) == RunAsWritten(w3, prefix[3..]);
      assert RunAsWritten(w3, prefix[3..]) == RunAsWritten(w4, prefix[4..]);
    }
    assert EffectsAsWritten(w4, [e3]) == [Closed];
    assert EffectsAsWritten(w3, events[3..]) == [Opened, Closed];
    assert EffectsAsWritten(w2, events[2..]) == [Opened, Opened, Closed];
    assert EffectsAsWritten(w1, events[1..]) == [Began, Opened, Opened, Closed];
    var effects := EffectsAsWritten(w0, events);
    assert effects == [Began, Began, Opened, Opened, Closed];
    assert effects[1..] == [Began, Opened, Opened, Closed] && effects[2..] == [Opened, Opened, Closed];
    assert effects[3..] == [Opened, Closed] && effects[4..] == [Closed] && effects[5..] == [];
    assert CountOf(Opened, effects[4..]) == 0 && CountOf(Closed, effects[4..]) == 1;
    assert CountOf(Opened, effects[3..]) == 1 && CountOf(Closed, effects[3..]) == 1;
    assert CountOf(Opened, effects[2..]) == 2 && CountOf(Closed, effects[2..]) == 1;
    assert CountOf(Opened, effects[1..]) == 2 && CountOf(Closed, effects[1..]) == 1;
    assert CountOf(Opened, effects) == 2 && CountOf(Closed, effects) == 1;
  }

  // ---------------------------------------------------------------------------
  // The component

  /** The component's refs and remaining-time state, updated in place by its callbacks. */
  class Recorder {
    var recording: bool
    var starting: bool
    var mediaRecorder: Option<Handle>
    var audioContext: Option<Handle>
    var audioStream: Option<Handle>
    var startTime: int
    var remainingTime: int

    function State(): Session
      reads this
    {
      Session(recording, starting, mediaRecorder, audioContext, audioStream, startTime, remainingTime)
    }

    ghost predicate Valid()
      reads this
    {
      SessionInvariant(State())
    }

    /** The component mounts: not recording, no objects, the display at 10. */
    constructor ()
      ensures Valid() && State() == Initial()
    {
      recording, starting := false, false;
      mediaRecorder, audioContext, audioStream := None, None, None;
      startTime, remainingTime := 0, InitialRemainingTime;
    }

    /**
     * `startRecording` up to its `await`: the re-entry guard, which here also
     * refuses a start while an earlier one still waits for its stream.
     */
    method StartRecording() returns (proceed: bool)
      requires Valid()
      modifies this
      ensures Valid()
      ensures Gate(State(), proceed) == BeginStart(old(State()))
    {
      if recording || starting {
        return false;
      }
      starting := true;
      proceed := true;
    }

    /** `getUserMedia` rejected the pending start. */
    method OnStreamDenied()
      requires Valid() && starting
      modifies this
      ensures Valid()
      ensures State() == AbortStart(old(State()))
    {
      starting := false;
    }

    /**
     * `startRecording` after its `await`: stores the new recorder, context and
     * stream, reads the clock and sets `recording`.
     */
    method OnStreamArrived(recorder: Handle, context: Handle, stream: Handle, now: int)
      requires Valid() && starting
      modifies this
      ensures Valid()
      ensures State() == CompleteStart(old(State()), recorder, context, stream, now)
    {
      mediaRecorder := Some(recorder);
      audioContext := Some(context);
      audioStream := Some(stream);
      startTime := now;
      recording := true;
      starting := false;
    }

    /** `stopRecording`; `stopped` says whether it got past its guard. */
    method StopRecording() returns (stopped: bool)
      modifies this
      ensures old(Valid()) ==> Valid()
      ensures stopped == StopTakesEffect(old(State()))
      ensures State() == Stop(old(State()))
    {
      if !recording || mediaRecorder.None? || audioStream.None? || audioContext.None? {
        return false;
      }
      recording := false;
      remainingTime := InitialRemainingTime;
      mediaRecorder := None;
      audioStream := None;
      audioContext := None;
      stopped := true;
    }

    /** The duration interval's callback, at time `now`. */
    method OnDurationTimer(now: int)
      requires Valid()
      modifies this
      ensures Valid()
      ensures State() == DurationTick(old(State()), now)
    {
      if recording {
        DurationTickStopsAtCap(State(), now);
        var elapsed := now - startTime;
        remainingTime := RemainingTime(elapsed);
        if elapsed >= MaxRecordingTime {
          var _ := StopRecording();
        }
      }
    }

    /** `checkVolume`, given the spectra the two analysers report. */
    method CheckVolume(shortBins: Spectrum, longBins: Spectrum)
      requires Valid()
      modifies this
      ensures Valid()
      ensures State() == VolumeCheck(old(State()), shortBins, longBins)
    {
      if recording && IsSilent(shortBins, longBins) {
        var _ := StopRecording();
      }
    }

    /** The poll interval's callback; `keepPolling` is false when it clears itself. */
    method OnVolumePoll(shortBins: Spectrum, longBins: Spectrum) returns (keepPolling: bool)
      requires Valid()
      modifies this
      ensures Valid()
      ensures PollStep(State(), keepPolling) == PollTick(old(State()), shortBins, longBins)
    {
      if recording {
        CheckVolume(shortBins, longBins);
        keepPolling := true;
      } else {
        keepPolling := false;
      }
    }
  }
}
