/** The incoming decoy-call screen: a synthesised two-tone ringtone, a
    repeating vibration pattern, a guard against leaving the page, and a
    knob that answers when it is slid far enough to the right. Audio and
    vibration are recorded as the calls the screen makes, not as sound. */
module FakeCallIncoming {
  import opened Base

  /** The ringtone's observable state: whether it is playing, whether its
      2-second repeat is armed, how many 440 Hz and 554 Hz tones have been
      started, how many 200 ms second-tone timeouts are still to fire, and
      how many times the audio context was closed. */
  datatype Ring = Ring(isPlaying: bool, intervalArmed: bool, firstTones: nat, secondTones: nat, pendingSecond: nat, contextCloses: nat)

  const RING_IDLE: Ring := Ring(false, false, 0, 0, 0, 0)

  /** `playTone`: while playing, start the 440 Hz tone and schedule the
      554 Hz one; otherwise do nothing. */
  function RingPlayTone(r: Ring): Ring {
    if r.isPlaying then r.(firstTones := r.firstTones + 1, pendingSecond := r.pendingSecond + 1)
    else r
  }

  /** A 200 ms timeout fires: the second tone sounds only if still playing. */
  function RingSecondTone(r: Ring): Ring
    requires r.pendingSecond > 0
  {
    r.(pendingSecond := r.pendingSecond - 1,
       secondTones := if r.isPlaying then r.secondTones + 1 else r.secondTones)
  }

  /** `start`: play at once and then every two seconds. */
  function StartRing(r: Ring): Ring {
    RingPlayTone(r.(isPlaying := true)).(intervalArmed := true)
  }

  /** `stop`: silence, clear the repeat and close the audio context. */
  function StopRing(r: Ring): Ring {
    r.(isPlaying := false, intervalArmed := false, contextCloses := r.contextCloses + 1)
  }

  /** The ringtone's invariant: the repeat is armed exactly while playing,
      and every second tone (sounded or pending) follows a first tone. */
  predicate RingGood(r: Ring) {
    (r.intervalArmed <==> r.isPlaying) && r.secondTones + r.pendingSecond <= r.firstTones
  }

  datatype RingEvent = Begin | End | Repeat | Second

  predicate RingEnabled(r: Ring, e: RingEvent) {
    match e
    case Repeat => r.intervalArmed
    case Second => r.pendingSecond > 0
    case _ => true
  }

  function RingStep(r: Ring, e: RingEvent): Ring
    requires RingEnabled(r, e)
  {
    match e
    case Begin => StartRing(r)
    case End => StopRing(r)
    case Repeat => RingPlayTone(r)
    case Second => RingSecondTone(r)
  }

  function RingRun(r: Ring, es: seq<RingEvent>): Ring
    decreases |es|
  {
    if |es| == 0 then r
    else RingRun(if RingEnabled(r, es[0]) then RingStep(r, es[0]) else r, es[1..])
  }

  lemma RingStepKeepsGood(r: Ring, e: RingEvent)
    requires RingGood(r) && RingEnabled(r, e)
    ensures RingGood(RingStep(r, e))
  {
  }

  /** Once stopped, the ringtone makes no further sound until it is started
      again, whatever timers still fire. */
  lemma {:induction false} SilentAfterStop(r: Ring, es: seq<RingEvent>)
    requires RingGood(r) && !r.isPlaying
    requires forall i | 0 <= i < |es| :: es[i] != Begin
    ensures RingGood(RingRun(r, es)) && !RingRun(r, es).isPlaying
    ensures RingRun(r, es).firstTones == r.firstTones && RingRun(r, es).secondTones == r.secondTones
    decreases |es|
  {
    if |es| > 0 {
      var r' := if RingEnabled(r, es[0]) then RingStep(r, es[0]) else r;
      if RingEnabled(r, es[0]) {
        RingStepKeepsGood(r, es[0]);
      }
      SilentAfterStop(r', es[1..]);
    }
  }

  /** Starting plays the first tone at once and arms the repeat; stopping
      is silent from then on. */
  lemma StartThenStop(r: Ring)
    requires RingGood(r) && !r.isPlaying
    ensures StartRing(r).isPlaying && StartRing(r).intervalArmed && StartRing(r).firstTones == r.firstTones + 1
    ensures RingGood(StartRing(r)) && RingGood(StopRing(StartRing(r)))
    ensures !StopRing(StartRing(r)).isPlaying && !StopRing(StartRing(r)).intervalArmed
  {
  }

  /** How many of the events are 2-second repeats. */
  function Repeats(es: seq<RingEvent>): nat
    decreases |es|
  {
    if |es| == 0 then 0 else (if es[0] == Repeat then 1 else 0) + Repeats(es[1..])
  }

  /** A started ringtone keeps sounding until it is stopped, whatever
      timers fire in between: every repeat starts another first tone. */
  lemma {:induction false} PlaysUntilStopped(r: Ring, es: seq<RingEvent>)
    requires RingGood(r) && r.isPlaying
    requires forall i | 0 <= i < |es| :: es[i] != End
    ensures RingGood(RingRun(r, es)) && RingRun(r, es).isPlaying && RingRun(r, es).intervalArmed
    ensures RingRun(r, es).firstTones >= r.firstTones + Repeats(es)
    decreases |es|
  {
    if |es| > 0 {
      var r' := if RingEnabled(r, es[0]) then RingStep(r, es[0]) else r;
      if RingEnabled(r, es[0]) {
        RingStepKeepsGood(r, es[0]);
      }
      PlaysUntilStopped(r', es[1..]);
    }
  }

  /** The object `createRingtone` returns: the state its closures share. */
  class Ringtone {
    var isPlaying: bool
    var intervalArmed: bool
    var firstTones: nat
    var secondTones: nat
    var pendingSecond: nat
    var contextCloses: nat

    function Model(): Ring
      reads this
    {
      Ring(isPlaying, intervalArmed, firstTones, secondTones, pendingSecond, contextCloses)
    }

    ghost predicate Valid()
      reads this
    {
      RingGood(Model())
    }

    constructor ()
      ensures Valid() && Model() == RING_IDLE
    {
      isPlaying, intervalArmed := false, false;
      firstTones, secondTones, pendingSecond, contextCloses := 0, 0, 0, 0;
    }

    /** Keeps the tone counts consistent; `start` calls it before the
      repeat is armed. */
    method PlayTone()
      requires secondTones + pendingSecond <= firstTones
      modifies this
      ensures secondTones + pendingSecond <= firstTones
      ensures Model() == RingPlayTone(old(Model()))
    {
      if isPlaying {
        firstTones := firstTones + 1;
        pendingSecond := pendingSecond + 1;
      }
    }

    method SecondToneFires()
      requires Valid() && pendingSecond > 0
      modifies this
      ensures Valid() && Model() == RingSecondTone(old(Model()))
    {
      pendingSecond := pendingSecond - 1;
      if isPlaying {
        secondTones := secondTones + 1;
      }
    }

    /** The 2-second repeat fires. */
    method RepeatFires()
      requires Valid() && intervalArmed
      modifies this
      ensures Valid() && Model() == RingPlayTone(old(Model()))
    {
      PlayTone();
    }

    method Start()
      requires Valid()
      modifies this
      ensures Valid() && Model() == StartRing(old(Model()))
    {
      isPlaying := true;
      PlayTone();
      intervalArmed := true;
    }

    method Stop()
      requires Valid()
      modifies this
      ensures Valid() && Model() == StopRing(old(Model()))
    {
      isPlaying := false;
      intervalArmed := false;
      contextCloses := contextCloses + 1;
    }
  }

  /** What the browser offers for sound. */
  datatype AudioSupport = NoAudioApi | ContextFails | AudioAvailable

  /** `createRingtone`: no ringtone without an audio-context constructor or
      when creating the context throws; otherwise an idle one. */
  method CreateRingtone(audio: AudioSupport) returns (r: Ringtone?)
    ensures r != null <==> audio == AudioAvailable
    ensures r != null ==> fresh(r) && r.Valid() && r.Model() == RING_IDLE
  {
    if audio == AudioAvailable {
      r := new Ringtone();
    } else {
      r := null;
    }
  }

  /** The calls made to `navigator.vibrate`. */
  datatype Vibration = RingPattern | VibrationOff

  /** `[500, 200, 500, 200, 500]`: buzz, pause, buzz, pause, buzz (ms). */
  const VIBRATE_PATTERN: seq<nat> := [500, 200, 500, 200, 500]

  const DEFAULT_SLIDER_WIDTH: nat := 300
  const KNOB_WIDTH: nat := 80
  const ANSWER_MARGIN: nat := 100

  /** `sliderRef.current?.offsetWidth || 300`: an unmeasured track, or one
      whose width is 0, counts as 300 wide. */
  function SliderWidth(measured: Option<nat>): (w: nat)
    ensures w > 0
    ensures measured.Some? && measured.value > 0 ==> w == measured.value
  {
    if measured.Some? && measured.value != 0 then measured.value else DEFAULT_SLIDER_WIDTH
  }

  /** `handleDrag`: the knob follows the finger, clamped to
      `[0, width - 80]`. */
  function KnobPosition(offsetX: int, width: nat): int {
    var m := if 0 > offsetX then 0 else offsetX;
    if m < width - KNOB_WIDTH then m else width - KNOB_WIDTH
  }

  /** `handleDragEnd`: the call is answered when the drag ends at least
      `width - 100` to the right. */
  predicate AnswersAt(offsetX: int, width: nat) {
    offsetX >= width - ANSWER_MARGIN
  }

  /** On a track at least as wide as the knob the knob stays on the track;
      it follows the finger exactly while the finger is on the track. */
  lemma KnobStaysOnTrack(offsetX: int, width: nat)
    requires width >= KNOB_WIDTH
    ensures 0 <= KnobPosition(offsetX, width) <= width - KNOB_WIDTH
    ensures 0 <= offsetX <= width - KNOB_WIDTH <==> KnobPosition(offsetX, width) == offsetX
  {
  }

  /** Sliding the knob to the end of the track is far enough to answer, and
      releasing near the start is not. */
  lemma FullTravelAnswers(offsetX: int, width: nat)
    ensures offsetX >= width - KNOB_WIDTH ==> AnswersAt(offsetX, width)
    ensures offsetX < width - ANSWER_MARGIN ==> !AnswersAt(offsetX, width)
    ensures AnswersAt(width - ANSWER_MARGIN, width)
  {
  }

  /** The screen component. `vibrationArmed` is the 2-second vibration
      interval, `guardsAttached` the `popstate` and `beforeunload`
      listeners, `historyPushes` the entries pushed to block going back, and
      `capturedVibrating` the `isVibrating` the mount effect closed over. */
  class IncomingScreen {
    const hasVibrate: bool
    var mounted: bool
    var sliderX: int
    var isVibrating: bool
    var capturedVibrating: bool
    var ringtone: Ringtone?
    var vibrationArmed: bool
    var guardsAttached: bool
    var historyPushes: nat
    var vibrations: seq<Vibration>
    var answerRequests: nat
    var declineRequests: nat

    ghost predicate Valid()
      reads this, ringtone
    {
      && (ringtone != null ==> ringtone.Valid())
      && (!mounted ==> ringtone == null && !vibrationArmed && !guardsAttached)
      && (mounted ==> vibrationArmed && guardsAttached)
    }

    constructor (hasVibrate: bool)
      ensures Valid() && this.hasVibrate == hasVibrate && !mounted
      ensures sliderX == 0 && isVibrating && ringtone == null && historyPushes == 0
      ensures vibrations == [] && answerRequests == 0 && declineRequests == 0
    {
      this.hasVibrate := hasVibrate;
      mounted := false;
      sliderX := 0;
      isVibrating := true;
      capturedVibrating := true;
      ringtone := null;
      vibrationArmed := false;
      guardsAttached := false;
      historyPushes := 0;
      vibrations := [];
      answerRequests, declineRequests := 0, 0;
    }

    /** `vibratePattern` as the mount effect captured it. */
    method VibratePattern()
      modifies this`vibrations
      ensures vibrations == old(vibrations) + (if hasVibrate && capturedVibrating then [RingPattern] else [])
    {
      if hasVibrate && capturedVibrating {
        vibrations := vibrations + [RingPattern];
      }
    }

    /** The mount effect: create and start the ringtone, vibrate now and
      every two seconds, and guard against leaving the page. */
    method Mount(audio: AudioSupport)
      requires Valid() && !mounted
      modifies this
      ensures Valid() && mounted
      ensures (ringtone != null) == (audio == AudioAvailable)
      ensures ringtone != null ==> fresh(ringtone) && ringtone.Model() == StartRing(RING_IDLE)
      ensures capturedVibrating == isVibrating == old(isVibrating)
      ensures vibrations == old(vibrations) + (if hasVibrate && isVibrating then [RingPattern] else [])
      ensures historyPushes == old(historyPushes) + 1
      ensures sliderX == old(sliderX) && answerRequests == old(answerRequests) && declineRequests == old(declineRequests)
    {
      var r := CreateRingtone(audio);
      ringtone := r;
      if r != null {
        r.Start();
      }
      capturedVibrating := isVibrating;
      VibratePattern();
      vibrationArmed := true;
      historyPushes := historyPushes + 1;
      guardsAttached := true;
      mounted := true;
    }

    /** The vibration interval fires. */
    method VibrationTick()
      requires Valid() && vibrationArmed
      modifies this`vibrations
      ensures Valid()
      ensures vibrations == old(vibrations) + (if hasVibrate && capturedVibrating then [RingPattern] else [])
    {
      VibratePattern();
    }

    /** The browser's back button: the guard pushes the page again. */
    method PopState()
      requires Valid() && guardsAttached
      modifies this`historyPushes
      ensures Valid() && historyPushes == old(historyPushes) + 1
    {
      historyPushes := historyPushes + 1;
    }

    /** `handleDrag` with the finger `offsetX` pixels right of the start. */
    method HandleDrag(offsetX: int, measured: Option<nat>)
      requires Valid() && mounted
      modifies this`sliderX
      ensures Valid() && sliderX == KnobPosition(offsetX, SliderWidth(measured))
    {
      var width := SliderWidth(measured);
      var m := if 0 > offsetX then 0 else offsetX;
      sliderX := if m < width - KNOB_WIDTH then m else width - KNOB_WIDTH;
    }

    /** `handleDragEnd`: far enough answers (silencing the ringtone), not
      far enough snaps the knob back. */
    method HandleDragEnd(offsetX: int, measured: Option<nat>)
      requires Valid() && mounted
      modifies this, ringtone
      ensures Valid() && ringtone == old(ringtone) && mounted
      ensures AnswersAt(offsetX, SliderWidth(measured)) ==>
        !isVibrating && answerRequests == old(answerRequests) + 1 && sliderX == old(sliderX) &&
        (ringtone != null ==> ringtone.Model() == StopRing(old(ringtone.Model())))
      ensures !AnswersAt(offsetX, SliderWidth(measured)) ==>
        sliderX == 0 && isVibrating == old(isVibrating) && answerRequests == old(answerRequests) &&
        (ringtone != null ==> ringtone.Model() == old(ringtone.Model()))
      ensures vibrations == old(vibrations) && declineRequests == old(declineRequests)
      ensures capturedVibrating == old(capturedVibrating) && historyPushes == old(historyPushes)
      ensures vibrationArmed == old(vibrationArmed) && guardsAttached == old(guardsAttached)
    {
      var width := SliderWidth(measured);
      if offsetX >= width - ANSWER_MARGIN {
        isVibrating := false;
        if ringtone != null {
          ringtone.Stop();
        }
        answerRequests := answerRequests + 1;
      } else {
        sliderX := 0;
      }
    }

    /** `handleDecline`: silence the ringtone and the vibration, then decline. */
    method HandleDecline()
      requires Valid() && mounted
      modifies this, ringtone
      ensures Valid() && ringtone == old(ringtone) && mounted
      ensures !isVibrating && declineRequests == old(declineRequests) + 1
      ensures ringtone != null ==> ringtone.Model() == StopRing(old(ringtone.Model()))
      ensures vibrations == old(vibrations) + (if hasVibrate then [VibrationOff] else [])
      ensures sliderX == old(sliderX) && answerRequests == old(answerRequests)
      ensures capturedVibrating == old(capturedVibrating) && historyPushes == old(historyPushes)
      ensures vibrationArmed == old(vibrationArmed) && guardsAttached == old(guardsAttached)
    {
      isVibrating := false;
      if ringtone != null {
        ringtone.Stop();
      }
      if hasVibrate {
        vibrations := vibrations + [VibrationOff];
      }
      declineRequests := declineRequests + 1;
    }

    /** The mount effect depends on `isVibrating`, so when answering or
      declining sets it to false while the screen is still shown (the exit
      animation of the call flow keeps it mounted), React runs the cleanup
      and then the effect again: the stopped ringtone is dropped and a NEW
      ringtone is created and started, which plays until the screen goes
      away; the page is pushed onto the history again and the guards are
      re-attached. The new pattern does not vibrate, since the effect now
      sees `isVibrating` false. */
    method VibratingChanged(audio: AudioSupport)
      requires Valid() && mounted && isVibrating != capturedVibrating
      modifies this, ringtone
      ensures Valid() && mounted
      ensures old(ringtone) != null ==> old(ringtone).Model() == StopRing(old(ringtone.Model()))
      ensures (ringtone != null) == (audio == AudioAvailable)
      ensures ringtone != null ==> fresh(ringtone) && ringtone.Model() == StartRing(RING_IDLE) && ringtone.Model().isPlaying
      ensures capturedVibrating == isVibrating == old(isVibrating)
      ensures vibrations == old(vibrations) + (if hasVibrate then [VibrationOff] else [])
                            + (if hasVibrate && isVibrating then [RingPattern] else [])
      ensures historyPushes == old(historyPushes) + 1
      ensures vibrationArmed && guardsAttached
      ensures sliderX == old(sliderX) && answerRequests == old(answerRequests) && declineRequests == old(declineRequests)
    {
      Unmount();
      Mount(audio);
    }

    /** The effect's cleanup when the screen goes away: stop and drop the
      ringtone, stop vibrating, clear the interval and remove the guards.
      A ringtone already stopped by answering or declining is stopped (and
      its context closed) a second time. */
    method Unmount()
      requires Valid() && mounted
      modifies this, ringtone
      ensures Valid() && !mounted && ringtone == null
      ensures old(ringtone) != null ==> old(ringtone).Model() == StopRing(old(ringtone.Model()))
      ensures vibrations == old(vibrations) + (if hasVibrate then [VibrationOff] else [])
      ensures !vibrationArmed && !guardsAttached
      ensures sliderX == old(sliderX) && isVibrating == old(isVibrating) && historyPushes == old(historyPushes)
      ensures answerRequests == old(answerRequests) && declineRequests == old(declineRequests)
    {
      if ringtone != null {
        ringtone.Stop();
        ringtone := null;
      }
      if hasVibrate {
        vibrations := vibrations + [VibrationOff];
      }
      vibrationArmed := false;
      guardsAttached := false;
      mounted := false;
    }
  }
}
