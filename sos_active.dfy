/** The SOS screen: a five-second countdown after which the alert is live,
    and a slide-to-cancel control that cancels the alert (live or not) once
    it is dragged past 90. Each operation yields the state after the
    countdown effect has re-run, so a countdown of zero is already live. */
module SOSActive {

  const COUNTDOWN_SECONDS: nat := 5
  const CANCEL_THRESHOLD: int := 90

  /** The screen's state cells and how many times it called `onCancel`. */
  datatype Sos = Sos(timeLeft: nat, isLive: bool, sliderValue: int, cancelRequests: nat)

  const INITIAL: Sos := Sos(COUNTDOWN_SECONDS, false, 0, 0)

  /** One second elapses: the armed timer lowers `timeLeft`; the effect
      marks the alert live once `timeLeft` is zero. */
  function Tick(s: Sos): Sos {
    if s.timeLeft > 0 then
      var t := s.timeLeft - 1;
      s.(timeLeft := t, isLive := s.isLive || t == 0)
    else s.(isLive := true)
  }

  /** `handleSliderChange`: the range input reports `v` in 0..100; past 90
      the alert is cancelled, whether or not it is live yet. */
  function SliderChange(s: Sos, v: int): Sos
    requires 0 <= v <= 100
  {
    s.(sliderValue := v, cancelRequests := if v > CANCEL_THRESHOLD then s.cancelRequests + 1 else s.cancelRequests)
  }

  /** Lifting the finger or the mouse snaps the slider back. */
  function Release(s: Sos): Sos {
    s.(sliderValue := 0)
  }

  /** The heading the screen shows. */
  function Heading(s: Sos): (r: string)
    ensures r == "ALERT SENT" <==> s.isLive
  {
    if s.isLive then "ALERT SENT" else "SENDING ALERT"
  }

  datatype Event = Second | Slide(v: int) | LetGo

  predicate EventOk(e: Event) {
    e.Slide? ==> 0 <= e.v <= 100
  }

  function Step(s: Sos, e: Event): Sos
    requires EventOk(e)
  {
    match e
    case Second => Tick(s)
    case Slide(v) => SliderChange(s, v)
    case LetGo => Release(s)
  }

  function Run(s: Sos, es: seq<Event>): Sos
    requires forall i | 0 <= i < |es| :: EventOk(es[i])
    decreases |es|
  {
    if |es| == 0 then s else Run(Step(s, es[0]), es[1..])
  }

  /** The invariant: the alert is live exactly when the countdown is over,
      and the slider stays within the input's range. */
  predicate Good(s: Sos) {
    (s.isLive <==> s.timeLeft == 0) && 0 <= s.sliderValue <= 100
  }

  lemma InitialGood()
    ensures Good(INITIAL) && !INITIAL.isLive
  {
  }

  /** Every event keeps the invariant, and a live alert stays live. */
  lemma StepKeepsGood(s: Sos, e: Event)
    requires Good(s) && EventOk(e)
    ensures Good(Step(s, e))
    ensures s.isLive ==> Step(s, e).isLive
  {
  }

  /** Along any run the invariant holds and liveness is never withdrawn;
      cancel requests only accumulate. */
  lemma {:induction false} RunKeepsGood(s: Sos, es: seq<Event>)
    requires Good(s)
    requires forall i | 0 <= i < |es| :: EventOk(es[i])
    ensures Good(Run(s, es))
    ensures s.isLive ==> Run(s, es).isLive
    ensures Run(s, es).cancelRequests >= s.cancelRequests
    decreases |es|
  {
    if |es| > 0 {
      StepKeepsGood(s, es[0]);
      RunKeepsGood(Step(s, es[0]), es[1..]);
    }
  }

  function Ticks(s: Sos, n: nat): Sos
    decreases n
  {
    if n == 0 then s else Ticks(Tick(s), n - 1)
  }

  /** `k` seconds take `k` off the countdown, never below zero, and the
      alert is live exactly when it has run out. */
  lemma {:induction false} TicksCountDown(s: Sos, k: nat)
    requires Good(s)
    ensures Ticks(s, k).timeLeft == if k < s.timeLeft then s.timeLeft - k else 0
    ensures Ticks(s, k).isLive <==> k >= s.timeLeft
    ensures Ticks(s, k).sliderValue == s.sliderValue && Ticks(s, k).cancelRequests == s.cancelRequests
    decreases k
  {
    if k > 0 {
      StepKeepsGood(s, Second);
      TicksCountDown(Tick(s), k - 1);
    }
  }

  /** From a fresh screen the alert goes live after exactly five seconds. */
  lemma LiveAfterFiveSeconds(k: nat)
    ensures Ticks(INITIAL, k).isLive <==> k >= COUNTDOWN_SECONDS
  {
    TicksCountDown(INITIAL, k);
  }

  /** A slide cancels exactly when it passes 90. */
  lemma SlideCancelsPastThreshold(s: Sos, v: int)
    requires 0 <= v <= 100
    ensures SliderChange(s, v).cancelRequests == s.cancelRequests + 1 <==> v > CANCEL_THRESHOLD
    ensures SliderChange(s, v).timeLeft == s.timeLeft && SliderChange(s, v).isLive == s.isLive
  {
  }

  /** The screen component. `timerPending` stands for the armed timeout of
      the countdown effect. */
  class SosScreen {
    var timeLeft: nat
    var isLive: bool
    var sliderValue: int
    var cancelRequests: nat
    var timerPending: bool

    function Model(): Sos
      reads this
    {
      Sos(timeLeft, isLive, sliderValue, cancelRequests)
    }

    ghost predicate Valid()
      reads this
    {
      Good(Model()) && timerPending == (timeLeft > 0)
    }

    /** Mounting arms the first timer. */
    constructor ()
      ensures Valid() && Model() == INITIAL && timerPending
    {
      timeLeft, isLive, sliderValue, cancelRequests := COUNTDOWN_SECONDS, false, 0, 0;
      timerPending := true;
    }

    /** The countdown timer fires. */
    method TimerFires()
      requires Valid() && timerPending
      modifies this
      ensures Valid() && Model() == Tick(old(Model()))
    {
      timeLeft := timeLeft - 1;
      if timeLeft == 0 {
        isLive := true;
        timerPending := false;
      }
    }

    method HandleSliderChange(v: int)
      requires Valid() && 0 <= v <= 100
      modifies this
      ensures Valid() && Model() == SliderChange(old(Model()), v)
      ensures timerPending == old(timerPending)
    {
      sliderValue := v;
      if v > CANCEL_THRESHOLD {
        cancelRequests := cancelRequests + 1;
      }
    }

    method HandleRelease()
      requires Valid()
      modifies this
      ensures Valid() && Model() == Release(old(Model()))
      ensures timerPending == old(timerPending)
    {
      sliderValue := 0;
    }
  }
}
