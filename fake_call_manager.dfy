/** The decoy-call controller: a five-state machine that moves
    setup → (waiting →) incoming → active → ended, with a per-second
    countdown while waiting. Every operation yields the state after React has
    re-run the countdown effect, so a countdown that reaches zero has already
    turned into an incoming call. The delayed `onClose` is counted, not timed. */
module FakeCallManager {
  import opened Base
  import opened FakeCallSetup

  datatype CallState = Setup | Waiting | Incoming | Active | Ended

  /** The manager's state cells: `callState`, `callConfig`, `countdown`, and
      how many times it has asked its parent to close. */
  datatype Manager = Manager(callState: CallState, callConfig: Option<CallConfig>, countdown: nat, closeRequests: nat)

  const INITIAL: Manager := Manager(Setup, None, 0, 0)

  /** A one-second timer is pending exactly while waiting with time left. */
  predicate TimerPending(m: Manager) {
    m.callState == Waiting && m.countdown > 0
  }

  /** `handleScheduleCall`: store the configuration; a zero delay rings at
      once, any other delay starts the countdown. */
  function ScheduleCall(m: Manager, config: CallConfig): Manager {
    if config.delaySeconds == 0 then
      m.(callConfig := Some(config), callState := Incoming)
    else
      m.(callConfig := Some(config), countdown := config.delaySeconds, callState := Waiting)
  }

  /** One second elapses: the pending timer lowers the countdown by one, and
      the effect turns a countdown of zero into an incoming call. Without a
      pending timer nothing happens. */
  function Tick(m: Manager): Manager {
    if TimerPending(m) then
      if m.countdown - 1 == 0 then m.(countdown := 0, callState := Incoming)
      else m.(countdown := m.countdown - 1)
    else m
  }

  /** `handleAnswer`. */
  function Answer(m: Manager): Manager {
    m.(callState := Active)
  }

  /** `handleEndCall`, used for both decline and hang-up: end the call and
      schedule one `onClose`. */
  function EndCall(m: Manager): Manager {
    m.(callState := Ended, closeRequests := m.closeRequests + 1)
  }

  /** `handleBackFromSetup`: ask to close, leaving the state alone. */
  function BackFromSetup(m: Manager): Manager {
    m.(closeRequests := m.closeRequests + 1)
  }

  /** `handleCancelWaiting`: clear the timer, back to setup, countdown zero. */
  function CancelWaiting(m: Manager): Manager {
    m.(callState := Setup, countdown := 0)
  }

  /** What the user and the clock can do. */
  datatype Event = Schedule(config: CallConfig) | Second | AnswerCall | EndOrDecline | Back | CancelWait

  /** An event is possible only while the screen that wires it is shown: the
      setup screen offers Schedule and Back, the waiting screen Cancel, the
      incoming and active screens (rendered only with a configuration)
      answer and end. The clock may tick at any time. */
  predicate Enabled(m: Manager, e: Event) {
    match e
    case Schedule(_) => m.callState == Setup
    case Back => m.callState == Setup
    case CancelWait => m.callState == Waiting
    case AnswerCall => m.callState == Incoming && m.callConfig.Some?
    case EndOrDecline => (m.callState == Incoming || m.callState == Active) && m.callConfig.Some?
    case Second => true
  }

  function Step(m: Manager, e: Event): Manager {
    match e
    case Schedule(c) => ScheduleCall(m, c)
    case Second => Tick(m)
    case AnswerCall => Answer(m)
    case EndOrDecline => EndCall(m)
    case Back => BackFromSetup(m)
    case CancelWait => CancelWaiting(m)
  }

  /** Delivers the events in order; an event whose button is not on screen
      is dropped. */
  function Run(m: Manager, es: seq<Event>): Manager
    decreases |es|
  {
    if |es| == 0 then m
    else Run(if Enabled(m, es[0]) then Step(m, es[0]) else m, es[1..])
  }

  /** `n` seconds elapse. */
  function Ticks(m: Manager, n: nat): Manager
    decreases n
  {
    if n == 0 then m else Ticks(Tick(m), n - 1)
  }

  /** The invariant of every reachable state: the countdown is non-zero
      exactly while waiting, and the waiting, incoming and active states
      always have a configuration to show. */
  predicate Good(m: Manager) {
    && (m.countdown > 0 <==> m.callState == Waiting)
    && (m.callState in {Waiting, Incoming, Active} ==> m.callConfig.Some?)
  }

  /** Every enabled event keeps the invariant. */
  lemma StepKeepsGood(m: Manager, e: Event)
    requires Good(m) && Enabled(m, e)
    ensures Good(Step(m, e))
  {
  }

  /** Every state reachable from the initial one satisfies the invariant. */
  lemma {:induction false} RunKeepsGood(m: Manager, es: seq<Event>)
    requires Good(m)
    ensures Good(Run(m, es))
    decreases |es|
  {
    if |es| > 0 {
      var m' := if Enabled(m, es[0]) then Step(m, es[0]) else m;
      if Enabled(m, es[0]) {
        StepKeepsGood(m, es[0]);
      }
      RunKeepsGood(m', es[1..]);
    }
  }

  /** While waiting, `k` seconds lower the countdown by exactly `k` as long as
      some time is left; it never goes below zero. */
  lemma {:induction false} TicksCountDown(m: Manager, k: nat)
    requires m.callState == Waiting && k < m.countdown
    ensures Ticks(m, k) == m.(countdown := m.countdown - k)
    decreases k
  {
    if k > 0 {
      TicksCountDown(Tick(m), k - 1);
    }
  }

  /** Scheduling with delay `n` > 0 rings after exactly `n` seconds: before
      that the call is still waiting with `n - k` seconds to go. */
  lemma ScheduledCallRingsAfterDelay(m: Manager, config: CallConfig, k: nat)
    requires m.callState == Setup && config.delaySeconds > 0
    ensures k < config.delaySeconds ==>
      Ticks(ScheduleCall(m, config), k).callState == Waiting &&
      Ticks(ScheduleCall(m, config), k).countdown == config.delaySeconds - k
    ensures Ticks(ScheduleCall(m, config), config.delaySeconds).callState == Incoming
    ensures Ticks(ScheduleCall(m, config), config.delaySeconds).callConfig == Some(config)
  {
    var w := ScheduleCall(m, config);
    var n := config.delaySeconds;
    if k < n {
      TicksCountDown(w, k);
    }
    TicksCountDown(w, n - 1);
    var last := Ticks(w, n - 1);
    assert last.countdown == 1 && last.callState == Waiting;
    TicksSplit(w, n - 1, 1);
  }

  /** Seconds add up. */
  lemma {:induction false} TicksSplit(m: Manager, a: nat, b: nat)
    ensures Ticks(m, a + b) == Ticks(Ticks(m, a), b)
    decreases a
  {
    if a > 0 {
      TicksSplit(Tick(m), a - 1, b);
    }
  }

  /** A tick changes nothing outside the waiting state. */
  lemma TickOnlyWhileWaiting(m: Manager)
    requires m.callState != Waiting
    ensures Tick(m) == m
  {
  }

  /** Scheduling stores the configuration; a zero delay goes straight to
      the incoming call, any other delay waits with the full countdown. */
  lemma ScheduleOutcome(m: Manager, config: CallConfig)
    ensures ScheduleCall(m, config).callConfig == Some(config)
    ensures config.delaySeconds == 0 <==> ScheduleCall(m, config).callState == Incoming
    ensures config.delaySeconds > 0 ==> ScheduleCall(m, config).countdown == config.delaySeconds
  {
  }

  /** `ended` is final: no sequence of events leaves it, and no further
      close is requested, so ending a call asks to close exactly once. */
  lemma {:induction false} EndedIsFinal(m: Manager, es: seq<Event>)
    requires m.callState == Ended
    ensures Run(m, es) == m
    decreases |es|
  {
    if |es| > 0 {
      assert !Enabled(m, es[0]) || Step(m, es[0]) == m;
      EndedIsFinal(m, es[1..]);
    }
  }

  /** Only scheduling leaves the setup state; Back asks to close and stays. */
  lemma LeavingSetup(m: Manager, e: Event)
    requires m.callState == Setup && Enabled(m, e)
    ensures Step(m, e).callState != Setup ==> e.Schedule?
    ensures e == Back ==> Step(m, e).callState == Setup && Step(m, e).closeRequests == m.closeRequests + 1
  {
  }

  /** The manager component. `timerPending` stands for `timerRef`'s armed
      timeout. */
  class CallManager {
    var callState: CallState
    var callConfig: Option<CallConfig>
    var countdown: nat
    var closeRequests: nat
    var timerPending: bool

    function Model(): Manager
      reads this
    {
      Manager(callState, callConfig, countdown, closeRequests)
    }

    ghost predicate Valid()
      reads this
    {
      Good(Model()) && timerPending == TimerPending(Model())
    }

    constructor ()
      ensures Valid() && Model() == INITIAL && !timerPending
    {
      callState, callConfig, countdown, closeRequests := Setup, None, 0, 0;
      timerPending := false;
    }

    method HandleScheduleCall(config: CallConfig)
      requires Valid() && callState == Setup
      modifies this
      ensures Valid() && Model() == ScheduleCall(old(Model()), config)
      ensures timerPending == (config.delaySeconds > 0)
    {
      callConfig := Some(config);
      if config.delaySeconds == 0 {
        callState := Incoming;
      } else {
        countdown := config.delaySeconds;
        callState := Waiting;
        timerPending := true;
      }
    }

    /** The countdown timer fires. */
    method TimerFires()
      requires Valid()
      modifies this
      ensures Valid() && Model() == Tick(old(Model()))
    {
      if callState == Waiting && countdown > 0 {
        countdown := countdown - 1;
        timerPending := countdown > 0;
        if countdown == 0 {
          callState := Incoming;
        }
      }
    }

    method HandleAnswer()
      requires Valid() && callState == Incoming && callConfig.Some?
      modifies this
      ensures Valid() && Model() == Answer(old(Model()))
    {
      callState := Active;
    }

    method HandleEndCall()
      requires Valid() && (callState == Incoming || callState == Active) && callConfig.Some?
      modifies this
      ensures Valid() && Model() == EndCall(old(Model()))
    {
      callState := Ended;
      closeRequests := closeRequests + 1;
    }

    method HandleBackFromSetup()
      requires Valid() && callState == Setup
      modifies this
      ensures Valid() && Model() == BackFromSetup(old(Model()))
    {
      closeRequests := closeRequests + 1;
    }

    method HandleCancelWaiting()
      requires Valid() && callState == Waiting
      modifies this
      ensures Valid() && Model() == CancelWaiting(old(Model())) && !timerPending
    {
      timerPending := false;
      callState := Setup;
      countdown := 0;
    }
  }
}
