/** The answered decoy call: a running call timer shown as `MM:SS`, the
    mute, speaker and keypad controls, and a guard against going back. The
    clock is a parameter (milliseconds, as `Date.now()` gives them). */
module FakeCallActive {
  import opened Base
  import Decimal

  /** `formatDuration`: the call time as padded minutes and seconds. The
      text reads back as the number it shows and is five characters long
      until the call reaches 100 minutes; from then on the minutes are
      written in full, without padding. */
  function FormatDuration(seconds: nat): (r: string)
    ensures Decimal.ParseMinutesSeconds(r) == Some(seconds)
    ensures |r| == 5 <==> seconds < 6000
    ensures r[|r| - 3] == ':'
    ensures r[0] == '0' <==> seconds < 600
    ensures seconds >= 6000 ==> r[..|r| - 3] == Decimal.NatToString(seconds / 60)
  {
    Decimal.MinutesSecondsRoundTrip(seconds);
    Decimal.TwoDigitsValue(seconds % 60);
    Decimal.MinutesSeconds(seconds)
  }

  /** `Math.floor((now - start) / 1000)`: whole seconds since the call
      started. */
  function ElapsedSeconds(start: int, now: int): (r: nat)
    requires start <= now
    ensures 1000 * r <= now - start < 1000 * r + 1000
  {
    (now - start) / 1000
  }

  /** The shown duration never goes backwards while the clock moves forward. */
  lemma ElapsedMonotone(start: int, now1: int, now2: int)
    requires start <= now1 <= now2
    ensures ElapsedSeconds(start, now1) <= ElapsedSeconds(start, now2)
  {
    var a, b := ElapsedSeconds(start, now1), ElapsedSeconds(start, now2);
    assert 1000 * a <= now1 - start <= now2 - start < 1000 * b + 1000;
  }

  /** The keys of the on-screen keypad, in grid order. */
  const KEYPAD_KEYS: seq<char> := ['1', '2', '3', '4', '5', '6', '7', '8', '9', '*', '0', '#']

  /** The mute button's caption follows the mute state. */
  function MuteCaption(isMuted: bool): (r: string)
    ensures r == "Unmute" <==> isMuted
  {
    if isMuted then "Unmute" else "Mute"
  }

  /** The screen component. `haptics` counts the 30 ms key-press buzzes,
      `endRequests` the calls of `onEndCall`. */
  class ActiveScreen {
    const hasVibrate: bool
    var callDuration: nat
    var isMuted: bool
    var isSpeaker: bool
    var isKeypadVisible: bool
    var startTime: int
    var timerArmed: bool
    var guardAttached: bool
    var historyPushes: nat
    var haptics: nat
    var endRequests: nat

    ghost predicate Valid()
      reads this
    {
      timerArmed == guardAttached
    }

    /** The first render, with the clock at `now`. */
    constructor (hasVibrate: bool, now: int)
      ensures Valid() && this.hasVibrate == hasVibrate
      ensures callDuration == 0 && !isMuted && !isSpeaker && !isKeypadVisible
      ensures startTime == now && !timerArmed && historyPushes == 0 && haptics == 0 && endRequests == 0
    {
      this.hasVibrate := hasVibrate;
      callDuration := 0;
      isMuted, isSpeaker, isKeypadVisible := false, false, false;
      startTime := now;
      timerArmed, guardAttached := false, false;
      historyPushes, haptics, endRequests := 0, 0, 0;
    }

    /** The mount effect: restart the clock, arm the one-second timer and
      block the back button. */
    method Mount(now: int)
      requires Valid() && !timerArmed
      modifies this`startTime, this`timerArmed, this`guardAttached, this`historyPushes
      ensures Valid() && timerArmed && startTime == now
      ensures historyPushes == old(historyPushes) + 1
    {
      startTime := now;
      timerArmed := true;
      historyPushes := historyPushes + 1;
      guardAttached := true;
    }

    /** The timer fires with the clock at `now`. */
    method TimerFires(now: int)
      requires Valid() && timerArmed && startTime <= now
      modifies this`callDuration
      ensures Valid() && callDuration == ElapsedSeconds(startTime, now)
      ensures 1000 * callDuration <= now - startTime < 1000 * callDuration + 1000
    {
      callDuration := (now - startTime) / 1000;
    }

    /** The text the timer shows. */
    function DurationText(): (r: string)
      reads this
      ensures Decimal.ParseMinutesSeconds(r) == Some(callDuration)
    {
      FormatDuration(callDuration)
    }

    method PopState()
      requires Valid() && guardAttached
      modifies this`historyPushes
      ensures Valid() && historyPushes == old(historyPushes) + 1
    {
      historyPushes := historyPushes + 1;
    }

    method ToggleMute()
      requires Valid()
      modifies this`isMuted
      ensures Valid() && isMuted == !old(isMuted)
    {
      isMuted := !isMuted;
    }

    method ToggleSpeaker()
      requires Valid()
      modifies this`isSpeaker
      ensures Valid() && isSpeaker == !old(isSpeaker)
    {
      isSpeaker := !isSpeaker;
    }

    method ToggleKeypad()
      requires Valid()
      modifies this`isKeypadVisible
      ensures Valid() && isKeypadVisible == !old(isKeypadVisible)
    {
      isKeypadVisible := !isKeypadVisible;
    }

    /** The keypad's Hide button. */
    method HideKeypad()
      requires Valid() && isKeypadVisible
      modifies this`isKeypadVisible
      ensures Valid() && !isKeypadVisible
    {
      isKeypadVisible := false;
    }

    /** A keypad key: only a short buzz, nothing is dialled. */
    method PressKey(key: char)
      requires Valid() && isKeypadVisible && key in KEYPAD_KEYS
      modifies this`haptics
      ensures Valid() && haptics == old(haptics) + (if hasVibrate then 1 else 0)
    {
      if hasVibrate {
        haptics := haptics + 1;
      }
    }

    method EndCall()
      requires Valid()
      modifies this`endRequests
      ensures Valid() && endRequests == old(endRequests) + 1
    {
      endRequests := endRequests + 1;
    }

    /** The cleanup: the timer and the guard go away. */
    method Unmount()
      requires Valid() && timerArmed
      modifies this`timerArmed, this`guardAttached
      ensures Valid() && !timerArmed && !guardAttached
    {
      timerArmed := false;
      guardAttached := false;
    }
  }
}
