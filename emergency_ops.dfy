/** The emergency operations screen: a chat-like message log, filled by the
    five introductory messages, the user's own messages, guardian replies,
    call requests, photo evidence and the "marked safe" notice; a battery
    level drained every 30 seconds; and a confirmation before marking safe.
    Every delayed callback is a pending count released by its own event,
    the clock reading (for message ids) is a parameter, and so is the
    random choice of reply. */
module EmergencyOps {
  import opened Base
  import Text
  import Decimal

  datatype MessageKind = SystemMessage | GuardianMessage | AiMessage | UserMessage

  datatype AlertLevel = Critical | Warning | Info

  /** A log entry; timestamps and avatars are not modelled. */
  datatype Message = Message(id: string, kind: MessageKind, sender: Option<string>, content: string, alertLevel: Option<AlertLevel>)

  const INITIAL_BATTERY: int := 14
  const INTRO_COUNT: nat := 5

  const INTRO_MESSAGES: seq<Message> := [
    Message("1", SystemMessage, None, "CRITICAL: SOS TRIGGERED VIA VOICE COMMAND.\nAudio Clip Recorded & Uploaded.", Some(Critical)),
    Message("2", SystemMessage, None, "Real-time location shared with 3 Guardians & DURGA Ops.", Some(Info)),
    Message("3", GuardianMessage, Some("Dad"), "I see your location. Calling the police now! Stay on the line.", None),
    Message("4", AiMessage, None, "Closest Safe Zone is Sector 5 Police Station (0.4 miles).", None),
    Message("5", GuardianMessage, Some("Mom"), "Are you safe to talk? We are driving towards you.", None)
  ]

  const GUARDIAN_RESPONSES: seq<string> := [
    "Stay calm, we're on our way!",
    "Keep sharing your location. Help is coming.",
    "We can see you're moving. Stay in well-lit areas.",
    "Police have been notified. ETA 5 minutes."
  ]

  const CALL_REQUEST_TEXT: string := "CALL REQUEST sent to all Guardians. Awaiting response..."
  const CALLING_BACK_TEXT: string := "\U{1F4DE} Calling you now..."
  const EVIDENCE_TEXT: string := "EVIDENCE: Photo captured and uploaded to secure servers."
  const MARKED_SAFE_TEXT: string := "USER MARKED SAFE. Emergency mode deactivated. All guardians notified."

  /** Where the safe-zone button sends the browser. */
  const SAFE_ZONE_URL: string := "https://www.google.com/maps/dir/?api=1&destination=police+station+near+me"

  /** `Math.max(1, prev - 1)`: one percent less, never below one. */
  function DrainBattery(level: int): (r: int)
    ensures r >= 1
    ensures level >= 2 ==> r == level - 1
    ensures level <= 2 ==> r == 1
  {
    if 1 > level - 1 then 1 else level - 1
  }

  function Drains(level: int, k: nat): int
    decreases k
  {
    if k == 0 then level else Drains(DrainBattery(level), k - 1)
  }

  /** After `k` drain ticks a level of at least one has lost `k` percent,
      but stops at one. */
  lemma {:induction false} DrainsToFloor(level: int, k: nat)
    requires level >= 1
    ensures Drains(level, k) == if level - k >= 1 then level - k else 1
    decreases k
  {
    if k > 0 {
      DrainsToFloor(DrainBattery(level), k - 1);
    }
  }

  /** The screen's state: the log, the input, the battery, how many intro
      messages have appeared, the pending reply and call-back timeouts, the
      confirmation dialog, the pending `onMarkSafe` timeout and how many
      times `onMarkSafe` was called. */
  datatype Ops = Ops(
    messages: seq<Message>, inputText: string, batteryLevel: int,
    introDelivered: nat, pendingReplies: nat, pendingCallBacks: nat,
    showSafeConfirm: bool, pendingMarkSafe: nat, markSafeRequests: nat)

  /** Just after mounting: an empty log, the intro timeouts armed. */
  const INITIAL: Ops := Ops([], "", INITIAL_BATTERY, 0, 0, 0, false, 0, 0)

  /** The intro timeout of index `introDelivered` fires; they fire in index
      order, 500 ms apart. */
  function IntroArrives(o: Ops): Ops
    requires o.introDelivered < INTRO_COUNT
  {
    o.(messages := o.messages + [INTRO_MESSAGES[o.introDelivered]], introDelivered := o.introDelivered + 1)
  }

  /** `handleSendMessage` at clock reading `now`: a blank input is ignored;
      otherwise the text is logged verbatim as the user's, the input is
      cleared and a guardian reply is scheduled. */
  function SendMessage(o: Ops, now: nat): Ops {
    // the input trims to nothing exactly when it is blank (Text.TrimEmptyIffBlank)
    if Text.IsBlank(o.inputText) then o
    else
      o.(messages := o.messages + [Message(Decimal.NatToString(now), UserMessage, None, o.inputText, None)],
         inputText := "", pendingReplies := o.pendingReplies + 1)
  }

  /** A scheduled reply arrives; `choice` is `Math.floor(Math.random() * 4)`. */
  function ReplyArrives(o: Ops, now: nat, choice: nat): Ops
    requires o.pendingReplies > 0 && choice < |GUARDIAN_RESPONSES|
  {
    o.(messages := o.messages + [Message(Decimal.NatToString(now + 1), GuardianMessage, Some("Dad"), GUARDIAN_RESPONSES[choice], None)],
       pendingReplies := o.pendingReplies - 1)
  }

  /** `handleCallMe`: log the call request and schedule the call-back. */
  function CallMe(o: Ops, now: nat): Ops {
    o.(messages := o.messages + [Message(Decimal.NatToString(now), SystemMessage, None, CALL_REQUEST_TEXT, Some(Warning))],
       pendingCallBacks := o.pendingCallBacks + 1)
  }

  function CallBackArrives(o: Ops, now: nat): Ops
    requires o.pendingCallBacks > 0
  {
    o.(messages := o.messages + [Message(Decimal.NatToString(now + 1), GuardianMessage, Some("Dad"), CALLING_BACK_TEXT, None)],
       pendingCallBacks := o.pendingCallBacks - 1)
  }

  /** `handleImageCapture`: evidence is logged only when a file was chosen. */
  function ImageCapture(o: Ops, now: nat, fileChosen: bool): Ops {
    if fileChosen then
      o.(messages := o.messages + [Message(Decimal.NatToString(now), SystemMessage, None, EVIDENCE_TEXT, Some(Info))])
    else o
  }

  /** `confirmSafe`: log the notice and schedule `onMarkSafe`. */
  function ConfirmSafe(o: Ops, now: nat): Ops {
    o.(messages := o.messages + [Message(Decimal.NatToString(now), SystemMessage, None, MARKED_SAFE_TEXT, Some(Info))],
       pendingMarkSafe := o.pendingMarkSafe + 1)
  }

  function MarkSafeFires(o: Ops): Ops
    requires o.pendingMarkSafe > 0
  {
    o.(pendingMarkSafe := o.pendingMarkSafe - 1, markSafeRequests := o.markSafeRequests + 1)
  }

  datatype Event =
    | Intro
    | Drain
    | Type(text: string)
    | Send(now: nat)
    | Reply(now: nat, choice: nat)
    | CallRequest(now: nat)
    | CallBack(now: nat)
    | Photo(now: nat, fileChosen: bool)
    | OpenSafeConfirm
    | CloseSafeConfirm
    | Confirm(now: nat)
    | MarkSafeTimer

  /** Timeouts fire only while pending; the confirm button is in the dialog. */
  predicate Enabled(o: Ops, e: Event) {
    match e
    case Intro => o.introDelivered < INTRO_COUNT
    case Reply(_, choice) => o.pendingReplies > 0 && choice < |GUARDIAN_RESPONSES|
    case CallBack(_) => o.pendingCallBacks > 0
    case Confirm(_) => o.showSafeConfirm
    case MarkSafeTimer => o.pendingMarkSafe > 0
    case _ => true
  }

  function Step(o: Ops, e: Event): Ops
    requires Enabled(o, e)
  {
    match e
    case Intro => IntroArrives(o)
    case Drain => o.(batteryLevel := DrainBattery(o.batteryLevel))
    case Type(t) => o.(inputText := t)
    case Send(now) => SendMessage(o, now)
    case Reply(now, choice) => ReplyArrives(o, now, choice)
    case CallRequest(now) => CallMe(o, now)
    case CallBack(now) => CallBackArrives(o, now)
    case Photo(now, chosen) => ImageCapture(o, now, chosen)
    case OpenSafeConfirm => o.(showSafeConfirm := true)
    case CloseSafeConfirm => o.(showSafeConfirm := false)
    case Confirm(now) => ConfirmSafe(o, now)
    case MarkSafeTimer => MarkSafeFires(o)
  }

  predicate AllEnabled(o: Ops, es: seq<Event>)
    decreases |es|
  {
    |es| == 0 || (Enabled(o, es[0]) && AllEnabled(Step(o, es[0]), es[1..]))
  }

  function Run(o: Ops, es: seq<Event>): Ops
    requires AllEnabled(o, es)
    decreases |es|
  {
    if |es| == 0 then o else Run(Step(o, es[0]), es[1..])
  }

  /** The invariant: the battery reads at least one percent and no more
      intro messages have appeared than there are. */
  predicate Good(o: Ops) {
    o.batteryLevel >= 1 && o.introDelivered <= INTRO_COUNT
  }

  /** Every event keeps the invariant and at most appends one message to
      the log, which is never shortened or rewritten. */
  lemma StepAppends(o: Ops, e: Event)
    requires Good(o) && Enabled(o, e)
    ensures Good(Step(o, e))
    ensures o.messages <= Step(o, e).messages
    ensures |Step(o, e).messages| <= |o.messages| + 1
  {
  }

  /** Along any run the invariant holds and the log only grows: whatever
      was in it stays, in place. The onMarkSafe count never drops. */
  lemma {:induction false} RunAppends(o: Ops, es: seq<Event>)
    requires Good(o) && AllEnabled(o, es)
    ensures Good(Run(o, es))
    ensures o.messages <= Run(o, es).messages
    ensures |Run(o, es).messages| <= |o.messages| + |es|
    ensures Run(o, es).markSafeRequests >= o.markSafeRequests
    decreases |es|
  {
    if |es| > 0 {
      StepAppends(o, es[0]);
      RunAppends(Step(o, es[0]), es[1..]);
    }
  }

  /** Sending: a message that trims to nothing changes nothing; any other is
      appended verbatim as the user's and the input is emptied. */
  lemma SendOutcome(o: Ops, now: nat)
    ensures Text.Trim(o.inputText) == "" ==> SendMessage(o, now) == o
    ensures Text.Trim(o.inputText) != "" ==>
      && SendMessage(o, now).messages == o.messages + [Message(Decimal.NatToString(now), UserMessage, None, o.inputText, None)]
      && SendMessage(o, now).inputText == ""
      && SendMessage(o, now).pendingReplies == o.pendingReplies + 1
  {
    Text.TrimEmptyIffBlank(o.inputText);
  }

  function Intros(o: Ops, k: nat): Ops
    requires o.introDelivered + k <= INTRO_COUNT
    decreases k
  {
    if k == 0 then o else Intros(IntroArrives(o), k - 1)
  }

  /** Left alone, the five intro timeouts fill the log with the intro
      messages, in order. */
  lemma {:induction false} IntrosInOrder(o: Ops, k: nat)
    requires o.introDelivered + k <= INTRO_COUNT
    requires o.messages == INTRO_MESSAGES[..o.introDelivered]
    ensures Intros(o, k).messages == INTRO_MESSAGES[..o.introDelivered + k]
    decreases k
  {
    if k > 0 {
      assert INTRO_MESSAGES[..o.introDelivered + 1] == INTRO_MESSAGES[..o.introDelivered] + [INTRO_MESSAGES[o.introDelivered]];
      IntrosInOrder(IntroArrives(o), k - 1);
    }
  }

  lemma IntroFillsLog()
    ensures Intros(INITIAL, INTRO_COUNT).messages == INTRO_MESSAGES
  {
    IntrosInOrder(INITIAL, INTRO_COUNT);
  }

  /** Confirming safe logs the notice last and, once its timeout fires,
      calls `onMarkSafe` exactly once. */
  lemma ConfirmThenMarkSafe(o: Ops, now: nat)
    ensures var r := MarkSafeFires(ConfirmSafe(o, now));
      && r.markSafeRequests == o.markSafeRequests + 1
      && r.messages[|r.messages| - 1].content == MARKED_SAFE_TEXT
      && r.messages[..|o.messages|] == o.messages
  {
  }

  /** The screen component; `batteryArmed` is the battery interval and
      `openedUrls` the URLs handed to `window.open`. */
  class OpsScreen {
    var messages: seq<Message>
    var inputText: string
    var batteryLevel: int
    var introDelivered: nat
    var pendingReplies: nat
    var pendingCallBacks: nat
    var showSafeConfirm: bool
    var pendingMarkSafe: nat
    var markSafeRequests: nat
    var batteryArmed: bool
    var openedUrls: seq<string>

    function Model(): Ops
      reads this
    {
      Ops(messages, inputText, batteryLevel, introDelivered, pendingReplies, pendingCallBacks,
          showSafeConfirm, pendingMarkSafe, markSafeRequests)
    }

    ghost predicate Valid()
      reads this
    {
      Good(Model())
    }

    /** Mounting: the intro timeouts and the battery interval are armed. */
    constructor ()
      ensures Valid() && Model() == INITIAL && batteryArmed && openedUrls == []
    {
      messages, inputText, batteryLevel := [], "", INITIAL_BATTERY;
      introDelivered, pendingReplies, pendingCallBacks := 0, 0, 0;
      showSafeConfirm, pendingMarkSafe, markSafeRequests := false, 0, 0;
      batteryArmed := true;
      openedUrls := [];
    }

    method IntroTimerFires()
      requires Valid() && introDelivered < INTRO_COUNT
      modifies this`messages, this`introDelivered
      ensures Valid() && Model() == Step(old(Model()), Intro)
    {
      messages := messages + [INTRO_MESSAGES[introDelivered]];
      introDelivered := introDelivered + 1;
    }

    method BatteryTimerFires()
      requires Valid() && batteryArmed
      modifies this`batteryLevel
      ensures Valid() && Model() == Step(old(Model()), Drain)
    {
      batteryLevel := if 1 > batteryLevel - 1 then 1 else batteryLevel - 1;
    }

    method SetInputText(t: string)
      requires Valid()
      modifies this`inputText
      ensures Valid() && Model() == Step(old(Model()), Type(t))
    {
      inputText := t;
    }

    /** The send button or the Enter key. */
    method HandleSendMessage(now: nat)
      requires Valid()
      modifies this`messages, this`inputText, this`pendingReplies
      ensures Valid() && Model() == Step(old(Model()), Send(now))
    {
      if Text.IsBlank(inputText) {
        return;
      }
      messages := messages + [Message(Decimal.NatToString(now), UserMessage, None, inputText, None)];
      inputText := "";
      pendingReplies := pendingReplies + 1;
    }

    method ReplyTimerFires(now: nat, choice: nat)
      requires Valid() && pendingReplies > 0 && choice < |GUARDIAN_RESPONSES|
      modifies this`messages, this`pendingReplies
      ensures Valid() && Model() == Step(old(Model()), Reply(now, choice))
    {
      messages := messages + [Message(Decimal.NatToString(now + 1), GuardianMessage, Some("Dad"), GUARDIAN_RESPONSES[choice], None)];
      pendingReplies := pendingReplies - 1;
    }

    method HandleCallMe(now: nat)
      requires Valid()
      modifies this`messages, this`pendingCallBacks
      ensures Valid() && Model() == Step(old(Model()), CallRequest(now))
    {
      messages := messages + [Message(Decimal.NatToString(now), SystemMessage, None, CALL_REQUEST_TEXT, Some(Warning))];
      pendingCallBacks := pendingCallBacks + 1;
    }

    method CallBackTimerFires(now: nat)
      requires Valid() && pendingCallBacks > 0
      modifies this`messages, this`pendingCallBacks
      ensures Valid() && Model() == Step(old(Model()), CallBack(now))
    {
      messages := messages + [Message(Decimal.NatToString(now + 1), GuardianMessage, Some("Dad"), CALLING_BACK_TEXT, None)];
      pendingCallBacks := pendingCallBacks - 1;
    }

    /** The hidden file input changed; `fileChosen` says whether it holds a
        file. */
    method HandleImageCapture(now: nat, fileChosen: bool)
      requires Valid()
      modifies this`messages
      ensures Valid() && Model() == Step(old(Model()), Photo(now, fileChosen))
    {
      if fileChosen {
        messages := messages + [Message(Decimal.NatToString(now), SystemMessage, None, EVIDENCE_TEXT, Some(Info))];
      }
    }

    /** `handleNavigateToSafeZone`: directions to the nearest police
      station open in a new tab; the log is untouched. */
    method HandleNavigateToSafeZone()
      requires Valid()
      modifies this`openedUrls
      ensures Valid() && openedUrls == old(openedUrls) + [SAFE_ZONE_URL]
    {
      openedUrls := openedUrls + [SAFE_ZONE_URL];
    }

    /** `handleMarkSafe`: open the confirmation dialog. */
    method HandleMarkSafe()
      requires Valid()
      modifies this`showSafeConfirm
      ensures Valid() && Model() == Step(old(Model()), OpenSafeConfirm)
    {
      showSafeConfirm := true;
    }

    /** The backdrop or the Cancel button of the dialog. */
    method CloseSafeConfirmDialog()
      requires Valid() && showSafeConfirm
      modifies this`showSafeConfirm
      ensures Valid() && Model() == Step(old(Model()), CloseSafeConfirm)
    {
      showSafeConfirm := false;
    }

    method HandleConfirmSafe(now: nat)
      requires Valid() && showSafeConfirm
      modifies this`messages, this`pendingMarkSafe
      ensures Valid() && Model() == Step(old(Model()), Confirm(now))
    {
      messages := messages + [Message(Decimal.NatToString(now), SystemMessage, None, MARKED_SAFE_TEXT, Some(Info))];
      pendingMarkSafe := pendingMarkSafe + 1;
    }

    method MarkSafeTimerFires()
      requires Valid() && pendingMarkSafe > 0
      modifies this`pendingMarkSafe, this`markSafeRequests
      ensures Valid() && Model() == Step(old(Model()), MarkSafeTimer)
    {
      pendingMarkSafe := pendingMarkSafe - 1;
      markSafeRequests := markSafeRequests + 1;
    }

    /** The cleanup clears only the battery interval. */
    method Unmount()
      requires Valid() && batteryArmed
      modifies this`batteryArmed
      ensures Valid() && !batteryArmed
    {
      batteryArmed := false;
    }
  }
}
