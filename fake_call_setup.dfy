/** The decoy-call setup screen: the caller's name and avatar, the delay
    picker (a horizontally scrolling row of five options that snaps to the
    option nearest the centre) and the Schedule button. */
module FakeCallSetup {
  import opened Base
  import Text

  /** One entry of the delay picker: its caption and its delay in seconds. */
  datatype DelayOption = DelayOption(caption: string, value: nat)

  /** The picker's options, in display order. */
  const DELAY_OPTIONS: seq<DelayOption> := [
    DelayOption("Now", 0),
    DelayOption("10s", 10),
    DelayOption("30s", 30),
    DelayOption("1m", 60),
    DelayOption("5m", 300)
  ]

  const DEFAULT_AVATARS: seq<string> := [
    "https://images.unsplash.com/photo-1544005313-94ddf0286df2?w=200&h=200&fit=crop&crop=faces",
    "https://images.unsplash.com/photo-1507003211169-0a1dd7228f2d?w=200&h=200&fit=crop&crop=faces",
    "https://images.unsplash.com/photo-1438761681033-6461ffad8d80?w=200&h=200&fit=crop&crop=faces",
    "https://images.unsplash.com/photo-1472099645785-5658abf4ff4e?w=200&h=200&fit=crop&crop=faces"
  ]

  /** Width of one picker item plus the gap after it, in pixels (112 + 24). */
  const ITEM_STRIDE: nat := 112 + 24

  /** What the setup screen hands to the call manager. */
  datatype CallConfig = CallConfig(callerName: string, callerAvatar: Option<string>, delaySeconds: nat)

  /** `v` is the delay of some option. */
  predicate IsDelayOption(v: int) {
    exists i | 0 <= i < |DELAY_OPTIONS| :: DELAY_OPTIONS[i].value == v
  }

  /** `DELAY_OPTIONS.findIndex(d => d.value === v)`, searching from `from`:
      the first matching index, or -1 when there is none. */
  function FindDelayIndexFrom(v: int, from: nat): (r: int)
    requires from <= |DELAY_OPTIONS|
    ensures r == -1 || from <= r < |DELAY_OPTIONS|
    ensures r >= 0 ==> DELAY_OPTIONS[r].value == v
    ensures r >= 0 ==> forall j | from <= j < r :: DELAY_OPTIONS[j].value != v
    ensures r == -1 <==> forall j | from <= j < |DELAY_OPTIONS| :: DELAY_OPTIONS[j].value != v
    decreases |DELAY_OPTIONS| - from
  {
    if from == |DELAY_OPTIONS| then -1
    else if DELAY_OPTIONS[from].value == v then from
    else FindDelayIndexFrom(v, from + 1)
  }

  /** `selectedDelayIndex`: a valid index exactly when `v` is an option's delay. */
  function FindDelayIndex(v: int): (r: int)
    ensures -1 <= r < |DELAY_OPTIONS|
    ensures r >= 0 <==> IsDelayOption(v)
    ensures r >= 0 ==> DELAY_OPTIONS[r].value == v
  {
    FindDelayIndexFrom(v, 0)
  }

  /** `scrollToDelayIndex`: the left scroll offset that centres option `index`. */
  function ScrollOffset(index: int): int {
    index * ITEM_STRIDE
  }

  /** `Math.round(x / d)` for integers: the nearest integer, halves rounded up. */
  function RoundDiv(x: int, d: nat): (r: int)
    requires d > 0
    ensures 2 * d * r <= 2 * x + d < 2 * d * r + 2 * d
  {
    (2 * x + d) / (2 * d)
  }

  /** The option a settled scroll position selects:
      `clamp(round(scrollLeft / 136), 0, 4)`. */
  function SettledIndex(scrollLeft: int): (r: nat)
    ensures r < |DELAY_OPTIONS|
  {
    var index := RoundDiv(scrollLeft, ITEM_STRIDE);
    if index < 0 then 0
    else if index > |DELAY_OPTIONS| - 1 then |DELAY_OPTIONS| - 1
    else index
  }

  /** A position within half a stride of option `i`'s centre selects `i`
      (the upper half-way point rounds to the next option); positions before
      the first or past the last option select the end options. */
  lemma SettledIndexNear(i: nat, scrollLeft: int)
    requires i < |DELAY_OPTIONS|
    ensures ScrollOffset(i) - 68 <= scrollLeft < ScrollOffset(i) + 68 ==> SettledIndex(scrollLeft) == i
    ensures scrollLeft < -68 ==> SettledIndex(scrollLeft) == 0
    ensures scrollLeft >= ScrollOffset(4) + 68 ==> SettledIndex(scrollLeft) == 4
  {
    var r := RoundDiv(scrollLeft, ITEM_STRIDE);
    assert 272 * r <= 2 * scrollLeft + 136 < 272 * r + 272;
    if ScrollOffset(i) - 68 <= scrollLeft < ScrollOffset(i) + 68 {
      assert 272 * i <= 2 * scrollLeft + 136 < 272 * i + 272;
    }
  }

  /** Scrolling to option `i` and letting the picker settle selects option `i`. */
  lemma ScrollRoundTrip(i: nat)
    requires i < |DELAY_OPTIONS|
    ensures SettledIndex(ScrollOffset(i)) == i
  {
    SettledIndexNear(i, ScrollOffset(i));
  }

  /** The Schedule button is enabled exactly when the trimmed name is not empty. */
  predicate ScheduleEnabled(callerName: string) {
    Text.Trim(callerName) != ""
  }

  /** The setup screen's state cells. `settlePending` stands for the armed
      50 ms debounce timer of the picker; `scrollTarget` is the last offset
      the screen asked the picker to scroll to. */
  class SetupScreen {
    var callerName: string
    var callerAvatar: Option<string>
    var selectedDelay: int
    var showAvatarPicker: bool
    var settlePending: bool
    var scrollTarget: Option<int>

    /** The delay is always set from the options table. */
    ghost predicate Valid()
      reads this
    {
      IsDelayOption(selectedDelay)
    }

    constructor ()
      ensures Valid()
      ensures callerName == "Mom" && callerAvatar == Some(DEFAULT_AVATARS[0]) && selectedDelay == 10
      ensures !showAvatarPicker && !settlePending && scrollTarget == None
    {
      callerName := "Mom";
      callerAvatar := Some(DEFAULT_AVATARS[0]);
      selectedDelay := 10;
      showAvatarPicker := false;
      settlePending := false;
      scrollTarget := None;
      assert DELAY_OPTIONS[1].value == 10;
    }

    /** The index of the highlighted option. */
    function SelectedDelayIndex(): (r: int)
      reads this
      requires Valid()
      ensures 0 <= r < |DELAY_OPTIONS| && DELAY_OPTIONS[r].value == selectedDelay
    {
      FindDelayIndex(selectedDelay)
    }

    /** The mount effect: centre the initially selected option. */
    method CenterSelectedOption()
      requires Valid()
      modifies this`scrollTarget
      ensures Valid()
      ensures scrollTarget == Some(ScrollOffset(SelectedDelayIndex()))
    {
      scrollTarget := Some(ScrollOffset(FindDelayIndex(selectedDelay)));
    }

    /** `handleSchedule`: hands over the current name, avatar and delay
      unchanged. The button is disabled while the trimmed name is empty, so
      the manager never receives a blank name. */
    method Schedule() returns (config: CallConfig)
      requires Valid() && ScheduleEnabled(callerName)
      ensures config.callerName == callerName && config.callerAvatar == callerAvatar
      ensures config.delaySeconds == selectedDelay && IsDelayOption(config.delaySeconds)
      ensures !Text.IsBlank(config.callerName)
    {
      Text.TrimEmptyIffBlank(callerName);
      config := CallConfig(callerName, callerAvatar, selectedDelay);
    }

    method SetCallerName(name: string)
      requires Valid()
      modifies this`callerName
      ensures Valid() && callerName == name
    {
      callerName := name;
    }

    /** Tapping option `index`: select its delay and scroll it to the centre. */
    method SelectOption(index: nat)
      requires Valid() && index < |DELAY_OPTIONS|
      modifies this`selectedDelay, this`scrollTarget
      ensures Valid()
      ensures selectedDelay == DELAY_OPTIONS[index].value && SelectedDelayIndex() == index
      ensures scrollTarget == Some(ScrollOffset(index))
    {
      selectedDelay := DELAY_OPTIONS[index].value;
      scrollTarget := Some(ScrollOffset(index));
      assert forall j | 0 <= j < |DELAY_OPTIONS| && j != index :: DELAY_OPTIONS[j].value != DELAY_OPTIONS[index].value;
    }

    /** A scroll event: (re)arms the debounce timer. */
    method OnScroll()
      requires Valid()
      modifies this`settlePending
      ensures Valid() && settlePending
    {
      settlePending := true;
    }

    /** The debounce timer fires with the picker at `scrollLeft`: the nearest
      option is selected. */
    method SettleScroll(scrollLeft: int)
      requires Valid() && settlePending
      modifies this`selectedDelay, this`settlePending
      ensures Valid() && !settlePending
      ensures selectedDelay == DELAY_OPTIONS[SettledIndex(scrollLeft)].value
    {
      settlePending := false;
      var newDelay := DELAY_OPTIONS[SettledIndex(scrollLeft)].value;
      if newDelay != selectedDelay {
        selectedDelay := newDelay;
      }
    }

    method OpenAvatarPicker()
      requires Valid()
      modifies this`showAvatarPicker
      ensures Valid() && showAvatarPicker
    {
      showAvatarPicker := true;
    }

    method CloseAvatarPicker()
      requires Valid()
      modifies this`showAvatarPicker
      ensures Valid() && !showAvatarPicker
    {
      showAvatarPicker := false;
    }

    /** Picking one of the default avatars closes the picker. */
    method ChooseDefaultAvatar(index: nat)
      requires Valid() && index < |DEFAULT_AVATARS|
      modifies this`callerAvatar, this`showAvatarPicker
      ensures Valid() && callerAvatar == Some(DEFAULT_AVATARS[index]) && !showAvatarPicker
    {
      callerAvatar := Some(DEFAULT_AVATARS[index]);
      showAvatarPicker := false;
    }

    /** The file reader finished with an uploaded picture as a data URL. */
    method AvatarUploaded(dataUrl: string)
      requires Valid()
      modifies this`callerAvatar, this`showAvatarPicker
      ensures Valid() && callerAvatar == Some(dataUrl) && !showAvatarPicker
    {
      callerAvatar := Some(dataUrl);
      showAvatarPicker := false;
    }
  }
}
