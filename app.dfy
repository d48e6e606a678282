/** The top-level view router: the current and the previous view, the
    handlers the screens are wired to, which screen each view renders, and
    when the bottom navigation is hidden. */
module App {

  /** The seven declared views, and `Undeclared`: the `undefined` that a
      reference to a member the enum does not declare yields at run time. */
  datatype ViewState = Dashboard | SosActive | EmergencyOps | Map | Ops | Profile | FakeCall | Undeclared

  /** The screen components `renderContent` can return. */
  datatype Screen = DashboardScreen | SosScreen | FakeCallScreen | CommunityMapScreen | AddCircleScreen | MedicalIdScreen

  datatype Router = Router(currentView: ViewState, previousView: ViewState)

  const INITIAL: Router := Router(Dashboard, Dashboard)

  /** `handleViewChange`: remember where we were, then go. */
  function ViewChange(r: Router, v: ViewState): (r': Router)
    ensures r'.currentView == v && r'.previousView == r.currentView
  {
    Router(v, r.currentView)
  }

  /** `handleTriggerSOS`: the previous view is left alone. */
  function TriggerSos(r: Router): (r': Router)
    ensures r'.currentView == SosActive && r'.previousView == r.previousView
  {
    r.(currentView := SosActive)
  }

  /** `handleCancelSOS`. */
  function CancelSos(r: Router): (r': Router)
    ensures r'.currentView == Dashboard && r'.previousView == r.previousView
  {
    r.(currentView := Dashboard)
  }

  /** `handleCloseFakeCall`. */
  function CloseFakeCall(r: Router): (r': Router)
    ensures r'.currentView == Dashboard && r'.previousView == r.previousView
  {
    r.(currentView := Dashboard)
  }

  /** `renderContent`: every view renders a screen; the dashboard view, the
      emergency-operations view and the undeclared value, which no case
      matches, render the Dashboard. */
  function RenderContent(v: ViewState): (s: Screen)
    ensures s == SosScreen <==> v == SosActive
    ensures s == FakeCallScreen <==> v == FakeCall
    ensures s == CommunityMapScreen <==> v == Map
    ensures s == AddCircleScreen <==> v == Ops
    ensures s == MedicalIdScreen <==> v == Profile
    ensures s == DashboardScreen <==> v == Dashboard || v == EmergencyOps || v == Undeclared
  {
    match v
    case SosActive => SosScreen
    case FakeCall => FakeCallScreen
    case Map => CommunityMapScreen
    case Ops => AddCircleScreen
    case Profile => MedicalIdScreen
    case _ => DashboardScreen
  }

  /** `hideNavigation`. */
  predicate HideNavigation(v: ViewState) {
    v == SosActive || v == FakeCall
  }

  /** The navigation bar is hidden exactly while the SOS screen or the
      decoy call is on screen, the two screens without a way back through
      the bar. */
  lemma HiddenExactlyOnFullScreens(v: ViewState)
    ensures HideNavigation(v) <==> RenderContent(v) == SosScreen || RenderContent(v) == FakeCallScreen
  {
  }

  /** The bottom navigation's tabs. */
  datatype Tab = HubTab | TeamTab | MapTab | AlertsTab | ProfileTab

  /** The view each tab asks for; the Alerts tab names `ViewState.ALERTS`,
      which the enum does not declare. */
  function TabTarget(t: Tab): ViewState {
    match t
    case HubTab => Dashboard
    case TeamTab => Ops
    case MapTab => Map
    case AlertsTab => Undeclared
    case ProfileTab => Profile
  }

  /** Whether a tab is drawn as the current one. */
  predicate TabHighlighted(t: Tab, v: ViewState) {
    v == TabTarget(t)
  }

  /** The Dashboard's tiles that change view; Covert Record and Safe Route
      name `COVERT_RECORD` and `SAFE_ROUTE`, which the enum does not declare. */
  datatype Tile = FakeCallTile | GuardiansTile | CovertRecordTile | SafeRouteTile

  function TileTarget(t: Tile): ViewState {
    match t
    case FakeCallTile => FakeCall
    case GuardiansTile => Ops
    case CovertRecordTile => Undeclared
    case SafeRouteTile => Undeclared
  }

  /** Which tabs and tiles lead off the Dashboard: the Hub tab and the
      three buttons naming undeclared views render the Dashboard again, and
      the others render their own screen. */
  lemma TargetsRender(t: Tab, d: Tile)
    ensures RenderContent(TabTarget(t)) == DashboardScreen <==> t == HubTab || t == AlertsTab
    ensures RenderContent(TileTarget(d)) == DashboardScreen <==> d == CovertRecordTile || d == SafeRouteTile
    ensures TabTarget(t) == Undeclared <==> t == AlertsTab
    ensures TileTarget(d) == Undeclared <==> d == CovertRecordTile || d == SafeRouteTile
  {
  }


  datatype Action = SetView(v: ViewState) | TriggerSOSAction | CancelSOSAction | CloseFakeCallAction

  /** The handlers are passed only to the screens that call them: the
      Dashboard and the bottom navigation change view (the bar only while
      shown), the Dashboard triggers SOS, the SOS screen cancels, and the
      decoy call closes. */
  predicate Wired(r: Router, a: Action) {
    match a
    case SetView(_) => RenderContent(r.currentView) == DashboardScreen || !HideNavigation(r.currentView)
    case TriggerSOSAction => RenderContent(r.currentView) == DashboardScreen
    case CancelSOSAction => r.currentView == SosActive
    case CloseFakeCallAction => r.currentView == FakeCall
  }

  function Step(r: Router, a: Action): Router {
    match a
    case SetView(v) => ViewChange(r, v)
    case TriggerSOSAction => TriggerSos(r)
    case CancelSOSAction => CancelSos(r)
    case CloseFakeCallAction => CloseFakeCall(r)
  }

  /** From the SOS screen and the decoy call the only way out is their own
      handler, which lands on the Dashboard. */
  lemma FullScreensExitToDashboard(r: Router, a: Action)
    requires HideNavigation(r.currentView) && Wired(r, a)
    ensures Step(r, a).currentView == Dashboard
    ensures r.currentView == SosActive ==> a == CancelSOSAction
    ensures r.currentView == FakeCall ==> a == CloseFakeCallAction
  {
  }

  /** The Alerts tab, the Covert Record tile and the Safe Route tile never
      leave the Dashboard: the view they set is the undeclared value, which
      renders the Dashboard with the bar shown, and on which the Alerts tab
      is drawn as current and the Hub tab is not. */
  lemma UndeclaredTargetsStayOnDashboard(r: Router, a: Action)
    requires a == SetView(TabTarget(AlertsTab)) || a == SetView(TileTarget(CovertRecordTile)) || a == SetView(TileTarget(SafeRouteTile))
    requires Wired(r, a)
    ensures Step(r, a).currentView == Undeclared && Step(r, a).previousView == r.currentView
    ensures RenderContent(Step(r, a).currentView) == DashboardScreen && !HideNavigation(Step(r, a).currentView)
    ensures TabHighlighted(AlertsTab, Step(r, a).currentView) && !TabHighlighted(HubTab, Step(r, a).currentView)
  {
  }

  /** Only `handleViewChange` writes the previous view, and it writes the
      view that was current. */
  lemma PreviousViewIsLastChanged(r: Router, a: Action)
    ensures Step(r, a).previousView == (if a.SetView? then r.currentView else r.previousView)
  {
  }

  /** The component. */
  class AppShell {
    var currentView: ViewState
    var previousView: ViewState

    function Model(): Router
      reads this
    {
      Router(currentView, previousView)
    }

    constructor ()
      ensures Model() == INITIAL
    {
      currentView, previousView := Dashboard, Dashboard;
    }

    method HandleViewChange(v: ViewState)
      requires Wired(Model(), SetView(v))
      modifies this
      ensures Model() == ViewChange(old(Model()), v)
    {
      previousView := currentView;
      currentView := v;
    }

    method HandleTriggerSos()
      requires Wired(Model(), TriggerSOSAction)
      modifies this`currentView
      ensures Model() == TriggerSos(old(Model()))
    {
      currentView := SosActive;
    }

    method HandleCancelSos()
      requires Wired(Model(), CancelSOSAction)
      modifies this`currentView
      ensures Model() == CancelSos(old(Model()))
    {
      currentView := Dashboard;
    }

    method HandleCloseFakeCall()
      requires Wired(Model(), CloseFakeCallAction)
      modifies this`currentView
      ensures Model() == CloseFakeCall(old(Model()))
    {
      currentView := Dashboard;
    }

    /** What is on screen: the content and whether the bar is shown. */
    method Render() returns (screen: Screen, navigationShown: bool)
      ensures screen == RenderContent(currentView)
      ensures navigationShown <==> currentView != SosActive && currentView != FakeCall
    {
      screen := RenderContent(currentView);
      navigationShown := !HideNavigation(currentView);
    }
  }
}
