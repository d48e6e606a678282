/** The alerts inbox: a list of alerts that can be marked read one at a time
    or all at once, deleted, and shown either all or only unread; guardian
    check-in requests carry an "I'm safe" button. */
module Alerts {
  import opened Base
  import Text
  import Lists

  datatype AlertType = Danger | Warning | Info | GuardianAlert

  datatype Alert = Alert(id: string, kind: AlertType, title: string, message: string, time: string, read: bool, location: Option<string>)

  datatype Filter = All | Unread

  /** How a card is drawn: its icon and its colour classes. */
  datatype Style = Style(icon: string, color: string, bg: string, border: string)

  const INITIAL_ALERTS: seq<Alert> := [
    Alert("1", Danger, "DANGER ZONE ALERT", "You are approaching a high-risk area. Stay vigilant and consider alternative routes.", "2 min ago", false, Some("Sector 5, Block B")),
    Alert("2", GuardianAlert, "Guardian Check-in", "Mom requested a check-in. Tap to confirm you are safe.", "15 min ago", false, None),
    Alert("3", Warning, "UNUSUAL ACTIVITY", "Multiple SOS signals detected in your vicinity in the last hour.", "1 hour ago", true, Some("Downtown Area")),
    Alert("4", Info, "System Update", "DURGA protection systems have been updated with enhanced threat detection.", "3 hours ago", true, None),
    Alert("5", GuardianAlert, "Circle Update", "Dad has joined your safety circle as a guardian.", "1 day ago", true, None)
  ]

  /** `getAlertIcon`: every type has a style, and the icon tells the type. */
  function AlertStyle(kind: AlertType): (s: Style)
    ensures kind == Danger <==> s.icon == "warning"
    ensures kind == Warning <==> s.icon == "error"
    ensures kind == GuardianAlert <==> s.icon == "group"
    ensures kind == Info <==> s.icon == "info"
  {
    match kind
    case Danger => Style("warning", "text-red-500", "bg-red-500/10", "border-red-500/30")
    case Warning => Style("error", "text-amber-500", "bg-amber-500/10", "border-amber-500/30")
    case GuardianAlert => Style("group", "text-cyber-cyan", "bg-cyber-cyan/10", "border-cyber-cyan/30")
    case Info => Style("info", "text-blue-400", "bg-blue-500/10", "border-blue-500/30")
  }

  /** `markAsRead`: the alerts with that id become read; nothing else
      changes, and the list keeps its length and order. */
  function MarkAsRead(xs: seq<Alert>, id: string): (r: seq<Alert>)
    ensures |r| == |xs|
    ensures forall i | 0 <= i < |xs| :: r[i] == if xs[i].id == id then xs[i].(read := true) else xs[i]
  {
    if |xs| == 0 then []
    else [if xs[0].id == id then xs[0].(read := true) else xs[0]] + MarkAsRead(xs[1..], id)
  }

  /** `markAllRead`: every alert becomes read and is otherwise unchanged. */
  function MarkAllRead(xs: seq<Alert>): (r: seq<Alert>)
    ensures |r| == |xs|
    ensures forall i | 0 <= i < |xs| :: r[i] == xs[i].(read := true)
  {
    if |xs| == 0 then [] else [xs[0].(read := true)] + MarkAllRead(xs[1..])
  }

  /** `deleteAlert`. */
  function DeleteAlert(xs: seq<Alert>, id: string): (r: seq<Alert>)
    ensures |r| <= |xs|
    ensures forall i | 0 <= i < |r| :: r[i].id != id
  {
    Lists.Filter(xs, (a: Alert) => a.id != id)
  }

  /** Deleting keeps exactly the alerts with another id, in their order. */
  lemma DeleteAlertKeepsOthers(xs: seq<Alert>, id: string, x: Alert)
    ensures x in DeleteAlert(xs, id) <==> x in xs && x.id != id
    ensures Lists.IsSubsequence(DeleteAlert(xs, id), xs)
  {
    Lists.FilterMembership(xs, (a: Alert) => a.id != id, x);
    Lists.FilterIsSubsequence(xs, (a: Alert) => a.id != id);
  }

  function UnreadAlerts(xs: seq<Alert>): (r: seq<Alert>)
    ensures forall i | 0 <= i < |r| :: !r[i].read
  {
    Lists.Filter(xs, (a: Alert) => !a.read)
  }

  /** `filteredAlerts`: everything, or only the unread alerts. */
  function FilteredAlerts(f: Filter, xs: seq<Alert>): seq<Alert> {
    if f == Unread then UnreadAlerts(xs) else xs
  }

  /** `unreadCount`. */
  function UnreadCount(xs: seq<Alert>): nat {
    |UnreadAlerts(xs)|
  }

  /** The unread view shows exactly the unread alerts, in order, and as many
      as the count in the header; the full view shows every alert. */
  lemma FilteredAlertsShowsUnread(xs: seq<Alert>, a: Alert)
    ensures a in FilteredAlerts(Unread, xs) <==> a in xs && !a.read
    ensures |FilteredAlerts(Unread, xs)| == UnreadCount(xs)
    ensures Lists.IsSubsequence(FilteredAlerts(Unread, xs), xs)
    ensures FilteredAlerts(All, xs) == xs
  {
    Lists.FilterMembership(xs, (a: Alert) => !a.read, a);
    Lists.FilterIsSubsequence(xs, (a: Alert) => !a.read);
  }

  /** After marking everything read nothing is unread. */
  lemma MarkAllReadClearsCount(xs: seq<Alert>)
    ensures UnreadCount(MarkAllRead(xs)) == 0
  {
    var r := MarkAllRead(xs);
    if UnreadCount(r) > 0 {
      var u := UnreadAlerts(r);
      Lists.FilterMembership(r, (a: Alert) => !a.read, u[0]);
      assert false;
    }
  }

  /** Marking `id` read lowers the unread count by exactly the number of
      unread alerts with that id. */
  lemma {:induction false} MarkAsReadCount(xs: seq<Alert>, id: string)
    ensures UnreadCount(MarkAsRead(xs, id)) + |Lists.Filter(xs, (a: Alert) => a.id == id && !a.read)| == UnreadCount(xs)
  {
    if |xs| > 0 {
      MarkAsReadCount(xs[1..], id);
      var r := MarkAsRead(xs, id);
      assert r[1..] == MarkAsRead(xs[1..], id);
    }
  }

  /** So with unique ids, opening an unread alert lowers the count by one
      and opening a read one leaves it. */
  lemma MarkUniqueAsRead(xs: seq<Alert>, k: nat)
    requires k < |xs|
    requires forall i | 0 <= i < |xs| && i != k :: xs[i].id != xs[k].id
    ensures UnreadCount(MarkAsRead(xs, xs[k].id)) == UnreadCount(xs) - (if xs[k].read then 0 else 1)
  {
    MarkAsReadCount(xs, xs[k].id);
    OnlyOneWithId(xs, k);
  }

  lemma {:induction false} OnlyOneWithId(xs: seq<Alert>, k: nat)
    requires k < |xs|
    requires forall i | 0 <= i < |xs| && i != k :: xs[i].id != xs[k].id
    ensures |Lists.Filter(xs, (a: Alert) => a.id == xs[k].id && !a.read)| == if xs[k].read then 0 else 1
  {
    var id := xs[k].id;
    var p := (a: Alert) => a.id == id && !a.read;
    assert xs == xs[..k] + [xs[k]] + xs[k + 1..];
    Lists.FilterConcat(xs[..k] + [xs[k]], xs[k + 1..], p);
    Lists.FilterConcat(xs[..k], [xs[k]], p);
    NoneWithId(xs[..k], id, p);
    NoneWithId(xs[k + 1..], id, p);
  }

  lemma {:induction false} NoneWithId(xs: seq<Alert>, id: string, p: Alert -> bool)
    requires forall i | 0 <= i < |xs| :: xs[i].id != id
    requires forall a: Alert :: p(a) ==> a.id == id
    ensures Lists.Filter(xs, p) == []
  {
    if |xs| > 0 {
      NoneWithId(xs[1..], id, p);
    }
  }

  /** Marking read twice is marking read once. */
  lemma MarkAsReadIdempotent(xs: seq<Alert>, id: string)
    ensures MarkAsRead(MarkAsRead(xs, id), id) == MarkAsRead(xs, id)
  {
  }

  /** The "I'm safe" and dismiss buttons show on unread guardian alerts
      whose title mentions a check-in. */
  predicate ShowCheckInButtons(a: Alert) {
    a.kind == GuardianAlert && !a.read && Text.Contains(a.title, "Check-in")
  }

  /** Of the initial alerts, two are unread and only the second asks for
      a check-in. */
  lemma InitialInbox()
    ensures UnreadCount(INITIAL_ALERTS) == 2
    ensures ShowCheckInButtons(INITIAL_ALERTS[1])
    ensures forall i | 0 <= i < |INITIAL_ALERTS| && i != 1 :: !ShowCheckInButtons(INITIAL_ALERTS[i])
  {
    var t := INITIAL_ALERTS[1].title;
    Text.ContainsAt(t, "Check-in", 9);
  }

  /** The screen component; `haptics` counts the check-in buzzes. */
  class AlertsScreen {
    const hasVibrate: bool
    var alerts: seq<Alert>
    var filter: Filter
    var haptics: nat

    constructor (hasVibrate: bool)
      ensures this.hasVibrate == hasVibrate && alerts == INITIAL_ALERTS && filter == All && haptics == 0
    {
      this.hasVibrate := hasVibrate;
      alerts := INITIAL_ALERTS;
      filter := All;
      haptics := 0;
    }

    function Visible(): seq<Alert>
      reads this
    {
      FilteredAlerts(filter, alerts)
    }

    method SetFilter(f: Filter)
      modifies this`filter
      ensures filter == f
    {
      filter := f;
    }

    /** Tapping a visible card. */
    method TapCard(id: string)
      requires exists i | 0 <= i < |Visible()| :: Visible()[i].id == id
      modifies this`alerts
      ensures alerts == MarkAsRead(old(alerts), id)
    {
      alerts := MarkAsRead(alerts, id);
    }

    /** The header button, shown while anything is unread. */
    method TapMarkAllRead()
      requires UnreadCount(alerts) > 0
      modifies this`alerts
      ensures alerts == MarkAllRead(old(alerts)) && UnreadCount(alerts) == 0
    {
      alerts := MarkAllRead(alerts);
      MarkAllReadClearsCount(old(alerts));
    }

    /** The dismiss button of a visible check-in request. */
    method Dismiss(id: string)
      requires exists i | 0 <= i < |Visible()| :: Visible()[i].id == id && ShowCheckInButtons(Visible()[i])
      modifies this`alerts
      ensures alerts == DeleteAlert(old(alerts), id)
    {
      alerts := DeleteAlert(alerts, id);
    }

    /** `handleCheckIn`: the "I'm safe" button marks the request read. */
    method HandleCheckIn(id: string)
      requires exists i | 0 <= i < |Visible()| :: Visible()[i].id == id && ShowCheckInButtons(Visible()[i])
      modifies this`alerts, this`haptics
      ensures alerts == MarkAsRead(old(alerts), id)
      ensures haptics == old(haptics) + (if hasVibrate then 1 else 0)
    {
      alerts := MarkAsRead(alerts, id);
      if hasVibrate {
        haptics := haptics + 1;
      }
    }
  }
}
