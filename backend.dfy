/** The backend's in-memory alert table: an SOS trigger stores an active
    alert under an id built from the user and a sequence number, and a
    cancel removes an alert by id. Socket emits, printing and server
    start-up are not modelled; locations are opaque text. */
module Backend {
  import opened Base
  import Decimal

  datatype AlertRecord = AlertRecord(alertId: string, userId: Option<string>, location: Option<string>, timestamp: string, status: string)

  /** The handler's reply to the client. */
  datatype Ack = Ack(status: string, alertId: string)

  type Table = map<string, AlertRecord>

  /** A Python f-string renders a missing user id as `None`. */
  function UserText(u: Option<string>): string {
    match u
    case Some(s) => s
    case None => "None"
  }

  /** `f"alert_{user_id}_{n}"`. */
  function AlertId(u: Option<string>, n: nat): string {
    "alert_" + UserText(u) + "_" + Decimal.NatToString(n)
  }

  /** The record `handle_sos` stores. */
  function ActiveRecord(id: string, u: Option<string>, location: Option<string>): AlertRecord {
    AlertRecord(id, u, location, "now", "ACTIVE")
  }

  /** The position of the last `_`, or -1 when there is none. */
  function LastUnderscore(s: string): (r: int)
    ensures -1 <= r < |s|
    ensures r >= 0 ==> s[r] == '_'
  {
    if |s| == 0 then -1
    else if s[|s| - 1] == '_' then |s| - 1
    else LastUnderscore(s[..|s| - 1])
  }

  /** The last `_` of `p + "_" + d` is the one after `p` when `d` has none. */
  lemma {:induction false} LastUnderscoreOf(p: string, d: string)
    requires '_' !in d
    ensures LastUnderscore(p + "_" + d) == |p|
    decreases |d|
  {
    var s := p + "_" + d;
    if |d| > 0 {
      assert s[|s| - 1] == d[|d| - 1];
      assert s[..|s| - 1] == p + "_" + d[..|d| - 1];
      LastUnderscoreOf(p, d[..|d| - 1]);
    }
  }

  /** The last `_` of a text splits it uniquely when what follows has no `_`. */
  lemma SplitAtLastUnderscore(p1: string, d1: string, p2: string, d2: string)
    requires '_' !in d1 && '_' !in d2
    requires p1 + "_" + d1 == p2 + "_" + d2
    ensures p1 == p2 && d1 == d2
  {
    var s := p1 + "_" + d1;
    LastUnderscoreOf(p1, d1);
    LastUnderscoreOf(p2, d2);
    assert d1 == s[|p1| + 1..] == d2;
    assert p1 == s[..|p1|] == p2;
  }

  lemma DigitsHaveNoUnderscore(n: nat)
    ensures '_' !in Decimal.NatToString(n)
  {
    var d := Decimal.NatToString(n);
    assert forall i | 0 <= i < |d| :: Decimal.IsDigit(d[i]);
  }

  /** Ids with different sequence numbers differ, whatever the users. */
  lemma AlertIdInjective(u1: Option<string>, n1: nat, u2: Option<string>, n2: nat)
    requires AlertId(u1, n1) == AlertId(u2, n2)
    ensures n1 == n2 && UserText(u1) == UserText(u2)
  {
    DigitsHaveNoUnderscore(n1);
    DigitsHaveNoUnderscore(n2);
    SplitAtLastUnderscore("alert_" + UserText(u1), Decimal.NatToString(n1), "alert_" + UserText(u2), Decimal.NatToString(n2));
    Decimal.NatToStringInjective(n1, n2);
    assert UserText(u1) == ("alert_" + UserText(u1))[6..];
    assert UserText(u2) == ("alert_" + UserText(u2))[6..];
  }

  datatype Triggered = Triggered(table: Table, ack: Ack)

  /** `handle_sos` as written: the sequence number is the table's size plus
      one, and the record is stored under that id, replacing any alert
      already there. */
  function HandleSosAsWritten(table: Table, u: Option<string>, location: Option<string>): (r: Triggered)
    ensures r.ack == Ack("success", AlertId(u, |table| + 1))
    ensures r.table == table[AlertId(u, |table| + 1) := ActiveRecord(AlertId(u, |table| + 1), u, location)]
  {
    var id := AlertId(u, |table| + 1);
    Triggered(table[id := ActiveRecord(id, u, location)], Ack("success", id))
  }

  /** A trigger stores an active record under the id it returns and grows
      the table by at most one. */
  lemma TriggerAsWrittenStores(table: Table, u: Option<string>, location: Option<string>)
    ensures var r := HandleSosAsWritten(table, u, location);
      && r.ack.alertId in r.table
      && r.table[r.ack.alertId].status == "ACTIVE"
      && r.table[r.ack.alertId].alertId == r.ack.alertId
      && |table| <= |r.table| <= |table| + 1
  {
    var r := HandleSosAsWritten(table, u, location);
    if r.ack.alertId in table {
      assert r.table.Keys == table.Keys;
    } else {
      assert r.table.Keys == table.Keys + {r.ack.alertId};
    }
  }

  /** `handle_cancel`: an id in the table is removed; a missing or unknown
      id changes nothing. */
  function HandleCancel(table: Table, alertId: Option<string>): (r: Table)
    ensures alertId.None? || alertId.value !in table ==> r == table
    ensures alertId.Some? ==> alertId.value !in r
    ensures forall k | k in table && Some(k) != alertId :: k in r && r[k] == table[k]
    ensures r.Keys <= table.Keys
  {
    if alertId.Some? && alertId.value in table then map k | k in table && k != alertId.value :: table[k] else table
  }

  /** The collision: user `u` triggers twice, cancels the first alert and
      triggers again. Two alerts should now be active, but the third trigger
      is numbered after the one-entry table and so reuses the second alert's
      id: the second alert is overwritten and only one alert remains. */
  lemma CollisionAfterCancelAsWritten(u: Option<string>)
    ensures var first := HandleSosAsWritten(map[], u, Some("A"));
      var second := HandleSosAsWritten(first.table, u, Some("B"));
      var afterCancel := HandleCancel(second.table, Some(first.ack.alertId));
      var third := HandleSosAsWritten(afterCancel, u, Some("C"));
      && third.ack.alertId == second.ack.alertId
      && |third.table| == 1
      && third.table[second.ack.alertId].location == Some("C")
  {
    var first := HandleSosAsWritten(map[], u, Some("A"));
    var second := HandleSosAsWritten(first.table, u, Some("B"));
    var id1, id2 := AlertId(u, 1), AlertId(u, 2);
    if id1 == id2 {
      AlertIdInjective(u, 1, u, 2);
    }
    assert second.table.Keys == {id1, id2};
    var afterCancel := HandleCancel(second.table, Some(id1));
    assert afterCancel.Keys == {id2};
    assert |afterCancel| == 1;
    var third := HandleSosAsWritten(afterCancel, u, Some("C"));
    assert third.table.Keys == {id2};
  }

  /** The corrected table: a sequence counter that only grows numbers the
      alerts, so an id is never handed out twice. */
  datatype Server = Server(alerts: Table, nextSeq: nat)

  const INITIAL: Server := Server(map[], 1)

  /** Every stored alert is keyed by its own id, which carries a number the
      counter has already passed. */
  predicate Good(s: Server) {
    s.nextSeq >= 1
    && forall k | k in s.alerts :: k == s.alerts[k].alertId && exists n: nat | n < s.nextSeq :: k == AlertId(s.alerts[k].userId, n)
  }

  /** The corrected `handle_sos`: numbered by the counter, which advances. */
  function HandleSos(s: Server, u: Option<string>, location: Option<string>): (r: (Server, Ack))
    ensures r.1 == Ack("success", AlertId(u, s.nextSeq))
    ensures r.0.nextSeq == s.nextSeq + 1
  {
    var id := AlertId(u, s.nextSeq);
    (Server(s.alerts[id := ActiveRecord(id, u, location)], s.nextSeq + 1), Ack("success", id))
  }

  function Cancel(s: Server, alertId: Option<string>): Server {
    s.(alerts := HandleCancel(s.alerts, alertId))
  }

  /** A new id is never in the table, so a trigger adds exactly one alert
      and leaves every other alert as it was. */
  lemma TriggerIsFresh(s: Server, u: Option<string>, location: Option<string>)
    requires Good(s)
    ensures AlertId(u, s.nextSeq) !in s.alerts
    ensures var r := HandleSos(s, u, location).0;
      && Good(r)
      && |r.alerts| == |s.alerts| + 1
      && r.alerts.Keys == s.alerts.Keys + {AlertId(u, s.nextSeq)}
      && (forall k | k in s.alerts :: r.alerts[k] == s.alerts[k])
      && r.alerts[AlertId(u, s.nextSeq)].status == "ACTIVE"
  {
    var id := AlertId(u, s.nextSeq);
    if id in s.alerts {
      var n: nat :| n < s.nextSeq && id == AlertId(s.alerts[id].userId, n);
      AlertIdInjective(u, s.nextSeq, s.alerts[id].userId, n);
      assert false;
    }
    var r := HandleSos(s, u, location).0;
    assert r.alerts.Keys == s.alerts.Keys + {id};
    forall k | k in r.alerts
      ensures k == r.alerts[k].alertId && exists n: nat | n < r.nextSeq :: k == AlertId(r.alerts[k].userId, n)
    {
      if k == id {
        assert k == AlertId(r.alerts[k].userId, s.nextSeq);
      } else {
        var n: nat :| n < s.nextSeq && k == AlertId(s.alerts[k].userId, n);
        assert k == AlertId(r.alerts[k].userId, n);
      }
    }
  }

  lemma CancelKeepsGood(s: Server, alertId: Option<string>)
    requires Good(s)
    ensures Good(Cancel(s, alertId))
  {
    var r := Cancel(s, alertId);
    forall k | k in r.alerts
      ensures k == r.alerts[k].alertId && exists n: nat | n < r.nextSeq :: k == AlertId(r.alerts[k].userId, n)
    {
      var n: nat :| n < s.nextSeq && k == AlertId(s.alerts[k].userId, n);
      assert k == AlertId(r.alerts[k].userId, n);
    }
  }

  datatype Request = Trigger(userId: Option<string>, location: Option<string>) | CancelRequest(alertId: Option<string>)

  function Serve(s: Server, rs: seq<Request>): Server
    decreases |rs|
  {
    if |rs| == 0 then s
    else
      var next := match rs[0]
        case Trigger(u, loc) => HandleSos(s, u, loc).0
        case CancelRequest(id) => Cancel(s, id);
      Serve(next, rs[1..])
  }

  /** Whatever the requests, the table stays well formed, so every later
      trigger is fresh; and as long as nothing was cancelled the counter is
      the table's size plus one, so the corrected ids are the ones the
      original handler hands out. */
  lemma {:induction false} ServeKeepsGood(s: Server, rs: seq<Request>)
    requires Good(s)
    ensures Good(Serve(s, rs))
    ensures s.nextSeq == |s.alerts| + 1 && (forall i | 0 <= i < |rs| :: rs[i].Trigger?) ==> Serve(s, rs).nextSeq == |Serve(s, rs).alerts| + 1
    decreases |rs|
  {
    if |rs| > 0 {
      match rs[0]
      case Trigger(u, loc) =>
        TriggerIsFresh(s, u, loc);
        ServeKeepsGood(HandleSos(s, u, loc).0, rs[1..]);
      case CancelRequest(id) =>
        CancelKeepsGood(s, id);
        ServeKeepsGood(Cancel(s, id), rs[1..]);
    }
  }

  /** Without a cancel in between the corrected handler agrees with the
      original one. */
  lemma AgreesBeforeAnyCancel(s: Server, u: Option<string>, location: Option<string>)
    requires s.nextSeq == |s.alerts| + 1
    ensures HandleSos(s, u, location).1 == HandleSosAsWritten(s.alerts, u, location).ack
    ensures HandleSos(s, u, location).0.alerts == HandleSosAsWritten(s.alerts, u, location).table
  {
  }

  /** The server process: the alert table is a field updated in place. */
  class AlertServer {
    var alerts: Table
    var nextSeq: nat

    ghost predicate Valid()
      reads this
    {
      Good(Server(alerts, nextSeq))
    }

    constructor ()
      ensures Valid() && alerts == map[] && nextSeq == 1
    {
      alerts := map[];
      nextSeq := 1;
    }

    /** A `trigger_sos` event. */
    method TriggerSos(u: Option<string>, location: Option<string>) returns (ack: Ack)
      requires Valid()
      modifies this
      ensures Valid()
      ensures ack == Ack("success", AlertId(u, old(nextSeq)))
      ensures Server(alerts, nextSeq) == HandleSos(Server(old(alerts), old(nextSeq)), u, location).0
      ensures |alerts| == |old(alerts)| + 1
    {
      ghost var before := Server(alerts, nextSeq);
      TriggerIsFresh(before, u, location);
      var id := AlertId(u, nextSeq);
      alerts := alerts[id := ActiveRecord(id, u, location)];
      nextSeq := nextSeq + 1;
      ack := Ack("success", id);
      assert Server(alerts, nextSeq) == HandleSos(before, u, location).0;
    }

    /** A `cancel_sos` event. */
    method CancelSos(alertId: Option<string>)
      requires Valid()
      modifies this`alerts
      ensures Valid() && alerts == HandleCancel(old(alerts), alertId)
    {
      CancelKeepsGood(Server(alerts, nextSeq), alertId);
      if alertId.Some? && alertId.value in alerts {
        alerts := map k | k in alerts && k != alertId.value :: alerts[k];
      }
    }
  }
}
