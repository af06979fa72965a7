/** The loops of server/state.go that range over the session map, for every order the map may be visited in. */
module HostSuccession {
  import opened CallModel

  predicate Visits(sessions: map<ID, Session>, order: seq<ID>) {
    forall i :: 0 <= i < |order| ==> order[i] in sessions
  }

  lemma AnOrderVisits(sessions: map<ID, Session>, order: seq<ID>)
    requires Enumerates(order, sessions.Keys)
    ensures Visits(sessions, order)
    ensures forall s :: s in sessions ==> s in order
  {
    forall i | 0 <= i < |order| ensures order[i] in sessions { assert order[i] in order; }
  }

  /** isUserIDInCall. */
  method IsUserIDInCall(sessions: map<ID, Session>, userID: ID, order: seq<ID>) returns (found: bool)
    requires Enumerates(order, sessions.Keys)
    ensures found <==> InCall(sessions, userID)
  {
    AnOrderVisits(sessions, order);
    for i := 0 to |order|
      invariant forall k :: 0 <= k < i ==> sessions[order[k]].userID != userID
    {
      var s := order[i];
      if sessions[s].userID == userID { return true; }
    }
    return false;
  }

  /** onlyUserLeft: the call has sessions and all of them are the user's. */
  method OnlyUserLeft(sessions: map<ID, Session>, userID: ID, order: seq<ID>) returns (found: bool)
    requires Enumerates(order, sessions.Keys)
    ensures found <==> InCall(sessions, userID) && forall s :: s in sessions ==> sessions[s].userID == userID
  {
    AnOrderVisits(sessions, order);
    found := false;
    for i := 0 to |order|
      invariant found <==> i > 0
      invariant forall k :: 0 <= k < i ==> sessions[order[k]].userID == userID
    {
      if sessions[order[i]].userID != userID { return false; }
      found := true;
    }
    if found {
      var s := order[0];
      assert s in sessions && sessions[s].userID == userID;
    }
  }

  /** The earliest joiner other than the bot, as the loop of getHostID replaces one candidate by the next. */
  function Survey(sessions: map<ID, Session>, order: seq<ID>, best: Option<Session>): Option<Session>
    requires Visits(sessions, order)
  {
    if order == [] then best
    else
      assert Visits(sessions, order[1..]);
      Survey(sessions, order[1..], Better(sessions[order[0]], best))
  }

  function Better(s: Session, best: Option<Session>): Option<Session> {
    if s.userID != BOT && (best.None? || s.joinAt < best.value.joinAt) then Some(s) else best
  }

  ghost function HostFrom(call: Call, sessions: map<ID, Session>, order: seq<ID>): ID
    requires Visits(sessions, order)
  {
    if call.props.hostLockedUserID != NONE && InCall(sessions, call.props.hostLockedUserID) then call.props.hostLockedUserID
    else if InCall(sessions, call.HostID()) then call.HostID()
    else
      var s := Survey(sessions, order, None);
      if s.Some? then s.value.userID else NONE
  }

  /** getHostID, visiting the sessions in the given order. */
  method GetHostID(call: Call, sessions: map<ID, Session>, order: seq<ID>) returns (host: ID)
    requires Enumerates(order, sessions.Keys)
    requires forall s :: s in sessions ==> sessions[s].userID != NONE
    ensures Visits(sessions, order) && host == HostFrom(call, sessions, order)
    ensures IsNextHost(call, sessions, host)
    ensures !InCall(sessions, call.HostID()) && !InCall(sessions, call.props.hostLockedUserID) && SomeoneInCall(sessions) ==>
              exists s :: s in sessions && sessions[s].userID == host != BOT
                          && forall t :: t in sessions && sessions[t].userID != BOT ==> sessions[s].joinAt <= sessions[t].joinAt
  {
    AnOrderVisits(sessions, order);
    if call.props.hostLockedUserID != NONE {
      var present := IsUserIDInCall(sessions, call.props.hostLockedUserID, order);
      if present { return call.props.hostLockedUserID; }
    }
    host := NONE;
    var joinAt := 0;
    ghost var first: Option<Session> := None;
    for i := 0 to |order|
      invariant Visits(sessions, order[i..])
      invariant forall k :: 0 <= k < i ==> sessions[order[k]].userID != call.HostID()
      invariant if first.None? then host == NONE else host == first.value.userID && host != NONE && joinAt == first.value.joinAt
      invariant Survey(sessions, order[i..], first) == Survey(sessions, order, None)
    {
      var session := sessions[order[i]];
      assert order[i..][1..] == order[i + 1..];
      first := Better(session, first);
      if session.userID == call.HostID() { return call.HostID(); }
      if session.userID == BOT { continue; }
      if host == NONE {
        host, joinAt := session.userID, session.joinAt;
        continue;
      }
      if session.joinAt < joinAt { host, joinAt := session.userID, session.joinAt; }
    }
    NextHostIsSurveyed(call, sessions, order);
  }

  /** What a survey returns: the best so far or a visited session, and none of the visited ones joined earlier. */
  lemma {:induction false} SurveyLeads(sessions: map<ID, Session>, order: seq<ID>, best: Option<Session>)
    requires Visits(sessions, order)
    ensures var r := Survey(sessions, order, best);
            && (r == best || exists i :: 0 <= i < |order| && sessions[order[i]].userID != BOT && r == Some(sessions[order[i]]))
            && (best.Some? ==> r.Some? && r.value.joinAt <= best.value.joinAt)
            && (forall i :: 0 <= i < |order| && sessions[order[i]].userID != BOT ==> r.Some? && r.value.joinAt <= sessions[order[i]].joinAt)
  {
    if order != [] {
      var best1 := Better(sessions[order[0]], best);
      SurveyLeads(sessions, order[1..], best1);
      var r := Survey(sessions, order, best);
      if r != best && r != best1 {
        var i :| 0 <= i < |order[1..]| && sessions[order[1..][i]].userID != BOT && r == Some(sessions[order[1..][i]]);
        assert r == Some(sessions[order[i + 1]]);
      }
      forall i | 0 <= i < |order| && sessions[order[i]].userID != BOT ensures r.Some? && r.value.joinAt <= sessions[order[i]].joinAt {
        if i > 0 { assert order[i] == order[1..][i - 1]; }
      }
    }
  }

  /** Whatever the order, the surveyed host is one the rules allow. */
  lemma NextHostIsSurveyed(call: Call, sessions: map<ID, Session>, order: seq<ID>)
    requires Enumerates(order, sessions.Keys) && Visits(sessions, order)
    ensures IsNextHost(call, sessions, HostFrom(call, sessions, order))
  {
    SurveyLeads(sessions, order, None);
    if SomeoneInCall(sessions) {
      var s :| s in sessions && sessions[s].userID != BOT;
      assert s in order;
    }
    var r := Survey(sessions, order, None);
    if r.Some? {
      var i :| 0 <= i < |order| && sessions[order[i]].userID != BOT && r == Some(sessions[order[i]]);
      assert JoinedFirst(sessions, order[i]) by {
        forall t | t in sessions && sessions[t].userID != BOT ensures sessions[order[i]].joinAt <= sessions[t].joinAt { assert t in order; }
      }
    }
  }

  /** Among equally early joiners the survey keeps the first it visits. */
  lemma {:induction false} SurveyKeeps(sessions: map<ID, Session>, order: seq<ID>, best: Session)
    requires Visits(sessions, order)
    requires forall i :: 0 <= i < |order| && sessions[order[i]].userID != BOT ==> best.joinAt <= sessions[order[i]].joinAt
    ensures Survey(sessions, order, Some(best)) == Some(best)
  {
    if order != [] { SurveyKeeps(sessions, order[1..], best); }
  }

  /** Any finite set can be listed without repetition. */
  lemma {:induction false} SomeOrder(xs: set<ID>) returns (order: seq<ID>)
    ensures Enumerates(order, xs)
    decreases |xs|
  {
    order := [];
    if x :| x in xs {
      var rest := SomeOrder(xs - {x});
      order := [x] + rest;
    }
  }

  /** The users the rules allow are exactly those that getHostID names for some order of the session map. */
  lemma NextHostIff(call: Call, sessions: map<ID, Session>, host: ID)
    ensures IsNextHost(call, sessions, host) <==>
              exists order :: Enumerates(order, sessions.Keys) && Visits(sessions, order) && HostFrom(call, sessions, order) == host
  {
    if order :| Enumerates(order, sessions.Keys) && Visits(sessions, order) && HostFrom(call, sessions, order) == host {
      NextHostIsSurveyed(call, sessions, order);
    }
    if IsNextHost(call, sessions, host) { var _ := AnOrderFor(call, sessions, host); }
  }

  lemma AnOrderFor(call: Call, sessions: map<ID, Session>, host: ID) returns (order: seq<ID>)
    requires IsNextHost(call, sessions, host)
    ensures Enumerates(order, sessions.Keys) && Visits(sessions, order) && HostFrom(call, sessions, order) == host
  {
    order := SomeOrder(sessions.Keys);
    AnOrderVisits(sessions, order);
    NextHostIsSurveyed(call, sessions, order);
    var locked := call.props.hostLockedUserID;
    if !(locked != NONE && InCall(sessions, locked)) && !InCall(sessions, call.HostID()) && SomeoneInCall(sessions) {
      var s :| JoinedFirst(sessions, s) && sessions[s].userID == host;
      var rest := SomeOrder(sessions.Keys - {s});
      order := [s] + rest;
      AnOrderVisits(sessions, order);
      assert order[1..] == rest;
      SurveyKeeps(sessions, rest, sessions[s]);
    }
  }

  /** When no two sessions joined at the same time the order does not matter at all. */
  lemma NextHostIsUnique(call: Call, sessions: map<ID, Session>, a: ID, b: ID)
    requires IsNextHost(call, sessions, a) && IsNextHost(call, sessions, b)
    requires forall s, t :: s in sessions && t in sessions && s != t && sessions[s].userID != BOT && sessions[t].userID != BOT ==>
               sessions[s].joinAt != sessions[t].joinAt
    ensures a == b
  {
  }
}
