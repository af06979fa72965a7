/** Who receives an event (server/utils.go, server/websocket.go). */
module Fanout {
  import opened CallModel
  import opened HostSuccession

  /** getUserIDsFromSessions: every user of a session once, whatever the order of the session map. */
  method GetUserIDsFromSessions(sessions: map<ID, Session>, order: seq<ID>) returns (userIDs: seq<ID>)
    requires Enumerates(order, sessions.Keys)
    ensures Enumerates(userIDs, UsersOf(sessions))
  {
    AnOrderVisits(sessions, order);
    userIDs := [];
    var dedup: set<ID> := {};
    for i := 0 to |order|
      invariant Enumerates(userIDs, dedup)
      invariant forall u :: u in dedup ==> u in UsersOf(sessions)
      invariant forall k :: 0 <= k < i ==> sessions[order[k]].userID in dedup
    {
      var s := order[i];
      var session := sessions[s];
      assert session.userID in UsersOf(sessions);
      if session.userID !in dedup { userIDs, dedup := userIDs + [session.userID], dedup + {session.userID}; }
    }
    forall u | u in UsersOf(sessions) ensures u in dedup {
      var s :| s in sessions && sessions[s].userID == u;
      assert s in order;
    }
  }

  /** A broadcast handed to the server: to one user if it names one, else to the channel's members not omitted. */
  datatype Broadcast = Broadcast(channelID: ID, userID: ID, omit: set<ID>)

  predicate Reaches(b: Broadcast, userID: ID, members: set<ID>) {
    if b.userID != NONE then b.userID == userID else userID in members && userID !in b.omit
  }

  /** How many copies a user is sent. */
  function Copies(sent: seq<Broadcast>, userID: ID, members: set<ID>): nat {
    if sent == [] then 0
    else Copies(sent[..|sent| - 1], userID, members) + (if Reaches(sent[|sent| - 1], userID, members) then 1 else 0)
  }

  lemma OneMore(sent: seq<Broadcast>, b: Broadcast, userID: ID, members: set<ID>)
    ensures Copies(sent + [b], userID, members) == Copies(sent, userID, members) + (if Reaches(b, userID, members) then 1 else 0)
  {
    assert (sent + [b])[..|sent + [b]| - 1] == sent;
  }

  /** publishWebSocketEvent for a broadcast to a channel. `aboutUser` is the user a join or leave event is about; `botID` is
      NONE before the bot exists. */
  method PublishWebSocketEvent(joinOrLeave: bool, aboutUser: ID, channelID: ID, userIDs: seq<ID>, botID: ID, ghost members: set<ID>)
    returns (sent: seq<Broadcast>)
    requires channelID != NONE
    requires forall i :: 0 <= i < |userIDs| ==> userIDs[i] != NONE
    requires forall i, j :: 0 <= i < j < |userIDs| ==> userIDs[i] != userIDs[j]
    ensures joinOrLeave && aboutUser == botID ==> sent == []
    ensures !(joinOrLeave && aboutUser == botID) ==>
              forall u :: Copies(sent, u, members) ==
                          if botID != NONE && u == botID then 1 else if userIDs == [] then (if u in members then 1 else 0) else if u in userIDs then 1 else 0
  {
    if joinOrLeave && aboutUser == botID { return []; }
    sent := if botID != NONE then [Broadcast(NONE, botID, {})] else [];
    var omit := if botID != NONE then {botID} else {};
    assert forall u :: Copies(sent, u, members) == if botID != NONE && u == botID then 1 else 0 by {
      if botID != NONE { assert sent[..0] == []; }
    }
    if |userIDs| > 0 {
      for i := 0 to |userIDs|
        invariant forall u :: Copies(sent, u, members) == if (botID != NONE && u == botID) || u in userIDs[..i] then 1 else 0
      {
        var userID := userIDs[i];
        assert userIDs[..i + 1] == userIDs[..i] + [userID];
        if userID == botID { continue; }
        forall u { OneMore(sent, Broadcast(channelID, userID, omit), u, members); }
        sent := sent + [Broadcast(channelID, userID, omit)];
      }
      assert userIDs[..|userIDs|] == userIDs;
      return;
    }
    forall u { OneMore(sent, Broadcast(channelID, NONE, omit), u, members); }
    sent := sent + [Broadcast(channelID, NONE, omit)];
  }

  /** Both together, as every event about a call's participants is sent: one copy for each distinct participant, one for
      the bot whether or not it is in the call, none for anyone else. */
  method PublishToParticipants(sessions: map<ID, Session>, order: seq<ID>, joinOrLeave: bool, aboutUser: ID, channelID: ID,
                               ghost members: set<ID>)
    returns (sent: seq<Broadcast>)
    requires Enumerates(order, sessions.Keys) && channelID != NONE
    requires forall s :: s in sessions ==> sessions[s].userID != NONE
    ensures joinOrLeave && aboutUser == BOT ==> sent == []
    ensures !(joinOrLeave && aboutUser == BOT) && SomeoneInCall(sessions) ==>
              forall u :: Copies(sent, u, members) == if u == BOT || u in UsersOf(sessions) then 1 else 0
  {
    var userIDs := GetUserIDsFromSessions(sessions, order);
    forall i | 0 <= i < |userIDs| ensures userIDs[i] != NONE {
      var u := userIDs[i];
      assert u in userIDs && u in UsersOf(sessions);
    }
    sent := PublishWebSocketEvent(joinOrLeave, aboutUser, channelID, userIDs, BOT, members);
    if s :| s in sessions && sessions[s].userID != BOT { assert sessions[s].userID in UsersOf(sessions); }
  }
}
