/** The store of conversations that wait for the user to approve a change. */
module AgentSessions {
  import opened Wrappers
  import opened Seqs
  import opened AgentConversation

  // Times are in milliseconds.
  const SESSION_TTL := 15 * 60_000
  const MAX_PENDING := 100
  const MAX_PENDING_PER_USER := 5

  datatype Session = Session(messages: seq<Message>, toolCall: ToolCall, cluster: string, user: nat, clientIp: string,
                             correlationId: string, expiresAt: int)

  type Sessions = map<string, Session>

  datatype TakeResult = Taken | Missing | Expired | Forbidden

  predicate IsExpired(s: Session, now: int) { now > s.expiresAt }

  function Live(sessions: Sessions, now: int): Sessions {
    map id | id in sessions && !IsExpired(sessions[id], now) :: sessions[id]
  }

  function OfUser(sessions: Sessions, user: nat): set<string> {
    set id | id in sessions && sessions[id].user == user
  }

  /** Room for one more session of this user once the expired ones are gone. */
  predicate HasRoom(sessions: Sessions, user: nat, now: int) {
    |Live(sessions, now)| < MAX_PENDING && |OfUser(Live(sessions, now), user)| < MAX_PENDING_PER_USER
  }

  function Stamped(sess: Session, correlationId: string, now: int): Session {
    var id := if sess.correlationId == "" then correlationId else sess.correlationId;
    sess.(correlationId := id, expiresAt := now + SESSION_TTL)
  }

  function SaveIn(sessions: Sessions, sess: Session, id: string, correlationId: string, now: int): Sessions {
    if HasRoom(sessions, sess.user, now) then Live(sessions, now)[id := Stamped(sess, correlationId, now)]
    else Live(sessions, now)
  }

  function TakeOutcome(sessions: Sessions, id: string, user: nat, now: int): TakeResult {
    if id !in sessions then Missing
    else if IsExpired(sessions[id], now) then Expired
    else if sessions[id].user != user then Forbidden
    else Taken
  }

  function TakeFrom(sessions: Sessions, id: string, user: nat, now: int): Sessions {
    var outcome := TakeOutcome(sessions, id, user, now);
    if outcome == Taken || outcome == Expired then sessions - {id} else sessions
  }

  /** At most 100 sessions in all and 5 of one user. */
  ghost predicate Bounded(sessions: Sessions) {
    |sessions| <= 100 && forall user :: |OfUser(sessions, user)| <= 5
  }

  lemma ShrinkKeepsBounded(sessions: Sessions, smaller: Sessions)
    requires Bounded(sessions) && smaller.Keys <= sessions.Keys && forall id | id in smaller ::
      smaller[id] == sessions[id]
    ensures Bounded(smaller)
  {
    SubsetSize(smaller.Keys, sessions.Keys);
    forall user ensures |OfUser(smaller, user)| <= MAX_PENDING_PER_USER {
      SubsetSize(OfUser(smaller, user), OfUser(sessions, user));
      assert |OfUser(sessions, user)| <= MAX_PENDING_PER_USER;
    }
  }

  lemma OfUserAdd(sessions: Sessions, id: string, sess: Session, user: nat)
    requires id !in sessions
    ensures OfUser(sessions[id := sess], user) == if user == sess.user then OfUser(sessions, user) + {id}
      else OfUser(sessions, user)
  {
  }

  lemma AddKeepsBounded(sessions: Sessions, id: string, sess: Session)
    requires Bounded(sessions) && id !in sessions
    requires |sessions| < MAX_PENDING && |OfUser(sessions, sess.user)| < MAX_PENDING_PER_USER
    ensures Bounded(sessions[id := sess])
  {
    var after := sessions[id := sess];
    forall user ensures |OfUser(after, user)| <= MAX_PENDING_PER_USER {
      assert |OfUser(sessions, user)| <= MAX_PENDING_PER_USER;
      OfUserAdd(sessions, id, sess, user);
    }
  }

  lemma SaveKeepsBounded(sessions: Sessions, sess: Session, id: string, correlationId: string, now: int)
    requires Bounded(sessions) && id !in sessions
    ensures Bounded(SaveIn(sessions, sess, id, correlationId, now))
  {
    ShrinkKeepsBounded(sessions, Live(sessions, now));
    if HasRoom(sessions, sess.user, now) {
      AddKeepsBounded(Live(sessions, now), id, Stamped(sess, correlationId, now));
    }
  }

  lemma TakeKeepsBounded(sessions: Sessions, id: string, user: nat, now: int)
    requires Bounded(sessions)
    ensures Bounded(TakeFrom(sessions, id, user, now))
  {
    ShrinkKeepsBounded(sessions, TakeFrom(sessions, id, user, now));
  }

  /** The room that is left, counted in the store before the expired sessions are gone. */
  lemma RoomCounts(sessions: Sessions, user: nat, now: int)
    ensures Live(sessions, now).Keys == set x | x in sessions && now <= sessions[x].expiresAt
    ensures OfUser(Live(sessions, now), user)
         == set x | x in sessions && now <= sessions[x].expiresAt && sessions[x].user == user
  {
  }

  class SessionStore {
    var sessions: Sessions

    constructor ()
      ensures sessions == map[] && Bounded(sessions)
    {
      sessions := map[];
    }

    method EvictExpired(now: int)
      modifies this
      ensures sessions == Live(old(sessions), now)
    {
      var todo := sessions.Keys;
      while todo != {}
        invariant todo <= old(sessions).Keys
        invariant forall id :: id in sessions <==>
          id in old(sessions) && (id in todo || !IsExpired(old(sessions)[id], now))
        invariant forall id | id in sessions :: sessions[id] == old(sessions)[id]
        decreases todo
      {
        var id :| id in todo;
        todo := todo - {id};
        if IsExpired(sessions[id], now) { sessions := sessions - {id}; }
      }
    }

    method CountUser(user: nat) returns (n: nat)
      ensures n == |OfUser(sessions, user)|
    {
      n := 0;
      var todo := sessions.Keys;
      ghost var counted: set<string> := {};
      while todo != {}
        invariant todo <= sessions.Keys && n == |counted|
        invariant forall id :: id in counted <==> id in sessions && id !in todo && sessions[id].user == user
        decreases todo
      {
        var id :| id in todo;
        todo := todo - {id};
        if sessions[id].user == user {
          counted := counted + {id};
          n := n + 1;
        }
      }
      assert counted == OfUser(sessions, user);
    }

    /** `id` and `correlationId` are newly generated UUIDs. */
    method Save(sess: Session, id: string, correlationId: string, now: int) returns (saved: bool)
      requires id !in sessions && Bounded(sessions)
      modifies this
      ensures Bounded(sessions)
      ensures saved <==> HasRoom(old(sessions), sess.user, now)
      ensures sessions == SaveIn(old(sessions), sess, id, correlationId, now)
      ensures saved <==>
        && |set x | x in old(sessions) && now <= old(sessions)[x].expiresAt| < 100
        && |set x | x in old(sessions) && now <= old(sessions)[x].expiresAt && old(sessions)[x].user == sess.user| < 5
      ensures saved ==>
        && id in sessions && sessions[id].expiresAt == now + 15 * 60 * 1000
        && sessions[id].(expiresAt := sess.expiresAt, correlationId := sess.correlationId) == sess
        && sessions[id].correlationId == if sess.correlationId != "" then sess.correlationId else correlationId
      ensures forall x | x != id :: x in sessions <==> x in old(sessions) && now <= old(sessions)[x].expiresAt
      ensures forall x | x in sessions && x != id :: sessions[x] == old(sessions)[x]
    {
      RoomCounts(sessions, sess.user, now);
      SaveKeepsBounded(sessions, sess, id, correlationId, now);
      EvictExpired(now);
      if |sessions| >= MAX_PENDING { return false; }
      var userSessions := CountUser(sess.user);
      if userSessions >= MAX_PENDING_PER_USER { return false; }
      var stamped := sess;
      if stamped.correlationId == "" { stamped := stamped.(correlationId := correlationId); }
      stamped := stamped.(expiresAt := now + SESSION_TTL);
      sessions := sessions[id := stamped];
      saved := true;
    }

    method TakeOwned(id: string, user: nat, now: int) returns (sess: Option<Session>, result: TakeResult)
      requires Bounded(sessions)
      modifies this
      ensures Bounded(sessions)
      ensures result == TakeOutcome(old(sessions), id, user, now) && sessions == TakeFrom(old(sessions), id, user, now)
      ensures result == Missing <==> id !in old(sessions)
      ensures result == Expired <==> id in old(sessions) && old(sessions)[id].expiresAt < now
      ensures result == Forbidden <==>
        id in old(sessions) && now <= old(sessions)[id].expiresAt && old(sessions)[id].user != user
      ensures id in sessions <==> result == Forbidden
      ensures forall x | x != id :: x in sessions <==> x in old(sessions)
      ensures forall x | x in sessions :: x in old(sessions) && sessions[x] == old(sessions)[x]
      ensures result == Missing ==> sess == None
      ensures result != Missing ==> id in old(sessions) && sess == Some(old(sessions)[id])
    {
      TakeKeepsBounded(sessions, id, user, now);
      if id !in sessions { return None, Missing; }
      var found := sessions[id];
      if now > found.expiresAt {
        sessions := sessions - {id};
        return Some(found), Expired;
      }
      if found.user != user { return Some(found), Forbidden; }
      sessions := sessions - {id};
      return Some(found), Taken;
    }
  }
}
