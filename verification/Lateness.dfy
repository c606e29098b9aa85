/** For which server timeouts the client's idle margin is right: a run in which a request comes too late, for every
    shorter timeout. */
module Lateness {
  import opened Paths
  import opened Sessions
  import opened SessionSafety

  /** A request arrives for a session that the server has not seen for its timeout, and no delete was sent for it. */
  ghost predicate LateRequest(timeout: real, states: seq<State>, i: nat, t: nat) {
    && Run(timeout, states) && i < |states| && t < |states[i].threads| && states[i].threads[t].stage == Using
    && var s, uid := states[i], states[i].threads[t].session.uid;
       uid in s.server && !Deleted(s, uid) && s.now - s.server[uid].lastSeen >= timeout
  }

  /** How long the session rests before it is handed out again. */
  function Rest(timeout: real): real {
    if timeout > 1.0 then timeout - 1.0 else 0.0
  }

  /** It rests, is handed out again, and its request takes a second. */
  lemma SecondCall(timeout: real) returns (b: State)
    requires timeout < 2.0
    ensures Path(timeout, BEGIN, b) && Lone(b, Using) && b.now == Rest(timeout) + 1.0
    ensures b.threads[0].session.uid == 7 && b.server == map[7 := Served("h", 0.0, 0.0, false, false, false, false)]
  {
    hide Path, Only, SameLocks;
    var s1 := FirstCall(timeout);
    Waits(timeout, BEGIN, s1, Rest(timeout));
    var s2 := s1.(now := s1.now + Rest(timeout));
    var s3 := Acquires(timeout, BEGIN, s2, CALL);
    var s4 := Hits(timeout, BEGIN, s3, CALL);
    Acts(timeout, BEGIN, s4, 0, CALL);
    s4 := ReleaseHost(s4, 0, Using);
    Waits(timeout, BEGIN, s4, 1.0);
    b := s4.(now := s4.now + 1.0);
  }

  lemma LateRun(timeout: real)
    requires timeout < 2.0
    ensures exists states: seq<State>, i: nat, t: nat :: LateRequest(timeout, states, i, t)
  {
    hide Next, Initial;
    BeginPath(timeout);
    var b := SecondCall(timeout);
    var states :| Leads(timeout, states, BEGIN, b);
    assert LateRequest(timeout, states, |states| - 1, 0);
  }

  /** The margin is right for exactly the timeouts from two seconds on: there is a run in which a request comes too
      late if and only if the timeout is shorter. */
  lemma MarginExact(timeout: real)
    ensures (exists states: seq<State>, i: nat, t: nat :: LateRequest(timeout, states, i, t)) <==> timeout < 2.0
  {
    hide Run, Deleted;
    if timeout < 2.0 {
      LateRun(timeout);
    }
    forall states: seq<State>, i: nat, t: nat | timeout >= 2.0
      ensures !LateRequest(timeout, states, i, t)
    {
      if Run(timeout, states) && i < |states| && t < |states[i].threads| && states[i].threads[t].stage == Using {
        NeverIdleTooLong(timeout, states, i, t);
      }
    }
  }
}
