/** What direct calls of remove_session can do: a failed one leaves a session that is handed out again, and one
    made without the host's lock loses a session. */
module Removals {
  import opened Paths
  import opened Sessions

  // ---------- a removal that fails ----------

  /** A session is about to be handed out although a delete was sent for it. */
  ghost predicate HandsOutDeleted(timeout: real, states: seq<State>, i: nat, t: nat) {
    && Run(timeout, states) && i < |states| && t < |states[i].threads| && states[i].threads[t].stage == Inside(Leaving)
    && Deleted(states[i], states[i].threads[t].session.uid)
  }

  const PURGE := Choice("h", true, true, Refused, Session(0, 0.0))

  /** The direct removal's request fails: both maps stay as they are. */
  lemma FailedRemoval(timeout: real, a: State) returns (b: State)
    requires Path(timeout, BEGIN, a) && Lone(a, Idle) && a.owner == map[] && "h" in a.cache
    requires a.cache["h"].uid in a.server
    ensures Path(timeout, BEGIN, b) && Lone(b, Idle) && b.owner == map[]
    ensures b.now == a.now && b.cache == a.cache && b.lastUsed == a.lastUsed
    ensures a.cache["h"].uid in b.server
    ensures b.server[a.cache["h"].uid] == DeleteSent(a.server[a.cache["h"].uid], true, PURGE)
  {
    hide Path, Only, SameLocks;
    var s1 := Acquires(timeout, BEGIN, a, PURGE);
    Acts(timeout, BEGIN, s1, 0, PURGE);
    var s2 := Remove(s1, 0, PURGE);
    Acts(timeout, BEGIN, s2, 0, PURGE);
    b := ReleaseHost(s2, 0, Idle);
    assert b.owner == map[];
  }

  /** For every timeout: a session is created, its direct removal fails, and the next call hands it out. */
  lemma FailedRemovalRun(timeout: real)
    ensures exists states: seq<State>, i: nat, t: nat :: HandsOutDeleted(timeout, states, i, t)
  {
    hide Next, Initial, Only, SameLocks;
    BeginPath(timeout);
    var s1 := FirstCall(timeout);
    var s2 := FailedRemoval(timeout, s1);
    var s3 := Acquires(timeout, BEGIN, s2, CALL);
    var s4 := Hits(timeout, BEGIN, s3, CALL);
    var states :| Leads(timeout, states, BEGIN, s4);
    assert HandsOutDeleted(timeout, states, |states| - 1, 0);
  }

  // ---------- a removal without the lock ----------

  /** A caller of remove_session who does not hold the host's lock, as in the rooms' computers: what it does next. */
  datatype Visitor =
    | Asking      // read the cached session and send a delete for it
    | Purging     // forget the session
    | Clearing    // forget its time
    | Gone

  function VisitDelete(s: State, h: Host): State {
    if h in s.cache && s.cache[h].uid in s.server then
      s.(server := s.server[s.cache[h].uid := DeleteSent(s.server[s.cache[h].uid], true, CALL)])
    else s
  }

  ghost predicate Visits(h: Host, v: Visitor, s: State, v': Visitor, s': State) {
    match v
    case Asking => v' == Purging && s' == VisitDelete(s, h)
    case Purging => v' == Clearing && s' == s.(cache := s.cache - {h})
    case Clearing => v' == Gone && s' == s.(lastUsed := s.lastUsed - {h})
    case Gone => false
  }

  /** The client's threads with their locks, and one visitor without. */
  ghost predicate VisitedRun(timeout: real, h: Host, visitor: seq<Visitor>, states: seq<State>) {
    && |visitor| == |states| > 0 && Initial(states[0]) && visitor[0] == Asking
    && forall i :: 0 <= i < |states| - 1 ==>
         || (visitor[i + 1] == visitor[i] && Next(timeout, states[i], states[i + 1]))
         || Visits(h, visitor[i], states[i], visitor[i + 1], states[i + 1])
  }

  /** A session whose creation was answered is no longer cached, no thread is inside for its host, and no delete was
      ever sent for it. */
  ghost predicate Leaks(s: State, uid: Uid) {
    && uid in s.server && !s.server[uid].lost && !s.server[uid].deleteSent
    && !Cached(s, s.server[uid].host, uid)
    && forall t :: 0 <= t < |s.threads| ==> !s.threads[t].stage.Inside?
  }

  ghost predicate LeakyRun(timeout: real, h: Host, visitor: seq<Visitor>, states: seq<State>, uid: Uid) {
    VisitedRun(timeout, h, visitor, states) && Leaks(states[|states| - 1], uid)
  }

  /** The visitor finds no session; a session is created and stored; the visitor goes on and drops it. */
  lemma UnlockedRemovalLeaks(timeout: real)
    ensures exists visitor: seq<Visitor>, states: seq<State>, uid: Uid :: LeakyRun(timeout, "h", visitor, states, uid)
  {
    hide Next, Only, SameLocks, Initial;
    BeginPath(timeout);
    var b := FirstCall(timeout);
    var during :| Leads(timeout, during, BEGIN, b);
    var dropped := b.(cache := b.cache - {"h"});
    var states := [BEGIN] + during + [dropped, dropped.(lastUsed := dropped.lastUsed - {"h"})];
    var visitor := [Asking] + seq(|during|, (i: int) => Purging) + [Clearing, Gone];
    assert VisitDelete(BEGIN, "h") == BEGIN;
    forall i | 0 <= i < |states| - 1
      ensures (visitor[i + 1] == visitor[i] && Next(timeout, states[i], states[i + 1]))
              || Visits("h", visitor[i], states[i], visitor[i + 1], states[i + 1])
    {
      if 0 < i < |during| {
        assert states[i] == during[i - 1] && states[i + 1] == during[i - 1 + 1];
      }
    }
    assert Leaks(states[|states| - 1], 7);
    assert LeakyRun(timeout, "h", visitor, states, 7);
  }
}
