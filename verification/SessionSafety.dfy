/** What holds of the session cache in every reachable state, whatever the order of the threads' steps. */
module SessionSafety {
  import opened Options
  import opened Sessions

  // ---------- the invariant ----------

  ghost predicate Invariant(timeout: real, s: State) {
    && Locks(s) && Data(timeout, s)
    && (timeout > 1.0 ==> Clock(timeout, s))
    && (timeout >= 2.0 ==> Margins(timeout, s))
  }

  lemma Initially(timeout: real, s: State)
    requires Initial(s)
    ensures Invariant(timeout, s)
  {
    hide Margin;
  }

  lemma TickLocks(timeout: real, s: State, s': State)
    requires Tick(timeout, s, s') && Locks(s)
    ensures Locks(s')
  {
  }

  lemma TickThread(timeout: real, s: State, s': State, th: Thread)
    requires Tick(timeout, s, s') && ThreadGood(timeout, s, th)
    ensures ThreadGood(timeout, s', th)
  {
    hide Margin, AllTimely;
  }

  lemma TickHost(timeout: real, s: State, s': State, h: Host)
    requires Tick(timeout, s, s') && HostGood(timeout, s, h)
    ensures HostGood(timeout, s', h)
  {
    hide Margin, AllTimely;
    assert Busy(s, h) ==> Busy(s', h);
  }

  /** Time passes: what was stale stays stale. */
  lemma TickData(timeout: real, s: State, s': State)
    requires Tick(timeout, s, s') && Data(timeout, s)
    ensures Data(timeout, s')
  {
    hide ThreadGood, HostGood, AllTimely;
    forall t | 0 <= t < |s'.threads|
      ensures ThreadGood(timeout, s', s'.threads[t])
    {
      TickThread(timeout, s, s', s.threads[t]);
    }
    forall h
      ensures HostGood(timeout, s', h)
    {
      TickHost(timeout, s, s', h);
    }
    forall uid
      ensures Accounted(s', uid)
    {
      assert Accounted(s, uid);
      assert BeingStored(s, uid) ==> BeingStored(s', uid);
    }
  }

  lemma TickClock(timeout: real, s: State, s': State)
    requires Tick(timeout, s, s') && Clock(timeout, s)
    ensures Clock(timeout, s')
  {
    forall t | 0 <= t < |s'.threads|
      ensures ThreadClock(timeout, s', s'.threads[t])
    {
      assert ThreadClock(timeout, s, s.threads[t]) && Timely(timeout, s.threads[t], s'.now);
    }
  }

  lemma TickMargins(timeout: real, s: State, s': State)
    requires Tick(timeout, s, s') && Margins(timeout, s)
    ensures Margins(timeout, s')
  {
    hide AllTimely;
    forall uid
      ensures InTime(timeout, s', uid)
    {
      assert InTime(timeout, s, uid);
      if t :| 0 <= t < |s.threads| && InTimeBy(timeout, s, s.threads[t], uid) {
        assert InTimeBy(timeout, s', s'.threads[t], uid);
      }
    }
  }

  lemma InvariantKept(timeout: real, s: State, s': State)
    requires Invariant(timeout, s) && Next(timeout, s, s')
    ensures Invariant(timeout, s')
  {
    hide Locks, Data, Clock, Margins, After, Enabled, Tick;
    if Tick(timeout, s, s') {
      TickLocks(timeout, s, s');
      TickData(timeout, s, s');
      if timeout > 1.0 { TickClock(timeout, s, s'); }
      if timeout >= 2.0 { TickMargins(timeout, s, s'); }
    } else {
      var t: nat, c :| Enabled(s, t, c) && s' == After(timeout, s, t, c);
      LocksKept(timeout, s, t, c);
      DataKept(timeout, s, t, c);
      if timeout > 1.0 { ClockKept(timeout, s, t, c); }
      if timeout >= 2.0 { MarginsKept(timeout, s, t, c); }
    }
  }

  lemma {:induction false} AlwaysInvariant(timeout: real, states: seq<State>, i: nat)
    requires Run(timeout, states) && i < |states|
    ensures Invariant(timeout, states[i])
  {
    hide Invariant, Initial, Next;
    if i == 0 {
      Initially(timeout, states[0]);
    } else {
      AlwaysInvariant(timeout, states, i - 1);
      InvariantKept(timeout, states[i - 1], states[i]);
    }
  }

  // ---------- locks ----------

  /** At most one thread for each host is between taking the host's lock and releasing it. */
  lemma MutualExclusion(timeout: real, states: seq<State>, i: nat, t: nat, u: nat)
    requires Run(timeout, states) && i < |states|
    requires var s := states[i];
      && t < |s.threads| && u < |s.threads| && s.threads[t].stage.Inside? && s.threads[u].stage.Inside?
      && s.threads[t].host == s.threads[u].host
    ensures t == u
  {
    hide Run, Data, Clock, Margins, Locks;
    AlwaysInvariant(timeout, states, i);
    Alone(states[i], t, u);
  }

  lemma TableGrows(timeout: real, s: State, t: nat, c: Choice)
    requires Locks(s) && Enabled(s, t, c)
    ensures var s' := After(timeout, s, t, c); forall h :: h in s.table ==> h in s'.table && s'.table[h] == s.table[h]
  {
    if s.threads[t].stage != AtTable(Inserting) && s.threads[t].stage != AtTable(Looking) {
      TableSame(timeout, s, t, c);
    }
  }

  lemma TableSame(timeout: real, s: State, t: nat, c: Choice)
    requires Enabled(s, t, c) && s.threads[t].stage != AtTable(Inserting) && s.threads[t].stage != AtTable(Looking)
    ensures After(timeout, s, t, c).table == s.table
  {
    hide Only;
    hide Check, Time, Touch, Remove, Drop, Forget, Create, Store, Stamp, Start, Use;
  }

  lemma TableGrowsNext(timeout: real, s: State, s': State, h: Host)
    requires Locks(s) && Next(timeout, s, s') && h in s.table
    ensures h in s'.table && s'.table[h] == s.table[h]
  {
    hide Locks, After, Enabled, AllTimely;
    if !Tick(timeout, s, s') {
      var t: nat, c :| Enabled(s, t, c) && s' == After(timeout, s, t, c);
      TableGrows(timeout, s, t, c);
    }
  }

  /** The lock of a host is never replaced by another one. */
  lemma {:induction false} LockNeverReplaced(timeout: real, states: seq<State>, i: nat, j: nat, h: Host)
    requires Run(timeout, states) && i <= j < |states| && h in states[i].table
    ensures h in states[j].table && states[j].table[h] == states[i].table[h]
  {
    hide Next, Initial, Data, Clock, Margins, Locks;
    if i < j {
      LockNeverReplaced(timeout, states, i, j - 1, h);
      AlwaysInvariant(timeout, states, j - 1);
      TableGrowsNext(timeout, states[j - 1], states[j], h);
    }
  }

  lemma {:induction false} Beyond(used: set<Uid>) returns (uid: Uid)
    ensures forall u :: u in used ==> u < uid
    decreases |used|
  {
    uid := 0;
    if used != {} {
      var u :| u in used;
      var v := Beyond(used - {u});
      uid := if u < v then v else u + 1;
      assert forall w :: w in used ==> w == u || w in used - {u};
    }
  }

  predicate Unblocked(s: State, th: Thread) {
    (th.stage == Entering ==> s.tableLock == None) && (th.stage == Waiting ==> th.lock !in s.owner)
  }

  /** Whoever holds a lock can go on. */
  lemma WhoCanGo(s: State, t: nat) returns (u: nat)
    requires Locks(s) && t < |s.threads| && s.threads[t].stage != Idle
    ensures u < |s.threads| && s.threads[u].stage != Idle && Unblocked(s, s.threads[u])
  {
    u := t;
    if s.threads[t].stage == Entering && s.tableLock.Some? {
      u := s.tableLock.value;
    } else if s.threads[t].stage == Waiting && s.threads[t].lock in s.owner {
      u := s.owner[s.threads[t].lock];
    }
  }

  /** As long as some call is not finished, some thread in a call can take a step. */
  lemma NoDeadlock(timeout: real, states: seq<State>, i: nat, t: nat) returns (u: nat, c: Choice)
    requires Run(timeout, states) && i < |states| && t < |states[i].threads| && states[i].threads[t].stage != Idle
    ensures u < |states[i].threads| && states[i].threads[u].stage != Idle && Enabled(states[i], u, c)
  {
    hide Run, Data, Clock, Margins, Locks;
    AlwaysInvariant(timeout, states, i);
    u := WhoCanGo(states[i], t);
    var uid := Beyond(states[i].server.Keys);
    c := Choice("", true, false, Good, Session(uid, 0.0));
  }

  // ---------- sessions ----------

  /** No thread holds the host's lock. */
  ghost predicate Free(s: State, h: Host) {
    forall t :: 0 <= t < |s.threads| && s.threads[t].stage.Inside? ==> s.threads[t].host != h
  }

  /** Whenever the host's lock is free the two maps are in step, after failed deletes and creations and direct
      removals too. */
  lemma MapsInStep(timeout: real, states: seq<State>, i: nat, h: Host)
    requires Run(timeout, states) && i < |states| && Free(states[i], h)
    ensures h in states[i].cache <==> h in states[i].lastUsed
  {
    hide Run, Locks, Clock, Margins;
    AlwaysInvariant(timeout, states, i);
    assert HostGood(timeout, states[i], h);
  }

  /** The cached session of a host was created for that host. */
  lemma NeverMixed(timeout: real, states: seq<State>, i: nat, h: Host)
    requires Run(timeout, states) && i < |states| && h in states[i].cache
    ensures Known(states[i], h, states[i].cache[h].uid)
  {
    hide Run, Locks, Clock, Margins;
    AlwaysInvariant(timeout, states, i);
    assert HostGood(timeout, states[i], h);
  }

  /** Whenever the host's lock is free, a delete has got through for a session ever created for the host, other
      than the cached one, if and only if the answer to its creation reached the client; otherwise none was sent. */
  lemma NoneLeaked(timeout: real, states: seq<State>, i: nat, uid: Uid)
    requires Run(timeout, states) && i < |states| && uid in states[i].server
    requires Free(states[i], states[i].server[uid].host)
    requires !Cached(states[i], states[i].server[uid].host, uid)
    ensures states[i].server[uid].deleteDone <==> !states[i].server[uid].lost
    ensures states[i].server[uid].deleteSent <==> !states[i].server[uid].lost
  {
    hide Run, Locks, Clock, Margins;
    AlwaysInvariant(timeout, states, i);
    assert Accounted(states[i], uid);
  }

  /** A session that is handed out was created for the host and no delete for it has got through. One was sent for
      it if and only if a caller's direct removal of it has failed; the client's own deletes never concern it. */
  lemma HandedOutAlive(timeout: real, states: seq<State>, i: nat, t: nat)
    requires Run(timeout, states) && i < |states| && t < |states[i].threads|
    requires states[i].threads[t].stage == Inside(Leaving)
    ensures var s, th := states[i], states[i].threads[t];
      && Known(s, th.host, th.session.uid) && !Done(s, th.session.uid)
      && (Deleted(s, th.session.uid) <==> Kept(s, th.session.uid))
  {
    hide Run, Locks, Clock, Margins;
    AlwaysInvariant(timeout, states, i);
    assert ThreadGood(timeout, states[i], states[i].threads[t])
      && HostGood(timeout, states[i], states[i].threads[t].host);
    assert Accounted(states[i], states[i].threads[t].session.uid);
  }

  // ---------- idle time ----------

  /** With a server timeout of at least two seconds, the session for which a request arrives has not been idle for
      the timeout, also when another thread has sent a delete for it meanwhile. */
  lemma NeverIdleTooLong(timeout: real, states: seq<State>, i: nat, t: nat)
    requires timeout >= 2.0 && Run(timeout, states) && i < |states| && t < |states[i].threads|
    requires states[i].threads[t].stage == Using
    ensures var s, uid := states[i], states[i].threads[t].session.uid;
      uid in s.server && s.now - s.server[uid].lastSeen < timeout
  {
    hide Run;
    AlwaysInvariant(timeout, states, i);
    var s, th := states[i], states[i].threads[t];
    var uid := th.session.uid;
    assert ThreadGood(timeout, s, th) && InTime(timeout, s, uid);
    hide Data, Locks, Margins, Margin;
    assert !Unused(s, uid);
    var u :| 0 <= u < |s.threads| && InTimeBy(timeout, s, s.threads[u], uid);
    assert ThreadClock(timeout, s, s.threads[u]);
  }

  // ---------- calls come to an end ----------

  /** How many steps a call has at most ahead of it. */
  function Left(stage: Stage): nat {
    match stage
    case Idle => 0
    case Entering => 18
    case AtTable(look) => (match look case Looking => 17 case Inserting => 16 case Found => 15)
    case Waiting => 14
    case Inside(step) => LeftInside(step)
    case Using => 1
  }

  function LeftInside(step: HostStep): nat {
    match step
    case Checking => 13
    case Timing => 12
    case Removing => 11
    case Dropping => 10
    case Forgetting => 9
    case Creating => 8
    case Storing => 7
    case Stamping => 6
    case Hitting => 5
    case Leaving => 4
    case Failing => 3
  }

  /** Each step of a thread in a call leaves it fewer steps, and no other thread's step gives it more: with a
      thread that can go on in every state, no call lasts forever while requests are answered. */
  lemma CallsEnd(timeout: real, s: State, t: nat, c: Choice, u: nat)
    requires Enabled(s, t, c) && u < |s.threads| && s.threads[u].stage != Idle
    ensures var s' := After(timeout, s, t, c);
      if u == t then Left(s'.threads[u].stage) < Left(s.threads[u].stage) else s'.threads[u] == s.threads[u]
  {
    hide SameLocks, LastUse, Margin;
    if u == t {
      match s.threads[t].stage
      case AtTable(look) => LeftTable(s, t, look);
      case Inside(step) => LeftHost(timeout, s, t, step, c);
      case _ =>
    }
  }

  lemma LeftTable(s: State, t: nat, look: TableStep)
    requires t < |s.threads|
    ensures Left(AfterTable(s, t, look).threads[t].stage) < Left(AtTable(look))
  {
    hide Only;
  }

  lemma LeftHost(timeout: real, s: State, t: nat, step: HostStep, c: Choice)
    requires t < |s.threads|
    ensures Left(AfterHost(timeout, s, t, step, c).threads[t].stage) < LeftInside(step)
  {
    LeftCheck(s, t);
    LeftTime(timeout, s, t);
    LeftRequests(s, t, c);
    LeftStores(s, t);
    hide Only, SameLocks, Check, Time, Touch, Remove, Drop, Forget, Create, Store, Stamp, ReleaseHost;
    assert Left(ReleaseHost(s, t, Using).threads[t].stage) == 1
      && Left(ReleaseHost(s, t, Idle).threads[t].stage) == 0 by {
      LeftRelease(s, t);
    }
  }

  lemma LeftRelease(s: State, t: nat)
    requires t < |s.threads|
    ensures ReleaseHost(s, t, Using).threads[t].stage == Using && ReleaseHost(s, t, Idle).threads[t].stage == Idle
  {
    hide Only, SameLocks;
  }

  lemma LeftCheck(s: State, t: nat)
    requires t < |s.threads|
    ensures Left(Check(s, t).threads[t].stage) <= 12
  {
    hide Only, Stays, SameLocks;
  }

  lemma LeftTime(timeout: real, s: State, t: nat)
    requires t < |s.threads|
    ensures Left(Time(timeout, s, t).threads[t].stage) <= 11
  {
    hide Only, Stays, SameLocks, LastUse, Margin;
  }

  lemma LeftRequests(s: State, t: nat, c: Choice)
    requires t < |s.threads|
    ensures Left(Remove(s, t, c).threads[t].stage) <= 10 && Left(Create(s, t, c).threads[t].stage) <= 7
  {
    hide Only, SameLocks;
  }

  lemma LeftStores(s: State, t: nat)
    requires t < |s.threads|
    ensures Left(Touch(s, t).threads[t].stage) == 4 && Left(Drop(s, t).threads[t].stage) == 9
    ensures Left(Forget(s, t).threads[t].stage) <= 8 && Left(Store(s, t).threads[t].stage) == 6
    ensures Left(Stamp(s, t).threads[t].stage) == 4
  {
    hide Only, SameLocks;
  }
}
