/** The session cache of the Veyon client as the steps its threads take: one lock for each host, one lock for
    the table of locks, two maps, and a server that forgets sessions idle for too long. */
module Sessions {
  import opened Options

  type Host = string
  type Uid = nat
  type Lock = nat

  /** A session as the client keeps it. */
  datatype Session = Session(uid: Uid, validUntil: real)

  /** A session as the server knows it: whether the client has tried to delete it, whether such a request got
      through, whether one that a caller asked for did not, and whether the answer to its creation never reached
      the client. */
  datatype Served = Served(
    host: Host, created: real, lastSeen: real, deleteSent: bool, deleteDone: bool, kept: bool, lost: bool)

  /** What a thread does next with the table of locks. */
  datatype TableStep =
    | Looking     // look the host's lock up
    | Inserting   // there is none: insert a new one
    | Found       // release the lock of the table

  /** What a thread does next while it holds its host's lock. */
  datatype HostStep =
    | Checking    // read the cached session, and whether it is still valid
    | Timing      // read how long it has been idle
    | Hitting     // it is usable: note the time
    | Leaving     // release the host's lock and hand the session out
    | Removing    // send a delete for the cached session
    | Dropping    // forget the session
    | Forgetting  // forget its time
    | Creating    // ask for a new session
    | Storing     // store the session that was created
    | Stamping    // note the time
    | Failing     // release the host's lock, without a session to hand out

  datatype Stage =
    | Idle                    // start a call
    | Entering                // acquire the lock of the table
    | AtTable(look: TableStep)
    | Waiting                 // acquire the host's lock
    | Inside(step: HostStep)
    | Using                   // the handed-out session's request arrives

  /** A thread with its local variables. RemoveOnly: the call is one of remove_session by a caller who holds the
      host's lock, not one for a session. Deadline: when the request that uses the session has to arrive. */
  datatype Thread = Thread(
    stage: Stage, host: Host, renew: bool, removeOnly: bool,
    lock: Lock, session: Session, created: real, deadline: real)

  datatype State = State(
    now: real,
    threads: seq<Thread>,
    tableLock: Option<nat>,
    table: map<Host, Lock>,
    nextLock: Lock,
    owner: map<Lock, nat>,
    cache: map<Host, Session>,
    lastUsed: map<Host, real>,
    server: map<Uid, Served>)

  datatype Answer = Good | Refused | Lost

  /** What a step cannot know: the call a thread starts, and what the network and the server answer. */
  datatype Choice = Choice(host: Host, renew: bool, removeOnly: bool, answer: Answer, session: Session)

  /** The client lets a session rest one second less than the server does, but at least one second. */
  function Margin(timeout: real): real {
    if timeout - 1.0 > 1.0 then timeout - 1.0 else 1.0
  }

  // ---------- steps ----------

  /** A step at which the thread keeps its host's lock and no lock changes hands. */
  ghost predicate Stays(s: State, s': State, t: nat) {
    && Only(s, s', t) && SameLocks(s, s')
    && s'.threads[t].host == s.threads[t].host && s'.threads[t].lock == s.threads[t].lock && s'.threads[t].stage.Inside?
  }

  /** All other threads stay where they are. */
  ghost predicate Only(s: State, s': State, t: nat) {
    && t < |s.threads| == |s'.threads|
    && forall u :: 0 <= u < |s.threads| && u != t ==> s'.threads[u] == s.threads[u]
  }

  predicate SameLocks(s: State, s': State) {
    s'.tableLock == s.tableLock && s'.table == s.table && s'.nextLock == s.nextLock && s'.owner == s.owner
  }

  function Goto(s: State, t: nat, stage: Stage): (s': State)
    requires t < |s.threads|
    ensures Only(s, s', t) && SameLocks(s, s')
  {
    s.(threads := s.threads[t := s.threads[t].(stage := stage)])
  }

  function Start(s: State, t: nat, c: Choice): (s': State)
    requires t < |s.threads|
    ensures Only(s, s', t) && SameLocks(s, s')
  {
    s.(threads := s.threads[t :=
      s.threads[t].(stage := Entering, host := c.host, renew := c.renew, removeOnly := c.removeOnly)])
  }

  function TakeTable(s: State, t: nat): (s': State)
    requires t < |s.threads|
    ensures Only(s, s', t)
  {
    Goto(s, t, AtTable(Looking)).(tableLock := Some(t))
  }

  function LookUp(s: State, t: nat): (s': State)
    requires t < |s.threads|
    ensures Only(s, s', t)
  {
    var th := s.threads[t];
    if th.host in s.table then s.(threads := s.threads[t := th.(stage := AtTable(Found), lock := s.table[th.host])])
    else Goto(s, t, AtTable(Inserting))
  }

  function Insert(s: State, t: nat): (s': State)
    requires t < |s.threads|
    ensures Only(s, s', t)
  {
    var th := s.threads[t];
    s.(threads := s.threads[t := th.(stage := AtTable(Found), lock := s.nextLock)],
       table := s.table[th.host := s.nextLock], nextLock := s.nextLock + 1)
  }

  function ReleaseTable(s: State, t: nat): (s': State)
    requires t < |s.threads|
    ensures Only(s, s', t)
  {
    Goto(s, t, Waiting).(tableLock := None)
  }

  function TakeHost(s: State, t: nat): (s': State)
    requires t < |s.threads|
    ensures Only(s, s', t)
  {
    Goto(s, t, Inside(if s.threads[t].removeOnly then Removing else Checking))
      .(owner := s.owner[s.threads[t].lock := t])
  }

  /** No usable session: a new one is created, unless the caller asked for a cached one only. */
  function Miss(s: State, t: nat): (s': State)
    requires t < |s.threads|
    ensures Stays(s, s', t)
  {
    Goto(s, t, if s.threads[t].renew then Inside(Removing) else Inside(Failing))
  }

  function Check(s: State, t: nat): (s': State)
    requires t < |s.threads|
    ensures Stays(s, s', t)
  {
    var th := s.threads[t];
    if th.host in s.cache && s.cache[th.host].validUntil > s.now then
      s.(threads := s.threads[t := th.(stage := Inside(Timing), session := s.cache[th.host])])
    else Miss(s, t)
  }

  function LastUse(s: State, host: Host): real {
    if host in s.lastUsed then s.lastUsed[host] else 0.0
  }

  function Time(timeout: real, s: State, t: nat): (s': State)
    requires t < |s.threads|
    ensures Stays(s, s', t)
  {
    var th := s.threads[t];
    if s.now - LastUse(s, th.host) < Margin(timeout) then
      s.(threads := s.threads[t := th.(stage := Inside(Hitting), deadline := s.now + 1.0)])
    else Miss(s, t)
  }

  function Touch(s: State, t: nat): (s': State)
    requires t < |s.threads|
    ensures Stays(s, s', t)
  {
    Goto(s, t, Inside(Leaving)).(lastUsed := s.lastUsed[s.threads[t].host := s.now])
  }

  function ReleaseHost(s: State, t: nat, stage: Stage): (s': State)
    requires t < |s.threads|
    ensures Only(s, s', t)
  {
    Goto(s, t, stage).(owner := s.owner - {s.threads[t].lock})
  }

  function Use(s: State, t: nat): (s': State)
    requires t < |s.threads|
    ensures Only(s, s', t) && SameLocks(s, s')
  {
    var uid := s.threads[t].session.uid;
    Goto(s, t, Idle)
      .(server := if uid in s.server then s.server[uid := s.server[uid].(lastSeen := s.now)] else s.server)
  }

  /** A session after a delete for it: the request gets through, or not. */
  function DeleteSent(v: Served, removeOnly: bool, c: Choice): Served {
    v.(deleteSent := true, deleteDone := v.deleteDone || c.answer.Good?,
       kept := v.kept || (removeOnly && !c.answer.Good?))
  }

  /** A delete is sent for the cached session; without one the request names no session. When the request
      fails, the session stays in the cache. */
  function Remove(s: State, t: nat, c: Choice): (s': State)
    requires t < |s.threads|
    ensures Stays(s, s', t)
  {
    var host := s.threads[t].host;
    Goto(s, t, if c.answer.Good? then Inside(Dropping) else Inside(Failing)).(server :=
      if host in s.cache && s.cache[host].uid in s.server then
        s.server[s.cache[host].uid := DeleteSent(s.server[s.cache[host].uid], s.threads[t].removeOnly, c)]
      else s.server)
  }

  function Drop(s: State, t: nat): (s': State)
    requires t < |s.threads|
    ensures Stays(s, s', t)
  {
    Goto(s, t, Inside(Forgetting)).(cache := s.cache - {s.threads[t].host})
  }

  function Forget(s: State, t: nat): (s': State)
    requires t < |s.threads|
    ensures Stays(s, s', t)
  {
    Goto(s, t, Inside(if s.threads[t].removeOnly then Failing else Creating))
      .(lastUsed := s.lastUsed - {s.threads[t].host})
  }

  function Create(s: State, t: nat, c: Choice): (s': State)
    requires t < |s.threads|
    ensures Stays(s, s', t)
  {
    var th := s.threads[t];
    match c.answer
    case Good =>
      s.(threads := s.threads[t := th.(stage := Inside(Storing), session := c.session, created := s.now)],
         server := s.server[c.session.uid := Served(th.host, s.now, s.now, false, false, false, false)])
    case Refused => Goto(s, t, Inside(Failing))
    case Lost =>
      Goto(s, t, Inside(Failing))
        .(server := s.server[c.session.uid := Served(th.host, s.now, s.now, false, false, false, true)])
  }

  function Store(s: State, t: nat): (s': State)
    requires t < |s.threads|
    ensures Stays(s, s', t)
  {
    Goto(s, t, Inside(Stamping)).(cache := s.cache[s.threads[t].host := s.threads[t].session])
  }

  function Stamp(s: State, t: nat): (s': State)
    requires t < |s.threads|
    ensures Stays(s, s', t)
  {
    var th := s.threads[t];
    s.(threads := s.threads[t := th.(stage := Inside(Leaving), deadline := s.now + 1.0)],
       lastUsed := s.lastUsed[th.host := s.now])
  }

  /** The server gives every session it creates a new identifier. */
  predicate NewSession(s: State, c: Choice) {
    c.answer.Refused? || c.session.uid !in s.server
  }

  predicate Enabled(s: State, t: nat, c: Choice) {
    && t < |s.threads|
    && (s.threads[t].stage == Entering ==> s.tableLock == None)
    && (s.threads[t].stage == Waiting ==> s.threads[t].lock !in s.owner)
    && (s.threads[t].stage == Inside(Creating) ==> NewSession(s, c))
  }

  function AfterTable(s: State, t: nat, look: TableStep): (s': State)
    requires t < |s.threads|
    ensures Only(s, s', t)
  {
    match look
    case Looking => LookUp(s, t)
    case Inserting => Insert(s, t)
    case Found => ReleaseTable(s, t)
  }

  function AfterHost(timeout: real, s: State, t: nat, step: HostStep, c: Choice): (s': State)
    requires t < |s.threads|
    ensures Only(s, s', t) && (step != Leaving && step != Failing ==> Stays(s, s', t))
  {
    match step
    case Checking => Check(s, t)
    case Timing => Time(timeout, s, t)
    case Hitting => Touch(s, t)
    case Leaving => ReleaseHost(s, t, Using)
    case Removing => Remove(s, t, c)
    case Dropping => Drop(s, t)
    case Forgetting => Forget(s, t)
    case Creating => Create(s, t, c)
    case Storing => Store(s, t)
    case Stamping => Stamp(s, t)
    case Failing => ReleaseHost(s, t, Idle)
  }

  function After(timeout: real, s: State, t: nat, c: Choice): (s': State)
    requires Enabled(s, t, c)
    ensures Only(s, s', t)
  {
    match s.threads[t].stage
    case Idle => Start(s, t, c)
    case Entering => TakeTable(s, t)
    case AtTable(look) => AfterTable(s, t, look)
    case Waiting => TakeHost(s, t)
    case Inside(step) => AfterHost(timeout, s, t, step, c)
    case Using => Use(s, t)
  }

  predicate Pending(stage: Stage) {
    stage == Inside(Hitting) || stage == Inside(Leaving) || stage == Using
  }

  predicate Fresh(stage: Stage) {
    stage == Inside(Storing) || stage == Inside(Stamping)
  }

  /** How long time may pass while a thread is there: a session is used within a second of the check that let it
      be handed out; creating one takes so little time that its first request comes in time. */
  predicate Timely(timeout: real, th: Thread, now: real) {
    && (Pending(th.stage) ==> now <= th.deadline)
    && (Fresh(th.stage) ==> now + 1.0 < th.created + timeout)
  }

  ghost predicate AllTimely(timeout: real, s: State, now: real) {
    forall t :: 0 <= t < |s.threads| ==> Timely(timeout, s.threads[t], now)
  }

  ghost predicate Tick(timeout: real, s: State, s': State) {
    s.now <= s'.now && s' == s.(now := s'.now) && AllTimely(timeout, s, s'.now)
  }

  ghost predicate Next(timeout: real, s: State, s': State) {
    Tick(timeout, s, s') || exists t: nat, c :: Enabled(s, t, c) && s' == After(timeout, s, t, c)
  }

  ghost predicate Initial(s: State) {
    && (forall t :: 0 <= t < |s.threads| ==> s.threads[t].stage == Idle)
    && s.tableLock == None && s.table == map[] && s.owner == map[]
    && s.cache == map[] && s.lastUsed == map[] && s.server == map[]
  }

  ghost predicate Run(timeout: real, states: seq<State>) {
    states != [] && Initial(states[0]) && forall i :: 0 <= i < |states| - 1 ==> Next(timeout, states[i], states[i + 1])
  }

  // ---------- locks ----------

  predicate KnowsLock(stage: Stage) {
    stage == AtTable(Found) || stage == Waiting || stage.Inside?
  }

  ghost predicate TableLocked(s: State) {
    && (s.tableLock.Some? ==> s.tableLock.value < |s.threads| && s.threads[s.tableLock.value].stage.AtTable?)
    && forall t :: 0 <= t < |s.threads| && s.threads[t].stage.AtTable? ==> s.tableLock == Some(t)
  }

  ghost predicate HostLocked(s: State) {
    && (forall l :: l in s.owner ==>
          s.owner[l] < |s.threads| && s.threads[s.owner[l]].stage.Inside? && s.threads[s.owner[l]].lock == l)
    && forall t :: 0 <= t < |s.threads| && s.threads[t].stage.Inside? ==>
         s.threads[t].lock in s.owner && s.owner[s.threads[t].lock] == t
  }

  /** Each host has one lock, and no lock has two hosts. */
  ghost predicate TableGood(s: State) {
    && (forall t :: 0 <= t < |s.threads| && KnowsLock(s.threads[t].stage) ==>
          s.threads[t].host in s.table && s.table[s.threads[t].host] == s.threads[t].lock)
    && (forall t :: 0 <= t < |s.threads| && s.threads[t].stage == AtTable(Inserting) ==> s.threads[t].host !in s.table)
    && (forall h :: h in s.table ==> s.table[h] < s.nextLock)
    && (forall g, h :: g in s.table && h in s.table && s.table[g] == s.table[h] ==> g == h)
  }

  ghost predicate Locks(s: State) {
    TableLocked(s) && HostLocked(s) && TableGood(s)
  }

  /** The thread holds what it held, and knows of no lock but its host's. */
  predicate SameRole(s: State, th: Thread, th': Thread) {
    && (th.stage.AtTable? <==> th'.stage.AtTable?) && (th.stage.Inside? <==> th'.stage.Inside?)
    && (th.stage.Inside? ==> th'.lock == th.lock)
    && (KnowsLock(th'.stage) ==> th'.host in s.table && s.table[th'.host] == th'.lock)
    && (th'.stage == AtTable(Inserting) ==> th'.host !in s.table)
  }

  lemma RoleKept(s: State, s': State, t: nat)
    requires Locks(s) && Only(s, s', t) && SameLocks(s, s') && SameRole(s, s.threads[t], s'.threads[t])
    ensures Locks(s')
  {
  }

  lemma TableSteps(s: State, t: nat, look: TableStep)
    requires Locks(s) && t < |s.threads| && s.threads[t].stage == AtTable(look)
    ensures Locks(AfterTable(s, t, look))
  {
    hide Locks, LookUp, Insert, ReleaseTable;
    match look
    case Looking => LookUpKept(s, t);
    case Inserting => InsertKept(s, t);
    case Found => ReleaseTableKept(s, t);
  }

  lemma LookUpKept(s: State, t: nat)
    requires Locks(s) && t < |s.threads| && s.threads[t].stage == AtTable(Looking)
    ensures Locks(LookUp(s, t))
  {
    LookUpRole(s, t);
    hide Locks, LookUp;
    RoleKept(s, LookUp(s, t), t);
  }

  lemma LookUpRole(s: State, t: nat)
    requires t < |s.threads| && s.threads[t].stage == AtTable(Looking)
    ensures var s' := LookUp(s, t); Only(s, s', t) && SameLocks(s, s') && SameRole(s, s.threads[t], s'.threads[t])
  {
  }

  lemma InsertKept(s: State, t: nat)
    requires Locks(s) && t < |s.threads| && s.threads[t].stage == AtTable(Inserting)
    ensures Locks(Insert(s, t))
  {
  }

  lemma ReleaseTableKept(s: State, t: nat)
    requires Locks(s) && t < |s.threads| && s.threads[t].stage == AtTable(Found)
    ensures Locks(ReleaseTable(s, t))
  {
  }

  lemma TakeTableKept(s: State, t: nat)
    requires Locks(s) && t < |s.threads| && s.threads[t].stage == Entering && s.tableLock == None
    ensures Locks(TakeTable(s, t))
  {
  }

  lemma TakeHostKept(s: State, t: nat)
    requires Locks(s) && t < |s.threads| && s.threads[t].stage == Waiting && s.threads[t].lock !in s.owner
    ensures Locks(TakeHost(s, t))
  {
  }

  lemma ReleaseHostKept(s: State, t: nat, stage: Stage)
    requires Locks(s) && t < |s.threads| && s.threads[t].stage.Inside? && (stage == Using || stage == Idle)
    ensures Locks(ReleaseHost(s, t, stage))
  {
  }

  lemma StartKept(s: State, t: nat, c: Choice)
    requires Locks(s) && t < |s.threads| && s.threads[t].stage == Idle
    ensures Locks(Start(s, t, c))
  {
    assert SameRole(s, s.threads[t], Start(s, t, c).threads[t]);
    hide Locks, Start, SameRole;
    RoleKept(s, Start(s, t, c), t);
  }

  lemma UseKept(s: State, t: nat)
    requires Locks(s) && t < |s.threads| && s.threads[t].stage == Using
    ensures Locks(Use(s, t))
  {
    assert SameRole(s, s.threads[t], Use(s, t).threads[t]);
    hide Locks, Use, SameRole;
    RoleKept(s, Use(s, t), t);
  }

  lemma StaysKept(s: State, s': State, t: nat)
    requires Locks(s) && Stays(s, s', t) && s.threads[t].stage.Inside?
    ensures Locks(s')
  {
    assert SameRole(s, s.threads[t], s'.threads[t]);
    hide Locks, SameRole;
    RoleKept(s, s', t);
  }

  lemma HostSteps(timeout: real, s: State, t: nat, step: HostStep, c: Choice)
    requires Locks(s) && t < |s.threads| && s.threads[t].stage == Inside(step)
    ensures Locks(AfterHost(timeout, s, t, step, c))
  {
    if step == Leaving {
      ReleaseHostKept(s, t, Using);
    } else if step == Failing {
      ReleaseHostKept(s, t, Idle);
    } else {
      hide Locks, AfterHost, Stays;
      StaysKept(s, AfterHost(timeout, s, t, step, c), t);
    }
  }

  lemma LocksKept(timeout: real, s: State, t: nat, c: Choice)
    requires Locks(s) && Enabled(s, t, c)
    ensures Locks(After(timeout, s, t, c))
  {
    hide Locks, AfterTable, AfterHost, TakeTable, TakeHost, Start, Use;
    match s.threads[t].stage
    case Idle => StartKept(s, t, c);
    case Entering => TakeTableKept(s, t);
    case AtTable(look) => TableSteps(s, t, look);
    case Waiting => TakeHostKept(s, t);
    case Inside(step) => HostSteps(timeout, s, t, step, c);
    case Using => UseKept(s, t);
  }

  /** At most one thread is inside for a host. */
  lemma Alone(s: State, t: nat, u: nat)
    requires Locks(s) && t < |s.threads| && u < |s.threads|
    requires s.threads[t].stage.Inside? && s.threads[u].stage.Inside? && s.threads[t].host == s.threads[u].host
    ensures t == u
  {
    assert KnowsLock(s.threads[t].stage) && KnowsLock(s.threads[u].stage);
  }

  // ---------- what the maps and the server hold ----------

  predicate Balanced(s: State, h: Host) {
    h in s.cache <==> h in s.lastUsed
  }

  predicate Cached(s: State, h: Host, uid: Uid) {
    h in s.cache && s.cache[h].uid == uid
  }

  /** A session the server created for this host and the client knows of. */
  predicate Known(s: State, h: Host, uid: Uid) {
    uid in s.server && s.server[uid].host == h && !s.server[uid].lost
  }

  predicate Deleted(s: State, uid: Uid) {
    uid in s.server && s.server[uid].deleteSent
  }

  predicate Done(s: State, uid: Uid) {
    uid in s.server && s.server[uid].deleteDone
  }

  /** A delete that a caller asked for has failed. */
  predicate Kept(s: State, uid: Uid) {
    uid in s.server && s.server[uid].kept
  }

  /** Only sessions the client knows of are deleted. */
  predicate Fate(v: Served) {
    (v.lost ==> !v.deleteSent) && (v.deleteDone ==> v.deleteSent) && (v.kept ==> v.deleteSent)
  }

  /** The maps are in step, and no delete has got through for the cached session. */
  predicate Settled(s: State, h: Host) {
    Balanced(s, h) && (h in s.cache ==> !Done(s, s.cache[h].uid))
  }

  predicate Rested(timeout: real, s: State, h: Host) {
    s.now - LastUse(s, h) >= Margin(timeout)
  }

  /** Not handed out again: no longer valid, or idle for too long. */
  predicate Stale(timeout: real, s: State, h: Host) {
    h in s.cache && (s.cache[h].validUntil <= s.now || Rested(timeout, s, h))
  }

  predicate StepGood(timeout: real, s: State, step: HostStep, removeOnly: bool, h: Host, uid: Uid) {
    match step
    case Checking => Settled(s, h)
    case Timing => Settled(s, h) && Cached(s, h, uid) && (Deleted(s, uid) && !Kept(s, uid) ==> Rested(timeout, s, h))
    case Hitting => Settled(s, h) && Cached(s, h, uid) && (Deleted(s, uid) ==> Kept(s, uid))
    case Leaving => Settled(s, h) && Cached(s, h, uid) && (Deleted(s, uid) ==> Kept(s, uid))
    case Removing => Settled(s, h) && (h in s.cache && !removeOnly ==> Stale(timeout, s, h))
    case Dropping => Balanced(s, h) && (h in s.cache ==> Done(s, s.cache[h].uid))
    case Forgetting => h !in s.cache
    case Creating => h !in s.cache && h !in s.lastUsed
    case Storing => h !in s.cache && h !in s.lastUsed && Known(s, h, uid) && !Deleted(s, uid)
    case Stamping => Cached(s, h, uid) && h !in s.lastUsed && !Deleted(s, uid)
    case Failing => Settled(s, h)
  }

  predicate ThreadGood(timeout: real, s: State, th: Thread) {
    && (th.stage.Inside? ==> StepGood(timeout, s, th.stage.step, th.removeOnly, th.host, th.session.uid))
    && (th.stage == Using ==> Known(s, th.host, th.session.uid))
  }

  /** Between the delete and the end of it, or between the storing of a session and that of its time. */
  predicate Amid(stage: Stage) {
    stage == Inside(Dropping) || stage == Inside(Forgetting) || stage == Inside(Stamping)
  }

  /** A thread is about to bring the maps back in step with each other and with the server. */
  ghost predicate Busy(s: State, h: Host) {
    exists t :: 0 <= t < |s.threads| && s.threads[t].host == h && Amid(s.threads[t].stage)
  }

  /** The cached session was created for the host; if a delete was sent for it that failed, and no caller had asked
      for that delete, it is not handed out again. */
  ghost predicate HostGood(timeout: real, s: State, h: Host) {
    && (h in s.cache ==> Known(s, h, s.cache[h].uid) && CachedGood(timeout, s, h, s.cache[h].uid))
    && (Settled(s, h) || Busy(s, h))
  }

  predicate CachedGood(timeout: real, s: State, h: Host, uid: Uid) {
    Deleted(s, uid) && !Kept(s, uid) && !Done(s, uid) ==> Stale(timeout, s, h)
  }

  ghost predicate BeingStored(s: State, uid: Uid) {
    exists t :: 0 <= t < |s.threads| && s.threads[t].stage == Inside(Storing) && s.threads[t].session.uid == uid
                && uid in s.server && s.threads[t].host == s.server[uid].host
  }

  /** Every session has been deleted, or is the cached one of its host, or is about to be; only of a session
      whose creation was never answered the client knows nothing. */
  ghost predicate Accounted(s: State, uid: Uid) {
    uid in s.server ==>
      && Fate(s.server[uid])
      && (s.server[uid].lost || s.server[uid].deleteDone || Cached(s, s.server[uid].host, uid) || BeingStored(s, uid))
  }

  ghost predicate Data(timeout: real, s: State) {
    && (forall t :: 0 <= t < |s.threads| ==> ThreadGood(timeout, s, s.threads[t]))
    && (forall h :: HostGood(timeout, s, h))
    && (forall uid :: Accounted(s, uid))
  }

  // ---------- what a step leaves alone ----------

  predicate SameSession(a: Served, b: Served, h: Host) {
    && b.host == a.host && b.lost == a.lost
    && (a.host != h ==> b.deleteSent == a.deleteSent && b.deleteDone == a.deleteDone && b.kept == a.kept)
  }

  predicate NewServed(v: Served, h: Host) {
    v.host == h && !v.deleteSent && !v.deleteDone && !v.kept
  }

  /** Only the host's own entries and sessions change. */
  ghost predicate Apart(s: State, s': State, h: Host) {
    && s'.now == s.now
    && (forall g :: g != h ==> (g in s'.cache <==> g in s.cache) && (g in s.cache ==> s'.cache[g] == s.cache[g]))
    && (forall g :: g != h
         ==> (g in s'.lastUsed <==> g in s.lastUsed) && (g in s.lastUsed ==> s'.lastUsed[g] == s.lastUsed[g]))
    && (forall uid :: uid in s.server ==> uid in s'.server && SameSession(s.server[uid], s'.server[uid], h))
    && (forall uid :: uid in s'.server && uid !in s.server ==> NewServed(s'.server[uid], h))
  }

  lemma OtherThreads(timeout: real, s: State, s': State, h: Host, th: Thread)
    requires Apart(s, s', h) && ThreadGood(timeout, s, th) && (forall g :: HostGood(timeout, s, g))
    requires th.stage.Inside? ==> th.host != h
    ensures ThreadGood(timeout, s', th)
  {
    hide Busy, Margin;
    assert HostGood(timeout, s, th.host);
  }

  lemma OtherHosts(timeout: real, s: State, s': State, h: Host, g: Host, t: nat)
    requires Apart(s, s', h) && HostGood(timeout, s, g) && g != h && Only(s, s', t) && s.threads[t].host == h
    ensures HostGood(timeout, s', g)
  {
    hide Margin;
  }

  lemma OtherSessions(s: State, s': State, h: Host, uid: Uid, t: nat)
    requires Apart(s, s', h) && Accounted(s, uid) && Only(s, s', t) && s.threads[t].host == h
    requires uid in s.server && s.server[uid].host != h
    ensures Accounted(s', uid)
  {
  }

  /** What a step of a thread inside has to establish for its own host. */
  ghost predicate Own(timeout: real, s: State, s': State, t: nat)
    requires t < |s.threads| == |s'.threads|
  {
    var h := s.threads[t].host;
    && Apart(s, s', h) && ThreadGood(timeout, s', s'.threads[t]) && HostGood(timeout, s', h)
    && forall uid :: uid in s'.server && s'.server[uid].host == h ==> Accounted(s', uid)
  }

  lemma OwnSuffices(timeout: real, s: State, s': State, t: nat)
    requires Locks(s) && Data(timeout, s) && Only(s, s', t) && s.threads[t].stage.Inside? && Own(timeout, s, s', t)
    ensures Data(timeout, s')
  {
    hide Locks, ThreadGood, HostGood, Accounted;
    var h := s.threads[t].host;
    forall u | 0 <= u < |s'.threads|
      ensures ThreadGood(timeout, s', s'.threads[u])
    {
      if u != t {
        if s.threads[u].stage.Inside? && s.threads[u].host == h {
          Alone(s, t, u);
        }
        OtherThreads(timeout, s, s', h, s.threads[u]);
      }
    }
    hide Only;
    forall g
      ensures HostGood(timeout, s', g)
    {
      if g != h {
        OtherHosts(timeout, s, s', h, g, t);
      }
    }
    forall uid
      ensures Accounted(s', uid)
    {
      NewOrOld(s, s', h, uid);
      if uid in s'.server && s'.server[uid].host != h {
        OtherSessions(s, s', h, uid, t);
      }
    }
  }

  lemma NewOrOld(s: State, s': State, h: Host, uid: Uid)
    requires Apart(s, s', h)
    ensures uid !in s'.server ==> Accounted(s', uid)
    ensures uid in s'.server && s'.server[uid].host != h ==> uid in s.server && s.server[uid].host != h
  {
  }

  /** A host's sessions before the step of the thread inside for it. */
  lemma OwnSessions(timeout: real, s: State, t: nat, uid: Uid)
    requires Locks(s) && Data(timeout, s) && t < |s.threads| && s.threads[t].stage.Inside?
    requires uid in s.server && s.server[uid].host == s.threads[t].host && !s.server[uid].lost
    requires !s.server[uid].deleteDone
    ensures Cached(s, s.threads[t].host, uid) || (s.threads[t].stage.step == Storing && s.threads[t].session.uid == uid)
  {
    hide Locks, ThreadGood, HostGood;
    assert Accounted(s, uid);
    if !Cached(s, s.threads[t].host, uid) {
      var u :| 0 <= u < |s.threads| && s.threads[u].stage == Inside(Storing) && s.threads[u].session.uid == uid
               && s.threads[u].host == s.server[uid].host;
      Alone(s, t, u);
    }
  }

  /** What is known of the thread, its host, and the host's sessions before the step. */
  ghost predicate Before(timeout: real, s: State, t: nat)
    requires t < |s.threads|
  {
    var th := s.threads[t];
    && ThreadGood(timeout, s, th) && HostGood(timeout, s, th.host)
    && forall uid :: uid in s.server && s.server[uid].host == th.host ==>
         && Fate(s.server[uid])
         && (s.server[uid].lost || s.server[uid].deleteDone || Cached(s, th.host, uid)
             || (th.stage == Inside(Storing) && th.session.uid == uid))
  }

  lemma BeforeStep(timeout: real, s: State, t: nat)
    requires Locks(s) && Data(timeout, s) && t < |s.threads| && s.threads[t].stage.Inside?
    ensures Before(timeout, s, t)
  {
    hide Locks, ThreadGood, HostGood;
    var th := s.threads[t];
    forall uid | uid in s.server && s.server[uid].host == th.host
      ensures Fate(s.server[uid])
      ensures s.server[uid].lost || s.server[uid].deleteDone || Cached(s, th.host, uid)
              || (th.stage == Inside(Storing) && th.session.uid == uid)
    {
      assert Accounted(s, uid);
      if !s.server[uid].lost && !s.server[uid].deleteDone {
        OwnSessions(timeout, s, t, uid);
      }
    }
  }

  /** A step that changes nothing but the thread. */
  predicate SameWorld(s: State, s': State) {
    s'.now == s.now && s'.cache == s.cache && s'.lastUsed == s.lastUsed && s'.server == s.server
  }

  lemma OwnUnchanged(timeout: real, s: State, s': State, t: nat)
    requires t < |s.threads| && Before(timeout, s, t) && Stays(s, s', t) && SameWorld(s, s')
    requires s.threads[t].stage == Inside(Checking) || s.threads[t].stage == Inside(Timing)
    requires ThreadGood(timeout, s', s'.threads[t])
    ensures Own(timeout, s, s', t)
  {
    hide Margin, Busy, BeingStored, SameLocks;
  }

  lemma CheckWorld(s: State, t: nat)
    requires t < |s.threads|
    ensures SameWorld(s, Check(s, t))
  {
    hide Only, Stays, SameLocks;
  }

  lemma MissThread(s: State, t: nat)
    requires t < |s.threads|
    ensures var th, th' := s.threads[t], Miss(s, t).threads[t];
      && th'.host == th.host && th'.removeOnly == th.removeOnly
      && th'.stage == Inside(if th.renew then Removing else Failing)
  {
    hide Only, Stays, SameLocks;
  }

  lemma CheckedThread(s: State, t: nat)
    requires t < |s.threads|
    ensures var th, th' := s.threads[t], Check(s, t).threads[t];
      && th'.host == th.host && th'.removeOnly == th.removeOnly
      && (if th.host in s.cache && s.cache[th.host].validUntil > s.now then
            th'.stage == Inside(Timing) && th'.session == s.cache[th.host]
          else th'.stage == Inside(if th.renew then Removing else Failing))
  {
    MissThread(s, t);
    hide Only, Stays, SameLocks, Miss;
  }

  lemma CheckThread(timeout: real, s: State, t: nat)
    requires t < |s.threads| && s.threads[t].stage == Inside(Checking) && Before(timeout, s, t)
    ensures ThreadGood(timeout, Check(s, t), Check(s, t).threads[t])
  {
    CheckWorld(s, t);
    CheckedThread(s, t);
    hide Only, Stays, SameLocks, Margin, Busy, Check;
  }

  lemma OwnCheck(timeout: real, s: State, t: nat)
    requires t < |s.threads| && s.threads[t].stage == Inside(Checking) && Before(timeout, s, t)
    ensures Own(timeout, s, Check(s, t), t)
  {
    hide Before, Own, Stays, ThreadGood, SameWorld, Check;
    CheckWorld(s, t);
    CheckThread(timeout, s, t);
    OwnUnchanged(timeout, s, Check(s, t), t);
  }

  lemma TimeWorld(timeout: real, s: State, t: nat)
    requires t < |s.threads|
    ensures SameWorld(s, Time(timeout, s, t))
  {
    hide Only, Stays, SameLocks, Margin, LastUse;
  }

  lemma TimeThread(timeout: real, s: State, t: nat)
    requires t < |s.threads| && s.threads[t].stage == Inside(Timing) && Before(timeout, s, t)
    ensures ThreadGood(timeout, Time(timeout, s, t), Time(timeout, s, t).threads[t])
  {
    MissThread(s, t);
    TimeWorld(timeout, s, t);
    hide Only, Stays, SameLocks, Margin, Busy, Miss;
  }

  lemma OwnTime(timeout: real, s: State, t: nat)
    requires t < |s.threads| && s.threads[t].stage == Inside(Timing) && Before(timeout, s, t)
    ensures Own(timeout, s, Time(timeout, s, t), t)
  {
    hide Before, Own, Stays, ThreadGood, SameWorld, Time;
    TimeWorld(timeout, s, t);
    TimeThread(timeout, s, t);
    OwnUnchanged(timeout, s, Time(timeout, s, t), t);
  }

  lemma OwnTouch(timeout: real, s: State, t: nat)
    requires t < |s.threads| && s.threads[t].stage == Inside(Hitting) && Before(timeout, s, t)
    ensures Own(timeout, s, Touch(s, t), t)
  {
    hide Margin, Busy, BeingStored;
  }

  lemma NowBusy(s: State, t: nat)
    requires t < |s.threads| && Amid(s.threads[t].stage)
    ensures Busy(s, s.threads[t].host)
  {
  }

  lemma NowStored(s: State, t: nat, uid: Uid)
    requires t < |s.threads| && s.threads[t].stage == Inside(Storing) && s.threads[t].session.uid == uid
    requires uid in s.server && s.server[uid].host == s.threads[t].host
    ensures BeingStored(s, uid)
  {
  }

  lemma OwnRemoveGood(timeout: real, s: State, t: nat, c: Choice)
    requires t < |s.threads| && s.threads[t].stage == Inside(Removing) && Before(timeout, s, t) && c.answer.Good?
    ensures Own(timeout, s, Remove(s, t, c), t)
  {
    hide Margin, Busy, BeingStored, SameLocks;
    NowBusy(Remove(s, t, c), t);
  }

  lemma OwnRemoveBad(timeout: real, s: State, t: nat, c: Choice)
    requires t < |s.threads| && s.threads[t].stage == Inside(Removing) && Before(timeout, s, t) && !c.answer.Good?
    ensures Own(timeout, s, Remove(s, t, c), t)
  {
    hide Margin, Busy, BeingStored, SameLocks;
  }

  lemma OwnRemove(timeout: real, s: State, t: nat, c: Choice)
    requires t < |s.threads| && s.threads[t].stage == Inside(Removing) && Before(timeout, s, t)
    ensures Own(timeout, s, Remove(s, t, c), t)
  {
    hide Own, Before, Remove;
    if c.answer.Good? {
      OwnRemoveGood(timeout, s, t, c);
    } else {
      OwnRemoveBad(timeout, s, t, c);
    }
  }

  lemma OwnDrop(timeout: real, s: State, t: nat)
    requires t < |s.threads| && s.threads[t].stage == Inside(Dropping) && Before(timeout, s, t)
    ensures Own(timeout, s, Drop(s, t), t)
  {
    hide Margin, Busy, BeingStored, LastUse;
    NowBusy(Drop(s, t), t);
  }

  lemma OwnForget(timeout: real, s: State, t: nat)
    requires t < |s.threads| && s.threads[t].stage == Inside(Forgetting) && Before(timeout, s, t)
    ensures Own(timeout, s, Forget(s, t), t)
  {
    hide Margin, Busy, BeingStored;
  }

  lemma CreatedThread(s: State, t: nat, c: Choice)
    requires t < |s.threads|
    ensures var th := Create(s, t, c).threads[t];
      if c.answer.Good? then th.stage == Inside(Storing) && th.session == c.session && th.created == s.now
      else th.stage == Inside(Failing)
  {
    hide Only, Stays, SameLocks;
  }

  lemma OwnCreateGood(timeout: real, s: State, t: nat, c: Choice)
    requires t < |s.threads| && s.threads[t].stage == Inside(Creating) && Before(timeout, s, t) && NewSession(s, c)
    requires c.answer.Good?
    ensures Own(timeout, s, Create(s, t, c), t)
  {
    hide Margin, Busy, LastUse, BeingStored, SameLocks;
    NowStored(Create(s, t, c), t, c.session.uid);
  }

  lemma OwnCreateLost(timeout: real, s: State, t: nat, c: Choice)
    requires t < |s.threads| && s.threads[t].stage == Inside(Creating) && Before(timeout, s, t) && NewSession(s, c)
    requires c.answer.Lost?
    ensures Own(timeout, s, Create(s, t, c), t)
  {
    hide Margin, Busy, LastUse, BeingStored, SameLocks;
  }

  lemma OwnCreateRefused(timeout: real, s: State, t: nat, c: Choice)
    requires t < |s.threads| && s.threads[t].stage == Inside(Creating) && Before(timeout, s, t) && NewSession(s, c)
    requires c.answer.Refused?
    ensures Own(timeout, s, Create(s, t, c), t)
  {
    hide Margin, Busy, LastUse, BeingStored, SameLocks;
  }

  lemma OwnCreate(timeout: real, s: State, t: nat, c: Choice)
    requires t < |s.threads| && s.threads[t].stage == Inside(Creating) && Before(timeout, s, t) && NewSession(s, c)
    ensures Own(timeout, s, Create(s, t, c), t)
  {
    hide Own, Before, Create, NewSession;
    match c.answer
    case Good => OwnCreateGood(timeout, s, t, c);
    case Lost => OwnCreateLost(timeout, s, t, c);
    case Refused => OwnCreateRefused(timeout, s, t, c);
  }

  lemma OwnStore(timeout: real, s: State, t: nat)
    requires t < |s.threads| && s.threads[t].stage == Inside(Storing) && Before(timeout, s, t)
    ensures Own(timeout, s, Store(s, t), t)
  {
    hide Margin, Busy, BeingStored, LastUse;
    NowBusy(Store(s, t), t);
  }

  lemma OwnStamp(timeout: real, s: State, t: nat)
    requires t < |s.threads| && s.threads[t].stage == Inside(Stamping) && Before(timeout, s, t)
    ensures Own(timeout, s, Stamp(s, t), t)
  {
    hide Margin, Busy, BeingStored;
  }

  lemma OwnRelease(timeout: real, s: State, t: nat, stage: Stage)
    requires t < |s.threads| && Before(timeout, s, t)
    requires (s.threads[t].stage == Inside(Leaving) && stage == Using)
      || (s.threads[t].stage == Inside(Failing) && stage == Idle)
    ensures Own(timeout, s, ReleaseHost(s, t, stage), t)
  {
    hide Margin, Busy, BeingStored;
  }

  /** A step of a thread that is not inside changes no map, and on the server at most when a session was last seen. */
  ghost predicate SameData(s: State, s': State) {
    && s'.now == s.now && s'.cache == s.cache && s'.lastUsed == s.lastUsed
    && (forall uid :: uid in s'.server <==> uid in s.server)
    && (forall uid :: uid in s.server ==> SameServed(s.server[uid], s'.server[uid]))
  }

  predicate SameServed(a: Served, b: Served) {
    && b.host == a.host && b.lost == a.lost
    && b.deleteSent == a.deleteSent && b.deleteDone == a.deleteDone && b.kept == a.kept
  }

  lemma OutsideKept(timeout: real, s: State, s': State, t: nat)
    requires Data(timeout, s) && Only(s, s', t) && SameData(s, s') && !s.threads[t].stage.Inside?
    requires ThreadGood(timeout, s', s'.threads[t])
    ensures Data(timeout, s')
  {
    forall u | 0 <= u < |s'.threads|
      ensures ThreadGood(timeout, s', s'.threads[u])
    {
      if u != t {
        SameThread(timeout, s, s', s.threads[u]);
      }
    }
    hide ThreadGood;
    forall g
      ensures HostGood(timeout, s', g)
    {
      SameHost(timeout, s, s', g, t);
    }
    forall uid
      ensures Accounted(s', uid)
    {
      SameAccount(timeout, s, s', uid, t);
    }
  }

  lemma SameThread(timeout: real, s: State, s': State, th: Thread)
    requires SameData(s, s') && ThreadGood(timeout, s, th)
    ensures ThreadGood(timeout, s', th)
  {
    hide Margin;
  }

  lemma SameHost(timeout: real, s: State, s': State, g: Host, t: nat)
    requires SameData(s, s') && HostGood(timeout, s, g) && Only(s, s', t) && !s.threads[t].stage.Inside?
    ensures HostGood(timeout, s', g)
  {
    hide Margin;
    assert Busy(s, g) ==> Busy(s', g);
  }

  lemma SameAccount(timeout: real, s: State, s': State, uid: Uid, t: nat)
    requires SameData(s, s') && Accounted(s, uid) && Only(s, s', t) && !s.threads[t].stage.Inside?
    ensures Accounted(s', uid)
  {
    assert BeingStored(s, uid) ==> BeingStored(s', uid);
  }

  lemma FreeHost(s: State, t: nat, u: nat)
    requires Locks(s) && t < |s.threads| && s.threads[t].stage == Waiting && s.threads[t].lock !in s.owner
    requires u < |s.threads| && s.threads[u].stage.Inside?
    ensures s.threads[u].host != s.threads[t].host
  {
    assert KnowsLock(s.threads[t].stage) && KnowsLock(s.threads[u].stage);
  }

  /** Who gets the host's lock finds the maps in step. */
  lemma TakeHostData(timeout: real, s: State, t: nat)
    requires Locks(s) && Data(timeout, s) && t < |s.threads| && s.threads[t].stage == Waiting
    requires s.threads[t].lock !in s.owner
    ensures Data(timeout, TakeHost(s, t))
  {
    var h := s.threads[t].host;
    assert HostGood(timeout, s, h);
    forall u: nat | u < |s.threads| && s.threads[u].stage.Inside?
      ensures s.threads[u].host != h
    {
      FreeHost(s, t, u);
    }
    assert ThreadGood(timeout, TakeHost(s, t), TakeHost(s, t).threads[t]);
    hide Data, Locks, HostGood, ThreadGood;
    OutsideKept(timeout, s, TakeHost(s, t), t);
  }

  lemma StartData(timeout: real, s: State, t: nat, c: Choice)
    requires Data(timeout, s) && t < |s.threads| && s.threads[t].stage == Idle
    ensures Data(timeout, Start(s, t, c))
  {
    hide Data;
    OutsideKept(timeout, s, Start(s, t, c), t);
  }

  lemma TakeTableData(timeout: real, s: State, t: nat)
    requires Data(timeout, s) && t < |s.threads| && s.threads[t].stage == Entering
    ensures Data(timeout, TakeTable(s, t))
  {
    hide Data;
    OutsideKept(timeout, s, TakeTable(s, t), t);
  }

  lemma UseData(timeout: real, s: State, t: nat)
    requires Data(timeout, s) && t < |s.threads| && s.threads[t].stage == Using
    ensures Data(timeout, Use(s, t))
  {
    hide Data;
    OutsideKept(timeout, s, Use(s, t), t);
  }

  /** A step at the table of locks changes nothing but that table and the thread, which stays outside. */
  ghost predicate AtTableOnly(s: State, s': State, t: nat)
    requires t < |s.threads| == |s'.threads|
  {
    && s'.now == s.now && s'.cache == s.cache && s'.lastUsed == s.lastUsed && s'.server == s.server
    && (s'.threads[t].stage.AtTable? || s'.threads[t].stage == Waiting)
  }

  lemma LookUpOnly(s: State, t: nat)
    requires t < |s.threads|
    ensures AtTableOnly(s, LookUp(s, t), t)
  {
    hide Only, SameLocks;
  }

  lemma InsertOnly(s: State, t: nat)
    requires t < |s.threads|
    ensures AtTableOnly(s, Insert(s, t), t)
  {
    hide Only, SameLocks;
  }

  lemma ReleaseTableOnly(s: State, t: nat)
    requires t < |s.threads|
    ensures AtTableOnly(s, ReleaseTable(s, t), t)
  {
    hide Only, SameLocks;
  }

  lemma TableOnly(s: State, t: nat, look: TableStep)
    requires t < |s.threads|
    ensures AtTableOnly(s, AfterTable(s, t, look), t)
  {
    LookUpOnly(s, t);
    InsertOnly(s, t);
    ReleaseTableOnly(s, t);
    hide AtTableOnly, LookUp, Insert, ReleaseTable;
  }

  lemma TableData(timeout: real, s: State, t: nat, look: TableStep)
    requires Data(timeout, s) && t < |s.threads| && s.threads[t].stage == AtTable(look)
    ensures Data(timeout, AfterTable(s, t, look))
  {
    TableOnly(s, t, look);
    assert Only(s, AfterTable(s, t, look), t);
    hide Data, AfterTable, Only;
    OutsideKept(timeout, s, AfterTable(s, t, look), t);
  }

  lemma InsideSteps(timeout: real, s: State, t: nat, step: HostStep, c: Choice)
    requires Locks(s) && Data(timeout, s) && Enabled(s, t, c) && s.threads[t].stage == Inside(step)
    ensures Data(timeout, AfterHost(timeout, s, t, step, c))
  {
    hide Locks, Data, Own, Before, Stays, Check, Time, Touch, Remove, Drop, Forget, Create, Store, Stamp, ReleaseHost;
    BeforeStep(timeout, s, t);
    match step {
      case Checking => OwnCheck(timeout, s, t);
      case Timing => OwnTime(timeout, s, t);
      case Hitting => OwnTouch(timeout, s, t);
      case Leaving => OwnRelease(timeout, s, t, Using);
      case Removing => OwnRemove(timeout, s, t, c);
      case Dropping => OwnDrop(timeout, s, t);
      case Forgetting => OwnForget(timeout, s, t);
      case Creating => OwnCreate(timeout, s, t, c);
      case Storing => OwnStore(timeout, s, t);
      case Stamping => OwnStamp(timeout, s, t);
      case Failing => OwnRelease(timeout, s, t, Idle);
    }
    OwnSuffices(timeout, s, AfterHost(timeout, s, t, step, c), t);
  }

  lemma DataKept(timeout: real, s: State, t: nat, c: Choice)
    requires Locks(s) && Data(timeout, s) && Enabled(s, t, c)
    ensures Data(timeout, After(timeout, s, t, c))
  {
    hide Locks, Data, AfterHost, AfterTable, Start, TakeTable, TakeHost, Use;
    match s.threads[t].stage
    case Idle => StartData(timeout, s, t, c);
    case Entering => TakeTableData(timeout, s, t);
    case AtTable(look) => TableData(timeout, s, t, look);
    case Waiting => TakeHostData(timeout, s, t);
    case Inside(step) => InsideSteps(timeout, s, t, step, c);
    case Using => UseData(timeout, s, t);
  }

  // ---------- time ----------

  ghost predicate Clock(timeout: real, s: State) {
    && (forall t :: 0 <= t < |s.threads| ==> ThreadClock(timeout, s, s.threads[t]))
    && (forall uid :: uid in s.server ==> s.server[uid].created <= s.server[uid].lastSeen <= s.now)
    && (forall h :: h in s.lastUsed ==> s.lastUsed[h] <= s.now)
  }

  predicate ThreadClock(timeout: real, s: State, th: Thread) {
    && (Pending(th.stage) ==> s.now <= th.deadline <= s.now + 1.0)
    && (Fresh(th.stage) ==>
          && th.session.uid in s.server && s.server[th.session.uid].created == th.created
          && s.now + 1.0 < th.created + timeout)
  }

  ghost predicate SameSeen(s: State, s': State) {
    && s'.now == s.now
    && (forall uid :: uid in s.server ==> uid in s'.server && s'.server[uid].created == s.server[uid].created
                                          && s'.server[uid].lastSeen == s.server[uid].lastSeen)
    && (forall uid :: uid in s'.server && uid !in s.server
         ==> s'.server[uid].created == s'.server[uid].lastSeen == s.now)
  }

  lemma ClockFrame(timeout: real, s: State, s': State, t: nat)
    requires Clock(timeout, s) && Only(s, s', t) && SameSeen(s, s') && ThreadClock(timeout, s', s'.threads[t])
    requires forall h ::
      h in s'.lastUsed ==> s'.lastUsed[h] == s.now || (h in s.lastUsed && s.lastUsed[h] == s'.lastUsed[h])
    ensures Clock(timeout, s')
  {
  }

  lemma UseClock(timeout: real, s: State, t: nat)
    requires Clock(timeout, s) && t < |s.threads| && s.threads[t].stage == Using
    ensures Clock(timeout, Use(s, t))
  {
  }

  lemma OutsideClock(timeout: real, s: State, t: nat, c: Choice)
    requires Clock(timeout, s) && t < |s.threads|
    ensures s.threads[t].stage == Idle ==> Clock(timeout, Start(s, t, c))
    ensures s.threads[t].stage == Entering ==> Clock(timeout, TakeTable(s, t))
    ensures s.threads[t].stage == Waiting ==> Clock(timeout, TakeHost(s, t))
  {
    hide Clock;
    match s.threads[t].stage
    case Idle => ClockFrame(timeout, s, Start(s, t, c), t);
    case Entering => ClockFrame(timeout, s, TakeTable(s, t), t);
    case Waiting => ClockFrame(timeout, s, TakeHost(s, t), t);
    case _ =>
  }

  lemma OutsideSeen(timeout: real, s: State, s': State, t: nat)
    requires t < |s.threads| == |s'.threads| && AtTableOnly(s, s', t)
    ensures SameSeen(s, s') && ThreadClock(timeout, s', s'.threads[t]) && s'.lastUsed == s.lastUsed
  {
  }

  lemma TableClock(timeout: real, s: State, t: nat, look: TableStep)
    requires Clock(timeout, s) && t < |s.threads| && s.threads[t].stage == AtTable(look)
    ensures Clock(timeout, AfterTable(s, t, look))
  {
    TableOnly(s, t, look);
    OutsideSeen(timeout, s, AfterTable(s, t, look), t);
    hide *;
    ClockFrame(timeout, s, AfterTable(s, t, look), t);
  }

  lemma ClockCheck(timeout: real, s: State, t: nat)
    requires Clock(timeout, s) && t < |s.threads| && s.threads[t].stage == Inside(Checking)
    ensures Clock(timeout, Check(s, t))
  {
    assert ThreadClock(timeout, s, s.threads[t]);
    hide Clock;
    ClockFrame(timeout, s, Check(s, t), t);
  }

  lemma MissSeen(s: State, t: nat)
    requires t < |s.threads|
    ensures var s' := Miss(s, t);
      && s'.now == s.now && s'.server == s.server && s'.lastUsed == s.lastUsed
      && (s'.threads[t].stage == Inside(Removing) || s'.threads[t].stage == Inside(Failing))
  {
    hide SameLocks, Only, Stays;
  }

  lemma TimeSeen(timeout: real, s: State, t: nat)
    requires t < |s.threads|
    ensures var s' := Time(timeout, s, t);
      && s'.now == s.now && s'.server == s.server && s'.lastUsed == s.lastUsed && !Fresh(s'.threads[t].stage)
      && (Pending(s'.threads[t].stage) ==> s'.threads[t].deadline == s.now + 1.0)
  {
    MissSeen(s, t);
    hide Margin, LastUse, SameLocks, Only, Stays, Miss;
  }

  lemma ClockTime(timeout: real, s: State, t: nat)
    requires Clock(timeout, s) && t < |s.threads| && s.threads[t].stage == Inside(Timing)
    ensures Clock(timeout, Time(timeout, s, t))
  {
    TimeSeen(timeout, s, t);
    assert Stays(s, Time(timeout, s, t), t);
    hide Clock, Time, Pending, Fresh;
    ClockFrame(timeout, s, Time(timeout, s, t), t);
  }

  lemma ClockTouch(timeout: real, s: State, t: nat)
    requires Clock(timeout, s) && t < |s.threads| && s.threads[t].stage == Inside(Hitting)
    ensures Clock(timeout, Touch(s, t))
  {
    assert ThreadClock(timeout, s, s.threads[t]);
    hide Clock;
    ClockFrame(timeout, s, Touch(s, t), t);
  }

  lemma ClockRemove(timeout: real, s: State, t: nat, c: Choice)
    requires Clock(timeout, s) && t < |s.threads| && s.threads[t].stage == Inside(Removing)
    ensures Clock(timeout, Remove(s, t, c))
  {
    assert ThreadClock(timeout, s, s.threads[t]);
    hide Clock;
    ClockFrame(timeout, s, Remove(s, t, c), t);
  }

  lemma ClockDrop(timeout: real, s: State, t: nat)
    requires Clock(timeout, s) && t < |s.threads| && s.threads[t].stage == Inside(Dropping)
    ensures Clock(timeout, Drop(s, t))
  {
    assert ThreadClock(timeout, s, s.threads[t]);
    hide Clock;
    ClockFrame(timeout, s, Drop(s, t), t);
  }

  lemma ClockForget(timeout: real, s: State, t: nat)
    requires Clock(timeout, s) && t < |s.threads| && s.threads[t].stage == Inside(Forgetting)
    ensures Clock(timeout, Forget(s, t))
  {
    assert ThreadClock(timeout, s, s.threads[t]);
    hide Clock;
    ClockFrame(timeout, s, Forget(s, t), t);
  }

  lemma CreateSeen(s: State, t: nat, c: Choice)
    requires t < |s.threads| && NewSession(s, c)
    ensures SameSeen(s, Create(s, t, c)) && Create(s, t, c).lastUsed == s.lastUsed
  {
    hide Only, Stays;
  }

  lemma CreateThread(timeout: real, s: State, t: nat, c: Choice)
    requires timeout > 1.0 && t < |s.threads|
    ensures ThreadClock(timeout, Create(s, t, c), Create(s, t, c).threads[t])
  {
    CreatedThread(s, t, c);
    hide Only, Stays, SameLocks, Goto;
  }

  lemma ClockCreate(timeout: real, s: State, t: nat, c: Choice)
    requires Clock(timeout, s) && t < |s.threads| && NewSession(s, c) && timeout > 1.0
    ensures Clock(timeout, Create(s, t, c))
  {
    CreateSeen(s, t, c);
    CreateThread(timeout, s, t, c);
    assert Stays(s, Create(s, t, c), t);
    hide Clock, Create, SameSeen, ThreadClock;
    ClockFrame(timeout, s, Create(s, t, c), t);
  }

  lemma ClockStore(timeout: real, s: State, t: nat)
    requires Clock(timeout, s) && t < |s.threads| && s.threads[t].stage == Inside(Storing)
    ensures Clock(timeout, Store(s, t))
  {
    assert ThreadClock(timeout, s, s.threads[t]);
    hide Clock;
    ClockFrame(timeout, s, Store(s, t), t);
  }

  lemma ClockStamp(timeout: real, s: State, t: nat)
    requires Clock(timeout, s) && t < |s.threads| && s.threads[t].stage == Inside(Stamping)
    ensures Clock(timeout, Stamp(s, t))
  {
    assert ThreadClock(timeout, s, s.threads[t]);
    hide Clock;
    ClockFrame(timeout, s, Stamp(s, t), t);
  }

  lemma ClockRelease(timeout: real, s: State, t: nat, stage: Stage)
    requires Clock(timeout, s) && t < |s.threads|
    requires (s.threads[t].stage == Inside(Leaving) && stage == Using)
      || (s.threads[t].stage == Inside(Failing) && stage == Idle)
    ensures Clock(timeout, ReleaseHost(s, t, stage))
  {
    assert ThreadClock(timeout, s, s.threads[t]);
    hide Clock;
    ClockFrame(timeout, s, ReleaseHost(s, t, stage), t);
  }

  lemma InsideClock(timeout: real, s: State, t: nat, step: HostStep, c: Choice)
    requires timeout > 1.0 && Clock(timeout, s) && Enabled(s, t, c) && s.threads[t].stage == Inside(step)
    ensures Clock(timeout, AfterHost(timeout, s, t, step, c))
  {
    hide Clock, Only, Stays, Check, Time, Touch, Remove, Drop, Forget, Create, Store, Stamp, ReleaseHost;
    match step
    case Checking => ClockCheck(timeout, s, t);
    case Timing => ClockTime(timeout, s, t);
    case Hitting => ClockTouch(timeout, s, t);
    case Removing => ClockRemove(timeout, s, t, c);
    case Dropping => ClockDrop(timeout, s, t);
    case Forgetting => ClockForget(timeout, s, t);
    case Creating => ClockCreate(timeout, s, t, c);
    case Storing => ClockStore(timeout, s, t);
    case Stamping => ClockStamp(timeout, s, t);
    case Leaving => ClockRelease(timeout, s, t, Using);
    case Failing => ClockRelease(timeout, s, t, Idle);
  }

  lemma ClockKept(timeout: real, s: State, t: nat, c: Choice)
    requires timeout > 1.0 && Clock(timeout, s) && Enabled(s, t, c)
    ensures Clock(timeout, After(timeout, s, t, c))
  {
    hide Clock, AfterHost, AfterTable, Start, TakeTable, TakeHost, Use;
    match s.threads[t].stage
    case AtTable(look) => TableClock(timeout, s, t, look);
    case Inside(step) => InsideClock(timeout, s, t, step, c);
    case Using => UseClock(timeout, s, t);
    case _ => OutsideClock(timeout, s, t, c);
  }

  // ---------- the idle margin ----------

  predicate Expects(stage: Stage) {
    Pending(stage) || Fresh(stage)
  }

  /** No request is on its way, or going to be, that uses the session. */
  ghost predicate Unused(s: State, uid: Uid) {
    forall t :: 0 <= t < |s.threads| && Expects(s.threads[t].stage) ==> s.threads[t].session.uid != uid
  }

  /** The thread's request will reach the server before the server forgets the session. */
  predicate InTimeBy(timeout: real, s: State, th: Thread, uid: Uid) {
    && th.session.uid == uid && uid in s.server
    && (Fresh(th.stage) || (Pending(th.stage) && th.deadline < s.server[uid].lastSeen + timeout))
  }

  ghost predicate Awaited(timeout: real, s: State, uid: Uid) {
    exists t :: 0 <= t < |s.threads| && InTimeBy(timeout, s, s.threads[t], uid)
  }

  predicate LiveCached(s: State, uid: Uid) {
    uid in s.server && Cached(s, s.server[uid].host, uid)
  }

  /** Either some request for the session comes in time, or all have come; if it is cached, the client's note is
      then not later than the last. */
  ghost predicate InTime(timeout: real, s: State, uid: Uid) {
    uid in s.server ==>
      || Awaited(timeout, s, uid)
      || (Unused(s, uid)
          && (LiveCached(s, uid) ==>
                s.server[uid].host in s.lastUsed && s.lastUsed[s.server[uid].host] <= s.server[uid].lastSeen))
  }

  ghost predicate Margins(timeout: real, s: State) {
    forall uid :: InTime(timeout, s, uid)
  }

  /** The step concerns no session that is in use. */
  ghost predicate Quiet(s: State, s': State, t: nat) {
    && Only(s, s', t) && SameSeen(s, s')
    && !Expects(s.threads[t].stage) && (Expects(s'.threads[t].stage) ==> s'.threads[t].session.uid !in s.server)
    && (forall uid :: uid in s'.server && uid !in s.server ==>
          (Fresh(s'.threads[t].stage) && s'.threads[t].session.uid == uid) || Unused(s', uid))
    && (forall uid :: LiveCached(s', uid) ==>
          && LiveCached(s, uid) && s'.server[uid].host == s.server[uid].host
          && (s.server[uid].host in s.lastUsed ==>
                s.server[uid].host in s'.lastUsed && s'.lastUsed[s.server[uid].host] == s.lastUsed[s.server[uid].host]))
  }

  lemma QuietKept(timeout: real, s: State, s': State, t: nat)
    requires Margins(timeout, s) && Quiet(s, s', t)
    ensures Margins(timeout, s')
  {
    forall uid
      ensures InTime(timeout, s', uid)
    {
      assert InTime(timeout, s, uid);
      if uid in s.server {
        if u :| 0 <= u < |s.threads| && InTimeBy(timeout, s, s.threads[u], uid) {
          assert InTimeBy(timeout, s', s'.threads[u], uid);
        }
      } else if uid in s'.server && !Unused(s', uid) {
        assert InTimeBy(timeout, s', s'.threads[t], uid);
      }
    }
  }

  lemma QuietStart(s: State, t: nat, c: Choice)
    requires t < |s.threads| && s.threads[t].stage == Idle
    ensures Quiet(s, Start(s, t, c), t)
  {
  }

  lemma QuietTakeTable(s: State, t: nat)
    requires t < |s.threads| && s.threads[t].stage == Entering
    ensures Quiet(s, TakeTable(s, t), t)
  {
  }

  lemma QuietTakeHost(s: State, t: nat)
    requires t < |s.threads| && s.threads[t].stage == Waiting
    ensures Quiet(s, TakeHost(s, t), t)
  {
  }

  lemma QuietTable(s: State, t: nat, look: TableStep)
    requires t < |s.threads| && s.threads[t].stage == AtTable(look)
    ensures Quiet(s, AfterTable(s, t, look), t)
  {
    QuietLookUp(s, t);
    QuietInsert(s, t);
    QuietReleaseTable(s, t);
    hide Quiet, LookUp, Insert, ReleaseTable;
  }

  lemma QuietLookUp(s: State, t: nat)
    requires t < |s.threads| && s.threads[t].stage.AtTable?
    ensures Quiet(s, LookUp(s, t), t)
  {
  }

  lemma QuietInsert(s: State, t: nat)
    requires t < |s.threads| && s.threads[t].stage.AtTable?
    ensures Quiet(s, Insert(s, t), t)
  {
  }

  lemma QuietReleaseTable(s: State, t: nat)
    requires t < |s.threads| && s.threads[t].stage.AtTable?
    ensures Quiet(s, ReleaseTable(s, t), t)
  {
  }

  lemma QuietCheck(s: State, t: nat)
    requires t < |s.threads| && s.threads[t].stage == Inside(Checking)
    ensures Quiet(s, Check(s, t), t)
  {
  }

  lemma QuietRemove(s: State, t: nat, c: Choice)
    requires t < |s.threads| && s.threads[t].stage == Inside(Removing)
    ensures Quiet(s, Remove(s, t, c), t)
  {
  }

  lemma QuietDrop(s: State, t: nat)
    requires t < |s.threads| && s.threads[t].stage == Inside(Dropping)
    ensures Quiet(s, Drop(s, t), t)
  {
  }

  lemma QuietForget(s: State, t: nat)
    requires t < |s.threads| && s.threads[t].stage == Inside(Forgetting) && s.threads[t].host !in s.cache
    ensures Quiet(s, Forget(s, t), t)
  {
  }

  /** Every session some thread expects to use is known to the server. */
  ghost predicate ExpectedKnown(s: State) {
    forall u :: 0 <= u < |s.threads| && Expects(s.threads[u].stage) ==> s.threads[u].session.uid in s.server
  }

  lemma QuietCreate(s: State, t: nat, c: Choice)
    requires t < |s.threads| && s.threads[t].stage == Inside(Creating) && NewSession(s, c) && ExpectedKnown(s)
    requires forall h :: h in s.cache ==> s.cache[h].uid in s.server
    ensures Quiet(s, Create(s, t, c), t)
  {
    CreateSeen(s, t, c);
    CreateQuiet(s, t, c);
    CreateUnused(s, t, c);
    assert Stays(s, Create(s, t, c), t);
    hide Create, SameSeen, LiveCached, Unused, ExpectedKnown;
  }

  /** A session that is new on the server is being stored, or its creation was not answered and nobody expects it. */
  lemma CreateUnused(s: State, t: nat, c: Choice)
    requires t < |s.threads| && NewSession(s, c) && ExpectedKnown(s)
    requires s.threads[t].stage == Inside(Creating)
    ensures var s' := Create(s, t, c);
      forall uid :: uid in s'.server && uid !in s.server ==>
        (Fresh(s'.threads[t].stage) && s'.threads[t].session.uid == uid) || Unused(s', uid)
  {
    CreatedServer(s, t, c);
    CreatedThread(s, t, c);
    hide Create, ExpectedKnown;
    if !c.answer.Good? {
      Unexpected(s, Create(s, t, c), t, c.session.uid);
    }
  }

  /** A session the server did not know is not expected by a thread that expects none before and after. */
  lemma Unexpected(s: State, s': State, t: nat, uid: Uid)
    requires Only(s, s', t) && ExpectedKnown(s) && !Expects(s'.threads[t].stage)
    ensures uid in s.server || Unused(s', uid)
  {
    hide Expects;
  }

  lemma CreateQuiet(s: State, t: nat, c: Choice)
    requires t < |s.threads| && NewSession(s, c) && forall h :: h in s.cache ==> s.cache[h].uid in s.server
    ensures var s' := Create(s, t, c);
      && s'.cache == s.cache && (Expects(s'.threads[t].stage) ==> s'.threads[t].session.uid !in s.server)
      && forall uid :: LiveCached(s', uid) ==> LiveCached(s, uid) && s'.server[uid].host == s.server[uid].host
  {
    hide Only, Stays, SameLocks;
    CreatedServer(s, t, c);
    CreatedThread(s, t, c);
    assert Create(s, t, c).cache == s.cache;
    hide Create;
  }

  /** The server knows at most one session more. */
  lemma CreatedServer(s: State, t: nat, c: Choice)
    requires t < |s.threads| && NewSession(s, c)
    ensures forall uid ::
      uid in s.server ==> uid in Create(s, t, c).server && Create(s, t, c).server[uid] == s.server[uid]
    ensures forall uid :: uid in Create(s, t, c).server && uid !in s.server ==> uid == c.session.uid
  {
    hide Only, Stays;
  }

  lemma QuietFail(s: State, t: nat)
    requires t < |s.threads| && s.threads[t].stage == Inside(Failing)
    ensures Quiet(s, ReleaseHost(s, t, Idle), t)
  {
  }

  lemma QuietMiss(s: State, t: nat)
    requires t < |s.threads| && s.threads[t].stage == Inside(Timing)
    ensures Quiet(s, Miss(s, t), t)
  {
  }

  // A hit: the session was used, by the client's note, less than the margin ago.
  lemma InTimeHit(timeout: real, s: State, t: nat)
    requires timeout >= 2.0 && t < |s.threads| && s.threads[t].stage == Inside(Timing) && Margins(timeout, s)
    requires s.now - LastUse(s, s.threads[t].host) < Margin(timeout)
    requires Cached(s, s.threads[t].host, s.threads[t].session.uid)
    requires Known(s, s.threads[t].host, s.threads[t].session.uid)
    ensures Margins(timeout, Time(timeout, s, t))
  {
    var s', th := Time(timeout, s, t), s.threads[t];
    forall uid
      ensures InTime(timeout, s', uid)
    {
      assert InTime(timeout, s, uid);
      if uid in s'.server {
        if u :| 0 <= u < |s.threads| && InTimeBy(timeout, s, s.threads[u], uid) {
          assert InTimeBy(timeout, s', s'.threads[u], uid);
        } else if uid == th.session.uid {
          assert InTimeBy(timeout, s', s'.threads[t], uid);
        }
      }
    }
  }

  /** A thread that expects to use the session goes on expecting it. */
  ghost predicate GoesOn(s: State, s': State, t: nat) {
    && Only(s, s', t) && s'.now == s.now && s'.server == s.server
    && Expects(s.threads[t].stage) && Expects(s'.threads[t].stage)
    && s'.threads[t].session.uid == s.threads[t].session.uid && s'.threads[t].host == s.threads[t].host
    && (forall h :: h != s.threads[t].host
         ==> (h in s'.cache <==> h in s.cache) && (h in s.cache ==> s'.cache[h] == s.cache[h]))
    && (forall h :: h != s.threads[t].host
         ==> (h in s'.lastUsed <==> h in s.lastUsed) && (h in s.lastUsed ==> s'.lastUsed[h] == s.lastUsed[h]))
  }

  lemma GoesOnKept(timeout: real, s: State, s': State, t: nat)
    requires Margins(timeout, s) && GoesOn(s, s', t)
    requires Cached(s', s.threads[t].host, s.threads[t].session.uid)
    requires Known(s, s.threads[t].host, s.threads[t].session.uid)
    requires InTimeBy(timeout, s', s'.threads[t], s.threads[t].session.uid)
             || (s'.cache == s.cache && s'.threads[t].deadline == s.threads[t].deadline
                 && Pending(s.threads[t].stage) && Pending(s'.threads[t].stage))
    ensures Margins(timeout, s')
  {
    forall uid
      ensures InTime(timeout, s', uid)
    {
      assert InTime(timeout, s, uid);
      if uid in s'.server {
        if uid == s.threads[t].session.uid && InTimeBy(timeout, s', s'.threads[t], uid) {
        } else if u :| 0 <= u < |s.threads| && InTimeBy(timeout, s, s.threads[u], uid) {
          assert InTimeBy(timeout, s', s'.threads[u], uid);
        }
      }
    }
  }

  lemma InTimeTouch(timeout: real, s: State, t: nat)
    requires t < |s.threads| && s.threads[t].stage == Inside(Hitting) && Before(timeout, s, t) && Margins(timeout, s)
    ensures Margins(timeout, Touch(s, t))
  {
    assert GoesOn(s, Touch(s, t), t);
    hide Margins;
    GoesOnKept(timeout, s, Touch(s, t), t);
  }

  lemma InTimeLeave(timeout: real, s: State, t: nat)
    requires t < |s.threads| && s.threads[t].stage == Inside(Leaving) && Before(timeout, s, t) && Margins(timeout, s)
    ensures Margins(timeout, ReleaseHost(s, t, Using))
  {
    assert GoesOn(s, ReleaseHost(s, t, Using), t);
    hide Margins;
    GoesOnKept(timeout, s, ReleaseHost(s, t, Using), t);
  }

  lemma InTimeStore(timeout: real, s: State, t: nat)
    requires t < |s.threads| && s.threads[t].stage == Inside(Storing) && Before(timeout, s, t) && Margins(timeout, s)
    ensures Margins(timeout, Store(s, t))
  {
    assert GoesOn(s, Store(s, t), t);
    hide Margins;
    GoesOnKept(timeout, s, Store(s, t), t);
  }

  /** The first request of a new session comes in time, because creating it took so little. */
  lemma InTimeStamp(timeout: real, s: State, t: nat)
    requires t < |s.threads| && s.threads[t].stage == Inside(Stamping) && Before(timeout, s, t) && Margins(timeout, s)
    requires Clock(timeout, s)
    ensures Margins(timeout, Stamp(s, t))
  {
    assert GoesOn(s, Stamp(s, t), t);
    assert ThreadClock(timeout, s, s.threads[t]);
    hide Margins;
    GoesOnKept(timeout, s, Stamp(s, t), t);
  }

  /** A request arrives: every other one that is on its way comes within a second, so in time again. */
  lemma InTimeUse(timeout: real, s: State, t: nat)
    requires timeout >= 2.0 && t < |s.threads| && s.threads[t].stage == Using
    requires Data(timeout, s) && Margins(timeout, s) && Clock(timeout, s)
    ensures Margins(timeout, Use(s, t))
  {
    var s' := Use(s, t);
    forall uid
      ensures InTime(timeout, s', uid)
    {
      assert InTime(timeout, s, uid);
      if uid in s'.server {
        if uid == s.threads[t].session.uid {
          InTimeNow(timeout, s, t);
        } else if u :| 0 <= u < |s.threads| && InTimeBy(timeout, s, s.threads[u], uid) {
          assert InTimeBy(timeout, s', s'.threads[u], uid);
        }
      }
    }
  }

  lemma InTimeNow(timeout: real, s: State, t: nat)
    requires timeout >= 2.0 && t < |s.threads| && s.threads[t].stage == Using
    requires Data(timeout, s) && Clock(timeout, s)
    ensures InTime(timeout, Use(s, t), s.threads[t].session.uid)
  {
    var s', uid := Use(s, t), s.threads[t].session.uid;
    if uid in s'.server && !Unused(s', uid) {
      var u :| 0 <= u < |s'.threads| && Expects(s'.threads[u].stage) && s'.threads[u].session.uid == uid;
      assert ThreadClock(timeout, s, s.threads[u]);
      assert InTimeBy(timeout, s', s'.threads[u], uid);
    }
    if LiveCached(s', uid) && Unused(s', uid) {
      Noted(timeout, s, s.server[uid].host, uid, t);
    }
  }

  /** The client has noted when it last used a cached session, unless a thread is about to. */
  lemma Noted(timeout: real, s: State, h: Host, uid: Uid, t: nat)
    requires Data(timeout, s) && Cached(s, h, uid) && t < |s.threads| && s.threads[t].stage == Using
    requires Unused(Use(s, t), uid)
    ensures h in s.lastUsed
  {
    assert HostGood(timeout, s, h);
    if Busy(s, h) {
      BusyNoted(timeout, s, h, uid, t);
    }
  }

  lemma BusyNoted(timeout: real, s: State, h: Host, uid: Uid, t: nat)
    requires Data(timeout, s) && Cached(s, h, uid) && t < |s.threads| && s.threads[t].stage == Using && Busy(s, h)
    requires Unused(Use(s, t), uid)
    ensures h in s.lastUsed
  {
    hide Margin;
    var u :| 0 <= u < |s.threads| && s.threads[u].host == h && Amid(s.threads[u].stage);
    assert ThreadGood(timeout, s, s.threads[u]);
    assert Use(s, t).threads[u] == s.threads[u];
    assert s.threads[u].stage == Inside(Dropping);
  }

  lemma OutsideMargins(timeout: real, s: State, t: nat, c: Choice)
    requires Margins(timeout, s) && t < |s.threads|
    ensures s.threads[t].stage == Idle ==> Margins(timeout, Start(s, t, c))
    ensures s.threads[t].stage == Entering ==> Margins(timeout, TakeTable(s, t))
    ensures s.threads[t].stage == Waiting ==> Margins(timeout, TakeHost(s, t))
    ensures s.threads[t].stage.AtTable? ==> Margins(timeout, AfterTable(s, t, s.threads[t].stage.look))
  {
    hide Margins, Quiet, Only, Start, TakeTable, TakeHost, AfterTable, SameLocks;
    match s.threads[t].stage
    case Idle => QuietStart(s, t, c); QuietKept(timeout, s, Start(s, t, c), t);
    case Entering => QuietTakeTable(s, t); QuietKept(timeout, s, TakeTable(s, t), t);
    case Waiting => QuietTakeHost(s, t); QuietKept(timeout, s, TakeHost(s, t), t);
    case AtTable(look) => QuietTable(s, t, look); QuietKept(timeout, s, AfterTable(s, t, look), t);
    case _ =>
  }

  lemma TimeMargins(timeout: real, s: State, t: nat)
    requires timeout >= 2.0 && t < |s.threads| && s.threads[t].stage == Inside(Timing) && Margins(timeout, s)
    requires Before(timeout, s, t)
    ensures Margins(timeout, Time(timeout, s, t))
  {
    hide Margins, Quiet, Margin, LastUse;
    if s.now - LastUse(s, s.threads[t].host) < Margin(timeout) {
      InTimeHit(timeout, s, t);
    } else {
      QuietMiss(s, t);
      QuietKept(timeout, s, Miss(s, t), t);
    }
  }

  lemma CachedKnown(timeout: real, s: State, t: nat)
    requires Data(timeout, s)
    ensures forall h :: h in s.cache ==> s.cache[h].uid in s.server
  {
    forall h | h in s.cache
      ensures s.cache[h].uid in s.server
    {
      assert HostGood(timeout, s, h);
    }
  }

  lemma ThreadsKnown(timeout: real, s: State)
    requires Data(timeout, s)
    ensures ExpectedKnown(s)
  {
    hide Margin;
    forall u | 0 <= u < |s.threads| && Expects(s.threads[u].stage)
      ensures s.threads[u].session.uid in s.server
    {
      assert ThreadGood(timeout, s, s.threads[u]) && HostGood(timeout, s, s.threads[u].host);
    }
  }

  lemma ForgetsUncached(timeout: real, s: State, t: nat)
    requires t < |s.threads| && s.threads[t].stage == Inside(Forgetting) && Before(timeout, s, t)
    ensures s.threads[t].host !in s.cache
  {
  }

  lemma InsideMargins(timeout: real, s: State, t: nat, step: HostStep, c: Choice)
    requires timeout >= 2.0 && Locks(s) && Data(timeout, s) && Clock(timeout, s) && Margins(timeout, s)
    requires Enabled(s, t, c) && s.threads[t].stage == Inside(step)
    ensures Margins(timeout, AfterHost(timeout, s, t, step, c))
  {
    BeforeStep(timeout, s, t);
    CachedKnown(timeout, s, t);
    ThreadsKnown(timeout, s);
    hide ExpectedKnown, Locks, Data, Clock, Margins, Before, Quiet, Only, Stays, Check, Time, Touch, Remove, Drop,
      Forget, Create, Store, Stamp, ReleaseHost;
    match step
    case Checking => QuietCheck(s, t); QuietKept(timeout, s, Check(s, t), t);
    case Timing => TimeMargins(timeout, s, t);
    case Hitting => InTimeTouch(timeout, s, t);
    case Leaving => InTimeLeave(timeout, s, t);
    case Removing => QuietRemove(s, t, c); QuietKept(timeout, s, Remove(s, t, c), t);
    case Dropping => QuietDrop(s, t); QuietKept(timeout, s, Drop(s, t), t);
    case Forgetting => ForgetsUncached(timeout, s, t); QuietForget(s, t); QuietKept(timeout, s, Forget(s, t), t);
    case Creating => QuietCreate(s, t, c); QuietKept(timeout, s, Create(s, t, c), t);
    case Storing => InTimeStore(timeout, s, t);
    case Stamping => InTimeStamp(timeout, s, t);
    case Failing => QuietFail(s, t); QuietKept(timeout, s, ReleaseHost(s, t, Idle), t);
  }

  lemma MarginsKept(timeout: real, s: State, t: nat, c: Choice)
    requires timeout >= 2.0 && Locks(s) && Data(timeout, s) && Clock(timeout, s) && Margins(timeout, s)
    requires Enabled(s, t, c)
    ensures Margins(timeout, After(timeout, s, t, c))
  {
    hide Locks, Data, Clock, Margins, AfterHost, AfterTable, Start, TakeTable, TakeHost, Use;
    match s.threads[t].stage
    case Inside(step) => InsideMargins(timeout, s, t, step, c);
    case Using => InTimeUse(timeout, s, t);
    case _ => OutsideMargins(timeout, s, t, c);
  }
}
