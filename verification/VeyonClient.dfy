/** The client's methods on their two maps, and that a call of theirs is what the steps of a thread amount to. */
module VeyonClient {
  import opened Options
  import opened Sessions

  /** What a call meets: the times at which the clock is read, whether the delete request gets through, and
      the session the server creates. */
  datatype Weather = Weather(checked: real, timed: real, noted: real, deleted: bool, created: Option<Session>)

  datatype Result = Uid(uid: Uid) | Invalid | Unreachable | NotCreated

  /** A request that leaves the client while it looks for a session. */
  datatype Request = Delete(uid: Option<Uid>) | Authenticate(host: Host)

  datatype Maps = Maps(cache: map<Host, Session>, lastUsed: map<Host, real>)

  /** The session a removal sends its delete for. */
  function SentFor(cache: map<Host, Session>, host: Host): Option<Uid> {
    if host in cache then Some(cache[host].uid) else None
  }

  /** The maps after a removal. */
  function Removed(m: Maps, host: Host, delivered: bool): Maps {
    if delivered then Maps(m.cache - {host}, m.lastUsed - {host}) else m
  }

  predicate Usable(margin: real, m: Maps, host: Host, w: Weather) {
    && host in m.cache && m.cache[host].validUntil > w.checked
    && w.timed - (if host in m.lastUsed then m.lastUsed[host] else 0.0) < margin
  }

  /** The maps and the result after a call for a connection. */
  function Called(margin: real, m: Maps, host: Host, renew: bool, w: Weather): (Maps, Result) {
    if Usable(margin, m, host, w) then
      (m.(lastUsed := m.lastUsed[host := w.noted]), Uid(m.cache[host].uid))
    else if !renew then (m, Invalid)
    else if !w.deleted then (m, Unreachable)
    else if w.created.None? then (Maps(m.cache - {host}, m.lastUsed - {host}), NotCreated)
    else (Maps(m.cache[host := w.created.value], m.lastUsed[host := w.noted]), Uid(w.created.value.uid))
  }

  class Client {
    const defaultHost: Host
    const timeout: real
    const idleTimeout: real := if timeout - 1.0 > 1.0 then timeout - 1.0 else 1.0
    var cache: map<Host, Session>
    var lastUsed: map<Host, real>

    constructor (defaultHost: Host, timeout: real)
      ensures this.defaultHost == defaultHost && this.timeout == timeout
      ensures idleTimeout == if timeout > 2.0 then timeout - 1.0 else 1.0
      ensures cache == map[] && lastUsed == map[]
    {
      this.defaultHost, this.timeout := defaultHost, timeout;
      cache, lastUsed := map[], map[];
    }

    method ResetIdleTime(host: Host, now: real)
      modifies `lastUsed
      ensures lastUsed == old(lastUsed)[host := now]
    {
      lastUsed := lastUsed[host := now];
    }

    /** Sends a delete for the cached session, or for none; a request that does not get through leaves the maps
        as they are. */
    method RemoveSession(host: Host, delivered: bool) returns (ok: bool, sent: Option<Uid>)
      modifies `cache, `lastUsed
      ensures ok == delivered
      ensures sent == if host in old(cache) then Some(old(cache)[host].uid) else None
      ensures cache == if ok then old(cache) - {host} else old(cache)
      ensures lastUsed == if ok then old(lastUsed) - {host} else old(lastUsed)
      ensures sent == SentFor(old(cache), host)
      ensures Maps(cache, lastUsed) == Removed(Maps(old(cache), old(lastUsed)), host, delivered)
    {
      sent := if host in cache then Some(cache[host].uid) else None;
      ok := delivered;
      if !ok {
        return;
      }
      if host in cache {
        cache := cache - {host};
      }
      if host in lastUsed {
        lastUsed := lastUsed - {host};
      }
      assert old(cache) - {host} == cache && old(lastUsed) - {host} == lastUsed;
    }

    /** The host a call is for: a missing or empty name stands for the default host. */
    function HostOf(name: Option<Host>): Host {
      if name.Some? && name.value != "" then name.value else defaultHost
    }

    /** A session that is valid and was last used less than the idle time ago, which is one second less than the
        server's timeout but at least one second, is handed out, and no request leaves the client; any other one is
        not. Without leave to renew nothing changes then. Else a delete is sent for the cached session, and a new one
        takes its place; a delete that fails leaves both maps as they are, a creation that fails leaves the host in
        neither. */
    method GetConnectionUid(name: Option<Host>, renew: bool, w: Weather) returns (r: Result, sent: seq<Request>)
      modifies `cache, `lastUsed
      ensures var host := HostOf(name);
        var idle := w.timed - (if host in old(lastUsed) then old(lastUsed)[host] else 0.0);
        var usable := host in old(cache) && old(cache)[host].validUntil > w.checked
                      && (idle < timeout - 1.0 || idle < 1.0);
        && (usable ==>
              && r == Uid(old(cache)[host].uid) && sent == []
              && cache == old(cache) && lastUsed == old(lastUsed)[host := w.noted])
        && (!usable && !renew ==> r == Invalid && sent == [] && cache == old(cache) && lastUsed == old(lastUsed))
        && (!usable && renew ==>
              && sent == [Delete(if host in old(cache) then Some(old(cache)[host].uid) else None)]
                         + (if w.deleted then [Authenticate(host)] else [])
              && (!w.deleted ==> r == Unreachable && cache == old(cache) && lastUsed == old(lastUsed))
              && (w.deleted && w.created.None? ==>
                    r == NotCreated && cache == old(cache) - {host} && lastUsed == old(lastUsed) - {host})
              && (w.deleted && w.created.Some? ==>
                    && r == Uid(w.created.value.uid) && cache == old(cache)[host := w.created.value]
                    && lastUsed == old(lastUsed)[host := w.noted]))
      ensures (Maps(cache, lastUsed), r) ==
        Called(Margin(timeout), Maps(old(cache), old(lastUsed)), HostOf(name), renew, w)
    {
      var host := if name.Some? && name.value != "" then name.value else defaultHost;
      sent := [];
      if host in cache && cache[host].validUntil > w.checked {
        var last := if host in lastUsed then lastUsed[host] else 0.0;
        if w.timed - last < idleTimeout {
          ResetIdleTime(host, w.noted);
          return Uid(cache[host].uid), sent;
        }
      }
      if !renew {
        return Invalid, sent;
      }
      var ok, uid := RemoveSession(host, w.deleted);
      sent := sent + [Delete(uid)];
      if !ok {
        return Unreachable, sent;
      }
      sent := sent + [Authenticate(host)];
      if w.created.None? {
        return NotCreated, sent;
      }
      assert (old(cache) - {host})[host := w.created.value] == old(cache)[host := w.created.value];
      assert (old(lastUsed) - {host})[host := w.noted] == old(lastUsed)[host := w.noted];
      cache := cache[host := w.created.value];
      ResetIdleTime(host, w.noted);
      return Uid(w.created.value.uid), sent;
    }
  }

  // ---------- a call as the steps of a thread ----------

  /** From the delete request on. */
  function Renewing(s: State, t: nat, w: Weather): State
    requires t < |s.threads|
  {
    var answer := Choice("", true, false, if w.deleted then Good else Refused, Session(0, 0.0));
    var s1 := Remove(s, t, answer);
    if s1.threads[t].stage != Inside(Dropping) then s1
    else
      var s2 := Forget(Drop(s1, t), t);
      var creation := Choice("", true, false, if w.created.Some? then Good else Refused,
                             if w.created.Some? then w.created.value else Session(0, 0.0));
      var s3 := Create(s2, t, creation);
      if s3.threads[t].stage != Inside(Storing) then s3 else Stamp(Store(s3, t).(now := w.noted), t)
  }

  /** The steps of a thread that has just got its host's lock, up to the release of the lock. */
  function Holding(timeout: real, s: State, t: nat, w: Weather): State
    requires t < |s.threads|
  {
    var s1 := Check(s.(now := w.checked), t);
    var s2 := if s1.threads[t].stage == Inside(Timing) then Time(timeout, s1.(now := w.timed), t) else s1;
    if s2.threads[t].stage == Inside(Hitting) then Touch(s2.(now := w.noted), t)
    else if s2.threads[t].stage == Inside(Removing) then Renewing(s2, t, w)
    else s2
  }

  lemma RemoveMaps(s: State, t: nat, c: Choice)
    requires t < |s.threads|
    ensures var s' := Remove(s, t, c);
      && s'.cache == s.cache && s'.lastUsed == s.lastUsed
      && s'.threads[t].host == s.threads[t].host && s'.threads[t].removeOnly == s.threads[t].removeOnly
      && s'.threads[t].stage == Inside(if c.answer.Good? then Dropping else Failing)
  {
    hide Only, SameLocks;
  }

  lemma ForgetMaps(s: State, t: nat)
    requires t < |s.threads|
    ensures var s' := Forget(Drop(s, t), t);
      && s'.cache == s.cache - {s.threads[t].host} && s'.lastUsed == s.lastUsed - {s.threads[t].host}
      && s'.threads[t].host == s.threads[t].host
      && s'.threads[t].stage == Inside(if s.threads[t].removeOnly then Failing else Creating)
  {
    hide Only, SameLocks;
  }

  lemma CreateMaps(s: State, t: nat, c: Choice)
    requires t < |s.threads| && !c.answer.Lost?
    ensures var s' := Create(s, t, c);
      && s'.cache == s.cache && s'.lastUsed == s.lastUsed && s'.threads[t].host == s.threads[t].host
      && s'.threads[t].stage == Inside(if c.answer.Good? then Storing else Failing)
      && (c.answer.Good? ==> s'.threads[t].session == c.session)
  {
    hide Only, SameLocks;
  }

  lemma StampMaps(s: State, t: nat, now: real)
    requires t < |s.threads|
    ensures var s', h := Stamp(Store(s, t).(now := now), t), s.threads[t].host;
      && s'.cache == s.cache[h := s.threads[t].session] && s'.lastUsed == s.lastUsed[h := now]
      && s'.threads[t].stage == Inside(Leaving) && s'.threads[t].session == s.threads[t].session
  {
    hide Only, SameLocks;
  }

  lemma RenewingMaps(s: State, t: nat, w: Weather)
    requires t < |s.threads|
    ensures var s', th, h := Renewing(s, t, w), Renewing(s, t, w).threads[t], s.threads[t].host;
      if !w.deleted then s'.cache == s.cache && s'.lastUsed == s.lastUsed && th.stage == Inside(Failing)
      else if w.created.None? then
        s'.cache == s.cache - {h} && s'.lastUsed == s.lastUsed - {h} && th.stage == Inside(Failing)
      else
        && s'.cache == s.cache[h := w.created.value] && s'.lastUsed == s.lastUsed[h := w.noted]
        && th.stage == Inside(Leaving) && th.session.uid == w.created.value.uid
  {
    hide SameLocks, Remove, Drop, Forget, Create, Store, Stamp;
    var h := s.threads[t].host;
    var answer := Choice("", true, false, if w.deleted then Good else Refused, Session(0, 0.0));
    var s1 := Remove(s, t, answer);
    RemoveMaps(s, t, answer);
    if w.deleted {
      var s2 := Forget(Drop(s1, t), t);
      ForgetMaps(s1, t);
      var creation := Choice("", true, false, if w.created.Some? then Good else Refused,
                             if w.created.Some? then w.created.value else Session(0, 0.0));
      CreateMaps(s2, t, creation);
      if w.created.Some? {
        StampMaps(Create(s2, t, creation), t, w.noted);
        assert (s.cache - {h})[h := w.created.value] == s.cache[h := w.created.value];
        assert (s.lastUsed - {h})[h := w.noted] == s.lastUsed[h := w.noted];
      }
    }
  }

  /** A direct removal's steps, up to the release of the lock. */
  function Purging(s: State, t: nat, delivered: bool): State
    requires t < |s.threads|
  {
    var s1 := Remove(s, t, Choice("", true, true, if delivered then Good else Refused, Session(0, 0.0)));
    if delivered then Forget(Drop(s1, t), t) else s1
  }

  /** The same steps, in a thread that only removes, are what remove_session does: the delete it sends and the maps
      it leaves are those of the method. */
  lemma StepsAreTheRemoval(s: State, t: nat, delivered: bool)
    requires t < |s.threads| && s.threads[t].stage == Inside(Removing) && s.threads[t].removeOnly
    ensures var s' := Purging(s, t, delivered);
      Maps(s'.cache, s'.lastUsed) == Removed(Maps(s.cache, s.lastUsed), s.threads[t].host, delivered)
      && s'.threads[t].stage == Inside(Failing)
      && forall uid :: uid in s.server ==>
           && uid in s'.server
           && (if SentFor(s.cache, s.threads[t].host) == Some(uid) then
                Deleted(s', uid) && (delivered ==> Done(s', uid))
               else s'.server[uid] == s.server[uid])
  {
    var c := Choice("", true, true, if delivered then Good else Refused, Session(0, 0.0));
    var s1 := Remove(s, t, c);
    RemoveMaps(s, t, c);
    RemoveServed(s, t, c);
    if delivered {
      ForgetMaps(s1, t);
      ForgetServer(s1, t);
    }
    hide Remove, Drop, Forget;
  }

  lemma RemoveServed(s: State, t: nat, c: Choice)
    requires t < |s.threads|
    ensures forall uid :: uid in s.server ==>
      && uid in Remove(s, t, c).server
      && Remove(s, t, c).server[uid] == if SentFor(s.cache, s.threads[t].host) == Some(uid) then
                                          DeleteSent(s.server[uid], s.threads[t].removeOnly, c)
                                        else s.server[uid]
  {
    hide Only, Stays, SameLocks, DeleteSent;
  }

  lemma ForgetServer(s: State, t: nat)
    requires t < |s.threads|
    ensures Forget(Drop(s, t), t).server == s.server
  {
    hide Only, Stays, SameLocks;
  }

  lemma CheckMaps(s: State, t: nat, now: real)
    requires t < |s.threads|
    ensures var s', th := Check(s.(now := now), t), s.threads[t];
      && s'.cache == s.cache && s'.lastUsed == s.lastUsed && s'.threads[t].host == th.host
      && s'.threads[t].renew == th.renew && s'.threads[t].removeOnly == th.removeOnly
      && (if th.host in s.cache && s.cache[th.host].validUntil > now then
            s'.threads[t].stage == Inside(Timing) && s'.threads[t].session == s.cache[th.host]
          else s'.threads[t].stage == Inside(if th.renew then Removing else Failing))
  {
    hide Only, SameLocks;
  }

  lemma TimeMaps(timeout: real, s: State, t: nat, now: real)
    requires t < |s.threads|
    ensures var s', th := Time(timeout, s.(now := now), t), s.threads[t];
      && s'.cache == s.cache && s'.lastUsed == s.lastUsed && s'.threads[t].host == th.host
      && s'.threads[t].removeOnly == th.removeOnly
      && (if now - LastUse(s, th.host) < Margin(timeout) then
            s'.threads[t].stage == Inside(Hitting) && s'.threads[t].session == th.session
          else s'.threads[t].stage == Inside(if th.renew then Removing else Failing))
  {
    hide Only, SameLocks, Margin;
  }

  lemma TouchMaps(s: State, t: nat, now: real)
    requires t < |s.threads|
    ensures var s' := Touch(s.(now := now), t);
      && s'.cache == s.cache && s'.lastUsed == s.lastUsed[s.threads[t].host := now]
      && s'.threads[t].stage == Inside(Leaving) && s'.threads[t].session == s.threads[t].session
  {
    hide Only, SameLocks;
  }

  /** What the machine's thread does while it holds the lock is what the method does: the same maps, and a session
      handed out exactly when the method returns one. */
  lemma StepsAreTheCall(timeout: real, s: State, t: nat, w: Weather)
    requires t < |s.threads| && s.threads[t].stage == Inside(Checking) && !s.threads[t].removeOnly
    ensures var (maps, result) :=
      Called(Margin(timeout), Maps(s.cache, s.lastUsed), s.threads[t].host, s.threads[t].renew, w);
      var s' := Holding(timeout, s, t, w);
      && Maps(s'.cache, s'.lastUsed) == maps
      && s'.threads[t].stage == Inside(if result.Uid? then Leaving else Failing)
      && (result.Uid? ==> s'.threads[t].session.uid == result.uid)
  {
    hide SameLocks, Margin, Renewing, Check, Time, Touch;
    var s1 := Check(s.(now := w.checked), t);
    CheckMaps(s, t, w.checked);
    var s2 := if s1.threads[t].stage == Inside(Timing) then Time(timeout, s1.(now := w.timed), t) else s1;
    TimeMaps(timeout, s1, t, w.timed);
    TouchMaps(s2, t, w.noted);
    RenewingMaps(s2, t, w);
  }

  // ---------- these steps are the machine's ----------

  /** The clock moves, or the thread takes the step the machine has for it. */
  ghost predicate Moves(timeout: real, t: nat, a: State, b: State) {
    b == a.(now := b.now) || exists c :: Enabled(a, t, c) && b == After(timeout, a, t, c)
  }

  ghost predicate Walk(timeout: real, t: nat, states: seq<State>, a: State, b: State) {
    && states != [] && states[0] == a && states[|states| - 1] == b
    && forall i :: 0 <= i < |states| - 1 ==> Moves(timeout, t, states[i], states[i + 1])
  }

  ghost predicate Walks(timeout: real, t: nat, a: State, b: State) {
    exists states :: Walk(timeout, t, states, a, b)
  }

  lemma Walking(timeout: real, t: nat, a: State, b: State, c: State)
    requires Walks(timeout, t, a, b) && Moves(timeout, t, b, c)
    ensures Walks(timeout, t, a, c)
  {
    hide Moves;
    var states :| Walk(timeout, t, states, a, b);
    assert Walk(timeout, t, states + [c], a, c);
  }

  lemma Acting(timeout: real, t: nat, a: State, b: State, c: Choice)
    requires Walks(timeout, t, a, b) && Enabled(b, t, c)
    ensures Walks(timeout, t, a, After(timeout, b, t, c))
  {
    hide After, Walks, Enabled;
    Walking(timeout, t, a, b, After(timeout, b, t, c));
  }

  lemma Clocked(timeout: real, t: nat, a: State, b: State, now: real)
    requires Walks(timeout, t, a, b)
    ensures Walks(timeout, t, a, b.(now := now))
  {
    hide Walks, After, Enabled;
    Walking(timeout, t, a, b, b.(now := now));
  }

  lemma Standing(timeout: real, t: nat, a: State)
    ensures Walks(timeout, t, a, a)
  {
    assert Walk(timeout, t, [a], a, a);
  }

  lemma RenewingWalks(timeout: real, s: State, a: State, t: nat, w: Weather)
    requires Walks(timeout, t, s, a) && t < |a.threads|
    requires a.threads[t].stage == Inside(Removing) && !a.threads[t].removeOnly
    requires w.created.Some? ==> w.created.value.uid !in a.server
    ensures Walks(timeout, t, s, Renewing(a, t, w))
  {
    hide Walks, Only, SameLocks;
    var answer := Choice("", true, false, if w.deleted then Good else Refused, Session(0, 0.0));
    Acting(timeout, t, s, a, answer);
    var s1 := Remove(a, t, answer);
    if w.deleted {
      Acting(timeout, t, s, s1, answer);
      Acting(timeout, t, s, Drop(s1, t), answer);
      CreatingWalks(timeout, s, Forget(Drop(s1, t), t), t, w);
    }
  }

  lemma CreatingWalks(timeout: real, s: State, a: State, t: nat, w: Weather)
    requires Walks(timeout, t, s, a) && t < |a.threads| && a.threads[t].stage == Inside(Creating)
    requires w.created.Some? ==> w.created.value.uid !in a.server
    ensures var creation := Choice("", true, false, if w.created.Some? then Good else Refused,
                                   if w.created.Some? then w.created.value else Session(0, 0.0));
      var s' := Create(a, t, creation);
      Walks(timeout, t, s,
        if s'.threads[t].stage != Inside(Storing) then s' else Stamp(Store(s', t).(now := w.noted), t))
  {
    hide Walks, Only, SameLocks;
    var creation := Choice("", true, false, if w.created.Some? then Good else Refused,
                           if w.created.Some? then w.created.value else Session(0, 0.0));
    Acting(timeout, t, s, a, creation);
    var s1 := Create(a, t, creation);
    if w.created.Some? {
      Acting(timeout, t, s, s1, creation);
      Clocked(timeout, t, s, Store(s1, t), w.noted);
      Acting(timeout, t, s, Store(s1, t).(now := w.noted), creation);
    }
  }

  /** So is a removal. */
  lemma PurgingWalks(timeout: real, s: State, t: nat, delivered: bool)
    requires t < |s.threads| && s.threads[t].stage == Inside(Removing)
    ensures Walks(timeout, t, s, Purging(s, t, delivered))
  {
    hide Walks, Only, SameLocks;
    var c := Choice("", true, true, if delivered then Good else Refused, Session(0, 0.0));
    Standing(timeout, t, s);
    Acting(timeout, t, s, s, c);
    var s1 := Remove(s, t, c);
    if delivered {
      Acting(timeout, t, s, s1, c);
      Acting(timeout, t, s, Drop(s1, t), c);
    }
  }

  /** The first part of a call: the session is checked, and how long it has been idle. */
  function Looked(timeout: real, s: State, t: nat, w: Weather): State
    requires t < |s.threads|
  {
    var s1 := Check(s.(now := w.checked), t);
    if s1.threads[t].stage == Inside(Timing) then Time(timeout, s1.(now := w.timed), t) else s1
  }

  lemma LookedServer(timeout: real, s: State, t: nat, w: Weather)
    requires t < |s.threads|
    ensures var s' := Looked(timeout, s, t, w);
      t < |s'.threads| && s'.server == s.server && s'.threads[t].removeOnly == s.threads[t].removeOnly
  {
    var s1 := Check(s.(now := w.checked), t);
    CheckMaps(s, t, w.checked);
    CheckWorld(s.(now := w.checked), t);
    TimeMaps(timeout, s1, t, w.timed);
    TimeWorld(timeout, s1.(now := w.timed), t);
    hide SameLocks, Margin, Check, Time;
  }

  lemma LookedWalks(timeout: real, s: State, t: nat, w: Weather)
    requires t < |s.threads| && s.threads[t].stage == Inside(Checking)
    ensures Walks(timeout, t, s, Looked(timeout, s, t, w))
  {
    hide Walks, Only, SameLocks, Margin;
    var any := Choice("", true, false, Refused, Session(0, 0.0));
    Standing(timeout, t, s);
    Clocked(timeout, t, s, s, w.checked);
    Acting(timeout, t, s, s.(now := w.checked), any);
    var s1 := Check(s.(now := w.checked), t);
    if s1.threads[t].stage == Inside(Timing) {
      Clocked(timeout, t, s, s1, w.timed);
      Acting(timeout, t, s, s1.(now := w.timed), any);
    }
  }

  /** What a call does while it holds the lock is a walk of the machine: its thread takes the steps the machine has
      for it, and the clock moves. */
  lemma HoldingWalks(timeout: real, s: State, t: nat, w: Weather)
    requires t < |s.threads| && s.threads[t].stage == Inside(Checking) && !s.threads[t].removeOnly
    requires w.created.Some? ==> w.created.value.uid !in s.server
    ensures Walks(timeout, t, s, Holding(timeout, s, t, w))
  {
    hide Walks, Only, SameLocks, Margin, Renewing, Check, Time, Touch;
    LookedWalks(timeout, s, t, w);
    LookedServer(timeout, s, t, w);
    HoldingRest(timeout, s, Looked(timeout, s, t, w), t, w);
  }

  lemma HoldingRest(timeout: real, s: State, a: State, t: nat, w: Weather)
    requires Walks(timeout, t, s, a) && t < |a.threads| && !a.threads[t].removeOnly
    requires w.created.Some? ==> w.created.value.uid !in a.server
    ensures Walks(timeout, t, s,
      if a.threads[t].stage == Inside(Hitting) then Touch(a.(now := w.noted), t)
      else if a.threads[t].stage == Inside(Removing) then Renewing(a, t, w)
      else a)
  {
    hide Walks, Only, SameLocks, Renewing;
    if a.threads[t].stage == Inside(Hitting) {
      var any := Choice("", true, false, Refused, Session(0, 0.0));
      Clocked(timeout, t, s, a, w.noted);
      Acting(timeout, t, s, a.(now := w.noted), any);
    } else if a.threads[t].stage == Inside(Removing) {
      RenewingWalks(timeout, s, a, t, w);
    }
  }

  // ---------- the idle margin, written out ----------

  /** The cached session is valid and was last used less than the server's timeout minus one second ago, or less than
      one second ago. */
  predicate Recent(timeout: real, s: State, host: Host) {
    && host in s.cache && s.cache[host].validUntil > s.now
    && var idle := s.now - (if host in s.lastUsed then s.lastUsed[host] else 0.0);
       idle < timeout - 1.0 || idle < 1.0
  }

  /** A thread that finds a recent session takes four steps to hand it out; the server hears nothing, and only the
      time of use is noted. */
  lemma RecentHandedOut(timeout: real, s: State, t: nat, c: Choice)
    requires t < |s.threads| && s.threads[t].stage == Inside(Checking) && Recent(timeout, s, s.threads[t].host)
    ensures var s1 := After(timeout, s, t, c); Enabled(s1, t, c)
    ensures var s2 := After(timeout, After(timeout, s, t, c), t, c); Enabled(s2, t, c)
    ensures var s3 := After(timeout, After(timeout, After(timeout, s, t, c), t, c), t, c); Enabled(s3, t, c)
    ensures var s4 := After(timeout, After(timeout, After(timeout, After(timeout, s, t, c), t, c), t, c), t, c);
      && s4.threads[t].stage == Using && s4.threads[t].session == s.cache[s.threads[t].host]
      && s4.server == s.server && s4.cache == s.cache
      && s4.lastUsed == s.lastUsed[s.threads[t].host := s.now]
  {
    hide Only, SameLocks;
    CheckMaps(s, t, s.now);
    var s1 := Check(s, t);
    assert s.(now := s.now) == s;
    TimeMaps(timeout, s1, t, s1.now);
    var s2 := Time(timeout, s1, t);
    TouchMaps(s2, t, s2.now);
    var s3 := Touch(s2, t);
  }

  /** A thread that finds none is not going to hand the cached one out: it raises, or it deletes first. */
  lemma OthersNotHandedOut(timeout: real, s: State, t: nat, c: Choice)
    requires t < |s.threads| && s.threads[t].stage == Inside(Checking) && !Recent(timeout, s, s.threads[t].host)
    ensures var s1 := After(timeout, s, t, c);
      && Enabled(s1, t, c)
      && var s2 := if s1.threads[t].stage == Inside(Timing) then After(timeout, s1, t, c) else s1;
         && s2.threads[t].stage == Inside(if s.threads[t].renew then Removing else Failing)
         && s2.cache == s.cache && s2.lastUsed == s.lastUsed
  {
    hide Only, SameLocks;
    CheckMaps(s, t, s.now);
    var s1 := Check(s, t);
    assert s.(now := s.now) == s;
    TimeMaps(timeout, s1, t, s1.now);
  }
}
