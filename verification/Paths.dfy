/** Runs built step by step: a path from one state to another, and the stretches a lone thread's calls consist of. */
module Paths {
  import opened Options
  import opened Sessions

  // ---------- paths ----------

  ghost predicate Steps(timeout: real, states: seq<State>) {
    states != [] && forall i :: 0 <= i < |states| - 1 ==> Next(timeout, states[i], states[i + 1])
  }

  ghost predicate Leads(timeout: real, states: seq<State>, s: State, s': State) {
    Steps(timeout, states) && states[0] == s && states[|states| - 1] == s'
  }

  ghost predicate Path(timeout: real, s: State, s': State) {
    exists states :: Leads(timeout, states, s, s')
  }

  lemma NextPath(timeout: real, s: State, s': State)
    requires Next(timeout, s, s')
    ensures Path(timeout, s, s')
  {
    hide Next;
    assert Leads(timeout, [s, s'], s, s');
  }

  lemma Joined(timeout: real, a: State, b: State, c: State)
    requires Path(timeout, a, b) && Path(timeout, b, c)
    ensures Path(timeout, a, c)
  {
    hide Next;
    var xs :| Leads(timeout, xs, a, b);
    var ys :| Leads(timeout, ys, b, c);
    var all := xs + ys[1..];
    forall i | 0 <= i < |all| - 1
      ensures Next(timeout, all[i], all[i + 1])
    {
      if i >= |xs| - 1 {
        assert all[i] == ys[i - (|xs| - 1)] && all[i + 1] == ys[i - (|xs| - 1) + 1];
      }
    }
    assert Leads(timeout, all, a, c);
  }

  lemma Acts(timeout: real, s: State, a: State, t: nat, c: Choice)
    requires Path(timeout, s, a) && Enabled(a, t, c)
    ensures Path(timeout, s, After(timeout, a, t, c))
  {
    hide After, Enabled, Path, Tick;
    NextPath(timeout, a, After(timeout, a, t, c));
    Joined(timeout, s, a, After(timeout, a, t, c));
  }

  lemma Waits(timeout: real, s: State, a: State, d: real)
    requires Path(timeout, s, a) && d >= 0.0 && AllTimely(timeout, a, a.now + d)
    ensures Path(timeout, s, a.(now := a.now + d))
  {
    hide After, Enabled, Path, AllTimely;
    assert Tick(timeout, a, a.(now := a.now + d));
    NextPath(timeout, a, a.(now := a.now + d));
    Joined(timeout, s, a, a.(now := a.now + d));
  }

  // ---------- the stretches of the run ----------

  predicate Lone(s: State, stage: Stage) {
    |s.threads| == 1 && s.threads[0].stage == stage && s.tableLock == None
  }

  predicate SameMaps(a: State, b: State) {
    b.now == a.now && b.cache == a.cache && b.lastUsed == a.lastUsed && b.server == a.server
  }

  /** Alone, a thread gets its host's lock without waiting. */
  lemma Acquires(timeout: real, s: State, a: State, c: Choice) returns (b: State)
    requires Path(timeout, s, a) && Lone(a, Idle) && a.owner == map[]
    ensures Path(timeout, s, b) && Lone(b, Inside(if c.removeOnly then Removing else Checking)) && SameMaps(a, b)
    ensures b.threads[0].host == c.host && b.threads[0].renew == c.renew && b.threads[0].removeOnly == c.removeOnly
    ensures b.owner == map[b.threads[0].lock := 0]
  {
    hide Path, Only, SameLocks;
    Acts(timeout, s, a, 0, c);
    var s1 := Start(a, 0, c);
    Acts(timeout, s, s1, 0, c);
    b := Finds(timeout, s, TakeTable(s1, 0), c);
  }

  lemma Finds(timeout: real, s: State, a: State, c: Choice) returns (b: State)
    requires Path(timeout, s, a) && |a.threads| == 1 && a.threads[0].stage == AtTable(Looking) && a.owner == map[]
    ensures var th := a.threads[0];
      Path(timeout, s, b) && Lone(b, Inside(if th.removeOnly then Removing else Checking)) && SameMaps(a, b)
      && b.threads[0].host == th.host && b.threads[0].renew == th.renew && b.threads[0].removeOnly == th.removeOnly
    ensures b.owner == map[b.threads[0].lock := 0]
  {
    hide Path, Only, SameLocks;
    if a.threads[0].host in a.table {
      Acts(timeout, s, a, 0, c);
      b := Takes(timeout, s, LookUp(a, 0), c);
    } else {
      var s1 := Inserts(timeout, s, a, c);
      b := Takes(timeout, s, s1, c);
    }
  }

  lemma Inserts(timeout: real, s: State, a: State, c: Choice) returns (b: State)
    requires Path(timeout, s, a) && |a.threads| == 1 && a.threads[0].stage == AtTable(Looking)
    requires a.threads[0].host !in a.table
    ensures Path(timeout, s, b) && |b.threads| == 1 && b.owner == a.owner && SameMaps(a, b)
    ensures var th, th' := a.threads[0], b.threads[0];
      && th'.stage == AtTable(Found)
      && th'.host == th.host && th'.renew == th.renew && th'.removeOnly == th.removeOnly
  {
    hide Path, Only, SameLocks;
    Acts(timeout, s, a, 0, c);
    var s1 := LookUp(a, 0);
    Acts(timeout, s, s1, 0, c);
    b := Insert(s1, 0);
  }

  lemma Takes(timeout: real, s: State, a: State, c: Choice) returns (b: State)
    requires Path(timeout, s, a) && |a.threads| == 1 && a.threads[0].stage == AtTable(Found) && a.owner == map[]
    ensures var th := a.threads[0];
      Path(timeout, s, b) && Lone(b, Inside(if th.removeOnly then Removing else Checking)) && SameMaps(a, b)
      && b.threads[0].host == th.host && b.threads[0].renew == th.renew && b.threads[0].removeOnly == th.removeOnly
    ensures b.owner == map[b.threads[0].lock := 0]
  {
    hide Path, Only, SameLocks;
    Acts(timeout, s, a, 0, c);
    var s1 := ReleaseTable(a, 0);
    Acts(timeout, s, s1, 0, c);
    b := TakeHost(s1, 0);
  }

  /** A thread that finds no session asks for one and hands it out, without any time passing. */
  lemma Creates(timeout: real, s: State, a: State, c: Choice) returns (b: State)
    requires Path(timeout, s, a) && Lone(a, Inside(Checking)) && a.threads[0].renew && !a.threads[0].removeOnly
    requires a.cache == map[] && a.lastUsed == map[] && a.server == map[] && c.answer == Good
    requires a.owner == map[a.threads[0].lock := 0]
    ensures Path(timeout, s, b) && Lone(b, Using) && b.now == a.now && b.owner == map[]
    ensures b.threads[0].session == c.session && b.threads[0].host == a.threads[0].host
    ensures b.cache == map[a.threads[0].host := c.session] && b.lastUsed == map[a.threads[0].host := a.now]
    ensures b.server == map[c.session.uid := Served(a.threads[0].host, a.now, a.now, false, false, false, false)]
  {
    hide Path, Only, SameLocks;
    Acts(timeout, s, a, 0, c);
    var s1 := Check(a, 0);
    Acts(timeout, s, s1, 0, c);
    var s2 := Remove(s1, 0, c);
    Acts(timeout, s, s2, 0, c);
    var s3 := Drop(s2, 0);
    Acts(timeout, s, s3, 0, c);
    var s4 := Forget(s3, 0);
    assert s4.cache == map[] && s4.lastUsed == map[] && s4.server == map[];
    b := Stores(timeout, s, s4, c);
  }

  lemma Stores(timeout: real, s: State, a: State, c: Choice) returns (b: State)
    requires Path(timeout, s, a) && Lone(a, Inside(Creating))
    requires a.cache == map[] && a.lastUsed == map[] && a.server == map[] && c.answer == Good
    requires a.owner == map[a.threads[0].lock := 0]
    ensures Path(timeout, s, b) && Lone(b, Using) && b.now == a.now && b.owner == map[]
    ensures b.threads[0].session == c.session && b.threads[0].host == a.threads[0].host
    ensures b.cache == map[a.threads[0].host := c.session] && b.lastUsed == map[a.threads[0].host := a.now]
    ensures b.server == map[c.session.uid := Served(a.threads[0].host, a.now, a.now, false, false, false, false)]
  {
    hide Path, Only, SameLocks;
    Acts(timeout, s, a, 0, c);
    var s1 := Create(a, 0, c);
    Acts(timeout, s, s1, 0, c);
    var s2 := Store(s1, 0);
    Acts(timeout, s, s2, 0, c);
    var s3 := Stamp(s2, 0);
    Acts(timeout, s, s3, 0, c);
    b := ReleaseHost(s3, 0, Using);
    assert b.owner == map[];
  }

  /** A thread that finds a session rested for less than the margin is about to hand it out again. */
  lemma Hits(timeout: real, s: State, a: State, c: Choice) returns (b: State)
    requires Path(timeout, s, a) && Lone(a, Inside(Checking))
    requires var h := a.threads[0].host;
      h in a.cache && a.cache[h].validUntil > a.now && h in a.lastUsed && a.now - a.lastUsed[h] < Margin(timeout)
    ensures Path(timeout, s, b) && Lone(b, Inside(Leaving)) && b.now == a.now && b.server == a.server
    ensures b.threads[0].session == a.cache[a.threads[0].host] && b.threads[0].deadline == a.now + 1.0
  {
    hide Path, Only, SameLocks, Margin;
    Acts(timeout, s, a, 0, c);
    var s1 := Check(a, 0);
    Acts(timeout, s, s1, 0, c);
    var s2 := Time(timeout, s1, 0);
    Acts(timeout, s, s2, 0, c);
    b := Touch(s2, 0);
  }

  // ---------- a first call ----------

  const BEGIN := State(
    0.0, [Thread(Idle, "", true, false, 0, Session(0, 0.0), 0.0, 0.0)], None, map[], 0, map[], map[], map[], map[])

  const CALL := Choice("h", true, false, Good, Session(7, 9.0))

  lemma BeginPath(timeout: real)
    ensures Path(timeout, BEGIN, BEGIN) && Initial(BEGIN)
  {
    assert Leads(timeout, [BEGIN], BEGIN, BEGIN);
  }

  /** The session is created and used at once. */
  lemma FirstCall(timeout: real) returns (b: State)
    ensures Path(timeout, BEGIN, b) && Lone(b, Idle) && b.now == 0.0 && b.owner == map[]
    ensures b.cache == map["h" := CALL.session] && b.lastUsed == map["h" := 0.0]
    ensures b.server == map[7 := Served("h", 0.0, 0.0, false, false, false, false)]
  {
    hide Path, Only, SameLocks;
    BeginPath(timeout);
    var s1 := Acquires(timeout, BEGIN, BEGIN, CALL);
    var s2 := Creates(timeout, BEGIN, s1, CALL);
    Acts(timeout, BEGIN, s2, 0, CALL);
    b := Use(s2, 0);
  }
}
