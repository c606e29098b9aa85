/** The listener that keeps the members of local groups in the registry, where the web proxy finds them. */
module PupilGroups {
  import opened Options
  import opened Text
  import opened Registry
  import opened Lists
  import opened Policy
  import opened Publish

  /** The attributes of a group: its name and its members' user names. */
  datatype Entry = Entry(cn: string, members: seq<string>)

  type Directory = map<string, Entry>

  function LowerChar(c: char): char {
    if 'A' <= c <= 'Z' then (c as int + 32) as char else c
  }

  function Lower(s: string): string {
    seq(|s|, i requires 0 <= i < |s| => LowerChar(s[i]))
  }

  predicate Below(dn: string, school: string) {
    EndsWith(Lower(dn), ",cn=groups," + Lower(school))
  }

  /** Without a list of schools every group is taken to be local. */
  predicate Local(schools: Option<seq<string>>, dn: string) {
    schools.Some? ==> exists i :: 0 <= i < |schools.value| && Below(dn, schools.value[i])
  }

  // ---------- which groups are local, letter by letter ----------

  /** The same letter, or one in capitals and the other not. */
  predicate SameLetter(a: char, b: char) {
    a == b || ('A' <= a <= 'Z' && b as int == a as int + 32) || ('A' <= b <= 'Z' && a as int == b as int + 32)
  }

  predicate SameText(a: string, b: string) {
    |a| == |b| && forall i :: 0 <= i < |a| ==> SameLetter(a[i], b[i])
  }

  /** The name ends in the school's container for groups, whatever the case of the letters. */
  predicate Inside(dn: string, school: string) {
    var tail := ",cn=groups," + school;
    |tail| <= |dn| && SameText(dn[|dn| - |tail|..], tail)
  }

  lemma LowerExactly(a: string, b: string)
    ensures Lower(a) == Lower(b) <==> SameText(a, b)
  {
    if |a| == |b| {
      forall i | 0 <= i < |a|
        ensures Lower(a)[i] == Lower(b)[i] <==> SameLetter(a[i], b[i])
      {
        LetterExactly(a[i], b[i]);
      }
      hide SameLetter, LowerChar;
      if SameText(a, b) {
        assert Lower(a) == Lower(b);
      }
    }
  }

  lemma LetterExactly(a: char, b: char)
    ensures LowerChar(a) == LowerChar(b) <==> SameLetter(a, b)
  {
  }

  lemma LowerAppend(a: string, b: string)
    ensures Lower(a + b) == Lower(a) + Lower(b)
  {
  }

  lemma LowerDrop(a: string, n: nat)
    requires n <= |a|
    ensures Lower(a[n..]) == Lower(a)[n..]
  {
  }

  lemma BelowExactly(dn: string, school: string)
    ensures Below(dn, school) <==> Inside(dn, school)
  {
    var tail := ",cn=groups," + school;
    LowerAppend(",cn=groups,", school);
    assert Lower(",cn=groups,") == ",cn=groups,";
    assert |Lower(tail)| == |tail| && |Lower(dn)| == |dn|;
    if |tail| <= |dn| {
      LowerDrop(dn, |dn| - |tail|);
      LowerExactly(dn[|dn| - |tail|..], tail);
    }
    hide Lower, SameText;
  }

  lemma LocalExactly(schools: Option<seq<string>>, dn: string)
    ensures Local(schools, dn)
      <==> schools.None? || exists i :: 0 <= i < |schools.value| && Inside(dn, schools.value[i])
  {
    if schools.Some? {
      forall i | 0 <= i < |schools.value|
        ensures Below(dn, schools.value[i]) <==> Inside(dn, schools.value[i])
      {
        BelowExactly(dn, schools.value[i]);
      }
    }
    hide Below, Inside;
  }

  /** The case of the letters makes no difference. */
  lemma CaseIrrelevant(schools: Option<seq<string>>, a: string, b: string)
    requires SameText(a, b)
    ensures Local(schools, a) <==> Local(schools, b)
  {
    LowerExactly(a, b);
    hide Lower;
  }

  /** The members with commas between them. */
  function Commas(members: seq<string>): string
    requires members != []
  {
    if |members| == 1 then members[0] else Commas(members[..|members| - 1]) + "," + members[|members| - 1]
  }

  lemma {:induction false} JoinLast(parts: seq<string>, last: string)
    requires parts != []
    ensures Join(parts + [last], ',') == Join(parts, ',') + "," + last
  {
    var all := parts + [last];
    if |parts| == 1 {
      assert all[1..] == [last];
    } else {
      JoinLast(parts[1..], last);
      assert all[1..] == parts[1..] + [last];
      assert parts[0] + [','] + (Join(parts[1..], ',') + "," + last)
        == parts[0] + [','] + Join(parts[1..], ',') + "," + last;
    }
  }

  lemma {:induction false} CommasExactly(members: seq<string>)
    requires members != []
    ensures Join(members, ',') == Commas(members)
  {
    if |members| > 1 {
      var init, last := members[..|members| - 1], members[|members| - 1];
      CommasExactly(init);
      JoinLast(init, last);
      assert members == init + [last];
    }
  }

  predicate Special(dn: string, base: string) {
    EndsWith(dn, "-Edukativnetz,cn=ucsschool,cn=groups," + base)
  }

  lemma SpecialExactly(dn: string, base: string)
    ensures var mark := "-Edukativnetz,cn=ucsschool,cn=groups," + base;
      Special(dn, base) <==> |mark| <= |dn| && dn[|dn| - |mark|..] == mark
  {
  }

  // ---------- one event ----------

  /** The registry after an event: a local group with members is written under its new name; one without
      members, or one that is gone, is removed under its old name. */
  function Cached(reg: Reg, local: bool, now: Option<Entry>, was: Option<Entry>): Reg {
    if !local then reg
    else if now.Some? && now.value.members != [] then
      reg[UsergroupKey(now.value.cn) := Join(now.value.members, ',')]
    else if was.Some? then reg - {UsergroupKey(was.value.cn)}
    else reg
  }

  /** The same with the keys written out. */
  function Kept(reg: Reg, local: bool, now: Option<Entry>, was: Option<Entry>): Reg {
    if local && now.Some? && now.value.members != [] then
      reg["proxy/filter/usergroup/" + now.value.cn := Commas(now.value.members)]
    else if local && was.Some? then reg - {"proxy/filter/usergroup/" + was.value.cn}
    else reg
  }

  lemma CachedExactly(reg: Reg, local: bool, now: Option<Entry>, was: Option<Entry>)
    ensures Cached(reg, local, now, was) == Kept(reg, local, now, was)
  {
    KeysPlain(now, was);
    hide UsergroupKey, Join, Commas;
  }

  class Listener {
    const base: string
    var schools: Option<seq<string>>
    var registry: Reg

    constructor (base: string, schools: Option<seq<string>>, registry: Reg)
      ensures this.base == base && this.schools == schools && this.registry == registry
    {
      this.base, this.schools, this.registry := base, schools, registry;
    }

    method IsLocal(dn: string) returns (local: bool)
      ensures local == Local(schools, dn)
      ensures local <==> schools.None? || exists i :: 0 <= i < |schools.value| && Inside(dn, schools.value[i])
    {
      LocalExactly(schools, dn);
      hide Below, Inside;
      if schools.None? {
        return true;
      }
      local := false;
      for i := 0 to |schools.value|
        invariant local <==> exists j :: 0 <= j < i && Below(dn, schools.value[j])
      {
        if Below(dn, schools.value[i]) {
          local := true;
        }
      }
    }

    /** Sets the keys that have a value and removes the others. */
    method UpdateRegistry(changes: map<string, Option<string>>)
      modifies `registry
      ensures forall key :: key in registry <==>
        if key in changes then changes[key].Some? else key in old(registry)
      ensures forall key :: key in registry ==>
        registry[key] == if key in changes then changes[key].value else old(registry)[key]
    {
      var todo := changes.Keys;
      while todo != {}
        invariant todo <= changes.Keys
        invariant forall key :: key in registry <==>
          if key in changes.Keys - todo then changes[key].Some? else key in old(registry)
        invariant forall key :: key in registry ==>
          registry[key] == if key in changes.Keys - todo then changes[key].value else old(registry)[key]
      {
        var key :| key in todo;
        registry := if changes[key].Some? then registry[key := changes[key].value] else registry - {key};
        todo := todo - {key};
      }
    }

    /** lookup is what asking the directory for the local schools gives; it is asked for only after changes of
        the groups that join a server to a school. */
    method Handler(dn: string, now: Option<Entry>, was: Option<Entry>, lookup: Option<seq<string>>)
      modifies `schools, `registry
      ensures var mark := "-Edukativnetz,cn=ucsschool,cn=groups," + base;
        schools == if |mark| <= |dn| && dn[|dn| - |mark|..] == mark then lookup else old(schools)
      ensures
        var local := schools.None? || exists i :: 0 <= i < |schools.value| && Inside(dn, schools.value[i]);
        registry == Kept(old(registry), local, now, was)
      ensures registry == Cached(old(registry), Local(schools, dn), now, was)
      ensures schools == if Special(dn, base) then lookup else old(schools)
    {
      SpecialExactly(dn, base);
      CachedExactly(registry, true, now, was);
      CachedExactly(registry, false, now, was);
      hide Kept, UsergroupKey, Special, Local, Join, Commas;
      if Special(dn, base) {
        schools := lookup;
      }
      var local := IsLocal(dn);
      LocalExactly(schools, dn);
      if !local {
        return;
      }
      var changes: map<string, Option<string>> := map[];
      if now.Some? && now.value.members != [] {
        changes := changes[UsergroupKey(now.value.cn) := Some(Join(now.value.members, ','))];
      } else if was.Some? {
        changes := changes[UsergroupKey(was.value.cn) := None];
      }
      UpdateRegistry(changes);
    }
  }

  lemma KeysPlain(now: Option<Entry>, was: Option<Entry>)
    ensures now.Some? ==> UsergroupKey(now.value.cn) == "proxy/filter/usergroup/" + now.value.cn
    ensures was.Some? ==> UsergroupKey(was.value.cn) == "proxy/filter/usergroup/" + was.value.cn
    ensures now.Some? && now.value.members != [] ==> Join(now.value.members, ',') == Commas(now.value.members)
  {
    if now.Some? && now.value.members != [] {
      CommasExactly(now.value.members);
    }
    assert Prefix("usergroup") == "proxy/filter/usergroup/";
    hide Prefix, Join, Commas;
  }

  // ---------- agreement with the directory ----------

  /** This group is local, has this name, and has members. */
  ghost predicate Populated(dir: Directory, schools: Option<seq<string>>, dn: string, name: string) {
    dn in dir && Local(schools, dn) && dir[dn].cn == name && dir[dn].members != []
  }

  ghost predicate HasPopulated(dir: Directory, schools: Option<seq<string>>, name: string) {
    exists dn :: Populated(dir, schools, dn, name)
  }

  /** The registry has a group's key exactly when the group is local and has members; the value lists them. */
  ghost predicate Agrees(dir: Directory, schools: Option<seq<string>>, reg: Reg) {
    && (forall name :: UsergroupKey(name) in reg <==> HasPopulated(dir, schools, name))
    && (forall dn, name :: Populated(dir, schools, dn, name) && UsergroupKey(name) in reg
          ==> reg[UsergroupKey(name)] == Join(dir[dn].members, ','))
  }

  /** No two local groups have the same name. */
  ghost predicate DistinctNames(dir: Directory, schools: Option<seq<string>>) {
    forall a, b :: a in dir && b in dir && Local(schools, a) && Local(schools, b) && dir[a].cn == dir[b].cn ==> a == b
  }

  function Found(dir: Directory, dn: string): Option<Entry> {
    if dn in dir then Some(dir[dn]) else None
  }

  function Changed(dir: Directory, dn: string, now: Option<Entry>): Directory {
    if now.Some? then dir[dn := now.value] else dir - {dn}
  }

  /** A group that has members before and after the event, under different names though its dn is the same. */
  predicate RenamesPopulated(now: Option<Entry>, was: Option<Entry>) {
    && now.Some? && was.Some? && now.value.cn != was.value.cn
    && now.value.members != [] && was.value.members != []
  }

  lemma KeysInjective(a: string, b: string)
    requires UsergroupKey(a) == UsergroupKey(b)
    ensures a == b
  {
    Cancel(Prefix("usergroup"), a, b);
  }

  lemma OtherGroup(dir: Directory, schools: Option<seq<string>>, dn: string, now: Option<Entry>, d: string,
                   name: string)
    requires d != dn
    ensures Populated(Changed(dir, dn, now), schools, d, name) <==> Populated(dir, schools, d, name)
    ensures d in Changed(dir, dn, now) <==> d in dir
    ensures d in dir ==> Changed(dir, dn, now)[d] == dir[d]
  {
    hide Local;
  }

  lemma KeyAfter(reg: Reg, now: Option<Entry>, was: Option<Entry>, name: string)
    ensures var reg' := Cached(reg, true, now, was);
      && (UsergroupKey(name) in reg' <==>
            if now.Some? && now.value.members != [] then name == now.value.cn || UsergroupKey(name) in reg
            else UsergroupKey(name) in reg && (was.Some? ==> name != was.value.cn))
      && (UsergroupKey(name) in reg' ==>
            reg'[UsergroupKey(name)] ==
              if now.Some? && now.value.members != [] && name == now.value.cn then Join(now.value.members, ',')
              else reg[UsergroupKey(name)])
  {
    hide UsergroupKey, Join;
    if now.Some? && UsergroupKey(name) == UsergroupKey(now.value.cn) {
      KeysInjective(name, now.value.cn);
    }
    if was.Some? && UsergroupKey(name) == UsergroupKey(was.value.cn) {
      KeysInjective(name, was.value.cn);
    }
  }

  /** Which names have a populated group after the event. */
  lemma PopulatedAfter(dir: Directory, schools: Option<seq<string>>, dn: string, now: Option<Entry>, name: string)
    requires Local(schools, dn) && DistinctNames(dir, schools) && DistinctNames(Changed(dir, dn, now), schools)
    ensures HasPopulated(Changed(dir, dn, now), schools, name) <==>
      if now.Some? && name == now.value.cn then now.value.members != []
      else if dn in dir && name == dir[dn].cn then false
      else HasPopulated(dir, schools, name)
  {
    var dir' := Changed(dir, dn, now);
    forall d | d != dn
      ensures Populated(dir', schools, d, name) <==> Populated(dir, schools, d, name)
    {
      OtherGroup(dir, schools, dn, now, d, name);
    }
    hide Local;
    assert HasPopulated(dir, schools, name) ==> exists d :: Populated(dir, schools, d, name);
    if now.Some? && name == now.value.cn {
      assert dn in dir';
      assert Populated(dir', schools, dn, name) <==> now.value.members != [];
    } else {
      assert !Populated(dir', schools, dn, name);
      if d :| Populated(dir', schools, d, name) {
        assert Populated(dir, schools, d, name);
      }
      if d :| Populated(dir, schools, d, name) && d != dn {
        assert Populated(dir', schools, d, name);
      }
    }
  }

  /** An event keeps registry and directory in agreement, unless it changes the first name of a local group that has
      members before and after, under one dn: then the key of the old name stays behind. */
  lemma EventAgrees(dir: Directory, schools: Option<seq<string>>, reg: Reg, dn: string, now: Option<Entry>)
    requires Agrees(dir, schools, reg)
    requires DistinctNames(dir, schools) && DistinctNames(Changed(dir, dn, now), schools)
    ensures Agrees(Changed(dir, dn, now), schools, Cached(reg, Local(schools, dn), now, Found(dir, dn)))
            <==> !(Local(schools, dn) && RenamesPopulated(now, Found(dir, dn)))
  {
    hide UsergroupKey, Join, Local, DistinctNames;
    if !Local(schools, dn) {
      ForeignEvent(dir, schools, reg, dn, now);
    } else if RenamesPopulated(now, Found(dir, dn)) {
      StaleKey(dir, schools, reg, dn, now);
    } else {
      LocalEvent(dir, schools, reg, dn, now);
    }
  }

  lemma ForeignEvent(dir: Directory, schools: Option<seq<string>>, reg: Reg, dn: string, now: Option<Entry>)
    requires Agrees(dir, schools, reg) && !Local(schools, dn)
    ensures Agrees(Changed(dir, dn, now), schools, reg)
  {
    hide UsergroupKey, Join, Local;
    var dir' := Changed(dir, dn, now);
    forall d, name
      ensures Populated(dir', schools, d, name) <==> Populated(dir, schools, d, name)
      ensures Populated(dir, schools, d, name) ==> dir'[d] == dir[d]
    {
      if d != dn {
        OtherGroup(dir, schools, dn, now, d, name);
      }
    }
    hide Populated;
    forall name
      ensures HasPopulated(dir', schools, name) <==> HasPopulated(dir, schools, name)
    {
    }
  }

  lemma StaleKey(dir: Directory, schools: Option<seq<string>>, reg: Reg, dn: string, now: Option<Entry>)
    requires Agrees(dir, schools, reg) && Local(schools, dn) && RenamesPopulated(now, Found(dir, dn))
    requires DistinctNames(dir, schools) && DistinctNames(Changed(dir, dn, now), schools)
    ensures UsergroupKey(dir[dn].cn) in Cached(reg, true, now, Found(dir, dn))
    ensures !HasPopulated(Changed(dir, dn, now), schools, dir[dn].cn)
  {
    hide UsergroupKey, Join, Local, DistinctNames, Cached, Changed;
    assert Populated(dir, schools, dn, dir[dn].cn);
    KeyAfter(reg, now, Found(dir, dn), dir[dn].cn);
    PopulatedAfter(dir, schools, dn, now, dir[dn].cn);
  }

  lemma LocalEvent(dir: Directory, schools: Option<seq<string>>, reg: Reg, dn: string, now: Option<Entry>)
    requires Agrees(dir, schools, reg) && Local(schools, dn) && !RenamesPopulated(now, Found(dir, dn))
    requires DistinctNames(dir, schools) && DistinctNames(Changed(dir, dn, now), schools)
    ensures Agrees(Changed(dir, dn, now), schools, Cached(reg, true, now, Found(dir, dn)))
  {
    hide UsergroupKey, Join, Local;
    var dir' := Changed(dir, dn, now);
    var reg' := Cached(reg, true, now, Found(dir, dn));
    forall name
      ensures UsergroupKey(name) in reg' <==> HasPopulated(dir', schools, name)
    {
      LocalName(dir, schools, reg, dn, now, name);
    }
    forall d, name | Populated(dir', schools, d, name) && UsergroupKey(name) in reg'
      ensures reg'[UsergroupKey(name)] == Join(dir'[d].members, ',')
    {
      LocalValue(dir, schools, reg, dn, now, d, name);
    }
  }

  lemma LocalName(dir: Directory, schools: Option<seq<string>>, reg: Reg, dn: string, now: Option<Entry>, name: string)
    requires Agrees(dir, schools, reg) && Local(schools, dn) && !RenamesPopulated(now, Found(dir, dn))
    requires DistinctNames(dir, schools) && DistinctNames(Changed(dir, dn, now), schools)
    ensures UsergroupKey(name) in Cached(reg, true, now, Found(dir, dn))
      <==> HasPopulated(Changed(dir, dn, now), schools, name)
  {
    KeyAfter(reg, now, Found(dir, dn), name);
    PopulatedAfter(dir, schools, dn, now, name);
    hide UsergroupKey, Join, Local, Cached, Changed;
    if dn in dir && name == dir[dn].cn {
      if d :| Populated(dir, schools, d, name) {
        assert d == dn;
      }
    }
    if now.Some? && name == now.value.cn && now.value.members == [] {
      if d :| Populated(dir, schools, d, name) && d != dn {
        OtherGroup(dir, schools, dn, now, d, name);
        NewEntry(dir, dn, now);
      }
    }
  }

  lemma NewEntry(dir: Directory, dn: string, now: Option<Entry>)
    ensures Found(Changed(dir, dn, now), dn) == now
  {
  }

  lemma LocalValue(dir: Directory, schools: Option<seq<string>>, reg: Reg, dn: string, now: Option<Entry>, d: string,
                   name: string)
    requires Agrees(dir, schools, reg) && Local(schools, dn)
    requires DistinctNames(Changed(dir, dn, now), schools)
    requires Populated(Changed(dir, dn, now), schools, d, name)
    requires UsergroupKey(name) in Cached(reg, true, now, Found(dir, dn))
    ensures Cached(reg, true, now, Found(dir, dn))[UsergroupKey(name)] == Join(Changed(dir, dn, now)[d].members, ',')
  {
    KeyAfter(reg, now, Found(dir, dn), name);
    NewEntry(dir, dn, now);
    hide UsergroupKey, Join, Local, Cached, Changed;
    if d != dn {
      OtherGroup(dir, schools, dn, now, d, name);
    }
  }

  // ---------- renames ----------

  lemma DistinctWithout(dir: Directory, schools: Option<seq<string>>, dn: string)
    requires DistinctNames(dir, schools)
    ensures DistinctNames(Changed(dir, dn, None), schools)
  {
    hide Local;
  }

  /** A group that is renamed gets another dn, since its name is part of it. The listener does not ask for renames, so
      it is told of the old dn's deletion and the new one's addition: that keeps the agreement, with or without
      members. */
  lemma RenameAgrees(dir: Directory, schools: Option<seq<string>>, reg: Reg, dn: string, dn': string, e: Entry)
    requires Agrees(dir, schools, reg) && dn in dir && dn' !in dir
    requires DistinctNames(dir, schools) && DistinctNames(Changed(Changed(dir, dn, None), dn', Some(e)), schools)
    ensures var gone := Cached(reg, Local(schools, dn), None, Some(dir[dn]));
      Agrees(Changed(Changed(dir, dn, None), dn', Some(e)), schools, Cached(gone, Local(schools, dn'), Some(e), None))
  {
    hide Agrees, DistinctNames, Cached, Local;
    DistinctWithout(dir, schools, dn);
    EventAgrees(dir, schools, reg, dn, None);
    EventAgrees(Changed(dir, dn, None), schools, Cached(reg, Local(schools, dn), None, Some(dir[dn])), dn', Some(e));
  }

  /** An entry whose first name changes from a to b while its dn and its member stay: the registry keeps a's key. */
  lemma NameChangeExample(schools: Option<seq<string>>, dn: string)
    requires Local(schools, dn)
    ensures var dir, reg, now :=
      map[dn := Entry("a", ["ann"])], map[UsergroupKey("a") := "ann"], Some(Entry("b", ["ann"]));
      && Agrees(dir, schools, reg)
      && UsergroupKey("a") in Cached(reg, Local(schools, dn), now, Found(dir, dn))
      && !Agrees(Changed(dir, dn, now), schools, Cached(reg, Local(schools, dn), now, Found(dir, dn)))
  {
    var dir, reg, now := map[dn := Entry("a", ["ann"])], map[UsergroupKey("a") := "ann"], Some(Entry("b", ["ann"]));
    SmallAgrees(schools, dn);
    hide Local, UsergroupKey, Agrees, Cached, HasPopulated;
    EventAgrees(dir, schools, reg, dn, now);
    StaleKey(dir, schools, reg, dn, now);
  }

  lemma SmallAgrees(schools: Option<seq<string>>, dn: string)
    requires Local(schools, dn)
    ensures Agrees(map[dn := Entry("a", ["ann"])], schools, map[UsergroupKey("a") := "ann"])
  {
    var dir := map[dn := Entry("a", ["ann"])];
    assert Join(["ann"], ',') == "ann";
    hide Local, UsergroupKey, Join;
    assert Populated(dir, schools, dn, "a");
    forall name
      ensures UsergroupKey(name) == UsergroupKey("a") <==> HasPopulated(dir, schools, name)
    {
      if UsergroupKey(name) == UsergroupKey("a") {
        KeysInjective(name, "a");
      }
    }
  }

  // ---------- runs of events ----------

  datatype Event = Event(dn: string, now: Option<Entry>)

  ghost function DirectoryAfter(events: seq<Event>): Directory {
    if events == [] then map[]
    else
      var e := events[|events| - 1];
      Changed(DirectoryAfter(events[..|events| - 1]), e.dn, e.now)
  }

  /** The registry after the listener has seen the events, starting from one without group keys. */
  ghost function RegistryAfter(events: seq<Event>, schools: Option<seq<string>>, reg: Reg): Reg {
    if events == [] then reg
    else
      var init, e := events[..|events| - 1], events[|events| - 1];
      Cached(RegistryAfter(init, schools, reg), Local(schools, e.dn), e.now, Found(DirectoryAfter(init), e.dn))
  }

  /** Names stay distinct, and no event changes the name of a local group with members under one dn. */
  ghost predicate Orderly(events: seq<Event>, schools: Option<seq<string>>) {
    && (forall i :: 0 <= i <= |events| ==> DistinctNames(DirectoryAfter(events[..i]), schools))
    && (forall i :: 0 <= i < |events| ==>
          !(Local(schools, events[i].dn)
            && RenamesPopulated(events[i].now, Found(DirectoryAfter(events[..i]), events[i].dn))))
  }

  lemma OrderlyInit(events: seq<Event>, schools: Option<seq<string>>)
    requires Orderly(events, schools) && events != []
    ensures Orderly(events[..|events| - 1], schools)
    ensures DistinctNames(DirectoryAfter(events), schools)
    ensures var init, e := events[..|events| - 1], events[|events| - 1];
      && DistinctNames(DirectoryAfter(init), schools)
      && !(Local(schools, e.dn) && RenamesPopulated(e.now, Found(DirectoryAfter(init), e.dn)))
  {
    hide DistinctNames, Local, DirectoryAfter, RenamesPopulated, Found;
    var init := events[..|events| - 1];
    assert events[..|events|] == events;
    forall i | 0 <= i <= |init|
      ensures init[..i] == events[..i]
    {
    }
  }

  /** After every run of additions, changes and deletions the registry agrees with the directory. */
  lemma {:induction false} AlwaysAgrees(events: seq<Event>, schools: Option<seq<string>>, reg: Reg)
    requires Orderly(events, schools)
    requires forall name :: UsergroupKey(name) !in reg
    ensures Agrees(DirectoryAfter(events), schools, RegistryAfter(events, schools, reg))
  {
    hide Agrees, Orderly, DistinctNames, Local, Cached, Changed, RenamesPopulated, UsergroupKey;
    if events == [] {
      NothingYet(schools, reg);
    } else {
      var init, e := events[..|events| - 1], events[|events| - 1];
      OrderlyInit(events, schools);
      AlwaysAgrees(init, schools, reg);
      EventAgrees(DirectoryAfter(init), schools, RegistryAfter(init, schools, reg), e.dn, e.now);
    }
  }

  /** The listener, called for each event of a run, leaves this registry. */
  method Replay(l: Listener, events: seq<Event>)
    requires forall i :: 0 <= i < |events| ==> !Special(events[i].dn, l.base)
    modifies l
    ensures l.schools == old(l.schools) && l.registry == RegistryAfter(events, old(l.schools), old(l.registry))
  {
    hide Special, Inside, Commas, Cached, Local, Changed;
    ghost var reg := l.registry;
    var dir: Directory := map[];
    for i := 0 to |events|
      invariant l.schools == old(l.schools) && dir == DirectoryAfter(events[..i])
      invariant l.registry == RegistryAfter(events[..i], old(l.schools), reg)
    {
      var e := events[i];
      l.Handler(e.dn, e.now, Found(dir, e.dn), None);
      dir := Changed(dir, e.dn, e.now);
      assert events[..i + 1][..|events[..i + 1]| - 1] == events[..i];
    }
    assert events[..|events|] == events;
  }

  /** The agreement in plain terms: after every such run a group has a key exactly when some local group of that name
      has members, and the value lists just these. */
  lemma AlwaysAgreesPlainly(events: seq<Event>, schools: Option<seq<string>>, reg: Reg, name: string)
    requires Orderly(events, schools)
    requires forall n :: "proxy/filter/usergroup/" + n !in reg
    ensures var dir, after, key :=
      DirectoryAfter(events), RegistryAfter(events, schools, reg), "proxy/filter/usergroup/" + name;
      && (key in after <==> exists dn :: PopulatedPlainly(dir, schools, dn, name))
      && forall dn :: PopulatedPlainly(dir, schools, dn, name) ==> key in after && after[key] == Commas(dir[dn].members)
  {
    var dir, after := DirectoryAfter(events), RegistryAfter(events, schools, reg);
    forall n
      ensures UsergroupKey(n) == "proxy/filter/usergroup/" + n
    {
      KeysPlain(Some(Entry(n, [])), None);
    }
    AlwaysAgrees(events, schools, reg);
    forall dn
      ensures Populated(dir, schools, dn, name) <==> PopulatedPlainly(dir, schools, dn, name)
    {
      LocalExactly(schools, dn);
    }
    forall dn | PopulatedPlainly(dir, schools, dn, name)
      ensures Join(dir[dn].members, ',') == Commas(dir[dn].members)
    {
      CommasExactly(dir[dn].members);
    }
    hide DirectoryAfter, RegistryAfter, Orderly, UsergroupKey, Join, Commas, Populated, PopulatedPlainly;
  }

  /** The entry is of a local group of this name, with members. */
  predicate PopulatedPlainly(dir: Directory, schools: Option<seq<string>>, dn: string, name: string) {
    && dn in dir && dir[dn].cn == name && dir[dn].members != []
    && (schools.None? || exists i :: 0 <= i < |schools.value| && Inside(dn, schools.value[i]))
  }

  lemma NothingYet(schools: Option<seq<string>>, reg: Reg)
    requires forall name :: UsergroupKey(name) !in reg
    ensures Agrees(map[], schools, reg)
  {
    hide Local, UsergroupKey;
  }

  // ---------- what the web proxy makes of it ----------

  /** Member names hold no comma and group names no slash. */
  ghost predicate PlainNames(dir: Directory) {
    forall dn :: dn in dir ==> '/' !in dir[dn].cn && forall m :: m in dir[dn].members ==> ',' !in m
  }

  /** The file the web proxy writes for a populated group has two lines for each member, in the directory's
      order: the plain name and the name qualified with the domain. */
  lemma MembersWritten(dir: Directory, schools: Option<seq<string>>, reg: Reg, domain: string, files: Files,
                       dn: string, name: string)
    requires Agrees(dir, schools, reg) && PlainNames(dir) && PlainGroups(reg) && Populated(dir, schools, dn, name)
    requires HasGroupFile(reg, domain, files, name)
    ensures GroupFile(name) in files && files[GroupFile(name)] == FlatMap(dir[dn].members, MemberLine(domain))
  {
    hide Local, UsergroupKey, GroupFile, IsGroupKey, FlatMap, PlainGroups, Join, Split;
    var members := dir[dn].members;
    FromKey(reg, domain, files, name);
    assert HasPopulated(dir, schools, name);
    SplitJoin(members, ',');
  }

  lemma FromKey(reg: Reg, domain: string, files: Files, name: string)
    requires PlainGroups(reg) && HasGroupFile(reg, domain, files, name)
    ensures UsergroupKey(name) in reg && GroupFile(name) in files
    ensures files[GroupFile(name)] == MemberLines(domain, reg[UsergroupKey(name)])
  {
    hide StartsWith, LastSegment, Prefix, PlainGroups, GroupFile, MemberLines, UsergroupKey;
    var key :| IsGroupKey(reg, key, name) && files[GroupFile(name)] == MemberLines(domain, reg[key]);
    GroupKeyPlain(reg, key, name);
  }

  /** Whom the proxy's rules take for a member of a group is decided by the directory. */
  lemma MembershipFromDirectory(dir: Directory, schools: Option<seq<string>>, reg: Reg, domain: string, name: string,
                                user: string)
    requires Agrees(dir, schools, reg) && PlainNames(dir)
    ensures Member(reg, domain, name, user) <==>
      exists dn, m :: Populated(dir, schools, dn, name) && InEntry(dir, dn, m)
        && (user == m || user == domain + "\\" + m)
  {
    hide Agrees, Local, UsergroupKey, Populated;
    if Member(reg, domain, name, user) {
      GroupOfKey(dir, schools, reg, name);
      var dn :| Populated(dir, schools, dn, name);
      ValueMembers(dir, schools, reg, dn, name);
      var m :| m in Split(reg[UsergroupKey(name)], ',') && (user == m || user == domain + "\\" + m);
      assert Populated(dir, schools, dn, name) && InEntry(dir, dn, m);
    }
    if dn, m :| Populated(dir, schools, dn, name) && InEntry(dir, dn, m) && (user == m || user == domain + "\\" + m) {
      ValueMembers(dir, schools, reg, dn, name);
      assert m in Split(reg[UsergroupKey(name)], ',');
    }
  }

  ghost predicate InEntry(dir: Directory, dn: string, m: string) {
    dn in dir && m in dir[dn].members
  }

  lemma GroupOfKey(dir: Directory, schools: Option<seq<string>>, reg: Reg, name: string)
    requires Agrees(dir, schools, reg) && UsergroupKey(name) in reg
    ensures exists dn :: Populated(dir, schools, dn, name)
  {
    hide Local, UsergroupKey, Populated;
  }

  lemma ValueMembers(dir: Directory, schools: Option<seq<string>>, reg: Reg, dn: string, name: string)
    requires Agrees(dir, schools, reg) && PlainNames(dir) && Populated(dir, schools, dn, name)
    ensures dn in dir && UsergroupKey(name) in reg && Split(reg[UsergroupKey(name)], ',') == dir[dn].members
  {
    hide Local, UsergroupKey, Join, Split;
    assert HasPopulated(dir, schools, name);
    SplitJoin(dir[dn].members, ',');
  }
}
