/** The configuration decides every request as a direct reading of the registry does. */
module Policy {
  import opened Options
  import opened Text
  import opened Quote
  import opened Registry
  import opened Rooms
  import opened Lists
  import opened SquidGuard
  import opened Printing
  import opened Rendering
  import opened Compiler
  import opened Access

  // ---------- the direct reading ----------

  ghost predicate RoomCovers(reg: Reg, room: string, client: Client) {
    KnownRoom(reg, room) && Covered(RoomAddresses(reg, room), client)
  }

  ghost predicate IsHostKey(reg: Reg, key: string) {
    key in reg && StartsWith(key, HostgroupPrefix())
  }

  /** A host group covers the addresses in its value, however many blanks separate them. */
  ghost predicate HostCovers(reg: Reg, key: string, client: Client) {
    IsHostKey(reg, key) && Covered(Words(Get(reg, key, "")), client)
  }

  /** A user is a member under the plain name or the name qualified with the domain. */
  ghost predicate Member(reg: Reg, domain: string, group: string, user: string) {
    UsergroupKey(group) in reg
    && exists m :: m in Split(reg[UsergroupKey(group)], ',') && (user == m || user == domain + "\\" + m)
  }

  ghost predicate Candidate(reg: Reg, domain: string, g: Group, user: string) {
    IsGroup(reg, g) && Member(reg, domain, g.name, user)
  }

  /** The candidate with the greatest (priority, name). */
  ghost predicate Best(reg: Reg, domain: string, g: Group, user: string) {
    Candidate(reg, domain, g, user) && forall h :: Candidate(reg, domain, h, user) ==> !Less(g, h)
  }

  /** The request falls under an entry of the owner's black or white lists. */
  ghost predicate Listed(reg: Reg, o: Owner, item: string, request: Request) {
    || (exists line :: IsEntry(reg, SlotPrefix(Slot(o, "domain", item)), "domain", line) && request.inDomain(line))
    || (exists line :: IsEntry(reg, SlotPrefix(Slot(o, "url", item)), "url", line) && request.inUrl(line))
  }

  ghost predicate OwnerPasses(reg: Reg, o: Owner, filterType: string, forced: bool, global: bool, request: Request) {
    Passes(filterType, forced, Listed(reg, o, "whitelisted", request), Listed(reg, o, "blacklisted", request), global)
  }

  ghost predicate DefaultPasses(reg: Reg, forced: bool, global: bool, request: Request) {
    OwnerPasses(reg, General, WBP, forced, global, request)
  }

  /** A rule of an unknown type counts as no rule. */
  ghost predicate RulePasses(reg: Reg, kind: string, rule: string, forced: bool, global: bool, request: Request) {
    if KnownType(FilterType(reg, kind, rule)) then
      OwnerPasses(reg, RuleOwner(kind, rule), FilterType(reg, kind, rule), forced, global, request)
    else DefaultPasses(reg, forced, global, request)
  }

  /** A room's rule is a user's own rule of that name, else a shared one; without either the default decides,
      whatever groups the user is in. */
  ghost predicate RoomPasses(reg: Reg, room: string, forced: bool, global: bool, request: Request) {
    if RoomRuleKey(room) !in reg then DefaultPasses(reg, forced, global, request)
    else
      var rule := reg[RoomRuleKey(room)];
      if HasUserRule(reg, rule) then RulePasses(reg, "setting-user", rule, forced, global, request)
      else if rule in SettingNames(reg) then RulePasses(reg, "setting", rule, forced, global, request)
      else DefaultPasses(reg, forced, global, request)
  }

  // ---------- assumptions on names and files ----------

  /** No blocked host group is printed under the name of a room, of a group, or of the default block. */
  ghost predicate ClearNames(reg: Reg) {
    forall key :: IsHostKey(reg, key) ==>
      && HostNameOf(key) != "default"
      && (forall room :: KnownRoom(reg, room) ==> HostNameOf(key) != RoomName(room))
      && (forall g :: IsGroup(reg, g) ==> HostNameOf(key) != GroupFile(g.name))
  }

  /** The owners whose lists a printed pass list can name. */
  ghost predicate PlanOwner(p: Plan, o: Owner) {
    match o
    case General => true
    case RuleOwner(kind, name) =>
      || (kind == "setting" && name in p.settings)
      || (kind == "setting-user" && name in p.tables.roomRule.items && name in p.tables.roomRules)
  }

  ghost predicate HoldsSlot(reg: Reg, files: Files, s: Slot) {
    && FileOf(s) in files
    && forall line :: line in files[FileOf(s)] <==> IsEntry(reg, SlotPrefix(s), s.filter, line)
  }

  ghost predicate HoldsOwner(reg: Reg, files: Files, o: Owner) {
    forall s :: s in OwnerSlots(o) ==> HoldsSlot(reg, files, s)
  }

  ghost predicate HoldsMembers(reg: Reg, domain: string, files: Files, group: string) {
    && GroupFile(group) in files
    && forall user :: user in files[GroupFile(group)] <==> Member(reg, domain, group, user)
  }

  /** The list files named in the configuration hold what the registry says. */
  ghost predicate HoldsLists(reg: Reg, domain: string, p: Plan, files: Files) {
    && (forall o :: PlanOwner(p, o) ==> HoldsOwner(reg, files, o))
    && (forall g :: g in p.groups ==> HoldsMembers(reg, domain, files, g.name))
  }

  // ---------- the sections of the configuration ----------

  lemma NoneFrom<U>(items: seq<Item>, f: Item -> seq<U>)
    requires forall item :: item in items ==> f(item) == []
    ensures FlatMap(items, f) == []
  {
    if FlatMap(items, f) != [] {
      FlatMapIn(items, f, FlatMap(items, f)[0]);
    }
  }

  lemma {:induction false} EveryItem<T>(xs: seq<T>, f: T -> seq<Item>, good: Item -> bool)
    requires forall x, i :: x in xs && 0 <= i < |f(x)| ==> good(f(x)[i])
    ensures forall i :: 0 <= i < |FlatMap(xs, f)| ==> good(FlatMap(xs, f)[i])
  {
    if xs != [] {
      EveryItem(xs[..|xs| - 1], f, good);
    }
  }

  function RoomSources(p: Plan): seq<Source> {
    FlatMap(FlatMap(p.tables.roomIPs.order, RoomSource(p.tables)), SourceOf)
  }

  function HostSources(p: Plan): seq<Source> {
    FlatMap(FlatMap(p.hosts, HostSource(p.reg)), SourceOf)
  }

  function GroupSources(groups: seq<Group>): seq<Source> {
    FlatMap(FlatMap(groups, GroupSource()), SourceOf)
  }

  lemma {:induction false} DestsDeclareNoSource(names: seq<string>)
    ensures FlatMap(FlatMap(names, RuleDests()), SourceOf) == []
  {
    EveryItem(names, RuleDests(), (item: Item) => item.ListDest?);
    NoneFrom(FlatMap(names, RuleDests()), SourceOf);
  }

  lemma SourcesDeclareNoDest<T>(xs: seq<T>, f: T -> seq<Item>)
    requires forall x, i :: x in xs && 0 <= i < |f(x)| ==> f(x)[i].AddressSource? || f(x)[i].UserSource?
    ensures FlatMap(FlatMap(xs, f), DestOf) == []
  {
    EveryItem(xs, f, (item: Item) => item.AddressSource? || item.UserSource?);
    NoneFrom(FlatMap(xs, f), DestOf);
  }

  lemma SourcesOf(p: Plan, home: string, d: bool, u: bool)
    ensures Meaning(ScriptOf(p, home, d, u)).sources == RoomSources(p) + HostSources(p) + GroupSources(p.groups)
  {
    DestsDeclareNoSource(Suffixes(p));
    hide FlatMap, RoomSource, HostSource, GroupSource, RuleDests, Suffixes, Blocks;
    var rooms, hosts := FlatMap(p.tables.roomIPs.order, RoomSource(p.tables)), FlatMap(p.hosts, HostSource(p.reg));
    var groups := FlatMap(p.groups, GroupSource());
    FlatMapAppend(rooms, hosts, SourceOf);
    FlatMapAppend(rooms + hosts, groups, SourceOf);
    FlatMapAppend(Sources(p), Dests(p), SourceOf);
    FlatMapAppend(Sources(p) + Dests(p), [GlobalDest(d, u)], SourceOf);
    FlatMapOne(GlobalDest(d, u), SourceOf);
  }

  function HostAcls(p: Plan): seq<Acl> {
    FlatMap(FlatMap(p.hosts, HostBlock(p.redirect)), AclOf)
  }

  function RoomAcls(p: Plan): seq<Acl> {
    FlatMap(FlatMap(p.tables.roomRule.order, RuleBlocks(p)), AclOf)
  }

  function GroupAcls(p: Plan): seq<Acl> {
    FlatMap(FlatMap(p.groups, GroupBlock(p)), AclOf)
  }

  function DefaultAcl(p: Plan): Acl {
    Acl("default", WhitePass(WBP, "", p.forced), Target(p.redirect))
  }

  lemma AclsOf(p: Plan, home: string, d: bool, u: bool)
    ensures Meaning(ScriptOf(p, home, d, u)).acls == HostAcls(p) + RoomAcls(p) + GroupAcls(p) + [DefaultAcl(p)]
  {
    hide FlatMap, WhitePass, HostBlock, RuleBlocks, GroupBlock, Sources, Dests;
    var hosts, rooms := FlatMap(p.hosts, HostBlock(p.redirect)), FlatMap(p.tables.roomRule.order, RuleBlocks(p));
    var groups := FlatMap(p.groups, GroupBlock(p));
    FlatMapAppend(hosts, rooms, AclOf);
    FlatMapAppend(hosts + rooms, groups, AclOf);
    FlatMapAppend(hosts + rooms + groups, [DefaultBlock(p)], AclOf);
    FlatMapOne(DefaultBlock(p), AclOf);
  }

  lemma SourcesNoDest(p: Plan)
    ensures FlatMap(Sources(p), DestOf) == []
  {
    SourcesDeclareNoDest(p.tables.roomIPs.order, RoomSource(p.tables));
    SourcesDeclareNoDest(p.hosts, HostSource(p.reg));
    SourcesDeclareNoDest(p.groups, GroupSource());
    hide FlatMap, RoomSource, HostSource, GroupSource;
    var rooms, hosts := FlatMap(p.tables.roomIPs.order, RoomSource(p.tables)), FlatMap(p.hosts, HostSource(p.reg));
    FlatMapAppend(rooms, hosts, DestOf);
    FlatMapAppend(rooms + hosts, FlatMap(p.groups, GroupSource()), DestOf);
  }

  lemma DestsOf(p: Plan, home: string)
    ensures Meaning(ScriptOf(p, home, true, true)).dests
         == FlatMap(Dests(p), DestOf) + [Dest(GLOBAL, Some(GLOBAL_DOMAINS), Some(GLOBAL_URLS))]
  {
    hide FlatMap, Sources, Dests, Blocks;
    SourcesNoDest(p);
    FlatMapAppend(Sources(p), Dests(p), DestOf);
    FlatMapAppend(Sources(p) + Dests(p), [GlobalDest(true, true)], DestOf);
    FlatMapOne(GlobalDest(true, true), DestOf);
    assert [] + FlatMap(Dests(p), DestOf) == FlatMap(Dests(p), DestOf);
  }

  lemma TwoFlat<T, U>(xs: seq<T>, f: T -> seq<Item>, g: Item -> seq<U>, y: U)
    ensures y in FlatMap(FlatMap(xs, f), g) <==> exists x, item :: x in xs && item in f(x) && y in g(item)
  {
    FlatMapIn(FlatMap(xs, f), g, y);
    if y in FlatMap(FlatMap(xs, f), g) {
      var item :| item in FlatMap(xs, f) && y in g(item);
      FlatMapIn(xs, f, item);
    }
    if x, item :| x in xs && item in f(x) && y in g(item) {
      FlatMapIn(xs, f, item);
    }
  }

  // ---------- which source a client falls under ----------

  lemma AddressMatches(files: Files, name: string, ips: seq<string>, client: Client)
    ensures Matches(files, Source(name, ips, []), client) <==> Covered(ips, client)
  {
  }

  function RoomSrc(p: Plan, room: string): Source {
    var ips := if room in p.tables.roomIPs.items then p.tables.roomIPs.items[room] else [];
    Source(RoomName(room), FlatMap(ips, Words), [])
  }

  lemma RoomSourceIn(p: Plan, s: Source)
    ensures s in RoomSources(p) <==> exists room :: room in p.tables.roomIPs.order && s == RoomSrc(p, room)
  {
    TwoFlat(p.tables.roomIPs.order, RoomSource(p.tables), SourceOf, s);
    hide FlatMap, RoomName, Words;
    if room :| room in p.tables.roomIPs.order && s == RoomSrc(p, room) {
      var item := RoomSource(p.tables)(room)[0];
      assert item in RoomSource(p.tables)(room) && s in SourceOf(item);
    }
  }

  lemma RoomWords(reg: Reg, room: string)
    ensures FlatMap(RoomAddresses(reg, room), Words) == RoomAddresses(reg, room)
  {
    hide Words, FlatMap, IsWord;
    WordsOfWords(RoomAddresses(reg, room));
  }

  lemma MatchingRoom(reg: Reg, p: Plan, files: Files, client: Client)
    requires Plans(reg, p)
    ensures var m := FirstMatch(files, RoomSources(p), client);
      && (m.Some? ==> exists room :: RoomCovers(reg, room, client) && m.value.name == RoomName(room))
      && ((exists room :: RoomCovers(reg, room, client)) ==> m.Some?)
  {
    hide RoomSources, FirstMatch, Matches, Covered, KnownRoom, RoomAddresses, RoomName, IsGroup, Descending,
      HostgroupPrefix, FlatMap, Words, IsWord;
    var m := FirstMatch(files, RoomSources(p), client);
    FirstMatchIn(files, RoomSources(p), client);
    if m.Some? {
      RoomSourceIn(p, m.value);
      var room :| room in p.tables.roomIPs.order && m.value == RoomSrc(p, room);
      RoomWords(reg, room);
      AddressMatches(files, m.value.name, m.value.ips, client);
      assert RoomCovers(reg, room, client);
    }
    if room :| RoomCovers(reg, room, client) {
      RoomWords(reg, room);
      RoomSourceIn(p, RoomSrc(p, room));
      AddressMatches(files, RoomName(room), RoomSrc(p, room).ips, client);
    }
  }

  function HostSrc(p: Plan, key: string): Source {
    Source(HostNameOf(key), FlatMap(HostAddresses(p.reg, key), Words), [])
  }

  lemma HostSourceIn(p: Plan, s: Source)
    ensures s in HostSources(p) <==> exists key :: key in p.hosts && s == HostSrc(p, key)
  {
    TwoFlat(p.hosts, HostSource(p.reg), SourceOf, s);
    hide FlatMap, HostNameOf, HostAddresses, Words;
    if key :| key in p.hosts && s == HostSrc(p, key) {
      var item := HostSource(p.reg)(key)[0];
      assert item in HostSource(p.reg)(key) && s in SourceOf(item);
    }
  }

  lemma HostWords(reg: Reg, key: string)
    ensures FlatMap(HostAddresses(reg, key), Words) == Words(Get(reg, key, ""))
  {
    hide Words, FlatMap, IsWord, Split;
    WordsOfPieces(Get(reg, key, ""));
  }

  lemma MatchingHost(reg: Reg, p: Plan, files: Files, client: Client)
    requires Plans(reg, p)
    ensures var m := FirstMatch(files, HostSources(p), client);
      && (m.Some? ==> exists key :: HostCovers(reg, key, client) && m.value.name == HostNameOf(key))
      && ((exists key :: HostCovers(reg, key, client)) ==> m.Some?)
  {
    hide HostSources, FirstMatch, Matches, Covered, HostAddresses, HostNameOf, IsGroup, Descending, HostgroupPrefix,
      Reads, FlatMap, Words, IsWord;
    var m := FirstMatch(files, HostSources(p), client);
    FirstMatchIn(files, HostSources(p), client);
    if m.Some? {
      HostSourceIn(p, m.value);
      var key :| key in p.hosts && m.value == HostSrc(p, key);
      HostWords(reg, key);
      AddressMatches(files, m.value.name, m.value.ips, client);
      assert HostCovers(reg, key, client);
    }
    if key :| HostCovers(reg, key, client) {
      HostWords(reg, key);
      HostSourceIn(p, HostSrc(p, key));
      AddressMatches(files, HostNameOf(key), HostSrc(p, key).ips, client);
    }
  }

  ghost predicate InFile(files: Files, file: string, user: string) {
    file in files && user in files[file]
  }

  /** The i-th group is the first whose member list names the user. */
  ghost predicate IsFirst(files: Files, groups: seq<Group>, user: string, i: nat) {
    && i < |groups| && InFile(files, GroupFile(groups[i].name), user)
    && forall j :: 0 <= j < i ==> !InFile(files, GroupFile(groups[j].name), user)
  }

  lemma GroupSourcesMore(groups: seq<Group>)
    requires groups != []
    ensures var name := GroupFile(groups[|groups| - 1].name);
            GroupSources(groups) == GroupSources(groups[..|groups| - 1]) + [Source(name, [], [name])]
  {
    var init, last := groups[..|groups| - 1], groups[|groups| - 1];
    assert FlatMap(groups, GroupSource()) == FlatMap(init, GroupSource()) + [UserSource(GroupFile(last.name))];
    hide FlatMap, GroupFile;
    FlatMapAppend(FlatMap(init, GroupSource()), [UserSource(GroupFile(last.name))], SourceOf);
    FlatMapOne(UserSource(GroupFile(last.name)), SourceOf);
  }

  lemma UserMatches(files: Files, name: string, client: Client)
    ensures FirstMatch(files, [Source(name, [], [name])], client)
         == if InFile(files, name, client.user) then Some(Source(name, [], [name])) else None
  {
    var s := Source(name, [], [name]);
    assert name in s.userlists;
    assert Matches(files, s, client) <==> InFile(files, name, client.user);
    assert [s][1..] == [];
  }

  lemma {:induction false} FirstGroup(files: Files, groups: seq<Group>, client: Client)
    ensures var m := FirstMatch(files, GroupSources(groups), client);
      && (m.Some? ==> exists i: nat ::
           IsFirst(files, groups, client.user, i) && m.value.name == GroupFile(groups[i].name))
      && (m.None? ==> forall j :: 0 <= j < |groups| ==> !InFile(files, GroupFile(groups[j].name), client.user))
  {
    hide GroupSources, FirstMatch, GroupFile, InFile;
    if groups == [] {
      NoGroups(files, client);
    } else {
      var init, last := groups[..|groups| - 1], groups[|groups| - 1];
      var name := GroupFile(last.name);
      FirstGroup(files, init, client);
      GroupSourcesMore(groups);
      FirstMatchAppend(files, GroupSources(init), [Source(name, [], [name])], client);
      UserMatches(files, name, client);
      assert groups == init + [last];
      FirstStays(files, init, last, client.user);
    }
  }

  lemma NoGroups(files: Files, client: Client)
    ensures FirstMatch(files, GroupSources([]), client) == None
  {
  }

  lemma FirstStays(files: Files, init: seq<Group>, last: Group, user: string)
    ensures forall i: nat ::
      IsFirst(files, init, user, i) ==> IsFirst(files, init + [last], user, i) && (init + [last])[i] == init[i]
    ensures (forall j :: 0 <= j < |init| ==> !InFile(files, GroupFile(init[j].name), user))
            && InFile(files, GroupFile(last.name), user)
            ==> IsFirst(files, init + [last], user, |init|) && (init + [last])[|init|] == last
  {
    hide InFile, GroupFile;
  }

  /** Among the groups with an existing assigned rule that name the user, the first matching source is the
      greatest by priority, then name. */
  lemma BestGroupWins(reg: Reg, domain: string, p: Plan, files: Files, client: Client)
    requires Plans(reg, p) && HoldsLists(reg, domain, p, files)
    ensures var m := FirstMatch(files, GroupSources(p.groups), client);
      && (m.Some? ==> exists g :: Best(reg, domain, g, client.user) && m.value.name == GroupFile(g.name))
      && (m.None? ==> forall g :: !Candidate(reg, domain, g, client.user))
  {
    hide GroupSources, FirstMatch, GroupFile, Member, IsGroup, Reads, HostgroupPrefix, Less, HoldsSlot;
    var user := client.user;
    var m := FirstMatch(files, GroupSources(p.groups), client);
    FirstGroup(files, p.groups, client);
    assert forall g :: g in p.groups ==> HoldsMembers(reg, domain, files, g.name);
    assert forall g :: g in p.groups ==> (InFile(files, GroupFile(g.name), user) <==> Candidate(reg, domain, g, user));
    if m.Some? {
      var i: nat :| IsFirst(files, p.groups, user, i) && m.value.name == GroupFile(p.groups[i].name);
      var g := p.groups[i];
      forall h | Candidate(reg, domain, h, user)
        ensures !Less(g, h)
      {
        assert h in p.groups;
        var j :| 0 <= j < |p.groups| && p.groups[j] == h;
        LessOrder(g, g);
      }
      assert Best(reg, domain, g, user);
    }
  }

  // ---------- which block decides ----------

  lemma NamesApart(a: string, b: string)
    ensures RoomName(a) != GroupFile(b) && RoomName(a) != "default" && GroupFile(a) != "default"
    ensures RoomName(a) == RoomName(b) <==> a == b
    ensures GroupFile(a) == GroupFile(b) <==> a == b
  {
    hide Quoted;
    assert RoomName(a)[0] == 'r' && GroupFile(b)[0] == 'u' && GroupFile(a)[0] == 'u' && "default"[0] == 'd';
    Cancel("room-", Quoted(a), Quoted(b));
    Cancel("usergroup-", Quoted(a), Quoted(b));
    Injective(a, b);
  }

  lemma HostAclIn(p: Plan, a: Acl)
    ensures a in HostAcls(p)
      <==> exists key :: key in p.hosts && a == Acl(HostNameOf(key), ["none"], Target(p.redirect))
  {
    TwoFlat(p.hosts, HostBlock(p.redirect), AclOf, a);
    hide FlatMap, HostNameOf;
    if key :| key in p.hosts && a == Acl(HostNameOf(key), ["none"], Target(p.redirect)) {
      var item := HostBlock(p.redirect)(key)[0];
      assert item in HostBlock(p.redirect)(key) && a in AclOf(item);
    }
  }

  lemma HostBlockFound(reg: Reg, p: Plan, name: string)
    requires Plans(reg, p)
    ensures var m := FindAcl(HostAcls(p), name);
      && (m.Some? ==> m.value.pass == ["none"] && exists key :: IsHostKey(reg, key) && HostNameOf(key) == name)
      && (m.None? ==> forall key :: IsHostKey(reg, key) ==> HostNameOf(key) != name)
  {
    hide HostAcls, FindAcl, HostNameOf, IsGroup, Descending, HostgroupPrefix, Reads;
    FindAclIn(HostAcls(p), name);
    var m := FindAcl(HostAcls(p), name);
    if m.Some? {
      HostAclIn(p, m.value);
    } else {
      forall key | IsHostKey(reg, key)
        ensures HostNameOf(key) != name
      {
        HostAclIn(p, Acl(HostNameOf(key), ["none"], Target(p.redirect)));
      }
    }
  }

  ghost predicate HasRoomAcl(p: Plan, room: string, rule: string, a: Acl) {
    && rule in p.tables.roomRule.order && room in RoomsOf(p.tables.roomRule, rule)
    && RulePass(p, rule) != [] && a == Acl(RoomName(room), RulePass(p, rule), Target(p.redirect))
  }

  lemma RoomBlockItem(p: Plan, room: string, rule: string, a: Acl)
    ensures (exists item :: item in RoomBlock(p, rule)(room) && a in AclOf(item))
       <==> RulePass(p, rule) != [] && a == Acl(RoomName(room), RulePass(p, rule), Target(p.redirect))
  {
    hide RulePass, RoomName;
    if RulePass(p, rule) != [] {
      var item := RoomBlock(p, rule)(room)[0];
      assert item in RoomBlock(p, rule)(room)
        && Acl(RoomName(room), RulePass(p, rule), Target(p.redirect)) in AclOf(item);
    }
  }

  lemma RoomAclIn(p: Plan, a: Acl)
    ensures a in RoomAcls(p) <==> exists room, rule :: HasRoomAcl(p, room, rule, a)
  {
    var rules := p.tables.roomRule.order;
    TwoFlat(rules, RuleBlocks(p), AclOf, a);
    hide RoomBlock, RoomsOf, AclOf, RulePass, FlatMap;
    if a in RoomAcls(p) {
      var rule, item :| rule in rules && item in RuleBlocks(p)(rule) && a in AclOf(item);
      FlatMapIn(RoomsOf(p.tables.roomRule, rule), RoomBlock(p, rule), item);
      var room :| room in RoomsOf(p.tables.roomRule, rule) && item in RoomBlock(p, rule)(room);
      RoomBlockItem(p, room, rule, a);
      assert HasRoomAcl(p, room, rule, a);
    }
    if room, rule :| HasRoomAcl(p, room, rule, a) {
      RoomBlockItem(p, room, rule, a);
      var item :| item in RoomBlock(p, rule)(room) && a in AclOf(item);
      FlatMapIn(RoomsOf(p.tables.roomRule, rule), RoomBlock(p, rule), item);
    }
  }

  /** The pass list printed for a room; empty if it has no rule, or none that exists and is of a known type. */
  function PassOfRoom(reg: Reg, p: Plan, room: string): seq<string> {
    if RoomRuleKey(room) in reg then RulePass(p, reg[RoomRuleKey(room)]) else []
  }

  lemma RoomBlockFound(reg: Reg, p: Plan, room: string)
    requires Plans(reg, p) && KnownRoom(reg, room)
    ensures var m := FindAcl(RoomAcls(p), RoomName(room));
            if PassOfRoom(reg, p, room) == [] then m.None? else m.Some? && m.value.pass == PassOfRoom(reg, p, room)
  {
    hide RoomAcls, FindAcl, RoomName, RulePass, RoomRuleKey, IsGroup, Descending, HostgroupPrefix, ReadsIPs;
    FindAclIn(RoomAcls(p), RoomName(room));
    var m := FindAcl(RoomAcls(p), RoomName(room));
    if m.Some? {
      RoomAclIn(p, m.value);
      var room', rule :| HasRoomAcl(p, room', rule, m.value);
      NamesApart(room, room');
      assert HasRule(reg, room, rule);
    }
    if PassOfRoom(reg, p, room) != [] {
      var rule := reg[RoomRuleKey(room)];
      assert HasRule(reg, room, rule);
      assert room in RoomsOf(p.tables.roomRule, rule);
      var a := Acl(RoomName(room), RulePass(p, rule), Target(p.redirect));
      assert HasRoomAcl(p, room, rule, a);
      RoomAclIn(p, a);
    }
  }

  lemma RoomAclNames(p: Plan, name: string)
    requires forall room :: name != RoomName(room)
    ensures FindAcl(RoomAcls(p), name) == None
  {
    hide RoomAcls, FindAcl, RoomName, RulePass;
    FindAclIn(RoomAcls(p), name);
    if FindAcl(RoomAcls(p), name).Some? {
      RoomAclIn(p, FindAcl(RoomAcls(p), name).value);
    }
  }

  function PassOfGroup(p: Plan, g: Group): seq<string> {
    GroupPass(FilterType(p.reg, "setting", g.rule), RuleSuffix("setting", g.rule), p.forced)
  }

  lemma GroupAclIn(p: Plan, a: Acl)
    ensures a in GroupAcls(p) <==>
            exists g ::
              g in p.groups && PassOfGroup(p, g) != []
              && a == Acl(GroupFile(g.name), PassOfGroup(p, g), Target(p.redirect))
  {
    TwoFlat(p.groups, GroupBlock(p), AclOf, a);
    hide FlatMap, GroupFile, GroupPass, RuleSuffix, FilterType;
    var acl := (g: Group) => Acl(GroupFile(g.name), PassOfGroup(p, g), Target(p.redirect));
    if g :| g in p.groups && PassOfGroup(p, g) != [] && a == acl(g) {
      var item := GroupBlock(p)(g)[0];
      assert item in GroupBlock(p)(g) && a in AclOf(item);
    }
  }

  lemma GroupBlockFound(reg: Reg, p: Plan, g: Group)
    requires Plans(reg, p) && IsGroup(reg, g)
    ensures var m := FindAcl(GroupAcls(p), GroupFile(g.name));
            if PassOfGroup(p, g) == [] then m.None? else m.Some? && m.value.pass == PassOfGroup(p, g)
  {
    hide GroupAcls, FindAcl, GroupFile, PassOfGroup, AssignedRule, Priority, Descending, HostgroupPrefix, Reads;
    FindAclIn(GroupAcls(p), GroupFile(g.name));
    var m := FindAcl(GroupAcls(p), GroupFile(g.name));
    if m.Some? {
      GroupAclIn(p, m.value);
      var h :| h in p.groups && PassOfGroup(p, h) != []
        && m.value == Acl(GroupFile(h.name), PassOfGroup(p, h), Target(p.redirect));
      NamesApart(g.name, h.name);
      assert h == g;
    }
    if PassOfGroup(p, g) != [] {
      GroupAclIn(p, Acl(GroupFile(g.name), PassOfGroup(p, g), Target(p.redirect)));
    }
  }

  lemma GroupAclNames(p: Plan, name: string)
    requires forall group :: name != GroupFile(group)
    ensures FindAcl(GroupAcls(p), name) == None
  {
    hide GroupAcls, FindAcl, GroupFile, PassOfGroup;
    FindAclIn(GroupAcls(p), name);
    if FindAcl(GroupAcls(p), name).Some? {
      GroupAclIn(p, FindAcl(GroupAcls(p), name).value);
    }
  }

  // ---------- which lists a request falls under ----------

  function ListsNamed(color: string, past: string, suffix: string): Dest {
    Dest(color + suffix, Some(ListFile(past, "domain", suffix)), Some(ListFile(past, "url", suffix)))
  }

  predicate OneOfLists(d: Dest, suffix: string) {
    d == ListsNamed("blacklist", "blacklisted", suffix) || d == ListsNamed("whitelist", "whitelisted", suffix)
  }

  lemma DestIn(p: Plan, d: Dest)
    ensures d in FlatMap(Dests(p), DestOf) <==>
            exists suffix :: suffix in Suffixes(p) && OneOfLists(d, suffix)
  {
    TwoFlat(Suffixes(p), RuleDests(), DestOf, d);
    hide FlatMap, Suffixes, ListFile;
    if suffix :| suffix in Suffixes(p) && OneOfLists(d, suffix) {
      var items := RuleDests()(suffix);
      assert items[0] in items && items[1] in items;
      assert d in DestOf(items[0]) || d in DestOf(items[1]);
    }
  }

  lemma OwnerSuffixListed(p: Plan, o: Owner)
    requires p.tables.roomRule.Valid() && PlanOwner(p, o)
    ensures OwnerSuffix(o) in Suffixes(p)
  {
    hide RuleSuffix;
    if o.RuleOwner? {
      FlatMapIn(p.settings, SettingSuffix(), RuleSuffix("setting", o.name));
      FlatMapIn(p.tables.roomRule.order, UserSuffix(), RuleSuffix("setting-user", o.name));
    }
  }

  lemma ColorsApart(a: string, b: string)
    ensures "whitelist" + a != "blacklist" + b
    ensures "whitelist" + a != GLOBAL && "blacklist" + a != GLOBAL
    ensures "whitelist" + a == "whitelist" + b <==> a == b
    ensures "blacklist" + a == "blacklist" + b <==> a == b
  {
    assert ("whitelist" + a)[0] == 'w' && ("blacklist" + b)[0] == 'b' && ("blacklist" + a)[0] == 'b'
      && GLOBAL[0] == 'g';
    Cancel("whitelist", a, b);
    Cancel("blacklist", a, b);
  }

  /** A list name in a pass list stands for exactly one declared list. */
  lemma HitsExactly(p: Plan, home: string, files: Files, suffix: string, request: Request)
    requires suffix in Suffixes(p)
    ensures var cfg := Meaning(ScriptOf(p, home, true, true));
      && (HitsNamed(cfg, files, White(suffix), request) <==>
           Hits(files, ListsNamed("whitelist", "whitelisted", suffix), request))
      && (HitsNamed(cfg, files, Black(suffix), request) <==>
           Hits(files, ListsNamed("blacklist", "blacklisted", suffix), request))
  {
    hide FlatMap, Suffixes, Hits, Dests, ScriptOf, Meaning, ListFile;
    var cfg := Meaning(ScriptOf(p, home, true, true));
    DestsOf(p, home);
    DestIn(p, ListsNamed("whitelist", "whitelisted", suffix));
    DestIn(p, ListsNamed("blacklist", "blacklisted", suffix));
    forall d | d in cfg.dests && (d.name == White(suffix) || d.name == Black(suffix))
      ensures d == if d.name == White(suffix) then ListsNamed("whitelist", "whitelisted", suffix)
                   else ListsNamed("blacklist", "blacklisted", suffix)
    {
      ColorsApart(suffix, suffix);
      if d in FlatMap(Dests(p), DestOf) {
        DestIn(p, d);
        var s :| s in Suffixes(p) && OneOfLists(d, s);
        ColorsApart(suffix, s);
        ColorsApart(s, suffix);
      }
    }
  }

  lemma OnListEntries(reg: Reg, files: Files, s: Slot, hit: string -> bool)
    requires HoldsSlot(reg, files, s)
    ensures OnList(files, Some(FileOf(s)), hit) <==>
            exists line :: IsEntry(reg, SlotPrefix(s), s.filter, line) && hit(line)
  {
    hide FileOf, SlotPrefix, IsEntry;
  }

  lemma HitsListed(reg: Reg, files: Files, o: Owner, color: string, item: string, request: Request)
    requires HoldsSlot(reg, files, Slot(o, "domain", item)) && HoldsSlot(reg, files, Slot(o, "url", item))
    ensures Hits(files, ListsNamed(color, item, OwnerSuffix(o)), request) <==> Listed(reg, o, item, request)
  {
    hide IsEntry, SlotPrefix, OnList, OwnerSuffix, ListFile;
    OnListEntries(reg, files, Slot(o, "domain", item), request.inDomain);
    OnListEntries(reg, files, Slot(o, "url", item), request.inUrl);
  }

  lemma HitsOwner(reg: Reg, domain: string, p: Plan, home: string, files: Files, o: Owner, request: Request)
    requires Plans(reg, p) && HoldsLists(reg, domain, p, files) && PlanOwner(p, o)
    ensures var cfg := Meaning(ScriptOf(p, home, true, true));
      && (HitsNamed(cfg, files, White(OwnerSuffix(o)), request) <==> Listed(reg, o, "whitelisted", request))
      && (HitsNamed(cfg, files, Black(OwnerSuffix(o)), request) <==> Listed(reg, o, "blacklisted", request))
  {
    hide Meaning, ScriptOf, HitsNamed, OwnerSuffix, Suffixes, Hits, ListsNamed, Listed, HoldsSlot, White, Black,
      PlanOwner;
    OwnerSuffixListed(p, o);
    HitsExactly(p, home, files, OwnerSuffix(o), request);
    assert HoldsOwner(reg, files, o);
    assert Slot(o, "domain", "whitelisted") in OwnerSlots(o) && Slot(o, "url", "whitelisted") in OwnerSlots(o);
    assert Slot(o, "domain", "blacklisted") in OwnerSlots(o) && Slot(o, "url", "blacklisted") in OwnerSlots(o);
    HitsListed(reg, files, o, "whitelist", "whitelisted", request);
    HitsListed(reg, files, o, "blacklist", "blacklisted", request);
  }

  ghost predicate GlobalHit(files: Files, request: Request) {
    Hits(files, Dest(GLOBAL, Some(GLOBAL_DOMAINS), Some(GLOBAL_URLS)), request)
  }

  lemma HitsGlobal(p: Plan, home: string, files: Files, request: Request)
    ensures HitsNamed(Meaning(ScriptOf(p, home, true, true)), files, GLOBAL, request) <==> GlobalHit(files, request)
  {
    hide FlatMap, Suffixes, Hits, Dests, ScriptOf, Meaning, ListFile;
    var cfg := Meaning(ScriptOf(p, home, true, true));
    var global := Dest(GLOBAL, Some(GLOBAL_DOMAINS), Some(GLOBAL_URLS));
    DestsOf(p, home);
    assert global in cfg.dests;
    forall d | d in cfg.dests && d.name == GLOBAL
      ensures d == global
    {
      if d in FlatMap(Dests(p), DestOf) {
        DestIn(p, d);
        var s :| s in Suffixes(p) && OneOfLists(d, s);
        ColorsApart(s, s);
      }
    }
  }

  // ---------- the decision ----------

  function Final(p: Plan, home: string): Config {
    Meaning(ScriptOf(p, home, true, true))
  }

  lemma KnownPass(filterType: string, name: string, forced: bool)
    ensures RoomPass(filterType, name, forced) == [] <==> !KnownType(filterType)
    ensures GroupPass(filterType, name, forced) == [] <==> !KnownType(filterType)
  {
  }

  lemma EvaluateOwner(reg: Reg, domain: string, p: Plan, home: string, files: Files, o: Owner, filterType: string,
                      request: Request)
    requires Plans(reg, p) && HoldsLists(reg, domain, p, files) && PlanOwner(p, o) && KnownType(filterType)
    ensures var hit := HitTest(Final(p, home), files, request);
            var verdict := Verdict(OwnerPasses(reg, o, filterType, p.forced, GlobalHit(files, request), request));
      && Evaluate(RoomPass(filterType, OwnerSuffix(o), p.forced), hit) == verdict
      && Evaluate(GroupPass(filterType, OwnerSuffix(o), p.forced), hit) == verdict
  {
    hide Meaning, ScriptOf, HitsNamed, OwnerSuffix, Listed, Evaluate, RoomPass, GroupPass, GlobalHit, White, Black,
      HoldsLists, Plans, KnownType, PlanOwner, Passes;
    HitsOwner(reg, domain, p, home, files, o, request);
    HitsGlobal(p, home, files, request);
    PassListsAgree(filterType, OwnerSuffix(o), p.forced, HitTest(Final(p, home), files, request));
  }

  lemma FindOne(a: Acl, name: string)
    ensures FindAcl([a], name) == if a.name == name then Some(a) else None
  {
  }

  lemma FindInSections(p: Plan, home: string, name: string)
    ensures FindAcl(Final(p, home).acls, name)
         == if FindAcl(HostAcls(p), name).Some? then FindAcl(HostAcls(p), name)
            else if FindAcl(RoomAcls(p), name).Some? then FindAcl(RoomAcls(p), name)
            else if FindAcl(GroupAcls(p), name).Some? then FindAcl(GroupAcls(p), name)
            else if name == "default" then Some(DefaultAcl(p)) else None
  {
    hide HostAcls, RoomAcls, GroupAcls, Meaning, ScriptOf, FindAcl, WhitePass;
    AclsOf(p, home, true, true);
    FindOne(DefaultAcl(p), name);
    assert DefaultAcl(p).name == "default";
    hide DefaultAcl;
    FindAclAppend(HostAcls(p) + RoomAcls(p) + GroupAcls(p), [DefaultAcl(p)], name);
    FindAclAppend(HostAcls(p) + RoomAcls(p), GroupAcls(p), name);
    FindAclAppend(HostAcls(p), RoomAcls(p), name);
  }

  /** Some blocked host group is printed under this name; its block is found first. */
  ghost predicate Taken(reg: Reg, name: string) {
    exists key :: IsHostKey(reg, key) && HostNameOf(key) == name
  }

  /** What is found under a name: the blocking pass list when it is taken, else the one printed for it. */
  ghost predicate FoundOr(reg: Reg, name: string, m: Option<Acl>, pass: seq<string>) {
    if Taken(reg, name) then m.Some? && m.value.pass == ["none"]
    else if pass == [] then m.None?
    else m.Some? && m.value.pass == pass
  }

  lemma FindDefault(reg: Reg, p: Plan, home: string)
    requires Plans(reg, p)
    ensures FoundOr(reg, "default", FindAcl(Final(p, home).acls, "default"), DefaultAcl(p).pass)
  {
    hide HostAcls, RoomAcls, GroupAcls, Final, FindAcl, RoomName, GroupFile, HostNameOf, Plans, IsHostKey, IsGroup,
      KnownRoom;
    FindInSections(p, home, "default");
    HostBlockFound(reg, p, "default");
    forall x
      ensures "default" != RoomName(x) && "default" != GroupFile(x)
    {
      NamesApart(x, x);
    }
    RoomAclNames(p, "default");
    GroupAclNames(p, "default");
  }

  /** The pass list a room's source is decided by. */
  lemma RoomAcl(reg: Reg, p: Plan, home: string, room: string)
    requires Plans(reg, p) && KnownRoom(reg, room)
    ensures FoundOr(reg, RoomName(room), FindAcl(Final(p, home).acls, RoomName(room)), PassOfRoom(reg, p, room))
  {
    hide HostAcls, RoomAcls, GroupAcls, DefaultAcl, Final, FindAcl, RoomName, GroupFile, HostNameOf, Plans, IsHostKey,
      IsGroup, KnownRoom, PassOfRoom;
    FindInSections(p, home, RoomName(room));
    HostBlockFound(reg, p, RoomName(room));
    RoomBlockFound(reg, p, room);
    forall x
      ensures RoomName(room) != GroupFile(x) && RoomName(room) != "default"
    {
      NamesApart(room, x);
    }
    GroupAclNames(p, RoomName(room));
    NamesApart(room, room);
  }

  lemma GroupAcl(reg: Reg, p: Plan, home: string, g: Group)
    requires Plans(reg, p) && IsGroup(reg, g)
    ensures FoundOr(reg, GroupFile(g.name), FindAcl(Final(p, home).acls, GroupFile(g.name)), PassOfGroup(p, g))
  {
    hide HostAcls, RoomAcls, GroupAcls, DefaultAcl, Final, FindAcl, RoomName, GroupFile, HostNameOf, Plans, IsHostKey,
      IsGroup, KnownRoom, PassOfGroup;
    FindInSections(p, home, GroupFile(g.name));
    HostBlockFound(reg, p, GroupFile(g.name));
    GroupBlockFound(reg, p, g);
    forall x
      ensures RoomName(x) != GroupFile(g.name)
    {
      NamesApart(x, g.name);
    }
    RoomAclNames(p, GroupFile(g.name));
    NamesApart(g.name, g.name);
  }

  lemma HostAcl(reg: Reg, p: Plan, home: string, key: string)
    requires Plans(reg, p) && IsHostKey(reg, key)
    ensures var m := FindAcl(Final(p, home).acls, HostNameOf(key));
            m.Some? && m.value.pass == ["none"]
  {
    hide HostAcls, RoomAcls, GroupAcls, DefaultAcl, Final, FindAcl, HostNameOf, Plans, IsHostKey;
    FindInSections(p, home, HostNameOf(key));
    HostBlockFound(reg, p, HostNameOf(key));
  }

  lemma DecideDefault(reg: Reg, domain: string, p: Plan, home: string, files: Files, request: Request)
    requires Plans(reg, p) && HoldsLists(reg, domain, p, files)
    ensures Evaluate(DefaultAcl(p).pass, HitTest(Final(p, home), files, request))
         == Verdict(DefaultPasses(reg, p.forced, GlobalHit(files, request), request))
  {
    hide Plans, HoldsLists, Final, HitTest, Evaluate, WhitePass, Listed, Passes, GlobalHit;
    EvaluateOwner(reg, domain, p, home, files, General, WBP, request);
  }

  lemma DecideRoomPass(reg: Reg, domain: string, p: Plan, home: string, files: Files, room: string, request: Request)
    requires Plans(reg, p) && HoldsLists(reg, domain, p, files) && KnownRoom(reg, room)
    ensures var pass := PassOfRoom(reg, p, room);
            var verdict := Verdict(RoomPasses(reg, room, p.forced, GlobalHit(files, request), request));
      && (pass != [] ==> Evaluate(pass, HitTest(Final(p, home), files, request)) == verdict)
      && (pass == [] ==> verdict == Verdict(DefaultPasses(reg, p.forced, GlobalHit(files, request), request)))
  {
    hide FilterType, HasUserRule, SettingNames, RoomRuleKey, GlobalHit, OwnerPasses, HitTest, Evaluate, HoldsLists,
      RoomPass, RuleSuffix, Final, KnownType, Plans;
    if RoomRuleKey(room) in reg {
      var rule := reg[RoomRuleKey(room)];
      RuleRead(reg, p, room);
      var user := rule in p.tables.roomRules;
      var kind := if user then "setting-user" else "setting";
      var ft := FilterType(reg, kind, rule);
      KnownPass(ft, RuleSuffix(kind, rule), p.forced);
      if (user || rule in p.settings) && KnownType(ft) {
        EvaluateOwner(reg, domain, p, home, files, RuleOwner(kind, rule), ft, request);
      }
    }
  }

  /** The plan knows the same rules as the registry, and lists for each user's rule some room is set to. */
  lemma RuleRead(reg: Reg, p: Plan, room: string)
    requires Plans(reg, p) && KnownRoom(reg, room) && RoomRuleKey(room) in reg
    ensures var rule := reg[RoomRuleKey(room)];
      && p.reg == reg
      && (rule in p.tables.roomRules <==> HasUserRule(reg, rule))
      && (rule in p.settings <==> rule in SettingNames(reg))
      && rule in p.tables.roomRule.items
  {
    hide RoomRuleKey, HasUserRule, SettingNames, IsGroup, Descending, HostgroupPrefix, ReadsIPs;
    var rule := reg[RoomRuleKey(room)];
    assert HasRule(reg, room, rule);
    assert room in RoomsOf(p.tables.roomRule, rule);
  }

  ghost predicate GroupPasses(reg: Reg, g: Group, forced: bool, global: bool, request: Request) {
    RulePasses(reg, "setting", g.rule, forced, global, request)
  }

  lemma DecideGroupPass(reg: Reg, domain: string, p: Plan, home: string, files: Files, g: Group, request: Request)
    requires Plans(reg, p) && HoldsLists(reg, domain, p, files) && IsGroup(reg, g)
    ensures var pass := PassOfGroup(p, g);
            var verdict := Verdict(GroupPasses(reg, g, p.forced, GlobalHit(files, request), request));
      && (pass != [] ==> Evaluate(pass, HitTest(Final(p, home), files, request)) == verdict)
      && (pass == [] ==> verdict == Verdict(DefaultPasses(reg, p.forced, GlobalHit(files, request), request)))
  {
    hide FilterType, SettingNames, GlobalHit, OwnerPasses, HitTest, Evaluate, HoldsLists, GroupPass, RuleSuffix,
      Final, KnownType, Plans, IsGroup;
    var ft := FilterType(reg, "setting", g.rule);
    GroupRuleRead(reg, p, g);
    KnownPass(ft, RuleSuffix("setting", g.rule), p.forced);
    if KnownType(ft) {
      EvaluateOwner(reg, domain, p, home, files, RuleOwner("setting", g.rule), ft, request);
    }
  }

  lemma GroupRuleRead(reg: Reg, p: Plan, g: Group)
    requires Plans(reg, p) && IsGroup(reg, g)
    ensures p.reg == reg && g.rule in p.settings
  {
  }

  // ---------- the decision of each kind of source ----------

  ghost function DefaultVerdict(reg: Reg, forced: bool, global: bool, request: Request): Decision {
    if Taken(reg, "default") then Block else Verdict(DefaultPasses(reg, forced, global, request))
  }

  /** The room has a rule that exists and is of a known type. */
  ghost predicate RoomRuled(reg: Reg, room: string) {
    && RoomRuleKey(room) in reg
    && var rule := reg[RoomRuleKey(room)];
       if HasUserRule(reg, rule) then KnownType(FilterType(reg, "setting-user", rule))
       else rule in SettingNames(reg) && KnownType(FilterType(reg, "setting", rule))
  }

  ghost function RoomVerdict(reg: Reg, room: string, forced: bool, global: bool, request: Request): Decision {
    if Taken(reg, RoomName(room)) then Block
    else if RoomRuled(reg, room) then Verdict(RoomPasses(reg, room, forced, global, request))
    else DefaultVerdict(reg, forced, global, request)
  }

  ghost function GroupVerdict(reg: Reg, g: Group, forced: bool, global: bool, request: Request): Decision {
    if Taken(reg, GroupFile(g.name)) then Block
    else if KnownType(FilterType(reg, "setting", g.rule)) then Verdict(GroupPasses(reg, g, forced, global, request))
    else DefaultVerdict(reg, forced, global, request)
  }

  lemma RuledHasPass(reg: Reg, p: Plan, room: string)
    requires Plans(reg, p) && KnownRoom(reg, room)
    ensures PassOfRoom(reg, p, room) != [] <==> RoomRuled(reg, room)
  {
    hide Plans, KnownRoom, FilterType, HasUserRule, SettingNames, RoomRuleKey, RoomPass, RuleSuffix, KnownType;
    if RoomRuleKey(room) in reg {
      var rule := reg[RoomRuleKey(room)];
      RuleRead(reg, p, room);
      KnownPass(FilterType(reg, "setting-user", rule), RuleSuffix("setting-user", rule), p.forced);
      KnownPass(FilterType(reg, "setting", rule), RuleSuffix("setting", rule), p.forced);
    }
  }

  lemma EvaluateNone(hit: string -> bool)
    ensures Evaluate(["none"], hit) == Block
  {
  }

  lemma DecideRoom(reg: Reg, domain: string, p: Plan, home: string, files: Files, client: Client, request: Request,
                   room: string)
    requires Plans(reg, p) && HoldsLists(reg, domain, p, files) && KnownRoom(reg, room)
    requires var m := FirstMatch(files, Final(p, home).sources, client); m.Some? && m.value.name == RoomName(room)
    ensures Decide(Final(p, home), files, client, request)
      == RoomVerdict(reg, room, p.forced, GlobalHit(files, request), request)
  {
    hide Plans, HoldsLists, Taken, KnownRoom, Final, FirstMatch, FindAcl, PassOfRoom, RoomPasses, DefaultPasses,
      GlobalHit, HitTest, Evaluate, RoomName, RoomRuled, WhitePass;
    RoomAcl(reg, p, home, room);
    FindDefault(reg, p, home);
    RuledHasPass(reg, p, room);
    DefaultPassSome(p);
    DecideRoomPass(reg, domain, p, home, files, room, request);
    DecideDefault(reg, domain, p, home, files, request);
    EvaluateNone(HitTest(Final(p, home), files, request));
  }

  lemma DefaultPassSome(p: Plan)
    ensures DefaultAcl(p).pass != []
  {
  }

  lemma DecideGroup(reg: Reg, domain: string, p: Plan, home: string, files: Files, client: Client, request: Request,
                    g: Group)
    requires Plans(reg, p) && HoldsLists(reg, domain, p, files) && IsGroup(reg, g)
    requires var m := FirstMatch(files, Final(p, home).sources, client); m.Some? && m.value.name == GroupFile(g.name)
    ensures Decide(Final(p, home), files, client, request)
      == GroupVerdict(reg, g, p.forced, GlobalHit(files, request), request)
  {
    hide Plans, HoldsLists, Taken, IsGroup, Final, FirstMatch, FindAcl, PassOfGroup, GroupPasses, DefaultPasses,
      GlobalHit, HitTest, Evaluate, GroupFile, WhitePass, KnownType, FilterType;
    GroupAcl(reg, p, home, g);
    FindDefault(reg, p, home);
    GroupHasPass(reg, p, g);
    DefaultPassSome(p);
    DecideGroupPass(reg, domain, p, home, files, g, request);
    DecideDefault(reg, domain, p, home, files, request);
    EvaluateNone(HitTest(Final(p, home), files, request));
  }

  lemma GroupHasPass(reg: Reg, p: Plan, g: Group)
    requires Plans(reg, p) && IsGroup(reg, g)
    ensures PassOfGroup(p, g) != [] <==> KnownType(FilterType(reg, "setting", g.rule))
  {
    hide Plans, IsGroup, FilterType, GroupPass, RuleSuffix, KnownType;
    GroupRuleRead(reg, p, g);
    KnownPass(FilterType(reg, "setting", g.rule), RuleSuffix("setting", g.rule), p.forced);
  }

  lemma DecideHost(reg: Reg, p: Plan, home: string, files: Files, client: Client, request: Request, key: string)
    requires Plans(reg, p) && IsHostKey(reg, key)
    requires var m := FirstMatch(files, Final(p, home).sources, client); m.Some? && m.value.name == HostNameOf(key)
    ensures Decide(Final(p, home), files, client, request) == Block
  {
    hide Plans, IsHostKey, Final, FirstMatch, FindAcl, HitTest, HostNameOf;
    HostAcl(reg, p, home, key);
    EvaluateEnd(HitTest(Final(p, home), files, request));
  }

  lemma DecideNobody(reg: Reg, domain: string, p: Plan, home: string, files: Files, client: Client, request: Request)
    requires Plans(reg, p) && HoldsLists(reg, domain, p, files)
    requires FirstMatch(files, Final(p, home).sources, client).None?
    ensures Decide(Final(p, home), files, client, request)
      == DefaultVerdict(reg, p.forced, GlobalHit(files, request), request)
  {
    hide Plans, HoldsLists, Taken, Final, FirstMatch, FindAcl, DefaultPasses, GlobalHit, HitTest, Evaluate, WhitePass;
    FindDefault(reg, p, home);
    DefaultPassSome(p);
    DecideDefault(reg, domain, p, home, files, request);
    EvaluateNone(HitTest(Final(p, home), files, request));
  }

  lemma MatchInSections(p: Plan, home: string, files: Files, client: Client)
    ensures FirstMatch(files, Final(p, home).sources, client)
         == if FirstMatch(files, RoomSources(p), client).Some? then FirstMatch(files, RoomSources(p), client)
            else if FirstMatch(files, HostSources(p), client).Some? then FirstMatch(files, HostSources(p), client)
            else FirstMatch(files, GroupSources(p.groups), client)
  {
    hide Meaning, ScriptOf, FirstMatch, RoomSources, HostSources, GroupSources;
    SourcesOf(p, home, true, true);
    FirstMatchAppend(files, RoomSources(p) + HostSources(p), GroupSources(p.groups), client);
    FirstMatchAppend(files, RoomSources(p), HostSources(p), client);
  }

  // ---------- the global list ----------

  /** The pass lists that can be printed: none at all, or one of a known type for some list names. */
  ghost predicate PrintedPass(p: Plan, pass: seq<string>) {
    || pass == ["none"]
    || exists filterType, suffix :: KnownType(filterType) && suffix in Suffixes(p)
         && (pass == RoomPass(filterType, suffix, p.forced) || pass == GroupPass(filterType, suffix, p.forced))
  }

  lemma RulePassPrinted(p: Plan, rule: string)
    requires rule in p.tables.roomRule.order && RulePass(p, rule) != []
    ensures PrintedPass(p, RulePass(p, rule))
  {
    FlatMapIn(p.settings, SettingSuffix(), RuleSuffix("setting", rule));
    FlatMapIn(p.tables.roomRule.order, UserSuffix(), RuleSuffix("setting-user", rule));
    hide RuleSuffix, FlatMap, RoomPass, GroupPass, FilterType, KnownType;
    var kind := if rule in p.tables.roomRules then "setting-user" else "setting";
    var ft := FilterType(p.reg, kind, rule);
    KnownPass(ft, RuleSuffix(kind, rule), p.forced);
    assert RuleSuffix("setting-user", rule) in UserSuffix()(rule)
      && RuleSuffix("setting", rule) in SettingSuffix()(rule);
    assert RuleSuffix(kind, rule) in Suffixes(p);
  }

  lemma GroupPassPrinted(p: Plan, g: Group)
    requires g.rule in p.settings && PassOfGroup(p, g) != []
    ensures PrintedPass(p, PassOfGroup(p, g))
  {
    FlatMapIn(p.settings, SettingSuffix(), RuleSuffix("setting", g.rule));
    hide RuleSuffix, FlatMap, RoomPass, GroupPass, FilterType, KnownType;
    KnownPass(FilterType(p.reg, "setting", g.rule), RuleSuffix("setting", g.rule), p.forced);
    assert RuleSuffix("setting", g.rule) in SettingSuffix()(g.rule);
    assert RuleSuffix("setting", g.rule) in Suffixes(p);
  }

  lemma DefaultPassPrinted(p: Plan)
    ensures PrintedPass(p, DefaultAcl(p).pass)
  {
    hide FlatMap, WhitePass, SettingSuffix, UserSuffix;
    assert [""][0] in [""] && "" in Suffixes(p) by { assert Suffixes(p)[0] == ""; }
    assert KnownType(WBP) && RoomPass(WBP, "", p.forced) == WhitePass(WBP, "", p.forced);
  }

  lemma AclPrinted(reg: Reg, p: Plan, home: string, a: Acl)
    requires Plans(reg, p) && a in Final(p, home).acls
    ensures PrintedPass(p, a.pass)
  {
    hide HostAcls, RoomAcls, GroupAcls, Meaning, ScriptOf, PrintedPass, DefaultAcl, Plans, RulePass, PassOfGroup;
    AclsOf(p, home, true, true);
    if a in HostAcls(p) {
      HostAclIn(p, a);
      NonePrinted(p);
    } else if a in RoomAcls(p) {
      RoomAclIn(p, a);
      var room, rule :| HasRoomAcl(p, room, rule, a);
      RulePassPrinted(p, rule);
    } else if a in GroupAcls(p) {
      GroupAclIn(p, a);
      var g :| g in p.groups && PassOfGroup(p, g) != []
        && a == Acl(GroupFile(g.name), PassOfGroup(p, g), Target(p.redirect));
      PlannedGroup(reg, p, g);
      GroupRuleRead(reg, p, g);
      GroupPassPrinted(p, g);
    } else {
      DefaultPassPrinted(p);
    }
  }

  lemma NonePrinted(p: Plan)
    ensures PrintedPass(p, ["none"])
  {
  }

  lemma PlannedGroup(reg: Reg, p: Plan, g: Group)
    requires Plans(reg, p) && g in p.groups
    ensures IsGroup(reg, g)
  {
    hide IsGroup;
  }

  lemma SomeAcl(p: Plan, home: string, files: Files, client: Client)
    ensures var a := AclFor(Final(p, home).acls, FirstMatch(files, Final(p, home).sources, client));
      a.Some? && a.value in Final(p, home).acls
  {
    hide HostAcls, RoomAcls, GroupAcls, Meaning, ScriptOf, FirstMatch, FindAcl;
    var acls, m := Final(p, home).acls, FirstMatch(files, Final(p, home).sources, client);
    AclsOf(p, home, true, true);
    assert DefaultAcl(p) in acls && DefaultAcl(p).name == "default";
    FindAclIn(acls, "default");
    if m.Some? {
      FindAclIn(acls, m.value.name);
    }
  }

  /** Forced, a request on the global list is blocked for every client, whatever the registry holds; not forced,
      such a request passes only on a hit of a white list. */
  lemma GlobalListDecides(reg: Reg, p: Plan, home: string, files: Files, client: Client, request: Request)
    requires Plans(reg, p) && GlobalHit(files, request)
    ensures var d := Decide(Final(p, home), files, client, request);
      && (p.forced ==> d == Block)
      && (d == Pass ==> exists suffix ::
           suffix in Suffixes(p) && HitsNamed(Final(p, home), files, White(suffix), request))
  {
    hide Final, FirstMatch, FindAcl, HitsNamed, GlobalHit, Evaluate, Suffixes, RoomPass, GroupPass, KnownType, White,
      Plans, AclFor;
    var cfg := Final(p, home);
    var a := AclFor(cfg.acls, FirstMatch(files, cfg.sources, client));
    var hit := HitTest(cfg, files, request);
    SomeAcl(p, home, files, client);
    AclPrinted(reg, p, home, a.value);
    HitsGlobalFinal(p, home, files, request);
    EvaluateNone(hit);
    if a.value.pass != ["none"] {
      var filterType, suffix :| KnownType(filterType) && suffix in Suffixes(p)
        && (a.value.pass == RoomPass(filterType, suffix, p.forced)
             || a.value.pass == GroupPass(filterType, suffix, p.forced));
      GlobalList(filterType, suffix, p.forced, hit);
    }
  }

  lemma HitsGlobalFinal(p: Plan, home: string, files: Files, request: Request)
    ensures HitsNamed(Final(p, home), files, GLOBAL, request) <==> GlobalHit(files, request)
  {
    hide HitsNamed, GlobalHit, Meaning, ScriptOf;
    HitsGlobal(p, home, files, request);
  }

  /** What the registry says about a client's request: a room that covers the client decides, whatever its
      groups; else a blocked host group blocks; else the best of its groups decides; else the default. */
  ghost predicate Says(reg: Reg, domain: string, forced: bool, global: bool, client: Client, request: Request,
                       d: Decision) {
    if exists room :: RoomCovers(reg, room, client) then
      exists room :: RoomCovers(reg, room, client) && d == Verdict(RoomPasses(reg, room, forced, global, request))
    else if exists key :: HostCovers(reg, key, client) then d == Block
    else if exists g :: Candidate(reg, domain, g, client.user) then
      exists g :: Best(reg, domain, g, client.user) && d == Verdict(GroupPasses(reg, g, forced, global, request))
    else d == Verdict(DefaultPasses(reg, forced, global, request))
  }

  /** The same, except that a name taken by a blocked host group blocks whoever is decided under it. */
  ghost predicate SaysByName(reg: Reg, domain: string, forced: bool, global: bool, client: Client, request: Request,
                             d: Decision) {
    if exists room :: RoomCovers(reg, room, client) then
      exists room :: RoomCovers(reg, room, client) && d == RoomVerdict(reg, room, forced, global, request)
    else if exists key :: HostCovers(reg, key, client) then d == Block
    else if exists g :: Candidate(reg, domain, g, client.user) then
      exists g :: Best(reg, domain, g, client.user) && d == GroupVerdict(reg, g, forced, global, request)
    else d == DefaultVerdict(reg, forced, global, request)
  }

  /** For every registry, client and request, whatever names the registry holds, interpreting the configuration
      gives a decision the registry's reading by name gives. */
  lemma PolicyByName(reg: Reg, domain: string, p: Plan, home: string, files: Files, client: Client, request: Request)
    requires Plans(reg, p) && HoldsLists(reg, domain, p, files)
    ensures SaysByName(reg, domain, p.forced, GlobalHit(files, request), client, request,
                       Decide(Final(p, home), files, client, request))
  {
    hide Plans, HoldsLists, Final, Decide, RoomVerdict, GroupVerdict, DefaultVerdict, GlobalHit, KnownRoom, Covered,
      IsHostKey, IsGroup, Member, RoomSources, HostSources, GroupSources, FirstMatch, Less;
    MatchInSections(p, home, files, client);
    MatchingRoom(reg, p, files, client);
    MatchingHost(reg, p, files, client);
    BestGroupWins(reg, domain, p, files, client);
    var rooms, hosts := FirstMatch(files, RoomSources(p), client), FirstMatch(files, HostSources(p), client);
    var groups := FirstMatch(files, GroupSources(p.groups), client);
    if rooms.Some? {
      var room :| RoomCovers(reg, room, client) && rooms.value.name == RoomName(room);
      DecideRoom(reg, domain, p, home, files, client, request, room);
    } else if hosts.Some? {
      var key :| HostCovers(reg, key, client) && hosts.value.name == HostNameOf(key);
      DecideHost(reg, p, home, files, client, request, key);
    } else if groups.Some? {
      var g :| Best(reg, domain, g, client.user) && groups.value.name == GroupFile(g.name);
      DecideGroup(reg, domain, p, home, files, client, request, g);
    } else {
      DecideNobody(reg, domain, p, home, files, client, request);
    }
  }

  lemma ClearDefault(reg: Reg, forced: bool, global: bool, request: Request)
    requires ClearNames(reg)
    ensures DefaultVerdict(reg, forced, global, request) == Verdict(DefaultPasses(reg, forced, global, request))
  {
    hide IsHostKey, HostNameOf, RoomName, GroupFile, KnownRoom, IsGroup, OwnerPasses;
  }

  lemma ClearRoom(reg: Reg, room: string, forced: bool, global: bool, request: Request)
    requires ClearNames(reg) && KnownRoom(reg, room)
    ensures RoomVerdict(reg, room, forced, global, request) == Verdict(RoomPasses(reg, room, forced, global, request))
  {
    hide IsHostKey, HostNameOf, RoomName, GroupFile, KnownRoom, IsGroup, OwnerPasses, RoomRuleKey, HasUserRule,
      SettingNames, FilterType, KnownType, DefaultPasses;
    ClearDefault(reg, forced, global, request);
  }

  lemma ClearGroup(reg: Reg, g: Group, forced: bool, global: bool, request: Request)
    requires ClearNames(reg) && IsGroup(reg, g)
    ensures GroupVerdict(reg, g, forced, global, request) == Verdict(GroupPasses(reg, g, forced, global, request))
  {
    hide IsHostKey, HostNameOf, RoomName, GroupFile, KnownRoom, IsGroup, OwnerPasses, FilterType, KnownType,
      DefaultPasses;
    ClearDefault(reg, forced, global, request);
  }

  /** Policy is preserved: with clear names, interpreting the configuration gives, for every client and every
      request, a decision the registry's direct reading gives. */
  lemma PolicyPreserved(reg: Reg, domain: string, p: Plan, home: string, files: Files, client: Client, request: Request)
    requires Plans(reg, p) && HoldsLists(reg, domain, p, files) && ClearNames(reg)
    ensures Says(reg, domain, p.forced, GlobalHit(files, request), client, request,
                 Decide(Final(p, home), files, client, request))
  {
    hide Plans, HoldsLists, ClearNames, Final, Decide, RoomVerdict, GroupVerdict, DefaultVerdict, RoomPasses,
      GroupPasses, DefaultPasses, GlobalHit, KnownRoom, Covered, HostCovers, IsGroup, Member, Less;
    var global, d := GlobalHit(files, request), Decide(Final(p, home), files, client, request);
    PolicyByName(reg, domain, p, home, files, client, request);
    ClearDefault(reg, p.forced, global, request);
    if exists room :: RoomCovers(reg, room, client) {
      var room :| RoomCovers(reg, room, client) && d == RoomVerdict(reg, room, p.forced, global, request);
      ClearRoom(reg, room, p.forced, global, request);
    } else if !(exists key :: HostCovers(reg, key, client)) && exists g :: Candidate(reg, domain, g, client.user) {
      var g :| Best(reg, domain, g, client.user) && d == GroupVerdict(reg, g, p.forced, global, request);
      ClearGroup(reg, g, p.forced, global, request);
    }
  }

  /** With at most one room covering the client the registry says exactly one thing. */
  lemma SaysOnce(reg: Reg, domain: string, forced: bool, global: bool, client: Client, request: Request, d: Decision,
                 e: Decision)
    requires forall a, b :: RoomCovers(reg, a, client) && RoomCovers(reg, b, client) ==> a == b
    requires Says(reg, domain, forced, global, client, request, d)
    requires Says(reg, domain, forced, global, client, request, e)
    ensures d == e && d != Undecided
  {
    hide RoomCovers, HostCovers, Candidate, RoomPasses, GroupPasses, DefaultPasses, Less;
    if !(exists room :: RoomCovers(reg, room, client)) && !(exists key :: HostCovers(reg, key, client))
       && exists g :: Candidate(reg, domain, g, client.user) {
      var g :| Best(reg, domain, g, client.user) && d == Verdict(GroupPasses(reg, g, forced, global, request));
      var h :| Best(reg, domain, h, client.user) && e == Verdict(GroupPasses(reg, h, forced, global, request));
      LessOrder(g, h);
    }
  }
}
