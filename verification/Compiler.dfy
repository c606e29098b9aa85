/** The compilation of the registry into a squidGuard configuration. */
module Compiler {
  import opened Options
  import opened Text
  import opened Quote
  import opened Registry
  import opened Rooms
  import opened Lists
  import opened Printing
  import opened Rendering

  const DOMAINS_KEY := "proxy/filter/global/blacklists/domains"
  const URLS_KEY := "proxy/filter/global/blacklists/urls"

  // ---------- rules and their pass lists ----------

  const WBP := "whitelist-blacklist-pass"
  const WB := "whitelist-block"
  const BP := "blacklist-pass"

  function White(name: string): string {
    "whitelist" + name
  }

  function Black(name: string): string {
    "blacklist" + name
  }

  function When(b: bool, term: string): seq<string> {
    if b then [term] else []
  }

  /** The terms of the first two rule types; the global list comes first when forced. */
  function WhitePass(filterType: string, name: string, forced: bool): seq<string> {
    if filterType == WBP then
      When(forced, "!" + GLOBAL) + [White(name), "!" + Black(name)] + When(!forced, "!" + GLOBAL) + ["all"]
    else
      When(forced, "!" + GLOBAL) + [White(name), "none"]
  }

  /** The pass list of a room; empty for an unknown rule type. */
  function RoomPass(filterType: string, name: string, forced: bool): seq<string> {
    if filterType == WBP || filterType == WB then WhitePass(filterType, name, forced)
    else if filterType == BP then ["!" + Black(name), "!" + GLOBAL, "all"]
    else []
  }

  /** The pass list of a group, with the last rule type's terms the other way round. */
  function GroupPass(filterType: string, name: string, forced: bool): seq<string> {
    if filterType == WBP || filterType == WB then WhitePass(filterType, name, forced)
    else if filterType == BP then ["!" + GLOBAL, "!" + Black(name), "all"]
    else []
  }

  // ---------- what is read from the registry ----------

  /** A group with an assigned rule, in the order the source's tuples are compared. */
  datatype Group = Group(priority: nat, name: string, rule: string)

  /** Everything the configuration is printed from. */
  datatype Plan = Plan(
    reg: Reg,
    tables: Tables,
    settings: seq<string>,
    hosts: seq<string>,
    groups: seq<Group>,
    redirect: string,
    forced: bool)

  function RoomName(room: string): string {
    "room-" + Quoted(room)
  }

  /** The raw name of a blocked host group; one that starts with a digit gets a prefix. */
  function HostName(key: string): string
    requires StartsWith(key, HostgroupPrefix())
  {
    var name := Suffix(key, HostgroupPrefix());
    if name != "" && '0' <= name[0] <= '9' then "univention-" + name else name
  }

  function HostNameOf(key: string): string {
    if StartsWith(key, HostgroupPrefix()) then Quoted(HostName(key)) else ""
  }

  function HostAddresses(reg: Reg, key: string): seq<string> {
    Split(Get(reg, key, ""), ' ')
  }

  /** The kind of registry keys and the list name suffix of the rule a room is set to, if it exists. */
  function RuleInForce(p: Plan, rule: string): Option<(string, string)> {
    if rule in p.tables.roomRules then Some(("setting-user", RuleSuffix("setting-user", rule)))
    else if rule in p.settings then Some(("setting", RuleSuffix("setting", rule)))
    else None
  }

  function FilterType(reg: Reg, kind: string, rule: string): string {
    Get(reg, FilterTypeKey(kind, rule), WBP)
  }

  // ---------- the printed pieces ----------

  function RoomSource(t: Tables): string -> seq<Item> {
    room => [AddressSource(RoomName(room), if room in t.roomIPs.items then t.roomIPs.items[room] else [], false)]
  }

  function HostSource(reg: Reg): string -> seq<Item> {
    key => [AddressSource(HostNameOf(key), HostAddresses(reg, key), true)]
  }

  function GroupSource(): Group -> seq<Item> {
    (g: Group) => [UserSource(GroupFile(g.name))]
  }

  function ListItem(color: string, past: string, name: string): Item {
    ListDest(color + name, ListFile(past, "domain", name), ListFile(past, "url", name))
  }

  function RuleDests(): string -> seq<Item> {
    name => [ListItem("blacklist", "blacklisted", name), ListItem("whitelist", "whitelisted", name)]
  }

  function SettingSuffix(): string -> seq<string> {
    s => [RuleSuffix("setting", s)]
  }

  function UserSuffix(): string -> seq<string> {
    u => [RuleSuffix("setting-user", u)]
  }

  /** The suffixes of all list names: none, each rule's, each user's. */
  function Suffixes(p: Plan): seq<string> {
    [""] + FlatMap(p.settings, SettingSuffix()) + FlatMap(p.tables.roomRule.order, UserSuffix())
  }

  function HostBlock(redirect: string): string -> seq<Item> {
    key => [AclBlock(Wide, HostNameOf(key), ["none"], redirect)]
  }

  function BlockOrNone(style: Style, name: string, pass: seq<string>, redirect: string): seq<Item> {
    if pass == [] then [] else [AclBlock(style, name, pass, redirect)]
  }

  /** The pass list printed for the rooms set to a rule; empty if there is none. */
  function RulePass(p: Plan, rule: string): seq<string> {
    match RuleInForce(p, rule)
    case None => []
    case Some((kind, name)) => RoomPass(FilterType(p.reg, kind, rule), name, p.forced)
  }

  function RoomBlock(p: Plan, rule: string): string -> seq<Item> {
    room => BlockOrNone(Narrow, RoomName(room), RulePass(p, rule), p.redirect)
  }

  function RuleBlocks(p: Plan): string -> seq<Item> {
    rule => FlatMap(RoomsOf(p.tables.roomRule, rule), RoomBlock(p, rule))
  }

  function GroupBlock(p: Plan): Group -> seq<Item> {
    (g: Group) =>
      var pass := GroupPass(FilterType(p.reg, "setting", g.rule), RuleSuffix("setting", g.rule), p.forced);
      BlockOrNone(Wide, GroupFile(g.name), pass, p.redirect)
  }

  function DefaultBlock(p: Plan): Item {
    AclBlock(Last, "default", WhitePass(WBP, "", p.forced), p.redirect)
  }

  function Sources(p: Plan): seq<Item> {
    FlatMap(p.tables.roomIPs.order, RoomSource(p.tables))
    + FlatMap(p.hosts, HostSource(p.reg))
    + FlatMap(p.groups, GroupSource())
  }

  function Dests(p: Plan): seq<Item> {
    FlatMap(Suffixes(p), RuleDests())
  }

  function Blocks(p: Plan): seq<Item> {
    FlatMap(p.hosts, HostBlock(p.redirect))
    + FlatMap(p.tables.roomRule.order, RuleBlocks(p))
    + FlatMap(p.groups, GroupBlock(p))
    + [DefaultBlock(p)]
  }

  /** The configuration printed for a plan. */
  function ScriptOf(p: Plan, dbhome: string, domainsOn: bool, urlsOn: bool): Script {
    Script(dbhome, Sources(p) + Dests(p) + [GlobalDest(domainsOn, urlsOn)], Blocks(p))
  }

  // ---------- what a plan must be read from ----------

  /** The configured redirect target, or the default page on this host; without either the source fails. */
  function Redirect(reg: Reg): Option<string> {
    if "proxy/filter/redirecttarget" in reg then Some(reg["proxy/filter/redirecttarget"])
    else if "hostname" in reg && "domainname" in reg then
      Some("http://" + reg["hostname"] + "." + reg["domainname"] + "/blocked-by-squid.html")
    else None
  }

  /** The source fails on a host group key without a name, since it looks at the name's first character. */
  predicate Printable(reg: Reg) {
    Redirect(reg).Some? && HostgroupPrefix() !in reg
  }

  /** A group key with an assigned rule, as the tuple it is sorted by. */
  ghost predicate IsGroup(reg: Reg, g: Group) {
    && (exists key :: IsGroupKey(reg, key, g.name))
    && AssignedRule(reg, g.name) == Some(g.rule)
    && g.priority == Priority(reg, g.rule)
  }

  predicate StrLess(a: string, b: string) {
    b != "" && (a == "" || a[0] < b[0] || (a[0] == b[0] && StrLess(a[1..], b[1..])))
  }

  /** Tuples compare by priority, then name, then rule. */
  predicate Less(a: Group, b: Group) {
    || a.priority < b.priority
    || (a.priority == b.priority && StrLess(a.name, b.name))
    || (a.priority == b.priority && a.name == b.name && StrLess(a.rule, b.rule))
  }

  ghost predicate Descending(gs: seq<Group>) {
    forall i, j :: 0 <= i < j < |gs| ==> !Less(gs[i], gs[j])
  }

  /** The plan says what the registry says; only the order of rooms, rules and hosts is left open. */
  ghost predicate Plans(reg: Reg, p: Plan) {
    && p.reg == reg && Reads(reg, p.tables)
    && NoDup(p.settings) && (forall s :: s in p.settings <==> s in SettingNames(reg))
    && (forall k :: k in p.hosts <==> k in reg && StartsWith(k, HostgroupPrefix()))
    && (forall g :: g in p.groups <==> IsGroup(reg, g))
    && Descending(p.groups)
    && Redirect(reg) == Some(p.redirect)
  }

  // ---------- sorting ----------

  lemma {:induction false} StrOrder(a: string, b: string)
    ensures StrLess(a, b) || StrLess(b, a) || a == b
    ensures !(StrLess(a, b) && (StrLess(b, a) || a == b))
  {
    if a != "" && b != "" && a[0] == b[0] {
      StrOrder(a[1..], b[1..]);
      assert a == [a[0]] + a[1..] && b == [b[0]] + b[1..];
    }
  }

  lemma {:induction false} StrTransitive(a: string, b: string, c: string)
    requires StrLess(a, b) && StrLess(b, c)
    ensures StrLess(a, c)
  {
    if a != "" && a[0] == b[0] && b[0] == c[0] {
      StrTransitive(a[1..], b[1..], c[1..]);
    }
  }

  lemma LessOrder(a: Group, b: Group)
    ensures Less(a, b) || Less(b, a) || a == b
    ensures !(Less(a, b) && (Less(b, a) || a == b))
  {
    hide StrLess;
    StrOrder(a.name, b.name);
    StrOrder(a.rule, b.rule);
  }

  lemma LessTransitive(a: Group, b: Group, c: Group)
    requires Less(a, b) && Less(b, c)
    ensures Less(a, c)
  {
    hide StrLess;
    if StrLess(a.name, b.name) && StrLess(b.name, c.name) { StrTransitive(a.name, b.name, c.name); }
    if StrLess(a.rule, b.rule) && StrLess(b.rule, c.rule) { StrTransitive(a.rule, b.rule, c.rule); }
  }

  function Insert(g: Group, sorted: seq<Group>): (r: seq<Group>)
    ensures multiset(r) == multiset(sorted) + multiset{g}
  {
    if sorted == [] then [g]
    else if !Less(g, sorted[0]) then [g] + sorted
    else
      assert sorted == [sorted[0]] + sorted[1..];
      [sorted[0]] + Insert(g, sorted[1..])
  }

  /** In descending order, each tuple as often as it was there. */
  function SortedDown(gs: seq<Group>): (r: seq<Group>)
    ensures multiset(r) == multiset(gs)
  {
    if gs == [] then []
    else
      assert gs == [gs[0]] + gs[1..];
      Insert(gs[0], SortedDown(gs[1..]))
  }

  lemma {:induction false} InsertDescending(g: Group, sorted: seq<Group>)
    requires Descending(sorted)
    ensures Descending(Insert(g, sorted))
  {
    var r := Insert(g, sorted);
    if sorted == [] {
    } else if !Less(g, sorted[0]) {
      forall j | 1 <= j < |r|
        ensures !Less(g, r[j])
      {
        assert r[j] == sorted[j - 1] && (j > 1 ==> !Less(sorted[0], r[j]));
        if Less(g, r[j]) {
          LessOrder(g, sorted[0]);
          if g != sorted[0] {
            LessTransitive(sorted[0], g, r[j]);
          }
        }
      }
    } else {
      var rest := Insert(g, sorted[1..]);
      InsertDescending(g, sorted[1..]);
      forall j | 0 <= j < |rest|
        ensures !Less(sorted[0], rest[j])
      {
        assert rest[j] in multiset(rest);
        if rest[j] == g {
          LessOrder(g, sorted[0]);
        } else {
          assert rest[j] in sorted[1..];
        }
      }
    }
  }

  lemma {:induction false} SortedDownDescending(gs: seq<Group>)
    ensures Descending(SortedDown(gs))
  {
    if gs != [] {
      SortedDownDescending(gs[1..]);
      InsertDescending(gs[0], SortedDown(gs[1..]));
    }
  }

  // ---------- the loops ----------

  /** The names of the shared rules, in the arbitrary order of a Python set. */
  method CollectSettings(reg: Reg, keys: seq<string>) returns (settings: seq<string>)
    requires IsEnumeration(keys, reg)
    ensures NoDup(settings) && forall s :: s in settings <==> s in SettingNames(reg)
  {
    hide Named;
    var names: set<string> := {};
    for i := 0 to |keys|
      invariant forall s :: s in names <==> exists j :: 0 <= j < i && Named(keys[j], "setting") == Some(s)
    {
      var m := Named(keys[i], "setting");
      if m.Some? {
        names := names + {m.value};
      }
    }
    assert forall s :: s in names <==> s in SettingNames(reg);
    settings := [];
    while names != {}
      invariant forall s :: s in settings || s in names <==> s in SettingNames(reg)
      invariant NoDup(settings) && forall s :: s in settings ==> s !in names
    {
      var s :| s in names;
      settings := settings + [s];
      names := names - {s};
    }
  }

  method CollectHosts(reg: Reg, keys: seq<string>) returns (hosts: seq<string>)
    requires IsEnumeration(keys, reg)
    ensures forall k :: k in hosts <==> k in reg && StartsWith(k, HostgroupPrefix())
  {
    hide HostgroupPrefix;
    hosts := [];
    for i := 0 to |keys|
      invariant forall k :: k in hosts <==> k in keys[..i] && StartsWith(k, HostgroupPrefix())
    {
      assert keys[..i + 1] == keys[..i] + [keys[i]];
      if StartsWith(keys[i], HostgroupPrefix()) {
        hosts := hosts + [keys[i]];
      }
    }
    assert keys[..|keys|] == keys;
  }

  method CollectGroups(reg: Reg, keys: seq<string>, settings: seq<string>) returns (groups: seq<Group>)
    requires IsEnumeration(keys, reg) && forall s :: s in settings <==> s in SettingNames(reg)
    ensures forall g :: g in groups <==> IsGroup(reg, g)
    ensures Descending(groups)
  {
    var found: seq<Group> := [];
    hide SettingNames, Priority, Prefix, LastSegment;
    for i := 0 to |keys|
      invariant forall g :: g in found <==> GroupAmong(reg, keys[..i], g)
    {
      var key := keys[i];
      assert keys[..i + 1] == keys[..i] + [key];
      GroupAmongMore(reg, keys[..i], key);
      if StartsWith(key, Prefix("usergroup")) {
        var name := LastSegment(key);
        var rule := Get(reg, Prefix("groupdefault") + name, "");
        if rule != "" && rule in settings {
          found := found + [Group(Priority(reg, rule), name, rule)];
        }
      }
    }
    assert keys[..|keys|] == keys;
    groups := SortedDown(found);
    SortedDownDescending(found);
    forall g
      ensures g in groups <==> IsGroup(reg, g)
    {
      assert g in groups <==> g in multiset(groups);
      assert g in found <==> g in multiset(found);
    }
  }

  lemma GroupAmongMore(reg: Reg, keys: seq<string>, key: string)
    requires key in reg
    ensures forall g :: GroupAmong(reg, keys + [key], g) <==> GroupAmong(reg, keys, g) || GroupAmong(reg, [key], g)
    ensures forall g :: GroupAmong(reg, [key], g) <==>
      && StartsWith(key, Prefix("usergroup")) && LastSegment(key) == g.name
      && AssignedRule(reg, g.name) == Some(g.rule) && g.priority == Priority(reg, g.rule)
  {
    hide AssignedRule, Priority, LastSegment, Prefix;
    forall g
      ensures GroupAmong(reg, keys + [key], g) <==> GroupAmong(reg, keys, g) || GroupAmong(reg, [key], g)
      ensures GroupAmong(reg, [key], g) <==>
        && StartsWith(key, Prefix("usergroup")) && LastSegment(key) == g.name
        && AssignedRule(reg, g.name) == Some(g.rule) && g.priority == Priority(reg, g.rule)
    {
      assert key in [key] && key in keys + [key];
    }
  }

  ghost predicate GroupAmong(reg: Reg, keys: seq<string>, g: Group) {
    && (exists key :: key in keys && IsGroupKey(reg, key, g.name))
    && AssignedRule(reg, g.name) == Some(g.rule) && g.priority == Priority(reg, g.rule)
  }

  // ---------- printing ----------

  function FourFiles(): string -> seq<string> {
    name => [ListFile("blacklisted", "domain", name), ListFile("blacklisted", "url", name),
             ListFile("whitelisted", "domain", name), ListFile("whitelisted", "url", name)]
  }

  function GroupFiles(): Group -> seq<string> {
    (g: Group) => [GroupFile(g.name)]
  }

  /** The list files that are created empty, so that no list named in the configuration is missing. */
  function TouchList(p: Plan): seq<string> {
    FlatMap(p.groups, GroupFiles()) + FlatMap(Suffixes(p), FourFiles())
  }

  method PrintSources(p: Plan) returns (items: seq<Item>, touched: seq<string>)
    ensures items == Sources(p)
    ensures touched == FlatMap(p.groups, GroupFiles())
  {
    hide RoomSource, HostSource, GroupSource, GroupFiles, FlatMap;
    items := [];
    var rooms := p.tables.roomIPs.order;
    FlatMapNone(rooms, RoomSource(p.tables));
    FlatMapNone(p.hosts, HostSource(p.reg));
    FlatMapNone(p.groups, GroupSource());
    FlatMapNone(p.groups, GroupFiles());
    for i := 0 to |rooms|
      invariant items == FlatMap(rooms[..i], RoomSource(p.tables))
    {
      FlatMapStep(rooms, i, RoomSource(p.tables));
      items := items + RoomSource(p.tables)(rooms[i]);
    }
    var printed := items;
    for i := 0 to |p.hosts|
      invariant items == printed + FlatMap(p.hosts[..i], HostSource(p.reg))
    {
      FlatMapStep(p.hosts, i, HostSource(p.reg));
      items := items + HostSource(p.reg)(p.hosts[i]);
    }
    printed := items;
    touched := [];
    for i := 0 to |p.groups|
      invariant items == printed + FlatMap(p.groups[..i], GroupSource())
      invariant touched == FlatMap(p.groups[..i], GroupFiles())
    {
      FlatMapStep(p.groups, i, GroupSource());
      FlatMapStep(p.groups, i, GroupFiles());
      items := items + GroupSource()(p.groups[i]);
      touched := touched + GroupFiles()(p.groups[i]);
    }
  }

  method PrintDests(p: Plan) returns (items: seq<Item>, touched: seq<string>)
    ensures items == Dests(p)
    ensures touched == FlatMap(Suffixes(p), FourFiles())
  {
    hide RuleDests, FourFiles;
    var names := Suffixes(p);
    items, touched := [], [];
    for i := 0 to |names|
      invariant items == FlatMap(names[..i], RuleDests())
      invariant touched == FlatMap(names[..i], FourFiles())
    {
      FlatMapStep(names, i, RuleDests());
      FlatMapStep(names, i, FourFiles());
      items := items + RuleDests()(names[i]);
      touched := touched + FourFiles()(names[i]);
    }
    assert names[..|names|] == names;
  }

  method PrintBlocks(p: Plan) returns (items: seq<Item>)
    ensures items == Blocks(p)
  {
    hide HostBlock, RuleBlocks, GroupBlock, DefaultBlock, FlatMap;
    items := [];
    FlatMapNone(p.hosts, HostBlock(p.redirect));
    FlatMapNone(p.tables.roomRule.order, RuleBlocks(p));
    FlatMapNone(p.groups, GroupBlock(p));
    for i := 0 to |p.hosts|
      invariant items == FlatMap(p.hosts[..i], HostBlock(p.redirect))
    {
      FlatMapStep(p.hosts, i, HostBlock(p.redirect));
      items := items + HostBlock(p.redirect)(p.hosts[i]);
    }
    var printed := items;
    var rules := p.tables.roomRule.order;
    for i := 0 to |rules|
      invariant items == printed + FlatMap(rules[..i], RuleBlocks(p))
    {
      FlatMapStep(rules, i, RuleBlocks(p));
      var blocks := PrintRuleBlocks(p, rules[i]);
      items := items + blocks;
    }
    printed := items;
    for i := 0 to |p.groups|
      invariant items == printed + FlatMap(p.groups[..i], GroupBlock(p))
    {
      FlatMapStep(p.groups, i, GroupBlock(p));
      items := items + GroupBlock(p)(p.groups[i]);
    }
    items := items + [DefaultBlock(p)];
  }

  /** A user's own rule wins over a shared one of the same name; a rule that does not exist has no pass list. */
  method ChoosePass(p: Plan, rule: string) returns (pass: seq<string>)
    ensures pass == RulePass(p, rule)
  {
    hide RoomPass, FilterTypeKey, RuleSuffix;
    if rule in p.tables.roomRules {
      pass := RoomPass(Get(p.reg, FilterTypeKey("setting-user", rule), WBP), RuleSuffix("setting-user", rule),
        p.forced);
    } else if rule in p.settings {
      pass := RoomPass(Get(p.reg, FilterTypeKey("setting", rule), WBP), RuleSuffix("setting", rule), p.forced);
    } else {
      pass := [];
    }
  }

  method PrintRuleBlocks(p: Plan, rule: string) returns (items: seq<Item>)
    ensures items == RuleBlocks(p)(rule)
  {
    hide RulePass, RoomName;
    items := [];
    var rooms := RoomsOf(p.tables.roomRule, rule);
    for i := 0 to |rooms|
      invariant items == FlatMap(rooms[..i], RoomBlock(p, rule))
    {
      FlatMapStep(rooms, i, RoomBlock(p, rule));
      var pass := ChoosePass(p, rule);
      if pass != [] {
        items := items + [AclBlock(Narrow, RoomName(rooms[i]), pass, p.redirect)];
      }
    }
    assert rooms[..|rooms|] == rooms;
  }

  method ReadPlan(reg: Reg, keys: seq<string>, forced: bool) returns (p: Option<Plan>)
    requires IsEnumeration(keys, reg)
    ensures p.Some? <==> Printable(reg)
    ensures p.Some? ==> Plans(reg, p.value) && p.value.forced == forced
  {
    var tables := CollectRooms(reg, keys);
    var settings := CollectSettings(reg, keys);
    var hosts := CollectHosts(reg, keys);
    var groups := CollectGroups(reg, keys, settings);
    var redirect := Redirect(reg);
    assert StartsWith(HostgroupPrefix(), HostgroupPrefix());
    hide HostgroupPrefix, Redirect, SettingNames, IsGroup, Reads, IsEnumeration, Less;
    if redirect.None? || HostgroupPrefix() in hosts {
      p := None;
    } else {
      p := Some(Plan(reg, tables, settings, hosts, groups, redirect.value, forced));
    }
  }

  /** Reads the registry and prints the configuration; gives the list files to create empty. */
  method CreateTemporaryConfig(reg: Reg, keys: seq<string>, dbhome: string, forced: bool, changes: set<string>)
    returns (text: Option<string>, touched: seq<string>, ghost p: Plan)
    requires IsEnumeration(keys, reg)
    ensures text.Some? <==> Printable(reg)
    ensures text.Some? ==>
      && Plans(reg, p) && p.forced == forced
      && text.value == Render(ScriptOf(p, dbhome, DOMAINS_KEY in changes, URLS_KEY in changes))
      && touched == TouchList(p)
  {
    hide Sources, Dests, Blocks, Plans, Printable, Render, Suffixes;
    var plan := ReadPlan(reg, keys, forced);
    if plan.None? {
      text, touched := None, [];
      p := Plan(reg, Tables(EmptyDict(), EmptyDict(), []), [], [], [], "", forced);
    } else {
      p := plan.value;
      var sources, groupFiles := PrintSources(plan.value);
      var dests, listFiles := PrintDests(plan.value);
      var blocks := PrintBlocks(plan.value);
      touched := groupFiles + listFiles;
      text := Some(Render(Script(dbhome, sources + dests + [GlobalDest(DOMAINS_KEY in changes, URLS_KEY in changes)],
        blocks)));
    }
  }
}
