/** Every generated configuration is closed and unambiguous, and its text is well formed. */
module Closure {
  import opened Options
  import opened Text
  import opened Quote
  import opened Registry
  import opened Rooms
  import opened Lists
  import opened SquidGuard
  import opened Printing
  import opened Rendering
  import opened Compiler
  import opened Policy

  // ---------- names ----------

  /** No two rules, shared or users' own, share a list name. */
  lemma SuffixesDistinct(reg: Reg, p: Plan)
    requires Plans(reg, p)
    ensures NoDup(Suffixes(p))
  {
    var settings, users := FlatMap(p.settings, SettingSuffix()), FlatMap(p.tables.roomRule.order, UserSuffix());
    SettingSuffixAt(p.settings);
    UserSuffixAt(p.tables.roomRule.order);
    hide RuleSuffix;
    forall i, j | 0 <= i < j < |settings|
      ensures settings[i] != settings[j]
    {
      if settings[i] == settings[j] {
        SuffixInjective("setting", p.settings[i], "setting", p.settings[j]);
      }
    }
    forall i, j | 0 <= i < j < |users|
      ensures users[i] != users[j]
    {
      if users[i] == users[j] {
        SuffixInjective("setting-user", p.tables.roomRule.order[i], "setting-user", p.tables.roomRule.order[j]);
      }
    }
    forall i, j | 0 <= i < |settings| && 0 <= j < |users|
      ensures settings[i] != users[j]
    {
      if settings[i] == users[j] {
        SuffixInjective("setting", p.settings[i], "setting-user", p.tables.roomRule.order[j]);
      }
    }
    SuffixNotEmpty();
  }

  lemma SuffixNotEmpty()
    ensures forall kind, name :: RuleSuffix(kind, name) != ""
  {
  }

  lemma {:induction false} SettingSuffixAt(names: seq<string>)
    ensures |FlatMap(names, SettingSuffix())| == |names|
    ensures forall i :: 0 <= i < |names| ==> FlatMap(names, SettingSuffix())[i] == RuleSuffix("setting", names[i])
  {
    if names != [] {
      SettingSuffixAt(names[..|names| - 1]);
    }
  }

  lemma {:induction false} UserSuffixAt(names: seq<string>)
    ensures |FlatMap(names, UserSuffix())| == |names|
    ensures forall i :: 0 <= i < |names| ==> FlatMap(names, UserSuffix())[i] == RuleSuffix("setting-user", names[i])
  {
    if names != [] {
      UserSuffixAt(names[..|names| - 1]);
    }
  }

  ghost predicate Declared(cfg: Config, name: string) {
    exists d :: d in cfg.dests && d.name == name
  }

  /** A term of a pass list names a declared list, or none. */
  ghost predicate TermDeclared(cfg: Config, term: string) {
    term == "all" || term == "none" || Declared(cfg, term) || (StartsWith(term, "!") && Declared(cfg, term[1..]))
  }

  ghost predicate PassDeclared(cfg: Config, pass: seq<string>) {
    forall i :: 0 <= i < |pass| ==> TermDeclared(cfg, pass[i])
  }

  lemma ListsDeclared(p: Plan, home: string, suffix: string)
    requires suffix in Suffixes(p)
    ensures var cfg := Final(p, home);
            Declared(cfg, White(suffix)) && Declared(cfg, Black(suffix)) && Declared(cfg, GLOBAL)
  {
    hide Suffixes, ScriptOf, Meaning, ListFile, Dests;
    var cfg := Final(p, home);
    DestsOf(p, home);
    var w, b := ListsNamed("whitelist", "whitelisted", suffix), ListsNamed("blacklist", "blacklisted", suffix);
    DestIn(p, w);
    DestIn(p, b);
    assert OneOfLists(w, suffix) && OneOfLists(b, suffix);
    assert w in cfg.dests && b in cfg.dests;
    assert Dest(GLOBAL, Some(GLOBAL_DOMAINS), Some(GLOBAL_URLS)) in cfg.dests;
  }

  lemma PassListsDeclared(p: Plan, home: string, filterType: string, suffix: string, forced: bool)
    requires suffix in Suffixes(p)
    ensures PassDeclared(Final(p, home), RoomPass(filterType, suffix, forced))
    ensures PassDeclared(Final(p, home), GroupPass(filterType, suffix, forced))
    ensures PassDeclared(Final(p, home), WhitePass(filterType, suffix, forced))
  {
    hide Suffixes, Final, Declared;
    ListsDeclared(p, home, suffix);
    var cfg := Final(p, home);
    NotTerm(cfg, GLOBAL);
    NotTerm(cfg, Black(suffix));
    assert TermDeclared(cfg, White(suffix)) && TermDeclared(cfg, "all") && TermDeclared(cfg, "none");
    hide TermDeclared, White, Black;
  }

  lemma NotTerm(cfg: Config, name: string)
    requires Declared(cfg, name)
    ensures TermDeclared(cfg, "!" + name)
  {
    assert ("!" + name)[1..] == name;
  }

  ghost predicate HasSource(cfg: Config, name: string) {
    exists s :: s in cfg.sources && s.name == name
  }

  /** Each source named by an access block is declared, and so is each list its pass list names. */
  lemma Closed(reg: Reg, p: Plan, home: string, a: Acl)
    requires Plans(reg, p) && a in Final(p, home).acls
    ensures a.name == "default" || HasSource(Final(p, home), a.name)
    ensures PassDeclared(Final(p, home), a.pass)
  {
    hide HostAcls, RoomAcls, GroupAcls, Meaning, ScriptOf, PassDeclared, HasSource, Suffixes, WhitePass, Plans;
    AclsOf(p, home, true, true);
    if a in HostAcls(p) {
      ClosedHost(p, home, a);
    } else if a in RoomAcls(p) {
      ClosedRoom(reg, p, home, a);
    } else if a in GroupAcls(p) {
      ClosedGroup(reg, p, home, a);
    } else {
      assert a == DefaultAcl(p);
      EmptySuffix(p);
      PassListsDeclared(p, home, WBP, "", p.forced);
    }
  }

  lemma EmptySuffix(p: Plan)
    ensures "" in Suffixes(p)
  {
    assert Suffixes(p)[0] == "";
  }

  lemma SourceDeclared(p: Plan, home: string, s: Source)
    requires s in RoomSources(p) || s in HostSources(p) || s in GroupSources(p.groups)
    ensures HasSource(Final(p, home), s.name)
  {
    hide RoomSources, HostSources, GroupSources, Meaning, ScriptOf;
    SourcesOf(p, home, true, true);
    assert s in Final(p, home).sources;
  }

  lemma ClosedHost(p: Plan, home: string, a: Acl)
    requires a in HostAcls(p)
    ensures HasSource(Final(p, home), a.name) && PassDeclared(Final(p, home), a.pass)
  {
    hide Final, HasSource, HostAcls, HostSources, HostNameOf, HostAddresses;
    HostAclIn(p, a);
    var key :| key in p.hosts && a == Acl(HostNameOf(key), ["none"], Target(p.redirect));
    HostSourceIn(p, HostSrc(p, key));
    SourceDeclared(p, home, HostSrc(p, key));
  }

  lemma ClosedRoom(reg: Reg, p: Plan, home: string, a: Acl)
    requires Plans(reg, p) && a in RoomAcls(p)
    ensures HasSource(Final(p, home), a.name) && PassDeclared(Final(p, home), a.pass)
  {
    hide Final, HasSource, RoomAcls, RoomSources, RoomName, RoomPass, PassDeclared, IsGroup, Descending,
      HostgroupPrefix, RuleSuffix, Suffixes, RoomAddresses, RoomRuleKey, RoomIpKey, HasUserRule, SettingNames,
      FilterType;
    RoomAclIn(p, a);
    var room, rule :| HasRoomAcl(p, room, rule, a);
    assert HasRule(reg, room, rule);
    assert KnownRoom(reg, room);
    RoomSourceIn(p, RoomSrc(p, room));
    SourceDeclared(p, home, RoomSrc(p, room));
    var kind := if rule in p.tables.roomRules then "setting-user" else "setting";
    var o := RuleOwner(kind, rule);
    assert PlanOwner(p, o);
    OwnerSuffixListed(p, o);
    PassListsDeclared(p, home, FilterType(p.reg, kind, rule), RuleSuffix(kind, rule), p.forced);
  }

  lemma ClosedGroup(reg: Reg, p: Plan, home: string, a: Acl)
    requires Plans(reg, p) && a in GroupAcls(p)
    ensures HasSource(Final(p, home), a.name) && PassDeclared(Final(p, home), a.pass)
  {
    hide Final, HasSource, GroupAcls, GroupSources, GroupFile, GroupPass, PassDeclared, HostgroupPrefix, RuleSuffix,
      Suffixes, SettingNames, FilterType, Descending;
    GroupAclIn(p, a);
    var g :| g in p.groups && PassOfGroup(p, g) != []
      && a == Acl(GroupFile(g.name), PassOfGroup(p, g), Target(p.redirect));
    var s := Source(GroupFile(g.name), [], [GroupFile(g.name)]);
    GroupSourceIn(p.groups, g);
    SourceDeclared(p, home, s);
    GroupRuleRead(reg, p, g);
    var o := RuleOwner("setting", g.rule);
    assert PlanOwner(p, o);
    OwnerSuffixListed(p, o);
    PassListsDeclared(p, home, FilterType(p.reg, "setting", g.rule), RuleSuffix("setting", g.rule), p.forced);
  }

  lemma GroupSourceIn(groups: seq<Group>, g: Group)
    requires g in groups
    ensures Source(GroupFile(g.name), [], [GroupFile(g.name)]) in GroupSources(groups)
  {
    var s := Source(GroupFile(g.name), [], [GroupFile(g.name)]);
    TwoFlat(groups, GroupSource(), SourceOf, s);
    hide FlatMap, GroupFile;
    var item := GroupSource()(g)[0];
    assert item in GroupSource()(g) && s in SourceOf(item);
  }

  // ---------- well-formed text ----------

  /** The parts of the registry that are printed as they are, the redirect target and the addresses, hold
      neither a newline nor the mark that the rewrite removes. */
  ghost predicate PlainText(reg: Reg) {
    && (Redirect(reg).Some? ==> Unmarked(Redirect(reg).value))
    && (forall room, i :: 0 <= i < |RoomAddresses(reg, room)| ==> Unmarked(RoomAddresses(reg, room)[i]))
    && (forall key, i ::
         IsHostKey(reg, key) && 0 <= i < |HostAddresses(reg, key)| ==> Unmarked(HostAddresses(reg, key)[i]))
  }

  /** Text of quoted names and fixed parts: visible, without the comment character. */
  predicate Fine(s: string) {
    forall i :: 0 <= i < |s| ==> '$' <= s[i] <= '~'
  }

  lemma FineQuoted(s: string)
    ensures Fine(Quoted(s)) && (s != "" ==> Quoted(s) != "")
  {
    QuotedAlphabet(s);
    forall i | 0 <= i < |Quoted(s)|
      ensures '$' <= Quoted(s)[i] <= '~'
    {
      assert Quoted(s)[i] in Quoted(s);
    }
    if s != "" {
      QuotedUnfold(s);
      assert QuoteChar(s[0]) != "";
    }
  }

  lemma FineWord(s: string)
    requires Fine(s)
    ensures Clear(s)
    ensures s != "" ==> IsName(s)
  {
  }

  lemma FineAppend(a: string, b: string)
    requires Fine(a) && Fine(b)
    ensures Fine(a + b)
  {
  }

  lemma FineNames(s: string)
    ensures Fine(RoomName(s)) && Fine(GroupFile(s)) && RoomName(s) != "" && GroupFile(s) != ""
  {
    hide Quoted;
    FineQuoted(s);
    FineAppend("room-", Quoted(s));
    FineAppend("usergroup-", Quoted(s));
  }

  lemma FineSuffix(kind: string, name: string)
    ensures Fine(RuleSuffix(kind, name))
  {
    hide Quoted;
    FineQuoted(name);
    FineAppend("-", Quoted(name));
    FineAppend("-" + Quoted(name), "-user");
  }

  lemma SuffixesFine(p: Plan)
    ensures forall suffix :: suffix in Suffixes(p) ==> Fine(suffix)
  {
    forall suffix | suffix in Suffixes(p)
      ensures Fine(suffix)
    {
      FlatMapIn(p.settings, SettingSuffix(), suffix);
      FlatMapIn(p.tables.roomRule.order, UserSuffix(), suffix);
      hide FlatMap, RuleSuffix, Fine;
      if x :| x in p.settings && suffix in SettingSuffix()(x) {
        FineSuffix("setting", x);
      } else if x :| x in p.tables.roomRule.order && suffix in UserSuffix()(x) {
        FineSuffix("setting-user", x);
      } else {
        FineEmpty();
      }
    }
  }

  lemma FineEmpty()
    ensures Fine("")
  {
  }

  ghost function SoundDeclaration(): Item -> bool {
    (item: Item) => Declares(item) && GoodItem(item) && CleanItem(item)
  }

  ghost function SoundBlock(): Item -> bool {
    (item: Item) => item.AclBlock? && GoodItem(item) && CleanItem(item)
  }

  lemma SoundSource(name: string, ips: seq<string>, wide: bool)
    requires Fine(name) && name != ""
    requires forall i :: 0 <= i < |ips| ==> Unmarked(ips[i])
    ensures SoundDeclaration()(AddressSource(name, ips, wide))
    ensures SoundDeclaration()(UserSource(name))
  {
    FineWord(name);
  }

  lemma SoundRooms(reg: Reg, p: Plan)
    requires Plans(reg, p) && PlainText(reg)
    ensures forall x, i :: x in p.tables.roomIPs.order && 0 <= i < |RoomSource(p.tables)(x)| ==>
              SoundDeclaration()(RoomSource(p.tables)(x)[i])
  {
    hide RoomName, Fine, SoundDeclaration, IsGroup, Descending, HostgroupPrefix, KnownRoom, Words, Redirect, Unmarked;
    forall x | x in p.tables.roomIPs.order
      ensures SoundDeclaration()(RoomSource(p.tables)(x)[0])
    {
      FineNames(x);
      assert p.tables.roomIPs.items[x] == RoomAddresses(reg, x);
      SoundSource(RoomName(x), RoomAddresses(reg, x), false);
    }
  }

  lemma FineHostName(key: string)
    requires StartsWith(key, HostgroupPrefix()) && key != HostgroupPrefix()
    ensures Fine(HostNameOf(key)) && HostNameOf(key) != ""
  {
    hide Quoted, Fine;
    FineQuoted(HostName(key));
    assert Suffix(key, HostgroupPrefix()) != "" by {
      assert key == HostgroupPrefix() + Suffix(key, HostgroupPrefix());
    }
  }

  lemma SoundHosts(reg: Reg, p: Plan)
    requires Plans(reg, p) && PlainText(reg) && Printable(reg)
    ensures forall x, i ::
      x in p.hosts && 0 <= i < |HostSource(p.reg)(x)| ==> SoundDeclaration()(HostSource(p.reg)(x)[i])
  {
    hide HostNameOf, HostAddresses, Fine, SoundDeclaration, IsGroup, Descending, HostgroupPrefix, Reads, Redirect,
      Unmarked, IsWord;
    forall x | x in p.hosts
      ensures SoundDeclaration()(HostSource(p.reg)(x)[0])
    {
      FineHostName(x);
      assert IsHostKey(reg, x);
      SoundSource(HostNameOf(x), HostAddresses(reg, x), true);
    }
  }

  lemma SoundGroups(p: Plan)
    ensures forall x, i :: x in p.groups && 0 <= i < |GroupSource()(x)| ==> SoundDeclaration()(GroupSource()(x)[i])
  {
    hide GroupFile, Fine, SoundDeclaration;
    forall x: Group
      ensures SoundDeclaration()(GroupSource()(x)[0])
    {
      FineNames(x.name);
      SoundSource(GroupFile(x.name), [], false);
    }
  }

  lemma SoundList(color: string, past: string, suffix: string)
    requires Fine(color) && Fine(past) && Fine(suffix) && color != "" && past != ""
    ensures SoundDeclaration()(ListItem(color, past, suffix))
  {
    FineAppend(color, suffix);
    FineAppend(past, "-domain");
    FineAppend(past + "-domain", suffix);
    FineAppend(past, "-url");
    FineAppend(past + "-url", suffix);
    assert "-" + "domain" == "-domain" && "-" + "url" == "-url";
    hide Fine;
    FineWord(color + suffix);
    FineWord(ListFile(past, "domain", suffix));
    FineWord(ListFile(past, "url", suffix));
  }

  lemma SoundDestsOf(suffix: string)
    requires Fine(suffix)
    ensures forall i :: 0 <= i < |RuleDests()(suffix)| ==> SoundDeclaration()(RuleDests()(suffix)[i])
  {
    assert Fine("blacklist") && Fine("blacklisted") && Fine("whitelist") && Fine("whitelisted");
    SoundList("blacklist", "blacklisted", suffix);
    SoundList("whitelist", "whitelisted", suffix);
    hide Fine, SoundDeclaration, ListItem;
  }

  lemma SoundDests(p: Plan)
    ensures forall x, i :: x in Suffixes(p) && 0 <= i < |RuleDests()(x)| ==> SoundDeclaration()(RuleDests()(x)[i])
  {
    SuffixesFine(p);
    hide *;
    forall x | x in Suffixes(p)
      ensures forall i :: 0 <= i < |RuleDests()(x)| ==> SoundDeclaration()(RuleDests()(x)[i])
    {
      SoundDestsOf(x);
    }
  }

  ghost predicate All(items: seq<Item>, good: Item -> bool) {
    forall i :: 0 <= i < |items| ==> good(items[i])
  }

  lemma AllAppend(a: seq<Item>, b: seq<Item>, good: Item -> bool)
    requires All(a, good) && All(b, good)
    ensures All(a + b, good)
  {
  }

  lemma SoundSources(reg: Reg, p: Plan)
    requires Plans(reg, p) && PlainText(reg) && Printable(reg)
    ensures All(Sources(p), SoundDeclaration())
  {
    hide SoundDeclaration, RoomSource, HostSource, GroupSource, Plans, PlainText, Printable, FlatMap;
    var good := SoundDeclaration();
    var rooms, hosts := FlatMap(p.tables.roomIPs.order, RoomSource(p.tables)), FlatMap(p.hosts, HostSource(p.reg));
    SoundRooms(reg, p);
    SoundHosts(reg, p);
    SoundGroups(p);
    EveryItem(p.tables.roomIPs.order, RoomSource(p.tables), good);
    EveryItem(p.hosts, HostSource(p.reg), good);
    EveryItem(p.groups, GroupSource(), good);
    AllAppend(rooms, hosts, good);
    AllAppend(rooms + hosts, FlatMap(p.groups, GroupSource()), good);
  }

  lemma SoundDeclarations(reg: Reg, p: Plan, home: string, d: bool, u: bool)
    requires Plans(reg, p) && PlainText(reg) && Printable(reg)
    ensures All(ScriptOf(p, home, d, u).declarations, SoundDeclaration())
  {
    var good := SoundDeclaration();
    assert good(GlobalDest(d, u));
    hide FlatMap, SoundDeclaration, Sources, RuleDests, Suffixes, Plans, PlainText, Printable, Blocks;
    SoundSources(reg, p);
    SoundDests(p);
    EveryItem(Suffixes(p), RuleDests(), good);
    AllAppend(Sources(p), Dests(p), good);
    AllAppend(Sources(p) + Dests(p), [GlobalDest(d, u)], good);
  }

  // ---------- access blocks ----------

  lemma SoundBlockItem(style: Style, name: string, pass: seq<string>, redirect: string)
    requires Fine(name) && name != "" && Unmarked(redirect)
    requires pass != [] && forall i :: 0 <= i < |pass| ==> IsTerm(pass[i])
    ensures SoundBlock()(AclBlock(style, name, pass, redirect))
  {
    FineWord(name);
    forall i | 0 <= i < |pass|
      ensures IsWord(pass[i]) && Clear(pass[i])
    {
      hide Fine;
      TermWord(pass[i]);
    }
  }

  /** A non-empty term without white space or comment character. */
  predicate IsTerm(s: string) {
    s != "" && forall i :: 0 <= i < |s| ==> '!' <= s[i] <= '~' && s[i] != '#'
  }

  lemma TermWord(s: string)
    requires IsTerm(s)
    ensures IsWord(s) && Clear(s)
  {
  }

  ghost predicate Terms(pass: seq<string>) {
    forall i :: 0 <= i < |pass| ==> IsTerm(pass[i])
  }

  lemma ListTerms(suffix: string)
    requires Fine(suffix)
    ensures IsTerm(White(suffix)) && IsTerm("!" + Black(suffix)) && IsTerm("!" + GLOBAL) && IsTerm("all")
    ensures IsTerm("none")
  {
    assert Fine("whitelist") && Fine("blacklist") && Fine(GLOBAL);
    FineAppend("whitelist", suffix);
    FineAppend("blacklist", suffix);
  }

  lemma PassTerms(filterType: string, suffix: string, forced: bool)
    requires Fine(suffix)
    ensures Terms(RoomPass(filterType, suffix, forced)) && Terms(GroupPass(filterType, suffix, forced))
    ensures Terms(WhitePass(filterType, suffix, forced))
  {
    ListTerms(suffix);
    hide IsTerm, White, Black, Fine;
  }

  lemma SoundBlockOrNone(style: Style, name: string, pass: seq<string>, redirect: string)
    requires Fine(name) && name != "" && Unmarked(redirect) && Terms(pass)
    ensures All(BlockOrNone(style, name, pass, redirect), SoundBlock())
  {
    hide Fine, SoundBlock, IsWord, Unmarked;
    if pass != [] {
      SoundBlockItem(style, name, pass, redirect);
    }
  }

  lemma SoundHostBlocks(reg: Reg, p: Plan)
    requires Plans(reg, p) && PlainText(reg) && Printable(reg)
    ensures All(FlatMap(p.hosts, HostBlock(p.redirect)), SoundBlock())
  {
    hide HostNameOf, HostAddresses, RoomAddresses, Fine, SoundBlock, IsGroup, Descending, HostgroupPrefix, Reads,
      Unmarked, IsWord, FlatMap, IsTerm, Redirect;
    assert IsTerm("none") by { NoneTerm(); }
    forall x, i | x in p.hosts && 0 <= i < |HostBlock(p.redirect)(x)|
      ensures SoundBlock()(HostBlock(p.redirect)(x)[i])
    {
      FineHostName(x);
      SoundBlockItem(Wide, HostNameOf(x), ["none"], p.redirect);
    }
    EveryItem(p.hosts, HostBlock(p.redirect), SoundBlock());
  }

  lemma NoneTerm()
    ensures IsTerm("none")
  {
  }

  lemma RulePassTerms(p: Plan, rule: string)
    ensures Terms(RulePass(p, rule))
  {
    hide RoomPass, RuleSuffix, FilterType, IsTerm;
    var kind := if rule in p.tables.roomRules then "setting-user" else "setting";
    FineSuffix(kind, rule);
    PassTerms(FilterType(p.reg, kind, rule), RuleSuffix(kind, rule), p.forced);
  }

  lemma SoundRoomBlocks(p: Plan)
    requires Unmarked(p.redirect)
    ensures All(FlatMap(p.tables.roomRule.order, RuleBlocks(p)), SoundBlock())
  {
    hide RoomName, RulePass, Fine, SoundBlock, FlatMap, Terms, BlockOrNone, IsWord, Unmarked;
    var good := SoundBlock();
    forall rule, i | rule in p.tables.roomRule.order && 0 <= i < |RuleBlocks(p)(rule)|
      ensures good(RuleBlocks(p)(rule)[i])
    {
      forall room, j | room in RoomsOf(p.tables.roomRule, rule) && 0 <= j < |RoomBlock(p, rule)(room)|
        ensures good(RoomBlock(p, rule)(room)[j])
      {
        FineNames(room);
        RulePassTerms(p, rule);
        SoundBlockOrNone(Narrow, RoomName(room), RulePass(p, rule), p.redirect);
      }
      EveryItem(RoomsOf(p.tables.roomRule, rule), RoomBlock(p, rule), good);
    }
    EveryItem(p.tables.roomRule.order, RuleBlocks(p), good);
  }

  lemma SoundGroupBlocks(p: Plan)
    requires Unmarked(p.redirect)
    ensures All(FlatMap(p.groups, GroupBlock(p)), SoundBlock())
  {
    hide GroupFile, GroupPass, RuleSuffix, FilterType, Fine, SoundBlock, FlatMap, Terms, BlockOrNone, IsWord, Unmarked;
    var good := SoundBlock();
    forall g, i | g in p.groups && 0 <= i < |GroupBlock(p)(g)|
      ensures good(GroupBlock(p)(g)[i])
    {
      FineNames(g.name);
      FineSuffix("setting", g.rule);
      PassTerms(FilterType(p.reg, "setting", g.rule), RuleSuffix("setting", g.rule), p.forced);
      SoundBlockOrNone(Wide, GroupFile(g.name), PassOfGroup(p, g), p.redirect);
    }
    EveryItem(p.groups, GroupBlock(p), good);
  }

  lemma SoundBlocks(reg: Reg, p: Plan)
    requires Plans(reg, p) && PlainText(reg) && Printable(reg)
    ensures All(Blocks(p), SoundBlock())
  {
    hide FlatMap, SoundBlock, Plans, PlainText, Printable, HostBlock, RuleBlocks, GroupBlock, DefaultBlock, IsWord,
      Unmarked;
    var good := SoundBlock();
    PlainRedirect(reg, p);
    SoundHostBlocks(reg, p);
    SoundRoomBlocks(p);
    SoundGroupBlocks(p);
    SoundDefault(p);
    var hosts, rooms := FlatMap(p.hosts, HostBlock(p.redirect)), FlatMap(p.tables.roomRule.order, RuleBlocks(p));
    var groups := FlatMap(p.groups, GroupBlock(p));
    AllAppend(hosts, rooms, good);
    AllAppend(hosts + rooms, groups, good);
    AllAppend(hosts + rooms + groups, [DefaultBlock(p)], good);
  }

  lemma PlainRedirect(reg: Reg, p: Plan)
    requires Plans(reg, p) && PlainText(reg)
    ensures Unmarked(p.redirect)
  {
    hide IsWord, Unmarked, Redirect, Reads, IsGroup, HostgroupPrefix, RoomAddresses, HostAddresses;
  }

  lemma SoundDefault(p: Plan)
    requires Unmarked(p.redirect)
    ensures SoundBlock()(DefaultBlock(p))
  {
    assert Fine("default");
    FineEmpty();
    hide SoundBlock, WhitePass, IsWord, Unmarked, Fine;
    PassTerms(WBP, "", p.forced);
    DefaultNotEmpty(p.forced);
    SoundBlockItem(Last, "default", WhitePass(WBP, "", p.forced), p.redirect);
  }

  lemma DefaultNotEmpty(forced: bool)
    ensures WhitePass(WBP, "", forced) != []
  {
  }

  /** The printed text is well formed whatever the registry's names are, whatever blanks the addresses hold;
      only newlines and the mark are kept out of what is printed as it is. */
  lemma CleanPlan(reg: Reg, p: Plan, home: string, d: bool, u: bool)
    requires Plans(reg, p) && PlainText(reg) && Printable(reg)
    requires IsWord(home + "/") && Clear(home)
    ensures CleanScript(ScriptOf(p, home, d, u)) && GoodScript(ScriptOf(p, home, d, u))
  {
    hide Sources, Dests, Blocks, Plans, PlainText, Printable, IsWord, Clear, GoodItem, CleanItem, Declares;
    var s := ScriptOf(p, home, d, u);
    SoundDeclarations(reg, p, home, d, u);
    SoundBlocks(reg, p);
    SoundMeans(s.declarations, s.blocks);
    HeaderGood(home);
  }

  ghost function RedirectsTo(redirect: string): Item -> bool {
    (item: Item) => item.AclBlock? && item.redirect == redirect
  }

  lemma RedirectOrNone(style: Style, name: string, pass: seq<string>, redirect: string)
    ensures All(BlockOrNone(style, name, pass, redirect), RedirectsTo(redirect))
  {
  }

  lemma RedirectRooms(p: Plan)
    ensures All(FlatMap(p.tables.roomRule.order, RuleBlocks(p)), RedirectsTo(p.redirect))
  {
    hide RoomName, RulePass, FlatMap, BlockOrNone, RedirectsTo;
    var good := RedirectsTo(p.redirect);
    forall rule, i | rule in p.tables.roomRule.order && 0 <= i < |RuleBlocks(p)(rule)|
      ensures good(RuleBlocks(p)(rule)[i])
    {
      forall room, j | room in RoomsOf(p.tables.roomRule, rule) && 0 <= j < |RoomBlock(p, rule)(room)|
        ensures good(RoomBlock(p, rule)(room)[j])
      {
        RedirectOrNone(Narrow, RoomName(room), RulePass(p, rule), p.redirect);
      }
      EveryItem(RoomsOf(p.tables.roomRule, rule), RoomBlock(p, rule), good);
    }
    EveryItem(p.tables.roomRule.order, RuleBlocks(p), good);
  }

  lemma RedirectHostsAndGroups(p: Plan)
    ensures All(FlatMap(p.hosts, HostBlock(p.redirect)), RedirectsTo(p.redirect))
    ensures All(FlatMap(p.groups, GroupBlock(p)), RedirectsTo(p.redirect))
  {
    hide HostNameOf, GroupFile, GroupPass, RuleSuffix, FilterType, FlatMap, BlockOrNone;
    var good := RedirectsTo(p.redirect);
    EveryItem(p.hosts, HostBlock(p.redirect), good);
    hide RedirectsTo;
    forall g, i | g in p.groups && 0 <= i < |GroupBlock(p)(g)|
      ensures good(GroupBlock(p)(g)[i])
    {
      RedirectOrNone(Wide, GroupFile(g.name), PassOfGroup(p, g), p.redirect);
    }
    EveryItem(p.groups, GroupBlock(p), good);
  }

  lemma RedirectDefault(p: Plan)
    ensures RedirectsTo(p.redirect)(DefaultBlock(p))
  {
    hide WhitePass;
  }

  /** Every block has the registry's one redirect target, and there is at least the default block. */
  lemma RedirectBlocks(p: Plan)
    ensures All(Blocks(p), RedirectsTo(p.redirect)) && Blocks(p) != []
  {
    hide FlatMap, RedirectsTo, DefaultBlock, HostBlock, RuleBlocks, GroupBlock;
    var good := RedirectsTo(p.redirect);
    RedirectDefault(p);
    var hosts, rooms := FlatMap(p.hosts, HostBlock(p.redirect)), FlatMap(p.tables.roomRule.order, RuleBlocks(p));
    var groups := FlatMap(p.groups, GroupBlock(p));
    RedirectHostsAndGroups(p);
    RedirectRooms(p);
    AllAppend(hosts, rooms, good);
    AllAppend(hosts + rooms, groups, good);
    AllAppend(hosts + rooms + groups, [DefaultBlock(p)], good);
  }

  /** The text printed for a plan is read back as the plan's configuration if and only if the redirect target is
      one word; otherwise squidGuard reads nothing. */
  lemma ParsePlan(reg: Reg, p: Plan, home: string, d: bool, u: bool)
    requires Plans(reg, p) && PlainText(reg) && Printable(reg)
    requires IsWord(home + "/") && Clear(home)
    ensures Parse(Render(ScriptOf(p, home, d, u)))
         == if Readable(p.redirect) then Some(Meaning(ScriptOf(p, home, d, u))) else None
  {
    hide Sources, Dests, Plans, PlainText, Printable, IsWord, Clear, GoodItem, CleanItem, Declares, CleanScript,
      GoodScript, Render, Meaning, Parse, Readable, Blocks;
    var s := ScriptOf(p, home, d, u);
    CleanPlan(reg, p, home, d, u);
    RedirectBlocks(p);
    forall i | 0 <= i < |s.blocks|
      ensures s.blocks[i].AclBlock? && s.blocks[i].redirect == p.redirect
    {
      assert RedirectsTo(p.redirect)(s.blocks[i]);
    }
    if Readable(p.redirect) {
      ParseRendered(s);
    } else {
      ParseUnreadable(s);
    }
  }

  lemma HeaderGood(home: string)
    requires IsWord(home + "/")
    ensures GoodItem(Header(home))
  {
  }

  lemma SoundMeans(declarations: seq<Item>, blocks: seq<Item>)
    requires All(declarations, SoundDeclaration()) && All(blocks, SoundBlock())
    ensures forall i :: 0 <= i < |declarations| ==>
              Declares(declarations[i]) && GoodItem(declarations[i]) && CleanItem(declarations[i])
    ensures forall i :: 0 <= i < |blocks| ==>
              blocks[i].AclBlock? && blocks[i].pass != [] && GoodItem(blocks[i]) && CleanItem(blocks[i])
  {
    forall i | 0 <= i < |blocks|
      ensures blocks[i].AclBlock? && blocks[i].pass != []
    {
      assert SoundBlock()(blocks[i]);
    }
    hide Declares, GoodItem, CleanItem;
    forall i | 0 <= i < |declarations|
      ensures Declares(declarations[i]) && GoodItem(declarations[i]) && CleanItem(declarations[i])
    {
      assert SoundDeclaration()(declarations[i]);
    }
    forall i | 0 <= i < |blocks|
      ensures GoodItem(blocks[i]) && CleanItem(blocks[i])
    {
      assert SoundBlock()(blocks[i]);
    }
  }

  // ---------- the published script ----------

  lemma {:induction false} EnabledAppend(a: seq<Item>, b: seq<Item>)
    ensures Enabled(a + b) == Enabled(a) + Enabled(b)
  {
    if b == [] {
      assert a + b == a;
    } else {
      var init, last := b[..|b| - 1], b[|b| - 1];
      EnabledAppend(a, init);
      assert (a + b)[..|a + b| - 1] == a + init;
    }
  }

  lemma {:induction false} EnabledSame(items: seq<Item>)
    requires forall i :: 0 <= i < |items| ==> !items[i].GlobalDest?
    ensures Enabled(items) == items
  {
    if items != [] {
      EnabledSame(items[..|items| - 1]);
    }
  }

  lemma OnlyLists(p: Plan)
    ensures All(Sources(p), (item: Item) => !item.GlobalDest?) && All(Dests(p), (item: Item) => !item.GlobalDest?)
  {
    hide FlatMap, Suffixes, RoomName, HostNameOf, GroupFile, ListItem;
    var good := (item: Item) => !item.GlobalDest?;
    EveryItem(p.tables.roomIPs.order, RoomSource(p.tables), good);
    EveryItem(p.hosts, HostSource(p.reg), good);
    EveryItem(p.groups, GroupSource(), good);
    ListItemsPlain();
    EveryItem(Suffixes(p), RuleDests(), good);
    AllAppend(FlatMap(p.tables.roomIPs.order, RoomSource(p.tables)), FlatMap(p.hosts, HostSource(p.reg)), good);
    AllAppend(FlatMap(p.tables.roomIPs.order, RoomSource(p.tables)) + FlatMap(p.hosts, HostSource(p.reg)),
              FlatMap(p.groups, GroupSource()), good);
  }

  lemma ListItemsPlain()
    ensures forall color, past, name :: ListItem(color, past, name).ListDest?
  {
  }

  lemma EnabledDeclarations(p: Plan, d: bool, u: bool)
    ensures Enabled(Sources(p) + Dests(p) + [GlobalDest(d, u)]) == Sources(p) + Dests(p) + [GlobalDest(true, true)]
  {
    OnlyLists(p);
    assert Enabled([GlobalDest(d, u)]) == [GlobalDest(true, true)];
    hide Sources, Dests, Enabled;
    EnabledSame(Sources(p));
    EnabledSame(Dests(p));
    EnabledAppend(Sources(p), Dests(p));
    EnabledAppend(Sources(p) + Dests(p), [GlobalDest(d, u)]);
  }

  lemma ScriptParts(p: Plan, home: string, d: bool, u: bool)
    ensures ScriptOf(p, home, d, u) == Script(home, Sources(p) + Dests(p) + [GlobalDest(d, u)], Blocks(p))
  {
    hide Sources, Dests, Blocks;
  }

  lemma PublishedParts(s: Script, data: string)
    ensures Published(s, data) == Script(data, Enabled(s.declarations), s.blocks)
  {
    hide Enabled;
  }

  lemma PublishedScript(p: Plan, temp: string, data: string, d: bool, u: bool)
    ensures Published(ScriptOf(p, temp, d, u), data) == ScriptOf(p, data, true, true)
  {
    hide *;
    ScriptParts(p, temp, d, u);
    ScriptParts(p, data, true, true);
    PublishedParts(ScriptOf(p, temp, d, u), data);
    EnabledDeclarations(p, d, u);
  }
}
