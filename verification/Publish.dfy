/** One run of the handler: list files are prepared in a temporary directory and then published. */
module Publish {
  import opened Options
  import opened Text
  import opened Quote
  import opened Registry
  import opened Rooms
  import opened Lists
  import opened SquidGuard
  import opened Printing
  import opened Rendering
  import opened Compiler
  import opened Policy
  import opened Closure

  const DATA := "/var/lib" + "/ucs-school-webproxy"
  const CONFIG := "squidGuard.conf"
  const DOMAIN_KEY := "windows/domain"

  // ---------- what a live configuration needs ----------

  ghost predicate NamedBySource(cfg: Config, file: string) {
    exists s :: s in cfg.sources && file in s.userlists
  }

  ghost predicate NamedByDest(cfg: Config, file: string) {
    exists d :: d in cfg.dests && (d.domainlist == Some(file) || d.urllist == Some(file))
  }

  ghost predicate Names(cfg: Config, file: string) {
    NamedBySource(cfg, file) || NamedByDest(cfg, file)
  }

  /** Every list file the live configuration names exists. */
  ghost predicate LiveClosed(live: Option<string>, data: Files) {
    live.Some? && Parse(live.value).Some? ==> forall file :: Names(Parse(live.value).value, file) ==> file in data
  }

  lemma LiveClosedGrows(live: Option<string>, data: Files, data': Files)
    requires LiveClosed(live, data) && forall file :: file in data ==> file in data'
    ensures LiveClosed(live, data')
  {
  }

  /** The files a configuration names are the created ones and the global lists. */
  lemma NamedFiles(p: Plan, home: string, file: string)
    ensures Names(Final(p, home), file) <==> file in TouchList(p) || file == GLOBAL_DOMAINS || file == GLOBAL_URLS
  {
    hide Meaning, ScriptOf, Suffixes, FlatMap, ListFile, GroupFile;
    NamedUserlists(p, home, file);
    NamedLists(p, home, file);
  }

  lemma NamedUserlists(p: Plan, home: string, file: string)
    ensures NamedBySource(Final(p, home), file) <==> file in FlatMap(p.groups, GroupFiles())
  {
    SourcesOf(p, home, true, true);
    FlatMapIn(p.groups, GroupFiles(), file);
    hide Meaning, ScriptOf, FlatMap, GroupFile, RoomSources, HostSources, GroupSources, RoomName, HostNameOf,
      HostAddresses;
    var cfg := Final(p, home);
    if s :| s in cfg.sources && file in s.userlists {
      RoomSourceIn(p, s);
      HostSourceIn(p, s);
      GroupSourceNames(p.groups, s);
    }
    if file in FlatMap(p.groups, GroupFiles()) {
      var g :| g in p.groups && file in GroupFiles()(g);
      GroupSourceIn(p.groups, g);
      var s := Source(GroupFile(g.name), [], [GroupFile(g.name)]);
      assert s in cfg.sources && file in s.userlists;
    }
  }

  lemma GroupSourceNames(groups: seq<Group>, s: Source)
    requires s in GroupSources(groups)
    ensures exists g :: g in groups && s == Source(GroupFile(g.name), [], [GroupFile(g.name)])
  {
    TwoFlat(groups, GroupSource(), SourceOf, s);
    hide FlatMap, GroupFile;
  }

  lemma NamedLists(p: Plan, home: string, file: string)
    ensures NamedByDest(Final(p, home), file) <==>
            file in FlatMap(Suffixes(p), FourFiles()) || file == GLOBAL_DOMAINS || file == GLOBAL_URLS
  {
    DestsOf(p, home);
    FlatMapIn(Suffixes(p), FourFiles(), file);
    hide Meaning, ScriptOf, FlatMap, Suffixes, ListFile, Dests;
    var cfg := Final(p, home);
    var global := Dest(GLOBAL, Some(GLOBAL_DOMAINS), Some(GLOBAL_URLS));
    assert global in cfg.dests;
    if d :| d in cfg.dests && (d.domainlist == Some(file) || d.urllist == Some(file)) {
      if d in FlatMap(Dests(p), DestOf) {
        DestIn(p, d);
        var suffix :| suffix in Suffixes(p) && OneOfLists(d, suffix);
        FileInFour(suffix, file);
      }
    }
    if file in FlatMap(Suffixes(p), FourFiles()) {
      var suffix :| suffix in Suffixes(p) && file in FourFiles()(suffix);
      FileInFour(suffix, file);
      var w, b := ListsNamed("whitelist", "whitelisted", suffix), ListsNamed("blacklist", "blacklisted", suffix);
      assert OneOfLists(w, suffix) && OneOfLists(b, suffix);
      DestIn(p, w);
      DestIn(p, b);
      assert w in cfg.dests && b in cfg.dests;
    }
  }

  lemma FileInFour(suffix: string, file: string)
    ensures file in FourFiles()(suffix) <==>
      || file == ListFile("blacklisted", "domain", suffix) || file == ListFile("blacklisted", "url", suffix)
      || file == ListFile("whitelisted", "domain", suffix) || file == ListFile("whitelisted", "url", suffix)
  {
    hide ListFile;
  }

  // ---------- what the prepared files hold ----------

  /** Registry keys hold no newline, and no user's own rule has an empty name. */
  ghost predicate ProperKeys(reg: Reg) {
    && (forall key :: key in reg ==> '\n' !in key)
    && !HasUserRule(reg, "")
  }

  /** Group names hold no slash, so that each group has one key. */
  ghost predicate PlainGroups(reg: Reg) {
    forall key :: key in reg && StartsWith(key, Prefix("usergroup")) ==> '/' !in Suffix(key, Prefix("usergroup"))
  }

  /** The files the source creates empty. */
  ghost predicate Touched(p: Plan, files: Files) {
    forall file :: file in files <==> file in TouchList(p)
  }

  function GlobalFiles(changes: set<string>, domains: seq<string>, urls: seq<string>): Files {
    (if DOMAINS_KEY in changes then map[GLOBAL_DOMAINS := domains] else map[])
    + (if URLS_KEY in changes then map[GLOBAL_URLS := urls] else map[])
  }

  /** The files of one run, in the order they are written. */
  ghost predicate Prepared(reg: Reg, keys: seq<string>, domain: string, p: Plan, global: Files, files: Files) {
    exists touched, groups, general ::
      && Touched(p, touched) && (forall file :: file in touched ==> touched[file] == [])
      && WroteGroups(reg, domain, touched + global, groups)
      && Wrote(reg, keys, OwnerSlots(General), groups, general)
      && Wrote(reg, keys, SlotsOf(RuleOwners(reg)), general, files)
  }

  lemma Stages(reg: Reg, keys: seq<string>, domain: string, p: Plan, global: Files, files: Files)
    returns (touched: Files, groups: Files, general: Files)
    requires Prepared(reg, keys, domain, p, global, files)
    ensures Touched(p, touched) && forall file :: file in touched ==> touched[file] == []
    ensures WroteGroups(reg, domain, touched + global, groups)
    ensures Wrote(reg, keys, OwnerSlots(General), groups, general)
    ensures Wrote(reg, keys, SlotsOf(RuleOwners(reg)), general, files)
  {
    touched, groups, general :| Touched(p, touched) && (forall file :: file in touched ==> touched[file] == [])
      && WroteGroups(reg, domain, touched + global, groups)
      && Wrote(reg, keys, OwnerSlots(General), groups, general)
      && Wrote(reg, keys, SlotsOf(RuleOwners(reg)), general, files);
    hide Touched, WroteGroups, Wrote, SlotsOf, OwnerSlots, RuleOwners;
  }

  lemma FirstLetters(s: Slot, group: string)
    requires GoodSlot(s)
    ensures FileOf(s) != GroupFile(group) && FileOf(s) != GLOBAL_DOMAINS && FileOf(s) != GLOBAL_URLS
    ensures FileOf(s) != CONFIG
    ensures GroupFile(group) != GLOBAL_DOMAINS && GroupFile(group) != GLOBAL_URLS && GroupFile(group) != CONFIG
    ensures GLOBAL_DOMAINS != GLOBAL_URLS && GLOBAL_DOMAINS != CONFIG && GLOBAL_URLS != CONFIG
  {
    hide OwnerSuffix, Quoted;
    assert FileOf(s)[0] == s.item[0];
    assert GroupFile(group)[0] == 'u' && GLOBAL_DOMAINS[0] == 'g' && GLOBAL_URLS[0] == 'g' && CONFIG[0] == 's';
    assert |GLOBAL_DOMAINS| != |GLOBAL_URLS|;
  }

  lemma TouchedNames(p: Plan, file: string)
    requires file in TouchList(p)
    ensures file != GLOBAL_DOMAINS && file != GLOBAL_URLS && file != CONFIG
  {
    hide Suffixes, GroupFile, ListFile;
    FlatMapIn(p.groups, GroupFiles(), file);
    FlatMapIn(Suffixes(p), FourFiles(), file);
    hide FlatMap;
    if g :| g in p.groups && file in GroupFiles()(g) {
      FirstLetters(Slot(General, "url", "blacklisted"), g.name);
    } else {
      var suffix :| suffix in Suffixes(p) && file in FourFiles()(suffix);
      FileInFour(suffix, file);
      FourLetters(suffix);
    }
  }

  lemma FourLetters(suffix: string)
    ensures forall past, filter :: IsCombo(filter, past) ==>
              var f := ListFile(past, filter, suffix); f != GLOBAL_DOMAINS && f != GLOBAL_URLS && f != CONFIG
  {
    assert GLOBAL_DOMAINS[0] == 'g' && GLOBAL_URLS[0] == 'g' && CONFIG[0] == 's';
    forall past, filter | IsCombo(filter, past)
      ensures ListFile(past, filter, suffix)[0] == past[0]
    {
    }
  }

  lemma SlotsGood(reg: Reg, s: Slot)
    requires s in SlotsOf(RuleOwners(reg)) || s in OwnerSlots(General)
    ensures GoodSlot(s) && (s in SlotsOf(RuleOwners(reg)) ==> s.owner in RuleOwners(reg))
  {
    hide RuleOwners;
    if s in SlotsOf(RuleOwners(reg)) {
      RuleOwnersGood(reg, s.owner);
    }
  }

  /** A file that is none of the written lists is as it was before the lists were written. */
  lemma Unwritten(reg: Reg, keys: seq<string>, slots: set<Slot>, before: Files, after: Files, file: string)
    requires Wrote(reg, keys, slots, before, after) && forall s :: s in slots ==> FileOf(s) != file
    ensures file in after <==> file in before
    ensures file in after ==> after[file] == before[file]
  {
    hide FileOf, SlotLines;
  }

  lemma PreparedGroup(reg: Reg, keys: seq<string>, domain: string, p: Plan, global: Files, files: Files, group: string)
    requires Prepared(reg, keys, domain, p, global, files)
    requires exists key :: IsGroupKey(reg, key, group)
    ensures HasGroupFile(reg, domain, files, group)
  {
    hide Prepared, IsGroupKey, SlotsOf, OwnerSlots, RuleOwners, Wrote, Touched, GroupFile, FileOf, GoodSlot,
      HasGroupFile;
    var touched, groups, general := Stages(reg, keys, domain, p, global, files);
    var key :| IsGroupKey(reg, key, group);
    assert HasGroupFile(reg, domain, groups, group);
    hide WroteGroups;
    GroupFileStays(reg, keys, domain, OwnerSlots(General), groups, general, group);
    GroupFileStays(reg, keys, domain, SlotsOf(RuleOwners(reg)), general, files, group);
  }

  /** Writing rules' lists leaves the members of a group alone. */
  lemma GroupFileStays(reg: Reg, keys: seq<string>, domain: string, slots: set<Slot>, before: Files, after: Files,
                       group: string)
    requires Wrote(reg, keys, slots, before, after) && HasGroupFile(reg, domain, before, group)
    requires slots == OwnerSlots(General) || slots == SlotsOf(RuleOwners(reg))
    ensures HasGroupFile(reg, domain, after, group)
  {
    hide IsGroupKey, SlotsOf, OwnerSlots, RuleOwners, Wrote, GroupFile, FileOf, GoodSlot, MemberLines;
    forall s | s in slots
      ensures FileOf(s) != GroupFile(group)
    {
      SlotsGood(reg, s);
      FirstLetters(s, group);
    }
    Unwritten(reg, keys, slots, before, after, GroupFile(group));
  }

  /** Every list of the registry holds exactly one line for each of its entries. */
  lemma PreparedSlot(reg: Reg, keys: seq<string>, domain: string, p: Plan, global: Files, files: Files, s: Slot)
    requires Prepared(reg, keys, domain, p, global, files)
    requires s in OwnerSlots(General) || s in SlotsOf(RuleOwners(reg))
    ensures FileOf(s) in files && files[FileOf(s)] == SlotLines(reg, keys, s)
  {
    hide Prepared, WroteGroups, Touched, FileOf, SlotLines, SlotsOf, RuleOwners;
    var touched, groups, general := Stages(reg, keys, domain, p, global, files);
    if s !in SlotsOf(RuleOwners(reg)) {
      forall t | t in SlotsOf(RuleOwners(reg))
        ensures FileOf(t) != FileOf(s)
      {
        SlotsGood(reg, t);
        SlotsGood(reg, s);
        if FileOf(t) == FileOf(s) {
          FileOfInjective(s, t);
        }
      }
      Unwritten(reg, keys, SlotsOf(RuleOwners(reg)), general, files, FileOf(s));
    }
  }

  ghost predicate WrittenList(reg: Reg, file: string) {
    exists s :: (s in OwnerSlots(General) || s in SlotsOf(RuleOwners(reg))) && FileOf(s) == file
  }

  /** A file that no list and no group is written to is as it was created. */
  lemma PreparedOther(reg: Reg, keys: seq<string>, domain: string, p: Plan, global: Files, files: Files, file: string)
    requires Prepared(reg, keys, domain, p, global, files)
    requires !WrittenList(reg, file) && !IsGroupFile(reg, file)
    ensures file in files <==> file in TouchList(p) || file in global
    ensures file in files ==> files[file] == if file in global then global[file] else []
  {
    hide Prepared, TouchList, IsGroupFile, HasGroupFile, SlotsOf, RuleOwners, OwnerSlots, FileOf;
    var touched, groups, general := Stages(reg, keys, domain, p, global, files);
    assert file in groups <==> file in touched + global;
    assert file in groups ==> groups[file] == (touched + global)[file];
    hide WroteGroups;
    Unwritten(reg, keys, OwnerSlots(General), groups, general, file);
    Unwritten(reg, keys, SlotsOf(RuleOwners(reg)), general, files, file);
  }

  lemma NotWritten(reg: Reg, file: string)
    requires file == GLOBAL_DOMAINS || file == GLOBAL_URLS || file == CONFIG
    ensures !WrittenList(reg, file) && !IsGroupFile(reg, file)
  {
    hide FileOf, GroupFile, SlotsOf, RuleOwners, OwnerSlots, IsGroupKey, GoodSlot;
    if s :| (s in OwnerSlots(General) || s in SlotsOf(RuleOwners(reg))) && FileOf(s) == file {
      SlotsGood(reg, s);
      FirstLetters(s, "");
    }
    if key, group :| IsGroupKey(reg, key, group) && GroupFile(group) == file {
      GroupLetters(group);
    }
  }

  lemma GroupLetters(group: string)
    ensures GroupFile(group) != GLOBAL_DOMAINS && GroupFile(group) != GLOBAL_URLS && GroupFile(group) != CONFIG
  {
    FirstLetters(Slot(General, "url", "blacklisted"), group);
  }

  /** All created files are there; the global lists are there exactly when they are rewritten; nothing is
      called like the configuration, so every file can be moved out. */
  lemma PreparedNames(reg: Reg, keys: seq<string>, domain: string, p: Plan, global: Files, files: Files)
    requires Prepared(reg, keys, domain, p, global, files)
    requires forall file :: file in global ==> file == GLOBAL_DOMAINS || file == GLOBAL_URLS
    ensures forall file :: file in TouchList(p) ==> file in files
    ensures forall file :: file == GLOBAL_DOMAINS || file == GLOBAL_URLS ==>
              (file in files <==> file in global) && (file in global ==> files[file] == global[file])
    ensures CONFIG !in files
  {
    forall file | file in TouchList(p)
      ensures file in files
    {
      TouchedStay(reg, keys, domain, p, global, files, file);
    }
    hide TouchList, Prepared, WrittenList, IsGroupFile;
    forall file | file == GLOBAL_DOMAINS || file == GLOBAL_URLS || file == CONFIG
      ensures file in files <==> file in global
      ensures file in global ==> files[file] == global[file]
    {
      NotWritten(reg, file);
      PreparedOther(reg, keys, domain, p, global, files, file);
      if file in TouchList(p) {
        TouchedNames(p, file);
      }
    }
    GroupLetters("");
    ConfigApart();
  }

  lemma ConfigApart()
    ensures CONFIG != GLOBAL_DOMAINS && CONFIG != GLOBAL_URLS
  {
    assert GLOBAL_DOMAINS[0] == 'g' && GLOBAL_URLS[0] == 'g' && CONFIG[0] == 's';
  }

  lemma TouchedStay(reg: Reg, keys: seq<string>, domain: string, p: Plan, global: Files, files: Files, file: string)
    requires Prepared(reg, keys, domain, p, global, files) && file in TouchList(p)
    ensures file in files
  {
    hide Prepared, TouchList, IsGroupFile, HasGroupFile, SlotsOf, RuleOwners, OwnerSlots, FileOf, SlotLines, GoodSlot;
    var touched, groups, general := Stages(reg, keys, domain, p, global, files);
  }

  lemma JoinedRest(s: string)
    requires |Split(s, '/')| >= 2
    ensures s == Split(s, '/')[0] + "/" + Join(Split(s, '/')[1..], '/')
  {
    JoinSplit(s, '/');
  }

  /** A key under a rule's entry prefix names that rule. */
  lemma EntryNamed(key: string, s: Slot)
    requires GoodSlot(s) && s.owner.RuleOwner? && s.owner.name != ""
    requires '\n' !in key && StartsWith(key, SlotPrefix(s))
    ensures Named(key, s.owner.kind) == Some(s.owner.name)
  {
    hide Split, Join, Prefix, EntryPrefix, GeneralPrefix;
    EntrySegments(key, s.owner.kind, s.owner.name, s.filter, s.item);
    var rest := Suffix(key, Prefix(s.owner.kind));
    JoinedRest(rest);
    var tail := Join(Split(rest, '/')[1..], '/');
    forall i | 0 <= i < |tail|
      ensures tail[i] != '\n'
    {
      assert tail[i] in rest;
      assert tail[i] in key;
    }
  }

  /** A rule that is written nowhere has no entries. */
  lemma UnwrittenOwnerHasNoEntries(reg: Reg, s: Slot, line: string)
    requires ProperKeys(reg) && GoodSlot(s) && s.owner.RuleOwner? && s.owner.name != ""
    requires s.owner !in RuleOwners(reg)
    ensures !IsEntry(reg, SlotPrefix(s), s.filter, line)
  {
    hide Named, SlotPrefix, Stripped;
    if key :| key in reg && StartsWith(key, SlotPrefix(s)) && Stripped(reg[key], s.filter) == line {
      EntryNamed(key, s);
    }
  }

  lemma UserRuleName(reg: Reg, user: string)
    requires HasUserRule(reg, user)
    ensures '/' !in user
  {
    hide Prefix;
    var k :| k in reg && UserRuleOf(k) == Some(user);
    KindSegment(k, "setting-user");
  }

  lemma PlanOwnerGood(reg: Reg, p: Plan, o: Owner)
    requires Plans(reg, p) && PlanOwner(p, o) && ProperKeys(reg)
    ensures GoodOwner(o) && (o.RuleOwner? ==> o.name != "")
    ensures o.RuleOwner? && o.kind == "setting" ==> o in RuleOwners(reg)
  {
    hide IsGroup, Descending, HostgroupPrefix, ReadsIPs, ReadsRules;
    if o.RuleOwner? {
      if o.kind == "setting" {
        assert o.name in SettingNames(reg);
        var k :| k in reg && Named(k, "setting") == Some(o.name);
      } else {
        UserRuleName(reg, o.name);
      }
    }
  }

  lemma PreparedPlanSlot(reg: Reg, keys: seq<string>, domain: string, p: Plan, global: Files, files: Files, s: Slot)
    requires Prepared(reg, keys, domain, p, global, files) && Plans(reg, p) && ProperKeys(reg)
    requires IsEnumeration(keys, reg)
    requires forall file :: file in global ==> file == GLOBAL_DOMAINS || file == GLOBAL_URLS
    requires PlanOwner(p, s.owner) && s in OwnerSlots(s.owner)
    ensures HoldsSlot(reg, files, s)
  {
    hide Prepared, Plans, FileOf, SlotPrefix, RuleOwners, IsEntry, PlanOwner, ProperKeys;
    PlanOwnerGood(reg, p, s.owner);
    if s.owner.General? || s.owner in RuleOwners(reg) {
      assert s in OwnerSlots(General) || s in SlotsOf(RuleOwners(reg));
      PreparedSlot(reg, keys, domain, p, global, files, s);
      forall line
        ensures line in files[FileOf(s)] <==> IsEntry(reg, SlotPrefix(s), s.filter, line)
      {
        EntryLinesExact(reg, keys, SlotPrefix(s), s.filter, line);
      }
    } else {
      assert GoodSlot(s);
      UnwrittenSlot(reg, s);
      OwnerFileTouched(reg, p, s);
      PreparedOther(reg, keys, domain, p, global, files, FileOf(s));
      FirstLetters(s, "");
      forall line
        ensures !IsEntry(reg, SlotPrefix(s), s.filter, line)
      {
        UnwrittenOwnerHasNoEntries(reg, s, line);
      }
    }
  }

  lemma UnwrittenSlot(reg: Reg, s: Slot)
    requires GoodSlot(s) && s.owner.RuleOwner? && s.owner !in RuleOwners(reg)
    ensures !WrittenList(reg, FileOf(s)) && !IsGroupFile(reg, FileOf(s))
  {
    hide FileOf, GroupFile, RuleOwners, IsGroupKey, GoodSlot;
    if t :| (t in OwnerSlots(General) || t in SlotsOf(RuleOwners(reg))) && FileOf(t) == FileOf(s) {
      SlotsGood(reg, t);
      FileOfInjective(s, t);
    }
    if key, group :| IsGroupKey(reg, key, group) && GroupFile(group) == FileOf(s) {
      FirstLetters(s, group);
    }
  }

  lemma OwnerFileTouched(reg: Reg, p: Plan, s: Slot)
    requires Plans(reg, p) && PlanOwner(p, s.owner) && GoodSlot(s)
    ensures FileOf(s) in TouchList(p)
  {
    assert p.tables.roomRule.Valid();
    hide Suffixes, ListFile, OwnerSuffix, Plans, PlanOwner;
    OwnerSuffixListed(p, s.owner);
    FileInFour(OwnerSuffix(s.owner), FileOf(s));
    FlatMapIn(Suffixes(p), FourFiles(), FileOf(s));
  }

  // ---------- group members ----------

  lemma GroupKeyPlain(reg: Reg, key: string, group: string)
    requires PlainGroups(reg) && IsGroupKey(reg, key, group)
    ensures key == UsergroupKey(group)
  {
    hide Split, Prefix;
    var rest := Suffix(key, Prefix("usergroup"));
    assert key == Prefix("usergroup") + rest;
    PrefixSegments("usergroup", rest);
    SplitOne(rest, '/');
    assert Split(key, '/') == ["proxy", "filter", "usergroup"] + [rest];
    assert LastSegment(key) == rest;
  }

  lemma MemberOfLines(reg: Reg, domain: string, group: string, user: string)
    requires UsergroupKey(group) in reg
    ensures user in MemberLines(domain, reg[UsergroupKey(group)]) <==> Member(reg, domain, group, user)
  {
    var members := Split(reg[UsergroupKey(group)], ',');
    FlatMapIn(members, MemberLine(domain), user);
    hide Split, FlatMap, UsergroupKey;
  }

  lemma PreparedMembers(reg: Reg, keys: seq<string>, domain: string, p: Plan, global: Files, files: Files, g: Group)
    requires Prepared(reg, keys, domain, p, global, files) && Plans(reg, p) && PlainGroups(reg) && g in p.groups
    ensures HoldsMembers(reg, domain, files, g.name)
  {
    assert IsGroup(reg, g);
    hide Prepared, Plans, HasGroupFile, HoldsMembers, IsGroupKey, PlainGroups;
    PreparedGroup(reg, keys, domain, p, global, files, g.name);
    MembersHeld(reg, domain, files, g.name);
  }

  lemma MembersHeld(reg: Reg, domain: string, files: Files, group: string)
    requires PlainGroups(reg) && HasGroupFile(reg, domain, files, group)
    ensures HoldsMembers(reg, domain, files, group)
  {
    hide StartsWith, LastSegment, Prefix, PlainGroups, GroupFile, MemberLines, Member, UsergroupKey;
    var key :| IsGroupKey(reg, key, group) && files[GroupFile(group)] == MemberLines(domain, reg[key]);
    GroupKeyPlain(reg, key, group);
    forall user
      ensures user in files[GroupFile(group)] <==> Member(reg, domain, group, user)
    {
      MemberOfLines(reg, domain, group, user);
    }
  }

  /** The prepared files hold what the registry says, also for rules that have no file of their own written. */
  lemma PreparedHolds(reg: Reg, keys: seq<string>, domain: string, p: Plan, global: Files, files: Files)
    requires Prepared(reg, keys, domain, p, global, files) && Plans(reg, p) && IsEnumeration(keys, reg)
    requires ProperKeys(reg) && PlainGroups(reg)
    requires forall file :: file in global ==> file == GLOBAL_DOMAINS || file == GLOBAL_URLS
    ensures HoldsLists(reg, domain, p, files)
  {
    hide Prepared, Plans, HoldsSlot, HoldsMembers, PlanOwner, ProperKeys, PlainGroups, IsEnumeration;
    forall o | PlanOwner(p, o)
      ensures HoldsOwner(reg, files, o)
    {
      forall s | s in OwnerSlots(o)
        ensures HoldsSlot(reg, files, s)
      {
        assert s.owner == o;
        PreparedPlanSlot(reg, keys, domain, p, global, files, s);
      }
    }
    forall g | g in p.groups
      ensures HoldsMembers(reg, domain, files, g.name)
    {
      PreparedMembers(reg, keys, domain, p, global, files, g);
    }
  }
}
