/** What is live after a run, in plain terms: who may see what, where blocked requests go, and what the lists hold. */
module LivePlain {
  import opened Options
  import opened Text
  import opened Quote
  import opened Registry
  import opened Rooms
  import opened Lists
  import opened SquidGuard
  import opened Printing
  import opened Rendering
  import opened Compiler
  import opened Access
  import opened Policy
  import opened Closure
  import opened Publish
  import opened Proxy
  import opened Readings
  import opened PlainPolicy
  import opened Runs
  import Plain

  // ---------- what a run needs ----------

  lemma RunnableExactly(reg: Reg)
    ensures Runnable(reg) <==> Plain.CanRun(reg)
    ensures Redirect(reg) == Plain.RedirectTo(reg)
  {
    OtherKeysExactly("");
    hide HostgroupPrefix;
  }

  // ---------- the redirect ----------

  lemma ReadableExactly(s: string)
    ensures Readable(s) <==> exists w :: Plain.OnlyWord(s, w)
    ensures Readable(s) ==> Plain.OnlyWord(s, Target(s))
  {
    hide Words, Plain.OnlyWord;
    if Readable(s) {
      OneWordExactly(s, Words(s)[0]);
      assert Words(s) == [Words(s)[0]];
    }
    if w :| Plain.OnlyWord(s, w) {
      OneWordExactly(s, w);
    }
  }

  /** Every block sends blocked requests to the same place. */
  lemma EveryRedirect(p: Plan, home: string, a: Acl)
    requires a in Final(p, home).acls
    ensures a.redirect == Target(p.redirect)
  {
    AclsOf(p, home, true, true);
    HostAclIn(p, a);
    RoomAclIn(p, a);
    GroupAclIn(p, a);
    hide HostAcls, RoomAcls, GroupAcls, Meaning, ScriptOf, Target, WhitePass;
  }

  lemma GlobalExactly(files: Files, request: Request)
    ensures GlobalHit(files, request) <==> Plain.OnGlobal(files, request)
  {
    assert GLOBAL_DOMAINS == "global-blacklist-domains" && GLOBAL_URLS == "global-blacklist-urls";
  }

  // ---------- what is live ----------

  /** The configuration stands in the data directory, sends blocked requests to the registry's target, and decides
      as the registry reads. */
  ghost predicate Follows(reg: Reg, forced: bool, cfg: Config, data: Files, client: Client, request: Request)
    requires Plain.CanRun(reg)
  {
    && cfg.dbhome == "/var/lib/ucs-school-webproxy/"
    && (forall a :: a in cfg.acls ==> Plain.OnlyWord(Plain.RedirectTo(reg).value, a.redirect))
    && (ClearNames(reg) ==>
          Plain.Reading(reg, reg["windows/domain"], forced, Plain.OnGlobal(data, request), client, request,
                        Decide(cfg, data, client, request)))
  }

  /** What is live can be read exactly when the redirect target is one word, and is then followed. */
  ghost predicate LiveSite(reg: Reg, forced: bool, live: Option<string>, data: Files, client: Client,
                           request: Request) {
    && Plain.CanRun(reg) && live.Some?
    && (Parse(live.value).Some? <==> exists w :: Plain.OnlyWord(Plain.RedirectTo(reg).value, w))
    && (Parse(live.value).Some? ==> Follows(reg, forced, Parse(live.value).value, data, client, request))
  }

  lemma HomeExactly(p: Plan)
    ensures Final(p, DATA).dbhome == "/var/lib/ucs-school-webproxy/" && DOMAIN_KEY == "windows/domain"
  {
    hide FlatMap, Sources, Dests, Blocks;
  }

  lemma DecidesPlainly(reg: Reg, p: Plan, data: Files, client: Client, request: Request)
    requires "windows/domain" in reg && Plans(reg, p) && HoldsLists(reg, reg["windows/domain"], p, data)
    requires ClearNames(reg)
    ensures Plain.Reading(reg, reg["windows/domain"], p.forced, Plain.OnGlobal(data, request), client, request,
                          Decide(Final(p, DATA), data, client, request))
  {
    hide *;
    GlobalExactly(data, request);
    PolicyPreserved(reg, reg["windows/domain"], p, DATA, data, client, request);
    SaysExactly(reg, reg["windows/domain"], p.forced, GlobalHit(data, request), client, request,
                Decide(Final(p, DATA), data, client, request));
  }

  lemma RedirectsPlainly(reg: Reg, p: Plan)
    requires Plain.CanRun(reg) && Plans(reg, p) && Readable(p.redirect)
    ensures forall a :: a in Final(p, DATA).acls ==> Plain.OnlyWord(Plain.RedirectTo(reg).value, a.redirect)
  {
    hide *;
    CanRunRedirect(reg);
    PlannedRedirect(reg, p);
    RunnableExactly(reg);
    ReadableExactly(p.redirect);
    forall a | a in Final(p, DATA).acls
      ensures Plain.OnlyWord(Plain.RedirectTo(reg).value, a.redirect)
    {
      EveryRedirect(p, DATA, a);
    }
  }

  lemma FinalFollows(reg: Reg, p: Plan, data: Files, client: Client, request: Request)
    requires Plain.CanRun(reg) && Plans(reg, p) && Readable(p.redirect)
    requires HoldsLists(reg, reg["windows/domain"], p, data)
    ensures Follows(reg, p.forced, Final(p, DATA), data, client, request)
  {
    hide *;
    HomeExactly(p);
    CanRunRedirect(reg);
    RedirectsPlainly(reg, p);
    if ClearNames(reg) {
      DecidesPlainly(reg, p, data, client, request);
    }
    Followed(reg, p.forced, Final(p, DATA), data, client, request);
  }

  lemma Followed(reg: Reg, forced: bool, cfg: Config, data: Files, client: Client, request: Request)
    requires Plain.CanRun(reg) && cfg.dbhome == "/var/lib/ucs-school-webproxy/"
    requires forall a :: a in cfg.acls ==> Plain.OnlyWord(Plain.RedirectTo(reg).value, a.redirect)
    requires ClearNames(reg) ==>
      Plain.Reading(reg, reg["windows/domain"], forced, Plain.OnGlobal(data, request), client, request,
                    Decide(cfg, data, client, request))
    ensures Follows(reg, forced, cfg, data, client, request)
  {
    hide Plain.OnlyWord, Plain.Reading, Decide, ClearNames, Plain.OnGlobal;
  }

  /** After a finished run squidGuard can read what is live exactly when the redirect target is one word; then every
      request of every client is decided as the registry reads in plain terms. */
  lemma LiveFollows(reg: Reg, keys: seq<string>, tempName: string, forced: bool, changes: set<string>,
                    domains: seq<string>, urls: seq<string>, p: Plan, files: Files, before: Files, after: Files,
                    live: Option<string>, client: Client, request: Request)
    requires IsEnumeration(keys, reg) && DirectoryName(tempName)
    requires PublishesRun(reg, keys, tempName, forced, changes, domains, urls, p, files, before, after, live)
    requires PlainText(reg) && ProperKeys(reg) && PlainGroups(reg)
    ensures LiveSite(reg, forced, live, after, client, request)
  {
    hide *;
    RunFacts(reg, keys, tempName, forced, changes, domains, urls, p, files, before, after, live);
    RunRunnable(reg, keys, tempName, forced, changes, domains, urls, p, files, before, after, live);
    RunnableExactly(reg);
    PlannedRedirect(reg, p);
    ReadableExactly(p.redirect);
    CanRunRedirect(reg);
    HomeExactly(p);
    PublishedMeaning(reg, p, tempName, Extended(changes, before));
    LiveLists(reg, keys, tempName, forced, changes, domains, urls, p, files, before, after, live);
    if Readable(p.redirect) {
      FinalFollows(reg, p, after, client, request);
    }
    Live(reg, forced, live, after, client, request);
  }

  lemma Live(reg: Reg, forced: bool, live: Option<string>, data: Files, client: Client, request: Request)
    requires Plain.CanRun(reg) && live.Some?
    requires Parse(live.value).Some? <==> exists w :: Plain.OnlyWord(Plain.RedirectTo(reg).value, w)
    requires Parse(live.value).Some? ==> Follows(reg, forced, Parse(live.value).value, data, client, request)
    ensures LiveSite(reg, forced, live, data, client, request)
  {
    hide Parse, Follows, Plain.OnlyWord;
  }

  lemma RunRunnable(reg: Reg, keys: seq<string>, tempName: string, forced: bool, changes: set<string>,
                    domains: seq<string>, urls: seq<string>, p: Plan, files: Files, before: Files, after: Files,
                    live: Option<string>)
    requires PublishesRun(reg, keys, tempName, forced, changes, domains, urls, p, files, before, after, live)
    ensures Runnable(reg)
  {
    hide Runnable, Plans, Prepared, PublishedText, GlobalFiles, Extended;
  }

  lemma CanRunRedirect(reg: Reg)
    requires Plain.CanRun(reg)
    ensures Plain.RedirectTo(reg).Some? && "windows/domain" in reg
  {
  }

  // ---------- what a rule's type does ----------

  /** The decision under a rule, by the type the registry names for it; without a type it is the first one, and under
      an unknown type the default decides. */
  ghost predicate ByType(reg: Reg, kind: string, rule: string, forced: bool, global: bool, request: Request,
                         d: Decision) {
    var base := "proxy/filter/" + kind + "/" + rule + "/";
    var key := base + "filtertype";
    var white, black := Plain.EntryHit(reg, base, "whitelisted", request),
      Plain.EntryHit(reg, base, "blacklisted", request);
    && (key in reg && reg[key] == "whitelist-block" ==>
          d == if white && !(forced && global) then Pass else Block)
    && (key in reg && reg[key] == "blacklist-pass" ==>
          d == if !black && !global then Pass else Block)
    && (key !in reg || reg[key] == "whitelist-blacklist-pass" ==>
          d == if (white && !(forced && global)) || (!white && !black && !global) then Pass else Block)
    && (key in reg && reg[key] != "whitelist-block" && reg[key] != "blacklist-pass"
         && reg[key] != "whitelist-blacklist-pass"
        ==> d == if Plain.DefaultPermits(reg, forced, global, request) then Pass else Block)
  }

  lemma PermitsByType(reg: Reg, kind: string, rule: string, forced: bool, global: bool, request: Request)
    ensures ByType(reg, kind, rule, forced, global, request,
                   Plain.Answer(Plain.RulePermits(reg, kind, rule, forced, global, request)))
  {
    assert |"whitelist-block"| != |"blacklist-pass"| && |"whitelist-block"| != |"whitelist-blacklist-pass"|;
    assert |"blacklist-pass"| != |"whitelist-blacklist-pass"|;
    var base := "proxy/filter/" + kind + "/" + rule + "/";
    assert base + "filtertype" == "proxy/filter/" + kind + "/" + rule + "/filtertype";
    hide Plain.EntryHit, Plain.DefaultPermits;
  }

  /** A client in one room, whose rule exists: what is live decides by the type the registry names for that rule, a
      user's own rule going before a shared one of the same name. */
  lemma RoomByType(reg: Reg, forced: bool, cfg: Config, data: Files, client: Client, request: Request, room: string,
                   kind: string, rule: string)
    requires Plain.CanRun(reg) && Follows(reg, forced, cfg, data, client, request) && ClearNames(reg)
    requires Plain.InRoom(reg, room, client) && forall r :: Plain.InRoom(reg, r, client) ==> r == room
    requires var key := "proxy/filter/room/" + room + "/rule"; key in reg && reg[key] == rule
    requires (kind == "setting-user" && Plain.Own(reg, rule))
             || (kind == "setting" && !Plain.Own(reg, rule) && Plain.Defined(reg, "setting", rule))
    ensures ByType(reg, kind, rule, forced, Plain.OnGlobal(data, request), request, Decide(cfg, data, client, request))
  {
    PermitsByType(reg, kind, rule, forced, Plain.OnGlobal(data, request), request);
    assert |"setting"| != |"setting-user"|;
    hide ByType, Plain.CanRun, Plain.InRoom, Plain.OnGlobal, Decide, ClearNames, Plain.RulePermits,
      Plain.DefaultPermits, Plain.Own, Plain.Defined, Plain.OnlyWord;
  }

  /** A client in no room and at no blocked host is decided by the type of the rule of the user's foremost group. */
  lemma GroupByType(reg: Reg, forced: bool, cfg: Config, data: Files, client: Client, request: Request, group: string,
                    rule: string)
    requires Plain.CanRun(reg) && Follows(reg, forced, cfg, data, client, request) && ClearNames(reg)
    requires !(exists room :: Plain.InRoom(reg, room, client)) && !(exists key :: Plain.BlockedBy(reg, key, client))
    requires Plain.Foremost(reg, reg["windows/domain"], group, rule, client.user)
    ensures ByType(reg, "setting", rule, forced, Plain.OnGlobal(data, request), request,
      Decide(cfg, data, client, request))
  {
    var domain, d, global := reg["windows/domain"], Decide(cfg, data, client, request), Plain.OnGlobal(data, request);
    assert Plain.Applies(reg, domain, group, rule, client.user);
    hide Plain.CanRun, Plain.InRoom, Plain.BlockedBy, Plain.Applies, Plain.Foremost, Plain.OnGlobal, Decide, ClearNames,
      Plain.RulePermits, Plain.OnlyWord, ByType;
    var g, r :| Plain.Foremost(reg, domain, g, r, client.user)
      && d == Plain.Answer(Plain.RulePermits(reg, "setting", r, forced, global, request));
    OneForemost(reg, domain, group, rule, g, r, client.user);
    PermitsByType(reg, "setting", rule, forced, global, request);
  }

  /** There is only one foremost group. */
  lemma OneForemost(reg: Reg, domain: string, g: string, r: string, h: string, t: string, user: string)
    requires Plain.Foremost(reg, domain, g, r, user) && Plain.Foremost(reg, domain, h, t, user)
    ensures g == h && r == t
  {
    hide Plain.InGroup, Plain.Defined, Plain.PriorityOf, Plain.Later;
    assert Plain.Applies(reg, domain, g, r, user) && Plain.Applies(reg, domain, h, t, user);
    LaterTotal(g, h);
  }

  lemma LaterTotal(a: string, b: string)
    ensures a == b || Plain.Later(a, b) || Plain.Later(b, a)
  {
    LaterExactly(a, b);
    LaterExactly(b, a);
    hide Plain.Later;
    LessTotal(a, b);
  }

  lemma {:induction false} LessTotal(a: string, b: string)
    ensures a == b || StrLess(a, b) || StrLess(b, a)
  {
    if a != "" && b != "" && a[0] == b[0] {
      LessTotal(a[1..], b[1..]);
      assert a == [a[0]] + a[1..] && b == [b[0]] + b[1..];
    }
  }

  /** A room whose rule has another type than the three has no block of its own. */
  lemma UnknownRoomType(reg: Reg, p: Plan, room: string, kind: string, rule: string)
    requires Plans(reg, p) && ClearNames(reg) && '/' !in room
    requires var key := "proxy/filter/room/" + room + "/rule"; key in reg && reg[key] == rule
    requires (kind == "setting-user" && Plain.Own(reg, rule)) || (kind == "setting" && !Plain.Own(reg, rule))
    requires var key := "proxy/filter/" + kind + "/" + rule + "/filtertype";
      key in reg && reg[key] !in {"whitelist-blacklist-pass", "whitelist-block", "blacklist-pass"}
    ensures forall a :: a in Final(p, DATA).acls ==> a.name != "room-" + Quoted(room)
  {
    RoomKeysExactly(room);
    OwnRuleExactly(reg, rule);
    TypeExactly(reg, kind, rule);
    assert |"setting"| != |"setting-user"|;
    assert KnownRoom(reg, room) && RoomName(room) == "room-" + Quoted(room);
    assert !RoomRuled(reg, room) by {
      hide FilterType, HasUserRule, SettingNames;
    }
    hide Plans, ClearNames, KnownRoom, RoomName, RoomRuled, Final, Plain.Own;
    NoRoomBlock(reg, p, room);
  }

  lemma NoRoomBlock(reg: Reg, p: Plan, room: string)
    requires Plans(reg, p) && ClearNames(reg) && KnownRoom(reg, room) && !RoomRuled(reg, room)
    ensures forall a :: a in Final(p, DATA).acls ==> a.name != RoomName(room)
  {
    assert !Taken(reg, RoomName(room)) by {
      hide KnownRoom, IsHostKey, HostNameOf, IsGroup;
    }
    hide Plans, ClearNames, KnownRoom, RoomRuled, Final, Taken, FindAcl, PassOfRoom, RoomName;
    RoomAcl(reg, p, DATA, room);
    RuledHasPass(reg, p, room);
    FindAclIn(Final(p, DATA).acls, RoomName(room));
  }

  /** Nor has a group whose rule has another type. */
  lemma UnknownGroupType(reg: Reg, p: Plan, g: Group)
    requires Plans(reg, p) && ClearNames(reg) && IsGroup(reg, g)
    requires var key := "proxy/filter/setting/" + g.rule + "/filtertype";
      key in reg && reg[key] !in {"whitelist-blacklist-pass", "whitelist-block", "blacklist-pass"}
    ensures forall a :: a in Final(p, DATA).acls ==> a.name != "usergroup-" + Quoted(g.name)
  {
    UnknownShared(reg, g.rule);
    assert GroupFile(g.name) == "usergroup-" + Quoted(g.name);
    hide *;
    NoGroupBlock(reg, p, g);
  }

  lemma UnknownShared(reg: Reg, rule: string)
    requires var key := "proxy/filter/setting/" + rule + "/filtertype";
      key in reg && reg[key] !in {"whitelist-blacklist-pass", "whitelist-block", "blacklist-pass"}
    ensures !KnownType(FilterType(reg, "setting", rule))
  {
    TypeExactly(reg, "setting", rule);
    assert "proxy/filter/" + "setting" + "/" + rule + "/filtertype" == "proxy/filter/setting/" + rule + "/filtertype";
    hide FilterType, KnownType;
  }

  lemma NoGroupBlock(reg: Reg, p: Plan, g: Group)
    requires Plans(reg, p) && ClearNames(reg) && IsGroup(reg, g) && !KnownType(FilterType(reg, "setting", g.rule))
    ensures forall a :: a in Final(p, DATA).acls ==> a.name != GroupFile(g.name)
  {
    NotTakenGroup(reg, g);
    hide Plans, ClearNames, IsGroup, GroupFile, Final, FilterType, Taken, FindAcl, PassOfGroup, KnownType;
    GroupAcl(reg, p, DATA, g);
    GroupHasPass(reg, p, g);
    FindAclIn(Final(p, DATA).acls, GroupFile(g.name));
  }

  lemma NotTakenGroup(reg: Reg, g: Group)
    requires ClearNames(reg) && IsGroup(reg, g)
    ensures !Taken(reg, GroupFile(g.name))
  {
    hide KnownRoom, IsHostKey, HostNameOf, IsGroup;
  }

  // ---------- the general lists ----------

  /** Whom the default decides, it blocks on a request that falls under an entry of the general black lists and is on
      no general white list. */
  lemma BlacklistedBlocked(reg: Reg, forced: bool, cfg: Config, data: Files, client: Client, request: Request,
                           key: string)
    requires Plain.CanRun(reg) && Follows(reg, forced, cfg, data, client, request) && ClearNames(reg)
    requires !(exists room :: Plain.InRoom(reg, room, client)) && !(exists k :: Plain.BlockedBy(reg, k, client))
    requires !(exists group, rule :: Plain.Applies(reg, reg["windows/domain"], group, rule, client.user))
    requires key in reg
      && ((("proxy/filter/domain/blacklisted/" <= key && request.inDomain(Plain.Written(reg[key], "domain"))))
          || ("proxy/filter/url/blacklisted/" <= key && request.inUrl(Plain.Written(reg[key], "url"))))
    requires forall k :: k in reg ==>
      && ("proxy/filter/domain/whitelisted/" <= k ==> !request.inDomain(Plain.Written(reg[k], "domain")))
      && ("proxy/filter/url/whitelisted/" <= k ==> !request.inUrl(Plain.Written(reg[k], "url")))
    ensures Decide(cfg, data, client, request) == Block
  {
    GeneralBases();
    hide Plain.Written, Plain.CanRun, Plain.InRoom, Plain.BlockedBy, Plain.Applies, Plain.OnGlobal, Decide, ClearNames,
      Plain.OnlyWord;
    assert Plain.EntryHit(reg, "proxy/filter/", "blacklisted", request);
    assert !Plain.EntryHit(reg, "proxy/filter/", "whitelisted", request);
    hide Plain.EntryHit;
  }

  lemma GeneralBases()
    ensures "proxy/filter/" + "domain/" + "blacklisted" + "/" == "proxy/filter/domain/blacklisted/"
    ensures "proxy/filter/" + "domain/" + "whitelisted" + "/" == "proxy/filter/domain/whitelisted/"
    ensures "proxy/filter/" + "url/" + "blacklisted" + "/" == "proxy/filter/url/blacklisted/"
    ensures "proxy/filter/" + "url/" + "whitelisted" + "/" == "proxy/filter/url/whitelisted/"
  {
  }

  // ---------- the lists that are live ----------

  lemma SlotHeld(reg: Reg, files: Files, o: Owner, base: string, ending: string, filter: string, item: string)
    requires HoldsSlot(reg, files, Slot(o, filter, item)) && OwnBase(o, base, ending)
    ensures Plain.HoldsLines(files, item + "-" + filter + ending, reg, base + filter + "/" + item + "/", filter)
  {
    SlotNames(o, base, ending, filter, item);
    var prefix := base + filter + "/" + item + "/";
    forall line
      ensures IsEntry(reg, prefix, filter, line)
        <==> exists key :: key in reg && prefix <= key && Plain.Written(reg[key], filter) == line
    {
      EntryExactly(reg, prefix, filter, line);
    }
    hide IsEntry, FileOf, SlotPrefix, Plain.Written, OwnBase;
  }

  lemma OwnerHeld(reg: Reg, files: Files, o: Owner, base: string, ending: string)
    requires HoldsOwner(reg, files, o) && OwnBase(o, base, ending)
    ensures Plain.HoldsFour(files, reg, base, ending)
  {
    FourNames(base, ending);
    FourHeld(reg, files, o);
    hide OwnBase, Plain.HoldsLines, HoldsSlot, HoldsOwner;
    SlotHeld(reg, files, o, base, ending, "domain", "blacklisted");
    SlotHeld(reg, files, o, base, ending, "domain", "whitelisted");
    SlotHeld(reg, files, o, base, ending, "url", "blacklisted");
    SlotHeld(reg, files, o, base, ending, "url", "whitelisted");
  }

  lemma FourHeld(reg: Reg, files: Files, o: Owner)
    requires HoldsOwner(reg, files, o)
    ensures HoldsSlot(reg, files, Slot(o, "domain", "blacklisted"))
    ensures HoldsSlot(reg, files, Slot(o, "domain", "whitelisted"))
    ensures HoldsSlot(reg, files, Slot(o, "url", "blacklisted")) && HoldsSlot(reg, files, Slot(o, "url", "whitelisted"))
  {
    hide HoldsSlot;
    assert Slot(o, "domain", "blacklisted") in OwnerSlots(o) && Slot(o, "domain", "whitelisted") in OwnerSlots(o);
    assert Slot(o, "url", "blacklisted") in OwnerSlots(o) && Slot(o, "url", "whitelisted") in OwnerSlots(o);
  }

  /** After a finished run the general lists and those of every shared rule, as they lie in the data directory, hold
      the registry's entries. */
  lemma LiveListsExactly(reg: Reg, keys: seq<string>, tempName: string, forced: bool, changes: set<string>,
                         domains: seq<string>, urls: seq<string>, p: Plan, files: Files, before: Files, after: Files,
                         live: Option<string>, rule: string)
    requires IsEnumeration(keys, reg)
    requires PublishesRun(reg, keys, tempName, forced, changes, domains, urls, p, files, before, after, live)
    requires ProperKeys(reg) && PlainGroups(reg)
    ensures Plain.HoldsFour(after, reg, "proxy/filter/", "")
    ensures Plain.Defined(reg, "setting", rule) ==>
      Plain.HoldsFour(after, reg, "proxy/filter/setting/" + rule + "/", "-" + Quoted(rule))
  {
    hide *;
    RunFacts(reg, keys, tempName, forced, changes, domains, urls, p, files, before, after, live);
    LiveLists(reg, keys, tempName, forced, changes, domains, urls, p, files, before, after, live);
    PlannedOwners(reg, p, after, rule);
    OwnerHeld(reg, after, General, "proxy/filter/", "");
    if Plain.Defined(reg, "setting", rule) {
      OwnerHeld(reg, after, RuleOwner("setting", rule), "proxy/filter/setting/" + rule + "/", "-" + Quoted(rule));
    }
  }

  lemma PlannedOwners(reg: Reg, p: Plan, files: Files, rule: string)
    requires Plans(reg, p) && DOMAIN_KEY in reg && HoldsLists(reg, reg[DOMAIN_KEY], p, files)
    ensures HoldsOwner(reg, files, General) && OwnBase(General, "proxy/filter/", "")
    ensures Plain.Defined(reg, "setting", rule) ==>
      HoldsOwner(reg, files, RuleOwner("setting", rule))
      && OwnBase(RuleOwner("setting", rule), "proxy/filter/setting/" + rule + "/", "-" + Quoted(rule))
  {
    DefinedExactly(reg, rule);
    assert "proxy/filter/" + "setting" + "/" + rule + "/" == "proxy/filter/setting/" + rule + "/";
    assert PlanOwner(p, General) && (rule in p.settings ==> PlanOwner(p, RuleOwner("setting", rule)));
    hide HoldsOwner, PlanOwner, Plain.Defined, Reads, IsGroup, Descending, Redirect, Quoted;
  }

  // ---------- the global lists ----------

  /** A global list is what the run was given when its key is among the changes or it was missing, else as before. */
  ghost predicate GlobalList(key: string, file: string, lines: seq<string>, changes: set<string>, before: Files,
                             after: Files) {
    if key in changes || file !in before then file in after && after[file] == lines
    else file in after && after[file] == before[file]
  }

  lemma GlobalListsExactly(reg: Reg, keys: seq<string>, tempName: string, forced: bool, changes: set<string>,
                           domains: seq<string>, urls: seq<string>, p: Plan, files: Files, before: Files, after: Files,
                           live: Option<string>)
    requires PublishesRun(reg, keys, tempName, forced, changes, domains, urls, p, files, before, after, live)
    ensures GlobalList("proxy/filter/global/blacklists/domains", "global-blacklist-domains", domains, changes, before,
      after)
    ensures GlobalList("proxy/filter/global/blacklists/urls", "global-blacklist-urls", urls, changes, before, after)
  {
    hide *;
    var r := Run(reg, keys, tempName, forced, changes, domains, urls);
    RunPrepares(r, p, files, before, after, live);
    GlobalNames();
    OneGlobal(r, before, p, files, GLOBAL_DOMAINS, DOMAINS_KEY, domains);
    OneGlobal(r, before, p, files, GLOBAL_URLS, URLS_KEY, urls);
  }

  lemma RunPrepares(r: Run, p: Plan, files: Files, before: Files, after: Files, live: Option<string>)
    requires PublishesRun(r.reg, r.keys, r.tempName, r.forced, r.changes, r.domains, r.urls, p, files, before, after,
      live)
    ensures Prepares(r, before, p, files) && after == before + files
  {
    hide Runnable, Plans, Prepared, PublishedText, GlobalFiles, Extended;
  }

  lemma OneGlobal(r: Run, before: Files, p: Plan, files: Files, file: string, key: string, lines: seq<string>)
    requires Prepares(r, before, p, files)
    requires (file == GLOBAL_DOMAINS && key == DOMAINS_KEY && lines == r.domains)
             || (file == GLOBAL_URLS && key == URLS_KEY && lines == r.urls)
    ensures GlobalList(key, file, lines, r.changes, before, before + files)
  {
    hide *;
    KeysApart();
    GlobalParts(r, before, file, key, lines);
    PreparedGlobals(r, before, p, files, file);
    Landed(r, before, files, file, key, lines);
  }

  lemma GlobalParts(r: Run, before: Files, file: string, key: string, lines: seq<string>)
    requires GLOBAL_DOMAINS != GLOBAL_URLS
    requires (file == GLOBAL_DOMAINS && key == DOMAINS_KEY && lines == r.domains)
             || (file == GLOBAL_URLS && key == URLS_KEY && lines == r.urls)
    ensures IsGlobal(file) && GlobalLines(r, file) == lines
    ensures Due(r, before, file) <==> key in r.changes || file !in before
  {
  }

  lemma Landed(r: Run, before: Files, files: Files, file: string, key: string, lines: seq<string>)
    requires file in files <==> key in r.changes || file !in before
    requires file in files ==> Has(files, file, lines)
    ensures GlobalList(key, file, lines, r.changes, before, before + files)
  {
  }

  lemma GlobalNames()
    ensures GLOBAL_DOMAINS == "global-blacklist-domains" && GLOBAL_URLS == "global-blacklist-urls"
    ensures DOMAINS_KEY == "proxy/filter/global/blacklists/domains" && URLS_KEY == "proxy/filter/global/blacklists/urls"
  {
  }

  // ---------- names of blocked host groups ----------

  /** A blocked host group is printed under its quoted name, behind a prefix when that would start with a digit, since
      no name may. */
  lemma HostNamesExactly(n: string)
    requires n != ""
    ensures var name := HostNameOf("proxy/filter/hostgroup/blacklisted/" + n);
      && name == Quoted(if '0' <= n[0] <= '9' then "univention-" + n else n)
      && name != "" && !('0' <= name[0] <= '9')
  {
    OtherKeysExactly("");
    var key, raw := HostgroupPrefix() + n, if '0' <= n[0] <= '9' then "univention-" + n else n;
    assert Suffix(key, HostgroupPrefix()) == n;
    QuotedUnfold(raw);
    QuotedHead(raw);
    hide Quoted, HostgroupPrefix;
  }
}
