/** The direct reading of the registry, which the compiled configuration decides by, compared with the plain one. */
module PlainPolicy {
  import opened Options
  import opened Text
  import opened Registry
  import opened Rooms
  import opened Lists
  import opened SquidGuard
  import opened Compiler
  import opened Access
  import opened Policy
  import opened Readings
  import Plain

  // ---------- clients ----------

  lemma CoveredExactly(value: string, client: Client)
    ensures Covered(Words(value), client) <==> exists w :: Plain.Word(value, w) && client.covers(w)
  {
    forall w
      ensures w in Words(value) <==> Plain.Word(value, w)
    {
      WordsExactly(value, w);
    }
    hide Words, Plain.Word;
  }

  lemma RoomExactly(reg: Reg, room: string, client: Client)
    ensures RoomCovers(reg, room, client) <==> Plain.InRoom(reg, room, client)
  {
    RoomKeysExactly(room);
    if RoomIpKey(room) in reg {
      CoveredExactly(reg[RoomIpKey(room)], client);
    }
    hide RoomIpKey, RoomRuleKey, Words, Plain.Word;
  }

  lemma HostExactly(reg: Reg, key: string, client: Client)
    ensures HostCovers(reg, key, client) <==> Plain.BlockedBy(reg, key, client)
  {
    OtherKeysExactly("");
    StartExactly(key, HostgroupPrefix());
    if key in reg {
      CoveredExactly(reg[key], client);
    }
    hide HostgroupPrefix, Words, Plain.Word, StartsWith, Covered;
  }

  lemma MemberExactly(reg: Reg, domain: string, group: string, user: string)
    ensures Member(reg, domain, group, user) <==> Plain.InGroup(reg, domain, group, user)
  {
    OtherKeysExactly(group);
    if UsergroupKey(group) in reg {
      forall m
        ensures m in Split(reg[UsergroupKey(group)], ',') <==> Plain.Piece(reg[UsergroupKey(group)], ',', m)
      {
        PiecesExactly(reg[UsergroupKey(group)], ',', m);
      }
    }
    hide UsergroupKey, Split, Plain.Piece;
  }

  // ---------- groups ----------

  lemma GroupKeyExactly(reg: Reg, group: string)
    ensures (exists key :: IsGroupKey(reg, key, group)) ==> '/' !in group
    ensures UsergroupKey(group) in reg && '/' !in group ==> exists key :: IsGroupKey(reg, key, group)
  {
    if UsergroupKey(group) in reg && '/' !in group {
      PlainKey(reg, group);
    }
    hide StartsWith, Prefix, Split;
  }

  lemma PlainKey(reg: Reg, group: string)
    requires UsergroupKey(group) in reg && '/' !in group
    ensures IsGroupKey(reg, UsergroupKey(group), group)
  {
    hide Split, Prefix;
    PrefixSegments("usergroup", group);
    SplitOne(group, '/');
  }

  lemma CandidateExactly(reg: Reg, domain: string, g: Group, user: string)
    ensures Candidate(reg, domain, g, user) <==>
            Plain.Applies(reg, domain, g.name, g.rule, user) && g.priority == Plain.PriorityOf(reg, g.rule)
  {
    MemberExactly(reg, domain, g.name, user);
    GroupKeyExactly(reg, g.name);
    AssignedExactly(reg, g.name, g.rule);
    PriorityExactly(reg, g.rule);
    assert Member(reg, domain, g.name, user) ==> UsergroupKey(g.name) in reg;
    hide Member, UsergroupKey, IsGroupKey, AssignedRule, Priority, Plain.InGroup, Plain.Assigned, Plain.PriorityOf;
  }

  lemma {:induction false} LaterExactly(a: string, b: string)
    ensures StrLess(a, b) <==> Plain.Later(b, a)
  {
    if Plain.Later(b, a) {
      var n: nat :| Plain.LaterAt(b, a, n);
      LaterLess(a, b, n);
    }
    if StrLess(a, b) {
      var n := LessLater(a, b);
    }
  }

  lemma {:induction false} LaterLess(a: string, b: string, n: nat)
    requires Plain.LaterAt(b, a, n)
    ensures StrLess(a, b)
  {
    if n > 0 {
      assert a[..n][0] == b[..n][0] && a[1..][..n - 1] == a[..n][1..] && b[1..][..n - 1] == b[..n][1..];
      LaterLess(a[1..], b[1..], n - 1);
    }
  }

  lemma {:induction false} LessLater(a: string, b: string) returns (n: nat)
    requires StrLess(a, b)
    ensures Plain.LaterAt(b, a, n)
  {
    if a == "" || a[0] < b[0] {
      n := 0;
    } else {
      var m := LessLater(a[1..], b[1..]);
      n := m + 1;
      assert a[..n] == [a[0]] + a[1..][..m] && b[..n] == [b[0]] + b[1..][..m];
    }
  }

  /** The rule of a group is the one assigned to it. */
  lemma OneRule(reg: Reg, domain: string, group: string, a: string, b: string, user: string)
    requires Plain.Applies(reg, domain, group, a, user) && Plain.Applies(reg, domain, group, b, user)
    ensures a == b
  {
  }

  lemma LessExactly(reg: Reg, g: Group, h: Group)
    requires g.name == h.name ==> g.rule == h.rule
    ensures Less(g, h) <==> g.priority < h.priority || (g.priority == h.priority && Plain.Later(h.name, g.name))
  {
    LaterExactly(g.name, h.name);
    LessSelf(g.rule);
    hide StrLess, Plain.Later;
  }

  lemma {:induction false} LessSelf(a: string)
    ensures !StrLess(a, a)
  {
    if a != "" {
      LessSelf(a[1..]);
    }
  }

  lemma BestExactly(reg: Reg, domain: string, g: Group, user: string)
    ensures Best(reg, domain, g, user) <==>
            Plain.Foremost(reg, domain, g.name, g.rule, user) && g.priority == Plain.PriorityOf(reg, g.rule)
  {
    CandidateExactly(reg, domain, g, user);
    hide Candidate, Plain.Applies, Plain.PriorityOf, Less, Plain.Later;
    if Candidate(reg, domain, g, user) {
      if Best(reg, domain, g, user) {
        forall n, r | Plain.Applies(reg, domain, n, r, user)
          ensures Plain.PriorityOf(reg, r) <= Plain.PriorityOf(reg, g.rule)
          ensures Plain.PriorityOf(reg, r) == Plain.PriorityOf(reg, g.rule) ==> !Plain.Later(n, g.name)
        {
          var h := MakeGroup(reg, n, r);
          CandidateExactly(reg, domain, h, user);
          Compared(reg, domain, g, h, user);
        }
      }
      if Plain.Foremost(reg, domain, g.name, g.rule, user) {
        forall h | Candidate(reg, domain, h, user)
          ensures !Less(g, h)
        {
          CandidateExactly(reg, domain, h, user);
          Compared(reg, domain, g, h, user);
        }
      }
    }
  }

  lemma MakeGroup(reg: Reg, name: string, rule: string) returns (g: Group)
    ensures g.name == name && g.rule == rule && g.priority == Plain.PriorityOf(reg, rule)
  {
    PriorityExactly(reg, rule);
    g := Group(Priority(reg, rule), name, rule);
  }

  lemma Compared(reg: Reg, domain: string, g: Group, h: Group, user: string)
    requires Candidate(reg, domain, g, user) && Candidate(reg, domain, h, user)
    ensures Less(g, h) <==> g.priority < h.priority || (g.priority == h.priority && Plain.Later(h.name, g.name))
  {
    CandidateExactly(reg, domain, g, user);
    CandidateExactly(reg, domain, h, user);
    hide Candidate, Plain.Later, Less;
    if g.name == h.name {
      OneRule(reg, domain, g.name, g.rule, h.rule, user);
    }
    LessExactly(reg, g, h);
  }

  // ---------- lists and rule types ----------

  /** Some entry under this part of the registry is hit. */
  ghost predicate HitUnder(reg: Reg, prefix: string, filter: string, hit: string -> bool) {
    exists key :: key in reg && prefix <= key && hit(Plain.Written(reg[key], filter))
  }

  lemma ListedParts(reg: Reg, o: Owner, item: string, domain: string, url: string, request: Request)
    requires SlotPrefix(Slot(o, "domain", item)) == domain && SlotPrefix(Slot(o, "url", item)) == url
    ensures Listed(reg, o, item, request)
      <==> HitUnder(reg, domain, "domain", request.inDomain) || HitUnder(reg, url, "url", request.inUrl)
  {
    hide SlotPrefix, IsEntry, HitUnder;
    HitExactly(reg, domain, "domain", request.inDomain);
    HitExactly(reg, url, "url", request.inUrl);
  }

  lemma EntryHitParts(reg: Reg, base: string, item: string, request: Request)
    ensures Plain.EntryHit(reg, base, item, request) <==>
      HitUnder(reg, base + "domain/" + item + "/", "domain", request.inDomain)
      || HitUnder(reg, base + "url/" + item + "/", "url", request.inUrl)
  {
    hide Plain.Written;
  }

  lemma ListedExactly(reg: Reg, o: Owner, base: string, ending: string, item: string, request: Request)
    requires OwnBase(o, base, ending)
    ensures Listed(reg, o, item, request) <==> Plain.EntryHit(reg, base, item, request)
  {
    BaseNames(o, base, ending, item);
    hide SlotPrefix, OwnBase, Listed, Plain.EntryHit, HitUnder;
    ListedParts(reg, o, item, base + "domain/" + item + "/", base + "url/" + item + "/", request);
    EntryHitParts(reg, base, item, request);
  }

  lemma BaseNames(o: Owner, base: string, ending: string, item: string)
    requires OwnBase(o, base, ending)
    ensures SlotPrefix(Slot(o, "domain", item)) == base + "domain/" + item + "/"
    ensures SlotPrefix(Slot(o, "url", item)) == base + "url/" + item + "/"
  {
    SlotNames(o, base, ending, "domain", item);
    SlotNames(o, base, ending, "url", item);
    hide SlotPrefix, OwnBase;
    assert base + "domain" + "/" + item + "/" == base + "domain/" + item + "/";
    assert base + "url" + "/" + item + "/" == base + "url/" + item + "/";
  }

  lemma HitExactly(reg: Reg, prefix: string, filter: string, hit: string -> bool)
    ensures (exists line :: IsEntry(reg, prefix, filter, line) && hit(line)) <==> HitUnder(reg, prefix, filter, hit)
  {
    forall line
      ensures IsEntry(reg, prefix, filter, line)
        <==> exists key :: key in reg && prefix <= key && Plain.Written(reg[key], filter) == line
    {
      EntryExactly(reg, prefix, filter, line);
    }
    hide IsEntry, Plain.Written;
    if key :| key in reg && prefix <= key && hit(Plain.Written(reg[key], filter)) {
      assert IsEntry(reg, prefix, filter, Plain.Written(reg[key], filter));
    }
  }

  lemma TypeExactly(reg: Reg, kind: string, rule: string)
    ensures FilterType(reg, kind, rule) == Plain.Type(reg, kind, rule)
    ensures KnownType(FilterType(reg, kind, rule)) <==> Plain.Known(Plain.Type(reg, kind, rule))
  {
    PrefixExactly(kind);
    assert Prefix(kind) + (rule + "/filtertype") == "proxy/filter/" + kind + "/" + rule + "/filtertype";
    hide Prefix;
  }

  lemma PassesExactly(type_: string, forced: bool, white: bool, black: bool, global: bool)
    requires Plain.Known(type_)
    ensures Passes(type_, forced, white, black, global) <==> Plain.Permits(type_, forced, white, black, global)
  {
    assert |"whitelist-block"| != |"blacklist-pass"| && |"whitelist-block"| != |"whitelist-blacklist-pass"|;
    assert |"blacklist-pass"| != |"whitelist-blacklist-pass"|;
  }

  lemma OwnerExactly(reg: Reg, o: Owner, base: string, ending: string, type_: string, forced: bool, global: bool,
                     request: Request)
    requires OwnBase(o, base, ending) && Plain.Known(type_)
    ensures OwnerPasses(reg, o, type_, forced, global, request)
      <==> Plain.ListsPermit(reg, base, type_, forced, global, request)
  {
    hide Listed, Plain.EntryHit, Passes, Plain.Permits, OwnBase, Plain.Known;
    ListedExactly(reg, o, base, ending, "whitelisted", request);
    ListedExactly(reg, o, base, ending, "blacklisted", request);
    PassesExactly(type_, forced, Listed(reg, o, "whitelisted", request), Listed(reg, o, "blacklisted", request),
      global);
  }

  lemma DefaultExactly(reg: Reg, forced: bool, global: bool, request: Request)
    ensures DefaultPasses(reg, forced, global, request) <==> Plain.DefaultPermits(reg, forced, global, request)
  {
    hide OwnerPasses, Plain.ListsPermit;
    OwnerExactly(reg, General, "proxy/filter/", "", "whitelist-blacklist-pass", forced, global, request);
  }

  lemma RuleExactly(reg: Reg, kind: string, rule: string, forced: bool, global: bool, request: Request)
    requires kind == "setting" || kind == "setting-user"
    ensures RulePasses(reg, kind, rule, forced, global, request)
      <==> Plain.RulePermits(reg, kind, rule, forced, global, request)
  {
    TypeExactly(reg, kind, rule);
    DefaultExactly(reg, forced, global, request);
    hide OwnerPasses, Plain.ListsPermit, DefaultPasses, Plain.DefaultPermits, FilterType, Plain.Type, KnownType,
      Plain.Known;
    if Plain.Known(Plain.Type(reg, kind, rule)) {
      var o, base := RuleOwner(kind, rule), "proxy/filter/" + kind + "/" + rule + "/";
      var ending := EndingOf(kind, rule);
      OwnerExactly(reg, o, base, ending, Plain.Type(reg, kind, rule), forced, global, request);
    }
  }

  lemma EndingOf(kind: string, rule: string) returns (ending: string)
    requires kind == "setting" || kind == "setting-user"
    ensures OwnBase(RuleOwner(kind, rule), "proxy/filter/" + kind + "/" + rule + "/", ending)
  {
    ending := RuleSuffix(kind, rule);
  }

  lemma RoomRuleExactly(reg: Reg, room: string, forced: bool, global: bool, request: Request)
    ensures RoomPasses(reg, room, forced, global, request) <==> Plain.RoomPermits(reg, room, forced, global, request)
  {
    RoomKeysExactly(room);
    DefaultExactly(reg, forced, global, request);
    if RoomRuleKey(room) in reg {
      var rule := reg[RoomRuleKey(room)];
      OwnRuleExactly(reg, rule);
      DefinedExactly(reg, rule);
      RuleExactly(reg, "setting-user", rule, forced, global, request);
      RuleExactly(reg, "setting", rule, forced, global, request);
    }
    hide RoomRuleKey, RoomIpKey, RulePasses, Plain.RulePermits, DefaultPasses, Plain.DefaultPermits, HasUserRule,
      SettingNames, Plain.Own, Plain.Defined;
  }

  // ---------- the whole reading ----------

  lemma GroupsExactly(reg: Reg, domain: string, user: string)
    ensures (exists g :: Candidate(reg, domain, g, user))
      <==> exists group, rule :: Plain.Applies(reg, domain, group, rule, user)
  {
    hide Candidate, Plain.Applies;
    if g :| Candidate(reg, domain, g, user) {
      CandidateExactly(reg, domain, g, user);
    }
    if group, rule :| Plain.Applies(reg, domain, group, rule, user) {
      var g := MakeGroup(reg, group, rule);
      CandidateExactly(reg, domain, g, user);
    }
  }

  lemma BestGroupExactly(reg: Reg, domain: string, forced: bool, global: bool, user: string, request: Request,
                         d: Decision)
    ensures (exists g :: Best(reg, domain, g, user) && d == Verdict(GroupPasses(reg, g, forced, global, request)))
      <==> exists group, rule :: Plain.Foremost(reg, domain, group, rule, user)
             && d == Plain.Answer(Plain.RulePermits(reg, "setting", rule, forced, global, request))
  {
    hide Best, Plain.Foremost, RulePasses, Plain.RulePermits;
    if g :| Best(reg, domain, g, user) && d == Verdict(GroupPasses(reg, g, forced, global, request)) {
      BestExactly(reg, domain, g, user);
      RuleExactly(reg, "setting", g.rule, forced, global, request);
      assert Plain.Foremost(reg, domain, g.name, g.rule, user);
    }
    if group, rule :| Plain.Foremost(reg, domain, group, rule, user)
                      && d == Plain.Answer(Plain.RulePermits(reg, "setting", rule, forced, global, request)) {
      var g := MakeGroup(reg, group, rule);
      BestExactly(reg, domain, g, user);
      RuleExactly(reg, "setting", rule, forced, global, request);
      assert Best(reg, domain, g, user);
    }
  }

  lemma RoomsExactly(reg: Reg, forced: bool, global: bool, client: Client, request: Request, d: Decision)
    ensures (exists room :: RoomCovers(reg, room, client)) <==> exists room :: Plain.InRoom(reg, room, client)
    ensures (exists room ::
      RoomCovers(reg, room, client) && d == Verdict(RoomPasses(reg, room, forced, global, request)))
      <==> exists room :: Plain.InRoom(reg, room, client)
             && d == Plain.Answer(Plain.RoomPermits(reg, room, forced, global, request))
  {
    forall room
      ensures RoomCovers(reg, room, client) <==> Plain.InRoom(reg, room, client)
      ensures RoomPasses(reg, room, forced, global, request) <==> Plain.RoomPermits(reg, room, forced, global, request)
    {
      RoomExactly(reg, room, client);
      RoomRuleExactly(reg, room, forced, global, request);
    }
    hide RoomCovers, Plain.InRoom, RoomPasses, Plain.RoomPermits;
  }

  lemma HostsExactly(reg: Reg, client: Client)
    ensures (exists key :: HostCovers(reg, key, client)) <==> exists key :: Plain.BlockedBy(reg, key, client)
  {
    forall key
      ensures HostCovers(reg, key, client) <==> Plain.BlockedBy(reg, key, client)
    {
      HostExactly(reg, key, client);
    }
    hide HostCovers, Plain.BlockedBy;
  }

  /** The direct reading gives a decision exactly when the plain one does. */
  lemma SaysExactly(reg: Reg, domain: string, forced: bool, global: bool, client: Client, request: Request, d: Decision)
    ensures Says(reg, domain, forced, global, client, request, d)
      <==> Plain.Reading(reg, domain, forced, global, client, request, d)
  {
    hide RoomCovers, Plain.InRoom, RoomPasses, Plain.RoomPermits, HostCovers, Plain.BlockedBy, Candidate, Plain.Applies,
      Best, Plain.Foremost, GroupPasses, Plain.RulePermits, DefaultPasses, Plain.DefaultPermits;
    RoomsExactly(reg, forced, global, client, request, d);
    HostsExactly(reg, client);
    GroupsExactly(reg, domain, client.user);
    BestGroupExactly(reg, domain, forced, global, client.user, request, d);
    DefaultExactly(reg, forced, global, request);
  }
}
