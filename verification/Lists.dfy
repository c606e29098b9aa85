/** The list files: their names, what the registry says belongs in them, and the loops that write them. */
module Lists {
  import opened Options
  import opened Text
  import opened Quote
  import opened Registry
  import opened Readings
  import Plain

  // ---------- names ----------

  /** The kinds of rules: shared ones and users' own. */
  predicate IsKind(kind: string) {
    kind == "setting" || kind == "setting-user"
  }

  function RuleSuffix(kind: string, name: string): string {
    if kind == "setting" then "-" + Quoted(name) else "-" + Quoted(name) + "-user"
  }

  function ListFile(item: string, filter: string, suffix: string): string {
    item + ("-" + filter) + suffix
  }

  predicate IsCombo(filter: string, item: string) {
    (filter == "domain" || filter == "url") && (item == "blacklisted" || item == "whitelisted")
  }

  lemma SuffixInjective(kind: string, name: string, kind': string, name': string)
    requires IsKind(kind) && IsKind(kind')
    requires RuleSuffix(kind, name) == RuleSuffix(kind', name')
    ensures kind == kind' && name == name'
  {
    hide Quoted;
    var q, q' := Quoted(name), Quoted(name');
    Assoc("-", q, "-user");
    Assoc("-", q', "-user");
    assert q + "" == q && q' + "" == q';
    Cancel("-", if kind == "setting" then q else q + "-user", if kind' == "setting" then q' else q' + "-user");
    NeverUserSuffix(name, name');
    NeverUserSuffix(name', name);
    Cancel("-user", q, q');
    Injective(name, name');
  }

  /** No two list files share a name. */
  lemma ListFileInjective(item: string, filter: string, suffix: string,
                          item': string, filter': string, suffix': string)
    requires IsCombo(filter, item) && IsCombo(filter', item')
    requires suffix == "" || suffix[0] == '-'
    requires suffix' == "" || suffix'[0] == '-'
    requires ListFile(item, filter, suffix) == ListFile(item', filter', suffix')
    ensures item == item' && filter == filter' && suffix == suffix'
  {
    var f, f' := ListFile(item, filter, suffix), ListFile(item', filter', suffix');
    assert f[0] == item[0] && f'[0] == item'[0];
    assert f[12] == filter[0] && f'[12] == filter'[0];
    var n := 12 + |filter|;
    assert f[n..] == suffix && f'[n..] == suffix';
  }

  // ---------- entries ----------

  function EntryPrefix(kind: string, name: string, filter: string, item: string): string {
    Prefix(kind) + (name + "/" + filter + "/" + item + "/")
  }

  function GeneralPrefix(filter: string, item: string): string {
    Prefix(filter) + (item + "/")
  }

  function Dropped(value: string, scheme: string): string {
    if StartsWith(value, scheme) then value[|scheme|..] else value
  }

  /** A registry value as it is written: schemes go, in this order; URLs lose a leading "www.". */
  function Stripped(value: string, filter: string): string {
    var v := Dropped(Dropped(Dropped(value, "http://"), "https://"), "ftp://");
    if filter == "url" then Dropped(v, "www.") else v
  }

  /** Text that starts with none of the parts that are removed. */
  predicate Bare(host: string) {
    && !StartsWith(host, "http://") && !StartsWith(host, "https://") && !StartsWith(host, "ftp://")
    && !StartsWith(host, "www.")
  }

  lemma BehindPrefix(prefix: string, rest: string)
    ensures StartsWith(prefix + rest, prefix) && Dropped(prefix + rest, prefix) == rest
  {
  }

  lemma WorldWide(host: string)
    ensures var s := "www." + host;
      !StartsWith(s, "http://") && !StartsWith(s, "https://") && !StartsWith(s, "ftp://")
  {
    assert ("www." + host)[0] == 'w' && "http://"[0] == 'h' && "https://"[0] == 'h' && "ftp://"[0] == 'f';
  }

  /** However an entry is written, with a scheme or without, the domain list gets the name as it is and the URL
      list gets it without a leading "www.". */
  lemma StrippedEntry(scheme: string, www: bool, host: string)
    requires scheme == "" || scheme == "http://" || scheme == "https://" || scheme == "ftp://"
    requires Bare(host)
    ensures var name := if www then "www." + host else host;
      Stripped(scheme + name, "domain") == name && Stripped(scheme + name, "url") == host
  {
    var name := if www then "www." + host else host;
    WorldWide(host);
    BehindPrefix("www.", host);
    BehindPrefix(scheme, name);
    var all := scheme + name;
    if scheme == "" {
      assert all == name;
    } else if scheme == "https://" {
      assert all[4] == 's' && "http://"[4] == ':';
    } else if scheme == "ftp://" {
      assert all[0] == 'f' && "http://"[0] == 'h' && "https://"[0] == 'h';
    }
    assert "domain" != "url" by { assert |"domain"| != |"url"|; }
    hide StartsWith;
  }

  /** The line of one key in the file collecting the keys under a prefix. */
  function EntryLine(reg: Reg, prefix: string, filter: string): string -> seq<string> {
    key => if key in reg && StartsWith(key, prefix) then [Stripped(reg[key], filter)] else []
  }

  /** One line for each entry under the prefix, in key order. */
  function EntryLines(reg: Reg, keys: seq<string>, prefix: string, filter: string): seq<string> {
    FlatMap(keys, EntryLine(reg, prefix, filter))
  }

  ghost predicate IsEntry(reg: Reg, prefix: string, filter: string, line: string) {
    exists key :: key in reg && StartsWith(key, prefix) && Stripped(reg[key], filter) == line
  }

  /** The file holds the entries and nothing else. */
  lemma EntryLinesExact(reg: Reg, keys: seq<string>, prefix: string, filter: string, line: string)
    requires IsEnumeration(keys, reg)
    ensures line in EntryLines(reg, keys, prefix, filter) <==> IsEntry(reg, prefix, filter, line)
  {
    FlatMapIn(keys, EntryLine(reg, prefix, filter), line);
  }

  function EntryKeys(keys: seq<string>, prefix: string): seq<string> {
    FlatMap(keys, (key: string) => if StartsWith(key, prefix) then [key] else [])
  }

  /** As many lines as there are entries, each the line of its key. */
  lemma {:induction false} EntryLinesCount(reg: Reg, keys: seq<string>, prefix: string, filter: string)
    requires forall k :: k in keys ==> k in reg
    ensures var es := EntryKeys(keys, prefix);
      && |EntryLines(reg, keys, prefix, filter)| == |es|
      && (forall i :: 0 <= i < |es| ==>
            es[i] in reg && StartsWith(es[i], prefix)
            && EntryLines(reg, keys, prefix, filter)[i] == Stripped(reg[es[i]], filter))
  {
    if keys != [] {
      var init, last := keys[..|keys| - 1], keys[|keys| - 1];
      assert last in keys && forall k :: k in init ==> k in keys;
      EntryLinesCount(reg, init, prefix, filter);
    }
  }

  /** Every key under an entry prefix lies under no other one. */
  lemma EntryPrefixUnique(key: string, kind: string, name: string, filter: string, item: string,
                          kind': string, name': string, filter': string, item': string)
    requires IsKind(kind) && IsKind(kind') && IsCombo(filter, item) && IsCombo(filter', item')
    requires '/' !in name && '/' !in name'
    requires StartsWith(key, EntryPrefix(kind, name, filter, item))
    requires StartsWith(key, EntryPrefix(kind', name', filter', item'))
    ensures kind == kind' && name == name' && filter == filter' && item == item'
  {
    hide Prefix, Split;
    EntrySegments(key, kind, name, filter, item);
    EntrySegments(key, kind', name', filter', item');
  }

  lemma EntrySegments(key: string, kind: string, name: string, filter: string, item: string)
    requires IsKind(kind) && IsCombo(filter, item) && '/' !in name
    requires StartsWith(key, EntryPrefix(kind, name, filter, item))
    ensures var s := Split(key, '/');
            |s| >= 7 && s[2] == kind && s[3] == name && s[4] == filter && s[5] == item
    ensures StartsWith(key, Prefix(kind))
    ensures Split(Suffix(key, Prefix(kind)), '/')[0] == name && |Split(Suffix(key, Prefix(kind)), '/')| >= 2
  {
    hide Split;
    var rest := Suffix(key, EntryPrefix(kind, name, filter, item));
    var tail := name + "/" + filter + "/" + item + "/" + rest;
    assert key == EntryPrefix(kind, name, filter, item) + rest;
    hide Prefix;
    assert key == Prefix(kind) + tail;
    PrefixSegments(kind, tail);
    ThreeSegments(name, filter, item, rest);
  }

  // ---------- list files by owner: the general lists, or a rule ----------

  datatype Owner = General | RuleOwner(kind: string, name: string)

  /** One list file: whose, domains or URLs, black or white. */
  datatype Slot = Slot(owner: Owner, filter: string, item: string)

  predicate GoodOwner(o: Owner) {
    o.RuleOwner? ==> IsKind(o.kind) && '/' !in o.name
  }

  predicate GoodSlot(s: Slot) {
    GoodOwner(s.owner) && IsCombo(s.filter, s.item)
  }

  function OwnerSuffix(o: Owner): string {
    if o.General? then "" else RuleSuffix(o.kind, o.name)
  }

  function FileOf(s: Slot): string {
    ListFile(s.item, s.filter, OwnerSuffix(s.owner))
  }

  function SlotPrefix(s: Slot): string {
    if s.owner.General? then GeneralPrefix(s.filter, s.item)
    else EntryPrefix(s.owner.kind, s.owner.name, s.filter, s.item)
  }

  function SlotLines(reg: Reg, keys: seq<string>, s: Slot): seq<string> {
    EntryLines(reg, keys, SlotPrefix(s), s.filter)
  }

  /** No two list files share a name. */
  lemma FileOfInjective(s: Slot, t: Slot)
    requires GoodSlot(s) && GoodSlot(t) && FileOf(s) == FileOf(t)
    ensures s == t
  {
    hide Quoted;
    ListFileInjective(s.item, s.filter, OwnerSuffix(s.owner), t.item, t.filter, OwnerSuffix(t.owner));
    if s.owner.RuleOwner? && t.owner.RuleOwner? {
      SuffixInjective(s.owner.kind, s.owner.name, t.owner.kind, t.owner.name);
    }
  }

  function OwnerSlots(o: Owner): set<Slot> {
    {Slot(o, "domain", "blacklisted"), Slot(o, "domain", "whitelisted"),
     Slot(o, "url", "blacklisted"), Slot(o, "url", "whitelisted")}
  }

  /** These files hold exactly their lines; all other files are as before. */
  ghost predicate Wrote(reg: Reg, keys: seq<string>, slots: set<Slot>, before: Files, after: Files) {
    && (forall s :: s in slots ==> GoodSlot(s) && FileOf(s) in after && after[FileOf(s)] == SlotLines(reg, keys, s))
    && (forall file :: file in before ==> file in after)
    && (forall file :: file in after ==>
          (exists s :: s in slots && FileOf(s) == file) || (file in before && after[file] == before[file]))
  }

  lemma WroteOneMore(reg: Reg, keys: seq<string>, slots: set<Slot>, before: Files, after: Files, s: Slot)
    requires Wrote(reg, keys, slots, before, after) && GoodSlot(s)
    ensures Wrote(reg, keys, slots + {s}, before, after[FileOf(s) := SlotLines(reg, keys, s)])
  {
    forall t | t in slots && FileOf(t) == FileOf(s)
      ensures t == s
    {
      FileOfInjective(s, t);
    }
    hide FileOf, SlotLines, GoodSlot;
  }

  method Strip(value: string, filter: string) returns (v: string)
    ensures v == Stripped(value, filter)
  {
    v := value;
    if StartsWith(v, "http://") { v := v[|"http://"|..]; }
    if StartsWith(v, "https://") { v := v[|"https://"|..]; }
    if StartsWith(v, "ftp://") { v := v[|"ftp://"|..]; }
    if filter == "url" {
      if StartsWith(v, "www.") { v := v[|"www."|..]; }
    }
  }

  method CollectLines(reg: Reg, keys: seq<string>, prefix: string, filter: string) returns (lines: seq<string>)
    requires forall k :: k in keys ==> k in reg
    ensures lines == EntryLines(reg, keys, prefix, filter)
  {
    hide Stripped;
    lines := [];
    var f := EntryLine(reg, prefix, filter);
    for i := 0 to |keys|
      invariant lines == FlatMap(keys[..i], f)
    {
      var key := keys[i];
      FlatMapStep(keys, i, f);
      if StartsWith(key, prefix) {
        var value := Strip(reg[key], filter);
        lines := lines + [value];
      }
    }
    assert keys[..|keys|] == keys;
  }

  method WriteSlot(reg: Reg, keys: seq<string>, s: Slot, files: Files, ghost slots: set<Slot>, ghost before: Files)
    returns (after: Files)
    requires GoodSlot(s) && Wrote(reg, keys, slots, before, files) && forall k :: k in keys ==> k in reg
    ensures Wrote(reg, keys, slots + {s}, before, after)
  {
    var lines := CollectLines(reg, keys, SlotPrefix(s), s.filter);
    after := files[FileOf(s) := lines];
    WroteOneMore(reg, keys, slots, before, files, s);
  }

  /** The two nested loops over filter and item types. */
  method WriteOwner(reg: Reg, keys: seq<string>, o: Owner, files: Files, ghost slots: set<Slot>, ghost before: Files)
    returns (after: Files)
    requires GoodOwner(o) && Wrote(reg, keys, slots, before, files) && forall k :: k in keys ==> k in reg
    ensures Wrote(reg, keys, slots + OwnerSlots(o), before, after)
  {
    hide Wrote, GoodOwner;
    after := files;
    ghost var done := {};
    assert slots + done == slots;
    for f := 0 to 2
      invariant Wrote(reg, keys, slots + done, before, after)
      invariant done == FirstSlots(o, 2 * f)
    {
      var filter := if f == 0 then "domain" else "url";
      for i := 0 to 2
        invariant Wrote(reg, keys, slots + done, before, after)
        invariant done == FirstSlots(o, 2 * f + i)
      {
        var s := Slot(o, filter, if i == 0 then "blacklisted" else "whitelisted");
        after := WriteSlot(reg, keys, s, after, slots + done, before);
        assert slots + done + {s} == slots + (done + {s});
        done := done + {s};
      }
    }
    assert done == OwnerSlots(o);
  }

  ghost function FirstSlots(o: Owner, n: nat): set<Slot> {
    (if n > 0 then {Slot(o, "domain", "blacklisted")} else {})
    + (if n > 1 then {Slot(o, "domain", "whitelisted")} else {})
    + (if n > 2 then {Slot(o, "url", "blacklisted")} else {})
    + (if n > 3 then {Slot(o, "url", "whitelisted")} else {})
  }

  /** The rules the registry has settings for, shared ones and users' own. */
  function RuleOwners(reg: Reg): set<Owner> {
    (set k | k in reg && Named(k, "setting").Some? :: RuleOwner("setting", Named(k, "setting").value))
    + (set k | k in reg && Named(k, "setting-user").Some? :: RuleOwner("setting-user", Named(k, "setting-user").value))
  }

  ghost function SlotsOf(owners: set<Owner>): set<Slot> {
    set o, s | o in owners && s in OwnerSlots(o) :: s
  }

  lemma SlotsOfMore(owners: set<Owner>, o: Owner)
    ensures SlotsOf({}) == {}
    ensures SlotsOf(owners) + OwnerSlots(o) == SlotsOf(owners + {o})
  {
    hide OwnerSlots;
  }

  lemma RuleOwnersGood(reg: Reg, o: Owner)
    requires o in RuleOwners(reg)
    ensures GoodOwner(o)
  {
    hide Named;
  }

  lemma WroteNothing(reg: Reg, keys: seq<string>, files: Files)
    ensures Wrote(reg, keys, {}, files, files)
  {
  }

  // ---------- the files in plain terms ----------

  lemma StrippedExactly(value: string, filter: string)
    ensures Stripped(value, filter) == Plain.Written(value, filter)
  {
    DroppedExactly(value, "http://");
    var a := Dropped(value, "http://");
    DroppedExactly(a, "https://");
    var b := Dropped(a, "https://");
    DroppedExactly(b, "ftp://");
    DroppedExactly(Dropped(b, "ftp://"), "www.");
    hide Dropped, Plain.Behind;
  }

  lemma DroppedExactly(value: string, start: string)
    ensures Dropped(value, start) == Plain.Behind(value, start)
  {
  }

  lemma EntryExactly(reg: Reg, prefix: string, filter: string, line: string)
    ensures IsEntry(reg, prefix, filter, line)
      <==> exists key :: key in reg && prefix <= key && Plain.Written(reg[key], filter) == line
  {
    forall key | key in reg
      ensures Stripped(reg[key], filter) == Plain.Written(reg[key], filter)
      ensures StartsWith(key, prefix) <==> prefix <= key
    {
      StrippedExactly(reg[key], filter);
      StartExactly(key, prefix);
    }
    hide Stripped, StartsWith, Plain.Written;
  }

  /** The lines of a slot are the entries under its part of the registry. */
  lemma SlotExactly(reg: Reg, keys: seq<string>, files: Files, s: Slot, file: string, prefix: string)
    requires IsEnumeration(keys, reg) && FileOf(s) in files && files[FileOf(s)] == SlotLines(reg, keys, s)
    requires file == FileOf(s) && prefix == SlotPrefix(s)
    ensures Plain.HoldsLines(files, file, reg, prefix, s.filter)
  {
    hide IsEntry, FileOf, SlotPrefix, EntryLines, Plain.Written;
    forall line
      ensures line in files[file]
        <==> exists key :: key in reg && prefix <= key && Plain.Written(reg[key], s.filter) == line
    {
      EntryLinesExact(reg, keys, prefix, s.filter, line);
      EntryExactly(reg, prefix, s.filter, line);
    }
  }

  /** The part of the registry an owner's entries stand in. */
  predicate OwnBase(o: Owner, base: string, ending: string) {
    match o
    case General => base == "proxy/filter/" && ending == ""
    case RuleOwner(kind, name) =>
      && base == "proxy/filter/" + kind + "/" + name + "/"
      && ((kind == "setting" && ending == "-" + Quoted(name))
          || (kind == "setting-user" && ending == "-" + Quoted(name) + "-user"))
  }

  lemma SlotNames(o: Owner, base: string, ending: string, filter: string, item: string)
    requires OwnBase(o, base, ending)
    ensures FileOf(Slot(o, filter, item)) == item + "-" + filter + ending
    ensures SlotPrefix(Slot(o, filter, item)) == base + filter + "/" + item + "/"
  {
    hide Quoted;
    assert |"setting"| != |"setting-user"|;
    assert item + ("-" + filter) + ending == item + "-" + filter + ending;
    if o.General? {
      PrefixExactly(filter);
      assert Prefix(filter) + (item + "/") == base + filter + "/" + item + "/";
    } else {
      PrefixExactly(o.kind);
      assert Prefix(o.kind) + (o.name + "/" + filter + "/" + item + "/") == base + filter + "/" + item + "/";
    }
  }

  lemma WroteOne(reg: Reg, keys: seq<string>, slots: set<Slot>, before: Files, after: Files,
                 o: Owner, base: string, ending: string, filter: string, item: string)
    requires IsEnumeration(keys, reg) && Wrote(reg, keys, slots, before, after) && Slot(o, filter, item) in slots
    requires OwnBase(o, base, ending)
    ensures Plain.HoldsLines(after, item + "-" + filter + ending, reg, base + filter + "/" + item + "/", filter)
  {
    hide OwnBase, SlotLines, FileOf, SlotPrefix, Plain.HoldsLines, GoodSlot;
    SlotNames(o, base, ending, filter, item);
    SlotExactly(reg, keys, after, Slot(o, filter, item), item + "-" + filter + ending,
      base + filter + "/" + item + "/");
  }

  /** The black lists hold the blacklisted entries, the white lists the whitelisted ones. */
  lemma WroteFour(reg: Reg, keys: seq<string>, slots: set<Slot>, before: Files, after: Files,
                  o: Owner, base: string, ending: string)
    requires IsEnumeration(keys, reg) && Wrote(reg, keys, slots, before, after) && OwnerSlots(o) <= slots
    requires OwnBase(o, base, ending)
    ensures Plain.HoldsFour(after, reg, base, ending)
  {
    FourNames(base, ending);
    hide OwnBase, Wrote, Plain.HoldsLines, IsEnumeration;
    WroteOne(reg, keys, slots, before, after, o, base, ending, "domain", "blacklisted");
    WroteOne(reg, keys, slots, before, after, o, base, ending, "domain", "whitelisted");
    WroteOne(reg, keys, slots, before, after, o, base, ending, "url", "blacklisted");
    WroteOne(reg, keys, slots, before, after, o, base, ending, "url", "whitelisted");
  }

  lemma FourNames(base: string, ending: string)
    ensures "blacklisted" + "-" + "domain" == "blacklisted-domain"
    ensures "whitelisted" + "-" + "domain" == "whitelisted-domain"
    ensures "blacklisted" + "-" + "url" == "blacklisted-url" && "whitelisted" + "-" + "url" == "whitelisted-url"
    ensures base + "domain" + "/" + "blacklisted" + "/" == base + "domain/blacklisted/"
    ensures base + "domain" + "/" + "whitelisted" + "/" == base + "domain/whitelisted/"
    ensures base + "url" + "/" + "blacklisted" + "/" == base + "url/blacklisted/"
    ensures base + "url" + "/" + "whitelisted" + "/" == base + "url/whitelisted/"
  {
    Four(base, "domain", "blacklisted");
    Four(base, "domain", "whitelisted");
    Four(base, "url", "blacklisted");
    Four(base, "url", "whitelisted");
    assert "domain" + "/" + "blacklisted" + "/" == "domain/blacklisted/";
    assert "domain" + "/" + "whitelisted" + "/" == "domain/whitelisted/";
    assert "url" + "/" + "blacklisted" + "/" == "url/blacklisted/";
    assert "url" + "/" + "whitelisted" + "/" == "url/whitelisted/";
  }

  lemma Four(base: string, filter: string, item: string)
    ensures base + filter + "/" + item + "/" == base + (filter + "/" + item + "/")
  {
  }

  ghost predicate RulesHold(reg: Reg, files: Files) {
    && (forall rule :: Plain.Defined(reg, "setting", rule) ==>
          Plain.HoldsFour(files, reg, "proxy/filter/setting/" + rule + "/", "-" + Quoted(rule)))
    && (forall rule :: Plain.Defined(reg, "setting-user", rule) ==>
          Plain.HoldsFour(files, reg, "proxy/filter/setting-user/" + rule + "/", "-" + Quoted(rule) + "-user"))
  }

  lemma DefinedOwner(reg: Reg, kind: string, rule: string)
    requires IsKind(kind) && Plain.Defined(reg, kind, rule)
    ensures RuleOwner(kind, rule) in RuleOwners(reg)
  {
    var key :| key in reg && Plain.Defines(key, kind, rule);
    NamedExactly(key, kind, rule);
    hide Plain.Defines, Named;
  }

  lemma WroteRules(reg: Reg, keys: seq<string>, before: Files, after: Files)
    requires IsEnumeration(keys, reg) && Wrote(reg, keys, SlotsOf(RuleOwners(reg)), before, after)
    ensures RulesHold(reg, after)
  {
    hide Wrote, RuleOwners, OwnerSlots, Plain.HoldsFour, Plain.Defined, IsEnumeration, Quoted;
    forall rule | Plain.Defined(reg, "setting", rule)
      ensures Plain.HoldsFour(after, reg, "proxy/filter/setting/" + rule + "/", "-" + Quoted(rule))
    {
      DefinedOwner(reg, "setting", rule);
      assert "proxy/filter/" + "setting" + "/" == "proxy/filter/setting/";
      WroteFour(reg, keys, SlotsOf(RuleOwners(reg)), before, after, RuleOwner("setting", rule),
                "proxy/filter/setting/" + rule + "/", "-" + Quoted(rule));
    }
    forall rule | Plain.Defined(reg, "setting-user", rule)
      ensures Plain.HoldsFour(after, reg, "proxy/filter/setting-user/" + rule + "/", "-" + Quoted(rule) + "-user")
    {
      DefinedOwner(reg, "setting-user", rule);
      assert "proxy/filter/" + "setting-user" + "/" == "proxy/filter/setting-user/";
      WroteFour(reg, keys, SlotsOf(RuleOwners(reg)), before, after, RuleOwner("setting-user", rule),
                "proxy/filter/setting-user/" + rule + "/", "-" + Quoted(rule) + "-user");
    }
  }

  /** Writes the lists of every rule, in whatever order the rules come. */
  method WriteSettinglist(reg: Reg, keys: seq<string>, before: Files) returns (after: Files)
    requires IsEnumeration(keys, reg)
    ensures Wrote(reg, keys, SlotsOf(RuleOwners(reg)), before, after)
    ensures RulesHold(reg, after)
  {
    hide RulesHold, Wrote, SlotsOf, RuleOwners, OwnerSlots, GoodOwner;
    after := before;
    var todo := RuleOwners(reg);
    ghost var done: set<Owner> := {};
    SlotsOfMore({}, General);
    WroteNothing(reg, keys, before);
    while todo != {}
      invariant todo + done == RuleOwners(reg)
      invariant Wrote(reg, keys, SlotsOf(done), before, after)
    {
      var o :| o in todo;
      RuleOwnersGood(reg, o);
      after := WriteOwner(reg, keys, o, after, SlotsOf(done), before);
      SlotsOfMore(done, o);
      todo := todo - {o};
      done := done + {o};
    }
    assert done == RuleOwners(reg);
    WroteRules(reg, keys, before, after);
  }

  method WriteBlackWhiteLists(reg: Reg, keys: seq<string>, before: Files) returns (after: Files)
    requires IsEnumeration(keys, reg)
    ensures Wrote(reg, keys, OwnerSlots(General), before, after)
    ensures Plain.HoldsFour(after, reg, "proxy/filter/", "")
  {
    hide Wrote, Plain.HoldsFour;
    ghost var none: set<Slot> := {};
    WroteNothing(reg, keys, before);
    after := WriteOwner(reg, keys, General, before, none, before);
    assert none + OwnerSlots(General) == OwnerSlots(General);
    WroteFour(reg, keys, OwnerSlots(General), before, after, General, "proxy/filter/", "");
  }

  // ---------- group members ----------

  /** The lines of one group: each member, plain and with the domain. */
  function MemberLine(domain: string): string -> seq<string> {
    member => [member, domain + "\\" + member]
  }

  function MemberLines(domain: string, value: string): seq<string> {
    FlatMap(Split(value, ','), MemberLine(domain))
  }

  function GroupFile(group: string): string {
    "usergroup-" + Quoted(group)
  }

  ghost predicate IsGroupKey(reg: Reg, key: string, group: string) {
    key in reg && StartsWith(key, Prefix("usergroup")) && LastSegment(key) == group
  }

  /** Each group with a registry key has its file, written from one such key; other files are as before. */
  ghost predicate WroteGroups(reg: Reg, domain: string, before: Files, after: Files) {
    && (forall key, group :: IsGroupKey(reg, key, group) ==> HasGroupFile(reg, domain, after, group))
    && (forall file :: file in before ==> file in after)
    && (forall file :: file in after ==> IsGroupFile(reg, file) || (file in before && after[file] == before[file]))
  }

  ghost predicate HasGroupFile(reg: Reg, domain: string, files: Files, group: string) {
    GroupFile(group) in files
    && exists key :: IsGroupKey(reg, key, group) && files[GroupFile(group)] == MemberLines(domain, reg[key])
  }

  lemma GroupFileInjective(a: string, b: string)
    requires GroupFile(a) == GroupFile(b)
    ensures a == b
  {
    Cancel("usergroup-", Quoted(a), Quoted(b));
    Injective(a, b);
  }

  /** What the loop has written after the first n keys. */
  ghost predicate WroteFirst(reg: Reg, keys: seq<string>, n: nat, domain: string, before: Files, after: Files)
    requires n <= |keys|
  {
    && (forall j, group :: 0 <= j < n && IsGroupKey(reg, keys[j], group) ==> HasGroupFile(reg, domain, after, group))
    && (forall file :: file in before ==> file in after)
    && (forall file :: file in after ==> IsGroupFile(reg, file) || (file in before && after[file] == before[file]))
  }

  ghost predicate IsGroupFile(reg: Reg, file: string) {
    exists key, group :: IsGroupKey(reg, key, group) && GroupFile(group) == file
  }

  lemma WroteNext(reg: Reg, keys: seq<string>, n: nat, domain: string, before: Files, after: Files)
    requires n < |keys| && WroteFirst(reg, keys, n, domain, before, after) && keys[n] in reg
    ensures StartsWith(keys[n], Prefix("usergroup")) ==>
              WroteFirst(reg, keys, n + 1, domain, before,
                         after[GroupFile(LastSegment(keys[n])) := MemberLines(domain, reg[keys[n]])])
    ensures !StartsWith(keys[n], Prefix("usergroup")) ==> WroteFirst(reg, keys, n + 1, domain, before, after)
  {
    hide LastSegment, MemberLines, GroupFile, Prefix;
    var key := keys[n];
    if StartsWith(key, Prefix("usergroup")) {
      var group := LastSegment(key);
      var after' := after[GroupFile(group) := MemberLines(domain, reg[key])];
      assert IsGroupKey(reg, key, group);
      forall g | HasGroupFile(reg, domain, after, g) || g == group
        ensures HasGroupFile(reg, domain, after', g)
      {
        if GroupFile(g) == GroupFile(group) {
          GroupFileInjective(g, group);
        }
      }
      assert IsGroupFile(reg, GroupFile(group));
      hide HasGroupFile, IsGroupFile;
      assert forall j, g :: 0 <= j < n + 1 && IsGroupKey(reg, keys[j], g) ==> j < n || g == group;
    }
  }

  method WriteUsergroupMemberLists(reg: Reg, keys: seq<string>, domain: string, before: Files) returns (after: Files)
    requires IsEnumeration(keys, reg)
    ensures WroteGroups(reg, domain, before, after)
  {
    after := before;
    for i := 0 to |keys|
      invariant WroteFirst(reg, keys, i, domain, before, after)
    {
      hide WroteFirst, LastSegment, MemberLines, GroupFile;
      var key := keys[i];
      WroteNext(reg, keys, i, domain, before, after);
      if StartsWith(key, Prefix("usergroup")) {
        var group := LastSegment(key);
        var lines := CollectMembers(domain, Split(reg[key], ','));
        MemberLinesDef(domain, reg[key]);
        after := after[GroupFile(group) := lines];
      }
    }
  }

  lemma MemberLinesDef(domain: string, value: string)
    ensures MemberLines(domain, value) == FlatMap(Split(value, ','), MemberLine(domain))
  {
  }

  method CollectMembers(domain: string, members: seq<string>) returns (lines: seq<string>)
    ensures lines == FlatMap(members, MemberLine(domain))
  {
    lines := [];
    for i := 0 to |members|
      invariant lines == FlatMap(members[..i], MemberLine(domain))
    {
      FlatMapStep(members, i, MemberLine(domain));
      lines := lines + [members[i]];
      lines := lines + [domain + "\\" + members[i]];
    }
    assert members[..|members|] == members;
  }
}
