/** What the registry says, in plain terms: the keys are written out, and nothing of the compiler is used. The proofs
    compare the compiler, its list writers and its readers with these definitions. */
module Plain {
  import opened Options
  import opened SquidGuard

  type Reg = map<string, string>

  // ---------- text ----------

  /** White space, as str.split() and str.isspace() understand it. */
  predicate Blank(c: char) {
    c as int in {
      9, 10, 11, 12, 13, 28, 29, 30, 31, 32, 0x85, 0xA0, 0x1680, 0x2000, 0x2001, 0x2002, 0x2003, 0x2004, 0x2005, 0x2006,
      0x2007, 0x2008, 0x2009, 0x200A, 0x2028, 0x2029, 0x202F, 0x205F, 0x3000}
  }

  predicate WordAt(s: string, i: nat, j: nat) {
    && i < j <= |s| && (forall k :: i <= k < j ==> !Blank(s[k]))
    && (i == 0 || Blank(s[i - 1])) && (j == |s| || Blank(s[j]))
  }

  /** A longest stretch without white space. */
  ghost predicate Word(s: string, w: string) {
    exists i: nat, j: nat :: WordAt(s, i, j) && s[i..j] == w
  }

  predicate PieceAt(s: string, sep: char, i: nat, j: nat) {
    && i <= j <= |s| && (forall k :: i <= k < j ==> s[k] != sep)
    && (i == 0 || s[i - 1] == sep) && (j == |s| || s[j] == sep)
  }

  /** A longest stretch without the separator; it may be empty. */
  ghost predicate Piece(s: string, sep: char, p: string) {
    exists i: nat, j: nat :: PieceAt(s, sep, i, j) && s[i..j] == p
  }

  predicate Digits(s: string) {
    s != "" && forall i :: 0 <= i < |s| ==> '0' <= s[i] <= '9'
  }

  /** The number that decimal digits stand for, read from the left. */
  function Value(s: string): int {
    if s == "" then 0 else 10 * Value(s[..|s| - 1]) + (s[|s| - 1] as int - 48)
  }

  predicate LaterAt(a: string, b: string, n: nat) {
    n < |a| && n <= |b| && a[..n] == b[..n] && (n == |b| || a[n] > b[n])
  }

  /** a stands behind b in the order of character codes. */
  ghost predicate Later(a: string, b: string) {
    exists n: nat :: LaterAt(a, b, n)
  }

  // ---------- lists ----------

  function Behind(value: string, start: string): string {
    if start <= value then value[|start|..] else value
  }

  /** An entry as it stands in a list: without its scheme, and in a list of URLs without a leading "www.". */
  function Written(value: string, filter: string): string {
    var bare := Behind(Behind(Behind(value, "http://"), "https://"), "ftp://");
    if filter == "url" then Behind(bare, "www.") else bare
  }

  /** A file of the directory holds the entries under a prefix, and no other line. */
  ghost predicate HoldsLines(files: map<string, seq<string>>, file: string, reg: Reg, prefix: string, filter: string) {
    && file in files
    && forall line ::
         line in files[file] <==> exists key :: key in reg && prefix <= key && Written(reg[key], filter) == line
  }

  /** The four list files with this ending hold the entries below this part of the registry. */
  ghost predicate HoldsFour(files: map<string, seq<string>>, reg: Reg, base: string, ending: string) {
    && HoldsLines(files, "blacklisted-domain" + ending, reg, base + "domain/blacklisted/", "domain")
    && HoldsLines(files, "whitelisted-domain" + ending, reg, base + "domain/whitelisted/", "domain")
    && HoldsLines(files, "blacklisted-url" + ending, reg, base + "url/blacklisted/", "url")
    && HoldsLines(files, "whitelisted-url" + ending, reg, base + "url/whitelisted/", "url")
  }

  ghost predicate EntryHit(reg: Reg, base: string, item: string, request: Request) {
    exists key :: key in reg
      && ((base + "domain/" + item + "/" <= key && request.inDomain(Written(reg[key], "domain")))
          || (base + "url/" + item + "/" <= key && request.inUrl(Written(reg[key], "url"))))
  }

  /** The request falls under a line of the global list. */
  ghost predicate OnGlobal(files: map<string, seq<string>>, request: Request) {
    || ("global-blacklist-domains" in files
        && exists line :: line in files["global-blacklist-domains"] && request.inDomain(line))
    || ("global-blacklist-urls" in files
        && exists line :: line in files["global-blacklist-urls"] && request.inUrl(line))
  }

  // ---------- rules ----------

  /** The key belongs to a rule of this name; what follows the name is one line. */
  predicate Defines(key: string, kind: string, rule: string) {
    var prefix := "proxy/filter/" + kind + "/" + rule + "/";
    && rule != "" && '/' !in rule && prefix <= key
    && forall i :: |prefix| <= i < |key| - 1 ==> key[i] != '\n'
  }

  ghost predicate Defined(reg: Reg, kind: string, rule: string) {
    exists key :: key in reg && Defines(key, kind, rule)
  }

  predicate OwnKey(key: string, rule: string) {
    var start := "proxy/filter/setting-user/" + rule;
    '/' !in rule && start <= key && (|key| == |start| || key[|start|] == '/')
  }

  /** A user has a rule of this name. */
  ghost predicate Own(reg: Reg, rule: string) {
    exists key :: key in reg && OwnKey(key, rule)
  }

  function Type(reg: Reg, kind: string, rule: string): string {
    var key := "proxy/filter/" + kind + "/" + rule + "/filtertype";
    if key in reg then reg[key] else "whitelist-blacklist-pass"
  }

  predicate Known(type_: string) {
    type_ == "whitelist-blacklist-pass" || type_ == "whitelist-block" || type_ == "blacklist-pass"
  }

  /** What a request may do under a rule of this type, by the lists it is on. */
  predicate Permits(type_: string, forced: bool, white: bool, black: bool, global: bool) {
    if type_ == "blacklist-pass" then !black && !global
    else if forced && global then false
    else if white then true
    else type_ == "whitelist-blacklist-pass" && !black && !global
  }

  ghost predicate ListsPermit(reg: Reg, base: string, type_: string, forced: bool, global: bool, request: Request) {
    Permits(type_, forced, EntryHit(reg, base, "whitelisted", request), EntryHit(reg, base, "blacklisted", request),
      global)
  }

  ghost predicate DefaultPermits(reg: Reg, forced: bool, global: bool, request: Request) {
    ListsPermit(reg, "proxy/filter/", "whitelist-blacklist-pass", forced, global, request)
  }

  /** A rule of an unknown type is no rule. */
  ghost predicate RulePermits(reg: Reg, kind: string, rule: string, forced: bool, global: bool, request: Request) {
    if Known(Type(reg, kind, rule)) then
      ListsPermit(reg, "proxy/filter/" + kind + "/" + rule + "/", Type(reg, kind, rule), forced, global, request)
    else DefaultPermits(reg, forced, global, request)
  }

  // ---------- rooms ----------

  ghost predicate InRoom(reg: Reg, room: string, client: Client) {
    var key := "proxy/filter/room/" + room + "/ip";
    '/' !in room && key in reg && exists w :: Word(reg[key], w) && client.covers(w)
  }

  /** A user's own rule of the name goes before a shared one. */
  ghost predicate RoomPermits(reg: Reg, room: string, forced: bool, global: bool, request: Request) {
    var key := "proxy/filter/room/" + room + "/rule";
    if key in reg && Own(reg, reg[key]) then RulePermits(reg, "setting-user", reg[key], forced, global, request)
    else if key in reg && Defined(reg, "setting", reg[key]) then
      RulePermits(reg, "setting", reg[key], forced, global, request)
    else DefaultPermits(reg, forced, global, request)
  }

  // ---------- blocked hosts and groups ----------

  ghost predicate BlockedBy(reg: Reg, key: string, client: Client) {
    key in reg && "proxy/filter/hostgroup/blacklisted/" <= key && exists w :: Word(reg[key], w) && client.covers(w)
  }

  ghost predicate InGroup(reg: Reg, domain: string, group: string, user: string) {
    var key := "proxy/filter/usergroup/" + group;
    key in reg && exists m :: Piece(reg[key], ',', m) && (user == m || user == domain + "\\" + m)
  }

  /** The rule of a group is named under groupdefault and defined. */
  ghost predicate Assigned(reg: Reg, group: string, rule: string) {
    var key := "proxy/filter/groupdefault/" + group;
    key in reg && reg[key] == rule && Defined(reg, "setting", rule)
  }

  /** Only digits make a priority; without one a rule has priority 0. */
  function PriorityOf(reg: Reg, rule: string): int {
    var key := "proxy/filter/setting/" + rule + "/priority";
    if key in reg && Digits(reg[key]) then Value(reg[key]) else 0
  }

  ghost predicate Applies(reg: Reg, domain: string, group: string, rule: string, user: string) {
    '/' !in group && InGroup(reg, domain, group, user) && Assigned(reg, group, rule)
  }

  /** No other group that applies has a rule of higher priority, or of the same one and a later name. */
  ghost predicate Foremost(reg: Reg, domain: string, group: string, rule: string, user: string) {
    && Applies(reg, domain, group, rule, user)
    && forall g, r :: Applies(reg, domain, g, r, user) ==>
         && PriorityOf(reg, r) <= PriorityOf(reg, rule)
         && (PriorityOf(reg, r) == PriorityOf(reg, rule) ==> !Later(g, group))
  }

  // ---------- the decision ----------

  function Answer(permitted: bool): Decision {
    if permitted then Pass else Block
  }

  /** A room that holds the client decides; else a blocked host group blocks; else the foremost group of the user
      decides; else the default does. */
  ghost predicate Reading(reg: Reg, domain: string, forced: bool, global: bool, client: Client, request: Request,
                          d: Decision) {
    if exists room :: InRoom(reg, room, client) then
      exists room :: InRoom(reg, room, client) && d == Answer(RoomPermits(reg, room, forced, global, request))
    else if exists key :: BlockedBy(reg, key, client) then d == Block
    else if exists group, rule :: Applies(reg, domain, group, rule, client.user) then
      exists group, rule :: Foremost(reg, domain, group, rule, client.user)
        && d == Answer(RulePermits(reg, "setting", rule, forced, global, request))
    else d == Answer(DefaultPermits(reg, forced, global, request))
  }

  // ---------- what a run needs and shows ----------

  /** Where blocked requests are sent: the configured target, or a page on this host. */
  function RedirectTo(reg: Reg): Option<string> {
    if "proxy/filter/redirecttarget" in reg then Some(reg["proxy/filter/redirecttarget"])
    else if "hostname" in reg && "domainname" in reg then
      Some("http://" + reg["hostname"] + "." + reg["domainname"] + "/blocked-by-squid.html")
    else None
  }

  predicate OnlyWordAt(s: string, i: nat, j: nat) {
    i < j <= |s| && forall k :: 0 <= k < |s| ==> (Blank(s[k]) <==> k < i || j <= k)
  }

  /** The text is this word, with white space around it. */
  ghost predicate OnlyWord(s: string, w: string) {
    exists i: nat, j: nat :: OnlyWordAt(s, i, j) && s[i..j] == w
  }

  /** The registry has what a run reads, and no blocked host group without a name. */
  predicate CanRun(reg: Reg) {
    "windows/domain" in reg && RedirectTo(reg).Some? && "proxy/filter/hostgroup/blacklisted/" !in reg
  }
}
