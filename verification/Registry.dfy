/** The flat key/value registry and the key names the web proxy reads. */
module Registry {
  import opened Options
  import opened Text
  import opened Numbers

  type Reg = map<string, string>

  /** keys lists the registry's keys, each once, in some order. */
  ghost predicate IsEnumeration(keys: seq<string>, reg: Reg) {
    NoDup(keys) && forall k :: k in keys <==> k in reg
  }

  function Get(reg: Reg, key: string, default: string): string {
    if key in reg then reg[key] else default
  }

  /** The text "proxy/filter/<kind>/". */
  function Prefix(kind: string): string {
    "proxy" + "/" + "filter" + "/" + kind + "/"
  }

  function Suffix(key: string, prefix: string): string
    requires StartsWith(key, prefix)
  {
    key[|prefix|..]
  }

  lemma PrefixSegments(kind: string, rest: string)
    requires '/' !in kind
    ensures Split(Prefix(kind) + rest, '/') == ["proxy", "filter", kind] + Split(rest, '/')
    ensures StartsWith(Prefix(kind) + rest, Prefix(kind)) && Suffix(Prefix(kind) + rest, Prefix(kind)) == rest
  {
    ThreeSegments("proxy", "filter", kind, rest);
  }

  lemma KindSegment(key: string, kind: string)
    requires '/' !in kind && StartsWith(key, Prefix(kind))
    ensures |Split(key, '/')| > 3 && Split(key, '/')[2] == kind
  {
    hide Split, Prefix;
    assert key == Prefix(kind) + Suffix(key, Prefix(kind));
    PrefixSegments(kind, Suffix(key, Prefix(kind)));
  }

  lemma ThreeSegments(a: string, b: string, c: string, rest: string)
    requires '/' !in a && '/' !in b && '/' !in c
    ensures Split(a + "/" + b + "/" + c + "/" + rest, '/') == [a, b, c] + Split(rest, '/')
  {
    hide Split;
    SplitFirst(c, rest, '/');
    SplitFirst(b, c + "/" + rest, '/');
    SplitFirst(a, b + "/" + (c + "/" + rest), '/');
    assert a + "/" + (b + "/" + (c + "/" + rest)) == a + "/" + b + "/" + c + "/" + rest;
  }

  lemma TwoSegments(a: string, b: string)
    requires '/' !in a && '/' !in b
    ensures Split(a + "/" + b, '/') == [a, b]
  {
    SplitFirst(a, b, '/');
    SplitOne(b, '/');
  }

  // ---------- rooms ----------

  function RoomIpKey(room: string): string {
    Prefix("room") + (room + "/" + "ip")
  }

  function RoomRuleKey(room: string): string {
    Prefix("room") + (room + "/" + "rule")
  }

  datatype RoomKey = Ip(room: string) | Rule(room: string) | NoRoomKey

  /** What the source reads out of one key: five segments, the fourth names the room. */
  function ParseRoomKey(key: string): RoomKey {
    var parts := Split(key, '/');
    if StartsWith(key, Prefix("room")) && |parts| == 5 then
      if parts[4] == "ip" then Ip(parts[3])
      else if parts[4] == "rule" then Rule(parts[3])
      else NoRoomKey
    else NoRoomKey
  }

  lemma RoomKeyParses(room: string, kind: string)
    requires '/' !in room && '/' !in kind
    ensures var k := Prefix("room") + (room + "/" + kind);
            StartsWith(k, Prefix("room")) && Split(k, '/') == ["proxy", "filter", "room", room, kind]
  {
    hide Prefix;
    PrefixSegments("room", room + "/" + kind);
    TwoSegments(room, kind);
  }

  lemma ParsedRoomKey(key: string)
    requires StartsWith(key, Prefix("room")) && |Split(key, '/')| == 5
    ensures var parts := Split(key, '/');
            '/' !in parts[3] && key == Prefix("room") + (parts[3] + "/" + parts[4])
  {
    hide Prefix, Split;
    var rest := Suffix(key, Prefix("room"));
    assert key == Prefix("room") + rest;
    PrefixSegments("room", rest);
    var two := Split(rest, '/');
    JoinSplit(rest, '/');
    assert Split(key, '/')[3..] == two;
    assert Split(key, '/')[3] == two[0] && Split(key, '/')[4] == two[1];
    assert Join(two, '/') == two[0] + "/" + two[1];
  }

  /** A key is read as a room's address or rule key exactly when it is that key. */
  lemma ParseRoomKeyMeaning(key: string, room: string)
    ensures ParseRoomKey(key) == Ip(room) <==> key == RoomIpKey(room) && '/' !in room
    ensures ParseRoomKey(key) == Rule(room) <==> key == RoomRuleKey(room) && '/' !in room
  {
    hide Prefix, Split;
    if !ParseRoomKey(key).NoRoomKey? {
      ParsedRoomKey(key);
    }
    if '/' !in room {
      RoomKeyParses(room, "ip");
      RoomKeyParses(room, "rule");
    }
  }

  // ---------- rules ----------

  /** What the rest of the pattern ".*$" accepts: at most a final newline. */
  predicate OneLine(s: string) {
    forall i :: 0 <= i < |s| - 1 ==> s[i] != '\n'
  }

  /** The name a key matching "^proxy/filter/<kind>/([^/]+)/.*$" captures. */
  function Named(key: string, kind: string): (name: Option<string>)
    ensures name.Some? ==> name.value != "" && '/' !in name.value
  {
    if !StartsWith(key, Prefix(kind)) then None
    else
      var parts := Split(Suffix(key, Prefix(kind)), '/');
      if |parts| >= 2 && parts[0] != "" && OneLine(Join(parts[1..], '/')) then Some(parts[0]) else None
  }

  function SettingNames(reg: Reg): set<string> {
    set k | k in reg && Named(k, "setting").Some? :: Named(k, "setting").value
  }

  /** The fourth segment of a key of a user's own rule. */
  function UserRuleOf(key: string): Option<string> {
    if StartsWith(key, Prefix("setting-user")) then
      KindSegment(key, "setting-user");
      Some(Split(key, '/')[3])
    else None
  }

  ghost predicate HasUserRule(reg: Reg, user: string) {
    exists k :: k in reg && UserRuleOf(k) == Some(user)
  }

  function FilterTypeKey(kind: string, rule: string): string {
    Prefix(kind) + (rule + "/filtertype")
  }

  // ---------- groups ----------

  function Priority(reg: Reg, rule: string): nat {
    var p := Get(reg, Prefix("setting") + (rule + "/priority"), "");
    if IsDigits(p) then ParseNat(p) else 0
  }

  /** A priority is the number its digits stand for, with or without zeros in front; a missing one, and one with
      other characters, count as 0. */
  lemma PriorityRead(reg: Reg, rule: string, zeros: nat, n: nat)
    ensures var key := Prefix("setting") + (rule + "/priority");
      && (key in reg && reg[key] == Zeros(zeros) + Numeral(n) ==> Priority(reg, rule) == n)
      && (key in reg && IsDigits(reg[key]) ==> exists k: nat :: reg[key] == Zeros(k) + Numeral(Priority(reg, rule)))
      && (key !in reg || !IsDigits(reg[key]) ==> Priority(reg, rule) == 0)
  {
    ParsePadded(zeros, n);
    var key := Prefix("setting") + (rule + "/priority");
    if key in reg && IsDigits(reg[key]) {
      ReadDigits(reg[key]);
    }
    hide Prefix, ParseNat, Numeral;
  }

  /** The rule assigned to a group, if the registry defines that rule. */
  function AssignedRule(reg: Reg, group: string): Option<string> {
    var rule := Get(reg, Prefix("groupdefault") + group, "");
    if rule != "" && rule in SettingNames(reg) then Some(rule) else None
  }

  function UsergroupKey(group: string): string {
    Prefix("usergroup") + group
  }

  /** The part behind the last slash. */
  function LastSegment(key: string): string {
    var parts := Split(key, '/');
    parts[|parts| - 1]
  }

  function HostgroupPrefix(): string {
    Prefix("hostgroup") + "blacklisted/"
  }
}
