/** The loop that turns registry keys into the room tables, and what the tables mean. */
module Rooms {
  import opened Options
  import opened Text
  import opened Registry

  /** A Python dictionary: a map that remembers the order of first insertion. */
  datatype Dict<V> = Dict(order: seq<string>, items: map<string, V>) {
    ghost predicate Valid() {
      NoDup(order) && forall k :: k in order <==> k in items
    }

    function Put(k: string, v: V): (d: Dict<V>)
      ensures Valid() ==> d.Valid()
      ensures d.items == items[k := v]
    {
      Dict(if k in items then order else order + [k], items[k := v])
    }
  }

  function EmptyDict<V>(): (d: Dict<V>)
    ensures d.Valid()
  {
    Dict([], map[])
  }

  /** Addresses by room, rooms by the rule set for them, and the names of users' own rules. */
  datatype Tables = Tables(
    roomIPs: Dict<seq<string>>,
    roomRule: Dict<seq<string>>,
    roomRules: seq<string>)

  // ---------- a direct reading of the registry ----------

  ghost predicate KnownRoom(reg: Reg, room: string) {
    '/' !in room && (RoomIpKey(room) in reg || RoomRuleKey(room) in reg)
  }

  function RoomAddresses(reg: Reg, room: string): seq<string> {
    if RoomIpKey(room) in reg then Words(reg[RoomIpKey(room)]) else []
  }

  ghost predicate HasRule(reg: Reg, room: string, rule: string) {
    '/' !in room && RoomRuleKey(room) in reg && reg[RoomRuleKey(room)] == rule
  }

  /** The rooms listed under a rule; none under an unknown one. */
  function RoomsOf(d: Dict<seq<string>>, rule: string): seq<string> {
    if rule in d.items then d.items[rule] else []
  }

  ghost predicate ReadsIPs(reg: Reg, d: Dict<seq<string>>) {
    && d.Valid()
    && (forall room :: room in d.items <==> KnownRoom(reg, room))
    && (forall room :: room in d.items ==> d.items[room] == RoomAddresses(reg, room))
  }

  ghost predicate ReadsRules(reg: Reg, d: Dict<seq<string>>) {
    && d.Valid()
    && (forall rule :: rule in d.items ==> d.items[rule] != [])
    && (forall rule :: NoDup(RoomsOf(d, rule)))
    && (forall rule, room :: room in RoomsOf(d, rule) <==> HasRule(reg, room, rule))
  }

  /** The tables say exactly what the registry says, whatever the order of its keys. */
  ghost predicate Reads(reg: Reg, t: Tables) {
    && ReadsIPs(reg, t.roomIPs)
    && ReadsRules(reg, t.roomRule)
    && forall user :: user in t.roomRules <==> HasUserRule(reg, user)
  }

  // ---------- one key at a time ----------

  lemma DistinctRoomKeys(room: string, other: string)
    requires '/' !in room && '/' !in other
    ensures RoomIpKey(room) != RoomRuleKey(other)
    ensures room != other ==> RoomIpKey(room) != RoomIpKey(other) && RoomRuleKey(room) != RoomRuleKey(other)
  {
    ParseRoomKeyMeaning(RoomIpKey(room), room);
    ParseRoomKeyMeaning(RoomIpKey(room), other);
    ParseRoomKeyMeaning(RoomRuleKey(other), other);
    ParseRoomKeyMeaning(RoomRuleKey(room), room);
    ParseRoomKeyMeaning(RoomRuleKey(room), other);
  }

  lemma NotUserRule(key: string)
    requires StartsWith(key, Prefix("room"))
    ensures UserRuleOf(key) == None
  {
    hide Split, Prefix;
    KindSegment(key, "room");
    if StartsWith(key, Prefix("setting-user")) {
      KindSegment(key, "setting-user");
    }
  }

  /** How the direct reading changes when an address key joins the registry. */
  lemma AddIpKey(reg: Reg, room: string, value: string)
    requires '/' !in room && RoomIpKey(room) !in reg
    ensures var reg' := reg[RoomIpKey(room) := value];
      && (forall r :: KnownRoom(reg', r) <==> KnownRoom(reg, r) || r == room)
      && (forall r :: '/' !in r ==> RoomAddresses(reg', r) == if r == room then Words(value) else RoomAddresses(reg, r))
      && (forall r, rule :: HasRule(reg', r, rule) <==> HasRule(reg, r, rule))
      && (forall u :: HasUserRule(reg', u) <==> HasUserRule(reg, u))
  {
    hide Split, Words;
    PrefixSegments("room", room + "/" + "ip");
    NotUserRule(RoomIpKey(room));
    forall r | '/' !in r
      ensures RoomIpKey(room) != RoomRuleKey(r)
      ensures room != r ==> RoomIpKey(room) != RoomIpKey(r)
    {
      DistinctRoomKeys(room, r);
    }
    hide *;
    UserRulesExtend(reg, RoomIpKey(room), value);
  }

  lemma UserRulesExtend(reg: Reg, key: string, value: string)
    requires key !in reg
    ensures forall u :: HasUserRule(reg[key := value], u) <==> HasUserRule(reg, u) || UserRuleOf(key) == Some(u)
  {
    var reg' := reg[key := value];
    forall u
      ensures HasUserRule(reg', u) <==> HasUserRule(reg, u) || UserRuleOf(key) == Some(u)
    {
      if HasUserRule(reg, u) {
        var k :| k in reg && UserRuleOf(k) == Some(u);
        assert k in reg';
      }
      if UserRuleOf(key) == Some(u) {
        assert key in reg';
      }
    }
  }

  /** How the direct reading changes when a rule key joins the registry. */
  lemma AddRuleKey(reg: Reg, room: string, value: string)
    requires '/' !in room && RoomRuleKey(room) !in reg
    ensures var reg' := reg[RoomRuleKey(room) := value];
      && (forall r :: KnownRoom(reg', r) <==> KnownRoom(reg, r) || r == room)
      && (forall r :: '/' !in r ==> RoomAddresses(reg', r) == RoomAddresses(reg, r))
      && (forall r, rule :: HasRule(reg', r, rule) <==> HasRule(reg, r, rule) || (r == room && rule == value))
      && (forall u :: HasUserRule(reg', u) <==> HasUserRule(reg, u))
  {
    hide Split, Words;
    PrefixSegments("room", room + "/" + "rule");
    NotUserRule(RoomRuleKey(room));
    forall r | '/' !in r
      ensures RoomRuleKey(room) != RoomIpKey(r)
      ensures room != r ==> RoomRuleKey(room) != RoomRuleKey(r)
    {
      DistinctRoomKeys(r, room);
      DistinctRoomKeys(room, r);
    }
    hide *;
    UserRulesExtend(reg, RoomRuleKey(room), value);
  }

  /** Other keys change nothing about rooms. */
  lemma AddOtherKey(reg: Reg, key: string, value: string)
    requires ParseRoomKey(key).NoRoomKey? && key !in reg
    ensures var reg' := reg[key := value];
      && (forall r :: KnownRoom(reg', r) <==> KnownRoom(reg, r))
      && (forall r :: '/' !in r ==> RoomAddresses(reg', r) == RoomAddresses(reg, r))
      && (forall r, rule :: HasRule(reg', r, rule) <==> HasRule(reg, r, rule))
      && (forall u :: HasUserRule(reg', u) <==> HasUserRule(reg, u) || UserRuleOf(key) == Some(u))
  {
    hide Split, Words;
    forall r | '/' !in r
      ensures key != RoomIpKey(r) && key != RoomRuleKey(r)
    {
      ParseRoomKeyMeaning(key, r);
    }
    hide *;
    UserRulesExtend(reg, key, value);
  }

  // ---------- the loop ----------

  function PutIp(t: Tables, room: string, value: string): Tables {
    t.(roomIPs := t.roomIPs.Put(room, Words(value)))
  }

  function PutRule(t: Tables, room: string, rule: string): Tables {
    t.(roomRule := t.roomRule.Put(rule, RoomsOf(t.roomRule, rule) + [room]),
       roomIPs := if room in t.roomIPs.items then t.roomIPs else t.roomIPs.Put(room, []))
  }

  lemma ReadsIp(reg: Reg, t: Tables, room: string, value: string)
    requires Reads(reg, t) && '/' !in room && RoomIpKey(room) !in reg
    ensures Reads(reg[RoomIpKey(room) := value], PutIp(t, room, value))
  {
    var reg' := reg[RoomIpKey(room) := value];
    AddIpKey(reg, room, value);
    hide RoomIpKey, RoomRuleKey, Words;
    SetIPs(reg, reg', t.roomIPs, room, Words(value));
    SameRules(reg, reg', t.roomRule);
    hide ReadsIPs, ReadsRules, HasUserRule;
  }

  lemma SetIPs(reg: Reg, reg': Reg, d: Dict<seq<string>>, room: string, words: seq<string>)
    requires ReadsIPs(reg, d)
    requires forall r :: KnownRoom(reg', r) <==> KnownRoom(reg, r) || r == room
    requires forall r :: '/' !in r ==> RoomAddresses(reg', r) == if r == room then words else RoomAddresses(reg, r)
    requires '/' !in room
    ensures ReadsIPs(reg', d.Put(room, words))
  {
    assert forall r :: KnownRoom(reg, r) ==> '/' !in r;
    hide KnownRoom, RoomAddresses;
  }

  lemma SameRules(reg: Reg, reg': Reg, d: Dict<seq<string>>)
    requires ReadsRules(reg, d) && forall r, u :: HasRule(reg', r, u) <==> HasRule(reg, r, u)
    ensures ReadsRules(reg', d)
  {
    hide HasRule;
  }

  lemma ReadsRule(reg: Reg, t: Tables, room: string, rule: string)
    requires Reads(reg, t) && '/' !in room && RoomRuleKey(room) !in reg
    ensures Reads(reg[RoomRuleKey(room) := rule], PutRule(t, room, rule))
  {
    var reg' := reg[RoomRuleKey(room) := rule];
    AddRuleKey(reg, room, rule);
    KeepIPs(reg, reg', t.roomIPs, room);
    assert !HasRule(reg, room, rule);
    ExtendRules(reg, reg', t.roomRule, room, rule);
    hide ReadsIPs, ReadsRules, HasUserRule, RoomsOf;
  }

  lemma KeepIPs(reg: Reg, reg': Reg, d: Dict<seq<string>>, room: string)
    requires ReadsIPs(reg, d)
    requires forall r :: KnownRoom(reg', r) <==> KnownRoom(reg, r) || r == room
    requires forall r :: '/' !in r ==> RoomAddresses(reg', r) == RoomAddresses(reg, r)
    requires '/' !in room
    ensures ReadsIPs(reg', if room in d.items then d else d.Put(room, []))
  {
    assert !KnownRoom(reg, room) ==> RoomAddresses(reg, room) == [];
    assert forall r :: KnownRoom(reg, r) ==> '/' !in r;
    hide KnownRoom, RoomAddresses;
  }

  lemma ExtendRules(reg: Reg, reg': Reg, d: Dict<seq<string>>, room: string, rule: string)
    requires ReadsRules(reg, d) && !HasRule(reg, room, rule)
    requires forall r, u :: HasRule(reg', r, u) <==> HasRule(reg, r, u) || (r == room && u == rule)
    ensures ReadsRules(reg', d.Put(rule, RoomsOf(d, rule) + [room]))
  {
    var d' := d.Put(rule, RoomsOf(d, rule) + [room]);
    assert forall r :: r in d'.items ==> d'.items[r] != [];
    AppendRoom(d, rule, room);
    hide HasRule, RoomsOf;
  }

  lemma AppendRoom(d: Dict<seq<string>>, rule: string, room: string)
    requires room !in RoomsOf(d, rule)
    ensures var d' := d.Put(rule, RoomsOf(d, rule) + [room]);
      && (forall r :: RoomsOf(d', r) == if r == rule then RoomsOf(d, rule) + [room] else RoomsOf(d, r))
      && (NoDup(RoomsOf(d, rule)) ==> NoDup(RoomsOf(d', rule)))
  {
  }

  lemma ReadsOther(reg: Reg, t: Tables, key: string, value: string)
    requires Reads(reg, t) && ParseRoomKey(key).NoRoomKey? && key !in reg
    ensures Reads(reg[key := value],
                  match UserRuleOf(key) case None => t case Some(u) => t.(roomRules := t.roomRules + [u]))
  {
    AddOtherKey(reg, key, value);
    hide KnownRoom, RoomAddresses, HasRule, HasUserRule, UserRuleOf, ParseRoomKey;
  }

  function Restrict(reg: Reg, keys: seq<string>): Reg {
    map k | k in reg && k in keys :: reg[k]
  }

  /** What reading one more key does to the tables. */
  function PutKey(t: Tables, key: string, value: string): Tables {
    match ParseRoomKey(key)
    case Ip(room) => PutIp(t, room, value)
    case Rule(room) => PutRule(t, room, value)
    case NoRoomKey =>
      match UserRuleOf(key)
      case None => t
      case Some(u) => t.(roomRules := t.roomRules + [u])
  }

  lemma ReadsKey(reg: Reg, t: Tables, key: string, value: string)
    requires Reads(reg, t) && key !in reg
    ensures Reads(reg[key := value], PutKey(t, key, value))
  {
    hide ParseRoomKey, Reads, PutIp, PutRule, UserRuleOf, RoomIpKey, RoomRuleKey;
    match ParseRoomKey(key)
    case Ip(room) =>
      ParseRoomKeyMeaning(key, room);
      ReadsIp(reg, t, room, value);
    case Rule(room) =>
      ParseRoomKeyMeaning(key, room);
      ReadsRule(reg, t, room, value);
    case NoRoomKey =>
      ReadsOther(reg, t, key, value);
  }

  lemma KeyParts(key: string)
    ensures var parts := Split(key, '/');
      && (ParseRoomKey(key) ==
          if StartsWith(key, Prefix("room")) && |parts| == 5 && parts[4] == "ip" then Ip(parts[3])
          else if StartsWith(key, Prefix("room")) && |parts| == 5 && parts[4] == "rule" then Rule(parts[3])
          else NoRoomKey)
      && (StartsWith(key, Prefix("setting-user")) ==> |parts| > 3 && UserRuleOf(key) == Some(parts[3]))
      && (!StartsWith(key, Prefix("setting-user")) || StartsWith(key, Prefix("room")) ==> UserRuleOf(key) == None)
  {
    hide Split, Prefix;
    if StartsWith(key, Prefix("room")) {
      NotUserRule(key);
    }
    if StartsWith(key, Prefix("setting-user")) {
      KindSegment(key, "setting-user");
    }
  }

  /** Reads every key once, in the order given. */
  method CollectRooms(reg: Reg, keys: seq<string>) returns (t: Tables)
    requires IsEnumeration(keys, reg)
    ensures Reads(reg, t)
  {
    var roomIPs: Dict<seq<string>>, roomRule: Dict<seq<string>>, roomRules: seq<string> := EmptyDict(), EmptyDict(), [];
    assert Restrict(reg, keys[..0]) == map[];
    hide Split, Words, RoomIpKey, RoomRuleKey, Prefix, StartsWith, ParseRoomKey, UserRuleOf;
    for i := 0 to |keys|
      invariant Reads(Restrict(reg, keys[..i]), Tables(roomIPs, roomRule, roomRules))
    {
      hide Reads, Restrict, IsEnumeration, RoomsOf;
      var key := keys[i];
      RestrictMore(reg, keys, i);
      KeyParts(key);
      ReadsKey(Restrict(reg, keys[..i]), Tables(roomIPs, roomRule, roomRules), key, reg[key]);
      if StartsWith(key, Prefix("room")) {
        var parts := Split(key, '/');
        if |parts| == 5 && parts[4] == "ip" {
          roomIPs := roomIPs.Put(parts[3], Words(reg[key]));
        } else if |parts| == 5 && parts[4] == "rule" {
          roomRule := roomRule.Put(reg[key], RoomsOf(roomRule, reg[key]) + [parts[3]]);
          if parts[3] !in roomIPs.items {
            roomIPs := roomIPs.Put(parts[3], []);
          }
        }
      } else if StartsWith(key, Prefix("setting-user")) {
        roomRules := roomRules + [Split(key, '/')[3]];
      }
    }
    assert keys[..|keys|] == keys;
    assert Restrict(reg, keys) == reg;
    t := Tables(roomIPs, roomRule, roomRules);
  }

  lemma RestrictMore(reg: Reg, keys: seq<string>, i: nat)
    requires IsEnumeration(keys, reg) && i < |keys|
    ensures keys[i] in reg && keys[i] !in Restrict(reg, keys[..i])
    ensures Restrict(reg, keys[..i + 1]) == Restrict(reg, keys[..i])[keys[i] := reg[keys[i]]]
  {
    assert keys[..i + 1] == keys[..i] + [keys[i]];
  }

  // ---------- the order of the keys does not matter ----------

  lemma {:induction false} CountOnce(s: seq<string>, x: string)
    requires NoDup(s)
    ensures multiset(s)[x] == if x in s then 1 else 0
  {
    if s != [] {
      var init, last := s[..|s| - 1], s[|s| - 1];
      assert s == init + [last];
      CountOnce(init, x);
    }
  }

  lemma SameElements(a: seq<string>, b: seq<string>)
    requires NoDup(a) && NoDup(b) && forall x :: x in a <==> x in b
    ensures multiset(a) == multiset(b)
  {
    forall x
      ensures multiset(a)[x] == multiset(b)[x]
    {
      CountOnce(a, x);
      CountOnce(b, x);
    }
  }

  /** Any two enumerations of the same keys give the same addresses and, per rule, the same rooms,
      each of them once. */
  lemma KeyOrderIrrelevant(reg: Reg, a: Tables, b: Tables)
    requires Reads(reg, a) && Reads(reg, b)
    ensures a.roomIPs.items == b.roomIPs.items
    ensures a.roomRule.items.Keys == b.roomRule.items.Keys
    ensures forall rule, room :: multiset(RoomsOf(a.roomRule, rule))[room] == if HasRule(reg, room, rule) then 1 else 0
    ensures forall rule :: multiset(RoomsOf(a.roomRule, rule)) == multiset(RoomsOf(b.roomRule, rule))
  {
    hide KnownRoom, RoomAddresses, HasRule, HasUserRule;
    assert a.roomIPs.items == b.roomIPs.items;
    forall rule
      ensures rule in a.roomRule.items ==> rule in b.roomRule.items
      ensures rule in b.roomRule.items ==> rule in a.roomRule.items
      ensures multiset(RoomsOf(a.roomRule, rule)) == multiset(RoomsOf(b.roomRule, rule))
    {
      if rule in a.roomRule.items {
        assert a.roomRule.items[rule][0] in RoomsOf(b.roomRule, rule);
      }
      if rule in b.roomRule.items {
        assert b.roomRule.items[rule][0] in RoomsOf(a.roomRule, rule);
      }
      SameElements(RoomsOf(a.roomRule, rule), RoomsOf(b.roomRule, rule));
    }
    forall rule, room
      ensures multiset(RoomsOf(a.roomRule, rule))[room] == if HasRule(reg, room, rule) then 1 else 0
    {
      CountOnce(RoomsOf(a.roomRule, rule), room);
    }
  }
}
