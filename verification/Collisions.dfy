/** When a blocked host group is printed under another source's name, and what happens then. */
module Collisions {
  import opened Text
  import opened Quote
  import opened Registry
  import opened Rooms
  import opened Lists
  import opened SquidGuard
  import opened Compiler
  import opened Access
  import opened Policy

  /** The raw host group name runs on behind the prefix with an unsafe character whose hex digits start r. */
  ghost predicate RunsInto(h: string, p: string, r: string) {
    |p| < |h| && h[..|p|] == p && EscapeStarts(h[|p|..], r)
  }

  lemma CollidesExactly(h: string, r: string)
    ensures Quoted(h) == RoomName(r) <==> RunsInto(h, "room", r)
    ensures Quoted(h) == GroupFile(r) <==> RunsInto(h, "usergroup", r)
    ensures Quoted(h) == "default" <==> h == "default"
  {
    assert "room" + "-" == "room-" && "usergroup" + "-" == "usergroup-";
    hide Quoted, EscapeStarts;
    PrefixCollision(h, "room", r);
    PrefixCollision(h, "usergroup", r);
    QuotedSafe("default");
    Injective(h, "default");
  }

  /** The names are clear exactly when no host group is called default and none runs into a known room or a
      group with a rule. */
  lemma ClearNamesExactly(reg: Reg)
    ensures ClearNames(reg) <==>
            forall key :: IsHostKey(reg, key) ==>
              && HostName(key) != "default"
              && (forall room :: KnownRoom(reg, room) ==> !RunsInto(HostName(key), "room", room))
              && (forall g :: IsGroup(reg, g) ==> !RunsInto(HostName(key), "usergroup", g.name))
  {
    forall key | IsHostKey(reg, key)
      ensures HostNameOf(key) == "default" <==> HostName(key) == "default"
      ensures forall r :: HostNameOf(key) == RoomName(r) <==> RunsInto(HostName(key), "room", r)
      ensures forall r :: HostNameOf(key) == GroupFile(r) <==> RunsInto(HostName(key), "usergroup", r)
    {
      CollidesExactly(HostName(key), "");
      forall r
        ensures HostNameOf(key) == RoomName(r) <==> RunsInto(HostName(key), "room", r)
        ensures HostNameOf(key) == GroupFile(r) <==> RunsInto(HostName(key), "usergroup", r)
      {
        CollidesExactly(HostName(key), r);
      }
    }
    hide KnownRoom, IsGroup, RunsInto, RoomName, GroupFile, HostNameOf, HostName, HostgroupPrefix;
  }

  /** Names a school may well use: the host group room-A collides with the room 2dA. */
  lemma CollisionExample()
    ensures RunsInto("room-A", "room", "2dA") && Quoted("room-A") == RoomName("2dA")
  {
    assert "room-A"[..4] == "room" && "room-A"[4..] == "-A";
    assert Utf8('-') == [0x2D];
    assert HexDigit(2) == '2' && HexDigit(13) == 'd';
    assert Hex([0x2D]) == "2d" + Hex([]);
    assert Hex(Utf8('-')) == "2d";
    assert "-A"[0] == '-' && "-A"[1..] == "A" && "2d" + "A" == "2dA";
    CollidesExactly("room-A", "2dA");
  }

  // ---------- what happens then ----------

  /** A name is taken exactly when some host group's raw name runs into it. */
  lemma TakenExactly(reg: Reg, r: string)
    ensures Taken(reg, RoomName(r)) <==> exists key :: IsHostKey(reg, key) && RunsInto(HostNameFor(key), "room", r)
    ensures Taken(reg, GroupFile(r))
      <==> exists key :: IsHostKey(reg, key) && RunsInto(HostNameFor(key), "usergroup", r)
    ensures Taken(reg, "default") <==> exists key :: IsHostKey(reg, key) && HostNameFor(key) == "default"
  {
    forall key | IsHostKey(reg, key)
      ensures HostNameOf(key) == RoomName(r) <==> RunsInto(HostNameFor(key), "room", r)
      ensures HostNameOf(key) == GroupFile(r) <==> RunsInto(HostNameFor(key), "usergroup", r)
      ensures HostNameOf(key) == "default" <==> HostNameFor(key) == "default"
    {
      CollidesExactly(HostName(key), r);
    }
    hide RunsInto, RoomName, GroupFile, HostNameOf, HostName, HostNameFor, IsHostKey;
  }

  function HostNameFor(key: string): string {
    if StartsWith(key, HostgroupPrefix()) then HostName(key) else ""
  }

  /** The room is decided under a taken name: its own, or, without a rule in force, the default one. */
  ghost predicate RoomClashes(reg: Reg, room: string) {
    Taken(reg, RoomName(room)) || (!RoomRuled(reg, room) && Taken(reg, "default"))
  }

  ghost predicate GroupClashes(reg: Reg, g: Group) {
    Taken(reg, GroupFile(g.name)) || (!KnownType(FilterType(reg, "setting", g.rule)) && Taken(reg, "default"))
  }

  /** The client is decided under a name that a blocked host group has taken. */
  ghost predicate Clashes(reg: Reg, domain: string, client: Client) {
    if exists room :: RoomCovers(reg, room, client) then
      exists room :: RoomCovers(reg, room, client) && RoomClashes(reg, room)
    else if exists key :: HostCovers(reg, key, client) then false
    else if exists g :: Candidate(reg, domain, g, client.user) then
      exists g :: Best(reg, domain, g, client.user) && GroupClashes(reg, g)
    else Taken(reg, "default")
  }

  ghost predicate OneRoom(reg: Reg, client: Client) {
    forall a, b :: RoomCovers(reg, a, client) && RoomCovers(reg, b, client) ==> a == b
  }

  lemma RoomByName(reg: Reg, room: string, forced: bool, global: bool, request: Request)
    ensures var v := RoomVerdict(reg, room, forced, global, request);
      if RoomClashes(reg, room) then v == Block else v == Verdict(RoomPasses(reg, room, forced, global, request))
  {
    hide Taken, RoomRuleKey, HasUserRule, SettingNames, FilterType, KnownType, OwnerPasses, DefaultPasses, RoomName;
  }

  lemma GroupByName(reg: Reg, g: Group, forced: bool, global: bool, request: Request)
    ensures var v := GroupVerdict(reg, g, forced, global, request);
      if GroupClashes(reg, g) then v == Block else v == Verdict(GroupPasses(reg, g, forced, global, request))
  {
    hide Taken, FilterType, KnownType, OwnerPasses, DefaultPasses, GroupFile;
  }

  lemma OneBest(reg: Reg, domain: string, g: Group, h: Group, user: string)
    requires Best(reg, domain, g, user) && Best(reg, domain, h, user)
    ensures g == h
  {
    hide Candidate, Less;
    LessOrder(g, h);
  }

  /** The reading by name blocks a client under a taken name, and agrees with the direct reading otherwise. */
  lemma ByNameExactly(reg: Reg, domain: string, forced: bool, global: bool, client: Client, request: Request,
                      d: Decision)
    requires OneRoom(reg, client) && SaysByName(reg, domain, forced, global, client, request, d)
    ensures if Clashes(reg, domain, client) then d == Block else Says(reg, domain, forced, global, client, request, d)
  {
    hide RoomCovers, HostCovers, Candidate, Best, RoomVerdict, GroupVerdict, RoomPasses, GroupPasses, DefaultPasses,
      RoomClashes, GroupClashes, Taken;
    if exists room :: RoomCovers(reg, room, client) {
      var room :| RoomCovers(reg, room, client) && d == RoomVerdict(reg, room, forced, global, request);
      RoomByName(reg, room, forced, global, request);
    } else if !(exists key :: HostCovers(reg, key, client)) && exists g :: Candidate(reg, domain, g, client.user) {
      var g :| Best(reg, domain, g, client.user) && d == GroupVerdict(reg, g, forced, global, request);
      GroupByName(reg, g, forced, global, request);
      if h :| Best(reg, domain, h, client.user) && GroupClashes(reg, h) {
        OneBest(reg, domain, g, h, client.user);
      }
    }
  }

  /** Without any condition on names: who is decided under a taken name is blocked, so the policy is kept for a
      client in at most one room if and only if no taken name decides, or the registry blocks the request too. */
  lemma PolicyExactly(reg: Reg, domain: string, p: Plan, home: string, files: Files, client: Client, request: Request)
    requires Plans(reg, p) && HoldsLists(reg, domain, p, files) && OneRoom(reg, client)
    ensures var global, d := GlobalHit(files, request), Decide(Final(p, home), files, client, request);
      && (Clashes(reg, domain, client) ==> d == Block)
      && (Says(reg, domain, p.forced, global, client, request, d)
          <==> !Clashes(reg, domain, client) || Says(reg, domain, p.forced, global, client, request, Block))
  {
    hide Plans, HoldsLists, OneRoom, Clashes, Says, SaysByName, Decide, Final, GlobalHit;
    PolicyByName(reg, domain, p, home, files, client, request);
    ByNameExactly(reg, domain, p.forced, GlobalHit(files, request), client, request,
      Decide(Final(p, home), files, client, request));
  }

  /** A room that shares its printed name with a blocked host group is blocked for every request, whatever its
      rule: so the policy fails there exactly when the room's rule would let the request pass. */
  lemma CollisionBlocks(reg: Reg, p: Plan, home: string, files: Files, client: Client, request: Request, room: string,
                        key: string)
    requires Plans(reg, p) && IsHostKey(reg, key) && HostNameOf(key) == RoomName(room)
    requires RoomCovers(reg, room, client) && forall r :: RoomCovers(reg, r, client) ==> r == room
    ensures Decide(Final(p, home), files, client, request) == Block
    ensures forall domain, global :: Says(reg, domain, p.forced, global, client, request, Block)
              <==> !RoomPasses(reg, room, p.forced, global, request)
  {
    hide Plans, RoomCovers, HostCovers, Candidate, RoomPasses, GroupPasses, DefaultPasses, Final, Decide, IsHostKey,
      FirstMatch, RoomSources, HostSources, GroupSources;
    MatchInSections(p, home, files, client);
    MatchingRoom(reg, p, files, client);
    DecideHost(reg, p, home, files, client, request, key);
  }
}
