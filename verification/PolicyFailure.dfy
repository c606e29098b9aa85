/** A registry for which a finished run publishes a configuration that contradicts it. */
module PolicyFailure {
  import opened Options
  import opened Text
  import opened Quote
  import opened Registry
  import opened Rooms
  import opened Lists
  import opened SquidGuard
  import opened Printing
  import opened Rendering
  import opened Compiler
  import opened Policy
  import opened Closure
  import opened Collisions
  import opened Publish
  import opened Proxy

  const TARGET_KEY := "proxy/filter/redirecttarget"
  const HOST_KEY := HostgroupPrefix() + "room-A"

  /** One room without a rule, and a host group of another address whose name runs into the room's. */
  const SMALL: Reg := map[HOST_KEY := "10.0.0.9", RoomIpKey("2dA") := "10.0.0.1", TARGET_KEY := "x", DOMAIN_KEY := "d"]

  /** A client in the room, and a request that is on no list. */
  const INSIDE := Client((ip: string) => ip == "10.0.0.1", "ann")
  const UNLISTED := Request((line: string) => false, (line: string) => false)

  /** The letters that tell the keys apart. */
  lemma KeyLetters(room: string)
    ensures forall k | k in {RoomIpKey(room), RoomRuleKey(room)} ::
      |k| > 14 && k[0] == 'p' && k[13] == 'r' && k[14] == 'o'
    ensures |HOST_KEY| > 14 && HOST_KEY[0] == 'p' && HOST_KEY[13] == 'h' && HOST_KEY != HostgroupPrefix()
    ensures |TARGET_KEY| > 14 && TARGET_KEY[0] == 'p' && TARGET_KEY[13] == 'r' && TARGET_KEY[14] == 'e'
    ensures |DOMAIN_KEY| == 14 && DOMAIN_KEY[0] == 'w' && DOMAIN_KEY[13] == 'n'
    ensures HostgroupPrefix()[13] == 'h' && Prefix("setting-user")[13] == 's' && Prefix("usergroup")[13] == 'u'
  {
    assert HostgroupPrefix()[13] == 'h' && HostgroupPrefix()[0] == 'p' && |HostgroupPrefix()| > 14;
    assert RoomIpKey(room)[13] == 'r' && RoomIpKey(room)[14] == 'o' && RoomIpKey(room)[0] == 'p';
    assert RoomRuleKey(room)[13] == 'r' && RoomRuleKey(room)[14] == 'o' && RoomRuleKey(room)[0] == 'p';
  }

  lemma RoomKeyApart(room: string)
    ensures RoomIpKey(room) != HOST_KEY && RoomRuleKey(room) != HOST_KEY
    ensures RoomIpKey(room) != TARGET_KEY && RoomRuleKey(room) != TARGET_KEY
    ensures RoomIpKey(room) != DOMAIN_KEY && RoomRuleKey(room) != DOMAIN_KEY
  {
    KeyLetters(room);
    hide RoomIpKey, RoomRuleKey, HostgroupPrefix, Prefix;
  }

  lemma SmallEntries()
    ensures HOST_KEY in SMALL && TARGET_KEY in SMALL && DOMAIN_KEY in SMALL && RoomIpKey("2dA") in SMALL
    ensures SMALL[HOST_KEY] == "10.0.0.9" && SMALL[TARGET_KEY] == "x" && SMALL[RoomIpKey("2dA")] == "10.0.0.1"
    ensures forall k :: k in SMALL ==> k == HOST_KEY || k == TARGET_KEY || k == DOMAIN_KEY || k == RoomIpKey("2dA")
  {
    RoomKeyApart("2dA");
    KeyLetters("2dA");
    hide RoomIpKey, HostgroupPrefix;
  }

  lemma SmallRooms(room: string)
    ensures KnownRoom(SMALL, room) <==> room == "2dA"
    ensures RoomRuleKey("2dA") !in SMALL
    ensures RoomAddresses(SMALL, "2dA") == ["10.0.0.1"]
  {
    SmallEntries();
    hide RoomIpKey, RoomRuleKey, HostgroupPrefix, Words;
    RoomKeyApart(room);
    RoomKeyApart("2dA");
    assert '/' !in "2dA";
    if '/' !in room {
      DistinctRoomKeys(room, "2dA");
      DistinctRoomKeys("2dA", room);
    }
    DistinctRoomKeys("2dA", "2dA");
    VisibleWord("10.0.0.1");
    WordsLast("10.0.0.1");
  }

  lemma SmallHost()
    ensures Taken(SMALL, RoomName("2dA"))
  {
    var key := HOST_KEY;
    assert Suffix(key, HostgroupPrefix()) == "room-A";
    CollisionExample();
    SmallEntries();
    hide Quoted, RunsInto, HostgroupPrefix;
    assert IsHostKey(SMALL, key) && HostName(key) == "room-A";
    assert HostNameOf(key) == RoomName("2dA");
  }

  lemma UnlistedPasses(reg: Reg, forced: bool, files: Files)
    ensures !GlobalHit(files, UNLISTED) && DefaultPasses(reg, forced, false, UNLISTED)
  {
    hide IsEntry, SlotPrefix;
  }

  /** The registry lets the client's request pass, the configuration blocks it. */
  lemma PlanFails(domain: string, p: Plan, home: string, files: Files)
    requires Plans(SMALL, p) && HoldsLists(SMALL, domain, p, files)
    ensures Decide(Final(p, home), files, INSIDE, UNLISTED) == Block
    ensures Says(SMALL, domain, p.forced, GlobalHit(files, UNLISTED), INSIDE, UNLISTED, Pass)
    ensures !Says(SMALL, domain, p.forced, GlobalHit(files, UNLISTED), INSIDE, UNLISTED, Block)
  {
    hide Plans, HoldsLists, Decide, Final, GlobalHit, KnownRoom, RoomAddresses, RoomRuleKey, Taken, DefaultPasses,
      HostCovers, Candidate, Less, RoomName;
    forall room
      ensures RoomCovers(SMALL, room, INSIDE) <==> room == "2dA"
    {
      SmallRooms(room);
      assert Covered(["10.0.0.1"], INSIDE) by { assert "10.0.0.1" in ["10.0.0.1"]; }
    }
    SmallRooms("2dA");
    SmallHost();
    UnlistedPasses(SMALL, p.forced, files);
    assert RoomCovers(SMALL, "2dA", INSIDE) && RoomClashes(SMALL, "2dA");
    PolicyExactly(SMALL, domain, p, home, files, INSIDE, UNLISTED);
  }

  // ---------- in a run of the handler ----------

  /** The handler can run on this registry: it has all the keys that are read. */
  lemma SmallRunnable()
    ensures Runnable(SMALL) && Redirect(SMALL) == Some("x")
  {
    SmallEntries();
    KeyLetters("2dA");
    hide RoomIpKey, HostgroupPrefix, Prefix;
  }

  /** Its keys and values are ordinary ones. */
  lemma SmallKeys()
    ensures ProperKeys(SMALL) && PlainGroups(SMALL)
  {
    SmallEntries();
    SmallNewlines();
    KeyLetters("2dA");
    hide RoomIpKey, HostgroupPrefix, Split;
    forall key | key in SMALL
      ensures UserRuleOf(key) != Some("") && !StartsWith(key, Prefix("usergroup"))
    {
      if StartsWith(key, Prefix("setting-user")) {
        PrefixLetter(key, Prefix("setting-user"));
      } else if StartsWith(key, Prefix("usergroup")) {
        PrefixLetter(key, Prefix("usergroup"));
      }
    }
  }

  lemma PrefixLetter(key: string, prefix: string)
    requires StartsWith(key, prefix) && |prefix| > 13
    ensures key[13] == prefix[13]
  {
    assert key[..|prefix|][13] == prefix[13];
  }

  lemma SmallNewlines()
    ensures '\n' !in HOST_KEY && '\n' !in TARGET_KEY && '\n' !in DOMAIN_KEY && '\n' !in RoomIpKey("2dA")
  {
  }

  lemma ShortUnmarked(s: string)
    requires |s| < 10 && '\n' !in s
    ensures Unmarked(s)
  {
    assert |MARK| >= 10;
  }

  lemma SmallRedirect()
    ensures Readable("x") && Unmarked("x")
  {
    ShortUnmarked("x");
    VisibleWord("x");
    WordsLast("x");
  }

  lemma SmallAddresses(room: string)
    ensures RoomAddresses(SMALL, room) == [] || RoomAddresses(SMALL, room) == ["10.0.0.1"]
  {
    SmallEntries();
    RoomKeyApart(room);
    VisibleWord("10.0.0.1");
    WordsLast("10.0.0.1");
    hide RoomIpKey, RoomRuleKey, HostgroupPrefix, Words;
  }

  lemma SmallHostAddresses(key: string)
    requires IsHostKey(SMALL, key)
    ensures HostAddresses(SMALL, key) == ["10.0.0.9"]
  {
    SmallHostKey(key);
    SmallEntries();
    SplitOne("10.0.0.9", ' ');
    hide RoomIpKey, HostgroupPrefix, Split;
  }

  lemma SmallText()
    ensures PlainText(SMALL)
  {
    SmallRunnable();
    SmallRedirect();
    ShortUnmarked("10.0.0.1");
    ShortUnmarked("10.0.0.9");
    hide RoomAddresses, HostAddresses, IsHostKey, Unmarked, Runnable, Redirect;
    forall room, i | 0 <= i < |RoomAddresses(SMALL, room)|
      ensures Unmarked(RoomAddresses(SMALL, room)[i])
    {
      SmallAddresses(room);
    }
    forall key, i | IsHostKey(SMALL, key) && 0 <= i < |HostAddresses(SMALL, key)|
      ensures Unmarked(HostAddresses(SMALL, key)[i])
    {
      SmallHostAddresses(key);
    }
  }

  lemma SmallHostKey(key: string)
    requires IsHostKey(SMALL, key)
    ensures key == HOST_KEY
  {
    SmallEntries();
    KeyLetters("2dA");
    PrefixLetter(key, HostgroupPrefix());
    hide RoomIpKey, HostgroupPrefix, StartsWith;
  }

  /** After every finished run on this registry, whatever came before, the live configuration is readable and blocks
      the client's request, which the registry lets pass. */
  lemma PolicyFails(keys: seq<string>, tempName: string, forced: bool, changes: set<string>, domains: seq<string>,
                    urls: seq<string>, p: Plan, files: Files, before: Files, after: Files, live: Option<string>)
    requires IsEnumeration(keys, SMALL) && DirectoryName(tempName)
    requires PublishesRun(SMALL, keys, tempName, forced, changes, domains, urls, p, files, before, after, live)
    ensures live.Some? && Parse(live.value).Some?
    ensures Decide(Parse(live.value).value, after, INSIDE, UNLISTED) == Block
    ensures DOMAIN_KEY in SMALL
    ensures Says(SMALL, SMALL[DOMAIN_KEY], forced, GlobalHit(after, UNLISTED), INSIDE, UNLISTED, Pass)
    ensures !Says(SMALL, SMALL[DOMAIN_KEY], forced, GlobalHit(after, UNLISTED), INSIDE, UNLISTED, Block)
  {
    hide *;
    SmallRunnable();
    SmallKeys();
    SmallText();
    SmallRedirect();
    RunFacts(SMALL, keys, tempName, forced, changes, domains, urls, p, files, before, after, live);
    PlannedRedirect(SMALL, p);
    PublishedMeaning(SMALL, p, tempName, Extended(changes, before));
    LiveLists(SMALL, keys, tempName, forced, changes, domains, urls, p, files, before, after, live);
    PlanFails(SMALL[DOMAIN_KEY], p, DATA, after);
  }

  /** The handler, called on this registry, finishes: the failure is one of its runs. */
  method FailingRun(w: WebProxy, keys: seq<string>, tempName: string, forced: bool, changes: set<string>,
                    domains: seq<string>, urls: seq<string>)
    requires IsEnumeration(keys, SMALL) && DirectoryName(tempName)
    modifies w
    ensures w.live.Some? && Parse(w.live.value).Some?
    ensures Decide(Parse(w.live.value).value, w.data, INSIDE, UNLISTED) == Block
  {
    hide *;
    SmallRunnable();
    ghost var before := w.data;
    var ok, removed, p, files := w.Handler(SMALL, keys, tempName, forced, changes, domains, urls);
    PolicyFails(keys, tempName, forced, changes, domains, urls, p, files, before, w.data, w.live);
  }
}
