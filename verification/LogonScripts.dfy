/** The listener that decides which users need a new logon script when groups, shares or users change. */
module LogonScripts {
  import opened Text

  /** Attributes of an entry; an entry that does not exist has none. */
  type Attrs = map<string, seq<string>>

  /** What the listener can look up: groups and shares by distinguished name. */
  datatype Directory = Directory(groups: map<string, Attrs>, shares: map<string, Attrs>)

  const ABSENT: Attrs := map[]
  const SHARE_GID := "univentionShareGid"
  const SHARE_NAME := "univentionShareSambaName"
  const SHARE_HOST := "univentionShareHost"
  const GROUP_GID := "gidNumber"
  const MEMBER := "uniqueMember"

  function Values(attrs: Attrs, attr: string): seq<string> {
    if attr in attrs then attrs[attr] else []
  }

  function First(attrs: Attrs, attr: string): string {
    if Values(attrs, attr) != [] then Values(attrs, attr)[0] else ""
  }

  function ValueSet(attrs: Attrs, attr: string): set<string> {
    set v | v in Values(attrs, attr)
  }

  /** The attributes are compared as sets. */
  predicate RelevantChange(was: Attrs, now: Attrs, attrs: seq<string>) {
    exists i :: 0 <= i < |attrs| && ValueSet(was, attrs[i]) != ValueSet(now, attrs[i])
  }

  /** The values of an attribute are the same in both entries, whatever their order. */
  predicate SameValues(was: Attrs, now: Attrs, attr: string) {
    (set v | attr in was && v in was[attr]) == (set v | attr in now && v in now[attr])
  }

  lemma RelevantExactly(was: Attrs, now: Attrs, attrs: seq<string>)
    ensures RelevantChange(was, now, attrs) <==> exists i :: 0 <= i < |attrs| && !SameValues(was, now, attrs[i])
  {
    forall attr
      ensures ValueSet(was, attr) == ValueSet(now, attr) <==> SameValues(was, now, attr)
    {
      assert ValueSet(was, attr) == set v | attr in was && v in was[attr];
      assert ValueSet(now, attr) == set v | attr in now && v in now[attr];
    }
    hide ValueSet, SameValues;
  }

  predicate IsUser(dn: string) {
    StartsWith(dn, "uid=")
  }

  predicate ShareUses(dir: Directory, gid: string) {
    exists dn :: dn in dir.shares && First(dir.shares[dn], SHARE_GID) == gid
  }

  predicate HasGid(dir: Directory, dn: string, gid: string) {
    dn in dir.groups && First(dir.groups[dn], GROUP_GID) == gid
  }

  function Users(members: set<string>): set<string> {
    set u | u in members && IsUser(u)
  }

  // ---------- who is queued ----------

  /** A group change queues the users that join or leave, but none when no share uses the group. */
  function QueuedByGroup(dir: Directory, now: Attrs, was: Attrs): set<string> {
    var before, after := ValueSet(was, MEMBER), ValueSet(now, MEMBER);
    if now != ABSENT && First(now, GROUP_GID) != "" && !ShareUses(dir, First(now, GROUP_GID)) then {}
    else Users((before - after) + (after - before))
  }

  /** All users of the groups with this number, when a share uses it. */
  function QueuedByGid(dir: Directory, gid: string): set<string> {
    if gid == "" || !ShareUses(dir, gid) then {}
    else set dn, u | dn in dir.groups && HasGid(dir, dn, gid) && u in ValueSet(dir.groups[dn], MEMBER) && IsUser(u) :: u
  }

  function QueuedByShare(dir: Directory, now: Attrs, was: Attrs): set<string> {
    if was == ABSENT && now == ABSENT then {}
    else if was == ABSENT then QueuedByGid(dir, First(now, SHARE_GID))
    else if now == ABSENT then QueuedByGid(dir, First(was, SHARE_GID))
    else if !RelevantChange(was, now, [SHARE_NAME, SHARE_HOST, SHARE_GID]) then {}
    else QueuedByGid(dir, First(was, SHARE_GID)) + QueuedByGid(dir, First(now, SHARE_GID))
  }

  /** No two groups have the same number. */
  ghost predicate UniqueGids(dir: Directory) {
    forall a, b, gid :: HasGid(dir, a, gid) && HasGid(dir, b, gid) && gid != "" ==> a == b
  }

  lemma GroupFound(dir: Directory, gid: string, dn: string)
    requires gid != "" && HasGid(dir, dn, gid)
    ensures var queued := QueuedByGroup(dir, dir.groups[dn], ABSENT);
      queued <= QueuedByGid(dir, gid) && (UniqueGids(dir) ==> queued == QueuedByGid(dir, gid))
  {
    assert dir.groups[dn] != ABSENT;
    hide ShareUses;
    var members := ValueSet(dir.groups[dn], MEMBER);
    assert ValueSet(ABSENT, MEMBER) == {} && ({} - members) + (members - {}) == members;
  }

  lemma ThreeExactly(was: Attrs, now: Attrs, a: string, b: string, c: string)
    ensures RelevantChange(was, now, [a, b, c])
      <==> !SameValues(was, now, a) || !SameValues(was, now, b) || !SameValues(was, now, c)
  {
    RelevantExactly(was, now, [a, b, c]);
    hide RelevantChange, SameValues;
    assert [a, b, c][0] == a && [a, b, c][1] == b && [a, b, c][2] == c;
  }

  // ---------- the same, with the attributes written out ----------

  /** The first value of the attribute. */
  predicate FirstIs(attrs: Attrs, attr: string, v: string) {
    attr in attrs && |attrs[attr]| > 0 && attrs[attr][0] == v
  }

  predicate Lists(attrs: Attrs, attr: string, v: string) {
    attr in attrs && v in attrs[attr]
  }

  /** Some share belongs to the group with this number. */
  predicate SharedBy(dir: Directory, gid: string) {
    exists dn :: dn in dir.shares && FirstIs(dir.shares[dn], "univentionShareGid", gid)
  }

  /** The user is in a group with this number, and a share belongs to it. */
  predicate Concerned(dir: Directory, gid: string, user: string) {
    && gid != "" && SharedBy(dir, gid) && "uid=" <= user
    && exists dn :: dn in dir.groups && FirstIs(dir.groups[dn], "gidNumber", gid)
                    && Lists(dir.groups[dn], "uniqueMember", user)
  }

  lemma FirstExactly(attrs: Attrs, attr: string, v: string)
    requires v != ""
    ensures First(attrs, attr) == v <==> FirstIs(attrs, attr, v)
  {
  }

  lemma SharedExactly(dir: Directory, gid: string)
    requires gid != ""
    ensures ShareUses(dir, gid) <==> SharedBy(dir, gid)
  {
    forall dn | dn in dir.shares
      ensures First(dir.shares[dn], SHARE_GID) == gid <==> FirstIs(dir.shares[dn], "univentionShareGid", gid)
    {
      FirstExactly(dir.shares[dn], SHARE_GID, gid);
    }
    hide First, FirstIs;
  }

  /** Who is queued for a group number: exactly the users in a group with it, when a share belongs to it. */
  lemma ByGidExactly(dir: Directory, gid: string, user: string)
    ensures user in QueuedByGid(dir, gid) <==> Concerned(dir, gid, user)
  {
    if gid != "" {
      SharedExactly(dir, gid);
      forall dn | dn in dir.groups
        ensures First(dir.groups[dn], GROUP_GID) == gid <==> FirstIs(dir.groups[dn], "gidNumber", gid)
        ensures user in ValueSet(dir.groups[dn], MEMBER) <==> Lists(dir.groups[dn], "uniqueMember", user)
      {
        FirstExactly(dir.groups[dn], GROUP_GID, gid);
      }
      assert IsUser(user) <==> "uid=" <= user;
      hide First, FirstIs, ValueSet, Lists, IsUser, ShareUses, SharedBy;
    }
  }

  /** The user is a member either before or after the event, and the group has no number now that no share belongs
      to. */
  ghost predicate JoinsOrLeaves(dir: Directory, now: Attrs, was: Attrs, user: string) {
    && "uid=" <= user && Lists(was, "uniqueMember", user) != Lists(now, "uniqueMember", user)
    && !exists gid :: gid != "" && FirstIs(now, "gidNumber", gid) && !SharedBy(dir, gid)
  }

  /** Who is queued for a group event. */
  lemma ByGroupExactly(dir: Directory, now: Attrs, was: Attrs, user: string)
    ensures user in QueuedByGroup(dir, now, was) <==> JoinsOrLeaves(dir, now, was, user)
  {
    var gid := First(now, GROUP_GID);
    if gid != "" {
      SharedExactly(dir, gid);
      FirstExactly(now, GROUP_GID, gid);
    }
    forall g | g != "" && FirstIs(now, "gidNumber", g)
      ensures g == gid
    {
      FirstExactly(now, GROUP_GID, g);
    }
    assert user in ValueSet(was, MEMBER) <==> Lists(was, "uniqueMember", user);
    assert user in ValueSet(now, MEMBER) <==> Lists(now, "uniqueMember", user);
    assert IsUser(user) <==> "uid=" <= user;
    assert gid != "" ==> now != ABSENT;
    hide First, FirstIs, ValueSet, Lists, IsUser, ShareUses, SharedBy;
  }

  /** Who is queued for a share event: nobody when name, host and group stay the same; else those concerned by its
      group before and its group after. */
  lemma ByShareExactly(dir: Directory, now: Attrs, was: Attrs, user: string)
    ensures user in QueuedByShare(dir, now, was) <==> (
      && !(SameValues(was, now, "univentionShareSambaName") && SameValues(was, now, "univentionShareHost")
           && SameValues(was, now, "univentionShareGid") && was != map[] && now != map[])
      && exists gid :: Concerned(dir, gid, user)
                       && (FirstIs(was, "univentionShareGid", gid) || FirstIs(now, "univentionShareGid", gid)))
  {
    ThreeExactly(was, now, SHARE_NAME, SHARE_HOST, SHARE_GID);
    var a, b := First(was, SHARE_GID), First(now, SHARE_GID);
    ByGidExactly(dir, a, user);
    ByGidExactly(dir, b, user);
    forall gid | Concerned(dir, gid, user)
      ensures FirstIs(was, "univentionShareGid", gid) <==> a == gid
      ensures FirstIs(now, "univentionShareGid", gid) <==> b == gid
    {
      FirstExactly(was, SHARE_GID, gid);
      FirstExactly(now, SHARE_GID, gid);
    }
    assert First(ABSENT, SHARE_GID) == "" && !Concerned(dir, "", user);
    hide SameValues, RelevantChange, First, FirstIs, Concerned, QueuedByGid;
  }

  /** The listener with the queue it fills; the directory is what it finds when it looks something up. */
  class Listener {
    var directory: Directory
    var queue: set<string>

    method HasRelevantChange(was: Attrs, now: Attrs, attrs: seq<string>) returns (relevant: bool)
      ensures relevant == RelevantChange(was, now, attrs)
      ensures relevant <==> exists i :: 0 <= i < |attrs| && !SameValues(was, now, attrs[i])
    {
      RelevantExactly(was, now, attrs);
      for i := 0 to |attrs|
        invariant forall j :: 0 <= j < i ==> ValueSet(was, attrs[j]) == ValueSet(now, attrs[j])
      {
        if ValueSet(was, attrs[i]) != ValueSet(now, attrs[i]) {
          return true;
        }
      }
      return false;
    }

    method HandleGroup(now: Attrs, was: Attrs)
      modifies `queue
      ensures queue == old(queue) + QueuedByGroup(directory, now, was)
      ensures forall user :: user in queue <==> user in old(queue) || JoinsOrLeaves(directory, now, was, user)
    {
      forall user
        ensures user in QueuedByGroup(directory, now, was) <==> JoinsOrLeaves(directory, now, was, user)
      {
        ByGroupExactly(directory, now, was, user);
      }
      hide JoinsOrLeaves;
      if now != ABSENT && First(now, GROUP_GID) != "" {
        if !ShareUses(directory, First(now, GROUP_GID)) {
          return;
        }
      }
      var before, after := ValueSet(was, MEMBER), ValueSet(now, MEMBER);
      queue := queue + Users((before - after) + (after - before));
    }

    /** Takes the first group found; there should be only one. */
    method AddGroupChange(gid: string)
      modifies `queue
      ensures old(queue) <= queue <= old(queue) + QueuedByGid(directory, gid)
      ensures UniqueGids(directory) ==> queue == old(queue) + QueuedByGid(directory, gid)
    {
      if gid == "" {
        return;
      }
      var found := set dn | dn in directory.groups && HasGid(directory, dn, gid);
      if found == {} {
        assert forall dn :: HasGid(directory, dn, gid) ==> dn in found;
        return;
      }
      var dn :| dn in found;
      GroupFound(directory, gid, dn);
      HandleGroup(directory.groups[dn], ABSENT);
    }

    method HandleShare(now: Attrs, was: Attrs)
      modifies `queue
      ensures old(queue) <= queue <= old(queue) + QueuedByShare(directory, now, was)
      ensures UniqueGids(directory) ==> queue == old(queue) + QueuedByShare(directory, now, was)
      ensures
        (was != map[] && now != map[] && SameValues(was, now, "univentionShareSambaName")
         && SameValues(was, now, "univentionShareHost") && SameValues(was, now, "univentionShareGid"))
        ==> queue == old(queue)
    {
      ThreeExactly(was, now, SHARE_NAME, SHARE_HOST, SHARE_GID);
      hide SameValues, RelevantChange;
      if was == ABSENT && now != ABSENT {
        AddGroupChange(First(now, SHARE_GID));
      } else if was != ABSENT && now == ABSENT {
        AddGroupChange(First(was, SHARE_GID));
      }
      if was != ABSENT && now != ABSENT {
        var relevant := HasRelevantChange(was, now, [SHARE_NAME, SHARE_HOST, SHARE_GID]);
        if !relevant {
          return;
        }
        AddGroupChange(First(was, SHARE_GID));
        AddGroupChange(First(now, SHARE_GID));
      }
    }

    /** A user is queued unless the entry was there before and keeps its name, primary group and home. */
    method HandleUser(dn: string, now: Attrs, was: Attrs)
      modifies `queue
      ensures queue == old(queue) +
        (if was != ABSENT && now != ABSENT && !RelevantChange(was, now, ["uid", "gidNumber", "homeDirectory"])
         then {} else {dn})
      ensures
        if was != map[] && now != map[]
           && SameValues(was, now, "uid") && SameValues(was, now, "gidNumber") && SameValues(was, now, "homeDirectory")
        then queue == old(queue) else queue == old(queue) + {dn}
    {
      ThreeExactly(was, now, "uid", "gidNumber", "homeDirectory");
      hide SameValues, RelevantChange;
      if was != ABSENT && now != ABSENT {
        var relevant := HasRelevantChange(was, now, ["uid", "gidNumber", "homeDirectory"]);
        if !relevant {
          return;
        }
      }
      queue := queue + {dn};
    }
  }

  // ---------- which shares a user reaches ----------

  ghost predicate Links(dir: Directory, user: string, group: string, share: string) {
    && group in dir.groups && share in dir.shares && user in ValueSet(dir.groups[group], MEMBER)
    && First(dir.groups[group], GROUP_GID) == First(dir.shares[share], SHARE_GID) != ""
  }

  predicate Called(dir: Directory, share: string, name: string, host: string) {
    share in dir.shares && First(dir.shares[share], SHARE_NAME) == name && First(dir.shares[share], SHARE_HOST) == host
  }

  /** The user is in a group that a share of this name on this host belongs to. */
  ghost predicate Reaches(dir: Directory, user: string, name: string, host: string) {
    exists group, share :: Links(dir, user, group, share) && Called(dir, share, name, host)
  }

  /** The user's logon script has to change. */
  ghost predicate Affected(dir: Directory, dir': Directory, user: string) {
    IsUser(user) && exists name, host :: Reaches(dir, user, name, host) != Reaches(dir', user, name, host)
  }

  function Updated(entries: map<string, Attrs>, dn: string, now: Attrs): map<string, Attrs> {
    if now == ABSENT then entries - {dn} else entries[dn := now]
  }

  function Entry(entries: map<string, Attrs>, dn: string): Attrs {
    if dn in entries then entries[dn] else ABSENT
  }

  /** A group with the user in it and a share of this name on this host have one number. */
  predicate Through(groups: map<string, Attrs>, shares: map<string, Attrs>, user: string, group: string, share: string,
                    name: string, host: string) {
    && group in groups && share in shares && Lists(groups[group], "uniqueMember", user)
    && "gidNumber" in groups[group] && |groups[group]["gidNumber"]| > 0 && groups[group]["gidNumber"][0] != ""
    && FirstIs(shares[share], "univentionShareGid", groups[group]["gidNumber"][0])
    && FirstIs(shares[share], "univentionShareSambaName", name) && FirstIs(shares[share], "univentionShareHost", host)
  }

  /** The same with the attributes written out. */
  lemma ReachesExactly(dir: Directory, user: string, name: string, host: string)
    requires name != "" && host != ""
    ensures Reaches(dir, user, name, host)
      <==> exists group, share :: Through(dir.groups, dir.shares, user, group, share, name, host)
  {
    forall group, share
      ensures Links(dir, user, group, share) && Called(dir, share, name, host)
        <==> Through(dir.groups, dir.shares, user, group, share, name, host)
    {
      if group in dir.groups && share in dir.shares {
        LinkExactly(dir, user, group, share, name, host);
      }
    }
    hide Links, Called, Through;
  }

  lemma LinkExactly(dir: Directory, user: string, group: string, share: string, name: string, host: string)
    requires name != "" && host != "" && group in dir.groups && share in dir.shares
    ensures Links(dir, user, group, share) && Called(dir, share, name, host)
      <==> Through(dir.groups, dir.shares, user, group, share, name, host)
  {
    FirstExactly(dir.shares[share], SHARE_NAME, name);
    FirstExactly(dir.shares[share], SHARE_HOST, host);
    var gid := First(dir.groups[group], GROUP_GID);
    if gid != "" {
      FirstExactly(dir.shares[share], SHARE_GID, gid);
    }
    assert user in ValueSet(dir.groups[group], MEMBER) <==> Lists(dir.groups[group], "uniqueMember", user);
    hide FirstIs, ValueSet, Lists;
  }

  // ---------- group events ----------

  lemma LinkThroughOther(dir: Directory, dn: string, now: Attrs, user: string, group: string, share: string)
    requires group != dn
    ensures Links(dir, user, group, share) <==> Links(dir.(groups := Updated(dir.groups, dn, now)), user, group, share)
  {
  }

  /** No user is missed when a group is added, changed or deleted, as long as it keeps its number. */
  lemma GroupMissesNobody(dir: Directory, dn: string, now: Attrs, user: string)
    requires dn in dir.groups && now != ABSENT ==> First(now, GROUP_GID) == First(dir.groups[dn], GROUP_GID)
    requires Affected(dir, dir.(groups := Updated(dir.groups, dn, now)), user)
    ensures user in QueuedByGroup(dir.(groups := Updated(dir.groups, dn, now)), now, Entry(dir.groups, dn))
  {
    hide ValueSet, First, IsUser;
    var dir' := dir.(groups := Updated(dir.groups, dn, now));
    var name, host :| Reaches(dir, user, name, host) != Reaches(dir', user, name, host);
    if Reaches(dir, user, name, host) {
      var group, share :| Links(dir, user, group, share) && Called(dir, share, name, host);
      if group != dn {
        LinkThroughOther(dir, dn, now, user, group, share);
      }
      Joined(dir, dir', dn, now, user, share, name, host);
    } else {
      var group, share :| Links(dir', user, group, share) && Called(dir', share, name, host);
      if group != dn {
        LinkThroughOther(dir, dn, now, user, group, share);
      }
      Joined(dir, dir', dn, now, user, share, name, host);
    }
  }

  /** A share reached through the group only before, or only after. */
  lemma Joined(dir: Directory, dir': Directory, dn: string, now: Attrs, user: string, share: string, name: string,
               host: string)
    requires dir' == dir.(groups := Updated(dir.groups, dn, now)) && IsUser(user)
    requires dn in dir.groups && now != ABSENT ==> First(now, GROUP_GID) == First(dir.groups[dn], GROUP_GID)
    requires Reaches(dir, user, name, host) != Reaches(dir', user, name, host)
    requires Called(dir, share, name, host) && (Links(dir, user, dn, share) || Links(dir', user, dn, share))
    ensures user in QueuedByGroup(dir', now, Entry(dir.groups, dn))
  {
    hide First, IsUser;
    assert !(Links(dir, user, dn, share) && Links(dir', user, dn, share));
    assert ValueSet(ABSENT, MEMBER) == {};
    hide ValueSet;
    if now != ABSENT {
      assert ShareUses(dir', First(now, GROUP_GID));
    }
  }

  // ---------- group events that change the number ----------

  /** Some share of this number has this name on this host. */
  ghost predicate Offers(dir: Directory, gid: string, name: string, host: string) {
    gid != "" && exists share :: Called(dir, share, name, host) && First(dir.shares[share], SHARE_GID) == gid
  }

  /** What a group with these attributes gives to a member. */
  ghost predicate GroupGives(dir: Directory, attrs: Attrs, user: string, name: string, host: string) {
    user in ValueSet(attrs, MEMBER) && Offers(dir, First(attrs, GROUP_GID), name, host)
  }

  ghost predicate ReachesOtherwise(dir: Directory, dn: string, user: string, name: string, host: string) {
    exists group, share :: group != dn && Links(dir, user, group, share) && Called(dir, share, name, host)
  }

  lemma GroupSplit(dir: Directory, dn: string, user: string, name: string, host: string)
    ensures Reaches(dir, user, name, host)
            <==> ReachesOtherwise(dir, dn, user, name, host) || GroupGives(dir, Entry(dir.groups, dn), user, name, host)
  {
    assert ValueSet(ABSENT, MEMBER) == {};
    hide First, ValueSet;
    if GroupGives(dir, Entry(dir.groups, dn), user, name, host) {
      var share :| Called(dir, share, name, host)
        && First(dir.shares[share], SHARE_GID) == First(Entry(dir.groups, dn), GROUP_GID);
      assert Links(dir, user, dn, share);
    }
  }

  function ChangedGroups(dir: Directory, dn: string, now: Attrs): Directory {
    dir.(groups := Updated(dir.groups, dn, now))
  }

  lemma AfterGroup(dir: Directory, dn: string, now: Attrs, user: string, name: string, host: string)
    ensures var dir' := ChangedGroups(dir, dn, now);
      && Entry(dir'.groups, dn) == now
      && (ReachesOtherwise(dir', dn, user, name, host) <==> ReachesOtherwise(dir, dn, user, name, host))
      && (forall attrs :: GroupGives(dir', attrs, user, name, host) <==> GroupGives(dir, attrs, user, name, host))
      && (forall gid :: ShareUses(dir', gid) <==> ShareUses(dir, gid))
  {
    EntryUpdated(dir.groups, dn, now);
    hide First, ValueSet, Entry;
    forall group, share | group != dn
      ensures Links(ChangedGroups(dir, dn, now), user, group, share) <==> Links(dir, user, group, share)
    {
      LinkThroughOther(dir, dn, now, user, group, share);
    }
  }

  /** The user was in the group before, and either still is, or no share uses the group's number now; and something
      that no other group gives to the user is given by the group before or after the event, but not both. */
  ghost predicate MissedByNumber(dir: Directory, dn: string, now: Attrs, user: string) {
    var was := Entry(dir.groups, dn);
    && IsUser(user) && now != ABSENT && user in ValueSet(was, MEMBER)
    && (user in ValueSet(now, MEMBER) || (First(now, GROUP_GID) != "" && !ShareUses(dir, First(now, GROUP_GID))))
    && exists name, host :: !ReachesOtherwise(dir, dn, user, name, host)
                            && GroupGives(dir, was, user, name, host) != GroupGives(dir, now, user, name, host)
  }

  lemma QueuedInGroup(dir: Directory, now: Attrs, was: Attrs, user: string)
    ensures user in QueuedByGroup(dir, now, was) <==>
      && IsUser(user) && (user in ValueSet(was, MEMBER)) != (user in ValueSet(now, MEMBER))
      && !(now != ABSENT && First(now, GROUP_GID) != "" && !ShareUses(dir, First(now, GROUP_GID)))
  {
    hide ShareUses, IsUser, ValueSet, First;
  }

  lemma UnusedOffersNothing(dir: Directory, gid: string, name: string, host: string)
    requires gid == "" || !ShareUses(dir, gid)
    ensures !Offers(dir, gid, name, host)
  {
    hide First;
  }

  /** Without any condition on numbers: exactly these users are missed by a group event. */
  lemma GroupMissesExactly(dir: Directory, dn: string, now: Attrs, user: string)
    ensures var dir' := ChangedGroups(dir, dn, now);
      Affected(dir, dir', user) && user !in QueuedByGroup(dir', now, Entry(dir.groups, dn))
      <==> MissedByNumber(dir, dn, now, user)
  {
    var dir', was := ChangedGroups(dir, dn, now), Entry(dir.groups, dn);
    assert ValueSet(ABSENT, MEMBER) == {};
    QueuedInGroup(dir', now, was, user);
    AfterGroup(dir, dn, now, user, "", "");
    forall name, host
      ensures Reaches(dir, user, name, host) != Reaches(dir', user, name, host) <==>
        && !ReachesOtherwise(dir, dn, user, name, host)
        && GroupGives(dir, was, user, name, host) != GroupGives(dir, now, user, name, host)
    {
      GroupSplit(dir, dn, user, name, host);
      GroupSplit(dir', dn, user, name, host);
      AfterGroup(dir, dn, now, user, name, host);
    }
    forall name, host | First(now, GROUP_GID) == "" || !ShareUses(dir, First(now, GROUP_GID))
      ensures !GroupGives(dir, now, user, name, host)
    {
      UnusedOffersNothing(dir, First(now, GROUP_GID), name, host);
    }
    hide First, ValueSet, ShareUses, Reaches, ReachesOtherwise, ChangedGroups, Entry, QueuedByGroup, IsUser, Offers;
  }

  // ---------- share events ----------

  /** At most one name, host and group number. */
  predicate SingleValued(attrs: Attrs) {
    |Values(attrs, SHARE_NAME)| <= 1 && |Values(attrs, SHARE_HOST)| <= 1 && |Values(attrs, SHARE_GID)| <= 1
  }

  lemma SameFirst(was: Attrs, now: Attrs, attr: string)
    requires |Values(was, attr)| <= 1 && |Values(now, attr)| <= 1 && ValueSet(was, attr) == ValueSet(now, attr)
    ensures First(was, attr) == First(now, attr)
  {
    hide Values;
    assert Values(was, attr) != [] ==> Values(was, attr)[0] in ValueSet(was, attr);
    assert Values(now, attr) != [] ==> Values(now, attr)[0] in ValueSet(now, attr);
  }

  lemma Irrelevant(was: Attrs, now: Attrs)
    requires SingleValued(was) && SingleValued(now) && !RelevantChange(was, now, [SHARE_NAME, SHARE_HOST, SHARE_GID])
    ensures First(was, SHARE_NAME) == First(now, SHARE_NAME) && First(was, SHARE_HOST) == First(now, SHARE_HOST)
    ensures First(was, SHARE_GID) == First(now, SHARE_GID)
  {
    hide First, Values, ValueSet;
    var attrs := [SHARE_NAME, SHARE_HOST, SHARE_GID];
    assert ValueSet(was, attrs[0]) == ValueSet(now, attrs[0]) && ValueSet(was, attrs[1]) == ValueSet(now, attrs[1])
           && ValueSet(was, attrs[2]) == ValueSet(now, attrs[2]);
    SameFirst(was, now, SHARE_NAME);
    SameFirst(was, now, SHARE_HOST);
    SameFirst(was, now, SHARE_GID);
  }

  ghost predicate InGroup(dir: Directory, user: string, gid: string) {
    exists group :: HasGid(dir, group, gid) && user in ValueSet(dir.groups[group], MEMBER)
  }

  lemma QueuedMembers(dir: Directory, gid: string, user: string)
    ensures user in QueuedByGid(dir, gid)
      <==> gid != "" && ShareUses(dir, gid) && IsUser(user) && InGroup(dir, user, gid)
  {
    hide ShareUses, IsUser, ValueSet;
  }

  /** Shares other than the changed one link as before. */
  lemma OtherShare(dir: Directory, dn: string, now: Attrs, share: string, user: string, group: string, name: string,
                   host: string)
    requires share != dn
    ensures var dir' := ChangedShares(dir, dn, now);
      && (Links(dir', user, group, share) <==> Links(dir, user, group, share))
      && (Called(dir', share, name, host) <==> Called(dir, share, name, host))
  {
    hide First, ValueSet;
  }

  /** The share of a link is used by the group's number, and the user is in that group. */
  lemma LinkedGid(dir: Directory, user: string, group: string, share: string)
    requires Links(dir, user, group, share)
    ensures var gid := First(dir.shares[share], SHARE_GID);
      gid != "" && ShareUses(dir, gid) && InGroup(dir, user, gid)
  {
    hide First, ValueSet;
    assert HasGid(dir, group, First(dir.shares[share], SHARE_GID));
  }

  /** What a share with these attributes gives to the members of its group. */
  ghost predicate Gives(dir: Directory, attrs: Attrs, user: string, name: string, host: string) {
    && attrs != ABSENT && First(attrs, SHARE_GID) != "" && InGroup(dir, user, First(attrs, SHARE_GID))
    && First(attrs, SHARE_NAME) == name && First(attrs, SHARE_HOST) == host
  }

  /** Reaching a share, by the changed one or by another. */
  ghost predicate ReachesOther(dir: Directory, dn: string, user: string, name: string, host: string) {
    exists group, share :: share != dn && Links(dir, user, group, share) && Called(dir, share, name, host)
  }

  lemma ReachSplit(dir: Directory, dn: string, user: string, name: string, host: string)
    ensures Reaches(dir, user, name, host)
            <==> ReachesOther(dir, dn, user, name, host) || Gives(dir, Entry(dir.shares, dn), user, name, host)
  {
    hide First, ValueSet;
    if Gives(dir, Entry(dir.shares, dn), user, name, host) {
      var group :| HasGid(dir, group, First(dir.shares[dn], SHARE_GID)) && user in ValueSet(dir.groups[group], MEMBER);
      assert Links(dir, user, group, dn) && Called(dir, dn, name, host);
    }
    if group, share :| Links(dir, user, group, share) && Called(dir, share, name, host) && share == dn {
      LinkedGid(dir, user, group, share);
      assert dir.shares[dn] != ABSENT by { NonEmpty(dir.shares[dn]); }
    }
  }

  lemma NonEmpty(attrs: Attrs)
    requires First(attrs, SHARE_GID) != ""
    ensures attrs != ABSENT
  {
  }

  lemma AfterShare(dir: Directory, dn: string, now: Attrs, user: string, name: string, host: string)
    ensures var dir' := ChangedShares(dir, dn, now);
      && Entry(dir'.shares, dn) == now
      && (ReachesOther(dir', dn, user, name, host) <==> ReachesOther(dir, dn, user, name, host))
      && (Gives(dir', now, user, name, host) <==> Gives(dir, now, user, name, host))
  {
    var dir' := ChangedShares(dir, dn, now);
    assert forall gid :: InGroup(dir', user, gid) <==> InGroup(dir, user, gid) by {
      hide ValueSet, First;
      assert forall group, gid :: HasGid(dir', group, gid) <==> HasGid(dir, group, gid);
    }
    hide InGroup, First, Called, Links, Updated;
    forall group, share | share != dn
      ensures Links(dir', user, group, share) <==> Links(dir, user, group, share)
      ensures Called(dir', share, name, host) <==> Called(dir, share, name, host)
    {
      OtherShare(dir, dn, now, share, user, group, name, host);
    }
    assert Entry(dir'.shares, dn) == now by { EntryUpdated(dir.shares, dn, now); }
  }

  lemma EntryUpdated(entries: map<string, Attrs>, dn: string, now: Attrs)
    ensures Entry(Updated(entries, dn, now), dn) == now
  {
  }

  /** The change takes the last share of the user's group away: no other share gives the user what this one gave,
      and the user is in no group that the share belongs to now. */
  ghost predicate LosesLastShare(dir: Directory, dir': Directory, now: Attrs, was: Attrs, user: string) {
    var gid := First(was, SHARE_GID);
    && IsUser(user) && gid != "" && InGroup(dir, user, gid) && !ShareUses(dir', gid)
    && !Reaches(dir', user, First(was, SHARE_NAME), First(was, SHARE_HOST))
    && !(now != ABSENT && First(now, SHARE_GID) != "" && InGroup(dir, user, First(now, SHARE_GID)))
  }

  function ChangedShares(dir: Directory, dn: string, now: Attrs): Directory {
    dir.(shares := Updated(dir.shares, dn, now))
  }

  lemma NowUsed(dir: Directory, dn: string, now: Attrs)
    ensures now != ABSENT ==> ShareUses(ChangedShares(dir, dn, now), First(now, SHARE_GID))
    ensures ChangedShares(dir, dn, now).groups == dir.groups
  {
    hide First;
    if now != ABSENT {
      assert ChangedShares(dir, dn, now).shares[dn] == now;
    }
  }

  lemma SameGroups(dir: Directory, dn: string, now: Attrs, user: string, gid: string)
    ensures InGroup(ChangedShares(dir, dn, now), user, gid) <==> InGroup(dir, user, gid)
  {
    hide First, ValueSet;
    assert forall group :: HasGid(ChangedShares(dir, dn, now), group, gid) <==> HasGid(dir, group, gid);
  }

  lemma LastShareMissed(dir: Directory, dn: string, now: Attrs, user: string)
    requires LosesLastShare(dir, ChangedShares(dir, dn, now), now, Entry(dir.shares, dn), user)
    ensures Affected(dir, ChangedShares(dir, dn, now), user)
    ensures user !in QueuedByShare(ChangedShares(dir, dn, now), now, Entry(dir.shares, dn))
  {
    var dir', was := ChangedShares(dir, dn, now), Entry(dir.shares, dn);
    var name, host := First(was, SHARE_NAME), First(was, SHARE_HOST);
    NonEmpty(was);
    ReachSplit(dir, dn, user, name, host);
    QueuedMembers(dir', First(was, SHARE_GID), user);
    QueuedMembers(dir', First(now, SHARE_GID), user);
    SameGroups(dir, dn, now, user, First(now, SHARE_GID));
    hide First, Reaches, ReachesOther, InGroup, ShareUses, ChangedShares, Entry, QueuedByGid, RelevantChange, IsUser;
    assert Gives(dir, was, user, name, host);
    assert Reaches(dir, user, name, host) != Reaches(dir', user, name, host);
  }

  /** A user whom the changed share gives something new is queued. */
  lemma GivenQueued(dir: Directory, dn: string, now: Attrs, user: string, name: string, host: string)
    requires SingleValued(Entry(dir.shares, dn)) && SingleValued(now) && IsUser(user)
    requires Gives(dir, now, user, name, host) && !Gives(dir, Entry(dir.shares, dn), user, name, host)
    ensures user in QueuedByShare(ChangedShares(dir, dn, now), now, Entry(dir.shares, dn))
  {
    var dir', was := ChangedShares(dir, dn, now), Entry(dir.shares, dn);
    NowUsed(dir, dn, now);
    SameGroups(dir, dn, now, user, First(now, SHARE_GID));
    QueuedMembers(dir', First(now, SHARE_GID), user);
    hide First, InGroup, ShareUses, ChangedShares, Entry, QueuedByGid, RelevantChange, IsUser, SingleValued;
    if was != ABSENT && !RelevantChange(was, now, [SHARE_NAME, SHARE_HOST, SHARE_GID]) {
      Irrelevant(was, now);
    }
  }

  /** A user from whom the change takes something, and who is not queued, loses the last share of the group. */
  lemma TakenMissed(dir: Directory, dn: string, now: Attrs, user: string, name: string, host: string)
    requires SingleValued(Entry(dir.shares, dn)) && SingleValued(now) && IsUser(user)
    requires Gives(dir, Entry(dir.shares, dn), user, name, host)
    requires !Reaches(ChangedShares(dir, dn, now), user, name, host)
    requires !Gives(dir, now, user, name, host)
    requires user !in QueuedByShare(ChangedShares(dir, dn, now), now, Entry(dir.shares, dn))
    ensures LosesLastShare(dir, ChangedShares(dir, dn, now), now, Entry(dir.shares, dn), user)
  {
    var dir', was := ChangedShares(dir, dn, now), Entry(dir.shares, dn);
    NowUsed(dir, dn, now);
    SameGroups(dir, dn, now, user, First(now, SHARE_GID));
    SameGroups(dir, dn, now, user, First(was, SHARE_GID));
    QueuedMembers(dir', First(now, SHARE_GID), user);
    QueuedMembers(dir', First(was, SHARE_GID), user);
    hide First, InGroup, ShareUses, ChangedShares, Entry, QueuedByGid, RelevantChange, IsUser, SingleValued, Reaches;
    if now != ABSENT && !RelevantChange(was, now, [SHARE_NAME, SHARE_HOST, SHARE_GID]) {
      Irrelevant(was, now);
    }
  }

  lemma MissedLostShare(dir: Directory, dn: string, now: Attrs, user: string)
    requires SingleValued(Entry(dir.shares, dn)) && SingleValued(now)
    requires Affected(dir, ChangedShares(dir, dn, now), user)
    requires user !in QueuedByShare(ChangedShares(dir, dn, now), now, Entry(dir.shares, dn))
    ensures LosesLastShare(dir, ChangedShares(dir, dn, now), now, Entry(dir.shares, dn), user)
  {
    var dir', was := ChangedShares(dir, dn, now), Entry(dir.shares, dn);
    var name, host :| Reaches(dir, user, name, host) != Reaches(dir', user, name, host);
    ReachSplit(dir, dn, user, name, host);
    ReachSplit(dir', dn, user, name, host);
    AfterShare(dir, dn, now, user, name, host);
    hide First, InGroup, ShareUses, Entry, QueuedByShare, IsUser, SingleValued, Reaches, ReachesOther, Gives,
      LosesLastShare;
    if Gives(dir, was, user, name, host) {
      TakenMissed(dir, dn, now, user, name, host);
    } else {
      GivenQueued(dir, dn, now, user, name, host);
    }
  }

  /** Exactly the users who lose the last share of their group are missed. */
  lemma ShareMissesExactly(dir: Directory, dn: string, now: Attrs, user: string)
    requires SingleValued(Entry(dir.shares, dn)) && SingleValued(now)
    ensures var dir' := ChangedShares(dir, dn, now);
      Affected(dir, dir', user) && user !in QueuedByShare(dir', now, Entry(dir.shares, dn))
      <==> LosesLastShare(dir, dir', now, Entry(dir.shares, dn), user)
  {
    var dir', was := ChangedShares(dir, dn, now), Entry(dir.shares, dn);
    hide Affected, SingleValued, QueuedByShare, ChangedShares, Entry, LosesLastShare;
    if LosesLastShare(dir, dir', now, was, user) {
      LastShareMissed(dir, dn, now, user);
    }
    if Affected(dir, dir', user) && user !in QueuedByShare(dir', now, was) {
      MissedLostShare(dir, dn, now, user);
    }
  }

  // ---------- runs ----------

  datatype Event = GroupEvent(dn: string, now: Attrs) | ShareEvent(dn: string, now: Attrs)

  function AfterEvent(dir: Directory, e: Event): Directory {
    match e
    case GroupEvent(dn, now) => dir.(groups := Updated(dir.groups, dn, now))
    case ShareEvent(dn, now) => ChangedShares(dir, dn, now)
  }

  /** What the listener queues when it sees the event after the directory has changed. */
  function QueuedBy(dir: Directory, e: Event): set<string> {
    match e
    case GroupEvent(dn, now) => QueuedByGroup(AfterEvent(dir, e), now, Entry(dir.groups, dn))
    case ShareEvent(dn, now) => QueuedByShare(AfterEvent(dir, e), now, Entry(dir.shares, dn))
  }

  /** Shares have at most one name, host and group number. */
  ghost predicate Proper(dir: Directory, e: Event) {
    e.ShareEvent? ==> SingleValued(Entry(dir.shares, e.dn)) && SingleValued(e.now)
  }

  /** The users an event affects without queueing them. */
  ghost predicate Missed(dir: Directory, e: Event, user: string) {
    match e
    case GroupEvent(dn, now) => MissedByNumber(dir, dn, now, user)
    case ShareEvent(dn, now) => LosesLastShare(dir, ChangedShares(dir, dn, now), now, Entry(dir.shares, dn), user)
  }

  /** Groups keep their numbers; a share leaves its group, by being deleted or moved, only if another one stays. */
  ghost predicate Gentle(dir: Directory, e: Event) {
    match e
    case GroupEvent(dn, now) =>
      dn in dir.groups && now != ABSENT ==> First(now, GROUP_GID) == First(dir.groups[dn], GROUP_GID)
    case ShareEvent(dn, now) =>
      var gid := First(Entry(dir.shares, dn), SHARE_GID);
      gid != "" ==> ShareUses(AfterEvent(dir, e), gid)
  }

  /** Exactly the missed ones among the affected users are not queued. */
  lemma EventQueues(dir: Directory, e: Event, user: string)
    requires Proper(dir, e) && Affected(dir, AfterEvent(dir, e), user)
    ensures user in QueuedBy(dir, e) <==> !Missed(dir, e, user)
  {
    hide Affected, QueuedByGroup, QueuedByShare, MissedByNumber, LosesLastShare, SingleValued, Entry, Updated;
    match e
    case GroupEvent(dn, now) => GroupMissesExactly(dir, dn, now, user);
    case ShareEvent(dn, now) => ShareMissesExactly(dir, dn, now, user);
  }

  /** A gentle event misses nobody. */
  lemma GentleMissesNobody(dir: Directory, e: Event, user: string)
    requires Gentle(dir, e) && Affected(dir, AfterEvent(dir, e), user)
    ensures !Missed(dir, e, user)
  {
    match e
    case GroupEvent(dn, now) =>
      hide Affected, QueuedByGroup, First, Entry, Updated, MissedByNumber;
      GroupMissesNobody(dir, dn, now, user);
      GroupMissesExactly(dir, dn, now, user);
    case ShareEvent(dn, now) =>
      hide Affected, ShareUses, First, Entry, Updated, ChangedShares, IsUser, InGroup, Reaches;
  }

  /** The directory before and after each event; at no time do two groups have one number. */
  ghost predicate Run(dirs: seq<Directory>, events: seq<Event>) {
    && |dirs| == |events| + 1
    && (forall i :: 0 <= i <= |events| ==> UniqueGids(dirs[i]))
    && forall i :: 0 <= i < |events| ==> Proper(dirs[i], events[i]) && dirs[i + 1] == AfterEvent(dirs[i], events[i])
  }

  ghost function QueueAfter(dirs: seq<Directory>, events: seq<Event>): set<string>
    requires |dirs| == |events| + 1
  {
    if events == [] then {}
    else QueueAfter(dirs[..|dirs| - 1], events[..|events| - 1]) + QueuedBy(dirs[|dirs| - 2], events[|events| - 1])
  }

  /** The listener called for each event, with the directory as it is right after it, queues just these users. */
  method Listen(l: Listener, dirs: seq<Directory>, events: seq<Event>)
    requires Run(dirs, events)
    modifies l
    ensures l.queue == old(l.queue) + QueueAfter(dirs, events)
  {
    hide UniqueGids, Proper, AfterEvent, QueuedByGroup, QueuedByShare, Entry, JoinsOrLeaves, SameValues;
    for i := 0 to |events|
      invariant l.queue == old(l.queue) + QueueAfter(dirs[..i + 1], events[..i])
    {
      var e := events[i];
      l.directory := dirs[i + 1];
      match e {
        case GroupEvent(dn, now) => l.HandleGroup(now, Entry(dirs[i].groups, dn));
        case ShareEvent(dn, now) => l.HandleShare(now, Entry(dirs[i].shares, dn));
      }
      assert dirs[..i + 2][..|dirs[..i + 2]| - 1] == dirs[..i + 1]
        && events[..i + 1][..|events[..i + 1]| - 1] == events[..i];
    }
    assert dirs[..|events| + 1] == dirs && events[..|events|] == events;
  }

  /** Over every run of group and share events, every user whose script has to change at some event is queued,
      unless the user is one of those that this event misses. */
  lemma {:induction false} OnlyThoseMissed(dirs: seq<Directory>, events: seq<Event>, i: nat, user: string)
    requires Run(dirs, events) && i < |events| && Affected(dirs[i], dirs[i + 1], user)
    requires !Missed(dirs[i], events[i], user)
    ensures user in QueueAfter(dirs, events)
  {
    hide Proper, Affected, AfterEvent, QueuedBy, Missed, UniqueGids;
    if i == |events| - 1 {
      EventQueues(dirs[i], events[i], user);
    } else {
      OnlyThoseMissed(dirs[..|dirs| - 1], events[..|events| - 1], i, user);
    }
  }

  /** In particular every such user is queued when groups keep their numbers and keep a share. */
  lemma NobodyMissed(dirs: seq<Directory>, events: seq<Event>, i: nat, user: string)
    requires Run(dirs, events) && i < |events| && Gentle(dirs[i], events[i]) && Affected(dirs[i], dirs[i + 1], user)
    ensures user in QueueAfter(dirs, events)
  {
    hide Affected, Missed, Gentle, QueueAfter, Proper, AfterEvent, UniqueGids;
    GentleMissesNobody(dirs[i], events[i], user);
    OnlyThoseMissed(dirs, events, i, user);
  }

  /** Deleting the only share of a group with a user in it queues nobody. */
  lemma LastShareExample()
    ensures var group := map[GROUP_GID := ["5"], MEMBER := ["uid=ann"]];
      var share := map[SHARE_GID := ["5"], SHARE_NAME := ["work"], SHARE_HOST := ["srv"]];
      var dir := Directory(map["cn=class" := group], map["cn=work" := share]);
      && Affected(dir, ChangedShares(dir, "cn=work", ABSENT), "uid=ann")
      && "uid=ann" !in QueuedByShare(ChangedShares(dir, "cn=work", ABSENT), ABSENT, share)
  {
    var group := map[GROUP_GID := ["5"], MEMBER := ["uid=ann"]];
    var share := map[SHARE_GID := ["5"], SHARE_NAME := ["work"], SHARE_HOST := ["srv"]];
    var dir := Directory(map["cn=class" := group], map["cn=work" := share]);
    AttributesApart();
    assert HasGid(dir, "cn=class", "5") && "uid=ann" in ValueSet(dir.groups["cn=class"], MEMBER);
    assert IsUser("uid=ann");
    assert LosesLastShare(dir, ChangedShares(dir, "cn=work", ABSENT), ABSENT, share, "uid=ann");
    LastShareMissed(dir, "cn=work", ABSENT, "uid=ann");
  }

  lemma AttributesApart()
    ensures GROUP_GID != MEMBER && SHARE_GID != SHARE_NAME && SHARE_GID != SHARE_HOST && SHARE_NAME != SHARE_HOST
  {
    assert |GROUP_GID| != |MEMBER| && |SHARE_GID| != |SHARE_NAME| && |SHARE_GID| != |SHARE_HOST|
      && |SHARE_NAME| != |SHARE_HOST|;
  }
}
