# UCS@school: filter compiler, session cache and directory listeners

This project models seven parts of UCS@school and proves what they are for.

**The web proxy's policy compiler** (`Options`, `Numbers`, `Text`, `Quote`, `Registry`, `Rooms`, `Lists`,
`SquidGuard`, `Printing`, `Rendering`, `Compiler`, `Access`, `Policy`, `Closure`, `Collisions`, `Publish`, `Proxy`,
`Runs`, `PolicyFailure`, `Plain`, `Readings`, `PlainPolicy`, `LivePlain`). A flat key/value registry of rooms, groups,
rules and lists is compiled into a squidGuard configuration and a family of list files. The model prints the text the
source prints, reads it back with a small line parser, and interprets it. The main theorem, `Policy.PolicyPreserved`,
says that this interpretation decides every request of every client as a direct reading of the registry does;
`Policy.PolicyByName` and `Collisions.PolicyExactly` do without its condition on names. `Proxy.LivePolicy` carries
that through list writing, the text rewrite and the publishing steps to the files that are live after a run, and
`Runs` to all histories of runs, including runs stopped between two moves. `Plain` states the whole reading once more
with every key written out, using nothing of the compiler; `LivePlain.LiveFollows` says that what is live after a run
decides by it.

**The listener that feeds it** (`PupilGroups`): the registry's member lists agree with the directory after every run
of events, exactly one kind of event breaks that, and a rename is not of that kind.

**The Veyon client's session cache** (`Sessions`, `SessionSafety`, `Paths`, `Lateness`, `Removals`, `VeyonClient`):
any number of threads, asking for a session or removing one, take steps over one lock per host, a lock for the table
of locks, two maps, a server and real-valued time. Every reachable state keeps the locks apart, the maps in step, the
sessions accounted for and the idle margin.

**Four smaller ones**: which users need a new logon script (`LogonScripts`), the computer-role hook (`RoleComputers`),
the purge-timestamp hook (`PurgeTimestamp`) and the order of the netlogon script (`Netlogon`).

## What the proofs turned up

- A room without a rule in force, or with a rule of an unknown type, gets the default block, never the rule of one of
  the user's groups (`Policy.RoomBlockFound`, `Policy.PolicyPreserved`).
- A host group's quoted name can coincide with a room's, a group's or the default block's. `Collisions` says exactly
  when, and that whoever is decided under that name is then blocked; there is a registry of four keys for which every
  finished run publishes a configuration that contradicts the rules (`PolicyFailure.PolicyFails`).
- A redirect target with a blank in it makes the whole configuration unreadable (`Closure.ParsePlan`); blanks around
  or between addresses do no harm.
- For server timeouts below two seconds the idle margin is too small (`Lateness.LateRun`).
- An event that changes a group's first name under the same dn, while it has members, leaves the old key behind
  (`PupilGroups.EventAgrees`, `PupilGroups.NameChangeExample`). A rename changes the dn; told as the old one's
  deletion and the new one's addition, it is handled correctly (`PupilGroups.RenameAgrees`).
- Without a list of local schools the listener treats every group as local, although it logs an error first.
- Users who lose the last share of their group, or whose group changes its number, are not queued
  (`LogonScripts.ShareMissesExactly`, `LogonScripts.GroupMissesExactly`).
- A session whose creation is never answered stays on the server (`SessionSafety.NoneLeaked`).
- A delete that fails leaves the session in the cache. When the client sent it on its own account, the session is
  never handed out again; when a caller had asked for the removal, the next call in time hands it out
  (`SessionSafety.HandedOutAlive`, `Removals.FailedRemovalRun`).
- The rooms' computers call `remove_session` without the host's lock, although its documentation asks for it; then a
  session can be lost that nobody deletes (`Removals.UnlockedRemovalLeaks`).
- The comment in the timestamp hook says that the original value is restored; that is so only for midnight
  (`PurgeTimestamp.TimestampSurvivesExactly`).

## Assumptions about the surroundings

- squidGuard: sources are tried in printed order and the first match decides; a pass list is read from left to right,
  where a name passes on a hit, `!name` blocks on a hit, `none` blocks and `all` passes; a source without a block of
  its own uses `default`; a source without entries matches nobody. The configuration is read line by line, words
  separated by blanks; a line that starts with `#` is a comment; an address line holds any number of addresses, a
  redirect line exactly one target, and a line that cannot be read makes the whole text unreadable. Which addresses an
  entry covers and which requests a line hits are parameters (`SquidGuard.Client`, `SquidGuard.Request`).
- The registry is a map; its keys are enumerated in an arbitrary order, each once. Reading a missing key fails.
- A file is a list of lines, a directory a map from names to files, a move overwrites. Whether the global list is
  forced, and the text merged into it, are parameters of a run.
- Veyon: the server gives every session a new identifier. A request that uses a session arrives within one second of
  the check that let it be handed out, and a new session is noted so soon that its first request arrives before the
  timeout. The time limit is counted from the check, because counted from the return the margin would have no room for
  the time in between.
- The directory is seen by a listener as it is right after the event.
## Model

| member | source | states |
|---|---|---|
| Quote.QuoteString | ucs-school-webproxy/conffiles/ucs-school-webproxy.py:88-103 | the character loop yields the escape of the whole string, one byte pair per UTF-8 byte of an unsafe character |
| Quote.SafeExactly | ucs-school-webproxy/conffiles/ucs-school-webproxy.py:103 | the safe characters are exactly those the source lists |
| Quote.RoundTrip | ucs-school-webproxy/conffiles/ucs-school-webproxy.py:88-103 | the decoder gives every string back, although hex digits are safe characters themselves: the UTF-8 lead byte (section 3 of RFC 3629) says how many pairs follow a dash |
| Quote.Injective | ucs-school-webproxy/conffiles/ucs-school-webproxy.py:88-103 | different names never have the same quoted form |
| Quote.NeverUserSuffix | ucs-school-webproxy/conffiles/ucs-school-webproxy.py:248-250 | no quoted name equals another quoted name followed by the mark of a user's own rule |
| Quote.PrefixCollision | ucs-school-webproxy/conffiles/ucs-school-webproxy.py:207-213 | exactly which raw names coincide, once quoted, with a dash-joined prefix and another quoted name |
| Registry.ParseRoomKeyMeaning | ucs-school-webproxy/conffiles/ucs-school-webproxy.py:184-189 | a key is read as a room's addresses or rule exactly when it is that room's ip or rule key |
| Readings.WordsExactly | ucs-school-webproxy/conffiles/ucs-school-webproxy.py:189 | the words of a value are its longest stretches without white space |
| Readings.NamedExactly | ucs-school-webproxy/conffiles/ucs-school-webproxy.py:171-179 | a rule is defined exactly by the keys that go on behind its name and a slash with one line |
| Readings.OwnExactly | ucs-school-webproxy/conffiles/ucs-school-webproxy.py:195-196 | a user's own rule is read exactly from the keys whose fourth part is its name |
| Readings.AssignedExactly | ucs-school-webproxy/conffiles/ucs-school-webproxy.py:220-222 | the rule of a group is the one named under groupdefault, if it is defined |
| Rooms.CollectRooms | ucs-school-webproxy/conffiles/ucs-school-webproxy.py:181-196 | one pass over the keys, in any order, fills the tables of room addresses, rooms per rule and users' own rules with what the registry says |
| Rooms.KeyOrderIrrelevant | ucs-school-webproxy/conffiles/ucs-school-webproxy.py:181-196 | any two enumerations of the same keys give equal address tables and, for each rule, the same rooms, each exactly once |
| Registry.PriorityRead | ucs-school-webproxy/conffiles/ucs-school-webproxy.py:223-227 | a priority is the number its digits stand for, with or without zeros in front; a missing one and one with other characters count as 0 |
| Compiler.CollectSettings | ucs-school-webproxy/conffiles/ucs-school-webproxy.py:171-179 | the shared rules are the names that occur in setting keys, each once |
| Compiler.CollectHosts | ucs-school-webproxy/conffiles/ucs-school-webproxy.py:206-208 | the blocked host groups are the keys under the host group prefix |
| Compiler.CollectGroups | ucs-school-webproxy/conffiles/ucs-school-webproxy.py:219-230 | the groups are those with an existing assigned rule, missing or non-digit priorities counting as 0, in descending order of priority and name |
| Compiler.LessOrder | ucs-school-webproxy/conffiles/ucs-school-webproxy.py:230 | the order the groups are sorted by is total and antisymmetric on tuples |
| Compiler.SortedDownDescending | ucs-school-webproxy/conffiles/ucs-school-webproxy.py:230 | sorting puts no group before a greater one |
| Compiler.PrintSources | ucs-school-webproxy/conffiles/ucs-school-webproxy.py:198-234 | the loops print the room, host and group sources in this order and note each group's list for creation |
| Compiler.PrintDests | ucs-school-webproxy/conffiles/ucs-school-webproxy.py:236-266 | the loop prints two list declarations per rule and notes its four list files |
| Compiler.PrintBlocks | ucs-school-webproxy/conffiles/ucs-school-webproxy.py:280-348 | the loops print the host, room, group and default blocks in this order; what a rule's type makes of its block is said by LivePlain.RoomByType and the rows next to it |
| Compiler.ReadPlan | ucs-school-webproxy/conffiles/ucs-school-webproxy.py:157-228 | reading fails exactly when the redirect cannot be formed or a host group has an empty name |
| Compiler.CreateTemporaryConfig | ucs-school-webproxy/conffiles/ucs-school-webproxy.py:154-355 | the printed text is the rendering of what the registry says, the created files are the rules' and groups' lists |
| Rendering.ParseRendered | ucs-school-webproxy/conffiles/ucs-school-webproxy.py:165-348 | reading the printed text line by line gives back exactly the sources, lists and access blocks it was printed from, whatever blanks the addresses hold, provided every redirect line names one target |
| Rendering.ParseUnreadable | ucs-school-webproxy/conffiles/ucs-school-webproxy.py:280-285 | a redirect line that names no target or several makes the whole text unreadable |
| Rendering.PrintThenRewrite | ucs-school-webproxy/conffiles/ucs-school-webproxy.py:461-474 | moving the database directory and removing the comment marks in the printed text gives the text printed directly with both changes, as long as no address and no redirect target holds a newline or the mark |
| Closure.PublishedScript | ucs-school-webproxy/conffiles/ucs-school-webproxy.py:268-278 | what is published is the script for the data directory with both global lists enabled, whatever the changes were |
| Closure.CleanPlan | ucs-school-webproxy/conffiles/ucs-school-webproxy.py:165-348 | the printed text is well formed whatever names the registry holds and whatever blanks its addresses hold; only newlines and the mark are kept out of what is printed as it is |
| Closure.ParsePlan | ucs-school-webproxy/conffiles/ucs-school-webproxy.py:165-348 | the text printed for a registry is read back as its configuration if and only if the redirect target is one word |
| Closure.SuffixesDistinct | ucs-school-webproxy/conffiles/ucs-school-webproxy.py:248-250 | all rules, shared or users' own, have different list names |
| Closure.Closed | ucs-school-webproxy/conffiles/ucs-school-webproxy.py:198-348 | every source named by an access block is declared, and so is every list its pass list names |
| Lists.StrippedEntry | ucs-school-webproxy/conffiles/ucs-school-webproxy.py:411-420 | however an entry is written, with or without a scheme, the domain list gets the name as it is and the URL list gets it without a leading www. |
| Lists.CollectLines | ucs-school-webproxy/conffiles/ucs-school-webproxy.py:406-421 | one line per entry under the prefix, in key order |
| Lists.EntryLinesExact | ucs-school-webproxy/conffiles/ucs-school-webproxy.py:406-421 | a line is in the file if and only if it is the stripped value of an entry under the file's prefix |
| Lists.EntryLinesCount | ucs-school-webproxy/conffiles/ucs-school-webproxy.py:406-421 | the file has as many lines as there are entries, each the line of its own entry |
| Lists.EntryPrefixUnique | ucs-school-webproxy/conffiles/ucs-school-webproxy.py:394-410 | an entry lies under the prefix of one rule, kind, filter and colour only |
| Lists.FileOfInjective | ucs-school-webproxy/conffiles/ucs-school-webproxy.py:404 | no two combinations of owner, filter and colour share a file name |
| Lists.WriteOwner | ucs-school-webproxy/conffiles/ucs-school-webproxy.py:401-422 | the nested loops write the four lists of one owner and touch no other file |
| Lists.WriteSettinglist | ucs-school-webproxy/conffiles/ucs-school-webproxy.py:393-422 | for every rule, shared or a user's own, the black list files hold exactly the stripped values of the keys below its blacklisted part and the white list files those below its whitelisted part, in whatever order the rules come; all other files are as before |
| Lists.WriteBlackWhiteLists | ucs-school-webproxy/conffiles/ucs-school-webproxy.py:425-444 | the same for the four general lists: a line is in blacklisted-domain exactly when it is the stripped value of a key below proxy/filter/domain/blacklisted/, and so on |
| Lists.WriteUsergroupMemberLists | ucs-school-webproxy/conffiles/ucs-school-webproxy.py:447-458 | each group with a key has a file with two lines per member, plain and with the domain; all other files are as before |
| Access.PassListsAgree | ucs-school-webproxy/conffiles/ucs-school-webproxy.py:287-345 | for each of the three rule types the pass list printed for rooms and the one printed for groups decide every request as the rule type means, though one of them lists its terms in another order |
| Access.GlobalList | ucs-school-webproxy/conffiles/ucs-school-webproxy.py:287-345 | forced, no printed pass list passes a request on the global list; not forced, only a white list hit can |
| Policy.MatchingRoom | ucs-school-webproxy/conffiles/ucs-school-webproxy.py:198-202 | the first matching room source names a room that covers the client; none matches only if no room covers it |
| Policy.BestGroupWins | ucs-school-webproxy/conffiles/ucs-school-webproxy.py:217-234 | among the groups that contain the user and whose assigned rule exists, the first matching source is the greatest by priority, then name |
| Policy.HitsExactly | ucs-school-webproxy/conffiles/ucs-school-webproxy.py:236-266 | a declared list is hit exactly when the request falls under a line of one of its two files |
| Policy.RoomBlockFound | ucs-school-webproxy/conffiles/ucs-school-webproxy.py:300-318 | the block found for a room is the one of its rule; without a rule in force there is none |
| Policy.DecideRoomPass | ucs-school-webproxy/conffiles/ucs-school-webproxy.py:300-318 | a room's pass list decides every request as the registry reads: by the user's own rule of that name, else the shared one, else the default; LivePlain.RoomByType says it by the rule's type |
| Policy.PolicyByName | ucs-school-webproxy/conffiles/ucs-school-webproxy.py:154-355 | for every registry, whatever names it holds, and every client and request, interpreting the configuration gives a decision the reading by name gives: as the direct reading, except that a name taken by a blocked host group blocks |
| Policy.PolicyPreserved | ucs-school-webproxy/readme-filterrules.txt:6-45 | for every registry with clear names, client and request, interpreting the configuration gives a decision the direct reading gives: room rule first, then blocked host groups, then the best assigned group rule, else the default |
| Policy.SaysOnce | ucs-school-webproxy/readme-filterrules.txt:6-45 | when at most one room covers the client, the direct reading gives exactly one decision, and it is never undecided |
| PlainPolicy.SaysExactly | ucs-school-webproxy/readme-filterrules.txt:6-45 | the direct reading gives a decision exactly when the plain one does, in which every key, list and type is written out |
| Policy.GlobalListDecides | ucs-school-webproxy/conffiles/ucs-school-webproxy.py:287-345 | forced, the configuration blocks a request on the global list for every client; not forced, such a request passes only on a hit of a declared white list |
| Collisions.CollidesExactly | ucs-school-webproxy/conffiles/ucs-school-webproxy.py:209-213 | a host group is printed under a room's, a group's or the default name exactly when its raw name runs into that name |
| Collisions.ClearNamesExactly | ucs-school-webproxy/conffiles/ucs-school-webproxy.py:207-213 | the condition of the policy theorem on names, stated on the raw names only |
| Collisions.CollisionExample | ucs-school-webproxy/conffiles/ucs-school-webproxy.py:207-213 | the host group room-A and the room 2dA get the same name |
| Collisions.TakenExactly | ucs-school-webproxy/conffiles/ucs-school-webproxy.py:207-213 | a room's, a group's or the default name is taken exactly when some host group's raw name runs into it |
| Collisions.PolicyExactly | ucs-school-webproxy/conffiles/ucs-school-webproxy.py:207-348 | without any condition on names: a client decided under a taken name is blocked, so the policy is kept for a client in at most one room if and only if no taken name decides, be it a room's, a group's or the default one, or the registry blocks the request too |
| Collisions.CollisionBlocks | ucs-school-webproxy/conffiles/ucs-school-webproxy.py:280-285 | a room that shares its name with a blocked host group is blocked for every request, so the policy fails there exactly when the room's rule would pass the request |
| Publish.NamedFiles | ucs-school-webproxy/conffiles/ucs-school-webproxy.py:230-278 | the files the published configuration names are the created ones and the two global lists |
| Publish.PreparedSlot | ucs-school-webproxy/conffiles/ucs-school-webproxy.py:393-444 | after all writers have run, each list holds exactly its own lines |
| Publish.PreparedMembers | ucs-school-webproxy/conffiles/ucs-school-webproxy.py:447-458 | after all writers have run, a group's file holds exactly its members |
| Publish.PreparedOther | ucs-school-webproxy/conffiles/ucs-school-webproxy.py:352-355 | a file that no writer is responsible for is as it was created, or holds the global list |
| Publish.PreparedNames | ucs-school-webproxy/conffiles/ucs-school-webproxy.py:352-390 | every created file is still there, the global lists exactly when due, and none is called like the configuration |
| Publish.PreparedHolds | ucs-school-webproxy/conffiles/ucs-school-webproxy.py:393-458 | what the policy theorem assumes of the list files holds of the prepared ones, also for rules without entries |
| Proxy.WebProxy.CheckGlobalBlacklist | ucs-school-webproxy/conffiles/ucs-school-webproxy.py:358-364 | adds the keys of global lists that have no file |
| Proxy.WebProxy.MakeTemporary | ucs-school-webproxy/conffiles/ucs-school-webproxy.py:114-124 | prints the temporary configuration and creates exactly the listed files, empty |
| Proxy.WebProxy.WriteGlobalBlacklist | ucs-school-webproxy/conffiles/ucs-school-webproxy.py:367-390 | writes the global lists whose keys are among the changes, and nothing else |
| Proxy.WebProxy.WriteLists | ucs-school-webproxy/conffiles/ucs-school-webproxy.py:124-127 | the four writers one after the other leave the temporary directory as one run has to publish it |
| Proxy.WebProxy.Prepare | ucs-school-webproxy/conffiles/ucs-school-webproxy.py:114-130 | a run up to its first move: exactly when the registry has what it needs the lists and the text are ready, and nothing that is live has changed |
| Proxy.WebProxy.MoveFile | ucs-school-webproxy/conffiles/ucs-school-webproxy.py:79-85 | moves one file over the one in the data directory and keeps every file the live configuration names |
| Proxy.WebProxy.MoveSome | ucs-school-webproxy/conffiles/ucs-school-webproxy.py:477-483 | the loop over the list files, stopped with any of them moved, has put just these over the data directory and never takes a file away that the live configuration names |
| Proxy.WebProxy.MoveConfig | ucs-school-webproxy/conffiles/ucs-school-webproxy.py:477-486 | moves all list files, in any order, before the configuration, without ever taking a named file away |
| Proxy.WebProxy.Handler | ucs-school-webproxy/conffiles/ucs-school-webproxy.py:114-131 | a run finishes exactly when the registry has what it needs, removes its directory, and publishes its own lists and configuration; a failed one changes nothing that is live |
| Proxy.PublishedAsPrinted | ucs-school-webproxy/conffiles/ucs-school-webproxy.py:461-474 | the published text is the one that printing for the data directory with both global lists would have given |
| Proxy.PublishedMeaning | ucs-school-webproxy/conffiles/ucs-school-webproxy.py:461-486 | the published text is read as the configuration with the data directory and both global lists if and only if the redirect target is one word, else not at all |
| Proxy.LivePolicy | ucs-school-webproxy/conffiles/ucs-school-webproxy.py:114-131 | after a run the live text is readable exactly when the redirect target is one word, and then, interpreted with the files in the data directory, decides every request of every client as the registry says |
| Runs.Finish | ucs-school-webproxy/conffiles/ucs-school-webproxy.py:114-131 | what the handler does for a run is a step of the histories below: a finished one exactly when the registry has what it needs |
| Runs.Stop | ucs-school-webproxy/conffiles/ucs-school-webproxy.py:477-483 | so is what the proxy's own moves do when they are stopped with any of the files moved |
| Runs.FinishedLists | ucs-school-webproxy/conffiles/ucs-school-webproxy.py:352-390 | after a finished run every named list exists: ordinary ones as this run wrote them, global ones as this run wrote them if due, else as they were |
| Runs.StepClosed | ucs-school-webproxy/conffiles/ucs-school-webproxy.py:477-486 | no run, finished or stopped between two moves, leaves the live configuration naming a missing file |
| Runs.AlwaysClosed | ucs-school-webproxy/conffiles/ucs-school-webproxy.py:114-131 | over every history of finished and stopped runs the live configuration never names a missing file, if no redirect target and no address holds a newline or the mark |
| Runs.GlobalListOrigin | ucs-school-webproxy/conffiles/ucs-school-webproxy.py:358-390 | at any time a global list holds what the last run that was due to write it, and moved it, was given |
| Runs.LatestRunDecides | ucs-school-webproxy/conffiles/ucs-school-webproxy.py:114-131 | whatever happened before, after a finished run the live text is readable exactly when the redirect target is one word, and then every decision is the one of that run's registry |
| PolicyFailure.PolicyFails | ucs-school-webproxy/conffiles/ucs-school-webproxy.py:207-285 | a registry of four keys, a client and a request: after every finished run on it the live text is readable and blocks the request, which the registry lets pass |
| PolicyFailure.FailingRun | ucs-school-webproxy/conffiles/ucs-school-webproxy.py:114-131 | the handler does finish on this registry, and what is live then blocks the request |
| LivePlain.LiveFollows | ucs-school-webproxy/conffiles/ucs-school-webproxy.py:114-131 | after a finished run the live text can be read exactly when the redirect target is one word; then every block sends blocked requests there and every request is decided as the plain reading says |
| LivePlain.RunnableExactly | ucs-school-webproxy/conffiles/ucs-school-webproxy.py:157-163 | a run finishes exactly when there is a redirect target or a host and a domain name, a Windows domain, and no blocked host group without a name |
| LivePlain.RoomByType | ucs-school-webproxy/conffiles/ucs-school-webproxy.py:287-318 | a client in one room is decided by the filtertype key of the room's rule: whitelist-block passes exactly white list hits, blacklist-pass exactly what is on neither black list, whitelist-blacklist-pass and a missing key as that type means, any other value as the default |
| LivePlain.GroupByType | ucs-school-webproxy/conffiles/ucs-school-webproxy.py:320-342 | the same for the rule of the user's foremost group |
| LivePlain.UnknownRoomType | ucs-school-webproxy/conffiles/ucs-school-webproxy.py:314-315 | a room whose rule has another type has no block of its own |
| LivePlain.UnknownGroupType | ucs-school-webproxy/conffiles/ucs-school-webproxy.py:322-342 | nor has a group whose rule has another type |
| LivePlain.BlacklistedBlocked | ucs-school-webproxy/conffiles/ucs-school-webproxy.py:425-444 | a client whom the default decides is blocked on a request under a general blacklisted entry that no general whitelisted entry covers |
| LivePlain.LiveListsExactly | ucs-school-webproxy/conffiles/ucs-school-webproxy.py:393-444 | after a finished run the lists in the data directory, general ones and those of each shared rule, hold exactly the registry's entries, black in black and white in white |
| LivePlain.GlobalListsExactly | ucs-school-webproxy/conffiles/ucs-school-webproxy.py:358-390 | after a finished run each global list is the given one when its key changed or the file was missing, else as before |
| LivePlain.HostNamesExactly | ucs-school-webproxy/conffiles/ucs-school-webproxy.py:207-213 | a blocked host group is printed under its quoted name, behind a prefix if that would start with a digit, so that no printed name does |
| PupilGroups.Listener.IsLocal | ucs-school-webproxy/pupilgroups.py:92-104 | a group is local exactly when its name ends in a listed school's group container, letter by letter with capitals and small letters equal; without a list of schools every group is |
| PupilGroups.CaseIrrelevant | ucs-school-webproxy/pupilgroups.py:92-104 | names that differ only in the case of letters are both local or both not |
| PupilGroups.Listener.UpdateRegistry | ucs-school-webproxy/pupilgroups.py:115-119 | keys with a value are set, keys without are removed, all others stay |
| PupilGroups.Listener.Handler | ucs-school-webproxy/pupilgroups.py:84-119 | a local group with members is written under its new name; one without members, or deleted, is removed under its old name; other groups change nothing |
| PupilGroups.EventAgrees | ucs-school-webproxy/pupilgroups.py:84-119 | an event keeps registry and directory in agreement if and only if it does not change the first name of a local group under one dn while it has members before and after |
| PupilGroups.RenameAgrees | ucs-school-webproxy/pupilgroups.py:84-119 | a rename, told as the deletion of the old dn and the addition of the new one, keeps the agreement |
| PupilGroups.NameChangeExample | ucs-school-webproxy/pupilgroups.py:107-113 | a group with one member whose first name changes from a to b under its dn: the key of a stays, so registry and directory disagree |
| PupilGroups.AlwaysAgrees | ucs-school-webproxy/pupilgroups.py:84-119 | after every run of additions, changes and deletions in which local groups' names stay distinct and no event changes the name of a group with members under one dn, the registry has a group's key exactly when the group is local and has members, with those members as value |
| PupilGroups.Replay | ucs-school-webproxy/pupilgroups.py:84-119 | the listener, called for the events of a run, leaves the registry the agreement theorems speak of |
| PupilGroups.AlwaysAgreesPlainly | ucs-school-webproxy/pupilgroups.py:84-119 | the agreement with the keys written out: proxy/filter/usergroup/ and a name is a key exactly when a local group of that name has members, and lists them with commas |
| PupilGroups.MembersWritten | ucs-school-webproxy/conffiles/ucs-school-webproxy.py:447-458 | the file the web proxy then writes has exactly the directory's members, in order, each plain and with the domain |
| PupilGroups.MembershipFromDirectory | ucs-school-webproxy/conffiles/ucs-school-webproxy.py:447-458 | whom the proxy's rules take for a member of a group is decided by the directory |
| Sessions.LocksKept | ucs-school-veyon-client/veyon_client/client.py:85-95 | every step keeps one lock per host, one host per lock, and every held lock with the thread that took it |
| Sessions.Alone | ucs-school-veyon-client/veyon_client/client.py:132-134 | at most one thread is inside for a host |
| Sessions.TakeHostData | ucs-school-veyon-client/veyon_client/client.py:132-135 | a thread that gets the host's lock finds the maps in step |
| Sessions.DataKept | ucs-school-veyon-client/veyon_client/client.py:109-174 | every step, of calls for a session and of direct removals, with requests that fail or are never answered, keeps the cached sessions owned by their hosts and every session accounted for |
| Sessions.InTimeHit | ucs-school-veyon-client/veyon_client/client.py:135-142 | a hit lets the session be used less than the server's timeout after its last use |
| Sessions.InTimeUse | ucs-school-veyon-client/veyon_client/client.py:135-150 | a request that arrives leaves every other pending one in time |
| Sessions.InTimeStamp | ucs-school-veyon-client/veyon_client/client.py:147-150 | the first request of a new session is in time |
| Sessions.MarginsKept | ucs-school-veyon-client/veyon_client/client.py:81-150 | with a timeout of at least two seconds every step keeps each cached or awaited session in time, also after a removal that failed |
| SessionSafety.MutualExclusion | ucs-school-veyon-client/veyon_client/client.py:132-150 | in every reachable state at most one thread per host is between check and store |
| SessionSafety.LockNeverReplaced | ucs-school-veyon-client/veyon_client/client.py:85-95 | a host keeps the lock it first got, in every run |
| SessionSafety.NoDeadlock | ucs-school-veyon-client/veyon_client/client.py:132-150 | in every reachable state with an unfinished call some thread in a call can take a step |
| SessionSafety.CallsEnd | ucs-school-veyon-client/veyon_client/client.py:118-174 | every step of a thread in a call leaves it fewer steps, so no call goes on forever while its requests are answered |
| SessionSafety.MapsInStep | ucs-school-veyon-client/veyon_client/client.py:132-174 | whenever a host's lock is free the host is in both maps or in neither, after failed deletes and creations and direct removals too |
| SessionSafety.NeverMixed | ucs-school-veyon-client/veyon_client/client.py:109-150 | the cached session of a host was created for that host |
| SessionSafety.NoneLeaked | ucs-school-veyon-client/veyon_client/client.py:109-174 | whenever a host's lock is free, a delete has got through for a session ever created for it, other than the cached one, if and only if the answer to its creation arrived; direct removals are among the runs |
| SessionSafety.HandedOutAlive | ucs-school-veyon-client/veyon_client/client.py:135-174 | a session that is handed out was created for that host and no delete for it got through; one was sent for it if and only if a caller's direct removal of it has failed |
| SessionSafety.NeverIdleTooLong | ucs-school-veyon-client/veyon_client/client.py:81-150 | for timeouts of at least two seconds, no request arrives for a session that has been idle for the timeout or longer, in every interleaving, also when another thread has sent a delete for it meanwhile |
| Removals.FailedRemovalRun | ucs-school-umc-computerroom/umc/python/computerroom/room_management.py:796-800 | for every timeout there is a run in which a direct removal of a session fails and the next call hands that session out |
| Removals.UnlockedRemovalLeaks | ucs-school-umc-computerroom/umc/python/computerroom/room_management.py:747-752 | a removal without the host's lock, interleaved with a call that creates a session, leaves that session uncached with no delete ever sent for it |
| Lateness.LateRun | ucs-school-veyon-client/veyon_client/client.py:81-150 | for every timeout below two seconds there is a run in which the client hands a session out again and its request finds it idle for the timeout, though no delete was sent |
| Lateness.MarginExact | ucs-school-veyon-client/veyon_client/client.py:81-150 | there is a run with a late request if and only if the timeout is below two seconds |
| VeyonClient.Client.constructor | ucs-school-veyon-client/veyon_client/client.py:58-84 | the idle time is the server's timeout minus one second for timeouts above two seconds, else one second; both maps are empty |
| VeyonClient.Client.RemoveSession | ucs-school-veyon-client/veyon_client/client.py:152-174 | a delete is sent for the cached session or for none; both maps lose the host, unless the request fails: then both stay |
| VeyonClient.Client.GetConnectionUid | ucs-school-veyon-client/veyon_client/client.py:118-150 | a valid session used less than the timeout minus one second ago, or less than one, is handed out and no request leaves the client; any other one is not: without leave to renew nothing changes, else a delete is sent for it, then a new session is asked for, with the maps as each outcome leaves them |
| VeyonClient.StepsAreTheCall | ucs-school-veyon-client/veyon_client/client.py:131-150 | the steps a thread of the concurrent model takes while it holds the lock amount to the method: same maps, same session handed out |
| VeyonClient.StepsAreTheRemoval | ucs-school-veyon-client/veyon_client/client.py:152-174 | the steps of a direct removal in the concurrent model amount to the method: same delete, same maps |
| VeyonClient.HoldingWalks | ucs-school-veyon-client/veyon_client/client.py:131-150 | these steps are the concurrent model's own: a walk in which the clock moves and the thread takes the step the model has for it |
| VeyonClient.RecentHandedOut | ucs-school-veyon-client/veyon_client/client.py:135-142 | in the concurrent model a thread that finds such a session takes four steps to hand it out, the server's sessions unchanged |
| VeyonClient.OthersNotHandedOut | ucs-school-veyon-client/veyon_client/client.py:135-146 | a thread that finds none raises or deletes first |
| VeyonClient.PurgingWalks | ucs-school-veyon-client/veyon_client/client.py:152-174 | a direct removal's steps too are the concurrent model's own |
| LogonScripts.Listener.HasRelevantChange | ucs-school-netlogon-user-logonscripts/ucs-school-user-logonscript.py:93-105 | false exactly when each listed attribute has the same set of values before and after, whatever else differs |
| LogonScripts.Listener.HandleGroup | ucs-school-netlogon-user-logonscripts/ucs-school-user-logonscript.py:150-181 | queues the users that joined or left, but none when no share uses the group |
| LogonScripts.Listener.AddGroupChange | ucs-school-netlogon-user-logonscripts/ucs-school-user-logonscript.py:112-128 | queues all users of the group with this number, when a share uses it |
| LogonScripts.Listener.HandleShare | ucs-school-netlogon-user-logonscripts/ucs-school-user-logonscript.py:108-147 | queues nobody when name, host and group number keep their sets of values; else the users of the share's old and new group |
| LogonScripts.Listener.HandleUser | ucs-school-netlogon-user-logonscripts/ucs-school-user-logonscript.py:184-198 | with an entry before and after, queues nobody when uid, gidNumber and homeDirectory keep their sets of values, and the user when one does not |
| LogonScripts.ByGidExactly | ucs-school-netlogon-user-logonscripts/ucs-school-user-logonscript.py:112-128 | whom a group number queues: exactly the users in a group with it when some share has it, with the attributes written out |
| LogonScripts.ByGroupExactly | ucs-school-netlogon-user-logonscripts/ucs-school-user-logonscript.py:150-181 | whom a group event queues: exactly the users who are a member before or after but not both, unless the group has a number now that no share has |
| LogonScripts.ByShareExactly | ucs-school-netlogon-user-logonscripts/ucs-school-user-logonscript.py:130-147 | whom a share event queues, with the attributes written out |
| LogonScripts.GroupMissesNobody | ucs-school-netlogon-user-logonscripts/ucs-school-user-logonscript.py:150-181 | every user whose reachable shares change through a group event that keeps the group's number is queued, despite the skipping |
| LogonScripts.GroupMissesExactly | ucs-school-netlogon-user-logonscripts/ucs-school-user-logonscript.py:150-181 | for every group event, also one that changes the number, a user is missed if and only if the user was in the group, still is or no share uses the new number, and the group gives something before or after that nothing else gives |
| LogonScripts.ShareMissesExactly | ucs-school-netlogon-user-logonscripts/ucs-school-user-logonscript.py:108-147 | a user whose reachable shares change through a share event is missed if and only if the share was the last one of the user's group that gave this |
| LogonScripts.Listen | ucs-school-netlogon-user-logonscripts/ucs-school-user-logonscript.py:108-181 | the handlers, called for each event of a run with the directory as it is right after it, queue just the users the next two theorems speak of |
| LogonScripts.OnlyThoseMissed | ucs-school-netlogon-user-logonscripts/ucs-school-user-logonscript.py:108-181 | over every run in which group numbers stay unique, every user whose reachable shares change at some event is queued, except those this event misses |
| LogonScripts.NobodyMissed | ucs-school-netlogon-user-logonscripts/ucs-school-user-logonscript.py:108-181 | over every run, every user whose reachable shares change at an event is queued when the event keeps groups' numbers and leaves each group it takes a share from another one |
| LogonScripts.LastShareExample | ucs-school-netlogon-user-logonscripts/ucs-school-user-logonscript.py:133-135 | deleting the only share of a group with a user in it changes what the user reaches and queues nobody |
| RoleComputers.Computer.GetSchools | ucs-school-import/udm_hook/ucsschool_role_computers.py:164-185 | gives the object's schools and the one around it, or the mark for none, and extends the object's own list in place |
| RoleComputers.Computer.Existing | ucs-school-import/udm_hook/ucsschool_role_computers.py:187-200 | the classes and roles the object has, together with those the list gives it |
| RoleComputers.Computer.Complete | ucs-school-import/udm_hook/ucsschool_role_computers.py:120-162 | appends at most one entry for the class and one for the roles, holding just what was missing |
| RoleComputers.AppliedExactly | ucs-school-import/udm_hook/ucsschool_role_computers.py:138-161 | applying the list gives the object its class and all required roles, and nothing else the list did not give already |
| RoleComputers.AppliedPlainly | ucs-school-import/udm_hook/ucsschool_role_computers.py:138-161 | the same with the values written out: a member server has to have a role only when it belongs to no school, then the member server's |
| RoleComputers.EntriesExactly | ucs-school-import/udm_hook/ucsschool_role_computers.py:138-161 | the list is extended at its end, by an objectClass entry, a ucsschoolRole entry, or both in this order; entries for a change remove nothing |
| RoleComputers.SecondCallAddsNothing | ucs-school-import/udm_hook/ucsschool_role_computers.py:138-161 | completing the completed list adds nothing |
| RoleComputers.SameSchoolsAgain | ucs-school-import/udm_hook/ucsschool_role_computers.py:174-185 | the list of schools that the first call has extended in place requires the same roles in the second call |
| RoleComputers.SchoolIndependentOfOrder | ucs-school-import/udm_hook/ucsschool_role_computers.py:179-182 | for schools directly under one base, each under a name without an equals sign, any order finds the same school |
| PurgeTimestamp.TimestampSurvivesExactly | ucs-school-import/udm_hook/ucsschool_purge_timestamp.py:74-97 | a timestamp survives the way to the user and back if and only if its time of day is midnight and its year has four digits |
| PurgeTimestamp.DateSurvivesExactly | ucs-school-import/udm_hook/ucsschool_purge_timestamp.py:81-97 | a date comes back as it was entered if and only if it was entered with two digits for month and day and a year from 1000 on; a shorter one comes back in full, an earlier year is an error |
| PurgeTimestamp.TimestampRead | ucs-school-import/udm_hook/ucsschool_purge_timestamp.py:81-88 | exactly which timestamps are read: fourteen digits that name a day and a time of it, and a Z |
| PurgeTimestamp.DateRead | ucs-school-import/udm_hook/ucsschool_purge_timestamp.py:90-97 | exactly which dates are read: four digits, one or two, and one or two or a blank and one, that name a day |
| PurgeTimestamp.CollectPurges | ucs-school-import/udm_hook/ucsschool_purge_timestamp.py:65 | the purge entries of the list, in order |
| PurgeTimestamp.ChangeList.Remove | ucs-school-import/udm_hook/ucsschool_purge_timestamp.py:77 | removes the first equal entry |
| PurgeTimestamp.RemoveNext | ucs-school-import/udm_hook/ucsschool_purge_timestamp.py:65-78 | the first equal entry is always the purge entry at hand, also with equal entries in the list |
| PurgeTimestamp.EntriesWritten | ucs-school-import/udm_hook/ucsschool_purge_timestamp.py:65-78 | an added date is written as the timestamp with the same digits; of a changed one the removed value becomes the timestamp again from which opening made a date, and any other removed value stays |
| PurgeTimestamp.ChangeList.ConvertTimestamps | ucs-school-import/udm_hook/ucsschool_purge_timestamp.py:62-79 | every purge entry is converted, in order, and all other entries keep their order; a value that is no date stops it |
| PurgeTimestamp.OpenedStays | ucs-school-import/udm_hook/ucsschool_purge_timestamp.py:42-46 | opening converts a value that is not in the user format; opening again changes nothing exactly when the year has four digits |
| Netlogon.Collect | ucs-school-netlogon/conffiles/ucs-school-netlogon.py:138-150 | each script key's script is in the bucket of its priority, in key order, and in no other |
| Netlogon.NumberRead | ucs-school-netlogon/conffiles/ucs-school-netlogon.py:168 | a numeral is read as its number, whatever white space is around it, with or without a sign |
| Netlogon.NumberExactly | ucs-school-netlogon/conffiles/ucs-school-netlogon.py:168 | exactly which texts are numbers: digits with single underscores between them, perhaps behind a sign, with white space around, and which number they are |
| Netlogon.Sort | ucs-school-netlogon/conffiles/ucs-school-netlogon.py:168 | the buckets in non-decreasing order of their numbers, none lost or changed |
| Netlogon.OfFlat | ucs-school-netlogon/conffiles/ucs-school-netlogon.py:168-169 | printing bucket after bucket gives each priority its scripts in their order |
| Netlogon.PrintScripts | ucs-school-netlogon/conffiles/ucs-school-netlogon.py:138-176 | each recognised script is printed exactly once, in non-decreasing priority, scripts of one priority in key order; a priority that is no number stops it |
| Netlogon.PrintedExactly | ucs-school-netlogon/conffiles/ucs-school-netlogon.py:138-150 | exactly the scripts under ucsschool/netlogon/ keys of packages are printed, each with the priority set below its key |
| Netlogon.MissingLast | ucs-school-netlogon/conffiles/ucs-school-netlogon.py:147-168 | a script without a priority comes behind all scripts whose priority is below the greatest machine number |
| Netlogon.SmallerFirst | ucs-school-netlogon/conffiles/ucs-school-netlogon.py:168-169 | of two printed scripts the one with the smaller number comes first |

## Left out

- squidGuard's database files, permissions, reload of the proxy and logging: outside processes.
- The merge of several global black lists into one: its order is arbitrary; one run's result is a parameter.
- Proxy.WebProxy.WriteGlobalBlacklist: does not say what text is merged, for the same reason.
- Policy.PolicyPreserved: takes clear names; Policy.PolicyByName and Collisions.PolicyExactly say what holds for all names.
- LivePlain.LiveFollows: takes what Proxy.LivePolicy takes, and clear names for the decision.
- Proxy.LivePolicy: takes group names without slashes, keys without newlines, and no user's own rule with an empty name: well-formed names.
- Runs.AlwaysClosed: takes redirect targets and addresses without newline and mark; the source prints them unchecked, so a newline in one could print any line.
- Runs.StepClosed: the same, for the run's registry.
- Runs.LatestRunDecides: takes the latest run's registry as Proxy.LivePolicy does.
- Rendering.PrintThenRewrite: takes redirect targets and addresses without newline and mark, since a plain text replacement also changes those.
- Closure.CleanPlan: takes a registry whose redirect target and addresses hold no newline and no mark.
- Closure.ParsePlan: the same; what a newline in them would make of the text is not described.
- Proxy.PublishedAsPrinted: the same.
- Proxy.PublishedMeaning: the same.
- Publish.PreparedMembers: takes group names without slashes; the source names a group's file after the last segment of its key, so two keys could share one.
- Publish.PreparedHolds: takes keys without newlines, group names without slashes, and no user's own rule with an empty name.
- Lists.WriteSettinglist: a value with a newline in it would be several lines of the file; here it is one.
- Compiler.CollectGroups: priorities are ASCII digits; isdigit also accepts other digit characters.
- Compiler.HostName: only a leading ASCII digit gives a host group's name its prefix; isdigit also accepts other digit characters.
- PupilGroups.Listener.IsLocal: lower-casing is that of ASCII letters.
- PupilGroups.Listener.Handler: the local test ignores case for ASCII letters only; a change of the list of schools between events is not part of the agreement theorem.
- PupilGroups.EventAgrees: local groups have different names before and after the event, since they share one key otherwise.
- PupilGroups.AlwaysAgrees: takes runs in which names stay distinct and no name changes under one dn; other runs break the agreement, as PupilGroups.EventAgrees says.
- PupilGroups.MembersWritten: takes member names without commas and group names without slashes; the value is joined by commas.
- PupilGroups.MembershipFromDirectory: the same.
- Sessions.DataKept: direct calls of remove_session are made under the host's lock, as its documentation asks; the rooms' computers make them without (room_management.py:752 and 798), which Removals.UnlockedRemovalLeaks shows to lose a session. The features that use a session are one request each.
- Sessions.DataKept: a delete that the server answers with an error counts as having got through, as in the source; a failed creation leaves no session on the server unless only the answer is lost.
- LogonScripts.OnlyThoseMissed: group numbers are unique at all times, since the listener asks for one group of a number; shares have at most one name, host and group; the queue is a set of names, the daemon that empties it is left out.
- LogonScripts.ShareMissesExactly: takes shares with at most one name, host and group number; the handler reads the first value of each.
- LogonScripts.NobodyMissed: takes events that keep numbers and leave a group another share; LogonScripts.OnlyThoseMissed says what the others miss.
- RoleComputers.SameSchoolsAgain: takes objects inside at most one school, and no school called like the mark for none.
- RoleComputers.Computer.Complete: which class and role belong to which module is a parameter; a role is written role:school:name, as the school library writes it, which is not part of this model.
- PurgeTimestamp.TimestampSurvivesExactly: timestamps of other lengths than fifteen characters are treated as errors. Years below 1000 are printed without leading zeros, as the C library of the usual platform does.
- Netlogon.NumberRead: numerals are in ASCII digits; int also reads other digit characters.
- Netlogon.PrintScripts: numbers are in ASCII digits; the Visual Basic text around each script, the header and the removal of old files are left out.
- The table of application versions, the option hook, the movers of home and share directories, the installers and the web settings: finite tables or plumbing.
