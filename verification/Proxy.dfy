/** The handler as the steps it takes on the data directory, the temporary directory and the live
    configuration, what one run publishes, and what holds over all runs. */
module Proxy {
  import opened Options
  import opened Text
  import opened Registry
  import opened Lists
  import opened SquidGuard
  import opened Printing
  import opened Rendering
  import opened Compiler
  import opened Policy
  import opened Closure
  import opened Publish

  /** A directory name as mkdtemp makes it: one word, without comment characters. */
  ghost predicate DirectoryName(name: string) {
    IsWord(name + "/") && Clear(name)
  }

  /** The changed keys, and those of global lists that have no file yet. */
  function Extended(changes: set<string>, data: Files): set<string> {
    changes
    + (if GLOBAL_DOMAINS in data then {} else {DOMAINS_KEY})
    + (if GLOBAL_URLS in data then {} else {URLS_KEY})
  }

  /** The text a run publishes. */
  function PublishedText(p: Plan, temp: string, changes: set<string>): string {
    Finalized(Render(ScriptOf(p, temp, DOMAINS_KEY in changes, URLS_KEY in changes)), temp, DATA)
  }

  /** Some of the files. */
  function Part(files: Files, names: set<string>): Files {
    map file | file in files && file in names :: files[file]
  }

  predicate Runnable(reg: Reg) {
    Printable(reg) && DOMAIN_KEY in reg
  }

  class WebProxy {
    var data: Files
    var temp: Files
    var tempConfig: string
    var live: Option<string>

    method CheckGlobalBlacklist(changes: set<string>) returns (extended: set<string>)
      ensures extended == Extended(changes, data)
    {
      extended := changes;
      if DOMAINS_KEY !in changes && GLOBAL_DOMAINS !in data {
        extended := extended + {DOMAINS_KEY};
      }
      if URLS_KEY !in changes && GLOBAL_URLS !in data {
        extended := extended + {URLS_KEY};
      }
    }

    /** Prints the temporary configuration and creates the listed files; fails when the registry cannot be printed. */
    method MakeTemporary(reg: Reg, keys: seq<string>, tempName: string, forced: bool, changes: set<string>)
      returns (ok: bool, ghost p: Plan)
      requires IsEnumeration(keys, reg)
      modifies `temp, `tempConfig
      ensures ok <==> Printable(reg)
      ensures ok ==>
        && Plans(reg, p) && p.forced == forced
        && tempConfig == Render(ScriptOf(p, tempName, DOMAINS_KEY in changes, URLS_KEY in changes))
        && Touched(p, temp) && forall file :: file in temp ==> temp[file] == []
    {
      hide Plans, Printable, IsEnumeration, TouchList, ScriptOf;
      temp := map[];
      var text, touched;
      text, touched, p := CreateTemporaryConfig(reg, keys, tempName, forced, changes);
      ok := text.Some?;
      if ok {
        tempConfig := text.value;
        for i := 0 to |touched|
          invariant tempConfig == text.value
          invariant forall file :: file in temp <==> file in touched[..i]
          invariant forall file :: file in temp ==> temp[file] == []
        {
          if touched[i] !in temp {
            temp := temp[touched[i] := []];
          }
        }
        assert touched[..|touched|] == touched;
      }
    }

    method WriteGlobalBlacklist(changes: set<string>, domains: seq<string>, urls: seq<string>)
      modifies `temp
      ensures temp == old(temp) + GlobalFiles(changes, domains, urls)
    {
      if DOMAINS_KEY in changes {
        temp := temp[GLOBAL_DOMAINS := domains];
      }
      if URLS_KEY in changes {
        temp := temp[GLOBAL_URLS := urls];
      }
    }

    method FinalizeConfig(tempName: string)
      modifies `tempConfig
      ensures tempConfig == Finalized(old(tempConfig), tempName, DATA)
    {
      tempConfig := Replace(tempConfig, "\n" + DbhomeLine(tempName) + "\n", "\n" + DbhomeLine(DATA) + "\n");
      tempConfig := Replace(tempConfig, MARK, "");
    }

    /** Moving one file never takes a named list away from the live configuration. */
    method MoveFile(file: string)
      requires file in temp
      modifies `data, `temp
      ensures data == old(data)[file := old(temp)[file]] && temp == old(temp) - {file}
      ensures old(LiveClosed(live, data)) ==> LiveClosed(live, data)
    {
      data := data[file := temp[file]];
      temp := temp - {file};
      if old(LiveClosed(live, data)) {
        LiveClosedGrows(live, old(data), data);
      }
    }

    /** The loop over the list files, as far as it has come when just these are moved, in whatever order: the live
        configuration is not touched, and never loses a list. */
    method MoveSome(moved: set<string>)
      requires moved <= temp.Keys
      modifies `data, `temp
      ensures data == old(data) + Part(old(temp), moved) && temp == old(temp) - moved
      ensures old(LiveClosed(live, data)) ==> LiveClosed(live, data)
    {
      hide LiveClosed;
      var todo := moved;
      while todo != {}
        invariant todo <= moved
        invariant temp == old(temp) - (moved - todo)
        invariant data == old(data) + Part(old(temp), moved - todo)
        invariant old(LiveClosed(live, data)) ==> LiveClosed(live, data)
      {
        var file :| file in todo;
        MoveFile(file);
        todo := todo - {file};
      }
      assert moved - todo == moved;
    }

    /** All list files are moved, in any order, before the configuration is. */
    method MoveConfig()
      modifies `data, `temp, `live
      ensures data == old(data) + (old(temp) - {CONFIG})
      ensures temp.Keys == old(temp).Keys * {CONFIG}
      ensures live == Some(tempConfig)
    {
      hide LiveClosed;
      assert Part(temp, temp.Keys - {CONFIG}) == temp - {CONFIG};
      MoveSome(temp.Keys - {CONFIG});
      live := Some(tempConfig);
    }

    /** Removing a directory fails when files are left in it. */
    method RemoveTempDirectory() returns (ok: bool)
      ensures ok <==> temp == map[]
    {
      ok := temp == map[];
    }

    /** The list files of the registry, in the order they are written; later writers keep what earlier ones wrote. */
    method WriteLists(reg: Reg, keys: seq<string>, extended: set<string>, domains: seq<string>, urls: seq<string>,
                      ghost p: Plan)
      requires IsEnumeration(keys, reg) && DOMAIN_KEY in reg
      requires Touched(p, temp) && forall file :: file in temp ==> temp[file] == []
      modifies `temp
      ensures Prepared(reg, keys, reg[DOMAIN_KEY], p, GlobalFiles(extended, domains, urls), temp)
    {
      hide IsEnumeration, Touched, WroteGroups, Wrote, SlotsOf, RuleOwners, OwnerSlots, GlobalFiles;
      ghost var touched := temp;
      WriteGlobalBlacklist(extended, domains, urls);
      temp := WriteUsergroupMemberLists(reg, keys, reg[DOMAIN_KEY], temp);
      ghost var groups := temp;
      temp := WriteBlackWhiteLists(reg, keys, temp);
      ghost var general := temp;
      temp := WriteSettinglist(reg, keys, temp);
    }

    /** A run up to the first move: the lists and the text are ready in the temporary directory, and neither the data
        directory nor the live configuration has changed. */
    method Prepare(reg: Reg, keys: seq<string>, tempName: string, forced: bool, changes: set<string>,
                   domains: seq<string>, urls: seq<string>)
      returns (ok: bool, ghost p: Plan)
      requires IsEnumeration(keys, reg) && DirectoryName(tempName)
      modifies `temp, `tempConfig
      ensures ok <==> Runnable(reg)
      ensures ok ==>
        && Plans(reg, p) && p.forced == forced && CONFIG !in temp
        && Prepared(reg, keys, reg[DOMAIN_KEY], p, GlobalFiles(Extended(changes, data), domains, urls), temp)
        && tempConfig == PublishedText(p, tempName, Extended(changes, data))
    {
      hide IsEnumeration, Touched, Plans, Render, Finalized, DirectoryName, Prepared, Printable, ScriptOf, Extended;
      var extended := CheckGlobalBlacklist(changes);
      ok, p := MakeTemporary(reg, keys, tempName, forced, extended);
      if !ok || DOMAIN_KEY !in reg {
        ok := false;
        return;
      }
      WriteLists(reg, keys, extended, domains, urls, p);
      NoConfigAmong(reg, keys, p, extended, domains, urls, temp);
      FinalizeConfig(tempName);
    }

    /** One run. A run whose registry lacks what it needs changes neither the data directory nor the live
        configuration. */
    method Handler(reg: Reg, keys: seq<string>, tempName: string, forced: bool, changes: set<string>,
                   domains: seq<string>, urls: seq<string>)
      returns (ok: bool, removed: bool, ghost p: Plan, ghost files: Files)
      requires IsEnumeration(keys, reg) && DirectoryName(tempName)
      modifies this
      ensures ok <==> Runnable(reg)
      ensures !ok ==> data == old(data) && live == old(live)
      ensures ok ==>
        && removed
        && PublishesRun(reg, keys, tempName, forced, changes, domains, urls, p, files, old(data), data, live)
    {
      hide IsEnumeration, Plans, DirectoryName, Prepared, PublishedText, Printable, Extended, LiveClosed, GlobalFiles;
      removed := false;
      ok, p := Prepare(reg, keys, tempName, forced, changes, domains, urls);
      files := temp;
      if !ok {
        return;
      }
      MoveConfig();
      assert files - {CONFIG} == files;
      removed := RemoveTempDirectory();
    }
  }

  lemma NoConfigAmong(reg: Reg, keys: seq<string>, p: Plan, changes: set<string>, domains: seq<string>,
                      urls: seq<string>, files: Files)
    requires DOMAIN_KEY in reg
    requires Prepared(reg, keys, reg[DOMAIN_KEY], p, GlobalFiles(changes, domains, urls), files)
    ensures CONFIG !in files
  {
    hide Prepared, GlobalFiles, TouchList;
    GlobalFileNames(changes, domains, urls);
    PreparedNames(reg, keys, reg[DOMAIN_KEY], p, GlobalFiles(changes, domains, urls), files);
  }

  lemma GlobalFileNames(changes: set<string>, domains: seq<string>, urls: seq<string>)
    ensures var global := GlobalFiles(changes, domains, urls);
      && (forall file :: file in global ==> file == GLOBAL_DOMAINS || file == GLOBAL_URLS)
      && (GLOBAL_DOMAINS in global <==> DOMAINS_KEY in changes)
      && (GLOBAL_URLS in global <==> URLS_KEY in changes)
      && (GLOBAL_DOMAINS in global ==> global[GLOBAL_DOMAINS] == domains)
      && (GLOBAL_URLS in global ==> global[GLOBAL_URLS] == urls)
  {
    FirstLetters(Slot(General, "url", "blacklisted"), "");
  }

  /** What a finished run has done to the data directory and the live configuration. */
  ghost predicate PublishesRun(reg: Reg, keys: seq<string>, tempName: string, forced: bool, changes: set<string>,
                               domains: seq<string>, urls: seq<string>, p: Plan, files: Files,
                               before: Files, after: Files, live: Option<string>) {
    var extended := Extended(changes, before);
    && Runnable(reg) && Plans(reg, p) && p.forced == forced
    && Prepared(reg, keys, reg[DOMAIN_KEY], p, GlobalFiles(extended, domains, urls), files)
    && after == before + files
    && live == Some(PublishedText(p, tempName, extended))
  }

  // ---------- what squidGuard reads and decides after a run ----------

  lemma DataDirectory()
    ensures IsWord(DATA + "/") && Clear(DATA)
  {
    assert Visible("/var/lib") && Visible("/ucs-school-webproxy") && Visible("/");
    assert Clear("/var/lib") && Clear("/ucs-school-webproxy");
    hide Visible, IsWord;
    VisibleWord("/var/lib");
    VisibleWord("/ucs-school-webproxy");
    VisibleWord("/");
    WordAppend("/var/lib", "/ucs-school-webproxy");
    WordAppend("/var/lib" + "/ucs-school-webproxy", "/");
  }

  /** The published text is the text that printing for the data directory with both global lists would have given,
      whatever blanks the redirect target and the addresses hold. */
  lemma PublishedAsPrinted(reg: Reg, p: Plan, tempName: string, changes: set<string>)
    requires Plans(reg, p) && PlainText(reg) && Printable(reg) && DirectoryName(tempName)
    ensures PublishedText(p, tempName, changes) == Render(ScriptOf(p, DATA, true, true))
  {
    hide Plans, PlainText, Printable, CleanScript, GoodScript, ScriptOf, Render, Finalized, IsWord, Clear;
    var d, u := DOMAINS_KEY in changes, URLS_KEY in changes;
    DataDirectory();
    CleanPlan(reg, p, tempName, d, u);
    ScriptHome(p, tempName, d, u);
    PrintThenRewrite(ScriptOf(p, tempName, d, u), DATA);
    PublishedScript(p, tempName, DATA, d, u);
  }

  /** squidGuard reads the published text as the configuration of the registry, with the data directory and both
      global lists, if and only if the redirect target is one word; otherwise it reads nothing. */
  lemma PublishedMeaning(reg: Reg, p: Plan, tempName: string, changes: set<string>)
    requires Plans(reg, p) && PlainText(reg) && Printable(reg) && DirectoryName(tempName)
    ensures Parse(PublishedText(p, tempName, changes)) == if Readable(p.redirect) then Some(Final(p, DATA)) else None
  {
    hide Plans, PlainText, Printable, ScriptOf, Render, PublishedText, Meaning, IsWord, Clear, Parse, Readable;
    DataDirectory();
    PublishedAsPrinted(reg, p, tempName, changes);
    ParsePlan(reg, p, DATA, true, true);
  }

  lemma ScriptHome(p: Plan, home: string, d: bool, u: bool)
    ensures ScriptOf(p, home, d, u).dbhome == home
  {
  }

  lemma PlannedRedirect(reg: Reg, p: Plan)
    requires Plans(reg, p)
    ensures Redirect(reg) == Some(p.redirect)
  {
    hide Redirect;
  }

  /** What a client is decided by after a run, whatever names the registry holds: its direct reading, except under
      a name that a blocked host group has taken. */
  ghost predicate Obeys(reg: Reg, forced: bool, cfg: Config, data: Files, client: Client, request: Request)
    requires DOMAIN_KEY in reg
  {
    var d := Decide(cfg, data, client, request);
    && SaysByName(reg, reg[DOMAIN_KEY], forced, GlobalHit(data, request), client, request, d)
    && (ClearNames(reg) ==> Says(reg, reg[DOMAIN_KEY], forced, GlobalHit(data, request), client, request, d))
  }

  /** After a run the live configuration is readable exactly when the redirect target is one word; then, read as
      text and interpreted with the files in the data directory, it decides every request of every client as the
      registry says. */
  lemma LivePolicy(reg: Reg, keys: seq<string>, tempName: string, forced: bool, changes: set<string>,
                   domains: seq<string>,
                   urls: seq<string>, p: Plan, files: Files, before: Files, after: Files, live: Option<string>,
                   client: Client, request: Request)
    requires IsEnumeration(keys, reg) && DirectoryName(tempName)
    requires PublishesRun(reg, keys, tempName, forced, changes, domains, urls, p, files, before, after, live)
    requires PlainText(reg) && ProperKeys(reg) && PlainGroups(reg)
    ensures DOMAIN_KEY in reg && Redirect(reg).Some? && live.Some?
    ensures Parse(live.value).Some? <==> Readable(Redirect(reg).value)
    ensures Parse(live.value).Some? ==> Obeys(reg, forced, Parse(live.value).value, after, client, request)
  {
    hide *;
    RunFacts(reg, keys, tempName, forced, changes, domains, urls, p, files, before, after, live);
    PlannedRedirect(reg, p);
    PublishedMeaning(reg, p, tempName, Extended(changes, before));
    LiveLists(reg, keys, tempName, forced, changes, domains, urls, p, files, before, after, live);
    FinalObeys(reg, p, after, client, request);
  }

  lemma FinalObeys(reg: Reg, p: Plan, data: Files, client: Client, request: Request)
    requires DOMAIN_KEY in reg && Plans(reg, p) && HoldsLists(reg, reg[DOMAIN_KEY], p, data)
    ensures Obeys(reg, p.forced, Final(p, DATA), data, client, request)
  {
    hide Plans, HoldsLists, ClearNames, Says, SaysByName, Decide, Final, GlobalHit;
    PolicyByName(reg, reg[DOMAIN_KEY], p, DATA, data, client, request);
    if ClearNames(reg) {
      PolicyPreserved(reg, reg[DOMAIN_KEY], p, DATA, data, client, request);
    }
  }

  lemma RunFacts(reg: Reg, keys: seq<string>, tempName: string, forced: bool, changes: set<string>,
                 domains: seq<string>,
                 urls: seq<string>, p: Plan, files: Files, before: Files, after: Files, live: Option<string>)
    requires PublishesRun(reg, keys, tempName, forced, changes, domains, urls, p, files, before, after, live)
    ensures Printable(reg) && DOMAIN_KEY in reg && Plans(reg, p) && p.forced == forced && after == before + files
    ensures Prepared(reg, keys, reg[DOMAIN_KEY], p, GlobalFiles(Extended(changes, before), domains, urls), files)
    ensures live == Some(PublishedText(p, tempName, Extended(changes, before)))
  {
    hide Plans, Prepared, PublishedText, Printable, GlobalFiles, Extended;
  }

  /** The data directory holds the lists of the registry. */
  lemma LiveLists(reg: Reg, keys: seq<string>, tempName: string, forced: bool, changes: set<string>,
                  domains: seq<string>,
                  urls: seq<string>, p: Plan, files: Files, before: Files, after: Files, live: Option<string>)
    requires IsEnumeration(keys, reg)
    requires PublishesRun(reg, keys, tempName, forced, changes, domains, urls, p, files, before, after, live)
    requires ProperKeys(reg) && PlainGroups(reg)
    ensures HoldsLists(reg, reg[DOMAIN_KEY], p, after)
  {
    hide IsEnumeration, Plans, Prepared, ProperKeys, PlainGroups, PublishedText, HoldsLists, Printable, GlobalFiles,
      Extended;
    var extended := Extended(changes, before);
    GlobalFileNames(extended, domains, urls);
    PreparedHolds(reg, keys, reg[DOMAIN_KEY], p, GlobalFiles(extended, domains, urls), files);
    HoldsAfter(reg, reg[DOMAIN_KEY], p, files, before);
  }

  lemma HoldsAfter(reg: Reg, domain: string, p: Plan, files: Files, before: Files)
    requires HoldsLists(reg, domain, p, files)
    ensures HoldsLists(reg, domain, p, before + files)
  {
    hide HoldsOwner, HoldsMembers, PlanOwner;
    forall o | PlanOwner(p, o)
      ensures HoldsOwner(reg, before + files, o)
    {
      HoldsOwnerAfter(reg, files, before, o);
    }
    forall g | g in p.groups
      ensures HoldsMembers(reg, domain, before + files, g.name)
    {
      HoldsMembersAfter(reg, domain, files, before, g.name);
    }
  }

  lemma HoldsOwnerAfter(reg: Reg, files: Files, before: Files, o: Owner)
    requires HoldsOwner(reg, files, o)
    ensures HoldsOwner(reg, before + files, o)
  {
    hide FileOf, IsEntry, OwnerSlots;
    forall s | s in OwnerSlots(o)
      ensures HoldsSlot(reg, before + files, s)
    {
      assert HoldsSlot(reg, files, s);
      assert (before + files)[FileOf(s)] == files[FileOf(s)];
    }
  }

  lemma HoldsMembersAfter(reg: Reg, domain: string, files: Files, before: Files, group: string)
    requires HoldsMembers(reg, domain, files, group)
    ensures HoldsMembers(reg, domain, before + files, group)
  {
    hide GroupFile, Member;
    assert (before + files)[GroupFile(group)] == files[GroupFile(group)];
  }
}
