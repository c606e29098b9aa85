/** Runs of the handler over time: finished ones, and ones stopped between two moves. */
module Runs {
  import opened Options
  import opened Text
  import opened Registry
  import opened Lists
  import opened SquidGuard
  import opened Printing
  import opened Compiler
  import opened Policy
  import opened Closure
  import opened Publish
  import opened Proxy

  datatype Run = Run(reg: Reg, keys: seq<string>, tempName: string, forced: bool, changes: set<string>,
                     domains: seq<string>, urls: seq<string>)

  /** The data directory and the live configuration. */
  datatype Site = Site(data: Files, live: Option<string>)

  datatype Outcome = Finished | Stopped(moved: set<string>)

  ghost predicate GoodRun(r: Run) {
    IsEnumeration(r.keys, r.reg) && DirectoryName(r.tempName)
  }

  /** What the run has put into its temporary directory when it starts to move files. */
  ghost predicate Prepares(r: Run, before: Files, p: Plan, files: Files) {
    && Runnable(r.reg) && Plans(r.reg, p) && p.forced == r.forced
    && Prepared(r.reg, r.keys, r.reg[DOMAIN_KEY], p, GlobalFiles(Extended(r.changes, before), r.domains, r.urls), files)
  }

  ghost predicate FinishesWith(r: Run, s: Site, s': Site, p: Plan, files: Files) {
    PublishesRun(r.reg, r.keys, r.tempName, r.forced, r.changes, r.domains, r.urls, p, files, s.data, s'.data, s'.live)
  }

  /** A run stopped after moving some files leaves the configuration as it was. */
  ghost predicate StopsWith(r: Run, moved: set<string>, s: Site, s': Site, p: Plan, files: Files) {
    && Prepares(r, s.data, p, files) && moved <= files.Keys
    && s'.live == s.live && s'.data == s.data + Part(files, moved)
  }

  ghost predicate Step(r: Run, o: Outcome, s: Site, s': Site) {
    match o
    case Finished => exists p, files :: FinishesWith(r, s, s', p, files)
    case Stopped(moved) => (moved == {} && s' == s) || exists p, files :: StopsWith(r, moved, s, s', p, files)
  }

  /** The steps are what the proxy's own methods do: called for the run, the handler takes a finished step. */
  method Finish(w: WebProxy, r: Run) returns (ok: bool)
    requires GoodRun(r)
    modifies w
    ensures ok <==> Runnable(r.reg)
    ensures Step(r, if ok then Finished else Stopped({}), Site(old(w.data), old(w.live)), Site(w.data, w.live))
  {
    hide PublishesRun, DirectoryName, IsEnumeration, Runnable, StopsWith;
    var removed;
    ghost var p, files;
    ghost var s := Site(w.data, w.live);
    ok, removed, p, files := w.Handler(r.reg, r.keys, r.tempName, r.forced, r.changes, r.domains, r.urls);
    assert ok ==> FinishesWith(r, s, Site(w.data, w.live), p, files);
  }

  /** And its moves, stopped when those files are moved that it has of the given ones, take a stopped step. */
  method Stop(w: WebProxy, r: Run, among: set<string>) returns (moved: set<string>)
    requires GoodRun(r)
    modifies w
    ensures moved <= among
    ensures Step(r, Stopped(moved), Site(old(w.data), old(w.live)), Site(w.data, w.live))
  {
    hide PublishesRun, DirectoryName, IsEnumeration, Plans, Prepared, Printable, Extended, LiveClosed, PublishedText,
      GlobalFiles;
    ghost var s := Site(w.data, w.live);
    var ok, p := w.Prepare(r.reg, r.keys, r.tempName, r.forced, r.changes, r.domains, r.urls);
    if !ok {
      return {};
    }
    ghost var files := w.temp;
    moved := w.temp.Keys * among;
    w.MoveSome(moved);
    assert StopsWith(r, moved, s, Site(w.data, w.live), p, files);
  }

  datatype Event = Event(run: Run, outcome: Outcome)

  ghost predicate History(sites: seq<Site>, events: seq<Event>) {
    && |sites| == |events| + 1
    && (forall i :: 0 <= i < |events|
         ==> GoodRun(events[i].run) && Step(events[i].run, events[i].outcome, sites[i], sites[i + 1]))
    && sites[0].live == None
  }

  // ---------- one step ----------

  /** What is live after a finished run: the plan's configuration, or nothing readable. */
  lemma LiveAfter(r: Run, s: Site, s': Site, p: Plan, files: Files)
    requires GoodRun(r) && PlainText(r.reg) && FinishesWith(r, s, s', p, files)
    ensures s'.live.Some? && Parse(s'.live.value) == if Readable(p.redirect) then Some(Final(p, DATA)) else None
  {
    hide *;
    GoodParts(r);
    FinishedParts(r, s, s', p, files);
    PublishedMeaning(r.reg, p, r.tempName, Extended(r.changes, s.data));
  }

  lemma GoodParts(r: Run)
    requires GoodRun(r)
    ensures IsEnumeration(r.keys, r.reg) && DirectoryName(r.tempName)
  {
    hide IsEnumeration, DirectoryName;
  }

  lemma FinishedParts(r: Run, s: Site, s': Site, p: Plan, files: Files)
    requires FinishesWith(r, s, s', p, files)
    ensures Prepares(r, s.data, p, files) && Printable(r.reg) && Plans(r.reg, p)
    ensures s'.data == s.data + files && s'.live == Some(PublishedText(p, r.tempName, Extended(r.changes, s.data)))
  {
    hide Plans, Prepared, PublishedText, Printable, GlobalFiles, Extended, PublishesRun;
    RunFacts(r.reg, r.keys, r.tempName, r.forced, r.changes, r.domains, r.urls, p, files, s.data, s'.data, s'.live);
  }

  function GlobalKey(file: string): string {
    if file == GLOBAL_DOMAINS then DOMAINS_KEY else URLS_KEY
  }

  function GlobalLines(r: Run, file: string): seq<string> {
    if file == GLOBAL_DOMAINS then r.domains else r.urls
  }

  /** A global list is rewritten exactly when its key is among the changes, or the file was missing. */
  lemma PreparedGlobals(r: Run, before: Files, p: Plan, files: Files, file: string)
    requires Prepares(r, before, p, files) && IsGlobal(file)
    ensures file in files <==> Due(r, before, file)
    ensures file in files ==> Has(files, file, GlobalLines(r, file))
  {
    hide Plans, Prepared, Printable, GlobalFiles, TouchList;
    var extended := Extended(r.changes, before);
    GlobalFileNames(extended, r.domains, r.urls);
    PreparedNames(r.reg, r.keys, r.reg[DOMAIN_KEY], p, GlobalFiles(extended, r.domains, r.urls), files);
    KeysApart();
  }

  lemma KeysApart()
    ensures DOMAINS_KEY != URLS_KEY && GLOBAL_DOMAINS != GLOBAL_URLS
  {
    FirstLetters(Slot(General, "url", "blacklisted"), "");
    assert |DOMAINS_KEY| != |URLS_KEY|;
  }

  /** Every other named list of a finished run comes from that run. */
  lemma PreparedTouched(r: Run, before: Files, p: Plan, files: Files, file: string)
    requires Prepares(r, before, p, files) && file in TouchList(p)
    ensures file in files
  {
    hide Plans, Prepared, Printable, GlobalFiles, TouchList;
    TouchedStay(r.reg, r.keys, r.reg[DOMAIN_KEY], p, GlobalFiles(Extended(r.changes, before), r.domains, r.urls), files,
      file);
  }

  ghost predicate Has(data: Files, file: string, lines: seq<string>) {
    file in data && data[file] == lines
  }

  ghost predicate Same(a: Files, b: Files, file: string) {
    (file in a <==> file in b) && (file in a ==> a[file] == b[file])
  }

  /** The run has to rewrite the global list: its key is among the changes, or the file is missing. */
  ghost predicate Due(r: Run, before: Files, file: string) {
    GlobalKey(file) in r.changes || file !in before
  }

  ghost predicate IsGlobal(file: string) {
    file == GLOBAL_DOMAINS || file == GLOBAL_URLS
  }

  /** After a finished run every named list exists: an ordinary one as this run wrote it, a global one as this
      run wrote it when its key changed or it was missing, and otherwise as it was. */
  lemma FinishedLists(r: Run, s: Site, s': Site, p: Plan, files: Files, file: string)
    requires FinishesWith(r, s, s', p, files) && Names(Final(p, DATA), file)
    ensures file in s'.data
    ensures !IsGlobal(file) ==> file in files && Same(s'.data, files, file)
    ensures IsGlobal(file) && Due(r, s.data, file) ==> Has(s'.data, file, GlobalLines(r, file))
    ensures IsGlobal(file) && !Due(r, s.data, file) ==> Same(s'.data, s.data, file)
  {
    hide Names, Final, TouchList, FinishesWith, Prepares, PublishedText, Parse, Plans, Printable, Extended, GlobalKey,
      GlobalLines;
    NamedFiles(p, DATA, file);
    FinishedParts(r, s, s', p, files);
    if IsGlobal(file) {
      PreparedGlobals(r, s.data, p, files, file);
    } else {
      PreparedTouched(r, s.data, p, files, file);
    }
  }

  /** No step, finished or stopped anywhere, leaves the live configuration naming a missing file. */
  lemma StepClosed(r: Run, o: Outcome, s: Site, s': Site)
    requires GoodRun(r) && PlainText(r.reg) && Step(r, o, s, s') && LiveClosed(s.live, s.data)
    ensures LiveClosed(s'.live, s'.data)
  {
    hide GoodRun, FinishesWith, StopsWith, LiveClosed, PlainText;
    match o
    case Finished =>
      var p, files :| FinishesWith(r, s, s', p, files);
      FinishedClosed(r, s, s', p, files);
    case Stopped(moved) =>
      if moved != {} || s' != s {
        var p, files :| StopsWith(r, moved, s, s', p, files);
        StoppedParts(r, moved, s, s', p, files);
        LiveClosedGrows(s.live, s.data, s'.data);
      }
  }

  lemma StoppedParts(r: Run, moved: set<string>, s: Site, s': Site, p: Plan, files: Files)
    requires StopsWith(r, moved, s, s', p, files)
    ensures Prepares(r, s.data, p, files) && moved <= files.Keys && s'.live == s.live
    ensures forall file :: file in s'.data <==> file in s.data || file in moved
    ensures forall file :: file in s'.data ==> s'.data[file] == if file in moved then files[file] else s.data[file]
  {
    hide Prepares;
  }

  lemma FinishedClosed(r: Run, s: Site, s': Site, p: Plan, files: Files)
    requires GoodRun(r) && PlainText(r.reg) && FinishesWith(r, s, s', p, files)
    ensures LiveClosed(s'.live, s'.data)
  {
    hide Names, Final, TouchList, GoodRun, FinishesWith, Prepares, PublishedText, Parse, Plans, Printable, Extended,
      Due, GlobalLines, PlainText, Readable;
    LiveAfter(r, s, s', p, files);
    forall file | Names(Final(p, DATA), file)
      ensures file in s'.data
    {
      FinishedLists(r, s, s', p, files, file);
    }
  }

  // ---------- all histories ----------

  /** No registry of the history holds a newline or the mark in a redirect target or an address. */
  ghost predicate PlainHistory(events: seq<Event>) {
    forall i :: 0 <= i < |events| ==> PlainText(events[i].run.reg)
  }

  /** Publishing is safe over every history: no live configuration ever names a missing file. */
  lemma {:induction false} AlwaysClosed(sites: seq<Site>, events: seq<Event>, i: nat)
    requires History(sites, events) && PlainHistory(events) && i < |sites|
    ensures LiveClosed(sites[i].live, sites[i].data)
  {
    hide Step, GoodRun, Parse, Names, PlainText;
    if i > 0 {
      AlwaysClosed(sites, events, i - 1);
      StepClosed(events[i - 1].run, events[i - 1].outcome, sites[i - 1], sites[i]);
    }
  }

  ghost predicate Moves(o: Outcome, file: string) {
    o.Finished? || file in o.moved
  }

  /** The event writes the global list: its key changed or the file was missing, and the file was moved. */
  ghost predicate Rewrites(sites: seq<Site>, events: seq<Event>, k: nat, file: string)
    requires History(sites, events) && k < |events|
  {
    Due(events[k].run, sites[k].data, file) && Moves(events[k].outcome, file)
  }

  ghost predicate LastRewrite(sites: seq<Site>, events: seq<Event>, k: nat, i: nat, file: string)
    requires History(sites, events)
  {
    && k < i <= |events| && Rewrites(sites, events, k, file)
    && forall j: nat :: k < j < i ==> !Rewrites(sites, events, j, file)
  }

  lemma StepGlobals(r: Run, o: Outcome, s: Site, s': Site, file: string)
    requires Step(r, o, s, s') && IsGlobal(file)
    ensures Due(r, s.data, file) && Moves(o, file) ==> Has(s'.data, file, GlobalLines(r, file))
    ensures !(Due(r, s.data, file) && Moves(o, file)) ==> Same(s'.data, s.data, file)
  {
    hide GoodRun, FinishesWith, StopsWith, Prepares, Due, GlobalLines, IsGlobal, PublishedText, Extended, Plans,
      Printable, TouchList;
    match o
    case Finished =>
      var p, files :| FinishesWith(r, s, s', p, files);
      FinishedParts(r, s, s', p, files);
      PreparedGlobals(r, s.data, p, files, file);
    case Stopped(moved) =>
      if moved != {} || s' != s {
        var p, files :| StopsWith(r, moved, s, s', p, files);
        StoppedParts(r, moved, s, s', p, files);
        PreparedGlobals(r, s.data, p, files, file);
      }
  }

  /** At any time a global list holds what the last run that had to rewrite it, and got to move it, was given. */
  lemma {:induction false} GlobalListOrigin(sites: seq<Site>, events: seq<Event>, i: nat, file: string) returns (k: nat)
    requires History(sites, events) && i < |sites| && IsGlobal(file)
    requires file !in sites[0].data && file in sites[i].data
    ensures LastRewrite(sites, events, k, i, file)
    ensures sites[i].data[file] == GlobalLines(events[k].run, file)
  {
    hide Step, GoodRun, Due, Moves, GlobalLines, IsGlobal;
    var e := events[i - 1];
    StepGlobals(e.run, e.outcome, sites[i - 1], sites[i], file);
    if Rewrites(sites, events, i - 1, file) {
      k := i - 1;
    } else {
      k := GlobalListOrigin(sites, events, i - 1, file);
    }
  }

  /** Whatever happened before, after a finished run the live configuration is readable exactly when the redirect
      target is one word, and then decides every request of every client as that run's registry says. */
  lemma LatestRunDecides(sites: seq<Site>, events: seq<Event>, i: nat, client: Client, request: Request)
    requires History(sites, events) && 0 < i < |sites| && events[i - 1].outcome.Finished?
    requires var reg := events[i - 1].run.reg; PlainText(reg) && ProperKeys(reg) && PlainGroups(reg)
    ensures Decides(events[i - 1].run, sites[i], client, request)
  {
    hide GoodRun, FinishesWith, ProperKeys, PlainGroups, PlainText, Decides;
    var r := events[i - 1].run;
    var p, files :| FinishesWith(r, sites[i - 1], sites[i], p, files);
    RunDecides(r, sites[i - 1], sites[i], p, files, client, request);
  }

  ghost predicate Decides(r: Run, s: Site, client: Client, request: Request) {
    && DOMAIN_KEY in r.reg && Redirect(r.reg).Some? && s.live.Some?
    && (Parse(s.live.value).Some? <==> Readable(Redirect(r.reg).value))
    && (Parse(s.live.value).Some? ==> Obeys(r.reg, r.forced, Parse(s.live.value).value, s.data, client, request))
  }

  lemma RunDecides(r: Run, s: Site, s': Site, p: Plan, files: Files, client: Client, request: Request)
    requires GoodRun(r) && FinishesWith(r, s, s', p, files)
    requires PlainText(r.reg) && ProperKeys(r.reg) && PlainGroups(r.reg)
    ensures Decides(r, s', client, request)
  {
    hide *;
    GoodParts(r);
    FinishedRun(r, s, s', p, files);
    LivePolicy(r.reg, r.keys, r.tempName, r.forced, r.changes, r.domains, r.urls, p, files, s.data, s'.data, s'.live,
      client, request);
    Decided(r, s', client, request);
  }

  lemma FinishedRun(r: Run, s: Site, s': Site, p: Plan, files: Files)
    requires FinishesWith(r, s, s', p, files)
    ensures PublishesRun(r.reg, r.keys, r.tempName, r.forced, r.changes, r.domains, r.urls, p, files, s.data, s'.data,
      s'.live)
  {
    hide PublishesRun;
  }

  lemma Decided(r: Run, s: Site, client: Client, request: Request)
    requires DOMAIN_KEY in r.reg && Redirect(r.reg).Some? && s.live.Some?
    requires Parse(s.live.value).Some? <==> Readable(Redirect(r.reg).value)
    requires Parse(s.live.value).Some? ==> Obeys(r.reg, r.forced, Parse(s.live.value).value, s.data, client, request)
    ensures Decides(r, s, client, request)
  {
    hide Parse, Obeys, Redirect, Readable;
  }
}
