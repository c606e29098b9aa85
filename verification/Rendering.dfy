/** A whole configuration as text: what squidGuard reads out of it, and the rewrite done before publishing. */
module Rendering {
  import opened Options
  import opened Text
  import opened SquidGuard
  import opened Printing

  /** A configuration in printed order: declarations, then access blocks. */
  datatype Script = Script(dbhome: string, declarations: seq<Item>, blocks: seq<Item>)

  function Items(s: Script): seq<Item> {
    [Header(s.dbhome)] + s.declarations + [AclOpen] + s.blocks + [AclClose]
  }

  function Render(s: Script): string {
    Unlines(FlatMap(Items(s), ItemLines))
  }

  /** The configuration a script declares. */
  function Meaning(s: Script): Config {
    Config(s.dbhome + "/", FlatMap(s.declarations, SourceOf), FlatMap(s.declarations, DestOf),
           FlatMap(s.blocks, AclOf))
  }

  ghost predicate GoodScript(s: Script) {
    && GoodItem(Header(s.dbhome))
    && (forall i :: 0 <= i < |s.declarations| ==> Declares(s.declarations[i]) && GoodItem(s.declarations[i]))
    && (forall i :: 0 <= i < |s.blocks| ==> s.blocks[i].AclBlock? && GoodItem(s.blocks[i]))
  }

  predicate Declares(item: Item) {
    item.AddressSource? || item.UserSource? || item.ListDest? || item.GlobalDest?
  }

  // ---------- reading a rendered script ----------

  lemma FeedDeclaration(cfg: Config, item: Item)
    requires Declares(item) && GoodItem(item)
    ensures Feed(Parser(cfg, Top), ItemLines(item)) == Parser(ReadTop(cfg, item), Top)
  {
    hide Feed, ItemLines, ReadTop;
    match item
    case AddressSource(_, _, _) => FeedAddressSource(cfg, item);
    case UserSource(name) => FeedUserSource(cfg, name);
    case ListDest(_, _, _) => FeedListDest(cfg, item);
    case GlobalDest(_, _) => FeedGlobalDest(cfg, item);
  }

  lemma {:induction false} FeedDeclarations(cfg: Config, items: seq<Item>)
    requires forall i :: 0 <= i < |items| ==> Declares(items[i]) && GoodItem(items[i])
    ensures Feed(Parser(cfg, Top), FlatMap(items, ItemLines))
         == Parser(Config(cfg.dbhome, cfg.sources + FlatMap(items, SourceOf), cfg.dests + FlatMap(items, DestOf),
           cfg.acls), Top)
  {
    if items == [] {
      assert cfg.sources + [] == cfg.sources && cfg.dests + [] == cfg.dests;
    } else {
      var init, last := items[..|items| - 1], items[|items| - 1];
      var mid := Config(cfg.dbhome, cfg.sources + FlatMap(init, SourceOf), cfg.dests + FlatMap(init, DestOf), cfg.acls);
      Assoc(cfg.sources, FlatMap(init, SourceOf), SourceOf(last));
      Assoc(cfg.dests, FlatMap(init, DestOf), DestOf(last));
      hide Feed, ItemLines, SourceOf, DestOf, GoodItem, Declares;
      FeedDeclarations(cfg, init);
      FeedDeclaration(mid, last);
      FeedAppend(Parser(cfg, Top), FlatMap(init, ItemLines), ItemLines(last));
      assert Declares(last);
      NotHeader(last);
    }
  }

  lemma NotHeader(item: Item)
    requires Declares(item)
    ensures !item.Header?
  {
  }

  /** The redirect line of every block is read. */
  ghost predicate AllReadable(blocks: seq<Item>) {
    forall i :: 0 <= i < |blocks| && blocks[i].AclBlock? ==> Readable(blocks[i].redirect)
  }

  lemma {:induction false} FeedBlocks(cfg: Config, items: seq<Item>)
    requires forall i :: 0 <= i < |items| ==> items[i].AclBlock? && GoodItem(items[i])
    requires AllReadable(items)
    ensures Feed(Parser(cfg, InAcl), FlatMap(items, ItemLines))
         == Parser(cfg.(acls := cfg.acls + FlatMap(items, AclOf)), InAcl)
  {
    if items == [] {
      assert cfg.acls + [] == cfg.acls;
    } else {
      var init, last := items[..|items| - 1], items[|items| - 1];
      Assoc(cfg.acls, FlatMap(init, AclOf), AclOf(last));
      hide Feed, ItemLines, AclOf, GoodItem, Readable;
      FeedBlocks(cfg, init);
      FeedAclBlock(cfg.(acls := cfg.acls + FlatMap(init, AclOf)), last);
      FeedAppend(Parser(cfg, InAcl), FlatMap(init, ItemLines), ItemLines(last));
    }
  }

  /** The printed access section. */
  function AclLines(blocks: seq<Item>): seq<string> {
    ItemLines(AclOpen) + (FlatMap(blocks, ItemLines) + ItemLines(AclClose))
  }

  lemma FlatItems(s: Script)
    ensures FlatMap(Items(s), ItemLines)
         == ItemLines(Header(s.dbhome)) + (FlatMap(s.declarations, ItemLines) + AclLines(s.blocks))
  {
    hide ItemLines, FlatMap;
    FlatMapOne(Header(s.dbhome), ItemLines);
    FlatMapOne(AclOpen, ItemLines);
    FlatMapOne(AclClose, ItemLines);
    var rest := [AclOpen] + (s.blocks + [AclClose]);
    assert Items(s) == [Header(s.dbhome)] + (s.declarations + rest);
    FlatMapAppend([Header(s.dbhome)], s.declarations + rest, ItemLines);
    FlatMapAppend(s.declarations, rest, ItemLines);
    FlatMapAppend([AclOpen], s.blocks + [AclClose], ItemLines);
    FlatMapAppend(s.blocks, [AclClose], ItemLines);
  }

  lemma FeedScript(s: Script)
    requires GoodScript(s)
    ensures AllReadable(s.blocks) ==> Feed(START, FlatMap(Items(s), ItemLines)) == Parser(Meaning(s), Top)
    ensures s.blocks != [] && !Readable(s.blocks[0].redirect) ==> Feed(START, FlatMap(Items(s), ItemLines)) == Bad
  {
    FlatItems(s);
    hide Feed, ItemLines, GoodItem, FlatMap, AllReadable, Readable;
    var cfg0 := START.cfg;
    var cfg1 := ReadTop(cfg0, Header(s.dbhome));
    var cfg2 := Config(s.dbhome + "/", FlatMap(s.declarations, SourceOf), FlatMap(s.declarations, DestOf), []);
    FeedHeader(cfg0, s.dbhome);
    FeedDeclarations(cfg1, s.declarations);
    assert cfg1.sources + FlatMap(s.declarations, SourceOf) == FlatMap(s.declarations, SourceOf);
    assert cfg1.dests + FlatMap(s.declarations, DestOf) == FlatMap(s.declarations, DestOf);
    FeedAclLines(cfg2, s.blocks);
    assert cfg2.acls + FlatMap(s.blocks, AclOf) == FlatMap(s.blocks, AclOf);
    FeedAppend(START, ItemLines(Header(s.dbhome)), FlatMap(s.declarations, ItemLines) + AclLines(s.blocks));
    FeedAppend(Parser(cfg1, Top), FlatMap(s.declarations, ItemLines), AclLines(s.blocks));
  }

  lemma FeedAclLines(cfg: Config, blocks: seq<Item>)
    requires forall i :: 0 <= i < |blocks| ==> blocks[i].AclBlock? && GoodItem(blocks[i])
    ensures AllReadable(blocks) ==>
      Feed(Parser(cfg, Top), AclLines(blocks)) == Parser(cfg.(acls := cfg.acls + FlatMap(blocks, AclOf)), Top)
    ensures blocks != [] && !Readable(blocks[0].redirect) ==> Feed(Parser(cfg, Top), AclLines(blocks)) == Bad
  {
    hide Feed, ItemLines, GoodItem, FlatMap, AllReadable, Readable;
    var cfg' := cfg.(acls := cfg.acls + FlatMap(blocks, AclOf));
    FeedAclEdge(cfg);
    FeedAppend(Parser(cfg, Top), ItemLines(AclOpen), FlatMap(blocks, ItemLines) + ItemLines(AclClose));
    FeedAppend(Parser(cfg, InAcl), FlatMap(blocks, ItemLines), ItemLines(AclClose));
    if AllReadable(blocks) {
      FeedBlocks(cfg, blocks);
      FeedAclEdge(cfg');
    }
    if blocks != [] && !Readable(blocks[0].redirect) {
      FeedFirstUnreadable(cfg, blocks);
      FeedBad(ItemLines(AclClose));
    }
  }

  lemma FeedFirstUnreadable(cfg: Config, blocks: seq<Item>)
    requires blocks != [] && blocks[0].AclBlock? && GoodItem(blocks[0]) && !Readable(blocks[0].redirect)
    ensures Feed(Parser(cfg, InAcl), FlatMap(blocks, ItemLines)) == Bad
  {
    var rest := blocks[1..];
    assert blocks == [blocks[0]] + rest;
    FlatMapOne(blocks[0], ItemLines);
    FlatMapAppend([blocks[0]], rest, ItemLines);
    hide Feed, ItemLines, GoodItem, FlatMap, Readable;
    FeedUnreadable(cfg, blocks[0]);
    FeedAppend(Parser(cfg, InAcl), ItemLines(blocks[0]), FlatMap(rest, ItemLines));
    FeedBad(FlatMap(rest, ItemLines));
  }

  // ---------- the rewrite before publishing ----------

  /** The text after the data directory has replaced the temporary one and the marks are gone. */
  function Finalized(text: string, temp: string, data: string): string {
    Replace(Replace(text, "\n" + DbhomeLine(temp) + "\n", "\n" + DbhomeLine(data) + "\n"), MARK, "")
  }

  predicate Unmarked(s: string) {
    '\n' !in s && !Occurs(s, MARK)
  }

  predicate Clear(s: string) {
    '\n' !in s && '#' !in s
  }

  /** Pieces whose variable parts hold neither a newline nor the mark. */
  ghost predicate CleanItem(item: Item) {
    match item
    case Header(dbhome) => Clear(dbhome)
    case AddressSource(name, ips, _) => Clear(name) && forall i :: 0 <= i < |ips| ==> Unmarked(ips[i])
    case UserSource(name) => Clear(name)
    case ListDest(name, domains, urls) => Clear(name) && Clear(domains) && Clear(urls)
    case AclBlock(_, name, pass, redirect) =>
      Clear(name) && (forall i :: 0 <= i < |pass| ==> Clear(pass[i])) && Unmarked(redirect)
    case _ => true
  }

  /** A line the rewrite leaves alone. */
  ghost predicate CleanLine(line: string) {
    Unmarked(line) && !(|line| >= 3 && line[0] == 'd' && line[1] == 'b' && line[2] == 'h')
  }

  ghost predicate CleanLines(lines: seq<string>) {
    forall i :: 0 <= i < |lines| ==> CleanLine(lines[i])
  }

  lemma MarkFacts()
    ensures MARK != "" && MARK[0] == '#' && '\n' !in MARK
  {
  }

  lemma ClearUnmarked(s: string)
    requires Clear(s)
    ensures Unmarked(s)
  {
    MarkFacts();
    AbsentWithout(s, MARK);
  }

  lemma UnmarkedL(indent: string, a: string, gap: string, rest: string)
    requires Clear(indent) && Clear(a) && Clear(gap) && Unmarked(rest)
    ensures Unmarked(L(indent, a, gap, rest))
  {
    MarkFacts();
    assert L(indent, a, gap, rest) == indent + a + gap + rest;
    AbsentBehind(indent + a + gap, rest, MARK);
  }

  lemma CleanIndented(indent: string, a: string, gap: string, rest: string)
    requires Clear(indent) && Clear(a) && Clear(gap) && Unmarked(rest)
    requires indent != "" && IsSpace(indent[0])
    ensures CleanLine(L(indent, a, gap, rest))
  {
    UnmarkedL(indent, a, gap, rest);
    assert L(indent, a, gap, rest)[0] == indent[0];
  }

  lemma CleanOpen(kind: string, name: string)
    requires kind == "src" || kind == "dest" || kind == "acl"
    requires Clear(name)
    ensures CleanLine(OpenLine("", kind, name)) && CleanLine(L("", kind, " ", name))
  {
    ClearUnmarked("{");
    ClearUnmarked(name);
    UnmarkedL("", name, " ", "{");
    UnmarkedL("", kind, " ", L("", name, " ", "{"));
    UnmarkedL("", kind, " ", name);
    assert L("", kind, " ", name)[1] == kind[1];
    assert OpenLine("", kind, name)[1] == kind[1];
  }

  lemma CleanShort()
    ensures CleanLine("") && CleanLine("}") && CleanLine("\t }") && CleanLine("\t}")
  {
    ClearUnmarked("");
    ClearUnmarked("}");
    ClearUnmarked("\t }");
    ClearUnmarked("\t}");
  }

  lemma {:induction false} CleanIps(ips: seq<string>, wide: bool)
    requires forall i :: 0 <= i < |ips| ==> Unmarked(ips[i])
    ensures CleanLines(IpLines(ips, wide))
  {
    if ips != [] {
      CleanIps(ips[1..], wide);
      CleanIndented("\t ", "ip", " ", ips[0]);
      CleanIndented("\t", "ip", "\t", ips[0]);
      hide CleanLine, L;
    }
  }

  lemma {:induction false} ClearJoin(ws: seq<string>)
    requires ws != [] && forall i :: 0 <= i < |ws| ==> Clear(ws[i])
    ensures Clear(Join(ws, ' '))
  {
    if |ws| > 1 {
      ClearJoin(ws[1..]);
    }
  }

  lemma CleanBlock(item: Item)
    requires item.AclBlock? && item.pass != [] && CleanItem(item)
    ensures CleanLines(ItemLines(item))
  {
    var pass := Join(item.pass, ' ');
    ClearJoin(item.pass);
    ClearUnmarked(pass);
    ClearUnmarked("{");
    assert Clear("pass") && Clear("redirect") && Clear(Indent(item.style)) && Clear(Inner(item.style)) && Clear(" ");
    hide Clear, Unmarked, Join, CleanLine;
    CleanShort();
    CleanIndented(Indent(item.style), item.name, " ", "{");
    CleanIndented(Inner(item.style), "pass", " ", pass);
    CleanIndented(Inner(item.style), "redirect", " ", item.redirect);
  }

  lemma CleanDeclaration(item: Item)
    requires Declares(item) && !item.GlobalDest? && CleanItem(item)
    ensures CleanLines(ItemLines(item))
  {
    assert Clear("ip") && Clear("userlist") && Clear("domainlist") && Clear("urllist");
    assert Clear(" ") && Clear("\t") && Clear("\t ") && Clear("        ");
    CleanShort();
    match item
    case AddressSource(name, ips, wide) =>
      CleanIps(ips, wide);
      CleanOpen("src", name);
      hide CleanLine, Clear, Unmarked, IpLines, OpenLine;
    case UserSource(name) =>
      ClearUnmarked(name);
      CleanOpen("src", name);
      CleanIndented("        ", "userlist", " ", name);
      hide CleanLine, Clear, Unmarked, L, OpenLine;
    case ListDest(name, domains, urls) =>
      ClearUnmarked(domains);
      ClearUnmarked(urls);
      CleanOpen("dest", name);
      CleanIndented("\t ", "domainlist", " ", domains);
      CleanIndented("\t ", "urllist", "\t", urls);
      hide CleanLine, Clear, Unmarked, L, OpenLine;
  }

  function Enabled(items: seq<Item>): seq<Item> {
    if items == [] then []
    else
      var last := items[|items| - 1];
      Enabled(items[..|items| - 1]) + [if last.GlobalDest? then GlobalDest(true, true) else last]
  }

  /** The script that is published: the final directory, and the global lists switched on. */
  function Published(s: Script, data: string): Script {
    Script(data, Enabled(s.declarations), s.blocks)
  }

  /** No variable part holds a newline or the mark; nothing else is asked of addresses and redirect targets. */
  ghost predicate CleanScript(s: Script) {
    && Clear(s.dbhome)
    && (forall i :: 0 <= i < |s.declarations| ==> Declares(s.declarations[i]) && CleanItem(s.declarations[i]))
    && (forall i :: 0 <= i < |s.blocks| ==> s.blocks[i].AclBlock? && s.blocks[i].pass != [] && CleanItem(s.blocks[i]))
  }

  /** One line before and after the marks are removed; neither is a dbhome line. */
  ghost predicate LineStripped(before: string, after: string) {
    && NotHome(before) && CleanLine(after)
    && (before == after || before == MARK + after)
  }

  predicate NotHome(line: string) {
    '\n' !in line && !(|line| >= 3 && line[0] == 'd' && line[1] == 'b' && line[2] == 'h')
  }

  ghost predicate StrippedLines(before: seq<string>, after: seq<string>) {
    |before| == |after| && forall i :: 0 <= i < |before| ==> LineStripped(before[i], after[i])
  }

  lemma CleanStripped(lines: seq<string>)
    requires CleanLines(lines)
    ensures StrippedLines(lines, lines)
  {
  }

  lemma StrippedAppend(a: seq<string>, a': seq<string>, b: seq<string>, b': seq<string>)
    requires StrippedLines(a, a') && StrippedLines(b, b')
    ensures StrippedLines(a + b, a' + b')
  {
    hide LineStripped;
  }

  lemma GlobalStripped(item: Item)
    requires item.GlobalDest?
    ensures StrippedLines(ItemLines(item), ItemLines(GlobalDest(true, true)))
  {
    CleanShort();
    GlobalText();
    CleanOpen("dest", GLOBAL);
    assert Clear(" \t ") && Clear("domainlist") && Clear(" ") && Clear("urllist") && Clear("    ");
    ClearUnmarked(GLOBAL_DOMAINS);
    ClearUnmarked(GLOBAL_URLS);
    CleanIndented(" \t ", "domainlist", " ", GLOBAL_DOMAINS);
    CleanIndented(" \t ", "urllist", "    ", GLOBAL_URLS);
    hide CleanLine, Clear, OpenLine, L, GlobalDomainLine, GlobalUrlLine;
    assert CleanLine(GlobalDomainLine()) && CleanLine(GlobalUrlLine());
    MarkedStripped(item.domainsOn, GlobalDomainLine());
    MarkedStripped(item.urlsOn, GlobalUrlLine());
    MarkedStripped(true, OpenLine("", "dest", GLOBAL));
    MarkedStripped(true, "}");
    MarkedStripped(true, "");
    assert "" + GlobalDomainLine() == GlobalDomainLine() && "" + GlobalUrlLine() == GlobalUrlLine();
  }

  lemma GlobalText()
    ensures Clear(GLOBAL) && Clear(GLOBAL_DOMAINS) && Clear(GLOBAL_URLS)
  {
    assert Clear("-domains") && Clear("-urls");
  }

  lemma MarkedStripped(on: bool, line: string)
    requires CleanLine(line)
    ensures LineStripped((if on then "" else MARK) + line, line)
    ensures LineStripped(line, line)
  {
    MarkFacts();
    if on {
      assert "" + line == line;
    } else {
      assert (MARK + line)[0] == '#';
    }
  }

  lemma {:induction false} DeclarationsStripped(items: seq<Item>)
    requires forall i :: 0 <= i < |items| ==> Declares(items[i]) && CleanItem(items[i])
    ensures StrippedLines(FlatMap(items, ItemLines), FlatMap(Enabled(items), ItemLines))
  {
    if items != [] {
      var init, last := items[..|items| - 1], items[|items| - 1];
      var last' := if last.GlobalDest? then GlobalDest(true, true) else last;
      DeclarationsStripped(init);
      FlatMapAppend(Enabled(init), [last'], ItemLines);
      FlatMapOne(last', ItemLines);
      if last.GlobalDest? {
        GlobalStripped(last);
      } else {
        CleanDeclaration(last);
        CleanStripped(ItemLines(last));
      }
      hide ItemLines, StrippedLines;
      StrippedAppend(FlatMap(init, ItemLines), FlatMap(Enabled(init), ItemLines), ItemLines(last), ItemLines(last'));
    }
  }

  lemma {:induction false} BlocksClean(items: seq<Item>)
    requires forall i :: 0 <= i < |items| ==> items[i].AclBlock? && items[i].pass != [] && CleanItem(items[i])
    ensures CleanLines(FlatMap(items, ItemLines))
  {
    if items != [] {
      var init, last := items[..|items| - 1], items[|items| - 1];
      BlocksClean(init);
      CleanBlock(last);
      hide CleanLine, ItemLines;
    }
  }

  function HeadLines(): seq<string> {
    [L("", "dbtemp", " ", DBTEMP), ""]
  }

  /** The lines behind the dbhome line. */
  function TailLines(s: Script): seq<string> {
    HeadLines() + (FlatMap(s.declarations, ItemLines) + AclLines(s.blocks))
  }

  function LogLine(): string {
    L("", "logdir", " ", LOGDIR)
  }

  lemma HeaderLines(dbhome: string)
    ensures ItemLines(Header(dbhome)) == [LogLine(), DbhomeLine(dbhome)] + HeadLines()
  {
  }

  lemma RenderedText(s: Script)
    ensures Render(s) == LogLine() + ("\n" + DbhomeLine(s.dbhome) + "\n") + Unlines(TailLines(s))
  {
    FlatItems(s);
    HeaderLines(s.dbhome);
    hide FlatMap, ItemLines, L, HeadLines, AclLines, DbhomeLine, LogLine;
    Assoc([LogLine(), DbhomeLine(s.dbhome)], HeadLines(), FlatMap(s.declarations, ItemLines) + AclLines(s.blocks));
    UnlinesTwo(LogLine(), DbhomeLine(s.dbhome), TailLines(s));
  }

  lemma UnlinesTwo(a: string, b: string, rest: seq<string>)
    ensures Unlines([a, b] + rest) == a + ("\n" + b + "\n") + Unlines(rest)
  {
    assert ([a, b] + rest)[1..] == [b] + rest && ([b] + rest)[1..] == rest;
    assert Unlines([a, b] + rest) == a + "\n" + (b + "\n" + Unlines(rest));
    hide Unlines;
    assert a + "\n" + (b + "\n" + Unlines(rest)) == a + ("\n" + b + "\n") + Unlines(rest);
  }

  lemma TailStripped(s: Script, data: string)
    requires CleanScript(s)
    ensures StrippedLines(TailLines(s), TailLines(Published(s, data)))
  {
    var s' := Published(s, data);
    var decls, decls' := FlatMap(s.declarations, ItemLines), FlatMap(s'.declarations, ItemLines);
    DbtempClean();
    CleanStripped(HeadLines());
    DeclarationsStripped(s.declarations);
    AclLinesClean(s.blocks);
    CleanStripped(AclLines(s.blocks));
    hide StrippedLines, FlatMap, AclLines, HeadLines, CleanScript, CleanLines, Enabled;
    StrippedAppend(decls, decls', AclLines(s.blocks), AclLines(s.blocks));
    StrippedAppend(HeadLines(), HeadLines(), decls + AclLines(s.blocks), decls' + AclLines(s.blocks));
  }

  lemma AclLinesClean(blocks: seq<Item>)
    requires forall i :: 0 <= i < |blocks| ==> blocks[i].AclBlock? && blocks[i].pass != [] && CleanItem(blocks[i])
    ensures CleanLines(AclLines(blocks))
  {
    BlocksClean(blocks);
    CleanShort();
    assert Clear("{");
    CleanOpen("acl", "{");
    hide CleanLine, FlatMap, L;
    assert ItemLines(AclOpen) == [L("", "acl", " ", "{")] && ItemLines(AclClose) == ["}"];
  }

  lemma DbtempClean()
    ensures CleanLines(HeadLines())
  {
    CleanShort();
    assert Clear("dbtemp") && Clear("") && Clear(" ");
    assert Clear("/var/lib") && Clear("/ucs-school-webproxy") && Clear("/bdbtemp");
    ClearUnmarked(DBTEMP);
    UnmarkedL("", "dbtemp", " ", DBTEMP);
    assert L("", "dbtemp", " ", DBTEMP)[2] == 't';
  }

  lemma HomeLineFacts(dbhome: string)
    ensures var l := DbhomeLine(dbhome); |l| >= 3 && l[0] == 'd' && l[1] == 'b' && l[2] == 'h'
    ensures Clear(dbhome) ==> Clear(DbhomeLine(dbhome))
  {
    assert Clear("dbhome") && Clear(" ") && Clear("/");
  }

  lemma {:induction false} StripMarks(before: seq<string>, after: seq<string>)
    requires |before| == |after|
    requires forall i :: 0 <= i < |before| ==>
      '\n' !in before[i] && Unmarked(after[i]) && (before[i] == after[i] || before[i] == MARK + after[i])
    ensures Replace(Unlines(before), MARK, "") == Unlines(after)
    decreases before
  {
    MarkFacts();
    if before == [] {
      ReplaceNothing(MARK, "");
    } else {
      ReplaceAcross(before[0], Unlines(before[1..]), MARK, "");
      StripMarks(before[1..], after[1..]);
      StripMark(before[0], after[0]);
    }
  }

  lemma StripMark(before: string, after: string)
    requires Unmarked(after) && (before == after || before == MARK + after)
    ensures Replace(before, MARK, "") == after
  {
    MarkFacts();
    ReplaceAbsent(after, MARK, "");
    if before == MARK + after {
      assert before[..|MARK|] == MARK && before[|MARK|..] == after;
      ReplaceStep(before, MARK, "");
      assert "" + after == after;
    }
  }

  lemma LogLineFacts()
    ensures Unmarked(LogLine())
  {
    assert Clear("logdir") && Clear("") && Clear(" ") && Clear("/var/log") && Clear("/squidguard");
    ClearUnmarked(LOGDIR);
    UnmarkedL("", "logdir", " ", LOGDIR);
  }

  lemma MoveHome(s: Script, data: string)
    requires CleanScript(s)
    ensures Replace(Render(s), "\n" + DbhomeLine(s.dbhome) + "\n", "\n" + DbhomeLine(data) + "\n")
         == Unlines([LogLine(), DbhomeLine(data)] + TailLines(s))
  {
    var home, home' := "\n" + DbhomeLine(s.dbhome) + "\n", "\n" + DbhomeLine(data) + "\n";
    var tail := TailLines(s);
    RenderedText(s);
    LogLineFacts();
    TailStripped(s, data);
    HomeLineFacts(s.dbhome);
    forall i | 0 <= i < |tail|
      ensures '\n' !in tail[i] && tail[i] != DbhomeLine(s.dbhome)
    {
      assert LineStripped(tail[i], TailLines(Published(s, data))[i]);
    }
    LineAbsent(tail, DbhomeLine(s.dbhome));
    hide DbhomeLine, LogLine, TailLines, Render;
    assert home[0] == '\n';
    forall i | 0 <= i < |LogLine()|
      ensures !OccursAt(LogLine() + home + Unlines(tail), home, i)
    {
      if OccursAt(LogLine() + home + Unlines(tail), home, i) {
        OccursChar(LogLine() + home + Unlines(tail), home, i, 0);
      }
    }
    ReplaceFirst(LogLine(), home, Unlines(tail), home');
    ReplaceAbsent(Unlines(tail), home, home');
    UnlinesTwo(LogLine(), DbhomeLine(data), tail);
  }

  /** Printing into the temporary directory and rewriting the text gives the text that printing for the
      final directory, with both global lists enabled, would have given. */
  lemma PrintThenRewrite(s: Script, data: string)
    requires CleanScript(s) && Clear(data)
    ensures Finalized(Render(s), s.dbhome, data) == Render(Published(s, data))
  {
    var s' := Published(s, data);
    var before, after := [LogLine(), DbhomeLine(data)] + TailLines(s), [LogLine(), DbhomeLine(data)] + TailLines(s');
    MoveHome(s, data);
    TailStripped(s, data);
    HomeLineFacts(data);
    LogLineFacts();
    ClearUnmarked(DbhomeLine(data));
    forall i | 0 <= i < |before|
      ensures '\n' !in before[i] && Unmarked(after[i]) && (before[i] == after[i] || before[i] == MARK + after[i])
    {
      if i >= 2 {
        assert LineStripped(TailLines(s)[i - 2], TailLines(s')[i - 2]);
      }
    }
    hide TailLines, Render, DbhomeLine, LogLine;
    StripMarks(before, after);
    RenderedText(s');
    UnlinesTwo(LogLine(), DbhomeLine(data), TailLines(s'));
  }

  lemma NoNewlines(s: Script)
    requires CleanScript(s)
    ensures var lines := [LogLine(), DbhomeLine(s.dbhome)] + TailLines(s);
            forall i :: 0 <= i < |lines| ==> '\n' !in lines[i]
  {
    TailStripped(s, s.dbhome);
    LogLineFacts();
    HomeLineFacts(s.dbhome);
    var lines := [LogLine(), DbhomeLine(s.dbhome)] + TailLines(s);
    forall i | 0 <= i < |lines|
      ensures '\n' !in lines[i]
    {
      if i >= 2 {
        assert LineStripped(TailLines(s)[i - 2], TailLines(Published(s, s.dbhome))[i - 2]);
      }
    }
  }

  lemma RenderedLines(s: Script)
    requires CleanScript(s)
    ensures Lines(Render(s)) == FlatMap(Items(s), ItemLines)
  {
    var lines := FlatMap(Items(s), ItemLines);
    FlatItems(s);
    HeaderLines(s.dbhome);
    hide FlatMap, Items, LogLine, DbhomeLine, HeadLines, AclLines, ItemLines, CleanScript;
    Assoc([LogLine(), DbhomeLine(s.dbhome)], HeadLines(), FlatMap(s.declarations, ItemLines) + AclLines(s.blocks));
    NoNewlines(s);
    assert lines == [LogLine(), DbhomeLine(s.dbhome)] + TailLines(s);
    hide TailLines;
    LinesUnlines(lines);
  }

  /** squidGuard reads a rendered script as what it declares, whatever blanks its addresses hold, provided
      every redirect line names one target. */
  lemma ParseRendered(s: Script)
    requires CleanScript(s) && GoodScript(s) && AllReadable(s.blocks)
    ensures Parse(Render(s)) == Some(Meaning(s))
  {
    FeedScript(s);
    RenderedLines(s);
    hide FlatMap, Items, Meaning, Feed, ItemLines, CleanScript, GoodScript, AllReadable, Render;
  }

  /** One redirect line that names no target, or several, makes the whole text unreadable. */
  lemma ParseUnreadable(s: Script)
    requires CleanScript(s) && GoodScript(s) && s.blocks != [] && !Readable(s.blocks[0].redirect)
    ensures Parse(Render(s)) == None
  {
    FeedScript(s);
    RenderedLines(s);
    hide FlatMap, Items, Meaning, Feed, ItemLines, CleanScript, GoodScript, AllReadable, Render, Readable;
  }
}
