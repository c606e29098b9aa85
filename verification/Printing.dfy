/** The text forms the web proxy prints into the configuration, and what squidGuard reads out of them. */
module Printing {
  import opened Options
  import opened Text
  import opened SquidGuard

  const MARK := "###GLOBAL" + ("-BLACKLIST" + "-COMMENT###")
  const LOGDIR := "/var/log" + "/squidguard"
  const DBTEMP := "/var/lib" + ("/ucs-school-webproxy" + "/bdbtemp")
  const GLOBAL := "global-blacklist"
  const GLOBAL_DOMAINS := GLOBAL + "-domains"
  const GLOBAL_URLS := GLOBAL + "-urls"

  datatype Style = Wide | Narrow | Last

  /** One printed piece of the configuration; names are already quoted. */
  datatype Item =
    | Header(dbhome: string)
    | AddressSource(name: string, ips: seq<string>, wide: bool)
    | UserSource(name: string)
    | ListDest(name: string, domains: string, urls: string)
    | GlobalDest(domainsOn: bool, urlsOn: bool)
    | AclOpen
    | AclBlock(style: Style, name: string, pass: seq<string>, redirect: string)
    | AclClose

  function L(indent: string, a: string, gap: string, rest: string): string {
    indent + (a + gap + rest)
  }

  function OpenLine(indent: string, kind: string, name: string): string {
    L(indent, kind, " ", L("", name, " ", "{"))
  }

  function IpLine(wide: bool): string -> string {
    ip => if wide then L("\t ", "ip", " ", ip) else L("\t", "ip", "\t", ip)
  }

  function IpLines(ips: seq<string>, wide: bool): seq<string> {
    if ips == [] then [] else [IpLine(wide)(ips[0])] + IpLines(ips[1..], wide)
  }

  function Indent(style: Style): string {
    if style == Narrow then "\t" else "\t "
  }

  function Inner(style: Style): string {
    match style case Wide => "\t\t " case Narrow => "\t\t" case Last => "\t\t  "
  }

  function PassLine(style: Style, pass: seq<string>): string
    requires pass != []
  {
    L(Inner(style), "pass", " ", Join(pass, ' '))
  }

  function ItemLines(item: Item): seq<string> {
    match item
    case Header(dbhome) =>
      [L("", "logdir", " ", LOGDIR), DbhomeLine(dbhome),
       L("", "dbtemp", " ", DBTEMP), ""]
    case AddressSource(name, ips, wide) =>
      [OpenLine("", "src", name)] + (IpLines(ips, wide) + (if wide then ["}", ""] else ["}"]))
    case UserSource(name) =>
      [OpenLine("", "src", name), L("        ", "userlist", " ", name), "}", ""]
    case ListDest(name, domains, urls) =>
      [OpenLine("", "dest", name), L("\t ", "domainlist", " ", domains), L("\t ", "urllist", "\t", urls), "}", ""]
    case GlobalDest(domainsOn, urlsOn) =>
      [OpenLine("", "dest", GLOBAL),
       (if domainsOn then "" else MARK) + GlobalDomainLine(),
       (if urlsOn then "" else MARK) + GlobalUrlLine(),
       "}", ""]
    case AclOpen => [L("", "acl", " ", "{")]
    case AclBlock(style, name, pass, redirect) =>
      var open := L(Indent(style), name, " ", "{");
      var access := if pass == [] then "" else PassLine(style, pass);
      var target := L(Inner(style), "redirect", " ", redirect);
      (match style
       case Wide => [open, access, target, "\t }", ""]
       case Narrow => [open, access, "", target, "\t}"]
       case Last => [open, access, target, "\t }"])
    case AclClose => ["}"]
  }

  function DbhomeLine(dbhome: string): string {
    L("", "dbhome", " ", dbhome + "/")
  }

  function GlobalDomainLine(): string {
    L(" \t ", "domainlist", " ", GLOBAL_DOMAINS)
  }

  function GlobalUrlLine(): string {
    L(" \t ", "urllist", "    ", GLOBAL_URLS)
  }

  // ---------- what the pieces mean ----------

  /** A redirect line is read when it names one target. */
  predicate Readable(redirect: string) {
    |Words(redirect)| == 1
  }

  function Target(redirect: string): string {
    if Words(redirect) != [] then Words(redirect)[0] else ""
  }

  function SourceOf(item: Item): seq<Source> {
    match item
    case AddressSource(name, ips, _) => [Source(name, FlatMap(ips, Words), [])]
    case UserSource(name) => [Source(name, [], [name])]
    case _ => []
  }

  function DestOf(item: Item): seq<Dest> {
    match item
    case ListDest(name, domains, urls) => [Dest(name, Some(domains), Some(urls))]
    case GlobalDest(d, u) =>
      [Dest(GLOBAL, if d then Some(GLOBAL_DOMAINS) else None,
            if u then Some(GLOBAL_URLS) else None)]
    case _ => []
  }

  function AclOf(item: Item): seq<Acl> {
    match item
    case AclBlock(_, name, pass, redirect) => [Acl(name, pass, Target(redirect))]
    case _ => []
  }

  /** A name squidGuard takes as one identifier. */
  predicate IsName(w: string) {
    IsWord(w) && w[0] != '#'
  }

  predicate AllWords(ws: seq<string>) {
    forall i :: 0 <= i < |ws| ==> IsWord(ws[i])
  }

  /** Pieces whose names and terms are single words; addresses and redirect targets may be any text. */
  predicate GoodItem(item: Item) {
    match item
    case Header(dbhome) => IsWord(dbhome + "/")
    case AddressSource(name, _, _) => IsWord(name)
    case UserSource(name) => IsWord(name)
    case ListDest(name, domains, urls) => IsWord(name) && IsWord(domains) && IsWord(urls)
    case AclBlock(_, name, pass, _) => IsName(name) && pass != [] && AllWords(pass)
    case _ => true
  }

  lemma FeedCons(p: Parser, line: string, w: seq<string>, rest: seq<string>)
    requires Words(line) == w
    ensures Feed(p, [line] + rest) == Feed(Step(p, w), rest)
  {
    assert ([line] + rest)[1..] == rest;
  }

  lemma OpenWords(indent: string, kind: string, name: string)
    requires AllBlank(indent) && IsWord(kind) && IsWord(name)
    ensures Words(OpenLine(indent, kind, name)) == [kind, name, "{"]
    ensures Words(L(indent, name, " ", "{")) == [name, "{"]
  {
    hide Words;
    WordsLast("{");
    WordsLine("", name, " ", "{");
    WordsLine(indent, name, " ", "{");
    WordsLine(indent, kind, " ", L("", name, " ", "{"));
  }

  lemma PairWords(indent: string, a: string, gap: string, b: string)
    requires AllBlank(indent) && IsWord(a) && AllBlank(gap) && gap != "" && IsWord(b)
    ensures Words(L(indent, a, gap, b)) == [a, b]
  {
    hide Words;
    WordsLast(b);
    WordsLine(indent, a, gap, b);
  }

  lemma CloseWords()
    ensures Words("") == [] && Words("}") == ["}"] && Words("\t}") == ["}"] && Words("\t }") == ["}"]
  {
    hide Words;
    WordsLast("}");
    WordsLine1("\t", "}");
    WordsLine1("\t ", "}");
    EmptyWords();
    assert "\t" + "}" == "\t}" && "\t " + "}" == "\t }";
  }

  lemma EmptyWords()
    ensures Words("") == []
  {
  }

  /** Feeding lines, given the words of each and the parser after each. */
  lemma {:induction false} FeedTrace(lines: seq<string>, words: seq<seq<string>>, states: seq<Parser>)
    requires |lines| == |words| && |states| == |lines| + 1
    requires forall i :: 0 <= i < |lines| ==> Words(lines[i]) == words[i]
    requires forall i :: 0 <= i < |lines| ==> Step(states[i], words[i]) == states[i + 1]
    ensures Feed(states[0], lines) == states[|lines|]
    decreases lines
  {
    hide Words, Step;
    if lines != [] {
      assert Step(states[0], Words(lines[0])) == states[1];
      FeedTrace(lines[1..], words[1..], states[1..]);
    }
  }

  lemma StepBlank(p: Parser)
    ensures Step(p, []) == p
  {
  }

  lemma StepOpen(cfg: Config, name: string)
    ensures Step(Parser(cfg, Top), ["src", name, "{"]) == Parser(cfg, InSource(Source(name, [], [])))
    ensures Step(Parser(cfg, Top), ["dest", name, "{"]) == Parser(cfg, InDest(Dest(name, None, None)))
    ensures Step(Parser(cfg, Top), ["acl", "{"]) == Parser(cfg, InAcl)
  {
  }

  lemma StepPlain(cfg: Config, x: string)
    ensures Step(Parser(cfg, Top), ["logdir", x]) == Parser(cfg, Top)
    ensures Step(Parser(cfg, Top), ["dbhome", x]) == Parser(cfg.(dbhome := x), Top)
    ensures Step(Parser(cfg, Top), ["dbtemp", x]) == Parser(cfg, Top)
  {
  }

  lemma StepIp(cfg: Config, s: Source, ws: seq<string>)
    ensures Step(Parser(cfg, InSource(s)), ["ip"] + ws) == Parser(cfg, InSource(s.(ips := s.ips + ws)))
  {
    assert (["ip"] + ws)[1..] == ws;
  }

  lemma StepSource(cfg: Config, s: Source, x: string)
    ensures Step(Parser(cfg, InSource(s)), ["userlist", x])
         == Parser(cfg, InSource(s.(userlists := s.userlists + [x])))
    ensures Step(Parser(cfg, InSource(s)), ["}"]) == Parser(cfg.(sources := cfg.sources + [s]), Top)
  {
  }

  lemma StepDest(cfg: Config, d: Dest, x: string)
    ensures Step(Parser(cfg, InDest(d)), ["domainlist", x]) == Parser(cfg, InDest(d.(domainlist := Some(x))))
    ensures Step(Parser(cfg, InDest(d)), ["urllist", x]) == Parser(cfg, InDest(d.(urllist := Some(x))))
    ensures Step(Parser(cfg, InDest(d)), ["}"]) == Parser(cfg.(dests := cfg.dests + [d]), Top)
  {
  }

  lemma StepAcl(cfg: Config, name: string)
    requires IsName(name)
    ensures Step(Parser(cfg, InAcl), [name, "{"]) == Parser(cfg, InBlock(Acl(name, [], "")))
    ensures Step(Parser(cfg, InAcl), ["}"]) == Parser(cfg, Top)
  {
    hide IsWord;
  }

  lemma StepBlock(cfg: Config, a: Acl, pass: seq<string>, x: string)
    requires pass != []
    ensures Step(Parser(cfg, InBlock(a)), ["pass"] + pass) == Parser(cfg, InBlock(a.(pass := pass)))
    ensures Step(Parser(cfg, InBlock(a)), ["redirect", x]) == Parser(cfg, InBlock(a.(redirect := x)))
    ensures Step(Parser(cfg, InBlock(a)), ["}"]) == Parser(cfg.(acls := cfg.acls + [a]), InAcl)
  {
    assert (["pass"] + pass)[1..] == pass;
  }

  lemma StepUnreadable(cfg: Config, a: Acl, ws: seq<string>)
    requires |ws| != 1
    ensures Step(Parser(cfg, InBlock(a)), ["redirect"] + ws) == Bad
    ensures Step(Bad, ws) == Bad
  {
  }

  lemma Keywords()
    ensures IsWord("src") && IsWord("dest") && IsWord("ip") && IsWord("userlist") && IsWord("acl")
    ensures IsWord("domainlist") && IsWord("urllist") && IsWord("pass") && IsWord("redirect") && IsWord("{")
    ensures IsWord("logdir") && IsWord("dbhome") && IsWord("dbtemp") && IsWord("default")
  {
    hide IsWord;
    VisibleWord("src");
    VisibleWord("dest");
    VisibleWord("ip");
    VisibleWord("userlist");
    VisibleWord("acl");
    VisibleWord("domainlist");
    VisibleWord("urllist");
    VisibleWord("pass");
    VisibleWord("redirect");
    VisibleWord("{");
    VisibleWord("logdir");
    VisibleWord("dbhome");
    VisibleWord("dbtemp");
    VisibleWord("default");
  }

  lemma FixedPaths()
    ensures IsWord(LOGDIR) && IsWord(DBTEMP) && IsWord(MARK) && MARK[0] == '#'
    ensures IsWord(GLOBAL) && IsWord(GLOBAL_DOMAINS) && IsWord(GLOBAL_URLS)
  {
    PathParts();
    MarkParts();
    hide IsWord;
    WordAppend("/var/log", "/squidguard");
    WordAppend("/ucs-school-webproxy", "/bdbtemp");
    WordAppend("/var/lib", "/ucs-school-webproxy" + "/bdbtemp");
    WordAppend("-BLACKLIST", "-COMMENT###");
    WordAppend("###GLOBAL", "-BLACKLIST" + "-COMMENT###");
    WordAppend(GLOBAL, "-domains");
    WordAppend(GLOBAL, "-urls");
  }

  lemma PathParts()
    ensures IsWord("/var/log") && IsWord("/squidguard") && IsWord("/var/lib") && IsWord("/ucs-school-webproxy")
    ensures IsWord("/bdbtemp")
  {
    hide IsWord;
    VisibleWord("/var/log");
    VisibleWord("/squidguard");
    VisibleWord("/var/lib");
    VisibleWord("/ucs-school-webproxy");
    VisibleWord("/bdbtemp");
  }

  lemma MarkParts()
    ensures IsWord("###GLOBAL") && IsWord("-BLACKLIST") && IsWord("-COMMENT###")
    ensures IsWord(GLOBAL) && IsWord("-domains") && IsWord("-urls")
  {
    hide IsWord;
    VisibleWord("###GLOBAL");
    VisibleWord("-BLACKLIST");
    VisibleWord("-COMMENT###");
    VisibleWord(GLOBAL);
    VisibleWord("-domains");
    VisibleWord("-urls");
  }

  lemma Indents()
    ensures AllBlank("\t") && AllBlank("\t ") && AllBlank("\t\t") && AllBlank("\t\t ") && AllBlank("\t\t  ")
    ensures AllBlank("        ") && AllBlank(" ") && AllBlank(" \t ") && AllBlank("    ") && AllBlank("")
  {
  }

  lemma FeedIp(cfg: Config, s: Source, ip: string, wide: bool, rest: seq<string>)
    ensures Feed(Parser(cfg, InSource(s)), [IpLine(wide)(ip)] + rest)
         == Feed(Parser(cfg, InSource(s.(ips := s.ips + Words(ip)))), rest)
  {
    hide Words, Step, Feed, L, AllBlank, IsWord;
    Keywords();
    Indents();
    if wide {
      WordsLine("\t ", "ip", " ", ip);
    } else {
      WordsLine("\t", "ip", "\t", ip);
    }
    LineIs(wide, ip);
    FeedCons(Parser(cfg, InSource(s)), IpLine(wide)(ip), ["ip"] + Words(ip), rest);
    StepIp(cfg, s, Words(ip));
  }

  lemma LineIs(wide: bool, ip: string)
    ensures IpLine(wide)(ip) == if wide then "\t " + ("ip" + " " + ip) else "\t" + ("ip" + "\t" + ip)
  {
  }

  /** Address lines are read as all the words on them, whatever blanks the addresses hold. */
  lemma {:induction false} FeedIps(cfg: Config, s: Source, ips: seq<string>, wide: bool)
    ensures Feed(Parser(cfg, InSource(s)), IpLines(ips, wide))
         == Parser(cfg, InSource(s.(ips := s.ips + FlatMap(ips, Words))))
    decreases ips
  {
    hide Words;
    if ips == [] {
      assert s.ips + [] == s.ips;
    } else {
      assert IpLines(ips, wide) == [IpLine(wide)(ips[0])] + IpLines(ips[1..], wide);
      FlatMapOne(ips[0], Words);
      FlatMapAppend([ips[0]], ips[1..], Words);
      assert [ips[0]] + ips[1..] == ips;
      hide Feed, IpLine, IpLines, IsWord, FlatMap;
      FeedIp(cfg, s, ips[0], wide, IpLines(ips[1..], wide));
      FeedIps(cfg, s.(ips := s.ips + Words(ips[0])), ips[1..], wide);
      Assoc(s.ips, Words(ips[0]), FlatMap(ips[1..], Words));
    }
  }

  // ---------- each piece is read back as what it means ----------

  /** A parser that has read an item at the top level. */
  function ReadTop(cfg: Config, item: Item): Config {
    Config(if item.Header? then item.dbhome + "/" else cfg.dbhome,
           cfg.sources + SourceOf(item), cfg.dests + DestOf(item), cfg.acls)
  }

  lemma FeedHeader(cfg: Config, dbhome: string)
    requires GoodItem(Header(dbhome))
    ensures Feed(Parser(cfg, Top), ItemLines(Header(dbhome))) == Parser(ReadTop(cfg, Header(dbhome)), Top)
  {
    hide Words, IsWord, L, Step, Feed, AllBlank;
    Keywords();
    FixedPaths();
    Indents();
    CloseWords();
    var p, cfg' := Parser(cfg, Top), cfg.(dbhome := dbhome + "/");
    var p' := Parser(cfg', Top);
    StepPlain(cfg, LOGDIR);
    StepPlain(cfg, dbhome + "/");
    StepPlain(cfg', DBTEMP);
    StepBlank(p');
    PairWords("", "logdir", " ", LOGDIR);
    PairWords("", "dbhome", " ", dbhome + "/");
    PairWords("", "dbtemp", " ", DBTEMP);
    FeedTrace(ItemLines(Header(dbhome)),
              [["logdir", LOGDIR], ["dbhome", dbhome + "/"],
               ["dbtemp", DBTEMP], []],
              [p, p, p', p', p']);
    assert ReadTop(cfg, Header(dbhome)) == cfg';
  }

  lemma FeedAddressSource(cfg: Config, item: Item)
    requires item.AddressSource? && GoodItem(item)
    ensures Feed(Parser(cfg, Top), ItemLines(item)) == Parser(ReadTop(cfg, item), Top)
  {
    hide Words, IsWord, L, Step, Feed, AllBlank, IpLines, FlatMap;
    Keywords();
    Indents();
    var s := Source(item.name, [], []);
    StepOpen(cfg, item.name);
    OpenWords("", "src", item.name);
    var tail := if item.wide then ["}", ""] else ["}"];
    FeedCons(Parser(cfg, Top), OpenLine("", "src", item.name), ["src", item.name, "{"],
             IpLines(item.ips, item.wide) + tail);
    FeedAppend(Parser(cfg, InSource(s)), IpLines(item.ips, item.wide), tail);
    FeedIps(cfg, s, item.ips, item.wide);
    var read := FlatMap(item.ips, Words);
    assert [] + read == read;
    FeedClose(cfg, Source(item.name, read, []), item.wide);
    assert cfg.dests + [] == cfg.dests;
  }

  lemma FeedClose(cfg: Config, s: Source, wide: bool)
    ensures Feed(Parser(cfg, InSource(s)), if wide then ["}", ""] else ["}"])
         == Parser(cfg.(sources := cfg.sources + [s]), Top)
  {
    hide Words, Step, Feed;
    var p, p' := Parser(cfg, InSource(s)), Parser(cfg.(sources := cfg.sources + [s]), Top);
    StepSource(cfg, s, "");
    StepBlank(p');
    CloseWords();
    if wide {
      FeedTrace(["}", ""], [["}"], []], [p, p', p']);
    } else {
      FeedTrace(["}"], [["}"]], [p, p']);
    }
  }

  lemma FeedUserSource(cfg: Config, name: string)
    requires IsWord(name)
    ensures Feed(Parser(cfg, Top), ItemLines(UserSource(name))) == Parser(ReadTop(cfg, UserSource(name)), Top)
  {
    hide Words, IsWord, L, Step, Feed, AllBlank;
    Keywords();
    Indents();
    CloseWords();
    var p, p' := Parser(cfg, Top), Parser(ReadTop(cfg, UserSource(name)), Top);
    var s, s' := Source(name, [], []), Source(name, [], [name]);
    StepOpen(cfg, name);
    StepSource(cfg, s, name);
    StepSource(cfg, s', name);
    StepBlank(p');
    OpenWords("", "src", name);
    PairWords("        ", "userlist", " ", name);
    assert [] + [name] == [name] && cfg.dests + [] == cfg.dests;
    FeedTrace(ItemLines(UserSource(name)), [["src", name, "{"], ["userlist", name], ["}"], []],
              [p, Parser(cfg, InSource(s)), Parser(cfg, InSource(s')), p', p']);
  }

  lemma FeedListDest(cfg: Config, item: Item)
    requires item.ListDest? && GoodItem(item)
    ensures Feed(Parser(cfg, Top), ItemLines(item)) == Parser(ReadTop(cfg, item), Top)
  {
    hide Words, IsWord, L, Step, Feed, AllBlank;
    Keywords();
    Indents();
    CloseWords();
    var name, d, u := item.name, item.domains, item.urls;
    var p, p' := Parser(cfg, Top), Parser(ReadTop(cfg, item), Top);
    StepOpen(cfg, name);
    StepDest(cfg, Dest(name, None, None), d);
    StepDest(cfg, Dest(name, Some(d), None), u);
    StepDest(cfg, Dest(name, Some(d), Some(u)), u);
    StepBlank(p');
    OpenWords("", "dest", name);
    PairWords("\t ", "domainlist", " ", d);
    PairWords("\t ", "urllist", "\t", u);
    assert cfg.sources + [] == cfg.sources;
    FeedTrace(ItemLines(item), [["dest", name, "{"], ["domainlist", d], ["urllist", u], ["}"], []],
              [p, Parser(cfg, InDest(Dest(name, None, None))), Parser(cfg, InDest(Dest(name, Some(d), None))),
               Parser(cfg, InDest(Dest(name, Some(d), Some(u)))), p', p']);
  }

  /** A global list line: read, or skipped as a comment when it carries the mark. */
  lemma GlobalWords(on: bool, keyword: string, gap: string, list: string)
    requires IsWord(keyword) && IsWord(list) && AllBlank(gap) && gap != ""
    ensures var w := Words((if on then "" else MARK) + L(" \t ", keyword, gap, list));
            if on then w == [keyword, list] else w != [] && w[0] != "" && w[0][0] == '#'
  {
    hide Words, IsWord, AllBlank;
    Indents();
    FixedPaths();
    if on {
      PairWords(" \t ", keyword, gap, list);
      assert "" + L(" \t ", keyword, gap, list) == L(" \t ", keyword, gap, list);
    } else {
      WordsLine("", MARK, " \t ", keyword + gap + list);
      assert MARK + L(" \t ", keyword, gap, list) == "" + (MARK + " \t " + (keyword + gap + list));
    }
  }

  lemma StepComment(p: Parser, w: seq<string>)
    requires w != [] && w[0] != "" && w[0][0] == '#'
    ensures Step(p, w) == p
  {
  }

  lemma FeedGlobalDest(cfg: Config, item: Item)
    requires item.GlobalDest?
    ensures Feed(Parser(cfg, Top), ItemLines(item)) == Parser(ReadTop(cfg, item), Top)
  {
    hide Words, IsWord, L, Step, Feed, AllBlank;
    Keywords();
    Indents();
    FixedPaths();
    CloseWords();
    var name := GLOBAL;
    var d := if item.domainsOn then Some(GLOBAL_DOMAINS) else None;
    var u := if item.urlsOn then Some(GLOBAL_URLS) else None;
    var p, p' := Parser(cfg, Top), Parser(ReadTop(cfg, item), Top);
    var q := Parser(cfg, InDest(Dest(name, None, None)));
    var q', q'' := Parser(cfg, InDest(Dest(name, d, None))), Parser(cfg, InDest(Dest(name, d, u)));
    var lines := ItemLines(item);
    StepOpen(cfg, name);
    OpenWords("", "dest", name);
    GlobalWords(item.domainsOn, "domainlist", " ", GLOBAL_DOMAINS);
    GlobalWords(item.urlsOn, "urllist", "    ", GLOBAL_URLS);
    StepDest(cfg, Dest(name, None, None), GLOBAL_DOMAINS);
    StepDest(cfg, Dest(name, d, None), GLOBAL_URLS);
    StepDest(cfg, Dest(name, d, u), "");
    var w1, w2 := Words(lines[1]), Words(lines[2]);
    if !item.domainsOn { StepComment(q, w1); }
    if !item.urlsOn { StepComment(q', w2); }
    StepBlank(p');
    assert cfg.sources + [] == cfg.sources;
    FeedTrace(lines, [["dest", name, "{"], w1, w2, ["}"], []], [p, q, q', q'', p', p']);
  }

  lemma FeedAclBlock(cfg: Config, item: Item)
    requires item.AclBlock? && GoodItem(item) && Readable(item.redirect)
    ensures Feed(Parser(cfg, InAcl), ItemLines(item)) == Parser(cfg.(acls := cfg.acls + AclOf(item)), InAcl)
  {
    hide Words, IsWord, L, Step, Feed, AllBlank, Join;
    var style, name, pass, r := item.style, item.name, item.pass, Target(item.redirect);
    BlockWords(item);
    assert Words(item.redirect) == [r];
    var p, p' := Parser(cfg, InAcl), Parser(cfg.(acls := cfg.acls + AclOf(item)), InAcl);
    var a0, a1, a2 := Acl(name, [], ""), Acl(name, pass, ""), Acl(name, pass, r);
    var b0, b1, b2 := Parser(cfg, InBlock(a0)), Parser(cfg, InBlock(a1)), Parser(cfg, InBlock(a2));
    StepAcl(cfg, name);
    StepBlock(cfg, a0, pass, r);
    StepBlock(cfg, a1, pass, r);
    StepBlock(cfg, a2, pass, r);
    StepBlank(b1);
    StepBlank(p');
    match style
    case Wide =>
      FeedTrace(ItemLines(item), [[name, "{"], ["pass"] + pass, ["redirect", r], ["}"], []], [p, b0, b1, b2, p', p']);
    case Narrow =>
      FeedTrace(ItemLines(item), [[name, "{"], ["pass"] + pass, [], ["redirect", r], ["}"]], [p, b0, b1, b1, b2, p']);
    case Last =>
      FeedTrace(ItemLines(item), [[name, "{"], ["pass"] + pass, ["redirect", r], ["}"]], [p, b0, b1, b2, p']);
  }

  lemma BlockWords(item: Item)
    requires item.AclBlock? && GoodItem(item)
    ensures Words(L(Indent(item.style), item.name, " ", "{")) == [item.name, "{"]
    ensures Words(PassLine(item.style, item.pass)) == ["pass"] + item.pass
    ensures Words(L(Inner(item.style), "redirect", " ", item.redirect)) == ["redirect"] + Words(item.redirect)
    ensures Words("") == [] && Words("\t }") == ["}"] && Words("\t}") == ["}"]
  {
    hide Words, IsWord, AllBlank, Join;
    Keywords();
    Indents();
    CloseWords();
    OpenWords(Indent(item.style), "acl", item.name);
    AccessWords(item.style, item.pass);
    WordsLine(Inner(item.style), "redirect", " ", item.redirect);
  }

  /** A block whose redirect line names no target, or more than one, is not read. */
  lemma FeedUnreadable(cfg: Config, item: Item)
    requires item.AclBlock? && GoodItem(item) && !Readable(item.redirect)
    ensures Feed(Parser(cfg, InAcl), ItemLines(item)) == Bad
  {
    hide Words, IsWord, L, Step, Feed, AllBlank, Join;
    var style, name, pass, ws := item.style, item.name, item.pass, Words(item.redirect);
    BlockWords(item);
    var a0, a1 := Acl(name, [], ""), Acl(name, pass, "");
    var p, b0, b1 := Parser(cfg, InAcl), Parser(cfg, InBlock(a0)), Parser(cfg, InBlock(a1));
    StepAcl(cfg, name);
    StepBlock(cfg, a0, pass, "");
    StepBlank(b1);
    StepUnreadable(cfg, a1, ws);
    StepBad();
    match style
    case Wide =>
      FeedTrace(ItemLines(item), [[name, "{"], ["pass"] + pass, ["redirect"] + ws, ["}"], []],
        [p, b0, b1, Bad, Bad, Bad]);
    case Narrow =>
      FeedTrace(ItemLines(item), [[name, "{"], ["pass"] + pass, [], ["redirect"] + ws, ["}"]],
        [p, b0, b1, b1, Bad, Bad]);
    case Last =>
      FeedTrace(ItemLines(item), [[name, "{"], ["pass"] + pass, ["redirect"] + ws, ["}"]], [p, b0, b1, Bad, Bad]);
  }

  lemma StepBad()
    ensures forall w :: Step(Bad, w) == Bad
  {
  }

  lemma {:induction false} FeedBad(lines: seq<string>)
    ensures Feed(Bad, lines) == Bad
    decreases lines
  {
    hide Words;
    if lines != [] {
      FeedBad(lines[1..]);
    }
  }

  lemma AccessWords(style: Style, pass: seq<string>)
    requires pass != [] && AllWords(pass)
    ensures Words(PassLine(style, pass)) == ["pass"] + pass
  {
    hide Words, IsWord, AllBlank, Join;
    Keywords();
    Indents();
    WordsJoin(pass);
    WordsLine(Inner(style), "pass", " ", Join(pass, ' '));
  }

  lemma FeedAclEdge(cfg: Config)
    ensures Feed(Parser(cfg, Top), ItemLines(AclOpen)) == Parser(cfg, InAcl)
    ensures Feed(Parser(cfg, InAcl), ItemLines(AclClose)) == Parser(cfg, Top)
  {
    hide Words, IsWord, L, Step, Feed, AllBlank;
    Keywords();
    Indents();
    CloseWords();
    PairWords("", "acl", " ", "{");
    StepOpen(cfg, "");
    StepAcl(cfg, "default");
    FeedTrace(ItemLines(AclOpen), [["acl", "{"]], [Parser(cfg, Top), Parser(cfg, InAcl)]);
    FeedTrace(ItemLines(AclClose), [["}"]], [Parser(cfg, InAcl), Parser(cfg, Top)]);
  }
}
