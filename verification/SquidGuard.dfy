/** The part of squidGuard the web proxy relies on: how the configuration text is read, and how a request
    is decided. The rules here are assumptions about squidGuard, an external program. */
module SquidGuard {
  import opened Options
  import opened Text

  datatype Source = Source(name: string, ips: seq<string>, userlists: seq<string>)
  datatype Dest = Dest(name: string, domainlist: Option<string>, urllist: Option<string>)
  datatype Acl = Acl(name: string, pass: seq<string>, redirect: string)
  datatype Config = Config(dbhome: string, sources: seq<Source>, dests: seq<Dest>, acls: seq<Acl>)

  // ---------- reading the configuration, line by line ----------

  datatype Context = Top | InSource(s: Source) | InDest(d: Dest) | InAcl | InBlock(a: Acl)
  datatype Parser = Bad | Parser(cfg: Config, ctx: Context)

  const START := Parser(Config("", [], [], []), Top)

  function Step(p: Parser, w: seq<string>): Parser {
    if p.Bad? then Bad
    else if w == [] || (w[0] != "" && w[0][0] == '#') then p
    else
      match p.ctx
      case Top =>
        if |w| == 3 && w[0] == "src" && w[2] == "{" then p.(ctx := InSource(Source(w[1], [], [])))
        else if |w| == 3 && w[0] == "dest" && w[2] == "{" then p.(ctx := InDest(Dest(w[1], None, None)))
        else if w == ["acl", "{"] then p.(ctx := InAcl)
        else if |w| == 2 && w[0] == "dbhome" then p.(cfg := p.cfg.(dbhome := w[1]))
        else if |w| == 2 && (w[0] == "logdir" || w[0] == "dbtemp") then p
        else Bad
      case InSource(s) =>
        if w == ["}"] then p.(cfg := p.cfg.(sources := p.cfg.sources + [s]), ctx := Top)
        else if w[0] == "ip" then p.(ctx := InSource(s.(ips := s.ips + w[1..])))
        else if |w| == 2 && w[0] == "userlist" then p.(ctx := InSource(s.(userlists := s.userlists + [w[1]])))
        else Bad
      case InDest(d) =>
        if w == ["}"] then p.(cfg := p.cfg.(dests := p.cfg.dests + [d]), ctx := Top)
        else if |w| == 2 && w[0] == "domainlist" then p.(ctx := InDest(d.(domainlist := Some(w[1]))))
        else if |w| == 2 && w[0] == "urllist" then p.(ctx := InDest(d.(urllist := Some(w[1]))))
        else Bad
      case InAcl =>
        if w == ["}"] then p.(ctx := Top)
        else if |w| == 2 && w[1] == "{" then p.(ctx := InBlock(Acl(w[0], [], "")))
        else Bad
      case InBlock(a) =>
        if w == ["}"] then p.(cfg := p.cfg.(acls := p.cfg.acls + [a]), ctx := InAcl)
        else if w[0] == "pass" then p.(ctx := InBlock(a.(pass := w[1..])))
        else if |w| == 2 && w[0] == "redirect" then p.(ctx := InBlock(a.(redirect := w[1])))
        else Bad
  }

  function Feed(p: Parser, lines: seq<string>): Parser
    decreases lines
  {
    if lines == [] then p else Feed(Step(p, Words(lines[0])), lines[1..])
  }

  function Parse(text: string): Option<Config> {
    match Feed(START, Lines(text))
    case Parser(cfg, Top) => Some(cfg)
    case _ => None
  }

  lemma {:induction false} FeedAppend(p: Parser, a: seq<string>, b: seq<string>)
    ensures Feed(p, a + b) == Feed(Feed(p, a), b)
    decreases a
  {
    if a == [] {
      assert a + b == b;
    } else {
      assert (a + b)[1..] == a[1..] + b;
      FeedAppend(Step(p, Words(a[0])), a[1..], b);
    }
  }

  // ---------- deciding a request ----------

  /** A client: which address entries cover it, and the name it has authenticated with. */
  datatype Client = Client(covers: string -> bool, user: string)

  /** A request: which lines of a domain list and of a URL list it falls under. */
  datatype Request = Request(inDomain: string -> bool, inUrl: string -> bool)

  datatype Decision = Pass | Block | Undecided

  /** A source matches when each kind of entry it has matches; one without entries matches nobody. */
  predicate Matches(files: Files, s: Source, client: Client) {
    && (s.ips != [] || s.userlists != [])
    && (s.ips != [] ==> Covered(s.ips, client))
    && (s.userlists != [] ==> exists l :: l in s.userlists && l in files && client.user in files[l])
  }

  predicate Covered(ips: seq<string>, client: Client) {
    exists ip :: ip in ips && client.covers(ip)
  }

  predicate OnList(files: Files, list: Option<string>, hit: string -> bool) {
    list.Some? && list.value in files && exists line :: line in files[list.value] && hit(line)
  }

  predicate Hits(files: Files, d: Dest, request: Request) {
    OnList(files, d.domainlist, request.inDomain) || OnList(files, d.urllist, request.inUrl)
  }

  predicate HitsNamed(cfg: Config, files: Files, name: string, request: Request) {
    exists d :: d in cfg.dests && d.name == name && Hits(files, d, request)
  }

  /** The first source, in printed order, that matches. */
  function FirstMatch(files: Files, sources: seq<Source>, client: Client): Option<Source> {
    if sources == [] then None
    else if Matches(files, sources[0], client) then Some(sources[0])
    else FirstMatch(files, sources[1..], client)
  }

  function FindAcl(acls: seq<Acl>, name: string): Option<Acl> {
    if acls == [] then None else if acls[0].name == name then Some(acls[0]) else FindAcl(acls[1..], name)
  }

  /** The block of a source, or the default block if it has none. */
  function AclFor(acls: seq<Acl>, source: Option<Source>): Option<Acl> {
    if source.Some? && FindAcl(acls, source.value.name).Some? then FindAcl(acls, source.value.name)
    else FindAcl(acls, "default")
  }

  /** A pass list is read left to right until a term decides. */
  function Evaluate(pass: seq<string>, hit: string -> bool): Decision {
    if pass == [] then Undecided
    else if pass[0] == "all" then Pass
    else if pass[0] == "none" then Block
    else if StartsWith(pass[0], "!") then if hit(pass[0][1..]) then Block else Evaluate(pass[1..], hit)
    else if hit(pass[0]) then Pass
    else Evaluate(pass[1..], hit)
  }

  function HitTest(cfg: Config, files: Files, request: Request): string -> bool {
    name => HitsNamed(cfg, files, name, request)
  }

  function Decide(cfg: Config, files: Files, client: Client, request: Request): Decision {
    var acl := AclFor(cfg.acls, FirstMatch(files, cfg.sources, client));
    if acl.None? then Undecided
    else Evaluate(acl.value.pass, HitTest(cfg, files, request))
  }
}
