/** The readers of text and registry keys, compared with the plain definitions. */
module Readings {
  import opened Options
  import opened Text
  import opened Numbers
  import opened Registry
  import Plain

  // ---------- words ----------

  lemma SpaceExactly(c: char)
    ensures IsSpace(c) <==> Plain.Blank(c)
  {
  }

  lemma FirstWordEnd(s: string) returns (k: nat)
    requires s != "" && !Plain.Blank(s[0])
    ensures 0 < k <= |s| && (forall i :: 0 <= i < k ==> !Plain.Blank(s[i])) && (k == |s| || Plain.Blank(s[k]))
  {
    hide Plain.Blank;
    k := 1;
    while k < |s| && !Plain.Blank(s[k])
      invariant 0 < k <= |s| && forall i :: 0 <= i < k ==> !Plain.Blank(s[i])
    {
      k := k + 1;
    }
  }

  /** Behind a blank the words are those of the rest. */
  lemma WordBehind(s: string, k: nat, w: string)
    requires k < |s| && Plain.Blank(s[k])
    requires forall i: nat, j: nat :: Plain.WordAt(s, i, j) && i <= k ==> s[i..j] != w
    ensures Plain.Word(s, w) <==> Plain.Word(s[k + 1..], w)
  {
    hide Plain.Blank;
    var t := s[k + 1..];
    if Plain.Word(s, w) {
      var i: nat, j: nat :| Plain.WordAt(s, i, j) && s[i..j] == w;
      assert Plain.WordAt(t, i - k - 1, j - k - 1) && t[i - k - 1..j - k - 1] == s[i..j];
    }
    if Plain.Word(t, w) {
      var i: nat, j: nat :| Plain.WordAt(t, i, j) && t[i..j] == w;
      WordShifted(s, k, i, j);
    }
  }

  lemma WordShifted(s: string, k: nat, i: nat, j: nat)
    requires k < |s| && Plain.Blank(s[k]) && Plain.WordAt(s[k + 1..], i, j)
    ensures Plain.WordAt(s, i + k + 1, j + k + 1) && s[i + k + 1..j + k + 1] == s[k + 1..][i..j]
  {
    hide Plain.Blank;
    var t := s[k + 1..];
    forall l | i + k + 1 <= l < j + k + 1
      ensures !Plain.Blank(s[l])
    {
      assert s[l] == t[l - k - 1];
    }
  }

  /** The words a text is split into are its longest stretches without white space. */
  lemma {:induction false} WordsExactly(s: string, w: string)
    ensures w in Words(s) <==> Plain.Word(s, w)
    decreases |s|
  {
    forall c
      ensures IsSpace(c) <==> Plain.Blank(c)
    {
      SpaceExactly(c);
    }
    hide IsSpace, Plain.Blank;
    if s == "" {
    } else if Plain.Blank(s[0]) {
      WordsExactly(s[1..], w);
      WordsBlank(s[0], s[1..]);
      assert s == [s[0]] + s[1..];
      WordBehind(s, 0, w);
    } else {
      hide Words;
      var k := FirstWordEnd(s);
      var first := s[..k];
      assert Plain.WordAt(s, 0, k) && s[0..k] == first;
      if k == |s| {
        assert IsWord(s);
        WordsLast(s);
        OnlyWord(s, k, w);
      } else {
        assert IsWord(first) && s == first + [s[k]] + s[k + 1..];
        WordsFirst(first, s[k], s[k + 1..]);
        WordsExactly(s[k + 1..], w);
        OnlyWord(s, k, w);
        if w != first {
          WordBehind(s, k, w);
        }
      }
    }
  }

  /** Up to the end of the first word there is no other one. */
  lemma OnlyWord(s: string, k: nat, w: string)
    requires 0 < k <= |s| && (forall i :: 0 <= i < k ==> !Plain.Blank(s[i])) && (k == |s| || Plain.Blank(s[k]))
    ensures forall i: nat, j: nat :: Plain.WordAt(s, i, j) && i <= k ==> s[i..j] == s[..k]
    ensures s[..k] == w ==> Plain.Word(s, w)
    ensures k == |s| ==> (Plain.Word(s, w) <==> w == s)
  {
    hide Plain.Blank;
    forall i: nat, j: nat | Plain.WordAt(s, i, j) && i <= k
      ensures i == 0 && j == k && s[i..j] == s[..k]
    {
    }
    assert Plain.WordAt(s, 0, k) && s[0..k] == s[..k];
    assert k == |s| ==> s[..k] == s;
  }

  // ---------- texts with one word ----------

  /** White space, a word, white space. */
  predicate Parts(s: string, i: nat, j: nat) {
    i < j <= |s| && AllBlank(s[..i]) && IsWord(s[i..j]) && AllBlank(s[j..])
  }

  lemma PartsExactly(s: string, i: nat, j: nat)
    ensures Parts(s, i, j) <==> Plain.OnlyWordAt(s, i, j)
  {
    forall k | 0 <= k < |s|
      ensures IsSpace(s[k]) <==> Plain.Blank(s[k])
    {
      SpaceExactly(s[k]);
    }
    hide IsSpace, Plain.Blank;
    if i < j <= |s| {
      PartsOf(s, i, j);
    }
  }

  lemma PartsOf(s: string, i: nat, j: nat)
    requires i < j <= |s|
    ensures AllBlank(s[..i]) <==> forall k :: 0 <= k < i ==> IsSpace(s[k])
    ensures IsWord(s[i..j]) <==> forall k :: i <= k < j ==> !IsSpace(s[k])
    ensures AllBlank(s[j..]) <==> forall k :: j <= k < |s| ==> IsSpace(s[k])
  {
    hide IsSpace;
    assert forall k :: i <= k < j ==> s[k] == s[i..j][k - i];
    assert forall k :: j <= k < |s| ==> s[k] == s[j..][k - j];
  }

  lemma {:induction false} BlankWords(s: string)
    ensures AllBlank(s) <==> Words(s) == []
  {
    hide IsSpace;
    if s != "" {
      BlankWords(s[1..]);
      if IsSpace(s[0]) {
        BlankFirst(s);
      }
    }
  }

  lemma BlankFirst(s: string)
    requires s != "" && IsSpace(s[0])
    ensures AllBlank(s) <==> AllBlank(s[1..])
  {
    hide IsSpace;
    assert forall k :: 1 <= k < |s| ==> s[k] == s[1..][k - 1];
  }

  lemma PartsWords(s: string, i: nat, j: nat)
    requires Parts(s, i, j)
    ensures Words(s) == [s[i..j]]
  {
    var indent, w, rest := s[..i], s[i..j], s[j..];
    assert s == indent + (w + rest);
    assert rest != "" ==> IsSpace(rest[0]) && AllBlank(rest[1..]) by {
      if rest != "" { BlankRest(rest); }
    }
    hide IsSpace, Words, AllBlank, IsWord;
    WordsIndent(indent, w + rest);
    if rest == "" {
      assert w + rest == w;
      WordsLast(w);
    } else {
      assert w + rest == w + [rest[0]] + rest[1..];
      WordsFirst(w, rest[0], rest[1..]);
      BlankWords(rest[1..]);
    }
  }

  lemma TailSlices(s: string, i: nat, j: nat)
    requires i <= j < |s|
    ensures s[..i + 1][1..] == s[1..][..i] && s[j + 1..] == s[1..][j..] && s[i + 1..j + 1] == s[1..][i..j]
  {
    assert s == [s[0]] + s[1..];
    assert s[..i + 1][1..] == s[1..i + 1] == s[1..][..i];
    assert s[j + 1..] == s[1..][j..];
    assert s[i + 1..j + 1] == s[1..][i..j];
  }

  lemma PartsCons(s: string, i: nat, j: nat)
    requires s != "" && IsSpace(s[0]) && Parts(s[1..], i, j)
    ensures Parts(s, i + 1, j + 1) && s[i + 1..j + 1] == s[1..][i..j]
  {
    hide IsSpace, AllBlank, IsWord;
    TailSlices(s, i, j);
    assert s[..i + 1][0] == s[0];
    BlankFirst(s[..i + 1]);
    assert AllBlank(s[..i + 1]) && IsWord(s[i + 1..j + 1]) && AllBlank(s[j + 1..]);
  }

  lemma PartsHead(s: string, j: nat)
    requires 0 < j <= |s| && IsWord(s[..j]) && (j == |s| || IsSpace(s[j])) && |Words(s)| == 1
    ensures Parts(s, 0, j) && Words(s) == [s[..j]]
  {
    hide IsSpace, Words, IsWord;
    assert s[0..j] == s[..j];
    if j == |s| {
      assert s[..j] == s;
      WordsLast(s);
    } else {
      var first, rest := s[..j], s[j + 1..];
      assert s == first + [s[j]] + rest;
      WordsFirst(first, s[j], rest);
      assert |Words(rest)| == 0;
      BlankWords(rest);
      BlankFirst(s[j..]);
      assert s[j..][1..] == rest && AllBlank(s[j..]);
      assert Words(s) == [first];
    }
    assert s[..0] == "" && AllBlank(s[..0]);
  }

  lemma {:induction false} WordsParts(s: string, w: string) returns (i: nat, j: nat)
    requires Words(s) == [w]
    ensures Parts(s, i, j) && s[i..j] == w
    decreases |s|
  {
    SomeWord(s);
    if IsSpace(s[0]) {
      var a, b := WordsParts(s[1..], w);
      PartsCons(s, a, b);
      i, j := a + 1, b + 1;
    } else {
      i := 0;
      j := WordEnd(s);
      PartsHead(s, j);
    }
  }

  lemma SomeWord(s: string)
    requires Words(s) != []
    ensures s != ""
  {
  }

  lemma WordEnd(s: string) returns (k: nat)
    requires s != "" && !IsSpace(s[0])
    ensures 0 < k <= |s| && IsWord(s[..k]) && (k == |s| || IsSpace(s[k]))
  {
    hide IsSpace;
    k := 1;
    while k < |s| && !IsSpace(s[k])
      invariant 0 < k <= |s| && forall i :: 0 <= i < k ==> !IsSpace(s[i])
    {
      k := k + 1;
    }
    assert forall c :: c in s[..k] ==> exists i :: 0 <= i < k && s[i] == c;
  }

  /** A text has exactly one word when it is that word with white space around it. */
  lemma OneWordExactly(s: string, w: string)
    ensures Words(s) == [w] <==> Plain.OnlyWord(s, w)
  {
    hide Words, Parts, Plain.Blank;
    if Plain.OnlyWord(s, w) {
      var i: nat, j: nat :| Plain.OnlyWordAt(s, i, j) && s[i..j] == w;
      PartsExactly(s, i, j);
      PartsWords(s, i, j);
    }
    if Words(s) == [w] {
      var i, j := WordsParts(s, w);
      PartsExactly(s, i, j);
    }
  }

  // ---------- pieces ----------

  /** The pieces a text is split into are its longest stretches without the separator. */
  lemma {:induction false} PiecesExactly(s: string, sep: char, p: string)
    ensures p in Split(s, sep) <==> Plain.Piece(s, sep, p)
    decreases |s|
  {
    hide Split;
    if sep !in s {
      SplitOne(s, sep);
      assert Plain.PieceAt(s, sep, 0, |s|) && s[0..|s|] == s;
      OnePiece(s, sep, |s|);
    } else {
      var k := FirstSeparator(s, sep);
      var first, rest := s[..k], s[k + 1..];
      assert s == first + [sep] + rest;
      SplitFirst(first, rest, sep);
      PiecesExactly(rest, sep, p);
      assert Plain.PieceAt(s, sep, 0, k) && s[0..k] == first;
      OnePiece(s, sep, k);
      if p != first {
        PieceBehind(s, sep, k, p);
      }
    }
  }

  lemma FirstSeparator(s: string, sep: char) returns (k: nat)
    requires sep in s
    ensures k < |s| && s[k] == sep && sep !in s[..k]
  {
    k := 0;
    while s[k] != sep
      invariant k < |s| && sep !in s[..k] && sep in s[k..]
      decreases |s| - k
    {
      assert s[k..] == [s[k]] + s[k + 1..] && s[..k + 1] == s[..k] + [s[k]];
      k := k + 1;
    }
  }

  lemma OnePiece(s: string, sep: char, k: nat)
    requires k <= |s| && sep !in s[..k] && (k == |s| || s[k] == sep)
    ensures forall i: nat, j: nat :: Plain.PieceAt(s, sep, i, j) && i <= k ==> s[i..j] == s[..k]
  {
    assert forall i :: 0 <= i < k ==> s[i] != sep by {
      assert forall i :: 0 <= i < k ==> s[..k][i] == s[i];
    }
    forall i: nat, j: nat | Plain.PieceAt(s, sep, i, j) && i <= k
      ensures s[i..j] == s[..k]
    {
      assert i == 0 && j == k;
    }
  }

  lemma PieceBehind(s: string, sep: char, k: nat, p: string)
    requires k < |s| && s[k] == sep
    requires forall i: nat, j: nat :: Plain.PieceAt(s, sep, i, j) && i <= k ==> s[i..j] != p
    ensures Plain.Piece(s, sep, p) <==> Plain.Piece(s[k + 1..], sep, p)
  {
    var t := s[k + 1..];
    if Plain.Piece(s, sep, p) {
      var i: nat, j: nat :| Plain.PieceAt(s, sep, i, j) && s[i..j] == p;
      PieceUnshifted(s, sep, k, i, j);
    }
    if Plain.Piece(t, sep, p) {
      var i: nat, j: nat :| Plain.PieceAt(t, sep, i, j) && t[i..j] == p;
      PieceShifted(s, sep, k, i, j);
    }
  }

  lemma PieceShifted(s: string, sep: char, k: nat, i: nat, j: nat)
    requires k < |s| && s[k] == sep && Plain.PieceAt(s[k + 1..], sep, i, j)
    ensures Plain.PieceAt(s, sep, i + k + 1, j + k + 1) && s[i + k + 1..j + k + 1] == s[k + 1..][i..j]
  {
    var t := s[k + 1..];
    forall l | i + k + 1 <= l < j + k + 1
      ensures s[l] != sep
    {
      assert s[l] == t[l - k - 1];
    }
  }

  lemma PieceUnshifted(s: string, sep: char, k: nat, i: nat, j: nat)
    requires k < |s| && s[k] == sep && Plain.PieceAt(s, sep, i, j) && i > k
    ensures Plain.PieceAt(s[k + 1..], sep, i - k - 1, j - k - 1) && s[k + 1..][i - k - 1..j - k - 1] == s[i..j]
  {
  }

  // ---------- numbers ----------

  lemma {:induction false} ValueExactly(s: string)
    requires AllDigits(s)
    ensures ParseNat(s) == Plain.Value(s)
  {
    if s != "" {
      ValueExactly(s[..|s| - 1]);
    }
  }

  lemma PriorityExactly(reg: Reg, rule: string)
    ensures Priority(reg, rule) == Plain.PriorityOf(reg, rule)
  {
    var key := Prefix("setting") + (rule + "/priority");
    assert key == "proxy/filter/setting/" + rule + "/priority";
    var p := Get(reg, key, "");
    assert IsDigits(p) <==> Plain.Digits(p);
    if IsDigits(p) {
      ValueExactly(p);
    }
    hide ParseNat, Plain.Value;
  }

  // ---------- keys ----------

  lemma PrefixExactly(kind: string)
    ensures Prefix(kind) == "proxy/filter/" + kind + "/"
  {
  }

  lemma StartExactly(s: string, p: string)
    ensures StartsWith(s, p) <==> p <= s
  {
  }

  /** A name, a slash, and one line. */
  predicate Rest(rest: string, rule: string) {
    rule != "" && '/' !in rule && rule + "/" <= rest && forall i :: |rule| + 1 <= i < |rest| - 1 ==> rest[i] != '\n'
  }

  lemma DefinesRest(prefix: string, kind: string, rest: string, rule: string)
    requires prefix == "proxy/filter/" + kind + "/"
    ensures Plain.Defines(prefix + rest, kind, rule) <==> Rest(rest, rule)
  {
    var key, full := prefix + rest, prefix + (rule + "/");
    assert "proxy/filter/" + kind + "/" + rule + "/" == full;
    PrefixCancel(prefix, rule + "/", rest);
    assert forall i :: |full| <= i < |key| ==> key[i] == rest[i - |prefix|];
    assert forall i :: |rule| + 1 <= i < |rest| ==> rest[i] == key[i + |prefix|];
  }

  lemma DefinesUnder(key: string, kind: string, rule: string)
    requires Plain.Defines(key, kind, rule)
    ensures StartsWith(key, Prefix(kind))
  {
    assert "proxy/filter/" + kind + "/" + rule + "/" == Prefix(kind) + (rule + "/");
    StartsUnder(key, Prefix(kind), rule + "/");
  }

  /** The keys a rule's name is read from. */
  lemma NamedExactly(key: string, kind: string, rule: string)
    ensures Named(key, kind) == Some(rule) <==> Plain.Defines(key, kind, rule)
  {
    var prefix := Prefix(kind);
    PrefixExactly(kind);
    if Plain.Defines(key, kind, rule) {
      DefinesUnder(key, kind, rule);
    }
    hide Prefix, Rest, Plain.Defines, OneLine, Split, Join;
    if StartsWith(key, prefix) {
      var rest := Suffix(key, prefix);
      assert key == prefix + rest;
      RestNames(rest, rule);
      DefinesRest(prefix, kind, rest, rule);
    }
  }

  lemma StartsUnder(key: string, prefix: string, rest: string)
    ensures prefix + rest <= key ==> StartsWith(key, prefix)
  {
    assert (prefix + rest)[..|prefix|] == prefix;
  }

  lemma PrefixCancel(a: string, b: string, c: string)
    ensures a + b <= a + c <==> b <= c
  {
    if a + b <= a + c {
      assert c[..|b|] == (a + c)[|a|..|a| + |b|] == b;
    }
    if b <= c {
      assert (a + c)[..|a + b|] == a + b;
    }
  }

  /** The part of the key behind the prefix: a name, a slash, and one line. */
  lemma RestNames(rest: string, rule: string)
    ensures var parts := Split(rest, '/');
      (|parts| >= 2 && parts[0] == rule && rule != "" && OneLine(Join(parts[1..], '/')))
      <==> Rest(rest, rule)
  {
    hide Split, Join;
    assert rule + "/" <= rest ==> rest[|rule|] == '/' && '/' in rest;
    if '/' in rest {
      var k := FirstSeparator(rest, '/');
      var first, behind := rest[..k], rest[k + 1..];
      assert rest == first + ['/'] + behind;
      SplitFirst(first, behind, '/');
      assert Split(rest, '/')[1..] == Split(behind, '/');
      JoinSplit(behind, '/');
      assert rule + "/" <= rest && '/' !in rule <==> rule == first by {
        if rule + "/" <= rest && '/' !in rule {
          SameStart(rest, rule, k);
        }
      }
      assert OneLine(behind) <==> forall i :: k + 1 <= i < |rest| - 1 ==> rest[i] != '\n' by {
        assert forall i :: 0 <= i < |behind| ==> behind[i] == rest[i + k + 1];
        assert forall i :: k + 1 <= i < |rest| ==> rest[i] == behind[i - k - 1];
      }
    } else {
      SplitOne(rest, '/');
    }
  }

  lemma SameStart(rest: string, rule: string, k: nat)
    requires k < |rest| && rest[k] == '/' && '/' !in rest[..k] && rule + "/" <= rest && '/' !in rule
    ensures rule == rest[..k]
  {
    assert rest[|rule|] == '/' && rest[..|rule|] == rule;
    assert forall i :: 0 <= i < |rule| ==> rest[i] == rule[i];
    assert forall i :: 0 <= i < k ==> rest[i] == rest[..k][i];
  }

  lemma DefinedExactly(reg: Reg, rule: string)
    ensures rule in SettingNames(reg) <==> Plain.Defined(reg, "setting", rule)
  {
    forall key
      ensures Named(key, "setting") == Some(rule) <==> Plain.Defines(key, "setting", rule)
    {
      NamedExactly(key, "setting", rule);
    }
    hide Named, Plain.Defines;
  }

  /** The keys a user's own rule is read from. */
  lemma OwnExactly(key: string, rule: string)
    ensures UserRuleOf(key) == Some(rule) <==> Plain.OwnKey(key, rule)
  {
    var prefix := Prefix("setting-user");
    var start := "proxy/filter/setting-user/" + rule;
    assert prefix == "proxy/filter/setting-user/" && start == prefix + rule;
    hide Prefix;
    StartsUnder(key, prefix, rule);
    if StartsWith(key, prefix) {
      var rest := Suffix(key, prefix);
      assert key == prefix + rest;
      PrefixCancel(prefix, rule, rest);
      hide Split;
      PrefixSegments("setting-user", rest);
      assert Split(key, '/')[3] == Split(rest, '/')[0];
      FirstPiece(rest, rule);
      if rule <= rest && |rule| < |rest| {
        assert key[|start|] == rest[|rule|];
      }
    }
  }

  lemma FirstPiece(rest: string, rule: string)
    ensures Split(rest, '/')[0] == rule
      <==> '/' !in rule && rule <= rest && (|rest| == |rule| || rest[|rule|] == '/')
  {
    hide Split;
    assert rule <= rest && |rest| == |rule| ==> rest == rule;
    assert rule <= rest && |rule| < |rest| ==> rest[|rule|] in rest;
    if '/' in rest {
      var k := FirstSeparator(rest, '/');
      assert rest == rest[..k] + ['/'] + rest[k + 1..];
      SplitFirst(rest[..k], rest[k + 1..], '/');
      if '/' !in rule && rule <= rest && (|rest| == |rule| || rest[|rule|] == '/') {
        assert rule + "/" <= rest;
        SameStart(rest, rule, k);
      }
    } else {
      SplitOne(rest, '/');
    }
  }

  lemma OwnRuleExactly(reg: Reg, rule: string)
    ensures HasUserRule(reg, rule) <==> Plain.Own(reg, rule)
  {
    forall key
      ensures UserRuleOf(key) == Some(rule) <==> Plain.OwnKey(key, rule)
    {
      OwnExactly(key, rule);
    }
    hide UserRuleOf, Plain.OwnKey;
  }

  /** The rule assigned to a group. */
  lemma AssignedExactly(reg: Reg, group: string, rule: string)
    ensures AssignedRule(reg, group) == Some(rule) <==> Plain.Assigned(reg, group, rule)
  {
    DefinedExactly(reg, rule);
    assert Prefix("groupdefault") + group == "proxy/filter/groupdefault/" + group;
    assert Plain.Defined(reg, "setting", rule) ==> rule != "";
    hide Plain.Defined, SettingNames, Prefix;
  }

  lemma RoomKeysExactly(room: string)
    ensures RoomIpKey(room) == "proxy/filter/room/" + room + "/ip"
    ensures RoomRuleKey(room) == "proxy/filter/room/" + room + "/rule"
  {
    assert Prefix("room") == "proxy/filter/room/";
    hide Prefix;
    assert "proxy/filter/room/" + (room + "/" + "ip") == "proxy/filter/room/" + room + "/ip";
    assert "proxy/filter/room/" + (room + "/" + "rule") == "proxy/filter/room/" + room + "/rule";
  }

  lemma OtherKeysExactly(group: string)
    ensures HostgroupPrefix() == "proxy/filter/hostgroup/blacklisted/"
    ensures UsergroupKey(group) == "proxy/filter/usergroup/" + group
  {
    assert Prefix("hostgroup") == "proxy/filter/hostgroup/" && Prefix("usergroup") == "proxy/filter/usergroup/";
    hide Prefix;
  }
}
