/** Python string operations used by the source, on Dafny strings. */
module Text {
  /** Files by name, as the lines written to them. */
  type Files = map<string, seq<string>>

  predicate StartsWith(s: string, p: string) {
    |p| <= |s| && s[..|p|] == p
  }

  predicate EndsWith(s: string, p: string) {
    |p| <= |s| && s[|s| - |p|..] == p
  }

  predicate NoDup<T(==)>(s: seq<T>) {
    forall i, j :: 0 <= i < j < |s| ==> s[i] != s[j]
  }

  lemma Assoc<T>(a: seq<T>, b: seq<T>, c: seq<T>)
    ensures a + b + c == a + (b + c)
  {
  }

  lemma Cancel<T>(a: seq<T>, b: seq<T>, c: seq<T>)
    ensures a + b == a + c <==> b == c
    ensures b + a == c + a <==> b == c
  {
    assert b == (a + b)[|a|..] && c == (a + c)[|a|..];
    assert b == (b + a)[..|b + a| - |a|] && c == (c + a)[..|c + a| - |a|];
  }

  function FlatMap<T, U>(xs: seq<T>, f: T -> seq<U>): seq<U> {
    if xs == [] then [] else FlatMap(xs[..|xs| - 1], f) + f(xs[|xs| - 1])
  }

  lemma {:induction false} FlatMapAppend<T, U>(a: seq<T>, b: seq<T>, f: T -> seq<U>)
    ensures FlatMap(a + b, f) == FlatMap(a, f) + FlatMap(b, f)
  {
    if b == [] {
      assert a + b == a;
    } else {
      var init, last := b[..|b| - 1], b[|b| - 1];
      FlatMapAppend(a, init, f);
      assert (a + b)[..|a + b| - 1] == a + init;
      Assoc(FlatMap(a, f), FlatMap(init, f), f(last));
    }
  }

  lemma FlatMapStep<T, U>(xs: seq<T>, i: nat, f: T -> seq<U>)
    requires i < |xs|
    ensures FlatMap(xs[..i + 1], f) == FlatMap(xs[..i], f) + f(xs[i])
  {
    assert xs[..i + 1][..i] == xs[..i];
  }

  lemma FlatMapNone<T, U>(xs: seq<T>, f: T -> seq<U>)
    ensures FlatMap(xs[..0], f) == [] && xs[..|xs|] == xs
  {
  }

  lemma FlatMapOne<T, U>(x: T, f: T -> seq<U>)
    ensures FlatMap([x], f) == f(x)
  {
    assert [x][..0] == [];
  }

  /** Membership in a flattened sequence. */
  lemma {:induction false} FlatMapIn<T, U>(xs: seq<T>, f: T -> seq<U>, y: U)
    ensures y in FlatMap(xs, f) <==> exists x :: x in xs && y in f(x)
  {
    if xs != [] {
      var init, last := xs[..|xs| - 1], xs[|xs| - 1];
      assert xs == init + [last];
      FlatMapIn(init, f, y);
    }
  }

  // ---------- s.split(sep) and sep.join(parts) ----------

  function Split(s: string, sep: char): (parts: seq<string>)
    ensures |parts| >= 1
    ensures forall i :: 0 <= i < |parts| ==> sep !in parts[i]
  {
    if s == "" then [""]
    else
      var rest := Split(s[1..], sep);
      if s[0] == sep then [""] + rest else [[s[0]] + rest[0]] + rest[1..]
  }

  function Join(parts: seq<string>, sep: char): string
    requires |parts| >= 1
  {
    if |parts| == 1 then parts[0] else parts[0] + [sep] + Join(parts[1..], sep)
  }

  /** Splitting loses nothing. */
  lemma {:induction false} JoinSplit(s: string, sep: char)
    ensures Join(Split(s, sep), sep) == s
  {
    if s != "" {
      var rest := Split(s[1..], sep);
      JoinSplit(s[1..], sep);
      var all := Split(s, sep);
      if s[0] == sep {
        assert all[1..] == rest;
      } else if |rest| > 1 {
        assert all[1..] == rest[1..];
        assert Join(all, sep) == [s[0]] + Join(rest, sep);
      }
    }
  }

  lemma {:induction false} SplitFirst(a: string, b: string, sep: char)
    requires sep !in a
    ensures Split(a + [sep] + b, sep) == [a] + Split(b, sep)
  {
    var s := a + [sep] + b;
    if a == "" {
      assert s[1..] == b;
    } else {
      assert s[1..] == a[1..] + [sep] + b;
      SplitFirst(a[1..], b, sep);
      assert [a[0]] + a[1..] == a;
    }
  }

  lemma {:induction false} SplitOne(a: string, sep: char)
    requires sep !in a
    ensures Split(a, sep) == [a]
  {
    if a != "" {
      SplitOne(a[1..], sep);
      assert [a[0]] + a[1..] == a;
    }
  }

  /** Joining separator-free parts loses nothing. */
  lemma {:induction false} SplitJoin(parts: seq<string>, sep: char)
    requires |parts| >= 1
    requires forall p :: p in parts ==> sep !in p
    ensures Split(Join(parts, sep), sep) == parts
  {
    if |parts| == 1 {
      SplitOne(parts[0], sep);
    } else {
      SplitJoin(parts[1..], sep);
      SplitFirst(parts[0], Join(parts[1..], sep), sep);
    }
  }

  // ---------- s.split(): maximal runs without white space ----------

  /** The characters str.isspace() accepts. */
  predicate IsSpace(c: char) {
    var n := c as int;
    || 9 <= n <= 13 || 28 <= n <= 32 || n == 0x85 || n == 0xA0 || n == 0x1680
    || 0x2000 <= n <= 0x200A || n == 0x2028 || n == 0x2029 || n == 0x202F || n == 0x205F || n == 0x3000
  }

  /** A non-empty piece of text without white space. */
  predicate IsWord(w: string) {
    w != "" && forall c :: c in w ==> !IsSpace(c)
  }

  /** Visible ASCII text is a word. */
  predicate Visible(w: string) {
    w != "" && forall i :: 0 <= i < |w| ==> '!' <= w[i] <= '~'
  }

  lemma VisibleWord(w: string)
    requires Visible(w)
    ensures IsWord(w)
  {
  }

  lemma WordAppend(a: string, b: string)
    requires IsWord(a) && IsWord(b)
    ensures IsWord(a + b)
  {
  }

  function Words(s: string): (ws: seq<string>)
    ensures forall i :: 0 <= i < |ws| ==> IsWord(ws[i])
  {
    if s == "" then []
    else if IsSpace(s[0]) then Words(s[1..])
    else
      var rest := Words(s[1..]);
      if |s| > 1 && !IsSpace(s[1]) && rest != [] then
        var w := [s[0]] + rest[0];
        assert IsWord(w) by { assert IsWord(rest[0]); }
        [w] + rest[1..]
      else
        [[s[0]]] + rest
  }

  lemma WordsBlank(c: char, s: string)
    requires IsSpace(c)
    ensures Words([c] + s) == Words(s)
  {
    assert ([c] + s)[1..] == s;
  }

  lemma {:induction false} WordsLast(w: string)
    requires IsWord(w)
    ensures Words(w) == [w]
  {
    assert !IsSpace(w[0]);
    if |w| == 1 {
      assert w == [w[0]] && w[1..] == "";
    } else {
      assert IsWord(w[1..]) && !IsSpace(w[1]);
      WordsLast(w[1..]);
      assert [w[0]] + w[1..] == w;
    }
  }

  lemma {:induction false} WordsFirst(w: string, c: char, s: string)
    requires IsWord(w) && IsSpace(c)
    ensures Words(w + [c] + s) == [w] + Words(s)
  {
    var t := w + [c] + s;
    assert !IsSpace(w[0]);
    if |w| == 1 {
      assert w == [w[0]] && t[0] == w[0] && t[1..] == [c] + s;
      WordsBlank(c, s);
    } else {
      assert IsWord(w[1..]) && !IsSpace(w[1]);
      WordsFirst(w[1..], c, s);
      assert t[1] == w[1] && t[1..] == w[1..] + [c] + s;
      assert [w[0]] + w[1..] == w;
    }
  }

  predicate AllBlank(s: string) {
    forall i :: 0 <= i < |s| ==> IsSpace(s[i])
  }

  lemma BlankRest(s: string)
    requires AllBlank(s) && s != ""
    ensures IsSpace(s[0]) && AllBlank(s[1..])
  {
    hide IsSpace;
  }

  lemma {:induction false} WordsIndent(indent: string, s: string)
    requires AllBlank(indent)
    ensures Words(indent + s) == Words(s)
  {
    hide Words, IsSpace, AllBlank, IsWord;
    if indent == "" {
      assert indent + s == s;
    } else {
      BlankRest(indent);
      WordsIndent(indent[1..], s);
      WordsBlank(indent[0], indent[1..] + s);
      assert indent + s == [indent[0]] + (indent[1..] + s);
    }
  }

  /** A line with one word. */
  lemma WordsLine1(indent: string, a: string)
    requires AllBlank(indent) && IsWord(a)
    ensures Words(indent + a) == [a]
  {
    WordsIndent(indent, a);
    WordsLast(a);
  }

  /** A line with a first word, a gap, and more text. */
  lemma WordsLine(indent: string, a: string, gap: string, rest: string)
    requires AllBlank(indent) && IsWord(a) && AllBlank(gap) && gap != ""
    ensures Words(indent + (a + gap + rest)) == [a] + Words(rest)
  {
    hide Words, IsWord, IsSpace;
    WordsIndent(indent, a + gap + rest);
    assert a + gap + rest == a + [gap[0]] + (gap[1..] + rest);
    WordsFirst(a, gap[0], gap[1..] + rest);
    WordsIndent(gap[1..], rest);
  }

  lemma {:induction false} WordsJoin(ws: seq<string>)
    requires ws != [] && forall i :: 0 <= i < |ws| ==> IsWord(ws[i])
    ensures Words(Join(ws, ' ')) == ws
  {
    if |ws| == 1 {
      WordsLast(ws[0]);
    } else {
      WordsJoin(ws[1..]);
      WordsFirst(ws[0], ' ', Join(ws[1..], ' '));
    }
  }

  lemma FirstWord(s: string)
    requires s != "" && !IsSpace(s[0])
    ensures Words(s) != []
  {
  }

  lemma WordsCons(c: char, s: string)
    ensures Words([c] + s) ==
      if IsSpace(c) then Words(s)
      else if s != "" && !IsSpace(s[0]) && Words(s) != [] then [[c] + Words(s)[0]] + Words(s)[1..]
      else [[c]] + Words(s)
  {
    assert ([c] + s)[1..] == s;
    hide IsSpace;
  }

  /** White space separates the words before it from those behind it. */
  lemma {:induction false} WordsBreak(a: string, c: char, b: string)
    requires IsSpace(c)
    ensures Words(a + [c] + b) == Words(a) + Words(b)
  {
    hide Words, IsSpace, IsWord;
    if a == "" {
      assert a + [c] + b == [c] + b;
      WordsBlank(c, b);
      EmptyWord();
    } else {
      var rest := a[1..];
      WordsBreak(rest, c, b);
      WordsCons(a[0], rest);
      WordsCons(a[0], rest + [c] + b);
      assert a == [a[0]] + rest && a + [c] + b == [a[0]] + (rest + [c] + b);
      if rest != "" && !IsSpace(rest[0]) {
        FirstWord(rest);
      } else {
        assert IsSpace((rest + [c] + b)[0]);
      }
    }
  }

  lemma EmptyWord()
    ensures Words("") == []
  {
  }

  /** Splitting at single blanks first makes no difference to the words. */
  lemma {:induction false} WordsOfPieces(s: string)
    ensures FlatMap(Split(s, ' '), Words) == Words(s)
    decreases |s|
  {
    if ' ' !in s {
      SplitOne(s, ' ');
      FlatMapOne(s, Words);
    } else {
      var i := FirstBlank(s);
      var a, b := s[..i], s[i + 1..];
      assert s == a + [' '] + b;
      SplitFirst(a, b, ' ');
      WordsBreak(a, ' ', b);
      WordsOfPieces(b);
      FlatMapAppend([a], Split(b, ' '), Words);
      FlatMapOne(a, Words);
    }
  }

  lemma FirstBlank(s: string) returns (i: nat)
    requires ' ' in s
    ensures i < |s| && s[i] == ' ' && ' ' !in s[..i]
    decreases |s|
  {
    if s[0] == ' ' {
      i := 0;
    } else {
      var j := FirstBlank(s[1..]);
      i := j + 1;
      assert s[..i] == [s[0]] + s[1..][..j];
    }
  }

  lemma {:induction false} WordsOfWords(ws: seq<string>)
    requires forall i :: 0 <= i < |ws| ==> IsWord(ws[i])
    ensures FlatMap(ws, Words) == ws
  {
    if ws != [] {
      var init, last := ws[..|ws| - 1], ws[|ws| - 1];
      WordsOfWords(init);
      WordsLast(last);
      assert ws == init + [last];
    }
  }

  // ---------- text as lines ----------

  function Unlines(lines: seq<string>): string {
    if lines == [] then "" else lines[0] + "\n" + Unlines(lines[1..])
  }

  /** The lines of a text whose every line ends in a newline. */
  function Lines(text: string): seq<string> {
    var parts := Split(text, '\n');
    parts[..|parts| - 1]
  }

  lemma {:induction false} LinesUnlines(lines: seq<string>)
    requires forall l :: l in lines ==> '\n' !in l
    ensures Lines(Unlines(lines)) == lines
  {
    if lines != [] {
      LinesUnlines(lines[1..]);
      SplitFirst(lines[0], Unlines(lines[1..]), '\n');
    }
  }

  // ---------- s.replace(pattern, by) ----------

  predicate OccursAt(text: string, p: string, i: nat) {
    i + |p| <= |text| && text[i..i + |p|] == p
  }

  predicate Occurs(text: string, p: string) {
    exists i :: 0 <= i <= |text| && OccursAt(text, p, i)
  }

  /** str.replace: leftmost occurrences first, never overlapping, replacements not scanned again. */
  function Replace(text: string, p: string, sub: string): string
    requires p != ""
    decreases |text|
  {
    if text == "" then ""
    else if OccursAt(text, p, 0) then sub + Replace(text[|p|..], p, sub)
    else [text[0]] + Replace(text[1..], p, sub)
  }

  lemma {:induction false} ReplaceAbsent(text: string, p: string, sub: string)
    requires p != "" && !Occurs(text, p)
    ensures Replace(text, p, sub) == text
  {
    if text != "" {
      assert !OccursAt(text, p, 0);
      forall i | 0 <= i <= |text[1..]|
        ensures !OccursAt(text[1..], p, i)
      {
        if OccursAt(text[1..], p, i) {
          assert text[i + 1..i + 1 + |p|] == text[1..][i..i + |p|];
          assert OccursAt(text, p, i + 1);
        }
      }
      ReplaceAbsent(text[1..], p, sub);
    }
  }

  /** Text before the first occurrence is kept, the occurrence is replaced. */
  lemma {:induction false} ReplaceFirst(a: string, p: string, b: string, sub: string)
    requires p != ""
    requires forall i :: 0 <= i < |a| ==> !OccursAt(a + p + b, p, i)
    ensures Replace(a + p + b, p, sub) == a + sub + Replace(b, p, sub)
  {
    var t := a + p + b;
    if a == "" {
      assert t[..|p|] == p;
      assert t[|p|..] == b;
      assert OccursAt(t, p, 0);
      assert t != "";
    } else {
      var t' := a[1..] + p + b;
      assert t[1..] == t';
      forall i | 0 <= i < |a[1..]|
        ensures !OccursAt(t', p, i)
      {
        if OccursAt(t', p, i) {
          assert t[i + 1..i + 1 + |p|] == t'[i..i + |p|];
          assert OccursAt(t, p, i + 1);
        }
      }
      ReplaceFirst(a[1..], p, b, sub);
      assert !OccursAt(t, p, 0);
    }
  }

  lemma OccursChar(text: string, p: string, i: nat, k: nat)
    requires OccursAt(text, p, i) && k < |p|
    ensures text[i + k] == p[k]
  {
    assert text[i..i + |p|][k] == text[i + k];
  }

  // ---------- replacing inside lines, and replacing whole lines ----------

  /** A pattern that is a whole line with its two newlines only occurs where that line is. */
  lemma {:induction false} LineAbsent(lines: seq<string>, line: string)
    requires '\n' !in line && forall i :: 0 <= i < |lines| ==> '\n' !in lines[i] && lines[i] != line
    ensures !Occurs(Unlines(lines), "\n" + line + "\n")
  {
    var p, text := "\n" + line + "\n", Unlines(lines);
    forall i | 0 <= i <= |text|
      ensures !OccursAt(text, p, i)
    {
      LineNotAt(lines, line, i);
    }
  }

  lemma {:induction false} LineNotAt(lines: seq<string>, line: string, i: nat)
    requires '\n' !in line && forall i :: 0 <= i < |lines| ==> '\n' !in lines[i] && lines[i] != line
    ensures !OccursAt(Unlines(lines), "\n" + line + "\n", i)
    decreases lines
  {
    var p, text := "\n" + line + "\n", Unlines(lines);
    if OccursAt(text, p, i) {
      var rest := Unlines(lines[1..]);
      OccursChar(text, p, i, 0);
      if i < |lines[0]| {
      } else if i == |lines[0]| {
        assert text[i + 1..] == rest;
        assert rest[..|line| + 1] == line + "\n" by {
          assert text[i..i + |p|][1..] == p[1..];
          assert p[1..] == line + "\n";
          assert text[i..i + |p|][1..] == text[i + 1..][..|line| + 1];
        }
        StartsWithLine(lines[1..], line);
      } else {
        var j := i - |lines[0]| - 1;
        assert text[i..i + |p|] == rest[j..j + |p|];
        LineNotAt(lines[1..], line, j);
      }
    }
  }

  lemma NewlineInside(a: string, b: string, line: string)
    requires |a| > |line| && (a + b)[..|line| + 1] == line + "\n"
    ensures '\n' in a
  {
    assert a[|line|] == (a + b)[..|line| + 1][|line|];
  }

  lemma NewlineBefore(a: string, b: string, line: string)
    requires |a| < |line| && |line| + 1 <= |a + "\n" + b|
    requires (a + "\n" + b)[..|line| + 1] == line + "\n"
    ensures '\n' in line
  {
    assert line[|a|] == (a + "\n" + b)[..|line| + 1][|a|];
  }

  lemma StartsWithLine(lines: seq<string>, line: string)
    requires '\n' !in line && forall i :: 0 <= i < |lines| ==> '\n' !in lines[i]
    requires |line| + 1 <= |Unlines(lines)| && Unlines(lines)[..|line| + 1] == line + "\n"
    ensures lines != [] && lines[0] == line
  {
    var text, k := Unlines(lines), |lines[0]|;
    assert OccursAt(text, line + "\n", 0);
    assert text == lines[0] + "\n" + Unlines(lines[1..]);
    if k > |line| {
      assert text == lines[0] + ("\n" + Unlines(lines[1..]));
      NewlineInside(lines[0], "\n" + Unlines(lines[1..]), line);
    } else if k < |line| {
      NewlineBefore(lines[0], Unlines(lines[1..]), line);
    } else if k == |line| {
      assert lines[0] == text[..k] == text[..k + 1][..k] == line;
    }
  }

  /** A pattern without newline is replaced line by line. */
  lemma {:induction false} ReplaceAcross(line: string, rest: string, p: string, sub: string)
    requires p != "" && '\n' !in p
    ensures Replace(line + "\n" + rest, p, sub) == Replace(line, p, sub) + "\n" + Replace(rest, p, sub)
    decreases |line|
  {
    var text := line + "\n" + rest;
    HitInLine(line, rest, p);
    ReplaceStep(text, p, sub);
    if line == "" {
      assert text[1..] == rest;
      hide Replace;
      ReplaceNothing(p, sub);
    } else if OccursAt(line, p, 0) {
      assert text[|p|..] == line[|p|..] + "\n" + rest;
      hide Replace;
      ReplaceStep(line, p, sub);
      ReplaceAcross(line[|p|..], rest, p, sub);
      Assoc(sub, Replace(line[|p|..], p, sub) + "\n", Replace(rest, p, sub));
      Assoc(sub, Replace(line[|p|..], p, sub), "\n");
    } else {
      assert text[1..] == line[1..] + "\n" + rest;
      hide Replace;
      ReplaceStep(line, p, sub);
      ReplaceAcross(line[1..], rest, p, sub);
      Assoc([line[0]], Replace(line[1..], p, sub) + "\n", Replace(rest, p, sub));
      Assoc([line[0]], Replace(line[1..], p, sub), "\n");
    }
  }

  lemma HitInLine(line: string, rest: string, p: string)
    requires p != "" && '\n' !in p
    ensures OccursAt(line + "\n" + rest, p, 0) <==> OccursAt(line, p, 0)
  {
    var text := line + "\n" + rest;
    if |p| <= |line| {
      assert text[..|p|] == line[..|p|];
    } else if OccursAt(text, p, 0) {
      OccursChar(text, p, 0, |line|);
    }
  }

  lemma ReplaceStep(text: string, p: string, sub: string)
    requires p != "" && text != ""
    ensures Replace(text, p, sub)
         == if OccursAt(text, p, 0) then sub + Replace(text[|p|..], p, sub) else [text[0]] + Replace(text[1..], p, sub)
  {
  }

  lemma ReplaceNothing(p: string, sub: string)
    requires p != ""
    ensures Replace("", p, sub) == ""
  {
  }

  /** A pattern that starts with c cannot begin inside text without c. */
  lemma AbsentBehind(a: string, s: string, p: string)
    requires p != "" && p[0] !in a && !Occurs(s, p)
    ensures !Occurs(a + s, p)
  {
    forall i | 0 <= i <= |a + s|
      ensures !OccursAt(a + s, p, i)
    {
      if OccursAt(a + s, p, i) {
        OccursChar(a + s, p, i, 0);
        if i >= |a| {
          assert !OccursAt(s, p, i - |a|);
          SliceBehind(a, s, i, |p|);
        }
      }
    }
  }

  lemma SliceBehind(a: string, s: string, i: nat, n: nat)
    requires |a| <= i && i + n <= |a + s|
    ensures (a + s)[i..i + n] == s[i - |a|..i - |a| + n]
  {
  }

  lemma AbsentWithout(s: string, p: string)
    requires p != "" && p[0] !in s
    ensures !Occurs(s, p)
  {
    forall i | 0 <= i <= |s|
      ensures !OccursAt(s, p, i)
    {
      if OccursAt(s, p, i) {
        OccursChar(s, p, i, 0);
      }
    }
  }
}
