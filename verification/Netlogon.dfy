/** The netlogon script: the registry's scripts are put into buckets by priority and printed in order of priority. */
module Netlogon {
  import opened Options
  import opened Text
  import opened Numbers
  import opened Registry
  import opened Readings

  /** As in the registry; a script without a priority comes last. */
  type Priority = Option<string>

  const MAXSIZE := 0x7FFF_FFFF_FFFF_FFFF
  const PREFIX := "ucsschool/netlogon/"

  /** Text without white space at either end. */
  function Trimmed(s: string): string {
    if s != "" && IsSpace(s[0]) then Trimmed(s[1..])
    else if s != "" && IsSpace(s[|s| - 1]) then Trimmed(s[..|s| - 1])
    else s
  }

  /** Digits, with single underscores between them. */
  predicate IsMagnitude(s: string) {
    forall part :: part in Split(s, '_') ==> IsDigits(part)
  }

  function WithoutUnderscores(s: string): (r: string)
    ensures (forall c :: c in s ==> IsDigit(c) || c == '_') ==> AllDigits(r)
  {
    if s == "" then "" else (if s[0] == '_' then "" else [s[0]]) + WithoutUnderscores(s[1..])
  }

  function Magnitude(s: string): Option<int> {
    var digits := WithoutUnderscores(s);
    if IsMagnitude(s) && AllDigits(digits) then Some(ParseNat(digits)) else None
  }

  /** The number a priority stands for; None for the ValueError of a text that is no number. White space around
      it, a sign, and single underscores between its digits are allowed. */
  function Number(p: Priority): Option<int> {
    match p
    case None => Some(MAXSIZE)
    case Some(text) =>
      var s := Trimmed(text);
      if StartsWith(s, "-") then
        match Magnitude(s[1..])
        case None => None
        case Some(n) => Some(-n)
      else if StartsWith(s, "+") then Magnitude(s[1..])
      else Magnitude(s)
  }

  predicate Reads(text: string, n: int) {
    Number(Some(text)).Some? && Number(Some(text)).value == n
  }

  lemma {:induction false} TrimmedPadded(a: string, s: string, b: string)
    requires AllBlank(a) && AllBlank(b) && s != "" && !IsSpace(s[0]) && !IsSpace(s[|s| - 1])
    ensures Trimmed(a + s + b) == s
    decreases |a| + |b|
  {
    var t := a + s + b;
    hide IsSpace;
    if a != "" {
      TrimmedPadded(a[1..], s, b);
      assert t[0] == a[0] && t[1..] == a[1..] + s + b;
    } else if b != "" {
      TrimmedPadded(a, s, b[..|b| - 1]);
      assert t[0] == s[0] && t[|t| - 1] == b[|b| - 1] && t[..|t| - 1] == a + s + b[..|b| - 1];
    } else {
      assert t == s;
    }
  }

  lemma {:induction false} PlainDigits(s: string)
    requires AllDigits(s)
    ensures WithoutUnderscores(s) == s && '_' !in s
  {
    if s != "" {
      PlainDigits(s[1..]);
      assert s == [s[0]] + s[1..];
    }
  }

  lemma MagnitudeRead(n: nat)
    ensures Magnitude(Numeral(n)) == Some(n)
    ensures var s := Numeral(n); !IsSpace(s[0]) && !IsSpace(s[|s| - 1]) && s[0] != '-' && s[0] != '+'
  {
    var s := Numeral(n);
    PlainDigits(s);
    ParseNumeral(n);
    hide Numeral, ParseNat;
    SplitOne(s, '_');
    assert IsDigit(s[0]) && IsDigit(s[|s| - 1]);
  }

  lemma SignedRead(s: string, n: int)
    requires Magnitude(s) == Some(n) && s != "" && s[0] != '-' && s[0] != '+'
    requires !IsSpace(s[0]) && !IsSpace(s[|s| - 1])
    ensures forall t :: Trimmed(t) == s ==> Reads(t, n)
    ensures forall t :: Trimmed(t) == "+" + s ==> Reads(t, n)
    ensures forall t :: Trimmed(t) == "-" + s ==> Reads(t, -n)
  {
    hide Magnitude, Trimmed, IsSpace;
    assert ("-" + s)[1..] == s && ("+" + s)[1..] == s && ("-" + s)[..1] == "-" && ("+" + s)[..1] == "+";
    assert s[..1][0] == s[0] && "-"[0] == '-' && "+"[0] == '+';
  }

  /** A numeral is read as its number, whatever white space is around it, with or without a sign. */
  lemma NumberRead(a: string, b: string, n: int)
    requires AllBlank(a) && AllBlank(b) && n >= 0
    ensures Reads(a + Numeral(n) + b, n) && Reads(a + ("+" + Numeral(n)) + b, n)
    ensures Reads(a + ("-" + Numeral(n)) + b, -n)
  {
    var s := Numeral(n);
    MagnitudeRead(n);
    hide Numeral, Magnitude, Number, Trimmed, AllBlank;
    SignedRead(s, n);
    TrimmedPadded(a, s, b);
    TrimmedPadded(a, "-" + s, b);
    TrimmedPadded(a, "+" + s, b);
  }

  // ---------- exactly which texts are numbers ----------

  /** Digits, with single underscores between them. */
  predicate DigitGroups(s: string) {
    && s != "" && s[0] != '_' && s[|s| - 1] != '_'
    && (forall i :: 0 <= i < |s| ==> '0' <= s[i] <= '9' || s[i] == '_')
    && forall i :: 0 <= i < |s| - 1 ==> !(s[i] == '_' && s[i + 1] == '_')
  }

  /** The number the digits stand for, read from the left past the underscores. */
  function GroupsValue(s: string): int {
    if s == "" then 0
    else if s[|s| - 1] == '_' then GroupsValue(s[..|s| - 1])
    else 10 * GroupsValue(s[..|s| - 1]) + (s[|s| - 1] as int - 48)
  }

  lemma {:induction false} GroupsExactly(s: string)
    ensures IsMagnitude(s) <==> DigitGroups(s)
    decreases |s|
  {
    hide Split;
    if '_' in s {
      var k := FirstSeparator(s, '_');
      var first, rest := s[..k], s[k + 1..];
      assert s == first + ['_'] + rest;
      SplitFirst(first, rest, '_');
      GroupsExactly(rest);
      GroupsBehind(s, k);
      assert IsMagnitude(s) <==> IsDigits(first) && IsMagnitude(rest) by {
        assert Split(s, '_') == [first] + Split(rest, '_');
      }
    } else {
      SplitOne(s, '_');
      OneGroup(s);
    }
  }

  lemma OneGroup(s: string)
    requires '_' !in s
    ensures DigitGroups(s) <==> IsDigits(s)
  {
    assert forall i :: 0 <= i < |s| ==> s[i] != '_';
  }

  lemma GroupsBehind(s: string, k: nat)
    requires k < |s| && s[k] == '_' && '_' !in s[..k]
    ensures DigitGroups(s) <==> IsDigits(s[..k]) && DigitGroups(s[k + 1..])
  {
    var first, rest := s[..k], s[k + 1..];
    assert forall i :: 0 <= i < k ==> s[i] == first[i] && s[i] != '_';
    assert forall i :: k < i < |s| ==> s[i] == rest[i - k - 1];
    if DigitGroups(s) {
      assert k > 0 && k < |s| - 1 && !(s[k] == '_' && s[k + 1] == '_');
      assert forall i :: 0 <= i < |rest| ==> rest[i] == s[i + k + 1];
    }
    if IsDigits(first) && DigitGroups(rest) {
      GroupsJoined(s, k);
    }
  }

  lemma GroupsJoined(s: string, k: nat)
    requires k < |s| && s[k] == '_' && IsDigits(s[..k]) && DigitGroups(s[k + 1..])
    ensures DigitGroups(s)
  {
    var first, rest := s[..k], s[k + 1..];
    assert forall i :: 0 <= i < k ==> s[i] == first[i] && IsDigit(first[i]);
    assert forall i :: k < i < |s| ==> s[i] == rest[i - k - 1];
    forall i | 0 <= i < |s| - 1
      ensures !(s[i] == '_' && s[i + 1] == '_')
    {
      if i > k {
        assert !(rest[i - k - 1] == '_' && rest[i - k] == '_');
      }
    }
  }

  lemma {:induction false} WithoutLast(s: string)
    requires s != ""
    ensures WithoutUnderscores(s) ==
      WithoutUnderscores(s[..|s| - 1]) + if s[|s| - 1] == '_' then "" else [s[|s| - 1]]
  {
    if |s| > 1 {
      WithoutLast(s[1..]);
      assert s[1..][..|s| - 2] == s[..|s| - 1][1..];
    }
  }

  lemma {:induction false} GroupsRead(s: string)
    requires forall i :: 0 <= i < |s| ==> '0' <= s[i] <= '9' || s[i] == '_'
    ensures AllDigits(WithoutUnderscores(s)) && ParseNat(WithoutUnderscores(s)) == GroupsValue(s)
  {
    if s != "" {
      var init, c := s[..|s| - 1], s[|s| - 1];
      GroupsRead(init);
      WithoutLast(s);
      if c != '_' {
        ParseMore(WithoutUnderscores(init), c);
      } else {
        assert WithoutUnderscores(init) + "" == WithoutUnderscores(init);
      }
    }
  }

  lemma MagnitudeExactly(s: string)
    ensures Magnitude(s) == if DigitGroups(s) then Some(GroupsValue(s)) else None
  {
    GroupsExactly(s);
    if DigitGroups(s) {
      GroupsRead(s);
    }
    hide IsMagnitude, GroupsValue, WithoutUnderscores, ParseNat;
  }

  /** The number of a text without white space at its ends: digits in groups, perhaps behind a sign. */
  function SignedValue(s: string): Option<int>
    requires s != ""
  {
    if s[0] == '-' then if DigitGroups(s[1..]) then Some(-GroupsValue(s[1..])) else None
    else if s[0] == '+' then if DigitGroups(s[1..]) then Some(GroupsValue(s[1..])) else None
    else if DigitGroups(s) then Some(GroupsValue(s)) else None
  }

  lemma SignRead(t: string, s: string)
    requires Trimmed(t) == s != ""
    ensures Number(Some(t)) == SignedValue(s)
  {
    assert s[..1] == [s[0]];
    MagnitudeExactly(s);
    MagnitudeExactly(s[1..]);
    hide Trimmed, Magnitude, DigitGroups, GroupsValue;
  }

  /** Exactly which texts are numbers; around them there may be white space. */
  lemma NumberExactly(a: string, s: string, b: string)
    requires AllBlank(a) && AllBlank(b) && s != "" && !IsSpace(s[0]) && !IsSpace(s[|s| - 1])
    ensures Number(Some(a + s + b)) == SignedValue(s)
  {
    TrimmedPadded(a, s, b);
    SignRead(a + s + b, s);
  }

  /** White space alone is no number. */
  lemma {:induction false} BlankNumber(s: string)
    requires AllBlank(s)
    ensures Trimmed(s) == "" && Number(Some(s)) == None
  {
    if s != "" {
      BlankNumber(s[1..]);
    }
    MagnitudeExactly("");
    hide Magnitude;
  }

  function Rank(p: Priority): int {
    match Number(p)
    case None => 0
    case Some(n) => n
  }

  predicate IsScriptKey(key: string) {
    var parts := Split(key, '/');
    StartsWith(key, PREFIX) && |parts| > 3 && parts[3] == "script" && !(|parts| > 4 && parts[4] == "priority")
  }

  datatype Entry = Entry(priority: Priority, script: string)

  function PriorityOf(reg: Reg, key: string): Priority {
    if key + "/priority" in reg then Some(reg[key + "/priority"]) else None
  }

  function EntryOf(reg: Reg): string -> seq<Entry> {
    key => if key in reg && IsScriptKey(key) then [Entry(PriorityOf(reg, key), reg[key])] else []
  }

  function Entries(reg: Reg, keys: seq<string>): seq<Entry> {
    FlatMap(keys, EntryOf(reg))
  }

  /** The scripts of one priority, in order. */
  function Of(entries: seq<Entry>, p: Priority): seq<string> {
    if entries == [] then []
    else Of(entries[..|entries| - 1], p)
         + (if entries[|entries| - 1].priority == p then [entries[|entries| - 1].script] else [])
  }

  lemma {:induction false} OfAppend(a: seq<Entry>, b: seq<Entry>, p: Priority)
    ensures Of(a + b, p) == Of(a, p) + Of(b, p)
  {
    if b == [] {
      assert a + b == a;
    } else {
      OfAppend(a, b[..|b| - 1], p);
      assert (a + b)[..|a + b| - 1] == a + b[..|b| - 1];
    }
  }

  // ---------- buckets ----------

  datatype Bucket = Bucket(priority: Priority, scripts: seq<string>)

  predicate Distinct(buckets: seq<Bucket>) {
    forall i, j :: 0 <= i < j < |buckets| ==> buckets[i].priority != buckets[j].priority
  }

  function Find(buckets: seq<Bucket>, p: Priority): seq<string> {
    if buckets == [] then []
    else if buckets[0].priority == p then buckets[0].scripts
    else Find(buckets[1..], p)
  }

  function Put(buckets: seq<Bucket>, p: Priority, script: string): seq<Bucket> {
    if buckets == [] then [Bucket(p, [script])]
    else if buckets[0].priority == p then [Bucket(p, buckets[0].scripts + [script])] + buckets[1..]
    else [buckets[0]] + Put(buckets[1..], p, script)
  }

  predicate HasBucket(buckets: seq<Bucket>, p: Priority) {
    exists i :: 0 <= i < |buckets| && buckets[i].priority == p
  }

  lemma Has(buckets: seq<Bucket>)
    requires buckets != []
    ensures forall q :: HasBucket(buckets, q) <==> q == buckets[0].priority || HasBucket(buckets[1..], q)
  {
    forall q
      ensures HasBucket(buckets, q) <==> q == buckets[0].priority || HasBucket(buckets[1..], q)
    {
      if i :| 0 <= i < |buckets| && buckets[i].priority == q {
        if i > 0 { assert buckets[1..][i - 1].priority == q; }
      }
      if i :| 0 <= i < |buckets[1..]| && buckets[1..][i].priority == q {
        assert buckets[i + 1].priority == q;
      }
    }
  }

  lemma {:induction false} PutHas(buckets: seq<Bucket>, p: Priority, script: string, q: Priority)
    ensures HasBucket(Put(buckets, p, script), q) <==> HasBucket(buckets, q) || q == p
  {
    var r := Put(buckets, p, script);
    Has(r);
    if buckets == [] {
    } else {
      Has(buckets);
      if buckets[0].priority == p {
        assert r[1..] == buckets[1..];
      } else {
        PutHas(buckets[1..], p, script, q);
        assert r[1..] == Put(buckets[1..], p, script);
      }
    }
  }

  lemma {:induction false} PutFinds(buckets: seq<Bucket>, p: Priority, script: string, q: Priority)
    requires Distinct(buckets)
    ensures Distinct(Put(buckets, p, script))
    ensures Find(Put(buckets, p, script), q) == Find(buckets, q) + (if q == p then [script] else [])
  {
    if buckets != [] && buckets[0].priority != p {
      PutFinds(buckets[1..], p, script, q);
      PutHas(buckets[1..], p, script, buckets[0].priority);
      var rest := Put(buckets[1..], p, script);
      assert !HasBucket(buckets[1..], buckets[0].priority);
      assert !HasBucket(rest, buckets[0].priority);
      assert Put(buckets, p, script) == [buckets[0]] + rest;
    }
  }

  function BucketEntries(b: Bucket): seq<Entry> {
    seq(|b.scripts|, i requires 0 <= i < |b.scripts| => Entry(b.priority, b.scripts[i]))
  }

  function Flat(buckets: seq<Bucket>): seq<Entry> {
    if buckets == [] then [] else BucketEntries(buckets[0]) + Flat(buckets[1..])
  }

  lemma {:induction false} OfBucket(p: Priority, scripts: seq<string>, q: Priority)
    ensures Of(BucketEntries(Bucket(p, scripts)), q) == if q == p then scripts else []
  {
    var es := BucketEntries(Bucket(p, scripts));
    if scripts != [] {
      OfBucket(p, scripts[..|scripts| - 1], q);
      assert es[..|es| - 1] == BucketEntries(Bucket(p, scripts[..|scripts| - 1]));
    }
  }

  /** Printing the buckets one after the other gives each priority the scripts of its bucket. */
  lemma {:induction false} OfFlat(buckets: seq<Bucket>, p: Priority)
    requires Distinct(buckets)
    ensures Of(Flat(buckets), p) == Find(buckets, p)
  {
    if buckets != [] {
      var b := buckets[0];
      OfFlat(buckets[1..], p);
      OfBucket(b.priority, b.scripts, p);
      OfAppend(BucketEntries(b), Flat(buckets[1..]), p);
      if b.priority == p {
        NotFound(buckets[1..], p);
      }
    }
  }

  lemma {:induction false} NotFound(buckets: seq<Bucket>, p: Priority)
    requires forall i :: 0 <= i < |buckets| ==> buckets[i].priority != p
    ensures Find(buckets, p) == []
  {
    if buckets != [] {
      NotFound(buckets[1..], p);
    }
  }

  // ---------- sorting ----------

  predicate Numeric(buckets: seq<Bucket>) {
    forall i :: 0 <= i < |buckets| ==> Number(buckets[i].priority).Some?
  }

  predicate Ordered(buckets: seq<Bucket>) {
    forall i, j :: 0 <= i < j < |buckets| ==> Rank(buckets[i].priority) <= Rank(buckets[j].priority)
  }

  /** After all buckets of the same or a smaller number. */
  function InsertBucket(sorted: seq<Bucket>, b: Bucket): (r: seq<Bucket>)
    ensures multiset(r) == multiset(sorted) + multiset{b}
  {
    if sorted == [] then [b]
    else
      var init, last := sorted[..|sorted| - 1], sorted[|sorted| - 1];
      assert sorted == init + [last];
      if Rank(last.priority) <= Rank(b.priority) then sorted + [b] else InsertBucket(init, b) + [last]
  }

  lemma InsertedOnes(sorted: seq<Bucket>, b: Bucket, i: nat)
    requires i < |InsertBucket(sorted, b)|
    ensures InsertBucket(sorted, b)[i] == b || InsertBucket(sorted, b)[i] in sorted
  {
    var r := InsertBucket(sorted, b);
    assert r[i] in multiset(r);
    hide InsertBucket, Rank;
    assert r[i] in multiset(sorted) + multiset{b};
  }

  lemma {:induction false} InsertOrdered(sorted: seq<Bucket>, b: Bucket)
    requires Ordered(sorted)
    ensures Ordered(InsertBucket(sorted, b))
  {
    hide Rank;
    if sorted != [] {
      var init, last := sorted[..|sorted| - 1], sorted[|sorted| - 1];
      if Rank(last.priority) > Rank(b.priority) {
        InsertOrdered(init, b);
        var r := InsertBucket(init, b);
        forall i: nat | i < |r|
          ensures Rank(r[i].priority) <= Rank(last.priority)
        {
          InsertedOnes(init, b, i);
        }
      }
    }
  }

  lemma {:induction false} InsertFinds(sorted: seq<Bucket>, b: Bucket, q: Priority)
    requires Distinct(sorted) && !HasBucket(sorted, b.priority)
    ensures Distinct(InsertBucket(sorted, b))
    ensures Find(InsertBucket(sorted, b), q) == if q == b.priority then b.scripts else Find(sorted, q)
  {
    hide Rank, Find;
    if sorted == [] {
      FindAppend([], b, q);
      assert [] + [b] == [b];
    } else {
      var init, last := sorted[..|sorted| - 1], sorted[|sorted| - 1];
      assert sorted == init + [last];
      if Rank(last.priority) <= Rank(b.priority) {
        FindAppend(sorted, b, q);
      } else {
        var r := InsertBucket(init, b);
        InsertFinds(init, b, q);
        forall i: nat | i < |r|
          ensures r[i].priority != last.priority
        {
          InsertedOnes(init, b, i);
        }
        FindAppend(r, last, q);
        FindAppend(init, last, q);
      }
    }
  }

  lemma {:induction false} FindAppend(buckets: seq<Bucket>, b: Bucket, q: Priority)
    requires !HasBucket(buckets, b.priority)
    ensures Find(buckets + [b], q) == if q == b.priority then b.scripts else Find(buckets, q)
  {
    if buckets != [] {
      assert (buckets + [b])[1..] == buckets[1..] + [b];
      assert buckets[0].priority != b.priority;
      FindAppend(buckets[1..], b, q);
    }
  }

  // ---------- the loops ----------

  method Collect(reg: Reg, keys: seq<string>) returns (buckets: seq<Bucket>)
    requires IsEnumeration(keys, reg)
    ensures Distinct(buckets)
    ensures forall p :: Find(buckets, p) == Of(Entries(reg, keys), p)
    ensures forall p :: HasBucket(buckets, p) <==> IsPriority(Entries(reg, keys), p)
  {
    hide IsScriptKey;
    buckets := [];
    for i := 0 to |keys|
      invariant Distinct(buckets)
      invariant forall p :: Find(buckets, p) == Of(Entries(reg, keys[..i]), p)
      invariant forall p :: HasBucket(buckets, p) <==> IsPriority(Entries(reg, keys[..i]), p)
    {
      var key := keys[i];
      FlatMapStep(keys, i, EntryOf(reg));
      if IsScriptKey(key) {
        var priority := PriorityOf(reg, key);
        MorePriorities(Entries(reg, keys[..i]), Entry(priority, reg[key]));
        forall p
          ensures Find(Put(buckets, priority, reg[key]), p) == Of(Entries(reg, keys[..i + 1]), p)
          ensures HasBucket(Put(buckets, priority, reg[key]), p) <==> HasBucket(buckets, p) || p == priority
        {
          PutFinds(buckets, priority, reg[key], p);
          PutHas(buckets, priority, reg[key], p);
          OfAppend(Entries(reg, keys[..i]), [Entry(priority, reg[key])], p);
        }
        PutFinds(buckets, priority, reg[key], priority);
        buckets := Put(buckets, priority, reg[key]);
      } else {
        assert Entries(reg, keys[..i + 1]) == Entries(reg, keys[..i]);
      }
    }
    assert keys[..|keys|] == keys;
  }

  predicate IsPriority(entries: seq<Entry>, p: Priority) {
    exists i :: 0 <= i < |entries| && entries[i].priority == p
  }

  lemma MorePriorities(entries: seq<Entry>, e: Entry)
    ensures forall p :: IsPriority(entries + [e], p) <==> IsPriority(entries, p) || p == e.priority
  {
    forall p
      ensures IsPriority(entries + [e], p) <==> IsPriority(entries, p) || p == e.priority
    {
      if i :| 0 <= i < |entries| && entries[i].priority == p { assert (entries + [e])[i].priority == p; }
      if p == e.priority { assert (entries + [e])[|entries|].priority == p; }
    }
  }

  method Sort(buckets: seq<Bucket>) returns (sorted: seq<Bucket>)
    requires Distinct(buckets)
    ensures Distinct(sorted) && Ordered(sorted) && multiset(sorted) == multiset(buckets)
    ensures forall p :: Find(sorted, p) == Find(buckets, p)
  {
    hide Rank;
    sorted := [];
    for i := 0 to |buckets|
      invariant Distinct(sorted) && Ordered(sorted)
      invariant multiset(sorted) == multiset(buckets[..i])
      invariant forall p :: Find(sorted, p) == Find(buckets[..i], p)
    {
      var b := buckets[i];
      assert buckets[..i + 1] == buckets[..i] + [b];
      Fresh(sorted, buckets, i);
      forall p
        ensures Find(InsertBucket(sorted, b), p) == Find(buckets[..i + 1], p)
      {
        InsertFinds(sorted, b, p);
        FindAppend(buckets[..i], b, p);
      }
      InsertFinds(sorted, b, b.priority);
      InsertOrdered(sorted, b);
      sorted := InsertBucket(sorted, b);
    }
    assert buckets[..|buckets|] == buckets;
  }

  lemma Fresh(sorted: seq<Bucket>, buckets: seq<Bucket>, i: nat)
    requires Distinct(buckets) && i < |buckets| && multiset(sorted) == multiset(buckets[..i])
    ensures !HasBucket(sorted, buckets[i].priority) && !HasBucket(buckets[..i], buckets[i].priority)
  {
    forall k | 0 <= k < |sorted|
      ensures sorted[k].priority != buckets[i].priority
    {
      assert sorted[k] in multiset(sorted);
      assert sorted[k] in multiset(buckets[..i]);
      var j :| 0 <= j < |buckets[..i]| && buckets[..i][j] == sorted[k];
    }
  }

  // ---------- printing ----------

  datatype Command = Run(script: string) | RunVbs(script: string)

  function Commands(e: Entry): seq<Command> {
    if EndsWith(e.script, ".cmd") || EndsWith(e.script, ".bat") then [Run(e.script)]
    else if EndsWith(e.script, ".vbs") then [RunVbs(e.script)]
    else []
  }

  ghost predicate InOrder(entries: seq<Entry>) {
    && (forall i :: 0 <= i < |entries| ==> Number(entries[i].priority).Some?)
    && (forall i, j :: 0 <= i < j < |entries| ==> Rank(entries[i].priority) <= Rank(entries[j].priority))
  }

  /** The same scripts, those of each priority in the same order. */
  ghost predicate Rearranges(a: seq<Entry>, b: seq<Entry>) {
    forall p :: Of(a, p) == Of(b, p)
  }

  lemma {:induction false} FlatInOrder(buckets: seq<Bucket>)
    requires Numeric(buckets) && Ordered(buckets)
    ensures InOrder(Flat(buckets))
    ensures forall i :: 0 <= i < |Flat(buckets)| ==> HasBucket(buckets, Flat(buckets)[i].priority)
  {
    hide Number, Rank;
    if buckets != [] {
      FlatInOrder(buckets[1..]);
      Has(buckets);
      var first, rest := BucketEntries(buckets[0]), Flat(buckets[1..]);
      forall i, j | 0 <= i < |first| && 0 <= j < |rest|
        ensures Rank(first[i].priority) <= Rank(rest[j].priority)
      {
        var k :| 0 <= k < |buckets[1..]| && buckets[1..][k].priority == rest[j].priority;
        assert buckets[k + 1].priority == rest[j].priority;
      }
      assert Flat(buckets) == first + rest;
    }
  }

  /** Each script of the registry is printed exactly once if it can be run, in order of priority, and scripts of
      the same priority in the order of their keys. A priority that is no number stops the printing. */
  method PrintScripts(reg: Reg, keys: seq<string>) returns (ok: bool, commands: seq<Command>, ghost printed: seq<Entry>)
    requires IsEnumeration(keys, reg)
    ensures ok <==> forall i :: 0 <= i < |Entries(reg, keys)| ==> Number(Entries(reg, keys)[i].priority).Some?
    ensures ok ==> Rearranges(printed, Entries(reg, keys)) && InOrder(printed) && commands == FlatMap(printed, Commands)
  {
    hide Number, Rank, IsScriptKey, Entries, Commands;
    commands, printed := [], [];
    var buckets := Collect(reg, keys);
    var k := 0;
    ok := true;
    while k < |buckets| && ok
      invariant 0 <= k <= |buckets|
      invariant ok ==> forall j :: 0 <= j < k ==> Number(buckets[j].priority).Some?
      invariant !ok ==> exists j :: 0 <= j < |buckets| && Number(buckets[j].priority).None?
    {
      if Number(buckets[k].priority).None? {
        ok := false;
      }
      k := k + 1;
    }
    NumbersOf(buckets, Entries(reg, keys));
    if !ok {
      return;
    }
    var sorted := Sort(buckets);
    assert forall i :: 0 <= i < |sorted| ==> sorted[i] in multiset(sorted);
    assert forall i :: 0 <= i < |sorted| ==> sorted[i] in multiset(buckets);
    printed := Flat(sorted);
    forall p
      ensures Of(printed, p) == Of(Entries(reg, keys), p)
    {
      OfFlat(sorted, p);
    }
    FlatInOrder(sorted);
    commands := PrintAll(sorted);
  }

  lemma NumbersOf(buckets: seq<Bucket>, entries: seq<Entry>)
    requires forall p :: HasBucket(buckets, p) <==> IsPriority(entries, p)
    ensures Numeric(buckets) <==> forall i :: 0 <= i < |entries| ==> Number(entries[i].priority).Some?
  {
    hide Number;
    if Numeric(buckets) {
      forall i | 0 <= i < |entries|
        ensures Number(entries[i].priority).Some?
      {
        assert IsPriority(entries, entries[i].priority);
        var j :| 0 <= j < |buckets| && buckets[j].priority == entries[i].priority;
      }
    } else {
      var j :| 0 <= j < |buckets| && Number(buckets[j].priority).None?;
      assert HasBucket(buckets, buckets[j].priority);
    }
  }

  method PrintAll(buckets: seq<Bucket>) returns (commands: seq<Command>)
    ensures commands == FlatMap(Flat(buckets), Commands)
  {
    hide Commands;
    commands := [];
    for i := 0 to |buckets|
      invariant FlatMap(Flat(buckets), Commands) == commands + FlatMap(Flat(buckets[i..]), Commands)
    {
      var printed := PrintBucket(buckets[i]);
      assert buckets[i..][1..] == buckets[i + 1..];
      FlatMapAppend(BucketEntries(buckets[i]), Flat(buckets[i + 1..]), Commands);
      commands := commands + printed;
    }
  }

  method PrintBucket(b: Bucket) returns (commands: seq<Command>)
    ensures commands == FlatMap(BucketEntries(b), Commands)
  {
    commands := [];
    ghost var es := BucketEntries(b);
    for i := 0 to |b.scripts|
      invariant commands == FlatMap(es[..i], Commands)
    {
      FlatMapStep(es, i, Commands);
      var script := b.scripts[i];
      if EndsWith(script, ".cmd") || EndsWith(script, ".bat") {
        commands := commands + [Run(script)];
      } else if EndsWith(script, ".vbs") {
        commands := commands + [RunVbs(script)];
      }
    }
    assert es[..|es|] == es;
  }

  // ---------- the same, written out ----------

  /** The key of a package's script, or one below it that is not its priority. */
  predicate ScriptKey(key: string, package: string) {
    var base := "ucsschool/netlogon/" + package + "/script";
    && '/' !in package
    && (key == base || (base + "/" <= key && key != base + "/priority" && !(base + "/priority/" <= key)))
  }

  /** The part of the key behind the package's name. */
  predicate ScriptTail(t: string) {
    t == "script" || ("script/" <= t && t != "script/priority" && !("script/priority/" <= t))
  }

  lemma TailExactly(t: string)
    ensures var q := Split(t, '/');
      q[0] == "script" && !(|q| > 1 && q[1] == "priority") <==> ScriptTail(t)
  {
    hide Split;
    assert "script/" <= t ==> t[6] == '/' && t[6] in t;
    FirstPiece(t, "script");
    if '/' in t {
      var k := FirstSeparator(t, '/');
      var a, b := t[..k], t[k + 1..];
      assert t == a + ['/'] + b;
      SplitFirst(a, b, '/');
      FirstPiece(b, "priority");
      if a == "script" {
        SlashTail(t, b);
      }
    } else {
      SplitOne(t, '/');
    }
  }

  lemma SlashTail(t: string, b: string)
    requires t == "script" + ['/'] + b
    ensures "script/" <= t && t != "script"
    ensures t == "script/priority" <==> b == "priority"
    ensures "script/priority/" <= t <==> "priority" <= b && |b| > 8 && b[8] == '/'
  {
    assert t == "script/" + b && "script/" + "priority" == "script/priority"
      && "script/" + "priority/" == "script/priority/";
    Cancel("script/", b, "priority");
    PrefixCancel("script/", "priority/", b);
    assert "priority/" <= b <==> "priority" <= b && |b| > 8 && b[8] == '/' by {
      if "priority" <= b && |b| > 8 && b[8] == '/' {
        assert b[..9] == b[..8] + [b[8]] && b[..8] == "priority";
      }
    }
  }

  lemma TailOfKey(package: string, t: string)
    requires '/' !in package
    ensures Split(PREFIX + package + "/" + t, '/') == ["ucsschool", "netlogon", package] + Split(t, '/')
    ensures StartsWith(PREFIX + package + "/" + t, PREFIX)
  {
    hide Split;
    var key := PREFIX + package + "/" + t;
    assert key == "ucsschool" + "/" + "netlogon" + "/" + package + "/" + t;
    ThreeSegments("ucsschool", "netlogon", package, t);
    assert key == PREFIX + (package + "/" + t);
  }

  lemma KeyOfTail(package: string, t: string)
    requires '/' !in package
    ensures ScriptKey(PREFIX + package + "/" + t, package) <==> ScriptTail(t)
  {
    var base, key := PREFIX + package + "/script", PREFIX + package + "/" + t;
    var front := PREFIX + package + "/";
    assert base == front + "script" && key == front + t;
    assert base + "/" == front + "script/" && base + "/priority" == front + "script/priority"
      && base + "/priority/" == front + "script/priority/";
    Cancel(front, t, "script");
    Cancel(front, t, "script/priority");
    PrefixCancel(front, "script/", t);
    PrefixCancel(front, "script/priority/", t);
  }

  lemma KeyHasTail(key: string, package: string) returns (t: string)
    requires ScriptKey(key, package)
    ensures key == PREFIX + package + "/" + t
  {
    var base, front := PREFIX + package + "/script", PREFIX + package + "/";
    assert base == front + "script" && base + "/" == front + "script/";
    assert front <= key by {
      assert (front + "script")[..|front|] == front && (front + "script/")[..|front|] == front;
    }
    t := key[|front|..];
  }

  /** Which keys hold a script. */
  lemma ScriptKeyExactly(key: string)
    ensures IsScriptKey(key) <==> exists package :: ScriptKey(key, package)
  {
    hide Split, ScriptKey, ScriptTail;
    if package :| ScriptKey(key, package) {
      var t := KeyHasTail(key, package);
      NoSlash(key, package);
      TailOfKey(package, t);
      KeyOfTail(package, t);
      TailExactly(t);
      assert Split(key, '/')[3..] == Split(t, '/');
    }
    if IsScriptKey(key) {
      var package, t := PackageOf(key);
      TailOfKey(package, t);
      KeyOfTail(package, t);
      TailExactly(t);
      assert Split(key, '/')[3..] == Split(t, '/');
    }
  }

  lemma NoSlash(key: string, package: string)
    requires ScriptKey(key, package)
    ensures '/' !in package
  {
  }

  lemma PackageOf(key: string) returns (package: string, t: string)
    requires StartsWith(key, PREFIX) && |Split(key, '/')| > 3
    ensures '/' !in package && key == PREFIX + package + "/" + t
  {
    hide Split;
    var rest := key[|PREFIX|..];
    assert key == PREFIX + rest;
    TwoFirst(rest);
    if '/' !in rest {
      SplitOne(rest, '/');
    }
    var k := FirstSeparator(rest, '/');
    package, t := rest[..k], rest[k + 1..];
    assert rest == package + "/" + t;
  }

  lemma TwoFirst(rest: string)
    ensures Split(PREFIX + rest, '/') == ["ucsschool", "netlogon"] + Split(rest, '/')
  {
    hide Split;
    assert PREFIX + rest == "ucsschool" + ['/'] + ("netlogon" + ['/'] + rest);
    SplitFirst("netlogon", rest, '/');
    SplitFirst("ucsschool", "netlogon" + ['/'] + rest, '/');
  }

  lemma {:induction false} OfIn(entries: seq<Entry>, p: Priority, script: string)
    ensures script in Of(entries, p) <==> Entry(p, script) in entries
  {
    if entries != [] {
      var init, last := entries[..|entries| - 1], entries[|entries| - 1];
      OfIn(init, p, script);
      assert entries == init + [last];
    }
  }

  /** What is printed are the scripts of the registry, each with the priority set below its key. */
  lemma PrintedExactly(reg: Reg, keys: seq<string>, printed: seq<Entry>, p: Priority, script: string)
    requires IsEnumeration(keys, reg) && Rearranges(printed, Entries(reg, keys))
    ensures Entry(p, script) in printed <==> exists key, package ::
      && key in reg && ScriptKey(key, package) && reg[key] == script
      && p == if key + "/priority" in reg then Some(reg[key + "/priority"]) else None
  {
    OfIn(printed, p, script);
    OfIn(Entries(reg, keys), p, script);
    FlatMapIn(keys, EntryOf(reg), Entry(p, script));
    forall key
      ensures IsScriptKey(key) <==> exists package :: ScriptKey(key, package)
    {
      ScriptKeyExactly(key);
    }
    hide Of, ScriptKey, IsScriptKey, FlatMap;
  }

  /** A script without a priority comes behind every script of a priority below the greatest machine number. */
  lemma MissingLast(entries: seq<Entry>, i: nat, j: nat, n: int)
    requires InOrder(entries) && i < |entries| && j < |entries|
    requires entries[i].priority == None
    requires entries[j].priority.Some? && Reads(entries[j].priority.value, n) && n < 9223372036854775807
    ensures j < i
  {
    assert Rank(entries[i].priority) == 9223372036854775807 && Rank(entries[j].priority) == n;
    hide Number, Rank;
  }

  /** Of two scripts the one with the smaller number comes first. */
  lemma SmallerFirst(entries: seq<Entry>, i: nat, j: nat, n: int, m: int)
    requires InOrder(entries) && i < |entries| && j < |entries| && n < m
    requires Number(entries[i].priority) == Some(m) && Number(entries[j].priority) == Some(n)
    ensures j < i
  {
    assert Rank(entries[i].priority) == m && Rank(entries[j].priority) == n;
    hide Number, Rank;
  }

  /** What is run for a script. */
  lemma CommandsExactly(priority: Priority, name: string)
    ensures Commands(Entry(priority, name + ".cmd")) == [Run(name + ".cmd")]
    ensures Commands(Entry(priority, name + ".bat")) == [Run(name + ".bat")]
    ensures Commands(Entry(priority, name + ".vbs")) == [RunVbs(name + ".vbs")]
    ensures Commands(Entry(priority, name)) != [] ==>
      |name| >= 4 && (name[|name| - 4..] == ".cmd" || name[|name| - 4..] == ".bat" || name[|name| - 4..] == ".vbs")
  {
    Ending(name, ".cmd");
    Ending(name, ".bat");
    Ending(name, ".vbs");
    assert ".vbs"[1] == 'v' && ".cmd"[1] == 'c' && ".bat"[1] == 'b';
  }

  lemma Ending(name: string, ending: string)
    ensures (name + ending)[|name + ending| - |ending|..] == ending
  {
  }
}
