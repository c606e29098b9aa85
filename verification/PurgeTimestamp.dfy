/** The hook that keeps purge dates as plain dates in the user interface and as timestamps in the directory. */
module PurgeTimestamp {
  import opened Options
  import opened Text
  import opened Numbers

  datatype Date = Date(year: int, month: int, day: int)

  /** None stands for the ValueError of a text that is no date. */
  type Converted = Option<string>

  predicate Leap(year: int) {
    year % 4 == 0 && (year % 100 != 0 || year % 400 == 0)
  }

  function DaysIn(month: int, year: int): int {
    if month == 2 then if Leap(year) then 29 else 28
    else if month == 4 || month == 6 || month == 9 || month == 11 then 30
    else 31
  }

  predicate ValidDate(d: Date) {
    1 <= d.year <= 9999 && 1 <= d.month <= 12 && 1 <= d.day <= DaysIn(d.month, d.year)
  }

  // ---------- the two formats ----------

  /** The user format starts here; more text may follow. */
  predicate UdmShape(s: string) {
    |s| >= 10 && AllDigits(s[..4]) && s[4] == '-' && AllDigits(s[5..7]) && s[7] == '-' && AllDigits(s[8..10])
  }

  /** A month is read from one digit or two. */
  predicate MonthText(s: string) {
    1 <= |s| <= 2 && AllDigits(s)
  }

  /** A day is read from one digit or two, or from a blank and a digit. */
  predicate DayText(s: string) {
    MonthText(s) || (|s| == 2 && s[0] == ' ' && AllDigits(s[1..]))
  }

  function DayValue(s: string): nat
    requires DayText(s)
  {
    if MonthText(s) then ParseNat(s) else ParseNat(s[1..])
  }

  function ParseUdm(s: string): (d: Option<Date>)
    ensures d.Some? ==> ValidDate(d.value)
  {
    var parts := Split(s, '-');
    if |parts| == 3 && |parts[0]| == 4 && AllDigits(parts[0]) && MonthText(parts[1]) && DayText(parts[2]) then
      var d := Date(ParseNat(parts[0]), ParseNat(parts[1]), DayValue(parts[2]));
      if ValidDate(d) then Some(d) else None
    else None
  }

  function PrintUdm(d: Date): string
    requires ValidDate(d)
  {
    Numeral(d.year) + "-" + TwoDigits(d.month) + "-" + TwoDigits(d.day)
  }

  predicate LdapShape(s: string) {
    |s| == 15 && AllDigits(s[..14]) && s[14] == 'Z'
  }

  function ParseLdap(s: string): (d: Option<Date>)
    ensures d.Some? ==> ValidDate(d.value)
  {
    if LdapShape(s) then
      assert AllDigits(s[..4]) && AllDigits(s[4..6]) && AllDigits(s[6..8]) && AllDigits(s[8..10])
             && AllDigits(s[10..12]) && AllDigits(s[12..14]) by {
        Slices(s);
      }
      var d := Date(ParseNat(s[..4]), ParseNat(s[4..6]), ParseNat(s[6..8]));
      var time := ParseNat(s[8..10]) < 24 && ParseNat(s[10..12]) < 60 && ParseNat(s[12..14]) < 60;
      if ValidDate(d) && time then Some(d) else None
    else None
  }

  lemma Slices(s: string)
    requires LdapShape(s)
    ensures forall i, j :: 0 <= i <= j <= 14 ==> AllDigits(s[i..j])
  {
    forall i, j | 0 <= i <= j <= 14
      ensures AllDigits(s[i..j])
    {
      forall k | 0 <= k < j - i
        ensures IsDigit(s[i..j][k])
      {
        assert s[i..j][k] == s[..14][i + k];
      }
    }
  }

  function PrintLdap(d: Date): string
    requires ValidDate(d)
  {
    Numeral(d.year) + TwoDigits(d.month) + TwoDigits(d.day) + "000000Z"
  }

  function UdmToLdap(s: string): Converted {
    if s == "" then Some("")
    else match ParseUdm(s)
      case None => None
      case Some(d) => Some(PrintLdap(d))
  }

  function LdapToUdm(s: string): Converted {
    if s == "" then Some("")
    else match ParseLdap(s)
      case None => None
      case Some(d) => Some(PrintUdm(d))
  }

  // ---------- round trips ----------

  lemma YearKept(s: string)
    requires |s| == 4 && AllDigits(s) && 1000 <= ParseNat(s) <= 9999
    ensures Numeral(ParseNat(s)) == s
  {
    hide ParseNat, Numeral;
    ReadDigits(s);
    FourDigits(ParseNat(s));
    assert Zeros(0) + Numeral(ParseNat(s)) == Numeral(ParseNat(s));
  }

  /** The full user format: four, two and two digits. */
  predicate Canonical(s: string) {
    |s| == 10 && UdmShape(s)
  }

  lemma NoDash(s: string)
    requires AllDigits(s)
    ensures '-' !in s
  {
  }

  lemma CanonicalParts(s: string)
    requires Canonical(s)
    ensures Split(s, '-') == [s[..4], s[5..7], s[8..10]]
  {
    var y, m, d := s[..4], s[5..7], s[8..10];
    assert s == y + ['-'] + (m + ['-'] + d);
    NoDash(y);
    NoDash(m);
    NoDash(d);
    hide Split;
    SplitFirst(y, m + ['-'] + d, '-');
    SplitFirst(m, d, '-');
    SplitOne(d, '-');
  }

  lemma PrintedUdm(s: string)
    requires ParseUdm(s).Some? && ParseUdm(s).value.year >= 1000 && Canonical(s)
    ensures PrintUdm(ParseUdm(s).value) == s
  {
    assert ValidDate(ParseUdm(s).value);
    hide ParseNat, Numeral, TwoDigits, AllDigits, Split;
    CanonicalParts(s);
    YearKept(s[..4]);
    ReadTwo(s[5..7]);
    ReadTwo(s[8..10]);
    assert s == s[..4] + "-" + s[5..7] + "-" + s[8..10];
  }

  lemma PrintedCanonical(d: Date)
    requires ValidDate(d) && d.year >= 1000
    ensures Canonical(PrintUdm(d))
  {
    var s := PrintUdm(d);
    FourDigits(d.year);
    hide ParseNat, Numeral, ValidDate, TwoDigits;
    assert s[..4] == Numeral(d.year) && s[5..7] == TwoDigits(d.month) && s[8..10] == TwoDigits(d.day);
  }

  lemma ParsedLdap(d: Date)
    requires ValidDate(d) && d.year >= 1000
    ensures ParseLdap(PrintLdap(d)) == Some(d)
  {
    var s := PrintLdap(d);
    FourDigits(d.year);
    ParseNumeral(d.year);
    ParseTwo(d.month);
    ParseTwo(d.day);
    ParseTwo(0);
    assert TwoDigits(0) == "00";
    hide ParseNat, Numeral, ValidDate, TwoDigits;
    assert s[..4] == Numeral(d.year) && s[4..6] == TwoDigits(d.month) && s[6..8] == TwoDigits(d.day);
    assert s[8..10] == TwoDigits(0) && s[10..12] == TwoDigits(0) && s[12..14] == TwoDigits(0);
    assert s[..14] == s[..4] + s[4..6] + s[6..8] + s[8..10] + s[10..12] + s[12..14];
    assert LdapShape(s);
  }

  /** Years below 1000 are printed with fewer than four digits. */
  lemma ShortYear(d: Date)
    requires ValidDate(d) && d.year < 1000
    ensures |Numeral(d.year)| < 4
    ensures |PrintUdm(d)| < 10 && |PrintLdap(d)| < 15
  {
    FewDigits(d.year);
    hide ParseNat, Numeral;
  }

  /** So neither printed form can be read again. */
  lemma ShortYearUnread(d: Date)
    requires ValidDate(d) && d.year < 1000
    ensures ParseUdm(PrintUdm(d)) == None && ParseLdap(PrintLdap(d)) == None
  {
    ShortYear(d);
    var rest := TwoDigits(d.month) + "-" + TwoDigits(d.day);
    assert PrintUdm(d) == Numeral(d.year) + ['-'] + rest;
    NoDash(Numeral(d.year));
    hide Split, Numeral, TwoDigits, ParseNat;
    SplitFirst(Numeral(d.year), rest, '-');
  }

  /** A date a user entered comes back as it was entered if and only if it was entered in the full format and its year
      has four digits; a month or day of one digit comes back with two, and an earlier year is an error. */
  lemma DateSurvivesExactly(s: string)
    requires UdmToLdap(s).Some?
    ensures LdapToUdm(UdmToLdap(s).value) == Some(s) <==>
            s == "" || (Canonical(s) && ParseUdm(s).value.year >= 1000)
    ensures s != "" ==>
      var d := ParseUdm(s).value;
      LdapToUdm(UdmToLdap(s).value) == if d.year >= 1000 then Some(PrintUdm(d)) else None
  {
    hide ParseUdm, ParseLdap, PrintUdm, PrintLdap, UdmShape;
    if s != "" && ParseUdm(s).value.year < 1000 {
      ShortYearUnread(ParseUdm(s).value);
      PrintedNotEmpty(ParseUdm(s).value);
    } else if s != "" {
      var d := ParseUdm(s).value;
      ParsedLdap(d);
      PrintedCanonical(d);
      PrintedNotEmpty(d);
      if Canonical(s) {
        PrintedUdm(s);
      }
    }
  }

  lemma PrintedNotEmpty(d: Date)
    requires ValidDate(d)
    ensures PrintLdap(d) != "" && PrintUdm(d) != ""
  {
  }

  lemma ParsedUdm(d: Date)
    requires ValidDate(d) && d.year >= 1000
    ensures ParseUdm(PrintUdm(d)) == Some(d)
  {
    var s := PrintUdm(d);
    PrintedCanonical(d);
    CanonicalParts(s);
    FourDigits(d.year);
    ParseNumeral(d.year);
    ParseTwo(d.month);
    ParseTwo(d.day);
    hide ParseNat, Numeral, ValidDate, TwoDigits, Split, UdmShape;
    assert s[..4] == Numeral(d.year) && s[5..7] == TwoDigits(d.month) && s[8..10] == TwoDigits(d.day);
  }

  lemma PrintedLdap(s: string)
    requires ParseLdap(s).Some? && ParseLdap(s).value.year >= 1000
    ensures PrintLdap(ParseLdap(s).value) == s[..8] + "000000Z"
  {
    Slices(s);
    assert ValidDate(ParseLdap(s).value);
    hide ParseNat, Numeral, TwoDigits, AllDigits;
    YearKept(s[..4]);
    ReadTwo(s[4..6]);
    ReadTwo(s[6..8]);
    assert s[..8] == s[..4] + s[4..6] + s[6..8];
  }

  /** A timestamp of the directory comes back exactly when its time of day is midnight and its year has four
      digits. */
  lemma TimestampSurvivesExactly(s: string)
    requires LdapToUdm(s).Some? && s != ""
    ensures UdmToLdap(LdapToUdm(s).value) == Some(s) <==> s[8..] == "000000Z" && ParseLdap(s).value.year >= 1000
  {
    if ParseLdap(s).value.year < 1000 {
      hide ParseUdm, ParseLdap, PrintUdm, PrintLdap;
      ShortYearUnread(ParseLdap(s).value);
      PrintedNotEmpty(ParseLdap(s).value);
    } else {
      LateTimestamp(s);
    }
  }

  lemma LateTimestamp(s: string)
    requires LdapToUdm(s).Some? && s != "" && ParseLdap(s).value.year >= 1000
    ensures UdmToLdap(LdapToUdm(s).value) == Some(s) <==> s[8..] == "000000Z"
  {
    PrintedLdap(s);
    ParsedUdm(ParseLdap(s).value);
    PrintedNotEmpty(ParseLdap(s).value);
    assert LdapShape(s);
    hide ParseUdm, ParseLdap, PrintUdm, PrintLdap, LdapShape;
    var t := s[..8] + "000000Z";
    assert t[8..] == "000000Z" && s == s[..8] + s[8..];
  }

  // ---------- the list of changes ----------

  const PURGE := "ucsschoolPurgeTimestamp"

  /** An entry of an add list has one value, one of a modify list two. */
  datatype Item = Adding(attr: string, value: string) | Changing(attr: string, before: string, value: string)

  predicate IsPurge(item: Item) {
    item.attr == PURGE
  }

  /** The entry that takes the place of a purge entry; None when a value is no date. */
  function Replacement(item: Item): Option<Item> {
    var before := if item.Adding? then "" else item.before;
    match UdmToLdap(item.value)
    case None => None
    case Some(value) =>
      if UdmShape(before) then
        match UdmToLdap(before)
        case None => None
        case Some(b) => Some(Changing(PURGE, b, value))
      else Some(Changing(PURGE, before, value))
  }

  function Purges(items: seq<Item>): seq<Item> {
    if items == [] then []
    else (if IsPurge(items[0]) then [items[0]] else []) + Purges(items[1..])
  }

  function Others(items: seq<Item>): seq<Item> {
    if items == [] then []
    else (if IsPurge(items[0]) then [] else [items[0]]) + Others(items[1..])
  }

  /** The list without its first n purge entries. */
  function Without(items: seq<Item>, n: nat): seq<Item> {
    if items == [] || n == 0 then items
    else if IsPurge(items[0]) then Without(items[1..], n - 1)
    else [items[0]] + Without(items[1..], n)
  }

  function RemoveFirst(items: seq<Item>, item: Item): seq<Item> {
    if items == [] then []
    else if items[0] == item then items[1..]
    else [items[0]] + RemoveFirst(items[1..], item)
  }

  lemma {:induction false} RemoveFirstAt(items: seq<Item>, item: Item, i: nat)
    requires i <= |items| && item !in items[..i] && (i < |items| ==> items[i] == item)
    ensures RemoveFirst(items, item) == if i < |items| then items[..i] + items[i + 1..] else items
  {
    if i > 0 {
      var rest := items[1..];
      assert items[..i][0] == items[0] && rest[..i - 1] == items[..i][1..];
      RemoveFirstAt(rest, item, i - 1);
      assert items == [items[0]] + rest;
      if i < |items| {
        assert [items[0]] + (rest[..i - 1] + rest[i..]) == items[..i] + items[i + 1..];
      }
    }
  }

  lemma {:induction false} RemoveNext(items: seq<Item>, n: nat, added: seq<Item>)
    requires n < |Purges(items)|
    ensures RemoveFirst(Without(items, n) + added, Purges(items)[n]) == Without(items, n + 1) + added
  {
    AllPurges(items, n);
    hide IsPurge;
    var item, rest := Purges(items)[n], Without(items, n) + added;
    if !IsPurge(items[0]) {
      RemoveNext(items[1..], n, added);
      assert Without(items, n) == [items[0]] + Without(items[1..], n);
      assert rest[0] == items[0] != item && rest[1..] == Without(items[1..], n) + added;
      assert RemoveFirst(rest, item) == [items[0]] + (Without(items[1..], n + 1) + added);
    } else if n == 0 {
      assert rest[0] == item && rest[1..] == items[1..] + added;
    } else {
      RemoveNext(items[1..], n - 1, added);
    }
  }

  lemma {:induction false} AllPurges(items: seq<Item>, n: nat)
    requires n < |Purges(items)|
    ensures IsPurge(Purges(items)[n])
  {
    if IsPurge(items[0]) {
      if n > 0 { AllPurges(items[1..], n - 1); }
    } else {
      AllPurges(items[1..], n);
    }
  }

  lemma {:induction false} WithoutAll(items: seq<Item>)
    ensures Without(items, |Purges(items)|) == Others(items)
  {
    if items != [] {
      WithoutAll(items[1..]);
      if !IsPurge(items[0]) && |Purges(items)| == 0 {
        assert items[1..] == Others(items[1..]);
      }
    }
  }

  method CollectPurges(items: seq<Item>) returns (purges: seq<Item>)
    ensures purges == Purges(items)
  {
    purges := [];
    for i := 0 to |items|
      invariant purges + Purges(items[i..]) == Purges(items)
    {
      assert items[i..][1..] == items[i + 1..];
      if IsPurge(items[i]) {
        purges := purges + [items[i]];
      }
    }
  }

  predicate AllDates(purges: seq<Item>) {
    forall i :: 0 <= i < |purges| ==> Replacement(purges[i]).Some?
  }

  /** The other entries in their order, then the replacements in the order of the purge entries. */
  ghost predicate Swapped(was: seq<Item>, now: seq<Item>) {
    exists added :: now == Others(was) + added && Replaces(Purges(was), added)
  }

  ghost predicate Replaces(purges: seq<Item>, added: seq<Item>) {
    |added| == |purges| && forall i :: 0 <= i < |purges| ==> Some(added[i]) == Replacement(purges[i])
  }

  class ChangeList {
    var items: seq<Item>

    constructor (items: seq<Item>)
      ensures this.items == items
    {
      this.items := items;
    }

    method Remove(item: Item)
      modifies this
      ensures items == RemoveFirst(old(items), item)
    {
      hide RemoveFirst;
      var i := 0;
      while i < |items| && items[i] != item
        invariant 0 <= i <= |items| && items == old(items) && item !in items[..i]
      {
        i := i + 1;
      }
      RemoveFirstAt(items, item, i);
      if i < |items| {
        items := items[..i] + items[i + 1..];
      }
    }

    /** Every purge entry is replaced by one with timestamps, at the end and in the entries' order; all others
        stay in their order. A value that is no date stops the conversion. */
    method ConvertTimestamps() returns (ok: bool)
      modifies this
      ensures ok <==> AllDates(Purges(old(items)))
      ensures ok ==> Swapped(old(items), items)
    {
      var purges := CollectPurges(items);
      ghost var was, added := items, [];
      for i := 0 to |purges|
        invariant items == Without(was, i) + added && |added| == i
        invariant forall j :: 0 <= j < i ==> Some(added[j]) == Replacement(purges[j])
      {
        var new_ := Replacement(purges[i]);
        if new_.None? {
          return false;
        }
        RemoveNext(was, i, added);
        Remove(purges[i]);
        items := items + [new_.value];
        added := added + [new_.value];
      }
      WithoutAll(was);
      assert Replaces(purges, added);
      return true;
    }
  }

  // ---------- what the entries become, written out ----------

  /** A day of the calendar. */
  predicate Calendar(year: int, month: int, day: int) {
    && 1 <= year <= 9999 && 1 <= month <= 12 && 1 <= day
    && day <= [31, 28, 31, 30, 31, 30, 31, 31, 30, 31, 30, 31][month - 1]
              + if month == 2 && (year % 400 == 0 || (year % 4 == 0 && year % 100 != 0)) then 1 else 0
  }

  lemma CalendarExactly(d: Date)
    ensures ValidDate(d) <==> Calendar(d.year, d.month, d.day)
  {
  }

  /** Four, two and two digits that name a day from the year 1000 on. */
  predicate DateText(y: string, m: string, d: string) {
    && |y| == 4 && |m| == 2 && |d| == 2 && AllDigits(y) && AllDigits(m) && AllDigits(d)
    && ParseNat(y) >= 1000 && Calendar(ParseNat(y), ParseNat(m), ParseNat(d))
  }

  lemma DigitsAppend(a: string, b: string)
    ensures AllDigits(a + b) <==> AllDigits(a) && AllDigits(b)
  {
    assert forall i :: 0 <= i < |b| ==> b[i] == (a + b)[|a| + i];
    assert forall i :: 0 <= i < |a| ==> a[i] == (a + b)[i];
  }

  lemma TimestampParts(date: string, time: string)
    requires |date| == 8 && |time| == 6
    ensures var t := date + time + "Z";
      && (LdapShape(t) <==> AllDigits(date) && AllDigits(time))
      && t[..4] == date[..4] && t[4..6] == date[4..6] && t[6..8] == date[6..8]
      && t[8..10] == time[..2] && t[10..12] == time[2..4] && t[12..14] == time[4..]
  {
    var t := date + time + "Z";
    assert t[..14] == date + time && t[14] == 'Z';
    DigitsAppend(date, time);
    hide AllDigits;
  }

  /** A time of day in six digits. */
  predicate TimeText(time: string) {
    && |time| == 6 && AllDigits(time[..2]) && AllDigits(time[2..4]) && AllDigits(time[4..])
    && ParseNat(time[..2]) < 24 && ParseNat(time[2..4]) < 60 && ParseNat(time[4..]) < 60
  }

  /** A day in eight digits. */
  predicate DayDigits(date: string) {
    && |date| == 8 && AllDigits(date[..4]) && AllDigits(date[4..6]) && AllDigits(date[6..])
    && Calendar(ParseNat(date[..4]), ParseNat(date[4..6]), ParseNat(date[6..]))
  }

  /** Exactly which timestamps are read: fourteen digits that name a day and a time of it, and a Z. */
  lemma TimestampRead(date: string, time: string)
    requires |date| == 8 && |time| == 6
    ensures ParseLdap(date + time + "Z").Some? <==> DayDigits(date) && TimeText(time)
  {
    var t := date + time + "Z";
    TimestampParts(date, time);
    AllOf(date, time);
    assert date[6..8] == date[6..] && time[4..6] == time[4..];
    if LdapShape(t) {
      CalendarExactly(Date(ParseNat(date[..4]), ParseNat(date[4..6]), ParseNat(date[6..])));
    }
    hide ParseNat, ValidDate, Calendar, AllDigits, LdapShape;
  }

  lemma AllOf(date: string, time: string)
    requires |date| == 8 && |time| == 6
    ensures AllDigits(date) <==> AllDigits(date[..4]) && AllDigits(date[4..6]) && AllDigits(date[6..])
    ensures AllDigits(time) <==> AllDigits(time[..2]) && AllDigits(time[2..4]) && AllDigits(time[4..])
  {
    assert date == date[..4] + (date[4..6] + date[6..]) && time == time[..2] + (time[2..4] + time[4..]);
    DigitsAppend(date[..4], date[4..6] + date[6..]);
    DigitsAppend(date[4..6], date[6..]);
    DigitsAppend(time[..2], time[2..4] + time[4..]);
    DigitsAppend(time[2..4], time[4..]);
    hide AllDigits;
  }

  /** Exactly which dates are read: three parts between dashes, four digits, one or two, and one or two, or a blank and
      one, that name a day. */
  lemma DateRead(y: string, m: string, d: string)
    requires '-' !in y && '-' !in m && '-' !in d
    ensures ParseUdm(y + "-" + m + "-" + d) ==
      if |y| == 4 && AllDigits(y) && MonthText(m) && DayText(d) && Calendar(ParseNat(y), ParseNat(m), DayValue(d))
      then Some(Date(ParseNat(y), ParseNat(m), DayValue(d))) else None
  {
    assert y + "-" + m + "-" + d == y + ['-'] + (m + ['-'] + d);
    hide Split, ParseNat, Calendar, ValidDate;
    SplitFirst(y, m + ['-'] + d, '-');
    SplitFirst(m, d, '-');
    SplitOne(d, '-');
    if AllDigits(y) && MonthText(m) && DayText(d) {
      CalendarExactly(Date(ParseNat(y), ParseNat(m), DayValue(d)));
    }
  }

  /** Text that starts like a date in the user's format. */
  lemma ShapeExactly(s: string)
    ensures UdmShape(s) <==>
      |s| >= 10 && s[4] == s[7] == '-' && forall i :: i in {0, 1, 2, 3, 5, 6, 8, 9} ==> '0' <= s[i] <= '9'
  {
    if |s| >= 10 {
      assert forall i :: 0 <= i < 4 ==> s[..4][i] == s[i];
      assert forall i :: 0 <= i < 2 ==> s[5..7][i] == s[i + 5] && s[8..10][i] == s[i + 8];
      assert AllDigits(s[..4]) <==> forall i :: 0 <= i < 4 ==> '0' <= s[i] <= '9';
      assert AllDigits(s[5..7]) <==> '0' <= s[5] <= '9' && '0' <= s[6] <= '9';
      assert AllDigits(s[8..10]) <==> '0' <= s[8] <= '9' && '0' <= s[9] <= '9';
    }
  }

  lemma DateParts(y: string, m: string, d: string)
    requires DateText(y, m, d)
    ensures var s := y + "-" + m + "-" + d;
      Canonical(s) && s[..4] == y && s[5..7] == m && s[8..10] == d && s != ""
  {
    hide ParseNat, Calendar;
  }

  /** A date becomes the timestamp of its midnight, with the same digits. */
  lemma DateWritten(y: string, m: string, d: string)
    requires DateText(y, m, d)
    ensures UdmToLdap(y + "-" + m + "-" + d) == Some(y + m + d + "000000Z")
  {
    var s, date := y + "-" + m + "-" + d, Date(ParseNat(y), ParseNat(m), ParseNat(d));
    CalendarExactly(date);
    DateParts(y, m, d);
    CanonicalParts(s);
    YearKept(y);
    ReadTwo(m);
    ReadTwo(d);
    hide ParseNat, Numeral, TwoDigits, ValidDate, Split, UdmShape, Calendar;
    assert ParseUdm(s) == Some(date);
    assert PrintLdap(date) == y + m + d + "000000Z";
  }

  /** An added value is written as a timestamp, with nothing removed. A changed one is, too, and the value that is
      removed is the timestamp again from which opening the object had made a date; any other value stays as it is. */
  lemma EntriesWritten(oy: string, om: string, od: string, y: string, m: string, d: string, before: string)
    requires DateText(oy, om, od) && DateText(y, m, d) && !UdmShape(before)
    ensures Replacement(Adding("ucsschoolPurgeTimestamp", y + "-" + m + "-" + d))
         == Some(Changing("ucsschoolPurgeTimestamp", "", y + m + d + "000000Z"))
    ensures Replacement(Changing("ucsschoolPurgeTimestamp", oy + "-" + om + "-" + od, y + "-" + m + "-" + d))
         == Some(Changing("ucsschoolPurgeTimestamp", oy + om + od + "000000Z", y + m + d + "000000Z"))
    ensures Replacement(Changing("ucsschoolPurgeTimestamp", before, y + "-" + m + "-" + d))
         == Some(Changing("ucsschoolPurgeTimestamp", before, y + m + d + "000000Z"))
  {
    DateWritten(oy, om, od);
    DateWritten(y, m, d);
    DateParts(oy, om, od);
    assert !UdmShape("");
    hide UdmToLdap, UdmShape, DateText;
  }

  // ---------- opening an object ----------

  /** An object whose value is not in the user format is converted when it is shown; then it is. */
  method Open(purge: Option<string>) returns (shown: Option<string>, ok: bool)
    ensures ok <==> purge.Some? && purge.value != "" && !UdmShape(purge.value) ==> LdapToUdm(purge.value).Some?
    ensures ok && purge.Some? && purge.value != "" && !UdmShape(purge.value) ==> shown == LdapToUdm(purge.value)
    ensures !ok || !(purge.Some? && purge.value != "" && !UdmShape(purge.value)) ==> shown == purge
  {
    shown, ok := purge, true;
    if purge.Some? && purge.value != "" && !UdmShape(purge.value) {
      var v := LdapToUdm(purge.value);
      if v.None? {
        return purge, false;
      }
      shown := v;
    }
  }

  /** A converted value is in the user format, so that opening again leaves it alone, exactly when its year has four
      digits. */
  lemma OpenedStays(s: string)
    requires LdapToUdm(s).Some? && s != ""
    ensures UdmShape(LdapToUdm(s).value) <==> ParseLdap(s).value.year >= 1000
  {
    var d := ParseLdap(s).value;
    if d.year >= 1000 {
      hide ParseLdap, PrintUdm, UdmShape;
      PrintedCanonical(d);
    } else {
      hide ParseLdap, PrintUdm;
      ShortYear(d);
    }
  }
}
