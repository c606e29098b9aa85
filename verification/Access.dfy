/** How printed access blocks decide: pass lists, and looking up sources and blocks. */
module Access {
  import opened Text
  import opened SquidGuard
  import opened Printing
  import opened Compiler

  // ---------- pass lists ----------

  /** What a rule type means, given whether the request is on the rule's white list, on its black list and
      on the global black list. */
  predicate Passes(filterType: string, forced: bool, white: bool, black: bool, global: bool) {
    if filterType == WBP then (white && !(forced && global)) || (!white && !black && !global)
    else if filterType == WB then white && !(forced && global)
    else !black && !global
  }

  predicate KnownType(filterType: string) {
    filterType == WBP || filterType == WB || filterType == BP
  }

  function Verdict(passes: bool): Decision {
    if passes then Pass else Block
  }

  lemma EvaluateNot(name: string, rest: seq<string>, hit: string -> bool)
    ensures Evaluate(["!" + name] + rest, hit) == if hit(name) then Block else Evaluate(rest, hit)
  {
    var pass := ["!" + name] + rest;
    assert pass[0][0] == '!' && pass[0][1..] == name && pass[1..] == rest;
    assert pass[0] != "all" && pass[0] != "none";
  }

  lemma EvaluateYes(name: string, rest: seq<string>, hit: string -> bool)
    requires name != "" && name[0] == 'w'
    ensures Evaluate([name] + rest, hit) == if hit(name) then Pass else Evaluate(rest, hit)
  {
    var pass := [name] + rest;
    assert pass[0] == name && pass[1..] == rest;
    assert name != "all" && name != "none";
  }

  lemma EvaluateEnd(hit: string -> bool)
    ensures Evaluate(["all"], hit) == Pass && Evaluate(["none"], hit) == Block
  {
  }

  lemma EvaluateWhite(filterType: string, name: string, forced: bool, hit: string -> bool)
    requires filterType == WBP || filterType == WB
    ensures Evaluate(WhitePass(filterType, name, forced), hit)
         == Verdict(Passes(filterType, forced, hit(White(name)), hit(Black(name)), hit(GLOBAL)))
  {
    EvaluateEnd(hit);
    var w := White(name);
    assert w[0] == 'w';
    var globalAll := ["!" + GLOBAL] + ["all"];
    EvaluateNot(GLOBAL, ["all"], hit);
    var tail := When(!forced, "!" + GLOBAL) + ["all"];
    assert tail == if forced then ["all"] else globalAll;
    EvaluateNot(Black(name), tail, hit);
    EvaluateYes(w, ["!" + Black(name)] + tail, hit);
    EvaluateYes(w, ["none"], hit);
    var body := if filterType == WBP then [w] + (["!" + Black(name)] + tail) else [w] + ["none"];
    EvaluateNot(GLOBAL, body, hit);
    assert WhitePass(filterType, name, forced) == if forced then ["!" + GLOBAL] + body else body;
  }

  /** Every printed pass list decides every request, by what its rule type means; the room form and the group
      form agree although one rule type lists its terms in a different order. */
  lemma PassListsAgree(filterType: string, name: string, forced: bool, hit: string -> bool)
    requires KnownType(filterType)
    ensures var verdict := Verdict(Passes(filterType, forced, hit(White(name)), hit(Black(name)), hit(GLOBAL)));
      && Evaluate(RoomPass(filterType, name, forced), hit) == verdict
      && Evaluate(GroupPass(filterType, name, forced), hit) == verdict
  {
    if filterType == BP {
      EvaluateEnd(hit);
      EvaluateNot(GLOBAL, ["all"], hit);
      EvaluateNot(Black(name), ["all"], hit);
      EvaluateNot(Black(name), ["!" + GLOBAL] + ["all"], hit);
      EvaluateNot(GLOBAL, ["!" + Black(name)] + ["all"], hit);
      assert RoomPass(filterType, name, forced) == ["!" + Black(name)] + (["!" + GLOBAL] + ["all"]);
      assert GroupPass(filterType, name, forced) == ["!" + GLOBAL] + (["!" + Black(name)] + ["all"]);
    } else {
      EvaluateWhite(filterType, name, forced, hit);
    }
  }

  /** Forced, the global black list wins over everything; not forced, only a white list passes a request on it. */
  lemma GlobalList(filterType: string, name: string, forced: bool, hit: string -> bool)
    requires KnownType(filterType) && hit(GLOBAL)
    ensures var room, group :=
      Evaluate(RoomPass(filterType, name, forced), hit), Evaluate(GroupPass(filterType, name, forced), hit);
      && (forced ==> room == group == Block)
      && (room == Pass || group == Pass ==> hit(White(name)) && filterType != BP)
  {
    PassListsAgree(filterType, name, forced, hit);
  }

  // ---------- sources ----------

  lemma {:induction false} FirstMatchAppend(files: Files, a: seq<Source>, b: seq<Source>, client: Client)
    ensures FirstMatch(files, a + b, client)
         == if FirstMatch(files, a, client).Some? then FirstMatch(files, a, client) else FirstMatch(files, b, client)
    decreases a
  {
    if a == [] {
      assert a + b == b;
    } else {
      assert (a + b)[1..] == a[1..] + b;
      hide Matches;
      FirstMatchAppend(files, a[1..], b, client);
    }
  }

  lemma {:induction false} FirstMatchIn(files: Files, a: seq<Source>, client: Client)
    ensures var m := FirstMatch(files, a, client);
      && (m.Some? ==> m.value in a && Matches(files, m.value, client))
      && (m.None? ==> forall s :: s in a ==> !Matches(files, s, client))
    decreases a
  {
    if a != [] {
      hide Matches;
      FirstMatchIn(files, a[1..], client);
      assert a == [a[0]] + a[1..];
    }
  }

  // ---------- blocks ----------

  lemma {:induction false} FindAclAppend(a: seq<Acl>, b: seq<Acl>, name: string)
    ensures FindAcl(a + b, name) == if FindAcl(a, name).Some? then FindAcl(a, name) else FindAcl(b, name)
    decreases a
  {
    if a == [] {
      assert a + b == b;
    } else {
      assert (a + b)[1..] == a[1..] + b;
      FindAclAppend(a[1..], b, name);
    }
  }

  lemma {:induction false} FindAclIn(a: seq<Acl>, name: string)
    ensures var m := FindAcl(a, name);
      && (m.Some? ==> m.value in a && m.value.name == name)
      && (m.None? ==> forall x :: x in a ==> x.name != name)
    decreases a
  {
    if a != [] {
      FindAclIn(a[1..], name);
      assert a == [a[0]] + a[1..];
    }
  }
}
