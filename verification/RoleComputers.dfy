/** The hook that completes the list of changes for a computer with its object class and its school roles. */
module RoleComputers {
  import opened Text

  datatype Operation = Add | Mod

  /** An entry of the list of changes. */
  datatype Change =
    | Adding(attr: string, values: seq<string>)
    | Modifying(attr: string, before: seq<string>, values: seq<string>)

  type Changes = seq<Change>

  const CLASS := "objectClass"
  const ROLE := "ucsschoolRole"
  const NO_SCHOOL := "-"
  const IGNORE := "ignore"
  const MEMBER := "member"

  /** What the module of the object prescribes: its class, and its role or what to do instead. */
  datatype Kind = Kind(class_: string, role: string)

  function RoleString(role: string, school: string): string {
    role + ":school:" + school
  }

  /** The values the list gives to an attribute. */
  function Given(aml: Changes, attr: string): set<string> {
    set i, v | 0 <= i < |aml| && aml[i].attr == attr && v in aml[i].values :: v
  }

  lemma GivenAppend(aml: Changes, c: Change, attr: string)
    ensures Given(aml + [c], attr) == Given(aml, attr) + (if c.attr == attr then set v | v in c.values else {})
  {
    var all := aml + [c];
    forall v
      ensures v in Given(all, attr) <==> v in Given(aml, attr) || (c.attr == attr && v in c.values)
    {
      if i :| 0 <= i < |all| && all[i].attr == attr && v in all[i].values {
        if i < |aml| { assert aml[i] == all[i]; }
      }
      if i :| 0 <= i < |aml| && aml[i].attr == attr && v in aml[i].values {
        assert all[i] == aml[i];
      }
      if c.attr == attr && v in c.values {
        assert all[|aml|] == c;
      }
    }
  }

  /** The names of schools that the object's distinguished name ends with. */
  function Around(dn: string, schools: map<string, string>): set<string> {
    set name | name in schools && EndsWith(dn, schools[name])
  }

  /** The schools an object belongs to: those of its property, the one it is located in, or none at all. */
  ghost predicate Belongs(dn: string, property: seq<string>, schools: map<string, string>, found: seq<string>) {
    if Around(dn, schools) == {} then found == if property == [] then [NO_SCHOOL] else property
    else exists name :: name in Around(dn, schools) && found == property + [name]
  }

  /** The object's name ends in that of the school. */
  predicate Under(dn: string, schools: map<string, string>, name: string) {
    name in schools && |schools[name]| <= |dn| && dn[|dn| - |schools[name]|..] == schools[name]
  }

  /** The schools of the property, and one that the object lies under; the mark when there is none at all. */
  ghost predicate Schools(dn: string, property: seq<string>, all: map<string, string>, found: seq<string>) {
    if exists name :: Under(dn, all, name) then exists name :: Under(dn, all, name) && found == property + [name]
    else found == if property == [] then ["-"] else property
  }

  lemma BelongsExactly(dn: string, property: seq<string>, all: map<string, string>, found: seq<string>)
    ensures Belongs(dn, property, all, found) <==> Schools(dn, property, all, found)
  {
    forall name
      ensures name in Around(dn, all) <==> Under(dn, all, name)
    {
    }
    hide Under, Around;
    if name :| name in Around(dn, all) {
      assert Under(dn, all, name);
    }
  }

  /** The roles the object has to have; a member server has one only if it belongs to no school. */
  function RequiredRoles(kind: Kind, memberRole: string, found: seq<string>): set<string> {
    if kind.role == IGNORE then {}
    else if kind.role == MEMBER then if found == [NO_SCHOOL] then {RoleString(memberRole, NO_SCHOOL)} else {}
    else set i | 0 <= i < |found| :: RoleString(kind.role, found[i])
  }

  /** The hook's object, with the list of schools that the hook extends in place. */
  class Computer {
    const kind: Kind
    const dn: string
    const classes: set<string>
    const roles: set<string>
    const hasSchools: bool
    var schools: seq<string>

    constructor (kind: Kind, dn: string, classes: set<string>, roles: set<string>, hasSchools: bool,
                 schools: seq<string>)
      ensures this.kind == kind && this.dn == dn && this.classes == classes && this.roles == roles
      ensures this.hasSchools == hasSchools && this.schools == schools
    {
      this.kind, this.dn, this.classes, this.roles, this.hasSchools, this.schools :=
        kind, dn, classes, roles, hasSchools, schools;
    }

    function Property(): seq<string>
      reads this
    {
      if hasSchools then schools else []
    }

    /** Appends to the object's own list of schools when the object has that property. */
    method GetSchools(all: map<string, string>) returns (found: seq<string>)
      modifies `schools
      ensures Belongs(dn, old(Property()), all, found)
      ensures Schools(dn, old(if hasSchools then schools else []), all, found)
      ensures schools == if hasSchools && Around(dn, all) != {} then found else old(schools)
    {
      hide Schools;
      ghost var before := Property();
      found := if hasSchools then schools else [];
      var todo := all.Keys;
      while todo != {}
        invariant todo <= all.Keys && Around(dn, all) <= todo
        invariant found == Property() && schools == old(schools)
      {
        var name :| name in todo;
        if EndsWith(dn, all[name]) {
          assert name in Around(dn, all);
          found := found + [name];
          if hasSchools {
            schools := found;
          }
          BelongsExactly(dn, before, all, found);
          return;
        }
        todo := todo - {name};
      }
      if found == [] {
        found := [NO_SCHOOL];
      }
      BelongsExactly(dn, before, all, found);
    }

    method Existing(aml: Changes) returns (classes: set<string>, roles: set<string>)
      ensures classes == this.classes + Given(aml, CLASS) && roles == this.roles + Given(aml, ROLE)
    {
      classes, roles := this.classes, this.roles;
      assert |CLASS| != |ROLE|;
      for i := 0 to |aml|
        invariant classes == this.classes + Given(aml[..i], CLASS) && roles == this.roles + Given(aml[..i], ROLE)
      {
        assert aml[..i + 1] == aml[..i] + [aml[i]];
        GivenAppend(aml[..i], aml[i], CLASS);
        GivenAppend(aml[..i], aml[i], ROLE);
        var values := set v | v in aml[i].values;
        if aml[i].attr == CLASS {
          classes := classes + values;
        } else if aml[i].attr == ROLE {
          roles := roles + values;
        }
      }
      assert aml[..|aml|] == aml;
    }

    /** Completes the list; what is in it stays in front. */
    method Complete(aml: Changes, all: map<string, string>, memberRole: string, op: Operation)
      returns (r: Changes, ghost found: seq<string>)
      modifies `schools
      ensures Belongs(dn, old(Property()), all, found)
      ensures Completes(this, found, memberRole, op, aml, r)
      ensures kind.role != IGNORE && hasSchools && Around(dn, all) != {} ==> schools == found
      ensures !(kind.role != IGNORE && hasSchools && Around(dn, all) != {}) ==> schools == old(schools)
    {
      hide Schools, Belongs;
      r := aml;
      if kind.role == IGNORE {
        found := SomeBelongs(dn, Property(), all);
        Completed(this, found, memberRole, op, aml, r, []);
        return;
      }
      var classes, roles := Existing(aml);
      if kind.class_ !in classes {
        r := r + [Entry(op, CLASS, [kind.class_])];
      }
      var schools := GetSchools(all);
      found := schools;
      var required: set<string>;
      if kind.role == MEMBER {
        if schools != [NO_SCHOOL] {
          Completed(this, found, memberRole, op, aml, r, []);
          return;
        }
        required := {RoleString(memberRole, NO_SCHOOL)};
      } else {
        required := set i | 0 <= i < |schools| :: RoleString(kind.role, schools[i]);
      }
      var missing := required - roles;
      assert required == RequiredRoles(kind, memberRole, found);
      assert missing == Missing(this, found, memberRole, aml);
      if missing != {} {
        var values := ToList(missing);
        r := r + [Entry(op, ROLE, values)];
        Completed(this, found, memberRole, op, aml, r, values);
      } else {
        Completed(this, found, memberRole, op, aml, r, []);
      }
    }
  }

  function Entry(op: Operation, attr: string, values: seq<string>): Change {
    if op == Add then Adding(attr, values) else Modifying(attr, [], values)
  }

  /** A set as a list, in any order, each element once. */
  method ToList(s: set<string>) returns (list: seq<string>)
    ensures NoDup(list) && forall x :: x in list <==> x in s
  {
    list := [];
    var todo := s;
    while todo != {}
      invariant forall x :: x in s <==> x in list || x in todo
      invariant NoDup(list) && forall x :: x in list ==> x !in todo
    {
      var x :| x in todo;
      list := list + [x];
      todo := todo - {x};
    }
  }

  lemma SomeBelongs(dn: string, property: seq<string>, all: map<string, string>) returns (found: seq<string>)
    ensures Belongs(dn, property, all, found)
  {
    if Around(dn, all) == {} {
      found := if property == [] then [NO_SCHOOL] else property;
    } else {
      var name :| name in Around(dn, all);
      found := property + [name];
    }
  }

  ghost function Missing(obj: Computer, found: seq<string>, memberRole: string, aml: Changes): set<string> {
    RequiredRoles(obj.kind, memberRole, found) - obj.roles - Given(aml, ROLE)
  }

  predicate Lacking(obj: Computer, aml: Changes) {
    obj.kind.role != IGNORE && obj.kind.class_ !in obj.classes + Given(aml, CLASS)
  }

  ghost predicate CompletesWith(obj: Computer, found: seq<string>, memberRole: string, op: Operation, aml: Changes,
                                r: Changes, values: seq<string>) {
    var missing := Missing(obj, found, memberRole, aml);
    && NoDup(values) && (forall v :: v in values <==> v in missing)
    && r == aml + (if Lacking(obj, aml) then [Entry(op, CLASS, [obj.kind.class_])] else [])
                + (if missing != {} then [Entry(op, ROLE, values)] else [])
  }

  /** The list is extended by at most one entry for the class and one for the roles, with just what was missing. */
  ghost predicate Completes(obj: Computer, found: seq<string>, memberRole: string, op: Operation, aml: Changes,
                            r: Changes) {
    exists values :: CompletesWith(obj, found, memberRole, op, aml, r, values)
  }

  lemma Completed(obj: Computer, found: seq<string>, memberRole: string, op: Operation, aml: Changes, r: Changes,
                  values: seq<string>)
    requires NoDup(values) && forall v :: v in values <==> v in Missing(obj, found, memberRole, aml)
    requires r == aml + (if Lacking(obj, aml) then [Entry(op, CLASS, [obj.kind.class_])] else [])
                  + (if values != [] then [Entry(op, ROLE, values)] else [])
    ensures Completes(obj, found, memberRole, op, aml, r)
  {
    hide NoDup, RequiredRoles, Given, Lacking;
    assert Missing(obj, found, memberRole, aml) != {} <==> values != [] by {
      hide Missing;
      if values != [] { assert values[0] in values; }
    }
    assert CompletesWith(obj, found, memberRole, op, aml, r, values);
  }

  // ---------- what the list does to the object ----------

  /** The object's class values and roles once the changes are made. */
  function ClassesAfter(obj: Computer, r: Changes): set<string> {
    obj.classes + Given(r, CLASS)
  }

  function RolesAfter(obj: Computer, r: Changes): set<string> {
    obj.roles + Given(r, ROLE)
  }

  lemma GivenCompleted(obj: Computer, found: seq<string>, memberRole: string, op: Operation, aml: Changes, r: Changes)
    requires Completes(obj, found, memberRole, op, aml, r)
    ensures Given(r, CLASS) == Given(aml, CLASS) + (if Lacking(obj, aml) then {obj.kind.class_} else {})
    ensures Given(r, ROLE) == Given(aml, ROLE) + Missing(obj, found, memberRole, aml)
  {
    var values :| CompletesWith(obj, found, memberRole, op, aml, r, values);
    assert |CLASS| != |ROLE|;
    hide Completes, Given, Lacking, Missing, NoDup;
    var missing := Missing(obj, found, memberRole, aml);
    var mid := aml + (if Lacking(obj, aml) then [Entry(op, CLASS, [obj.kind.class_])] else []);
    if Lacking(obj, aml) {
      GivenAppend(aml, Entry(op, CLASS, [obj.kind.class_]), CLASS);
      GivenAppend(aml, Entry(op, CLASS, [obj.kind.class_]), ROLE);
    } else {
      assert mid == aml;
    }
    if missing != {} {
      GivenAppend(mid, Entry(op, ROLE, values), CLASS);
      GivenAppend(mid, Entry(op, ROLE, values), ROLE);
      assert r == mid + [Entry(op, ROLE, values)];
    } else {
      assert r == mid;
    }
    assert (set v | v in [obj.kind.class_]) == {obj.kind.class_};
    assert missing != {} ==> (set v | v in values) == missing;
  }

  /** Applying the list gives the object its class and all required roles, and nothing else. */
  lemma AppliedExactly(obj: Computer, found: seq<string>, memberRole: string, op: Operation, aml: Changes, r: Changes)
    requires Completes(obj, found, memberRole, op, aml, r)
    ensures ClassesAfter(obj, r) == ClassesAfter(obj, aml) + (if obj.kind.role != IGNORE then {obj.kind.class_} else {})
    ensures RolesAfter(obj, r) == RolesAfter(obj, aml) + RequiredRoles(obj.kind, memberRole, found)
  {
    GivenCompleted(obj, found, memberRole, op, aml, r);
    hide Completes, Given, RequiredRoles;
  }

  // ---------- the same, written out ----------

  /** The object has to have this role. A member server has to only when it belongs to no school. */
  predicate HasToHave(kind: Kind, memberRole: string, found: seq<string>, role: string) {
    if kind.role == "ignore" then false
    else if kind.role == "member" then found == ["-"] && role == memberRole + ":school:" + "-"
    else exists i :: 0 <= i < |found| && role == kind.role + ":school:" + found[i]
  }

  lemma RequiredExactly(kind: Kind, memberRole: string, found: seq<string>, role: string)
    ensures role in RequiredRoles(kind, memberRole, found) <==> HasToHave(kind, memberRole, found, role)
  {
    assert |"ignore"| == |"member"| && "ignore"[0] != "member"[0];
    hide RoleString;
    assert RoleString(memberRole, NO_SCHOOL) == memberRole + ":school:" + "-" by { RoleExactly(memberRole, "-"); }
    forall i | 0 <= i < |found|
      ensures RoleString(kind.role, found[i]) == kind.role + ":school:" + found[i]
    {
      RoleExactly(kind.role, found[i]);
    }
  }

  lemma RoleExactly(role: string, school: string)
    ensures RoleString(role, school) == role + ":school:" + school
  {
  }

  /** The list gives this value to the attribute. */
  predicate Gives(aml: Changes, attr: string, v: string) {
    exists i :: 0 <= i < |aml| && aml[i].attr == attr && v in aml[i].values
  }

  /** Applying the completed list gives the object its class and the roles it has to have, and no other value that the
      list did not give already. */
  lemma AppliedPlainly(obj: Computer, found: seq<string>, memberRole: string, op: Operation, aml: Changes, r: Changes,
                       v: string)
    requires Completes(obj, found, memberRole, op, aml, r)
    ensures v in obj.classes || Gives(r, "objectClass", v) <==>
            v in obj.classes || Gives(aml, "objectClass", v) || (obj.kind.role != "ignore" && v == obj.kind.class_)
    ensures v in obj.roles || Gives(r, "ucsschoolRole", v) <==>
            v in obj.roles || Gives(aml, "ucsschoolRole", v) || HasToHave(obj.kind, memberRole, found, v)
  {
    AppliedExactly(obj, found, memberRole, op, aml, r);
    RequiredExactly(obj.kind, memberRole, found, v);
    assert forall list: Changes, attr :: v in Given(list, attr) <==> Gives(list, attr, v);
    hide Completes, RequiredRoles, HasToHave, Given, Gives;
  }

  /** The list is kept or extended by an entry for the class, one for these roles, or both in this order; an entry for
      a change has nothing to remove. */
  ghost predicate Extends(aml: Changes, r: Changes, op: Operation, name: string, values: seq<string>) {
    var class_ := if op == Add then Adding("objectClass", [name]) else Modifying("objectClass", [], [name]);
    var roles := if op == Add then Adding("ucsschoolRole", values) else Modifying("ucsschoolRole", [], values);
    r == aml || r == aml + [class_] || r == aml + [roles] || r == aml + [class_] + [roles]
  }

  lemma EntriesExactly(obj: Computer, found: seq<string>, memberRole: string, op: Operation, aml: Changes, r: Changes)
    requires Completes(obj, found, memberRole, op, aml, r)
    ensures exists values :: Extends(aml, r, op, obj.kind.class_, values)
  {
    var values :| CompletesWith(obj, found, memberRole, op, aml, r, values);
    hide Missing, Lacking, NoDup;
    assert aml + [] == aml;
    assert Extends(aml, r, op, obj.kind.class_, values);
  }

  /** Completing the completed list adds nothing, whatever schools the second call lists, as long as they are the
      same ones, and also when the first call was for the other operation. */
  lemma SecondCallAddsNothing(obj: Computer, found: seq<string>, again: seq<string>, memberRole: string, op: Operation,
                              op': Operation, aml: Changes, r: Changes, r': Changes)
    requires Completes(obj, found, memberRole, op, aml, r) && Completes(obj, again, memberRole, op', r, r')
    requires RequiredRoles(obj.kind, memberRole, again) == RequiredRoles(obj.kind, memberRole, found)
    ensures r' == r
  {
    GivenCompleted(obj, found, memberRole, op, aml, r);
    GivenCompleted(obj, again, memberRole, op', r, r');
    var values :| CompletesWith(obj, again, memberRole, op', r, r', values);
    hide Completes, Given, RequiredRoles, NoDup;
    assert Missing(obj, again, memberRole, r) == {} && !Lacking(obj, r);
  }

  /** The list that the first call leaves with the object names the same schools: a name that is appended twice
      counts once. No school is called like the mark for having none. */
  lemma SameSchoolsAgain(obj: Computer, dn: string, property: seq<string>, left: seq<string>, all: map<string, string>,
                         memberRole: string, found: seq<string>, again: seq<string>)
    requires Belongs(dn, property, all, found) && |Around(dn, all)| <= 1 && NO_SCHOOL !in all
    requires left == property || (Around(dn, all) != {} && left == found)
    requires Belongs(dn, left, all, again)
    ensures RequiredRoles(obj.kind, memberRole, again) == RequiredRoles(obj.kind, memberRole, found)
  {
    if Around(dn, all) != {} {
      var a :| a in Around(dn, all) && found == property + [a];
      var b :| b in Around(dn, all) && again == left + [b];
      Single(Around(dn, all), a, b);
      assert found[|found| - 1] == a && again[|again| - 1] == a && a != NO_SCHOOL;
      SameRoles(obj.kind.role, property, a);
    }
  }

  lemma SameRoles(role: string, property: seq<string>, a: string)
    ensures (set i | 0 <= i < |property + [a]| :: RoleString(role, (property + [a])[i]))
         == (set i | 0 <= i < |property + [a] + [a]| :: RoleString(role, (property + [a] + [a])[i]))
  {
    hide RoleString;
    var one, two := property + [a], property + [a] + [a];
    forall i | 0 <= i < |two|
      ensures exists j :: 0 <= j < |one| && one[j] == two[i]
    {
      if i < |one| { assert one[i] == two[i]; } else { assert one[|property|] == two[i]; }
    }
    forall i | 0 <= i < |one|
      ensures two[i] == one[i]
    {
    }
  }

  lemma Single<T>(s: set<T>, a: T, b: T)
    requires |s| <= 1 && a in s && b in s
    ensures a == b
  {
    assert |s - {a}| == |s| - 1;
    assert s - {a} == {};
  }

  // ---------- the school does not depend on the order ----------

  /** School entries lie directly under one base, each under its own name. */
  ghost predicate Organised(schools: map<string, string>, base: string) {
    forall name :: name in schools ==> schools[name] == "ou=" + name + "," + base && '=' !in name
  }

  lemma OneSchool(dn: string, schools: map<string, string>, base: string, a: string, b: string)
    requires Organised(schools, base) && a in Around(dn, schools) && b in Around(dn, schools)
    ensures a == b
  {
    if |a| <= |b| {
      SuffixSchool(dn, base, a, b);
    } else {
      SuffixSchool(dn, base, b, a);
    }
  }

  /** Two schools around one name: the shorter one's "=" would lie inside the longer one's name. */
  lemma SuffixSchool(dn: string, base: string, a: string, b: string)
    requires |a| <= |b| && '=' !in b
    requires EndsWith(dn, "ou=" + a + "," + base) && EndsWith(dn, "ou=" + b + "," + base)
    ensures a == b
  {
    var x, y := "ou=" + a + "," + base, "ou=" + b + "," + base;
    var shift := |b| - |a|;
    if shift > 0 {
      InName(b, base, shift);
    }
    assert x[2] == '=';
    assert dn[|dn| - |x|..] == x && dn[|dn| - |y|..] == y;
    assert dn[|dn| - |x| + 2] == x[2] && dn[|dn| - |y| + (shift + 2)] == y[shift + 2];
    if shift == 0 {
      assert x == y;
      assert x[3..3 + |a|] == a && y[3..3 + |b|] == b;
    }
  }

  lemma InName(b: string, base: string, shift: nat)
    requires 0 < shift <= |b|
    ensures ("ou=" + b + "," + base)[shift + 2] == b[shift - 1]
  {
  }

  /** So at most one school is around an object, and any order of the schools finds the same one. */
  lemma SchoolIndependentOfOrder(dn: string, property: seq<string>, schools: map<string, string>, base: string,
                                 found: seq<string>, other: seq<string>)
    requires Organised(schools, base)
    requires Belongs(dn, property, schools, found) && Belongs(dn, property, schools, other)
    ensures found == other && |Around(dn, schools)| <= 1
  {
    hide Organised, EndsWith;
    if Around(dn, schools) != {} {
      var a :| a in Around(dn, schools) && found == property + [a];
      forall b | b in Around(dn, schools)
        ensures b == a
      {
        OneSchool(dn, schools, base, a, b);
      }
      assert Around(dn, schools) == {a};
    }
  }
}
