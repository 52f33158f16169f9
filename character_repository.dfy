/** The in-memory character store
    (src/infrastructure/repositories/in-memory-character-repository.ts): a list
    of Character references. Lookups return the stored reference itself, so a
    caller that mutates a found character changes what the store holds. */
module CharacterRepositories {
  import opened Wrappers
  import opened Enums
  import opened Failures
  import opened ValueObjects
  import opened Sequences
  import opened Characters

  /** `CharacterFilters`; an absent field does not filter. */
  datatype CharacterFilters = CharacterFilters(
    role: Option<CharacterRole>,
    gender: Option<Gender>,
    companyType: Option<CompanyType>,
    isActive: Option<bool>)
  {
    /** What `findAll(filters)` promises of a character it returns: every filter
        that is set holds of it. */
    predicate Admits(c: CharacterState) {
      && (role.Some? ==> c.role == role.value)
      && (gender.Some? ==> c.gender == gender.value)
      && (companyType.Some? ==> c.companyType == companyType.value)
      && (isActive.Some? ==> c.isActive == isActive.value)
    }
  }

  /** The test one `filter` call applies. */
  datatype Criterion =
    | RoleIs(role: CharacterRole)
    | GenderIs(gender: Gender)
    | CompanyTypeIs(companyType: CompanyType)
    | ActiveIs(active: bool)
    | Serves(target: CompanyType)

  predicate Meets(c: CharacterState, k: Criterion) {
    match k
    case RoleIs(r) => c.role == r
    case GenderIs(g) => c.gender == g
    case CompanyTypeIs(t) => c.companyType == t
    case ActiveIs(b) => c.isActive == b
    case Serves(t) => Compatible(c.companyType, t)
  }

  /** One `filter` call over the characters' current state. */
  function Select(s: seq<Character>, k: Criterion): (r: seq<Character>)
    reads s
    ensures |r| <= |s|
    ensures forall c | c in r :: c in s
  {
    if s == [] then [] else (if Meets(s[0].State(), k) then [s[0]] else []) + Select(s[1..], k)
  }

  /** A `filter` call keeps exactly the characters that pass, in their order,
      each as often as it is stored. */
  lemma {:induction false} SelectSpec(s: seq<Character>, k: Criterion)
    ensures Subseq(Select(s, k), s)
    ensures forall c | c in Select(s, k) :: c in s && Meets(c.State(), k)
    ensures forall j | 0 <= j < |s| && Meets(s[j].State(), k) :: s[j] in Select(s, k)
    ensures forall c | c in s :: multiset(Select(s, k))[c] == if Meets(c.State(), k) then multiset(s)[c] else 0
    decreases |s|
  {
    SelectCounts(s, k);
    if s != [] {
      SelectSpec(s[1..], k);
      var r := Select(s, k);
      var rest := Select(s[1..], k);
      if Meets(s[0].State(), k) {
        assert r == [s[0]] + rest;
        assert r[0] == s[0] && r[1..] == rest;
      } else {
        assert r == rest;
      }
      forall j | 0 <= j < |s| && Meets(s[j].State(), k) ensures s[j] in r {
        if j > 0 {
          assert s[j] == s[1..][j - 1];
        }
      }
    }
  }

  /** How often a `filter` call keeps each stored character. */
  lemma {:induction false} SelectCounts(s: seq<Character>, k: Criterion)
    ensures forall c | c in s :: multiset(Select(s, k))[c] == if Meets(c.State(), k) then multiset(s)[c] else 0
    decreases |s|
  {
    if s != [] {
      SelectCounts(s[1..], k);
      var rest := Select(s[1..], k);
      var head := if Meets(s[0].State(), k) then [s[0]] else [];
      assert Select(s, k) == head + rest;
      assert s == [s[0]] + s[1..];
      assert multiset(Select(s, k)) == multiset(head) + multiset(rest);
      assert multiset(s) == multiset{s[0]} + multiset(s[1..]);
      forall c | c in s ensures multiset(Select(s, k))[c] == if Meets(c.State(), k) then multiset(s)[c] else 0 {
        if c !in s[1..] {
          assert c !in rest;
          assert multiset(s[1..])[c] == 0;
        }
      }
    }
  }

  // ------------------------------------------------- findAll, step by step

  /** The filter `findAll` applies at its step `n`: role, gender, company type,
      then the active flag, each only when set. */
  function Stage(f: CharacterFilters, n: nat): Option<Criterion> {
    if n == 0 then (if f.role.Some? then Some(RoleIs(f.role.value)) else None)
    else if n == 1 then (if f.gender.Some? then Some(GenderIs(f.gender.value)) else None)
    else if n == 2 then (if f.companyType.Some? then Some(CompanyTypeIs(f.companyType.value)) else None)
    else if n == 3 then (if f.isActive.Some? then Some(ActiveIs(f.isActive.value)) else None)
    else None
  }

  /** The first `n` steps let `c` through. */
  predicate PassesStages(f: CharacterFilters, c: CharacterState, n: nat) {
    n == 0 || (PassesStages(f, c, n - 1) && (Stage(f, n - 1).None? || Meets(c, Stage(f, n - 1).value)))
  }

  lemma AdmitsIsAllStages(f: CharacterFilters, c: CharacterState)
    ensures f.Admits(c) <==> PassesStages(f, c, 4)
  {
    assert PassesStages(f, c, 1) <==> (f.role.Some? ==> c.role == f.role.value);
    assert PassesStages(f, c, 2) <==> PassesStages(f, c, 1) && (f.gender.Some? ==> c.gender == f.gender.value);
    assert PassesStages(f, c, 3) <==>
      PassesStages(f, c, 2) && (f.companyType.Some? ==> c.companyType == f.companyType.value);
  }

  /** `r` is what the first `n` steps leave of `s`: the passing characters, in
      their order and with their multiplicity. */
  ghost predicate SelectionOf(r: seq<Character>, s: seq<Character>, f: CharacterFilters, n: nat)
    reads r, s
  {
    && Subseq(r, s)
    && (forall c | c in r :: c in s && PassesStages(f, c.State(), n))
    && (forall j | 0 <= j < |s| && PassesStages(f, s[j].State(), n) :: s[j] in r)
    && (forall c | c in s :: multiset(r)[c] == if PassesStages(f, c.State(), n) then multiset(s)[c] else 0)
  }

  function Step(r: seq<Character>, f: CharacterFilters, n: nat): (t: seq<Character>)
    reads r
    ensures forall c | c in t :: c in r
  {
    if Stage(f, n).Some? then Select(r, Stage(f, n).value) else r
  }

  lemma NarrowStep(r: seq<Character>, s: seq<Character>, f: CharacterFilters, n: nat)
    requires SelectionOf(r, s, f, n)
    ensures SelectionOf(Step(r, f, n), s, f, n + 1)
  {
    if Stage(f, n).Some? {
      var k := Stage(f, n).value;
      SelectSpec(r, k);
      SubseqTrans(Select(r, k), r, s);
      forall j | 0 <= j < |s| && PassesStages(f, s[j].State(), n + 1) ensures s[j] in Select(r, k) {
        var i :| 0 <= i < |r| && r[i] == s[j];
      }
      forall c | c in s
        ensures multiset(Select(r, k))[c] == if PassesStages(f, c.State(), n + 1) then multiset(s)[c] else 0
      {
        if c !in r {
          assert c !in Select(r, k);
        }
      }
    }
  }

  /** What the first `n` steps of `findAll` leave of `s`. */
  function Stages(s: seq<Character>, f: CharacterFilters, n: nat): (r: seq<Character>)
    reads set c | c in s
    ensures forall c | c in r :: c in s
    decreases n
  {
    if n == 0 then s else Step(Stages(s, f, n - 1), f, n - 1)
  }

  lemma {:induction false} StagesSelect(s: seq<Character>, f: CharacterFilters, n: nat)
    ensures SelectionOf(Stages(s, f, n), s, f, n)
    decreases n
  {
    if n == 0 {
      SubseqRefl(s);
    } else {
      StagesSelect(s, f, n - 1);
      NarrowStep(Stages(s, f, n - 1), s, f, n - 1);
    }
  }

  /** All four steps leave exactly the admitted characters, in their order,
      each as often as it is stored. */
  lemma FindAllMeaning(s: seq<Character>, f: CharacterFilters)
    ensures Subseq(Stages(s, f, 4), s)
    ensures forall c | c in Stages(s, f, 4) :: c in s && f.Admits(c.State())
    ensures forall j | 0 <= j < |s| && f.Admits(s[j].State()) :: s[j] in Stages(s, f, 4)
    ensures forall c | c in s :: multiset(Stages(s, f, 4))[c] == if f.Admits(c.State()) then multiset(s)[c] else 0
  {
    StagesSelect(s, f, 4);
    forall c | c in Stages(s, f, 4) ensures f.Admits(c.State()) {
      AdmitsIsAllStages(f, c.State());
    }
    forall j | 0 <= j < |s| && f.Admits(s[j].State()) ensures s[j] in Stages(s, f, 4) {
      AdmitsIsAllStages(f, s[j].State());
    }
    forall c | c in s
      ensures multiset(Stages(s, f, 4))[c] == if f.Admits(c.State()) then multiset(s)[c] else 0
    {
      AdmitsIsAllStages(f, c.State());
    }
  }

  // ------------------------------------------------------------ repository

  /** `characters.findIndex(c => c.id.equals(id))`, with -1 rendered as None. */
  function PositionIn(s: seq<Character>, id: UniqueId): (r: Option<nat>)
    ensures r.Some? ==> r.value < |s| && s[r.value].id == id
    ensures r.Some? ==> forall j | 0 <= j < r.value :: s[j].id != id
    ensures r.None? <==> forall j | 0 <= j < |s| :: s[j].id != id
  {
    FirstIndex(s, (c: Character) => c.id, id)
  }

  /** `characters.find(c => c.id.equals(id)) || null`: the first character with that id. */
  function FindIn(s: seq<Character>, id: UniqueId): (r: Option<Character>)
    ensures r.Some? ==> r.value in s && r.value.id == id
    ensures r.None? <==> forall j | 0 <= j < |s| :: s[j].id != id
    ensures r.Some? ==> exists j | 0 <= j < |s| :: s[j] == r.value && forall m | 0 <= m < j :: s[m].id != id
  {
    match PositionIn(s, id)
    case None => None
    case Some(i) => Some(s[i])
  }

  class CharacterRepository {
    var items: seq<Character>

    constructor ()
      ensures items == []
    {
      items := [];
    }

    function FindById(id: UniqueId): (r: Option<Character>)
      reads this
      ensures r == FindIn(items, id)
    {
      FindIn(items, id)
    }

    /** `findAll(filters)`: the sequence of `filter` calls the source makes, one per set filter. */
    method FindAll(f: CharacterFilters) returns (r: seq<Character>)
      ensures r == Stages(items, f, 4)
      ensures Subseq(r, items)
      ensures forall c | c in r :: c in items && f.Admits(c.State())
      ensures forall j | 0 <= j < |items| && f.Admits(items[j].State()) :: items[j] in r
      ensures forall c | c in items :: multiset(r)[c] == if f.Admits(c.State()) then multiset(items)[c] else 0
    {
      r := items;
      if f.role.Some? {
        r := Select(r, RoleIs(f.role.value));
      }
      assert r == Stages(items, f, 1);
      if f.gender.Some? {
        r := Select(r, GenderIs(f.gender.value));
      }
      assert r == Stages(items, f, 2);
      if f.companyType.Some? {
        r := Select(r, CompanyTypeIs(f.companyType.value));
      }
      assert r == Stages(items, f, 3);
      if f.isActive.Some? {
        r := Select(r, ActiveIs(f.isActive.value));
      }
      assert r == Stages(items, f, 4);
      FindAllMeaning(items, f);
    }

    function FindByRole(role: CharacterRole): (r: seq<Character>)
      reads this, items
      ensures Subseq(r, items)
      ensures forall c | c in r :: c in items && c.role == role
      ensures forall j | 0 <= j < |items| && items[j].role == role :: items[j] in r
      ensures forall c | c in items :: multiset(r)[c] == if c.role == role then multiset(items)[c] else 0
    {
      SelectSpec(items, RoleIs(role));
      Select(items, RoleIs(role))
    }

    /** `findByCompanyType(t)`: the characters that can interview for `t`, i.e.
        those of type `t` and every STARTUP character. */
    function FindByCompanyType(target: CompanyType): (r: seq<Character>)
      reads this, items
      ensures Subseq(r, items)
      ensures forall c | c in r :: c in items && (c.companyType == target || c.companyType == STARTUP)
      ensures forall j | 0 <= j < |items| && (items[j].companyType == target || items[j].companyType == STARTUP)
                :: items[j] in r
      ensures forall c | c in items
                :: multiset(r)[c] == if c.companyType == target || c.companyType == STARTUP then multiset(items)[c] else 0
    {
      SelectSpec(items, Serves(target));
      Select(items, Serves(target))
    }

    function FindActiveCharacters(): (r: seq<Character>)
      reads this, items
      ensures Subseq(r, items)
      ensures forall c | c in r :: c in items && c.isActive
      ensures forall j | 0 <= j < |items| && items[j].isActive :: items[j] in r
      ensures forall c | c in items :: multiset(r)[c] == if c.isActive then multiset(items)[c] else 0
    {
      SelectSpec(items, ActiveIs(true));
      Select(items, ActiveIs(true))
    }

    /** `save` appends without looking for an existing id. */
    method Save(c: Character) returns (r: Character)
      modifies this
      ensures items == old(items) + [c] && r == c
    {
      items := items + [c];
      r := c;
    }

    /** `update` replaces the first character with the same id, or throws. */
    method Update(c: Character) returns (r: Result<Character, Failure>)
      modifies this
      ensures match PositionIn(old(items), c.id)
              case None => r == Failure(CharacterNotFound) && items == old(items)
              case Some(i) => r == Success(c) && items == old(items)[i := c]
    {
      match PositionIn(items, c.id)
      case None =>
        return Failure(CharacterNotFound);
      case Some(i) =>
        items := items[i := c];
        return Success(c);
    }

    /** `delete` removes the first character with that id and reports whether there was one. */
    method Delete(id: UniqueId) returns (deleted: bool)
      modifies this
      ensures match PositionIn(old(items), id)
              case None => !deleted && items == old(items)
              case Some(i) => deleted && items == RemoveAt(old(items), i)
    {
      match PositionIn(items, id)
      case None =>
        return false;
      case Some(i) =>
        items := RemoveAt(items, i);
        return true;
    }

    /** `exists(id)`: `some` over the ids. */
    function Exists(id: UniqueId): (b: bool)
      reads this
      ensures b <==> FindById(id).Some?
    {
      exists j | 0 <= j < |items| :: items[j].id == id
    }

    method Seed(cs: seq<Character>)
      modifies this
      ensures items == cs
    {
      items := cs;
    }

    method Clear()
      modifies this
      ensures items == []
    {
      items := [];
    }
  }

  // ------------------------------------------------------------------ laws

  /** After `save(c)`, a lookup still finds an earlier character with the same id
      first (no duplicate check shadows the new one); otherwise it finds `c`. */
  lemma FindAfterSave(s: seq<Character>, c: Character, id: UniqueId)
    ensures FindIn(s + [c], id)
         == if FindIn(s, id).Some? then FindIn(s, id) else if c.id == id then Some(c) else None
  {
    FirstIndexAppend(s, [c], (x: Character) => x.id, id);
    assert (s + [c])[|s|] == c;
    match PositionIn(s, id)
    case Some(i) => assert (s + [c])[i] == s[i];
    case None =>
  }

  /** After a successful `update(c)`, looking up `c`'s id yields `c`, and every
      other id finds what it found before. */
  lemma FindAfterUpdate(s: seq<Character>, c: Character, other: UniqueId)
    requires PositionIn(s, c.id).Some?
    ensures FindIn(s[PositionIn(s, c.id).value := c], c.id) == Some(c)
    ensures other != c.id ==>
      FindIn(s[PositionIn(s, c.id).value := c], other) == FindIn(s, other)
  {
    var i := PositionIn(s, c.id).value;
    FirstIndexReplace(s, (x: Character) => x.id, i, c, other);
    if other != c.id {
      match PositionIn(s, other)
      case Some(j) => assert j != i && s[i := c][j] == s[j];
      case None =>
    }
  }

  /** `delete` removes exactly one stored reference when it reports success. */
  lemma DeleteRemovesOne(s: seq<Character>, id: UniqueId)
    requires PositionIn(s, id).Some?
    ensures var i := PositionIn(s, id).value;
      |RemoveAt(s, i)| == |s| - 1 && multiset(RemoveAt(s, i)) == multiset(s) - multiset{s[i]}
  {
    RemoveAtMultiset(s, PositionIn(s, id).value);
  }

  /** Without filters `findAll` returns the stored list itself. */
  lemma NoFiltersReturnAll(s: seq<Character>)
    ensures Stages(s, CharacterFilters(None, None, None, None), 4) == s
  {
    var f := CharacterFilters(None, None, None, None);
    assert Stages(s, f, 1) == s;
    assert Stages(s, f, 2) == s;
    assert Stages(s, f, 3) == s;
  }

  /** `findByRole` and `findActiveCharacters` return what `findAll` returns with
      that one filter set. `findByCompanyType` is no `findAll`: it also lets
      STARTUP characters through. */
  lemma FindersAreFilters(s: seq<Character>, r: CharacterRole, t: CompanyType)
    ensures Select(s, RoleIs(r)) == Stages(s, CharacterFilters(Some(r), None, None, None), 4)
    ensures Select(s, ActiveIs(true)) == Stages(s, CharacterFilters(None, None, None, Some(true)), 4)
    ensures forall c: CharacterState :: Meets(c, Serves(t)) <==>
      (CharacterFilters(None, None, Some(t), None).Admits(c) || c.companyType == STARTUP)
  {
    var byRole := CharacterFilters(Some(r), None, None, None);
    assert Stages(s, byRole, 1) == Select(s, RoleIs(r));
    assert Stages(s, byRole, 2) == Select(s, RoleIs(r));
    assert Stages(s, byRole, 3) == Select(s, RoleIs(r));
    var active := CharacterFilters(None, None, None, Some(true));
    assert Stages(s, active, 1) == s;
    assert Stages(s, active, 2) == s;
    assert Stages(s, active, 3) == s;
  }
}
