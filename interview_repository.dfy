/** The in-memory interview store
    (src/infrastructure/repositories/in-memory-interview-repository.ts): a list
    of Interview references. Lookups return the stored reference itself, so a
    use case that mutates a found interview changes what the store holds even
    before it calls `update`. */
module InterviewRepositories {
  import opened Wrappers
  import opened Enums
  import opened Failures
  import opened ValueObjects
  import opened Sequences
  import opened Interviews

  /** `InterviewFilters`; an absent field does not filter. Dates are millisecond instants. */
  datatype InterviewFilters = InterviewFilters(
    characterId: Option<UniqueId>,
    companyId: Option<UniqueId>,
    kind: Option<InterviewType>,
    status: Option<InterviewStatus>,
    startedAfter: Option<int>,
    startedBefore: Option<int>)
  {
    /** What `findAll(filters)` promises of an interview it returns. A bound on
        the start time drops every interview that has not started. */
    predicate Admits(i: InterviewState) {
      && (characterId.Some? ==> i.characterId == characterId.value)
      && (companyId.Some? ==> i.companyId == companyId.value)
      && (kind.Some? ==> i.kind == kind.value)
      && (status.Some? ==> i.status == status.value)
      && (startedAfter.Some? ==> i.startedAt.Some? && i.startedAt.value >= startedAfter.value)
      && (startedBefore.Some? ==> i.startedAt.Some? && i.startedAt.value <= startedBefore.value)
    }
  }

  /** The test one `filter` call applies. */
  datatype Criterion =
    | CharacterIs(characterId: UniqueId)
    | CompanyIs(companyId: UniqueId)
    | KindIs(kind: InterviewType)
    | StatusIs(status: InterviewStatus)
    | StartedFrom(after: int)
    | StartedUntil(before: int)

  predicate Meets(i: InterviewState, k: Criterion) {
    match k
    case CharacterIs(id) => i.characterId == id
    case CompanyIs(id) => i.companyId == id
    case KindIs(t) => i.kind == t
    case StatusIs(st) => i.status == st
    case StartedFrom(t) => i.startedAt.Some? && i.startedAt.value >= t
    case StartedUntil(t) => i.startedAt.Some? && i.startedAt.value <= t
  }

  /** One `filter` call over the interviews' current state. */
  function Select(s: seq<Interview>, k: Criterion): (r: seq<Interview>)
    reads s
    ensures |r| <= |s|
    ensures forall i | i in r :: i in s
  {
    if s == [] then [] else (if Meets(s[0].State(), k) then [s[0]] else []) + Select(s[1..], k)
  }

  /** A `filter` call keeps exactly the interviews that pass, in their order,
      each as often as it is stored. */
  lemma {:induction false} SelectSpec(s: seq<Interview>, k: Criterion)
    ensures Subseq(Select(s, k), s)
    ensures forall i | i in Select(s, k) :: i in s && Meets(i.State(), k)
    ensures forall j | 0 <= j < |s| && Meets(s[j].State(), k) :: s[j] in Select(s, k)
    ensures forall i | i in s :: multiset(Select(s, k))[i] == if Meets(i.State(), k) then multiset(s)[i] else 0
    decreases |s|
  {
    SelectCounts(s, k);
    if s != [] {
      SelectSpec(s[1..], k);
      var r := Select(s, k);
      if Meets(s[0].State(), k) {
        assert r == [s[0]] + Select(s[1..], k);
        assert r[0] == s[0] && r[1..] == Select(s[1..], k);
      } else {
        assert r == Select(s[1..], k);
      }
      forall j | 0 <= j < |s| && Meets(s[j].State(), k) ensures s[j] in r {
        if j > 0 {
          assert s[j] == s[1..][j - 1];
        }
      }
    }
  }

  /** How often a `filter` call keeps each stored interview. */
  lemma {:induction false} SelectCounts(s: seq<Interview>, k: Criterion)
    ensures forall i | i in s :: multiset(Select(s, k))[i] == if Meets(i.State(), k) then multiset(s)[i] else 0
    decreases |s|
  {
    if s != [] {
      SelectCounts(s[1..], k);
      var rest := Select(s[1..], k);
      var head := if Meets(s[0].State(), k) then [s[0]] else [];
      assert Select(s, k) == head + rest;
      assert s == [s[0]] + s[1..];
      assert multiset(Select(s, k)) == multiset(head) + multiset(rest);
      assert multiset(s) == multiset{s[0]} + multiset(s[1..]);
      forall i | i in s ensures multiset(Select(s, k))[i] == if Meets(i.State(), k) then multiset(s)[i] else 0 {
        if i !in s[1..] {
          assert i !in rest;
          assert multiset(s[1..])[i] == 0;
        }
      }
    }
  }

  // ------------------------------------------------- findAll, step by step

  /** The filter `findAll` applies at its step `n`: character, company, type,
      status, earliest start, latest start, each only when set. */
  function Stage(f: InterviewFilters, n: nat): Option<Criterion> {
    if n == 0 then (if f.characterId.Some? then Some(CharacterIs(f.characterId.value)) else None)
    else if n == 1 then (if f.companyId.Some? then Some(CompanyIs(f.companyId.value)) else None)
    else if n == 2 then (if f.kind.Some? then Some(KindIs(f.kind.value)) else None)
    else if n == 3 then (if f.status.Some? then Some(StatusIs(f.status.value)) else None)
    else if n == 4 then (if f.startedAfter.Some? then Some(StartedFrom(f.startedAfter.value)) else None)
    else if n == 5 then (if f.startedBefore.Some? then Some(StartedUntil(f.startedBefore.value)) else None)
    else None
  }

  /** The first `n` steps let `i` through. */
  predicate PassesStages(f: InterviewFilters, i: InterviewState, n: nat) {
    n == 0 || (PassesStages(f, i, n - 1) && (Stage(f, n - 1).None? || Meets(i, Stage(f, n - 1).value)))
  }

  lemma AdmitsIsAllStages(f: InterviewFilters, i: InterviewState)
    ensures f.Admits(i) <==> PassesStages(f, i, 6)
  {
    assert PassesStages(f, i, 1) <==> (f.characterId.Some? ==> i.characterId == f.characterId.value);
    assert PassesStages(f, i, 2) <==>
      PassesStages(f, i, 1) && (f.companyId.Some? ==> i.companyId == f.companyId.value);
    assert PassesStages(f, i, 3) <==> PassesStages(f, i, 2) && (f.kind.Some? ==> i.kind == f.kind.value);
    assert PassesStages(f, i, 4) <==> PassesStages(f, i, 3) && (f.status.Some? ==> i.status == f.status.value);
    assert PassesStages(f, i, 5) <==>
      PassesStages(f, i, 4) && (f.startedAfter.Some? ==> i.startedAt.Some? && i.startedAt.value >= f.startedAfter.value);
  }

  /** `r` is what the first `n` steps leave of `s`: the passing interviews, in
      their order and with their multiplicity. */
  ghost predicate SelectionOf(r: seq<Interview>, s: seq<Interview>, f: InterviewFilters, n: nat)
    reads r, s
  {
    && Subseq(r, s)
    && (forall i | i in r :: i in s && PassesStages(f, i.State(), n))
    && (forall j | 0 <= j < |s| && PassesStages(f, s[j].State(), n) :: s[j] in r)
    && (forall i | i in s :: multiset(r)[i] == if PassesStages(f, i.State(), n) then multiset(s)[i] else 0)
  }

  function Step(r: seq<Interview>, f: InterviewFilters, n: nat): (t: seq<Interview>)
    reads r
    ensures forall i | i in t :: i in r
  {
    if Stage(f, n).Some? then Select(r, Stage(f, n).value) else r
  }

  lemma NarrowStep(r: seq<Interview>, s: seq<Interview>, f: InterviewFilters, n: nat)
    requires SelectionOf(r, s, f, n)
    ensures SelectionOf(Step(r, f, n), s, f, n + 1)
  {
    if Stage(f, n).Some? {
      var k := Stage(f, n).value;
      SelectSpec(r, k);
      SubseqTrans(Select(r, k), r, s);
      forall j | 0 <= j < |s| && PassesStages(f, s[j].State(), n + 1) ensures s[j] in Select(r, k) {
        var i :| 0 <= i < |r| && r[i] == s[j];
      }
      forall i | i in s
        ensures multiset(Select(r, k))[i] == if PassesStages(f, i.State(), n + 1) then multiset(s)[i] else 0
      {
        if i !in r {
          assert i !in Select(r, k);
        }
      }
    }
  }

  /** What the first `n` steps of `findAll` leave of `s`. */
  function Stages(s: seq<Interview>, f: InterviewFilters, n: nat): (r: seq<Interview>)
    reads set i | i in s
    ensures forall i | i in r :: i in s
    decreases n
  {
    if n == 0 then s else Step(Stages(s, f, n - 1), f, n - 1)
  }

  lemma {:induction false} StagesSelect(s: seq<Interview>, f: InterviewFilters, n: nat)
    ensures SelectionOf(Stages(s, f, n), s, f, n)
    decreases n
  {
    if n == 0 {
      SubseqRefl(s);
    } else {
      StagesSelect(s, f, n - 1);
      NarrowStep(Stages(s, f, n - 1), s, f, n - 1);
    }
  }

  /** All six steps leave exactly the admitted interviews, in their order, each
      as often as it is stored. */
  lemma FindAllMeaning(s: seq<Interview>, f: InterviewFilters)
    ensures Subseq(Stages(s, f, 6), s)
    ensures forall i | i in Stages(s, f, 6) :: i in s && f.Admits(i.State())
    ensures forall j | 0 <= j < |s| && f.Admits(s[j].State()) :: s[j] in Stages(s, f, 6)
    ensures forall i | i in s :: multiset(Stages(s, f, 6))[i] == if f.Admits(i.State()) then multiset(s)[i] else 0
  {
    StagesSelect(s, f, 6);
    forall i | i in Stages(s, f, 6) ensures f.Admits(i.State()) {
      AdmitsIsAllStages(f, i.State());
    }
    forall j | 0 <= j < |s| && f.Admits(s[j].State()) ensures s[j] in Stages(s, f, 6) {
      AdmitsIsAllStages(f, s[j].State());
    }
    forall i | i in s
      ensures multiset(Stages(s, f, 6))[i] == if f.Admits(i.State()) then multiset(s)[i] else 0
    {
      AdmitsIsAllStages(f, i.State());
    }
  }

  // ------------------------------------------------------------ repository

  /** `interviews.findIndex(i => i.id.equals(id))`, with -1 rendered as None. */
  function PositionIn(s: seq<Interview>, id: UniqueId): (r: Option<nat>)
    ensures r.Some? ==> r.value < |s| && s[r.value].id == id
    ensures r.Some? ==> forall j | 0 <= j < r.value :: s[j].id != id
    ensures r.None? <==> forall j | 0 <= j < |s| :: s[j].id != id
  {
    FirstIndex(s, (i: Interview) => i.id, id)
  }

  /** `interviews.find(i => i.id.equals(id)) || null`: the first interview with that id. */
  function FindIn(s: seq<Interview>, id: UniqueId): (r: Option<Interview>)
    ensures r.Some? ==> r.value in s && r.value.id == id
    ensures r.None? <==> forall j | 0 <= j < |s| :: s[j].id != id
    ensures r.Some? ==> exists j | 0 <= j < |s| :: s[j] == r.value && forall m | 0 <= m < j :: s[m].id != id
  {
    match PositionIn(s, id)
    case None => None
    case Some(i) => Some(s[i])
  }

  class InterviewRepository {
    var items: seq<Interview>

    constructor ()
      ensures items == []
    {
      items := [];
    }

    function FindById(id: UniqueId): (r: Option<Interview>)
      reads this
      ensures r == FindIn(items, id)
    {
      FindIn(items, id)
    }

    /** `findAll(filters)`: the sequence of `filter` calls the source makes, one per set filter. */
    method FindAll(f: InterviewFilters) returns (r: seq<Interview>)
      ensures r == Stages(items, f, 6)
      ensures Subseq(r, items)
      ensures forall i | i in r :: i in items && f.Admits(i.State())
      ensures forall j | 0 <= j < |items| && f.Admits(items[j].State()) :: items[j] in r
      ensures forall i | i in items :: multiset(r)[i] == if f.Admits(i.State()) then multiset(items)[i] else 0
    {
      FindAllMeaning(items, f);
      r := items;
      if f.characterId.Some? {
        r := Select(r, CharacterIs(f.characterId.value));
      }
      assert r == Stages(items, f, 1);
      if f.companyId.Some? {
        r := Select(r, CompanyIs(f.companyId.value));
      }
      assert r == Stages(items, f, 2);
      if f.kind.Some? {
        r := Select(r, KindIs(f.kind.value));
      }
      assert r == Stages(items, f, 3);
      if f.status.Some? {
        r := Select(r, StatusIs(f.status.value));
      }
      assert r == Stages(items, f, 4);
      if f.startedAfter.Some? {
        r := Select(r, StartedFrom(f.startedAfter.value));
      }
      assert r == Stages(items, f, 5);
      if f.startedBefore.Some? {
        r := Select(r, StartedUntil(f.startedBefore.value));
      }
      assert r == Stages(items, f, 6);
    }

    function FindByCharacterId(characterId: UniqueId): (r: seq<Interview>)
      reads this, items
      ensures Subseq(r, items)
      ensures forall i | i in r :: i in items && i.characterId == characterId
      ensures forall j | 0 <= j < |items| && items[j].characterId == characterId :: items[j] in r
      ensures forall i | i in items :: multiset(r)[i] == if i.characterId == characterId then multiset(items)[i] else 0
    {
      SelectSpec(items, CharacterIs(characterId));
      Select(items, CharacterIs(characterId))
    }

    function FindByCompanyId(companyId: UniqueId): (r: seq<Interview>)
      reads this, items
      ensures Subseq(r, items)
      ensures forall i | i in r :: i in items && i.companyId == companyId
      ensures forall j | 0 <= j < |items| && items[j].companyId == companyId :: items[j] in r
      ensures forall i | i in items :: multiset(r)[i] == if i.companyId == companyId then multiset(items)[i] else 0
    {
      SelectSpec(items, CompanyIs(companyId));
      Select(items, CompanyIs(companyId))
    }

    function FindByStatus(status: InterviewStatus): (r: seq<Interview>)
      reads this, items
      ensures Subseq(r, items)
      ensures forall i | i in r :: i in items && i.status == status
      ensures forall j | 0 <= j < |items| && items[j].status == status :: items[j] in r
      ensures forall i | i in items :: multiset(r)[i] == if i.status == status then multiset(items)[i] else 0
    {
      SelectSpec(items, StatusIs(status));
      Select(items, StatusIs(status))
    }

    /** `findActiveInterviews()`: the IN_PROGRESS ones. */
    function FindActiveInterviews(): (r: seq<Interview>)
      reads this, items
      ensures r == FindByStatus(IN_PROGRESS)
      ensures forall i | i in r :: i in items && i.State().IsActive()
    {
      Select(items, StatusIs(IN_PROGRESS))
    }

    function FindCompletedInterviews(): (r: seq<Interview>)
      reads this, items
      ensures r == FindByStatus(COMPLETED)
      ensures forall i | i in r :: i in items && i.State().IsCompleted()
    {
      Select(items, StatusIs(COMPLETED))
    }

    /** `save` appends without looking for an existing id. */
    method Save(i: Interview) returns (r: Interview)
      modifies this
      ensures items == old(items) + [i] && r == i
    {
      items := items + [i];
      r := i;
    }

    /** `update` replaces the first interview with the same id, or throws. */
    method Update(i: Interview) returns (r: Result<Interview, Failure>)
      modifies this
      ensures match PositionIn(old(items), i.id)
              case None => r == Failure(InterviewNotFound) && items == old(items)
              case Some(p) => r == Success(i) && items == old(items)[p := i]
    {
      match PositionIn(items, i.id)
      case None =>
        return Failure(InterviewNotFound);
      case Some(p) =>
        items := items[p := i];
        return Success(i);
    }

    method Delete(id: UniqueId) returns (deleted: bool)
      modifies this
      ensures match PositionIn(old(items), id)
              case None => !deleted && items == old(items)
              case Some(p) => deleted && items == RemoveAt(old(items), p)
    {
      match PositionIn(items, id)
      case None =>
        return false;
      case Some(p) =>
        items := RemoveAt(items, p);
        return true;
    }

    function Exists(id: UniqueId): (b: bool)
      reads this
      ensures b <==> FindById(id).Some?
    {
      exists j | 0 <= j < |items| :: items[j].id == id
    }

    method Seed(interviews: seq<Interview>)
      modifies this
      ensures items == interviews
    {
      items := interviews;
    }

    method Clear()
      modifies this
      ensures items == []
    {
      items := [];
    }
  }

  // ------------------------------------------------------------------ laws

  /** After `save(i)`, an earlier interview with the same id still shadows `i`. */
  lemma FindAfterSave(s: seq<Interview>, i: Interview, id: UniqueId)
    ensures FindIn(s + [i], id)
         == if FindIn(s, id).Some? then FindIn(s, id) else if i.id == id then Some(i) else None
  {
    FirstIndexAppend(s, [i], (x: Interview) => x.id, id);
    assert (s + [i])[|s|] == i;
    match PositionIn(s, id)
    case Some(p) => assert (s + [i])[p] == s[p];
    case None =>
  }

  lemma FindAfterUpdate(s: seq<Interview>, i: Interview, other: UniqueId)
    requires PositionIn(s, i.id).Some?
    ensures FindIn(s[PositionIn(s, i.id).value := i], i.id) == Some(i)
    ensures other != i.id ==>
      FindIn(s[PositionIn(s, i.id).value := i], other) == FindIn(s, other)
  {
    var p := PositionIn(s, i.id).value;
    FirstIndexReplace(s, (x: Interview) => x.id, p, i, other);
    if other != i.id {
      match PositionIn(s, other)
      case Some(j) => assert j != p && s[p := i][j] == s[j];
      case None =>
    }
  }

  /** Writing back the reference `findById` returned leaves the list as it was:
      the interview was already changed in place. */
  lemma UpdateWithFoundIsIdentity(s: seq<Interview>, id: UniqueId)
    requires FindIn(s, id).Some?
    ensures PositionIn(s, FindIn(s, id).value.id) == PositionIn(s, id)
    ensures s[PositionIn(s, id).value := FindIn(s, id).value] == s
  {
  }

  lemma DeleteRemovesOne(s: seq<Interview>, id: UniqueId)
    requires PositionIn(s, id).Some?
    ensures var p := PositionIn(s, id).value;
      |RemoveAt(s, p)| == |s| - 1 && multiset(RemoveAt(s, p)) == multiset(s) - multiset{s[p]}
  {
    RemoveAtMultiset(s, PositionIn(s, id).value);
  }

  /** Without filters `findAll` returns the stored list itself. */
  lemma NoFiltersReturnAll(s: seq<Interview>)
    ensures Stages(s, InterviewFilters(None, None, None, None, None, None), 6) == s
  {
    var f := InterviewFilters(None, None, None, None, None, None);
    assert Stages(s, f, 1) == s;
    assert Stages(s, f, 2) == s;
    assert Stages(s, f, 3) == s;
    assert Stages(s, f, 4) == s;
    assert Stages(s, f, 5) == s;
  }

  /** The finders return what `findAll` returns with that one filter set. */
  lemma FindersAreFilters(s: seq<Interview>, c: UniqueId, co: UniqueId, st: InterviewStatus)
    ensures Select(s, CharacterIs(c)) == Stages(s, InterviewFilters(Some(c), None, None, None, None, None), 6)
    ensures Select(s, CompanyIs(co)) == Stages(s, InterviewFilters(None, Some(co), None, None, None, None), 6)
    ensures Select(s, StatusIs(st)) == Stages(s, InterviewFilters(None, None, None, Some(st), None, None), 6)
  {
    var byCharacter := InterviewFilters(Some(c), None, None, None, None, None);
    var t := Select(s, CharacterIs(c));
    assert Stages(s, byCharacter, 1) == t;
    assert Stages(s, byCharacter, 2) == t;
    assert Stages(s, byCharacter, 3) == t;
    assert Stages(s, byCharacter, 4) == t;
    assert Stages(s, byCharacter, 5) == t;
    var byCompany := InterviewFilters(None, Some(co), None, None, None, None);
    var u := Select(s, CompanyIs(co));
    assert Stages(s, byCompany, 1) == s;
    assert Stages(s, byCompany, 2) == u;
    assert Stages(s, byCompany, 3) == u;
    assert Stages(s, byCompany, 4) == u;
    assert Stages(s, byCompany, 5) == u;
    var byStatus := InterviewFilters(None, None, None, Some(st), None, None);
    var v := Select(s, StatusIs(st));
    assert Stages(s, byStatus, 1) == s;
    assert Stages(s, byStatus, 2) == s;
    assert Stages(s, byStatus, 3) == s;
    assert Stages(s, byStatus, 4) == v;
    assert Stages(s, byStatus, 5) == v;
  }

  /** A bound on the start time never lets an interview through that has not started. */
  lemma StartBoundsNeedStart(f: InterviewFilters, x: InterviewState)
    requires f.startedAfter.Some? || f.startedBefore.Some?
    requires x.startedAt.None?
    ensures !f.Admits(x)
  {
  }
}
