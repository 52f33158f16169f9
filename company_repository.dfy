/** The in-memory company store
    (src/infrastructure/repositories/in-memory-company-repository.ts): a list of
    Company references. Lookups return the stored reference itself. */
module CompanyRepositories {
  import opened Wrappers
  import opened Enums
  import opened Failures
  import opened ValueObjects
  import opened Sequences
  import opened Companies

  /** `CompanyFilters`; an absent field does not filter. */
  datatype CompanyFilters = CompanyFilters(kind: Option<CompanyType>, isActive: Option<bool>)
  {
    /** What `findAll(filters)` promises of a company it returns. */
    predicate Admits(c: CompanyState) {
      && (kind.Some? ==> c.kind == kind.value)
      && (isActive.Some? ==> c.isActive == isActive.value)
    }
  }

  /** The test one `filter` call applies. */
  datatype Criterion = KindIs(kind: CompanyType) | ActiveIs(active: bool)

  predicate Meets(c: CompanyState, k: Criterion) {
    match k
    case KindIs(t) => c.kind == t
    case ActiveIs(b) => c.isActive == b
  }

  /** One `filter` call over the companies' current state. */
  function Select(s: seq<Company>, k: Criterion): (r: seq<Company>)
    reads s
    ensures |r| <= |s|
    ensures forall c | c in r :: c in s
  {
    if s == [] then [] else (if Meets(s[0].State(), k) then [s[0]] else []) + Select(s[1..], k)
  }

  /** A `filter` call keeps exactly the companies that pass, in their order,
      each as often as it is stored. */
  lemma {:induction false} SelectSpec(s: seq<Company>, k: Criterion)
    ensures Subseq(Select(s, k), s)
    ensures forall c | c in Select(s, k) :: c in s && Meets(c.State(), k)
    ensures forall j | 0 <= j < |s| && Meets(s[j].State(), k) :: s[j] in Select(s, k)
    ensures forall c | c in s :: multiset(Select(s, k))[c] == if Meets(c.State(), k) then multiset(s)[c] else 0
    decreases |s|
  {
    SelectCounts(s, k);
    if s != [] {
      SelectSpec(s[1..], k);
      var r := Select(s, k);
      if Meets(s[0].State(), k) {
        assert r == [s[0]] + Select(s[1..], k);
        assert r[0] == s[0] && r[1..] == Select(s[1..], k);
      } else {
        assert r == Select(s[1..], k);
      }
      forall j | 0 <= j < |s| && Meets(s[j].State(), k) ensures s[j] in r {
        if j > 0 {
          assert s[j] == s[1..][j - 1];
        }
      }
    }
  }

  /** How often a `filter` call keeps each stored company. */
  lemma {:induction false} SelectCounts(s: seq<Company>, k: Criterion)
    ensures forall c | c in s :: multiset(Select(s, k))[c] == if Meets(c.State(), k) then multiset(s)[c] else 0
    decreases |s|
  {
    if s != [] {
      SelectCounts(s[1..], k);
      var rest := Select(s[1..], k);
      var head := if Meets(s[0].State(), k) then [s[0]] else [];
      assert Select(s, k) == head + rest;
      assert s == [s[0]] + s[1..];
      assert multiset(Select(s, k)) == multiset(head) + multiset(rest);
      assert multiset(s) == multiset{s[0]} + multiset(s[1..]);
      forall c | c in s ensures multiset(Select(s, k))[c] == if Meets(c.State(), k) then multiset(s)[c] else 0 {
        if c !in s[1..] {
          assert c !in rest;
          assert multiset(s[1..])[c] == 0;
        }
      }
    }
  }

  /** `findAll` filters by type, then by the active flag, each only when set.
      With two steps the composition is stated directly. */
  function TypeStep(s: seq<Company>, f: CompanyFilters): (r: seq<Company>)
    reads s
    ensures forall c | c in r :: c in s
  {
    if f.kind.Some? then Select(s, KindIs(f.kind.value)) else s
  }

  function ActiveStep(s: seq<Company>, f: CompanyFilters): (r: seq<Company>)
    reads s
    ensures forall c | c in r :: c in s
  {
    if f.isActive.Some? then Select(s, ActiveIs(f.isActive.value)) else s
  }

  /** Both steps leave exactly the admitted companies, in their order, each as
      often as it is stored. */
  lemma FindAllMeaning(s: seq<Company>, f: CompanyFilters)
    ensures Subseq(ActiveStep(TypeStep(s, f), f), s)
    ensures forall c | c in ActiveStep(TypeStep(s, f), f) :: c in s && f.Admits(c.State())
    ensures forall j | 0 <= j < |s| && f.Admits(s[j].State()) :: s[j] in ActiveStep(TypeStep(s, f), f)
    ensures forall c | c in s
              :: multiset(ActiveStep(TypeStep(s, f), f))[c] == if f.Admits(c.State()) then multiset(s)[c] else 0
  {
    var t := TypeStep(s, f);
    var r := ActiveStep(t, f);
    SubseqRefl(s);
    SubseqRefl(t);
    if f.kind.Some? {
      SelectSpec(s, KindIs(f.kind.value));
    }
    if f.isActive.Some? {
      SelectSpec(t, ActiveIs(f.isActive.value));
    }
    SubseqTrans(r, t, s);
    forall j | 0 <= j < |s| && f.Admits(s[j].State()) ensures s[j] in r {
      assert s[j] in t;
      var i :| 0 <= i < |t| && t[i] == s[j];
    }
    forall c | c in s ensures multiset(r)[c] == if f.Admits(c.State()) then multiset(s)[c] else 0 {
      if c !in t {
        assert c !in r;
      }
    }
  }

  // ------------------------------------------------------------ repository

  /** `companies.findIndex(c => c.id.equals(id))`, with -1 rendered as None. */
  function PositionIn(s: seq<Company>, id: UniqueId): (r: Option<nat>)
    ensures r.Some? ==> r.value < |s| && s[r.value].id == id
    ensures r.Some? ==> forall j | 0 <= j < r.value :: s[j].id != id
    ensures r.None? <==> forall j | 0 <= j < |s| :: s[j].id != id
  {
    FirstIndex(s, (c: Company) => c.id, id)
  }

  /** `companies.find(c => c.id.equals(id)) || null`: the first company with that id. */
  function FindIn(s: seq<Company>, id: UniqueId): (r: Option<Company>)
    ensures r.Some? ==> r.value in s && r.value.id == id
    ensures r.None? <==> forall j | 0 <= j < |s| :: s[j].id != id
    ensures r.Some? ==> exists j | 0 <= j < |s| :: s[j] == r.value && forall m | 0 <= m < j :: s[m].id != id
  {
    match PositionIn(s, id)
    case None => None
    case Some(i) => Some(s[i])
  }

  class CompanyRepository {
    var items: seq<Company>

    constructor ()
      ensures items == []
    {
      items := [];
    }

    function FindById(id: UniqueId): (r: Option<Company>)
      reads this
      ensures r == FindIn(items, id)
    {
      FindIn(items, id)
    }

    method FindAll(f: CompanyFilters) returns (r: seq<Company>)
      ensures r == ActiveStep(TypeStep(items, f), f)
      ensures Subseq(r, items)
      ensures forall c | c in r :: c in items && f.Admits(c.State())
      ensures forall j | 0 <= j < |items| && f.Admits(items[j].State()) :: items[j] in r
      ensures forall c | c in items :: multiset(r)[c] == if f.Admits(c.State()) then multiset(items)[c] else 0
    {
      r := items;
      if f.kind.Some? {
        r := Select(r, KindIs(f.kind.value));
      }
      if f.isActive.Some? {
        r := Select(r, ActiveIs(f.isActive.value));
      }
      assert r == ActiveStep(TypeStep(items, f), f);
      FindAllMeaning(items, f);
    }

    function FindByType(kind: CompanyType): (r: seq<Company>)
      reads this, items
      ensures Subseq(r, items)
      ensures forall c | c in r :: c in items && c.kind == kind
      ensures forall j | 0 <= j < |items| && items[j].kind == kind :: items[j] in r
      ensures forall c | c in items :: multiset(r)[c] == if c.kind == kind then multiset(items)[c] else 0
    {
      SelectSpec(items, KindIs(kind));
      Select(items, KindIs(kind))
    }

    function FindActiveCompanies(): (r: seq<Company>)
      reads this, items
      ensures Subseq(r, items)
      ensures forall c | c in r :: c in items && c.isActive
      ensures forall j | 0 <= j < |items| && items[j].isActive :: items[j] in r
      ensures forall c | c in items :: multiset(r)[c] == if c.isActive then multiset(items)[c] else 0
    {
      SelectSpec(items, ActiveIs(true));
      Select(items, ActiveIs(true))
    }

    /** `save` appends without looking for an existing id. */
    method Save(c: Company) returns (r: Company)
      modifies this
      ensures items == old(items) + [c] && r == c
    {
      items := items + [c];
      r := c;
    }

    /** `update` replaces the first company with the same id, or throws. */
    method Update(c: Company) returns (r: Result<Company, Failure>)
      modifies this
      ensures match PositionIn(old(items), c.id)
              case None => r == Failure(CompanyNotFound) && items == old(items)
              case Some(i) => r == Success(c) && items == old(items)[i := c]
    {
      match PositionIn(items, c.id)
      case None =>
        return Failure(CompanyNotFound);
      case Some(i) =>
        items := items[i := c];
        return Success(c);
    }

    method Delete(id: UniqueId) returns (deleted: bool)
      modifies this
      ensures match PositionIn(old(items), id)
              case None => !deleted && items == old(items)
              case Some(i) => deleted && items == RemoveAt(old(items), i)
    {
      match PositionIn(items, id)
      case None =>
        return false;
      case Some(i) =>
        items := RemoveAt(items, i);
        return true;
    }

    function Exists(id: UniqueId): (b: bool)
      reads this
      ensures b <==> FindById(id).Some?
    {
      exists j | 0 <= j < |items| :: items[j].id == id
    }

    method Seed(cs: seq<Company>)
      modifies this
      ensures items == cs
    {
      items := cs;
    }

    method Clear()
      modifies this
      ensures items == []
    {
      items := [];
    }
  }

  // ------------------------------------------------------------------ laws

  /** After `save(c)`, an earlier company with the same id still shadows `c`. */
  lemma FindAfterSave(s: seq<Company>, c: Company, id: UniqueId)
    ensures FindIn(s + [c], id)
         == if FindIn(s, id).Some? then FindIn(s, id) else if c.id == id then Some(c) else None
  {
    FirstIndexAppend(s, [c], (x: Company) => x.id, id);
    assert (s + [c])[|s|] == c;
    match PositionIn(s, id)
    case Some(i) => assert (s + [c])[i] == s[i];
    case None =>
  }

  lemma FindAfterUpdate(s: seq<Company>, c: Company, other: UniqueId)
    requires PositionIn(s, c.id).Some?
    ensures FindIn(s[PositionIn(s, c.id).value := c], c.id) == Some(c)
    ensures other != c.id ==>
      FindIn(s[PositionIn(s, c.id).value := c], other) == FindIn(s, other)
  {
    var i := PositionIn(s, c.id).value;
    FirstIndexReplace(s, (x: Company) => x.id, i, c, other);
    if other != c.id {
      match PositionIn(s, other)
      case Some(j) => assert j != i && s[i := c][j] == s[j];
      case None =>
    }
  }

  lemma DeleteRemovesOne(s: seq<Company>, id: UniqueId)
    requires PositionIn(s, id).Some?
    ensures var i := PositionIn(s, id).value;
      |RemoveAt(s, i)| == |s| - 1 && multiset(RemoveAt(s, i)) == multiset(s) - multiset{s[i]}
  {
    RemoveAtMultiset(s, PositionIn(s, id).value);
  }

  /** Without filters `findAll` returns the stored list itself. */
  lemma NoFiltersReturnAll(s: seq<Company>)
    ensures ActiveStep(TypeStep(s, CompanyFilters(None, None)), CompanyFilters(None, None)) == s
  {
  }

  /** `findByType` and `findActiveCompanies` return what `findAll` returns with
      that one filter set. */
  lemma FindersAreFilters(s: seq<Company>, t: CompanyType)
    ensures Select(s, KindIs(t)) == ActiveStep(TypeStep(s, CompanyFilters(Some(t), None)), CompanyFilters(Some(t), None))
    ensures Select(s, ActiveIs(true))
         == ActiveStep(TypeStep(s, CompanyFilters(None, Some(true))), CompanyFilters(None, Some(true)))
  {
  }
}
