/** The character queries (src/application/use-cases/get-characters.ts). Each
    use case holds the character repository it was built with and passes the
    query on; a blank id for the single lookup throws. */
module CharacterQueries {
  import opened Wrappers
  import opened Enums
  import opened Failures
  import opened ValueObjects
  import opened Characters
  import opened CharacterRepositories
  import opened Sequences
  import Text

  /** `GetCharactersQuery`; every field may be absent. */
  datatype GetCharactersQuery = GetCharactersQuery(
    role: Option<CharacterRole>,
    gender: Option<Gender>,
    companyType: Option<CompanyType>,
    activeOnly: Option<bool>)

  /** The filters `GetCharactersUseCase` hands to `findAll`: `active_only`
      becomes `is_active` unchanged. */
  function FiltersOf(q: GetCharactersQuery): CharacterFilters {
    CharacterFilters(q.role, q.gender, q.companyType, q.activeOnly)
  }

  /** What a query asks of a character, field by field. */
  lemma QueryMeaning(q: GetCharactersQuery, c: CharacterState)
    ensures FiltersOf(q).Admits(c) <==>
      && (q.role.Some? ==> c.role == q.role.value)
      && (q.gender.Some? ==> c.gender == q.gender.value)
      && (q.companyType.Some? ==> c.companyType == q.companyType.value)
      && (q.activeOnly == Some(true) ==> c.isActive)
      && (q.activeOnly == Some(false) ==> !c.isActive)
  {
  }

  /** `active_only: false` does not mean "any": it keeps only inactive characters. */
  lemma ActiveOnlyFalseSelectsInactive(q: GetCharactersQuery, c: CharacterState)
    requires q.activeOnly == Some(false)
    ensures FiltersOf(q).Admits(c) ==> !c.isActive
    ensures c.isActive ==> !FiltersOf(q).Admits(c)
  {
  }

  /** The empty query `{}` returns every stored character. */
  lemma EmptyQueryAdmitsAll(c: CharacterState)
    ensures FiltersOf(GetCharactersQuery(None, None, None, None)).Admits(c)
  {
  }

  class GetCharactersUseCase {
    const characters: CharacterRepository

    constructor (characters: CharacterRepository)
      ensures this.characters == characters
    {
      this.characters := characters;
    }

    method Execute(q: GetCharactersQuery) returns (r: seq<Character>)
      ensures r == Stages(characters.items, FiltersOf(q), 4)
      ensures Subseq(r, characters.items)
      ensures forall c | c in r :: c in characters.items && FiltersOf(q).Admits(c.State())
      ensures forall j | 0 <= j < |characters.items| && FiltersOf(q).Admits(characters.items[j].State())
                :: characters.items[j] in r
      ensures forall c | c in characters.items
                :: multiset(r)[c] == if FiltersOf(q).Admits(c.State()) then multiset(characters.items)[c] else 0
    {
      r := characters.FindAll(FiltersOf(q));
    }
  }

  class GetCharacterByIdUseCase {
    const characters: CharacterRepository

    constructor (characters: CharacterRepository)
      ensures this.characters == characters
    {
      this.characters := characters;
    }

    /** `execute(id)`: a blank id throws; otherwise the stored character or null. */
    method Execute(raw: string) returns (r: Result<Option<Character>, Failure>)
      ensures r.Failure? <==> Text.AllSpace(raw)
      ensures r.Failure? ==> r.error == EmptyUniqueId
      ensures r.Success? ==> r.value == characters.FindById(UniqueId(raw))
    {
      var id := IdFrom(raw);
      if id.Failure? {
        return Failure(id.error);
      }
      r := Success(characters.FindById(id.value));
    }
  }

  class GetCharactersByRoleUseCase {
    const characters: CharacterRepository

    constructor (characters: CharacterRepository)
      ensures this.characters == characters
    {
      this.characters := characters;
    }

    method Execute(role: CharacterRole) returns (r: seq<Character>)
      ensures r == characters.FindByRole(role)
      ensures Subseq(r, characters.items)
      ensures forall c | c in r :: c in characters.items && c.role == role
      ensures forall j | 0 <= j < |characters.items| && characters.items[j].role == role
                :: characters.items[j] in r
    {
      r := characters.FindByRole(role);
    }
  }

  class GetCharactersByCompanyTypeUseCase {
    const characters: CharacterRepository

    constructor (characters: CharacterRepository)
      ensures this.characters == characters
    {
      this.characters := characters;
    }

    /** Startup characters serve every company type. */
    method Execute(companyType: CompanyType) returns (r: seq<Character>)
      ensures r == characters.FindByCompanyType(companyType)
      ensures Subseq(r, characters.items)
      ensures forall c | c in r :: c in characters.items && Compatible(c.companyType, companyType)
      ensures forall j | 0 <= j < |characters.items| && Compatible(characters.items[j].companyType, companyType)
                :: characters.items[j] in r
    {
      r := characters.FindByCompanyType(companyType);
    }
  }

  class GetActiveCharactersUseCase {
    const characters: CharacterRepository

    constructor (characters: CharacterRepository)
      ensures this.characters == characters
    {
      this.characters := characters;
    }

    method Execute() returns (r: seq<Character>)
      ensures r == characters.FindActiveCharacters()
      ensures Subseq(r, characters.items)
      ensures forall c | c in r :: c in characters.items && c.isActive
      ensures forall j | 0 <= j < |characters.items| && characters.items[j].isActive :: characters.items[j] in r
    {
      r := characters.FindActiveCharacters();
    }
  }
}
