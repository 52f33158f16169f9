/** The Company entity (src/domain/entities/company.ts): an employer of one
    company type. Name, description, profile, logo and website addresses and
    the active flag are updated in place, each update restamping `updated_at`.
    Clock readings are the parameter `now`; a freshly generated id is a
    parameter too. */
module Companies {
  import opened Wrappers
  import opened Enums
  import opened ValueObjects

  // ------------------------------------------------------------------ values

  datatype Profile = Profile(
    industry: string,
    size: string,
    culture: seq<string>,
    values: seq<string>,
    techStack: Option<seq<string>>,
    benefits: Option<seq<string>>)

  /** The constructor argument `CompanyProps`; optional fields are Options. */
  datatype CompanyProps = CompanyProps(
    id: Option<UniqueId>,
    name: Name,
    kind: CompanyType,
    description: Description,
    profile: Profile,
    logoUrl: Option<string>,
    websiteUrl: Option<string>,
    isActive: bool,
    createdAt: Option<int>,
    updatedAt: Option<int>)

  /** Everything a Company holds, as one value. */
  datatype CompanyState = CompanyState(
    id: UniqueId,
    name: Name,
    kind: CompanyType,
    description: Description,
    profile: Profile,
    logoUrl: Option<string>,
    websiteUrl: Option<string>,
    isActive: bool,
    createdAt: int,
    updatedAt: int)
  {
    ghost predicate Valid() {
      name.Valid() && description.Valid() && createdAt <= updatedAt
    }
  }

  /** The pitches `getInterviewContext` looks up by company type. */
  const StartupContext: string :=
    "We're a fast-growing startup looking for adaptable team members who thrive in dynamic environments."
  const FaangContext: string :=
    "We're a major tech company seeking top-tier talent who can operate at scale and drive innovation."
  const EnterpriseContext: string :=
    "We're an established enterprise focused on reliability, best practices, and long-term solutions."

  function InterviewContext(kind: CompanyType): string {
    match kind
    case STARTUP => StartupContext
    case FAANG => FaangContext
    case ENTERPRISE => EnterpriseContext
  }

  // ------------------------------------------------------------ construction

  /** `new Company(props)`: a missing id is generated, missing timestamps are `now`;
      logo and website stay absent when not given. */
  function Hydrate(p: CompanyProps, generatedId: UniqueId, now: int): CompanyState {
    CompanyState(
      p.id.GetOr(generatedId), p.name, p.kind, p.description, p.profile, p.logoUrl,
      p.websiteUrl, p.isActive, p.createdAt.GetOr(now), p.updatedAt.GetOr(now))
  }

  /** The props `Company.create` passes on: its parameter type omits the id
      and both timestamps. */
  function ForCreation(p: CompanyProps): CompanyProps {
    p.(id := None, createdAt := None, updatedAt := None)
  }

  function Persisted(s: CompanyState): CompanyProps {
    CompanyProps(
      Some(s.id), s.name, s.kind, s.description, s.profile, s.logoUrl, s.websiteUrl,
      s.isActive, Some(s.createdAt), Some(s.updatedAt))
  }

  // ------------------------------------------------------------------ entity

  class Company {
    const id: UniqueId
    var name: Name
    const kind: CompanyType
    var description: Description
    var profile: Profile
    var logoUrl: Option<string>
    var websiteUrl: Option<string>
    var isActive: bool
    const createdAt: int
    var updatedAt: int

    /** The getters, together. */
    function State(): CompanyState
      reads this
    {
      CompanyState(id, name, kind, description, profile, logoUrl, websiteUrl, isActive,
                   createdAt, updatedAt)
    }

    /** `Company.fromPersistence(props)`, i.e. `new Company(props)`. */
    constructor FromPersistence(p: CompanyProps, generatedId: UniqueId, now: int)
      ensures State() == Hydrate(p, generatedId, now)
    {
      id := p.id.GetOr(generatedId);
      name := p.name;
      kind := p.kind;
      description := p.description;
      profile := p.profile;
      logoUrl := p.logoUrl;
      websiteUrl := p.websiteUrl;
      isActive := p.isActive;
      createdAt := p.createdAt.GetOr(now);
      updatedAt := p.updatedAt.GetOr(now);
    }

    /** `Company.create(props)`: a generated id and both timestamps `now`. */
    constructor Create(p: CompanyProps, generatedId: UniqueId, now: int)
      ensures State() == Hydrate(ForCreation(p), generatedId, now)
      ensures p.name.Valid() && p.description.Valid() ==> State().Valid()
    {
      id := generatedId;
      name := p.name;
      kind := p.kind;
      description := p.description;
      profile := p.profile;
      logoUrl := p.logoUrl;
      websiteUrl := p.websiteUrl;
      isActive := p.isActive;
      createdAt := now;
      updatedAt := now;
    }

    method UpdateName(name': Name, now: int)
      modifies this
      ensures State() == old(State()).(name := name', updatedAt := now)
      ensures old(State().Valid()) && name'.Valid() && old(updatedAt) <= now ==> State().Valid()
    {
      name := name';
      updatedAt := now;
    }

    method UpdateDescription(description': Description, now: int)
      modifies this
      ensures State() == old(State()).(description := description', updatedAt := now)
      ensures old(State().Valid()) && description'.Valid() && old(updatedAt) <= now ==> State().Valid()
    {
      description := description';
      updatedAt := now;
    }

    method UpdateProfile(profile': Profile, now: int)
      modifies this
      ensures State() == old(State()).(profile := profile', updatedAt := now)
      ensures old(State().Valid()) && old(updatedAt) <= now ==> State().Valid()
    {
      profile := profile';
      updatedAt := now;
    }

    /** The address is stored as given; it is not validated. */
    method UpdateLogoUrl(logoUrl': string, now: int)
      modifies this
      ensures State() == old(State()).(logoUrl := Some(logoUrl'), updatedAt := now)
      ensures old(State().Valid()) && old(updatedAt) <= now ==> State().Valid()
    {
      logoUrl := Some(logoUrl');
      updatedAt := now;
    }

    method UpdateWebsiteUrl(websiteUrl': string, now: int)
      modifies this
      ensures State() == old(State()).(websiteUrl := Some(websiteUrl'), updatedAt := now)
      ensures old(State().Valid()) && old(updatedAt) <= now ==> State().Valid()
    {
      websiteUrl := Some(websiteUrl');
      updatedAt := now;
    }

    method Activate(now: int)
      modifies this
      ensures State() == old(State()).(isActive := true, updatedAt := now)
      ensures old(State().Valid()) && old(updatedAt) <= now ==> State().Valid()
    {
      isActive := true;
      updatedAt := now;
    }

    method Deactivate(now: int)
      modifies this
      ensures State() == old(State()).(isActive := false, updatedAt := now)
      ensures old(State().Valid()) && old(updatedAt) <= now ==> State().Valid()
    {
      isActive := false;
      updatedAt := now;
    }

    /** `getInterviewContext()`; the company type never changes, so no heap is read. */
    function InterviewContextMessage(): string {
      InterviewContext(kind)
    }
  }

  // --------------------------------------------------------- serialisation

  datatype CompanyJson = CompanyJson(
    id: string, name: string, kind: CompanyType, description: string, profile: Profile,
    logoUrl: Option<string>, websiteUrl: Option<string>, isActive: bool,
    createdAt: int, updatedAt: int)

  function ToJson(s: CompanyState): CompanyJson {
    CompanyJson(
      s.id.value, s.name.value, s.kind, s.description.value, s.profile, s.logoUrl,
      s.websiteUrl, s.isActive, s.createdAt, s.updatedAt)
  }

  // ------------------------------------------------------------------ laws

  /** Every company type has its own, non-empty pitch. */
  lemma ContextsDistinct(a: CompanyType, b: CompanyType)
    ensures InterviewContext(a) != []
    ensures a != b ==> InterviewContext(a) != InterviewContext(b)
  {
    // the pitches already differ in length
    assert |StartupContext| == 99 && |FaangContext| == 97 && |EnterpriseContext| == 96;
  }

  /** `create` keeps every supplied field; logo and website stay absent when not given. */
  lemma CreateKeepsProps(p: CompanyProps, generatedId: UniqueId, now: int)
    ensures var s := Hydrate(ForCreation(p), generatedId, now);
      && s.id == generatedId && s.createdAt == now && s.updatedAt == now
      && s.name == p.name && s.kind == p.kind && s.description == p.description
      && s.profile == p.profile && s.logoUrl == p.logoUrl && s.websiteUrl == p.websiteUrl
      && s.isActive == p.isActive
  {
  }

  lemma RehydrateRoundTrip(s: CompanyState, generatedId: UniqueId, now: int)
    ensures Hydrate(Persisted(s), generatedId, now) == s
  {
  }

  lemma ToJsonInjective(s: CompanyState, t: CompanyState)
    requires ToJson(s) == ToJson(t)
    ensures s == t
  {
    assert s.id == UniqueId(s.id.value) && t.id == UniqueId(t.id.value);
    assert s.name == Name(s.name.value) && t.name == Name(t.name.value);
    assert s.description == Description(s.description.value);
    assert t.description == Description(t.description.value);
  }
}
