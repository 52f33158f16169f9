/** The Character entity (src/domain/entities/character.ts): an interviewer
    persona with a role, a gender and the company type it belongs to. Name,
    description, personality, appearance and the active flag are updated in
    place, each update restamping `updated_at`. Clock readings are the
    parameter `now`; a freshly generated id is a parameter too. */
module Characters {
  import opened Wrappers
  import opened Enums
  import opened ValueObjects

  // ------------------------------------------------------------------ values

  datatype Personality = Personality(
    traits: seq<string>,
    communicationStyle: string,
    expertiseAreas: seq<string>,
    interviewApproach: string)

  datatype Appearance = Appearance(
    avatarUrl: string,
    idleVideoUrl: string,
    greetingVideoUrl: string,
    thinkingVideoUrl: Option<string>,
    speakingVideoUrl: Option<string>)

  /** The constructor argument `CharacterProps`; optional fields are Options. */
  datatype CharacterProps = CharacterProps(
    id: Option<UniqueId>,
    name: Name,
    role: CharacterRole,
    gender: Gender,
    companyType: CompanyType,
    description: Description,
    personality: Personality,
    appearance: Appearance,
    isActive: bool,
    createdAt: Option<int>,
    updatedAt: Option<int>)

  /** Everything a Character holds, as one value. */
  datatype CharacterState = CharacterState(
    id: UniqueId,
    name: Name,
    role: CharacterRole,
    gender: Gender,
    companyType: CompanyType,
    description: Description,
    personality: Personality,
    appearance: Appearance,
    isActive: bool,
    createdAt: int,
    updatedAt: int)
  {
    /** Name and description were built by their constructors, and the last
        update is not earlier than the creation. */
    ghost predicate Valid() {
      name.Valid() && description.Valid() && createdAt <= updatedAt
    }
  }

  /** The compatibility rule of `isCompatibleWith`: a character serves its own
      company type, and a STARTUP character serves every company type. */
  predicate Compatible(own: CompanyType, target: CompanyType) {
    own == target || own == STARTUP
  }

  /** The greetings `getGreetingMessage` looks up by role. */
  const HrGreeting: string :=
    "Hi! I'm excited to learn more about you and discuss how you might fit into our team culture."
  const TechLeadGreeting: string :=
    "Hello! Let's dive into your technical experience and problem-solving approach."
  const CtoGreeting: string :=
    "Welcome! I'm looking forward to discussing your technical vision and leadership experience."
  const ProductManagerGreeting: string :=
    "Hi there! Let's talk about your product thinking and user-focused approach."
  const SeniorEngineerGreeting: string :=
    "Hey! Ready to explore some technical challenges and discuss your engineering experience?"

  function Greeting(role: CharacterRole): string {
    match role
    case HR => HrGreeting
    case TECH_LEAD => TechLeadGreeting
    case CTO => CtoGreeting
    case PRODUCT_MANAGER => ProductManagerGreeting
    case SENIOR_ENGINEER => SeniorEngineerGreeting
  }

  // ------------------------------------------------------------ construction

  /** `new Character(props)`: a missing id is generated, missing timestamps are `now`. */
  function Hydrate(p: CharacterProps, generatedId: UniqueId, now: int): CharacterState {
    CharacterState(
      p.id.GetOr(generatedId), p.name, p.role, p.gender, p.companyType, p.description,
      p.personality, p.appearance, p.isActive, p.createdAt.GetOr(now), p.updatedAt.GetOr(now))
  }

  /** The props `Character.create` passes on: its parameter type omits the id
      and both timestamps. */
  function ForCreation(p: CharacterProps): CharacterProps {
    p.(id := None, createdAt := None, updatedAt := None)
  }

  /** The props that re-create a stored character exactly. */
  function Persisted(s: CharacterState): CharacterProps {
    CharacterProps(
      Some(s.id), s.name, s.role, s.gender, s.companyType, s.description,
      s.personality, s.appearance, s.isActive, Some(s.createdAt), Some(s.updatedAt))
  }

  // ------------------------------------------------------------------ entity

  class Character {
    const id: UniqueId
    var name: Name
    const role: CharacterRole
    const gender: Gender
    const companyType: CompanyType
    var description: Description
    var personality: Personality
    var appearance: Appearance
    var isActive: bool
    const createdAt: int
    var updatedAt: int

    /** The getters, together. */
    function State(): CharacterState
      reads this
    {
      CharacterState(id, name, role, gender, companyType, description, personality,
                     appearance, isActive, createdAt, updatedAt)
    }

    /** `Character.fromPersistence(props)`, i.e. `new Character(props)`. */
    constructor FromPersistence(p: CharacterProps, generatedId: UniqueId, now: int)
      ensures State() == Hydrate(p, generatedId, now)
    {
      id := p.id.GetOr(generatedId);
      name := p.name;
      role := p.role;
      gender := p.gender;
      companyType := p.companyType;
      description := p.description;
      personality := p.personality;
      appearance := p.appearance;
      isActive := p.isActive;
      createdAt := p.createdAt.GetOr(now);
      updatedAt := p.updatedAt.GetOr(now);
    }

    /** `Character.create(props)`: a generated id and both timestamps `now`. */
    constructor Create(p: CharacterProps, generatedId: UniqueId, now: int)
      ensures State() == Hydrate(ForCreation(p), generatedId, now)
      ensures p.name.Valid() && p.description.Valid() ==> State().Valid()
    {
      id := generatedId;
      name := p.name;
      role := p.role;
      gender := p.gender;
      companyType := p.companyType;
      description := p.description;
      personality := p.personality;
      appearance := p.appearance;
      isActive := p.isActive;
      createdAt := now;
      updatedAt := now;
    }

    method UpdateName(name': Name, now: int)
      modifies this
      ensures State() == old(State()).(name := name', updatedAt := now)
      ensures old(State().Valid()) && name'.Valid() && old(updatedAt) <= now ==> State().Valid()
    {
      name := name';
      updatedAt := now;
    }

    method UpdateDescription(description': Description, now: int)
      modifies this
      ensures State() == old(State()).(description := description', updatedAt := now)
      ensures old(State().Valid()) && description'.Valid() && old(updatedAt) <= now ==> State().Valid()
    {
      description := description';
      updatedAt := now;
    }

    method UpdatePersonality(personality': Personality, now: int)
      modifies this
      ensures State() == old(State()).(personality := personality', updatedAt := now)
      ensures old(State().Valid()) && old(updatedAt) <= now ==> State().Valid()
    {
      personality := personality';
      updatedAt := now;
    }

    method UpdateAppearance(appearance': Appearance, now: int)
      modifies this
      ensures State() == old(State()).(appearance := appearance', updatedAt := now)
      ensures old(State().Valid()) && old(updatedAt) <= now ==> State().Valid()
    {
      appearance := appearance';
      updatedAt := now;
    }

    /** Sets the flag whatever it was before; the timestamp moves either way. */
    method Activate(now: int)
      modifies this
      ensures State() == old(State()).(isActive := true, updatedAt := now)
      ensures old(State().Valid()) && old(updatedAt) <= now ==> State().Valid()
    {
      isActive := true;
      updatedAt := now;
    }

    method Deactivate(now: int)
      modifies this
      ensures State() == old(State()).(isActive := false, updatedAt := now)
      ensures old(State().Valid()) && old(updatedAt) <= now ==> State().Valid()
    {
      isActive := false;
      updatedAt := now;
    }

    /** `isCompatibleWith(companyType)`; the company type never changes, so no heap is read. */
    predicate IsCompatibleWith(target: CompanyType) {
      Compatible(companyType, target)
    }

    /** `getGreetingMessage()`. */
    function GreetingMessage(): string {
      Greeting(role)
    }
  }

  // --------------------------------------------------------- serialisation

  /** The shape of `toJSON()`: id, name and description flattened to their
      strings; timestamps stay abstract. */
  datatype CharacterJson = CharacterJson(
    id: string, name: string, role: CharacterRole, gender: Gender,
    companyType: CompanyType, description: string, personality: Personality,
    appearance: Appearance, isActive: bool, createdAt: int, updatedAt: int)

  function ToJson(s: CharacterState): CharacterJson {
    CharacterJson(
      s.id.value, s.name.value, s.role, s.gender, s.companyType, s.description.value,
      s.personality, s.appearance, s.isActive, s.createdAt, s.updatedAt)
  }

  // ------------------------------------------------------------------ laws

  /** A STARTUP character can interview for every company type; any other
      character only for its own. */
  lemma CompatibilityRule(own: CompanyType, target: CompanyType)
    ensures own == STARTUP ==> Compatible(own, target)
    ensures own != STARTUP ==> (Compatible(own, target) <==> target == own)
    ensures Compatible(own, own)
  {
  }

  /** Compatibility is not symmetric: a startup character serves a FAANG
      company, a FAANG character does not serve a startup. */
  lemma CompatibilityIsOneWay()
    ensures Compatible(STARTUP, FAANG) && !Compatible(FAANG, STARTUP)
  {
  }

  /** Every role has its own, non-empty greeting. */
  lemma GreetingsDistinct(a: CharacterRole, b: CharacterRole)
    ensures Greeting(a) != []
    ensures a != b ==> Greeting(a) != Greeting(b)
  {
    // the greetings already differ in length
    assert |HrGreeting| == 92 && |TechLeadGreeting| == 78 && |CtoGreeting| == 91;
    assert |ProductManagerGreeting| == 75 && |SeniorEngineerGreeting| == 88;
  }

  /** `create` ignores nothing but the id and timestamps it is not given. */
  lemma CreateKeepsProps(p: CharacterProps, generatedId: UniqueId, now: int)
    ensures var s := Hydrate(ForCreation(p), generatedId, now);
      && s.id == generatedId && s.createdAt == now && s.updatedAt == now
      && s.name == p.name && s.role == p.role && s.gender == p.gender
      && s.companyType == p.companyType && s.description == p.description
      && s.personality == p.personality && s.appearance == p.appearance
      && s.isActive == p.isActive
  {
  }

  /** Persisting and re-hydrating yields the identical character. */
  lemma RehydrateRoundTrip(s: CharacterState, generatedId: UniqueId, now: int)
    ensures Hydrate(Persisted(s), generatedId, now) == s
  {
  }

  /** The serialised snapshot determines the character. */
  lemma ToJsonInjective(s: CharacterState, t: CharacterState)
    requires ToJson(s) == ToJson(t)
    ensures s == t
  {
    assert s.id == UniqueId(s.id.value) && t.id == UniqueId(t.id.value);
    assert s.name == Name(s.name.value) && t.name == Name(t.name.value);
    assert s.description == Description(s.description.value);
    assert t.description == Description(t.description.value);
  }
}
