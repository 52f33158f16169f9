/** The interview use cases (src/application/use-cases/interview-management.ts):
    create, start, send a message, complete, fetch one, list the active ones.

    Each use case is a class holding the repositories it was built with. A
    command's raw id strings go through `UniqueId.from` first. The interview a
    use case works on is the reference `findById` returns, so it is changed in
    place; the final `update` writes that same reference back and leaves the
    list as it was. Thrown errors are `Failure` results; clock readings and
    freshly generated ids are parameters. */
module InterviewManagement {
  import opened Wrappers
  import opened Enums
  import opened Failures
  import opened ValueObjects
  import opened Interviews
  import opened Characters
  import opened Companies
  import opened InterviewRepositories
  import opened CharacterRepositories
  import opened CompanyRepositories
  import Text
  import InterviewLaws

  // ---------------------------------------------------------------- commands

  datatype CreateInterviewCommand = CreateInterviewCommand(
    characterId: string,
    companyId: string,
    kind: InterviewType,
    title: string,
    description: Option<string>)

  datatype StartInterviewCommand = StartInterviewCommand(interviewId: string)

  datatype SendMessageCommand = SendMessageCommand(
    interviewId: string,
    sender: MessageSender,
    kind: MessageType,
    content: string,
    metadata: Option<Metadata>)

  datatype CompleteInterviewCommand = CompleteInterviewCommand(
    interviewId: string,
    score: Option<int>,
    feedback: Option<string>)

  // ------------------------------------------------------ what they decide

  /** The checks of `CreateInterviewUseCase.execute`, in their order, and the
      props handed to `Interview.create` when all pass. A missing and an
      inactive character (or company) give the same error. */
  function CreateOutcome(cmd: CreateInterviewCommand, characters: seq<Character>, companies: seq<Company>)
    : Result<InterviewProps, Failure>
    reads characters, companies
  {
    match IdFrom(cmd.characterId)
    case Failure(e) => Failure(e)
    case Success(characterId) =>
      match IdFrom(cmd.companyId)
      case Failure(e) => Failure(e)
      case Success(companyId) =>
        var character := CharacterRepositories.FindIn(characters, characterId);
        var company := CompanyRepositories.FindIn(companies, companyId);
        if character.None? || !character.value.isActive then Failure(CharacterUnavailable)
        else if company.None? || !company.value.isActive then Failure(CompanyUnavailable)
        else if !Compatible(character.value.companyType, company.value.kind) then Failure(IncompatibleCharacter)
        else Success(InterviewProps(
          None, characterId, companyId, cmd.kind, PENDING, cmd.title, cmd.description, [],
          None, None, None, None, None, None, None))
  }

  /** The metadata `{ is_greeting: true }` of the greeting message. */
  const GreetingMetadata: Metadata := map["is_greeting" := Flag(true)]

  function GreetingMessage(greeting: string, messageId: UniqueId, now: int): InterviewMessage {
    InterviewMessage(messageId, AI, TEXT, greeting, now, Some(GreetingMetadata))
  }

  /** The greeting of the character an interview refers to, if that character is stored. */
  function GreetingFor(characters: seq<Character>, characterId: UniqueId): Option<string> {
    match CharacterRepositories.FindIn(characters, characterId)
    case None => None
    case Some(c) => Some(c.GreetingMessage())
  }

  /** `start()`, then, when the character was found, its greeting from the AI. */
  function StartedWithGreeting(s: InterviewState, greeting: Option<string>, messageId: UniqueId, now: int)
    : Result<InterviewState, Failure>
  {
    match Started(s, now)
    case Failure(e) => Failure(e)
    case Success(t) =>
      if greeting.None? then Success(t) else WithMessage(t, GreetingMessage(greeting.value, messageId, now))
  }

  /** `SendMessageUseCase`: the activity check, then `addMessage`. */
  function Sent(s: InterviewState, m: InterviewMessage): Result<InterviewState, Failure> {
    if !s.IsActive() then Failure(InterviewNotActive) else WithMessage(s, m)
  }

  /** The interviews a use case given the raw id `raw` may change: the one
      `findById` returns, if any. */
  function Target(s: seq<Interview>, raw: string): set<Interview> {
    match IdFrom(raw)
    case Failure(_) => {}
    case Success(id) =>
      match InterviewRepositories.FindIn(s, id)
      case None => {}
      case Some(i) => {i}
  }

  function Thrown<T>(r: Result<InterviewState, Failure>, value: T): Result<T, Failure> {
    if r.Success? then Success(value) else Failure(r.error)
  }

  // --------------------------------------------------------------- use cases

  class CreateInterviewUseCase {
    const interviews: InterviewRepository
    const characters: CharacterRepository
    const companies: CompanyRepository

    constructor (interviews: InterviewRepository, characters: CharacterRepository, companies: CompanyRepository)
      ensures this.interviews == interviews && this.characters == characters && this.companies == companies
    {
      this.interviews := interviews;
      this.characters := characters;
      this.companies := companies;
    }

    /** The checks `execute` makes before creating anything, in their order. */
    method Validate(cmd: CreateInterviewCommand) returns (r: Result<InterviewProps, Failure>)
      ensures r == CreateOutcome(cmd, characters.items, companies.items)
    {
      var characterId := IdFrom(cmd.characterId);
      if characterId.Failure? {
        return Failure(characterId.error);
      }
      var companyId := IdFrom(cmd.companyId);
      if companyId.Failure? {
        return Failure(companyId.error);
      }
      var character := characters.FindById(characterId.value);
      if character.None? || !character.value.isActive {
        return Failure(CharacterUnavailable);
      }
      var company := companies.FindById(companyId.value);
      if company.None? || !company.value.isActive {
        return Failure(CompanyUnavailable);
      }
      if !character.value.IsCompatibleWith(company.value.kind) {
        return Failure(IncompatibleCharacter);
      }
      r := Success(InterviewProps(
        None, characterId.value, companyId.value, cmd.kind, PENDING, cmd.title, cmd.description, [],
        None, None, None, None, None, None, None));
    }

    /** `execute(command)`; `generatedId` is the id `Interview.create` generates. */
    method Execute(cmd: CreateInterviewCommand, generatedId: UniqueId, now: int) returns (r: Result<Interview, Failure>)
      modifies interviews
      ensures match old(CreateOutcome(cmd, characters.items, companies.items))
        case Failure(e) => r == Failure(e) && interviews.items == old(interviews.items)
        case Success(props) =>
          && r.Success? && fresh(r.value)
          && r.value.State() == Interviews.Hydrate(Interviews.ForCreation(props), generatedId, now)
          && interviews.items == old(interviews.items) + [r.value]
    {
      var checked := Validate(cmd);
      if checked.Failure? {
        return Failure(checked.error);
      }
      var interview := new Interview.Create(checked.value, generatedId, now);
      var saved := interviews.Save(interview);
      return Success(saved);
    }
  }

  class StartInterviewUseCase {
    const interviews: InterviewRepository
    const characters: CharacterRepository

    constructor (interviews: InterviewRepository, characters: CharacterRepository)
      ensures this.interviews == interviews && this.characters == characters
    {
      this.interviews := interviews;
      this.characters := characters;
    }

    /** `execute(command)`; `messageId` is the id the greeting message gets. */
    method Execute(cmd: StartInterviewCommand, messageId: UniqueId, now: int) returns (r: Result<Interview, Failure>)
      modifies interviews, Target(interviews.items, cmd.interviewId)
      ensures interviews.items == old(interviews.items)
      ensures match IdFrom(cmd.interviewId)
        case Failure(e) => r == Failure(e)
        case Success(id) =>
          match InterviewRepositories.FindIn(old(interviews.items), id)
          case None => r == Failure(InterviewNotFound)
          case Some(i) =>
            var outcome := StartedWithGreeting(old(i.State()), GreetingFor(characters.items, i.characterId), messageId, now);
            r == Thrown(outcome, i) && i.State() == After(outcome, old(i.State()))
    {
      var id := IdFrom(cmd.interviewId);
      if id.Failure? {
        return Failure(id.error);
      }
      var found := interviews.FindById(id.value);
      if found.None? {
        return Failure(InterviewNotFound);
      }
      var interview := found.value;
      var started := interview.Start(now);
      if started.Fail? {
        return Failure(started.error);
      }
      var character := characters.FindById(interview.characterId);
      if character.Some? {
        var greeting := character.value.GreetingMessage();
        var added := interview.AddMessage(messageId, AI, TEXT, greeting, Some(GreetingMetadata), now);
      }
      UpdateWithFoundIsIdentity(interviews.items, id.value);
      r := interviews.Update(interview);
    }
  }

  class SendMessageUseCase {
    const interviews: InterviewRepository

    constructor (interviews: InterviewRepository)
      ensures this.interviews == interviews
    {
      this.interviews := interviews;
    }

    /** `execute(command)`; `messageId` is the id the new message gets. */
    method Execute(cmd: SendMessageCommand, messageId: UniqueId, now: int) returns (r: Result<Interview, Failure>)
      modifies interviews, Target(interviews.items, cmd.interviewId)
      ensures interviews.items == old(interviews.items)
      ensures match IdFrom(cmd.interviewId)
        case Failure(e) => r == Failure(e)
        case Success(id) =>
          match InterviewRepositories.FindIn(old(interviews.items), id)
          case None => r == Failure(InterviewNotFound)
          case Some(i) =>
            var m := InterviewMessage(messageId, cmd.sender, cmd.kind, cmd.content, now, cmd.metadata);
            var outcome := Sent(old(i.State()), m);
            r == Thrown(outcome, i) && i.State() == After(outcome, old(i.State()))
    {
      var id := IdFrom(cmd.interviewId);
      if id.Failure? {
        return Failure(id.error);
      }
      var found := interviews.FindById(id.value);
      if found.None? {
        return Failure(InterviewNotFound);
      }
      var interview := found.value;
      if !interview.State().IsActive() {
        return Failure(InterviewNotActive);
      }
      var added := interview.AddMessage(messageId, cmd.sender, cmd.kind, cmd.content, cmd.metadata, now);
      UpdateWithFoundIsIdentity(interviews.items, id.value);
      r := interviews.Update(interview);
    }
  }

  class CompleteInterviewUseCase {
    const interviews: InterviewRepository

    constructor (interviews: InterviewRepository)
      ensures this.interviews == interviews
    {
      this.interviews := interviews;
    }

    method Execute(cmd: CompleteInterviewCommand, now: int) returns (r: Result<Interview, Failure>)
      modifies interviews, Target(interviews.items, cmd.interviewId)
      ensures interviews.items == old(interviews.items)
      ensures match IdFrom(cmd.interviewId)
        case Failure(e) => r == Failure(e)
        case Success(id) =>
          match InterviewRepositories.FindIn(old(interviews.items), id)
          case None => r == Failure(InterviewNotFound)
          case Some(i) =>
            var outcome := Completed(old(i.State()), cmd.score, cmd.feedback, now);
            r == Thrown(outcome, i) && i.State() == After(outcome, old(i.State()))
    {
      var id := IdFrom(cmd.interviewId);
      if id.Failure? {
        return Failure(id.error);
      }
      var found := interviews.FindById(id.value);
      if found.None? {
        return Failure(InterviewNotFound);
      }
      var interview := found.value;
      var completed := interview.Complete(cmd.score, cmd.feedback, now);
      if completed.Fail? {
        return Failure(completed.error);
      }
      UpdateWithFoundIsIdentity(interviews.items, id.value);
      r := interviews.Update(interview);
    }
  }

  class GetInterviewUseCase {
    const interviews: InterviewRepository

    constructor (interviews: InterviewRepository)
      ensures this.interviews == interviews
    {
      this.interviews := interviews;
    }

    /** `execute(id)`: a blank id throws; otherwise the stored interview or null. */
    method Execute(raw: string) returns (r: Result<Option<Interview>, Failure>)
      ensures r.Failure? <==> Text.AllSpace(raw)
      ensures r.Failure? ==> r.error == EmptyUniqueId
      ensures r.Success? ==> r.value == interviews.FindById(UniqueId(raw))
    {
      var id := IdFrom(raw);
      if id.Failure? {
        return Failure(id.error);
      }
      r := Success(interviews.FindById(id.value));
    }
  }

  class GetActiveInterviewsUseCase {
    const interviews: InterviewRepository

    constructor (interviews: InterviewRepository)
      ensures this.interviews == interviews
    {
      this.interviews := interviews;
    }

    /** `execute()`: the repository's active interviews, in stored order. */
    method Execute() returns (r: seq<Interview>)
      ensures r == interviews.FindActiveInterviews()
      ensures forall i | i in r :: i in interviews.items && i.status == IN_PROGRESS
      ensures forall j | 0 <= j < |interviews.items| && interviews.items[j].status == IN_PROGRESS
                :: interviews.items[j] in r
    {
      r := interviews.FindActiveInterviews();
    }
  }

  // ------------------------------------------------------------------ laws

  /** `create` succeeds exactly when both ids are non-blank, the character and
      the company are stored and active, and the character serves the company's
      type; the first failing check names the error. */
  lemma CreateSucceedsIff(cmd: CreateInterviewCommand, characters: seq<Character>, companies: seq<Company>)
    ensures var r := CreateOutcome(cmd, characters, companies);
      var character := CharacterRepositories.FindIn(characters, UniqueId(cmd.characterId));
      var company := CompanyRepositories.FindIn(companies, UniqueId(cmd.companyId));
      && (r.Success? <==>
            && IdFrom(cmd.characterId).Success? && IdFrom(cmd.companyId).Success?
            && character.Some? && character.value.isActive
            && company.Some? && company.value.isActive
            && Compatible(character.value.companyType, company.value.kind))
      && (r.Failure? ==> r.error in {EmptyUniqueId, CharacterUnavailable, CompanyUnavailable, IncompatibleCharacter})
      && (IdFrom(cmd.characterId).Success? && IdFrom(cmd.companyId).Success?
          && (character.None? || !character.value.isActive)
          ==> r == Failure(CharacterUnavailable))
    ensures var r := CreateOutcome(cmd, characters, companies);
      Text.AllSpace(cmd.characterId) || Text.AllSpace(cmd.companyId) ==> r == Failure(EmptyUniqueId)
    ensures var r := CreateOutcome(cmd, characters, companies);
      var character := CharacterRepositories.FindIn(characters, UniqueId(cmd.characterId));
      var company := CompanyRepositories.FindIn(companies, UniqueId(cmd.companyId));
      && IdFrom(cmd.characterId).Success? && IdFrom(cmd.companyId).Success?
      && character.Some? && character.value.isActive
      && (company.None? || !company.value.isActive)
      ==> r == Failure(CompanyUnavailable)
    ensures var r := CreateOutcome(cmd, characters, companies);
      var character := CharacterRepositories.FindIn(characters, UniqueId(cmd.characterId));
      var company := CompanyRepositories.FindIn(companies, UniqueId(cmd.companyId));
      && IdFrom(cmd.characterId).Success? && IdFrom(cmd.companyId).Success?
      && character.Some? && character.value.isActive
      && company.Some? && company.value.isActive
      && !Compatible(character.value.companyType, company.value.kind)
      ==> r == Failure(IncompatibleCharacter)
  {
  }

  /** The interview `create` builds is PENDING, has no messages and nothing
      recorded yet, and refers to the given ids verbatim. */
  lemma CreatedInterview(cmd: CreateInterviewCommand, characters: seq<Character>, companies: seq<Company>)
    requires CreateOutcome(cmd, characters, companies).Success?
    ensures CreateOutcome(cmd, characters, companies).value
         == InterviewProps(None, UniqueId(cmd.characterId), UniqueId(cmd.companyId), cmd.kind, PENDING,
                           cmd.title, cmd.description, [], None, None, None, None, None, None, None)
  {
    var characterId := IdFrom(cmd.characterId);
    var companyId := IdFrom(cmd.companyId);
    assert characterId.Success? && companyId.Success?;
    assert characterId.value == UniqueId(cmd.characterId);
    assert companyId.value == UniqueId(cmd.companyId);
    var character := CharacterRepositories.FindIn(characters, characterId.value);
    var company := CompanyRepositories.FindIn(companies, companyId.value);
    assert character.Some? && character.value.isActive;
    assert company.Some? && company.value.isActive;
    assert Compatible(character.value.companyType, company.value.kind);
  }

  /** Starting succeeds exactly from PENDING. The interview is then IN_PROGRESS,
      and when its character is stored it gains exactly one message, the AI's
      TEXT greeting marked `is_greeting`. */
  lemma StartIffPendingWithGreeting(s: InterviewState, greeting: Option<string>, messageId: UniqueId, now: int)
    ensures StartedWithGreeting(s, greeting, messageId, now).Success? <==> s.status == PENDING
    ensures StartedWithGreeting(s, greeting, messageId, now).Failure? ==>
      StartedWithGreeting(s, greeting, messageId, now).error == NotStartable
    ensures StartedWithGreeting(s, greeting, messageId, now).Success? ==>
      var t := StartedWithGreeting(s, greeting, messageId, now).value;
      && t.status == IN_PROGRESS && t.startedAt == Some(now) && t.updatedAt == now
      && (greeting.None? ==> t.messages == s.messages)
      && (greeting.Some? ==>
            && t.messages == s.messages + [GreetingMessage(greeting.value, messageId, now)]
            && t.LastMessage().value.sender == AI && t.LastMessage().value.kind == TEXT
            && t.LastMessage().value.content == greeting.value
            && t.LastMessage().value.metadata == Some(map["is_greeting" := Flag(true)]))
  {
  }

  /** The greeting is the one for the stored character's role. */
  lemma GreetingIsByRole(characters: seq<Character>, characterId: UniqueId)
    ensures GreetingFor(characters, characterId).Some? <==>
      CharacterRepositories.FindIn(characters, characterId).Some?
    ensures GreetingFor(characters, characterId).Some? ==>
      GreetingFor(characters, characterId).value
        == Greeting(CharacterRepositories.FindIn(characters, characterId).value.role)
  {
  }

  /** A freshly created interview, once started with its character stored,
      holds just the greeting. */
  lemma FirstMessageIsGreeting(s: InterviewState, greeting: string, messageId: UniqueId, now: int)
    requires s.status == PENDING && s.messages == []
    ensures StartedWithGreeting(s, Some(greeting), messageId, now).Success?
    ensures StartedWithGreeting(s, Some(greeting), messageId, now).value.messages
         == [GreetingMessage(greeting, messageId, now)]
  {
  }

  /** Sending succeeds exactly while IN_PROGRESS; the use case's own check
      answers first, so `addMessage`'s error never surfaces. */
  lemma SendOnlyWhileActive(s: InterviewState, m: InterviewMessage)
    ensures Sent(s, m).Success? <==> s.status == IN_PROGRESS
    ensures Sent(s, m).Failure? ==> Sent(s, m).error == InterviewNotActive
    ensures Sent(s, m).Success? ==> Sent(s, m).value.messages == s.messages + [m]
    ensures Sent(s, m).Success? ==>
      Sent(s, m).value.ConversationLength() == s.ConversationLength() + (if IsConversational(m) then 1 else 0)
  {
    if Sent(s, m).Success? {
      InterviewLaws.ConversationLengthAfterMessage(s, m);
    }
  }

  /** A use case touches at most the one interview the raw id finds. */
  lemma TargetIsFound(s: seq<Interview>, raw: string)
    ensures |Target(s, raw)| <= 1
    ensures forall i | i in Target(s, raw) :: i in s && i.id.value == raw
  {
  }
}
