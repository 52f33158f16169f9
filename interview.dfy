/** The Interview aggregate (src/domain/entities/interview.ts): a class whose
    mutators follow the lifecycle PENDING -> IN_PROGRESS -> COMPLETED/CANCELLED
    and whose message list only grows.

    The pure part comes first: the snapshot `InterviewState` (the fields the
    getters and `toJSON` expose), the queries over it, and one transition
    function per mutator. The class `Interview` then holds the fields and ties
    each mutator to its transition function; lemmas at the end state what the
    lifecycle guarantees. Clock readings are the parameter `now` (milliseconds);
    freshly generated ids are parameters too. */
module Interviews {
  import opened Wrappers
  import opened Enums
  import opened Failures
  import opened ValueObjects
  import opened Sequences

  // ------------------------------------------------------------------ values

  /** The free-form `metadata` record; its values are kept opaque. */
  datatype MetaValue = Flag(flag: bool) | Number(number: int) | Str(text: string)
  type Metadata = map<string, MetaValue>

  datatype InterviewMessage = InterviewMessage(
    id: UniqueId,
    sender: MessageSender,
    kind: MessageType,
    content: string,
    timestamp: int,
    metadata: Option<Metadata>)

  /** The constructor argument `InterviewProps`; optional fields are Options. */
  datatype InterviewProps = InterviewProps(
    id: Option<UniqueId>,
    characterId: UniqueId,
    companyId: UniqueId,
    kind: InterviewType,
    status: InterviewStatus,
    title: string,
    description: Option<string>,
    messages: seq<InterviewMessage>,
    durationMinutes: Option<int>,
    score: Option<int>,
    feedback: Option<string>,
    startedAt: Option<int>,
    endedAt: Option<int>,
    createdAt: Option<int>,
    updatedAt: Option<int>)

  /** Everything an Interview holds, as one value. */
  datatype InterviewState = InterviewState(
    id: UniqueId,
    characterId: UniqueId,
    companyId: UniqueId,
    kind: InterviewType,
    status: InterviewStatus,
    title: string,
    description: Option<string>,
    messages: seq<InterviewMessage>,
    durationMinutes: Option<int>,
    score: Option<int>,
    feedback: Option<string>,
    startedAt: Option<int>,
    endedAt: Option<int>,
    createdAt: int,
    updatedAt: int)
  {
    /** `getLastMessage()`: `messages[length - 1]`, undefined on an empty list. */
    function LastMessage(): (r: Option<InterviewMessage>)
      ensures r.None? <==> messages == []
      ensures r.Some? ==> r.value == messages[|messages| - 1]
    {
      if messages == [] then None else Some(messages[|messages| - 1])
    }

    function MessagesByType(t: MessageType): seq<InterviewMessage> {
      Filter(messages, (m: InterviewMessage) => m.kind == t)
    }

    function MessagesBySender(sender: MessageSender): seq<InterviewMessage> {
      Filter(messages, (m: InterviewMessage) => m.sender == sender)
    }

    /** `getConversationLength()`: the TEXT, QUESTION and ANSWER messages. */
    function ConversationLength(): nat {
      |Filter(messages, IsConversational)|
    }

    predicate IsActive() { status == IN_PROGRESS }
    predicate IsPending() { status == PENDING }
    predicate IsCompleted() { status == COMPLETED }
    predicate IsCancelled() { status == CANCELLED }
  }

  predicate IsConversational(m: InterviewMessage) {
    m.kind == TEXT || m.kind == QUESTION || m.kind == ANSWER
  }

  const MillisPerMinute: int := 1000 * 60

  /** `Math.floor((ended - started) / (1000 * 60))` on millisecond timestamps. */
  function MinutesBetween(started: int, ended: int): (r: int)
    ensures r * MillisPerMinute <= ended - started < (r + 1) * MillisPerMinute
    ensures started <= ended ==> r >= 0
  {
    (ended - started) / MillisPerMinute
  }

  // ------------------------------------------------------------ construction

  /** `new Interview(props)`: a missing id is generated, missing timestamps are `now`. */
  function Hydrate(p: InterviewProps, generatedId: UniqueId, now: int): InterviewState {
    InterviewState(
      p.id.GetOr(generatedId), p.characterId, p.companyId, p.kind, p.status, p.title,
      p.description, p.messages, p.durationMinutes, p.score, p.feedback,
      p.startedAt, p.endedAt, p.createdAt.GetOr(now), p.updatedAt.GetOr(now))
  }

  /** The props `Interview.create` passes on: its parameter type omits the id and
      both timestamps, and it overrides status and messages. */
  function ForCreation(p: InterviewProps): InterviewProps {
    p.(id := None, createdAt := None, updatedAt := None, status := PENDING, messages := [])
  }

  /** The props that re-create a stored interview exactly. */
  function Persisted(s: InterviewState): InterviewProps {
    InterviewProps(
      Some(s.id), s.characterId, s.companyId, s.kind, s.status, s.title, s.description,
      s.messages, s.durationMinutes, s.score, s.feedback, s.startedAt, s.endedAt,
      Some(s.createdAt), Some(s.updatedAt))
  }

  // ------------------------------------------------------------- transitions

  function Started(s: InterviewState, now: int): Result<InterviewState, Failure> {
    if s.status != PENDING then Failure(NotStartable)
    else Success(s.(status := IN_PROGRESS, startedAt := Some(now), updatedAt := now))
  }

  function Completed(s: InterviewState, score: Option<int>, feedback: Option<string>, now: int)
    : Result<InterviewState, Failure>
  {
    if s.status != IN_PROGRESS then Failure(NotCompletable)
    else
      var duration := if s.startedAt.Some? then Some(MinutesBetween(s.startedAt.value, now))
                      else s.durationMinutes;
      Success(s.(status := COMPLETED, endedAt := Some(now), score := score, feedback := feedback,
                 durationMinutes := duration, updatedAt := now))
  }

  function Cancelled(s: InterviewState, now: int): Result<InterviewState, Failure> {
    if s.status == COMPLETED then Failure(CannotCancelCompleted)
    else Success(s.(status := CANCELLED, endedAt := Some(now), updatedAt := now))
  }

  /** `addMessage`: the new message is stamped with the same instant that becomes `updated_at`. */
  function WithMessage(s: InterviewState, m: InterviewMessage): Result<InterviewState, Failure> {
    if s.status != IN_PROGRESS then Failure(NotAcceptingMessages)
    else Success(s.(messages := s.messages + [m], updatedAt := m.timestamp))
  }

  /** The state a mutator leaves behind: the new state, or the old one when it threw. */
  function After(r: Result<InterviewState, Failure>, before: InterviewState): InterviewState {
    if r.Success? then r.value else before
  }

  function OutcomeOf(r: Result<InterviewState, Failure>): Outcome<Failure> {
    if r.Success? then Pass else Fail(r.error)
  }

  // ------------------------------------------------------------------ entity

  class Interview {
    const id: UniqueId
    const characterId: UniqueId
    const companyId: UniqueId
    const kind: InterviewType
    var status: InterviewStatus
    const title: string
    const description: Option<string>
    var messages: seq<InterviewMessage>
    var durationMinutes: Option<int>
    var score: Option<int>
    var feedback: Option<string>
    var startedAt: Option<int>
    var endedAt: Option<int>
    const createdAt: int
    var updatedAt: int

    /** The getters, together. `messages` is returned by value, as the getter's
        defensive copy `[...this._messages]` returns it. */
    function State(): InterviewState
      reads this
    {
      InterviewState(id, characterId, companyId, kind, status, title, description, messages,
                     durationMinutes, score, feedback, startedAt, endedAt, createdAt, updatedAt)
    }

    /** `Interview.fromPersistence(props)`, i.e. `new Interview(props)`. The source
        keeps the caller's `messages` array itself; here the transcript is copied
        as a value, so later changes on either side stay apart. */
    constructor FromPersistence(p: InterviewProps, generatedId: UniqueId, now: int)
      ensures State() == Hydrate(p, generatedId, now)
    {
      id := p.id.GetOr(generatedId);
      characterId := p.characterId;
      companyId := p.companyId;
      kind := p.kind;
      status := p.status;
      title := p.title;
      description := p.description;
      messages := p.messages;
      durationMinutes := p.durationMinutes;
      score := p.score;
      feedback := p.feedback;
      startedAt := p.startedAt;
      endedAt := p.endedAt;
      createdAt := p.createdAt.GetOr(now);
      updatedAt := p.updatedAt.GetOr(now);
    }

    /** `Interview.create(props)`: always PENDING with no messages, a generated id,
        both timestamps `now`; every other field as supplied. */
    constructor Create(p: InterviewProps, generatedId: UniqueId, now: int)
      ensures State() == Hydrate(ForCreation(p), generatedId, now)
      ensures status == PENDING && messages == [] && id == generatedId
    {
      id := generatedId;
      characterId := p.characterId;
      companyId := p.companyId;
      kind := p.kind;
      status := PENDING;
      title := p.title;
      description := p.description;
      messages := [];
      durationMinutes := p.durationMinutes;
      score := p.score;
      feedback := p.feedback;
      startedAt := p.startedAt;
      endedAt := p.endedAt;
      createdAt := now;
      updatedAt := now;
    }

    method Start(now: int) returns (r: Outcome<Failure>)
      modifies this
      ensures r == OutcomeOf(Started(old(State()), now))
      ensures State() == After(Started(old(State()), now), old(State()))
    {
      if status != PENDING {
        return Fail(NotStartable);
      }
      status := IN_PROGRESS;
      startedAt := Some(now);
      updatedAt := now;
      r := Pass;
    }

    method Complete(score': Option<int>, feedback': Option<string>, now: int) returns (r: Outcome<Failure>)
      modifies this
      ensures r == OutcomeOf(Completed(old(State()), score', feedback', now))
      ensures State() == After(Completed(old(State()), score', feedback', now), old(State()))
    {
      if status != IN_PROGRESS {
        return Fail(NotCompletable);
      }
      status := COMPLETED;
      endedAt := Some(now);
      score := score';
      feedback := feedback';
      if startedAt.Some? {
        durationMinutes := Some(MinutesBetween(startedAt.value, now));
      }
      updatedAt := now;
      r := Pass;
    }

    method Cancel(now: int) returns (r: Outcome<Failure>)
      modifies this
      ensures r == OutcomeOf(Cancelled(old(State()), now))
      ensures State() == After(Cancelled(old(State()), now), old(State()))
    {
      if status == COMPLETED {
        return Fail(CannotCancelCompleted);
      }
      status := CANCELLED;
      endedAt := Some(now);
      updatedAt := now;
      r := Pass;
    }

    /** `addMessage(sender, type, content, metadata?)`; `messageId` is the freshly generated id. */
    method AddMessage(messageId: UniqueId, sender: MessageSender, kind': MessageType,
                      content: string, metadata: Option<Metadata>, now: int)
      returns (r: Outcome<Failure>)
      modifies this
      ensures var m := InterviewMessage(messageId, sender, kind', content, now, metadata);
              r == OutcomeOf(WithMessage(old(State()), m))
              && State() == After(WithMessage(old(State()), m), old(State()))
    {
      if status != IN_PROGRESS {
        return Fail(NotAcceptingMessages);
      }
      var message := InterviewMessage(messageId, sender, kind', content, now, metadata);
      messages := messages + [message];
      updatedAt := now;
      r := Pass;
    }
  }

  // --------------------------------------------------------- serialisation

  datatype MessageJson = MessageJson(
    id: string, sender: MessageSender, kind: MessageType, content: string,
    timestamp: int, metadata: Option<Metadata>)

  /** The shape of `toJSON()`: ids flattened to their strings; timestamps stay abstract. */
  datatype InterviewJson = InterviewJson(
    id: string, characterId: string, companyId: string, kind: InterviewType,
    status: InterviewStatus, title: string, description: Option<string>,
    messages: seq<MessageJson>, durationMinutes: Option<int>, score: Option<int>,
    feedback: Option<string>, startedAt: Option<int>, endedAt: Option<int>,
    createdAt: int, updatedAt: int)

  function MessageToJson(m: InterviewMessage): MessageJson {
    MessageJson(m.id.value, m.sender, m.kind, m.content, m.timestamp, m.metadata)
  }

  function MessagesToJson(ms: seq<InterviewMessage>): (r: seq<MessageJson>)
    ensures |r| == |ms|
    ensures forall k | 0 <= k < |ms| :: r[k] == MessageToJson(ms[k])
  {
    if ms == [] then [] else [MessageToJson(ms[0])] + MessagesToJson(ms[1..])
  }

  function ToJson(s: InterviewState): InterviewJson {
    InterviewJson(
      s.id.value, s.characterId.value, s.companyId.value, s.kind, s.status, s.title,
      s.description, MessagesToJson(s.messages), s.durationMinutes, s.score, s.feedback,
      s.startedAt, s.endedAt, s.createdAt, s.updatedAt)
  }
}
