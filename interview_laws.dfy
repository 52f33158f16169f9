/** What the Interview lifecycle guarantees, stated over the pure transition
    functions that the `Interview` methods are proved to follow. */
module InterviewLaws {
  import opened Wrappers
  import opened Enums
  import opened Failures
  import opened ValueObjects
  import opened Sequences
  import opened Interviews

  // ------------------------------------------------------ one call at a time

  /** `start` succeeds exactly from PENDING; it sets IN_PROGRESS and `started_at`
      and touches nothing else but `updated_at`. */
  lemma StartIffPending(s: InterviewState, now: int)
    ensures Started(s, now).Success? <==> s.status == PENDING
    ensures Started(s, now).Failure? ==> Started(s, now).error == NotStartable
    ensures Started(s, now).Success? ==>
      Started(s, now).value == s.(status := IN_PROGRESS, startedAt := Some(now), updatedAt := now)
  {
  }

  /** `complete` succeeds exactly from IN_PROGRESS; score and feedback are stored as
      given (absent included); the duration is recomputed only when `started_at` exists. */
  lemma CompleteIffInProgress(s: InterviewState, score: Option<int>, feedback: Option<string>, now: int)
    ensures Completed(s, score, feedback, now).Success? <==> s.status == IN_PROGRESS
    ensures Completed(s, score, feedback, now).Failure? ==> Completed(s, score, feedback, now).error == NotCompletable
    ensures Completed(s, score, feedback, now).Success? ==>
      var t := Completed(s, score, feedback, now).value;
      && t.status == COMPLETED && t.endedAt == Some(now) && t.updatedAt == now
      && t.score == score && t.feedback == feedback
      && t.messages == s.messages && t.startedAt == s.startedAt
      && t.durationMinutes == (if s.startedAt.Some? then Some(MinutesBetween(s.startedAt.value, now))
                               else s.durationMinutes)
  {
  }

  /** `cancel` fails only on COMPLETED; from PENDING, IN_PROGRESS and also from
      CANCELLED it sets CANCELLED and restamps `ended_at`. */
  lemma CancelUnlessCompleted(s: InterviewState, now: int)
    ensures Cancelled(s, now).Success? <==> s.status != COMPLETED
    ensures Cancelled(s, now).Failure? ==> Cancelled(s, now).error == CannotCancelCompleted
    ensures Cancelled(s, now).Success? ==>
      Cancelled(s, now).value == s.(status := CANCELLED, endedAt := Some(now), updatedAt := now)
  {
  }

  /** `addMessage` succeeds exactly while IN_PROGRESS and then appends the message
      at the end, leaving the status alone. */
  lemma AddMessageIffInProgress(s: InterviewState, m: InterviewMessage)
    ensures WithMessage(s, m).Success? <==> s.status == IN_PROGRESS
    ensures WithMessage(s, m).Failure? ==> WithMessage(s, m).error == NotAcceptingMessages
    ensures WithMessage(s, m).Success? ==>
      var t := WithMessage(s, m).value;
      t.messages == s.messages + [m] && t.status == s.status && t.LastMessage() == Some(m)
  {
  }

  /** `create` ignores whatever status and messages it is handed. */
  lemma CreateIsPending(p: InterviewProps, generatedId: UniqueId, now: int)
    ensures var s := Hydrate(ForCreation(p), generatedId, now);
      && s.status == PENDING && s.messages == [] && s.id == generatedId
      && s.createdAt == now && s.updatedAt == now
      && s.characterId == p.characterId && s.companyId == p.companyId
      && s.kind == p.kind && s.title == p.title && s.description == p.description
  {
  }

  /** `fromPersistence` keeps a supplied id and supplied timestamps. */
  lemma HydrateKeepsSupplied(p: InterviewProps, generatedId: UniqueId, now: int)
    ensures p.id.Some? ==> Hydrate(p, generatedId, now).id == p.id.value
    ensures p.createdAt.Some? ==> Hydrate(p, generatedId, now).createdAt == p.createdAt.value
    ensures p.updatedAt.Some? ==> Hydrate(p, generatedId, now).updatedAt == p.updatedAt.value
  {
  }

  /** Persisting and re-hydrating yields the identical interview. */
  lemma RehydrateRoundTrip(s: InterviewState, generatedId: UniqueId, now: int)
    ensures Hydrate(Persisted(s), generatedId, now) == s
  {
  }

  /** The serialised snapshot determines the interview. */
  lemma ToJsonInjective(s: InterviewState, t: InterviewState)
    requires ToJson(s) == ToJson(t)
    ensures s == t
  {
    assert UniqueId(s.id.value) == s.id && UniqueId(t.id.value) == t.id;
    assert |s.messages| == |t.messages|;
    forall k | 0 <= k < |s.messages| ensures s.messages[k] == t.messages[k] {
      assert MessageToJson(s.messages[k]) == MessageToJson(t.messages[k]);
      assert s.messages[k].id == UniqueId(s.messages[k].id.value);
    }
  }

  // -------------------------------------------------------------- queries

  /** `getMessagesByType` keeps exactly the messages of that type, in their order. */
  lemma MessagesByTypeIsOrderedSelection(s: InterviewState, t: MessageType, m: InterviewMessage)
    ensures Subseq(s.MessagesByType(t), s.messages)
    ensures m in s.MessagesByType(t) <==> m in s.messages && m.kind == t
    ensures |s.MessagesByType(t)| <= |s.messages|
  {
    FilterIsSubseq(s.messages, (x: InterviewMessage) => x.kind == t);
    FilterMembers(s.messages, (x: InterviewMessage) => x.kind == t, m);
  }

  /** `getMessagesBySender` keeps exactly that sender's messages, in their order. */
  lemma MessagesBySenderIsOrderedSelection(s: InterviewState, sender: MessageSender, m: InterviewMessage)
    ensures Subseq(s.MessagesBySender(sender), s.messages)
    ensures m in s.MessagesBySender(sender) <==> m in s.messages && m.sender == sender
  {
    FilterIsSubseq(s.messages, (x: InterviewMessage) => x.sender == sender);
    FilterMembers(s.messages, (x: InterviewMessage) => x.sender == sender, m);
  }

  /** The conversation length counts TEXT, QUESTION and ANSWER messages:
      it is the sum of the three per-type counts, and at most the message count. */
  lemma {:induction false} ConversationLengthIsSumOfTypes(ms: seq<InterviewMessage>)
    ensures |Filter(ms, IsConversational)|
         == |Filter(ms, (m: InterviewMessage) => m.kind == TEXT)|
          + |Filter(ms, (m: InterviewMessage) => m.kind == QUESTION)|
          + |Filter(ms, (m: InterviewMessage) => m.kind == ANSWER)|
    ensures |Filter(ms, IsConversational)| <= |ms|
  {
    if ms != [] {
      ConversationLengthIsSumOfTypes(ms[1..]);
    }
  }

  lemma ConversationLengthBounded(s: InterviewState)
    ensures s.ConversationLength() <= |s.messages|
    ensures s.ConversationLength()
         == |s.MessagesByType(TEXT)| + |s.MessagesByType(QUESTION)| + |s.MessagesByType(ANSWER)|
  {
    ConversationLengthIsSumOfTypes(s.messages);
  }

  /** Appending one message raises the conversation length by one exactly when
      the message is TEXT, QUESTION or ANSWER. */
  lemma ConversationLengthAfterMessage(s: InterviewState, m: InterviewMessage)
    requires WithMessage(s, m).Success?
    ensures WithMessage(s, m).value.ConversationLength()
         == s.ConversationLength() + (if IsConversational(m) then 1 else 0)
  {
    FilterAppend(s.messages, [m], IsConversational);
  }

  // ---------------------------------------------------------- whole runs

  /** The calls that change an interview. */
  datatype Event =
    | StartEvent(now: int)
    | CompleteEvent(score: Option<int>, feedback: Option<string>, now: int)
    | CancelEvent(now: int)
    | MessageEvent(message: InterviewMessage)
  {
    function Time(): int {
      match this
      case StartEvent(t) => t
      case CompleteEvent(_, _, t) => t
      case CancelEvent(t) => t
      case MessageEvent(m) => m.timestamp
    }
  }

  function Apply(s: InterviewState, e: Event): Result<InterviewState, Failure> {
    match e
    case StartEvent(now) => Started(s, now)
    case CompleteEvent(score, feedback, now) => Completed(s, score, feedback, now)
    case CancelEvent(now) => Cancelled(s, now)
    case MessageEvent(m) => WithMessage(s, m)
  }

  /** Calls made one after another; the first that throws ends the run. */
  function Run(s: InterviewState, es: seq<Event>): Result<InterviewState, Failure>
    decreases |es|
  {
    if es == [] then Success(s)
    else match Apply(s, es[0])
      case Failure(e) => Failure(e)
      case Success(t) => Run(t, es[1..])
  }

  function MessageEvents(ms: seq<InterviewMessage>): (r: seq<Event>)
    ensures |r| == |ms|
    ensures forall k | 0 <= k < |ms| :: r[k] == MessageEvent(ms[k])
  {
    if ms == [] then [] else [MessageEvent(ms[0])] + MessageEvents(ms[1..])
  }

  /** A run of `addMessage` calls on an IN_PROGRESS interview appends the messages
      in call order and nothing else changes but `updated_at`; on any other status
      the first call throws. */
  lemma {:induction false} MessagesAppendInOrder(s: InterviewState, ms: seq<InterviewMessage>)
    ensures s.status == IN_PROGRESS ==>
      Run(s, MessageEvents(ms)) == Success(s.(messages := s.messages + ms,
                                              updatedAt := if ms == [] then s.updatedAt
                                                           else ms[|ms| - 1].timestamp))
    ensures s.status != IN_PROGRESS && ms != [] ==>
      Run(s, MessageEvents(ms)) == Failure(NotAcceptingMessages)
    decreases |ms|
  {
    if ms != [] {
      var es := MessageEvents(ms);
      assert es[0] == MessageEvent(ms[0]);
      assert es[1..] == MessageEvents(ms[1..]);
      if s.status == IN_PROGRESS {
        var t := s.(messages := s.messages + [ms[0]], updatedAt := ms[0].timestamp);
        assert Apply(s, es[0]) == Success(t);
        assert Run(s, es) == Run(t, es[1..]);
        MessagesAppendInOrder(t, ms[1..]);
        assert t.messages + ms[1..] == s.messages + ms;
        var last := if ms[1..] == [] then t.updatedAt else ms[1..][|ms[1..]| - 1].timestamp;
        assert last == ms[|ms| - 1].timestamp;
        assert Run(t, es[1..]) == Success(t.(messages := t.messages + ms[1..], updatedAt := last));
      }
    } else {
      assert MessageEvents(ms) == [];
      assert s.messages + ms == s.messages;
    }
  }

  /** How far along the lifecycle a status is. */
  function Rank(st: InterviewStatus): nat {
    match st
    case PENDING => 0
    case IN_PROGRESS => 1
    case COMPLETED => 2
    case CANCELLED => 2
  }

  /** No call moves the status backwards or re-enters PENDING, and none
      removes or rewrites a message. */
  lemma StepIsMonotone(s: InterviewState, e: Event)
    requires Apply(s, e).Success?
    ensures var t := Apply(s, e).value;
      && Rank(s.status) <= Rank(t.status)
      && t.status != PENDING
      && s.messages <= t.messages
      && (s.status == COMPLETED ==> e.CancelEvent? == false && t.status == COMPLETED)
  {
  }

  lemma {:induction false} RunIsMonotone(s: InterviewState, es: seq<Event>)
    requires Run(s, es).Success?
    ensures Rank(s.status) <= Rank(Run(s, es).value.status)
    ensures s.messages <= Run(s, es).value.messages
    ensures es != [] ==> Run(s, es).value.status != PENDING
    decreases |es|
  {
    if es != [] {
      var t := Apply(s, es[0]).value;
      StepIsMonotone(s, es[0]);
      RunIsMonotone(t, es[1..]);
      if es[1..] != [] {
        assert Run(t, es[1..]).value.status != PENDING;
      }
    }
  }

  /** The facts that hold of every interview made by `create` (without start or end
      times) and changed only by its own methods with a clock that never runs back. */
  ghost predicate Coherent(s: InterviewState) {
    && s.createdAt <= s.updatedAt
    && (s.status == PENDING ==> s.startedAt.None? && s.endedAt.None? && s.messages == [])
    && (s.status == IN_PROGRESS ==> s.startedAt.Some? && s.endedAt.None?)
    && (s.status == COMPLETED ==>
          && s.startedAt.Some? && s.endedAt.Some?
          && s.durationMinutes == Some(MinutesBetween(s.startedAt.value, s.endedAt.value)))
    && (s.status == CANCELLED ==> s.endedAt.Some?)
    && (s.startedAt.Some? ==> s.createdAt <= s.startedAt.value <= s.updatedAt)
    && (s.endedAt.Some? ==> s.endedAt.value <= s.updatedAt)
    && (s.startedAt.Some? && s.endedAt.Some? ==> s.startedAt.value <= s.endedAt.value)
  }

  lemma CreatedIsCoherent(p: InterviewProps, generatedId: UniqueId, now: int)
    requires p.startedAt.None? && p.endedAt.None?
    ensures Coherent(Hydrate(ForCreation(p), generatedId, now))
  {
  }

  /** Every successful call keeps an interview coherent, given a clock not earlier
      than the last update. */
  lemma StepKeepsCoherent(s: InterviewState, e: Event)
    requires Coherent(s) && s.updatedAt <= e.Time()
    requires Apply(s, e).Success?
    ensures Coherent(Apply(s, e).value)
  {
  }

  /** A completed coherent interview has a duration, and it is not negative. */
  lemma CompletedDurationNonNegative(s: InterviewState)
    requires Coherent(s) && s.status == COMPLETED
    ensures s.durationMinutes.Some? && s.durationMinutes.value >= 0
  {
  }

  // -------------------------------------------------------------- scenarios

  /** Typical call sequences from PENDING and how each ends. */
  lemma LifecycleScenarios(s: InterviewState, t1: int, t2: int, t3: int)
    requires s.status == PENDING
    ensures Run(s, [StartEvent(t1), StartEvent(t2)]) == Failure(NotStartable)
    ensures Run(s, [CompleteEvent(None, None, t1)]) == Failure(NotCompletable)
    ensures Run(s, [CancelEvent(t1)]).Success?
    ensures Run(s, [StartEvent(t1), CancelEvent(t2)]).Success?
    ensures Run(s, [StartEvent(t1), CompleteEvent(None, None, t2), CancelEvent(t3)])
         == Failure(CannotCancelCompleted)
    ensures Run(s, [CancelEvent(t1), CancelEvent(t2)]).Success?
  {
    var started := Started(s, t1).value;
    assert started.status == IN_PROGRESS;
    var two := [StartEvent(t1), StartEvent(t2)];
    assert two[1..] == [StartEvent(t2)];
    assert Run(s, two) == Run(started, [StartEvent(t2)]);
    assert [StartEvent(t2)][1..] == [];
    var sc := [StartEvent(t1), CancelEvent(t2)];
    assert sc[1..] == [CancelEvent(t2)];
    assert Run(s, sc) == Run(started, [CancelEvent(t2)]);
    var cancelledLater := Cancelled(started, t2).value;
    assert [CancelEvent(t2)][1..] == [];
    assert Run(started, [CancelEvent(t2)]) == Run(cancelledLater, []);
    var three := [StartEvent(t1), CompleteEvent(None, None, t2), CancelEvent(t3)];
    assert three[1..] == [CompleteEvent(None, None, t2), CancelEvent(t3)];
    assert Run(s, three) == Run(started, three[1..]);
    var done := Completed(started, None, None, t2).value;
    assert done.status == COMPLETED;
    assert three[1..][1..] == [CancelEvent(t3)];
    assert Run(started, three[1..]) == Run(done, [CancelEvent(t3)]);
    var cc := [CancelEvent(t1), CancelEvent(t2)];
    var cancelled := Cancelled(s, t1).value;
    assert cc[1..] == [CancelEvent(t2)];
    assert Run(s, cc) == Run(cancelled, [CancelEvent(t2)]);
    assert Run(cancelled, [CancelEvent(t2)]) == Run(Cancelled(cancelled, t2).value, []);
  }

  /** Create, start, complete with score 85 and feedback "Strong": the result is
      COMPLETED with those values stored and a non-negative duration. */
  lemma CompleteScenario(p: InterviewProps, generatedId: UniqueId, t0: int, t1: int, t2: int)
    requires p.startedAt.None? && p.endedAt.None?
    requires t0 <= t1 <= t2
    ensures var s := Hydrate(ForCreation(p), generatedId, t0);
      var r := Run(s, [StartEvent(t1), CompleteEvent(Some(85), Some("Strong"), t2)]);
      && r.Success?
      && r.value.status == COMPLETED && r.value.score == Some(85) && r.value.feedback == Some("Strong")
      && r.value.endedAt == Some(t2) && r.value.durationMinutes.Some? && r.value.durationMinutes.value >= 0
  {
    var s := Hydrate(ForCreation(p), generatedId, t0);
    var es := [StartEvent(t1), CompleteEvent(Some(85), Some("Strong"), t2)];
    assert es[1..] == [CompleteEvent(Some(85), Some("Strong"), t2)];
    var started := Started(s, t1).value;
    assert Run(s, es) == Run(started, es[1..]);
    assert started.startedAt == Some(t1);
  }
}
