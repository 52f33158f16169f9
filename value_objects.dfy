/** The validated value objects: UniqueId (src/domain/value-objects/unique-id.ts)
    and Name, Description, Email (src/domain/value-objects/common.ts). Each is
    immutable; construction is a function returning either the value or the
    error the constructor throws. */
module ValueObjects {
  import opened Wrappers
  import opened Failures
  import opened Text

  // ---------------------------------------------------------------- UniqueId

  datatype UniqueId = UniqueId(value: string) {
    /** `equals`: comparison of the underlying strings. */
    predicate Equals(other: UniqueId) {
      value == other.value
    }

    function ToString(): string {
      value
    }
  }

  /** `new UniqueId(value?)`: `value || uuidv4()`. The generator's output is a
      parameter; it is used only when no value, or the empty value, is given. */
  function NewId(value: Option<string>, generated: string): (r: UniqueId)
    ensures value.Some? && value.value != [] ==> r.value == value.value
    ensures value.None? || value.value == [] ==> r.value == generated
  {
    if value.Some? && value.value != [] then UniqueId(value.value) else UniqueId(generated)
  }

  /** `UniqueId.generate()`. */
  function GenerateId(generated: string): (r: UniqueId)
    ensures r == NewId(None, generated)
  {
    UniqueId(generated)
  }

  /** `UniqueId.from(value)`: refuses a blank string, otherwise keeps it verbatim
      (untrimmed); `toString` gives it back. */
  function IdFrom(value: string): (r: Result<UniqueId, Failure>)
    ensures r.Failure? <==> AllSpace(value)
    ensures r.Failure? ==> r.error == EmptyUniqueId
    ensures r.Success? ==> r.value.value == value && r.value.ToString() == value
  {
    TrimEmptyIff(value);
    if value == [] || Trim(value) == [] then Failure(EmptyUniqueId)
    else Success(NewId(Some(value), value))
  }

  // ------------------------------------------------------ Name and Description

  const MaxNameLength: nat := 100
  const MaxDescriptionLength: nat := 1000

  /** The rule shared by `Name` and `Description`: blank input is refused, then
      input longer than `bound` (measured BEFORE trimming) is refused, and what is
      kept is the trimmed text. */
  function BoundedText(raw: string, bound: nat, empty: Failure, tooLong: Failure): (r: Result<string, Failure>)
    ensures r.Success? <==> !AllSpace(raw) && |raw| <= bound
    ensures r.Success? ==> r.value == Trim(raw) && r.value != [] && IsTrimmed(r.value) && |r.value| <= bound
    ensures r.Failure? ==> r.error == (if AllSpace(raw) then empty else tooLong)
  {
    TrimEmptyIff(raw);
    if raw == [] || Trim(raw) == [] then Failure(empty)
    else if |raw| > bound then Failure(tooLong)
    else Success(Trim(raw))
  }

  datatype Name = Name(value: string) {
    /** What every constructed Name satisfies. */
    ghost predicate Valid() {
      value != [] && IsTrimmed(value) && |value| <= MaxNameLength
    }

    predicate Equals(other: Name) {
      value == other.value
    }

    function ToString(): string {
      value
    }
  }

  /** `new Name(raw)` / `Name.from(raw)`. */
  function NameFrom(raw: string): (r: Result<Name, Failure>)
    ensures r.Success? <==> !AllSpace(raw) && |raw| <= MaxNameLength
    ensures r.Success? ==> r.value.Valid() && r.value.value == Trim(raw)
    ensures r.Failure? ==> r.error == (if AllSpace(raw) then EmptyName else NameTooLong)
  {
    match BoundedText(raw, MaxNameLength, EmptyName, NameTooLong)
    case Success(v) => Success(Name(v))
    case Failure(e) => Failure(e)
  }

  /** A stored name, fed back to the constructor, yields the same name. */
  lemma NameRoundTrip(n: Name)
    requires n.Valid()
    ensures NameFrom(n.value) == Success(n)
  {
    TrimOfTrimmed(n.value);
    assert !IsSpace(n.value[0]);
  }

  datatype Description = Description(value: string) {
    ghost predicate Valid() {
      value != [] && IsTrimmed(value) && |value| <= MaxDescriptionLength
    }

    predicate Equals(other: Description) {
      value == other.value
    }

    function ToString(): string {
      value
    }
  }

  /** `new Description(raw)` / `Description.from(raw)`. */
  function DescriptionFrom(raw: string): (r: Result<Description, Failure>)
    ensures r.Success? <==> !AllSpace(raw) && |raw| <= MaxDescriptionLength
    ensures r.Success? ==> r.value.Valid() && r.value.value == Trim(raw)
    ensures r.Failure? ==> r.error == (if AllSpace(raw) then EmptyDescription else DescriptionTooLong)
  {
    match BoundedText(raw, MaxDescriptionLength, EmptyDescription, DescriptionTooLong)
    case Success(v) => Success(Description(v))
    case Failure(e) => Failure(e)
  }

  lemma DescriptionRoundTrip(d: Description)
    requires d.Valid()
    ensures DescriptionFrom(d.value) == Success(d)
  {
    TrimOfTrimmed(d.value);
    assert !IsSpace(d.value[0]);
  }

  // ------------------------------------------------------------------- Email

  /** The character class `[^\s@]`. */
  predicate EmailChar(c: char) {
    !IsSpace(c) && c != '@'
  }

  /** The language of `/^[^\s@]+@[^\s@]+\.[^\s@]+$/`: a non-empty local part,
      the single '@' at position `a`, and a '.' at position `d` that is neither
      the first nor the last character of the domain; every other character is
      neither whitespace nor '@'. */
  ghost predicate MatchesEmailPattern(s: string) {
    exists a, d | 0 < a && a + 1 < d && d + 1 < |s| ::
      s[a] == '@' && s[d] == '.' && forall k | 0 <= k < |s| && k != a :: EmailChar(s[k])
  }

  /** `Email.isValid`, decided without backtracking: locate the first '@', then
      check the characters and look for an inner '.' in the domain. */
  function IsValidEmail(s: string): bool {
    match IndexOf(s, '@')
    case None => false
    case Some(a) =>
      var domain := s[a + 1..];
      && 0 < a
      && (forall k | 0 <= k < |s| && k != a :: EmailChar(s[k]))
      && exists p | 1 <= p < |domain| - 1 :: domain[p] == '.'
  }

  /** The decision procedure accepts exactly the strings the regular expression matches. */
  lemma EmailCheckIsPattern(s: string)
    ensures IsValidEmail(s) <==> MatchesEmailPattern(s)
  {
    if IsValidEmail(s) {
      ValidEmailMatches(s);
    }
    if MatchesEmailPattern(s) {
      MatchingEmailIsValid(s);
    }
  }

  lemma ValidEmailMatches(s: string)
    requires IsValidEmail(s)
    ensures MatchesEmailPattern(s)
  {
    var a := IndexOf(s, '@').value;
    var domain := s[a + 1..];
    assert 0 < a && forall k | 0 <= k < |s| && k != a :: EmailChar(s[k]);
    var p :| 1 <= p < |domain| - 1 && domain[p] == '.';
    var d := a + 1 + p;
    assert s[d] == domain[p];
    assert 0 < a && a + 1 < d && d + 1 < |s| && s[a] == '@' && s[d] == '.';
  }

  lemma MatchingEmailIsValid(s: string)
    requires MatchesEmailPattern(s)
    ensures IsValidEmail(s)
  {
    var a, d :| 0 < a && a + 1 < d && d + 1 < |s| && s[a] == '@' && s[d] == '.'
      && forall k | 0 <= k < |s| && k != a :: EmailChar(s[k]);
    var found := IndexOf(s, '@');
    assert found.Some?;
    var i := found.value;
    assert !EmailChar(s[i]);
    assert i == a;
    var domain := s[a + 1..];
    var p := d - a - 1;
    assert 1 <= p < |domain| - 1 && domain[p] == '.';
  }

  datatype Email = Email(value: string) {
    predicate Equals(other: Email) {
      value == other.value
    }

    function ToString(): string {
      value
    }
  }

  /** `new Email(raw)`: validated on the raw input, stored as `raw.toLowerCase().trim()`,
      which (no whitespace being possible in a valid address) is just the lower-cased input. */
  function EmailFrom(raw: string): (r: Result<Email, Failure>)
    ensures r.Success? <==> MatchesEmailPattern(raw)
    ensures r.Success? ==> r.value.value == Lower(raw)
    ensures r.Failure? ==> r.error == InvalidEmail
  {
    EmailCheckIsPattern(raw);
    if !IsValidEmail(raw) then Failure(InvalidEmail)
    else
      StoredEmailIsLowered(raw);
      Success(Email(Trim(Lower(raw))))
  }

  /** For a valid address the trailing `trim()` changes nothing. */
  lemma StoredEmailIsLowered(raw: string)
    requires MatchesEmailPattern(raw)
    ensures Trim(Lower(raw)) == Lower(raw)
  {
    LowerOfEmailIsTrimmed(raw);
    TrimOfTrimmed(Lower(raw));
  }

  /** Lower-casing maps a matching address to a matching address with the same
      '@' and '.' positions. */
  lemma LowerKeepsPattern(s: string, a: nat, d: nat)
    requires 0 < a && a + 1 < d && d + 1 < |s|
    requires s[a] == '@' && s[d] == '.' && forall k | 0 <= k < |s| && k != a :: EmailChar(s[k])
    ensures MatchesEmailPattern(Lower(s))
  {
    var t := Lower(s);
    LowerKeepsClasses(s[a]);
    LowerKeepsClasses(s[d]);
    forall k | 0 <= k < |t| && k != a ensures EmailChar(t[k]) {
      LowerKeepsClasses(s[k]);
    }
  }

  lemma LowerOfEmailIsTrimmed(s: string)
    requires MatchesEmailPattern(s)
    ensures IsTrimmed(Lower(s))
  {
    MatchingEmailIsTrimmed(s);
    LowerKeepsTrimmed(s);
  }

  /** The first and last characters of an address belong to `[^\s@]`. */
  lemma MatchingEmailIsTrimmed(s: string)
    requires MatchesEmailPattern(s)
    ensures s != [] && IsTrimmed(s)
  {
    var a, d :| 0 < a && a + 1 < d && d + 1 < |s| && s[a] == '@' && s[d] == '.'
      && forall k | 0 <= k < |s| && k != a :: EmailChar(s[k]);
    assert EmailChar(s[0]) && EmailChar(s[|s| - 1]);
  }

  lemma LowerKeepsTrimmed(s: string)
    requires IsTrimmed(s)
    ensures IsTrimmed(Lower(s))
  {
    if s != [] {
      var t := Lower(s);
      assert t[0] == LowerChar(s[0]) && t[|t| - 1] == LowerChar(s[|s| - 1]);
      LowerKeepsClasses(s[0]);
      LowerKeepsClasses(s[|s| - 1]);
    }
  }

  lemma {:induction false} LowerIdempotent(s: string)
    ensures Lower(Lower(s)) == Lower(s)
  {
    if s != [] {
      LowerIdempotent(s[1..]);
    }
  }

  /** A stored address, fed back to the constructor, yields the same address. */
  lemma EmailRoundTrip(raw: string, e: Email)
    requires EmailFrom(raw) == Success(e)
    ensures EmailFrom(e.value) == Success(e)
  {
    var a, d :| 0 < a && a + 1 < d && d + 1 < |raw| && raw[a] == '@' && raw[d] == '.'
      && forall k | 0 <= k < |raw| && k != a :: EmailChar(raw[k]);
    LowerKeepsPattern(raw, a, d);
    LowerIdempotent(raw);
  }

  // ------------------------------------------------------------------ equality

  /** Every `equals` is value equality, hence an equivalence relation. */
  lemma EqualsIsValueEquality(x: UniqueId, y: UniqueId, n: Name, m: Name,
                              d: Description, e: Description, p: Email, q: Email)
    ensures x.Equals(y) <==> x == y
    ensures n.Equals(m) <==> n == m
    ensures d.Equals(e) <==> d == e
    ensures p.Equals(q) <==> p == q
    ensures x.Equals(x) && (x.Equals(y) <==> y.Equals(x))
  {
  }
}
