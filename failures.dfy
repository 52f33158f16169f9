/** Every error the core throws, one constructor per distinct `new Error(...)`;
    `Text` is the message the source attaches to it. */
module Failures {

  datatype Failure =
    // value objects
    | EmptyUniqueId
    | EmptyName
    | NameTooLong
    | EmptyDescription
    | DescriptionTooLong
    | InvalidEmail
    // Interview state machine
    | NotStartable
    | NotCompletable
    | CannotCancelCompleted
    | NotAcceptingMessages
    // repositories and use cases
    | InterviewNotFound
    | CharacterNotFound
    | CompanyNotFound
    | CharacterUnavailable
    | CompanyUnavailable
    | IncompatibleCharacter
    | InterviewNotActive
  {
    function Text(): string {
      match this
      case EmptyUniqueId => "UniqueId value cannot be empty"
      case EmptyName => "Name cannot be empty"
      case NameTooLong => "Name is too long"
      case EmptyDescription => "Description cannot be empty"
      case DescriptionTooLong => "Description is too long"
      case InvalidEmail => "Invalid email format"
      case NotStartable => "Interview can only be started from pending status"
      case NotCompletable => "Interview can only be completed from in-progress status"
      case CannotCancelCompleted => "Cannot cancel a completed interview"
      case NotAcceptingMessages => "Messages can only be added to in-progress interviews"
      case InterviewNotFound => "Interview not found"
      case CharacterNotFound => "Character not found"
      case CompanyNotFound => "Company not found"
      case CharacterUnavailable => "Character not found or inactive"
      case CompanyUnavailable => "Company not found or inactive"
      case IncompatibleCharacter => "Character is not compatible with this company type"
      case InterviewNotActive => "Interview is not active"
    }
  }
}
