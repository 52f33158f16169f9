/** The enumerations of the domain (src/domain/value-objects/enums.ts).
    `Tag` gives the string each member serialises to. */
module Enums {

  datatype Gender = MALE | FEMALE {
    function Tag(): string {
      match this
      case MALE => "male"
      case FEMALE => "female"
    }
  }

  datatype CharacterRole = HR | TECH_LEAD | CTO | PRODUCT_MANAGER | SENIOR_ENGINEER {
    function Tag(): string {
      match this
      case HR => "hr"
      case TECH_LEAD => "tech_lead"
      case CTO => "cto"
      case PRODUCT_MANAGER => "product_manager"
      case SENIOR_ENGINEER => "senior_engineer"
    }
  }

  datatype CompanyType = STARTUP | FAANG | ENTERPRISE {
    function Tag(): string {
      match this
      case STARTUP => "startup"
      case FAANG => "faang"
      case ENTERPRISE => "enterprise"
    }
  }

  datatype InterviewType = TECHNICAL | BEHAVIORAL | SYSTEM_DESIGN | CULTURAL_FIT | LEADERSHIP {
    function Tag(): string {
      match this
      case TECHNICAL => "technical"
      case BEHAVIORAL => "behavioral"
      case SYSTEM_DESIGN => "system_design"
      case CULTURAL_FIT => "cultural_fit"
      case LEADERSHIP => "leadership"
    }
  }

  datatype InterviewStatus = PENDING | IN_PROGRESS | COMPLETED | CANCELLED {
    function Tag(): string {
      match this
      case PENDING => "pending"
      case IN_PROGRESS => "in_progress"
      case COMPLETED => "completed"
      case CANCELLED => "cancelled"
    }
  }

  datatype MessageType = TEXT | QUESTION | ANSWER | SYSTEM {
    function Tag(): string {
      match this
      case TEXT => "text"
      case QUESTION => "question"
      case ANSWER => "answer"
      case SYSTEM => "system"
    }
  }

  datatype MessageSender = USER | AI | SYSTEM {
    function Tag(): string {
      match this
      case USER => "user"
      case AI => "ai"
      case SYSTEM => "system"
    }
  }

  /** Distinct members serialise to distinct strings, so a stored tag names one member. */
  lemma TagsInjective(g: Gender, g': Gender, r: CharacterRole, r': CharacterRole,
                      c: CompanyType, c': CompanyType, t: InterviewType, t': InterviewType,
                      s: InterviewStatus, s': InterviewStatus, m: MessageType, m': MessageType,
                      e: MessageSender, e': MessageSender)
    ensures g.Tag() == g'.Tag() ==> g == g'
    ensures r.Tag() == r'.Tag() ==> r == r'
    ensures c.Tag() == c'.Tag() ==> c == c'
    ensures t.Tag() == t'.Tag() ==> t == t'
    ensures s.Tag() == s'.Tag() ==> s == s'
    ensures m.Tag() == m'.Tag() ==> m == m'
    ensures e.Tag() == e'.Tag() ==> e == e'
  {
  }
}
