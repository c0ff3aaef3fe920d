/** Shared vocabulary of the assistant: optional values, failures carrying an error
    message, the two user roles, the analysis modes and the opaque system instructions. */
module Types {

  /** A value that may be absent (`undefined` / `null` in the TypeScript service). */
  datatype Option<+T> = None | Some(value: T) {

    /** The carried value, or `default` when absent. */
    function GetOr(default: T): T {
      match this
      case Some(v) => v
      case None => default
    }
  }

  /** Either a value or a thrown error, represented by the error's message. */
  datatype Result<+T> = Ok(value: T) | Err(message: string)

  /** JavaScript truthiness of an optional string: present and not empty. */
  predicate Truthy(s: Option<string>) {
    s.Some? && s.value != ""
  }

  /** `a || b` on optional strings. */
  function OrElse(s: Option<string>, default: string): string {
    if Truthy(s) then s.value else default
  }

  /** The two roles the assistant recognises (`UserRole`). */
  datatype Role = Teacher | Student

  /** The role as its source spelling, `'TEACHER'` or `'STUDENT'`. */
  function RoleName(r: Role): string {
    match r
    case Teacher => "TEACHER"
    case Student => "STUDENT"
  }

  /** Depth of the reasoning stage. */
  datatype Mode = Fast | Deep

  /** The mode as it travels to the server, `'fast'` or `'deep'`. */
  function ModeName(m: Mode): string {
    match m
    case Fast => "fast"
    case Deep => "deep"
  }

  /** The system instructions are opaque configuration; only their identity matters. */
  datatype Instruction =
    | PerceptionInstruction
    | InterpretationInstruction
    | ReasoningInstruction
    | QuestionWorkspaceInstruction
}
