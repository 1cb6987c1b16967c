/** Nullable values, exceptions and "call that may throw" outcomes, shared by every module. */
module Wrappers {

  /** A C# nullable value (`T?`): None stands for null. */
  datatype Option<+T> = None | Some(value: T) {

    /** The C# null-coalescing operator `this ?? fallback`. */
    function OrElse(fallback: T): T {
      match this
      case Some(v) => v
      case None => fallback
    }

    /** `this ?? other` where the right-hand side is itself nullable. */
    function Or(other: Option<T>): Option<T> {
      if Some? then this else other
    }
  }

  /** The .NET exceptions the model distinguishes. */
  datatype Exception =
    | ArgumentNull(paramName: string)                 // System.ArgumentNullException
    | NexusApiError(context: string, inner: Exception) // Nexus.NexusApiException(message, innerException)
    | Raised(text: string)                            // any other exception, with its Message
  {
    /** `Exception.Message` */
    function Message(): string {
      match this
      case ArgumentNull(p) => "Value cannot be null. (Parameter '" + p + "')"
      case NexusApiError(c, _) => c
      case Raised(t) => t
    }
  }

  /** The outcome of evaluating a C# expression that may throw. */
  datatype Attempt<+T> = Returned(value: T) | Threw(ex: Exception)
}
