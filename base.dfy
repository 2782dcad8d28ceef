/** Values shared by the scope and the definition context: the error kinds the
    core raises, a Result to carry them instead of exceptions, and opaque
    stand-ins for the things the core only passes through (instances, type
    tokens, qualifiers, parameter suppliers). */
module Base {

  /** A scope identifier (ScopeID is a String alias). */
  type ScopeId = string

  datatype Option<T> = None | Some(value: T)

  /** The exceptions this core raises or propagates. */
  datatype KoinError =
    | ScopeIsClosed(message: string)    // Scope.get on a scope without owner
    | IllegalState(message: string)     // Kotlin's error(...), from Scope.getContext
    | MissingProperty(message: string)  // DefinitionContext.getProperty on null
    | UnknownScope(id: ScopeId)         // raised by the resolver's getScope
    | DefinitionFailure(reason: string) // any failure of the resolver's own get

  /** Success or the exception that would have been thrown. */
  datatype Result<T> = Success(value: T) | Failure(error: KoinError)

  /** An object handed out by the resolver; only its identity matters here. */
  datatype Instance = Instance(handle: nat)

  /** The explicit type token that replaces a reified `T::class`. */
  datatype TypeTag = TypeTag(name: string)

  /** An opaque definition qualifier. */
  datatype Qualifier = Qualifier(name: string)

  /** An opaque parameter supplier, passed through unchanged. */
  datatype ParametersDefinition = ParametersDefinition(handle: nat)
}
