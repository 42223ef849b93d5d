/** Optional values, the exceptions the routing layer raises, and results
    that carry either a value or one of those exceptions. */
module Outcomes {

  datatype Option<+T> = None | Some(value: T) {
    function GetOr(default: T): T {
      match this
      case Some(v) => v
      case None => default
    }
  }

  /** The exception classes raised (or let through) by the routing layer. */
  datatype ErrorKind =
    | TypeError              // leaf validation, Route.path setter
    | ValueError             // Rfc(value) on a value that is not a policy
    | AttributeError         // a Route without a Resource used as one
    | RouteError             // routes.RouteError
    | ViewError              // routes.ViewError
    | ViewSignatureError     // views.ViewSignatureError
    | ViewSetDefinitionError // views.ViewSetDefinitionError

  /** The messages those exceptions carry. A rejected leaf's message is
      wrapped in the RouteError a route call raises. */
  datatype Message =
    | MustSetResourceType
    | NoResourceTypeWhenNonStrict
    | NotAWrappedView
    | NotAValidPath
    | NoneHasNoAttribute
    | CannotSetPath
    | NotAValidRfc
    | IncorrectResourceType(cause: Message)
    | NotKeywordOnly
    | IdentifiersMismatch
    | RouteNotSet
    | RouteNotARoute

  /** The text of each message. */
  function Text(m: Message): string {
    match m
    case MustSetResourceType => "Must set resource type  STRICT."
    case NoResourceTypeWhenNonStrict => "Don't set a resource type when NON-STRICT."
    case NotAWrappedView =>
      "Can only get view attributes from a wrapped view, i.e. if routes.is_view(callable) == True."
    case NotAValidPath => "path must be a valid url path."
    case NoneHasNoAttribute => "'NoneType' object has no attribute"
    case CannotSetPath => "Can't set path with type <class 'NoneType'>"
    case NotAValidRfc => "is not a valid Rfc"
    case IncorrectResourceType(cause) => "Incorrect resource type for route: " + Text(cause)
    case NotKeywordOnly => "All arguments after `self` and `request` must be keyword only."
    case IdentifiersMismatch =>
      "Dynamic identifiers must match KEYWORD_ONLY args by both variable name and order"
    case RouteNotSet => "Make sure to set route = Route() on ViewSet."
    case RouteNotARoute => "\"route\" must be of type Route."
  }

  datatype Error = Error(kind: ErrorKind, msg: Message)

  datatype Result<+T> = Ok(value: T) | Err(error: Error)
}
