/** Values shared by the application object and the request listener: the decoded Facebook
    context, its user and access grant, and the ways a gate can fail. */
module Facebook {

  datatype Option<T> = None | Some(value: T)
  {
    function GetOr(default: T): T
    {
      match this
      case Some(v) => v
      case None => default
    }
  }

  /** An OAuth access grant; the gates only look at its token. */
  datatype Access = Access(token: string)

  /** The user of a signed request; `access` is absent until the user has allowed the application. */
  datatype User = User(access: Option<Access>)

  /** A context built from a verified signed request: `kind` is its type ("canvas", "tab", ...),
      `manageable` is whether the current user administers the page of a tab. */
  datatype Context = Context(kind: string, user: User, manageable: bool)

  const Tab: string := "tab"
  const Canvas: string := "canvas"

  predicate HasAccess(context: Context)
  {
    context.user.access.Some?
  }

  function UserToken(context: Context): string
    requires HasAccess(context)
  {
    context.user.access.value.token
  }

  /** The entry a session holds for a key, or None when the session has no such entry. */
  function StoredContext(session: map<string, Context>, key: string): Option<Context>
  {
    if key in session then Some(session[key]) else None
  }

  /** The exceptions a gate raises. `ContextError(None)` is "no context at all",
      `ContextError(Some(k))` names the rejected context type; `NullContextError` stands for
      the runtime fault of dereferencing a context that the session does not hold. */
  datatype Failure =
    | ContextError(rejected: Option<string>)
    | AuthorizationError
    | PermissionError(missing: seq<string>)
    | RoleError
    | LogicError
    | NullContextError

  /** What one gate, or the whole chain, decides. */
  datatype Outcome = Proceed | Fail(failure: Failure)

  datatype Result<T> = Ok(value: T) | Err(failure: Failure)
}
