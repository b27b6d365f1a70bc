/** The request listener: resolves the context and runs the four gates against the route's
    options, changing the session, the client's token and the permission queries as it goes. */
module FacebookListener {
  import opened Facebook
  import opened Scopes
  import opened FacebookApplication
  import opened Gates

  /** The authorization gate, when required, passes exactly for an application whose user has
      allowed it. */
  lemma AuthorizedIffGatePasses(application: Application)
    requires application.HasContext()
    ensures application.IsAuthorized() <==> AuthorizationGate(Some(true), application.GetContext()) == Proceed
  {
  }

  class Listener {
    const application: Application
    const client: Client

    constructor (application: Application, client: Client)
      ensures this.application == application && this.client == client
    {
      this.application := application;
      this.client := client;
    }

    /** The part of the heap the listener reads and writes. */
    function State(): World
      reads application, client, application.client
    {
      World(application.session, client.accessToken, application.client.queries)
    }

    function Environment(): Env
    {
      Env(application.Key(), application.client.grants)
    }

    method Contextualize(request: Request)
      modifies application`session
      ensures application.session == ResolveContext(request, application.Key(), old(application.session))
    {
      if request.verb == "POST" && SignedRequestField in request.body {
        application.SetContext(request.signedContext);
      }
    }

    method CheckContexts(options: RouteOptions) returns (o: Outcome)
      ensures o == ContextsGate(options.contexts, application.GetContext())
    {
      if options.contexts.None? {
        return Proceed;
      }
      if !application.HasContext() {
        return Fail(ContextError(None));
      }
      var current := application.GetContext().value;
      if current.kind !in options.contexts.value {
        return Fail(ContextError(Some(current.kind)));
      }
      return Proceed;
    }

    method CheckAuthorization(options: RouteOptions) returns (o: Outcome)
      modifies client`accessToken
      ensures o == AuthorizationGate(options.authorization, application.GetContext())
      ensures client.accessToken
              == AuthorizedToken(options.authorization, application.GetContext(), old(client.accessToken))
    {
      if options.authorization.None? {
        return Proceed;
      }
      if !application.HasContext() {
        return Fail(NullContextError);
      }
      if !application.IsAuthorized() {
        return Fail(AuthorizationError);
      }
      client.SetAccessToken(UserToken(application.GetContext().value));
      return Proceed;
    }

    method CheckPermissions(options: RouteOptions) returns (o: Outcome)
      modifies application.client`queries
      ensures o == PermissionsGate(options.permissions, application.GetContext(), application.client.grants)
      ensures application.client.queries
              == PermissionQueries(options.permissions, application.GetContext(), old(application.client.queries))
    {
      if options.permissions.None? {
        return Proceed;
      }
      if !application.HasContext() {
        return Fail(NullContextError);
      }
      var missing := application.ValidatePermissions(options.permissions.value);
      if missing.Err? {
        return Fail(missing.failure);
      }
      if |missing.value| > 0 {
        return Fail(PermissionError(missing.value));
      }
      return Proceed;
    }

    method CheckPageAdmin(options: RouteOptions) returns (o: Outcome)
      ensures o == PageAdminGate(options.pageAdmin, application.GetContext())
    {
      if options.pageAdmin.None? {
        return Proceed;
      }
      if !application.HasContext() {
        return Fail(NullContextError);
      }
      if !application.IsTab() {
        return Fail(LogicError);
      }
      if !application.GetContext().value.manageable {
        return Fail(RoleError);
      }
      return Proceed;
    }

    /** One request event: resolution, then the gates in subscription order, stopping at the
        first failure. */
    method Handle(request: Request, options: RouteOptions) returns (o: Outcome)
      modifies application`session, client`accessToken, application.client`queries
      ensures Transition(o, State()) == Pipeline(request, options, Environment(), old(State()))
    {
      PipelineSteps(request, options, Environment(), State());
      Contextualize(request);
      o := CheckContexts(options);
      if o.Fail? {
        return;
      }
      o := CheckAuthorization(options);
      if o.Fail? {
        return;
      }
      o := CheckPermissions(options);
      if o.Fail? {
        return;
      }
      o := CheckPageAdmin(options);
    }
  }
}
