/** The request listener's decisions as values: context resolution, the four gates, the order the
    event subscription fixes, and the chain that stops at the first failure. */
module Gates {
  import opened Facebook
  import opened Scopes

  /** What the listener sees of an HTTP request. `signedContext` is the context that decoding the
      `signed_request` field and building a context from its claims would produce. */
  datatype Request = Request(verb: string, body: set<string>, signedContext: Context)

  const SignedRequestField: string := "signed_request"

  /** The request is a POST, and its body has a `signed_request` field. */
  predicate CarriesSignedRequest(request: Request)
  {
    request.verb == "POST" && SignedRequestField in request.body
  }

  /** The requirement options of the matched route; None is an option the route does not set. */
  datatype RouteOptions = RouteOptions(
    contexts: Option<seq<string>>,
    authorization: Option<bool>,
    permissions: Option<seq<string>>,
    pageAdmin: Option<bool>)

  /** What the chain reads and writes: the session, the token of the client's calls and the
      tokens the permission endpoint was asked with. */
  datatype World = World(session: map<string, Context>, token: string, queries: seq<string>)

  /** The application's session key and the permission endpoint's answers. */
  datatype Env = Env(key: string, grants: string -> Grants)

  datatype Transition = Transition(outcome: Outcome, world: World)

  /** Writes the signed request's context under `key` only for a POST that carries one. */
  function ResolveContext(request: Request, key: string, session: map<string, Context>): (s: map<string, Context>)
    ensures CarriesSignedRequest(request) ==> StoredContext(s, key) == Some(request.signedContext)
    ensures !CarriesSignedRequest(request) ==> s == session
    ensures s.Keys <= session.Keys + {key}
    ensures forall k :: k in session && k != key ==> k in s && s[k] == session[k]
  {
    if CarriesSignedRequest(request) then session[key := request.signedContext] else session
  }

  /** No option: skip. Otherwise the context must exist and its type must be allowed. */
  function ContextsGate(allowed: Option<seq<string>>, stored: Option<Context>): (o: Outcome)
    ensures allowed.None? ==> o == Proceed
    ensures allowed.Some? && stored.None? ==> o == Fail(ContextError(None))
    ensures allowed.Some? && stored.Some? ==>
              && (o == Proceed <==> stored.value.kind in allowed.value)
              && (o != Proceed ==> o == Fail(ContextError(Some(stored.value.kind))))
  {
    match allowed
    case None => Proceed
    case Some(kinds) =>
      match stored
      case None => Fail(ContextError(None))
      case Some(context) =>
        if context.kind in kinds then Proceed else Fail(ContextError(Some(context.kind)))
  }

  /** No option: skip. Otherwise the user must have an access grant. */
  function AuthorizationGate(required: Option<bool>, stored: Option<Context>): (o: Outcome)
    ensures required.None? ==> o == Proceed
    ensures required.Some? && stored.None? ==> o == Fail(NullContextError)
    ensures required.Some? && stored.Some? ==>
              && (o == Proceed <==> HasAccess(stored.value))
              && (o != Proceed ==> o == Fail(AuthorizationError))
  {
    match required
    case None => Proceed
    case Some(_) =>
      match stored
      case None => Fail(NullContextError)
      case Some(context) => if HasAccess(context) then Proceed else Fail(AuthorizationError)
  }

  /** The client's token after the authorization gate: the user's own token once the gate has
      been required and passed, the previous token otherwise. */
  function AuthorizedToken(required: Option<bool>, stored: Option<Context>, token: string): (t: string)
    ensures AuthorizationGate(required, stored) == Proceed && required.Some? ==>
              stored.Some? && HasAccess(stored.value) && t == UserToken(stored.value)
    ensures (AuthorizationGate(required, stored) != Proceed || required.None?) ==> t == token
  {
    if required.Some? && stored.Some? && HasAccess(stored.value) then UserToken(stored.value) else token
  }

  /** No option: skip. Otherwise the user must have an access grant and every required scope
      must be granted for the user's token; a failure names all missing scopes. */
  function PermissionsGate(required: Option<seq<string>>, stored: Option<Context>, grants: string -> Grants): (o: Outcome)
    ensures required.None? ==> o == Proceed
    ensures required.Some? && stored.None? ==> o == Fail(NullContextError)
    ensures required.Some? && stored.Some? && !HasAccess(stored.value) ==> o == Fail(AuthorizationError)
    ensures required.Some? && stored.Some? && HasAccess(stored.value) ==>
              var granted := grants(UserToken(stored.value));
              && (o == Proceed <==> forall i :: 0 <= i < |required.value| ==> Granted(granted, required.value[i]))
              && (o != Proceed ==> o == Fail(PermissionError(Missing(required.value, granted))))
  {
    match required
    case None => Proceed
    case Some(scopes) =>
      match stored
      case None => Fail(NullContextError)
      case Some(context) =>
        if !HasAccess(context) then Fail(AuthorizationError)
        else
          var missing := Missing(scopes, grants(UserToken(context)));
          MissingEmptyIff(scopes, grants(UserToken(context)));
          if |missing| > 0 then Fail(PermissionError(missing)) else Proceed
  }

  /** The permission endpoint is called once, with the user's token, exactly when the gate is
      required and the user has an access grant. */
  function PermissionQueries(required: Option<seq<string>>, stored: Option<Context>, queries: seq<string>): (q: seq<string>)
    ensures queries <= q && |q| <= |queries| + 1
    ensures q != queries ==> required.Some? && stored.Some? && HasAccess(stored.value) && q[|queries|] == UserToken(stored.value)
  {
    if required.Some? && stored.Some? && HasAccess(stored.value) then queries + [UserToken(stored.value)] else queries
  }

  /** No option: skip. A context that is not a tab is a programming error, whatever the admin
      facts; a tab the user does not manage is a role failure. */
  function PageAdminGate(required: Option<bool>, stored: Option<Context>): (o: Outcome)
    ensures o == Proceed <==> required.None? || (stored.Some? && stored.value.kind == Tab && stored.value.manageable)
    ensures required.Some? && stored.None? ==> o == Fail(NullContextError)
    ensures required.Some? && stored.Some? && stored.value.kind != Tab ==> o == Fail(LogicError)
    ensures required.Some? && stored.Some? && stored.value.kind == Tab && !stored.value.manageable ==> o == Fail(RoleError)
  {
    match required
    case None => Proceed
    case Some(_) =>
      match stored
      case None => Fail(NullContextError)
      case Some(context) =>
        if context.kind != Tab then Fail(LogicError)
        else if !context.manageable then Fail(RoleError)
        else Proceed
  }

  /** The listeners of the request event, in the order they are subscribed. */
  datatype Stage = Resolve | Contexts | Authorization | Permissions | PageAdmin

  datatype Subscription = Subscription(stage: Stage, priority: int)

  /** Context resolution is subscribed with priority 64, the gates with the default 0; the
      dispatcher calls higher priorities first and equal ones in subscription order, so the
      priorities never increasing along the list means the list is the calling order. */
  function SubscribedEvents(): (r: seq<Subscription>)
    ensures |r| == 5
    ensures [r[0].stage, r[1].stage, r[2].stage, r[3].stage, r[4].stage]
            == [Resolve, Contexts, Authorization, Permissions, PageAdmin]
    ensures forall i, j :: 0 <= i < j < |r| ==> r[i].priority >= r[j].priority
    ensures forall i :: 0 < i < |r| ==> r[0].priority > r[i].priority
  {
    [Subscription(Resolve, 64), Subscription(Contexts, 0), Subscription(Authorization, 0),
     Subscription(Permissions, 0), Subscription(PageAdmin, 0)]
  }

  /** The stages in calling order: the stages of the subscription list. */
  function Order(): seq<Stage>
  {
    var subscriptions := SubscribedEvents();
    seq(|subscriptions|, i requires 0 <= i < |subscriptions| => subscriptions[i].stage)
  }

  /** One listener call: only resolution writes the session, only the authorization gate switches
      the token, and only the permission gate may call the endpoint, at most once. */
  function Step(stage: Stage, request: Request, options: RouteOptions, env: Env, w: World): (t: Transition)
    ensures stage == Resolve ==> t.outcome == Proceed
    ensures stage != Resolve ==> t.world.session == w.session
    ensures stage != Authorization ==> t.world.token == w.token
    ensures stage != Permissions ==> t.world.queries == w.queries
    ensures w.queries <= t.world.queries && |t.world.queries| <= |w.queries| + 1
  {
    var stored := StoredContext(w.session, env.key);
    match stage
    case Resolve =>
      Transition(Proceed, w.(session := ResolveContext(request, env.key, w.session)))
    case Contexts =>
      Transition(ContextsGate(options.contexts, stored), w)
    case Authorization =>
      Transition(AuthorizationGate(options.authorization, stored),
                 w.(token := AuthorizedToken(options.authorization, stored, w.token)))
    case Permissions =>
      Transition(PermissionsGate(options.permissions, stored, env.grants),
                 w.(queries := PermissionQueries(options.permissions, stored, w.queries)))
    case PageAdmin =>
      Transition(PageAdminGate(options.pageAdmin, stored), w)
  }

  function Occurrences(stages: seq<Stage>, stage: Stage): nat
    decreases |stages|
  {
    if stages == [] then 0 else (if stages[0] == stage then 1 else 0) + Occurrences(stages[1..], stage)
  }

  /** Runs the stages in order; the first failure ends the run. */
  function Run(stages: seq<Stage>, request: Request, options: RouteOptions, env: Env, w: World): (t: Transition)
    ensures Resolve !in stages ==> t.world.session == w.session
    ensures Authorization !in stages ==> t.world.token == w.token
    ensures w.queries <= t.world.queries
    ensures |t.world.queries| <= |w.queries| + Occurrences(stages, Permissions)
    decreases |stages|
  {
    if stages == [] then Transition(Proceed, w)
    else
      var t := Step(stages[0], request, options, env, w);
      if t.outcome.Fail? then t else Run(stages[1..], request, options, env, t.world)
  }

  /** The whole request listener on one request: the permission endpoint is called at most once
      and earlier calls stay in the log. */
  function Pipeline(request: Request, options: RouteOptions, env: Env, w: World): (t: Transition)
    ensures w.queries <= t.world.queries && |t.world.queries| <= |w.queries| + 1
  {
    assert Occurrences(Order(), Permissions) == 1 by {
      assert Order() == [Resolve, Contexts, Authorization, Permissions, PageAdmin];
    }
    Run(Order(), request, options, env, w)
  }

  /** A gate whose option the route does not set passes and changes nothing. */
  lemma AbsentOptionIsNoOp(stage: Stage, request: Request, options: RouteOptions, env: Env, w: World)
    requires stage != Resolve
    requires stage == Contexts ==> options.contexts.None?
    requires stage == Authorization ==> options.authorization.None?
    requires stage == Permissions ==> options.permissions.None?
    requires stage == PageAdmin ==> options.pageAdmin.None?
    ensures Step(stage, request, options, env, w) == Transition(Proceed, w)
  {
  }

  /** The first failing outcome of a list, or Proceed when none fails. */
  function FirstFailure(outcomes: seq<Outcome>): (o: Outcome)
    ensures o == Proceed <==> forall i :: 0 <= i < |outcomes| ==> outcomes[i] == Proceed
    ensures o != Proceed ==> exists i :: 0 <= i < |outcomes| && outcomes[i] == o &&
                                        forall j :: 0 <= j < i ==> outcomes[j] == Proceed
    decreases |outcomes|
  {
    if outcomes == [] then Proceed
    else if outcomes[0].Fail? then outcomes[0]
    else FirstFailure(outcomes[1..])
  }

  /** The context the gates judge: the one in the session after resolution. */
  function ResolvedContext(request: Request, env: Env, w: World): Option<Context>
  {
    StoredContext(ResolveContext(request, env.key, w.session), env.key)
  }

  /** Each gate's own verdict on the resolved context, in calling order. */
  function GateOutcomes(request: Request, options: RouteOptions, env: Env, w: World): seq<Outcome>
  {
    var c := ResolvedContext(request, env, w);
    [ContextsGate(options.contexts, c), AuthorizationGate(options.authorization, c),
     PermissionsGate(options.permissions, c, env.grants), PageAdminGate(options.pageAdmin, c)]
  }

  /** The worlds after resolution, after the authorization gate and after the permission gate. */
  function Resolved(request: Request, env: Env, w: World): World
  {
    w.(session := ResolveContext(request, env.key, w.session))
  }

  function Authorized(request: Request, options: RouteOptions, env: Env, w: World): World
  {
    var c := ResolvedContext(request, env, w);
    Resolved(request, env, w).(token := AuthorizedToken(options.authorization, c, w.token))
  }

  function Queried(request: Request, options: RouteOptions, env: Env, w: World): World
  {
    var c := ResolvedContext(request, env, w);
    Authorized(request, options, env, w).(queries := PermissionQueries(options.permissions, c, w.queries))
  }

  /** What each stage does to the world it receives along a run of the subscription list. */
  lemma StepsOfOrder(request: Request, options: RouteOptions, env: Env, w: World)
    ensures var g := GateOutcomes(request, options, env, w);
            var w1 := Resolved(request, env, w);
            var w2 := Authorized(request, options, env, w);
            var w3 := Queried(request, options, env, w);
            && Step(Resolve, request, options, env, w) == Transition(Proceed, w1)
            && Step(Contexts, request, options, env, w1) == Transition(g[0], w1)
            && Step(Authorization, request, options, env, w1) == Transition(g[1], w2)
            && Step(Permissions, request, options, env, w2) == Transition(g[2], w3)
            && Step(PageAdmin, request, options, env, w3) == Transition(g[3], w3)
  {
  }

  /** The chain on the subscription list, unfolded stage by stage. */
  lemma PipelineUnfolded(request: Request, options: RouteOptions, env: Env, w: World)
    ensures var g := GateOutcomes(request, options, env, w);
            Pipeline(request, options, env, w)
              == if g[0].Fail? then Transition(g[0], Resolved(request, env, w))
                 else if g[1].Fail? then Transition(g[1], Authorized(request, options, env, w))
                 else if g[2].Fail? then Transition(g[2], Queried(request, options, env, w))
                 else Transition(g[3], Queried(request, options, env, w))
  {
    var g := GateOutcomes(request, options, env, w);
    var w1 := Resolved(request, env, w);
    var w2 := Authorized(request, options, env, w);
    var w3 := Queried(request, options, env, w);
    var s1 := [Contexts, Authorization, Permissions, PageAdmin];
    var s2 := [Authorization, Permissions, PageAdmin];
    var s3 := [Permissions, PageAdmin];
    var r3 := Run([PageAdmin], request, options, env, w3);
    var r2 := Run(s3, request, options, env, w2);
    var r1 := Run(s2, request, options, env, w1);
    var r0 := Run(s1, request, options, env, w1);
    StepsOfOrder(request, options, env, w);
    RunCons(PageAdmin, [], request, options, env, w3);
    assert [PageAdmin] + [] == [PageAdmin];
    assert r3 == Transition(g[3], w3);
    RunCons(Permissions, [PageAdmin], request, options, env, w2);
    assert [Permissions] + [PageAdmin] == s3;
    assert r2 == if g[2].Fail? then Transition(g[2], w3) else r3;
    RunCons(Authorization, s3, request, options, env, w1);
    assert [Authorization] + s3 == s2;
    assert r1 == if g[1].Fail? then Transition(g[1], w2) else r2;
    RunCons(Contexts, s2, request, options, env, w1);
    assert [Contexts] + s2 == s1;
    assert r0 == if g[0].Fail? then Transition(g[0], w1) else r1;
    RunCons(Resolve, s1, request, options, env, w);
    assert Order() == [Resolve] + s1;
  }

  /** The pipeline's outcome is the first gate failure; the session is the resolved one; the
      token switches to the user's and the endpoint is asked only when every earlier gate passed. */
  lemma PipelineSteps(request: Request, options: RouteOptions, env: Env, w: World)
    ensures var t := Pipeline(request, options, env, w);
            var c := ResolvedContext(request, env, w);
            var g := GateOutcomes(request, options, env, w);
            && t.outcome == FirstFailure(g)
            && t.world.session == ResolveContext(request, env.key, w.session)
            && t.world.token == (if g[0] == Proceed then AuthorizedToken(options.authorization, c, w.token) else w.token)
            && t.world.queries == (if g[0] == Proceed && g[1] == Proceed
                                   then PermissionQueries(options.permissions, c, w.queries) else w.queries)
  {
    var g := GateOutcomes(request, options, env, w);
    PipelineUnfolded(request, options, env, w);
    if g[0] == Proceed {
      if g[1] == Proceed {
        if g[2] == Proceed {
          assert FirstFailure(g) == FirstFailure(g[1..]) == FirstFailure(g[1..][1..]) == FirstFailure(g[1..][1..][1..]);
        } else {
          assert FirstFailure(g) == FirstFailure(g[1..]) == FirstFailure(g[1..][1..]) == g[2];
        }
      } else {
        assert FirstFailure(g) == FirstFailure(g[1..]) == g[1];
      }
    }
  }

  /** Running a list runs its first stage, then the rest unless the first stage failed. */
  lemma RunCons(stage: Stage, rest: seq<Stage>, request: Request, options: RouteOptions, env: Env, w: World)
    ensures var t := Step(stage, request, options, env, w);
            Run([stage] + rest, request, options, env, w)
              == if t.outcome.Fail? then t else Run(rest, request, options, env, t.world)
  {
    assert ([stage] + rest)[1..] == rest;
  }

  /** The chain lets a request through exactly when every requirement its route declares holds
      for the resolved context. */
  lemma PipelineProceedsIff(request: Request, options: RouteOptions, env: Env, w: World)
    ensures var c := ResolvedContext(request, env, w);
            Pipeline(request, options, env, w).outcome == Proceed <==>
              && (options.contexts.Some? ==> c.Some? && c.value.kind in options.contexts.value)
              && (options.authorization.Some? ==> c.Some? && HasAccess(c.value))
              && (options.permissions.Some? ==>
                    c.Some? && HasAccess(c.value) &&
                    forall i :: 0 <= i < |options.permissions.value| ==>
                      Granted(env.grants(UserToken(c.value)), options.permissions.value[i]))
              && (options.pageAdmin.Some? ==> c.Some? && c.value.kind == Tab && c.value.manageable)
  {
    PipelineSteps(request, options, env, w);
    var g := GateOutcomes(request, options, env, w);
    assert FirstFailure(g) == Proceed <==> g[0] == Proceed && g[1] == Proceed && g[2] == Proceed && g[3] == Proceed;
  }

  /** A route without requirements lets every request through and the client is neither
      switched to another token nor asked for permissions. */
  lemma NoRequirementsNoEffect(request: Request, env: Env, w: World)
    ensures var t := Pipeline(request, RouteOptions(None, None, None, None), env, w);
            t.outcome == Proceed && t.world.token == w.token && t.world.queries == w.queries
  {
    PipelineSteps(request, RouteOptions(None, None, None, None), env, w);
  }

  /** A context failure is the outcome even when later gates would fail too, and neither the
      token nor the permission endpoint is touched. */
  lemma ContextFailureShortCircuits(request: Request, options: RouteOptions, env: Env, w: World)
    requires ContextsGate(options.contexts, ResolvedContext(request, env, w)) != Proceed
    ensures var t := Pipeline(request, options, env, w);
            && t.outcome == ContextsGate(options.contexts, ResolvedContext(request, env, w))
            && t.outcome.failure.ContextError?
            && t.world.token == w.token && t.world.queries == w.queries
  {
    PipelineSteps(request, options, env, w);
  }

  /** The permission endpoint is asked at most once, with the user's token, and only after the
      context and authorization gates have passed. */
  lemma OracleOnlyAfterEarlierGates(request: Request, options: RouteOptions, env: Env, w: World)
    ensures var t := Pipeline(request, options, env, w);
            var c := ResolvedContext(request, env, w);
            t.world.queries != w.queries ==>
              && ContextsGate(options.contexts, c) == Proceed
              && AuthorizationGate(options.authorization, c) == Proceed
              && options.permissions.Some? && c.Some? && HasAccess(c.value)
              && t.world.queries == w.queries + [UserToken(c.value)]
  {
    PipelineSteps(request, options, env, w);
  }

  /** Once authorization is required and the request gets through, the client speaks with the
      user's token. */
  lemma SuccessUsesUserToken(request: Request, options: RouteOptions, env: Env, w: World)
    requires options.authorization.Some?
    requires Pipeline(request, options, env, w).outcome == Proceed
    ensures var c := ResolvedContext(request, env, w);
            c.Some? && HasAccess(c.value) && Pipeline(request, options, env, w).world.token == UserToken(c.value)
  {
    PipelineSteps(request, options, env, w);
    PipelineProceedsIff(request, options, env, w);
  }

  /** The session changes only by resolution: a request without a signed POST leaves it as it
      was, whatever the gates decide. */
  lemma SessionOnlyWrittenByResolution(request: Request, options: RouteOptions, env: Env, w: World)
    requires !CarriesSignedRequest(request)
    ensures Pipeline(request, options, env, w).world.session == w.session
  {
    PipelineSteps(request, options, env, w);
  }

  /** A route restricted to tabs rejects a canvas request with a context failure. */
  lemma CanvasRejectedFromTabRoute(user: User, env: Env, w: World)
    ensures var request := Request("POST", {SignedRequestField}, Context(Canvas, user, false));
            Pipeline(request, RouteOptions(Some([Tab]), None, None, None), env, w).outcome
              == Fail(ContextError(Some(Canvas)))
  {
    var request := Request("POST", {SignedRequestField}, Context(Canvas, user, false));
    PipelineSteps(request, RouteOptions(Some([Tab]), None, None, None), env, w);
  }

  /** A route requiring two scopes, of which only one is granted, fails naming the other. */
  lemma PermissionFailureNamesMissing(env: Env, w: World)
    requires env.grants("user-token") == map["read_stream" := 1]
    ensures var request := Request("POST", {SignedRequestField}, Context(Canvas, User(Some(Access("user-token"))), false));
            var options := RouteOptions(None, None, Some(["publish_stream", "read_stream"]), None);
            Pipeline(request, options, env, w).outcome == Fail(PermissionError(["publish_stream"]))
  {
    var context := Context(Canvas, User(Some(Access("user-token"))), false);
    var request := Request("POST", {SignedRequestField}, context);
    var options := RouteOptions(None, None, Some(["publish_stream", "read_stream"]), None);
    var required := ["publish_stream", "read_stream"];
    var granted := env.grants("user-token");
    assert required[..1] == ["publish_stream"] && required[..1][..0] == [];
    assert Missing(required, granted) == ["publish_stream"];
    assert ResolvedContext(request, env, w) == Some(context);
    var g := GateOutcomes(request, options, env, w);
    assert g == [Proceed, Proceed, Fail(PermissionError(["publish_stream"])), Proceed];
    assert FirstFailure(g) == FirstFailure(g[1..]) == FirstFailure(g[1..][1..]) == g[2];
    PipelineSteps(request, options, env, w);
  }


  /** A page-admin route on a canvas context is a programming error, not a role failure, even
      for a user who manages the page. */
  lemma PageAdminOnCanvasIsLogicError(request: Request, env: Env, w: World)
    requires CarriesSignedRequest(request) && request.signedContext.kind == Canvas
    ensures Pipeline(request, RouteOptions(None, None, None, Some(true)), env, w).outcome == Fail(LogicError)
  {
    PipelineSteps(request, RouteOptions(None, None, None, Some(true)), env, w);
  }

  /** A route requiring authorization only rejects a user without an access grant, and lets a
      user with one through with the client switched to that user's token. */
  lemma AuthorizationOnlyRoute(kind: string, token: string, env: Env, w: World)
    ensures var options := RouteOptions(None, Some(true), None, None);
            var without := Request("POST", {SignedRequestField}, Context(kind, User(None), false));
            var with := Request("POST", {SignedRequestField}, Context(kind, User(Some(Access(token))), false));
            && Pipeline(without, options, env, w).outcome == Fail(AuthorizationError)
            && Pipeline(with, options, env, w) == Transition(Proceed, Pipeline(with, options, env, w).world)
            && Pipeline(with, options, env, w).world.token == token
            && Pipeline(with, options, env, w).world.queries == w.queries
  {
    var options := RouteOptions(None, Some(true), None, None);
    PipelineSteps(Request("POST", {SignedRequestField}, Context(kind, User(None), false)), options, env, w);
    PipelineSteps(Request("POST", {SignedRequestField}, Context(kind, User(Some(Access(token))), false)), options, env, w);
  }
}
