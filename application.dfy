/** The Facebook application object: its configuration, the session-held context it reads,
    and the permission checks it asks the Graph API client for. */
module FacebookApplication {
  import opened Facebook
  import opened Scopes

  /** The Graph API client, seen from outside: the access token its calls carry, and a
      permission endpoint that answers `grants(token)` for a token. */
  class Client {
    var accessToken: string
    /** The tokens the permission endpoint has been called with, oldest first. */
    var queries: seq<string>
    const grants: string -> Grants

    constructor (accessToken: string, grants: string -> Grants)
      ensures this.accessToken == accessToken && this.grants == grants && queries == []
    {
      this.accessToken := accessToken;
      this.grants := grants;
      queries := [];
    }

    method SetAccessToken(token: string)
      modifies this`accessToken
      ensures accessToken == token
    {
      accessToken := token;
    }

    method GetPermissions(token: string) returns (granted: Grants)
      modifies this`queries
      ensures granted == grants(token)
      ensures queries == old(queries) + [token]
    {
      granted := grants(token);
      queries := queries + [token];
    }
  }

  /** The parameters handed to the login-URL builder. */
  datatype LoginParameters = LoginParameters(redirectUri: string, scope: seq<string>)

  /** Two applications with different ids never share a session entry. */
  lemma KeysDistinct(a: Application, b: Application)
    requires a.id != b.id
    ensures a.Key() != b.Key()
  {
    assert a.Key()[9..] == a.id && b.Key()[9..] == b.id;
  }

  class Application {
    const id: string
    const secret: string
    const canvasUrl: string
    /** Every scope the application asks its users for. */
    const scopes: seq<string>
    const client: Client
    /** The user's session, shared with whatever else the session stores. */
    var session: map<string, Context>

    constructor (id: string, secret: string, canvasUrl: string, scopes: seq<string>,
                 session: map<string, Context>, client: Client)
      ensures this.id == id && this.secret == secret && this.canvasUrl == canvasUrl
      ensures this.scopes == scopes && this.session == session && this.client == client
    {
      this.id := id;
      this.secret := secret;
      this.canvasUrl := canvasUrl;
      this.scopes := scopes;
      this.session := session;
      this.client := client;
    }

    /** The session key under which this application keeps its context. */
    function Key(): string
    {
      "facebook." + id
    }

    function HasContext(): (r: bool)
      reads this
      ensures r <==> GetContext().Some?
    {
      Key() in session
    }

    /** The context stored under this application's key; None, like the session's null default,
        when there is none. */
    function GetContext(): Option<Context>
      reads this
    {
      StoredContext(session, Key())
    }

    /** Stores `context` under this application's key and leaves every other key alone. */
    method SetContext(context: Context)
      modifies this`session
      ensures HasContext() && GetContext() == Some(context)
      ensures session.Keys == old(session.Keys) + {Key()}
      ensures forall k :: k in old(session) && k != Key() ==> session[k] == old(session)[k]
    {
      session := session[Key() := context];
    }

    function IsCanvas(): (r: bool)
      reads this
      requires HasContext()
      ensures r ==> GetContext().value.kind != Tab
    {
      Canvas == GetContext().value.kind
    }

    function IsTab(): (r: bool)
      reads this
      requires HasContext()
      ensures r ==> !IsCanvas()
    {
      Tab == GetContext().value.kind
    }

    /** The current user has granted the application an access token. */
    predicate IsAuthorized()
      reads this
      requires HasContext()
    {
      HasAccess(GetContext().value)
    }

    /** What the login URL is built from: the given redirect target, or the canvas URL when there
        is none, and always the application's whole scope list. */
    function AuthorizationParameters(redirectUri: Option<string>): (p: LoginParameters)
      ensures redirectUri.Some? ==> p.redirectUri == redirectUri.value
      ensures redirectUri.None? ==> p.redirectUri == canvasUrl
      ensures p.scope == scopes
    {
      LoginParameters(redirectUri.GetOr(canvasUrl), scopes)
    }

    /** Fails closed without a user access grant; otherwise asks the endpoint once, with exactly
        the user's token. */
    method GetPermissions() returns (r: Result<Grants>)
      requires HasContext()
      modifies client`queries
      ensures !IsAuthorized() ==> r == Err(AuthorizationError) && client.queries == old(client.queries)
      ensures IsAuthorized() ==>
                && r == Ok(client.grants(UserToken(GetContext().value)))
                && client.queries == old(client.queries) + [UserToken(GetContext().value)]
    {
      if !IsAuthorized() {
        return Err(AuthorizationError);
      }
      var granted := client.GetPermissions(UserToken(GetContext().value));
      return Ok(granted);
    }

    /** Any-of: true as soon as one listed scope is granted. */
    method HasPermission(permissions: seq<string>) returns (r: Result<bool>)
      requires HasContext()
      modifies client`queries
      ensures !IsAuthorized() ==> r == Err(AuthorizationError) && client.queries == old(client.queries)
      ensures IsAuthorized() ==>
                && r == Ok(AnyGranted(permissions, client.grants(UserToken(GetContext().value))))
                && client.queries == old(client.queries) + [UserToken(GetContext().value)]
    {
      var fetched := GetPermissions();
      if fetched.Err? {
        return Err(fetched.failure);
      }
      var granted := fetched.value;
      for i := 0 to |permissions|
        invariant forall j :: 0 <= j < i ==> !Granted(granted, permissions[j])
      {
        if permissions[i] in granted && granted[permissions[i]] == 1 {
          return Ok(true);
        }
      }
      return Ok(false);
    }

    /** The required scopes that are not granted, in the order given; the empty list means
        everything is granted. */
    method ValidatePermissions(permissions: seq<string>) returns (r: Result<seq<string>>)
      requires HasContext()
      modifies client`queries
      ensures !IsAuthorized() ==> r == Err(AuthorizationError) && client.queries == old(client.queries)
      ensures IsAuthorized() ==>
                && r == Ok(Missing(permissions, client.grants(UserToken(GetContext().value))))
                && client.queries == old(client.queries) + [UserToken(GetContext().value)]
    {
      var fetched := GetPermissions();
      if fetched.Err? {
        return Err(fetched.failure);
      }
      var granted := fetched.value;
      var missing := [];
      for i := 0 to |permissions|
        invariant missing == Missing(permissions[..i], granted)
      {
        if !(permissions[i] in granted) || granted[permissions[i]] != 1 {
          missing := missing + [permissions[i]];
        }
        assert permissions[..i + 1][..i] == permissions[..i];
      }
      assert permissions[..|permissions|] == permissions;
      return Ok(missing);
    }
  }
}
