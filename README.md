# Facebook request gates for Silex, in Dafny

This project models the request-authorisation core of a Silex integration for Facebook
applications. A request listener first resolves the Facebook context: a POST that carries a
`signed_request` field writes a fresh context into the session under the key `facebook.<app id>`.
Four gates then run in a fixed order, each skipped when the matched route does not set its
option:

1. the context gate: a context must exist, and its type must be in the route's allowed list;
2. the authorization gate: the user must have granted an access token, and from then on the
   Graph API client uses that token;
3. the permission gate: every required scope must be granted (flag exactly `1`), and a failure
   names every missing scope;
4. the page-admin gate: the context must be a tab (otherwise it is a programming error), and the
   user must manage the page.

The first failure stops the chain.

Layout:

- `facebook.dfy` (module `Facebook`): the context, user and access grant as values, the failure
  kinds, and the `Outcome`/`Result` types that replace exceptions.
- `scopes.dfy` (module `Scopes`): what "granted" means, the ordered filter of missing scopes, the
  any-of check, and lemmas about them.
- `application.dfy` (module `FacebookApplication`): the `Application` class, whose session is a
  `map<string, Context>` field, and a `Client` class standing for the Graph API client. The client
  has an access-token field, a permission endpoint modelled as an oracle `grants: string -> map<string, int>`,
  and a log of the tokens that endpoint was called with.
- `gates.dfy` (module `Gates`): the listener's decisions as pure functions over a `World` value
  (session, client token, endpoint log), the subscription order, the chain `Pipeline`, and the
  lemmas about the chain.
- `listener.dfy` (module `FacebookListener`): the `Listener` class. Its methods change the
  application's session and the client. Each one is proved equal to the matching function in
  `Gates`, and `Handle` is proved equal to `Pipeline`.
- `page.dfy` (module `FacebookPage`): the `Page` record with its setters.

Details of the source's behaviour that the model keeps:

- A grant counts only when its flag is the integer `1`, not any true value.
- A page-admin requirement on a non-tab context raises the generic `LogicException`
  (`LogicError` here).
- An `authorization` or `page_admin` option that is set to `false` still turns its gate on.
  The listener only tests the option against `null`.
- Dereferencing a missing context is a PHP runtime fault. This happens in `isAuthorized`,
  `isCanvas`, `isTab` and `getPermissions` when the session holds no context. The gates report it as
  `NullContextError`, and the `Application` reads require `HasContext()`.

## Model

| member | source | states |
|---|---|---|
| `Scopes.Missing` | src/Statigram/Facebook/Application.php:137-149 | the missing list is never longer than the required list |
| `Scopes.MissingMembers` | src/Statigram/Facebook/Application.php:140-146 | a scope is in the missing list iff it is required and its flag is absent or not exactly 1; so every required scope left out of the list is granted |
| `Scopes.MissingEmptyIff` | src/Statigram/Facebook/Application.php:127-149 | the missing list is empty iff every required scope is granted |
| `Scopes.MissingIsSubsequence` | src/Statigram/Facebook/Application.php:140-148 | the missing list is a subsequence of the required list, in the required order |
| `Scopes.MissingConcat` | src/Statigram/Facebook/Application.php:140-146 | the filter distributes over concatenation: each scope is decided on its own |
| `Scopes.AnyGrantedIffNotAllMissing` | src/Statigram/Facebook/Application.php:113-124 | the any-of check holds iff fewer scopes are missing than listed |
| `Scopes.AnyGrantedIsNotAllGranted` | src/Statigram/Facebook/Application.php:113-124 | a witness that the any-of check passes while a listed scope is missing |
| `FacebookApplication.Application.constructor` | src/Statigram/Facebook/Application.php:21-31 | stores id, secret, canvas URL, scopes, session and client |
| `FacebookApplication.KeysDistinct` | src/Statigram/Facebook/Application.php:170-193 | applications with different ids never share a session entry |
| `FacebookApplication.Application.Key` | src/Statigram/Facebook/Application.php:170-193 | no contract of its own; the key `facebook.<id>` is given its meaning by `KeysDistinct` and by `SetContext`, which touches only this key |
| `FacebookApplication.Application.HasContext` | src/Statigram/Facebook/Application.php:170-173 | a context exists exactly when reading it gives one |
| `FacebookApplication.Application.GetContext` | src/Statigram/Facebook/Application.php:190-193 | no contract of its own; it is the read side of `SetContext` (the stored context reads back) and agrees with `HasContext` |
| `FacebookApplication.Application.IsAuthorized` | src/Statigram/Facebook/Application.php:88-91 | no contract of its own; `AuthorizedIffGatePasses` ties it to the authorization gate, and `GetPermissions` fails closed when it is false |
| `FacebookApplication.Application.SetContext` | src/Statigram/Facebook/Application.php:170-193 | afterwards the context exists and reads back as the one stored; only the key `facebook.<id>` is added or replaced |
| `FacebookApplication.Application.IsCanvas` | src/Statigram/Facebook/Application.php:38-41 | a canvas context is not a tab |
| `FacebookApplication.Application.IsTab` | src/Statigram/Facebook/Application.php:48-51 | tab and canvas never hold together |
| `FacebookApplication.Application.AuthorizationParameters` | src/Statigram/Facebook/Application.php:62-69 | `redirect_uri` is the given target, or the canvas URL when none is given; `scope` is always the whole scope list |
| `FacebookApplication.Application.GetPermissions` | src/Statigram/Facebook/Application.php:88-107 | without a user access grant it fails with an authorization error and does not call the endpoint; otherwise it calls the endpoint once with exactly the user's token and returns its answer |
| `FacebookApplication.Application.HasPermission` | src/Statigram/Facebook/Application.php:113-124 | returns whether some listed scope is granted (any-of), with the same failure and query behaviour as `GetPermissions` |
| `FacebookApplication.Application.ValidatePermissions` | src/Statigram/Facebook/Application.php:137-149 | returns exactly the ordered missing list for the user's grants, with the same failure and query behaviour as `GetPermissions` |
| `FacebookPage.Page.constructor` | src/Statigram/Facebook/Model/Page.php:25-28 | the id is the argument; admin, liked and access are unset |
| `FacebookPage.Page.GetId` | src/Statigram/Facebook/Model/Page.php:30-33 | no contract of its own; it is the read side of the constructor and setter contracts |
| `FacebookPage.Page.GetAdmin` | src/Statigram/Facebook/Model/Page.php:40-43 | no contract of its own; it is the read side of the constructor and setter contracts |
| `FacebookPage.Page.GetLiked` | src/Statigram/Facebook/Model/Page.php:50-53 | no contract of its own; it is the read side of the constructor and setter contracts |
| `FacebookPage.Page.GetAccess` | src/Statigram/Facebook/Model/Page.php:65-68 | no contract of its own; it is the read side of the constructor and setter contracts |
| `FacebookPage.Page.SetId` | src/Statigram/Facebook/Model/Page.php:30-38 | the id reads back as set; the other fields are unchanged |
| `FacebookPage.Page.SetAdmin` | src/Statigram/Facebook/Model/Page.php:40-48 | admin reads back as set; id, liked and access are unchanged |
| `FacebookPage.Page.SetLiked` | src/Statigram/Facebook/Model/Page.php:50-58 | liked reads back as set; id, admin and access are unchanged |
| `FacebookPage.Page.SetAccess` | src/Statigram/Facebook/Model/Page.php:60-68 | access reads back as set; id, admin and liked are unchanged |
| `Gates.CarriesSignedRequest` | src/Statigram/Silex/Listener/FacebookListener.php:51 | no contract of its own; `ResolveContext` writes the session exactly when it holds, and `SessionOnlyWrittenByResolution` shows the session is unchanged otherwise |
| `Gates.ResolveContext` | src/Statigram/Silex/Listener/FacebookListener.php:47-61 | a signed POST stores its context under the application's key; any other request leaves the session as it was; other keys are never touched |
| `Gates.ContextsGate` | src/Statigram/Silex/Listener/FacebookListener.php:63-96 | skipped without the option; with it, no context is a context error, and otherwise it passes iff the context type is allowed, naming the rejected type when not |
| `Gates.AuthorizationGate` | src/Statigram/Silex/Listener/FacebookListener.php:98-113 | skipped without the option; with it, no stored context is the null-dereference fault, and otherwise it passes iff the user has an access grant, failing with an authorization error when not |
| `Gates.AuthorizedToken` | src/Statigram/Silex/Listener/FacebookListener.php:115-119 | after a required and passed authorization gate the client token is the user's token; otherwise it is unchanged |
| `Gates.PermissionsGate` | src/Statigram/Silex/Listener/FacebookListener.php:126-148 | skipped without the option; with it, no stored context is the null-dereference fault, no user grant is an authorization error, and otherwise it passes iff every required scope is granted, failing with the full ordered missing list |
| `Gates.PermissionQueries` | src/Statigram/Facebook/Application.php:100-107 | the endpoint log only grows, by at most one entry, and only with the user's token when permissions are required and the user has a grant |
| `Gates.PageAdminGate` | src/Statigram/Silex/Listener/FacebookListener.php:150-164 | passes iff the option is absent or the context is a tab the user manages; a non-tab context is a logic error whatever the admin facts; an unmanaged tab is a role error |
| `Gates.SubscribedEvents` | src/Statigram/Silex/Listener/FacebookListener.php:166-177 | resolution, then the context, authorization, permission and page-admin gates; resolution has the highest priority, and priorities never increase along the list, so the list is the calling order |
| `Gates.Order` | src/Statigram/Silex/Listener/FacebookListener.php:166-177 | no contract of its own; it is the projection of the stage list that `SubscribedEvents` states, and `PipelineSteps` shows the gates run in that order |
| `Gates.Step` | src/Statigram/Silex/Listener/FacebookListener.php:166-177 | one listener call: only resolution writes the session, and it always proceeds; only the authorization gate switches the token; only the permission gate calls the endpoint, at most once |
| `Gates.Run` | src/Statigram/Silex/Listener/FacebookListener.php:166-177 | running listeners in order, stopping at the first failure, never writes the session without resolution, never switches the token without the authorization gate, and calls the endpoint at most once per permission gate run |
| `Gates.Pipeline` | src/Statigram/Silex/Listener/FacebookListener.php:166-177 | one request calls the permission endpoint at most once and keeps the earlier log |
| `Gates.RunCons` | src/Statigram/Silex/Listener/FacebookListener.php:166-177 | a run executes its first listener, then the rest only if the first did not fail |
| `Gates.StepsOfOrder` | src/Statigram/Silex/Listener/FacebookListener.php:166-177 | along the subscription list, each gate returns its own verdict on the resolved context, and the token and endpoint log change as the gates say |
| `Gates.PipelineUnfolded` | src/Statigram/Silex/Listener/FacebookListener.php:166-177 | the chain ends at the first failing gate, in the world reached up to that gate |
| `Gates.FirstFailure` | src/Statigram/Silex/Listener/FacebookListener.php:166-177 | the chain's verdict is Proceed iff every gate proceeds, and otherwise the earliest failure |
| `Gates.AbsentOptionIsNoOp` | src/Statigram/Silex/Listener/FacebookListener.php:63-164 | a gate whose option is not set passes and changes neither the session, the token nor the endpoint log |
| `Gates.PipelineSteps` | src/Statigram/Silex/Listener/FacebookListener.php:166-177 | the chain's outcome is the first failing gate; the session is the resolved one; the token switches and the endpoint is asked only if every earlier gate passed |
| `Gates.PipelineProceedsIff` | src/Statigram/Silex/Listener/FacebookListener.php:63-177 | a request gets through iff every requirement its route declares holds for the resolved context |
| `Gates.NoRequirementsNoEffect` | src/Statigram/Silex/Listener/FacebookListener.php:63-164 | a route without requirements lets every request through, and the client is neither switched nor queried |
| `Gates.ContextFailureShortCircuits` | src/Statigram/Silex/Listener/FacebookListener.php:63-177 | when the context gate fails, its failure is the outcome, and the token and endpoint are untouched |
| `Gates.OracleOnlyAfterEarlierGates` | src/Statigram/Silex/Listener/FacebookListener.php:126-177 | the endpoint is asked at most once, with the user's token, and only after the context and authorization gates have passed |
| `Gates.SuccessUsesUserToken` | src/Statigram/Silex/Listener/FacebookListener.php:98-124 | when authorization is required and the request gets through, the client uses the user's token |
| `Gates.SessionOnlyWrittenByResolution` | src/Statigram/Silex/Listener/FacebookListener.php:47-61 | without a signed POST the session is unchanged, whatever the gates decide |
| `Gates.CanvasRejectedFromTabRoute` | src/Statigram/Silex/Listener/FacebookListener.php:78-91 | a canvas request to a tab-only route fails with a context error naming `canvas` |
| `Gates.PermissionFailureNamesMissing` | src/Statigram/Silex/Listener/FacebookListener.php:133-143 | requiring two scopes with one granted fails, naming exactly the other one |
| `Gates.PageAdminOnCanvasIsLogicError` | src/Statigram/Silex/Listener/FacebookListener.php:157-159 | a page-admin route on a canvas context is a logic error |
| `Gates.AuthorizationOnlyRoute` | src/Statigram/Silex/Listener/FacebookListener.php:98-124 | an authorization-only route rejects a user without a grant; it lets a user with one through, with the user's token and no endpoint call |
| `FacebookListener.AuthorizedIffGatePasses` | src/Statigram/Facebook/Application.php:88-91 | with a stored context, the application is authorized exactly when a required authorization gate passes |
| `FacebookListener.Listener.constructor` | src/Statigram/Silex/Listener/FacebookListener.php:38-45 | keeps the application and the client |
| `FacebookListener.Listener.Contextualize` | src/Statigram/Silex/Listener/FacebookListener.php:47-61 | the new session is `ResolveContext` of the old one |
| `FacebookListener.Listener.CheckContexts` | src/Statigram/Silex/Listener/FacebookListener.php:63-96 | returns the context gate's verdict on the stored context |
| `FacebookListener.Listener.CheckAuthorization` | src/Statigram/Silex/Listener/FacebookListener.php:98-124 | returns the authorization gate's verdict and switches the client token as `AuthorizedToken` says |
| `FacebookListener.Listener.CheckPermissions` | src/Statigram/Silex/Listener/FacebookListener.php:126-148 | returns the permission gate's verdict; the endpoint is called only when a user grant exists |
| `FacebookListener.Listener.CheckPageAdmin` | src/Statigram/Silex/Listener/FacebookListener.php:150-164 | returns the page-admin gate's verdict on the stored context |
| `FacebookListener.Listener.Handle` | src/Statigram/Silex/Listener/FacebookListener.php:166-177 | the outcome and the new session, token and endpoint log are those of `Pipeline` on the old state |

## Left out

- The route lookup in `getRequirements` (FacebookListener.php:179-186) is left out. The model takes the matched route's four options directly, as a `RouteOptions` record. An unknown route name, which PHP dereferences as null, is not modelled.
- Signed-request decoding and verification (`getSignedRequest`) and `ContextFactory::create` are code that is not part of this model. A request carries the context they would build as an input. A failed verification is not modelled.
- `Context`, `User` and `Access` are not part of this model either. Their `getType`, `getUser`, `hasAccess`, `getToken` and `isManageable` are fields of value types here.
- The Graph API client is not part of this model. Its `getPermissions` call is an oracle: a total, fixed function from tokens to flag maps, and `setAccessToken` is a field write. Endpoint failures are not modelled: in PHP they would escape `checkPermissions` as exceptions and reject a request that meets every requirement. `getLoginUrl` and URL formatting are left out.
- `Application.AuthorizationParameters`: `scope` is the scope list itself, not the comma-joined string that `getScopes(true)` builds. That method is in the base `Model\Application` class, which is not part of this model.
- `authorize`, `redirect` and `getSignedRequest` of `Application` (Application.php:78-81, 160-163, 196-199) are left out. They construct the OAuth redirect response or forward to the client.
- Logger calls are left out. Every one is guarded by a null test and does not change control flow.
- Exception message texts are left out. A failure carries its structured detail instead: the rejected type, or the missing scopes.
- `Gates.ContextsGate`: membership is exact string equality. PHP's loose `in_array` differs only for numeric strings, which context types are not.
- The redundant second `isAuthorized()` test before the token switch (FacebookListener.php:117) is folded into the first one. That second test cannot fail.
- The Symfony event dispatcher and its priority sorting are left out. The calling order is the explicit stage list `Order`.
- `FacebookApplication.Application.HasContext`: the session cannot hold null. PHP's `setContext` also accepts null, and after `setContext(null)` `hasContext()` is true while `getContext()` is null; the model's map of contexts has no such entry.
- Session storage and concurrent requests are left out. The session is one `map<string, Context>` owned by the application object.
- `Page`: the id is modelled as a string and admin and liked as booleans. PHP leaves them untyped.
