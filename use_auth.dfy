/**
 * The `useAuth` hook (hooks/use-auth.ts): remembered login at mount, login
 * through the API client, and logout. Unlike the root page it goes through
 * the `storage` helper, trusts a token without a role, and never removes the
 * stored role.
 */
module Auth {
  import opened Wrappers
  import opened JsValue
  import opened Api
  import ClientStorage
  import HomePage
  import Text

  const DefaultRole := "AGENT"

  /**
   * Why `login` rejects: the request rejected (with an ApiError, or with the
   * bare SyntaxError of an unparsable JSON answer), or the response was null
   * or undefined, so reading its fields threw.
   */
  datatype LoginFailure = RequestFailed(rejection: Rejection) | NoResponseObject

  /** What `login` resolves with. */
  datatype Credentials = Credentials(token: Value, role: Value)

  /**
   * `response.access_token || response.token` and `response.role || "AGENT"`;
   * None when the property reads throw.
   */
  function CredentialsOf(response: Value): (r: Option<Credentials>)
    ensures r.None? <==> response == Undefined || response == Null
    ensures r.Some? ==>
      (Truthy(r.value.token) <==> Truthy(GetOptional(response, "access_token")) || Truthy(GetOptional(response, "token")))
    ensures r.Some? && Truthy(GetOptional(response, "access_token")) ==> r.value.token == GetOptional(response, "access_token")
    ensures r.Some? && !Truthy(GetOptional(response, "access_token")) ==> r.value.token == GetOptional(response, "token")
    ensures r.Some? ==> Truthy(r.value.role)
    ensures r.Some? && !Truthy(GetOptional(response, "role")) ==> r.value.role == Str(DefaultRole)
    ensures r.Some? && Truthy(GetOptional(response, "role")) ==> r.value.role == GetOptional(response, "role")
  {
    if response == Undefined || response == Null then None
    else
      var token := Or(GetOptional(response, "access_token"), GetOptional(response, "token"));
      OrTruthy(GetOptional(response, "access_token"), GetOptional(response, "token"));
      Some(Credentials(token, Or(GetOptional(response, "role"), Str(DefaultRole))))
  }

  /** The hook's startup check `if (token)` on what the helper reads. */
  predicate HookRemembers(hasWindow: bool, items: map<string, string>)
    ensures HookRemembers(hasWindow, items) <==>
      Truthy(ClientStorage.ItemValue(ClientStorage.Read(hasWindow, items, ClientStorage.TokenKey)))
  {
    var t := ClientStorage.Read(hasWindow, items, ClientStorage.TokenKey);
    t.Some? && t.value != ""
  }

  /** The role the hook adopts at startup: the stored one, or null. */
  function StoredRole(hasWindow: bool, items: map<string, string>): (role: Value)
    ensures role.Str? <==> hasWindow && ClientStorage.RoleKey in items
    ensures role.Str? ==> role.s == items[ClientStorage.RoleKey]
    ensures !role.Str? ==> role == Null
  {
    match ClientStorage.Read(hasWindow, items, ClientStorage.RoleKey)
    case Some(r) => Str(r)
    case None => Null
  }

  /** Whenever the root page finds a remembered login in the browser, so does the hook. */
  lemma PageRememberedImpliesHook(items: map<string, string>)
    ensures HomePage.Remembered(items) ==> HookRemembers(true, items)
  {
  }

  /** The converse fails: a token without a role signs the hook in but not the page. */
  lemma HookAndPageDisagree(token: string)
    requires token != ""
    ensures HookRemembers(true, map[ClientStorage.TokenKey := token])
    ensures !HomePage.Remembered(map[ClientStorage.TokenKey := token])
    ensures StoredRole(true, map[ClientStorage.TokenKey := token]) == Null
  {
    assert ClientStorage.RoleKey !in map[ClientStorage.TokenKey := token];
  }

  /**
   * The hook's logout (clearToken twice) is one clearToken: the token is
   * gone, so the next start is signed out, but the stored role stays.
   */
  lemma LogoutKeepsRole(hasWindow: bool, items: map<string, string>)
    ensures var once := ClientStorage.Apply(hasWindow, items, ClientStorage.RemoveToken);
      && ClientStorage.Apply(hasWindow, once, ClientStorage.RemoveToken) == once
      && (hasWindow ==> !HookRemembers(hasWindow, once))
      && ClientStorage.Lookup(once, ClientStorage.RoleKey) == ClientStorage.Lookup(items, ClientStorage.RoleKey)
  {
    ClientStorage.ClearIsIdempotent(hasWindow, items);
    ClientStorage.OtherKeysUnchanged(hasWindow, items, ClientStorage.RemoveToken, ClientStorage.RoleKey);
  }

  /**
   * A login response with neither access_token nor token stores the string
   * "undefined", which the next start takes for a token.
   */
  lemma TokenlessLoginIsRemembered(fields: map<string, Value>, items: map<string, string>)
    requires "access_token" !in fields && "token" !in fields
    ensures CredentialsOf(Obj(fields)).Some?
    ensures CredentialsOf(Obj(fields)).value.token == Undefined
    ensures var stored := ClientStorage.Apply(true, items, ClientStorage.WriteToken(Undefined));
      HookRemembers(true, stored) && stored[ClientStorage.TokenKey] == "undefined"
  {
  }

  /** The state the hook keeps. */
  class AuthHook {
    var isAuthenticated: bool
    var role: Value
    var loading: bool

    constructor()
      ensures !isAuthenticated && role == Null && loading
    {
      isAuthenticated, role, loading := false, Null, true;
    }

    /** The mount effect: a stored token goes to the API client and signs in, with whatever role is stored. */
    method StartupEffect(store: ClientStorage.Storage, client: ApiClient)
      modifies this, client
      ensures !loading
      ensures HookRemembers(store.hasWindow, store.items) ==>
        && isAuthenticated
        && client.token == Str(ClientStorage.Read(store.hasWindow, store.items, ClientStorage.TokenKey).value)
        && role == StoredRole(store.hasWindow, store.items)
      ensures !HookRemembers(store.hasWindow, store.items) ==>
        isAuthenticated == old(isAuthenticated) && role == old(role) && client.token == old(client.token)
    {
      var token := store.GetToken();
      var userRole := store.GetRole();
      if token.Some? && token.value != "" {
        client.SetToken(Str(token.value));
        isAuthenticated := true;
        role := if userRole.Some? then Str(userRole.value) else Null;
      }
      loading := false;
    }

    /**
     * login: on a response, the credentials it carries go to the API client
     * and to storage and sign in. A failed request or an unreadable response
     * rejects and changes nothing (apart from the client's own 401 rule).
     */
    method Login(client: ApiClient, store: ClientStorage.Storage, reply: Reply, parse: Parser)
      returns (r: Result<Credentials, LoginFailure>)
      requires client != store as object
      modifies this, client, store
      ensures r == match RequestOutcome(reply, parse)
                   case Err(e) => Err(RequestFailed(e))
                   case Ok(v) => match CredentialsOf(v)
                     case None => Err(NoResponseObject)
                     case Some(c) => Ok(c)
      ensures r.Err? ==> && isAuthenticated == old(isAuthenticated) && role == old(role)
                         && store.items == old(store.items)
                         && client.token == (if IsUnauthorized(reply) then Null else old(client.token))
      ensures r.Ok? ==> && isAuthenticated && role == r.value.role && client.token == r.value.token
                        && store.items == ClientStorage.Apply(store.hasWindow,
                                            ClientStorage.Apply(store.hasWindow, old(store.items), ClientStorage.WriteToken(r.value.token)),
                                            ClientStorage.WriteRole(r.value.role))
      ensures loading == old(loading)
    {
      var response, sent := client.Login(reply, parse);
      match response
      case Err(e) =>
        r := Err(RequestFailed(e));
      case Ok(v) =>
        var c := CredentialsOf(v);
        if c.None? {
          r := Err(NoResponseObject);
        } else {
          client.SetToken(c.value.token);
          store.SetToken(c.value.token);
          store.SetRole(c.value.role);
          isAuthenticated := true;
          role := c.value.role;
          r := Ok(c.value);
        }
    }

    /** logout: the client and the stored token are cleared; the stored role is not. */
    method Logout(client: ApiClient, store: ClientStorage.Storage)
      requires client != store as object
      modifies this, client, store
      ensures client.token == Null
      ensures store.items == ClientStorage.Apply(store.hasWindow, old(store.items), ClientStorage.RemoveToken)
      ensures !isAuthenticated && role == Null && loading == old(loading)
    {
      client.ClearToken();
      store.ClearToken();
      store.ClearToken();
      isAuthenticated := false;
      role := Null;
    }
  }

  /**
   * A login whose JSON answer lacks both token fields is taken at face value:
   * after a reload the hook signs in with the token "undefined" and the role AGENT.
   */
  method TokenlessLoginSurvivesReload() returns (signedIn: bool, token: Value, role: Value)
    ensures signedIn && token == Str("undefined") && role == Str(DefaultRole)
  {
    var client := new ApiClient();
    var store := new ClientStorage.Storage(true, map[]);
    var hook := new AuthHook();
    var parse: Parser := body => Parsed(Obj(map[]));
    var reply := Responded(Response(200, "application/json", "{}"));
    assert IsJson("application/json") by {
      assert Text.StartsWith("application/json", "application/json");
    }
    assert RequestOutcome(reply, parse) == Ok(Obj(map[]));
    var result := hook.Login(client, store, reply, parse);
    var reloadedClient := new ApiClient();
    var reloaded := new AuthHook();
    reloaded.StartupEffect(store, reloadedClient);
    signedIn, token, role := reloaded.isAuthenticated, reloadedClient.token, reloaded.role;
  }
}
