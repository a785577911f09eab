/**
 * The application root (app/page.tsx): it reads the remembered login from
 * localStorage once, then shows a spinner, the login page or the dashboard
 * that fits the user's role. It calls localStorage itself, not the
 * `storage` helper.
 */
module HomePage {
  import opened Wrappers
  import opened JsValue
  import ClientStorage

  /** What the root renders. */
  datatype Screen = Spinner | LoginScreen | SupervisorDashboard | AgentDashboard

  const SupervisorRole := "SUPERVISOR"
  const AdminRole := "ADMIN"

  /** Roles that get the supervisor dashboard. */
  predicate SeesSupervision(role: Option<string>) {
    role == Some(SupervisorRole) || role == Some(AdminRole)
  }

  /** The startup check `token && userRole` on the two getItem results: both are stored and neither is empty. */
  predicate Remembered(items: map<string, string>)
    ensures Remembered(items) <==>
      && Truthy(ClientStorage.ItemValue(ClientStorage.Lookup(items, ClientStorage.TokenKey)))
      && Truthy(ClientStorage.ItemValue(ClientStorage.Lookup(items, ClientStorage.RoleKey)))
  {
    && ClientStorage.TokenKey in items && items[ClientStorage.TokenKey] != ""
    && ClientStorage.RoleKey in items && items[ClientStorage.RoleKey] != ""
  }

  /** Which screen the root renders: exactly one of the four, each for exactly its case. */
  function Route(loading: bool, isAuthenticated: bool, role: Option<string>): (s: Screen)
    ensures s == Spinner <==> loading
    ensures s == LoginScreen <==> !loading && !isAuthenticated
    ensures s == SupervisorDashboard <==> !loading && isAuthenticated && SeesSupervision(role)
    ensures s == AgentDashboard <==> !loading && isAuthenticated && !SeesSupervision(role)
  {
    if loading then Spinner
    else if !isAuthenticated then LoginScreen
    else if role == Some(SupervisorRole) || role == Some(AdminRole) then SupervisorDashboard
    else AgentDashboard
  }

  /** After logging out the remembered login is gone, whatever else was stored. */
  lemma LogoutForgets(items: map<string, string>)
    ensures !Remembered(items - {ClientStorage.TokenKey, ClientStorage.RoleKey})
  {
  }

  /** The `Home` component's state. */
  class Home {
    var isAuthenticated: bool
    var role: Option<string>
    var loading: bool

    constructor()
      ensures !isAuthenticated && role == None && loading
      ensures Route(loading, isAuthenticated, role) == Spinner
    {
      isAuthenticated, role, loading := false, None, true;
    }

    /**
     * The mount effect: a remembered login signs the user in with the stored
     * role; loading ends either way.
     */
    method StartupEffect(store: ClientStorage.Storage)
      modifies this
      ensures !loading
      ensures Remembered(store.items) ==> isAuthenticated && role == Some(store.items[ClientStorage.RoleKey])
      ensures !Remembered(store.items) ==> isAuthenticated == old(isAuthenticated) && role == old(role)
    {
      var token := store.GetItem(ClientStorage.TokenKey);
      var userRole := store.GetItem(ClientStorage.RoleKey);
      if token.Some? && token.value != "" && userRole.Some? && userRole.value != "" {
        isAuthenticated := true;
        role := Some(userRole.value);
      }
      loading := false;
    }

    /** handleLoginSuccess: the dashboard for the new role is shown. */
    method LoginSucceeded(newRole: string)
      modifies this
      ensures isAuthenticated && role == Some(newRole) && loading == old(loading)
      ensures !loading ==> Route(loading, isAuthenticated, role)
                           == if SeesSupervision(Some(newRole)) then SupervisorDashboard else AgentDashboard
    {
      role := Some(newRole);
      isAuthenticated := true;
    }

    /**
     * handleLogout: both stored keys go, nothing else in localStorage
     * changes, and the login page is shown. The API client's token is left
     * as it was.
     */
    method Logout(store: ClientStorage.Storage)
      modifies this, store
      ensures store.items == old(store.items) - {ClientStorage.TokenKey, ClientStorage.RoleKey}
      ensures !isAuthenticated && role == None && loading == old(loading)
      ensures !loading ==> Route(loading, isAuthenticated, role) == LoginScreen
    {
      store.RemoveItem(ClientStorage.TokenKey);
      store.RemoveItem(ClientStorage.RoleKey);
      isAuthenticated := false;
      role := None;
    }
  }

  /** A first start with a remembered supervisor lands on the supervisor dashboard. */
  method RememberedSupervisorStartsOnDashboard(token: string) returns (screen: Screen)
    requires token != ""
    ensures screen == SupervisorDashboard
  {
    var store := new ClientStorage.Storage(true, map[ClientStorage.TokenKey := token, ClientStorage.RoleKey := SupervisorRole]);
    var home := new Home();
    home.StartupEffect(store);
    screen := Route(home.loading, home.isAuthenticated, home.role);
  }

  /** Logging out and starting again shows the login page. */
  method LogoutThenRestartShowsLogin(items: map<string, string>, newRole: string) returns (screen: Screen)
    ensures screen == LoginScreen
  {
    var store := new ClientStorage.Storage(true, items);
    var home := new Home();
    home.StartupEffect(store);
    home.LoginSucceeded(newRole);
    home.Logout(store);
    LogoutForgets(items);
    var restarted := new Home();
    restarted.StartupEffect(store);
    screen := Route(restarted.loading, restarted.isAuthenticated, restarted.role);
  }
}
