/** The authentication service behind the auth context: the mapping of a login answer, and the
    reads of the stored session (`authToken` and the `userData` document). */
module AuthServiceModel {
  import opened Wrappers
  import opened JsonData
  import opened Session

  /** What `login` resolves to: the token (possibly undefined) and the user object. */
  datatype LoginResult = LoginResult(token: Option<Json>, user: Json)

  /** `{ id: response.id, username: response.username, role: response.role }`; properties
      that are undefined are left out, as `JSON.stringify` leaves them out. */
  function UserOf(response: Json): (u: Json)
    ensures u.JObj? && u.fields.Keys <= {"id", "username", "role"}
    ensures forall k :: k in {"id", "username", "role"} ==> Get(u, k) == Get(response, k)
  {
    var keep := map k | k in {"id", "username", "role"} && Get(response, k).Some? :: Get(response, k).value;
    JObj(keep)
  }

  /** `login(credentials)` given the repository's answer: a failure is rethrown; reading the
      token of a `null` answer throws a TypeError. */
  function Login(reply: Result<Json>): (r: Result<LoginResult>)
    ensures reply.Err? ==> r == Err(reply.message)
    ensures reply.Ok? && reply.value.JNull? ==> r.Err?
    ensures reply.Ok? && !reply.value.JNull? ==>
              r == Ok(LoginResult(Get(reply.value, "token"), UserOf(reply.value)))
  {
    match reply
    case Err(m) => Err(m)
    case Ok(JNull) => Err("Cannot read properties of null (reading 'token')")
    case Ok(response) => Ok(LoginResult(Get(response, "token"), UserOf(response)))
  }

  /** `getCurrentUser()`: the stored user document, or `null` when nothing truthy is stored or
      it does not parse. */
  function GetCurrentUser(st: Storage): (u: Json)
    ensures !ItemTruthy(GetItem(st, "userData")) ==> u == JNull
    ensures GetItem(st, "userData").Some? && GetItem(st, "userData").value.Text? ==> u == JNull
    ensures GetItem(st, "userData").Some? && GetItem(st, "userData").value.Doc? ==> u == st["userData"].value
  {
    var userData := GetItem(st, "userData");
    if !ItemTruthy(userData) then JNull
    else match ParseItem(userData)
         case Ok(v) => v
         case Err(_) => JNull
  }

  /** `isAuthenticated()`: a truthy `authToken` is stored. */
  predicate IsAuthenticated(st: Storage) {
    ItemTruthy(GetItem(st, "authToken"))
  }

  /** `isAdmin()`: `getCurrentUser()?.role === 'ADMIN'`. */
  predicate IsAdmin(st: Storage) {
    Get(GetCurrentUser(st), "role") == Some(JStr("ADMIN"))
  }

  /** `getToken()`: the stored token or `null`. */
  function GetToken(st: Storage): (t: Option<Item>)
    ensures t.Some? <==> "authToken" in st
    ensures t.Some? ==> t.value == st["authToken"]
  {
    GetItem(st, "authToken")
  }

  /** Being an admin needs a stored user document whose role is the text "ADMIN"; it does not
      need a token. */
  lemma AdminMeansStoredAdminDocument(st: Storage)
    ensures IsAdmin(st) <==>
              "userData" in st && st["userData"].Doc? && st["userData"].value.JObj?
              && "role" in st["userData"].value.fields && st["userData"].value.fields["role"] == JStr("ADMIN")
  {
  }

  /** The user object of a login answer keeps exactly the answer's id, username and role. */
  lemma LoginUserFields(response: Json)
    requires response.JObj?
    ensures Login(Ok(response)).Ok?
    ensures var u := Login(Ok(response)).value.user;
            Get(u, "role") == Get(response, "role") && Get(u, "token").None?
  {
  }
}

/** The older authentication service that keeps the session in three plain keys `token`,
    `username` and `role`. */
module LegacyAuthService {
  import opened Wrappers
  import opened JsonData
  import opened Session

  /** What `getCurrentUser` returns: the three stored texts. */
  datatype StoredUser = StoredUser(token: Item, username: Item, role: Item)

  const SessionKeys: set<string> := {"token", "username", "role"}

  class LegacyAuth {
    /** The browser storage this service reads and writes. */
    var storage: Storage

    constructor (st: Storage)
      ensures storage == st
    {
      storage := st;
    }

    /** `login(credentials)`: with a truthy token in the answer, the three keys are written
        (`String` of each, so a missing username is stored as "undefined"); the answer is
        returned; a failure is rethrown with the prefix "Login failed: ". */
    method Login(reply: Result<Json>) returns (r: Result<Json>)
      modifies this`storage
      ensures reply.Err? ==> r == Err("Login failed: " + reply.message) && storage == old(storage)
      ensures reply.Ok? && reply.value.JNull? ==> r.Err? && storage == old(storage)
      ensures reply.Ok? && !reply.value.JNull? && !OptTruthy(Get(reply.value, "token")) ==>
                r == Ok(reply.value) && storage == old(storage)
      ensures reply.Ok? && OptTruthy(Get(reply.value, "token")) ==>
                r == Ok(reply.value)
                && storage == old(storage)["token" := TextItem(Get(reply.value, "token"))]
                                          ["username" := TextItem(Get(reply.value, "username"))]
                                          ["role" := TextItem(Get(reply.value, "role"))]
    {
      match reply {
        case Err(m) =>
          r := Err("Login failed: " + m);
        case Ok(response) =>
          if response.JNull? {
            r := Err("Login failed: Cannot read properties of null (reading 'token')");
            return;
          }
          var token := Get(response, "token");
          if OptTruthy(token) {
            storage := storage["token" := TextItem(token)];
            storage := storage["username" := TextItem(Get(response, "username"))];
            storage := storage["role" := TextItem(Get(response, "role"))];
          }
          r := Ok(response);
      }
    }

    /** `register(userData)`: the answer, or the failure with the prefix "Registration failed: ". */
    method Register(reply: Result<Json>) returns (r: Result<Json>)
      ensures reply.Ok? ==> r == reply
      ensures reply.Err? ==> r == Err("Registration failed: " + reply.message)
    {
      r := match reply
           case Ok(v) => Ok(v)
           case Err(m) => Err("Registration failed: " + m);
    }

    /** `logout()`: exactly the three session keys are removed. */
    method Logout()
      modifies this`storage
      ensures storage == old(storage) - SessionKeys
    {
      storage := storage - {"token"};
      storage := storage - {"username"};
      storage := storage - {"role"};
      assert storage == old(storage) - SessionKeys;
    }

    /** `getCurrentUser()`: the three texts when all are truthy, otherwise `null`. */
    function GetCurrentUser(): (u: Option<StoredUser>)
      reads this
      ensures u.Some? <==> ItemTruthy(GetItem(storage, "token")) && ItemTruthy(GetItem(storage, "username"))
                           && ItemTruthy(GetItem(storage, "role"))
      ensures u.Some? ==> u.value == StoredUser(storage["token"], storage["username"], storage["role"])
    {
      var token := GetItem(storage, "token");
      var username := GetItem(storage, "username");
      var role := GetItem(storage, "role");
      if ItemTruthy(token) && ItemTruthy(username) && ItemTruthy(role) then
        Some(StoredUser(token.value, username.value, role.value))
      else None
    }

    /** `isAuthenticated()`: a truthy token is stored. */
    predicate IsAuthenticated()
      reads this
    {
      ItemTruthy(GetItem(storage, "token"))
    }

    /** `isAdmin()`: the stored role is the text "ADMIN". */
    predicate IsAdmin()
      reads this
    {
      GetItem(storage, "role") == Some(Text("ADMIN"))
    }
  }

  /** A login whose answer carries a non-empty token, username and role is read back by
      `getCurrentUser` as those three texts; logging out then reads back nothing. */
  method LoginThenLogout(st: Storage, token: string, username: string, role: string)
      returns (afterLogin: Option<StoredUser>, afterLogout: Option<StoredUser>, stillSignedIn: bool)
    requires token != "" && username != "" && role != ""
    ensures afterLogin == Some(StoredUser(Text(token), Text(username), Text(role)))
    ensures afterLogout.None? && !stillSignedIn
  {
    var service := new LegacyAuth(st);
    var answer := JObj(map["token" := JStr(token), "username" := JStr(username), "role" := JStr(role)]);
    var r := service.Login(Ok(answer));
    afterLogin := service.GetCurrentUser();
    service.Logout();
    afterLogout := service.GetCurrentUser();
    stillSignedIn := service.IsAuthenticated();
  }

  /** An answer with a token but no username still signs in: the username is stored as the
      text "undefined" and read back as such. */
  method LoginWithoutUsername(st: Storage, token: string) returns (afterLogin: Option<StoredUser>)
    requires token != ""
    ensures afterLogin.Some? && afterLogin.value.username == Text("undefined") && afterLogin.value.role == Text("undefined")
  {
    var service := new LegacyAuth(st);
    var r := service.Login(Ok(JObj(map["token" := JStr(token)])));
    afterLogin := service.GetCurrentUser();
  }
}

/** The auth context: the signed-in user and loading flag, restored from storage on mount,
    set by login and cleared by logout. */
module AuthContextModel {
  import opened Wrappers
  import opened JsonData
  import opened Session
  import AuthServiceModel

  const OutsideProvider := "useAuth must be used within an AuthProvider"

  /** The members of the context value the provider offers. */
  const ContextMembers: set<string> :=
    {"user", "loading", "login", "logout", "isAuthenticated", "getCurrentUser", "isAdmin", "getToken"}

  /** The context offers `login` but no `register`. */
  lemma OffersNoRegister()
    ensures "login" in ContextMembers && "register" !in ContextMembers
  {
  }

  /** `useAuth()`: the nearest provider's value, or an error outside any provider. */
  function UseAuth<T>(context: Option<T>): (r: Result<T>)
    ensures context.None? <==> r == Err(OutsideProvider)
    ensures context.Some? ==> r == Ok(context.value)
  {
    if context.None? then Err(OutsideProvider) else Ok(context.value)
  }

  class AuthProvider {
    /** The signed-in user; `JNull` when nobody is. */
    var user: Json
    var loading: bool
    var storage: Storage

    constructor (st: Storage)
      ensures user == JNull && loading && storage == st
    {
      user, loading, storage := JNull, true, st;
    }

    /** `isAuthenticated`: the user is truthy. */
    predicate IsAuthenticated()
      reads this
    {
      JsonTruthy(user)
    }

    /** The mount effect: with both `authToken` and `userData` truthy, the parsed document
        becomes the user; a `userData` text that does not parse throws out of the effect before
        loading is cleared. */
    method Mount() returns (threw: bool)
      modifies this`user, this`loading
      ensures threw <==> ItemTruthy(GetItem(storage, "authToken")) && ItemTruthy(GetItem(storage, "userData"))
                         && storage["userData"].Text?
      ensures threw ==> user == old(user) && loading == old(loading)
      ensures !threw ==> !loading
      ensures !threw && ItemTruthy(GetItem(storage, "authToken")) && ItemTruthy(GetItem(storage, "userData")) ==>
                user == storage["userData"].value
      ensures !(ItemTruthy(GetItem(storage, "authToken")) && ItemTruthy(GetItem(storage, "userData"))) ==>
                user == old(user)
    {
      threw := false;
      var token := GetItem(storage, "authToken");
      var userData := GetItem(storage, "userData");
      if ItemTruthy(token) && ItemTruthy(userData) {
        match ParseItem(userData) {
          case Ok(v) => user := v;
          case Err(_) =>
            threw := true;
            return;
        }
      }
      loading := false;
    }

    /** `login(credentials)`: the token and the stringified user are stored and the user is
        set; a failure is rethrown unchanged; loading is false afterwards either way. */
    method Login(reply: Result<Json>) returns (r: Result<bool>)
      modifies this`user, this`loading, this`storage
      ensures !loading
      ensures AuthServiceModel.Login(reply).Err? ==>
                r == Err(AuthServiceModel.Login(reply).message) && user == old(user) && storage == old(storage)
      ensures AuthServiceModel.Login(reply).Ok? ==>
                var res := AuthServiceModel.Login(reply).value;
                r == Ok(true) && user == res.user
                && storage == old(storage)["authToken" := TextItem(res.token)]["userData" := Doc(res.user)]
    {
      loading := true;
      var mapped := AuthServiceModel.Login(reply);
      match mapped {
        case Err(m) =>
          r := Err(m);
        case Ok(res) =>
          storage := storage["authToken" := TextItem(res.token)];
          storage := storage["userData" := Doc(res.user)];
          user := res.user;
          r := Ok(true);
      }
      loading := false;
    }

    /** `logout()`: the service offers no `logout`, so nothing is called; both keys are
        removed and the user is cleared. */
    method Logout()
      modifies this`user, this`storage
      ensures storage == old(storage) - {"authToken", "userData"} && user == JNull
    {
      storage := storage - {"authToken"};
      storage := storage - {"userData"};
      assert storage == old(storage) - {"authToken", "userData"};
      user := JNull;
    }
  }

  /** A successful login survives a reload: a new provider mounted on the storage it leaves
      restores the same user, and the service then reports a token. The one exception is a
      token whose text is empty, which is stored but reads as absent. */
  method LoginSurvivesReload(st: Storage, answer: Json) returns (restored: Json, signedIn: bool, serviceSignedIn: bool)
    requires answer.JObj? && StringOfOpt(Get(answer, "token")) != ""
    ensures restored == AuthServiceModel.UserOf(answer) && signedIn && serviceSignedIn
  {
    var first := new AuthProvider(st);
    var r := first.Login(Ok(answer));
    var second := new AuthProvider(first.storage);
    var threw := second.Mount();
    restored, signedIn := second.user, second.IsAuthenticated();
    serviceSignedIn := AuthServiceModel.IsAuthenticated(second.storage);
  }

  /** An answer without a token still leaves a signed-in session: the token is stored as the
      text "undefined", which is truthy. */
  method LoginWithoutToken(st: Storage) returns (serviceSignedIn: bool)
    ensures serviceSignedIn
  {
    var p := new AuthProvider(st);
    var r := p.Login(Ok(JObj(map["username" := JStr("budi")])));
    serviceSignedIn := AuthServiceModel.IsAuthenticated(p.storage);
  }

  /** After logout nobody is signed in, in the context or in the service, whatever was stored. */
  method LogoutSignsOut(st: Storage) returns (signedIn: bool, serviceSignedIn: bool, admin: bool)
    ensures !signedIn && !serviceSignedIn && !admin
  {
    var p := new AuthProvider(st);
    p.Logout();
    signedIn := p.IsAuthenticated();
    serviceSignedIn := AuthServiceModel.IsAuthenticated(p.storage);
    admin := AuthServiceModel.IsAdmin(p.storage);
  }
}

/** The route guards: the root redirect and the role-protected routes. */
module RoutesModel {
  import opened Wrappers
  import opened JsonData
  import opened Session

  /** What a guard renders: the loading text, a redirect, or the protected page. */
  datatype Screen = LoadingScreen | Navigate(path: string) | Children

  /** `RootRedirect`. */
  function RootRedirect(isAuthenticated: bool, loading: bool): (s: Screen)
    ensures loading <==> s == LoadingScreen
    ensures !loading ==> s == Navigate(if isAuthenticated then "/dashboard" else "/login")
  {
    if loading then LoadingScreen
    else if isAuthenticated then Navigate("/dashboard") else Navigate("/login")
  }

  /** The role stored in the `userData` document, if that document parses. */
  function StoredRole(st: Storage): Result<Option<Json>> {
    match ParseItem(GetItem(st, "userData"))
    case Ok(doc) => Ok(Get(doc, "role"))
    case Err(m) => Err(m)
  }

  /** `RoleProtectedRoute`: loading first, then sign-in, then the stored role, which must be one
      of `allowedRoles` (compared as text; a role that is absent or falsy goes to the dashboard,
      a document that does not parse to the login page). */
  function RoleProtected(allowedRoles: seq<string>, isAuthenticated: bool, loading: bool, st: Storage): (s: Screen)
    ensures loading ==> s == LoadingScreen
    ensures !loading && !isAuthenticated ==> s == Navigate("/login")
    ensures s == Children <==>
              !loading && isAuthenticated && StoredRole(st).Ok? && StoredRole(st).value.Some?
              && StoredRole(st).value.value.JStr? && StoredRole(st).value.value.s in allowedRoles
              && StoredRole(st).value.value.s != ""
    ensures !loading && isAuthenticated && StoredRole(st).Err? ==> s == Navigate("/login")
    ensures s != Children && s != LoadingScreen && !(!loading && !isAuthenticated) && StoredRole(st).Ok? ==>
              s == Navigate("/dashboard")
  {
    if loading then LoadingScreen
    else if !isAuthenticated then Navigate("/login")
    else match StoredRole(st)
         case Err(_) => Navigate("/login")
         case Ok(role) =>
           if !OptTruthy(role) then Navigate("/dashboard")
           else if role.value.JStr? && role.value.s in allowedRoles then Children
           else Navigate("/dashboard")
  }

  function AdminRoute(isAuthenticated: bool, loading: bool, st: Storage): Screen {
    RoleProtected(["ADMIN"], isAuthenticated, loading, st)
  }

  function UserRoute(isAuthenticated: bool, loading: bool, st: Storage): Screen {
    RoleProtected(["USER"], isAuthenticated, loading, st)
  }

  /** No session is admitted to both the admin pages and the user pages. */
  lemma AdminAndUserDisjoint(isAuthenticated: bool, loading: bool, st: Storage)
    ensures !(AdminRoute(isAuthenticated, loading, st) == Children && UserRoute(isAuthenticated, loading, st) == Children)
  {
  }

  /** A signed-in session with no stored user document goes to the dashboard:
      `JSON.parse(null)` is `null`, whose role is undefined. */
  lemma MissingDocumentGoesToDashboard(allowedRoles: seq<string>, st: Storage)
    requires "userData" !in st
    ensures RoleProtected(allowedRoles, true, false, st) == Navigate("/dashboard")
  {
  }
}
