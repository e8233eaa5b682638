/** The auth and menu endpoints shared by the fetch-based and the axios-based API clients: for
    each call, its HTTP verb, its path under the base URL and the JSON body it sends. */
module ApiEndpoints {
  import opened Wrappers
  import opened Text
  import opened Js
  import opened JsonData
  import opened CheckoutApi

  datatype Endpoint =
    | Login(credentials: Json)
    | Register(user: Json)
    | ActiveMenus
    | AllMenus
    | MenuById(id: Scalar)
    | CreateMenu(menu: Json)
    | UpdateMenu(id: Scalar, menu: Json)
    | DeleteMenu(id: Scalar)

  /** What a call puts on the wire, apart from the base URL and the headers. */
  datatype Route = Route(verb: Verb, path: string, body: Option<Json>)

  const AdminMenus := "/menus/admin"

  /** `'HTTP error! status: ' + status`, the fetch clients' message for a refused answer. */
  function HttpError(status: int): (m: string)
    ensures StartsWith(m, "HTTP error! status: ") && m != ""
  {
    var p := "HTTP error! status: ";
    assert (p + IntToString(status))[..|p|] == p;
    p + IntToString(status)
  }

  function RouteOf(e: Endpoint): (r: Route)
    ensures r.body.Some? <==> e.Login? || e.Register? || e.CreateMenu? || e.UpdateMenu?
    ensures r.verb == GET <==> e.ActiveMenus? || e.AllMenus? || e.MenuById?
    ensures r.verb == POST <==> e.Login? || e.Register? || e.CreateMenu?
    ensures r.verb == PUT <==> e.UpdateMenu?
    ensures r.verb == DELETE <==> e.DeleteMenu?
    ensures !(e.Login? || e.Register?) ==> StartsWith(r.path, "/menus")
  {
    match e
    case Login(c) => Route(POST, "/auth/login", Some(c))
    case Register(u) => Route(POST, "/auth/register", Some(u))
    case ActiveMenus => Route(GET, "/menus", None)
    case AllMenus => Route(GET, AdminMenus, None)
    case MenuById(id) => Route(GET, AdminMenus + "/" + ToText(id), None)
    case CreateMenu(m) => Route(POST, AdminMenus, Some(m))
    case UpdateMenu(id, m) => Route(PUT, AdminMenus + "/" + ToText(id), Some(m))
    case DeleteMenu(id) => Route(DELETE, AdminMenus + "/" + ToText(id), None)
  }

  /** A menu's own path names its id after the admin collection. */
  lemma MenuPathNamesId(id: Scalar)
    ensures var p := RouteOf(MenuById(id)).path;
            StartsWith(p, AdminMenus + "/") && p[|AdminMenus| + 1..] == ToText(id)
            && p == RouteOf(UpdateMenu(id, JNull)).path && p == RouteOf(DeleteMenu(id)).path
  {
    var p := AdminMenus + "/" + ToText(id);
    assert p[..|AdminMenus| + 1] == AdminMenus + "/";
  }

  /** The verb and path tell the calls apart: two calls that produce the same verb and path are
      the same kind of call, with ids of the same text. */
  lemma RouteIdentifiesCall(a: Endpoint, b: Endpoint)
    requires RouteOf(a).verb == RouteOf(b).verb && RouteOf(a).path == RouteOf(b).path
    ensures a.Login? <==> b.Login?
    ensures a.Register? <==> b.Register?
    ensures a.ActiveMenus? <==> b.ActiveMenus?
    ensures a.AllMenus? <==> b.AllMenus?
    ensures a.CreateMenu? <==> b.CreateMenu?
    ensures a.MenuById? <==> b.MenuById?
    ensures a.UpdateMenu? <==> b.UpdateMenu?
    ensures a.DeleteMenu? <==> b.DeleteMenu?
    ensures (a.MenuById? || a.UpdateMenu? || a.DeleteMenu?) ==> ToText(a.id) == ToText(b.id)
  {
    if a.Login? || a.Register? {
      if b.Register? || b.Login? {
        assert a.Login? ==> RouteOf(a).path[6] == 'l';
        assert b.Register? ==> RouteOf(b).path[6] == 'r';
      }
    } else if a.ActiveMenus? {
      assert |RouteOf(a).path| == 6;
    } else if a.AllMenus? || a.CreateMenu? {
      assert |RouteOf(a).path| == |AdminMenus|;
    } else {
      assert |RouteOf(a).path| > |AdminMenus|;
      if b.MenuById? || b.UpdateMenu? || b.DeleteMenu? {
        MenuPathNamesId(a.id);
        MenuPathNamesId(b.id);
      }
    }
  }
}
