/**
 Who gets to see which page: `authenticate` in front of every route, then the group's guard.
 Redirects are followed with GET.
 */
module Guards {
  datatype Guard = Anonymous | Protected

  datatype Route = Route(verb: string, path: string, guard: Guard)

  /** What one session and user lookup comes to; a failing call ends in the error page. */
  datatype Answer = NoSession | NoUser | LoggedIn | Failing

  /** `attached` says whether the request carries a user when the handler runs. */
  datatype Response = Page(attached: bool, noStore: bool) | ErrorPage | Redirect(path: string)

  const HOME := "/"
  const LOGIN := "/login"
  const SEARCH := "/search"

  const ANONYMOUS_ROUTES := [
    ("GET", "/"), ("GET", "/login"), ("POST", "/login"), ("GET", "/signup"), ("POST", "/signup"),
    ("GET", "/activate/{user_id}"), ("POST", "/activate/{user_id}"), ("GET", "/account/activated"),
    ("GET", "/password/forgot"), ("POST", "/password/forgot"), ("GET", "/password/forgot/confirmation"),
    ("GET", "/password/reset/{user_id}"), ("POST", "/password/reset/{user_id}"), ("GET", "/password/reset/confirmation")]

  const PROTECTED_ROUTES := [
    ("GET", "/search"), ("POST", "/search"), ("GET", "/logout"), ("GET", "/user/update"), ("POST", "/user/update"),
    ("GET", "/user/create/address"), ("POST", "/user/create/address"), ("GET", "/user/update/done"),
    ("GET", "/basket"), ("POST", "/basket"), ("POST", "/basket/add-item/{product_id}"),
    ("POST", "/basket/remove-item/{product_id}"), ("GET", "/search/add"), ("GET", "/checkout"), ("POST", "/checkout"),
    ("POST", "/payphone/create-payment"), ("GET", "/payphone/confirm"), ("GET", "/payphone/cancel"),
    ("GET", "/orders/confirm"), ("GET", "/orders/cancel"), ("GET", "/addresses/new"), ("POST", "/addresses/new"),
    ("GET", "/addresses/{address_id}"), ("POST", "/addresses/{address_id}"), ("GET", "/products/{product_id}"),
    ("GET", "/orders")]

  function Guarded(guard: Guard, entries: seq<(string, string)>): seq<Route> {
    seq(|entries|, i requires 0 <= i < |entries| => Route(entries[i].0, entries[i].1, guard))
  }

  function Table(): seq<Route> {
    Guarded(Anonymous, ANONYMOUS_ROUTES) + Guarded(Protected, PROTECTED_ROUTES)
  }

  /** Group by group: fourteen pages for strangers, from the landing page on, and twenty-six behind the login. */
  lemma TableByGroup(i: nat)
    requires i < 40
    ensures |Table()| == 40 && Table()[i].guard == (if i < 14 then Anonymous else Protected)
    ensures Table()[0] == Route("GET", "/", Anonymous) && Table()[1] == Route("GET", "/login", Anonymous)
    ensures Table()[14] == Route("GET", "/search", Protected) && Table()[39] == Route("GET", "/orders", Protected)
  {
  }

  /** The response as a function of the two lookups. */
  function Respond(guard: Guard, first: Answer, second: Answer): Response {
    match (first, guard)
    case (Failing, _) => ErrorPage
    case (LoggedIn, Anonymous) => Redirect(SEARCH)
    case (LoggedIn, Protected) => Page(true, true)
    case (_, Anonymous) => Page(false, false)
    case (_, Protected) =>
      match second
      case NoSession => Redirect(LOGIN)
      case NoUser => Redirect(HOME)
      case LoggedIn => Page(true, true)
      case Failing => ErrorPage
  }

  /** Whatever the lookups answer, a protected page is served with a user and uncached, an anonymous one without. */
  lemma GuardsHold(guard: Guard, first: Answer, second: Answer)
    requires Respond(guard, first, second).Page?
    ensures Respond(guard, first, second) == Page(guard.Protected?, guard.Protected?)
  {
  }

  /** The redirect targets, by their place in the table: the landing page, the login page and the search page. */
  const TARGETS := [0, 1, |ANONYMOUS_ROUTES|]

  lemma OneGetRoute(i: nat)
    requires i in TARGETS
    ensures i < |Table()| && Table()[i].verb == "GET"
    ensures forall other :: other in Table() && other.verb == "GET" && other.path == Table()[i].path ==> other == Table()[i]
  {
  }

  /** For every route and every answer that stays the same, a redirect leads in one hop to a route that serves its page. */
  lemma NoRedirectLoop(route: Route, answer: Answer) returns (target: Route)
    requires route in Table() && Respond(route.guard, answer, answer).Redirect?
    ensures target in Table() && target.verb == "GET" && target.path == Respond(route.guard, answer, answer).path
    ensures Respond(target.guard, answer, answer).Page?
    ensures forall other :: other in Table() && other.verb == "GET" && other.path == target.path ==> other == target
  {
    var i := match answer
      case NoSession => 1
      case NoUser => 0
      case _ => |ANONYMOUS_ROUTES|;
    OneGetRoute(i);
    target := Table()[i];
  }

  class Mux {
    var routes: seq<Route>

    /** Routes are registered group by group. */
    constructor ()
      ensures routes == Table() && |routes| == 40
      ensures forall i :: 0 <= i < 40 ==> routes[i].guard == if i < 14 then Anonymous else Protected
    {
      routes := [];
      new;
      Group(Anonymous, ANONYMOUS_ROUTES);
      Group(Protected, PROTECTED_ROUTES);
      forall i | 0 <= i < 40
        ensures |Table()| == 40 && Table()[i].guard == (if i < 14 then Anonymous else Protected)
      {
        TableByGroup(i);
      }
      TableByGroup(0);
    }

    method Group(guard: Guard, entries: seq<(string, string)>)
      modifies this
      ensures routes == old(routes) + Guarded(guard, entries)
    {
      for i := 0 to |entries|
        invariant routes == old(routes) + Guarded(guard, entries)[..i]
      {
        routes := routes + [Route(entries[i].0, entries[i].1, guard)];
      }
    }

    /** One request through `authenticate` and the guard; a second lookup happens only where the first left no user. */
    method Handle(guard: Guard, first: Answer, second: Answer) returns (r: Response)
      ensures r == Respond(guard, first, second)
      ensures r.Page? ==> r == Page(guard.Protected?, guard.Protected?)
      ensures r.ErrorPage? <==> first.Failing? || (guard.Protected? && !first.LoggedIn? && second.Failing?)
      ensures r == Redirect("/search") <==> guard.Anonymous? && first.LoggedIn?
      ensures r == Redirect("/login") <==> guard.Protected? && (first.NoSession? || first.NoUser?) && second.NoSession?
      ensures r == Redirect("/") <==> guard.Protected? && (first.NoSession? || first.NoUser?) && second.NoUser?
      ensures r.Redirect? ==> r.path in {"/search", "/login", "/"}
    {
      var attached := false;
      if first.Failing? {
        return ErrorPage;
      }
      if first.LoggedIn? {
        attached := true;
      }
      if guard.Anonymous? {
        if attached {
          return Redirect(SEARCH);
        }
        return Page(attached, false);
      }
      if !attached {
        match second
        case NoSession => return Redirect(LOGIN);
        case Failing => return ErrorPage;
        case NoUser => return Redirect(HOME);
        case LoggedIn => attached := true;
      }
      r := Page(attached, true);
    }
  }
}
