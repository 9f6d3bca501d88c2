/** `RootView` (Views/RootView.swift): the sidebar, the title bar and the route switch. */
module RootView {
  import opened Common
  import opened Flow
  import opened Api
  import opened VisitorInfoView

  datatype MenuItem = MenuItem(title: string, icon: string, route: Route)

  /** `menuItems`, in sidebar order. */
  const MenuItems: seq<MenuItem> := [
    MenuItem("Disclosure", "doc.text", Disclosure),
    MenuItem("CRM", "person.badge.key", Crm),
    MenuItem("Login", "person.badge.key", Login)
  ]

  /** The one route the sidebar hides: CRM while signed out, Login while signed in. */
  function HiddenRoute(isAuthenticated: bool): Route
  {
    if isAuthenticated then Login else Crm
  }

  /** The sidebar's rows: the items whose route is not hidden, in their order. */
  function VisibleMenu(items: seq<MenuItem>, isAuthenticated: bool): (r: seq<MenuItem>)
    ensures IsSubsequence(r, items)
    ensures forall m :: m in r <==> m in items && m.route != HiddenRoute(isAuthenticated)
  {
    if items == [] then []
    else
      var rest := VisibleMenu(items[1..], isAuthenticated);
      assert items == [items[0]] + items[1..];
      if items[0].route != HiddenRoute(isAuthenticated) then [items[0]] + rest else rest
  }

  /** Signed out, the sidebar shows Disclosure and Login; signed in, Disclosure and CRM. */
  lemma MenuByAuthentication()
    ensures VisibleMenu(MenuItems, false) == [MenuItems[0], MenuItems[2]]
    ensures VisibleMenu(MenuItems, true) == [MenuItems[0], MenuItems[1]]
  {
    assert MenuItems[1..][1..][1..] == [];
  }

  /** No sidebar row leads into the middle of a sign-in. */
  lemma MenuRoutes(isAuthenticated: bool, m: MenuItem)
    requires m in VisibleMenu(MenuItems, isAuthenticated)
    ensures m.route in {Disclosure, Crm, Login}
    ensures m.route != Info && m.route != Signature && m.route != Route.Done
  {
  }

  /** `title(for:)` */
  function Title(route: Route): (r: string)
    ensures r != ""
  {
    match route
    case Disclosure => "Disclosure"
    case Info => "Info"
    case Signature => "Signature"
    case Done => "Done"
    case Login => "Login"
    case Crm => "CRM"
  }

  /** Different routes never share a title. */
  lemma {:induction false} TitleInjective(a: Route, b: Route)
    ensures Title(a) == Title(b) <==> a == b
  {
    if a != b {
      assert Title(a)[..] != Title(b)[..] by {
        match a {
          case Disclosure =>
          case Info =>
          case Signature =>
          case Done =>
          case Login =>
          case Crm =>
        }
      }
    }
  }

  /** The logout button's label: the word alone, or followed by a space and the username. */
  function LogoutLabel(username: string): (r: string)
    ensures |r| >= 6 && r[..6] == "Logout"
    ensures username == "" <==> r == "Logout"
    ensures username != "" ==> r[6..] == " " + username
  {
    if username == "" then "Logout" else "Logout " + username
  }

  /** The split view: the sidebar selection and the shared routing state. */
  class Root {
    const state: AppState
    const api: UsersApi
    var selection: Option<Route>

    /** The selection starts on the disclosure. */
    constructor(state: AppState, api: UsersApi)
      ensures this.state == state && this.api == api && selection == Some(Disclosure)
    {
      this.state := state;
      this.api := api;
      selection := Some(Disclosure);
    }

    /** Sidebar and route agree. */
    predicate Synced()
      reads this, state
    {
      selection == Some(state.route)
    }

    /** `onAppear`: the selection follows the route. */
    method Appear()
      modifies this`selection
      ensures selection == Some(state.route) && Synced()
    {
      selection := Some(state.route);
    }

    /** `onChange(of: state.route)`: a route set by any screen is mirrored in the sidebar. */
    method RouteDidChange()
      modifies this`selection
      ensures selection == Some(state.route) && Synced()
    {
      selection := Some(state.route);
    }

    /**
     * Tapping a visible sidebar row: `onChange(of: selection)` copies it to the route, and
     * `onChange(of: state.route)` copies it back; the flow never lands inside a sign-in.
     */
    method Select(item: MenuItem)
      requires item in VisibleMenu(MenuItems, state.isAuthenticated)
      modifies this`selection, state`route
      ensures selection == Some(item.route) && state.route == item.route && Synced()
      ensures SignInInvariant(state)
    {
      MenuRoutes(state.isAuthenticated, item);
      selection := Some(item.route);
      state.route := selection.value;
      selection := Some(state.route);
    }

    /** Clearing the selection leaves the route where it is. */
    method Deselect()
      modifies this`selection
      ensures selection.None?
    {
      selection := None;
    }

    /**
     * Logout, shown only while signed in: signed out, no username, the token the empty string
     * (not nil), and the Login screen selected.
     */
    method Logout()
      requires state.isAuthenticated
      modifies state`isAuthenticated, state`authUsername, state`route, api`authToken, this`selection
      ensures !state.isAuthenticated && state.authUsername == ""
      ensures api.authToken == Some("")
      ensures state.route == Login && selection == Some(Login) && Synced()
      ensures SignInInvariant(state)
    {
      state.isAuthenticated := false;
      state.authUsername := "";
      api.authToken := Some("");
      state.route := Login;
      selection := Some(Login);
    }

    /** The settings button, present only while signed in, presents the settings sheet. */
    method OpenSettings()
      requires state.isAuthenticated
      modifies state`showSettings
      ensures state.showSettings
    {
      state.showSettings := true;
    }
  }
}
