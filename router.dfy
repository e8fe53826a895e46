/** The route table and the navigation guard of src/router/index.js.

    `GuardStep` is the specification of one run of the `beforeEach` guard on
    a snapshot of the user store and the storage tiers; `BeforeEach` is the
    guard itself over a `Session`, recording each call of `next` in the order
    made. */
module Router {
  import opened JsValues
  import opened AuthRecord
  import opened UserStore

  /** An entry of the route table; `requiresAuth` is `meta.requiresAuth`. */
  datatype Route = Route(path: string, name: string, component: string, requiresAuth: bool)

  const Routes: seq<Route> := [
    Route("/", "Home", "Translate", false),
    Route("/login", "Login", "Login", false),
    Route("/register", "Register", "Register", false),
    Route("/vocabulary", "Vocabulary", "MyVocabulary", true),
    Route("/quiz", "Quiz", "Quiz", true),
    Route("/situations", "Situations", "Situations", true),
    Route("/:pathMatch(.*)*", "NotFound", "NotFound", false)
  ]

  /** The route a named location `{name}` designates, if the table has one. */
  function NamedRoute(routes: seq<Route>, name: string): (r: Option<Route>)
    ensures r.Some? ==> r.value in routes && r.value.name == name
    ensures r.None? ==> forall i :: 0 <= i < |routes| ==> routes[i].name != name
  {
    if routes == [] then None
    else if routes[0].name == name then Some(routes[0])
    else NamedRoute(routes[1..], name)
  }

  /** The protected routes are exactly Vocabulary, Quiz and Situations;
      Home, Login, Register and NotFound are public. */
  lemma ProtectedRoutes()
    ensures forall r :: r in Routes ==> (r.requiresAuth <==> r.name in {"Vocabulary", "Quiz", "Situations"})
    ensures forall n :: n in {"Home", "Login", "Register", "NotFound"} ==>
      NamedRoute(Routes, n).Some? && !NamedRoute(Routes, n).value.requiresAuth
    ensures forall n :: n in {"Vocabulary", "Quiz", "Situations"} ==>
      NamedRoute(Routes, n).Some? && NamedRoute(Routes, n).value.requiresAuth
  {
  }

  /** Every route name is distinct. */
  lemma RouteNamesDistinct()
    ensures forall i, j :: 0 <= i < |Routes| && 0 <= j < |Routes| && Routes[i].name == Routes[j].name ==> i == j
  {
  }

  /** "Home" names the route whose component is the Translate view;
      "Translate" itself names no route. */
  lemma TranslateIsNoRouteName()
    ensures NamedRoute(Routes, "Home") == Some(Routes[0]) && Routes[0].component == "Translate"
    ensures NamedRoute(Routes, "Translate") == None
  {
    assert NamedRoute(Routes[6..], "Translate") == None;
    assert NamedRoute(Routes[3..], "Translate") == None;
  }

  // -------------------------------------------------- the guard

  /** An argument given to `next`: none (proceed) or a named location. */
  datatype NextCall = Proceed | Redirect(name: string)

  /** The store and tiers after the guard, and the calls it made to `next`. */
  datatype Navigation = Navigation(state: State, calls: seq<NextCall>)

  /** Name of the route the guard sends signed-out users to. */
  const SignedOutTarget := "Home"
  /** Name the guard redirects to after discarding an unparsable record. */
  const CorruptTarget := "Translate"

  /** The text the guard parses: the durable tier when it is truthy,
      otherwise the ephemeral one. */
  function StoredText(s: State): (t: string)
    requires Truthy(s.durable) || Truthy(s.ephemeral)
    ensures t != ""
    ensures Truthy(s.durable) ==> t == s.durable.value
    ensures !Truthy(s.durable) ==> t == s.ephemeral.value
  {
    if Truthy(s.durable) then s.durable.value else s.ephemeral.value
  }

  /** `authData.user` of a parsed record: the envelope's user object, or
      `undefined` for a bare user object, which has no `user` field. */
  function UserField(rec: Record): (u: UserSlot)
    ensures u.Truthy() <==> rec.Envelope?
    ensures rec.Envelope? ==> u == Obj(rec.user)
    ensures rec.Bare? ==> u == Undefined
  {
    match rec
    case Envelope(user, _, _) => Obj(user)
    case Bare(_) => Undefined
  }

  /** One run of the `beforeEach` guard for a navigation to `to`. */
  function GuardStep(to: Route, s: State): (r: Navigation)
    ensures |r.calls| == 1
    ensures r.state.isLoading == s.isLoading
    ensures !to.requiresAuth ==> r == Navigation(s, [Proceed])
    ensures to.requiresAuth && s.user.Truthy() ==> r == Navigation(s, [Proceed])
    ensures r.calls == [Redirect(SignedOutTarget)] <==>
      to.requiresAuth && !s.user.Truthy() && !Truthy(s.durable) && !Truthy(s.ephemeral)
    ensures r.calls == [Redirect(SignedOutTarget)] ==> r.state == s
    ensures to.requiresAuth && !s.user.Truthy() && (Truthy(s.durable) || Truthy(s.ephemeral)) ==>
      match Parse(StoredText(s))
      case None => r == Navigation(s.(durable := None, ephemeral := None), [Redirect(CorruptTarget)])
      case Some(rec) => r == Navigation(s.(user := UserField(rec)), [Proceed])
  {
    if to.requiresAuth then
      if s.user.Truthy() || Truthy(s.durable) || Truthy(s.ephemeral) then
        if !s.user.Truthy() && (Truthy(s.durable) || Truthy(s.ephemeral)) then
          match Parse(StoredText(s))
          case None => Navigation(s.(durable := None, ephemeral := None), [Redirect(CorruptTarget)])
          case Some(authData) => Navigation(s.(user := UserField(authData)), [Proceed])
        else Navigation(s, [Proceed])
      else Navigation(s, [Redirect(SignedOutTarget)])
    else Navigation(s, [Proceed])
  }

  /** The guard on the store itself. Each call of `next` is appended to
      `calls`; the corrupted-record branch returns right after its call. */
  method BeforeEach(to: Route, store: Session) returns (calls: seq<NextCall>)
    modifies store
    ensures Navigation(store.Current(), calls) == GuardStep(to, old(store.Current()))
  {
    calls := [];
    if to.requiresAuth {
      var savedAuth := store.durable;
      var sessionAuth := store.ephemeral;
      if store.user.Truthy() || Truthy(savedAuth) || Truthy(sessionAuth) {
        if !store.user.Truthy() && (Truthy(savedAuth) || Truthy(sessionAuth)) {
          var authData := Parse(if Truthy(savedAuth) then savedAuth.value else sessionAuth.value);
          if authData.None? {
            store.durable := None;
            store.ephemeral := None;
            calls := calls + [Redirect(CorruptTarget)];
            return;
          }
          store.user := UserField(authData.value);
        }
        calls := calls + [Proceed];
      } else {
        calls := calls + [Redirect(SignedOutTarget)];
      }
    } else {
      calls := calls + [Proceed];
    }
  }
}
