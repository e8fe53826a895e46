/** The store and the guard together: what a record written by one operation
    means to a later navigation, possibly after the page has been reloaded.

    A reload forgets the in-memory refs and keeps both storage tiers
    (`sessionStorage` survives a reload of the same tab). Runs of events are
    folded over a `State` with the step functions of the store and the guard. */
module SessionCache {
  import opened JsValues
  import opened AuthRecord
  import opened UserStore
  import opened Router

  /** A page load: a new store with `user` null and `isLoading` false over
      the same storage. */
  function Reload(s: State): (r: State)
    ensures r.user == Null && !r.isLoading
    ensures r.durable == s.durable && r.ephemeral == s.ephemeral
  {
    s.(user := Null, isLoading := false)
  }

  // -------------------------------------------------- round trips

  /** A registration's envelope brings the same user back on a protected
      navigation after a reload. */
  lemma RegisterThenReloadRestores(s: State, email: string, pu: ProviderUser, now: nat, to: Route)
    requires to.requiresAuth
    ensures var r := Reload(RegisterStep(s, email, Resolved(pu), now).state);
      GuardStep(to, r) == Navigation(r.(user := Obj(UserRecord(pu, email))), [Proceed])
  {
  }

  /** A login's envelope brings the same user back after a reload, provided
      the durable tier does not already hold something else when the login
      chose the ephemeral tier. */
  lemma LoginThenReloadRestores(s: State, email: string, rememberMe: bool, pu: ProviderUser, now: nat, to: Route)
    requires to.requiresAuth
    requires rememberMe || !Truthy(s.durable)
    ensures var r := Reload(LoginStep(s, email, rememberMe, Resolved(pu), now).state);
      GuardStep(to, r) == Navigation(r.(user := Obj(UserRecord(pu, email))), [Proceed])
  {
  }

  /** A remembered login followed by a session-only login of another user
      leaves both tiers holding a record, and after a reload the guard
      restores the first user: the durable record shadows the newer one. */
  lemma StaleDurableShadowsSession(
    s: State, emailA: string, puA: ProviderUser, t1: nat,
    emailB: string, puB: ProviderUser, t2: nat, to: Route)
    requires to.requiresAuth
    ensures var s1 := LoginStep(s, emailA, true, Resolved(puA), t1).state;
      var s2 := LoginStep(s1, emailB, false, Resolved(puB), t2).state;
      && Truthy(s2.durable) && Truthy(s2.ephemeral)
      && GuardStep(to, Reload(s2)).state.user == Obj(UserRecord(puA, emailA))
  {
  }

  /** Once the state-change callback has rewritten a tier that held a
      record with the bare user object, the guard after a reload restores `undefined` as the user and
      still lets the navigation through. */
  lemma CallbackRewriteRestoresUndefined(s: State, rec: Record, pu: ProviderUser, to: Route)
    requires to.requiresAuth
    requires Truthy(s.durable) || Truthy(s.ephemeral)
    requires StoredText(s) == Stringify(rec)
    ensures var t := AuthChangedStep(s, Some(pu));
      && t.completion == Returned
      && GuardStep(to, Reload(t.state)) == Navigation(Reload(t.state).(user := Undefined), [Proceed])
  {
    ParseStringify(rec);
    var t := AuthChangedStep(s, Some(pu));
    var r := Reload(t.state);
    assert Truthy(r.durable) <==> Truthy(s.durable);
    assert Parse(StoredText(r)) == Some(Bare(UserRecord(pu, pu.email)));
  }

  /** After a logout, a protected navigation is sent to Home, with or
      without a reload in between. */
  lemma LogoutThenGuardRedirectsHome(s: State, to: Route)
    requires to.requiresAuth
    ensures var after := LogoutStep(s, true).state;
      && GuardStep(to, after) == Navigation(after, [Redirect(SignedOutTarget)])
      && GuardStep(to, Reload(after)) == Navigation(Reload(after), [Redirect(SignedOutTarget)])
  {
  }

  // -------------------------------------------------- the guard on its own

  /** With a truthy durable tier, what the guard decides and restores does
      not depend on the ephemeral tier. */
  lemma GuardReadsDurableFirst(to: Route, s: State, e: Option<string>)
    requires Truthy(s.durable)
    ensures GuardStep(to, s.(ephemeral := e)).calls == GuardStep(to, s).calls
    ensures GuardStep(to, s.(ephemeral := e)).state.user == GuardStep(to, s).state.user
    ensures GuardStep(to, s.(ephemeral := e)).state.durable == GuardStep(to, s).state.durable
  {
  }

  /** Running the guard twice on the same target leaves the state the first
      run left. */
  lemma GuardIdempotent(to: Route, s: State)
    ensures GuardStep(to, GuardStep(to, s).state).state == GuardStep(to, s).state
  {
  }

  /** After the guard discards an unparsable record, the next protected
      navigation is treated as signed out and sent to Home. */
  lemma CorruptThenSignedOut(to: Route, s: State)
    requires GuardStep(to, s).calls == [Redirect(CorruptTarget)]
    ensures var s1 := GuardStep(to, s).state;
      GuardStep(to, s1) == Navigation(s1, [Redirect(SignedOutTarget)])
  {
  }

  // -------------------------------------------------- runs of events

  /** Something that happens to the store: one of its operations settling,
      a provider notification, a navigation, or a page load. */
  datatype Event =
    | Registered(email: string, outcome: ProviderOutcome, now: nat)
    | LoggedIn(email: string, rememberMe: bool, outcome: ProviderOutcome, now: nat)
    | LoggedOut(signedOut: bool)
    | AuthChanged(firebaseUser: Option<ProviderUser>)
    | Navigated(to: Route)
    | Reloaded

  function Apply(s: State, e: Event): State {
    match e
    case Registered(email, outcome, now) => RegisterStep(s, email, outcome, now).state
    case LoggedIn(email, rememberMe, outcome, now) => LoginStep(s, email, rememberMe, outcome, now).state
    case LoggedOut(signedOut) => LogoutStep(s, signedOut).state
    case AuthChanged(fu) => AuthChangedStep(s, fu).state
    case Navigated(to) => GuardStep(to, s).state
    case Reloaded => Reload(s)
  }

  function Run(s: State, es: seq<Event>): State
    decreases |es|
  {
    if es == [] then s else Run(Apply(s, es[0]), es[1..])
  }

  /** The calls to `next` made by the navigations of a run, in order. */
  function NextCalls(s: State, es: seq<Event>): seq<NextCall>
    decreases |es|
  {
    if es == [] then []
    else (if es[0].Navigated? then GuardStep(es[0].to, s).calls else []) + NextCalls(Apply(s, es[0]), es[1..])
  }

  function Navigations(es: seq<Event>): nat
    decreases |es|
  {
    if es == [] then 0 else (if es[0].Navigated? then 1 else 0) + Navigations(es[1..])
  }

  /** Over a whole run, `next` is called exactly once per navigation. */
  lemma {:induction false} OneNextCallPerNavigation(s: State, es: seq<Event>)
    ensures |NextCalls(s, es)| == Navigations(es)
    decreases |es|
  {
    if es != [] {
      OneNextCallPerNavigation(Apply(s, es[0]), es[1..]);
    }
  }

  /** Every truthy tier holds text that parses. */
  predicate Intact(s: State) {
    && (Truthy(s.durable) ==> Parse(s.durable.value).Some?)
    && (Truthy(s.ephemeral) ==> Parse(s.ephemeral.value).Some?)
  }

  /** Every event keeps the tiers parseable. */
  lemma ApplyKeepsIntact(s: State, e: Event)
    requires Intact(s)
    ensures Intact(Apply(s, e))
  {
    match e
    case Registered(_, _, _) =>
    case LoggedIn(_, _, _, _) =>
    case LoggedOut(_) =>
    case AuthChanged(_) =>
    case Navigated(_) =>
    case Reloaded =>
  }

  /** Starting from storage the app can parse, no run of store operations,
      reloads and navigations ever takes the guard's corrupted-record branch:
      the redirect to "Translate" needs a tier spoiled from outside. */
  lemma {:induction false} IntactRunNeverCorrupt(s: State, es: seq<Event>)
    requires Intact(s)
    ensures Intact(Run(s, es))
    ensures Redirect(CorruptTarget) !in NextCalls(s, es)
    decreases |es|
  {
    if es != [] {
      ApplyKeepsIntact(s, es[0]);
      IntactRunNeverCorrupt(Apply(s, es[0]), es[1..]);
      if es[0].Navigated? {
        var to := es[0].to;
        if to.requiresAuth && !s.user.Truthy() && (Truthy(s.durable) || Truthy(s.ephemeral)) {
          assert Parse(StoredText(s)).Some?;
        }
        assert Redirect(CorruptTarget) !in GuardStep(to, s).calls;
      }
    }
  }
}
