/** The user store of src/stores/user.js: the in-memory `user` and
    `isLoading` refs, and the two browser storage tiers the store mirrors
    them into under the key "userAuth" (`localStorage`, the durable tier, and
    `sessionStorage`, the ephemeral tier).

    The pure `...Step` functions are the specification of each operation on
    a `State` snapshot; the class `Session` is the store itself, whose methods
    update the fields in place and are proved to follow the step functions.
    Calls into the identity provider are replaced by their outcome, passed in
    as a parameter; the clock is the parameter `now`. */
module UserStore {
  import opened JsValues
  import opened AuthRecord

  /** The user object the identity provider resolves with. A `displayName`
      of `None` stands for `null`. */
  datatype ProviderUser = ProviderUser(uid: string, email: string, displayName: Option<string>, emailVerified: bool)

  /** How a create-account or sign-in call to the provider settled. A
      rejection carries the error's `code`. */
  datatype ProviderOutcome = Resolved(user: ProviderUser) | Rejected(code: string)

  /** What `user.value` holds: `null`, `undefined` (what the route guard
      restores from a stored record that has no `user` field) or a user object. */
  datatype UserSlot = Null | Undefined | Obj(profile: Profile) {
    /** JavaScript truthiness: only an object is truthy. */
    predicate Truthy() { Obj? }
  }

  /** The `{success, error}` object `register` and `login` resolve with;
      an `error` of `None` is `null`. */
  datatype AuthResult = AuthResult(success: bool, error: Option<string>)

  /** The store's refs together with the two storage tiers' values for the
      key "userAuth" (`None` when `getItem` returns `null`). */
  datatype State = State(user: UserSlot, isLoading: bool, durable: Option<string>, ephemeral: Option<string>)

  /** The state after `register` or `login`, and what it resolved with. */
  datatype Step = Step(state: State, result: AuthResult)

  /** The state after `logout` or a state-change notification, and whether it threw. */
  datatype Transition = Transition(state: State, completion: Completion)

  // -------------------------------------------------- error messages

  const InvalidEmailMessage := "Please enter a valid email address."

  const RegisterFallback := "Registration failed. Please try again."
  const RegisterCodes: set<string> :=
    {"auth/email-already-in-use", "auth/invalid-email", "auth/weak-password", "auth/operation-not-allowed"}
  const RegisterMessages: set<string> :=
    {RegisterFallback, "This email is already registered.", InvalidEmailMessage,
     "Password should be at least 6 characters.", "Email/password accounts are not enabled."}

  /** The message `register` reports for a provider error code: one of a
      fixed set of texts, never the code itself, and the generic one exactly
      when the code is not one of the four it knows. */
  function RegisterMessage(code: string): (m: string)
    ensures m in RegisterMessages
    ensures m == RegisterFallback <==> code !in RegisterCodes
  {
    if code == "auth/email-already-in-use" then "This email is already registered."
    else if code == "auth/invalid-email" then InvalidEmailMessage
    else if code == "auth/weak-password" then "Password should be at least 6 characters."
    else if code == "auth/operation-not-allowed" then "Email/password accounts are not enabled."
    else RegisterFallback
  }

  const LoginFallback := "Login failed. Please try again."
  const CredentialMessage := "Invalid email or password."
  const LoginCodes: set<string> :=
    {"auth/invalid-credential", "auth/wrong-password", "auth/user-not-found",
     "auth/invalid-email", "auth/user-disabled", "auth/too-many-requests"}
  const LoginMessages: set<string> :=
    {LoginFallback, CredentialMessage, "No account found with this email.", InvalidEmailMessage,
     "This account has been disabled.", "Too many failed attempts. Please try again later."}

  /** The message `login` reports for a provider error code: one of a fixed
      set of texts, the generic one exactly when the code is unknown, and the
      credential message for exactly the two credential codes. */
  function LoginMessage(code: string): (m: string)
    ensures m in LoginMessages
    ensures m == LoginFallback <==> code !in LoginCodes
    ensures m == CredentialMessage <==> code in {"auth/invalid-credential", "auth/wrong-password"}
  {
    if code == "auth/invalid-credential" || code == "auth/wrong-password" then CredentialMessage
    else if code == "auth/user-not-found" then "No account found with this email."
    else if code == "auth/invalid-email" then InvalidEmailMessage
    else if code == "auth/user-disabled" then "This account has been disabled."
    else if code == "auth/too-many-requests" then "Too many failed attempts. Please try again later."
    else LoginFallback
  }

  /** Each known code and its fixed message. */
  lemma MessageTables()
    ensures RegisterMessage("auth/email-already-in-use") == "This email is already registered."
    ensures RegisterMessage("auth/invalid-email") == InvalidEmailMessage
    ensures RegisterMessage("auth/weak-password") == "Password should be at least 6 characters."
    ensures RegisterMessage("auth/operation-not-allowed") == "Email/password accounts are not enabled."
    ensures LoginMessage("auth/user-not-found") == "No account found with this email."
    ensures LoginMessage("auth/invalid-email") == InvalidEmailMessage
    ensures LoginMessage("auth/user-disabled") == "This account has been disabled."
    ensures LoginMessage("auth/too-many-requests") == "Too many failed attempts. Please try again later."
  {
  }

  // -------------------------------------------------- the user record

  /** `email.split("@")[0]`: the part of `email` before its first "@", or
      all of it when it has none. */
  function EmailPrefix(email: string): (r: string)
    ensures r <= email
    ensures '@' !in r
    ensures |r| < |email| ==> email[|r|] == '@'
  {
    if email == [] || email[0] == '@' then [] else [email[0]] + EmailPrefix(email[1..])
  }

  /** `displayName || email.split("@")[0]`: the display name when it is
      truthy, otherwise the part of `email` before its first "@". */
  function UserName(displayName: Option<string>, email: string): (name: string)
    ensures Truthy(displayName) ==> name == displayName.value
    ensures !Truthy(displayName) ==> name <= email && '@' !in name
    ensures !Truthy(displayName) && |name| < |email| ==> email[|name|] == '@'
  {
    if Truthy(displayName) then displayName.value else EmailPrefix(email)
  }

  /** The user object the store builds from a provider user; `email` is the
      address the name falls back on (the typed one in `register` and
      `login`, the provider's own in the state-change callback). */
  function UserRecord(pu: ProviderUser, email: string): (p: Profile)
    ensures p.uid == pu.uid && p.email == pu.email && p.emailVerified == pu.emailVerified
    ensures Truthy(pu.displayName) ==> p.name == pu.displayName.value
    ensures !Truthy(pu.displayName) ==> p.name <= email && '@' !in p.name
    ensures !Truthy(pu.displayName) && |p.name| < |email| ==> email[|p.name|] == '@'
  {
    Profile(pu.uid, pu.email, UserName(pu.displayName, email), pu.emailVerified)
  }

  // -------------------------------------------------- operations as steps

  /** `register(email, password)` once the provider call has settled. */
  function RegisterStep(s: State, email: string, outcome: ProviderOutcome, now: nat): (r: Step)
    ensures !r.state.isLoading
    ensures r.result.success <==> outcome.Resolved?
    ensures outcome.Resolved? ==>
      && r.result.error == None
      && r.state.user == Obj(UserRecord(outcome.user, email))
      && Truthy(r.state.durable)
      && Parse(r.state.durable.value) == Some(Envelope(r.state.user.profile, now, true))
      && r.state.ephemeral == s.ephemeral
    ensures outcome.Rejected? ==>
      && r.result.error == Some(RegisterMessage(outcome.code))
      && r.state == s.(isLoading := false)
  {
    match outcome
    case Resolved(pu) =>
      var rec := Envelope(UserRecord(pu, email), now, true);
      ParseStringify(rec);
      StringifyTruthy(rec);
      Step(s.(user := Obj(rec.user), isLoading := false, durable := Some(Stringify(rec))),
           AuthResult(true, None))
    case Rejected(code) =>
      Step(s.(isLoading := false), AuthResult(false, Some(RegisterMessage(code))))
  }

  /** `login(email, password, rememberMe)` once the provider call has settled. */
  function LoginStep(s: State, email: string, rememberMe: bool, outcome: ProviderOutcome, now: nat): (r: Step)
    ensures !r.state.isLoading
    ensures r.result.success <==> outcome.Resolved?
    ensures outcome.Resolved? ==>
      && r.result.error == None
      && r.state.user == Obj(UserRecord(outcome.user, email))
      && var written := if rememberMe then r.state.durable else r.state.ephemeral;
      && Truthy(written)
      && Parse(written.value) == Some(Envelope(r.state.user.profile, now, rememberMe))
      && (if rememberMe then r.state.ephemeral == s.ephemeral else r.state.durable == s.durable)
    ensures outcome.Rejected? ==>
      && r.result.error == Some(LoginMessage(outcome.code))
      && r.state == s.(isLoading := false)
  {
    match outcome
    case Resolved(pu) =>
      var rec := Envelope(UserRecord(pu, email), now, rememberMe);
      ParseStringify(rec);
      StringifyTruthy(rec);
      var s' := s.(user := Obj(rec.user), isLoading := false);
      Step(if rememberMe then s'.(durable := Some(Stringify(rec))) else s'.(ephemeral := Some(Stringify(rec))),
           AuthResult(true, None))
    case Rejected(code) =>
      Step(s.(isLoading := false), AuthResult(false, Some(LoginMessage(code))))
  }

  const LogoutError := "Logout failed"

  /** `logout()`; `signedOut` is whether the provider's sign-out resolved. */
  function LogoutStep(s: State, signedOut: bool): (r: Transition)
    ensures r.state.isLoading == s.isLoading
    ensures signedOut ==>
      && r.completion == Returned
      && r.state.user == Null
      && r.state.durable == None && r.state.ephemeral == None
    ensures !signedOut ==> r.completion == Threw(LogoutError) && r.state == s
  {
    if signedOut then Transition(s.(user := Null, durable := None, ephemeral := None), Returned)
    else Transition(s, Threw(LogoutError))
  }

  /** The error `JSON.parse` throws on malformed text. */
  const ParseError := "SyntaxError"

  /** The `onAuthStateChanged` callback installed by `initializeAuth`, for a
      notification carrying `firebaseUser` (`None` for signed out). With a
      user and a truthy tier, it first parses the tier it reads (the durable
      one when truthy); a parse error escapes the callback after `user` has
      been set. Otherwise it writes the bare user object back to that tier. */
  function AuthChangedStep(s: State, firebaseUser: Option<ProviderUser>): (r: Transition)
    ensures r.state.isLoading == s.isLoading
    ensures firebaseUser.None? ==> r == Transition(s.(user := Null), Returned)
    ensures firebaseUser.Some? ==> r.state.user == Obj(UserRecord(firebaseUser.value, firebaseUser.value.email))
    ensures firebaseUser.Some? && !Truthy(s.durable) && !Truthy(s.ephemeral) ==>
      r.completion == Returned && r.state.durable == s.durable && r.state.ephemeral == s.ephemeral
    ensures firebaseUser.Some? && (Truthy(s.durable) || Truthy(s.ephemeral)) ==>
      var read := if Truthy(s.durable) then s.durable.value else s.ephemeral.value;
      if Parse(read).None? then
        r.completion == Threw(ParseError) && r.state.durable == s.durable && r.state.ephemeral == s.ephemeral
      else
        && r.completion == Returned
        && var written := if Truthy(s.durable) then r.state.durable else r.state.ephemeral;
        && Truthy(written)
        && Parse(written.value) == Some(Bare(r.state.user.profile))
        && (if Truthy(s.durable) then r.state.ephemeral == s.ephemeral else r.state.durable == s.durable)
  {
    match firebaseUser
    case None => Transition(s.(user := Null), Returned)
    case Some(pu) =>
      var profile := UserRecord(pu, pu.email);
      var s' := s.(user := Obj(profile));
      if Truthy(s.durable) || Truthy(s.ephemeral) then
        var read := if Truthy(s.durable) then s.durable.value else s.ephemeral.value;
        if Parse(read).None? then Transition(s', Threw(ParseError))
        else
          var text := Stringify(Bare(profile));
          ParseStringify(Bare(profile));
          StringifyTruthy(Bare(profile));
          Transition(if Truthy(s.durable) then s'.(durable := Some(text)) else s'.(ephemeral := Some(text)),
                     Returned)
      else Transition(s', Returned)
  }

  // -------------------------------------------------- the store

  class Session {
    var user: UserSlot
    var isLoading: bool
    /** `localStorage.getItem("userAuth")` */
    var durable: Option<string>
    /** `sessionStorage.getItem("userAuth")` */
    var ephemeral: Option<string>

    function Current(): State
      reads this
    {
      State(user, isLoading, durable, ephemeral)
    }

    /** A freshly created store over whatever the two tiers already hold. */
    constructor (durable: Option<string>, ephemeral: Option<string>)
      ensures Current() == State(Null, false, durable, ephemeral)
    {
      user := Null;
      isLoading := false;
      this.durable := durable;
      this.ephemeral := ephemeral;
    }

    method Register(email: string, outcome: ProviderOutcome, now: nat) returns (result: AuthResult)
      modifies this
      ensures Step(Current(), result) == RegisterStep(old(Current()), email, outcome, now)
    {
      isLoading := true;
      match outcome {
        case Resolved(firebaseUser) =>
          user := Obj(UserRecord(firebaseUser, email));
          var authData := Envelope(user.profile, now, true);
          durable := Some(Stringify(authData));
          result := AuthResult(true, None);
        case Rejected(code) =>
          var errorMessage := RegisterMessage(code);
          result := AuthResult(false, Some(errorMessage));
      }
      isLoading := false;
    }

    method Login(email: string, rememberMe: bool, outcome: ProviderOutcome, now: nat) returns (result: AuthResult)
      modifies this
      ensures Step(Current(), result) == LoginStep(old(Current()), email, rememberMe, outcome, now)
    {
      isLoading := true;
      match outcome {
        case Resolved(firebaseUser) =>
          user := Obj(UserRecord(firebaseUser, email));
          var authData := Envelope(user.profile, now, rememberMe);
          if rememberMe {
            durable := Some(Stringify(authData));
          } else {
            ephemeral := Some(Stringify(authData));
          }
          result := AuthResult(true, None);
        case Rejected(code) =>
          var errorMessage := LoginMessage(code);
          result := AuthResult(false, Some(errorMessage));
      }
      isLoading := false;
    }

    method Logout(signedOut: bool) returns (completion: Completion)
      modifies this
      ensures Transition(Current(), completion) == LogoutStep(old(Current()), signedOut)
    {
      if !signedOut {
        return Threw(LogoutError);
      }
      user := Null;
      durable := None;
      ephemeral := None;
      completion := Returned;
    }

    method AuthStateChanged(firebaseUser: Option<ProviderUser>) returns (completion: Completion)
      modifies this
      ensures Transition(Current(), completion) == AuthChangedStep(old(Current()), firebaseUser)
    {
      completion := Returned;
      if firebaseUser.None? {
        user := Null;
        return;
      }
      var pu := firebaseUser.value;
      user := Obj(UserRecord(pu, pu.email));
      var savedAuth := durable;
      var sessionAuth := ephemeral;
      if Truthy(savedAuth) || Truthy(sessionAuth) {
        var authData := Parse(if Truthy(savedAuth) then savedAuth.value else sessionAuth.value);
        if authData.None? {
          return Threw(ParseError);
        }
        var text := Stringify(Bare(user.profile));
        if Truthy(savedAuth) {
          durable := Some(text);
        } else {
          ephemeral := Some(text);
        }
      }
    }
  }
}
