/** The identity-provider wrappers (utils/auth.ts). The provider calls
    themselves are outside the model: each wrapper takes the provider's
    outcome (a value, or the value it threw) and returns what the wrapper
    resolves with, or the message of the `Error` it throws instead. */
module Auth {
  import opened Js

  /** One entry of the provider's attribute list, `{ Name, Value }`. */
  datatype Attribute = Attribute(name: string, value: string)

  /** What the provider reports for the signed-in user: `user.username`,
      `user.attributes.sub` and the attribute list of `userAttributes(user)`. */
  datatype ProviderUser = ProviderUser(username: string, sub: string, attributes: seq<Attribute>)

  /** What `getCurrentAuthenticatedUser` resolves with. */
  datatype Session = Session(username: string, userId: string, fullName: string, email: string)

  /** What `signIn` resolves with. */
  datatype SignInOutput = SignInOutput(isSignedIn: bool, nextStep: Option<string>)

  /** `new Error(prefix + error.message)` for a thrown `Error`, and
      `new Error(unknown)` for any other thrown value. */
  function Wrapped(prefix: string, unknown: string, t: Thrown): (msg: string)
    ensures t.Error? ==> prefix <= msg && msg[|prefix|..] == t.message
    ensures t.NonError? ==> msg == unknown
  {
    match t
    case Error(_, message) => prefix + message
    case NonError => unknown
  }

  // ---------------------------------------------------------------------
  // signUp, signOutUser
  // ---------------------------------------------------------------------

  const UnknownSignUpMessage := "An unknown error occurred during sign up."
  const SignOutFailedPrefix := "Sign out failed: "
  const UnknownSignOutMessage := "An unknown error occurred during sign out."

  /** `signUp(email, password, fullName)`: resolves with the provider's
      `signUpStep`; a provider error is re-thrown with its message unchanged. */
  function SignUp(provider: Result<string, Thrown>): (r: Result<string, string>)
    ensures provider.Success? ==> r == Success(provider.value)
    ensures provider.Failure? && provider.error.Error? ==> r == Failure(provider.error.message)
    ensures provider.Failure? && provider.error.NonError? ==> r == Failure(UnknownSignUpMessage)
  {
    match provider
    case Success(step) => Success(step)
    case Failure(t) => Failure(Wrapped("", UnknownSignUpMessage, t))
  }

  /** `signOutUser()`; `fault` is what the provider's sign-out threw, if anything. */
  function SignOutUser(fault: Option<Thrown>): (r: Outcome)
    ensures fault.None? <==> r == Pass
    ensures fault.Some? && fault.value.Error? ==> r == Fail(SignOutFailedPrefix + fault.value.message)
    ensures fault.Some? && fault.value.NonError? ==> r == Fail(UnknownSignOutMessage)
  {
    match fault
    case None => Pass
    case Some(t) => Fail(Wrapped(SignOutFailedPrefix, UnknownSignOutMessage, t))
  }

  // ---------------------------------------------------------------------
  // signIn
  // ---------------------------------------------------------------------

  const IncorrectCredentialsMessage := "Incorrect email or password."
  const UserNotFoundMessage := "User does not exist."
  const UserNotConfirmedMessage := "User is not confirmed. Please confirm your account."
  const AuthFailedPrefix := "Authentication failed: "
  const AuthFailedMessage := "Authentication failed."

  predicate IsRecognisedSignInError(name: string) {
    name in {"NotAuthorizedException", "UserNotFoundException", "UserNotConfirmedException"}
  }

  /** The message of the `Error` that `signIn` throws when the provider throws `t`. */
  function SignInErrorMessage(t: Thrown): (msg: string)
    ensures t.Error? && t.name == "NotAuthorizedException" ==> msg == IncorrectCredentialsMessage
    ensures t.Error? && t.name == "UserNotFoundException" ==> msg == UserNotFoundMessage
    ensures t.Error? && t.name == "UserNotConfirmedException" ==> msg == UserNotConfirmedMessage
    ensures t.Error? && !IsRecognisedSignInError(t.name) ==> msg == AuthFailedPrefix + t.message
    ensures t.NonError? ==> msg == AuthFailedMessage
  {
    match t
    case NonError => AuthFailedMessage
    case Error(name, message) =>
      if name == "NotAuthorizedException" then IncorrectCredentialsMessage
      else if name == "UserNotFoundException" then UserNotFoundMessage
      else if name == "UserNotConfirmedException" then UserNotConfirmedMessage
      else Wrapped(AuthFailedPrefix, AuthFailedMessage, t)
  }

  /** A recognised error name hides the provider's message; any other name
      keeps it, so two different messages stay different. */
  lemma SignInErrorKeepsUnrecognisedMessages(name: string, m1: string, m2: string)
    ensures IsRecognisedSignInError(name) ==>
      SignInErrorMessage(Error(name, m1)) == SignInErrorMessage(Error(name, m2))
    ensures !IsRecognisedSignInError(name) && m1 != m2 ==>
      SignInErrorMessage(Error(name, m1)) != SignInErrorMessage(Error(name, m2))
  {
    if !IsRecognisedSignInError(name) && m1 != m2 {
      assert SignInErrorMessage(Error(name, m1))[|AuthFailedPrefix|..] == m1;
      assert SignInErrorMessage(Error(name, m2))[|AuthFailedPrefix|..] == m2;
    }
  }

  /** `signIn(email, password)`: the provider's `challengeName` becomes
      `nextStep`, and `isSignedIn` is always true on success. */
  function SignIn(provider: Result<Option<string>, Thrown>): (r: Result<SignInOutput, string>)
    ensures r.Success? <==> provider.Success?
    ensures r.Success? ==> r.value.isSignedIn && r.value.nextStep == provider.value
    ensures r.Failure? ==> r.error == SignInErrorMessage(provider.error)
  {
    match provider
    case Success(challengeName) => Success(SignInOutput(true, challengeName))
    case Failure(t) => Failure(SignInErrorMessage(t))
  }

  // ---------------------------------------------------------------------
  // getCurrentAuthenticatedUser
  // ---------------------------------------------------------------------

  /** `attributes.reduce((acc, { Name, Value }) => ({ ...acc, [Name]: Value }), {})`:
      a left fold, so a later entry overrides an earlier one with the same name. */
  function AttributeMap(attributes: seq<Attribute>): (m: map<string, string>)
    ensures forall a :: a in attributes ==> a.name in m
    ensures forall n :: n in m ==> exists a :: a in attributes && a.name == n
  {
    if attributes == [] then map[]
    else
      var init, last := attributes[..|attributes| - 1], attributes[|attributes| - 1];
      assert forall a :: a in attributes ==> a in init || a == last;
      AttributeMap(init)[last.name := last.value]
  }

  /** The value kept for a name is the value of its last entry. */
  lemma {:induction false} AttributeMapLastWins(attributes: seq<Attribute>, i: nat)
    requires i < |attributes|
    requires forall j :: i < j < |attributes| ==> attributes[j].name != attributes[i].name
    ensures attributes[i].name in AttributeMap(attributes)
    ensures AttributeMap(attributes)[attributes[i].name] == attributes[i].value
  {
    if i < |attributes| - 1 {
      var init := attributes[..|attributes| - 1];
      AttributeMapLastWins(init, i);
    }
  }

  /** `attributeMap[name]`, which is `undefined` for a name that is not there. */
  function Get(m: map<string, string>, name: string): Option<string> {
    if name in m then Some(m[name]) else None
  }

  /** The object `getCurrentAuthenticatedUser` resolves with:
      `fullName: attributeMap.name || user.username`,
      `email: attributeMap.email || user.username`. */
  function Projected(u: ProviderUser): (s: Session)
    ensures s.username == u.username && s.userId == u.sub
    ensures s.fullName in {Get(AttributeMap(u.attributes), "name").GetOr(""), u.username}
    ensures s.email in {Get(AttributeMap(u.attributes), "email").GetOr(""), u.username}
    ensures u.username != "" ==> s.fullName != "" && s.email != ""
  {
    var m := AttributeMap(u.attributes);
    Session(u.username, u.sub, Or(Get(m, "name"), u.username), Or(Get(m, "email"), u.username))
  }

  /** The `name` and `email` fields come from the last attribute with that
      name when its value is not empty, and from the username otherwise. */
  lemma ProjectedFromLastAttribute(u: ProviderUser, i: nat)
    requires i < |u.attributes|
    requires forall j :: i < j < |u.attributes| ==> u.attributes[j].name != u.attributes[i].name
    ensures var a, s := u.attributes[i], Projected(u);
      && (a.name == "name" ==> s.fullName == if a.value != "" then a.value else u.username)
      && (a.name == "email" ==> s.email == if a.value != "" then a.value else u.username)
  {
    AttributeMapLastWins(u.attributes, i);
  }

  /** Without a `name` attribute the full name is the username; without an
      `email` attribute, so is the email. */
  lemma ProjectedWithoutAttribute(u: ProviderUser)
    ensures (forall a :: a in u.attributes ==> a.name != "name") ==> Projected(u).fullName == u.username
    ensures (forall a :: a in u.attributes ==> a.name != "email") ==> Projected(u).email == u.username
  {
  }

  const CurrentUserFailedPrefix := "Failed to get current user: "
  const UnknownCurrentUserMessage := "An unknown error occurred while getting the current user."

  /** `getCurrentAuthenticatedUser()`: the projected session, or the
      provider's error wrapped with the current-user prefix. */
  function CurrentAuthenticatedUser(provider: Result<ProviderUser, Thrown>): (r: Result<Session, string>)
    ensures r.Success? <==> provider.Success?
    ensures r.Success? ==> r.value == Projected(provider.value)
    ensures r.Failure? && provider.error.Error? ==> r.error == CurrentUserFailedPrefix + provider.error.message
    ensures r.Failure? && provider.error.NonError? ==> r.error == UnknownCurrentUserMessage
  {
    match provider
    case Success(u) => Success(Projected(u))
    case Failure(t) => Failure(Wrapped(CurrentUserFailedPrefix, UnknownCurrentUserMessage, t))
  }
}
