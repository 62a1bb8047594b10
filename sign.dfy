/** The sign-in / sign-up screen (app/sign.tsx): the sign-out forced on
    entry, the form checks, and the submit flow that chains sign-up,
    sign-in, the metadata write and read, and the navigation to the videos
    page. The identity provider's answers and the table client's faults are
    parameters; navigation is the `navigatedTo` field. */
module Sign {
  import opened Js
  import opened Dynamodb
  import opened Auth
  import opened Videos

  // ---------------------------------------------------------------------
  // The email pattern `\S+@\S+\.\S+`, unanchored
  // ---------------------------------------------------------------------

  /** `t` as a whole has the shape `\S+@\S+\.\S+`: no whitespace, and an `@`
      and a later `.` each with at least one character on both sides. */
  ghost predicate EmailShaped(t: string) {
    && (forall k :: 0 <= k < |t| ==> !IsSpace(t[k]))
    && exists p, q :: 0 < p && p + 1 < q && q + 1 < |t| && t[p] == '@' && t[q] == '.'
  }

  /** `/\S+@\S+\.\S+/.test(s)`: some substring of `s` has that shape. */
  ghost predicate HasEmailShape(s: string) {
    exists i, j :: 0 <= i <= j <= |s| && EmailShaped(s[i..j])
  }

  /** From position `k` on, a run of non-space characters reaches a `.`
      that is followed by a non-space character. */
  function DomainFrom(s: string, k: nat): bool
    decreases |s| - k
  {
    if k >= |s| || IsSpace(s[k]) then false
    else if s[k] == '.' && k + 1 < |s| && !IsSpace(s[k + 1]) then true
    else DomainFrom(s, k + 1)
  }

  /** At position `p` there is an `@` with a non-space character on each
      side and a domain part after it. */
  predicate EmailAt(s: string, p: nat) {
    p < |s| && s[p] == '@' && 0 < p && !IsSpace(s[p - 1]) && p + 1 < |s| && !IsSpace(s[p + 1]) && DomainFrom(s, p + 2)
  }

  /** Some position from `k` on satisfies `EmailAt`. */
  function EmailFrom(s: string, k: nat): bool
    decreases |s| - k
  {
    if k >= |s| then false else EmailAt(s, k) || EmailFrom(s, k + 1)
  }

  lemma {:induction false} DomainWitness(s: string, k: nat) returns (q: nat)
    requires DomainFrom(s, k)
    ensures k <= q && q + 1 < |s| && s[q] == '.' && !IsSpace(s[q + 1])
    ensures forall m :: k <= m < q ==> !IsSpace(s[m])
    decreases |s| - k
  {
    if s[k] == '.' && k + 1 < |s| && !IsSpace(s[k + 1]) {
      q := k;
    } else {
      q := DomainWitness(s, k + 1);
    }
  }

  lemma {:induction false} DomainFromComplete(s: string, k: nat, q: nat)
    requires k <= q && q + 1 < |s| && s[q] == '.' && !IsSpace(s[q + 1])
    requires forall m :: k <= m < q ==> !IsSpace(s[m])
    ensures DomainFrom(s, k)
    decreases q - k
  {
    if k < q && !(s[k] == '.' && k + 1 < |s| && !IsSpace(s[k + 1])) {
      DomainFromComplete(s, k + 1, q);
    }
  }

  lemma {:induction false} EmailFromWitness(s: string, k: nat) returns (p: nat)
    requires EmailFrom(s, k)
    ensures k <= p && EmailAt(s, p)
    decreases |s| - k
  {
    if EmailAt(s, k) {
      p := k;
    } else {
      p := EmailFromWitness(s, k + 1);
    }
  }

  lemma {:induction false} EmailFromComplete(s: string, k: nat, p: nat)
    requires k <= p && EmailAt(s, p)
    ensures EmailFrom(s, k)
    decreases p - k
  {
    if k < p {
      EmailFromComplete(s, k + 1, p);
    }
  }

  /** The email check as the form runs it. */
  function IsEmailValid(s: string): bool {
    EmailFrom(s, 0)
  }

  /** The scan finds a match exactly when the string contains a substring
      of the shape `\S+@\S+\.\S+`. */
  lemma EmailCheckMatchesPattern(s: string)
    ensures IsEmailValid(s) <==> HasEmailShape(s)
  {
    if IsEmailValid(s) {
      var p := EmailFromWitness(s, 0);
      var q := DomainWitness(s, p + 2);
      var t := s[p - 1..q + 2];
      assert t[1] == '@' && t[q - p + 1] == '.';
      assert EmailShaped(t);
    }
    if HasEmailShape(s) {
      var i, j :| 0 <= i <= j <= |s| && EmailShaped(s[i..j]);
      var t := s[i..j];
      var p', q' :| 0 < p' && p' + 1 < q' && q' + 1 < |t| && t[p'] == '@' && t[q'] == '.';
      var p, q := i + p', i + q';
      assert forall m :: i <= m < j ==> !IsSpace(s[m]) by {
        forall m | i <= m < j ensures !IsSpace(s[m]) {
          assert s[m] == t[m - i];
        }
      }
      DomainFromComplete(s, p + 2, q);
      assert EmailAt(s, p);
      EmailFromComplete(s, 0, p);
    }
  }

  // ---------------------------------------------------------------------
  // validateForm
  // ---------------------------------------------------------------------

  /** The form's fields: `isSignUp`, `email`, `password`, `name`. */
  datatype Form = Form(isSignUp: bool, email: string, password: string, name: string)

  const FillAllFieldsMessage := "Please fill in all fields."
  const InvalidEmailMessage := "Please enter a valid email address."
  const ShortPasswordMessage := "Password must be at least " + "8 characters long."

  /** A required field is empty; the name is required only when signing up. */
  predicate MissingField(f: Form) {
    f.email == "" || f.password == "" || (f.isSignUp && f.name == "")
  }

  /** The message `validateForm` puts in `error`, or `None` when it returns
      true. The three checks run in order and only the first failure is
      reported. */
  function FormError(f: Form): (r: Option<string>)
    ensures r == Some(FillAllFieldsMessage) <==> MissingField(f)
    ensures r == Some(InvalidEmailMessage) <==> !MissingField(f) && !HasEmailShape(f.email)
    ensures r == Some(ShortPasswordMessage) <==>
      !MissingField(f) && HasEmailShape(f.email) && Utf16Length(f.password) < 8
    ensures r == None <==> !MissingField(f) && HasEmailShape(f.email) && Utf16Length(f.password) >= 8
  {
    EmailCheckMatchesPattern(f.email);
    assert FillAllFieldsMessage[7] != InvalidEmailMessage[7] && FillAllFieldsMessage[7] != ShortPasswordMessage[7];
    assert InvalidEmailMessage[7] != ShortPasswordMessage[7];
    if MissingField(f) then Some(FillAllFieldsMessage)
    else if !IsEmailValid(f.email) then Some(InvalidEmailMessage)
    else if Utf16Length(f.password) < 8 then Some(ShortPasswordMessage)
    else None
  }

  // ---------------------------------------------------------------------
  // handleSubmit, as a function of the external calls' outcomes
  // ---------------------------------------------------------------------

  /** An external call the screen makes. */
  datatype Call = SignUpCall | SignInCall | SignOutCall | CurrentUserCall | PutItemCall(key: Key) | GetItemCall(key: Key)

  /** The identity provider's answers to the screen's calls: the
      `signUpStep` of a sign-up, the `challengeName` of a sign-in, and the
      current user (the same answer each time it is asked). */
  datatype Identity = Identity(
    signUp: Result<string, Thrown>,
    signIn: Result<Option<string>, Thrown>,
    currentUser: Result<ProviderUser, Thrown>)

  /** How a submit ends: the `error` text, whether the router was sent to
      `/videos`, the external calls made in order, and the item written to
      the table, if any. */
  datatype Run = Run(error: string, navigated: bool, calls: seq<Call>, written: Option<Item>)

  const FurtherActionPrefix := "Sign up requires further action: "
  const VideosPath := "/videos"

  /** The `catch` clause: every failure becomes "Authentication failed: " + its message. */
  function Failed(message: string, calls: seq<Call>, written: Option<Item>): Run {
    Run(AuthFailedPrefix + message, false, calls, written)
  }

  /** The item the sign-up path writes as the code stands: a put of the key
      and the name only, which replaces the whole item. The flow below
      writes `CompleteSeed` instead. */
  function SignUpSeed(userId: string, email: string, name: string): (m: Item)
    ensures KeyOf(m) == Key(userId, email) && m.userFullName == Some(name)
    ensures m.videosWatched.None? && m.vwCount.None? && m.videoRatings.None?
  {
    Composed(userId, email, Patch(None, Some(email), Some(name), None, None, None))
  }

  /** The part of `handleSubmit` after authentication: read the current
      user, read the metadata, navigate. */
  function Finish(f: Form, idp: Identity, getFault: Option<Thrown>, calls: seq<Call>, written: Option<Item>): (r: Run)
    ensures r.navigated <==> idp.currentUser.Success? && getFault.None?
    ensures r.navigated ==> r.error == ""
    ensures !r.navigated ==> AuthFailedPrefix <= r.error
    ensures idp.currentUser.Failure? ==> r.error == AuthFailedPrefix + CurrentAuthenticatedUser(idp.currentUser).error
    ensures idp.currentUser.Success? && getFault.Some? ==>
      r.error == AuthFailedPrefix + StoreErrorMessage(Read, getFault.value)
    ensures calls < r.calls && r.written == written
  {
    match CurrentAuthenticatedUser(idp.currentUser)
    case Failure(m) => Failed(m, calls + [CurrentUserCall], written)
    case Success(s) =>
      var done := calls + [CurrentUserCall, GetItemCall(Key(s.userId, f.email))];
      match getFault
      case Some(t) => Failed(StoreErrorMessage(Read, t), done, written)
      case None => Run("", true, done, written)
  }

  /** Where the `try` block of `handleSubmit` stands once the user is
      authenticated (lines up to the metadata read): either it goes on with
      the calls made so far and the item written, or it has already ended. */
  datatype Stage = Continue(calls: seq<Call>, written: Option<Item>) | Stop(run: Run)

  /** The sign-up path once the provider reports the `DONE` step: sign in,
      read the current user and write the seed record. The calls listed
      include the sign-up call made before. */
  function Enroll(f: Form, idp: Identity, putFault: Option<Thrown>): (r: Stage)
    ensures r.Continue? <==> idp.signIn.Success? && idp.currentUser.Success? && putFault.None?
    ensures r.Continue? ==> r.written == Some(CompleteSeed(idp.currentUser.value.sub, f.email, f.name))
    ensures r.Stop? ==> !r.run.navigated && AuthFailedPrefix <= r.run.error && r.run.written.None?
    ensures idp.signIn.Failure? ==> r.Stop? && r.run.error == AuthFailedPrefix + SignInErrorMessage(idp.signIn.error)
    ensures idp.signIn.Success? && idp.currentUser.Failure? ==>
      r.Stop? && r.run.error == AuthFailedPrefix + CurrentAuthenticatedUser(idp.currentUser).error
    ensures idp.signIn.Success? && idp.currentUser.Success? && putFault.Some? ==>
      r.Stop? && r.run.error == AuthFailedPrefix + StoreErrorMessage(Write, putFault.value)
    ensures r.Continue? ==> |r.calls| == 4 && r.calls[..2] == [SignUpCall, SignInCall]
  {
    match SignIn(idp.signIn)
    case Failure(m) => Stop(Failed(m, [SignUpCall, SignInCall], None))
    case Success(_) =>
      match CurrentAuthenticatedUser(idp.currentUser)
      case Failure(m) => Stop(Failed(m, [SignUpCall, SignInCall, CurrentUserCall], None))
      case Success(s) =>
        var calls := [SignUpCall, SignInCall, CurrentUserCall, PutItemCall(Key(s.userId, f.email))];
        match putFault
        case Some(t) => Stop(Failed(StoreErrorMessage(Write, t), calls, None))
        case None => Continue(calls, Some(CompleteSeed(s.userId, f.email, f.name)))
  }

  /** The sign-up or sign-in part of `handleSubmit` for a valid form. */
  function Authenticate(f: Form, idp: Identity, putFault: Option<Thrown>): (r: Stage)
    ensures r.Continue? ==> idp.signIn.Success?
    ensures r.Continue? && !f.isSignUp ==> r.calls == [SignInCall] && r.written.None?
    ensures r.Continue? && f.isSignUp ==> idp.signUp == Success("DONE") && r.written.Some?
    ensures r.Stop? ==> !r.run.navigated && r.run.error != "" && r.run.written.None?
    ensures f.isSignUp && idp.signUp.Failure? ==> r.Stop? && r.run.error == AuthFailedPrefix + SignUp(idp.signUp).error
    ensures !f.isSignUp && idp.signIn.Failure? ==>
      r.Stop? && r.run.error == AuthFailedPrefix + SignInErrorMessage(idp.signIn.error)
    ensures f.isSignUp && idp.signUp == Success("DONE") ==> r == Enroll(f, idp, putFault)
  {
    if !f.isSignUp then
      match SignIn(idp.signIn)
      case Failure(m) => Stop(Failed(m, [SignInCall], None))
      case Success(_) => Continue([SignInCall], None)
    else
      match SignUp(idp.signUp)
      case Failure(m) => Stop(Failed(m, [SignUpCall], None))
      case Success(step) =>
        if step != "DONE" then Stop(Run(FurtherActionPrefix + step, false, [SignUpCall], None))
        else Enroll(f, idp, putFault)
  }

  /** `handleSubmit` for the form `f`. */
  function Submit(f: Form, idp: Identity, putFault: Option<Thrown>, getFault: Option<Thrown>): (r: Run)
    ensures r.navigated ==> FormError(f).None? && r.error == "" && |r.calls| > 0 && r.calls[|r.calls| - 1].GetItemCall?
    ensures !r.navigated ==> r.error != ""
    ensures r.written.Some? ==> f.isSignUp && FormError(f).None?
    ensures r.calls == [] <==> FormError(f).Some?
    ensures var authenticated := FormError(f).None? && idp.signIn.Success?
          && (f.isSignUp ==> idp.signUp == Success("DONE") && putFault.None?);
      && (authenticated && idp.currentUser.Failure? ==>
            r.error == AuthFailedPrefix + CurrentAuthenticatedUser(idp.currentUser).error)
      && (authenticated && idp.currentUser.Success? && getFault.Some? ==>
            r.error == AuthFailedPrefix + StoreErrorMessage(Read, getFault.value))
  {
    match FormError(f)
    case Some(message) => Run(message, false, [], None)
    case None =>
      match Authenticate(f, idp, putFault)
      case Stop(r) => r
      case Continue(calls, written) => Finish(f, idp, getFault, calls, written)
  }

  /** The calls a submit makes when nothing fails, in order. */
  function Steps(isSignUp: bool, k: Key): seq<Call> {
    if isSignUp then [SignUpCall, SignInCall, CurrentUserCall, PutItemCall(k), CurrentUserCall, GetItemCall(k)]
    else [SignInCall, CurrentUserCall, GetItemCall(k)]
  }

  /** The flow navigates exactly when the form is valid and every awaited
      step succeeds (for a sign-up: a `DONE` step and a successful write);
      then it has made every call in order and shows no error. Every other
      ending shows a message. */
  lemma NavigatesOnlyWhenEveryStepSucceeds(f: Form, idp: Identity, putFault: Option<Thrown>, getFault: Option<Thrown>)
    ensures var r := Submit(f, idp, putFault, getFault);
      && (r.navigated <==>
            && FormError(f).None?
            && (f.isSignUp ==> idp.signUp.Success? && idp.signUp.value == "DONE" && putFault.None?)
            && idp.signIn.Success? && idp.currentUser.Success? && getFault.None?)
      && (r.navigated ==> r.error == "" && r.calls == Steps(f.isSignUp, Key(idp.currentUser.value.sub, f.email)))
      && (!r.navigated ==> r.error != "")
      && (var furtherAction := f.isSignUp && idp.signUp.Success? && idp.signUp.value != "DONE";
          FormError(f).None? && !furtherAction && !r.navigated ==> AuthFailedPrefix <= r.error)
  {
  }

  /** Steps run in order and the first failure ends the flow: the calls
      made are always a prefix of the full sequence. */
  lemma CallsArePrefixOfSteps(f: Form, idp: Identity, putFault: Option<Thrown>, getFault: Option<Thrown>)
    ensures var userId := if idp.currentUser.Success? then idp.currentUser.value.sub else "";
      Submit(f, idp, putFault, getFault).calls <= Steps(f.isSignUp, Key(userId, f.email))
  {
  }

  /** A form that fails validation makes no call and writes nothing; the
      first failing check's message is shown. */
  lemma InvalidFormMakesNoCall(f: Form, idp: Identity, putFault: Option<Thrown>, getFault: Option<Thrown>)
    requires FormError(f).Some?
    ensures Submit(f, idp, putFault, getFault) == Run(FormError(f).value, false, [], None)
  {
  }

  /** A sign-up whose step is not `DONE` stops with the step in the message
      and never signs in. */
  lemma FurtherActionNeverSignsIn(f: Form, idp: Identity, putFault: Option<Thrown>, getFault: Option<Thrown>)
    requires FormError(f).None? && f.isSignUp
    requires idp.signUp.Success? && idp.signUp.value != "DONE"
    ensures var r := Submit(f, idp, putFault, getFault);
      && r.error == FurtherActionPrefix + idp.signUp.value
      && !r.navigated && SignInCall !in r.calls && r.written.None?
  {
  }

  /** Only the sign-up path writes, and it writes the complete seed; a failure
      after the write leaves it in the table. */
  lemma OnlySignUpWrites(f: Form, idp: Identity, putFault: Option<Thrown>, getFault: Option<Thrown>)
    ensures var r := Submit(f, idp, putFault, getFault);
      && (r.written.Some? <==> (exists k :: PutItemCall(k) in r.calls) && putFault.None?)
      && (r.written.Some? ==>
            f.isSignUp && idp.currentUser.Success?
            && r.written.value == CompleteSeed(idp.currentUser.value.sub, f.email, f.name))
  {
  }

  /** An unrecognised sign-in error already carries "Authentication failed: ",
      and the screen adds it again. */
  lemma UnrecognisedSignInErrorPrefixedTwice(f: Form, idp: Identity, putFault: Option<Thrown>, getFault: Option<Thrown>)
    requires FormError(f).None?
    requires f.isSignUp ==> idp.signUp.Success? && idp.signUp.value == "DONE"
    requires idp.signIn.Failure? && idp.signIn.error.Error? && !IsRecognisedSignInError(idp.signIn.error.name)
    ensures Submit(f, idp, putFault, getFault).error == AuthFailedPrefix + AuthFailedPrefix + idp.signIn.error.message
  {
  }

  /** The `nextStep` that `signIn` returns is never looked at: a pending
      challenge does not stop the flow. */
  lemma SignInChallengeIgnored(f: Form, idp: Identity, c1: Option<string>, c2: Option<string>,
                               putFault: Option<Thrown>, getFault: Option<Thrown>)
    ensures Submit(f, idp.(signIn := Success(c1)), putFault, getFault)
         == Submit(f, idp.(signIn := Success(c2)), putFault, getFault)
  {
  }

  // ---------------------------------------------------------------------
  // The sign-up seed and the videos page
  // ---------------------------------------------------------------------

  /** As written, the videos page breaks for a new user: the seed item has
      no `videoRatings` or `videosWatched`, the page loads it unchanged (its
      name is not empty, so no backfill rewrites it), the render's rating
      lookup then throws, and so would the watch handler's spread. */
  lemma SignUpSeedBreaksVideosPage(items: map<Key, Item>, current: Result<ProviderUser, Thrown>,
                                  name: string, videoId: int, rating: int)
    requires current.Success? && name != ""
    ensures var s := Projected(current.value);
      var seed := SignUpSeed(s.userId, s.email, name);
      var load := Loaded(Written(items, Some(seed)), current, None, None);
      && !Complete(seed) && !CountConsistent(seed)
      && load.Shown? && load.metadata == seed && load.written.None?
      && RatingHighlighted(load.metadata, videoId, rating) == Failure(UndefinedRatingsMessage)
      && Watched(load.metadata, videoId) == Failure(NotIterableMessage)
  {
  }

  /** The seed the sign-up path evidently means to write: the default
      record with the name filled in. */
  function CompleteSeed(userId: string, email: string, name: string): (m: Item)
    ensures KeyOf(m) == Key(userId, email) && m.userFullName == Some(name)
    ensures KeyOf(m) == KeyOf(SignUpSeed(userId, email, name))
    ensures m.userFullName == SignUpSeed(userId, email, name).userFullName
    ensures Complete(m) && CountConsistent(m)
  {
    DefaultItem(userId, email).(userFullName := Some(name))
  }

  /** With the complete seed the videos page loads it unchanged and every
      sequence of watches succeeds with a count equal to the list's length;
      the render's rating lookup succeeds too. */
  lemma CompleteSeedSupportsWatches(items: map<Key, Item>, current: Result<ProviderUser, Thrown>,
                                   name: string, videoIds: seq<int>, videoId: int, rating: int)
    requires current.Success? && name != ""
    ensures var s := Projected(current.value);
      var seed := CompleteSeed(s.userId, s.email, name);
      var load := Loaded(Written(items, Some(seed)), current, None, None);
      && load.Shown? && load.metadata == seed && load.written.None?
      && RatingHighlighted(seed, videoId, rating) == Success(false)
      && WatchedAll(seed, videoIds).Success?
      && CountConsistent(WatchedAll(seed, videoIds).value)
      && WatchedAll(seed, videoIds).value.videosWatched == Some(videoIds)
  {
    var s := Projected(current.value);
    WatchesAccumulate(CompleteSeed(s.userId, s.email, name), videoIds);
    assert [] + videoIds == videoIds;
  }

  // ---------------------------------------------------------------------
  // The screen
  // ---------------------------------------------------------------------

  /** The screen's state (`isSignUp`, the three inputs, `error`,
      `isLoading`, the router's target) and the table it writes. The ghost
      `calls` records the external calls made, in order. */
  class SignScreen {
    const store: MetadataStore
    var isSignUp: bool
    var email: string
    var password: string
    var name: string
    var error: string
    var isLoading: bool
    var navigatedTo: Option<string>
    ghost var calls: seq<Call>

    function CurrentForm(): Form
      reads this
    {
      Form(isSignUp, email, password, name)
    }

    constructor (store: MetadataStore)
      ensures this.store == store
      ensures CurrentForm() == Form(false, "", "", "")
      ensures error == "" && isLoading && navigatedTo == None && calls == []
    {
      this.store := store;
      isSignUp, email, password, name := false, "", "", "";
      error, isLoading, navigatedTo := "", true, None;
      calls := [];
    }

    /** The link under the form: `setIsSignUp(!isSignUp)`. */
    method ToggleMode()
      modifies this`isSignUp
      ensures isSignUp == !old(isSignUp)
    {
      isSignUp := !isSignUp;
    }

    /** The three inputs' `onChange` handlers. */
    method Edit(newEmail: string, newPassword: string, newName: string)
      modifies this`email, this`password, this`name
      ensures CurrentForm() == Form(isSignUp, newEmail, newPassword, newName)
    {
      email, password, name := newEmail, newPassword, newName;
    }

    /** `checkAndSignOut`, run when the screen mounts: a current user is
        signed out, the absence of one (a throw) and a failed sign-out are
        both ignored, and loading ends in every case. Since the sign-out's
        outcome is caught and dropped, it is not a parameter. */
    method CheckAndSignOut(current: Result<ProviderUser, Thrown>)
      modifies this`isLoading, this`calls
      ensures !isLoading
      ensures current.Success? ==> calls == old(calls) + [CurrentUserCall, SignOutCall]
      ensures current.Failure? ==> calls == old(calls) + [CurrentUserCall]
    {
      calls := calls + [CurrentUserCall];
      var currentUser := CurrentAuthenticatedUser(current);
      if currentUser.Success? {
        calls := calls + [SignOutCall];
      }
      isLoading := false;
    }

    /** `validateForm`: writes the first failing check's message to `error`. */
    method ValidateForm() returns (ok: bool)
      modifies this`error
      ensures ok <==> FormError(CurrentForm()).None?
      ensures !ok ==> error == FormError(CurrentForm()).value
      ensures ok ==> error == old(error)
    {
      if email == "" || password == "" || (isSignUp && name == "") {
        error := FillAllFieldsMessage;
        return false;
      }
      if !IsEmailValid(email) {
        error := InvalidEmailMessage;
        return false;
      }
      if Utf16Length(password) < 8 {
        error := ShortPasswordMessage;
        return false;
      }
      return true;
    }

    /** The sign-up or sign-in part of `handleSubmit`, after validation. */
    method AuthenticateStep(idp: Identity, putFault: Option<Thrown>) returns (stopped: bool, written: Option<Item>)
      requires store.Valid()
      modifies this`error, this`isLoading, this`calls, store
      ensures store.Valid()
      ensures match Authenticate(CurrentForm(), idp, putFault)
        case Stop(r) =>
          && stopped && error == r.error && !isLoading && !r.navigated
          && calls == old(calls) + r.calls && store.items == Written(old(store.items), r.written)
        case Continue(c, w) =>
          && !stopped && written == w && error == old(error) && isLoading == old(isLoading)
          && calls == old(calls) + c && store.items == Written(old(store.items), w)
    {
      written := None;
      if !isSignUp {
        calls := calls + [SignInCall];
        var signedIn := SignIn(idp.signIn);
        if signedIn.Failure? {
          error, isLoading := AuthFailedPrefix + signedIn.error, false;
          return true, None;
        }
        return false, None;
      }
      calls := calls + [SignUpCall];
      var signUpOutput := SignUp(idp.signUp);
      if signUpOutput.Failure? {
        error, isLoading := AuthFailedPrefix + signUpOutput.error, false;
        return true, None;
      }
      if signUpOutput.value != "DONE" {
        error, isLoading := FurtherActionPrefix + signUpOutput.value, false;
        return true, None;
      }
      stopped, written := EnrollStep(idp, putFault, old(calls));
    }

    /** The sign-up path after the `DONE` step; `base` are the calls made
        before this submit. */
    method EnrollStep(idp: Identity, putFault: Option<Thrown>, ghost base: seq<Call>)
      returns (stopped: bool, written: Option<Item>)
      requires store.Valid() && calls == base + [SignUpCall]
      modifies this`error, this`isLoading, this`calls, store
      ensures store.Valid()
      ensures match Enroll(CurrentForm(), idp, putFault)
        case Stop(r) =>
          && stopped && error == r.error && !isLoading && !r.navigated
          && calls == base + r.calls && store.items == Written(old(store.items), r.written)
        case Continue(c, w) =>
          && !stopped && written == w && error == old(error) && isLoading == old(isLoading)
          && calls == base + c && store.items == Written(old(store.items), w)
    {
      ghost var f := CurrentForm();
      calls := calls + [SignInCall];
      var signedIn := SignIn(idp.signIn);
      if signedIn.Failure? {
        error, isLoading := AuthFailedPrefix + signedIn.error, false;
        return true, None;
      }
      calls := calls + [CurrentUserCall];
      var currentUser := CurrentAuthenticatedUser(idp.currentUser);
      if currentUser.Failure? {
        error, isLoading := AuthFailedPrefix + currentUser.error, false;
        return true, None;
      }
      ghost var key := Key(currentUser.value.userId, email);
      assert f.email == email;
      calls := calls + [PutItemCall(key)];
      assert calls == base + [SignUpCall, SignInCall, CurrentUserCall, PutItemCall(key)];
      var seed := CompleteSeed(currentUser.value.userId, email, name);
      var put := store.UpdateUserMetadata(currentUser.value.userId, email, AsPatch(seed), putFault);
      ComposedSpreadRoundTrip(currentUser.value.userId, email, seed);
      if put.Fail? {
        error, isLoading := AuthFailedPrefix + put.message, false;
        return true, None;
      }
      return false, Some(seed);
    }

    /** The rest of `handleSubmit`: read the current user and the metadata,
        then navigate. `done` are the calls the flow has made so far, after
        the calls of earlier submits in `base`. */
    method FinishStep(idp: Identity, getFault: Option<Thrown>, ghost base: seq<Call>, ghost done: seq<Call>,
                      written: Option<Item>)
      requires store.Valid()
      requires calls == base + done
      modifies this`error, this`isLoading, this`navigatedTo, this`calls
      ensures var r := Finish(CurrentForm(), idp, getFault, done, written);
        && error == (if r.navigated then old(error) else r.error) && !isLoading
        && navigatedTo == (if r.navigated then Some(VideosPath) else old(navigatedTo))
        && calls == base + r.calls
    {
      calls := calls + [CurrentUserCall];
      var currentUser := CurrentAuthenticatedUser(idp.currentUser);
      if currentUser.Failure? {
        error, isLoading := AuthFailedPrefix + currentUser.error, false;
        return;
      }
      calls := calls + [GetItemCall(Key(currentUser.value.userId, email))];
      var userMetadata := store.GetUserMetadata(currentUser.value.userId, email, getFault);
      if userMetadata.Failure? {
        error, isLoading := AuthFailedPrefix + userMetadata.error, false;
        return;
      }
      navigatedTo, isLoading := Some(VideosPath), false;
    }

    /** `handleSubmit`. */
    method HandleSubmit(idp: Identity, putFault: Option<Thrown>, getFault: Option<Thrown>)
      requires store.Valid()
      modifies this`error, this`isLoading, this`navigatedTo, this`calls, store
      ensures store.Valid()
      ensures var r := Submit(CurrentForm(), idp, putFault, getFault);
        && error == r.error
        && navigatedTo == (if r.navigated then Some(VideosPath) else old(navigatedTo))
        && calls == old(calls) + r.calls
        && store.items == Written(old(store.items), r.written)
      ensures isLoading == (if FormError(CurrentForm()).Some? then old(isLoading) else false)
    {
      error := "";
      var ok := ValidateForm();
      if !ok {
        return;
      }
      isLoading := true;
      var stopped, written := AuthenticateStep(idp, putFault);
      if stopped {
        return;
      }
      ghost var done := calls[|old(calls)|..];
      assert calls == old(calls) + done;
      FinishStep(idp, getFault, old(calls), done, written);
    }
  }
}
