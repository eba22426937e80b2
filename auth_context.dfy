/** The session state container (`AuthProvider`): the signed-in user and a
    `loading` flag, the initial lookup, the auth-change listener and the five
    operations it offers to the rest of the application. Every call into the
    hosted auth service is a function parameter: the model is told what the
    awaited call resolved to, or why it was rejected. */
module Auth {
  import opened Common

  /** The `profiles` row of a user. */
  datatype Profile = Profile(fullName: string, companyName: Option<string>, phone: Option<string>, role: Option<string>)

  /** The signed-in user as the auth service reports it; the profile may be missing. */
  datatype User = User(id: string, email: string, createdAt: Option<string>, profile: Option<Profile>)

  /** The fields `updateProfile` hands to the auth service (the profile form's data). */
  datatype ProfileUpdate = ProfileUpdate(fullName: string, companyName: Option<string>, phone: Option<string>)

  /** `prev ? { ...prev, profile } : null`: the user with its profile replaced,
      every other field kept; no user stays no user. */
  function WithProfile(prev: Option<User>, p: Profile): (r: Option<User>)
    ensures r.Some? <==> prev.Some?
    ensures r.Some? ==> r.value.profile == Some(p)
    ensures r.Some? ==> r.value.id == prev.value.id && r.value.email == prev.value.email
                        && r.value.createdAt == prev.value.createdAt
  {
    if prev.Some? then Some(prev.value.(profile := Some(p))) else None
  }

  const UseAuthError := "useAuth must be used within an AuthProvider"

  /** `useAuth`: the provider's value, or the error thrown outside a provider. */
  function UseAuth(context: Option<AuthProvider>): (r: Result<AuthProvider>)
    ensures r.Ok? <==> context.Some?
    ensures r.Ok? ==> r.value == context.value
    ensures r.Err? ==> r.message == UseAuthError
  {
    if context.Some? then Ok(context.value) else Err(UseAuthError)
  }

  class AuthProvider {
    var user: Option<User>
    var loading: bool

    /** Mounting: no user yet, and the initial lookup is pending. */
    constructor ()
      ensures user == None && loading
    {
      user := None;
      loading := true;
    }

    /** `getCurrentUser().then(setUser).finally(() => setLoading(false))`:
        a resolved lookup sets `user`; a rejected one skips `setUser`; both clear `loading`. */
    method FinishInitialLookup(lookup: Result<Option<User>>)
      modifies this
      ensures user == (if lookup.Ok? then lookup.value else old(user))
      ensures !loading
    {
      if lookup.Ok? {
        user := lookup.value;
      }
      loading := false;
    }

    /** The `onAuthStateChange(setUser)` listener: the notified user replaces
        the current one; `loading` is not touched. */
    method OnAuthStateChange(notified: Option<User>)
      modifies this`user
      ensures user == notified
    {
      user := notified;
    }

    /** `signIn`: forwards the credentials and rethrows any failure. It changes
        no state of the provider; a successful sign-in reaches `user` only
        through the change listener. */
    method SignIn(email: string, password: string, backend: (string, string) -> Outcome) returns (r: Outcome)
      ensures r == backend(email, password)
    {
      r := backend(email, password);
    }

    /** `signUp`: forwards email, password and full name; rethrows any failure. */
    method SignUp(email: string, password: string, fullName: string, backend: (string, string, string) -> Outcome)
      returns (r: Outcome)
      ensures r == backend(email, password, fullName)
    {
      r := backend(email, password, fullName);
    }

    /** `signOut`: rethrows any failure; the user is cleared only by the change listener. */
    method SignOut(backend: Outcome) returns (r: Outcome)
      ensures r == backend
    {
      r := backend;
    }

    /** `resetPassword`: forwards the email; rethrows any failure. */
    method ResetPassword(email: string, backend: string -> Outcome) returns (r: Outcome)
      ensures r == backend(email)
    {
      r := backend(email);
    }

    /** `updateProfile`: forwards `updates` unchanged; on success the profile the
        service returns replaces the user's profile, on failure the error is
        rethrown and `user` is unchanged. `loading` is never touched. */
    method UpdateProfile(updates: ProfileUpdate, backend: ProfileUpdate -> Result<Profile>) returns (r: Outcome)
      modifies this`user
      ensures r.Done? <==> backend(updates).Ok?
      ensures r.Failed? ==> r.message == backend(updates).message
      ensures user == if backend(updates).Ok? then WithProfile(old(user), backend(updates).value) else old(user)
    {
      var answer := backend(updates);
      if answer.Ok? {
        user := WithProfile(user, answer.value);
        r := Done;
      } else {
        r := Failed(answer.message);
      }
    }
  }
}
