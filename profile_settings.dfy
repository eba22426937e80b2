/** The profile page (`ProfileSettings`): the profile schema, the form's
    default values, the account panel's fallbacks, and the submit handler that
    hands the form's data to the auth context. */
module Profiles {
  import opened Common
  import opened Text
  import Auth

  const ShortName := "Full name must be at least 2 characters"

  /** `profileSchema`: the full name needs two characters; company name and
      phone may be absent or anything. */
  function ProfileIssues(data: Auth.ProfileUpdate): (r: seq<string>)
    ensures r == [] <==> |data.fullName| >= 2
    ensures r != [] ==> r == [ShortName]
  {
    if |data.fullName| >= 2 then [] else [ShortName]
  }

  predicate ProfileValid(data: Auth.ProfileUpdate) {
    ProfileIssues(data) == []
  }

  /** The user's profile, when there is a user and it has one. */
  function ProfileOf(user: Option<Auth.User>): Option<Auth.Profile> {
    if user.Some? then user.value.profile else None
  }

  /** `defaultValues`: each field is the profile's value when it is present and
      not empty, and `''` otherwise. */
  function DefaultValues(user: Option<Auth.User>): (f: Auth.ProfileUpdate)
    ensures ProfileOf(user).None? ==> f == Auth.ProfileUpdate("", Some(""), Some(""))
    ensures ProfileOf(user).Some? ==> f.fullName == ProfileOf(user).value.fullName
    ensures ProfileOf(user).Some? ==> f.companyName == Some(OrEmpty(ProfileOf(user).value.companyName))
                                      && f.phone == Some(OrEmpty(ProfileOf(user).value.phone))
    ensures f.companyName.Some? && f.phone.Some?
  {
    match ProfileOf(user)
    case None => Auth.ProfileUpdate("", Some(""), Some(""))
    case Some(p) => Auth.ProfileUpdate(p.fullName, Some(OrEmpty(p.companyName)), Some(OrEmpty(p.phone)))
  }

  /** Account Type: `user?.profile?.role || 'Client'`. */
  function DisplayRole(user: Option<Auth.User>): (r: string)
    ensures r != ""
    ensures ProfileOf(user).Some? && ProfileOf(user).value.role.Some? && ProfileOf(user).value.role.value != "" ==>
              r == ProfileOf(user).value.role.value
    ensures ProfileOf(user).None? || ProfileOf(user).value.role.None? || ProfileOf(user).value.role.value == "" ==>
              r == "Client"
  {
    var role := if ProfileOf(user).Some? then OrEmpty(ProfileOf(user).value.role) else "";
    if role != "" then role else "Client"
  }

  /** Member Since: the creation date, or `N/A`. */
  datatype MemberSince = Since(createdAt: string) | NotAvailable

  function MemberSinceOf(user: Option<Auth.User>): (r: MemberSince)
    ensures r.NotAvailable? <==> user.None? || user.value.createdAt.None? || user.value.createdAt.value == ""
    ensures r.Since? ==> Some(r.createdAt) == user.value.createdAt
  {
    if user.Some? && user.value.createdAt.Some? && user.value.createdAt.value != "" then Since(user.value.createdAt.value)
    else NotAvailable
  }

  class ProfileSettings {
    var loading: bool

    constructor ()
      ensures !loading
    {
      loading := false;
    }

    /** `handleSubmit`, called by the form only with data the schema accepted:
        the data goes unchanged to `updateProfile`, whose failure is swallowed
        here; `loading` is cleared in `finally`. */
    method HandleSubmit(auth: Auth.AuthProvider, data: Auth.ProfileUpdate,
                        backend: Auth.ProfileUpdate -> Result<Auth.Profile>)
      requires ProfileValid(data)
      modifies this, auth`user
      ensures !loading
      ensures auth.user == if backend(data).Ok? then Auth.WithProfile(old(auth.user), backend(data).value)
                           else old(auth.user)
    {
      loading := true;
      var settled := auth.UpdateProfile(data, backend);
      assert loading;
      loading := false;
    }
  }
}
