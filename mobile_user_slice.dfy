/**
 * The mobile app's user slice: the signed-in user, the authentication flag, an error message and a
 * loading flag. Only login and register have pending and rejected cases; logout, profile and
 * style-profile updates change the state only when they succeed.
 */
module MobileUserSlice {
  import opened Wrappers

  datatype StylePreference = StylePreference(styleLineId: string, preferenceScore: real)

  /** The shared style profile; `quizResponses` is an object of answers. */
  datatype StyleProfile = StyleProfile(id: string, userId: string, quizResponses: map<string, string>,
                                       preferences: seq<StylePreference>)

  /** The shared user type; `createdAt` is a timestamp. */
  datatype User = User(id: string, email: string, name: string, createdAt: nat, styleProfile: Option<StyleProfile>)

  class UserSlice {
    var currentUser: Option<User>
    var isAuthenticated: bool
    var error: Option<string>
    var loading: bool

    /** The flag says whether a user is held: the invariant login, register and logout keep. */
    predicate SessionConsistent()
      reads this
    {
      isAuthenticated <==> currentUser.Some?
    }

    /** The initial state: signed out. */
    constructor ()
      ensures currentUser == None && !isAuthenticated && error == None && !loading
      ensures SessionConsistent()
    {
      currentUser := None;
      isAuthenticated := false;
      error := None;
      loading := false;
    }

    /** Login- and register-pending. */
    method AuthPending()
      modifies this
      ensures loading && error == None
      ensures currentUser == old(currentUser) && isAuthenticated == old(isAuthenticated)
      ensures old(SessionConsistent()) ==> SessionConsistent()
    {
      loading := true;
      error := None;
    }

    /** Login- and register-fulfilled: the payload is the signed-in user. */
    method AuthFulfilled(u: User)
      modifies this
      ensures !loading && error == old(error)
      ensures currentUser == Some(u) && isAuthenticated
      ensures SessionConsistent()
    {
      loading := false;
      currentUser := Some(u);
      isAuthenticated := true;
    }

    /** Login- and register-rejected: the payload is the server's message or the fixed fallback. */
    method AuthRejected(payload: string)
      modifies this
      ensures !loading && error == Some(payload)
      ensures currentUser == old(currentUser) && isAuthenticated == old(isAuthenticated)
      ensures old(SessionConsistent()) ==> SessionConsistent()
    {
      loading := false;
      error := Some(payload);
    }

    /** Logout-fulfilled: signed out; loading and error stay. */
    method LogoutFulfilled()
      modifies this
      ensures currentUser == None && !isAuthenticated
      ensures loading == old(loading) && error == old(error)
      ensures SessionConsistent()
    {
      currentUser := None;
      isAuthenticated := false;
    }

    /**
     * UpdateProfile-fulfilled: the payload replaces the user and the flag is left alone, so a
     * profile update received while signed out holds a user without authentication.
     */
    method UpdateProfileFulfilled(u: User)
      modifies this
      ensures currentUser == Some(u)
      ensures isAuthenticated == old(isAuthenticated) && loading == old(loading) && error == old(error)
      ensures SessionConsistent() <==> old(isAuthenticated)
    {
      currentUser := Some(u);
    }

    /** UpdateStyleProfile-fulfilled: the held user's style profile is replaced; without a user nothing changes. */
    method UpdateStyleProfileFulfilled(sp: StyleProfile)
      modifies this
      ensures currentUser == WithStyleProfile(old(currentUser), sp)
      ensures isAuthenticated == old(isAuthenticated) && loading == old(loading) && error == old(error)
      ensures old(SessionConsistent()) ==> SessionConsistent()
    {
      if currentUser.Some? {
        currentUser := Some(currentUser.value.(styleProfile := Some(sp)));
      }
    }
  }

  /** The user after a style-profile update: only the profile of a present user changes. */
  function WithStyleProfile(user: Option<User>, sp: StyleProfile): (r: Option<User>)
    ensures r.Some? <==> user.Some?
    ensures user.Some? ==>
      && r.value.styleProfile == Some(sp)
      && r.value.id == user.value.id && r.value.email == user.value.email
      && r.value.name == user.value.name && r.value.createdAt == user.value.createdAt
  {
    match user
      case None => None
      case Some(u) => Some(u.(styleProfile := Some(sp)))
  }

  /** `selectStyleProfile`: `currentUser?.styleProfile`, with `null` and `undefined` both as `None`. */
  function SelectStyleProfile(user: Option<User>): (r: Option<StyleProfile>)
    ensures user.None? ==> r.None?
    ensures user.Some? ==> r == user.value.styleProfile
  {
    if user.Some? then user.value.styleProfile else None
  }

  /** Selecting the style profile right after a style-profile update with a user present yields that profile. */
  lemma StyleProfileRoundTrip(user: Option<User>, sp: StyleProfile)
    requires user.Some?
    ensures SelectStyleProfile(WithStyleProfile(user, sp)) == Some(sp)
    ensures WithStyleProfile(WithStyleProfile(user, sp), sp) == WithStyleProfile(user, sp)
  {
  }
}
