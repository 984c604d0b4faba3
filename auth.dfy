/** useAuthStore: the signed-in user's profile and the authenticated flag. There
    is no credential check: login and register accept whatever profile they are
    given. */
module Auth {
  import opened Outcomes

  /** A user profile: a flat record of named fields. */
  type Profile = map<string, string>

  /** `{ ...user, ...data }`: spreading null contributes no field, and a field of
      `data` overrides the same field of `user`. */
  function Merge(user: Option<Profile>, data: Profile): (r: Profile)
    ensures forall k :: k in r <==> k in data || (user.Some? && k in user.value)
    ensures forall k :: k in data ==> r[k] == data[k]
    ensures forall k :: k !in data && user.Some? && k in user.value ==> r[k] == user.value[k]
  {
    (if user.Some? then user.value else map[]) + data
  }

  /** Applying the same update twice is the same as applying it once. */
  lemma MergeIdempotent(user: Option<Profile>, data: Profile)
    ensures Merge(Some(Merge(user, data)), data) == Merge(user, data)
  {
  }

  /** Merging into no user gives exactly the update's fields. */
  lemma MergeIntoNone(data: Profile)
    ensures Merge(None, data) == data
  {
  }

  /** An update with no fields keeps an existing profile as it is. */
  lemma MergeNothing(p: Profile)
    ensures Merge(Some(p), map[]) == p
  {
  }

  class AuthStore {
    var user: Option<Profile>
    var isAuthenticated: bool

    constructor ()
      ensures user == None && !isAuthenticated
      ensures Consistent()
    {
      user := None;
      isAuthenticated := false;
    }

    /** The intended link between the two fields: authenticated exactly when a
        user is present. */
    predicate Consistent()
      reads this
    {
      isAuthenticated <==> user.Some?
    }

    /** login(userData). */
    method Login(data: Profile)
      modifies this
      ensures user == Some(data) && isAuthenticated
      ensures Consistent()
    {
      user, isAuthenticated := Some(data), true;
    }

    /** register(userData): the same effect as login. */
    method Register(data: Profile)
      modifies this
      ensures user == Some(data) && isAuthenticated
      ensures Consistent()
    {
      user, isAuthenticated := Some(data), true;
    }

    /** logout(), from any state. */
    method Logout()
      modifies this
      ensures user == None && !isAuthenticated
      ensures Consistent()
    {
      user, isAuthenticated := None, false;
    }

    /** updateProfile(userData): the merged profile is stored whether or not
        anyone is signed in, and the flag is left alone. */
    method UpdateProfile(data: Profile)
      modifies this
      ensures user == Some(Merge(old(user), data))
      ensures isAuthenticated == old(isAuthenticated)
      ensures old(isAuthenticated) && old(Consistent()) ==> Consistent()
    {
      user := Some(Merge(user, data));
    }
  }

  /** Logging out twice leaves the store as logging out once does. */
  method LogoutTwice(store: AuthStore)
    modifies store
    ensures store.user == None && !store.isAuthenticated
  {
    store.Logout();
    var once := (store.user, store.isAuthenticated);
    store.Logout();
    assert (store.user, store.isAuthenticated) == once;
  }

  /** A profile update on a fresh, signed-out store stores a user while the store
      still reports nobody signed in: updateProfile does not keep Consistent. */
  method UpdateWhileSignedOut(data: Profile) returns (store: AuthStore)
    ensures fresh(store)
    ensures store.user == Some(data) && !store.isAuthenticated
    ensures !store.Consistent()
  {
    store := new AuthStore();
    store.UpdateProfile(data);
    MergeIntoNone(data);
  }
}
