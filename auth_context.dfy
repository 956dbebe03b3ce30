/** The authentication context: the signed-in user as component state,
    mirrored into the "currentUser" entry by an effect, and the flags
    derived from it. */
module AuthContext {
  import opened Common
  import opened SalesTypes
  import Auth

  /** The first render: the user read from storage, or a crash when the
      stored text does not parse (the initializer does not catch). */
  datatype Startup = Loaded(user: Option<User>) | Crashed

  /** The useState initializer. An absent or empty entry gives no user;
      otherwise JSON.parse decides. */
  function InitialUser(items: map<string, Auth.Stored>): (s: Startup)
    ensures s.Crashed? <==>
              Auth.CurrentUserKey in items && items[Auth.CurrentUserKey].Malformed?
              && items[Auth.CurrentUserKey].text != ""
    ensures s.Loaded? ==> s.user == Auth.GetCurrentUser(items)
  {
    if Auth.CurrentUserKey !in items then Loaded(None)
    else
      match items[Auth.CurrentUserKey]
      case UserJson(u) => Loaded(Some(u))
      case Malformed(text) => if text == "" then Loaded(None) else Crashed
  }

  /** The three flags the context exposes. */
  datatype AuthFlags = AuthFlags(isAuthenticated: bool, isGerant: bool, isProprietaire: bool)

  /** `!!user`, `user?.role === "gerant"`, `user?.role === "proprietaire"`:
      signed in exactly when there is a user, at most one role flag set, and
      none when nobody is signed in. */
  function FlagsOf(user: Option<User>): (f: AuthFlags)
    ensures f.isAuthenticated <==> user.Some?
    ensures !(f.isGerant && f.isProprietaire)
    ensures user.None? ==> !f.isGerant && !f.isProprietaire
    ensures user.Some? ==> (f.isGerant <==> user.value.role == Gerant)
                           && (f.isProprietaire <==> user.value.role == Proprietaire)
  {
    AuthFlags(user.Some?, user.Some? && user.value.role == Gerant, user.Some? && user.value.role == Proprietaire)
  }

  /** The "currentUser" entry holds the user when there is one and is absent
      when there is none. */
  predicate Mirrors(user: Option<User>, items: map<string, Auth.Stored>) {
    if user.Some? then
      Auth.CurrentUserKey in items && items[Auth.CurrentUserKey] == Auth.UserJson(user.value)
    else
      Auth.CurrentUserKey !in items
  }

  /** The store after the persistence effect: the user written or the entry
      removed, every other entry as it was. */
  function Persisted(items: map<string, Auth.Stored>, user: Option<User>): (r: map<string, Auth.Stored>)
    ensures Mirrors(user, r)
    ensures forall k :: k in items && k != Auth.CurrentUserKey ==> k in r && r[k] == items[k]
    ensures forall k :: k in r && k != Auth.CurrentUserKey ==> k in items
  {
    if user.Some? then items[Auth.CurrentUserKey := Auth.UserJson(user.value)]
    else items - {Auth.CurrentUserKey}
  }

  /** While the store mirrors the context, the session helpers read the same
      flags from the store that the context derives from its state. */
  lemma FlagsAgreeWithStorage(user: Option<User>, items: map<string, Auth.Stored>)
    requires Mirrors(user, items)
    ensures FlagsOf(user) == AuthFlags(Auth.IsAuthenticated(items), Auth.IsGerant(items), Auth.IsProprietaire(items))
  {
  }

  /** The provider: its user state and the store it writes to. */
  class AuthProvider {
    var user: Option<User>
    const storage: Auth.LocalStorage

    ghost predicate Valid()
      reads this, storage
    {
      Mirrors(user, storage.items)
    }

    /** Mount: the initializer's user, then the effect's first run. */
    constructor (store: Auth.LocalStorage)
      requires InitialUser(store.items).Loaded?
      modifies store
      ensures storage == store
      ensures user == InitialUser(old(store.items)).user
      ensures store.items == Persisted(old(store.items), user)
      ensures Valid()
    {
      storage := store;
      user := InitialUser(store.items).user;
      new;
      Persist();
    }

    /** The effect that runs after each change of user. */
    method Persist()
      modifies storage
      ensures storage.items == Persisted(old(storage.items), user)
      ensures Valid()
    {
      if user.Some? {
        storage.SetItem(Auth.CurrentUserKey, Auth.UserJson(user.value));
      } else {
        storage.RemoveItem(Auth.CurrentUserKey);
      }
    }

    /** login: the session helper looks the credentials up; a match becomes
      the user and the answer is true, anything else answers false and
      changes nothing. */
    method Login(credentials: Auth.Credentials, response: Reply<seq<User>>) returns (ok: bool)
      requires Valid()
      modifies this`user, storage
      ensures ok <==> response.Ok? && Auth.FindUser(response.value, credentials.username, credentials.password).Some?
      ensures ok ==> user == Auth.FindUser(response.value, credentials.username, credentials.password)
      ensures ok ==> storage.items == old(storage.items)[Auth.CurrentUserKey := Auth.UserJson(user.value)]
      ensures !ok ==> user == old(user) && storage.items == old(storage.items)
      ensures Valid()
    {
      var loggedIn := Auth.Login(storage, credentials.username, credentials.password, response);
      if loggedIn.Some? {
        user := loggedIn;
        Persist();
        return true;
      }
      return false;
    }

    /** logout: no user, and the effect removes the stored entry. */
    method Logout()
      modifies this`user, storage
      ensures user == None
      ensures storage.items == old(storage.items) - {Auth.CurrentUserKey}
      ensures !Flags().isAuthenticated
      ensures Valid()
    {
      user := None;
      Persist();
    }

    function Flags(): AuthFlags
      reads this
    {
      FlagsOf(user)
    }
  }
}
