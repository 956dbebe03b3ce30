/** The session helpers: a login that looks the credentials up in the user
    list the store returns and keeps the match under "currentUser" in the
    browser's key-value store, a logout that drops it, and the role reads. */
module Auth {
  import opened Common
  import opened SalesTypes
  import Lists

  /** The key the signed-in user is kept under. */
  const CurrentUserKey := "currentUser"

  /** A stored text: the JSON of a user record, or text that is not. */
  datatype Stored = UserJson(user: User) | Malformed(text: string)

  /** What the login form hands over. */
  datatype Credentials = Credentials(username: string, password: string)

  /** The browser's key-value store, as far as the session uses it. */
  class LocalStorage {
    var items: map<string, Stored>

    constructor (initial: map<string, Stored>)
      ensures items == initial
    {
      items := initial;
    }

    method SetItem(key: string, value: Stored)
      modifies this
      ensures items == old(items)[key := value]
    {
      items := items[key := value];
    }

    method RemoveItem(key: string)
      modifies this
      ensures items == old(items) - {key}
    {
      items := items - {key};
    }
  }

  predicate Matches(u: User, username: string, password: string) {
    u.username == username && u.password == password
  }

  /** Position of the first user whose username and password both equal the
      given ones, or |users| when there is none. */
  function CredentialIndex(users: seq<User>, username: string, password: string): (i: nat)
    ensures i <= |users|
    ensures i < |users| ==> Matches(users[i], username, password)
    ensures forall k :: 0 <= k < i ==> !Matches(users[k], username, password)
  {
    Lists.FindIndex(users, (u: User) => Matches(u, username, password))
  }

  /** `users.find(u => u.username === username && u.password === password)`:
      an exact match on both fields, the first one when several match. */
  function FindUser(users: seq<User>, username: string, password: string): (r: Option<User>)
    ensures r.None? <==> forall k :: 0 <= k < |users| ==> !Matches(users[k], username, password)
    ensures r.Some? ==>
              CredentialIndex(users, username, password) < |users|
              && r.value == users[CredentialIndex(users, username, password)]
              && r.value.username == username && r.value.password == password
  {
    Lists.Find(users, (u: User) => Matches(u, username, password))
  }

  /** login: a failed request (network error, non-2xx status, unreadable
      body) yields null and touches nothing; otherwise the first exact match
      is stored as the current user and returned, and no match yields null. */
  method Login(storage: LocalStorage, username: string, password: string, response: Reply<seq<User>>)
    returns (r: Option<User>)
    modifies storage
    ensures response.Failure? ==> r == None
    ensures response.Ok? ==> r == FindUser(response.value, username, password)
    ensures r.Some? ==> storage.items == old(storage.items)[CurrentUserKey := UserJson(r.value)]
    ensures r.Some? ==> GetCurrentUser(storage.items) == r
    ensures r.None? ==> storage.items == old(storage.items)
  {
    if response.Failure? {
      return None;
    }
    r := FindUser(response.value, username, password);
    if r.Some? {
      storage.SetItem(CurrentUserKey, UserJson(r.value));
    }
  }

  /** logout: the current user is removed, so nobody is signed in. */
  method Logout(storage: LocalStorage)
    modifies storage
    ensures storage.items == old(storage.items) - {CurrentUserKey}
    ensures GetCurrentUser(storage.items) == None
    ensures !IsAuthenticated(storage.items)
  {
    storage.RemoveItem(CurrentUserKey);
  }

  /** getCurrentUser: the stored user record. An absent or empty entry gives
      null, and so does text that does not parse (the error is caught). */
  function GetCurrentUser(items: map<string, Stored>): (r: Option<User>)
    ensures r.Some? <==> CurrentUserKey in items && items[CurrentUserKey].UserJson?
    ensures r.Some? ==> r.value == items[CurrentUserKey].user
  {
    if CurrentUserKey !in items then None
    else
      match items[CurrentUserKey]
      case UserJson(u) => Some(u)
      // "" is falsy and skips the parse; other text makes JSON.parse throw,
      // and the error is caught
      case Malformed(_) => None
  }

  function IsAuthenticated(items: map<string, Stored>): (b: bool)
    ensures b <==> CurrentUserKey in items && items[CurrentUserKey].UserJson?
  {
    GetCurrentUser(items) != None
  }

  /** hasRole: a current user exists and has that role. */
  function HasRole(items: map<string, Stored>, role: Role): (b: bool)
    ensures b <==> CurrentUserKey in items && items[CurrentUserKey].UserJson?
                   && items[CurrentUserKey].user.role == role
    ensures b ==> IsAuthenticated(items)
  {
    var user := GetCurrentUser(items);
    user.Some? && user.value.role == role
  }

  function IsProprietaire(items: map<string, Stored>): (b: bool)
    ensures b <==> GetCurrentUser(items).Some? && GetCurrentUser(items).value.role == Proprietaire
  {
    HasRole(items, Proprietaire)
  }

  function IsGerant(items: map<string, Stored>): (b: bool)
    ensures b <==> GetCurrentUser(items).Some? && GetCurrentUser(items).value.role == Gerant
  {
    HasRole(items, Gerant)
  }

  /** Nobody is both owner and manager, and nobody signed out is either. */
  lemma RolesExclusive(items: map<string, Stored>)
    ensures !(IsProprietaire(items) && IsGerant(items))
    ensures !IsAuthenticated(items) ==> !IsProprietaire(items) && !IsGerant(items)
  {
  }
}
