/** The settings page: owner-only access, then the catalogue and
    manager-account edits, each applied to the page state only when its
    remote call succeeds. */
module SettingsPage {
  import opened Common
  import opened SalesTypes
  import Lists
  import AuthContext
  import ProtectedRoute
  import SettingsView

  /** The early returns of the page. */
  datatype Gate = SendToLogin | OwnersOnly | ShowSettings

  /** Signed-out visitors are sent to /login; signed-in visitors who are not
      owners get the access-denied panel; owners get the page. */
  function GateOf(flags: AuthContext.AuthFlags): (g: Gate)
    ensures g == SendToLogin <==> !flags.isAuthenticated
    ensures g == OwnersOnly <==> flags.isAuthenticated && !flags.isProprietaire
    ensures g == ShowSettings <==> flags.isAuthenticated && flags.isProprietaire
  {
    if !flags.isAuthenticated then SendToLogin
    else if !flags.isProprietaire then OwnersOnly
    else ShowSettings
  }

  /** The page's own gate is the route gate for the owner role. */
  lemma GateIsOwnerRoute(user: Option<User>)
    ensures var g := GateOf(AuthContext.FlagsOf(user));
            var d := ProtectedRoute.Decide(user.Some?, user, ProtectedRoute.OneRole(Proprietaire));
            (g == SendToLogin <==> d == ProtectedRoute.Redirect("/login"))
            && (g == OwnersOnly <==> d == ProtectedRoute.AccessDenied)
            && (g == ShowSettings <==> d == ProtectedRoute.RenderChildren)
  {
  }

  /** `games.filter(game => game.id !== id)`: the games with another id, in
      order; none with that id is left and every other one stays. */
  function WithoutGame(games: seq<Game>, id: string): (r: seq<Game>)
    ensures |r| <= |games|
    ensures forall k :: 0 <= k < |r| ==> r[k].id != id && r[k] in games
    ensures forall k :: 0 <= k < |games| && games[k].id != id ==> games[k] in r
  {
    Lists.FilterMembers(games, (g: Game) => g.id != id);
    Lists.Filter(games, (g: Game) => g.id != id)
  }

  /** When exactly one game has the id, deleting it closes the gap. */
  lemma DeleteOneGame(games: seq<Game>, id: string, k: nat)
    requires k < |games| && games[k].id == id
    requires forall j :: 0 <= j < |games| && j != k ==> games[j].id != id
    ensures WithoutGame(games, id) == games[..k] + games[k + 1..]
  {
    Lists.FilterDropsOne(games, (g: Game) => g.id != id, k);
  }

  /** `games.map(game => game.id === id ? updatedGame : game)`. */
  function ReplaceGame(games: seq<Game>, id: string, updated: Game): (r: seq<Game>)
    ensures |r| == |games|
    ensures forall k :: 0 <= k < |games| ==> r[k] == if games[k].id == id then updated else games[k]
  {
    Lists.Replace(games, (g: Game) => g.id == id, updated)
  }

  /** `gerants.filter(gerant => gerant.id !== id)`. */
  function WithoutUser(users: seq<User>, id: string): (r: seq<User>)
    ensures |r| <= |users|
    ensures forall k :: 0 <= k < |r| ==> r[k].id != id && r[k] in users
    ensures forall k :: 0 <= k < |users| && users[k].id != id ==> users[k] in r
  {
    Lists.FilterMembers(users, (u: User) => u.id != id);
    Lists.Filter(users, (u: User) => u.id != id)
  }

  lemma DeleteOneUser(users: seq<User>, id: string, k: nat)
    requires k < |users| && users[k].id == id
    requires forall j :: 0 <= j < |users| && j != k ==> users[j].id != id
    ensures WithoutUser(users, id) == users[..k] + users[k + 1..]
  {
    Lists.FilterDropsOne(users, (u: User) => u.id != id, k);
  }

  /** `allUsers.some(u => u.username === username)`, whatever the role. */
  function UsernameTaken(users: seq<User>, username: string): (b: bool)
    ensures b <==> exists k :: 0 <= k < |users| && users[k].username == username
  {
    Lists.FindIndex(users, (u: User) => u.username == username) < |users|
  }

  datatype AddGerantStatus = GerantAdded | UsernameExists | StoreError

  /** The body sent by addUser: the account without its id. */
  datatype NewUser = NewUser(username: string, password: string, name: string, role: Role)

  /** What the load effect fetches together: the sales data and the managers. */
  datatype SettingsData = SettingsData(games: seq<Game>, sheets: seq<DailySheet>, gerants: seq<User>)

  /** The page state: the catalogue and sheets, the manager list, and the
      signed-in user's flags. */
  class Settings {
    var games: seq<Game>
    var sheets: seq<DailySheet>
    var gerants: seq<User>
    const flags: AuthContext.AuthFlags

    constructor (flags: AuthContext.AuthFlags)
      ensures this.flags == flags && games == [] && sheets == [] && gerants == []
    {
      this.flags := flags;
      games, sheets, gerants := [], [], [];
    }

    /** The load effect: signed out it does nothing; otherwise both fetches
        together either replace the three lists or, when one of them fails,
        leave them as they were. */
    method Load(data: Reply<SettingsData>)
      modifies this`games, this`sheets, this`gerants
      ensures flags.isAuthenticated && data.Ok? ==>
                games == data.value.games && sheets == data.value.sheets && gerants == data.value.gerants
      ensures !flags.isAuthenticated || data.Failure? ==>
                games == old(games) && sheets == old(sheets) && gerants == old(gerants)
    {
      if !flags.isAuthenticated {
        return;
      }
      if data.Ok? {
        games, sheets, gerants := data.value.games, data.value.sheets, data.value.gerants;
      }
    }

    /** handleAddGame: addGame sends the draft and the store answers with the
        id it assigned; the new game goes at the end of the catalogue. */
    method HandleAddGame(draft: SettingsView.GameDraft, assignedId: Reply<string>)
      requires GateOf(flags) == ShowSettings
      modifies this`games
      ensures assignedId.Ok? ==> games == old(games) + [Game(assignedId.value, draft.name, draft.defaultPrice)]
      ensures assignedId.Failure? ==> games == old(games)
    {
      if assignedId.Ok? {
        games := games + [Game(assignedId.value, draft.name, draft.defaultPrice)];
      }
    }

    /** handleUpdateGame: every game with that id becomes the updated record,
        the others keep their place. */
    method HandleUpdateGame(id: string, draft: SettingsView.GameDraft, outcome: Outcome)
      requires GateOf(flags) == ShowSettings
      modifies this`games
      ensures outcome == Done ==> games == ReplaceGame(old(games), id, Game(id, draft.name, draft.defaultPrice))
      ensures outcome == Done && GameById(old(games), id).Some? ==>
                GameById(games, id) == Some(Game(id, draft.name, draft.defaultPrice))
      ensures outcome == Failed ==> games == old(games)
    {
      if outcome == Done {
        var updated := Game(id, draft.name, draft.defaultPrice);
        games := ReplaceGame(games, id, updated);
        if GameById(old(games), id).Some? {
          var k := Lists.FindIndex(old(games), (g: Game) => g.id == id);
          assert games[k] == updated;
        }
      }
    }

    /** handleDeleteGame. */
    method HandleDeleteGame(id: string, outcome: Outcome)
      requires GateOf(flags) == ShowSettings
      modifies this`games
      ensures outcome == Done ==> games == WithoutGame(old(games), id)
      ensures outcome == Done ==> GameById(games, id) == None
      ensures outcome == Failed ==> games == old(games)
    {
      if outcome == Done {
        games := WithoutGame(games, id);
      }
    }

    /** handleDeleteAllSales: no sheet is left; the catalogue is untouched. */
    method HandleDeleteAllSales(outcome: Outcome)
      requires GateOf(flags) == ShowSettings
      modifies this`sheets
      ensures outcome == Done ==> sheets == []
      ensures outcome == Failed ==> sheets == old(sheets)
      ensures games == old(games)
    {
      if outcome == Done {
        sheets := [];
      }
    }

    /** handleAddGerant: a username held by any account, manager or owner,
        stops it; otherwise addUser sends the draft with the manager role and
        the new account, with the id the store assigned, goes at the end of
        the list. A failed call at either step changes nothing. */
    method HandleAddGerant(draft: SettingsView.GerantDraft, allUsers: Reply<seq<User>>, assignedId: Reply<string>)
      returns (status: AddGerantStatus, request: Option<NewUser>)
      requires GateOf(flags) == ShowSettings
      modifies this`gerants
      ensures allUsers.Failure? ==> status == StoreError && request == None
      ensures allUsers.Ok? && UsernameTaken(allUsers.value, draft.username) ==>
                status == UsernameExists && request == None
      ensures allUsers.Ok? && !UsernameTaken(allUsers.value, draft.username) ==>
                request == Some(NewUser(draft.username, draft.password, draft.name, Gerant))
                && (status == GerantAdded <==> assignedId.Ok?)
      ensures status == GerantAdded ==>
                gerants == old(gerants) + [User(assignedId.value, draft.username, draft.password, Gerant, draft.name)]
      ensures status != GerantAdded ==> gerants == old(gerants)
    {
      if allUsers.Failure? {
        return StoreError, None;
      }
      if UsernameTaken(allUsers.value, draft.username) {
        return UsernameExists, None;
      }
      request := Some(NewUser(draft.username, draft.password, draft.name, Gerant));
      if assignedId.Failure? {
        return StoreError, request;
      }
      gerants := gerants + [User(assignedId.value, draft.username, draft.password, Gerant, draft.name)];
      status := GerantAdded;
    }

    /** handleDeleteGerant. */
    method HandleDeleteGerant(id: string, outcome: Outcome)
      requires GateOf(flags) == ShowSettings
      modifies this`gerants
      ensures outcome == Done ==> gerants == WithoutUser(old(gerants), id)
      ensures outcome == Failed ==> gerants == old(gerants)
    {
      if outcome == Done {
        gerants := WithoutUser(gerants, id);
      }
    }
  }
}
