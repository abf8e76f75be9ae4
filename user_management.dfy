/** The user and role service: the role hierarchy, the admin-tab row mapper,
    the login match rule, the user list and its updates by id, and the
    session slot holding the current user. The sheet read, the clock and
    the browser's local storage are inputs. */
module UserManagement {
  import opened Base
  import opened Seqs
  import opened Text

  /** `UserRole`: the roles a caller can ask for or assign. */
  datatype Role = Admin | Manager | Viewer {
    function Name(): string {
      match this
      case Admin => "admin"
      case Manager => "manager"
      case Viewer => "viewer"
    }

    /** Position in the hierarchy admin > manager > viewer. */
    function Rank(): nat {
      match this
      case Admin => 3
      case Manager => 2
      case Viewer => 1
    }
  }

  /** The rank of a stored role string; text that names no role ranks
      below every role. */
  function RankOf(role: string): nat {
    if role == Admin.Name() then Admin.Rank()
    else if role == Manager.Name() then Manager.Rank()
    else if role == Viewer.Name() then Viewer.Rank()
    else 0
  }

  /** An account record. `role` is whatever lower-cased text the sheet
      held, so it is a string; `password` is only ever present on records
      handed in by a caller. */
  datatype User = User(
    id: string,
    email: string,
    name: string,
    role: string,
    createdAt: string,
    lastLogin: Option<string>,
    isActive: bool,
    password: Option<string>)

  /** The range of the admin tab every read of this service asks for. */
  const AdminRange: string := "admin!A2:F100"

  /** The one read this service issues: the admin tab of the configured
      spreadsheet. */
  function AdminRead(remote: Remote, spreadsheetId: string): Read<seq<Row>> {
    remote.values(spreadsheetId, AdminRange)
  }

  /** `hasPermission` applied to the user that `getCurrentUser` produced. */
  function Permits(user: Option<User>, required: Role): (b: bool)
    ensures user.None? ==> !b
    ensures user.Some? && !user.value.isActive ==> !b
    ensures b <==> user.Some? && user.value.isActive && RankOf(user.value.role) >= required.Rank()
  {
    if user.None? then false
    else if !user.value.isActive then false
    else if user.value.role == "admin" then true
    else if user.value.role == "manager" && required != Admin then true
    else if user.value.role == "viewer" && required == Viewer then true
    else false
  }

  /** Permission is monotone in the required role: whoever passes a role
      passes every lower one. */
  lemma PermitsMonotone(user: Option<User>, lower: Role, higher: Role)
    requires lower.Rank() <= higher.Rank()
    requires Permits(user, higher)
    ensures Permits(user, lower)
  {
  }

  /** What each active role passes: admin every role, manager all but
      admin, viewer only viewer. */
  lemma PermitsPerRole(u: User, required: Role)
    requires u.isActive
    ensures u.role == "admin" ==> Permits(Some(u), required)
    ensures u.role == "manager" ==> (Permits(Some(u), required) <==> required != Admin)
    ensures u.role == "viewer" ==> (Permits(Some(u), required) <==> required == Viewer)
  {
  }

  /** `rowToUser`: columns A name, B email, C role, D status, E last login.
      Total for every row length; `now` is the clock reading used as the
      creation date. */
  function RowToUser(row: Row, index: nat, now: string): (u: User)
    ensures u.id == NatToString(index + 1) && AllDigits(u.id) && DecimalValue(u.id) == index + 1
    ensures u.name == Cell(row, 0) && u.email == Cell(row, 1)
    ensures u.role != "" && Lower(u.role) == u.role
    ensures Cell(row, 2) == "" ==> u.role == Viewer.Name()
    ensures Cell(row, 2) != "" ==> u.role == Lower(row[2])
    ensures u.isActive <==> Lower(Cell(row, 3)) == "active" || Lower(Cell(row, 3)) == "true"
    ensures u.lastLogin.None? <==> Cell(row, 4) == ""
    ensures u.lastLogin.Some? ==> u.lastLogin.value == row[4]
    ensures u.createdAt == now && u.password.None?
  {
    DecimalRoundTrip(index + 1);
    LowerIdempotent(Cell(row, 2));
    var status := Cell(row, 3);
    User(
      NatToString(index + 1),
      Cell(row, 1),
      Cell(row, 0),
      if Cell(row, 2) == "" then Viewer.Name() else Lower(row[2]),
      now,
      if Cell(row, 4) == "" then None else Some(row[4]),
      Lower(status) == "active" || Lower(status) == "true",
      None)
  }

  /** The admin-tab row a record stands for (name, email, role, status,
      last login). */
  function UserToRow(u: User): Row {
    [u.name, u.email, u.role, if u.isActive then "active" else "inactive", u.lastLogin.GetOr("")]
  }

  /** Writing a record out as a row and mapping the row back gives the
      record, for records the mapper can produce. */
  lemma UserRowRoundTrip(u: User, index: nat)
    requires u.id == NatToString(index + 1)
    requires u.role != "" && Lower(u.role) == u.role
    requires u.lastLogin != Some("") && u.password.None?
    ensures RowToUser(UserToRow(u), index, u.createdAt) == u
  {
    assert Lower("active") == "active";
    assert Lower("inactive") == "inactive";
  }

  /** The lookup condition of `authenticateUser`: the row has a column B
      equal to `email` up to case. */
  predicate RowEmailMatches(row: Row, email: string) {
    |row| >= 2 && Lower(row[1]) == Lower(email)
  }

  function EmailMatcher(email: string): Row -> bool {
    (row: Row) => RowEmailMatches(row, email)
  }

  /** Row `i` is the first row whose email matches. */
  predicate FirstMatch(rows: seq<Row>, email: string, i: nat) {
    i < |rows| && RowEmailMatches(rows[i], email) &&
    forall j :: 0 <= j < i ==> !RowEmailMatches(rows[j], email)
  }

  /** The match logic of `authenticateUser`: the index of the row the login
      succeeds on. The read failing or returning no rows, no row matching,
      or the password differing from the first matching row's column B
      (compared exactly) all give `None`. */
  function LoginMatch(read: Read<seq<Row>>, email: string, password: string): (r: Option<nat>)
    ensures r.Some? <==> read.Ok? && exists i: nat :: FirstMatch(read.value, email, i) && password == read.value[i][1]
    ensures r.Some? ==> read.Ok? && FirstMatch(read.value, email, r.value) && password == read.value[r.value][1]
    ensures r.Some? ==> Lower(password) == Lower(email)
  {
    match read
    case Failed(_) => None
    case Ok(rows) =>
      if |rows| == 0 then None
      else
        match FindFirst(rows, EmailMatcher(email))
        case None => None
        case Some(i) => if password != rows[i][1] then None else Some(i)
  }

  /** The user `authenticateUser` returns: the matched row's record with
      `lastLogin` set to the clock reading. The clock is read twice: once
      by the mapper for the creation date (`created`) and once for the
      login time (`now`). */
  function Authenticate(read: Read<seq<Row>>, email: string, password: string, created: string, now: string): (r: Option<User>)
    ensures r.Some? <==> LoginMatch(read, email, password).Some?
    ensures r.Some? ==> r.value.email == password && Lower(r.value.email) == Lower(email)
    ensures r.Some? ==> r.value.createdAt == created && r.value.lastLogin == Some(now) && r.value.password.None?
    ensures r.Some? ==> var i := LoginMatch(read, email, password).value;
                        r.value == RowToUser(read.value[i], i, created).(lastLogin := Some(now))
  {
    match LoginMatch(read, email, password)
    case None => None
    case Some(i) => Some(RowToUser(read.value[i], i, created).(lastLogin := Some(now)))
  }

  /** Only the first row with a matching email decides: a later row whose
      column B equals the password does not help. */
  lemma FirstMatchingRowDecides()
    ensures LoginMatch(Ok([["Ann", "Bob@x.io"], ["Bob", "bob@x.io"]]), "bob@x.io", "bob@x.io").None?
    ensures LoginMatch(Ok([["Ann", "Bob@x.io"], ["Bob", "bob@x.io"]]), "BOB@X.IO", "Bob@x.io") == Some(0)
  {
    var rows: seq<Row> := [["Ann", "Bob@x.io"], ["Bob", "bob@x.io"]];
    assert Lower("Bob@x.io") == "bob@x.io";
    assert Lower("BOB@X.IO") == "bob@x.io";
    assert FirstMatch(rows, "bob@x.io", 0);
    assert FirstMatch(rows, "BOB@X.IO", 0);
  }

  /** `rows.map(rowToUser)`. */
  function MapUsers(rows: seq<Row>, now: string): (us: seq<User>)
    ensures |us| == |rows|
    ensures forall i :: 0 <= i < |rows| ==> us[i] == RowToUser(rows[i], i, now)
  {
    seq(|rows|, i requires 0 <= i < |rows| => RowToUser(rows[i], i, now))
  }

  /** The row filter of `getUsers`: a name or an email. */
  predicate HasNameOrEmail(u: User) {
    u.name != "" || u.email != ""
  }

  /** `getUsers`: the mapped rows with a name or an email, in row order; no
      users when the read fails or returns nothing. */
  function GetUsers(read: Read<seq<Row>>, now: string): (us: seq<User>)
    ensures read.Failed? ==> us == []
    ensures forall k :: 0 <= k < |us| ==> HasNameOrEmail(us[k])
  {
    match read
    case Failed(_) => []
    case Ok(rows) => if |rows| > 0 then Filter(MapUsers(rows, now), HasNameOrEmail) else []
  }

  /** `getUsers` keeps, in order, exactly the rows with a non-empty name or
      email cell, each mapped with its original row index. */
  lemma GetUsersSelectsRows(rows: seq<Row>, now: string)
    ensures var us := GetUsers(Ok(rows), now);
            var ix := KeptIndices(MapUsers(rows, now), HasNameOrEmail);
            |us| == |ix| &&
            (forall k :: 0 <= k < |us| ==> ix[k] < |rows| && us[k] == RowToUser(rows[ix[k]], ix[k], now)) &&
            (forall k, l :: 0 <= k < l < |ix| ==> ix[k] < ix[l]) &&
            (forall i :: 0 <= i < |rows| ==> (i in ix <==> Cell(rows[i], 0) != "" || Cell(rows[i], 1) != ""))
  {
    var mapped := MapUsers(rows, now);
    FilterIsKeptIndices(mapped, HasNameOrEmail);
  }

  ghost predicate UniqueIds(us: seq<User>) {
    forall j, k :: 0 <= j < k < |us| ==> us[j].id != us[k].id
  }

  /** The users `getUsers` returns have pairwise distinct ids. */
  lemma GetUsersIdsUnique(read: Read<seq<Row>>, now: string)
    ensures UniqueIds(GetUsers(read, now))
  {
    if read.Ok? && |read.value| > 0 {
      var rows := read.value;
      GetUsersSelectsRows(rows, now);
      var us := GetUsers(read, now);
      var ix := KeptIndices(MapUsers(rows, now), HasNameOrEmail);
      forall j, k | 0 <= j < k < |us| ensures us[j].id != us[k].id {
        NatToStringInjective(ix[j] + 1, ix[k] + 1);
      }
    }
  }

  function IdIs(id: string): User -> bool {
    (u: User) => u.id == id
  }

  /** `getUserById`: the first user of `getUsers` with that id. */
  function GetUserById(read: Read<seq<Row>>, now: string, id: string): (r: Option<User>)
    ensures r.None? <==> forall k :: 0 <= k < |GetUsers(read, now)| ==> GetUsers(read, now)[k].id != id
    ensures r.Some? ==> r.value in GetUsers(read, now) && r.value.id == id
  {
    Find(GetUsers(read, now), IdIs(id))
  }

  /** The id of a user is the row number it came from: looking up
      `String(i + 1)` finds row `i` whenever that row holds a name or an
      email. */
  lemma GetUserByIdFindsRow(rows: seq<Row>, now: string, i: nat)
    requires i < |rows| && (Cell(rows[i], 0) != "" || Cell(rows[i], 1) != "")
    ensures GetUserById(Ok(rows), now, NatToString(i + 1)) == Some(RowToUser(rows[i], i, now))
  {
    GetUsersSelectsRows(rows, now);
    GetUsersIdsUnique(Ok(rows), now);
    var us := GetUsers(Ok(rows), now);
    var ix := KeptIndices(MapUsers(rows, now), HasNameOrEmail);
    var k :| 0 <= k < |ix| && ix[k] == i;
    FindUniqueId(us, NatToString(i + 1), k);
  }

  /** In a list with distinct ids, looking up an entry's id finds that
      entry. */
  lemma FindUniqueId(us: seq<User>, id: string, k: nat)
    requires UniqueIds(us) && k < |us| && us[k].id == id
    ensures Find(us, IdIs(id)) == Some(us[k])
  {
    var r := Find(us, IdIs(id));
    var m :| 0 <= m < |us| && us[m] == r.value && IdIs(id)(us[m]);
    assert m == k;
  }

  /** `findIndex` by id over a user list. */
  function IndexOfId(users: seq<User>, id: string): Option<nat> {
    FindFirst(users, IdIs(id))
  }

  /** The list after `updateUserRole`. */
  function WithRole(users: seq<User>, id: string, role: Role): (r: seq<User>)
    ensures |r| == |users|
  {
    match IndexOfId(users, id)
    case None => users
    case Some(i) => users[i := users[i].(role := role.Name())]
  }

  /** The list after `toggleUserActive`. */
  function Toggled(users: seq<User>, id: string): (r: seq<User>)
    ensures |r| == |users|
    ensures forall j :: 0 <= j < |users| ==> r[j].id == users[j].id
  {
    match IndexOfId(users, id)
    case None => users
    case Some(i) => users[i := users[i].(isActive := !users[i].isActive)]
  }

  /** On a list with distinct ids, a role update changes the role of the
      entry with that id and nothing else. */
  lemma WithRoleChangesOnlyTarget(users: seq<User>, id: string, role: Role)
    requires UniqueIds(users)
    ensures forall j :: 0 <= j < |users| ==>
      WithRole(users, id, role)[j] == if users[j].id == id then users[j].(role := role.Name()) else users[j]
  {
  }

  /** On a list with distinct ids, a toggle flips `isActive` of the entry
      with that id and changes nothing else. */
  lemma ToggledChangesOnlyTarget(users: seq<User>, id: string)
    requires UniqueIds(users)
    ensures forall j :: 0 <= j < |users| ==>
      Toggled(users, id)[j] == if users[j].id == id then users[j].(isActive := !users[j].isActive) else users[j]
  {
  }

  /** Toggling the same id twice restores the list. */
  lemma ToggledTwice(users: seq<User>, id: string)
    ensures Toggled(Toggled(users, id), id) == users
  {
    FindFirstAgrees(users, Toggled(users, id), IdIs(id));
  }

  /** The in-memory list `updateUserRole` and `toggleUserActive` work on,
      updated in place. */
  class UserList {
    var users: seq<User>

    constructor (users: seq<User>)
      ensures this.users == users
    {
      this.users := users;
    }

    method UpdateRole(userId: string, newRole: Role) returns (r: Option<User>)
      modifies this
      ensures users == WithRole(old(users), userId, newRole)
      ensures r.None? <==> IndexOfId(old(users), userId).None?
      ensures r.Some? ==> r.value == users[IndexOfId(old(users), userId).value]
    {
      var index := IndexOfId(users, userId);
      if index.None? {
        return None;
      }
      var i := index.value;
      users := users[i := users[i].(role := newRole.Name())];
      r := Some(users[i]);
    }

    method ToggleActive(userId: string) returns (r: Option<User>)
      modifies this
      ensures users == Toggled(old(users), userId)
      ensures r.None? <==> IndexOfId(old(users), userId).None?
      ensures r.Some? ==> r.value == users[IndexOfId(old(users), userId).value]
    {
      var index := IndexOfId(users, userId);
      if index.None? {
        return None;
      }
      var i := index.value;
      users := users[i := users[i].(isActive := !users[i].isActive)];
      r := Some(users[i]);
    }
  }

  /** `updateUserRole`: fetches the users afresh, updates the one with that
      id in the fetched list and returns it; nothing is written back. */
  method UpdateUserRole(remote: Remote, spreadsheetId: string, now: string, userId: string, newRole: Role)
    returns (r: Option<User>)
    ensures var found := GetUserById(AdminRead(remote, spreadsheetId), now, userId);
            r == if found.None? then None else Some(found.value.(role := newRole.Name()))
  {
    var users := GetUsers(AdminRead(remote, spreadsheetId), now);
    var list := new UserList(users);
    r := list.UpdateRole(userId, newRole);
  }

  /** `toggleUserActive`: fetches the users afresh, flips `isActive` of the
      one with that id in the fetched list and returns it; nothing is
      written back. */
  method ToggleUserActive(remote: Remote, spreadsheetId: string, now: string, userId: string)
    returns (r: Option<User>)
    ensures var found := GetUserById(AdminRead(remote, spreadsheetId), now, userId);
            r == if found.None? then None else Some(found.value.(isActive := !found.value.isActive))
  {
    var users := GetUsers(AdminRead(remote, spreadsheetId), now);
    var list := new UserList(users);
    r := list.ToggleActive(userId);
  }

  /** The argument of `addUser`: a record without id and creation date. */
  datatype NewUser = NewUser(
    email: string,
    name: string,
    role: Role,
    lastLogin: Option<string>,
    isActive: bool,
    password: Option<string>)

  /** `addUser`: the record gets the clock's millisecond count as its id and
      the clock's ISO reading as its creation date; nothing is written. */
  function AddUser(user: NewUser, nowMillis: nat, nowIso: string): (u: User)
    ensures u.id == NatToString(nowMillis) && AllDigits(u.id) && DecimalValue(u.id) == nowMillis
    ensures u.createdAt == nowIso
    ensures u.email == user.email && u.name == user.name && u.role == user.role.Name()
    ensures u.lastLogin == user.lastLogin && u.isActive == user.isActive && u.password == user.password
  {
    DecimalRoundTrip(nowMillis);
    User(NatToString(nowMillis), user.email, user.name, user.role.Name(), nowIso,
         user.lastLogin, user.isActive, user.password)
  }

  /** The session slot: the module-level `currentUser` and the
      `currentUser` entry of local storage, as a stored record. */
  class Session {
    var currentUser: Option<User>
    var stored: Option<User>

    /** At load nothing is current; storage holds what an earlier session
        left there. */
    constructor (saved: Option<User>)
      ensures currentUser == None && stored == saved
    {
      currentUser := None;
      stored := saved;
    }

    /** Neither the slot nor storage holds a password. */
    ghost predicate PasswordFree()
      reads this
    {
      (currentUser.Some? ==> currentUser.value.password.None?) &&
      (stored.Some? ==> stored.value.password.None?)
    }

    /** `getCurrentUser`, loading the stored record when nothing is
        current. */
    method GetCurrentUser() returns (u: Option<User>)
      modifies this
      ensures stored == old(stored)
      ensures old(currentUser).Some? ==> currentUser == old(currentUser)
      ensures old(currentUser).None? ==> currentUser == stored
      ensures u == currentUser
      ensures old(PasswordFree()) ==> PasswordFree()
    {
      if currentUser.None? {
        currentUser := stored;
      }
      u := currentUser;
    }

    /** `setCurrentUser`: the record without its password becomes current
        and is stored. */
    method SetCurrentUser(user: User)
      modifies this
      ensures currentUser == Some(user.(password := None))
      ensures stored == currentUser
      ensures PasswordFree()
    {
      currentUser := Some(user.(password := None));
      stored := currentUser;
    }

    /** `logoutUser`: no current user, and nothing stored to reload. */
    method LogoutUser()
      modifies this
      ensures currentUser == None && stored == None
      ensures PasswordFree()
    {
      currentUser := None;
      stored := None;
    }

    /** `hasPermission` against the current user. */
    method HasPermission(required: Role) returns (b: bool)
      modifies this
      ensures stored == old(stored)
      ensures currentUser == if old(currentUser).Some? then old(currentUser) else old(stored)
      ensures b == Permits(if old(currentUser).Some? then old(currentUser) else old(stored), required)
    {
      var user := GetCurrentUser();
      b := Permits(user, required);
    }

    /** `authenticateUser`: on success the returned user, without its
        password, becomes current; every failure leaves the session as it
        was. */
    method AuthenticateUser(remote: Remote, spreadsheetId: string, email: string, password: string, created: string, now: string)
      returns (r: Option<User>)
      modifies this
      ensures r == Authenticate(AdminRead(remote, spreadsheetId), email, password, created, now)
      ensures r.Some? ==> currentUser == Some(r.value) && stored == currentUser
      ensures r.None? ==> currentUser == old(currentUser) && stored == old(stored)
    {
      var data := AdminRead(remote, spreadsheetId);
      if data.Failed? {
        return None;
      }
      var rows := data.value;
      if |rows| == 0 {
        return None;
      }
      var index := FindFirst(rows, EmailMatcher(email));
      if index.None? {
        return None;
      }
      var i := index.value;
      var userEmail := rows[i][1];
      if password != userEmail {
        return None;
      }
      var user := RowToUser(rows[i], i, created);
      user := user.(lastLogin := Some(now));
      SetCurrentUser(user);
      r := Some(user);
    }
  }

  /** After logout, the next `getCurrentUser` finds nobody and no role is
      permitted. */
  method LogoutThenCheck(session: Session, required: Role) returns (u: Option<User>, b: bool)
    modifies session
    ensures u.None? && !b
    ensures session.currentUser == None && session.stored == None
  {
    session.LogoutUser();
    u := session.GetCurrentUser();
    b := session.HasPermission(required);
  }
}
