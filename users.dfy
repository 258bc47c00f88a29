/**
 * The mock user directory: a table of credential and profile records, looked
 * up by exact email and password, and extended by registration.
 */
module Users {
  import opened Wrappers
  import opened Text

  /** `'admin' | 'user'`. */
  datatype Role = Admin | Regular

  datatype User = User(
    id: string,
    name: string,
    email: string,
    password: string,
    role: Role,
    avatar: Option<string>,
    createdAt: string)

  /** A user record as it leaves the directory: every field but `password`. */
  datatype PublicUser = PublicUser(
    id: string,
    name: string,
    email: string,
    role: Role,
    avatar: Option<string>,
    createdAt: string)

  /** What a caller supplies to register: a user without `id`, `createdAt` and `role`. */
  datatype Registration = Registration(
    name: string,
    email: string,
    password: string,
    avatar: Option<string>)

  function WithoutPassword(u: User): PublicUser {
    PublicUser(u.id, u.name, u.email, u.role, u.avatar, u.createdAt)
  }

  /** The three records the directory starts with. */
  const SeedUsers: seq<User> := [
    User("1", "John Doe", "john@example.com", "password123", Admin,
         Some("https://i.pravatar.cc/150?img=1"), "2023-01-15T10:30:00Z"),
    User("2", "Jane Smith", "jane@example.com", "password123", Regular,
         Some("https://i.pravatar.cc/150?img=5"), "2023-02-20T14:15:00Z"),
    User("3", "Mike Johnson", "mike@example.com", "password123", Regular,
         None, "2023-03-10T09:45:00Z")
  ]

  /** Exact, case-sensitive equality on both fields; nothing is trimmed. */
  predicate Matches(u: User, email: string, password: string) {
    u.email == email && u.password == password
  }

  /** The position `find` stops at: the first record matching the credentials. */
  function FirstMatch(users: seq<User>, email: string, password: string): (r: Option<nat>)
    ensures r.None? <==> forall i :: 0 <= i < |users| ==> !Matches(users[i], email, password)
    ensures r.Some? ==> r.value < |users| && Matches(users[r.value], email, password)
    ensures r.Some? ==> forall j :: 0 <= j < r.value ==> !Matches(users[j], email, password)
  {
    if users == [] then None
    else if Matches(users[0], email, password) then Some(0)
    else match FirstMatch(users[1..], email, password)
      case None => None
      case Some(k) => Some(k + 1)
  }

  /**
   * `authenticateUser`: the first record with exactly this email and password,
   * with its password removed, or None when no record has both.
   */
  function Authenticate(users: seq<User>, email: string, password: string): (r: Option<PublicUser>)
    ensures r.Some? <==> exists i :: 0 <= i < |users| && Matches(users[i], email, password)
    ensures r.Some? ==> exists i :: 0 <= i < |users| && Matches(users[i], email, password)
                            && (forall j :: 0 <= j < i ==> !Matches(users[j], email, password))
                            && r.value == WithoutPassword(users[i])
  {
    match FirstMatch(users, email, password)
    case None => None
    case Some(i) => Some(WithoutPassword(users[i]))
  }

  predicate EmailTaken(users: seq<User>, email: string) {
    exists i :: 0 <= i < |users| && users[i].email == email
  }

  /** No two records share an email. */
  predicate EmailsDistinct(users: seq<User>) {
    forall i, j :: 0 <= i < j < |users| ==> users[i].email != users[j].email
  }

  /** Record k carries the id `String(k + 1)`, as registration assigns it. */
  predicate IdsFollowPositions(users: seq<User>) {
    forall k :: 0 <= k < |users| ==> users[k].id == DecimalString(k + 1)
  }

  /** In a directory with distinct emails, every record's own credentials find that record. */
  lemma AuthenticateOwnCredentials(users: seq<User>, k: nat)
    requires EmailsDistinct(users) && k < |users|
    ensures Authenticate(users, users[k].email, users[k].password) == Some(WithoutPassword(users[k]))
  {
    var u := users[k];
    match FirstMatch(users, u.email, u.password)
    case Some(i) =>
      assert !(i < k) && !(k < i);
  }

  /** Ids that follow positions are pairwise distinct. */
  lemma IdsAreUnique(users: seq<User>)
    requires IdsFollowPositions(users)
    ensures forall i, j :: 0 <= i < j < |users| ==> users[i].id != users[j].id
  {
    forall i, j | 0 <= i < j < |users| ensures users[i].id != users[j].id {
      DecimalStringInjective(i + 1, j + 1);
    }
  }

  /**
   * The directory: the module-level `mockUsers` array, which only
   * registration changes, and only by appending.
   */
  class UserDirectory {
    var users: seq<User>

    ghost predicate Valid()
      reads this
    {
      EmailsDistinct(users) && IdsFollowPositions(users)
    }

    constructor ()
      ensures Valid() && users == SeedUsers
    {
      users := SeedUsers;
      SeedEmailsAreDistinct();
      assert DecimalString(1) == "1" && DecimalString(2) == "2" && DecimalString(3) == "3";
    }

    /**
     * `registerUser`: refuses an email already present; otherwise appends a
     * record with id `String(length + 1)`, role `user`, the given name, email,
     * password and avatar, stamped with `now`, and returns it without its password.
     */
    method Register(data: Registration, now: string) returns (r: Option<PublicUser>)
      requires Valid()
      modifies this
      ensures Valid()
      ensures EmailTaken(old(users), data.email) ==> r == None && users == old(users)
      ensures !EmailTaken(old(users), data.email) ==>
        && |users| == |old(users)| + 1
        && users[..|old(users)|] == old(users)
        && users[|old(users)|] == User(DecimalString(|old(users)| + 1), data.name, data.email,
                                       data.password, Regular, data.avatar, now)
        && r == Some(WithoutPassword(users[|old(users)|]))
      ensures r.Some? ==> Authenticate(users, data.email, data.password) == r
    {
      if exists i :: 0 <= i < |users| && users[i].email == data.email {
        return None;
      }
      var added := User(DecimalString(|users| + 1), data.name, data.email,
                        data.password, Regular, data.avatar, now);
      users := users + [added];
      AuthenticateOwnCredentials(users, |users| - 1);
      r := Some(WithoutPassword(added));
    }
  }

  /** The seeded admin logs in with the right password and is refused with a wrong one. */
  lemma SeedAdminLogin()
    ensures Authenticate(SeedUsers, "john@example.com", "password123")
         == Some(PublicUser("1", "John Doe", "john@example.com", Admin,
                            Some("https://i.pravatar.cc/150?img=1"), "2023-01-15T10:30:00Z"))
    ensures Authenticate(SeedUsers, "john@example.com", "wrong") == None
  {
    assert Matches(SeedUsers[0], "john@example.com", "password123");
    assert forall i :: 0 <= i < |SeedUsers| ==> SeedUsers[i].password != "wrong";
  }

  /** The seeded emails are pairwise distinct. */
  lemma SeedEmailsAreDistinct()
    ensures EmailsDistinct(SeedUsers)
  {
    assert "john@example.com"[1] != "jane@example.com"[1];
    assert "john@example.com"[0] != "mike@example.com"[0];
    assert "jane@example.com"[0] != "mike@example.com"[0];
  }
}
