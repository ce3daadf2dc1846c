/**
 * The static user store of src/data/users.ts: `UserService.users`, a copy
 * of the seed list that the static methods search, push to, rewrite and
 * splice. Unlike the demo back end it has no last-administrator guard.
 */
module UserStore {
  import opened Wrappers
  import opened Seqs
  import opened Entities

  const MOCK_USERS: seq<User> := [
    User("1", "admin@shop.com", "Админ", "Главный", Admin,
      Some("https://images.unsplash.com/photo-1472099645785-5658abf4ff4e?w=150")),
    User("2", "user@shop.com", "Пользователь", "Обычный", Customer,
      Some("https://images.unsplash.com/photo-1494790108755-2616b612b789?w=150")),
    User("3", "john.doe@example.com", "Джон", "Доу", Customer,
      Some("https://images.unsplash.com/photo-1507003211169-0a1dd7228f2d?w=150")),
    User("4", "jane.smith@example.com", "Джейн", "Смит", Customer,
      Some("https://images.unsplash.com/photo-1438761681033-6461ffad8d80?w=150"))
  ]

  datatype UserStats = UserStats(total: int, admins: int, users: int)

  /** `getUserStats`: how many users there are, and how many of them have each role. */
  function Stats(users: seq<User>): (s: UserStats)
    ensures s.total == |users|
    ensures s.admins == Count(users, IsAdmin) && s.users == Count(users, IsCustomer)
    ensures 0 <= s.admins <= s.total && 0 <= s.users <= s.total
    ensures s.admins + s.users == s.total
    ensures s.admins == 0 <==> forall i :: 0 <= i < |users| ==> users[i].role == Customer
  {
    FilterComplementLength(users, IsAdmin, IsCustomer);
    var admins := Filter(users, IsAdmin);
    if forall i :: 0 <= i < |users| ==> users[i].role == Customer then
      FilterNoneKept(users, IsAdmin);
      UserStats(|users|, |admins|, |Filter(users, IsCustomer)|)
    else
      var k :| 0 <= k < |users| && users[k].role == Admin;
      assert users[k] in admins;
      UserStats(|users|, |admins|, |Filter(users, IsCustomer)|)
  }

  /** The seed has one administrator among four users. */
  lemma SeedStats()
    ensures Stats(MOCK_USERS) == UserStats(4, 1, 3)
  {
    var u := MOCK_USERS;
    assert |u| == 4 && u[0].role == Admin;
    assert u[1].role == Customer && u[2].role == Customer && u[3].role == Customer;
    StatsOfOneAdminFirst(u);
  }

  /** Four users of whom only the first is an administrator. */
  lemma StatsOfOneAdminFirst(u: seq<User>)
    requires |u| == 4 && u[0].role == Admin
    requires u[1].role == Customer && u[2].role == Customer && u[3].role == Customer
    ensures Stats(u) == UserStats(4, 1, 3)
  {
    assert u == [u[0]] + [u[1], u[2], u[3]];
    FilterNoneKept([u[1], u[2], u[3]], IsAdmin);
    FilterAppend([u[0]], [u[1], u[2], u[3]], IsAdmin);
  }

  class UserService {
    var users: seq<User>

    constructor ()
      ensures users == MOCK_USERS
    {
      users := MOCK_USERS;
    }

    /** `getAllUsers`: a copy of the list. */
    function GetAllUsers(): (r: seq<User>)
      reads this
      ensures r == users
    {
      users
    }

    /** `getUserById`: the first user with the id. */
    function GetUserById(id: string): (r: Option<User>)
      reads this
      ensures r.Some? ==> r.value in users && r.value.id == id
      ensures r.Some? ==> 0 <= FindIndex(users, UserId, id) && r.value == users[FindIndex(users, UserId, id)]
      ensures r.None? <==> forall i :: 0 <= i < |users| ==> users[i].id != id
    {
      Find(users, UserId, id)
    }

    /** `getUserByEmail`: the first user with the email. */
    function GetUserByEmail(email: string): (r: Option<User>)
      reads this
      ensures r.Some? ==> r.value in users && r.value.email == email
      ensures r.Some? ==> 0 <= FindIndex(users, UserEmail, email) && r.value == users[FindIndex(users, UserEmail, email)]
      ensures r.None? <==> forall i :: 0 <= i < |users| ==> users[i].email != email
    {
      Find(users, UserEmail, email)
    }

    /** `addUser`: push the user under the id `Date.now().toString()`, which replaces any id it came with. */
    method AddUser(data: User, stamp: string) returns (u: User)
      modifies this
      ensures u == data.(id := stamp) && users == old(users) + [u]
    {
      u := data.(id := stamp);
      users := users + [u];
    }

    /** `updateUser`: merge the patch into the first user with the id; `None` when there is none. */
    method UpdateUser(id: string, patch: UserPatch) returns (r: Option<User>)
      modifies this
      ensures var i := FindIndex(old(users), UserId, id);
        if i == -1 then r == None && users == old(users)
        else r == Some(PatchUser(old(users)[i], patch)) && users == old(users)[i := r.value]
    {
      var index := FindIndex(users, UserId, id);
      if index == -1 {
        return None;
      }
      users := users[index := PatchUser(users[index], patch)];
      r := Some(users[index]);
    }

    /** `changeUserRole`: `updateUser` with only the role, so nothing but the role changes. */
    method ChangeUserRole(id: string, role: Role) returns (r: Option<User>)
      modifies this
      ensures var i := FindIndex(old(users), UserId, id);
        if i == -1 then r == None && users == old(users)
        else r == Some(old(users)[i].(role := role)) && users == old(users)[i := r.value]
    {
      r := UpdateUser(id, RolePatch(role));
      var i := FindIndex(old(users), UserId, id);
      if i != -1 {
        RolePatchChangesOnlyRole(old(users)[i], role);
      }
    }

    /** `deleteUser`: splice out the first user with the id; false when there is none. */
    method DeleteUser(id: string) returns (deleted: bool)
      modifies this
      ensures var i := FindIndex(old(users), UserId, id);
        if i == -1 then !deleted && users == old(users)
        else deleted && users == old(users)[..i] + old(users)[i + 1..]
    {
      var index := FindIndex(users, UserId, id);
      if index == -1 {
        return false;
      }
      users := users[..index] + users[index + 1..];
      deleted := true;
    }

    /** `resetUsers`. */
    method ResetUsers()
      modifies this
      ensures users == MOCK_USERS
    {
      users := MOCK_USERS;
    }

    /** `getUserStats` on the current list. */
    function GetUserStats(): (s: UserStats)
      reads this
      ensures s == Stats(users)
      ensures s.total == |users| && s.admins + s.users == s.total
      ensures s.admins == Count(users, IsAdmin) && s.users == Count(users, IsCustomer)
    {
      Stats(users)
    }
  }

  /**
   * This store does not protect the last administrator: demoting the only
   * seeded administrator leaves none.
   */
  lemma LastAdminCanBeDemoted()
    ensures FindIndex(MOCK_USERS, UserId, "1") == 0
    ensures Stats(MOCK_USERS[0 := MOCK_USERS[0].(role := Customer)]).admins == 0
  {
    var u := MOCK_USERS[0 := MOCK_USERS[0].(role := Customer)];
    assert forall i :: 0 <= i < |u| ==> u[i].role == Customer;
  }
}
