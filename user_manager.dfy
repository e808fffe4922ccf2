/**
 * The user registry (UserManager): registration under unique usernames with
 * ids drawn from one shared counter, lookups, locking, and listing by variant.
 */
module UserManagement {
  import opened Wrappers
  import opened Users
  import Text

  /** Integer.MAX_VALUE. */
  const MaxInt: int := 2147483647

  /**
   * Integer.parseInt(id.replaceAll("[^0-9]", "")), or 0 when that throws:
   * an id without digits, or one whose digits exceed an int.
   */
  function IdNumber(id: string): nat {
    var digits := Text.DigitsOnly(id);
    if digits == [] || Text.DigitsValue(digits) > MaxInt then 0 else Text.DigitsValue(digits)
  }

  /** The stream's max() of the id numbers, orElse(0). */
  function MaxIdNumber(users: seq<User>): nat
    decreases |users|
  {
    if users == [] then 0
    else
      var m := MaxIdNumber(users[..|users| - 1]);
      var n := IdNumber(users[|users| - 1].id);
      if m >= n then m else n
  }

  /** The id prefix of each variant. */
  function RolePrefix(role: Role): string {
    match role
    case Individual(_, _, _) => "IND"
    case Business(_, _) => "BUS"
    case Admin(_) => "ADM"
  }

  /** The variant prefix + String.format("%06d", n). */
  function UserId(role: Role, n: nat): string {
    RolePrefix(role) + Text.ZeroPad(n, 6)
  }

  /** findByUsername: the first user with the username, or null. */
  function FindByUsername(users: seq<User>, username: string): (r: Option<User>)
    ensures r.Some? ==> r.value in users
    decreases |users|
  {
    if users == [] then None
    else if users[0].username == username then Some(users[0])
    else FindByUsername(users[1..], username)
  }

  /** findById: the first user with the id, or null. */
  function FindById(users: seq<User>, id: string): Option<User>
    decreases |users|
  {
    if users == [] then None
    else if users[0].id == id then Some(users[0])
    else FindById(users[1..], id)
  }

  /** The users of one variant, in list order (getAllIndividualUsers, getAllBusinessUsers, getAllAdminUsers). */
  function OfRole(users: seq<User>, roleName: string): seq<User>
    decreases |users|
  {
    if users == [] then []
    else
      var last := users[|users| - 1];
      OfRole(users[..|users| - 1], roleName) + (if RoleName(last.role) == roleName then [last] else [])
  }

  predicate UniqueUsernames(users: seq<User>) {
    forall i, j :: 0 <= i < j < |users| ==> users[i].username != users[j].username
  }

  /** Every id's number is below the counter, so the counter's next id is new. */
  predicate IdsBelow(users: seq<User>, counter: nat) {
    forall i :: 0 <= i < |users| ==> IdNumber(users[i].id) < counter
  }

  /**
   * What a register call does: with the username taken it throws and changes
   * nothing; otherwise it appends one new user, whose id carries the counter's
   * value, and moves the counter on.
   */
  ghost predicate Registered(before: seq<User>, counter: nat, after: seq<User>, counterAfter: nat,
                             username: string, password: string, phoneNumber: string, role: Role,
                             r: Result<User, Exception>)
    reads if r.Ok? then {r.value} else {}
  {
    if FindByUsername(before, username).Some? then
      r == Err(IllegalArgument("Username already exists")) && after == before && counterAfter == counter
    else
      r.Ok? && after == before + [r.value] && counterAfter == counter + 1 &&
      r.value.id == UserId(role, counter) && r.value.username == username &&
      r.value.phoneNumber == phoneNumber && r.value.role == role &&
      r.value.State() == Credentials(HashPassword(password), 0, false)
  }

  // -----------------------------------------------------------------------
  // Properties of ids and lookups
  // -----------------------------------------------------------------------

  /** A generated id is the variant's prefix and at least six digits, exactly six while the counter is below 10^6. */
  lemma UserIdFormat(role: Role, n: nat)
    ensures |UserId(role, n)| >= 9 && UserId(role, n)[..3] == RolePrefix(role)
    ensures n < 1000000 ==> |UserId(role, n)| == 9
  {
    Text.ZeroPadRoundTrip(n, 6);
    assert Text.Pow10(6) == 1000000;
  }

  /** The digits of a generated id are the padded counter, which reads back as the counter while it fits an int. */
  lemma UserIdNumber(role: Role, n: nat)
    ensures Text.DigitsOnly(UserId(role, n)) == Text.ZeroPad(n, 6)
    ensures n <= MaxInt ==> IdNumber(UserId(role, n)) == n
  {
    var pad := Text.ZeroPad(n, 6);
    Text.ZeroPadRoundTrip(n, 6);
    Text.DigitsOnlyAppend(RolePrefix(role), pad);
    Text.DigitsOnlyOfDigits(pad);
    Text.DigitsOnlyOfNonDigits(RolePrefix(role));
    assert Text.DigitsOnly(UserId(role, n)) == pad;
    assert |pad| >= 6;
  }

  /** Two generated ids are equal only for the same prefix and the same counter value. */
  lemma UserIdInjective(r1: Role, n1: nat, r2: Role, n2: nat)
    requires UserId(r1, n1) == UserId(r2, n2)
    ensures RolePrefix(r1) == RolePrefix(r2) && n1 == n2
  {
    assert RolePrefix(r1) == UserId(r1, n1)[..3] && RolePrefix(r2) == UserId(r2, n2)[..3];
    assert Text.ZeroPad(n1, 6) == UserId(r1, n1)[3..];
    assert Text.ZeroPad(n2, 6) == UserId(r2, n2)[3..];
    Text.ZeroPadInjective(n1, n2, 6);
  }

  /** The list constructor's maximum is the largest id number, and 0 for an empty list. */
  lemma {:induction false} MaxIdNumberIsMax(users: seq<User>)
    ensures forall i :: 0 <= i < |users| ==> IdNumber(users[i].id) <= MaxIdNumber(users)
    ensures users == [] ==> MaxIdNumber(users) == 0
    ensures users != [] ==> exists i :: 0 <= i < |users| && IdNumber(users[i].id) == MaxIdNumber(users)
    decreases |users|
  {
    if users != [] {
      var init, last := users[..|users| - 1], users[|users| - 1];
      MaxIdNumberIsMax(init);
      forall i | 0 <= i < |users|
        ensures IdNumber(users[i].id) <= MaxIdNumber(users)
      {
        if i < |init| {
          assert users[i] == init[i];
        }
      }
      if init == [] || MaxIdNumber(init) < IdNumber(last.id) {
        assert IdNumber(users[|users| - 1].id) == MaxIdNumber(users);
      } else {
        var i :| 0 <= i < |init| && IdNumber(init[i].id) == MaxIdNumber(init);
        assert users[i] == init[i];
      }
    }
  }

  /** Continuing after the largest id number leaves every existing id below the counter. */
  lemma FromListIdsBelow(users: seq<User>)
    ensures IdsBelow(users, MaxIdNumber(users) + 1)
  {
    MaxIdNumberIsMax(users);
  }

  /** While the counter fits an int and is above every id number, the id it generates is new. */
  lemma FreshIdIsNew(users: seq<User>, counter: nat, role: Role)
    requires IdsBelow(users, counter) && counter <= MaxInt
    ensures FindById(users, UserId(role, counter)).None?
    ensures forall i :: 0 <= i < |users| ==> users[i].id != UserId(role, counter)
  {
    UserIdNumber(role, counter);
    FindByIdContract(users, UserId(role, counter));
  }

  /** findByUsername returns the first user with the username, and null exactly when there is none. */
  lemma {:induction false} FindByUsernameContract(users: seq<User>, username: string)
    ensures FindByUsername(users, username).None? <==> forall i :: 0 <= i < |users| ==> users[i].username != username
    ensures FindByUsername(users, username).Some? ==>
      exists k :: 0 <= k < |users| && users[k] == FindByUsername(users, username).value &&
        users[k].username == username && forall j :: 0 <= j < k ==> users[j].username != username
    decreases |users|
  {
    if users != [] && users[0].username != username {
      FindByUsernameContract(users[1..], username);
      if FindByUsername(users, username).Some? {
        var k :| 0 <= k < |users[1..]| && users[1..][k] == FindByUsername(users, username).value &&
          users[1..][k].username == username && forall j :: 0 <= j < k ==> users[1..][j].username != username;
        assert forall j :: 1 <= j < k + 1 ==> users[j] == users[1..][j - 1];
        assert users[k + 1] == users[1..][k];
      } else {
        assert forall i :: 1 <= i < |users| ==> users[i] == users[1..][i - 1];
      }
    }
  }

  /**
   * findById returns the first user with the id, and null exactly when there
   * is none: the user-list counterpart of BillManagement.FindByIdContract,
   * since UserManager and BillManager each search their own list.
   */
  lemma {:induction false} FindByIdContract(users: seq<User>, id: string)
    ensures FindById(users, id).None? <==> forall i :: 0 <= i < |users| ==> users[i].id != id
    ensures FindById(users, id).Some? ==>
      exists k :: 0 <= k < |users| && users[k] == FindById(users, id).value &&
        users[k].id == id && forall j :: 0 <= j < k ==> users[j].id != id
    decreases |users|
  {
    if users != [] && users[0].id != id {
      FindByIdContract(users[1..], id);
      if FindById(users, id).Some? {
        var k :| 0 <= k < |users[1..]| && users[1..][k] == FindById(users, id).value &&
          users[1..][k].id == id && forall j :: 0 <= j < k ==> users[1..][j].id != id;
        assert forall j :: 1 <= j < k + 1 ==> users[j] == users[1..][j - 1];
        assert users[k + 1] == users[1..][k];
      } else {
        assert forall i :: 1 <= i < |users| ==> users[i] == users[1..][i - 1];
      }
    }
  }

  /** Appending a user whose username is not yet taken keeps the usernames unique. */
  lemma AppendKeepsUnique(users: seq<User>, u: User)
    requires UniqueUsernames(users) && FindByUsername(users, u.username).None?
    ensures UniqueUsernames(users + [u])
    ensures FindByUsername(users + [u], u.username) == Some(u)
  {
    FindByUsernameContract(users, u.username);
    FindByUsernameContract(users + [u], u.username);
    var users' := users + [u];
    forall i | 0 <= i < |users'| - 1
      ensures users'[i].username != u.username
    {
      assert users'[i] == users[i];
    }
    assert users'[|users|] == u;
    var k :| 0 <= k < |users'| && users'[k] == FindByUsername(users', u.username).value &&
      users'[k].username == u.username && forall j :: 0 <= j < k ==> users'[j].username != u.username;
    assert k == |users|;
  }

  /** Appending a user numbered by the counter keeps every id number below the moved-on counter. */
  lemma AppendKeepsIdsBelow(users: seq<User>, counter: nat, u: User, role: Role)
    requires IdsBelow(users, counter) && u.id == UserId(role, counter)
    ensures IdsBelow(users + [u], counter + 1)
  {
    UserIdNumber(role, counter);
    assert forall i :: 0 <= i < |users| ==> (users + [u])[i] == users[i];
  }

  /** The variant filter keeps exactly the users of that variant. */
  lemma {:induction false} OfRoleContract(users: seq<User>, roleName: string)
    ensures forall u :: u in OfRole(users, roleName) <==> u in users && RoleName(u.role) == roleName
    ensures forall u :: u in OfRole(users, roleName) ==> u in users && RoleName(u.role) == roleName
    decreases |users|
  {
    if users != [] {
      var init := users[..|users| - 1];
      OfRoleContract(init, roleName);
      assert users == init + [users[|users| - 1]];
    }
  }

  /** Every user is of exactly one variant, so the three listings together are as long as the list. */
  lemma {:induction false} RolesPartition(users: seq<User>)
    ensures |OfRole(users, "INDIVIDUAL")| + |OfRole(users, "BUSINESS")| + |OfRole(users, "ADMIN")| == |users|
    decreases |users|
  {
    if users != [] {
      RolesPartition(users[..|users| - 1]);
      assert "INDIVIDUAL"[0] != "BUSINESS"[0] && "INDIVIDUAL"[0] != "ADMIN"[0] && "BUSINESS"[0] != "ADMIN"[0];
    }
  }

  class UserManager {
    var users: seq<User>
    var userIdCounter: nat

    /** Usernames are unique and the counter is above every id number. */
    predicate Valid()
      reads this
    {
      UniqueUsernames(users) && IdsBelow(users, userIdCounter)
    }

    /** new UserManager(): no users, the counter at 1. */
    constructor()
      ensures users == [] && userIdCounter == 1 && Valid()
    {
      users := [];
      userIdCounter := 1;
    }

    /** new UserManager(list): the counter continues after the largest id number. */
    constructor FromList(users: seq<User>)
      ensures this.users == users && userIdCounter == MaxIdNumber(users) + 1
      ensures IdsBelow(users, userIdCounter)
    {
      this.users := users;
      userIdCounter := MaxIdNumber(users) + 1;
      FromListIdsBelow(users);
    }

    /** The common body of the three register methods. */
    method Register(username: string, password: string, phoneNumber: string, role: Role)
      returns (r: Result<User, Exception>)
      modifies this
      ensures Registered(old(users), old(userIdCounter), users, userIdCounter, username, password, phoneNumber, role, r)
      ensures r.Ok? ==> fresh(r.value)
      ensures old(Valid()) ==> Valid()
    {
      if FindByUsername(users, username).Some? {
        return Err(IllegalArgument("Username already exists"));
      }
      var id := UserId(role, userIdCounter);
      var u := new User(id, username, password, phoneNumber, role);
      if Valid() {
        AppendKeepsUnique(users, u);
        AppendKeepsIdsBelow(users, userIdCounter, u, role);
      }
      users := users + [u];
      userIdCounter := userIdCounter + 1;
      r := Ok(u);
    }

    /** registerIndividualUser. */
    method RegisterIndividualUser(username: string, password: string, fullName: string, address: string,
                                  phoneNumber: string, vatNumber: string)
      returns (r: Result<User, Exception>)
      modifies this
      ensures Registered(old(users), old(userIdCounter), users, userIdCounter, username, password, phoneNumber,
                         Individual(fullName, address, vatNumber), r)
      ensures r.Ok? ==> fresh(r.value)
      ensures old(Valid()) ==> Valid()
    {
      r := Register(username, password, phoneNumber, Individual(fullName, address, vatNumber));
    }

    /** registerBusinessUser. */
    method RegisterBusinessUser(username: string, password: string, businessName: string,
                                phoneNumber: string, vatNumber: string)
      returns (r: Result<User, Exception>)
      modifies this
      ensures Registered(old(users), old(userIdCounter), users, userIdCounter, username, password, phoneNumber,
                         Business(businessName, vatNumber), r)
      ensures r.Ok? ==> fresh(r.value)
      ensures old(Valid()) ==> Valid()
    {
      r := Register(username, password, phoneNumber, Business(businessName, vatNumber));
    }

    /** registerAdminUser. */
    method RegisterAdminUser(username: string, password: string, phoneNumber: string, adminLevel: int)
      returns (r: Result<User, Exception>)
      modifies this
      ensures Registered(old(users), old(userIdCounter), users, userIdCounter, username, password, phoneNumber,
                         Admin(adminLevel), r)
      ensures r.Ok? ==> fresh(r.value)
      ensures old(Valid()) ==> Valid()
    {
      r := Register(username, password, phoneNumber, Admin(adminLevel));
    }

    /** lockUser. */
    method LockUser(user: User)
      modifies user
      ensures user.State() == old(user.State()).(locked := true)
    {
      user.SetLocked(true);
    }

    /** unlockUser: unlocked, and the failed attempts back to zero. */
    method UnlockUser(user: User)
      modifies user
      ensures user.State() == old(user.State()).(locked := false, failedLoginAttempts := 0)
    {
      user.SetLocked(false);
      user.ResetFailedAttempts();
    }

    /** The instanceof loop of the getAll*Users methods. */
    method UsersOfRole(roleName: string) returns (result: seq<User>)
      ensures result == OfRole(users, roleName)
    {
      result := [];
      var i := 0;
      while i < |users|
        invariant 0 <= i <= |users|
        invariant result == OfRole(users[..i], roleName)
      {
        assert users[..i + 1][..i] == users[..i];
        if RoleName(users[i].role) == roleName {
          result := result + [users[i]];
        }
        i := i + 1;
      }
      assert users[..i] == users;
    }
  }
}
