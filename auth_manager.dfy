/**
 * Authentication (AuthManager): login against the first user with the
 * username, with the failed-attempt counter and the lock it sets, and the
 * current session.
 */
module Authentication {
  import opened Wrappers
  import opened Users
  import UserManagement

  /**
   * One login attempt on the matched user: a locked user is refused with
   * nothing changed; the right password resets the counter and succeeds; a
   * wrong one records a failure.
   */
  function Attempt(c: Credentials, password: string): (bool, Credentials) {
    if c.locked then (false, c)
    else if c.passwordHash == HashPassword(password) then (true, AfterReset(c))
    else (false, AfterFailedLogin(c))
  }

  /** The credentials after a series of login attempts on one user. */
  function Attempts(c: Credentials, passwords: seq<string>): Credentials
    decreases |passwords|
  {
    if passwords == [] then c else Attempts(Attempt(c, passwords[0]).1, passwords[1..])
  }

  /** A login succeeds exactly when the user is unlocked and the password is right; the hash never changes. */
  lemma AttemptSucceedsIff(c: Credentials, password: string)
    ensures Attempt(c, password).0 <==> !c.locked && c.passwordHash == HashPassword(password)
    ensures Attempt(c, password).1.passwordHash == c.passwordHash
    ensures Attempt(c, password).0 ==> Attempt(c, password).1 == c.(failedLoginAttempts := 0)
    ensures c.locked ==> Attempt(c, password).1 == c
    ensures Attempt(c, password).1.locked == (c.locked || (!Attempt(c, password).0 && c.failedLoginAttempts + 1 >= LockThreshold))
  {
  }

  /** However many attempts a locked user makes, with whatever passwords, nothing changes. */
  lemma {:induction false} LockedStaysLocked(c: Credentials, passwords: seq<string>)
    requires c.locked
    ensures Attempts(c, passwords) == c
    decreases |passwords|
  {
    if passwords != [] {
      LockedStaysLocked(c, passwords[1..]);
    }
  }

  /**
   * A run of wrong passwords locks the user exactly when it was locked already
   * or its failures bring the counter to five.
   */
  lemma {:induction false} WrongPasswordsLock(c: Credentials, passwords: seq<string>)
    requires forall i :: 0 <= i < |passwords| ==> HashPassword(passwords[i]) != c.passwordHash
    ensures Attempts(c, passwords).passwordHash == c.passwordHash
    ensures Attempts(c, passwords).locked <==>
      c.locked || (|passwords| > 0 && c.failedLoginAttempts + |passwords| >= LockThreshold)
    decreases |passwords|
  {
    if passwords != [] {
      if c.locked {
        LockedStaysLocked(c, passwords);
      } else {
        var c' := AfterFailedLogin(c);
        assert Attempt(c, passwords[0]).1 == c';
        assert forall i :: 0 <= i < |passwords[1..]| ==> passwords[1..][i] == passwords[i + 1];
        WrongPasswordsLock(c', passwords[1..]);
      }
    }
  }

  /** Five wrong passwords in a row lock a user, and then even the right password is refused. */
  lemma FiveWrongLoginsLock(c: Credentials, passwords: seq<string>, password: string)
    requires c.failedLoginAttempts >= 0 && |passwords| == 5
    requires forall i :: 0 <= i < |passwords| ==> HashPassword(passwords[i]) != c.passwordHash
    ensures Attempts(c, passwords).locked
    ensures !Attempt(Attempts(c, passwords), password).0
  {
    WrongPasswordsLock(c, passwords);
  }

  class AuthManager {
    var users: seq<User>
    var currentUser: Option<User>

    /** new AuthManager(users): nobody logged in. */
    constructor(users: seq<User>)
      ensures this.users == users && currentUser == None
    {
      this.users := users;
      currentUser := None;
    }

    /**
     * login: the first user with the username decides. The outcome and its
     * credentials are one Attempt; the current user becomes that user on
     * success and stays as it was otherwise. No other user changes, and an
     * unknown username changes nothing at all.
     */
    method Login(username: string, password: string) returns (ok: bool)
      modifies set u | u in users
      modifies this`currentUser
      ensures users == old(users)
      ensures match UserManagement.FindByUsername(old(users), username)
        case None => !ok && currentUser == old(currentUser)
        case Some(u) =>
          (ok, u.State()) == Attempt(old(u.State()), password) &&
          currentUser == (if ok then Some(u) else old(currentUser))
      ensures forall v :: v in old(users) && UserManagement.FindByUsername(old(users), username) != Some(v) ==>
        v.State() == old(v.State())
      ensures ok ==> IsLoggedIn() && currentUser.value.username == username
      ensures !ok ==> IsLoggedIn() == old(IsLoggedIn())
    {
      UserManagement.FindByUsernameContract(users, username);
      var i := 0;
      while i < |users|
        invariant 0 <= i <= |users|
        invariant forall j :: 0 <= j < i ==> users[j].username != username
      {
        var user := users[i];
        if user.username == username {
          FindFirst(users, username, i);
          if user.locked {
            return false;
          }
          if user.VerifyPassword(password) {
            user.ResetFailedAttempts();
            currentUser := Some(user);
            return true;
          } else {
            user.RecordFailedLogin();
            return false;
          }
        }
        i := i + 1;
      }
      return false;
    }

    /** logout. */
    method Logout()
      modifies this`currentUser
      ensures currentUser == None && !IsLoggedIn()
    {
      currentUser := None;
    }

    /** getCurrentUser: the user logged in, present exactly when isLoggedIn holds. */
    function CurrentUser(): (r: Option<User>)
      reads this
      ensures r.Some? <==> IsLoggedIn()
    {
      currentUser
    }

    /** isLoggedIn: someone is logged in. */
    predicate IsLoggedIn()
      reads this
    {
      currentUser.Some?
    }

    /** setUsers: the list this manager searches. */
    method SetUsers(users: seq<User>)
      modifies this`users
      ensures this.users == users
    {
      this.users := users;
    }
  }

  /** The user at the first index with the username is the one findByUsername returns. */
  lemma FindFirst(users: seq<User>, username: string, i: nat)
    requires i < |users| && users[i].username == username
    requires forall j :: 0 <= j < i ==> users[j].username != username
    ensures UserManagement.FindByUsername(users, username) == Some(users[i])
  {
    UserManagement.FindByUsernameContract(users, username);
    var k :| 0 <= k < |users| && users[k] == UserManagement.FindByUsername(users, username).value &&
      users[k].username == username && forall j :: 0 <= j < k ==> users[j].username != username;
    assert k == i;
  }
}
