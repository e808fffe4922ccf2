/**
 * Users of the bank (User, Customer, IndividualUser, BusinessUser, AdminUser):
 * credentials, the failed-login counter and the lock that five failures set.
 */
module Users {
  import opened Wrappers
  import Text

  /** The concrete kind of a user, with the profile fields that kind adds. */
  datatype Role =
    | Individual(fullName: string, address: string, vatNumber: string)
    | Business(businessName: string, vatNumber: string)
    | Admin(adminLevel: int)

  /** getRole(): the constant each subclass returns. */
  function RoleName(r: Role): string {
    match r
    case Individual(_, _, _) => "INDIVIDUAL"
    case Business(_, _) => "BUSINESS"
    case Admin(_) => "ADMIN"
  }

  /** Failed attempts at which a user is locked. */
  const LockThreshold: int := 5

  /**
   * User.hashPassword. The source digests the password with SHA-256 and
   * encodes it in Base64; the model only needs a deterministic function from
   * passwords to stored hashes, and no proof depends on the digest below.
   */
  function HashPassword(password: string): string {
    "sha256:" + Text.Decimal(Digest(password))
  }

  function Digest(s: string): nat {
    if s == [] then 7 else (Digest(s[..|s| - 1]) * 31 + s[|s| - 1] as int) % 4294967296
  }

  /** The fields of a user that change after construction. */
  datatype Credentials = Credentials(passwordHash: string, failedLoginAttempts: int, locked: bool)

  /** recordFailedLogin: one more failure; the fifth and later ones lock. */
  function AfterFailedLogin(c: Credentials): Credentials {
    var n := c.failedLoginAttempts + 1;
    c.(failedLoginAttempts := n, locked := c.locked || n >= LockThreshold)
  }

  /** resetFailedAttempts: the counter back to zero, the lock as it was. */
  function AfterReset(c: Credentials): Credentials {
    c.(failedLoginAttempts := 0)
  }

  /** n consecutive failed logins. */
  function AfterFailedLogins(c: Credentials, n: nat): Credentials
    decreases n
  {
    if n == 0 then c else AfterFailedLogins(AfterFailedLogin(c), n - 1)
  }

  class User {
    const id: string
    const username: string
    const phoneNumber: string
    const role: Role
    var passwordHash: string
    var failedLoginAttempts: int
    var locked: bool

    function State(): Credentials
      reads this
    {
      Credentials(passwordHash, failedLoginAttempts, locked)
    }

    /** A new user stores the hash of its password, with no failures and no lock. */
    constructor(id: string, username: string, password: string, phoneNumber: string, role: Role)
      ensures this.id == id && this.username == username && this.phoneNumber == phoneNumber
      ensures this.role == role
      ensures State() == Credentials(HashPassword(password), 0, false)
    {
      this.id := id;
      this.username := username;
      this.phoneNumber := phoneNumber;
      this.role := role;
      this.passwordHash := HashPassword(password);
      this.failedLoginAttempts := 0;
      this.locked := false;
    }

    predicate VerifyPassword(password: string)
      reads this
    {
      passwordHash == HashPassword(password)
    }

    /** changePassword: the new hash is stored only when the old password verifies. */
    method ChangePassword(oldPassword: string, newPassword: string) returns (r: Outcome<Exception>)
      modifies this
      ensures r == (if old(VerifyPassword(oldPassword)) then Pass
                    else Fail(IllegalArgument("Old password is incorrect")))
      ensures State() == (if r.Pass? then old(State()).(passwordHash := HashPassword(newPassword))
                          else old(State()))
    {
      if VerifyPassword(oldPassword) {
        passwordHash := HashPassword(newPassword);
        r := Pass;
      } else {
        r := Fail(IllegalArgument("Old password is incorrect"));
      }
    }

    method RecordFailedLogin()
      modifies this
      ensures State() == AfterFailedLogin(old(State()))
    {
      failedLoginAttempts := failedLoginAttempts + 1;
      if failedLoginAttempts >= LockThreshold {
        locked := true;
      }
    }

    method ResetFailedAttempts()
      modifies this
      ensures State() == AfterReset(old(State()))
    {
      failedLoginAttempts := 0;
    }

    method SetLocked(locked: bool)
      modifies this
      ensures State() == old(State()).(locked := locked)
    {
      this.locked := locked;
    }
  }

  /**
   * A failed login raises the counter by one, locks from the fifth failure on,
   * and never unlocks; a reset zeroes the counter and keeps the lock.
   */
  lemma FailedLoginCounts(c: Credentials)
    ensures AfterFailedLogin(c).failedLoginAttempts == c.failedLoginAttempts + 1
    ensures AfterFailedLogin(c).locked <==> c.locked || c.failedLoginAttempts + 1 >= LockThreshold
    ensures AfterFailedLogin(c).passwordHash == c.passwordHash
    ensures AfterReset(c).failedLoginAttempts == 0 && AfterReset(c).locked == c.locked
  {
  }

  /**
   * n consecutive failures add n to the counter and lock exactly when the
   * counter reaches five along the way; from zero failures, five lock.
   */
  lemma {:induction false} FailedLoginsLock(c: Credentials, n: nat)
    ensures AfterFailedLogins(c, n).failedLoginAttempts == c.failedLoginAttempts + n
    ensures AfterFailedLogins(c, n).locked <==> c.locked || (n > 0 && c.failedLoginAttempts + n >= LockThreshold)
    ensures AfterFailedLogins(c, n).passwordHash == c.passwordHash
    decreases n
  {
    if n > 0 {
      FailedLoginsLock(AfterFailedLogin(c), n - 1);
    }
  }

  lemma FiveFailuresLock(c: Credentials)
    requires c.failedLoginAttempts >= 0
    ensures AfterFailedLogins(c, 5).locked
  {
    FailedLoginsLock(c, 5);
  }
}
