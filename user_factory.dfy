/**
 * UserFactory: it creates individual, business and admin users under ids
 * "IND", "BUS" or "ADM" followed by a six-digit counter, one counter per
 * kind, each starting at 1. The Java counters are static; here they are the
 * fields of one factory object.
 */
module UserCreation {
  import Users
  import Text

  /** UserFactory.UserType. */
  datatype UserType = Individual | Business | Admin

  /** The id prefix of each kind. */
  function Prefix(t: UserType): string {
    match t
    case Individual => "IND"
    case Business => "BUS"
    case Admin => "ADM"
  }

  /** String.format(prefix + "%06d", n). */
  function UserId(t: UserType, n: nat): string {
    Prefix(t) + Text.ZeroPad(n, 6)
  }

  /** The role createUser gives each kind: empty profile fields, admin level 1. */
  function DefaultRole(t: UserType): Users.Role {
    match t
    case Individual => Users.Individual("", "", "")
    case Business => Users.Business("", "")
    case Admin => Users.Admin(1)
  }

  /** The kind of user a role belongs to. */
  function TypeOf(r: Users.Role): UserType {
    match r
    case Individual(_, _, _) => Individual
    case Business(_, _) => Business
    case Admin(_) => Admin
  }

  class UserFactory {
    var individualCounter: nat
    var businessCounter: nat
    var adminCounter: nat

    constructor()
      ensures individualCounter == 1 && businessCounter == 1 && adminCounter == 1
    {
      individualCounter := 1;
      businessCounter := 1;
      adminCounter := 1;
    }

    /** The counter of a kind. */
    function Counter(t: UserType): nat
      reads this
    {
      match t
      case Individual => individualCounter
      case Business => businessCounter
      case Admin => adminCounter
    }

    /**
     * peekNextIndividualId, peekNextBusinessId, peekNextAdminId: the id of
     * the kind's current counter; a function, so nothing changes.
     */
    function PeekNextId(t: UserType): string
      reads this
    {
      UserId(t, Counter(t))
    }

    /** createIndividualUser: the next IND id, then the counter moves on. */
    method CreateIndividualUser(username: string, password: string, phoneNumber: string,
                                fullName: string, address: string, vatNumber: string)
      returns (u: Users.User)
      modifies this
      ensures fresh(u) && u.id == old(PeekNextId(Individual))
      ensures u.username == username && u.phoneNumber == phoneNumber
      ensures u.role == Users.Individual(fullName, address, vatNumber)
      ensures u.State() == Users.Credentials(Users.HashPassword(password), 0, false)
      ensures individualCounter == old(individualCounter) + 1
      ensures businessCounter == old(businessCounter) && adminCounter == old(adminCounter)
    {
      var id := "IND" + Text.ZeroPad(individualCounter, 6);
      individualCounter := individualCounter + 1;
      u := new Users.User(id, username, password, phoneNumber, Users.Individual(fullName, address, vatNumber));
    }

    /** createBusinessUser: the next BUS id. */
    method CreateBusinessUser(username: string, password: string, phoneNumber: string,
                              businessName: string, vatNumber: string)
      returns (u: Users.User)
      modifies this
      ensures fresh(u) && u.id == old(PeekNextId(Business))
      ensures u.username == username && u.phoneNumber == phoneNumber
      ensures u.role == Users.Business(businessName, vatNumber)
      ensures u.State() == Users.Credentials(Users.HashPassword(password), 0, false)
      ensures businessCounter == old(businessCounter) + 1
      ensures individualCounter == old(individualCounter) && adminCounter == old(adminCounter)
    {
      var id := "BUS" + Text.ZeroPad(businessCounter, 6);
      businessCounter := businessCounter + 1;
      u := new Users.User(id, username, password, phoneNumber, Users.Business(businessName, vatNumber));
    }

    /** createAdminUser: the next ADM id. */
    method CreateAdminUser(username: string, password: string, phoneNumber: string, adminLevel: int)
      returns (u: Users.User)
      modifies this
      ensures fresh(u) && u.id == old(PeekNextId(Admin))
      ensures u.username == username && u.phoneNumber == phoneNumber
      ensures u.role == Users.Admin(adminLevel)
      ensures u.State() == Users.Credentials(Users.HashPassword(password), 0, false)
      ensures adminCounter == old(adminCounter) + 1
      ensures individualCounter == old(individualCounter) && businessCounter == old(businessCounter)
    {
      var id := "ADM" + Text.ZeroPad(adminCounter, 6);
      adminCounter := adminCounter + 1;
      u := new Users.User(id, username, password, phoneNumber, Users.Admin(adminLevel));
    }

    /**
     * createUser(type, ...): the id peekNext*Id announced, the kind's default
     * profile, and only that kind's counter moves.
     */
    method CreateUser(t: UserType, username: string, password: string, phoneNumber: string)
      returns (u: Users.User)
      modifies this
      ensures fresh(u) && u.id == old(PeekNextId(t)) && u.role == DefaultRole(t)
      ensures u.username == username && u.phoneNumber == phoneNumber
      ensures u.State() == Users.Credentials(Users.HashPassword(password), 0, false)
      ensures forall k :: Counter(k) == old(Counter(k)) + (if k == t then 1 else 0)
    {
      match t
      case Individual =>
        u := CreateIndividualUser(username, password, phoneNumber, "", "", "");
      case Business =>
        u := CreateBusinessUser(username, password, phoneNumber, "", "");
      case Admin =>
        u := CreateAdminUser(username, password, phoneNumber, 1);
    }

    /** setCounters: the next value of each counter. */
    method SetCounters(individual: nat, business: nat, admin: nat)
      modifies this
      ensures individualCounter == individual && businessCounter == business && adminCounter == admin
    {
      individualCounter := individual;
      businessCounter := business;
      adminCounter := admin;
    }
  }

  // -----------------------------------------------------------------------
  // Properties
  // -----------------------------------------------------------------------

  /**
   * An id is the kind's three-letter prefix and the counter in at least six
   * digits; it is nine characters long while the counter is below 10^6.
   */
  lemma UserIdFormat(t: UserType, n: nat)
    ensures |UserId(t, n)| >= 9 && UserId(t, n)[..3] == Prefix(t)
    ensures n < 1000000 ==> |UserId(t, n)| == 9
    ensures Text.AllDigits(UserId(t, n)[3..]) && Text.DigitsValue(UserId(t, n)[3..]) == n
  {
    Text.ZeroPadRoundTrip(n, 6);
    assert Text.Pow10(6) == 1000000;
    assert UserId(t, n)[3..] == Text.ZeroPad(n, 6);
  }

  /** Two ids are equal only for the same kind and the same counter value. */
  lemma UserIdInjective(t1: UserType, n1: nat, t2: UserType, n2: nat)
    requires UserId(t1, n1) == UserId(t2, n2)
    ensures t1 == t2 && n1 == n2
  {
    UserIdFormat(t1, n1);
    UserIdFormat(t2, n2);
    assert Prefix(t1) == UserId(t1, n1)[..3];
  }

  /** The default profile of a kind is a role of that kind with the right getRole() name. */
  lemma DefaultRoleKind(t: UserType)
    ensures TypeOf(DefaultRole(t)) == t
    ensures Users.RoleName(DefaultRole(t)) ==
      (match t case Individual => "INDIVIDUAL" case Business => "BUSINESS" case Admin => "ADMIN")
  {
  }
}
