/**
 * UserDAOCsv: the data-access object that keeps the bank's users in a list
 * and writes them to users.csv, one line per user. The list operations
 * (save, update, delete, the finders) are modelled on the `users` field; the
 * line format is modelled by formatUser, this class's own quote-toggling
 * parseCsvLine and parseUser.
 */
module UserStore {
  import opened Wrappers
  import opened Users
  import Text
  import Csv
  import UserManagement

  // -----------------------------------------------------------------------
  // The list
  // -----------------------------------------------------------------------

  /** The position of the first user with the id, if there is one. */
  function FirstIndexOfId(users: seq<User>, id: string): (r: Option<nat>)
    ensures r.Some? ==> (r.value < |users| && users[r.value].id == id &&
                         forall j :: 0 <= j < r.value ==> users[j].id != id)
    ensures r.None? ==> forall j :: 0 <= j < |users| ==> users[j].id != id
    decreases |users|
  {
    if users == [] then None
    else if users[0].id == id then Some(0)
    else
      match FirstIndexOfId(users[1..], id)
      case None =>
        assert forall j :: 1 <= j < |users| ==> users[j] == users[1..][j - 1];
        None
      case Some(k) =>
        assert forall j :: 1 <= j < k + 1 ==> users[j] == users[1..][j - 1];
        Some(k + 1)
  }

  /**
   * save, and update: the user takes the place of the first user with its
   * id; with no such user it is appended.
   */
  function Stored(users: seq<User>, u: User): seq<User> {
    match FirstIndexOfId(users, u.id)
    case Some(i) => users[i := u]
    case None => users + [u]
  }

  /** deleteById (removeIf): every user with the id goes, the rest keep their order. */
  function WithoutId(users: seq<User>, id: string): seq<User>
    decreases |users|
  {
    if users == [] then []
    else
      var last := users[|users| - 1];
      WithoutId(users[..|users| - 1], id) + (if last.id == id then [] else [last])
  }

  /** The users whose lock flag is `locked`, in list order (findAllLocked, findAllActive). */
  function WithLock(users: seq<User>, locked: bool): seq<User>
    reads users
    decreases |users|
  {
    if users == [] then []
    else
      var last := users[|users| - 1];
      WithLock(users[..|users| - 1], locked) + (if last.locked == locked then [last] else [])
  }

  /**
   * findByType's test: the type name and the user's class agree; any other
   * name matches nobody.
   */
  predicate TypeMatches(userType: string, role: Role) {
    (userType == "INDIVIDUAL" && role.Individual?) ||
    (userType == "BUSINESS" && role.Business?) ||
    (userType == "ADMIN" && role.Admin?)
  }

  class UserDAOCsv {
    var users: seq<User>

    /** new UserDAOCsv(users): the DAO works on the given list. */
    constructor(users: seq<User>)
      ensures this.users == users
    {
      this.users := users;
    }

    /** existsById: findById finds a user. */
    predicate ExistsById(id: string)
      reads this
      ensures ExistsById(id) <==> exists i :: 0 <= i < |users| && users[i].id == id
    {
      UserManagement.FindByIdContract(users, id);
      UserManagement.FindById(users, id).Some?
    }

    /** update: the loop that replaces the first user with the same id, else save, which appends. */
    method Update(entity: User) returns (r: User)
      modifies this
      ensures users == Stored(old(users), entity) && r == entity
    {
      var i := 0;
      while i < |users|
        invariant 0 <= i <= |users| && users == old(users)
        invariant forall j :: 0 <= j < i ==> users[j].id != entity.id
      {
        if users[i].id == entity.id {
          assert FirstIndexOfId(users, entity.id) == Some(i) by {
            FirstIndexIsFirst(users, entity.id, i);
          }
          users := users[i := entity];
          return entity;
        }
        i := i + 1;
      }
      users := users + [entity];
      r := entity;
    }

    /** save: an existing id is updated, a new one appended. */
    method Save(entity: User) returns (r: User)
      modifies this
      ensures users == Stored(old(users), entity) && r == entity
    {
      FirstIndexFound(users, entity.id);
      if UserManagement.FindById(users, entity.id).Some? {
        r := Update(entity);
      } else {
        users := users + [entity];
        r := entity;
      }
    }

    method DeleteById(id: string)
      modifies this
      ensures users == WithoutId(old(users), id)
    {
      users := WithoutId(users, id);
    }

    /** delete(entity): deleteById of its id. */
    method Delete(entity: User)
      modifies this
      ensures users == WithoutId(old(users), entity.id)
    {
      DeleteById(entity.id);
    }

    /** findByType: the instanceof loop. */
    method FindByType(userType: string) returns (result: seq<User>)
      ensures result == UserManagement.OfRole(users, userType)
    {
      result := [];
      var i := 0;
      while i < |users|
        invariant 0 <= i <= |users|
        invariant result == UserManagement.OfRole(users[..i], userType)
      {
        assert users[..i + 1][..i] == users[..i];
        TypeMatchesRoleName(userType, users[i].role);
        if userType == "INDIVIDUAL" && users[i].role.Individual? {
          result := result + [users[i]];
        } else if userType == "BUSINESS" && users[i].role.Business? {
          result := result + [users[i]];
        } else if userType == "ADMIN" && users[i].role.Admin? {
          result := result + [users[i]];
        }
        i := i + 1;
      }
      assert users[..i] == users;
    }

    /** findAllActive (locked == false) and findAllLocked (locked == true). */
    method FindAllWithLock(locked: bool) returns (result: seq<User>)
      ensures result == WithLock(users, locked)
    {
      result := [];
      var i := 0;
      while i < |users|
        invariant 0 <= i <= |users|
        invariant result == WithLock(users[..i], locked)
      {
        assert users[..i + 1][..i] == users[..i];
        if users[i].locked == locked {
          result := result + [users[i]];
        }
        i := i + 1;
      }
      assert users[..i] == users;
    }
  }

  // -----------------------------------------------------------------------
  // Properties of the list operations
  // -----------------------------------------------------------------------

  /** A position holding the id, with no earlier one, is the first index of the id. */
  lemma FirstIndexIsFirst(users: seq<User>, id: string, i: nat)
    requires i < |users| && users[i].id == id
    requires forall j :: 0 <= j < i ==> users[j].id != id
    ensures FirstIndexOfId(users, id) == Some(i)
  {
  }

  /** findById finds a user exactly when there is a first index, and it is the user there. */
  lemma FirstIndexFound(users: seq<User>, id: string)
    ensures UserManagement.FindById(users, id).Some? <==> FirstIndexOfId(users, id).Some?
    ensures FirstIndexOfId(users, id).Some? ==>
      UserManagement.FindById(users, id) == Some(users[FirstIndexOfId(users, id).value])
  {
    UserManagement.FindByIdContract(users, id);
    if UserManagement.FindById(users, id).Some? {
      var k :| 0 <= k < |users| && users[k] == UserManagement.FindById(users, id).value &&
        users[k].id == id && forall j :: 0 <= j < k ==> users[j].id != id;
      FirstIndexIsFirst(users, id, k);
    }
  }

  /**
   * After save or update, findById returns the saved user; the list grows by
   * one exactly when the id was new, and otherwise only the first user with
   * that id is replaced, in its place.
   */
  lemma StoredContract(users: seq<User>, u: User)
    ensures UserManagement.FindById(Stored(users, u), u.id) == Some(u)
    ensures UserManagement.FindById(users, u.id).None? ==> Stored(users, u) == users + [u]
    ensures UserManagement.FindById(users, u.id).Some? ==>
      |Stored(users, u)| == |users| &&
      exists i :: 0 <= i < |users| && users[i].id == u.id && Stored(users, u) == users[i := u] &&
        forall j :: 0 <= j < i ==> users[j].id != u.id
  {
    FirstIndexFound(users, u.id);
    var r := Stored(users, u);
    match FirstIndexOfId(users, u.id)
    case Some(i) =>
      FirstIndexIsFirst(r, u.id, i);
      FirstIndexFound(r, u.id);
    case None =>
      FirstIndexIsFirst(r, u.id, |users|);
      FirstIndexFound(r, u.id);
  }

  /** Saving the same user twice is saving it once. */
  lemma StoredIdempotent(users: seq<User>, u: User)
    ensures Stored(Stored(users, u), u) == Stored(users, u)
  {
    var r := Stored(users, u);
    match FirstIndexOfId(users, u.id)
    case Some(i) =>
      FirstIndexIsFirst(r, u.id, i);
    case None =>
      FirstIndexIsFirst(r, u.id, |users|);
  }

  /** Saving a user leaves every lookup of another id as it was. */
  lemma StoredKeepsOthers(users: seq<User>, u: User, id: string)
    requires id != u.id
    ensures UserManagement.FindById(Stored(users, u), id) == UserManagement.FindById(users, id)
  {
    var r := Stored(users, u);
    FirstIndexFound(users, id);
    FirstIndexFound(r, id);
    match FirstIndexOfId(users, id)
    case Some(i) =>
      FirstIndexIsFirst(r, id, i);
    case None =>
      assert forall j :: 0 <= j < |r| ==> r[j].id != id by {
        forall j | 0 <= j < |r|
          ensures r[j].id != id
        {
          if j < |users| && r[j] != u {
            assert r[j] == users[j];
          }
        }
      }
  }

  /** deleteById keeps exactly the users with another id. */
  lemma {:induction false} WithoutIdMembers(users: seq<User>, id: string)
    ensures forall u :: u in WithoutId(users, id) <==> u in users && u.id != id
    ensures forall i :: 0 <= i < |WithoutId(users, id)| ==> WithoutId(users, id)[i].id != id
    decreases |users|
  {
    if users != [] {
      var init := users[..|users| - 1];
      WithoutIdMembers(init, id);
      assert users == init + [users[|users| - 1]];
    }
  }

  /** Deleting an id no user has changes nothing. */
  lemma {:induction false} WithoutMissingId(users: seq<User>, id: string)
    requires forall i :: 0 <= i < |users| ==> users[i].id != id
    ensures WithoutId(users, id) == users
    decreases |users|
  {
    if users != [] {
      var init := users[..|users| - 1];
      WithoutMissingId(init, id);
      assert users == init + [users[|users| - 1]];
    }
  }

  /**
   * After deleteById the id is not found, and deleting an id that is not
   * found changes nothing.
   */
  lemma WithoutIdContract(users: seq<User>, id: string)
    ensures UserManagement.FindById(users, id).None? ==> WithoutId(users, id) == users
    ensures UserManagement.FindById(WithoutId(users, id), id).None?
  {
    UserManagement.FindByIdContract(users, id);
    if UserManagement.FindById(users, id).None? {
      WithoutMissingId(users, id);
    }
    var r := WithoutId(users, id);
    WithoutIdMembers(users, id);
    UserManagement.FindByIdContract(r, id);
  }

  /** deleteById of one id leaves the first user of every other id where findById finds it. */
  lemma {:induction false} WithoutIdKeepsOthers(users: seq<User>, id: string, other: string)
    requires other != id
    ensures UserManagement.FindById(WithoutId(users, id), other) == UserManagement.FindById(users, other)
    decreases |users|
  {
    if users != [] {
      var init := users[..|users| - 1];
      var last := users[|users| - 1];
      WithoutIdKeepsOthers(init, id, other);
      FindByIdAppend(init, [last], other);
      FindByIdAppend(WithoutId(init, id), if last.id == id then [] else [last], other);
      assert users == init + [last];
      if last.id == id {
        assert WithoutId(init, id) + [] == WithoutId(init, id);
        assert last.id != other;
        assert UserManagement.FindById([last], other).None?;
      }
    }
  }

  /** findById on a concatenation looks in the second part only when the first has no match. */
  lemma {:induction false} FindByIdAppend(a: seq<User>, b: seq<User>, id: string)
    ensures UserManagement.FindById(a + b, id) ==
      if UserManagement.FindById(a, id).Some? then UserManagement.FindById(a, id) else UserManagement.FindById(b, id)
    decreases |a|
  {
    if a != [] {
      assert (a + b)[1..] == a[1..] + b;
      FindByIdAppend(a[1..], b, id);
    } else {
      assert a + b == b;
    }
  }

  /** findByType's three-way test is the comparison of the name with getRole(). */
  lemma TypeMatchesRoleName(userType: string, role: Role)
    ensures TypeMatches(userType, role) <==> RoleName(role) == userType
  {
    assert "INDIVIDUAL" != "BUSINESS" && "INDIVIDUAL" != "ADMIN" && "BUSINESS" != "ADMIN" by {
      assert "INDIVIDUAL"[0] != "BUSINESS"[0] && "INDIVIDUAL"[0] != "ADMIN"[0] && "BUSINESS"[0] != "ADMIN"[0];
    }
  }

  /**
   * findAllActive and findAllLocked split the list: each holds exactly the
   * users with its flag, and together they hold every user once.
   */
  lemma {:induction false} LockPartition(users: seq<User>)
    ensures forall u :: u in WithLock(users, true) <==> u in users && u.locked
    ensures forall u :: u in WithLock(users, false) <==> u in users && !u.locked
    ensures multiset(WithLock(users, true)) + multiset(WithLock(users, false)) == multiset(users)
    ensures |WithLock(users, true)| + |WithLock(users, false)| == |users|
    decreases |users|
  {
    if users != [] {
      var init := users[..|users| - 1];
      LockPartition(init);
      assert users == init + [users[|users| - 1]];
    }
  }

  // -----------------------------------------------------------------------
  // parseCsvLine: a quote flips quote mode and is dropped
  // -----------------------------------------------------------------------

  /**
   * The scan of this class's parseCsvLine from the rest of the line: every
   * '"' flips the quote mode and is not kept; a comma outside quotes ends a
   * field.
   */
  function Toggled(rest: string, inQuotes: bool, current: string, fields: seq<string>): seq<string>
    decreases |rest|
  {
    if rest == [] then fields + [current]
    else if rest[0] == '"' then Toggled(rest[1..], !inQuotes, current, fields)
    else if rest[0] == ',' && !inQuotes then Toggled(rest[1..], false, "", fields + [current])
    else Toggled(rest[1..], inQuotes, current + [rest[0]], fields)
  }

  function ToggleLine(line: string): seq<string> {
    Toggled(line, false, "", [])
  }

  method ParseCsvLine(line: string) returns (fields: seq<string>)
    ensures fields == ToggleLine(line)
  {
    fields := [];
    var current := "";
    var inQuotes := false;
    for i := 0 to |line|
      invariant Toggled(line[i..], inQuotes, current, fields) == ToggleLine(line)
    {
      assert line[i..][0] == line[i] && line[i..][1..] == line[i + 1..];
      var c := line[i];
      if c == '"' {
        inQuotes := !inQuotes;
      } else if c == ',' && !inQuotes {
        fields := fields + [current];
        current := "";
      } else {
        current := current + [c];
      }
    }
    fields := fields + [current];
  }

  /** The value with every '"' taken out. */
  function StripQuotes(v: string): (r: string)
    ensures '"' !in r
    decreases |v|
  {
    if v == [] then [] else (if v[0] == '"' then [] else [v[0]]) + StripQuotes(v[1..])
  }

  function StripAll(vs: seq<string>): seq<string> {
    seq(|vs|, i requires 0 <= i < |vs| => StripQuotes(vs[i]))
  }

  lemma StripAllCons(vs: seq<string>)
    requires |vs| >= 1
    ensures StripAll(vs) == [StripQuotes(vs[0])] + StripAll(vs[1..])
  {
    assert forall i :: 1 <= i < |vs| ==> vs[i] == vs[1..][i - 1];
  }

  lemma ToggleQuote(r: string, inQuotes: bool, current: string, fields: seq<string>)
    ensures Toggled("\"" + r, inQuotes, current, fields) == Toggled(r, !inQuotes, current, fields)
  {
    assert ("\"" + r)[1..] == r;
  }

  /** Outside quotes, a comma closes the field. */
  lemma ToggleComma(r: string, current: string, fields: seq<string>)
    ensures Toggled("," + r, false, current, fields) == Toggled(r, false, "", fields + [current])
  {
    assert ("," + r)[1..] == r;
  }

  lemma ToggleChar(c: char, r: string, current: string, fields: seq<string>)
    requires c != '"'
    ensures Toggled([c] + r, true, current, fields) == Toggled(r, true, current + [c], fields)
  {
    assert ([c] + r)[1..] == r;
  }

  /**
   * Inside quotes, the doubled text of v and the closing quote read as v
   * without its quotes: each doubled quote flips the mode twice.
   */
  lemma {:induction false} ToggleQuoted(v: string, r: string, current: string, fields: seq<string>)
    ensures Toggled(Csv.Doubled(v) + "\"" + r, true, current, fields) ==
      Toggled(r, false, current + StripQuotes(v), fields)
    decreases |v|
  {
    if v == [] {
      assert Csv.Doubled(v) + "\"" + r == "\"" + r;
      ToggleQuote(r, true, current, fields);
      assert current + StripQuotes(v) == current;
    } else {
      var tail := Csv.Doubled(v[1..]) + "\"" + r;
      var head: string := if v[0] == '"' then "\"\"" else [v[0]];
      var kept: string := if v[0] == '"' then [] else [v[0]];
      assert Csv.Doubled(v) == head + Csv.Doubled(v[1..]);
      Csv.Regroup(head, Csv.Doubled(v[1..]), "\"", r);
      assert current + kept + StripQuotes(v[1..]) == current + StripQuotes(v);
      if v[0] == '"' {
        assert head + tail == "\"" + ("\"" + tail);
        ToggleQuote("\"" + tail, true, current, fields);
        ToggleQuote(tail, false, current, fields);
        assert current + kept == current;
      } else {
        ToggleChar(v[0], tail, current, fields);
      }
      ToggleQuoted(v[1..], r, current + kept, fields);
    }
  }

  /** Outside quotes, text without quotes and commas is read as it is. */
  lemma {:induction false} TogglePlain(s: string, r: string, current: string, fields: seq<string>)
    requires ',' !in s && '"' !in s
    ensures Toggled(s + r, false, current, fields) == Toggled(r, false, current + s, fields)
    decreases |s|
  {
    if s == [] {
      assert s + r == r;
      assert current + s == current;
    } else {
      assert s[0] in s;
      assert ',' !in s[1..] && '"' !in s[1..] by {
        assert forall x :: x in s[1..] ==> x in s;
      }
      assert (s + r)[1..] == s[1..] + r;
      TogglePlain(s[1..], r, current + [s[0]], fields);
      assert current + [s[0]] + s[1..] == current + s;
    }
  }

  /** A value without quotes is its own quote-free text. */
  lemma {:induction false} StripQuotesUnquoted(v: string)
    requires '"' !in v
    ensures StripQuotes(v) == v
    decreases |v|
  {
    if v != [] {
      assert v[0] in v;
      assert '"' !in v[1..] by {
        assert forall x :: x in v[1..] ==> x in v;
      }
      StripQuotesUnquoted(v[1..]);
    }
  }

  /** Outside quotes, an escaped value reads back as the value without its quotes. */
  lemma ToggleEscaped(v: string, r: string, fields: seq<string>)
    ensures Toggled(Csv.Escaped(v) + r, false, "", fields) == Toggled(r, false, StripQuotes(v), fields)
  {
    if Csv.NeedsQuoting(v) {
      assert Csv.Escaped(v) + r == "\"" + (Csv.Doubled(v) + "\"" + r);
      ToggleQuote(Csv.Doubled(v) + "\"" + r, false, "", fields);
      ToggleQuoted(v, r, "", fields);
      assert "" + StripQuotes(v) == StripQuotes(v);
    } else {
      TogglePlain(v, r, "", fields);
      StripQuotesUnquoted(v);
      assert "" + v == v;
    }
  }

  /** Escaped fields joined by commas read back as the fields without their quotes. */
  lemma {:induction false} ToggleJoined(fs: seq<string>, acc: seq<string>)
    requires |fs| >= 1
    ensures Toggled(Csv.JoinEscaped(fs), false, "", acc) == acc + StripAll(fs)
    decreases |fs|
  {
    if |fs| == 1 {
      assert Csv.Escaped(fs[0]) + [] == Csv.JoinEscaped(fs);
      ToggleEscaped(fs[0], [], acc);
      StripAllCons(fs);
    } else {
      var rest := Csv.JoinEscaped(fs[1..]);
      assert Csv.JoinEscaped(fs) == Csv.Escaped(fs[0]) + ("," + rest);
      ToggleEscaped(fs[0], "," + rest, acc);
      ToggleComma(rest, StripQuotes(fs[0]), acc);
      ToggleJoined(fs[1..], acc + [StripQuotes(fs[0])]);
      StripAllCons(fs);
      assert acc + [StripQuotes(fs[0])] + StripAll(fs[1..]) == acc + StripAll(fs);
    }
  }

  /**
   * escapeCsv then parseCsvLine gives back one field, the value without its
   * quotes: the value itself exactly when it has no '"'.
   */
  lemma EscapeToggleRoundTrip(v: string)
    ensures ToggleLine(Csv.Escaped(v)) == [StripQuotes(v)]
    ensures ToggleLine(Csv.Escaped(v)) == [v] <==> '"' !in v
  {
    ToggleEscaped(v, [], []);
    assert Csv.Escaped(v) + [] == Csv.Escaped(v);
    if '"' !in v {
      StripQuotesUnquoted(v);
    }
  }

  /** A value with a quote, written by escapeCsv, is read back without it. */
  lemma QuoteLost()
    ensures ToggleLine(Csv.Escaped("a\"b")) == ["ab"]
  {
    EscapeToggleRoundTrip("a\"b");
    assert StripQuotes("a\"b") == "ab";
  }

  /** On a line without quotes this parser and DataManager's read the same fields. */
  lemma {:induction false} ToggleUnquoted(rest: string, current: string, fields: seq<string>)
    requires '"' !in rest
    ensures Toggled(rest, false, current, fields) == fields + Csv.Attach(current, Csv.SplitCommas(rest))
    decreases |rest|
  {
    if rest == [] {
      assert current + "" == current;
    } else {
      var c, tail := rest[0], rest[1..];
      assert c in rest;
      assert '"' !in tail by {
        assert forall x :: x in tail ==> x in rest;
      }
      var pieces := Csv.SplitCommas(tail);
      if c == ',' {
        ToggleUnquoted(tail, "", fields + [current]);
        Csv.AttachComma(current, pieces, fields);
      } else {
        ToggleUnquoted(tail, current + [c], fields);
        Csv.AttachTwice(current, c, pieces);
      }
    }
  }

  lemma UnquotedLinesAgree(line: string)
    requires '"' !in line
    ensures ToggleLine(line) == Csv.ParseLine(line)
  {
    ToggleUnquoted(line, "", []);
    Csv.UnquotedLine(line);
    var r := Csv.SplitCommas(line);
    assert "" + r[0] == r[0];
    assert [r[0]] + r[1..] == r;
  }

  // -----------------------------------------------------------------------
  // formatUser and parseUser
  // -----------------------------------------------------------------------

  const MinInt: int := -2147483648

  /** A Java int in decimal, as StringBuilder.append(int) writes it. */
  function IntText(n: int): string {
    if n < 0 then "-" + Text.Decimal(-n) else Text.Decimal(n)
  }

  function BoolText(b: bool): string {
    if b then "true" else "false"
  }

  /** The NumberFormatException (an IllegalArgumentException) of Integer.parseInt. */
  function NumberFormat(s: string): Exception {
    IllegalArgument("For input string: \"" + s + "\"")
  }

  /**
   * Integer.parseInt: an optional sign and at least one ASCII digit, in the
   * range of an int.
   */
  function ParseInt(s: string): (r: Result<int, Exception>)
    ensures r.Ok? ==> MinInt <= r.value <= UserManagement.MaxInt
  {
    if |s| > 0 && (s[0] == '-' || s[0] == '+') then SignedValue(s, s[0] == '-', s[1..])
    else SignedValue(s, false, s)
  }

  /** The value of the digits after the sign, if they are digits and it fits an int. */
  function SignedValue(s: string, negative: bool, digits: string): (r: Result<int, Exception>)
    ensures r.Ok? ==> MinInt <= r.value <= UserManagement.MaxInt
  {
    if digits == [] || !Text.AllDigits(digits) then Err(NumberFormat(s))
    else
      var m: int := Text.DigitsValue(digits);
      var v: int := if negative then -m else m;
      if v < MinInt || v > UserManagement.MaxInt then Err(NumberFormat(s)) else Ok(v)
  }


  /** Boolean.parseBoolean: "true" in any case; anything else is false. */
  predicate ParseBoolean(s: string) {
    Text.EqualsIgnoreCase(s, "true")
  }

  /**
   * The twelve columns formatUser writes, before escaping: type, id,
   * username, password hash, phone, failed attempts, locked, then fullName,
   * address, vatNumber, businessName, adminLevel. An individual's row leaves
   * the vatNumber column empty; a business leaves fullName, address and
   * adminLevel empty.
   */
  function Columns(u: User): (cols: seq<string>)
    reads u
    ensures |cols| == 12
  {
    [RoleName(u.role), u.id, u.username, u.passwordHash, u.phoneNumber,
     IntText(u.failedLoginAttempts), BoolText(u.locked)] + ProfileColumns(u.role)
  }

  /** The last five columns, by the user's type. */
  function ProfileColumns(role: Role): seq<string> {
    match role
    case Individual(fullName, address, _) => [fullName, address, "", "", ""]
    case Business(businessName, vatNumber) => ["", "", vatNumber, businessName, ""]
    case Admin(level) => ["", "", "", "", IntText(level)]
  }

  /**
   * formatUser: the columns, each escaped and followed by a comma but the
   * last. The source appends the type, the counts, the flag and the admin
   * level without escapeCsv; none of them can need it (NamesUnquoted,
   * IntTextUnquoted and RawLetters below). A comma-splitting parser that
   * honours quotes reads the twelve columns back.
   */
  function FormatUser(u: User): (r: string)
    reads u
    ensures Csv.ParseLine(r) == Columns(u)
  {
    Csv.JoinRoundTrip(Columns(u));
    Csv.JoinEscaped(Columns(u))
  }

  /** A users.csv row as parseUser reads it. */
  datatype UserRow = UserRow(role: Role, id: string, username: string, passwordHash: string,
                             phoneNumber: string, failedAttempts: int, locked: bool)

  /** fields[i], or "" past the end (the `fields.length > i ? fields[i] : ""` reads). */
  function Column(fields: seq<string>, i: nat): string {
    if |fields| > i then fields[i] else ""
  }

  /** The admin level column; a missing or unreadable one is 1. */
  function AdminLevel(fields: seq<string>): int {
    if |fields| > 11 then
      match ParseInt(fields[11])
      case Ok(n) => n
      case Err(_) => 1
    else 1
  }

  /** The switch on the type column; an unknown type gives no user. */
  function RowRole(fields: seq<string>): Option<Role>
    requires |fields| >= 1
  {
    if fields[0] == "INDIVIDUAL" then Some(Individual(Column(fields, 7), Column(fields, 8), Column(fields, 9)))
    else if fields[0] == "BUSINESS" then Some(Business(Column(fields, 10), Column(fields, 9)))
    else if fields[0] == "ADMIN" then Some(Admin(AdminLevel(fields)))
    else None
  }

  /**
   * parseUser on the parsed fields: fewer than seven gives no user; the
   * failed-attempt column is read with Integer.parseInt before the type is
   * looked at, so an unreadable count throws whatever the type.
   */
  function DecodeUserRow(fields: seq<string>): Result<Option<UserRow>, Exception> {
    if |fields| < 7 then Ok(None)
    else
      match ParseInt(fields[5])
      case Err(e) => Err(e)
      case Ok(attempts) =>
        match RowRole(fields)
        case None => Ok(None)
        case Some(role) =>
          Ok(Some(UserRow(role, fields[1], fields[2], fields[3], fields[4], attempts, ParseBoolean(fields[6]))))
  }

  /**
   * The credentials parseUser leaves on the user: the stored hash, the
   * count reached by that many recordFailedLogin calls (none for a negative
   * count), and the saved lock flag.
   */
  function RestoredState(row: UserRow): Credentials {
    Credentials(row.passwordHash, if row.failedAttempts < 0 then 0 else row.failedAttempts, row.locked)
  }

  /**
   * parseUser: parse the line, build the user of the row's type with the
   * placeholder password "temp", put the stored hash in place, then set the
   * lock, replay the failed logins, and unlock again if the row was not
   * locked.
   */
  method ParseUser(line: string) returns (r: Result<Option<User>, Exception>)
    ensures DecodeUserRow(ToggleLine(line)).Err? ==> r == Err(DecodeUserRow(ToggleLine(line)).error)
    ensures DecodeUserRow(ToggleLine(line)) == Ok(None) ==> r == Ok(None)
    ensures DecodeUserRow(ToggleLine(line)).Ok? && DecodeUserRow(ToggleLine(line)).value.Some? ==>
      var row := DecodeUserRow(ToggleLine(line)).value.value;
      r.Ok? && r.value.Some? && fresh(r.value.value) &&
      r.value.value.id == row.id && r.value.value.username == row.username &&
      r.value.value.phoneNumber == row.phoneNumber && r.value.value.role == row.role &&
      r.value.value.State() == RestoredState(row)
  {
    var fields := ParseCsvLine(line);
    var decoded := DecodeUserRow(fields);
    match decoded
    case Err(e) =>
      return Err(e);
    case Ok(None) =>
      return Ok(None);
    case Ok(Some(row)) =>
      var user := new User(row.id, row.username, "temp", row.phoneNumber, row.role);
      user.passwordHash := row.passwordHash;
      user.SetLocked(row.locked);
      ghost var start := user.State();
      assert start == Credentials(row.passwordHash, 0, row.locked);
      var i := 0;
      while i < row.failedAttempts
        invariant 0 <= i && (row.failedAttempts >= 0 ==> i <= row.failedAttempts)
        invariant row.failedAttempts < 0 ==> i == 0
        invariant user.State() == AfterFailedLogins(start, i)
        decreases row.failedAttempts - i
      {
        user.RecordFailedLogin();
        AfterFailedLoginsStep(start, i);
        i := i + 1;
      }
      FailedLoginsLock(start, i);
      if !row.locked {
        user.SetLocked(false);
      }
      return Ok(Some(user));
  }

  // -----------------------------------------------------------------------
  // Properties of the row format
  // -----------------------------------------------------------------------

  /** One more failure after n is n + 1 failures. */
  lemma {:induction false} AfterFailedLoginsStep(c: Credentials, n: nat)
    ensures AfterFailedLogins(c, n + 1) == AfterFailedLogin(AfterFailedLogins(c, n))
    decreases n
  {
    if n > 0 {
      AfterFailedLoginsStep(AfterFailedLogin(c), n - 1);
    }
  }

  /** A number written by formatUser reads back with Integer.parseInt. */
  lemma ParseIntRoundTrip(n: int)
    requires MinInt <= n <= UserManagement.MaxInt
    ensures ParseInt(IntText(n)) == Ok(n)
  {
    var s := IntText(n);
    if n < 0 {
      var d := Text.Decimal(-n);
      assert s == "-" + d && s[0] == '-' && s[1..] == d;
      assert ParseInt(s) == SignedValue(s, true, d);
      Text.DecimalValue(-n);
    } else {
      var d := Text.Decimal(n);
      assert Text.IsDigit(d[0]);
      assert ParseInt(d) == SignedValue(d, false, d);
      Text.DecimalValue(n);
    }
  }



  /** A string of digits needs no quoting. */
  lemma DigitsUnquoted(s: string)
    requires Text.AllDigits(s)
    ensures !Csv.NeedsQuoting(s)
  {
    forall c | c in s
      ensures c != ',' && c != '"' && c != '\n'
    {
      var k :| 0 <= k < |s| && s[k] == c;
      assert Text.IsDigit(s[k]);
    }
  }

  /** A number as formatUser writes it needs no quoting. */
  lemma IntTextUnquoted(n: int)
    ensures !Csv.NeedsQuoting(IntText(n))
    ensures Csv.Escaped(IntText(n)) == IntText(n)
  {
    var digits := Text.Decimal(if n < 0 then -n else n);
    DigitsUnquoted(digits);
    if n < 0 {
      assert IntText(n) == "-" + digits;
      assert forall c :: c in IntText(n) ==> c == '-' || c in digits;
    }
  }

  /** The type names, the flag and the empty column need no quoting. */
  lemma NamesUnquoted(role: Role, b: bool)
    ensures Csv.Escaped(RoleName(role)) == RoleName(role)
    ensures Csv.Escaped(BoolText(b)) == BoolText(b)
    ensures Csv.Escaped("") == ""
  {
    RawLetters(role, b);
  }

  /** The type names and the flag are written in letters only. */
  lemma RawLetters(role: Role, b: bool)
    ensures forall c :: c in RoleName(role) ==> 'A' <= c <= 'Z'
    ensures forall c :: c in BoolText(b) ==> 'a' <= c <= 'z'
  {
    match role
    case Individual(_, _, _) =>
    case Business(_, _) =>
    case Admin(_) =>
  }

  /** parseBoolean reads what formatUser writes for the flag. */
  lemma ParseBooleanRoundTrip(b: bool)
    ensures ParseBoolean(BoolText(b)) == b
  {
  }

  /** parseBoolean accepts exactly the four letters of "true", each in either case. */
  lemma ParseBooleanContract(s: string)
    ensures ParseBoolean(s) <==> Text.SpelledWithVariants("true", s)
  {
    Text.AsciiWordIgnoreCase("true", s);
    Text.EqualsIgnoreCaseEquivalence(s, "true", "true");
  }

  /** The profile that survives a write and a read: an individual's VAT number does not. */
  function SurvivingRole(role: Role): Role {
    match role
    case Individual(fullName, address, _) => Individual(StripQuotes(fullName), StripQuotes(address), "")
    case Business(businessName, vatNumber) => Business(StripQuotes(businessName), StripQuotes(vatNumber))
    case Admin(level) => Admin(level)
  }

  /**
   * parseUser(formatUser(u)) reads back every column without its quotes:
   * the type and profile (less an individual's VAT number), the id,
   * username, hash and phone, the failed-attempt count and the lock flag.
   */
  lemma FormatParseRoundTrip(u: User)
    requires MinInt <= u.failedLoginAttempts <= UserManagement.MaxInt
    requires u.role.Admin? ==> MinInt <= u.role.adminLevel <= UserManagement.MaxInt
    ensures DecodeUserRow(ToggleLine(FormatUser(u))) ==
      Ok(Some(UserRow(SurvivingRole(u.role), StripQuotes(u.id), StripQuotes(u.username),
                      StripQuotes(u.passwordHash), StripQuotes(u.phoneNumber),
                      u.failedLoginAttempts, u.locked)))
  {
    ToggleJoined(Columns(u), []);
    assert ToggleLine(FormatUser(u)) == StripAll(Columns(u));
    StripColumns(u);
    DecodeStripped(u);
  }

  /** The columns as parseCsvLine returns them: the written ones come back unchanged. */
  function StrippedColumns(u: User): (cols: seq<string>)
    reads u
  {
    [RoleName(u.role), StripQuotes(u.id), StripQuotes(u.username), StripQuotes(u.passwordHash),
     StripQuotes(u.phoneNumber), IntText(u.failedLoginAttempts), BoolText(u.locked)] +
    StrippedProfile(u.role)
  }

  function StrippedProfile(role: Role): seq<string> {
    match role
    case Individual(fullName, address, _) => [StripQuotes(fullName), StripQuotes(address), "", "", ""]
    case Business(businessName, vatNumber) => ["", "", StripQuotes(vatNumber), StripQuotes(businessName), ""]
    case Admin(level) => ["", "", "", "", IntText(level)]
  }

  lemma StripAllAppend(a: seq<string>, b: seq<string>)
    ensures StripAll(a + b) == StripAll(a) + StripAll(b)
  {
  }

  lemma StripProfile(role: Role)
    ensures StripAll(ProfileColumns(role)) == StrippedProfile(role)
  {
    StripQuotesUnquoted("");
    if role.Admin? {
      StripQuotesUnquoted(IntText(role.adminLevel));
    }
  }

  lemma StripColumns(u: User)
    ensures StripAll(Columns(u)) == StrippedColumns(u)
  {
    var head := [RoleName(u.role), u.id, u.username, u.passwordHash, u.phoneNumber,
                 IntText(u.failedLoginAttempts), BoolText(u.locked)];
    StripAllAppend(head, ProfileColumns(u.role));
    StripProfile(u.role);
    RawLetters(u.role, u.locked);
    IntTextUnquoted(u.failedLoginAttempts);
    StripQuotesUnquoted(RoleName(u.role));
    StripQuotesUnquoted(IntText(u.failedLoginAttempts));
    StripQuotesUnquoted(BoolText(u.locked));
  }

  lemma DecodeStripped(u: User)
    requires MinInt <= u.failedLoginAttempts <= UserManagement.MaxInt
    requires u.role.Admin? ==> MinInt <= u.role.adminLevel <= UserManagement.MaxInt
    ensures DecodeUserRow(StrippedColumns(u)) ==
      Ok(Some(UserRow(SurvivingRole(u.role), StripQuotes(u.id), StripQuotes(u.username),
                      StripQuotes(u.passwordHash), StripQuotes(u.phoneNumber),
                      u.failedLoginAttempts, u.locked)))
  {
    var f := StrippedColumns(u);
    ParseIntRoundTrip(u.failedLoginAttempts);
    ParseBooleanRoundTrip(u.locked);
    TypeNamesDiffer();
    if u.role.Admin? {
      ParseIntRoundTrip(u.role.adminLevel);
    }
    assert |f| == 12 && f[5] == IntText(u.failedLoginAttempts) && f[6] == BoolText(u.locked);
  }

  lemma TypeNamesDiffer()
    ensures "INDIVIDUAL" != "BUSINESS" && "INDIVIDUAL" != "ADMIN" && "BUSINESS" != "ADMIN"
  {
    assert "INDIVIDUAL"[0] != "BUSINESS"[0] && "INDIVIDUAL"[0] != "ADMIN"[0] && "BUSINESS"[0] != "ADMIN"[0];
  }

  /**
   * With no quotes in its text columns, a user written and read back is the
   * same user, except that an individual's VAT number is lost.
   */
  lemma FormatParseQuoteFree(u: User)
    requires MinInt <= u.failedLoginAttempts <= UserManagement.MaxInt
    requires u.role.Admin? ==> MinInt <= u.role.adminLevel <= UserManagement.MaxInt
    requires '"' !in u.id && '"' !in u.username && '"' !in u.passwordHash && '"' !in u.phoneNumber
    requires u.role.Individual? ==> '"' !in u.role.fullName && '"' !in u.role.address
    requires u.role.Business? ==> '"' !in u.role.businessName && '"' !in u.role.vatNumber
    ensures DecodeUserRow(ToggleLine(FormatUser(u))) ==
      Ok(Some(UserRow(if u.role.Individual? then Individual(u.role.fullName, u.role.address, "") else u.role,
                      u.id, u.username, u.passwordHash, u.phoneNumber, u.failedLoginAttempts, u.locked)))
  {
    FormatParseRoundTrip(u);
    StripQuotesUnquoted(u.id);
    StripQuotesUnquoted(u.username);
    StripQuotesUnquoted(u.passwordHash);
    StripQuotesUnquoted(u.phoneNumber);
    match u.role
    case Individual(fullName, address, _) =>
      StripQuotesUnquoted(fullName);
      StripQuotesUnquoted(address);
    case Business(businessName, vatNumber) =>
      StripQuotesUnquoted(businessName);
      StripQuotesUnquoted(vatNumber);
    case Admin(_) =>
  }

  /** A row with fewer than seven fields gives no user and no error. */
  lemma ShortRowSkipped(fields: seq<string>)
    requires |fields| < 7
    ensures DecodeUserRow(fields) == Ok(None)
  {
  }

  /**
   * A row whose failed-attempt column is not a number throws, even when
   * its type is unknown; a well-formed row of an unknown type gives no user.
   */
  lemma BadCountThrows(fields: seq<string>)
    requires |fields| >= 7
    ensures ParseInt(fields[5]).Err? ==> DecodeUserRow(fields) == Err(ParseInt(fields[5]).error)
    ensures ParseInt(fields[5]).Ok? && fields[0] !in {"INDIVIDUAL", "BUSINESS", "ADMIN"} ==>
      DecodeUserRow(fields) == Ok(None)
  {
  }

}
