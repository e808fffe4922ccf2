/**
 * The CSV layer of DataManager: escapeCSV quotes a value that holds a comma,
 * a quote or a newline and doubles its quotes (section 2, rules 6 and 7 of
 * RFC 4180); parseCSVLine splits a line on the commas outside quotes and
 * reads a doubled quote inside quotes as one. Each loader skips rows with
 * too few columns; the account loader turns a row into an account.
 */
module Csv {
  import opened Wrappers
  import opened Users
  import opened Accounts
  import Money

  // -----------------------------------------------------------------------
  // escapeCSV
  // -----------------------------------------------------------------------

  /** The value holds a character that forces quoting. */
  predicate NeedsQuoting(v: string) {
    ',' in v || '"' in v || '\n' in v
  }

  /** How many times c occurs in s. */
  function Occurrences(s: string, c: char): (n: nat)
    ensures n <= |s|
  {
    if s == [] then 0 else (if s[0] == c then 1 else 0) + Occurrences(s[1..], c)
  }

  /** value.replace("\"", "\"\""). */
  function Doubled(v: string): (r: string)
    ensures |r| == |v| + Occurrences(v, '"')
  {
    if v == [] then [] else (if v[0] == '"' then "\"\"" else [v[0]]) + Doubled(v[1..])
  }

  /** escapeCSV of a non-null value. */
  function Escaped(v: string): string {
    if NeedsQuoting(v) then "\"" + Doubled(v) + "\"" else v
  }

  /** escapeCSV: null becomes the empty field; any other value is written so that parseCSVLine reads it back. */
  function EscapeCsv(value: Option<string>): (r: string)
    ensures value.None? ==> r == ""
    ensures ParseLine(r) == [if value.Some? then value.value else ""]
  {
    if value.None? then "" else EscapeRoundTrip(value.value); Escaped(value.value)
  }

  // -----------------------------------------------------------------------
  // parseCSVLine
  // -----------------------------------------------------------------------

  /**
   * The scan of parseCSVLine over the rest of the line outside quotes, with
   * the field being read and the fields already closed.
   */
  function Plain(rest: string, current: string, fields: seq<string>): seq<string>
    decreases |rest|, 1
  {
    if rest == [] then fields + [current]
    else if rest[0] == '"' then Quoted(rest[1..], current, fields)
    else if rest[0] == ',' then Plain(rest[1..], "", fields + [current])
    else Plain(rest[1..], current + [rest[0]], fields)
  }

  /**
   * The scan inside quotes: a quote followed by a quote is one literal
   * quote; any other quote leaves quote mode.
   */
  function Quoted(rest: string, current: string, fields: seq<string>): seq<string>
    decreases |rest|, 0
  {
    if rest == [] then fields + [current]
    else if rest[0] != '"' then Quoted(rest[1..], current + [rest[0]], fields)
    else if |rest| > 1 && rest[1] == '"' then Quoted(rest[2..], current + ['"'], fields)
    else Plain(rest[1..], current, fields)
  }

  /** The scan in either mode. */
  function Scan(rest: string, inQuotes: bool, current: string, fields: seq<string>): seq<string> {
    if inQuotes then Quoted(rest, current, fields) else Plain(rest, current, fields)
  }

  /** parseCSVLine(line). */
  function ParseLine(line: string): seq<string> {
    Plain(line, "", [])
  }

  /** parseCSVLine: the loop over the characters, with one character of look-ahead inside quotes. */
  method ParseCsvLine(line: string) returns (result: seq<string>)
    ensures result == ParseLine(line)
  {
    result := [];
    var current := "";
    var inQuotes := false;
    var i := 0;
    while i < |line|
      invariant 0 <= i <= |line|
      invariant Scan(line[i..], inQuotes, current, result) == ParseLine(line)
      decreases |line| - i
    {
      assert line[i..][0] == line[i] && line[i..][1..] == line[i + 1..];
      var c := line[i];
      if inQuotes {
        if c == '"' {
          if i + 1 < |line| && line[i + 1] == '"' {
            assert line[i..][2..] == line[i + 2..];
            current := current + ['"'];
            i := i + 1;
          } else {
            inQuotes := false;
          }
        } else {
          current := current + [c];
        }
      } else {
        if c == '"' {
          inQuotes := true;
        } else if c == ',' {
          result := result + [current];
          current := "";
        } else {
          current := current + [c];
        }
      }
      i := i + 1;
    }
    result := result + [current];
  }

  /** The comma-join of the escaped fields, as the savers write a row. */
  function JoinEscaped(fields: seq<string>): string
    requires |fields| >= 1
  {
    if |fields| == 1 then Escaped(fields[0]) else Escaped(fields[0]) + "," + JoinEscaped(fields[1..])
  }

  /** An independent reading of an unquoted line: the pieces between its commas. */
  function SplitCommas(s: string): (r: seq<string>)
    ensures |r| >= 1
  {
    if s == [] then [""]
    else
      var rest := SplitCommas(s[1..]);
      if s[0] == ',' then [""] + rest else [[s[0]] + rest[0]] + rest[1..]
  }

  /** The text read so far, in front of the first piece of the rest. */
  function Attach(current: string, r: seq<string>): seq<string>
    requires |r| >= 1
  {
    [current + r[0]] + r[1..]
  }

  // -----------------------------------------------------------------------
  // Properties of the codec
  // -----------------------------------------------------------------------

  /** escapeCSV leaves a plain value alone and quotes any other with its quotes doubled. */
  lemma EscapedShape(v: string)
    ensures !NeedsQuoting(v) ==> Escaped(v) == v
    ensures NeedsQuoting(v) ==> Escaped(v) == "\"" + Doubled(v) + "\"" && |Escaped(v)| == |v| + Occurrences(v, '"') + 2
    ensures EscapeCsv(None) == ""
  {
  }

  /** Text with no quote and no comma is read into the current field as it is. */
  lemma {:induction false} ScanPlain(s: string, r: string, current: string, fields: seq<string>)
    requires ',' !in s && '"' !in s
    ensures Plain(s + r, current, fields) == Plain(r, current + s, fields)
    decreases |s|
  {
    if s == [] {
      assert s + r == r && current + s == current;
    } else {
      assert (s + r)[0] == s[0] && (s + r)[1..] == s[1..] + r;
      assert s[0] in s;
      assert ',' !in s[1..] && '"' !in s[1..] by {
        assert forall c :: c in s[1..] ==> c in s;
      }
      ScanPlain(s[1..], r, current + [s[0]], fields);
      assert current + [s[0]] + s[1..] == current + s;
    }
  }

  /** Inside quotes, a doubled quote is read as one quote. */
  lemma QuotedPair(tail: string, current: string, fields: seq<string>)
    ensures Quoted("\"\"" + tail, current, fields) == Quoted(tail, current + ['"'], fields)
  {
    assert ("\"\"" + tail)[2..] == tail;
  }

  /** Inside quotes, any other character is read as it is. */
  lemma QuotedChar(c: char, tail: string, current: string, fields: seq<string>)
    requires c != '"'
    ensures Quoted([c] + tail, current, fields) == Quoted(tail, current + [c], fields)
  {
    assert ([c] + tail)[1..] == tail;
  }

  /** A quote that is not doubled ends quote mode. */
  lemma QuotedClose(r: string, current: string, fields: seq<string>)
    requires r == [] || r[0] != '"'
    ensures Quoted("\"" + r, current, fields) == Plain(r, current, fields)
  {
    assert ("\"" + r)[1..] == r;
  }

  /**
   * Inside quotes, the doubled text of v followed by a closing quote that
   * is not itself doubled reads back as v, and the scan leaves quote mode.
   */
  lemma {:induction false} ScanQuoted(v: string, r: string, current: string, fields: seq<string>)
    requires r == [] || r[0] != '"'
    ensures Quoted(Doubled(v) + "\"" + r, current, fields) == Plain(r, current + v, fields)
    decreases |v|
  {
    if v == [] {
      assert Doubled(v) + "\"" + r == "\"" + r;
      QuotedClose(r, current, fields);
      assert current + v == current;
    } else {
      var tail := Doubled(v[1..]) + "\"" + r;
      var head: string := if v[0] == '"' then "\"\"" else [v[0]];
      assert Doubled(v) == head + Doubled(v[1..]);
      Regroup(head, Doubled(v[1..]), "\"", r);
      assert current + [v[0]] + v[1..] == current + v;
      if v[0] == '"' {
        QuotedPair(tail, current, fields);
      } else {
        QuotedChar(v[0], tail, current, fields);
      }
      ScanQuoted(v[1..], r, current + [v[0]], fields);
    }
  }

  /** Concatenation regroups. */
  lemma Regroup(a: string, b: string, c: string, d: string)
    ensures ((a + b) + c) + d == a + ((b + c) + d)
  {
  }

  /** An opening quote outside quotes switches to quote mode. */
  lemma PlainQuote(q: string, current: string, fields: seq<string>)
    ensures Plain("\"" + q, current, fields) == Quoted(q, current, fields)
  {
    assert ("\"" + q)[1..] == q;
  }

  /** An escaped field, ended by a comma or the line's end, reads back as the value. */
  lemma ScanEscaped(v: string, r: string, fields: seq<string>)
    requires r == [] || r[0] == ','
    ensures Plain(Escaped(v) + r, "", fields) == Plain(r, v, fields)
  {
    if NeedsQuoting(v) {
      var q := Doubled(v) + "\"" + r;
      assert Escaped(v) + r == "\"" + q;
      PlainQuote(q, "", fields);
      ScanQuoted(v, r, "", fields);
    } else {
      assert Escaped(v) == v;
      ScanPlain(v, r, "", fields);
    }
    assert "" + v == v;
  }

  /** A row of escaped fields reads back as those fields. */
  lemma {:induction false} ScanJoined(fs: seq<string>, acc: seq<string>)
    requires |fs| >= 1
    ensures Plain(JoinEscaped(fs), "", acc) == acc + fs
    decreases |fs|
  {
    if |fs| == 1 {
      assert Escaped(fs[0]) + [] == JoinEscaped(fs);
      ScanEscaped(fs[0], [], acc);
      assert fs == [fs[0]];
    } else {
      var rest := JoinEscaped(fs[1..]);
      assert JoinEscaped(fs) == Escaped(fs[0]) + ("," + rest);
      ScanEscaped(fs[0], "," + rest, acc);
      assert ("," + rest)[1..] == rest;
      ScanJoined(fs[1..], acc + [fs[0]]);
      assert acc + [fs[0]] + fs[1..] == acc + fs;
    }
  }

  /** parseCSVLine reads escapeCSV(v) back as the single field v. */
  lemma EscapeRoundTrip(v: string)
    ensures ParseLine(Escaped(v)) == [v]
  {
    ScanJoined([v], []);
  }

  /** parseCSVLine reads the comma-join of escaped fields back as those fields. */
  lemma JoinRoundTrip(fs: seq<string>)
    requires |fs| >= 1
    ensures ParseLine(JoinEscaped(fs)) == fs
  {
    ScanJoined(fs, []);
  }

  /** The scan keeps the fields it has closed and always adds at least one. */
  lemma {:induction false} ScanGrows(rest: string, inQuotes: bool, current: string, fields: seq<string>)
    ensures |Scan(rest, inQuotes, current, fields)| >= |fields| + 1
    ensures Scan(rest, inQuotes, current, fields)[..|fields|] == fields
    decreases |rest|
  {
    if rest != [] {
      if inQuotes {
        if rest[0] == '"' {
          if |rest| > 1 && rest[1] == '"' {
            ScanGrows(rest[2..], true, current + ['"'], fields);
          } else {
            ScanGrows(rest[1..], false, current, fields);
          }
        } else {
          ScanGrows(rest[1..], true, current + [rest[0]], fields);
        }
      } else if rest[0] == '"' {
        ScanGrows(rest[1..], true, current, fields);
      } else if rest[0] == ',' {
        ScanGrows(rest[1..], false, "", fields + [current]);
        assert (fields + [current])[..|fields|] == fields;
      } else {
        ScanGrows(rest[1..], false, current + [rest[0]], fields);
      }
    }
  }

  /** parseCSVLine never returns an empty array, not even for the empty line. */
  lemma AtLeastOneField(line: string)
    ensures |ParseLine(line)| >= 1
  {
    ScanGrows(line, false, "", []);
  }

  lemma AttachTwice(current: string, c: char, r: seq<string>)
    requires |r| >= 1
    ensures Attach(current, Attach([c], r)) == Attach(current + [c], r)
  {
    assert current + ([c] + r[0]) == current + [c] + r[0];
  }

  /** A comma closes the field read so far. */
  lemma AttachComma(current: string, pieces: seq<string>, fields: seq<string>)
    requires |pieces| >= 1
    ensures fields + [current] + Attach("", pieces) == fields + Attach(current, [""] + pieces)
  {
    assert "" + pieces[0] == pieces[0];
    assert current + "" == current;
    assert [pieces[0]] + pieces[1..] == pieces;
  }

  /** Without quotes, the scan is the comma split of the rest, joined to the text read so far. */
  lemma {:induction false} ScanUnquoted(rest: string, current: string, fields: seq<string>)
    requires '"' !in rest
    ensures Plain(rest, current, fields) == fields + Attach(current, SplitCommas(rest))
    decreases |rest|
  {
    if rest == [] {
      assert current + "" == current;
    } else {
      var c, tail := rest[0], rest[1..];
      assert c in rest;
      assert '"' !in tail by {
        assert forall x :: x in tail ==> x in rest;
      }
      var pieces := SplitCommas(tail);
      if c == ',' {
        ScanUnquoted(tail, "", fields + [current]);
        AttachComma(current, pieces, fields);
      } else {
        ScanUnquoted(tail, current + [c], fields);
        AttachTwice(current, c, pieces);
      }
    }
  }

  /** Piece count of the comma split. */
  lemma {:induction false} SplitCount(s: string)
    ensures |SplitCommas(s)| == Occurrences(s, ',') + 1
  {
    if s != [] {
      SplitCount(s[1..]);
    }
  }

  /** A line without quotes is split at every comma, into one more field than it has commas. */
  lemma UnquotedLine(line: string)
    requires '"' !in line
    ensures ParseLine(line) == SplitCommas(line)
    ensures |ParseLine(line)| == Occurrences(line, ',') + 1
  {
    ScanUnquoted(line, "", []);
    var r := SplitCommas(line);
    assert "" + r[0] == r[0];
    assert [r[0]] + r[1..] == r;
    SplitCount(line);
  }

  // -----------------------------------------------------------------------
  // The loaders' row guards
  // -----------------------------------------------------------------------

  /** The files the loaders read. */
  datatype CsvFile = UsersFile | AccountsFile | CoOwnersFile | TransactionsFile | BillsFile | StandingOrdersFile

  /** The fewest fields a row must have for its loader to read it. */
  function MinColumns(f: CsvFile): nat {
    match f
    case UsersFile => 7
    case AccountsFile => 7
    case CoOwnersFile => 2
    case TransactionsFile => 9
    case BillsFile => 9
    case StandingOrdersFile => 13
  }

  /** The row is read, not skipped. */
  predicate RowRead(f: CsvFile, parts: seq<string>) {
    |parts| >= MinColumns(f)
  }

  /** The simulation-date row: at least two fields, the first "currentDate". */
  predicate IsDateRow(parts: seq<string>) {
    |parts| >= 2 && parts[0] == "currentDate"
  }

  /** An unquoted line is read exactly when it has at least one comma fewer than the required columns. */
  lemma UnquotedRowRead(f: CsvFile, line: string)
    requires '"' !in line
    ensures RowRead(f, ParseLine(line)) <==> Occurrences(line, ',') + 1 >= MinColumns(f)
  {
    UnquotedLine(line);
  }

  /** A row the savers write with the full column count is never skipped. */
  lemma SavedRowRead(f: CsvFile, fs: seq<string>)
    requires |fs| >= MinColumns(f) && |fs| >= 1
    ensures RowRead(f, ParseLine(JoinEscaped(fs)))
  {
    JoinRoundTrip(fs);
  }

  // -----------------------------------------------------------------------
  // The account row
  // -----------------------------------------------------------------------

  /** Account.AccountStatus.valueOf. */
  function StatusOf(name: string): Result<AccountStatus, Exception> {
    if name == "ACTIVE" then Ok(Active)
    else if name == "INACTIVE" then Ok(Inactive)
    else if name == "FROZEN" then Ok(Frozen)
    else if name == "CLOSED" then Ok(Closed)
    else Err(IllegalArgument("No enum constant com.bankoftuc.model.Account.AccountStatus." + name))
  }

  /** What one account row yields; the fee is that of a business account. */
  datatype AccountRow = AccountRow(kind: AccountKind, iban: string, owner: User, balance: real,
                                   status: AccountStatus, interestRate: real, monthlyFee: real)

  /**
   * The state of the account the loader builds from a row: the constructor's
   * (a personal account has no fee), then setStatus and setInterestRate.
   */
  function RowState(row: AccountRow): AccountState {
    Opening(row.balance, if row.kind == AccountKind.Business then row.monthlyFee else 0.0)
      .(status := row.status).(interestRate := row.interestRate)
  }

  /**
   * The body of the account loader for one parsed row. `number` is new
   * BigDecimal(text) and `usersByName` the username map. A short row or an
   * unknown owner is skipped (None); an owner of the wrong variant gives no
   * account either; a number or status that does not parse throws. The
   * accrued interest of column 5 is parsed and then dropped.
   */
  function DecodeAccountRow(parts: seq<string>, usersByName: map<string, User>,
                            number: string -> Result<real, Exception>)
    : (r: Result<Option<AccountRow>, Exception>)
    ensures |parts| < 7 ==> r == Ok(None)
    ensures |parts| >= 7 ==>
      (r.Err? <==>
        (number(parts[2]).Err? || StatusOf(parts[3]).Err? || number(parts[4]).Err? || number(parts[5]).Err? ||
         (parts[6] in usersByName && parts[0] == "BUSINESS" && usersByName[parts[6]].role.Business? &&
          |parts| > 7 && parts[7] != "" && number(parts[7]).Err?)))
    ensures |parts| >= 7 && r.Ok? ==>
      (r.value.None? <==>
        (parts[6] !in usersByName ||
         !((parts[0] == "PERSONAL" && usersByName[parts[6]].role.Individual?) ||
           (parts[0] == "BUSINESS" && usersByName[parts[6]].role.Business?))))
  {
    if |parts| < 7 then Ok(None)
    else
      var balance := number(parts[2]);
      if balance.Err? then Err(balance.error)
      else
        var status := StatusOf(parts[3]);
        if status.Err? then Err(status.error)
        else
          var rate := number(parts[4]);
          if rate.Err? then Err(rate.error)
          else
            var accrued := number(parts[5]);
            if accrued.Err? then Err(accrued.error)
            else if parts[6] !in usersByName then Ok(None)
            else
              var owner := usersByName[parts[6]];
              if parts[0] == "PERSONAL" && owner.role.Individual? then
                Ok(Some(AccountRow(AccountKind.Personal, parts[1], owner, balance.value, status.value, rate.value, 0.0)))
              else if parts[0] == "BUSINESS" && owner.role.Business? then
                var fee := if |parts| > 7 && parts[7] != "" then number(parts[7]) else Ok(25.00);
                if fee.Err? then Err(fee.error)
                else
                  Ok(Some(AccountRow(AccountKind.Business, parts[1], owner, balance.value, status.value, rate.value,
                                     fee.value)))
              else Ok(None)
  }

  /** The account the loader builds from a decoded row. */
  method OpenAccount(row: AccountRow) returns (a: Account)
    requires row.kind == AccountKind.Personal ==> row.owner.role.Individual?
    requires row.kind == AccountKind.Business ==> row.owner.role.Business?
    ensures fresh(a) && a.iban == row.iban && a.kind == row.kind && a.owner == row.owner
    ensures a.State() == RowState(row)
  {
    if row.kind == AccountKind.Personal {
      a := new Account.Personal(row.iban, row.balance, row.owner);
    } else {
      a := new Account.Business(row.iban, row.balance, row.owner, row.monthlyFee);
    }
    a.SetStatus(row.status);
    a.SetInterestRate(row.interestRate);
  }

  /**
   * A decoded account holds the row's IBAN, balance, status and rate, the
   * fee of column 7 or 25.00 for a business account and none for a personal
   * one, no co-owners, and no accrued interest whatever column 5 says.
   */
  lemma DecodedAccountContract(parts: seq<string>, usersByName: map<string, User>,
                               number: string -> Result<real, Exception>)
    requires DecodeAccountRow(parts, usersByName, number).Ok?
    requires DecodeAccountRow(parts, usersByName, number).value.Some?
    ensures var r := DecodeAccountRow(parts, usersByName, number).value.value;
      var st := RowState(r);
      |parts| >= 7 && parts[6] in usersByName && r.owner == usersByName[parts[6]] && r.iban == parts[1] &&
      Ok(st.balance) == number(parts[2]) && Ok(st.status) == StatusOf(parts[3]) &&
      Ok(st.interestRate) == number(parts[4]) && number(parts[5]).Ok? &&
      st.accruedInterest == 0.0 && st.secondaryOwners == []
    ensures var r := DecodeAccountRow(parts, usersByName, number).value.value;
      var st := RowState(r);
      (r.kind == AccountKind.Personal <==> parts[0] == "PERSONAL") &&
      (r.kind == AccountKind.Personal ==> r.owner.role.Individual? && st.monthlyFee == 0.0) &&
      (r.kind == AccountKind.Business ==> parts[0] == "BUSINESS" && r.owner.role.Business?) &&
      (r.kind == AccountKind.Business && |parts| > 7 && parts[7] != "" ==> Ok(st.monthlyFee) == number(parts[7])) &&
      (r.kind == AccountKind.Business && (|parts| == 7 || parts[7] == "") ==> st.monthlyFee == Money.DefaultMaintenanceFee)
  {
  }

  /** Rows that differ only in their accrued interest decode to the same account. */
  lemma AccruedInterestDropped(parts: seq<string>, other: string, usersByName: map<string, User>,
                               number: string -> Result<real, Exception>)
    requires |parts| >= 7
    requires number(parts[5]).Ok? && number(other).Ok?
    ensures DecodeAccountRow(parts[5 := other], usersByName, number) == DecodeAccountRow(parts, usersByName, number)
  {
    var q := parts[5 := other];
    assert q[0] == parts[0] && q[1] == parts[1] && q[2] == parts[2] && q[3] == parts[3];
    assert q[4] == parts[4] && q[6] == parts[6];
    assert |parts| > 7 ==> q[7] == parts[7];
  }

  /** Rows with fewer than seven fields are skipped without an error. */
  lemma ShortAccountRowSkipped(parts: seq<string>, usersByName: map<string, User>,
                               number: string -> Result<real, Exception>)
    requires |parts| < 7
    ensures DecodeAccountRow(parts, usersByName, number) == Ok(None)
  {
  }
}
