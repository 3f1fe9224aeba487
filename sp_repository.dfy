/**
 * `ServiceProviderRepository` over the `service_providers` table: ID
 * minting, lookup by any of four keys with the local phone rewrite, exact
 * and prefix searches paged at 20, and updates and deletes by ID.
 */
module ServiceProviderRepo {
  import opened Wrappers
  import opened Text
  import opened Entity
  import opened Common
  import opened Tables
  import opened StringTools
  import Accounts

  const PageSize: nat := 20

  function AccountId(a: Account): string { a.id }

  /** The string columns of an account table; anything else is not a column. */
  function Column(a: Account, column: string): (v: Option<string>)
    ensures v.Some? <==> column in AccountColumns
  {
    if column == "id" then Some(a.id)
    else if column == "first_name" then Some(a.firstName)
    else if column == "last_name" then Some(a.lastName)
    else if column == "user_name" then Some(a.userName)
    else if column == "phone_number" then Some(a.phoneNumber)
    else if column == "email" then Some(a.email)
    else None
  }

  /** The string columns of `service_providers` and `users`. */
  const AccountColumns: set<string> := {"id", "first_name", "last_name", "user_name", "phone_number", "email"}

  /** What `Find` accepts: the identifier as id, user_name or email, or as a phone key. */
  predicate FindHit(a: Account, identifier: string)
    requires identifier != ""
  {
    a.id == identifier || a.userName == identifier || a.email == identifier
      || a.phoneNumber == Accounts.PhoneKey(identifier)
  }

  /** The text MySQL stores when a value is written into a string column. */
  function ColumnText(value: Dynamic): string {
    match value
    case Str(s) => s
    case Int64(n) => if n < 0 then "-" + Decimal(-n) else Decimal(n)
    case OtherInt(n) => if n < 0 then "-" + Decimal(-n) else Decimal(n)
  }

  /** The account with one string column set, if the column exists. */
  function SetColumn(a: Account, column: string, text: string): (r: Option<Account>)
    ensures r.Some? <==> Column(a, column).Some?
    ensures r.Some? ==> Column(r.value, column) == Some(text)
    ensures r.Some? ==> forall c | c != column :: Column(r.value, c) == Column(a, c)
    ensures r.Some? ==> r.value.createdAt == a.createdAt && r.value.updatedAt == a.updatedAt
  {
    if column == "id" then Some(a.(id := text))
    else if column == "first_name" then Some(a.(firstName := text))
    else if column == "last_name" then Some(a.(lastName := text))
    else if column == "user_name" then Some(a.(userName := text))
    else if column == "phone_number" then Some(a.(phoneNumber := text))
    else if column == "email" then Some(a.(email := text))
    else None
  }

  /** A local number used as a search key finds the account whose stored number the validator produced from it. */
  lemma SearchFindsLocalNumber(a: Account, key: string)
    requires Accounts.IsLocalPhone(key)
    requires a.phoneNumber == Accounts.NormalisePhone(key)
    ensures SearchHit(Column, a, key, "phone_number")
  {
    Accounts.PhoneKeyAgreesWithNormalise(key);
  }

  class ServiceProviderRepository {
    var rows: map<string, Account>

    ghost predicate Valid()
      reads this
    {
      Keyed(rows, AccountId)
    }

    constructor ()
      ensures Valid() && rows == map[]
    {
      rows := map[];
    }

    /**
     * `Create`: the record gets a fresh ID `SP-` + 7 random runes + counter
     * (`tries` is the number of rejected candidates) and is inserted.
     */
    method Create(provider: Account, draw: nat -> string) returns (created: Account, ghost tries: nat)
      requires Valid()
      requires forall i: nat :: IsRandomString(draw(i), 7)
      modifies this
      ensures Valid()
      ensures created == provider.(id := MintedId("SP-", draw(tries), |old(rows)| + 1 + tries))
      ensures created.id !in old(rows)
      ensures rows == old(rows)[created.id := created]
    {
      var id;
      id, tries := MintId(rows, "SP-", 7, draw);
      created := provider.(id := id);
      rows := rows[id := created];
    }

    /** `Find`: a row matching the identifier in id, user_name, email or (rewritten) phone_number. */
    method Find(identifier: string) returns (r: Result<Account>)
      requires Valid()
      requires identifier != ""
      ensures r.Success? <==> exists k | k in rows :: FindHit(rows[k], identifier)
      ensures r.Success? ==> r.value in rows.Values && FindHit(r.value, identifier)
      ensures r.Failure? ==> r.error == RecordNotFound
    {
      var row := FindFirst(rows, (a: Account) => FindHit(a, identifier));
      if row.Some? {
        r := Success(row.value);
      } else {
        r := Failure(RecordNotFound);
      }
    }

    /** `FindAll`: one page of 20 of all rows, and the number of pages. */
    method FindAll(pageNum: int) returns (page: seq<Account>, pageCount: nat)
      requires Valid()
      ensures PagedResult(page, pageCount, rows, AccountId, (a: Account) => true, pageNum, PageSize)
    {
      var all := Select(rows, AccountId, (a: Account) => true);
      page := Page(all, pageNum, PageSize);
      pageCount := PageCount(|all|, PageSize);
    }

    /**
     * `Search`: one `column = ?` clause per column, OR-joined, phone_number
     * bound to the +251 form of a key with a leading 0; an unknown column or
     * an empty column list makes both queries fail, leaving no rows and a
     * page count of 0.
     */
    method Search(key: string, pageNum: int, columns: seq<string>) returns (page: seq<Account>, pageCount: nat)
      requires Valid()
      requires "phone_number" in columns ==> key != ""
      ensures !Queryable(columns, AccountColumns) ==> page == [] && pageCount == 0
      ensures Queryable(columns, AccountColumns) ==>
        PagedResult(page, pageCount, rows, AccountId, (a: Account) => SearchFound(Column, a, key, columns), pageNum, PageSize)
    {
      var clauses: seq<Clause> := [];
      for i := 0 to |columns|
        invariant |clauses| == i
        invariant forall j | 0 <= j < i :: clauses[j].column == columns[j]
        invariant forall j | 0 <= j < i :: clauses[j].value == BoundValue(key, columns[j])
      {
        if columns[i] == "phone_number" {
          if key[0] == '0' {
            clauses := clauses + [Clause(columns[i], "+251" + key[1..])];
            continue;
          }
        }
        clauses := clauses + [Clause(columns[i], key)];
      }
      if !Queryable(columns, AccountColumns) {
        return [], 0;
      }
      var all := Select(rows, AccountId, (a: Account) => EqualsAny(Column, a, clauses));
      forall a: Account
        ensures EqualsAny(Column, a, clauses) <==> SearchFound(Column, a, key, columns)
      {
        ExactClausesFindHits(Column, a, key, columns, clauses);
      }
      page := Page(all, pageNum, PageSize);
      pageCount := PageCount(|all|, PageSize);
    }

    /**
     * `SearchWRegx`: one `column regexp ?` clause per column, each bound to
     * `"^" + QuoteMeta(key)`, which finds the rows with a listed column that
     * begins with the key.
     */
    method SearchWRegx(key: string, pageNum: int, columns: seq<string>) returns (page: seq<Account>, pageCount: nat)
      requires Valid()
      ensures !Queryable(columns, AccountColumns) ==> page == [] && pageCount == 0
      ensures Queryable(columns, AccountColumns) ==>
        PagedResult(page, pageCount, rows, AccountId, (a: Account) => PrefixFound(Column, a, key, columns), pageNum, PageSize)
    {
      var clauses: seq<Clause> := [];
      for i := 0 to |columns|
        invariant |clauses| == i
        invariant forall j | 0 <= j < i :: clauses[j] == Clause(columns[j], "^" + QuoteMeta(key))
      {
        clauses := clauses + [Clause(columns[i], "^" + QuoteMeta(key))];
      }
      if !Queryable(columns, AccountColumns) {
        return [], 0;
      }
      var all := Select(rows, AccountId, (a: Account) => RegexpAny(Column, a, clauses));
      forall a: Account
        ensures RegexpAny(Column, a, clauses) <==> PrefixFound(Column, a, key, columns)
      {
        RegexClausesFindPrefixes(Column, a, key, columns, clauses);
      }
      page := Page(all, pageNum, PageSize);
      pageCount := PageCount(|all|, PageSize);
    }

    /** `Update`: fails when no row has the ID; otherwise saves the record with the stored CreatedAt. */
    method Update(provider: Account) returns (r: Result<Account>)
      requires Valid()
      modifies this
      ensures Valid()
      ensures provider.id !in old(rows) ==> r == Failure(RecordNotFound) && rows == old(rows)
      ensures provider.id in old(rows) ==>
        r == Success(provider.(createdAt := old(rows)[provider.id].createdAt)) && rows == old(rows)[provider.id := r.value]
    {
      if provider.id !in rows {
        return Failure(RecordNotFound);
      }
      var saved := provider.(createdAt := rows[provider.id].createdAt);
      rows := rows[provider.id := saved];
      r := Success(saved);
    }

    /**
     * `UpdateValue`: fails when no row has the ID or the column does not
     * exist (and, for the id column, when the new ID is taken by another
     * row); otherwise only that column of that row changes.
     */
    method UpdateValue(id: string, column: string, value: Dynamic) returns (err: Option<Error>)
      requires Valid()
      modifies this
      ensures Valid()
      ensures id !in old(rows) ==> err == Some(RecordNotFound) && rows == old(rows)
      ensures id in old(rows) && SetColumn(old(rows)[id], column, ColumnText(value)).None? ==> err.Some? && rows == old(rows)
      ensures id in old(rows) && column != "id" && Column(old(rows)[id], column).Some? ==>
        err == None && rows == old(rows)[id := SetColumn(old(rows)[id], column, ColumnText(value)).value]
      ensures id in old(rows) && column == "id" ==>
        var moved := old(rows)[id].(id := ColumnText(value));
        if ColumnText(value) != id && ColumnText(value) in old(rows) then err.Some? && rows == old(rows)
        else err == None && rows == (old(rows) - {id})[moved.id := moved]
    {
      if id !in rows {
        return Some(RecordNotFound);
      }
      var updated := SetColumn(rows[id], column, ColumnText(value));
      if updated.None? {
        return Some(Error("Unknown column '" + column + "' in 'field list'"));
      }
      if column == "id" {
        if updated.value.id != id && updated.value.id in rows {
          return Some(Error("Duplicate entry '" + updated.value.id + "' for key 'PRIMARY'"));
        }
        rows := (rows - {id})[updated.value.id := updated.value];
      } else {
        rows := rows[id := updated.value];
      }
      err := None;
    }

    /** `Delete`: the removed row, or an error and no change when the ID is absent. */
    method Delete(id: string) returns (r: Result<Account>)
      requires Valid()
      modifies this
      ensures Valid()
      ensures id !in old(rows) ==> r == Failure(RecordNotFound) && rows == old(rows)
      ensures id in old(rows) ==> r == Success(old(rows)[id]) && rows == old(rows) - {id}
    {
      if id !in rows {
        return Failure(RecordNotFound);
      }
      r := Success(rows[id]);
      rows := rows - {id};
    }
  }
}
