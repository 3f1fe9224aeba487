/**
 * The trash tables `deleted_users` and `deleted_service_providers`: copies
 * of removed accounts under fresh `DUR_` / `DSP_` IDs, searched and listed
 * 30 to a page without a page count.
 */
module DeletedRepo {
  import opened Wrappers
  import opened Text
  import opened Entity
  import opened Tables
  import opened StringTools

  const PageSize: nat := 30

  function DeletedUserId(d: DeletedUser): string { d.id }
  function DeletedServiceProviderId(d: DeletedServiceProvider): string { d.id }

  /** The string columns of `deleted_users`; the user name column is `username`. */
  const DeletedUserColumns: set<string> := {"id", "user_id", "first_name", "last_name", "username", "phone_number", "email"}

  /** The string columns of `deleted_service_providers`; the user name column is `user_name`. */
  const DeletedServiceProviderColumns: set<string> :=
    {"id", "provider_id", "first_name", "last_name", "user_name", "phone_number", "email"}

  function DeletedUserColumn(d: DeletedUser, column: string): (v: Option<string>)
    ensures v.Some? <==> column in DeletedUserColumns
  {
    if column == "id" then Some(d.id)
    else if column == "user_id" then Some(d.userId)
    else if column == "first_name" then Some(d.firstName)
    else if column == "last_name" then Some(d.lastName)
    else if column == "username" then Some(d.username)
    else if column == "phone_number" then Some(d.phoneNumber)
    else if column == "email" then Some(d.email)
    else None
  }

  function DeletedServiceProviderColumn(d: DeletedServiceProvider, column: string): (v: Option<string>)
    ensures v.Some? <==> column in DeletedServiceProviderColumns
  {
    if column == "id" then Some(d.id)
    else if column == "provider_id" then Some(d.providerId)
    else if column == "first_name" then Some(d.firstName)
    else if column == "last_name" then Some(d.lastName)
    else if column == "user_name" then Some(d.userName)
    else if column == "phone_number" then Some(d.phoneNumber)
    else if column == "email" then Some(d.email)
    else None
  }

  /** `DeletedUserRepository` over `deleted_users`. */
  class DeletedUserRepository {
    var rows: map<string, DeletedUser>

    ghost predicate Valid()
      reads this
    {
      Keyed(rows, DeletedUserId)
    }

    constructor ()
      ensures Valid() && rows == map[]
    {
      rows := map[];
    }

    /**
     * `Create`: a fresh ID `DUR_` + 7 random runes + counter; the stored
     * userId becomes that ID, an underscore and the userId it was given.
     * `insertError` is the database's answer to the insert: when it reports
     * an error, that error is returned and the table is unchanged.
     */
    method Create(deletedUser: DeletedUser, draw: nat -> string, insertError: Option<Error>)
      returns (r: Result<DeletedUser>, ghost tries: nat)
      requires Valid()
      requires forall i: nat :: IsRandomString(draw(i), 7)
      modifies this
      ensures Valid()
      ensures insertError.Some? ==> r == Failure(insertError.value) && rows == old(rows)
      ensures insertError.None? ==>
        && r.Success?
        && (var minted := MintedId("DUR_", draw(tries), |old(rows)| + 1 + tries);
            r.value == deletedUser.(id := minted, userId := minted + "_" + deletedUser.userId))
        && r.value.id !in old(rows)
        && rows == old(rows)[r.value.id := r.value]
    {
      var id;
      id, tries := MintId(rows, "DUR_", 7, draw);
      var created := deletedUser.(id := id, userId := id + "_" + deletedUser.userId);
      if insertError.Some? {
        return Failure(insertError.value), tries;
      }
      rows := rows[id := created];
      r := Success(created);
    }

    /** `Find`: the row with that ID. */
    method Find(id: string) returns (r: Result<DeletedUser>)
      requires Valid()
      ensures id in rows <==> r.Success?
      ensures id in rows ==> r.value == rows[id]
      ensures id !in rows ==> r.error == RecordNotFound
    {
      if id in rows {
        r := Success(rows[id]);
      } else {
        r := Failure(RecordNotFound);
      }
    }

    /**
     * `Search`: one `column = ?` clause per column, OR-joined, phone_number
     * bound to the +251 form of a key with a leading 0, one page of 30 and
     * no count; an unknown column or an empty list fails the query and
     * leaves no rows.
     */
    method Search(key: string, pageNum: int, columns: seq<string>) returns (page: seq<DeletedUser>)
      requires Valid()
      requires "phone_number" in columns ==> key != ""
      ensures !Queryable(columns, DeletedUserColumns) ==> page == []
      ensures Queryable(columns, DeletedUserColumns) ==>
        PageOf(page, rows, DeletedUserId, (x: DeletedUser) => SearchFound(DeletedUserColumn, x, key, columns), pageNum, PageSize)
    {
      var clauses: seq<Clause> := [];
      for i := 0 to |columns|
        invariant |clauses| == i
        invariant forall j | 0 <= j < i :: clauses[j].column == columns[j]
        invariant forall j | 0 <= j < i :: clauses[j].value == BoundValue(key, columns[j])
      {
        if columns[i] == "phone_number" {
          if key[0] == '0' {
            clauses := clauses + [Clause(columns[i], "+251" + key[1..])];
            continue;
          }
        }
        clauses := clauses + [Clause(columns[i], key)];
      }
      if !Queryable(columns, DeletedUserColumns) {
        return [];
      }
      var all := Select(rows, DeletedUserId, (x: DeletedUser) => EqualsAny(DeletedUserColumn, x, clauses));
      forall x: DeletedUser
        ensures EqualsAny(DeletedUserColumn, x, clauses) <==> SearchFound(DeletedUserColumn, x, key, columns)
      {
        ExactClausesFindHits(DeletedUserColumn, x, key, columns, clauses);
      }
      page := Page(all, pageNum, PageSize);
    }

    /** `SearchWRegx`: the rows with a listed column that begins with the key, one page of 30. */
    method SearchWRegx(key: string, pageNum: int, columns: seq<string>) returns (page: seq<DeletedUser>)
      requires Valid()
      ensures !Queryable(columns, DeletedUserColumns) ==> page == []
      ensures Queryable(columns, DeletedUserColumns) ==>
        PageOf(page, rows, DeletedUserId, (x: DeletedUser) => PrefixFound(DeletedUserColumn, x, key, columns), pageNum, PageSize)
    {
      var clauses: seq<Clause> := [];
      for i := 0 to |columns|
        invariant |clauses| == i
        invariant forall j | 0 <= j < i :: clauses[j] == Clause(columns[j], "^" + QuoteMeta(key))
      {
        clauses := clauses + [Clause(columns[i], "^" + QuoteMeta(key))];
      }
      if !Queryable(columns, DeletedUserColumns) {
        return [];
      }
      var all := Select(rows, DeletedUserId, (x: DeletedUser) => RegexpAny(DeletedUserColumn, x, clauses));
      forall x: DeletedUser
        ensures RegexpAny(DeletedUserColumn, x, clauses) <==> PrefixFound(DeletedUserColumn, x, key, columns)
      {
        RegexClausesFindPrefixes(DeletedUserColumn, x, key, columns, clauses);
      }
      page := Page(all, pageNum, PageSize);
    }

    /** `All`: one page of 30 of all rows. */
    method All(pageNum: int) returns (page: seq<DeletedUser>)
      requires Valid()
      ensures PageOf(page, rows, DeletedUserId, (x: DeletedUser) => true, pageNum, PageSize)
    {
      var all := Select(rows, DeletedUserId, (x: DeletedUser) => true);
      page := Page(all, pageNum, PageSize);
    }

    /** `Update`: fails when no row has the ID; otherwise saves the record exactly as given. */
    method Update(deletedUser: DeletedUser) returns (err: Option<Error>)
      requires Valid()
      modifies this
      ensures Valid()
      ensures deletedUser.id !in old(rows) ==> err == Some(RecordNotFound) && rows == old(rows)
      ensures deletedUser.id in old(rows) ==> err == None && rows == old(rows)[deletedUser.id := deletedUser]
    {
      if deletedUser.id !in rows {
        return Some(RecordNotFound);
      }
      rows := rows[deletedUser.id := deletedUser];
      err := None;
    }

    /** `Delete`: the removed row, or an error and no change when the ID is absent. */
    method Delete(id: string) returns (r: Result<DeletedUser>)
      requires Valid()
      modifies this
      ensures Valid()
      ensures id !in old(rows) ==> r == Failure(RecordNotFound) && rows == old(rows)
      ensures id in old(rows) ==> r == Success(old(rows)[id]) && rows == old(rows) - {id}
    {
      if id !in rows {
        return Failure(RecordNotFound);
      }
      r := Success(rows[id]);
      rows := rows - {id};
    }
  }

  /** `DeletedServiceProviderRepository` over `deleted_service_providers`. */
  class DeletedServiceProviderRepository {
    var rows: map<string, DeletedServiceProvider>

    ghost predicate Valid()
      reads this
    {
      Keyed(rows, DeletedServiceProviderId)
    }

    constructor ()
      ensures Valid() && rows == map[]
    {
      rows := map[];
    }

    /**
     * `Create`: a fresh ID `DSP_` + 7 random runes + counter; the stored
     * providerId becomes that ID, an underscore and the providerId it was given.
     * A failed insert, reported by `insertError`, leaves the table unchanged.
     */
    method Create(deletedProvider: DeletedServiceProvider, draw: nat -> string, insertError: Option<Error>)
      returns (r: Result<DeletedServiceProvider>, ghost tries: nat)
      requires Valid()
      requires forall i: nat :: IsRandomString(draw(i), 7)
      modifies this
      ensures Valid()
      ensures insertError.Some? ==> r == Failure(insertError.value) && rows == old(rows)
      ensures insertError.None? ==>
        && r.Success?
        && (var minted := MintedId("DSP_", draw(tries), |old(rows)| + 1 + tries);
            r.value == deletedProvider.(id := minted, providerId := minted + "_" + deletedProvider.providerId))
        && r.value.id !in old(rows)
        && rows == old(rows)[r.value.id := r.value]
    {
      var id;
      id, tries := MintId(rows, "DSP_", 7, draw);
      var created := deletedProvider.(id := id, providerId := id + "_" + deletedProvider.providerId);
      if insertError.Some? {
        return Failure(insertError.value), tries;
      }
      rows := rows[id := created];
      r := Success(created);
    }

    /** `Find`: the row with that ID. */
    method Find(id: string) returns (r: Result<DeletedServiceProvider>)
      requires Valid()
      ensures id in rows <==> r.Success?
      ensures id in rows ==> r.value == rows[id]
      ensures id !in rows ==> r.error == RecordNotFound
    {
      if id in rows {
        r := Success(rows[id]);
      } else {
        r := Failure(RecordNotFound);
      }
    }

    /**
     * `Search`: one `column = ?` clause per column, OR-joined, phone_number
     * bound to the +251 form of a key with a leading 0, one page of 30 and
     * no count; an unknown column or an empty list fails the query and
     * leaves no rows.
     */
    method Search(key: string, pageNum: int, columns: seq<string>) returns (page: seq<DeletedServiceProvider>)
      requires Valid()
      requires "phone_number" in columns ==> key != ""
      ensures !Queryable(columns, DeletedServiceProviderColumns) ==> page == []
      ensures Queryable(columns, DeletedServiceProviderColumns) ==>
        PageOf(page, rows, DeletedServiceProviderId, (x: DeletedServiceProvider) => SearchFound(DeletedServiceProviderColumn, x, key, columns), pageNum, PageSize)
    {
      var clauses: seq<Clause> := [];
      for i := 0 to |columns|
        invariant |clauses| == i
        invariant forall j | 0 <= j < i :: clauses[j].column == columns[j]
        invariant forall j | 0 <= j < i :: clauses[j].value == BoundValue(key, columns[j])
      {
        if columns[i] == "phone_number" {
          if key[0] == '0' {
            clauses := clauses + [Clause(columns[i], "+251" + key[1..])];
            continue;
          }
        }
        clauses := clauses + [Clause(columns[i], key)];
      }
      if !Queryable(columns, DeletedServiceProviderColumns) {
        return [];
      }
      var all := Select(rows, DeletedServiceProviderId, (x: DeletedServiceProvider) => EqualsAny(DeletedServiceProviderColumn, x, clauses));
      forall x: DeletedServiceProvider
        ensures EqualsAny(DeletedServiceProviderColumn, x, clauses) <==> SearchFound(DeletedServiceProviderColumn, x, key, columns)
      {
        ExactClausesFindHits(DeletedServiceProviderColumn, x, key, columns, clauses);
      }
      page := Page(all, pageNum, PageSize);
    }

    /** `SearchWRegx`: the rows with a listed column that begins with the key, one page of 30. */
    method SearchWRegx(key: string, pageNum: int, columns: seq<string>) returns (page: seq<DeletedServiceProvider>)
      requires Valid()
      ensures !Queryable(columns, DeletedServiceProviderColumns) ==> page == []
      ensures Queryable(columns, DeletedServiceProviderColumns) ==>
        PageOf(page, rows, DeletedServiceProviderId, (x: DeletedServiceProvider) => PrefixFound(DeletedServiceProviderColumn, x, key, columns), pageNum, PageSize)
    {
      var clauses: seq<Clause> := [];
      for i := 0 to |columns|
        invariant |clauses| == i
        invariant forall j | 0 <= j < i :: clauses[j] == Clause(columns[j], "^" + QuoteMeta(key))
      {
        clauses := clauses + [Clause(columns[i], "^" + QuoteMeta(key))];
      }
      if !Queryable(columns, DeletedServiceProviderColumns) {
        return [];
      }
      var all := Select(rows, DeletedServiceProviderId, (x: DeletedServiceProvider) => RegexpAny(DeletedServiceProviderColumn, x, clauses));
      forall x: DeletedServiceProvider
        ensures RegexpAny(DeletedServiceProviderColumn, x, clauses) <==> PrefixFound(DeletedServiceProviderColumn, x, key, columns)
      {
        RegexClausesFindPrefixes(DeletedServiceProviderColumn, x, key, columns, clauses);
      }
      page := Page(all, pageNum, PageSize);
    }

    /** `All`: one page of 30 of all rows. */
    method All(pageNum: int) returns (page: seq<DeletedServiceProvider>)
      requires Valid()
      ensures PageOf(page, rows, DeletedServiceProviderId, (x: DeletedServiceProvider) => true, pageNum, PageSize)
    {
      var all := Select(rows, DeletedServiceProviderId, (x: DeletedServiceProvider) => true);
      page := Page(all, pageNum, PageSize);
    }

    /** `Update`: fails when no row has the ID; otherwise saves the record exactly as given. */
    method Update(deletedProvider: DeletedServiceProvider) returns (err: Option<Error>)
      requires Valid()
      modifies this
      ensures Valid()
      ensures deletedProvider.id !in old(rows) ==> err == Some(RecordNotFound) && rows == old(rows)
      ensures deletedProvider.id in old(rows) ==> err == None && rows == old(rows)[deletedProvider.id := deletedProvider]
    {
      if deletedProvider.id !in rows {
        return Some(RecordNotFound);
      }
      rows := rows[deletedProvider.id := deletedProvider];
      err := None;
    }

    /** `Delete`: the removed row, or an error and no change when the ID is absent. */
    method Delete(id: string) returns (r: Result<DeletedServiceProvider>)
      requires Valid()
      modifies this
      ensures Valid()
      ensures id !in old(rows) ==> r == Failure(RecordNotFound) && rows == old(rows)
      ensures id in old(rows) ==> r == Success(old(rows)[id]) && rows == old(rows) - {id}
    {
      if id !in rows {
        return Failure(RecordNotFound);
      }
      r := Success(rows[id]);
      rows := rows - {id};
    }
  }
}
