/**
 * The deleted service: copying a removed account into its trash table, and
 * searching the trash tables, where an exact search and a prefix search are
 * merged by ID.
 */
module TrashService {
  import opened Wrappers
  import opened Text
  import opened Entity
  import opened Tables
  import opened StringTools
  import opened DeletedRepo

  /** The exact-match columns the searches of both trash tables use. */
  const ExactColumns: seq<string> := ["id", "user_name", "phone_number", "email"]

  /** The exact-match columns of `deleted_users`, whose user-name column is `username`. */
  const DeletedUserExactColumns: seq<string> := ["id", "username", "phone_number", "email"]

  /** The prefix-match columns: `first_name` and whatever the caller adds. */
  function RegxColumns(extra: seq<string>): (columns: seq<string>)
    ensures |columns| > 0 && columns[0] == "first_name" && columns[1..] == extra
  {
    ["first_name"] + extra
  }

  /* ------------------------------ trash copies ------------------------------ */

  /**
   * The record `AddUserToTrash` hands to the repository: the user's ID and
   * five profile fields. The user ID column is left empty.
   */
  function UserTrashCopyAsWritten(user: User): (d: DeletedUser)
    ensures d.userId == ""
    ensures d.firstName == user.firstName && d.lastName == user.lastName && d.username == user.userName
    ensures d.phoneNumber == user.phoneNumber && d.email == user.email
  {
    DeletedUser(user.id, "", user.firstName, user.lastName, user.userName, user.phoneNumber, user.email, 0)
  }

  /** The record with the user ID column filled from the user, as the trash table intends. */
  function UserTrashCopy(user: User): (d: DeletedUser)
    ensures d == UserTrashCopyAsWritten(user).(userId := user.id)
  {
    DeletedUser(user.id, user.id, user.firstName, user.lastName, user.userName, user.phoneNumber, user.email, 0)
  }

  /** The record `AddServiceProviderToTrash` hands over: five profile fields, neither ID. */
  function ProviderTrashCopyAsWritten(provider: ServiceProvider): (d: DeletedServiceProvider)
    ensures d.id == "" && d.providerId == ""
    ensures d.firstName == provider.firstName && d.lastName == provider.lastName && d.userName == provider.userName
    ensures d.phoneNumber == provider.phoneNumber && d.email == provider.email
  {
    DeletedServiceProvider("", "", provider.firstName, provider.lastName, provider.userName,
                           provider.phoneNumber, provider.email, 0)
  }

  /** The record with the provider ID column filled from the provider. */
  function ProviderTrashCopy(provider: ServiceProvider): (d: DeletedServiceProvider)
    ensures d == ProviderTrashCopyAsWritten(provider).(providerId := provider.id)
  {
    DeletedServiceProvider("", provider.id, provider.firstName, provider.lastName, provider.userName,
                           provider.phoneNumber, provider.email, 0)
  }

  const UserTrashFailedMessage := "unable to add user to trash"
  const ProviderTrashFailedMessage := "unable to add service provider to trash"

  /**
   * `AddUserToTrash` as written: the copy is stored under a fresh `DUR_` ID
   * and its user ID becomes that ID and an underscore, nothing more. A
   * refused insert (`insertError`) is reported under one message and leaves
   * the trash as it was.
   */
  method AddUserToTrashAsWritten(trash: DeletedUserRepository, user: User, draw: nat -> string, insertError: Option<Error>)
    returns (r: Result<DeletedUser>, ghost tries: nat)
    requires trash.Valid()
    requires forall i: nat :: IsRandomString(draw(i), 7)
    modifies trash
    ensures trash.Valid()
    ensures insertError.Some? ==> r == Failure(Error(UserTrashFailedMessage)) && trash.rows == old(trash.rows)
    ensures insertError.None? ==>
      && r.Success?
      && (var minted := MintedId("DUR_", draw(tries), |old(trash.rows)| + 1 + tries);
          r.value == UserTrashCopyAsWritten(user).(id := minted, userId := minted + "_"))
      && r.value.id !in old(trash.rows)
      && trash.rows == old(trash.rows)[r.value.id := r.value]
  {
    r, tries := trash.Create(UserTrashCopyAsWritten(user), draw, insertError);
    if r.Failure? {
      r := Failure(Error(UserTrashFailedMessage));
    }
  }

  /** `AddUserToTrash` with the user ID copied: the stored user ID is the trash ID, `_`, the user's ID. */
  method AddUserToTrash(trash: DeletedUserRepository, user: User, draw: nat -> string, insertError: Option<Error>)
    returns (r: Result<DeletedUser>, ghost tries: nat)
    requires trash.Valid()
    requires forall i: nat :: IsRandomString(draw(i), 7)
    modifies trash
    ensures trash.Valid()
    ensures insertError.Some? ==> r == Failure(Error(UserTrashFailedMessage)) && trash.rows == old(trash.rows)
    ensures insertError.None? ==>
      && r.Success?
      && (var minted := MintedId("DUR_", draw(tries), |old(trash.rows)| + 1 + tries);
          r.value == UserTrashCopy(user).(id := minted, userId := minted + "_" + user.id))
      && r.value.id !in old(trash.rows)
      && trash.rows == old(trash.rows)[r.value.id := r.value]
  {
    r, tries := trash.Create(UserTrashCopy(user), draw, insertError);
    if r.Failure? {
      r := Failure(Error(UserTrashFailedMessage));
    }
  }

  /**
   * `AddServiceProviderToTrash` as written: the stored provider ID is the
   * trash ID and an underscore; a refused insert is reported under one
   * message and leaves the trash as it was.
   */
  method AddServiceProviderToTrashAsWritten(trash: DeletedServiceProviderRepository, provider: ServiceProvider,
                                            draw: nat -> string, insertError: Option<Error>)
    returns (r: Result<DeletedServiceProvider>, ghost tries: nat)
    requires trash.Valid()
    requires forall i: nat :: IsRandomString(draw(i), 7)
    modifies trash
    ensures trash.Valid()
    ensures insertError.Some? ==> r == Failure(Error(ProviderTrashFailedMessage)) && trash.rows == old(trash.rows)
    ensures insertError.None? ==>
      && r.Success?
      && (var minted := MintedId("DSP_", draw(tries), |old(trash.rows)| + 1 + tries);
          r.value == ProviderTrashCopyAsWritten(provider).(id := minted, providerId := minted + "_"))
      && r.value.id !in old(trash.rows)
      && trash.rows == old(trash.rows)[r.value.id := r.value]
  {
    r, tries := trash.Create(ProviderTrashCopyAsWritten(provider), draw, insertError);
    if r.Failure? {
      r := Failure(Error(ProviderTrashFailedMessage));
    }
  }

  /** `AddServiceProviderToTrash` with the provider ID copied. */
  method AddServiceProviderToTrash(trash: DeletedServiceProviderRepository, provider: ServiceProvider,
                                   draw: nat -> string, insertError: Option<Error>)
    returns (r: Result<DeletedServiceProvider>, ghost tries: nat)
    requires trash.Valid()
    requires forall i: nat :: IsRandomString(draw(i), 7)
    modifies trash
    ensures trash.Valid()
    ensures insertError.Some? ==> r == Failure(Error(ProviderTrashFailedMessage)) && trash.rows == old(trash.rows)
    ensures insertError.None? ==>
      && r.Success?
      && (var minted := MintedId("DSP_", draw(tries), |old(trash.rows)| + 1 + tries);
          r.value == ProviderTrashCopy(provider).(id := minted, providerId := minted + "_" + provider.id))
      && r.value.id !in old(trash.rows)
      && trash.rows == old(trash.rows)[r.value.id := r.value]
  {
    r, tries := trash.Create(ProviderTrashCopy(provider), draw, insertError);
    if r.Failure? {
      r := Failure(Error(ProviderTrashFailedMessage));
    }
  }

  /** The ID a trash record was filed under, read back from its stored user or provider ID. */
  function OriginalId(trashId: string, stored: string): string {
    if |trashId| + 1 <= |stored| then stored[|trashId| + 1..] else ""
  }

  /**
   * As written, the trash copy forgets whose account it was: two users that
   * differ only in their IDs leave identical trash records.
   */
  lemma TrashCopyAsWrittenForgetsUser(u1: User, u2: User, minted: string)
    requires u1 == u2.(id := u1.id)
    ensures UserTrashCopyAsWritten(u1).(id := minted, userId := minted + "_")
         == UserTrashCopyAsWritten(u2).(id := minted, userId := minted + "_")
    ensures OriginalId(minted, minted + "_") == ""
  {
  }

  /**
   * As written, the provider's trash copy carries neither ID: two providers
   * that differ only in their IDs leave identical trash records, and the
   * stored provider ID names no provider.
   */
  lemma TrashCopyAsWrittenForgetsProvider(p1: ServiceProvider, p2: ServiceProvider, minted: string)
    requires p1 == p2.(id := p1.id)
    ensures ProviderTrashCopyAsWritten(p1).(id := minted, providerId := minted + "_")
         == ProviderTrashCopyAsWritten(p2).(id := minted, providerId := minted + "_")
    ensures OriginalId(minted, minted + "_") == ""
  {
  }

  /** With the ID copied, the stored user ID gives the account back. */
  lemma TrashCopyKeepsUser(user: User, minted: string)
    ensures var stored := UserTrashCopy(user).(id := minted, userId := minted + "_" + user.id);
      OriginalId(stored.id, stored.userId) == user.id
  {
    var stored := minted + "_" + user.id;
    assert stored[|minted| + 1..] == user.id;
  }

  /** With the ID copied, the stored provider ID gives the provider back. */
  lemma ProviderTrashCopyKeepsProvider(provider: ServiceProvider, minted: string)
    ensures var stored := ProviderTrashCopy(provider).(id := minted, providerId := minted + "_" + provider.id);
      OriginalId(stored.id, stored.providerId) == provider.id
  {
    var stored := minted + "_" + provider.id;
    assert stored[|minted| + 1..] == provider.id;
  }

  /* ------------------------------- searches -------------------------------- */

  /** What the exact search of `deleted_users` returns for these columns. */
  ghost predicate DeletedUserExactPage(page: seq<DeletedUser>, rows: map<string, DeletedUser>, key: string,
                                       columns: seq<string>, pageNum: int)
    requires "phone_number" in columns ==> key != ""
  {
    if Queryable(columns, DeletedUserColumns)
    then PageOf(page, rows, DeletedUserId, (x: DeletedUser) => SearchFound(DeletedUserColumn, x, key, columns), pageNum, PageSize)
    else page == []
  }

  /** What the prefix search of `deleted_users` returns for these columns. */
  ghost predicate DeletedUserPrefixPage(page: seq<DeletedUser>, rows: map<string, DeletedUser>, key: string,
                                        columns: seq<string>, pageNum: int)
  {
    if Queryable(columns, DeletedUserColumns)
    then PageOf(page, rows, DeletedUserId, (x: DeletedUser) => PrefixFound(DeletedUserColumn, x, key, columns), pageNum, PageSize)
    else page == []
  }

  ghost predicate DeletedProviderExactPage(page: seq<DeletedServiceProvider>, rows: map<string, DeletedServiceProvider>,
                                           key: string, columns: seq<string>, pageNum: int)
    requires "phone_number" in columns ==> key != ""
  {
    if Queryable(columns, DeletedServiceProviderColumns)
    then PageOf(page, rows, DeletedServiceProviderId,
                (x: DeletedServiceProvider) => SearchFound(DeletedServiceProviderColumn, x, key, columns), pageNum, PageSize)
    else page == []
  }

  ghost predicate DeletedProviderPrefixPage(page: seq<DeletedServiceProvider>, rows: map<string, DeletedServiceProvider>,
                                            key: string, columns: seq<string>, pageNum: int)
  {
    if Queryable(columns, DeletedServiceProviderColumns)
    then PageOf(page, rows, DeletedServiceProviderId,
                (x: DeletedServiceProvider) => PrefixFound(DeletedServiceProviderColumn, x, key, columns), pageNum, PageSize)
    else page == []
  }

  /**
   * `SearchDeletedUsers` as written: the exact search names `user_name`, a
   * column `deleted_users` does not have, so that query fails and only the
   * prefix search contributes. `pageNum` is the parsed pagination.
   */
  method SearchDeletedUsersAsWritten(trash: DeletedUserRepository, key: string, pageNum: int, extra: seq<string>)
    returns (results: seq<DeletedUser>, exact: seq<DeletedUser>, prefixed: seq<DeletedUser>)
    requires trash.Valid()
    ensures IsBlank(key) ==> results == []
    ensures !IsBlank(key) ==>
      && exact == []
      && DeletedUserPrefixPage(prefixed, trash.rows, key, RegxColumns(extra), pageNum)
      && MergedById(results, exact, prefixed, DeletedUserId)
  {
    if IsBlank(key) {
      return [], [], [];
    }
    assert key != "";
    exact := trash.Search(key, pageNum, ExactColumns);
    assert !Queryable(ExactColumns, DeletedUserColumns) by {
      assert ExactColumns[1] !in DeletedUserColumns;
    }
    prefixed := trash.SearchWRegx(key, pageNum, RegxColumns(extra));
    results := MergeById(exact, prefixed, DeletedUserId);
  }

  /** `SearchDeletedUsers` searching the `username` column: blank key, nothing; otherwise both pages merged by ID. */
  method SearchDeletedUsers(trash: DeletedUserRepository, key: string, pageNum: int, extra: seq<string>)
    returns (results: seq<DeletedUser>, exact: seq<DeletedUser>, prefixed: seq<DeletedUser>)
    requires trash.Valid()
    ensures IsBlank(key) ==> results == []
    ensures !IsBlank(key) ==>
      && key != ""
      && Queryable(DeletedUserExactColumns, DeletedUserColumns)
      && DeletedUserExactPage(exact, trash.rows, key, DeletedUserExactColumns, pageNum)
      && DeletedUserPrefixPage(prefixed, trash.rows, key, RegxColumns(extra), pageNum)
      && MergedById(results, exact, prefixed, DeletedUserId)
  {
    if IsBlank(key) {
      return [], [], [];
    }
    assert key != "";
    exact := trash.Search(key, pageNum, DeletedUserExactColumns);
    prefixed := trash.SearchWRegx(key, pageNum, RegxColumns(extra));
    results := MergeById(exact, prefixed, DeletedUserId);
  }

  /** `SearchDeletedServiceProviders`: blank key, nothing; otherwise both pages merged by ID. */
  method SearchDeletedServiceProviders(trash: DeletedServiceProviderRepository, key: string, pageNum: int, extra: seq<string>)
    returns (results: seq<DeletedServiceProvider>, exact: seq<DeletedServiceProvider>,
             prefixed: seq<DeletedServiceProvider>)
    requires trash.Valid()
    ensures IsBlank(key) ==> results == []
    ensures !IsBlank(key) ==>
      && key != ""
      && Queryable(ExactColumns, DeletedServiceProviderColumns)
      && DeletedProviderExactPage(exact, trash.rows, key, ExactColumns, pageNum)
      && DeletedProviderPrefixPage(prefixed, trash.rows, key, RegxColumns(extra), pageNum)
      && MergedById(results, exact, prefixed, DeletedServiceProviderId)
  {
    if IsBlank(key) {
      return [], [], [];
    }
    assert key != "";
    exact := trash.Search(key, pageNum, ExactColumns);
    prefixed := trash.SearchWRegx(key, pageNum, RegxColumns(extra));
    results := MergeById(exact, prefixed, DeletedServiceProviderId);
  }

  /**
   * A deleted-user search returns the union of its two pages, each record
   * once, and every record it returns is in the trash table and matches one
   * of the two searches.
   */
  lemma DeletedUserSearchIsUnion(results: seq<DeletedUser>, exact: seq<DeletedUser>, prefixed: seq<DeletedUser>,
                                 rows: map<string, DeletedUser>, key: string, pageNum: int, extra: seq<string>)
    requires Keyed(rows, DeletedUserId) && key != ""
    requires DeletedUserExactPage(exact, rows, key, DeletedUserExactColumns, pageNum)
    requires DeletedUserPrefixPage(prefixed, rows, key, RegxColumns(extra), pageNum)
    requires MergedById(results, exact, prefixed, DeletedUserId)
    ensures Distinct(results, DeletedUserId)
    ensures forall x :: x in results <==> x in exact || x in prefixed
    ensures forall x | x in results ::
      x in rows.Values &&
      (SearchFound(DeletedUserColumn, x, key, DeletedUserExactColumns)
       || PrefixFound(DeletedUserColumn, x, key, RegxColumns(extra)))
  {
    var exactHit := (x: DeletedUser) => SearchFound(DeletedUserColumn, x, key, DeletedUserExactColumns);
    var prefixHit := (x: DeletedUser) => PrefixFound(DeletedUserColumn, x, key, RegxColumns(extra));
    if Queryable(DeletedUserExactColumns, DeletedUserColumns) {
      PageOfRows(exact, rows, DeletedUserId, exactHit, pageNum, PageSize);
    }
    if Queryable(RegxColumns(extra), DeletedUserColumns) {
      PageOfRows(prefixed, rows, DeletedUserId, prefixHit, pageNum, PageSize);
    }
    MergedRowsUnion(results, exact, prefixed, rows, DeletedUserId);
  }

  /** The same for deleted service providers. */
  lemma DeletedProviderSearchIsUnion(
    results: seq<DeletedServiceProvider>, exact: seq<DeletedServiceProvider>, prefixed: seq<DeletedServiceProvider>,
    rows: map<string, DeletedServiceProvider>, key: string, pageNum: int, extra: seq<string>)
    requires Keyed(rows, DeletedServiceProviderId) && key != ""
    requires DeletedProviderExactPage(exact, rows, key, ExactColumns, pageNum)
    requires DeletedProviderPrefixPage(prefixed, rows, key, RegxColumns(extra), pageNum)
    requires MergedById(results, exact, prefixed, DeletedServiceProviderId)
    ensures Distinct(results, DeletedServiceProviderId)
    ensures forall x :: x in results <==> x in exact || x in prefixed
    ensures forall x | x in results ::
      x in rows.Values &&
      (SearchFound(DeletedServiceProviderColumn, x, key, ExactColumns)
       || PrefixFound(DeletedServiceProviderColumn, x, key, RegxColumns(extra)))
  {
    var exactHit := (x: DeletedServiceProvider) => SearchFound(DeletedServiceProviderColumn, x, key, ExactColumns);
    var prefixHit := (x: DeletedServiceProvider) => PrefixFound(DeletedServiceProviderColumn, x, key, RegxColumns(extra));
    if Queryable(ExactColumns, DeletedServiceProviderColumns) {
      PageOfRows(exact, rows, DeletedServiceProviderId, exactHit, pageNum, PageSize);
    }
    if Queryable(RegxColumns(extra), DeletedServiceProviderColumns) {
      PageOfRows(prefixed, rows, DeletedServiceProviderId, prefixHit, pageNum, PageSize);
    }
    MergedRowsUnion(results, exact, prefixed, rows, DeletedServiceProviderId);
  }

  /**
   * A deleted user whose username is the key but whose first name does not
   * start with it: the `username` column finds it, while the searches as
   * written (a failing `user_name` query and a `first_name` prefix search)
   * cannot.
   */
  lemma UserNameSearchMissesDeletedUsers()
    ensures var d := DeletedUser("DUR_abcdefg1", "DUR_abcdefg1_U1", "Kebede", "Alemu", "abebe", "+251911000000", "", 0);
      && !Queryable(ExactColumns, DeletedUserColumns)
      && SearchFound(DeletedUserColumn, d, "abebe", DeletedUserExactColumns)
      && !PrefixFound(DeletedUserColumn, d, "abebe", RegxColumns([]))
  {
    var d := DeletedUser("DUR_abcdefg1", "DUR_abcdefg1_U1", "Kebede", "Alemu", "abebe", "+251911000000", "", 0);
    assert ExactColumns[1] !in DeletedUserColumns;
    assert SearchHit(DeletedUserColumn, d, "abebe", DeletedUserExactColumns[1]);
    assert RegxColumns([]) == ["first_name"];
    assert !("abebe" <= "Kebede") by { assert "Kebede"[0] != "abebe"[0]; }
  }
}
