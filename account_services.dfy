/**
 * The user and service-provider services: profile validation, lookup, the
 * merged search, deletion with its trash copy and clean-up, and the
 * provider's wallet rules.
 */
module AccountServices {
  import opened Wrappers
  import opened Text
  import opened Entity
  import opened Common
  import opened Tables
  import opened StringTools
  import opened Accounts
  import opened ServiceProviderRepo
  import DeletedRepo
  import TrashService

  const NoUserMessage := "no user found"
  const NoServiceProviderMessage := "no service provider found"
  const UserDeleteFailedMessage := "unable to delete user"
  const ServiceProviderDeleteFailedMessage := "unable to delete service provider"
  const NoWalletMessage := "no service provider wallet found"
  const LinkedAccountLengthMessage := "service provider account should not be longer than 255 characters"
  const LinkedAccountProviderMessage := "invalid account provider selected"

  /** The exact-match columns of both account searches. */
  const ExactColumns: seq<string> := ["id", "user_name", "phone_number", "email"]

  /* ------------------------------ validation ------------------------------- */

  /** `ValidateUserProfile`: the profile rules, uniqueness consulted in `users`. */
  method ValidateUserProfile(user: User, o: Oracles) returns (errs: Option<ErrMap>, updated: User)
    ensures ProfileChecked(user, "users", o, errs, updated)
  {
    errs, updated := ValidateAccount(user, "users", o);
  }

  /** `ValidateProviderProfile`: the same rules, uniqueness consulted in `service_providers`. */
  method ValidateProviderProfile(provider: ServiceProvider, o: Oracles) returns (errs: Option<ErrMap>, updated: ServiceProvider)
    ensures ProfileChecked(provider, "service_providers", o, errs, updated)
  {
    errs, updated := ValidateAccount(provider, "service_providers", o);
  }

  /* -------------------------------- lookup --------------------------------- */

  /** `FindUser`: `find` is the user repository's `Find`. */
  function FindUser(identifier: string, find: string -> Option<User>): (r: Result<User>)
    ensures IsBlank(identifier) ==> r == Failure(Error(NoUserMessage))
    ensures !IsBlank(identifier) ==> r.Success? == find(identifier).Some?
    ensures r.Success? ==> r.value == find(identifier).value
    ensures r.Failure? ==> r.error == Error(NoUserMessage)
  {
    GuardedFind(identifier, find, NoUserMessage)
  }

  /** `FindServiceProvider`: refuses a blank identifier, otherwise the repository's `Find` under one message. */
  method FindServiceProvider(repo: ServiceProviderRepository, identifier: string) returns (r: Result<ServiceProvider>)
    requires repo.Valid()
    ensures IsBlank(identifier) ==> r == Failure(Error(NoServiceProviderMessage))
    ensures !IsBlank(identifier) ==>
      identifier != "" && (r.Success? <==> exists k | k in repo.rows :: FindHit(repo.rows[k], identifier))
    ensures r.Success? ==> r.value in repo.rows.Values && FindHit(r.value, identifier)
    ensures r.Failure? ==> r.error == Error(NoServiceProviderMessage)
  {
    if IsBlank(identifier) {
      return Failure(Error(NoServiceProviderMessage));
    }
    var found := repo.Find(identifier);
    if found.Failure? {
      return Failure(Error(NoServiceProviderMessage));
    }
    r := found;
  }

  /* -------------------------------- search --------------------------------- */

  /** One paged search of the user repository: the page and the page count. */
  type AccountSearch = (string, int, seq<string>) -> (seq<User>, nat)

  /**
   * `SearchUsers`: `search` and `searchRegx` are the user repository's two
   * searches. A blank key gives nothing; otherwise the exact results and
   * the prefix results merged by ID, with the larger page count.
   */
  method SearchUsers(key: string, pageNum: int, extra: seq<string>, search: AccountSearch, searchRegx: AccountSearch)
    returns (results: seq<User>, pageCount: nat)
    ensures IsBlank(key) ==> results == [] && pageCount == 0
    ensures !IsBlank(key) ==>
      && MergedById(results, search(key, pageNum, ExactColumns).0,
                    searchRegx(key, pageNum, TrashService.RegxColumns(extra)).0, AccountId)
      && pageCount == Max(search(key, pageNum, ExactColumns).1, searchRegx(key, pageNum, TrashService.RegxColumns(extra)).1)
  {
    if IsBlank(key) {
      return [], 0;
    }
    var (exact, exactCount) := search(key, pageNum, ExactColumns);
    var (prefixed, prefixedCount) := searchRegx(key, pageNum, TrashService.RegxColumns(extra));
    results := MergeById(exact, prefixed, AccountId);
    pageCount := exactCount;
    if pageCount < prefixedCount {
      pageCount := prefixedCount;
    }
  }

  /** The prefix search's result for these columns: a counted page when every column exists, nothing otherwise. */
  ghost predicate PrefixPage(page: seq<ServiceProvider>, count: nat, rows: map<string, ServiceProvider>,
                             key: string, columns: seq<string>, pageNum: int)
  {
    if Queryable(columns, AccountColumns)
    then PagedResult(page, count, rows, AccountId, (a: Account) => PrefixFound(Column, a, key, columns), pageNum, PageSize)
    else page == [] && count == 0
  }

  /**
   * `SearchServiceProviders`: a blank key gives nothing; otherwise the
   * exact search over id, user_name, phone_number and email and the prefix
   * search over first_name and the extra columns, merged by ID, with the
   * larger of the two page counts. Both pages are returned beside the merge.
   */
  method SearchServiceProviders(repo: ServiceProviderRepository, key: string, pageNum: int, extra: seq<string>)
    returns (results: seq<ServiceProvider>, pageCount: nat,
             exact: seq<ServiceProvider>, exactCount: nat, prefixed: seq<ServiceProvider>, prefixedCount: nat)
    requires repo.Valid()
    ensures IsBlank(key) ==> results == [] && pageCount == 0
    ensures !IsBlank(key) ==>
      && key != ""
      && PagedResult(exact, exactCount, repo.rows, AccountId,
                     (a: Account) => SearchFound(Column, a, key, ExactColumns), pageNum, PageSize)
      && PrefixPage(prefixed, prefixedCount, repo.rows, key, TrashService.RegxColumns(extra), pageNum)
      && MergedById(results, exact, prefixed, AccountId)
      && pageCount == Max(exactCount, prefixedCount)
  {
    if IsBlank(key) {
      return [], 0, [], 0, [], 0;
    }
    assert key != "";
    assert Queryable(ExactColumns, AccountColumns);
    exact, exactCount := repo.Search(key, pageNum, ExactColumns);
    prefixed, prefixedCount := repo.SearchWRegx(key, pageNum, TrashService.RegxColumns(extra));
    results := MergeById(exact, prefixed, AccountId);
    pageCount := exactCount;
    if pageCount < prefixedCount {
      pageCount := prefixedCount;
    }
  }

  /**
   * A provider search returns the union of its two pages, each provider
   * once, every one a stored provider that one of the two searches matches.
   */
  lemma ProviderSearchIsUnion(
    results: seq<ServiceProvider>, exact: seq<ServiceProvider>, exactCount: nat,
    prefixed: seq<ServiceProvider>, prefixedCount: nat,
    rows: map<string, ServiceProvider>, key: string, pageNum: int, extra: seq<string>)
    requires Keyed(rows, AccountId) && key != ""
    requires PagedResult(exact, exactCount, rows, AccountId, (a: Account) => SearchFound(Column, a, key, ExactColumns), pageNum, PageSize)
    requires PrefixPage(prefixed, prefixedCount, rows, key, TrashService.RegxColumns(extra), pageNum)
    requires MergedById(results, exact, prefixed, AccountId)
    ensures Distinct(results, AccountId)
    ensures forall x :: x in results <==> x in exact || x in prefixed
    ensures forall x | x in results ::
      x in rows.Values &&
      (SearchFound(Column, x, key, ExactColumns) || PrefixFound(Column, x, key, TrashService.RegxColumns(extra)))
  {
    ExactPageRows(exact, exactCount, rows, key, pageNum);
    PrefixPageRows(prefixed, prefixedCount, rows, key, TrashService.RegxColumns(extra), pageNum);
    MergedRowsUnion(results, exact, prefixed, rows, AccountId);
  }

  /** The exact page holds distinct stored providers the exact search matches. */
  lemma ExactPageRows(exact: seq<ServiceProvider>, exactCount: nat, rows: map<string, ServiceProvider>, key: string, pageNum: int)
    requires key != ""
    requires PagedResult(exact, exactCount, rows, AccountId, (a: Account) => SearchFound(Column, a, key, ExactColumns), pageNum, PageSize)
    ensures Distinct(exact, AccountId)
    ensures forall x | x in exact :: x in rows.Values && SearchFound(Column, x, key, ExactColumns)
  {
    var exactHit := (a: Account) => SearchFound(Column, a, key, ExactColumns);
    PagedResultIsPage(exact, exactCount, rows, AccountId, exactHit, pageNum, PageSize);
    PageOfRows(exact, rows, AccountId, exactHit, pageNum, PageSize);
  }

  /** The prefix page holds distinct stored providers the prefix search matches. */
  lemma PrefixPageRows(prefixed: seq<ServiceProvider>, prefixedCount: nat, rows: map<string, ServiceProvider>,
                       key: string, columns: seq<string>, pageNum: int)
    requires PrefixPage(prefixed, prefixedCount, rows, key, columns, pageNum)
    ensures Distinct(prefixed, AccountId)
    ensures forall x | x in prefixed :: x in rows.Values && PrefixFound(Column, x, key, columns)
  {
    if Queryable(columns, AccountColumns) {
      var prefixHit := (a: Account) => PrefixFound(Column, a, key, columns);
      PagedResultIsPage(prefixed, prefixedCount, rows, AccountId, prefixHit, pageNum, PageSize);
      PageOfRows(prefixed, rows, AccountId, prefixHit, pageNum, PageSize);
    }
  }

  /* ------------------------------- deletion -------------------------------- */

  /** The calls into other services a deletion makes, in order. */
  datatype Effect =
    | TrashSubscriptionTransactions(userId: string, prefixedUserId: string)
    | TrashSPSubscriptionTransactions(providerId: string, prefixedProviderId: string)
    | TrashPayrollTransactions(providerId: string, prefixedProviderId: string)
    | DeleteClientPreference(clientId: string)
    | SetFeedbackClientIdNull(clientId: string)

  /** The transaction clean-up that follows a successful trash copy of a user. */
  function UserTrashEffects(userId: string, trashed: Option<DeletedUser>): seq<Effect> {
    if trashed.Some? then [TrashSubscriptionTransactions(userId, trashed.value.userId)] else []
  }

  /** The subscription and payroll clean-up that follows a successful trash copy of a provider. */
  function ProviderTrashEffects(providerId: string, trashed: Option<DeletedServiceProvider>): seq<Effect> {
    if trashed.Some? then
      [TrashSPSubscriptionTransactions(providerId, trashed.value.providerId),
       TrashPayrollTransactions(providerId, trashed.value.providerId)]
    else []
  }

  /**
   * `DeleteUser`: `find` and `remove` are the user repository's `Find` and
   * `Delete`, `trashError` the trash table's answer to the insert. A user
   * that is not found is left alone. Otherwise the user is copied to the
   * trash as the trash service writes it, and only when that insert
   * succeeds are the transactions trashed under the copy's user ID; the
   * row is deleted either way, and only when that succeeds are the
   * preference deleted and the feedback client IDs cleared.
   */
  method DeleteUser(trash: DeletedRepo.DeletedUserRepository, userId: string,
                    find: string -> Option<User>, remove: string -> Option<User>, draw: nat -> string,
                    trashError: Option<Error>)
    returns (r: Result<User>, effects: seq<Effect>, ghost trashed: Option<DeletedUser>)
    requires trash.Valid()
    requires forall i: nat :: IsRandomString(draw(i), 7)
    modifies trash
    ensures trash.Valid()
    ensures FindUser(userId, find).Failure? ==>
      r == Failure(Error(NoUserMessage)) && effects == [] && trashed.None? && trash.rows == old(trash.rows)
    ensures FindUser(userId, find).Success? ==>
      && trashed.Some? == trashError.None?
      && (trashed.None? ==> trash.rows == old(trash.rows))
      && (trashed.Some? ==>
            && trashed.value.id !in old(trash.rows)
            && trash.rows == old(trash.rows)[trashed.value.id := trashed.value]
            && trashed.value == TrashService.UserTrashCopyAsWritten(find(userId).value)
                                  .(id := trashed.value.id, userId := trashed.value.id + "_"))
      && (remove(userId).None? ==>
            r == Failure(Error(UserDeleteFailedMessage)) && effects == UserTrashEffects(userId, trashed))
      && (remove(userId).Some? ==>
            && r == Success(remove(userId).value)
            && effects == UserTrashEffects(userId, trashed)
                          + [DeleteClientPreference(userId), SetFeedbackClientIdNull(userId)])
  {
    var found := FindUser(userId, find);
    if found.Failure? {
      return found, [], None;
    }
    var added, tries := TrashService.AddUserToTrashAsWritten(trash, found.value, draw, trashError);
    effects := [];
    trashed := None;
    if added.Success? {
      trashed := Some(added.value);
      effects := [TrashSubscriptionTransactions(userId, added.value.userId)];
    }
    var removed := remove(userId);
    if removed.None? {
      return Failure(Error(UserDeleteFailedMessage)), effects, trashed;
    }
    effects := effects + [DeleteClientPreference(userId), SetFeedbackClientIdNull(userId)];
    r := Success(removed.value);
  }

  /**
   * `DeleteServiceProvider`: a provider that is not found is left alone.
   * Otherwise the provider is copied to the trash as the trash service
   * writes it; only when that insert succeeds are its subscription and
   * payroll transactions trashed under the copy's provider ID. The row with
   * that ID is deleted either way, and the preference and feedback clean-up
   * follow only a successful delete. `Find` also accepts a user name,
   * e-mail or phone number, `Delete` only an ID: a provider found under
   * another key is trashed but stays in the table.
   */
  method DeleteServiceProvider(repo: ServiceProviderRepository, trash: DeletedRepo.DeletedServiceProviderRepository,
                               providerId: string, draw: nat -> string, trashError: Option<Error>)
    returns (r: Result<ServiceProvider>, effects: seq<Effect>, ghost trashed: Option<DeletedServiceProvider>)
    requires repo.Valid() && trash.Valid()
    requires forall i: nat :: IsRandomString(draw(i), 7)
    modifies repo, trash
    ensures repo.Valid() && trash.Valid()
    ensures IsBlank(providerId) || (forall k | k in old(repo.rows) :: !FindHit(old(repo.rows)[k], providerId)) ==>
      && r == Failure(Error(NoServiceProviderMessage)) && effects == [] && trashed.None?
      && repo.rows == old(repo.rows) && trash.rows == old(trash.rows)
    ensures !IsBlank(providerId) && (exists k | k in old(repo.rows) :: FindHit(old(repo.rows)[k], providerId)) ==>
      && trashed.Some? == trashError.None?
      && (trashed.None? ==> trash.rows == old(trash.rows))
      && (trashed.Some? ==>
            && trashed.value.id !in old(trash.rows)
            && trash.rows == old(trash.rows)[trashed.value.id := trashed.value]
            && trashed.value.providerId == trashed.value.id + "_"
            && (exists k | k in old(repo.rows) :: FindHit(old(repo.rows)[k], providerId)
                  && trashed.value == TrashService.ProviderTrashCopyAsWritten(old(repo.rows)[k])
                                        .(id := trashed.value.id, providerId := trashed.value.id + "_")))
      && (providerId !in old(repo.rows) ==>
            && r == Failure(Error(ServiceProviderDeleteFailedMessage))
            && effects == ProviderTrashEffects(providerId, trashed)
            && repo.rows == old(repo.rows))
      && (providerId in old(repo.rows) ==>
            && r == Success(old(repo.rows)[providerId])
            && repo.rows == old(repo.rows) - {providerId}
            && effects == ProviderTrashEffects(providerId, trashed)
                          + [DeleteClientPreference(providerId), SetFeedbackClientIdNull(providerId)])
  {
    var found := FindServiceProvider(repo, providerId);
    if found.Failure? {
      return found, [], None;
    }
    var provider := found.value;
    ghost var k :| k in repo.rows && repo.rows[k] == provider;
    var added, tries := TrashService.AddServiceProviderToTrashAsWritten(trash, provider, draw, trashError);
    effects := [];
    trashed := None;
    if added.Success? {
      trashed := Some(added.value);
      effects := [TrashSPSubscriptionTransactions(providerId, added.value.providerId),
                  TrashPayrollTransactions(providerId, added.value.providerId)];
    }
    var removed := repo.Delete(providerId);
    if removed.Failure? {
      return Failure(Error(ServiceProviderDeleteFailedMessage)), effects, trashed;
    }
    effects := effects + [DeleteClientPreference(providerId), SetFeedbackClientIdNull(providerId)];
    r := removed;
  }

  /* -------------------------------- wallet --------------------------------- */

  /**
   * `ValidateSPWallet`: the linked account may hold at most 255 bytes, and
   * the account provider must be one of the configured providers, CBE or
   * Telebirr, ignoring case.
   */
  method ValidateSPWallet(wallet: SPWallet) returns (errs: Option<ErrMap>)
    ensures errs.None? <==> ByteLen(wallet.linkedAccount) <= 255 && InFold(ValidLinkedAccountProviders, wallet.linkedAccountProvider)
    ensures ByteLen(wallet.linkedAccount) <= 255 ==>
      (errs.None? <==> ToUpper(wallet.linkedAccountProvider) == "CBE" || ToUpper(wallet.linkedAccountProvider) == "TELEBIRR")
    ensures Recorded(errs).Keys <= {"linked_account", "linked_account_provider"}
    ensures ErrorAt(Recorded(errs), "linked_account") ==
      (if ByteLen(wallet.linkedAccount) > 255 then Some(Error(LinkedAccountLengthMessage)) else None)
    ensures ErrorAt(Recorded(errs), "linked_account_provider") ==
      (if InFold(ValidLinkedAccountProviders, wallet.linkedAccountProvider) then None
       else Some(Error(LinkedAccountProviderMessage)))
  {
    var e: ErrMap := map[];
    if ByteLen(wallet.linkedAccount) > 255 {
      e := e["linked_account" := Error(LinkedAccountLengthMessage)];
    }
    var valid := ContainsFold(ValidLinkedAccountProviders, wallet.linkedAccountProvider);
    if !valid {
      e := e["linked_account_provider" := Error(LinkedAccountProviderMessage)];
    }
    errs := Reported(e);
    RecordedReported(e);
    ValidListsAccept(wallet.linkedAccountProvider);
  }

  /** `FindSPWallet`: `find` is the wallet repository's `Find`. */
  function FindSPWallet(providerId: string, find: string -> Option<SPWallet>): (r: Result<SPWallet>)
    ensures IsBlank(providerId) ==> r == Failure(Error(NoWalletMessage))
    ensures !IsBlank(providerId) ==> r.Success? == find(providerId).Some?
    ensures r.Success? ==> r.value == find(providerId).value
    ensures r.Failure? ==> r.error == Error(NoWalletMessage)
  {
    GuardedFind(providerId, find, NoWalletMessage)
  }
}
