/**
 * The repositories of the `transaction` package: user subscription
 * payments, service-provider subscription payments and payroll payouts,
 * each a table keyed by ID.
 */
module TransactionRepo {
  import opened Wrappers
  import opened Entity
  import opened Tables
  import opened StringTools

  function TransactionId(t: SubscriptionTransaction): string { t.id }

  function SPTransactionId(t: SPSubscriptionTransaction): string { t.id }

  function PayrollId(t: SPPayrollTransaction): string { t.id }

  /** `Find` looks in id and out_trade_no. */
  predicate IdOrTradeNo(t: SubscriptionTransaction, identifier: string) {
    t.id == identifier || t.outTradeNo == identifier
  }

  predicate SPIdOrTradeNo(t: SPSubscriptionTransaction, identifier: string) {
    t.id == identifier || t.outTradeNo == identifier
  }

  predicate PaidTo(t: SPPayrollTransaction, providerId: string) {
    t.providerId == providerId
  }

  /** `SubscriptionTransactionRepository`: the `subscription_transactions` table keyed by ID. */
  class SubscriptionTransactionRepository {
    var rows: map<string, SubscriptionTransaction>

    ghost predicate Valid()
      reads this
    {
      Keyed(rows, TransactionId)
    }

    constructor ()
      ensures Valid() && rows == map[]
    {
      rows := map[];
    }

    /** `Create`: a fresh ID `SBT-` + 7 random runes + counter, then the insert. */
    method Create(transaction: SubscriptionTransaction, draw: nat -> string) returns (created: SubscriptionTransaction, ghost tries: nat)
      requires Valid()
      requires forall i: nat :: IsRandomString(draw(i), 7)
      modifies this
      ensures Valid()
      ensures created == transaction.(id := MintedId("SBT-", draw(tries), |old(rows)| + 1 + tries))
      ensures created.id !in old(rows)
      ensures rows == old(rows)[created.id := created]
    {
      var id;
      id, tries := MintId(rows, "SBT-", 7, draw);
      created := transaction.(id := id);
      rows := rows[id := created];
    }

    /** `Find`: a row whose id or out_trade_no is the identifier. */
    method Find(identifier: string) returns (r: Result<SubscriptionTransaction>)
      requires Valid()
      ensures r.Success? <==> exists k | k in rows :: IdOrTradeNo(rows[k], identifier)
      ensures r.Success? ==> r.value in rows.Values && IdOrTradeNo(r.value, identifier)
      ensures r.Failure? ==> r.error == RecordNotFound
    {
      var row := FindFirst(rows, (x: SubscriptionTransaction) => IdOrTradeNo(x, identifier));
      if row.Some? {
        r := Success(row.value);
      } else {
        r := Failure(RecordNotFound);
      }
    }

    /** `Update`: fails when no row has the ID; otherwise saves the record with the stored CreatedAt. */
    method Update(transaction: SubscriptionTransaction) returns (r: Result<SubscriptionTransaction>)
      requires Valid()
      modifies this
      ensures Valid()
      ensures transaction.id !in old(rows) ==> r == Failure(RecordNotFound) && rows == old(rows)
      ensures transaction.id in old(rows) ==>
        r == Success(transaction.(createdAt := old(rows)[transaction.id].createdAt)) && rows == old(rows)[transaction.id := r.value]
    {
      if transaction.id !in rows {
        return Failure(RecordNotFound);
      }
      var saved := transaction.(createdAt := rows[transaction.id].createdAt);
      rows := rows[transaction.id := saved];
      r := Success(saved);
    }

    /** `Delete`: the removed row, or an error and no change when the ID is absent. */
    method Delete(id: string) returns (r: Result<SubscriptionTransaction>)
      requires Valid()
      modifies this
      ensures Valid()
      ensures id !in old(rows) ==> r == Failure(RecordNotFound) && rows == old(rows)
      ensures id in old(rows) ==> r == Success(old(rows)[id]) && rows == old(rows) - {id}
    {
      if id !in rows {
        return Failure(RecordNotFound);
      }
      r := Success(rows[id]);
      rows := rows - {id};
    }
  }

  /** `SPSubscriptionTransactionRepository`: the `sp_subscription_transactions` table keyed by ID. */
  class SPSubscriptionTransactionRepository {
    var rows: map<string, SPSubscriptionTransaction>

    ghost predicate Valid()
      reads this
    {
      Keyed(rows, SPTransactionId)
    }

    constructor ()
      ensures Valid() && rows == map[]
    {
      rows := map[];
    }

    /** `Create`: a fresh ID `SBT-` + 20 random runes + counter, then the insert. */
    method Create(transaction: SPSubscriptionTransaction, draw: nat -> string) returns (created: SPSubscriptionTransaction, ghost tries: nat)
      requires Valid()
      requires forall i: nat :: IsRandomString(draw(i), 20)
      modifies this
      ensures Valid()
      ensures created == transaction.(id := MintedId("SBT-", draw(tries), |old(rows)| + 1 + tries))
      ensures created.id !in old(rows)
      ensures rows == old(rows)[created.id := created]
    {
      var id;
      id, tries := MintId(rows, "SBT-", 20, draw);
      created := transaction.(id := id);
      rows := rows[id := created];
    }

    /** `Find`: a row whose id or out_trade_no is the identifier. */
    method Find(identifier: string) returns (r: Result<SPSubscriptionTransaction>)
      requires Valid()
      ensures r.Success? <==> exists k | k in rows :: SPIdOrTradeNo(rows[k], identifier)
      ensures r.Success? ==> r.value in rows.Values && SPIdOrTradeNo(r.value, identifier)
      ensures r.Failure? ==> r.error == RecordNotFound
    {
      var row := FindFirst(rows, (x: SPSubscriptionTransaction) => SPIdOrTradeNo(x, identifier));
      if row.Some? {
        r := Success(row.value);
      } else {
        r := Failure(RecordNotFound);
      }
    }

    /** `Update`: fails when no row has the ID; otherwise saves the record with the stored CreatedAt. */
    method Update(transaction: SPSubscriptionTransaction) returns (r: Result<SPSubscriptionTransaction>)
      requires Valid()
      modifies this
      ensures Valid()
      ensures transaction.id !in old(rows) ==> r == Failure(RecordNotFound) && rows == old(rows)
      ensures transaction.id in old(rows) ==>
        r == Success(transaction.(createdAt := old(rows)[transaction.id].createdAt)) && rows == old(rows)[transaction.id := r.value]
    {
      if transaction.id !in rows {
        return Failure(RecordNotFound);
      }
      var saved := transaction.(createdAt := rows[transaction.id].createdAt);
      rows := rows[transaction.id := saved];
      r := Success(saved);
    }

    /** `Delete`: the removed row, or an error and no change when the ID is absent. */
    method Delete(id: string) returns (r: Result<SPSubscriptionTransaction>)
      requires Valid()
      modifies this
      ensures Valid()
      ensures id !in old(rows) ==> r == Failure(RecordNotFound) && rows == old(rows)
      ensures id in old(rows) ==> r == Success(old(rows)[id]) && rows == old(rows) - {id}
    {
      if id !in rows {
        return Failure(RecordNotFound);
      }
      r := Success(rows[id]);
      rows := rows - {id};
    }
  }

  /** `SPPayrollTransactionRepository`: the `sp_payroll_transactions` table keyed by ID. */
  class SPPayrollTransactionRepository {
    var rows: map<string, SPPayrollTransaction>

    ghost predicate Valid()
      reads this
    {
      Keyed(rows, PayrollId)
    }

    constructor ()
      ensures Valid() && rows == map[]
    {
      rows := map[];
    }

    /** `Create`: a fresh ID `PRT-` + 20 random runes + counter, then the insert. */
    method Create(transaction: SPPayrollTransaction, draw: nat -> string) returns (created: SPPayrollTransaction, ghost tries: nat)
      requires Valid()
      requires forall i: nat :: IsRandomString(draw(i), 20)
      modifies this
      ensures Valid()
      ensures created == transaction.(id := MintedId("PRT-", draw(tries), |old(rows)| + 1 + tries))
      ensures created.id !in old(rows)
      ensures rows == old(rows)[created.id := created]
    {
      var id;
      id, tries := MintId(rows, "PRT-", 20, draw);
      created := transaction.(id := id);
      rows := rows[id := created];
    }

    /** `Find`: the row with that ID. */
    method Find(id: string) returns (r: Result<SPPayrollTransaction>)
      requires Valid()
      ensures id in rows <==> r.Success?
      ensures id in rows ==> r.value == rows[id]
      ensures id !in rows ==> r.error == RecordNotFound
    {
      if id in rows {
        r := Success(rows[id]);
      } else {
        r := Failure(RecordNotFound);
      }
    }

    /** `FindMultiple`: every row whose provider_id is `providerId`, each once. */
    method FindMultiple(providerId: string) returns (found: seq<SPPayrollTransaction>)
      requires Valid()
      ensures Lists(found, rows, PayrollId, (x: SPPayrollTransaction) => PaidTo(x, providerId))
    {
      found := Select(rows, PayrollId, (x: SPPayrollTransaction) => PaidTo(x, providerId));
    }

    /** `Update`: fails when no row has the ID; otherwise saves the record with the stored CreatedAt. */
    method Update(transaction: SPPayrollTransaction) returns (r: Result<SPPayrollTransaction>)
      requires Valid()
      modifies this
      ensures Valid()
      ensures transaction.id !in old(rows) ==> r == Failure(RecordNotFound) && rows == old(rows)
      ensures transaction.id in old(rows) ==>
        r == Success(transaction.(createdAt := old(rows)[transaction.id].createdAt)) && rows == old(rows)[transaction.id := r.value]
    {
      if transaction.id !in rows {
        return Failure(RecordNotFound);
      }
      var saved := transaction.(createdAt := rows[transaction.id].createdAt);
      rows := rows[transaction.id := saved];
      r := Success(saved);
    }

    /** `Delete`: the removed row, or an error and no change when the ID is absent. */
    method Delete(id: string) returns (r: Result<SPPayrollTransaction>)
      requires Valid()
      modifies this
      ensures Valid()
      ensures id !in old(rows) ==> r == Failure(RecordNotFound) && rows == old(rows)
      ensures id in old(rows) ==> r == Success(old(rows)[id]) && rows == old(rows) - {id}
    {
      if id !in rows {
        return Failure(RecordNotFound);
      }
      r := Success(rows[id]);
      rows := rows - {id};
    }

    /** `DeleteMultiple`: removes every row whose provider_id is `providerId` and returns exactly those rows. */
    method DeleteMultiple(providerId: string) returns (removed: seq<SPPayrollTransaction>)
      requires Valid()
      modifies this
      ensures Valid()
      ensures Lists(removed, old(rows), PayrollId, (x: SPPayrollTransaction) => PaidTo(x, providerId))
      ensures rows == Without(old(rows), Matching(old(rows), (x: SPPayrollTransaction) => PaidTo(x, providerId)))
    {
      removed, rows := RemoveMatching(rows, PayrollId, (x: SPPayrollTransaction) => PaidTo(x, providerId));
    }
  }
}
