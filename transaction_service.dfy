/**
 * The transaction service's rules: the nonce and out-trade-number of a
 * subscription transaction must be unused, a service provider transaction
 * also needs a plain subject, a payment gateway needs a unique name, and the
 * lookups refuse blank keys.
 */
module TransactionService {
  import opened Wrappers
  import opened Text
  import opened Entity
  import opened Common

  const NonceTakenMessage := "subscription transaction nonce should be unique"
  const OutTradeNoTakenMessage := "subscription transaction out trade number should be unique"
  const SubjectMessage := "subscription transaction subject should not contain any special characters"
  const NoTransactionMessage := "no subscription transaction found"
  const GatewayNameEmptyMessage := "gateway name can not be empty"
  const GatewayNameLengthMessage := "gateway name should not be longer than 1000 characters"
  const GatewayNameTakenMessage := "gateway name already exists"

  /* ------------------------ subscription transactions ---------------------- */

  /** `ValidateSubscriptionTransaction`: the nonce and the out-trade number must both be unused in `subscription_transactions`. */
  function ValidateSubscriptionTransaction(t: SubscriptionTransaction, check: TableCheck): (errs: Option<ErrMap>)
    ensures Recorded(errs).Keys <= {"nonce", "out_trade_no"}
    ensures "nonce" in Recorded(errs) <==> !IsUnique("nonce", Str(t.nonce), "subscription_transactions", check)
    ensures "out_trade_no" in Recorded(errs) <==> !IsUnique("out_trade_no", Str(t.outTradeNo), "subscription_transactions", check)
    ensures "nonce" in Recorded(errs) ==> Recorded(errs)["nonce"] == Error(NonceTakenMessage)
    ensures "out_trade_no" in Recorded(errs) ==> Recorded(errs)["out_trade_no"] == Error(OutTradeNoTakenMessage)
    ensures errs.None? <==>
      IsUnique("nonce", Str(t.nonce), "subscription_transactions", check)
      && IsUnique("out_trade_no", Str(t.outTradeNo), "subscription_transactions", check)
  {
    var nonce := if IsUnique("nonce", Str(t.nonce), "subscription_transactions", check) then None
                 else Some(Error(NonceTakenMessage));
    var outTradeNo := if IsUnique("out_trade_no", Str(t.outTradeNo), "subscription_transactions", check) then None
                      else Some(Error(OutTradeNoTakenMessage));
    var e := Note(Note(map[], "nonce", nonce), "out_trade_no", outTradeNo);
    RecordedReported(e);
    assert |e| == 0 ==> "nonce" !in e && "out_trade_no" !in e;
    Reported(e)
  }

  /** `FindSubscriptionTransaction`: `find` is the repository's `Find`; one message for both failures. */
  function FindSubscriptionTransaction(id: string, find: string -> Option<SubscriptionTransaction>): (r: Result<SubscriptionTransaction>)
    ensures IsBlank(id) ==> r == Failure(Error(NoTransactionMessage))
    ensures !IsBlank(id) ==> r.Success? == find(id).Some?
    ensures r.Success? ==> r.value == find(id).value
    ensures r.Failure? ==> r.error == Error(NoTransactionMessage)
  {
    GuardedFind(id, find, NoTransactionMessage)
  }

  /** `FindMultipleSubscriptionTransactions`: a blank identifier gives none without a query. */
  function FindMultipleSubscriptionTransactions(identifier: string, findMultiple: string -> seq<SubscriptionTransaction>)
    : (r: seq<SubscriptionTransaction>)
    ensures IsBlank(identifier) ==> r == []
    ensures !IsBlank(identifier) ==> r == findMultiple(identifier)
  {
    GuardedFindAll(identifier, findMultiple)
  }

  /* ---------------------- service provider transactions -------------------- */

  /** `^\w+[\s\w]*$`: a word rune first, then only word runes and white space. */
  predicate IsSubject(s: string) {
    && |s| > 0 && IsWordChar(s[0])
    && forall i | 1 <= i < |s| :: IsWordChar(s[i]) || IsRegexSpace(s[i])
  }

  /** A subject is never blank and never begins with white space. */
  lemma SubjectIsNotBlank(s: string)
    requires IsSubject(s)
    ensures !IsBlank(s) && !IsRegexSpace(s[0])
  {
  }

  /** Unused in both transaction tables. */
  predicate UnusedInBoth(column: string, value: string, check: TableCheck) {
    IsUnique(column, Str(value), "subscription_transactions", check)
    && IsUnique(column, Str(value), "sp_subscription_transactions", check)
  }

  /**
   * `ValidateSPSubscriptionTransaction`: the subject rule, and the nonce and
   * out-trade number must be unused in both transaction tables.
   */
  function ValidateSPSubscriptionTransaction(t: SPSubscriptionTransaction, check: TableCheck): (errs: Option<ErrMap>)
    ensures Recorded(errs).Keys <= {"subject", "nonce", "out_trade_no"}
    ensures "subject" in Recorded(errs) <==> !IsSubject(t.subject)
    ensures "nonce" in Recorded(errs) <==> !UnusedInBoth("nonce", t.nonce, check)
    ensures "out_trade_no" in Recorded(errs) <==> !UnusedInBoth("out_trade_no", t.outTradeNo, check)
    ensures "subject" in Recorded(errs) ==> Recorded(errs)["subject"] == Error(SubjectMessage)
    ensures errs.None? <==>
      IsSubject(t.subject) && UnusedInBoth("nonce", t.nonce, check) && UnusedInBoth("out_trade_no", t.outTradeNo, check)
  {
    var subject := if IsSubject(t.subject) then None else Some(Error(SubjectMessage));
    var nonce := if UnusedInBoth("nonce", t.nonce, check) then None else Some(Error(NonceTakenMessage));
    var outTradeNo := if UnusedInBoth("out_trade_no", t.outTradeNo, check) then None else Some(Error(OutTradeNoTakenMessage));
    var e := Note(Note(Note(map[], "subject", subject), "nonce", nonce), "out_trade_no", outTradeNo);
    RecordedReported(e);
    assert |e| == 0 ==> "subject" !in e && "nonce" !in e && "out_trade_no" !in e;
    Reported(e)
  }

  /** `FindSPSubscriptionTransaction`: a blank ID fails without a query. */
  function FindSPSubscriptionTransaction(id: string, find: string -> Option<SPSubscriptionTransaction>)
    : (r: Result<SPSubscriptionTransaction>)
    ensures IsBlank(id) ==> r == Failure(Error(NoTransactionMessage))
    ensures !IsBlank(id) ==> r.Success? == find(id).Some?
    ensures r.Success? ==> r.value == find(id).value
    ensures r.Failure? ==> r.error == Error(NoTransactionMessage)
  {
    GuardedFind(id, find, NoTransactionMessage)
  }

  /** `FindMultipleSPSubscriptionTransactions`: a blank identifier gives none without a query. */
  function FindMultipleSPSubscriptionTransactions(identifier: string, findMultiple: string -> seq<SPSubscriptionTransaction>)
    : (r: seq<SPSubscriptionTransaction>)
    ensures IsBlank(identifier) ==> r == []
    ensures !IsBlank(identifier) ==> r == findMultiple(identifier)
  {
    GuardedFindAll(identifier, findMultiple)
  }

  /* ---------------------------- payment gateways --------------------------- */

  function GatewayNameError(name: string): Option<Error> {
    if IsBlank(name) then Some(Error(GatewayNameEmptyMessage))
    else if ByteLen(name) > 1000 then Some(Error(GatewayNameLengthMessage))
    else None
  }

  /**
   * `ValidatePaymentGateway`: the name rule, then name uniqueness in
   * `payment_gateways` for a new gateway (ID 0), and for an update only when
   * the stored gateway (`find`, the repository's `Find`) exists under
   * another name.
   */
  function ValidatePaymentGateway(gateway: PaymentGateway, check: TableCheck, find: int -> Option<PaymentGateway>)
    : (errs: Option<ErrMap>)
    ensures Recorded(errs).Keys <= {"name"}
    ensures GatewayNameError(gateway.name).Some? ==> errs == Some(map["name" := GatewayNameError(gateway.name).value])
    ensures GatewayNameError(gateway.name).None? ==>
      (errs.Some? <==>
         (gateway.id == 0 || (find(gateway.id).Some? && find(gateway.id).value.name != gateway.name))
         && !IsUnique("name", Str(gateway.name), "payment_gateways", check))
    ensures errs.Some? && GatewayNameError(gateway.name).None? ==> errs == Some(map["name" := Error(GatewayNameTakenMessage)])
  {
    if GatewayNameError(gateway.name).Some? then Some(map["name" := GatewayNameError(gateway.name).value])
    else
      var asked := gateway.id == 0 || (find(gateway.id).Some? && find(gateway.id).value.name != gateway.name);
      if asked && !IsUnique("name", Str(gateway.name), "payment_gateways", check)
      then Some(map["name" := Error(GatewayNameTakenMessage)])
      else None
  }

  /** Renaming nothing asks nothing: an update that keeps the stored name passes whatever the table says. */
  lemma KeptGatewayNameNeedsNoTable(gateway: PaymentGateway, check: TableCheck, other: TableCheck, find: int -> Option<PaymentGateway>)
    requires gateway.id != 0 && find(gateway.id).Some? && find(gateway.id).value.name == gateway.name
    ensures ValidatePaymentGateway(gateway, check, find) == ValidatePaymentGateway(gateway, other, find)
    ensures ValidatePaymentGateway(gateway, check, find).None? <==> GatewayNameError(gateway.name).None?
  {
  }
}
