/**
 * The decision logic of `GetTelebirrH5WebURL`: the nonce and out-trade
 * number minted from a UUID, the request parameters and the pending
 * transaction built from them, the nonce retry loop, the cutting of the JSON
 * payload into 117-rune chunks that are encrypted one by one, and the
 * response check that decides whether the transaction is stored.
 * JSON encoding, RSA, SHA-256, base64, URL encoding and the HTTP exchange
 * are parameters.
 */
module Telebirr {
  import opened Wrappers
  import opened Text
  import opened Entity
  import opened Common
  import opened StringTools
  import opened TransactionService
  import opened TransactionRepo

  /** The longest piece of the payload encrypted at once. */
  const ChunkSize: nat := 117
  /** `requestTimeout`, sent as text and stored as a number. */
  const RequestTimeout: nat := 60
  const WebUrlMessage := "unable to generate web url"

  /* --------------------------- identifiers --------------------------------- */

  /** The nonce: a UUID with its dashes removed. */
  function NonceOf(uuid: string): (nonce: string)
    ensures '-' !in nonce
    ensures |nonce| == |uuid| - multiset(uuid)['-']
  {
    RemoveRuneCount(uuid, '-');
    RemoveRune(uuid, '-')
  }

  /** The out-trade number that goes with a nonce. */
  function OutTradeNoOf(nonce: string): (outTradeNo: string)
    ensures |outTradeNo| == |nonce| + 2 && outTradeNo[..2] == "T_" && outTradeNo[2..] == nonce
  {
    "T_" + nonce
  }

  /** Different nonces give different out-trade numbers. */
  lemma OutTradeNoInjective(a: string, b: string)
    requires OutTradeNoOf(a) == OutTradeNoOf(b)
    ensures a == b
  {
    assert a == OutTradeNoOf(a)[2..];
  }

  /* --------------------------- the request ---------------------------------- */

  /** `service.TelebirrAPI`: the merchant account's configuration. */
  datatype TelebirrApiAccount = TelebirrApiAccount(
    appId: string, appKey: string, notifyUrl: string, returnUrl: string,
    shortCode: string, transactionFee: real)

  datatype RequestParameters = RequestParameters(
    appId: string, appKey: string, nonce: string, notifyUrl: string, outTradeNo: string,
    receiverName: string, returnUrl: string, shortCode: string, subject: string,
    timeoutExpress: string, timestamp: string, totalAmount: string)

  datatype TelebirrResponse = TelebirrResponse(code: string, message: string, data: map<string, string>)

  /**
   * `telebirrRequestParameters`: `timestamp` is the Unix time and
   * `totalAmount` the formatted sum of the amount and the fee, both as text.
   */
  function NewRequest(api: TelebirrApiAccount, uuid: string, receiverName: string, subject: string,
                      timestamp: string, totalAmount: string): (p: RequestParameters)
    ensures p.nonce == NonceOf(uuid) && p.outTradeNo == OutTradeNoOf(p.nonce)
    ensures AllDigits(p.timeoutExpress) && ParseDecimal(p.timeoutExpress) == RequestTimeout
    ensures p.appId == api.appId && p.receiverName == receiverName && p.subject == subject
  {
    DecimalRoundTrip(RequestTimeout);
    var nonce := NonceOf(uuid);
    RequestParameters(api.appId, api.appKey, nonce, api.notifyUrl, OutTradeNoOf(nonce),
                      receiverName, api.returnUrl, api.shortCode, subject,
                      Decimal(RequestTimeout), timestamp, totalAmount)
  }

  /** `subscriptionTransaction`: the record to store, sharing the request's identifiers. */
  function NewTransaction(p: RequestParameters, api: TelebirrApiAccount, userId: string, planId: string,
                          currencyType: string, initiatedFrom: string, receivedAmount: real): (t: SubscriptionTransaction)
    ensures t.nonce == p.nonce && t.outTradeNo == p.outTradeNo
    ensures t.timeoutExpress == RequestTimeout
    ensures t.id == "" && t.status == "" && t.tradeNo == ""
    ensures t.userId == userId && t.planId == planId && t.appId == p.appId
    ensures t.receivedAmount == receivedAmount && t.transactionFee == api.transactionFee
  {
    SubscriptionTransaction(
      "", userId, planId, p.appId, p.receiverName, p.subject, receivedAmount, api.transactionFee,
      currencyType, RequestTimeout, p.nonce, p.outTradeNo, "", "", initiatedFrom, 0, 0)
  }

  /** The timeout the request announces is the one the transaction records. */
  lemma TimeoutAgrees(api: TelebirrApiAccount, uuid: string, receiverName: string, subject: string,
                      timestamp: string, totalAmount: string, userId: string, planId: string,
                      currencyType: string, initiatedFrom: string, receivedAmount: real)
    ensures var p := NewRequest(api, uuid, receiverName, subject, timestamp, totalAmount);
      var t := NewTransaction(p, api, userId, planId, currencyType, initiatedFrom, receivedAmount);
      t.timeoutExpress == ParseDecimal(p.timeoutExpress) == 60
  {
  }

  /* --------------------------- the nonce retry loop ------------------------- */

  /**
   * The service's `ValidateSubscriptionTransaction`, as the loop sees it:
   * a function from the transaction to the reported map.
   */
  type Validator = SubscriptionTransaction -> Option<ErrMap>

  /** The variables of the retry loop: its bound `errMap`, the transaction, the request. */
  datatype RetryState = RetryState(errMap: Option<ErrMap>, transaction: SubscriptionTransaction, params: RequestParameters)

  /** The map holds a nonce or out-trade-number error. */
  predicate Taken(errs: Option<ErrMap>) {
    "nonce" in Recorded(errs) || "out_trade_no" in Recorded(errs)
  }

  /** The loop condition, on the bound map. */
  predicate Retrying(s: RetryState) {
    Taken(s.errMap)
  }

  /** The transaction with the identifiers minted from `uuid`. */
  function Renonced(t: SubscriptionTransaction, uuid: string): SubscriptionTransaction {
    t.(nonce := NonceOf(uuid), outTradeNo := OutTradeNoOf(NonceOf(uuid)))
  }

  /** The loop state before the first test. */
  function RetryStart(t: SubscriptionTransaction, p: RequestParameters, validate: Validator): RetryState {
    RetryState(validate(t), t, p)
  }

  /** The loop body as written: a new nonce for the transaction only; `errMap` is never re-evaluated. */
  function RetryBodyAsWritten(s: RetryState, uuid: string): (s': RetryState)
    ensures s'.errMap == s.errMap && s'.params == s.params
    ensures s'.transaction == Renonced(s.transaction, uuid)
  {
    s.(transaction := Renonced(s.transaction, uuid))
  }

  /** The state after `n` passes of the loop as written; `uuids(i)` is the i-th regenerated UUID. */
  function RunAsWritten(s: RetryState, uuids: nat -> string, n: nat): RetryState {
    if n == 0 then s else RetryBodyAsWritten(RunAsWritten(s, uuids, n - 1), uuids(n))
  }

  /**
   * As written the loop never exits once entered: after any number of passes
   * its condition still holds, and the request keeps the first nonce.
   */
  lemma {:induction false} AsWrittenLoopNeverExits(s: RetryState, uuids: nat -> string, n: nat)
    requires Retrying(s)
    ensures Retrying(RunAsWritten(s, uuids, n))
    ensures RunAsWritten(s, uuids, n).params == s.params
    ensures RunAsWritten(s, uuids, n).errMap == s.errMap
  {
    if n > 0 {
      AsWrittenLoopNeverExits(s, uuids, n - 1);
    }
  }

  /**
   * A taken nonce hangs the request: with a table that already holds the
   * first nonce, the loop is entered and its condition holds after every
   * pass, whatever UUIDs are drawn.
   */
  lemma TakenNonceHangs(t: SubscriptionTransaction, p: RequestParameters, uuids: nat -> string, n: nat)
    requires t.nonce == "a1"
    ensures var check: TableCheck := (column, value, table) => !(column == "nonce" && value == Str("a1"));
      var start := RetryStart(t, p, u => ValidateSubscriptionTransaction(u, check));
      Retrying(start) && Retrying(RunAsWritten(start, uuids, n))
  {
    var check: TableCheck := (column, value, table) => !(column == "nonce" && value == Str("a1"));
    assert !IsBlank(t.nonce) by { assert !IsRegexSpace(t.nonce[0]); }
    assert !IsUnique("nonce", Str(t.nonce), "subscription_transactions", check);
    AsWrittenLoopNeverExits(RetryStart(t, p, u => ValidateSubscriptionTransaction(u, check)), uuids, n);
  }

  /** The body as intended: new identifiers in the transaction and the request, and the map checked again. */
  function RetryBody(s: RetryState, uuid: string, validate: Validator): (s': RetryState)
    ensures s'.transaction == Renonced(s.transaction, uuid)
    ensures s'.errMap == validate(s'.transaction)
    ensures s'.params == s.params.(nonce := s'.transaction.nonce, outTradeNo := s'.transaction.outTradeNo)
  {
    var t := Renonced(s.transaction, uuid);
    RetryState(validate(t), t, s.params.(nonce := t.nonce, outTradeNo := t.outTradeNo))
  }

  /** The identifiers minted from `uuid` draw no nonce or out-trade-number error. */
  predicate FreeNonce(t: SubscriptionTransaction, uuid: string, validate: Validator) {
    !Taken(validate(Renonced(t, uuid)))
  }

  /**
   * The retry loop as intended: draw UUIDs until both identifiers are free,
   * re-validating each time and keeping the request in step with the
   * transaction. `uuids(0)` is the UUID the request was built from and
   * `uuids(i)` the i-th regenerated one; the loop stops provided some draw
   * is free, at the first free one.
   */
  method RegenerateNonce(s: RetryState, uuids: nat -> string, validate: Validator) returns (s': RetryState, rounds: nat)
    requires s.transaction == Renonced(s.transaction, uuids(0))
    requires s.params.nonce == s.transaction.nonce && s.params.outTradeNo == s.transaction.outTradeNo
    requires s.errMap == validate(s.transaction)
    requires exists k: nat :: FreeNonce(s.transaction, uuids(k), validate)
    ensures !Retrying(s')
    ensures s'.errMap == validate(s'.transaction)
    ensures s'.transaction.nonce == s'.params.nonce && s'.transaction.outTradeNo == s'.params.outTradeNo
    ensures s'.transaction == Renonced(s.transaction, uuids(rounds))
    ensures s'.params == s.params.(nonce := s'.transaction.nonce, outTradeNo := s'.transaction.outTradeNo)
    ensures forall i: nat | i < rounds :: !FreeNonce(s.transaction, uuids(i), validate)
    ensures !Retrying(s) ==> rounds == 0 && s' == s
  {
    ghost var k: nat :| FreeNonce(s.transaction, uuids(k), validate);
    s' := s;
    rounds := 0;
    if !Retrying(s) {
      return;
    }
    rounds := 1;
    s' := RetryBody(s, uuids(rounds), validate);
    while Retrying(s')
      invariant 0 < rounds <= k
      invariant s' == RetryBody(s, uuids(rounds), validate)
      invariant forall i: nat | i < rounds :: !FreeNonce(s.transaction, uuids(i), validate)
      decreases k - rounds
    {
      rounds := rounds + 1;
      s' := RetryBody(s, uuids(rounds), validate);
    }
  }

  /** The map `ValidateSubscriptionTransaction` returns is nil exactly when it holds neither key. */
  lemma ValidatedOnlyTwoKeys(t: SubscriptionTransaction, check: TableCheck)
    ensures ValidateSubscriptionTransaction(t, check).None? <==> !Taken(ValidateSubscriptionTransaction(t, check))
  {
  }

  /* --------------------------- payload chunking ----------------------------- */

  /**
   * The chunking loop, read as the sequence of pieces it encrypts: while the
   * payload is not empty, its first 117 runes are cut off and encrypted.
   */
  function Chunks(s: string): (chunks: seq<string>)
    decreases |s|
  {
    if ByteLen(s) == 0 then []
    else
      ByteLenAtLeastRunes(s);
      [Substr(s, 0, ChunkSize)] + Chunks(Substr(s, ChunkSize, ByteLen(s)))
  }

  /** The chunks written one after the other. */
  function Concat(chunks: seq<string>): string {
    if chunks == [] then "" else chunks[0] + Concat(chunks[1..])
  }

  /** The chunks put back together give the payload: nothing lost, nothing repeated, order kept. */
  lemma {:induction false} ChunksReassemble(s: string)
    ensures Concat(Chunks(s)) == s
    decreases |s|
  {
    ByteLenAtLeastRunes(s);
    if |s| > 0 {
      var rest := Substr(s, ChunkSize, ByteLen(s));
      SubstrSplit(s, ChunkSize);
      ChunksReassemble(rest);
      assert Chunks(s)[1..] == Chunks(rest);
    }
  }

  /**
   * The i-th chunk, independently of the loop: runes 117·i up to 117·(i+1)
   * or the end. There are ⌈|s| / 117⌉ chunks, none empty, and all but the
   * last exactly 117 runes long.
   */
  lemma {:induction false} ChunkAt(s: string, i: nat)
    ensures |Chunks(s)| == (|s| + ChunkSize - 1) / ChunkSize
    ensures i < |Chunks(s)| ==>
      ChunkSize * i < |s| && Chunks(s)[i] == s[ChunkSize * i .. Min(ChunkSize * (i + 1), |s|)]
    decreases |s|
  {
    ByteLenAtLeastRunes(s);
    if |s| > 0 {
      var rest := Substr(s, ChunkSize, ByteLen(s));
      SubstrSplit(s, ChunkSize);
      assert Chunks(s)[1..] == Chunks(rest);
      if |s| <= ChunkSize {
        assert rest == "";
        assert Chunks(rest) == [];
      } else {
        assert rest == s[ChunkSize..];
        ChunkAt(rest, if i > 0 then i - 1 else 0);
        if 0 < i < |Chunks(s)| {
          var lo, hi := ChunkSize * (i - 1), Min(ChunkSize * i, |rest|);
          assert Chunks(s)[i] == Chunks(rest)[i - 1] == rest[lo..hi];
          assert ChunkSize * i == lo + ChunkSize;
          assert hi + ChunkSize == Min(ChunkSize * (i + 1), |s|);
          assert rest[lo..hi] == s[lo + ChunkSize..hi + ChunkSize];
        }
      }
    }
  }

  /** Each chunk is between 1 and 117 runes; only the last may be shorter than 117. */
  lemma ChunkSizes(s: string, i: nat)
    requires i < |Chunks(s)|
    ensures 0 < |Chunks(s)[i]| <= ChunkSize
    ensures i + 1 < |Chunks(s)| ==> |Chunks(s)[i]| == ChunkSize
  {
    ChunkAt(s, i);
  }

  /**
   * The encrypted payload: each chunk's ciphertext in chunk order, or the
   * first encryption error.
   */
  function EncryptAll(chunks: seq<string>, encrypt: string -> Result<seq<bv8>>): (r: Result<seq<bv8>>)
    ensures r.Success? <==> forall i | 0 <= i < |chunks| :: encrypt(chunks[i]).Success?
  {
    if chunks == [] then Success([])
    else match encrypt(chunks[0])
      case Failure(e) => Failure(e)
      case Success(head) =>
        match EncryptAll(chunks[1..], encrypt)
          case Failure(e) => Failure(e)
          case Success(tail) => Success(head + tail)
  }

  /** `bytes` placed in front of a successful result; an error stays as it is. */
  function Prefixed(bytes: seq<bv8>, r: Result<seq<bv8>>): Result<seq<bv8>> {
    if r.Success? then Success(bytes + r.value) else r
  }

  /**
   * The chunking loop of `GetTelebirrH5WebURL`: cut the payload at 117 runes
   * with `Substr`, encrypt each piece and append the ciphertext, stopping at
   * the first encryption error.
   */
  method EncryptPayload(payload: string, encrypt: string -> Result<seq<bv8>>) returns (r: Result<seq<bv8>>)
    ensures r == EncryptAll(Chunks(payload), encrypt)
    ensures r.Success? <==> forall i | 0 <= i < |Chunks(payload)| :: encrypt(Chunks(payload)[i]).Success?
  {
    var encryptedBytes: seq<bv8> := [];
    var source := payload;
    PrefixedEmpty(EncryptAll(Chunks(payload), encrypt));
    while ByteLen(source) > 0
      invariant EncryptAll(Chunks(payload), encrypt) == Prefixed(encryptedBytes, EncryptAll(Chunks(source), encrypt))
      decreases |source|
    {
      ByteLenAtLeastRunes(source);
      var input := Substr(source, 0, ChunkSize);
      var rest := Substr(source, ChunkSize, ByteLen(source));
      assert Chunks(source) == [input] + Chunks(rest);
      assert Chunks(source)[1..] == Chunks(rest);
      source := rest;
      var chunk := encrypt(input);
      if chunk.Failure? {
        return Failure(chunk.error);
      }
      assert (encryptedBytes + chunk.value) + [] == encryptedBytes + chunk.value;
      PrefixedAssoc(encryptedBytes, chunk.value, EncryptAll(Chunks(source), encrypt));
      encryptedBytes := encryptedBytes + chunk.value;
    }
    assert Chunks(source) == [];
    r := Success(encryptedBytes);
    assert encryptedBytes + [] == encryptedBytes;
  }

  lemma PrefixedEmpty(r: Result<seq<bv8>>)
    ensures Prefixed([], r) == r
  {
    if r.Success? {
      assert [] + r.value == r.value;
    }
  }

  lemma PrefixedAssoc(a: seq<bv8>, b: seq<bv8>, r: Result<seq<bv8>>)
    ensures Prefixed(a, Prefixed(b, r)) == Prefixed(a + b, r)
  {
    if r.Success? {
      assert a + (b + r.value) == (a + b) + r.value;
    }
  }

  /* --------------------------- the whole request ---------------------------- */

  /**
   * What the foreign half does: `marshal` is `json.Marshal` of the request,
   * `encrypt` RSA with the merchant's public key (`keyError` when that key
   * cannot be parsed), and `exchange` the signing, URL encoding and HTTP POST
   * of the encrypted bytes, giving the decoded response or an error.
   */
  datatype Foreign = Foreign(
    marshal: RequestParameters -> string,
    keyError: Option<Error>,
    encrypt: string -> Result<seq<bv8>>,
    exchange: (seq<bv8>, RequestParameters) -> Result<TelebirrResponse>)

  /** The value of a Go map lookup: the empty string for a missing key. */
  function Lookup(data: map<string, string>, key: string): string {
    if key in data then data[key] else ""
  }

  /**
   * What the gateway makes of the request `sent`: the key-parsing error, the
   * first encryption error or the exchange's error, whichever comes first,
   * or else the decoded response.
   */
  function GatewayAnswer(foreign: Foreign, sent: RequestParameters): Result<TelebirrResponse> {
    if foreign.keyError.Some? then Failure(foreign.keyError.value)
    else match EncryptAll(Chunks(foreign.marshal(sent)), foreign.encrypt)
      case Failure(e) => Failure(e)
      case Success(bytes) => foreign.exchange(bytes, sent)
  }

  /**
   * `GetTelebirrH5WebURL`, with the retry loop as intended. `rounds` is the
   * number of UUIDs drawn again: the request sent is the one built from the
   * first UUID whose identifiers are free. A gateway error is returned as
   * it is; a response code other than "0" is refused; on code "0" the
   * transaction is stored, as `Pending` and under a freshly minted ID, and
   * the URL is the response's `toPayUrl`.
   */
  method GetTelebirrH5WebURL(
    repo: SubscriptionTransactionRepository, api: TelebirrApiAccount, foreign: Foreign, check: TableCheck,
    userId: string, planId: string, receiverName: string, subject: string, currencyType: string,
    initiatedFrom: string, receivedAmount: real, timestamp: string, totalAmount: string,
    uuids: nat -> string, draw: nat -> string)
    returns (r: Result<string>, ghost stored: Option<SubscriptionTransaction>, ghost rounds: nat)
    requires repo.Valid()
    requires forall i: nat :: IsRandomString(draw(i), 7)
    requires var p := NewRequest(api, uuids(0), receiverName, subject, timestamp, totalAmount);
      var t := NewTransaction(p, api, userId, planId, currencyType, initiatedFrom, receivedAmount);
      exists k: nat :: FreeNonce(t, uuids(k), u => ValidateSubscriptionTransaction(u, check))
    modifies repo
    ensures repo.Valid()
    ensures var t := NewTransaction(NewRequest(api, uuids(0), receiverName, subject, timestamp, totalAmount),
                                    api, userId, planId, currencyType, initiatedFrom, receivedAmount);
      && !Taken(ValidateSubscriptionTransaction(Renonced(t, uuids(rounds)), check))
      && forall i: nat | i < rounds :: Taken(ValidateSubscriptionTransaction(Renonced(t, uuids(i)), check))
    ensures var t := NewTransaction(NewRequest(api, uuids(0), receiverName, subject, timestamp, totalAmount),
                                    api, userId, planId, currencyType, initiatedFrom, receivedAmount);
      var answer := GatewayAnswer(foreign, NewRequest(api, uuids(rounds), receiverName, subject, timestamp, totalAmount));
      && (answer.Failure? ==> r == Failure(answer.error) && stored.None?)
      && (answer.Success? && answer.value.code != "0" ==> r == Failure(Error(WebUrlMessage)) && stored.None?)
      && (answer.Success? && answer.value.code == "0" ==>
            && r == Success(Lookup(answer.value.data, "toPayUrl"))
            && stored.Some?
            && stored.value == Renonced(t, uuids(rounds)).(id := stored.value.id, status := TransactionStatusPending))
    ensures stored.None? ==> repo.rows == old(repo.rows) && r.Failure?
    ensures stored.Some? ==>
      r.Success?
      && stored.value.id !in old(repo.rows) && repo.rows == old(repo.rows)[stored.value.id := stored.value]
      && stored.value.status == TransactionStatusPending
      && stored.value.timeoutExpress == RequestTimeout
      && stored.value.outTradeNo == OutTradeNoOf(stored.value.nonce)
      && ValidateSubscriptionTransaction(stored.value, check).None?
      && stored.value.userId == userId && stored.value.planId == planId
  {
    var params := NewRequest(api, uuids(0), receiverName, subject, timestamp, totalAmount);
    var transaction := NewTransaction(params, api, userId, planId, currencyType, initiatedFrom, receivedAmount);
    assert Renonced(transaction, uuids(0)) == transaction;
    var validate: Validator := u => ValidateSubscriptionTransaction(u, check);
    var s := RetryStart(transaction, params, validate);
    s, rounds := RegenerateNonce(s, uuids, validate);
    assert s.params == NewRequest(api, uuids(rounds), receiverName, subject, timestamp, totalAmount);
    ValidatedOnlyTwoKeys(s.transaction, check);
    var payload := foreign.marshal(s.params);
    if foreign.keyError.Some? {
      return Failure(foreign.keyError.value), None, rounds;
    }
    var encrypted := EncryptPayload(payload, foreign.encrypt);
    if encrypted.Failure? {
      return Failure(encrypted.error), None, rounds;
    }
    var response := foreign.exchange(encrypted.value, s.params);
    if response.Failure? {
      return Failure(response.error), None, rounds;
    }
    if response.value.code != "0" {
      return Failure(Error(WebUrlMessage)), None, rounds;
    }
    var pending := s.transaction.(status := TransactionStatusPending);
    assert ValidateSubscriptionTransaction(pending, check) == ValidateSubscriptionTransaction(s.transaction, check);
    var created;
    ghost var tries;
    created, tries := repo.Create(pending, draw);
    r := Success(Lookup(response.value.data, "toPayUrl"));
    stored := Some(created);
  }
}
