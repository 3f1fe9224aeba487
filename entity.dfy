/**
 * The records of the membership system (users, service providers, projects,
 * plans, subscriptions, transactions, trash copies) and the error map every
 * validator fills. A `time.Time` column is an opaque `Time`; a `float64`
 * amount is a `real`.
 */
module Entity {
  import opened Wrappers

  type Time = int

  /** A user and a service provider have the same columns; both are accounts. */
  datatype Account = Account(
    id: string,
    firstName: string,
    lastName: string,
    userName: string,
    phoneNumber: string,
    email: string,
    createdAt: Time,
    updatedAt: Time)

  type User = Account
  type ServiceProvider = Account

  datatype UserPassword = UserPassword(userId: string, password: string, salt: string, createdAt: Time, updatedAt: Time)

  datatype SPPassword = SPPassword(providerId: string, password: string, salt: string, createdAt: Time, updatedAt: Time)

  datatype SPWallet = SPWallet(
    providerId: string,
    runningAmount: real,
    pendingAmount: real,
    linkedAccount: string,
    linkedAccountProvider: string,
    createdAt: Time,
    updatedAt: Time)

  datatype SPSubscriptionPlan = SPSubscriptionPlan(
    id: string, name: string, duration: int, price: real, currency: string, createdAt: Time, updatedAt: Time)

  datatype Feedback = Feedback(id: string, clientId: string, comment: string, seen: bool, createdAt: Time)

  datatype ClientPreference = ClientPreference(clientId: string, language: string)

  datatype Language = Language(code: string, name: string, flag: string, displayOrder: int)

  datatype LanguageEntry = LanguageEntry(id: int, identifier: string, value: string, code: string)

  datatype Project = Project(
    id: string,
    providerId: string,
    name: string,
    description: string,
    projectLink: string,
    status: string,
    createdAt: Time,
    updatedAt: Time)

  datatype ProjectChatLink = ProjectChatLink(projectId: string, chatId: int, linkType: string)

  datatype SubscriptionPlan = SubscriptionPlan(
    id: string,
    projectId: string,
    name: string,
    benfits: string,
    duration: int,
    price: real,
    currency: string,
    isRecurring: bool,
    status: string,
    createdAt: Time,
    updatedAt: Time)

  datatype PlanChatLink = PlanChatLink(planId: string, chatId: int)

  datatype UserChatLink = UserChatLink(userId: string, planId: string, chatId: int, inviteLink: string, createdAt: Time)

  /** The subscriber or provider columns copied into a subscription. */
  datatype Party = Party(id: string, firstName: string, lastName: string, userName: string, phoneNumber: string, email: string)

  datatype ProjectSummary = ProjectSummary(id: string, name: string, description: string, link: string)

  datatype PlanSummary = PlanSummary(
    id: string, name: string, benfits: string, duration: int, price: real, isRecurring: bool, currency: string)

  /** A subscription denormalises subscriber, provider, project and plan at the time it was taken. */
  datatype Subscription = Subscription(
    id: string,
    subscriber: Party,
    provider: Party,
    project: ProjectSummary,
    plan: PlanSummary,
    createdAt: Time,
    updatedAt: Time,
    expiresAt: Time)

  datatype PaymentGateway = PaymentGateway(id: int, name: string, createdAt: Time)

  datatype SubscriptionTransaction = SubscriptionTransaction(
    id: string,
    userId: string,
    planId: string,
    appId: string,
    receiverName: string,
    subject: string,
    receivedAmount: real,
    transactionFee: real,
    currencyType: string,
    timeoutExpress: int,
    nonce: string,
    outTradeNo: string,
    tradeNo: string,
    status: string,
    initiatedFrom: string,
    createdAt: Time,
    updatedAt: Time)

  datatype SPSubscriptionTransaction = SPSubscriptionTransaction(
    id: string,
    providerId: string,
    planId: string,
    appId: string,
    receiverName: string,
    subject: string,
    receivedAmount: real,
    transactionFee: real,
    currencyType: string,
    timeoutExpress: int,
    nonce: string,
    outTradeNo: string,
    tradeNo: string,
    status: string,
    createdAt: Time,
    updatedAt: Time)

  datatype SPPayrollTransaction = SPPayrollTransaction(
    id: string,
    providerId: string,
    payedAmount: real,
    linkedAccount: string,
    linkedAccountProvider: string,
    status: string,
    createdAt: Time,
    updatedAt: Time)

  datatype DeletedUser = DeletedUser(
    id: string, userId: string, firstName: string, lastName: string, username: string,
    phoneNumber: string, email: string, createdAt: Time)

  datatype DeletedServiceProvider = DeletedServiceProvider(
    id: string, providerId: string, firstName: string, lastName: string, userName: string,
    phoneNumber: string, email: string, createdAt: Time)

  /* ------------------------------ constants ------------------------------- */

  const DefaultLanguage: string := "en"
  const FeedbackSeen: string := "Seen"
  const FeedbackUnseen: string := "Unseen"
  const TransactionStatusPending: string := "Pending"
  const TransactionStatusComplete: string := "Complete"
  const InitiatedFromBot: string := "telegram_bot"

  /* ------------------------------ error maps ------------------------------ */

  /** Field name to the error found in it. */
  type ErrMap = map<string, Error>

  /**
   * The map a validator hands back: Go's nil when nothing was recorded,
   * the map itself otherwise.
   */
  function Reported(errs: ErrMap): (r: Option<ErrMap>)
    ensures r.None? <==> |errs| == 0
    ensures r.Some? ==> r.value == errs
  {
    if |errs| > 0 then Some(errs) else None
  }

  /** Reading back a reported map gives the map that was filled. */
  lemma RecordedReported(errs: ErrMap)
    ensures Recorded(Reported(errs)) == errs
  {
    if |errs| == 0 {
      assert errs.Keys == {};
    }
  }

  /** The error recorded for `field`, if any. */
  function ErrorAt(errs: ErrMap, field: string): Option<Error> {
    if field in errs then Some(errs[field]) else None
  }

  /** `errs` with `field` set when a check reported something. */
  function Note(errs: ErrMap, field: string, e: Option<Error>): ErrMap {
    if e.Some? then errs[field := e.value] else errs
  }

  /** The map a validator hands back, read as a map again (nil reads as empty in Go). */
  function Recorded(r: Option<ErrMap>): ErrMap {
    if r.Some? then r.value else map[]
  }

  /** `ErrMap.StringMap`: the same keys, each error replaced by its message. */
  method StringMap(errs: ErrMap) returns (messages: map<string, string>)
    ensures messages.Keys == errs.Keys
    ensures forall k | k in errs :: messages[k] == errs[k].message
  {
    messages := map[];
    var pending := errs.Keys;
    while pending != {}
      invariant pending <= errs.Keys
      invariant messages.Keys == errs.Keys - pending
      invariant forall k | k in messages :: messages[k] == errs[k].message
      decreases pending
    {
      var k :| k in pending;
      messages := messages[k := errs[k].message];
      pending := pending - {k};
    }
  }
}
