/**
 * The feedback service: the comment and client rules, the status filter,
 * the merged search, and marking a feedback as seen.
 */
module FeedbackService {
  import opened Wrappers
  import opened Text
  import opened Entity
  import opened Common
  import opened Tables
  import ServiceProviderRepo

  const CommentEmptyMessage := "comment can not be empty"
  const CommentLengthMessage := "comment can not exceed 1000 characters"
  const NoClientMessage := "no client found for the provided client id"
  const FeedbackNotFoundMessage := "feedback not found"
  const AlreadySeenMessage := "unable to perform operation"

  function FeedbackId(f: Feedback): string { f.id }

  /* ------------------------------ validation ------------------------------- */

  /** The comment rule: not blank, then at most 1000 bytes. */
  function CommentError(comment: string): Option<Error> {
    if IsBlank(comment) then Some(Error(CommentEmptyMessage))
    else if ByteLen(comment) > 1000 then Some(Error(CommentLengthMessage))
    else None
  }

  /** The client ID names a stored user or a stored service provider. */
  ghost predicate KnownClient(clientId: string, isUser: string -> bool, providers: map<string, ServiceProvider>)
    requires clientId != ""
  {
    isUser(clientId) || exists k | k in providers :: ServiceProviderRepo.FindHit(providers[k], clientId)
  }

  /**
   * `ValidateFeedback`: the comment rule, and a client ID that is empty or
   * names neither a user (`isUser`, the user repository's `Find`) nor a
   * service provider is refused.
   */
  method ValidateFeedback(feedback: Feedback, isUser: string -> bool, providers: ServiceProviderRepo.ServiceProviderRepository)
    returns (errs: Option<ErrMap>)
    requires providers.Valid()
    ensures Recorded(errs).Keys <= {"comment", "client_id"}
    ensures ErrorAt(Recorded(errs), "comment") == CommentError(feedback.comment)
    ensures feedback.clientId == "" ==> ErrorAt(Recorded(errs), "client_id") == Some(Error(NoClientMessage))
    ensures feedback.clientId != "" ==>
      ErrorAt(Recorded(errs), "client_id") ==
        (if KnownClient(feedback.clientId, isUser, providers.rows) then None else Some(Error(NoClientMessage)))
    ensures errs.None? <==> CommentError(feedback.comment).None? && feedback.clientId != ""
                            && KnownClient(feedback.clientId, isUser, providers.rows)
  {
    var e: ErrMap := Note(map[], "comment", CommentError(feedback.comment));
    if feedback.clientId != "" {
      var asUser := isUser(feedback.clientId);
      var asProvider := providers.Find(feedback.clientId);
      if !asUser && asProvider.Failure? {
        e := e["client_id" := Error(NoClientMessage)];
      }
    } else {
      e := e["client_id" := Error(NoClientMessage)];
    }
    errs := Reported(e);
    RecordedReported(e);
    if |e| == 0 {
      assert "comment" !in e && "client_id" !in e;
    }
  }

  /* -------------------------------- status --------------------------------- */

  /** The status filter of `AllFeedbacks` and `SearchFeedbacks`: Unseen 0, Seen 1, anything else 2 (both). */
  function SeenStatus(status: string): (n: int)
    ensures 0 <= n <= 2
    ensures n == 0 <==> status == FeedbackUnseen
    ensures n == 1 <==> status == FeedbackSeen
  {
    if status == FeedbackUnseen then 0
    else if status == FeedbackSeen then 1
    else 2
  }

  /** The status name of a filter value, where one exists. */
  function StatusName(n: int): Option<string> {
    if n == 0 then Some(FeedbackUnseen)
    else if n == 1 then Some(FeedbackSeen)
    else None
  }

  /** The two named statuses and their filter values are inverse to each other. */
  lemma SeenStatusRoundTrip(status: string, n: int)
    ensures StatusName(SeenStatus(status)).Some? ==> StatusName(SeenStatus(status)).value == status
    ensures StatusName(n).Some? ==> SeenStatus(StatusName(n).value) == n
  {
  }

  /* -------------------------------- lookup --------------------------------- */

  /** `FindMultipleFeedbacks`: the feedbacks of a client; a blank client ID gives none without a query. */
  function FindMultipleFeedbacks(clientId: string, findMultiple: string -> seq<Feedback>): (r: seq<Feedback>)
    ensures IsBlank(clientId) ==> r == []
    ensures !IsBlank(clientId) ==> r == findMultiple(clientId)
  {
    GuardedFindAll(clientId, findMultiple)
  }

  /* -------------------------------- search --------------------------------- */

  /** One paged feedback search: key, status filter, page number and columns to the page and the page count. */
  type FeedbackSearch = (string, int, int, seq<string>) -> (seq<Feedback>, nat)

  const ExactColumns: seq<string> := ["id", "client_id"]

  function RegxColumns(extra: seq<string>): seq<string> { ["comment"] + extra }

  /**
   * `SearchFeedbacks`: a blank key gives nothing; otherwise the exact
   * search over id and client_id and the prefix search over comment and the
   * extra columns, merged by ID, with the larger of the two page counts.
   * The prefix search always runs, its column list never being empty.
   */
  method SearchFeedbacks(key: string, status: string, pageNum: int, extra: seq<string>,
                         search: FeedbackSearch, searchRegx: FeedbackSearch)
    returns (results: seq<Feedback>, pageCount: nat)
    ensures IsBlank(key) ==> results == [] && pageCount == 0
    ensures !IsBlank(key) ==>
      var (exact, exactCount) := search(key, SeenStatus(status), pageNum, ExactColumns);
      var (prefixed, prefixedCount) := searchRegx(key, SeenStatus(status), pageNum, RegxColumns(extra));
      MergedById(results, exact, prefixed, FeedbackId) && pageCount == Max(exactCount, prefixedCount)
  {
    var seenStatus := SeenStatus(status);
    if IsBlank(key) {
      return [], 0;
    }
    var (exact, exactCount) := search(key, seenStatus, pageNum, ExactColumns);
    var prefixed: seq<Feedback>, prefixedCount: nat := [], 0;
    if |RegxColumns(extra)| > 0 {
      var found := searchRegx(key, seenStatus, pageNum, RegxColumns(extra));
      prefixed, prefixedCount := found.0, found.1;
    }
    results := MergeById(exact, prefixed, FeedbackId);
    pageCount := exactCount;
    if pageCount < prefixedCount {
      pageCount := prefixedCount;
    }
  }

  /** The merged search result holds each feedback once, exactly those of the two pages. */
  lemma FeedbackSearchIsUnion(results: seq<Feedback>, exact: seq<Feedback>, prefixed: seq<Feedback>,
                              rows: map<string, Feedback>)
    requires Keyed(rows, FeedbackId)
    requires Distinct(exact, FeedbackId) && Distinct(prefixed, FeedbackId)
    requires forall x | x in exact :: x in rows.Values
    requires forall x | x in prefixed :: x in rows.Values
    requires MergedById(results, exact, prefixed, FeedbackId)
    ensures Distinct(results, FeedbackId)
    ensures forall x :: x in results <==> x in exact || x in prefixed
  {
    MergedRowsUnion(results, exact, prefixed, rows, FeedbackId);
  }

  /* ------------------------------ mark as seen ----------------------------- */

  /**
   * The outcome of marking a feedback as seen: an unknown ID and an already
   * seen feedback are refused with the table unchanged; otherwise the
   * feedback is saved with Seen set.
   */
  function MarkedSeen(rows: map<string, Feedback>, id: string): (Option<Error>, map<string, Feedback>) {
    if id !in rows then (Some(Error(FeedbackNotFoundMessage)), rows)
    else if rows[id].seen then (Some(Error(AlreadySeenMessage)), rows)
    else (None, rows[id := rows[id].(seen := true)])
  }

  /** A feedback can be marked as seen once: the second attempt is refused and changes nothing. */
  lemma MarkAsSeenOnce(rows: map<string, Feedback>, id: string)
    requires MarkedSeen(rows, id).0.None?
    ensures id in MarkedSeen(rows, id).1 && MarkedSeen(rows, id).1[id].seen
    ensures MarkedSeen(MarkedSeen(rows, id).1, id) == (Some(Error(AlreadySeenMessage)), MarkedSeen(rows, id).1)
  {
  }

  /** Marking leaves every other feedback, and every other field of this one, as it was. */
  lemma MarkAsSeenTouchesOneFlag(rows: map<string, Feedback>, id: string, other: string)
    requires MarkedSeen(rows, id).0.None?
    ensures MarkedSeen(rows, id).1.Keys == rows.Keys
    ensures MarkedSeen(rows, id).1[id] == rows[id].(seen := true)
    ensures other != id && other in rows ==> MarkedSeen(rows, id).1[other] == rows[other]
  {
  }

  /** The feedback table as the service reaches it: `Find` by ID, `Update` replacing the stored row. */
  class FeedbackTable {
    var rows: map<string, Feedback>

    ghost predicate Valid()
      reads this
    {
      Keyed(rows, FeedbackId)
    }

    constructor ()
      ensures Valid() && rows == map[]
    {
      rows := map[];
    }

    /** `MarkAsSeen`: look the feedback up, refuse a seen one, save it with Seen set. */
    method MarkAsSeen(feedbackId: string) returns (err: Option<Error>)
      requires Valid()
      modifies this
      ensures Valid()
      ensures (err, rows) == MarkedSeen(old(rows), feedbackId)
    {
      if feedbackId !in rows {
        return Some(Error(FeedbackNotFoundMessage));
      }
      var feedback := rows[feedbackId];
      if feedback.seen {
        return Some(Error(AlreadySeenMessage));
      }
      feedback := feedback.(seen := true);
      rows := rows[feedbackId := feedback];
      err := None;
    }
  }
}
