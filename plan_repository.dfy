/**
 * The repositories of the `subscriptionplan` package: the plans of
 * projects (`subscription_plans`), the plans the system sells to service
 * providers (`sp_subscription_plans`), and the two link tables without a
 * primary key, plan-to-chat (unique per (plan_id, chat_id)) and
 * user-to-chat.
 */
module PlanRepo {
  import opened Wrappers
  import opened Entity
  import opened Common
  import opened Tables
  import opened StringTools

  function PlanId(p: SubscriptionPlan): string { p.id }

  function SPPlanId(p: SPSubscriptionPlan): string { p.id }

  predicate OfProject(p: SubscriptionPlan, projectId: string) {
    p.projectId == projectId
  }

  /** `SubscriptionPlanRepository`: the `subscription_plans` table keyed by ID. */
  class SubscriptionPlanRepository {
    var rows: map<string, SubscriptionPlan>

    ghost predicate Valid()
      reads this
    {
      Keyed(rows, PlanId)
    }

    constructor ()
      ensures Valid() && rows == map[]
    {
      rows := map[];
    }

    /** `Create`: a fresh ID `SBP-` + 7 random runes + counter, then the insert. */
    method Create(plan: SubscriptionPlan, draw: nat -> string) returns (created: SubscriptionPlan, ghost tries: nat)
      requires Valid()
      requires forall i: nat :: IsRandomString(draw(i), 7)
      modifies this
      ensures Valid()
      ensures created == plan.(id := MintedId("SBP-", draw(tries), |old(rows)| + 1 + tries))
      ensures created.id !in old(rows)
      ensures rows == old(rows)[created.id := created]
    {
      var id;
      id, tries := MintId(rows, "SBP-", 7, draw);
      created := plan.(id := id);
      rows := rows[id := created];
    }

    /** `Find`: the row with that ID. */
    method Find(id: string) returns (r: Result<SubscriptionPlan>)
      requires Valid()
      ensures id in rows <==> r.Success?
      ensures id in rows ==> r.value == rows[id]
      ensures id !in rows ==> r.error == RecordNotFound
    {
      if id in rows {
        r := Success(rows[id]);
      } else {
        r := Failure(RecordNotFound);
      }
    }

    /** `FindMultiple`: every row whose project_id is `projectId`, each once. */
    method FindMultiple(projectId: string) returns (found: seq<SubscriptionPlan>)
      requires Valid()
      ensures Lists(found, rows, PlanId, (x: SubscriptionPlan) => OfProject(x, projectId))
    {
      found := Select(rows, PlanId, (x: SubscriptionPlan) => OfProject(x, projectId));
    }

    /** `Update`: fails when no row has the ID; otherwise saves the record with the stored CreatedAt. */
    method Update(plan: SubscriptionPlan) returns (r: Result<SubscriptionPlan>)
      requires Valid()
      modifies this
      ensures Valid()
      ensures plan.id !in old(rows) ==> r == Failure(RecordNotFound) && rows == old(rows)
      ensures plan.id in old(rows) ==>
        r == Success(plan.(createdAt := old(rows)[plan.id].createdAt)) && rows == old(rows)[plan.id := r.value]
    {
      if plan.id !in rows {
        return Failure(RecordNotFound);
      }
      var saved := plan.(createdAt := rows[plan.id].createdAt);
      rows := rows[plan.id := saved];
      r := Success(saved);
    }

    /** `Delete`: the removed row, or an error and no change when the ID is absent. */
    method Delete(id: string) returns (r: Result<SubscriptionPlan>)
      requires Valid()
      modifies this
      ensures Valid()
      ensures id !in old(rows) ==> r == Failure(RecordNotFound) && rows == old(rows)
      ensures id in old(rows) ==> r == Success(old(rows)[id]) && rows == old(rows) - {id}
    {
      if id !in rows {
        return Failure(RecordNotFound);
      }
      r := Success(rows[id]);
      rows := rows - {id};
    }

    /** `DeleteMultiple`: removes every row whose project_id is `projectId` and returns exactly those rows. */
    method DeleteMultiple(projectId: string) returns (removed: seq<SubscriptionPlan>)
      requires Valid()
      modifies this
      ensures Valid()
      ensures Lists(removed, old(rows), PlanId, (x: SubscriptionPlan) => OfProject(x, projectId))
      ensures rows == Without(old(rows), Matching(old(rows), (x: SubscriptionPlan) => OfProject(x, projectId)))
    {
      removed, rows := RemoveMatching(rows, PlanId, (x: SubscriptionPlan) => OfProject(x, projectId));
    }
  }

  /** `SPSubscriptionPlanRepository`: the `sp_subscription_plans` table keyed by ID; its IDs are fresh only within this table. */
  class SPSubscriptionPlanRepository {
    var rows: map<string, SPSubscriptionPlan>

    ghost predicate Valid()
      reads this
    {
      Keyed(rows, SPPlanId)
    }

    constructor ()
      ensures Valid() && rows == map[]
    {
      rows := map[];
    }

    /** `Create`: a fresh ID `SBP-` + 7 random runes + counter, then the insert. */
    method Create(plan: SPSubscriptionPlan, draw: nat -> string) returns (created: SPSubscriptionPlan, ghost tries: nat)
      requires Valid()
      requires forall i: nat :: IsRandomString(draw(i), 7)
      modifies this
      ensures Valid()
      ensures created == plan.(id := MintedId("SBP-", draw(tries), |old(rows)| + 1 + tries))
      ensures created.id !in old(rows)
      ensures rows == old(rows)[created.id := created]
    {
      var id;
      id, tries := MintId(rows, "SBP-", 7, draw);
      created := plan.(id := id);
      rows := rows[id := created];
    }

    /** `Find`: the row with that ID. */
    method Find(id: string) returns (r: Result<SPSubscriptionPlan>)
      requires Valid()
      ensures id in rows <==> r.Success?
      ensures id in rows ==> r.value == rows[id]
      ensures id !in rows ==> r.error == RecordNotFound
    {
      if id in rows {
        r := Success(rows[id]);
      } else {
        r := Failure(RecordNotFound);
      }
    }

    /** `Update`: fails when no row has the ID; otherwise saves the record with the stored CreatedAt. */
    method Update(plan: SPSubscriptionPlan) returns (r: Result<SPSubscriptionPlan>)
      requires Valid()
      modifies this
      ensures Valid()
      ensures plan.id !in old(rows) ==> r == Failure(RecordNotFound) && rows == old(rows)
      ensures plan.id in old(rows) ==>
        r == Success(plan.(createdAt := old(rows)[plan.id].createdAt)) && rows == old(rows)[plan.id := r.value]
    {
      if plan.id !in rows {
        return Failure(RecordNotFound);
      }
      var saved := plan.(createdAt := rows[plan.id].createdAt);
      rows := rows[plan.id := saved];
      r := Success(saved);
    }

    /** `Delete`: the removed row, or an error and no change when the ID is absent. */
    method Delete(id: string) returns (r: Result<SPSubscriptionPlan>)
      requires Valid()
      modifies this
      ensures Valid()
      ensures id !in old(rows) ==> r == Failure(RecordNotFound) && rows == old(rows)
      ensures id in old(rows) ==> r == Success(old(rows)[id]) && rows == old(rows) - {id}
    {
      if id !in rows {
        return Failure(RecordNotFound);
      }
      r := Success(rows[id]);
      rows := rows - {id};
    }
  }

  /* ------------------------------ plan to chat ------------------------------ */

  /** `plan_id = ? || chat_id = ?` with one dynamically typed argument. */
  predicate PlanLinkMatches(l: PlanChatLink, identifier: Dynamic) {
    match identifier
    case Str(s) => l.planId == s
    case Int64(n) => l.chatId == n
    case OtherInt(n) => l.chatId == n
  }

  /** The rows `DeleteMultiple` deletes: by plan_id for a string, by chat_id for an `int64`, none otherwise. */
  predicate PlanLinkDeleted(l: PlanChatLink, identifier: Dynamic) {
    match identifier
    case Str(s) => l.planId == s
    case Int64(n) => l.chatId == n
    case OtherInt(_) => false
  }

  /** The composite unique key of `plan_chat_links`. */
  function PlanLinkPair(l: PlanChatLink): (string, int) { (l.planId, l.chatId) }

  predicate SamePlanPair(l: PlanChatLink, planId: string, chatId: int) {
    l.planId == planId && l.chatId == chatId
  }

  /** `PlanChatLinkRepository`: plan-to-chat links, at most one per (plan, chat) pair. */
  class PlanChatLinkRepository {
    var links: seq<PlanChatLink>

    ghost predicate Valid()
      reads this
    {
      Distinct(links, PlanLinkPair)
    }

    constructor ()
      ensures Valid() && links == []
    {
      links := [];
    }

    /** `Create`: the insert, refused by the unique index when the pair is already linked. */
    method Create(link: PlanChatLink) returns (err: Option<Error>)
      requires Valid()
      modifies this
      ensures Valid()
      ensures (exists i | 0 <= i < |old(links)| :: SamePlanPair(old(links)[i], link.planId, link.chatId)) ==>
        err.Some? && links == old(links)
      ensures (forall i | 0 <= i < |old(links)| :: !SamePlanPair(old(links)[i], link.planId, link.chatId)) ==>
        err == None && links == old(links) + [link]
    {
      ghost var before := links;
      if exists i | 0 <= i < |links| :: SamePlanPair(links[i], link.planId, link.chatId) {
        return Some(Error("Duplicate entry for key 'unique_plan_to_chat_link_relation'"));
      }
      links := links + [link];
      forall i, j | 0 <= i < j < |links| ensures PlanLinkPair(links[i]) != PlanLinkPair(links[j]) {
        if j == |before| {
          assert !SamePlanPair(before[i], link.planId, link.chatId);
        }
      }
      err := None;
    }

    /** `Find`: the link of exactly this (plan, chat) pair. */
    method Find(planId: string, chatId: int) returns (r: Result<PlanChatLink>)
      requires Valid()
      ensures r.Success? <==> exists i | 0 <= i < |links| :: SamePlanPair(links[i], planId, chatId)
      ensures r.Success? ==> r.value in links && r.value.planId == planId && r.value.chatId == chatId
      ensures r.Failure? ==> r.error == RecordNotFound
    {
      var found := Filter(links, (l: PlanChatLink) => SamePlanPair(l, planId, chatId));
      if found == [] {
        assert forall i | 0 <= i < |links| :: links[i] !in found;
        return Failure(RecordNotFound);
      }
      assert found[0] in found;
      r := Success(found[0]);
    }

    /** `FindMultiple`: the links whose plan_id or chat_id is the identifier. */
    method FindMultiple(identifier: Dynamic) returns (found: seq<PlanChatLink>)
      requires Valid()
      ensures forall l :: l in found <==> l in links && PlanLinkMatches(l, identifier)
    {
      found := Filter(links, (l: PlanChatLink) => PlanLinkMatches(l, identifier));
    }

    /** `Delete`: fails when the pair is not linked; otherwise removes the pair's rows and returns the one found. */
    method Delete(planId: string, chatId: int) returns (r: Result<PlanChatLink>)
      requires Valid()
      modifies this
      ensures Valid()
      ensures r.Failure? <==> forall i | 0 <= i < |old(links)| :: !SamePlanPair(old(links)[i], planId, chatId)
      ensures r.Failure? ==> r.error == RecordNotFound && links == old(links)
      ensures r.Success? ==> r.value in old(links) && SamePlanPair(r.value, planId, chatId)
      ensures r.Success? ==> links == Filter(old(links), (l: PlanChatLink) => !SamePlanPair(l, planId, chatId))
    {
      r := Find(planId, chatId);
      if r.Success? {
        links := Filter(links, (l: PlanChatLink) => !SamePlanPair(l, planId, chatId));
        FilterKeepsDistinct(old(links), (l: PlanChatLink) => !SamePlanPair(l, planId, chatId), PlanLinkPair);
      }
    }

    /** `DeleteMultiple`: returns every link matching the identifier, deletes by its dynamic type. */
    method DeleteMultiple(identifier: Dynamic) returns (found: seq<PlanChatLink>)
      requires Valid()
      modifies this
      ensures Valid()
      ensures found == Filter(old(links), (l: PlanChatLink) => PlanLinkMatches(l, identifier))
      ensures links == Filter(old(links), (l: PlanChatLink) => !PlanLinkDeleted(l, identifier))
    {
      found := Filter(links, (l: PlanChatLink) => PlanLinkMatches(l, identifier));
      links := Filter(links, (l: PlanChatLink) => !PlanLinkDeleted(l, identifier));
      FilterKeepsDistinct(old(links), (l: PlanChatLink) => !PlanLinkDeleted(l, identifier), PlanLinkPair);
    }
  }

  /**
   * For a string or an `int64`, the plan links `DeleteMultiple` deletes are
   * exactly the ones it returns. It rests on the
   * matching without MySQL's string/number conversion: under MySQL a numeric
   * string also finds the chat with that number, which the delete does not remove.
   */
  lemma PlanLinkDeleteMultipleRemovesWhatItReturns(links: seq<PlanChatLink>, identifier: Dynamic, l: PlanChatLink)
    requires identifier.Str? || identifier.Int64?
    requires l in links
    ensures l in Filter(links, (x: PlanChatLink) => PlanLinkMatches(x, identifier))
        <==> l !in Filter(links, (x: PlanChatLink) => !PlanLinkDeleted(x, identifier))
  {
  }

  /* ------------------------------ user to chat ------------------------------ */

  /** `user_id = ? || plan_id = ? || chat_id = ?` with one dynamically typed argument. */
  predicate UserLinkMatches(l: UserChatLink, identifier: Dynamic) {
    match identifier
    case Str(s) => l.userId == s || l.planId == s
    case Int64(n) => l.chatId == n
    case OtherInt(n) => l.chatId == n
  }

  /**
   * The rows `DeleteMultiple` deletes as written: the first type assertion
   * already takes every string, so a string deletes by user_id only; an
   * `int64` deletes by chat_id; any other type deletes nothing.
   */
  predicate UserLinkDeleted(l: UserChatLink, identifier: Dynamic) {
    match identifier
    case Str(s) => l.userId == s
    case Int64(n) => l.chatId == n
    case OtherInt(_) => false
  }

  /** The rows a string or `int64` identifier was evidently meant to delete: all the rows it finds. */
  predicate UserLinkDeletedIntended(l: UserChatLink, identifier: Dynamic) {
    match identifier
    case Str(s) => l.userId == s || l.planId == s
    case Int64(n) => l.chatId == n
    case OtherInt(_) => false
  }

  predicate SameTriple(l: UserChatLink, userId: string, planId: string, chatId: int) {
    l.userId == userId && l.planId == planId && l.chatId == chatId
  }

  /** `UserChatLinkRepository`: which user reached which chat through which plan. */
  class UserChatLinkRepository {
    var links: seq<UserChatLink>

    constructor ()
      ensures links == []
    {
      links := [];
    }

    /** `Create`: the table has no unique key, so every link is appended. */
    method Create(link: UserChatLink)
      modifies this
      ensures links == old(links) + [link]
    {
      links := links + [link];
    }

    /** `Find`: a link of exactly this (user, plan, chat) triple. */
    method Find(userId: string, planId: string, chatId: int) returns (r: Result<UserChatLink>)
      ensures r.Success? <==> exists i | 0 <= i < |links| :: SameTriple(links[i], userId, planId, chatId)
      ensures r.Success? ==> r.value in links && SameTriple(r.value, userId, planId, chatId)
      ensures r.Failure? ==> r.error == RecordNotFound
    {
      var found := Filter(links, (l: UserChatLink) => SameTriple(l, userId, planId, chatId));
      if found == [] {
        assert forall i | 0 <= i < |links| :: links[i] !in found;
        return Failure(RecordNotFound);
      }
      assert found[0] in found;
      r := Success(found[0]);
    }

    /** `FindMultiple`: the links whose user_id, plan_id or chat_id is the identifier. */
    method FindMultiple(identifier: Dynamic) returns (found: seq<UserChatLink>)
      ensures forall l :: l in found <==> l in links && UserLinkMatches(l, identifier)
    {
      found := Filter(links, (l: UserChatLink) => UserLinkMatches(l, identifier));
    }

    /** `Delete`: fails when the triple is absent; otherwise removes all its rows and returns the one found. */
    method Delete(userId: string, planId: string, chatId: int) returns (r: Result<UserChatLink>)
      modifies this
      ensures r.Failure? <==> forall i | 0 <= i < |old(links)| :: !SameTriple(old(links)[i], userId, planId, chatId)
      ensures r.Failure? ==> r.error == RecordNotFound && links == old(links)
      ensures r.Success? ==> r.value in old(links) && SameTriple(r.value, userId, planId, chatId)
      ensures r.Success? ==> links == Filter(old(links), (l: UserChatLink) => !SameTriple(l, userId, planId, chatId))
    {
      r := Find(userId, planId, chatId);
      if r.Success? {
        links := Filter(links, (l: UserChatLink) => !SameTriple(l, userId, planId, chatId));
      }
    }

    /** `DeleteMultiple` as written: returns all matching rows, deletes by user_id for any string. */
    method DeleteMultiple(identifier: Dynamic) returns (found: seq<UserChatLink>)
      modifies this
      ensures found == Filter(old(links), (l: UserChatLink) => UserLinkMatches(l, identifier))
      ensures links == Filter(old(links), (l: UserChatLink) => !UserLinkDeleted(l, identifier))
    {
      found := Filter(links, (l: UserChatLink) => UserLinkMatches(l, identifier));
      links := Filter(links, (l: UserChatLink) => !UserLinkDeleted(l, identifier));
    }

    /** `DeleteMultiple` as evidently intended: a string deletes by user_id or plan_id, every row it returns. */
    method DeleteMultipleCorrected(identifier: Dynamic) returns (found: seq<UserChatLink>)
      modifies this
      ensures found == Filter(old(links), (l: UserChatLink) => UserLinkMatches(l, identifier))
      ensures links == Filter(old(links), (l: UserChatLink) => !UserLinkDeletedIntended(l, identifier))
    {
      found := Filter(links, (l: UserChatLink) => UserLinkMatches(l, identifier));
      links := Filter(links, (l: UserChatLink) => !UserLinkDeletedIntended(l, identifier));
    }
  }

  /**
   * As written, a link found through its plan_id by a string identifier is
   * returned as deleted but stays in the table.
   */
  lemma PlanIdMatchesSurviveDeleteMultiple(links: seq<UserChatLink>, s: string, l: UserChatLink)
    requires l in links && l.planId == s && l.userId != s
    ensures l in Filter(links, (x: UserChatLink) => UserLinkMatches(x, Str(s)))
    ensures l in Filter(links, (x: UserChatLink) => !UserLinkDeleted(x, Str(s)))
  {
  }

  /**
   * Corrected, a string or `int64` identifier deletes exactly the links it
   * returns. It rests on the
   * matching without MySQL's string/number conversion: under MySQL a numeric
   * string also finds the chat with that number, which the delete does not remove.
   */
  lemma CorrectedDeleteMultipleRemovesWhatItReturns(links: seq<UserChatLink>, identifier: Dynamic, l: UserChatLink)
    requires identifier.Str? || identifier.Int64?
    requires l in links
    ensures l in Filter(links, (x: UserChatLink) => UserLinkMatches(x, identifier))
        <==> l !in Filter(links, (x: UserChatLink) => !UserLinkDeletedIntended(x, identifier))
  {
  }
}
