/**
 * `SubscriptionRepository` over the `subscriptions` table, and `Construct`,
 * which assembles a subscription from the user, the plan, the plan's
 * project and the project's provider.
 */
module SubscriptionRepo {
  import opened Wrappers
  import opened Entity
  import opened Tables
  import opened StringTools

  function SubscriptionId(s: Subscription): string { s.id }

  /** `subscriber_id = ? || provider_id = ? || project_id = ? || subscription_plan_id = ?`. */
  predicate Involves(s: Subscription, identifier: string) {
    s.subscriber.id == identifier || s.provider.id == identifier
      || s.project.id == identifier || s.plan.id == identifier
  }

  function PartyOf(a: Account): Party {
    Party(a.id, a.firstName, a.lastName, a.userName, a.phoneNumber, a.email)
  }

  function ProjectSummaryOf(p: Project): ProjectSummary {
    ProjectSummary(p.id, p.name, p.description, p.projectLink)
  }

  function PlanSummaryOf(p: SubscriptionPlan): PlanSummary {
    PlanSummary(p.id, p.name, p.benfits, p.duration, p.price, p.isRecurring, p.currency)
  }

  /** The join of `Construct` finds a row: the user exists, the plan exists, and so do its project and that project's provider. */
  predicate Joinable(
    users: map<string, Account>, providers: map<string, Account>, projects: map<string, Project>,
    plans: map<string, SubscriptionPlan>, subscriberId: string, planId: string)
  {
    subscriberId in users && planId in plans && plans[planId].projectId in projects
      && projects[plans[planId].projectId].providerId in providers
  }

  /**
   * `Construct`: the 23 joined columns copied one-to-one into a new
   * subscription whose ID and timestamps are left at their zero values; no
   * joined row is an error.
   */
  function Construct(
    users: map<string, Account>, providers: map<string, Account>, projects: map<string, Project>,
    plans: map<string, SubscriptionPlan>, subscriberId: string, planId: string): (r: Result<Subscription>)
    requires Keyed(users, (a: Account) => a.id) && Keyed(providers, (a: Account) => a.id)
    requires Keyed(projects, (p: Project) => p.id) && Keyed(plans, (p: SubscriptionPlan) => p.id)
    ensures r.Success? <==> Joinable(users, providers, projects, plans, subscriberId, planId)
    ensures r.Failure? ==> r.error == RecordNotFound
    ensures r.Success? ==> r.value.id == "" && r.value.createdAt == 0 && r.value.updatedAt == 0 && r.value.expiresAt == 0
    ensures r.Success? ==> r.value.subscriber.id == subscriberId && r.value.plan.id == planId
    ensures r.Success? ==> r.value.project.id == plans[planId].projectId
    ensures r.Success? ==> r.value.provider.id == projects[r.value.project.id].providerId
    ensures r.Success? ==> r.value.subscriber == PartyOf(users[subscriberId])
    ensures r.Success? ==> r.value.provider == PartyOf(providers[r.value.provider.id])
    ensures r.Success? ==> r.value.project == ProjectSummaryOf(projects[r.value.project.id])
    ensures r.Success? ==> r.value.plan == PlanSummaryOf(plans[planId])
  {
    if !Joinable(users, providers, projects, plans, subscriberId, planId) then Failure(RecordNotFound)
    else
      var plan := plans[planId];
      var project := projects[plan.projectId];
      var provider := providers[project.providerId];
      Success(Subscription("", PartyOf(users[subscriberId]), PartyOf(provider), ProjectSummaryOf(project), PlanSummaryOf(plan), 0, 0, 0))
  }

  /** `SubscriptionRepository`: the `subscriptions` table keyed by ID. */
  class SubscriptionRepository {
    var rows: map<string, Subscription>

    ghost predicate Valid()
      reads this
    {
      Keyed(rows, SubscriptionId)
    }

    constructor ()
      ensures Valid() && rows == map[]
    {
      rows := map[];
    }

    /** `Create`: a fresh ID `SUB-` + 7 random runes + counter, then the insert. */
    method Create(subscription: Subscription, draw: nat -> string) returns (created: Subscription, ghost tries: nat)
      requires Valid()
      requires forall i: nat :: IsRandomString(draw(i), 7)
      modifies this
      ensures Valid()
      ensures created == subscription.(id := MintedId("SUB-", draw(tries), |old(rows)| + 1 + tries))
      ensures created.id !in old(rows)
      ensures rows == old(rows)[created.id := created]
    {
      var id;
      id, tries := MintId(rows, "SUB-", 7, draw);
      created := subscription.(id := id);
      rows := rows[id := created];
    }

    /** `Find`: the row with that ID. */
    method Find(id: string) returns (r: Result<Subscription>)
      requires Valid()
      ensures id in rows <==> r.Success?
      ensures id in rows ==> r.value == rows[id]
      ensures id !in rows ==> r.error == RecordNotFound
    {
      if id in rows {
        r := Success(rows[id]);
      } else {
        r := Failure(RecordNotFound);
      }
    }

    /** `FindMultiple`: every row whose subscriber_id, provider_id, project_id or subscription_plan_id is `identifier`, each once. */
    method FindMultiple(identifier: string) returns (found: seq<Subscription>)
      requires Valid()
      ensures Lists(found, rows, SubscriptionId, (x: Subscription) => Involves(x, identifier))
    {
      found := Select(rows, SubscriptionId, (x: Subscription) => Involves(x, identifier));
    }

    /** `Update`: fails when no row has the ID; otherwise saves the record with the stored CreatedAt. */
    method Update(subscription: Subscription) returns (r: Result<Subscription>)
      requires Valid()
      modifies this
      ensures Valid()
      ensures subscription.id !in old(rows) ==> r == Failure(RecordNotFound) && rows == old(rows)
      ensures subscription.id in old(rows) ==>
        r == Success(subscription.(createdAt := old(rows)[subscription.id].createdAt)) && rows == old(rows)[subscription.id := r.value]
    {
      if subscription.id !in rows {
        return Failure(RecordNotFound);
      }
      var saved := subscription.(createdAt := rows[subscription.id].createdAt);
      rows := rows[subscription.id := saved];
      r := Success(saved);
    }

    /** `Delete`: the removed row, or an error and no change when the ID is absent. */
    method Delete(id: string) returns (r: Result<Subscription>)
      requires Valid()
      modifies this
      ensures Valid()
      ensures id !in old(rows) ==> r == Failure(RecordNotFound) && rows == old(rows)
      ensures id in old(rows) ==> r == Success(old(rows)[id]) && rows == old(rows) - {id}
    {
      if id !in rows {
        return Failure(RecordNotFound);
      }
      r := Success(rows[id]);
      rows := rows - {id};
    }

    /** `DeleteMultiple`: removes every row whose subscriber_id, provider_id, project_id or subscription_plan_id is `identifier` and returns exactly those rows. */
    method DeleteMultiple(identifier: string) returns (removed: seq<Subscription>)
      requires Valid()
      modifies this
      ensures Valid()
      ensures Lists(removed, old(rows), SubscriptionId, (x: Subscription) => Involves(x, identifier))
      ensures rows == Without(old(rows), Matching(old(rows), (x: Subscription) => Involves(x, identifier)))
    {
      removed, rows := RemoveMatching(rows, SubscriptionId, (x: Subscription) => Involves(x, identifier));
    }
  }
}
