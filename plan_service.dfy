/**
 * The validation rules of the two kinds of subscription plan (a project's
 * plans and the plans sold to service providers) and their lookups.
 */
module PlanService {
  import opened Wrappers
  import opened Text
  import opened Entity
  import opened Common
  import opened Tables
  import opened PlanRepo

  const NameEmptyMessage := "subscription plan name can not be empty"
  const NameLengthMessage := "subscription plan name should not be longer than 255 characters"
  const NameTakenMessage := "subscription plan name already exists in the current project"
  const BenfitsLengthMessage := "subscription plan benfits should not be longer than 2000 characters"
  const DurationMessage := "invalid subscription plan duration used"
  const PriceMessage := "invalid subscription plan price used"
  const CurrencyMessage := "invalid currency type selected"
  const NoPlanMessage := "no subscription plan found"

  /** The name rule shared by both kinds of plan: not blank, then at most 255 bytes. */
  function NameError(name: string): Option<Error> {
    if IsBlank(name) then Some(Error(NameEmptyMessage))
    else if ByteLen(name) > 255 then Some(Error(NameLengthMessage))
    else None
  }

  /** The duration in days lies in 1..1000000. */
  function DurationError(duration: int): Option<Error> {
    if duration < 1 || duration > 1000000 then Some(Error(DurationMessage)) else None
  }

  function PriceError(price: real): Option<Error> {
    if price < 0.0 then Some(Error(PriceMessage)) else None
  }

  function CurrencyError(currency: string): Option<Error> {
    if InFold(ValidCurrencyTypes, currency) then None else Some(Error(CurrencyMessage))
  }

  /** The price after validation: rounded to cents when it is not negative, untouched otherwise. */
  function RoundedPrice(price: real, roundCents: real -> real): real {
    if price < 0.0 then price else roundCents(price)
  }

  /** Another plan of the same project, with another ID, already has this name. */
  ghost predicate NameTaken(rows: map<string, SubscriptionPlan>, plan: SubscriptionPlan) {
    && !IsBlank(plan.projectId)
    && exists p | p in rows.Values :: OfProject(p, plan.projectId) && p.id != plan.id && p.name == plan.name
  }

  /** The errors of a project's plan; `taken` says whether a sibling plan has the name. */
  function PlanErrors(plan: SubscriptionPlan, taken: bool): (errs: ErrMap)
    ensures errs.Keys <= {"name", "benfits", "duration", "price", "currency"}
    ensures ErrorAt(errs, "name") ==
      (if NameError(plan.name).Some? then NameError(plan.name)
       else if taken then Some(Error(NameTakenMessage)) else None)
    ensures ErrorAt(errs, "benfits") == (if ByteLen(plan.benfits) > 2000 then Some(Error(BenfitsLengthMessage)) else None)
    ensures ErrorAt(errs, "duration") == DurationError(plan.duration)
    ensures ErrorAt(errs, "price") == PriceError(plan.price)
    ensures ErrorAt(errs, "currency") == CurrencyError(plan.currency)
  {
    var name := if NameError(plan.name).Some? then NameError(plan.name)
                else if taken then Some(Error(NameTakenMessage)) else None;
    var benfits := if ByteLen(plan.benfits) > 2000 then Some(Error(BenfitsLengthMessage)) else None;
    Note(Note(Note(Note(Note(map[], "name", name), "benfits", benfits), "duration", DurationError(plan.duration)),
              "price", PriceError(plan.price)), "currency", CurrencyError(plan.currency))
  }

  /** The errors of a service provider plan: the same rules without the name clash and the benefits. */
  function SPPlanErrors(plan: SPSubscriptionPlan): (errs: ErrMap)
    ensures errs.Keys <= {"name", "duration", "price", "currency"}
    ensures ErrorAt(errs, "name") == NameError(plan.name)
    ensures ErrorAt(errs, "duration") == DurationError(plan.duration)
    ensures ErrorAt(errs, "price") == PriceError(plan.price)
    ensures ErrorAt(errs, "currency") == CurrencyError(plan.currency)
  {
    Note(Note(Note(Note(map[], "name", NameError(plan.name)), "duration", DurationError(plan.duration)),
              "price", PriceError(plan.price)), "currency", CurrencyError(plan.currency))
  }

  /**
   * `FindMultipleSubscriptionPlans`: the plans of a project; a blank project
   * ID gives none without a query.
   */
  method FindMultipleSubscriptionPlans(repo: SubscriptionPlanRepository, projectId: string) returns (found: seq<SubscriptionPlan>)
    requires repo.Valid()
    ensures IsBlank(projectId) ==> found == []
    ensures !IsBlank(projectId) ==> Lists(found, repo.rows, PlanId, (x: SubscriptionPlan) => OfProject(x, projectId))
  {
    if IsBlank(projectId) {
      return [];
    }
    found := repo.FindMultiple(projectId);
  }

  /**
   * `ValidateSubscriptionPlan`: the name, sibling-name, benefits, duration,
   * price and currency rules; a price that is not negative is rounded to
   * cents in place (`roundCents` stands for `math.Round(p*100)/100`).
   */
  method ValidateSubscriptionPlan(repo: SubscriptionPlanRepository, plan: SubscriptionPlan, roundCents: real -> real)
    returns (errs: Option<ErrMap>, updated: SubscriptionPlan)
    requires repo.Valid()
    ensures errs == Reported(PlanErrors(plan, NameTaken(repo.rows, plan)))
    ensures updated == plan.(price := RoundedPrice(plan.price, roundCents))
  {
    var nameError := NameError(plan.name);
    var taken := false;
    if nameError.None? {
      var siblings := FindMultipleSubscriptionPlans(repo, plan.projectId);
      var i := 0;
      while i < |siblings|
        invariant 0 <= i <= |siblings|
        invariant !taken
        invariant forall j | 0 <= j < i :: !(siblings[j].id != plan.id && siblings[j].name == plan.name)
        decreases |siblings| - i
      {
        if plan.id != siblings[i].id && siblings[i].name == plan.name {
          taken := true;
          break;
        }
        i := i + 1;
      }
      assert taken == NameTaken(repo.rows, plan) by {
        if taken {
          assert siblings[i] in siblings;
        } else if !IsBlank(plan.projectId) {
          forall p | p in repo.rows.Values && OfProject(p, plan.projectId)
            ensures !(p.id != plan.id && p.name == plan.name)
          {
            assert p in siblings;
          }
        }
      }
    }
    var currencyOk := ContainsFold(ValidCurrencyTypes, plan.currency);
    assert CurrencyError(plan.currency).None? == currencyOk;
    errs := Reported(PlanErrors(plan, taken));
    updated := plan.(price := RoundedPrice(plan.price, roundCents));
  }

  /**
   * `ValidateSPSubscriptionPlan`: the name, duration, price and currency
   * rules, with the price rounded in place when it is not negative.
   */
  method ValidateSPSubscriptionPlan(plan: SPSubscriptionPlan, roundCents: real -> real)
    returns (errs: Option<ErrMap>, updated: SPSubscriptionPlan)
    ensures errs == Reported(SPPlanErrors(plan))
    ensures updated == plan.(price := RoundedPrice(plan.price, roundCents))
  {
    var currencyOk := ContainsFold(ValidCurrencyTypes, plan.currency);
    assert CurrencyError(plan.currency).None? == currencyOk;
    errs := Reported(SPPlanErrors(plan));
    updated := plan.(price := RoundedPrice(plan.price, roundCents));
  }

  /** A plan passes exactly when every rule holds; the same for a service provider plan. */
  lemma PlanAcceptedIff(plan: SubscriptionPlan, taken: bool, spPlan: SPSubscriptionPlan)
    ensures Reported(PlanErrors(plan, taken)).None? <==>
      && NameError(plan.name).None? && !taken && ByteLen(plan.benfits) <= 2000
      && 1 <= plan.duration <= 1000000 && plan.price >= 0.0 && InFold(ValidCurrencyTypes, plan.currency)
    ensures Reported(SPPlanErrors(spPlan)).None? <==>
      && NameError(spPlan.name).None? && 1 <= spPlan.duration <= 1000000 && spPlan.price >= 0.0
      && InFold(ValidCurrencyTypes, spPlan.currency)
  {
    var errs := PlanErrors(plan, taken);
    if |errs| == 0 {
      assert errs.Keys == {};
      assert ErrorAt(errs, "name").None? && ErrorAt(errs, "benfits").None?;
    } else {
      var k :| k in errs;
    }
    var spErrs := SPPlanErrors(spPlan);
    if |spErrs| == 0 {
      assert spErrs.Keys == {};
      assert ErrorAt(spErrs, "name").None?;
    } else {
      var k :| k in spErrs;
    }
  }

  /**
   * Validating the rewritten plan again reports the same errors, provided
   * rounding keeps a price non-negative: the rewrite never hides or creates
   * a finding.
   */
  lemma RevalidationAgrees(plan: SubscriptionPlan, taken: bool, spPlan: SPSubscriptionPlan, roundCents: real -> real)
    requires forall p: real | p >= 0.0 :: roundCents(p) >= 0.0
    ensures PlanErrors(plan.(price := RoundedPrice(plan.price, roundCents)), taken) == PlanErrors(plan, taken)
    ensures SPPlanErrors(spPlan.(price := RoundedPrice(spPlan.price, roundCents))) == SPPlanErrors(spPlan)
  {
  }

  /** `FindSPSubscriptionPlan`: a blank ID fails without a query; every failure carries one message. */
  method FindSPSubscriptionPlan(repo: SPSubscriptionPlanRepository, id: string) returns (r: Result<SPSubscriptionPlan>)
    requires repo.Valid()
    ensures IsBlank(id) ==> r == Failure(Error(NoPlanMessage))
    ensures !IsBlank(id) ==> (r.Success? <==> id in repo.rows)
    ensures r.Success? ==> id in repo.rows && r.value == repo.rows[id]
    ensures r.Failure? ==> r.error == Error(NoPlanMessage)
  {
    if IsBlank(id) {
      return Failure(Error(NoPlanMessage));
    }
    var found := repo.Find(id);
    if found.Failure? {
      return Failure(Error(NoPlanMessage));
    }
    r := found;
  }
}
