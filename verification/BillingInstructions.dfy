/** The billing instructions as they run: guards in order, a local copy of the mandate changed field by field,
    and stores at the end. Each is proved to do what its specification says, or nothing, and to keep the invariant
    that ties the stored accounts to the log of everything done to them. */
module BillingInstructions {
  import opened Base
  import opened Hook
  import S = Streaming
  import E = Encoding
  import Pricing
  import Proration
  import opened Billing
  import opened BillingRuns
  import opened BillingLedgers
  import opened BillingMoney
  import opened BillingState

  /** An instruction is atomic: it installs the specified accounts, or leaves the stored ones alone. */
  ghost predicate Applied(spec: Result<(World, Entry)>, before: World, after: World, r: Result<Entry>) {
    match spec
    case Ok((world, entry)) => r == Ok(entry) && after == world
    case Err(e) => r == Err(e) && after == before
  }

  /** The stored accounts of one mandate, and the computations queued for it. */
  class Ledger {
    const key: Key
    var mandate: Mandate
    var approval: Option<Approval>
    var requests: map<Slot, Request>
    var reports: map<i64, Report>
    var events: map<u64, Event>
    var queued: map<Offset, Job>
    ghost var log: seq<Entry>

    /** What every run from a subscription guarantees of the stored accounts. */
    ghost predicate Valid()
      reads this
    {
      Consistent(View(), log)
    }

    function View(): World
      reads this
    {
      World(key, mandate, approval, requests, reports, events, queued)
    }

    constructor (key: Key, mandate: Mandate)
      ensures View() == World(key, mandate, None, map[], map[], map[], map[]) && log == []
      ensures Fresh(View()) ==> Valid()
    {
      this.key, this.mandate, approval := key, mandate, None;
      requests, reports, events, queued := map[], map[], map[], map[];
      log := [];
      new;
      if Fresh(View()) {
        FreshConsistent(View());
      }
    }

    /** So of a valid ledger: every live approval, settled report and unit of credit has its place in the log. */
    lemma Facts()
      requires Valid()
      ensures approval.Some? && approval.value.approved ==>
                exists i :: 0 <= i < |log| && WrittenBy(log, i, approval.value)
      ensures forall s: i64 :: s in reports && reports[s].settled <==>
                exists i :: 0 <= i < |log| && PullsUsage(log[i], s)
      ensures mandate.recorded <= mandate.pulls == |PullsOf(log)| <= mandate.recorded + 1
      ensures mandate.credit == Tally(log).granted - Tally(log).used
    {
      hide Consistent, WrittenBy, PullsUsage;
      ConsistentFacts(View(), log);
      forall s: i64
        ensures s in reports && reports[s].settled <==> exists i :: 0 <= i < |log| && PullsUsage(log[i], s)
      {
        assert IsSettled(View(), s) <==> s in reports && reports[s].settled;
      }
    }

    // -------------------------------------------------------------- requests

    method StartRequest(slot: Slot, offset: Offset, now: i64) returns (r: Result<()>)
      requires offset.slot == slot
      modifies this`requests
      ensures match Start(old(requests), offset, now)
              case Ok(after) => r == Ok(()) && requests == after
              case Err(e) => r == Err(e) && requests == old(requests)
    {
      if slot in requests && requests[slot].createdAt != 0 && requests[slot].pending {
        return Err(ArciumRequestAlreadyPending);
      }
      var request := Request(offset.mandate, slot, offset, offset.nonce, true, now, 0);
      requests := requests[slot := request];
      return Ok(());
    }

    method CompleteRequest(slot: Slot, now: i64)
      requires slot in requests
      modifies this`requests
      ensures requests == Complete(old(requests), slot, now)
    {
      var request := requests[slot];
      request := request.(pending := false);
      request := request.(completedAt := now);
      requests := requests[slot := request];
    }

    method CheckValidation(env: S.Env, plan: Plan, seed: i64, ciphertexts: nat) returns (r: Result<()>)
      ensures r == ValidationGuards(View(), env, plan, seed, ciphertexts)
    {
      var _ :- Load(View(), env);
      var m := mandate;
      var _ :- Need(plan.key == m.plan, PlanNotActive);
      var _ :- Need(plan.billingType == E.Flat, BillingTypeMismatch);
      var _ :- Need(m.status == E.Active, MandateNotActive);
      var _ :- Need(m.amount == plan.amount, PlanNotActive);
      var _ :- Need(m.pulls < m.maxPulls, MaxPullsExceeded);
      if m.expiry > 0 {
        var _ :- Need(env.now < m.expiry, MandateExpired);
      }
      var _ :- Need(env.now >= m.nextDue, PullTooEarly);
      var _ :- Need(seed == m.nextDue, InvalidArciumRequestState);
      var _ :- Need(plan.active, PlanNotActive);
      r := Need(ciphertexts == 8, InvalidCiphertextInput);
    }

    method RequestValidation(env: S.Env, plan: Plan, seed: i64, ciphertexts: nat, requested: Offset)
      returns (r: Result<Entry>)
      modifies this
      ensures Applied(Billing.RequestValidation(old(View()), env, plan, seed, ciphertexts, requested),
                      old(View()), View(), r)
      ensures log == old(log) + if r.Ok? then [r.value] else []
      ensures old(Valid()) && env.now > 0 ==> Valid()
    {
      hide Consistent, Start, Live, Period, ValidationGuards, Billing.ExecutePull, Billing.UpdateMandatePlan,
           Billing.RequestUsageComputation;
      var _ :- CheckValidation(env, plan, seed, ciphertexts);
      var m := mandate;
      var nonce :- ToU64(m.validationNonce + 1, Overflow);
      var slot := Slot(Validation, seed);
      var offset := Offset(key, slot, nonce);
      var _ :- Need(requested == offset, InvalidComputationOffset);
      var period :- Period(m);
      if Live(approval, key, period, env.now) {
        return Err(ApprovalAlreadyExists);
      }
      var _ :- StartRequest(slot, offset, env.now);
      approval := Some(NO_APPROVAL);
      m := m.(validationNonce := nonce);
      mandate := m;
      queued := queued[offset := ValidateJob];
      var entry := Requested(offset, ValidateJob);
      log := log + [entry];
      KeepsConsistent(old(View()), old(log), Act(env, DoRequestValidation(plan, seed, ciphertexts, requested)),
                      View(), entry);
      return Ok(entry);
    }

    method ValidationCallback(env: S.Env, offset: Offset, result: bool) returns (r: Result<Entry>)
      modifies this
      ensures Applied(Billing.ValidationCallback(old(View()), env.now, offset, result), old(View()), View(), r)
      ensures log == old(log) + if r.Ok? then [r.value] else []
      ensures old(Valid()) && env.now > 0 ==> Valid()
    {
      hide Consistent, BillingPeriod, Billing.ExecutePull, Billing.UpdateMandatePlan, Billing.RequestUsageComputation;
      var slot := Slot(Validation, mandate.nextDue);
      var _ :- Need(approval.Some?, AccountNotInitialized);
      var _ :- Bind(View(), slot, offset);
      var _ :- Need(mandate.status == E.Active, MandateNotActive);
      var _ :- Need(mandate.billingType == E.Flat, BillingTypeMismatch);
      var period :- Period(mandate);
      var validUntil :- ToI64(env.now + APPROVAL_TTL, Overflow);
      var a := approval.value;
      a := a.(mandate := key);
      a := a.(periodStart := period.0);
      a := a.(periodEnd := period.1);
      a := a.(validUntil := validUntil);
      a := a.(approved := result);
      a := a.(amount := mandate.amount);
      a := a.(createdAt := env.now);
      approval := Some(a);
      CompleteRequest(slot, env.now);
      var entry := Accepted(offset, a);
      log := log + [entry];
      KeepsConsistent(old(View()), old(log), Act(env, OnValidation(offset, result)), View(), entry);
      return Ok(entry);
    }

    // -------------------------------------------------------------- usage

    method SubmitUsageReport(env: S.Env, plan: Plan, start: i64, end: i64, units: seq<Ciphertext>)
      returns (r: Result<Entry>)
      modifies this
      ensures Applied(Billing.SubmitUsageReport(old(View()), env, plan, start, end, units), old(View()), View(), r)
      ensures log == old(log) + if r.Ok? then [r.value] else []
      ensures old(Valid()) && env.now > 0 ==> Valid()
    {
      hide Consistent, BillingPeriod, TermsHash, Terms, Pricing.BoundedTiers, Billing.ExecutePull,
           Billing.UpdateMandatePlan, Billing.RequestUsageComputation;
      var _ :- Need(start !in reports, AccountAlreadyInUse);
      var _ :- Load(View(), env);
      var m := mandate;
      var _ :- Need(env.signer == m.merchant, UnauthorizedKeeper);
      var _ :- Need(m.billingType == E.Usage, BillingTypeMismatch);
      var _ :- Need(m.status == E.Active, MandateNotActive);
      var _ :- Need(plan.key == m.plan, PlanNotActive);
      var _ :- Need(plan.billingType == E.Usage, BillingTypeMismatch);
      var _ :- Need(plan.active, PlanNotActive);
      var _ :- Need(plan.merchant == m.merchant, BillingTypeMismatch);
      var _ :- Need(0 < plan.tierCount <= 5, InvalidTierCount);
      var _ :- Pricing.ValidateUsagePricingBounds(plan.tiers[..plan.tierCount], plan.amount);
      var _ :- Need(|units| == 1, InvalidCiphertextInput);
      var period :- Period(m);
      var _ :- Need(start < end, InvalidPeriod);
      var _ :- Need(start == period.0 && end == period.1, PeriodMismatch);
      var _ :- Need(env.now >= end, PullTooEarly);
      var report := Report(key, m.merchant, start, end, units[0], TermsHash(Terms(plan)), false, env.now);
      reports := reports[start := report];
      var entry := Submitted(report, Terms(plan));
      log := log + [entry];
      KeepsConsistent(old(View()), old(log), Act(env, DoSubmit(plan, start, end, units)), View(), entry);
      return Ok(entry);
    }

    method RequestUsageComputation(env: S.Env, plan: Plan, start: i64, requested: Offset) returns (r: Result<Entry>)
      modifies this
      ensures Applied(Billing.RequestUsageComputation(old(View()), env, plan, start, requested),
                      old(View()), View(), r)
      ensures log == old(log) + if r.Ok? then [r.value] else []
      ensures old(Valid()) && env.now > 0 ==> Valid()
    {
      hide Consistent, Start, Live, Period, TermsHash, Terms, Pricing.BoundsError;
      var _ :- Need(plan.billingType == E.Usage, WrongAccountType);
      var _ :- Need(start in reports, AccountNotInitialized);
      var _ :- Load(View(), env);
      var m, report := mandate, reports[start];
      var _ :- Need(m.billingType == E.Usage, BillingTypeMismatch);
      var _ :- Need(plan.key == m.plan, PlanNotActive);
      var _ :- Need(m.status == E.Active, MandateNotActive);
      var _ :- Need(!report.settled, UsageReportAlreadySettled);
      var _ :- Need(report.mandate == key, BillingTypeMismatch);
      var _ :- Need(report.merchant == m.merchant, BillingTypeMismatch);
      var period :- Period(m);
      var _ :- Need(report.start == period.0 && report.end == period.1, PeriodMismatch);
      var _ :- Need(env.now >= period.1, PullTooEarly);
      var nonce :- ToU64(m.validationNonce + 1, Overflow);
      var slot := Slot(UsageComputation, report.start);
      var offset := Offset(key, slot, nonce);
      var _ :- Need(requested == offset, InvalidComputationOffset);
      var _ :- Need(plan.tierCount > 0 && plan.tierCount <= 5, InvalidTierCount);
      var _ :- Pricing.ValidateUsagePricingBounds(plan.tiers[..plan.tierCount], plan.amount);
      var _ :- Need(report.termsHash == TermsHash(Terms(plan)), InvalidCiphertextInput);
      if Live(approval, key, period, env.now) {
        return Err(ApprovalAlreadyExists);
      }
      var _ :- StartRequest(slot, offset, env.now);
      approval := Some(NO_APPROVAL);
      m := m.(validationNonce := nonce);
      mandate := m;
      var job := PriceJob(report.units, Terms(plan));
      queued := queued[offset := job];
      var entry := Requested(offset, job);
      log := log + [entry];
      KeepsRequestUsageComputation(old(View()), old(log), View(), entry, env, plan, start, requested);
      return Ok(entry);
    }

    method UsageCallback(env: S.Env, offset: Offset, start: i64, charge: u64) returns (r: Result<Entry>)
      modifies this
      ensures Applied(Billing.UsageCallback(old(View()), env.now, offset, start, charge), old(View()), View(), r)
      ensures log == old(log) + if r.Ok? then [r.value] else []
      ensures old(Valid()) && env.now > 0 ==> Valid()
    {
      hide Consistent, BillingPeriod, Billing.ExecutePull, Billing.UpdateMandatePlan, Billing.RequestUsageComputation;
      var _ :- Need(start in reports && approval.Some?, AccountNotInitialized);
      var report := reports[start];
      var slot := Slot(UsageComputation, report.start);
      var _ :- Bind(View(), slot, offset);
      var _ :- Need(report.mandate == key, BillingTypeMismatch);
      var _ :- Need(report.merchant == mandate.merchant, BillingTypeMismatch);
      var _ :- Need(mandate.status == E.Active, MandateNotActive);
      var _ :- Need(mandate.billingType == E.Usage, BillingTypeMismatch);
      var _ :- Need(!report.settled, UsageReportAlreadySettled);
      var period :- Period(mandate);
      var _ :- Need(report.start == period.0 && report.end == period.1, PeriodMismatch);
      var _ :- Need(charge <= mandate.amount, AmountExceedsPlanAmount);
      var validUntil :- ToI64(env.now + APPROVAL_TTL, Overflow);
      var a := approval.value;
      a := a.(mandate := key);
      a := a.(periodStart := period.0);
      a := a.(periodEnd := period.1);
      a := a.(validUntil := validUntil);
      a := a.(approved := true);
      a := a.(amount := charge);
      a := a.(createdAt := env.now);
      approval := Some(a);
      CompleteRequest(slot, env.now);
      var entry := Accepted(offset, a);
      log := log + [entry];
      KeepsConsistent(old(View()), old(log), Act(env, OnUsage(offset, start, charge)), View(), entry);
      return Ok(entry);
    }

    // -------------------------------------------------------------- pulls

    /** The guards of a pull, and the period they leave it to charge. */
    method CheckPull(env: S.Env, plan: Plan) returns (r: Result<(i64, i64)>)
      ensures r == PullGuards(View(), env, plan)
    {
      hide BillingPeriod, S.Gate, TokenAccepted;
      var _ :- S.Gate(env);
      var _ :- Load(View(), env);
      var m := mandate;
      var _ :- Need(env.signer == env.keeper || env.signer == m.subscriber, UnauthorizedKeeper);
      var _ :- Need(plan.billingType == m.billingType, BillingTypeMismatch);
      var _ :- Need(plan.active, PlanNotActive);
      if plan.billingMint != DEFAULT_KEY {
        var _ :- Need(env.mint == plan.billingMint, TokenChangeNotSupported);
      } else {
        var _ :- Need(env.mint == env.config.wrappedMint, UsdcMintMismatch);
      }
      var _ :- TokenAccepted(env);
      var _ :- Need(m.status == E.Active, MandateNotActive);
      var _ :- Need(plan.key == m.plan && plan.merchant == m.merchant, KeyMismatch);
      var _ :- Need(m.recorded == m.pulls, PendingBillingRecord);
      if m.expiry > 0 {
        var _ :- Need(env.now < m.expiry, MandateExpired);
      }
      var _ :- Need(m.pulls < m.maxPulls, MaxPullsExceeded);
      var _ :- Need(env.now >= m.nextDue, PullTooEarly);
      r := Period(m);
    }

    /** What the pull charges: nothing is stored yet. */
    method ChargeOf(env: S.Env, plan: Plan, pendingPlan: Option<Plan>, report: Option<i64>)
      returns (r: Result<Charge>)
      ensures r == PullCharge(View(), env, plan, pendingPlan, report)
    {
      hide PullGuards, ApplyPending, CheckReport, CheckApproval;
      var period :- CheckPull(env, plan);
      var usage := mandate.billingType == E.Usage;
      if usage {
        var _ :- Need(report.Some?, PeriodMismatch);
      }
      var applied :- ApplyPendingChange(mandate, plan, pendingPlan, env.now);
      var m, active := applied.0, applied.1;
      var a :- CheckApproval(approval, key, period, env.now);
      if usage {
        var _ :- CheckReport(View(), report.value, period);
      }
      var base: u64 := 0;
      if active.billingType == E.Flat {
        var _ :- Need(m.amount <= a.amount, AmountExceedsPlanAmount);
        base := m.amount;
      } else {
        var _ :- Need(a.amount <= m.amount, AmountExceedsPlanAmount);
        base := a.amount;
      }
      var used := Min(base, m.credit);
      return Ok(Charge(m, a, period.1, base, used, SaturatingSub(base, used)));
    }

    method ExecutePull(env: S.Env, plan: Plan, pendingPlan: Option<Plan>, report: Option<i64>)
      returns (r: Result<Entry>)
      modifies this
      ensures Applied(Billing.ExecutePull(old(View()), env, plan, pendingPlan, report), old(View()), View(), r)
      ensures log == old(log) + if r.Ok? then [r.value] else []
      ensures old(Valid()) && env.now > 0 ==> Valid()
    {
      hide Consistent, PullCharge, Move, Settle, CommitPull;
      var c :- ChargeOf(env, plan, pendingPlan, report);
      if c.moved > 0 {
        var _ :- Move(View(), env, c.approval, c.moved);
      }
      var planChanged := ChangeDue(mandate, env.now);
      var usage := mandate.billingType == E.Usage;
      var m :- Advance(c, env.now);
      mandate := m;
      if usage {
        reports := Settle(reports, c.approval.periodStart);
      }
      approval := None;
      var entry := Pulled(env.now, c.end, c.approval, m.billingType, m.frequency, planChanged, m.amount,
                       c.base, c.used, c.moved);
      log := log + [entry];
      KeepsExecutePull(old(View()), old(log), View(), entry, env, plan, pendingPlan, report);
      return Ok(entry);
    }

    // -------------------------------------------------------------- billing records

    method RequestBillingRecord(env: S.Env, plan: Plan, seed: u64, requested: Offset) returns (r: Result<Entry>)
      modifies this
      ensures Applied(Billing.RequestBillingRecord(old(View()), env, plan, seed, requested), old(View()), View(), r)
      ensures log == old(log) + if r.Ok? then [r.value] else []
      ensures old(Valid()) && env.now > 0 ==> Valid()
    {
      hide Consistent;
      var _ :- Need(plan.billingType == E.Flat, WrongAccountType);
      var _ :- Load(View(), env);
      var m := mandate;
      var _ :- Need(m.pulls > 0, ApprovalNotGranted);
      var _ :- Need(seed == m.pulls, InvalidComputationOffset);
      var _ :- Need(plan.key == m.plan, PlanNotActive);
      var _ :- Need(m.recorded < m.pulls, BillingEventAlreadyExists);
      var nonce :- ToU64(m.billingNonce + 1, Overflow);
      var slot := Slot(BillingRecord, seed);
      var offset := Offset(key, slot, nonce);
      var _ :- Need(requested == offset, InvalidComputationOffset);
      var frequency :- ToI64(plan.frequency, Overflow);
      var end := m.nextDue;
      var start :- ToI64(end as int - frequency as int, Overflow);
      if seed in events && events[seed].createdAt != 0 {
        return Err(BillingEventAlreadyExists);
      }
      var _ :- StartRequest(slot, offset, env.now);
      events := events[seed := NO_EVENT];
      m := m.(billingNonce := nonce);
      mandate := m;
      var job := RecordJob(plan.amount, m.lastPullAt, m.pulls, start, end);
      queued := queued[offset := job];
      var entry := Requested(offset, job);
      log := log + [entry];
      KeepsRequestBillingRecord(old(View()), old(log), View(), entry, env, plan, seed, requested);
      return Ok(entry);
    }

    method BillingCallback(env: S.Env, offset: Offset, plan: Plan, blob: int) returns (r: Result<Entry>)
      modifies this
      ensures Applied(Billing.BillingCallback(old(View()), env.now, offset, plan, blob), old(View()), View(), r)
      ensures log == old(log) + if r.Ok? then [r.value] else []
      ensures old(Valid()) && env.now > 0 ==> Valid()
    {
      hide Consistent, Billing.ExecutePull, Billing.UpdateMandatePlan, Billing.RequestUsageComputation;
      var slot := Slot(BillingRecord, mandate.pulls);
      var _ :- Need(plan.billingType == E.Flat, WrongAccountType);
      var _ :- Need(mandate.pulls in events, AccountNotInitialized);
      var _ :- Bind(View(), slot, offset);
      var _ :- Need(plan.key == mandate.plan, PlanNotActive);
      var event := events[mandate.pulls];
      var _ :- Need(event.createdAt == 0, BillingEventAlreadyExists);
      event := event.(mandate := key);
      event := event.(merchant := mandate.merchant);
      event := event.(subscriber := mandate.subscriber);
      event := event.(planId := plan.planId);
      event := event.(blob := blob);
      event := event.(createdAt := env.now);
      events := events[mandate.pulls := event];
      mandate := mandate.(recorded := mandate.pulls);
      CompleteRequest(slot, env.now);
      var entry := Recorded(offset, mandate.pulls, event);
      log := log + [entry];
      KeepsConsistent(old(View()), old(log), Act(env, OnRecord(offset, plan, blob)), View(), entry);
      return Ok(entry);
    }

    // -------------------------------------------------------------- plan changes

    /** The guards of a change, up to consent. */
    method CheckChange(env: S.Env, plan: Plan) returns (r: Result<()>)
      ensures r == ChangeGuards(View(), env, plan)
    {
      hide S.Gate, TokenAccepted;
      var _ :- S.Gate(env);
      var _ :- Load(View(), env);
      var m := mandate;
      var _ :- Need(m.status == E.Active, MandateNotActive);
      var _ :- Need(plan.merchant == m.merchant, UnauthorizedUpgrade);
      var _ :- Need(plan.active, PlanNotActive);
      if plan.billingMint != DEFAULT_KEY {
        var _ :- Need(env.mint == plan.billingMint, TokenChangeNotSupported);
      }
      var _ :- TokenAccepted(env);
      var isSubscriber, isMerchant := env.signer == m.subscriber, env.signer == m.merchant;
      var _ :- Need(isSubscriber || isMerchant, UnauthorizedUpgrade);
      if plan.amount > m.amount {
        var _ :- Need(isSubscriber, UnauthorizedUpgrade);
      }
      r := Ok(());
    }

    method UpdateMandatePlan(env: S.Env, plan: Plan, div: (nat, nat) -> nat) returns (r: Result<Entry>)
      modifies this
      ensures Applied(Billing.UpdateMandatePlan(old(View()), env, plan, div), old(View()), View(), r)
      ensures log == old(log) + if r.Ok? then [r.value] else []
      ensures old(Valid()) && env.now > 0 ==> Valid()
    {
      hide Consistent, Period, Switch, BillingPeriod, ChangeGuards, Move, CheckApproval, Proration.ComputeProration,
           ElapsedInPeriod;
      var _ :- CheckChange(env, plan);
      var m := mandate;
      if m.plan == plan.key {
        var entry := Unchanged;
        log := log + [entry];
        KeepsUpdateMandatePlan(old(View()), old(log), View(), entry, env, plan, div);
        return Ok(entry);
      }
      var elapsed :- ElapsedInPeriod(m, env.now);
      var delta :- Proration.ComputeProration(m.amount, plan.amount, elapsed, m.frequency, div);
      var eventAmount :- ToI64(delta, MathOverflow);
      var consumed: Option<Approval> := None;
      if delta > 0 {
        var period :- Period(m);
        var a :- CheckApproval(approval, key, period, env.now);
        var _ :- Need(delta <= a.amount, AmountExceedsPlanAmount);
        var _ :- Move(View(), env, a, delta);
        approval := None;
        consumed := Some(a);
      } else if delta < 0 {
        var credit :- ToU64(m.credit - delta, Overflow);
        m := m.(credit := credit);
      }
      mandate := TakeTerms(m, plan);
      var entry := Changed(env.now, eventAmount, consumed);
      log := log + [entry];
      KeepsUpdateMandatePlan(old(View()), old(log), View(), entry, env, plan, div);
      return Ok(entry);
    }

    method SchedulePlanChange(env: S.Env, plan: Plan) returns (r: Result<Entry>)
      modifies this
      ensures Applied(Billing.SchedulePlanChange(old(View()), env, plan), old(View()), View(), r)
      ensures log == old(log) + if r.Ok? then [r.value] else []
      ensures old(Valid()) && env.now > 0 ==> Valid()
    {
      hide Consistent, Billing.ExecutePull, Billing.UpdateMandatePlan, Billing.RequestUsageComputation;
      var _ :- Need(!env.config.paused, ProtocolPaused);
      var _ :- Load(View(), env);
      var m := mandate;
      var _ :- Need(m.status == E.Active, MandateNotActive);
      var _ :- Need(plan.merchant == m.merchant, UnauthorizedUpgrade);
      var _ :- Need(plan.active, PlanNotActive);
      var isSubscriber, isMerchant := env.signer == m.subscriber, env.signer == m.merchant;
      var _ :- Need(isSubscriber || isMerchant, UnauthorizedUpgrade);
      if plan.amount > m.amount {
        var _ :- Need(isSubscriber, UnauthorizedUpgrade);
      }
      if m.plan == plan.key {
        var entry := Unchanged;
        log := log + [entry];
        KeepsConsistent(old(View()), old(log), Act(env, DoSchedule(plan)), View(), entry);
        return Ok(entry);
      }
      m := m.(pending := Some(Pending(plan.key, m.nextDue)));
      mandate := m;
      var entry := Scheduled(plan.key);
      log := log + [entry];
      KeepsConsistent(old(View()), old(log), Act(env, DoSchedule(plan)), View(), entry);
      return Ok(entry);
    }

    method CancelPlanChange(env: S.Env) returns (r: Result<Entry>)
      modifies this
      ensures Applied(Billing.CancelPlanChange(old(View()), env), old(View()), View(), r)
      ensures log == old(log) + if r.Ok? then [r.value] else []
      ensures old(Valid()) && env.now > 0 ==> Valid()
    {
      hide Consistent, Billing.ExecutePull, Billing.UpdateMandatePlan, Billing.RequestUsageComputation;
      var _ :- Load(View(), env);
      var m := mandate;
      var _ :- Need(m.status == E.Active, MandateNotActive);
      var _ :- Need(m.pending.Some?, NoPendingChange);
      var _ :- Need(env.signer == m.subscriber || env.signer == m.merchant, UnauthorizedUpgrade);
      mandate := m.(pending := None);
      var entry := Unscheduled;
      log := log + [entry];
      KeepsConsistent(old(View()), old(log), Act(env, DoUnschedule), View(), entry);
      return Ok(entry);
    }

    method CancelMandate(env: S.Env, plan: Plan) returns (r: Result<Entry>)
      modifies this
      ensures Applied(Billing.CancelMandate(old(View()), env, plan), old(View()), View(), r)
      ensures log == old(log) + if r.Ok? then [r.value] else []
      ensures old(Valid()) && env.now > 0 ==> Valid()
    {
      hide Consistent, Billing.ExecutePull, Billing.UpdateMandatePlan, Billing.RequestUsageComputation;
      var _ :- Load(View(), env);
      var m := mandate;
      var _ :- Need(plan.billingType == m.billingType, BillingTypeMismatch);
      var _ :- Need(plan.key == m.plan && plan.merchant == m.merchant, KeyMismatch);
      var _ :- Need(env.signer == m.subscriber, UnauthorizedCancel);
      var _ :- Need(m.status == E.Active, MandateNotActive);
      mandate := m.(status := E.MandateStatus.Cancelled);
      var entry := Ended;
      log := log + [entry];
      KeepsConsistent(old(View()), old(log), Act(env, DoCancel(plan)), View(), entry);
      return Ok(entry);
    }

    method AdminCancel(env: S.Env, admin: Key, plan: Plan) returns (r: Result<Entry>)
      modifies this
      ensures Applied(Billing.AdminCancel(old(View()), env, admin, plan), old(View()), View(), r)
      ensures log == old(log) + if r.Ok? then [r.value] else []
      ensures old(Valid()) && env.now > 0 ==> Valid()
    {
      hide Consistent, Billing.ExecutePull, Billing.UpdateMandatePlan, Billing.RequestUsageComputation;
      var _ :- Need(env.signer == admin, UnauthorizedAdmin);
      var _ :- Load(View(), env);
      var m := mandate;
      var _ :- Need(plan.billingType == m.billingType, BillingTypeMismatch);
      var _ :- Need(plan.key == m.plan && plan.merchant == m.merchant, KeyMismatch);
      var _ :- Need(m.status == E.Active, MandateNotActive);
      mandate := m.(status := E.MandateStatus.Cancelled);
      var entry := Ended;
      log := log + [entry];
      KeepsConsistent(old(View()), old(log), Act(env, DoAdminCancel(admin, plan)), View(), entry);
      return Ok(entry);
    }
  }

  /** A scheduled change that has come due replaces the terms and the plan that is charged. */
  method ApplyPendingChange(mandate: Mandate, plan: Plan, pendingPlan: Option<Plan>, now: i64)
    returns (r: Result<(Mandate, Plan)>)
    ensures r == ApplyPending(mandate, plan, pendingPlan, now)
  {
    var m, active := mandate, plan;
    if m.pending.Some? && now >= m.pending.value.effectiveAt {
      var _ :- Need(pendingPlan.Some? && pendingPlan.value.key == m.pending.value.plan, PendingPlanAccountMissing);
      var next := pendingPlan.value;
      var _ :- Need(next.merchant == m.merchant, UnauthorizedUpgrade);
      var _ :- Need(next.active, PlanNotActive);
      var _ :- Need(next.billingType == m.billingType, BillingTypeMismatch);
      if active.billingMint != DEFAULT_KEY && next.billingMint != DEFAULT_KEY {
        var _ :- Need(next.billingMint == active.billingMint, TokenChangeNotSupported);
      }
      m := TakeTerms(m, next);
      active := next;
    }
    return Ok((m, active));
  }

  /** The mandate after the charge, changed field by field. */
  method Advance(c: Charge, now: i64) returns (r: Result<Mandate>)
    ensures r == CommitPull(c, now)
  {
    var m := c.mandate;
    m := m.(credit := SaturatingSub(m.credit, c.used));
    var frequency :- ToI64(m.frequency, Overflow);
    var pulls :- ToU64(m.pulls + 1, Overflow);
    m := m.(pulls := pulls);
    var nextDue :- ToI64(m.nextDue + frequency, Overflow);
    m := m.(nextDue := nextDue);
    m := m.(lastPullAt := now);
    if m.billingType == E.Usage {
      m := m.(recorded := pulls);
    }
    if pulls >= m.maxPulls {
      m := m.(status := E.Expired);
    }
    return Ok(m);
  }

  /** The terms of a plan, taken over one by one. */
  method TakeTerms(m: Mandate, plan: Plan) returns (n: Mandate)
    ensures n == Switch(m, plan)
  {
    n := m;
    n := n.(plan := plan.key);
    n := n.(amount := plan.amount);
    n := n.(frequency := plan.frequency);
    n := n.(maxPulls := MaxPulls(plan));
    n := n.(billingType := plan.billingType);
    n := n.(pending := None);
  }

  /** A merchant's account numbers the mandates opened against it; the number gives the mandate its address. */
  class MandateCounter {
    var mandateCounter: u64

    constructor ()
      ensures mandateCounter == 0
    {
      mandateCounter := 0;
    }

    method SubscribeTo(plan: Plan, subscriber: Key, mint: Key, token: TokenConfig, now: i64, address: u64 -> Key)
      returns (r: Result<Ledger>)
      modifies this
      ensures match Subscribe(plan, subscriber, mint, token, now)
              case Err(e) => r == Err(e) && mandateCounter == old(mandateCounter)
              case Ok(m) =>
                if old(mandateCounter) == U64_MAX then r == Err(Overflow) && mandateCounter == old(mandateCounter)
                else
                  r.Ok? && fresh(r.value) && mandateCounter == old(mandateCounter) + 1 && r.value.Valid() &&
                  r.value.View() == World(address(old(mandateCounter)), m, None, map[], map[], map[], map[])
    {
      var _ :- Need(plan.active, PlanNotActive);
      if plan.billingMint != DEFAULT_KEY {
        var _ :- Need(mint == plan.billingMint, TokenChangeNotSupported);
      }
      var _ :- Need(token.enabled, TokenDisabled);
      var _ :- Need(token.rail == TransferHook, InvalidBillingRail);
      var _ :- Need(token.mint == mint, TokenNotRegistered);
      var index := mandateCounter;
      var next :- ToU64(mandateCounter + 1, Overflow);
      var expiry :- Expiry(plan, now);
      var due :- FirstDue(plan, now);
      var mandate := Mandate(subscriber, plan.merchant, plan.key, plan.billingType, plan.amount, plan.frequency, expiry,
                             MaxPulls(plan), 0, due, 0, 0, 0, 0, E.Active, 0, None);
      var ledger := new Ledger(address(index), mandate);
      mandateCounter := next;
      return Ok(ledger);
    }
  }
}
