/** Exactly when each billing instruction and callback is accepted, read from the stored accounts and its arguments. */
module BillingAccepts {
  import opened Base
  import opened Hook
  import HookProofs
  import S = Streaming
  import E = Encoding
  import Pricing
  import Proration
  import opened Billing
  import opened BillingRuns
  import opened BillingMoney
  import opened BillingChanges

  // ---------------------------------------------------------------- shared conditions

  /** The protocol is not paused, and the hook and vault passed are the configured ones. */
  predicate Running(env: S.Env) {
    && !env.config.paused && env.config.hookProgram != DEFAULT_KEY
    && env.hookProgram == env.config.hookProgram && env.vault == env.config.vault
  }

  /** The token passed is registered and enabled. */
  predicate TokenEnabled(env: S.Env) {
    env.token.Some? && env.token.value.enabled && env.token.value.mint == env.mint
  }

  /** The mandate's token account holds the amount, the other is the merchant's, and the token is on the hook's rail;
      nothing is asked where nothing moves. */
  predicate Payable(w: World, env: S.Env, amount: int) {
    amount > 0 ==>
      && env.token == Some(TokenConfig(env.mint, true, TransferHook))
      && env.source.mint == env.mint && env.source.owner == w.key && env.source.amount >= amount
      && env.destination.mint == env.mint && env.destination.owner == w.mandate.merchant
  }

  /** The present period has 64-bit ends. */
  predicate PeriodFits(m: Mandate) {
    m.frequency <= I64_MAX && m.nextDue - m.frequency >= -I64_MAX - 1
  }

  /** A due date that lies in time, an unexpired mandate with pulls left. */
  predicate PullDue(m: Mandate, now: i64) {
    m.status == E.Active && m.pulls < m.maxPulls && !(m.expiry > 0 && now >= m.expiry) && now >= m.nextDue
  }

  /** The slot holds no request that waits for an answer. */
  predicate Free(w: World, slot: Slot) {
    slot in w.requests ==> !w.requests[slot].pending || w.requests[slot].createdAt == 0
  }

  /** The request in the slot waits for this offset, and the network was asked for it. */
  predicate Awaited(w: World, slot: Slot, offset: Offset) {
    slot in w.requests && offset in w.queued
    && var r := w.requests[slot];
       r.pending && r.mandate == w.key && r.slot == slot && r.offset == offset
  }

  lemma BindIff(w: World, slot: Slot, offset: Offset)
    ensures Bind(w, slot, offset).Ok? <==> Awaited(w, slot, offset)
  {
  }

  /** The stored approval can be spent on the present period, for no more than its amount. */
  predicate Approves(w: World, now: i64, amount: int) {
    w.approval.Some? && Spendable(w, w.approval.value, now) && amount <= w.approval.value.amount
  }

  lemma PeriodIff(m: Mandate)
    ensures Period(m) == if PeriodFits(m) then Ok((m.nextDue - m.frequency, m.nextDue)) else Err(Overflow)
  {
  }

  lemma ApprovalIff(w: World, period: (i64, i64), now: i64)
    requires period == (w.mandate.nextDue - w.mandate.frequency, w.mandate.nextDue)
    ensures var r := CheckApproval(w.approval, w.key, period, now);
            && (r.Ok? <==> Approves(w, now, 0))
            && (r.Ok? ==> w.approval == Some(r.value))
  {
  }

  /** A transfer for which an approval stands goes through exactly on the accounts and the funds. */
  lemma MoveIff(w: World, env: S.Env, amount: u64)
    requires Running(env) && PeriodFits(w.mandate) && Approves(w, env.now, amount)
    ensures MoveIfPositive(w, env, w.approval.value, amount).Ok? <==> Payable(w, env, amount)
  {
    hide HandleTransfer;
    HookProofs.TransferAllowedIff(BillingCall(w, env, w.approval.value, amount));
  }

  // ---------------------------------------------------------------- pulls

  /** The report that a usage pull settles is that of the period, open, of this mandate and merchant. */
  predicate Reported(w: World, report: Option<i64>) {
    && report.Some? && report.value == w.mandate.nextDue - w.mandate.frequency && OpenReport(w, report.value)
    && w.reports[report.value].mandate == w.key && w.reports[report.value].merchant == w.mandate.merchant
  }

  /** A scheduled change has come due. */
  predicate ComesDue(m: Mandate, now: i64) {
    m.pending.Some? && now >= m.pending.value.effectiveAt
  }

  /** The plan passed for a change that has come due is the scheduled one, of the same merchant, kind and token. */
  predicate Takeable(m: Mandate, plan: Plan, pendingPlan: Option<Plan>) {
    && m.pending.Some? && pendingPlan.Some?
    && var next := pendingPlan.value;
       && next.key == m.pending.value.plan && next.merchant == m.merchant && next.active
       && next.billingType == m.billingType
       && (plan.billingMint == DEFAULT_KEY || next.billingMint == DEFAULT_KEY || next.billingMint == plan.billingMint)
  }

  /** The plan that a pull charges under. */
  function InForce(m: Mandate, plan: Plan, pendingPlan: Option<Plan>, now: i64): Option<Plan> {
    if ComesDue(m, now) then pendingPlan else None
  }

  function PriceOf(m: Mandate, taken: Option<Plan>): u64 {
    match taken case None => m.amount case Some(p) => p.amount
  }

  function FrequencyOf(m: Mandate, taken: Option<Plan>): u64 {
    match taken case None => m.frequency case Some(p) => p.frequency
  }

  /** Caller, plan and token of a pull. */
  predicate PullAllowed(w: World, env: S.Env, plan: Plan) {
    var m := w.mandate;
    && Running(env) && env.self == w.key && (env.signer == env.keeper || env.signer == m.subscriber)
    && plan.key == m.plan && plan.merchant == m.merchant && plan.active && plan.billingType == m.billingType
    && env.mint == (if plan.billingMint == DEFAULT_KEY then env.config.wrappedMint else plan.billingMint)
    && TokenEnabled(env)
  }

  /** The price of a flat pull, or the approved charge of a usage pull. */
  function BaseOf(w: World, price: u64): u64
    requires w.approval.Some?
  {
    if w.mandate.billingType == E.Flat then price else w.approval.value.amount
  }

  /** A pull is accepted exactly when caller, plan and token are in order, the last pull is recorded, the mandate is
      due, a change that has come due can be taken over, the period is approved - for a flat pull at least the price,
      for a usage pull at most the cap - and reported, and the price less the credit can be paid. */
  lemma PullAcceptedIff(w: World, env: S.Env, plan: Plan, pendingPlan: Option<Plan>, report: Option<i64>)
    ensures var m := w.mandate;
            var taken := InForce(m, plan, pendingPlan, env.now);
            var price := PriceOf(m, taken);
            ExecutePull(w, env, plan, pendingPlan, report).Ok? <==>
              && PullAllowed(w, env, plan) && m.recorded == m.pulls && PullDue(m, env.now) && PeriodFits(m)
              && (ComesDue(m, env.now) ==> Takeable(m, plan, pendingPlan))
              && Approves(w, env.now, 0)
              && (m.billingType == E.Flat ==> price <= w.approval.value.amount)
              && (m.billingType == E.Usage ==> w.approval.value.amount <= price && Reported(w, report))
              && Payable(w, env, BaseOf(w, price) - Min(BaseOf(w, price), m.credit))
              && FrequencyOf(m, taken) <= I64_MAX && m.nextDue + FrequencyOf(m, taken) <= I64_MAX
  {
    hide PullCharge, MoveIfPositive, Approves, Payable, Running, CommitPull, PullAllowed, PullDue, Takeable, Reported,
         Settle, PeriodFits;
    ChargeIff(w, env, plan, pendingPlan, report);
    var m := w.mandate;
    if PullCharge(w, env, plan, pendingPlan, report).Ok? {
      var c := PullCharge(w, env, plan, pendingPlan, report).value;
      ApprovesLess(w, env.now, c.moved);
      AllowedRuns(w, env, plan);
      MoveIff(w, env, c.moved);
      DueHasRoom(m, env.now);
      CommitIff(c, env.now);
    }
  }

  lemma GuardsIff(w: World, env: S.Env, plan: Plan)
    ensures PullGuards(w, env, plan).Ok? <==>
              PullAllowed(w, env, plan) && w.mandate.recorded == w.mandate.pulls && PullDue(w.mandate, env.now)
              && PeriodFits(w.mandate)
    ensures PullGuards(w, env, plan).Ok? ==>
              PullGuards(w, env, plan).value == (w.mandate.nextDue - w.mandate.frequency, w.mandate.nextDue)
  {
    hide Period, PeriodFits;
    PeriodIff(w.mandate);
  }

  lemma TakeableIff(m: Mandate, plan: Plan, pendingPlan: Option<Plan>, now: i64)
    requires plan.billingType == m.billingType
    ensures ApplyPending(m, plan, pendingPlan, now).Ok? <==> (ComesDue(m, now) ==> Takeable(m, plan, pendingPlan))
    ensures ApplyPending(m, plan, pendingPlan, now).Ok? ==>
              var (n, active) := ApplyPending(m, plan, pendingPlan, now).value;
              var taken := InForce(m, plan, pendingPlan, now);
              && n.amount == PriceOf(m, taken) && n.frequency == FrequencyOf(m, taken)
              && n.credit == m.credit && n.pulls == m.pulls && n.nextDue == m.nextDue
              && active.billingType == m.billingType
  {
  }

  lemma ReportedIff(w: World, report: Option<i64>)
    requires report.Some? && PeriodFits(w.mandate)
    ensures CheckReport(w, report.value, (w.mandate.nextDue - w.mandate.frequency, w.mandate.nextDue)).Ok?
       <==> Reported(w, report)
  {
  }

  /** What a pull charges, before any money moves. */
  lemma ChargeIff(w: World, env: S.Env, plan: Plan, pendingPlan: Option<Plan>, report: Option<i64>)
    ensures var m := w.mandate;
            var taken := InForce(m, plan, pendingPlan, env.now);
            var price := PriceOf(m, taken);
            var r := PullCharge(w, env, plan, pendingPlan, report);
            && (r.Ok? <==>
                  && PullAllowed(w, env, plan) && m.recorded == m.pulls && PullDue(m, env.now) && PeriodFits(m)
                  && (ComesDue(m, env.now) ==> Takeable(m, plan, pendingPlan))
                  && Approves(w, env.now, 0)
                  && (m.billingType == E.Flat ==> price <= w.approval.value.amount)
                  && (m.billingType == E.Usage ==> w.approval.value.amount <= price && Reported(w, report)))
            && (r.Ok? ==>
                  && w.approval == Some(r.value.approval) && r.value.base == BaseOf(w, price) <= w.approval.value.amount
                  && r.value.moved == r.value.base - Min(r.value.base, m.credit)
                  && r.value.mandate.frequency == FrequencyOf(m, taken)
                  && r.value.mandate.pulls == m.pulls && r.value.mandate.nextDue == m.nextDue)
  {
    hide PullGuards, ApplyPending, CheckApproval, CheckReport, Approves, PullAllowed, PullDue, Takeable, PeriodFits;
    GuardsIff(w, env, plan);
    if PullGuards(w, env, plan).Ok? {
      AllowedRuns(w, env, plan);
      TakeableIff(w.mandate, plan, pendingPlan, env.now);
      ApprovalIff(w, PullGuards(w, env, plan).value, env.now);
      if report.Some? {
        ReportedIff(w, report);
      }
    }
  }

  lemma ApprovesLess(w: World, now: i64, amount: int)
    requires Approves(w, now, 0) && amount <= w.approval.value.amount
    ensures Approves(w, now, amount)
  {
  }

  lemma AllowedRuns(w: World, env: S.Env, plan: Plan)
    requires PullAllowed(w, env, plan)
    ensures Running(env) && plan.billingType == w.mandate.billingType
  {
  }

  lemma CommitIff(c: Charge, now: i64)
    requires c.mandate.pulls < U64_MAX
    ensures CommitPull(c, now).Ok? <==>
              c.mandate.frequency <= I64_MAX && c.mandate.nextDue + c.mandate.frequency <= I64_MAX
  {
  }

  lemma DueHasRoom(m: Mandate, now: i64)
    requires PullDue(m, now)
    ensures m.pulls < U64_MAX
  {
  }

  // ---------------------------------------------------------------- approvals for a flat period

  lemma LiveIff(w: World, now: i64)
    requires PeriodFits(w.mandate)
    ensures Live(w.approval, w.key, (w.mandate.nextDue - w.mandate.frequency, w.mandate.nextDue), now)
       <==> Approves(w, now, 0)
  {
  }

  /** A validation is requested for a due flat mandate at its plan's price, unless one is pending or approved. */
  lemma ValidationRequestedIff(w: World, env: S.Env, plan: Plan, seed: i64, ciphertexts: nat, requested: Offset)
    ensures var m := w.mandate;
            RequestValidation(w, env, plan, seed, ciphertexts, requested).Ok? <==>
              && env.self == w.key && plan.key == m.plan && plan.billingType == E.Flat && plan.active
              && plan.amount == m.amount && PullDue(m, env.now) && seed == m.nextDue && ciphertexts == 8
              && m.validationNonce < U64_MAX
              && requested == Offset(w.key, Slot(Validation, seed), m.validationNonce + 1)
              && PeriodFits(m) && !Approves(w, env.now, 0) && Free(w, requested.slot)
  {
    hide Period, Live, Approves, PeriodFits;
    PeriodIff(w.mandate);
    if PeriodFits(w.mandate) {
      PeriodInRange(w.mandate);
      LiveIff(w, env.now);
    }
  }

  lemma PeriodInRange(m: Mandate)
    requires PeriodFits(m)
    ensures -I64_MAX - 1 <= m.nextDue - m.frequency
  {
  }

  /** The answer, whatever it says, is accepted while the flat mandate is active and the request of its due date
      waits. */
  lemma ValidationAnsweredIff(w: World, now: i64, offset: Offset, result: bool)
    ensures ValidationCallback(w, now, offset, result).Ok? <==>
              && w.approval.Some? && Awaited(w, Slot(Validation, w.mandate.nextDue), offset)
              && w.mandate.status == E.Active && w.mandate.billingType == E.Flat
              && PeriodFits(w.mandate) && now + APPROVAL_TTL <= I64_MAX
  {
    hide Period, Bind, Awaited, PeriodFits;
    PeriodIff(w.mandate);
    BindIff(w, Slot(Validation, w.mandate.nextDue), offset);
  }

  // ---------------------------------------------------------------- reports and usage prices

  /** One to five tiers and a cap within the safe envelope. */
  predicate Priceable(plan: Plan) {
    && 0 < plan.tierCount <= 5 && plan.amount <= Pricing.MAX_SAFE_USAGE_CHARGE
    && Pricing.BoundedTiers(plan.tiers[..plan.tierCount])
  }

  lemma PriceableIff(plan: Plan)
    ensures PricingBounds(plan).Ok? <==> Priceable(plan)
  {
  }

  /** A report is accepted from the merchant, once for the start of the present period, when that is over. */
  lemma SubmittedIff(w: World, env: S.Env, plan: Plan, start: i64, end: i64, units: seq<Ciphertext>)
    requires Sane(w)
    ensures var m := w.mandate;
            SubmitUsageReport(w, env, plan, start, end, units).Ok? <==>
              && env.self == w.key && env.signer == m.merchant && m.billingType == E.Usage && m.status == E.Active
              && plan.key == m.plan && plan.billingType == E.Usage && plan.active && plan.merchant == m.merchant
              && Priceable(plan) && |units| == 1
              && PeriodFits(m) && start == m.nextDue - m.frequency && end == m.nextDue <= env.now
              && start !in w.reports
  {
    hide Period, PricingBounds, Priceable, Terms, TermsHash;
    PeriodIff(w.mandate);
    PriceableIff(plan);
  }

  /** A price is requested for the open report of the present period under the terms it was filed with, unless one is
      pending or approved. */
  lemma UsageRequestedIff(w: World, env: S.Env, plan: Plan, start: i64, requested: Offset)
    requires Sane(w)
    ensures var m := w.mandate;
            RequestUsageComputation(w, env, plan, start, requested).Ok? <==>
              && env.self == w.key && m.billingType == E.Usage && m.status == E.Active && env.now >= m.nextDue
              && plan.key == m.plan && plan.billingType == E.Usage && Priceable(plan)
              && PeriodFits(m) && Reported(w, Some(start)) && w.reports[start].termsHash == TermsHash(Terms(plan))
              && m.validationNonce < U64_MAX
              && requested == Offset(w.key, Slot(UsageComputation, start), m.validationNonce + 1)
              && !Approves(w, env.now, 0) && Free(w, requested.slot)
  {
    hide Period, PricingBounds, Priceable, Terms, TermsHash, Live, Approves;
    PeriodIff(w.mandate);
    PriceableIff(plan);
    if PeriodFits(w.mandate) {
      LiveIff(w, env.now);
    }
  }

  /** A price is accepted for the open report whose request waits, up to the mandate's amount. */
  lemma UsageAnsweredIff(w: World, now: i64, offset: Offset, start: i64, charge: u64)
    requires Sane(w)
    ensures UsageCallback(w, now, offset, start, charge).Ok? <==>
              && w.approval.Some? && w.mandate.status == E.Active && w.mandate.billingType == E.Usage
              && PeriodFits(w.mandate) && Reported(w, Some(start)) && Awaited(w, Slot(UsageComputation, start), offset)
              && charge <= w.mandate.amount && now + APPROVAL_TTL <= I64_MAX
  {
    hide Period, Bind, Awaited;
    PeriodIff(w.mandate);
    if start in w.reports {
      BindIff(w, Slot(UsageComputation, start), offset);
    }
  }

  // ---------------------------------------------------------------- billing records

  /** A record is requested for the last pull while it is unrecorded, with the flat plan as it then is. */
  lemma RecordRequestedIff(w: World, env: S.Env, plan: Plan, seed: u64, requested: Offset)
    ensures var m := w.mandate;
            RequestBillingRecord(w, env, plan, seed, requested).Ok? <==>
              && env.self == w.key && plan.key == m.plan && plan.billingType == E.Flat
              && 0 < m.pulls == seed && m.recorded < m.pulls
              && m.billingNonce < U64_MAX && requested == Offset(w.key, Slot(BillingRecord, seed), m.billingNonce + 1)
              && plan.frequency <= I64_MAX && m.nextDue - plan.frequency >= -I64_MAX - 1
              && (seed in w.events ==> w.events[seed].createdAt == 0) && Free(w, requested.slot)
  {
  }

  /** Its answer is accepted while the event of that pull is open. */
  lemma RecordAnsweredIff(w: World, now: i64, offset: Offset, plan: Plan, blob: int)
    ensures var m := w.mandate;
            BillingCallback(w, now, offset, plan, blob).Ok? <==>
              && plan.key == m.plan && plan.billingType == E.Flat
              && m.pulls in w.events && w.events[m.pulls].createdAt == 0
              && Awaited(w, Slot(BillingRecord, m.pulls), offset)
  {
    hide Bind, Awaited;
    BindIff(w, Slot(BillingRecord, w.mandate.pulls), offset);
  }

  // ---------------------------------------------------------------- plan changes

  /** Caller, plan and consent of a change: a dearer plan needs the subscriber. */
  predicate ChangeAllowed(w: World, env: S.Env, plan: Plan) {
    var m := w.mandate;
    && env.self == w.key && m.status == E.Active && plan.merchant == m.merchant && plan.active
    && (env.signer == m.subscriber || (env.signer == m.merchant && plan.amount <= m.amount))
  }

  /** An immediate change is accepted exactly when it is allowed, for the protocol and the token passed, and the
      prorated difference is approved and can be paid, or fits the credit; the present plan is accepted as it is. */
  lemma UpdateAcceptedIff(w: World, env: S.Env, plan: Plan, div: (nat, nat) -> nat)
    requires Sane(w) && Proration.Divides(div)
    ensures Proration.ComputeProration(w.mandate.amount, plan.amount, UsedUp(w.mandate, env.now), w.mandate.frequency,
                                       div).Ok?
    ensures var m := w.mandate;
            var delta := Proration.ComputeProration(m.amount, plan.amount, UsedUp(m, env.now), m.frequency, div).value;
            UpdateMandatePlan(w, env, plan, div).Ok? <==>
              && Running(env) && ChangeAllowed(w, env, plan) && TokenEnabled(env)
              && (plan.billingMint != DEFAULT_KEY ==> env.mint == plan.billingMint)
              && (plan.key != m.plan ==>
                    && PeriodFits(m) && -I64_MAX - 1 <= delta <= I64_MAX
                    && (delta > 0 ==> Approves(w, env.now, delta) && Payable(w, env, delta))
                    && (delta <= 0 ==> m.credit - delta <= U64_MAX))
  {
    hide ChangeGuards, ProratedDelta, CheckProrated, Move, Approves, Payable, PeriodFits, Running, ChangeAllowed,
         TokenEnabled, Proration.ComputeProration, Proration.Divides, UsedUp, Sane, Switch;
    ChangeGuardsIff(w, env, plan);
    DeltaIff(w, plan, env.now, div);
    if Running(env) && PeriodFits(w.mandate) && ProratedDelta(w.mandate, plan, env.now, div).Ok? {
      var delta := ProratedDelta(w.mandate, plan, env.now, div).value;
      if delta > 0 {
        ProratedIff(w, env, delta);
      }
    }
  }

  lemma ChangeGuardsIff(w: World, env: S.Env, plan: Plan)
    ensures ChangeGuards(w, env, plan).Ok? <==>
              && Running(env) && ChangeAllowed(w, env, plan) && TokenEnabled(env)
              && (plan.billingMint != DEFAULT_KEY ==> env.mint == plan.billingMint)
  {
  }

  lemma DeltaIff(w: World, plan: Plan, now: i64, div: (nat, nat) -> nat)
    requires Sane(w) && Proration.Divides(div)
    ensures var m := w.mandate;
            var r := Proration.ComputeProration(m.amount, plan.amount, UsedUp(m, now), m.frequency, div);
            && r.Ok?
            && (ProratedDelta(m, plan, now, div).Ok? ==> ProratedDelta(m, plan, now, div).value == r.value)
            && (ProratedDelta(m, plan, now, div).Ok? <==> PeriodFits(m) && -I64_MAX - 1 <= r.value <= I64_MAX)
  {
    hide Proration.ComputeProration, Proration.Divides;
    Proration.FailsOnlyOnGuards(w.mandate.amount, plan.amount, UsedUp(w.mandate, now), w.mandate.frequency, div);
    PeriodIff(w.mandate);
  }

  lemma ProratedIff(w: World, env: S.Env, delta: i64)
    requires delta > 0 && Running(env) && PeriodFits(w.mandate)
    ensures var r := CheckProrated(w, delta, env.now);
            && (r.Ok? <==> Approves(w, env.now, delta))
            && (r.Ok? ==> (Move(w, env, r.value, delta).Ok? <==> Payable(w, env, delta)))
  {
    hide Move, Payable, Running, CheckApproval, Period;
    PeriodIff(w.mandate);
    ApprovalIff(w, Period(w.mandate).value, env.now);
    if Approves(w, env.now, delta) {
      MoveIff(w, env, delta);
    }
  }

  /** A scheduling is accepted exactly when it is allowed and the protocol is not paused. */
  lemma ScheduleAcceptedIff(w: World, env: S.Env, plan: Plan)
    ensures SchedulePlanChange(w, env, plan).Ok? <==> !env.config.paused && ChangeAllowed(w, env, plan)
  {
  }

  /** Dropping it is either party's, and an ending the subscriber's or the admin's, of an active mandate. */
  lemma EndingsAcceptedIff(w: World, env: S.Env, admin: Key, plan: Plan)
    ensures var m := w.mandate;
            var here := env.self == w.key && m.status == E.Active;
            var ours := plan.key == m.plan && plan.merchant == m.merchant && plan.billingType == m.billingType;
            && (CancelPlanChange(w, env).Ok? <==>
                  here && m.pending.Some? && (env.signer == m.subscriber || env.signer == m.merchant))
            && (CancelMandate(w, env, plan).Ok? <==> here && ours && env.signer == m.subscriber)
            && (AdminCancel(w, env, admin, plan).Ok? <==> here && ours && env.signer == admin)
  {
  }

  // ---------------------------------------------------------------- subscription

  /** The seconds until the first due date: the trial of a flat plan, where it has one, or else one period. */
  function FirstPeriod(plan: Plan): u64 {
    if plan.billingType == E.Flat && plan.trial > 0 then plan.trial else plan.frequency
  }

  /** A trial is followed by a period for each pull, which end the mandate; anything else runs on. */
  function Lifetime(plan: Plan): int {
    if plan.billingType == E.Flat && plan.trial > 0 then plan.trial + plan.frequency * plan.flatMaxPulls else 0
  }

  /** A subscription is accepted exactly to an active plan in its token on the hook's rail, whose dates fit; the mandate
      takes the plan's conditions and is first due when the trial or the first period ends. */
  lemma SubscribedIff(plan: Plan, subscriber: Key, mint: Key, token: TokenConfig, now: i64)
    ensures var r := Subscribe(plan, subscriber, mint, token, now);
            && (r.Ok? <==>
                  && plan.active && (plan.billingMint != DEFAULT_KEY ==> mint == plan.billingMint)
                  && token == TokenConfig(mint, true, TransferHook)
                  && Lifetime(plan) <= I64_MAX && now + Lifetime(plan) <= I64_MAX
                  && FirstPeriod(plan) <= I64_MAX && now + FirstPeriod(plan) <= I64_MAX)
            && (r.Ok? ==>
                  var m := r.value;
                  && m.subscriber == subscriber && m.merchant == plan.merchant && m.plan == plan.key
                  && m.billingType == plan.billingType && m.amount == plan.amount && m.frequency == plan.frequency
                  && m.maxPulls == (if plan.billingType == E.Flat then plan.flatMaxPulls else U64_MAX)
                  && m.nextDue == now + FirstPeriod(plan)
                  && m.expiry == (if Lifetime(plan) > 0 then now + Lifetime(plan) else 0))
  {
    hide Expiry, FirstDue, Lifetime, FirstPeriod;
    DatesIff(plan, now);
  }

  lemma DatesIff(plan: Plan, start: i64)
    ensures Expiry(plan, start).Ok? <==> Lifetime(plan) <= I64_MAX && start + Lifetime(plan) <= I64_MAX
    ensures Expiry(plan, start).Ok? ==>
              Expiry(plan, start).value == if Lifetime(plan) > 0 then start + Lifetime(plan) else 0
    ensures FirstDue(plan, start).Ok? <==> FirstPeriod(plan) <= I64_MAX && start + FirstPeriod(plan) <= I64_MAX
    ensures FirstDue(plan, start).Ok? ==> FirstDue(plan, start).value == start + FirstPeriod(plan)
  {
    hide Expiry, Lifetime;
    ExpiryIff(plan, start);
  }

  lemma ExpiryIff(plan: Plan, start: i64)
    ensures Expiry(plan, start).Ok? <==> Lifetime(plan) <= I64_MAX && start + Lifetime(plan) <= I64_MAX
    ensures Expiry(plan, start).Ok? ==>
              Expiry(plan, start).value == if Lifetime(plan) > 0 then start + Lifetime(plan) else 0
  {
    var product := plan.frequency * plan.flatMaxPulls;
    NotNegative(plan.frequency, plan.flatMaxPulls);
    if product <= U64_MAX {
      assert plan.billingType == E.Flat && plan.trial > 0 ==> Lifetime(plan) == plan.trial + product;
    }
  }

  lemma NotNegative(x: nat, y: nat)
    ensures x * y >= 0
  {
  }
}
