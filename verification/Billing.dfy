/** Pull billing: what each instruction and each network callback does to the accounts of one mandate. */
module Billing {
  import opened Base
  import opened Hook
  import S = Streaming
  import E = Encoding
  import Pricing
  import Proration

  const APPROVAL_TTL: i64 := 3600
  const NO_APPROVAL := Approval(DEFAULT_KEY, 0, 0, 0, false, 0, 0)

  type BillingType = E.BillingType
  type MandateStatus = E.MandateStatus

  // ---------------------------------------------------------------- accounts

  datatype PlanData = PlanData(
    key: Key, merchant: Key, planId: u64, billingType: BillingType,
    amount: u64,              // price of a flat plan, cap per period of a usage plan
    frequency: u64, trial: u64, flatMaxPulls: u64, active: bool, billingMint: Key,
    tiers: seq<Pricing.Tier>, tierCount: u8)

  /** A stored plan; the plan instructions never store a zero frequency. */
  type Plan = p: PlanData | p.frequency > 0 && |p.tiers| == 5
    witness PlanData(1, 1, 0, E.Flat, 1, 3600, 0, 1, true, 0, [Pricing.NO_TIER, Pricing.NO_TIER, Pricing.NO_TIER,
                                                              Pricing.NO_TIER, Pricing.NO_TIER], 0)

  function MaxPulls(p: Plan): u64 {
    if p.billingType == E.Flat then p.flatMaxPulls else U64_MAX
  }

  function AddressBytes(k: Key): E.Address { E.ToBytes(k, 32) }

  /** The pricing terms a usage report commits to. */
  function Terms(p: Plan): E.PlanTerms {
    E.PlanTerms(AddressBytes(p.key), AddressBytes(p.merchant), p.planId, p.tiers, p.tierCount, p.amount, p.frequency)
  }

  /** The commitment: the hash is taken to be injective, so the hashed bytes stand for it. */
  function TermsHash(t: E.PlanTerms): seq<u8> { E.TermsBytes(E.TERMS_TAG, t) }

  datatype Pending = Pending(plan: Key, effectiveAt: i64)

  datatype Mandate = Mandate(
    subscriber: Key, merchant: Key, plan: Key, billingType: BillingType,
    amount: u64, frequency: u64, expiry: i64, maxPulls: u64,
    pulls: u64, nextDue: i64, lastPullAt: i64, recorded: u64,
    validationNonce: u64, billingNonce: u64, status: MandateStatus,
    credit: u64, pending: Option<Pending>)

  datatype Flow = Validation | UsageComputation | BillingRecord

  /** Where a request is stored: one account for each flow and subject of the mandate. */
  datatype Slot = Slot(flow: Flow, subject: int)

  /** A computation offset. The derivation is a truncated hash, taken to be injective. */
  datatype Offset = Offset(mandate: Key, slot: Slot, nonce: u64)

  datatype Request = Request(
    mandate: Key, slot: Slot, offset: Offset, nonce: u64, pending: bool, createdAt: i64, completedAt: i64)

  /** Encrypted usage units; only the network can open them. */
  type Ciphertext = int

  /** What the network has been asked to compute. */
  datatype Job =
    | ValidateJob
    | PriceJob(units: Ciphertext, terms: E.PlanTerms)
    | RecordJob(amount: u64, pulledAt: i64, pull: u64, start: i64, end: i64)

  datatype Report = Report(
    mandate: Key, merchant: Key, start: i64, end: i64, units: Ciphertext, termsHash: seq<u8>, settled: bool,
    createdAt: i64)

  datatype Event = Event(mandate: Key, merchant: Key, subscriber: Key, planId: u64, blob: int, createdAt: i64)

  const NO_EVENT := Event(DEFAULT_KEY, DEFAULT_KEY, DEFAULT_KEY, 0, 0, 0)

  /** The mandate, the accounts addressed by it, and the computations queued for it. */
  datatype World = World(
    key: Key,
    mandate: Mandate,
    approval: Option<Approval>,
    requests: map<Slot, Request>,
    reports: map<i64, Report>,       // by the start of the period
    events: map<u64, Event>,         // by the number of the pull
    queued: map<Offset, Job>)

  /** What an instruction that succeeds has done. */
  datatype Entry =
    | Requested(offset: Offset, job: Job)
    | Accepted(offset: Offset, approval: Approval)
    | Submitted(report: Report, terms: E.PlanTerms)
    | Pulled(at: i64, end: i64, approval: Approval, billingType: BillingType, step: u64, planChanged: bool,
             amount: u64, base: u64, used: u64, moved: u64)
    | Recorded(offset: Offset, pull: u64, event: Event)
    | Changed(at: i64, delta: int, consumed: Option<Approval>)
    | Scheduled(plan: Key)
    | Unscheduled
    | Ended
    | Unchanged
    | Refused

  // ---------------------------------------------------------------- shared pieces

  /** The account passed is the one whose address the stored mandate derives. */
  function Load(w: World, env: S.Env): Result<()> {
    Need(env.self == w.key, InvalidAccountData)
  }

  function Period(m: Mandate): Result<(i64, i64)> {
    BillingPeriod(m.frequency, m.nextDue)
  }

  predicate Expired(m: Mandate, now: i64) {
    m.expiry > 0 && now >= m.expiry
  }

  function Start(requests: map<Slot, Request>, offset: Offset, now: i64): Result<map<Slot, Request>> {
    var slot := offset.slot;
    var _ :- Need(!(slot in requests && requests[slot].createdAt != 0 && requests[slot].pending),
                  ArciumRequestAlreadyPending);
    Ok(requests[slot := Request(offset.mandate, slot, offset, offset.nonce, true, now, 0)])
  }

  /** The offset a pending request of this mandate and slot waits for. */
  function PendingOffset(requests: map<Slot, Request>, key: Key, slot: Slot): Result<Offset> {
    var _ :- Need(slot in requests, AccountNotInitialized);
    var _ :- Need(requests[slot].mandate == key, InvalidArciumRequestState);
    var _ :- Need(requests[slot].slot == slot && requests[slot].pending, InvalidArciumRequestState);
    Ok(requests[slot].offset)
  }

  /** A callback is bound to the pending request and carries an output of the network for it. */
  function Bind(w: World, slot: Slot, offset: Offset): (r: Result<()>)
    ensures r.Ok? ==> slot in w.requests && w.requests[slot].pending && w.requests[slot].offset == offset
  {
    var bound :- PendingOffset(w.requests, w.key, slot);
    var _ :- Need(offset == bound, InvalidCallbackBinding);
    Need(offset in w.queued, AbortedComputation)
  }

  function Complete(requests: map<Slot, Request>, slot: Slot, now: i64): map<Slot, Request>
    requires slot in requests
  {
    requests[slot := requests[slot].(pending := false, completedAt := now)]
  }

  /** An approval that may still be spent on the period. */
  predicate Live(approval: Option<Approval>, key: Key, period: (i64, i64), now: i64) {
    approval.Some? && approval.value.approved && approval.value.mandate == key
    && approval.value.periodStart == period.0 && approval.value.periodEnd == period.1
    && now <= approval.value.validUntil
  }

  function NextOffset(w: World, slot: Slot, requested: Offset): Result<Offset> {
    var nonce :- ToU64(w.mandate.validationNonce + 1, Overflow);
    var _ :- Need(requested == Offset(w.key, slot, nonce), InvalidComputationOffset);
    Ok(requested)
  }

  /** Start a request for an approval: the stored approval is blanked while the computation runs. */
  function QueueApproval(w: World, offset: Offset, job: Job, period: (i64, i64), now: i64): Result<(World, Entry)> {
    var _ :- Need(!Live(w.approval, w.key, period, now), ApprovalAlreadyExists);
    var requests :- Start(w.requests, offset, now);
    Ok((w.(requests := requests, approval := Some(NO_APPROVAL), queued := w.queued[offset := job],
           mandate := w.mandate.(validationNonce := offset.nonce)),
        Requested(offset, job)))
  }

  /** A callback grants its result for the present period, for the approval lifetime. */
  function Grant(w: World, slot: Slot, offset: Offset, approved: bool, amount: u64, now: i64): Result<(World, Entry)>
    requires slot in w.requests
  {
    var (start, end) :- Period(w.mandate);
    var validUntil :- ToI64(now + APPROVAL_TTL, Overflow);
    var approval := Approval(w.key, start, end, validUntil, approved, amount, now);
    Ok((w.(approval := Some(approval), requests := Complete(w.requests, slot, now)), Accepted(offset, approval)))
  }

  /** The approval a charge relies on. */
  function CheckApproval(approval: Option<Approval>, key: Key, period: (i64, i64), now: i64): Result<Approval> {
    var _ :- Need(approval.Some?, ApprovalNotGranted);
    var a := approval.value;
    var _ :- Need(a.approved, ApprovalNotGranted);
    var _ :- Need(a.mandate == key, ApprovalNotGranted);
    var _ :- Need(a.periodStart == period.0 && a.periodEnd == period.1, PeriodMismatch);
    var _ :- Need(now <= a.validUntil, ApprovalExpired);
    Ok(a)
  }

  function BillingCall(w: World, env: S.Env, approval: Approval, amount: u64): Transfer {
    Transfer(env.hookProgram, env.config, env.token, env.mint, env.source, env.destination,
             w.key, MandateOwner(w.mandate.frequency, w.mandate.nextDue), env.vault, w.key, Present(approval),
             amount, env.now)
  }

  /** A transfer signed by the mandate, as it is still stored, with the hook's consent. */
  function Move(w: World, env: S.Env, approval: Approval, amount: u64): Result<()> {
    var _ :- S.TokenAccounts(env, w.key, w.mandate.merchant, amount);
    HandleTransfer(BillingCall(w, env, approval, amount))
  }

  function MoveIfPositive(w: World, env: S.Env, approval: Approval, amount: u64): Result<()> {
    if amount == 0 then Ok(()) else Move(w, env, approval, amount)
  }

  function PricingBounds(p: Plan): Result<()> {
    var _ :- Need(0 < p.tierCount <= 5, InvalidTierCount);
    Pricing.BoundsError(p.tiers[..p.tierCount], p.amount)
  }

  // ---------------------------------------------------------------- validation

  function ValidationGuards(w: World, env: S.Env, plan: Plan, seed: i64, ciphertexts: nat): Result<()> {
    var m := w.mandate;
    var _ :- Load(w, env);
    var _ :- Need(plan.key == m.plan, PlanNotActive);
    var _ :- Need(plan.billingType == E.Flat, BillingTypeMismatch);
    var _ :- Need(m.status == E.Active, MandateNotActive);
    var _ :- Need(m.amount == plan.amount, PlanNotActive);
    var _ :- Need(m.pulls < m.maxPulls, MaxPullsExceeded);
    var _ :- Need(!Expired(m, env.now), MandateExpired);
    var _ :- Need(env.now >= m.nextDue, PullTooEarly);
    var _ :- Need(seed == m.nextDue, InvalidArciumRequestState);
    var _ :- Need(plan.active, PlanNotActive);
    Need(ciphertexts == 8, InvalidCiphertextInput)
  }

  function RequestValidation(w: World, env: S.Env, plan: Plan, seed: i64, ciphertexts: nat, requested: Offset)
    : Result<(World, Entry)>
  {
    var _ :- ValidationGuards(w, env, plan, seed, ciphertexts);
    var offset :- NextOffset(w, Slot(Validation, seed), requested);
    var period :- Period(w.mandate);
    QueueApproval(w, offset, ValidateJob, period, env.now)
  }

  function ValidationCallback(w: World, now: i64, offset: Offset, result: bool): Result<(World, Entry)> {
    var slot := Slot(Validation, w.mandate.nextDue);
    var _ :- Need(w.approval.Some?, AccountNotInitialized);
    var _ :- Bind(w, slot, offset);
    var _ :- Need(w.mandate.status == E.Active, MandateNotActive);
    var _ :- Need(w.mandate.billingType == E.Flat, BillingTypeMismatch);
    Grant(w, slot, offset, result, w.mandate.amount, now)
  }

  // ---------------------------------------------------------------- usage

  function SubmitUsageReport(w: World, env: S.Env, plan: Plan, start: i64, end: i64, units: seq<Ciphertext>)
    : Result<(World, Entry)>
  {
    var m := w.mandate;
    var _ :- Need(start !in w.reports, AccountAlreadyInUse);
    var _ :- Load(w, env);
    var _ :- Need(env.signer == m.merchant, UnauthorizedKeeper);
    var _ :- Need(m.billingType == E.Usage, BillingTypeMismatch);
    var _ :- Need(m.status == E.Active, MandateNotActive);
    var _ :- Need(plan.key == m.plan, PlanNotActive);
    var _ :- Need(plan.billingType == E.Usage, BillingTypeMismatch);
    var _ :- Need(plan.active, PlanNotActive);
    var _ :- Need(plan.merchant == m.merchant, BillingTypeMismatch);
    var _ :- PricingBounds(plan);
    var _ :- Need(|units| == 1, InvalidCiphertextInput);
    var period :- Period(m);
    var _ :- Need(start < end, InvalidPeriod);
    var _ :- Need((start, end) == period, PeriodMismatch);
    var _ :- Need(env.now >= end, PullTooEarly);
    var report := Report(w.key, m.merchant, start, end, units[0], TermsHash(Terms(plan)), false, env.now);
    Ok((w.(reports := w.reports[start := report]), Submitted(report, Terms(plan))))
  }

  function RequestUsageComputation(w: World, env: S.Env, plan: Plan, start: i64, requested: Offset)
    : Result<(World, Entry)>
  {
    var m := w.mandate;
    var _ :- Need(plan.billingType == E.Usage, WrongAccountType);
    var _ :- Need(start in w.reports, AccountNotInitialized);
    var report := w.reports[start];
    var _ :- Load(w, env);
    var _ :- Need(m.billingType == E.Usage, BillingTypeMismatch);
    var _ :- Need(plan.key == m.plan, PlanNotActive);
    var _ :- Need(m.status == E.Active, MandateNotActive);
    var _ :- Need(!report.settled, UsageReportAlreadySettled);
    var _ :- Need(report.mandate == w.key && report.merchant == m.merchant, BillingTypeMismatch);
    var period :- Period(m);
    var _ :- Need((report.start, report.end) == period, PeriodMismatch);
    var _ :- Need(env.now >= period.1, PullTooEarly);
    var offset :- NextOffset(w, Slot(UsageComputation, report.start), requested);
    var _ :- PricingBounds(plan);
    var _ :- Need(report.termsHash == TermsHash(Terms(plan)), InvalidCiphertextInput);
    QueueApproval(w, offset, PriceJob(report.units, Terms(plan)), period, env.now)
  }

  function UsageCallback(w: World, now: i64, offset: Offset, start: i64, charge: u64): Result<(World, Entry)> {
    var m := w.mandate;
    var _ :- Need(start in w.reports && w.approval.Some?, AccountNotInitialized);
    var report := w.reports[start];
    var slot := Slot(UsageComputation, report.start);
    var _ :- Bind(w, slot, offset);
    var _ :- Need(report.mandate == w.key && report.merchant == m.merchant, BillingTypeMismatch);
    var _ :- Need(m.status == E.Active, MandateNotActive);
    var _ :- Need(m.billingType == E.Usage, BillingTypeMismatch);
    var _ :- Need(!report.settled, UsageReportAlreadySettled);
    var period :- Period(m);
    var _ :- Need((report.start, report.end) == period, PeriodMismatch);
    var _ :- Need(charge <= m.amount, AmountExceedsPlanAmount);
    Grant(w, slot, offset, true, charge, now)
  }

  // ---------------------------------------------------------------- pulls

  /** The guards of a pull up to the billing period, which is the one stored before any plan change. */
  function PullGuards(w: World, env: S.Env, plan: Plan): Result<(i64, i64)> {
    var m := w.mandate;
    var _ :- S.Gate(env);
    var _ :- Load(w, env);
    var _ :- Need(env.signer == env.keeper || env.signer == m.subscriber, UnauthorizedKeeper);
    var _ :- Need(plan.billingType == m.billingType, BillingTypeMismatch);
    var _ :- Need(plan.active, PlanNotActive);
    var _ :- if plan.billingMint != DEFAULT_KEY then Need(env.mint == plan.billingMint, TokenChangeNotSupported)
             else Need(env.mint == env.config.wrappedMint, UsdcMintMismatch);
    var _ :- TokenAccepted(env);
    var _ :- Need(m.status == E.Active, MandateNotActive);
    var _ :- Need(plan.key == m.plan && plan.merchant == m.merchant, KeyMismatch);
    var _ :- Need(m.recorded == m.pulls, PendingBillingRecord);
    var _ :- Need(!Expired(m, env.now), MandateExpired);
    var _ :- Need(m.pulls < m.maxPulls, MaxPullsExceeded);
    var _ :- Need(env.now >= m.nextDue, PullTooEarly);
    Period(m)
  }

  function TokenAccepted(env: S.Env): Result<()> {
    var _ :- Need(env.token.Some?, AccountNotInitialized);
    var _ :- Need(env.token.value.enabled, TokenDisabled);
    Need(env.token.value.mint == env.mint, TokenNotRegistered)
  }

  predicate ChangeDue(m: Mandate, now: i64) {
    m.pending.Some? && now >= m.pending.value.effectiveAt
  }

  /** Take over the terms of a plan. */
  function Switch(m: Mandate, plan: Plan): Mandate {
    m.(plan := plan.key, amount := plan.amount, frequency := plan.frequency, maxPulls := MaxPulls(plan),
       billingType := plan.billingType, pending := None)
  }

  /** A scheduled change that has come due is applied inside the pull; the kind of billing may not change. */
  function ApplyPending(m: Mandate, plan: Plan, pendingPlan: Option<Plan>, now: i64): Result<(Mandate, Plan)> {
    if !ChangeDue(m, now) then Ok((m, plan))
    else
      var _ :- Need(pendingPlan.Some? && pendingPlan.value.key == m.pending.value.plan, PendingPlanAccountMissing);
      var next := pendingPlan.value;
      var _ :- Need(next.merchant == m.merchant, UnauthorizedUpgrade);
      var _ :- Need(next.active, PlanNotActive);
      var _ :- Need(next.billingType == m.billingType, BillingTypeMismatch);
      var _ :- Need(plan.billingMint != DEFAULT_KEY && next.billingMint != DEFAULT_KEY ==>
                      next.billingMint == plan.billingMint,
                    TokenChangeNotSupported);
      Ok((Switch(m, next), next))
  }

  /** The report a usage pull settles: the account passed must be the one of the period, and open. */
  function CheckReport(w: World, report: i64, period: (i64, i64)): Result<()> {
    var _ :- Need(report in w.reports, BillingTypeMismatch);
    var _ :- Need(report == period.0, PeriodMismatch);
    var r := w.reports[report];
    var _ :- Need(r.mandate == w.key && r.merchant == w.mandate.merchant, BillingTypeMismatch);
    var _ :- Need((r.start, r.end) == period, PeriodMismatch);
    Need(!r.settled, UsageReportAlreadySettled)
  }

  datatype Charge = Charge(mandate: Mandate, approval: Approval, end: i64, base: u64, used: u64, moved: u64)

  /** What a pull charges, before any money moves: the base amount, and the part of it credit covers. */
  function PullCharge(w: World, env: S.Env, plan: Plan, pendingPlan: Option<Plan>, report: Option<i64>)
    : Result<Charge>
  {
    var period :- PullGuards(w, env, plan);
    var _ :- Need(w.mandate.billingType == E.Usage ==> report.Some?, PeriodMismatch);
    var (m, active) :- ApplyPending(w.mandate, plan, pendingPlan, env.now);
    var approval :- CheckApproval(w.approval, w.key, period, env.now);
    var _ :- if w.mandate.billingType == E.Usage then CheckReport(w, report.value, period) else Ok(());
    var base :- BaseCharge(m, active, approval);
    var used := Min(base, m.credit);
    Ok(Charge(m, approval, period.1, base, used, SaturatingSub(base, used)))
  }

  function SaturatingSub(x: u64, y: u64): u64 {
    Max(x - y, 0)
  }

  function BaseCharge(m: Mandate, active: Plan, approval: Approval): Result<u64> {
    if active.billingType == E.Flat then
      var _ :- Need(m.amount <= approval.amount, AmountExceedsPlanAmount);
      Ok(m.amount)
    else
      var _ :- Need(approval.amount <= m.amount, AmountExceedsPlanAmount);
      Ok(approval.amount)
  }

  /** The mandate after a pull. */
  function CommitPull(c: Charge, now: i64): Result<Mandate> {
    var m := c.mandate;
    var frequency :- ToI64(m.frequency, Overflow);
    var pulls :- ToU64(m.pulls + 1, Overflow);
    var nextDue :- ToI64(m.nextDue + frequency, Overflow);
    Ok(m.(credit := SaturatingSub(m.credit, c.used), pulls := pulls, nextDue := nextDue, lastPullAt := now,
          recorded := if m.billingType == E.Usage then pulls else m.recorded,
          status := if pulls >= m.maxPulls then E.Expired else m.status))
  }

  function ExecutePull(w: World, env: S.Env, plan: Plan, pendingPlan: Option<Plan>, report: Option<i64>)
    : Result<(World, Entry)>
  {
    var c :- PullCharge(w, env, plan, pendingPlan, report);
    var _ :- MoveIfPositive(w, env, c.approval, c.moved);
    var m :- CommitPull(c, env.now);
    var reports := if w.mandate.billingType == E.Usage then Settle(w.reports, c.approval.periodStart) else w.reports;
    Ok((w.(mandate := m, reports := reports, approval := None),
        Pulled(env.now, c.end, c.approval, m.billingType, m.frequency, ChangeDue(w.mandate, env.now), m.amount,
               c.base, c.used, c.moved)))
  }

  function Settle(reports: map<i64, Report>, start: i64): map<i64, Report> {
    if start in reports then reports[start := reports[start].(settled := true)] else reports
  }

  // ---------------------------------------------------------------- billing records

  /** The pull number comes from the mandate, the period from the due date as it stands now. */
  function RequestBillingRecord(w: World, env: S.Env, plan: Plan, seed: u64, requested: Offset)
    : Result<(World, Entry)>
  {
    var m := w.mandate;
    var _ :- Need(plan.billingType == E.Flat, WrongAccountType);
    var _ :- Load(w, env);
    var _ :- Need(m.pulls > 0, ApprovalNotGranted);
    var _ :- Need(seed == m.pulls, InvalidComputationOffset);
    var _ :- Need(plan.key == m.plan, PlanNotActive);
    var _ :- Need(m.recorded < m.pulls, BillingEventAlreadyExists);
    var nonce :- ToU64(m.billingNonce + 1, Overflow);
    var offset := Offset(w.key, Slot(BillingRecord, m.pulls), nonce);
    var _ :- Need(requested == offset, InvalidComputationOffset);
    var (start, end) :- BillingPeriod(plan.frequency, m.nextDue);
    var _ :- Need(seed in w.events ==> w.events[seed].createdAt == 0, BillingEventAlreadyExists);
    var requests :- Start(w.requests, offset, env.now);
    var job := RecordJob(plan.amount, m.lastPullAt, m.pulls, start, end);
    Ok((w.(requests := requests, events := w.events[seed := NO_EVENT], queued := w.queued[offset := job],
           mandate := m.(billingNonce := nonce)),
        Requested(offset, job)))
  }

  function BillingCallback(w: World, now: i64, offset: Offset, plan: Plan, blob: int): Result<(World, Entry)> {
    var m := w.mandate;
    var slot := Slot(BillingRecord, m.pulls);
    var _ :- Need(plan.billingType == E.Flat, WrongAccountType);
    var _ :- Need(m.pulls in w.events, AccountNotInitialized);
    var _ :- Bind(w, slot, offset);
    var _ :- Need(plan.key == m.plan, PlanNotActive);
    var _ :- Need(w.events[m.pulls].createdAt == 0, BillingEventAlreadyExists);
    var event := Event(w.key, m.merchant, m.subscriber, plan.planId, blob, now);
    Ok((w.(events := w.events[m.pulls := event], requests := Complete(w.requests, slot, now),
           mandate := m.(recorded := m.pulls)),
        Recorded(offset, m.pulls, event)))
  }

  // ---------------------------------------------------------------- plan changes

  /** Seconds of the present period that are used up. */
  function ElapsedInPeriod(m: Mandate, now: i64): Result<u64> {
    var (start, end) :- Period(m);
    if now <= start then Ok(0)
    else if now >= end then Ok(m.frequency)
    else ToU64(now - start, Overflow)
  }

  function MayChange(m: Mandate, signer: Key, plan: Plan): Result<()> {
    var _ :- Need(signer == m.subscriber || signer == m.merchant, UnauthorizedUpgrade);
    Need(plan.amount > m.amount ==> signer == m.subscriber, UnauthorizedUpgrade)
  }

  function ChangeGuards(w: World, env: S.Env, plan: Plan): Result<()> {
    var m := w.mandate;
    var _ :- S.Gate(env);
    var _ :- Load(w, env);
    var _ :- Need(m.status == E.Active, MandateNotActive);
    var _ :- Need(plan.merchant == m.merchant, UnauthorizedUpgrade);
    var _ :- Need(plan.active, PlanNotActive);
    var _ :- Need(plan.billingMint != DEFAULT_KEY ==> env.mint == plan.billingMint, TokenChangeNotSupported);
    var _ :- TokenAccepted(env);
    MayChange(m, env.signer, plan)
  }

  /** The prorated difference between the plans, for what is left of the period. */
  function ProratedDelta(m: Mandate, plan: Plan, now: i64, div: (nat, nat) -> nat): Result<i64> {
    var elapsed :- ElapsedInPeriod(m, now);
    var delta :- Proration.ComputeProration(m.amount, plan.amount, elapsed, m.frequency, div);
    ToI64(delta, MathOverflow)
  }

  /** A positive difference is charged against a live approval. */
  function CheckProrated(w: World, delta: i64, now: i64): Result<Approval>
    requires delta > 0
  {
    var period :- Period(w.mandate);
    var approval :- CheckApproval(w.approval, w.key, period, now);
    var _ :- Need(delta <= approval.amount, AmountExceedsPlanAmount);
    Ok(approval)
  }

  function UpdateMandatePlan(w: World, env: S.Env, plan: Plan, div: (nat, nat) -> nat): Result<(World, Entry)> {
    var m := w.mandate;
    var _ :- ChangeGuards(w, env, plan);
    if m.plan == plan.key then Ok((w, Unchanged))
    else
      var delta :- ProratedDelta(m, plan, env.now, div);
      if delta > 0 then
        var approval :- CheckProrated(w, delta, env.now);
        var _ :- Move(w, env, approval, delta);
        Ok((w.(mandate := Switch(m, plan), approval := None), Changed(env.now, delta, Some(approval))))
      else
        var credit :- ToU64(m.credit - delta, Overflow);
        Ok((w.(mandate := Switch(m.(credit := credit), plan)), Changed(env.now, delta, None)))
  }

  function SchedulePlanChange(w: World, env: S.Env, plan: Plan): Result<(World, Entry)> {
    var m := w.mandate;
    var _ :- Need(!env.config.paused, ProtocolPaused);
    var _ :- Load(w, env);
    var _ :- Need(m.status == E.Active, MandateNotActive);
    var _ :- Need(plan.merchant == m.merchant, UnauthorizedUpgrade);
    var _ :- Need(plan.active, PlanNotActive);
    var _ :- MayChange(m, env.signer, plan);
    if m.plan == plan.key then Ok((w, Unchanged))
    else Ok((w.(mandate := m.(pending := Some(Pending(plan.key, m.nextDue)))), Scheduled(plan.key)))
  }

  function CancelPlanChange(w: World, env: S.Env): Result<(World, Entry)> {
    var m := w.mandate;
    var _ :- Load(w, env);
    var _ :- Need(m.status == E.Active, MandateNotActive);
    var _ :- Need(m.pending.Some?, NoPendingChange);
    var _ :- Need(env.signer == m.subscriber || env.signer == m.merchant, UnauthorizedUpgrade);
    Ok((w.(mandate := m.(pending := None)), Unscheduled))
  }

  function CancelMandate(w: World, env: S.Env, plan: Plan): Result<(World, Entry)> {
    var m := w.mandate;
    var _ :- Load(w, env);
    var _ :- Need(plan.billingType == m.billingType, BillingTypeMismatch);
    var _ :- Need(plan.key == m.plan && plan.merchant == m.merchant, KeyMismatch);
    var _ :- Need(env.signer == m.subscriber, UnauthorizedCancel);
    var _ :- Need(m.status == E.Active, MandateNotActive);
    Ok((w.(mandate := m.(status := E.MandateStatus.Cancelled)), Ended))
  }

  function AdminCancel(w: World, env: S.Env, admin: Key, plan: Plan): Result<(World, Entry)> {
    var m := w.mandate;
    var _ :- Need(env.signer == admin, UnauthorizedAdmin);
    var _ :- Load(w, env);
    var _ :- Need(plan.billingType == m.billingType, BillingTypeMismatch);
    var _ :- Need(plan.key == m.plan && plan.merchant == m.merchant, KeyMismatch);
    var _ :- Need(m.status == E.Active, MandateNotActive);
    Ok((w.(mandate := m.(status := E.MandateStatus.Cancelled)), Ended))
  }

  // ---------------------------------------------------------------- subscription

  function Expiry(p: Plan, start: i64): Result<i64> {
    if p.billingType == E.Usage || p.trial == 0 then Ok(0)
    else
      var _ :- Need(p.frequency * p.flatMaxPulls <= U64_MAX, Overflow);
      var _ :- Need(p.trial + p.frequency * p.flatMaxPulls <= U64_MAX, Overflow);
      var duration :- ToI64(p.trial + p.frequency * p.flatMaxPulls, Overflow);
      ToI64(start + duration, Overflow)
  }

  function FirstDue(p: Plan, start: i64): Result<i64> {
    var delay :- ToI64(if p.billingType == E.Flat && p.trial > 0 then p.trial else p.frequency, Overflow);
    ToI64(start + delay, Overflow)
  }

  function Subscribe(p: Plan, subscriber: Key, mint: Key, token: TokenConfig, now: i64): Result<Mandate> {
    var _ :- Need(p.active, PlanNotActive);
    var _ :- Need(p.billingMint != DEFAULT_KEY ==> mint == p.billingMint, TokenChangeNotSupported);
    var _ :- Need(token.enabled, TokenDisabled);
    var _ :- Need(token.rail == TransferHook, InvalidBillingRail);
    var _ :- Need(token.mint == mint, TokenNotRegistered);
    var expiry :- Expiry(p, now);
    var due :- FirstDue(p, now);
    Ok(Mandate(subscriber, p.merchant, p.key, p.billingType, p.amount, p.frequency, expiry, MaxPulls(p),
               0, due, 0, 0, 0, 0, E.Active, 0, None))
  }
}
