/** Progress of pull billing: the protocol does not only refuse. */
module BillingProgress {
  import opened Base
  import opened Hook
  import S = Streaming
  import E = Encoding
  import opened Billing
  import opened BillingRuns
  import opened BillingMoney
  import opened BillingAccepts

  // ---------------------------------------------------------------- what billing needs

  /** A mandate that is due under the plan, for the configured protocol and token. */
  predicate Due(w: World, env: S.Env, p: Plan) {
    var m := w.mandate;
    && Sane(w) && S.Gate(env).Ok? && env.self == w.key && env.signer == env.keeper && TokenAccepted(env).Ok?
    && env.mint == (if p.billingMint != DEFAULT_KEY then p.billingMint else env.config.wrappedMint)
    && m.billingType == p.billingType && p.active && p.key == m.plan && p.merchant == m.merchant
    && m.status == E.Active && m.pulls < m.maxPulls
    && !Billing.Expired(m, env.now) && m.nextDue <= env.now <= I64_MAX - APPROVAL_TTL && Period(m).Ok?
  }

  /** What a charge moves: what the credit does not cover. */
  function Net(m: Mandate, charge: u64): u64 {
    charge - Min(charge, m.credit)
  }

  /** The pull can apply the scheduled change, if one is due, and move the due date on. */
  predicate Applies(m: Mandate, p: Plan, pendingPlan: Option<Plan>, now: i64) {
    && ApplyPending(m, p, pendingPlan, now).Ok?
    && var n := ApplyPending(m, p, pendingPlan, now).value.0;
       n.frequency <= I64_MAX && n.nextDue + n.frequency <= I64_MAX
  }

  /** The mandate with the conditions under which a pull charges it. */
  function Applied(m: Mandate, p: Plan, pendingPlan: Option<Plan>, now: i64): Mandate
    requires Applies(m, p, pendingPlan, now)
  {
    ApplyPending(m, p, pendingPlan, now).value.0
  }

  lemma AppliedKeeps(m: Mandate, p: Plan, pendingPlan: Option<Plan>, now: i64)
    requires Applies(m, p, pendingPlan, now)
    ensures var n := Applied(m, p, pendingPlan, now);
            && n.credit == m.credit && n.pulls == m.pulls && n.nextDue == m.nextDue && n.recorded == m.recorded
            && n.billingType == m.billingType && n.frequency <= I64_MAX && n.nextDue + n.frequency <= I64_MAX
    ensures m.billingType == p.billingType ==> ApplyPending(m, p, pendingPlan, now).value.1.billingType == m.billingType
  {
  }

  /** The scheduled change that a pull would apply does not depend on the request nonce. */
  lemma PendingIgnoresNonce(m: Mandate, nonce: u64, p: Plan, pendingPlan: Option<Plan>, now: i64)
    requires Applies(m, p, pendingPlan, now)
    ensures var z := m.(validationNonce := nonce);
            && Applies(z, p, pendingPlan, now)
            && Applied(z, p, pendingPlan, now) == Applied(m, p, pendingPlan, now).(validationNonce := nonce)
  {
  }

  lemma PeriodIgnoresNonce(m: Mandate, nonce: u64)
    ensures Period(m) == Period(m.(validationNonce := nonce))
  {
  }

  lemma DueParts(w: World, env: S.Env, p: Plan)
    requires Due(w, env, p)
    ensures Sane(w) && Period(w.mandate).Ok? && env.now <= I64_MAX - APPROVAL_TTL && w.mandate.pulls < U64_MAX
    ensures w.mandate.billingType == p.billingType && w.mandate.plan == p.key
  {
    hide Sane, Period;
  }

  lemma DueKept(w: World, z: World, env: S.Env, p: Plan)
    requires Due(w, env, p) && Sane(z) && z.key == w.key
    requires z.mandate == w.mandate.(validationNonce := z.mandate.validationNonce)
    ensures Due(z, env, p)
    ensures Period(z.mandate) == Period(w.mandate) && PeriodStart(z.mandate) == PeriodStart(w.mandate)
  {
    hide S.Gate, TokenAccepted, Sane;
  }

  lemma DueGuards(w: World, env: S.Env, p: Plan)
    requires Due(w, env, p)
    ensures w.mandate.recorded == w.mandate.pulls ==> PullGuards(w, env, p) == Period(w.mandate)
    ensures w.mandate.recorded != w.mandate.pulls ==> PullGuards(w, env, p).Err?
  {
    hide S.Gate, TokenAccepted, Sane;
  }

  /** The stored approval can be spent. */
  predicate Approved(w: World, now: i64) {
    w.approval.Some? && Spendable(w, w.approval.value, now)
  }

  lemma SpendableChecks(w: World, now: i64)
    requires Approved(w, now) && Period(w.mandate).Ok?
    ensures CheckApproval(w.approval, w.key, Period(w.mandate).value, now) == Ok(w.approval.value)
  {
    hide Period;
    PeriodFacts(w.mandate);
  }

  /** Once it is approved, a charge goes through exactly on the accounts and the funds for what moves. */
  lemma DueTransfer(w: World, env: S.Env, p: Plan, moved: u64)
    requires Due(w, env, p) && Approved(w, env.now) && moved <= w.approval.value.amount
    ensures MoveIfPositive(w, env, w.approval.value, moved).Ok? <==> Payable(w, env, moved)
  {
    hide TokenAccepted, Sane, Period, MoveIfPositive, Payable;
    PeriodIff(w.mandate);
    MoveIff(w, env, moved);
  }

  /** The mandate after a pull of `base` under the conditions `n`. */
  function AfterPull(n: Mandate, base: u64, now: i64): Mandate
    requires n.pulls < U64_MAX && n.nextDue + n.frequency <= I64_MAX && n.frequency <= I64_MAX
  {
    n.(credit := n.credit - Min(base, n.credit), pulls := n.pulls + 1, nextDue := n.nextDue + n.frequency,
       lastPullAt := now, recorded := if n.billingType == E.Usage then n.pulls + 1 else n.recorded,
       status := if n.pulls + 1 >= n.maxPulls then E.Expired else n.status)
  }

  /** The charge of a pull of `base`, of which credit covers what it can. */
  function ChargeFor(w: World, n: Mandate, base: u64): Charge
    requires w.approval.Some?
  {
    var used := Min(base, n.credit);
    Charge(n, w.approval.value, w.mandate.nextDue, base, used, base - used)
  }

  lemma Committed(w: World, n: Mandate, base: u64, now: i64)
    requires w.approval.Some? && n.pulls < U64_MAX && n.nextDue + n.frequency <= I64_MAX && n.frequency <= I64_MAX
    ensures CommitPull(ChargeFor(w, n, base), now) == Ok(AfterPull(n, base, now))
  {
  }

  /** The accounts after a callback has granted the charge. */
  function Answered(w: World, o: Offset, charge: u64, now: i64): World
    requires Period(w.mandate).Ok? && o.slot in w.requests && now <= I64_MAX - APPROVAL_TTL
  {
    var period := Period(w.mandate).value;
    w.(approval := Some(Approval(w.key, period.0, period.1, now + APPROVAL_TTL, true, charge, now)),
       requests := Complete(w.requests, o.slot, now))
  }

  lemma AcceptedEntry(w: World, a: Act)
    requires Sane(w) && Do(w, a).Ok?
    ensures EntryOf(w, a) != Refused
  {
    hide Do, Sane;
    EveryStepMoves(w, a);
  }

  lemma {:induction false} ThreeSteps(w: World, a: Act, b: Act, c: Act)
    ensures Run(w, [a, b, c]) == After(After(After(w, a), b), c)
    ensures Log(w, [a, b, c]) == [EntryOf(w, a), EntryOf(After(w, a), b), EntryOf(After(After(w, a), b), c)]
  {
    hide After, EntryOf;
    var acts := [a, b, c];
    assert acts[..2] == [a, b] && acts[..2][..1] == [a] && [a][..0] == [];
    assert Run(w, [a]) == After(w, a) && Log(w, [a]) == [EntryOf(w, a)];
    assert Run(w, [a, b]) == After(After(w, a), b) && Log(w, [a, b]) == [EntryOf(w, a), EntryOf(After(w, a), b)];
  }

  // ---------------------------------------------------------------- flat billing

  /** A flat mandate that is due, and a pull that may apply a scheduled change. */
  predicate Billable(w: World, env: S.Env, p: Plan, pendingPlan: Option<Plan>) {
    var m := w.mandate;
    && Due(w, env, p) && m.billingType == E.Flat && m.amount == p.amount
    && Applies(m, p, pendingPlan, env.now)
  }

  /** No request for its period is pending, and no approval is live. */
  predicate Unasked(w: World, now: i64) {
    var m := w.mandate;
    && m.validationNonce < U64_MAX && !Busy(w.requests, Slot(Validation, m.nextDue))
    && (Period(m).Ok? ==> !Live(w.approval, w.key, Period(m).value, now))
  }

  function NextValidation(w: World): Offset
    requires w.mandate.validationNonce < U64_MAX
  {
    Offset(w.key, Slot(Validation, w.mandate.nextDue), w.mandate.validationNonce + 1)
  }

  /** The three steps that bill a period: request, answer, pull. */
  function FlatCycle(w: World, env: S.Env, p: Plan, pendingPlan: Option<Plan>): seq<Act>
    requires w.mandate.validationNonce < U64_MAX
  {
    var o := NextValidation(w);
    [Act(env, DoRequestValidation(p, w.mandate.nextDue, 8, o)),
     Act(env, OnValidation(o, true)),
     Act(env, DoPull(p, pendingPlan, None))]
  }

  function Validating(w: World, now: i64): World
    requires w.mandate.validationNonce < U64_MAX
  {
    var o := NextValidation(w);
    Opened(w, o, ValidateJob, now).(approval := Some(NO_APPROVAL),
                                    mandate := w.mandate.(validationNonce := o.nonce))
  }

  lemma RequestGranted(w: World, env: S.Env, p: Plan, pendingPlan: Option<Plan>)
    requires Billable(w, env, p, pendingPlan) && Unasked(w, env.now)
    ensures var act := Act(env, DoRequestValidation(p, w.mandate.nextDue, 8, NextValidation(w)));
            Do(w, act).Ok? && After(w, act) == Validating(w, env.now)
  {
    hide S.Gate, TokenAccepted, Period, Live, Sane, Applies;
  }

  /** The state before the pull. */
  function Validated(w: World, now: i64): World
    requires Period(w.mandate).Ok? && w.mandate.validationNonce < U64_MAX && now <= I64_MAX - APPROVAL_TTL
  {
    PeriodIgnoresNonce(w.mandate, w.mandate.validationNonce + 1);
    Answered(Validating(w, now), NextValidation(w), w.mandate.amount, now)
  }

  lemma BillableKept(w: World, z: World, env: S.Env, p: Plan, pendingPlan: Option<Plan>)
    requires Billable(w, env, p, pendingPlan) && Sane(z) && z.key == w.key
    requires z.mandate == w.mandate.(validationNonce := z.mandate.validationNonce)
    ensures Billable(z, env, p, pendingPlan)
    ensures Applied(z.mandate, p, pendingPlan, env.now)
         == Applied(w.mandate, p, pendingPlan, env.now).(validationNonce := z.mandate.validationNonce)
  {
    hide Due, Sane, Applies, Applied;
    DueKept(w, z, env, p);
    PendingIgnoresNonce(w.mandate, z.mandate.validationNonce, p, pendingPlan, env.now);
  }

  lemma AnswerGranted(w: World, env: S.Env, p: Plan, pendingPlan: Option<Plan>, o: Offset)
    requires Billable(w, env, p, pendingPlan) && w.approval.Some?
    requires o.slot == Slot(Validation, w.mandate.nextDue) && Bound(w, o.slot, o)
    ensures var act := Act(env, OnValidation(o, true));
            Do(w, act).Ok? && After(w, act) == Answered(w, o, w.mandate.amount, env.now)
  {
    hide S.Gate, TokenAccepted, Period, Sane, Applies;
    PeriodFacts(w.mandate);
  }

  lemma FlatChargeIs(w: World, env: S.Env, p: Plan, pendingPlan: Option<Plan>)
    requires Billable(w, env, p, pendingPlan)
    requires Approved(w, env.now) && w.approval.value.amount == w.mandate.amount
    ensures var n := Applied(w.mandate, p, pendingPlan, env.now);
            if w.mandate.recorded == w.mandate.pulls && n.amount <= w.mandate.amount then
              PullCharge(w, env, p, pendingPlan, None) == Ok(ChargeFor(w, n, n.amount))
            else PullCharge(w, env, p, pendingPlan, None).Err?
  {
    hide Due, PullGuards, Period, ApplyPending, CheckApproval, Spendable;
    DueParts(w, env, p);
    DueGuards(w, env, p);
    SpendableChecks(w, env.now);
    AppliedKeeps(w.mandate, p, pendingPlan, env.now);
    PeriodFacts(w.mandate);
  }

  /** With an approval of the stored price, a pull is accepted exactly when the last one is recorded, the conditions
      it takes over are not dearer, and their price less the credit can be paid. */
  lemma FlatPulledIff(w: World, env: S.Env, p: Plan, pendingPlan: Option<Plan>)
    requires Billable(w, env, p, pendingPlan)
    requires Approved(w, env.now) && w.approval.value.amount == w.mandate.amount
    ensures var n, act := Applied(w.mandate, p, pendingPlan, env.now), Act(env, DoPull(p, pendingPlan, None));
            && (Do(w, act).Ok? <==> && w.mandate.recorded == w.mandate.pulls && n.amount <= w.mandate.amount
                                    && Payable(w, env, Net(w.mandate, n.amount)))
            && (Do(w, act).Ok? ==>
                  && n.pulls < U64_MAX && n.nextDue + n.frequency <= I64_MAX && n.frequency <= I64_MAX
                  && After(w, act).mandate == AfterPull(n, n.amount, env.now)
                  && EntryOf(w, act).Pulled? && EntryOf(w, act).end == w.mandate.nextDue
                  && EntryOf(w, act).moved == n.amount - Min(n.amount, n.credit))
  {
    hide Due, PullCharge, CommitPull, MoveIfPositive, Spendable, ApplyPending;
    FlatChargeIs(w, env, p, pendingPlan);
    AppliedKeeps(w.mandate, p, pendingPlan, env.now);
    DueParts(w, env, p);
    var n := Applied(w.mandate, p, pendingPlan, env.now);
    if w.mandate.recorded == w.mandate.pulls && n.amount <= w.mandate.amount {
      DueTransfer(w, env, p, n.amount - Min(n.amount, n.credit));
      Committed(w, n, n.amount, env.now);
    }
  }

  /** Progress: a flat mandate that is due is billed by a request, its answer and a pull exactly when the last pull is
      recorded, the pull takes over no dearer plan, and the price less the credit can be paid; that is what it moves. */
  lemma {:induction false} FlatCycleSucceedsIff(w: World, env: S.Env, p: Plan, pendingPlan: Option<Plan>)
    requires Billable(w, env, p, pendingPlan) && Unasked(w, env.now)
    ensures var m, n := w.mandate, Applied(w.mandate, p, pendingPlan, env.now);
            var acts := FlatCycle(w, env, p, pendingPlan);
            var log := Log(w, acts);
            && ((forall i :: 0 <= i < 3 ==> log[i] != Refused) <==>
                  m.recorded == m.pulls && n.amount <= m.amount && Payable(w, env, Net(m, n.amount)))
            && (log[2] != Refused ==>
                  && n.pulls < U64_MAX && n.nextDue + n.frequency <= I64_MAX && n.frequency <= I64_MAX
                  && log[2].Pulled? && log[2].end == m.nextDue && log[2].moved == Max(0, n.amount - m.credit)
                  && Sane(Run(w, acts)) && Run(w, acts).key == w.key
                  && Run(w, acts).mandate == AfterPull(n, n.amount, env.now).(validationNonce := m.validationNonce + 1))
  {
    hide Do, Sane, Period, Live, Applies, Applied, Due, AfterPull, Run, Log, EntryOf, After, Spendable, Validating,
         Validated;
    var acts := FlatCycle(w, env, p, pendingPlan);
    var m := w.mandate;
    DueParts(w, env, p);
    ThreeSteps(w, acts[0], acts[1], acts[2]);
    RunSane(w, acts);
    FirstTwo(w, env, p, pendingPlan);
    AppliedKeeps(m, p, pendingPlan, env.now);
    var y, z := Validating(w, env.now), Validated(w, env.now);
    ValidatedMandate(w, env.now);
    FlatPulledIff(z, env, p, pendingPlan);
    AfterPullIgnoresNonce(Applied(m, p, pendingPlan, env.now), m.validationNonce + 1, env.now);
    RefusedIff(w, acts[0]);
    RefusedIff(y, acts[1]);
    RefusedIff(z, acts[2]);
    assert Do(z, acts[2]).Ok? <==>
             && m.recorded == m.pulls && Applied(m, p, pendingPlan, env.now).amount <= m.amount
             && Payable(w, env, Net(m, Applied(m, p, pendingPlan, env.now).amount));
    var log := Log(w, acts);
    assert log[0] != Refused && log[1] != Refused;
    assert log[2] != Refused <==> Do(z, acts[2]).Ok?;
    assert acts == [acts[0], acts[1], acts[2]];
    assert Log(w, acts) == [EntryOf(w, acts[0]), EntryOf(y, acts[1]), EntryOf(z, acts[2])];
  }

  lemma ValidatedMandate(w: World, now: i64)
    requires Period(w.mandate).Ok? && w.mandate.validationNonce < U64_MAX && now <= I64_MAX - APPROVAL_TTL
    ensures Validated(w, now).mandate == w.mandate.(validationNonce := w.mandate.validationNonce + 1)
    ensures Validated(w, now).key == w.key
  {
    hide Period;
  }

  lemma RefusedIff(w: World, a: Act)
    requires Sane(w)
    ensures EntryOf(w, a) != Refused <==> Do(w, a).Ok?
  {
    hide Do, Sane;
    if Do(w, a).Ok? {
      AcceptedEntry(w, a);
    }
  }

  lemma AfterPullIgnoresNonce(n: Mandate, nonce: u64, now: i64)
    requires n.pulls < U64_MAX && n.nextDue + n.frequency <= I64_MAX && n.frequency <= I64_MAX
    ensures AfterPull(n.(validationNonce := nonce), n.amount, now)
         == AfterPull(n, n.amount, now).(validationNonce := nonce)
  {
  }

  lemma {:induction false} FirstTwo(w: World, env: S.Env, p: Plan, pendingPlan: Option<Plan>)
    requires Billable(w, env, p, pendingPlan) && Unasked(w, env.now)
    ensures Period(w.mandate).Ok? && env.now <= I64_MAX - APPROVAL_TTL
    ensures var acts, y, z := FlatCycle(w, env, p, pendingPlan), Validating(w, env.now), Validated(w, env.now);
            && Do(w, acts[0]).Ok? && After(w, acts[0]) == y && Do(y, acts[1]).Ok? && After(y, acts[1]) == z
            && Sane(y) && Sane(z)
    ensures var z := Validated(w, env.now);
            && Billable(z, env, p, pendingPlan)
            && Applied(z.mandate, p, pendingPlan, env.now)
               == Applied(w.mandate, p, pendingPlan, env.now).(validationNonce := w.mandate.validationNonce + 1)
            && Approved(z, env.now) && z.approval.value.amount == w.mandate.amount
  {
    hide Do, Sane, Period, Live, Applies, Applied, Due;
    var acts := FlatCycle(w, env, p, pendingPlan);
    DueParts(w, env, p);
    RequestGranted(w, env, p, pendingPlan);
    EveryStepMoves(w, acts[0]);
    var y := Validating(w, env.now);
    BillableKept(w, y, env, p, pendingPlan);
    DueParts(y, env, p);
    AnswerGranted(y, env, p, pendingPlan, NextValidation(w));
    EveryStepMoves(y, acts[1]);
    BillableKept(w, Validated(w, env.now), env, p, pendingPlan);
    PeriodFacts(y.mandate);
  }

  // ---------------------------------------------------------------- usage

  /** A usage mandate that is due, with funds for what a charge it allows moves. */
  predicate UsageBillable(w: World, env: S.Env, p: Plan, charge: u64) {
    && Due(w, env, p) && w.mandate.billingType == E.Usage && charge <= w.mandate.amount && PricingBounds(p).Ok?
    && Payable(w, env, Net(w.mandate, charge))
  }

  function PeriodStart(m: Mandate): int {
    m.nextDue - m.frequency
  }

  predicate Waiting(w: World, slot: Slot) {
    slot in w.requests && w.requests[slot].pending
  }

  /** No request for the period is pending, and no approval for it is live. */
  predicate UsageUnasked(w: World, now: i64) {
    !Waiting(w, Slot(UsageComputation, PeriodStart(w.mandate))) && !Approved(w, now)
  }

  /** The report of the present period is stored and open, and commits to the terms of the plan. */
  predicate ReportOpen(w: World, p: Plan) {
    var start := PeriodStart(w.mandate);
    && OpenReport(w, start) && w.reports[start].mandate == w.key && w.reports[start].merchant == w.mandate.merchant
    && w.reports[start].termsHash == TermsHash(Terms(p))
  }

  /** The period has no report yet, or an open one for the present terms. */
  predicate Reportable(w: World, p: Plan) {
    PeriodStart(w.mandate) !in w.reports || ReportOpen(w, p)
  }

  /** The report a merchant files for the present period. */
  function ReportFor(w: World, p: Plan, units: Ciphertext, now: i64): Report
    requires Period(w.mandate).Ok?
  {
    Report(w.key, w.mandate.merchant, Period(w.mandate).value.0, w.mandate.nextDue, units, TermsHash(Terms(p)), false,
           now)
  }

  function Filed(w: World, p: Plan, units: Ciphertext, now: i64): World
    requires Period(w.mandate).Ok?
  {
    var report := ReportFor(w, p, units, now);
    w.(reports := w.reports[report.start := report])
  }

  function Filing(w: World, env: S.Env, p: Plan, units: Ciphertext): Act
    requires Period(w.mandate).Ok?
  {
    Act(env.(signer := w.mandate.merchant), DoSubmit(p, Period(w.mandate).value.0, w.mandate.nextDue, [units]))
  }

  lemma ReportFiled(w: World, env: S.Env, p: Plan, units: Ciphertext, charge: u64)
    requires UsageBillable(w, env, p, charge) && PeriodStart(w.mandate) !in w.reports
    ensures var act := Filing(w, env, p, units);
            Do(w, act).Ok? && After(w, act) == Filed(w, p, units, env.now)
    ensures ReportOpen(Filed(w, p, units, env.now), p)
  {
    hide S.Gate, TokenAccepted, Period, TermsHash, Terms, PricingBounds;
    PeriodFacts(w.mandate);
  }

  function UsageOffset(w: World): Offset
    requires w.mandate.validationNonce < U64_MAX
  {
    Offset(w.key, Slot(UsageComputation, PeriodStart(w.mandate)), w.mandate.validationNonce + 1)
  }

  function Asked(w: World, p: Plan, now: i64): World
    requires w.mandate.validationNonce < U64_MAX && PeriodStart(w.mandate) in w.reports
  {
    var o := UsageOffset(w);
    Opened(w, o, PriceJob(w.reports[PeriodStart(w.mandate)].units, Terms(p)), now)
      .(approval := Some(NO_APPROVAL), mandate := w.mandate.(validationNonce := o.nonce))
  }

  lemma UnaskedIsNotLive(w: World, now: i64)
    requires UsageUnasked(w, now) && Period(w.mandate).Ok?
    ensures !Busy(w.requests, Slot(UsageComputation, PeriodStart(w.mandate)))
    ensures !Live(w.approval, w.key, Period(w.mandate).value, now)
  {
    hide Period;
    PeriodFacts(w.mandate);
  }

  lemma UsageAsked(w: World, env: S.Env, p: Plan, charge: u64)
    requires UsageBillable(w, env, p, charge) && UsageUnasked(w, env.now) && ReportOpen(w, p)
    requires w.mandate.validationNonce < U64_MAX
    ensures var act := Act(env, DoRequestUsage(p, Period(w.mandate).value.0, UsageOffset(w)));
            Do(w, act).Ok? && After(w, act) == Asked(w, p, env.now)
  {
    hide S.Gate, TokenAccepted, Period, TermsHash, Terms, PricingBounds, Live, Sane,
         UsageUnasked;
    UnaskedIsNotLive(w, env.now);
    PeriodFacts(w.mandate);
  }

  lemma UsageAnswered(w: World, env: S.Env, p: Plan, charge: u64, o: Offset)
    requires UsageBillable(w, env, p, charge) && w.approval.Some? && ReportOpen(w, p)
    requires o.slot == Slot(UsageComputation, PeriodStart(w.mandate)) && Bound(w, o.slot, o)
    ensures var act := Act(env, OnUsage(o, Period(w.mandate).value.0, charge));
            Do(w, act).Ok? && After(w, act) == Answered(w, o, charge, env.now)
  {
    hide S.Gate, TokenAccepted, Period, TermsHash, Terms, PricingBounds, Sane;
    PeriodFacts(w.mandate);
  }

  lemma ReportChecks(w: World, p: Plan)
    requires ReportOpen(w, p) && Period(w.mandate).Ok?
    ensures CheckReport(w, Period(w.mandate).value.0, Period(w.mandate).value) == Ok(())
  {
    hide Period, TermsHash, Terms;
    PeriodFacts(w.mandate);
  }

  lemma UsageChargeIs(w: World, env: S.Env, p: Plan, pendingPlan: Option<Plan>, charge: u64)
    requires UsageBillable(w, env, p, charge) && ReportOpen(w, p) && w.mandate.recorded == w.mandate.pulls
    requires Approved(w, env.now) && w.approval.value.amount == charge
    requires Applies(w.mandate, p, pendingPlan, env.now)
    requires charge <= Applied(w.mandate, p, pendingPlan, env.now).amount
    ensures PullCharge(w, env, p, pendingPlan, Some(Period(w.mandate).value.0))
         == Ok(ChargeFor(w, Applied(w.mandate, p, pendingPlan, env.now), charge))
  {
    hide Due, PullGuards, Period, ApplyPending, CheckApproval, CheckReport, Spendable, PricingBounds, ReportOpen;
    DueParts(w, env, p);
    DueGuards(w, env, p);
    SpendableChecks(w, env.now);
    ReportChecks(w, p);
    AppliedKeeps(w.mandate, p, pendingPlan, env.now);
    PeriodFacts(w.mandate);
  }

  lemma UsagePulled(w: World, env: S.Env, p: Plan, pendingPlan: Option<Plan>, charge: u64)
    requires UsageBillable(w, env, p, charge) && ReportOpen(w, p) && w.mandate.recorded == w.mandate.pulls
    requires Approved(w, env.now) && w.approval.value.amount == charge
    requires Applies(w.mandate, p, pendingPlan, env.now)
    requires charge <= Applied(w.mandate, p, pendingPlan, env.now).amount
    ensures var n := Applied(w.mandate, p, pendingPlan, env.now);
            var start := Period(w.mandate).value.0;
            var act := Act(env, DoPull(p, pendingPlan, Some(start)));
            && Do(w, act).Ok?
            && n.pulls < U64_MAX && n.nextDue + n.frequency <= I64_MAX && n.frequency <= I64_MAX
            && After(w, act) == w.(mandate := AfterPull(n, charge, env.now), approval := None,
                                   reports := Billing.Settle(w.reports, start))
            && EntryOf(w, act).Pulled? && EntryOf(w, act).end == w.mandate.nextDue
            && EntryOf(w, act).approval == w.approval.value
            && EntryOf(w, act).moved == charge - Min(charge, w.mandate.credit)
  {
    hide Due, PullCharge, CommitPull, MoveIfPositive, ApplyPending, PricingBounds, ReportOpen, Period, Settle;
    UsageChargeIs(w, env, p, pendingPlan, charge);
    AppliedKeeps(w.mandate, p, pendingPlan, env.now);
    DueParts(w, env, p);
    PeriodFacts(w.mandate);
    var n := Applied(w.mandate, p, pendingPlan, env.now);
    DueTransfer(w, env, p, charge - Min(charge, n.credit));
    Committed(w, n, charge, env.now);
  }

  /** The three steps that charge a reported period: request, answer, pull. */
  function ChargeCycle(w: World, env: S.Env, p: Plan, pendingPlan: Option<Plan>, charge: u64): seq<Act>
    requires Period(w.mandate).Ok? && w.mandate.validationNonce < U64_MAX
  {
    var start, o := Period(w.mandate).value.0, UsageOffset(w);
    [Act(env, DoRequestUsage(p, start, o)),
     Act(env, OnUsage(o, start, charge)),
     Act(env, DoPull(p, pendingPlan, Some(start)))]
  }

  /** The accounts after them, under the conditions `n`. */
  function Charged(w: World, p: Plan, n: Mandate, charge: u64, now: i64): World
    requires Period(w.mandate).Ok? && w.mandate.validationNonce < U64_MAX && PeriodStart(w.mandate) in w.reports
    requires n.pulls < U64_MAX && n.nextDue + n.frequency <= I64_MAX && n.frequency <= I64_MAX
  {
    var o, start := UsageOffset(w), Period(w.mandate).value.0;
    w.(mandate := AfterPull(n, charge, now).(validationNonce := o.nonce), approval := None,
       requests := w.requests[o.slot := Request(w.key, o.slot, o, o.nonce, false, now, now)],
       reports := Billing.Settle(w.reports, start),
       queued := w.queued[o := PriceJob(w.reports[PeriodStart(w.mandate)].units, Terms(p))])
  }

  /** What the steps need besides a report and a recorded last pull: no request pending, and conditions that allow the
      charge. */
  predicate ChargeReady(w: World, env: S.Env, p: Plan, pendingPlan: Option<Plan>, charge: u64) {
    && UsageBillable(w, env, p, charge) && UsageUnasked(w, env.now) && w.mandate.validationNonce < U64_MAX
    && Applies(w.mandate, p, pendingPlan, env.now)
    && charge <= Applied(w.mandate, p, pendingPlan, env.now).amount
  }

  /** The state after the request and its answer. */
  function BeforePull(w: World, p: Plan, charge: u64, now: i64): World
    requires Period(w.mandate).Ok? && w.mandate.validationNonce < U64_MAX && now <= I64_MAX - APPROVAL_TTL
    requires PeriodStart(w.mandate) in w.reports
  {
    PeriodIgnoresNonce(w.mandate, w.mandate.validationNonce + 1);
    Answered(Asked(w, p, now), UsageOffset(w), charge, now)
  }

  lemma UsageBillableKept(w: World, z: World, env: S.Env, p: Plan, charge: u64)
    requires UsageBillable(w, env, p, charge) && ReportOpen(w, p)
    requires Sane(z) && z.key == w.key && z.reports == w.reports
    requires z.mandate == w.mandate.(validationNonce := z.mandate.validationNonce)
    ensures UsageBillable(z, env, p, charge) && ReportOpen(z, p)
    ensures Period(z.mandate) == Period(w.mandate) && PeriodStart(z.mandate) == PeriodStart(w.mandate)
  {
    hide Due, PricingBounds, Sane, Period, Terms, TermsHash;
    DueKept(w, z, env, p);
  }

  lemma {:induction false} RequestAndAnswer(w: World, env: S.Env, p: Plan, pendingPlan: Option<Plan>, charge: u64)
    requires ChargeReady(w, env, p, pendingPlan, charge) && ReportOpen(w, p)
    ensures Period(w.mandate).Ok? && env.now <= I64_MAX - APPROVAL_TTL
    ensures var acts := ChargeCycle(w, env, p, pendingPlan, charge);
            var z := BeforePull(w, p, charge, env.now);
            && Do(w, acts[0]).Ok? && After(w, acts[0]) == Asked(w, p, env.now)
            && Do(Asked(w, p, env.now), acts[1]).Ok? && After(Asked(w, p, env.now), acts[1]) == z
            && Sane(Asked(w, p, env.now))
    ensures var z := BeforePull(w, p, charge, env.now);
            && UsageBillable(z, env, p, charge) && ReportOpen(z, p) && Sane(z)
            && Period(z.mandate) == Period(w.mandate)
  {
    hide Due, PricingBounds, Do, Period, TermsHash, Terms, Sane, UsageUnasked, Applies, Applied, EntryOf;
    DueParts(w, env, p);
    var acts := ChargeCycle(w, env, p, pendingPlan, charge);
    UsageAsked(w, env, p, charge);
    EveryStepMoves(w, acts[0]);
    var y := Asked(w, p, env.now);
    UsageBillableKept(w, y, env, p, charge);
    UsageAnswered(y, env, p, charge, UsageOffset(w));
    EveryStepMoves(y, acts[1]);
    UsageBillableKept(w, BeforePull(w, p, charge, env.now), env, p, charge);
  }

  lemma {:induction false} ThirdStep(w: World, env: S.Env, p: Plan, pendingPlan: Option<Plan>, charge: u64)
    requires ChargeReady(w, env, p, pendingPlan, charge) && ReportOpen(w, p)
    requires w.mandate.recorded == w.mandate.pulls
    requires Period(w.mandate).Ok? && env.now <= I64_MAX - APPROVAL_TTL
    requires var z := BeforePull(w, p, charge, env.now);
             UsageBillable(z, env, p, charge) && ReportOpen(z, p) && Period(z.mandate) == Period(w.mandate)
    ensures var n := Applied(w.mandate, p, pendingPlan, env.now);
            var z, act := BeforePull(w, p, charge, env.now), ChargeCycle(w, env, p, pendingPlan, charge)[2];
            && n.pulls < U64_MAX && n.nextDue + n.frequency <= I64_MAX && n.frequency <= I64_MAX
            && After(z, act) == Charged(w, p, n, charge, env.now)
            && EntryOf(z, act).Pulled? && EntryOf(z, act).end == w.mandate.nextDue
            && EntryOf(z, act).approval.periodStart == PeriodStart(w.mandate)
            && EntryOf(z, act).moved == charge - Min(charge, w.mandate.credit)
  {
    hide UsageBillable, Do, ApplyPending, Applies, Period, TermsHash, Terms, UsageUnasked, After, EntryOf, Settle;
    PeriodFacts(w.mandate);
    var z := BeforePull(w, p, charge, env.now);
    PendingIgnoresNonce(w.mandate, w.mandate.validationNonce + 1, p, pendingPlan, env.now);
    UsagePulled(z, env, p, pendingPlan, charge);
  }

  /** A period with an open report for the present terms is charged by a request, its answer and a pull. */
  lemma {:induction false} ChargeCycleRuns(w: World, env: S.Env, p: Plan, pendingPlan: Option<Plan>, charge: u64)
    requires ChargeReady(w, env, p, pendingPlan, charge) && ReportOpen(w, p)
    requires w.mandate.recorded == w.mandate.pulls
    ensures Period(w.mandate).Ok?
    ensures var n := Applied(w.mandate, p, pendingPlan, env.now);
            var acts := ChargeCycle(w, env, p, pendingPlan, charge);
            && n.pulls < U64_MAX && n.nextDue + n.frequency <= I64_MAX && n.frequency <= I64_MAX
            && Run(w, acts) == Charged(w, p, n, charge, env.now)
            && (forall i :: 0 <= i < 3 ==> Log(w, acts)[i] != Refused)
            && Log(w, acts)[2].Pulled? && Log(w, acts)[2].end == w.mandate.nextDue
            && Log(w, acts)[2].approval.periodStart == PeriodStart(w.mandate)
            && Log(w, acts)[2].moved == charge - Min(charge, w.mandate.credit)
  {
    hide ChargeReady, Do, Applies, Applied, Period, BeforePull, Charged, EntryOf, After, Run, Log, ReportOpen,
         UsageBillable, PeriodStart;
    ReadyParts(w, env, p, pendingPlan, charge);
    var acts := ChargeCycle(w, env, p, pendingPlan, charge);
    ThreeSteps(w, acts[0], acts[1], acts[2]);
    assert acts == [acts[0], acts[1], acts[2]];
    RequestAndAnswer(w, env, p, pendingPlan, charge);
    ThirdStep(w, env, p, pendingPlan, charge);
    StoredReport(w, p);
    RefusedIff(w, acts[0]);
    RefusedIff(Asked(w, p, env.now), acts[1]);
  }

  lemma StoredReport(w: World, p: Plan)
    requires ReportOpen(w, p)
    ensures PeriodStart(w.mandate) in w.reports
  {
  }

  lemma ReadyParts(w: World, env: S.Env, p: Plan, pendingPlan: Option<Plan>, charge: u64)
    requires ChargeReady(w, env, p, pendingPlan, charge)
    ensures Sane(w) && Period(w.mandate).Ok? && w.mandate.validationNonce < U64_MAX
    ensures UsageBillable(w, env, p, charge) && Applies(w.mandate, p, pendingPlan, env.now)
    ensures env.now <= I64_MAX - APPROVAL_TTL && w.mandate.plan == p.key && UsageUnasked(w, env.now)
    ensures w.mandate.billingType == p.billingType == E.Usage
  {
    hide Sane, Period, Applies, Due;
    DueParts(w, env, p);
  }

  /** The four steps that bill a period without a report: report, request, answer, pull. */
  function UsageCycle(w: World, env: S.Env, p: Plan, pendingPlan: Option<Plan>, units: Ciphertext, charge: u64)
    : seq<Act>
    requires Period(w.mandate).Ok? && w.mandate.validationNonce < U64_MAX
  {
    [Filing(w, env, p, units)] + ChargeCycle(w, env, p, pendingPlan, charge)
  }

  lemma FiledReady(w: World, env: S.Env, p: Plan, pendingPlan: Option<Plan>, units: Ciphertext, charge: u64)
    requires ChargeReady(w, env, p, pendingPlan, charge) && PeriodStart(w.mandate) !in w.reports
    ensures Period(w.mandate).Ok?
    ensures var z := Filed(w, p, units, env.now);
            && ChargeReady(z, env, p, pendingPlan, charge) && ReportOpen(z, p)
            && ChargeCycle(z, env, p, pendingPlan, charge) == ChargeCycle(w, env, p, pendingPlan, charge)
            && EntryOf(w, Filing(w, env, p, units)) != Refused && After(w, Filing(w, env, p, units)) == z
  {
    hide Due, PricingBounds, Do, Period, TermsHash, Terms, Sane, Applies, Applied, EntryOf, ReportOpen;
    DueParts(w, env, p);
    ReportFiled(w, env, p, units, charge);
    RefusedIff(w, Filing(w, env, p, units));
    EveryStepMoves(w, Filing(w, env, p, units));
    DueKept(w, Filed(w, p, units, env.now), env, p);
  }

  lemma {:induction false} OneStep(w: World, a: Act)
    ensures Run(w, [a]) == After(w, a) && Log(w, [a]) == [EntryOf(w, a)]
  {
    hide After, EntryOf;
    assert [a][..0] == [];
  }

  /** So is a period without one, by those after a report. */
  lemma {:induction false} UsageCycleRuns(w: World, env: S.Env, p: Plan, pendingPlan: Option<Plan>,
                                           units: Ciphertext, charge: u64)
    requires ChargeReady(w, env, p, pendingPlan, charge) && PeriodStart(w.mandate) !in w.reports
    requires w.mandate.recorded == w.mandate.pulls
    ensures Period(w.mandate).Ok?
    ensures var n, z := Applied(w.mandate, p, pendingPlan, env.now), Filed(w, p, units, env.now);
            var acts := UsageCycle(w, env, p, pendingPlan, units, charge);
            && n.pulls < U64_MAX && n.nextDue + n.frequency <= I64_MAX && n.frequency <= I64_MAX
            && PeriodStart(w.mandate) in z.reports && Run(w, acts) == Charged(z, p, n, charge, env.now)
            && (forall i :: 0 <= i < 4 ==> Log(w, acts)[i] != Refused)
            && Log(w, acts)[3].Pulled? && Log(w, acts)[3].end == w.mandate.nextDue
            && Log(w, acts)[3].approval.periodStart == PeriodStart(w.mandate)
            && Log(w, acts)[3].moved == charge - Min(charge, w.mandate.credit)
  {
    hide ChargeReady, Applies, Applied, Period, EntryOf, After, Run, Log, ReportOpen, PeriodStart, Filing, ChargeCycle,
         ReportFor, Charged;
    ReadyParts(w, env, p, pendingPlan, charge);
    FiledReady(w, env, p, pendingPlan, units, charge);
    var z := Filed(w, p, units, env.now);
    StoredReport(z, p);
    ChargeCycleRuns(z, env, p, pendingPlan, charge);
    OneStep(w, Filing(w, env, p, units));
    RunAppend(w, [Filing(w, env, p, units)], ChargeCycle(w, env, p, pendingPlan, charge));
  }
}
