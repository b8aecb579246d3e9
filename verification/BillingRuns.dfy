/** Runs of the billing protocol, and the transition each kind of log entry stands for. */
module BillingRuns {
  import opened Base
  import opened Hook
  import S = Streaming
  import E = Encoding
  import opened Billing

  // ---------------------------------------------------------------- runs

  datatype Kind =
    | DoRequestValidation(plan: Plan, seed: i64, ciphertexts: nat, requested: Offset)
    | OnValidation(offset: Offset, result: bool)
    | DoSubmit(plan: Plan, start: i64, end: i64, units: seq<Ciphertext>)
    | DoRequestUsage(plan: Plan, start: i64, requested: Offset)
    | OnUsage(offset: Offset, start: i64, charge: u64)
    | DoPull(plan: Plan, pendingPlan: Option<Plan>, report: Option<i64>)
    | DoRequestRecord(plan: Plan, pull: u64, requested: Offset)
    | OnRecord(offset: Offset, plan: Plan, blob: int)
    | DoUpdate(plan: Plan, div: (nat, nat) -> nat)
    | DoSchedule(plan: Plan)
    | DoUnschedule
    | DoCancel(plan: Plan)
    | DoAdminCancel(admin: Key, plan: Plan)

  /** An instruction or a callback, with everything it is given: nothing is assumed of the arguments. */
  datatype Act = Act(env: S.Env, kind: Kind)

  function Do(w: World, a: Act): Result<(World, Entry)> {
    match a.kind
    case DoRequestValidation(plan, seed, n, requested) => RequestValidation(w, a.env, plan, seed, n, requested)
    case OnValidation(offset, result) => ValidationCallback(w, a.env.now, offset, result)
    case DoSubmit(plan, start, end, units) => SubmitUsageReport(w, a.env, plan, start, end, units)
    case DoRequestUsage(plan, start, requested) => RequestUsageComputation(w, a.env, plan, start, requested)
    case OnUsage(offset, start, charge) => UsageCallback(w, a.env.now, offset, start, charge)
    case DoPull(plan, pendingPlan, report) => ExecutePull(w, a.env, plan, pendingPlan, report)
    case DoRequestRecord(plan, pull, requested) => RequestBillingRecord(w, a.env, plan, pull, requested)
    case OnRecord(offset, plan, blob) => BillingCallback(w, a.env.now, offset, plan, blob)
    case DoUpdate(plan, div) => UpdateMandatePlan(w, a.env, plan, div)
    case DoSchedule(plan) => SchedulePlanChange(w, a.env, plan)
    case DoUnschedule => CancelPlanChange(w, a.env)
    case DoCancel(plan) => CancelMandate(w, a.env, plan)
    case DoAdminCancel(admin, plan) => AdminCancel(w, a.env, admin, plan)
  }

  /** A refused instruction stores nothing. */
  function After(w: World, a: Act): World {
    match Do(w, a) case Ok(p) => p.0 case Err(_) => w
  }

  function EntryOf(w: World, a: Act): Entry {
    match Do(w, a) case Ok(p) => p.1 case Err(_) => Refused
  }

  function Run(w: World, acts: seq<Act>): World {
    if acts == [] then w else After(Run(w, acts[..|acts| - 1]), acts[|acts| - 1])
  }

  function Log(w: World, acts: seq<Act>): (log: seq<Entry>)
    ensures |log| == |acts|
  {
    if acts == [] then []
    else Log(w, acts[..|acts| - 1]) + [EntryOf(Run(w, acts[..|acts| - 1]), acts[|acts| - 1])]
  }

  /** The log of a prefix is the prefix of the log. */
  lemma {:induction false} LogPrefix(w: World, acts: seq<Act>, j: nat)
    requires j <= |acts|
    ensures Log(w, acts)[..j] == Log(w, acts[..j])
    ensures j < |acts| ==> Log(w, acts)[j] == EntryOf(Run(w, acts[..j]), acts[j])
                           && Run(w, acts[..j + 1]) == After(Run(w, acts[..j]), acts[j])
  {
    hide After, EntryOf;
    if j < |acts| {
      assert acts[..j + 1][..j] == acts[..j];
      var pre := acts[..|acts| - 1];
      LogPrefix(w, pre, j);
      assert pre[..j] == acts[..j];
    } else {
      assert acts[..j] == acts;
    }
  }

  /** Runs compose. */
  lemma {:induction false} RunAppend(w: World, xs: seq<Act>, ys: seq<Act>)
    ensures Run(w, xs + ys) == Run(Run(w, xs), ys) && Log(w, xs + ys) == Log(w, xs) + Log(Run(w, xs), ys)
  {
    hide After, EntryOf;
    if ys == [] {
      assert xs + ys == xs;
    } else {
      var n := |ys| - 1;
      RunAppend(w, xs, ys[..n]);
      assert (xs + ys)[..|xs| + n] == xs + ys[..n];
    }
  }

  /** The clock is positive throughout and never runs backwards. */
  predicate Clocked(acts: seq<Act>) {
    forall i :: 0 <= i < |acts| ==> acts[i].env.now > 0 && (i > 0 ==> acts[i - 1].env.now <= acts[i].env.now)
  }

  // ---------------------------------------------------------------- transitions

  predicate Busy(requests: map<Slot, Request>, slot: Slot) {
    slot in requests && requests[slot].createdAt != 0 && requests[slot].pending
  }

  /** The offset is the one the pending request in the slot waits for. */
  predicate Bound(w: World, slot: Slot, offset: Offset) {
    && slot in w.requests && w.requests[slot].pending && w.requests[slot].offset == offset
    && w.requests[slot].mandate == w.key && w.requests[slot].slot == slot && offset in w.queued
  }

  /** An unsettled report for the period of the mandate as it stands. */
  predicate OpenReport(w: World, start: int) {
    && start in w.reports && !w.reports[start].settled
    && w.reports[start].start == start && w.reports[start].end == w.mandate.nextDue
    && InPeriod(w.mandate, start, w.mandate.nextDue)
  }

  predicate InPeriod(m: Mandate, start: int, end: int) {
    end == m.nextDue && start == end - m.frequency
  }

  /** An approval that can be charged for the period of the mandate as it stands. */
  predicate Spendable(w: World, a: Approval, now: i64) {
    && w.approval == Some(a) && a.approved && a.mandate == w.key
    && InPeriod(w.mandate, a.periodStart, a.periodEnd) && now <= a.validUntil
  }

  function Opened(w: World, o: Offset, job: Job, now: i64): World {
    w.(requests := w.requests[o.slot := Request(w.key, o.slot, o, o.nonce, true, now, 0)],
       queued := w.queued[o := job])
  }

  function Closed(requests: map<Slot, Request>, slot: Slot, now: i64): map<Slot, Request>
    requires slot in requests
  {
    requests[slot := requests[slot].(pending := false, completedAt := now)]
  }

  predicate RequestsApproval(w: World, now: i64, o: Offset, job: Job, after: World) {
    && o.nonce == w.mandate.validationNonce + 1 && now >= w.mandate.nextDue
    && (o.slot.flow == Validation ==> o.slot.subject == w.mandate.nextDue && job == ValidateJob)
    && (o.slot.flow == UsageComputation ==>
          && OpenReport(w, o.slot.subject) && job.PriceJob? && job.units == w.reports[o.slot.subject].units
          && TermsHash(job.terms) == w.reports[o.slot.subject].termsHash)
    && after == Opened(w, o, job, now).(approval := Some(NO_APPROVAL),
                                        mandate := w.mandate.(validationNonce := o.nonce))
  }

  predicate RequestsRecord(w: World, now: i64, o: Offset, job: Job, after: World) {
    && o.slot.subject == w.mandate.pulls && w.mandate.recorded < w.mandate.pulls
    && o.nonce == w.mandate.billingNonce + 1
    && (w.mandate.pulls in w.events ==> w.events[w.mandate.pulls].createdAt == 0)
    && job.RecordJob? && job.pull == w.mandate.pulls && job.end == w.mandate.nextDue && job.start < job.end
    && job.pulledAt == w.mandate.lastPullAt
    && after == Opened(w, o, job, now).(events := w.events[w.mandate.pulls := NO_EVENT],
                                        mandate := w.mandate.(billingNonce := o.nonce))
  }

  /** The slot an approval callback answers. */
  function ApprovalSlotOf(m: Mandate, a: Approval): Slot {
    if m.billingType == E.Flat then Slot(Validation, m.nextDue) else Slot(UsageComputation, a.periodStart)
  }

  predicate Accepts(w: World, now: i64, o: Offset, a: Approval, after: World) {
    var m := w.mandate;
    var slot := ApprovalSlotOf(m, a);
    && m.status == E.Active && Bound(w, slot, o)
    && InPeriod(m, a.periodStart, a.periodEnd) && a.mandate == w.key
    && a.createdAt == now && a.validUntil == now + APPROVAL_TTL
    && (m.billingType == E.Flat ==> a.amount == m.amount)
    && (m.billingType == E.Usage ==> a.approved && a.amount <= m.amount && OpenReport(w, a.periodStart))
    && after == w.(approval := Some(a), requests := Closed(w.requests, slot, now))
  }

  predicate Submits(w: World, now: i64, r: Report, terms: E.PlanTerms, after: World) {
    && r.start !in w.reports && !r.settled && r.mandate == w.key && r.termsHash == TermsHash(terms)
    && r.merchant == w.mandate.merchant && r.createdAt == now
    && InPeriod(w.mandate, r.start, r.end) && w.mandate.billingType == E.Usage
    && after == w.(reports := w.reports[r.start := r])
  }

  /** A pull: it spends the approval of the stored period, settles the report of a usage period, and
      moves the due date by the frequency in force after any plan change. */
  predicate Pulls(w: World, e: Entry, after: World)
    requires e.Pulled?
  {
    var m, n := w.mandate, after.mandate;
    && m.status == E.Active && m.recorded == m.pulls < m.maxPulls && !Billing.Expired(m, e.at)
    && e.at >= m.nextDue == e.end && Spendable(w, e.approval, e.at)
    && e.billingType == m.billingType == n.billingType && e.step == n.frequency > 0 && e.amount == n.amount
    && (e.planChanged <==> m.pending.Some? && e.at >= m.pending.value.effectiveAt)
    && (e.planChanged ==> n.plan == m.pending.value.plan && n.pending == None)
    && (!e.planChanged ==> n.frequency == m.frequency && n.amount == m.amount && n.maxPulls == m.maxPulls
                           && n.plan == m.plan && n.pending == m.pending)
    && e.moved + e.used == e.base <= e.amount && e.base <= e.approval.amount
    && (e.billingType == E.Flat ==> e.base == e.amount)
    && (e.billingType == E.Usage ==> e.base == e.approval.amount)
    && e.used == Min(e.base, m.credit) && n.credit == m.credit - e.used
    && n.pulls == m.pulls + 1 && n.nextDue == m.nextDue + e.step && n.lastPullAt == e.at
    && n.recorded == (if e.billingType == E.Usage then n.pulls else m.recorded)
    && n.status == (if n.pulls >= n.maxPulls then E.Expired else E.Active)
    && n.expiry == m.expiry && SameParties(m, n) && SameNonces(m, n)
    && (e.billingType == E.Usage ==> OpenReport(w, e.approval.periodStart))
    && after == w.(mandate := n, approval := None,
                   reports := if e.billingType == E.Usage then Billing.Settle(w.reports, e.approval.periodStart)
                              else w.reports)
  }

  predicate SameParties(m: Mandate, n: Mandate) {
    m.subscriber == n.subscriber && m.merchant == n.merchant
  }

  predicate SameNonces(m: Mandate, n: Mandate) {
    m.validationNonce == n.validationNonce && m.billingNonce == n.billingNonce
  }

  predicate Records(w: World, now: i64, o: Offset, pull: u64, event: Event, after: World) {
    && pull == w.mandate.pulls && Bound(w, Slot(BillingRecord, pull), o)
    && pull in w.events && w.events[pull].createdAt == 0
    && event == Event(w.key, w.mandate.merchant, w.mandate.subscriber, event.planId, event.blob, now)
    && after == w.(events := w.events[pull := event],
                   requests := Closed(w.requests, Slot(BillingRecord, pull), now),
                   mandate := w.mandate.(recorded := pull))
  }

  /** An immediate plan change: a charge spends the approval, a credit is added to the balance. */
  predicate Changes(w: World, e: Entry, after: World)
    requires e.Changed?
  {
    var m, n := w.mandate, after.mandate;
    && m.status == E.Active && n.frequency > 0 && n.pending == None
    && (e.consumed.Some? <==> e.delta > 0)
    && (e.delta > 0 ==> Spendable(w, e.consumed.value, e.at) && e.delta <= e.consumed.value.amount)
    && n.credit == m.credit + Max(0, -e.delta)
    && n.pulls == m.pulls && n.nextDue == m.nextDue && n.recorded == m.recorded && n.status == m.status
    && n.expiry == m.expiry && n.lastPullAt == m.lastPullAt && SameParties(m, n) && SameNonces(m, n)
    && after == w.(mandate := n, approval := if e.delta > 0 then None else w.approval)
  }

  /** The entry an accepted instruction or callback makes. */
  predicate EntryFits(k: Kind, e: Entry) {
    match k
    case DoRequestValidation(_, _, _, requested) =>
      e.Requested? && e.offset == requested && requested.slot.flow == Validation && e.job == ValidateJob
    case OnValidation(offset, result) => e.Accepted? && e.offset == offset && e.approval.approved == result
    case DoSubmit(plan, start, end, units) =>
      && e.Submitted? && e.report.start == start && e.report.end == end && units == [e.report.units]
      && e.terms == Terms(plan)
    case DoRequestUsage(plan, _, requested) =>
      && e.Requested? && e.offset == requested && requested.slot.flow == UsageComputation
      && e.job.PriceJob? && e.job.terms == Terms(plan)
    case OnUsage(offset, start, charge) => e.Accepted? && e.offset == offset && e.approval.amount == charge
    case DoPull(_, _, _) => e.Pulled?
    case DoRequestRecord(plan, pull, requested) =>
      && e.Requested? && e.offset == requested && requested.slot.flow == BillingRecord
      && e.job.RecordJob? && e.job.pull == pull && e.job.amount == plan.amount
      && e.job.start == e.job.end - plan.frequency
    case OnRecord(offset, plan, blob) =>
      e.Recorded? && e.offset == offset && e.event.planId == plan.planId && e.event.blob == blob
    case DoUpdate(_, _) => e.Changed? || e.Unchanged?
    case DoSchedule(plan) => e == Scheduled(plan.key) || e.Unchanged?
    case DoUnschedule => e.Unscheduled?
    case DoCancel(_) => e.Ended?
    case DoAdminCancel(_, _) => e.Ended?
  }

  /** What each entry of the log says about the states around it. */
  predicate Moves(w: World, now: i64, e: Entry, after: World) {
    match e
    case Requested(o, job) =>
      && o.mandate == w.key && !Busy(w.requests, o.slot)
      && if o.slot.flow == BillingRecord then RequestsRecord(w, now, o, job, after)
         else RequestsApproval(w, now, o, job, after)
    case Accepted(o, a) => Accepts(w, now, o, a, after)
    case Submitted(r, terms) => Submits(w, now, r, terms, after)
    case Pulled(_, _, _, _, _, _, _, _, _, _) => e.at == now && Pulls(w, e, after)
    case Recorded(o, pull, event) => Records(w, now, o, pull, event, after)
    case Changed(_, _, _) => e.at == now && Changes(w, e, after)
    case Scheduled(plan) => after == w.(mandate := w.mandate.(pending := Some(Pending(plan, w.mandate.nextDue))))
    case Unscheduled => after == w.(mandate := w.mandate.(pending := None))
    case Ended =>
      w.mandate.status == E.Active && after == w.(mandate := w.mandate.(status := E.MandateStatus.Cancelled))
    case Unchanged => after == w
    case Refused => after == w
  }

  // ---------------------------------------------------------------- every instruction is a transition

  /** No stored mandate has a zero frequency, and reports are stored under the start of their period. */
  predicate Sane(w: World) {
    && w.mandate.frequency > 0
    && forall start :: start in w.reports ==> w.reports[start].start == start && w.reports[start].mandate == w.key
  }

  lemma PeriodFacts(m: Mandate)
    ensures Period(m).Ok? ==> InPeriod(m, Period(m).value.0, Period(m).value.1)
    ensures Period(m).Ok? ==> -I64_MAX - 1 <= m.nextDue - m.frequency
  {
  }

  lemma RequestValidationMoves(w: World, a: Act)
    requires a.kind.DoRequestValidation? && Do(w, a).Ok?
    ensures Moves(w, a.env.now, Do(w, a).value.1, Do(w, a).value.0) && EntryFits(a.kind, Do(w, a).value.1)
  {
    hide RequestUsageComputation, ExecutePull, UpdateMandatePlan, RequestBillingRecord;
    hide Period, Live;
  }

  lemma ValidationCallbackMoves(w: World, a: Act)
    requires a.kind.OnValidation? && Do(w, a).Ok?
    ensures Moves(w, a.env.now, Do(w, a).value.1, Do(w, a).value.0) && EntryFits(a.kind, Do(w, a).value.1)
  {
    hide RequestUsageComputation, ExecutePull, UpdateMandatePlan, RequestBillingRecord;
    hide Period;
    PeriodFacts(w.mandate);
  }

  lemma SubmitMoves(w: World, a: Act)
    requires a.kind.DoSubmit? && Do(w, a).Ok?
    ensures Moves(w, a.env.now, Do(w, a).value.1, Do(w, a).value.0) && EntryFits(a.kind, Do(w, a).value.1)
  {
    hide RequestUsageComputation, ExecutePull, UpdateMandatePlan, RequestBillingRecord;
    hide Period, TermsHash, Terms;
    PeriodFacts(w.mandate);
  }

  lemma RequestUsageMoves(w: World, a: Act)
    requires Sane(w) && a.kind.DoRequestUsage? && Do(w, a).Ok?
    ensures Moves(w, a.env.now, Do(w, a).value.1, Do(w, a).value.0) && EntryFits(a.kind, Do(w, a).value.1)
  {
    hide RequestValidation, ExecutePull, UpdateMandatePlan, RequestBillingRecord;
    hide Period, TermsHash, Terms, Live;
    PeriodFacts(w.mandate);
  }

  lemma UsageCallbackMoves(w: World, a: Act)
    requires Sane(w) && a.kind.OnUsage? && Do(w, a).Ok?
    ensures Moves(w, a.env.now, Do(w, a).value.1, Do(w, a).value.0) && EntryFits(a.kind, Do(w, a).value.1)
  {
    hide RequestUsageComputation, ExecutePull, UpdateMandatePlan, RequestBillingRecord;
    hide Period;
    PeriodFacts(w.mandate);
  }

  lemma AppliedPending(m: Mandate, plan: Plan, pendingPlan: Option<Plan>, now: i64)
    requires ApplyPending(m, plan, pendingPlan, now).Ok? && plan.billingType == m.billingType && m.frequency > 0
    ensures var (n, active) := ApplyPending(m, plan, pendingPlan, now).value;
            && n == m.(plan := n.plan, amount := n.amount, frequency := n.frequency, maxPulls := n.maxPulls,
                       pending := n.pending)
            && active.billingType == m.billingType && n.frequency > 0
            && (ChangeDue(m, now) ==> n.plan == m.pending.value.plan && n.pending == None)
            && (!ChangeDue(m, now) ==> n == m)
  {
  }

  /** What a charge that has passed its checks says of the stored accounts. */
  lemma PullChargeFacts(w: World, env: S.Env, plan: Plan, pendingPlan: Option<Plan>, report: Option<i64>)
    requires Sane(w) && PullCharge(w, env, plan, pendingPlan, report).Ok?
    ensures var m, c := w.mandate, PullCharge(w, env, plan, pendingPlan, report).value;
            var n := c.mandate;
            && m.status == E.Active && m.recorded == m.pulls < m.maxPulls && !Billing.Expired(m, env.now)
            && env.now >= m.nextDue == c.end && Spendable(w, c.approval, env.now)
            && n == m.(plan := n.plan, amount := n.amount, frequency := n.frequency, maxPulls := n.maxPulls,
                       pending := n.pending)
            && n.frequency > 0
            && (ChangeDue(m, env.now) ==> n.plan == m.pending.value.plan && n.pending == None)
            && (!ChangeDue(m, env.now) ==> n == m)
            && c.moved + c.used == c.base <= n.amount && c.base <= c.approval.amount && c.used == Min(c.base, m.credit)
            && (m.billingType == E.Flat ==> c.base == n.amount)
            && (m.billingType == E.Usage ==> c.base == c.approval.amount && OpenReport(w, c.approval.periodStart))
  {
    hide Period, S.Gate, TokenAccepted, ApplyPending;
    PeriodFacts(w.mandate);
    AppliedPending(w.mandate, plan, pendingPlan, env.now);
  }

  lemma PullMoves(w: World, a: Act)
    requires Sane(w) && a.kind.DoPull? && Do(w, a).Ok?
    ensures Moves(w, a.env.now, Do(w, a).value.1, Do(w, a).value.0) && EntryFits(a.kind, Do(w, a).value.1)
  {
    hide RequestUsageComputation, UpdateMandatePlan, RequestBillingRecord, UsageCallback;
    hide PullCharge, MoveIfPositive, Spendable, OpenReport;
    PullChargeFacts(w, a.env, a.kind.plan, a.kind.pendingPlan, a.kind.report);
  }

  lemma RequestRecordMoves(w: World, a: Act)
    requires a.kind.DoRequestRecord? && Do(w, a).Ok?
    ensures Moves(w, a.env.now, Do(w, a).value.1, Do(w, a).value.0) && EntryFits(a.kind, Do(w, a).value.1)
  {
    hide RequestUsageComputation, ExecutePull, UpdateMandatePlan, RequestValidation;
  }

  lemma BillingCallbackMoves(w: World, a: Act)
    requires a.kind.OnRecord? && Do(w, a).Ok?
    ensures Moves(w, a.env.now, Do(w, a).value.1, Do(w, a).value.0) && EntryFits(a.kind, Do(w, a).value.1)
  {
    hide RequestUsageComputation, ExecutePull, UpdateMandatePlan, RequestValidation;
  }

  lemma UpdateMoves(w: World, a: Act)
    requires a.kind.DoUpdate? && Do(w, a).Ok?
    ensures Moves(w, a.env.now, Do(w, a).value.1, Do(w, a).value.0) && EntryFits(a.kind, Do(w, a).value.1)
  {
    hide RequestUsageComputation, ExecutePull, RequestBillingRecord, RequestValidation;
    hide Period, S.Gate, TokenAccepted, HandleTransfer, S.TokenAccounts, ProratedDelta, BillingPeriod;
    PeriodFacts(w.mandate);
  }

  lemma OtherMoves(w: World, a: Act)
    requires a.kind.DoSchedule? || a.kind.DoUnschedule? || a.kind.DoCancel? || a.kind.DoAdminCancel?
    requires Do(w, a).Ok?
    ensures Moves(w, a.env.now, Do(w, a).value.1, Do(w, a).value.0) && EntryFits(a.kind, Do(w, a).value.1)
  {
    hide RequestUsageComputation, ExecutePull, UpdateMandatePlan, RequestBillingRecord;
  }

  /** Whatever the arguments, an instruction is refused or makes the transition its log entry states. */
  lemma EveryStepMoves(w: World, a: Act)
    requires Sane(w)
    ensures Moves(w, a.env.now, EntryOf(w, a), After(w, a))
    ensures Do(w, a).Ok? ==> EntryFits(a.kind, EntryOf(w, a))
    ensures Sane(After(w, a)) && After(w, a).key == w.key
  {
    hide Do, Moves, EntryFits;
    if Do(w, a).Ok? {
      match a.kind
      case DoRequestValidation(_, _, _, _) => RequestValidationMoves(w, a);
      case OnValidation(_, _) => ValidationCallbackMoves(w, a);
      case DoSubmit(_, _, _, _) => SubmitMoves(w, a);
      case DoRequestUsage(_, _, _) => RequestUsageMoves(w, a);
      case OnUsage(_, _, _) => UsageCallbackMoves(w, a);
      case DoPull(_, _, _) => PullMoves(w, a);
      case DoRequestRecord(_, _, _) => RequestRecordMoves(w, a);
      case OnRecord(_, _, _) => BillingCallbackMoves(w, a);
      case DoUpdate(_, _) => UpdateMoves(w, a);
      case DoSchedule(_) => OtherMoves(w, a);
      case DoUnschedule => OtherMoves(w, a);
      case DoCancel(_) => OtherMoves(w, a);
      case DoAdminCancel(_, _) => OtherMoves(w, a);
    } else {
      RefusalMoves(w, a.env.now);
    }
    MovesKeepSane(w, a.env.now, EntryOf(w, a), After(w, a));
  }

  lemma RefusalMoves(w: World, now: i64)
    ensures Moves(w, now, Refused, w)
  {
  }

  lemma MovesKeepSane(w: World, now: i64, e: Entry, after: World)
    requires Sane(w) && Moves(w, now, e, after)
    ensures Sane(after) && after.key == w.key
  {
    hide TermsHash, Spendable, Bound, OpenReport;
  }

  // ---------------------------------------------------------------- histories

  /** A mandate as it is when its owner has just subscribed. */
  predicate Fresh(w: World) {
    var m := w.mandate;
    && Sane(w) && m.pulls == 0 && m.recorded == 0 && m.credit == 0
    && m.validationNonce == 0 && m.billingNonce == 0 && m.pending == None && m.status == E.Active
    && w.approval == None && w.requests == map[] && w.reports == map[] && w.events == map[] && w.queued == map[]
  }

  lemma {:induction false} RunSane(w: World, acts: seq<Act>)
    requires Sane(w)
    ensures Sane(Run(w, acts)) && Run(w, acts).key == w.key
  {
    hide After, EntryOf, Sane;
    if acts != [] {
      RunSane(w, acts[..|acts| - 1]);
      EveryStepMoves(Run(w, acts[..|acts| - 1]), acts[|acts| - 1]);
    }
  }

  /** Every entry of the log is a transition between the states around it. */
  lemma {:induction false} LogMoves(w: World, acts: seq<Act>, j: nat)
    requires Sane(w) && j < |acts|
    ensures Moves(Run(w, acts[..j]), acts[j].env.now, Log(w, acts)[j], Run(w, acts[..j + 1]))
    ensures Log(w, acts)[..j] == Log(w, acts[..j])
    ensures Log(w, acts)[..j + 1] == Log(w, acts[..j + 1])
  {
    hide After, EntryOf, Moves, Sane;
    LogPrefix(w, acts, j);
    LogPrefix(w, acts, j + 1);
    RunSane(w, acts[..j]);
    EveryStepMoves(Run(w, acts[..j]), acts[j]);
  }
}
