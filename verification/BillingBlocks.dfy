/** What blocks pull billing, and so exactly when a usage period can be billed. */
module BillingBlocks {
  import opened Base
  import opened Hook
  import S = Streaming
  import E = Encoding
  import opened Billing
  import opened BillingRuns
  import opened BillingMoney
  import opened BillingChanges
  import opened BillingProgress

  // ---------------------------------------------------------------- reports that block a period

  /** The plan stands: no other version of it is passed, and no other plan is taken over at once. */
  predicate Upholds(a: Act, p: Plan) {
    match a.kind
    case DoRequestValidation(plan, _, _, _) => plan.key == p.key ==> plan == p
    case DoSubmit(plan, _, _, _) => plan.key == p.key ==> plan == p
    case DoRequestUsage(plan, _, _) => plan.key == p.key ==> plan == p
    case DoPull(plan, _, _) => plan.key == p.key ==> plan == p
    case DoRequestRecord(plan, _, _) => plan.key == p.key ==> plan == p
    case OnRecord(_, plan, _) => plan.key == p.key ==> plan == p
    case DoUpdate(plan, _) => plan.key == p.key
    case _ => true
  }

  predicate Upheld(acts: seq<Act>, p: Plan) {
    forall i :: 0 <= i < |acts| ==> Upholds(acts[i], p)
  }

  predicate Onwards(acts: seq<Act>, now: i64) {
    forall i :: 0 <= i < |acts| ==> acts[i].env.now >= now
  }

  /** A step towards a usage pull. */
  predicate Advances(e: Entry) {
    e.Submitted? || e.Accepted? || e.Pulled? || (e.Requested? && e.offset.slot.flow == UsageComputation)
  }

  /** The report of the period is settled, or for other terms, parties or times. */
  predicate Unreportable(w: World, p: Plan, now: i64) {
    && Sane(w) && w.mandate.plan == p.key && w.mandate.billingType == E.Usage
    && UsageUnasked(w, now) && !Reportable(w, p)
  }

  lemma UsageRequestNeedsReport(w: World, a: Act, p: Plan)
    requires Sane(w) && w.mandate.plan == p.key && Upholds(a, p) && Do(w, a).Ok?
    requires EntryOf(w, a).Requested? && EntryOf(w, a).offset.slot.flow == UsageComputation
    ensures ReportOpen(w, p)
  {
    hide Period, TermsHash, Terms, PricingBounds, QueueApproval, ValidationGuards;
    PeriodFacts(w.mandate);
    QueuedOffset(w, a);
  }

  lemma QueuedOffset(w: World, a: Act)
    requires Sane(w) && Do(w, a).Ok? && EntryOf(w, a).Requested?
    ensures a.kind.DoRequestValidation? ==> EntryOf(w, a).offset.slot.flow == Validation
    ensures a.kind.DoRequestRecord? ==> EntryOf(w, a).offset.slot.flow == BillingRecord
    ensures a.kind.DoRequestUsage? ==> EntryOf(w, a).offset.slot.flow == UsageComputation
    ensures a.kind.DoRequestValidation? || a.kind.DoRequestUsage? || a.kind.DoRequestRecord?
  {
    hide Sane, Moves, Do;
    EveryStepMoves(w, a);
  }

  lemma ChangedOnlyByUpdate(w: World, a: Act)
    requires Sane(w) && EntryOf(w, a).Changed?
    ensures a.kind.DoUpdate? && a.kind.plan.key != w.mandate.plan
  {
    hide Moves, ChangeGuards;
    EveryStepMoves(w, a);
  }

  lemma {:induction false} UnreportableKept(w: World, p: Plan, now: i64, a: Act)
    requires Unreportable(w, p, now) && a.env.now >= now && Upholds(a, p)
    ensures !Advances(EntryOf(w, a)) && Unreportable(After(w, a), p, now)
  {
    hide Do, Sane, Upholds, TermsHash, Terms, Moves, After, EntryOf;
    EveryStepMoves(w, a);
    var e := EntryOf(w, a);
    if e.Requested? && e.offset.slot.flow == UsageComputation && Do(w, a).Ok? {
      UsageRequestNeedsReport(w, a, p);
    }
    RefusedIff(w, a);
    if e.Changed? {
      ChangedOnlyByUpdate(w, a);
      UpdatesElsewhere(a, p);
    }
    NothingAdvances(w, a.env.now, e, After(w, a), p, now);
  }

  lemma UpdatesElsewhere(a: Act, p: Plan)
    requires Upholds(a, p) && a.kind.DoUpdate?
    ensures a.kind.plan.key == p.key
  {
  }

  lemma NothingAdvances(w: World, at: i64, e: Entry, after: World, p: Plan, now: i64)
    requires Unreportable(w, p, now) && Moves(w, at, e, after) && at >= now && Sane(after) && !e.Changed?
    requires !(e.Requested? && e.offset.slot.flow == UsageComputation)
    ensures !Advances(e) && Unreportable(after, p, now)
  {
    hide Sane, TermsHash, Terms, Busy, SameNonces;
  }

  /** While the plan stands such a period can be neither reported, nor approved, nor pulled. */
  lemma {:induction false} UnreportableBlocks(w: World, p: Plan, now: i64, acts: seq<Act>)
    requires Unreportable(w, p, now) && Upheld(acts, p) && Onwards(acts, now)
    ensures Unreportable(Run(w, acts), p, now)
    ensures forall j :: 0 <= j < |acts| ==> !Advances(Log(w, acts)[j])
  {
    hide Unreportable, After, EntryOf, Upholds;
    if acts != [] {
      var n := |acts| - 1;
      UnreportableBlocks(w, p, now, acts[..n]);
      UnreportableKept(Run(w, acts[..n]), p, now, acts[n]);
    }
  }

  /** A settled report under the start of the present period blocks it: no report, no request, no answer and no pull
      is accepted, whatever the arguments. */
  lemma SettledPeriodBlocks(w: World, a: Act)
    requires Sane(w) && w.mandate.billingType == E.Usage && IsSettled(w, PeriodStart(w.mandate))
    requires a.kind.DoSubmit? || a.kind.DoRequestUsage? || a.kind.OnUsage? || a.kind.DoPull?
    ensures Do(w, a).Err?
  {
    hide TermsHash, Terms, Bind, Grant, NextOffset, QueueApproval, PricingBounds, PullGuards, Move, BaseCharge,
         CommitPull, ApplyPending;
    hide Period;
    PeriodFacts(w.mandate);
    match a.kind
    case DoSubmit(_, _, _, _) =>
    case DoRequestUsage(_, _, _) =>
    case OnUsage(_, _, _) =>
    case DoPull(plan, _, _) =>
      if PullGuards(w, a.env, plan).Ok? {
        PullGuardsPeriod(w, a.env, plan);
      }
  }

  // ---------------------------------------------------------------- unrecorded pulls

  /** A usage mandate whose last pull, made while it was flat, is not recorded. */
  predicate Unrecorded(w: World, p: Plan) {
    && Sane(w) && w.mandate.plan == p.key && w.mandate.billingType == E.Usage && p.billingType == E.Usage
    && w.mandate.recorded != w.mandate.pulls
  }

  /** A pull, or a step towards its record. */
  predicate PullsOrRecords(e: Entry) {
    e.Pulled? || e.Recorded? || (e.Requested? && e.offset.slot.flow == BillingRecord)
  }

  lemma RecordNeedsFlat(w: World, a: Act)
    requires Sane(w) && Do(w, a).Ok? && PullsOrRecords(EntryOf(w, a)) && !a.kind.DoPull?
    ensures a.kind.DoRequestRecord? || a.kind.OnRecord?
    ensures a.kind.plan.key == w.mandate.plan && a.kind.plan.billingType == E.Flat
  {
    hide Sane, Moves, Do, QueueApproval, Start, BillingPeriod, Bind;
    EveryStepMoves(w, a);
    if EntryOf(w, a).Requested? {
      QueuedOffset(w, a);
    }
    FlatRecord(w, a);
  }

  lemma FlatRecord(w: World, a: Act)
    requires Do(w, a).Ok? && (a.kind.DoRequestRecord? || a.kind.OnRecord?)
    ensures a.kind.plan.key == w.mandate.plan && a.kind.plan.billingType == E.Flat
  {
    hide Start, BillingPeriod, Bind;
  }

  lemma {:induction false} UnrecordedKept(w: World, p: Plan, a: Act)
    requires Unrecorded(w, p) && Upholds(a, p)
    ensures !PullsOrRecords(EntryOf(w, a)) && Unrecorded(After(w, a), p)
  {
    hide Do, Sane, Moves, After, EntryOf;
    EveryStepMoves(w, a);
    RefusedIff(w, a);
    var e := EntryOf(w, a);
    if e.Changed? {
      ChangedOnlyByUpdate(w, a);
    }
    if PullsOrRecords(e) && !a.kind.DoPull? {
      RecordNeedsFlat(w, a);
    }
    UnrecordedEffect(w, a.env.now, e, After(w, a));
  }

  lemma UnrecordedEffect(w: World, now: i64, e: Entry, after: World)
    requires Moves(w, now, e, after) && w.mandate.recorded != w.mandate.pulls
    ensures !e.Pulled?
    ensures !e.Changed? && !e.Recorded? ==>
              && Held(after.mandate) == Held(w.mandate)
              && after.mandate.recorded == w.mandate.recorded && after.mandate.pulls == w.mandate.pulls
  {
    hide TermsHash, Bound, OpenReport, InPeriod, Busy, Spendable;
  }

  /** While a usage plan stands, such a mandate can be neither pulled nor its last pull recorded. */
  lemma {:induction false} UnrecordedBlocks(w: World, p: Plan, acts: seq<Act>)
    requires Unrecorded(w, p) && Upheld(acts, p)
    ensures Unrecorded(Run(w, acts), p)
    ensures forall j :: 0 <= j < |acts| ==> !PullsOrRecords(Log(w, acts)[j])
  {
    hide Unrecorded, After, EntryOf, Upholds;
    if acts != [] {
      var n := |acts| - 1;
      UnrecordedBlocks(w, p, acts[..n]);
      UnrecordedKept(Run(w, acts[..n]), p, acts[n]);
    }
  }

  // ---------------------------------------------------------------- dearer plans

  /** A flat mandate with a dearer plan scheduled, and no larger approval. */
  predicate DearerScheduled(w: World, q: Plan) {
    var m := w.mandate;
    && Sane(w) && m.billingType == E.Flat && m.amount < q.amount && m.plan != q.key
    && m.pending.Some? && m.pending.value.plan == q.key && m.pending.value.effectiveAt <= m.nextDue
    && (w.approval.Some? && w.approval.value.approved ==> w.approval.value.amount <= m.amount)
  }

  /** The scheduled plan stands: it is not dropped, no other is scheduled or taken over at once, and a pull passes no
      other version of it. */
  predicate Retains(a: Act, current: Key, q: Plan) {
    match a.kind
    case DoPull(_, pendingPlan, _) => pendingPlan.Some? && pendingPlan.value.key == q.key ==> pendingPlan.value == q
    case DoUpdate(plan, _) => plan.key == current
    case DoSchedule(plan) => plan.key == q.key || plan.key == current
    case DoUnschedule => false
    case _ => true
  }

  lemma {:induction false} DearerKept(w: World, q: Plan, a: Act)
    requires DearerScheduled(w, q) && Retains(a, w.mandate.plan, q)
    ensures !EntryOf(w, a).Pulled?
    ensures DearerScheduled(After(w, a), q) && After(w, a).mandate.plan == w.mandate.plan
  {
    hide Do, Sane, Moves, After, EntryOf, Held, Offered;
    EveryStepMoves(w, a);
    RefusedIff(w, a);
    var e := EntryOf(w, a);
    if e.Changed? {
      ChangedOnlyByUpdate(w, a);
    }
    if e != Refused {
      OtherEntries(a.kind, e);
      ScheduledEntries(w, a);
    }
    if e.Pulled? {
      NoDearerPull(w, q, a);
    }
    DearerEffect(w, a.env.now, e, After(w, a), q);
  }

  lemma ScheduledEntries(w: World, a: Act)
    requires Do(w, a).Ok? && EntryFits(a.kind, EntryOf(w, a))
    ensures EntryOf(w, a).Scheduled? ==> a.kind.DoSchedule? && EntryOf(w, a).plan == a.kind.plan.key != w.mandate.plan
    ensures EntryOf(w, a).Unscheduled? ==> a.kind.DoUnschedule?
  {
    hide RequestValidation, ValidationCallback, SubmitUsageReport, RequestUsageComputation, UsageCallback, ExecutePull,
         RequestBillingRecord, BillingCallback, UpdateMandatePlan, SchedulePlanChange;
    if EntryOf(w, a).Scheduled? {
      assert a.kind.DoSchedule?;
      NewSchedule(w, a.env, a.kind.plan);
    }
  }

  lemma NewSchedule(w: World, env: S.Env, plan: Plan)
    requires SchedulePlanChange(w, env, plan).Ok? && SchedulePlanChange(w, env, plan).value.1.Scheduled?
    ensures plan.key != w.mandate.plan
  {
  }

  lemma NoDearerPull(w: World, q: Plan, a: Act)
    requires DearerScheduled(w, q) && Retains(a, w.mandate.plan, q)
    ensures !EntryOf(w, a).Pulled?
  {
    hide Do, Sane, Moves, After, EntryOf, Held;
    EveryStepMoves(w, a);
    RefusedIff(w, a);
    if EntryOf(w, a).Pulled? {
      OtherEntries(a.kind, EntryOf(w, a));
      ConditionsFollow(w, a);
      PlanAfterPull(w, a.env.now, EntryOf(w, a), After(w, a));
      FlatPullWithin(w, a.env.now, EntryOf(w, a), After(w, a));
      HeldParts(After(w, a).mandate);
      HeldParts(w.mandate);
    }
  }

  lemma HeldParts(m: Mandate)
    ensures Held(m).plan == m.plan && Held(m).amount == m.amount
  {
  }

  lemma FlatPullWithin(w: World, now: i64, e: Entry, after: World)
    requires Moves(w, now, e, after) && e.Pulled? && w.mandate.billingType == E.Flat
    ensures w.approval.Some? && w.approval.value.approved && after.mandate.amount <= w.approval.value.amount
    ensures now >= w.mandate.nextDue
    ensures e.planChanged <==> w.mandate.pending.Some? && now >= w.mandate.pending.value.effectiveAt
  {
    hide OpenReport, InPeriod, SameNonces, SameParties;
  }

  lemma DearerEffect(w: World, now: i64, e: Entry, after: World, q: Plan)
    requires DearerScheduled(w, q) && Moves(w, now, e, after) && Sane(after)
    requires !e.Pulled? && !e.Changed? && !e.Unscheduled?
    requires e.Scheduled? ==> e.plan == q.key
    ensures DearerScheduled(after, q) && after.mandate.plan == w.mandate.plan
  {
    hide Sane, TermsHash, OpenReport, InPeriod, Busy, Spendable;
  }

  /** A flat mandate never gets to a dearer plan by scheduling it: every pull is refused while the schedule stands. */
  lemma {:induction false} DearerScheduleBlocks(w: World, q: Plan, acts: seq<Act>)
    requires DearerScheduled(w, q) && forall i :: 0 <= i < |acts| ==> Retains(acts[i], w.mandate.plan, q)
    ensures DearerScheduled(Run(w, acts), q) && Run(w, acts).mandate.plan == w.mandate.plan
    ensures forall j :: 0 <= j < |acts| ==> !Log(w, acts)[j].Pulled?
  {
    hide DearerScheduled, After, EntryOf, Retains;
    if acts != [] {
      var n := |acts| - 1;
      DearerScheduleBlocks(w, q, acts[..n]);
      DearerKept(Run(w, acts[..n]), q, acts[n]);
    }
  }

  // ---------------------------------------------------------------- exactly when usage is billed

  /** The plan stands over the run, and a pull of it is accepted. */
  ghost predicate Collects(w: World, acts: seq<Act>, p: Plan, now: i64) {
    Upheld(acts, p) && Onwards(acts, now) && exists i :: 0 <= i < |acts| && Log(w, acts)[i].Pulled?
  }

  lemma {:induction false} UsageBilled(w: World, env: S.Env, p: Plan, pendingPlan: Option<Plan>, charge: u64)
    requires ChargeReady(w, env, p, pendingPlan, charge) && w.mandate.recorded == w.mandate.pulls && Reportable(w, p)
    ensures exists acts :: Collects(w, acts, p, env.now)
  {
    hide ChargeReady, ReportOpen, Sane, Log, Applies, Applied, Charged, Filed, Run;
    ReadyParts(w, env, p, pendingPlan, charge);
    CyclesStand(w, env, p, pendingPlan, charge);
    hide ChargeCycle, UsageCycle, Upheld, Onwards;
    if ReportOpen(w, p) {
      ChargeCycleRuns(w, env, p, pendingPlan, charge);
      assert Collects(w, ChargeCycle(w, env, p, pendingPlan, charge), p, env.now);
    } else {
      UsageCycleRuns(w, env, p, pendingPlan, 0, charge);
      assert Collects(w, UsageCycle(w, env, p, pendingPlan, 0, charge), p, env.now);
    }
  }

  lemma CyclesStand(w: World, env: S.Env, p: Plan, pendingPlan: Option<Plan>, charge: u64)
    requires Period(w.mandate).Ok? && w.mandate.validationNonce < U64_MAX
    ensures var acts := ChargeCycle(w, env, p, pendingPlan, charge);
            Upheld(acts, p) && Onwards(acts, env.now) && |acts| == 3
    ensures var acts := UsageCycle(w, env, p, pendingPlan, 0, charge);
            Upheld(acts, p) && Onwards(acts, env.now) && |acts| == 4
  {
    hide Period;
  }

  /** Progress of usage billing: a period that is due, with no request pending and no approval live, can be billed while
      the plan stands exactly when the last pull is recorded and the period has no report yet or an open one for the
      plan's present terms. */
  lemma {:induction false} UsageBilledIff(w: World, env: S.Env, p: Plan, pendingPlan: Option<Plan>, charge: u64)
    requires ChargeReady(w, env, p, pendingPlan, charge)
    ensures w.mandate.recorded == w.mandate.pulls && Reportable(w, p) <==> exists acts :: Collects(w, acts, p, env.now)
  {
    hide ChargeReady, Reportable, Upheld, Onwards, Sane, Log;
    ReadyParts(w, env, p, pendingPlan, charge);
    if w.mandate.recorded != w.mandate.pulls {
      forall acts | Collects(w, acts, p, env.now)
        ensures false
      {
        UnrecordedBlocks(w, p, acts);
      }
    } else if Reportable(w, p) {
      UsageBilled(w, env, p, pendingPlan, charge);
    } else {
      forall acts | Collects(w, acts, p, env.now)
        ensures false
      {
        UnreportableBlocks(w, p, env.now, acts);
      }
    }
  }
}
