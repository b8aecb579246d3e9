/** Runs, from any mandate with the room for them, in which a property that one might expect of billing fails. */
module BillingExamples {
  import opened Base
  import opened Hook
  import E = Encoding
  import Pricing
  import opened Billing
  import opened BillingRuns
  import opened BillingMoney
  import opened BillingChanges
  import opened BillingPace
  import opened BillingProgress
  import opened BillingBlocks
  import opened BillingReady

  // ---------------------------------------------------------------- subscriptions

  /** A flat plan, by key, merchant, price, frequency and number of pulls. */
  function Flat(key: Key, merchant: Key, price: u64, frequency: u64, maxPulls: u64): Plan
    requires frequency > 0
  {
    PlanData(key, merchant, 0, E.Flat, price, frequency, 0, maxPulls, true, DEFAULT_KEY, ONE_RATE, 0)
  }

  /** A flat mandate that has just been subscribed to, for more than one pull. */
  predicate FlatStartable(w: World) {
    var m := w.mandate;
    && Fresh(w) && m.billingType == E.Flat && m.expiry == 0 && m.merchant != m.subscriber
    && 1 < m.nextDue <= HORIZON && m.frequency <= HORIZON && m.maxPulls > 1
  }

  /** Subscriptions give such mandates: here to an hourly plan for ten, an hour after time zero. */
  lemma SubscribedIsStartable(key: Key, subscriber: Key, merchant: Key)
    requires subscriber != merchant
    ensures var token := TokenConfig(11, true, TransferHook);
            var metered := Subscribe(Metered(1, merchant, 10, 3600), subscriber, 11, token, 3600);
            var flat := Subscribe(Flat(1, merchant, 10, 3600, 12), subscriber, 11, token, 3600);
            && metered.Ok? && Startable(World(key, metered.value, None, map[], map[], map[], map[]))
            && flat.Ok? && FlatStartable(World(key, flat.value, None, map[], map[], map[], map[]))
  {
  }

  // ---------------------------------------------------------------- a cap raised after the scheduling

  /** The merchant schedules another plan at the agreed cap. */
  function Schedule(w: World): Act
    requires w.mandate.frequency > 0 && 1 < w.mandate.nextDue
  {
    Act(At(w, w.mandate.nextDue - 1, w.mandate.merchant), DoSchedule(Faster(w, w.mandate.frequency)))
  }

  function Scheduled(w: World): World {
    w.(mandate := w.mandate.(pending := Some(Pending(w.mandate.plan + 1, w.mandate.nextDue))))
  }

  /** The scheduled plan after an update of its cap. */
  function Raised(w: World, cap: u64): Plan
    requires w.mandate.frequency > 0
  {
    Metered(w.mandate.plan + 1, w.mandate.merchant, cap, w.mandate.frequency)
  }

  lemma ScheduledNow(w: World)
    requires Startable(w)
    ensures w.mandate.frequency > 0 && 1 < w.mandate.nextDue
    ensures After(w, Schedule(w)) == Scheduled(w) && Ready(Scheduled(w))
  {
    hide Period;
    ReadyFacts(w);
  }

  lemma {:induction false} RaisedBilled(w: World, cap: u64)
    requires Startable(w) && Ready(Scheduled(w)) && w.mandate.frequency > 0 && cap > w.mandate.amount
    ensures Run(Scheduled(w), Bill(Scheduled(w), Some(Raised(w, cap)))).mandate.amount == cap
  {
    hide Run, Log, ChargeReady, TermsHash, Terms, Charged, Applies, UsageCycle, Ready, Period;
    var z, raised := Scheduled(w), Some(Raised(w, cap));
    ReadyFacts(z);
    RaisedReady(w, cap);
    var env := At(z, z.mandate.nextDue, Keeper(z));
    UsageCycleRuns(z, env, PlanOf(z), raised, 0, z.mandate.amount);
    RaisedConditions(w, cap);
    var n := Applied(z.mandate, PlanOf(z), raised, z.mandate.nextDue);
    ChargedAmount(Filed(z, PlanOf(z), 0, z.mandate.nextDue), PlanOf(z), n, z.mandate.amount, z.mandate.nextDue);
  }

  lemma RaisedReady(w: World, cap: u64)
    requires Startable(w) && Ready(Scheduled(w)) && w.mandate.frequency > 0 && cap > w.mandate.amount
    ensures var z := Scheduled(w);
            ChargeReady(z, At(z, z.mandate.nextDue, Keeper(z)), PlanOf(z), Some(Raised(w, cap)), z.mandate.amount)
  {
    hide ChargeReady, Period;
    ReadyToCharge(Scheduled(w), Some(Raised(w, cap)));
  }

  lemma RaisedConditions(w: World, cap: u64)
    requires Startable(w) && Ready(Scheduled(w)) && w.mandate.frequency > 0
    ensures var z := Scheduled(w);
            && Applies(z.mandate, PlanOf(z), Some(Raised(w, cap)), z.mandate.nextDue)
            && Applied(z.mandate, PlanOf(z), Some(Raised(w, cap)), z.mandate.nextDue).amount == cap
  {
    hide Sane;
  }

  lemma ChargedAmount(w: World, p: Plan, n: Mandate, charge: u64, now: i64)
    requires Period(w.mandate).Ok? && w.mandate.validationNonce < U64_MAX && PeriodStart(w.mandate) in w.reports
    requires n.pulls < U64_MAX && n.nextDue + n.frequency <= I64_MAX && n.frequency <= I64_MAX
    ensures Charged(w, p, n, charge, now).mandate.amount == n.amount
  {
    hide Period, Terms;
  }

  /** The merchant schedules a plan at the agreed cap, the plan's cap is raised, and the keeper's pull applies it: the
      price rises to any cap without the subscriber's signature. */
  lemma {:induction false} ScheduledCapRaised(w: World, cap: u64)
    requires Startable(w) && cap > w.mandate.amount
    ensures w.mandate.frequency > 0 && 1 < w.mandate.nextDue && Ready(Scheduled(w))
    ensures var acts := [Schedule(w)] + Bill(Scheduled(w), Some(Raised(w, cap)));
            && Clocked(acts) && Unsigned(acts, w.mandate.subscriber)
            && Run(w, acts).mandate.amount == cap > w.mandate.amount
  {
    hide Run, Log, Bill, Ready, Fresh, Period;
    ScheduledNow(w);
    OneStep(w, Schedule(w));
    RaisedBilled(w, cap);
    BillSteps(Scheduled(w), Some(Raised(w, cap)));
    RunAppend(w, [Schedule(w)], Bill(Scheduled(w), Some(Raised(w, cap))));
  }

  // ---------------------------------------------------------------- changes after a pull

  /** Billed once. */
  function Second(w: World): World
    requires Startable(w)
  {
    Run(w, Bill(w, None))
  }

  lemma {:induction false} SecondIsReady(w: World)
    requires Startable(w)
    ensures Ready(Second(w)) && Second(w).mandate == Billed(w.mandate)
    ensures IsSettled(Second(w), PeriodStart(w.mandate))
    ensures forall s :: s in Second(w).reports ==> s == PeriodStart(w.mandate)
    ensures forall slot :: !Waiting(Second(w), slot)
    ensures var e := Log(w, Bill(w, None))[3];
            e.Pulled? && e.end == w.mandate.nextDue && e.approval.periodStart == PeriodStart(w.mandate)
  {
    hide Sane, Run, Log, Bill, Period;
    BilledOnce(w);
    ReadyAgain(w);
  }

  function Once(w: World): Plan
    requires w.mandate.frequency > 0
  {
    Flat(w.mandate.plan + 1, w.mandate.merchant, w.mandate.amount, w.mandate.frequency, 1)
  }

  lemma {:induction false} TwiceBilled(w: World)
    requires Startable(w)
    ensures Ready(Second(w))
    ensures var twice := Bill(w, None) + Bill(Second(w), None);
            && Run(w, twice).mandate == Billed(Billed(w.mandate)) && Sane(Run(w, twice))
            && Clocked(twice) && TimeOf(twice) == w.mandate.nextDue + w.mandate.frequency
  {
    hide Sane, Run, Log, Bill, Ready, Second, Period;
    SecondIsReady(w);
    StartableIsReady(w);
    BilledOnce(Second(w));
    SecondIsRun(w);
    RunAppend(w, Bill(w, None), Bill(Second(w), None));
    BillSteps(w, None);
    BillSteps(Second(w), None);
    ReadyFacts(w);
  }

  lemma {:induction false} SecondIsRun(w: World)
    requires Startable(w)
    ensures Second(w) == Run(w, Bill(w, None))
  {
  }

  lemma StartableIsReady(w: World)
    requires Startable(w)
    ensures Ready(w) && w.mandate.pending == None && w.mandate.pulls == 0 && w.mandate.frequency > 0
    ensures 1 < w.mandate.nextDue <= HORIZON && w.mandate.frequency <= HORIZON && w.mandate.validationNonce == 0
    ensures w.mandate.amount <= Pricing.MAX_SAFE_USAGE_CHARGE
  {
  }

  lemma ClockedNext(acts: seq<Act>, a: Act)
    requires Clocked(acts) && a.env.now > 0 && TimeOf(acts) <= a.env.now
    ensures Clocked(acts + [a]) && TimeOf(acts + [a]) == a.env.now
  {
  }

  /** Two pulls, and then a change to a plan that allows one: the pulls exceed the maximum. */
  lemma {:induction false} MaximumLowered(w: World)
    requires Startable(w)
    ensures Ready(Second(w)) && w.mandate.frequency > 0
    ensures var twice := Bill(w, None) + Bill(Second(w), None);
            && 1 < Run(w, twice).mandate.nextDue
            && var acts := twice + [Update(Run(w, twice), Once(w))];
               Clocked(acts) && Run(w, acts).mandate.pulls == 2 > Run(w, acts).mandate.maxPulls == 1
  {
    hide Sane, Run, Log, Bill, Second, Ready, Startable, Clocked, TimeOf;
    StartableIsReady(w);
    TwiceBilled(w);
    var twice := Bill(w, None) + Bill(Second(w), None);
    var z := Run(w, twice);
    ChangedAtOnce(z, Once(w));
    RunAppend(w, twice, [Update(z, Once(w))]);
    OneStep(z, Update(z, Once(w)));
    ClockedNext(twice, Update(z, Once(w)));
  }

  /** One pull, and then a change of the periods. */
  function OnceAndChanged(w: World, frequency: u64): seq<Act>
    requires Startable(w) && frequency > 0 && 1 < Second(w).mandate.nextDue
  {
    Bill(w, None) + [Update(Second(w), Faster(w, frequency))]
  }

  lemma {:induction false} Rescheduled(w: World, frequency: u64)
    requires Startable(w) && frequency > 0
    ensures 1 < Second(w).mandate.nextDue
    ensures var acts := OnceAndChanged(w, frequency);
            && Clocked(acts) && Run(w, acts) == Switched(Second(w), Faster(w, frequency)) && |acts| == 5
            && TimeOf(acts) == Second(w).mandate.nextDue - 1 && Log(w, acts)[..4] == Log(w, Bill(w, None))
  {
    hide Sane, Run, Log, Bill, Second, Ready, Startable, Clocked, TimeOf;
    StartableIsReady(w);
    SecondIsReady(w);
    SecondIsRun(w);
    ReadyFacts(Second(w));
    ReadyIsActive(Second(w));
    var plan := Faster(w, frequency);
    ChangedAtOnce(Second(w), plan);
    RunAppend(w, Bill(w, None), [Update(Second(w), plan)]);
    OneStep(Second(w), Update(Second(w), plan));
    BillClocked(w);
    ClockedNext(Bill(w, None), Update(Second(w), plan));
  }

  lemma ReadyIsActive(w: World)
    requires Ready(w)
    ensures w.mandate.status == E.Active
  {
  }

  lemma {:induction false} BillClocked(w: World)
    requires Ready(w)
    ensures Clocked(Bill(w, None)) && TimeOf(Bill(w, None)) == w.mandate.nextDue && |Bill(w, None)| == 4
  {
    hide Bill;
    ReadyFacts(w);
    BillSteps(w, None);
  }

  /** One pull, and then a change to twice the frequency: the period starts where the settled one did, so no report,
      request, answer or pull is accepted any more. */
  lemma {:induction false} PeriodBlocked(w: World, a: Act)
    requires Startable(w) && (a.kind.DoSubmit? || a.kind.DoRequestUsage? || a.kind.OnUsage? || a.kind.DoPull?)
    ensures w.mandate.frequency > 0 && 2 * w.mandate.frequency <= U64_MAX && 1 < Second(w).mandate.nextDue
    ensures var acts := OnceAndChanged(w, 2 * w.mandate.frequency);
            Clocked(acts) && Run(w, acts).mandate.status == E.Active && Do(Run(w, acts), a).Err?
  {
    hide Sane, Run, Log, Second, Do, Ready, Clocked, OnceAndChanged, Startable;
    StartableIsReady(w);
    Rescheduled(w, 2 * w.mandate.frequency);
    SecondIsReady(w);
    ReadyIsActive(Second(w));
    var acts := OnceAndChanged(w, 2 * w.mandate.frequency);
    ReadyFacts(w);
    RunSane(w, acts);
    SettledPeriodBlocks(Run(w, acts), a);
  }

  /** One pull, a change to a longer period that starts inside the one pulled, and another pull: the seconds between the
      new start and the pulled end are billed twice. */
  lemma {:induction false} PeriodsOverlap(w: World, frequency: u64)
    requires Startable(w) && w.mandate.frequency < frequency < 2 * w.mandate.frequency && frequency <= HORIZON
    ensures 1 < Second(w).mandate.nextDue
    ensures var first, z := OnceAndChanged(w, frequency), Switched(Second(w), Faster(w, frequency));
            && Ready(z)
            && var acts := first + Bill(z, None);
               Clocked(acts) && !Disjoint(Log(w, acts))
  {
    hide Sane, Run, Log, Bill, Second, Ready, OnceAndChanged, Startable, TimeOf;
    StartableIsReady(w);
    SecondIsReady(w);
    Rescheduled(w, frequency);
    var first, z := OnceAndChanged(w, frequency), Switched(Second(w), Faster(w, frequency));
    LongerIsReady(w, frequency);
    BilledOnce(z);
    BillSteps(z, None);
    RunAppend(w, first, Bill(z, None));
    LastTime(first);
    var log := Log(w, first + Bill(z, None));
    assert log[3] == Log(w, first)[..4][3];
    assert log[8] == Log(z, Bill(z, None))[3];
  }

  lemma LastTime(acts: seq<Act>)
    requires acts != []
    ensures acts[|acts| - 1].env.now == TimeOf(acts)
  {
  }

  lemma {:induction false} LongerIsReady(w: World, frequency: u64)
    requires Startable(w) && w.mandate.frequency < frequency < 2 * w.mandate.frequency && frequency <= HORIZON
    ensures var z := Switched(Second(w), Faster(w, frequency));
            Ready(z) && z.mandate.pending == None && PeriodStart(z.mandate) < w.mandate.nextDue
  {
    hide Second, Period, Startable, Ready, Sane;
    StartableIsReady(w);
    SecondIsReady(w);
    SwitchedReady(Second(w), Faster(w, frequency));
  }

  lemma SwitchedReady(w: World, plan: Plan)
    requires Ready(w) && plan.billingType == E.Usage && plan.amount <= Pricing.MAX_SAFE_USAGE_CHARGE
    requires plan.frequency <= HORIZON && w.mandate.nextDue - plan.frequency !in w.reports
    requires !Waiting(w, Slot(UsageComputation, w.mandate.nextDue - plan.frequency))
    ensures Ready(Switched(w, plan))
  {
    hide Period;
  }

  // ---------------------------------------------------------------- a cap changed after the report

  /** The plan with another cap. */
  function Recapped(w: World, cap: u64): Plan
    requires w.mandate.frequency > 0
  {
    PlanOf(w).(amount := cap)
  }

  function Report(w: World): Act
    requires w.mandate.frequency > 0 && Period(w.mandate).Ok?
  {
    Filing(w, At(w, w.mandate.nextDue, w.mandate.merchant), PlanOf(w), 0)
  }

  /** A report is filed, and then the plan's cap is changed: the stored hash is stale, so while the changed plan stands
      no new report, request, answer or pull is accepted, although the report is not settled. */
  lemma {:induction false} TermsStale(w: World, cap: u64, acts: seq<Act>)
    requires Startable(w) && cap != w.mandate.amount && w.mandate.frequency > 0
    requires Upheld(acts, Recapped(w, cap)) && Onwards(acts, w.mandate.nextDue)
    ensures Period(w.mandate).Ok?
    ensures var z := After(w, Report(w));
            && EntryOf(w, Report(w)).Submitted? && !IsSettled(z, PeriodStart(w.mandate))
            && forall j :: 0 <= j < |acts| ==> !Advances(Log(z, acts)[j])
  {
    hide After, EntryOf, Unreportable, Log, Upheld, Onwards, Period, Ready;
    StartableIsReady(w);
    ReadyFacts(w);
    FiledAtStart(w);
    CapCommitted(PlanOf(w), Recapped(w, cap));
    StaleReport(w, cap);
    UnreportableBlocks(After(w, Report(w)), Recapped(w, cap), w.mandate.nextDue, acts);
  }

  lemma FiledAtStart(w: World)
    requires Startable(w) && w.mandate.frequency > 0 && Period(w.mandate).Ok?
    ensures After(w, Report(w)) == Filed(w, PlanOf(w), 0, w.mandate.nextDue) && EntryOf(w, Report(w)).Submitted?
  {
    hide TermsHash, Terms, PricingBounds, Period;
    ReadyFacts(w);
    MeteredBounds(w.mandate.plan, w.mandate.merchant, w.mandate.amount, w.mandate.frequency);
  }

  /** Plans that differ in their cap have different terms hashes. */
  lemma CapCommitted(p: Plan, q: Plan)
    requires p.amount != q.amount
    ensures TermsHash(Terms(p)) != TermsHash(Terms(q))
  {
    hide TermsHash;
    if TermsHash(Terms(p)) == TermsHash(Terms(q)) {
      TermsCommitted(Terms(p), Terms(q));
    }
  }

  lemma StaleReport(w: World, cap: u64)
    requires Startable(w) && w.mandate.frequency > 0 && Period(w.mandate).Ok?
    requires TermsHash(Terms(PlanOf(w))) != TermsHash(Terms(Recapped(w, cap)))
    ensures var z := Filed(w, PlanOf(w), 0, w.mandate.nextDue);
            Unreportable(z, Recapped(w, cap), w.mandate.nextDue) && !IsSettled(z, PeriodStart(w.mandate))
  {
    hide TermsHash, Terms, Period;
    ReadyFacts(w);
  }

  // ---------------------------------------------------------------- flat plans

  /** The subscriber schedules a dearer flat plan: while the schedule stands there is never another pull. */
  lemma {:induction false} UpgradeNeverComes(w: World, q: Plan, acts: seq<Act>)
    requires FlatStartable(w) && q.key != w.mandate.plan && q.amount > w.mandate.amount
    requires q.merchant == w.mandate.merchant && q.active
    requires forall i :: 0 <= i < |acts| ==> Retains(acts[i], w.mandate.plan, q)
    ensures var schedule := Act(At(w, w.mandate.nextDue - 1, w.mandate.subscriber), DoSchedule(q));
            && EntryOf(w, schedule) == Entry.Scheduled(q.key)
            && forall j :: 0 <= j < |acts| ==> !Log(After(w, schedule), acts)[j].Pulled?
  {
    hide Log, Retains;
    var schedule := Act(At(w, w.mandate.nextDue - 1, w.mandate.subscriber), DoSchedule(q));
    DearerScheduleBlocks(After(w, schedule), q, acts);
  }

  function FlatPlan(w: World): Plan
    requires w.mandate.frequency > 0
  {
    Flat(w.mandate.plan, w.mandate.merchant, w.mandate.amount, w.mandate.frequency, w.mandate.maxPulls)
  }

  /** A flat pull at the due date. */
  function FlatPull(w: World): seq<Act>
    requires w.mandate.frequency > 0 && w.mandate.validationNonce < U64_MAX
  {
    FlatCycle(w, At(w, w.mandate.nextDue, Keeper(w)), FlatPlan(w), None)
  }

  lemma FlatIsBillable(w: World)
    requires FlatStartable(w)
    ensures w.mandate.frequency > 0 && w.mandate.validationNonce < U64_MAX
    ensures Unasked(w, w.mandate.nextDue)
    ensures Billable(w, At(w, w.mandate.nextDue, Keeper(w)), FlatPlan(w), None)
    ensures Applied(w.mandate, FlatPlan(w), None, w.mandate.nextDue) == w.mandate
  {
  }

  lemma {:induction false} PulledOnce(w: World)
    requires FlatStartable(w)
    ensures w.mandate.frequency > 0 && w.mandate.validationNonce < U64_MAX
    ensures var z := Run(w, FlatPull(w));
            && Sane(z) && z.key == w.key && Clocked(FlatPull(w)) && Log(w, FlatPull(w))[2].Pulled?
            && z.mandate.pulls == 1 && z.mandate.recorded == 0 && z.mandate.status == E.Active
            && z.mandate.nextDue == w.mandate.nextDue + w.mandate.frequency
            && Held(z.mandate) == Held(w.mandate) && z.mandate.merchant == w.mandate.merchant
            && z.mandate.subscriber == w.mandate.subscriber && TimeOf(FlatPull(w)) == w.mandate.nextDue
  {
    hide Run, Log, Billable, Unasked, Applied, Sane;
    FlatIsBillable(w);
    FlatCycleSucceedsIff(w, At(w, w.mandate.nextDue, Keeper(w)), FlatPlan(w), None);
  }

  /** One flat pull, and a change to a usage plan of the same price before it is recorded: while that plan stands the
      pull is never recorded, and there is never another. */
  lemma {:induction false} RecordNeverComes(w: World, acts: seq<Act>)
    requires FlatStartable(w) && w.mandate.frequency > 0 && Upheld(acts, Faster(w, w.mandate.frequency))
    ensures w.mandate.validationNonce < U64_MAX
    ensures var z := Run(w, FlatPull(w));
            && 1 < z.mandate.nextDue
            && var change := Update(z, Faster(w, w.mandate.frequency));
               && Clocked(FlatPull(w) + [change]) && After(z, change).mandate.billingType == E.Usage
               && forall j :: 0 <= j < |acts| ==> !PullsOrRecords(Log(After(z, change), acts)[j])
  {
    hide Run, Log, Do, After, Upheld, FlatPull, Clocked, TimeOf, Fresh, Sane;
    PulledOnce(w);
    var z, plan := Run(w, FlatPull(w)), Faster(w, w.mandate.frequency);
    PeriodInRange(z.mandate);
    ChangedAtOnce(z, plan);
    ClockedNext(FlatPull(w), Update(z, plan));
    EveryStepMoves(z, Update(z, plan));
    UnrecordedBlocks(After(z, Update(z, plan)), plan, acts);
  }

  lemma PeriodInRange(m: Mandate)
    requires 1 < m.nextDue && m.frequency <= HORIZON
    ensures Period(m).Ok?
  {
  }
}
