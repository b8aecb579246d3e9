/** Usage mandates with everything in order: what billing a period leaves, and exactly how fast money can move. */
module BillingReady {
  import opened Base
  import opened Hook
  import S = Streaming
  import E = Encoding
  import Pricing
  import Proration
  import opened Billing
  import opened BillingRuns
  import opened BillingProofs
  import opened BillingMoney
  import opened BillingChanges
  import opened BillingPace
  import opened BillingProgress

  // ---------------------------------------------------------------- billing a usage mandate

  const ONE_RATE: seq<Pricing.Tier> :=
    [Pricing.Tier(0, 1), Pricing.NO_TIER, Pricing.NO_TIER, Pricing.NO_TIER, Pricing.NO_TIER]

  /** A usage plan, by key, merchant, cap and frequency. */
  function Metered(key: Key, merchant: Key, cap: u64, frequency: u64): Plan
    requires frequency > 0
  {
    PlanData(key, merchant, 0, E.Usage, cap, frequency, 0, 0, true, DEFAULT_KEY, ONE_RATE, 1)
  }

  /** The plan of a usage mandate. */
  function PlanOf(w: World): Plan
    requires w.mandate.frequency > 0
  {
    Metered(w.mandate.plan, w.mandate.merchant, w.mandate.amount, w.mandate.frequency)
  }

  lemma MeteredBounds(key: Key, merchant: Key, cap: u64, frequency: u64)
    requires frequency > 0 && cap <= Pricing.MAX_SAFE_USAGE_CHARGE
    ensures PricingBounds(Metered(key, merchant, cap, frequency)).Ok?
  {
    var p := Metered(key, merchant, cap, frequency);
    assert p.tiers[..1] == [Pricing.Tier(0, 1)];
    assert Pricing.BoundedTiers([Pricing.Tier(0, 1)]);
  }

  /** Anyone but the subscriber. */
  function Keeper(w: World): Key {
    w.mandate.subscriber + 1
  }

  /** Everything in order: the token accepted, the accounts those of the mandate, and funds without end. */
  function At(w: World, now: i64, signer: Key): S.Env {
    S.Env(now, w.key, signer, Keeper(w), ProtocolConfig(false, 3, 9, 11), 3, 9, 11,
          Some(TokenConfig(11, true, TransferHook)),
          TokenAccount(20, 11, w.key, U64_MAX), TokenAccount(21, 11, w.mandate.merchant, 0))
  }

  const HORIZON: int := 0x1000_0000_0000_0000

  /** A usage mandate that can be billed for its period at its due date. */
  predicate Ready(w: World) {
    var m := w.mandate;
    && Sane(w) && w.approval == None && m.billingType == E.Usage && m.status == E.Active && m.expiry == 0
    && m.amount <= Pricing.MAX_SAFE_USAGE_CHARGE && m.credit == 0 && m.maxPulls == U64_MAX
    && m.recorded == m.pulls < HORIZON && m.validationNonce < HORIZON
    && 1 < m.nextDue <= 2 * HORIZON && m.frequency <= HORIZON
    && !Waiting(w, Slot(UsageComputation, PeriodStart(m))) && PeriodStart(m) !in w.reports
  }

  lemma ReadyFacts(w: World)
    requires Ready(w)
    ensures Sane(w) && w.mandate.frequency > 0 && 1 < w.mandate.nextDue && w.mandate.validationNonce < U64_MAX
    ensures Period(w.mandate) == Ok((PeriodStart(w.mandate), w.mandate.nextDue))
  {
  }

  lemma ReadyToCharge(w: World, pendingPlan: Option<Plan>)
    requires Ready(w)
    requires w.mandate.pending.Some? ==>
               && pendingPlan.Some? && w.mandate.pending.value.effectiveAt == w.mandate.nextDue
               && w.mandate.amount <= pendingPlan.value.amount && pendingPlan.value.frequency <= HORIZON
               && pendingPlan.value == Metered(w.mandate.pending.value.plan, w.mandate.merchant,
                                               pendingPlan.value.amount, pendingPlan.value.frequency)
    ensures w.mandate.frequency > 0
    ensures ChargeReady(w, At(w, w.mandate.nextDue, Keeper(w)), PlanOf(w), pendingPlan, w.mandate.amount)
  {
    hide Pricing.BoundedTiers, PricingBounds;
    MeteredBounds(w.mandate.plan, w.mandate.merchant, w.mandate.amount, w.mandate.frequency);
  }

  /** The period is billed at its due date, for all that the mandate allows. */
  function Bill(w: World, pendingPlan: Option<Plan>): seq<Act>
    requires Ready(w)
  {
    ReadyFacts(w);
    UsageCycle(w, At(w, w.mandate.nextDue, Keeper(w)), PlanOf(w), pendingPlan, 0, w.mandate.amount)
  }

  /** The steps are made at the due date, without the subscriber, and only the last one pulls. */
  lemma {:induction false} BillSteps(w: World, pendingPlan: Option<Plan>)
    requires Ready(w)
    ensures var acts := Bill(w, pendingPlan);
            && |acts| == 4
            && (forall i :: 0 <= i < 4 ==> acts[i].env.now == w.mandate.nextDue)
            && (forall i :: 0 <= i < 4 ==> acts[i].env.signer == Keeper(w) || acts[i].env.signer == w.mandate.merchant)
            && (forall i :: 0 <= i < 4 ==> !acts[i].kind.DoUpdate? && !acts[i].kind.DoSchedule?)
            && (forall i :: 0 <= i < 3 ==> !acts[i].kind.DoPull?)
            && acts[3].kind.DoPull?
  {
    hide Period;
    ReadyFacts(w);
  }

  /** The mandate after a bill under an unchanged plan. */
  function Billed(m: Mandate): Mandate
    requires m.pulls < HORIZON && m.nextDue <= 2 * HORIZON && m.frequency <= HORIZON && m.validationNonce < HORIZON
  {
    m.(pulls := m.pulls + 1, nextDue := m.nextDue + m.frequency, lastPullAt := m.nextDue, recorded := m.pulls + 1,
       validationNonce := m.validationNonce + 1)
  }

  /** Billing a period of an unchanged plan moves the whole amount and leaves the report settled and no request
      pending. */
  lemma {:induction false} BilledOnce(w: World)
    requires Ready(w) && w.mandate.pending == None
    ensures var acts := Bill(w, None);
            var z := Run(w, acts);
            && z.mandate == Billed(w.mandate) && z.key == w.key && z.approval == None && Sane(z)
            && (forall s :: s in z.reports <==> s in w.reports || s == PeriodStart(w.mandate))
            && IsSettled(z, PeriodStart(w.mandate))
            && (forall slot :: Waiting(z, slot) ==> Waiting(w, slot))
    ensures var e := Log(w, Bill(w, None))[3];
            && e.Pulled? && e.end == w.mandate.nextDue && e.approval.periodStart == PeriodStart(w.mandate)
            && e.moved == w.mandate.amount
  {
    hide Sane, Run, Log, ChargeReady, TermsHash, Terms, UsageCycle, Period, Applies, Charged;
    ReadyFacts(w);
    ReadyToCharge(w, None);
    var env := At(w, w.mandate.nextDue, Keeper(w));
    UsageCycleRuns(w, env, PlanOf(w), None, 0, w.mandate.amount);
    RunSane(w, Bill(w, None));
    ChargedIs(w, PlanOf(w), 0, w.mandate.amount, w.mandate.nextDue);
  }

  lemma {:induction false} ChargedIs(w: World, p: Plan, units: Ciphertext, charge: u64, now: i64)
    requires Ready(w) && now == w.mandate.nextDue
    ensures Period(w.mandate).Ok? && PeriodStart(w.mandate) in Filed(w, p, units, now).reports
    ensures w.mandate.validationNonce < U64_MAX && w.mandate.pulls < U64_MAX
    ensures w.mandate.nextDue + w.mandate.frequency <= I64_MAX && w.mandate.frequency <= I64_MAX
    ensures var z := Charged(Filed(w, p, units, now), p, w.mandate, charge, now);
            && z.mandate == Billed(w.mandate) && z.approval == None
            && (forall s :: s in z.reports <==> s in w.reports || s == PeriodStart(w.mandate))
            && IsSettled(z, PeriodStart(w.mandate))
            && (forall slot :: Waiting(z, slot) ==> Waiting(w, slot))
  {
    hide Sane, TermsHash, Terms, Period;
    ReadyFacts(w);
  }

  /** So the next period can be billed too, unless a report is stored under its start. */
  lemma {:induction false} ReadyAgain(w: World)
    requires Ready(w) && w.mandate.pending == None
    requires w.mandate.nextDue + w.mandate.frequency <= 2 * HORIZON
    requires w.mandate.pulls + 1 < HORIZON && w.mandate.validationNonce + 1 < HORIZON
    requires w.mandate.nextDue !in w.reports && !Waiting(w, Slot(UsageComputation, w.mandate.nextDue))
    ensures Ready(Run(w, Bill(w, None)))
  {
    hide Sane, Run, Bill;
    ReadyFacts(w);
    BilledOnce(w);
  }

  /** At an unchanged price an immediate change neither charges nor credits. */
  lemma ChangedAtOnce(w: World, plan: Plan)
    requires Sane(w) && w.mandate.status == E.Active && Period(w.mandate).Ok? && 1 < w.mandate.nextDue
    requires plan.amount == w.mandate.amount && plan.key != w.mandate.plan && plan.merchant == w.mandate.merchant
    requires plan.active && plan.billingMint == DEFAULT_KEY
    ensures After(w, Update(w, plan)) == w.(mandate := Switch(w.mandate, plan))
  {
    hide Sane, Proration.ComputeProration, Proration.RoundHalfUp, Period, ElapsedInPeriod;
    var now := w.mandate.nextDue - 1;
    Proration.RoundingDivides();
    SaneFrequency(w);
    ProrationOfChange(w.mandate, plan, now, Proration.RoundHalfUp);
    assert ProratedDelta(w.mandate, plan, now, Proration.RoundHalfUp) == Ok(0);
  }

  lemma SaneFrequency(w: World)
    requires Sane(w)
    ensures w.mandate.frequency > 0
  {
  }

  /** An immediate change a second before the due date. */
  function Update(w: World, plan: Plan): Act
    requires 1 < w.mandate.nextDue
  {
    Act(At(w, w.mandate.nextDue - 1, w.mandate.merchant), DoUpdate(plan, Proration.RoundHalfUp))
  }

  // ---------------------------------------------------------------- money against time

  lemma {:induction false} MovedTotalAppend(xs: seq<Entry>, ys: seq<Entry>)
    ensures MovedTotal(xs + ys) == MovedTotal(xs) + MovedTotal(ys)
  {
    hide MovedBy;
    if ys == [] {
      assert xs + ys == xs;
    } else {
      assert (xs + ys)[..|xs + ys| - 1] == xs + ys[..|ys| - 1];
      MovedTotalAppend(xs, ys[..|ys| - 1]);
    }
  }

  /** Only pulls and changes move money. */
  lemma {:induction false} QuietStep(w: World, acts: seq<Act>, j: nat)
    requires Sane(w) && j < |acts| && !acts[j].kind.DoPull? && !acts[j].kind.DoUpdate?
    ensures MovedBy(Log(w, acts)[j]) == 0
  {
    hide Run, Log, Sane, Do, After, EntryOf, MovedBy;
    LogPrefix(w, acts, j);
    RunSane(w, acts[..j]);
    EveryStepMoves(Run(w, acts[..j]), acts[j]);
    RefusedIff(Run(w, acts[..j]), acts[j]);
    if Log(w, acts)[j] != Refused {
      OtherEntries(acts[j].kind, Log(w, acts)[j]);
    }
    OnlyChargesMove(Log(w, acts)[j]);
  }

  lemma {:induction false} BillMoves(w: World)
    requires Ready(w) && w.mandate.pending == None
    ensures MovedTotal(Log(w, Bill(w, None))) == w.mandate.amount
  {
    hide Run, Log, Sane, Bill, MovedBy, MovedTotal;
    ReadyFacts(w);
    BilledOnce(w);
    BillSteps(w, None);
    var acts, log := Bill(w, None), Log(w, Bill(w, None));
    QuietStep(w, acts, 0);
    QuietStep(w, acts, 1);
    QuietStep(w, acts, 2);
    FourEntries(log);
    PullMovesIts(log[3]);
  }

  lemma PullMovesIts(e: Entry)
    requires e.Pulled?
    ensures MovedBy(e) == e.moved
  {
  }

  lemma {:induction false} FourEntries(log: seq<Entry>)
    requires |log| == 4
    ensures MovedTotal(log) == MovedBy(log[0]) + MovedBy(log[1]) + MovedBy(log[2]) + MovedBy(log[3])
  {
    hide MovedBy, MovedTotal;
    assert log == log[..4];
    MovedTotalNext(log, 3);
    MovedTotalNext(log, 2);
    MovedTotalNext(log, 1);
    MovedTotalNext(log, 0);
    NothingMovedYet(log);
  }

  lemma {:induction false} NothingMovedYet(log: seq<Entry>)
    ensures MovedTotal(log[..0]) == 0
  {
    assert log[..0] == [];
  }

  /** After an immediate change to the plan. */
  function Switched(w: World, plan: Plan): World {
    w.(mandate := Switch(w.mandate, plan))
  }

  /** The plan of the mandate with other periods. */
  function Faster(w: World, frequency: u64): Plan
    requires frequency > 0
  {
    Metered(w.mandate.plan + 1, w.mandate.merchant, w.mandate.amount, frequency)
  }

  /** A mandate that has just been subscribed to, with room for two periods. */
  predicate Startable(w: World) {
    && Fresh(w) && Ready(w) && w.mandate.merchant != w.mandate.subscriber && w.mandate.amount > 0
    && w.mandate.nextDue <= HORIZON
  }

  lemma {:induction false} FasterReady(w: World, frequency: u64)
    requires Startable(w) && 0 < frequency <= HORIZON
    ensures var z := Switched(w, Faster(w, frequency));
            && Ready(z) && z.mandate.pending == None
            && Ready(Run(z, Bill(z, None))) && Run(z, Bill(z, None)).mandate == Billed(z.mandate)
  {
    hide Run, Bill;
    var z := Switched(w, Faster(w, frequency));
    assert Ready(z) by {
      hide Period;
    }
    ReadyAgain(z);
    BilledOnce(z);
  }

  /** A change to shorter periods, and two of them billed in full. */
  function Hurried(w: World, frequency: u64): seq<Act>
    requires Startable(w) && 0 < frequency <= HORIZON
  {
    FasterReady(w, frequency);
    var z := Switched(w, Faster(w, frequency));
    [Update(w, Faster(w, frequency))] + Bill(z, None) + Bill(Run(z, Bill(z, None)), None)
  }

  lemma {:induction false} HurriedMoves(w: World, frequency: u64)
    requires Startable(w) && 0 < frequency <= HORIZON
    ensures MovedTotal(Log(w, Hurried(w, frequency))) == 2 * w.mandate.amount
  {
    hide Run, Log, Bill, MovedTotal, Ready, MovedBy, After, EntryOf, Sane, Proration.RoundHalfUp, Update, Switch;
    FasterReady(w, frequency);
    StartableParts(w);
    var plan := Faster(w, frequency);
    var z := Switched(w, plan);
    var a, b := Bill(z, None), Bill(Run(z, Bill(z, None)), None);
    ChangedAtOnce(w, plan);
    SamePrice(w, plan);
    OneStep(w, Update(w, plan));
    UpdateIsFree(w, plan);
    BillMoves(z);
    BillMoves(Run(z, a));
    RunAppend(w, [Update(w, plan)], a);
    RunAppend(w, [Update(w, plan)] + a, b);
    MovedTotalAppend(Log(w, [Update(w, plan)]), Log(z, a));
    MovedTotalAppend(Log(w, [Update(w, plan)] + a), Log(Run(z, a), b));
  }

  lemma SamePrice(w: World, plan: Plan)
    ensures Switched(w, plan).mandate.amount == plan.amount
  {
  }

  lemma StartableParts(w: World)
    requires Startable(w)
    ensures Fresh(w) && Sane(w) && w.mandate.status == E.Active && Period(w.mandate).Ok? && 1 < w.mandate.nextDue
    ensures w.mandate.pending == None && w.mandate.amount > 0 && w.mandate.merchant != w.mandate.subscriber
  {
    hide Period;
    ReadyFacts(w);
  }

  lemma {:induction false} UpdateIsFree(w: World, plan: Plan)
    requires Sane(w) && 1 < w.mandate.nextDue && w.mandate.merchant != w.mandate.subscriber
    ensures MovedTotal(Log(w, [Update(w, plan)])) == 0
  {
    hide Sane, EntryOf, MovedBy;
    OneStep(w, Update(w, plan));
    Proration.RoundingDivides();
    UpdateMovesNothing(w, Update(w, plan));
    assert [EntryOf(w, Update(w, plan))][..0] == [];
  }

  /** Without a scheduling no change is ever pending. */
  lemma {:induction false} NeverPending(w: World, acts: seq<Act>, j: nat)
    requires Sane(w) && w.mandate.pending == None && j <= |acts|
    requires forall i :: 0 <= i < |acts| ==> !acts[i].kind.DoSchedule?
    ensures Run(w, acts[..j]).mandate.pending == None
  {
    hide Run, Log, Sane, Do, Moves;
    RunOfNone(w, acts);
    if j > 0 {
      NeverPending(w, acts, j - 1);
      LogPrefix(w, acts, j - 1);
      RunSane(w, acts[..j - 1]);
      var before := Run(w, acts[..j - 1]);
      EveryStepMoves(before, acts[j - 1]);
      NoneStays(before, acts[j - 1], EntryOf(before, acts[j - 1]), After(before, acts[j - 1]));
    }
  }

  lemma NoneStays(w: World, a: Act, e: Entry, after: World)
    requires Moves(w, a.env.now, e, after) && w.mandate.pending == None && !a.kind.DoSchedule?
    requires e == Refused || EntryFits(a.kind, e)
    ensures after.mandate.pending == None
  {
    hide TermsHash, Bound, OpenReport, InPeriod, Busy, Spendable;
  }

  lemma {:induction false} HurriedSteps(w: World, frequency: u64)
    requires Startable(w) && 0 < frequency <= HORIZON
    ensures var acts := Hurried(w, frequency);
            && |acts| == 9 && acts[0] == Update(w, Faster(w, frequency))
            && (forall i :: 1 <= i < 9 ==> !acts[i].kind.DoUpdate?)
            && (forall i :: 0 <= i < 9 ==> !acts[i].kind.DoSchedule?)
            && (forall i :: 0 <= i < 9 ==> acts[i].env.signer != w.mandate.subscriber)
            && acts[0].env.now == w.mandate.nextDue - 1
            && (forall i :: 1 <= i < 5 ==> acts[i].env.now == w.mandate.nextDue)
            && (forall i :: 5 <= i < 9 ==> acts[i].env.now == w.mandate.nextDue + frequency)
  {
    hide Run, Bill, Ready, Proration.RoundHalfUp;
    FasterReady(w, frequency);
    var z := Switched(w, Faster(w, frequency));
    StartableParts(w);
    BillSteps(z, None);
    BillSteps(Run(z, Bill(z, None)), None);
  }

  lemma {:induction false} HurriedUnforced(w: World, frequency: u64)
    requires Startable(w) && 0 < frequency <= HORIZON
    ensures Unforced(w, Hurried(w, frequency), frequency)
    ensures TimeOf(Hurried(w, frequency)) == w.mandate.nextDue + frequency
  {
    hide Run, Ready, Hurried, Do, Startable, Fresh, Sane, Proration.RoundHalfUp;
    var acts := Hurried(w, frequency);
    HurriedSteps(w, frequency);
    StartableParts(w);
    assert SoundDivisions(acts) by {
      Proration.RoundingDivides();
    }
    forall j | 0 <= j < |acts|
      ensures StepAgreed(w, acts, j, w.mandate.amount) && StepAtLeast(w, acts, j, frequency)
    {
      NeverPending(w, acts, j);
    }
  }

  /** The limit on the money that moves without consent, for every run whose plans have periods of at least `g`. */
  ghost predicate AlwaysWithinPace(w: World, g: u64, frequency: u64)
    requires frequency > 0
  {
    forall acts, t :: Unforced(w, acts, g) && TimeOf(acts) <= t ==>
      MovedTotal(Log(w, acts)) <= PaceLimit(w, frequency, t)
  }

  /** Exactly how fast money can move: the limit for periods of `frequency` holds over all runs exactly when no plan
      taken over may have shorter ones. With any shorter period two full amounts move in the time agreed for one. */
  lemma {:induction false} MoneyWithinPaceIff(w: World, g: u64, frequency: u64)
    requires Startable(w) && g > 0 && 0 < frequency <= w.mandate.frequency
    ensures AlwaysWithinPace(w, g, frequency) <==> frequency <= g
  {
    hide Run, Log, Fresh, Unforced, MovedTotal, Hurried, PaceLimit;
    StartableParts(w);
    if frequency <= g {
      forall acts, t | Unforced(w, acts, g) && TimeOf(acts) <= t
        ensures MovedTotal(Log(w, acts)) <= PaceLimit(w, frequency, t)
      {
        UnforcedMonotone(w, acts, g, frequency);
        MoneyWithoutConsent(w, acts, frequency, t);
      }
    } else {
      HurriedUnforced(w, g);
      HurriedMoves(w, g);
      OnePeriod(w, g, frequency);
      assert MovedTotal(Log(w, Hurried(w, g))) > PaceLimit(w, frequency, TimeOf(Hurried(w, g)));
    }
  }

  lemma {:induction false} UnforcedMonotone(w: World, acts: seq<Act>, g: u64, frequency: u64)
    requires Unforced(w, acts, g) && frequency <= g
    ensures Unforced(w, acts, frequency)
  {
    hide Run, Do, TakesOver, StepAgreed, SoundDivisions, Clocked;
    forall j | 0 <= j < |acts|
      ensures StepAtLeast(w, acts, j, frequency)
    {
      assert StepAtLeast(w, acts, j, g);
    }
  }

  lemma OnePeriod(w: World, g: u64, frequency: u64)
    requires 0 < g < frequency
    ensures PaceLimit(w, frequency, w.mandate.nextDue + g) == w.mandate.amount
  {
    var first, amount := w.mandate.nextDue, w.mandate.amount;
    assert first + g - first == g;
    WholeOf(g, frequency);
    assert PaceLimit(w, frequency, first + g) == (1 + g / frequency) * amount;
  }

  lemma WholeOf(g: int, frequency: int)
    requires 0 < g < frequency
    ensures g / frequency == 0
  {
  }
}
