/** Plan changes over whole runs: what they charge, when a scheduled one takes effect, and whose consent they need. */
module BillingChanges {
  import opened Base
  import S = Streaming
  import E = Encoding
  import Proration
  import opened Billing
  import opened BillingRuns
  import opened BillingProofs
  import opened BillingLedgers
  import opened BillingMoney

  // ---------------------------------------------------------------- immediate changes

  /** Seconds used up, clamped to the period that ends at the due date. */
  function UsedUp(m: Mandate, now: i64): int {
    Max(0, Min(m.frequency, now - (m.nextDue - m.frequency)))
  }

  /** In a plan change the guards of the proration always hold, so it never fails: it is refused only on a result
      beyond 64 signed bits, and otherwise is the prorated difference between the old plan and the new one. */
  lemma ProrationOfChange(m: Mandate, plan: Plan, now: i64, div: (nat, nat) -> nat)
    requires Proration.Divides(div) && Period(m).Ok? && m.frequency > 0
    ensures ElapsedInPeriod(m, now) == Ok(UsedUp(m, now)) && UsedUp(m, now) <= m.frequency
    ensures var delta := Proration.ComputeProration(m.amount, plan.amount, UsedUp(m, now), m.frequency, div);
            && delta.Ok?
            && Proration.Prorated(m.amount, plan.amount, UsedUp(m, now), m.frequency, delta.value)
            && ProratedDelta(m, plan, now, div) == ToI64(delta.value, MathOverflow)
  {
    hide Proration.ComputeProration, Proration.Prorated;
    Proration.ProrationBound(m.amount, plan.amount, UsedUp(m, now), m.frequency, div);
  }

  /** An immediate change that is not the present plan charges or credits the prorated difference and leaves the
      mandate with the terms of the new plan, its due date and history as they were. */
  lemma ChangeIsProrated(w: World, env: S.Env, plan: Plan, div: (nat, nat) -> nat)
    requires Sane(w) && Proration.Divides(div) && UpdateMandatePlan(w, env, plan, div).Ok?
    ensures var (after, e) := UpdateMandatePlan(w, env, plan, div).value;
            var m := w.mandate;
            && (plan.key == m.plan ==> after == w)
            && (plan.key != m.plan ==>
                  && e.Changed? && UsedUp(m, env.now) <= m.frequency
                  && Proration.Prorated(m.amount, plan.amount, UsedUp(m, env.now), m.frequency, e.delta)
                  && after.mandate == m.(plan := plan.key, amount := plan.amount, frequency := plan.frequency,
                                         maxPulls := MaxPulls(plan), billingType := plan.billingType, pending := None,
                                         credit := after.mandate.credit)
                  && after.mandate.credit == m.credit + Max(0, -e.delta))
  {
    hide Proration.ComputeProration, Proration.Prorated, Proration.Divides, ChangeGuards, CheckProrated, Move, Period,
         ElapsedInPeriod, UsedUp;
    if plan.key != w.mandate.plan {
      ElapsedNeedsPeriod(w.mandate, env.now);
      ProrationOfChange(w.mandate, plan, env.now, div);
    }
  }

  lemma ElapsedNeedsPeriod(m: Mandate, now: i64)
    ensures ElapsedInPeriod(m, now).Ok? ==> Period(m).Ok?
  {
  }

  // ---------------------------------------------------------------- scheduled changes

  /** An entry that leaves no scheduled change behind. */
  predicate ClearsPending(e: Entry) {
    e.Unscheduled? || e.Changed? || (e.Pulled? && e.planChanged)
  }

  /** The scheduling that stands: the last one, unless it has been dropped, overtaken or applied. */
  function Standing(log: seq<Entry>): (r: Option<nat>)
    ensures r.Some? ==> r.value < |log| && log[r.value].Scheduled?
                        && forall k :: r.value < k < |log| ==> !log[k].Scheduled? && !ClearsPending(log[k])
  {
    if log == [] then None
    else
      var n := |log| - 1;
      if log[n].Scheduled? then Some(n)
      else if ClearsPending(log[n]) then None
      else Standing(log[..n])
  }

  /** The pending change is the standing one, and it is due exactly when the next pull is. */
  predicate PendingStands(w: World, log: seq<Entry>) {
    match w.mandate.pending
    case None => Standing(log).None?
    case Some(p) =>
      Standing(log).Some? && log[Standing(log).value].plan == p.plan && p.effectiveAt == w.mandate.nextDue
  }

  lemma {:induction false} StepPending(w: World, log: seq<Entry>, now: i64, e: Entry, after: World)
    requires PendingStands(w, log) && Moves(w, now, e, after)
    ensures PendingStands(after, log + [e])
    ensures e.Pulled? ==> (e.planChanged <==> w.mandate.pending.Some?)
  {
    hide TermsHash, Bound, OpenReport, InPeriod, Busy, Spendable;
    assert (log + [e])[..|log|] == log;
  }

  lemma {:induction false} RunPending(w: World, acts: seq<Act>)
    requires Fresh(w)
    ensures PendingStands(Run(w, acts), Log(w, acts))
  {
    hide Moves, After, EntryOf, Sane;
    if acts != [] {
      hide PendingStands;
      var n := |acts| - 1;
      RunPending(w, acts[..n]);
      LogMoves(w, acts, n);
      assert acts[..n + 1] == acts;
      StepPending(Run(w, acts[..n]), Log(w, acts[..n]), acts[n].env.now, Log(w, acts)[n], Run(w, acts));
    }
  }

  /** A scheduled change takes effect at the first pull after it, whenever that comes, and at no other moment:
      a pull changes the plan exactly when a scheduling stands, and then to the plan scheduled. */
  lemma {:induction false} ScheduledChangeTakesEffect(w: World, acts: seq<Act>, j: nat)
    requires Fresh(w) && j < |acts| && Log(w, acts)[j].Pulled?
    ensures var log := Log(w, acts);
            && (log[j].planChanged <==> Standing(log[..j]).Some?)
            && Run(w, acts[..j + 1]).mandate.plan
               == (if Standing(log[..j]).Some? then log[Standing(log[..j]).value].plan
                   else Run(w, acts[..j]).mandate.plan)
            && Standing(log[..j + 1]).None?
  {
    hide Moves, Run, Log, Sane;
    LogMoves(w, acts, j);
    RunPending(w, acts[..j]);
    RunPending(w, acts[..j + 1]);
    StepPending(Run(w, acts[..j]), Log(w, acts)[..j], acts[j].env.now, Log(w, acts)[j], Run(w, acts[..j + 1]));
    PlanAfterPull(Run(w, acts[..j]), acts[j].env.now, Log(w, acts)[j], Run(w, acts[..j + 1]));
  }

  lemma PlanAfterPull(w: World, now: i64, e: Entry, after: World)
    requires Moves(w, now, e, after) && e.Pulled?
    ensures e.planChanged ==> w.mandate.pending.Some? && after.mandate.plan == w.mandate.pending.value.plan
                              && after.mandate.pending == None
    ensures !e.planChanged ==> after.mandate.plan == w.mandate.plan && after.mandate.pending == w.mandate.pending
  {
    hide OpenReport, InPeriod, Spendable;
  }

  // ---------------------------------------------------------------- taking over a plan

  /** The plan an instruction would take over, read from its arguments and the stored mandate. */
  function TakesOver(w: World, a: Act): Option<Plan> {
    match a.kind
    case DoUpdate(plan, _) => if plan.key != w.mandate.plan then Some(plan) else None
    case DoPull(_, pendingPlan, _) => if ChangeDue(w.mandate, a.env.now) then pendingPlan else None
    case _ => None
  }

  /** What a mandate has from its plan. */
  datatype Conditions = Conditions(plan: Key, amount: u64, frequency: u64, maxPulls: u64, billingType: BillingType)

  function Held(m: Mandate): Conditions {
    Conditions(m.plan, m.amount, m.frequency, m.maxPulls, m.billingType)
  }

  function Offered(p: Plan): Conditions {
    Conditions(p.key, p.amount, p.frequency, MaxPulls(p), p.billingType)
  }

  lemma HeldEffect(w: World, now: i64, e: Entry, after: World)
    requires Moves(w, now, e, after)
    ensures !e.Pulled? && !e.Changed? ==> Held(after.mandate) == Held(w.mandate)
    ensures after.mandate.pulls == w.mandate.pulls + if e.Pulled? then 1 else 0
    ensures after.mandate.subscriber == w.mandate.subscriber
    ensures e.Pulled? ==> w.mandate.pulls < w.mandate.maxPulls && e.billingType == w.mandate.billingType
                          && e.amount == after.mandate.amount && e.step == after.mandate.frequency
  {
    hide TermsHash, Bound, OpenReport, InPeriod, Busy, Spendable;
  }

  lemma PullTakesOver(w: World, env: S.Env, plan: Plan, pendingPlan: Option<Plan>, report: Option<i64>)
    requires ExecutePull(w, env, plan, pendingPlan, report).Ok?
    ensures var m := ExecutePull(w, env, plan, pendingPlan, report).value.0.mandate;
            if !ChangeDue(w.mandate, env.now) then Held(m) == Held(w.mandate)
            else pendingPlan.Some? && Held(m) == Offered(pendingPlan.value)
  {
    hide PullGuards, CheckApproval, CheckReport, Move, BaseCharge;
  }

  lemma UpdateTakesOver(w: World, env: S.Env, plan: Plan, div: (nat, nat) -> nat)
    requires UpdateMandatePlan(w, env, plan, div).Ok?
    ensures var m := UpdateMandatePlan(w, env, plan, div).value.0.mandate;
            if plan.key == w.mandate.plan then m == w.mandate else Held(m) == Offered(plan)
  {
    hide ChangeGuards, ProratedDelta, CheckProrated, Move;
  }

  /** An instruction that is accepted leaves the mandate with the conditions of the plan it takes over, if any, and
      with its own otherwise. */
  lemma ConditionsFollow(w: World, a: Act)
    requires Sane(w) && Do(w, a).Ok?
    ensures Held(After(w, a).mandate)
         == match TakesOver(w, a) case None => Held(w.mandate) case Some(p) => Offered(p)
    ensures After(w, a).mandate.pulls == w.mandate.pulls + if a.kind.DoPull? then 1 else 0
  {
    hide Moves, Sane, Held, Offered, ExecutePull, UpdateMandatePlan;
    EveryStepMoves(w, a);
    HeldEffect(w, a.env.now, EntryOf(w, a), After(w, a));
    match a.kind
    case DoUpdate(plan, div) => UpdateTakesOver(w, a.env, plan, div);
    case DoPull(plan, pendingPlan, report) => PullTakesOver(w, a.env, plan, pendingPlan, report);
    case _ => OtherEntries(a.kind, EntryOf(w, a));
  }

  lemma OtherEntries(k: Kind, e: Entry)
    requires EntryFits(k, e)
    ensures (e.Pulled? <==> k.DoPull?) && (e.Changed? ==> k.DoUpdate?)
  {
  }

  /** The same over a run: every state has the conditions of the last plan taken over, or the original ones. */
  lemma {:induction false} RunStep(w: World, acts: seq<Act>, j: nat)
    requires Sane(w) && j < |acts|
    ensures var before, after := Run(w, acts[..j]), Run(w, acts[..j + 1]);
            && Sane(before) && before.mandate.subscriber == after.mandate.subscriber
            && (Do(before, acts[j]).Err? ==> after == before)
            && (Do(before, acts[j]).Ok? ==>
                  && Held(after.mandate)
                     == (match TakesOver(before, acts[j]) case None => Held(before.mandate) case Some(p) => Offered(p))
                  && after.mandate.pulls == before.mandate.pulls + (if acts[j].kind.DoPull? then 1 else 0)
                  && (acts[j].kind.DoPull? ==> before.mandate.pulls < before.mandate.maxPulls))
  {
    hide Moves, Sane, Held, Offered, Do, TakesOver, Run;
    LogPrefix(w, acts, j);
    RunSane(w, acts[..j]);
    var before := Run(w, acts[..j]);
    EveryStepMoves(before, acts[j]);
    HeldEffect(before, acts[j].env.now, EntryOf(before, acts[j]), After(before, acts[j]));
    if Do(before, acts[j]).Ok? {
      ConditionsFollow(before, acts[j]);
      OtherEntries(acts[j].kind, EntryOf(before, acts[j]));
    }
  }

  // ---------------------------------------------------------------- the maximum number of pulls

  predicate WithinMaximum(m: Mandate) {
    m.pulls <= m.maxPulls
  }

  /** The plan taken over allows fewer pulls than will have been made; to be seen before the instruction. */
  predicate ExceedsMaximum(w: World, a: Act) {
    var taken := TakesOver(w, a);
    taken.Some? && MaxPulls(taken.value) < w.mandate.pulls + if a.kind.DoPull? then 1 else 0
  }

  predicate AlwaysWithinMaximum(w: World, acts: seq<Act>) {
    forall j :: 0 <= j <= |acts| ==> WithinMaximum(Run(w, acts[..j]).mandate)
  }

  predicate StepWithinMaximum(w: World, acts: seq<Act>, j: nat)
    requires j < |acts|
  {
    Do(Run(w, acts[..j]), acts[j]).Ok? ==> !ExceedsMaximum(Run(w, acts[..j]), acts[j])
  }

  /** Pulls stay within the maximum throughout a run exactly when no accepted instruction takes over a plan whose
      maximum they exceed. */
  lemma {:induction false} PullsWithinMaximumIff(w: World, acts: seq<Act>)
    requires Fresh(w)
    ensures AlwaysWithinMaximum(w, acts) <==> forall j :: 0 <= j < |acts| ==> StepWithinMaximum(w, acts, j)
  {
    hide Run, WithinMaximum, StepWithinMaximum;
    if forall j :: 0 <= j < |acts| ==> StepWithinMaximum(w, acts, j) {
      MaximumAtStart(w, acts);
      for j := 0 to |acts|
        invariant forall i :: 0 <= i <= j ==> WithinMaximum(Run(w, acts[..i]).mandate)
      {
        MaximumAfterStep(w, acts, j);
      }
    }
    if AlwaysWithinMaximum(w, acts) {
      forall j | 0 <= j < |acts|
        ensures StepWithinMaximum(w, acts, j)
      {
        MaximumAfterStep(w, acts, j);
      }
    }
  }

  lemma {:induction false} MaximumAfterStep(w: World, acts: seq<Act>, j: nat)
    requires Sane(w) && j < |acts| && WithinMaximum(Run(w, acts[..j]).mandate)
    ensures WithinMaximum(Run(w, acts[..j + 1]).mandate) <==> StepWithinMaximum(w, acts, j)
  {
    hide Run, Do, TakesOver, Sane;
    RunStep(w, acts, j);
  }

  lemma {:induction false} MaximumAtStart(w: World, acts: seq<Act>)
    requires Fresh(w)
    ensures WithinMaximum(Run(w, acts[..0]).mandate)
  {
    assert acts[..0] == [];
  }

  // ---------------------------------------------------------------- the frequency

  predicate AlwaysAtLeast(w: World, acts: seq<Act>, frequency: u64) {
    forall j :: 0 <= j <= |acts| ==> Run(w, acts[..j]).mandate.frequency >= frequency
  }

  predicate StepAtLeast(w: World, acts: seq<Act>, j: nat, frequency: u64)
    requires j < |acts|
  {
    var before := Run(w, acts[..j]);
    Do(before, acts[j]).Ok? && TakesOver(before, acts[j]).Some? ==>
      TakesOver(before, acts[j]).value.frequency >= frequency
  }

  /** Periods are never shorter than a given length exactly when the first is not and no plan taken over makes
      them so. */
  lemma {:induction false} FrequencyAtLeastIff(w: World, acts: seq<Act>, frequency: u64)
    requires Sane(w) && w.mandate.frequency >= frequency
    ensures AlwaysAtLeast(w, acts, frequency) <==> forall j :: 0 <= j < |acts| ==> StepAtLeast(w, acts, j, frequency)
  {
    hide Run, StepAtLeast, Sane;
    if forall j :: 0 <= j < |acts| ==> StepAtLeast(w, acts, j, frequency) {
      RunOfNone(w, acts);
      for j := 0 to |acts|
        invariant forall i :: 0 <= i <= j ==> Run(w, acts[..i]).mandate.frequency >= frequency
      {
        FrequencyAfterStep(w, acts, j, frequency);
      }
    }
    if AlwaysAtLeast(w, acts, frequency) {
      forall j | 0 <= j < |acts|
        ensures StepAtLeast(w, acts, j, frequency)
      {
        FrequencyAfterStep(w, acts, j, frequency);
      }
    }
  }

  lemma {:induction false} FrequencyAfterStep(w: World, acts: seq<Act>, j: nat, frequency: u64)
    requires Sane(w) && j < |acts| && Run(w, acts[..j]).mandate.frequency >= frequency
    ensures Run(w, acts[..j + 1]).mandate.frequency >= frequency <==> StepAtLeast(w, acts, j, frequency)
  {
    hide Run, Do, TakesOver, Sane;
    RunStep(w, acts, j);
  }

  lemma {:induction false} RunOfNone(w: World, acts: seq<Act>)
    ensures Run(w, acts[..0]) == w && Log(w, acts)[..0] == []
  {
    assert acts[..0] == [];
  }

  // ---------------------------------------------------------------- consent

  predicate Unsigned(acts: seq<Act>, subscriber: Key) {
    forall i :: 0 <= i < |acts| ==> acts[i].env.signer != subscriber
  }

  /** Neither the price nor a granted approval is above what was agreed. */
  predicate Agreed(w: World, amount: u64) {
    w.mandate.amount <= amount && (w.approval.Some? && w.approval.value.approved ==> w.approval.value.amount <= amount)
  }

  /** A usage pull that would apply a scheduled plan with a cap above the amount; to be seen before the pull. */
  predicate AppliesDearer(w: World, a: Act, amount: u64) {
    a.kind.DoPull? && w.mandate.billingType == E.Usage && TakesOver(w, a).Some? && TakesOver(w, a).value.amount > amount
  }

  predicate StepAgreed(w: World, acts: seq<Act>, j: nat, amount: u64)
    requires j < |acts|
  {
    Do(Run(w, acts[..j]), acts[j]).Ok? ==> !AppliesDearer(Run(w, acts[..j]), acts[j], amount)
  }

  lemma ChangeNeedsConsent(w: World, env: S.Env, plan: Plan, div: (nat, nat) -> nat)
    requires UpdateMandatePlan(w, env, plan, div).Ok? && env.signer != w.mandate.subscriber
    ensures plan.amount <= w.mandate.amount
  {
    hide S.Gate, TokenAccepted, CheckProrated, ProratedDelta, Move;
  }

  lemma AgreedEffect(w: World, now: i64, e: Entry, after: World, amount: u64)
    requires Moves(w, now, e, after) && Agreed(w, amount)
    requires e.Changed? ==> after.mandate.amount <= amount
    requires e.Pulled? && e.billingType == E.Usage ==> after.mandate.amount <= amount
    ensures Agreed(after, amount) && MovedBy(e) <= amount
  {
    hide TermsHash, Bound, OpenReport, InPeriod, Busy;
  }

  /** A flat pull takes over no plan dearer than its approval, and no one but the subscriber changes to one; so
      only a usage pull can leave a price above what was agreed. */
  lemma AgreedAfterAct(w: World, a: Act, amount: u64)
    requires Sane(w) && Agreed(w, amount) && a.env.signer != w.mandate.subscriber
    ensures Do(w, a).Ok? && !AppliesDearer(w, a, amount) ==>
              Agreed(After(w, a), amount) && MovedBy(EntryOf(w, a)) <= amount
    ensures Do(w, a).Ok? && AppliesDearer(w, a, amount) ==> After(w, a).mandate.amount > amount
  {
    hide Moves, Sane, Agreed, TakesOver, MovedBy, UpdateMandatePlan, Do;
    if Do(w, a).Ok? {
      EveryStepMoves(w, a);
      HeldEffect(w, a.env.now, EntryOf(w, a), After(w, a));
      ConditionsFollow(w, a);
      OtherEntries(a.kind, EntryOf(w, a));
      AgreedAmount(w, amount);
      if EntryOf(w, a).Changed? {
        UpdateWithoutConsent(w, a);
      }
      if !AppliesDearer(w, a, amount) {
        AgreedEffect(w, a.env.now, EntryOf(w, a), After(w, a), amount);
      }
    }
  }

  lemma AgreedAmount(w: World, amount: u64)
    requires Agreed(w, amount)
    ensures w.mandate.amount <= amount
  {
  }

  lemma UpdateWithoutConsent(w: World, a: Act)
    requires a.kind.DoUpdate? && Do(w, a).Ok? && a.env.signer != w.mandate.subscriber
    ensures TakesOver(w, a).Some? ==> TakesOver(w, a).value.amount <= w.mandate.amount
  {
    hide UpdateMandatePlan;
    ChangeNeedsConsent(w, a.env, a.kind.plan, a.kind.div);
  }

  lemma {:induction false} RunAgreed(w: World, acts: seq<Act>, j: nat)
    requires Fresh(w) && Unsigned(acts, w.mandate.subscriber) && j <= |acts|
    requires forall i :: 0 <= i < j ==> StepAgreed(w, acts, i, w.mandate.amount)
    ensures Agreed(Run(w, acts[..j]), w.mandate.amount) && Run(w, acts[..j]).mandate.subscriber == w.mandate.subscriber
    ensures forall i :: 0 <= i < j ==> MovedBy(Log(w, acts)[i]) <= w.mandate.amount
    decreases j
  {
    hide Run, Log, Sane, Agreed, StepAgreed, MovedBy;
    RunOfNone(w, acts);
    FreshAgreed(w);
    if j > 0 {
      RunAgreed(w, acts, j - 1);
      AgreedAfterStep(w, acts, j - 1);
    }
  }

  lemma FreshAgreed(w: World)
    requires Fresh(w)
    ensures Agreed(w, w.mandate.amount) && Sane(w)
  {
  }

  lemma {:induction false} AgreedAfterStep(w: World, acts: seq<Act>, j: nat)
    requires Sane(w) && j < |acts| && acts[j].env.signer != w.mandate.subscriber
    requires Agreed(Run(w, acts[..j]), w.mandate.amount) && Run(w, acts[..j]).mandate.subscriber == w.mandate.subscriber
    ensures Run(w, acts[..j + 1]).mandate.subscriber == w.mandate.subscriber
    ensures if StepAgreed(w, acts, j, w.mandate.amount) then
              Agreed(Run(w, acts[..j + 1]), w.mandate.amount) && MovedBy(Log(w, acts)[j]) <= w.mandate.amount
            else Run(w, acts[..j + 1]).mandate.amount > w.mandate.amount
  {
    hide Run, Log, Sane, Do, Agreed, MovedBy, AppliesDearer, TakesOver;
    LogPrefix(w, acts, j);
    RunStep(w, acts, j);
    AgreedAfterAct(Run(w, acts[..j]), acts[j], w.mandate.amount);
    assert MovedBy(Refused) == 0 by {
      NothingMoved();
    }
  }

  lemma NothingMoved()
    ensures MovedBy(Refused) == 0
  {
  }

  predicate AlwaysAgreed(w: World, acts: seq<Act>) {
    forall j :: 0 <= j <= |acts| ==> Run(w, acts[..j]).mandate.amount <= w.mandate.amount
  }

  /** Consent to the price: over a run without the subscriber's signature the price stays within what was agreed at
      subscription exactly when no accepted usage pull applies a scheduled plan with a higher cap; and then no pull
      and no prorated charge moves more. */
  lemma {:induction false} NoConsentNoDearer(w: World, acts: seq<Act>)
    requires Fresh(w) && Unsigned(acts, w.mandate.subscriber)
    ensures AlwaysAgreed(w, acts) <==> forall j :: 0 <= j < |acts| ==> StepAgreed(w, acts, j, w.mandate.amount)
    ensures AlwaysAgreed(w, acts) ==> forall j :: 0 <= j < |acts| ==> MovedBy(Log(w, acts)[j]) <= w.mandate.amount
  {
    hide Run, Log, Sane, MovedBy, Agreed, StepAgreed, Fresh;
    if forall j :: 0 <= j < |acts| ==> StepAgreed(w, acts, j, w.mandate.amount) {
      RunAgreed(w, acts, |acts|);
      forall j | 0 <= j <= |acts|
        ensures Run(w, acts[..j]).mandate.amount <= w.mandate.amount
      {
        RunAgreed(w, acts, j);
        AgreedAmount(Run(w, acts[..j]), w.mandate.amount);
      }
    } else {
      var j := FirstFailure(w, acts, 0);
      RunAgreed(w, acts, j);
      FreshAgreed(w);
      AgreedAfterStep(w, acts, j);
      var i := j + 1;
      assert Run(w, acts[..i]).mandate.amount > w.mandate.amount;
    }
  }

  /** The first accepted pull that applies a dearer plan. */
  lemma {:induction false} FirstFailure(w: World, acts: seq<Act>, k: nat) returns (j: nat)
    requires k <= |acts| && forall i :: 0 <= i < k ==> StepAgreed(w, acts, i, w.mandate.amount)
    requires exists i :: 0 <= i < |acts| && !StepAgreed(w, acts, i, w.mandate.amount)
    ensures j < |acts| && !StepAgreed(w, acts, j, w.mandate.amount)
    ensures forall i :: 0 <= i < j ==> StepAgreed(w, acts, i, w.mandate.amount)
    decreases |acts| - k
  {
    hide StepAgreed;
    if StepAgreed(w, acts, k, w.mandate.amount) {
      j := FirstFailure(w, acts, k + 1);
    } else {
      j := k;
    }
  }
}
