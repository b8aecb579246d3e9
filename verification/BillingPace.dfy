/** Time and money across plan changes: which pulled periods overlap, and what can move without consent. */
module BillingPace {
  import opened Base
  import S = Streaming
  import Proration
  import opened Billing
  import opened BillingRuns
  import opened BillingProofs
  import opened BillingLedgers
  import opened BillingMoney
  import opened BillingChanges

  // ---------------------------------------------------------------- pulled periods

  /** The plan last taken over strictly between two entries. */
  function LastTaken(w: World, acts: seq<Act>, i: nat, j: nat): Option<Plan>
    requires i < j <= |acts|
    decreases j
  {
    if j == i + 1 then None
    else
      var before := Run(w, acts[..j - 1]);
      if Do(before, acts[j - 1]).Ok? && TakesOver(before, acts[j - 1]).Some? then TakesOver(before, acts[j - 1])
      else LastTaken(w, acts, i, j - 1)
  }

  lemma {:induction false} FrequencySince(w: World, acts: seq<Act>, i: nat, j: nat)
    requires Sane(w) && i < j <= |acts| && Log(w, acts)[i].Pulled?
    ensures Run(w, acts[..j]).mandate.frequency
         == match LastTaken(w, acts, i, j) case None => Log(w, acts)[i].step case Some(p) => p.frequency
    decreases j
  {
    hide Run, Log, Sane, Do, TakesOver, Moves;
    if j == i + 1 {
      LogMoves(w, acts, i);
      HeldEffect(Run(w, acts[..i]), acts[i].env.now, Log(w, acts)[i], Run(w, acts[..j]));
    } else {
      FrequencySince(w, acts, i, j - 1);
      RunStep(w, acts, j - 1);
    }
  }

  /** Entries `i` and `j` are pulls with none between them. */
  predicate Successive(log: seq<Entry>, i: nat, j: nat) {
    i < j < |log| && log[i].Pulled? && log[j].Pulled? && forall k :: i < k < j ==> !log[k].Pulled?
  }

  /** The plan in force at the second pull, taken over since the first, has periods longer than the time between
      the two due dates. */
  predicate Overreaches(w: World, acts: seq<Act>, i: nat, j: nat)
    requires i < j < |acts| && Log(w, acts)[i].Pulled?
  {
    var taken := LastTaken(w, acts, i, j);
    taken.Some? && taken.value.frequency > Log(w, acts)[i].step
  }

  lemma PulledPeriod(w: World, now: i64, e: Entry, after: World)
    requires Moves(w, now, e, after) && e.Pulled?
    ensures e.approval.periodEnd == e.end && e.approval.periodStart == e.end - w.mandate.frequency
  {
    hide OpenReport, SameNonces, SameParties;
  }

  /** Two successive pulls charge adjacent periods unless a plan was taken over between them; then the periods
      overlap exactly when that plan overreaches. */
  lemma {:induction false} SuccessivePeriods(w: World, acts: seq<Act>, i: nat, j: nat)
    requires Sane(w) && j < |acts| && Successive(Log(w, acts), i, j)
    ensures var first, second := Log(w, acts)[i], Log(w, acts)[j];
            && (second.approval.periodStart >= first.end <==> !Overreaches(w, acts, i, j))
            && (LastTaken(w, acts, i, j).None? ==> second.approval.periodStart == first.end)
  {
    hide Run, Log, Sane, Moves, LastTaken;
    FrequencySince(w, acts, i, j);
    LogMoves(w, acts, i);
    DueEffect(Run(w, acts[..i]), acts[i].env.now, Log(w, acts)[i], Run(w, acts[..i + 1]));
    DueMonotone(w, acts, i + 1, j);
    LogMoves(w, acts, j);
    PulledPeriod(Run(w, acts[..j]), acts[j].env.now, Log(w, acts)[j], Run(w, acts[..j + 1]));
    DueEffect(Run(w, acts[..j]), acts[j].env.now, Log(w, acts)[j], Run(w, acts[..j + 1]));
  }

  predicate Disjoint(log: seq<Entry>) {
    forall i, j :: 0 <= i < j < |log| && log[i].Pulled? && log[j].Pulled? ==> log[i].end <= log[j].approval.periodStart
  }

  lemma {:induction false} PullBefore(log: seq<Entry>, i: nat, j: nat) returns (k: nat)
    requires i < j < |log| && log[i].Pulled? && log[j].Pulled?
    ensures i <= k && Successive(log, k, j)
    decreases j - i
  {
    k := i;
    for n := i + 1 to j
      invariant i <= k < n && log[k].Pulled? && forall m :: k < m < n ==> !log[m].Pulled?
    {
      if log[n].Pulled? {
        k := n;
      }
    }
  }

  /** No second is billed twice over a run exactly when no plan taken over between two successive pulls is in force
      at the second with periods longer than the time between their due dates. */
  lemma {:induction false} PeriodsDisjointIff(w: World, acts: seq<Act>)
    requires Sane(w)
    ensures Disjoint(Log(w, acts))
       <==> forall i, j :: 0 <= i < j < |acts| && Successive(Log(w, acts), i, j) ==> !Overreaches(w, acts, i, j)
  {
    hide Run, Log, Sane, Overreaches;
    var log := Log(w, acts);
    forall i, j | 0 <= i < j < |acts| && Successive(log, i, j)
      ensures log[j].approval.periodStart >= log[i].end <==> !Overreaches(w, acts, i, j)
    {
      SuccessivePeriods(w, acts, i, j);
    }
    if forall i, j :: 0 <= i < j < |acts| && Successive(log, i, j) ==> !Overreaches(w, acts, i, j) {
      forall i, j | 0 <= i < j < |log| && log[i].Pulled? && log[j].Pulled?
        ensures log[i].end <= log[j].approval.periodStart
      {
        var k := PullBefore(log, i, j);
        assert !Overreaches(w, acts, k, j);
        if i < k {
          PulledEndsIncrease(w, acts, i, k);
        }
      }
    }
  }

  lemma {:induction false} PulledEndsIncrease(w: World, acts: seq<Act>, i: nat, j: nat)
    requires Sane(w) && i < j < |acts| && Log(w, acts)[i].Pulled? && Log(w, acts)[j].Pulled?
    ensures Log(w, acts)[i].end <= Log(w, acts)[j].end
  {
    hide Run, Log, Sane;
    PeriodEndsIncrease(w, acts, i, j);
  }

  // ---------------------------------------------------------------- money without consent

  /** Every division a plan change uses meets the assumption on the library. */
  ghost predicate SoundDivisions(acts: seq<Act>) {
    forall i :: 0 <= i < |acts| && acts[i].kind.DoUpdate? ==> Proration.Divides(acts[i].kind.div)
  }

  /** Without the subscriber an immediate change charges nothing. */
  lemma UpdateMovesNothing(w: World, a: Act)
    requires Sane(w) && a.kind.DoUpdate? && a.env.signer != w.mandate.subscriber && Proration.Divides(a.kind.div)
    ensures MovedBy(EntryOf(w, a)) == 0
  {
    hide UpdateMandatePlan, Proration.Divides, Sane;
    if Do(w, a).Ok? {
      UpdateChargesNothing(w, a.env, a.kind.plan, a.kind.div);
    }
  }

  lemma UpdateChargesNothing(w: World, env: S.Env, plan: Plan, div: (nat, nat) -> nat)
    requires Sane(w) && UpdateMandatePlan(w, env, plan, div).Ok? && env.signer != w.mandate.subscriber
    requires Proration.Divides(div)
    ensures MovedBy(UpdateMandatePlan(w, env, plan, div).value.1) == 0
  {
    hide UpdateMandatePlan, Proration.Divides, UsedUp, Sane, Proration.Trunc, Proration.ExactNumerator;
    if plan.key == w.mandate.plan {
      SamePlanIsUnchanged(w, env, plan, div);
    } else {
      ChangeIsProrated(w, env, plan, div);
      ChangeNeedsConsent(w, env, plan, div);
    }
  }

  lemma SamePlanIsUnchanged(w: World, env: S.Env, plan: Plan, div: (nat, nat) -> nat)
    requires UpdateMandatePlan(w, env, plan, div).Ok? && plan.key == w.mandate.plan
    ensures UpdateMandatePlan(w, env, plan, div).value.1 == Unchanged
  {
    hide ChangeGuards;
  }

  lemma ChangedMovesNothing(w: World, a: Act)
    requires Sane(w) && EntryOf(w, a).Changed? && a.env.signer != w.mandate.subscriber
    requires a.kind.DoUpdate? ==> Proration.Divides(a.kind.div)
    ensures MovedBy(EntryOf(w, a)) == 0
  {
    hide Sane, Moves, Do, EntryFits, MovedBy, Proration.Divides;
    EveryStepMoves(w, a);
    OtherEntries(a.kind, EntryOf(w, a));
    UpdateMovesNothing(w, a);
  }

  lemma {:induction false} MovedTotalNext(log: seq<Entry>, j: nat)
    requires j < |log|
    ensures MovedTotal(log[..j + 1]) == MovedTotal(log[..j]) + MovedBy(log[j])
  {
    hide MovedBy;
    assert log[..j + 1][..j] == log[..j];
  }

  lemma OnlyChargesMove(e: Entry)
    ensures !e.Pulled? && !e.Changed? ==> MovedBy(e) == 0
    ensures MovedBy(e) >= 0 || e.Pulled?
  {
  }

  /** The state of the pace after `j` instructions: due dates at least `frequency` apart, pulls behind them, money
      at most the agreed amount for each pull. */
  ghost predicate Paced(w: World, acts: seq<Act>, j: nat, frequency: u64)
    requires j <= |acts|
  {
    var first, amount, m := w.mandate.nextDue, w.mandate.amount, Run(w, acts[..j]).mandate;
    && m.nextDue >= first + Product(m.pulls, frequency)
    && (m.pulls > 0 ==> j > 0 && first + Product(m.pulls - 1, frequency) <= acts[j - 1].env.now)
    && MovedTotal(Log(w, acts)[..j]) <= Product(m.pulls, amount)
  }

  lemma {:induction false} StepPaced(w: World, acts: seq<Act>, j: nat, frequency: u64)
    requires Sane(w) && Clocked(acts) && SoundDivisions(acts) && j < |acts|
    requires acts[j].env.signer != w.mandate.subscriber && Run(w, acts[..j]).mandate.subscriber == w.mandate.subscriber
    requires Run(w, acts[..j + 1]).mandate.frequency >= frequency
    requires MovedBy(Log(w, acts)[j]) <= w.mandate.amount
    requires Paced(w, acts, j, frequency)
    ensures Paced(w, acts, j + 1, frequency)
  {
    hide Run, Log, Sane, Moves, MovedBy, Product, MovedTotal, EntryOf, After;
    LogMoves(w, acts, j);
    LogPrefix(w, acts, j);
    RunSane(w, acts[..j]);
    var before, e, after := Run(w, acts[..j]), Log(w, acts)[j], Run(w, acts[..j + 1]);
    DueEffect(before, acts[j].env.now, e, after);
    HeldEffect(before, acts[j].env.now, e, after);
    hide Held;
    MovedTotalNext(Log(w, acts), j);
    OnlyChargesMove(e);
    ProductNext(before.mandate.pulls, frequency);
    ProductNext(before.mandate.pulls, w.mandate.amount);
    if e.Changed? {
      ChangedMovesNothing(before, acts[j]);
    }
  }

  lemma {:induction false} RunPaced(w: World, acts: seq<Act>, j: nat, frequency: u64)
    requires Fresh(w) && Clocked(acts) && Unsigned(acts, w.mandate.subscriber) && SoundDivisions(acts) && j <= |acts|
    requires forall i :: 0 <= i < |acts| ==> StepAgreed(w, acts, i, w.mandate.amount)
    requires AlwaysAtLeast(w, acts, frequency)
    ensures Paced(w, acts, j, frequency)
    decreases j
  {
    hide Run, Log, Sane, Clocked, SoundDivisions, StepAgreed, MovedBy;
    RunOfNone(w, acts);
    FreshAgreed(w);
    if j == 0 {
      ProductNext(0, frequency);
      ProductNext(0, w.mandate.amount);
      FreshFrequency(w);
    } else {
      hide Paced, Fresh;
      RunPaced(w, acts, j - 1, frequency);
      RunAgreed(w, acts, j - 1);
      RunAgreed(w, acts, |acts|);
      StepPaced(w, acts, j - 1, frequency);
    }
  }

  /** A run without the subscriber's signature in which no accepted instruction takes over a plan with periods shorter
      than `frequency`, and no usage pull applies one with a higher cap. */
  ghost predicate Unforced(w: World, acts: seq<Act>, frequency: u64) {
    && Clocked(acts) && Unsigned(acts, w.mandate.subscriber) && SoundDivisions(acts)
    && (forall j :: 0 <= j < |acts| ==> StepAgreed(w, acts, j, w.mandate.amount))
    && (forall j :: 0 <= j < |acts| ==> StepAtLeast(w, acts, j, frequency))
  }

  /** The agreed amount for each `frequency` seconds come due by time `t`. */
  function PaceLimit(w: World, frequency: u64, t: int): int
    requires frequency > 0
  {
    var first := w.mandate.nextDue;
    (if t < first then 0 else 1 + (t - first) / frequency) * w.mandate.amount
  }

  /** In such a run, whatever the merchant and the keeper do, no more than that moves. */
  lemma {:induction false} MoneyWithoutConsent(w: World, acts: seq<Act>, frequency: u64, t: int)
    requires Fresh(w) && Unforced(w, acts, frequency)
    requires TimeOf(acts) <= t && 0 < frequency <= w.mandate.frequency
    ensures MovedTotal(Log(w, acts)) <= PaceLimit(w, frequency, t)
  {
    hide Run, Log, Sane, Product, Clocked, StepAgreed, StepAtLeast, SoundDivisions, Fresh;
    FreshAgreed(w);
    FrequencyAtLeastIff(w, acts, frequency);
    RunPaced(w, acts, |acts|, frequency);
    hide AlwaysAtLeast, MovedTotal;
    assert acts[..|acts|] == acts && Log(w, acts)[..|acts|] == Log(w, acts);
    var first, pulls := w.mandate.nextDue, Run(w, acts).mandate.pulls;
    PaceBound(pulls, frequency, t - first, w.mandate.amount);
  }

  lemma PaceBound(pulls: nat, frequency: u64, d: int, amount: u64)
    requires frequency > 0 && (pulls > 0 ==> Product(pulls - 1, frequency) <= d)
    ensures Product(pulls, amount) <= (if d < 0 then 0 else 1 + d / frequency) * amount
  {
    hide Product;
    var most := if d < 0 then 0 else 1 + d / frequency;
    if pulls > 0 {
      PeriodsWithin(pulls - 1, frequency, d);
    }
    ProductMonotone(pulls, most, amount);
  }
}
