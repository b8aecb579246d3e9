/** The transfers behind the charges of a run, and the earliest one. */
module BillingPayments {
  import opened Base
  import opened Hook
  import HookProofs
  import S = Streaming
  import E = Encoding
  import opened Billing
  import opened BillingRuns
  import opened BillingProofs
  import opened BillingLedgers
  import opened BillingMoney
  import opened BillingChanges
  import opened BillingAccepts

  // ---------------------------------------------------------------- transfers

  /** The transfer of the amount, from the mandate's account to its merchant, was accepted on the stored accounts. */
  predicate Paid(w: World, env: S.Env, approval: Approval, amount: int) {
    && 0 < amount <= U64_MAX && Running(env) && env.self == w.key && Payable(w, env, amount)
    && HandleTransfer(BillingCall(w, env, approval, amount)).Ok?
  }

  lemma MovePays(w: World, env: S.Env, approval: Approval, amount: u64)
    requires Move(w, env, approval, amount).Ok? && Running(env) && env.self == w.key && amount > 0
    ensures Paid(w, env, approval, amount)
  {
    hide HandleTransfer, Running;
    HookProofs.TransferAllowedIff(BillingCall(w, env, approval, amount));
  }

  lemma PullPays(w: World, env: S.Env, plan: Plan, pendingPlan: Option<Plan>, report: Option<i64>)
    requires ExecutePull(w, env, plan, pendingPlan, report).Ok?
    ensures var e := ExecutePull(w, env, plan, pendingPlan, report).value.1;
            e.Pulled? && (e.moved > 0 ==> Paid(w, env, e.approval, e.moved))
  {
    hide PullGuards, ApplyPending, CheckApproval, CheckReport, CommitPull, Move, Paid, Running;
    GuardsIff(w, env, plan);
    PullRuns(w, env, plan);
    var e := ExecutePull(w, env, plan, pendingPlan, report).value.1;
    if e.moved > 0 {
      MovePays(w, env, e.approval, e.moved);
    }
  }

  lemma PullRuns(w: World, env: S.Env, plan: Plan)
    ensures PullGuards(w, env, plan).Ok? ==> Running(env) && env.self == w.key
  {
    hide Period, TokenAccepted;
  }

  lemma UpdatePays(w: World, env: S.Env, plan: Plan, div: (nat, nat) -> nat)
    requires UpdateMandatePlan(w, env, plan, div).Ok?
    ensures var e := UpdateMandatePlan(w, env, plan, div).value.1;
            e.Changed? && e.delta > 0 ==> e.consumed.Some? && Paid(w, env, e.consumed.value, e.delta)
  {
    hide ChangeGuards, ProratedDelta, CheckProrated, Move, Paid, Running, Switch;
    UpdateRuns(w, env, plan);
    var e := UpdateMandatePlan(w, env, plan, div).value.1;
    if e.Changed? && e.delta > 0 {
      MovePays(w, env, e.consumed.value, e.delta);
    }
  }

  lemma UpdateRuns(w: World, env: S.Env, plan: Plan)
    ensures ChangeGuards(w, env, plan).Ok? ==> Running(env) && env.self == w.key
  {
    hide TokenAccepted, MayChange;
  }

  /** Whatever money a run's log says has moved was transferred, to the unit, from the mandate's account to the
      merchant's, with the funds there and the hook's consent on the state stored at that moment. */
  lemma {:induction false} EveryChargeIsPaid(w: World, acts: seq<Act>, j: nat)
    requires Sane(w) && j < |acts| && MovedBy(Log(w, acts)[j]) > 0
    ensures Spent(Log(w, acts)[j]).Some?
    ensures Paid(Run(w, acts[..j]), acts[j].env, Spent(Log(w, acts)[j]).value, MovedBy(Log(w, acts)[j]))
  {
    hide Do, Moves, Sane, Run, Log, Paid, ExecutePull, UpdateMandatePlan;
    LogPrefix(w, acts, j);
    RunSane(w, acts[..j]);
    var before, a := Run(w, acts[..j]), acts[j];
    EveryStepMoves(before, a);
    ChargeActs(before, a);
    if a.kind.DoPull? {
      PullPays(before, a.env, a.kind.plan, a.kind.pendingPlan, a.kind.report);
    } else {
      UpdatePays(before, a.env, a.kind.plan, a.kind.div);
    }
  }

  lemma ChargeActs(w: World, a: Act)
    requires MovedBy(EntryOf(w, a)) > 0 && (Do(w, a).Ok? ==> EntryFits(a.kind, EntryOf(w, a)))
    ensures match a.kind
            case DoPull(plan, pendingPlan, report) =>
              && EntryOf(w, a).Pulled? && ExecutePull(w, a.env, plan, pendingPlan, report).Ok?
              && ExecutePull(w, a.env, plan, pendingPlan, report).value.1 == EntryOf(w, a)
            case DoUpdate(plan, div) =>
              && EntryOf(w, a).Changed? && UpdateMandatePlan(w, a.env, plan, div).Ok?
              && UpdateMandatePlan(w, a.env, plan, div).value.1 == EntryOf(w, a)
            case _ => false
  {
    hide RequestValidation, ValidationCallback, SubmitUsageReport, RequestUsageComputation, UsageCallback, ExecutePull,
         RequestBillingRecord, BillingCallback, UpdateMandatePlan, SchedulePlanChange, CancelPlanChange, CancelMandate,
         AdminCancel;
  }

  // ---------------------------------------------------------------- the earliest charge

  lemma RequestedWhenDue(w: World, now: i64, e: Entry, after: World)
    requires Moves(w, now, e, after) && e.Requested? && e.offset.slot.flow != BillingRecord
    ensures now >= w.mandate.nextDue
  {
    hide TermsHash, OpenReport, Busy;
  }

  lemma AnswersApproval(w: World, log: seq<Entry>, now: i64, e: Entry, after: World)
    requires Moves(w, now, e, after) && e.Accepted? && Requests(w, log)
    ensures e.offset.slot.flow != BillingRecord
  {
    hide TermsHash, OpenReport, InPeriod, Used;
    assert Kept(w, log, ApprovalSlotOf(w.mandate, e.approval));
  }

  /** Nothing is charged before the first due date, by no pull and by no plan change: the approval it takes can be asked
      for only when a period is due. */
  lemma {:induction false} NothingMovesBeforeDue(w: World, acts: seq<Act>, j: nat)
    requires Fresh(w) && Clocked(acts) && j < |acts| && Spent(Log(w, acts)[j]).Some?
    ensures w.mandate.nextDue <= acts[j].env.now
  {
    hide Run, Log, Moves, Sane, Requests;
    EveryChargeSpendsACallback(w, acts, j);
    var source := Source(Log(w, acts)[..j]).value;
    LogMoves(w, acts, source);
    RunRequests(w, acts[..source]);
    AnswersApproval(Run(w, acts[..source]), Log(w, acts[..source]), acts[source].env.now, Log(w, acts)[source],
                    Run(w, acts[..source + 1]));
    CallbackAnswersLastRequest(w, acts, source);
    var request := LastRequest(Log(w, acts)[..source], Log(w, acts)[source].offset.slot).value;
    LogMoves(w, acts, request);
    RequestedWhenDue(Run(w, acts[..request]), acts[request].env.now, Log(w, acts)[request],
                     Run(w, acts[..request + 1]));
    DueMonotone(w, acts, 0, request);
    RunOfNone(w, acts);
    ClockMonotone(acts, request, j);
  }

  /** So a trial is free: from a subscription with one nothing is charged before it ends. */
  lemma {:induction false} TrialIsFree(key: Key, plan: Plan, subscriber: Key, mint: Key, token: TokenConfig, now: i64,
                                       acts: seq<Act>, j: nat)
    requires Subscribe(plan, subscriber, mint, token, now).Ok? && plan.billingType == E.Flat && plan.trial > 0
    requires Clocked(acts) && j < |acts|
    ensures var w := World(key, Subscribe(plan, subscriber, mint, token, now).value, None, map[], map[], map[], map[]);
            Spent(Log(w, acts)[j]).Some? ==> acts[j].env.now >= now + plan.trial
  {
    hide Log, Fresh, Subscribe;
    var w := World(key, Subscribe(plan, subscriber, mint, token, now).value, None, map[], map[], map[], map[]);
    SubscribedIsFresh(key, plan, subscriber, mint, token, now);
    SubscribedIff(plan, subscriber, mint, token, now);
    if Spent(Log(w, acts)[j]).Some? {
      NothingMovesBeforeDue(w, acts, j);
    }
  }
}
