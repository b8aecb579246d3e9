/** The invariant of the stored accounts together with the log of what has been done to them. */
module BillingState {
  import opened Base
  import opened Hook
  import S = Streaming
  import opened Billing
  import opened BillingRuns
  import opened BillingProofs
  import opened BillingLedgers
  import opened BillingMoney
  import opened BillingChanges

  /** Credit is what was granted less what was used, and every base charge was paid in money or credit. */
  predicate Balanced(w: World, log: seq<Entry>) {
    var t := Tally(log);
    t.base == t.moved + t.used && w.mandate.credit == t.granted - t.used
  }

  /** Approvals come from callbacks, requests are answered once, events are those of the recorded flat pulls, settled
      reports those of the usage pulls, queued prices are committed, a pending change is the one scheduled, and credit
      balances. */
  ghost predicate Consistent(w: World, log: seq<Entry>) {
    && Sane(w) && Provenance(w, log) && Requests(w, log) && Sequence(w, log) && Settled(w, log)
    && Committed(w, log) && PendingStands(w, log) && Balanced(w, log)
  }

  lemma FreshConsistent(w: World)
    requires Fresh(w)
    ensures Consistent(w, [])
  {
    hide Sane;
    SequenceAtStart(w);
    RequestsFrom(w, []);
    assert Tally([]) == Totals(0, 0, 0, 0, 0);
    FreshIsSane(w);
  }

  lemma FreshIsSane(w: World)
    requires Fresh(w)
    ensures Sane(w)
  {
  }

  lemma {:induction false} StepBalanced(w: World, log: seq<Entry>, now: i64, e: Entry, after: World)
    requires Balanced(w, log) && Moves(w, now, e, after)
    ensures Balanced(after, log + [e])
  {
    hide Moves;
    CreditEffect(w, now, e, after, Tally(log));
    assert (log + [e])[..|log|] == log;
  }

  /** Every accepted instruction and callback keeps it. */
  lemma {:induction false} StepConsistent(w: World, log: seq<Entry>, a: Act)
    requires Consistent(w, log) && a.env.now > 0 && Do(w, a).Ok?
    ensures Consistent(After(w, a), log + [EntryOf(w, a)])
  {
    hide Moves, After, EntryOf, Sane, Provenance, Requests, Sequence, Settled, Committed, PendingStands, Balanced,
         RequestEffect;
    var now, e, after := a.env.now, EntryOf(w, a), After(w, a);
    EveryStepMoves(w, a);
    StepProvenance(w, log, now, e, after);
    MovesRequestEffect(w, now, e, after);
    StepRequests(w, log, now, e, after);
    StepSequence(w, log, now, e, after);
    StepSettled(w, log, now, e, after);
    StepCommitted(w, log, now, e, after);
    StepPending(w, log, now, e, after);
    StepBalanced(w, log, now, e, after);
  }

  lemma {:induction false} KeepsConsistent(w: World, log: seq<Entry>, a: Act, after: World, e: Entry)
    requires Do(w, a) == Ok((after, e))
    ensures Consistent(w, log) && a.env.now > 0 ==> Consistent(after, log + [e])
  {
    hide Consistent, Do;
    if Consistent(w, log) && a.env.now > 0 {
      StepConsistent(w, log, a);
    }
  }

  // ---------------------------------------------------------------- what the invariant says of the log

  /** The entry is a usage pull of the period that starts at `s`. */
  predicate PullsUsage(e: Entry, s: int) {
    SettlesUsage(e) && e.approval.periodStart == s
  }

  lemma {:induction false} UsageStartsAre(log: seq<Entry>, s: i64)
    ensures s in UsageStarts(log) <==> exists i :: 0 <= i < |log| && PullsUsage(log[i], s)
  {
    if log != [] {
      var n := |log| - 1;
      UsageStartsAre(log[..n], s);
      if PullsUsage(log[n], s) {
        assert s in UsageStarts(log);
      }
      if i :| 0 <= i < |log| && PullsUsage(log[i], s) {
        assert i < n ==> PullsUsage(log[..n][i], s);
      }
    }
  }

  lemma {:induction false} PulledOnce(log: seq<Entry>, i: nat, j: nat, s: i64)
    requires forall a, b :: 0 <= a < b < |UsageStarts(log)| ==> UsageStarts(log)[a] != UsageStarts(log)[b]
    requires i < j < |log| && PullsUsage(log[i], s)
    ensures !PullsUsage(log[j], s)
  {
    var n := |log| - 1;
    if j < n {
      var starts := UsageStarts(log[..n]);
      assert UsageStarts(log)[..|starts|] == starts;
      forall a, b | 0 <= a < b < |starts|
        ensures starts[a] != starts[b]
      {
        assert UsageStarts(log)[a] == starts[a] && UsageStarts(log)[b] == starts[b];
      }
      PulledOnce(log[..n], i, j, s);
    } else {
      assert PullsUsage(log[..n][i], s);
      UsageStartsAre(log[..n], s);
      var starts := UsageStarts(log[..n]);
      var a :| 0 <= a < |starts| && starts[a] == s;
      assert UsageStarts(log)[a] == s;
      assert SettlesUsage(log[n]) ==> UsageStarts(log)[|starts|] == log[n].approval.periodStart;
    }
  }

  /** The callback at `i` wrote this approval, and nothing has touched it since. */
  predicate WrittenBy(log: seq<Entry>, i: nat, a: Approval)
    requires i < |log|
  {
    log[i].Accepted? && log[i].approval == a && forall k :: i < k < |log| ==> !Overwrites(log[k])
  }

  /** What can be read off the stored accounts: a live approval is an untouched answer of the log, a settled report has
      its one usage pull there, records lag pulls by at most one, and credit is what was granted less what was used. */
  lemma {:induction false} ConsistentFacts(w: World, log: seq<Entry>)
    requires Consistent(w, log)
    ensures w.approval.Some? && w.approval.value.approved ==>
              exists i :: 0 <= i < |log| && WrittenBy(log, i, w.approval.value)
    ensures forall s: i64 :: IsSettled(w, s) <==> exists i :: 0 <= i < |log| && PullsUsage(log[i], s)
    ensures forall i, j, s: i64 :: 0 <= i < j < |log| && PullsUsage(log[i], s) ==> !PullsUsage(log[j], s)
    ensures w.mandate.recorded <= w.mandate.pulls == |PullsOf(log)| <= w.mandate.recorded + 1
    ensures w.mandate.credit == Tally(log).granted - Tally(log).used
  {
    hide Sane, Requests, Committed, PendingStands, IsSettled, PullsUsage;
    if w.approval.Some? && w.approval.value.approved {
      assert WrittenBy(log, Source(log).value, w.approval.value);
    }
    forall s: i64
      ensures IsSettled(w, s) <==> exists i :: 0 <= i < |log| && PullsUsage(log[i], s)
    {
      UsageStartsAre(log, s);
    }
    forall i, j, s: i64 | 0 <= i < j < |log| && PullsUsage(log[i], s)
      ensures !PullsUsage(log[j], s)
    {
      PulledOnce(log, i, j, s);
    }
  }

  // ---------------------------------------------------------------- the longer instructions

  lemma {:induction false} KeepsRequestUsageComputation(w: World, log: seq<Entry>, after: World, e: Entry,
                                                        env: S.Env, plan: Plan, start: i64, requested: Offset)
    requires RequestUsageComputation(w, env, plan, start, requested) == Ok((after, e))
    ensures Consistent(w, log) && env.now > 0 ==> Consistent(after, log + [e])
  {
    hide Consistent, RequestUsageComputation;
    KeepsConsistent(w, log, Act(env, DoRequestUsage(plan, start, requested)), after, e);
  }

  lemma {:induction false} KeepsExecutePull(w: World, log: seq<Entry>, after: World, e: Entry,
                                            env: S.Env, plan: Plan, pendingPlan: Option<Plan>, report: Option<i64>)
    requires ExecutePull(w, env, plan, pendingPlan, report) == Ok((after, e))
    ensures Consistent(w, log) && env.now > 0 ==> Consistent(after, log + [e])
  {
    hide Consistent, ExecutePull;
    KeepsConsistent(w, log, Act(env, DoPull(plan, pendingPlan, report)), after, e);
  }

  lemma {:induction false} KeepsRequestBillingRecord(w: World, log: seq<Entry>, after: World, e: Entry,
                                                     env: S.Env, plan: Plan, pull: u64, requested: Offset)
    requires RequestBillingRecord(w, env, plan, pull, requested) == Ok((after, e))
    ensures Consistent(w, log) && env.now > 0 ==> Consistent(after, log + [e])
  {
    hide Consistent, RequestBillingRecord;
    KeepsConsistent(w, log, Act(env, DoRequestRecord(plan, pull, requested)), after, e);
  }

  lemma {:induction false} KeepsUpdateMandatePlan(w: World, log: seq<Entry>, after: World, e: Entry,
                                                  env: S.Env, plan: Plan, div: (nat, nat) -> nat)
    requires UpdateMandatePlan(w, env, plan, div) == Ok((after, e))
    ensures Consistent(w, log) && env.now > 0 ==> Consistent(after, log + [e])
  {
    hide Consistent, UpdateMandatePlan;
    KeepsConsistent(w, log, Act(env, DoUpdate(plan, div)), after, e);
  }
}
