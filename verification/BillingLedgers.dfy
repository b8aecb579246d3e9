/** Ledgers of the billing protocol: due dates, records, settled reports, credit and committed prices. */
module BillingLedgers {
  import opened Base
  import E = Encoding
  import opened Billing
  import opened BillingRuns
  import opened BillingProofs

  // ---------------------------------------------------------------- what moves the due date

  lemma DueEffect(w: World, now: i64, e: Entry, after: World)
    requires Moves(w, now, e, after)
    ensures e.Pulled? ==> e.end == w.mandate.nextDue && after.mandate.nextDue == e.end + e.step && e.step > 0
                          && after.mandate.pulls == w.mandate.pulls + 1 && e.at == now >= e.end
    ensures !e.Pulled? ==> after.mandate.nextDue == w.mandate.nextDue && after.mandate.pulls == w.mandate.pulls
  {
    hide TermsHash, Bound, OpenReport, InPeriod, Busy, Spendable;
  }

  /** The due date and the number of pulls never go back, and a pull moves both on. */
  lemma {:induction false} DueMonotone(w: World, acts: seq<Act>, i: nat, j: nat)
    requires Sane(w) && i <= j <= |acts|
    ensures var m, n := Run(w, acts[..i]).mandate, Run(w, acts[..j]).mandate;
            && m.nextDue <= n.nextDue && m.pulls <= n.pulls
            && ((exists k :: i <= k < j && Log(w, acts)[k].Pulled?) ==> m.nextDue < n.nextDue && m.pulls < n.pulls)
            && ((forall k :: i <= k < j ==> !Log(w, acts)[k].Pulled?) ==> m.nextDue == n.nextDue && m.pulls == n.pulls)
    decreases j
  {
    hide Run, Log, Moves, Sane;
    if i < j {
      DueMonotone(w, acts, i, j - 1);
      LogMoves(w, acts, j - 1);
      DueEffect(Run(w, acts[..j - 1]), acts[j - 1].env.now, Log(w, acts)[j - 1], Run(w, acts[..j]));
    }
  }

  /** Whatever plan changes come between, no period end is ever pulled twice: the ends strictly increase. */
  lemma {:induction false} PeriodEndsIncrease(w: World, acts: seq<Act>, i: nat, j: nat)
    requires Sane(w) && i < j < |acts| && Log(w, acts)[i].Pulled? && Log(w, acts)[j].Pulled?
    ensures Log(w, acts)[i].end + Log(w, acts)[i].step <= Log(w, acts)[j].end
  {
    hide Run, Log, Moves, Sane;
    LogMoves(w, acts, i);
    DueEffect(Run(w, acts[..i]), acts[i].env.now, Log(w, acts)[i], Run(w, acts[..i + 1]));
    DueMonotone(w, acts, i + 1, j);
    LogMoves(w, acts, j);
    DueEffect(Run(w, acts[..j]), acts[j].env.now, Log(w, acts)[j], Run(w, acts[..j + 1]));
  }

  // ---------------------------------------------------------------- reports

  predicate SameReport(r: Report, t: Report) {
    t == r.(settled := t.settled) && (r.settled ==> t.settled)
  }

  predicate ReportsKept(w: World, after: World) {
    forall s :: s in w.reports ==> s in after.reports && SameReport(w.reports[s], after.reports[s])
  }

  lemma ReportsEffect(w: World, now: i64, e: Entry, after: World)
    requires Moves(w, now, e, after)
    ensures ReportsKept(w, after)
  {
    hide TermsHash, Bound, InPeriod, Busy, Spendable;
  }

  /** A report is never replaced or reopened. */
  lemma {:induction false} ReportsStable(w: World, acts: seq<Act>, i: nat, j: nat)
    requires Sane(w) && i <= j <= |acts|
    ensures ReportsKept(Run(w, acts[..i]), Run(w, acts[..j]))
    decreases j
  {
    hide Run, Log, Moves, Sane;
    if i < j {
      ReportsStable(w, acts, i, j - 1);
      LogMoves(w, acts, j - 1);
      ReportsEffect(Run(w, acts[..j - 1]), acts[j - 1].env.now, Log(w, acts)[j - 1], Run(w, acts[..j]));
    }
  }

  // ---------------------------------------------------------------- stale callbacks

  /** The due date a request was made for, read from the state. */
  predicate Timely(w: World, slot: Slot) {
    match slot.flow
    case Validation => slot.subject == w.mandate.nextDue
    case UsageComputation => slot.subject in w.reports && w.reports[slot.subject].end == w.mandate.nextDue
    case BillingRecord => slot.subject == w.mandate.pulls
  }

  lemma TimelyRequest(w: World, now: i64, e: Entry, after: World)
    requires Moves(w, now, e, after) && e.Requested?
    ensures Timely(w, e.offset.slot)
  {
    hide TermsHash, InPeriod, Busy;
  }

  lemma {:induction false} TimelyAnswer(w: World, log: seq<Entry>, now: i64, e: Entry, after: World)
    requires Moves(w, now, e, after) && AcceptedOffset(e).Some? && Requests(w, log)
    ensures Timely(w, AcceptedOffset(e).value.slot)
  {
    hide TermsHash, InPeriod, Busy, Used;
    match e
    case Accepted(o, a) => assert Kept(w, log, ApprovalSlotOf(w.mandate, a));
    case Recorded(o, pull, _) => assert Kept(w, log, Slot(BillingRecord, pull));
  }

  /** A callback that comes after a pull cannot write: between a request and its answer there is no pull. */
  lemma {:induction false} NoPullBetweenRequestAndAnswer(w: World, acts: seq<Act>, i: nat, j: nat)
    requires Fresh(w) && Clocked(acts) && i < j < |acts|
    requires Log(w, acts)[i].Requested? && AcceptedOffset(Log(w, acts)[j]) == Some(Log(w, acts)[i].offset)
    ensures forall k :: i <= k < j ==> !Log(w, acts)[k].Pulled?
  {
    hide Run, Log, Moves, Sane, Requests;
    LogMoves(w, acts, i);
    LogMoves(w, acts, j);
    RunRequests(w, acts[..j]);
    TimelyRequest(Run(w, acts[..i]), acts[i].env.now, Log(w, acts)[i], Run(w, acts[..i + 1]));
    TimelyAnswer(Run(w, acts[..j]), Log(w, acts[..j]), acts[j].env.now, Log(w, acts)[j], Run(w, acts[..j + 1]));
    ReportsStable(w, acts, i, j);
    DueMonotone(w, acts, i, j);
  }

  // ---------------------------------------------------------------- billing records

  function PullsOf(log: seq<Entry>): seq<Entry> {
    if log == [] then []
    else PullsOf(log[..|log| - 1]) + if log[|log| - 1].Pulled? then [log[|log| - 1]] else []
  }

  /** The event of pull `n` is written. */
  predicate Final(w: World, n: int) {
    n in w.events && w.events[n].createdAt != 0
  }

  predicate FlatPull(log: seq<Entry>, n: int) {
    1 <= n <= |PullsOf(log)| && PullsOf(log)[n - 1].Pulled? && PullsOf(log)[n - 1].billingType == E.Flat
  }

  predicate RecordPending(w: World, slot: Slot) {
    slot in w.requests && slot.flow == BillingRecord && w.requests[slot].pending
  }

  /** Records lag pulls by at most one; the events written are those of the flat pulls recorded so far. */
  ghost predicate Sequence(w: World, log: seq<Entry>) {
    && |PullsOf(log)| == w.mandate.pulls
    && w.mandate.recorded <= w.mandate.pulls <= w.mandate.recorded + 1
    && (w.mandate.recorded < w.mandate.pulls ==> FlatPull(log, w.mandate.pulls))
    && (forall n: int :: Final(w, n) <==> n <= w.mandate.recorded && FlatPull(log, n))
    && (forall slot :: RecordPending(w, slot) ==>
          slot == Slot(BillingRecord, w.mandate.pulls) && w.mandate.recorded < w.mandate.pulls)
  }

  /** Only a recording callback finalizes an event, and it finds the event open. */
  lemma FinalEffect(w: World, now: i64, e: Entry, after: World)
    requires Moves(w, now, e, after) && now > 0
    ensures forall n: int :: Final(after, n) <==> Final(w, n) || (e.Recorded? && n == e.pull)
    ensures forall n: int :: Final(w, n) ==> after.events[n] == w.events[n]
    ensures e.Recorded? ==> !Final(w, e.pull) && e.pull == w.mandate.pulls == after.mandate.recorded
                            && RecordPending(w, Slot(BillingRecord, e.pull))
    ensures !e.Recorded? && !e.Pulled? ==> after.mandate.recorded == w.mandate.recorded
  {
    hide TermsHash, OpenReport, InPeriod, Busy, Spendable;
  }

  lemma PendingEffect(w: World, now: i64, e: Entry, after: World)
    requires Moves(w, now, e, after)
    ensures forall slot :: RecordPending(after, slot) ==>
              || (RecordPending(w, slot) && !(e.Recorded? && slot == Slot(BillingRecord, e.pull)))
              || (e.Requested? && slot == Slot(BillingRecord, w.mandate.pulls) && w.mandate.recorded < w.mandate.pulls)
  {
    hide TermsHash, OpenReport, InPeriod, Busy, Spendable;
  }

  lemma PullEffect(w: World, now: i64, e: Entry, after: World)
    requires Moves(w, now, e, after) && e.Pulled?
    ensures w.mandate.recorded == w.mandate.pulls && e.billingType == w.mandate.billingType
    ensures after.mandate.recorded == if e.billingType == E.Flat then w.mandate.recorded else w.mandate.pulls + 1
  {
    hide OpenReport, InPeriod, Spendable;
  }

  lemma {:induction false} StepSequence(w: World, log: seq<Entry>, now: i64, e: Entry, after: World)
    requires Sequence(w, log) && Moves(w, now, e, after) && now > 0
    ensures Sequence(after, log + [e])
  {
    hide Moves, PullsOf, Final, RecordPending, FlatPull;
    PullsOfNext(log, e);
    FlatPullRange(log);
    FlatPullRange(log + [e]);
    FinalEffect(w, now, e, after);
    PendingEffect(w, now, e, after);
    DueEffect(w, now, e, after);
    if e.Pulled? {
      PullEffect(w, now, e, after);
    }
    var next := log + [e];
    if after.mandate.recorded < after.mandate.pulls {
      if e.Pulled? {
        assert e.billingType == E.Flat;
        assert after.mandate.pulls == |PullsOf(log)| + 1;
        assert FlatPull(next, |PullsOf(log)| + 1);
      } else {
        assert !e.Recorded?;
        assert FlatPull(log, w.mandate.pulls);
        assert FlatPull(next, w.mandate.pulls);
      }
    }
  }

  lemma {:induction false} FlatPullRange(log: seq<Entry>)
    ensures forall n :: FlatPull(log, n) ==> 1 <= n <= |PullsOf(log)|
  {
  }

  lemma {:induction false} PullsOfNext(log: seq<Entry>, e: Entry)
    ensures PullsOf(log + [e]) == PullsOf(log) + if e.Pulled? then [e] else []
    ensures forall n {:trigger FlatPull(log, n)} {:trigger FlatPull(log + [e], n)} :: n <= |PullsOf(log)| ==>
              (FlatPull(log + [e], n) <==> FlatPull(log, n))
    ensures FlatPull(log + [e], |PullsOf(log)| + 1) <==> e.Pulled? && e.billingType == E.Flat
  {
    assert (log + [e])[..|log|] == log;
  }

  lemma {:induction false} RunSequence(w: World, acts: seq<Act>)
    requires Fresh(w) && Clocked(acts)
    ensures Sequence(Run(w, acts), Log(w, acts))
  {
    hide Moves, After, EntryOf, Sane, Sequence;
    if acts == [] {
      SequenceAtStart(w);
    } else {
      var n := |acts| - 1;
      RunSequence(w, acts[..n]);
      LogMoves(w, acts, n);
      assert acts[..n + 1] == acts;
      StepSequence(Run(w, acts[..n]), Log(w, acts[..n]), acts[n].env.now, Log(w, acts)[n], Run(w, acts));
    }
  }

  lemma SequenceAtStart(w: World)
    requires Fresh(w)
    ensures Sequence(w, [])
  {
  }

  /** Billing sequence: in every reachable state records lag pulls by at most one, and the events written are
      exactly those of the flat pulls among the recorded ones. */
  lemma {:induction false} BillingSequence(w: World, acts: seq<Act>)
    requires Fresh(w) && Clocked(acts)
    ensures var m, log := Run(w, acts).mandate, Log(w, acts);
            && m.recorded <= m.pulls == |PullsOf(log)| <= m.recorded + 1
            && (forall n: int :: Final(Run(w, acts), n) <==> n <= m.recorded && FlatPull(log, n))
  {
    hide Run, Log;
    RunSequence(w, acts);
  }

  /** An event that is written never changes. */
  lemma {:induction false} EventsWrittenOnce(w: World, acts: seq<Act>, i: nat, j: nat, n: int)
    requires Sane(w) && Clocked(acts) && i <= j <= |acts| && Final(Run(w, acts[..i]), n)
    ensures Final(Run(w, acts[..j]), n) && Run(w, acts[..j]).events[n] == Run(w, acts[..i]).events[n]
    decreases j
  {
    hide Run, Log, Moves, Sane;
    if i < j {
      EventsWrittenOnce(w, acts, i, j - 1, n);
      LogMoves(w, acts, j - 1);
      FinalEffect(Run(w, acts[..j - 1]), acts[j - 1].env.now, Log(w, acts)[j - 1], Run(w, acts[..j]));
    }
  }

  /** The period a billing record names is not the period that was pulled but the one after it: its end is the
      pulled end moved on by the frequency of the pull. Its time is that of the pull, but its amount and its length
      are those of the plan as it is passed with the request. */
  lemma {:induction false} RecordNamesTheNextPeriod(w: World, acts: seq<Act>, i: nat, j: nat)
    requires Sane(w) && i < j < |acts| && Log(w, acts)[i].Pulled?
    requires Log(w, acts)[j].Requested? && Log(w, acts)[j].offset.slot.flow == BillingRecord
    ensures Log(w, acts)[j].job.RecordJob?
    ensures Log(w, acts)[i].end + Log(w, acts)[i].step <= Log(w, acts)[j].job.end
    ensures (forall k :: i < k < j ==> !Log(w, acts)[k].Pulled?) ==>
              Log(w, acts)[j].job.end == Log(w, acts)[i].end + Log(w, acts)[i].step
              && Log(w, acts)[j].job.pull == Run(w, acts[..i + 1]).mandate.pulls
              && Log(w, acts)[j].job.pulledAt == acts[i].env.now
    ensures acts[j].kind.DoRequestRecord? && Log(w, acts)[j].job.amount == acts[j].kind.plan.amount
    ensures Log(w, acts)[j].job.start == Log(w, acts)[j].job.end - acts[j].kind.plan.frequency
  {
    hide Run, Log, Moves, Sane;
    if forall k :: i < k < j ==> !Log(w, acts)[k].Pulled? {
      LastPullStands(w, acts, i, j);
    }
    RecordAsked(w, acts, j);
    LogMoves(w, acts, i);
    DueEffect(Run(w, acts[..i]), acts[i].env.now, Log(w, acts)[i], Run(w, acts[..i + 1]));
    DueMonotone(w, acts, i + 1, j);
    LogMoves(w, acts, j);
    RecordJobEffect(Run(w, acts[..j]), acts[j].env.now, Log(w, acts)[j], Run(w, acts[..j + 1]));
  }

  lemma RecordJobEffect(w: World, now: i64, e: Entry, after: World)
    requires Moves(w, now, e, after) && e.Requested? && e.offset.slot.flow == BillingRecord
    ensures e.job.RecordJob? && e.job.end == w.mandate.nextDue && e.job.pull == w.mandate.pulls
    ensures e.job.pulledAt == w.mandate.lastPullAt
  {
  }

  lemma LastPullEffect(w: World, now: i64, e: Entry, after: World)
    requires Moves(w, now, e, after)
    ensures after.mandate.lastPullAt == if e.Pulled? then now else w.mandate.lastPullAt
  {
    hide TermsHash, Bound, OpenReport, InPeriod, Busy, Spendable;
  }

  lemma {:induction false} LastPullStands(w: World, acts: seq<Act>, i: nat, j: nat)
    requires Sane(w) && i < j <= |acts| && Log(w, acts)[i].Pulled?
    requires forall k :: i < k < j ==> !Log(w, acts)[k].Pulled?
    ensures Run(w, acts[..j]).mandate.lastPullAt == acts[i].env.now
    decreases j
  {
    hide Run, Log, Moves, Sane;
    LogMoves(w, acts, j - 1);
    LastPullEffect(Run(w, acts[..j - 1]), acts[j - 1].env.now, Log(w, acts)[j - 1], Run(w, acts[..j]));
    if i < j - 1 {
      LastPullStands(w, acts, i, j - 1);
    }
  }

  lemma {:induction false} RecordAsked(w: World, acts: seq<Act>, j: nat)
    requires Sane(w) && j < |acts|
    requires Log(w, acts)[j].Requested? && Log(w, acts)[j].offset.slot.flow == BillingRecord
    ensures acts[j].kind.DoRequestRecord? && Log(w, acts)[j].job.RecordJob?
    ensures Log(w, acts)[j].job.amount == acts[j].kind.plan.amount
    ensures Log(w, acts)[j].job.start == Log(w, acts)[j].job.end - acts[j].kind.plan.frequency
  {
    hide Do, Run, Log, Sane, Moves;
    LogPrefix(w, acts, j);
    RunSane(w, acts[..j]);
    EveryStepMoves(Run(w, acts[..j]), acts[j]);
  }

  // ---------------------------------------------------------------- ended mandates

  lemma InactiveEffect(w: World, now: i64, e: Entry, after: World)
    requires Moves(w, now, e, after) && w.mandate.status != E.Active
    ensures after.mandate.status == w.mandate.status && after.mandate.credit == w.mandate.credit
    ensures Spent(e).None? && !e.Accepted?
  {
    hide TermsHash, Bound, OpenReport, InPeriod, Busy, Spendable;
  }

  /** A mandate that is cancelled or has run out stays so, and is never charged or approved again. */
  lemma {:induction false} InactiveIsFinal(w: World, acts: seq<Act>, i: nat, j: nat)
    requires Sane(w) && i <= j <= |acts| && Run(w, acts[..i]).mandate.status != E.Active
    ensures Run(w, acts[..j]).mandate.status == Run(w, acts[..i]).mandate.status
    ensures Run(w, acts[..j]).mandate.credit == Run(w, acts[..i]).mandate.credit
    ensures forall k :: i <= k < j ==> Spent(Log(w, acts)[k]).None? && !Log(w, acts)[k].Accepted?
    decreases j
  {
    hide Run, Log, Moves, Sane;
    if i < j {
      InactiveIsFinal(w, acts, i, j - 1);
      LogMoves(w, acts, j - 1);
      InactiveEffect(Run(w, acts[..j - 1]), acts[j - 1].env.now, Log(w, acts)[j - 1], Run(w, acts[..j]));
    }
  }
}
