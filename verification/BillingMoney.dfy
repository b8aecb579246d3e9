/** What pull billing charges: settled usage, credit, pacing, committed prices, and the hook's agreement. */
module BillingMoney {
  import opened Base
  import opened Hook
  import S = Streaming
  import E = Encoding
  import Pricing
  import opened Billing
  import opened BillingRuns
  import opened BillingProofs
  import opened BillingLedgers

  // ---------------------------------------------------------------- usage reports are settled once

  predicate SettlesUsage(e: Entry) {
    e.Pulled? && e.billingType == E.Usage
  }

  /** Period starts of the usage pulls, in order. */
  function UsageStarts(log: seq<Entry>): seq<i64> {
    if log == [] then []
    else
      var e := log[|log| - 1];
      UsageStarts(log[..|log| - 1]) + if SettlesUsage(e) then [e.approval.periodStart] else []
  }

  predicate IsSettled(w: World, s: int) {
    s in w.reports && w.reports[s].settled
  }

  /** The settled reports are those of the usage pulls, one for each. */
  ghost predicate Settled(w: World, log: seq<Entry>) {
    && (forall s: i64 :: IsSettled(w, s) <==> s in UsageStarts(log))
    && (forall a, b :: 0 <= a < b < |UsageStarts(log)| ==> UsageStarts(log)[a] != UsageStarts(log)[b])
  }

  lemma SettledEffect(w: World, now: i64, e: Entry, after: World)
    requires Moves(w, now, e, after)
    ensures forall s: i64 :: IsSettled(after, s) <==>
              IsSettled(w, s) || (SettlesUsage(e) && s == e.approval.periodStart)
    ensures SettlesUsage(e) ==> !IsSettled(w, e.approval.periodStart) && e.approval.periodStart in w.reports
                                && w.reports[e.approval.periodStart].end == e.approval.periodEnd == e.end
  {
    hide TermsHash, Bound, Busy;
  }

  lemma {:induction false} StepSettled(w: World, log: seq<Entry>, now: i64, e: Entry, after: World)
    requires Settled(w, log) && Moves(w, now, e, after)
    ensures Settled(after, log + [e])
  {
    hide Moves, SettlesUsage, IsSettled, UsageStarts;
    SettledEffect(w, now, e, after);
    UsageStartsNext(log, e);
  }

  lemma {:induction false} UsageStartsNext(log: seq<Entry>, e: Entry)
    ensures UsageStarts(log + [e]) == UsageStarts(log) + if SettlesUsage(e) then [e.approval.periodStart] else []
  {
    assert (log + [e])[..|log|] == log;
  }

  lemma {:induction false} RunSettled(w: World, acts: seq<Act>)
    requires Fresh(w)
    ensures Settled(Run(w, acts), Log(w, acts))
  {
    hide Moves, After, EntryOf, Sane;
    if acts != [] {
      hide Settled;
      var n := |acts| - 1;
      RunSettled(w, acts[..n]);
      LogMoves(w, acts, n);
      assert acts[..n + 1] == acts;
      StepSettled(Run(w, acts[..n]), Log(w, acts[..n]), acts[n].env.now, Log(w, acts)[n], Run(w, acts));
    }
  }

  /** Every usage pull settles the one open report of its own period; afterwards the settled reports are exactly
      those of the usage pulls made so far, no two of them the same. */
  lemma {:induction false} UsagePullsSettleReports(w: World, acts: seq<Act>, j: nat)
    requires Fresh(w) && j < |acts| && SettlesUsage(Log(w, acts)[j])
    ensures var e, before := Log(w, acts)[j], Run(w, acts[..j]);
            var s := e.approval.periodStart;
            && s in before.reports && !IsSettled(before, s) && IsSettled(Run(w, acts[..j + 1]), s)
            && before.reports[s].end == e.end
    ensures Settled(Run(w, acts), Log(w, acts))
  {
    hide Moves, Run, Log, Sane, Settled;
    RunSettled(w, acts);
    LogMoves(w, acts, j);
    SettledEffect(Run(w, acts[..j]), acts[j].env.now, Log(w, acts)[j], Run(w, acts[..j + 1]));
  }

  // ---------------------------------------------------------------- credit

  datatype Totals = Totals(base: int, moved: int, used: int, granted: int, prorated: int)

  function Add(t: Totals, e: Entry): Totals {
    match e
    case Pulled(_, _, _, _, _, _, _, base, used, moved) =>
      t.(base := t.base + base, moved := t.moved + moved, used := t.used + used)
    case Changed(_, delta, _) =>
      if delta > 0 then t.(prorated := t.prorated + delta) else t.(granted := t.granted - delta)
    case _ => t
  }

  function Tally(log: seq<Entry>): Totals {
    if log == [] then Totals(0, 0, 0, 0, 0) else Add(Tally(log[..|log| - 1]), log[|log| - 1])
  }

  lemma CreditEffect(w: World, now: i64, e: Entry, after: World, t: Totals)
    requires Moves(w, now, e, after)
    ensures var u := Add(t, e);
            && u.base - u.moved - u.used == t.base - t.moved - t.used
            && after.mandate.credit - u.granted + u.used == w.mandate.credit - t.granted + t.used
            && u.granted >= t.granted && u.prorated >= t.prorated && u.used >= t.used && u.moved >= t.moved
  {
    hide TermsHash, Bound, Busy, Spendable, OpenReport, InPeriod;
  }

  /** Credit is conserved: the balance is what was granted less what was used, and every base charge is paid
      partly in money and partly in credit, with nothing lost. */
  lemma {:induction false} CreditConservation(w: World, acts: seq<Act>)
    requires Fresh(w)
    ensures var t := Tally(Log(w, acts));
            && t.base == t.moved + t.used
            && Run(w, acts).mandate.credit == t.granted - t.used
            && 0 <= t.used <= t.granted && t.moved >= 0
  {
    hide Moves, After, EntryOf, Sane;
    if acts != [] {
      var n := |acts| - 1;
      CreditConservation(w, acts[..n]);
      LogMoves(w, acts, n);
      assert acts[..n + 1] == acts;
      CreditEffect(Run(w, acts[..n]), acts[n].env.now, Log(w, acts)[n], Run(w, acts), Tally(Log(w, acts[..n])));
    }
  }

  // ---------------------------------------------------------------- pacing

  predicate KeepsPlan(e: Entry) {
    !e.Changed? && (e.Pulled? ==> !e.planChanged)
  }

  /** No plan change has taken effect. */
  predicate Steady(log: seq<Entry>) {
    forall i :: 0 <= i < |log| ==> KeepsPlan(log[i])
  }

  predicate SameTerms(m: Mandate, n: Mandate) {
    m.frequency == n.frequency && m.amount == n.amount && m.maxPulls == n.maxPulls && m.expiry == n.expiry
  }

  lemma SteadyEffect(w: World, now: i64, e: Entry, after: World)
    requires Moves(w, now, e, after) && KeepsPlan(e)
    ensures SameTerms(w.mandate, after.mandate)
    ensures e.Pulled? ==> e.step == w.mandate.frequency && e.moved <= w.mandate.amount
                          && w.mandate.pulls < w.mandate.maxPulls
    ensures !e.Pulled? ==> MovedBy(e) == 0
  {
    hide TermsHash, Bound, Busy, Spendable, OpenReport, InPeriod;
  }

  function MovedTotal(log: seq<Entry>): int {
    if log == [] then 0 else MovedTotal(log[..|log| - 1]) + MovedBy(log[|log| - 1])
  }

  function TimeOf(acts: seq<Act>): int {
    if acts == [] then 0 else acts[|acts| - 1].env.now
  }

  function Product(x: int, y: int): int { x * y }

  lemma ProductNext(x: int, y: int)
    ensures Product(x + 1, y) == Product(x, y) + y && Product(0, y) == 0
  {
  }

  /** While the plan stands, due dates advance in equal steps, and pulls keep pace with them. */
  lemma {:induction false} SteadyPace(w: World, acts: seq<Act>)
    requires Fresh(w) && Clocked(acts) && Steady(Log(w, acts))
    ensures var m, n := w.mandate, Run(w, acts).mandate;
            && SameTerms(m, n)
            && n.nextDue == m.nextDue + Product(n.pulls, m.frequency)
            && 0 <= MovedTotal(Log(w, acts)) <= Product(n.pulls, m.amount)
            && n.pulls <= m.maxPulls
            && (n.pulls > 0 ==> n.nextDue - m.frequency <= TimeOf(acts))
  {
    hide Moves, After, EntryOf, Sane, Product, KeepsPlan;
    ProductNext(0, w.mandate.frequency);
    ProductNext(0, w.mandate.amount);
    if acts != [] {
      var n := |acts| - 1;
      assert Log(w, acts)[..n] == Log(w, acts[..n]);
      SteadyPrefix(Log(w, acts), n);
      SteadyPace(w, acts[..n]);
      LogMoves(w, acts, n);
      assert acts[..n + 1] == acts;
      var before, e, after := Run(w, acts[..n]), Log(w, acts)[n], Run(w, acts);
      SteadyEffect(before, acts[n].env.now, e, after);
      DueEffect(before, acts[n].env.now, e, after);
      ProductNext(before.mandate.pulls, w.mandate.frequency);
      ProductNext(before.mandate.pulls, w.mandate.amount);
    }
  }

  lemma {:induction false} SteadyPrefix(log: seq<Entry>, n: nat)
    requires n < |log| && Steady(log)
    ensures Steady(log[..n]) && KeepsPlan(log[n])
  {
  }

  /** By time `t`, a steady mandate has been pulled at most once per period that has come due, and the money moved
      is at most that many times the amount. */
  lemma {:induction false} PullsByTime(w: World, acts: seq<Act>, t: int)
    requires Fresh(w) && Clocked(acts) && Steady(Log(w, acts)) && TimeOf(acts) <= t
    ensures var first, f := w.mandate.nextDue, w.mandate.frequency;
            var most := if t < first then 0 else 1 + (t - first) / f;
            && Run(w, acts).mandate.pulls <= most
            && MovedTotal(Log(w, acts)) <= most * w.mandate.amount
  {
    hide Run, Log, Sane, Product, Clocked, Steady;
    SteadyPace(w, acts);
    FreshFrequency(w);
    var first, f, pulls := w.mandate.nextDue, w.mandate.frequency, Run(w, acts).mandate.pulls;
    if pulls > 0 {
      ProductNext(pulls - 1, f);
      PeriodsWithin(pulls - 1, f, t - first);
    }
    ProductMonotone(pulls, if t < first then 0 else 1 + (t - first) / f, w.mandate.amount);
  }

  lemma FreshFrequency(w: World)
    requires Fresh(w)
    ensures w.mandate.frequency > 0 && w.mandate.pulls == 0
  {
  }

  lemma PeriodsWithin(n: nat, f: int, d: int)
    requires f > 0 && Product(n, f) <= d
    ensures n <= d / f && 0 <= d
  {
    hide Product;
    var q := d / f;
    Quotient(d, f);
    ProductNext(q, f);
    ProductNext(0, f);
    ProductOrder(0, n, f);
    ProductOrder(q + 1, n, f);
  }

  lemma Quotient(d: int, f: int)
    requires f > 0
    ensures Product(d / f, f) <= d < Product(d / f, f) + f
  {
    assert d == d / f * f + d % f;
  }

  lemma ProductOrder(x: int, y: int, z: int)
    requires z > 0
    ensures x <= y ==> Product(x, z) <= Product(y, z)
  {
  }

  lemma ProductMonotone(x: int, y: int, z: int)
    requires 0 <= x && 0 <= z
    ensures x <= y ==> Product(x, z) <= y * z
  {
  }

  // ---------------------------------------------------------------- subscription

  lemma SubscribedIsFresh(key: Key, p: Plan, subscriber: Key, mint: Key, token: TokenConfig, now: i64)
    requires Subscribe(p, subscriber, mint, token, now).Ok?
    ensures Fresh(World(key, Subscribe(p, subscriber, mint, token, now).value, None, map[], map[], map[], map[]))
  {
  }

  /** With a trial, every one of the due dates the plan allows lies strictly before the expiry; without one the
      mandate never expires. */
  lemma DueDatesBeforeExpiry(p: Plan, subscriber: Key, mint: Key, token: TokenConfig, now: i64, k: nat)
    requires Subscribe(p, subscriber, mint, token, now).Ok? && k < MaxPulls(p)
    ensures var m := Subscribe(p, subscriber, mint, token, now).value;
            if p.billingType == E.Flat && p.trial > 0 then m.nextDue + k * m.frequency < m.expiry
            else m.expiry == 0
  {
    if p.billingType == E.Flat && p.trial > 0 {
      assert k * p.frequency < p.flatMaxPulls * p.frequency;
    }
  }

  /** So a trial mandate whose plan stands is never refused for expiry while it is pulled on time. */
  lemma {:induction false} SteadyTrialDueBeforeExpiry(key: Key, p: Plan, subscriber: Key, mint: Key,
                                                       token: TokenConfig, now: i64, acts: seq<Act>)
    requires Subscribe(p, subscriber, mint, token, now).Ok? && p.billingType == E.Flat && p.trial > 0
    requires Clocked(acts)
    ensures var w := World(key, Subscribe(p, subscriber, mint, token, now).value, None, map[], map[], map[], map[]);
            var m := Run(w, acts).mandate;
            Steady(Log(w, acts)) && m.pulls < m.maxPulls ==> m.nextDue < m.expiry
  {
    hide Run, Log, Steady, Clocked, Fresh;
    var w := World(key, Subscribe(p, subscriber, mint, token, now).value, None, map[], map[], map[], map[]);
    SubscribedIsFresh(key, p, subscriber, mint, token, now);
    if Steady(Log(w, acts)) {
      SteadyPace(w, acts);
      if Run(w, acts).mandate.pulls < MaxPulls(p) {
        DueDatesBeforeExpiry(p, subscriber, mint, token, now, Run(w, acts).mandate.pulls);
      }
    }
  }

  // ---------------------------------------------------------------- committed prices

  function SubmittedAt(log: seq<Entry>, s: i64): (r: Option<nat>)
    ensures r.Some? ==> r.value < |log| && log[r.value].Submitted? && log[r.value].report.start == s
  {
    if log == [] then None
    else if log[|log| - 1].Submitted? && log[|log| - 1].report.start == s then Some(|log| - 1)
    else SubmittedAt(log[..|log| - 1], s)
  }

  /** A stored report is the one submitted, and its hash commits to the terms of the plan at that time. */
  predicate AsSubmitted(w: World, log: seq<Entry>, s: i64)
    requires s in w.reports
  {
    && SubmittedAt(log, s).Some?
    && var e := log[SubmittedAt(log, s).value];
       SameReport(e.report, w.reports[s]) && w.reports[s].termsHash == TermsHash(e.terms)
  }

  /** A queued price computation is for the units and the committed terms of its report. */
  predicate QueuedFor(w: World, o: Offset)
    requires o in w.queued
  {
    o.slot.flow == UsageComputation ==>
      && o.slot.subject in w.reports && w.queued[o].PriceJob?
      && w.queued[o].units == w.reports[o.slot.subject].units
      && TermsHash(w.queued[o].terms) == w.reports[o.slot.subject].termsHash
  }

  ghost predicate Committed(w: World, log: seq<Entry>) {
    && (forall s :: s in w.reports ==> AsSubmitted(w, log, s))
    && (forall o :: o in w.queued ==> QueuedFor(w, o))
  }

  lemma NewReport(w: World, now: i64, e: Entry, after: World)
    requires Moves(w, now, e, after)
    ensures forall s :: s in after.reports && s !in w.reports ==>
              && e.Submitted? && e.report.start == s && after.reports[s] == e.report
              && e.report.termsHash == TermsHash(e.terms)
    ensures e.Submitted? ==> e.report.start !in w.reports
    ensures forall o :: o in after.queued ==>
              || (o in w.queued && after.queued[o] == w.queued[o])
              || (e.Requested? && o == e.offset && after.queued[o] == e.job && after.reports == w.reports)
    ensures e.Requested? ==> e.offset in after.queued && QueuedFor(after, e.offset)
  {
    hide TermsHash, Bound, Busy, InPeriod, Spendable;
  }

  lemma {:induction false} StepCommitted(w: World, log: seq<Entry>, now: i64, e: Entry, after: World)
    requires Committed(w, log) && Moves(w, now, e, after)
    ensures Committed(after, log + [e])
  {
    hide Moves, TermsHash, AsSubmitted, QueuedFor;
    forall s | s in after.reports
      ensures AsSubmitted(after, log + [e], s)
    {
      StepSubmitted(w, log, now, e, after, s);
    }
    forall o | o in after.queued
      ensures QueuedFor(after, o)
    {
      StepQueued(w, log, now, e, after, o);
    }
  }

  lemma {:induction false} StepSubmitted(w: World, log: seq<Entry>, now: i64, e: Entry, after: World, s: i64)
    requires Committed(w, log) && Moves(w, now, e, after) && s in after.reports
    ensures AsSubmitted(after, log + [e], s)
  {
    hide Moves, TermsHash, QueuedFor;
    NewReport(w, now, e, after);
    ReportsEffect(w, now, e, after);
    assert (log + [e])[..|log|] == log;
    assert s in w.reports ==> AsSubmitted(w, log, s);
  }

  lemma {:induction false} StepQueued(w: World, log: seq<Entry>, now: i64, e: Entry, after: World, o: Offset)
    requires Committed(w, log) && Moves(w, now, e, after) && o in after.queued
    ensures QueuedFor(after, o)
  {
    hide Moves, TermsHash, AsSubmitted;
    NewReport(w, now, e, after);
    ReportsEffect(w, now, e, after);
    assert o in w.queued ==> QueuedFor(w, o);
  }

  lemma {:induction false} RunCommitted(w: World, acts: seq<Act>)
    requires Fresh(w)
    ensures Committed(Run(w, acts), Log(w, acts))
  {
    hide Moves, After, EntryOf, Sane;
    if acts != [] {
      hide Committed;
      var n := |acts| - 1;
      RunCommitted(w, acts[..n]);
      LogMoves(w, acts, n);
      assert acts[..n + 1] == acts;
      StepCommitted(Run(w, acts[..n]), Log(w, acts[..n]), acts[n].env.now, Log(w, acts)[n], Run(w, acts));
    }
  }

  /** What the circuit chosen for the tiers computes. */
  function CircuitCharge(units: u64, tiers: seq<Pricing.Tier>, tierCount: u8, cap: u64): u64
    requires |tiers| == 5
  {
    if tierCount == 1 then Pricing.UsageCharge(units, tiers[0].rate, cap)
    else Min(Pricing.CircuitTotal(tiers, Min(tierCount, 5), units), cap)
  }

  function Computed(units: u64, t: E.PlanTerms): u64 {
    CircuitCharge(units, t.tiers, t.tierCount, t.maxCharge)
  }

  /** The network opens the units with `decrypt` and returns the result of the circuit it was asked to run. */
  predicate Honest(w: World, a: Act, decrypt: Ciphertext -> u64) {
    a.kind.OnUsage? && a.kind.offset in w.queued && w.queued[a.kind.offset].PriceJob? ==>
      a.kind.charge == Computed(decrypt(w.queued[a.kind.offset].units), w.queued[a.kind.offset].terms)
  }

  lemma UsageAcceptance(w: World, a: Act)
    requires Sane(w) && EntryOf(w, a).Accepted? && w.mandate.billingType == E.Usage
    ensures a.kind.OnUsage? && a.kind.offset == EntryOf(w, a).offset && EntryOf(w, a).approval.amount == a.kind.charge
  {
    hide Moves, Sane, Do;
    EveryStepMoves(w, a);
    if a.kind.OnValidation? {
      ValidationNeedsFlat(w, a);
    }
  }

  lemma ValidationNeedsFlat(w: World, a: Act)
    requires a.kind.OnValidation? && Do(w, a).Ok?
    ensures w.mandate.billingType == E.Flat
  {
    hide Grant, Bind;
  }

  lemma PlanPriced(p: Plan, units: u64)
    ensures Computed(units, Terms(p)) == CircuitCharge(units, p.tiers, p.tierCount, p.amount)
  {
    hide CircuitCharge;
  }

  lemma {:induction false} SubmissionAct(w: World, acts: seq<Act>, i: nat)
    requires Sane(w) && i < |acts| && Log(w, acts)[i].Submitted?
    ensures acts[i].kind.DoSubmit? && acts[i].kind.units == [Log(w, acts)[i].report.units]
    ensures Log(w, acts)[i].terms == Terms(acts[i].kind.plan)
  {
    hide Do, Run, Log, Sane, Moves;
    LogPrefix(w, acts, i);
    RunSane(w, acts[..i]);
    EveryStepMoves(Run(w, acts[..i]), acts[i]);
  }

  /** Terms commitment: with an honest network, an accepted usage charge is what the circuit computes from the
      units submitted and the tiers and cap of the plan as it was passed with them, whatever has happened to the plan
      since; it is at most the mandate's amount. */
  lemma {:induction false} ChargeIsCommittedPrice(w: World, acts: seq<Act>, j: nat, decrypt: Ciphertext -> u64)
    requires Fresh(w) && Clocked(acts) && j < |acts| && Log(w, acts)[j].Accepted?
    requires Run(w, acts[..j]).mandate.billingType == E.Usage && Honest(Run(w, acts[..j]), acts[j], decrypt)
    ensures var log, a := Log(w, acts), Log(w, acts)[j].approval;
            var submission := SubmittedAt(log[..j], a.periodStart);
            && submission.Some? && log[submission.value].Submitted?
            && log[submission.value].report.end == a.periodEnd
            && acts[submission.value].kind.DoSubmit? && |acts[submission.value].kind.units| == 1
            && a.amount <= Run(w, acts[..j]).mandate.amount
            && var plan, units := acts[submission.value].kind.plan, decrypt(acts[submission.value].kind.units[0]);
               a.amount == CircuitCharge(units, plan.tiers, plan.tierCount, plan.amount)
  {
    hide Moves, Run, Log, Sane, Committed, Requests, Honest, Computed, EntryOf, CircuitCharge, Terms;
    LogMoves(w, acts, j);
    LogPrefix(w, acts, j);
    RunCommitted(w, acts[..j]);
    RunRequests(w, acts[..j]);
    RunSane(w, acts[..j]);
    ChargeAsSubmitted(Run(w, acts[..j]), Log(w, acts)[..j], acts[j], decrypt, Run(w, acts[..j + 1]));
    var submission := SubmittedAt(Log(w, acts)[..j], Log(w, acts)[j].approval.periodStart).value;
    SubmissionAct(w, acts, submission);
    PlanPriced(acts[submission].kind.plan, decrypt(acts[submission].kind.units[0]));
  }

  lemma {:induction false} ChargeAsSubmitted(w: World, log: seq<Entry>, a: Act, decrypt: Ciphertext -> u64,
                                              after: World)
    requires Sane(w) && Committed(w, log) && Requests(w, log) && Moves(w, a.env.now, EntryOf(w, a), after)
    requires EntryOf(w, a).Accepted? && w.mandate.billingType == E.Usage && Honest(w, a, decrypt)
    ensures var approval := EntryOf(w, a).approval;
            var submission := SubmittedAt(log, approval.periodStart);
            && submission.Some? && log[submission.value].report.end == approval.periodEnd
            && approval.amount == Computed(decrypt(log[submission.value].report.units), log[submission.value].terms)
            && approval.amount <= w.mandate.amount
  {
    hide Moves, EntryOf, Computed, Requests, TermsHash;
    UsageAcceptance(w, a);
    UsageAccepted(w, log, a.env.now, EntryOf(w, a), after);
    var offset, s := EntryOf(w, a).offset, EntryOf(w, a).approval.periodStart;
    assert AsSubmitted(w, log, s);
    assert QueuedFor(w, offset);
    TermsCommitted(w.queued[offset].terms, log[SubmittedAt(log, s).value].terms);
  }

  lemma {:induction false} UsageAccepted(w: World, log: seq<Entry>, now: i64, e: Entry, after: World)
    requires Moves(w, now, e, after) && e.Accepted? && w.mandate.billingType == E.Usage && Requests(w, log)
    ensures e.offset in w.queued && e.offset.slot == Slot(UsageComputation, e.approval.periodStart)
    ensures e.approval.periodStart in w.reports && w.reports[e.approval.periodStart].end == e.approval.periodEnd
    ensures e.approval.amount <= w.mandate.amount
  {
    hide TermsHash, Used;
    assert Kept(w, log, Slot(UsageComputation, e.approval.periodStart));
  }

  /** Equal hashes commit to equal terms. */
  lemma TermsCommitted(a: E.PlanTerms, b: E.PlanTerms)
    requires TermsHash(a) == TermsHash(b)
    ensures a == b
  {
    E.TermsBytesInjective(E.TERMS_TAG, a, b);
  }

  predicate BoundIrrelevant(only: Pricing.Tier, units: u64, maxCharge: u64) {
    only.upTo == 0 || units <= only.upTo || only.rate == 0 || maxCharge <= Pricing.Times(only.upTo, only.rate)
  }

  /** On tiers the validators accept, that is the price of the units, unit by unit, up to the cap; a single tier
      is priced by a circuit that ignores its bound, which is right exactly when the bound cannot matter. */
  lemma ComputedIsPrice(units: u64, t: E.PlanTerms)
    requires 0 < t.tierCount <= 5 && units <= Pricing.MAX_SAFE_USAGE_UNITS
    requires Pricing.OrderedTiers(t.tiers[..t.tierCount]) && Pricing.BoundedTiers(t.tiers[..t.tierCount])
    ensures Computed(units, t) == Pricing.Price(t.tiers[..t.tierCount], units, t.maxCharge)
       <==> t.tierCount > 1 || BoundIrrelevant(t.tiers[0], units, t.maxCharge)
  {
    hide Pricing.CircuitTotal, Pricing.UsageCharge, Pricing.PriceUnits, Pricing.Times;
    var active := t.tiers[..t.tierCount];
    if t.tierCount == 1 {
      assert active == [t.tiers[0]];
      Pricing.OneTierAgreesIff(t.tiers[0], units, t.maxCharge);
    } else {
      Pricing.CircuitPricesUnits(active, |active|, units);
      Pricing.CircuitIgnoresUnused(t.tiers, t.tierCount, t.tierCount, units);
    }
  }

  // ---------------------------------------------------------------- agreement with the transfer hook

  /** Once a billing transfer is admitted and not exempt, the hook accepts exactly the approvals and the amounts
      the protocol's own check accepts, against the mandate as it is still stored. */
  lemma HookAgreesOnApprovals(w: World, env: S.Env, a: Approval, amount: u64)
    requires Admit(BillingCall(w, env, a, amount)) == Ok(false)
    ensures HandleTransfer(BillingCall(w, env, a, amount)).Ok?
       <==> Period(w.mandate).Ok? && CheckApproval(Some(a), w.key, Period(w.mandate).value, env.now) == Ok(a)
            && amount <= a.amount
  {
    hide Admit;
  }

  /** The hook never blocks a pull whose own checks have passed, even when a scheduled plan change has been applied. */
  lemma HookNeverBlocksPull(w: World, env: S.Env, plan: Plan, pendingPlan: Option<Plan>, report: Option<i64>)
    requires PullCharge(w, env, plan, pendingPlan, report).Ok?
    ensures var c := PullCharge(w, env, plan, pendingPlan, report).value;
            Admit(BillingCall(w, env, c.approval, c.moved)).Ok? ==>
              HandleTransfer(BillingCall(w, env, c.approval, c.moved)) == Ok(())
  {
    hide Admit, PullGuards, ApplyPending, CheckReport;
    PullGuardsPeriod(w, env, plan);
  }

  lemma PullGuardsPeriod(w: World, env: S.Env, plan: Plan)
    requires PullGuards(w, env, plan).Ok?
    ensures PullGuards(w, env, plan) == Period(w.mandate)
  {
    hide S.Gate, TokenAccepted, Period;
  }

  /** Nor a prorated charge. */
  lemma HookNeverBlocksProration(w: World, env: S.Env, delta: i64)
    requires delta > 0 && CheckProrated(w, delta, env.now).Ok?
    ensures var a := CheckProrated(w, delta, env.now).value;
            Admit(BillingCall(w, env, a, delta)).Ok? ==> HandleTransfer(BillingCall(w, env, a, delta)) == Ok(())
  {
    hide Admit;
  }
}
