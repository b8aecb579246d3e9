/** What an agent can take over any run: the sliding window, the lifetime cap, the cooldown. */
module AgentProofs {
  import opened Base
  import Hook
  import opened Agent

  // ---------------------------------------------------------------- a daily counter on its own

  datatype Charge = Charge(service: Key, at: i64, amount: u64)

  function Spend(c: Counter, charge: Charge): Counter {
    var touched := Touch(c, charge.at);
    touched.(spent := touched.spent + charge.amount)
  }

  function Fold(c: Counter, charges: seq<Charge>): Counter {
    if charges == [] then c
    else Spend(Fold(c, charges[..|charges| - 1]), charges[|charges| - 1])
  }

  /** After every charge the counter is within the limit, and the clock never runs backwards. */
  predicate Within(c: Counter, charges: seq<Charge>, limit: nat) {
    if charges == [] then c.spent <= limit
    else
      var pre, last := charges[..|charges| - 1], charges[|charges| - 1];
      && Within(c, pre, limit)
      && Fold(c, charges).spent <= limit
      && (if pre == [] then c.lastReset else pre[|pre| - 1].at) <= last.at
  }

  lemma {:induction false} WithinAppend(c: Counter, charges: seq<Charge>, charge: Charge, limit: nat)
    requires Within(c, charges, limit) && Spend(Fold(c, charges), charge).spent <= limit
    requires (if charges == [] then c.lastReset else charges[|charges| - 1].at) <= charge.at
    ensures Fold(c, charges + [charge]) == Spend(Fold(c, charges), charge)
    ensures Within(c, charges + [charge], limit)
  {
    assert (charges + [charge])[..|charges|] == charges;
  }

  predicate InWindow(at: i64, from: int) {
    from <= at < from + DAY
  }

  function WindowSum(charges: seq<Charge>, from: int): nat {
    if charges == [] then 0
    else
      var last := charges[|charges| - 1];
      WindowSum(charges[..|charges| - 1], from) + if InWindow(last.at, from) then last.amount else 0
  }

  function SumSince(charges: seq<Charge>, from: int): nat {
    if charges == [] then 0
    else
      var last := charges[|charges| - 1];
      SumSince(charges[..|charges| - 1], from) + if from <= last.at then last.amount else 0
  }

  lemma {:induction false} WindowInvariant(c: Counter, charges: seq<Charge>, limit: nat, from: int)
    requires Within(c, charges, limit)
    ensures var now := Fold(c, charges);
            && now.spent <= limit
            && now.lastReset <= (if charges == [] then c.lastReset else charges[|charges| - 1].at)
            && WindowSum(charges, from) <= SumSince(charges, from)
            && (from >= now.lastReset + DAY ==> SumSince(charges, from) == 0)
            && (from >= now.lastReset ==> SumSince(charges, from) <= now.spent)
            && (from > now.lastReset - DAY ==> SumSince(charges, from) <= limit + now.spent)
            && WindowSum(charges, from) <= 2 * limit
  {
    if charges != [] {
      WindowInvariant(c, charges[..|charges| - 1], limit, from);
    }
  }

  /** A counter kept within a limit lets at most twice the limit through in any 86400 seconds. */
  lemma {:induction false} SlidingWindow(c: Counter, charges: seq<Charge>, limit: nat, from: int)
    requires Within(c, charges, limit)
    ensures WindowSum(charges, from) <= 2 * limit
  {
    WindowInvariant(c, charges, limit, from);
  }

  // ---------------------------------------------------------------- runs of a mandate

  datatype Act =
    | DoPull(env: Env, amount: u64)
    | DoAdjust(change: Change, signer: Key, at: i64)
    | DoPause(signer: Key)
    | DoResume(signer: Key)
    | DoRevoke(signer: Key)

  function Step(m: Mandate, a: Act): Result<Mandate> {
    match a
    case DoPull(env, amount) =>
      var pulled :- Pull(m, env, amount);
      Ok(pulled.0)
    case DoAdjust(change, signer, at) => Adjust(m, change, signer, at)
    case DoPause(signer) => SetStatus(m, signer, {Status.Active}, Status.Paused)
    case DoResume(signer) => SetStatus(m, signer, {Status.Paused}, Status.Active)
    case DoRevoke(signer) => SetStatus(m, signer, {Status.Active, Status.Paused}, Revoked)
  }

  function After(m: Mandate, a: Act): Mandate {
    match Step(m, a) case Ok(next) => next case Err(_) => m
  }

  function Run(m: Mandate, acts: seq<Act>): Mandate {
    if acts == [] then m else After(Run(m, acts[..|acts| - 1]), acts[|acts| - 1])
  }

  /** The transfer of a pull that went through. */
  function ChargeOf(m: Mandate, a: Act): seq<Charge> {
    if a.DoPull? && Pull(m, a.env, a.amount).Ok? then
      var transfer := Pull(m, a.env, a.amount).value.1;
      [Charge(transfer.destination.owner, a.env.now, transfer.amount)]
    else []
  }

  /** Every pull that went through, oldest first. */
  function Pulls(m: Mandate, acts: seq<Act>): seq<Charge> {
    if acts == [] then []
    else Pulls(m, acts[..|acts| - 1]) + ChargeOf(Run(m, acts[..|acts| - 1]), acts[|acts| - 1])
  }

  function PullsTo(m: Mandate, acts: seq<Act>, service: Key): seq<Charge> {
    if acts == [] then []
    else
      var charge := ChargeOf(Run(m, acts[..|acts| - 1]), acts[|acts| - 1]);
      PullsTo(m, acts[..|acts| - 1], service) + if charge != [] && charge[0].service == service then charge else []
  }

  function Total(charges: seq<Charge>): nat {
    if charges == [] then 0 else Total(charges[..|charges| - 1]) + charges[|charges| - 1].amount
  }

  /** The clock pulls see never runs backwards, from `start` on. */
  predicate Clocked(start: i64, acts: seq<Act>) {
    acts == [] || (Clocked(start, acts[..|acts| - 1]) && Time(start, acts[..|acts| - 1]) <= Time(start, acts))
  }

  function Time(start: i64, acts: seq<Act>): i64 {
    if acts == [] then start
    else
      match acts[|acts| - 1]
      case DoPull(env, _) => env.now
      case DoAdjust(_, _, at) => at
      case _ => Time(start, acts[..|acts| - 1])
  }

  // ---------------------------------------------------------------- the budget invariant

  predicate DistinctServices(services: seq<ServiceLimit>) {
    forall i, j :: 0 <= i < j < |services| ==> services[i].service != services[j].service
  }

  predicate Solvent(m: Mandate) {
    && |m.services| <= MAX_SERVICES
    && DistinctServices(m.services)
    && (forall i :: 0 <= i < |m.services| ==> m.services[i].dailySpent <= m.services[i].dailyLimit)
    && m.dailySpent <= m.dailyLimit
    && m.totalSpent <= m.lifetimeCap
    && m.minPullInterval >= 0
  }

  lemma OpenSolvent(o: Opening, authority: Key, agent: Key, occupied: bool, now: i64)
    ensures Open(o, authority, agent, occupied, now).Ok? ==>
              var m := Open(o, authority, agent, occupied, now).value;
              Solvent(m) && m.totalSpent == 0 && m.lastPullAt == 0 && Daily(m) == Counter(0, now)
              && forall i :: 0 <= i < |m.services| ==> ServiceCounter(m.services[i]) == Counter(0, now)
  {
  }

  lemma StepSolvent(m: Mandate, a: Act)
    requires Solvent(m)
    ensures Solvent(After(m, a))
    ensures m.status == Revoked ==> After(m, a) == m && ChargeOf(m, a) == []
    ensures After(m, a).totalSpent == m.totalSpent + Total(ChargeOf(m, a))
  {
    hide Hook.HandleTransfer, Find;
  }

  /** The budget invariant over every run; what was spent is what was pulled; revocation is final. */
  lemma {:induction false} RunSolvent(m: Mandate, acts: seq<Act>)
    requires Solvent(m)
    ensures Solvent(Run(m, acts))
    ensures Run(m, acts).totalSpent == m.totalSpent + Total(Pulls(m, acts))
    ensures Total(Pulls(m, acts)) <= Run(m, acts).lifetimeCap
    ensures m.status == Revoked ==> Run(m, acts) == m && Pulls(m, acts) == []
  {
    if acts != [] {
      var pre, a := acts[..|acts| - 1], acts[|acts| - 1];
      RunSolvent(m, pre);
      StepSolvent(Run(m, pre), a);
      TotalAppend(Pulls(m, pre), ChargeOf(Run(m, pre), a));
    }
  }

  lemma {:induction false} TotalAppend(charges: seq<Charge>, more: seq<Charge>)
    requires |more| <= 1
    ensures Total(charges + more) == Total(charges) + Total(more)
  {
    if more != [] {
      assert (charges + more)[..|charges|] == charges;
      assert more[..0] == [];
    } else {
      assert charges + more == charges;
    }
  }

  // ---------------------------------------------------------------- the window of the whole mandate

  predicate LimitWithin(m: Mandate, acts: seq<Act>, limit: nat) {
    Run(m, acts).dailyLimit <= limit && (acts == [] || LimitWithin(m, acts[..|acts| - 1], limit))
  }

  lemma {:induction false} DailyIsFold(m: Mandate, start: i64, acts: seq<Act>, limit: nat)
    requires Solvent(m) && m.dailyLastReset <= start && Clocked(start, acts) && LimitWithin(m, acts, limit)
    ensures Daily(Run(m, acts)) == Fold(Daily(m), Pulls(m, acts))
    ensures Within(Daily(m), Pulls(m, acts), limit)
    ensures Pulls(m, acts) != [] ==> Pulls(m, acts)[|Pulls(m, acts)| - 1].at <= Time(start, acts)
    ensures start <= Time(start, acts)
  {
    hide Pull, Adjust, SetStatus, Spend, Solvent, Touch;
    RunSolvent(m, acts);
    DailyCovered(Run(m, acts));
    if acts == [] {
      assert Fold(Daily(m), []) == Daily(m) && Within(Daily(m), [], limit);
    } else {
      hide Fold, Within;
      var pre, a := acts[..|acts| - 1], acts[|acts| - 1];
      DailyIsFold(m, start, pre, limit);
      StepDaily(Run(m, pre), a);
      var charge := ChargeOf(Run(m, pre), a);
      if charge == [] {
        assert Pulls(m, acts) == Pulls(m, pre);
      } else {
        WithinAppend(Daily(m), Pulls(m, pre), charge[0], limit);
      }
    }
  }

  lemma DailyCovered(m: Mandate)
    requires Solvent(m)
    ensures Daily(m).spent <= m.dailyLimit
  {
  }

  lemma StepDaily(m: Mandate, a: Act)
    ensures Daily(After(m, a)) == if ChargeOf(m, a) == [] then Daily(m) else Spend(Daily(m), ChargeOf(m, a)[0])
  {
    hide Hook.HandleTransfer, Find;
  }

  /** Over any run, whatever is adjusted, paused or resumed on the way: at most twice the highest
      daily limit leaves the mandate in any half-open interval of 86400 seconds. */
  lemma {:induction false} MandateWindow(m: Mandate, start: i64, acts: seq<Act>, limit: nat, from: int)
    requires Solvent(m) && m.dailyLastReset <= start && Clocked(start, acts) && LimitWithin(m, acts, limit)
    ensures WindowSum(Pulls(m, acts), from) <= 2 * limit
  {
    DailyIsFold(m, start, acts, limit);
    SlidingWindow(Daily(m), Pulls(m, acts), limit, from);
  }

  // ---------------------------------------------------------------- the window of one service

  /** The service is on the list in every state of the run, with a limit within the bound. */
  predicate Listed(m: Mandate, acts: seq<Act>, service: Key, limit: nat) {
    var r := Find(Run(m, acts).services, service);
    && r.Some? && Run(m, acts).services[r.value].dailyLimit <= limit
    && (acts == [] || Listed(m, acts[..|acts| - 1], service, limit))
  }

  function CounterOf(m: Mandate, service: Key): Counter
    requires Find(m.services, service).Some?
  {
    ServiceCounter(m.services[Find(m.services, service).value])
  }

  lemma {:induction false} FindSame(before: seq<ServiceLimit>, after: seq<ServiceLimit>, service: Key)
    requires |before| == |after|
    requires forall i :: 0 <= i < |before| ==> before[i].service == after[i].service
    ensures Find(before, service) == Find(after, service)
  {
  }

  lemma StepService(m: Mandate, a: Act, service: Key)
    requires Find(m.services, service).Some? && Find(After(m, a).services, service).Some?
    ensures var charge := ChargeOf(m, a);
            CounterOf(After(m, a), service)
            == if charge != [] && charge[0].service == service then Spend(CounterOf(m, service), charge[0])
               else CounterOf(m, service)
  {
    hide Hook.HandleTransfer, FindFrom;
    if a.DoPull? && Step(m, a).Ok? {
      FindSame(m.services, After(m, a).services, service);
    }
  }

  lemma {:induction false} ServiceIsFold(m: Mandate, start: i64, acts: seq<Act>, service: Key, limit: nat)
    requires Solvent(m) && Clocked(start, acts) && Listed(m, acts, service, limit)
    requires Find(m.services, service).Some? && CounterOf(m, service).lastReset <= start
    ensures CounterOf(Run(m, acts), service) == Fold(CounterOf(m, service), PullsTo(m, acts, service))
    ensures Within(CounterOf(m, service), PullsTo(m, acts, service), limit)
    ensures var p := PullsTo(m, acts, service); p != [] ==> p[|p| - 1].at <= Time(start, acts)
    ensures start <= Time(start, acts)
  {
    hide Pull, Adjust, SetStatus, Spend, Solvent, Touch, Find, CounterOf, ChargeOf, Step;
    RunSolvent(m, acts);
    ServiceCovered(Run(m, acts), service);
    if acts == [] {
      assert Fold(CounterOf(m, service), []) == CounterOf(m, service);
      assert Within(CounterOf(m, service), [], limit);
    } else {
      hide Fold, Within;
      var pre, a := acts[..|acts| - 1], acts[|acts| - 1];
      ServiceIsFold(m, start, pre, service, limit);
      StepService(Run(m, pre), a, service);
      PullsToNext(m, start, acts, service);
      var charge := ChargeOf(Run(m, pre), a);
      hide Run, PullsTo;
      if charge != [] && charge[0].service == service {
        WithinAppend(CounterOf(m, service), PullsTo(m, pre, service), charge[0], limit);
      } else {
        assert PullsTo(m, acts, service) == PullsTo(m, pre, service);
      }
    }
  }

  lemma {:induction false} PullsToNext(m: Mandate, start: i64, acts: seq<Act>, service: Key)
    requires acts != []
    ensures var pre := acts[..|acts| - 1];
            var charge := ChargeOf(Run(m, pre), acts[|acts| - 1]);
            && PullsTo(m, acts, service)
               == PullsTo(m, pre, service) + (if charge != [] && charge[0].service == service then [charge[0]] else [])
            && (charge != [] ==> charge[0].at == Time(start, acts))
  {
    hide Step, Run;
  }

  lemma ServiceCovered(m: Mandate, service: Key)
    requires Solvent(m) && Find(m.services, service).Some?
    ensures CounterOf(m, service).spent <= m.services[Find(m.services, service).value].dailyLimit
  {
  }

  /** The same bound for each service, while it stays on the list. */
  lemma {:induction false} ServiceWindow(m: Mandate, start: i64, acts: seq<Act>, service: Key, limit: nat, from: int)
    requires Solvent(m) && Clocked(start, acts) && Listed(m, acts, service, limit)
    requires Find(m.services, service).Some? && CounterOf(m, service).lastReset <= start
    ensures WindowSum(PullsTo(m, acts, service), from) <= 2 * limit
  {
    ServiceIsFold(m, start, acts, service, limit);
    SlidingWindow(CounterOf(m, service), PullsTo(m, acts, service), limit, from);
  }

  // ---------------------------------------------------------------- the cooldown

  lemma {:induction false} LastPullRemembered(m: Mandate, acts: seq<Act>)
    ensures Run(m, acts).lastPullAt
         == if Pulls(m, acts) == [] then m.lastPullAt else Pulls(m, acts)[|Pulls(m, acts)| - 1].at
  {
    hide Pull, Adjust, SetStatus;
    if acts != [] {
      LastPullRemembered(m, acts[..|acts| - 1]);
      StepLastPull(Run(m, acts[..|acts| - 1]), acts[|acts| - 1]);
    }
  }

  lemma StepLastPull(m: Mandate, a: Act)
    ensures After(m, a).lastPullAt == if ChargeOf(m, a) == [] then m.lastPullAt else ChargeOf(m, a)[0].at
  {
    hide Hook.HandleTransfer, Find, Budget;
  }

  /** Two pulls in a row are at least the interval in force apart. */
  lemma {:induction false} Cooldown(m: Mandate, acts: seq<Act>, a: Act)
    requires ChargeOf(Run(m, acts), a) != [] && Pulls(m, acts) != []
    requires Pulls(m, acts)[|Pulls(m, acts)| - 1].at > 0
    ensures Run(m, acts).minPullInterval > 0 ==>
              a.env.now - Pulls(m, acts)[|Pulls(m, acts)| - 1].at >= Run(m, acts).minPullInterval
  {
    hide Hook.HandleTransfer, Find;
    LastPullRemembered(m, acts);
  }

  // ---------------------------------------------------------------- agreement with the hook

  /** The approval a pull writes for itself always satisfies the hook's approval branch. */
  lemma HookNeverBlocksPull(m: Mandate, env: Env, amount: u64)
    requires PullApprovalFor(env, amount).Ok?
    ensures var t := PullTransfer(m, env, amount, PullApprovalFor(env, amount).value);
            Hook.HandleTransfer(t).Ok? <==> Hook.Admit(t).Ok?
  {
  }

  // ---------------------------------------------------------------- from the opening on

  /** Over every run from the opening of a mandate: the budget invariant, all pulls within the lifetime cap, and
      at most twice the highest daily limit in any 86400 seconds. */
  lemma {:induction false} OpenedBudget(o: Opening, authority: Key, agent: Key, now: i64, acts: seq<Act>,
                                         limit: nat, from: int)
    requires Open(o, authority, agent, false, now).Ok?
    ensures var m := Open(o, authority, agent, false, now).value;
            && Solvent(Run(m, acts))
            && Run(m, acts).totalSpent == Total(Pulls(m, acts)) <= Run(m, acts).lifetimeCap
            && (Clocked(now, acts) && LimitWithin(m, acts, limit) ==> WindowSum(Pulls(m, acts), from) <= 2 * limit)
  {
    hide Open, Solvent, Clocked, LimitWithin, Run, Pulls, Total, WindowSum;
    OpenSolvent(o, authority, agent, false, now);
    var m := Open(o, authority, agent, false, now).value;
    RunSolvent(m, acts);
    if Clocked(now, acts) && LimitWithin(m, acts, limit) {
      MandateWindow(m, now, acts, limit, from);
    }
  }

  // ---------------------------------------------------------------- the factor two is attained

  const SERVICE: Key := 5
  const MINT: Key := 11

  /** A mandate opened at time zero whose one service may take the whole daily limit, twice in its life. */
  function TightMandate(limit: u64): Mandate
    requires 2 * limit <= U64_MAX
  {
    Mandate(1, 2, limit, 0, 0, 2 * limit, 0, 0, 0, 0, Status.Active, [ServiceLimit(SERVICE, limit, 0, 0)])
  }

  function TightEnv(now: i64): Env {
    Env(now, 7, 2, Hook.ProtocolConfig(false, 3, 9, MINT), 3, 9, Some(Hook.TokenConfig(MINT, true, Hook.TransferHook)),
        Hook.TokenAccount(20, MINT, 7, U64_MAX), Hook.TokenAccount(21, MINT, SERVICE, 0))
  }

  /** The mandate after a pull of the whole limit. */
  function TightAfter(limit: u64, total: u64, reset: i64, now: i64): Mandate
    requires 2 * limit <= U64_MAX
  {
    TightMandate(limit).(dailySpent := limit, dailyLastReset := reset, totalSpent := total, lastPullAt := now,
                         services := [ServiceLimit(SERVICE, limit, limit, reset)])
  }

  lemma TightFirstPull(limit: u64)
    requires 2 * limit <= U64_MAX
    ensures var r := Pull(TightMandate(limit), TightEnv(DAY - 1), limit);
            && r.Ok? && r.value.0 == TightAfter(limit, limit, 0, DAY - 1)
            && r.value.1.destination.owner == SERVICE && r.value.1.amount == limit
  {
    var m, env := TightMandate(limit), TightEnv(DAY - 1);
    assert Find(m.services, SERVICE) == Some(0);
    assert Hook.HandleTransfer(PullTransfer(m, env, limit, PullApprovalFor(env, limit).value)).Ok?;
    assert m.services[0 := ServiceLimit(SERVICE, limit, limit, 0)] == [ServiceLimit(SERVICE, limit, limit, 0)];
  }

  lemma TightSecondPull(limit: u64)
    requires 2 * limit <= U64_MAX
    ensures var r := Pull(TightAfter(limit, limit, 0, DAY - 1), TightEnv(DAY), limit);
            && r.Ok? && r.value.0 == TightAfter(limit, 2 * limit, DAY, DAY)
            && r.value.1.destination.owner == SERVICE && r.value.1.amount == limit
  {
    var m, env := TightAfter(limit, limit, 0, DAY - 1), TightEnv(DAY);
    assert Find(m.services, SERVICE) == Some(0);
    assert Hook.HandleTransfer(PullTransfer(m, env, limit, PullApprovalFor(env, limit).value)).Ok?;
    assert m.services[0 := ServiceLimit(SERVICE, limit, limit, DAY)] == [ServiceLimit(SERVICE, limit, limit, DAY)];
  }

  /** Two pulls of the whole limit, a second before the reset falls due and at it, both go through: the bound of
      twice the limit cannot be lowered. */
  lemma {:induction false} MandateWindowTight(limit: u64)
    requires 2 * limit <= U64_MAX
    ensures var m := TightMandate(limit);
            var acts := [DoPull(TightEnv(DAY - 1), limit), DoPull(TightEnv(DAY), limit)];
            && Solvent(m) && m.dailyLastReset == 0 && Clocked(0, acts) && LimitWithin(m, acts, limit)
            && WindowSum(Pulls(m, acts), DAY - 1) == 2 * limit
  {
    hide Pull;
    var m := TightMandate(limit);
    var first, second := DoPull(TightEnv(DAY - 1), limit), DoPull(TightEnv(DAY), limit);
    var one, two := [first], [first, second];
    assert one[..0] == [] && two[..1] == one;
    TightFirstPull(limit);
    TightSecondPull(limit);
    assert Run(m, []) == m && Run(m, one) == TightAfter(limit, limit, 0, DAY - 1);
    assert Run(m, two) == TightAfter(limit, 2 * limit, DAY, DAY);
    assert LimitWithin(m, [], limit) && LimitWithin(m, one, limit);
    assert Clocked(0, []) && Clocked(0, one);
    var a, b := Charge(SERVICE, DAY - 1, limit), Charge(SERVICE, DAY, limit);
    assert Pulls(m, []) == [] && Pulls(m, one) == [a] && Pulls(m, two) == [a] + [b];
    assert ([a] + [b])[..1] == [a] && [a][..0] == [];
    assert WindowSum([a], DAY - 1) == limit;
  }
}
