/** When each instruction of an agent mandate is accepted, and that its terms are those last asked for. */
module AgentTerms {
  import opened Base
  import Hook
  import HookProofs
  import opened Agent
  import opened AgentProofs

  // ---------------------------------------------------------------- pulls

  /** What a counter stands at on the day of `now`. */
  function SpentToday(spent: nat, lastReset: i64, now: i64): nat {
    if now >= lastReset + DAY then 0 else spent
  }

  /** Room for the amount in the limit of the service that is paid. */
  predicate ServiceAllows(m: Mandate, service: Key, amount: u64, now: i64) {
    exists i :: 0 <= i < |m.services| && m.services[i].service == service
                && SpentToday(m.services[i].dailySpent, m.services[i].lastReset, now) + amount
                   <= m.services[i].dailyLimit
  }

  /** Room for the amount in the limits of the whole mandate, its minimum and its cooldown. */
  predicate MandateAllows(m: Mandate, amount: u64, now: i64) {
    && SpentToday(m.dailySpent, m.dailyLastReset, now) + amount <= m.dailyLimit
    && m.totalSpent + amount <= m.lifetimeCap
    && m.minPullAmount <= amount
    && (m.lastPullAt > 0 && m.minPullInterval > 0 ==> now >= m.lastPullAt + m.minPullInterval)
  }

  /** Both accounts hold the wrapped token, which is on the hook's rail; the source is the mandate's, with funds. */
  predicate AccountsAllow(env: Env, amount: u64) {
    var c := env.config;
    && !c.paused && c.hookProgram != DEFAULT_KEY && env.hookProgram == c.hookProgram && env.vault == c.vault
    && env.token == Some(Hook.TokenConfig(c.wrappedMint, true, Hook.TransferHook))
    && env.source.mint == c.wrappedMint && env.source.owner == env.self && env.source.amount >= amount
    && env.destination.mint == c.wrappedMint
  }

  lemma BudgetIff(m: Mandate, i: nat, amount: u64, now: i64)
    requires i < |m.services| && m.minPullInterval >= 0
    ensures Budget(m, i, amount, now).Ok? <==>
              && SpentToday(m.services[i].dailySpent, m.services[i].lastReset, now) + amount <= m.services[i].dailyLimit
              && MandateAllows(m, amount, now)
  {
  }

  lemma {:induction false} OnlyEntry(m: Mandate, service: Key, i: nat, amount: u64, now: i64)
    requires DistinctServices(m.services) && i < |m.services| && m.services[i].service == service
    ensures ServiceAllows(m, service, amount, now) <==>
              SpentToday(m.services[i].dailySpent, m.services[i].lastReset, now) + amount <= m.services[i].dailyLimit
  {
    if j :| 0 <= j < |m.services| && m.services[j].service == service {
      assert i == j;
    }
  }

  lemma TransferIff(m: Mandate, env: Env, amount: u64)
    requires PullApprovalFor(env, amount).Ok? && !env.config.paused && env.source.amount >= amount
    requires env.config.hookProgram != DEFAULT_KEY && env.hookProgram == env.config.hookProgram
    ensures Hook.HandleTransfer(PullTransfer(m, env, amount, PullApprovalFor(env, amount).value)).Ok?
       <==> AccountsAllow(env, amount)
  {
    hide Hook.HandleTransfer;
    HookProofs.TransferAllowedIff(PullTransfer(m, env, amount, PullApprovalFor(env, amount).value));
  }

  /** A pull is accepted exactly when the agent signs, the mandate is active, the service is listed with room for the
      amount today, the mandate has room today and for life, the amount is no less than the minimum, the cooldown is
      over, and accounts and funds are in order. */
  lemma {:induction false} PullAcceptedIff(m: Mandate, env: Env, amount: u64)
    requires Solvent(m)
    ensures Pull(m, env, amount).Ok? <==>
              && env.agent == m.agent && m.status == Status.Active
              && ServiceAllows(m, env.destination.owner, amount, env.now) && MandateAllows(m, amount, env.now)
              && AccountsAllow(env, amount) && env.now + AGENT_APPROVAL_TTL <= I64_MAX
  {
    hide Hook.HandleTransfer, Budget, Touch, Find, PullTransfer, ServiceAllows, MandateAllows;
    var found := Find(m.services, env.destination.owner);
    if found.None? {
      Unlisted(m, env.destination.owner, amount, env.now);
    } else {
      BudgetIff(m, found.value, amount, env.now);
      OnlyEntry(m, env.destination.owner, found.value, amount, env.now);
      if env.now + AGENT_APPROVAL_TTL <= I64_MAX && !env.config.paused && env.source.amount >= amount
         && env.config.hookProgram != DEFAULT_KEY && env.hookProgram == env.config.hookProgram
      {
        TransferIff(m, env, amount);
      }
    }
  }

  /** A pull makes one transfer: the amount, from the mandate's own account to the service's, on an approval that the
      pull writes for itself, for that amount and a minute. */
  lemma PullTransfers(m: Mandate, env: Env, amount: u64)
    requires Pull(m, env, amount).Ok?
    ensures var t := Pull(m, env, amount).value.1;
            && t.source == env.source && t.destination == env.destination && t.amount == amount
            && t.ownerKey == env.self == t.source.owner && t.mint == env.config.wrappedMint && t.now == env.now
            && t.slot == Hook.Present(Hook.Approval(env.self, 0, 0, env.now + 60, true, amount, env.now))
            && Hook.HandleTransfer(t).Ok? && t.amount <= t.source.amount
  {
    hide Hook.HandleTransfer, Budget, Touch, Find;
    HookProofs.TransferAllowedIff(Pull(m, env, amount).value.1);
  }

  lemma Unlisted(m: Mandate, service: Key, amount: u64, now: i64)
    requires Find(m.services, service).None?
    ensures !ServiceAllows(m, service, amount, now)
  {
    hide FindFrom;
  }

  // ---------------------------------------------------------------- adjustments and status

  predicate SpentWithin(services: seq<ServiceLimit>, inputs: seq<ServiceInput>) {
    forall i, j :: 0 <= i < |inputs| && 0 <= j < |services| && inputs[i].service == services[j].service ==>
      services[j].dailySpent <= inputs[i].dailyLimit
  }

  /** An adjustment names something, leaves no limit below what is spent, and lists at most eight distinct services. */
  predicate Adjustable(m: Mandate, c: Change) {
    && (c.dailyLimit.Some? || c.lifetimeCap.Some? || c.minPullAmount.Some? || c.minPullInterval.Some?
        || c.services.Some?)
    && (c.dailyLimit.Some? ==> m.dailySpent <= c.dailyLimit.value)
    && (c.lifetimeCap.Some? ==> m.totalSpent <= c.lifetimeCap.value)
    && (c.minPullInterval.Some? ==> 0 <= c.minPullInterval.value)
    && (c.services.Some? ==>
          && |c.services.value| <= 8
          && (forall i, j :: 0 <= i < j < |c.services.value| ==>
                c.services.value[i].service != c.services.value[j].service)
          && SpentWithin(m.services, c.services.value))
  }

  lemma {:induction false} MergedIs(services: seq<ServiceLimit>, input: ServiceInput, now: i64)
    requires DistinctServices(services)
    ensures var s := Merged(services, input, now);
            && s.service == input.service && s.dailyLimit == input.dailyLimit
            && (forall j :: 0 <= j < |services| && services[j].service == input.service ==>
                  ServiceCounter(s) == ServiceCounter(services[j]))
            && ((forall j :: 0 <= j < |services| ==> services[j].service != input.service) ==>
                  ServiceCounter(s) == Counter(0, now))
  {
    hide FindFrom;
  }

  lemma {:induction false} CoversIff(services: seq<ServiceLimit>, inputs: seq<ServiceInput>, now: i64)
    requires DistinctServices(services)
    ensures Covers(services, inputs, now) <==> SpentWithin(services, inputs)
  {
    hide Merged, ServiceCounter;
    forall i | 0 <= i < |inputs|
      ensures Merged(services, inputs[i], now).dailySpent <= inputs[i].dailyLimit
         <==> forall j :: 0 <= j < |services| && inputs[i].service == services[j].service ==>
                services[j].dailySpent <= inputs[i].dailyLimit
    {
      MergedSpent(services, inputs[i], now);
    }
  }

  lemma {:induction false} MergedSpent(services: seq<ServiceLimit>, input: ServiceInput, now: i64)
    requires DistinctServices(services)
    ensures Merged(services, input, now).dailySpent <= input.dailyLimit
       <==> forall j :: 0 <= j < |services| && input.service == services[j].service ==>
              services[j].dailySpent <= input.dailyLimit
  {
    hide Merged;
    MergedIs(services, input, now);
    if j :| 0 <= j < |services| && input.service == services[j].service {
      assert ServiceCounter(Merged(services, input, now)) == ServiceCounter(services[j]);
      forall k | 0 <= k < |services| && input.service == services[k].service
        ensures k == j
      {
      }
    } else {
      assert ServiceCounter(Merged(services, input, now)) == Counter(0, now);
    }
  }

  /** An adjustment is accepted exactly from the authority, before revocation, when it is adjustable so. */
  lemma AdjustAcceptedIff(m: Mandate, c: Change, signer: Key, now: i64)
    requires Solvent(m)
    ensures Adjust(m, c, signer, now).Ok? <==>
              signer == m.authority && m.status != Revoked && Adjustable(m, c)
  {
    hide Covers, MergedAll;
    if c.services.Some? {
      CoversIff(m.services, c.services.value, now);
    }
  }

  /** A service that stays on the list keeps its counter, and a new one starts at zero. */
  lemma AdjustedCounters(m: Mandate, c: Change, signer: Key, now: i64, i: nat)
    requires Solvent(m) && Adjust(m, c, signer, now).Ok?
    requires i < |Adjust(m, c, signer, now).value.services|
    ensures var s := Adjust(m, c, signer, now).value.services[i];
            && (forall j :: 0 <= j < |m.services| && m.services[j].service == s.service ==>
                  ServiceCounter(s) == ServiceCounter(m.services[j]))
            && ((forall j :: 0 <= j < |m.services| ==> m.services[j].service != s.service) ==>
                  ServiceCounter(s) == Counter(0, now))
  {
    hide Covers, Merged;
    if c.services.Some? {
      MergedIs(m.services, c.services.value[i], now);
    }
  }

  /** Pausing, resuming and revoking are the authority's, from active, paused and either. */
  lemma StatusAcceptedIff(m: Mandate, signer: Key)
    ensures Step(m, DoPause(signer)).Ok? <==> signer == m.authority && m.status == Status.Active
    ensures Step(m, DoResume(signer)).Ok? <==> signer == m.authority && m.status == Status.Paused
    ensures Step(m, DoRevoke(signer)).Ok? <==> signer == m.authority && m.status != Revoked
  {
  }

  // ---------------------------------------------------------------- what was asked for

  datatype Terms = Terms(
    authority: Key, agent: Key, dailyLimit: u64, lifetimeCap: u64, minPullAmount: u64, minPullInterval: i64,
    services: seq<ServiceInput>, status: Status)

  function TermsOf(m: Mandate): Terms {
    Terms(m.authority, m.agent, m.dailyLimit, m.lifetimeCap, m.minPullAmount, m.minPullInterval,
          seq(|m.services|, i requires 0 <= i < |m.services| =>
            ServiceInput(m.services[i].service, m.services[i].dailyLimit)), m.status)
  }

  function OpeningTerms(o: Opening, authority: Key, agent: Key): Terms {
    Terms(authority, agent, o.dailyLimit, o.lifetimeCap, o.minPullAmount, o.minPullInterval, o.services, Status.Active)
  }

  /** The terms of the opening, with whatever each accepted instruction since has named. */
  function Asked(t: Terms, m: Mandate, acts: seq<Act>): Terms {
    if acts == [] then t
    else
      var pre, a := acts[..|acts| - 1], acts[|acts| - 1];
      if Step(Run(m, pre), a).Ok? then Named(Asked(t, m, pre), a) else Asked(t, m, pre)
  }

  function Named(t: Terms, a: Act): Terms {
    match a
    case DoPull(_, _) => t
    case DoAdjust(c, _, _) =>
      t.(dailyLimit := OrElse(c.dailyLimit, t.dailyLimit), lifetimeCap := OrElse(c.lifetimeCap, t.lifetimeCap),
         minPullAmount := OrElse(c.minPullAmount, t.minPullAmount),
         minPullInterval := OrElse(c.minPullInterval, t.minPullInterval), services := OrElse(c.services, t.services))
    case DoPause(_) => t.(status := Status.Paused)
    case DoResume(_) => t.(status := Status.Active)
    case DoRevoke(_) => t.(status := Revoked)
  }

  lemma {:induction false} StepNamed(m: Mandate, a: Act)
    requires Solvent(m) && Step(m, a).Ok?
    ensures TermsOf(Step(m, a).value) == Named(TermsOf(m), a)
  {
    hide Hook.HandleTransfer, Find, Covers, Budget, Touch;
    match a
    case DoPull(env, amount) =>
      assert TermsOf(Step(m, a).value).services == TermsOf(m).services;
    case DoAdjust(c, _, _) =>
      if c.services.Some? {
        assert TermsOf(Step(m, a).value).services == c.services.value;
      }
    case _ =>
  }

  /** Over every run from the opening the limits, the services, the status and the parties are those last asked for. */
  lemma {:induction false} RunAsAsked(o: Opening, authority: Key, agent: Key, now: i64, acts: seq<Act>)
    requires Open(o, authority, agent, false, now).Ok?
    ensures var m := Open(o, authority, agent, false, now).value;
            TermsOf(Run(m, acts)) == Asked(OpeningTerms(o, authority, agent), m, acts)
  {
    hide Step, Solvent, TermsOf;
    var m := Open(o, authority, agent, false, now).value;
    OpenedTerms(o, authority, agent, now);
    if acts != [] {
      var pre, a := acts[..|acts| - 1], acts[|acts| - 1];
      RunAsAsked(o, authority, agent, now, pre);
      OpenSolvent(o, authority, agent, false, now);
      RunSolvent(m, pre);
      if Step(Run(m, pre), a).Ok? {
        StepNamed(Run(m, pre), a);
      }
    }
  }

  lemma {:induction false} OpenedTerms(o: Opening, authority: Key, agent: Key, now: i64)
    requires Open(o, authority, agent, false, now).Ok?
    ensures TermsOf(Open(o, authority, agent, false, now).value) == OpeningTerms(o, authority, agent)
  {
    assert TermsOf(Open(o, authority, agent, false, now).value).services == o.services;
  }

  /** Opening is refused for too many or repeated services, a negative interval or an occupied address only. */
  lemma OpenAcceptedIff(o: Opening, authority: Key, agent: Key, occupied: bool, now: i64)
    ensures Open(o, authority, agent, occupied, now).Ok? <==>
              && !occupied && |o.services| <= 8 && o.minPullInterval >= 0
              && forall i, j :: 0 <= i < j < |o.services| ==> o.services[i].service != o.services[j].service
  {
  }

  /** Every pull of a run is signed by the agent named at the opening, is made while the mandate was asked to be active,
      pays a service then listed, and is no smaller than the minimum then in force. */
  lemma {:induction false} EveryPullAsAsked(o: Opening, authority: Key, agent: Key, now: i64, acts: seq<Act>, k: nat)
    requires Open(o, authority, agent, false, now).Ok? && k < |acts|
    requires var m := Open(o, authority, agent, false, now).value;
             acts[k].DoPull? && Step(Run(m, acts[..k]), acts[k]).Ok?
    ensures var m, env := Open(o, authority, agent, false, now).value, acts[k].env;
            var t := Asked(OpeningTerms(o, authority, agent), m, acts[..k]);
            && env.agent == t.agent && t.status == Status.Active && t.minPullAmount <= acts[k].amount <= t.dailyLimit
            && exists i :: 0 <= i < |t.services| && t.services[i].service == env.destination.owner
                           && acts[k].amount <= t.services[i].dailyLimit
  {
    hide Pull, Solvent, Asked, Run;
    var m, env := Open(o, authority, agent, false, now).value, acts[k].env;
    RunAsAsked(o, authority, agent, now, acts[..k]);
    OpenSolvent(o, authority, agent, false, now);
    RunSolvent(m, acts[..k]);
    var before := Run(m, acts[..k]);
    PullAcceptedIff(before, env, acts[k].amount);
    var i :| 0 <= i < |before.services| && before.services[i].service == env.destination.owner
             && SpentToday(before.services[i].dailySpent, before.services[i].lastReset, env.now) + acts[k].amount
                <= before.services[i].dailyLimit;
    assert TermsOf(before).services[i] == ServiceInput(before.services[i].service, before.services[i].dailyLimit);
  }
}
