/** Agent budgets: lazily reset daily counters, a lifetime cap, a cooldown and a service list. */
module Agent {
  import opened Base
  import opened Hook

  const DAY: i64 := 86_400
  const MAX_SERVICES := 8
  const AGENT_APPROVAL_TTL := 60

  datatype Status = Active | Paused | Revoked

  datatype ServiceLimit = ServiceLimit(service: Key, dailyLimit: u64, dailySpent: u64, lastReset: i64)

  datatype ServiceInput = ServiceInput(service: Key, dailyLimit: u64)

  datatype Mandate = Mandate(
    authority: Key,
    agent: Key,
    dailyLimit: u64,
    dailySpent: u64,
    dailyLastReset: i64,
    lifetimeCap: u64,
    totalSpent: u64,
    minPullAmount: u64,
    minPullInterval: i64,
    lastPullAt: i64,
    status: Status,
    services: seq<ServiceLimit>)

  /** What a pull reads besides the mandate; `agent` has signed it. */
  datatype Env = Env(
    now: i64,
    self: Key,
    agent: Key,
    config: ProtocolConfig,
    hookProgram: Key,
    vault: Key,
    token: Option<TokenConfig>,
    source: TokenAccount,
    destination: TokenAccount)

  // ---------------------------------------------------------------- specification

  /** A daily counter: what was spent since the last reset. */
  datatype Counter = Counter(spent: nat, lastReset: i64)

  /** The counter a pull at `now` starts from: zero once a whole day has passed since the reset. */
  function Touch(c: Counter, now: i64): Counter {
    if now - c.lastReset >= DAY then Counter(0, now) else c
  }

  function Daily(m: Mandate): Counter {
    Counter(m.dailySpent, m.dailyLastReset)
  }

  function ServiceCounter(s: ServiceLimit): Counter {
    Counter(s.dailySpent, s.lastReset)
  }

  /** Position of the first entry for the service. */
  function Find(services: seq<ServiceLimit>, service: Key): (r: Option<nat>)
    ensures r.Some? ==> r.value < |services| && services[r.value].service == service
                        && forall i :: 0 <= i < r.value ==> services[i].service != service
    ensures r.None? ==> forall i :: 0 <= i < |services| ==> services[i].service != service
  {
    FindFrom(services, service, 0)
  }

  function FindFrom(services: seq<ServiceLimit>, service: Key, from: nat): (r: Option<nat>)
    requires from <= |services|
    ensures r.Some? ==> from <= r.value < |services| && services[r.value].service == service
                        && forall i :: from <= i < r.value ==> services[i].service != service
    ensures r.None? ==> forall i :: from <= i < |services| ==> services[i].service != service
    decreases |services| - from
  {
    if from == |services| then None
    else if services[from].service == service then Some(from)
    else FindFrom(services, service, from + 1)
  }

  function PullTransfer(m: Mandate, env: Env, amount: u64, approval: Approval): Transfer {
    Transfer(env.hookProgram, env.config, env.token, env.config.wrappedMint, env.source, env.destination,
             env.self, OtherOwner, env.vault, env.self, Present(approval), amount, env.now)
  }

  function PullApprovalFor(env: Env, amount: u64): Result<Approval> {
    var validUntil :- ToI64(env.now + AGENT_APPROVAL_TTL, Overflow);
    Ok(Approval(env.self, 0, 0, validUntil, true, amount, env.now))
  }

  /** The guards on the budget, in the order they are checked. */
  function Budget(m: Mandate, i: nat, amount: u64, now: i64): Result<()>
    requires i < |m.services|
  {
    var daily := Touch(Daily(m), now);
    var service := Touch(ServiceCounter(m.services[i]), now);
    if service.spent + amount > U64_MAX then Err(Overflow)
    else if service.spent + amount > m.services[i].dailyLimit then Err(ServiceDailyLimitExceeded)
    else if daily.spent + amount > U64_MAX then Err(Overflow)
    else if daily.spent + amount > m.dailyLimit then Err(DailyLimitExceeded)
    else if m.totalSpent + amount > U64_MAX then Err(Overflow)
    else if m.totalSpent + amount > m.lifetimeCap then Err(LifetimeCapExceeded)
    else if amount < m.minPullAmount then Err(PullAmountTooSmall)
    else if m.lastPullAt > 0 && m.minPullInterval > 0 && now - m.lastPullAt < m.minPullInterval then
      Err(PullCooldownActive)
    else Ok(())
  }

  /** The mandate after a pull, and the transfer that the pull makes. */
  function Pull(m: Mandate, env: Env, amount: u64): Result<(Mandate, Transfer)> {
    var _ :- Need(env.agent == m.agent, InvalidAccountData);
    var _ :- Need(m.status != Status.Paused, MandatePaused);
    var _ :- Need(m.status != Revoked, MandateRevoked);
    var _ :- Need(!env.config.paused, ProtocolPaused);
    var _ :- Need(env.config.hookProgram != DEFAULT_KEY, InvalidProtocolConfig);
    var _ :- Need(env.hookProgram == env.config.hookProgram, InvalidProtocolConfig);
    match Find(m.services, env.destination.owner)
    case None => Err(UnauthorizedService)
    case Some(i) =>
      var _ :- Budget(m, i, amount, env.now);
      var _ :- Need(env.source.amount >= amount, InsufficientMandateBalance);
      var approval :- PullApprovalFor(env, amount);
      var transfer := PullTransfer(m, env, amount, approval);
      var _ :- HandleTransfer(transfer);
      var daily := Touch(Daily(m), env.now);
      var service := Touch(ServiceCounter(m.services[i]), env.now);
      Ok((m.(dailySpent := daily.spent + amount, dailyLastReset := daily.lastReset,
             totalSpent := m.totalSpent + amount, lastPullAt := env.now,
             services := m.services[i := m.services[i].(dailySpent := service.spent + amount,
                                                        lastReset := service.lastReset)]),
          transfer))
  }

  predicate DistinctInputs(inputs: seq<ServiceInput>) {
    forall i, j :: 0 <= i < j < |inputs| ==> inputs[i].service != inputs[j].service
  }

  /** An entry of a new list: a service already listed keeps its counter, a new one starts at zero. */
  function Merged(services: seq<ServiceLimit>, input: ServiceInput, now: i64): ServiceLimit {
    match Find(services, input.service)
    case None => ServiceLimit(input.service, input.dailyLimit, 0, now)
    case Some(i) =>
      ServiceLimit(input.service, input.dailyLimit, services[i].dailySpent, services[i].lastReset)
  }

  /** The new list covers what its services have already spent. */
  predicate Covers(services: seq<ServiceLimit>, inputs: seq<ServiceInput>, now: i64) {
    forall i :: 0 <= i < |inputs| ==> Merged(services, inputs[i], now).dailySpent <= inputs[i].dailyLimit
  }

  function MergedAll(services: seq<ServiceLimit>, inputs: seq<ServiceInput>, now: i64): (r: seq<ServiceLimit>)
    ensures |r| == |inputs|
    ensures forall i :: 0 <= i < |r| ==> r[i] == Merged(services, inputs[i], now)
  {
    seq(|inputs|, i requires 0 <= i < |inputs| => Merged(services, inputs[i], now))
  }

  function RebuildServices(services: seq<ServiceLimit>, inputs: seq<ServiceInput>, now: i64)
    : Result<seq<ServiceLimit>>
  {
    var _ :- Need(|inputs| <= MAX_SERVICES, TooManyServices);
    var _ :- Need(DistinctInputs(inputs), DuplicateService);
    var _ :- Need(Covers(services, inputs, now), InvalidAmount);
    Ok(MergedAll(services, inputs, now))
  }

  datatype Change = Change(
    dailyLimit: Option<u64>,
    lifetimeCap: Option<u64>,
    minPullAmount: Option<u64>,
    minPullInterval: Option<i64>,
    services: Option<seq<ServiceInput>>)

  function AdjustLimits(m: Mandate, c: Change): Result<Mandate> {
    var _ :- Need(c.dailyLimit.Some? ==> c.dailyLimit.value >= m.dailySpent, InvalidAmount);
    var _ :- Need(c.lifetimeCap.Some? ==> c.lifetimeCap.value >= m.totalSpent, InvalidAmount);
    var _ :- Need(c.minPullInterval.Some? ==> c.minPullInterval.value >= 0, InvalidFrequency);
    Ok(m.(dailyLimit := OrElse(c.dailyLimit, m.dailyLimit),
          lifetimeCap := OrElse(c.lifetimeCap, m.lifetimeCap),
          minPullAmount := OrElse(c.minPullAmount, m.minPullAmount),
          minPullInterval := OrElse(c.minPullInterval, m.minPullInterval)))
  }

  function Adjust(m: Mandate, c: Change, signer: Key, now: i64): Result<Mandate> {
    var _ :- Need(c != Change(None, None, None, None, None), NoUpdateProvided);
    var _ :- Need(signer == m.authority, UnauthorizedAgentMandateAuthority);
    var _ :- Need(m.status != Revoked, InvalidAgentMandateStatusTransition);
    var limited :- AdjustLimits(m, c);
    var services :- if c.services.Some? then RebuildServices(m.services, c.services.value, now) else Ok(m.services);
    Ok(limited.(services := services))
  }

  /** Pause, resume and revoke move only the status. */
  function SetStatus(m: Mandate, signer: Key, from: set<Status>, to: Status): Result<Mandate> {
    var _ :- Need(signer == m.authority, UnauthorizedAgentMandateAuthority);
    var _ :- Need(m.status in from, InvalidAgentMandateStatusTransition);
    Ok(m.(status := to))
  }

  datatype Opening = Opening(
    dailyLimit: u64, lifetimeCap: u64, minPullAmount: u64, minPullInterval: i64, services: seq<ServiceInput>)

  /** Opening is refused where the address already holds an agent mandate. */
  function Open(o: Opening, authority: Key, agent: Key, occupied: bool, now: i64): Result<Mandate> {
    var _ :- Need(|o.services| <= MAX_SERVICES, TooManyServices);
    var _ :- Need(o.minPullInterval >= 0, InvalidFrequency);
    var _ :- Need(DistinctInputs(o.services), DuplicateService);
    var _ :- Need(!occupied, AgentMandateAlreadyExists);
    Ok(Mandate(authority, agent, o.dailyLimit, 0, now, o.lifetimeCap, 0, o.minPullAmount, o.minPullInterval, 0,
               Status.Active, MergedAll([], o.services, now)))
  }

  // ---------------------------------------------------------------- instructions

  /** Early exit on the first repeated service. */
  method CheckDistinct(inputs: seq<ServiceInput>) returns (r: Result<()>)
    ensures r == Need(DistinctInputs(inputs), DuplicateService)
  {
    for i := 0 to |inputs|
      invariant forall a, b :: 0 <= a < i && a < b < |inputs| ==> inputs[a].service != inputs[b].service
    {
      for j := i + 1 to |inputs|
        invariant forall b :: i < b < j ==> inputs[i].service != inputs[b].service
      {
        if inputs[i].service == inputs[j].service {
          return Err(DuplicateService);
        }
      }
    }
    return Ok(());
  }

  method RebuildServiceList(current: seq<ServiceLimit>, inputs: seq<ServiceInput>, now: i64)
    returns (r: Result<seq<ServiceLimit>>)
    ensures r == RebuildServices(current, inputs, now)
  {
    var _ :- Need(|inputs| <= MAX_SERVICES, TooManyServices);
    var _ :- CheckDistinct(inputs);
    var updated: seq<ServiceLimit> := [];
    for i := 0 to |inputs|
      invariant updated == MergedAll(current, inputs, now)[..i]
      invariant forall k :: 0 <= k < i ==> Merged(current, inputs[k], now).dailySpent <= inputs[k].dailyLimit
    {
      var next := Merged(current, inputs[i], now);
      var _ :- Need(inputs[i].dailyLimit >= next.dailySpent, InvalidAmount);
      updated := updated + [next];
    }
    assert updated == MergedAll(current, inputs, now);
    return Ok(updated);
  }

  class AgentMandate {
    var authority: Key
    var agent: Key
    var dailyLimit: u64
    var dailySpent: u64
    var dailyLastReset: i64
    var lifetimeCap: u64
    var totalSpent: u64
    var minPullAmount: u64
    var minPullInterval: i64
    var lastPullAt: i64
    var status: Status
    var services: seq<ServiceLimit>

    function View(): Mandate
      reads this
    {
      Mandate(authority, agent, dailyLimit, dailySpent, dailyLastReset, lifetimeCap, totalSpent, minPullAmount,
              minPullInterval, lastPullAt, status, services)
    }

    constructor (m: Mandate)
      ensures View() == m
    {
      authority, agent := m.authority, m.agent;
      dailyLimit, dailySpent, dailyLastReset := m.dailyLimit, m.dailySpent, m.dailyLastReset;
      lifetimeCap, totalSpent := m.lifetimeCap, m.totalSpent;
      minPullAmount, minPullInterval, lastPullAt := m.minPullAmount, m.minPullInterval, m.lastPullAt;
      status, services := m.status, m.services;
    }

    method Store(local: AgentMandate)
      requires local != this
      modifies this
      ensures View() == old(local.View())
    {
      var m := local.View();
      authority, agent := m.authority, m.agent;
      dailyLimit, dailySpent, dailyLastReset := m.dailyLimit, m.dailySpent, m.dailyLastReset;
      lifetimeCap, totalSpent := m.lifetimeCap, m.totalSpent;
      minPullAmount, minPullInterval, lastPullAt := m.minPullAmount, m.minPullInterval, m.lastPullAt;
      status, services := m.status, m.services;
    }

    method ResetDailyIfNeeded(now: i64)
      modifies this`dailySpent, this`dailyLastReset
      ensures Daily(View()) == Touch(old(Daily(View())), now)
    {
      if SaturatingSubI64(now, dailyLastReset) >= DAY {
        dailySpent := 0;
        dailyLastReset := now;
      }
    }

    method ResetServiceDailyIfNeeded(index: nat, now: i64)
      modifies this`services
      ensures index >= |old(services)| ==> services == old(services)
      ensures index < |old(services)| ==>
                var c := Touch(ServiceCounter(old(services)[index]), now);
                services == old(services)[index :=
                   old(services)[index].(dailySpent := c.spent, lastReset := c.lastReset)]
    {
      if index < |services| {
        var limit := services[index];
        if SaturatingSubI64(now, limit.lastReset) >= DAY {
          services := services[index := limit.(dailySpent := 0, lastReset := now)];
        }
      }
    }

    /** Reset what is due, then check the pull against every limit; the next counter values, if it fits. */
    method ReserveBudget(index: nat, amount: u64, now: i64) returns (r: Result<(u64, u64, u64)>)
      requires index < |services|
      modifies this`services, this`dailySpent, this`dailyLastReset
      ensures var service := Touch(ServiceCounter(old(services)[index]), now);
              var daily := Touch(old(Daily(View())), now);
              && Daily(View()) == daily
              && services == old(services)[index := old(services)[index].(dailySpent := service.spent,
                                                                         lastReset := service.lastReset)]
              && match Budget(old(View()), index, amount, now)
                 case Err(e) => r == Err(e)
                 case Ok(_) => r.Ok? && r.value == (service.spent + amount, daily.spent + amount, totalSpent + amount)
    {
      ResetServiceDailyIfNeeded(index, now);
      ResetDailyIfNeeded(now);
      var limit := services[index];
      var nextServiceSpent :- ToU64(limit.dailySpent + amount, Overflow);
      var _ :- Need(nextServiceSpent <= limit.dailyLimit, ServiceDailyLimitExceeded);
      var nextDailySpent :- ToU64(dailySpent + amount, Overflow);
      var _ :- Need(nextDailySpent <= dailyLimit, DailyLimitExceeded);
      var nextTotalSpent :- ToU64(totalSpent + amount, Overflow);
      var _ :- Need(nextTotalSpent <= lifetimeCap, LifetimeCapExceeded);
      var _ :- Need(amount >= minPullAmount, PullAmountTooSmall);
      if lastPullAt > 0 && minPullInterval > 0 {
        var elapsed := SaturatingSubI64(now, lastPullAt);
        var _ :- Need(elapsed >= minPullInterval, PullCooldownActive);
      }
      return Ok((nextServiceSpent, nextDailySpent, nextTotalSpent));
    }

    /** Store the counters of a pull that has gone through. */
    method Commit(index: nat, next: (u64, u64, u64), now: i64)
      requires index < |services|
      modifies this`services, this`dailySpent, this`totalSpent, this`lastPullAt
      ensures View() == old(View()).(
                services := old(services)[index := old(services)[index].(dailySpent := next.0)],
                dailySpent := next.1, totalSpent := next.2, lastPullAt := now)
    {
      services := services[index := services[index].(dailySpent := next.0)];
      dailySpent := next.1;
      totalSpent := next.2;
      lastPullAt := now;
    }

    /** The transfer made is handed back. */
    method AgentPull(env: Env, amount: u64) returns (r: Result<Transfer>)
      modifies this
      ensures match Pull(old(View()), env, amount)
              case Ok((m, transfer)) => r == Ok(transfer) && View() == m
              case Err(e) => r == Err(e) && View() == old(View())
    {
      hide HandleTransfer, Find, PullTransfer, Budget, Touch, PullApprovalFor;
      var mandate := new AgentMandate(View());
      var _ :- Need(mandate.agent == env.agent, InvalidAccountData);
      match mandate.status {
        case Active =>
        case Paused => return Err(MandatePaused);
        case Revoked => return Err(MandateRevoked);
      }
      var _ :- Need(!env.config.paused, ProtocolPaused);
      var _ :- Need(env.config.hookProgram != DEFAULT_KEY, InvalidProtocolConfig);
      var _ :- Need(env.hookProgram == env.config.hookProgram, InvalidProtocolConfig);
      var found := Find(mandate.services, env.destination.owner);
      if found.None? {
        return Err(UnauthorizedService);
      }
      var index := found.value;
      var next :- mandate.ReserveBudget(index, amount, env.now);
      var _ :- Need(env.source.amount >= amount, InsufficientMandateBalance);
      var approval :- PullApprovalFor(env, amount);
      var transfer := PullTransfer(View(), env, amount, approval);
      var _ :- HandleTransfer(transfer);
      mandate.Commit(index, next, env.now);
      Store(mandate);
      return Ok(transfer);
    }

    method SetLimits(c: Change) returns (r: Result<()>)
      modifies this`dailyLimit, this`lifetimeCap, this`minPullAmount, this`minPullInterval
      ensures match AdjustLimits(old(View()), c)
              case Ok(m) => r == Ok(()) && View() == m
              case Err(e) => r == Err(e)
    {
      if c.dailyLimit.Some? {
        var _ :- Need(c.dailyLimit.value >= dailySpent, InvalidAmount);
        dailyLimit := c.dailyLimit.value;
      }
      if c.lifetimeCap.Some? {
        var _ :- Need(c.lifetimeCap.value >= totalSpent, InvalidAmount);
        lifetimeCap := c.lifetimeCap.value;
      }
      if c.minPullAmount.Some? {
        minPullAmount := c.minPullAmount.value;
      }
      if c.minPullInterval.Some? {
        var _ :- Need(c.minPullInterval.value >= 0, InvalidFrequency);
        minPullInterval := c.minPullInterval.value;
      }
      return Ok(());
    }

    method AdjustAgentMandate(c: Change, signer: Key, now: i64) returns (r: Result<()>)
      modifies this
      ensures Applied(Adjust(old(View()), c, signer, now), old(View()), View(), r)
    {
      hide RebuildServices, AdjustLimits;
      var _ :- Need(c.dailyLimit.Some? || c.lifetimeCap.Some? || c.minPullAmount.Some? || c.minPullInterval.Some?
                    || c.services.Some?, NoUpdateProvided);
      var mandate := new AgentMandate(View());
      var _ :- Need(mandate.authority == signer, UnauthorizedAgentMandateAuthority);
      if mandate.status == Revoked {
        return Err(InvalidAgentMandateStatusTransition);
      }
      var _ :- mandate.SetLimits(c);
      if c.services.Some? {
        var updated :- RebuildServiceList(mandate.services, c.services.value, now);
        mandate.services := updated;
      }
      Store(mandate);
      return Ok(());
    }

    method PauseAgentMandate(signer: Key) returns (r: Result<()>)
      modifies this`status
      ensures Applied(SetStatus(old(View()), signer, {Status.Active}, Status.Paused), old(View()), View(), r)
    {
      var _ :- Need(authority == signer, UnauthorizedAgentMandateAuthority);
      match status {
        case Active => status := Status.Paused;
        case Paused => return Err(InvalidAgentMandateStatusTransition);
        case Revoked => return Err(InvalidAgentMandateStatusTransition);
      }
      return Ok(());
    }

    method ResumeAgentMandate(signer: Key) returns (r: Result<()>)
      modifies this`status
      ensures Applied(SetStatus(old(View()), signer, {Status.Paused}, Status.Active), old(View()), View(), r)
    {
      var _ :- Need(authority == signer, UnauthorizedAgentMandateAuthority);
      match status {
        case Paused => status := Status.Active;
        case Active => return Err(InvalidAgentMandateStatusTransition);
        case Revoked => return Err(InvalidAgentMandateStatusTransition);
      }
      return Ok(());
    }

    /** The status half of a revocation; the refund is a burn and release on the vault. */
    method RevokeAgentMandate(signer: Key) returns (r: Result<()>)
      modifies this`status
      ensures Applied(SetStatus(old(View()), signer, {Status.Active, Status.Paused}, Revoked), old(View()), View(), r)
    {
      var _ :- Need(authority == signer, UnauthorizedAgentMandateAuthority);
      match status {
        case Active =>
        case Paused =>
        case Revoked => return Err(InvalidAgentMandateStatusTransition);
      }
      status := Revoked;
      return Ok(());
    }
  }

  /** An instruction is atomic: it installs the specified mandate, or leaves the stored one alone. */
  ghost predicate Applied(spec: Result<Mandate>, before: Mandate, after: Mandate, r: Result<()>) {
    match spec
    case Ok(m) => r == Ok(()) && after == m
    case Err(e) => r == Err(e) && after == before
  }

  method CreateAgentMandate(o: Opening, authority: Key, agent: Key, occupied: bool, now: i64)
    returns (r: Result<AgentMandate>)
    ensures match Open(o, authority, agent, occupied, now)
            case Ok(m) => r.Ok? && fresh(r.value) && r.value.View() == m
            case Err(e) => r == Err(e)
  {
    var _ :- Need(|o.services| <= MAX_SERVICES, TooManyServices);
    var _ :- Need(o.minPullInterval >= 0, InvalidFrequency);
    var _ :- CheckDistinct(o.services);
    var mapped: seq<ServiceLimit> := [];
    for i := 0 to |o.services|
      invariant mapped == MergedAll([], o.services, now)[..i]
    {
      mapped := mapped + [ServiceLimit(o.services[i].service, o.services[i].dailyLimit, 0, now)];
    }
    if occupied {
      return Err(AgentMandateAlreadyExists);
    }
    var mandate := new AgentMandate(
      Mandate(authority, agent, o.dailyLimit, 0, now, o.lifetimeCap, 0, o.minPullAmount, o.minPullInterval, 0,
              Status.Active, mapped));
    return Ok(mandate);
  }
}
