/** Accounting of streams over whole runs, and agreement with the transfer hook. */
module StreamProofs {
  import opened Base
  import opened Hook
  import opened HookProofs
  import opened Streaming

  // ---------------------------------------------------------------- runs

  datatype Kind = DoExecute | DoPause | DoResume | DoCancel | DoUpdate(newRate: Option<u64>, newMax: Option<u64>)

  datatype Act = Act(kind: Kind, env: Env)

  function Step(s: Stream, a: Act): Result<(Stream, u64)> {
    match a.kind
    case DoExecute => Execute(s, a.env)
    case DoPause => Pause(s, a.env)
    case DoResume => Resume(s, a.env)
    case DoCancel => Cancel(s, a.env)
    case DoUpdate(newRate, newMax) => UpdateRate(s, a.env, newRate, newMax)
  }

  /** A refused instruction stores nothing. */
  function After(s: Stream, a: Act): Stream {
    match Step(s, a) case Ok(p) => p.0 case Err(_) => s
  }

  function PaidBy(s: Stream, a: Act): u64 {
    match Step(s, a) case Ok(p) => p.1 case Err(_) => 0
  }

  function Run(s: Stream, acts: seq<Act>): Stream {
    if acts == [] then s else After(Run(s, acts[..|acts| - 1]), acts[|acts| - 1])
  }

  /** The clock after the run. */
  function Time(start: i64, acts: seq<Act>): i64 {
    if acts == [] then start else acts[|acts| - 1].env.now
  }

  /** The clock never runs backwards. */
  predicate Clocked(start: i64, acts: seq<Act>) {
    acts == [] ||
    (Clocked(start, acts[..|acts| - 1]) && Time(start, acts[..|acts| - 1]) <= acts[|acts| - 1].env.now)
  }

  // ---------------------------------------------------------------- what was asked for

  /** The rate of the last accepted update that named one, or the rate at the start. */
  function AskedRate(s: Stream, acts: seq<Act>): u64 {
    if acts == [] then s.rate
    else
      var pre, a := acts[..|acts| - 1], acts[|acts| - 1];
      if Accepted(s, pre, a) && a.kind.DoUpdate? && a.kind.newRate.Some? then a.kind.newRate.value
      else AskedRate(s, pre)
  }

  /** The ceiling, likewise. */
  function AskedCeiling(s: Stream, acts: seq<Act>): u64 {
    if acts == [] then s.maxRate
    else
      var pre, a := acts[..|acts| - 1], acts[|acts| - 1];
      if Accepted(s, pre, a) && a.kind.DoUpdate? && a.kind.newMax.Some? then a.kind.newMax.value
      else AskedCeiling(s, pre)
  }

  /** What the last accepted pause, resumption or cancellation asked for, and when, if it was a pause. */
  function AskedStatus(s: Stream, acts: seq<Act>): (StreamStatus, Option<i64>) {
    if acts == [] then (s.status, s.pausedAt)
    else
      var pre, a := acts[..|acts| - 1], acts[|acts| - 1];
      if !Accepted(s, pre, a) then AskedStatus(s, pre)
      else
        match a.kind
        case DoPause => (Paused, Some(a.env.now))
        case DoResume => (Active, None)
        case DoCancel => (Cancelled, None)
        case _ => AskedStatus(s, pre)
  }

  predicate Accepted(s: Stream, pre: seq<Act>, a: Act) {
    Step(Run(s, pre), a).Ok?
  }

  lemma StepTerms(s: Stream, a: Act)
    requires Step(s, a).Ok?
    ensures var t := After(s, a);
            && t.rate == (if a.kind.DoUpdate? && a.kind.newRate.Some? then a.kind.newRate.value else s.rate)
            && t.maxRate == (if a.kind.DoUpdate? && a.kind.newMax.Some? then a.kind.newMax.value else s.maxRate)
            && (t.status, t.pausedAt) == match a.kind
                                         case DoPause => (Paused, Some(a.env.now))
                                         case DoResume => (Active, None)
                                         case DoCancel => (Cancelled, None)
                                         case _ => (s.status, s.pausedAt)
  {
    hide Move, Gross, Gate;
  }

  /** Every stored stream has the rate, the ceiling and the status last asked for. */
  lemma {:induction false} RunAsAsked(s: Stream, acts: seq<Act>)
    ensures Run(s, acts).rate == AskedRate(s, acts) && Run(s, acts).maxRate == AskedCeiling(s, acts)
    ensures (Run(s, acts).status, Run(s, acts).pausedAt) == AskedStatus(s, acts)
  {
    hide Step;
    if acts != [] {
      RunAsAsked(s, acts[..|acts| - 1]);
      if Accepted(s, acts[..|acts| - 1], acts[|acts| - 1]) {
        StepTerms(Run(s, acts[..|acts| - 1]), acts[|acts| - 1]);
      }
    }
  }

  /** The rate that counts: what was asked for, while the stream was to be active. */
  function RateInForce(s: Stream, acts: seq<Act>): int {
    if AskedStatus(s, acts).0 == Active then AskedRate(s, acts) else 0
  }

  // ---------------------------------------------------------------- ledgers

  /** Value accrued since the last settlement, before any cap. */
  function Accrued(s: Stream, now: i64): int {
    if s.status == Active then Gross(s, now) else 0
  }

  predicate Settles(s: Stream, a: Act) {
    Step(s, a).Ok? && s.status == Active &&
    (a.kind.DoExecute? || a.kind.DoUpdate? || a.env.now - s.lastSettled >= s.minInterval)
  }

  /** A stop before the minimum interval drops what has accrued. */
  predicate Forfeits(s: Stream, a: Act) {
    Step(s, a).Ok? && s.status == Active &&
    (a.kind.DoPause? || a.kind.DoCancel?) && a.env.now - s.lastSettled < s.minInterval
  }

  function Paid(s: Stream, acts: seq<Act>): int {
    if acts == [] then 0
    else Paid(s, acts[..|acts| - 1]) + PaidBy(Run(s, acts[..|acts| - 1]), acts[|acts| - 1])
  }

  function SettledGross(s: Stream, acts: seq<Act>): int {
    if acts == [] then 0
    else
      var pre, a := acts[..|acts| - 1], acts[|acts| - 1];
      SettledGross(s, pre) + if Settles(Run(s, pre), a) then Accrued(Run(s, pre), a.env.now) else 0
  }

  function Forfeited(s: Stream, acts: seq<Act>): int {
    if acts == [] then 0
    else
      var pre, a := acts[..|acts| - 1], acts[|acts| - 1];
      Forfeited(s, pre) + if Forfeits(Run(s, pre), a) then Accrued(Run(s, pre), a.env.now) else 0
  }

  /** The rate asked for, integrated over the time for which the stream was asked to be active. */
  function ActiveIntegral(s: Stream, start: i64, acts: seq<Act>): int {
    if acts == [] then 0
    else
      var pre, a := acts[..|acts| - 1], acts[|acts| - 1];
      ActiveIntegral(s, start, pre) + (a.env.now - Time(start, pre)) * RateInForce(s, pre)
  }

  function ActiveRate(s: Stream): int {
    if s.status == Active then s.rate else 0
  }

  function Clamp(cap: Option<u64>, x: int): int {
    match cap case None => x case Some(c) => Min(c, x)
  }

  // ---------------------------------------------------------------- the invariant of a stored stream

  predicate Sound(s: Stream, now: i64) {
    && 0 < s.rate <= s.maxRate
    && (s.status == Paused <==> s.pausedAt.Some?)
    && s.lastSettled <= now
    && (s.pausedAt.Some? ==> s.lastSettled <= s.pausedAt.value <= now)
    && (s.cap.Some? ==> s.total <= s.cap.value)
  }

  predicate SameParties(s: Stream, t: Stream) {
    && s.subscriber == t.subscriber && s.merchant == t.merchant && s.mint == t.mint
    && s.cap == t.cap && s.minInterval == t.minInterval
  }

  /** A stream is opened exactly on acceptable terms for a token on the hook's rail, and starts with those terms. */
  lemma CreatedSound(t: Terms, subscriber: Key, merchant: Key, mint: Key, token: TokenConfig, now: i64)
    ensures Create(t, subscriber, merchant, mint, token, now).Ok? <==>
              t.minInterval >= 60 && 0 < t.rate <= t.maxRate && token == TokenConfig(mint, true, TransferHook)
    ensures Create(t, subscriber, merchant, mint, token, now).Ok? ==>
              var s := Create(t, subscriber, merchant, mint, token, now).value;
              && Sound(s, now) && s.status == Active && s.total == 0 && s.lastSettled == now
              && s.subscriber == subscriber && s.merchant == merchant && s.mint == mint
              && Terms(s.rate, s.maxRate, s.cap, s.minInterval) == t
  {
  }

  lemma StepSound(s: Stream, a: Act, before: i64)
    requires Sound(s, before) && before <= a.env.now
    ensures Sound(After(s, a), a.env.now) && SameParties(s, After(s, a))
    ensures After(s, a).total == s.total + PaidBy(s, a)
    ensures s.status == Cancelled ==> After(s, a) == s
  {
    hide Gross, Move;
    SettleEffect(s, a.env.now);
    match a.kind
    case DoExecute =>
    case DoPause =>
    case DoResume =>
    case DoCancel =>
    case DoUpdate(_, _) =>
  }

  /** A settlement of an active stream in closed form, without the checked arithmetic. */
  lemma SettleEffect(s: Stream, now: i64)
    requires Sound(s, now)
    ensures Settle(s, now).Ok? && s.status == Active ==>
              var (t, amount) := Settle(s, now).value;
              && t == s.(total := s.total + amount, lastSettled := now) && Sound(t, now)
              && amount == (if s.cap.None? then Gross(s, now) else Min(Gross(s, now), s.cap.value - s.total))
  {
    hide Gross;
    GrossFacts(s, now);
  }

  lemma GrossFacts(s: Stream, now: i64)
    ensures s.lastSettled <= now ==> Gross(s, now) >= 0
    ensures s.lastSettled == now ==> Gross(s, now) == 0
  {
  }

  lemma {:induction false} RunSound(s: Stream, start: i64, acts: seq<Act>)
    requires Sound(s, start) && Clocked(start, acts)
    ensures Sound(Run(s, acts), Time(start, acts)) && SameParties(s, Run(s, acts))
    ensures Run(s, acts).total == s.total + Paid(s, acts)
    ensures s.status == Cancelled ==> Run(s, acts) == s
  {
    if acts != [] {
      var pre := acts[..|acts| - 1];
      RunSound(s, start, pre);
      StepSound(Run(s, pre), acts[|acts| - 1], Time(start, pre));
    }
  }

  // ---------------------------------------------------------------- exact accounting

  /** What one instruction does to the four ledgers, at once. */
  lemma StepLedgers(s: Stream, a: Act, before: i64)
    requires Sound(s, before) && before <= a.env.now
    ensures var settled := if Settles(s, a) then Accrued(s, a.env.now) else 0;
            var lost := if Forfeits(s, a) then Accrued(s, a.env.now) else 0;
            && settled >= 0 && lost >= 0
            && settled + lost + Accrued(After(s, a), a.env.now) == Accrued(s, a.env.now)
            && PaidBy(s, a) == (if s.cap.None? then settled else Min(settled, s.cap.value - s.total))
  {
    hide Gross, Move;
    SettleEffect(s, a.env.now);
    GrossFacts(s, a.env.now);
    GrossFacts(After(s, a), a.env.now);
    match a.kind
    case DoExecute =>
    case DoPause =>
    case DoResume =>
    case DoCancel =>
    case DoUpdate(_, _) =>
  }

  /** Main accounting theorem: payments are the settled gross clamped to the cap, and every
      second of active time at the rate asked for is settled, forfeited or still pending. */
  lemma {:induction false} StreamAccounting(s: Stream, start: i64, acts: seq<Act>, now: i64)
    requires Sound(s, start) && s.status == Active && s.total == 0 && s.lastSettled == start
    requires Clocked(start, acts) && Time(start, acts) <= now
    ensures Paid(s, acts) == Run(s, acts).total == Clamp(s.cap, SettledGross(s, acts))
    ensures SettledGross(s, acts) + Forfeited(s, acts) + Accrued(Run(s, acts), now)
         == ActiveIntegral(s, start, acts) + (now - Time(start, acts)) * RateInForce(s, acts)
    ensures SettledGross(s, acts) >= 0 && Forfeited(s, acts) >= 0
  {
    hide After, PaidBy, Settles, Forfeits, Gross, AskedRate, AskedStatus, AskedCeiling, Sound;
    RunSound(s, start, acts);
    RunAsAsked(s, acts);
    GrossFacts(s, start);
    if acts != [] {
      var pre, a := acts[..|acts| - 1], acts[|acts| - 1];
      StreamAccounting(s, start, pre, a.env.now);
      RunSound(s, start, pre);
      RunAsAsked(s, pre);
      StepLedgers(Run(s, pre), a, Time(start, pre));
    }
    AccruedAdvances(Run(s, acts), Time(start, acts), now);
  }

  lemma AccruedAdvances(s: Stream, mid: i64, now: i64)
    ensures Accrued(s, now) == Accrued(s, mid) + (now - mid) * ActiveRate(s)
  {
    Distribute(mid - s.lastSettled, now - mid, s.rate);
  }

  /** A stop forfeits less than one minimum interval at the rate in force. */
  lemma ForfeitBound(s: Stream, a: Act)
    requires Forfeits(s, a) && s.rate > 0
    ensures Accrued(s, a.env.now) < s.minInterval * s.rate
  {
    assert (a.env.now - s.lastSettled) * s.rate < s.minInterval * s.rate;
  }

  predicate WithinRate(s: Stream, acts: seq<Act>, ceiling: u64) {
    Run(s, acts).rate <= ceiling && (acts == [] || WithinRate(s, acts[..|acts| - 1], ceiling))
  }

  function Stops(s: Stream, acts: seq<Act>): int {
    if acts == [] then 0
    else Stops(s, acts[..|acts| - 1]) + if Forfeits(Run(s, acts[..|acts| - 1]), acts[|acts| - 1]) then 1 else 0
  }

  /** Over a run whose rate stays within a ceiling, the loss is bounded by the number of early stops. */
  lemma {:induction false} TotalForfeitBound(s: Stream, start: i64, acts: seq<Act>, ceiling: u64)
    requires Sound(s, start) && Clocked(start, acts) && WithinRate(s, acts, ceiling)
    ensures Forfeited(s, acts) <= Stops(s, acts) * (s.minInterval * ceiling)
  {
    if acts != [] {
      var pre, a := acts[..|acts| - 1], acts[|acts| - 1];
      TotalForfeitBound(s, start, pre, ceiling);
      RunSound(s, start, pre);
      hide After, Run, Forfeits, Accrued;
      if Forfeits(Run(s, pre), a) {
        ForfeitWithin(Run(s, pre), a, ceiling);
        Distribute(Stops(s, pre), 1, s.minInterval * ceiling);
      }
    }
  }

  lemma ForfeitWithin(s: Stream, a: Act, ceiling: u64)
    requires Forfeits(s, a) && 0 < s.rate <= ceiling
    ensures Accrued(s, a.env.now) <= s.minInterval * ceiling
  {
    ForfeitBound(s, a);
    hide Forfeits, Accrued;
    MulMonotone(s.minInterval, s.rate, ceiling);
  }

  lemma MulMonotone(x: int, y: int, z: int)
    requires 0 <= x && y <= z
    ensures x * y <= x * z
  {
  }

  lemma Distribute(x: int, y: int, z: int)
    ensures (x + y) * z == x * z + y * z
  {
  }

  // ---------------------------------------------------------------- consent

  lemma {:induction false} CeilingStands(s: Stream, start: i64, acts: seq<Act>)
    requires Sound(s, start) && Clocked(start, acts)
    requires forall a :: a in acts ==> a.env.signer != s.subscriber
    ensures Run(s, acts).maxRate == s.maxRate && Run(s, acts).rate <= s.maxRate
  {
    RunSound(s, start, acts);
    if acts != [] {
      var pre, a := acts[..|acts| - 1], acts[|acts| - 1];
      CeilingStands(s, start, pre);
      RunSound(s, start, pre);
      assert a in acts;
      StepKeepsCeiling(Run(s, pre), a);
    }
  }

  lemma StepKeepsCeiling(s: Stream, a: Act)
    requires a.env.signer != s.subscriber
    ensures After(s, a).maxRate == s.maxRate
  {
  }

  /** Without the subscriber's signature the ceiling stands, so the merchant and the keeper
      together are never paid more than the ceiling times the time that has passed. */
  lemma {:induction false} NoConsentNoMore(s: Stream, start: i64, acts: seq<Act>)
    requires Sound(s, start) && s.status == Active && s.total == 0 && s.lastSettled == start
    requires Clocked(start, acts)
    requires forall a :: a in acts ==> a.env.signer != s.subscriber
    ensures Paid(s, acts) <= ActiveIntegral(s, start, acts) <= (Time(start, acts) - start) * s.maxRate
  {
    StreamAccounting(s, start, acts, Time(start, acts));
    RunSound(s, start, acts);
    AccruedNonNegative(Run(s, acts), Time(start, acts));
    IntegralBound(s, start, acts);
  }

  lemma AccruedNonNegative(s: Stream, now: i64)
    requires Sound(s, now)
    ensures Accrued(s, now) >= 0
  {
  }

  lemma {:induction false} IntegralBound(s: Stream, start: i64, acts: seq<Act>)
    requires Sound(s, start) && Clocked(start, acts)
    requires forall a :: a in acts ==> a.env.signer != s.subscriber
    ensures ActiveIntegral(s, start, acts) <= (Time(start, acts) - start) * s.maxRate
  {
    hide Run, AskedRate, AskedStatus;
    if acts != [] {
      var pre, a := acts[..|acts| - 1], acts[|acts| - 1];
      IntegralBound(s, start, pre);
      CeilingStands(s, start, pre);
      RunAsAsked(s, pre);
      MulMonotone(a.env.now - Time(start, pre), RateInForce(s, pre), s.maxRate);
      Distribute(Time(start, pre) - start, a.env.now - Time(start, pre), s.maxRate);
    }
  }

  // ---------------------------------------------------------------- path independence

  /** Settling at each of the given times in turn. */
  function SettleAt(s: Stream, times: seq<i64>): Result<(Stream, int)> {
    if times == [] then Ok((s, 0))
    else
      var (mid, paid) :- SettleAt(s, times[..|times| - 1]);
      var (end, amount) :- Settle(mid, times[|times| - 1]);
      Ok((end, paid + amount))
  }

  /** Any sequence of settlements that succeeds pays exactly what a single one at its end pays,
      leaves the same stream, and it succeeds exactly when the single one does and no gap is too short. */
  lemma {:induction false} PathIndependence(s: Stream, times: seq<i64>)
    requires Sound(s, s.lastSettled) && s.status == Active && times != []
    requires forall i :: 0 <= i < |times| ==> times[i] - s.lastSettled <= I64_MAX
    ensures SettleAt(s, times).Ok? <==> Settle(s, times[|times| - 1]).Ok? && Spaced(s, times)
    ensures SettleAt(s, times).Ok? ==>
              var (end, paid) := Settle(s, times[|times| - 1]).value;
              SettleAt(s, times).value == (end, paid as int)
    decreases |times|
  {
    var pre, t := times[..|times| - 1], times[|times| - 1];
    if pre != [] {
      PathIndependence(s, pre);
      var m := pre[|pre| - 1];
      if Spaced(s, times) {
        SpacedLast(s, pre);
        TwoSettlements(s, m, t);
      }
    }
  }

  /** Each time comes at least the minimum interval after the one before it. */
  predicate Spaced(s: Stream, times: seq<i64>) {
    times == [] ||
    (var pre := times[..|times| - 1];
     Spaced(s, pre) &&
     times[|times| - 1] - (if pre == [] then s.lastSettled else pre[|pre| - 1]) >= s.minInterval)
  }

  lemma {:induction false} SpacedLast(s: Stream, times: seq<i64>)
    requires Spaced(s, times) && times != []
    ensures times[|times| - 1] - s.lastSettled >= s.minInterval
    decreases |times|
  {
    if |times| > 1 {
      SpacedLast(s, times[..|times| - 1]);
    }
  }

  lemma TwoSettlements(s: Stream, m: i64, t: i64)
    requires Sound(s, s.lastSettled) && s.status == Active
    requires s.minInterval <= m - s.lastSettled <= I64_MAX
    requires s.minInterval <= t - m && t - s.lastSettled <= I64_MAX
    ensures var whole := Settle(s, t);
            var first := Settle(s, m);
            && (whole.Ok? <==> first.Ok? && Settle(first.value.0, t).Ok?)
            && (whole.Ok? ==>
                  && whole.value.0 == Settle(first.value.0, t).value.0
                  && whole.value.1 == first.value.1 + Settle(first.value.0, t).value.1)
  {
    hide Gross;
    var mid := s.(lastSettled := m);
    GrossSplits(s, m, t);
    GrossFacts(s, m);
    GrossFacts(mid, t);
    SettleCases(s, m);
    SettleCases(s, t);
    if Settle(s, m).Ok? {
      SettleCases(Settle(s, m).value.0, t);
      GrossIgnoresTotal(mid, t, Settle(s, m).value.0.total);
    }
  }

  lemma GrossSplits(s: Stream, m: i64, t: i64)
    ensures Gross(s, t) == Gross(s, m) + Gross(s.(lastSettled := m), t)
  {
    Distribute(m - s.lastSettled, t - m, s.rate);
  }

  lemma GrossIgnoresTotal(s: Stream, t: i64, total: u64)
    ensures Gross(s.(total := total), t) == Gross(s, t)
  {
  }

  lemma SettleCases(s: Stream, now: i64)
    requires Sound(s, now) && s.status == Active
    requires s.minInterval <= now - s.lastSettled <= I64_MAX
    ensures var amount := if s.cap.None? then Gross(s, now) else Min(Gross(s, now), s.cap.value - s.total);
            && amount >= 0
            && Settle(s, now) ==
                 if s.total + amount > U64_MAX then Err(Overflow)
                 else Ok((s.(total := s.total + amount, lastSettled := now), amount))
  {
    hide Gross;
    GrossFacts(s, now);
    GrossFitsU128(s, now);
  }

  lemma GrossFitsU128(s: Stream, now: i64)
    requires 0 <= now - s.lastSettled <= I64_MAX
    ensures 0 <= Gross(s, now) <= U128_MAX
  {
    AccrualFitsU128(now - s.lastSettled, s.rate);
  }

  // ---------------------------------------------------------------- agreement with the hook

  /** On the state a settlement started from, the hook accepts exactly the amounts up to the settlement. */
  lemma HookAcceptsUpToSettlement(s: Stream, env: Env, amount: u64)
    requires Sound(s, env.now) && s.status == Active && Settle(s, env.now).Ok?
    requires Admit(HookCall(s, env, amount)) == Ok(false)
    ensures HandleTransfer(HookCall(s, env, amount)).Ok? <==> amount <= Settle(s, env.now).value.1
  {
    AccrualFitsU128(env.now - s.lastSettled, s.rate);
  }

  /** Where settlement is refused for the clock, the interval or the status, so is every transfer. */
  lemma HookRefusesUnsettled(s: Stream, env: Env, amount: u64)
    requires Admit(HookCall(s, env, amount)) == Ok(false)
    requires s.status != Active || Settle(s, env.now) in {Err(ClockRegression), Err(MinSettleIntervalViolation)}
    ensures HandleTransfer(HookCall(s, env, amount))
         == Err(if s.status != Active then StreamNotActive else Settle(s, env.now).error)
  {
  }

  /** A settlement that overflows the stream's total is refused, but not by the hook: it happens only without a
      cap, and the hook goes on accepting every amount up to the accrual. */
  lemma HookAcceptsDespiteOverflow(s: Stream, env: Env, amount: u64)
    requires Sound(s, env.now) && Settle(s, env.now) == Err(Overflow)
    requires Admit(HookCall(s, env, amount)) == Ok(false)
    ensures s.cap == None
    ensures HandleTransfer(HookCall(s, env, amount)).Ok? <==> amount <= Gross(s, env.now)
  {
    AccrualFitsU128(env.now - s.lastSettled, s.rate);
  }

  /** The hook is never the reason an instruction's transfer fails: once the token is admitted,
      the transfer of a settlement goes through exactly when accounts match and funds suffice. */
  lemma HookNeverBlocksSettlement(s: Stream, env: Env)
    requires Sound(s, env.now) && s.status == Active && Settle(s, env.now).Ok?
    ensures var amount := Settle(s, env.now).value.1;
            Move(s, env, amount).Ok? <==>
              && env.source.mint == env.mint && env.destination.mint == env.mint
              && env.source.owner == env.self && env.destination.owner == s.merchant
              && env.token.Some? && amount <= env.source.amount
              && Admit(HookCall(s, env, amount)).Ok?
  {
    var amount := Settle(s, env.now).value.1;
    if Admit(HookCall(s, env, amount)) == Ok(false) {
      HookAcceptsUpToSettlement(s, env, amount);
    }
  }

  // ---------------------------------------------------------------- exactly when each instruction is accepted

  /** What a settlement would pay, before it is checked to fit. */
  function Owed(s: Stream, now: i64): int {
    if s.cap.None? then Gross(s, now) else Min(Gross(s, now), s.cap.value - s.total)
  }

  /** The protocol is not paused, and the hook and vault passed are the configured ones. */
  predicate Running(env: Env) {
    && !env.config.paused && env.config.hookProgram != DEFAULT_KEY
    && env.hookProgram == env.config.hookProgram && env.vault == env.config.vault
  }

  /** The stream's token account holds the amount, the other is the merchant's, and the token is on the hook's rail. */
  predicate Deliverable(s: Stream, env: Env, amount: int) {
    && env.token == Some(TokenConfig(env.mint, true, TransferHook))
    && env.source.mint == env.mint && env.source.owner == env.self && env.source.amount >= amount
    && env.destination.mint == env.mint && env.destination.owner == s.merchant
  }

  /** A settlement is due, fits the total and can be paid. */
  predicate CanSettle(s: Stream, env: Env) {
    && s.minInterval <= env.now - s.lastSettled <= I64_MAX
    && 0 <= s.total + Owed(s, env.now) <= U64_MAX
    && (Owed(s, env.now) > 0 ==> Deliverable(s, env, Owed(s, env.now)))
  }

  predicate ByParty(s: Stream, env: Env) {
    env.signer == s.subscriber || env.signer == s.merchant
  }

  lemma GateIff(env: Env)
    ensures Gate(env).Ok? <==> Running(env)
  {
  }

  /** A settlement goes through exactly when it is due, fits and can be paid; it pays what is owed. */
  lemma SettlesIff(s: Stream, env: Env)
    requires Sound(s, env.now) && s.status == Active && Running(env)
    ensures Settle(s, env.now).Ok? && MoveIfPositive(s, env, Settle(s, env.now).value.1).Ok? <==> CanSettle(s, env)
    ensures Settle(s, env.now).Ok? ==>
              Settle(s, env.now).value.1 == Owed(s, env.now) && s.total + Owed(s, env.now) <= U64_MAX
  {
    hide Gross, Move, Deliverable;
    GrossFacts(s, env.now);
    if s.minInterval <= env.now - s.lastSettled <= I64_MAX {
      SettleCases(s, env.now);
      if Settle(s, env.now).Ok? {
        DeliveredIff(s, env);
      }
    }
  }

  lemma DeliveredIff(s: Stream, env: Env)
    requires Sound(s, env.now) && s.status == Active && Settle(s, env.now).Ok? && Running(env)
    ensures Move(s, env, Settle(s, env.now).value.1).Ok? <==> Deliverable(s, env, Settle(s, env.now).value.1)
  {
    hide Settle, Sound, Admit;
    HookNeverBlocksSettlement(s, env);
    AdmittedIff(HookCall(s, env, Settle(s, env.now).value.1));
  }

  /** Executing: anyone of the three may, and an active stream must be able to settle. */
  lemma ExecuteSucceedsIff(s: Stream, env: Env)
    requires Sound(s, env.now)
    ensures Execute(s, env).Ok? <==>
              && Running(env) && env.mint == s.mint && (env.signer == env.keeper || ByParty(s, env))
              && (s.status == Active ==> CanSettle(s, env))
  {
    hide Gate, Settle, CanSettle, MoveIfPositive, Running;
    GateIff(env);
    if s.status != Active {
      Unsettled(s, env);
    } else if Running(env) {
      SettlesIff(s, env);
    }
  }

  lemma Unsettled(s: Stream, env: Env)
    requires s.status != Active
    ensures Settle(s, env.now) == Ok((s, 0)) && MoveIfPositive(s, env, 0) == Ok(())
  {
  }

  /** A stop is refused, beyond caller and status, exactly when a settlement is due that does not fit the total or
      cannot be paid: a due stream whose source lacks the amount owed can be neither paused nor cancelled. */
  lemma StopSucceedsIff(s: Stream, env: Env)
    requires Sound(s, env.now)
    ensures var allowed := && Running(env) && env.mint == s.mint && ByParty(s, env)
                           && env.now - s.lastSettled <= I64_MAX
                           && (s.status == Active && env.now - s.lastSettled >= s.minInterval ==> CanSettle(s, env));
            && (Cancel(s, env).Ok? <==> allowed && s.status != Cancelled)
            && (Pause(s, env).Ok? <==> allowed && s.status == Active)
  {
    hide Gate, Settle, CanSettle, MoveIfPositive, Running;
    GateIff(env);
    assert MoveIfPositive(s, env, 0) == Ok(()) by {
      NothingToMove(s, env);
    }
    if s.status == Active && Running(env) {
      SettlesIff(s, env);
    }
  }

  lemma NothingToMove(s: Stream, env: Env)
    ensures MoveIfPositive(s, env, 0) == Ok(())
  {
  }

  /** Resuming: only a paused stream, by its parties; no settlement, so no funds are needed. */
  lemma ResumeSucceedsIff(s: Stream, env: Env)
    requires Sound(s, env.now)
    ensures Resume(s, env).Ok? <==>
              ByParty(s, env) && s.status == Paused && env.now - s.pausedAt.value <= I64_MAX
  {
  }

  /** Updating: an active stream that can settle; the merchant alone only to a positive rate within the ceiling. */
  lemma UpdateSucceedsIff(s: Stream, env: Env, newRate: Option<u64>, newMax: Option<u64>)
    requires Sound(s, env.now)
    ensures UpdateRate(s, env, newRate, newMax).Ok? <==>
              && Running(env) && env.mint == s.mint && s.status == Active && CanSettle(s, env)
              && Owed(s, env.now) <= I64_MAX
              && match (newRate, newMax)
                 case (None, None) => false
                 case (None, Some(max)) => env.signer == s.subscriber && s.rate <= max
                 case (Some(rate), None) => ByParty(s, env) && 0 < rate <= s.maxRate
                 case (Some(rate), Some(max)) => env.signer == s.subscriber && 0 < rate <= max
  {
    hide Gate, Settle, CanSettle, MoveIfPositive, Running;
    GateIff(env);
    if s.status == Active && Running(env) {
      SettlesIff(s, env);
    }
  }

  /** Every payment of a run was accepted by the hook, and by its stream branch,
      on the state stored at that moment. */
  lemma {:induction false} EveryPaymentPassedTheHook(s: Stream, start: i64, acts: seq<Act>, k: nat)
    requires Sound(s, start) && Clocked(start, acts) && k < |acts|
    requires PaidBy(Run(s, acts[..k]), acts[k]) > 0
    ensures PaymentAccepted(Run(s, acts[..k]), acts[k])
  {
    ClockedPrefix(start, acts, k + 1);
    assert acts[..k + 1][..k] == acts[..k];
    RunSound(s, start, acts[..k]);
    PaymentPassesHook(Run(s, acts[..k]), acts[k]);
  }

  predicate PaymentAccepted(stored: Stream, a: Act) {
    && stored.status == Active
    && Deliverable(stored, a.env, PaidBy(stored, a))
    && HandleTransfer(HookCall(stored, a.env, PaidBy(stored, a))).Ok?
    && StreamBranch(stored, PaidBy(stored, a), a.env.now).Ok?
  }

  lemma PaymentPassesHook(s: Stream, a: Act)
    requires Sound(s, a.env.now) && PaidBy(s, a) > 0
    ensures PaymentAccepted(s, a)
  {
    hide HandleTransfer;
    GrossFitsU128(s, a.env.now);
    PaymentDelivered(s, a);
    match a.kind
    case DoExecute =>
    case DoPause =>
    case DoResume =>
    case DoCancel =>
    case DoUpdate(_, _) =>
  }

  lemma PaymentDelivered(s: Stream, a: Act)
    requires Sound(s, a.env.now) && PaidBy(s, a) > 0
    ensures Deliverable(s, a.env, PaidBy(s, a))
  {
    hide HandleTransfer, Settle, Gate, Admit;
    AdmittedIff(HookCall(s, a.env, PaidBy(s, a)));
    HandledIsAdmitted(HookCall(s, a.env, PaidBy(s, a)));
  }

  lemma HandledIsAdmitted(t: Transfer)
    ensures HandleTransfer(t).Ok? ==> Admit(t).Ok?
  {
    hide Admit;
  }

  lemma {:induction false} ClockedPrefix(start: i64, acts: seq<Act>, k: nat)
    requires Clocked(start, acts) && k <= |acts|
    ensures Clocked(start, acts[..k])
    decreases |acts|
  {
    if k < |acts| {
      ClockedPrefix(start, acts[..|acts| - 1], k);
      assert acts[..|acts| - 1][..k] == acts[..k];
    } else {
      assert acts[..k] == acts;
    }
  }
}
