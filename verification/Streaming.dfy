/** Streams: what each instruction does to the stored stream, and the instructions themselves. */
module Streaming {
  import opened Base
  import opened Hook

  /** Everything an instruction reads besides the stream: clock, configuration and token accounts. */
  datatype Env = Env(
    now: i64,
    self: Key,
    signer: Key,
    keeper: Key,
    config: ProtocolConfig,
    hookProgram: Key,
    vault: Key,
    mint: Key,
    token: Option<TokenConfig>,
    source: TokenAccount,
    destination: TokenAccount)

  // ---------------------------------------------------------------- specification

  /** What the stream still may pay in its life; unbounded without a cap. */
  function Room(s: Stream): int {
    match s.cap
    case None => U128_MAX
    case Some(cap) => cap - s.total
  }

  /** What has accrued at the present rate since the last settlement. */
  function Gross(s: Stream, now: i64): int {
    (now - s.lastSettled) * s.rate
  }

  /** One settlement: the accrued amount, clamped to the room left, and the stream after it. */
  function Settle(s: Stream, now: i64): Result<(Stream, u64)> {
    if s.status != Active || s.pausedAt.Some? then Ok((s, 0))
    else if !(0 <= now - s.lastSettled <= I64_MAX) then Err(ClockRegression)
    else if now - s.lastSettled < s.minInterval then Err(MinSettleIntervalViolation)
    else if Room(s) < 0 then Err(StreamCapExceeded)
    else
      var amount := Min(Gross(s, now), Room(s));
      if amount < 0 || s.total + amount > U64_MAX then Err(Overflow)
      else Ok((s.(total := s.total + amount, lastSettled := now), amount))
  }

  /** Protocol-level checks made before any instruction that may move money. */
  function Gate(env: Env): Result<()> {
    var _ :- Need(!env.config.paused, ProtocolPaused);
    var _ :- Need(env.config.hookProgram != DEFAULT_KEY, InvalidProtocolConfig);
    var _ :- Need(env.hookProgram == env.config.hookProgram, InvalidProtocolConfig);
    var _ :- Need(env.vault == env.config.vault, VaultMismatch);
    Ok(())
  }

  /** The call the token program makes to the hook; `stored` is the stream as it is still stored. */
  function HookCall(stored: Stream, env: Env, amount: u64): Transfer {
    Transfer(env.hookProgram, env.config, env.token, env.mint, env.source, env.destination,
             env.self, StreamOwner(stored), env.vault, env.self, Missing, amount, env.now)
  }

  /** Account checks and funds, for a transfer from an account that `payer` owns to one that `payee` owns. */
  function TokenAccounts(env: Env, payer: Key, payee: Key, amount: u64): Result<()> {
    var _ :- Need(env.source.mint == env.mint && env.destination.mint == env.mint, UsdcMintMismatch);
    var _ :- Need(env.source.owner == payer && env.destination.owner == payee, TransferNotAuthorized);
    var _ :- Need(env.token.Some?, TokenNotRegistered);
    Need(amount <= env.source.amount, InsufficientBalance)
  }

  /** A transfer signed by the stream account, with the hook's consent. */
  function Move(stored: Stream, env: Env, amount: u64): Result<()> {
    var _ :- TokenAccounts(env, env.self, stored.merchant, amount);
    HandleTransfer(HookCall(stored, env, amount))
  }

  function MoveIfPositive(stored: Stream, env: Env, amount: u64): Result<()> {
    if amount == 0 then Ok(()) else Move(stored, env, amount)
  }

  /** Whether a pause or cancel at `now` settles first. */
  predicate SettlementDue(s: Stream, now: i64) {
    s.status == Active && now - s.lastSettled >= s.minInterval
  }

  function SettleIfDue(s: Stream, now: i64): Result<(Stream, u64)> {
    if !(0 <= now - s.lastSettled <= I64_MAX) then Err(ClockRegression)
    else if SettlementDue(s, now) then Settle(s, now)
    else Ok((s, 0))
  }

  function Execute(s: Stream, env: Env): Result<(Stream, u64)> {
    var _ :- Gate(env);
    var _ :- Need(env.mint == s.mint, UsdcMintMismatch);
    var _ :- Need(env.signer == env.keeper || env.signer == s.merchant || env.signer == s.subscriber,
            UnauthorizedStreamSigner);
    var (settled, amount) :- Settle(s, env.now);
    var _ :- MoveIfPositive(s, env, amount);
    Ok((settled, amount))
  }

  function Pause(s: Stream, env: Env): Result<(Stream, u64)> {
    var _ :- Gate(env);
    var _ :- Need(env.mint == s.mint, UsdcMintMismatch);
    var _ :- Need(env.signer == s.subscriber || env.signer == s.merchant, UnauthorizedStreamSigner);
    var _ :- Need(s.status != Paused, StreamAlreadyPaused);
    var _ :- Need(s.status != Cancelled, StreamAlreadyCancelled);
    var (settled, amount) :- SettleIfDue(s, env.now);
    var _ :- MoveIfPositive(s, env, amount);
    Ok((settled.(pausedAt := Some(env.now), status := Paused), amount))
  }

  function Resume(s: Stream, env: Env): Result<(Stream, u64)> {
    var _ :- Need(env.signer == s.subscriber || env.signer == s.merchant, UnauthorizedStreamSigner);
    var _ :- Need(s.status != Active, StreamNotActive);
    var _ :- Need(s.status != Cancelled, StreamAlreadyCancelled);
    var _ :- Need(s.pausedAt.Some?, StreamNotActive);
    var _ :- Need(0 <= env.now - s.pausedAt.value <= I64_MAX, ClockRegression);
    Ok((s.(lastSettled := env.now, pausedAt := None, status := Active), 0))
  }

  function Cancel(s: Stream, env: Env): Result<(Stream, u64)> {
    var _ :- Gate(env);
    var _ :- Need(env.mint == s.mint, UsdcMintMismatch);
    var _ :- Need(env.signer == s.subscriber || env.signer == s.merchant, UnauthorizedStreamSigner);
    var _ :- Need(s.status != Cancelled, StreamAlreadyCancelled);
    var (settled, amount) :- SettleIfDue(s, env.now);
    var _ :- MoveIfPositive(s, env, amount);
    Ok((settled.(status := Cancelled, pausedAt := None), amount))
  }

  /** A raised ceiling, or a rate above the present one, needs the subscriber. */
  predicate NeedsSubscriber(s: Stream, newRate: Option<u64>, newMax: Option<u64>) {
    newMax.Some? || (newRate.Some? && newRate.value > s.maxRate)
  }

  function UpdateRate(s: Stream, env: Env, newRate: Option<u64>, newMax: Option<u64>): Result<(Stream, u64)> {
    var _ :- Gate(env);
    var _ :- Need(env.mint == s.mint, UsdcMintMismatch);
    var _ :- Need(s.status == Active, StreamNotActive);
    var _ :- Need(env.signer == s.subscriber || env.signer == s.merchant, UnauthorizedStreamSigner);
    var _ :- Need(newRate.Some? || newMax.Some?, NoUpdateProvided);
    var _ :- Need(NeedsSubscriber(s, newRate, newMax) ==> env.signer == s.subscriber, UnauthorizedStreamSigner);
    var _ :- Need(newRate.Some? ==> newRate.value > 0, RateMustBeNonZero);
    var (settled, amount) :- Settle(s, env.now);
    var _ :- MoveIfPositive(s, env, amount);
    var _ :- Need(OrElse(newRate, s.rate) <= OrElse(newMax, s.maxRate), AuthorizedMaxRateTooLow);
    var _ :- Need(amount <= I64_MAX, Overflow);
    Ok((settled.(rate := OrElse(newRate, s.rate), maxRate := OrElse(newMax, s.maxRate)), amount))
  }

  datatype Terms = Terms(rate: u64, maxRate: u64, cap: Option<u64>, minInterval: u32)

  function Create(t: Terms, subscriber: Key, merchant: Key, mint: Key, token: TokenConfig, now: i64): Result<Stream> {
    var _ :- Need(t.minInterval >= 60, MinSettleIntervalTooLow);
    var _ :- Need(t.rate > 0, RateMustBeNonZero);
    var _ :- Need(t.rate <= t.maxRate, AuthorizedMaxRateTooLow);
    var _ :- Need(token.enabled, TokenDisabled);
    var _ :- Need(token.rail == TransferHook, InvalidBillingRail);
    var _ :- Need(token.mint == mint, TokenNotRegistered);
    Ok(Stream(subscriber, merchant, mint, t.rate, t.maxRate, now, 0, t.cap, None, t.minInterval, Active))
  }

  // ---------------------------------------------------------------- instructions

  /** A stream mandate: the stored account, or the copy an instruction has loaded from it. */
  class StreamMandate {
    var subscriber: Key
    var merchant: Key
    var mint: Key
    var ratePerSecond: u64
    var authorizedMaxRate: u64
    var lastSettledTs: i64
    var totalStreamed: u64
    var maxStreamed: Option<u64>
    var pausedAt: Option<i64>
    var minSettleInterval: u32
    var status: StreamStatus

    function View(): Stream
      reads this
    {
      Stream(subscriber, merchant, mint, ratePerSecond, authorizedMaxRate, lastSettledTs, totalStreamed,
             maxStreamed, pausedAt, minSettleInterval, status)
    }

    constructor (s: Stream)
      ensures View() == s
    {
      subscriber, merchant, mint := s.subscriber, s.merchant, s.mint;
      ratePerSecond, authorizedMaxRate := s.rate, s.maxRate;
      lastSettledTs, totalStreamed, maxStreamed := s.lastSettled, s.total, s.cap;
      pausedAt, minSettleInterval, status := s.pausedAt, s.minInterval, s.status;
    }

    /** Overwrite the stored account with a modified copy. */
    method Store(local: StreamMandate)
      requires local != this
      modifies this
      ensures View() == old(local.View())
    {
      var s := local.View();
      subscriber, merchant, mint := s.subscriber, s.merchant, s.mint;
      ratePerSecond, authorizedMaxRate := s.rate, s.maxRate;
      lastSettledTs, totalStreamed, maxStreamed := s.lastSettled, s.total, s.cap;
      pausedAt, minSettleInterval, status := s.pausedAt, s.minInterval, s.status;
    }

    /** The settlement every instruction but resume goes through. */
    method SettleAccruedInPlace(now: i64) returns (r: Result<u64>)
      modifies this`totalStreamed, this`lastSettledTs
      ensures match Settle(old(View()), now)
              case Ok((settled, amount)) => r == Ok(amount) && View() == settled
              case Err(e) => r == Err(e) && View() == old(View())
    {
      if status != Active {
        return Ok(0);
      }
      if pausedAt.Some? {
        return Ok(0);
      }
      var elapsed :- ToI64(now - lastSettledTs, ClockRegression);
      var _ :- Need(elapsed >= 0, ClockRegression);
      var _ :- Need(elapsed >= minSettleInterval, MinSettleIntervalViolation);
      AccrualFitsU128(elapsed, ratePerSecond);
      var gross := elapsed * ratePerSecond;
      var remaining := U128_MAX;
      if maxStreamed.Some? {
        var _ :- Need(totalStreamed <= maxStreamed.value, StreamCapExceeded);
        remaining := maxStreamed.value - totalStreamed;
      }
      var amount :- ToU64(Min(gross, remaining), Overflow);
      var total :- ToU64(totalStreamed + amount, Overflow);
      totalStreamed := total;
      lastSettledTs := now;
      return Ok(amount);
    }

    method ExecuteStream(env: Env) returns (r: Result<u64>)
      modifies this
      ensures Applied(Execute(old(View()), env), old(View()), View(), r)
    {
      var _ :- Gate(env);
      var stream := new StreamMandate(View());
      var _ :- Need(env.mint == stream.mint, UsdcMintMismatch);
      var isKeeper := env.signer == env.keeper;
      var isMerchant := env.signer == stream.merchant;
      var isSubscriber := env.signer == stream.subscriber;
      var _ :- Need(isKeeper || isMerchant || isSubscriber, UnauthorizedStreamSigner);
      var amount :- stream.SettleAccruedInPlace(env.now);
      if amount == 0 {
        Store(stream);
        return Ok(0);
      }
      var _ :- Move(View(), env, amount);
      Store(stream);
      return Ok(amount);
    }

    method PauseStream(env: Env) returns (r: Result<u64>)
      modifies this
      ensures Applied(Pause(old(View()), env), old(View()), View(), r)
    {
      var _ :- Gate(env);
      var mandate := new StreamMandate(View());
      var _ :- Need(env.mint == mandate.mint, UsdcMintMismatch);
      var _ :- Need(env.signer == mandate.subscriber || env.signer == mandate.merchant, UnauthorizedStreamSigner);
      match mandate.status {
        case Active =>
        case Paused => return Err(StreamAlreadyPaused);
        case Cancelled => return Err(StreamAlreadyCancelled);
      }
      var elapsed :- ToI64(env.now - mandate.lastSettledTs, ClockRegression);
      var _ :- Need(elapsed >= 0, ClockRegression);
      var amount: u64 := 0;
      if elapsed >= mandate.minSettleInterval {
        amount :- mandate.SettleAccruedInPlace(env.now);
      }
      if amount > 0 {
        var _ :- Move(View(), env, amount);
      }
      mandate.pausedAt := Some(env.now);
      mandate.status := Paused;
      Store(mandate);
      return Ok(amount);
    }

    method ResumeStream(env: Env) returns (r: Result<u64>)
      modifies this
      ensures Applied(Resume(old(View()), env), old(View()), View(), r)
    {
      var mandate := new StreamMandate(View());
      var _ :- Need(env.signer == mandate.subscriber || env.signer == mandate.merchant, UnauthorizedStreamSigner);
      match mandate.status {
        case Paused =>
        case Active => return Err(StreamNotActive);
        case Cancelled => return Err(StreamAlreadyCancelled);
      }
      if mandate.pausedAt.None? {
        return Err(StreamNotActive);
      }
      var pauseDuration :- ToI64(env.now - mandate.pausedAt.value, ClockRegression);
      var _ :- Need(pauseDuration >= 0, ClockRegression);
      mandate.lastSettledTs := env.now;
      mandate.pausedAt := None;
      mandate.status := Active;
      Store(mandate);
      return Ok(0);
    }

    method CancelStream(env: Env) returns (r: Result<u64>)
      modifies this
      ensures Applied(Cancel(old(View()), env), old(View()), View(), r)
    {
      var _ :- Gate(env);
      var mandate := new StreamMandate(View());
      var _ :- Need(env.mint == mandate.mint, UsdcMintMismatch);
      var _ :- Need(env.signer == mandate.subscriber || env.signer == mandate.merchant, UnauthorizedStreamSigner);
      var _ :- Need(mandate.status != Cancelled, StreamAlreadyCancelled);
      var elapsed :- ToI64(env.now - mandate.lastSettledTs, ClockRegression);
      var _ :- Need(elapsed >= 0, ClockRegression);
      var amount: u64 := 0;
      if mandate.status == Active && elapsed >= mandate.minSettleInterval {
        amount :- mandate.SettleAccruedInPlace(env.now);
      }
      if amount > 0 {
        var _ :- Move(View(), env, amount);
      }
      mandate.status := Cancelled;
      mandate.pausedAt := None;
      Store(mandate);
      return Ok(amount);
    }

    method UpdateStreamRate(env: Env, newRate: Option<u64>, newMax: Option<u64>) returns (r: Result<u64>)
      modifies this
      ensures Applied(UpdateRate(old(View()), env, newRate, newMax), old(View()), View(), r)
    {
      hide Move, Settle, Gate;
      var _ :- Gate(env);
      var mandate := new StreamMandate(View());
      var _ :- Need(env.mint == mandate.mint, UsdcMintMismatch);
      var _ :- Need(mandate.status == Active, StreamNotActive);
      var isSubscriber := env.signer == mandate.subscriber;
      var isMerchant := env.signer == mandate.merchant;
      var _ :- Need(isSubscriber || isMerchant, UnauthorizedStreamSigner);
      var _ :- Need(newRate.Some? || newMax.Some?, NoUpdateProvided);
      var subscriberRequired := newMax.Some? || (newRate.Some? && newRate.value > mandate.authorizedMaxRate);
      if subscriberRequired {
        var _ :- Need(isSubscriber, UnauthorizedStreamSigner);
      }
      if newRate.Some? {
        var _ :- Need(newRate.value > 0, RateMustBeNonZero);
      }
      var amount :- mandate.SettleAccruedInPlace(env.now);
      if amount > 0 {
        var _ :- Move(View(), env, amount);
      }
      if newRate.Some? {
        mandate.ratePerSecond := newRate.value;
      }
      if newMax.Some? {
        mandate.authorizedMaxRate := newMax.value;
      }
      var _ :- Need(mandate.ratePerSecond <= mandate.authorizedMaxRate, AuthorizedMaxRateTooLow);
      var _ :- Need(amount <= I64_MAX, Overflow);
      Store(mandate);
      return Ok(amount);
    }
  }

  /** A merchant's account, which numbers the streams opened against it. */
  class MerchantState {
    var merchant: Key
    var streamMandateCounter: u64

    constructor (merchant: Key)
      ensures this.merchant == merchant && streamMandateCounter == 0
    {
      this.merchant, streamMandateCounter := merchant, 0;
    }

    /** Open a stream: the stored mandate and its index, or an error that changes nothing. */
    method CreateStreamMandate(t: Terms, subscriber: Key, mint: Key, token: TokenConfig, now: i64)
      returns (r: Result<(StreamMandate, u64)>)
      modifies this`streamMandateCounter
      ensures match Create(t, subscriber, merchant, mint, token, now)
              case Err(e) => r == Err(e) && streamMandateCounter == old(streamMandateCounter)
              case Ok(stream) =>
                if old(streamMandateCounter) == U64_MAX then
                  r == Err(Overflow) && streamMandateCounter == old(streamMandateCounter)
                else
                  r.Ok? && fresh(r.value.0) && r.value.0.View() == stream &&
                  r.value.1 == old(streamMandateCounter) && streamMandateCounter == old(streamMandateCounter) + 1
    {
      var _ :- Need(t.minInterval >= 60, MinSettleIntervalTooLow);
      var _ :- Need(t.rate > 0, RateMustBeNonZero);
      var _ :- Need(t.rate <= t.maxRate, AuthorizedMaxRateTooLow);
      var _ :- Need(token.enabled, TokenDisabled);
      var _ :- Need(token.rail == TransferHook, InvalidBillingRail);
      var _ :- Need(token.mint == mint, TokenNotRegistered);
      var index := streamMandateCounter;
      var mandate := new StreamMandate(
        Stream(subscriber, merchant, mint, t.rate, t.maxRate, now, 0, t.cap, None, t.minInterval, Active));
      var next :- ToU64(streamMandateCounter + 1, Overflow);
      streamMandateCounter := next;
      return Ok((mandate, index));
    }
  }

  /** An instruction is atomic: it installs the specified stream, or leaves the stored one alone. */
  ghost predicate Applied(spec: Result<(Stream, u64)>, before: Stream, after: Stream, r: Result<u64>) {
    match spec
    case Ok((stream, amount)) => r == Ok(amount) && after == stream
    case Err(e) => r == Err(e) && after == before
  }

  /** The checked 128-bit product cannot overflow. */
  lemma AccrualFitsU128(elapsed: i64, rate: u64)
    requires elapsed >= 0
    ensures 0 <= elapsed * rate <= U128_MAX
  {
    assert elapsed * rate <= I64_MAX * U64_MAX by {
      assert elapsed * rate <= elapsed * U64_MAX;
    }
  }
}
