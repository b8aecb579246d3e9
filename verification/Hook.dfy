/** The stored accounts the transfer hook reads, and the hook's decision. */
module Hook {
  import opened Base

  datatype StreamStatus = Active | Paused | Cancelled

  datatype Stream = Stream(
    subscriber: Key,
    merchant: Key,
    mint: Key,
    rate: u64,
    maxRate: u64,
    lastSettled: i64,
    total: u64,
    cap: Option<u64>,
    pausedAt: Option<i64>,
    minInterval: u32,
    status: StreamStatus)

  datatype Approval = Approval(
    mandate: Key,
    periodStart: i64,
    periodEnd: i64,
    validUntil: i64,
    approved: bool,
    amount: u64,
    createdAt: i64)

  datatype BillingRail = TransferHook | TokenDelegate

  datatype TokenConfig = TokenConfig(mint: Key, enabled: bool, rail: BillingRail)

  datatype TokenAccount = TokenAccount(key: Key, mint: Key, owner: Key, amount: u64)

  datatype ProtocolConfig = ProtocolConfig(paused: bool, hookProgram: Key, vault: Key, wrappedMint: Key)

  /** What the hook finds in the account that owns the source token account. */
  datatype Owner =
    | Wallet                                     // not owned by the protocol program
    | Empty                                      // owned by the protocol, no data
    | Short                                      // fewer than the eight discriminator bytes
    | StreamOwner(stream: Stream)
    | MalformedStream
    | MandateOwner(frequency: u64, nextDue: i64)
    | MalformedMandate
    | OtherOwner                                 // any other discriminator, such as an agent mandate

  /** What the hook finds at the approval address. */
  datatype ApprovalSlot = Missing | Unreadable | Malformed | Present(approval: Approval)

  datatype Transfer = Transfer(
    hookProgram: Key,
    config: ProtocolConfig,
    token: Option<TokenConfig>,
    mint: Key,
    source: TokenAccount,
    destination: TokenAccount,
    ownerKey: Key,
    owner: Owner,
    vault: Key,
    approvalOwner: Key,      // the key whose approval address was passed
    slot: ApprovalSlot,
    amount: u64,
    now: i64)

  /** Billing period of a mandate: the `frequency` seconds that end at the due date. */
  function BillingPeriod(frequency: u64, nextDue: i64): Result<(i64, i64)> {
    var f :- ToI64(frequency, Overflow);
    var start :- ToI64(nextDue - f, Overflow);
    Ok((start, nextDue))
  }

  /** The checks made before the branch on the owner, and whether the vault exempts the transfer. */
  function Admit(t: Transfer): Result<bool> {
    var _ :- Need(t.config.hookProgram == t.hookProgram, InvalidProtocolConfig);
    var _ :- Need(t.token.Some? && t.token.value.mint == t.mint, TokenNotRegistered);
    var _ :- Need(t.token.value.enabled, TokenDisabled);
    var _ :- Need(t.token.value.rail == TransferHook, InvalidBillingRail);
    var _ :- Need(t.source.mint == t.mint, TransferNotAuthorized);
    var _ :- Need(t.destination.mint == t.mint, TransferNotAuthorized);
    var _ :- Need(t.source.owner == t.ownerKey, TransferNotAuthorized);
    if t.mint == t.config.wrappedMint then
      var _ :- Need(t.vault == t.config.vault, VaultMismatch);
      Ok(t.source.key == t.config.vault || t.destination.key == t.config.vault)
    else
      Ok(false)
  }

  /** The hook's own reading of a stream: it recomputes the settlement bound from the stored state. */
  function StreamBranch(s: Stream, amount: u64, now: i64): Result<()> {
    var _ :- Need(s.status == Active, StreamNotActive);
    var elapsed :- ToI64(now - s.lastSettled, ClockRegression);
    var _ :- Need(elapsed >= 0, ClockRegression);
    var _ :- Need(elapsed >= s.minInterval, MinSettleIntervalViolation);
    var _ :- Need(elapsed * s.rate <= U128_MAX, Overflow);
    var _ :- Need(amount <= elapsed * s.rate, AmountExceedsStreamRate);
    match s.cap
    case None => Ok(())
    case Some(cap) =>
      var _ :- Need(s.total + amount <= cap, StreamCapExceeded);
      Ok(())
  }

  function ApprovalBranch(t: Transfer, period: Option<(i64, i64)>): Result<()> {
    var _ :- Need(t.approvalOwner == t.ownerKey, TransferNotAuthorized);
    match t.slot
    case Missing => Err(TransferNotAuthorized)
    case Unreadable => Err(WrongAccountType)
    case Malformed => Err(TransferNotAuthorized)
    case Present(a) =>
      var _ :- Need(a.mandate == t.ownerKey, TransferNotAuthorized);
      var _ :- Need(a.approved, ApprovalNotGranted);
      var _ :- Need(t.now <= a.validUntil, ApprovalExpired);
      var _ :- Need(period.Some? ==> a.periodStart == period.value.0 && a.periodEnd == period.value.1,
                    TransferNotAuthorized);
      var _ :- Need(t.amount <= a.amount, AmountExceedsPlanAmount);
      Ok(())
  }

  /** The hook's decision on one transfer of the billing mint. */
  function HandleTransfer(t: Transfer): Result<()> {
    var exempt :- Admit(t);
    if exempt then Ok(())
    else
      match t.owner
      case Wallet => Ok(())
      case Short => Err(InvalidAccountData)
      case StreamOwner(s) => StreamBranch(s, t.amount, t.now)
      case MalformedStream => Err(WrongAccountType)
      case MandateOwner(frequency, nextDue) =>
        var period :- BillingPeriod(frequency, nextDue);
        ApprovalBranch(t, Some(period))
      case MalformedMandate => Err(WrongAccountType)
      case Empty => ApprovalBranch(t, None)
      case OtherOwner => ApprovalBranch(t, None)
  }
}
