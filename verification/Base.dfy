/** Machine integers, results and errors shared by every component. */
module Base {

  /** Addresses are abstract: two accounts are the same account exactly when their keys are equal. */
  type Key = nat

  const DEFAULT_KEY: Key := 0

  const U64_MAX: int := 0xFFFF_FFFF_FFFF_FFFF
  const I64_MAX: int := 0x7FFF_FFFF_FFFF_FFFF
  const U128_MAX: int := 0xFFFF_FFFF_FFFF_FFFF_FFFF_FFFF_FFFF_FFFF

  type u8 = x: int | 0 <= x <= 0xFF
  type u32 = x: int | 0 <= x <= 0xFFFF_FFFF
  type u64 = x: int | 0 <= x <= 0xFFFF_FFFF_FFFF_FFFF
  type i64 = x: int | -0x8000_0000_0000_0000 <= x <= 0x7FFF_FFFF_FFFF_FFFF

  datatype Option<+T> = None | Some(value: T)

  /** The error codes the modelled handlers can return. */
  datatype Error =
    | AbortedComputation
    | AccountAlreadyInUse
    | AccountNotInitialized
    | AgentMandateAlreadyExists
    | AmountExceedsPlanAmount
    | AmountExceedsStreamRate
    | ApprovalAlreadyExists
    | ApprovalExpired
    | ApprovalNotGranted
    | ArciumRequestAlreadyPending
    | AuthorizedMaxRateTooLow
    | BillingEventAlreadyExists
    | BillingTypeMismatch
    | ClockRegression
    | DailyLimitExceeded
    | DuplicateService
    | InsufficientBalance
    | InsufficientMandateBalance
    | InvalidAccountData
    | InvalidAgentMandateStatusTransition
    | InvalidAmount
    | InvalidArciumRequestState
    | InvalidBillingRail
    | InvalidCallbackBinding
    | InvalidCiphertextInput
    | InvalidComputationOffset
    | InvalidElapsed
    | InvalidFrequency
    | InvalidPeriod
    | InvalidProtocolConfig
    | InvalidTierBoundary
    | InvalidTierCount
    | KeyMismatch
    | LifetimeCapExceeded
    | MandateExpired
    | MandateNotActive
    | MandatePaused
    | MandateRevoked
    | MathDivByZero
    | MathOverflow
    | MathUnderflow
    | MaxPullsExceeded
    | MinSettleIntervalTooLow
    | MinSettleIntervalViolation
    | NoPendingChange
    | NoUpdateProvided
    | Overflow
    | PendingBillingRecord
    | PendingPlanAccountMissing
    | PeriodMismatch
    | PlanNotActive
    | ProtocolPaused
    | PullAmountTooSmall
    | PullCooldownActive
    | PullTooEarly
    | RateMustBeNonZero
    | ServiceDailyLimitExceeded
    | StreamAlreadyCancelled
    | StreamAlreadyPaused
    | StreamCapExceeded
    | StreamNotActive
    | TokenChangeNotSupported
    | TokenDisabled
    | TokenNotRegistered
    | TooManyServices
    | TransferNotAuthorized
    | UnauthorizedAdmin
    | UnauthorizedAgentMandateAuthority
    | UnauthorizedCancel
    | UnauthorizedKeeper
    | UnauthorizedService
    | UnauthorizedStreamSigner
    | UnauthorizedUpgrade
    | UsagePricingOverflowRisk
    | UsageReportAlreadySettled
    | UsdcMintMismatch
    | VaultMismatch
    | WrongAccountType

  datatype Result<+T> = Ok(value: T) | Err(error: Error) {
    predicate IsFailure() { Err? }

    function PropagateFailure<U>(): Result<U>
      requires Err?
    {
      Err(error)
    }

    function Extract(): T
      requires Ok?
    {
      value
    }
  }

  /** A guard: the given error unless the condition holds. */
  function Need(condition: bool, error: Error): Result<()> {
    if condition then Ok(()) else Err(error)
  }

  /** Checked narrowing: the value, or the given error when it does not fit. */
  function ToU64(x: int, error: Error): Result<u64> {
    if 0 <= x <= U64_MAX then Ok(x) else Err(error)
  }

  function ToI64(x: int, error: Error): Result<i64> {
    if -I64_MAX - 1 <= x <= I64_MAX then Ok(x) else Err(error)
  }

  /** Signed subtraction that clamps instead of overflowing. */
  function SaturatingSubI64(a: i64, b: i64): i64 {
    if a - b > I64_MAX then I64_MAX
    else if a - b < -I64_MAX - 1 then -I64_MAX - 1
    else a - b
  }

  function OrElse<T>(o: Option<T>, default: T): T {
    match o case None => default case Some(v) => v
  }

  function Min(a: int, b: int): int {
    if a <= b then a else b
  }

  function Max(a: int, b: int): int {
    if a >= b then a else b
  }
}
