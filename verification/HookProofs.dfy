/** The hook's decision in plain terms: which transfers of the billing mint go through. */
module HookProofs {
  import opened Base
  import opened Hook

  /** The token is registered, enabled and on the hook's rail, and the accounts are of that token and owner. */
  predicate InOrder(t: Transfer) {
    && t.hookProgram == t.config.hookProgram
    && t.token == Some(TokenConfig(t.mint, true, TransferHook))
    && t.source.mint == t.mint && t.destination.mint == t.mint && t.source.owner == t.ownerKey
    && (t.mint == t.config.wrappedMint ==> t.vault == t.config.vault)
  }

  /** A deposit into the wrapping vault or a release from it. */
  predicate ThroughVault(t: Transfer) {
    t.mint == t.config.wrappedMint && (t.source.key == t.config.vault || t.destination.key == t.config.vault)
  }

  lemma AdmittedIff(t: Transfer)
    ensures Admit(t).Ok? <==> InOrder(t)
    ensures Admit(t).Ok? ==> (Admit(t).value <==> ThroughVault(t))
  {
  }

  /** A live grant to the owner of the source account for at least the amount. */
  predicate Granted(t: Transfer) {
    && t.approvalOwner == t.ownerKey && t.slot.Present?
    && var a := t.slot.approval;
       a.mandate == t.ownerKey && a.approved && t.now <= a.validUntil && t.amount <= a.amount
  }

  /** The grant is for the period of `frequency` seconds that ends at the due date. */
  predicate GrantedFor(t: Transfer, frequency: u64, nextDue: i64) {
    && Granted(t)
    && t.slot.approval.periodStart == nextDue - frequency && t.slot.approval.periodEnd == nextDue
    && frequency <= I64_MAX
  }

  /** The amount has accrued since the last settlement and fits the cap. */
  predicate Earned(s: Stream, amount: u64, now: i64) {
    && s.status == Active && s.minInterval <= now - s.lastSettled <= I64_MAX
    && amount <= (now - s.lastSettled) * s.rate
    && (s.cap.Some? ==> s.total + amount <= s.cap.value)
  }

  /** The whole decision: wallets move their own tokens freely; the protocol's accounts only through the vault, what a
      stream has earned, or what an approval grants, for a mandate only for its present period. */
  lemma TransferAllowedIff(t: Transfer)
    ensures HandleTransfer(t).Ok? <==>
              && InOrder(t)
              && (ThroughVault(t) ||
                  match t.owner
                  case Wallet => true
                  case StreamOwner(s) => Earned(s, t.amount, t.now)
                  case MandateOwner(frequency, nextDue) => GrantedFor(t, frequency, nextDue)
                  case Empty => Granted(t)
                  case OtherOwner => Granted(t)
                  case Short => false
                  case MalformedStream => false
                  case MalformedMandate => false)
  {
    hide Admit, InOrder, ThroughVault;
    AdmittedIff(t);
    if t.owner.StreamOwner? {
      EarnedIff(t.owner.stream, t.amount, t.now);
    }
  }

  lemma EarnedIff(s: Stream, amount: u64, now: i64)
    ensures StreamBranch(s, amount, now).Ok? <==> Earned(s, amount, now)
  {
    if 0 <= now - s.lastSettled <= I64_MAX {
      ProductFits(now - s.lastSettled, s.rate);
    }
  }

  lemma ProductFits(x: int, y: int)
    requires 0 <= x <= I64_MAX && 0 <= y <= U64_MAX
    ensures x * y <= U128_MAX
  {
    ProductOrder(x, I64_MAX, y);
  }

  lemma ProductOrder(x: int, z: int, y: int)
    requires x <= z && 0 <= y
    ensures x * y <= z * y
  {
  }
}
