/** The wrapping vault: deposits, wrapped supply and the releases they back. */
module Vault {
  import opened Base
  import Agent

  /** A token account; accounts are numbered by address. */
  datatype Account = Account(owner: Key, amount: u64)

  /** The deposited token, the wrapped token and its supply. `authority` owns the vault and alone may mint. */
  datatype Bank = Bank(authority: Key, vault: nat, usdc: seq<Account>, wrapped: seq<Account>, supply: u64)

  // ---------------------------------------------------------------- token programs

  function With(accounts: seq<Account>, i: nat, amount: u64): seq<Account>
    requires i < |accounts|
  {
    accounts[i := accounts[i].(amount := amount)]
  }

  /** A transfer signed by the owner of the source; source and destination may be the same account. */
  function Transfer(accounts: seq<Account>, signer: Key, from: nat, dest: nat, amount: u64): Result<seq<Account>> {
    var _ :- Need(from < |accounts| && dest < |accounts|, AccountNotInitialized);
    var _ :- Need(accounts[from].owner == signer, TransferNotAuthorized);
    var _ :- Need(accounts[from].amount >= amount, InsufficientBalance);
    if from == dest then Ok(accounts)
    else
      var credited :- ToU64(accounts[dest].amount + amount, Overflow);
      Ok(With(With(accounts, from, accounts[from].amount - amount), dest, credited))
  }

  function MintTo(b: Bank, dest: nat, amount: u64): Result<Bank> {
    var _ :- Need(dest < |b.wrapped|, AccountNotInitialized);
    var supply :- ToU64(b.supply + amount, Overflow);
    var credited :- ToU64(b.wrapped[dest].amount + amount, Overflow);
    Ok(b.(supply := supply, wrapped := With(b.wrapped, dest, credited)))
  }

  function Burn(b: Bank, signer: Key, from: nat, amount: u64): Result<Bank> {
    var _ :- Need(from < |b.wrapped|, AccountNotInitialized);
    var _ :- Need(b.wrapped[from].owner == signer, TransferNotAuthorized);
    var _ :- Need(b.wrapped[from].amount >= amount, InsufficientBalance);
    var supply :- ToU64(b.supply - amount, Overflow);
    Ok(b.(supply := supply, wrapped := With(b.wrapped, from, b.wrapped[from].amount - amount)))
  }

  // ---------------------------------------------------------------- instructions

  /** Deposit into the vault, then mint as much; wrapping and the funding of an agent mandate both do this. */
  function Deposit(b: Bank, signer: Key, from: nat, dest: nat, amount: u64): Result<Bank> {
    var usdc :- Transfer(b.usdc, signer, from, b.vault, amount);
    MintTo(b.(usdc := usdc), dest, amount)
  }

  /** Release from the vault, signed by its authority. */
  function Release(b: Bank, dest: nat, amount: u64): Result<Bank> {
    var usdc :- Transfer(b.usdc, b.authority, b.vault, dest, amount);
    Ok(b.(usdc := usdc))
  }

  /** Burn, then release as much to an account of the caller. */
  function Withdraw(b: Bank, holder: Key, from: nat, caller: Key, dest: nat, amount: u64): Result<Bank> {
    var _ :- Need(dest < |b.usdc| && b.usdc[dest].owner == caller, TransferNotAuthorized);
    var burned :- Burn(b, holder, from, amount);
    Release(burned, dest, amount)
  }

  /** The token account passed belongs to the agent mandate, and the destination to the caller. */
  function RefundAccounts(b: Bank, mandate: Key, from: nat, caller: Key, dest: nat): Result<()> {
    var _ :- Need(from < |b.wrapped| && b.wrapped[from].owner == mandate, AccountNotInitialized);
    Need(dest < |b.usdc| && b.usdc[dest].owner == caller, TransferNotAuthorized)
  }

  /** Withdraw the whole balance of an agent mandate to its authority. */
  function Refund(b: Bank, mandate: Key, from: nat, caller: Key, dest: nat): Result<Bank>
    requires from < |b.wrapped|
  {
    if b.wrapped[from].amount == 0 then Ok(b)
    else Withdraw(b, mandate, from, caller, dest, b.wrapped[from].amount)
  }

  function Drain(b: Bank, m: Agent.Mandate, mandate: Key, from: nat, caller: Key, dest: nat): Result<Bank> {
    var _ :- RefundAccounts(b, mandate, from, caller, dest);
    var _ :- Need(m.authority == caller, UnauthorizedAgentMandateAuthority);
    Refund(b, mandate, from, caller, dest)
  }

  /** Revocation refunds and ends the mandate, or does neither. */
  function Revoke(b: Bank, m: Agent.Mandate, mandate: Key, from: nat, caller: Key, dest: nat)
    : Result<(Bank, Agent.Mandate)>
  {
    var _ :- RefundAccounts(b, mandate, from, caller, dest);
    var revoked :- Agent.SetStatus(m, caller, {Agent.Active, Agent.Paused}, Agent.Revoked);
    var refunded :- Refund(b, mandate, from, caller, dest);
    Ok((refunded, revoked))
  }

  // ---------------------------------------------------------------- in place

  /** The token ledgers, as the instructions update them: two balance changes one after the other. */
  class Ledgers {
    const authority: Key
    const vault: nat
    var usdc: seq<Account>
    var wrapped: seq<Account>
    var supply: u64

    function View(): Bank
      reads this
    {
      Bank(authority, vault, usdc, wrapped, supply)
    }

    constructor (b: Bank)
      ensures View() == b
    {
      authority, vault, usdc, wrapped, supply := b.authority, b.vault, b.usdc, b.wrapped, b.supply;
    }

    method Wrap(signer: Key, from: nat, dest: nat, amount: u64) returns (r: Result<()>)
      modifies this
      ensures match Deposit(old(View()), signer, from, dest, amount)
              case Ok(b) => r == Ok(()) && View() == b
              case Err(e) => r == Err(e) && View() == old(View())
    {
      var deposited :- Transfer(usdc, signer, from, vault, amount);
      var _ :- Need(dest < |wrapped|, AccountNotInitialized);
      var newSupply :- ToU64(supply + amount, Overflow);
      var credited :- ToU64(wrapped[dest].amount + amount, Overflow);
      usdc := deposited;
      supply := newSupply;
      wrapped := With(wrapped, dest, credited);
      return Ok(());
    }

    method Unwrap(signer: Key, from: nat, dest: nat, amount: u64) returns (r: Result<()>)
      modifies this
      ensures match Withdraw(old(View()), signer, from, signer, dest, amount)
              case Ok(b) => r == Ok(()) && View() == b
              case Err(e) => r == Err(e) && View() == old(View())
    {
      var _ :- Need(dest < |usdc| && usdc[dest].owner == signer, TransferNotAuthorized);
      var _ :- Need(from < |wrapped|, AccountNotInitialized);
      var _ :- Need(wrapped[from].owner == signer, TransferNotAuthorized);
      var _ :- Need(wrapped[from].amount >= amount, InsufficientBalance);
      var newSupply :- ToU64(supply - amount, Overflow);
      var released :- Transfer(usdc, authority, vault, dest, amount);
      wrapped := With(wrapped, from, wrapped[from].amount - amount);
      supply := newSupply;
      usdc := released;
      return Ok(());
    }

    /** Burn the whole balance, then release as much. */
    method RefundBalance(mandate: Key, from: nat, caller: Key, dest: nat) returns (r: Result<()>)
      requires from < |wrapped|
      modifies this
      ensures match Refund(old(View()), mandate, from, caller, dest)
              case Ok(b) => r == Ok(()) && View() == b
              case Err(e) => r == Err(e) && View() == old(View())
    {
      var amount := wrapped[from].amount;
      if amount > 0 {
        var _ :- Need(dest < |usdc| && usdc[dest].owner == caller, TransferNotAuthorized);
        var _ :- Need(wrapped[from].owner == mandate, TransferNotAuthorized);
        var newSupply :- ToU64(supply - amount, Overflow);
        var released :- Transfer(usdc, authority, vault, dest, amount);
        wrapped := With(wrapped, from, 0);
        supply := newSupply;
        usdc := released;
      }
      return Ok(());
    }

    method DrainAgentMandate(m: Agent.Mandate, mandate: Key, from: nat, caller: Key, dest: nat)
      returns (r: Result<()>)
      modifies this
      ensures match Drain(old(View()), m, mandate, from, caller, dest)
              case Ok(b) => r == Ok(()) && View() == b
              case Err(e) => r == Err(e) && View() == old(View())
    {
      hide Refund;
      var _ :- RefundAccounts(View(), mandate, from, caller, dest);
      var _ :- Need(m.authority == caller, UnauthorizedAgentMandateAuthority);
      r := RefundBalance(mandate, from, caller, dest);
    }

    method RevokeAgentMandate(m: Agent.AgentMandate, mandate: Key, from: nat, caller: Key, dest: nat)
      returns (r: Result<()>)
      modifies this, m`status
      ensures match Revoke(old(View()), old(m.View()), mandate, from, caller, dest)
              case Ok((b, revoked)) => r == Ok(()) && View() == b && m.View() == revoked
              case Err(e) => r == Err(e) && View() == old(View()) && m.View() == old(m.View())
    {
      hide Refund;
      var _ :- RefundAccounts(View(), mandate, from, caller, dest);
      var _ :- Agent.SetStatus(m.View(), caller, {Agent.Active, Agent.Paused}, Agent.Revoked);
      var _ :- RefundBalance(mandate, from, caller, dest);
      m.status := Agent.Revoked;
      return Ok(());
    }
  }

  // ---------------------------------------------------------------- runs

  datatype Act =
    | DoWrap(signer: Key, from: nat, dest: nat, amount: u64)
    | DoUnwrap(signer: Key, from: nat, dest: nat, amount: u64)
    | DoDrain(signer: Key, m: Agent.Mandate, mandate: Key, from: nat, dest: nat)
    | DoRevoke(signer: Key, m: Agent.Mandate, mandate: Key, from: nat, dest: nat)
    | DoMove(signer: Key, from: nat, dest: nat, amount: u64)      // any transfer of the wrapped token
    | DoBurn(signer: Key, from: nat, amount: u64)                 // by a holder, outside the protocol
    | DoPay(signer: Key, from: nat, dest: nat, amount: u64)       // any transfer of the deposited token
    | DoOpenUsdc(signer: Key)
    | DoOpenWrapped(signer: Key)

  function Step(b: Bank, a: Act): Result<Bank> {
    match a
    case DoWrap(signer, from, dest, amount) => Deposit(b, signer, from, dest, amount)
    case DoUnwrap(signer, from, dest, amount) => Withdraw(b, signer, from, signer, dest, amount)
    case DoDrain(signer, m, mandate, from, dest) => Drain(b, m, mandate, from, signer, dest)
    case DoRevoke(signer, m, mandate, from, dest) =>
      var r :- Revoke(b, m, mandate, from, signer, dest);
      Ok(r.0)
    case DoMove(signer, from, dest, amount) =>
      var wrapped :- Transfer(b.wrapped, signer, from, dest, amount);
      Ok(b.(wrapped := wrapped))
    case DoBurn(signer, from, amount) => Burn(b, signer, from, amount)
    case DoPay(signer, from, dest, amount) =>
      var usdc :- Transfer(b.usdc, signer, from, dest, amount);
      Ok(b.(usdc := usdc))
    case DoOpenUsdc(signer) => Ok(b.(usdc := b.usdc + [Account(signer, 0)]))
    case DoOpenWrapped(signer) => Ok(b.(wrapped := b.wrapped + [Account(signer, 0)]))
  }

  function After(b: Bank, a: Act): Bank {
    match Step(b, a) case Ok(c) => c case Err(_) => b
  }

  function Run(b: Bank, acts: seq<Act>): Bank {
    if acts == [] then b else After(Run(b, acts[..|acts| - 1]), acts[|acts| - 1])
  }

  /** The vault's owner is a program address, which signs no transaction of its own. */
  predicate SignedByOthers(b: Bank, acts: seq<Act>) {
    forall i :: 0 <= i < |acts| ==> acts[i].signer != b.authority
  }

  // ---------------------------------------------------------------- backing

  function Sum(accounts: seq<Account>): nat {
    if accounts == [] then 0 else Sum(accounts[..|accounts| - 1]) + accounts[|accounts| - 1].amount
  }

  /** The vault covers the supply, and the supply is what the holders hold. */
  predicate Backed(b: Bank) {
    && b.vault < |b.usdc| && b.usdc[b.vault].owner == b.authority
    && b.usdc[b.vault].amount >= b.supply == Sum(b.wrapped)
    && Sum(b.usdc) <= U64_MAX
  }

  lemma {:induction false} SumWith(accounts: seq<Account>, i: nat, amount: u64)
    requires i < |accounts|
    ensures Sum(With(accounts, i, amount)) == Sum(accounts) - accounts[i].amount + amount
  {
    var n := |accounts| - 1;
    if i < n {
      SumWith(accounts[..n], i, amount);
      assert With(accounts, i, amount)[..n] == With(accounts[..n], i, amount);
    } else {
      assert With(accounts, i, amount)[..n] == accounts[..n];
    }
  }

  lemma {:induction false} SumBounds(accounts: seq<Account>, i: nat)
    requires i < |accounts|
    ensures accounts[i].amount <= Sum(accounts)
  {
    if i < |accounts| - 1 {
      SumBounds(accounts[..|accounts| - 1], i);
    }
  }

  lemma {:induction false} SumOfTwo(accounts: seq<Account>, i: nat, j: nat)
    requires i < |accounts| && j < |accounts| && i != j
    ensures accounts[i].amount + accounts[j].amount <= Sum(accounts)
  {
    var n := |accounts| - 1;
    if i < n && j < n {
      SumOfTwo(accounts[..n], i, j);
    } else {
      SumBounds(accounts[..n], if i < n then i else j);
    }
  }

  /** A transfer conserves the total, touches no third account, and within the total cannot overflow. */
  lemma {:induction false} TransferFacts(accounts: seq<Account>, signer: Key, from: nat, dest: nat, amount: u64)
    ensures var r := Transfer(accounts, signer, from, dest, amount);
            r.Ok? ==>
              && |r.value| == |accounts| && Sum(r.value) == Sum(accounts)
              && (forall k :: 0 <= k < |accounts| ==> r.value[k].owner == accounts[k].owner)
              && (forall k :: 0 <= k < |accounts| && k != from ==> r.value[k].amount >= accounts[k].amount)
              && (from != dest ==> r.value[from].amount == accounts[from].amount - amount
                                   && r.value[dest].amount == accounts[dest].amount + amount)
              && (from == dest ==> r.value == accounts)
    ensures Sum(accounts) <= U64_MAX ==>
              (Transfer(accounts, signer, from, dest, amount).Ok? <==>
                 && from < |accounts| && dest < |accounts| && accounts[from].owner == signer
                 && accounts[from].amount >= amount)
  {
    hide Sum;
    if from < |accounts| && dest < |accounts| && accounts[from].amount >= amount && from != dest {
      SumOfTwo(accounts, from, dest);
      if accounts[dest].amount + amount <= U64_MAX {
        SumWith(accounts, from, accounts[from].amount - amount);
        SumWith(With(accounts, from, accounts[from].amount - amount), dest, accounts[dest].amount + amount);
      }
    }
  }

  /** In a backed bank a deposit fails only for the depositor's reasons: minting never overflows. */
  lemma DepositSucceedsIff(b: Bank, signer: Key, from: nat, dest: nat, amount: u64)
    requires Backed(b) && signer != b.authority
    ensures Deposit(b, signer, from, dest, amount).Ok? <==>
              && from < |b.usdc| && b.usdc[from].owner == signer && b.usdc[from].amount >= amount && dest < |b.wrapped|
    ensures Deposit(b, signer, from, dest, amount).Ok? ==> Backed(Deposit(b, signer, from, dest, amount).value)
  {
    hide Sum;
    TransferFacts(b.usdc, signer, from, b.vault, amount);
    if Transfer(b.usdc, signer, from, b.vault, amount).Ok? && dest < |b.wrapped| {
      var usdc := Transfer(b.usdc, signer, from, b.vault, amount).value;
      SumBounds(usdc, b.vault);
      SumBounds(b.wrapped, dest);
      SumWith(b.wrapped, dest, b.wrapped[dest].amount + amount);
    }
  }

  /** In a backed bank whoever holds enough can withdraw it: the vault never lacks the funds. */
  lemma WithdrawalSucceedsIff(b: Bank, holder: Key, from: nat, caller: Key, dest: nat, amount: u64)
    requires Backed(b) && caller != b.authority
    ensures Withdraw(b, holder, from, caller, dest, amount).Ok? <==>
              && dest < |b.usdc| && b.usdc[dest].owner == caller
              && from < |b.wrapped| && b.wrapped[from].owner == holder && b.wrapped[from].amount >= amount
    ensures Withdraw(b, holder, from, caller, dest, amount).Ok? ==>
              Backed(Withdraw(b, holder, from, caller, dest, amount).value)
  {
    hide Sum;
    if from < |b.wrapped| && b.wrapped[from].amount >= amount {
      SumBounds(b.wrapped, from);
      SumWith(b.wrapped, from, b.wrapped[from].amount - amount);
      TransferFacts(b.usdc, b.authority, b.vault, dest, amount);
    }
  }

  lemma RefundSucceeds(b: Bank, mandate: Key, from: nat, caller: Key, dest: nat)
    requires Backed(b) && caller != b.authority && RefundAccounts(b, mandate, from, caller, dest).Ok?
    ensures Refund(b, mandate, from, caller, dest).Ok?
    ensures var c := Refund(b, mandate, from, caller, dest).value;
            Backed(c) && c.wrapped[from].amount == 0 && c.supply == b.supply - b.wrapped[from].amount
  {
    hide Backed;
    WithdrawalSucceedsIff(b, mandate, from, caller, dest, b.wrapped[from].amount);
  }

  /** The wrapped account is the mandate's, and the account that is to be paid the caller's. */
  predicate RefundTo(b: Bank, mandate: Key, from: nat, caller: Key, dest: nat) {
    && from < |b.wrapped| && b.wrapped[from].owner == mandate
    && dest < |b.usdc| && b.usdc[dest].owner == caller
  }

  /** So a drain or a revocation of an agent mandate is never refused for want of funds: the accounts, the
      caller and, for a revocation, the status decide alone. */
  lemma RefundsSucceedIff(b: Bank, m: Agent.Mandate, mandate: Key, from: nat, caller: Key, dest: nat)
    requires Backed(b) && caller != b.authority
    ensures Drain(b, m, mandate, from, caller, dest).Ok? <==>
              RefundTo(b, mandate, from, caller, dest) && m.authority == caller
    ensures Revoke(b, m, mandate, from, caller, dest).Ok? <==>
              RefundTo(b, mandate, from, caller, dest) && m.authority == caller && m.status != Agent.Revoked
    ensures Drain(b, m, mandate, from, caller, dest).Ok? ==>
              Backed(Drain(b, m, mandate, from, caller, dest).value)
              && Drain(b, m, mandate, from, caller, dest).value.wrapped[from].amount == 0
    ensures Revoke(b, m, mandate, from, caller, dest).Ok? ==>
              Revoke(b, m, mandate, from, caller, dest).value.0 == Drain(b, m, mandate, from, caller, dest).value
  {
    hide Backed, Refund;
    if RefundAccounts(b, mandate, from, caller, dest).Ok? {
      RefundSucceeds(b, mandate, from, caller, dest);
    }
  }

  // ---------------------------------------------------------------- who is paid

  /** The amount has gone from one account to the other, and nothing else has changed. */
  predicate Moved(before: seq<Account>, after: seq<Account>, from: nat, dest: nat, amount: u64) {
    |after| == |before| && forall k :: 0 <= k < |before| ==>
      && after[k].owner == before[k].owner
      && after[k].amount == before[k].amount - (if k == from then amount else 0) + (if k == dest then amount else 0)
  }

  /** One balance has changed by the amount, and nothing else. */
  predicate Altered(before: seq<Account>, after: seq<Account>, i: nat, delta: int) {
    |after| == |before| && forall k :: 0 <= k < |before| ==>
      && after[k].owner == before[k].owner
      && after[k].amount == before[k].amount + (if k == i then delta else 0)
  }

  lemma TransferMoves(accounts: seq<Account>, signer: Key, from: nat, dest: nat, amount: u64)
    requires Transfer(accounts, signer, from, dest, amount).Ok?
    ensures Moved(accounts, Transfer(accounts, signer, from, dest, amount).value, from, dest, amount)
    ensures from < |accounts| && dest < |accounts| && accounts[from].owner == signer && accounts[from].amount >= amount
  {
  }

  /** A deposit takes the amount from the depositor's account to the vault, and mints as much to the other. */
  lemma DepositMoves(b: Bank, signer: Key, from: nat, dest: nat, amount: u64)
    requires Deposit(b, signer, from, dest, amount).Ok?
    ensures var c := Deposit(b, signer, from, dest, amount).value;
            && Moved(b.usdc, c.usdc, from, b.vault, amount) && Altered(b.wrapped, c.wrapped, dest, amount)
            && c.supply == b.supply + amount && c.authority == b.authority && c.vault == b.vault
  {
    hide Transfer;
    TransferMoves(b.usdc, signer, from, b.vault, amount);
  }

  /** A withdrawal burns the amount of the holder, and pays as much out of the vault to the destination. */
  lemma WithdrawalMoves(b: Bank, holder: Key, from: nat, caller: Key, dest: nat, amount: u64)
    requires Withdraw(b, holder, from, caller, dest, amount).Ok?
    ensures var c := Withdraw(b, holder, from, caller, dest, amount).value;
            && Moved(b.usdc, c.usdc, b.vault, dest, amount) && Altered(b.wrapped, c.wrapped, from, -(amount as int))
            && c.supply == b.supply - amount && c.authority == b.authority && c.vault == b.vault
  {
    hide Transfer;
    TransferMoves(b.usdc, b.authority, b.vault, dest, amount);
  }

  /** A drain or a revocation pays the authority the whole wrapped balance out of the vault, burns as much, and changes
      nothing else; a revocation ends the mandate besides. */
  lemma RefundPays(b: Bank, m: Agent.Mandate, mandate: Key, from: nat, caller: Key, dest: nat)
    requires Drain(b, m, mandate, from, caller, dest).Ok?
    ensures from < |b.wrapped| && m.authority == caller && dest < |b.usdc| && b.usdc[dest].owner == caller
    ensures var c, burned := Drain(b, m, mandate, from, caller, dest).value, b.wrapped[from].amount;
            && Moved(b.usdc, c.usdc, b.vault, dest, burned) && Altered(b.wrapped, c.wrapped, from, -(burned as int))
            && c.supply == b.supply - burned && c.authority == b.authority && c.vault == b.vault
    ensures Revoke(b, m, mandate, from, caller, dest).Ok? ==>
              Revoke(b, m, mandate, from, caller, dest).value
              == (Drain(b, m, mandate, from, caller, dest).value, m.(status := Agent.Revoked))
  {
    hide Withdraw;
    if b.wrapped[from].amount > 0 {
      WithdrawalMoves(b, mandate, from, caller, dest, b.wrapped[from].amount);
    }
  }

  /** Outside the protocol holders transfer and burn their own tokens, and anyone opens accounts. */
  lemma OutsideSteps(b: Bank, a: Act)
    requires Step(b, a).Ok?
    ensures var c := Step(b, a).value;
            match a
            case DoMove(signer, from, dest, amount) =>
              && c == b.(wrapped := c.wrapped) && Moved(b.wrapped, c.wrapped, from, dest, amount)
              && from < |b.wrapped| && b.wrapped[from].owner == signer
            case DoPay(signer, from, dest, amount) =>
              && c == b.(usdc := c.usdc) && Moved(b.usdc, c.usdc, from, dest, amount)
              && from < |b.usdc| && b.usdc[from].owner == signer
            case DoBurn(signer, from, amount) =>
              && c == b.(wrapped := c.wrapped, supply := c.supply) && c.supply == b.supply - amount
              && Altered(b.wrapped, c.wrapped, from, -(amount as int))
              && from < |b.wrapped| && b.wrapped[from].owner == signer
            case DoOpenUsdc(signer) => c == b.(usdc := b.usdc + [Account(signer, 0)])
            case DoOpenWrapped(signer) => c == b.(wrapped := b.wrapped + [Account(signer, 0)])
            case _ => true
  {
    hide Deposit, Withdraw, Drain, Revoke;
  }

  /** What an accepted transaction outside the protocol adds to the vault beyond the supply: a payment into it, or the
      burning of wrapped tokens. */
  function Surplus(b: Bank, a: Act): int {
    if Step(b, a).Err? then 0
    else
      match a
      case DoPay(_, _, dest, amount) => if dest == b.vault then amount else 0
      case DoBurn(_, _, amount) => amount
      case _ => 0
  }

  function Surpluses(b: Bank, acts: seq<Act>): int {
    if acts == [] then 0
    else Surpluses(b, acts[..|acts| - 1]) + Surplus(Run(b, acts[..|acts| - 1]), acts[|acts| - 1])
  }

  function Cover(b: Bank): int
    requires b.vault < |b.usdc|
  {
    b.usdc[b.vault].amount - b.supply
  }

  lemma StepCover(b: Bank, a: Act)
    requires Backed(b) && a.signer != b.authority
    ensures After(b, a).vault == b.vault < |After(b, a).usdc| && Cover(After(b, a)) == Cover(b) + Surplus(b, a)
  {
    hide Sum, Transfer, RefundAccounts, Deposit, Withdraw, Drain, Revoke;
    if Step(b, a).Ok? {
      match a
      case DoWrap(signer, from, dest, amount) =>
        DepositMoves(b, signer, from, dest, amount);
        DepositSucceedsIff(b, signer, from, dest, amount);
      case DoUnwrap(signer, from, dest, amount) =>
        WithdrawalMoves(b, signer, from, signer, dest, amount);
        WithdrawalSucceedsIff(b, signer, from, signer, dest, amount);
      case DoDrain(signer, m, mandate, from, dest) => RefundPays(b, m, mandate, from, signer, dest);
      case DoRevoke(signer, m, mandate, from, dest) =>
        RefundsSucceedIff(b, m, mandate, from, signer, dest);
        RefundPays(b, m, mandate, from, signer, dest);
      case DoMove(signer, from, dest, amount) =>
      case DoBurn(signer, from, amount) =>
      case DoPay(signer, from, dest, amount) => TransferMoves(b.usdc, signer, from, dest, amount);
      case DoOpenUsdc(signer) =>
      case DoOpenWrapped(signer) =>
    }
  }

  /** Conservation: over every run the vault exceeds the supply by exactly what it did at the start, what was paid into
      it and what was burned outside the protocol; wrapping, unwrapping, draining and revoking leave that alone. */
  lemma {:induction false} CoverIsExact(b: Bank, acts: seq<Act>)
    requires Backed(b) && SignedByOthers(b, acts)
    ensures Run(b, acts).vault == b.vault < |Run(b, acts).usdc|
    ensures Cover(Run(b, acts)) == Cover(b) + Surpluses(b, acts)
  {
    hide Backed, After, Surplus, Cover;
    BackedVault(b);
    if acts != [] {
      var n := |acts| - 1;
      CoverIsExact(b, acts[..n]);
      RunBacked(b, acts[..n]);
      StepCover(Run(b, acts[..n]), acts[n]);
    }
  }

  lemma BackedVault(b: Bank)
    requires Backed(b)
    ensures b.vault < |b.usdc|
  {
  }

  lemma StepBacked(b: Bank, a: Act)
    requires Backed(b) && a.signer != b.authority
    ensures Backed(After(b, a)) && After(b, a).authority == b.authority
  {
    hide Sum, RefundAccounts;
    match a
    case DoWrap(signer, from, dest, amount) => DepositSucceedsIff(b, signer, from, dest, amount);
    case DoUnwrap(signer, from, dest, amount) => WithdrawalSucceedsIff(b, signer, from, signer, dest, amount);
    case DoDrain(signer, m, mandate, from, dest) => RefundsSucceedIff(b, m, mandate, from, signer, dest);
    case DoRevoke(signer, m, mandate, from, dest) => RefundsSucceedIff(b, m, mandate, from, signer, dest);
    case DoMove(signer, from, dest, amount) => TransferFacts(b.wrapped, signer, from, dest, amount);
    case DoBurn(signer, from, amount) =>
      if from < |b.wrapped| && b.wrapped[from].amount >= amount {
        SumWith(b.wrapped, from, b.wrapped[from].amount - amount);
      }
    case DoPay(signer, from, dest, amount) => TransferFacts(b.usdc, signer, from, dest, amount);
    case DoOpenUsdc(signer) => SumOpened(b.usdc, signer);
    case DoOpenWrapped(signer) => SumOpened(b.wrapped, signer);
  }

  lemma {:induction false} SumOpened(accounts: seq<Account>, owner: Key)
    ensures Sum(accounts + [Account(owner, 0)]) == Sum(accounts)
  {
    assert (accounts + [Account(owner, 0)])[..|accounts|] == accounts;
  }

  /** Vault backing: in every reachable state the vault holds at least the supply, and the supply is the sum of
      all wrapped balances, whatever else is transferred, donated or burned in between. */
  lemma {:induction false} RunBacked(b: Bank, acts: seq<Act>)
    requires Backed(b) && SignedByOthers(b, acts)
    ensures Backed(Run(b, acts)) && Run(b, acts).authority == b.authority
  {
    hide Backed, After;
    if acts != [] {
      var n := |acts| - 1;
      RunBacked(b, acts[..n]);
      StepBacked(Run(b, acts[..n]), acts[n]);
    }
  }

  /** Wrapping and unwrapping the same amount is the identity. */
  lemma WrapUnwrap(b: Bank, signer: Key, from: nat, dest: nat, amount: u64)
    requires Backed(b) && signer != b.authority && Deposit(b, signer, from, dest, amount).Ok?
    requires b.wrapped[dest].owner == signer
    ensures Withdraw(Deposit(b, signer, from, dest, amount).value, signer, dest, signer, from, amount) == Ok(b)
  {
    hide Sum;
    DepositSucceedsIff(b, signer, from, dest, amount);
    var c := Deposit(b, signer, from, dest, amount).value;
    TransferFacts(b.usdc, signer, from, b.vault, amount);
    WithdrawalSucceedsIff(c, signer, dest, signer, from, amount);
    var d := Withdraw(c, signer, dest, signer, from, amount).value;
    assert d.wrapped == b.wrapped;
    assert d.usdc == b.usdc;
  }
}
