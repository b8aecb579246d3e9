# Vela: a verified model

Vela is a billing protocol on Solana: subscriptions, usage metering, per-second streams and agent budgets, all
drawing on token accounts whose every transfer is checked a second time by a transfer hook. This project models its
state machines over time and money in Dafny and proves what they keep over whole runs.

| files | contents |
|---|---|
| `Base.dfy`, `Hook.dfy`, `HookProofs.dfy` | machine integers, results and error codes; the accounts the hook reads, its decision, and exactly what it lets through |
| `Streaming.dfy`, `StreamProofs.dfy` | streams: settlement and the instructions; accounting, path independence, agreement with the hook |
| `Agent.dfy`, `AgentProofs.dfy`, `AgentTerms.dfy` | agent mandates: counters, limits, adjustment; sliding windows, the budget invariant, the cooldown; when instructions are accepted, terms as last asked for |
| `Pricing.dfy` | usage tiers: validators, stored plans, the plaintext loop, the wrapping circuits, and their agreement |
| `Proration.dfy` | fixed-point proration of a plan change |
| `Encoding.dfy` | mandate images in both layouts, usage reports and their one-byte patch, the committed terms |
| `Billing.dfy`, `BillingInstructions.dfy` | pull billing: the specification of each instruction and callback, and the instructions as they run |
| `BillingRuns.dfy`, `BillingProofs.dfy`, `BillingLedgers.dfy`, `BillingMoney.dfy` | runs and their log; approvals and requests, due dates, records and reports, credit, pacing, committed prices |
| `BillingAccepts.dfy`, `BillingPayments.dfy` | exactly when each instruction and callback is accepted; the transfers behind the charges, and the earliest one |
| `BillingChanges.dfy`, `BillingPace.dfy` | plan changes: proration, scheduling, consent, the maximum, overlapping periods, money by time |
| `BillingProgress.dfy`, `BillingBlocks.dfy` | the steps that bill a period; what blocks it, and so exactly when a usage period can be billed |
| `BillingReady.dfy`, `BillingExamples.dfy` | mandates with everything in order: how fast money can move; runs in which a property fails |
| `BillingState.dfy` | the invariant of the stored accounts and their log, which every billing method keeps |
| `Vault.dfy` | the wrapping vault and the releases it backs |

Each component has a functional specification of its instructions and a class whose methods carry them out step by
step, as the program does: guards in order, a local copy changed field by field, a store at the end. The methods are
proved atomic against the specification (an error leaves the stored accounts as they were), and the theorems are about
the specification: exactly when an instruction is accepted, what it changes, and what holds over sequences of arbitrary
instructions with arbitrary arguments. The billing ledger carries its log as ghost state, and its methods also keep the
invariant from which the theorems about runs follow. A refused instruction is an ordinary step that stores nothing.

For pull billing one mandate is followed with the accounts addressed by it: approval, requests, reports, events and
the computations queued for it. A run produces a log with one entry per instruction, and every theorem about charges,
callbacks or records is about positions in that log. Plans arrive as arbitrary snapshots, so they may change between
any two instructions.

Assumptions, each visible in a `requires` clause or a type:

- the clock is positive and never runs backwards (`Clocked`);
- addresses are abstract keys that differ when their accounts do; computation offsets are tuples and the terms hash is
  the hashed bytes, that is, both hashes are taken to be injective;
- the network returns arbitrary results for offsets that were queued; only the committed-price theorem assumes that it
  computes what it was asked (`Honest`);
- a stored plan has a positive frequency, which the plan instructions enforce;
- fixed-point division is within one unit of its last decimal (`Divides`), which rounding half up satisfies;
- the owner of the wrapping vault is a program address, which signs no transaction of its own.

Where the code and its documentation disagree the code is followed:

- the repository's README derives a mandate's address from subscriber and plan; the code uses merchant and an index,
  and keeps the other derivation for legacy accounts only;
- it also says a usage pull requires a settled report; the code requires an unsettled one and settles it;
- a billing record is said to hold the billing period of the pull; what the code hands over is the following period,
  with the amount and the length of the plan at the request (`RecordNamesTheNextPeriod`).

Properties that fail, with the exact condition under which each holds, read from stored accounts and the arguments of
an instruction, and an input or a run where the condition alone does not show the failure. The runs are given from
every subscription with room for them, not from one (`SubscribedIsStartable` shows that there are such):

- the single-tier circuit ignores the bound of its tier (`OneTierAgreesIff`, `ComputedIsPrice`);
- circuit and loop agree on a tier exactly when it is free or both charge it the same units (`LoopAgreesIff`), and
  disagree on some tiers that no stored plan can have (`UnorderedTiersDiffer`), although an update that gives no new
  tiers does not check the order again (`UpdateUsagePlan` says when the order holds afterwards);
- pulls stay within the maximum exactly when no plan taken over lowers it below them (`PullsWithinMaximumIff`,
  `MaximumLowered`);
- without the subscriber's signature the price stays within the agreed one exactly when no usage pull applies a
  scheduled plan with a higher cap (`NoConsentNoDearer`, `ScheduledCapRaised`); consent guards the price alone, so the
  limit on the money moved by a given time holds over all runs exactly when no plan taken over may have shorter periods
  (`MoneyWithoutConsent`, `MoneyWithinPaceIff`, `FrequencyAtLeastIff`);
- pulled periods are disjoint exactly when no plan taken over between two pulls has periods longer than the time between
  their due dates (`PeriodsDisjointIff`, `PeriodsOverlap`);
- while its plan stands, a due usage period with no request pending and no approval live can be billed exactly when the
  last pull is recorded and the period has no report yet, or one that is unsettled and for this mandate, merchant, due
  date and the plan's present terms (`UsageBilledIff`). A change to a longer frequency can make the start that of a
  settled period (`SettledPeriodBlocks`, `PeriodBlocked`), a change of the plan's cap after the report makes its terms
  stale (`UnreportableBlocks`, `TermsStale`), and a change to a usage plan before a flat pull is recorded leaves it
  unrecorded (`UnrecordedBlocks`, `RecordNeverComes`);
- a due flat period is billed by request, answer and pull exactly when the last pull is recorded, the pull takes over
  no dearer plan and the price less the credit can be paid (`FlatCycleSucceedsIff`); so an upgrade that the subscriber
  schedules stops all pulls instead of taking effect at the next one (`DearerScheduleBlocks`, `UpgradeNeverComes`);
- a due stream that cannot settle can be neither paused nor cancelled (`StopSucceedsIff`);
- the window bound of a daily limit is twice the limit, and no less (`MandateWindowTight`);
- accrual below the minimum interval is dropped by a pause or cancel, not carried over (`ForfeitBound`).

## Model

| member | source | states |
|---|---|---|
| `Streaming.StreamMandate.SettleAccruedInPlace` | programs/vela-protocol/src/instructions/accounts/stream_account.rs:65-104 | settling in place stores exactly `Settle`: the accrual of an active stream clamped to what the cap leaves, with total and clock advanced together; a paused or ended stream is left alone; each refusal has its error and changes nothing |
| `Streaming.StreamMandate.ExecuteStream` | programs/vela-protocol/src/instructions/streaming/execute_stream.rs:87-193 | executing is atomic: it pays and stores one settlement, or leaves the stored stream as it was |
| `Streaming.StreamMandate.PauseStream` | programs/vela-protocol/src/instructions/streaming/pause_stream.rs:74-161 | a pause settles first when the minimum interval has passed, then records when it stopped; atomic |
| `Streaming.StreamMandate.ResumeStream` | programs/vela-protocol/src/instructions/streaming/resume_stream.rs:20-52 | resuming restarts the clock without settling; refused unless paused; atomic |
| `Streaming.StreamMandate.CancelStream` | programs/vela-protocol/src/instructions/streaming/cancel_stream.rs:74-161 | a cancel settles when due and ends the stream from active or paused; atomic |
| `Streaming.StreamMandate.UpdateStreamRate` | programs/vela-protocol/src/instructions/streaming/update_stream_rate.rs:77-184 | a rate update settles at the old rate, needs the subscriber for a raised ceiling, and keeps rate within ceiling; atomic |
| `Streaming.MerchantState.CreateStreamMandate` | programs/vela-protocol/src/instructions/streaming/create_stream_mandate.rs:44-130 | opening a stream fixes its initial state and takes the next index, or changes nothing |
| `StreamProofs.CreatedSound` | programs/vela-protocol/src/instructions/streaming/create_stream_mandate.rs:44-130 | a stream is opened exactly on acceptable terms for a token on the hook's rail, and starts with those terms: active, unpaid, a positive rate within its ceiling, a minimum interval of at least 60 seconds |
| `StreamProofs.RunAsAsked` | programs/vela-protocol/src/instructions/streaming/update_stream_rate.rs:174-184 | over every run the stored rate and ceiling are those of the last accepted update that named them, and the status and pause time those of the last accepted pause, resumption or cancellation |
| `StreamProofs.UpdateSucceedsIff` | programs/vela-protocol/src/instructions/streaming/update_stream_rate.rs:77-184 | an update is accepted exactly on an active stream that can settle, from the subscriber, or from the merchant alone to a positive rate within the ceiling |
| `StreamProofs.ExecuteSucceedsIff` | programs/vela-protocol/src/instructions/streaming/execute_stream.rs:87-193 | executing is accepted exactly from keeper, merchant or subscriber, and for an active stream when its settlement is due, fits the total and can be paid |
| `StreamProofs.ResumeSucceedsIff` | programs/vela-protocol/src/instructions/streaming/resume_stream.rs:20-52 | resuming is accepted exactly from a party of a paused stream; no funds are needed |
| `StreamProofs.RunSound` | programs/vela-protocol/src/instructions/accounts/stream_account.rs:65-104 | in every reachable state: positive rate within the ceiling, paused exactly when a pause time is stored, total within the cap and equal to all payments made; cancellation is final |
| `StreamProofs.StreamAccounting` | programs/vela-protocol/src/instructions/accounts/stream_account.rs:65-104 | over every run payments are the settled accrual clamped to the cap, and settled + forfeited + pending accrual is exactly the integral of the rate asked for over the time for which the stream was asked to be active |
| `StreamProofs.ForfeitBound` | programs/vela-protocol/src/instructions/streaming/pause_stream.rs:103-161 | a pause or cancel before the minimum interval drops less than that interval at the rate in force |
| `StreamProofs.TotalForfeitBound` | programs/vela-protocol/src/instructions/streaming/cancel_stream.rs:101-161 | over a run the loss is at most the number of early stops times interval times highest rate |
| `StreamProofs.NoConsentNoMore` | programs/vela-protocol/src/instructions/streaming/update_stream_rate.rs:105-184 | without the subscriber's signature a stream never pays more than its ceiling times the time passed |
| `StreamProofs.PathIndependence` | programs/vela-protocol/src/instructions/accounts/stream_account.rs:84-101 | any sequence of settlements at an unchanged rate pays, and leaves, what one settlement over the whole span does, capped or not, and succeeds exactly when that one does and no gap is too short |
| `StreamProofs.HookAcceptsUpToSettlement` | programs/vela-transfer-hook/src/lib.rs:300-343 | on the state a settlement started from, the hook's own recomputation accepts exactly the amounts up to the settlement |
| `StreamProofs.HookRefusesUnsettled` | programs/vela-transfer-hook/src/lib.rs:300-343 | where settlement is refused for clock, interval or status the hook refuses every amount, with the same error |
| `StreamProofs.HookAcceptsDespiteOverflow` | programs/vela-transfer-hook/src/lib.rs:300-343 | a settlement refused for overflowing the total has no cap, and the hook still accepts every amount up to the accrual |
| `StreamProofs.StopSucceedsIff` | programs/vela-protocol/src/instructions/streaming/cancel_stream.rs:74-161 | a pause or cancel is refused, beyond protocol, caller and status, exactly when a settlement is due that does not fit the total or for which accounts or funds are missing |
| `StreamProofs.HookNeverBlocksSettlement` | programs/vela-protocol/src/instructions/streaming/execute_stream.rs:131-193 | a settled amount moves exactly when accounts, funds and token admission are in order: the stream branch of the hook never adds a refusal |
| `StreamProofs.EveryPaymentPassedTheHook` | programs/vela-protocol/src/instructions/streaming/execute_stream.rs:131-193 | every payment of every run left the stream's funded account for the merchant's, and was accepted by the hook on the state stored at that moment, which was active |
| `HookProofs.TransferAllowedIff` | programs/vela-transfer-hook/src/lib.rs:237-392 | a transfer of the billing mint goes through exactly when token and accounts are in order and it is to or from the vault, a wallet's own, within what a stream has earned, or within a live approval of the owner, for a mandate of its present period |
| `Agent.AgentMandate.ResetDailyIfNeeded` | programs/vela-protocol/src/state/agent_mandate.rs:88-93 | the daily counter restarts exactly when a whole day has passed since its last reset |
| `Agent.AgentMandate.ResetServiceDailyIfNeeded` | programs/vela-protocol/src/state/agent_mandate.rs:101-108 | the same for one service; the other entries and an index off the list are untouched |
| `Agent.Find` | programs/vela-protocol/src/state/agent_mandate.rs:95-99 | the index of the first entry for a service, or none when no entry is for it |
| `Agent.AgentMandate.ReserveBudget` | programs/vela-protocol/src/instructions/agent_mandates/agent_pull.rs:142-190 | resets what is due, then either the first limit that a pull breaks or the three counters after it |
| `Agent.AgentMandate.AgentPull` | programs/vela-protocol/src/instructions/agent_mandates/agent_pull.rs:103-275 | a pull is atomic: all counters, the total and the clock advance by the amount once the hook agrees, or nothing is stored |
| `Agent.CheckDistinct` | programs/vela-protocol/src/instructions/agent_mandates/adjust_agent_mandate.rs:115-122 | the nested scan accepts a list exactly when no service is repeated |
| `Agent.RebuildServiceList` | programs/vela-protocol/src/instructions/agent_mandates/adjust_agent_mandate.rs:105-149 | a new service list keeps the counters of services already listed, and is refused when too long, repetitive or below what was spent |
| `Agent.AgentMandate.AdjustAgentMandate` | programs/vela-protocol/src/instructions/agent_mandates/adjust_agent_mandate.rs:51-149 | limits change together or not at all, never below what is already spent |
| `Agent.AgentMandate.PauseAgentMandate` | programs/vela-protocol/src/instructions/agent_mandates/pause_agent_mandate.rs:25-50 | only the authority pauses, only from active |
| `Agent.AgentMandate.ResumeAgentMandate` | programs/vela-protocol/src/instructions/agent_mandates/resume_agent_mandate.rs:25-50 | only the authority resumes, only from paused |
| `Agent.AgentMandate.RevokeAgentMandate` | programs/vela-protocol/src/instructions/agent_mandates/revoke_agent_mandate.rs:94-99 | the status half of a revocation: only the authority, from active or paused |
| `Agent.CreateAgentMandate` | programs/vela-protocol/src/instructions/agent_mandates/create_agent_mandate.rs:101-150 | creation accepts at most eight distinct services at an address that holds no mandate yet, and starts every counter at zero |
| `AgentProofs.SlidingWindow` | programs/vela-protocol/src/state/agent_mandate.rs:88-93 | a lazily reset counter kept within a limit lets at most twice the limit through in any 86400 seconds |
| `AgentProofs.MandateWindowTight` | programs/vela-protocol/src/instructions/agent_mandates/agent_pull.rs:142-190 | two pulls of a whole daily limit, a second before the reset falls due and at it, both go through: twice the limit is attained |
| `AgentProofs.RunSolvent` | programs/vela-protocol/src/instructions/agent_mandates/agent_pull.rs:267-275 | over every run: at most eight distinct services, every counter within its limit, total spent equal to the sum of the pulls and within the lifetime cap; nothing after revocation |
| `AgentProofs.OpenedBudget` | programs/vela-protocol/src/instructions/agent_mandates/create_agent_mandate.rs:101-150 | all of that, and the window of the whole mandate, over every run from the opening of a mandate |
| `AgentTerms.PullAcceptedIff` | programs/vela-protocol/src/instructions/agent_mandates/agent_pull.rs:103-275 | a pull is accepted exactly when the agent signs, the mandate is active, the service is listed with room today, the mandate has room today and for life, the amount is no less than the minimum, the cooldown is over, and protocol, accounts and funds are in order |
| `AgentTerms.PullTransfers` | programs/vela-protocol/src/instructions/agent_mandates/agent_pull.rs:197-259 | a pull makes one transfer, the amount, from the mandate's own account to the service's, on an approval that it writes for itself for that amount and 60 seconds; the run theorems on budgets and windows are about these transfers |
| `AgentTerms.RunAsAsked` | programs/vela-protocol/src/instructions/agent_mandates/adjust_agent_mandate.rs:51-149 | over every run from the opening the parties, limits, minimum, cooldown, services and status are those last named by an accepted instruction |
| `AgentTerms.EveryPullAsAsked` | programs/vela-protocol/src/instructions/agent_mandates/agent_pull.rs:142-190 | every pull of a run is signed by the agent of the opening, pays a service then listed, and is at least the minimum and within the limits then in force |
| `AgentTerms.AdjustAcceptedIff` | programs/vela-protocol/src/instructions/agent_mandates/adjust_agent_mandate.rs:51-149 | an adjustment is accepted exactly from the authority, before revocation, when it names something, sets no limit below what is spent and lists at most eight distinct services |
| `AgentTerms.AdjustedCounters` | programs/vela-protocol/src/instructions/agent_mandates/adjust_agent_mandate.rs:105-149 | a service that stays on the list keeps its counter and a new one starts at zero |
| `AgentTerms.OpenAcceptedIff` | programs/vela-protocol/src/instructions/agent_mandates/create_agent_mandate.rs:101-150 | an opening is refused for too many or repeated services, a negative interval or an occupied address only |
| `AgentProofs.MandateWindow` | programs/vela-protocol/src/instructions/agent_mandates/agent_pull.rs:142-190 | over every run with daily limits at most L, adjusted or not, at most 2L leaves the mandate in any 86400 seconds |
| `AgentProofs.ServiceWindow` | programs/vela-protocol/src/instructions/agent_mandates/agent_pull.rs:142-190 | the same for each service while it stays on the list |
| `AgentProofs.Cooldown` | programs/vela-protocol/src/instructions/agent_mandates/agent_pull.rs:176-190 | two pulls in a row are at least the interval in force apart |
| `AgentProofs.HookNeverBlocksPull` | programs/vela-transfer-hook/src/lib.rs:344-392 | the approval a pull writes for itself satisfies the hook's approval branch whenever the token is admitted |
| `Pricing.ValidateUsageTierBoundaries` | programs/vela-protocol/src/instructions/plans/create_usage_plan.rs:171-192 | the scan accepts exactly one to five tiers with strictly increasing bounds of which only the last may be unlimited, and says which of the two is wrong |
| `Pricing.ValidateUsagePricingBounds` | programs/vela-protocol/src/instructions/plans/create_usage_plan.rs:146-169 | accepts exactly caps, rates and bounds within the safe envelope |
| `Pricing.CreateUsagePlan` | programs/vela-protocol/src/instructions/plans/create_usage_plan.rs:67-144 | exactly the acceptable parameters create a plan, the first thing wrong is the error, and every created plan satisfies both validators |
| `Pricing.UsagePlan.UpdateUsagePlan` | programs/vela-protocol/src/instructions/plans/update_usage_plan.rs:36-130 | only the merchant updates; the first thing wrong is the error and changes nothing, and an accepted update keeps pricing bounded and a valid plan valid |
| `Pricing.UsagePlan.UpdateAcceptedIff` | programs/vela-protocol/src/instructions/plans/update_usage_plan.rs:36-130 | an update is accepted exactly from the merchant, when it names something and leaves the pricing in bounds, with new tiers in order and neither cap nor frequency zero |
| `Pricing.TieredPricingPlaintextModel` | encrypted-ixs/src/lib.rs:236-261 | the saturating loop computes its reference and, on validated tiers, the price of the units one by one up to the cap |
| `Pricing.TieredPricing` | encrypted-ixs/src/lib.rs:91-233 | the unrolled circuit of wrapping arithmetic does the same |
| `Pricing.CircuitPricesUnits` | encrypted-ixs/src/lib.rs:91-233 | on validated tiers within the unit envelope no product or sum wraps, and the total is the sum over units of the rate of the tier that holds each |
| `Pricing.LoopIsCircuit` | encrypted-ixs/src/lib.rs:236-261 | loop and circuit agree tier by tier |
| `Pricing.PriceMonotone` | encrypted-ixs/src/lib.rs:91-261 | more usage never costs less, and never more than the cap |
| `Pricing.OneTierAgreesIff` | encrypted-ixs/src/lib.rs:72-88 | the single-tier circuit ignores the bound; it prices correctly exactly when the bound cannot matter |
| `Pricing.LoopAgreesIff` | encrypted-ixs/src/lib.rs:91-261 | for any bounded tiers, ordered or not, the loop never charges more than the circuit, and they agree exactly when every tier is free or both charge it the same units |
| `Pricing.UnorderedTiersDiffer` | encrypted-ixs/src/lib.rs:91-261 | on tiers the validators refuse, with a zero bound in the middle, circuit and loop disagree |
| `Proration.RoundingDivides` | programs/vela-protocol/src/instructions/proration.rs:26-30 | division rounded half up meets the assumption made on the fixed-point library |
| `Proration.FailsOnlyOnGuards` | programs/vela-protocol/src/instructions/proration.rs:50-88 | for all inputs proration succeeds exactly when the period is positive and not overrun: every later failing branch is unreachable |
| `Proration.ProrationBound` | programs/vela-protocol/src/instructions/proration.rs:50-88 | the result is within one of the exact prorated difference truncated toward zero, equal to it when that is not an integer and the period is at most half of 10^12 seconds, never above the new amount nor below minus the old one, and never of the opposite sign |
| `Encoding.MandateRoundTrip` | programs/vela-protocol/src/instructions/accounts/mandate_account.rs:247-297 | loading what was written returns the same mandate in the same layout, in every buffer long enough; writing fails exactly in a shorter one |
| `Encoding.OtherVersionsAreNotCurrent` | programs/vela-protocol/src/instructions/accounts/mandate_account.rs:183-213 | an image of the current layout with another version is refused, unless its whole extension is zero |
| `Encoding.VersionByteDecides` | programs/vela-protocol/src/instructions/accounts/mandate_account.rs:193-212 | with room for both layouts the version byte alone decides: one means current, zero legacy |
| `Encoding.LoadedIsStored` | programs/vela-protocol/src/instructions/accounts/mandate_account.rs:183-213 | nothing else loads: an account that loads starts with the image of the mandate it loads as in that layout, and a legacy one has only zeros after it |
| `Encoding.HookReadsLegacyIffEnlarged` | programs/vela-transfer-hook/src/lib.rs:344-363 | the hook, which reads the current layout only, can read a legacy mandate exactly when its account has been enlarged |
| `Encoding.WriteMandate` | programs/vela-protocol/src/instructions/accounts/mandate_account.rs:247-284 | clearing and overwriting the buffer leaves exactly the specified image |
| `Encoding.ReportRoundTrip` | programs/vela-protocol/src/state/usage_report.rs:5-28 | a usage report reads back as it was written |
| `Encoding.DecodedIsStored` | programs/vela-protocol/src/state/usage_report.rs:5-28 | nothing else decodes: an account that decodes starts with the image of the report it decodes as |
| `Encoding.PatchSettles` | programs/vela-protocol/src/instructions/billing/execute_pull.rs:452-466 | patching one byte at the fixed offset is decoding the report, settling it and encoding it again |
| `Encoding.MarkUsageReportSettled` | programs/vela-protocol/src/instructions/billing/execute_pull.rs:452-466 | the in-place patch changes that byte only, and too short an account is refused |
| `Encoding.BuildTermsBytes` | programs/vela-protocol/src/instructions/accounts/plan_account.rs:335-358 | the appended buffer is the tagged concatenation of the terms |
| `Encoding.TermsBytesInjective` | programs/vela-protocol/src/instructions/accounts/plan_account.rs:335-358 | different plan, merchant, number, tiers, count, cap or frequency give different hashed bytes |
| `BillingInstructions.Ledger.RequestValidation` | programs/vela-protocol/src/instructions/billing/request_validation.rs:31-212 | guards in order, approval blanked, nonce and request stored, computation queued; atomic |
| `BillingInstructions.Ledger.ValidationCallback` | programs/vela-protocol/src/instructions/billing/validation_callback.rs:38-109 | the bound answer writes the approval of the present period and completes the request; atomic |
| `BillingInstructions.Ledger.SubmitUsageReport` | programs/vela-protocol/src/instructions/billing/submit_usage_report.rs:46-136 | one report per period start, by the merchant, committing to the plan's terms; atomic |
| `BillingInstructions.Ledger.RequestUsageComputation` | programs/vela-protocol/src/instructions/billing/request_usage_computation.rs:34-258 | queues the price of the reported units under terms that hash to the commitment; atomic |
| `BillingInstructions.Ledger.UsageCallback` | programs/vela-protocol/src/instructions/billing/usage_computation_callback.rs:46-132 | the bound answer, within the mandate's amount, becomes the approval; atomic |
| `BillingInstructions.Ledger.ExecutePull` | programs/vela-protocol/src/instructions/billing/execute_pull.rs:104-404 | a pull is atomic: transfer, mandate, report and approval change together or not at all |
| `BillingInstructions.Ledger.RequestBillingRecord` | programs/vela-protocol/src/instructions/billing/request_billing_record.rs:24-174 | a record is requested for the last pull only, once it is unrecorded; atomic |
| `BillingInstructions.Ledger.BillingCallback` | programs/vela-protocol/src/instructions/billing/billing_callback.rs:35-100 | the bound answer fills an open event and marks the pull recorded; atomic |
| `BillingInstructions.Ledger.UpdateMandatePlan` | programs/vela-protocol/src/instructions/plans/update_mandate_plan.rs:85-283 | an immediate plan change charges or credits the prorated difference and takes over the new terms; atomic |
| `BillingInstructions.Ledger.SchedulePlanChange` | programs/vela-protocol/src/instructions/plans/schedule_plan_change.rs:32-113 | records a change for the next due date, with the same consent rule; atomic |
| `BillingInstructions.Ledger.CancelPlanChange` | programs/vela-protocol/src/instructions/plans/cancel_plan_change.rs:27-72 | drops a recorded change; atomic |
| `BillingInstructions.Ledger.CancelMandate` | programs/vela-protocol/src/instructions/plans/cancel.rs:62-144 | the subscriber ends an active mandate; atomic |
| `BillingInstructions.Ledger.AdminCancel` | programs/vela-protocol/src/instructions/plans/admin_cancel.rs:60-174 | so does the protocol's admin; atomic |
| `BillingInstructions.MandateCounter.SubscribeTo` | programs/vela-protocol/src/instructions/plans/subscribe.rs:76-295 | a subscription takes the next index and fixes the initial mandate, valid from the start, or returns its error and changes nothing |
| `BillingState.StepConsistent` | programs/vela-protocol/src/instructions/billing/execute_pull.rs:104-404 | every accepted instruction and callback keeps the invariant of accounts and log: approvals come from callbacks, requests are answered once, events are those of recorded flat pulls, settled reports those of usage pulls, queued prices are committed, the pending change is the one scheduled, credit balances; this is the Valid() every method of the ledger keeps |
| `BillingInstructions.Ledger.Facts` | programs/vela-protocol/src/instructions/billing/execute_pull.rs:354-404 | read off any valid ledger: a live approval is the untouched answer of a callback in the log, a settled report has exactly one usage pull there, records lag pulls by at most one, credit is what was granted less what was used |
| `BillingRuns.EveryStepMoves` | programs/vela-protocol/src/instructions/billing/execute_pull.rs:104-404 | whatever the arguments, each of the thirteen instructions and callbacks is refused or makes the transition its log entry states, frame included |
| `BillingAccepts.PullAcceptedIff` | programs/vela-protocol/src/instructions/billing/execute_pull.rs:104-404 | a pull is accepted exactly when caller, plan and token are in order, the last pull is recorded, the mandate is due, a change that has come due can be taken over, the period is approved and reported, and accounts and funds are there for the price less the credit |
| `BillingAccepts.ValidationRequestedIff` | programs/vela-protocol/src/instructions/billing/request_validation.rs:31-212 | exactly when a validation can be requested |
| `BillingAccepts.ValidationAnsweredIff` | programs/vela-protocol/src/instructions/billing/validation_callback.rs:38-109 | a verdict, whatever it says, is accepted exactly while the flat mandate is active and the request of its due date waits for it |
| `BillingAccepts.SubmittedIff` | programs/vela-protocol/src/instructions/billing/submit_usage_report.rs:46-136 | exactly when a report is accepted: from the merchant, once per period start, when the period is over, under a priceable plan |
| `BillingAccepts.UsageRequestedIff` | programs/vela-protocol/src/instructions/billing/request_usage_computation.rs:34-258 | exactly when a price can be requested: for the open report of the present period under the terms it was filed with |
| `BillingAccepts.UsageAnsweredIff` | programs/vela-protocol/src/instructions/billing/usage_computation_callback.rs:46-132 | exactly when a price is accepted: for the open report whose request waits for it, up to the mandate's amount |
| `BillingAccepts.RecordRequestedIff` | programs/vela-protocol/src/instructions/billing/request_billing_record.rs:24-174 | exactly when a record can be requested: for the last pull while it is unrecorded |
| `BillingAccepts.RecordAnsweredIff` | programs/vela-protocol/src/instructions/billing/billing_callback.rs:35-100 | exactly when its answer is accepted: while the event of that pull is open |
| `BillingAccepts.UpdateAcceptedIff` | programs/vela-protocol/src/instructions/plans/update_mandate_plan.rs:85-283 | an immediate change is accepted exactly when it is allowed and its prorated difference is approved and can be paid, or fits the credit |
| `BillingAccepts.ScheduleAcceptedIff` | programs/vela-protocol/src/instructions/plans/schedule_plan_change.rs:32-113 | exactly when a scheduling is accepted; a dearer plan needs the subscriber |
| `BillingAccepts.EndingsAcceptedIff` | programs/vela-protocol/src/instructions/plans/cancel.rs:62-144 | exactly when dropping a scheduled change, cancelling and the admin's cancelling are accepted |
| `BillingAccepts.SubscribedIff` | programs/vela-protocol/src/instructions/plans/subscribe.rs:76-295 | a subscription is accepted exactly to an active plan in its token on the hook's rail whose dates fit; the mandate takes the plan's conditions and is first due when the trial or the first period ends |
| `BillingPayments.EveryChargeIsPaid` | programs/vela-protocol/src/instructions/billing/execute_pull.rs:321-350 | whatever a run's log says has moved, by a pull or a prorated change, was transferred to the unit from the mandate's funded account to the merchant's with the hook's consent on the state then stored |
| `BillingPayments.NothingMovesBeforeDue` | programs/vela-protocol/src/instructions/billing/request_validation.rs:61-75 | no pull and no plan change charges anything before the first due date |
| `BillingPayments.TrialIsFree` | programs/vela-protocol/src/instructions/plans/subscribe.rs:76-295 | from a subscription with a trial nothing is charged before it ends, over any run |
| `BillingProofs.EveryChargeSpendsACallback` | programs/vela-protocol/src/instructions/billing/execute_pull.rs:246-323 | over every run each pull and each prorated charge spends an approval that a positive verdict or a price of the run wrote, untouched since, for this mandate and the period then stored, at most 3600 seconds old, and moves at most its amount, even when a scheduled change is applied inside the pull |
| `BillingProofs.NegativeVerdictBlocks` | programs/vela-protocol/src/instructions/billing/validation_callback.rs:64-95 | after a negative verdict no charge is accepted until another answer is |
| `BillingProofs.ChargesSpendDistinctCallbacks` | programs/vela-protocol/src/instructions/billing/execute_pull.rs:398-401 | two charges are paid for by two callbacks, the later one after the earlier charge |
| `BillingProofs.NoncesIncrease` | programs/vela-protocol/src/instructions/billing/request_validation.rs:89-101 | request nonces of one counter strictly increase and no offset recurs |
| `BillingProofs.CallbackAnswersLastRequest` | programs/vela-protocol/src/instructions/arcium/arcium_request_state.rs:41-60 | a callback is accepted only for the latest request of its slot, while that is unanswered |
| `BillingProofs.NoOffsetAcceptedTwice` | programs/vela-protocol/src/instructions/arcium/arcium_request_state.rs:62-70 | each request is completed by at most one callback |
| `BillingProofs.RequestsAlternateWithAnswers` | programs/vela-protocol/src/instructions/arcium/arcium_request_state.rs:18-24 | a slot is asked again only after its last request was answered: at most one is pending |
| `BillingLedgers.NoPullBetweenRequestAndAnswer` | programs/vela-protocol/src/instructions/billing/validation_callback.rs:52-62 | a callback whose due date, period or pull number has moved on cannot write: between a request and its accepted answer there is no pull, in all three flows |
| `BillingLedgers.PeriodEndsIncrease` | programs/vela-protocol/src/instructions/billing/execute_pull.rs:354-364 | across plan changes of any kind no period end is pulled twice: ends strictly increase, each by the frequency of its pull |
| `BillingLedgers.ReportsStable` | programs/vela-protocol/src/instructions/billing/submit_usage_report.rs:121-133 | a stored report is never replaced, altered or reopened; only its settled flag is ever set |
| `BillingLedgers.BillingSequence` | programs/vela-protocol/src/instructions/billing/billing_callback.rs:73-89 | in every reachable state recorded ≤ pulls ≤ recorded + 1, and an event is written exactly for the flat pulls among the recorded ones |
| `BillingLedgers.EventsWrittenOnce` | programs/vela-protocol/src/instructions/billing/billing_callback.rs:76-89 | a written event never changes |
| `BillingLedgers.RecordNamesTheNextPeriod` | programs/vela-protocol/src/instructions/billing/request_billing_record.rs:82-130 | the period handed to the record ends later than the pulled one by the frequency of the pull; its time is that of the pull, its amount and length those of the plan passed with the request |
| `BillingLedgers.InactiveIsFinal` | programs/vela-protocol/src/instructions/billing/execute_pull.rs:160-163 | a cancelled or expired mandate stays so and is never charged, credited or approved again |
| `BillingMoney.UsagePullsSettleReports` | programs/vela-protocol/src/instructions/billing/execute_pull.rs:296-304 | every usage pull settles the one open report of its own period, and the settled reports are exactly those of the usage pulls, no two the same |
| `BillingMoney.CreditConservation` | programs/vela-protocol/src/instructions/billing/execute_pull.rs:321-323 | over every run the balance is credit granted less credit used, and all base charges equal money moved by pulls plus credit used |
| `BillingMoney.SteadyPace` | programs/vela-protocol/src/instructions/billing/execute_pull.rs:354-370 | while no plan change takes effect the due date is the first one plus pulls times frequency, pulls stay within the maximum, and money moved within pulls times amount |
| `BillingMoney.PullsByTime` | programs/vela-protocol/src/instructions/billing/execute_pull.rs:184-187 | by time t at most one pull per period come due has happened, and at most that many amounts have moved |
| `BillingMoney.SubscribedIsFresh` | programs/vela-protocol/src/instructions/plans/subscribe.rs:262-292 | a subscription is a state from which all these results start |
| `BillingMoney.DueDatesBeforeExpiry` | programs/vela-protocol/src/instructions/accounts/plan_account.rs:180-231 | with a trial every one of the allowed due dates lies strictly before expiry; without one there is no expiry |
| `BillingMoney.SteadyTrialDueBeforeExpiry` | programs/vela-protocol/src/instructions/accounts/plan_account.rs:203-224 | so a trial mandate with pulls left and a standing plan is due before it expires, over every run |
| `BillingMoney.ChargeIsCommittedPrice` | programs/vela-protocol/src/instructions/billing/usage_computation_callback.rs:99-123 | with an honest network an accepted usage charge is what the chosen circuit computes on the units submitted and the tiers and cap of the plan as it was passed with them, whatever has happened to the plan since, and is at most the mandate's amount |
| `BillingMoney.ComputedIsPrice` | programs/vela-protocol/src/instructions/billing/request_usage_computation.rs:130-137 | with validated tiers that is the unit-by-unit price up to the cap, exactly unless a single tier has a bound that matters |
| `BillingMoney.HookAgreesOnApprovals` | programs/vela-transfer-hook/src/lib.rs:344-392 | for an admitted billing transfer the hook accepts exactly the approvals and amounts that the protocol's own check accepts |
| `BillingMoney.HookNeverBlocksPull` | programs/vela-protocol/src/instructions/billing/execute_pull.rs:271-352 | a pull that passed its own checks is never refused by the hook's approval branch, even with a plan change applied inside |
| `BillingMoney.HookNeverBlocksProration` | programs/vela-protocol/src/instructions/plans/update_mandate_plan.rs:183-230 | nor is a prorated charge |
| `BillingChanges.ProrationOfChange` | programs/vela-protocol/src/instructions/plans/update_mandate_plan.rs:285-301 | the time used is clamped to the period, so the guards of the proration hold for every plan change and only a result beyond 64 signed bits refuses it |
| `BillingChanges.ChangeIsProrated` | programs/vela-protocol/src/instructions/plans/update_mandate_plan.rs:149-264 | an immediate change charges or credits the prorated difference between old and new plan for the rest of the period, leaves exactly the new terms, and keeps due date and history; changing to the present plan does nothing |
| `BillingChanges.ScheduledChangeTakesEffect` | programs/vela-protocol/src/instructions/billing/execute_pull.rs:202-244 | over every run a pull changes the plan exactly when a scheduling stands (the last, neither dropped nor overtaken), to the plan scheduled, and at the first pull after it |
| `BillingChanges.ConditionsFollow` | programs/vela-protocol/src/instructions/plans/update_mandate_plan.rs:257-264 | an accepted instruction leaves the mandate with the price, frequency, maximum and kind of the plan it takes over, which its arguments and the stored mandate tell beforehand, and otherwise with its own |
| `BillingChanges.PullsWithinMaximumIff` | programs/vela-protocol/src/instructions/billing/execute_pull.rs:235-244 | pulls stay within the maximum throughout a run exactly when no accepted instruction takes over a plan whose maximum is below the pulls made, counting its own |
| `BillingExamples.MaximumLowered` | programs/vela-protocol/src/instructions/plans/update_mandate_plan.rs:257-264 | from every usage subscription with room for it, a run that ends with two pulls and a maximum of one |
| `BillingChanges.FrequencyAtLeastIff` | programs/vela-protocol/src/instructions/plans/update_mandate_plan.rs:257-264 | periods are never shorter than a given length exactly when no accepted instruction takes over a plan with shorter ones |
| `BillingChanges.NoConsentNoDearer` | programs/vela-protocol/src/instructions/plans/update_mandate_plan.rs:139-147 | over a run without the subscriber's signature the price stays within the one subscribed to exactly when no accepted usage pull is given a due scheduled plan with a higher cap; then no pull and no prorated charge moves more |
| `BillingExamples.ScheduledCapRaised` | programs/vela-protocol/src/instructions/billing/execute_pull.rs:202-244 | from every such subscription, a run unsigned by the subscriber that raises the price to any higher cap |
| `BillingPace.MoneyWithoutConsent` | programs/vela-protocol/src/instructions/plans/update_mandate_plan.rs:139-147 | without the subscriber's signature no more than one agreed amount per frequency come due has moved by time t, when no plan taken over has shorter periods and no usage pull applies a higher cap |
| `BillingReady.MoneyWithinPaceIff` | programs/vela-protocol/src/instructions/plans/update_mandate_plan.rs:257-264 | for every usage subscription with room for two periods, that limit at a frequency f holds over all runs whose plans have periods of at least g exactly when f is at most g: with any shorter period two full amounts move in the time agreed for one |
| `BillingPace.SuccessivePeriods` | programs/vela-protocol/src/instructions/billing/execute_pull.rs:173-188 | two successive pulls charge adjacent periods unless a plan was taken over between them; then the periods overlap exactly when that plan's frequency exceeds the time between the due dates |
| `BillingPace.PeriodsDisjointIff` | programs/vela-protocol/src/instructions/billing/execute_pull.rs:354-364 | no second is billed twice over a run exactly when no plan taken over between successive pulls overreaches so |
| `BillingExamples.PeriodsOverlap` | programs/vela-protocol/src/instructions/plans/update_mandate_plan.rs:257-264 | from every such subscription and for every new frequency between one and two periods, a run in which pulled periods overlap |
| `BillingProgress.FlatCycleSucceedsIff` | programs/vela-protocol/src/instructions/billing/request_validation.rs:31-212 | a flat mandate that is due and unasked is billed by request, answer and pull exactly when its last pull is recorded, the pull takes over no dearer plan and the price less the credit can be paid; that is what it moves |
| `BillingBlocks.DearerScheduleBlocks` | programs/vela-protocol/src/instructions/billing/execute_pull.rs:305-312 | while a dearer plan is scheduled for a flat mandate every pull is refused, over every run: the approval carries the old price and the pull wants the new one |
| `BillingExamples.UpgradeNeverComes` | programs/vela-protocol/src/instructions/plans/schedule_plan_change.rs:65-97 | from every flat subscription the subscriber's own scheduled upgrade leads there |
| `BillingProgress.ChargeCycleRuns` | programs/vela-protocol/src/instructions/billing/request_usage_computation.rs:34-258 | a due period with an open report for the present terms is charged by request, answer and pull, which move the charge less the credit and leave exactly the specified accounts |
| `BillingBlocks.UsageBilledIff` | programs/vela-protocol/src/instructions/billing/submit_usage_report.rs:30-41 | a usage period that is due, with no request pending and no approval live, can be billed by some run under the standing plan exactly when the last pull is recorded and the period has no report, or an unsettled one of this mandate and merchant for this due date and the plan's present terms |
| `BillingBlocks.UnreportableBlocks` | programs/vela-protocol/src/instructions/billing/request_usage_computation.rs:45-128 | otherwise no report, usage request, answer or pull is accepted over any run in which the plan stands |
| `BillingBlocks.UnrecordedBlocks` | programs/vela-protocol/src/instructions/billing/request_billing_record.rs:24-45 | a usage mandate with an unrecorded pull is neither pulled nor recorded over any run in which its plan stands |
| `BillingBlocks.SettledPeriodBlocks` | programs/vela-protocol/src/instructions/billing/execute_pull.rs:412-450 | a settled report under the start of the present period refuses every report, request, answer and pull, whatever the arguments |
| `BillingExamples.PeriodBlocked` | programs/vela-protocol/src/instructions/plans/update_mandate_plan.rs:257-264 | from every such subscription, one pull and a change to twice the frequency leave the active mandate so blocked |
| `BillingExamples.TermsStale` | programs/vela-protocol/src/instructions/billing/request_usage_computation.rs:112-128 | from every such subscription, a change of the cap after the report is filed blocks the period although the report is unsettled |
| `BillingExamples.RecordNeverComes` | programs/vela-protocol/src/instructions/plans/update_mandate_plan.rs:257-264 | from every flat subscription, a pull and a change to a usage plan before it is recorded lead to that |
| `BillingExamples.SubscribedIsStartable` | programs/vela-protocol/src/instructions/plans/subscribe.rs:76-295 | subscriptions to an hourly usage plan and to an hourly flat plan give mandates from which these runs start |
| `Vault.Ledgers.Wrap` | programs/vela-protocol/src/instructions/token/wrap.rs:95-122 | deposit and mint happen together or not at all |
| `Vault.Ledgers.Unwrap` | programs/vela-protocol/src/instructions/token/unwrap.rs:79-107 | burn and release happen together or not at all |
| `Vault.Ledgers.DrainAgentMandate` | programs/vela-protocol/src/instructions/agent_mandates/drain_agent_mandate.rs:79-129 | the whole balance of an agent mandate goes back to its authority, or nothing changes |
| `Vault.Ledgers.RevokeAgentMandate` | programs/vela-protocol/src/instructions/agent_mandates/revoke_agent_mandate.rs:94-142 | refund and revocation happen together or not at all |
| `Vault.DepositSucceedsIff` | programs/vela-protocol/src/instructions/token/wrap.rs:95-122 | in a backed bank a deposit fails only for the depositor's accounts or funds: minting never overflows |
| `Vault.WithdrawalSucceedsIff` | programs/vela-protocol/src/instructions/token/unwrap.rs:79-107 | in a backed bank a withdrawal succeeds exactly when the accounts are the caller's and the holder has the amount: the vault never lacks it |
| `Vault.RefundsSucceedIff` | programs/vela-protocol/src/instructions/agent_mandates/drain_agent_mandate.rs:102-129 | a drain or revocation is never refused for want of funds; accounts, caller and status decide alone |
| `Vault.RefundPays` | programs/vela-protocol/src/instructions/agent_mandates/drain_agent_mandate.rs:102-129 | a drain or revocation pays the authority the whole wrapped balance out of the vault, burns as much and changes no other account; a revocation ends the mandate besides |
| `Vault.DepositMoves` | programs/vela-protocol/src/instructions/token/wrap.rs:95-122 | a deposit takes the amount from the depositor's account to the vault, mints as much and changes no other account |
| `Vault.WithdrawalMoves` | programs/vela-protocol/src/instructions/token/unwrap.rs:79-107 | a withdrawal burns the amount of the holder, pays as much out of the vault and changes no other account |
| `Vault.CoverIsExact` | programs/vela-protocol/src/instructions/token/unwrap.rs:66-110 | over every run the vault exceeds the wrapped supply by exactly what it did at the start, what was paid into it and what was burned outside the protocol |
| `Vault.RunBacked` | programs/vela-protocol/src/instructions/token/wrap.rs:72-125 | in every reachable state the vault holds at least the wrapped supply and the supply is the sum of all wrapped balances, whatever is transferred, donated or burned in between |
| `Vault.WrapUnwrap` | programs/vela-protocol/src/instructions/token/unwrap.rs:66-110 | wrapping and unwrapping the same amount restores every balance |

## Left out

- Agent.AgentMandate.RevokeAgentMandate: states the status half of a revocation; refund and revocation together are
  `Vault.Ledgers.RevokeAgentMandate`.
- Account plumbing: address derivation, rent, account ownership and cross-program calls. In the vault model token
  movements are atomic balance updates; a stream, a mandate or an agent pays by a transfer that is checked for owner,
  mint, funds and the hook's consent, and whose amount is logged, while the balances it leaves are not followed.
- The confidential network: encryption, signature verification of outputs, cluster, mempool and executing-pool
  accounts and configuration checks; a callback carries an offset and a result.
- The circuits `validate_mandate` and `record_billing_event`: their results are arbitrary.
- Hash internals (keccak, offset truncation) and the internals of the fixed-point library, replaced by the assumptions
  above.
- Mandates in the legacy layout inside the billing runs: only their encoding is modelled.
- Instructions with no hard property: credential tokens, mint initialization, protocol, keeper and token
  configuration, flat-plan creation and update, closing and migrating accounts, `update_mandate`, which rewrites the
  same mandate, and `sign` accounts.
- Events, token symbols and `pending_nonce_short`, with the shortcut that skips scheduling the same change twice in one
  slot.
- Anchor's generic error codes: a mismatch of two keys is `KeyMismatch`, a missing account `AccountNotInitialized`.
- Where a record of billing data is decrypted: `BillingEvent` keeps its ciphertext as an opaque value.
- Two mandates at once: their accounts are disjoint, so each is followed on its own; the vault model covers what they
  share.
- The order of the error checks inside the token programs when a transfer fails for two reasons.
