# CPS Treasury and statistics job: a Dafny model

This project models two pieces of the Contribution Proposal System (CPS), a governance
program on the ICON blockchain that funds community projects.

- **The CPS Treasury contract** (`CPSTreasury/cps_treasury.py`) holds the funds of every
  approved proposal:
  - The CPF treasury deposits a proposal's budget and sponsor reward, and can top them up
    after a budget revision.
  - On the CPS contract's order, it pays the contributor and the sponsor one monthly
    installment each.
  - When a project is disqualified, it returns the unpaid remainder to the CPF.
  - Any address can claim what has been credited to it.
  - It answers projected-fund queries for a contributor or a sponsor.

  The contract is the class `Treasury.CpsTreasury`. Its fields are the key list, the
  proposal records and the fund record. A revert is a `Failure` result that leaves every
  field as it was. The arithmetic on one record is in the pure functions of
  `TreasuryLedger` (for example `PayContributor`, `CpfRefund`, `ProjectionOf`), and the
  class methods are proved against them.
- **The statistics job** (`lambda/cron/src/cron.js`) runs on a schedule:
  - `execute` reads the period from the chain. When the period has run out, it advances it.
  - It then sends the statistics of the period that has just ended to webhooks.
  - `formatProposalDetailsResponse` sorts the last voting period's proposals into category
    lists, with vote counts and vote shares.

  Chain reads and the IPFS fetch are parameters. Chain writes, the sleep and the webhook
  calls are returned as a list of effects, in issue order.

Both files are modelled as written, including their defects. Where a defect changes what
the code does, a corrected member sits beside the as-written one (see Findings).

Some behaviour of the code differs from the usual description of the system. The model
follows the code:

- A vote share is a ratio with two decimals ("0.70"), not a one-decimal percentage (70.0).
  - `dividedBy` first rounds the quotient half-up to 20 decimal places.
  - `toFixed(2, 1)` then cuts it down to two.
  - At any positive total the result is the ratio truncated to hundredths or one hundredth
    above it (`ShareNearTruncatedRatio`). It is exactly the truncated ratio while the total
    is below 2·10^18 (`ShareIsTruncatedRatio`). Stake-weighted totals are in loop and are
    usually far larger, and there the extra hundredth does occur
    (`ShareRoundsUpAtLargeTotals`).
- The missing `break`s push a paused proposal into the paused list and also into the two
  lists that follow it (disqualified, completed). The lists before it are not affected.
- After `recursivelyUpdatePeriod` the period is not read again. A run that sees the
  Transition period therefore sends no statistics.
- The projected-fund queries list a proposal only while its `installment_count` is below
  `project_duration`, and report that same counter as the number of times paid.
  - Every payment decrements that counter, so it counts the installments still to pay.
  - The model keeps the comparison exactly as written.
- `update_proposal_fund` adds to the budget, the sponsor reward and the duration. It changes
  neither the remaining amounts nor the installment counters. As a consequence, the
  installments still pay out only the budget as it stood before the top-up, and the added
  amounts only reach the CPF refund (`AddedBudgetNeverInstalled`).
- `disqualify_project` changes only the status. The payment methods do not look at the
  status. So after the refund has been sent to the CPF, the CPS contract can still order
  every scheduled installment, paid out of the same remainder. A second disqualification
  would refund the same amount again (`DisqualifiedProposalStillPays`). Whether the CPS
  contract prevents those calls is outside this model.

## Model

| member | source | states |
|---|---|---|
| TreasuryLedger.FloorDiv | CPSTreasury/cps_treasury.py:327 | Python's `//` rounds the quotient toward negative infinity, for either sign of the divisor |
| TreasuryLedger.InstallmentAmount | CPSTreasury/cps_treasury.py:324-327 | The last installment pays the whole remainder. Earlier ones pay the floor share of the remainder. A non-negative remainder yields an installment between 0 and the remainder |
| TreasuryLedger.PayContributor | CPSTreasury/cps_treasury.py:317-337 | One payment: the count drops by one, and the withdrawn amount grows by exactly what the remainder loses. The last payment empties the remainder. The status becomes completed exactly when the count reaches 0. Budget accounting is preserved, and no other field changes |
| TreasuryLedger.PaySponsor | CPSTreasury/cps_treasury.py:356-376 | The same, over the sponsor reward fields |
| TreasuryLedger.PayContributorTimes | CPSTreasury/cps_treasury.py:317-337 | k payments lower the count by k and conserve remaining plus withdrawn |
| TreasuryLedger.PaySponsorTimes | CPSTreasury/cps_treasury.py:356-376 | The same, for the sponsor reward |
| TreasuryLedger.ContributorInstallmentsDrain | CPSTreasury/cps_treasury.py:324-337 | Paying every scheduled installment leaves nothing remaining. The withdrawn amount grows by the whole remainder, and the proposal ends completed |
| TreasuryLedger.SponsorInstallmentsDrain | CPSTreasury/cps_treasury.py:363-376 | The same, for the sponsor reward |
| TreasuryLedger.ContributorRemainingStaysNonNegative | CPSTreasury/cps_treasury.py:324-330 | However many scheduled installments are paid, a non-negative remainder stays between 0 and its start, and the withdrawn amount never shrinks |
| TreasuryLedger.SponsorRemainingStaysNonNegative | CPSTreasury/cps_treasury.py:363-369 | The same, for the sponsor reward |
| TreasuryLedger.CpfRefund | CPSTreasury/cps_treasury.py:396-407 | The refund to the CPF is the unpaid budget plus the unpaid sponsor reward. It is non-negative when nothing was overpaid |
| TreasuryLedger.WithAddedFund | CPSTreasury/cps_treasury.py:289-296 | A top-up adds its three deltas to the budget, the sponsor reward and the duration, and touches nothing else |
| TreasuryLedger.DisqualifiedProposalStillPays | CPSTreasury/cps_treasury.py:389-407 | After disqualification the refund is still the whole remainder, and the contributor can still be paid all of that remainder. Together the treasury sends out twice the contributor's remainder plus the sponsor's remainder |
| TreasuryLedger.AddedBudgetNeverInstalled | CPSTreasury/cps_treasury.py:288-301 | After a top-up, the installment schedule still pays out only the pre-top-up budget. The added budget and reward only reach the CPF refund |
| TreasuryLedger.ProjectedEntriesMeaning | CPSTreasury/cps_treasury.py:184-202 | About `ProjectedEntries`, the entries of the report loop. The report lists exactly the proposals that are not disqualified, belong to the wallet, and have their counter below the duration. Each entry describes its own proposal. A selected proposal with a zero duration makes the query fail |
| TreasuryLedger.ProjectedEntriesInKeyOrder | CPSTreasury/cps_treasury.py:184-202 | The entries follow `SelectedKeys`, a plain filter of the key list, one for one and in key order. When the keys have no repeats, as the contract keeps them, no proposal is listed twice |
| TreasuryLedger.ProjectionMeaning | CPSTreasury/cps_treasury.py:204-208 | About `ProjectionOf`, the whole report. The count is the number of entries and the total is the sum of their installments. The withdrawable balance is shown only when that total is positive. The bond total appears only in the sponsor report. There, each entry's bond is a tenth of its proposal's total budget, and the bond total is their sum. The count is the number of selected proposals |
| Treasury.CpsTreasury.constructor | CPSTreasury/cps_treasury.py:66-76 | A new treasury has no score addresses, no proposals and no balances |
| Treasury.CpsTreasury.ValidateOwner | CPSTreasury/cps_treasury.py:105-107 | Passes exactly when the caller is the owner |
| Treasury.CpsTreasury.ValidateOwnerScore | CPSTreasury/cps_treasury.py:109-112 | Passes exactly for the owner with a contract address. The owner check comes first |
| Treasury.CpsTreasury.ValidateCpsScore | CPSTreasury/cps_treasury.py:114-116 | Passes exactly when the caller is the configured CPS score. An unset address matches no caller |
| Treasury.CpsTreasury.ValidateCpfTreasuryScore | CPSTreasury/cps_treasury.py:118-121 | Passes exactly when the caller is the configured CPF treasury score |
| Treasury.CpsTreasury.SetCpsScore | CPSTreasury/cps_treasury.py:137-146 | Only the owner can set the address, and only to a contract. Otherwise the address is unchanged |
| Treasury.CpsTreasury.SetCpfTreasuryScore | CPSTreasury/cps_treasury.py:157-166 | The same, for the CPF treasury address |
| Treasury.CpsTreasury.AddRecord | CPSTreasury/cps_treasury.py:123-130 | A new key is appended and its record stored. A known key reverts with nothing changed. Keys stay distinct and in step with the records |
| Treasury.CpsTreasury.DepositProposalFund | CPSTreasury/cps_treasury.py:262-267 | Only the CPF treasury can deposit. The proposal is stored as active under a new key, and a duplicate reverts |
| Treasury.CpsTreasury.UpdateProposalFund | CPSTreasury/cps_treasury.py:286-301 | Only the CPF treasury can top up. A known key gets the three deltas, and an unknown key reverts |
| Treasury.CpsTreasury.SendInstallmentToContributor | CPSTreasury/cps_treasury.py:311-340 | Only the CPS score can order a payment. The record is updated to `PayContributor` of itself, and the contributor's balance is credited with the installment. An unknown key is a no-op. A zero count divides by zero and reverts |
| Treasury.CpsTreasury.SendRewardToSponsor | CPSTreasury/cps_treasury.py:350-378 | The same, for the sponsor reward and the sponsor's balance |
| Treasury.CpsTreasury.DisqualifyProject | CPSTreasury/cps_treasury.py:387-414 | Only the CPS score can disqualify. The proposal's status becomes disqualified, and the refund sent is `CpfRefund` of the old record. An unknown key reverts |
| Treasury.CpsTreasury.ClaimReward | CPSTreasury/cps_treasury.py:421-434 | A positive balance is paid out in full and zeroed. Otherwise the call reverts, naming the available amount |
| Treasury.CpsTreasury.GetContributorProjectedFund | CPSTreasury/cps_treasury.py:184-208 | The loop over the keys yields exactly the contributor report `ProjectionOf` |
| Treasury.CpsTreasury.GetSponsorProjectedFund | CPSTreasury/cps_treasury.py:217-247 | The loop yields exactly the sponsor report, with each bond a tenth of the total budget |
| CronFormat.RoundHalfUpDiv | lambda/cron/src/cron.js:49 | BigNumber's default rounding: to the nearest integer, with halves going up |
| CronFormat.TruncDiv | lambda/cron/src/cron.js:49 | Rounding mode 1: toward zero |
| CronFormat.ShareOf | lambda/cron/src/cron.js:48-51 | The share is the literal '0' exactly when the total is not positive |
| CronFormat.ShareWithinUnit | lambda/cron/src/cron.js:48-56 | A share of a count within its total lies between 0.00 and 1.00 |
| CronFormat.ShareNearTruncatedRatio | lambda/cron/src/cron.js:48-56 | For any non-negative count and positive total, the share is the ratio truncated to hundredths, or one hundredth more |
| CronFormat.ShareIsTruncatedRatio | lambda/cron/src/cron.js:49 | For totals below 2·10^18, the share is the ratio truncated to hundredths |
| CronFormat.ShareRoundsUpAtLargeTotals | lambda/cron/src/cron.js:54 | At totals of 10^25, the 20-place rounding carries into the second decimal: 0.70 is reported where truncation gives 0.69 |
| CronFormat.Abstaining | lambda/cron/src/cron.js:75-82 | The abstention count is non-negative exactly when approvals and rejections fit in the total |
| CronFormat.ApprovedDetailsMeaning | lambda/cron/src/cron.js:45-57 | About `ApprovedDetails`, the approved entry. It carries the raw counts. Each share is '0' exactly when its total is 0 and lies within 0.00..1.00. Each share is the truncated ratio or one hundredth above it, and exactly the truncated ratio for totals below 2·10^18 |
| CronFormat.RejectedDetailsMeaning | lambda/cron/src/cron.js:63-83 | About `RejectedDetails`, the rejected entry: the same as for an approved entry. Also, the approvals, rejections and abstentions add up to the totals |
| CronFormat.PlaceAsWritten | lambda/cron/src/cron.js:43-99 | The switch as written: a paused proposal is pushed to the paused, disqualified and completed lists, and a disqualified one to the last two |
| CronFormat.PlaceOneBucket | lambda/cron/src/cron.js:43-99 | The intended switch: every status except pending goes to exactly one list |
| CronFormat.PausedProposalListedThrice | lambda/cron/src/cron.js:88-98 | One paused proposal is listed three times as written, and once as intended |
| CronFormat.FormatProposalDetailsResponse | lambda/cron/src/cron.js:10-102 | As written: an empty input yields `undefined`. Otherwise only the first proposal is fetched and placed. A failed fetch throws the 400 "IPFS url" error |
| CronFormat.FormatAllCategorises | lambda/cron/src/cron.js:13-99 | In the intended response, each list is the input filtered by its status (`WithStatus`), in input order, each proposal mapped to the details its status calls for: approved and rejected details, or a summary. So each list's length is the count of its status, and every non-pending proposal is listed once |
| CronFormat.FormatAllProposals | lambda/cron/src/cron.js:21-101 | The intended loop yields the full response when every document can be fetched, and the IPFS error otherwise |
| CronFormat.OnlyFirstProposalCategorised | lambda/cron/src/cron.js:21-102 | With two active proposals, the as-written response lists one approved proposal and the intended one lists both |
| CronExecute.IcxHundredths | lambda/cron/src/cron.js:145-148 | `div(10**18).toFixed(2)` turns an amount in loop into ICX (10^18 loop each), rounded half-up to the nearest hundredth of an ICX |
| CronExecute.NotStarted | lambda/cron/src/cron.js:156 | Keeps exactly the active proposals with no progress yet, each with as many copies as in the input |
| CronExecute.NotStartedDistributes | lambda/cron/src/cron.js:156 | Filtering a concatenation gives the filtered pieces concatenated, so the kept proposals keep their input order |
| CronExecute.Execute | lambda/cron/src/cron.js:106-184 | As written; the voting stats are `VotingStatsOf` the chain answers. A non-zero remaining time does nothing. Otherwise the run updates the period and sleeps, then depends on the new period. Transition: it asks for the recursive update and sends nothing. Application: it sends the voting stats and the un-awaited formatter promise. Voting: it throws a ReferenceError before any webhook |
| CronExecute.ExecuteIntended | lambda/cron/src/cron.js:106-184 | As intended. The Application branch awaits the full formatting, so a failed fetch rejects before the proposal stats are sent. The Voting branch sends the application-period stats from the pending amounts |

## Left out

- Logging, event logs (`ProposalFundDeposited`, `ProposalFundSent`, `ProposalDisqualified`, `ProposalFundWithdrawn`), the `fallback` and the score-address getters: they do not change state.
- `set_id`/`get_id` and `proposal_prefix`: `id` is part of every record's storage prefix, but no external call sets it, so the prefix is constant. Records are kept in a map keyed by IPFS hash alone.
- The ICX transfers (`icx.transfer` in `claim_reward`, the interface call in `disqualify_project`): they are modelled as the returned amount, assuming the call succeeds. A failing transfer would revert the call.
- `createProposalDataObject`, `addDataToProposalDB` and `getDataFromProposalDB` are not part of this model. The counters of a new record are a parameter of `DepositProposalFund`, and storage under a prefix is a map keyed by IPFS hash.
- Treasury.CpsTreasury.DepositProposalFund: the deposited ICX value (`msg.value`) is not recorded, since the code only logs it.
- TreasuryLedger.IsContract: an address is treated as a contract when it starts with "cx". This stands in for `Address.is_contract`.
- The chain client (`score` module), `axios`, `sleep` and `triggerWebhook` are not part of this model. Chain answers and IPFS documents are inputs, and writes and webhooks are output effects. A failing chain read or webhook is not modelled.
- CronExecute.Execute: the active proposals are read without the second argument `true` that the other four category reads pass. What that flag controls is in the `score` module, which is not part of this model. All five reads are taken to carry the vote fields. If the flag governs them, the approved entries would really show missing counts and '0' shares, which the model does not capture.
- CronExecute.Execute: `parseInt(remaining_time, 'hex')` is taken as the integer the hex string denotes. The radix argument is not modelled.
- CronExecute.Execute: the later settling of the un-awaited formatter promise, and the un-awaited application-stats webhook call, are not modelled. The payload is recorded as the pending formatting of its proposals.
- CronExecute.PeriodEndingDate: the end date is 15 days of 86 400 000 ms after the run. Daylight-saving shifts of `setDate` and the string rendering are left out.
- CronFormat.ShareOf: decimal strings are kept as integers of hundredths (or of whole units for `toFixed(0)`). Their textual rendering is not modelled.
- Hex-string decoding of amounts and vote counts by BigNumber is taken as given. Fields are integers.

## Findings

| source | as written | input that shows it | evidently intended | confidence | as-written member | corrected member |
|---|---|---|---|---|---|---|
| lambda/cron/src/cron.js:88-98 | the paused and disqualified cases have no `break`, so control falls into the following cases | one proposal with status '_paused' is listed as paused, disqualified and completed | each proposal in the one list of its status | high; not executed | CronFormat.PausedProposalListedThrice | CronFormat.PlaceOneBucket |
| lambda/cron/src/cron.js:101 | `return response` sits inside the `for` loop, so only the first proposal is processed; an empty input returns `undefined` | two active proposals: one approved entry instead of two | return after the loop | high; not executed | CronFormat.OnlyFirstProposalCategorised | CronFormat.FormatAllProposals |
| lambda/cron/src/cron.js:173 | the Voting branch reads `activeProjectAmt`, a `const` of the Application branch, so it throws ReferenceError and the application-period stats are never sent | a run where remaining time is 0 and the period after the update is the Voting Period | read `pendingProjectAmt` | high; not executed | CronExecute.Execute | CronExecute.ExecuteIntended |
| lambda/cron/src/cron.js:162 | the async formatter is called without `await`, so the webhook receives a promise and a failed IPFS fetch is not caught by `execute` | a run entering the Application Period | await the formatted response | high; not executed | CronExecute.Execute | CronExecute.ExecuteIntended |
