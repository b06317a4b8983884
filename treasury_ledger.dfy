/** The per-proposal record of the CPS Treasury contract and the arithmetic done on it:
    installment payments to the contributor and to the sponsor, the refund owed to the
    CPF on disqualification, the budget top-up after a revision, and the projected-fund
    reports. Everything here is a pure function of a record (or of the key list and the
    record store); the contract object that updates them in place is in module Treasury. */
module TreasuryLedger {
  import opened Outcomes

  /** An ICON address in its string form; the fund record is keyed by `str(address)`. */
  type Address = string

  /** `Address.is_contract`: contract (SCORE) addresses carry the "cx" prefix. */
  predicate IsContract(a: Address) {
    |a| >= 2 && a[..2] == "cx"
  }

  /** The status values the treasury writes: "active", "disqualified", "completed". */
  datatype ProposalStatus = Active | Disqualified | Completed

  /** The `ProposalAttributes` dictionary the CPF treasury deposits. */
  datatype ProposalAttributes = ProposalAttributes(
    ipfsHash: string,
    projectDuration: int,
    totalBudget: int,
    sponsorReward: int,
    contributorAddress: Address,
    sponsorAddress: Address)

  /** The counters the storage layer gives a freshly created record. How it derives them
      from the attributes is not part of this model, so a deposit receives them as given. */
  datatype InitialCounters = InitialCounters(
    installmentCount: int,
    sponsorRewardCount: int,
    withdrawAmount: int,
    sponsorWithdrawAmount: int,
    remainingAmount: int,
    sponsorRemainingAmount: int)

  /** The fields of a stored proposal that the treasury reads and writes. */
  datatype ProposalRecord = ProposalRecord(
    status: ProposalStatus,
    contributorAddress: Address,
    sponsorAddress: Address,
    totalBudget: int,
    sponsorReward: int,
    projectDuration: int,
    installmentCount: int,
    sponsorRewardCount: int,
    withdrawAmount: int,
    sponsorWithdrawAmount: int,
    remainingAmount: int,
    sponsorRemainingAmount: int)

  /** The reasons a treasury call reverts (or, for a read-only query, fails). */
  datatype TreasuryError =
    | OnlyOwner                   // "Only owner can call this method."
    | NotScore(target: Address)   // "Target(...) is not SCORE."
    | OnlyCps                     // "Only CPS(...) SCORE can send fund using this method."
    | OnlyCpfTreasury             // "Only CPF Treasury(...) SCORE can send fund using this method."
    | AlreadyHaveProject          // "Already have this project."
    | IpfsHashMissing             // "IPFS Hash doesn't exist"
    | NetworkProblem              // the payment's try block caught an exception
    | KeyNotFound                 // "Provided IPFS key not found."
    | ClaimFails(available: int)  // "Claim Reward Fails. Available Amount = ..."
    | DivisionByZero              // a projected-fund query divided by a zero duration

  function NewRecord(attrs: ProposalAttributes, init: InitialCounters, status: ProposalStatus): ProposalRecord {
    ProposalRecord(status, attrs.contributorAddress, attrs.sponsorAddress,
                   attrs.totalBudget, attrs.sponsorReward, attrs.projectDuration,
                   init.installmentCount, init.sponsorRewardCount,
                   init.withdrawAmount, init.sponsorWithdrawAmount,
                   init.remainingAmount, init.sponsorRemainingAmount)
  }

  /** A `DictDB` of ints reads 0 for an address it has never stored. */
  function Balance(fundRecord: map<Address, int>, a: Address): int {
    if a in fundRecord then fundRecord[a] else 0
  }

  /** Python's `a // b`: the quotient rounded toward negative infinity, for either sign of b. */
  function FloorDiv(a: int, b: int): (q: int)
    requires b != 0
    ensures b > 0 ==> b * q <= a < b * q + b
    ensures b < 0 ==> b * q + b < a <= b * q
  {
    if b > 0 then a / b else (-a) / (-b)
  }

  /** The installment paid out of `remaining` when `count` installments are left: all of it
      on the last one, an equal floor share otherwise. */
  function InstallmentAmount(remaining: int, count: int): (amount: int)
    requires count != 0
    ensures count == 1 ==> amount == remaining
    ensures count > 1 ==> amount * count <= remaining < amount * count + count
    ensures count >= 1 && remaining >= 0 ==> 0 <= amount <= remaining
  {
    if count == 1 then remaining
    else
      var q := FloorDiv(remaining, count);
      if count > 1 then FloorShareWithin(remaining, count, q); q else q
  }

  /** A floor share of a non-negative amount over b > 1 parts lies between 0 and the amount. */
  lemma FloorShareWithin(a: int, b: int, q: int)
    requires b > 1 && b * q <= a < b * q + b
    ensures a >= 0 ==> 0 <= q <= a
  {
    if a >= 0 {
      assert b * (q + 1) == b * q + b;
      PositiveFactor(b, q + 1);
      GrowsByFactor(b, q);
    }
  }

  lemma PositiveFactor(b: int, x: int)
    requires b > 0 && b * x > 0
    ensures x > 0
  {
  }

  lemma GrowsByFactor(b: int, x: int)
    requires b >= 1 && x >= 0
    ensures x <= b * x
  {
  }

  /** Every unit of the budget is either still remaining or already withdrawn, for the
      contributor's budget and for the sponsor's reward alike. */
  predicate Accounted(p: ProposalRecord) {
    && p.remainingAmount + p.withdrawAmount == p.totalBudget
    && p.sponsorRemainingAmount + p.sponsorWithdrawAmount == p.sponsorReward
  }

  function ContributorInstallment(p: ProposalRecord): int
    requires p.installmentCount != 0
  {
    InstallmentAmount(p.remainingAmount, p.installmentCount)
  }

  function SponsorInstallment(p: ProposalRecord): int
    requires p.sponsorRewardCount != 0
  {
    InstallmentAmount(p.sponsorRemainingAmount, p.sponsorRewardCount)
  }

  /** The record after one installment to the contributor. */
  function PayContributor(p: ProposalRecord): (q: ProposalRecord)
    requires p.installmentCount != 0
    ensures q.installmentCount == p.installmentCount - 1
    ensures q.withdrawAmount - p.withdrawAmount == p.remainingAmount - q.remainingAmount == ContributorInstallment(p)
    ensures p.installmentCount == 1 ==> q.remainingAmount == 0
    ensures p.installmentCount >= 1 && p.remainingAmount >= 0 ==> 0 <= q.remainingAmount <= p.remainingAmount
    ensures q.status == if q.installmentCount == 0 then Completed else p.status
    ensures Accounted(p) ==> Accounted(q)
    ensures q.(installmentCount := p.installmentCount, remainingAmount := p.remainingAmount,
               withdrawAmount := p.withdrawAmount, status := p.status) == p
  {
    var amount := ContributorInstallment(p);
    var count := p.installmentCount - 1;
    p.(installmentCount := count,
       remainingAmount := p.remainingAmount - amount,
       withdrawAmount := p.withdrawAmount + amount,
       status := if count == 0 then Completed else p.status)
  }

  /** The record after one installment of the sponsor reward. */
  function PaySponsor(p: ProposalRecord): (q: ProposalRecord)
    requires p.sponsorRewardCount != 0
    ensures q.sponsorRewardCount == p.sponsorRewardCount - 1
    ensures q.sponsorWithdrawAmount - p.sponsorWithdrawAmount
         == p.sponsorRemainingAmount - q.sponsorRemainingAmount == SponsorInstallment(p)
    ensures p.sponsorRewardCount == 1 ==> q.sponsorRemainingAmount == 0
    ensures p.sponsorRewardCount >= 1 && p.sponsorRemainingAmount >= 0 ==>
              0 <= q.sponsorRemainingAmount <= p.sponsorRemainingAmount
    ensures q.status == if q.sponsorRewardCount == 0 then Completed else p.status
    ensures Accounted(p) ==> Accounted(q)
    ensures q.(sponsorRewardCount := p.sponsorRewardCount, sponsorRemainingAmount := p.sponsorRemainingAmount,
               sponsorWithdrawAmount := p.sponsorWithdrawAmount, status := p.status) == p
  {
    var amount := SponsorInstallment(p);
    var count := p.sponsorRewardCount - 1;
    p.(sponsorRewardCount := count,
       sponsorWithdrawAmount := p.sponsorWithdrawAmount + amount,
       sponsorRemainingAmount := p.sponsorRemainingAmount - amount,
       status := if count == 0 then Completed else p.status)
  }

  /** The record after k successive contributor installments with no other call between. */
  function PayContributorTimes(p: ProposalRecord, k: nat): (q: ProposalRecord)
    requires k <= p.installmentCount
    ensures q.installmentCount == p.installmentCount - k
    ensures q.remainingAmount + q.withdrawAmount == p.remainingAmount + p.withdrawAmount
    decreases k
  {
    if k == 0 then p else PayContributorTimes(PayContributor(p), k - 1)
  }

  /** The record after k successive sponsor installments with no other call between. */
  function PaySponsorTimes(p: ProposalRecord, k: nat): (q: ProposalRecord)
    requires k <= p.sponsorRewardCount
    ensures q.sponsorRewardCount == p.sponsorRewardCount - k
    ensures q.sponsorRemainingAmount + q.sponsorWithdrawAmount == p.sponsorRemainingAmount + p.sponsorWithdrawAmount
    decreases k
  {
    if k == 0 then p else PaySponsorTimes(PaySponsor(p), k - 1)
  }

  /** Starting from n >= 1 installments left, n payments drain the remainder exactly into
      the withdrawn amount and mark the proposal completed. */
  lemma {:induction false} ContributorInstallmentsDrain(p: ProposalRecord)
    requires p.installmentCount >= 1
    ensures var q := PayContributorTimes(p, p.installmentCount);
      && q.installmentCount == 0
      && q.remainingAmount == 0
      && q.withdrawAmount == p.withdrawAmount + p.remainingAmount
      && q.status == Completed
    decreases p.installmentCount
  {
    if p.installmentCount > 1 {
      ContributorInstallmentsDrain(PayContributor(p));
    }
  }

  lemma {:induction false} SponsorInstallmentsDrain(p: ProposalRecord)
    requires p.sponsorRewardCount >= 1
    ensures var q := PaySponsorTimes(p, p.sponsorRewardCount);
      && q.sponsorRewardCount == 0
      && q.sponsorRemainingAmount == 0
      && q.sponsorWithdrawAmount == p.sponsorWithdrawAmount + p.sponsorRemainingAmount
      && q.status == Completed
    decreases p.sponsorRewardCount
  {
    if p.sponsorRewardCount > 1 {
      SponsorInstallmentsDrain(PaySponsor(p));
    }
  }

  /** A non-negative remainder never goes negative and the withdrawn amount never shrinks,
      however many of the scheduled installments are paid. */
  lemma {:induction false} ContributorRemainingStaysNonNegative(p: ProposalRecord, k: nat)
    requires k <= p.installmentCount && p.remainingAmount >= 0
    ensures var q := PayContributorTimes(p, k);
      0 <= q.remainingAmount <= p.remainingAmount && q.withdrawAmount >= p.withdrawAmount
    decreases k
  {
    if k > 0 {
      ContributorRemainingStaysNonNegative(PayContributor(p), k - 1);
    }
  }

  lemma {:induction false} SponsorRemainingStaysNonNegative(p: ProposalRecord, k: nat)
    requires k <= p.sponsorRewardCount && p.sponsorRemainingAmount >= 0
    ensures var q := PaySponsorTimes(p, k);
      0 <= q.sponsorRemainingAmount <= p.sponsorRemainingAmount && q.sponsorWithdrawAmount >= p.sponsorWithdrawAmount
    decreases k
  {
    if k > 0 {
      SponsorRemainingStaysNonNegative(PaySponsor(p), k - 1);
    }
  }

  /** What `disqualify_project` sends back to the CPF: the unpaid budget plus the unpaid
      sponsor reward. */
  function CpfRefund(p: ProposalRecord): (refund: int)
    ensures Accounted(p) ==> refund == p.remainingAmount + p.sponsorRemainingAmount
    ensures p.withdrawAmount <= p.totalBudget && p.sponsorWithdrawAmount <= p.sponsorReward ==> refund >= 0
  {
    (p.totalBudget - p.withdrawAmount) + (p.sponsorReward - p.sponsorWithdrawAmount)
  }

  /** The record after `update_proposal_fund`: the three deltas are added to the budget,
      the sponsor reward and the duration, and to nothing else. */
  function WithAddedFund(p: ProposalRecord, addedBudget: int, addedSponsorReward: int, addedInstallmentCount: int): (q: ProposalRecord)
    ensures q.totalBudget - p.totalBudget == addedBudget
    ensures q.sponsorReward - p.sponsorReward == addedSponsorReward
    ensures q.projectDuration - p.projectDuration == addedInstallmentCount
    ensures q.(totalBudget := p.totalBudget, sponsorReward := p.sponsorReward, projectDuration := p.projectDuration) == p
  {
    p.(totalBudget := p.totalBudget + addedBudget,
       sponsorReward := p.sponsorReward + addedSponsorReward,
       projectDuration := p.projectDuration + addedInstallmentCount)
  }

  /** A budget top-up is not added to the remaining amount nor to the installment count,
      so the scheduled installments still pay out only the budget as it was before the
      top-up; the added budget and reward reach the CPF refund instead. */
  lemma AddedBudgetNeverInstalled(p: ProposalRecord, addedBudget: int, addedSponsorReward: int, addedInstallmentCount: int)
    requires Accounted(p) && p.installmentCount >= 1
    ensures var q := WithAddedFund(p, addedBudget, addedSponsorReward, addedInstallmentCount);
      && q.installmentCount == p.installmentCount
      && PayContributorTimes(q, q.installmentCount).withdrawAmount == q.totalBudget - addedBudget
      && CpfRefund(q) == p.remainingAmount + p.sponsorRemainingAmount + addedBudget + addedSponsorReward
  {
    var q := WithAddedFund(p, addedBudget, addedSponsorReward, addedInstallmentCount);
    ContributorInstallmentsDrain(q);
  }

  /** Disqualification only changes the status, and the payments do not look at it: after
      the refund to the CPF, the contributor can still be paid every scheduled installment,
      so the proposal's remainder leaves the treasury twice, and a second disqualification
      would refund the same amount again. */
  lemma {:induction false} DisqualifiedProposalStillPays(p: ProposalRecord)
    requires Accounted(p) && p.installmentCount >= 1
    ensures var d := p.(status := Disqualified);
      var q := PayContributorTimes(d, d.installmentCount);
      && CpfRefund(d) == CpfRefund(p) == p.remainingAmount + p.sponsorRemainingAmount
      && q.withdrawAmount - p.withdrawAmount == p.remainingAmount
      && CpfRefund(p) + (q.withdrawAmount - p.withdrawAmount) == 2 * p.remainingAmount + p.sponsorRemainingAmount
      && q.status == Completed
  {
    ContributorInstallmentsDrain(p.(status := Disqualified));
  }

  // ---------------------------------------------------------------------------------
  // Projected-fund reports

  /** Which of the two reports: the contributor's or the sponsor's. */
  datatype Role = ContributorRole | SponsorRole

  /** One entry of the report's "data" list. `sponsorBondAmount` is present only in the
      sponsor report. */
  datatype ProjectedEntry = ProjectedEntry(
    ipfsHash: string,
    budget: int,
    totalInstallmentPaid: int,
    totalInstallmentCount: int,
    totalTimesInstallmentPaid: int,
    installmentAmount: int,
    sponsorBondAmount: Option<int>)

  /** The report: its entries, their number, the sum of their installments, the wallet's
      withdrawable balance, and (sponsor report only) the sum of the sponsor bonds. */
  datatype Projection = Projection(
    data: seq<ProjectedEntry>,
    projectCount: int,
    totalAmount: int,
    withdrawAmount: int,
    totalSponsorBond: Option<int>)

  function OwnerOf(p: ProposalRecord, role: Role): Address {
    match role
    case ContributorRole => p.contributorAddress
    case SponsorRole => p.sponsorAddress
  }

  /** The counter the report treats as "times paid": `installment_count` or
      `sponsor_reward_count`. */
  function PaidCountOf(p: ProposalRecord, role: Role): int {
    match role
    case ContributorRole => p.installmentCount
    case SponsorRole => p.sponsorRewardCount
  }

  function BudgetOf(p: ProposalRecord, role: Role): int {
    match role
    case ContributorRole => p.totalBudget
    case SponsorRole => p.sponsorReward
  }

  function PaidAmountOf(p: ProposalRecord, role: Role): int {
    match role
    case ContributorRole => p.withdrawAmount
    case SponsorRole => p.sponsorWithdrawAmount
  }

  /** A proposal enters the wallet's report when it is not disqualified, the wallet owns it
      in that role, and its counter is below the project duration. */
  predicate Projected(p: ProposalRecord, wallet: Address, role: Role) {
    && p.status != Disqualified
    && OwnerOf(p, role) == wallet
    && PaidCountOf(p, role) < p.projectDuration
  }

  function EntryOf(key: string, p: ProposalRecord, role: Role): ProjectedEntry
    requires p.projectDuration != 0
  {
    ProjectedEntry(key, BudgetOf(p, role), PaidAmountOf(p, role), p.projectDuration, PaidCountOf(p, role),
                   FloorDiv(BudgetOf(p, role), p.projectDuration),
                   match role
                   case ContributorRole => None
                   case SponsorRole => Some(p.totalBudget / 10))
  }

  predicate KeysRecorded(keys: seq<string>, ps: map<string, ProposalRecord>) {
    forall k :: k in keys ==> k in ps
  }

  /** The entries the report loop appends for the keys, in key order; a zero duration of a
      selected proposal raises a division by zero. */
  function ProjectedEntries(keys: seq<string>, ps: map<string, ProposalRecord>, wallet: Address, role: Role): Result<seq<ProjectedEntry>, TreasuryError>
    requires KeysRecorded(keys, ps)
    decreases |keys|
  {
    if keys == [] then Success([])
    else
      match ProjectedEntries(keys[..|keys| - 1], ps, wallet, role)
      case Failure(e) => Failure(e)
      case Success(es) =>
        var key := keys[|keys| - 1];
        var p := ps[key];
        if !Projected(p, wallet, role) then Success(es)
        else if p.projectDuration == 0 then Failure(DivisionByZero)
        else Success(es + [EntryOf(key, p, role)])
  }

  function SumInstallments(es: seq<ProjectedEntry>): int {
    if es == [] then 0 else SumInstallments(es[..|es| - 1]) + es[|es| - 1].installmentAmount
  }

  function SumBonds(es: seq<ProjectedEntry>): int {
    if es == [] then 0 else SumBonds(es[..|es| - 1]) + (match es[|es| - 1].sponsorBondAmount
                                                        case Some(b) => b
                                                        case None => 0)
  }

  function EntryHashes(es: seq<ProjectedEntry>): seq<string> {
    seq(|es|, i requires 0 <= i < |es| => es[i].ipfsHash)
  }

  /** The keys the report selects, in key order, each as often as it occurs in the keys:
      a plain filter of the key list. */
  function SelectedKeys(keys: seq<string>, ps: map<string, ProposalRecord>, wallet: Address, role: Role): (r: seq<string>)
    requires KeysRecorded(keys, ps)
    ensures |r| <= |keys|
    ensures forall k :: k in r <==> k in keys && Projected(ps[k], wallet, role)
  {
    if keys == [] then []
    else
      var init, key := keys[..|keys| - 1], keys[|keys| - 1];
      assert keys == init + [key];
      assert KeysRecorded(init, ps);
      if Projected(ps[key], wallet, role) then SelectedKeys(init, ps, wallet, role) + [key]
      else SelectedKeys(init, ps, wallet, role)
  }

  /** No element occurs twice. */
  predicate Distinct(s: seq<string>) {
    forall i, j :: 0 <= i < j < |s| ==> s[i] != s[j]
  }

  /** Filtering a list without repeats gives a list without repeats. */
  lemma {:induction false} SelectedKeysDistinct(keys: seq<string>, ps: map<string, ProposalRecord>, wallet: Address, role: Role)
    requires KeysRecorded(keys, ps) && Distinct(keys)
    ensures Distinct(SelectedKeys(keys, ps, wallet, role))
  {
    if keys != [] {
      var init, key := keys[..|keys| - 1], keys[|keys| - 1];
      assert keys == init + [key];
      assert KeysRecorded(init, ps);
      assert Distinct(init);
      SelectedKeysDistinct(init, ps, wallet, role);
      assert key !in init;
    }
  }

  /** The report's entries follow the selected keys one for one and in key order; with a
      key list without repeats (as the contract keeps it) no proposal is listed twice, so
      `project_count` counts the selected proposals and `total_amount` adds each one's
      installment once. */
  lemma {:induction false} ProjectedEntriesInKeyOrder(keys: seq<string>, ps: map<string, ProposalRecord>, wallet: Address, role: Role)
    requires KeysRecorded(keys, ps)
    ensures var r := ProjectedEntries(keys, ps, wallet, role);
      && (r.Success? ==> EntryHashes(r.value) == SelectedKeys(keys, ps, wallet, role))
      && (r.Success? && Distinct(keys) ==> Distinct(EntryHashes(r.value)))
  {
    if keys != [] {
      var init, key := keys[..|keys| - 1], keys[|keys| - 1];
      assert keys == init + [key];
      assert KeysRecorded(init, ps);
      ProjectedEntriesInKeyOrder(init, ps, wallet, role);
      var r0 := ProjectedEntries(init, ps, wallet, role);
      if r0.Success? {
        var p := ps[key];
        if Projected(p, wallet, role) && p.projectDuration != 0 {
          var es' := r0.value + [EntryOf(key, p, role)];
          assert EntryHashes(es') == EntryHashes(r0.value) + [key];
        }
      }
    }
    if Distinct(keys) {
      SelectedKeysDistinct(keys, ps, wallet, role);
    }
  }

  /** The whole report built from the entries. */
  function ProjectionOf(keys: seq<string>, ps: map<string, ProposalRecord>, fundRecord: map<Address, int>, wallet: Address, role: Role): Result<Projection, TreasuryError>
    requires KeysRecorded(keys, ps)
  {
    match ProjectedEntries(keys, ps, wallet, role)
    case Failure(e) => Failure(e)
    case Success(es) =>
      var total := SumInstallments(es);
      Success(Projection(es, |es|, total,
                         if total > 0 then Balance(fundRecord, wallet) else 0,
                         match role
                         case ContributorRole => None
                         case SponsorRole => Some(SumBonds(es))))
  }

  /** The report lists exactly the selected proposals, each entry describing its own
      proposal; it fails exactly when a selected proposal has a zero duration. */
  lemma {:induction false} ProjectedEntriesMeaning(keys: seq<string>, ps: map<string, ProposalRecord>, wallet: Address, role: Role)
    requires KeysRecorded(keys, ps)
    ensures var r := ProjectedEntries(keys, ps, wallet, role);
      && (r.Failure? <==> exists k :: k in keys && Projected(ps[k], wallet, role) && ps[k].projectDuration == 0)
      && (r.Failure? ==> r.error == DivisionByZero)
      && (r.Success? ==>
            && |r.value| <= |keys|
            && (forall k :: k in EntryHashes(r.value) <==> k in keys && Projected(ps[k], wallet, role))
            && (forall e :: e in r.value ==>
                  && e.ipfsHash in ps
                  && Projected(ps[e.ipfsHash], wallet, role)
                  && ps[e.ipfsHash].projectDuration != 0
                  && e == EntryOf(e.ipfsHash, ps[e.ipfsHash], role)))
  {
    if keys != [] {
      var init, key := keys[..|keys| - 1], keys[|keys| - 1];
      assert keys == init + [key];
      assert KeysRecorded(init, ps);
      ProjectedEntriesMeaning(init, ps, wallet, role);
      var r0 := ProjectedEntries(init, ps, wallet, role);
      if r0.Success? {
        var es := r0.value;
        var p := ps[key];
        if Projected(p, wallet, role) && p.projectDuration != 0 {
          var es' := es + [EntryOf(key, p, role)];
          assert EntryHashes(es') == EntryHashes(es) + [key];
        }
      }
    }
  }

  /** The report's count is its number of entries, its total the sum of their installments,
      and it shows the wallet's balance only when that total is positive. */
  lemma ProjectionMeaning(keys: seq<string>, ps: map<string, ProposalRecord>, fundRecord: map<Address, int>, wallet: Address, role: Role)
    requires KeysRecorded(keys, ps)
    ensures var r := ProjectionOf(keys, ps, fundRecord, wallet, role);
      && (r.Failure? <==> exists k :: k in keys && Projected(ps[k], wallet, role) && ps[k].projectDuration == 0)
      && (r.Success? ==>
            && r.value.projectCount == |r.value.data|
            && r.value.totalAmount == SumInstallments(r.value.data)
            && r.value.withdrawAmount == (if r.value.totalAmount > 0 then Balance(fundRecord, wallet) else 0)
            && (r.value.totalSponsorBond.Some? <==> role == SponsorRole)
            && (role == SponsorRole ==> r.value.totalSponsorBond == Some(SumBonds(r.value.data)))
            && (role == SponsorRole ==> forall e :: e in r.value.data ==>
                  e.ipfsHash in ps && e.sponsorBondAmount == Some(ps[e.ipfsHash].totalBudget / 10))
            && (forall k :: k in EntryHashes(r.value.data) <==> k in keys && Projected(ps[k], wallet, role))
            && EntryHashes(r.value.data) == SelectedKeys(keys, ps, wallet, role)
            && r.value.projectCount == |SelectedKeys(keys, ps, wallet, role)|)
  {
    ProjectedEntriesMeaning(keys, ps, wallet, role);
    ProjectedEntriesInKeyOrder(keys, ps, wallet, role);
  }
}
