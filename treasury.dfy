/** The CPS Treasury contract: it holds the funds of every approved proposal, pays the
    contributor and the sponsor their monthly installments when the CPS contract says so,
    returns what is left to the CPF when a project is disqualified, and lets any address
    withdraw what has been credited to it. Every public call either succeeds or reverts;
    a revert is a `Failure` result and leaves the whole state as it was. */
module Treasury {
  import opened Outcomes
  import opened TreasuryLedger

  class CpsTreasury {
    /** The deployer of the contract. */
    const owner: Address
    /** `_cps_score` and `_cpf_treasury_score`; `None` until the owner sets them. */
    var cpsScore: Option<Address>
    var cpfTreasuryScore: Option<Address>
    /** `_proposals_keys`: the IPFS hashes of the funded proposals, in deposit order. */
    var proposalKeys: seq<string>
    /** The stored proposal records, by IPFS hash. */
    var proposals: map<string, ProposalRecord>
    /** `_fund_record`: what each address may claim. */
    var fundRecord: map<Address, int>

    /** Every key has a record and every record a key, and no key is listed twice. */
    ghost predicate Valid()
      reads this
    {
      && (forall k :: k in proposalKeys <==> k in proposals)
      && (forall i, j :: 0 <= i < j < |proposalKeys| ==> proposalKeys[i] != proposalKeys[j])
    }

    constructor (owner: Address)
      ensures Valid()
      ensures this.owner == owner && cpsScore == None && cpfTreasuryScore == None
      ensures proposalKeys == [] && proposals == map[] && fundRecord == map[]
    {
      this.owner := owner;
      cpsScore, cpfTreasuryScore := None, None;
      proposalKeys, proposals, fundRecord := [], map[], map[];
    }

    // -------------------------------------------------------------------------------
    // Caller validators

    method ValidateOwner(caller: Address) returns (r: Result<(), TreasuryError>)
      ensures r.Success? <==> caller == owner
      ensures r.Failure? ==> r.error == OnlyOwner
    {
      if caller != owner {
        return Failure(OnlyOwner);
      }
      return Success(());
    }

    method ValidateOwnerScore(caller: Address, score: Address) returns (r: Result<(), TreasuryError>)
      ensures r.Success? <==> caller == owner && IsContract(score)
      ensures r.Failure? ==> r.error == if caller != owner then OnlyOwner else NotScore(score)
    {
      r := ValidateOwner(caller);
      if r.Failure? {
        return;
      }
      if !IsContract(score) {
        return Failure(NotScore(score));
      }
    }

    /** An unset score address matches no caller. */
    method ValidateCpsScore(caller: Address) returns (r: Result<(), TreasuryError>)
      ensures r.Success? <==> cpsScore == Some(caller)
      ensures r.Failure? ==> r.error == OnlyCps
    {
      if cpsScore != Some(caller) {
        return Failure(OnlyCps);
      }
      return Success(());
    }

    method ValidateCpfTreasuryScore(caller: Address) returns (r: Result<(), TreasuryError>)
      ensures r.Success? <==> cpfTreasuryScore == Some(caller)
      ensures r.Failure? ==> r.error == OnlyCpfTreasury
    {
      if cpfTreasuryScore != Some(caller) {
        return Failure(OnlyCpfTreasury);
      }
      return Success(());
    }

    method SetCpsScore(caller: Address, score: Address) returns (r: Result<(), TreasuryError>)
      modifies this`cpsScore
      ensures r.Success? <==> caller == owner && IsContract(score)
      ensures cpsScore == if r.Success? then Some(score) else old(cpsScore)
    {
      r := ValidateOwnerScore(caller, score);
      if r.Success? {
        cpsScore := Some(score);
      }
    }

    method SetCpfTreasuryScore(caller: Address, score: Address) returns (r: Result<(), TreasuryError>)
      modifies this`cpfTreasuryScore
      ensures r.Success? <==> caller == owner && IsContract(score)
      ensures cpfTreasuryScore == if r.Success? then Some(score) else old(cpfTreasuryScore)
    {
      r := ValidateOwnerScore(caller, score);
      if r.Success? {
        cpfTreasuryScore := Some(score);
      }
    }

    // -------------------------------------------------------------------------------
    // Deposits and top-ups from the CPF treasury

    /** `_add_record`: a new key is appended with its record; a known key reverts. */
    method AddRecord(key: string, record: ProposalRecord) returns (r: Result<(), TreasuryError>)
      requires Valid()
      modifies this`proposalKeys, this`proposals
      ensures Valid()
      ensures r.Success? <==> key !in old(proposalKeys)
      ensures r.Failure? ==> r.error == AlreadyHaveProject
      ensures proposalKeys == if r.Success? then old(proposalKeys) + [key] else old(proposalKeys)
      ensures proposals == if r.Success? then old(proposals)[key := record] else old(proposals)
    {
      if key !in proposalKeys {
        proposalKeys := proposalKeys + [key];
        proposals := proposals[key := record];
        return Success(());
      }
      return Failure(AlreadyHaveProject);
    }

    /** `deposit_proposal_fund`: only the CPF treasury may register a funded proposal,
        which is stored with status "active". `init` stands for the counters the storage
        layer derives for a new record. */
    method DepositProposalFund(caller: Address, proposal: ProposalAttributes, init: InitialCounters)
      returns (r: Result<(), TreasuryError>)
      requires Valid()
      modifies this`proposalKeys, this`proposals
      ensures Valid()
      ensures r.Success? <==> cpfTreasuryScore == Some(caller) && proposal.ipfsHash !in old(proposalKeys)
      ensures r.Failure? ==> r.error == if cpfTreasuryScore != Some(caller) then OnlyCpfTreasury else AlreadyHaveProject
      ensures r.Success? ==> && proposalKeys == old(proposalKeys) + [proposal.ipfsHash]
                             && proposals == old(proposals)[proposal.ipfsHash := NewRecord(proposal, init, Active)]
                             && proposals[proposal.ipfsHash].status == Active
      ensures r.Failure? ==> proposalKeys == old(proposalKeys) && proposals == old(proposals)
    {
      r := ValidateCpfTreasuryScore(caller);
      if r.Failure? {
        return;
      }
      r := AddRecord(proposal.ipfsHash, NewRecord(proposal, init, Active));
    }

    /** `update_proposal_fund`: adds the three deltas to a known proposal; an unknown key
        reverts. */
    method UpdateProposalFund(caller: Address, key: string, addedBudget: int, addedSponsorReward: int, addedInstallmentCount: int)
      returns (r: Result<(), TreasuryError>)
      requires Valid()
      modifies this`proposals
      ensures Valid()
      ensures r.Success? <==> cpfTreasuryScore == Some(caller) && key in proposalKeys
      ensures r.Failure? ==> r.error == if cpfTreasuryScore != Some(caller) then OnlyCpfTreasury else IpfsHashMissing
      ensures proposals == if r.Success?
                           then old(proposals)[key := WithAddedFund(old(proposals)[key], addedBudget, addedSponsorReward, addedInstallmentCount)]
                           else old(proposals)
    {
      r := ValidateCpfTreasuryScore(caller);
      if r.Failure? {
        return;
      }
      if key in proposalKeys {
        var proposal := proposals[key];
        var totalBudget, sponsorReward, totalDuration := proposal.totalBudget, proposal.sponsorReward, proposal.projectDuration;
        proposal := proposal.(totalBudget := totalBudget + addedBudget);
        proposal := proposal.(sponsorReward := sponsorReward + addedSponsorReward);
        proposal := proposal.(projectDuration := totalDuration + addedInstallmentCount);
        proposals := proposals[key := proposal];
        return Success(());
      }
      return Failure(IpfsHashMissing);
    }

    // -------------------------------------------------------------------------------
    // Payments ordered by the CPS contract

    /** `send_installment_to_contributor`: credits one installment to the contributor. An
        unknown key is a silent no-op; a zero installment count divides by zero and reverts. */
    method SendInstallmentToContributor(caller: Address, key: string) returns (r: Result<(), TreasuryError>)
      requires Valid()
      modifies this`proposals, this`fundRecord
      ensures Valid()
      ensures r.Failure? <==> cpsScore != Some(caller) || (key in proposalKeys && old(proposals)[key].installmentCount == 0)
      ensures r.Failure? ==> r.error == if cpsScore != Some(caller) then OnlyCps else NetworkProblem
      ensures r.Failure? || key !in proposalKeys ==> proposals == old(proposals) && fundRecord == old(fundRecord)
      ensures r.Success? && key in proposalKeys ==>
        var p := old(proposals)[key];
        && proposals == old(proposals)[key := PayContributor(p)]
        && fundRecord == old(fundRecord)[p.contributorAddress :=
             Balance(old(fundRecord), p.contributorAddress) + ContributorInstallment(p)]
    {
      r := ValidateCpsScore(caller);
      if r.Failure? {
        return;
      }
      if key in proposalKeys {
        var proposal := proposals[key];
        var installmentCount := proposal.installmentCount;
        var withdrawAmount := proposal.withdrawAmount;
        var remainingAmount := proposal.remainingAmount;
        var contributorAddress := proposal.contributorAddress;
        if installmentCount == 0 {
          // remaining_amount // 0 raises, and the except clause reverts
          return Failure(NetworkProblem);
        }
        var installmentAmount := if installmentCount == 1 then remainingAmount
                                 else FloorDiv(remainingAmount, installmentCount);
        proposal := proposal.(installmentCount := installmentCount - 1);
        proposal := proposal.(remainingAmount := remainingAmount - installmentAmount);
        proposal := proposal.(withdrawAmount := withdrawAmount + installmentAmount);
        fundRecord := fundRecord[contributorAddress := Balance(fundRecord, contributorAddress) + installmentAmount];
        if proposal.installmentCount == 0 {
          proposal := proposal.(status := Completed);
        }
        proposals := proposals[key := proposal];
      }
    }

    /** `send_reward_to_sponsor`: the same schedule over the sponsor reward fields. */
    method SendRewardToSponsor(caller: Address, key: string) returns (r: Result<(), TreasuryError>)
      requires Valid()
      modifies this`proposals, this`fundRecord
      ensures Valid()
      ensures r.Failure? <==> cpsScore != Some(caller) || (key in proposalKeys && old(proposals)[key].sponsorRewardCount == 0)
      ensures r.Failure? ==> r.error == if cpsScore != Some(caller) then OnlyCps else NetworkProblem
      ensures r.Failure? || key !in proposalKeys ==> proposals == old(proposals) && fundRecord == old(fundRecord)
      ensures r.Success? && key in proposalKeys ==>
        var p := old(proposals)[key];
        && proposals == old(proposals)[key := PaySponsor(p)]
        && fundRecord == old(fundRecord)[p.sponsorAddress :=
             Balance(old(fundRecord), p.sponsorAddress) + SponsorInstallment(p)]
    {
      r := ValidateCpsScore(caller);
      if r.Failure? {
        return;
      }
      if key in proposalKeys {
        var proposal := proposals[key];
        var sponsorRewardCount := proposal.sponsorRewardCount;
        var sponsorWithdrawAmount := proposal.sponsorWithdrawAmount;
        var sponsorRemainingAmount := proposal.sponsorRemainingAmount;
        var sponsorAddress := proposal.sponsorAddress;
        if sponsorRewardCount == 0 {
          // sponsor_remaining_amount // 0 raises, and the except clause reverts
          return Failure(NetworkProblem);
        }
        var installmentAmount := if sponsorRewardCount == 1 then sponsorRemainingAmount
                                 else FloorDiv(sponsorRemainingAmount, sponsorRewardCount);
        proposal := proposal.(sponsorRewardCount := sponsorRewardCount - 1);
        proposal := proposal.(sponsorWithdrawAmount := sponsorWithdrawAmount + installmentAmount);
        proposal := proposal.(sponsorRemainingAmount := sponsorRemainingAmount - installmentAmount);
        fundRecord := fundRecord[sponsorAddress := Balance(fundRecord, sponsorAddress) + installmentAmount];
        if proposal.sponsorRewardCount == 0 {
          proposal := proposal.(status := Completed);
        }
        proposals := proposals[key := proposal];
      }
    }

    /** `disqualify_project`: marks the proposal disqualified and returns the amount sent
        back to the CPF; an unknown key reverts. */
    method DisqualifyProject(caller: Address, key: string) returns (r: Result<int, TreasuryError>)
      requires Valid()
      modifies this`proposals
      ensures Valid()
      ensures r.Success? <==> cpsScore == Some(caller) && key in proposalKeys
      ensures r.Failure? ==> r.error == if cpsScore != Some(caller) then OnlyCps else KeyNotFound
      ensures r.Success? ==> && r.value == CpfRefund(old(proposals)[key])
                             && proposals == old(proposals)[key := old(proposals)[key].(status := Disqualified)]
      ensures r.Failure? ==> proposals == old(proposals)
    {
      var valid := ValidateCpsScore(caller);
      if valid.Failure? {
        return Failure(valid.error);
      }
      if key in proposalKeys {
        var proposal := proposals[key];
        proposals := proposals[key := proposal.(status := Disqualified)];
        var remainingBudget := proposal.totalBudget - proposal.withdrawAmount;
        var remainingReward := proposal.sponsorReward - proposal.sponsorWithdrawAmount;
        return Success(remainingBudget + remainingReward);
      }
      return Failure(KeyNotFound);
    }

    /** `claim_reward`: a positive balance is zeroed and returned as the amount transferred
        to the caller; otherwise the call reverts. */
    method ClaimReward(caller: Address) returns (r: Result<int, TreasuryError>)
      modifies this`fundRecord
      ensures r.Success? <==> Balance(old(fundRecord), caller) > 0
      ensures r.Success? ==> r.value == Balance(old(fundRecord), caller) && fundRecord == old(fundRecord)[caller := 0]
      ensures r.Failure? ==> r.error == ClaimFails(Balance(old(fundRecord), caller)) && fundRecord == old(fundRecord)
    {
      var availableAmount := Balance(fundRecord, caller);
      if availableAmount > 0 {
        fundRecord := fundRecord[caller := 0];
        return Success(availableAmount);
      }
      return Failure(ClaimFails(availableAmount));
    }

    // -------------------------------------------------------------------------------
    // Read-only reports

    /** `get_contributor_projected_fund`. */
    method GetContributorProjectedFund(wallet: Address) returns (r: Result<Projection, TreasuryError>)
      requires Valid()
      ensures r == ProjectionOf(proposalKeys, proposals, fundRecord, wallet, ContributorRole)
    {
      var totalAmountToBePaid := 0;
      var installmentAmount: seq<ProjectedEntry> := [];
      var i := 0;
      while i < |proposalKeys|
        invariant 0 <= i <= |proposalKeys|
        invariant KeysRecorded(proposalKeys[..i], proposals)
        invariant ProjectedEntries(proposalKeys[..i], proposals, wallet, ContributorRole) == Success(installmentAmount)
        invariant totalAmountToBePaid == SumInstallments(installmentAmount)
      {
        var ipfsKey := proposalKeys[i];
        assert proposalKeys[..i + 1] == proposalKeys[..i] + [ipfsKey];
        var proposal := proposals[ipfsKey];
        if proposal.status != Disqualified {
          if proposal.contributorAddress == wallet {
            var totalInstallment := proposal.projectDuration;
            var totalPaidCount := proposal.installmentCount;
            if totalPaidCount < totalInstallment {
              var totalBudget := proposal.totalBudget;
              var totalPaidAmount := proposal.withdrawAmount;
              if totalInstallment == 0 {
                ProjectedEntriesMeaning(proposalKeys, proposals, wallet, ContributorRole);
                return Failure(DivisionByZero);
              }
              var entry := ProjectedEntry(ipfsKey, totalBudget, totalPaidAmount, totalInstallment, totalPaidCount,
                                          FloorDiv(totalBudget, totalInstallment), None);
              installmentAmount := installmentAmount + [entry];
              totalAmountToBePaid := totalAmountToBePaid + FloorDiv(totalBudget, totalInstallment);
            }
          }
        }
        i := i + 1;
      }
      assert proposalKeys[..i] == proposalKeys;
      var withdrawAmount := if totalAmountToBePaid > 0 then Balance(fundRecord, wallet) else 0;
      r := Success(Projection(installmentAmount, |installmentAmount|, totalAmountToBePaid, withdrawAmount, None));
    }

    /** `get_sponsor_projected_fund`: as above over the sponsor fields, with the sponsor
        bond (a tenth of the total budget) per entry and in total. */
    method GetSponsorProjectedFund(wallet: Address) returns (r: Result<Projection, TreasuryError>)
      requires Valid()
      ensures r == ProjectionOf(proposalKeys, proposals, fundRecord, wallet, SponsorRole)
    {
      var totalAmountToBePaid := 0;
      var totalSponsorBond := 0;
      var installmentAmount: seq<ProjectedEntry> := [];
      var i := 0;
      while i < |proposalKeys|
        invariant 0 <= i <= |proposalKeys|
        invariant KeysRecorded(proposalKeys[..i], proposals)
        invariant ProjectedEntries(proposalKeys[..i], proposals, wallet, SponsorRole) == Success(installmentAmount)
        invariant totalAmountToBePaid == SumInstallments(installmentAmount)
        invariant totalSponsorBond == SumBonds(installmentAmount)
      {
        var ipfsKey := proposalKeys[i];
        assert proposalKeys[..i + 1] == proposalKeys[..i] + [ipfsKey];
        var proposal := proposals[ipfsKey];
        if proposal.status != Disqualified {
          if proposal.sponsorAddress == wallet {
            var totalInstallment := proposal.projectDuration;
            var totalPaidCount := proposal.sponsorRewardCount;
            if totalPaidCount < totalInstallment {
              var totalBudget := proposal.sponsorReward;
              var totalPaidAmount := proposal.sponsorWithdrawAmount;
              var depositedSponsorBond := proposal.totalBudget / 10;
              if totalInstallment == 0 {
                ProjectedEntriesMeaning(proposalKeys, proposals, wallet, SponsorRole);
                return Failure(DivisionByZero);
              }
              var entry := ProjectedEntry(ipfsKey, totalBudget, totalPaidAmount, totalInstallment, totalPaidCount,
                                          FloorDiv(totalBudget, totalInstallment), Some(depositedSponsorBond));
              installmentAmount := installmentAmount + [entry];
              totalAmountToBePaid := totalAmountToBePaid + FloorDiv(totalBudget, totalInstallment);
              totalSponsorBond := totalSponsorBond + depositedSponsorBond;
            }
          }
        }
        i := i + 1;
      }
      assert proposalKeys[..i] == proposalKeys;
      var withdrawAmount := if totalAmountToBePaid > 0 then Balance(fundRecord, wallet) else 0;
      r := Success(Projection(installmentAmount, |installmentAmount|, totalAmountToBePaid, withdrawAmount,
                              Some(totalSponsorBond)));
    }
  }
}
