/** `execute`, the entry point of the scheduled statistics job. It reads the current period
    from the chain. When the period has run out, it asks the chain to advance the period,
    waits, and reads the period again. A Transition answer asks the chain to keep advancing.
    An Application answer sends the last voting period's statistics and the proposal
    statistics; a Voting answer sends the last application period's statistics. Chain reads
    are the answers in `ChainReads`; chain writes, the sleep and the webhooks are
    `CronEffect`s, in the order `execute` issues them. */
module CronExecute {
  import opened Outcomes
  import opened CronConstants
  import opened CronFormat

  /** `period_check()`: the period name and `remaining_time` as `parseInt` reads it. */
  datatype PeriodStatus = PeriodStatus(periodName: PeriodName, remainingTime: int)

  /** `get_project_amounts_by_status(...)`: `_count` and `_total_amount`. */
  datatype ProjectAmounts = ProjectAmounts(count: int, totalAmount: int)

  /** The answers to the chain reads one run can make. */
  datatype ChainReads = ChainReads(
    periodBefore: PeriodStatus,          // the first period_check()
    periodAfterUpdate: PeriodStatus,     // period_check() after update_period() and the sleep
    remainingFunds: int,                 // get_remaining_funds()
    activeAmounts: ProjectAmounts,       // get_project_amounts_by_status('_active')
    pendingAmounts: ProjectAmounts,      // get_project_amounts_by_status('_pending')
    activeProposals: seq<ChainProposal>, // getProposalDetailsByStatus('_active'), and so on
    rejectedProposals: seq<ChainProposal>,
    pausedProposals: seq<ChainProposal>,
    disqualifiedProposals: seq<ChainProposal>,
    completedProposals: seq<ChainProposal>,
    waitingReportCount: int)             // get_progress_reports_by_status('_waiting').count

  /** What a webhook carries. The voting-period amounts are kept as their number of
      hundredths of an ICX (one ICX is 10^18 loop); the application-period budget is the
      raw amount in loop, as `toFixed()` prints it without dividing. */
  datatype StatsPayload =
    | VotingPeriodStatsPayload(remainingFunds: int, periodEndsOn: int, projectsCount: int, totalProjectsBudget: int)
      /** The promise of an un-awaited formatting of these proposals. */
    | PendingFormatting(proposals: seq<ChainProposal>)
    | ProposalStatsPayload(response: ProposalStatsResponse)
    | ApplicationPeriodStatsPayload(votingProposalsCount: int, votingProposalsBudget: int, periodEndsOn: int, votingPRsCount: int)

  datatype CronEffect =
    | UpdatePeriod
    | Sleep(ms: int)
    | RecursivelyUpdatePeriod
    | Webhook(eventType: EventType, payload: StatsPayload)

  /** How the promise of `execute` settles. */
  datatype RunOutcome = Resolved | Thrown(error: CronError)

  /** One hundredth of an ICX, in loop (an ICX is 10^18 loop). */
  const IcxHundredth: int := 10_000_000_000_000_000

  const DayMs: int := 24 * 60 * 60 * 1000

  /** `new BigNumber(amount).div(10 ** 18).toFixed(2)` for an amount in loop, as a number of
      hundredths of an ICX: the division is exact at 20 places, and `toFixed` rounds
      half-up to the nearest hundredth. */
  function IcxHundredths(amount: int): (h: int)
    ensures amount >= 0 ==> 0 <= h && 2 * IcxHundredth * h <= 2 * amount + IcxHundredth < 2 * IcxHundredth * (h + 1)
  {
    RoundHalfUpDiv(amount, IcxHundredth)
  }

  /** The end date sent out: 15 days after the run, in milliseconds. */
  function PeriodEndingDate(nowMs: int): int {
    nowMs + 15 * DayMs
  }

  /** The active proposals kept for the statistics: those with no progress yet, each copy
      of them, in their order (`NotStartedDistributes`). */
  function NotStarted(ps: seq<ChainProposal>): (r: seq<ChainProposal>)
    ensures |r| <= |ps|
    ensures forall p :: p in r <==> p in ps && p.percentageCompleted == 0
    ensures forall p :: multiset(r)[p] == if p.percentageCompleted == 0 then multiset(ps)[p] else 0
  {
    if ps == [] then []
    else
      var rest := NotStarted(ps[..|ps| - 1]);
      assert ps == ps[..|ps| - 1] + [ps[|ps| - 1]];
      if ps[|ps| - 1].percentageCompleted == 0 then rest + [ps[|ps| - 1]] else rest
  }

  /** The filter works piece by piece: filtering a concatenation concatenates the filtered
      pieces, so the kept proposals stay in their input order. */
  lemma {:induction false} NotStartedDistributes(a: seq<ChainProposal>, b: seq<ChainProposal>)
    ensures NotStarted(a + b) == NotStarted(a) + NotStarted(b)
    decreases |b|
  {
    if b == [] {
      assert a + b == a;
    } else {
      var init, last := b[..|b| - 1], b[|b| - 1];
      assert a + b == (a + init) + [last];
      assert (a + b)[..|a + b| - 1] == a + init;
      NotStartedDistributes(a, init);
    }
  }

  /** The proposals handed to the formatter, category after category. */
  function ProposalsForStats(chain: ChainReads): seq<ChainProposal> {
    NotStarted(chain.activeProposals) + chain.rejectedProposals + chain.pausedProposals
      + chain.disqualifiedProposals + chain.completedProposals
  }

  function VotingStatsOf(chain: ChainReads, nowMs: int): StatsPayload {
    VotingPeriodStatsPayload(IcxHundredths(chain.remainingFunds), PeriodEndingDate(nowMs),
                             chain.activeAmounts.count, IcxHundredths(chain.activeAmounts.totalAmount))
  }

  /** The effects every run whose period has run out starts with. */
  const Advance := [UpdatePeriod, Sleep(2000)]

  /** `execute` as written. Only a zero `remaining_time` leads to any chain write or webhook.
      The period is not read again after `recursivelyUpdatePeriod`, so a Transition answer
      sends no statistics. The proposal statistics are sent with the promise of a formatting
      that is never awaited. The Voting branch reads `activeProjectAmt`, a constant declared
      only inside the Application branch, and throws a ReferenceError before its webhook. */
  method Execute(chain: ChainReads, nowMs: int) returns (effects: seq<CronEffect>, outcome: RunOutcome)
    ensures chain.periodBefore.remainingTime != 0 ==> effects == [] && outcome == Resolved
    ensures UpdatePeriod in effects <==> chain.periodBefore.remainingTime == 0
    ensures RecursivelyUpdatePeriod in effects <==>
              chain.periodBefore.remainingTime == 0 && chain.periodAfterUpdate.periodName == TransitionPeriod
    ensures chain.periodBefore.remainingTime == 0 ==>
      match chain.periodAfterUpdate.periodName
      case TransitionPeriod => effects == Advance + [RecursivelyUpdatePeriod] && outcome == Resolved
      case ApplicationPeriod =>
        && effects == Advance + [Webhook(VotingPeriodStats, VotingStatsOf(chain, nowMs)),
                                 Webhook(ProposalStats, PendingFormatting(ProposalsForStats(chain)))]
        && outcome == Resolved
      case VotingPeriod => effects == Advance && outcome == Thrown(ReferenceError("activeProjectAmt"))
  {
    effects, outcome := [], Resolved;
    var periodTriggered := false;
    var presentPeriod := chain.periodBefore;
    if presentPeriod.remainingTime == 0 {
      effects := effects + [UpdatePeriod];
      periodTriggered := true;
      effects := effects + [Sleep(2000)];
      presentPeriod := chain.periodAfterUpdate;
      if presentPeriod.periodName == TransitionPeriod {
        effects := effects + [RecursivelyUpdatePeriod];
      }
      var periodEndsOn := PeriodEndingDate(nowMs);
      if presentPeriod.periodName == ApplicationPeriod {
        var activeProjectAmt := chain.activeAmounts;
        var votingPeriodStats := VotingPeriodStatsPayload(IcxHundredths(chain.remainingFunds), periodEndsOn,
                                                          activeProjectAmt.count, IcxHundredths(activeProjectAmt.totalAmount));
        effects := effects + [Webhook(VotingPeriodStats, votingPeriodStats)];
        var approvedProposals := NotStarted(chain.activeProposals);
        var allProposals := approvedProposals + chain.rejectedProposals + chain.pausedProposals
                              + chain.disqualifiedProposals + chain.completedProposals;
        // the formatter's promise is passed on without being awaited
        effects := effects + [Webhook(ProposalStats, PendingFormatting(allProposals))];
      }
      if presentPeriod.periodName == VotingPeriod {
        // pendingProjectAmt and waitingProgressReportCount are read, then the payload
        // refers to activeProjectAmt, which is not in scope here
        return effects, Thrown(ReferenceError("activeProjectAmt"));
      }
    }
  }

  /** `execute` as evidently intended: the formatting is awaited (with the intended
      formatter), so a failed IPFS fetch rejects the run before the proposal statistics
      are sent; and the application-period statistics report the pending proposals'
      budget. */
  method ExecuteIntended(chain: ChainReads, nowMs: int, fetch: string -> Option<IpfsDocument>)
    returns (effects: seq<CronEffect>, outcome: RunOutcome)
    ensures chain.periodBefore.remainingTime != 0 ==> effects == [] && outcome == Resolved
    ensures UpdatePeriod in effects <==> chain.periodBefore.remainingTime == 0
    ensures chain.periodBefore.remainingTime == 0 && chain.periodAfterUpdate.periodName == TransitionPeriod ==>
              effects == Advance + [RecursivelyUpdatePeriod] && outcome == Resolved
    ensures chain.periodBefore.remainingTime == 0 && chain.periodAfterUpdate.periodName == ApplicationPeriod
            && AllFetched(ProposalsForStats(chain), fetch) ==>
              && effects == Advance + [Webhook(VotingPeriodStats, VotingStatsOf(chain, nowMs)),
                                       Webhook(ProposalStats, ProposalStatsPayload(FormatAll(ProposalsForStats(chain), fetch)))]
              && outcome == Resolved
    ensures chain.periodBefore.remainingTime == 0 && chain.periodAfterUpdate.periodName == ApplicationPeriod
            && !AllFetched(ProposalsForStats(chain), fetch) ==>
              && effects == Advance + [Webhook(VotingPeriodStats, VotingStatsOf(chain, nowMs))]
              && outcome == Thrown(InvalidIpfsHash)
    ensures chain.periodBefore.remainingTime == 0 && chain.periodAfterUpdate.periodName == VotingPeriod ==>
              && effects == Advance + [Webhook(ApplicationPeriodStats,
                                               ApplicationPeriodStatsPayload(chain.pendingAmounts.count, chain.pendingAmounts.totalAmount,
                                                                             PeriodEndingDate(nowMs), chain.waitingReportCount))]
              && outcome == Resolved
  {
    effects, outcome := [], Resolved;
    var presentPeriod := chain.periodBefore;
    if presentPeriod.remainingTime == 0 {
      effects := effects + [UpdatePeriod, Sleep(2000)];
      assert effects == Advance;
      presentPeriod := chain.periodAfterUpdate;
      if presentPeriod.periodName == TransitionPeriod {
        effects := effects + [RecursivelyUpdatePeriod];
      }
      var periodEndsOn := PeriodEndingDate(nowMs);
      if presentPeriod.periodName == ApplicationPeriod {
        var activeProjectAmt := chain.activeAmounts;
        var votingPeriodStats := VotingPeriodStatsPayload(IcxHundredths(chain.remainingFunds), periodEndsOn,
                                                          activeProjectAmt.count, IcxHundredths(activeProjectAmt.totalAmount));
        effects := effects + [Webhook(VotingPeriodStats, votingPeriodStats)];
        var allProposals := ProposalsForStats(chain);
        var formatted := FormatAllProposals(allProposals, fetch);
        if formatted.Threw? {
          assert effects[0] == UpdatePeriod;
          return effects, Thrown(formatted.error);
        }
        effects := effects + [Webhook(ProposalStats, ProposalStatsPayload(formatted.response))];
        assert effects[0] == UpdatePeriod;
      }
      if presentPeriod.periodName == VotingPeriod {
        var pendingProjectAmt := chain.pendingAmounts;
        var applicationPeriodStats := ApplicationPeriodStatsPayload(pendingProjectAmt.count, pendingProjectAmt.totalAmount,
                                                                    periodEndsOn, chain.waitingReportCount);
        effects := effects + [Webhook(ApplicationPeriodStats, applicationPeriodStats)];
      }
    }
  }
}
