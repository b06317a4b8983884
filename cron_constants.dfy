/** The enumerations the statistics job shares with the rest of the bot: period names,
    proposal and progress-report status codes, and webhook event types. */
module CronConstants {

  /** "Application Period", "Voting Period", "Transition Period". */
  datatype PeriodName = ApplicationPeriod | VotingPeriod | TransitionPeriod

  /** '_pending', '_active', '_paused', '_completed', '_disqualified', '_rejected'. */
  datatype ProposalStatus = Pending | Active | Paused | Completed | Disqualified | Rejected

  /** '_waiting', '_approved'. */
  datatype ProgressReportStatus = Waiting | Approved

  /** 'proposalStats', 'prStats', 'votingPeriodStats', 'applicationPeriodStats'. */
  datatype EventType = ProposalStats | ProgressReportStats | VotingPeriodStats | ApplicationPeriodStats
}
