/** `formatProposalDetailsResponse`: it sorts the proposals of the last voting period into
    category lists for the PROPOSAL_STATS webhook, enriching each with the team and sponsor
    names from its IPFS document and, for approved and rejected proposals, with vote counts
    and vote shares. The function is modelled as written (its `switch` falls through and
    its `return` sits inside the loop); `FormatAllProposals` and `PlaceOneBucket` are the
    evidently intended versions. */
module CronFormat {
  import opened Outcomes
  import opened CronConstants

  /** A proposal as `getProposalDetailsByStatus` returns it; amounts and vote counts are
      taken as the integers their hex strings denote. */
  datatype ChainProposal = ChainProposal(
    ipfsHash: string,
    projectTitle: string,
    totalBudget: int,
    sponsorAddress: string,
    sponsorVoteReason: string,
    status: ProposalStatus,
    percentageCompleted: int,
    approveVoters: int,
    rejectVoters: int,
    totalVoters: int,
    approvedVotes: int,
    rejectedVotes: int,
    totalVotes: int)

  /** The two fields the job reads from a proposal's IPFS document. */
  datatype IpfsDocument = IpfsDocument(teamName: string, sponserPrepName: string)

  /** The fields every category entry carries (`proposalRes`). */
  datatype ProposalSummary = ProposalSummary(
    proposalName: string,
    totalBudget: int,
    teamName: string,
    sponsorAddress: string,
    sponsorName: string,
    sponsorVoteReason: string)

  /** A vote-share field: the string '0' when the total is not positive, otherwise a
      decimal with exactly two places, kept here as its number of hundredths. */
  datatype Share = ZeroLiteral | Fixed2(hundredths: int)

  datatype ApprovedProposal = ApprovedProposal(
    summary: ProposalSummary,
    approvingVoters: int,
    approvingVotersPercentage: Share,
    approvedVotes: int,
    approvedVotesPercentage: Share)

  datatype RejectedProposal = RejectedProposal(
    summary: ProposalSummary,
    rejectingVoters: int,
    rejectingVotersPercentage: Share,
    rejectedVotes: int,
    rejectedVotesPercentage: Share,
    abstainingVoters: int,
    abstainedVotes: int)

  datatype ProposalStatsResponse = ProposalStatsResponse(
    approvedProposals: seq<ApprovedProposal>,
    rejectedProposals: seq<RejectedProposal>,
    pausedProposals: seq<ProposalSummary>,
    disqualifiedProposals: seq<ProposalSummary>,
    completedProposals: seq<ProposalSummary>)

  const EmptyResponse := ProposalStatsResponse([], [], [], [], [])

  /** What the statistics job throws. */
  datatype CronError =
    | IpfsUrl(statusCode: int, name: string, message: string)
    | ReferenceError(identifier: string)

  const InvalidIpfsHash := IpfsUrl(400, "IPFS url", "Invalid IPFS hash provided")

  /** How the async formatter settles: with `undefined`, with a response, or by throwing. */
  datatype FormatOutcome = Undefined | Returned(response: ProposalStatsResponse) | Threw(error: CronError)

  // ---------------------------------------------------------------------------------
  // BigNumber arithmetic

  /** 10^20: `dividedBy` keeps BigNumber's default of 20 decimal places. */
  const Scale20: int := 100_000_000_000_000_000_000
  /** 10^18: from 20 decimal places down to 2. */
  const Scale18: int := 1_000_000_000_000_000_000

  /** ROUND_HALF_UP (BigNumber's default rounding mode) of a / b to an integer: to the
      nearest integer, halves away from zero. */
  function RoundHalfUpDiv(a: int, b: int): (q: int)
    requires b > 0
    ensures a >= 0 ==> 2 * b * q <= 2 * a + b < 2 * b * q + 2 * b
    ensures a >= 0 ==> q >= 0
  {
    if a >= 0 then (2 * a + b) / (2 * b) else -((2 * (-a) + b) / (2 * b))
  }

  /** ROUND_DOWN (mode 1) of a / b to an integer: toward zero. */
  function TruncDiv(a: int, b: int): (q: int)
    requires b > 0
    ensures a >= 0 ==> b * q <= a < b * q + b
    ensures a < 0 ==> b * q - b < a <= b * q
  {
    if a >= 0 then a / b else -((-a) / b)
  }

  /** `new BigNumber(count).dividedBy(total).toFixed(2, 1)` when total > 0, else '0':
      the quotient is first rounded half-up to 20 places, then cut down to 2. */
  function ShareOf(count: int, total: int): (s: Share)
    ensures s.ZeroLiteral? <==> total <= 0
  {
    if total > 0 then Fixed2(TruncDiv(RoundHalfUpDiv(count * Scale20, total), Scale18)) else ZeroLiteral
  }

  lemma DivBounds(a: int, b: int)
    requires b > 0
    ensures b * (a / b) <= a < b * (a / b) + b
  {
  }

  lemma CancelLess(d: int, x: int, y: int)
    requires d > 0 && d * x < d * y
    ensures x < y
  {
  }

  /** For 0 <= count <= total the share lies between 0.00 and 1.00. */
  lemma {:induction false} ShareWithinUnit(count: int, total: int)
    requires 0 <= count <= total && total > 0
    ensures 0 <= ShareOf(count, total).hundredths <= 100
  {
    var d, y := 2 * total, 2 * (count * Scale20) + total;
    var q := RoundHalfUpDiv(count * Scale20, total);
    assert q == y / d;
    DivBounds(y, d);
    assert count * Scale20 <= total * Scale20;
    assert d * q <= y < d * (Scale20 + 1);
    CancelLess(d, q, Scale20 + 1);
  }

  lemma MulLeft(k: int, a: int, b: int)
    requires k >= 0 && a <= b
    ensures k * a <= k * b
  {
  }

  lemma DivUnique(q: int, m: int, f: int)
    requires m > 0 && f * m <= q < f * m + m
    ensures q / m == f
  {
    var g := q / m;
    DivBounds(q, m);
    if g < f {
      MulLeft(m, g + 1, f);
    } else if g > f {
      MulLeft(m, f + 1, g);
    }
  }

  /** The carry argument with the scale m left symbolic: rounding (100 * c * m) / t
      half-up and then dropping m never moves past the truncated ratio when t < 2 * m. */
  lemma {:induction false} RoundThenTruncate(c: int, t: int, m: int)
    requires 0 <= c && m > 0 && 0 < t < 2 * m
    ensures (2 * (100 * c * m) + t) / (2 * t) / m == 100 * c / t
  {
    var f := 100 * c / t;
    DivBounds(100 * c, t);
    var y, d := 2 * (100 * c * m) + t, 2 * t;
    var q := y / d;
    DivBounds(y, d);
    // f * m <= q
    MulLeft(2 * m, t * f, 100 * c);
    assert d * (f * m) == 2 * m * (t * f);
    assert 2 * m * (100 * c) == 2 * (100 * c * m);
    CancelLess(d, f * m, q + 1);
    // q < (f + 1) * m
    MulLeft(2 * m, 100 * c, t * f + t - 1);
    assert 2 * m * (t * f + t - 1) == 2 * m * (t * f) + 2 * m * t - 2 * m;
    assert d * (f * m + m) == 2 * m * (t * f) + 2 * m * t;
    CancelLess(d, q, f * m + m);
    DivUnique(q, m, f);
  }

  /** Below two units of 10^18 in the total, the intermediate rounding to 20 places never
      carries into the second decimal: the share is the ratio truncated to hundredths. */
  lemma ShareIsTruncatedRatio(count: int, total: int)
    requires 0 <= count && 0 < total < 2 * Scale18
    ensures ShareOf(count, total) == Fixed2(100 * count / total)
  {
    assert count * Scale20 == 100 * count * Scale18;
    RoundThenTruncate(count, total, Scale18);
  }

  /** A quotient between f * m and (f + 1) * m, both included, divides by m to f or f + 1. */
  lemma DivBetween(q: int, m: int, f: int)
    requires m > 0 && f * m <= q <= f * m + m
    ensures f <= q / m <= f + 1
  {
    var g := q / m;
    DivBounds(q, m);
    CancelLess(m, f, g + 1);
    CancelLess(m, g, f + 2);
  }

  /** Rounding (100 * c * m) / t half-up never falls below the truncated ratio times m. */
  lemma RoundedAtLeast(c: int, t: int, m: int)
    requires 0 <= c && m > 0 && 0 < t
    ensures (100 * c / t) * m <= (2 * (100 * c * m) + t) / (2 * t)
  {
    var f := 100 * c / t;
    DivBounds(100 * c, t);
    var y, d := 2 * (100 * c * m) + t, 2 * t;
    DivBounds(y, d);
    MulLeft(2 * m, t * f, 100 * c);
    assert d * (f * m) == 2 * m * (t * f);
    assert 2 * m * (100 * c) == 2 * (100 * c * m);
    CancelLess(d, f * m, y / d + 1);
  }

  /** ... and never rises above the next multiple of m. */
  lemma RoundedAtMost(c: int, t: int, m: int)
    requires 0 <= c && m > 0 && 0 < t
    ensures (2 * (100 * c * m) + t) / (2 * t) <= (100 * c / t) * m + m
  {
    var f := 100 * c / t;
    DivBounds(100 * c, t);
    var y, d := 2 * (100 * c * m) + t, 2 * t;
    DivBounds(y, d);
    MulLeft(2 * m, 100 * c, t * f + t - 1);
    assert 2 * m * (100 * c) == 2 * (100 * c * m);
    assert 2 * m * (t * f + t - 1) == 2 * m * (t * f) + 2 * m * t - 2 * m;
    assert d * (f * m + m + 1) == 2 * m * (t * f) + 2 * m * t + 2 * t;
    CancelLess(d, y / d, f * m + m + 1);
  }

  /** The carry argument for any positive total: rounding (100 * c * m) / t half-up and
      then dropping m gives the truncated ratio or one more. */
  lemma RoundThenTruncateNear(c: int, t: int, m: int)
    requires 0 <= c && m > 0 && 0 < t
    ensures var q := (2 * (100 * c * m) + t) / (2 * t);
      100 * c / t <= q / m <= 100 * c / t + 1
  {
    RoundedAtLeast(c, t, m);
    RoundedAtMost(c, t, m);
    DivBetween((2 * (100 * c * m) + t) / (2 * t), m, 100 * c / t);
  }

  /** At any positive total, the share is the ratio truncated to hundredths or one
      hundredth above it. */
  lemma ShareNearTruncatedRatio(count: int, total: int)
    requires 0 <= count && 0 < total
    ensures 100 * count / total <= ShareOf(count, total).hundredths <= 100 * count / total + 1
  {
    assert count * Scale20 == 100 * count * Scale18;
    RoundThenTruncateNear(count, total, Scale18);
  }

  /** At stake-weighted totals of 10^25 the rounding to 20 places does carry: 0.69999...
      (25 places) is reported as 0.70, one hundredth above the truncated ratio. */
  lemma ShareRoundsUpAtLargeTotals()
    ensures ShareOf(7 * Scale18 * 1_000_000 - 1, 10 * Scale18 * 1_000_000) == Fixed2(70)
    ensures 100 * (7 * Scale18 * 1_000_000 - 1) / (10 * Scale18 * 1_000_000) == 69
  {
  }

  /** `new BigNumber(total).minus(approve).minus(reject)`: those who voted neither way. */
  function Abstaining(total: int, approve: int, reject: int): (n: int)
    ensures approve + reject <= total <==> n >= 0
  {
    total - approve - reject
  }

  // ---------------------------------------------------------------------------------
  // Category entries

  function Summary(p: ChainProposal, doc: IpfsDocument): ProposalSummary {
    ProposalSummary(p.projectTitle, p.totalBudget, doc.teamName, p.sponsorAddress, doc.sponserPrepName, p.sponsorVoteReason)
  }

  function ApprovedDetails(p: ChainProposal, doc: IpfsDocument): ApprovedProposal {
    ApprovedProposal(Summary(p, doc),
                     p.approveVoters, ShareOf(p.approveVoters, p.totalVoters),
                     p.approvedVotes, ShareOf(p.approvedVotes, p.totalVotes))
  }

  function RejectedDetails(p: ChainProposal, doc: IpfsDocument): RejectedProposal {
    RejectedProposal(Summary(p, doc),
                     p.rejectVoters, ShareOf(p.rejectVoters, p.totalVoters),
                     p.rejectedVotes, ShareOf(p.rejectedVotes, p.totalVotes),
                     Abstaining(p.totalVoters, p.approveVoters, p.rejectVoters),
                     Abstaining(p.totalVotes, p.approvedVotes, p.rejectedVotes))
  }

  /** The tallies of a proposal are consistent: nobody is counted both ways and nobody
      beyond the total. */
  predicate ConsistentTally(p: ChainProposal) {
    && 0 <= p.approveVoters && 0 <= p.rejectVoters && p.approveVoters + p.rejectVoters <= p.totalVoters
    && 0 <= p.approvedVotes && 0 <= p.rejectedVotes && p.approvedVotes + p.rejectedVotes <= p.totalVotes
  }

  /** An approved entry carries the raw counts and shares within 0.00..1.00 that are the
      truncated ratios whenever the totals are below 2 * 10^18. */
  lemma ApprovedDetailsMeaning(p: ChainProposal, doc: IpfsDocument)
    requires ConsistentTally(p)
    ensures var a := ApprovedDetails(p, doc);
      && a.approvingVoters == p.approveVoters && a.approvedVotes == p.approvedVotes
      && (p.totalVoters == 0 <==> a.approvingVotersPercentage == ZeroLiteral)
      && (p.totalVotes == 0 <==> a.approvedVotesPercentage == ZeroLiteral)
      && (p.totalVoters > 0 ==> 0 <= a.approvingVotersPercentage.hundredths <= 100)
      && (p.totalVotes > 0 ==> 0 <= a.approvedVotesPercentage.hundredths <= 100)
      && (p.totalVoters > 0 ==>
            100 * p.approveVoters / p.totalVoters <= a.approvingVotersPercentage.hundredths
                                                  <= 100 * p.approveVoters / p.totalVoters + 1)
      && (p.totalVotes > 0 ==>
            100 * p.approvedVotes / p.totalVotes <= a.approvedVotesPercentage.hundredths
                                                 <= 100 * p.approvedVotes / p.totalVotes + 1)
      && (0 < p.totalVoters < 2 * Scale18 ==>
            a.approvingVotersPercentage.hundredths == 100 * p.approveVoters / p.totalVoters)
      && (0 < p.totalVotes < 2 * Scale18 ==>
            a.approvedVotesPercentage.hundredths == 100 * p.approvedVotes / p.totalVotes)
  {
    if p.totalVoters > 0 {
      ShareWithinUnit(p.approveVoters, p.totalVoters);
      ShareNearTruncatedRatio(p.approveVoters, p.totalVoters);
      if p.totalVoters < 2 * Scale18 { ShareIsTruncatedRatio(p.approveVoters, p.totalVoters); }
    }
    if p.totalVotes > 0 {
      ShareWithinUnit(p.approvedVotes, p.totalVotes);
      ShareNearTruncatedRatio(p.approvedVotes, p.totalVotes);
      if p.totalVotes < 2 * Scale18 { ShareIsTruncatedRatio(p.approvedVotes, p.totalVotes); }
    }
  }

  /** A rejected entry: as above for the rejections, and the abstention counts are
      non-negative and make the tallies add up to the totals. */
  lemma RejectedDetailsMeaning(p: ChainProposal, doc: IpfsDocument)
    requires ConsistentTally(p)
    ensures var r := RejectedDetails(p, doc);
      && r.rejectingVoters == p.rejectVoters && r.rejectedVotes == p.rejectedVotes
      && r.abstainingVoters >= 0 && p.approveVoters + p.rejectVoters + r.abstainingVoters == p.totalVoters
      && r.abstainedVotes >= 0 && p.approvedVotes + p.rejectedVotes + r.abstainedVotes == p.totalVotes
      && (p.totalVoters == 0 <==> r.rejectingVotersPercentage == ZeroLiteral)
      && (p.totalVotes == 0 <==> r.rejectedVotesPercentage == ZeroLiteral)
      && (p.totalVoters > 0 ==> 0 <= r.rejectingVotersPercentage.hundredths <= 100)
      && (p.totalVotes > 0 ==> 0 <= r.rejectedVotesPercentage.hundredths <= 100)
      && (p.totalVoters > 0 ==>
            100 * p.rejectVoters / p.totalVoters <= r.rejectingVotersPercentage.hundredths
                                                 <= 100 * p.rejectVoters / p.totalVoters + 1)
      && (p.totalVotes > 0 ==>
            100 * p.rejectedVotes / p.totalVotes <= r.rejectedVotesPercentage.hundredths
                                                 <= 100 * p.rejectedVotes / p.totalVotes + 1)
      && (0 < p.totalVoters < 2 * Scale18 ==>
            r.rejectingVotersPercentage.hundredths == 100 * p.rejectVoters / p.totalVoters)
      && (0 < p.totalVotes < 2 * Scale18 ==>
            r.rejectedVotesPercentage.hundredths == 100 * p.rejectedVotes / p.totalVotes)
  {
    if p.totalVoters > 0 {
      ShareWithinUnit(p.rejectVoters, p.totalVoters);
      ShareNearTruncatedRatio(p.rejectVoters, p.totalVoters);
      if p.totalVoters < 2 * Scale18 { ShareIsTruncatedRatio(p.rejectVoters, p.totalVoters); }
    }
    if p.totalVotes > 0 {
      ShareWithinUnit(p.rejectedVotes, p.totalVotes);
      ShareNearTruncatedRatio(p.rejectedVotes, p.totalVotes);
      if p.totalVotes < 2 * Scale18 { ShareIsTruncatedRatio(p.rejectedVotes, p.totalVotes); }
    }
  }

  // ---------------------------------------------------------------------------------
  // Placement into the category lists

  /** `after` is `before` with `x` pushed when `pushed` holds, and `before` otherwise. */
  predicate PushedIf<T(==)>(before: seq<T>, after: seq<T>, x: T, pushed: bool) {
    after == if pushed then before + [x] else before
  }

  function TotalListed(r: ProposalStatsResponse): int {
    |r.approvedProposals| + |r.rejectedProposals| + |r.pausedProposals|
      + |r.disqualifiedProposals| + |r.completedProposals|
  }

  /** The `switch (proposal.status)` as written: the active and rejected cases end in
      `break`, the paused and disqualified cases do not, so a paused proposal is pushed
      to the paused, disqualified and completed lists and a disqualified one to the last
      two. Other statuses match no case. */
  function PlaceAsWritten(resp: ProposalStatsResponse, p: ChainProposal, doc: IpfsDocument): (r: ProposalStatsResponse)
    ensures PushedIf(resp.approvedProposals, r.approvedProposals, ApprovedDetails(p, doc), p.status == Active)
    ensures PushedIf(resp.rejectedProposals, r.rejectedProposals, RejectedDetails(p, doc), p.status == Rejected)
    ensures PushedIf(resp.pausedProposals, r.pausedProposals, Summary(p, doc), p.status == Paused)
    ensures PushedIf(resp.disqualifiedProposals, r.disqualifiedProposals, Summary(p, doc),
                     p.status in {Paused, Disqualified})
    ensures PushedIf(resp.completedProposals, r.completedProposals, Summary(p, doc),
                     p.status in {Paused, Disqualified, Completed})
  {
    var s := Summary(p, doc);
    match p.status
    case Active => resp.(approvedProposals := resp.approvedProposals + [ApprovedDetails(p, doc)])
    case Rejected => resp.(rejectedProposals := resp.rejectedProposals + [RejectedDetails(p, doc)])
    case Paused =>
      resp.(pausedProposals := resp.pausedProposals + [s],
            disqualifiedProposals := resp.disqualifiedProposals + [s],
            completedProposals := resp.completedProposals + [s])
    case Disqualified =>
      resp.(disqualifiedProposals := resp.disqualifiedProposals + [s],
            completedProposals := resp.completedProposals + [s])
    case Completed => resp.(completedProposals := resp.completedProposals + [s])
    case Pending => resp
  }

  /** The placement evidently intended: every status but pending goes to exactly one list. */
  function PlaceOneBucket(resp: ProposalStatsResponse, p: ChainProposal, doc: IpfsDocument): (r: ProposalStatsResponse)
    ensures PushedIf(resp.approvedProposals, r.approvedProposals, ApprovedDetails(p, doc), p.status == Active)
    ensures PushedIf(resp.rejectedProposals, r.rejectedProposals, RejectedDetails(p, doc), p.status == Rejected)
    ensures PushedIf(resp.pausedProposals, r.pausedProposals, Summary(p, doc), p.status == Paused)
    ensures PushedIf(resp.disqualifiedProposals, r.disqualifiedProposals, Summary(p, doc), p.status == Disqualified)
    ensures PushedIf(resp.completedProposals, r.completedProposals, Summary(p, doc), p.status == Completed)
    ensures TotalListed(r) == TotalListed(resp) + if p.status == Pending then 0 else 1
  {
    var s := Summary(p, doc);
    match p.status
    case Active => resp.(approvedProposals := resp.approvedProposals + [ApprovedDetails(p, doc)])
    case Rejected => resp.(rejectedProposals := resp.rejectedProposals + [RejectedDetails(p, doc)])
    case Paused => resp.(pausedProposals := resp.pausedProposals + [s])
    case Disqualified => resp.(disqualifiedProposals := resp.disqualifiedProposals + [s])
    case Completed => resp.(completedProposals := resp.completedProposals + [s])
    case Pending => resp
  }

  /** With the fall-through a paused proposal is reported as paused, disqualified and
      completed at once, where one list was meant. */
  lemma PausedProposalListedThrice(p: ChainProposal, doc: IpfsDocument)
    requires p.status == Paused
    ensures var r := PlaceAsWritten(EmptyResponse, p, doc);
      r.pausedProposals == r.disqualifiedProposals == r.completedProposals == [Summary(p, doc)]
    ensures TotalListed(PlaceAsWritten(EmptyResponse, p, doc)) == 3
    ensures TotalListed(PlaceOneBucket(EmptyResponse, p, doc)) == 1
  {
  }

  // ---------------------------------------------------------------------------------
  // The formatter

  /** `formatProposalDetailsResponse` as written: the loop fetches the first proposal's
      IPFS document, places that proposal and returns, so later proposals are never
      looked at; an empty input falls off the end of the function (`undefined`); a failed
      fetch throws the 400 "IPFS url" error. */
  method FormatProposalDetailsResponse(allProposals: seq<ChainProposal>, fetch: string -> Option<IpfsDocument>)
    returns (r: FormatOutcome)
    ensures allProposals == [] ==> r == Undefined
    ensures allProposals != [] && fetch(allProposals[0].ipfsHash).None? ==> r == Threw(InvalidIpfsHash)
    ensures allProposals != [] && fetch(allProposals[0].ipfsHash).Some? ==>
              r == Returned(PlaceAsWritten(EmptyResponse, allProposals[0], fetch(allProposals[0].ipfsHash).value))
  {
    var response := EmptyResponse;
    for i := 0 to |allProposals|
      invariant i == 0 && response == EmptyResponse
    {
      var proposal := allProposals[i];
      var proposalDetails := fetch(proposal.ipfsHash);
      if proposalDetails.None? {
        return Threw(InvalidIpfsHash);
      }
      response := PlaceAsWritten(response, proposal, proposalDetails.value);
      return Returned(response);
    }
    return Undefined;
  }

  /** Every proposal's IPFS document can be fetched. */
  predicate AllFetched(ps: seq<ChainProposal>, fetch: string -> Option<IpfsDocument>) {
    forall i :: 0 <= i < |ps| ==> fetch(ps[i].ipfsHash).Some?
  }

  /** The response the intended formatter builds: every proposal placed, in order. */
  function FormatAll(ps: seq<ChainProposal>, fetch: string -> Option<IpfsDocument>): ProposalStatsResponse
    requires AllFetched(ps, fetch)
  {
    if ps == [] then EmptyResponse
    else
      var last := ps[|ps| - 1];
      PlaceOneBucket(FormatAll(ps[..|ps| - 1], fetch), last, fetch(last.ipfsHash).value)
  }

  function CountStatus(ps: seq<ChainProposal>, s: ProposalStatus): nat {
    if ps == [] then 0
    else CountStatus(ps[..|ps| - 1], s) + if ps[|ps| - 1].status == s then 1 else 0
  }

  /** The proposals of one status, in their order: a plain filter. */
  function WithStatus(ps: seq<ChainProposal>, s: ProposalStatus): (r: seq<ChainProposal>)
    ensures |r| == CountStatus(ps, s)
    ensures forall p :: p in r <==> p in ps && p.status == s
  {
    if ps == [] then []
    else
      var init, last := ps[..|ps| - 1], ps[|ps| - 1];
      assert ps == init + [last];
      WithStatus(init, s) + if last.status == s then [last] else []
  }

  /** A list of summaries, one per proposal and in the same order. */
  function SummariesOf(qs: seq<ChainProposal>, fetch: string -> Option<IpfsDocument>): seq<ProposalSummary>
    requires AllFetched(qs, fetch)
  {
    seq(|qs|, i requires 0 <= i < |qs| => Summary(qs[i], fetch(qs[i].ipfsHash).value))
  }

  function ApprovedListOf(qs: seq<ChainProposal>, fetch: string -> Option<IpfsDocument>): seq<ApprovedProposal>
    requires AllFetched(qs, fetch)
  {
    seq(|qs|, i requires 0 <= i < |qs| => ApprovedDetails(qs[i], fetch(qs[i].ipfsHash).value))
  }

  function RejectedListOf(qs: seq<ChainProposal>, fetch: string -> Option<IpfsDocument>): seq<RejectedProposal>
    requires AllFetched(qs, fetch)
  {
    seq(|qs|, i requires 0 <= i < |qs| => RejectedDetails(qs[i], fetch(qs[i].ipfsHash).value))
  }

  /** A filter of fetched proposals is fetched. */
  lemma WithStatusFetched(ps: seq<ChainProposal>, s: ProposalStatus, fetch: string -> Option<IpfsDocument>)
    requires AllFetched(ps, fetch)
    ensures AllFetched(WithStatus(ps, s), fetch)
  {
    var r := WithStatus(ps, s);
    forall i | 0 <= i < |r|
      ensures fetch(r[i].ipfsHash).Some?
    {
      assert r[i] in ps;
    }
  }

  /** Adding a proposal at the end extends the filtered lists by its details or by nothing. */
  lemma ListsSnoc(ps: seq<ChainProposal>, fetch: string -> Option<IpfsDocument>)
    requires ps != [] && AllFetched(ps, fetch)
    ensures var init, last := ps[..|ps| - 1], ps[|ps| - 1];
      var doc := fetch(last.ipfsHash).value;
      && AllFetched(init, fetch)
      && (forall s :: AllFetched(WithStatus(ps, s), fetch) && AllFetched(WithStatus(init, s), fetch))
      && (forall s :: SummariesOf(WithStatus(ps, s), fetch)
             == SummariesOf(WithStatus(init, s), fetch) + if last.status == s then [Summary(last, doc)] else [])
      && ApprovedListOf(WithStatus(ps, Active), fetch)
           == ApprovedListOf(WithStatus(init, Active), fetch) + (if last.status == Active then [ApprovedDetails(last, doc)] else [])
      && RejectedListOf(WithStatus(ps, Rejected), fetch)
           == RejectedListOf(WithStatus(init, Rejected), fetch) + (if last.status == Rejected then [RejectedDetails(last, doc)] else [])
  {
    var init, last := ps[..|ps| - 1], ps[|ps| - 1];
    assert AllFetched(init, fetch) by {
      forall i | 0 <= i < |init| ensures fetch(init[i].ipfsHash).Some? {
        assert init[i] == ps[i];
      }
    }
    forall s ensures AllFetched(WithStatus(ps, s), fetch) && AllFetched(WithStatus(init, s), fetch) {
      WithStatusFetched(ps, s, fetch);
      WithStatusFetched(init, s, fetch);
    }
  }

  /** The intended formatter: each list holds exactly the proposals of its status, in
      their order, with the details that status calls for; every proposal but a pending
      one is listed once. */
  lemma {:induction false} FormatAllCategorises(ps: seq<ChainProposal>, fetch: string -> Option<IpfsDocument>)
    requires AllFetched(ps, fetch)
    ensures var r := FormatAll(ps, fetch);
      && |r.approvedProposals| == CountStatus(ps, Active)
      && |r.rejectedProposals| == CountStatus(ps, Rejected)
      && |r.pausedProposals| == CountStatus(ps, Paused)
      && |r.disqualifiedProposals| == CountStatus(ps, Disqualified)
      && |r.completedProposals| == CountStatus(ps, Completed)
      && TotalListed(r) == |ps| - CountStatus(ps, Pending)
    ensures forall s :: AllFetched(WithStatus(ps, s), fetch)
    ensures FormatAll(ps, fetch).approvedProposals == ApprovedListOf(WithStatus(ps, Active), fetch)
    ensures FormatAll(ps, fetch).rejectedProposals == RejectedListOf(WithStatus(ps, Rejected), fetch)
    ensures FormatAll(ps, fetch).pausedProposals == SummariesOf(WithStatus(ps, Paused), fetch)
    ensures FormatAll(ps, fetch).disqualifiedProposals == SummariesOf(WithStatus(ps, Disqualified), fetch)
    ensures FormatAll(ps, fetch).completedProposals == SummariesOf(WithStatus(ps, Completed), fetch)
  {
    forall s ensures AllFetched(WithStatus(ps, s), fetch) {
      WithStatusFetched(ps, s, fetch);
    }
    if ps != [] {
      ListsSnoc(ps, fetch);
      FormatAllCategorises(ps[..|ps| - 1], fetch);
    }
  }

  /** One more fetched proposal places one more proposal. */
  lemma FormatAllStep(ps: seq<ChainProposal>, i: int, fetch: string -> Option<IpfsDocument>)
    requires 0 <= i < |ps| && AllFetched(ps[..i], fetch) && fetch(ps[i].ipfsHash).Some?
    ensures AllFetched(ps[..i + 1], fetch)
    ensures FormatAll(ps[..i + 1], fetch)
         == PlaceOneBucket(FormatAll(ps[..i], fetch), ps[i], fetch(ps[i].ipfsHash).value)
  {
    var done := ps[..i + 1];
    assert done[..i] == ps[..i] && done[i] == ps[i];
  }

  /** The formatter evidently intended: every proposal is fetched and placed, in order,
      with one list per status; the first failed fetch throws. */
  method FormatAllProposals(allProposals: seq<ChainProposal>, fetch: string -> Option<IpfsDocument>)
    returns (r: FormatOutcome)
    ensures AllFetched(allProposals, fetch) ==> r == Returned(FormatAll(allProposals, fetch))
    ensures !AllFetched(allProposals, fetch) ==> r == Threw(InvalidIpfsHash)
  {
    var response := EmptyResponse;
    for i := 0 to |allProposals|
      invariant AllFetched(allProposals[..i], fetch)
      invariant response == FormatAll(allProposals[..i], fetch)
    {
      var proposal := allProposals[i];
      var proposalDetails := fetch(proposal.ipfsHash);
      if proposalDetails.None? {
        assert !AllFetched(allProposals, fetch) by {
          assert fetch(allProposals[i].ipfsHash).None?;
        }
        return Threw(InvalidIpfsHash);
      }
      FormatAllStep(allProposals, i, fetch);
      response := PlaceOneBucket(response, proposal, proposalDetails.value);
    }
    assert allProposals[..|allProposals|] == allProposals;
    return Returned(response);
  }

  /** Stopping after the first proposal loses the rest: with two active proposals the
      response as written lists one approved proposal, the intended one lists both. */
  lemma OnlyFirstProposalCategorised(p: ChainProposal, q: ChainProposal, fetch: string -> Option<IpfsDocument>)
    requires p.status == Active && q.status == Active
    requires fetch(p.ipfsHash).Some? && fetch(q.ipfsHash).Some?
    ensures |PlaceAsWritten(EmptyResponse, p, fetch(p.ipfsHash).value).approvedProposals| == 1
    ensures AllFetched([p, q], fetch) && |FormatAll([p, q], fetch).approvedProposals| == 2
  {
    assert [p, q][..1] == [p];
    assert [p][..0] == [];
    assert AllFetched([p], fetch);
    assert FormatAll([p], fetch) == PlaceOneBucket(EmptyResponse, p, fetch(p.ipfsHash).value);
  }
}
