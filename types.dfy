/**
 * The domain model of the savings-pool application: its enumerations, with
 * the string value each member carries on the wire, and its record shapes.
 */
module Types {
  import opened Js

  // ---------------------------------------------------------------------------
  // Enumerations. Each lists its members in the source's order; for those that
  // input validation parses, `...Value` gives the wire string, `...Values` the
  // set of accepted strings and `Parse...` the inverse of `...Value`.
  // ---------------------------------------------------------------------------

  datatype PoolType = Daily | Weekly | Fortnightly | Monthly | Stokvel | Savings | Investment | Rotating

  function PoolTypeValue(t: PoolType): string {
    match t
    case Daily => "daily"
    case Weekly => "weekly"
    case Fortnightly => "fortnightly"
    case Monthly => "monthly"
    case Stokvel => "stokvel"
    case Savings => "savings"
    case Investment => "investment"
    case Rotating => "rotating"
  }

  const PoolTypeValues: set<string> :=
    {"daily", "weekly", "fortnightly", "monthly", "stokvel", "savings", "investment", "rotating"}

  /** `z.nativeEnum(PoolType)`: accepts exactly the enum's values. */
  function ParsePoolType(s: string): (r: Option<PoolType>)
    ensures r.Some? <==> s in PoolTypeValues
    ensures r.Some? ==> PoolTypeValue(r.value) == s
  {
    if s == "daily" then Some(Daily)
    else if s == "weekly" then Some(Weekly)
    else if s == "fortnightly" then Some(Fortnightly)
    else if s == "monthly" then Some(Monthly)
    else if s == "stokvel" then Some(Stokvel)
    else if s == "savings" then Some(Savings)
    else if s == "investment" then Some(Investment)
    else if s == "rotating" then Some(Rotating)
    else None
  }

  lemma PoolTypeRoundTrip(t: PoolType)
    ensures ParsePoolType(PoolTypeValue(t)) == Some(t)
  {
  }

  datatype PoolStatus = Draft | Active | Paused | Completed | Cancelled

  datatype PoolHealthStatus = Healthy | Warning | Critical

  datatype MemberRole = Admin | Member | Viewer

  datatype MemberStatus = MemberActive | MemberPending | Suspended | MemberDefaulted

  datatype MemberTier = Bronze | Silver | Gold | Platinum

  datatype PaymentStatus = Paid | Late | PaymentPending | PaymentFailed | PaymentDefaulted

  datatype TransactionType = Contribution | Payout | Penalty | Refund | Fee

  function TransactionTypeValue(t: TransactionType): string {
    match t
    case Contribution => "contribution"
    case Payout => "payout"
    case Penalty => "penalty"
    case Refund => "refund"
    case Fee => "fee"
  }

  const TransactionTypeValues: set<string> := {"contribution", "payout", "penalty", "refund", "fee"}

  /** `z.nativeEnum(TransactionType)`. */
  function ParseTransactionType(s: string): (r: Option<TransactionType>)
    ensures r.Some? <==> s in TransactionTypeValues
    ensures r.Some? ==> TransactionTypeValue(r.value) == s
  {
    if s == "contribution" then Some(Contribution)
    else if s == "payout" then Some(Payout)
    else if s == "penalty" then Some(Penalty)
    else if s == "refund" then Some(Refund)
    else if s == "fee" then Some(Fee)
    else None
  }

  lemma TransactionTypeRoundTrip(t: TransactionType)
    ensures ParseTransactionType(TransactionTypeValue(t)) == Some(t)
  {
  }

  datatype ProposalStatus = ProposalDraft | ProposalActive | Approved | Rejected | Expired

  /** `TrustScore.rating`. */
  datatype TrustRating = Exceptional | Good | Fair | Poor

  /** `Transaction.status`. */
  datatype TransactionStatus = TxPending | TxCompleted | TxFailed | TxCancelled

  /** `ConstitutionContent.voting_threshold`. */
  datatype VotingThreshold = SimpleMajority | TwoThirds | Unanimous

  function VotingThresholdValue(v: VotingThreshold): string {
    match v
    case SimpleMajority => "simple_majority"
    case TwoThirds => "two_thirds"
    case Unanimous => "unanimous"
  }

  const VotingThresholdValues: set<string> := {"simple_majority", "two_thirds", "unanimous"}

  /** `z.enum(['simple_majority', 'two_thirds', 'unanimous'])`. */
  function ParseVotingThreshold(s: string): (r: Option<VotingThreshold>)
    ensures r.Some? <==> s in VotingThresholdValues
    ensures r.Some? ==> VotingThresholdValue(r.value) == s
  {
    if s == "simple_majority" then Some(SimpleMajority)
    else if s == "two_thirds" then Some(TwoThirds)
    else if s == "unanimous" then Some(Unanimous)
    else None
  }

  /** `Proposal.type`. */
  datatype ProposalKind = ConstitutionalChange | MemberAction | PoolSetting | OtherProposal

  function ProposalKindValue(k: ProposalKind): string {
    match k
    case ConstitutionalChange => "constitutional_change"
    case MemberAction => "member_action"
    case PoolSetting => "pool_setting"
    case OtherProposal => "other"
  }

  const ProposalKindValues: set<string> := {"constitutional_change", "member_action", "pool_setting", "other"}

  /** `z.enum(['constitutional_change', 'member_action', 'pool_setting', 'other'])`. */
  function ParseProposalKind(s: string): (r: Option<ProposalKind>)
    ensures r.Some? <==> s in ProposalKindValues
    ensures r.Some? ==> ProposalKindValue(r.value) == s
  {
    if s == "constitutional_change" then Some(ConstitutionalChange)
    else if s == "member_action" then Some(MemberAction)
    else if s == "pool_setting" then Some(PoolSetting)
    else if s == "other" then Some(OtherProposal)
    else None
  }

  /** `Vote.vote`. */
  datatype VoteChoice = Yes | No | Abstain

  function VoteChoiceValue(v: VoteChoice): string {
    match v
    case Yes => "yes"
    case No => "no"
    case Abstain => "abstain"
  }

  const VoteChoiceValues: set<string> := {"yes", "no", "abstain"}

  /** `z.enum(['yes', 'no', 'abstain'])`. */
  function ParseVoteChoice(s: string): (r: Option<VoteChoice>)
    ensures r.Some? <==> s in VoteChoiceValues
    ensures r.Some? ==> VoteChoiceValue(r.value) == s
  {
    if s == "yes" then Some(Yes)
    else if s == "no" then Some(No)
    else if s == "abstain" then Some(Abstain)
    else None
  }

  // ---------------------------------------------------------------------------
  // Records. Numbers are `real`, timestamps opaque strings, optional keys Option.
  // ---------------------------------------------------------------------------

  /** A JSON value, for the free-form `metadata` records. */
  datatype Json =
    | JNull
    | JBool(b: bool)
    | JNumber(n: real)
    | JString(s: string)
    | JArray(items: seq<Json>)
    | JObject(fields: map<string, Json>)

  datatype TrustMetrics = TrustMetrics(
    onTimePaymentRate: real,
    yearsActive: real,
    poolsCompleted: real,
    defaultsCount: real)

  /** A user's reputation; `score` ranges over 0 to 1000. */
  datatype TrustScore = TrustScore(
    score: real,
    rating: TrustRating,
    metrics: TrustMetrics,
    updatedAt: string)

  /** The application-level user profile. */
  datatype User = User(
    id: string,
    email: string,
    name: string,
    avatarUrl: Option<string>,
    phone: Option<string>,
    walletBalance: real,
    totalSavings: real,
    trustScore: TrustScore,
    createdAt: string,
    updatedAt: string,
    lastLoginAt: Option<string>,
    isActive: bool,
    metadata: Option<map<string, Json>>)

  datatype NotificationPreferences = NotificationPreferences(email: bool, sms: bool, inApp: bool)

  datatype PoolSettings = PoolSettings(
    lateGraceDays: real,
    latePenaltyRate: real,
    minimumTrustScore: Option<real>,
    allowEarlyExit: bool,
    requireUnanimousVotes: bool,
    autoRotate: bool,
    notificationPreferences: NotificationPreferences)

  datatype Pool = Pool(
    id: string,
    name: string,
    description: Option<string>,
    poolType: PoolType,
    creatorId: string,
    constitutionId: Option<string>,
    contributionAmount: real,
    contributionSchedule: string,
    nextDueDate: string,
    rotationPosition: real,
    totalMembers: real,
    maxMembers: Option<real>,
    status: PoolStatus,
    healthStatus: PoolHealthStatus,
    currentCycle: real,
    totalPoolValue: real,
    createdAt: string,
    updatedAt: string,
    startedAt: Option<string>,
    completedAt: Option<string>,
    settings: PoolSettings,
    metadata: Option<map<string, Json>>)

  datatype PoolMember = PoolMember(
    id: string,
    poolId: string,
    userId: string,
    role: MemberRole,
    status: MemberStatus,
    position: real,
    tier: MemberTier,
    totalContributed: real,
    pendingContribution: real,
    penaltiesIncurred: real,
    paymentStatus: PaymentStatus,
    joinedAt: string,
    lastPaymentAt: Option<string>,
    nextPayoutDate: Option<string>,
    constitutionSigned: bool,
    signatureDate: Option<string>)

  datatype Transaction = Transaction(
    id: string,
    poolId: string,
    userId: string,
    kind: TransactionType,
    amount: real,
    currency: string,
    status: TransactionStatus,
    description: Option<string>,
    reference: Option<string>,
    metadata: Option<map<string, Json>>,
    createdAt: string,
    completedAt: Option<string>)

  datatype ConstitutionContent = ConstitutionContent(
    poolName: string,
    purpose: string,
    poolType: PoolType,
    contributionAmount: string,
    contributionSchedule: string,
    latePaymentPolicy: string,
    disputeResolution: string,
    votingThreshold: VotingThreshold,
    popiaConsent: bool,
    authorizedSignatories: string)

  datatype ConstitutionClause = ConstitutionClause(
    id: string,
    title: string,
    content: string,
    order: real,
    isCustom: bool)

  datatype Constitution = Constitution(
    id: string,
    poolId: string,
    version: string,
    templateName: string,
    content: ConstitutionContent,
    clauses: seq<ConstitutionClause>,
    createdAt: string,
    updatedAt: string,
    isActive: bool)

  datatype MemberSignature = MemberSignature(
    id: string,
    poolId: string,
    userId: string,
    constitutionId: string,
    fullLegalName: string,
    ipAddress: Option<string>,
    signedAt: string,
    isActive: bool)

  datatype Proposal = Proposal(
    id: string,
    poolId: string,
    createdBy: string,
    title: string,
    description: string,
    kind: ProposalKind,
    status: ProposalStatus,
    createdAt: string,
    deadline: string,
    yesVotes: real,
    noVotes: real,
    abstainVotes: real,
    requiredVotes: real,
    metadata: Option<map<string, Json>>)

  datatype Vote = Vote(
    id: string,
    proposalId: string,
    userId: string,
    vote: VoteChoice,
    comment: Option<string>,
    createdAt: string)
}
