/**
 * The input-validation schemas for creating and updating pools and for
 * creating constitutions, transactions, proposals, votes and signatures.
 *
 * A request is the untyped object a form submits: every key may be absent
 * (`None`). Each schema is given twice: `Valid...` lists its rules flatly,
 * one conjunct per key, and `Parse...` follows the schema's construction
 * (a check per key, defaults substituted for absent keys and then checked)
 * and returns the parsed value, which the source calls `...Input`. The
 * `Parse...` contracts tie the two together and say what the parsed value
 * holds.
 */
module Schemas {
  import opened Js
  import opened Types

  /**
   * The string formats the schema library defines itself (`.uuid()`,
   * `.datetime()`, `.ip()`); they are left uninterpreted.
   */
  datatype Formats = Formats(isUuid: string -> bool, isDatetime: string -> bool, isIp: string -> bool)

  // ---------------------------------------------------------------------------
  // Checks on one key. `None` means the key is rejected; for an optional key
  // the accepted value is itself an Option.
  // ---------------------------------------------------------------------------

  /** `.default(d)`: an absent value is replaced by `d` before it is checked. */
  function Default<T>(v: Option<T>, d: T): Option<T> {
    Some(v.GetOr(d))
  }

  /** A required `z.string().min(lo)`. */
  function StringMin(v: Option<string>, lo: nat): Option<string> {
    if v.Some? && lo <= Length(v.value) then v else None
  }

  /** A required `z.string().min(lo).max(hi)`. */
  function StringBetween(v: Option<string>, lo: nat, hi: nat): Option<string> {
    if v.Some? && lo <= Length(v.value) <= hi then v else None
  }

  /** A required `z.string().length(n)`. */
  function StringOfLength(v: Option<string>, n: nat): Option<string> {
    if v.Some? && Length(v.value) == n then v else None
  }

  /** A required `z.string().max(hi)`. */
  function StringMax(v: Option<string>, hi: nat): Option<string> {
    if v.Some? && Length(v.value) <= hi then v else None
  }

  /**
   * `.optional()` around a check: an absent key is accepted and stays absent;
   * a present one is accepted iff `checked`, the inner check's verdict on
   * it, accepts it.
   */
  function Optional<T, U>(v: Option<T>, checked: Option<U>): Option<Option<U>> {
    if v.None? then Some(None)
    else if checked.Some? then Some(checked)
    else None
  }

  /** A required string in a library-defined format. */
  function FormattedString(v: Option<string>, format: string -> bool): Option<string> {
    if v.Some? && format(v.value) then v else None
  }

  /** A required `z.number().positive()`: strictly greater than zero. */
  function PositiveNumber(v: Option<real>): Option<real> {
    if v.Some? && v.value > 0.0 then v else None
  }

  /** A required `z.number().int()`. */
  function Integer(v: Option<real>): Option<real> {
    if v.Some? && IsInteger(v.value) then v else None
  }

  /** A required `z.number().int().min(0)`. */
  function NonNegativeInteger(v: Option<real>): Option<real> {
    if v.Some? && IsInteger(v.value) && v.value >= 0.0 then v else None
  }

  /** A required `z.number().min(lo).max(hi)`; both bounds inclusive. */
  function NumberBetween(v: Option<real>, lo: real, hi: real): Option<real> {
    if v.Some? && lo <= v.value <= hi then v else None
  }

  /** A required `z.number().int().positive()`. */
  function PositiveInteger(v: Option<real>): Option<real> {
    if v.Some? && IsInteger(v.value) && v.value > 0.0 then v else None
  }

  // ---------------------------------------------------------------------------
  // CreatePoolSchema and UpdatePoolSchema
  // ---------------------------------------------------------------------------

  datatype NotificationRequest = NotificationRequest(
    email: Option<bool>,
    sms: Option<bool>,
    inApp: Option<bool>)

  datatype SettingsRequest = SettingsRequest(
    lateGraceDays: Option<real>,
    latePenaltyRate: Option<real>,
    minimumTrustScore: Option<real>,
    allowEarlyExit: Option<bool>,
    requireUnanimousVotes: Option<bool>,
    autoRotate: Option<bool>,
    notificationPreferences: Option<NotificationRequest>)

  datatype PoolRequest = PoolRequest(
    name: Option<string>,
    description: Option<string>,
    poolType: Option<string>,
    contributionAmount: Option<real>,
    contributionSchedule: Option<string>,
    maxMembers: Option<real>,
    settings: Option<SettingsRequest>)

  datatype CreatePoolInput = CreatePoolInput(
    name: string,
    description: Option<string>,
    poolType: PoolType,
    contributionAmount: real,
    contributionSchedule: string,
    maxMembers: Option<real>,
    settings: PoolSettings)

  datatype UpdatePoolInput = UpdatePoolInput(
    name: Option<string>,
    description: Option<string>,
    poolType: Option<PoolType>,
    contributionAmount: Option<real>,
    contributionSchedule: Option<string>,
    maxMembers: Option<real>,
    settings: Option<PoolSettings>)

  /** The default of `notification_preferences` when it is absent. */
  const DefaultNotificationRequest: NotificationRequest :=
    NotificationRequest(Some(true), Some(false), Some(true))

  /** The default of `settings` when it is absent. */
  const DefaultSettingsRequest: SettingsRequest :=
    SettingsRequest(Some(3.0), Some(10.0), None, Some(false), Some(false), Some(true),
                    Some(DefaultNotificationRequest))

  /** A `settings` object with no keys at all. */
  const EmptySettingsRequest: SettingsRequest :=
    SettingsRequest(None, None, None, None, None, None, None)

  /** The settings a pool gets when none are given. */
  const DefaultPoolSettings: PoolSettings :=
    PoolSettings(3.0, 10.0, None, false, false, true, NotificationPreferences(true, false, true))

  // The rules of one pool key, shared by creation and update.

  predicate ValidPoolName(n: string) { 3 <= Length(n) <= 100 }
  predicate ValidPoolDescription(d: string) { Length(d) <= 1000 }
  predicate ValidContributionAmount(x: real) { x > 0.0 }
  predicate ValidContributionSchedule(s: string) { Length(s) >= 1 }
  predicate ValidMaxMembers(m: real) { IsInteger(m) && m > 0.0 }

  predicate ValidSettings(s: SettingsRequest) {
    && (s.lateGraceDays.Some? ==> IsInteger(s.lateGraceDays.value) && s.lateGraceDays.value >= 0.0)
    && (s.latePenaltyRate.Some? ==> 0.0 <= s.latePenaltyRate.value <= 100.0)
    && (s.minimumTrustScore.Some? ==> 0.0 <= s.minimumTrustScore.value <= 1000.0)
  }

  predicate ValidCreatePool(r: PoolRequest) {
    && r.name.Some? && ValidPoolName(r.name.value)
    && (r.description.Some? ==> ValidPoolDescription(r.description.value))
    && r.poolType.Some? && r.poolType.value in PoolTypeValues
    && r.contributionAmount.Some? && ValidContributionAmount(r.contributionAmount.value)
    && r.contributionSchedule.Some? && ValidContributionSchedule(r.contributionSchedule.value)
    && (r.maxMembers.Some? ==> ValidMaxMembers(r.maxMembers.value))
    && (r.settings.Some? ==> ValidSettings(r.settings.value))
  }

  /** `.partial()`: every key becomes optional, the rules of present keys stay. */
  predicate ValidUpdatePool(r: PoolRequest) {
    && (r.name.Some? ==> ValidPoolName(r.name.value))
    && (r.description.Some? ==> ValidPoolDescription(r.description.value))
    && (r.poolType.Some? ==> r.poolType.value in PoolTypeValues)
    && (r.contributionAmount.Some? ==> ValidContributionAmount(r.contributionAmount.value))
    && (r.contributionSchedule.Some? ==> ValidContributionSchedule(r.contributionSchedule.value))
    && (r.maxMembers.Some? ==> ValidMaxMembers(r.maxMembers.value))
    && (r.settings.Some? ==> ValidSettings(r.settings.value))
  }

  /** The `notification_preferences` object: each absent flag takes its own default. */
  function ParseNotifications(n: NotificationRequest): (p: NotificationPreferences)
    ensures p.email == (n.email != Some(false))
    ensures p.sms == (n.sms == Some(true))
    ensures p.inApp == (n.inApp != Some(false))
  {
    NotificationPreferences(n.email.GetOr(true), n.sms.GetOr(false), n.inApp.GetOr(true))
  }

  /** The `settings` object. */
  function ParseSettings(s: SettingsRequest): (o: Option<PoolSettings>)
    ensures o.Some? <==> ValidSettings(s)
    ensures o.Some? ==>
      && o.value.lateGraceDays == (if s.lateGraceDays.Some? then s.lateGraceDays.value else 3.0)
      && o.value.latePenaltyRate == (if s.latePenaltyRate.Some? then s.latePenaltyRate.value else 10.0)
      && o.value.minimumTrustScore == s.minimumTrustScore
      && o.value.allowEarlyExit == (s.allowEarlyExit == Some(true))
      && o.value.requireUnanimousVotes == (s.requireUnanimousVotes == Some(true))
      && o.value.autoRotate == (s.autoRotate != Some(false))
      && (s.notificationPreferences.None? ==>
            o.value.notificationPreferences == NotificationPreferences(true, false, true))
      && (s.notificationPreferences.Some? ==>
            o.value.notificationPreferences == ParseNotifications(s.notificationPreferences.value))
  {
    var grace := NonNegativeInteger(Default(s.lateGraceDays, 3.0));
    var penalty := NumberBetween(Default(s.latePenaltyRate, 10.0), 0.0, 100.0);
    var trust := Optional(s.minimumTrustScore, NumberBetween(s.minimumTrustScore, 0.0, 1000.0));
    var notifications := ParseNotifications(s.notificationPreferences.GetOr(DefaultNotificationRequest));
    if grace.Some? && penalty.Some? && trust.Some? then
      Some(PoolSettings(grace.value, penalty.value, trust.value,
                        s.allowEarlyExit.GetOr(false), s.requireUnanimousVotes.GetOr(false),
                        s.autoRotate.GetOr(true), notifications))
    else
      None
  }

  /** `CreatePoolSchema`: an absent `settings` is replaced by its default object. */
  function ParseCreatePool(r: PoolRequest): (o: Option<CreatePoolInput>)
    ensures o.Some? <==> ValidCreatePool(r)
    ensures o.Some? ==>
      && r.name == Some(o.value.name)
      && r.description == o.value.description
      && r.poolType == Some(PoolTypeValue(o.value.poolType))
      && r.contributionAmount == Some(o.value.contributionAmount)
      && r.contributionSchedule == Some(o.value.contributionSchedule)
      && r.maxMembers == o.value.maxMembers
    ensures o.Some? && r.settings.Some? ==> ParseSettings(r.settings.value) == Some(o.value.settings)
    ensures o.Some? && r.settings.None? ==> o.value.settings == DefaultPoolSettings
  {
    var name := StringBetween(r.name, 3, 100);
    var description := Optional(r.description, StringMax(r.description, 1000));
    var poolType := if r.poolType.Some? then ParsePoolType(r.poolType.value) else None;
    var amount := PositiveNumber(r.contributionAmount);
    var schedule := StringMin(r.contributionSchedule, 1);
    var maxMembers := Optional(r.maxMembers, PositiveInteger(r.maxMembers));
    var settings := ParseSettings(r.settings.GetOr(DefaultSettingsRequest));
    if name.Some? && description.Some? && poolType.Some? && amount.Some? && schedule.Some?
       && maxMembers.Some? && settings.Some?
    then
      Some(CreatePoolInput(name.value, description.value, poolType.value, amount.value,
                           schedule.value, maxMembers.value, settings.value))
    else
      None
  }

  /**
   * `UpdatePoolSchema`, i.e. `CreatePoolSchema.partial()`. Each key is
   * wrapped as optional outside its default, so an absent `settings` stays
   * absent; a present one still gets its per-key defaults.
   */
  function ParseUpdatePool(r: PoolRequest): (o: Option<UpdatePoolInput>)
    ensures o.Some? <==> ValidUpdatePool(r)
    ensures o.Some? ==>
      && r.name == o.value.name
      && r.description == o.value.description
      && (r.poolType.Some? <==> o.value.poolType.Some?)
      && (o.value.poolType.Some? ==> r.poolType == Some(PoolTypeValue(o.value.poolType.value)))
      && r.contributionAmount == o.value.contributionAmount
      && r.contributionSchedule == o.value.contributionSchedule
      && r.maxMembers == o.value.maxMembers
    ensures o.Some? ==> (o.value.settings.Some? <==> r.settings.Some?)
    ensures o.Some? && r.settings.Some? ==> ParseSettings(r.settings.value) == o.value.settings
  {
    var name := Optional(r.name, StringBetween(r.name, 3, 100));
    var description := Optional(r.description, StringMax(r.description, 1000));
    var poolType := Optional(r.poolType, if r.poolType.Some? then ParsePoolType(r.poolType.value) else None);
    var amount := Optional(r.contributionAmount, PositiveNumber(r.contributionAmount));
    var schedule := Optional(r.contributionSchedule, StringMin(r.contributionSchedule, 1));
    var maxMembers := Optional(r.maxMembers, PositiveInteger(r.maxMembers));
    var settings := Optional(r.settings, if r.settings.Some? then ParseSettings(r.settings.value) else None);
    if name.Some? && description.Some? && poolType.Some? && amount.Some? && schedule.Some?
       && maxMembers.Some? && settings.Some?
    then
      Some(UpdatePoolInput(name.value, description.value, poolType.value, amount.value,
                           schedule.value, maxMembers.value, settings.value))
    else
      None
  }

  /** The object a parsed pool is when it is read back as a request. */
  function EncodeSettings(p: PoolSettings): SettingsRequest {
    SettingsRequest(Some(p.lateGraceDays), Some(p.latePenaltyRate), p.minimumTrustScore,
                    Some(p.allowEarlyExit), Some(p.requireUnanimousVotes), Some(p.autoRotate),
                    Some(NotificationRequest(Some(p.notificationPreferences.email),
                                             Some(p.notificationPreferences.sms),
                                             Some(p.notificationPreferences.inApp))))
  }

  function EncodeCreatePool(p: CreatePoolInput): PoolRequest {
    PoolRequest(Some(p.name), p.description, Some(PoolTypeValue(p.poolType)), Some(p.contributionAmount),
                Some(p.contributionSchedule), p.maxMembers, Some(EncodeSettings(p.settings)))
  }

  /** Re-parsing parsed settings gives them back unchanged. */
  lemma SettingsParseIdempotent(s: SettingsRequest)
    requires ParseSettings(s).Some?
    ensures ParseSettings(EncodeSettings(ParseSettings(s).value)) == ParseSettings(s)
  {
  }

  /**
   * Parsing is idempotent: a parsed pool, with its defaults filled in,
   * validates again and parses to itself.
   */
  lemma CreatePoolParseIdempotent(r: PoolRequest)
    requires ValidCreatePool(r)
    ensures ValidCreatePool(EncodeCreatePool(ParseCreatePool(r).value))
    ensures ParseCreatePool(EncodeCreatePool(ParseCreatePool(r).value)) == ParseCreatePool(r)
  {
  }

  /** The default `settings` object agrees with the per-key defaults of an empty one. */
  lemma DefaultSettingsAgree()
    ensures ParseSettings(DefaultSettingsRequest) == Some(DefaultPoolSettings)
    ensures ParseSettings(EmptySettingsRequest) == Some(DefaultPoolSettings)
  {
  }

  /** The name rule alone decides a name: other keys being valid, a name is accepted iff 3 <= length <= 100. */
  lemma PoolNameRule(r: PoolRequest, n: string)
    requires ValidCreatePool(r)
    ensures ValidCreatePool(r.(name := Some(n))) <==> 3 <= Length(n) <= 100
  {
  }

  /** A name of length 2 is rejected and one of length 3 accepted; two astral characters count as 4. */
  lemma PoolNameBoundary(r: PoolRequest)
    requires ValidCreatePool(r)
    ensures !ValidCreatePool(r.(name := Some("ab")))
    ensures ValidCreatePool(r.(name := Some("abc")))
    ensures ValidCreatePool(r.(name := Some("\U{1F600}\U{1F600}")))
  {
  }

  /**
   * A name made only of astral characters counts two code units per
   * character, so it is accepted exactly when it has 2 to 50 characters.
   */
  lemma AstralNameRule(r: PoolRequest, n: string)
    requires ValidCreatePool(r)
    requires forall i :: 0 <= i < |n| ==> n[i] as int > 0xFFFF
    ensures ValidCreatePool(r.(name := Some(n))) <==> 2 <= |n| <= 50
  {
    AstralLength(n);
  }

  /** A contribution is accepted exactly when it is strictly positive. */
  lemma ContributionAmountRule(r: PoolRequest, x: real)
    requires ValidCreatePool(r)
    ensures ValidCreatePool(r.(contributionAmount := Some(x))) <==> x > 0.0
  {
  }

  /** `max_members` may be absent; when present it must be a positive integer. */
  lemma MaxMembersRule(r: PoolRequest, m: real)
    requires ValidCreatePool(r)
    ensures ValidCreatePool(r.(maxMembers := None))
    ensures ValidCreatePool(r.(maxMembers := Some(m))) <==> IsInteger(m) && m > 0.0
  {
  }

  /** Every request that creates a pool is a valid update and parses to the same values. */
  lemma CreateIsUpdate(r: PoolRequest)
    requires ValidCreatePool(r)
    ensures ValidUpdatePool(r)
    ensures ParseUpdatePool(r).value.name == Some(ParseCreatePool(r).value.name)
    ensures ParseUpdatePool(r).value.poolType == Some(ParseCreatePool(r).value.poolType)
    ensures r.settings.Some? ==> ParseUpdatePool(r).value.settings == Some(ParseCreatePool(r).value.settings)
  {
  }

  // ---------------------------------------------------------------------------
  // CreateConstitutionSchema
  // ---------------------------------------------------------------------------

  datatype ContentRequest = ContentRequest(
    poolName: Option<string>,
    purpose: Option<string>,
    poolType: Option<string>,
    contributionAmount: Option<string>,
    contributionSchedule: Option<string>,
    latePaymentPolicy: Option<string>,
    disputeResolution: Option<string>,
    votingThreshold: Option<string>,
    popiaConsent: Option<bool>,
    authorizedSignatories: Option<string>)

  datatype ClauseRequest = ClauseRequest(
    id: Option<string>,
    title: Option<string>,
    content: Option<string>,
    order: Option<real>,
    isCustom: Option<bool>)

  datatype ConstitutionRequest = ConstitutionRequest(
    poolId: Option<string>,
    templateName: Option<string>,
    content: Option<ContentRequest>,
    clauses: Option<seq<ClauseRequest>>)

  datatype CreateConstitutionInput = CreateConstitutionInput(
    poolId: string,
    templateName: string,
    content: ConstitutionContent,
    clauses: seq<ConstitutionClause>)

  predicate ValidContent(c: ContentRequest) {
    && c.poolName.Some? && Length(c.poolName.value) >= 1
    && c.purpose.Some? && Length(c.purpose.value) >= 10
    && c.poolType.Some? && c.poolType.value in PoolTypeValues
    && c.contributionAmount.Some? && Length(c.contributionAmount.value) >= 1
    && c.contributionSchedule.Some? && Length(c.contributionSchedule.value) >= 1
    && c.latePaymentPolicy.Some? && Length(c.latePaymentPolicy.value) >= 10
    && c.disputeResolution.Some? && Length(c.disputeResolution.value) >= 10
    && c.votingThreshold.Some? && c.votingThreshold.value in VotingThresholdValues
    && c.popiaConsent.Some?
    && c.authorizedSignatories.Some? && Length(c.authorizedSignatories.value) >= 1
  }

  predicate ValidClause(c: ClauseRequest) {
    c.id.Some? && c.title.Some? && c.content.Some? && c.order.Some? && IsInteger(c.order.value)
    && c.isCustom.Some?
  }

  predicate ValidCreateConstitution(r: ConstitutionRequest, f: Formats) {
    && r.poolId.Some? && f.isUuid(r.poolId.value)
    && r.templateName.Some? && Length(r.templateName.value) >= 1
    && r.content.Some? && ValidContent(r.content.value)
    && r.clauses.Some? && forall i :: 0 <= i < |r.clauses.value| ==> ValidClause(r.clauses.value[i])
  }

  function ParseContent(c: ContentRequest): (o: Option<ConstitutionContent>)
    ensures o.Some? <==> ValidContent(c)
    ensures o.Some? ==>
      c == ContentRequest(Some(o.value.poolName), Some(o.value.purpose), Some(PoolTypeValue(o.value.poolType)),
                          Some(o.value.contributionAmount), Some(o.value.contributionSchedule),
                          Some(o.value.latePaymentPolicy), Some(o.value.disputeResolution),
                          Some(VotingThresholdValue(o.value.votingThreshold)), Some(o.value.popiaConsent),
                          Some(o.value.authorizedSignatories))
  {
    var poolName := StringMin(c.poolName, 1);
    var purpose := StringMin(c.purpose, 10);
    var poolType := if c.poolType.Some? then ParsePoolType(c.poolType.value) else None;
    var amount := StringMin(c.contributionAmount, 1);
    var schedule := StringMin(c.contributionSchedule, 1);
    var latePolicy := StringMin(c.latePaymentPolicy, 10);
    var disputes := StringMin(c.disputeResolution, 10);
    var threshold := if c.votingThreshold.Some? then ParseVotingThreshold(c.votingThreshold.value) else None;
    var signatories := StringMin(c.authorizedSignatories, 1);
    if poolName.Some? && purpose.Some? && poolType.Some? && amount.Some? && schedule.Some?
       && latePolicy.Some? && disputes.Some? && threshold.Some? && c.popiaConsent.Some?
       && signatories.Some?
    then
      Some(ConstitutionContent(poolName.value, purpose.value, poolType.value, amount.value,
                               schedule.value, latePolicy.value, disputes.value, threshold.value,
                               c.popiaConsent.value, signatories.value))
    else
      None
  }

  function ParseClause(c: ClauseRequest): (o: Option<ConstitutionClause>)
    ensures o.Some? <==> ValidClause(c)
    ensures o.Some? ==> c == ClauseRequest(Some(o.value.id), Some(o.value.title), Some(o.value.content),
                                           Some(o.value.order), Some(o.value.isCustom))
  {
    var order := Integer(c.order);
    if c.id.Some? && c.title.Some? && c.content.Some? && order.Some? && c.isCustom.Some? then
      Some(ConstitutionClause(c.id.value, c.title.value, c.content.value, order.value, c.isCustom.value))
    else
      None
  }

  /** `z.array(...)`: the array is accepted iff every element is, and parses element-wise. */
  function ParseClauses(cs: seq<ClauseRequest>): (o: Option<seq<ConstitutionClause>>)
    ensures o.Some? <==> forall i :: 0 <= i < |cs| ==> ValidClause(cs[i])
    ensures o.Some? ==> |o.value| == |cs| && forall i :: 0 <= i < |cs| ==> ParseClause(cs[i]) == Some(o.value[i])
  {
    if cs == [] then Some([])
    else
      var head := ParseClause(cs[0]);
      var tail := ParseClauses(cs[1..]);
      if head.Some? && tail.Some? then
        Some([head.value] + tail.value)
      else
        None
  }

  function ParseCreateConstitution(r: ConstitutionRequest, f: Formats): (o: Option<CreateConstitutionInput>)
    ensures o.Some? <==> ValidCreateConstitution(r, f)
    ensures o.Some? ==>
      && r.poolId == Some(o.value.poolId)
      && r.templateName == Some(o.value.templateName)
      && ParseContent(r.content.value) == Some(o.value.content)
      && ParseClauses(r.clauses.value) == Some(o.value.clauses)
      && |o.value.clauses| == |r.clauses.value|
  {
    var poolId := FormattedString(r.poolId, f.isUuid);
    var template := StringMin(r.templateName, 1);
    var content := if r.content.Some? then ParseContent(r.content.value) else None;
    var clauses := if r.clauses.Some? then ParseClauses(r.clauses.value) else None;
    if poolId.Some? && template.Some? && content.Some? && clauses.Some? then
      Some(CreateConstitutionInput(poolId.value, template.value, content.value, clauses.value))
    else
      None
  }

  /** A clause whose `order` is not an integer spoils the whole constitution. */
  lemma FractionalOrderRejected(r: ConstitutionRequest, f: Formats, i: nat)
    requires r.clauses.Some? && i < |r.clauses.value|
    requires r.clauses.value[i].order.Some? && !IsInteger(r.clauses.value[i].order.value)
    ensures ParseCreateConstitution(r, f).None?
  {
  }

  // ---------------------------------------------------------------------------
  // CreateTransactionSchema
  // ---------------------------------------------------------------------------

  datatype TransactionRequest = TransactionRequest(
    poolId: Option<string>,
    kind: Option<string>,
    amount: Option<real>,
    currency: Option<string>,
    description: Option<string>,
    reference: Option<string>)

  datatype CreateTransactionInput = CreateTransactionInput(
    poolId: string,
    kind: TransactionType,
    amount: real,
    currency: string,
    description: Option<string>,
    reference: Option<string>)

  /** The currency of a transaction that names none. */
  const DefaultCurrency: string := "ZAR"

  predicate ValidCreateTransaction(r: TransactionRequest, f: Formats) {
    && r.poolId.Some? && f.isUuid(r.poolId.value)
    && r.kind.Some? && r.kind.value in TransactionTypeValues
    && r.amount.Some? && r.amount.value > 0.0
    && (r.currency.Some? ==> Length(r.currency.value) == 3)
    && (r.description.Some? ==> Length(r.description.value) <= 500)
    && (r.reference.Some? ==> Length(r.reference.value) <= 100)
  }

  function ParseCreateTransaction(r: TransactionRequest, f: Formats): (o: Option<CreateTransactionInput>)
    ensures o.Some? <==> ValidCreateTransaction(r, f)
    ensures o.Some? ==>
      && r.poolId == Some(o.value.poolId)
      && r.kind == Some(TransactionTypeValue(o.value.kind))
      && r.amount == Some(o.value.amount)
      && o.value.currency == (if r.currency.Some? then r.currency.value else "ZAR")
      && Length(o.value.currency) == 3
      && r.description == o.value.description
      && r.reference == o.value.reference
  {
    var poolId := FormattedString(r.poolId, f.isUuid);
    var kind := if r.kind.Some? then ParseTransactionType(r.kind.value) else None;
    var amount := PositiveNumber(r.amount);
    var currency := StringOfLength(Default(r.currency, DefaultCurrency), 3);
    var description := Optional(r.description, StringMax(r.description, 500));
    var reference := Optional(r.reference, StringMax(r.reference, 100));
    BmpLength(DefaultCurrency);
    if poolId.Some? && kind.Some? && amount.Some? && currency.Some? && description.Some? && reference.Some? then
      Some(CreateTransactionInput(poolId.value, kind.value, amount.value, currency.value,
                                  description.value, reference.value))
    else
      None
  }

  function EncodeCreateTransaction(t: CreateTransactionInput): TransactionRequest {
    TransactionRequest(Some(t.poolId), Some(TransactionTypeValue(t.kind)), Some(t.amount), Some(t.currency),
                       t.description, t.reference)
  }

  /** A parsed transaction, its currency filled in, parses to itself. */
  lemma CreateTransactionParseIdempotent(r: TransactionRequest, f: Formats)
    requires ValidCreateTransaction(r, f)
    ensures ParseCreateTransaction(EncodeCreateTransaction(ParseCreateTransaction(r, f).value), f)
            == ParseCreateTransaction(r, f)
  {
  }

  // ---------------------------------------------------------------------------
  // CreateProposalSchema
  // ---------------------------------------------------------------------------

  datatype ProposalRequest = ProposalRequest(
    poolId: Option<string>,
    title: Option<string>,
    description: Option<string>,
    kind: Option<string>,
    deadline: Option<string>)

  datatype CreateProposalInput = CreateProposalInput(
    poolId: string,
    title: string,
    description: string,
    kind: ProposalKind,
    deadline: string)

  predicate ValidCreateProposal(r: ProposalRequest, f: Formats) {
    && r.poolId.Some? && f.isUuid(r.poolId.value)
    && r.title.Some? && 5 <= Length(r.title.value) <= 200
    && r.description.Some? && 20 <= Length(r.description.value) <= 2000
    && r.kind.Some? && r.kind.value in ProposalKindValues
    && r.deadline.Some? && f.isDatetime(r.deadline.value)
  }

  function ParseCreateProposal(r: ProposalRequest, f: Formats): (o: Option<CreateProposalInput>)
    ensures o.Some? <==> ValidCreateProposal(r, f)
    ensures o.Some? ==>
      r == ProposalRequest(Some(o.value.poolId), Some(o.value.title), Some(o.value.description),
                           Some(ProposalKindValue(o.value.kind)), Some(o.value.deadline))
  {
    var poolId := FormattedString(r.poolId, f.isUuid);
    var title := StringBetween(r.title, 5, 200);
    var description := StringBetween(r.description, 20, 2000);
    var kind := if r.kind.Some? then ParseProposalKind(r.kind.value) else None;
    var deadline := FormattedString(r.deadline, f.isDatetime);
    if poolId.Some? && title.Some? && description.Some? && kind.Some? && deadline.Some? then
      Some(CreateProposalInput(poolId.value, title.value, description.value, kind.value, deadline.value))
    else
      None
  }

  // ---------------------------------------------------------------------------
  // VoteSchema
  // ---------------------------------------------------------------------------

  datatype VoteRequest = VoteRequest(
    proposalId: Option<string>,
    vote: Option<string>,
    comment: Option<string>)

  datatype VoteInput = VoteInput(
    proposalId: string,
    vote: VoteChoice,
    comment: Option<string>)

  predicate ValidVote(r: VoteRequest, f: Formats) {
    && r.proposalId.Some? && f.isUuid(r.proposalId.value)
    && r.vote.Some? && r.vote.value in VoteChoiceValues
    && (r.comment.Some? ==> Length(r.comment.value) <= 500)
  }

  function ParseVote(r: VoteRequest, f: Formats): (o: Option<VoteInput>)
    ensures o.Some? <==> ValidVote(r, f)
    ensures o.Some? ==>
      r == VoteRequest(Some(o.value.proposalId), Some(VoteChoiceValue(o.value.vote)), o.value.comment)
  {
    var proposalId := FormattedString(r.proposalId, f.isUuid);
    var vote := if r.vote.Some? then ParseVoteChoice(r.vote.value) else None;
    var comment := Optional(r.comment, StringMax(r.comment, 500));
    if proposalId.Some? && vote.Some? && comment.Some? then
      Some(VoteInput(proposalId.value, vote.value, comment.value))
    else
      None
  }

  // ---------------------------------------------------------------------------
  // SignConstitutionSchema
  // ---------------------------------------------------------------------------

  datatype SignRequest = SignRequest(
    poolId: Option<string>,
    constitutionId: Option<string>,
    fullLegalName: Option<string>,
    ipAddress: Option<string>)

  datatype SignConstitutionInput = SignConstitutionInput(
    poolId: string,
    constitutionId: string,
    fullLegalName: string,
    ipAddress: Option<string>)

  predicate ValidSignConstitution(r: SignRequest, f: Formats) {
    && r.poolId.Some? && f.isUuid(r.poolId.value)
    && r.constitutionId.Some? && f.isUuid(r.constitutionId.value)
    && r.fullLegalName.Some? && 3 <= Length(r.fullLegalName.value) <= 255
    && (r.ipAddress.Some? ==> f.isIp(r.ipAddress.value))
  }

  function ParseSignConstitution(r: SignRequest, f: Formats): (o: Option<SignConstitutionInput>)
    ensures o.Some? <==> ValidSignConstitution(r, f)
    ensures o.Some? ==>
      r == SignRequest(Some(o.value.poolId), Some(o.value.constitutionId), Some(o.value.fullLegalName),
                       o.value.ipAddress)
  {
    var poolId := FormattedString(r.poolId, f.isUuid);
    var constitutionId := FormattedString(r.constitutionId, f.isUuid);
    var name := StringBetween(r.fullLegalName, 3, 255);
    var ip := Optional(r.ipAddress, FormattedString(r.ipAddress, f.isIp));
    if poolId.Some? && constitutionId.Some? && name.Some? && ip.Some? then
      Some(SignConstitutionInput(poolId.value, constitutionId.value, name.value, ip.value))
    else
      None
  }
}
