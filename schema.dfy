/**
 * The three tables the onboarding flow writes: sessions, business analyses and pilot leads,
 * with their nullability, length limits and column defaults.
 */
module Schema {
  import opened Wrappers

  /** Primary keys are database-generated UUIDs; a natural number stands in for one. */
  type SessionId = nat

  /** Instants from the database's clock, abstracted to a monotonic counter. */
  type Instant = nat

  /** The `status` column: the only three values the application writes. */
  datatype Status = Processing | Completed | Failed

  /** A `jsonb` array element whose shape the core never inspects. */
  datatype Json = Json(raw: string)

  const StatusColumnDefault: Status := Processing
  const BusinessNameMaxLength := 255
  const MarketViabilityMaxLength := 50
  const MarketSizeMaxLength := 50
  const LeadSourceMaxLength := 100
  const LeadTitleMaxLength := 255
  /** Default of the `priority` column when an insert omits it (the column comment speaks of a 1-5 scale, which nothing enforces). */
  const PriorityColumnDefault := 1

  /** A row of `onboarding_sessions`; every column is non-null. */
  datatype Session = Session(
    id: SessionId,
    businessName: string,
    businessDescription: string,
    status: Status,
    createdAt: Instant,
    updatedAt: Instant)

  /** A row of `business_analysis`; `Option` marks the nullable columns. */
  datatype Analysis = Analysis(
    sessionId: SessionId,
    marketViability: string,
    marketSize: Option<string>,
    competitorAnalysis: Option<seq<Json>>,
    customerSegments: Option<seq<Json>>,
    painPoints: Option<seq<Json>>,
    marketTrends: Option<seq<Json>>,
    brutHonestAssessment: string,
    recommendations: string,
    createdAt: Instant)

  /** A row of `pilot_leads`; `Option` marks the nullable columns. */
  datatype Lead = Lead(
    sessionId: SessionId,
    leadSource: string,
    leadUrl: Option<string>,
    leadTitle: Option<string>,
    leadDescription: Option<string>,
    contactInfo: Option<string>,
    painPointMatch: Option<string>,
    outreachStrategy: Option<string>,
    priority: int,
    createdAt: Instant)

  /** Every character is a plain space (U+0020). */
  predicate AllSpaces(s: string) {
    forall i :: 0 <= i < |s| ==> s[i] == ' '
  }

  /**
   * How a `varchar(max)` column takes a value, as PostgreSQL does: a value within the limit is
   * stored as it is; a longer one is cut to `max` characters when everything past `max` is
   * spaces, and is rejected with an error otherwise.
   */
  function VarcharValue(s: string, max: nat): (r: Option<string>)
    ensures r.Some? ==> |r.value| == if |s| <= max then |s| else max
    ensures r.Some? ==> r.value == s[..|r.value|] && AllSpaces(s[|r.value|..])
    ensures r.None? <==> |s| > max && !AllSpaces(s[max..])
  {
    if |s| <= max then Some(s)
    else if AllSpaces(s[max..]) then Some(s[..max])
    else None
  }

  /** The `varchar` limits of a session row; an insert violating one is rejected. */
  predicate SessionFits(s: Session) {
    |s.businessName| <= BusinessNameMaxLength
  }

  predicate AnalysisFits(a: Analysis) {
    |a.marketViability| <= MarketViabilityMaxLength
    && (a.marketSize.Some? ==> |a.marketSize.value| <= MarketSizeMaxLength)
  }

  predicate LeadFits(l: Lead) {
    |l.leadSource| <= LeadSourceMaxLength
    && (l.leadTitle.Some? ==> |l.leadTitle.value| <= LeadTitleMaxLength)
  }

  /**
   * The session row an insert produces: the status column falls back to its default when the
   * insert leaves it out, and both timestamps take the insert's instant.
   */
  function NewSession(id: SessionId, name: string, description: string, status: Option<Status>, now: Instant): (s: Session)
    ensures s.status == (if status.Some? then status.value else Processing)
    ensures s.createdAt == s.updatedAt == now
    ensures s.id == id && s.businessName == name && s.businessDescription == description
  {
    Session(id, name, description, status.GetOr(StatusColumnDefault), now, now)
  }

  /** The `priority` column of an inserted lead: the supplied value, or the column default 1 when omitted. */
  function StoredPriority(supplied: Option<int>): (p: int)
    ensures supplied.None? ==> p == 1
    ensures supplied.Some? ==> p == supplied.value
  {
    supplied.GetOr(PriorityColumnDefault)
  }
}
