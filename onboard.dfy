/**
 * The onboarding route: POST creates a session, a background run asks the agent, parses its
 * answer and persists the analysis, and GET reports a session with its results.
 *
 * The tables are a value `Db`; `PostSpec`, `RunSpec` and `Respond` say what each handler does to
 * (or reads from) that value, the lemmas state what the route promises about them, and the class
 * `Store` performs the same writes step by step against its fields.
 */
module Onboard {
  import opened Wrappers
  import opened Schema
  import opened AgentResponse

  /** The JSON body of a POST; a field missing from the body is `None`. */
  datatype PostBody = PostBody(businessName: Option<string>, businessDescription: Option<string>)

  datatype PostResponse =
    | Started(sessionId: SessionId, status: Status)  // HTTP 200 with the new id and "processing"
    | PostBadRequest                                 // HTTP 400: name or description missing
    | PostServerError                                // HTTP 500: unreadable body or failed insert

  datatype GetResponse =
    | Found(session: Session, analysis: Option<Analysis>, leads: seq<Lead>)
    | GetBadRequest                                  // HTTP 400: no session id
    | NotFound                                       // HTTP 404

  /** Whether one database write went through or threw. */
  datatype WriteOutcome = Written | WriteFault

  /** What the external agent call produced: its text, or an exception. */
  datatype AgentOutcome = AgentText(text: string) | AgentFailure

  /** The outcome of each write of a background run, in program order. */
  datatype RunFaults = RunFaults(
    resetStatus: WriteOutcome,
    insertAnalysis: WriteOutcome,
    insertLeads: WriteOutcome,
    markCompleted: WriteOutcome,
    markFailed: WriteOutcome)

  /** The three tables, the clock stand-in and the next fresh key. */
  datatype Db = Db(
    sessions: map<SessionId, Session>,
    analyses: seq<Analysis>,
    leads: seq<Lead>,
    clock: Instant,
    nextId: SessionId)

  datatype PostStep = PostStep(db: Db, response: PostResponse)

  // ---------------------------------------------------------------------------
  // JavaScript's `||` on the values the route defaults.

  /** A string that is neither absent nor "": the falsiness test of `!x` and `x || d`. */
  predicate Truthy(s: Option<string>) {
    s.Some? && s.value != ""
  }

  function OrString(s: string, fallback: string): (r: string)
    ensures r == (if s != "" then s else fallback)
  {
    if s != "" then s else fallback
  }

  function OrOptString(s: Option<string>, fallback: string): (r: string)
    ensures Truthy(s) ==> r == s.value
    ensures !Truthy(s) ==> r == fallback
  {
    if Truthy(s) then s.value else fallback
  }

  /** `n || fallback` on a number: 0 and an absent value are falsy. */
  function OrNumber(n: Option<int>, fallback: int): (r: int)
    ensures n.Some? && n.value != 0 ==> r == n.value
    ensures n.None? || n.value == 0 ==> r == fallback
  {
    if n.Some? && n.value != 0 then n.value else fallback
  }

  // ---------------------------------------------------------------------------
  // Queries.

  /** `findFirst` on `business_analysis` by session: the earliest stored row of that session. */
  function FirstAnalysisOf(analyses: seq<Analysis>, id: SessionId): (r: Option<Analysis>)
    ensures r.Some? ==> r.value in analyses && r.value.sessionId == id
    ensures r.None? <==> forall i :: 0 <= i < |analyses| ==> analyses[i].sessionId != id
  {
    if analyses == [] then None
    else if analyses[0].sessionId == id then Some(analyses[0])
    else FirstAnalysisOf(analyses[1..], id)
  }

  /** Appending a row changes the first row of a session only if that session had none. */
  lemma {:induction false} FirstAnalysisAfterAppend(analyses: seq<Analysis>, row: Analysis, id: SessionId)
    ensures FirstAnalysisOf(analyses + [row], id)
         == if FirstAnalysisOf(analyses, id).Some? then FirstAnalysisOf(analyses, id)
            else if row.sessionId == id then Some(row) else None
  {
    if analyses != [] {
      assert (analyses + [row])[1..] == analyses[1..] + [row];
      FirstAnalysisAfterAppend(analyses[1..], row, id);
    }
  }

  /** `findMany` on `pilot_leads` by session, in storage order. */
  function LeadsOf(leads: seq<Lead>, id: SessionId): (r: seq<Lead>)
    ensures forall i :: 0 <= i < |r| ==> r[i].sessionId == id
    ensures forall l :: l in r <==> l in leads && l.sessionId == id
    ensures (forall i :: 0 <= i < |leads| ==> leads[i].sessionId != id) ==> r == []
    ensures forall l :: multiset(r)[l] == if l.sessionId == id then multiset(leads)[l] else 0
  {
    if leads == [] then []
    else
      assert leads == [leads[0]] + leads[1..];
      (if leads[0].sessionId == id then [leads[0]] else []) + LeadsOf(leads[1..], id)
  }

  predicate SortedByPriorityDesc(s: seq<Lead>) {
    forall i, j :: 0 <= i < j < |s| ==> s[i].priority >= s[j].priority
  }

  /** Inserts a lead into a list ordered by descending priority, ahead of the first lower priority. */
  function InsertByPriority(l: Lead, s: seq<Lead>): (r: seq<Lead>)
    requires SortedByPriorityDesc(s)
    ensures SortedByPriorityDesc(r)
    ensures multiset(r) == multiset(s) + multiset{l}
    ensures forall x :: x in r ==> x == l || x in s
  {
    if s == [] || l.priority >= s[0].priority then
      PrependKeepsOrder(l, s);
      [l] + s
    else
      var rest := InsertByPriority(l, s[1..]);
      assert s == [s[0]] + s[1..];
      PrependKeepsOrder(s[0], rest);
      [s[0]] + rest
  }

  /** A head of at least the priority of every later lead keeps a descending list descending. */
  lemma PrependKeepsOrder(head: Lead, s: seq<Lead>)
    requires SortedByPriorityDesc(s)
    requires s == [] || head.priority >= s[0].priority || forall x :: x in s ==> head.priority >= x.priority
    ensures SortedByPriorityDesc([head] + s)
  {
    var r := [head] + s;
    forall i, j | 0 <= i < j < |r|
      ensures r[i].priority >= r[j].priority
    {
      if i == 0 {
        assert r[j] == s[j - 1] && s[j - 1] in s;
        if s != [] && head.priority >= s[0].priority && j > 1 {
          assert s[0].priority >= s[j - 1].priority;
        }
      } else {
        assert r[i] == s[i - 1] && r[j] == s[j - 1];
      }
    }
  }

  /** `ORDER BY priority DESC`; rows of equal priority may come in any order, this picks one. */
  function SortByPriorityDesc(s: seq<Lead>): (r: seq<Lead>)
    ensures SortedByPriorityDesc(r)
    ensures multiset(r) == multiset(s)
  {
    if s == [] then []
    else
      assert s == [s[0]] + s[1..];
      InsertByPriority(s[0], SortByPriorityDesc(s[1..]))
  }

  // ---------------------------------------------------------------------------
  // Invariant of the tables.

  /** A stored session is keyed by its own id, stamped in the past, fits its columns, and is analysed once completed. */
  ghost predicate SessionOk(db: Db, id: SessionId)
    requires id in db.sessions
  {
    var s := db.sessions[id];
    && s.id == id && id < db.nextId
    && s.createdAt <= s.updatedAt < db.clock
    && SessionFits(s)
    && (s.status == Completed ==> FirstAnalysisOf(db.analyses, id).Some?)
  }

  /** A stored analysis row references a stored session, is stamped in the past and fits its columns. */
  ghost predicate AnalysisOk(db: Db, a: Analysis) {
    a.sessionId in db.sessions && a.createdAt < db.clock && AnalysisFits(a)
  }

  /** A stored lead row references a stored session, is stamped in the past and fits its columns. */
  ghost predicate LeadOk(db: Db, l: Lead) {
    l.sessionId in db.sessions && l.createdAt < db.clock && LeadFits(l)
  }

  /** The invariant of the tables. */
  ghost predicate Consistent(db: Db) {
    && (forall id :: id in db.sessions ==> SessionOk(db, id))
    && (forall i :: 0 <= i < |db.analyses| ==> AnalysisOk(db, db.analyses[i]))
    && (forall i :: 0 <= i < |db.leads| ==> LeadOk(db, db.leads[i]))
  }

  // ---------------------------------------------------------------------------
  // POST.

  /**
   * POST: validate by falsiness, insert one session with status "processing", answer with its id.
   * The name goes through its `varchar(255)` column, which may cut trailing spaces or reject it.
   */
  function PostSpec(db: Db, body: Option<PostBody>, insert: WriteOutcome): PostStep {
    if body.None? then PostStep(db, PostServerError)
    else if !Truthy(body.value.businessName) || !Truthy(body.value.businessDescription) then
      PostStep(db, PostBadRequest)
    else
      var name := VarcharValue(body.value.businessName.value, BusinessNameMaxLength);
      if insert == WriteFault || name.None? then PostStep(db, PostServerError)
      else
        var session := NewSession(db.nextId, name.value, body.value.businessDescription.value, Some(Processing), db.clock);
        PostStep(db.(sessions := db.sessions[session.id := session], clock := db.clock + 1, nextId := db.nextId + 1),
                 Started(session.id, Processing))
  }

  /**
   * A missing or empty name or description is a 400 that creates nothing; any other readable
   * body (a name of blanks included) inserts exactly one fresh session in "processing" and
   * returns its id, unless the insert fails, which is a 500 that creates nothing.
   */
  lemma PostOutcomes(db: Db, body: Option<PostBody>, insert: WriteOutcome)
    requires Consistent(db)
    ensures var step := PostSpec(db, body, insert);
      && (step.response == PostBadRequest <==>
            body.Some? && (!Truthy(body.value.businessName) || !Truthy(body.value.businessDescription)))
      && (!step.response.Started? ==> step.db == db)
      && (step.response.Started? ==>
            var id := step.response.sessionId;
            && step.response.status == Processing
            && id !in db.sessions
            && step.db.sessions.Keys == db.sessions.Keys + {id}
            && (forall other :: other in db.sessions ==> step.db.sessions[other] == db.sessions[other])
            && step.db.sessions[id].status == Processing
            && step.db.sessions[id].businessName == VarcharValue(body.value.businessName.value, BusinessNameMaxLength).value
            && step.db.sessions[id].businessDescription == body.value.businessDescription.value
            && step.db.analyses == db.analyses && step.db.leads == db.leads)
      && (step.response.Started? <==>
            body.Some? && Truthy(body.value.businessName) && Truthy(body.value.businessDescription)
            && insert == Written && VarcharValue(body.value.businessName.value, BusinessNameMaxLength).Some?)
      && (step.response == PostServerError <==>
            body.None?
            || (Truthy(body.value.businessName) && Truthy(body.value.businessDescription)
                && (insert == WriteFault || VarcharValue(body.value.businessName.value, BusinessNameMaxLength).None?)))
  {
  }

  /** A name longer than its column is stored cut to 255 characters when only spaces follow, and is a 500 otherwise. */
  lemma LongNameOutcomes(db: Db)
    ensures var padded := seq(BusinessNameMaxLength, _ => 'a') + " ";
      var step := PostSpec(db, Some(PostBody(Some(padded), Some("Widget subscription box"))), Written);
      step.response.Started? && step.db.sessions[step.response.sessionId].businessName == padded[..BusinessNameMaxLength]
    ensures PostSpec(db, Some(PostBody(Some(seq(BusinessNameMaxLength + 1, _ => 'a')), Some("Widget subscription box"))), Written).response
      == PostServerError
  {
    var padded := seq(BusinessNameMaxLength, _ => 'a') + " ";
    assert AllSpaces(padded[BusinessNameMaxLength..]);
    var long := seq(BusinessNameMaxLength + 1, _ => 'a');
    assert long[BusinessNameMaxLength..][0] != ' ';
  }

  /** Validation tests falsiness only: a name made of blanks is accepted. */
  lemma BlankNameAccepted(db: Db)
    ensures PostSpec(db, Some(PostBody(Some("   "), Some("Widget subscription box"))), Written).response.Started?
  {
  }

  lemma PostKeepsConsistency(db: Db, body: Option<PostBody>, insert: WriteOutcome)
    requires Consistent(db)
    ensures Consistent(PostSpec(db, body, insert).db)
  {
    var step := PostSpec(db, body, insert);
    if step.response.Started? {
      var id := step.response.sessionId;
      forall k | k in step.db.sessions
        ensures step.db.sessions[k].status == Completed ==> FirstAnalysisOf(step.db.analyses, k).Some?
      {
        if k != id {
          assert step.db.sessions[k] == db.sessions[k];
        }
      }
    }
  }

  // ---------------------------------------------------------------------------
  // The background run.

  /** The analysis row the run inserts, each field with the route's `||` fallback. */
  function AnalysisRowFor(id: SessionId, parsed: ParsedAnalysis, agentText: string, now: Instant): (a: Analysis)
    ensures a.sessionId == id && a.createdAt == now
    ensures a.marketViability == (if parsed.marketViability != "" then parsed.marketViability else Unknown)
    ensures a.marketSize == Some(if parsed.marketSize != "" then parsed.marketSize else Unknown)
    ensures a.brutHonestAssessment == (if parsed.assessment != "" then parsed.assessment else agentText)
    ensures a.recommendations == (if parsed.recommendations != "" then parsed.recommendations else "See assessment for details")
    ensures a.competitorAnalysis == Some(parsed.competitors) && a.customerSegments == Some(parsed.customerSegments)
    ensures a.painPoints == Some(parsed.painPoints) && a.marketTrends == Some(parsed.marketTrends)
  {
    Analysis(
      id,
      OrString(parsed.marketViability, Unknown),
      Some(OrString(parsed.marketSize, Unknown)),
      Some(parsed.competitors),
      Some(parsed.customerSegments),
      Some(parsed.painPoints),
      Some(parsed.marketTrends),
      OrString(parsed.assessment, agentText),
      OrString(parsed.recommendations, "See assessment for details"),
      now)
  }

  /** The lead row the run inserts for one parsed lead: each falsy field gets the route's default. */
  function LeadRowFor(id: SessionId, lead: ParsedLead, now: Instant): (l: Lead)
    ensures l.sessionId == id && l.createdAt == now
    ensures l.leadSource == (if Truthy(lead.source) then lead.source.value else "research")
    ensures l.leadTitle == Some(if Truthy(lead.title) then lead.title.value else "Potential Lead")
    ensures l.priority == (if lead.priority.Some? && lead.priority.value != 0 then lead.priority.value else 3)
    ensures l.leadUrl == Some(if Truthy(lead.url) then lead.url.value else "")
    ensures l.leadDescription == Some(if Truthy(lead.description) then lead.description.value else "")
    ensures l.contactInfo == Some(if Truthy(lead.contact) then lead.contact.value else "")
    ensures l.painPointMatch == Some(if Truthy(lead.painPointMatch) then lead.painPointMatch.value else "")
    ensures l.outreachStrategy == Some(if Truthy(lead.outreachStrategy) then lead.outreachStrategy.value else "")
  {
    Lead(
      id,
      OrOptString(lead.source, "research"),
      Some(OrOptString(lead.url, "")),
      Some(OrOptString(lead.title, "Potential Lead")),
      Some(OrOptString(lead.description, "")),
      Some(OrOptString(lead.contact, "")),
      Some(OrOptString(lead.painPointMatch, "")),
      Some(OrOptString(lead.outreachStrategy, "")),
      OrNumber(lead.priority, 3),
      now)
  }

  /**
   * The route always supplies a priority, so the column default never applies: a lead without a
   * priority (or with 0) is stored with 3, where an insert that omitted it would store 1.
   */
  lemma LeadPriorityOverridesColumnDefault(id: SessionId, lead: ParsedLead, now: Instant)
    ensures LeadRowFor(id, lead, now).priority == StoredPriority(Some(OrNumber(lead.priority, 3)))
    ensures lead.priority.None? ==> LeadRowFor(id, lead, now).priority == 3 != StoredPriority(None)
  {
  }

  function LeadRowsFor(id: SessionId, leads: seq<ParsedLead>, now: Instant): (rows: seq<Lead>)
    ensures |rows| == |leads|
    ensures forall i :: 0 <= i < |leads| ==> rows[i] == LeadRowFor(id, leads[i], now)
  {
    seq(|leads|, i requires 0 <= i < |leads| => LeadRowFor(id, leads[i], now))
  }

  predicate AllLeadsFit(rows: seq<Lead>) {
    forall i :: 0 <= i < |rows| ==> LeadFits(rows[i])
  }

  /** `UPDATE ... WHERE id = ?`: sets the status (and `updatedAt` when stamped); no row, no change. */
  function SetStatus(db: Db, id: SessionId, status: Status, stamp: Option<Instant>): Db {
    if id !in db.sessions then db
    else
      var s := db.sessions[id];
      db.(sessions := db.sessions[id := s.(status := status, updatedAt := stamp.GetOr(s.updatedAt))])
  }

  datatype PersistStep = PersistStep(db: Db, failed: bool)

  /**
   * The writes after the agent answered: insert the analysis (a foreign-key or length violation
   * throws like a fault), insert the leads only when there are some, then mark the session completed.
   * `failed` says an exception reached the catch block.
   */
  function PersistSpec(db: Db, id: SessionId, parsed: ParsedAnalysis, agentText: string, now: Instant, faults: RunFaults): PersistStep {
    var row := AnalysisRowFor(id, parsed, agentText, now);
    if faults.insertAnalysis == WriteFault || id !in db.sessions || !AnalysisFits(row) then PersistStep(db, true)
    else
      var withAnalysis := db.(analyses := db.analyses + [row]);
      var rows := LeadRowsFor(id, parsed.leads, now);
      if |parsed.leads| > 0 && (faults.insertLeads == WriteFault || !AllLeadsFit(rows)) then PersistStep(withAnalysis, true)
      else
        var withLeads := if |parsed.leads| > 0 then withAnalysis.(leads := withAnalysis.leads + rows) else withAnalysis;
        if faults.markCompleted == WriteFault then PersistStep(withLeads, true)
        else PersistStep(SetStatus(withLeads, id, Completed, Some(now)), false)
  }

  /** The writes of a run, before the catch block, as one step. */
  function WritesOf(db: Db, id: SessionId, agent: AgentOutcome, faults: RunFaults): PersistStep {
    var ticked := db.(clock := db.clock + 1);
    if faults.resetStatus == WriteFault then PersistStep(ticked, true)
    else
      var reset := SetStatus(ticked, id, Processing, None);
      match agent
      case AgentFailure => PersistStep(reset, true)
      case AgentText(text) => PersistSpec(reset, id, ParseAgentResponse(text), text, db.clock, faults)
  }

  /**
   * `processOnboardingSession`: reset the status to "processing", call the agent, parse, persist;
   * any exception leads to one attempt to mark the session "failed". The run reads the clock once.
   */
  function RunSpec(db: Db, id: SessionId, agent: AgentOutcome, faults: RunFaults): Db {
    var afterWrites := WritesOf(db, id, agent, faults);
    if afterWrites.failed && faults.markFailed == Written then SetStatus(afterWrites.db, id, Failed, Some(db.clock))
    else afterWrites.db
  }

  /** The parser's record always fits the analysis columns, and its text fields bypass the insert-time fallbacks. */
  lemma ParsedRowFits(id: SessionId, text: string, now: Instant)
    ensures var a := AnalysisRowFor(id, ParseAgentResponse(text), text, now);
      && AnalysisFits(a)
      && a.marketViability in {Viable, Oversaturated, PivotNeeded, Unknown}
      && a.marketSize.Some? && a.marketSize.value in {Large, Medium, Small, Unknown}
      && a.brutHonestAssessment == text
      && a.recommendations == FullAssessmentPlaceholder
      && a.competitorAnalysis == Some([]) && a.customerSegments == Some([])
      && a.painPoints == Some([]) && a.marketTrends == Some([])
  {
    var a := AnalysisRowFor(id, ParseAgentResponse(text), text, now);
    if text == "" {
      assert a.brutHonestAssessment == text;
    }
  }

  /** Whether every write of a run succeeds and the agent answers. */
  predicate AllGoesWell(agent: AgentOutcome, faults: RunFaults) {
    faults.resetStatus == Written && agent.AgentText? && faults.insertAnalysis == Written && faults.markCompleted == Written
  }

  /**
   * For a session still "processing" (as POST leaves it), the run ends "completed" exactly when
   * the agent answers and every write succeeds; otherwise it ends "failed" when the catch-block
   * update succeeds, and stays "processing" when that update throws too.
   * The timestamp is refreshed exactly when the status leaves "processing".
   */
  lemma {:induction false} RunFinalStatus(db: Db, id: SessionId, agent: AgentOutcome, faults: RunFaults)
    requires Consistent(db) && id in db.sessions && db.sessions[id].status == Processing
    ensures var after := RunSpec(db, id, agent, faults);
      && id in after.sessions
      && (after.sessions[id].status == Completed <==> AllGoesWell(agent, faults))
      && (after.sessions[id].status == Failed <==> !AllGoesWell(agent, faults) && faults.markFailed == Written)
      && (after.sessions[id].status == Processing <==> !AllGoesWell(agent, faults) && faults.markFailed == WriteFault)
      && (after.sessions[id].status != Processing ==> after.sessions[id].updatedAt == db.clock > db.sessions[id].updatedAt)
      && (after.sessions[id].status == Processing ==> after.sessions[id].updatedAt == db.sessions[id].updatedAt)
  {
    if agent.AgentText? {
      ParsedRowFits(id, agent.text, db.clock);
    }
  }

  /**
   * A run appends the analysis row exactly when the agent answered and the reset and the insert
   * succeeded, and that row stays even if marking the session completed fails afterwards.
   * The parser yields no leads, so no lead row is ever written.
   */
  lemma {:induction false} RunWrites(db: Db, id: SessionId, agent: AgentOutcome, faults: RunFaults)
    requires Consistent(db) && id in db.sessions
    ensures var after := RunSpec(db, id, agent, faults);
      && after.leads == db.leads
      && after.clock == db.clock + 1 && after.nextId == db.nextId
      && (if faults.resetStatus == Written && agent.AgentText? && faults.insertAnalysis == Written
          then after.analyses == db.analyses + [AnalysisRowFor(id, ParseAgentResponse(agent.text), agent.text, db.clock)]
          else after.analyses == db.analyses)
  {
    if agent.AgentText? {
      ParsedRowFits(id, agent.text, db.clock);
    }
  }

  /** A run writes only to its own session: every other session row is left as it was. */
  lemma RunIsolated(db: Db, id: SessionId, agent: AgentOutcome, faults: RunFaults, other: SessionId)
    requires other != id
    ensures var after := RunSpec(db, id, agent, faults);
      && after.sessions.Keys == db.sessions.Keys
      && (other in db.sessions ==> after.sessions[other] == db.sessions[other])
  {
  }

  /** A run rewrites only its own session's status and `updatedAt`: id, name, description and `createdAt` stay. */
  lemma RunKeepsSessionFields(db: Db, id: SessionId, agent: AgentOutcome, faults: RunFaults)
    requires id in db.sessions
    ensures var after := RunSpec(db, id, agent, faults);
      && id in after.sessions
      && after.sessions[id] == db.sessions[id].(status := after.sessions[id].status, updatedAt := after.sessions[id].updatedAt)
  {
  }

  /** A status update keeps the tables consistent when it stamps a past instant and completes only an analysed session. */
  lemma SetStatusKeepsConsistency(db: Db, id: SessionId, status: Status, stamp: Option<Instant>)
    requires Consistent(db)
    requires status == Completed ==> FirstAnalysisOf(db.analyses, id).Some?
    requires stamp.Some? && id in db.sessions ==> db.sessions[id].updatedAt <= stamp.value < db.clock
    ensures Consistent(SetStatus(db, id, status, stamp))
  {
  }

  /** Appending an analysis row that references a stored session keeps the tables consistent. */
  lemma AppendAnalysisKeepsConsistency(db: Db, row: Analysis)
    requires Consistent(db) && AnalysisOk(db, row)
    ensures Consistent(db.(analyses := db.analyses + [row]))
  {
    var after := db.(analyses := db.analyses + [row]);
    forall k | k in after.sessions
      ensures SessionOk(after, k)
    {
      assert SessionOk(db, k);
      FirstAnalysisAfterAppend(db.analyses, row, k);
    }
    forall i | 0 <= i < |after.analyses|
      ensures AnalysisOk(after, after.analyses[i])
    {
      if i < |db.analyses| {
        assert after.analyses[i] == db.analyses[i];
      }
    }
  }

  /** Appending lead rows that reference stored sessions keeps the tables consistent. */
  lemma AppendLeadsKeepsConsistency(db: Db, rows: seq<Lead>)
    requires Consistent(db)
    requires forall i :: 0 <= i < |rows| ==> LeadOk(db, rows[i])
    ensures Consistent(db.(leads := db.leads + rows))
  {
    var after := db.(leads := db.leads + rows);
    forall k | k in after.sessions
      ensures SessionOk(after, k)
    {
      assert SessionOk(db, k);
    }
    forall i | 0 <= i < |after.leads|
      ensures LeadOk(after, after.leads[i])
    {
      if i < |db.leads| {
        assert after.leads[i] == db.leads[i];
      } else {
        assert after.leads[i] == rows[i - |db.leads|];
      }
    }
  }

  /** The writes after the agent answered keep the tables consistent. */
  lemma PersistKeepsConsistency(db: Db, id: SessionId, parsed: ParsedAnalysis, agentText: string, now: Instant, faults: RunFaults)
    requires Consistent(db)
    requires id in db.sessions ==> db.sessions[id].updatedAt <= now < db.clock
    ensures Consistent(PersistSpec(db, id, parsed, agentText, now, faults).db)
  {
    var row := AnalysisRowFor(id, parsed, agentText, now);
    if faults.insertAnalysis == WriteFault || id !in db.sessions || !AnalysisFits(row) {
      return;
    }
    var withAnalysis := db.(analyses := db.analyses + [row]);
    AppendAnalysisKeepsConsistency(db, row);
    FirstAnalysisAfterAppend(db.analyses, row, id);
    var rows := LeadRowsFor(id, parsed.leads, now);
    if |parsed.leads| > 0 && (faults.insertLeads == WriteFault || !AllLeadsFit(rows)) {
      return;
    }
    var withLeads := withAnalysis;
    if |parsed.leads| > 0 {
      AppendLeadsKeepsConsistency(withAnalysis, rows);
      withLeads := withAnalysis.(leads := withAnalysis.leads + rows);
    }
    if faults.markCompleted == Written {
      SetStatusKeepsConsistency(withLeads, id, Completed, Some(now));
    }
  }

  /** The writes after the agent answered keep the clock and the set of sessions, and stamp no later than `now`. */
  lemma PersistFrame(db: Db, id: SessionId, parsed: ParsedAnalysis, agentText: string, now: Instant, faults: RunFaults)
    requires id in db.sessions ==> db.sessions[id].updatedAt <= now
    ensures var after := PersistSpec(db, id, parsed, agentText, now, faults).db;
      after.clock == db.clock && after.sessions.Keys == db.sessions.Keys
      && (id in db.sessions ==> after.sessions[id].updatedAt <= now)
  {
  }

  /** Advancing the clock keeps the tables consistent. */
  lemma TickKeepsConsistency(db: Db)
    requires Consistent(db)
    ensures Consistent(db.(clock := db.clock + 1))
  {
    var after := db.(clock := db.clock + 1);
    forall k | k in after.sessions
      ensures SessionOk(after, k)
    {
      assert SessionOk(db, k);
    }
    forall i | 0 <= i < |after.analyses|
      ensures AnalysisOk(after, after.analyses[i])
    {
      assert AnalysisOk(db, db.analyses[i]);
    }
    forall i | 0 <= i < |after.leads|
      ensures LeadOk(after, after.leads[i])
    {
      assert LeadOk(db, db.leads[i]);
    }
  }

  lemma WritesKeepConsistency(db: Db, id: SessionId, agent: AgentOutcome, faults: RunFaults)
    requires Consistent(db)
    ensures var w := WritesOf(db, id, agent, faults).db;
      && Consistent(w)
  {
    var ticked := db.(clock := db.clock + 1);
    TickKeepsConsistency(db);
    if faults.resetStatus == Written {
      var reset := SetStatus(ticked, id, Processing, None);
      SetStatusKeepsConsistency(ticked, id, Processing, None);
      assert id in reset.sessions ==> SessionOk(reset, id);
      match agent {
        case AgentFailure =>
        case AgentText(text) =>
          PersistKeepsConsistency(reset, id, ParseAgentResponse(text), text, db.clock, faults);
      }
    } else {
      assert id in ticked.sessions ==> SessionOk(db, id);
    }
  }

  /** The writes advance the clock by one and leave the session's timestamp no later than the run's instant. */
  lemma WritesStampThePast(db: Db, id: SessionId, agent: AgentOutcome, faults: RunFaults)
    requires Consistent(db)
    ensures var w := WritesOf(db, id, agent, faults).db;
      && w.clock == db.clock + 1
      && (id in w.sessions ==> w.sessions[id].updatedAt <= db.clock)
  {
    var ticked := db.(clock := db.clock + 1);
    TickKeepsConsistency(db);
    if faults.resetStatus == Written {
      var reset := SetStatus(ticked, id, Processing, None);
      SetStatusKeepsConsistency(ticked, id, Processing, None);
      assert id in reset.sessions ==> SessionOk(reset, id);
      match agent {
        case AgentFailure =>
        case AgentText(text) =>
          PersistFrame(reset, id, ParseAgentResponse(text), text, db.clock, faults);
      }
    } else {
      assert id in ticked.sessions ==> SessionOk(db, id);
    }
  }

  lemma RunKeepsConsistency(db: Db, id: SessionId, agent: AgentOutcome, faults: RunFaults)
    requires Consistent(db)
    ensures Consistent(RunSpec(db, id, agent, faults))
  {
    var w := WritesOf(db, id, agent, faults);
    WritesKeepConsistency(db, id, agent, faults);
    WritesStampThePast(db, id, agent, faults);
    assert RunSpec(db, id, agent, faults)
        == if w.failed && faults.markFailed == Written then SetStatus(w.db, id, Failed, Some(db.clock)) else w.db;
    if w.failed && faults.markFailed == Written {
      SetStatusKeepsConsistency(w.db, id, Failed, Some(db.clock));
    }
  }

  // ---------------------------------------------------------------------------
  // GET.

  /**
   * GET: the session by id; its analysis and leads only once it is "completed", the leads then
   * ordered by descending priority. `None` stands for a missing or empty `sessionId`.
   */
  function Respond(db: Db, query: Option<SessionId>): (r: GetResponse)
    ensures query.None? ==> r == GetBadRequest
    ensures r == GetBadRequest <==> query.None?
    ensures query.Some? ==> (r == NotFound <==> query.value !in db.sessions)
    ensures query.Some? && query.value in db.sessions ==> r.Found?
    ensures r.Found? ==> query.Some? && query.value in db.sessions && r.session == db.sessions[query.value]
    ensures r.Found? && r.session.status != Completed ==> r.analysis == None && r.leads == []
    ensures r.Found? && r.session.status == Completed ==>
      && r.analysis == FirstAnalysisOf(db.analyses, query.value)
      && SortedByPriorityDesc(r.leads)
      && multiset(r.leads) == multiset(LeadsOf(db.leads, query.value))
  {
    if query.None? then GetBadRequest
    else if query.value !in db.sessions then NotFound
    else
      var session := db.sessions[query.value];
      if session.status == Completed then
        Found(session, FirstAnalysisOf(db.analyses, query.value), SortByPriorityDesc(LeadsOf(db.leads, query.value)))
      else Found(session, None, [])
  }

  /** In consistent tables a completed session is always reported with an analysis. */
  lemma CompletedHasAnalysis(db: Db, id: SessionId)
    requires Consistent(db) && id in db.sessions && db.sessions[id].status == Completed
    ensures Respond(db, Some(id)).analysis.Some?
    ensures Respond(db, Some(id)).analysis.value.sessionId == id
  {
  }

  /** A fresh submission is polled as "processing" with no analysis and no leads. */
  lemma PollAfterSubmit(db: Db, body: Option<PostBody>, insert: WriteOutcome)
    requires Consistent(db)
    requires PostSpec(db, body, insert).response.Started?
    ensures var posted := PostSpec(db, body, insert);
      var id := posted.response.sessionId;
      && id in posted.db.sessions
      && FirstAnalysisOf(posted.db.analyses, id).None? && LeadsOf(posted.db.leads, id) == []
      && Respond(posted.db, Some(id)) == Found(posted.db.sessions[id], None, [])
      && posted.db.sessions[id].status == Processing
  {
    var posted := PostSpec(db, body, insert);
    var id := posted.response.sessionId;
    PostOutcomes(db, body, insert);
    assert forall i :: 0 <= i < |db.leads| ==> LeadOk(db, db.leads[i]);
    assert forall i :: 0 <= i < |db.leads| ==> db.leads[i].sessionId != id;
  }

  /**
   * Run on a "processing" session that has no rows yet, a poll afterwards reports "completed"
   * exactly when everything went well, and then exactly the row the run wrote and no leads;
   * any other outcome reports no results.
   */
  lemma PollAfterRun(db: Db, id: SessionId, agent: AgentOutcome, faults: RunFaults)
    requires Consistent(db) && id in db.sessions && db.sessions[id].status == Processing
    requires FirstAnalysisOf(db.analyses, id).None? && LeadsOf(db.leads, id) == []
    ensures var after := Respond(RunSpec(db, id, agent, faults), Some(id));
      && after.Found?
      && (after.session.status == Completed <==> AllGoesWell(agent, faults))
      && (after.session.status == Completed ==>
            after.analysis == Some(AnalysisRowFor(id, ParseAgentResponse(agent.text), agent.text, db.clock))
            && after.leads == [])
      && (after.session.status != Completed ==> after.analysis == None && after.leads == [])
  {
    RunFinalStatus(db, id, agent, faults);
    RunWrites(db, id, agent, faults);
    var ran := RunSpec(db, id, agent, faults);
    if AllGoesWell(agent, faults) {
      var row := AnalysisRowFor(id, ParseAgentResponse(agent.text), agent.text, db.clock);
      FirstAnalysisAfterAppend(db.analyses, row, id);
      assert ran.leads == db.leads;
    }
  }

  /**
   * The whole lifecycle of one submission: right after POST a poll sees "processing" with no
   * results; after the run it sees "completed" with the run's analysis exactly when everything
   * went well, and no results otherwise.
   */
  lemma SubmitRunPoll(db: Db, body: Option<PostBody>, insert: WriteOutcome, agent: AgentOutcome, faults: RunFaults)
    requires Consistent(db)
    requires PostSpec(db, body, insert).response.Started?
    ensures var posted := PostSpec(db, body, insert);
      var id := posted.response.sessionId;
      var after := Respond(RunSpec(posted.db, id, agent, faults), Some(id));
      && Respond(posted.db, Some(id)).analysis == None
      && (after.session.status == Completed <==> AllGoesWell(agent, faults))
      && (after.session.status == Completed ==>
            after.analysis == Some(AnalysisRowFor(id, ParseAgentResponse(agent.text), agent.text, posted.db.clock)))
      && (after.session.status != Completed ==> after.analysis == None)
  {
    var posted := PostSpec(db, body, insert);
    PollAfterSubmit(db, body, insert);
    PostKeepsConsistency(db, body, insert);
    PollAfterRun(posted.db, posted.response.sessionId, agent, faults);
  }

  /**
   * The analysis row outlives a failure that happens after it was written: the session ends
   * "failed", the row stays in the table, and GET hides it.
   */
  lemma AnalysisSurvivesLateFailure(db: Db, id: SessionId, text: string, faults: RunFaults)
    requires Consistent(db) && id in db.sessions
    requires faults.resetStatus == Written && faults.insertAnalysis == Written
    requires faults.markCompleted == WriteFault && faults.markFailed == Written
    ensures var after := RunSpec(db, id, AgentText(text), faults);
      && after.sessions[id].status == Failed
      && after.analyses == db.analyses + [AnalysisRowFor(id, ParseAgentResponse(text), text, db.clock)]
      && Respond(after, Some(id)).analysis == None
  {
    RunWrites(db, id, AgentText(text), faults);
  }

  // ---------------------------------------------------------------------------
  // The store, written to step by step.

  class Store {
    var sessions: map<SessionId, Session>
    var analyses: seq<Analysis>
    var leads: seq<Lead>
    var clock: Instant
    var nextId: SessionId

    function State(): Db
      reads this
    {
      Db(sessions, analyses, leads, clock, nextId)
    }

    ghost predicate Valid()
      reads this
    {
      Consistent(State())
    }

    constructor ()
      ensures Valid() && State() == Db(map[], [], [], 0, 0)
    {
      sessions, analyses, leads, clock, nextId := map[], [], [], 0, 0;
    }

    /** The POST handler; `body` is `None` when the request body is not JSON, `insert` is the session insert. */
    method Post(body: Option<PostBody>, insert: WriteOutcome) returns (response: PostResponse)
      requires Valid()
      modifies this
      ensures Valid()
      ensures PostStep(State(), response) == PostSpec(old(State()), body, insert)
    {
      PostKeepsConsistency(State(), body, insert);
      if body.None? {
        return PostServerError;
      }
      var name, description := body.value.businessName, body.value.businessDescription;
      if !Truthy(name) || !Truthy(description) {
        return PostBadRequest;
      }
      var stored := VarcharValue(name.value, BusinessNameMaxLength);
      if insert == WriteFault || stored.None? {
        return PostServerError;
      }
      var session := NewSession(nextId, stored.value, description.value, Some(Processing), clock);
      sessions := sessions[session.id := session];
      clock := clock + 1;
      nextId := nextId + 1;
      response := Started(session.id, Processing);
    }

    /** `UPDATE onboarding_sessions SET status = ?[, updated_at = ?] WHERE id = ?`. */
    method UpdateStatus(id: SessionId, status: Status, stamp: Option<Instant>)
      modifies this
      ensures State() == SetStatus(old(State()), id, status, stamp)
    {
      if id in sessions {
        var s := sessions[id];
        sessions := sessions[id := s.(status := status, updatedAt := stamp.GetOr(s.updatedAt))];
      }
    }

    /** The writes after the agent answered; `failed` reports an exception. */
    method Persist(id: SessionId, parsed: ParsedAnalysis, agentText: string, now: Instant, faults: RunFaults)
      returns (failed: bool)
      modifies this
      ensures PersistStep(State(), failed) == PersistSpec(old(State()), id, parsed, agentText, now, faults)
    {
      var row := AnalysisRowFor(id, parsed, agentText, now);
      if faults.insertAnalysis == WriteFault || id !in sessions || !AnalysisFits(row) {
        return true;
      }
      analyses := analyses + [row];
      if |parsed.leads| > 0 {
        var rows := LeadRowsFor(id, parsed.leads, now);
        if faults.insertLeads == WriteFault || !AllLeadsFit(rows) {
          return true;
        }
        leads := leads + rows;
      }
      if faults.markCompleted == WriteFault {
        return true;
      }
      UpdateStatus(id, Completed, Some(now));
      failed := false;
    }

    /** The writes of a run up to the catch block; `failed` reports an exception. */
    method RunWrites(id: SessionId, agent: AgentOutcome, faults: RunFaults) returns (failed: bool)
      modifies this
      ensures PersistStep(State(), failed) == WritesOf(old(State()), id, agent, faults)
    {
      var now := clock;
      clock := clock + 1;
      if faults.resetStatus == WriteFault {
        return true;
      }
      UpdateStatus(id, Processing, None);
      match agent {
        case AgentFailure =>
          failed := true;
        case AgentText(text) =>
          var parsed := ParseAgentResponse(text);
          failed := Persist(id, parsed, text, now, faults);
      }
    }

    /** The background run of one session, with the agent's outcome and each write's outcome given. */
    method Process(id: SessionId, agent: AgentOutcome, faults: RunFaults)
      requires Valid()
      modifies this
      ensures Valid()
      ensures State() == RunSpec(old(State()), id, agent, faults)
    {
      RunKeepsConsistency(State(), id, agent, faults);
      var now := clock;
      var failed := RunWrites(id, agent, faults);
      if failed && faults.markFailed == Written {
        UpdateStatus(id, Failed, Some(now));
      }
    }
  }
}
