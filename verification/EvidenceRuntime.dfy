/** The evidence of one agent turn: what its searches leave behind, what its answer may cite, and how many tools it runs
(src/index.ts, executeKnowledge, beforeToolCall and the outcome cascade; src/knowledge.ts). The agent is an arbitrary
sequence of tool calls, and the entries a retrieval returned may change under the turn. */
module EvidenceRuntime {
  import opened Wrappers

  datatype Status = Approved | SyntheticTestOnly | Unapproved | RetiredStatus

  datatype Metadata = Metadata(kind: Id, status: Status, version: Id, sourceRef: Id, tenantScope: Option<Id>,
    storeScope: Option<Id>)

  datatype Entry = Entry(id: Id, text: Id, knowledge: Option<Metadata>)

  datatype Reference = Reference(id: Id, version: Id, sourceRef: Id, kind: Id)

  datatype Setup = Setup(tenant: Id, store: Id, allowSynthetic: bool, maxToolCalls: nat, safetyRisk: bool)

  /** knowledgeScopeAllows and isAdmissibleKnowledgeEvidence */
  predicate Admissible(e: Entry, c: Setup) {
    && e.knowledge.Some?
    && (e.knowledge.value.tenantScope.Some? ==> e.knowledge.value.tenantScope.value == c.tenant)
    && (e.knowledge.value.storeScope.Some? ==> e.knowledge.value.storeScope.value == c.store)
    && (e.knowledge.value.status.Approved? || (c.allowSynthetic && e.knowledge.value.status.SyntheticTestOnly?))
  }

  function References(entries: seq<Entry>): seq<Reference> {
    if entries == [] then []
    else
      var e := entries[|entries| - 1];
      References(entries[..|entries| - 1])
      + if e.knowledge.Some? then
        [Reference(e.id, e.knowledge.value.version, e.knowledge.value.sourceRef, e.knowledge.value.kind)] else []
  }

  function AdmittedOf(entries: seq<Entry>, c: Setup): seq<Entry> {
    if entries == [] then []
    else AdmittedOf(entries[..|entries| - 1], c)
         + if Admissible(entries[|entries| - 1], c) then [entries[|entries| - 1]] else []
  }

  datatype Routing = NoCandidate | SingleCandidate | Ambiguous

  /** A completed check: the entries as the retrieval holds them, and their snapshot. */
  datatype Check = Check(sources: seq<Entry>, evidence: seq<Entry>, routing: Routing)

  /** What the searches of a turn left behind. */
  datatype Grounding = Grounding(
    sources: seq<Entry>, evidence: seq<Entry>, routing: Option<Routing>, verified: bool, noEvidence: bool,
    faqMiss: bool, settled: bool)

  datatype Turn = Turn(
    ground: Grounding, checks: map<Id, Check>, toolCalls: nat, executions: nat, limitReached: bool, toolFailed: bool,
    aborted: bool,
    eligible: bool)

  const Fresh := Turn(Grounding([], [], None, false, false, false, false), map[], 0, 0, false, false, false, false)

  predicate Current(g: Grounding) { |g.evidence| == 1 && g.sources == g.evidence }

  // Searches

  /** The one admissible entry among those found, if it is the only one. */
  function Authorized(found: seq<Entry>, c: Setup): seq<Entry> {
    if |AdmittedOf(found, c)| == 1 then AdmittedOf(found, c) else []
  }

  function RoutingOf(admitted: seq<Entry>): Routing {
    if admitted == [] then NoCandidate else if |admitted| == 1 then SingleCandidate else Ambiguous
  }

  /** onOrdinaryKnowledgeRouting: only a single admissible entry is authorized. */
  function Routed(g: Grounding, found: seq<Entry>, c: Setup, early: bool): Grounding {
    var authorized := Authorized(found, c);
    g.(sources := authorized, evidence := authorized, verified := |authorized| == 1, settled := early,
       noEvidence := g.noEvidence || |authorized| != 1, routing := Some(RoutingOf(AdmittedOf(found, c))))
  }

  /** onKnowledgeEvidence, for an FAQ match, and the miss. */
  function FaqFound(g: Grounding, found: Option<Entry>, c: Setup): Grounding {
    if found.None? then g.(noEvidence := true, faqMiss := true)
    else
      var admitted := AdmittedOf([found.value], c);
      g.(routing := None, settled := false, sources := admitted, evidence := admitted, verified := admitted != [],
         noEvidence := g.noEvidence || admitted == [])
  }

  predicate Unchanged(check: Check) { check.sources == check.evidence }

  /** The evidence of a cached check. */
  function Recalled(g: Grounding, check: Check): Grounding {
    g.(sources := check.sources, evidence := check.evidence, routing := Some(check.routing),
      verified := |check.evidence| == 1,
       noEvidence := |check.evidence| != 1)
  }

  /** What a tool call meets: a search that fails or times out, one that returns, or another tool. */
  datatype Tool = Faq(match_: Option<Entry>)
    | Knowledge(query: Id, found: Option<seq<Entry>>, early: bool, expired: bool) | Other(fails: bool)

  /** A cached check is taken back, unless its entries changed since. */
  function Remembered(t: Turn, check: Check): Turn {
    if Unchanged(check) then t.(ground := Recalled(t.ground, check)) else t.(toolFailed := true)
  }

  /** executeKnowledge; a raw search that returns after the deadline has set the evidence but fails. */
  function Execute(t: Turn, c: Setup, query: Id, found: Option<seq<Entry>>, early: bool, expired: bool): Turn {
    if query in t.checks then Remembered(t, t.checks[query])
    else if found.None? then t.(toolFailed := true)
    else Searched(t, c, query, found.value, early, expired)
  }

  function Searched(t: Turn, c: Setup, query: Id, found: seq<Entry>, early: bool, expired: bool): Turn {
    var g := Routed(t.ground, found, c, early);
    if expired then Expired(t.(ground := g), c, false).(toolFailed := true)
    else if c.safetyRisk then t.(ground := g)
    else t.(ground := g, checks := t.checks[query := CheckOf(g, found, c)])
  }

  function CheckOf(g: Grounding, found: seq<Entry>, c: Setup): Check {
    Check(g.sources, g.evidence, RoutingOf(AdmittedOf(found, c)))
  }

  /** expireTurn; others stands for no tool running, no escalation and no reservation. */
  function Expired(t: Turn, c: Setup, others: bool): Turn {
    if t.aborted then t
    else t.(aborted := true, eligible := Settled(t.ground, c) && !t.toolFailed && !t.limitReached && others)
  }

  predicate Settled(g: Grounding, c: Setup) {
    !c.safetyRisk && g.verified && g.settled && Current(g) && g.routing == Some(SingleCandidate)
  }

  predicate Cached(t: Turn, tool: Tool) { tool.Knowledge? && tool.query in t.checks }

  function Executed(t: Turn, c: Setup, tool: Tool): Turn {
    match tool
    case Faq(found) => t.(ground := FaqFound(t.ground, found, c))
    case Knowledge(query, found, early, expired) => Execute(t, c, query, found, early, expired)
    case Other(fails) => t.(toolFailed := t.toolFailed || fails)
  }

  /** beforeToolCall and the tool it lets through; denied stands for the permission and duplicate checks. */
  function Called(t: Turn, c: Setup, tool: Tool, denied: bool): Turn {
    if t.aborted then t
    else
      var calls := CallsWith(t, tool);
      if calls > c.maxToolCalls then t.(toolCalls := calls, limitReached := true)
      else if denied && tool.Other? then t.(toolCalls := calls)
      else Executed(Started(t, tool), c, tool)
  }

  function CallsWith(t: Turn, tool: Tool): nat { if Cached(t, tool) then t.toolCalls else t.toolCalls + 1 }

  function Started(t: Turn, tool: Tool): Turn {
    t.(toolCalls := CallsWith(t, tool), executions := if Cached(t, tool) then t.executions else t.executions + 1)
  }

  /** The mutable locals of one run. */
  class TurnState {
    const setup: Setup
    var groundingSources: seq<Entry>
    var groundingEvidence: seq<Entry>
    var knowledgeRouting: Option<Routing>
    var verifiedKnowledgeEvidence: bool
    var noKnowledgeEvidence: bool
    var piFaqMiss: bool
    var evidenceSettled: bool
    var completedChecks: map<Id, Check>
    var toolCalls: nat
    ghost var executions: nat
    var limitReached: bool
    var toolFailed: bool
    var aborted: bool
    var deadlineEvidenceEligible: bool

    ghost function Ground(): Grounding
      reads this
    {
      Grounding(groundingSources, groundingEvidence, knowledgeRouting, verifiedKnowledgeEvidence, noKnowledgeEvidence,
        piFaqMiss,
                evidenceSettled)
    }

    ghost function State(): Turn
      reads this
    {
      Turn(Ground(), completedChecks, toolCalls, executions, limitReached, toolFailed, aborted,
        deadlineEvidenceEligible)
    }

    constructor (setup: Setup)
      ensures State() == Fresh && this.setup == setup
    {
      this.setup := setup;
      groundingSources, groundingEvidence, knowledgeRouting, verifiedKnowledgeEvidence := [], [], None, false;
      noKnowledgeEvidence, piFaqMiss, evidenceSettled, completedChecks, toolCalls := false, false, false, map[], 0;
      limitReached, toolFailed, aborted, deadlineEvidenceEligible := false, false, false, false;
      executions := 0;
    }

    method Filter(found: seq<Entry>) returns (admitted: seq<Entry>)
      ensures admitted == AdmittedOf(found, setup)
    {
      admitted := [];
      for i := 0 to |found|
        invariant admitted == AdmittedOf(found[..i], setup)
      {
        assert found[..i + 1][..i] == found[..i];
        if Admissible(found[i], setup) { admitted := admitted + [found[i]]; }
      }
      assert found[..|found|] == found;
    }

    method OnOrdinaryKnowledgeRouting(found: seq<Entry>, early: bool)
      modifies `groundingSources, `groundingEvidence, `knowledgeRouting, `verifiedKnowledgeEvidence,
        `noKnowledgeEvidence, `evidenceSettled
      ensures Ground() == Routed(old(Ground()), found, setup, early)
    {
      var admitted := Filter(found);
      knowledgeRouting :=
        Some(if |admitted| == 0 then NoCandidate else if |admitted| == 1 then SingleCandidate else Ambiguous);
      var authorized := if |admitted| == 1 then admitted else [];
      evidenceSettled := early;
      groundingSources, groundingEvidence := authorized, authorized;
      verifiedKnowledgeEvidence := |authorized| == 1;
      if !verifiedKnowledgeEvidence { noKnowledgeEvidence := true; }
    }

    method SearchFaq(found: Option<Entry>)
      modifies `groundingSources, `groundingEvidence, `knowledgeRouting, `verifiedKnowledgeEvidence,
        `noKnowledgeEvidence,
               `evidenceSettled, `piFaqMiss
      ensures Ground() == FaqFound(old(Ground()), found, setup)
    {
      if found.None? {
        noKnowledgeEvidence, piFaqMiss := true, true;
        return;
      }
      knowledgeRouting, evidenceSettled := None, false;
      groundingSources := Filter([found.value]);
      groundingEvidence := groundingSources;
      verifiedKnowledgeEvidence := |groundingEvidence| > 0;
      if !verifiedKnowledgeEvidence { noKnowledgeEvidence := true; }
    }

    method ExpireTurn(others: bool)
      modifies `aborted, `deadlineEvidenceEligible
      ensures State() == Expired(old(State()), setup, others)
    {
      if aborted {
        return;
      }
      deadlineEvidenceEligible := !setup.safetyRisk && verifiedKnowledgeEvidence && evidenceSettled
        && |groundingEvidence| == 1 && groundingSources == groundingEvidence
        && knowledgeRouting == Some(SingleCandidate)
        && !toolFailed && !limitReached && others;
      aborted := true;
    }

    /** The cached half of executeKnowledge. */
    method Recall(cached: Check)
      modifies `groundingSources, `groundingEvidence, `knowledgeRouting, `verifiedKnowledgeEvidence,
        `noKnowledgeEvidence, `toolFailed
      ensures State() == Remembered(old(State()), cached)
    {
      if cached.sources != cached.evidence {
        toolFailed := true;
        return;
      }
      groundingSources, groundingEvidence, knowledgeRouting := cached.sources, cached.evidence, Some(cached.routing);
      verifiedKnowledgeEvidence := |groundingEvidence| == 1;
      noKnowledgeEvidence := !verifiedKnowledgeEvidence;
    }

    method ExecuteKnowledge(query: Id, found: Option<seq<Entry>>, early: bool, expired: bool)
      modifies this
      ensures State() == Execute(old(State()), setup, query, found, early, expired)
    {
      if query in completedChecks {
        Recall(completedChecks[query]);
      } else if found.None? {
        toolFailed := true;
      } else {
        SearchKnowledge(query, found.value, early, expired);
      }
    }

    method SearchKnowledge(query: Id, found: seq<Entry>, early: bool, expired: bool)
      modifies this
      ensures State() == Searched(old(State()), setup, query, found, early, expired)
    {
      OnOrdinaryKnowledgeRouting(found, early);
      if expired {
        ExpireTurn(false);
        toolFailed := true;
        return;
      }
      if !setup.safetyRisk {
        completedChecks := completedChecks[query := Check(groundingSources, groundingEvidence, knowledgeRouting.value)];
        assert Ground() == Routed(old(Ground()), found, setup, early);
      }
    }

    method CallTool(tool: Tool, denied: bool)
      modifies this
      ensures State() == Called(old(State()), setup, tool, denied)
    {
      if aborted {
        return;
      }
      var cached := tool.Knowledge? && tool.query in completedChecks;
      if !cached { toolCalls := toolCalls + 1; }
      if toolCalls > setup.maxToolCalls {
        limitReached := true;
        return;
      }
      if denied && tool.Other? {
        return;
      }
      if !cached { executions := executions + 1; }
      assert State() == Started(old(State()), tool);
      ExecuteTool(tool);
    }

    method ExecuteTool(tool: Tool)
      modifies this
      ensures State() == Executed(old(State()), setup, tool)
    {
      match tool
      case Faq(found) => SearchFaq(found);
      case Knowledge(query, found, early, expired) => ExecuteKnowledge(query, found, early, expired);
      case Other(fails) => if fails { toolFailed := true; }
    }
  }

  datatype Event = Call(tool: Tool, denied: bool) | Expire(others: bool)
    | Mutate(sources: seq<Entry>, checks: map<Id, seq<Entry>>)

  /** Someone changes the entries that the turn still refers to; snapshots are copies. */
  function Mutated(t: Turn, sources: seq<Entry>, checks: map<Id, seq<Entry>>): Turn {
    t.(ground := t.ground.(sources := sources),
      checks := map q | q in t.checks :: if q in checks then t.checks[q].(sources := checks[q]) else t.checks[q])
  }

  function Apply(t: Turn, c: Setup, e: Event): Turn {
    match e
    case Call(tool, denied) => Called(t, c, tool, denied)
    case Expire(others) => Expired(t, c, others)
    case Mutate(sources, checks) => Mutated(t, sources, checks)
  }

  function Run(c: Setup, events: seq<Event>): Turn {
    if events == [] then Fresh else Apply(Run(c, events[..|events| - 1]), c, events[|events| - 1])
  }

  // The outcome cascade

  datatype Disposition = Escalate | Supported | Paused

  /** What else the cascade looks at: handoffFails is a safety handoff that could not be stored, ticketed a ticket
  under a key of this run when only the policy had searched, and answers an agent's text that may be sent without
  evidence. */
  datatype Ending = Ending(
    disposition: Option<Disposition>, handoffFails: bool, escalated: bool, requiresEscalation: bool, ticketed: bool,
    answers: bool)

  datatype Outcome = Answer | Fallback | Escalation

  /** texts is what an evidence answer is made of; any other text comes from elsewhere. */
  datatype Result = Result(outcome: Outcome, texts: seq<Id>, evidence: seq<Reference>)

  function Texts(entries: seq<Entry>): seq<Id> { seq(|entries|, i requires 0 <= i < |entries| => entries[i].text) }

  function Cascade(t: Turn, e: Ending): Result {
    var cited := Result(Answer, Texts(t.ground.evidence), References(t.ground.evidence));
    var fallback := Result(Fallback, [], []);
    if t.aborted then if t.eligible then cited else fallback
    else if t.limitReached then fallback
    else if e.disposition == Some(Escalate) then if e.handoffFails then fallback else Result(Escalation, [], [])
    else if e.disposition == Some(Supported) then Result(Answer, [], [])
    else if e.escalated then Result(Escalation, [], [])
    else if e.requiresEscalation || t.toolFailed then fallback
    else if t.ground.verified && !Current(t.ground) then fallback
    else if t.ground.verified then cited
    else if t.ground.noEvidence && !(!t.ground.faqMiss && e.ticketed) then fallback
    else if e.answers then Result(Answer, [], []) else fallback
  }

  // Invariants

  /** The evidence is the snapshot of one admissible entry, or nothing. */
  predicate EvidenceOk(entries: seq<Entry>, c: Setup) {
    |entries| <= 1 && forall i :: 0 <= i < |entries| ==> Admissible(entries[i], c)
  }

  predicate GroundOk(g: Grounding, c: Setup) { EvidenceOk(g.evidence, c) && (g.verified <==> |g.evidence| == 1) }

  ghost predicate TurnOk(t: Turn, c: Setup) {
    && GroundOk(t.ground, c)
    && (forall q :: q in t.checks ==> EvidenceOk(t.checks[q].evidence, c))
    && t.executions <= t.toolCalls && t.executions <= c.maxToolCalls
    && (t.eligible ==> t.aborted && t.ground.verified)
  }

  lemma {:induction false} AdmittedAre(entries: seq<Entry>, c: Setup)
    ensures forall i :: 0 <= i < |AdmittedOf(entries, c)| ==> Admissible(AdmittedOf(entries, c)[i], c)
    ensures |AdmittedOf(entries, c)| <= |entries|
  {
    if entries != [] { AdmittedAre(entries[..|entries| - 1], c); }
  }

  lemma RoutedOk(g: Grounding, found: seq<Entry>, c: Setup, early: bool)
    ensures GroundOk(Routed(g, found, c, early), c)
  {
    AdmittedAre(found, c);
  }

  lemma FaqOk(g: Grounding, found: Option<Entry>, c: Setup)
    requires GroundOk(g, c)
    ensures GroundOk(FaqFound(g, found, c), c)
  {
    if found.Some? { AdmittedAre([found.value], c); }
  }

  lemma GroundedOk(t: Turn, c: Setup, g: Grounding)
    requires TurnOk(t, c) && !t.aborted && GroundOk(g, c)
    ensures TurnOk(t.(ground := g), c)
  {
  }

  lemma RememberedOk(t: Turn, c: Setup, check: Check)
    requires TurnOk(t, c) && !t.aborted && EvidenceOk(check.evidence, c)
    ensures TurnOk(Remembered(t, check), c)
  {
    if Unchanged(check) { GroundedOk(t, c, Recalled(t.ground, check)); }
  }

  lemma ExpiredOk(t: Turn, c: Setup, others: bool)
    requires TurnOk(t, c)
    ensures TurnOk(Expired(t, c, others), c)
  {
  }

  lemma SearchedOk(t: Turn, c: Setup, query: Id, found: seq<Entry>, early: bool, expired: bool)
    requires TurnOk(t, c) && !t.aborted
    ensures TurnOk(Searched(t, c, query, found, early, expired), c)
  {
    var g := Routed(t.ground, found, c, early);
    RoutedOk(t.ground, found, c, early);
    GroundedOk(t, c, g);
    if expired { ExpiredOk(t.(ground := g), c, false); }
  }

  lemma ExecuteOk(t: Turn, c: Setup, query: Id, found: Option<seq<Entry>>, early: bool, expired: bool)
    requires TurnOk(t, c) && !t.aborted
    ensures TurnOk(Execute(t, c, query, found, early, expired), c)
  {
    if query in t.checks {
      RememberedOk(t, c, t.checks[query]);
    } else if found.Some? {
      SearchedOk(t, c, query, found.value, early, expired);
    }
  }

  lemma ExecutedOk(t: Turn, c: Setup, tool: Tool)
    requires TurnOk(t, c) && !t.aborted
    ensures TurnOk(Executed(t, c, tool), c)
  {
    match tool
    case Faq(found) =>
      FaqOk(t.ground, found, c);
      GroundedOk(t, c, FaqFound(t.ground, found, c));
    case Knowledge(query, found, early, expired) => ExecuteOk(t, c, query, found, early, expired);
    case Other(_) =>
  }

  lemma StartedOk(t: Turn, c: Setup, tool: Tool)
    requires TurnOk(t, c) && CallsWith(t, tool) <= c.maxToolCalls
    ensures TurnOk(Started(t, tool), c)
  {
  }

  lemma CalledOk(t: Turn, c: Setup, tool: Tool, denied: bool)
    requires TurnOk(t, c)
    ensures TurnOk(Called(t, c, tool, denied), c)
  {
    if !t.aborted && CallsWith(t, tool) <= c.maxToolCalls {
      StartedOk(t, c, tool);
      ExecutedOk(Started(t, tool), c, tool);
    }
  }

  lemma {:induction false} RunOk(c: Setup, events: seq<Event>)
    ensures TurnOk(Run(c, events), c)
  {
    if events != [] {
      RunOk(c, events[..|events| - 1]);
      var t := Run(c, events[..|events| - 1]);
      match events[|events| - 1]
      case Call(tool, denied) => CalledOk(t, c, tool, denied);
      case Expire(others) =>
      case Mutate(sources, checks) =>
    }
  }

  /** For every sequence of tool calls, a turn never runs more uncached tools than it may. */
  lemma ToolBudget(c: Setup, events: seq<Event>)
    ensures Run(c, events).executions <= c.maxToolCalls
  {
    RunOk(c, events);
  }

  /** The event is a search that sets the evidence: an FAQ match, a completed search, or an unchanged cached one. */
  predicate Sets(t: Turn, c: Setup, e: Event) {
    && e.Call? && !t.aborted
    && CallsWith(t, e.tool) <= c.maxToolCalls
    && SetsEvidence(t, e.tool)
  }

  predicate SetsEvidence(t: Turn, tool: Tool) {
    match tool
    case Faq(found) => found.Some?
    case Knowledge(query, found, _, _) => if query in t.checks then Unchanged(t.checks[query]) else found.Some?
    case Other(_) => false
  }

  lemma MissedSearchKeeps(t: Turn, c: Setup, query: Id, found: Option<seq<Entry>>, early: bool, expired: bool)
    requires if query in t.checks then !Unchanged(t.checks[query]) else found.None?
    ensures Execute(t, c, query, found, early, expired).ground == t.ground
  {
  }

  lemma ExecutedKeeps(t: Turn, c: Setup, tool: Tool)
    requires !SetsEvidence(t, tool)
    ensures Executed(t, c, tool).ground.evidence == t.ground.evidence
    ensures Executed(t, c, tool).ground.sources == t.ground.sources
  {
    match tool
    case Faq(found) =>
    case Knowledge(query, found, early, expired) => MissedSearchKeeps(t, c, query, found, early, expired);
    case Other(fails) =>
  }

  lemma OnlySearchesSet(t: Turn, c: Setup, e: Event)
    requires !Sets(t, c, e)
    ensures Apply(t, c, e).ground.evidence == t.ground.evidence
    ensures !e.Mutate? ==> Apply(t, c, e).ground.sources == t.ground.sources
  {
    if e.Call? && !t.aborted && CallsWith(t, e.tool) <= c.maxToolCalls { ExecutedKeeps(Started(t, e.tool), c, e.tool); }
  }

  // The evidence, read off the calls and what they found

  /** The event completes the first search for the query in time, so that its check is kept. */
  predicate Completes(t: Turn, c: Setup, e: Event, query: Id) {
    && e.Call? && !t.aborted && CallsWith(t, e.tool) <= c.maxToolCalls
    && e.tool.Knowledge? && e.tool.query == query && query !in t.checks && e.tool.found.Some? && !e.tool.expired
    && !c.safetyRisk
  }

  /** What the completed search for a query authorized. */
  function CheckedFor(c: Setup, events: seq<Event>, query: Id): seq<Entry> {
    if events == [] then []
    else
      var e := events[|events| - 1];
      if Completes(Run(c, events[..|events| - 1]), c, e, query) then Authorized(e.tool.found.value, c)
      else CheckedFor(c, events[..|events| - 1], query)
  }

  /** What the latest search that set the evidence authorized, out of the entries it found. */
  function Latest(c: Setup, events: seq<Event>): seq<Entry> {
    if events == [] then []
    else
      var init, e := events[..|events| - 1], events[|events| - 1];
      if !Sets(Run(c, init), c, e) then Latest(c, init)
      else
        match e.tool
        case Faq(found) => if found.Some? then AdmittedOf([found.value], c) else []
        case Knowledge(query, found, _, _) =>
          if query in Run(c, init).checks then CheckedFor(c, init, query)
          else if found.Some? then Authorized(found.value, c) else []
        case Other(_) => []
  }

  lemma SearchedSets(t: Turn, c: Setup, query: Id, found: seq<Entry>, early: bool, expired: bool)
    ensures Searched(t, c, query, found, early, expired).ground == Routed(t.ground, found, c, early)
    ensures Searched(t, c, query, found, early, expired).checks
         == if expired || c.safetyRisk then t.checks
           else t.checks[query := CheckOf(Routed(t.ground, found, c, early), found, c)]
  {
  }

  /** What a call leaves in the cache for a query: a completed search adds its check, and no other is replaced. */
  lemma ExecutedChecks(t: Turn, c: Setup, tool: Tool)
    ensures Executed(t, c, tool).checks
         == if tool.Knowledge? && tool.query !in t.checks && tool.found.Some? && !tool.expired && !c.safetyRisk
            then t.checks[tool.query := CheckOf(Routed(t.ground, tool.found.value, c, tool.early), tool.found.value, c)]
              else t.checks
  {
    if tool.Knowledge? && tool.query !in t.checks && tool.found.Some? {
      SearchedSets(t, c, tool.query, tool.found.value, tool.early, tool.expired);
    }
  }

  /** A check keeps the evidence it was completed with, and only a completed search adds one. */
  lemma CheckStep(t: Turn, c: Setup, e: Event, query: Id)
    requires query in Apply(t, c, e).checks
    ensures Completes(t, c, e, query) ==> Apply(t, c, e).checks[query].evidence == Authorized(e.tool.found.value, c)
    ensures !Completes(t, c, e, query)
      ==> query in t.checks && Apply(t, c, e).checks[query].evidence == t.checks[query].evidence
  {
    if e.Call? && !t.aborted && CallsWith(t, e.tool) <= c.maxToolCalls && !(e.denied && e.tool.Other?) {
      StartedSame(t, e.tool);
      ExecutedChecks(Started(t, e.tool), c, e.tool);
    }
  }

  lemma {:induction false} ChecksAreKept(c: Setup, events: seq<Event>, query: Id)
    requires query in Run(c, events).checks
    ensures Run(c, events).checks[query].evidence == CheckedFor(c, events, query)
  {
    var init, e := events[..|events| - 1], events[|events| - 1];
    CheckStep(Run(c, init), c, e, query);
    if !Completes(Run(c, init), c, e, query) { ChecksAreKept(c, init, query); }
  }

  /** The evidence a search sets: from its cache, or from what it found. */
  function SetBy(t: Turn, c: Setup, tool: Tool): seq<Entry> {
    match tool
    case Faq(found) => if found.Some? then AdmittedOf([found.value], c) else []
    case Knowledge(query, found, _, _) =>
      if query in t.checks then t.checks[query].evidence else if found.Some? then Authorized(found.value, c) else []
    case Other(_) => []
  }

  lemma ExecutedSets(t: Turn, c: Setup, tool: Tool)
    requires SetsEvidence(t, tool)
    ensures Executed(t, c, tool).ground.evidence == SetBy(t, c, tool)
  {
    if tool.Knowledge? && tool.query !in t.checks {
      SearchedSets(t, c, tool.query, tool.found.value, tool.early, tool.expired);
    }
  }

  lemma StartedSame(t: Turn, tool: Tool)
    ensures Started(t, tool).checks == t.checks && Started(t, tool).ground == t.ground
    ensures SetsEvidence(Started(t, tool), tool) == SetsEvidence(t, tool)
  {
  }

  lemma {:induction false} EvidenceIsLatest(c: Setup, events: seq<Event>)
    ensures Run(c, events).ground.evidence == Latest(c, events)
  {
    if events != [] {
      var init, e := events[..|events| - 1], events[|events| - 1];
      var before := Run(c, init);
      EvidenceIsLatest(c, init);
      if Sets(before, c, e) {
        StartedSame(before, e.tool);
        ExecutedSets(Started(before, e.tool), c, e.tool);
        if e.tool.Knowledge? && e.tool.query in before.checks { ChecksAreKept(c, init, e.tool.query); }
      } else {
        OnlySearchesSet(before, c, e);
      }
    }
  }

  /** The entries that a call's search returned. */
  function FoundBy(e: Event): seq<Entry> {
    if !e.Call? then []
    else
      match e.tool
      case Faq(found) => if found.Some? then [found.value] else []
      case Knowledge(_, found, _, _) => if found.Some? then found.value else []
      case Other(_) => []
  }

  predicate WasFound(events: seq<Event>, entry: Entry) { exists i :: 0 <= i < |events| && entry in FoundBy(events[i]) }

  lemma {:induction false} AdmittedAmong(entries: seq<Entry>, c: Setup)
    ensures forall e :: e in AdmittedOf(entries, c) ==> e in entries
  {
    if entries != [] {
      AdmittedAmong(entries[..|entries| - 1], c);
      TakeNext(entries, |entries| - 1);
      TakeAll(entries);
    }
  }

  lemma FoundEarlier(events: seq<Event>, n: nat, entry: Entry)
    requires n <= |events| && WasFound(events[..n], entry)
    ensures WasFound(events, entry)
  {
    var i :| 0 <= i < n && entry in FoundBy(events[..n][i]);
    assert entry in FoundBy(events[i]);
  }

  lemma FoundLast(c: Setup, events: seq<Event>, found: seq<Entry>, entry: Entry)
    requires events != [] && FoundBy(events[|events| - 1]) == found && entry in AdmittedOf(found, c)
    ensures WasFound(events, entry)
  {
    AdmittedAmong(found, c);
  }

  lemma {:induction false} CheckedWasFound(c: Setup, events: seq<Event>, query: Id, entry: Entry)
    requires entry in CheckedFor(c, events, query)
    ensures WasFound(events, entry)
  {
    var init, e := events[..|events| - 1], events[|events| - 1];
    if Completes(Run(c, init), c, e, query) {
      FoundLast(c, events, e.tool.found.value, entry);
    } else {
      CheckedWasFound(c, init, query, entry);
      FoundEarlier(events, |init|, entry);
    }
  }

  lemma {:induction false} LatestWasFound(c: Setup, events: seq<Event>, entry: Entry)
    requires entry in Latest(c, events)
    ensures WasFound(events, entry)
  {
    var init, e := events[..|events| - 1], events[|events| - 1];
    if !Sets(Run(c, init), c, e) {
      LatestWasFound(c, init, entry);
      FoundEarlier(events, |init|, entry);
    } else if e.tool.Knowledge? && e.tool.query in Run(c, init).checks {
      CheckedWasFound(c, init, e.tool.query, entry);
      FoundEarlier(events, |init|, entry);
    } else {
      FoundLast(c, events, FoundBy(e), entry);
    }
  }

  // What may be cited, read off the entry

  /** Approved knowledge, or a test fixture where these are allowed, of no scope or of the request's own. */
  predicate Citable(e: Entry, c: Setup) {
    match e.knowledge
    case None => false
    case Some(k) =>
      && (k.tenantScope.None? || k.tenantScope == Some(c.tenant))
      && (k.storeScope.None? || k.storeScope == Some(c.store))
      && (match k.status
          case Approved => true
          case SyntheticTestOnly => c.allowSynthetic
          case Unapproved => false
          case RetiredStatus => false)
  }

  /** The i-th entry found is the only one that may be cited. */
  ghost predicate Lone(found: seq<Entry>, c: Setup, i: nat) {
    i < |found| && Citable(found[i], c) && forall k :: 0 <= k < |found| && Citable(found[k], c) ==> k == i
  }

  lemma {:induction false} AdmittedNone(found: seq<Entry>, c: Setup)
    ensures AdmittedOf(found, c) == [] <==> forall k :: 0 <= k < |found| ==> !Citable(found[k], c)
  {
    if found != [] {
      var n := |found| - 1;
      AdmittedNone(found[..n], c);
      assert forall k :: 0 <= k < n ==> found[..n][k] == found[k];
    }
  }

  lemma {:induction false} AdmittedLone(found: seq<Entry>, c: Setup, i: nat)
    requires Lone(found, c, i)
    ensures AdmittedOf(found, c) == [found[i]]
  {
    var n := |found| - 1;
    if i == n {
      AdmittedNone(found[..n], c);
    } else {
      AdmittedLone(found[..n], c, i);
    }
  }

  lemma {:induction false} OneAdmittedIsLone(found: seq<Entry>, c: Setup) returns (i: nat)
    requires |AdmittedOf(found, c)| == 1
    ensures Lone(found, c, i)
  {
    var n := |found| - 1;
    if Citable(found[n], c) {
      i := n;
      AdmittedNone(found[..n], c);
      assert forall k :: 0 <= k < n ==> found[..n][k] == found[k];
    } else {
      i := OneAdmittedIsLone(found[..n], c);
      assert forall k :: 0 <= k < n ==> found[..n][k] == found[k];
    }
  }

  /** A search authorizes an entry exactly if it is the only one found that may be cited; two of them rule each other
  out, whatever else was found. */
  lemma AuthorizedExactly(found: seq<Entry>, c: Setup)
    ensures forall i: nat :: Lone(found, c, i) ==> Authorized(found, c) == [found[i]]
    ensures (forall i: nat :: !Lone(found, c, i)) ==> Authorized(found, c) == []
    ensures RoutingOf(AdmittedOf(found, c)).SingleCandidate? <==> exists i: nat :: Lone(found, c, i)
    ensures RoutingOf(AdmittedOf(found, c)).NoCandidate? <==> forall k :: 0 <= k < |found| ==> !Citable(found[k], c)
  {
    forall i: nat | Lone(found, c, i) ensures AdmittedOf(found, c) == [found[i]] {
      AdmittedLone(found, c, i);
    }
    if |AdmittedOf(found, c)| == 1 { var i := OneAdmittedIsLone(found, c); }
    AdmittedNone(found, c);
  }

  /** An FAQ match is authorized exactly if it may be cited. */
  lemma MatchExactly(entry: Entry, c: Setup)
    ensures AdmittedOf([entry], c) == if Citable(entry, c) then [entry] else []
  {
    assert [entry][..0] == [];
  }

  /** Whatever the agent does and however entries change, an answer that cites evidence cites exactly one reference,
  to approved knowledge (or an allowed fixture) of no scope or of the request's own tenant and store; its text is that
  entry's text as a search of this turn returned it, and the entry is all that the latest evidence-setting search
  authorized. */
  lemma CitedAnswersAreGrounded(c: Setup, events: seq<Event>, e: Ending) returns (entry: Entry)
    requires Cascade(Run(c, events), e).evidence != []
    ensures Latest(c, events) == [entry] && WasFound(events, entry)
    ensures entry.knowledge.Some?
            && var k := entry.knowledge.value;
               && (k.tenantScope.Some? ==> k.tenantScope.value == c.tenant)
               && (k.storeScope.Some? ==> k.storeScope.value == c.store)
               && (k.status.Approved? || (c.allowSynthetic && k.status.SyntheticTestOnly?))
    ensures var r := Cascade(Run(c, events), e);
            && r.outcome.Answer? && |r.evidence| == 1 && r.texts == [entry.text]
            && r.evidence[0] == Reference(entry.id, entry.knowledge.value.version, entry.knowledge.value.sourceRef,
                 entry.knowledge.value.kind)
  {
    var g := Run(c, events).ground;
    RunOk(c, events);
    EvidenceIsLatest(c, events);
    assert g.evidence != [];
    entry := g.evidence[0];
    assert g.evidence == [entry] && References(g.evidence[..0]) == [];
    LatestWasFound(c, events, entry);
  }

  /** How the entries that the turn refers to read now: as the latest evidence-setting search found them, unless someone
  changed them since. */
  function ReadNow(c: Setup, events: seq<Event>): seq<Entry> {
    if events == [] then []
    else
      var init, e := events[..|events| - 1], events[|events| - 1];
      if e.Mutate? then e.sources else if Sets(Run(c, init), c, e) then Latest(c, events) else ReadNow(c, init)
  }

  lemma SearchReadsBoth(t: Turn, c: Setup, tool: Tool)
    requires SetsEvidence(t, tool)
    ensures Executed(t, c, tool).ground.sources == Executed(t, c, tool).ground.evidence
  {
    if tool.Knowledge? && tool.query !in t.checks {
      SearchedSets(t, c, tool.query, tool.found.value, tool.early, tool.expired);
    }
  }

  lemma {:induction false} SourcesAreReadNow(c: Setup, events: seq<Event>)
    ensures Run(c, events).ground.sources == ReadNow(c, events)
  {
    if events != [] {
      var init, e := events[..|events| - 1], events[|events| - 1];
      var before := Run(c, init);
      SourcesAreReadNow(c, init);
      if e.Call? && Sets(before, c, e) {
        StartedSame(before, e.tool);
        SearchReadsBoth(Started(before, e.tool), c, e.tool);
        EvidenceIsLatest(c, events);
      } else {
        OnlySearchesSet(before, c, e);
      }
    }
  }

  /** An answer in time cites an entry only while it still reads as the latest evidence-setting search found it: any
  change since has left it the same; and only if no tool failed and no limit was hit. */
  lemma CitedInTimeIsCurrent(c: Setup, events: seq<Event>, e: Ending)
    requires Cascade(Run(c, events), e).evidence != [] && !Run(c, events).aborted
    ensures ReadNow(c, events) == Latest(c, events) && !Run(c, events).toolFailed && !Run(c, events).limitReached
  {
    RunOk(c, events);
    SourcesAreReadNow(c, events);
    EvidenceIsLatest(c, events);
  }

  // The outcome, read off the flags

  /** The turn ends with its evidence: in time, with nothing in the way and the snapshot still current; or after the
  deadline, if that had been settled before. */
  predicate Cites(t: Turn, e: Ending) {
    if t.aborted then t.eligible
    else && !t.limitReached && !t.toolFailed && !e.escalated && !e.requiresEscalation
         && e.disposition != Some(Escalate) && e.disposition != Some(Supported)
         && t.ground.verified && |t.ground.evidence| == 1 && t.ground.sources == t.ground.evidence
  }

  /** It ends with the agent's own words: nothing was verified, and the knowledge base missed nothing, or only what a
  ticket was then created for. */
  predicate Speaks(t: Turn, e: Ending) {
    && !t.aborted && !t.limitReached && !t.toolFailed && !e.escalated && !e.requiresEscalation
    && e.disposition != Some(Escalate) && e.disposition != Some(Supported)
    && !t.ground.verified && e.answers
    && (t.ground.noEvidence ==> !t.ground.faqMiss && e.ticketed)
  }

  predicate Escalates(t: Turn, e: Ending) {
    && !t.aborted && !t.limitReached
    && ((e.disposition == Some(Escalate) && !e.handoffFails)
        || (e.escalated && e.disposition != Some(Escalate) && e.disposition != Some(Supported)))
  }

  /** Each way to end has its reason, and only one of them cites anything. */
  predicate Concluded(t: Turn, e: Ending, r: Result) {
    && (r.outcome.Escalation? <==> Escalates(t, e))
    && (r.outcome.Answer? <==>
          || Cites(t, e) || Speaks(t, e)
          || (!t.aborted && !t.limitReached && e.disposition == Some(Supported)))
    && (if Cites(t, e) then r.texts == Texts(t.ground.evidence) && r.evidence == References(t.ground.evidence)
        else r.texts == [] && r.evidence == [])
  }

  lemma CascadeIsExact(t: Turn, e: Ending)
    ensures Concluded(t, e, Cascade(t, e))
  {
  }

  /** Whether the call is let through to its tool. */
  predicate Runs(t: Turn, c: Setup, e: Event) {
    && e.Call? && !t.aborted && !(e.denied && e.tool.Other?)
    && (if Recalls(t, e.tool) then t.toolCalls else t.toolCalls + 1) <= c.maxToolCalls
  }

  predicate Recalls(t: Turn, tool: Tool) { tool.Knowledge? && tool.query in t.checks }

  /** The tool fails: a search that fails or comes too late, a remembered one whose entries changed, or another tool. */
  predicate ToolFails(t: Turn, tool: Tool) {
    match tool
    case Faq(_) => false
    case Knowledge(query, found, _, expired) =>
      if query in t.checks then t.checks[query].sources != t.checks[query].evidence else found.None? || expired
    case Other(fails) => fails
  }

  predicate Fails(t: Turn, c: Setup, e: Event) { Runs(t, c, e) && ToolFails(t, e.tool) }

  /** A search that returns after the deadline. */
  predicate ToolExpires(t: Turn, tool: Tool) {
    tool.Knowledge? && tool.query !in t.checks && tool.found.Some? && tool.expired
  }

  /** The deadline passes: by itself, or found passed by a search that returns. */
  predicate Expires(t: Turn, c: Setup, e: Event) {
    !t.aborted && (e.Expire? || (Runs(t, c, e) && ToolExpires(t, e.tool)))
  }

  /** A call that the cache does not answer. */
  predicate Spends(t: Turn, e: Event) { e.Call? && !t.aborted && !Recalls(t, e.tool) }

  /** What must have been settled for an answer after the deadline. */
  predicate SettledAt(t: Turn, c: Setup, e: Event) {
    && !t.aborted && e.Expire? && e.others && !c.safetyRisk && !t.toolFailed && !t.limitReached
    && t.ground.verified && t.ground.settled && t.ground.routing == Some(SingleCandidate)
    && |t.ground.evidence| == 1 && t.ground.sources == t.ground.evidence
  }

  predicate Misses(t: Turn, c: Setup, e: Event) { Runs(t, c, e) && e.tool == Faq(None) }

  /** The n-th event, and the turn it met. */
  function TurnAt(c: Setup, events: seq<Event>, n: nat): Turn
    requires n <= |events|
  {
    Run(c, events[..n])
  }

  lemma TurnStep(c: Setup, events: seq<Event>, n: nat)
    requires n < |events|
    ensures TurnAt(c, events, n + 1) == Apply(TurnAt(c, events, n), c, events[n])
  {
    assert events[..n + 1][..n] == events[..n];
  }

  lemma SearchFlags(t: Turn, c: Setup, query: Id, found: seq<Entry>, early: bool, expired: bool)
    requires !t.aborted
    ensures var n := Searched(t, c, query, found, early, expired);
            && (n.toolFailed <==> t.toolFailed || expired) && (n.aborted <==> expired)
            && n.eligible == (t.eligible && !expired)
            && n.ground.faqMiss == t.ground.faqMiss && n.toolCalls == t.toolCalls && n.limitReached == t.limitReached
  {
  }

  /** What a tool that is let through does to the flags. */
  lemma ExecutedFlags(t: Turn, c: Setup, tool: Tool)
    requires !t.aborted
    ensures var n := Executed(t, c, tool);
            && (n.toolFailed <==> t.toolFailed || ToolFails(t, tool))
            && (n.aborted <==> ToolExpires(t, tool))
            && n.eligible == (t.eligible && !ToolExpires(t, tool))
            && (n.ground.faqMiss <==> t.ground.faqMiss || tool == Faq(None))
            && n.toolCalls == t.toolCalls && n.limitReached == t.limitReached
  {
    if tool.Knowledge? && tool.query !in t.checks && tool.found.Some? {
      SearchFlags(t, c, tool.query, tool.found.value, tool.early, tool.expired);
    }
  }

  /** What one event does to the flags. */
  lemma FlagStep(t: Turn, c: Setup, e: Event)
    ensures Flagged(t, c, e, Apply(t, c, e))
  {
    if Runs(t, c, e) {
      ExecutedFlags(Started(t, e.tool), c, e.tool);
    }
  }

  predicate Flagged(t: Turn, c: Setup, e: Event, n: Turn) {
    && (n.toolFailed <==> t.toolFailed || Fails(t, c, e))
    && (n.aborted <==> t.aborted || Expires(t, c, e))
    && (n.eligible <==> (t.eligible && !Expires(t, c, e)) || SettledAt(t, c, e))
    && (n.ground.faqMiss <==> t.ground.faqMiss || Misses(t, c, e))
    && n.toolCalls == t.toolCalls + (if Spends(t, e) then 1 else 0)
    && (n.limitReached <==> t.limitReached || (e.Call? && !t.aborted && n.toolCalls > c.maxToolCalls))
  }

  lemma FlagsAt(c: Setup, events: seq<Event>, n: nat)
    requires n < |events|
    ensures Flagged(TurnAt(c, events, n), c, events[n], TurnAt(c, events, n + 1))
    ensures TurnAt(c, events, n).eligible ==> TurnAt(c, events, n).aborted
  {
    TurnStep(c, events, n);
    FlagStep(TurnAt(c, events, n), c, events[n]);
    RunOk(c, events[..n]);
  }

  lemma {:induction false} FailedExactly(c: Setup, events: seq<Event>, n: nat)
    requires n <= |events|
    ensures TurnAt(c, events, n).toolFailed <==> exists i :: 0 <= i < n && Fails(TurnAt(c, events, i), c, events[i])
  {
    if n > 0 {
      FailedExactly(c, events, n - 1);
      FlagsAt(c, events, n - 1);
    }
  }

  lemma {:induction false} ExpiredExactly(c: Setup, events: seq<Event>, n: nat)
    requires n <= |events|
    ensures TurnAt(c, events, n).aborted <==> exists i :: 0 <= i < n && Expires(TurnAt(c, events, i), c, events[i])
  {
    if n > 0 {
      ExpiredExactly(c, events, n - 1);
      FlagsAt(c, events, n - 1);
    }
  }

  predicate SettledBy(c: Setup, events: seq<Event>, i: nat)
    requires i < |events|
  {
    SettledAt(TurnAt(c, events, i), c, events[i])
  }

  lemma EligibleAt(c: Setup, events: seq<Event>, n: nat)
    requires n < |events|
    ensures TurnAt(c, events, n + 1).eligible <==>
              TurnAt(c, events, n).eligible || SettledBy(c, events, n)
  {
    FlagsAt(c, events, n);
  }

  lemma {:induction false} EligibleExactly(c: Setup, events: seq<Event>, n: nat)
    requires n <= |events|
    ensures TurnAt(c, events, n).eligible <==> exists i :: 0 <= i < n && SettledBy(c, events, i)
  {
    if n > 0 {
      EligibleExactly(c, events, n - 1);
      EligibleAt(c, events, n - 1);
    }
  }

  lemma {:induction false} MissedExactly(c: Setup, events: seq<Event>, n: nat)
    requires n <= |events|
    ensures TurnAt(c, events, n).ground.faqMiss <==>
              exists i :: 0 <= i < n && Misses(TurnAt(c, events, i), c, events[i])
  {
    if n > 0 {
      MissedExactly(c, events, n - 1);
      FlagsAt(c, events, n - 1);
    }
  }

  lemma {:induction false} LimitExactly(c: Setup, events: seq<Event>, n: nat)
    requires n <= |events|
    ensures TurnAt(c, events, n).toolCalls == |Spent(c, events, n)|
    ensures TurnAt(c, events, n).limitReached <==> |Spent(c, events, n)| > c.maxToolCalls
  {
    if n > 0 {
      LimitExactly(c, events, n - 1);
      FlagsAt(c, events, n - 1);
      SpentStep(c, events, n - 1);
    }
  }

  /** A flag is set exactly if some event set it: the turn failed if a tool did, is over if the deadline passed or was
  found passed, missed the FAQ if a search did, and hit its limit if it asked for more uncached tools than it may. */
  lemma FlagsAreExact(c: Setup, events: seq<Event>)
    ensures var t := Run(c, events);
            && (t.toolFailed <==> exists i :: 0 <= i < |events| && Fails(TurnAt(c, events, i), c, events[i]))
            && (t.aborted <==> exists i :: 0 <= i < |events| && Expires(TurnAt(c, events, i), c, events[i]))
            && (t.eligible <==> exists i :: 0 <= i < |events| && SettledBy(c, events, i))
            && (t.ground.faqMiss <==> exists i :: 0 <= i < |events| && Misses(TurnAt(c, events, i), c, events[i]))
            && (t.limitReached <==> |Spent(c, events, |events|)| > c.maxToolCalls)
  {
    TakeAll(events);
    FailedExactly(c, events, |events|);
    ExpiredExactly(c, events, |events|);
    EligibleExactly(c, events, |events|);
    MissedExactly(c, events, |events|);
    LimitExactly(c, events, |events|);
  }

  lemma SpentStep(c: Setup, events: seq<Event>, n: nat)
    requires n < |events|
    ensures |Spent(c, events, n + 1)| == |Spent(c, events, n)| + if SpendsAt(c, events, n) then 1 else 0
  {
    GrowsBy(Spent(c, events, n), Spent(c, events, n + 1), n, SpendsAt(c, events, n));
  }

  predicate SpendsAt(c: Setup, events: seq<Event>, i: nat)
    requires i < |events|
  {
    Spends(TurnAt(c, events, i), events[i])
  }

  /** The calls of a turn that is not over, but for those that its cache answers. */
  function Spent(c: Setup, events: seq<Event>, n: nat): set<nat>
    requires n <= |events|
  {
    set i: nat | i < n && SpendsAt(c, events, i)
  }

  // Where the evidence comes from, and whether the knowledge base failed to answer

  /** The latest evidence-setting search was one of the knowledge base, not an FAQ match. */
  predicate SearchedLast(c: Setup, events: seq<Event>) {
    if events == [] then false
    else
      var t, e := Run(c, events[..|events| - 1]), events[|events| - 1];
      if Sets(t, c, e) then e.tool.Knowledge? else SearchedLast(c, events[..|events| - 1])
  }

  /** The latest search that was not answered from the cache came early enough to be settled. */
  predicate SettledEarly(c: Setup, events: seq<Event>) {
    if events == [] then false
    else
      var t, e := Run(c, events[..|events| - 1]), events[|events| - 1];
      if Sets(t, c, e) && !Recalls(t, e.tool) then e.tool.Knowledge? && e.tool.early
      else SettledEarly(c, events[..|events| - 1])
  }

  /** A search without an answer: a missed FAQ, or one that leaves no evidence. */
  predicate Blanks(t: Turn, c: Setup, e: Event) {
    Misses(t, c, e) || (Sets(t, c, e) && SetBy(t, c, e.tool) == [])
  }

  /** A remembered search with evidence takes the blank back. */
  predicate Restores(t: Turn, c: Setup, e: Event) {
    Sets(t, c, e) && Recalls(t, e.tool) && SetBy(t, c, e.tool) != []
  }

  predicate BlankAt(c: Setup, events: seq<Event>) {
    if events == [] then false
    else
      var t, e := Run(c, events[..|events| - 1]), events[|events| - 1];
      Blanks(t, c, e) || (BlankAt(c, events[..|events| - 1]) && !Restores(t, c, e))
  }

  /** A routing says Single exactly for evidence of its own. */
  predicate RoutingFits(routing: Option<Routing>, evidence: seq<Entry>) {
    routing.Some? ==> (routing.value.SingleCandidate? <==> |evidence| == 1)
  }

  ghost predicate RoutingsFit(t: Turn) {
    && RoutingFits(t.ground.routing, t.ground.evidence)
    && forall q :: q in t.checks ==> RoutingFits(Some(t.checks[q].routing), t.checks[q].evidence)
  }

  lemma ExecutedRoutes(t: Turn, c: Setup, tool: Tool)
    ensures Executed(t, c, tool).ground.routing.Some? <==>
              if SetsEvidence(t, tool) then tool.Knowledge? else t.ground.routing.Some?
    ensures Executed(t, c, tool).ground.settled <==>
              if SetsEvidence(t, tool) && !Recalls(t, tool) then tool.Knowledge? && tool.early else t.ground.settled
  {
    if tool.Knowledge? && tool.query !in t.checks && tool.found.Some? {
      SearchedSets(t, c, tool.query, tool.found.value, tool.early, tool.expired);
    }
  }

  lemma ExecutedFits(t: Turn, c: Setup, tool: Tool)
    requires RoutingsFit(t)
    ensures RoutingsFit(Executed(t, c, tool))
  {
    if tool.Knowledge? && tool.query !in t.checks && tool.found.Some? {
      SearchFits(t, c, tool.query, tool.found.value, tool.early, tool.expired);
    }
  }

  lemma SearchFits(t: Turn, c: Setup, query: Id, found: seq<Entry>, early: bool, expired: bool)
    requires RoutingsFit(t)
    ensures RoutingsFit(Searched(t, c, query, found, early, expired))
  {
    SearchedSets(t, c, query, found, early, expired);
  }

  lemma ExecutedBlanks(t: Turn, c: Setup, tool: Tool)
    requires forall q :: q in t.checks ==> |t.checks[q].evidence| <= 1
    ensures Executed(t, c, tool).ground.noEvidence <==>
              || tool == Faq(None)
              || (SetsEvidence(t, tool) && SetBy(t, c, tool) == [])
              || (t.ground.noEvidence && !(SetsEvidence(t, tool) && Recalls(t, tool) && SetBy(t, c, tool) != []))
  {
    if tool.Knowledge? && tool.query !in t.checks && tool.found.Some? {
      SearchedSets(t, c, tool.query, tool.found.value, tool.early, tool.expired);
    }
  }

  lemma RouteStep(t: Turn, c: Setup, e: Event)
    requires TurnOk(t, c) && RoutingsFit(t)
    ensures var n := Apply(t, c, e);
            && RoutingsFit(n)
            && (n.ground.routing.Some? <==> if Sets(t, c, e) then e.tool.Knowledge? else t.ground.routing.Some?)
            && (n.ground.settled <==>
                  if Sets(t, c, e) && !Recalls(t, e.tool) then e.tool.Knowledge? && e.tool.early else t.ground.settled)
            && (n.ground.noEvidence <==> Blanks(t, c, e) || (t.ground.noEvidence && !Restores(t, c, e)))
  {
    if Runs(t, c, e) {
      StartedSame(t, e.tool);
      ExecutedRoutes(Started(t, e.tool), c, e.tool);
      ExecutedFits(Started(t, e.tool), c, e.tool);
      ExecutedBlanks(Started(t, e.tool), c, e.tool);
    }
  }

  /** What the flags of the evidence say: it comes from the knowledge base, alone and unambiguous; it was settled in
  time; and some search had no answer, that no remembered one has given since. */
  lemma {:induction false} GroundIsExact(c: Setup, events: seq<Event>)
    ensures var g := Run(c, events).ground;
            && RoutingsFit(Run(c, events))
            && (g.routing.Some? <==> SearchedLast(c, events))
            && (g.routing == Some(SingleCandidate) <==> SearchedLast(c, events) && |Latest(c, events)| == 1)
            && (g.settled <==> SettledEarly(c, events))
            && (g.verified <==> |Latest(c, events)| == 1)
            && (g.noEvidence <==> BlankAt(c, events))
  {
    EvidenceIsLatest(c, events);
    RunOk(c, events);
    if events != [] {
      var init := events[..|events| - 1];
      GroundIsExact(c, init);
      RunOk(c, init);
      RouteStep(Run(c, init), c, events[|events| - 1]);
    }
  }
}
