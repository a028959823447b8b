/**
 Planning and execution of untrusted SQL (app/sql/service.py): gates in order, issued plans
 as tokens, and exploration outside the run's trace.

 Main results: `Valid`, kept by every call in any order: a text runs only from a plan object
 this service issued, after that same text was explained within the limits, and an issued
 plan never changes; `Plan`, which refuses as the first gate to refuse does; and `Explore`,
 which puts the recorder back wherever an exception strikes.
 */
module SqlSafety {
  import opened Seqs
  import GrainRuntime
  import opened Results

  datatype PolicyCode =
    | EmptySql | MultipleStatements | NonReadOnly | ForbiddenTable | UnknownTable | ForbiddenColumn
    | UnknownColumn | ForbiddenFunction | ForbiddenCatalog | UnauthorizedJoin | TooExpensive

  datatype Status = ParseError | PolicyRejection | AuthorityRejection | SemanticRejection | CostRejection | ExecutionFailed

  datatype Estimate = Estimate(rows: int, cost: int)

  datatype Failure = Failure(status: Status, code: Option<PolicyCode>, estimate: Option<Estimate>)

  datatype CandidateSource = Internal | Model | Compiler

  datatype Candidate = Candidate(sql: string, source: CandidateSource, authority: Option<set<string>>)

  /** What the database answers an execution. */
  datatype Answer = Rows(execution: Execution) | Error(class_: string)

  /** Plans are frozen: every field is fixed when the plan is made. */
  class QueryPlan {
    const id: nat
    const sql: string
    const source: string
    const estimate: Estimate
    const guessesUnstored: bool

    constructor (id: nat, sql: string, source: string, estimate: Estimate, guessesUnstored: bool)
      ensures this.id == id && this.sql == sql && this.source == source
      ensures this.estimate == estimate && this.guessesUnstored == guessesUnstored
    {
      this.id, this.sql, this.source, this.estimate, this.guessesUnstored := id, sql, source, estimate, guessesUnstored;
    }
  }

  datatype PlanResult = Planned(plan: QueryPlan) | Failed(failure: Failure) | Raised

  datatype Executed = Ran(answer: Answer) | NotIssued | Broke

  /** `moment` counts the texts sent before: the database answers each of them once. */
  datatype Event = Explained(sql: string, estimate: Estimate) | Issued(plan: QueryPlan) | Sent(plan: QueryPlan, moment: nat)

  /** Where an exception the service does not catch can strike: at a check, or as an outcome is recorded. */
  datatype Point = AtParser | AtPolicy | AtAuthority | AtGrain | AtValues | AtPrecision | AtOrdering | AtPlanRecord | AtRunRecord

  /**
   What each check answers during one call: the checks themselves, the rewrites after them and
   the database's plan are this model's inputs.  `commits` is whether the planning transaction
   closes cleanly after the plan was issued.
   */
  datatype Gates = Gates(
    raises: Option<Point>,
    parses: string -> bool,
    policy: string -> Option<PolicyCode>,
    relations: string -> set<string>,
    grain: Option<string -> GrainRuntime.Decision>,
    respell: string -> string,
    guesses: string -> bool,
    widen: string -> string,
    order: string -> string,
    print_: string -> string,
    connects: bool,
    explain: string -> Option<Estimate>,
    commits: bool)

  /** The text the grain gate selects: the candidate's own, or its rewrite. */
  function Selected(sql: string, gates: Gates): string {
    if gates.grain.Some? && gates.grain.value(sql).status.Normalized? then gates.grain.value(sql).selected else sql
  }

  /** The text that is explained and sent: what was selected, respelled, widened, ordered and printed. */
  function FinalText(sql: string, gates: Gates): string {
    gates.print_(gates.order(gates.widen(gates.respell(Selected(sql, gates)))))
  }

  /** What the database's part of planning refuses of the final text, in its order; None where a plan is issued. */
  function DatabaseRefusal(text: string, gates: Gates, maxRows: int, maxCost: int): Option<Failure> {
    if !gates.connects || gates.explain(text).None? then Some(Failure(ExecutionFailed, None, None))
    else if !Within(gates.explain(text).value, maxRows, maxCost)
    then Some(Failure(CostRejection, Some(TooExpensive), gates.explain(text)))
    else if !gates.commits then Some(Failure(ExecutionFailed, None, None))
    else None
  }

  /** Every gate a text must pass whatever rewrote it. */
  predicate Admitted(sql: string, candidate: Candidate, gates: Gates) {
    && gates.parses(sql) && gates.policy(sql).None?
    && (candidate.source.Model? ==> candidate.authority.Some?)
    && (candidate.authority.Some? ==> gates.relations(sql) <= candidate.authority.value)
  }

  /** Candidates from inside the server need no authority; a compiler's get the default one. */
  function AuthorityOf(candidate: Candidate, default_: set<string>): Option<set<string>> {
    if candidate.authority.Some? then candidate.authority
    else if candidate.source.Internal? then None
    else Some(default_)
  }

  predicate Outside(sql: string, authority: Option<set<string>>, gates: Gates) {
    authority.Some? && !(gates.relations(sql) <= authority.value)
  }

  /** The refusal of the first gate that refuses a candidate, or the exception of the first that breaks; None past them all. */
  function Refusal(candidate: Candidate, default_: set<string>, gates: Gates): Option<PlanResult> {
    var sql, authority := candidate.sql, AuthorityOf(candidate, default_);
    if gates.raises == Some(AtParser) then Some(Raised)
    else if !gates.parses(sql) then Some(Failed(Failure(ParseError, None, None)))
    else if gates.raises == Some(AtPolicy) then Some(Raised)
    else if gates.policy(sql).Some? then Some(Failed(Failure(PolicyRejection, gates.policy(sql), None)))
    else if candidate.authority.None? && candidate.source.Model? then Some(Failed(Failure(AuthorityRejection, None, None)))
    else if gates.raises == Some(AtAuthority) && authority.Some? then Some(Raised)
    else if Outside(sql, authority, gates) then Some(Failed(Failure(AuthorityRejection, None, None)))
    else if gates.grain.Some? && gates.raises == Some(AtGrain) then Some(Raised)
    else if gates.grain.Some? && GrainRefusal(candidate, authority, gates).Some? then
      Some(Failed(GrainRefusal(candidate, authority, gates).value))
    else if gates.raises in {Some(AtValues), Some(AtPrecision), Some(AtOrdering)} then Some(Raised)
    else None
  }

  /** What the grain gate refuses, and what the earlier gates refuse of the text it rewrote. */
  function GrainRefusal(candidate: Candidate, authority: Option<set<string>>, gates: Gates): Option<Failure>
    requires gates.grain.Some?
  {
    var d := gates.grain.value(candidate.sql);
    if d.status.Rejected? then Some(Failure(SemanticRejection, None, None))
    else if !d.status.Normalized? then None
    else if !gates.parses(d.selected) then Some(Failure(SemanticRejection, None, None))
    else if gates.policy(d.selected).Some? then Some(Failure(SemanticRejection, gates.policy(d.selected), None))
    else if Outside(d.selected, authority, gates) then Some(Failure(AuthorityRejection, None, None))
    else if !GrainRuntime.Safe(d.outputCode) then Some(Failure(SemanticRejection, None, None))
    else None
  }

  /** Past every gate, the text and its rewrite each passed them all. */
  lemma PastEveryGate(candidate: Candidate, default_: set<string>, gates: Gates)
    requires Refusal(candidate, default_, gates).None?
    ensures Admitted(candidate.sql, candidate, gates) && Admitted(Selected(candidate.sql, gates), candidate, gates)
    ensures gates.grain.Some? ==> !gates.grain.value(candidate.sql).status.Rejected?
    ensures Selected(candidate.sql, gates) != candidate.sql ==> GrainRuntime.Safe(gates.grain.value(candidate.sql).outputCode)
  {
    if gates.grain.Some? {
      assert GrainRefusal(candidate, AuthorityOf(candidate, default_), gates).None?;
    }
  }

  predicate Within(estimate: Estimate, maxRows: int, maxCost: int) {
    estimate.rows <= maxRows && estimate.cost <= maxCost
  }

  /** A text sent was issued as that plan object before; a plan issued, explained within the limits before. */
  predicate Follows(before: seq<Event>, e: Event, maxRows: int, maxCost: int) {
    match e
    case Explained(_, _) => true
    case Issued(plan) => Explained(plan.sql, plan.estimate) in before && Within(plan.estimate, maxRows, maxCost)
    case Sent(plan, _) => Issued(plan) in before
  }

  /** The same of the event at `k`, whose predecessors are those before `k`. */
  predicate FollowsAt(log: seq<Event>, k: nat, maxRows: int, maxCost: int)
    requires k < |log|
  {
    match log[k]
    case Explained(_, _) => true
    case Issued(plan) => Within(plan.estimate, maxRows, maxCost) && Before(log, k, Explained(plan.sql, plan.estimate))
    case Sent(plan, _) => Before(log, k, Issued(plan))
  }

  predicate Before(log: seq<Event>, k: nat, e: Event)
    requires k <= |log|
  {
    exists i :: 0 <= i < k && log[i] == e
  }

  predicate LogHolds(log: seq<Event>, maxRows: int, maxCost: int) {
    forall k :: 0 <= k < |log| ==> FollowsAt(log, k, maxRows, maxCost)
  }

  /** A plan issued is found under its id, unchanged. */
  predicate Known(e: Event, accepted: map<nat, QueryPlan>) {
    e.Issued? ==> e.plan.id in accepted && accepted[e.plan.id] == e.plan
  }

  ghost predicate Sound(log: seq<Event>, accepted: map<nat, QueryPlan>, nextId: nat, maxRows: int, maxCost: int) {
    && LogHolds(log, maxRows, maxCost)
    && (forall id :: id in accepted ==> id < nextId && accepted[id].id == id && Issued(accepted[id]) in log)
    && (forall k :: 0 <= k < |log| ==> Known(log[k], accepted))
  }

  /** The log grew, and nothing was sent meanwhile. */
  predicate NothingSent(before: seq<Event>, after: seq<Event>) {
    before <= after && forall k :: |before| <= k < |after| ==> !after[k].Sent?
  }

  /** Every plan issued so far is kept as it was. */
  predicate Keeps(before: map<nat, QueryPlan>, after: map<nat, QueryPlan>) {
    forall id :: id in before ==> id in after && after[id] == before[id]
  }

  /** The plans whose texts were sent to the database, in order. */
  function Sendings(log: seq<Event>): seq<QueryPlan> {
    if log == [] then []
    else if log[|log| - 1].Sent? then Sendings(log[..|log| - 1]) + [log[|log| - 1].plan]
    else Sendings(log[..|log| - 1])
  }

  lemma SendingsMore(log: seq<Event>, e: Event)
    ensures Sendings(log + [e]) == if e.Sent? then Sendings(log) + [e.plan] else Sendings(log)
  {
    assert (log + [e])[..|log|] == log;
  }

  lemma Appended(log: seq<Event>, e: Event, accepted: map<nat, QueryPlan>, nextId: nat, maxRows: int, maxCost: int)
    requires Sound(log, accepted, nextId, maxRows, maxCost) && Follows(log, e, maxRows, maxCost) && !e.Issued?
    ensures Sound(log + [e], accepted, nextId, maxRows, maxCost) && log <= log + [e] && e in log + [e]
    ensures Sendings(log + [e]) == if e.Sent? then Sendings(log) + [e.plan] else Sendings(log)
    ensures !e.Sent? ==> NothingSent(log, log + [e])
  {
    SendingsMore(log, e);
    AppendHolds(log, e, maxRows, maxCost);
    forall k | 0 <= k < |log| + 1 ensures Known((log + [e])[k], accepted) {
      assert k < |log| ==> Known(log[k], accepted);
    }
  }

  lemma SendKnown(log: seq<Event>, plan: QueryPlan, moment: nat, accepted: map<nat, QueryPlan>, nextId: nat,
                  maxRows: int, maxCost: int)
    requires Sound(log, accepted, nextId, maxRows, maxCost) && plan.id in accepted && accepted[plan.id] == plan
    ensures Sound(log + [Sent(plan, moment)], accepted, nextId, maxRows, maxCost)
    ensures Sendings(log + [Sent(plan, moment)]) == Sendings(log) + [plan]
  {
    assert Issued(accepted[plan.id]) in log;
    Appended(log, Sent(plan, moment), accepted, nextId, maxRows, maxCost);
  }

  lemma AppendHolds(log: seq<Event>, e: Event, maxRows: int, maxCost: int)
    requires LogHolds(log, maxRows, maxCost) && Follows(log, e, maxRows, maxCost)
    ensures LogHolds(log + [e], maxRows, maxCost)
  {
    var log' := log + [e];
    forall k | 0 <= k < |log'| ensures FollowsAt(log', k, maxRows, maxCost) {
      if k < |log| {
        assert FollowsAt(log, k, maxRows, maxCost);
        BeforeMore(log, e, k);
      } else {
        assert log'[k] == e && forall x :: x in log ==> Before(log', k, x) by {
          forall x | x in log ensures Before(log', k, x) {
            var i :| 0 <= i < |log| && log[i] == x;
            assert log'[i] == x;
          }
        }
      }
    }
  }

  lemma BeforeMore(log: seq<Event>, e: Event, k: nat)
    requires k < |log|
    ensures forall x :: Before(log, k, x) ==> Before(log + [e], k, x)
  {
    forall x | Before(log, k, x) ensures Before(log + [e], k, x) {
      var i :| 0 <= i < k && log[i] == x;
      assert (log + [e])[i] == x;
    }
  }

  /** A text reaches the database only after it was explained within the limits and then issued, as the same plan object. */
  lemma SentIsIssued(log: seq<Event>, k: nat, maxRows: int, maxCost: int) returns (i: nat, j: nat)
    requires LogHolds(log, maxRows, maxCost) && k < |log| && log[k].Sent?
    ensures i < j < k && log[j] == Issued(log[k].plan)
    ensures log[i] == Explained(log[k].plan.sql, log[k].plan.estimate) && Within(log[k].plan.estimate, maxRows, maxCost)
  {
    assert FollowsAt(log, k, maxRows, maxCost);
    j :| 0 <= j < k && log[j] == Issued(log[k].plan);
    assert FollowsAt(log, j, maxRows, maxCost);
    i :| 0 <= i < j && log[i] == Explained(log[j].plan.sql, log[j].plan.estimate);
  }

  /** Issuing under a fresh id leaves every plan issued before as it was. */
  lemma IssuedMore(log: seq<Event>, plan: QueryPlan, accepted: map<nat, QueryPlan>, maxRows: int, maxCost: int)
    requires Sound(log, accepted, plan.id, maxRows, maxCost) && Follows(log, Issued(plan), maxRows, maxCost)
    ensures Sound(log + [Issued(plan)], accepted[plan.id := plan], plan.id + 1, maxRows, maxCost)
    ensures Sendings(log + [Issued(plan)]) == Sendings(log) && NothingSent(log, log + [Issued(plan)])
  {
    SendingsMore(log, Issued(plan));
    var log', accepted' := log + [Issued(plan)], accepted[plan.id := plan];
    AppendHolds(log, Issued(plan), maxRows, maxCost);
    forall k | 0 <= k < |log'| ensures Known(log'[k], accepted') {
      if k < |log| {
        assert Known(log[k], accepted);
      }
    }
    assert log'[|log|] == Issued(plan);
  }

  /** What the service did and issued so far, always sound. */
  datatype Archive = Archive(log: seq<Event>, accepted: map<nat, QueryPlan>, nextId: nat, sendings: seq<QueryPlan>, maxRows: int, maxCost: int)

  ghost predicate Faithful(b: Archive) {
    Sound(b.log, b.accepted, b.nextId, b.maxRows, b.maxCost) && b.sendings == Sendings(b.log)
  }

  type SoundArchive = b: Archive | Faithful(b) ghost witness Archive([], map[], 0, [], 0, 0)

  class SqlSafetyService {
    const maxRows: int
    const maxCost: int
    const defaultAuthority: set<string>
    /** What the database answers the texts sent, in order: anything at all. */
    const answers: nat -> Answer
    /** The sink of the run's trace, if one listens, and what each sink was told so far. */
    var recorder: Option<string>
    var trace: seq<(string, string)>
    var accepted: map<nat, QueryPlan>
    var nextId: nat
    var sent: nat
    ghost var log: seq<Event>
    ghost var sendings: seq<QueryPlan>
    ghost var archive: SoundArchive
    /** The texts put to the gates, to answer with and to explore. */
    ghost var candidates: seq<string>
    ghost var probes: seq<string>

    ghost predicate Valid()
      reads this`archive, this`log, this`accepted, this`nextId, this`sendings, this`sent
    {
      archive == Archive(log, accepted, nextId, sendings, maxRows, maxCost) && sent == |sendings|
    }

    constructor (maxRows: int, maxCost: int, defaultAuthority: set<string>, answers: nat -> Answer, recorder: Option<string>)
      ensures Valid() && log == [] && sendings == [] && candidates == [] && probes == [] && this.recorder == recorder && this.answers == answers
      ensures this.maxRows == maxRows && this.maxCost == maxCost && this.defaultAuthority == defaultAuthority
    {
      this.maxRows, this.maxCost, this.defaultAuthority, this.recorder := maxRows, maxCost, defaultAuthority, recorder;
      this.answers, sent := answers, 0;
      accepted, nextId, trace, log, sendings, candidates, probes := map[], 0, [], [], [], [], [];
      archive := Archive([], map[], 0, [], maxRows, maxCost);
    }

    method RecordStage(stage: string)
      modifies this`trace
      ensures recorder.None? ==> trace == old(trace)
    {
      if recorder.Some? {
        trace := trace + [(recorder.value, stage)];
      }
    }

    /** Plans a candidate and records the outcome. */
    method Plan(candidate: Candidate, gates: Gates) returns (r: PlanResult)
      requires Valid()
      modifies this`accepted, this`nextId, this`log, this`archive, this`trace, this`candidates, this`probes
      ensures Valid() && Keeps(old(accepted), accepted) && NothingSent(old(log), log)
      ensures candidates == old(candidates) + [candidate.sql] && probes == old(probes)
      ensures gates.raises == Some(AtPlanRecord) ==> r.Raised?
      ensures r.Raised? ==> gates.raises.Some?
      ensures gates.raises != Some(AtPlanRecord) ==> Decided(candidate, gates, r)
      ensures r.Planned? ==> fresh(r.plan)
    {
      r := Gate(candidate, gates, false);
      if gates.raises == Some(AtPlanRecord) {
        return Raised;
      }
    }

    /**
     What planning decides: the refusal of the first gate that refuses; past the gates a plan of
     the final text, explained within the limits and issued, or a refusal of the database's.
     */
    ghost predicate Decided(candidate: Candidate, gates: Gates, r: PlanResult)
      reads this`accepted, this`log
    {
      var refusal := Refusal(candidate, defaultAuthority, gates);
      && (refusal.Some? ==> r == refusal.value)
      && (refusal.None? ==>
            var refused := DatabaseRefusal(FinalText(candidate.sql, gates), gates, maxRows, maxCost);
            if refused.Some? then r == Failed(refused.value)
            else r.Planned? && r.plan.guessesUnstored == gates.guesses(Selected(candidate.sql, gates)))
      && (r.Planned? ==>
            && refusal.None? && r.plan.source == candidate.sql && r.plan.sql == FinalText(candidate.sql, gates)
            && r.plan.id in accepted && accepted[r.plan.id] == r.plan
            && Within(r.plan.estimate, maxRows, maxCost) && Explained(r.plan.sql, r.plan.estimate) in log)
    }

    method Gate(candidate: Candidate, gates: Gates, ghost probing: bool) returns (r: PlanResult)
      requires Valid()
      modifies this`accepted, this`nextId, this`log, this`archive, this`trace, this`candidates, this`probes
      ensures candidates == if probing then old(candidates) else old(candidates) + [candidate.sql]
      ensures probes == if probing then old(probes) + [candidate.sql] else old(probes)
      ensures Valid() && Keeps(old(accepted), accepted) && NothingSent(old(log), log)
      ensures Decided(candidate, gates, r)
      ensures r.Planned? ==> fresh(r.plan)
      ensures recorder.None? ==> trace == old(trace)
    {
      if probing {
        probes := probes + [candidate.sql];
      } else {
        candidates := candidates + [candidate.sql];
      }
      if gates.raises == Some(AtParser) {
        return Raised;
      }
      RecordStage("sql_parse");
      if !gates.parses(candidate.sql) {
        return Failed(Failure(ParseError, None, None));
      }
      if gates.raises == Some(AtPolicy) {
        return Raised;
      }
      RecordStage("global_policy");
      if gates.policy(candidate.sql).Some? {
        return Failed(Failure(PolicyRejection, gates.policy(candidate.sql), None));
      }
      if candidate.authority.None? && candidate.source.Model? {
        RecordStage("execution_authority");
        return Failed(Failure(AuthorityRejection, None, None));
      }
      var authority := AuthorityOf(candidate, defaultAuthority);
      if authority.Some? && gates.raises == Some(AtAuthority) {
        return Raised;
      }
      RecordStage("execution_authority");
      if authority.Some? && !(gates.relations(candidate.sql) <= authority.value) {
        return Failed(Failure(AuthorityRejection, None, None));
      }
      r := GateRewritten(candidate, authority, gates);
    }

    /** The grain gate, which may rewrite the text, and then the rewrites after it. */
    method GateRewritten(candidate: Candidate, authority: Option<set<string>>, gates: Gates) returns (r: PlanResult)
      requires Valid() && authority == AuthorityOf(candidate, defaultAuthority)
      requires gates.raises !in {Some(AtParser), Some(AtPolicy)} && (gates.raises == Some(AtAuthority) ==> authority.None?)
      requires Admitted(candidate.sql, candidate, gates) && !Outside(candidate.sql, authority, gates)
      modifies this`accepted, this`nextId, this`log, this`archive, this`trace
      ensures Valid() && Keeps(old(accepted), accepted) && NothingSent(old(log), log)
      ensures Decided(candidate, gates, r)
      ensures r.Planned? ==> fresh(r.plan)
      ensures recorder.None? ==> trace == old(trace)
    {
      var parsedForPlan := candidate.sql;
      if gates.grain.Some? {
        if gates.raises == Some(AtGrain) {
          return Raised;
        }
        RecordStage("grain_safety");
        var decision := gates.grain.value(candidate.sql);
        if decision.status.Rejected? {
          return Failed(Failure(SemanticRejection, None, None));
        }
        if decision.status.Normalized? {
          parsedForPlan := decision.selected;
          if !gates.parses(parsedForPlan) {
            return Failed(Failure(SemanticRejection, None, None));
          }
          if gates.policy(parsedForPlan).Some? {
            return Failed(Failure(SemanticRejection, gates.policy(parsedForPlan), None));
          }
          if authority.Some? && !(gates.relations(parsedForPlan) <= authority.value) {
            return Failed(Failure(AuthorityRejection, None, None));
          }
          if !GrainRuntime.Safe(decision.outputCode) {
            return Failed(Failure(SemanticRejection, None, None));
          }
        }
      } else {
        RecordStage("grain_safety");
      }
      r := LastRewrites(candidate, parsedForPlan, gates);
    }

    /** What no gate after it checks again: respelling, widening, and the placing of NULLs. */
    method LastRewrites(candidate: Candidate, parsed: string, gates: Gates) returns (r: PlanResult)
      requires Valid()
      modifies this`accepted, this`nextId, this`log, this`archive, this`trace
      ensures Valid() && Keeps(old(accepted), accepted) && NothingSent(old(log), log)
      ensures r.Raised? <==> gates.raises in {Some(AtValues), Some(AtPrecision), Some(AtOrdering)}
      ensures r.Planned? ==> fresh(r.plan) && r.plan.id in accepted && accepted[r.plan.id] == r.plan
      ensures r.Planned? ==>
        r.plan.source == candidate.sql && r.plan.sql == gates.print_(gates.order(gates.widen(gates.respell(parsed))))
      ensures r.Planned? ==> Within(r.plan.estimate, maxRows, maxCost) && Explained(r.plan.sql, r.plan.estimate) in log
      ensures !r.Raised? ==>
        var refusal := DatabaseRefusal(gates.print_(gates.order(gates.widen(gates.respell(parsed)))), gates, maxRows, maxCost);
        if refusal.Some? then r == Failed(refusal.value) else r.Planned? && r.plan.guessesUnstored == gates.guesses(parsed)
      ensures recorder.None? ==> trace == old(trace)
    {
      if gates.raises == Some(AtValues) {
        return Raised;
      }
      var guesses := gates.guesses(parsed);
      var parsedForPlan := gates.respell(parsed);
      RecordStage("value_check");
      if gates.raises == Some(AtPrecision) || gates.raises == Some(AtOrdering) {
        return Raised;
      }
      parsedForPlan := gates.order(gates.widen(parsedForPlan));
      RecordStage("null_ordering");
      r := Issue(candidate, gates.print_(parsedForPlan), guesses, gates);
    }

    /**
     The database's part: explains the final text and issues the plan when it is within the limits.
     A planning transaction that does not close cleanly is a failure, though the plan was issued.
     */
    method Issue(candidate: Candidate, normalizedSql: string, guesses: bool, gates: Gates) returns (r: PlanResult)
      requires Valid()
      modifies this`accepted, this`nextId, this`log, this`archive, this`trace
      ensures Valid() && Keeps(old(accepted), accepted) && NothingSent(old(log), log)
      ensures r.Planned? ==> fresh(r.plan) && r.plan.id in accepted && accepted[r.plan.id] == r.plan
      ensures r.Planned? ==> r.plan.source == candidate.sql && r.plan.sql == normalizedSql
      ensures r.Planned? ==> Within(r.plan.estimate, maxRows, maxCost) && Explained(r.plan.sql, r.plan.estimate) in log
      ensures !r.Raised?
      ensures var refusal := DatabaseRefusal(normalizedSql, gates, maxRows, maxCost);
        if refusal.Some? then r == Failed(refusal.value) else r.Planned? && r.plan.guessesUnstored == guesses
      ensures recorder.None? ==> trace == old(trace)
    {
      RecordStage("planning_connection");
      if !gates.connects {
        return Failed(Failure(ExecutionFailed, None, None));
      }
      var explained := Explain(normalizedSql, gates);
      if explained.None? {
        return Failed(Failure(ExecutionFailed, None, None));
      }
      var estimate := explained.value;
      RecordStage("cost_gate");
      if estimate.rows > maxRows || estimate.cost > maxCost {
        return Failed(Failure(CostRejection, Some(TooExpensive), Some(estimate)));
      }
      var plan := Accept(candidate.sql, normalizedSql, estimate, guesses);
      r := if gates.commits then Planned(plan) else Failed(Failure(ExecutionFailed, None, None));
    }

    method Explain(normalizedSql: string, gates: Gates) returns (estimate: Option<Estimate>)
      requires Valid()
      modifies this`log, this`archive, this`trace
      ensures Valid() && NothingSent(old(log), log)
      ensures estimate == gates.explain(normalizedSql) && (estimate.Some? ==> Explained(normalizedSql, estimate.value) in log)
      ensures recorder.None? ==> trace == old(trace)
    {
      RecordStage("explain");
      estimate := gates.explain(normalizedSql);
      if estimate.Some? {
        Appended(log, Explained(normalizedSql, estimate.value), accepted, nextId, maxRows, maxCost);
        log := log + [Explained(normalizedSql, estimate.value)];
        archive := Archive(log, accepted, nextId, sendings, maxRows, maxCost);
      }
    }

    /** Issues a plan under the next id, which no plan had. */
    method Accept(source: string, normalizedSql: string, estimate: Estimate, guesses: bool) returns (plan: QueryPlan)
      requires Valid() && Within(estimate, maxRows, maxCost) && Explained(normalizedSql, estimate) in log
      modifies this`accepted, this`nextId, this`log, this`archive
      ensures Valid() && Keeps(old(accepted), accepted) && NothingSent(old(log), log)
      ensures fresh(plan) && plan.id in accepted && accepted[plan.id] == plan
      ensures plan.source == source && plan.sql == normalizedSql && plan.estimate == estimate && plan.guessesUnstored == guesses
    {
      plan := new QueryPlan(nextId, normalizedSql, source, estimate, guesses);
      IssuedMore(log, plan, accepted, maxRows, maxCost);
      accepted, nextId := accepted[plan.id := plan], nextId + 1;
      log := log + [Issued(plan)];
      archive := Archive(log, accepted, nextId, sendings, maxRows, maxCost);
    }

    /**
     Sends only a plan object this service issued, and returns what the database answered that
     text; a look-alike, or another service's plan, is refused unsent.
     */
    method Execute(plan: QueryPlan, breaks: bool) returns (r: Executed)
      requires Valid()
      modifies this`log, this`archive, this`sendings, this`sent, this`trace
      ensures Valid()
      ensures r.NotIssued? <==> !(plan.id in accepted && accepted[plan.id] == plan)
      ensures r.NotIssued? ==> log == old(log) && sendings == old(sendings)
      ensures !r.NotIssued? ==> log == old(log) + [Sent(plan, old(sent))] && sendings == old(sendings) + [plan]
      ensures r.Ran? ==> r.answer == answers(old(sent))
      ensures r.Broke? ==> breaks
      ensures recorder.None? ==> trace == old(trace)
    {
      if plan.id !in accepted || accepted[plan.id] != plan {
        return NotIssued;
      }
      RecordStage("execution_connection");
      SendKnown(log, plan, sent, accepted, nextId, maxRows, maxCost);
      var answer := answers(sent);
      log, sendings, sent := log + [Sent(plan, sent)], sendings + [plan], sent + 1;
      archive := Archive(log, accepted, nextId, sendings, maxRows, maxCost);
      RecordStage("execution");
      r := if breaks then Broke else Ran(answer);
    }

    /**
     Plans and runs a probe through every gate.  Whether it ends in a refusal, an answer or an
     exception at any point, the recorder is back and the run's trace as it was.
     */
    method Explore(candidate: Candidate, gates: Gates) returns (planned: PlanResult, executed: Option<Executed>)
      requires Valid()
      modifies this`accepted, this`nextId, this`log, this`archive, this`trace, this`sendings, this`sent, this`candidates,
               this`probes, this`recorder
      ensures Valid() && recorder == old(recorder) && trace == old(trace) && old(log) <= log
      ensures Keeps(old(accepted), accepted) && Decided(candidate, gates, planned)
      ensures executed.Some? <==> planned.Planned?
      ensures planned.Raised? ==> gates.raises.Some?
      ensures executed.Some? ==> (executed.value.Broke? ==> gates.raises == Some(AtRunRecord)) && !executed.value.NotIssued?
      ensures executed.Some? ==> |log| > |old(log)| && log[|log| - 1] == Sent(planned.plan, old(sent))
      ensures sendings == if executed.Some? then old(sendings) + [planned.plan] else old(sendings)
      ensures executed.Some? && executed.value.Ran? ==> executed.value.answer == answers(old(sent))
      ensures executed.None? ==> NothingSent(old(log), log)
      ensures candidates == old(candidates) && probes == old(probes) + [candidate.sql]
    {
      var saved := recorder;
      recorder := None;
      planned, executed := Probe(candidate, gates);
      Restore(saved);
    }

    /** The recorder as it was, and nothing else. */
    method Restore(saved: Option<string>)
      modifies this`recorder
      ensures recorder == saved
    {
      recorder := saved;
    }

    method Probe(candidate: Candidate, gates: Gates) returns (planned: PlanResult, executed: Option<Executed>)
      requires Valid() && recorder.None?
      modifies this`accepted, this`nextId, this`log, this`archive, this`trace, this`sendings, this`sent, this`candidates, this`probes
      ensures Valid() && trace == old(trace) && old(log) <= log
      ensures Keeps(old(accepted), accepted) && Decided(candidate, gates, planned)
      ensures executed.Some? <==> planned.Planned?
      ensures planned.Raised? ==> gates.raises.Some?
      ensures executed.Some? ==> (executed.value.Broke? ==> gates.raises == Some(AtRunRecord)) && !executed.value.NotIssued?
      ensures executed.Some? ==> |log| > |old(log)| && log[|log| - 1] == Sent(planned.plan, old(sent))
      ensures sendings == if executed.Some? then old(sendings) + [planned.plan] else old(sendings)
      ensures executed.Some? && executed.value.Ran? ==> executed.value.answer == answers(old(sent))
      ensures executed.None? ==> NothingSent(old(log), log)
      ensures candidates == old(candidates) && probes == old(probes) + [candidate.sql]
    {
      planned := Gate(candidate, gates, true);
      executed := SendProbe(candidate, gates, planned);
    }

    /** A planned probe is sent, any other outcome is left as it is. */
    method SendProbe(candidate: Candidate, gates: Gates, planned: PlanResult) returns (executed: Option<Executed>)
      requires Valid() && recorder.None? && Decided(candidate, gates, planned)
      modifies this`log, this`archive, this`sendings, this`sent, this`trace
      ensures Valid() && trace == old(trace) && Decided(candidate, gates, planned)
      ensures executed.Some? <==> planned.Planned?
      ensures executed.Some? ==> (executed.value.Broke? ==> gates.raises == Some(AtRunRecord)) && !executed.value.NotIssued?
      ensures executed.Some? && executed.value.Ran? ==> executed.value.answer == answers(old(sent))
      ensures sendings == if planned.Planned? then old(sendings) + [planned.plan] else old(sendings)
      ensures log == if planned.Planned? then old(log) + [Sent(planned.plan, old(sent))] else old(log)
    {
      executed := None;
      if planned.Planned? {
        var ran := Execute(planned.plan, gates.raises == Some(AtRunRecord));
        executed := Some(ran);
      }
    }
  }

  /** Two services never run each other's plans: a plan another one issued is no key to this one. */
  method OthersPlan(a: SqlSafetyService, b: SqlSafetyService, candidate: Candidate, gates: Gates)
    returns (r: Executed)
    requires a != b && a.Valid() && b.Valid()
    modifies a, b
    ensures a.Valid() && b.Valid() && b.log == old(b.log) && r.NotIssued?
  {
    var planned := a.Plan(candidate, gates);
    r := NotIssued;
    if planned.Planned? {
      r := b.Execute(planned.plan, false);
    }
  }
}
