/**
 The rules of one question's run (app/decision/service.py, app/decision/feedback.py): what follows
 what.  A history holds everything a run did that another step can depend on; `Due` says, of any
 history, what is to be done next, or how the run ends.  DecisionRun has the service that does it.

 Main results, over every history that follows the rules to its end: answering SQL is run at most
 twice (`RunsTwice`); nothing follows a final rejection (`FinalEndsRun`); what ran passed every
 gate (`RunPassedGates`); the rows shown are of the decision in force, or of its respelling
 (`ShownIs`, `RefusedIs`); a run gives up only for one of its reasons (`NoDecisionWhy`); and an
 outcome the model can mend is sent back to it while a repair, time and tokens are left
 (`RepairFollows`).
 */
module RunRules {
  import opened Seqs
  import Values
  import opened AttemptBudget
  import opened Results
  import opened SqlSafety

  datatype DecisionType = ANSWER | BLOCKED_AUTHORITY | NEEDS_CLARIFICATION | BLOCKED_POLICY | EXPLORE

  /** `caseId` is whether the reply carries the production case id; `omitted`, whether it names omitted tables. */
  datatype Decision = Decision(kind: DecisionType, caseId: bool, sql: string, probes: seq<string>,
                               interpretations: seq<string>, omitted: bool)

  datatype Reply = Proposed(decision: Decision, tokens: nat) | Malformed | ProviderFailed

  /** What looking up the literals of an empty result finds; `changed` when a literal was respelled. */
  datatype Probed = Probed(sql: string, changed: bool)

  /** What the run meets from outside, one answer per moment: any readings, gates and lookups at all. */
  datatype World = World(
    context: nat -> bool, clock: nat -> int, gates: nat -> Gates,
    probed: (nat, string) -> Option<Probed>,
    outOfRange: Execution -> bool, repr: seq<Values.Value> -> string)

  datatype Alternative = Alternative(reading: string, sql: string, execution: Execution)

  // Which outcomes may spend the repair round.

  predicate RepairablePolicy(code: PolicyCode) {
    code.EmptySql? || code.UnknownTable? || code.UnknownColumn? || code.ForbiddenFunction? || code.UnauthorizedJoin?
  }

  /** Whether the runtime describes a planning outcome to the model so that it may try again. */
  predicate HasFeedback(planned: PlanResult) {
    match planned
    case Planned(plan) => plan.guessesUnstored
    case Failed(f) =>
      || f.status.ParseError?
      || (f.status.PolicyRejection? && f.code.Some? && RepairablePolicy(f.code.value))
      || (f.status.CostRejection? && f.estimate.Some?)
      || f.status.SemanticRejection?
    case Raised => false
  }

  /** Rejections no second attempt may answer: of authority, and of five kinds of policy. */
  predicate Final(f: Failure) {
    f.status.AuthorityRejection? ||
    (f.status.PolicyRejection? && f.code.Some? &&
      (f.code.value.NonReadOnly? || f.code.value.MultipleStatements? || f.code.value.ForbiddenTable?
       || f.code.value.ForbiddenColumn? || f.code.value.ForbiddenCatalog?))
  }

  lemma FinalIsFinal(f: Failure)
    requires Final(f)
    ensures !HasFeedback(Failed(f))
  {
  }

  /** The database failures described to the model; any other keeps the error as it is. */
  const EXECUTION_MESSAGES := {
    "INVALID_TEXT_CONVERSION", "NUMERIC_OUT_OF_RANGE", "DIVISION_BY_ZERO", "INVALID_DATETIME_FORMAT",
    "DATETIME_OUT_OF_RANGE", "SUBQUERY_RETURNED_SEVERAL_ROWS", "TYPE_MISMATCH", "NO_SUCH_FUNCTION_FOR_TYPES",
    "STATEMENT_TIMEOUT"}

  // What a run did.

  datatype Step =
    | Resolved(ok: bool, moment: nat)
    | Asked(call: ModelCall, reply: Option<Decision>, tokens: nat, moment: nat)
    | Declined(call: ModelCall, moment: nat)
    | Compared(results: Option<seq<Execution>>)
    | Tried(sql: string, outcome: PlanResult, moment: nat)
    | Ran(plan: QueryPlan, moment: nat)
    | LookedUp(found: Option<string>, moment: nat)

  type History = seq<Step>

  /**
   What a run is held to from outside: its settings, the world, the decision a replay starts from,
   what the database and the provider answer, and when it began.  `heard` counts the questions
   the provider was asked before.
   */
  datatype Terms = Terms(settings: Settings, world: World, replay: bool, frozen: Decision, authority: set<string>,
                         answers: nat -> Answer, replies: nat -> Reply, heard: nat, started: int,
                         maxRows: int, maxCost: int)

  /** The model calls made so far, in order. */
  function Questions(h: History): seq<ModelCall> {
    if h == [] then [] else Questions(h[..|h| - 1]) + if h[|h| - 1].Asked? then [h[|h| - 1].call] else []
  }

  /** The texts planned to answer with, in order. */
  function Texts(h: History): seq<string> {
    if h == [] then [] else Texts(h[..|h| - 1]) + if h[|h| - 1].Tried? then [h[|h| - 1].sql] else []
  }

  /** The plans run, each with the moment its text was sent. */
  function Runs(h: History): seq<(QueryPlan, nat)> {
    if h == [] then []
    else Runs(h[..|h| - 1]) + if h[|h| - 1].Ran? then [(h[|h| - 1].plan, h[|h| - 1].moment)] else []
  }

  function Tokens(h: History): nat {
    if h == [] then 0 else Tokens(h[..|h| - 1]) + if h[|h| - 1].Asked? then h[|h| - 1].tokens else 0
  }

  lemma OneMoreStep(h: History, s: Step)
    ensures Questions(h + [s]) == if s.Asked? then Questions(h) + [s.call] else Questions(h)
    ensures Texts(h + [s]) == if s.Tried? then Texts(h) + [s.sql] else Texts(h)
    ensures Runs(h + [s]) == if s.Ran? then Runs(h) + [(s.plan, s.moment)] else Runs(h)
    ensures Tokens(h + [s]) == Tokens(h) + if s.Asked? then s.tokens else 0
  {
    assert (h + [s])[..|h|] == h;
  }

  /** How often each kind of call was made. */
  function Tally(calls: seq<ModelCall>): Counts {
    if calls == [] then map[]
    else
      var rest, last := Tally(calls[..|calls| - 1]), calls[|calls| - 1];
      rest[last := Of(rest, last) + 1]
  }

  lemma TallyMore(calls: seq<ModelCall>, call: ModelCall)
    ensures Tally(calls + [call]) == Tally(calls)[call := Of(Tally(calls), call) + 1]
  {
    assert (calls + [call])[..|calls|] == calls;
  }

  lemma {:induction false} TallyCounts(calls: seq<ModelCall>)
    ensures (forall call :: Of(Tally(calls), call) == multiset(calls)[call]) && Sum(Tally(calls)) == |calls|
  {
    if calls != [] {
      var front, last := calls[..|calls| - 1], calls[|calls| - 1];
      TallyCounts(front);
      CountedOnce(Tally(front), last);
      assert calls == front + [last];
      forall call ensures Of(Tally(calls), call) == multiset(calls)[call] {
        assert multiset(calls)[call] == multiset(front)[call] + if call == last then 1 else 0;
      }
    }
  }

  /** What a run may spend in calls, whatever it met. */
  lemma Allowed(calls: seq<ModelCall>, settings: Settings, replay: bool)
    requires AttemptBudget.AtMost(Tally(calls), Allowances(settings, replay))
    ensures forall call :: multiset(calls)[call] <= Of(Allowances(settings, replay), call)
    ensures replay ==> calls == []
    ensures |calls| <= Rounds(settings) + 5 && (settings == DEFAULTS ==> |calls| <= 7)
  {
    MostCalls(settings, replay, Tally(calls));
    TallyCounts(calls);
    forall call ensures multiset(calls)[call] <= Of(Allowances(settings, replay), call) {
      assert Of(Tally(calls), call) <= Of(Allowances(settings, replay), call);
    }
  }

  /** A clarification, the SQL the model wrote for each of its readings, and each one's result. */
  datatype Reading = Reading(asking: Decision, probes: seq<string>, results: seq<Execution>)

  /** A plan of this text ran and the database answered it with this result. */
  ghost predicate RanAs(sql: string, result: Execution, ran: seq<(QueryPlan, nat)>, answers: nat -> Answer) {
    exists k :: 0 <= k < |ran| && ran[k].0.source == sql && answers(ran[k].1) == Rows(result)
  }

  ghost predicate AllRan(probes: seq<string>, results: seq<Execution>, ran: seq<(QueryPlan, nat)>, answers: nat -> Answer) {
    |results| == |probes| && forall i :: 0 <= i < |results| ==> !results[i].truncated && RanAs(probes[i], results[i], ran, answers)
  }

  lemma OneMoreRan(probes: seq<string>, k: nat, found: seq<Execution>, execution: Execution, ran: seq<(QueryPlan, nat)>,
                   ran': seq<(QueryPlan, nat)>, answers: nat -> Answer)
    requires k < |probes| && AllRan(probes[..k], found, ran, answers) && ran <= ran'
    requires !execution.truncated && RanAs(probes[k], execution, ran', answers)
    ensures AllRan(probes[..k + 1], found + [execution], ran', answers)
  {
    forall i | 0 <= i < k ensures RanAs(probes[i], found[i], ran', answers) {
      assert RanAs(probes[..k][i], found[i], ran, answers);
      var m :| 0 <= m < |ran| && ran[m].0.source == probes[i] && answers(ran[m].1) == Rows(found[i]);
      assert ran'[m] == ran[m];
    }
  }

  /** What answering a clarification rests on, and what the answer then says of its readings. */
  ghost predicate Rests(r: Reading, assumption: Option<string>, alternatives: seq<Alternative>, settings: Settings,
                        world: World) {
    var readings := r.asking.interpretations;
    && r.asking.kind.NEEDS_CLARIFICATION? && 2 <= |r.results| == |r.probes| == |readings| <= MAX_PROBES
    && (Agree(r.results, world.repr) ==> assumption.None? && alternatives == [])
    && (!Agree(r.results, world.repr) ==>
          && settings.assumes && assumption == Some(readings[0]) && alternatives == Others(r))
  }

  /** The readings not taken, each with its SQL and result. */
  function Others(r: Reading): seq<Alternative>
    requires 2 <= |r.results| == |r.probes| == |r.asking.interpretations|
  {
    seq(|r.probes| - 1, i requires 0 <= i < |r.probes| - 1 =>
      Alternative(r.asking.interpretations[i + 1], r.probes[i + 1], r.results[i + 1]))
  }

  // Where a run stands.

  /** A reply to act on; a repair does not explore. */
  predicate Usable(call: ModelCall, reply: Option<Decision>) {
    reply.Some? && reply.value.caseId && (call.Repair? ==> !reply.value.kind.EXPLORE?)
  }

  /** The decision in force after a call: a reading check leaves it, and so does an unusable reply but the first. */
  function Heeds(d: Decision, call: ModelCall, reply: Option<Decision>): Decision {
    if call.Generation? then (if reply.Some? then reply.value else d)
    else if call.ReadingCheck? || !Usable(call, reply) then d
    else reply.value
  }

  /** Readings are answered with where they agree, or where settings assume. */
  predicate Adopts(p: Progress, results: Option<seq<Execution>>, t: Terms) {
    results.Some? && p.written != [] && (Agree(results.value, t.world.repr) || t.settings.assumes)
  }

  function AnswerWith(sql: string): Decision { Decision(ANSWER, true, sql, [], [], false) }

  /** How a run ends. */
  datatype Verdict =
    | Unentered
    | NoDecision
    | Declines(decision: Decision)
    | Refused(decision: Decision, failure: Failure)
    | Shown(decision: Decision, plan: QueryPlan, moment: nat)
    | Unfinished

  datatype Next =
    | Resolve
    | Ask(call: ModelCall)
    | Compare(probes: seq<string>)
    | Plan(sql: string)
    | Send(plan: QueryPlan)
    | LookUp
    | End(verdict: Verdict)

  /** An outcome as it is: a plan to run, or a rejection to report. */
  function Settled(outcome: PlanResult, d: Decision): Next {
    match outcome
    case Planned(plan) => Send(plan)
    case Failed(failure) => End(Refused(d, failure))
    case Raised => End(Unfinished)
  }

  /**
   What a history comes to: whether the context was resolved, what was asked, how often and for how
   many tokens, the texts planned and the plans run, the decision in force, the readings answered
   with, the SQL the latest reply wrote for them, what stands when looking further brings nothing, and
   whether a respelling was looked up last.
   */
  datatype Progress = Progress(
    entered: bool, asked: seq<ModelCall>, counts: Counts, tokens: nat, texts: seq<string>, runs: seq<(QueryPlan, nat)>,
    force: Decision, reading: Option<Reading>, written: seq<string>, standing: Next, respelling: bool)

  function Beginning(t: Terms): Progress {
    Progress(false, [], map[], 0, [], [], t.frozen, None, [], End(Unfinished), false)
  }

  function Advance(p: Progress, s: Step, t: Terms): Progress {
    match s
    case Resolved(_, _) => p.(entered := true, respelling := false)
    case Asked(call, reply, tokens, _) =>
      p.(asked := p.asked + [call], counts := p.counts[call := Of(p.counts, call) + 1], tokens := p.tokens + tokens,
         force := Heeds(p.force, call, reply), written := if reply.Some? then reply.value.probes else [], respelling := false)
    case Declined(_, _) => p.(respelling := false)
    case Compared(results) =>
      if Adopts(p, results, t)
      then p.(force := AnswerWith(p.written[0]), reading := Some(Reading(p.force, p.written, results.value)), respelling := false)
      else p.(respelling := false)
    case Tried(sql, outcome, _) =>
      p.(texts := p.texts + [sql], standing := Settled(outcome, p.force), respelling := false)
    case Ran(plan, moment) =>
      p.(runs := p.runs + [(plan, moment)], standing := End(Shown(p.force, plan, moment)), respelling := false)
    case LookedUp(_, _) => p.(respelling := true)
  }

  function ProgressOf(h: History, t: Terms): Progress {
    if h == [] then Beginning(t) else Advance(ProgressOf(h[..|h| - 1], t), h[|h| - 1], t)
  }

  /** The decision in force after a history. */
  function InForce(h: History, t: Terms): Decision { ProgressOf(h, t).force }

  // What is due.

  predicate Exploring(t: Terms) { !t.replay && t.settings.exploration }

  function AfterFirst(d: Decision, t: Terms): Next {
    if !d.caseId then End(NoDecision)
    else if !t.replay && t.settings.contextExpansion && d.kind.BLOCKED_AUTHORITY? && d.omitted then Resolve
    else AfterWidening(d, t)
  }

  /** A clarification or an authority refusal made without looking is put to the model once more. */
  function AfterWidening(d: Decision, t: Terms): Next {
    if Exploring(t) && (d.kind.NEEDS_CLARIFICATION? || d.kind.BLOCKED_AUTHORITY?) then Ask(LookFirst) else AfterLooking(d, t)
  }

  function AfterLooking(d: Decision, t: Terms): Next {
    if !d.kind.EXPLORE? then AfterExploring(d, t)
    else if Exploring(t) then Ask(Exploration)
    else End(NoDecision)
  }

  function AfterExploring(d: Decision, t: Terms): Next {
    if !t.replay && t.settings.readingCheck && d.kind.NEEDS_CLARIFICATION? && 2 <= |d.interpretations| <= MAX_PROBES
    then Ask(ReadingCheck) else AfterReading(d)
  }

  function AfterReading(d: Decision): Next {
    if d.kind.ANSWER? then Plan(d.sql) else End(Declines(d))
  }

  /** Whether a reply holds one SQL per reading. */
  predicate PerReading(reply: Option<Decision>, d: Decision) {
    reply.Some? && reply.value.caseId && reply.value.kind.EXPLORE? && |reply.value.probes| == |d.interpretations|
  }

  /** A model still exploring after the last round has not decided. */
  function AfterRound(p: Progress, d: Decision, t: Terms): Next {
    if d.kind.EXPLORE? && Of(p.counts, Exploration) + 1 >= t.settings.explorationRounds then End(NoDecision)
    else AfterLooking(d, t)
  }

  function AfterCall(p: Progress, call: ModelCall, reply: Option<Decision>, t: Terms): Next {
    var d := Heeds(p.force, call, reply);
    match call
    case Generation => if reply.Some? then AfterFirst(d, t) else End(NoDecision)
    case ContextExpansion => AfterWidening(d, t)
    case LookFirst => AfterLooking(d, t)
    case Exploration => if Usable(call, reply) then AfterRound(p, d, t) else End(NoDecision)
    case ReadingCheck => if PerReading(reply, d) then Compare(reply.value.probes) else AfterReading(d)
    case Repair => if Usable(call, reply) then AfterReading(d) else p.standing
  }

  predicate RepairLeft(p: Progress, t: Terms) {
    Of(p.counts, ModelCall.Repair) < Of(Allowances(t.settings, t.replay), ModelCall.Repair)
  }

  /** The planning of a respelled text is not repaired. */
  function AfterTry(p: Progress, outcome: PlanResult, t: Terms): Next {
    if HasFeedback(outcome) && RepairLeft(p, t) && !p.respelling then Ask(ModelCall.Repair) else Settled(outcome, p.force)
  }

  datatype Trouble = Fine | Empty | Describable

  /** A result to look into: empty, or to be described to the model: out of range, or an error it may mend. */
  function TroubleOf(answer: Answer, t: Terms): Trouble {
    match answer
    case Rows(execution) =>
      if t.replay || !t.settings.resultCheck then Fine
      else if LooksEmpty(execution) then Empty
      else if t.world.outOfRange(execution) then Describable
      else Fine
    case Error(class_) => if class_ in EXECUTION_MESSAGES then Describable else Fine
  }

  /** Only the first run's result is looked into. */
  function AfterRun(p: Progress, plan: QueryPlan, moment: nat, t: Terms): Next {
    var shown := End(Shown(p.force, plan, moment));
    if p.runs != [] then shown
    else match TroubleOf(t.answers(moment), t)
      case Fine => shown
      case Empty => LookUp
      case Describable => if RepairLeft(p, t) then Ask(ModelCall.Repair) else shown
  }

  function AfterLookUp(p: Progress, found: Option<string>, t: Terms): Next {
    if found.Some? then Plan(found.value) else if RepairLeft(p, t) then Ask(ModelCall.Repair) else p.standing
  }

  function AfterResolving(p: Progress, ok: bool, t: Terms): Next {
    if p.entered then (if ok then Ask(ContextExpansion) else AfterWidening(p.force, t))
    else if !ok then End(Unentered)
    else if t.replay then AfterFirst(p.force, t)
    else Ask(Generation)
  }

  function After(p: Progress, s: Step, t: Terms): Next {
    match s
    case Resolved(ok, _) => AfterResolving(p, ok, t)
    case Asked(call, reply, _, _) => AfterCall(p, call, reply, t)
    case Declined(call, _) => AfterCall(p, call, None, t)
    case Compared(_) => AfterReading(Advance(p, s, t).force)
    case Tried(_, outcome, _) => AfterTry(p, outcome, t)
    case Ran(plan, moment) => AfterRun(p, plan, moment, t)
    case LookedUp(found, _) => AfterLookUp(p, found, t)
  }

  /** What is to be done after a history, or how the run ends. */
  function Due(h: History, t: Terms): Next {
    if h == [] then Resolve else After(ProgressOf(h[..|h| - 1], t), h[|h| - 1], t)
  }

  /** The step is the one that was due. */
  predicate Matches(s: Step, next: Next) {
    match s
    case Resolved(_, _) => next.Resolve?
    case Asked(call, _, _, _) => next == Ask(call)
    case Declined(call, _) => next == Ask(call)
    case Compared(_) => next.Compare?
    case Tried(sql, _, _) => next == Plan(sql)
    case Ran(plan, _) => next == Send(plan)
    case LookedUp(_, _) => next.LookUp?
  }

  // What a step says is so.

  function CandidateOf(sql: string, authority: set<string>): Candidate {
    Candidate(sql, Model, Some(authority))
  }

  /** The outcome recorded is the gates': the first refusal or exception, or past them the database's refusal, or a plan. */
  predicate ToldOutcome(sql: string, outcome: PlanResult, moment: nat, t: Terms) {
    var gates := t.world.gates(moment);
    var refusal := Refusal(CandidateOf(sql, t.authority), {}, gates);
    if gates.raises == Some(AtPlanRecord) then outcome.Raised?
    else
      && (refusal.Some? ==> outcome == refusal.value)
      && (outcome.Planned? ==> outcome.plan.source == sql && outcome.plan.sql == FinalText(sql, gates))
      && (refusal.None? ==>
            var refused := DatabaseRefusal(FinalText(sql, gates), gates, t.maxRows, t.maxCost);
            if refused.Some? then outcome == Failed(refused.value)
            else outcome.Planned? && outcome.plan.guessesUnstored == gates.guesses(Selected(sql, gates)))
  }

  /** The run's time is over at this moment. */
  predicate LateAt(moment: nat, t: Terms) {
    t.world.clock(moment) - t.started >= t.settings.deadline
  }

  /** The call may be made: one of its kind is left, and, but for the first decision, time and tokens are. */
  predicate Affordable(p: Progress, call: ModelCall, moment: nat, t: Terms) {
    && Of(p.counts, call) < Of(Allowances(t.settings, t.replay), call)
    && (call.Generation? || (!LateAt(moment, t) && p.tokens < t.settings.tokenLimit))
  }

  /** The provider's next reply, unless it is no decision or comes too late. */
  predicate ToldReply(p: Progress, call: ModelCall, reply: Option<Decision>, tokens: nat, moment: nat, t: Terms) {
    var r := t.replies(t.heard + |p.asked|);
    if r.Proposed? && (call.Generation? || !LateAt(moment + 1, t)) then reply == Some(r.decision) && tokens == r.tokens
    else reply.None? && tokens == 0
  }

  /** What looking up the literals of a text at a moment changes it to, if anything. */
  function Spelling(sql: string, moment: nat, world: World): Option<string> {
    var probed := world.probed(moment, sql);
    if probed.Some? && probed.value.changed then Some(probed.value.sql) else None
  }

  predicate Told(p: Progress, s: Step, t: Terms) {
    match s
    case Resolved(ok, moment) => ok == t.world.context(moment)
    case Asked(call, reply, tokens, moment) => Affordable(p, call, moment, t) && ToldReply(p, call, reply, tokens, moment, t)
    case Declined(call, moment) => !Affordable(p, call, moment, t)
    case Compared(results) => results.Some? ==> |results.value| == |p.written|
    case Tried(sql, outcome, moment) => ToldOutcome(sql, outcome, moment, t)
    case Ran(_, _) => true
    case LookedUp(found, moment) => found == Spelling(p.force.sql, moment, t.world)
  }

  /** Each step is the one due, and says what is so. */
  ghost predicate Orderly(h: History, t: Terms) {
    forall k :: 0 <= k < |h| ==> OrderlyAt(h, t, k)
  }

  ghost predicate OrderlyAt(h: History, t: Terms, k: nat)
    requires k < |h|
  {
    Matches(h[k], Due(h[..k], t)) && Told(ProgressOf(h[..k], t), h[k], t)
  }

  lemma MoreOrderly(h: History, s: Step, t: Terms)
    requires Orderly(h, t) && Matches(s, Due(h, t)) && Told(ProgressOf(h, t), s, t)
    ensures Orderly(h + [s], t)
  {
    var h' := h + [s];
    forall k | 0 <= k < |h'| ensures OrderlyAt(h', t, k) {
      if k < |h| {
        assert OrderlyAt(h, t, k) && h'[..k] == h[..k];
      } else {
        assert h'[..k] == h;
      }
    }
  }

  lemma DueAfter(h: History, s: Step, t: Terms)
    ensures Due(h + [s], t) == After(ProgressOf(h, t), s, t) && ProgressOf(h + [s], t) == Advance(ProgressOf(h, t), s, t)
  {
    assert (h + [s])[..|h|] == h;
  }

  /** The progress counts what the history holds. */
  predicate Says(p: Progress, h: History) {
    && p.asked == Questions(h) && p.counts == Tally(Questions(h)) && p.tokens == Tokens(h)
    && p.texts == Texts(h) && p.runs == Runs(h)
  }

  lemma SaysMore(p: Progress, h: History, s: Step, t: Terms)
    requires Says(p, h)
    ensures Says(Advance(p, s, t), h + [s])
  {
    if s.Asked? {
      CallSays(p, h, s, t);
    } else {
      StepSays(p, h, s, t);
    }
  }

  lemma StepSays(p: Progress, h: History, s: Step, t: Terms)
    requires Says(p, h) && !s.Asked?
    ensures Says(Advance(p, s, t), h + [s])
  {
    OneMoreStep(h, s);
  }

  lemma CallSays(p: Progress, h: History, s: Step, t: Terms)
    requires Says(p, h) && s.Asked?
    ensures Says(Advance(p, s, t), h + [s])
  {
    OneMoreStep(h, s);
    TallyMore(Questions(h), s.call);
  }

  lemma {:induction false} ProgressSays(h: History, t: Terms)
    ensures Says(ProgressOf(h, t), h)
  {
    if h != [] {
      assert h == h[..|h| - 1] + [h[|h| - 1]];
      ProgressSays(h[..|h| - 1], t);
      SaysMore(ProgressOf(h[..|h| - 1], t), h[..|h| - 1], h[|h| - 1], t);
    }
  }

  /** A candidate that names its authority is judged by that one alone. */
  lemma AnyDefault(sql: string, authority: set<string>, default_: set<string>, gates: Gates)
    ensures Refusal(CandidateOf(sql, authority), default_, gates) == Refusal(CandidateOf(sql, authority), {}, gates)
  {
  }

  // What holds of every history that follows the rules.

  lemma Prefix(h: History, n: nat, t: Terms)
    requires Orderly(h, t) && n <= |h|
    ensures Orderly(h[..n], t)
  {
    forall k | 0 <= k < n ensures OrderlyAt(h[..n], t, k) {
      assert OrderlyAt(h, t, k) && h[..n][..k] == h[..k];
    }
  }

  /** What a step makes due is what the next one is, if there is one. */
  lemma StepThen(h: History, t: Terms, k: nat)
    requires Orderly(h, t) && k < |h|
    ensures Due(h[..k + 1], t) == After(ProgressOf(h[..k], t), h[k], t)
    ensures ProgressOf(h[..k + 1], t) == Advance(ProgressOf(h[..k], t), h[k], t)
    ensures Matches(h[k], Due(h[..k], t)) && Told(ProgressOf(h[..k], t), h[k], t)
    ensures k + 1 < |h| ==> Matches(h[k + 1], Due(h[..k + 1], t)) && Told(ProgressOf(h[..k + 1], t), h[k + 1], t)
    ensures k + 1 == |h| ==> h[..k + 1] == h
  {
    DueAfter(h[..k], h[k], t);
    assert h[..k] + [h[k]] == h[..k + 1];
    assert OrderlyAt(h, t, k);
    assert k + 1 < |h| ==> OrderlyAt(h, t, k + 1);
  }

  /** Answering SQL is run at most twice, and nothing follows the second run. */
  lemma {:induction false} RunsTwice(h: History, t: Terms)
    requires Orderly(h, t)
    ensures |ProgressOf(h, t).runs| <= 2
    ensures |ProgressOf(h, t).runs| == 2 ==> h != [] && h[|h| - 1].Ran? && Due(h, t).End?
  {
    if h != [] {
      var front, last := h[..|h| - 1], h[|h| - 1];
      Prefix(h, |h| - 1, t);
      RunsTwice(front, t);
      assert OrderlyAt(h, t, |h| - 1);
    }
  }

  /** Where an exception can stop a run short: after planning or running, or before probes or readings are done. */
  predicate CutAt(h: History, next: Next) {
    h != [] && (h[|h| - 1].Ran? || (h[|h| - 1].Tried? && h[|h| - 1].outcome.Raised?) || next.Compare? || next == Ask(Exploration))
  }

  predicate Over(h: History, t: Terms) {
    Due(h, t).End? || CutAt(h, Due(h, t))
  }

  /** A live run that has its context asks for a decision; a replay plans a usable answer's SQL at once. */
  lemma Begins(h: History, t: Terms)
    requires Orderly(h, t) && Over(h, t) && h != []
    ensures h[0].Resolved?
    ensures h[0].ok && !t.replay ==> |h| > 1 && h[1].Asked? && h[1].call.Generation?
    ensures h[0].ok && t.replay && t.frozen.caseId && t.frozen.kind.ANSWER? ==> |h| > 1 && h[1].Tried? && h[1].sql == t.frozen.sql
  {
    assert OrderlyAt(h, t, 0);
    DueAfter([], h[0], t);
    assert [] + [h[0]] == h[..1];
    if |h| > 1 {
      assert OrderlyAt(h, t, 1);
    } else {
      assert h == h[..1];
    }
  }

  /** The text is a decision's SQL, or what looking up its literals made of it. */
  ghost predicate OwnText(sql: string, d: Decision, t: Terms) {
    sql == d.sql || exists moment :: Spelling(d.sql, moment, t.world) == Some(sql)
  }

  /** Planning the decision's own SQL, or its respelling, came to this outcome. */
  ghost predicate CameTo(h: History, outcome: PlanResult, d: Decision, t: Terms) {
    d.kind.ANSWER? && exists k :: 0 <= k < |h| && h[k].Tried? && h[k].outcome == outcome && OwnText(h[k].sql, d, t)
  }

  /** What may stand when looking further brings nothing: a plan made or run of the decision in force, or its rejection. */
  ghost predicate MayStand(next: Next, p: Progress, h: History, t: Terms) {
    match next
    case Send(plan) => CameTo(h, Planned(plan), p.force, t)
    case End(verdict) =>
      (match verdict
       case Shown(d, plan, moment) =>
         d == p.force && CameTo(h, Planned(plan), d, t) && p.runs != [] && p.runs[|p.runs| - 1] == (plan, moment)
       case Refused(d, failure) => d == p.force && CameTo(h, Failed(failure), d, t)
       case Unfinished => true
       case _ => false)
    case _ => false
  }

  /** What may be due where. */
  ghost predicate MayBeDue(next: Next, p: Progress, h: History, t: Terms) {
    match next
    case Plan(sql) => p.force.kind.ANSWER? && OwnText(sql, p.force, t)
    case Compare(_) => p.force.kind.NEEDS_CLARIFICATION?
    case Ask(call) =>
      (call.ReadingCheck? ==> p.force.kind.NEEDS_CLARIFICATION?) && (call.Repair? ==> MayStand(p.standing, p, h, t))
    case LookUp => MayStand(p.standing, p, h, t) && p.force.kind.ANSWER?
    case Resolve => true
    case Send(_) => MayStand(next, p, h, t)
    case End(verdict) =>
      (match verdict
       case Declines(d) => d == p.force && !d.kind.ANSWER? && !d.kind.EXPLORE?
       case Unentered => true
       case NoDecision => true
       case _ => MayStand(next, p, h, t))
  }

  lemma StillCameTo(h: History, s: Step, outcome: PlanResult, d: Decision, t: Terms)
    requires CameTo(h, outcome, d, t)
    ensures CameTo(h + [s], outcome, d, t)
  {
    var k :| 0 <= k < |h| && h[k].Tried? && h[k].outcome == outcome && OwnText(h[k].sql, d, t);
    assert (h + [s])[k] == h[k];
  }

  /** What stood still stands after a step that changes neither the decision in force nor what ran. */
  lemma StillStands(next: Next, p: Progress, p': Progress, h: History, s: Step, t: Terms)
    requires MayStand(next, p, h, t) && p'.force == p.force && p'.runs == p.runs
    ensures MayStand(next, p', h + [s], t)
  {
    match next
    case Send(plan) => StillCameTo(h, s, Planned(plan), p.force, t);
    case End(verdict) =>
      if verdict.Shown? { StillCameTo(h, s, Planned(verdict.plan), p.force, t); }
      if verdict.Refused? { StillCameTo(h, s, Failed(verdict.failure), p.force, t); }
    case _ =>
  }

  lemma AfterLookingMayBe(d: Decision, p: Progress, h: History, t: Terms)
    requires p.force == d
    ensures MayBeDue(AfterLooking(d, t), p, h, t) && MayBeDue(AfterWidening(d, t), p, h, t) && MayBeDue(AfterFirst(d, t), p, h, t)
  {
  }

  lemma CallMayBe(h: History, s: Step, p: Progress, call: ModelCall, reply: Option<Decision>, t: Terms)
    requires s.Asked? || s.Declined?
    requires s.call == call && reply == (if s.Asked? then s.reply else None) && MayBeDue(Ask(call), p, h, t)
    ensures MayBeDue(AfterCall(p, call, reply, t), Advance(p, s, t), h + [s], t)
  {
    var p' := Advance(p, s, t);
    assert p'.force == Heeds(p.force, call, reply);
    AfterLookingMayBe(p'.force, p', h + [s], t);
    if call.Repair? && !Usable(call, reply) { StillStands(p.standing, p, p', h, s, t); }
  }

  lemma TryMayBe(h: History, s: Step, p: Progress, t: Terms)
    requires s.Tried? && MayBeDue(Plan(s.sql), p, h, t)
    ensures MayBeDue(AfterTry(p, s.outcome, t), Advance(p, s, t), h + [s], t)
  {
    assert (h + [s])[|h|] == s;
    assert CameTo(h + [s], s.outcome, p.force, t);
  }

  lemma RunMayBe(h: History, s: Step, p: Progress, t: Terms)
    requires s.Ran? && MayBeDue(Send(s.plan), p, h, t)
    ensures MayBeDue(AfterRun(p, s.plan, s.moment, t), Advance(p, s, t), h + [s], t)
  {
    StillCameTo(h, s, Planned(s.plan), p.force, t);
  }

  lemma LookUpMayBe(h: History, s: Step, p: Progress, t: Terms)
    requires s.LookedUp? && MayBeDue(LookUp, p, h, t) && Told(p, s, t)
    ensures MayBeDue(AfterLookUp(p, s.found, t), Advance(p, s, t), h + [s], t)
  {
    StillStands(p.standing, p, Advance(p, s, t), h, s, t);
  }

  /** What is due is fitting, at every point of a history that follows the rules. */
  lemma {:induction false} DueIsFitting(h: History, t: Terms)
    requires Orderly(h, t)
    ensures MayBeDue(Due(h, t), ProgressOf(h, t), h, t)
  {
    if h != [] {
      var front, s := h[..|h| - 1], h[|h| - 1];
      var p := ProgressOf(front, t);
      assert h == front + [s];
      Prefix(h, |h| - 1, t);
      DueIsFitting(front, t);
      assert OrderlyAt(h, t, |h| - 1);
      match s
      case Resolved(_, _) => AfterLookingMayBe(p.force, Advance(p, s, t), h, t);
      case Asked(call, reply, _, _) => CallMayBe(front, s, p, call, reply, t);
      case Declined(call, _) => CallMayBe(front, s, p, call, None, t);
      case Compared(_) =>
      case Tried(_, _, _) => TryMayBe(front, s, p, t);
      case Ran(_, _) => RunMayBe(front, s, p, t);
      case LookedUp(_, _) => LookUpMayBe(front, s, p, t);
    }
  }

  /** Rows are shown of the plan run last, made of the SQL of the decision in force or of its respelling. */
  lemma ShownIs(h: History, t: Terms, d: Decision, plan: QueryPlan, moment: nat)
    requires Orderly(h, t) && Due(h, t) == End(Shown(d, plan, moment))
    ensures d == InForce(h, t) && CameTo(h, Planned(plan), d, t)
    ensures Runs(h) != [] && Runs(h)[|Runs(h)| - 1] == (plan, moment)
  {
    DueIsFitting(h, t);
    ProgressSays(h, t);
  }

  /** A rejection reported is what planning that SQL came to; a decision that does not answer never explores. */
  lemma RefusedIs(h: History, t: Terms)
    requires Orderly(h, t) && Due(h, t).End?
    ensures Due(h, t).verdict.Refused? ==>
      Due(h, t).verdict.decision == InForce(h, t) && CameTo(h, Failed(Due(h, t).verdict.failure), InForce(h, t), t)
    ensures Due(h, t).verdict.Declines? ==>
      Due(h, t).verdict.decision == InForce(h, t) && !InForce(h, t).kind.ANSWER? && !InForce(h, t).kind.EXPLORE?
  {
    DueIsFitting(h, t);
  }

  /**
   Where the gates finally reject answering SQL, no step follows, so no model call and no repair.
   */
  lemma FinalEndsRun(h: History, t: Terms, k: nat, f: Failure)
    requires Orderly(h, t) && k < |h| && h[k].Tried? && Final(f)
    requires Refusal(CandidateOf(h[k].sql, t.authority), {}, t.world.gates(h[k].moment)) == Some(Failed(f))
    ensures k == |h| - 1 && (h[k].outcome == Failed(f) || h[k].outcome.Raised?)
  {
    StepThen(h, t, k);
    FinalIsFinal(f);
  }

  predicate IsPlan(s: Step, plan: QueryPlan) {
    s.Tried? && s.outcome == Planned(plan)
  }

  predicate Passed(sql: string, authority: set<string>, gates: Gates) {
    Admitted(sql, CandidateOf(sql, authority), gates) && Admitted(Selected(sql, gates), CandidateOf(sql, authority), gates)
  }

  predicate IsRepair(s: Step) { (s.Asked? || s.Declined?) && s.call.Repair? }

  /** The plan was made last, or before a repair of it. */
  predicate JustMade(h: History, plan: QueryPlan) {
    h != [] && (IsPlan(h[|h| - 1], plan) || (|h| > 1 && IsPlan(h[|h| - 2], plan) && IsRepair(h[|h| - 1])))
  }

  /** The plan is due only where it was just made, and stands only where it may be repaired right after. */
  predicate DueWhereMade(h: History, p: Progress, next: Next, plan: QueryPlan) {
    && (next == Send(plan) ==> JustMade(h, plan))
    && (next == LookUp || p.respelling ==> p.standing != Send(plan))
    && (next == Ask(ModelCall.Repair) && p.standing == Send(plan) ==> h != [] && IsPlan(h[|h| - 1], plan))
  }

  lemma MadeStep(h: History, p: Progress, next: Next, s: Step, t: Terms, plan: QueryPlan)
    requires DueWhereMade(h, p, next, plan) && Matches(s, next) && Stands(p.standing)
    ensures DueWhereMade(h + [s], Advance(p, s, t), After(p, s, t), plan)
  {
    var h' := h + [s];
    assert h'[|h'| - 1] == s && (h != [] ==> h'[|h'| - 2] == h[|h| - 1]);
    if s.Asked? { CallIsNoPlan(p, s.call, s.reply, t, plan); }
    if s.Declined? { CallIsNoPlan(p, s.call, None, t, plan); }
    if s.Resolved? { StageIsNoPlan(p.force, t, plan); }
  }

  lemma StageIsNoPlan(d: Decision, t: Terms, plan: QueryPlan)
    ensures AfterFirst(d, t) !in {Send(plan), LookUp, Ask(ModelCall.Repair)} && AfterWidening(d, t) !in {Send(plan), LookUp, Ask(ModelCall.Repair)}
    ensures AfterLooking(d, t) !in {Send(plan), LookUp, Ask(ModelCall.Repair)} && AfterReading(d) !in {Send(plan), LookUp, Ask(ModelCall.Repair)}
  {
  }

  lemma CallIsNoPlan(p: Progress, call: ModelCall, reply: Option<Decision>, t: Terms, plan: QueryPlan)
    ensures var next := AfterCall(p, call, reply, t);
      (next == Send(plan) || next == LookUp || next == Ask(ModelCall.Repair)) ==> call.Repair? && next == p.standing
  {
    StageIsNoPlan(Heeds(p.force, call, reply), t, plan);
  }

  /** A standing is never a call or a look at spellings. */
  predicate Stands(next: Next) { next.Send? || next.End? }

  lemma {:induction false} StandingStands(h: History, t: Terms)
    ensures Stands(ProgressOf(h, t).standing)
  {
    if h != [] { StandingStands(h[..|h| - 1], t); }
  }

  lemma {:induction false} SentIsMade(h: History, t: Terms, plan: QueryPlan)
    requires Orderly(h, t)
    ensures DueWhereMade(h, ProgressOf(h, t), Due(h, t), plan)
  {
    if h != [] {
      var front, s := h[..|h| - 1], h[|h| - 1];
      assert h == front + [s];
      Prefix(h, |h| - 1, t);
      SentIsMade(front, t, plan);
      StandingStands(front, t);
      assert OrderlyAt(h, t, |h| - 1);
      MadeStep(front, ProgressOf(front, t), Due(front, t), s, t, plan);
    }
  }

  /**
   Each plan that ran was made right before, of a text that passed every gate, and so did the text
   the grain gate rewrote it to; what was sent is that text with the last rewrites.
   */
  lemma RunPassedGates(h: History, t: Terms, k: nat) returns (j: nat)
    requires Orderly(h, t) && k < |h| && h[k].Ran?
    ensures k - 2 <= j < k && IsPlan(h[j], h[k].plan) && h[k].plan.source == h[j].sql
    ensures j < k - 1 ==> IsRepair(h[k - 1])
    ensures Passed(h[j].sql, t.authority, t.world.gates(h[j].moment))
    ensures h[k].plan.sql == FinalText(h[j].sql, t.world.gates(h[j].moment))
  {
    assert OrderlyAt(h, t, k);
    Prefix(h, k, t);
    SentIsMade(h[..k], t, h[k].plan);
    j := if IsPlan(h[k - 1], h[k].plan) then k - 1 else k - 2;
    assert OrderlyAt(h, t, j);
    PastEveryGate(CandidateOf(h[j].sql, t.authority), {}, t.world.gates(h[j].moment));
  }

  // When a run gives up, and when it may not.

  predicate Asks(s: Step, call: ModelCall) { s.Asked? && s.call == call }

  lemma {:induction false} NeverAsked(h: History, t: Terms, call: ModelCall)
    requires forall j :: 0 <= j < |h| ==> !Asks(h[j], call)
    ensures Of(ProgressOf(h, t).counts, call) == 0
  {
    if h != [] {
      NeverAsked(h[..|h| - 1], t, call);
      assert !Asks(h[|h| - 1], call);
    }
  }

  lemma RespellingIs(h: History, t: Terms)
    ensures ProgressOf(h, t).respelling <==> h != [] && h[|h| - 1].LookedUp?
  {
  }

  /**
   A planning outcome with feedback is sent back to the model, if repairs are allowed, none was
   asked for and it is not a respelling's: unless time or tokens are used up.
   */
  lemma RepairFollows(h: History, t: Terms, k: nat)
    requires Orderly(h, t) && Over(h, t) && k < |h| && h[k].Tried? && HasFeedback(h[k].outcome)
    requires t.settings.repair && !t.replay && (forall j :: 0 <= j < k ==> !Asks(h[j], ModelCall.Repair))
    requires k > 0 ==> !h[k - 1].LookedUp?
    ensures k + 1 < |h|
    ensures Asks(h[k + 1], ModelCall.Repair) ||
            (h[k + 1].Declined? && h[k + 1].call.Repair?
             && (LateAt(h[k + 1].moment, t) || ProgressOf(h[..k + 1], t).tokens >= t.settings.tokenLimit))
  {
    var front := h[..k];
    NeverAsked(front, t, ModelCall.Repair);
    RespellingIs(front, t);
    StepThen(h, t, k);
    assert Due(h[..k + 1], t) == Ask(ModelCall.Repair);
  }

  /** A result to be described to the model is sent back to it on the same terms. */
  lemma RepairFollowsRun(h: History, t: Terms, k: nat)
    requires Orderly(h, t) && Due(h, t).End? && k < |h| && h[k].Ran? && TroubleOf(t.answers(h[k].moment), t).Describable?
    requires t.settings.repair && !t.replay && (forall j :: 0 <= j < k ==> !Asks(h[j], ModelCall.Repair) && !h[j].Ran?)
    ensures k + 1 < |h|
    ensures Asks(h[k + 1], ModelCall.Repair) ||
            (h[k + 1].Declined? && h[k + 1].call.Repair?
             && (LateAt(h[k + 1].moment, t) || ProgressOf(h[..k + 1], t).tokens >= t.settings.tokenLimit))
  {
    var front := h[..k];
    NeverAsked(front, t, ModelCall.Repair);
    NeverRan(front, t);
    StepThen(h, t, k);
    assert Due(h[..k + 1], t) == Ask(ModelCall.Repair);
  }

  lemma {:induction false} NeverRan(h: History, t: Terms)
    requires forall j :: 0 <= j < |h| ==> !h[j].Ran?
    ensures ProgressOf(h, t).runs == []
  {
    if h != [] { NeverRan(h[..|h| - 1], t); }
  }

  lemma UndecidedStages(d: Decision, t: Terms)
    ensures AfterLooking(d, t) == End(NoDecision) ==> d.kind.EXPLORE? && !Exploring(t)
    ensures AfterWidening(d, t) == End(NoDecision) ==> d.kind.EXPLORE? && !Exploring(t)
    ensures AfterFirst(d, t) == End(NoDecision) ==> !d.caseId || (d.kind.EXPLORE? && !Exploring(t))
  {
  }

  predicate IsCall(s: Step, call: ModelCall) { (s.Asked? || s.Declined?) && s.call == call }

  predicate GotUsable(s: Step) { s.Asked? && Usable(s.call, s.reply) }

  /** Why a run may end without a decision, of its last step and what it comes to. */
  ghost predicate GivesUp(s: Step, p: Progress, t: Terms) {
    || (s.Resolved? && t.replay && !t.frozen.caseId)
    || (IsCall(s, Generation) && !GotUsable(s))
    || (p.force.kind.EXPLORE? && !Exploring(t))
    || (IsCall(s, Exploration) && !GotUsable(s))
    || (IsCall(s, Exploration) && p.force.kind.EXPLORE? && Of(p.counts, Exploration) >= t.settings.explorationRounds)
  }

  lemma CallGivesUp(p: Progress, s: Step, call: ModelCall, reply: Option<Decision>, t: Terms)
    requires IsCall(s, call) && reply == (if s.Asked? then s.reply else None) && AfterCall(p, call, reply, t) == End(NoDecision)
    requires call.Repair? ==> p.standing != End(NoDecision)
    ensures GivesUp(s, Advance(p, s, t), t)
  {
    UndecidedStages(Heeds(p.force, call, reply), t);
  }

  /**
   A run ends without a decision only where the first one is unusable, where the model asks to
   explore and may not, or where its last round brought no usable decision or one that explores on
   with no round left.
   */
  lemma NoDecisionWhy(h: History, t: Terms)
    requires Orderly(h, t) && Due(h, t) == End(NoDecision)
    ensures h != [] && GivesUp(h[|h| - 1], ProgressOf(h, t), t)
  {
    var front, s := h[..|h| - 1], h[|h| - 1];
    var p := ProgressOf(front, t);
    Prefix(h, |h| - 1, t);
    DueIsFitting(front, t);
    StepThen(h, t, |h| - 1);
    UndecidedStages(p.force, t);
    if s.Resolved? { FirstResolved(front, t); }
    if s.Asked? { CallGivesUp(p, s, s.call, s.reply, t); }
    if s.Declined? { CallGivesUp(p, s, s.call, None, t); }
  }

  /** Before the context is resolved there is no step. */
  lemma {:induction false} FirstResolved(h: History, t: Terms)
    requires Orderly(h, t)
    ensures !ProgressOf(h, t).entered ==> h == []
  {
    if h != [] {
      Prefix(h, |h| - 1, t);
      FirstResolved(h[..|h| - 1], t);
      assert OrderlyAt(h, t, |h| - 1);
    }
  }
}
