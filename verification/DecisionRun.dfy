/**
 The service that answers one question (app/decision/service.py): a first decision, optional stages
 that may replace it, then the query that answers.

 Main result: `Run.Answer`, for every sequence of provider replies, failures, clock readings,
 database answers and exceptions.  The run ends, having done at each progress what RunRules says is
 due and nothing else, and answers what that history comes to; only an exception stops it short.
 The provider is asked exactly the calls of the history, each kind within its allowance, and
 nothing by a replay; the gates judge exactly the texts of the history beside the explored ones;
 answering SQL is sent at most twice, and everything sent is that or one of at most two queries
 per probe counted; and a clarification is answered only by readings that all ran untruncated.
 */
module DecisionRun {
  import opened Seqs
  import Values
  import opened AttemptBudget
  import opened Results
  import opened SqlSafety
  import opened RunRules

  datatype Looking = Looking(open: bool, results: nat)

  datatype Attempt = Attempt(decision: Decision, planned: Option<PlanResult>, answer: Option<Answer>)

  datatype Outcome =
    | Executed(decision: Decision, plan: QueryPlan, execution: Execution,
               assumption: Option<string>, alternatives: seq<Alternative>)
    | ExecutionError(decision: Decision, plan: QueryPlan)
    | Rejected(decision: Decision, failure: Failure)
    | NonAnswer(decision: Decision)
    | GenerationError
    | NotEntered
    | Crashed

  /** What a step that an exception may end comes to; `:-` passes the exception on. */
  datatype Try<+T> = Done(value: T) | Thrown {
    predicate IsFailure() {
      Thrown?
    }

    function PropagateFailure<U>(): Try<U>
      requires IsFailure()
    {
      Thrown
    }

    function Extract(): T
      requires !IsFailure()
    {
      value
    }
  }

  /** The model's provider: answers every question with anything at all, and is never asked but here. */
  class Provider {
    const replies: nat -> Reply
    var asked: nat
    ghost var log: seq<ModelCall>

    constructor (replies: nat -> Reply)
      ensures this.replies == replies && asked == 0 && log == []
    {
      this.replies, asked, log := replies, 0, [];
    }

    method Ask(call: ModelCall) returns (reply: Reply)
      modifies this
      ensures log == old(log) + [call] && asked == old(asked) + 1 && reply == replies(old(asked))
    {
      reply := replies(asked);
      asked, log := asked + 1, log + [call];
    }
  }

  lemma AppendLast<T>(a: seq<T>, b: seq<T>, x: T)
    ensures (a + b) + [x] == a + (b + [x])
  {
  }

  /** Each plan that ran was sent at its moment. */
  predicate AllSent(ran: seq<(QueryPlan, nat)>, sendings: seq<QueryPlan>) {
    forall k :: 0 <= k < |ran| ==> ran[k].1 < |sendings| && sendings[ran[k].1] == ran[k].0
  }

  lemma SentMore(ran: seq<(QueryPlan, nat)>, sendings: seq<QueryPlan>, plan: QueryPlan)
    requires AllSent(ran, sendings)
    ensures AllSent(ran, sendings + [plan]) && AllSent(ran + [(plan, |sendings|)], sendings + [plan])
  {
  }

  /** What the provider and the service had been asked before the run. */
  datatype Before = Before(questions: seq<ModelCall>, asked: nat, candidates: seq<string>, probes: nat, sent: nat)

  class Run {
    const settings: Settings
    const world: World
    const replay: bool
    const budget: Budget
    const safety: SqlSafetyService
    const provider: Provider
    const authority: set<string>
    ghost const before: Before
    ghost const frozen: Decision
    var now: nat
    var decision: Decision
    var exploration: Option<Looking>
    var assumption: Option<string>
    var alternatives: seq<Alternative>
    ghost var history: History
    ghost var progress: Progress
    ghost var due: Next
    ghost var explored: nat
    ghost var exploring: seq<(QueryPlan, nat)>
    ghost var reading: Option<Reading>

    ghost function Held(): Terms
    {
      Terms(settings, world, replay, frozen, authority, safety.answers, provider.replies, before.asked, budget.started,
            safety.maxRows, safety.maxCost)
    }

    ghost predicate Valid()
      reads this`history, this`progress, this`due, this`exploring, this`explored, this`reading, budget, safety, provider
    {
      Tracked() && Kept() && reading == progress.reading
    }

    ghost predicate Kept()
      reads this`progress, this`exploring, this`explored, budget, safety, provider
    {
      forall p :: p == progress ==> Resources(p)
    }

    /** The steps so far followed the rules; what they come to, and what is due, is read off them only where one is recorded. */
    ghost predicate Tracked()
      reads this`history, this`progress, this`due
    {
      && Orderly(history, Held()) && (history == [] ==> due.Resolve?)
      && forall h :: h == history ==> progress == ProgressOf(h, Held()) && due == Due(h, Held())
    }

    /**
     Since the run began the provider was asked these questions and no other, the gates judged these
     texts and, beside them, only the explored ones, and no other texts were sent.
     */
    ghost predicate Resources(p: Progress)
      reads this`exploring, this`explored, budget, safety, provider
    {
      Limits() && Tallied(p) && Spent() && safety.Valid() && Listened(p) && Judged(p) && Delivered(p)
    }

    ghost predicate Limits()
      reads budget
    {
      && budget.Valid() && budget.allowed == Allowances(settings, replay)
      && (!replay ==>
            && budget.deadline == Some(settings.deadline) && budget.tokenLimit == Some(settings.tokenLimit)
            && budget.probeLimit == Some(ProbeQueries(settings)))
    }

    ghost predicate Tallied(p: Progress)
      reads budget`used, budget`tokens
    {
      budget.used == p.counts && budget.tokens == p.tokens
    }

    ghost predicate Spent()
      reads this`explored, budget`probeQueries
    {
      explored <= 2 * budget.probeQueries
    }

    ghost predicate Listened(p: Progress)
      reads provider`log, provider`asked
    {
      provider.log == before.questions + p.asked && provider.asked == before.asked + |p.asked|
    }

    ghost predicate Judged(p: Progress)
      reads safety`candidates
    {
      safety.candidates == before.candidates + p.texts
    }

    ghost predicate Delivered(p: Progress)
      reads this`exploring, this`explored, safety`sendings, safety`probes
    {
      && AllSent(p.runs, safety.sendings) && AllSent(exploring, safety.sendings)
      && |safety.sendings| == before.sent + |p.runs| + |exploring|
      && |safety.probes| == before.probes + explored && |exploring| <= explored
    }

    /** Every reading answered with ran in full, and the answer says what it must of them. */
    ghost predicate Read()
      reads this`reading, this`assumption, this`alternatives, this`exploring
    {
      && (reading.None? ==> assumption.None? && alternatives == [])
      && (reading.Some? ==>
            && AllRan(reading.value.probes, reading.value.results, exploring, safety.answers)
            && Rests(reading.value, assumption, alternatives, settings, world))
    }

    /** The decision held is the one the history puts in force. */
    ghost predicate InStep()
      reads this`progress, this`decision
    {
      decision == progress.force
    }

    /** An exception came of the last moment. */
    ghost predicate Broken()
      reads this`now
    {
      now > 0 && world.gates(now - 1).raises.Some?
    }

    /** An exception stopped the run where one may. */
    ghost predicate Interrupted()
      reads this`history, this`due, this`now
    {
      Broken() && CutAt(history, due)
    }

    /** Nothing was looked into yet. */
    ghost predicate Unlooked()
      reads this`exploration
    {
      exploration == if Exploring(Held()) then Some(Looking(true, 0)) else None
    }

    constructor (settings: Settings, world: World, replayed: Option<Decision>, safety: SqlSafetyService, provider: Provider,
                 authority: set<string>)
      requires safety.Valid()
      ensures Valid() && fresh(budget) && this.settings == settings && this.safety == safety && replay == replayed.Some?
      ensures this.world == world && this.authority == authority && this.provider == provider
      ensures history == [] && exploring == [] && explored == 0 && reading == None && Read() && InStep() && Unlooked()
      ensures decision == frozen && (replayed.Some? ==> decision == replayed.value)
    {
      this.settings, this.world, this.safety, this.provider, this.authority := settings, world, safety, provider, authority;
      before := Before(provider.log, provider.asked, safety.candidates, |safety.probes|, |safety.sendings|);
      replay, now := replayed.Some?, 1;
      budget := new Budget.ForRun(settings, replayed.Some?, world.clock(0));
      var first := if replayed.Some? then replayed.value else Decision(EXPLORE, false, "", [], [], false);
      decision, frozen := first, first;
      exploration := if replayed.None? && settings.exploration then Some(Looking(true, 0)) else None;
      assumption, alternatives, reading := None, [], None;
      history, explored, exploring := [], 0, [];
      due := Resolve;
      new;
      progress := Beginning(Held());
      Started();
    }

    lemma Started()
      requires history == [] && due == Resolve && progress == Beginning(Held()) && reading == None
      requires exploring == [] && explored == 0 && safety.Valid() && Limits()
      requires budget.used == map[] && budget.tokens == 0 && budget.probeQueries == 0
      requires before == Before(provider.log, provider.asked, safety.candidates, |safety.probes|, |safety.sendings|)
      ensures Valid()
    {
      assert before.questions + [] == before.questions && before.candidates + [] == before.candidates;
      assert Resources(progress);
    }

    /** Every step is recorded here. */
    ghost method Log(s: Step)
      requires Tracked() && Resources(Advance(progress, s, Held())) && reading == Advance(progress, s, Held()).reading
      requires Matches(s, due) && Told(progress, s, Held())
      modifies this`history, this`progress, this`due
      ensures Valid() && history == old(history) + [s]
      ensures progress == Advance(old(progress), s, Held()) && due == After(old(progress), s, Held())
    {
      Track(s);
    }

    ghost method Track(s: Step)
      requires Tracked() && Matches(s, due) && Told(progress, s, Held())
      modifies this`history, this`progress, this`due
      ensures Tracked() && history == old(history) + [s]
      ensures progress == Advance(old(progress), s, Held()) && due == After(old(progress), s, Held())
    {
      assert progress == ProgressOf(history, Held()) && due == Due(history, Held());
      MoreOrderly(history, s, Held());
      DueAfter(history, s, Held());
      due, progress := After(progress, s, Held()), Advance(progress, s, Held());
      history := history + [s];
    }

    // The world's answers, each at its own moment.

    method Tick() returns (t: nat)
      modifies this`now
      ensures t == old(now) && now == old(now) + 1
    {
      t := now;
      now := now + 1;
    }

    method Resolving() returns (ok: bool)
      requires Valid() && due.Resolve?
      modifies this`now, this`history, this`progress, this`due
      ensures Valid() && ok == world.context(old(now)) && history == old(history) + [Resolved(ok, old(now))]
      ensures due == AfterResolving(old(progress), ok, Held()) && progress == old(progress).(entered := true, respelling := false)
    {
      var t := Tick();
      ok := world.context(t);
      assert Resources(progress);
      Log(Resolved(ok, t));
    }

    /** Takes one call from the budget, if it can be afforded. */
    method Take(call: ModelCall) returns (granted: bool)
      requires Limits() && Tallied(progress)
      modifies this`now, budget`used, budget`stopped
      ensures now == old(now) + 1 && Limits()
      ensures granted <==> Affordable(progress, call, old(now), Held())
      ensures budget.used == if granted then old(budget.used)[call := Of(old(budget.used), call) + 1] else old(budget.used)
    {
      var t := Tick();
      var refusal := budget.Take(call, world.clock(t));
      granted := refusal.None?;
    }

    /** Asks the provider once; a reply that is no decision, or comes past the deadline, is None. */
    method Listen(call: ModelCall) returns (reply: Option<Decision>, ghost tokens: nat)
      requires Limits() && now > 0 && provider.asked == before.asked + |progress.asked|
      requires replay ==> call.Generation?
      modifies this`now, budget`tokens, budget`stopped, provider
      ensures Limits() && provider.log == old(provider.log) + [call] && provider.asked == old(provider.asked) + 1
      ensures budget.tokens == old(budget.tokens) + tokens
      ensures ToldReply(progress, call, reply, tokens, old(now) - 1, Held())
    {
      reply, tokens := None, 0;
      var r := provider.Ask(call);
      if !r.Proposed? {
        return;
      }
      var t := Tick();
      if !call.Generation? && budget.Late(world.clock(t)) {
        var late := budget.Stop(DEADLINE);
        return;
      }
      budget.SpendTokens(r.tokens);
      reply, tokens := Some(r.decision), r.tokens;
    }

    /** Every question to the provider passes here: one that cannot be afforded is not asked. */
    method Propose(call: ModelCall) returns (reply: Option<Decision>)
      requires Valid() && due == Ask(call)
      modifies this`now, this`history, this`progress, this`due, budget`used, budget`stopped, budget`tokens, provider
      ensures Valid() && |history| == |old(history)| + 1 && old(history) <= history
      ensures Records(history[|old(history)|], call, reply, old(now))
      ensures history[|old(history)|].Asked? <==> Affordable(old(progress), call, old(now), Held())
      ensures due == AfterCall(old(progress), call, reply, Held())
      ensures progress == Advance(old(progress), history[|old(history)|], Held())
    {
      var granted := Grant(call);
      if granted {
        reply := Hear(call);
      } else {
        reply := None;
        Refuse(Declined(call, old(now)));
      }
    }

    /** A call was granted and is still to be made. */
    ghost predicate Granted(call: ModelCall)
      reads this`history, this`progress, this`due, this`exploring, this`explored, this`reading, budget, safety, provider
    {
      && Tracked() && reading == progress.reading && Limits() && Spent() && safety.Valid()
      && Listened(progress) && Judged(progress) && Delivered(progress)
      && budget.used == Counted(progress, call) && budget.tokens == progress.tokens
    }

    method Grant(call: ModelCall) returns (granted: bool)
      requires Valid() && due == Ask(call)
      modifies this`now, budget`used, budget`stopped
      ensures now == old(now) + 1 && (granted <==> Affordable(progress, call, old(now), Held()))
      ensures if granted then Granted(call) else Valid()
    {
      assert Resources(progress);
      granted := Take(call);
      assert !granted ==> Resources(progress);
    }

    ghost method Refuse(s: Step)
      requires Valid() && s.Declined? && Matches(s, due) && Told(progress, s, Held())
      modifies this`history, this`progress, this`due
      ensures Valid() && history == old(history) + [s]
      ensures progress == Advance(old(progress), s, Held()) && due == AfterCall(old(progress), s.call, None, Held())
    {
      assert Resources(progress);
      Log(s);
    }

    /** A call that was granted at the moment before. */
    method Hear(call: ModelCall) returns (reply: Option<Decision>)
      requires Granted(call) && due == Ask(call) && now > 0 && Affordable(progress, call, now - 1, Held())
      modifies this`now, this`history, this`progress, this`due, budget`stopped, budget`tokens, provider
      ensures Valid() && |history| == |old(history)| + 1 && old(history) <= history
      ensures history[|old(history)|].Asked? && Records(history[|old(history)|], call, reply, old(now) - 1)
      ensures due == AfterCall(old(progress), call, reply, Held())
      ensures progress == Advance(old(progress), history[|old(history)|], Held())
    {
      ghost var tokens;
      reply, tokens := Listen(call);
      NoteCall(Asked(call, reply, tokens, old(now) - 1));
    }

    ghost function Counted(p: Progress, call: ModelCall): Counts {
      p.counts[call := Of(p.counts, call) + 1]
    }

    ghost method NoteCall(s: Step)
      requires s.Asked? && Tracked() && Matches(s, due) && Told(progress, s, Held()) && reading == progress.reading
      requires Limits() && Spent() && safety.Valid() && Judged(progress) && Delivered(progress)
      requires budget.used == Counted(progress, s.call) && budget.tokens == progress.tokens + s.tokens
      requires provider.log == before.questions + progress.asked + [s.call]
      requires provider.asked == before.asked + |progress.asked| + 1
      modifies this`history, this`progress, this`due
      ensures Valid() && history == old(history) + [s]
      ensures progress == Advance(old(progress), s, Held()) && due == AfterCall(old(progress), s.call, s.reply, Held())
    {
      AppendLast(before.questions, progress.asked, s.call);
      Log(s);
    }

    /** This call and its reply, or its refusal. */
    ghost predicate Records(s: Step, call: ModelCall, reply: Option<Decision>, moment: nat) {
      || (s == Declined(call, moment) && reply.None?)
      || (s.Asked? && s.call == call && s.reply == reply && s.moment == moment)
    }

    // Before anything is planned: each of these leaves a decision, the same or another.

    /** Nothing was planned since, and no repair asked for. */
    ghost predicate StillAsking(p: Progress)
      reads this`progress
    {
      && progress.runs == p.runs && progress.entered == p.entered && progress.reading == p.reading
      && (progress.respelling ==> p.respelling)
      && Of(progress.counts, ModelCall.Repair) == Of(p.counts, ModelCall.Repair)
    }

    /** The model's decision, or the frozen one; false when it cannot be used. */
    method FirstDecision() returns (usable: bool)
      requires Valid() && InStep() && progress.counts == map[]
      requires due == if replay then AfterFirst(decision, Held()) else Ask(Generation)
      modifies this`now, this`history, this`progress, this`due, this`decision,
               budget`used, budget`stopped, budget`tokens, provider
      ensures Valid() && InStep() && old(history) <= history && StillAsking(old(progress))
      ensures due == if usable then AfterFirst(decision, Held()) else End(NoDecision)
      ensures usable ==> decision.caseId
      ensures Of(progress.counts, Exploration) == 0
      ensures !replay ==> |history| == |old(history)| + 1 && history[|old(history)|].Asked? && history[|old(history)|].call.Generation?
      ensures replay ==> history == old(history) && decision == old(decision)
    {
      usable := true;
      if !replay {
        var proposal := Propose(Generation);
        usable := proposal.Some?;
        decision := if proposal.Some? then proposal.value else decision;
      }
      usable := usable && decision.caseId;
    }

    /** Asks for a decision to take the place of the one in force; an unusable reply leaves it. */
    method AskAgain(call: ModelCall)
      requires Valid() && InStep() && due == Ask(call) && (call.ContextExpansion? || call.LookFirst?)
      modifies this`now, this`history, this`progress, this`due, this`decision,
               budget`used, budget`stopped, budget`tokens, provider
      ensures Valid() && InStep() && old(history) <= history && StillAsking(old(progress))
      ensures Of(progress.counts, Exploration) == Of(old(progress.counts), Exploration)
      ensures due == if call.ContextExpansion? then AfterWidening(decision, Held()) else AfterLooking(decision, Held())
      ensures decision != old(decision) ==> decision.caseId
    {
      var proposal := Propose(call);
      if proposal.Some? && proposal.value.caseId {
        decision := proposal.value;
      }
    }

    /** An authority refusal is put to the model again with more of the schema, if more can be resolved. */
    method WidenContext()
      requires Valid() && InStep() && progress.entered && decision.caseId && due == AfterFirst(decision, Held())
      modifies this`now, this`history, this`progress, this`due, this`decision,
               budget`used, budget`stopped, budget`tokens, provider
      ensures Valid() && InStep() && old(history) <= history && StillAsking(old(progress))
      ensures Of(progress.counts, Exploration) == Of(old(progress.counts), Exploration)
      ensures due == AfterWidening(decision, Held())
      ensures decision != old(decision) ==> old(decision).kind.BLOCKED_AUTHORITY? && decision.caseId
    {
      if replay || !settings.contextExpansion || !decision.kind.BLOCKED_AUTHORITY? || !decision.omitted {
        return;
      }
      var ok := Resolving();
      if ok {
        AskAgain(ContextExpansion);
      }
    }

    /** A clarification or an authority refusal made while exploration is open and unused is put to the model once more. */
    method LookFirst()
      requires Valid() && InStep() && Unlooked() && due == AfterWidening(decision, Held())
      modifies this`now, this`history, this`progress, this`due, this`decision,
               budget`used, budget`stopped, budget`tokens, provider
      ensures Valid() && InStep() && old(history) <= history && StillAsking(old(progress))
      ensures Of(progress.counts, Exploration) == Of(old(progress.counts), Exploration)
      ensures due == AfterLooking(decision, Held())
      ensures decision != old(decision) ==>
        decision.caseId && (old(decision).kind.NEEDS_CLARIFICATION? || old(decision).kind.BLOCKED_AUTHORITY?)
    {
      if exploration.None? || !exploration.value.open || exploration.value.results > 0
         || !(decision.kind.NEEDS_CLARIFICATION? || decision.kind.BLOCKED_AUTHORITY?) {
        return;
      }
      AskAgain(ModelCall.LookFirst);
    }

    /** Leaves nothing to explore, or stops the run. */
    method Explore() returns (r: Try<bool>)
      requires Valid() && InStep() && Unlooked() && due == AfterLooking(decision, Held()) && Of(progress.counts, Exploration) == 0
      modifies this`now, this`history, this`progress, this`due, this`decision, this`exploration, this`explored, this`exploring,
               budget, safety, provider
      ensures Valid() && old(history) <= history && StillAsking(old(progress))
      ensures r.Thrown? ==> Interrupted()
      ensures r == Done(true) ==> InStep() && !decision.kind.EXPLORE? && due == AfterExploring(decision, Held())
      ensures r == Done(false) ==> due == End(NoDecision)
      ensures exploration.Some? && r == Done(true) ==> !exploration.value.open
    {
      if decision.kind.EXPLORE? {
        var explored :- ProbeRounds();
        if explored.None? {
          return Done(false);
        }
        decision := explored.value;
      }
      if exploration.Some? {
        exploration := Some(exploration.value.(open := false));
      }
      r := Done(true);
    }

    /** Rounds of probes, each with a decision after it, while the model explores and a round is left. */
    method ProbeRounds() returns (r: Try<Option<Decision>>)
      requires Valid() && InStep() && Unlooked() && decision.kind.EXPLORE?
      requires due == AfterLooking(decision, Held()) && Of(progress.counts, Exploration) == 0
      modifies this`now, this`history, this`progress, this`due, this`exploration, this`explored, this`exploring,
               budget, safety, provider
      ensures Valid() && old(history) <= history && StillAsking(old(progress))
      ensures r.Thrown? ==> Interrupted()
      ensures r == Done(None) ==> due == End(NoDecision)
      ensures r.Done? && r.value.Some? ==>
        && !r.value.value.kind.EXPLORE? && r.value.value.caseId && !replay
        && progress.force == r.value.value && due == AfterExploring(r.value.value, Held())
    {
      var current := decision;
      var rounds := 0;
      var proposal: Option<Decision> := None;
      while current.kind.EXPLORE? && exploration.Some? && exploration.value.open
        invariant Valid() && old(history) <= history && StillAsking(old(progress))
        invariant rounds == Of(progress.counts, Exploration) && current == progress.force
        invariant rounds == 0 ==> proposal.None? && due == AfterLooking(current, Held()) && Unlooked() && current.kind.EXPLORE?
        invariant rounds > 0 ==> proposal == Some(current) && current.caseId && Explored(current, rounds)
        decreases settings.explorationRounds - rounds
      {
        rounds := rounds + 1;
        proposal :- ProbeRound(current.probes, rounds < settings.explorationRounds);
        if proposal.None? {
          return Done(None);
        }
        current := proposal.value;
      }
      r := Done(if proposal.None? || current.kind.EXPLORE? then None else proposal);
    }

    /** The decision after this many rounds, and whether another may follow. */
    ghost predicate Explored(d: Decision, rounds: nat)
      reads this`exploration, this`due
    {
      && exploration.Some? && exploration.value.open == (rounds < settings.explorationRounds) && Exploring(Held())
      && due == if d.kind.EXPLORE? && rounds >= settings.explorationRounds then End(NoDecision) else AfterLooking(d, Held())
    }

    /** Runs one round's probes and asks for the decision after them. */
    method ProbeRound(probes: seq<string>, more: bool) returns (r: Try<Option<Decision>>)
      requires Valid() && due == Ask(Exploration) && exploration.Some? && Exploring(Held())
      requires more == (Of(progress.counts, Exploration) + 1 < settings.explorationRounds)
      modifies this`now, this`history, this`progress, this`due, this`exploration, this`explored, this`exploring,
               budget, safety, provider
      ensures Valid() && old(history) <= history && StillAsking(old(progress))
      ensures r.Thrown? ==> Interrupted()
      ensures r == Done(None) ==> due == End(NoDecision)
      ensures r.Done? && r.value.Some? ==>
        && progress.force == r.value.value && Of(progress.counts, Exploration) == Of(old(progress.counts), Exploration) + 1
        && r.value.value.caseId && Explored(r.value.value, Of(progress.counts, Exploration))
    {
      var found :- RunProbes(probes);
      exploration := Some(Looking(more, exploration.value.results + found));
      var proposal := AskRound();
      r := Done(proposal);
    }

    /** The decision after a round; None when there is none to use. */
    method AskRound() returns (proposal: Option<Decision>)
      requires Valid() && due == Ask(Exploration)
      modifies this`now, this`history, this`progress, this`due, budget`used, budget`stopped, budget`tokens, provider
      ensures Valid() && old(history) <= history && StillAsking(old(progress))
      ensures proposal.None? ==> due == End(NoDecision)
      ensures proposal.Some? ==>
        && proposal.value == progress.force && proposal.value.caseId && due == AfterRound(old(progress), proposal.value, Held())
        && Of(progress.counts, Exploration) == Of(old(progress.counts), Exploration) + 1
    {
      proposal := Propose(ModelCall.Exploration);
      if proposal.Some? && !proposal.value.caseId {
        proposal := None;
      }
    }

    /**
     Each probe is counted before it runs, and each counted one runs; one that matched nothing may
     run once more, respelled.  A probe is passed over only at a limit.
     */
    method RunProbes(probes: seq<string>) returns (r: Try<nat>)
      requires Valid() && due == Ask(Exploration)
      modifies this`now, this`explored, this`exploring, budget`probeQueries, budget`stopped, safety
      ensures Valid() && (r.Thrown? ==> Broken())
      ensures old(budget.probeQueries) <= budget.probeQueries <= old(budget.probeQueries) + MAX_PROBES
      ensures r.Done? ==> r.value == if |probes| <= MAX_PROBES then |probes| else MAX_PROBES
      ensures r.Done? ==> budget.probeQueries == old(budget.probeQueries) + r.value || budget.stopped.Some?
      ensures explored <= old(explored) + 2 * (budget.probeQueries - old(budget.probeQueries))
      ensures r.Done? ==> explored >= old(explored) + (budget.probeQueries - old(budget.probeQueries))
    {
      var cut := if |probes| <= MAX_PROBES then probes else probes[..MAX_PROBES];
      for k := 0 to |cut|
        invariant Valid()
        invariant old(budget.probeQueries) <= budget.probeQueries <= old(budget.probeQueries) + k
        invariant budget.probeQueries == old(budget.probeQueries) + k || budget.stopped.Some?
        invariant explored <= old(explored) + 2 * (budget.probeQueries - old(budget.probeQueries))
        invariant explored >= old(explored) + (budget.probeQueries - old(budget.probeQueries))
      {
        var _ :- CountProbe(cut[k]);
      }
      r := Done(|cut|);
    }

    /** One probe: counted, then run, unless a limit is reached. */
    method CountProbe(sql: string) returns (r: Try<()>)
      requires Valid()
      modifies this`now, this`explored, this`exploring, budget`probeQueries, budget`stopped, safety
      ensures Valid() && (r.Thrown? ==> Broken())
      ensures old(budget.probeQueries) <= budget.probeQueries <= old(budget.probeQueries) + 1
      ensures budget.probeQueries == old(budget.probeQueries) ==> budget.stopped.Some?
      ensures old(budget.stopped).Some? ==> budget.stopped.Some?
      ensures explored <= old(explored) + 2 * (budget.probeQueries - old(budget.probeQueries))
      ensures explored >= old(explored) + (budget.probeQueries - old(budget.probeQueries))
    {
      assert Resources(progress);
      var t := Tick();
      var refusal := budget.TakeProbeQuery(world.clock(t));
      r := Done(());
      if refusal.None? {
        r := RunProbe(sql);
      }
    }

    method RunProbe(sql: string) returns (r: Try<()>)
      requires Valid() && explored + 2 <= 2 * budget.probeQueries
      modifies this`now, this`explored, this`exploring, safety
      ensures Valid() && old(explored) + 1 <= explored <= old(explored) + 2 && (r.Thrown? ==> Broken())
      ensures |safety.probes| > |old(safety.probes)| && safety.probes[|old(safety.probes)|] == sql
    {
      var execution :- RunQuery(sql);
      if execution.Some? && execution.value.rows == [] {
        var respelling := Respelling(sql);
        if respelling.Some? {
          var _ :- RunQuery(respelling.value);
        }
      }
      r := Done(());
    }

    method Respelling(sql: string) returns (respelling: Option<string>)
      modifies this`now
      ensures now == old(now) + 1 && respelling == Spelling(sql, old(now), world)
    {
      var t := Tick();
      var probed := world.probed(t, sql);
      respelling := if probed.Some? && probed.value.changed then Some(probed.value.sql) else None;
    }

    /** One explored query, counted; a result is what the database answered a plan of exactly this text. */
    method RunQuery(sql: string) returns (r: Try<Option<Execution>>)
      requires Valid() && explored + 1 <= 2 * budget.probeQueries
      modifies this`now, this`explored, this`exploring, safety
      ensures Valid() && explored == old(explored) + 1 && old(exploring) <= exploring
      ensures safety.probes == old(safety.probes) + [sql]
      ensures r.Thrown? ==> Broken()
      ensures r.Done? ==> r.value == Answered(sql, old(exploring), exploring)
    {
      var t := Tick();
      var planned, executed := Look(sql, t);
      if planned.Raised? || (executed.Some? && executed.value.Broke?) {
        return Thrown;
      }
      r := Done(None);
      if executed.Some? && executed.value.answer.Rows? {
        r := Done(Some(executed.value.answer.execution));
      }
    }

    /** The rows the database answered the explored query made last, if it was planned and they were rows. */
    ghost function Answered(sql: string, ran: seq<(QueryPlan, nat)>, ran': seq<(QueryPlan, nat)>): Option<Execution> {
      if |ran'| == |ran| + 1 && ran'[|ran|].0.source == sql && safety.answers(ran'[|ran|].1).Rows?
      then Some(safety.answers(ran'[|ran|].1).execution) else None
    }

    method Look(sql: string, t: nat) returns (planned: PlanResult, executed: Option<Executed>)
      requires Valid() && explored + 1 <= 2 * budget.probeQueries
      modifies this`explored, this`exploring, safety
      ensures Valid() && explored == old(explored) + 1 && safety.probes == old(safety.probes) + [sql]
      ensures executed.Some? <==> planned.Planned?
      ensures planned.Planned? ==> planned.plan.source == sql
      ensures exploring == if executed.Some? then old(exploring) + [(planned.plan, |old(safety.sendings)|)] else old(exploring)
      ensures planned.Raised? || executed == Some(Broke) ==> world.gates(t).raises.Some?
      ensures executed.Some? && !executed.value.Broke? ==> executed == Some(Executed.Ran(safety.answers(|old(safety.sendings)|)))
    {
      assert Resources(progress);
      ghost var sendings := safety.sendings;
      planned, executed := safety.Explore(CandidateOf(sql, authority), world.gates(t));
      NoteLook(if planned.Planned? then [planned.plan] else [], sendings);
    }

    /** A text was explored, and this plan of it sent, if any. */
    ghost method NoteLook(plans: seq<QueryPlan>, sendings: seq<QueryPlan>)
      requires Tracked() && reading == progress.reading && |plans| <= 1
      requires Limits() && Tallied(progress) && safety.Valid() && Listened(progress) && Judged(progress)
      requires AllSent(progress.runs, sendings) && AllSent(exploring, sendings)
      requires |sendings| == before.sent + |progress.runs| + |exploring| && safety.sendings == sendings + plans
      requires |safety.probes| == before.probes + explored + 1 && |exploring| <= explored && explored + 1 <= 2 * budget.probeQueries
      modifies this`explored, this`exploring
      ensures Valid() && explored == old(explored) + 1
      ensures exploring == if plans != [] then old(exploring) + [(plans[0], |sendings|)] else old(exploring)
    {
      explored := explored + 1;
      if plans != [] {
        assert plans == [plans[0]];
        SentMore(progress.runs, sendings, plans[0]);
        SentMore(exploring, sendings, plans[0]);
        exploring := exploring + [(plans[0], |sendings|)];
      } else {
        assert sendings + plans == sendings;
      }
      assert Resources(progress);
    }

    /** One reading, counted and run: its result, if it could be afforded, ran, and was not cut off. */
    method RunReading(sql: string) returns (r: Try<Option<Execution>>)
      requires Valid()
      modifies this`now, this`explored, this`exploring, budget`probeQueries, budget`stopped, safety
      ensures Valid() && old(exploring) <= exploring && (r.Thrown? ==> Broken())
      ensures old(budget.probeQueries) <= budget.probeQueries <= old(budget.probeQueries) + 1
      ensures budget.probeQueries == old(budget.probeQueries) ==> r == Done(None) && budget.stopped.Some?
      ensures explored == old(explored) + (budget.probeQueries - old(budget.probeQueries))
      ensures r.Done? ==> r.value == InFull(Answered(sql, old(exploring), exploring))
    {
      assert Resources(progress);
      var t := Tick();
      var refusal := budget.TakeProbeQuery(world.clock(t));
      if refusal.Some? {
        return Done(None);
      }
      var execution :- RunQuery(sql);
      r := Done(if execution.Some? && execution.value.truncated then None else execution);
    }

    ghost function InFull(execution: Option<Execution>): Option<Execution> {
      if execution.Some? && execution.value.truncated then None else execution
    }

    /** Results only when each reading was counted, ran, and was not cut off: each is what the database answered that SQL. */
    method RunReadings(probes: seq<string>) returns (r: Try<Option<seq<Execution>>>)
      requires Valid() && due.Compare?
      modifies this`now, this`explored, this`exploring, budget`probeQueries, budget`stopped, safety
      ensures Valid() && (r.Thrown? ==> Broken())
      ensures r.Done? && r.value.Some? ==>
        && AllRan(probes, r.value.value, exploring, safety.answers)
        && budget.probeQueries == old(budget.probeQueries) + |probes| && explored == old(explored) + |probes|
      ensures r == Done(None) ==> exists k, ran :: 0 <= k < |probes| && Stuck(probes[k], ran)
    {
      var found: seq<Execution> := [];
      for k := 0 to |probes|
        invariant Valid()
        invariant |found| == k && AllRan(probes[..k], found, exploring, safety.answers)
        invariant budget.probeQueries == old(budget.probeQueries) + k && explored == old(explored) + k
      {
        ghost var ran := exploring;
        var execution :- RunReading(probes[k]);
        if execution.None? {
          assert Stuck(probes[k], ran);
          return Done(None);
        }
        assert RanAs(probes[k], execution.value, exploring, safety.answers);
        OneMoreRan(probes, k, found, execution.value, ran, exploring, safety.answers);
        found := found + [execution.value];
      }
      assert probes[..|probes|] == probes;
      r := Done(Some(found));
    }

    /** This reading, tried after `ran`, was refused by a limit, or came to no result in full. */
    ghost predicate Stuck(sql: string, ran: seq<(QueryPlan, nat)>)
      reads this`exploring, budget`stopped
    {
      ran <= exploring && (budget.stopped.Some? || InFull(Answered(sql, ran, exploring)).None?)
    }

    /**
     A clarification is answered by its first reading's SQL only when every reading ran in full:
     silently when they agree, and otherwise, where settings assume, naming the reading taken
     and carrying the others.
     */
    method CheckReadings() returns (r: Try<()>)
      requires Valid() && InStep() && reading.None? && Read() && !decision.kind.EXPLORE?
      requires due == AfterExploring(decision, Held())
      modifies this`now, this`history, this`progress, this`due, this`decision, this`explored, this`exploring, this`assumption,
               this`alternatives, this`reading, budget, safety, provider
      ensures Valid() && old(history) <= history && Read() && (r.Thrown? ==> Interrupted() && reading.None?)
      ensures progress.runs == old(progress.runs) && (progress.respelling ==> old(progress.respelling))
      ensures r.Done? ==> InStep() && !decision.kind.EXPLORE? && due == AfterReading(decision)
      ensures r.Done? && reading.None? ==> decision == old(decision)
      ensures reading.Some? ==> reading.value.asking == old(decision) && decision == AnswerWith(reading.value.probes[0])
    {
      var readings := decision.interpretations;
      if replay || !decision.kind.NEEDS_CLARIFICATION? || !settings.readingCheck || !(2 <= |readings| <= MAX_PROBES) {
        return Done(());
      }
      var probes := AskReadings();
      if probes.Some? {
        var results :- RunReadings(probes.value);
        Settle(probes.value, results);
      }
      r := Done(());
    }

    /** Nothing was planned since, and no repair asked for; readings may have been answered with. */
    ghost predicate StillPlanless(p: Progress)
      reads this`progress
    {
      && progress.runs == p.runs && (progress.respelling ==> p.respelling)
      && Of(progress.counts, ModelCall.Repair) == Of(p.counts, ModelCall.Repair)
    }

    /** The model's SQL for each reading, or None when it gives none. */
    method AskReadings() returns (probes: Option<seq<string>>)
      requires Valid() && InStep() && due == Ask(ReadingCheck)
      modifies this`now, this`history, this`progress, this`due, budget`used, budget`stopped, budget`tokens, provider
      ensures Valid() && InStep() && old(history) <= history && StillPlanless(old(progress))
      ensures probes.None? ==> due == AfterReading(decision)
      ensures probes.Some? ==>
        due == Compare(probes.value) && progress.written == probes.value && |probes.value| == |decision.interpretations|
    {
      var proposal := Propose(ReadingCheck);
      if proposal.None? || !proposal.value.caseId || !proposal.value.kind.EXPLORE?
         || |proposal.value.probes| != |decision.interpretations| {
        return None;
      }
      probes := Some(proposal.value.probes);
    }

    method Settle(probes: seq<string>, results: Option<seq<Execution>>)
      requires Valid() && InStep() && due == Compare(probes) && progress.written == probes && reading.None? && Read()
      requires decision.kind.NEEDS_CLARIFICATION? && 2 <= |probes| == |decision.interpretations| <= MAX_PROBES
      requires results.Some? ==> AllRan(probes, results.value, exploring, safety.answers)
      modifies this`history, this`progress, this`due, this`decision, this`assumption, this`alternatives, this`reading
      ensures Valid() && InStep() && history == old(history) + [Compared(results)]
      ensures StillPlanless(old(progress)) && due == AfterReading(decision) && Read()
      ensures reading.Some? <==> Adopts(old(progress), results, Held())
      ensures reading.None? ==> decision == old(decision)
      ensures reading.Some? ==>
        decision == AnswerWith(probes[0]) && reading == Some(Reading(old(decision), probes, results.value))
    {
      if results.Some? && (Agree(results.value, world.repr) || settings.assumes) {
        Adopt(Reading(decision, probes, results.value));
      }
      NoteCompared(results);
    }

    method Adopt(read: Reading)
      requires read.asking == decision && reading.None? && decision.kind.NEEDS_CLARIFICATION?
      requires 2 <= |read.probes| == |decision.interpretations| <= MAX_PROBES
      requires AllRan(read.probes, read.results, exploring, safety.answers) && Read()
      requires Agree(read.results, world.repr) || settings.assumes
      modifies this`decision, this`assumption, this`alternatives, this`reading
      ensures Read() && reading == Some(read) && decision == AnswerWith(read.probes[0])
    {
      reading, decision := Some(read), Decision(ANSWER, true, read.probes[0], [], [], false);
      if !Agree(read.results, world.repr) {
        assumption, alternatives := Some(read.asking.interpretations[0]), Others(read);
      }
    }

    ghost method NoteCompared(results: Option<seq<Execution>>)
      requires Tracked() && Kept() && due.Compare? && reading == Advance(progress, Compared(results), Held()).reading
      requires results.Some? ==> |results.value| == |progress.written|
      modifies this`history, this`progress, this`due
      ensures Valid() && history == old(history) + [Compared(results)]
      ensures progress == Advance(old(progress), Compared(results), Held()) && due == AfterReading(progress.force)
    {
      assert Resources(progress);
      Log(Compared(results));
    }

    // The answering SQL: planned, sent, and its result looked at.

    /** Every plan of answering SQL is made here, and its outcome joins the history. */
    method PlanFor(sql: string) returns (r: Try<PlanResult>)
      requires Valid() && due == Plan(sql)
      modifies this`now, this`history, this`progress, this`due, safety
      ensures Valid() && old(history) <= history && |history| == |old(history)| + 1
      ensures history[|old(history)|].Tried? && history[|old(history)|].sql == sql
      ensures due == After(old(progress), history[|old(history)|], Held())
      ensures progress == Advance(old(progress), history[|old(history)|], Held())
      ensures r == if history[|old(history)|].outcome.Raised? then Thrown else Done(history[|old(history)|].outcome)
      ensures r.Thrown? ==> Interrupted()
      ensures r.Done? && r.value.Planned? ==> Issued(r.value.plan)
    {
      var t := Tick();
      var planned := PlanNow(sql, t);
      NotePlanning(Tried(sql, planned, t));
      r := if planned.Raised? then Thrown else Done(planned);
    }

    method PlanNow(sql: string, t: nat) returns (planned: PlanResult)
      requires Valid()
      modifies safety
      ensures Resources(progress.(texts := progress.texts + [sql])) && ToldOutcome(sql, planned, t, Held())
      ensures planned.Planned? ==> Issued(planned.plan)
      ensures planned.Raised? ==> world.gates(t).raises.Some?
    {
      assert Resources(progress);
      planned := safety.Plan(CandidateOf(sql, authority), world.gates(t));
      AnyDefault(sql, authority, safety.defaultAuthority, world.gates(t));
      AppendLast(before.candidates, progress.texts, sql);
    }

    ghost method NotePlanning(s: Step)
      requires s.Tried? && Tracked() && Matches(s, due) && Told(progress, s, Held()) && reading == progress.reading
      requires Resources(progress.(texts := progress.texts + [s.sql]))
      modifies this`history, this`progress, this`due
      ensures Valid() && history == old(history) + [s]
      ensures progress == Advance(old(progress), s, Held()) && due == After(old(progress), s, Held())
    {
      Log(s);
    }

    ghost predicate Issued(plan: QueryPlan)
      reads safety
    {
      plan.id in safety.accepted && safety.accepted[plan.id] == plan
    }

    /** Spends a repair, if it can be afforded, on what stands; a usable reply is never EXPLORE. */
    method Repair() returns (repaired: Option<Decision>)
      requires Valid() && due == Ask(ModelCall.Repair)
      modifies this`now, this`history, this`progress, this`due, budget`used, budget`stopped, budget`tokens, provider
      ensures Valid() && old(history) <= history && progress.runs == old(progress.runs) && !progress.respelling
      ensures repaired.Some? ==> !repaired.value.kind.EXPLORE? && progress.force == repaired.value && due == AfterReading(repaired.value)
      ensures repaired.Some? ==> !RepairLeft(progress, Held())
      ensures repaired.None? ==> progress.force == old(progress.force) && due == old(progress.standing)
    {
      repaired := Propose(ModelCall.Repair);
      if repaired.Some? && (!repaired.value.caseId || repaired.value.kind.EXPLORE?) {
        repaired := None;
      }
    }

    /**
     Plans the SQL.  The plan of the decision's own SQL is the first step; a rejection with
     feedback may spend the repair round, and a final one is returned with nothing after it.
     */
    method AdmitSql() returns (r: Try<PlanResult>)
      requires Valid() && InStep() && decision.kind.ANSWER? && due == Plan(decision.sql)
      requires progress.runs == [] && !progress.respelling
      modifies this`now, this`history, this`progress, this`due, this`decision,
               budget`used, budget`stopped, budget`tokens, safety, provider
      ensures Valid() && !decision.kind.EXPLORE? && Opens(old(history), history, old(decision).sql)
      ensures r.Thrown? ==> Interrupted()
      ensures !HasFeedback(history[|old(history)|].outcome) ==>
        |history| == |old(history)| + 1 && decision == old(decision) && (r.Done? ==> r.value == history[|old(history)|].outcome)
      ensures r.Done? ==> InStep() && progress.runs == [] && Ready(r.value)
    {
      var planned :- PlanFor(decision.sql);
      r := Mend(planned);
    }

    /** The steps since, of which the first planned this text. */
    ghost predicate Opens(h: History, h': History, sql: string) {
      |h'| > |h| && h <= h' && h'[|h|].Tried? && h'[|h|].sql == sql
    }

    /** This outcome is the one to go on with, unless the decision no longer answers. */
    ghost predicate Ready(planned: PlanResult)
      reads this`due, this`decision, safety
    {
      if decision.kind.ANSWER? then
        !planned.Raised? && due == Settled(planned, decision) && (planned.Planned? ==> Issued(planned.plan))
      else due == End(Declines(decision))
    }

    /** Only an outcome with feedback is repaired, and only while a repair is left. */
    method Mend(planned: PlanResult) returns (r: Try<PlanResult>)
      requires Valid() && InStep() && decision.kind.ANSWER? && progress.runs == [] && !planned.Raised?
      requires due == AfterTry(progress, planned, Held()) && progress.standing == Settled(planned, decision)
      requires !progress.respelling && (planned.Planned? ==> Issued(planned.plan))
      modifies this`now, this`history, this`progress, this`due, this`decision,
               budget`used, budget`stopped, budget`tokens, safety, provider
      ensures Valid() && !decision.kind.EXPLORE? && old(history) <= history
      ensures r.Thrown? ==> Interrupted()
      ensures !HasFeedback(planned) ==> history == old(history) && decision == old(decision) && r == Done(planned)
      ensures r.Done? ==> InStep() && progress.runs == [] && Ready(r.value)
    {
      assert Resources(progress);
      if budget.Left(ModelCall.Repair) <= 0 || !HasFeedback(planned) {
        return Done(planned);
      }
      var repaired := Repair();
      if repaired.None? {
        return Done(planned);
      }
      r := PlanRepaired(repaired.value);
    }

    method PlanRepaired(repaired: Decision) returns (r: Try<PlanResult>)
      requires Valid() && progress.force == repaired && !repaired.kind.EXPLORE? && due == AfterReading(repaired)
      requires progress.runs == [] && !RepairLeft(progress, Held())
      modifies this`now, this`history, this`progress, this`due, this`decision, safety
      ensures Valid() && InStep() && decision == repaired && old(history) <= history && (r.Thrown? ==> Interrupted())
      ensures r.Done? ==> progress.runs == [] && Ready(r.value)
    {
      decision := repaired;
      if !decision.kind.ANSWER? {
        return Done(Raised);
      }
      r := PlanFor(decision.sql);
    }

    /** Sends an answering plan, once; the answer is lost where recording it raises. */
    method Answering(plan: QueryPlan) returns (r: Try<Answer>)
      requires Valid() && Issued(plan) && due == Send(plan)
      modifies this`now, this`history, this`progress, this`due, safety
      ensures Valid() && history == old(history) + [Step.Ran(plan, |old(safety.sendings)|)]
      ensures r.Thrown? ==> Interrupted()
      ensures progress == Advance(old(progress), Step.Ran(plan, |old(safety.sendings)|), Held())
      ensures due == AfterRun(old(progress), plan, |old(safety.sendings)|, Held())
      ensures r.Done? ==> r.value == safety.answers(|old(safety.sendings)|)
    {
      var t := Tick();
      ghost var moment := |safety.sendings|;
      var executed := SendNow(plan, world.gates(t).raises == Some(AtRunRecord));
      NoteRun(Step.Ran(plan, moment));
      r := if executed.Broke? then Thrown else Done(executed.answer);
    }

    method SendNow(plan: QueryPlan, breaks: bool) returns (executed: Executed)
      requires Valid() && Issued(plan)
      modifies safety
      ensures Resources(progress.(runs := progress.runs + [(plan, |old(safety.sendings)|)]))
      ensures !executed.NotIssued? && (executed.Broke? ==> breaks)
      ensures executed.Ran? ==> executed.answer == safety.answers(|old(safety.sendings)|)
    {
      assert Resources(progress);
      ghost var sendings := safety.sendings;
      executed := safety.Execute(plan, breaks);
      SentMore(progress.runs, sendings, plan);
      SentMore(exploring, sendings, plan);
    }

    ghost method NoteRun(s: Step)
      requires s.Ran? && Tracked() && due == Send(s.plan) && reading == progress.reading
      requires Resources(progress.(runs := progress.runs + [(s.plan, s.moment)]))
      modifies this`history, this`progress, this`due
      ensures Valid() && history == old(history) + [s]
      ensures progress == Advance(old(progress), s, Held()) && due == AfterRun(old(progress), s.plan, s.moment, Held())
    {
      Log(s);
    }

    /** The attempt is what the history comes to. */
    ghost predicate Fits(a: Attempt)
      reads this`due, safety
    {
      && due.End?
      && match due.verdict
         case Shown(d, plan, moment) =>
           a == Attempt(d, Some(Planned(plan)), Some(safety.answers(moment))) && d.kind.ANSWER?
         case Refused(d, failure) => a == Attempt(d, Some(Failed(failure)), None) && d.kind.ANSWER?
         case Declines(d) => a == Attempt(d, None, None) && !d.kind.ANSWER?
         case _ => false
    }

    /** The plan ran last, first of all, and this is what the database answered it. */
    ghost predicate Just(a: Attempt)
      reads this`progress, this`decision, safety
    {
      && decision.kind.ANSWER? && |progress.runs| == 1
      && a == Attempt(decision, Some(Planned(progress.runs[0].0)), Some(safety.answers(progress.runs[0].1)))
      && progress.standing == End(Shown(decision, progress.runs[0].0, progress.runs[0].1))
    }

    /** At most two executions, and the attempt that stands when they are done; a refused plan is never run. */
    method Execute(planned: PlanResult) returns (r: Try<Attempt>)
      requires Valid() && InStep() && decision.kind.ANSWER? && Ready(planned) && progress.runs == []
      modifies this`now, this`history, this`progress, this`due, this`decision,
               budget`used, budget`stopped, budget`tokens, safety, provider
      ensures Valid() && old(history) <= history && (r.Thrown? ==> Interrupted())
      ensures r.Done? ==> Fits(r.value) && r.value.decision == decision
      ensures planned.Failed? ==> r == Done(Attempt(old(decision), Some(planned), None)) && history == old(history)
    {
      if planned.Failed? {
        return Done(Attempt(decision, Some(planned), None));
      }
      var answer :- Answering(planned.plan);
      r := Checked(Attempt(decision, Some(planned), Some(answer)));
    }

    method Checked(first: Attempt) returns (r: Try<Attempt>)
      requires Valid() && InStep() && Just(first)
      requires due == AfterRunning(progress, first.answer.value)
      modifies this`now, this`history, this`progress, this`due, this`decision,
               budget`used, budget`stopped, budget`tokens, safety, provider
      ensures Valid() && old(history) <= history && (r.Thrown? ==> Interrupted())
      ensures r.Done? ==> Fits(r.value) && r.value.decision == decision
    {
      var second :- CheckResult(first);
      if second.None? {
        return Done(first);
      }
      decision := second.value.decision;
      r := Done(second.value);
    }

    /** What is due after the first run, its result being this. */
    ghost function AfterRunning(p: Progress, answer: Answer): Next {
      match TroubleOf(answer, Held())
      case Fine => p.standing
      case Empty => LookUp
      case Describable => if RepairLeft(p, Held()) then Ask(ModelCall.Repair) else p.standing
    }

    /** A second attempt, if there is one; an untroubled result has none, and no step follows it. */
    method CheckResult(attempt: Attempt) returns (r: Try<Option<Attempt>>)
      requires Valid() && InStep() && Just(attempt)
      requires due == AfterRunning(progress, attempt.answer.value)
      modifies this`now, this`history, this`progress, this`due, budget`used, budget`stopped, budget`tokens, safety, provider
      ensures Valid() && old(history) <= history && (r.Thrown? ==> Interrupted())
      ensures r.Done? ==> Fits(if r.value.Some? then r.value.value else attempt)
      ensures TroubleOf(attempt.answer.value, Held()).Fine? ==> r == Done(None) && history == old(history)
    {
      var answer := attempt.answer.value;
      if !replay && settings.resultCheck && answer.Rows? {
        if LooksEmpty(answer.execution) {
          r := CheckEmptyResult(attempt);
          return;
        }
        if world.outOfRange(answer.execution) {
          r := RepairResult(attempt);
          return;
        }
      } else if answer.Error? && answer.class_ in EXECUTION_MESSAGES {
        r := RepairResult(attempt);
        return;
      }
      r := Done(None);
    }

    /**
     For an empty result: with a respelling found, that text is planned and run, and no call is
     made; without one, a repair may follow.
     */
    method CheckEmptyResult(attempt: Attempt) returns (r: Try<Option<Attempt>>)
      requires Valid() && InStep() && Just(attempt) && due == LookUp
      modifies this`now, this`history, this`progress, this`due, budget`used, budget`stopped, budget`tokens, safety, provider
      ensures Valid() && old(history) < history && (r.Thrown? ==> Interrupted())
      ensures history[|old(history)|] == LookedUp(Spelling(old(decision).sql, old(now), world), old(now))
      ensures r.Done? ==> Fits(if r.value.Some? then r.value.value else attempt)
      ensures Spelling(old(decision).sql, old(now), world).Some? ==>
        Opens(old(history) + [history[|old(history)|]], history, Spelling(old(decision).sql, old(now), world).value)
        && (r.Done? ==> r.value.Some?)
    {
      var respelling := LookingUp();
      if respelling.None? {
        r := RepairResult(attempt);
        return;
      }
      var again :- TryRespelled(respelling.value);
      r := Done(Some(again));
    }

    method LookingUp() returns (respelling: Option<string>)
      requires Valid() && InStep() && due == LookUp
      modifies this`now, this`history, this`progress, this`due
      ensures Valid() && respelling == Spelling(decision.sql, old(now), world)
      ensures history == old(history) + [LookedUp(respelling, old(now))]
      ensures progress == old(progress).(respelling := true) && due == AfterLookUp(old(progress), respelling, Held())
    {
      respelling := Respelling(decision.sql);
      assert Resources(progress);
      Log(LookedUp(respelling, old(now)));
    }

    method TryRespelled(sql: string) returns (r: Try<Attempt>)
      requires Valid() && InStep() && decision.kind.ANSWER? && due == Plan(sql) && progress.respelling && |progress.runs| == 1
      modifies this`now, this`history, this`progress, this`due, safety
      ensures Valid() && Opens(old(history), history, sql) && (r.Thrown? ==> Interrupted())
      ensures r.Done? ==> Fits(r.value)
    {
      var planned :- PlanFor(sql);
      r := TryPlan(decision, planned);
    }

    method RepairResult(attempt: Attempt) returns (r: Try<Option<Attempt>>)
      requires Valid() && InStep() && Just(attempt)
      requires due == if RepairLeft(progress, Held()) then Ask(ModelCall.Repair) else progress.standing
      modifies this`now, this`history, this`progress, this`due, budget`used, budget`stopped, budget`tokens, safety, provider
      ensures Valid() && old(history) <= history && (r.Thrown? ==> Interrupted())
      ensures r.Done? ==> Fits(if r.value.Some? then r.value.value else attempt)
    {
      assert Resources(progress);
      if budget.Left(ModelCall.Repair) <= 0 {
        return Done(None);
      }
      var repaired := Repair();
      if repaired.None? {
        return Done(None);
      }
      var again :- TryRepaired(repaired.value);
      r := Done(Some(again));
    }

    method TryRepaired(repaired: Decision) returns (r: Try<Attempt>)
      requires Valid() && progress.force == repaired && !repaired.kind.EXPLORE? && due == AfterReading(repaired)
      requires |progress.runs| == 1 && !RepairLeft(progress, Held())
      modifies this`now, this`history, this`progress, this`due, safety
      ensures Valid() && old(history) <= history && (r.Thrown? ==> Interrupted())
      ensures r.Done? ==> Fits(r.value)
    {
      if !repaired.kind.ANSWER? {
        return Done(Attempt(repaired, None, None));
      }
      var planned :- PlanFor(repaired.sql);
      r := TryPlan(repaired, planned);
    }

    /** The second attempt this planning outcome allows: with an answer exactly when it is a plan. */
    method TryPlan(of: Decision, planned: PlanResult) returns (r: Try<Attempt>)
      requires Valid() && of.kind.ANSWER? && !planned.Raised? && progress.force == of && |progress.runs| == 1
      requires due == Settled(planned, of) && (planned.Planned? ==> Issued(planned.plan))
      modifies this`now, this`history, this`progress, this`due, safety
      ensures Valid() && old(history) <= history && (r.Thrown? ==> Interrupted())
      ensures r.Done? ==> Fits(r.value) && r.value.decision == of
    {
      if planned.Failed? {
        return Done(Attempt(of, Some(planned), None));
      }
      var answer :- Answering(planned.plan);
      r := Done(Attempt(of, Some(planned), Some(answer)));
    }

    // The whole run.

    /** What the end a history comes to is reported as. */
    ghost function Report(verdict: Verdict): Outcome
      reads this`assumption, this`alternatives, safety
    {
      match verdict
      case Unentered => NotEntered
      case NoDecision => GenerationError
      case Declines(d) => NonAnswer(d)
      case Refused(d, failure) => Rejected(d, failure)
      case Shown(d, plan, moment) =>
        (match safety.answers(moment)
         case Rows(execution) => Executed(d, plan, execution, assumption, alternatives)
         case Error(_) => ExecutionError(d, plan))
      case Unfinished => Crashed
    }

    /** Only an exception keeps the run from its end, and what it answers is that end. */
    ghost predicate Ends(r: Try<Outcome>)
      reads this`history, this`due, this`now, this`assumption, this`alternatives, safety
    {
      && (r.Thrown? ==> Interrupted())
      && (r.Done? ==> due.End? && !due.verdict.Unentered? && !due.verdict.Unfinished? && r.value == Report(due.verdict))
    }

    ghost predicate Concludes(outcome: Outcome)
      reads this`history, this`due, this`now, this`assumption, this`alternatives, safety
    {
      if outcome.NotEntered? then due == End(Unentered) else Ends(if outcome.Crashed? then Thrown else Done(outcome))
    }

    method Query() returns (r: Try<Outcome>)
      requires Valid() && InStep() && due == AfterReading(decision) && progress.runs == [] && !progress.respelling
      modifies this`now, this`history, this`progress, this`due, this`decision,
               budget`used, budget`stopped, budget`tokens, safety, provider
      ensures Valid() && old(history) <= history && Ends(r)
    {
      if !decision.kind.ANSWER? {
        return Done(NonAnswer(decision));
      }
      var planned :- AdmitSql();
      if !decision.kind.ANSWER? {
        return Done(NonAnswer(decision));
      }
      var attempt :- Execute(planned);
      r := Done(Respond(attempt));
    }

    /** What the attempt that stands is reported as. */
    function Respond(attempt: Attempt): Outcome
      requires attempt.decision == decision && (decision.kind.ANSWER? ==> attempt.planned.Some?)
      requires attempt.planned.Some? ==> !attempt.planned.value.Raised? && (attempt.planned.value.Planned? ==> attempt.answer.Some?)
      reads this`decision, this`assumption, this`alternatives
    {
      if !decision.kind.ANSWER? then NonAnswer(decision)
      else match attempt.planned.value
        case Failed(failure) => Rejected(decision, failure)
        case Planned(plan) =>
          match attempt.answer.value
          case Rows(execution) => Executed(decision, plan, execution, assumption, alternatives)
          case Error(_) => ExecutionError(decision, plan)
    }

    /**
     The result names the decision in force, never EXPLORE.  Rows are what the database answered the
     plan run last, of that decision's SQL or its respelling; a rejection is what planning that SQL
     came to; and without a decision there was a reason to give up.
     */
    ghost predicate Supported(outcome: Outcome)
      reads this`history, this`assumption, this`alternatives, safety
    {
      match outcome
      case Executed(d, plan, execution, assumed, others) =>
        Answers(d, plan, Rows(execution)) && assumed == assumption && others == alternatives
      case ExecutionError(d, plan) => exists class_ :: Answers(d, plan, Error(class_))
      case Rejected(d, failure) => d == InForce(history, Held()) && CameTo(history, Failed(failure), d, Held())
      case NonAnswer(d) => d == InForce(history, Held()) && !d.kind.ANSWER? && !d.kind.EXPLORE?
      case GenerationError => history != [] && GivesUp(history[|history| - 1], ProgressOf(history, Held()), Held())
      case NotEntered => |history| == 1
      case Crashed => true
    }

    ghost predicate Answers(d: Decision, plan: QueryPlan, answer: Answer)
      reads this`history, safety
    {
      && d == InForce(history, Held()) && CameTo(history, Planned(plan), d, Held())
      && Runs(history) != [] && Runs(history)[|Runs(history)| - 1].0 == plan
      && safety.answers(Runs(history)[|Runs(history)| - 1].1) == answer
    }

    lemma Support(outcome: Outcome)
      requires Orderly(history, Held()) && due == Due(history, Held()) && Ends(Done(outcome))
      ensures Supported(outcome)
    {
      RefusedIs(history, Held());
      if due.verdict.Shown? { ShownIs(history, Held(), due.verdict.decision, due.verdict.plan, due.verdict.moment); }
      if due.verdict.NoDecision? { NoDecisionWhy(history, Held()); }
    }

    /** A whole run, from an empty history to its outcome. */
    method Answer() returns (outcome: Outcome)
      requires Valid() && history == [] && exploring == [] && explored == 0 && reading == None && Read() && InStep() && Unlooked()
      requires frozen == decision
      modifies this, budget, safety, provider
      ensures Valid() && Read() && Concludes(outcome)
      ensures Orderly(history, Held()) && due == Due(history, Held()) && Supported(outcome)
      ensures provider.log == old(provider.log) + Questions(history)
      ensures forall call :: multiset(Questions(history))[call] <= Of(Allowances(settings, replay), call)
      ensures |Questions(history)| <= Rounds(settings) + 5 && (settings == DEFAULTS ==> |Questions(history)| <= 7)
      ensures replay ==> Questions(history) == []
      ensures safety.candidates == old(safety.candidates) + Texts(history)
      ensures |safety.probes| <= |old(safety.probes)| + 2 * budget.probeQueries
      ensures |safety.sendings| <= |old(safety.sendings)| + 2 + 2 * budget.probeQueries
      ensures !replay ==> budget.probeQueries <= ProbeQueries(settings)
      ensures outcome.NotEntered? <==> !world.context(old(now))
      ensures !outcome.NotEntered? && !replay ==> |history| > 1 && history[1].Asked? && history[1].call.Generation?
      ensures !outcome.NotEntered? && replay && old(decision).caseId && old(decision).kind.ANSWER? ==>
        |history| > 1 && history[1].Tried? && history[1].sql == old(decision).sql
    {
      Fresh();
      outcome := Conclude();
      Whole();
      Begins(history, Held());
      if !outcome.NotEntered? && !outcome.Crashed? { Support(outcome); }
    }

    /** Before the first step nothing was asked, judged or explored since. */
    lemma Fresh()
      requires Valid() && history == [] && explored == 0
      ensures progress == Beginning(Held()) && due == Resolve
      ensures provider.log == before.questions && safety.candidates == before.candidates && |safety.probes| == before.probes
      ensures |safety.sendings| == before.sent + |exploring|
    {
      assert progress == ProgressOf(history, Held()) && due == Due(history, Held());
      assert Resources(progress);
      assert before.questions + [] == before.questions && before.candidates + [] == before.candidates;
    }

    /** What holds of every history of steps that follow the rules. */
    lemma Whole()
      requires Valid()
      ensures progress.asked == Questions(history) && progress.texts == Texts(history) && |progress.runs| <= 2
      ensures Resources(progress)
      ensures Orderly(history, Held()) && due == Due(history, Held())
      ensures forall call :: multiset(Questions(history))[call] <= Of(Allowances(settings, replay), call)
      ensures |Questions(history)| <= Rounds(settings) + 5 && (settings == DEFAULTS ==> |Questions(history)| <= 7)
      ensures replay ==> Questions(history) == []
    {
      assert progress == ProgressOf(history, Held()) && due == Due(history, Held());
      ProgressSays(history, Held());
      RunsTwice(history, Held());
      Allowed(Questions(history), settings, replay);
    }

    method Conclude() returns (outcome: Outcome)
      requires Valid() && progress == Beginning(Held()) && due == Resolve && reading == None && Read() && InStep() && Unlooked()
      requires history == []
      modifies this, budget, safety, provider
      ensures Valid() && Read() && Concludes(outcome)
      ensures history != [] && history[0] == Resolved(world.context(old(now)), old(now))
      ensures outcome.NotEntered? <==> !world.context(old(now))
      ensures outcome.NotEntered? ==> |history| == 1
    {
      var entered := Resolving();
      if !entered {
        return NotEntered;
      }
      var r := Stages();
      outcome := if r.Done? then r.value else Crashed;
    }

    method Stages() returns (r: Try<Outcome>)
      requires Valid() && InStep() && progress.entered && progress.counts == map[] && progress.runs == [] && !progress.respelling
      requires reading == None && Read() && Unlooked()
      requires due == if replay then AfterFirst(decision, Held()) else Ask(Generation)
      modifies this, budget, safety, provider
      ensures Valid() && Read() && Ends(r) && old(history) <= history
    {
      var usable := FirstDecision();
      if !usable {
        return Done(GenerationError);
      }
      WidenContext();
      LookFirst();
      r := AfterLooks();
    }

    method AfterLooks() returns (r: Try<Outcome>)
      requires Valid() && InStep() && Of(progress.counts, Exploration) == 0 && progress.runs == [] && !progress.respelling
      requires reading == None && Read() && Unlooked() && due == AfterLooking(decision, Held())
      modifies this, budget, safety, provider
      ensures Valid() && Read() && Ends(r) && old(history) <= history
    {
      var going :- Explore();
      if !going {
        return Done(GenerationError);
      }
      r := AfterProbes();
    }

    method AfterProbes() returns (r: Try<Outcome>)
      requires Valid() && InStep() && progress.runs == [] && !progress.respelling && !decision.kind.EXPLORE?
      requires reading == None && Read() && due == AfterExploring(decision, Held())
      modifies this, budget, safety, provider
      ensures Valid() && Read() && Ends(r) && old(history) <= history
    {
      var checked := CheckReadings();
      r := Finish(checked);
    }

    /** The query, unless an exception ended the stage before it. */
    method Finish(checked: Try<()>) returns (r: Try<Outcome>)
      requires Valid() && Read() && progress.runs == [] && !progress.respelling
      requires if checked.Thrown? then Interrupted() else InStep() && due == AfterReading(decision)
      modifies this`now, this`history, this`progress, this`due, this`decision,
               budget`used, budget`stopped, budget`tokens, safety, provider
      ensures Valid() && Read() && Ends(r) && old(history) <= history
    {
      if checked.Thrown? {
        return Thrown;
      }
      r := Query();
    }
  }
}
