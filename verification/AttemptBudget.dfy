/**
 The limits of a run (app/decision/budget.py): an allowance per kind of model call, a deadline,
 and bounds on tokens and on queries that explore.  A step without an allowance left is refused before it is taken.
 */
module AttemptBudget {
  import opened Seqs

  datatype ModelCall = Generation | ContextExpansion | LookFirst | Exploration | ReadingCheck | Repair

  datatype Limit = CALLS | DEADLINE | TOKENS | PROBE_QUERIES

  type Counts = map<ModelCall, nat>

  const MAX_PROBES := 3

  /** The settings a run reads; `explorationRounds` is at least 1 by its field's own bound. */
  datatype Settings = Settings(
    exploration: bool, explorationRounds: nat, contextExpansion: bool, readingCheck: bool, repair: bool,
    resultCheck: bool, assumes: bool, deadline: int, tokenLimit: nat, probeQueryLimit: Option<nat>)

  const DEFAULTS := Settings(true, 2, true, true, true, true, true, 120, 150000, None)

  function Of(counts: Counts, call: ModelCall): nat {
    if call in counts then counts[call] else 0
  }

  function Sum(counts: Counts): nat {
    Of(counts, Generation) + Of(counts, ContextExpansion) + Of(counts, LookFirst)
    + Of(counts, Exploration) + Of(counts, ReadingCheck) + Of(counts, Repair)
  }

  predicate AtMost(used: Counts, allowed: Counts) {
    forall call :: Of(used, call) <= Of(allowed, call)
  }

  function Flag(b: bool): nat { if b then 1 else 0 }

  function Rounds(s: Settings): nat { if s.exploration then s.explorationRounds else 0 }

  function Allowances(s: Settings, replay: bool): Counts {
    if replay then map[]
    else map[Generation := 1, ContextExpansion := Flag(s.contextExpansion), LookFirst := Flag(s.exploration),
             Exploration := Rounds(s), ReadingCheck := Flag(s.readingCheck), Repair := Flag(s.repair)]
  }

  /** Unless set, every probe round and a reading check run in full. */
  function ProbeQueries(s: Settings): nat {
    if s.probeQueryLimit.Some? then s.probeQueryLimit.value else MAX_PROBES * (Rounds(s) + Flag(s.readingCheck))
  }

  /** A live run asks the model at most 5 times beyond its exploration rounds: 7 in all at the defaults. */
  lemma MostCalls(s: Settings, replay: bool, used: Counts)
    requires AtMost(used, Allowances(s, replay))
    ensures replay ==> Sum(used) == 0
    ensures Sum(used) <= Rounds(s) + 5
    ensures s == DEFAULTS ==> Sum(used) <= 7
  {
    var allowed := Allowances(s, replay);
    assert Of(used, Generation) <= Of(allowed, Generation) && Of(used, Repair) <= Of(allowed, Repair);
    assert Of(used, ContextExpansion) <= Of(allowed, ContextExpansion);
    assert Of(used, LookFirst) <= Of(allowed, LookFirst);
    assert Of(used, Exploration) <= Of(allowed, Exploration);
    assert Of(used, ReadingCheck) <= Of(allowed, ReadingCheck);
  }

  lemma CountedOnce(counts: Counts, call: ModelCall)
    ensures Sum(counts[call := Of(counts, call) + 1]) == Sum(counts) + 1
    ensures forall k :: Of(counts[call := Of(counts, call) + 1], k) == Of(counts, k) + if k == call then 1 else 0
  {
    forall k ensures Of(counts[call := Of(counts, call) + 1], k) == Of(counts, k) + if k == call then 1 else 0 {
    }
  }

  /** Every count fits when it is taken one at a time where something is left. */
  lemma OneMore(used: Counts, allowed: Counts, call: ModelCall)
    requires AtMost(used, allowed) && Of(used, call) < Of(allowed, call)
    ensures AtMost(used[call := Of(used, call) + 1], allowed)
    ensures Sum(used[call := Of(used, call) + 1]) == Sum(used) + 1
  {
    CountedOnce(used, call);
    forall k ensures Of(used[call := Of(used, call) + 1], k) <= Of(allowed, k) {
      assert Of(used, k) <= Of(allowed, k);
    }
  }

  class Budget {
    const allowed: Counts
    const deadline: Option<int>
    const tokenLimit: Option<nat>
    const probeLimit: Option<nat>
    const started: int
    var used: Counts
    var tokens: nat
    var probeQueries: nat
    var stopped: Option<Limit>

    predicate Valid()
      reads this
    {
      AtMost(used, allowed) && (probeLimit.Some? ==> probeQueries <= probeLimit.value)
    }

    /** Nothing is spent yet; a replay has an empty allowance and no other limit. */
    constructor ForRun(s: Settings, replay: bool, now: int)
      ensures Valid() && used == map[] && tokens == 0 && probeQueries == 0 && stopped == None
      ensures allowed == Allowances(s, replay) && started == now
      ensures !replay ==> deadline == Some(s.deadline) && tokenLimit == Some(s.tokenLimit)
      ensures !replay ==> probeLimit == Some(ProbeQueries(s))
    {
      allowed, started := Allowances(s, replay), now;
      used, tokens, probeQueries, stopped := map[], 0, 0, None;
      if replay {
        deadline, tokenLimit, probeLimit := None, None, None;
      } else {
        deadline, tokenLimit := Some(s.deadline), Some(s.tokenLimit);
        probeLimit := Some(ProbeQueries(s));
      }
    }

    /** Seconds left at the clock reading `now`. */
    function Remaining(now: int): Option<int>
    {
      if deadline.None? then None else Some(deadline.value - (now - started))
    }

    function Left(call: ModelCall): int
      reads this
    {
      Of(allowed, call) - Of(used, call)
    }

    predicate Late(now: int) {
      Remaining(now).Some? && Remaining(now).value <= 0
    }

    predicate OutOfTokens()
      reads this
    {
      tokenLimit.Some? && tokens >= tokenLimit.value
    }

    /** Names the limit that refuses a step; only the earliest one is kept in `stopped`. */
    method Stop(limit: Limit) returns (refusal: Option<Limit>)
      modifies this`stopped
      ensures refusal == Some(limit) && stopped == if old(stopped).None? then Some(limit) else old(stopped)
    {
      if stopped.None? {
        stopped := Some(limit);
      }
      refusal := Some(limit);
    }

    /**
     Raises the count of this kind by one exactly when it is below its allowance and, unless it
     is the first decision, neither clock nor tokens are at their limit; otherwise counts nothing.
     */
    method Take(call: ModelCall, now: int) returns (refusal: Option<Limit>)
      requires Valid()
      modifies this`used, this`stopped
      ensures Valid()
      ensures refusal.None? <==> old(Left(call)) > 0 && (call.Generation? || (!Late(now) && !OutOfTokens()))
      ensures refusal.None? ==> used == old(used)[call := Of(old(used), call) + 1] && Sum(used) == Sum(old(used)) + 1
      ensures refusal.None? ==> stopped == old(stopped)
      ensures refusal.Some? ==> used == old(used)
      ensures refusal.Some? ==> stopped == if old(stopped).None? then refusal else old(stopped)
    {
      if Left(call) <= 0 {
        refusal := Stop(CALLS);
        return;
      }
      if !call.Generation? {
        refusal := CheckTimeAndTokens(now);
        if refusal.Some? {
          return;
        }
      }
      OneMore(used, allowed, call);
      used := used[call := Of(used, call) + 1];
      refusal := None;
    }

    /** Raises the count of exploring queries by one exactly when none of their three limits is reached. */
    method TakeProbeQuery(now: int) returns (refusal: Option<Limit>)
      requires Valid()
      modifies this`probeQueries, this`stopped
      ensures Valid()
      ensures refusal.None? <==>
        (probeLimit.Some? ==> old(probeQueries) < probeLimit.value) && !Late(now) && !OutOfTokens()
      ensures probeQueries == old(probeQueries) + if refusal.None? then 1 else 0
      ensures refusal.None? ==> stopped == old(stopped)
      ensures refusal.Some? ==> stopped == if old(stopped).None? then refusal else old(stopped)
    {
      if probeLimit.Some? && probeQueries >= probeLimit.value {
        refusal := Stop(PROBE_QUERIES);
        return;
      }
      refusal := CheckTimeAndTokens(now);
      if refusal.Some? {
        return;
      }
      probeQueries := probeQueries + 1;
    }

    method SpendTokens(count: nat)
      modifies this`tokens
      ensures tokens == old(tokens) + count
    {
      tokens := tokens + count;
    }

    method CheckTimeAndTokens(now: int) returns (refusal: Option<Limit>)
      modifies this`stopped
      ensures refusal.None? <==> !Late(now) && !OutOfTokens()
      ensures stopped == if refusal.Some? && old(stopped).None? then refusal else old(stopped)
    {
      if Late(now) {
        refusal := Stop(DEADLINE);
      } else if OutOfTokens() {
        refusal := Stop(TOKENS);
      } else {
        refusal := None;
      }
    }
  }
}
