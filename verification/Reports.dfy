/**
 Saved reports (app/reports/store.py, app/reports/service.py): compare-and-swap saves, pinned
 SQL, and scheduled-refresh claims, under every interleaving of readers and writers.

 Main results: `Keeps`, the invariant of every reachable world (versions grow by one, each
 commit derives from its immediate predecessor, each card's SQL is its run's); `OneOfTwoSaves`;
 `NeverRevived`; and `ClaimedOnce`, that a due time is claimed again only after a save that wrote
 one as early back, with `ClaimableAgain`, its converse, and `ClaimedTwice`, a run in which it happens.
 */
module Reports {
  import opened Seqs

  // Runs of the audit log, and the cards that pin their SQL.

  datatype Run = Run(connection: string, executed: bool, sql: string, question: string)

  type Log = map<string, Run>

  type Basis = map<string, string>

  datatype Kind = Query | Note | Heading

  datatype CardInput = CardInput(id: string, kind: Kind, question: string, run: Option<string>)

  datatype Card = Card(input: CardInput, sql: Option<string>, basis: Basis)

  datatype Schedule = Off | Hourly | Daily | Weekly

  datatype Report = Report(id: string, connection: string, version: nat, title: string,
                           cards: seq<Card>, schedule: Schedule, next: Option<int>)

  type Store = map<string, Report>

  datatype Result<T> = Ok(value: T) | Rejected(reason: string)

  /** Seconds between two refreshes. */
  function Interval(s: Schedule): Option<int> {
    match s
    case Off => None
    case Hourly => Some(3600)
    case Daily => Some(86400)
    case Weekly => Some(604800)
  }

  /**
   When a refresh due at `expected` and taken at `now` comes again: an interval later, unless that
   turn was missed too, which is then not caught up on.
   */
  function Following(s: Schedule, expected: int, now: int): (r: Option<int>)
    ensures r.None? <==> s.Off?
    ensures r.Some? ==> r.value > now && (expected <= now ==> r.value <= now + Interval(s).value)
    ensures r.Some? && r.value != expected + Interval(s).value ==> expected + Interval(s).value <= now
  {
    var interval := Interval(s);
    if interval.None? then None
    else if expected + interval.value <= now then Some(now + interval.value)
    else Some(expected + interval.value)
  }

  // The store's operations.

  function VersionOf(store: Store, id: string): nat {
    if id in store then store[id].version else 0
  }

  function Saved(store: Store, report: Report): Option<Store> {
    if VersionOf(store, report.id) + 1 != report.version then None else Some(store[report.id := report])
  }

  predicate Claimable(store: Store, id: string, expected: int) {
    id in store && store[id].next == Some(expected)
  }

  function Claimed(store: Store, id: string, expected: int, following: Option<int>): Store {
    if Claimable(store, id, expected) then store[id := store[id].(next := following)] else store
  }

  predicate IsDue(r: Report, now: int) {
    r.next.Some? && r.next.value <= now
  }

  /** A claimed report was stored as due at the time read, and is due no longer. */
  predicate Moved(before: Store, after: Store, r: Report, now: int) {
    r.id in before && r.id in after && before[r.id].next == r.next && !IsDue(after[r.id], now)
  }

  /** Only the reports taken changed, each once, and only in their next refresh. */
  predicate OnlyClaimed(before: Store, after: Store, taken: seq<Report>, now: int) {
    && after.Keys == before.Keys
    && (forall i :: 0 <= i < |taken| ==> Moved(before, after, taken[i], now))
    && (forall i, j :: 0 <= i < j < |taken| ==> taken[i].id != taken[j].id)
    && (forall id :: id in before ==> after[id] == before[id].(next := after[id].next))
    && (forall id :: id in before ==> id in TakenIds(taken) || after[id] == before[id])
  }

  function TakenIds(taken: seq<Report>): set<string> {
    set r | r in taken :: r.id
  }

  /** The store still has the due time a report was read with. */
  predicate StillDue(store: Store, r: Report) {
    r.id in store && store[r.id].next == r.next
  }

  lemma TakenMore(taken: seq<Report>, r: Report)
    ensures TakenIds(taken + [r]) == TakenIds(taken) + {r.id}
  {
    assert forall x :: x in taken + [r] <==> x in taken || x == r;
  }

  lemma ClaimedMore(before: Store, now1: Store, taken: seq<Report>, now: int, r: Report, following: Option<int>)
    requires OnlyClaimed(before, now1, taken, now) && IsDue(r, now) && Claimable(now1, r.id, r.next.value)
    requires following.Some? ==> following.value > now
    ensures OnlyClaimed(before, Claimed(now1, r.id, r.next.value, following), taken + [r], now)
  {
    TakenMore(taken, r);
    forall i | 0 <= i < |taken| ensures taken[i].id != r.id {
      assert Moved(before, now1, taken[i], now);
    }
  }

  /** What is still due as it was read is claimable, unless it was taken. */
  lemma StillClaimable(before: Store, now1: Store, taken: seq<Report>, now: int, r: Report)
    requires OnlyClaimed(before, now1, taken, now) && IsDue(r, now) && StillDue(before, r)
    ensures Claimable(now1, r.id, r.next.value) || r.id in TakenIds(taken)
  {
  }

  class InMemoryReportStore {
    var items: Store

    constructor ()
      ensures items == map[]
    {
      items := map[];
    }

    method Get(id: string) returns (r: Option<Report>)
      ensures r == if id in items then Some(items[id]) else None
    {
      r := if id in items then Some(items[id]) else None;
    }

    method Save(report: Report) returns (written: bool)
      modifies this
      ensures written <==> Saved(old(items), report).Some?
      ensures items == if written then Saved(old(items), report).value else old(items)
    {
      var stored := Get(report.id);
      var version := if stored.Some? then stored.value.version else 0;
      if version != report.version - 1 {
        return false;
      }
      items := items[report.id := report];
      written := true;
    }

    method Delete(id: string) returns (found: bool)
      modifies this
      ensures found == (id in old(items)) && items == old(items) - {id}
    {
      found := id in items;
      items := items - {id};
    }

    method Claim(id: string, expected: int, following: Option<int>) returns (claimed: bool)
      modifies this
      ensures claimed == Claimable(old(items), id, expected)
      ensures items == Claimed(old(items), id, expected, following)
    {
      if id !in items || items[id].next != Some(expected) {
        return false;
      }
      items := items[id := items[id].(next := following)];
      claimed := true;
    }

    /** The reports due by `now`, each once. */
    method Due(now: int) returns (due: seq<Report>)
      ensures forall r :: r in due <==> exists id :: id in items && items[id] == r && IsDue(r, now)
    {
      due := [];
      var todo := items.Keys;
      while todo != {}
        invariant todo <= items.Keys
        invariant forall r :: r in due <==> exists id :: id in items.Keys - todo && items[id] == r && IsDue(r, now)
      {
        var id :| id in todo;
        todo := todo - {id};
        if IsDue(items[id], now) {
          due := due + [items[id]];
        }
        assert items.Keys - todo == (items.Keys - (todo + {id})) + {id};
      }
    }

    /**
     Claims each report of a list read as due, however stale it is by now.  Each one claimed
     was stored as due at the time read, and none it claims is due any longer; each that was still
     stored as due at the time read is claimed, once.
     */
    method RunDue(due: seq<Report>, now: int) returns (taken: seq<Report>)
      requires forall r :: r in due ==> IsDue(r, now)
      modifies this
      ensures OnlyClaimed(old(items), items, taken, now)
      ensures forall r :: r in taken ==> r in due
      ensures forall r :: r in due && StillDue(old(items), r) ==> r.id in TakenIds(taken)
    {
      taken := [];
      for k := 0 to |due|
        invariant OnlyClaimed(old(items), items, taken, now)
        invariant forall r :: r in taken ==> r in due
        invariant forall j :: 0 <= j < k && StillDue(old(items), due[j]) ==> due[j].id in TakenIds(taken)
      {
        assert due[k] in due;
        taken := TakeTurn(due[k], now, taken, old(items));
      }
    }

    /** One report's turn: claimed if it is still due as it was read. */
    method TakeTurn(report: Report, now: int, taken: seq<Report>, ghost before: Store) returns (taken': seq<Report>)
      requires OnlyClaimed(before, items, taken, now) && IsDue(report, now)
      modifies this
      ensures OnlyClaimed(before, items, taken', now) && (taken' == taken || taken' == taken + [report])
      ensures TakenIds(taken) <= TakenIds(taken') && (StillDue(before, report) ==> report.id in TakenIds(taken'))
    {
      var expected := report.next.value;
      var following := Following(report.schedule, expected, now);
      if StillDue(before, report) { StillClaimable(before, items, taken, now, report); }
      var claimed := Claim(report.id, expected, following);
      taken' := taken;
      if claimed {
        ClaimedMore(before, old(items), taken, now, report, following);
        TakenMore(taken, report);
        taken' := taken + [report];
      }
    }
  }

  // Edits: the next version of a report, made from the copy an actor read.

  datatype Edit =
    | Update(expected: Option<nat>, title: string, cards: seq<CardInput>, basisOf: string -> Basis)
    | Rename(title: string)
    | Reschedule(schedule: Schedule, now: int)
    | Accept(card: string, basis: Basis)

  /** The last of the report's cards with this id. */
  function ById(cards: seq<Card>, id: string): Option<Card> {
    if cards == [] then None
    else if cards[|cards| - 1].input.id == id then Some(cards[|cards| - 1])
    else ById(cards[..|cards| - 1], id)
  }

  /** The first of them. */
  function FirstById(cards: seq<Card>, id: string): Option<Card> {
    if cards == [] then None
    else if cards[0].input.id == id then Some(cards[0])
    else FirstById(cards[1..], id)
  }

  /** The last of the report's cards made from this run. */
  function ByRun(cards: seq<Card>, run: string): Option<Card> {
    if cards == [] then None
    else if cards[|cards| - 1].input.run == Some(run) && run != "" then Some(cards[|cards| - 1])
    else ByRun(cards[..|cards| - 1], run)
  }

  function Previous(cards: seq<Card>, card: CardInput): Option<Card> {
    var same := ById(cards, card.id);
    if same.Some? then same else if card.run.Some? then ByRun(cards, card.run.value) else None
  }

  /** The card to save: whatever SQL it has is its logged run's, or the one it had before from that run. */
  function Pin(report: Report, card: CardInput, previous: Option<Card>, log: Log, basisOf: string -> Basis): Result<Card> {
    if card.kind != Query || card.run.None? then Ok(Card(card, None, map[]))
    else if previous.Some? && previous.value.input.run == card.run then
      Ok(Card(card.(question := previous.value.input.question), previous.value.sql, previous.value.basis))
    else if card.run.value !in log then Rejected("not in the audit log")
    else
      var run := log[card.run.value];
      if run.connection != report.connection then Rejected("another connection")
      else if !run.executed || run.sql == "" then Rejected("did not run")
      else Ok(Card(card.(question := run.question), Some(run.sql), basisOf(run.sql)))
  }

  function PinAll(report: Report, cards: seq<CardInput>, log: Log, basisOf: string -> Basis): Result<seq<Card>> {
    if cards == [] then Ok([])
    else
      var first := Pin(report, cards[0], Previous(report.cards, cards[0]), log, basisOf);
      if first.Rejected? then Rejected(first.reason)
      else
        var rest := PinAll(report, cards[1..], log, basisOf);
        if rest.Rejected? then rest else Ok([first.value] + rest.value)
  }

  predicate DistinctIds(cards: seq<CardInput>) {
    forall i, j :: 0 <= i < j < |cards| ==> cards[i].id != cards[j].id
  }

  function Accepted(cards: seq<Card>, id: string, basis: Basis): seq<Card> {
    if cards == [] then []
    else [if cards[0].input.id == id then cards[0].(basis := basis) else cards[0]] + Accepted(cards[1..], id, basis)
  }

  /** The edit made of the copy read, before it is committed as the next version. */
  function Edited(copy: Report, edit: Edit, log: Log): Result<Report> {
    match edit
    case Update(expected, title, cards, basisOf) =>
      if expected.Some? && expected.value != copy.version then Rejected("saved after you opened it")
      else if !DistinctIds(cards) then Rejected("two cards share an id")
      else
        var pinned := PinAll(copy, cards, log, basisOf);
        if pinned.Rejected? then Rejected(pinned.reason) else Ok(copy.(title := title, cards := pinned.value))
    case Rename(title) => if title == "" then Rejected("needs a name") else Ok(copy.(title := title))
    case Reschedule(schedule, now) =>
      var interval := Interval(schedule);
      Ok(copy.(schedule := schedule, next := if interval.Some? then Some(now + interval.value) else None))
    case Accept(card, basis) =>
      var found := FirstById(copy.cards, card);
      if found.None? || found.value.input.kind != Query || found.value.sql.None? then Rejected("no saved query")
      else Ok(copy.(cards := Accepted(copy.cards, card, basis)))
  }

  // The world: the store, the audit log, the copies actors hold, and the commits so far.

  datatype Commit = Commit(base: Option<Report>, saved: Report)

  datatype World = World(store: Store, log: Log, copies: map<string, Report>, commits: map<string, seq<Commit>>)

  datatype Step =
    | Open(actor: string, id: string)
    | Create(id: string, connection: string, title: string)
    | Change(actor: string, edit: Edit)
    | Delete(id: string)
    | Claim(id: string, schedule: Schedule, expected: int, now: int)
    | Log(runId: string, run: Run)

  function Written(w: World, base: Option<Report>, saved: Report): World {
    var store := Saved(w.store, saved);
    if store.None? then w
    else
      var before := if saved.id in w.commits then w.commits[saved.id] else [];
      w.(store := store.value, commits := w.commits[saved.id := before + [Commit(base, saved)]])
  }

  /** One step of one actor; a refused request changes nothing.  A new report has an id never used before. */
  function After(w: World, s: Step): World {
    match s
    case Open(actor, id) => if id in w.store then w.(copies := w.copies[actor := w.store[id]]) else w
    case Create(id, connection, title) =>
      if id in w.commits then w else Written(w, None, Report(id, connection, 1, title, [], Off, None))
    case Change(actor, edit) =>
      if actor !in w.copies then w
      else
        var copy := w.copies[actor];
        var edited := Edited(copy, edit, w.log);
        if edited.Rejected? then w else Written(w, Some(copy), edited.value.(version := copy.version + 1))
    case Delete(id) => w.(store := w.store - {id})
    case Claim(id, schedule, expected, now) =>
      if expected > now then w
      else w.(store := Claimed(w.store, id, expected, Following(schedule, expected, now)))
    case Log(id, run) => if id in w.log then w else w.(log := w.log[id := run])
  }

  /** The world after the first `n` steps. */
  function At(w: World, steps: seq<Step>, n: nat): World
    requires n <= |steps|
  {
    if n == 0 then w else After(At(w, steps, n - 1), steps[n - 1])
  }

  const START := World(map[], map[], map[], map[])

  // The invariant.

  /** A claim moves only the next refresh. */
  predicate AsSaved(r: Report, saved: Report) {
    r == saved.(next := r.next)
  }

  predicate CardPinned(card: Card, connection: string, log: Log) {
    card.sql.Some? ==>
      && card.input.kind == Query && card.input.run.Some? && card.input.run.value in log
      && log[card.input.run.value].executed && log[card.input.run.value].connection == connection
      && log[card.input.run.value].sql == card.sql.value
  }

  /** Each card that has SQL holds the executed SQL of its run, on the report's own connection. */
  predicate Pinned(r: Report, log: Log) {
    forall i :: 0 <= i < |r.cards| ==> CardPinned(r.cards[i], r.connection, log)
  }

  /** Versions grow by exactly one, and each commit derives from its immediate predecessor. */
  predicate CommitHolds(id: string, commits: seq<Commit>, k: nat, log: Log)
    requires k < |commits|
  {
    var c := commits[k];
    && c.saved.id == id && c.saved.version == k + 1 && Pinned(c.saved, log)
    && (if k == 0 then c.base.None? else c.base.Some? && AsSaved(c.base.value, commits[k - 1].saved))
  }

  predicate Chained(id: string, commits: seq<Commit>, log: Log) {
    |commits| > 0 && forall k :: 0 <= k < |commits| ==> CommitHolds(id, commits, k, log)
  }

  predicate Inv(w: World) {
    && (forall id :: id in w.commits ==> Chained(id, w.commits[id], w.log))
    && (forall id :: id in w.store ==>
          id in w.commits && AsSaved(w.store[id], w.commits[id][|w.commits[id]| - 1].saved))
    && (forall a :: a in w.copies ==> CopyHolds(w, w.copies[a]))
  }

  predicate CopyHolds(w: World, copy: Report) {
    copy.id in w.commits && 1 <= copy.version <= |w.commits[copy.id]|
    && AsSaved(copy, w.commits[copy.id][copy.version - 1].saved)
  }

  lemma {:induction false} ByIdIn(cards: seq<Card>, id: string)
    ensures ById(cards, id).Some? ==> exists i :: 0 <= i < |cards| && cards[i] == ById(cards, id).value
  {
    if cards != [] && cards[|cards| - 1].input.id != id { ByIdIn(cards[..|cards| - 1], id); }
  }

  lemma {:induction false} ByRunIn(cards: seq<Card>, run: string)
    ensures ByRun(cards, run).Some? ==> exists i :: 0 <= i < |cards| && cards[i] == ByRun(cards, run).value
  {
    if cards != [] && !(cards[|cards| - 1].input.run == Some(run) && run != "") { ByRunIn(cards[..|cards| - 1], run); }
  }

  lemma {:induction false} PinAllPinned(report: Report, cards: seq<CardInput>, log: Log, basisOf: string -> Basis)
    requires Pinned(report, log) && PinAll(report, cards, log, basisOf).Ok?
    ensures |PinAll(report, cards, log, basisOf).value| == |cards|
    ensures forall i :: 0 <= i < |cards| ==>
      CardPinned(PinAll(report, cards, log, basisOf).value[i], report.connection, log)
  {
    if cards != [] {
      ByIdIn(report.cards, cards[0].id);
      if cards[0].run.Some? { ByRunIn(report.cards, cards[0].run.value); }
      PinAllPinned(report, cards[1..], log, basisOf);
    }
  }

  lemma {:induction false} AcceptedPinned(cards: seq<Card>, id: string, basis: Basis, connection: string, log: Log)
    requires forall i :: 0 <= i < |cards| ==> CardPinned(cards[i], connection, log)
    ensures |Accepted(cards, id, basis)| == |cards|
    ensures forall i :: 0 <= i < |cards| ==> CardPinned(Accepted(cards, id, basis)[i], connection, log)
  {
    if cards != [] { AcceptedPinned(cards[1..], id, basis, connection, log); }
  }

  /** No edit moves a report to another id or connection, or lets a card hold SQL its run did not execute. */
  lemma EditPinned(copy: Report, edit: Edit, log: Log)
    requires Pinned(copy, log) && Edited(copy, edit, log).Ok?
    ensures var r := Edited(copy, edit, log).value;
      Pinned(r, log) && r.id == copy.id && r.connection == copy.connection && r.version == copy.version
  {
    match edit
    case Update(_, _, cards, basisOf) => PinAllPinned(copy, cards, log, basisOf);
    case Accept(card, basis) => AcceptedPinned(copy.cards, card, basis, copy.connection, log);
    case _ =>
  }

  lemma ChainedMore(id: string, commits: seq<Commit>, log: Log, base: Option<Report>, saved: Report)
    requires commits == [] || Chained(id, commits, log)
    requires saved.id == id && saved.version == |commits| + 1 && Pinned(saved, log)
    requires if commits == [] then base.None?
             else base.Some? && AsSaved(base.value, commits[|commits| - 1].saved)
    ensures Chained(id, commits + [Commit(base, saved)], log)
  {
    var more := commits + [Commit(base, saved)];
    forall k | 0 <= k < |more| ensures CommitHolds(id, more, k, log) {
      assert k < |commits| ==> CommitHolds(id, commits, k, log);
    }
  }

  lemma ChainedLog(id: string, commits: seq<Commit>, log: Log, run: string, r: Run)
    requires Chained(id, commits, log) && run !in log
    ensures Chained(id, commits, log[run := r])
  {
    var log' := log[run := r];
    forall k | 0 <= k < |commits| ensures CommitHolds(id, commits, k, log') {
      assert CommitHolds(id, commits, k, log);
    }
  }

  lemma CopyPinned(w: World, copy: Report)
    requires Inv(w) && CopyHolds(w, copy)
    ensures Pinned(copy, w.log)
  {
    assert Chained(copy.id, w.commits[copy.id], w.log);
    assert CommitHolds(copy.id, w.commits[copy.id], copy.version - 1, w.log);
    var saved := w.commits[copy.id][copy.version - 1].saved;
    forall i | 0 <= i < |copy.cards| ensures CardPinned(copy.cards[i], copy.connection, w.log) {
      assert CardPinned(saved.cards[i], saved.connection, w.log);
    }
  }

  /** What is stored is the last commit, but for a claimed refresh. */
  lemma StoredHolds(w: World, id: string)
    requires Inv(w) && id in w.store
    ensures CopyHolds(w, w.store[id]) && w.store[id].id == id && w.store[id].version == |w.commits[id]|
  {
    var commits := w.commits[id];
    assert Chained(id, commits, w.log);
    assert CommitHolds(id, commits, |commits| - 1, w.log);
  }

  /** A written save becomes the last commit, with the one it derives from right before it. */
  lemma WrittenKeeps(w: World, base: Option<Report>, saved: Report)
    requires Inv(w) && Pinned(saved, w.log)
    requires base.None? ==> saved.id !in w.commits && saved.version == 1
    requires base.Some? ==> saved.id == base.value.id && saved.version == base.value.version + 1 && CopyHolds(w, base.value)
    ensures Inv(Written(w, base, saved))
  {
    var store := Saved(w.store, saved);
    if store.Some? {
      var before := if saved.id in w.commits then w.commits[saved.id] else [];
      if base.Some? { StoredHolds(w, saved.id); }
      ChainedMore(saved.id, before, w.log, base, saved);
      var w' := Written(w, base, saved);
      forall a | a in w'.copies ensures CopyHolds(w', w'.copies[a]) {
        assert CopyHolds(w, w.copies[a]);
      }
    }
  }

  lemma ChangeKeeps(w: World, actor: string, edit: Edit)
    requires Inv(w) && actor in w.copies && Edited(w.copies[actor], edit, w.log).Ok?
    ensures Inv(After(w, Change(actor, edit)))
  {
    var copy := w.copies[actor];
    assert CopyHolds(w, copy);
    CopyPinned(w, copy);
    EditPinned(copy, edit, w.log);
    WrittenKeeps(w, Some(copy), Edited(copy, edit, w.log).value.(version := copy.version + 1));
  }

  lemma LogKeeps(w: World, id: string, run: Run)
    requires Inv(w) && id !in w.log
    ensures Inv(w.(log := w.log[id := run]))
  {
    var w' := w.(log := w.log[id := run]);
    forall k | k in w.commits ensures Chained(k, w.commits[k], w'.log) {
      ChainedLog(k, w.commits[k], w.log, id, run);
    }
  }

  lemma OpenKeeps(w: World, actor: string, id: string)
    requires Inv(w) && id in w.store
    ensures Inv(w.(copies := w.copies[actor := w.store[id]]))
  {
    StoredHolds(w, id);
  }

  /** Every step of every actor keeps the invariant. */
  lemma Keeps(w: World, s: Step)
    requires Inv(w)
    ensures Inv(After(w, s))
  {
    match s
    case Create(id, connection, title) =>
      if id !in w.commits { WrittenKeeps(w, None, Report(id, connection, 1, title, [], Off, None)); }
    case Change(actor, edit) =>
      if actor in w.copies && Edited(w.copies[actor], edit, w.log).Ok? { ChangeKeeps(w, actor, edit); }
    case Log(id, run) => if id !in w.log { LogKeeps(w, id, run); }
    case Open(actor, id) => if id in w.store { OpenKeeps(w, actor, id); }
    case Delete(_) =>
    case Claim(_, _, _, _) =>
  }

  lemma {:induction false} Reached(steps: seq<Step>, n: nat)
    requires n <= |steps|
    ensures Inv(At(START, steps, n))
  {
    if n > 0 {
      Reached(steps, n - 1);
      Keeps(At(START, steps, n - 1), steps[n - 1]);
    }
  }

  /** In every reachable world, a stored card that has SQL holds its run's, on the report's connection. */
  lemma StoredCardsPinned(steps: seq<Step>, n: nat, id: string, i: nat)
    requires n <= |steps| && id in At(START, steps, n).store && i < |At(START, steps, n).store[id].cards|
    ensures CardPinned(At(START, steps, n).store[id].cards[i], At(START, steps, n).store[id].connection,
                       At(START, steps, n).log)
  {
    Reached(steps, n);
    var w := At(START, steps, n);
    StoredHolds(w, id);
    CopyPinned(w, w.store[id]);
  }

  // Over whole runs.

  function CommitCount(w: World, id: string): nat {
    if id in w.commits then |w.commits[id]| else 0
  }

  /** Whether step `n` commits a version of this report. */
  predicate Commits(steps: seq<Step>, n: nat, id: string)
    requires n < |steps|
  {
    CommitCount(At(START, steps, n + 1), id) > CommitCount(At(START, steps, n), id)
  }

  /** The version the copy a step saves from was read at; 0 for a new report. */
  function FromVersion(w: World, s: Step): nat {
    if s.Change? && s.actor in w.copies then w.copies[s.actor].version else 0
  }

  lemma CommitsNext(w: World, s: Step, id: string)
    requires Inv(w)
    ensures CommitCount(After(w, s), id) == CommitCount(w, id)
            || CommitCount(After(w, s), id) == CommitCount(w, id) + 1 == FromVersion(w, s) + 1
  {
    if s.Change? && s.actor in w.copies {
      var copy := w.copies[s.actor];
      assert CopyHolds(w, copy);
      if Edited(copy, s.edit, w.log).Ok? {
        CopyPinned(w, copy);
        EditPinned(copy, s.edit, w.log);
        if copy.id in w.store { StoredHolds(w, copy.id); }
      }
    }
  }

  lemma {:induction false} CountGrows(steps: seq<Step>, m: nat, n: nat, id: string)
    requires m <= n <= |steps|
    ensures CommitCount(At(START, steps, m), id) <= CommitCount(At(START, steps, n), id)
  {
    if m < n {
      CountGrows(steps, m, n - 1, id);
      Reached(steps, n - 1);
      CommitsNext(At(START, steps, n - 1), steps[n - 1], id);
    }
  }

  /** Of any two saves of one report that are written, the later was made from a later version: never from the same. */
  lemma OneOfTwoSaves(steps: seq<Step>, m: nat, n: nat, id: string)
    requires m < n < |steps| && Commits(steps, m, id) && Commits(steps, n, id)
    ensures FromVersion(At(START, steps, m), steps[m]) < FromVersion(At(START, steps, n), steps[n])
  {
    Reached(steps, m);
    Reached(steps, n);
    CommitsNext(At(START, steps, m), steps[m], id);
    CommitsNext(At(START, steps, n), steps[n], id);
    CountGrows(steps, m + 1, n, id);
  }

  predicate Gone(w: World, id: string) {
    id in w.commits && id !in w.store
  }

  lemma GoneStays(w: World, s: Step, id: string)
    requires Inv(w) && Gone(w, id)
    ensures Gone(After(w, s), id)
  {
    if s.Change? && s.actor in w.copies {
      var copy := w.copies[s.actor];
      assert CopyHolds(w, copy);
    }
  }

  /** No save, however stale its copy, brings a deleted report back. */
  lemma {:induction false} NeverRevived(steps: seq<Step>, m: nat, n: nat, id: string)
    requires m <= n <= |steps| && Gone(At(START, steps, m), id)
    ensures Gone(At(START, steps, n), id)
  {
    if m < n {
      NeverRevived(steps, m, n - 1, id);
      Reached(steps, n - 1);
      GoneStays(At(START, steps, n - 1), steps[n - 1], id);
    }
  }

  // Claims.

  /** Whether this step claims a refresh of this report due at `expected`. */
  predicate Claims(w: World, s: Step, id: string, expected: int) {
    s.Claim? && s.id == id && s.expected == expected <= s.now && Claimable(w.store, id, expected)
  }

  /** The refresh is no longer waiting at or before `expected`. */
  predicate Passed(w: World, id: string, expected: int) {
    id in w.commits && (id in w.store && w.store[id].next.Some? ==> w.store[id].next.value > expected)
  }

  /** The due time an edit of this copy writes: the copy's own, unless it sets the schedule. */
  function NextWritten(copy: Report, edit: Edit): Option<int> {
    if edit.Reschedule? then
      var interval := Interval(edit.schedule);
      if interval.Some? then Some(edit.now + interval.value) else None
    else copy.next
  }

  /** Saving this edit would leave the report due at or before `expected`: known from the copy before the save. */
  predicate DueAgain(w: World, s: Step, expected: int) {
    && s.Change? && s.actor in w.copies
    && NextWritten(w.copies[s.actor], s.edit).Some? && NextWritten(w.copies[s.actor], s.edit).value <= expected
  }

  /** Right after a commit a due time can be claimed if and only if the commit wrote it. */
  lemma ClaimableAgain(w: World, s: Step, id: string, t: int)
    requires Inv(w) && CommitCount(After(w, s), id) > CommitCount(w, id)
    ensures Claimable(After(w, s).store, id, t) <==>
              s.Change? && s.actor in w.copies && NextWritten(w.copies[s.actor], s.edit) == Some(t)
  {
  }

  lemma PassedStays(w: World, s: Step, id: string, expected: int)
    requires Inv(w) && Passed(w, id, expected)
    requires CommitCount(After(w, s), id) > CommitCount(w, id) ==> !DueAgain(w, s, expected)
    ensures Passed(After(w, s), id, expected)
  {
    CommitsNext(w, s, id);
  }

  lemma {:induction false} StillPassed(steps: seq<Step>, m: nat, n: nat, id: string, expected: int)
    requires m <= n <= |steps| && Passed(At(START, steps, m), id, expected)
    requires forall k :: m <= k < n ==> !Restores(steps, k, id, expected)
    ensures Passed(At(START, steps, n), id, expected)
  {
    if m < n {
      StillPassed(steps, m, n - 1, id, expected);
      Reached(steps, n - 1);
      assert !Restores(steps, n - 1, id, expected);
      PassedStays(At(START, steps, n - 1), steps[n - 1], id, expected);
    }
  }

  /** Step `k` commits an edit of a copy that leaves the report due at or before `expected`. */
  predicate Restores(steps: seq<Step>, k: nat, id: string, expected: int)
    requires k < |steps|
  {
    Commits(steps, k, id) && DueAgain(At(START, steps, k), steps[k], expected)
  }

  lemma {:induction false} ClaimedThenPassed(w: World, steps: seq<Step>, m: nat, id: string, expected: int)
    requires m < |steps| && Inv(At(w, steps, m)) && Claims(At(w, steps, m), steps[m], id, expected)
    ensures Passed(At(w, steps, m + 1), id, expected)
  {
  }

  lemma NoSecondClaim(steps: seq<Step>, m: nat, n: nat, id: string, expected: int)
    requires m < n < |steps| && forall k :: m + 1 <= k < n ==> !Restores(steps, k, id, expected)
    requires Passed(At(START, steps, m + 1), id, expected)
    ensures !Claims(At(START, steps, n), steps[n], id, expected)
  {
    StillPassed(steps, m + 1, n, id, expected);
  }

  /**
   One due time is claimed at most once, unless in between a save wrote a due time no later back;
   saves from copies opened after the claim are harmless, unless they set an earlier schedule.
   */
  lemma ClaimedOnce(steps: seq<Step>, m: nat, n: nat, id: string, expected: int)
    requires m < n < |steps|
    requires Claims(At(START, steps, m), steps[m], id, expected)
    requires Claims(At(START, steps, n), steps[n], id, expected)
    ensures exists k :: m < k < n && Restores(steps, k, id, expected)
  {
    Reached(steps, m);
    ClaimedThenPassed(START, steps, m, id, expected);
    if forall k :: m + 1 <= k < n ==> !Restores(steps, k, id, expected) {
      NoSecondClaim(steps, m, n, id, expected);
    }
  }

  lemma Created(steps: seq<Step>, id: string, connection: string, editor: string, title: string)
    requires |steps| >= 2 && steps[..2] == [Create(id, connection, title), Open(editor, id)]
    ensures var first := Report(id, connection, 1, title, [], Off, None);
      At(START, steps, 2).store == map[id := first] && At(START, steps, 2).copies == map[editor := first]
  {
    var first := Report(id, connection, 1, title, [], Off, None);
    assert steps[0] == steps[..2][0] && steps[1] == steps[..2][1];
    assert At(START, steps, 1) == After(At(START, steps, 0), steps[0]) && At(START, steps, 1).store == map[id := first];
    assert At(START, steps, 2) == After(At(START, steps, 1), steps[1]);
  }

  /** An editor's steps up to opening a report already due. */
  lemma Opened(steps: seq<Step>, id: string, connection: string, editor: string, title: string, now: int)
    requires |steps| >= 4 && steps[..4] ==
      [Create(id, connection, title), Open(editor, id), Change(editor, Reschedule(Hourly, now)), Open(editor, id)]
    ensures var due := Report(id, connection, 2, title, [], Hourly, Some(now + 3600));
      At(START, steps, 4).store == map[id := due] && At(START, steps, 4).copies == map[editor := due]
  {
    var first := Report(id, connection, 1, title, [], Off, None);
    var due := Report(id, connection, 2, title, [], Hourly, Some(now + 3600));
    assert steps[..2] == steps[..4][..2] && steps[2] == steps[..4][2] && steps[3] == steps[..4][3];
    Created(steps, id, connection, editor, title);
    assert At(START, steps, 3) == After(At(START, steps, 2), steps[2]) && At(START, steps, 3).store == map[id := due];
    assert At(START, steps, 4) == After(At(START, steps, 3), steps[3]);
  }

  /** A report is put on an hourly refresh, opened again, claimed when due, renamed from that copy, and claimed once more. */
  function TwiceSteps(id: string, connection: string, editor: string, title: string, now: int): seq<Step> {
    var claim := Claim(id, Hourly, now + 3600, now + 3600);
    [Create(id, connection, title), Open(editor, id), Change(editor, Reschedule(Hourly, now)), Open(editor, id),
     claim, Change(editor, Rename(title)), claim]
  }

  /** A save writes back the due time it read: an edit opened before a claim lets it be claimed again. */
  lemma ClaimedTwice(id: string, connection: string, editor: string, title: string, now: int)
    requires title != ""
    ensures var steps := TwiceSteps(id, connection, editor, title, now);
      && Claims(At(START, steps, 4), steps[4], id, now + 3600)
      && Claims(At(START, steps, 6), steps[6], id, now + 3600)
  {
    var steps := TwiceSteps(id, connection, editor, title, now);
    Opened(steps, id, connection, editor, title, now);
    assert At(START, steps, 5) == After(At(START, steps, 4), steps[4]);
    assert At(START, steps, 5).store[id].version == 2 && At(START, steps, 5).copies == At(START, steps, 4).copies;
    assert At(START, steps, 6) == After(At(START, steps, 5), steps[5]);
  }
}
