/**
 What an edit makes of a report (app/reports/service.py): which requests are refused, and what is
 saved of the others, card by card.

 Main results: `EditMakes`, the outcome of every edit, and `ChangeWrites`, when it is stored;
 `HasSql`, exactly when a saved card has SQL; and `StoredCardsBacked`, that in every reachable
 store a card with a run has that run's SQL and question, where only query cards are ever given
 runs.  `NoteLosesSql` shows what becomes of one that was a note first.
 */
module ReportEdits {
  import opened Seqs
  import opened Reports

  predicate IsLast(cards: seq<Card>, k: int, p: Card -> bool) {
    0 <= k < |cards| && p(cards[k]) && forall m :: k < m < |cards| ==> !p(cards[m])
  }

  function HasId(id: string): Card -> bool { (card: Card) => card.input.id == id }

  function HasRun(run: Option<string>): Card -> bool { (card: Card) => card.input.run == run }

  /** The saved card takes its SQL from the k-th card of the report: the one of its id, or a card it copies. */
  ghost predicate CarriedFrom(cards: seq<Card>, card: CardInput, k: int) {
    && 0 <= k < |cards| && cards[k].input.run == card.run && card.run.Some?
    && (IsLast(cards, k, HasId(card.id)) ||
        (card.run != Some("") && IsLast(cards, k, HasRun(card.run)) && forall m :: 0 <= m < |cards| ==> cards[m].input.id != card.id))
  }

  predicate Asks(card: CardInput) { card.kind == Query && card.run.Some? }

  /** The run may be put on a card of this report. */
  predicate Usable(run: string, report: Report, log: Log) {
    run in log && log[run].connection == report.connection && log[run].executed && log[run].sql != ""
  }

  /** A card that would take its SQL from a run it may not have. */
  ghost predicate Refuses(report: Report, card: CardInput, log: Log) {
    Asks(card) && (forall k :: !CarriedFrom(report.cards, card, k)) && !Usable(card.run.value, report, log)
  }

  /** What is saved of one card. */
  ghost predicate Fills(report: Report, card: CardInput, saved: Card, log: Log, basisOf: string -> Basis) {
    && (!Asks(card) ==> saved == Card(card, None, map[]))
    && (Asks(card) ==> forall k :: CarriedFrom(report.cards, card, k) ==>
          saved == report.cards[k].(input := card.(question := report.cards[k].input.question)))
    && (Asks(card) && (forall k :: !CarriedFrom(report.cards, card, k)) ==>
          && Usable(card.run.value, report, log)
          && var run := log[card.run.value];
             saved == Card(card.(question := run.question), Some(run.sql), basisOf(run.sql)))
  }

  ghost predicate AllFill(report: Report, cards: seq<CardInput>, saved: seq<Card>, log: Log, basisOf: string -> Basis) {
    |saved| == |cards| && forall i :: 0 <= i < |cards| ==> Fills(report, cards[i], saved[i], log, basisOf)
  }

  lemma {:induction false} ByIdIsLast(cards: seq<Card>, id: string)
    ensures ById(cards, id).Some? ==> exists k :: IsLast(cards, k, HasId(id)) && ById(cards, id) == Some(cards[k])
    ensures ById(cards, id).None? ==> forall m :: 0 <= m < |cards| ==> cards[m].input.id != id
  {
    if cards != [] {
      var front, last := cards[..|cards| - 1], |cards| - 1;
      if cards[last].input.id == id {
        assert IsLast(cards, last, HasId(id));
      } else {
        ByIdIsLast(front, id);
        if k :| IsLast(front, k, HasId(id)) && ById(front, id) == Some(front[k]) {
          assert IsLast(cards, k, HasId(id));
        }
      }
    }
  }

  lemma {:induction false} ByRunIsLast(cards: seq<Card>, run: string)
    requires run != ""
    ensures ByRun(cards, run).Some? ==> exists k :: IsLast(cards, k, HasRun(Some(run))) && ByRun(cards, run) == Some(cards[k])
    ensures ByRun(cards, run).None? ==> forall m :: 0 <= m < |cards| ==> cards[m].input.run != Some(run)
  {
    if cards != [] {
      var front, last := cards[..|cards| - 1], |cards| - 1;
      if cards[last].input.run == Some(run) {
        assert IsLast(cards, last, HasRun(Some(run)));
      } else {
        ByRunIsLast(front, run);
        if k :| IsLast(front, k, HasRun(Some(run))) && ByRun(front, run) == Some(front[k]) {
          assert IsLast(cards, k, HasRun(Some(run)));
        }
      }
    }
  }

  lemma {:induction false} NoRun(cards: seq<Card>)
    ensures ByRun(cards, "") == None
  {
    if cards != [] { NoRun(cards[..|cards| - 1]); }
  }

  lemma OneLast(cards: seq<Card>, k: int, m: int, p: Card -> bool)
    requires IsLast(cards, k, p) && IsLast(cards, m, p)
    ensures k == m
  {
  }

  /** The search for the card to carry over from finds it exactly where there is one. */
  lemma {:induction false} CarriedIs(cards: seq<Card>, card: CardInput, k: int)
    requires CarriedFrom(cards, card, k)
    ensures Previous(cards, card) == Some(cards[k])
  {
    ByIdIsLast(cards, card.id);
    if ById(cards, card.id).Some? {
      var m :| IsLast(cards, m, HasId(card.id)) && ById(cards, card.id) == Some(cards[m]);
      assert cards[m].input.id == card.id;
      OneLast(cards, k, m, HasId(card.id));
    } else {
      assert cards[k].input.id != card.id;
      ByRunIsLast(cards, card.run.value);
      var m :| IsLast(cards, m, HasRun(card.run)) && ByRun(cards, card.run.value) == Some(cards[m]);
      OneLast(cards, k, m, HasRun(card.run));
    }
  }

  lemma {:induction false} NotCarried(cards: seq<Card>, card: CardInput)
    requires card.run.Some? && forall k :: !CarriedFrom(cards, card, k)
    ensures Previous(cards, card).Some? ==> Previous(cards, card).value.input.run != card.run
  {
    ByIdIsLast(cards, card.id);
    if ById(cards, card.id).Some? {
      var m :| IsLast(cards, m, HasId(card.id)) && ById(cards, card.id) == Some(cards[m]);
      assert !CarriedFrom(cards, card, m);
    } else if card.run.value == "" {
      NoRun(cards);
    } else {
      ByRunIsLast(cards, card.run.value);
      assert forall m :: IsLast(cards, m, HasRun(card.run)) ==> CarriedFrom(cards, card, m);
    }
  }

  lemma {:induction false} PinFills(report: Report, card: CardInput, log: Log, basisOf: string -> Basis)
    ensures var pinned := Pin(report, card, Previous(report.cards, card), log, basisOf);
      && (pinned.Rejected? <==> Refuses(report, card, log))
      && (pinned.Ok? ==> Fills(report, card, pinned.value, log, basisOf))
  {
    if Asks(card) {
      if k :| CarriedFrom(report.cards, card, k) {
        CarriedIs(report.cards, card, k);
        forall m | CarriedFrom(report.cards, card, m) ensures report.cards[m] == report.cards[k] {
          CarriedIs(report.cards, card, m);
        }
      } else {
        NotCarried(report.cards, card);
      }
    }
  }

  lemma {:induction false} PinAllFills(report: Report, cards: seq<CardInput>, log: Log, basisOf: string -> Basis)
    ensures var pinned := PinAll(report, cards, log, basisOf);
      && (pinned.Rejected? <==> exists i :: 0 <= i < |cards| && Refuses(report, cards[i], log))
      && (pinned.Ok? ==> AllFill(report, cards, pinned.value, log, basisOf))
  {
    if cards != [] {
      PinFills(report, cards[0], log, basisOf);
      PinAllFills(report, cards[1..], log, basisOf);
      if i :| 0 <= i < |cards[1..]| && Refuses(report, cards[1..][i], log) {
        assert Refuses(report, cards[i + 1], log);
      }
      assert forall i :: 0 < i < |cards| ==> cards[i] == cards[1..][i - 1];
    }
  }

  // Every edit.

  predicate IsFirst(cards: seq<Card>, id: string, k: int) {
    0 <= k < |cards| && cards[k].input.id == id && forall m :: 0 <= m < k ==> cards[m].input.id != id
  }

  /** Why an edit is refused: a copy someone saved over, two cards of one id, a run a card may not have, no name, no query. */
  ghost predicate Refused(copy: Report, edit: Edit, log: Log) {
    match edit
    case Update(expected, _, cards, _) =>
      || (expected.Some? && expected.value != copy.version)
      || (exists i, j :: 0 <= i < j < |cards| && cards[i].id == cards[j].id)
      || (exists i :: 0 <= i < |cards| && Refuses(copy, cards[i], log))
    case Rename(title) => title == ""
    case Reschedule(_, _) => false
    case Accept(card, _) =>
      forall k :: IsFirst(copy.cards, card, k) ==> copy.cards[k].input.kind != Query || copy.cards[k].sql.None?
  }

  /** What is saved: each edit changes what it is of, and nothing else. */
  ghost predicate Makes(copy: Report, edit: Edit, log: Log, r: Report) {
    match edit
    case Update(_, title, cards, basisOf) =>
      r == copy.(title := title, cards := r.cards) && AllFill(copy, cards, r.cards, log, basisOf)
    case Rename(title) => r == copy.(title := title)
    case Reschedule(schedule, now) =>
      && r == copy.(schedule := schedule, next := r.next)
      && (match schedule
          case Off => r.next == None
          case Hourly => r.next == Some(now + 3600)
          case Daily => r.next == Some(now + 24 * 3600)
          case Weekly => r.next == Some(now + 7 * 24 * 3600))
    case Accept(card, basis) =>
      && r == copy.(cards := r.cards) && |r.cards| == |copy.cards|
      && forall i :: 0 <= i < |r.cards| ==>
           r.cards[i] == if copy.cards[i].input.id == card then copy.cards[i].(basis := basis) else copy.cards[i]
  }

  lemma {:induction false} FirstIs(cards: seq<Card>, id: string)
    ensures FirstById(cards, id).Some? ==> exists k :: IsFirst(cards, id, k) && FirstById(cards, id) == Some(cards[k])
    ensures FirstById(cards, id).None? ==> forall k :: !IsFirst(cards, id, k)
  {
    if cards != [] {
      FirstIs(cards[1..], id);
      if cards[0].input.id == id {
        assert IsFirst(cards, id, 0);
      } else if k :| IsFirst(cards[1..], id, k) && FirstById(cards[1..], id) == Some(cards[1..][k]) {
        assert IsFirst(cards, id, k + 1);
      } else {
        forall k ensures !IsFirst(cards, id, k) {
          assert !IsFirst(cards[1..], id, k - 1);
        }
      }
    }
  }

  lemma {:induction false} AcceptedAt(cards: seq<Card>, id: string, basis: Basis)
    ensures |Accepted(cards, id, basis)| == |cards|
    ensures forall i :: 0 <= i < |cards| ==>
      Accepted(cards, id, basis)[i] == if cards[i].input.id == id then cards[i].(basis := basis) else cards[i]
  {
    if cards != [] {
      AcceptedAt(cards[1..], id, basis);
      assert forall i :: 0 < i < |cards| ==> cards[i] == cards[1..][i - 1];
    }
  }

  /** Every edit is refused exactly for its reasons, and otherwise makes what it says of the copy. */
  lemma EditMakes(copy: Report, edit: Edit, log: Log)
    ensures Edited(copy, edit, log).Rejected? <==> Refused(copy, edit, log)
    ensures Edited(copy, edit, log).Ok? ==> Makes(copy, edit, log, Edited(copy, edit, log).value)
  {
    match edit
    case Update(_, _, cards, basisOf) => PinAllFills(copy, cards, log, basisOf);
    case Accept(card, basis) =>
      FirstIs(copy.cards, card);
      AcceptedAt(copy.cards, card, basis);
      forall k, m | IsFirst(copy.cards, card, k) && IsFirst(copy.cards, card, m) ensures k == m {
      }
    case _ =>
  }

  /** A saved card has SQL if and only if it is a query card with a run and, if it is carried over, what it comes from has SQL. */
  lemma HasSql(report: Report, card: CardInput, saved: Card, log: Log, basisOf: string -> Basis)
    requires Fills(report, card, saved, log, basisOf)
    ensures saved.sql.Some? <==> Asks(card) && forall k :: CarriedFrom(report.cards, card, k) ==> report.cards[k].sql.Some?
  {
    if Asks(card) {
      if k :| CarriedFrom(report.cards, card, k) {
        assert saved.sql == report.cards[k].sql;
      }
    }
  }

  /**
   A change is stored, as the next version and alone, exactly when it is not refused and its copy is
   of the version stored; otherwise nothing happens.
   */
  lemma ChangeWrites(w: World, actor: string, edit: Edit)
    requires Inv(w) && actor in w.copies
    ensures var copy, after := w.copies[actor], After(w, Change(actor, edit));
      if Refused(copy, edit, w.log) || copy.id !in w.store || w.store[copy.id].version != copy.version then after == w
      else
        && copy.id in after.store && after.store == w.store[copy.id := after.store[copy.id]]
        && after.store[copy.id].version == copy.version + 1
        && Makes(copy, edit, w.log, after.store[copy.id].(version := copy.version))
        && after.log == w.log && after.copies == w.copies
  {
    var copy := w.copies[actor];
    assert CopyHolds(w, copy);
    EditMakes(copy, edit, w.log);
    if Edited(copy, edit, w.log).Ok? {
      CopyPinned(w, copy);
      EditPinned(copy, edit, w.log);
      var r := Edited(copy, edit, w.log).value;
      assert r.(version := copy.version + 1).(version := copy.version) == r;
    }
  }

  // Over every run: card ids stay apart, and a run brings its SQL with it.

  predicate IdsApart(r: Report) {
    forall i, j :: 0 <= i < j < |r.cards| ==> r.cards[i].input.id != r.cards[j].input.id
  }

  predicate CardBacked(card: Card, log: Log) {
    card.input.run.Some? ==>
      && card.input.kind == Query && card.input.run.value in log
      && card.sql == Some(log[card.input.run.value].sql) && card.input.question == log[card.input.run.value].question
  }

  /** Each card with a run is a query card that has the run's SQL and question. */
  predicate Backed(r: Report, log: Log) {
    forall i :: 0 <= i < |r.cards| ==> CardBacked(r.cards[i], log)
  }

  /** No card but a query card is given a run. */
  predicate Tidy(edit: Edit) {
    edit.Update? ==> forall i :: 0 <= i < |edit.cards| && edit.cards[i].run.Some? ==> edit.cards[i].kind == Query
  }

  predicate Good(r: Report, log: Log, tidy: bool) {
    IdsApart(r) && (tidy ==> Backed(r, log))
  }

  lemma FilledBacked(report: Report, card: CardInput, saved: Card, log: Log, basisOf: string -> Basis)
    requires Backed(report, log) && Fills(report, card, saved, log, basisOf) && (card.run.Some? ==> card.kind == Query)
    ensures CardBacked(saved, log) && saved.input.id == card.id
  {
    if Asks(card) {
      if k :| CarriedFrom(report.cards, card, k) {
        assert CardBacked(report.cards[k], log);
      }
    }
  }

  lemma FilledId(report: Report, card: CardInput, saved: Card, log: Log, basisOf: string -> Basis)
    requires Fills(report, card, saved, log, basisOf)
    ensures saved.input.id == card.id
  {
    if Asks(card) {
      if k :| CarriedFrom(report.cards, card, k) {
        assert saved.input.id == card.id;
      }
    }
  }

  lemma EditGood(copy: Report, edit: Edit, log: Log, tidy: bool)
    requires Good(copy, log, tidy) && Edited(copy, edit, log).Ok? && (tidy ==> Tidy(edit))
    ensures Good(Edited(copy, edit, log).value, log, tidy)
  {
    var r := Edited(copy, edit, log).value;
    EditMakes(copy, edit, log);
    if edit.Update? {
      forall i | 0 <= i < |r.cards| ensures r.cards[i].input.id == edit.cards[i].id && (tidy ==> CardBacked(r.cards[i], log)) {
        FilledId(copy, edit.cards[i], r.cards[i], log, edit.basisOf);
        if tidy { FilledBacked(copy, edit.cards[i], r.cards[i], log, edit.basisOf); }
      }
    }
  }

  predicate AllGood(w: World, tidy: bool) {
    forall id :: id in w.commits ==> forall k :: 0 <= k < |w.commits[id]| ==> Good(w.commits[id][k].saved, w.log, tidy)
  }

  predicate TidyStep(s: Step) { s.Change? ==> Tidy(s.edit) }

  lemma GoodLogged(r: Report, log: Log, tidy: bool, id: string, run: Run)
    requires Good(r, log, tidy) && id !in log
    ensures Good(r, log[id := run], tidy)
  {
    if tidy {
      forall i | 0 <= i < |r.cards| ensures CardBacked(r.cards[i], log[id := run]) {
        assert CardBacked(r.cards[i], log);
      }
    }
  }

  lemma WrittenGood(w: World, base: Option<Report>, saved: Report, tidy: bool)
    requires AllGood(w, tidy) && Good(saved, w.log, tidy)
    ensures AllGood(Written(w, base, saved), tidy)
  {
  }

  lemma CopyGood(w: World, copy: Report, tidy: bool)
    requires Inv(w) && AllGood(w, tidy) && CopyHolds(w, copy)
    ensures Good(copy, w.log, tidy)
  {
    var saved := w.commits[copy.id][copy.version - 1].saved;
    assert Good(saved, w.log, tidy) && copy.cards == saved.cards;
    if tidy {
      forall i | 0 <= i < |copy.cards| ensures CardBacked(copy.cards[i], w.log) {
        assert CardBacked(saved.cards[i], w.log);
      }
    }
  }

  lemma StepGood(w: World, s: Step, tidy: bool)
    requires Inv(w) && AllGood(w, tidy) && (tidy ==> TidyStep(s))
    ensures AllGood(After(w, s), tidy)
  {
    match s
    case Create(id, connection, title) =>
      WrittenGood(w, None, Report(id, connection, 1, title, [], Off, None), tidy);
    case Change(actor, edit) =>
      if actor in w.copies && Edited(w.copies[actor], edit, w.log).Ok? {
        var copy := w.copies[actor];
        assert CopyHolds(w, copy);
        CopyGood(w, copy, tidy);
        EditGood(copy, edit, w.log, tidy);
        var saved := Edited(copy, edit, w.log).value.(version := copy.version + 1);
        assert Good(saved, w.log, tidy);
        WrittenGood(w, Some(copy), saved, tidy);
      }
    case Log(id, run) =>
      if id !in w.log {
        forall r, k | r in w.commits && 0 <= k < |w.commits[r]| ensures Good(w.commits[r][k].saved, w.log[id := run], tidy) {
          GoodLogged(w.commits[r][k].saved, w.log, tidy, id, run);
        }
      }
    case _ =>
  }

  lemma {:induction false} ReachedGood(steps: seq<Step>, n: nat, tidy: bool)
    requires n <= |steps| && (tidy ==> forall k :: 0 <= k < n ==> TidyStep(steps[k]))
    ensures AllGood(At(START, steps, n), tidy)
  {
    if n > 0 {
      ReachedGood(steps, n - 1, tidy);
      Reached(steps, n - 1);
      StepGood(At(START, steps, n - 1), steps[n - 1], tidy);
    }
  }

  /** In every reachable world no stored report has two cards of one id, so accepting changes one card's basis. */
  lemma StoredIdsApart(steps: seq<Step>, n: nat, id: string)
    requires n <= |steps| && id in At(START, steps, n).store
    ensures IdsApart(At(START, steps, n).store[id])
  {
    var w := At(START, steps, n);
    Reached(steps, n);
    ReachedGood(steps, n, false);
    StoredHolds(w, id);
    CopyGood(w, w.store[id], false);
  }

  /** Where only query cards are ever given runs, every stored card with a run has that run's SQL and question. */
  lemma StoredCardsBacked(steps: seq<Step>, n: nat, id: string)
    requires n <= |steps| && id in At(START, steps, n).store && forall k :: 0 <= k < n ==> TidyStep(steps[k])
    ensures Backed(At(START, steps, n).store[id], At(START, steps, n).log)
  {
    var w := At(START, steps, n);
    Reached(steps, n);
    ReachedGood(steps, n, true);
    StoredHolds(w, id);
    CopyGood(w, w.store[id], true);
  }

  /** Saving this one card with this run and nothing else. */
  function OneCard(copy: Report, id: string, kind: Kind, run: string, basisOf: string -> Basis): Edit {
    Update(None, copy.title, [CardInput(id, kind, "", Some(run))], basisOf)
  }

  /** A note may name a run, and keeps no SQL of it; made a query card of that run later, it is carried over and has none still. */
  lemma NoteLosesSql(copy: Report, id: string, run: string, basisOf: string -> Basis, log: Log)
    requires copy.cards == [] && Usable(run, copy, log)
    ensures var asNote := Edited(copy, OneCard(copy, id, Note, run, basisOf), log);
      asNote.Ok? &&
      var asQuery := Edited(asNote.value, OneCard(copy, id, Query, run, basisOf), log);
      asQuery.Ok? && asQuery.value.cards == [Card(CardInput(id, Query, "", Some(run)), None, map[])]
    ensures var asQuery := Edited(copy, OneCard(copy, id, Query, run, basisOf), log);
      asQuery.Ok? && |asQuery.value.cards| == 1 && asQuery.value.cards[0].sql == Some(log[run].sql)
  {
    var note, query := CardInput(id, Note, "", Some(run)), CardInput(id, Query, "", Some(run));
    PinOne(copy, note, log, basisOf);
    PinOne(copy, query, log, basisOf);
    var saved := copy.(cards := [Card(note, None, map[])]);
    assert Edited(copy, OneCard(copy, id, Note, run, basisOf), log) == Ok(saved);
    PinOne(saved, query, log, basisOf);
    assert Previous(saved.cards, query) == Some(saved.cards[0]);
  }

  lemma PinOne(report: Report, card: CardInput, log: Log, basisOf: string -> Basis)
    ensures PinAll(report, [card], log, basisOf) ==
      match Pin(report, card, Previous(report.cards, card), log, basisOf)
      case Ok(saved) => Ok([saved])
      case Rejected(reason) => Rejected(reason)
  {
    var pinned := Pin(report, card, Previous(report.cards, card), log, basisOf);
    assert [card] != [] && [card][1..] == [] && PinAll(report, [], log, basisOf) == Ok([]);
    if pinned.Ok? { assert [pinned.value] + [] == [pinned.value]; }
  }
}
