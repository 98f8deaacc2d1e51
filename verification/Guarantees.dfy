/** What holds of every run: what it may remove, what it reports of that, and what is left. */
module Guarantees {
  import opened Outcomes
  import opened FileSystem
  import opened Isolation
  import opened Spill
  import opened Records
  import opened PlanStore
  import opened Reports
  import opened Planner
  import opened Execution
  import History

  // ---- the worlds of a run ----

  lemma TurnOf(job: Job, draw: nat -> Option<Name>, planned: seq<Entry>, start: World, history: seq<Turn>, now: World,
               i: nat)
    requires IsRun(job, draw, planned, start, history, now) && i < |history|
    ensures |history| <= |planned| && history[i].entry == planned[|planned| - 1 - i] && history[i].entry in planned
    ensures TurnTaken(draw, history[i]) && Paused(WorldAt(start, history, i), history[i].before)
    ensures history[i].attempt.None? <==> Stopped(job, history, i)
    ensures i > 0 ==> history[i - 1].after == WorldAt(start, history, i)
  {
    assert InTurn(job, draw, planned, start, history, i);
  }

  lemma TakenEvolves(draw: nat -> Option<Name>, turn: Turn)
    requires TurnTaken(draw, turn)
    ensures turn.before.Valid() && turn.after.Valid() && Evolved(turn.before, turn.after)
  {
    EvolvedSelf(turn.before);
  }

  lemma {:induction false} RunEvolves(job: Job, draw: nat -> Option<Name>, planned: seq<Entry>, start: World,
                                      history: seq<Turn>, now: World, i: nat, j: nat)
    requires IsRun(job, draw, planned, start, history, now) && i <= j <= |history|
    ensures WorldAt(start, history, i).Valid() && WorldAt(start, history, j).Valid()
    ensures Evolved(WorldAt(start, history, i), WorldAt(start, history, j))
    decreases j - i
  {
    hide World.Valid, Evolved, TurnTaken, OwnKept, Quiet, Clean, Faultless, Undenied, Stopped;
    Evolution();
    if i > 0 {
      TurnOf(job, draw, planned, start, history, now, i - 1);
      TakenEvolves(draw, history[i - 1]);
    }
    if i < j {
      TurnOf(job, draw, planned, start, history, now, i);
      TakenEvolves(draw, history[i]);
      RunEvolves(job, draw, planned, start, history, now, i + 1, j);
    }
  }

  /** The world when a turn began came of the run's first one, and the last came of the one when it ended. */
  lemma AroundTurn(job: Job, draw: nat -> Option<Name>, planned: seq<Entry>, start: World, history: seq<Turn>, now: World,
                   i: nat)
    requires IsRun(job, draw, planned, start, history, now) && i < |history|
    ensures start.Valid() && history[i].before.Valid() && history[i].after.Valid()
    ensures Evolved(start, history[i].before) && Evolved(history[i].before, history[i].after)
    ensures Evolved(history[i].after, now)
  {
    hide World.Valid, Evolved, TurnTaken, OwnKept, Quiet, Clean, Faultless, Undenied, Stopped;
    Evolution();
    TurnOf(job, draw, planned, start, history, now, i);
    TakenEvolves(draw, history[i]);
    RunEvolves(job, draw, planned, start, history, now, 0, i);
    RunEvolves(job, draw, planned, start, history, now, i + 1, |history|);
  }

  lemma BetweenTurns(job: Job, draw: nat -> Option<Name>, planned: seq<Entry>, start: World, history: seq<Turn>,
                     now: World, i: nat, j: nat)
    requires IsRun(job, draw, planned, start, history, now) && i < j < |history|
    ensures history[i].after.Valid() && Evolved(history[i].after, history[j].before)
  {
    hide World.Valid, Evolved, TurnTaken, OwnKept, Quiet, Clean, Faultless, Undenied, Stopped, IsRun;
    Evolution();
    TurnOf(job, draw, planned, start, history, now, j);
    RunEvolves(job, draw, planned, start, history, now, i + 1, j);
  }

  lemma WholeRun(job: Job, draw: nat -> Option<Name>, planned: seq<Entry>, start: World, history: seq<Turn>, now: World)
    requires IsRun(job, draw, planned, start, history, now)
    ensures start.Valid() && now.Valid() && Evolved(start, now)
  {
    hide World.Valid, Evolved, TurnTaken, OwnKept, Quiet, Clean, Faultless, Undenied, Stopped;
    Evolution();
    RunEvolves(job, draw, planned, start, history, now, 0, |history|);
  }

  // ---- the report ----

  /** Once an entry is left unattempted, every later one is. */
  lemma {:induction false} UnattemptedStays(job: Job, draw: nat -> Option<Name>, planned: seq<Entry>, start: World,
                                            history: seq<Turn>, now: World, i: nat, j: nat)
    requires IsRun(job, draw, planned, start, history, now) && i < j < |history|
    requires history[i].Result(job).verdict == Verdict.Unattempted
    ensures history[j].Result(job).verdict == Verdict.Unattempted && history[j].attempt.None?
    decreases j
  {
    hide TurnTaken, Paused, World.Valid, IsRun;
    TurnOf(job, draw, planned, start, history, now, j);
    if i < j - 1 {
      UnattemptedStays(job, draw, planned, start, history, now, i, j - 1);
    }
    assert history[j - 1].Halts(job);
  }

  /** When an entry is attempted: unless a cancellation stands, the turn before made no attempt or left its entry
      unattempted, or its exchange was refused at a path too long for a path-based call. */
  lemma AttemptedExactly(job: Job, draw: nat -> Option<Name>, planned: seq<Entry>, start: World, history: seq<Turn>,
                         now: World, i: nat)
    requires IsRun(job, draw, planned, start, history, now) && i < |history| && job.pathMax <= USIZE_MAX
    ensures history[i].attempt.None? <==>
            || history[i].before.soft || history[i].before.hard
            || (i > 0 && history[i - 1].attempt.None?)
            || (i > 0 && history[i - 1].attempt.value.outcome == Outcome.Unattempted)
            || (i > 0 && ExchangeRefused(history[i - 1].attempt.value.outcome)
                && job.rootBytes + 1 + PathBytes(history[i - 1].entry.path) >= job.pathMax)
  {
    hide World.Valid, Evolved, EntryLogged, LinksKnown, EntrySettled, Reasoned, Unhindered, Ready, Paused, IsRun;
    TurnOf(job, draw, planned, start, history, now, i);
    if i > 0 { TurnOf(job, draw, planned, start, history, now, i - 1); }
  }

  lemma TurnIsOfItsEntry(job: Job, turn: Turn)
    ensures SameButLinks(turn.entry, Kept(turn.Result(job)).entry)
    ensures Kept(turn.Result(job)).entry.path == turn.entry.path
    ensures Kept(turn.Result(job)).verdict == Verdict.Unattempted <==> turn.Result(job).verdict == Verdict.Unattempted
    ensures Kept(turn.Result(job)).verdict == Verdict.Deleted <==> turn.Result(job).verdict == Verdict.Deleted
    ensures Kept(turn.Result(job)).verdict == Verdict.Missing <==> turn.Result(job).verdict == Verdict.Missing
    ensures FreedBytes(Kept(turn.Result(job))) == FreedBytes(turn.Result(job))
  {
  }

  lemma FailureAt(message: Text, planned: seq<Entry>, i: nat)
    requires i < |planned|
    ensures Failures(message, planned)[i].verdict.Failed?
    ensures Failures(message, planned)[i].entry == planned[|planned| - 1 - i]
  {
  }

  /** A complete report has one result for each entry, in the reverse of the plan's order, and its five
      counts add up to the plan. */
  lemma CompleteReport(job: Job, draw: nat -> Option<Name>, planned: seq<Entry>, a: World, b: World,
                       report: DeletionReport, account: Account)
    requires Runs(job, draw, planned, a, b, report, account) && |planned| <= U64_MAX
    requires account.ending.Complete?
    ensures report.entries.complete && |report.entries.results| == |planned|
    ensures forall i | 0 <= i < |planned| ::
      SameButLinks(planned[|planned| - 1 - i], report.entries.results[i].entry)
    ensures report.entries.summary.Total() == |planned|
    ensures report.entries.summary.otherLinks == OtherLinks(account.history)
  {
    hide Paused, TurnTaken, Kept, Stopped;
    CountsAddUp(account.sent);
    forall i | 0 <= i < |planned|
      ensures SameButLinks(planned[|planned| - 1 - i], report.entries.results[i].entry)
    {
      if account.started {
        TurnOf(job, draw, planned, a, account.history, b, i);
        TurnIsOfItsEntry(job, account.history[i]);
      } else {
        var message :| account.sent <= Failures(message, planned);
        FailureAt(message, planned, i);
        assert report.entries.results[i] == Failures(message, planned)[i];
      }
    }
  }

  lemma TellsCounts(report: DeletionReport, account: Account, entries: nat, target: seq<Name>, last: World)
    requires Tells(report, account, entries, target, last)
    ensures report.entries.summary.Total() == Noted(account.Noted()).Total()
    ensures |report.entries.results| <= |account.Noted()| <= |report.entries.results| + 1 && |account.Noted()| <= entries + 1
    ensures account.ending.Complete? ==> |account.Noted()| == |report.entries.results|
  {
    hide RemovesTarget, Noted, OtherLinks;
  }

  /** However a run ends, its counts are of the results the report holds and of at most one more. */
  lemma CountsOfAnyReport(job: Job, draw: nat -> Option<Name>, planned: seq<Entry>, a: World, b: World,
                          report: DeletionReport, account: Account)
    requires Runs(job, draw, planned, a, b, report, account) && |planned| < U64_MAX
    ensures |report.entries.results| <= report.entries.summary.Total() <= |report.entries.results| + 1
    ensures account.ending.Complete? ==> report.entries.summary.Total() == |report.entries.results|
  {
    hide IsRun, RemovesTarget, Results, Failures, OtherLinks, Noted;
    TellsCounts(report, account, |planned|, job.target, b);
    CountsAddUp(account.Noted());
  }

  /** A report that the target was removed leaves nothing unattempted. */
  lemma TargetRemovedMeansAllAttempted(job: Job, draw: nat -> Option<Name>, planned: seq<Entry>, a: World, b: World,
                                       report: DeletionReport, account: Account)
    requires Runs(job, draw, planned, a, b, report, account)
    requires Distinct(planned) && planned != [] && planned[0].path == job.target
    requires report.TargetWasRemoved()
    ensures account.started && |account.history| == |planned|
    ensures forall r <- report.entries.results :: r.verdict != Verdict.Unattempted
    ensures account.history[|planned| - 1].entry == planned[0]
    ensures account.history[|planned| - 1].Result(job).verdict in {Verdict.Deleted, Verdict.Missing}
  {
    hide Paused, TurnTaken, Stopped, World.Valid, IsRun, Results, Failures, Kept, Turn.Result, Noted, OtherLinks;
    var history, last := account.history, |planned| - 1;
    var i := TargetTurn(job, draw, planned, a, b, report, account);
    forall k | 0 <= k < |history|
      ensures history[k].Result(job).verdict != Verdict.Unattempted
    {
      if history[k].Result(job).verdict == Verdict.Unattempted && k < last {
        UnattemptedStays(job, draw, planned, a, history, b, k, last);
      }
    }
    forall x <- report.entries.results
      ensures x.verdict != Verdict.Unattempted
    {
      var k :| 0 <= k < |report.entries.results| && report.entries.results[k] == x;
      ResultAt(job, history, k);
      TurnIsOfItsEntry(job, history[k]);
    }
  }

  /** A run that came to its end says that the target is gone exactly if the attempt at it found so. */
  lemma TargetRemovedExactly(job: Job, draw: nat -> Option<Name>, planned: seq<Entry>, a: World, b: World,
                             report: DeletionReport, account: Account)
    requires Runs(job, draw, planned, a, b, report, account) && account.started && account.ending.Complete?
    requires Distinct(planned) && planned != [] && planned[0].path == job.target
    ensures |account.history| == |planned|
    ensures report.TargetWasRemoved() <==>
            && !b.soft && !b.hard
            && var last := account.history[|planned| - 1].attempt;
               last.Some? && last.value.outcome in {Outcome.Deleted, Outcome.Missing}
  {
    hide TurnTaken, World.Valid, IsRun, Results, Failures, Kept, Turn.Result, Noted, OtherLinks, Stopped, Paused;
    var history, i := account.history, |planned| - 1;
    TurnOf(job, draw, planned, a, history, b, i);
    TurnIsOfItsEntry(job, history[i]);
    VerdictIsOfOutcome(job, history[i]);
    ResultAt(job, history, i);
    assert report.entries.targetRemoved <==> RemovesTarget(account.sent[i], job.target) by {
      assert account.sent[i] in account.Noted();
      if r :| r in account.Noted() && RemovesTarget(r, job.target) {
        var k: nat :| k < |account.sent| && account.sent[k] == r;
        ResultAt(job, history, k);
        TurnOf(job, draw, planned, a, history, b, k);
        TurnIsOfItsEntry(job, history[k]);
      }
    }
  }

  /** With no interference, a report that the target was removed is right: nothing is at its path. */
  lemma RemovedTargetIsGone(job: Job, draw: nat -> Option<Name>, planned: seq<Entry>, start: World, now: World,
                            report: DeletionReport, account: Account)
    requires Runs(job, draw, planned, start, now, report, account)
    requires Distinct(planned) && planned != [] && planned[0].path == job.target
    requires Quiet(start.script) && AllKnown(planned, start.fs)
    requires report.TargetWasRemoved()
    ensures Observed(now.fs, job.target) == None
  {
    hide TurnTaken, World.Valid, IsRun, Results, Failures, Kept, Turn.Result, Noted, OtherLinks, Stopped, Evolved;
    hide Quiet, Clean, Faultless, Undenied, Tells, FactsKept, Observed, SlotAt, OwnKept;
    var i := TargetTurn(job, draw, planned, start, now, report, account);
    var turn := account.history[i];
    TurnOf(job, draw, planned, start, account.history, now, i);
    AroundTurn(job, draw, planned, start, account.history, now, i);
    LastPause(job, draw, planned, start, account.history, now);
    Evolution();
    FoldersStay(start, turn.before, turn.entry.snapshot.id);
    VerdictIsOfOutcome(job, turn);
    GoneAfterTurn(draw, turn);
  }

  /** An entry that is reported deleted or missing is not there after its turn. */
  lemma GoneAfterTurn(draw: nat -> Option<Name>, turn: Turn)
    requires TurnTaken(draw, turn) && turn.attempt.Some? && Quiet(turn.before.script)
    requires turn.entry.snapshot.id in turn.before.fs.facts
    requires turn.attempt.value.outcome in {Outcome.Deleted, Outcome.Missing}
    ensures Observed(turn.after.fs, turn.entry.path) == None
  {
    hide World.Valid, FactsKept, LinksKnown, Unhindered, Ready, Resolve, Evolved, Bound, EntryLogged, AsReviewed;
    var names := turn.before.fs.names;
    SlotBefore(names, {SlotAt(names, turn.entry.path).value}, turn.entry.path);
  }

  /** The verdict says how the attempt ended, and that there was none. */
  lemma VerdictIsOfOutcome(job: Job, turn: Turn)
    ensures var verdict := turn.Result(job).verdict;
            match turn.attempt
            case None => verdict == Verdict.Unattempted
            case Some(a) =>
              && (verdict == Verdict.Deleted <==> a.outcome == Outcome.Deleted)
              && (verdict.Changed? <==> a.outcome == Outcome.Changed)
              && (verdict == Verdict.Missing <==> a.outcome == Outcome.Missing)
              && (verdict.Failed? <==> a.outcome.Failed?)
              && (verdict == Verdict.Unattempted <==> a.outcome == Outcome.Unattempted)
  {
  }

  lemma ResultAt(job: Job, history: seq<Turn>, k: nat)
    requires k < |history|
    ensures Results(job, history)[k] == Kept(history[k].Result(job))
  {
  }

  /** The turn of the target, when the report says it was removed. */
  lemma TargetTurn(job: Job, draw: nat -> Option<Name>, planned: seq<Entry>, a: World, b: World, report: DeletionReport,
                   account: Account) returns (i: nat)
    requires Runs(job, draw, planned, a, b, report, account)
    requires Distinct(planned) && planned != [] && planned[0].path == job.target
    requires report.TargetWasRemoved()
    ensures account.started && |account.history| == |planned| && i == |planned| - 1
    ensures account.history[i].entry == planned[0]
    ensures account.history[i].Result(job).verdict in {Verdict.Deleted, Verdict.Missing}
    ensures report.entries.results == Results(job, account.history)
  {
    hide Paused, TurnTaken, Stopped, World.Valid, Results, Failures, Kept, Turn.Result, Noted, OtherLinks;
    var history := account.history;
    var r :| r in account.Noted() && RemovesTarget(r, job.target);
    i :| 0 <= i < |account.sent| && account.sent[i] == r;
    if !account.started {
      var message :| account.sent <= Failures(message, planned);
      FailureAt(message, planned, i);
      assert false;
    }
    ResultAt(job, history, i);
    TurnOf(job, draw, planned, a, history, b, i);
    TurnIsOfItsEntry(job, history[i]);
  }

  // ---- what a run may remove ----

  /** Everything unlinked matched a reviewed entry when it went, or was a placeholder of the executor. */
  ghost predicate OnlyReviewed(planned: seq<Entry>, w: World) {
    forall r <- w.unlinked :: r.id in w.made || exists e <- planned :: AsReviewed(e.snapshot, r)
  }

  /** Nothing was made, unlinked, freed or refused yet. */
  ghost predicate Fresh(w: World) {
    w.Valid() && w.made == {} && w.unlinked == [] && w.ownFreed == {} && w.balked == {}
  }

  lemma TurnOnlyReviewed(draw: nat -> Option<Name>, planned: seq<Entry>, turn: Turn)
    requires TurnTaken(draw, turn) && turn.entry in planned && OnlyReviewed(planned, turn.before)
    ensures OnlyReviewed(planned, turn.after)
  {
    hide World.Valid, FactsKept, KindsKept, AsReviewed, EntrySettled, LinksKnown, Unhindered, Ready;
    var a, b := turn.before, turn.after;
    forall r <- b.unlinked
      ensures r.id in b.made || exists e <- planned :: AsReviewed(e.snapshot, r)
    {
      var i :| 0 <= i < |b.unlinked| && b.unlinked[i] == r;
      if i < |a.unlinked| {
        assert turn.attempt.Some? ==> a.unlinked <= b.unlinked;
        assert a.unlinked[i] == r && r in a.unlinked;
      } else {
        assert r.id in b.made - a.made || AsReviewed(turn.entry.snapshot, r);
      }
    }
  }

  lemma PausedOnlyReviewed(planned: seq<Entry>, a: World, b: World)
    requires Paused(a, b) && OnlyReviewed(planned, a)
    ensures OnlyReviewed(planned, b)
  {
  }

  /** Whatever other processes do between the executor's steps, and however the run ends: each object the
      executor unlinks is one that matched a reviewed entry, or a placeholder of its own. */
  lemma {:induction false} OnlyReviewedObjectsGo(job: Job, draw: nat -> Option<Name>, planned: seq<Entry>, start: World,
                                                 history: seq<Turn>, now: World)
    requires IsRun(job, draw, planned, start, history, now) && Fresh(start)
    ensures OnlyReviewed(planned, now)
    ensures forall r <- now.unlinked :: r.id in now.made || exists e <- planned ::
      && r.id == e.snapshot.id && r.reparse == e.snapshot.reparse && r.kind == e.snapshot.kind
      && (r.kind != Directory ==>
            r.apparent == e.snapshot.apparent && r.blocks == e.snapshot.blocks && r.modified == e.snapshot.modified)
  {
    assert OnlyReviewed(planned, now) by { ReviewedInTurns(job, draw, planned, start, history, now); }
  }

  lemma {:induction false} ReviewedInTurns(job: Job, draw: nat -> Option<Name>, planned: seq<Entry>, start: World,
                                           history: seq<Turn>, now: World)
    requires IsRun(job, draw, planned, start, history, now) && Fresh(start)
    ensures OnlyReviewed(planned, now)
  {
    hide World.Valid, TurnTaken, OnlyReviewed, Stopped, Paused;
    NothingUnlinked(planned, start);
    for i := 0 to |history|
      invariant OnlyReviewed(planned, WorldAt(start, history, i))
    {
      TurnOf(job, draw, planned, start, history, now, i);
      PausedOnlyReviewed(planned, WorldAt(start, history, i), history[i].before);
      TurnOnlyReviewed(draw, planned, history[i]);
    }
    PausedOnlyReviewed(planned, WorldAt(start, history, |history|), now);
  }

  /** What is seen is not what was reviewed, in one of the properties that are compared. */
  predicate Differs(expected: Snapshot, actual: Snapshot) {
    || actual.id != expected.id || actual.reparse != expected.reparse || actual.kind != expected.kind
    || (expected.kind != Directory
        && (actual.apparent != expected.apparent || actual.blocks != expected.blocks
            || actual.modified != expected.modified))
  }

  /** With no interference, what differs from the review in any one property is not removed: nothing but the
      executor's own placeholder is unlinked, and unless a call was refused the name keeps its object. */
  lemma ChangedEntryStays(draw: nat -> Option<Name>, turn: Turn, s: Slot)
    requires TurnTaken(draw, turn) && turn.attempt.Some? && Quiet(turn.before.script)
    requires turn.entry.snapshot.id in turn.before.fs.facts
    requires SlotAt(turn.before.fs.names, turn.entry.path) == Some(s)
    requires s in turn.before.fs.names && turn.before.fs.names[s] in turn.before.fs.facts
    requires Differs(turn.entry.snapshot, turn.before.fs.Stat(s))
    ensures turn.attempt.value.outcome in {Outcome.Changed, Outcome.Unattempted} || turn.attempt.value.outcome.Failed?
    ensures turn.attempt.value.outcome != Outcome.Failed(DeletedCleanup)
    ensures forall i | |turn.before.unlinked| <= i < |turn.after.unlinked| ::
      turn.after.unlinked[i].id in turn.after.made - turn.before.made
    ensures Tidy(turn.attempt.value.outcome) || Faultless(turn.before.script) ==>
      s in turn.after.fs.names && turn.after.fs.names[s] == turn.before.fs.names[s]
  {
    hide World.Valid, FactsKept, LinksKnown, Unhindered, Ready, Resolve, Evolved, Bound;
  }

  lemma NothingUnlinked(planned: seq<Entry>, w: World)
    requires Fresh(w)
    ensures OnlyReviewed(planned, w)
  {
  }

  /** An object that no reviewed entry is of, and that no other process freed, still has a name, whoever made
      it and whenever: exchanges and renames lose nothing. */
  lemma NothingElseIsLost(job: Job, draw: nat -> Option<Name>, planned: seq<Entry>, start: World, history: seq<Turn>,
                          now: World, o: ObjId)
    requires IsRun(job, draw, planned, start, history, now) && Fresh(start)
    requires o in now.fs.facts && o != ROOT && o !in now.made
    requires o !in now.envFreed && forall e <- planned :: e.snapshot.id != o
    ensures now.fs.Named(o)
  {
    hide IsRun, FactsKept, Bound;
    WholeRun(job, draw, planned, start, history, now);
    OnlyReviewedObjectsGo(job, draw, planned, start, history, now);
    FreedWasReviewed(planned, now, o);
  }

  lemma FreedWasReviewed(planned: seq<Entry>, w: World, o: ObjId)
    requires w.Valid() && OnlyReviewed(planned, w)
    ensures o in w.ownFreed ==> o in w.made || exists e <- planned :: e.snapshot.id == o
  {
    if o in w.ownFreed {
      var r :| r in w.unlinked && r.id == o;
    }
  }

  /** Every placeholder made so far was unlinked. */
  ghost predicate Cleared(w: World) {
    forall p <- w.made :: exists r <- w.unlinked :: r.id == p
  }

  predicate AllTidy(history: seq<Turn>) {
    forall turn <- history :: turn.attempt.Some? ==> Tidy(turn.attempt.value.outcome)
  }

  lemma TurnCleared(draw: nat -> Option<Name>, turn: Turn)
    requires TurnTaken(draw, turn) && Cleared(turn.before)
    requires turn.attempt.Some? ==> Tidy(turn.attempt.value.outcome)
    ensures Cleared(turn.after)
  {
    hide World.Valid, FactsKept, KindsKept, AsReviewed, EntrySettled, LinksKnown, Unhindered, Ready;
    var a, b := turn.before, turn.after;
    forall p <- b.made
      ensures exists r <- b.unlinked :: r.id == p
    {
      if p in a.made {
        var r :| r in a.unlinked && r.id == p;
        assert r in b.unlinked;
      } else {
        assert p in b.made - a.made;
        var i :| |a.unlinked| <= i < |b.unlinked| && b.unlinked[i].id == p;
        assert b.unlinked[i] in b.unlinked;
      }
    }
  }

  lemma NothingMade(w: World)
    requires Fresh(w)
    ensures Cleared(w)
  {
  }

  lemma PausedCleared(a: World, b: World)
    requires Paused(a, b) && Cleared(a)
    ensures Cleared(b)
  {
  }

  /** Unless a clean-up is reported failed, the executor unlinked every placeholder it made. */
  lemma {:induction false} PlaceholdersGo(job: Job, draw: nat -> Option<Name>, planned: seq<Entry>, start: World,
                                          history: seq<Turn>, now: World)
    requires IsRun(job, draw, planned, start, history, now) && Fresh(start) && AllTidy(history)
    ensures Cleared(now)
  {
    hide World.Valid, TurnTaken, Cleared, Stopped, Paused;
    NothingMade(start);
    for i := 0 to |history|
      invariant Cleared(WorldAt(start, history, i))
    {
      TurnOf(job, draw, planned, start, history, now, i);
      PausedCleared(WorldAt(start, history, i), history[i].before);
      assert history[i] in history;
      TurnCleared(draw, history[i]);
    }
    PausedCleared(WorldAt(start, history, |history|), now);
  }

  /** Where the placeholders of a quiet run are: those for which no step was refused were unlinked and have
      no name, the others were not and have one. */
  ghost predicate Placed(start: World, w: World) {
    && w.balked <= w.made && w.made * start.fs.facts.Keys == {} && w.envFreed == start.envFreed
    && (forall r <- w.unlinked :: r.id in w.fs.facts)
    && (forall p <- w.made :: (exists r <- w.unlinked :: r.id == p) <==> p !in w.balked)
    && (forall p <- w.made :: w.fs.Named(p) <==> p in w.balked)
  }

  lemma PlacedAtFirst(start: World)
    requires Fresh(start)
    ensures Placed(start, start)
  {
  }

  lemma PausedPlaced(start: World, a: World, b: World)
    requires a.Valid() && Paused(a, b) && Quiet(a.script) && Placed(start, a)
    ensures Placed(start, b)
  {
    hide Fs.Valid, Bound, FactsKept;
  }

  lemma NotInBoth(a: set<ObjId>, b: set<ObjId>, o: ObjId)
    requires a * b == {}
    ensures !(o in a && o in b)
  {
    assert o in a * b <==> o in a && o in b;
  }

  lemma MatchIsSame(expected: Snapshot, actual: Snapshot)
    requires AsReviewed(expected, actual)
    ensures actual.id == expected.id
  {
  }

  /** What a turn unlinked is its entry's object or a placeholder it made, and no older one. */
  lemma UnlinkedInTurn(draw: nat -> Option<Name>, turn: Turn, r: Snapshot)
    requires TurnTaken(draw, turn) && r in turn.after.unlinked
    ensures r in turn.before.unlinked || r.id in turn.after.made - turn.before.made || r.id == turn.entry.snapshot.id
    ensures turn.attempt.Some? && !Tidy(turn.attempt.value.outcome) ==>
      r in turn.before.unlinked || r.id == turn.entry.snapshot.id
  {
    hide World.Valid, FactsKept, KindsKept, AsReviewed, LinksKnown, Unhindered, Ready, EntrySettled, Evolved;
    var a, b := turn.before, turn.after;
    var i :| 0 <= i < |b.unlinked| && b.unlinked[i] == r;
    if i < |a.unlinked| {
      assert turn.attempt.Some? ==> a.unlinked <= b.unlinked;
      assert a.unlinked[i] == r;
    } else if TargetRemoved(turn.attempt.value.outcome) && i == |a.unlinked| {
      MatchIsSame(turn.entry.snapshot, r);
    }
  }

  lemma TurnRefusals(start: World, draw: nat -> Option<Name>, turn: Turn, p: ObjId)
    requires TurnTaken(draw, turn) && turn.attempt.Some? && Placed(start, turn.before)
    requires Quiet(turn.before.script) && Evolved(start, turn.before) && Evolved(turn.before, turn.after)
    requires turn.entry.snapshot.id in start.fs.facts && p in turn.after.made
    ensures (exists r <- turn.after.unlinked :: r.id == p) <==> p !in turn.after.balked
    ensures p in turn.before.made ==> (p in turn.after.balked <==> p in turn.before.balked)
    ensures p !in turn.before.made && p !in turn.after.balked ==> Tidy(turn.attempt.value.outcome)
  {
    hide World.Valid, FactsKept, KindsKept, AsReviewed, LinksKnown, Unhindered, Ready, SlotAt, Bound;
    var a, b, o := turn.before, turn.after, turn.attempt.value.outcome;
    FoldersStay(start, a, turn.entry.snapshot.id);
    MadeSinceIsNew(start, a, b);
    NotInBoth(b.made, start.fs.facts.Keys, p);
    if p !in a.made {
      assert p in b.made - a.made;
    }
    if p in b.balked {
      forall r <- b.unlinked
        ensures r.id != p
      {
        UnlinkedInTurn(draw, turn, r);
      }
    } else if p in a.made {
      var r :| r in a.unlinked && r.id == p;
      assert r in b.unlinked;
    } else {
      var i :| |a.unlinked| <= i < |b.unlinked| && b.unlinked[i].id == p;
      assert b.unlinked[i] in b.unlinked;
    }
  }

  /** The names that a tidy turn leaves are names there were. */
  lemma TidyTurnNames(draw: nat -> Option<Name>, turn: Turn, p: ObjId)
    requires TurnTaken(draw, turn) && turn.attempt.Some? && Tidy(turn.attempt.value.outcome)
    requires Quiet(turn.before.script) && turn.entry.snapshot.id in turn.before.fs.facts
    ensures turn.after.fs.Named(p) ==> turn.before.fs.Named(p)
  {
    hide World.Valid, FactsKept, KindsKept, AsReviewed, EntryLogged, LinksKnown, Unhindered, Ready, SlotAt, Evolved;
  }

  /** A placeholder that was not unlinked has a name. */
  lemma NotUnlinked(start: World, w: World, p: ObjId)
    requires start.Valid() && w.Valid() && p in w.made && w.made * start.fs.facts.Keys == {}
    requires w.envFreed == start.envFreed && forall r <- w.unlinked :: r.id != p
    ensures w.fs.Named(p)
  {
    hide Fs.Valid, Bound;
    NotInBoth(w.made, start.fs.facts.Keys, p);
  }

  lemma UnknownIsUnnamed(w: World, p: ObjId)
    requires w.Valid() && p !in w.fs.facts
    ensures !w.fs.Named(p)
  {
  }

  lemma MadeSinceIsNew(start: World, a: World, b: World)
    requires Evolved(start, a) && Evolved(a, b) && a.made * start.fs.facts.Keys == {}
    ensures b.made * start.fs.facts.Keys == {} && a.made <= b.made && forall p <- b.made :: p in a.made || p !in a.fs.facts
    ensures Quiet(a.script) ==> b.envFreed == a.envFreed
    ensures a.fs.facts.Keys <= b.fs.facts.Keys && b.made <= b.fs.facts.Keys && start.fs.facts.Keys <= b.fs.facts.Keys
  {
    hide FactsKept, Fs.Valid;
  }

  lemma TurnPlaced(start: World, draw: nat -> Option<Name>, turn: Turn)
    requires start.Valid() && TurnTaken(draw, turn) && Placed(start, turn.before)
    requires Quiet(turn.before.script) && Evolved(start, turn.before) && Evolved(turn.before, turn.after)
    requires turn.entry.snapshot.id in start.fs.facts
    ensures Placed(start, turn.after)
  {
    if turn.attempt.Some? {
      TakenEvolves(draw, turn);
      MadeSinceIsNew(start, turn.before, turn.after);
      var a, b := turn.before, turn.after;
      forall r <- b.unlinked
        ensures r.id in b.fs.facts
      {
        UnlinkedInTurn(draw, turn, r);
      }
      assert b.balked <= b.made by {
        hide World.Valid, FactsKept, KindsKept, AsReviewed, LinksKnown, Unhindered, Ready, SlotAt, Bound, Evolved;
      }
      hide World.Valid, FactsKept, KindsKept, TurnTaken, Bound, Evolved, Quiet, Fs.Named, Tidy;
      forall p <- b.made
        ensures (exists r <- b.unlinked :: r.id == p) <==> p !in b.balked
        ensures b.fs.Named(p) <==> p in b.balked
      {
        TurnRefusals(start, draw, turn, p);
        if p in b.balked {
          NotUnlinked(start, b, p);
        } else if p in a.made {
          GoneStaysGone(a, b, p);
        } else {
          TidyTurnNames(draw, turn, p);
          UnknownIsUnnamed(a, p);
        }
      }
    }
  }

  /** With no interference a placeholder is left at the end exactly if the system refused to inspect it when
      it was made, or a step of clearing it away: none is left exactly if there was no such refusal. */
  lemma {:induction false} PlaceholdersLeftExactly(job: Job, draw: nat -> Option<Name>, planned: seq<Entry>, start: World,
                                                   history: seq<Turn>, now: World)
    requires IsRun(job, draw, planned, start, history, now) && Fresh(start)
    requires Quiet(start.script) && AllKnown(planned, start.fs)
    ensures now.balked <= now.made && forall p <- now.made :: now.fs.Named(p) <==> p in now.balked
    ensures (forall p <- now.made :: !now.fs.Named(p)) <==> now.balked == {}
  {
    hide World.Valid, TurnTaken, Placed, Stopped, Paused, Evolved, Quiet, Clean, Faultless, Undenied, Fs.Named, IsRun;
    PlacedAtFirst(start);
    for i := 0 to |history|
      invariant Placed(start, WorldAt(start, history, i))
    {
      TurnOf(job, draw, planned, start, history, now, i);
      AroundTurn(job, draw, planned, start, history, now, i);
      RunEvolves(job, draw, planned, start, history, now, 0, i);
      Evolution();
      PausedPlaced(start, WorldAt(start, history, i), history[i].before);
      TurnPlaced(start, draw, history[i]);
    }
    RunEvolves(job, draw, planned, start, history, now, 0, |history|);
    LastPause(job, draw, planned, start, history, now);
    Evolution();
    PausedPlaced(start, WorldAt(start, history, |history|), now);
    PlacedMeans(start, now);
  }

  lemma PlacedMeans(start: World, w: World)
    requires Placed(start, w)
    ensures w.balked <= w.made && forall p <- w.made :: w.fs.Named(p) <==> p in w.balked
  {
  }

  // ---- what it reports as freed ----

  /** The turn's allocated bytes count as freed. */
  predicate Frees(turn: Turn) {
    && turn.attempt.Some? && turn.attempt.value.outcome == Outcome.Deleted
    && turn.entry.snapshot.kind != Directory
    && KeptLinks(turn.entry.snapshot.kind, turn.attempt.value) == Some(1)
  }

  lemma FreedByFreeing(job: Job, turn: Turn)
    ensures FreedBytes(turn.Result(job)) ==
            if Frees(turn) && turn.entry.snapshot.blocks.Some? then turn.entry.snapshot.blocks.value else 0
  {
  }

  /** The result of a deleted file or link that keeps a link count keeps at most one, and then none of its names
      was left when its turn was over; any other result keeps the count that was seen last. */
  lemma KeptLinksAreRight(job: Job, draw: nat -> Option<Name>, turn: Turn)
    requires TurnTaken(draw, turn) && turn.attempt.Some?
    ensures var result := turn.Result(job);
            if result.verdict == Verdict.Deleted && result.entry.snapshot.kind != Directory
            then result.entry.snapshot.links.Some? ==>
              result.entry.snapshot.links.value <= 1 && !turn.after.fs.Named(result.entry.snapshot.id)
            else result.entry.snapshot.links == turn.attempt.value.links
  {
    hide World.Valid, Evolved, EntryLogged, EntrySettled, Reasoned, Unhindered, Ready;
  }

  lemma FreeingTurn(draw: nat -> Option<Name>, turn: Turn)
    requires TurnTaken(draw, turn) && Frees(turn)
    ensures !turn.after.fs.Named(turn.entry.snapshot.id)
    ensures turn.entry.snapshot.id in turn.before.fs.facts ==> turn.before.fs.Named(turn.entry.snapshot.id)
  {
  }

  /** The bytes reported as freed are an object's that has no name left when the run ends. */
  lemma FreedIsGone(job: Job, draw: nat -> Option<Name>, planned: seq<Entry>, start: World, history: seq<Turn>, now: World,
                    i: nat)
    requires IsRun(job, draw, planned, start, history, now) && i < |history| && Frees(history[i])
    requires history[i].entry.snapshot.id in start.fs.facts
    ensures !now.fs.Named(history[i].entry.snapshot.id) && now.fs.Links(history[i].entry.snapshot.id) == 0
  {
    hide IsRun, FactsKept, Bound, World.Valid, Frees, TurnTaken, Fs.Valid, Evolved, Paused, Stopped;
    var o := history[i].entry.snapshot.id;
    AroundTurn(job, draw, planned, start, history, now, i);
    TurnOf(job, draw, planned, start, history, now, i);
    FreeingTurn(draw, history[i]);
    FoldersStay(start, history[i].before, o);
    FoldersStay(history[i].before, history[i].after, o);
    RootUnnamed(history[i].before);
    GoneStaysGone(history[i].after, now, o);
    NoLinks(now.fs.names, o);
  }

  /** No object's bytes are reported as freed twice. */
  lemma FreedOnce(job: Job, draw: nat -> Option<Name>, planned: seq<Entry>, start: World, history: seq<Turn>, now: World,
                  i: nat, j: nat)
    requires IsRun(job, draw, planned, start, history, now) && i < j < |history|
    requires Frees(history[i]) && Frees(history[j]) && history[i].entry.snapshot.id in start.fs.facts
    ensures history[i].entry.snapshot.id != history[j].entry.snapshot.id
  {
    hide IsRun, FactsKept, Bound, World.Valid, Frees, TurnTaken, Fs.Valid, Evolved, Paused, Stopped;
    var o := history[i].entry.snapshot.id;
    AroundTurn(job, draw, planned, start, history, now, i);
    BetweenTurns(job, draw, planned, start, history, now, i, j);
    TurnOf(job, draw, planned, start, history, now, i);
    TurnOf(job, draw, planned, start, history, now, j);
    FreeingTurn(draw, history[i]);
    FreeingTurn(draw, history[j]);
    FoldersStay(start, history[i].before, o);
    FoldersStay(history[i].before, history[i].after, o);
    FoldersStay(history[i].after, history[j].before, o);
    RootUnnamed(history[i].before);
    if history[j].entry.snapshot.id == o {
      GoneStaysGone(history[i].after, history[j].before, o);
    }
  }

  /** A report that no other links may be left is right: each file or link it attempted was removed, and
      has no name left. */
  lemma NoOtherLinksIsRight(job: Job, draw: nat -> Option<Name>, planned: seq<Entry>, start: World, history: seq<Turn>,
                            now: World, i: nat)
    requires IsRun(job, draw, planned, start, history, now) && i < |history|
    requires !OtherLinks(history) && history[i].entry.snapshot.kind != Directory
    requires history[i].Result(job).verdict != Verdict.Unattempted
    ensures TargetRemoved(history[i].attempt.value.outcome)
    ensures history[i].entry.snapshot.id in start.fs.facts ==>
      && history[i].before.fs.Named(history[i].entry.snapshot.id)
      && !now.fs.Named(history[i].entry.snapshot.id)
  {
    hide IsRun, FactsKept, Bound, World.Valid, Fs.Valid, Evolved, Paused, Stopped, EntryLogged, EntrySettled;
    hide Unhindered, Ready;
    var o := history[i].entry.snapshot.id;
    assert history[i] in history;
    AroundTurn(job, draw, planned, start, history, now, i);
    TurnOf(job, draw, planned, start, history, now, i);
    if o in start.fs.facts {
      FoldersStay(start, history[i].before, o);
      FoldersStay(history[i].before, history[i].after, o);
      RootUnnamed(history[i].before);
      GoneStaysGone(history[i].after, now, o);
    }
  }

  function FreedSum(results: seq<Result>): nat {
    if results == [] then 0 else FreedSum(results[..|results| - 1]) + FreedBytes(results[|results| - 1])
  }

  /** The reported total is the sum of what each result frees, up to the largest number it can hold. */
  lemma {:induction false} FreedTotal(results: seq<Result>)
    ensures Noted(results).freed == if FreedSum(results) > U128_MAX then U128_MAX else FreedSum(results)
  {
    if results != [] {
      FreedTotal(results[..|results| - 1]);
    }
  }

  /** The bytes of one turn that count as freed. */
  function BytesFreed(turn: Turn): nat {
    if Frees(turn) && turn.entry.snapshot.blocks.Some? then turn.entry.snapshot.blocks.value else 0
  }

  function BytesFreedBy(history: seq<Turn>): nat {
    if history == [] then 0 else BytesFreedBy(history[..|history| - 1]) + BytesFreed(history[|history| - 1])
  }

  lemma {:induction false} FreedByTurns(job: Job, history: seq<Turn>)
    ensures FreedSum(Results(job, history)) == BytesFreedBy(history)
  {
    hide Kept, FreedBytes, Turn.Result, Frees, OtherLinks;
    if history != [] {
      var before, turn := history[..|history| - 1], history[|history| - 1];
      FreedByTurns(job, before);
      assert history == before + [turn];
      ResultsGrow(job, before, turn);
      assert (Results(job, before) + [Kept(turn.Result(job))])[..|before|] == Results(job, before);
      TurnIsOfItsEntry(job, turn);
      FreedByFreeing(job, turn);
    }
  }

  lemma {:induction false} FailuresFreeNothing(results: seq<Result>)
    requires forall r <- results :: r.verdict.Failed?
    ensures FreedSum(results) == 0
  {
    if results != [] {
      assert results[|results| - 1] in results && forall r <- results[..|results| - 1] :: r in results;
      FailuresFreeNothing(results[..|results| - 1]);
    }
  }

  lemma SentFrees(job: Job, draw: nat -> Option<Name>, planned: seq<Entry>, a: World, b: World, report: DeletionReport,
                  account: Account)
    requires Runs(job, draw, planned, a, b, report, account)
    ensures FreedSum(account.Noted()) == BytesFreedBy(account.history)
  {
    hide IsRun, Tells, Results, Failures, Frees, Turn.Result;
    if account.started {
      FreedByTurns(job, account.history);
    } else {
      var message :| account.sent <= Failures(message, planned);
      forall r <- account.sent
        ensures r.verdict.Failed?
      {
        var i :| 0 <= i < |account.sent| && account.sent[i] == r;
        FailureAt(message, planned, i);
        assert r == Failures(message, planned)[i];
      }
      FailuresFreeNothing(account.sent);
    }
    if account.ending.PlanUnreadable? {
      assert account.Noted()[..|account.sent|] == account.sent;
    }
  }

  /** However the run ended, the report's total of freed bytes is that of the turns that freed an object, up to
      the largest number it can hold; and those are turns of different objects, none of which has a name
      left. */
  lemma ReportedFreed(job: Job, draw: nat -> Option<Name>, planned: seq<Entry>, start: World, now: World,
                      report: DeletionReport, account: Account)
    requires Runs(job, draw, planned, start, now, report, account) && AllKnown(planned, start.fs)
    ensures var sum := BytesFreedBy(account.history);
            report.entries.summary.freed == if sum > U128_MAX then U128_MAX else sum
    ensures forall i, j | 0 <= i < j < |account.history| && Frees(account.history[i]) && Frees(account.history[j]) ::
      account.history[i].entry.snapshot.id != account.history[j].entry.snapshot.id
    ensures forall i | 0 <= i < |account.history| && Frees(account.history[i]) ::
      !now.fs.Named(account.history[i].entry.snapshot.id)
  {
    hide IsRun, Frees, Results, Failures, Fs.Named, RemovesTarget, OtherLinks;
    var history := account.history;
    SentFrees(job, draw, planned, start, now, report, account);
    FreedTotal(account.Noted());
    forall i | 0 <= i < |history|
      ensures history[i].entry.snapshot.id in start.fs.facts
    {
      TurnOf(job, draw, planned, start, history, now, i);
    }
    forall i, j | 0 <= i < j < |history| && Frees(history[i]) && Frees(history[j])
      ensures history[i].entry.snapshot.id != history[j].entry.snapshot.id
    {
      FreedOnce(job, draw, planned, start, history, now, i, j);
    }
    forall i | 0 <= i < |history| && Frees(history[i])
      ensures !now.fs.Named(history[i].entry.snapshot.id)
    {
      FreedIsGone(job, draw, planned, start, history, now, i);
    }
  }

  // ---- what it counts ----

  /** How the turn's entry ended. */
  function OutcomeOf(turn: Turn): Outcome {
    if turn.attempt.Some? then turn.attempt.value.outcome else Outcome.Unattempted
  }

  /** How many turns ended so. */
  ghost function EndedAs(history: seq<Turn>, so: Outcome -> bool): nat {
    |set i | 0 <= i < |history| && so(OutcomeOf(history[i]))|
  }

  /** The logical bytes of the entries that were deleted. */
  function ApparentBy(history: seq<Turn>): nat {
    if history == [] then 0 else
      var turn := history[|history| - 1];
      ApparentBy(history[..|history| - 1]) + if Deletes(turn) then turn.entry.snapshot.apparent else 0
  }

  lemma CountedTurns(job: Job, history: seq<Turn>, verdict: Verdict -> bool, outcome: Outcome -> bool)
    requires forall turn <- history :: verdict(Kept(turn.Result(job)).verdict) <==> outcome(OutcomeOf(turn))
    ensures Ended(Results(job, history), verdict) == EndedAs(history, outcome)
  {
    hide Kept, Turn.Result, OutcomeOf;
    var results := Results(job, history);
    forall i | 0 <= i < |history|
      ensures verdict(results[i].verdict) <==> outcome(OutcomeOf(history[i]))
    {
      ResultAt(job, history, i);
      assert history[i] in history;
    }
    assert (set i | 0 <= i < |results| && verdict(results[i].verdict))
        == (set i | 0 <= i < |history| && outcome(OutcomeOf(history[i])));
  }

  lemma KeptEnds(job: Job, turn: Turn)
    ensures var verdict, outcome := Kept(turn.Result(job)).verdict, OutcomeOf(turn);
            && (verdict.Deleted? <==> outcome.Deleted?) && (verdict.Changed? <==> outcome.Changed?)
            && (verdict.Missing? <==> outcome.Missing?) && (verdict.Failed? <==> outcome.Failed?)
            && (verdict.Unattempted? <==> outcome.Unattempted?)
  {
  }

  lemma {:induction false} ApparentByTurns(job: Job, history: seq<Turn>)
    ensures ApparentSum(Results(job, history)) == ApparentBy(history)
  {
    hide Kept, Turn.Result, OtherLinks;
    if history != [] {
      var before, turn := history[..|history| - 1], history[|history| - 1];
      ApparentByTurns(job, before);
      assert history == before + [turn];
      ResultsGrow(job, before, turn);
      assert (Results(job, before) + [Kept(turn.Result(job))])[..|before|] == Results(job, before);
      TurnIsOfItsEntry(job, turn);
      DeletesVerdict(job, turn);
    }
  }

  /** Each of a report's five counts is of the turns that ended so, and its logical bytes are those of the entries
      that were deleted; the marker of an unreadable plan counts as one more failure. */
  lemma ReportedCounts(job: Job, draw: nat -> Option<Name>, planned: seq<Entry>, start: World, now: World,
                       report: DeletionReport, account: Account)
    requires Runs(job, draw, planned, start, now, report, account) && account.started
    ensures var summary, history := report.entries.summary, account.history;
      && summary.deleted == Capped(EndedAs(history, (o: Outcome) => o.Deleted?), U64_MAX)
      && summary.changed == Capped(EndedAs(history, (o: Outcome) => o.Changed?), U64_MAX)
      && summary.missing == Capped(EndedAs(history, (o: Outcome) => o.Missing?), U64_MAX)
      && summary.failed == Capped(EndedAs(history, (o: Outcome) => o.Failed?)
                                  + (if account.ending.PlanUnreadable? then 1 else 0), U64_MAX)
      && summary.unattempted == Capped(EndedAs(history, (o: Outcome) => o.Unattempted?), U64_MAX)
      && summary.apparent == Capped(ApparentBy(history), U128_MAX)
  {
    hide IsRun, Results, Failures, RemovesTarget, OtherLinks, EndedAs, Ended, OutcomeOf, Kept, Turn.Result, Noted;
    var history, sent := account.history, account.sent;
    CountsAreOfTheirVerdicts(account.Noted());
    forall turn <- history
      ensures var verdict, outcome := Kept(turn.Result(job)).verdict, OutcomeOf(turn);
        && (verdict.Deleted? <==> outcome.Deleted?) && (verdict.Changed? <==> outcome.Changed?)
        && (verdict.Missing? <==> outcome.Missing?) && (verdict.Failed? <==> outcome.Failed?)
        && (verdict.Unattempted? <==> outcome.Unattempted?)
    {
      KeptEnds(job, turn);
    }
    CountedTurns(job, history, (v: Verdict) => v.Deleted?, (o: Outcome) => o.Deleted?);
    CountedTurns(job, history, (v: Verdict) => v.Changed?, (o: Outcome) => o.Changed?);
    CountedTurns(job, history, (v: Verdict) => v.Missing?, (o: Outcome) => o.Missing?);
    CountedTurns(job, history, (v: Verdict) => v.Failed?, (o: Outcome) => o.Failed?);
    CountedTurns(job, history, (v: Verdict) => v.Unattempted?, (o: Outcome) => o.Unattempted?);
    ApparentByTurns(job, history);
    if account.ending.PlanUnreadable? {
      var marker := account.ending.marker;
      MarkerIsFailed(job, account.ending);
      EndedAppended(sent, marker, (v: Verdict) => v.Deleted?);
      EndedAppended(sent, marker, (v: Verdict) => v.Changed?);
      EndedAppended(sent, marker, (v: Verdict) => v.Missing?);
      EndedAppended(sent, marker, (v: Verdict) => v.Failed?);
      EndedAppended(sent, marker, (v: Verdict) => v.Unattempted?);
      assert (sent + [marker])[..|sent|] == sent;
    }
  }

  lemma MarkerIsFailed(job: Job, ending: Ending)
    requires Marked(job, ending) && ending.PlanUnreadable?
    ensures ending.marker.verdict.Failed?
  {
  }

  /** A run that never began counts only failures: one for each result, and deletes nothing. */
  lemma NothingCountedBeforeTheStart(job: Job, draw: nat -> Option<Name>, planned: seq<Entry>, start: World,
                                     now: World, report: DeletionReport, account: Account)
    requires Runs(job, draw, planned, start, now, report, account) && !account.started
    ensures report.entries.summary.failed == Capped(|account.Noted()|, U64_MAX)
    ensures report.entries.summary.(failed := 0) == NOTHING
    ensures !report.TargetWasRemoved()
  {
    hide IsRun, Results, Failures, Noted;
    var message :| account.sent <= Failures(message, planned);
    forall r <- account.Noted()
      ensures r.verdict.Failed?
    {
      if r in account.sent {
        var i: nat :| i < |account.sent| && account.sent[i] == r;
        FailureAt(message, planned, i);
      } else {
        MarkerIsFailed(job, account.ending);
      }
    }
    OnlyFailures(account.Noted());
  }

  lemma {:induction false} OnlyFailures(results: seq<Result>)
    requires forall r <- results :: r.verdict.Failed?
    ensures Noted(results) == NOTHING.(failed := Capped(|results|, U64_MAX))
  {
    if results != [] {
      assert forall r <- results[..|results| - 1] :: r in results;
      OnlyFailures(results[..|results| - 1]);
      assert results[|results| - 1] in results;
    }
  }

  // ---- the marker of an unreadable plan ----

  lemma SentInReverse(job: Job, draw: nat -> Option<Name>, planned: seq<Entry>, a: World, b: World,
                      report: DeletionReport, account: Account)
    requires Runs(job, draw, planned, a, b, report, account) && |account.sent| == |planned|
    ensures InReverse(planned, account.sent)
  {
    hide IsRun, Tells, Turn.Result, Kept;
    forall i | 0 <= i < |planned|
      ensures SameButLinks(planned[|planned| - 1 - i], account.sent[i].entry)
    {
      if account.started {
        TurnOf(job, draw, planned, a, account.history, b, i);
        TurnIsOfItsEntry(job, account.history[i]);
      } else {
        var message :| account.sent <= Failures(message, planned);
        FailureAt(message, planned, i);
      }
    }
  }

  /** When a spilled plan turns out unreadable after its last entry was reported, the marker that says so is
      in the report exactly if its frame fits what the results left of their shares. */
  lemma MarkerAtTheEnd(job: Job, draw: nat -> Option<Name>, planned: seq<Entry>, a: World, b: World,
                       report: DeletionReport, account: Account, format: Format)
    requires Runs(job, draw, planned, a, b, report, account) && MarkerToldIfFits(report, account, format, planned)
    requires account.ending.PlanUnreadable? && |account.sent| == |planned| && 0 < |planned| < U64_MAX
    requires planned[0] == Entry.Entry(job.target, job.root)
    requires Recordable(format, planned) && TotalCapacity(format, planned) <= U64_MAX
    ensures account.ending.marker.verdict.Failed?
    ensures report.entries.results == account.Noted() <==>
            FrameBytes(MarkerBytes(format, account.ending.marker)) <= Remainders(planned, account.sent)
  {
    hide IsRun, Tells, Results, Failures, Recordable, TotalCapacity, Storable, InReverse, Bounded;
    SentInReverse(job, draw, planned, a, b, report, account);
    var error :| account.ending.marker == Kept(job.Marker(error));
    KeptIsShort(job.Marker(error));
    MarkerFitsExactly(format, planned, account.sent, account.ending.marker);
  }

  // ---- what is left of the tree ----

  predicate Deletes(turn: Turn) {
    turn.attempt.Some? && turn.attempt.value.outcome == Outcome.Deleted
  }

  /** The names, in the tree before the run, of the entries reported deleted. */
  function DeletedSlots(names: Names, history: seq<Turn>): set<Slot> {
    set turn <- history | Deletes(turn) && SlotAt(names, turn.entry.path).Some? :: SlotAt(names, turn.entry.path).value
  }

  lemma {:induction false} ResolveBefore(names: Names, gone: set<Slot>, path: seq<Name>)
    ensures Resolve(names - gone, path).Some? ==> Resolve(names, path) == Resolve(names - gone, path)
  {
    if path != [] {
      ResolveBefore(names, gone, path[..|path| - 1]);
    }
  }

  lemma SlotBefore(names: Names, gone: set<Slot>, path: seq<Name>)
    ensures SlotAt(names - gone, path).Some? ==> SlotAt(names, path) == SlotAt(names - gone, path)
  {
    if path != [] {
      ResolveBefore(names, gone, path[..|path| - 1]);
    }
  }

  lemma DeletedSlotsMore(names: Names, history: seq<Turn>, turn: Turn)
    ensures DeletedSlots(names, history + [turn]) == DeletedSlots(names, history) +
      if Deletes(turn) && SlotAt(names, turn.entry.path).Some? then {SlotAt(names, turn.entry.path).value} else {}
  {
    var longer := history + [turn];
    forall t <- longer
      ensures t in history || t == turn
    {
    }
    assert forall t <- history :: t in longer;
    assert turn in longer;
  }

  lemma TurnSettles(draw: nat -> Option<Name>, names: Names, gone: set<Slot>, turn: Turn)
    requires TurnTaken(draw, turn) && Quiet(turn.before.script) && turn.before.fs.names == names - gone
    requires turn.entry.snapshot.id in turn.before.fs.facts
    requires turn.attempt.Some? ==> Tidy(turn.attempt.value.outcome)
    ensures turn.after.fs.names == names - gone -
      if Deletes(turn) && SlotAt(names, turn.entry.path).Some? then {SlotAt(names, turn.entry.path).value} else {}
    ensures Deletes(turn) ==> SlotAt(names, turn.entry.path).Some? && SlotAt(names, turn.entry.path).value in names
  {
    hide World.Valid, FactsKept, KindsKept, AsReviewed, EntryLogged, LinksKnown, Unhindered, Ready, Resolve, Evolved;
    SlotBefore(names, gone, turn.entry.path);
  }

  /** Every reviewed object is one the volume knows. */
  ghost predicate AllKnown(planned: seq<Entry>, fs: Fs) {
    forall e <- planned :: e.snapshot.id in fs.facts
  }

  /** With no interference, and unless a clean-up is reported failed: after each turn the names are those of
      the start without the names of the entries reported deleted so far. */
  lemma {:induction false} NamesAfterTurns(job: Job, draw: nat -> Option<Name>, planned: seq<Entry>, start: World,
                                           history: seq<Turn>, now: World, k: nat)
    requires IsRun(job, draw, planned, start, history, now) && k <= |history|
    requires Quiet(start.script) && AllTidy(history[..k]) && AllKnown(planned, start.fs)
    ensures WorldAt(start, history, k).fs.names == start.fs.names - DeletedSlots(start.fs.names, history[..k])
    ensures Quiet(WorldAt(start, history, k).script)
  {
    hide IsRun, World.Valid, TurnTaken, Evolved, Stopped, Quiet, SlotAt;
    Evolution();
    RunEvolves(job, draw, planned, start, history, now, 0, k);
    if k > 0 {
      var turn := history[k - 1];
      assert history[..k] == history[..k - 1] + [turn];
      assert turn in history[..k] && forall t <- history[..k - 1] :: t in history[..k];
      NamesAfterTurns(job, draw, planned, start, history, now, k - 1);
      TurnOf(job, draw, planned, start, history, now, k - 1);
      AroundTurn(job, draw, planned, start, history, now, k - 1);
      FoldersStay(start, turn.before, turn.entry.snapshot.id);
      TurnSettles(draw, start.fs.names, DeletedSlots(start.fs.names, history[..k - 1]), turn);
      DeletedSlotsMore(start.fs.names, history[..k - 1], turn);
    }
  }

  /** With no interference, whatever gates, cancellations and refusals there were: the tree after the run is
      the tree before without the entries reported deleted, and no name of the executor is left. */
  lemma TreeAfterRun(job: Job, draw: nat -> Option<Name>, planned: seq<Entry>, start: World, history: seq<Turn>, now: World)
    requires IsRun(job, draw, planned, start, history, now)
    requires Quiet(start.script) && AllTidy(history) && AllKnown(planned, start.fs)
    ensures now.fs.names == start.fs.names - DeletedSlots(start.fs.names, history)
    ensures FactsKept(start.fs, now.fs)
  {
    hide World.Valid, TurnTaken, Stopped, Quiet, SlotAt, Fs.Valid, FactsKept;
    assert history[..|history|] == history;
    NamesAfterTurns(job, draw, planned, start, history, now, |history|);
    WholeRun(job, draw, planned, start, history, now);
  }

  lemma FaultlessTurn(draw: nat -> Option<Name>, turn: Turn)
    requires TurnTaken(draw, turn) && Quiet(turn.before.script) && Faultless(turn.before.script)
    requires turn.entry.snapshot.id in turn.before.fs.facts
    ensures turn.attempt.Some? ==> Tidy(turn.attempt.value.outcome)
  {
    hide World.Valid, Evolved, EntryLogged, LinksKnown, EntrySettled, Unhindered, Ready, Quiet, Faultless;
  }

  /** With no interference and no refused call, whatever the gates, the cancellations, the private names drawn and
      the files in the way: no clean-up fails, and the run leaves the tree without the entries reported deleted,
      and nothing of its own in it. */
  lemma NothingIsLeftWithoutFaults(job: Job, draw: nat -> Option<Name>, planned: seq<Entry>, start: World,
                                   history: seq<Turn>, now: World)
    requires IsRun(job, draw, planned, start, history, now)
    requires Quiet(start.script) && Faultless(start.script) && AllKnown(planned, start.fs)
    ensures AllTidy(history)
    ensures now.fs.names == start.fs.names - DeletedSlots(start.fs.names, history)
  {
    hide World.Valid, TurnTaken, Stopped, Quiet, Faultless, Clean, Undenied, SlotAt, Fs.Valid, FactsKept, Evolved;
    hide IsRun, Tidy;
    forall turn <- history
      ensures turn.attempt.Some? ==> Tidy(turn.attempt.value.outcome)
    {
      var i: nat :| i < |history| && history[i] == turn;
      TurnOf(job, draw, planned, start, history, now, i);
      AroundTurn(job, draw, planned, start, history, now, i);
      Evolution();
      FoldersStay(start, turn.before, turn.entry.snapshot.id);
      FaultlessTurn(draw, turn);
    }
    TreeAfterRun(job, draw, planned, start, history, now);
  }

  // ---- an undisturbed run ----

  predicate Unused(names: Names, name: Option<Name>) {
    name.Some? && forall s <- names :: s.name != name.value
  }

  /** One of the names that will be tried from here on is of nothing on the volume. */
  predicate OneUnused(draw: nat -> Option<Name>, from: nat, names: Names) {
    exists k | from <= k < from + ATTEMPTS :: Unused(names, draw(k))
  }

  /** However often names are drawn for a placeholder, one of those that will be tried is of nothing on the
      volume. */
  ghost predicate NamesSuffice(draw: nat -> Option<Name>, from: nat, names: Names) {
    && (forall n | n >= from :: draw(n).Some?)
    && (forall n | n >= from :: OneUnused(draw, n, names))
  }

  /** No other process, no fault and no cancellation is in the way. */
  ghost predicate Undisturbed(draw: nat -> Option<Name>, w: World) {
    Clean(w.script) && !w.soft && !w.hard && NamesSuffice(draw, w.drawn, w.fs.names)
  }

  /** The plan is of the target as it is, and nothing stands in the way of carrying it out. */
  ghost predicate Unobstructed(draw: nat -> Option<Name>, planned: seq<Entry>, start: World, target: seq<Name>,
                               home: map<ObjId, seq<Name>>) {
    && start.Valid() && Undisturbed(draw, start)
    && Tree(start.fs, home) && Covers(start.fs, target, planned) && AllUnder(target, planned)
  }

  /** A path leads where it led, when none of the names on it is gone. */
  lemma {:induction false} ResolveKept(names: Names, gone: set<Slot>, path: seq<Name>)
    requires forall k | 0 < k <= |path| :: SlotAt(names, path[..k]).Some? ==> SlotAt(names, path[..k]).value !in gone
    ensures Resolve(names - gone, path) == Resolve(names, path)
  {
    if path != [] {
      var before := path[..|path| - 1];
      forall k | 0 < k <= |before|
        ensures before[..k] == path[..k]
      {
      }
      ResolveKept(names, gone, before);
      assert path[..|path|] == path;
    }
  }

  /** The names of the entries that stand after an entry in the plan. */
  function SlotsAfter(names: Names, planned: seq<Entry>, i: nat): set<Slot>
    requires i < |planned|
  {
    set j | i < j < |planned| && SlotAt(names, planned[j].path).Some? :: SlotAt(names, planned[j].path).value
  }

  lemma PlannedAt(fs: Fs, target: seq<Name>, planned: seq<Entry>, i: nat)
    requires Covers(fs, target, planned) && i < |planned|
    ensures target <= planned[i].path && planned[i].path != []
    ensures Observed(fs, planned[i].path) == Some(planned[i].snapshot)
    ensures Distinct(planned) && ParentsFirst(target, planned)
  {
    assert planned[i] in planned;
  }

  /** No name on the way to an entry, nor its own, is one of a later entry of the plan. */
  lemma WayIsKept(fs: Fs, home: map<ObjId, seq<Name>>, target: seq<Name>, planned: seq<Entry>, i: nat, k: nat)
    requires Tree(fs, home) && Covers(fs, target, planned) && i < |planned| && 0 < k <= |planned[i].path|
    requires SlotAt(fs.names, planned[i].path[..k]).Some?
    ensures SlotAt(fs.names, planned[i].path[..k]).value !in SlotsAfter(fs.names, planned, i)
  {
    hide Tree, Covers, Observed, SlotAt, Distinct, ParentsFirst;
    var path, s := planned[i].path[..k], SlotAt(fs.names, planned[i].path[..k]).value;
    PlannedAt(fs, target, planned, i);
    if s in SlotsAfter(fs.names, planned, i) {
      var j :| i < j < |planned| && SlotAt(fs.names, planned[j].path) == Some(s);
      LaterIsNotOnTheWay(fs, home, target, planned, i, k, j);
      assert false;
    }
  }

  lemma LaterIsNotOnTheWay(fs: Fs, home: map<ObjId, seq<Name>>, target: seq<Name>, planned: seq<Entry>, i: nat, k: nat,
                           j: nat)
    requires Tree(fs, home) && Covers(fs, target, planned) && i < j < |planned| && 0 < k <= |planned[i].path|
    ensures SlotAt(fs.names, planned[i].path[..k]) != SlotAt(fs.names, planned[j].path)
  {
    hide Tree, Covers, Observed, SlotAt, Distinct, ParentsFirst;
    var path := planned[i].path[..k];
    PlannedAt(fs, target, planned, i);
    PlannedAt(fs, target, planned, j);
    ObservedSlot(fs, planned[j].path);
    NotOnTheWay(target, planned, i, k, j);
    if SlotAt(fs.names, path) == SlotAt(fs.names, planned[j].path) {
      OnePath(fs, home, path, planned[j].path, SlotAt(fs.names, path).value);
    }
  }

  lemma NotOnTheWay(target: seq<Name>, planned: seq<Entry>, i: nat, k: nat, j: nat)
    requires Distinct(planned) && ParentsFirst(target, planned) && i < j < |planned| && 0 < k <= |planned[i].path|
    requires target <= planned[j].path
    ensures planned[j].path != planned[i].path[..k]
  {
    assert planned[i].path[..|planned[i].path|] == planned[i].path;
    if k < |planned[i].path| && planned[j].path == planned[i].path[..k] {
      FolderBeforeContents(target, planned, j, i);
    }
  }

  /** Everything in a folder of the plan stands after it. */
  lemma ContentsAfter(fs: Fs, home: map<ObjId, seq<Name>>, target: seq<Name>, planned: seq<Entry>, i: nat, s: Slot)
    requires Tree(fs, home) && Covers(fs, target, planned) && i < |planned|
    requires s in fs.names && s.folder == planned[i].snapshot.id
    ensures s in SlotsAfter(fs.names, planned, i)
  {
    hide Tree, Distinct, ParentsFirst;
    var path := planned[i].path + [s.name];
    PlannedAt(fs, target, planned, i);
    ObservedSlot(fs, planned[i].path);
    assert Parent(path) == planned[i].path;
    TreeIsValid(fs, home);
    assert SlotAt(fs.names, path) == Some(s) && Observed(fs, path).Some?;
    var e :| e in planned && e.path == path;
    var j :| 0 <= j < |planned| && planned[j] == e;
    FolderBeforeContents(target, planned, i, j);
  }

  lemma PathKept(fs: Fs, home: map<ObjId, seq<Name>>, target: seq<Name>, planned: seq<Entry>, i: nat)
    requires Tree(fs, home) && Covers(fs, target, planned) && i < |planned|
    ensures var names := fs.names - SlotsAfter(fs.names, planned, i);
            && SlotAt(names, planned[i].path) == SlotAt(fs.names, planned[i].path)
            && (forall s | s == SlotAt(fs.names, planned[i].path).value :: s in names && (s.folder == ROOT || Bound(names, s.folder)))
  {
    hide Tree, Covers, Observed, Bound;
    var path, gone := planned[i].path, SlotsAfter(fs.names, planned, i);
    PlannedAt(fs, target, planned, i);
    ObservedSlot(fs, path);
    forall k | 0 < k <= |path| && SlotAt(fs.names, path[..k]).Some?
      ensures SlotAt(fs.names, path[..k]).value !in gone
    {
      WayIsKept(fs, home, target, planned, i, k);
    }
    assert path[..|path|] == path;
    forall k | 0 < k <= |Parent(path)|
      ensures Parent(path)[..k] == path[..k]
    {
    }
    ResolveKept(fs.names, gone, Parent(path));
    ResolvedIsLive(fs.names - gone, Parent(path));
  }

  lemma ResolvedIsLive(names: Names, path: seq<Name>)
    requires Resolve(names, path).Some?
    ensures Resolve(names, path).value == ROOT || Bound(names, Resolve(names, path).value)
  {
  }

  lemma SnapshotKept(a: Fs, b: Fs, path: seq<Name>, seen: Snapshot, s: Slot)
    requires FactsKept(a, b) && Observed(a, path) == Some(seen)
    requires s in b.names && b.names[s] == seen.id
    ensures b.names[s] in b.facts && AsReviewed(seen, b.Stat(s))
  {
    ObservedSlot(a, path);
  }

  /** Before an entry's turn, when exactly the entries after it in the plan are gone, nothing stands in the
      way of removing it: its folder is there, and if it is a folder it is empty. */
  lemma ReadyInTurn(draw: nat -> Option<Name>, planned: seq<Entry>, start: World, target: seq<Name>,
                    home: map<ObjId, seq<Name>>, w: World, i: nat)
    requires Unobstructed(draw, planned, start, target, home) && i < |planned|
    requires w.Valid() && FactsKept(start.fs, w.fs) && w.drawn >= start.drawn
    requires w.fs.names == start.fs.names - SlotsAfter(start.fs.names, planned, i)
    ensures Ready(w, draw, planned[i])
  {
    hide Tree, Covers, Observed, Bound, SlotAt, AsReviewed, FactsKept, AllUnder, Clean;
    var e, names := planned[i], w.fs.names;
    PlannedAt(start.fs, target, planned, i);
    ObservedSlot(start.fs, e.path);
    PathKept(start.fs, home, target, planned, i);
    var s := SlotAt(names, e.path).value;
    assert w.fs.IsFolder(s.folder);
    SnapshotKept(start.fs, w.fs, e.path, e.snapshot, s);
    if w.fs.HasChildren(e.snapshot.id) {
      var child :| child in names && child.folder == e.snapshot.id;
      ContentsAfter(start.fs, home, target, planned, i, child);
    }
    NamesAreOffered(draw, start, w, s.folder);
  }

  lemma NamesAreOffered(draw: nat -> Option<Name>, start: World, w: World, folder: ObjId)
    requires NamesSuffice(draw, start.drawn, start.fs.names) && w.drawn >= start.drawn
    requires w.fs.names.Keys <= start.fs.names.Keys
    ensures Offered(w, draw, folder, ATTEMPTS)
  {
    assert OneUnused(draw, w.drawn, start.fs.names);
    var k :| w.drawn <= k < w.drawn + ATTEMPTS && Unused(start.fs.names, draw(k));
    assert Offers(w.fs.names, draw, folder, w.drawn, k);
  }

  lemma DeletedAreAfter(job: Job, draw: nat -> Option<Name>, planned: seq<Entry>, start: World, history: seq<Turn>,
                        now: World, names: Names, k: nat)
    requires IsRun(job, draw, planned, start, history, now) && k <= |history| && k < |planned|
    requires forall i | 0 <= i < k :: Deletes(history[i])
    ensures DeletedSlots(names, history[..k]) == SlotsAfter(names, planned, |planned| - 1 - k)
  {
    hide TurnTaken, Paused, Stopped, SlotAt, World.Valid, Deletes;
    var i := |planned| - 1 - k;
    forall s <- SlotsAfter(names, planned, i)
      ensures s in DeletedSlots(names, history[..k])
    {
      var j :| i < j < |planned| && SlotAt(names, planned[j].path) == Some(s);
      assert InTurn(job, draw, planned, start, history, |planned| - 1 - j);
      assert history[..k][|planned| - 1 - j].entry == planned[j];
      assert history[..k][|planned| - 1 - j] in history[..k];
    }
    forall s <- DeletedSlots(names, history[..k])
      ensures s in SlotsAfter(names, planned, i)
    {
      var turn :| turn in history[..k] && SlotAt(names, turn.entry.path) == Some(s);
      var t :| 0 <= t < k && history[t] == turn;
      assert InTurn(job, draw, planned, start, history, t);
      assert history[t].entry == planned[|planned| - 1 - t];
    }
  }

  lemma CoversKnown(fs: Fs, target: seq<Name>, planned: seq<Entry>)
    requires Covers(fs, target, planned)
    ensures AllKnown(planned, fs)
  {
    forall e <- planned
      ensures e.snapshot.id in fs.facts
    {
      ObservedSlot(fs, e.path);
    }
  }

  /** The turn deleted its entry, undisturbed. */
  ghost predicate Smooth(turn: Turn) {
    turn.attempt.Some? && Unhindered(turn.before, turn.after, turn.entry.snapshot, turn.attempt.value)
  }

  lemma SmoothDeletes(job: Job, turn: Turn)
    requires Smooth(turn)
    ensures Deletes(turn) && turn.attempt.Some? && !turn.Halts(job) && Tidy(turn.attempt.value.outcome) && turn.after.soft == turn.before.soft
  {
  }

  lemma PausedClean(a: World, b: World)
    requires Paused(a, b) && Clean(a.script)
    ensures Clean(b.script) && b.soft == a.soft && b.hard == a.hard && b.drawn >= a.drawn && b.fs == a.fs
  {
  }

  lemma EvolvedClean(a: World, b: World)
    requires Evolved(a, b) && Clean(a.script)
    ensures Clean(b.script) && b.hard == a.hard && b.drawn >= a.drawn && FactsKept(a.fs, b.fs)
  {
  }

  lemma ReadySucceeds(draw: nat -> Option<Name>, turn: Turn)
    requires TurnTaken(draw, turn) && turn.attempt.Some?
    requires Clean(turn.before.script) && Ready(turn.before, draw, turn.entry)
    ensures Smooth(turn)
  {
  }

  /** In an undisturbed run every turn deletes its entry. */
  lemma {:induction false} TurnsSucceed(job: Job, draw: nat -> Option<Name>, planned: seq<Entry>, start: World,
                                        history: seq<Turn>, now: World, target: seq<Name>,
                                        home: map<ObjId, seq<Name>>, k: nat)
    requires IsRun(job, draw, planned, start, history, now) && Unobstructed(draw, planned, start, target, home)
    requires k <= |history|
    ensures forall i | 0 <= i < k :: Smooth(history[i])
    ensures var w := WorldAt(start, history, k); !w.soft && !w.hard && Clean(w.script)
  {
    hide IsRun, TurnTaken, Paused, Evolved, Clean, World.Valid, Tree, Covers, AllUnder, Ready, FactsKept, Smooth;
    hide Tidy, NamesSuffice;
    if k > 0 {
      var i := k - 1;
      TurnsSucceed(job, draw, planned, start, history, now, target, home, i);
      TurnOf(job, draw, planned, start, history, now, i);
      AroundTurn(job, draw, planned, start, history, now, i);
      var turn := history[i];
      PausedClean(WorldAt(start, history, i), turn.before);
      EvolvedClean(start, turn.before);
      EvolvedClean(turn.before, turn.after);
      forall j | 0 <= j < i ensures Deletes(history[j]) && !history[j].Halts(job) && Tidy(history[j].attempt.value.outcome) {
        SmoothDeletes(job, history[j]);
      }
      CoversKnown(start.fs, target, planned);
      QuietIfClean(start.script);
      NamesAfterTurns(job, draw, planned, start, history, now, i);
      DeletedAreAfter(job, draw, planned, start, history, now, start.fs.names, i);
      ReadyInTurn(draw, planned, start, target, home, turn.before, |planned| - 1 - i);
      ReadySucceeds(draw, turn);
      SmoothDeletes(job, turn);
    }
  }

  lemma QuietIfClean(script: seq<Step>)
    ensures Clean(script) ==> Quiet(script)
  {
  }

  /** A name at or below the target. */
  ghost predicate Beneath(names: Names, target: seq<Name>, s: Slot) {
    exists path :: target <= path && SlotAt(names, path) == Some(s)
  }

  lemma DeletedIsBeneath(job: Job, draw: nat -> Option<Name>, planned: seq<Entry>, start: World, history: seq<Turn>,
                         now: World, target: seq<Name>, s: Slot)
    requires IsRun(job, draw, planned, start, history, now) && |history| == |planned|
    requires Covers(start.fs, target, planned) && s in start.fs.names
    requires start.Valid() && forall i | 0 <= i < |history| :: Deletes(history[i])
    ensures s in DeletedSlots(start.fs.names, history) <==> Beneath(start.fs.names, target, s)
  {
    hide World.Valid, TurnTaken, Stopped, Paused, SlotAt, Deletes, ParentsFirst, Distinct;
    var names := start.fs.names;
    if Beneath(names, target, s) {
      var path :| target <= path && SlotAt(names, path) == Some(s);
      FoundAt(start, path, s);
      var e :| e in planned && e.path == path;
      var j :| 0 <= j < |planned| && planned[j] == e;
      assert InTurn(job, draw, planned, start, history, |planned| - 1 - j);
      assert history[|planned| - 1 - j].entry == e;
      assert history[|planned| - 1 - j] in history;
    }
    if s in DeletedSlots(names, history) {
      var turn :| turn in history && SlotAt(names, turn.entry.path) == Some(s);
      var t: nat :| t < |history| && history[t] == turn;
      assert InTurn(job, draw, planned, start, history, t);
      assert turn.entry in planned && target <= turn.entry.path;
    }
  }

  lemma FoundAt(w: World, path: seq<Name>, s: Slot)
    requires w.Valid() && s in w.fs.names && SlotAt(w.fs.names, path) == Some(s)
    ensures Observed(w.fs, path).Some?
  {
  }

  /** Planner and executor together: in an undisturbed run every entry is deleted, every folder met empty, and
      exactly the names at and below the target are gone. */
  lemma UndisturbedRunRemovesTheTarget(job: Job, draw: nat -> Option<Name>, planned: seq<Entry>, start: World,
                                       history: seq<Turn>, now: World, target: seq<Name>, home: map<ObjId, seq<Name>>)
    requires IsRun(job, draw, planned, start, history, now) && |history| == |planned|
    requires Unobstructed(draw, planned, start, target, home)
    ensures forall turn <- history :: turn.Result(job).verdict == Verdict.Deleted
    ensures !now.soft && !now.hard
    ensures now.fs.names.Keys <= start.fs.names.Keys
    ensures forall s <- start.fs.names ::
      if Beneath(start.fs.names, target, s) then s !in now.fs.names
      else s in now.fs.names && now.fs.names[s] == start.fs.names[s]
  {
    hide IsRun, TurnTaken, Paused, Evolved, Clean, World.Valid, Tree, Covers, AllUnder, FactsKept, Smooth, Tidy;
    hide NamesSuffice;
    hide Beneath, DeletedSlots, Deletes;
    TurnsSucceed(job, draw, planned, start, history, now, target, home, |history|);
    LastPause(job, draw, planned, start, history, now);
    PausedClean(WorldAt(start, history, |history|), now);
    forall i | 0 <= i < |history|
      ensures Deletes(history[i]) && history[i].attempt.Some? && Tidy(history[i].attempt.value.outcome)
      ensures history[i].Result(job).verdict == Verdict.Deleted
    {
      SmoothDeletes(job, history[i]);
      DeletesVerdict(job, history[i]);
    }
    CoversKnown(start.fs, target, planned);
    QuietIfClean(start.script);
    TreeAfterRun(job, draw, planned, start, history, now);
    forall s <- start.fs.names
      ensures s in DeletedSlots(start.fs.names, history) <==> Beneath(start.fs.names, target, s)
    {
      DeletedIsBeneath(job, draw, planned, start, history, now, target, s);
    }
  }

  lemma DeletesVerdict(job: Job, turn: Turn)
    ensures turn.Result(job).verdict == Verdict.Deleted <==> Deletes(turn)
  {
  }

  lemma LastPause(job: Job, draw: nat -> Option<Name>, planned: seq<Entry>, start: World, history: seq<Turn>, now: World)
    requires IsRun(job, draw, planned, start, history, now)
    ensures Paused(WorldAt(start, history, |history|), now)
  {
  }

  // ---- links of an undisturbed run ----

  lemma SmoothFrees(turn: Turn)
    requires Smooth(turn) && turn.entry.snapshot.kind != Directory
    ensures Frees(turn) <==> turn.before.fs.Links(turn.entry.snapshot.id) == 1
  {
  }

  /** A turn that takes an object's last name is a turn of one of its entries. */
  lemma TurnTakesItsOwn(draw: nat -> Option<Name>, names: Names, turn: Turn, o: ObjId)
    requires TurnTaken(draw, turn) && Smooth(turn) && Quiet(turn.before.script)
    requires turn.entry.snapshot.id in turn.before.fs.facts
    requires turn.before.fs.Named(o) && !turn.after.fs.Named(o)
    ensures turn.entry.snapshot.id == o && turn.before.fs.Links(o) == 1
  {
    hide World.Valid, FactsKept, KindsKept, AsReviewed, EntryLogged, LinksKnown, Ready, Resolve, Evolved, Bound;
    var s := SlotAt(turn.before.fs.names, turn.entry.path).value;
    DropNames(turn.before.fs.names, s, o);
    DropLinks(turn.before.fs.names, s, o);
    NoLinks(turn.after.fs.names, o);
  }

  /** The turn at which an object lost its last name. */
  lemma {:induction false} LastNameGoes(job: Job, draw: nat -> Option<Name>, planned: seq<Entry>, start: World,
                                        history: seq<Turn>, now: World, o: ObjId, k: nat) returns (i: nat)
    requires IsRun(job, draw, planned, start, history, now) && k <= |history|
    requires start.fs.Named(o) && !WorldAt(start, history, k).fs.Named(o) && Quiet(start.script)
    ensures i < k && history[i].before.fs.Named(o) && !history[i].after.fs.Named(o)
  {
    hide IsRun, TurnTaken, Evolved, Quiet, Clean, Faultless, Undenied, World.Valid, Fs.Named;
    i := k - 1;
    TurnOf(job, draw, planned, start, history, now, i);
    RunEvolves(job, draw, planned, start, history, now, 0, i);
    Evolution();
    if !WorldAt(start, history, i).fs.Named(o) {
      i := LastNameGoes(job, draw, planned, start, history, now, o, i);
    }
  }

  /** In an undisturbed run, the bytes of a planned file count as freed once if all its names were in the
      plan, and not at all if one was outside. */
  lemma LinkedFilesCountOnce(job: Job, draw: nat -> Option<Name>, planned: seq<Entry>, start: World,
                             history: seq<Turn>, now: World, target: seq<Name>, home: map<ObjId, seq<Name>>, e: Entry)
    requires IsRun(job, draw, planned, start, history, now) && |history| == |planned|
    requires Unobstructed(draw, planned, start, target, home) && e in planned && e.snapshot.kind != Directory
    ensures (exists i | 0 <= i < |history| :: Frees(history[i]) && history[i].entry.snapshot.id == e.snapshot.id)
            <==> !now.fs.Named(e.snapshot.id)
  {
    hide IsRun, TurnTaken, Paused, Evolved, Clean, World.Valid, Tree, Covers, AllUnder, FactsKept, Smooth, Tidy;
    hide NamesSuffice;
    hide Fs.Named, Frees, Fs.Links, Quiet;
    var o := e.snapshot.id;
    CoversKnown(start.fs, target, planned);
    if i :| 0 <= i < |history| && Frees(history[i]) && history[i].entry.snapshot.id == o {
      FreedIsGone(job, draw, planned, start, history, now, i);
    }
    if !now.fs.Named(o) {
      QuietIfClean(start.script);
      LastPause(job, draw, planned, start, history, now);
      TurnsSucceed(job, draw, planned, start, history, now, target, home, |history|);
      PausedClean(WorldAt(start, history, |history|), now);
      PlannedIsNamed(start, target, planned, e);
      var i := LastNameGoes(job, draw, planned, start, history, now, o, |history|);
      TurnOf(job, draw, planned, start, history, now, i);
      AroundTurn(job, draw, planned, start, history, now, i);
      Evolution();
      FoldersStay(start, history[i].before, history[i].entry.snapshot.id);
      TurnTakesItsOwn(draw, start.fs.names, history[i], o);
      assert Frees(history[i]) by {
        var j: nat :| j < |planned| && planned[j] == e;
        SameObjectSameKind(start.fs, target, planned, history[i].entry, e);
        SmoothFrees(history[i]);
      }
    }
  }

  /** The first turn of an object's entries. */
  lemma FirstTurnOf(history: seq<Turn>, e: Entry) returns (i: nat)
    requires exists turn <- history :: turn.entry == e
    ensures i < |history| && history[i].entry.snapshot.id == e.snapshot.id
    ensures forall j | 0 <= j < i :: history[j].entry.snapshot.id != e.snapshot.id
  {
    i := 0;
    while history[i].entry.snapshot.id != e.snapshot.id
      invariant i < |history|
      invariant forall j | 0 <= j < i :: history[j].entry.snapshot.id != e.snapshot.id
      decreases |history| - i
    {
      assert exists j | i < j < |history| :: history[j].entry == e;
      i := i + 1;
    }
  }

  /** As long as none of its entries had its turn, an object has the names it had at first. */
  lemma LinksUntil(fs: Fs, target: seq<Name>, planned: seq<Entry>, history: seq<Turn>, names: Names, o: ObjId)
    requires Covers(fs, target, planned) && names == fs.names - DeletedSlots(fs.names, history)
    requires forall turn <- history :: turn.entry in planned && turn.entry.snapshot.id != o
    ensures |SlotsOf(names, o)| == |SlotsOf(fs.names, o)|
  {
    hide SlotAt, Distinct, ParentsFirst, Observed;
    forall s | s in fs.names && fs.names[s] == o
      ensures s in names
    {
      if s in DeletedSlots(fs.names, history) {
        var turn :| turn in history && SlotAt(fs.names, turn.entry.path) == Some(s);
        ObservedSlot(fs, turn.entry.path);
      }
    }
    assert SlotsOf(names, o) == SlotsOf(fs.names, o);
  }

  lemma FewerLinks(names: Names, gone: set<Slot>, o: ObjId)
    ensures |SlotsOf(names - gone, o)| <= |SlotsOf(names, o)|
  {
    SubsetSize(SlotsOf(names - gone, o), SlotsOf(names, o));
  }

  lemma SmoothFlags(turn: Turn)
    requires Smooth(turn)
    ensures turn.OtherLinks() <==> turn.entry.snapshot.kind != Directory && turn.before.fs.Links(turn.entry.snapshot.id) != 1
  {
  }

  /** What an undisturbed turn says of other links, and the names before it. */
  lemma UndisturbedTurn(job: Job, draw: nat -> Option<Name>, planned: seq<Entry>, start: World, history: seq<Turn>,
                        now: World, target: seq<Name>, home: map<ObjId, seq<Name>>, i: nat)
    requires IsRun(job, draw, planned, start, history, now) && i < |history|
    requires Unobstructed(draw, planned, start, target, home)
    ensures history[i].before.fs.names == start.fs.names - DeletedSlots(start.fs.names, history[..i])
    ensures history[i].before.fs.Named(history[i].entry.snapshot.id) && history[i].entry in planned
    ensures history[i].OtherLinks() <==>
            && history[i].entry.snapshot.kind != Directory
            && history[i].before.fs.Links(history[i].entry.snapshot.id) > 1
  {
    hide IsRun, TurnTaken, Paused, Evolved, Clean, Quiet, World.Valid, Tree, AllUnder, FactsKept, Smooth, Tidy;
    hide NamesSuffice;
    hide Turn.OtherLinks, Fs.Links, Covers, DeletedSlots, Deletes;
    var turn := history[i];
    TurnsSucceed(job, draw, planned, start, history, now, target, home, i + 1);
    TurnsSucceed(job, draw, planned, start, history, now, target, home, i);
    forall j | 0 <= j <= i
      ensures Deletes(history[j]) && history[j].attempt.Some? && Tidy(history[j].attempt.value.outcome)
    {
      SmoothDeletes(job, history[j]);
    }
    CoversKnown(start.fs, target, planned);
    QuietIfClean(start.script);
    NamesAfterTurns(job, draw, planned, start, history, now, i);
    TurnOf(job, draw, planned, start, history, now, i);
    AroundTurn(job, draw, planned, start, history, now, i);
    PausedClean(WorldAt(start, history, i), turn.before);
    FoldersStay(start, turn.before, turn.entry.snapshot.id);
    SmoothFlags(turn);
    DeletedWasNamed(draw, turn);
    LinksWhenNamed(turn.before.fs, turn.entry.snapshot.id);
  }

  lemma DeletedWasNamed(draw: nat -> Option<Name>, turn: Turn)
    requires TurnTaken(draw, turn) && Deletes(turn) && turn.entry.snapshot.id in turn.before.fs.facts
    ensures turn.before.fs.Named(turn.entry.snapshot.id)
  {
  }

  lemma LinksWhenNamed(fs: Fs, o: ObjId)
    requires fs.Named(o)
    ensures fs.Links(o) > 0
  {
    NoLinks(fs.names, o);
  }

  /** A file whose last link was seen to go raises no flag. */
  lemma SeenGoneRaisesNothing(turn: Turn)
    requires turn.attempt.Some? && turn.attempt.value.noLinkSurvived
    ensures !turn.OtherLinks()
  {
  }

  /** In an undisturbed run other links are reported exactly if some planned file or link had more than one when
      its turn came, and that is so exactly if one had more than one at first: not when each had one. */
  lemma OtherLinksExactly(job: Job, draw: nat -> Option<Name>, planned: seq<Entry>, start: World,
                          now: World, report: DeletionReport, account: Account, home: map<ObjId, seq<Name>>)
    requires Runs(job, draw, planned, start, now, report, account) && account.started && account.ending.Complete?
    requires Unobstructed(draw, planned, start, job.target, home)
    ensures report.entries.summary.otherLinks <==>
            exists turn <- account.history ::
              turn.entry.snapshot.kind != Directory && turn.before.fs.Links(turn.entry.snapshot.id) > 1
    ensures report.entries.summary.otherLinks <==>
            exists e <- planned :: e.snapshot.kind != Directory && start.fs.Links(e.snapshot.id) > 1
  {
    hide IsRun, Unobstructed, Turn.OtherLinks, Fs.Links, Results, Failures, RemovesTarget, Noted;
    var history := account.history;
    FlagsOfTurns(job, draw, planned, start, history, now, job.target, home);
    FlagsOfEntries(job, draw, planned, start, history, now, job.target, home);
  }

  lemma FlagsOfTurns(job: Job, draw: nat -> Option<Name>, planned: seq<Entry>, start: World, history: seq<Turn>,
                     now: World, target: seq<Name>, home: map<ObjId, seq<Name>>)
    requires IsRun(job, draw, planned, start, history, now) && Unobstructed(draw, planned, start, target, home)
    ensures OtherLinks(history) <==>
            exists turn <- history ::
              turn.entry.snapshot.kind != Directory && turn.before.fs.Links(turn.entry.snapshot.id) > 1
  {
    hide IsRun, Unobstructed, Turn.OtherLinks, Fs.Links;
    forall turn <- history
      ensures turn.OtherLinks() <==>
              turn.entry.snapshot.kind != Directory && turn.before.fs.Links(turn.entry.snapshot.id) > 1
    {
      var i: nat :| i < |history| && history[i] == turn;
      UndisturbedTurn(job, draw, planned, start, history, now, target, home, i);
    }
  }

  lemma FlagsOfEntries(job: Job, draw: nat -> Option<Name>, planned: seq<Entry>, start: World, history: seq<Turn>,
                       now: World, target: seq<Name>, home: map<ObjId, seq<Name>>)
    requires IsRun(job, draw, planned, start, history, now) && |history| == |planned|
    requires Unobstructed(draw, planned, start, target, home)
    ensures OtherLinks(history) <==>
            exists e <- planned :: e.snapshot.kind != Directory && start.fs.Links(e.snapshot.id) > 1
  {
    hide IsRun, Turn.OtherLinks, Undisturbed, Tree, Covers, AllUnder, World.Valid, DeletedSlots;
    var fs := start.fs;
    if turn :| turn in history && turn.OtherLinks() {
      var i: nat :| i < |history| && history[i] == turn;
      UndisturbedTurn(job, draw, planned, start, history, now, target, home, i);
      FewerLinks(fs.names, DeletedSlots(fs.names, history[..i]), turn.entry.snapshot.id);
    }
    if e :| e in planned && e.snapshot.kind != Directory && fs.Links(e.snapshot.id) > 1 {
      TakenInTurn(job, draw, planned, start, history, now, e);
      var i := FirstTurnOf(history, e);
      UndisturbedTurn(job, draw, planned, start, history, now, target, home, i);
      forall turn <- history[..i]
        ensures turn.entry in planned && turn.entry.snapshot.id != e.snapshot.id
      {
        var j: nat :| j < i && history[j] == turn;
        UndisturbedTurn(job, draw, planned, start, history, now, target, home, j);
      }
      LinksUntil(fs, target, planned, history[..i], history[i].before.fs.names, e.snapshot.id);
      SameObjectSameKind(fs, target, planned, e, history[i].entry);
      assert history[i] in history;
    }
  }

  lemma TakenInTurn(job: Job, draw: nat -> Option<Name>, planned: seq<Entry>, start: World, history: seq<Turn>,
                    now: World, e: Entry)
    requires IsRun(job, draw, planned, start, history, now) && |history| == |planned| && e in planned
    ensures exists turn <- history :: turn.entry == e
  {
    hide IsRun, TurnTaken, Paused, Stopped;
    var j: nat :| j < |planned| && planned[j] == e;
    TurnOf(job, draw, planned, start, history, now, |planned| - 1 - j);
    assert history[|planned| - 1 - j].entry == e && history[|planned| - 1 - j] in history;
  }

  lemma PlannedIsNamed(w: World, target: seq<Name>, planned: seq<Entry>, e: Entry)
    requires Covers(w.fs, target, planned) && e in planned
    ensures w.fs.Named(e.snapshot.id)
  {
    ObservedSlot(w.fs, e.path);
    HeldIsBound(w.fs.names, SlotAt(w.fs.names, e.path).value);
  }

  lemma SameObjectSameKind(fs: Fs, target: seq<Name>, planned: seq<Entry>, a: Entry, b: Entry)
    requires Covers(fs, target, planned) && a in planned && b in planned && a.snapshot.id == b.snapshot.id
    ensures a.snapshot == b.snapshot
  {
    ObservedSlot(fs, a.path);
    ObservedSlot(fs, b.path);
  }

  // ---- from the review to the report ----

  /** The report of an undisturbed run says that the target was removed. */
  lemma UndisturbedReport(job: Job, draw: nat -> Option<Name>, planned: seq<Entry>, start: World, now: World,
                          report: DeletionReport, account: Account, home: map<ObjId, seq<Name>>)
    requires Runs(job, draw, planned, start, now, report, account) && account.started && account.ending.Complete?
    requires Unobstructed(draw, planned, start, job.target, home)
    ensures report.TargetWasRemoved()
    ensures forall r <- report.entries.results :: r.verdict == Verdict.Deleted
  {
    hide IsRun, Covers, AllUnder, World.Valid, Clean, Beneath, Results, Kept, Turn.Result, Tree, NamesSuffice;
    hide Noted, OtherLinks;
    var history, last := account.history, |planned| - 1;
    UndisturbedRunRemovesTheTarget(job, draw, planned, start, history, now, job.target, home);
    PlanHasTarget(start.fs, job.target, planned);
    forall k | 0 <= k < |history|
      ensures Results(job, history)[k].verdict == Verdict.Deleted
      ensures Results(job, history)[k].entry.path == planned[|planned| - 1 - k].path
    {
      ResultAt(job, history, k);
      assert history[k] in history;
      TurnOf(job, draw, planned, start, history, now, k);
      TurnIsOfItsEntry(job, history[k]);
    }
    assert RemovesTarget(account.sent[last], job.target) && account.sent[last] in account.Noted();
  }

  lemma PlanHasTarget(fs: Fs, target: seq<Name>, planned: seq<Entry>)
    requires Covers(fs, target, planned)
    ensures planned != [] && planned[0].path == target && Observed(fs, target) == Some(planned[0].snapshot)
  {
    assert planned[0] in planned;
  }

  /** The names of the target, and of everything below it, are gone, and no others are. */
  ghost predicate TargetGone(before: Names, after: Names, target: seq<Name>) {
    && after.Keys <= before.Keys
    && forall s <- before ::
         if Beneath(before, target, s) then s !in after else s in after && after[s] == before[s]
  }

  /** A target is reviewed and then deleted. A review that is refused changes nothing, and has its reason; one
      with nothing in its way is granted. When nothing disturbs the run and the spill files hold, a review that
      is granted ends with exactly the target removed, every entry reported deleted. */
  method ReviewAndDelete(v: Volume, ghost home: map<ObjId, seq<Name>>, model: Model, weather: Weather, format: Format,
                         store: SpillStore, maximumBytes: nat, job: Job)
    returns (r: Answer<DeletionReport, Refusal>, charged: nat)
    requires v.w.Valid() && Tree(v.w.fs, home) && format.Lawful()
    modifies v, store
    ensures v.w.Valid()
    ensures r.Err? ==>
      && v.w == old(v.w)
      && Warranted(v.w.fs, job.target, model, weather, format, old(store.fortunes) == [], maximumBytes, r.error)
    ensures Plannable(old(v.w).fs, job.target, model, weather, format, old(store.fortunes) == [], maximumBytes) ==> r.Ok?
    ensures r.Ok? && old(store.fortunes) == [] ==> r.value.entries.complete
    ensures r.Ok? && old(store.fortunes) == [] && Undisturbed(v.draw, old(v.w)) ==>
        && r.value.TargetWasRemoved() && (forall x <- r.value.entries.results :: x.verdict == Verdict.Deleted)
        && TargetGone(old(v.w).fs.names, v.w.fs.names, job.target)
    ensures charged <= maximumBytes
  {
    hide Covers, AllUnder, World.Valid, Clean, Tree, NamesSuffice, PlanningStorage.Valid, PlanningStorage.Untroubled;
    hide Format.Lawful, Observed, Warranted, Plannable, RanShort, DeletionEntries.Valid, Runs, Beneath;
    hide MarkerToldIfFits;
    var fs := v.w.fs;
    ghost var start := v.w;
    var planned := BuildPlan(fs, home, job.target, model, weather, format, store, maximumBytes);
    if planned.Err? { return Err(planned.error), 0; }
    PlanHasTarget(fs, job.target, planned.value.entries.contents);
    ghost var entries := planned.value.entries.contents;
    charged := planned.value.estimatedBytes;
    ChargeIsWithin(planned.value);
    var told := job.(root := Observed(fs, job.target).value);
    var report, account := ExecutePlan(v, planned.value, told);
    if old(store.fortunes) == [] {
      EndingSaid(told, v.draw, entries, start, v.w, report, account);
      if Undisturbed(v.draw, start) {
        UndisturbedRunRemovesTheTarget(told, v.draw, entries, start, account.history, v.w, job.target, home);
        UndisturbedReport(told, v.draw, entries, start, v.w, report, account, home);
      }
    }
    r := Ok(report);
  }

  lemma ChargeIsWithin(storage: PlanningStorage)
    requires storage.Valid()
    ensures storage.estimatedBytes <= storage.maximumBytes
  {
  }

  /** A deletion from its request to its report: planned within the budget it is granted, carried out, and kept in
      the history, whatever the run did; or refused, and off the rail again. */
  method DeleteAndKeep(history: History.DeletionHistory, v: Volume, ghost home: map<ObjId, seq<Name>>, model: Model,
                       weather: Weather, format: Format, store: SpillStore, job: Job)
    returns (answer: History.Answer, r: Answer<DeletionReport, Refusal>, charged: nat)
    requires history.Valid() && v.w.Valid() && Tree(v.w.fs, home) && format.Lawful()
    modifies history, v, store
    ensures history.Valid() && v.w.Valid()
    ensures !answer.Started? ==> v.w == old(v.w) && history.reports == old(history.reports) && history.items == old(history.items)
    ensures answer.Started? ==> forall item :: item in history.items <==> item in old(history.items)
    ensures answer.Started? && r.Err? ==> v.w == old(v.w) && history.reports == old(history.reports)
    ensures answer.Started? && r.Ok? ==>
      history.reports == old(history.reports) + [History.Report(answer.id, charged)]
    ensures answer.Started? && r.Ok? && old(store.fortunes) == [] && Undisturbed(v.draw, old(v.w)) ==>
      r.value.TargetWasRemoved() && TargetGone(old(v.w).fs.names, v.w.fs.names, job.target)
  {
    hide World.Valid, Clean, Tree, NamesSuffice, Format.Lawful, Warranted, Plannable, DeletionEntries.Valid, TargetGone;
    hide Undisturbed, DeletionReport.TargetWasRemoved;
    r, charged := Err(StorageTrouble), 0;
    var maximumBytes;
    answer, maximumBytes := history.RequestDeletion(job.target);
    if !answer.Started? { return; }
    assert History.Item(answer.id, job.target, maximumBytes) in history.items;
    r, charged := ReviewAndDelete(v, home, model, weather, format, store, maximumBytes, job);
    if r.Err? {
      history.Cancel(answer.id);
    } else {
      history.Complete(answer.id, charged);
    }
  }

  lemma EndingSaid(job: Job, draw: nat -> Option<Name>, planned: seq<Entry>, start: World, now: World,
                   report: DeletionReport, account: Account)
    requires Runs(job, draw, planned, start, now, report, account) && account.ending.Complete?
    ensures report.entries.complete && IsRun(job, draw, planned, start, account.history, now)
    ensures account.started ==> |account.history| == |planned|
  {
    hide IsRun, Noted, OtherLinks, RemovesTarget;
  }
}
