/** A whole run: the plan is taken from its end, entry by entry, until it is done, asked to stop, or can
    not be read or reported any further; and what the run reports of it. */
module Execution {
  import opened Outcomes
  import opened FileSystem
  import opened Isolation
  import opened Spill
  import opened Records
  import opened PlanStore
  import opened Reports
  import opened Planner

  /** What a run is given beside the plan: the target, the length of the scan root's path, the longest path
      a path-based call takes, and the text that says why an entry or the plan failed. */
  datatype Job = Job(target: seq<Name>, root: Snapshot, rootBytes: nat, pathMax: nat,
                     words: (Entry, Outcome) -> Text, trouble: PlanError -> Text, unopened: Text)
  {
    function Marker(e: PlanError): Result {
      Result(Entry.Entry(target, root), Verdict.Failed(trouble(e)))
    }
  }

  /** The entry's path is too long for a path-based call. */
  predicate Deep(job: Job, entry: Entry) {
    SatAdd(SatAdd(job.rootBytes, 1), PathBytes(entry.path)) >= job.pathMax
  }

  /** The link count that a result keeps: none of a removed file that had others. */
  function KeptLinks(kind: Kind, attempt: Attempt): Option<LinkCount> {
    if attempt.outcome == Outcome.Deleted && kind != Directory && attempt.links.Some? && attempt.links.value > 1
    then None else attempt.links
  }

  function VerdictOf(job: Job, entry: Entry, outcome: Outcome): Verdict {
    match outcome
    case Deleted => Verdict.Deleted
    case Changed => Verdict.Changed(job.words(entry, outcome))
    case Missing => Verdict.Missing
    case Failed(_) => Verdict.Failed(job.words(entry, outcome))
    case Unattempted => Verdict.Unattempted
  }

  predicate WithOtherLinks(kind: Kind, attempt: Attempt) {
    kind != Directory && attempt.outcome != Outcome.Unattempted && !attempt.noLinkSurvived
  }

  /** No entry after this one is attempted: it was not, or the system refuses the rename that isolates an
      entry so deep. */
  predicate Halted(job: Job, entry: Entry, attempt: Option<Attempt>) {
    attempt.None? || attempt.value.outcome == Outcome.Unattempted || (Deep(job, entry) && attempt.value.refused)
  }

  /** One turn of the run: the world when the entry's turn began and when it ended, and the attempt if one
      was made. */
  datatype Turn = Turn(before: World, after: World, entry: Entry, attempt: Option<Attempt>)
  {
    function Result(job: Job): Records.Result {
      match attempt
      case None => Records.Result(entry, Verdict.Unattempted)
      case Some(a) => Records.Result(entry.(snapshot := entry.snapshot.(links := KeptLinks(entry.snapshot.kind, a))),
                                     VerdictOf(job, entry, a.outcome))
    }

    predicate OtherLinks() {
      attempt.Some? && WithOtherLinks(entry.snapshot.kind, attempt.value)
    }

    /** No entry is attempted after this turn. */
    predicate Halts(job: Job) {
      Halted(job, entry, attempt)
    }
  }

  /** Nothing of the executor happened between the two. */
  ghost predicate Paused(a: World, b: World) {
    && Evolved(a, b) && OwnKept(a, b)
    && (Quiet(a.script) ==> b.fs == a.fs) && (Clean(a.script) ==> b.soft == a.soft)
  }

  ghost predicate Executed(draw: nat -> Option<Name>, a: World, b: World, entry: Entry, attempt: Attempt) {
    && Evolved(a, b)
    && EntryLogged(a, b, entry.snapshot, attempt.outcome)
    && LinksKnown(a, b, entry.snapshot, attempt)
    && EntrySettled(a, b, entry, attempt.outcome)
    && Reasoned(a, b, draw, entry, attempt.outcome)
    && (attempt.refused <==> ExchangeRefused(attempt.outcome))
    && (attempt.outcome in {Outcome.Unattempted, Outcome.Failed(CancelCleanup)} ==> b.soft)
    && (Clean(a.script) && Ready(a, draw, entry) ==> Unhindered(a, b, entry.snapshot, attempt))
  }

  ghost predicate TurnTaken(draw: nat -> Option<Name>, turn: Turn) {
    && turn.before.Valid()
    && match turn.attempt
       case None => turn.after == turn.before
       case Some(a) => Executed(draw, turn.before, turn.after, turn.entry, a)
  }

  function WorldAt(start: World, history: seq<Turn>, i: nat): World
    requires i <= |history|
  {
    if i == 0 then start else history[i - 1].after
  }

  predicate Stopped(job: Job, history: seq<Turn>, i: nat)
    requires i < |history|
  {
    history[i].before.soft || history[i].before.hard || (i > 0 && history[i - 1].Halts(job))
  }

  /** The turn takes its entry from the plan's end, begins after the turn before it, and makes an attempt
      unless the run is to stop. */
  ghost predicate InTurn(job: Job, draw: nat -> Option<Name>, planned: seq<Entry>, start: World, history: seq<Turn>,
                         i: nat)
    requires i < |history| <= |planned|
  {
    && history[i].entry == planned[|planned| - 1 - i]
    && TurnTaken(draw, history[i]) && Paused(WorldAt(start, history, i), history[i].before)
    && (history[i].attempt.None? <==> Stopped(job, history, i))
  }

  /** The turns lead from one world to the other, and take the plan from its end. */
  ghost predicate IsRun(job: Job, draw: nat -> Option<Name>, planned: seq<Entry>, start: World, history: seq<Turn>,
                        now: World) {
    && start.Valid() && |history| <= |planned|
    && Paused(WorldAt(start, history, |history|), now)
    && forall i: nat | i < |history| :: InTurn(job, draw, planned, start, history, i)
  }

  function Results(job: Job, history: seq<Turn>): (results: seq<Result>)
    ensures |results| == |history|
  {
    seq(|history|, i requires 0 <= i < |history| => Kept(history[i].Result(job)))
  }

  predicate OtherLinks(history: seq<Turn>) {
    exists turn <- history :: turn.OtherLinks()
  }

  /** The results of a run that never began: every entry failed, last first, with the same message. */
  function Failures(message: Text, planned: seq<Entry>): (results: seq<Result>)
    ensures |results| == |planned|
  {
    seq(|planned|, i requires 0 <= i < |planned| =>
      Kept(Result(planned[|planned| - 1 - i], Verdict.Failed(Bounded(message)))))
  }

  /** How a run ended. */
  datatype Ending = Complete | PlanUnreadable(marker: Result) | ResultsFull

  /** A marker says that the plan could not be read, and why. */
  ghost predicate Marked(job: Job, ending: Ending) {
    ending.PlanUnreadable? ==> exists error :: ending.marker == Kept(job.Marker(error))
  }

  datatype DeletionReport = DeletionReport(entries: DeletionEntries, softCancelled: bool, precise: bool)
  {
    predicate TargetWasRemoved() {
      !softCancelled && precise && entries.complete && entries.targetRemoved
    }
  }

  /** What happened in a run: its turns if it began, the results of the entries it came to, and its end. */
  datatype Account = Account(started: bool, history: seq<Turn>, sent: seq<Result>, ending: Ending)
  {
    /** The results that were counted, the marker of an unreadable plan among them. */
    function Noted(): seq<Result> {
      if ending.PlanUnreadable? then sent + [ending.marker] else sent
    }
  }

  /** What a report says of a run. Every counted result is in it, but for the last one if that could not
      be stored. */
  ghost predicate Tells(report: DeletionReport, account: Account, entries: nat, target: seq<Name>, last: World)
    reads report.entries
  {
    var told, ending := report.entries, account.ending;
    && told.summary == Noted(account.Noted()).(otherLinks := OtherLinks(account.history))
    && (told.targetRemoved <==> exists r <- account.Noted() :: RemovesTarget(r, target))
    && told.complete == ending.Complete? && |account.sent| <= entries
    && (ending.Complete? ==> told.results == account.sent && |account.sent| == entries)
    && (ending.ResultsFull? ==> account.sent != [] && told.results == account.sent[..|account.sent| - 1])
    && (ending.PlanUnreadable? ==> told.results == account.Noted() || told.results == account.sent)
    && report.softCancelled == (account.started && last.soft)
    && report.precise == (ending.Complete? && !(account.started && last.hard))
  }

  // ---- the run ----

  lemma SoftChanges(draw: nat -> Option<Name>, a: World, b: World, entry: Entry, attempt: Attempt)
    requires Evolved(a, b.(soft := true)) && attempt.outcome == Outcome.Unattempted
    requires EntryLogged(a, b, entry.snapshot, attempt.outcome)
    requires LinksKnown(a, b, entry.snapshot, attempt)
    requires EntrySettled(a, b, entry, attempt.outcome) && Reasoned(a, b, draw, entry, attempt.outcome)
    requires attempt.refused <==> ExchangeRefused(attempt.outcome)
    requires Clean(a.script) && Ready(a, draw, entry) ==> Unhindered(a, b, entry.snapshot, attempt)
    ensures Executed(draw, a, b.(soft := true), entry, attempt)
  {
  }

  /** One entry's turn. */
  method TakeTurn(v: Volume, job: Job, entry: Entry, stopped: bool) returns (attempt: Option<Attempt>, ghost turn: Turn)
    requires v.w.Valid() && entry.path != []
    modifies v
    ensures v.w.Valid() && Paused(old(v.w), turn.before) && turn.after == v.w && TurnTaken(v.draw, turn)
    ensures turn.entry == entry && turn.attempt == attempt
    ensures attempt.None? <==> stopped || turn.before.soft || turn.before.hard
  {
    hide Bound, FactsKept, Fs.Valid, World.Valid, Evolved, Quiet, Clean, Faultless, Undenied, Ready, EntryLogged;
    hide LinksKnown, EntrySettled, Reasoned;
    hide Unhindered, OwnKept;
    Evolution();
    var paused := v.Pass(None);
    ghost var before := v.w;
    if stopped || v.w.soft || v.w.hard {
      return None, Turn(before, v.w, entry, None);
    }
    var a := ExecuteEntry(v, entry);
    if a.outcome == Outcome.Unattempted {
      ghost var done := v.w;
      v.w := v.w.(soft := true);
      SoftEvolves(done);
      SoftChanges(v.draw, before, done, entry, a);
    }
    attempt, turn := Some(a), Turn(before, v.w, entry, Some(a));
  }

  // ---- what a run sends to the report ----

  /** The results and the plan are apart, and apart from the volume. */
  ghost predicate Apart(v: Volume, plan: PlanEntries, results: ResultCollector)
    reads plan, results
  {
    plan.Repr() !! results.Repr() && v !in plan.Repr() && v !in results.Repr()
  }

  lemma RoomForFirst(results: ResultCollector, entries: seq<Entry>)
    requires entries != [] && results.HasRoomFor(entries)
    ensures results.HasRoomFor([entries[0]])
  {
    hide Format.Capacity, ResultBound;
    FirstShare(results.format, entries);
    assert entries[0] in entries;
  }

  lemma {:induction false} FirstShare(format: Format, entries: seq<Entry>)
    requires entries != []
    ensures TotalCapacity(format, [entries[0]]) <= TotalCapacity(format, entries)
    ensures TotalBound(format, [entries[0]]) <= TotalBound(format, entries)
  {
    if |entries| == 1 {
      assert entries == [entries[0]];
    } else {
      FirstShare(format, entries[..|entries| - 1]);
    }
  }

  /** In a file, the marker of an unreadable plan was stored exactly if it fits after what was reported. */
  ghost predicate StoredIfFits(results: ResultCollector, reserved: nat, sent: seq<Result>, ending: Ending)
    reads results
  {
    results.spill != null && ending.PlanUnreadable? ==>
      (results.results == results.noted <==> Storable(results.format, reserved, sent, ending.marker))
  }

  lemma FitsIsStorable(results: ResultCollector, kept: Result)
    requires results.spill != null
    ensures results.Fits(kept) == Storable(results.format, results.Reserved(), results.results, kept)
  {
  }

  /** Reports that the plan could not be read any further. */
  method Mark(job: Job, results: ResultCollector, error: PlanError, ghost left: seq<Entry>, ghost planned: seq<Entry>)
    returns (marker: Result)
    requires results.Valid() && results.results == results.noted
    requires left <= planned && (planned != [] ==> planned[0] == Entry.Entry(job.target, job.root))
    modifies results.Repr()
    ensures results.Valid() && results.spill == old(results.spill)
    ensures marker == Kept(job.Marker(error)) && results.noted == old(results.noted) + [marker]
    ensures results.summary.otherLinks == old(results.summary.otherLinks)
    ensures results.results == results.noted || results.results == old(results.results)
    ensures left != [] && old(results.HasRoomFor(left)) ==> results.results == results.noted
    ensures old(results.Steady()) ==>
      StoredIfFits(results, old(results.Reserved()), old(results.results), PlanUnreadable(marker))
  {
    if results.spill != null { FitsIsStorable(results, Kept(job.Marker(error))); }
    hide RecordSpill.Valid, ResultCollector.Valid, ResultCollector.HasRoomFor, ResultCollector.Steady, Kept;
    hide ResultCollector.Fits, Storable, ResultCollector.Reserved;
    marker := BoundDetail(job.Marker(error));
    ghost var first := Entry.Entry(job.target, job.root);
    if left != [] && results.HasRoomFor(left) {
      RoomForFirst(results, left);
      assert [] + [first] == [left[0]];
    }
    var e := results.Push(job.Marker(error), first, []);
  }

  lemma PausedTwice(a: World, b: World, c: World)
    requires a.Valid() && Paused(a, b) && Paused(b, c)
    ensures Paused(a, c)
  {
    hide Fs.Valid, World.Valid, Evolved, Quiet, Clean, Faultless, Undenied;
    Evolution();
  }

  lemma PausedSelf(a: World)
    requires a.Valid()
    ensures Paused(a, a)
  {
    EvolvedSelf(a);
  }

  lemma RunBegins(job: Job, draw: nat -> Option<Name>, planned: seq<Entry>, start: World)
    requires start.Valid()
    ensures IsRun(job, draw, planned, start, [], start)
  {
    PausedSelf(start);
  }

  lemma TakenIsValid(draw: nat -> Option<Name>, turn: Turn)
    requires TurnTaken(draw, turn)
    ensures turn.after.Valid()
  {
  }

  lemma RunGoesOn(job: Job, draw: nat -> Option<Name>, planned: seq<Entry>, start: World, history: seq<Turn>, now: World,
                  turn: Turn)
    requires IsRun(job, draw, planned, start, history, now) && |history| < |planned|
    requires Paused(now, turn.before) && TurnTaken(draw, turn)
    requires turn.entry == planned[|planned| - 1 - |history|]
    requires turn.attempt.None? <==> Stopped(job, history + [turn], |history|)
    ensures IsRun(job, draw, planned, start, history + [turn], turn.after)
  {
    hide World.Valid, Paused, TurnTaken, Turn.Halts;
    TakenIsValid(draw, turn);
    PausedSelf(turn.after);
    if |history| > 0 {
      assert InTurn(job, draw, planned, start, history, |history| - 1);
      TakenIsValid(draw, history[|history| - 1]);
    }
    PausedTwice(WorldAt(start, history, |history|), now, turn.before);
    TurnsKept(job, start, history, turn);
    forall i: nat | i < |history| + 1
      ensures InTurn(job, draw, planned, start, history + [turn], i)
    {
      assert i < |history| ==> InTurn(job, draw, planned, start, history, i);
    }
  }

  lemma TurnsKept(job: Job, start: World, history: seq<Turn>, turn: Turn)
    ensures forall i | 0 <= i < |history| ::
      && (history + [turn])[i] == history[i] && Stopped(job, history + [turn], i) == Stopped(job, history, i)
      && WorldAt(start, history + [turn], i) == WorldAt(start, history, i)
    ensures WorldAt(start, history + [turn], |history|) == WorldAt(start, history, |history|)
  {
  }

  lemma ResultsGrow(job: Job, history: seq<Turn>, turn: Turn)
    ensures Results(job, history + [turn]) == Results(job, history) + [Kept(turn.Result(job))]
    ensures OtherLinks(history + [turn]) <==> OtherLinks(history) || turn.OtherLinks()
  {
    hide Kept, Turn.Result, Turn.OtherLinks;
    var longer := history + [turn];
    assert forall t <- longer :: t in history || t == turn;
    assert forall t <- history :: t in longer;
    assert turn in longer;
  }

  lemma NoTurns(job: Job)
    ensures Results(job, []) == [] && !OtherLinks([]) && !HaltedBy(job, [])
  {
  }

  /** What has reached the collector when the run ends. */
  ghost predicate Sent(results: ResultCollector, sent: seq<Result>, otherLinks: bool, ending: Ending, entries: nat)
    reads results
  {
    && results.noted == (if ending.PlanUnreadable? then sent + [ending.marker] else sent)
    && results.summary.otherLinks == otherLinks && |sent| <= entries
    && (ending.Complete? ==> |sent| == entries && results.results == sent)
    && (ending.ResultsFull? ==> sent != [] && results.results == sent[..|sent| - 1])
    && (ending.PlanUnreadable? ==> results.results == results.noted || results.results == sent)
  }

  /** The room for results ran out: for an entry, or for the marker while an entry was still to come. */
  ghost predicate Short(results: ResultCollector, sent: seq<Result>, ending: Ending, entries: nat)
    reads results
  {
    ending.ResultsFull? || (ending.PlanUnreadable? && |sent| < entries && results.results != results.noted)
  }

  lemma SameTexts(job: Job, turn: Turn)
    ensures SameButLinks(turn.entry, turn.Result(job).entry)
  {
  }

  /** Reports one turn. */
  method Report(job: Job, results: ResultCollector, entry: Entry, attempt: Option<Attempt>, ghost turn: Turn,
                ghost rest: seq<Entry>)
    returns (e: Option<SpillError>)
    requires results.Valid() && results.results == results.noted
    requires turn.entry == entry && turn.attempt == attempt
    modifies results.Repr()
    ensures results.Valid() && results.spill == old(results.spill)
    ensures results.noted == old(results.noted) + [Kept(turn.Result(job))]
    ensures results.results == if e.None? then results.noted else old(results.results)
    ensures results.summary.otherLinks == (old(results.summary.otherLinks) || turn.OtherLinks())
    ensures old(results.HasRoomFor(rest + [entry])) ==> e.None? && results.HasRoomFor(rest)
    ensures old(results.Steady()) ==> results.Steady()
    ensures results.Reserved() == old(results.Reserved())
  {
    hide RecordSpill.Valid, ResultCollector.Valid, Kept;
    var result := Result(entry, Verdict.Unattempted);
    if attempt.Some? {
      var a := attempt.value;
      if WithOtherLinks(entry.snapshot.kind, a) {
        results.NoteOtherLinks();
      }
      var links := KeptLinks(entry.snapshot.kind, a);
      result := Result(entry.(snapshot := entry.snapshot.(links := links)), VerdictOf(job, entry, a.outcome));
    }
    assert result == turn.Result(job);
    SameTexts(job, turn);
    e := results.Push(result, entry, rest);
  }

  lemma HaltedBefore(job: Job, history: seq<Turn>, turn: Turn)
    ensures Stopped(job, history + [turn], |history|) <==>
            turn.before.soft || turn.before.hard || HaltedBy(job, history)
  {
  }

  predicate HaltedBy(job: Job, history: seq<Turn>) {
    history != [] && history[|history| - 1].Halts(job)
  }

  /** The collector has the results of these turns. */
  ghost predicate Told(job: Job, results: ResultCollector, history: seq<Turn>)
    reads results, results.spill
  {
    && results.Valid() && results.noted == Results(job, history)
    && results.summary.otherLinks == OtherLinks(history)
  }

  /** One entry's turn, and its report. */
  method NextTurn(v: Volume, results: ResultCollector, job: Job, entry: Entry, stopped: bool, ghost planned: seq<Entry>,
                  ghost start: World, ghost history: seq<Turn>, ghost rest: seq<Entry>)
    returns (e: Option<SpillError>, halted: bool, ghost longer: seq<Turn>)
    requires v.w.Valid() && v !in results.Repr()
    requires IsRun(job, v.draw, planned, start, history, v.w)
    requires rest + [entry] <= planned && |rest| + 1 + |history| == |planned| && entry.path != []
    requires stopped == HaltedBy(job, history)
    requires Told(job, results, history) && results.results == results.noted
    modifies v, results.Repr()
    ensures v.w.Valid() && |longer| == |history| + 1 && results.spill == old(results.spill)
    ensures IsRun(job, v.draw, planned, start, longer, v.w)
    ensures Told(job, results, longer)
    ensures results.results == if e.None? then results.noted else old(results.noted)
    ensures |results.noted| > 0 && old(results.noted) == results.noted[..|results.noted| - 1]
    ensures halted == HaltedBy(job, longer)
    ensures old(results.HasRoomFor(rest + [entry])) ==> e.None? && results.HasRoomFor(rest)
    ensures old(results.Steady()) ==> results.Steady()
    ensures results.Reserved() == old(results.Reserved())
  {
    hide RecordSpill.Valid, Fs.Valid, World.Valid, Evolved, TurnTaken, Paused, IsRun, Kept, Bound, Stopped;
    hide ResultCollector.Steady;
    hide Turn.Result, Turn.OtherLinks, OtherLinks, Results, ResultCollector.HasRoomFor, ResultCollector.Valid, HaltedBy;
    ghost var now := v.w;
    assert planned[|planned| - 1 - |history|] == (rest + [entry])[|rest|] == entry;
    ghost var turn;
    var attempt;
    attempt, turn := TakeTurn(v, job, entry, stopped);
    HaltedBefore(job, history, turn);
    RunGoesOn(job, v.draw, planned, start, history, now, turn);
    ResultsGrow(job, history, turn);
    e := Report(job, results, entry, attempt, turn, rest);
    halted, longer := Halted(job, entry, attempt), history + [turn];
    HaltedLast(job, history, turn);
  }

  /** The entry whose turn it is, if any is left. */
  method NextEntry(plan: PlanEntries, target: seq<Name>) returns (r: Answer<Option<Entry>, PlanError>)
    requires plan.Valid()
    modifies plan.Repr()
    ensures plan.Valid() && plan.spill == old(plan.spill)
    ensures r == Ok(None) ==> plan.contents == old(plan.contents) == []
    ensures r.Ok? && r.value.Some? ==>
      old(plan.contents) == plan.contents + [r.value.value] && r.value.value.path != []
    ensures old(plan.Untroubled()) ==> plan.Untroubled()
    ensures old(plan.Untroubled()) && (forall e <- old(plan.contents) :: UnderTarget(target, e.path)) ==> r.Ok?
  {
    hide RecordSpill.Valid, PlanEntries.Valid, PlanEntries.Untroubled, UnderTarget;
    r := plan.PopReverse(target);
    if r.Ok? && r.value.Some? { UnderIsNamed(target, r.value.value.path); }
  }

  /** The turns of a run, up to its end. */
  method RunTurns(v: Volume, plan: PlanEntries, results: ResultCollector, job: Job, ghost start: World)
    returns (ghost history: seq<Turn>, ending: Ending)
    requires v.w.Valid() && plan.Valid() && results.Valid() && Apart(v, plan, results)
    requires results.results == results.noted == [] && !results.summary.otherLinks
    requires plan.contents != [] ==> plan.contents[0] == Entry.Entry(job.target, job.root)
    requires IsRun(job, v.draw, plan.contents, start, [], v.w)
    modifies v, plan.Repr(), results.Repr()
    ensures v.w.Valid() && results.Valid()
    ensures IsRun(job, v.draw, old(plan.contents), start, history, v.w)
    ensures Sent(results, Results(job, history), OtherLinks(history), ending, |old(plan.contents)|)
    ensures old(results.HasRoomFor(plan.contents)) ==>
      !Short(results, Results(job, history), ending, |old(plan.contents)|)
    ensures old(plan.Untroubled()) && (forall e <- old(plan.contents) :: UnderTarget(job.target, e.path)) ==>
      !ending.PlanUnreadable?
    ensures Marked(job, ending) && results.spill == old(results.spill)
    ensures old(results.Steady()) && ending.PlanUnreadable? ==>
      StoredIfFits(results, old(results.Reserved()), Results(job, history), ending)
  {
    hide Format.Lawful, RecordSpill.Valid, Fs.Valid, World.Valid, TurnTaken, IsRun, Kept, Bound, UnderTarget;
    hide ResultCollector.Steady, ResultCollector.Reserved, StoredIfFits;
    hide Turn.Result, Turn.OtherLinks, OtherLinks, Results, ResultCollector.HasRoomFor, ResultCollector.Valid;
    hide PlanEntries.Valid;
    hide HaltedBy, PlanEntries.Untroubled;
    ghost var planned, room := plan.contents, results.HasRoomFor(plan.contents);
    ghost var safe := plan.Untroubled() && forall e <- planned :: UnderTarget(job.target, e.path);
    history := [];
    NoTurns(job);
    var stopped := false;
    while true
      invariant v.w.Valid() && plan.Valid()
      invariant plan.spill == old(plan.spill) && results.spill == old(results.spill)
      invariant |history| <= |planned| && plan.contents == planned[..|planned| - |history|]
      invariant IsRun(job, v.draw, planned, start, history, v.w)
      invariant Told(job, results, history) && results.results == results.noted
      invariant stopped == HaltedBy(job, history)
      invariant room ==> results.HasRoomFor(plan.contents)
      invariant safe ==> plan.Untroubled()
      invariant old(results.Steady()) ==> results.Steady()
      invariant results.Reserved() == old(results.Reserved())
      decreases |planned| - |history|
    {
      ghost var left := plan.contents;
      var next := NextEntry(plan, job.target);
      if next.Err? {
        var marker := Mark(job, results, next.error, left, planned);
        ending := PlanUnreadable(marker);
        return;
      }
      if next.value.None? {
        ending := Complete;
        return;
      }
      var e;
      e, stopped, history := NextTurn(v, results, job, next.value.value, stopped, planned, start, history, plan.contents);
      if e.Some? {
        ending := ResultsFull;
        return;
      }
    }
  }

  lemma HaltedLast(job: Job, history: seq<Turn>, turn: Turn)
    ensures Halted(job, turn.entry, turn.attempt) == HaltedBy(job, history + [turn])
  {
  }

  lemma UnderIsNamed(target: seq<Name>, path: seq<Name>)
    requires UnderTarget(target, path)
    ensures path != []
  {
  }

  lemma FailuresNext(message: Text, planned: seq<Entry>, sent: seq<Result>, rest: seq<Entry>, entry: Entry)
    requires sent <= Failures(message, planned) && |sent| < |planned|
    requires planned[..|planned| - |sent|] == rest + [entry]
    ensures sent + [Kept(Result(entry, Verdict.Failed(Bounded(message))))] <= Failures(message, planned)
    ensures rest == planned[..|planned| - |sent| - 1]
  {
    hide Kept;
    assert planned[..|planned| - |sent|][|planned| - |sent| - 1] == entry;
    assert planned[..|planned| - |sent|][..|rest|] == rest;
  }

  lemma NoFailures(message: Text, planned: seq<Entry>)
    ensures [] <= Failures(message, planned) && planned[..|planned|] == planned
  {
  }

  /** Reports one entry failed. */
  method FailEntry(results: ResultCollector, entry: Entry, bounded: Text, ghost message: Text,
                   ghost planned: seq<Entry>, ghost sent: seq<Result>, ghost rest: seq<Entry>)
    returns (e: Option<SpillError>, ghost longer: seq<Result>)
    requires results.Valid() && results.results == results.noted == sent && bounded == Bounded(message)
    requires sent <= Failures(message, planned) && |sent| < |planned|
    requires planned[..|planned| - |sent|] == rest + [entry]
    modifies results.Repr()
    ensures results.Valid() && results.spill == old(results.spill)
    ensures |longer| == |sent| + 1 && longer[..|sent|] == sent && longer <= Failures(message, planned)
    ensures rest == planned[..|planned| - |longer|]
    ensures results.noted == longer && results.results == if e.None? then longer else sent
    ensures results.summary.otherLinks == old(results.summary.otherLinks)
    ensures old(results.HasRoomFor(rest + [entry])) ==> e.None? && results.HasRoomFor(rest)
    ensures old(results.Steady()) ==> results.Steady()
    ensures results.Reserved() == old(results.Reserved())
  {
    hide RecordSpill.Valid, Kept, Failures, Bounded, ResultCollector.HasRoomFor, ResultCollector.Valid;
    hide ResultCollector.Steady;
    FailuresNext(message, planned, sent, rest, entry);
    e := results.Push(Result(entry, Verdict.Failed(bounded)), entry, rest);
    longer := sent + [Kept(Result(entry, Verdict.Failed(bounded)))];
  }

  /** Reports that no entry was attempted, because the run could not begin. */
  method ReportFailed(plan: PlanEntries, results: ResultCollector, job: Job, message: Text)
    returns (ghost sent: seq<Result>, ending: Ending)
    requires plan.Valid() && results.Valid() && plan.Repr() !! results.Repr()
    requires results.results == results.noted == []
    requires plan.contents != [] ==> plan.contents[0] == Entry.Entry(job.target, job.root)
    modifies plan.Repr(), results.Repr()
    ensures results.Valid() && sent <= Failures(message, old(plan.contents))
    ensures Sent(results, sent, old(results.summary.otherLinks), ending, |old(plan.contents)|)
    ensures old(results.HasRoomFor(plan.contents)) ==> !Short(results, sent, ending, |old(plan.contents)|)
    ensures old(plan.Untroubled()) && (forall e <- old(plan.contents) :: UnderTarget(job.target, e.path)) ==>
      !ending.PlanUnreadable?
    ensures Marked(job, ending) && results.spill == old(results.spill)
    ensures old(results.Steady()) && ending.PlanUnreadable? ==>
      StoredIfFits(results, old(results.Reserved()), sent, ending)
  {
    hide Format.Lawful, RecordSpill.Valid, Kept, UnderTarget, Failures, Bounded, ResultCollector.Steady;
    hide ResultCollector.Reserved, StoredIfFits;
    hide ResultCollector.HasRoomFor, ResultCollector.Valid, PlanEntries.Valid, PlanEntries.Untroubled;
    ghost var planned, room, links := plan.contents, results.HasRoomFor(plan.contents), results.summary.otherLinks;
    ghost var safe := plan.Untroubled() && forall e <- planned :: UnderTarget(job.target, e.path);
    var bounded := BoundedDetail(message);
    NoFailures(message, planned);
    sent := [];
    while true
      invariant plan.Valid() && results.Valid()
      invariant plan.spill == old(plan.spill) && results.spill == old(results.spill)
      invariant |sent| <= |planned| && plan.contents == planned[..|planned| - |sent|]
      invariant sent <= Failures(message, planned) && results.results == results.noted == sent
      invariant results.summary.otherLinks == links
      invariant room ==> results.HasRoomFor(plan.contents)
      invariant safe ==> plan.Untroubled()
      invariant old(results.Steady()) ==> results.Steady()
      invariant results.Reserved() == old(results.Reserved())
      decreases |planned| - |sent|
    {
      ghost var left := plan.contents;
      var next := NextEntry(plan, job.target);
      if next.Err? {
        var marker := Mark(job, results, next.error, left, planned);
        ending := PlanUnreadable(marker);
        return;
      }
      if next.value.None? {
        ending := Complete;
        return;
      }
      var e;
      e, sent := FailEntry(results, next.value.value, bounded, message, planned, sent, plan.contents);
      if e.Some? {
        ending := ResultsFull;
        return;
      }
    }
  }

  lemma RunWaits(job: Job, draw: nat -> Option<Name>, planned: seq<Entry>, start: World, history: seq<Turn>, now: World,
                 later: World)
    requires IsRun(job, draw, planned, start, history, now) && Paused(now, later)
    ensures IsRun(job, draw, planned, start, history, later)
  {
    hide World.Valid, Paused, TurnTaken, Stopped;
    if |history| > 0 {
      assert InTurn(job, draw, planned, start, history, |history| - 1);
      TakenIsValid(draw, history[|history| - 1]);
    }
    PausedTwice(WorldAt(start, history, |history|), now, later);
  }

  /** The room that was reserved while the plan was made is enough for every result of it. */
  lemma RoomReserved(storage: PlanningStorage, results: ResultCollector)
    requires storage.Valid() && storage.Untroubled()
    requires results.Valid() && results.results == [] && results.estimatedBytes == 0
    requires results.format == storage.results.format && results.maximumBytes == storage.results.maximumBytes
    requires results.spill == storage.results.spill
    ensures results.HasRoomFor(storage.entries.contents)
  {
    hide Format.Lawful, TotalCapacity, TotalBound, Recordable;
    if results.spill != null { EmptyLog(); }
  }

  /** What a run is, from a plan and the room reserved for it to the report. */
  ghost predicate Runs(job: Job, draw: nat -> Option<Name>, planned: seq<Entry>, a: World, b: World,
                       report: DeletionReport, account: Account)
    reads report.entries
  {
    && IsRun(job, draw, planned, a, account.history, b)
    && (account.started ==> account.sent == Results(job, account.history))
    && (!account.started ==> account.history == [] && exists message :: account.sent <= Failures(message, planned))
    && Tells(report, account, |planned|, job.target, b) && Marked(job, account.ending)
  }

  /** The run ended for want of room for a result, or of the marker while an entry's share was unused. */
  ghost predicate RanShort(report: DeletionReport, account: Account, entries: nat) {
    || account.ending.ResultsFull?
    || (account.ending.PlanUnreadable? && |account.sent| < entries && report.entries.results != account.Noted())
  }

  lemma NoTurnsYet(job: Job, draw: nat -> Option<Name>, planned: seq<Entry>, start: World, now: World)
    requires start.Valid() && Paused(start, now)
    ensures IsRun(job, draw, planned, start, [], now)
  {
    RunBegins(job, draw, planned, start);
    RunWaits(job, draw, planned, start, [], start, now);
  }

  /** Executes the entries, or fails all of them when the root cannot be opened or the plan be read. */
  method ExecuteEntries(v: Volume, plan: PlanEntries, results: ResultCollector, job: Job)
    returns (started: bool, ending: Ending, ghost account: Account)
    requires v.w.Valid() && plan.Valid() && results.Valid() && Apart(v, plan, results)
    requires results.results == results.noted == [] && !results.summary.otherLinks
    requires plan.contents != [] ==> plan.contents[0] == Entry.Entry(job.target, job.root)
    modifies v, plan.Repr(), results.Repr()
    ensures v.w.Valid() && results.Valid() && account.started == started && account.ending == ending
    ensures IsRun(job, v.draw, old(plan.contents), old(v.w), account.history, v.w)
    ensures started ==> account.sent == Results(job, account.history)
    ensures !started ==> account.history == []
    ensures !started ==> exists message :: account.sent <= Failures(message, old(plan.contents))
    ensures Sent(results, account.sent, OtherLinks(account.history), account.ending, |old(plan.contents)|)
    ensures old(results.HasRoomFor(plan.contents)) ==>
      !Short(results, account.sent, account.ending, |old(plan.contents)|)
    ensures old(plan.Untroubled()) && AllUnder(job.target, old(plan.contents)) ==>
      !account.ending.PlanUnreadable? && (Clean(old(v.w).script) ==> started)
    ensures Marked(job, ending) && results.spill == old(results.spill)
    ensures old(results.Steady()) && ending.PlanUnreadable? ==>
      StoredIfFits(results, old(results.Reserved()), account.sent, ending)
  {
    hide ResultCollector.Steady, ResultCollector.Reserved, StoredIfFits, Marked;
    hide Format.Lawful, RecordSpill.Valid, Fs.Valid, World.Valid, IsRun, Kept, Bound, UnderTarget, Sent, Short;
    hide OtherLinks, Results, Failures, ResultCollector.HasRoomFor, ResultCollector.Valid, PlanEntries.Valid;
    hide PlanEntries.Untroubled, Evolved, OwnKept, Quiet, Clean, Faultless, Undenied;
    ghost var start, planned := v.w, plan.contents;
    NoTurns(job);
    var opening := v.Pass(None);
    NoTurnsYet(job, v.draw, planned, start, v.w);
    var failure: Option<Text> := None;
    if opening.fault.Some? {
      failure := Some(job.unopened);
    } else {
      var any := (e: Entry) => None;
      NoProblem(planned, job.target, any);
      var problem := plan.TryForEach(job.target, any);
      if problem.Some? { failure := Some(job.trouble(problem.value)); }
    }
    started := failure.None?;
    if !started {
      ghost var sent;
      sent, ending := ReportFailed(plan, results, job, failure.value);
      account := Account(false, [], sent, ending);
    } else {
      ghost var history;
      history, ending := RunTurns(v, plan, results, job, start);
      account := Account(true, history, Results(job, history), ending);
    }
  }

  lemma FormatsAgree(storage: PlanningStorage)
    requires storage.Valid()
    ensures storage.entries.Valid() && storage.results.Valid()
    ensures storage.entries.Repr() !! storage.results.Repr()
    ensures storage.Untroubled() ==> storage.entries.Untroubled()
    ensures storage.entries.format == storage.results.format
  {
  }

  lemma RoomIfReserved(storage: PlanningStorage, results: ResultCollector)
    requires storage.Valid()
    requires results.Valid() && results.results == [] && results.estimatedBytes == 0
    requires results.format == storage.results.format && results.maximumBytes == storage.results.maximumBytes
    requires results.spill == storage.results.spill
    ensures storage.Untroubled() ==> results.HasRoomFor(storage.entries.contents)
  {
    hide PlanningStorage.Valid, ResultCollector.HasRoomFor, PlanningStorage.Untroubled, ResultCollector.Valid;
    if storage.Untroubled() { RoomReserved(storage, results); }
  }

  lemma TellsAll(report: DeletionReport, results: ResultCollector, account: Account, entries: nat, last: World)
    requires results.Valid() && Sent(results, account.sent, OtherLinks(account.history), account.ending, entries)
    requires report.entries.results == results.results && report.entries.complete == account.ending.Complete?
    requires report.entries.summary == results.summary && report.entries.targetRemoved == results.targetRemoved
    requires report.softCancelled == (account.started && last.soft)
    requires report.precise == (account.ending.Complete? && !(account.started && last.hard))
    ensures Tells(report, account, entries, results.target, last)
    ensures RanShort(report, account, entries) == Short(results, account.sent, account.ending, entries)
    ensures results.noted == account.Noted()
  {
    hide RemovesTarget, Noted, OtherLinks, RecordSpill.Valid;
  }

  /** The marker of an unreadable plan is in the report exactly if it fits, after the results, in the room
      that was reserved for the plan. */
  ghost predicate MarkerToldIfFits(report: DeletionReport, account: Account, format: Format, planned: seq<Entry>)
    reads report.entries
  {
    account.ending.PlanUnreadable? ==>
      (report.entries.results == account.Noted() <==>
       Storable(format, TotalCapacity(format, planned), account.sent, account.ending.marker))
  }

  lemma MarkerTold(report: DeletionReport, account: Account, results: ResultCollector, format: Format,
                   planned: seq<Entry>, ending: Ending)
    requires report.entries.results == results.results && results.noted == account.Noted()
    requires account.ending == ending && results.format == format
    ensures results.spill != null && (ending.PlanUnreadable? ==>
        StoredIfFits(results, TotalCapacity(format, planned), account.sent, ending)) ==>
      MarkerToldIfFits(report, account, format, planned)
  {
    hide Storable, TotalCapacity;
  }

  /** The report of a run that has ended in this world. */
  method FinishReport(last: World, results: ResultCollector, started: bool, ending: Ending, ghost account: Account,
                      ghost planned: seq<Entry>)
    returns (report: DeletionReport)
    requires results.Valid() && account.started == started && account.ending == ending
    requires Sent(results, account.sent, OtherLinks(account.history), account.ending, |planned|)
    ensures report.entries.Valid() && Tells(report, account, |planned|, results.target, last)
    ensures RanShort(report, account, |planned|) == Short(results, account.sent, account.ending, |planned|)
    ensures results.spill != null && (ending.PlanUnreadable? ==>
        StoredIfFits(results, TotalCapacity(results.format, planned), account.sent, ending)) ==>
      MarkerToldIfFits(report, account, results.format, planned)
  {
    hide ResultCollector.Valid, Storable, TotalCapacity, MarkerToldIfFits, StoredIfFits, Sent, Short, Tells;
    hide RanShort, DeletionEntries.Valid;
    var entries := new DeletionEntries(results, ending.Complete?);
    report := DeletionReport(entries, started && last.soft, ending.Complete? && !(started && last.hard));
    TellsAll(report, results, account, |planned|, last);
    MarkerTold(report, account, results, results.format, planned, ending);
  }

  /** Executes a plan and reports on it. */
  method ExecutePlan(v: Volume, storage: PlanningStorage, job: Job)
    returns (report: DeletionReport, ghost account: Account)
    requires v.w.Valid() && storage.Valid() && v !in storage.Repr()
    requires storage.entries.contents != [] ==> storage.entries.contents[0] == Entry.Entry(job.target, job.root)
    modifies v, storage.Repr()
    ensures v.w.Valid() && report.entries.Valid()
    ensures Runs(job, v.draw, old(storage.entries.contents), old(v.w), v.w, report, account)
    ensures old(storage.Untroubled()) ==> !RanShort(report, account, |old(storage.entries.contents)|)
    ensures old(storage.Untroubled()) && AllUnder(job.target, old(storage.entries.contents)) ==>
      account.ending.Complete? && (Clean(old(v.w).script) ==> account.started)
    ensures old(storage.Spilled()) ==>
      MarkerToldIfFits(report, account, storage.entries.format, old(storage.entries.contents))
  {
    hide ResultCollector.Steady, ResultCollector.Reserved, Storable, Marked, PlanningStorage.Spilled, TotalCapacity;
    hide MarkerToldIfFits, StoredIfFits;
    hide RecordSpill.Valid, Fs.Valid, World.Valid, IsRun, Sent, Short, Tells, UnderTarget, Clean, OtherLinks, Results;
    hide PlannedResultStorage.Valid, PlanEntries.Valid, ResultCollector.Valid, PlanningStorage.Valid;
    hide ResultCollector.HasRoomFor;
    hide PlanningStorage.Untroubled, PlanEntries.Untroubled, AllUnder, Failures;
    FormatsAgree(storage);
    ghost var planned := storage.entries.contents;
    if storage.Spilled() { storage.SpilledMeans(); }
    var results := new ResultCollector(storage.results, job.target);
    RoomIfReserved(storage, results);
    var started, ending;
    started, ending, account := ExecuteEntries(v, storage.entries, results, job);
    report := FinishReport(v.w, results, started, ending, account, planned);
  }
}
