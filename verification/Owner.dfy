/** The owner of the map: publications it is owed by the store thread, removals to be taken out of the map
    one overlay at a time, and rebuilds when a removal cannot be described. Store results, deletions, scans
    and cancellations reach it in any order. */
module Owner {
  import opened Outcomes
  import FileSystem

  type Path = seq<FileSystem.Name>

  const MAX_REMOVALS_BEFORE_FIRST_MAP := 8
  const MAX_REMOVED_BUT_LISTED := 32

  /** A deletion that removed something: its target unless that was the scan root, whether an overlay can
      describe it, and whether it finished before the first map was shown. */
  datatype Removal = Removal(prefix: Option<Path>, described: bool, beforeMap: bool)

  /** A map with where it came from: the scan it is of, counted from the first; how many removals had been
      made when that scan began; what the scan found; and the removals taken out of it since. */
  datatype Map = Map(serial: nat, from: nat, base: set<Path>, without: seq<nat>, paths: set<Path>)

  datatype Pending = Primary | Rebuild | Overlay(prefix: Path)

  datatype Finished = PrimaryDone | RebuildDone(failed: bool) | RebuildCancelled

  /** What the store thread answers. A generation too large to index leaves the installed map. */
  datatype Reply = Full(found: set<Path>) | SummaryOnly | Refused

  /** What the store thread was asked for. An overlay asked for while a scan's generation is active is
      doomed: the store refuses it. */
  datatype Job = Scan(serial: nat, from: nat) | Derive(base: Map, removal: nat, prefix: Path, doomed: bool)

  datatype Ask = Ask(removal: nat, verifyRoot: bool, later: seq<Path>)

  datatype Report = Report(target: Option<Path>, deleted: bool, whole: bool, otherLinks: bool)

  datatype Removals = Removals(prefixes: seq<Path>, rebuild: bool, excused: bool, recordedBeforeMap: nat)
  {
    predicate IsEmpty() {
      prefixes == [] && !rebuild
    }
  }

  const NO_REMOVALS := Removals([], false, false, 0)

  datatype Refresh = Published | Failed

  function Less(paths: set<Path>, prefix: Path): set<Path> {
    set p <- paths | !(prefix <= p)
  }

  function LessAll(paths: set<Path>, prefixes: seq<Path>): set<Path> {
    if prefixes == [] then paths else Less(LessAll(paths, prefixes[..|prefixes| - 1]), prefixes[|prefixes| - 1])
  }

  /** A path is left exactly when none of the prefixes covers it. */
  lemma {:induction false} LeftOut(paths: set<Path>, prefixes: seq<Path>, p: Path)
    ensures p in LessAll(paths, prefixes) <==> p in paths && forall q <- prefixes :: !(q <= p)
  {
    if prefixes != [] {
      var last := |prefixes| - 1;
      LeftOut(paths, prefixes[..last], p);
      assert forall q <- prefixes :: q in prefixes[..last] || q == prefixes[last];
      assert forall q <- prefixes[..last] :: q in prefixes;
      assert prefixes[last] in prefixes;
    }
  }

  function Prefixes(log: seq<Removal>, removals: seq<nat>): (prefixes: seq<Path>)
    requires forall i <- removals :: i < |log| && log[i].prefix.Some?
    ensures |prefixes| == |removals|
  {
    seq(|removals|, k requires 0 <= k < |removals| => assert removals[k] in removals; log[removals[k]].prefix.value)
  }

  /** The map's content is what its scan found without the removals taken out of it. */
  ghost predicate MapSound(log: seq<Removal>, m: Map) {
    && m.from <= |log|
    && (forall i <- m.without :: i < |log| && log[i].described && log[i].prefix.Some?)
    && m.paths == LessAll(m.base, Prefixes(log, m.without))
  }

  /** The map without a removal. */
  function Derived(m: Map, i: nat, prefix: Path): Map {
    m.(without := m.without + [i], paths := Less(m.paths, prefix))
  }

  lemma DerivedSound(log: seq<Removal>, m: Map, i: nat, prefix: Path)
    requires MapSound(log, m) && i < |log| && log[i].described && log[i].prefix == Some(prefix)
    ensures MapSound(log, Derived(m, i, prefix))
  {
    var longer := m.without + [i];
    assert forall k <- longer :: k in m.without || k == i;
    assert Prefixes(log, longer)[..|m.without|] == Prefixes(log, m.without);
  }

  lemma LoggedSound(log: seq<Removal>, m: Map, r: Removal)
    requires MapSound(log, m)
    ensures MapSound(log + [r], m)
  {
    assert Prefixes(log + [r], m.without) == Prefixes(log, m.without);
  }

  /** The map does not list what this removal took: it was scanned after it, or the removal was taken out. */
  predicate Reflects(m: Map, i: nat) {
    i < m.from || i in m.without
  }

  predicate Matches(begun: Pending, ended: Finished) {
    if begun.Primary? then ended.PrimaryDone? else !ended.PrimaryDone?
  }

  ghost predicate Rising(s: seq<nat>) {
    forall j, k | 0 <= j < k < |s| :: s[j] < s[k]
  }

  function Asked(asks: seq<Ask>): (removed: seq<nat>)
    ensures |removed| == |asks|
  {
    seq(|asks|, k requires 0 <= k < |asks| => asks[k].removal)
  }

  /** The paths whose failures were excused: because of the deletion that is executing, because of one that
      ended as nothing an overlay describes, and because of a removal on record. */
  datatype Excuses = Excuses(now: set<Path>, owed: set<Path>, recorded: set<Path>)
  {
    predicate Has(p: Path) {
      p in now || p in owed || p in recorded
    }

    /** The execution has ended. */
    function After(described: bool): Excuses {
      if described then Excuses({}, owed, recorded + now) else Excuses({}, owed + now, recorded)
    }
  }

  const NO_EXCUSES := Excuses({}, {}, {})

  predicate Takes(r: Removal, p: Path) {
    r.prefix.Some? && r.prefix.value <= p
  }

  /** Each of the paths lies below a removal that was made. */
  ghost predicate TakenBy(paths: set<Path>, log: seq<Removal>) {
    forall p <- paths :: exists r | 0 <= r < |log| :: Takes(log[r], p)
  }

  predicate Executing(executing: Option<Path>, paths: set<Path>) {
    forall p <- paths :: executing.Some? && executing.value <= p
  }

  /** What has happened, for the proofs: what the store was asked for and has not answered, and whether a
      scan's generation is active there; the removals made, those a refresh was reported for, those queued and
      those asked for; the rebuilds begun, and the removals made when the last one began; the publications
      begun and ended; and the failures that were excused. */
  datatype Past = Past(jobs: seq<Job>, storeActive: bool, log: seq<Removal>, answered: nat, queued: seq<nat>,
                       asks: seq<Ask>, rebuilds: nat, rebuildFrom: nat, begun: seq<Pending>, ended: seq<Finished>,
                       excuses: Excuses)

  /** The owner's fields, among them the target of the deletion that is executing and the scans running. */
  datatype State = State(available: bool, loaded: bool, cached: bool, provisional: bool, published: Option<Map>,
                         publications: seq<Pending>, finished: seq<Finished>, required: bool, active: bool,
                         invalidated: bool, suppressed: bool, removals: Removals, refreshOwed: bool,
                         hidden: seq<Path>, executing: Option<Path>, primaryScanning: bool, rebuildScanning: bool,
                         past: Past)
  {
    predicate Retains() {
      !provisional && cached && published.Some?
    }

    predicate FirstMapIsOwed() {
      available && !loaded && published.None? && !required && !active
    }

    predicate RemovalChainPending() {
      available && removals.prefixes != [] && published.Some?
    }

    predicate Busy() {
      publications != [] || finished != [] || RemovalChainPending()
    }

    predicate CanBeDescribed(report: Report) {
      available && report.whole && !report.otherLinks
    }

    // ---- the invariant ----

    /** Something that is owed will see to the removal. */
    ghost predicate Owed(i: nat) {
      !available || required || (active && (invalidated || i < past.rebuildFrom)) || removals.rebuild
    }

    /** The removal is out of the installed map, or queued to be, or something that is owed will see to it. */
    ghost predicate Covered(i: nat) {
      Owed(i) || i in past.queued || Outstanding(past.jobs, i) || (published.Some? && Reflects(published.value, i))
    }

    /** No map is coming, or one from a new scan of the real tree is, or has come. */
    ghost predicate RebuildOwed() {
      !available || required || active || removals.rebuild || (published.Some? && published.value.serial > 0)
    }

    /** The publication is outstanding, or being settled. */
    ghost predicate InFlight(p: Pending, settling: Option<Pending>) {
      p in publications || settling == Some(p)
    }

    ghost predicate Phases(settling: Option<Pending>) {
      && (loaded <==> !primaryScanning && !InFlight(Primary, settling) && finished != [PrimaryDone])
      && (primaryScanning ==> !InFlight(Primary, settling))
      && (primaryScanning || InFlight(Primary, settling) ==> finished == [])
      && (!loaded ==> !active && past.rebuilds == 0)
      && (active <==> rebuildScanning || InFlight(Rebuild, settling) || (finished != [] && finished != [PrimaryDone]))
      && (active ==> past.rebuilds > 0)
      && (rebuildScanning ==> !InFlight(Rebuild, settling))
      && (rebuildScanning || InFlight(Rebuild, settling) ==> finished == [])
      && (active && required ==> invalidated) && (invalidated ==> active) && past.rebuildFrom <= |past.log|
      && (rebuildScanning && !invalidated && available ==> past.storeActive)
    }

    ghost predicate FirstMap(settling: Option<Pending>) {
      && (published.None? && available && !required ==> active || primaryScanning || InFlight(Primary, settling))
      && (primaryScanning || Primary in publications ==> published.None?)
      && (published.None? ==> forall p <- publications :: !p.Overlay?)
      && (finished == [RebuildDone(false)] && !invalidated ==> Refreshed())
    }

    /** The installed map is of the last rebuild's scan. */
    ghost predicate Refreshed() {
      published.Some? && published.value.serial == past.rebuilds && published.value.from == past.rebuildFrom
    }

    /** While a map of the tree is on its way, an overlay is one that the store refuses, and the installed map
        has none that the new one would lose. */
    ghost predicate Overtaken() {
      active && !invalidated && finished == [] ==>
        && (publications != [] && publications[0].Overlay? ==> past.jobs != [] && past.jobs[0].Derive? && past.jobs[0].doomed)
        && (published.Some? ==> forall i <- published.value.without :: i < past.rebuildFrom)
    }

    ghost predicate Debts() {
      && (past.excuses.owed != {} ==> RebuildOwed()) && (past.excuses.now != {} ==> removals.excused || RebuildOwed())
      && Executing(executing, past.excuses.now) && TakenBy(past.excuses.recorded, past.log)
      && past.answered <= |past.log| && (refreshOwed <==> past.answered < |past.log|)
      && |hidden| <= MAX_REMOVED_BUT_LISTED
    }

    /** What holds between any two events, with nothing excepted and nothing being settled; and within one,
        for all removals but those in `but`, while a publication is being settled. */
    ghost predicate Valid(but: set<nat>, settling: Option<Pending>) {
      && |finished| <= 1 && Line(publications, past.jobs, settling)
      && Phases(settling) && FirstMap(settling) && Overtaken() && Debts()
      && Books(past.begun, past.ended, publications, settling, finished)
      && Chain(removals, past.queued, past.log) && (removals.rebuild ==> primaryScanning || InFlight(Primary, settling))
      && (published.None? ==> removals.recordedBeforeMap == |past.queued|)
      && AsksSound(past.asks, past.queued, past.log)
      && MapsSound(published, past.rebuilds, past.rebuildFrom, past.log) && JobsSound(past.jobs, published, past.rebuilds, past.rebuildFrom, past.log)
      && AllCovered(but)
    }

    ghost predicate AllCovered(but: set<nat>) {
      forall i | 0 <= i < |past.log| && i !in but :: Covered(i)
    }
  }

  ghost predicate Outstanding(jobs: seq<Job>, i: nat) {
    exists job <- jobs :: job.Derive? && job.removal == i
  }

  /** What is outstanding: the first map, or an overlay, a rebuild, or an overlay and then a rebuild. */
  ghost predicate Line(publications: seq<Pending>, jobs: seq<Job>, settling: Option<Pending>) {
    && |publications| == |jobs| <= 2
    && (forall k | 0 <= k < |publications| ::
          if publications[k].Overlay? then jobs[k].Derive? && jobs[k].prefix == publications[k].prefix else jobs[k].Scan?)
    && (|publications| == 2 ==> publications[0].Overlay? && publications[1] == Rebuild)
    && (Primary in publications ==> publications == [Primary])
    && (settling.Some? ==> settling.value != Rebuild || Rebuild !in publications)
    && (settling == Some(Primary) ==> publications == []) && (settling.Some? ==> !settling.value.Overlay?)
  }

  /** Every publication begun ended once, in the order they began, but for the one that is outstanding or
      being settled. */
  ghost predicate Books(begun: seq<Pending>, ended: seq<Finished>, publications: seq<Pending>,
                        settling: Option<Pending>, finished: seq<Finished>) {
    && (forall k | 0 <= k < |ended| && k < |begun| :: Matches(begun[k], ended[k]))
    && (forall p <- begun :: !p.Overlay?)
    && |finished| <= |ended| && ended[|ended| - |finished|..] == finished
    && if Primary in publications || Rebuild in publications || settling.Some?
       then |begun| == |ended| + 1 && (begun[|ended|] in publications || settling == Some(begun[|ended|]))
       else |begun| == |ended|
  }

  /** The queued removals in the order they were made; those made before the first map first. */
  ghost predicate Chain(removals: Removals, queued: seq<nat>, log: seq<Removal>) {
    && |removals.prefixes| == |queued| <= MAX_REMOVALS_BEFORE_FIRST_MAP
    && removals.recordedBeforeMap <= |queued| && Rising(queued)
    && forall k | 0 <= k < |queued| ::
         && queued[k] < |log| && log[queued[k]].prefix == Some(removals.prefixes[k])
         && (log[queued[k]].beforeMap <==> k < removals.recordedBeforeMap)
         && (!removals.rebuild ==> log[queued[k]].described)
  }

  /** Overlays are asked for in the order their removals were made, with the root check exactly for those
      made before the first map. */
  ghost predicate AsksSound(asks: seq<Ask>, queued: seq<nat>, log: seq<Removal>) {
    && (forall k | 0 <= k < |asks| ::
          && asks[k].removal < |log| && asks[k].verifyRoot == log[asks[k].removal].beforeMap
          && forall q <- queued :: asks[k].removal < q)
    && Rising(Asked(asks))
  }

  ghost predicate MapsSound(published: Option<Map>, rebuilds: nat, rebuildFrom: nat, log: seq<Removal>) {
    published.Some? ==>
      MapSound(log, published.value) && published.value.serial <= rebuilds && published.value.from <= rebuildFrom
      && (published.value.serial == 0 ==> published.value.from == 0)
  }

  ghost predicate JobsSound(jobs: seq<Job>, published: Option<Map>, rebuilds: nat, rebuildFrom: nat, log: seq<Removal>) {
    forall job <- jobs ::
      match job
      case Scan(serial, from) => serial == rebuilds && from == ScannedFrom(rebuilds, rebuildFrom)
      case Derive(base, removal, prefix, _) =>
        published == Some(base) && removal < |log| && log[removal].described && log[removal].prefix == Some(prefix)
  }

  function ScannedFrom(rebuilds: nat, rebuildFrom: nat): nat {
    if rebuilds == 0 then 0 else rebuildFrom
  }

  /** What goes right when an overlay is asked for: the generation gets a number, the store takes the request,
      and the coordinator moves on. */
  datatype Luck = Luck(numbered: bool, accepted: bool, advanced: bool)

  // ---- what the owner does ----

  /** The map on screen no longer matches the file system: it is to be scanned again. */
  function Invalidated(s: State): State {
    var retains := s.Retains();
    s.(available := retains, invalidated := s.invalidated || s.active, suppressed := false, required := true,
       removals := NO_REMOVALS, cached := s.cached || !retains, provisional := s.provisional || !retains,
       past := s.past.(storeActive := false, queued := []))
  }

  lemma InvalidatedIsValid(s: State, but: set<nat>, settling: Option<Pending>)
    requires s.Valid(but, settling)
    ensures Invalidated(s).Valid({}, settling) && Invalidated(s).required && Invalidated(s).removals == NO_REMOVALS
  {
    hide Line, Books, MapsSound, JobsSound;
  }

  /** No map is coming from the store. */
  function Abandoned(s: State): State {
    s.(available := false, removals := NO_REMOVALS, past := s.past.(storeActive := false, queued := []))
  }

  function StoreFailed(s: State): State {
    if s.available then Abandoned(s) else s
  }

  lemma StoreFailedIsValid(s: State, but: set<nat>, settling: Option<Pending>)
    requires s.Valid(but, settling)
    ensures StoreFailed(s).Valid({}, settling) && !StoreFailed(s).available
  {
    hide Line, Books, MapsSound, JobsSound;
  }

  /** What is covered stays so while only these things change. */
  lemma StaysCovered(s: State, now: State, but: set<nat>)
    requires s.AllCovered(but) && now.past.log == s.past.log && now.past.queued == s.past.queued
    requires forall job <- s.past.jobs :: job in now.past.jobs
    requires now.published == s.published
    requires forall i | 0 <= i < |s.past.log| && i !in but :: s.Owed(i) ==> now.Owed(i)
    ensures now.AllCovered(but)
  {
    hide State.Owed;
    forall i | 0 <= i < |now.past.log| && i !in but
      ensures now.Covered(i)
    {
      assert s.Covered(i);
    }
  }

  /** The store is asked to publish the scan's generation. */
  function Requested(s: State, pending: Pending): State {
    s.(publications := s.publications + [pending],
       past := s.past.(storeActive := false,
                       jobs := s.past.jobs + [Scan(s.past.rebuilds, ScannedFrom(s.past.rebuilds, s.past.rebuildFrom))]))
  }

  lemma RequestedInLine(publications: seq<Pending>, jobs: seq<Job>, pending: Pending, job: Job)
    requires Line(publications, jobs, Some(pending)) && job.Scan? && |publications| <= 1
    requires pending == Rebuild ==> Primary !in publications
    ensures Line(publications + [pending], jobs + [job], None)
    ensures forall p <- publications + [pending] :: p in publications || p == pending
    ensures pending in publications + [pending] && forall p <- publications :: p in publications + [pending]
    ensures forall j <- jobs + [job] :: j in jobs || j == job
    ensures forall j <- jobs :: j in jobs + [job]
  {
    assert (publications + [pending])[|publications|] == pending;
    assert (jobs + [job])[|jobs|] == job;
    assert forall p <- publications :: p in publications + [pending];
  }

  lemma JobsRequested(s: State)
    requires JobsSound(s.past.jobs, s.published, s.past.rebuilds, s.past.rebuildFrom, s.past.log)
    ensures JobsSound(s.past.jobs + [Scan(s.past.rebuilds, ScannedFrom(s.past.rebuilds, s.past.rebuildFrom))],
                      s.published, s.past.rebuilds, s.past.rebuildFrom, s.past.log)
  {
    var job := Scan(s.past.rebuilds, ScannedFrom(s.past.rebuilds, s.past.rebuildFrom));
    assert forall j <- s.past.jobs + [job] :: j in s.past.jobs || j == job;
  }

  lemma BooksRequested(begun: seq<Pending>, ended: seq<Finished>, publications: seq<Pending>, pending: Pending,
                       finished: seq<Finished>)
    requires Books(begun, ended, publications, Some(pending), finished) && !pending.Overlay?
    ensures Books(begun, ended, publications + [pending], None, finished)
  {
    assert (publications + [pending])[|publications|] == pending;
    assert forall p <- publications :: p in publications + [pending];
  }

  /** What a change does to the flags, while `settling` becomes `settled`. */
  ghost predicate FlagsKept(s: State, now: State, settling: Option<Pending>, settled: Option<Pending>) {
    s.Phases(settling) && s.FirstMap(settling) && s.Overtaken() && s.Debts() ==>
      now.Phases(settled) && now.FirstMap(settled) && now.Overtaken() && now.Debts()
  }

  lemma RequestedPhases(s: State, pending: Pending)
    requires Line(s.publications, s.past.jobs, Some(pending)) && |s.publications| <= 1
    requires !(pending == Rebuild && s.invalidated) && (pending == Rebuild ==> Primary !in s.publications)
    requires s.Phases(Some(pending))
    ensures Requested(s, pending).Phases(None)
  {
    hide Line;
    RequestedInLine(s.publications, s.past.jobs, pending, Requested(s, pending).past.jobs[|s.past.jobs|]);
  }

  lemma RequestedFirstMap(s: State, pending: Pending)
    requires Line(s.publications, s.past.jobs, Some(pending)) && |s.publications| <= 1
    requires !(pending == Rebuild && s.invalidated) && (pending == Rebuild ==> Primary !in s.publications)
    requires pending.Primary? ==> s.published.None?
    requires s.FirstMap(Some(pending))
    ensures Requested(s, pending).FirstMap(None)
  {
    hide Line;
    RequestedInLine(s.publications, s.past.jobs, pending, Requested(s, pending).past.jobs[|s.past.jobs|]);
  }

  lemma RequestedFlags(s: State, pending: Pending)
    requires Line(s.publications, s.past.jobs, Some(pending)) && |s.publications| <= 1
    requires !(pending == Rebuild && s.invalidated) && (pending == Rebuild ==> Primary !in s.publications)
    requires pending.Primary? ==> s.published.None?
    requires s.publications != [] ==> s.past.jobs[0] == (s.past.jobs + [Requested(s, pending).past.jobs[|s.past.jobs|]])[0]
    ensures FlagsKept(s, Requested(s, pending), Some(pending), None)
  {
    hide Line, State.Phases, State.FirstMap;
    if s.Phases(Some(pending)) { RequestedPhases(s, pending); }
    if s.FirstMap(Some(pending)) { RequestedFirstMap(s, pending); }
    RequestedInLine(s.publications, s.past.jobs, pending, Requested(s, pending).past.jobs[|s.past.jobs|]);
  }

  lemma RequestedIsValid(s: State, pending: Pending)
    requires s.Valid({}, Some(pending)) && (pending.Primary? ==> s.published.None?) && |s.publications| <= 1
    requires !(pending == Rebuild && s.invalidated)
    ensures Requested(s, pending).Valid({}, None)
  {
    NotBoth(s, pending);
    hide Chain, AsksSound, MapsSound, JobsSound, Books, State.Phases, State.FirstMap, State.Overtaken, State.Debts;
    hide Line;
    hide State.AllCovered;
    var now := Requested(s, pending);
    JobsRequested(s);
    var job := now.past.jobs[|s.past.jobs|];
    RequestedInLine(s.publications, s.past.jobs, pending, job);
    RequestedFlags(s, pending);
    BooksRequested(s.past.begun, s.past.ended, s.publications, pending, s.finished);
    StaysCovered(s, now, {});
    RebuildFlagKept(s, now, Some(pending), None);
  }

  /** A rebuild is not settled while the first map is outstanding. */
  lemma NotBoth(s: State, pending: Pending)
    requires s.Valid({}, Some(pending))
    ensures pending == Rebuild ==> Primary !in s.publications
  {
    assert s.InFlight(Rebuild, Some(Rebuild));
  }

  lemma RebuildFlagKept(s: State, now: State, settling: Option<Pending>, settled: Option<Pending>)
    requires s.removals.rebuild ==> s.primaryScanning || s.InFlight(Primary, settling)
    requires now.removals.rebuild == s.removals.rebuild && now.primaryScanning == s.primaryScanning
    requires s.InFlight(Primary, settling) ==> now.InFlight(Primary, settled)
    ensures now.removals.rebuild ==> now.primaryScanning || now.InFlight(Primary, settled)
  {
  }

  function Over(s: State, f: Finished): State {
    s.(finished := s.finished + [f], past := s.past.(ended := s.past.ended + [f]))
  }

  lemma OverFlags(s: State, p: Pending, f: Finished)
    requires s.finished == [] && Matches(p, f) && !p.Overlay? && Line(s.publications, s.past.jobs, Some(p))
    requires f == RebuildDone(false) ==> s.invalidated || s.Refreshed()
    requires p.Primary? ==> s.published.Some? || !s.available || s.required || s.active
    requires p.Rebuild? ==> Primary !in s.publications
    ensures FlagsKept(s, Over(s, f), Some(p), None)
  {
    assert s.InFlight(p, Some(p)) && s.finished + [f] == [f];
  }

  lemma OverIsValid(s: State, p: Pending, f: Finished)
    requires s.Valid({}, Some(p)) && Matches(p, f)
    requires f == RebuildDone(false) ==> s.invalidated || s.Refreshed()
    requires p.Primary? ==> !s.removals.rebuild
    requires p.Primary? ==> s.published.Some? || !s.available || s.required || s.active
    ensures Over(s, f).Valid({}, None)
  {
    NotBoth(s, p);
    NothingFinished(s, p);
    hide Chain, AsksSound, MapsSound, JobsSound, Books, State.Phases, State.FirstMap, State.Overtaken, State.Debts;
    assert s.finished + [f] == [f];
    OverFlags(s, p, f);
    StaysCovered(s, Over(s, f), {});
    BooksClosed(s.past.begun, s.past.ended, s.publications, s.past.jobs, p, f);
  }

  lemma NothingFinished(s: State, p: Pending)
    requires s.Valid({}, Some(p))
    ensures s.finished == [] && (p.Rebuild? ==> !s.removals.rebuild)
  {
    assert s.InFlight(p, Some(p));
  }

  lemma BooksClosed(begun: seq<Pending>, ended: seq<Finished>, publications: seq<Pending>, jobs: seq<Job>, p: Pending,
                    f: Finished)
    requires Books(begun, ended, publications, Some(p), []) && Line(publications, jobs, Some(p)) && Matches(p, f)
    requires p == Rebuild ==> Primary !in publications
    ensures Books(begun, ended + [f], publications, None, [f])
  {
    var now := ended + [f];
    assert now[|now| - 1..] == [f];
    assert Primary !in publications && Rebuild !in publications;
    assert begun[|ended|] !in publications by {
      assert begun[|ended|] in begun;
    }
  }

  /** The removals that wait are no map's any more. */
  function Forgotten(s: State): State {
    s.(removals := NO_REMOVALS, past := s.past.(queued := []))
  }

  /** What becomes of the removals that wait, once the first map has come or is not coming. */
  function SettledBeforeFirstMap(s: State): State {
    if s.removals.IsEmpty() then s
    else if !s.available || s.published.None? then Forgotten(s)
    else if s.removals.rebuild then Invalidated(s)
    else s
  }

  lemma SettledIsValid(s: State)
    requires s.Valid({}, Some(Primary)) && (s.available ==> s.published.Some?)
    ensures var now := SettledBeforeFirstMap(s);
            && now.Valid({}, Some(Primary)) && !now.removals.rebuild && now.published == s.published
            && (now.available ==> s.available)
  {
    hide Line, Books, MapsSound, JobsSound;
    InvalidatedIsValid(s, {}, Some(Primary));
  }

  function PrimaryScanned(s: State): State {
    s.(primaryScanning := false, past := s.past.(begun := s.past.begun + [Primary]))
  }

  /** The primary scan ended: its map is to be published. */
  function BegunPrimary(s: State, accepted: bool): State {
    var now := PrimaryScanned(s);
    if s.available && accepted then Requested(now, Primary)
    else Over(SettledBeforeFirstMap(StoreFailed(now)), PrimaryDone)
  }

  lemma BegunPrimaryIsValid(s: State, accepted: bool)
    requires s.Valid({}, None) && s.primaryScanning
    ensures BegunPrimary(s, accepted).Valid({}, None)
  {
    hide Chain, AsksSound, MapsSound, JobsSound, State.Covered;
    var now := s.(primaryScanning := false, past := s.past.(begun := s.past.begun + [Primary]));
    OnlyPrimary(s);
    StaysCovered(s, now, {});
    if s.available && accepted {
      RequestedIsValid(now, Primary);
    } else {
      StoreFailedIsValid(now, {}, Some(Primary));
      SettledIsValid(StoreFailed(now));
      OverIsValid(SettledBeforeFirstMap(StoreFailed(now)), Primary, PrimaryDone);
    }
  }

  lemma SomePending(publications: seq<Pending>)
    ensures publications == [] || Primary in publications || Rebuild in publications || exists p <- publications :: p.Overlay?
  {
    if publications != [] {
      assert publications[0] in publications;
    }
  }

  /** Nothing is outstanding while the primary scan runs. */
  lemma OnlyPrimary(s: State)
    requires s.Valid({}, None) && s.primaryScanning
    ensures s.publications == [] && s.past.jobs == []
  {
    SomePending(s.publications);
  }

  /** The store's oldest answer is taken up. */
  function Popped(s: State): State
    requires s.publications != []
  {
    s.(publications := s.publications[1..], past := s.past.(jobs := if s.past.jobs == [] then [] else s.past.jobs[1..]))
  }

  /** What a scan of the tree found, as a map. */
  function Scanned(job: Job, found: set<Path>): Map
    requires job.Scan?
  {
    Map(job.serial, job.from, found, [], found)
  }

  /** A map is on screen. */
  function Shown(s: State, m: Map, available: bool, cached: bool, provisional: bool): State {
    s.(published := Some(m), available := available, cached := cached, provisional := provisional)
  }

  /** The first map arrives, or does not. */
  function FirstShown(s: State, job: Job, reply: Reply, loads: bool): State
    requires job.Scan?
  {
    if !s.available then s
    else match reply
      case Full(found) =>
        Shown(s, Scanned(job, found), loads, true, !loads)
      case SummaryOnly => s.(available := false)
      case Refused => Abandoned(s)
  }

  function CompletedPrimary(s: State, job: Job, reply: Reply, loads: bool): State
    requires job.Scan?
  {
    Over(SettledBeforeFirstMap(FirstShown(s, job, reply, loads)), PrimaryDone)
  }

  lemma BooksPopped(begun: seq<Pending>, ended: seq<Finished>, p: Pending, finished: seq<Finished>)
    requires Books(begun, ended, [p], None, finished) && !p.Overlay?
    ensures Books(begun, ended, [], Some(p), finished)
  {
    assert p in [p];
  }

  lemma PoppedHead(s: State)
    requires s.Valid({}, None) && s.publications != [] && !s.publications[0].Overlay?
    ensures s.publications == [s.publications[0]] && |s.past.jobs| == 1
    ensures s.past.jobs[0] == Scan(s.past.rebuilds, ScannedFrom(s.past.rebuilds, s.past.rebuildFrom))
    ensures s.publications[0] == Primary ==> s.published.None? && s.past.rebuilds == 0
    ensures s.publications[0] == Rebuild ==> s.active
    ensures Popped(s).publications == [] && Popped(s).past.jobs == []
    ensures forall i :: !Outstanding(s.past.jobs, i)
  {
    hide Chain, AsksSound, MapsSound, Books, State.AllCovered;
    assert s.past.jobs[0] in s.past.jobs && s.publications[0] in s.publications;
  }

  lemma PoppedIsValid(s: State)
    requires s.Valid({}, None) && s.publications != [] && !s.publications[0].Overlay?
    ensures Popped(s).Valid({}, Some(s.publications[0]))
  {
    hide Chain, AsksSound, MapsSound, Books;
    var now := Popped(s);
    PoppedHead(s);
    BooksPopped(s.past.begun, s.past.ended, s.publications[0], s.finished);
    forall i | 0 <= i < |s.past.log|
      ensures now.Covered(i)
    {
      assert s.Covered(i);
    }
    assert now.Phases(Some(s.publications[0]));
    assert now.FirstMap(Some(s.publications[0]));
  }

  lemma ScannedSound(log: seq<Removal>, job: Job, found: set<Path>)
    requires job.Scan? && job.from <= |log|
    ensures MapSound(log, Scanned(job, found))
  {
  }

  lemma LostIsValid(s: State, but: set<nat>, settling: Option<Pending>)
    requires s.Valid(but, settling)
    ensures s.(available := false).Valid({}, settling)
  {
    hide Line, Books, MapsSound, JobsSound, Chain, AsksSound;
  }

  lemma InstalledIsValid(s: State, m: Map, available: bool, provisional: bool)
    requires s.Valid({}, Some(Primary)) && s.published.None? && MapSound(s.past.log, m) && m.serial == m.from == 0
    requires available ==> s.available
    ensures s.(published := Some(m), available := available, cached := true, provisional := provisional).Valid({}, Some(Primary))
  {
    hide Chain, AsksSound, Books;
    var now := s.(published := Some(m), available := available, cached := true, provisional := provisional);
    assert s.InFlight(Primary, Some(Primary));
    forall i | 0 <= i < |s.past.log|
      ensures now.Covered(i)
    {
      assert s.Covered(i);
    }
  }

  lemma FirstShownIsValid(s: State, job: Job, reply: Reply, loads: bool)
    requires s.Valid({}, Some(Primary)) && job == Scan(0, 0) && s.published.None?
    ensures var now := FirstShown(s, job, reply, loads); now.Valid({}, Some(Primary)) && (now.available ==> now.published.Some?)
  {
    hide State.Valid, MapSound;
    match reply {
      case Full(found) =>
        ScannedSound(s.past.log, job, found);
        InstalledIsValid(s, Scanned(job, found), loads && s.available, !loads);
      case SummaryOnly =>
        LostIsValid(s, {}, Some(Primary));
      case Refused =>
        StoreFailedIsValid(s, {}, Some(Primary));
    }
  }

  lemma CompletedPrimaryIsValid(s: State, job: Job, reply: Reply, loads: bool)
    requires s.Valid({}, Some(Primary)) && job == Scan(0, 0) && s.published.None?
    ensures CompletedPrimary(s, job, reply, loads).Valid({}, None)
  {
    hide State.Valid, FirstShown, SettledBeforeFirstMap, Over;
    FirstShownIsValid(s, job, reply, loads);
    SettledIsValid(FirstShown(s, job, reply, loads));
    OverIsValid(SettledBeforeFirstMap(FirstShown(s, job, reply, loads)), Primary, PrimaryDone);
  }

  /** A rebuild's replacement map arrives, or does not. */
  function CompletedRebuild(s: State, job: Job, reply: Reply): State
    requires job.Scan?
  {
    if s.suppressed then Over(s, RebuildCancelled)
    else if s.available && reply.Full? then
      Over(s.(published := Some(Scanned(job, reply.found))), RebuildDone(false))
    else Over(s, RebuildDone(true))
  }

  lemma CompletedRebuildIsValid(s: State, job: Job, reply: Reply)
    requires s.Valid({}, Some(Rebuild)) && job == Scan(s.past.rebuilds, ScannedFrom(s.past.rebuilds, s.past.rebuildFrom))
    requires s.publications == [] && s.active
    ensures CompletedRebuild(s, job, reply).Valid({}, None)
  {
    hide Chain, AsksSound, Books, Over, MapSound, State.Debts;
    if s.available && reply.Full? {
      ReplacedIsValid(s, job, reply.found);
      if !s.suppressed { OverIsValid(s.(published := Some(Scanned(job, reply.found))), Rebuild, RebuildDone(false)); }
    }
    OverIsValid(s, Rebuild, RebuildDone(true));
    OverIsValid(s, Rebuild, RebuildCancelled);
  }

  lemma ReplacedIsValid(s: State, job: Job, found: set<Path>)
    requires s.Valid({}, Some(Rebuild)) && job == Scan(s.past.rebuilds, ScannedFrom(s.past.rebuilds, s.past.rebuildFrom))
    requires s.publications == [] && s.active
    ensures s.(published := Some(Scanned(job, found))).Valid({}, Some(Rebuild))
  {
    hide Chain, AsksSound, Books, MapSound;
    var now := s.(published := Some(Scanned(job, found)));
    ScannedSound(s.past.log, job, found);
    assert s.InFlight(Rebuild, Some(Rebuild)) && s.past.jobs == [];
    forall i | 0 <= i < |s.past.log|
      ensures now.Covered(i)
    {
      assert s.Covered(i);
    }
  }

  /** The removals that wait, once the first of them does not any more. */
  function WithoutFirst(r: Removals): Removals
    requires r.prefixes != []
  {
    r.(prefixes := r.prefixes[1..], recordedBeforeMap := if r.recordedBeforeMap > 0 then r.recordedBeforeMap - 1 else 0)
  }

  /** An overlay is asked for: the installed map less the removal that has waited longest. */
  function OverlayAsked(s: State): State
    requires s.removals.prefixes != [] && s.published.Some?
  {
    var r, queued := s.removals, s.past.queued;
    var taken := if queued == [] then 0 else queued[0];
    s.(removals := WithoutFirst(r),
       publications := [Overlay(r.prefixes[0])],
       past := s.past.(queued := if queued == [] then [] else queued[1..],
                       asks := s.past.asks + [Ask(taken, r.recordedBeforeMap > 0, r.prefixes[1..])],
                       jobs := [Derive(s.published.value, taken, r.prefixes[0], s.past.storeActive)]))
  }

  /** Asks for an overlay when a removal waits and nothing is outstanding. */
  function NextOverlay(s: State, luck: Luck): State {
    if !s.available || s.publications != [] || s.published.None? || s.removals.prefixes == [] then s
    else if !luck.numbered || !luck.accepted then Invalidated(s)
    else if luck.advanced then OverlayAsked(s)
    else Invalidated(OverlayAsked(s))
  }

  lemma ChainPopped(removals: Removals, queued: seq<nat>, log: seq<Removal>)
    requires Chain(removals, queued, log) && queued != []
    ensures log[queued[0]].prefix == Some(removals.prefixes[0])
    ensures log[queued[0]].beforeMap <==> removals.recordedBeforeMap > 0
    ensures var left := if removals.recordedBeforeMap > 0 then removals.recordedBeforeMap - 1 else 0;
            Chain(removals.(prefixes := removals.prefixes[1..], recordedBeforeMap := left), queued[1..], log)
  {
  }

  lemma AskAdded(asks: seq<Ask>, removals: Removals, queued: seq<nat>, log: seq<Removal>, later: seq<Path>)
    requires AsksSound(asks, queued, log) && Chain(removals, queued, log) && queued != []
    ensures AsksSound(asks + [Ask(queued[0], removals.recordedBeforeMap > 0, later)], queued[1..], log)
  {
    ChainPopped(removals, queued, log);
    var longer := asks + [Ask(queued[0], removals.recordedBeforeMap > 0, later)];
    assert queued[0] in queued;
    assert forall q <- queued[1..] :: q in queued && queued[0] < q;
    forall j, k | 0 <= j < k < |longer|
      ensures Asked(longer)[j] < Asked(longer)[k]
    {
      if k < |asks| { assert Asked(asks)[j] < Asked(asks)[k]; }
    }
  }

  lemma AskedIsCovered(s: State)
    requires s.AllCovered({}) && s.past.queued != [] && s.published.Some? && s.removals.prefixes != [] && s.past.jobs == []
    ensures OverlayAsked(s).AllCovered({})
  {
    var now, taken := OverlayAsked(s), s.past.queued[0];
    assert now.past.jobs[0] in now.past.jobs && Outstanding(now.past.jobs, taken);
    assert forall i <- s.past.queued :: i == taken || i in now.past.queued;
    forall i | 0 <= i < |s.past.log|
      ensures now.Covered(i)
    {
      assert s.Covered(i);
    }
  }

  lemma OverlayAskedFlags(s: State)
    requires s.publications == [] && s.published.Some? && s.removals.prefixes != [] && s.available && !s.removals.rebuild
    ensures FlagsKept(s, OverlayAsked(s), None, None)
  {
  }

  lemma OverlayAskedIsValid(s: State)
    requires s.Valid({}, None) && s.available && s.publications == [] && s.published.Some? && s.removals.prefixes != []
    ensures OverlayAsked(s).Valid({}, None)
  {
    NoRebuildFlag(s);
    hide AsksSound, MapsSound, MapSound, Books, Outstanding, State.AllCovered;
    hide State.Phases, State.FirstMap, State.Overtaken, State.Debts;
    AskedIsCovered(s);
    OverlayAskedFlags(s);
    ChainPopped(s.removals, s.past.queued, s.past.log);
    AskAdded(s.past.asks, s.removals, s.past.queued, s.past.log, s.removals.prefixes[1..]);
    BooksWithOverlay(s.past.begun, s.past.ended, s.removals.prefixes[0], s.finished);
  }

  lemma NoRebuildFlag(s: State)
    requires s.Valid({}, None) && s.published.Some?
    ensures !s.removals.rebuild
  {
  }

  lemma BooksWithOverlay(begun: seq<Pending>, ended: seq<Finished>, prefix: Path, finished: seq<Finished>)
    requires Books(begun, ended, [], None, finished)
    ensures Books(begun, ended, [Overlay(prefix)], None, finished)
  {
  }

  lemma NextOverlayIsValid(s: State, luck: Luck)
    requires s.Valid({}, None)
    ensures NextOverlay(s, luck).Valid({}, None)
  {
    hide State.Valid, Invalidated, OverlayAsked;
    InvalidatedIsValid(s, {}, None);
    if s.available && s.publications == [] && s.published.Some? && s.removals.prefixes != [] {
      OverlayAskedIsValid(s);
      InvalidatedIsValid(OverlayAsked(s), {}, None);
    }
  }

  /** An overlay arrives, or does not. The next one derives from the map that it installs. */
  function CompletedOverlay(s: State, job: Job, reply: Reply, loads: bool, luck: Luck): State
    requires job.Derive?
  {
    if !s.available then s
    else match reply
      case Full(_) => NextOverlay(OverlayInstalled(s, job, loads), luck)
      case SummaryOnly => Invalidated(s)
      case Refused => Invalidated(s)
  }

  /** Its pages are read again, or the map cannot be used. */
  function OverlayInstalled(s: State, job: Job, loads: bool): State
    requires job.Derive?
  {
    var shown := Shown(s, Derived(job.base, job.removal, job.prefix), s.available, loads, s.provisional && !loads);
    if loads then shown else Invalidated(shown)
  }

  lemma PoppedOverlayIsValid(s: State)
    requires s.Valid({}, None) && s.publications != [] && s.publications[0].Overlay?
    ensures s.past.jobs != [] && s.past.jobs[0].Derive?
    ensures Popped(s).Valid({s.past.jobs[0].removal}, None)
    ensures var job := s.past.jobs[0];
            && Popped(s).published == Some(job.base) && Popped(s).past.log == s.past.log
            && job.removal < |s.past.log| && s.past.log[job.removal].described
            && s.past.log[job.removal].prefix == Some(job.prefix) && forall job <- Popped(s).past.jobs :: job.Scan?
    ensures var now := Popped(s); now.active && !now.invalidated && now.finished == [] ==> s.past.jobs[0].doomed
    ensures Popped(s).publications == [] || Popped(s).publications == [Rebuild]
  {
    hide AsksSound, MapsSound, Chain, Books, MapSound;
    var now := Popped(s);
    OverlayPopped(s);
    assert s.past.jobs[0] in s.past.jobs;
    BooksWithoutOverlay(s.past.begun, s.past.ended, s.publications, s.finished);
    assert now.Phases(None);
    assert now.FirstMap(None);
  }

  lemma BooksWithoutOverlay(begun: seq<Pending>, ended: seq<Finished>, publications: seq<Pending>, finished: seq<Finished>)
    requires Books(begun, ended, publications, None, finished) && publications != [] && publications[0].Overlay?
    ensures Books(begun, ended, publications[1..], None, finished)
  {
    assert publications == [publications[0]] + publications[1..];
    assert |begun| > |ended| ==> begun[|ended|] in begun;
  }

  lemma OverlayPopped(s: State)
    requires s.AllCovered({}) && Line(s.publications, s.past.jobs, None) && s.publications != [] && s.publications[0].Overlay?
    ensures Popped(s).AllCovered({s.past.jobs[0].removal})
    ensures forall job <- Popped(s).past.jobs :: job in s.past.jobs && job.Scan?
  {
    var now := Popped(s);
    assert s.past.jobs == [s.past.jobs[0]] + now.past.jobs;
    forall i | 0 <= i < |s.past.log| && i != s.past.jobs[0].removal
      ensures now.Covered(i)
    {
      assert s.Covered(i);
      if Outstanding(s.past.jobs, i) {
        var job :| job in s.past.jobs && job.Derive? && job.removal == i;
        assert job in now.past.jobs;
      }
    }
  }

  lemma OverlayInstalledIsValid(s: State, job: Job, loads: bool)
    requires job.Derive? && s.Valid({job.removal}, None) && s.published == Some(job.base) && s.available
    requires job.removal < |s.past.log| && s.past.log[job.removal].described
    requires s.past.log[job.removal].prefix == Some(job.prefix)
    requires !(s.active && !s.invalidated && s.finished == []) && forall j <- s.past.jobs :: j.Scan?
    ensures OverlayInstalled(s, job, loads).Valid({}, None)
  {
    hide AsksSound, Chain, Books, MapSound, Invalidated;
    DerivedSound(s.past.log, job.base, job.removal, job.prefix);
    var now := s.(published := Some(Derived(job.base, job.removal, job.prefix)), cached := loads,
                  provisional := s.provisional && !loads);
    forall i | 0 <= i < |s.past.log|
      ensures now.Covered(i)
    {
      assert i == job.removal || s.Covered(i);
    }
    assert now.Phases(None);
    assert now.FirstMap(None);
    InvalidatedIsValid(now, {}, None);
  }

  lemma CompletedOverlayIsValid(s: State, job: Job, reply: Reply, loads: bool, luck: Luck)
    requires job.Derive? && s.Valid({job.removal}, None) && s.published == Some(job.base)
    requires job.removal < |s.past.log| && s.past.log[job.removal].described
    requires s.past.log[job.removal].prefix == Some(job.prefix) && forall j <- s.past.jobs :: j.Scan?
    requires reply.Full? ==> !(s.active && !s.invalidated && s.finished == [])
    ensures CompletedOverlay(s, job, reply, loads, luck).Valid({}, None)
  {
    hide State.Valid, Invalidated, OverlayInstalled, NextOverlay;
    if !s.available {
      UnavailableCovers(s, {job.removal});
    } else if reply.Full? {
      OverlayInstalledIsValid(s, job, loads);
      NextOverlayIsValid(OverlayInstalled(s, job, loads), luck);
    } else {
      InvalidatedIsValid(s, {job.removal}, None);
    }
  }

  lemma UnavailableCovers(s: State, but: set<nat>)
    requires s.Valid(but, None) && !s.available
    ensures s.Valid({}, None)
  {
    hide Line, State.Phases, State.FirstMap, State.Overtaken, State.Debts, Books, Chain, AsksSound, MapsSound;
    hide JobsSound;
  }

  /** The answer that the store may give to what it was asked for. */
  predicate MayAnswer(job: Job, reply: Reply) {
    job.Derive? && job.doomed ==> reply.Refused?
  }

  /** The store's oldest outstanding request has been answered. */
  function Answered(s: State, reply: Reply, loads: bool, luck: Luck): State {
    if s.publications == [] || s.past.jobs == [] then s
    else
      var pending, job, now := s.publications[0], s.past.jobs[0], Popped(s);
      if pending.Overlay? && job.Derive? then CompletedOverlay(now, job, reply, loads, luck)
      else if pending.Primary? && job.Scan? then CompletedPrimary(now, job, reply, loads)
      else if pending.Rebuild? && job.Scan? then CompletedRebuild(now, job, reply)
      else s
  }

  lemma AnsweredScanIsValid(s: State, reply: Reply, loads: bool)
    requires s.Valid({}, None) && s.publications != [] && !s.publications[0].Overlay?
    ensures s.past.jobs != [] && s.past.jobs[0].Scan?
    ensures s.publications[0].Primary? ==> CompletedPrimary(Popped(s), s.past.jobs[0], reply, loads).Valid({}, None)
    ensures s.publications[0].Rebuild? ==> CompletedRebuild(Popped(s), s.past.jobs[0], reply).Valid({}, None)
  {
    hide State.Valid, CompletedPrimary, CompletedRebuild;
    PoppedHead(s);
    PoppedIsValid(s);
    if s.publications[0].Primary? {
      CompletedPrimaryIsValid(Popped(s), s.past.jobs[0], reply, loads);
    } else {
      CompletedRebuildIsValid(Popped(s), s.past.jobs[0], reply);
    }
  }

  lemma AnsweredIsValid(s: State, reply: Reply, loads: bool, luck: Luck)
    requires s.Valid({}, None) && (s.past.jobs != [] ==> MayAnswer(s.past.jobs[0], reply))
    ensures Answered(s, reply, loads, luck).Valid({}, None)
  {
    hide State.Valid, CompletedOverlay, CompletedPrimary, CompletedRebuild, Popped;
    if s.publications != [] {
      if s.publications[0].Overlay? {
        PoppedOverlayIsValid(s);
        CompletedOverlayIsValid(Popped(s), s.past.jobs[0], reply, loads, luck);
      } else {
        AnsweredScanIsValid(s, reply, loads);
      }
    }
  }

  /** The store thread is gone, and with it every answer it owed. */
  function Stopped(s: State): State {
    Drained(StoreFailed(s))
  }

  function Drained(s: State): State
    decreases |s.publications|
  {
    var next := Answered(s, Refused, false, Luck(false, false, false));
    if |next.publications| < |s.publications| then Drained(next) else s
  }

  lemma {:induction false} DrainedIsValid(s: State)
    requires s.Valid({}, None) && !s.available
    ensures Drained(s).Valid({}, None) && Drained(s).publications == []
    decreases |s.publications|
  {
    hide State.Valid, CompletedPrimary, CompletedRebuild;
    var next := Answered(s, Refused, false, Luck(false, false, false));
    AnsweredIsValid(s, Refused, false, Luck(false, false, false));
    if s.publications != [] {
      AnsweredShrinks(s);
      DrainedIsValid(next);
    }
  }

  lemma AnsweredShrinks(s: State)
    requires s.Valid({}, None) && !s.available && s.publications != []
    ensures var next := Answered(s, Refused, false, Luck(false, false, false));
            |next.publications| < |s.publications| && !next.available
  {
    hide State.Valid, Popped, CompletedPrimary, CompletedRebuild;
    PoppedShrinks(s);
    if s.publications[0].Overlay? {
      PoppedOverlayIsValid(s);
    } else {
      PoppedHead(s);
      LostStaysLost(Popped(s), s.past.jobs[0]);
    }
  }

  lemma PoppedShrinks(s: State)
    requires s.publications != []
    ensures |Popped(s).publications| < |s.publications| && Popped(s).available == s.available
  {
  }

  lemma LostStaysLost(s: State, job: Job)
    requires !s.available && job.Scan?
    ensures var next := CompletedPrimary(s, job, Refused, false); next.publications == s.publications && !next.available
    ensures var next := CompletedRebuild(s, job, Refused); next.publications == s.publications && !next.available
  {
  }

  // ---- deletions ----

  /** The view leaves out the target of a deletion that removed it whole. */
  function Hidden(hidden: seq<Path>, target: Path): (h: seq<Path>)
    ensures |hidden| <= MAX_REMOVED_BUT_LISTED ==> |h| <= MAX_REMOVED_BUT_LISTED && h != [] && h[|h| - 1] == target
  {
    (if |hidden| == MAX_REMOVED_BUT_LISTED then hidden[1..] else hidden) + [target]
  }

  /** A deletion that removed something is over. */
  function Logged(s: State, report: Report): State {
    var described := report.target.Some? && s.CanBeDescribed(report);
    s.(refreshOwed := true,
       hidden := if report.whole && report.target.Some? then Hidden(s.hidden, report.target.value) else s.hidden,
       past := s.past.(log := s.past.log + [Removal(report.target, described, s.FirstMapIsOwed())]))
  }

  /** It was over before the first map was shown: its target is kept for the map to come. */
  function Recorded(s: State, report: Report): State {
    var now := Waiting(s, WithRecorded(s.removals, report.target, s.CanBeDescribed(report)));
    if report.target.Some? && |s.removals.prefixes| < MAX_REMOVALS_BEFORE_FIRST_MAP then NewestQueues(now) else now
  }

  function Waiting(s: State, removals: Removals): State {
    s.(removals := removals)
  }

  /** The newest removal is one of those that wait. */
  function NewestQueues(s: State): State {
    s.(past := s.past.(queued := s.past.queued + [if s.past.log == [] then 0 else |s.past.log| - 1]))
  }

  /** The removal waits for the first map, if there is a place; that one is scanned again if an overlay does
      not describe it. */
  function WithRecorded(r: Removals, target: Option<Path>, described: bool): Removals {
    if target.Some? && |r.prefixes| < MAX_REMOVALS_BEFORE_FIRST_MAP then
      r.(rebuild := r.rebuild || !described, prefixes := r.prefixes + [target.value],
         recordedBeforeMap := r.recordedBeforeMap + 1)
    else r.(rebuild := true)
  }

  /** What a removal means for the map. */
  function Reconciled(s: State, report: Report, luck: Luck): State {
    if s.FirstMapIsOwed() then Recorded(s, report)
    else if !(report.target.Some? && s.CanBeDescribed(report)) then Invalidated(s)
    else if s.published.None? || (exists p <- s.publications :: !p.Overlay?)
            || |s.removals.prefixes| >= MAX_REMOVALS_BEFORE_FIRST_MAP then Invalidated(s)
    else NextOverlay(Queued(s, report.target.value), luck)
  }

  function Queued(s: State, prefix: Path): State {
    s.(removals := s.removals.(prefixes := s.removals.prefixes + [prefix]),
       past := s.past.(queued := s.past.queued + [if s.past.log == [] then 0 else |s.past.log| - 1]))
  }

  /** The owner's state once an execution has ended, whatever became of the failures it excused. */
  function ExecutionOver(s: State, excuses: Excuses): State {
    s.(executing := None, removals := s.removals.(excused := false), past := s.past.(excuses := excuses))
  }

  /** The first map will have to be scanned again. */
  function MustRebuild(s: State): State {
    s.(removals := s.removals.(rebuild := true))
  }

  /** After an execution; `described` says that an overlay describes what it removed. */
  function ExcusedEnded(s: State, described: bool): State {
    var excuses := s.past.excuses.After(described);
    if !s.removals.excused || described then ExecutionOver(s, excuses)
    else if s.FirstMapIsOwed() then ExecutionOver(MustRebuild(s), excuses)
    else if s.available && s.published.Some? then ExecutionOver(Invalidated(s), excuses)
    else ExecutionOver(s, excuses)
  }

  function CompletedDeletion(s: State, report: Report, luck: Luck): State {
    var described := report.deleted && report.target.Some? && s.CanBeDescribed(report);
    ExcusedEnded(if report.deleted then Reconciled(Logged(s, report), report, luck) else s, described)
  }

  lemma LongerLog(s: State, r: Removal)
    requires s.Valid({}, None)
    ensures var log := s.past.log + [r];
            && Chain(s.removals, s.past.queued, log) && AsksSound(s.past.asks, s.past.queued, log)
            && MapsSound(s.published, s.past.rebuilds, s.past.rebuildFrom, log)
            && JobsSound(s.past.jobs, s.published, s.past.rebuilds, s.past.rebuildFrom, log)
  {
    hide Books, Line, State.Phases, State.FirstMap, State.Overtaken, State.Debts, State.AllCovered, MapSound;
    if s.published.Some? { LoggedSound(s.past.log, s.published.value, r); }
  }

  lemma StillTaken(paths: set<Path>, log: seq<Removal>, r: Removal)
    requires TakenBy(paths, log)
    ensures TakenBy(paths, log + [r])
  {
    forall p <- paths
      ensures exists k | 0 <= k < |log + [r]| :: Takes((log + [r])[k], p)
    {
      var k :| 0 <= k < |log| && Takes(log[k], p);
      assert Takes((log + [r])[k], p);
    }
  }

  lemma LoggedIsValid(s: State, report: Report)
    requires s.Valid({}, None)
    ensures Logged(s, report).Valid({|s.past.log|}, None)
  {
    hide Books, Line, Chain, AsksSound, MapsSound, JobsSound, TakenBy;
    var now := Logged(s, report);
    LongerLog(s, now.past.log[|s.past.log|]);
    StillTaken(s.past.excuses.recorded, s.past.log, now.past.log[|s.past.log|]);
    forall i | 0 <= i < |now.past.log| && i != |s.past.log|
      ensures now.Covered(i)
    {
      assert s.Covered(i);
    }
  }

  lemma ChainAdded(removals: Removals, queued: seq<nat>, log: seq<Removal>, prefix: Path, before: bool, rebuild: bool)
    requires log != [] && Chain(removals, queued, log[..|log| - 1])
    requires |removals.prefixes| < MAX_REMOVALS_BEFORE_FIRST_MAP && log[|log| - 1].prefix == Some(prefix) && log[|log| - 1].beforeMap == before
    requires before ==> removals.recordedBeforeMap == |queued|
    requires removals.rebuild ==> rebuild
    requires rebuild || log[|log| - 1].described
    ensures Chain(Removals(removals.prefixes + [prefix], rebuild, removals.excused,
                           removals.recordedBeforeMap + if before then 1 else 0), queued + [|log| - 1], log)
  {
    assert forall k | 0 <= k < |queued| :: log[..|log| - 1][queued[k]] == log[queued[k]];
  }

  lemma AsksQueued(asks: seq<Ask>, queued: seq<nat>, log: seq<Removal>)
    requires log != [] && AsksSound(asks, queued, log[..|log| - 1])
    ensures AsksSound(asks, queued + [|log| - 1], log)
  {
    var longer := queued + [|log| - 1];
    assert forall q <- longer :: q in queued || q == |log| - 1;
    forall k, q | 0 <= k < |asks| && q in longer
      ensures asks[k].removal < q
    {
    }
  }

  /** The newest removal is on record and not accounted for yet. */
  ghost predicate JustLogged(s: State) {
    && s.past.log != [] && s.Valid({|s.past.log| - 1}, None)
    && Chain(s.removals, s.past.queued, s.past.log[..|s.past.log| - 1])
    && AsksSound(s.past.asks, s.past.queued, s.past.log[..|s.past.log| - 1])
  }

  lemma LoggedIsJustLogged(s: State, report: Report)
    requires s.Valid({}, None)
    ensures JustLogged(Logged(s, report))
  {
    hide Books, Line, State.Phases, State.FirstMap, State.Overtaken, State.Debts, State.AllCovered, MapsSound;
    hide JobsSound;
    LoggedIsValid(s, report);
    assert (s.past.log + [Logged(s, report).past.log[|s.past.log|]])[..|s.past.log|] == s.past.log;
  }

  lemma NewestQueued(s: State, now: State)
    requires s.past.log != [] && s.AllCovered({|s.past.log| - 1}) && now.past.log == s.past.log
    requires now.past.queued == s.past.queued + [|s.past.log| - 1]
    requires now == s.(removals := now.removals, past := s.past.(queued := now.past.queued))
    requires s.removals.rebuild ==> now.removals.rebuild
    ensures now.AllCovered({})
  {
    assert |s.past.log| - 1 in now.past.queued;
    forall i | 0 <= i < |now.past.log|
      ensures now.Covered(i)
    {
      assert i == |s.past.log| - 1 || s.Covered(i);
      assert i in s.past.queued ==> i in now.past.queued;
    }
  }

  lemma QueuedIsValid(s: State, prefix: Path)
    requires JustLogged(s) && s.published.Some? && |s.removals.prefixes| < MAX_REMOVALS_BEFORE_FIRST_MAP
    requires s.past.log[|s.past.log| - 1] == Removal(Some(prefix), true, false)
    ensures Queued(s, prefix).Valid({}, None)
  {
    hide Books, Line, Chain, AsksSound, MapsSound, JobsSound, State.AllCovered;
    ChainAdded(s.removals, s.past.queued, s.past.log, prefix, false, s.removals.rebuild);
    AsksQueued(s.past.asks, s.past.queued, s.past.log);
    NewestQueued(s, Queued(s, prefix));
  }

  lemma RecordedIsValid(s: State, report: Report)
    requires JustLogged(s) && s.FirstMapIsOwed()
    requires s.past.log[|s.past.log| - 1] == Removal(report.target, report.target.Some? && s.CanBeDescribed(report), true)
    ensures Recorded(s, report).Valid({}, None)
  {
    hide Books, Line, Chain, AsksSound, MapsSound, JobsSound, State.AllCovered;
    var r, now := s.removals, Recorded(s, report);
    if report.target.Some? && |r.prefixes| < MAX_REMOVALS_BEFORE_FIRST_MAP {
      ChainAdded(r, s.past.queued, s.past.log, report.target.value, true, now.removals.rebuild);
      AsksQueued(s.past.asks, s.past.queued, s.past.log);
      NewestQueued(s, now);
    } else {
      RebuildFlagged(s);
    }
  }

  lemma RebuildFlagged(s: State)
    requires Chain(s.removals, s.past.queued, s.past.log)
    ensures Chain(s.removals.(rebuild := true), s.past.queued, s.past.log)
    ensures s.(removals := s.removals.(rebuild := true)).AllCovered({})
  {
  }

  lemma ReconciledIsValid(s: State, report: Report, luck: Luck)
    requires JustLogged(s)
    requires s.past.log[|s.past.log| - 1] ==
             Removal(report.target, report.target.Some? && s.CanBeDescribed(report), s.FirstMapIsOwed())
    ensures Reconciled(s, report, luck).Valid({}, None)
  {
    hide State.Valid, Invalidated, Recorded, Queued, NextOverlay, Chain, AsksSound;
    if s.FirstMapIsOwed() {
      RecordedIsValid(s, report);
    } else {
      InvalidatedIsValid(s, {|s.past.log| - 1}, None);
      if report.target.Some? && s.CanBeDescribed(report) && s.published.Some?
         && |s.removals.prefixes| < MAX_REMOVALS_BEFORE_FIRST_MAP {
        QueuedIsValid(s, report.target.value);
        NextOverlayIsValid(Queued(s, report.target.value), luck);
      }
    }
  }

  lemma ExecutionOverIsValid(s: State, excuses: Excuses)
    requires s.Valid({}, None) && excuses.now == {} && (excuses.owed != {} ==> s.RebuildOwed())
    requires TakenBy(excuses.recorded, s.past.log)
    ensures ExecutionOver(s, excuses).Valid({}, None)
  {
    hide Books, Line, AsksSound, MapsSound, JobsSound, TakenBy;
    StaysCovered(s, ExecutionOver(s, excuses), {});
  }

  /** What the execution removed is on record, if it removed something that an overlay describes. */
  ghost predicate OnRecord(s: State, described: bool) {
    described && s.executing.Some? ==> exists r | 0 <= r < |s.past.log| :: s.past.log[r].prefix == s.executing
  }

  lemma ExcusesTaken(s: State, described: bool)
    requires s.Debts() && OnRecord(s, described)
    ensures TakenBy(s.past.excuses.After(described).recorded, s.past.log)
  {
    hide State.RebuildOwed;
    var log := s.past.log;
    if described && s.past.excuses.now != {} {
      var q :| q in s.past.excuses.now;
      assert s.executing.Some?;
      var r :| 0 <= r < |log| && log[r].prefix == s.executing;
      forall p <- s.past.excuses.now
        ensures exists r | 0 <= r < |log| :: Takes(log[r], p)
      {
        assert Takes(log[r], p);
      }
    }
  }

  lemma MustRebuildIsValid(s: State)
    requires s.Valid({}, None) && s.FirstMapIsOwed()
    ensures s.(removals := s.removals.(rebuild := true)).Valid({}, None)
  {
    hide Books, Line, AsksSound, MapsSound, JobsSound, State.AllCovered, Chain;
    RebuildFlagged(s);
  }

  lemma ExcusedEndedIsValid(s: State, described: bool)
    requires s.Valid({}, None) && OnRecord(s, described)
    ensures ExcusedEnded(s, described).Valid({}, None)
  {
    ExcusesTaken(s, described);
    InvalidatedLog(s);
    hide State.Valid, ExecutionOver, Invalidated, OnRecord, TakenBy;
    var excuses := s.past.excuses.After(described);
    OwedNow(s);
    if !s.removals.excused || described {
      ExecutionOverIsValid(s, excuses);
    } else if s.FirstMapIsOwed() {
      MustRebuildIsValid(s);
      ExecutionOverIsValid(s.(removals := s.removals.(rebuild := true)), excuses);
    } else if s.available && s.published.Some? {
      InvalidatedIsValid(s, {}, None);
      ExecutionOverIsValid(Invalidated(s), excuses);
    } else {
      ExecutionOverIsValid(s, excuses);
    }
  }

  lemma OwedNow(s: State)
    requires s.Valid({}, None)
    ensures s.past.excuses.owed != {} ==> s.RebuildOwed()
    ensures s.past.excuses.now != {} && !s.removals.excused ==> s.RebuildOwed()
    ensures !s.FirstMapIsOwed() && !(s.available && s.published.Some?) ==> s.RebuildOwed()
  {
    hide Books, Line, AsksSound, MapsSound, JobsSound, State.AllCovered, Chain;
  }

  lemma NewestRemoval(s: State, report: Report)
    ensures var now := Logged(s, report);
            && now.past.log != []
            && now.past.log[|now.past.log| - 1]
               == Removal(report.target, report.target.Some? && now.CanBeDescribed(report), now.FirstMapIsOwed())
  {
  }

  lemma CompletedDeletionIsValid(s: State, report: Report, luck: Luck)
    requires s.Valid({}, None) && IsOfExecution(s, report)
    ensures CompletedDeletion(s, report, luck).Valid({}, None)
  {
    DeletionOnRecord(s, report, luck);
    hide State.Valid, Reconciled, ExcusedEnded, JustLogged, Logged, OnRecord;
    var described := report.deleted && report.target.Some? && s.CanBeDescribed(report);
    if report.deleted {
      LoggedIsJustLogged(s, report);
      NewestRemoval(s, report);
      ReconciledIsValid(Logged(s, report), report, luck);
      ExcusedEndedIsValid(Reconciled(Logged(s, report), report, luck), described);
    } else {
      ExcusedEndedIsValid(s, described);
    }
  }

  /** A report is of the deletion that is executing; that of the scan root names no target. */
  predicate IsOfExecution(s: State, report: Report) {
    s.executing.Some? && report.target == if s.executing.value == [] then None else s.executing
  }

  lemma DeletionOnRecord(s: State, report: Report, luck: Luck)
    requires IsOfExecution(s, report)
    ensures var described := report.deleted && report.target.Some? && s.CanBeDescribed(report);
            OnRecord(if report.deleted then Reconciled(Logged(s, report), report, luck) else s, described)
  {
    hide Reconciled, Logged, State.CanBeDescribed;
    if report.deleted {
      NewestRemoval(s, report);
      LoggedLog(s, report);
      ReconciledLog(Logged(s, report), report, luck);
      var log := Logged(s, report).past.log;
      assert report.target.Some? ==> log[|log| - 1].prefix == s.executing;
    }
  }

  /** While the first map is owed: the path lies below a removal that waits for it, or below what is being
      deleted. */
  predicate RemovedByADeletion(s: State, path: Path) {
    s.FirstMapIsOwed() && ((exists p <- s.removals.prefixes :: p <= path) || (s.executing.Some? && s.executing.value <= path))
  }

  /** A failure below a removal on record is excused for good, one below the target of the deletion that is
      executing until that one ends. */
  function ScanFailed(s: State, path: Path): State {
    if !RemovedByADeletion(s, path) then s
    else if exists p <- s.removals.prefixes :: p <= path then RecordedExcuse(s, path)
    else ExcusedForNow(s, path)
  }

  function RecordedExcuse(s: State, path: Path): State {
    s.(past := s.past.(excuses := s.past.excuses.(recorded := s.past.excuses.recorded + {path})))
  }

  function ExcusedForNow(s: State, path: Path): State {
    s.(removals := s.removals.(excused := true),
       past := s.past.(excuses := s.past.excuses.(now := s.past.excuses.now + {path})))
  }

  lemma RecordedTakes(s: State, path: Path)
    requires Chain(s.removals, s.past.queued, s.past.log) && exists p <- s.removals.prefixes :: p <= path
    ensures exists r | 0 <= r < |s.past.log| :: Takes(s.past.log[r], path)
  {
    var k :| 0 <= k < |s.removals.prefixes| && s.removals.prefixes[k] <= path;
    assert Takes(s.past.log[s.past.queued[k]], path);
  }

  lemma RecordedExcuseIsValid(s: State, path: Path)
    requires s.Valid({}, None) && exists p <- s.removals.prefixes :: p <= path
    ensures RecordedExcuse(s, path).Valid({}, None) && RecordedExcuse(s, path).past.excuses.Has(path)
  {
    hide Books, Line, AsksSound, MapsSound, JobsSound, State.AllCovered;
    RecordedTakes(s, path);
    StaysCovered(s, RecordedExcuse(s, path), {});
  }

  lemma ExcusedForNowIsValid(s: State, path: Path)
    requires s.Valid({}, None) && s.executing.Some? && s.executing.value <= path
    ensures ExcusedForNow(s, path).Valid({}, None) && ExcusedForNow(s, path).past.excuses.Has(path)
  {
    hide Books, Line, AsksSound, MapsSound, JobsSound, State.AllCovered, TakenBy;
    StaysCovered(s, ExcusedForNow(s, path), {});
  }

  lemma ScanFailedIsValid(s: State, path: Path)
    requires s.Valid({}, None)
    ensures ScanFailed(s, path).Valid({}, None)
    ensures RemovedByADeletion(s, path) ==> ScanFailed(s, path).past.excuses.Has(path)
  {
    hide State.Valid, RecordedExcuse, ExcusedForNow, Excuses.Has;
    if RemovedByADeletion(s, path) {
      if exists p <- s.removals.prefixes :: p <= path {
        RecordedExcuseIsValid(s, path);
      } else {
        ExcusedForNowIsValid(s, path);
      }
    }
  }

  // ---- rebuilds ----

  /** A new scan of the tree begins, when one is required and nothing is in its way. */
  function BegunRebuild(s: State, accepted: bool): State {
    if !s.required || s.active || s.suppressed || s.Busy() || s.primaryScanning || !accepted then s
    else NewRebuild(s)
  }

  function NewRebuild(s: State): State {
    s.(available := true, active := true, invalidated := false, required := false, rebuildScanning := true,
       past := s.past.(storeActive := true, rebuilds := s.past.rebuilds + 1, rebuildFrom := |s.past.log|))
  }

  lemma BegunRebuildIsValid(s: State, accepted: bool)
    requires s.Valid({}, None)
    ensures BegunRebuild(s, accepted).Valid({}, None)
  {
    hide Chain, AsksSound, MapSound;
    var now := BegunRebuild(s, accepted);
    MapsKnown(s);
  }

  lemma MapsKnown(s: State)
    requires s.Valid({}, None)
    ensures s.published.Some? ==> forall i <- s.published.value.without :: i < |s.past.log|
  {
  }

  function RebuildOpen(s: State): State {
    s.(past := s.past.(begun := s.past.begun + [Rebuild]))
  }

  /** The rebuild's scan ended: its map is to be published, unless nothing wants it any more. */
  function RebuildScanEnded(s: State, cancelled: bool, accepted: bool): State {
    var over := s.(rebuildScanning := false);
    if cancelled then CancelledRebuild(over)
    else
      var now := RebuildOpen(over);
      if s.invalidated then Over(now, RebuildDone(false))
      else if s.suppressed then Over(now, RebuildCancelled)
      else if s.available && accepted then Requested(now, Rebuild)
      else Over(StoreFailed(now), RebuildDone(true))
  }

  /** The reader cancelled the rebuild: the map on screen stays, and is stale. */
  function CancelledRebuild(s: State): State {
    if !s.active then s
    else
      var kept := s.available && s.Retains();
      s.(active := false, invalidated := false, required := true, available := kept,
         provisional := s.provisional || !kept, cached := s.cached || !kept,
         past := s.past.(storeActive := false))
  }

  lemma CancelledFlags(s: State)
    requires s.rebuildScanning
    ensures FlagsKept(s, CancelledRebuild(s.(rebuildScanning := false)), None, None)
  {
    if s.available && s.Retains() {
    } else {
    }
  }

  lemma CancelledRebuildIsValid(s: State)
    requires s.Valid({}, None) && s.rebuildScanning
    ensures CancelledRebuild(s.(rebuildScanning := false)).Valid({}, None)
  {
    RebuildScans(s);
    hide Chain, AsksSound, MapsSound, JobsSound, Books, Line, State.Phases, State.FirstMap, State.Overtaken;
    hide State.Debts;
    CancelledFlags(s);
    if s.available && s.Retains() {
    } else {
    }
  }

  lemma RebuildOpened(s: State)
    requires s.Valid({}, None) && s.rebuildScanning
    ensures s.(rebuildScanning := false, past := s.past.(begun := s.past.begun + [Rebuild])).Valid({}, Some(Rebuild))
    ensures |s.publications| <= 1
  {
    hide Chain, AsksSound, MapsSound, JobsSound;
    var now := s.(rebuildScanning := false, past := s.past.(begun := s.past.begun + [Rebuild]));
    assert !s.InFlight(Primary, None) && !s.InFlight(Rebuild, None);
    StaysCovered(s, now, {});
  }

  lemma RebuildScanEndedIsValid(s: State, cancelled: bool, accepted: bool)
    requires s.Valid({}, None) && s.rebuildScanning
    ensures RebuildScanEnded(s, cancelled, accepted).Valid({}, None)
  {
    hide State.Valid, CancelledRebuild, Over, Requested;
    if cancelled {
      CancelledRebuildIsValid(s);
    } else {
      var now := s.(rebuildScanning := false, past := s.past.(begun := s.past.begun + [Rebuild]));
      RebuildOpened(s);
      if s.invalidated {
        OverIsValid(now, Rebuild, RebuildDone(false));
      } else if s.suppressed {
        OverIsValid(now, Rebuild, RebuildCancelled);
      } else if s.available && accepted {
        RequestedIsValid(now, Rebuild);
      } else {
        StoreFailedIsValid(now, {}, Some(Rebuild));
        OverIsValid(StoreFailed(now), Rebuild, RebuildDone(true));
      }
    }
  }

  lemma RebuildScans(s: State)
    requires s.Valid({}, None) && s.rebuildScanning
    ensures s.finished == [] && Rebuild !in s.publications && Primary !in s.publications && s.active
    ensures |s.past.ended| == |s.past.begun|
    ensures s.(rebuildScanning := false).(rebuildScanning := true) == s
  {
    hide Chain, AsksSound, MapsSound, JobsSound, State.AllCovered;
    assert !s.InFlight(Primary, None) && !s.InFlight(Rebuild, None);
  }

  /** A finished rebuild is settled. */
  function FinishedRebuild(s: State, failed: bool, loads: bool): State {
    if s.invalidated then RebuildSettled(s)
    else if failed then Abandoned(RebuildSettled(s))
    else RebuildShown(RebuildSettled(s), loads)
  }

  function RebuildSettled(s: State): State {
    s.(active := false, required := s.invalidated, invalidated := false)
  }

  /** The new map replaces the old one on screen, if its pages can be read. */
  function RebuildShown(s: State, loads: bool): State {
    if loads then s.(suppressed := false, cached := true, provisional := false)
    else s.(suppressed := false, available := false, cached := true, provisional := true)
  }

  /** The primary scan is over for the reader; what the first map is owed may be taken out of it. */
  function StartedUi(s: State, luck: Luck): State {
    NextOverlay(s.(loaded := true), luck)
  }

  /** What is left to do for a finished publication. */
  function TakenFinished(s: State, loads: bool, luck: Luck): State {
    if s.finished == [] then s
    else
      var now := s.(finished := s.finished[1..]);
      match s.finished[0]
      case PrimaryDone => StartedUi(now, luck)
      case RebuildDone(failed) => FinishedRebuild(now, failed, loads)
      case RebuildCancelled => CancelledRebuild(now)
  }

  lemma BooksTaken(begun: seq<Pending>, ended: seq<Finished>, publications: seq<Pending>, finished: seq<Finished>)
    requires Books(begun, ended, publications, None, finished)
    ensures Books(begun, ended, publications, None, [])
  {
  }

  lemma FinishedFlags(s: State, failed: bool, loads: bool)
    requires s.finished == [RebuildDone(failed)] && (s.invalidated || !failed)
    ensures FlagsKept(s, FinishedRebuild(s.(finished := []), failed, loads), None, None)
  {
    if s.invalidated {
    } else if loads {
    } else {
    }
  }

  lemma FinishedIsCovered(s: State, failed: bool, loads: bool)
    requires s.AllCovered({}) && s.Phases(None) && s.FirstMap(None) && s.finished == [RebuildDone(failed)]
    requires s.invalidated || !failed
    ensures FinishedRebuild(s.(finished := []), failed, loads).AllCovered({})
  {
    var now := FinishedRebuild(s.(finished := []), failed, loads);
    forall i | 0 <= i < |s.past.log|
      ensures now.Covered(i)
    {
      assert s.Covered(i);
      if s.invalidated {
      } else if loads {
      } else {
      }
    }
  }

  /** A publication that ended was taken, and only flags changed. */
  lemma TakenIsValid(s: State, now: State)
    requires s.Valid({}, None) && FlagsKept(s, now, None, None) && now.AllCovered({}) && now.finished == []
    requires now.past == s.past && now.publications == s.publications && now.published == s.published
    requires now.removals == s.removals && now.primaryScanning == s.primaryScanning
    ensures now.Valid({}, None)
  {
    hide Chain, AsksSound, MapsSound, JobsSound, Books, Line, State.Phases, State.FirstMap, State.Overtaken;
    hide State.Debts;
    hide State.AllCovered;
    BooksTaken(s.past.begun, s.past.ended, s.publications, s.finished);
  }

  lemma SettledRebuildIsValid(s: State, failed: bool, loads: bool)
    requires s.Valid({}, None) && s.finished == [RebuildDone(failed)] && (s.invalidated || !failed)
    ensures FinishedRebuild(s.(finished := []), failed, loads).Valid({}, None)
  {
    FinishedIsCovered(s, failed, loads);
    hide State.Valid, FlagsKept, State.AllCovered;
    FinishedFlags(s, failed, loads);
    if s.invalidated {
      TakenIsValid(s, FinishedRebuild(s.(finished := []), failed, loads));
    } else if loads {
      TakenIsValid(s, FinishedRebuild(s.(finished := []), failed, loads));
    } else {
      TakenIsValid(s, FinishedRebuild(s.(finished := []), failed, loads));
    }
  }

  /** A rebuild whose map could not be published leaves no map to go on with. */
  function RebuildLost(s: State): State {
    s.(finished := [], available := false, active := false, required := false, invalidated := false)
  }

  lemma LostFlags(s: State)
    requires s.finished == [RebuildDone(true)] && !s.invalidated
    ensures FlagsKept(s, RebuildLost(s), None, None)
  {
  }

  lemma LostRebuildIsValid(s: State)
    requires s.Valid({}, None) && s.finished == [RebuildDone(true)] && !s.invalidated
    ensures RebuildLost(s).Valid({}, None)
  {
    hide Chain, AsksSound, MapsSound, JobsSound, Books, Line, State.Phases, State.FirstMap, State.Overtaken;
    hide State.Debts;
    LostFlags(s);
    BooksTaken(s.past.begun, s.past.ended, s.publications, s.finished);
  }

  lemma AbandonedIsValid(s: State)
    requires s.Valid({}, None)
    ensures Abandoned(s).Valid({}, None)
  {
    hide Line, Books, MapsSound, JobsSound;
  }

  lemma FinishedRebuildIsValid(s: State, failed: bool, loads: bool)
    requires s.Valid({}, None) && s.finished == [RebuildDone(failed)]
    ensures FinishedRebuild(s.(finished := []), failed, loads).Valid({}, None)
  {
    hide State.Valid;
    if s.invalidated || !failed {
      SettledRebuildIsValid(s, failed, loads);
    } else {
      LostRebuildIsValid(s);
      AbandonedIsValid(RebuildLost(s));
    }
  }

  lemma LoadedFlags(s: State)
    requires s.finished == [PrimaryDone] && s.Phases(None)
    ensures FlagsKept(s, s.(finished := [], loaded := true), None, None)
  {
    hide TakenBy;
  }

  lemma LoadedIsValid(s: State)
    requires s.Valid({}, None) && s.finished == [PrimaryDone]
    ensures s.(finished := [], loaded := true).Valid({}, None)
  {
    var now := s.(finished := [], loaded := true);
    LoadedFlags(s);
    hide State.Valid, FlagsKept;
    CoveredStill(s, now);
    TakenIsValid(s, now);
  }

  lemma CoveredStill(s: State, now: State)
    requires s.Valid({}, None) && now == s.(finished := [], loaded := true)
    ensures now.AllCovered({})
  {
    hide Chain, AsksSound, MapsSound, JobsSound, Books, Line, State.Phases, State.FirstMap, State.Overtaken;
    hide State.Debts;
    StaysCovered(s, now, {});
  }

  lemma CancelledIsValid(s: State)
    requires s.Valid({}, None) && s.finished == [RebuildCancelled]
    ensures CancelledRebuild(s.(finished := [])).Valid({}, None)
  {
    hide Chain, AsksSound, MapsSound, JobsSound, Books;
    var now := CancelledRebuild(s.(finished := []));
    BooksTaken(s.past.begun, s.past.ended, s.publications, s.finished);
    assert now.Phases(None);
    assert now.FirstMap(None);
  }

  lemma TakenFinishedIsValid(s: State, loads: bool, luck: Luck)
    requires s.Valid({}, None)
    ensures TakenFinished(s, loads, luck).Valid({}, None)
  {
    hide State.Valid, NextOverlay, FinishedRebuild, CancelledRebuild;
    OneFinished(s);
    if s.finished != [] {
      assert s.finished == [s.finished[0]] && s.finished[1..] == [];
      match s.finished[0] {
        case PrimaryDone =>
          LoadedIsValid(s);
          NextOverlayIsValid(s.(finished := [], loaded := true), luck);
        case RebuildDone(failed) => FinishedRebuildIsValid(s, failed, loads);
        case RebuildCancelled => CancelledIsValid(s);
      }
    }
  }

  lemma OneFinished(s: State)
    requires s.Valid({}, None)
    ensures |s.finished| <= 1
  {
  }

  // ---- the refresh that deletions owed ----

  /** The answer about the refresh that deletions asked for, when nothing is in its way any more. */
  function LandedRefresh(s: State): Option<Refresh> {
    if !s.refreshOwed || s.required || s.active || s.Busy() || !s.removals.IsEmpty() then None
    else Some(if s.available then Published else Failed)
  }

  function RefreshTaken(s: State): State {
    if LandedRefresh(s).None? then s
    else s.(refreshOwed := false, hidden := if s.available then [] else s.hidden,
            past := s.past.(answered := |s.past.log|))
  }

  lemma RefreshTakenIsValid(s: State)
    requires s.Valid({}, None)
    ensures RefreshTaken(s).Valid({}, None)
  {
    hide Chain, AsksSound, MapsSound, JobsSound, Books, Line;
    StaysCovered(s, RefreshTaken(s), {});
  }

  /** When a refresh is answered as published, every removal ever made is out of the installed map, and no
      map, overlay or rebuild is still owed. It answers for at least one removal, and only once. */
  lemma PublishedRefreshIsTrue(s: State)
    requires s.Valid({}, None) && LandedRefresh(s) == Some(Published)
    ensures s.past.answered < |s.past.log| && s.published.Some?
    ensures forall i | 0 <= i < |s.past.log| :: Reflects(s.published.value, i)
    ensures s.past.jobs == [] && s.past.queued == [] && !s.active && !s.required
    ensures LandedRefresh(RefreshTaken(s)) == None && RefreshTaken(s).hidden == []
  {
    assert s.published.Some? by {
      assert s.Covered(s.past.answered);
    }
    forall i | 0 <= i < |s.past.log|
      ensures Reflects(s.published.value, i)
    {
      assert s.Covered(i);
    }
  }

  // ---- every run ----

  /** What reaches the owner. `loads` says that the pages of a new map can be read. */
  datatype Event =
    | PrimaryScanEnds(accepted: bool)
    | RebuildScanEnds(cancelled: bool, accepted: bool)
    | StoreAnswers(reply: Reply, loads: bool, luck: Luck)
    | StoreStops
    | StoreFails
    | FinishedIsTaken(loads: bool, luck: Luck)
    | RebuildBegins(accepted: bool)
    | RebuildIsUnwanted
    | DeletionBegins(target: Path)
    | DeletionEnds(report: Report, luck: Luck)
    | DeletionIsDropped
    | ScanFails(path: Path)
    | RefreshIsTaken
    | PageTurns(cached: bool, provisional: bool)

  /** A scan ends while it runs, the store answers what it was asked, one deletion executes at a time, and a
      report is of that one. */
  predicate MayHappen(s: State, e: Event) {
    match e
    case PrimaryScanEnds(_) => s.primaryScanning
    case RebuildScanEnds(_, _) => s.rebuildScanning
    case StoreAnswers(reply, _, _) => s.past.jobs != [] && MayAnswer(s.past.jobs[0], reply)
    case DeletionBegins(_) => s.executing.None?
    case DeletionEnds(report, _) => IsOfExecution(s, report)
    case _ => true
  }

  /** Only these fields change. */
  function Changed(s: State, suppressed: bool, executing: Option<Path>, cached: bool, provisional: bool): State {
    s.(suppressed := suppressed, executing := executing, cached := cached, provisional := provisional)
  }

  function Next(s: State, e: Event): State {
    match e
    case PrimaryScanEnds(accepted) => BegunPrimary(s, accepted)
    case RebuildScanEnds(cancelled, accepted) => RebuildScanEnded(s, cancelled, accepted)
    case StoreAnswers(reply, loads, luck) => Answered(s, reply, loads, luck)
    case StoreStops => Stopped(s)
    case StoreFails => StoreFailed(s)
    case FinishedIsTaken(loads, luck) => TakenFinished(s, loads, luck)
    case RebuildBegins(accepted) => BegunRebuild(s, accepted)
    case RebuildIsUnwanted => Changed(s, s.suppressed || s.active, s.executing, s.cached, s.provisional)
    case DeletionBegins(target) => Changed(s, s.suppressed, Some(target), s.cached, s.provisional)
    case DeletionEnds(report, luck) => CompletedDeletion(s, report, luck)
    case DeletionIsDropped => ExcusedEnded(s, false)
    case ScanFails(path) => ScanFailed(s, path)
    case RefreshIsTaken => RefreshTaken(s)
    case PageTurns(cached, provisional) => Changed(s, s.suppressed, s.executing, cached, provisional)
  }

  lemma NextIsValid(s: State, e: Event)
    requires s.Valid({}, None) && MayHappen(s, e)
    ensures Next(s, e).Valid({}, None)
  {
    hide State.Valid, BegunPrimary, RebuildScanEnded, Answered, Stopped, Drained, StoreFailed, TakenFinished;
    hide BegunRebuild;
    hide CompletedDeletion, ExcusedEnded, ScanFailed, RefreshTaken, Changed;
    match e {
      case PrimaryScanEnds(accepted) => BegunPrimaryIsValid(s, accepted);
      case RebuildScanEnds(cancelled, accepted) => RebuildScanEndedIsValid(s, cancelled, accepted);
      case StoreAnswers(reply, loads, luck) => AnsweredIsValid(s, reply, loads, luck);
      case StoreStops => StoppedIsValid(s);
      case StoreFails => StoreFailedIsValid(s, {}, None);
      case FinishedIsTaken(loads, luck) => TakenFinishedIsValid(s, loads, luck);
      case RebuildBegins(accepted) => BegunRebuildIsValid(s, accepted);
      case RebuildIsUnwanted => PlainChangeIsValid(s, s.suppressed || s.active, s.executing, s.cached, s.provisional);
      case DeletionBegins(target) => PlainChangeIsValid(s, s.suppressed, Some(target), s.cached, s.provisional);
      case DeletionEnds(report, luck) => CompletedDeletionIsValid(s, report, luck);
      case DeletionIsDropped => ExcusedEndedIsValid(s, false);
      case ScanFails(path) => ScanFailedIsValid(s, path);
      case RefreshIsTaken => RefreshTakenIsValid(s);
      case PageTurns(cached, provisional) => PlainChangeIsValid(s, s.suppressed, s.executing, cached, provisional);
    }
  }

  lemma StoppedIsValid(s: State)
    requires s.Valid({}, None)
    ensures Stopped(s).Valid({}, None) && Stopped(s).publications == []
  {
    hide State.Valid, Drained, StoreFailed;
    StoreFailedIsValid(s, {}, None);
    DrainedIsValid(StoreFailed(s));
  }

  lemma PlainChangeIsValid(s: State, suppressed: bool, executing: Option<Path>, cached: bool, provisional: bool)
    requires s.Valid({}, None) && (executing == s.executing || s.executing.None?)
    ensures Changed(s, suppressed, executing, cached, provisional).Valid({}, None)
  {
    hide Chain, AsksSound, MapsSound, JobsSound, Books, Line;
    StaysCovered(s, Changed(s, suppressed, executing, cached, provisional), {});
  }

  /** The owner when the program starts: the primary scan runs, with a store or without one. */
  function Start(available: bool): State {
    State(available, false, true, true, None, [], [], false, false, false, false, NO_REMOVALS, false, [], None, true, false,
          Past([], true, [], 0, [], [], 0, 0, [], [], NO_EXCUSES))
  }

  ghost predicate IsRun(states: seq<State>, events: seq<Event>) {
    && |states| == |events| + 1 && states[0] in {Start(true), Start(false)}
    && forall i | 0 <= i < |events| :: MayHappen(states[i], events[i]) && states[i + 1] == Next(states[i], events[i])
  }

  /** The invariant holds in every state of every run. */
  lemma {:induction false} RunsAreValid(states: seq<State>, events: seq<Event>, i: nat)
    requires IsRun(states, events) && i < |states|
    ensures states[i].Valid({}, None)
  {
    hide State.Valid, Next, MayHappen;
    if i == 0 {
      StartIsValid(true);
      StartIsValid(false);
    } else {
      RunsAreValid(states, events, i - 1);
      NextIsValid(states[i - 1], events[i - 1]);
    }
  }

  lemma StartIsValid(available: bool)
    ensures Start(available).Valid({}, None)
  {
  }

  /** In every run: when a refresh is answered as published, each removal made so far has been taken out of
      the installed map, or the map is of a scan begun after it; nothing is still owed; and the answer is
      given once. */
  lemma RefreshesAreTrue(states: seq<State>, events: seq<Event>, i: nat)
    requires IsRun(states, events) && i < |states| && LandedRefresh(states[i]) == Some(Published)
    ensures states[i].published.Some?
    ensures forall r | 0 <= r < |states[i].past.log| :: Reflects(states[i].published.value, r)
    ensures states[i].past.jobs == [] && states[i].past.queued == [] && !states[i].required && !states[i].active
    ensures LandedRefresh(RefreshTaken(states[i])) == None
  {
    hide State.Valid, IsRun, LandedRefresh, RefreshTaken, Reflects;
    RunsAreValid(states, events, i);
    PublishedRefreshIsTrue(states[i]);
  }

  /** A refresh can be answered: a removal has not been answered for, and nothing is outstanding, finished,
      waiting, required or under way. */
  predicate Answerable(s: State) {
    && s.past.answered < |s.past.log| && s.past.jobs == [] && s.finished == [] && s.past.queued == []
    && !s.removals.rebuild && !s.required && !s.active
  }

  /** In every run: an answer is given exactly when a refresh can be answered, it is that a map was published
      exactly if the store is there, and that none will be exactly if it is not; the paths left out of the view
      are listed again exactly when a map was published. */
  lemma RefreshesAreAnsweredExactly(states: seq<State>, events: seq<Event>, i: nat)
    requires IsRun(states, events) && i < |states|
    ensures LandedRefresh(states[i]) == Some(Published) <==> Answerable(states[i]) && states[i].available
    ensures LandedRefresh(states[i]) == Some(Failed) <==> Answerable(states[i]) && !states[i].available
    ensures var now := RefreshTaken(states[i]);
            if Answerable(states[i])
            then now.past.answered == |now.past.log| && now.hidden == (if states[i].available then [] else states[i].hidden)
            else now == states[i]
  {
    RunsAreValid(states, events, i);
    AnswersExactly(states[i]);
  }

  lemma AnswersExactly(s: State)
    requires s.Valid({}, None)
    ensures LandedRefresh(s) == Some(Published) <==> Answerable(s) && s.available
    ensures LandedRefresh(s) == Some(Failed) <==> Answerable(s) && !s.available
  {
    hide Books, AsksSound, MapsSound, JobsSound, State.Phases, State.FirstMap, State.Overtaken, State.AllCovered;
  }

  // ---- what becomes of a removal ----

  const FINE := Luck(true, true, true)

  /** An overlay can take the deletion's target out of the installed map. */
  predicate Overlayable(s: State, report: Report) {
    && s.available && report.target.Some? && report.whole && !report.otherLinks
    && s.published.Some? && (forall p <- s.publications :: p.Overlay?)
    && |s.removals.prefixes| < MAX_REMOVALS_BEFORE_FIRST_MAP
  }

  /** Nothing but the publications, the removals that wait and the books differs. */
  predicate MapAndDutiesKept(s: State, now: State) {
    && now.available == s.available && now.required == s.required && now.active == s.active
    && now.invalidated == s.invalidated && now.published == s.published && now.refreshOwed == s.refreshOwed
    && now.past.log == s.past.log && now.past.answered == s.past.answered
  }

  lemma OverlayIsNext(s: State)
    requires s.available && s.published.Some? && s.removals.prefixes != [] && s.past.queued != []
    ensures var now := NextOverlay(s, FINE);
            && MapAndDutiesKept(s, now)
            && if s.publications != [] then now == s
               else now.past.queued == s.past.queued[1..] && |now.past.jobs| == 1 && now.past.jobs[0].Derive?
                    && now.past.jobs[0].removal == s.past.queued[0]
  {
    hide Invalidated;
  }

  /** What the store is asked for: the map less the removal that has waited longest, told which targets of later
      removals are gone from the tree too, and to check the scan root if that removal was made before the map. */
  lemma OverlayIsAskedFor(s: State, advanced: bool)
    requires s.Valid({}, None) && s.available && s.publications == [] && s.published.Some? && s.removals.prefixes != []
    ensures var now, log, queued := NextOverlay(s, Luck(true, true, advanced)), s.past.log, s.past.queued;
            && queued != [] && |now.past.asks| == |s.past.asks| + 1 && s.past.asks < now.past.asks
            && var ask := now.past.asks[|s.past.asks|];
            && ask.removal == queued[0] < |log| && ask.verifyRoot == log[queued[0]].beforeMap
            && |ask.later| == |queued| - 1
            && (forall k | 0 <= k < |ask.later| :: queued[k + 1] < |log| && log[queued[k + 1]].prefix == Some(ask.later[k]))
            && (advanced ==> |now.past.jobs| == 1 && now.past.jobs[0].Derive?
                             && now.past.jobs[0].base == s.published.value && now.past.jobs[0].removal == queued[0]
                             && log[queued[0]].prefix == Some(now.past.jobs[0].prefix))
  {
    hide Books, AsksSound, MapsSound, JobsSound, State.Phases, State.FirstMap, State.Overtaken, State.AllCovered;
    hide State.Debts;
    hide State.Retains;
  }

  lemma LastOf(order: seq<nat>, last: nat)
    requires order != [] && order[|order| - 1] == last
    ensures last in order && (order[0] == last || last in order[1..])
  {
    if |order| > 1 { assert order[1..][|order| - 2] == last; }
  }

  lemma QueuedIsTakenUp(s: State, prefix: Path)
    requires s.available && s.published.Some? && s.past.log != []
    ensures var now := NextOverlay(Queued(s, prefix), FINE);
            && MapAndDutiesKept(s, now)
            && (|s.past.log| - 1 in now.past.queued || Outstanding(now.past.jobs, |s.past.log| - 1))
  {
    hide NextOverlay;
    var queued := Queued(s, prefix);
    OverlayIsNext(queued);
    LastOf(queued.past.queued, |s.past.log| - 1);
    var now := NextOverlay(queued, FINE);
    if s.publications == [] { assert now.past.jobs[0] in now.past.jobs; }
  }

  /** A map that is out of date stays on screen if its pages are all there, and is to be scanned again. */
  lemma InvalidatedRequires(s: State)
    ensures var now := Invalidated(s);
            && now.published == s.published && !now.suppressed
            && (now.available <==> s.published.Some? && s.cached && !s.provisional)
            && now.required && now.removals == NO_REMOVALS && now.past.queued == []
            && (s.active || s.invalidated ==> now.invalidated) && now.active == s.active
            && now.refreshOwed == s.refreshOwed && now.past.log == s.past.log && now.past.answered == s.past.answered
  {
  }

  lemma LuckIsNotNeeded(s: State, luck: Luck)
    requires s.publications != [] || luck == FINE
    ensures NextOverlay(s, luck) == NextOverlay(s, FINE)
  {
  }

  lemma UnluckyOverlay(s: State, prefix: Path, luck: Luck)
    requires s.available && s.published.Some? && s.publications == [] && luck != FINE
    ensures var now := NextOverlay(Queued(s, prefix), luck);
            && now.required && now.removals == NO_REMOVALS && now.past.queued == []
            && (s.active || s.invalidated ==> now.invalidated) && now.refreshOwed == s.refreshOwed
            && now.past.log == s.past.log && now.past.answered == s.past.answered
  {
    hide Invalidated;
    InvalidatedRequires(Queued(s, prefix));
    InvalidatedRequires(OverlayAsked(Queued(s, prefix)));
  }

  lemma LoggedMeans(s: State, report: Report)
    ensures var now := Logged(s, report);
            && now.refreshOwed && |now.past.log| == |s.past.log| + 1 && now.past.answered == s.past.answered
            && now.FirstMapIsOwed() == s.FirstMapIsOwed() && Overlayable(now, report) == Overlayable(s, report)
            && now.CanBeDescribed(report) == s.CanBeDescribed(report) && now.publications == s.publications
            && now.available == s.available && now.required == s.required && now.active == s.active
            && now.invalidated == s.invalidated && now.published == s.published && now.removals == s.removals
  {
  }

  lemma ReconciledMeans(s: State, report: Report, luck: Luck)
    requires !s.FirstMapIsOwed()
    ensures Reconciled(s, report, luck) == if Overlayable(s, report)
      then NextOverlay(Queued(s, report.target.value), luck) else Invalidated(s)
  {
    hide NextOverlay, Invalidated, Queued, Recorded;
  }

  lemma ExecutionOverMeans(s: State, excuses: Excuses)
    ensures var now := ExecutionOver(s, excuses);
            && MapAndDutiesKept(s, now) && now.past.queued == s.past.queued && now.past.jobs == s.past.jobs
            && now.removals == s.removals.(excused := false) && now.FirstMapIsOwed() == s.FirstMapIsOwed()
  {
  }

  lemma MustRebuildMeans(s: State)
    ensures MapAndDutiesKept(s, MustRebuild(s)) && MustRebuild(s).removals == s.removals.(rebuild := true)
    ensures MustRebuild(s).FirstMapIsOwed() == s.FirstMapIsOwed()
  {
  }

  /** An execution's end changes nothing that an overlay describes, and takes back no scan that is required. */
  lemma ExcusedEndedMeans(s: State, described: bool)
    ensures described ==> var now := ExcusedEnded(s, described);
            MapAndDutiesKept(s, now) && now.past.queued == s.past.queued && now.past.jobs == s.past.jobs
    ensures s.required && s.removals == NO_REMOVALS && s.past.queued == [] ==> var now := ExcusedEnded(s, described);
            && now.refreshOwed == s.refreshOwed && now.past.log == s.past.log && now.past.answered == s.past.answered
            && now.required && now.removals.IsEmpty() && now.past.queued == [] && (s.invalidated ==> now.invalidated)
  {
    hide Invalidated, ExecutionOver, MustRebuild, Excuses.After;
    InvalidatedRequires(s);
    var excuses := s.past.excuses.After(described);
    ExecutionOverMeans(s, excuses);
    ExecutionOverMeans(Invalidated(s), excuses);
  }

  /** Once the first map is shown, a removal that an overlay describes waits for its overlay, or is on its way, and
      no new scan is asked for, unless the overlay is to be asked for and that goes wrong; any other has the tree
      scanned again, and a rebuild under way does not stand. */
  lemma RemovalIsTakenUp(s: State, report: Report, luck: Luck)
    requires IsOfExecution(s, report) && report.deleted && !s.FirstMapIsOwed()
    ensures var now := CompletedDeletion(s, report, luck);
            && now.refreshOwed && |now.past.log| == |s.past.log| + 1 && now.past.answered == s.past.answered
            && if Overlayable(s, report) && (s.publications != [] || luck == FINE)
               then && now.required == s.required && now.active == s.active && now.invalidated == s.invalidated
                    && now.available && now.published == s.published
                    && (|s.past.log| in now.past.queued || Outstanding(now.past.jobs, |s.past.log|))
               else now.required && now.removals.IsEmpty() && now.past.queued == [] && (s.active ==> now.invalidated)
  {
    hide Invalidated, NextOverlay, Logged, Reconciled, ExcusedEnded;
    var logged, described := Logged(s, report), report.target.Some? && s.CanBeDescribed(report);
    LoggedMeans(s, report);
    ReconciledMeans(logged, report, luck);
    InvalidatedRequires(logged);
    if Overlayable(s, report) {
      if s.publications == [] && luck != FINE {
        UnluckyOverlay(logged, report.target.value, luck);
      } else {
        LuckIsNotNeeded(Queued(logged, report.target.value), luck);
        QueuedIsTakenUp(logged, report.target.value);
      }
    }
    ExcusedEndedMeans(Reconciled(logged, report, luck), described);
  }

  lemma RecordedMeans(s: State, report: Report)
    requires s.FirstMapIsOwed()
    ensures var now := Recorded(s, report);
            var kept := report.target.Some? && |s.removals.prefixes| < MAX_REMOVALS_BEFORE_FIRST_MAP;
            && now.FirstMapIsOwed() && now.refreshOwed == s.refreshOwed
            && now.removals.prefixes == s.removals.prefixes + (if kept then [report.target.value] else [])
            && (now.removals.rebuild <==> s.removals.rebuild || !kept || !report.whole || report.otherLinks)
  {
  }

  lemma ExcusedBeforeFirstMap(s: State, described: bool)
    requires s.FirstMapIsOwed()
    ensures var now := ExcusedEnded(s, described);
            && now.FirstMapIsOwed() && now.refreshOwed == s.refreshOwed && now.removals.prefixes == s.removals.prefixes
            && (now.removals.rebuild <==> s.removals.rebuild || (s.removals.excused && !described))
  {
    hide Invalidated, ExecutionOver, MustRebuild, Excuses.After;
    var excuses := s.past.excuses.After(described);
    MustRebuildMeans(s);
    ExecutionOverMeans(s, excuses);
    ExecutionOverMeans(MustRebuild(s), excuses);
  }

  /** While the first map is owed, no scan is asked for: the target waits for it if there is a place, and that map
      will be scanned again exactly if some removal found none, was partial, left other links, or was the root's. */
  lemma EarlyRemovalIsRecorded(s: State, report: Report, luck: Luck)
    requires IsOfExecution(s, report) && report.deleted && s.FirstMapIsOwed()
    ensures var now := CompletedDeletion(s, report, luck);
            var kept := report.target.Some? && |s.removals.prefixes| < MAX_REMOVALS_BEFORE_FIRST_MAP;
            && now.FirstMapIsOwed() && now.refreshOwed
            && now.removals.prefixes == s.removals.prefixes + (if kept then [report.target.value] else [])
            && (now.removals.rebuild <==> s.removals.rebuild || !kept || !report.whole || report.otherLinks)
  {
    hide Recorded, ExcusedEnded, Logged;
    var logged := Logged(s, report);
    LoggedMeans(s, report);
    RecordedMeans(logged, report);
    ExcusedBeforeFirstMap(Recorded(logged, report), report.target.Some? && s.CanBeDescribed(report));
  }

  // ---- deletions from beginning to answer ----

  /** A map is shown, and nothing is outstanding, waiting or under way. */
  predicate AtRest(s: State) {
    && s.available && s.loaded && s.published.Some? && !s.required && !s.active && !s.suppressed
    && s.publications == [] && s.past.jobs == [] && s.finished == [] && !s.past.storeActive
    && s.removals.prefixes == [] && s.past.queued == [] && !s.removals.rebuild && !s.primaryScanning
  }

  /** Only an overlay without the target is outstanding, for a refresh that is owed. */
  predicate OverlayOut(s: State, paths: set<Path>, target: Path) {
    && s.available && !s.required && !s.active && s.finished == [] && s.refreshOwed
    && s.removals.prefixes == [] && !s.removals.rebuild
    && s.publications == [Overlay(target)] && |s.past.jobs| == 1 && s.past.jobs[0].Derive? && !s.past.jobs[0].doomed
    && s.past.jobs[0].prefix == target && s.past.jobs[0].base.paths == paths
  }

  function WholeDeletion(target: Path): Event {
    DeletionEnds(Report(Some(target), true, true, false), FINE)
  }

  lemma WholeDeletionAsks(s: State, target: Path)
    requires AtRest(s)
    ensures var now := Next(s, WholeDeletion(target));
            && OverlayOut(now, s.published.value.paths, target) && LandedRefresh(now) == None && target in now.hidden
  {
    hide State.Retains;
    var logged := Logged(s, Report(Some(target), true, true, false));
    assert logged.hidden[|logged.hidden| - 1] == target;
    assert (s.past.queued + [|s.past.log|])[1..] == [] && (s.removals.prefixes + [target])[1..] == [];
  }

  lemma OverlayArrives(s: State, paths: set<Path>, target: Path, found: set<Path>)
    requires OverlayOut(s, paths, target)
    ensures var now := Next(s, StoreAnswers(Full(found), true, FINE));
            && MayHappen(s, StoreAnswers(Full(found), true, FINE))
            && LandedRefresh(now) == Some(Published) && !now.required && now.hidden == s.hidden
            && now.published.Some? && now.published.value.paths == Less(paths, target)
  {
    hide State.Retains, OverlayAsked, Invalidated;
  }

  /** When the store has no overlay, or none whose pages can be read, the tree is to be scanned again. */
  lemma OverlayIsRefused(s: State, paths: set<Path>, target: Path, reply: Reply, loads: bool, luck: Luck)
    requires OverlayOut(s, paths, target) && (!reply.Full? || !loads)
    ensures var refused := Next(s, StoreAnswers(reply, loads, luck));
            && refused.required && !refused.active && refused.removals.IsEmpty() && refused.refreshOwed
            && refused.publications == [] && refused.past.jobs == [] && LandedRefresh(refused) == None
  {
    hide State.Retains, OverlayAsked;
  }

  lemma NothingDrains(s: State)
    requires s.publications == []
    ensures Drained(s) == s
  {
  }

  lemma LostOverlayDrains(s: State)
    requires !s.available && |s.publications| == 1 && s.publications[0].Overlay?
    requires |s.past.jobs| == 1 && s.past.jobs[0].Derive?
    ensures Drained(s) == Popped(s)
  {
    hide CompletedPrimary, CompletedRebuild;
    NothingDrains(Popped(s));
  }

  /** When the store is lost, the refresh is answered as failed, and the view goes on leaving the target out. */
  lemma OverlayIsLost(s: State, paths: set<Path>, target: Path)
    requires OverlayOut(s, paths, target)
    ensures var lost := Next(s, StoreStops);
            LandedRefresh(lost) == Some(Failed) && RefreshTaken(lost).hidden == lost.hidden == s.hidden
  {
    hide Drained;
    LostOverlayDrains(StoreFailed(s));
  }

  /** A whole deletion on a map at rest: its target is left out of the view until the overlay that is asked for
      arrives; then a refresh is answered as published, and the map is the one there was without the target. */
  lemma WholeDeletionIsOverlaid(s: State, target: Path, found: set<Path>)
    requires AtRest(s) && s.executing == Some(target) && target != []
    ensures var deleted := Next(s, WholeDeletion(target));
            var arrived := Next(deleted, StoreAnswers(Full(found), true, FINE));
            && MayHappen(s, WholeDeletion(target)) && MayHappen(deleted, StoreAnswers(Full(found), true, FINE))
            && LandedRefresh(deleted) == None && target in deleted.hidden
            && LandedRefresh(arrived) == Some(Published) && RefreshTaken(arrived).hidden == [] && !arrived.required
            && arrived.published.Some? && arrived.published.value.paths == Less(s.published.value.paths, target)
  {
    hide Next, OverlayOut, Less;
    WholeDeletionAsks(s, target);
    OverlayArrives(Next(s, WholeDeletion(target)), s.published.value.paths, target, found);
  }

  /** A new scan is to be made for a refresh that is owed, and nothing is in its way. */
  predicate ScanOwed(s: State) {
    && s.required && !s.active && !s.suppressed && !s.primaryScanning && s.refreshOwed && s.removals.IsEmpty()
    && s.publications == [] && s.past.jobs == [] && s.finished == []
  }

  lemma InvalidatedOwesScan(s: State, report: Report)
    requires AtRest(s)
    ensures ScanOwed(Invalidated(Logged(s, report))) && !Logged(s, report).FirstMapIsOwed()
    ensures Overlayable(Logged(s, report), report) == Overlayable(s, report)
  {
    hide State.Retains;
  }

  lemma ScanOwedOver(s: State, excuses: Excuses)
    requires ScanOwed(s)
    ensures ScanOwed(ExecutionOver(s, excuses)) && !s.FirstMapIsOwed()
  {
  }

  lemma ScanOwedAgain(s: State)
    requires ScanOwed(s)
    ensures ScanOwed(Invalidated(s))
  {
    hide State.Retains;
  }

  lemma ScanStaysOwed(s: State, described: bool)
    requires ScanOwed(s)
    ensures ScanOwed(ExcusedEnded(s, described))
  {
    hide Invalidated, ExecutionOver, MustRebuild, Excuses.After, ScanOwed;
    var excuses := s.past.excuses.After(described);
    ScanOwedAgain(s);
    ScanOwedOver(s, excuses);
    ScanOwedOver(Invalidated(s), excuses);
  }

  lemma OtherDeletionRequires(s: State, report: Report)
    requires AtRest(s) && s.executing.Some? && report.deleted
    requires !(report.whole && !report.otherLinks && report.target.Some?)
    ensures ScanOwed(Next(s, DeletionEnds(report, FINE)))
  {
    hide AtRest, ScanOwed, Logged, Invalidated, ExcusedEnded, Reconciled;
    InvalidatedOwesScan(s, report);
    ReconciledMeans(Logged(s, report), report, FINE);
    ScanStaysOwed(Invalidated(Logged(s, report)), report.target.Some? && s.CanBeDescribed(report));
  }

  lemma ScanBegins(s: State)
    requires ScanOwed(s)
    ensures var now := NewRebuild(s);
            && BegunRebuild(s, true) == now && LandedRefresh(s) == LandedRefresh(now) == None
            && now.rebuildScanning && now.active && now.available && now.refreshOwed
            && !now.required && !now.invalidated && !now.suppressed && now.removals.IsEmpty()
            && now.publications == [] && now.past.jobs == [] && now.finished == []
  {
  }

  lemma ScanEnds(s: State)
    requires s.active && s.available && s.refreshOwed && !s.required && !s.invalidated && !s.suppressed
    requires s.removals.IsEmpty() && s.publications == [] && s.past.jobs == [] && s.finished == []
    ensures var now := RebuildScanEnded(s, false, true);
            && now.active && now.available && now.refreshOwed && !now.required && !now.invalidated && !now.suppressed
            && now.removals.IsEmpty() && now.publications == [Rebuild] && now.finished == []
            && |now.past.jobs| == 1 && now.past.jobs[0].Scan? && LandedRefresh(now) == None
  {
    hide CancelledRebuild, Over, StoreFailed;
  }

  /** The scan that is owed runs, and its map is asked for. */
  lemma ScanIsMade(s: State)
    requires ScanOwed(s)
    ensures var scanning := Next(s, RebuildBegins(true));
            var scanned := Next(scanning, RebuildScanEnds(false, true));
            && LandedRefresh(s) == LandedRefresh(scanning) == LandedRefresh(scanned) == None
            && scanning.rebuildScanning && scanned.refreshOwed && scanned.available && scanned.active
            && !scanned.required && !scanned.invalidated && !scanned.suppressed && scanned.removals.IsEmpty()
            && scanned.publications == [Rebuild] && |scanned.past.jobs| == 1 && scanned.past.jobs[0].Scan?
            && scanned.finished == []
  {
    hide BegunRebuild, NewRebuild, RebuildScanEnded, LandedRefresh, ScanOwed;
    ScanBegins(s);
    ScanEnds(NewRebuild(s));
  }

  lemma ScanArrives(s: State, found: set<Path>)
    requires s.refreshOwed && s.available && s.active && !s.required && !s.invalidated && !s.suppressed
    requires s.removals.IsEmpty() && s.publications == [Rebuild] && |s.past.jobs| == 1 && s.past.jobs[0].Scan?
    requires s.finished == []
    ensures var now := Answered(s, Full(found), true, FINE);
            && now.refreshOwed && now.available && now.active && !now.required && !now.invalidated
            && now.removals.IsEmpty() && now.publications == [] && now.finished == [RebuildDone(false)]
            && now.published.Some? && now.published.value.paths == found && LandedRefresh(now) == None
  {
    hide CompletedPrimary, CompletedOverlay;
  }

  lemma RebuildIsSettled(s: State)
    requires s.refreshOwed && s.available && s.active && !s.required && !s.invalidated && s.removals.IsEmpty()
    requires s.publications == [] && s.finished == [RebuildDone(false)]
    ensures var now := TakenFinished(s, true, FINE);
            LandedRefresh(now) == Some(Published) && now.published == s.published
  {
    hide StartedUi, CancelledRebuild;
  }

  lemma ScanIsShown(s: State, found: set<Path>)
    requires s.refreshOwed && s.available && s.active && !s.required && !s.invalidated && !s.suppressed
    requires s.removals.IsEmpty() && s.publications == [Rebuild] && |s.past.jobs| == 1 && s.past.jobs[0].Scan?
    requires s.finished == []
    ensures var arrived := Next(s, StoreAnswers(Full(found), true, FINE));
            var shown := Next(arrived, FinishedIsTaken(true, FINE));
            && MayHappen(s, StoreAnswers(Full(found), true, FINE)) && LandedRefresh(arrived) == None
            && LandedRefresh(shown) == Some(Published) && shown.published.Some? && shown.published.value.paths == found
  {
    hide Answered, TakenFinished, LandedRefresh;
    ScanArrives(s, found);
    RebuildIsSettled(Answered(s, Full(found), true, FINE));
  }

  /** When the new scan's map does not come, the refresh is answered as failed. */
  lemma ScanIsLost(s: State, reply: Reply, loads: bool, luck: Luck)
    requires s.refreshOwed && s.available && s.active && !s.required && !s.invalidated && !s.suppressed
    requires s.removals.IsEmpty() && s.publications == [Rebuild] && |s.past.jobs| == 1 && s.past.jobs[0].Scan?
    requires s.finished == [] && !reply.Full?
    ensures var arrived := Next(s, StoreAnswers(reply, loads, luck));
            var settled := Next(arrived, FinishedIsTaken(loads, luck));
            && LandedRefresh(arrived) == None && LandedRefresh(settled) == Some(Failed)
            && settled.published == s.published && RefreshTaken(settled).hidden == s.hidden
  {
    hide StartedUi, CancelledRebuild, CompletedPrimary, CompletedOverlay;
  }

  /** A rebuild that the reader cancels leaves the map on screen as it is, stale: no refresh is answered, and no scan
      begins again by itself, until a new removal asks for one. */
  lemma CancelledRebuildWaits(s: State, accepted: bool)
    requires s.active && s.rebuildScanning && s.finished == []
    ensures var unwanted := Next(s, RebuildIsUnwanted);
            var cancelled := Next(unwanted, RebuildScanEnds(true, accepted));
            && MayHappen(unwanted, RebuildScanEnds(true, accepted))
            && cancelled.required && !cancelled.active && cancelled.suppressed && cancelled.published == s.published
            && (cancelled.available <==> s.available && s.cached && !s.provisional && s.published.Some?)
            && LandedRefresh(cancelled) == None && Next(cancelled, RebuildBegins(accepted)) == cancelled
            && !Invalidated(cancelled).suppressed
  {
  }

  /** A deletion on a map at rest of the scan root, or one that left something behind, or other links: the tree is
      scanned again, and the refresh is answered when what the scan found is the map. */
  lemma OtherDeletionIsRescanned(s: State, report: Report, found: set<Path>)
    requires AtRest(s) && IsOfExecution(s, report)
    requires report.deleted && !(report.whole && !report.otherLinks && report.target.Some?)
    ensures var deleted := Next(s, DeletionEnds(report, FINE));
            var scanning := Next(deleted, RebuildBegins(true));
            var scanned := Next(scanning, RebuildScanEnds(false, true));
            var arrived := Next(scanned, StoreAnswers(Full(found), true, FINE));
            var shown := Next(arrived, FinishedIsTaken(true, FINE));
            && LandedRefresh(deleted) == LandedRefresh(scanning) == LandedRefresh(scanned) == LandedRefresh(arrived) == None
            && scanning.rebuildScanning && MayHappen(scanned, StoreAnswers(Full(found), true, FINE))
            && LandedRefresh(shown) == Some(Published) && shown.published.Some? && shown.published.value.paths == found
  {
    hide Next, MayHappen, LandedRefresh, ScanOwed;
    OtherDeletionRequires(s, report);
    var deleted := Next(s, DeletionEnds(report, FINE));
    ScanIsMade(deleted);
    ScanIsShown(Next(Next(deleted, RebuildBegins(true)), RebuildScanEnds(false, true)), found);
  }

  /** Before the first map: one target waits for it. */
  predicate OneWaits(s: State, target: Path) {
    && s.available && !s.loaded && s.published.None? && !s.required && !s.active && s.refreshOwed
    && s.finished == [] && s.removals.prefixes == [target] && !s.removals.rebuild && |s.past.queued| == 1
  }

  lemma EarlyDeletionWaits(target: Path)
    requires target != []
    ensures var begun := Next(Start(true), DeletionBegins(target));
            var deleted := Next(begun, WholeDeletion(target));
            && MayHappen(begun, WholeDeletion(target)) && LandedRefresh(deleted) == None
            && OneWaits(deleted, target) && deleted.primaryScanning && deleted.publications == [] && deleted.past.jobs == []
  {
    hide NextOverlay, Invalidated;
  }

  lemma FirstMapArrives(s: State, target: Path, found: set<Path>)
    requires OneWaits(s, target) && s.publications == [] && s.past.jobs == []
    ensures var scanned := Next(s, PrimaryScanEnds(true));
            var arrived := Next(scanned, StoreAnswers(Full(found), true, FINE));
            && MayHappen(scanned, StoreAnswers(Full(found), true, FINE))
            && LandedRefresh(scanned) == LandedRefresh(arrived) == None
            && arrived.published.Some? && arrived.published.value.paths == found && arrived.refreshOwed
            && arrived.available && !arrived.required && !arrived.active && arrived.finished == [PrimaryDone]
            && arrived.removals.prefixes == [target] && !arrived.removals.rebuild && |arrived.past.queued| == 1
            && arrived.publications == [] && arrived.past.jobs == [] && !arrived.past.storeActive
  {
    hide NextOverlay, Invalidated, CompletedRebuild, CompletedOverlay;
  }

  lemma OverlayIsAsked(s: State, target: Path)
    requires s.published.Some? && s.available && !s.required && !s.active && s.finished == [PrimaryDone]
    requires s.refreshOwed && s.removals.prefixes == [target] && !s.removals.rebuild && |s.past.queued| == 1
    requires s.publications == [] && s.past.jobs == [] && !s.past.storeActive
    ensures var now := Next(s, FinishedIsTaken(true, FINE));
            OverlayOut(now, s.published.value.paths, target) && LandedRefresh(now) == None
  {
    hide Invalidated;
  }

  lemma FirstMapIsAsked(s: State, target: Path)
    requires OneWaits(s, target) && s.publications == [] && s.past.jobs == []
    ensures var now := BegunPrimary(s, true);
            && OneWaits(now, target) && now.publications == [Primary] && |now.past.jobs| == 1 && now.past.jobs[0].Scan?
            && now.hidden == s.hidden
  {
    hide StoreFailed, SettledBeforeFirstMap, Over;
  }

  /** The store is lost before a map is shown. */
  predicate MapLost(s: State) {
    !s.available && s.refreshOwed && !s.required && !s.active && s.publications == [] && s.finished == []
  }

  lemma FirstMapNotShown(s: State, target: Path, job: Job, reply: Reply, loads: bool)
    requires OneWaits(s, target) && s.publications == [] && job.Scan? && (!reply.Full? || !loads)
    ensures MapLost(FirstShown(s, job, reply, loads)) && FirstShown(s, job, reply, loads).hidden == s.hidden
  {
  }

  lemma NothingWaitsForLostMap(s: State)
    requires MapLost(s)
    ensures MapLost(SettledBeforeFirstMap(s)) && SettledBeforeFirstMap(s).removals.IsEmpty()
    ensures SettledBeforeFirstMap(s).hidden == s.hidden
  {
    hide Invalidated;
  }

  lemma NoFirstMap(s: State, target: Path, job: Job, reply: Reply, loads: bool)
    requires OneWaits(s, target) && s.publications == [] && job.Scan? && (!reply.Full? || !loads)
    ensures var now := CompletedPrimary(s, job, reply, loads);
            && !now.available && now.removals.IsEmpty() && now.refreshOwed && !now.required && !now.active
            && now.publications == [] && now.finished == [PrimaryDone] && now.hidden == s.hidden
  {
    hide FirstShown, SettledBeforeFirstMap;
    FirstMapNotShown(s, target, job, reply, loads);
    NothingWaitsForLostMap(FirstShown(s, job, reply, loads));
  }

  lemma PoppedWaits(s: State, target: Path)
    requires OneWaits(s, target) && s.publications == [Primary]
    ensures OneWaits(Popped(s), target) && Popped(s).publications == [] && Popped(s).hidden == s.hidden
  {
  }

  lemma PrimaryIsOver(s: State, luck: Luck)
    requires !s.available && s.removals.IsEmpty() && s.refreshOwed && !s.required && !s.active
    requires s.publications == [] && s.finished == [PrimaryDone]
    ensures var now := StartedUi(s.(finished := s.finished[1..]), luck);
            LandedRefresh(s) == None && LandedRefresh(now) == Some(Failed) && RefreshTaken(now).hidden == s.hidden
  {
  }

  /** When there is no first map, or none whose pages can be read, the refresh is answered as failed once the scan is
      over. */
  lemma FirstMapIsLost(s: State, target: Path, reply: Reply, loads: bool, luck: Luck)
    requires OneWaits(s, target) && s.publications == [] && s.past.jobs == [] && (!reply.Full? || !loads)
    ensures var arrived := Next(Next(s, PrimaryScanEnds(true)), StoreAnswers(reply, loads, luck));
            var settled := Next(arrived, FinishedIsTaken(loads, luck));
            && LandedRefresh(arrived) == None && LandedRefresh(settled) == Some(Failed)
            && RefreshTaken(settled).hidden == s.hidden
  {
    hide BegunPrimary, CompletedPrimary, CompletedOverlay, CompletedRebuild, Popped, StartedUi, FinishedRebuild;
    hide CancelledRebuild, LandedRefresh, RefreshTaken, OneWaits;
    FirstMapIsAsked(s, target);
    var asked := BegunPrimary(s, true);
    PoppedWaits(asked, target);
    NoFirstMap(Popped(asked), target, asked.past.jobs[0], reply, loads);
    PrimaryIsOver(CompletedPrimary(Popped(asked), asked.past.jobs[0], reply, loads), luck);
  }

  /** A whole deletion while the primary scan runs: the map that the scan ends with is shown, the target is then
      taken out of it, and the refresh is answered. */
  lemma EarlyDeletionIsOverlaid(target: Path, found: set<Path>, next: set<Path>)
    requires target != []
    ensures var deleted := Next(Next(Start(true), DeletionBegins(target)), WholeDeletion(target));
            var scanned := Next(deleted, PrimaryScanEnds(true));
            var arrived := Next(scanned, StoreAnswers(Full(found), true, FINE));
            var shown := Next(arrived, FinishedIsTaken(true, FINE));
            var overlaid := Next(shown, StoreAnswers(Full(next), true, FINE));
            && MayHappen(shown, StoreAnswers(Full(next), true, FINE))
            && LandedRefresh(deleted) == LandedRefresh(scanned) == LandedRefresh(arrived) == LandedRefresh(shown) == None
            && arrived.published.Some? && arrived.published.value.paths == found
            && LandedRefresh(overlaid) == Some(Published)
            && overlaid.published.Some? && overlaid.published.value.paths == Less(found, target)
  {
    hide Next, MayHappen, LandedRefresh, OverlayOut, OneWaits, Less;
    var deleted := Next(Next(Start(true), DeletionBegins(target)), WholeDeletion(target));
    EarlyDeletionWaits(target);
    FirstMapArrives(deleted, target, found);
    var arrived := Next(Next(deleted, PrimaryScanEnds(true)), StoreAnswers(Full(found), true, FINE));
    OverlayIsAsked(arrived, target);
    OverlayArrives(Next(arrived, FinishedIsTaken(true, FINE)), found, target, next);
  }

  /** In every run: overlays are outstanding one at a time, and derive from the installed map; they are asked
      for in the order their removals were made, never more than eight waiting, and check the scan root
      exactly for the removals made before the first map. */
  lemma OverlaysGoInOrder(states: seq<State>, events: seq<Event>, i: nat)
    requires IsRun(states, events) && i < |states|
    ensures var s := states[i];
            && |s.removals.prefixes| <= MAX_REMOVALS_BEFORE_FIRST_MAP
            && (forall j, k | 0 <= j < k < |s.past.asks| :: s.past.asks[j].removal < s.past.asks[k].removal)
            && (forall k | 0 <= k < |s.past.asks| ::
                  && s.past.asks[k].removal < |s.past.log|
                  && s.past.asks[k].verifyRoot == s.past.log[s.past.asks[k].removal].beforeMap)
            && (forall j, k | 0 <= j < k < |s.publications| :: !(s.publications[j].Overlay? && s.publications[k].Overlay?))
            && (forall job <- s.past.jobs | job.Derive? :: s.published == Some(job.base))
  {
    hide IsRun, Books, State.Phases, State.FirstMap, State.Overtaken, State.Debts, MapsSound, State.AllCovered;
    RunsAreValid(states, events, i);
    var asks := states[i].past.asks;
    forall j, k | 0 <= j < k < |asks|
      ensures asks[j].removal < asks[k].removal
    {
      assert Asked(asks)[j] < Asked(asks)[k];
    }
  }

  /** In every run: each primary or rebuild publication that was begun has ended in exactly one matching way,
      in the order they were begun, but for the one that is outstanding; overlays end in none. */
  lemma PublicationsEndOnce(states: seq<State>, events: seq<Event>, i: nat)
    requires IsRun(states, events) && i < |states|
    ensures var s := states[i];
            && |s.past.begun| == |s.past.ended| + (if Primary in s.publications || Rebuild in s.publications then 1 else 0)
            && (forall k | 0 <= k < |s.past.ended| :: Matches(s.past.begun[k], s.past.ended[k]))
            && (forall p <- s.past.begun :: !p.Overlay?)
            && (|s.past.begun| > |s.past.ended| ==> s.past.begun[|s.past.ended|] in s.publications)
  {
    hide IsRun, Chain, AsksSound, State.Phases, State.FirstMap, State.Overtaken, State.Debts, MapsSound;
    hide State.AllCovered;
    RunsAreValid(states, events, i);
  }

  /** In every run: what the installed map lists is what its scan found, without the subtrees that were
      removed. Once a refresh is answered, every removal since that scan began is among them. */
  lemma InstalledMapContent(states: seq<State>, events: seq<Event>, i: nat, p: Path)
    requires IsRun(states, events) && i < |states| && states[i].published.Some?
    ensures var s, m := states[i], states[i].published.value;
            && (p in m.paths ==> p in m.base)
            && (forall r <- m.without :: r < |s.past.log| && s.past.log[r].prefix.Some?
                                         && (p in m.paths ==> !(s.past.log[r].prefix.value <= p)))
            && (p in m.base && p !in m.paths ==> exists r <- m.without :: s.past.log[r].prefix.value <= p)
    ensures var s, m := states[i], states[i].published.value;
            LandedRefresh(s) == Some(Published) ==> forall r | m.from <= r < |s.past.log| :: r in m.without
  {
    hide IsRun, Chain, AsksSound, State.Phases, State.FirstMap, State.Overtaken, State.Debts, State.AllCovered;
    hide Books, Line;
    hide LandedRefresh;
    RunsAreValid(states, events, i);
    var s, m := states[i], states[i].published.value;
    if LandedRefresh(s) == Some(Published) {
      PublishedRefreshIsTrue(s);
      forall r | m.from <= r < |s.past.log|
        ensures r in m.without
      {
        assert Reflects(m, r);
      }
    }
    var prefixes := Prefixes(s.past.log, m.without);
    LeftOut(m.base, prefixes, p);
    forall r <- m.without
      ensures s.past.log[r].prefix.value in prefixes
    {
      var k :| 0 <= k < |m.without| && m.without[k] == r;
      assert prefixes[k] == s.past.log[r].prefix.value;
    }
    if p in m.base && p !in m.paths {
      var k :| 0 <= k < |prefixes| && prefixes[k] <= p;
      assert m.without[k] in m.without;
    }
  }

  /** Something answers for a failure that was excused at the path: the deletion that is executing above it,
      which is remembered; a removal above it that is out of the map or will be; or no map is coming, or one of
      a new scan is, or has come. */
  ghost predicate AnsweredFor(s: State, p: Path) {
    || (s.executing.Some? && s.executing.value <= p && s.removals.excused)
    || (exists r | 0 <= r < |s.past.log| :: Takes(s.past.log[r], p) && s.Covered(r))
    || s.RebuildOwed()
  }

  lemma ExcusedIsAnswered(s: State, p: Path)
    requires s.Valid({}, None) && s.past.excuses.Has(p)
    ensures AnsweredFor(s, p)
  {
    hide Chain, AsksSound, State.Phases, State.FirstMap, State.Overtaken, MapsSound, Books, Line, JobsSound;
    hide State.Covered, State.RebuildOwed;
    if p in s.past.excuses.recorded {
      var r :| 0 <= r < |s.past.log| && Takes(s.past.log[r], p);
      assert s.Covered(r);
    }
  }

  /** In every run, every failure that was excused because of a deletion is answered for in every later
      state. */
  lemma ExcusedFailuresAreAnswered(states: seq<State>, events: seq<Event>, i: nat, j: nat, p: Path)
    requires IsRun(states, events) && i < j < |states|
    requires events[i] == ScanFails(p) && RemovedByADeletion(states[i], p)
    ensures AnsweredFor(states[j], p)
  {
    hide State.Valid, Next, MayHappen, RemovedByADeletion, AnsweredFor, Excuses.Has;
    ExcusesStay(states, events, i, j, p);
    RunsAreValid(states, events, j);
    ExcusedIsAnswered(states[j], p);
  }

  lemma {:induction false} ExcusesStay(states: seq<State>, events: seq<Event>, i: nat, j: nat, p: Path)
    requires IsRun(states, events) && i < j < |states|
    requires events[i] == ScanFails(p) && RemovedByADeletion(states[i], p)
    ensures states[j].past.excuses.Has(p)
  {
    hide State.Valid, RemovedByADeletion, Next, MayHappen, Excuses.Has;
    if j == i + 1 {
      RunsAreValid(states, events, i);
      ScanFailedIsValid(states[i], p);
      FailureHappens(states[i], p);
    } else {
      ExcusesStay(states, events, i, j - 1, p);
      NextKeepsExcuses(states[j - 1], events[j - 1], p);
    }
  }

  lemma FailureHappens(s: State, p: Path)
    ensures Next(s, ScanFails(p)) == ScanFailed(s, p)
  {
  }

  /** How an execution under which a failure was excused can end. */
  lemma ExcusedExecutionEnds(s: State, report: Report, luck: Luck, p: Path)
    requires s.Valid({}, None) && IsOfExecution(s, report) && p in s.past.excuses.now
    ensures var now, described := CompletedDeletion(s, report, luck), report.deleted && report.target.Some? && s.CanBeDescribed(report);
            if described then
              && |now.past.log| == |s.past.log| + 1 && now.past.log[|s.past.log|].described
              && Takes(now.past.log[|s.past.log|], p) && now.Covered(|s.past.log|)
            else p in now.past.excuses.owed && now.RebuildOwed()
  {
    CompletedDeletionIsValid(s, report, luck);
    DeletionExcuses(s, report, luck);
    ExecutingAbove(s, p);
    NewestRemoval(s, report);
    LoggedLog(s, report);
    var described := report.deleted && report.target.Some? && s.CanBeDescribed(report);
    if report.deleted {
      ReconciledLog(Logged(s, report), report, luck);
    }
    OwedMeans(CompletedDeletion(s, report, luck));
  }

  lemma ExecutingAbove(s: State, p: Path)
    requires s.Valid({}, None) && p in s.past.excuses.now
    ensures s.executing.Some? && s.executing.value <= p
  {
    hide Chain, AsksSound, State.Phases, State.FirstMap, State.Overtaken, MapsSound, Books, Line, JobsSound;
    hide State.AllCovered;
  }

  lemma OwedMeans(s: State)
    requires s.Valid({}, None)
    ensures (s.past.excuses.owed != {} ==> s.RebuildOwed()) && s.AllCovered({})
  {
    hide Chain, AsksSound, State.Phases, State.FirstMap, State.Overtaken, MapsSound, Books, Line, JobsSound;
    hide State.AllCovered;
    hide State.RebuildOwed;
  }

  // ---- what the owner's steps leave of the failures that were excused ----

  lemma LoggedLog(s: State, report: Report)
    ensures |Logged(s, report).past.log| == |s.past.log| + 1 && Logged(s, report).past.excuses == s.past.excuses
    ensures Logged(s, report).CanBeDescribed(report) == s.CanBeDescribed(report)
    ensures Logged(s, report).executing == s.executing
  {
  }

  lemma InvalidatedLog(s: State)
    ensures Invalidated(s).past.log == s.past.log && Invalidated(s).past.excuses == s.past.excuses
    ensures Invalidated(s).executing == s.executing
  {
  }

  lemma NextOverlayLog(s: State, luck: Luck)
    ensures NextOverlay(s, luck).past.log == s.past.log && NextOverlay(s, luck).past.excuses == s.past.excuses
    ensures NextOverlay(s, luck).executing == s.executing
  {
    hide Invalidated;
    InvalidatedLog(s);
    if s.published.Some? && s.removals.prefixes != [] { InvalidatedLog(OverlayAsked(s)); }
  }

  lemma RecordedLog(s: State, report: Report)
    ensures Recorded(s, report).past.log == s.past.log && Recorded(s, report).past.excuses == s.past.excuses
    ensures Recorded(s, report).executing == s.executing
  {
    hide State.CanBeDescribed;
    if report.target.Some? && |s.removals.prefixes| < MAX_REMOVALS_BEFORE_FIRST_MAP {
    } else {
    }
  }

  lemma QueuedLog(s: State, prefix: Path)
    ensures Queued(s, prefix).past.log == s.past.log && Queued(s, prefix).past.excuses == s.past.excuses
    ensures Queued(s, prefix).executing == s.executing
  {
  }

  lemma ReconciledLog(s: State, report: Report, luck: Luck)
    ensures Reconciled(s, report, luck).past.log == s.past.log
    ensures Reconciled(s, report, luck).past.excuses == s.past.excuses
    ensures Reconciled(s, report, luck).executing == s.executing
  {
    hide Invalidated, NextOverlay, State.FirstMapIsOwed, State.CanBeDescribed, Recorded, Queued;
    InvalidatedLog(s);
    RecordedLog(s, report);
    if report.target.Some? {
      QueuedLog(s, report.target.value);
      NextOverlayLog(Queued(s, report.target.value), luck);
    }
  }

  lemma ExcusedEndedExcuses(s: State, described: bool)
    ensures ExcusedEnded(s, described).past.excuses == s.past.excuses.After(described)
    ensures ExcusedEnded(s, described).past.log == s.past.log
  {
    hide Invalidated, State.FirstMapIsOwed, ExecutionOver;
    InvalidatedLog(s);
    var excuses := s.past.excuses.After(described);
    ExecutionOverLog(s, excuses);
    ExecutionOverLog(Invalidated(s), excuses);
    ExecutionOverLog(s.(removals := s.removals.(rebuild := true)), excuses);
  }

  lemma ExecutionOverLog(s: State, excuses: Excuses)
    ensures ExecutionOver(s, excuses).past.log == s.past.log && ExecutionOver(s, excuses).past.excuses == excuses
  {
  }

  lemma DeletionExcuses(s: State, report: Report, luck: Luck)
    ensures var now, described := CompletedDeletion(s, report, luck), report.deleted && report.target.Some? && s.CanBeDescribed(report);
            && now.past.excuses == s.past.excuses.After(described)
            && now.past.log == if report.deleted then Logged(s, report).past.log else s.past.log
  {
    hide Reconciled, ExcusedEnded, Logged, Excuses.After, State.CanBeDescribed;
    var described := report.deleted && report.target.Some? && s.CanBeDescribed(report);
    LoggedLog(s, report);
    ReconciledLog(Logged(s, report), report, luck);
    ExcusedEndedExcuses(if report.deleted then Reconciled(Logged(s, report), report, luck) else s, described);
  }

  lemma StoreFailedExcuses(s: State)
    ensures StoreFailed(s).past.excuses == s.past.excuses
  {
    if s.available {
    } else {
    }
  }

  lemma SettledExcuses(s: State)
    ensures SettledBeforeFirstMap(s).past.excuses == s.past.excuses
  {
    hide Invalidated;
    InvalidatedLog(s);
  }

  lemma OverExcuses(s: State, f: Finished)
    ensures Over(s, f).past.excuses == s.past.excuses
  {
  }

  lemma RequestedExcuses(s: State, p: Pending)
    ensures Requested(s, p).past.excuses == s.past.excuses
  {
  }

  lemma BegunPrimaryExcuses(s: State, accepted: bool)
    ensures BegunPrimary(s, accepted).past.excuses == s.past.excuses
  {
    hide Requested, Over, SettledBeforeFirstMap, StoreFailed;
    var now := s.(primaryScanning := false, past := s.past.(begun := s.past.begun + [Primary]));
    RequestedExcuses(now, Primary);
    StoreFailedExcuses(now);
    SettledExcuses(StoreFailed(now));
    OverExcuses(SettledBeforeFirstMap(StoreFailed(now)), PrimaryDone);
  }

  lemma CancelledExcuses(s: State)
    ensures CancelledRebuild(s).past.excuses == s.past.excuses
  {
    if s.active {
    } else {
    }
  }

  lemma RebuildScanExcuses(s: State, cancelled: bool, accepted: bool)
    ensures RebuildScanEnded(s, cancelled, accepted).past.excuses == s.past.excuses
  {
    hide Requested, Over, StoreFailed, CancelledRebuild;
    var over := s.(rebuildScanning := false);
    var now := over.(past := s.past.(begun := s.past.begun + [Rebuild]));
    CancelledExcuses(over);
    RequestedExcuses(now, Rebuild);
    StoreFailedExcuses(now);
    OverExcuses(now, RebuildDone(false));
    OverExcuses(now, RebuildCancelled);
    OverExcuses(StoreFailed(now), RebuildDone(true));
  }

  lemma FirstShownExcuses(s: State, job: Job, reply: Reply, loads: bool)
    requires job.Scan?
    ensures FirstShown(s, job, reply, loads).past.excuses == s.past.excuses
  {
    hide Scanned, Shown, Abandoned;
    if reply.Full? { ShownExcuses(s, Scanned(job, reply.found), loads, true, !loads); }
    AbandonedExcuses(s);
  }

  lemma ShownExcuses(s: State, m: Map, available: bool, cached: bool, provisional: bool)
    ensures Shown(s, m, available, cached, provisional).past == s.past
  {
  }

  lemma AbandonedExcuses(s: State)
    ensures Abandoned(s).past.excuses == s.past.excuses
  {
  }

  lemma CompletedPrimaryExcuses(s: State, job: Job, reply: Reply, loads: bool)
    requires job.Scan?
    ensures CompletedPrimary(s, job, reply, loads).past.excuses == s.past.excuses
  {
    hide Over, SettledBeforeFirstMap, FirstShown;
    FirstShownExcuses(s, job, reply, loads);
    SettledExcuses(FirstShown(s, job, reply, loads));
    OverExcuses(SettledBeforeFirstMap(FirstShown(s, job, reply, loads)), PrimaryDone);
  }

  lemma CompletedRebuildExcuses(s: State, job: Job, reply: Reply)
    requires job.Scan?
    ensures CompletedRebuild(s, job, reply).past.excuses == s.past.excuses
  {
    hide Scanned, Over;
    OverExcuses(s, RebuildCancelled);
    OverExcuses(s, RebuildDone(true));
    if reply.Full? { OverExcuses(s.(published := Some(Scanned(job, reply.found))), RebuildDone(false)); }
  }

  lemma CompletedOverlayExcuses(s: State, job: Job, reply: Reply, loads: bool, luck: Luck)
    requires job.Derive?
    ensures CompletedOverlay(s, job, reply, loads, luck).past.excuses == s.past.excuses
  {
    hide Invalidated, NextOverlay, Derived;
    InvalidatedLog(s);
    InvalidatedLog(s.(published := Some(Derived(job.base, job.removal, job.prefix)), cached := loads,
                      provisional := s.provisional && !loads));
    NextOverlayLog(OverlayInstalled(s, job, loads), luck);
  }

  lemma AnsweredExcuses(s: State, reply: Reply, loads: bool, luck: Luck)
    ensures Answered(s, reply, loads, luck).past.excuses == s.past.excuses
  {
    hide CompletedOverlay, CompletedPrimary, CompletedRebuild;
    if s.publications != [] && s.past.jobs != [] {
      var job, now := s.past.jobs[0], Popped(s);
      if job.Derive? {
        CompletedOverlayExcuses(now, job, reply, loads, luck);
      } else {
        CompletedPrimaryExcuses(now, job, reply, loads);
        CompletedRebuildExcuses(now, job, reply);
      }
    }
  }

  lemma {:induction false} DrainedExcuses(s: State)
    ensures Drained(s).past.excuses == s.past.excuses
    decreases |s.publications|
  {
    hide Answered;
    var next := Answered(s, Refused, false, Luck(false, false, false));
    AnsweredExcuses(s, Refused, false, Luck(false, false, false));
    if |next.publications| < |s.publications| { DrainedExcuses(next); }
  }

  lemma FinishedExcuses(s: State, failed: bool, loads: bool)
    ensures FinishedRebuild(s, failed, loads).past.excuses == s.past.excuses
  {
    hide Abandoned, RebuildSettled, RebuildShown;
    RebuildSettledExcuses(s, loads);
    RebuildSettledExcuses(RebuildSettled(s), loads);
  }

  lemma RebuildSettledExcuses(s: State, loads: bool)
    ensures RebuildSettled(s).past.excuses == s.past.excuses && Abandoned(s).past.excuses == s.past.excuses
    ensures RebuildShown(s, loads).past.excuses == s.past.excuses
  {
    if loads {
    } else {
    }
  }

  lemma TakenFinishedExcuses(s: State, loads: bool, luck: Luck)
    ensures TakenFinished(s, loads, luck).past.excuses == s.past.excuses
  {
    hide NextOverlay, FinishedRebuild, CancelledRebuild;
    if s.finished != [] {
      var now := s.(finished := s.finished[1..]);
      NextOverlayLog(now.(loaded := true), luck);
      CancelledExcuses(now);
      match s.finished[0] {
        case RebuildDone(failed) => FinishedExcuses(now, failed, loads);
        case _ =>
      }
    }
  }

  lemma OtherExcuses(s: State, accepted: bool)
    ensures BegunRebuild(s, accepted).past.excuses == s.past.excuses
    ensures RefreshTaken(s).past.excuses == s.past.excuses
  {
    hide LandedRefresh, State.Busy;
    if s.available {
    } else {
    }
  }

  lemma MoreExcuses(s: State, path: Path, p: Path)
    ensures s.past.excuses.Has(p) ==> RecordedExcuse(s, path).past.excuses.Has(p)
    ensures s.past.excuses.Has(p) ==> ExcusedForNow(s, path).past.excuses.Has(p)
  {
  }

  lemma ScanFailedExcuses(s: State, path: Path, p: Path)
    requires s.past.excuses.Has(p)
    ensures ScanFailed(s, path).past.excuses.Has(p)
  {
    hide RemovedByADeletion, RecordedExcuse, ExcusedForNow, Excuses.Has;
    MoreExcuses(s, path, p);
  }

  lemma StoppedExcuses(s: State)
    ensures Stopped(s).past.excuses == s.past.excuses
  {
    hide StoreFailed, Drained;
    StoreFailedExcuses(s);
    DrainedExcuses(StoreFailed(s));
  }

  lemma ChangedExcuses(s: State, suppressed: bool, executing: Option<Path>, cached: bool, provisional: bool)
    ensures Changed(s, suppressed, executing, cached, provisional).past.excuses == s.past.excuses
  {
  }

  lemma AfterKeeps(excuses: Excuses, described: bool, p: Path)
    ensures excuses.After(described).Has(p) <==> excuses.Has(p)
  {
  }

  /** No event forgets a failure that was excused. */
  lemma NextKeepsExcuses(s: State, e: Event, p: Path)
    requires s.past.excuses.Has(p)
    ensures Next(s, e).past.excuses.Has(p)
  {
    hide BegunPrimary, RebuildScanEnded, Answered, Stopped, StoreFailed, TakenFinished, BegunRebuild, Changed;
    hide CompletedDeletion, ExcusedEnded, ScanFailed, RefreshTaken, Excuses.Has, Excuses.After;
    match e {
      case PrimaryScanEnds(accepted) => BegunPrimaryExcuses(s, accepted);
      case RebuildScanEnds(cancelled, accepted) => RebuildScanExcuses(s, cancelled, accepted);
      case StoreAnswers(reply, loads, luck) => AnsweredExcuses(s, reply, loads, luck);
      case StoreStops => StoppedExcuses(s);
      case StoreFails => StoreFailedExcuses(s);
      case FinishedIsTaken(loads, luck) => TakenFinishedExcuses(s, loads, luck);
      case RebuildBegins(accepted) => OtherExcuses(s, accepted);
      case RebuildIsUnwanted => ChangedExcuses(s, s.suppressed || s.active, s.executing, s.cached, s.provisional);
      case DeletionBegins(target) => ChangedExcuses(s, s.suppressed, Some(target), s.cached, s.provisional);
      case DeletionEnds(report, luck) =>
        DeletionExcuses(s, report, luck);
        AfterKeeps(s.past.excuses, report.deleted && report.target.Some? && s.CanBeDescribed(report), p);
      case DeletionIsDropped =>
        ExcusedEndedExcuses(s, false);
        AfterKeeps(s.past.excuses, false, p);
      case ScanFails(path) => ScanFailedExcuses(s, path, p);
      case RefreshIsTaken => OtherExcuses(s, true);
      case PageTurns(cached, provisional) => ChangedExcuses(s, s.suppressed, s.executing, cached, provisional);
    }
  }
}
