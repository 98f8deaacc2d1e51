/** The owner as an object: its methods change its fields one by one, in the order the program does. What they
    are meant to become is a state of `Owner`, which the fields are tied to. */
module App {
  import opened Outcomes
  import opened Owner

  /** The map the store builds for what it was asked. */
  function Built(job: Job, found: set<Path>): Map {
    if job.Scan? then Scanned(job, found) else Derived(job.base, job.removal, job.prefix)
  }

  predicate Same<T(==)>(a: T, b: T) {
    a == b
  }

  // ---- which fields the owner's steps change ----

  ghost predicate SameStore(a: State, b: State) {
    Same(a.published, b.published) && Same(a.publications, b.publications) && Same(a.finished, b.finished)
  }

  ghost predicate SameScans(a: State, b: State) {
    a.loaded == b.loaded && a.primaryScanning == b.primaryScanning && a.rebuildScanning == b.rebuildScanning
  }

  ghost predicate SamePages(a: State, b: State) {
    a.cached == b.cached && a.provisional == b.provisional
  }

  ghost predicate SameRebuild(a: State, b: State) {
    a.required == b.required && a.active == b.active && a.invalidated == b.invalidated && a.suppressed == b.suppressed
  }

  ghost predicate SameDeletions(a: State, b: State) {
    a.refreshOwed == b.refreshOwed && Same(a.hidden, b.hidden) && Same(a.executing, b.executing)
  }

  /** The map on screen is out of date, and stays if it can. */
  function OutOfDate(s: State, kept: bool): State {
    s.(available := kept, invalidated := s.invalidated || s.active, suppressed := false, required := true,
       past := s.past.(storeActive := false))
  }

  function PagesReset(s: State): State {
    s.(cached := true, provisional := true)
  }

  lemma OutOfDateFields(s: State, kept: bool)
    ensures var n := OutOfDate(s, kept);
            && SameStore(s, n) && SameScans(s, n) && SamePages(s, n) && SameDeletions(s, n) && Same(n.removals, s.removals)
            && n.available == kept && n.required && n.active == s.active && n.invalidated == (s.invalidated || s.active)
            && !n.suppressed
  {
  }

  lemma PagesResetFields(s: State)
    ensures var n := PagesReset(s);
            && SameStore(s, n) && SameScans(s, n) && SameRebuild(s, n) && SameDeletions(s, n)
            && Same(n.removals, s.removals) && n.available == s.available && n.cached && n.provisional
  {
  }

  lemma InvalidatedInSteps(s: State)
    ensures Invalidated(s) ==
            if s.Retains() then Forgotten(OutOfDate(s, true)) else PagesReset(Forgotten(OutOfDate(s, false)))
  {
    if s.Retains() {
    } else {
    }
  }

  /** A rebuild was given up. */
  function GivenUp(s: State, kept: bool): State {
    s.(active := false, invalidated := false, required := true, available := kept, past := s.past.(storeActive := false))
  }

  lemma GivenUpFields(s: State, kept: bool)
    ensures var n := GivenUp(s, kept);
            && SameStore(s, n) && SameScans(s, n) && SamePages(s, n) && SameDeletions(s, n) && Same(n.removals, s.removals)
            && n.available == kept && n.required && !n.active && !n.invalidated && n.suppressed == s.suppressed
  {
  }

  lemma CancelledInSteps(s: State)
    requires s.active
    ensures CancelledRebuild(s) ==
            if s.available && s.Retains() then GivenUp(s, true) else PagesReset(GivenUp(s, false))
  {
    if s.available && s.Retains() {
    } else {
    }
  }

  lemma AbandonedFields(s: State)
    ensures var n := Abandoned(s);
            && SameStore(s, n) && SameScans(s, n) && SamePages(s, n) && SameRebuild(s, n) && SameDeletions(s, n)
            && !n.available && Same(n.removals, NO_REMOVALS)
  {
  }

  /** Only what the store owes or has given changes. */
  ghost predicate StoreChanged(s: State, n: State) {
    && SameScans(s, n) && SamePages(s, n) && SameRebuild(s, n) && SameDeletions(s, n)
    && n.available == s.available && Same(n.removals, s.removals)
  }

  lemma RequestedFields(s: State, pending: Pending)
    ensures var n := Requested(s, pending);
            && StoreChanged(s, n) && Same(n.publications, s.publications + [pending])
            && Same(n.published, s.published) && Same(n.finished, s.finished)
  {
  }

  lemma OverFields(s: State, f: Finished)
    ensures var n := Over(s, f);
            && StoreChanged(s, n) && Same(n.finished, s.finished + [f])
            && Same(n.published, s.published) && Same(n.publications, s.publications)
  {
  }

  lemma PublishedFields(s: State, m: Map)
    ensures var n := s.(published := Some(m));
            && StoreChanged(s, n) && Same(n.published, Some(m))
            && Same(n.publications, s.publications) && Same(n.finished, s.finished)
  {
  }

  lemma PoppedFields(s: State)
    requires s.publications != []
    ensures var n := Popped(s);
            && StoreChanged(s, n) && Same(n.publications, s.publications[1..])
            && Same(n.published, s.published) && Same(n.finished, s.finished)
  {
  }

  function FirstFinishedTaken(s: State): State
    requires s.finished != []
  {
    s.(finished := s.finished[1..])
  }

  lemma TakenFields(s: State)
    requires s.finished != []
    ensures var n := FirstFinishedTaken(s);
            && StoreChanged(s, n) && Same(n.finished, s.finished[1..])
            && Same(n.published, s.published) && Same(n.publications, s.publications)
  {
  }

  /** Only the removals that wait change. */
  ghost predicate RemovalsChanged(s: State, n: State) {
    && SameStore(s, n) && SameScans(s, n) && SamePages(s, n) && SameRebuild(s, n) && SameDeletions(s, n)
    && n.available == s.available
  }

  lemma ForgottenFields(s: State)
    ensures RemovalsChanged(s, Forgotten(s)) && Same(Forgotten(s).removals, NO_REMOVALS)
  {
  }

  lemma QueuedFields(s: State, prefix: Path)
    ensures var n := Queued(s, prefix);
            RemovalsChanged(s, n) && Same(n.removals, s.removals.(prefixes := s.removals.prefixes + [prefix]))
  {
  }

  lemma MustRebuildFields(s: State)
    ensures RemovalsChanged(s, MustRebuild(s)) && Same(MustRebuild(s).removals, s.removals.(rebuild := true))
  {
  }

  lemma ExcusedFields(s: State, path: Path)
    ensures var n := ExcusedForNow(s, path); RemovalsChanged(s, n) && Same(n.removals, s.removals.(excused := true))
  {
  }

  lemma RememberedFields(s: State, path: Path)
    ensures var n := RecordedExcuse(s, path); RemovalsChanged(s, n) && Same(n.removals, s.removals)
  {
  }

  lemma RecordedFields(s: State, report: Report)
    ensures var n := Recorded(s, report);
            RemovalsChanged(s, n) && Same(n.removals, WithRecorded(s.removals, report.target, s.CanBeDescribed(report)))
  {
    hide State.CanBeDescribed, WithRecorded, Waiting, NewestQueues;
    var removals := WithRecorded(s.removals, report.target, s.CanBeDescribed(report));
    WaitingFields(s, removals);
    NewestFields(Waiting(s, removals));
  }

  lemma WaitingFields(s: State, removals: Removals)
    ensures RemovalsChanged(s, Waiting(s, removals)) && Same(Waiting(s, removals).removals, removals)
  {
  }

  lemma NewestFields(s: State)
    ensures RemovalsChanged(s, NewestQueues(s)) && Same(NewestQueues(s).removals, s.removals)
  {
  }

  lemma OverlayFields(s: State)
    requires s.removals.prefixes != [] && s.published.Some?
    ensures var n, r := OverlayAsked(s), s.removals;
            && SameScans(s, n) && SamePages(s, n) && SameRebuild(s, n) && SameDeletions(s, n) && n.available == s.available
            && Same(n.published, s.published) && Same(n.finished, s.finished)
            && Same(n.publications, [Overlay(r.prefixes[0])])
            && Same(n.removals, WithoutFirst(r))
  {
  }

  /** A map is shown, and its pages with it. */
  ghost predicate MapShown(s: State, n: State, m: Map) {
    && SameScans(s, n) && SameRebuild(s, n) && SameDeletions(s, n) && Same(n.removals, s.removals)
    && Same(n.published, Some(m)) && Same(n.publications, s.publications) && Same(n.finished, s.finished)
  }

  lemma ShownFields(s: State, m: Map, available: bool, cached: bool, provisional: bool)
    ensures var n := Shown(s, m, available, cached, provisional);
            MapShown(s, n, m) && n.available == available && n.cached == cached && n.provisional == provisional
  {
  }

  function MapGivenUp(s: State): State {
    s.(available := false)
  }

  lemma MapGivenUpFields(s: State)
    ensures var n := MapGivenUp(s);
            && SameStore(s, n) && SameScans(s, n) && SamePages(s, n) && SameRebuild(s, n) && SameDeletions(s, n)
            && !n.available && Same(n.removals, s.removals)
  {
  }

  lemma LoggedFields(s: State, report: Report)
    ensures var n := Logged(s, report);
            && SameStore(s, n) && SameScans(s, n) && SamePages(s, n) && SameRebuild(s, n) && n.available == s.available
            && Same(n.removals, s.removals) && Same(n.executing, s.executing) && n.refreshOwed
            && Same(n.hidden, if report.whole && report.target.Some? then Hidden(s.hidden, report.target.value) else s.hidden)
  {
    hide Hidden, State.CanBeDescribed, State.FirstMapIsOwed;
    if report.whole && report.target.Some? {
    } else {
    }
  }

  lemma ExecutionOverFields(s: State, excuses: Excuses)
    ensures var n := ExecutionOver(s, excuses);
            && SameStore(s, n) && SameScans(s, n) && SamePages(s, n) && SameRebuild(s, n) && n.available == s.available
            && n.refreshOwed == s.refreshOwed && Same(n.hidden, s.hidden) && n.executing == None
            && Same(n.removals, s.removals.(excused := false))
  {
  }

  lemma RebuildFields(s: State)
    ensures var n := NewRebuild(s);
            && SameStore(s, n) && SamePages(s, n) && SameDeletions(s, n) && Same(n.removals, s.removals)
            && n.available && n.active && !n.invalidated && !n.required && n.suppressed == s.suppressed
            && n.loaded == s.loaded && n.primaryScanning == s.primaryScanning && n.rebuildScanning
  {
  }

  lemma SettledFields(s: State, loads: bool)
    ensures var n := RebuildSettled(s);
            && SameStore(s, n) && SameScans(s, n) && SamePages(s, n) && SameDeletions(s, n) && Same(n.removals, s.removals)
            && n.available == s.available
            && n.required == s.invalidated && !n.active && !n.invalidated && n.suppressed == s.suppressed
    ensures var n := RebuildShown(s, loads);
            && SameStore(s, n) && SameScans(s, n) && SameDeletions(s, n) && Same(n.removals, s.removals)
            && n.available == (s.available && loads) && n.cached && n.provisional == !loads
            && n.required == s.required && n.active == s.active && n.invalidated == s.invalidated && !n.suppressed
  {
    if loads {
    } else {
    }
  }

  /** Only the scans change. */
  ghost predicate ScansChanged(s: State, n: State) {
    && SameStore(s, n) && SamePages(s, n) && SameRebuild(s, n) && SameDeletions(s, n)
    && n.available == s.available && Same(n.removals, s.removals)
  }

  lemma LoadedFields(s: State)
    ensures var n := s.(loaded := true);
            ScansChanged(s, n) && n.loaded && n.primaryScanning == s.primaryScanning && n.rebuildScanning == s.rebuildScanning
  {
  }

  lemma PrimaryEndedFields(s: State)
    ensures var n := PrimaryScanned(s);
            ScansChanged(s, n) && n.loaded == s.loaded && !n.primaryScanning && n.rebuildScanning == s.rebuildScanning
  {
  }

  lemma RebuildEndedFields(s: State)
    ensures var n := s.(rebuildScanning := false);
            ScansChanged(s, n) && n.loaded == s.loaded && n.primaryScanning == s.primaryScanning && !n.rebuildScanning
  {
  }

  lemma BegunFields(s: State)
    ensures var n := RebuildOpen(s); ScansChanged(s, n) && SameScans(s, n)
  {
  }

  lemma RefreshFields(s: State)
    requires LandedRefresh(s).Some?
    ensures var n := RefreshTaken(s);
            && SameStore(s, n) && SameScans(s, n) && SamePages(s, n) && SameRebuild(s, n) && n.available == s.available
            && Same(n.removals, s.removals) && Same(n.executing, s.executing) && !n.refreshOwed
            && Same(n.hidden, if s.available then [] else s.hidden)
  {
    hide LandedRefresh;
    if s.available {
    } else {
    }
  }

  lemma ChangedFields(s: State, suppressed: bool, executing: Option<Path>, cached: bool, provisional: bool)
    ensures var n := Changed(s, suppressed, executing, cached, provisional);
            && SameStore(s, n) && SameScans(s, n) && n.available == s.available && Same(n.removals, s.removals)
            && n.refreshOwed == s.refreshOwed && Same(n.hidden, s.hidden) && Same(n.executing, executing)
            && n.cached == cached && n.provisional == provisional && n.suppressed == suppressed
            && n.required == s.required && n.active == s.active && n.invalidated == s.invalidated
  {
  }

  class App {
    var available: bool
    var loaded: bool
    var cached: bool
    var provisional: bool
    var published: Option<Map>
    var publications: seq<Pending>
    var finished: seq<Finished>
    var required: bool
    var active: bool
    var invalidated: bool
    var suppressed: bool
    var removals: Removals
    var refreshOwed: bool
    var hidden: seq<Path>
    var executing: Option<Path>
    var primaryScanning: bool
    var rebuildScanning: bool
    /** The same fields as one value, with what has happened so far. */
    ghost var view: State

    ghost predicate Tied()
      reads this
    {
      && available == view.available && loaded == view.loaded && cached == view.cached
      && provisional == view.provisional && Same(published, view.published)
      && Same(publications, view.publications) && Same(finished, view.finished)
      && required == view.required && active == view.active && invalidated == view.invalidated
      && suppressed == view.suppressed && Same(removals, view.removals) && refreshOwed == view.refreshOwed
      && Same(hidden, view.hidden) && Same(executing, view.executing)
      && primaryScanning == view.primaryScanning && rebuildScanning == view.rebuildScanning
    }

    ghost predicate Valid()
      reads this
    {
      Tied() && view.Valid({}, None)
    }

    constructor (available: bool)
      ensures Valid() && view == Start(available)
    {
      this.available, loaded, cached, provisional, published := available, false, true, true, None;
      publications, finished := [], [];
      required, active, invalidated, suppressed := false, false, false, false;
      removals, refreshOwed, hidden, executing := NO_REMOVALS, false, [], None;
      primaryScanning, rebuildScanning := true, false;
      view := Start(available);
      StartIsValid(available);
    }

    predicate CanRetain()
      reads this
    {
      !provisional && cached && published.Some?
    }

    predicate FirstMapIsOwed()
      reads this
    {
      available && !loaded && published.None? && !required && !active
    }

    predicate Busy()
      reads this
    {
      publications != [] || finished != [] || (available && removals.prefixes != [] && published.Some?)
    }

    predicate CanBeDescribed(report: Report)
      reads this
    {
      available && report.whole && !report.otherLinks
    }

    // ---- the steps that change fields ----

    /** What is on screen is no longer the tree: the map is to be scanned again, and that scan finds every
        removal made so far. */
    method InvalidateForLiveMutation()
      requires Tied()
      modifies this
      ensures Tied() && view == Invalidated(old(view))
    {
      hide Invalidated, OutOfDate, Forgotten, PagesReset;
      InvalidatedInSteps(view);
      var retains := CanRetain();
      RequireRebuild(retains);
      ForgetRemovals();
      if !retains { ResetLoadingSnapshot(); }
    }

    method RequireRebuild(retains: bool)
      requires Tied()
      modifies this
      ensures Tied() && view == OutOfDate(old(view), retains)
    {
      hide OutOfDate;
      OutOfDateFields(view, retains);
      available := retains;
      if active { invalidated := true; }
      suppressed, required := false, true;
      view := OutOfDate(view, retains);
    }

    method ResetLoadingSnapshot()
      requires Tied()
      modifies this
      ensures Tied() && view == PagesReset(old(view))
    {
      hide PagesReset;
      PagesResetFields(view);
      cached, provisional := true, true;
      view := PagesReset(view);
    }

    method AbandonGeneration()
      requires Tied()
      modifies this
      ensures Tied() && view == Abandoned(old(view))
    {
      hide Abandoned;
      AbandonedFields(view);
      available, removals := false, NO_REMOVALS;
      view := Abandoned(view);
    }

    method Await(pending: Pending)
      requires Tied()
      modifies this
      ensures Tied() && view == Requested(old(view), pending)
    {
      hide Requested;
      RequestedFields(view, pending);
      publications := publications + [pending];
      view := Requested(view, pending);
    }

    method Finish(f: Finished)
      requires Tied()
      modifies this
      ensures Tied() && view == Over(old(view), f)
    {
      hide Over;
      OverFields(view, f);
      finished := finished + [f];
      view := Over(view, f);
    }

    method Install(m: Map)
      requires Tied()
      modifies this
      ensures Tied() && view == old(view).(published := Some(m))
    {
      PublishedFields(view, m);
      published := Some(m);
      view := view.(published := Some(m));
    }

    method NextOutstanding() returns (pending: Pending)
      requires Tied() && publications != []
      modifies this
      ensures pending == old(publications)[0] && Tied() && view == Popped(old(view))
    {
      hide Popped;
      PoppedFields(view);
      pending := publications[0];
      publications := publications[1..];
      view := Popped(view);
    }

    method NextFinished() returns (f: Finished)
      requires Tied() && finished != []
      modifies this
      ensures f == old(finished)[0] && Tied() && view == FirstFinishedTaken(old(view))
    {
      hide FirstFinishedTaken;
      TakenFields(view);
      f := finished[0];
      finished := finished[1..];
      view := FirstFinishedTaken(view);
    }

    method ForgetRemovals()
      requires Tied()
      modifies this
      ensures Tied() && view == Forgotten(old(view))
    {
      hide Forgotten;
      ForgottenFields(view);
      removals := NO_REMOVALS;
      view := Forgotten(view);
    }

    method QueueRemoval(prefix: Path)
      requires Tied()
      modifies this
      ensures Tied() && view == Queued(old(view), prefix)
    {
      hide Queued;
      QueuedFields(view, prefix);
      removals := removals.(prefixes := removals.prefixes + [prefix]);
      view := Queued(view, prefix);
    }

    method RequireRescan()
      requires Tied()
      modifies this
      ensures Tied() && view == MustRebuild(old(view))
    {
      hide MustRebuild;
      MustRebuildFields(view);
      removals := removals.(rebuild := true);
      view := MustRebuild(view);
    }

    method ExcuseUnderExecution(path: Path)
      requires Tied()
      modifies this
      ensures Tied() && view == ExcusedForNow(old(view), path) && removals == old(removals).(excused := true)
    {
      hide ExcusedForNow;
      ExcusedFields(view, path);
      removals := removals.(excused := true);
      view := ExcusedForNow(view, path);
    }

    ghost method Remember(path: Path)
      requires Tied()
      modifies this`view
      ensures Tied() && view == RecordedExcuse(old(view), path)
    {
      hide RecordedExcuse;
      RememberedFields(view, path);
      view := RecordedExcuse(view, path);
    }

    method ShowMap(m: Map, available: bool, cached: bool, provisional: bool)
      requires Tied()
      modifies this
      ensures Tied() && view == Shown(old(view), m, available, cached, provisional)
    {
      hide Shown;
      ShownFields(view, m, available, cached, provisional);
      published, this.available := Some(m), available;
      this.cached, this.provisional := cached, provisional;
      view := Shown(view, m, available, cached, provisional);
    }

    method GiveUpMap()
      requires Tied()
      modifies this
      ensures Tied() && view == MapGivenUp(old(view))
    {
      hide MapGivenUp;
      MapGivenUpFields(view);
      available := false;
      view := MapGivenUp(view);
    }

    method EndExecution(ghost excuses: Excuses)
      requires Tied()
      modifies this
      ensures Tied() && view == ExecutionOver(old(view), excuses)
    {
      hide ExecutionOver;
      ExecutionOverFields(view, excuses);
      executing, removals := None, removals.(excused := false);
      view := ExecutionOver(view, excuses);
    }

    method SetLoaded()
      requires Tied()
      modifies this
      ensures Tied() && view == old(view).(loaded := true)
    {
      LoadedFields(view);
      loaded := true;
      view := view.(loaded := true);
    }

    method StopPrimaryScan()
      requires Tied()
      modifies this
      ensures Tied() && view == PrimaryScanned(old(view))
    {
      hide PrimaryScanned;
      PrimaryEndedFields(view);
      primaryScanning := false;
      view := PrimaryScanned(view);
    }

    method StopRebuildScan()
      requires Tied()
      modifies this
      ensures Tied() && view == old(view).(rebuildScanning := false)
    {
      RebuildEndedFields(view);
      rebuildScanning := false;
      view := view.(rebuildScanning := false);
    }

    ghost method NoteBegun()
      requires Tied()
      modifies this`view
      ensures Tied() && view == RebuildOpen(old(view))
    {
      hide RebuildOpen;
      BegunFields(view);
      view := RebuildOpen(view);
    }

    // ---- publications ----

    method FailStore()
      requires Tied()
      modifies this
      ensures Tied() && view == StoreFailed(old(view))
    {
      hide Abandoned;
      if available { AbandonGeneration(); }
    }

    method BeginPublication(pending: Pending, accepted: bool) returns (publishing: bool)
      requires Tied()
      modifies this
      ensures publishing == (old(available) && accepted)
      ensures Tied() && view == if publishing then Requested(old(view), pending) else StoreFailed(old(view))
    {
      hide Abandoned, Requested;
      if !available { return false; }
      if !accepted {
        AbandonGeneration();
        return false;
      }
      Await(pending);
      publishing := true;
    }

    method SettleRemovalsBeforeFirstMap()
      requires Tied()
      modifies this
      ensures Tied() && view == SettledBeforeFirstMap(old(view))
    {
      hide Invalidated, Forgotten;
      if removals.IsEmpty() { return; }
      if !available || published.None? {
        ForgetRemovals();
      } else if removals.rebuild {
        InvalidateForLiveMutation();
      }
    }

    method BeginPrimaryPublication(accepted: bool)
      requires Tied()
      modifies this
      ensures Tied() && view == BegunPrimary(old(view), accepted)
    {
      hide Requested, Over, SettledBeforeFirstMap, StoreFailed;
      StopPrimaryScan();
      var publishing := BeginPublication(Primary, accepted);
      if publishing { return; }
      SettleRemovalsBeforeFirstMap();
      Finish(PrimaryDone);
    }

    /** `built` is the map the store thread built, when it did. */
    method CompletePrimaryPublication(reply: Reply, built: Map, loads: bool, ghost job: Job)
      requires Tied() && job.Scan? && (reply.Full? ==> built == Built(job, reply.found))
      modifies this
      ensures Tied() && view == CompletedPrimary(old(view), job, reply, loads)
    {
      hide SettledBeforeFirstMap, Over, Abandoned, Shown, Scanned;
      if available {
        match reply {
          case Full(_) => ShowMap(built, loads, true, !loads);
          case SummaryOnly => GiveUpMap();
          case Refused => AbandonGeneration();
        }
      }
      SettleRemovalsBeforeFirstMap();
      Finish(PrimaryDone);
    }

    method CompleteRebuildPublication(reply: Reply, built: Map, ghost job: Job)
      requires Tied() && job.Scan? && (reply.Full? ==> built == Built(job, reply.found))
      modifies this
      ensures Tied() && view == CompletedRebuild(old(view), job, reply)
    {
      hide Over, Scanned;
      if suppressed {
        Finish(RebuildCancelled);
        return;
      }
      var failed := true;
      if available && reply.Full? {
        Install(built);
        failed := false;
      }
      Finish(RebuildDone(failed));
    }

    /** Has the removal that waited longest taken out of the installed map. If the store cannot be asked, the tree
        is scanned again. */
    method StartNextRemovalOverlay(luck: Luck)
      requires Tied()
      modifies this
      ensures Tied() && view == NextOverlay(old(view), luck)
    {
      hide Invalidated, OverlayAsked;
      if !available || publications != [] || published.None? { return; }
      if removals.prefixes == [] { return; }
      if !luck.numbered || !luck.accepted {
        InvalidateForLiveMutation();
        return;
      }
      AskForOverlay();
      if !luck.advanced {
        InvalidateForLiveMutation();
      }
    }

    method AskForOverlay()
      requires Tied() && removals.prefixes != [] && published.Some? && publications == []
      modifies this
      ensures Tied() && view == OverlayAsked(old(view))
    {
      hide OverlayAsked;
      OverlayFields(view);
      var prefix := removals.prefixes[0];
      removals := WithoutFirst(removals);
      publications := [Overlay(prefix)];
      view := OverlayAsked(view);
    }

    /** The map of an overlay is shown, if its pages can be read. */
    method CompleteOverlayPublication(reply: Reply, built: Map, loads: bool, luck: Luck, ghost job: Job)
      requires Tied() && job.Derive? && (reply.Full? ==> built == Built(job, reply.found))
      modifies this
      ensures Tied() && view == CompletedOverlay(old(view), job, reply, loads, luck)
    {
      hide NextOverlay, Invalidated, Derived, Shown;
      if !available { return; }
      if !reply.Full? {
        InvalidateForLiveMutation();
        return;
      }
      ShowMap(built, available, loads, provisional && !loads);
      if !loads {
        InvalidateForLiveMutation();
      }
      StartNextRemovalOverlay(luck);
    }

    method SettlePublication(pending: Pending, reply: Reply, built: Map, loads: bool, luck: Luck, ghost job: Job)
      requires Tied() && job.Derive? == pending.Overlay? && (reply.Full? ==> built == Built(job, reply.found))
      modifies this
      ensures Tied()
      ensures view == match pending
                      case Primary => CompletedPrimary(old(view), job, reply, loads)
                      case Rebuild => CompletedRebuild(old(view), job, reply)
                      case Overlay(_) => CompletedOverlay(old(view), job, reply, loads, luck)
    {
      hide CompletedPrimary, CompletedRebuild, CompletedOverlay, Tied;
      match pending {
        case Primary => CompletePrimaryPublication(reply, built, loads, job);
        case Rebuild => CompleteRebuildPublication(reply, built, job);
        case Overlay(_) => CompleteOverlayPublication(reply, built, loads, luck, job);
      }
    }

    /** A store answer settles the publication that was asked for first. */
    method ApplyPublicationResult(reply: Reply, built: Map, loads: bool, luck: Luck)
      requires Valid() && view.past.jobs != [] && MayAnswer(view.past.jobs[0], reply)
      requires reply.Full? ==> built == Built(view.past.jobs[0], reply.found)
      modifies this
      ensures Valid() && view == Answered(old(view), reply, loads, luck)
    {
      hide State.Valid, CompletedPrimary, CompletedRebuild, CompletedOverlay, Popped;
      AnsweredIsValid(view, reply, loads, luck);
      InLine(view);
      ghost var job := view.past.jobs[0];
      var pending := NextOutstanding();
      SettlePublication(pending, reply, built, loads, luck, job);
    }

    /** Without the store thread, every publication outstanding ends as failed, oldest first. */
    method StoreStopped()
      requires Valid()
      modifies this
      ensures Valid() && view == Stopped(old(view)) && publications == []
    {
      hide State.Valid, Answered, StoreFailed;
      StoppedIsValid(view);
      StoreFailedIsValid(view, {}, None);
      ghost var failed := StoreFailed(view);
      FailStore();
      while publications != []
        invariant Valid() && !available && Drained(view) == Drained(failed)
        decreases |publications|
      {
        AnsweredShrinks(view);
        Owing(view);
        ApplyPublicationResult(Refused, Map(0, 0, {}, [], {}), false, Luck(false, false, false));
      }
      NothingDrains(view);
    }

    // ---- deletions ----

    method RecordRemovalBeforeFirstMap(report: Report)
      requires Tied()
      modifies this
      ensures Tied() && view == Recorded(old(view), report)
    {
      hide Recorded;
      RecordedFields(view, report);
      removals := WithRecorded(removals, report.target, CanBeDescribed(report));
      view := Recorded(view, report);
    }

    /** What a removal means for the map: it waits for the first one, becomes an overlay, or sends the map back
        to a scan. */
    method ReconcileGenerationAfterDeletion(report: Report, luck: Luck)
      requires Tied()
      modifies this
      ensures Tied() && view == Reconciled(old(view), report, luck)
    {
      hide NextOverlay, Invalidated, Recorded, Queued;
      if FirstMapIsOwed() {
        RecordRemovalBeforeFirstMap(report);
        return;
      }
      if report.target.None? || !CanBeDescribed(report) {
        InvalidateForLiveMutation();
        return;
      }
      if published.None? || (exists p <- publications :: !p.Overlay?)
         || |removals.prefixes| >= MAX_REMOVALS_BEFORE_FIRST_MAP {
        InvalidateForLiveMutation();
        return;
      }
      QueueRemoval(report.target.value);
      StartNextRemovalOverlay(luck);
    }

    /** The execution of a deletion ended, and the failures excused because of it are to be answered for. */
    method ExcusedExecutionEnded(described: bool)
      requires Tied()
      modifies this
      ensures Tied() && view == ExcusedEnded(old(view), described)
    {
      hide Invalidated, ExecutionOver, MustRebuild;
      ghost var excuses := view.past.excuses.After(described);
      if removals.excused && !described {
        if FirstMapIsOwed() {
          RequireRescan();
        } else if available && published.Some? {
          InvalidateForLiveMutation();
        }
      }
      EndExecution(excuses);
    }

    /** A deletion ended with a report. */
    method CompleteDeletion(report: Report, luck: Luck)
      requires Valid() && IsOfExecution(view, report)
      modifies this
      ensures Valid() && view == CompletedDeletion(old(view), report, luck)
    {
      hide State.Valid, Reconciled, ExcusedEnded, Logged;
      CompletedDeletionIsValid(view, report, luck);
      var described := report.deleted && report.target.Some? && CanBeDescribed(report);
      if report.deleted {
        NoteRemoval(report);
        ReconcileGenerationAfterDeletion(report, luck);
      }
      ExcusedExecutionEnded(described);
    }

    method NoteRemoval(report: Report)
      requires Tied()
      modifies this
      ensures Tied() && view == Logged(old(view), report)
    {
      hide Logged, Hidden;
      LoggedFields(view, report);
      if report.whole && report.target.Some? {
        HideRemovedTarget(report.target.value);
      }
      refreshOwed := true;
      view := Logged(view, report);
    }

    /** The view leaves the target out, and the one left out longest is forgotten if there are too many. */
    method HideRemovedTarget(target: Path)
      modifies this`hidden
      ensures hidden == Hidden(old(hidden), target)
    {
      if |hidden| == MAX_REMOVED_BUT_LISTED { hidden := hidden[1..]; }
      hidden := hidden + [target];
    }

    /** Excuses a failure at this path, if a deletion is to blame for it. */
    method PathRemovedByADeletion(path: Path) returns (removed: bool)
      requires Valid()
      modifies this
      ensures Valid() && removed == RemovedByADeletion(old(view), path) && view == ScanFailed(old(view), path)
      ensures removed <==> (old(FirstMapIsOwed()) &&
        (old(executing.Some? && executing.value <= path) || exists p <- old(removals).prefixes :: p <= path))
      ensures old(FirstMapIsOwed()) <==> old(available && !loaded && published.None? && !required && !active)
      ensures removals.prefixes == old(removals).prefixes && removals.rebuild == old(removals).rebuild
      ensures removals.excused <==> old(removals).excused || (removed && forall p <- removals.prefixes :: !(p <= path))
    {
      hide State.Valid, RecordedExcuse, ExcusedForNow;
      ScanFailedIsValid(view, path);
      if !FirstMapIsOwed() { return false; }
      if exists p <- removals.prefixes :: p <= path {
        Remember(path);
        return true;
      }
      if executing.Some? && executing.value <= path {
        ExcuseUnderExecution(path);
        return true;
      }
      removed := false;
    }

    // ---- rebuilds ----

    method BeginGenerationRebuild(accepted: bool) returns (begun: bool)
      requires Valid()
      modifies this
      ensures Valid() && view == BegunRebuild(old(view), accepted)
      ensures begun == (view != old(view))
    {
      hide State.Valid, NewRebuild;
      BegunRebuildIsValid(view, accepted);
      if !required || active || suppressed || Busy() || primaryScanning || !accepted { return false; }
      RebuildFields(view);
      StartRebuild();
      begun := true;
    }

    method StartRebuild()
      requires Tied()
      modifies this
      ensures Tied() && view == NewRebuild(old(view))
    {
      hide NewRebuild;
      RebuildFields(view);
      available := true;
      active, invalidated := true, false;
      required, rebuildScanning := false, true;
      view := NewRebuild(view);
    }

    /** The reader gives the rebuild up: the map on screen stays if it can, and is out of date. */
    method CancelGenerationRebuild()
      requires Tied()
      modifies this
      ensures Tied() && view == CancelledRebuild(old(view))
    {
      hide GivenUp, PagesReset;
      if !active { return; }
      CancelledInSteps(view);
      hide CancelledRebuild;
      var kept := available && CanRetain();
      GiveRebuildUp(kept);
      if !kept { ResetLoadingSnapshot(); }
    }

    method GiveRebuildUp(kept: bool)
      requires Tied()
      modifies this
      ensures Tied() && view == GivenUp(old(view), kept)
    {
      hide GivenUp;
      GivenUpFields(view, kept);
      active, invalidated, required := false, false, true;
      available := kept;
      view := GivenUp(view, kept);
    }

    /** The rebuild's scan ended: its publication begins, or it ends at once. */
    method EndRebuildScan(cancelled: bool, accepted: bool)
      requires Valid() && rebuildScanning
      modifies this
      ensures Valid() && view == RebuildScanEnded(old(view), cancelled, accepted)
    {
      hide State.Valid, CancelledRebuild, Over, Requested, StoreFailed;
      RebuildScanEndedIsValid(view, cancelled, accepted);
      StopRebuildScan();
      if cancelled {
        CancelGenerationRebuild();
        return;
      }
      NoteBegun();
      if invalidated {
        Finish(RebuildDone(false));
      } else if suppressed {
        Finish(RebuildCancelled);
      } else {
        var publishing := BeginPublication(Rebuild, accepted);
        if !publishing { Finish(RebuildDone(true)); }
      }
    }

    /** What a rebuild leaves: a new map on screen, none, or another rebuild to be made. */
    method FinishGenerationRebuild(failed: bool, loads: bool)
      requires Tied()
      modifies this
      ensures Tied() && view == FinishedRebuild(old(view), failed, loads)
    {
      hide Abandoned, RebuildSettled, RebuildShown;
      var rebuildInvalidated := invalidated;
      SettleRebuild();
      if rebuildInvalidated { return; }
      if failed {
        AbandonGeneration();
        return;
      }
      ShowRebuild(loads);
    }

    method SettleRebuild()
      requires Tied()
      modifies this
      ensures Tied() && view == RebuildSettled(old(view))
    {
      hide RebuildSettled;
      SettledFields(view, true);
      active, required, invalidated := false, invalidated, false;
      view := RebuildSettled(view);
    }

    method ShowRebuild(loads: bool)
      requires Tied()
      modifies this
      ensures Tied() && view == RebuildShown(old(view), loads)
    {
      hide RebuildShown;
      SettledFields(view, loads);
      suppressed, cached, provisional := false, true, !loads;
      if !loads { available := false; }
      view := RebuildShown(view, loads);
    }

    /** The primary scan is over for the reader; the overlays that the first map waits for begin. */
    method StartUi(luck: Luck)
      requires Tied()
      modifies this
      ensures Tied() && view == StartedUi(old(view), luck)
    {
      hide NextOverlay, Tied;
      SetLoaded();
      StartNextRemovalOverlay(luck);
    }

    /** Takes the oldest finished publication, and does what is left to do for it. */
    method TakeFinishedPublication(loads: bool, luck: Luck) returns (taken: Option<Finished>)
      requires Valid()
      modifies this
      ensures Valid() && view == TakenFinished(old(view), loads, luck)
      ensures taken == if old(finished) == [] then None else Some(old(finished)[0])
    {
      hide State.Valid, StartedUi, FinishedRebuild, CancelledRebuild;
      TakenFinishedIsValid(view, loads, luck);
      if finished == [] { return None; }
      var f := NextFinished();
      taken := Some(f);
      match f {
        case PrimaryDone => StartUi(luck);
        case RebuildDone(failed) => FinishGenerationRebuild(failed, loads);
        case RebuildCancelled => CancelGenerationRebuild();
      }
    }

    /** The answer about the refresh, given exactly when nothing is in its way any more: a map was published, and
        the view leaves nothing out any more, or the store is lost. */
    method TakeLandedRefresh() returns (outcome: Option<Refresh>)
      requires Valid()
      modifies this
      ensures Valid() && outcome == LandedRefresh(old(view)) && view == RefreshTaken(old(view))
      ensures outcome == if !Answerable(old(view)) then None else Some(if old(available) then Published else Failed)
      ensures hidden == (if outcome == Some(Published) then [] else old(hidden))
      ensures refreshOwed == (old(refreshOwed) && outcome.None?)
    {
      RefreshTakenIsValid(view);
      AnswersExactly(view);
      hide State.Valid, Answerable;
      if !refreshOwed || required || active || Busy() || !removals.IsEmpty() { return None; }
      outcome := Some(if available then Published else Failed);
      EndRefresh();
    }

    method EndRefresh()
      requires Tied() && LandedRefresh(view).Some?
      modifies this
      ensures Tied() && view == RefreshTaken(old(view))
    {
      hide RefreshTaken, LandedRefresh;
      RefreshFields(view);
      refreshOwed := false;
      if available { hidden := []; }
      view := RefreshTaken(view);
    }

    /** The reader does not want the rebuild that is under way. */
    method SuppressRebuildRestart()
      requires Valid()
      modifies this
      ensures Valid()
      ensures view == Changed(old(view), old(suppressed) || old(active), old(executing), old(cached), old(provisional))
    {
      hide State.Valid, Changed;
      PlainChangeIsValid(view, suppressed || active, executing, cached, provisional);
      ChangedFields(view, suppressed || active, executing, cached, provisional);
      view := Changed(view, suppressed || active, executing, cached, provisional);
      suppressed := suppressed || active;
    }

    method BeginExecution(target: Path)
      requires Valid() && executing.None?
      modifies this
      ensures Valid()
      ensures view == Changed(old(view), old(suppressed), Some(target), old(cached), old(provisional))
    {
      hide State.Valid, Changed;
      PlainChangeIsValid(view, suppressed, Some(target), cached, provisional);
      ChangedFields(view, suppressed, Some(target), cached, provisional);
      view := Changed(view, suppressed, Some(target), cached, provisional);
      executing := Some(target);
    }

    method TurnPage(cached: bool, provisional: bool)
      requires Valid()
      modifies this
      ensures Valid() && view == Changed(old(view), old(suppressed), old(executing), cached, provisional)
    {
      hide State.Valid, Changed;
      PlainChangeIsValid(view, suppressed, executing, cached, provisional);
      ChangedFields(view, suppressed, executing, cached, provisional);
      view := Changed(view, suppressed, executing, cached, provisional);
      this.cached, this.provisional := cached, provisional;
    }

    method EndPrimaryScan(accepted: bool)
      requires Valid() && primaryScanning
      modifies this
      ensures Valid() && view == BegunPrimary(old(view), accepted)
    {
      hide State.Valid, BegunPrimary;
      BegunPrimaryIsValid(view, accepted);
      BeginPrimaryPublication(accepted);
    }

    method LoseStore()
      requires Valid()
      modifies this
      ensures Valid() && view == StoreFailed(old(view))
    {
      hide State.Valid, StoreFailed;
      StoreFailedIsValid(view, {}, None);
      FailStore();
    }

    method DropDeletion()
      requires Valid()
      modifies this
      ensures Valid() && view == ExcusedEnded(old(view), false)
    {
      hide State.Valid, ExcusedEnded;
      ExcusedEndedIsValid(view, false);
      ExcusedExecutionEnded(false);
    }

    /** Whatever happens, the fields become what `Owner` says becomes of the state, so what holds of its runs
        holds of the object. `built` is the map that a store's answer comes with. */
    method Handle(e: Event, built: Map)
      requires Valid() && MayHappen(view, e)
      requires e.StoreAnswers? && e.reply.Full? ==> built == Built(view.past.jobs[0], e.reply.found)
      modifies this
      ensures Valid() && view == Next(old(view), e)
    {
      hide State.Valid, BegunPrimary, RebuildScanEnded, Answered, Stopped, StoreFailed, TakenFinished, BegunRebuild;
      hide CompletedDeletion, ExcusedEnded, ScanFailed, RefreshTaken, Built, RemovedByADeletion, LandedRefresh, Changed;
      match e {
        case PrimaryScanEnds(accepted) => EndPrimaryScan(accepted);
        case RebuildScanEnds(cancelled, accepted) => EndRebuildScan(cancelled, accepted);
        case StoreAnswers(reply, loads, luck) => ApplyPublicationResult(reply, built, loads, luck);
        case StoreStops => StoreStopped();
        case StoreFails => LoseStore();
        case FinishedIsTaken(loads, luck) => var taken := TakeFinishedPublication(loads, luck);
        case RebuildBegins(accepted) => var begun := BeginGenerationRebuild(accepted);
        case RebuildIsUnwanted => SuppressRebuildRestart();
        case DeletionBegins(target) => BeginExecution(target);
        case DeletionEnds(report, luck) => CompleteDeletion(report, luck);
        case DeletionIsDropped => DropDeletion();
        case ScanFails(path) => var removed := PathRemovedByADeletion(path);
        case RefreshIsTaken => var outcome := TakeLandedRefresh();
        case PageTurns(cached, provisional) => TurnPage(cached, provisional);
      }
    }
  }

  lemma InLine(s: State)
    requires s.Valid({}, None) && s.past.jobs != []
    ensures s.publications != []
    ensures s.past.jobs[0].Derive? == s.publications[0].Overlay?
  {
  }

  lemma Owing(s: State)
    requires s.Valid({}, None) && s.publications != []
    ensures s.past.jobs != [] && MayAnswer(s.past.jobs[0], Refused)
  {
  }
}
