/** The plan of a deletion: a walk of the target as it is, folder by folder, in whatever order the bag of
    pending folders gives them back. */
module Planner {
  import opened Outcomes
  import opened FileSystem
  import opened Isolation
  import opened Spill
  import opened Records
  import opened PlanStore
  import opened Reports

  datatype Refusal =
    | SyntheticTarget | RootTarget | InvalidPath | ChangedTarget | MissingTarget | CancelledPlan | MemoryLimit
    | StorageTrouble | Unread

  /** What the map says of the target. */
  datatype Model = Model(synthetic: bool, kind: Kind, apparent: nat, modified: Option<nat>, identity: Option<Snapshot>)

  /** What the system does while the plan is built: which folders are mount roots, which paths cannot be
      read, and whether the n-th look at the cancellation flag finds it set; and, when the finished plan is
      looked over again, which paths cannot be read then, and at which the flag is found set. */
  datatype Weather = Weather(mounted: set<ObjId>, unreadable: set<seq<Name>>, cancelled: nat -> bool,
                             unseen: set<seq<Name>>, interrupted: set<seq<Name>>)

  predicate SameIdentity(a: Snapshot, b: Snapshot) {
    a.id == b.id && a.reparse == b.reparse && a.links == b.links
  }

  predicate MatchesModel(model: Model, actual: Snapshot) {
    && model.kind == actual.kind && model.apparent == actual.apparent && model.modified == actual.modified
    && (model.identity.Some? ==> SameIdentity(model.identity.value, actual))
  }

  /** What is seen is what the map lists; and the object it lists, with as many links, if it knows which. */
  ghost predicate AsListed(model: Model, actual: Snapshot) {
    && model == Model(model.synthetic, actual.kind, actual.apparent, actual.modified, model.identity)
    && forall known | model.identity == Some(known) ::
         known == known.(id := actual.id, reparse := actual.reparse, links := actual.links)
  }

  /** The planner's comparison is exactly that. */
  lemma ListedExactly(model: Model, actual: Snapshot)
    ensures MatchesModel(model, actual) <==> AsListed(model, actual)
  {
    if model.identity.Some? {
      assert model.identity == Some(model.identity.value);
    }
  }

  /** What a no-follow look at the path finds. */
  function Observed(fs: Fs, path: seq<Name>): Option<Snapshot> {
    match SlotAt(fs.names, path)
    case None => None
    case Some(s) => if s in fs.names && fs.names[s] in fs.facts then Some(fs.Stat(s)) else None
  }

  function Parent(path: seq<Name>): seq<Name>
    requires path != []
  {
    path[..|path| - 1]
  }

  /** The folders form a tree: each has one path, and every entry is in one of them. */
  ghost predicate Tree(fs: Fs, home: map<ObjId, seq<Name>>) {
    && fs.Valid()
    && ROOT in home && home[ROOT] == []
    && (forall s <- fs.names :: s.folder in home)
    && (forall s <- fs.names | fs.IsFolder(fs.names[s]) ::
          fs.names[s] in home && home[fs.names[s]] == home[s.folder] + [s.name])
  }

  /** In a tree, a path leads to the folder whose path it is. */
  lemma {:induction false} FolderHome(fs: Fs, home: map<ObjId, seq<Name>>, path: seq<Name>, o: ObjId)
    requires Tree(fs, home) && Resolve(fs.names, path) == Some(o) && fs.IsFolder(o)
    ensures o in home && home[o] == path
  {
    if path != [] {
      var folder := Resolve(fs.names, Parent(path)).value;
      FolderHome(fs, home, Parent(path), folder);
      assert Parent(path) + [path[|path| - 1]] == path;
    }
  }

  /** Different paths have different names in a tree. */
  lemma OnePath(fs: Fs, home: map<ObjId, seq<Name>>, p: seq<Name>, q: seq<Name>, s: Slot)
    requires Tree(fs, home) && s in fs.names && SlotAt(fs.names, p) == SlotAt(fs.names, q) == Some(s)
    ensures p == q
  {
    FolderHome(fs, home, Parent(p), s.folder);
    FolderHome(fs, home, Parent(q), s.folder);
    assert p == Parent(p) + [s.name] && q == Parent(q) + [s.name];
  }

  lemma ObservedSlot(fs: Fs, path: seq<Name>)
    requires Observed(fs, path).Some?
    ensures SlotAt(fs.names, path).Some? && SlotAt(fs.names, path).value in fs.names
    ensures fs.names[SlotAt(fs.names, path).value] == Observed(fs, path).value.id
    ensures Observed(fs, path).value.id in fs.facts
    ensures Observed(fs, path).value == fs.Look(Observed(fs, path).value.id)
    ensures Resolve(fs.names, path) == Some(Observed(fs, path).value.id)
  {
  }

  // ---- what a walk has found so far ----

  ghost predicate Listed(entries: seq<Entry>, path: seq<Name>) {
    exists e <- entries :: e.path == path
  }

  ghost predicate Faithful(fs: Fs, target: seq<Name>, entries: seq<Entry>) {
    forall e <- entries :: target <= e.path && e.path != [] && Observed(fs, e.path) == Some(e.snapshot)
  }

  ghost predicate Distinct(entries: seq<Entry>) {
    forall i, j | 0 <= i < j < |entries| :: entries[i].path != entries[j].path
  }

  /** The target first, and each other entry after the folder that holds it. */
  ghost predicate ParentsFirst(target: seq<Name>, entries: seq<Entry>) {
    && entries != [] && entries[0].path == target && target != []
    && forall i: nat | 0 < i < |entries| :: AfterParent(entries, i)
  }

  ghost predicate AfterParent(entries: seq<Entry>, i: nat)
    requires i < |entries|
  {
    entries[i].path != [] && Listed(entries[..i], Parent(entries[i].path))
  }

  function EntrySlots(fs: Fs, entries: seq<Entry>): set<Slot> {
    set e <- entries | SlotAt(fs.names, e.path).Some? :: SlotAt(fs.names, e.path).value
  }

  /** In a tree, as many entries have as many names. */
  lemma {:induction false} EntriesAreNames(fs: Fs, home: map<ObjId, seq<Name>>, target: seq<Name>, entries: seq<Entry>)
    requires Tree(fs, home) && Faithful(fs, target, entries) && Distinct(entries)
    ensures |EntrySlots(fs, entries)| == |entries| && EntrySlots(fs, entries) <= fs.names.Keys
    ensures |entries| <= |fs.names|
  {
    hide Tree, Observed, SlotAt;
    if entries != [] {
      var before, last := entries[..|entries| - 1], entries[|entries| - 1];
      EntriesAreNames(fs, home, target, before);
      ObservedSlot(fs, last.path);
      var s := SlotAt(fs.names, last.path).value;
      assert forall e <- entries :: e in before || e == last;
      assert EntrySlots(fs, entries) == EntrySlots(fs, before) + {s};
      if s in EntrySlots(fs, before) {
        var e :| e in before && SlotAt(fs.names, e.path) == Some(s);
        OnePath(fs, home, e.path, last.path, s);
        assert false;
      }
    }
    SubsetSize(EntrySlots(fs, entries), fs.names.Keys);
  }

  lemma {:induction false} SubsetSize<T>(a: set<T>, b: set<T>)
    requires a <= b
    ensures |a| <= |b|
  {
    assert b == a + (b - a);
  }

  /** A complete plan of the target. */
  ghost predicate Covers(fs: Fs, target: seq<Name>, entries: seq<Entry>) {
    && Faithful(fs, target, entries) && Distinct(entries) && ParentsFirst(target, entries)
    && forall path | target <= path && Observed(fs, path).Some? :: Listed(entries, path)
  }

  /** Each folder found is pending or has been read, and only what a read folder holds was found in it. */
  ghost predicate Frontier(entries: seq<Entry>, pending: multiset<Entry>, read: set<seq<Name>>) {
    && (forall e <- pending :: e in entries && e.snapshot.kind == Directory && pending[e] == 1 && e.path !in read)
    && (forall e <- entries | e.snapshot.kind == Directory :: e in pending || e.path in read)
    && (forall path <- read :: Listed(entries, path))
    && (forall i | 0 < i < |entries| :: entries[i].path != [] && Parent(entries[i].path) in read)
  }

  ghost predicate Closed(fs: Fs, entries: seq<Entry>, read: set<seq<Name>>) {
    forall path | path != [] && Parent(path) in read && Observed(fs, path).Some? :: Listed(entries, path)
  }

  lemma ObservedParent(fs: Fs, path: seq<Name>)
    requires fs.Valid() && |path| > 1 && Observed(fs, path).Some?
    ensures Observed(fs, Parent(path)).Some? && Observed(fs, Parent(path)).value.kind == Directory
    ensures Resolve(fs.names, Parent(path)) == Some(Observed(fs, Parent(path)).value.id)
  {
  }

  /** When no folder is pending, everything below the target has been found. */
  lemma {:induction false} NothingMissed(fs: Fs, target: seq<Name>, entries: seq<Entry>, read: set<seq<Name>>,
                                         path: seq<Name>)
    requires fs.Valid() && target != [] && Listed(entries, target)
    requires Faithful(fs, target, entries) && Frontier(entries, multiset{}, read) && Closed(fs, entries, read)
    requires target <= path && Observed(fs, path).Some?
    ensures Listed(entries, path)
    decreases |path|
  {
    if path != target {
      assert target <= Parent(path);
      ObservedParent(fs, path);
      NothingMissed(fs, target, entries, read, Parent(path));
      var e :| e in entries && e.path == Parent(path);
      assert e.snapshot.kind == Directory;
    } else {
      assert path == target;
    }
  }

  /** In a plan, a folder stands before everything below it. */
  lemma {:induction false} FolderBeforeContents(target: seq<Name>, entries: seq<Entry>, i: nat, j: nat)
    requires Distinct(entries) && ParentsFirst(target, entries) && i < |entries| && j < |entries|
    requires target <= entries[i].path < entries[j].path
    ensures i < j
    decreases j
  {
    if j > 0 {
      var k := IndexOfParent(target, entries, j);
      if k != i {
        assert entries[i].path <= entries[k].path;
        FolderBeforeContents(target, entries, i, k);
      }
    }
  }

  lemma IndexOfParent(target: seq<Name>, entries: seq<Entry>, j: nat) returns (k: nat)
    requires ParentsFirst(target, entries) && 0 < j < |entries|
    ensures k < j && entries[j].path != [] && entries[k].path == Parent(entries[j].path)
  {
    assert AfterParent(entries, j);
    var e :| e in entries[..j] && e.path == Parent(entries[j].path);
    k :| 0 <= k < j && entries[k] == e;
  }

  /** What an entry and its result are charged in memory. */
  function Required(format: Format, entry: Entry): nat {
    SatAdd(PlannedBytes(format, entry), ResultBound(format, entry))
  }

  /** A plan of these entries, and its results, can each be written to one file. */
  ghost predicate Fits(format: Format, entries: seq<Entry>) {
    PlanFits(format, entries) && ResultsFit(format, entries)
  }

  /** The plan being built with the room for its results, and what both hold in memory. */
  class PlanningStorage {
    const entries: PlanEntries
    const results: PlannedResultStorage
    const store: SpillStore
    const maximumBytes: nat
    var estimatedBytes: nat

    ghost function Repr(): set<object>
      reads this, entries, results
    {
      {this, store} + entries.Repr() + results.Repr()
    }

    ghost predicate Valid()
      reads this, entries, entries.spill, results, results.spill
    {
      && entries.Valid() && results.Valid()
      && entries.Repr() !! results.Repr() && store !in entries.Repr() + results.Repr()
      && this !in entries.Repr() + results.Repr()
      && entries.format == results.format && results.maximumBytes == maximumBytes
      && results.planned == entries.contents && Recordable(entries.format, entries.contents)
      && (entries.spill != null <==> results.spill != null)
      && Charged()
    }

    /** What is charged is within the budget, nothing once the plan is in a file, and enough for every
        result until then. */
    ghost predicate Charged()
      reads this, entries
    {
      && estimatedBytes <= maximumBytes
      && (entries.spill != null ==> estimatedBytes == 0)
      && (entries.spill == null && maximumBytes < USIZE_MAX ==>
            TotalBound(entries.format, entries.contents) <= estimatedBytes)
    }

    ghost predicate Untroubled()
      reads this, entries, entries.spill, results, results.spill, store
    {
      entries.Untroubled() && results.Untroubled() && store.fortunes == []
    }

    /** The plan and the room for its results are in files, and the results' file does what it is asked to. */
    ghost predicate Spilled()
      reads this, entries, results, results.spill
    {
      entries.spill != null && results.spill != null && results.Untroubled()
    }

    lemma SpilledMeans()
      requires Valid() && Spilled()
      ensures results.Valid() && results.spill != null && results.Untroubled()
      ensures results.format == entries.format && results.planned == entries.contents
    {
    }

    constructor (format: Format, store: SpillStore, maximumBytes: nat)
      requires format.Lawful()
      ensures Valid() && entries.contents == [] && fresh(Repr() - {store}) && this.store == store
      ensures entries.format == format && this.maximumBytes == maximumBytes && entries.spill == null && results.spill == null
      ensures store.fortunes == [] ==> Untroubled()
      ensures estimatedBytes == 0
    {
      entries := new PlanEntries(format);
      results := new PlannedResultStorage(format, maximumBytes);
      this.store, this.maximumBytes, estimatedBytes := store, maximumBytes, 0;
    }

    method Push(entry: Entry, allowSpill: bool) returns (e: Option<Refusal>)
      requires Valid()
      modifies Repr()
      ensures fresh(Repr() - old(Repr()))
      ensures e.None? ==> Valid() && entries.contents == old(entries.contents) + [entry]
      ensures e.None? && !allowSpill && old(entries.spill) == null ==> entries.spill == null
      ensures e == Some(MemoryLimit) <==>
        !allowSpill && SatAdd(old(estimatedBytes), Required(entries.format, entry)) > maximumBytes
      ensures e.Some? ==> e.value in {MemoryLimit, StorageTrouble}
      ensures e == Some(StorageTrouble) && old(Untroubled()) ==>
        !Fits(entries.format, old(entries.contents) + [entry])
      ensures e.None? && old(Untroubled()) ==> Untroubled()
    {
      hide RecordSpill.Valid, Format.Lawful, Format.Capacity, TotalCapacity, PlannedBytes, ResultBound, PlanFits;
      hide ResultsFit;
      ghost var before := entries.contents;
      var format := entries.format;
      var next := SatAdd(estimatedBytes, Required(format, entry));
      if next > maximumBytes && !allowSpill { return Some(MemoryLimit); }
      var spillNow := allowSpill && next > maximumBytes;
      var reserved := results.ReserveFor(entry, spillNow, store);
      if reserved.Some? { return Some(StorageTrouble); }
      var pushed := entries.Push(entry, spillNow, store);
      if pushed.Some? { return Some(StorageTrouble); }
      TotalsAppended(format, before, entry);
      estimatedBytes := if entries.spill != null then 0 else next;
      e := None;
    }
  }

  /** A folder of the target is being read: the children still to be listed are in `todo`. */
  ghost predicate Reading(fs: Fs, target: seq<Name>, entries: seq<Entry>, pending: multiset<Entry>,
                          read: set<seq<Name>>, path: seq<Name>, todo: set<Name>) {
    && Faithful(fs, target, entries) && Distinct(entries) && ParentsFirst(target, entries)
    && Frontier(entries, pending, read)
    && target <= path && path in read && Listed(entries, path)
    && (forall q | q != [] && Parent(q) in read && Observed(fs, q).Some? ::
          Listed(entries, q) || (Parent(q) == path && q[|q| - 1] in todo))
    && forall name <- todo :: !Listed(entries, path + [name])
  }

  /** No folder is being read. */
  ghost predicate Walked(fs: Fs, target: seq<Name>, entries: seq<Entry>, pending: multiset<Entry>,
                         read: set<seq<Name>>) {
    && Faithful(fs, target, entries) && Distinct(entries) && ParentsFirst(target, entries)
    && Frontier(entries, pending, read) && Closed(fs, entries, read)
  }

  function ChildNames(fs: Fs, folder: ObjId): set<Name> {
    set s <- fs.names | s.folder == folder :: s.name
  }

  lemma WalkStarts(fs: Fs, target: seq<Name>, first: Entry)
    requires target != [] && first.path == target && Observed(fs, target) == Some(first.snapshot)
    ensures Walked(fs, target, [first], if first.snapshot.kind == Directory then multiset{first} else multiset{}, {})
  {
  }

  lemma FolderTaken(fs: Fs, target: seq<Name>, entries: seq<Entry>, pending: multiset<Entry>, read: set<seq<Name>>,
                    folder: Entry)
    requires fs.Valid() && Walked(fs, target, entries, pending + multiset{folder}, read)
    ensures folder in entries && target <= folder.path && folder.path !in read && folder.snapshot.kind == Directory
    ensures Observed(fs, folder.path) == Some(folder.snapshot)
    ensures Resolve(fs.names, folder.path) == Some(folder.snapshot.id)
    ensures Reading(fs, target, entries, pending, read + {folder.path}, folder.path,
                    ChildNames(fs, folder.snapshot.id))
  {
    var path, now := folder.path, read + {folder.path};
    var all := pending + multiset{folder};
    assert folder in all && all[folder] == 1;
    assert Listed(entries, path);
    forall e <- pending
      ensures e in entries && e.snapshot.kind == Directory && pending[e] == 1 && e.path !in now
    {
      assert e in all && e != folder;
      SamePathSameEntry(entries, e, folder);
    }
    forall e <- entries | e.snapshot.kind == Directory
      ensures e in pending || e.path in now
    {
      assert e in all || e.path in read;
    }
    forall q | q != [] && Parent(q) in now && Observed(fs, q).Some?
      ensures Listed(entries, q) || (Parent(q) == path && q[|q| - 1] in ChildNames(fs, folder.snapshot.id))
    {
      if Parent(q) == path {
        var s := Slot(folder.snapshot.id, q[|q| - 1]);
        assert SlotAt(fs.names, q) == Some(s) && s in fs.names;
      }
    }
    forall name <- ChildNames(fs, folder.snapshot.id)
      ensures !Listed(entries, path + [name])
    {
      assert Parent(path + [name]) == path;
      NothingListedBelow(target, entries, all, read, path + [name]);
    }
  }

  lemma SamePathSameEntry(entries: seq<Entry>, a: Entry, b: Entry)
    requires Distinct(entries) && a in entries && b in entries && a != b
    ensures a.path != b.path
  {
  }

  lemma NothingListedBelow(target: seq<Name>, entries: seq<Entry>, pending: multiset<Entry>, read: set<seq<Name>>,
                           path: seq<Name>)
    requires ParentsFirst(target, entries) && Frontier(entries, pending, read)
    requires path != [] && Parent(path) !in read && path != target
    ensures !Listed(entries, path)
  {
  }

  lemma ChildObserved(fs: Fs, path: seq<Name>, folder: ObjId, name: Name)
    requires fs.Valid() && Resolve(fs.names, path) == Some(folder) && name in ChildNames(fs, folder)
    ensures Slot(folder, name) in fs.names && fs.names[Slot(folder, name)] in fs.facts
    ensures Observed(fs, path + [name]) == Some(fs.Stat(Slot(folder, name)))
  {
    assert Parent(path + [name]) == path;
  }

  /** Listing one more child. */
  lemma ChildAdded(fs: Fs, target: seq<Name>, entries: seq<Entry>, pending: multiset<Entry>, read: set<seq<Name>>,
                   path: seq<Name>, todo: set<Name>, child: Entry, name: Name)
    requires Reading(fs, target, entries, pending, read, path, todo) && name in todo
    requires child.path == path + [name] && Observed(fs, child.path) == Some(child.snapshot)
    ensures Reading(fs, target, entries + [child],
                    pending + (if child.snapshot.kind == Directory then multiset{child} else multiset{}),
                    read, path, todo - {name})
  {
    hide Observed, Listed, ParentsFirst, Frontier;
    var now := entries + [child];
    assert Parent(child.path) == path;
    ListedMore(entries, child);
    ParentsFirstMore(target, entries, child);
    FrontierMore(target, entries, pending, read, child);
    NotAmong(entries, child.path);
    forall q | q != [] && Parent(q) in read && Observed(fs, q).Some?
      ensures Listed(now, q) || (Parent(q) == path && q[|q| - 1] in todo - {name})
    {
      if Parent(q) == path && q[|q| - 1] == name {
        assert q == Parent(q) + [q[|q| - 1]] == child.path;
      }
    }
    forall other <- todo - {name}
      ensures !Listed(now, path + [other])
    {
      assert (path + [other])[|path|] == other && child.path[|path|] == name;
    }
  }

  lemma NotAmong(entries: seq<Entry>, path: seq<Name>)
    requires !Listed(entries, path)
    ensures forall e <- entries :: e.path != path
  {
  }

  lemma ParentsFirstMore(target: seq<Name>, entries: seq<Entry>, child: Entry)
    requires ParentsFirst(target, entries) && child.path != [] && Listed(entries, Parent(child.path))
    ensures ParentsFirst(target, entries + [child])
  {
    hide Listed;
    var now := entries + [child];
    forall i: nat | 0 < i < |now|
      ensures AfterParent(now, i)
    {
      assert now[..i] == if i < |entries| then entries[..i] else entries;
      assert i < |entries| ==> AfterParent(entries, i);
    }
  }

  lemma FrontierMore(target: seq<Name>, entries: seq<Entry>, pending: multiset<Entry>, read: set<seq<Name>>, child: Entry)
    requires Frontier(entries, pending, read) && !Listed(entries, child.path)
    requires child.path != [] && Parent(child.path) in read
    ensures Frontier(entries + [child],
                     pending + (if child.snapshot.kind == Directory then multiset{child} else multiset{}), read)
  {
    hide Listed;
    NotAmong(entries, child.path);
    ListedMore(entries, child);
    var now := entries + [child];
    var bag := pending + (if child.snapshot.kind == Directory then multiset{child} else multiset{});
    assert child !in pending;
    forall e <- bag
      ensures e in now && e.snapshot.kind == Directory && bag[e] == 1 && e.path !in read
    {
      assert e in pending || e == child;
    }
    forall e <- now | e.snapshot.kind == Directory
      ensures e in bag || e.path in read
    {
      assert e in entries || e == child;
    }
  }

  lemma ListedMore(entries: seq<Entry>, child: Entry)
    ensures forall q :: Listed(entries + [child], q) <==> Listed(entries, q) || q == child.path
  {
    forall q
      ensures Listed(entries + [child], q) <==> Listed(entries, q) || q == child.path
    {
      if Listed(entries, q) {
        var e :| e in entries && e.path == q;
        assert e in entries + [child];
      }
      assert child in entries + [child];
    }
  }

  lemma FolderDone(fs: Fs, target: seq<Name>, entries: seq<Entry>, pending: multiset<Entry>, read: set<seq<Name>>,
                   path: seq<Name>)
    requires Reading(fs, target, entries, pending, read, path, {})
    ensures Walked(fs, target, entries, pending, read)
  {
  }

  lemma WalkCovers(fs: Fs, target: seq<Name>, entries: seq<Entry>, read: set<seq<Name>>)
    requires fs.Valid() && Walked(fs, target, entries, multiset{}, read)
    ensures Covers(fs, target, entries)
  {
    assert entries[0] in entries;
    forall path | target <= path && Observed(fs, path).Some?
      ensures Listed(entries, path)
    {
      NothingMissed(fs, target, entries, read, path);
    }
  }

  ghost predicate AllUnder(target: seq<Name>, entries: seq<Entry>) {
    forall e <- entries :: UnderTarget(target, e.path)
  }

  // ---- why a plan is refused ----

  /** The path is the target's or one below it, and there is something. */
  ghost predicate Below(fs: Fs, target: seq<Name>, path: seq<Name>) {
    target <= path && Observed(fs, path).Some?
  }

  ghost predicate MountedAt(fs: Fs, target: seq<Name>, weather: Weather, path: seq<Name>) {
    Below(fs, target, path) && Observed(fs, path).value.kind == Directory && Observed(fs, path).value.id in weather.mounted
  }

  ghost predicate UnnamableAt(fs: Fs, target: seq<Name>, path: seq<Name>) {
    Below(fs, target, path) && exists name <- path :: !IsComponent(name)
  }

  ghost predicate UnreadAt(fs: Fs, target: seq<Name>, weather: Weather, path: seq<Name>) {
    Below(fs, target, path) && (path in weather.unreadable || path in weather.unseen)
  }

  ghost predicate InterruptedAt(fs: Fs, target: seq<Name>, weather: Weather, path: seq<Name>) {
    Below(fs, target, path) && path in weather.interrupted
  }

  /** The walk looks at the cancellation flag once for each folder and once for each name in one. */
  ghost predicate CancelledAt(fs: Fs, weather: Weather, n: nat) {
    0 < n <= |fs.names| + |fs.facts| && weather.cancelled(n)
  }

  /** Any part of the target could be written to files. */
  ghost predicate AllFit(fs: Fs, target: seq<Name>, format: Format) {
    forall entries {:trigger Fits(format, entries)} ::
      Faithful(fs, target, entries) && Distinct(entries) ==> Fits(format, entries)
  }

  /** The entry's own records are not too long. */
  predicate RecordFits(format: Format, e: Entry) {
    |format.planText(e)| <= MAX_PLAN_RECORD_BYTES && format.Capacity(e) <= MAX_RESULT_RECORD_BYTES
  }

  const LARGEST_FRAME := FrameBytes(MAX_RESULT_RECORD_BYTES)

  lemma {:induction false} FramesAddUp(format: Format, entries: seq<Entry>)
    requires forall e <- entries :: RecordFits(format, e)
    ensures TotalCapacity(format, entries) <= LARGEST_FRAME * |entries|
    ensures |Log(Texts(format, entries))| <= LARGEST_FRAME * |entries|
  {
    hide Format.Capacity, Frame;
    if entries == [] {
      EmptyLog();
      NoTexts(format);
    } else {
      var before, last := entries[..|entries| - 1], entries[|entries| - 1];
      assert entries == before + [last] && last in entries;
      FramesAddUp(format, before);
      TotalsAppended(format, before, last);
      TextsAppended(format, before, last);
      LogAppended(Texts(format, before), format.planText(last));
      FrameIsLong(|Log(Texts(format, before))|, format.planText(last));
    }
  }

  /** Any target with no overlong record fits, as long as the volume has fewer than some 17 * 10^12 names. */
  lemma OrdinaryTargetsFit(fs: Fs, home: map<ObjId, seq<Name>>, target: seq<Name>, format: Format)
    requires Tree(fs, home) && LARGEST_FRAME * |fs.names| <= U64_MAX
    requires forall path | Below(fs, target, path) :: RecordFits(format, Entry.Entry(path, Observed(fs, path).value))
    ensures AllFit(fs, target, format)
  {
    hide Tree, Observed, Distinct, RecordFits, TotalCapacity, Texts, Log;
    forall entries | Faithful(fs, target, entries) && Distinct(entries)
      ensures Fits(format, entries)
    {
      forall e <- entries
        ensures RecordFits(format, e)
      {
        assert Below(fs, target, e.path) && e == Entry.Entry(e.path, Observed(fs, e.path).value);
      }
      EntriesAreNames(fs, home, target, entries);
      FramesAddUp(format, entries);
      EachFits(format, entries);
    }
  }

  lemma EachFits(format: Format, entries: seq<Entry>)
    requires forall e <- entries :: RecordFits(format, e)
    ensures Recordable(format, entries) && forall e <- entries :: |format.planText(e)| <= MAX_PLAN_RECORD_BYTES
  {
  }

  /** What can end a walk, or the second look at its plan. */
  ghost predicate Hindered(fs: Fs, target: seq<Name>, weather: Weather, format: Format, calm: bool, refusal: Refusal) {
    match refusal
    case RootTarget => exists path :: MountedAt(fs, target, weather, path)
    case InvalidPath => exists path :: UnnamableAt(fs, target, path)
    case CancelledPlan =>
      (exists n: nat :: CancelledAt(fs, weather, n)) || exists path :: InterruptedAt(fs, target, weather, path)
    case Unread => exists path :: UnreadAt(fs, target, weather, path)
    case StorageTrouble => !calm || !AllFit(fs, target, format)
    case _ => false
  }

  /** The folder that the map means is still at the target's path. */
  predicate SameFolder(model: Model, seen: Snapshot) {
    model.identity.Some? && seen.kind == Directory && SameObject(model.identity.value, seen)
  }

  /** Why a plan is refused: each refusal has its own reasons, and a caller can check each of them. */
  ghost predicate Warranted(fs: Fs, target: seq<Name>, model: Model, weather: Weather, format: Format, calm: bool,
                            maximumBytes: nat, refusal: Refusal) {
    var seen := Observed(fs, target);
    match refusal
    case SyntheticTarget => model.synthetic
    case RootTarget => target == [] || Hindered(fs, target, weather, format, calm, refusal)
    case InvalidPath =>
      (exists name <- target :: !IsComponent(name)) || Hindered(fs, target, weather, format, calm, refusal)
    case Unread =>
      || !LeadsTo(fs, target) || target in weather.unreadable || Hindered(fs, target, weather, format, calm, refusal)
    case MissingTarget => LeadsTo(fs, target) && seen.None?
    case ChangedTarget =>
      && seen.Some?
      && (!AsListed(model, seen.value)
          || (model.kind == Directory && seen.value.id in weather.mounted
              && (seen.value.kind != Directory || model.identity.None? || model.identity.value.id != seen.value.id
                  || model.identity.value.reparse != seen.value.reparse)))
    case MemoryLimit =>
      seen.Some? && seen.value.kind != Directory && Required(format, Entry.Entry(target, seen.value)) > maximumBytes
    case _ => Hindered(fs, target, weather, format, calm, refusal)
  }

  /** Nothing at a path is in the way of a plan. */
  ghost predicate Passable(fs: Fs, weather: Weather, path: seq<Name>) {
    && (forall name <- path :: IsComponent(name))
    && path !in weather.unreadable && path !in weather.unseen && path !in weather.interrupted
    && (Observed(fs, path).Some? && Observed(fs, path).value.kind == Directory ==>
          Observed(fs, path).value.id !in weather.mounted)
  }

  /** The target is what the map says, and nothing is in the way of planning it. */
  ghost predicate Plannable(fs: Fs, target: seq<Name>, model: Model, weather: Weather, format: Format, calm: bool,
                            maximumBytes: nat) {
    && !model.synthetic && target != [] && LeadsTo(fs, target) && Passable(fs, weather, target)
    && Observed(fs, target).Some? && AsListed(model, Observed(fs, target).value)
    && (forall path | Below(fs, target, path) :: Passable(fs, weather, path))
    && (forall n: nat :: !CancelledAt(fs, weather, n))
    && calm && AllFit(fs, target, format)
    && (Observed(fs, target).value.kind != Directory ==>
          Required(format, Entry.Entry(target, Observed(fs, target).value)) <= maximumBytes)
  }

  /** Then there is no reason to refuse it. */
  lemma PlannableIsNotRefused(fs: Fs, target: seq<Name>, model: Model, weather: Weather, format: Format, calm: bool,
                              maximumBytes: nat, refusal: Refusal)
    requires Plannable(fs, target, model, weather, format, calm, maximumBytes)
    ensures !Warranted(fs, target, model, weather, format, calm, maximumBytes, refusal)
  {
    hide Observed, LeadsTo, AllFit, Required;
    assert Below(fs, target, target);
  }

  lemma SpilledInBag(pending: PendingDirectories, entry: Entry)
    ensures multiset(pending.spilled + [entry]) <= pending.Bag() + multiset{entry}
  {
  }

  /** The plan being built and the folders it still has to read. */
  class PlanWalk {
    const storage: PlanningStorage
    const pending: PendingDirectories
    ghost var Rep: set<object>
    ghost var listed: seq<Entry>
    ghost var waiting: multiset<Entry>
    /** Nothing that was asked of the storage was refused. */
    ghost var calm: bool

    ghost predicate Valid()
      reads this, Rep
    {
      && this in Rep && {storage, storage.entries, storage.results, pending} <= Rep
      && (storage.entries.spill != null ==> storage.entries.spill in Rep)
      && (storage.results.spill != null ==> storage.results.spill in Rep)
      && (pending.spill != null ==> pending.spill in Rep) && storage.store in Rep
      && Rep == {this} + storage.Repr() + pending.Repr()
      && this !in storage.Repr() + pending.Repr() && storage.Repr() !! pending.Repr()
      && storage.Valid() && pending.Valid()
      && listed == storage.entries.contents && waiting == pending.Bag() && pending.format == storage.entries.format
      && (calm ==> storage.Untroubled() && pending.Untroubled())
    }

    constructor (format: Format, store: SpillStore, maximumBytes: nat)
      requires format.Lawful()
      ensures Valid() && fresh(Rep - {store}) && listed == [] && waiting == multiset{}
      ensures storage.entries.format == format && storage.maximumBytes == maximumBytes && storage.store == store
      ensures storage.entries.spill == null && storage.estimatedBytes == 0 && (calm <==> store.fortunes == [])
    {
      hide RecordSpill.Valid, Format.Lawful, PlanEntries.Valid, PlannedResultStorage.Valid, PendingDirectories.Valid;
      hide PlanEntries.Untroubled, PlannedResultStorage.Untroubled, PendingDirectories.Untroubled;
      hide PendingDirectories.Bag;
      hide Recordable, PlanningStorage.Charged, PlanningStorage.Valid, PlanningStorage.Untroubled;
      storage := new PlanningStorage(format, store, maximumBytes);
      pending := new PendingDirectories(format);
      new;
      Rep := {this} + storage.Repr() + pending.Repr();
      listed, waiting, calm := [], multiset{}, store.fortunes == [];
    }

    method List(entry: Entry, allowSpill: bool) returns (e: Option<Refusal>)
      requires Valid()
      modifies Rep
      ensures fresh(Rep - old(Rep))
      ensures e == Some(MemoryLimit) <==>
        !allowSpill && SatAdd(old(storage.estimatedBytes), Required(storage.entries.format, entry)) > storage.maximumBytes
      ensures e.Some? ==> e.value in {MemoryLimit, StorageTrouble}
      ensures e == Some(StorageTrouble) && old(calm) ==> !Fits(storage.entries.format, old(listed) + [entry])
      ensures e.None? ==> Valid() && listed == old(listed) + [entry] && waiting == old(waiting) && calm == old(calm)
      ensures e.None? && !allowSpill && old(storage.entries.spill) == null ==> storage.entries.spill == null
    {
      hide RecordSpill.Valid, Format.Lawful, Recordable, Texts, TotalCapacity, PlanningStorage.Charged;
      hide PlanEntries.Valid, PlannedResultStorage.Valid, PendingDirectories.Valid, PendingDirectories.Untroubled;
      hide PlanEntries.Untroubled, PlannedResultStorage.Untroubled, PendingDirectories.Bag, Fits, Required;
      e := storage.Push(entry, allowSpill);
      Rep := {this} + storage.Repr() + pending.Repr();
      listed := listed + [entry];
    }

    method Queue(entry: Entry) returns (e: Option<Refusal>)
      requires Valid()
      modifies Rep
      ensures fresh(Rep - old(Rep))
      ensures e.None? || e == Some(StorageTrouble)
      ensures e.Some? && old(calm) ==>
        exists some: seq<Entry> :: multiset(some) <= old(waiting) + multiset{entry} && !PlanFits(storage.entries.format, some)
      ensures e.None? ==> Valid() && listed == old(listed) && waiting == old(waiting) + multiset{entry} && calm == old(calm)
      ensures storage.entries.spill == old(storage.entries.spill)
    {
      hide RecordSpill.Valid, Format.Lawful, Recordable, Texts, TotalCapacity, PlanningStorage.Charged;
      hide PlanEntries.Valid, PlannedResultStorage.Valid, PendingDirectories.Valid, PendingDirectories.Untroubled;
      hide PlanEntries.Untroubled, PlannedResultStorage.Untroubled, PendingDirectories.Bag;
      ghost var some := pending.spilled + [entry];
      assert multiset(some) <= waiting + multiset{entry} by { SpilledInBag(pending, entry); }
      var queued := pending.Push(entry, storage.store);
      if queued.Some? { return Some(StorageTrouble); }
      Rep := {this} + storage.Repr() + pending.Repr();
      waiting := waiting + multiset{entry};
      e := None;
    }

    method Next(target: seq<Name>) returns (r: Answer<Option<Entry>, Refusal>)
      requires Valid()
      modifies Rep
      ensures Rep == old(Rep)
      ensures r.Err? ==> r.error == StorageTrouble
      ensures r.Ok? ==> Valid() && listed == old(listed) && calm == old(calm)
      ensures r == Ok(None) ==> waiting == old(waiting) == multiset{}
      ensures r.Ok? && r.value.Some? ==> old(waiting) == waiting + multiset{r.value.value}
      ensures old(calm) && (forall e <- old(waiting) :: UnderTarget(target, e.path)) ==> r.Ok?
    {
      hide RecordSpill.Valid, Format.Lawful, Recordable, Texts, TotalCapacity, PlanningStorage.Charged, UnderTarget;
      var popped := pending.Pop(target);
      if popped.Err? { return Err(StorageTrouble); }
      waiting := pending.Bag();
      r := Ok(popped.value);
    }
  }

  /** Nothing that was met so far is in the way: every entry could be read, no folder that was read, but perhaps the
      target, is a mount, and the flag was never found set. */
  ghost predicate Met(target: seq<Name>, weather: Weather, entries: seq<Entry>, read: set<seq<Name>>, looks: nat) {
    && (forall e <- entries | e.path != target :: e.path !in weather.unreadable)
    && (forall e <- entries | e.path != target && e.path in read && e.snapshot.kind == Directory ::
          e.snapshot.id !in weather.mounted)
    && forall n | 0 < n <= looks :: !weather.cancelled(n)
  }

  lemma MetFirst(target: seq<Name>, weather: Weather, entries: seq<Entry>)
    requires |entries| == 1 && entries[0].path == target
    ensures Met(target, weather, entries, {}, 0)
  {
  }

  lemma MetLook(target: seq<Name>, weather: Weather, entries: seq<Entry>, read: set<seq<Name>>, looks: nat)
    requires Met(target, weather, entries, read, looks) && !weather.cancelled(looks + 1)
    ensures Met(target, weather, entries, read, looks + 1)
  {
  }

  lemma MetFolder(fs: Fs, target: seq<Name>, weather: Weather, entries: seq<Entry>, read: set<seq<Name>>, looks: nat,
                  folder: Entry)
    requires Met(target, weather, entries, read, looks) && Faithful(fs, target, entries)
    requires Observed(fs, folder.path) == Some(folder.snapshot)
    requires folder.path == target || folder.snapshot.id !in weather.mounted
    ensures Met(target, weather, entries, read + {folder.path}, looks)
  {
  }

  lemma MetChild(fs: Fs, target: seq<Name>, weather: Weather, entries: seq<Entry>, pending: multiset<Entry>,
                 read: set<seq<Name>>, path: seq<Name>, todo: set<Name>, looks: nat, child: Entry, name: Name)
    requires Met(target, weather, entries, read, looks) && child.path !in weather.unreadable
    requires Reading(fs, target, entries, pending, read, path, todo) && name in todo && child.path == path + [name]
    ensures Met(target, weather, entries + [child], read, looks)
  {
    hide Listed, Observed;
    assert !Listed(entries, child.path);
    assert child.path !in read;
    forall e <- entries + [child]
      ensures e in entries || e == child
    {
    }
  }

  /** Once no folder is pending, none in the plan below the target is a mount. */
  lemma MetAll(fs: Fs, target: seq<Name>, weather: Weather, entries: seq<Entry>, read: set<seq<Name>>, looks: nat,
               folders: nat)
    requires Met(target, weather, entries, read, looks) && Walked(fs, target, entries, multiset{}, read)
    requires Counted(fs, |entries|, folders, looks)
    ensures Unopposed(target, weather, entries, folders > 0)
  {
    hide Observed, Listed;
  }

  /** Nothing in the plan was in the way of the walk; if folders were read, the flag was looked at for each entry. */
  ghost predicate Unopposed(target: seq<Name>, weather: Weather, entries: seq<Entry>, looked: bool) {
    && (forall e <- entries | e.path != target ::
          e.path !in weather.unreadable && (e.snapshot.kind == Directory ==> e.snapshot.id !in weather.mounted))
    && (looked ==> forall n | 0 < n <= |entries| :: !weather.cancelled(n))
  }

  /** Where a walk stands among its looks at the cancellation flag. */
  ghost predicate Counted(fs: Fs, listed: nat, folders: nat, looks: nat) {
    looks + 1 == listed + folders && folders <= |fs.facts|
  }

  lemma LookIsCounted(fs: Fs, home: map<ObjId, seq<Name>>, target: seq<Name>, weather: Weather, entries: seq<Entry>,
                      folders: nat, looks: nat, format: Format, calm: bool)
    requires Tree(fs, home) && Faithful(fs, target, entries) && Distinct(entries)
    requires Counted(fs, |entries|, folders, looks)
    ensures weather.cancelled(looks + 1) ==> Hindered(fs, target, weather, format, calm, CancelledPlan)
    ensures folders < |fs.facts| ==> Counted(fs, |entries|, folders + 1, looks + 1)
  {
    EntriesAreNames(fs, home, target, entries);
    if weather.cancelled(looks + 1) { assert CancelledAt(fs, weather, looks + 1); }
  }

  /** Lists every child of a folder, and queues the folders among them. */
  method ListFolder(fs: Fs, ghost home: map<ObjId, seq<Name>>, target: seq<Name>, folder: Entry, weather: Weather,
                    walk: PlanWalk, looks: nat, ghost read: set<seq<Name>>, ghost folders: nat)
    returns (e: Option<Refusal>, looked: nat)
    requires Tree(fs, home) && walk.Valid()
    requires Resolve(fs.names, folder.path) == Some(folder.snapshot.id) && UnderTarget(target, folder.path)
    requires AllUnder(target, walk.listed) && Counted(fs, |walk.listed|, folders, looks)
    requires Reading(fs, target, walk.listed, walk.waiting, read, folder.path, ChildNames(fs, folder.snapshot.id))
    requires Met(target, weather, walk.listed, read, looks)
    modifies walk.Rep
    ensures fresh(walk.Rep - old(walk.Rep))
    ensures e.None? ==>
      && walk.Valid() && AllUnder(target, walk.listed) && walk.calm == old(walk.calm)
      && Walked(fs, target, walk.listed, walk.waiting, read) && Counted(fs, |walk.listed|, folders, looked)
      && Met(target, weather, walk.listed, read, looked)
    ensures e.Some? ==> Hindered(fs, target, weather, walk.storage.entries.format, old(walk.calm), e.value)
  {
    hide Reading, Walked, Observed, AllUnder, ChildNames, Resolve, UnderTarget, Fs.Valid, PlanWalk.Valid, Tree;
    hide Hindered, AllFit, Fits, PlanFits, Faithful, Distinct, Met;
    ghost var format, calm := walk.storage.entries.format, walk.calm;
    TreeIsValid(fs, home);
    looked := looks;
    var todo := ChildNames(fs, folder.snapshot.id);
    while todo != {}
      invariant walk.Valid() && walk.calm == calm && fresh(walk.Rep - old(walk.Rep))
      invariant todo <= ChildNames(fs, folder.snapshot.id) && AllUnder(target, walk.listed)
      invariant Reading(fs, target, walk.listed, walk.waiting, read, folder.path, todo)
      invariant Counted(fs, |walk.listed|, folders, looked) && Met(target, weather, walk.listed, read, looked)
      decreases |todo|
    {
      var name :| name in todo;
      ghost var entries, bag := walk.listed, walk.waiting;
      ReadingIsFaithful(fs, target, entries, bag, read, folder.path, todo);
      LookIsCounted(fs, home, target, weather, entries, folders, looked, format, calm);
      looked := looked + 1;
      if weather.cancelled(looked) { return Some(CancelledPlan), looked; }
      MetLook(target, weather, entries, read, looked - 1);
      ChildObserved(fs, folder.path, folder.snapshot.id, name);
      var path := folder.path + [name];
      ChildHinders(fs, target, weather, folder.path, name, format, calm);
      if !IsComponent(name) { return Some(InvalidPath), looked; }
      if path in weather.unreadable { return Some(Unread), looked; }
      var child := Entry.Entry(path, fs.Stat(Slot(folder.snapshot.id, name)));
      ChildFits(fs, target, folder.path, name, child, entries);
      MetChild(fs, target, weather, entries, bag, read, folder.path, todo, looked, child, name);
      ChildAdded(fs, target, entries, bag, read, folder.path, todo, child, name);
      e := ListChild(fs, target, weather, walk, child, read, folder.path, todo - {name});
      if e.Some? { return; }
      todo := todo - {name};
    }
    FolderDone(fs, target, walk.listed, walk.waiting, read, folder.path);
    e := None;
  }

  /** Lists one child, and queues it if it is a folder. */
  method ListChild(fs: Fs, target: seq<Name>, weather: Weather, walk: PlanWalk, child: Entry,
                   ghost read: set<seq<Name>>, ghost path: seq<Name>, ghost todo: set<Name>)
    returns (e: Option<Refusal>)
    requires walk.Valid()
    requires Reading(fs, target, walk.listed + [child], walk.waiting + FolderBag(child), read, path, todo)
    modifies walk.Rep
    ensures fresh(walk.Rep - old(walk.Rep))
    ensures e.None? ==>
      && walk.Valid() && walk.calm == old(walk.calm) && walk.listed == old(walk.listed) + [child]
      && walk.waiting == old(walk.waiting) + FolderBag(child)
    ensures e.Some? ==> Hindered(fs, target, weather, walk.storage.entries.format, old(walk.calm), e.value)
  {
    hide Reading, Observed, PlanWalk.Valid, AllFit, Fits, PlanFits, Faithful, Distinct;
    ghost var format, calm, entries, bag := walk.storage.entries.format, walk.calm, walk.listed + [child], walk.waiting;
    ReadingIsFaithful(fs, target, entries, bag + FolderBag(child), read, path, todo);
    StorageHinders(fs, target, weather, format, calm, entries);
    e := walk.List(child, true);
    if e.Some? { return; }
    if child.snapshot.kind == Directory {
      e := walk.Queue(child);
      if e.Some? {
        if calm {
          var some :| multiset(some) <= bag + multiset{child} && !PlanFits(format, some);
          PendingFits(fs, target, entries, bag + multiset{child}, read, path, todo, some);
          StorageHinders(fs, target, weather, format, calm, some);
        }
        return;
      }
    }
  }

  function FolderBag(child: Entry): multiset<Entry> {
    if child.snapshot.kind == Directory then multiset{child} else multiset{}
  }

  lemma StorageHinders(fs: Fs, target: seq<Name>, weather: Weather, format: Format, calm: bool, entries: seq<Entry>)
    requires Faithful(fs, target, entries) && Distinct(entries)
    ensures !calm || !Fits(format, entries) ==> Hindered(fs, target, weather, format, calm, StorageTrouble)
    ensures !PlanFits(format, entries) ==> !Fits(format, entries)
  {
    hide Faithful, Distinct;
  }

  lemma ReadingIsFaithful(fs: Fs, target: seq<Name>, entries: seq<Entry>, pending: multiset<Entry>,
                          read: set<seq<Name>>, path: seq<Name>, todo: set<Name>)
    requires Reading(fs, target, entries, pending, read, path, todo)
    ensures Faithful(fs, target, entries) && Distinct(entries)
  {
  }

  lemma {:induction false} TwiceInBag(s: seq<Entry>, i: nat, j: nat)
    requires i < j < |s| && s[i] == s[j]
    ensures multiset(s)[s[i]] >= 2
  {
    assert s == s[..j] + [s[j]] + s[j + 1..] && s[..j][i] == s[i];
  }

  /** The folders that are pending are some of the entries, each once. */
  lemma PendingFits(fs: Fs, target: seq<Name>, entries: seq<Entry>, pending: multiset<Entry>, read: set<seq<Name>>,
                    path: seq<Name>, todo: set<Name>, some: seq<Entry>)
    requires Reading(fs, target, entries, pending, read, path, todo) && multiset(some) <= pending
    ensures Faithful(fs, target, some) && Distinct(some)
  {
    hide Observed, ParentsFirst, Listed;
    forall e <- some
      ensures e in entries
    {
      assert e in multiset(some) && e in pending;
    }
    forall i, j | 0 <= i < j < |some|
      ensures some[i].path != some[j].path
    {
      assert some[i] in entries && some[j] in entries;
      if some[i].path == some[j].path {
        if some[i] != some[j] { SamePathSameEntry(entries, some[i], some[j]); }
        TwiceInBag(some, i, j);
      }
    }
  }

  /** A child that may not be named or read. */
  lemma ChildHinders(fs: Fs, target: seq<Name>, weather: Weather, folder: seq<Name>, name: Name, format: Format, calm: bool)
    requires UnderTarget(target, folder) && Observed(fs, folder + [name]).Some?
    ensures !IsComponent(name) ==> Hindered(fs, target, weather, format, calm, InvalidPath)
    ensures folder + [name] in weather.unreadable ==> Hindered(fs, target, weather, format, calm, Unread)
  {
    hide Observed;
    var path := folder + [name];
    assert target <= path && name in path;
    if !IsComponent(name) { assert UnnamableAt(fs, target, path); }
    if path in weather.unreadable { assert UnreadAt(fs, target, weather, path); }
  }

  lemma ChildFits(fs: Fs, target: seq<Name>, path: seq<Name>, name: Name, child: Entry, entries: seq<Entry>)
    requires UnderTarget(target, path) && IsComponent(name) && AllUnder(target, entries)
    requires child.path == path + [name] && child.snapshot.id in fs.facts
    requires child.snapshot == fs.Look(child.snapshot.id)
    ensures AllUnder(target, entries + [child])
  {
    assert target <= child.path;
  }

  /** The folders whose paths were read are all different objects. */
  ghost predicate Visited(home: map<ObjId, seq<Name>>, objects: set<ObjId>, read: set<seq<Name>>) {
    forall o <- objects :: o in home && home[o] in read
  }

  lemma FolderUnvisited(fs: Fs, home: map<ObjId, seq<Name>>, folder: Entry, objects: set<ObjId>, read: set<seq<Name>>)
    requires Tree(fs, home) && Visited(home, objects, read) && folder.path !in read
    requires Resolve(fs.names, folder.path) == Some(folder.snapshot.id) && fs.IsFolder(folder.snapshot.id)
    ensures folder.snapshot.id !in objects
    ensures Visited(home, objects + {folder.snapshot.id}, read + {folder.path})
  {
    FolderHome(fs, home, folder.path, folder.snapshot.id);
  }

  lemma ObservedFolder(fs: Fs, path: seq<Name>)
    requires Observed(fs, path).Some? && Observed(fs, path).value.kind == Directory
    ensures fs.IsFolder(Observed(fs, path).value.id) && Observed(fs, path).value.id in fs.facts
  {
  }

  /** Reads one folder, unless the walk is cancelled or the folder may not be read. */
  method ReadFolder(fs: Fs, ghost home: map<ObjId, seq<Name>>, target: seq<Name>, folder: Entry, weather: Weather,
                    walk: PlanWalk, looks: nat, ghost before: set<seq<Name>>, ghost read: set<seq<Name>>,
                    ghost folders: nat)
    returns (e: Option<Refusal>, looked: nat)
    requires Tree(fs, home) && walk.Valid() && Observed(fs, folder.path) == Some(folder.snapshot)
    requires folder.snapshot.kind == Directory && Resolve(fs.names, folder.path) == Some(folder.snapshot.id)
    requires UnderTarget(target, folder.path)
    requires AllUnder(target, walk.listed) && Counted(fs, |walk.listed|, folders, looks) && folders < |fs.facts|
    requires Reading(fs, target, walk.listed, walk.waiting, read, folder.path, ChildNames(fs, folder.snapshot.id))
    requires Met(target, weather, walk.listed, before, looks) && read == before + {folder.path}
    modifies walk.Rep
    ensures fresh(walk.Rep - old(walk.Rep))
    ensures e.None? ==>
      && walk.Valid() && AllUnder(target, walk.listed) && walk.calm == old(walk.calm)
      && Walked(fs, target, walk.listed, walk.waiting, read) && Counted(fs, |walk.listed|, folders + 1, looked)
      && Met(target, weather, walk.listed, read, looked)
    ensures e.Some? ==> Hindered(fs, target, weather, walk.storage.entries.format, old(walk.calm), e.value)
  {
    hide *;
    ghost var format, calm := walk.storage.entries.format, walk.calm;
    FolderHinders(fs, target, weather, folder, format, calm);
    ReadingIsFaithful(fs, target, walk.listed, walk.waiting, read, folder.path, ChildNames(fs, folder.snapshot.id));
    LookIsCounted(fs, home, target, weather, walk.listed, folders, looks, format, calm);
    looked := looks + 1;
    if weather.cancelled(looked) { return Some(CancelledPlan), looked; }
    if folder.path in weather.unreadable { return Some(Unread), looked; }
    if folder.path != target && folder.snapshot.id in weather.mounted { return Some(RootTarget), looked; }
    MetLook(target, weather, walk.listed, before, looks);
    MetFolder(fs, target, weather, walk.listed, before, looked, folder);
    e, looked := ListFolder(fs, home, target, folder, weather, walk, looked, read, folders + 1);
  }

  lemma FolderHinders(fs: Fs, target: seq<Name>, weather: Weather, folder: Entry, format: Format, calm: bool)
    requires UnderTarget(target, folder.path) && Observed(fs, folder.path) == Some(folder.snapshot)
    requires folder.snapshot.kind == Directory
    ensures folder.path in weather.unreadable ==> Hindered(fs, target, weather, format, calm, Unread)
    ensures folder.snapshot.id in weather.mounted ==> Hindered(fs, target, weather, format, calm, RootTarget)
  {
    hide Observed;
    if folder.path in weather.unreadable { assert UnreadAt(fs, target, weather, folder.path); }
    if folder.snapshot.id in weather.mounted { assert MountedAt(fs, target, weather, folder.path); }
  }

  /** Reads every pending folder, until none is left. */
  method Walk(fs: Fs, ghost home: map<ObjId, seq<Name>>, target: seq<Name>, weather: Weather, walk: PlanWalk)
    returns (e: Option<Refusal>)
    requires Tree(fs, home) && walk.Valid() && AllUnder(target, walk.listed) && |walk.listed| == 1
    requires Walked(fs, target, walk.listed, walk.waiting, {}) && walk.listed[0].path == target
    requires walk.waiting != multiset{}
    modifies walk.Rep
    ensures fresh(walk.Rep - old(walk.Rep))
    ensures e.None? ==>
      walk.Valid() && AllUnder(target, walk.listed) && walk.calm == old(walk.calm) && Covers(fs, target, walk.listed)
      && Unopposed(target, weather, walk.listed, true)
    ensures e.Some? ==> Hindered(fs, target, weather, walk.storage.entries.format, old(walk.calm), e.value)
  {
    hide *;
    TreeIsValid(fs, home);
    WalkIsCounted(fs);
    ghost var read, objects: set<ObjId> := {}, {};
    ghost var folders := set o <- fs.facts | fs.IsFolder(o);
    SubsetSize(folders, fs.facts.Keys);
    var looks := 0;
    NoneVisited(home);
    MetFirst(target, weather, walk.listed);
    while true
      invariant walk.Valid() && walk.calm == old(walk.calm) && fresh(walk.Rep - old(walk.Rep))
      invariant AllUnder(target, walk.listed) && Walked(fs, target, walk.listed, walk.waiting, read)
      invariant Visited(home, objects, read) && objects <= folders
      invariant Counted(fs, |walk.listed|, |objects|, looks) && Met(target, weather, walk.listed, read, looks)
      invariant objects == {} ==> walk.waiting != multiset{}
      decreases |folders| - |objects|
    {
      WaitingUnder(fs, target, walk.listed, walk.waiting, read);
      Uncalm(fs, target, weather, walk.storage.entries.format);
      ghost var before := walk.waiting;
      var next := walk.Next(target);
      if next.Err? { return Some(next.error); }
      if next.value.None? { break; }
      var folder := next.value.value;
      FolderTaken(fs, target, walk.listed, walk.waiting, read, folder);
      ListedUnder(target, walk.listed, folder);
      ObservedFolder(fs, folder.path);
      FolderUnvisited(fs, home, folder, objects, read);
      SubsetSize(objects + {folder.snapshot.id}, folders);
      e, looks := ReadFolder(fs, home, target, folder, weather, walk, looks, read, read + {folder.path},
                             |objects|);
      if e.Some? { return; }
      read, objects := read + {folder.path}, objects + {folder.snapshot.id};
    }
    MetAll(fs, target, weather, walk.listed, read, looks, |objects|);
    WalkCovers(fs, target, walk.listed, read);
    e := None;
  }

  lemma WalkIsCounted(fs: Fs)
    ensures Counted(fs, 1, 0, 0)
  {
  }

  lemma WaitingUnder(fs: Fs, target: seq<Name>, entries: seq<Entry>, pending: multiset<Entry>, read: set<seq<Name>>)
    requires Walked(fs, target, entries, pending, read) && AllUnder(target, entries)
    ensures forall e <- pending :: UnderTarget(target, e.path)
  {
    hide UnderTarget, Observed, Closed;
  }

  lemma Uncalm(fs: Fs, target: seq<Name>, weather: Weather, format: Format)
    ensures Hindered(fs, target, weather, format, false, StorageTrouble)
  {
  }

  lemma TreeIsValid(fs: Fs, home: map<ObjId, seq<Name>>)
    requires Tree(fs, home)
    ensures fs.Valid()
  {
  }

  lemma NoneVisited(home: map<ObjId, seq<Name>>)
    ensures Visited(home, {}, {})
  {
  }

  lemma ListedUnder(target: seq<Name>, entries: seq<Entry>, e: Entry)
    requires AllUnder(target, entries) && e in entries
    ensures UnderTarget(target, e.path)
  {
  }

  /** Why an entry does not pass when the plan is looked over again. */
  function Judged(fs: Fs, weather: Weather, x: Entry): Option<PlanError> {
    if x.path in weather.interrupted then Some(Interrupted)
    else if x.path in weather.unseen then Some(Unseen)
    else if Observed(fs, x.path) == Some(x.snapshot) then None else Some(Differs)
  }

  /** Every entry is still what was reviewed, or the first that does not pass says why. */
  method Revalidate(fs: Fs, target: seq<Name>, weather: Weather, entries: PlanEntries) returns (e: Option<PlanError>)
    requires entries.Valid()
    modifies if entries.spill == null then {} else {entries.spill}`ios
    ensures entries.Valid() && entries.contents == old(entries.contents)
    ensures old(entries.Untroubled()) ==> entries.Untroubled() && e != Some(Storage)
    ensures e == None ==> forall x <- entries.contents :: UnderTarget(target, x.path) && Judged(fs, weather, x).None?
    ensures e.Some? && e != Some(Storage) ==> exists x <- entries.contents ::
      if UnderTarget(target, x.path) then Judged(fs, weather, x) == e else e == Some(OutsideTarget)
  {
    hide Observed, Format.Lawful, RecordSpill.Valid, UnderTarget;
    var judge := (x: Entry) => Judged(fs, weather, x);
    e := entries.TryForEach(target, judge);
    NoProblem(entries.contents, target, judge);
    ProblemOf(entries.contents, target, judge);
    NotStorage(fs, weather, entries.contents, target, judge);
  }

  lemma {:induction false} NotStorage(fs: Fs, weather: Weather, entries: seq<Entry>, target: seq<Name>,
                                      judge: Entry -> Option<PlanError>)
    requires forall x :: judge(x) == Judged(fs, weather, x)
    ensures FirstProblem(entries, target, judge) != Some(Storage)
  {
    if entries != [] {
      NotStorage(fs, weather, entries[1..], target, judge);
    }
  }

  /** Reviews a target and everything below it. A plan that is made covers the target as it is: each entry
      once, each folder before what it holds. A plan that is refused is refused for its reason; with nothing
      in its way, it is made. */
  method BuildPlan(fs: Fs, ghost home: map<ObjId, seq<Name>>, target: seq<Name>, model: Model, weather: Weather,
                   format: Format, store: SpillStore, maximumBytes: nat)
    returns (r: Answer<PlanningStorage, Refusal>)
    requires Tree(fs, home) && format.Lawful()
    modifies store
    ensures r.Ok? ==>
      && r.value.Valid() && fresh(r.value.Repr() - {store})
      && r.value.maximumBytes == maximumBytes && r.value.entries.format == format
      && Covers(fs, target, r.value.entries.contents) && AllUnder(target, r.value.entries.contents)
      && (model.kind != Directory ==> r.value.entries.spill == null)
      && (old(store.fortunes) == [] ==> r.value.Untroubled())
    ensures r.Ok? ==>
      && !model.synthetic && target != [] && AsListed(model, Observed(fs, target).value)
      && (forall path | Below(fs, target, path) :: Passable(fs, weather, path))
      && (model.kind == Directory ==> forall n | 0 < n <= |r.value.entries.contents| :: !weather.cancelled(n))
    ensures r.Err? ==> Warranted(fs, target, model, weather, format, old(store.fortunes) == [], maximumBytes, r.error)
    ensures Plannable(fs, target, model, weather, format, old(store.fortunes) == [], maximumBytes) ==> r.Ok?
  {
    hide Observed, Resolve, Fs.Valid, Tree, Covers, AllUnder, PlanningStorage.Valid, Format.Lawful, Plannable, Hindered;
    hide Passable, Judged;
    ghost var calm := store.fortunes == [];
    if Plannable(fs, target, model, weather, format, calm, maximumBytes) {
      forall refusal { PlannableIsNotRefused(fs, target, model, weather, format, calm, maximumBytes, refusal); }
    }
    if model.synthetic { return Err(SyntheticTarget); }
    if target == [] { return Err(RootTarget); }
    if exists name <- target :: !IsComponent(name) { return Err(InvalidPath); }
    if !LeadsTo(fs, target) || target in weather.unreadable { return Err(Unread); }
    var observed := Observed(fs, target);
    if model.kind == Directory && observed.Some? && observed.value.id in weather.mounted {
      if SameFolder(model, observed.value) { TargetMounted(fs, target, weather, format, calm); }
      return Err(if SameFolder(model, observed.value) then RootTarget else ChangedTarget);
    }
    if observed.None? { return Err(MissingTarget); }
    ListedExactly(model, observed.value);
    if !MatchesModel(model, observed.value) { return Err(ChangedTarget); }
    var first := Entry.Entry(target, observed.value);
    TargetFits(fs, target, first);
    r := PlanFrom(fs, home, target, first, weather, format, store, maximumBytes);
    if r.Err? && r.error != MemoryLimit {
      HinderedIsWarranted(fs, target, model, weather, format, calm, maximumBytes, r.error);
    }
    if r.Ok? { PlannedIsPassable(fs, target, weather, r.value.entries.contents, first.snapshot.kind == Directory); }
  }

  /** Nothing at or below the target of a plan that passed is in the way of one. */
  lemma PlannedIsPassable(fs: Fs, target: seq<Name>, weather: Weather, entries: seq<Entry>, looked: bool)
    requires Covers(fs, target, entries) && AllUnder(target, entries) && Unopposed(target, weather, entries, looked)
    requires forall x <- entries :: Judged(fs, weather, x).None?
    requires target !in weather.unreadable
    requires Observed(fs, target).Some? && Observed(fs, target).value.kind == Directory ==>
      Observed(fs, target).value.id !in weather.mounted
    ensures forall path | Below(fs, target, path) :: Passable(fs, weather, path)
  {
    hide Observed;
    forall path | Below(fs, target, path)
      ensures Passable(fs, weather, path)
    {
      var e :| e in entries && e.path == path;
    }
  }

  lemma HinderedIsWarranted(fs: Fs, target: seq<Name>, model: Model, weather: Weather, format: Format, calm: bool,
                            maximumBytes: nat, refusal: Refusal)
    requires Hindered(fs, target, weather, format, calm, refusal)
    ensures Warranted(fs, target, model, weather, format, calm, maximumBytes, refusal)
  {
  }

  lemma TargetMounted(fs: Fs, target: seq<Name>, weather: Weather, format: Format, calm: bool)
    requires Observed(fs, target).Some? && Observed(fs, target).value.kind == Directory
    requires Observed(fs, target).value.id in weather.mounted
    ensures Hindered(fs, target, weather, format, calm, RootTarget)
  {
    assert MountedAt(fs, target, weather, target);
  }

  /** Plans the target and what is below it, once it is seen to be what the map says. */
  method PlanFrom(fs: Fs, ghost home: map<ObjId, seq<Name>>, target: seq<Name>, first: Entry, weather: Weather,
                  format: Format, store: SpillStore, maximumBytes: nat)
    returns (r: Answer<PlanningStorage, Refusal>)
    requires Tree(fs, home) && format.Lawful()
    requires target != [] && first.path == target && Observed(fs, target) == Some(first.snapshot)
    requires AllUnder(target, [first])
    modifies store
    ensures r.Ok? ==>
      && r.value.Valid() && fresh(r.value.Repr() - {store})
      && r.value.maximumBytes == maximumBytes && r.value.entries.format == format
      && Covers(fs, target, r.value.entries.contents) && AllUnder(target, r.value.entries.contents)
      && (first.snapshot.kind != Directory ==> r.value.entries.spill == null)
      && (old(store.fortunes) == [] ==> r.value.Untroubled())
      && Unopposed(target, weather, r.value.entries.contents, first.snapshot.kind == Directory)
      && (forall x <- r.value.entries.contents :: Judged(fs, weather, x).None?)
    ensures r == Err(MemoryLimit) ==> first.snapshot.kind != Directory && Required(format, first) > maximumBytes
    ensures r.Err? && r.error != MemoryLimit ==>
      Hindered(fs, target, weather, format, old(store.fortunes) == [], r.error)
  {
    hide Observed, Resolve, Fs.Valid, Tree, Covers, AllUnder, Walked, Format.Lawful, Hindered, Required;
    hide RecordSpill.Valid, PlanEntries.Valid, PlannedResultStorage.Valid, PendingDirectories.Valid, Recordable;
    hide PlanEntries.Untroubled, PlannedResultStorage.Untroubled, PlanningStorage.Charged, Unopposed, Judged;
    TreeIsValid(fs, home);
    var walk := new PlanWalk(format, store, maximumBytes);
    var refused := WalkTarget(fs, home, target, first, weather, walk);
    if refused.Some? { return Err(refused.value); }
    var storage := walk.storage;
    Uncalm(fs, target, weather, format);
    var changed := Revalidate(fs, target, weather, storage.entries);
    if changed.Some? {
      if changed != Some(Storage) {
        SecondLookHinders(fs, target, weather, format, walk.calm, storage.entries.contents, changed);
      }
      return Err(RefusalOf(changed.value));
    }
    r := Ok(storage);
  }

  function RefusalOf(error: PlanError): Refusal {
    match error
    case Storage => StorageTrouble
    case Interrupted => CancelledPlan
    case Unseen => Unread
    case _ => ChangedTarget
  }

  /** A plan that was just made is only refused when it is looked over again if the look is. */
  lemma SecondLookHinders(fs: Fs, target: seq<Name>, weather: Weather, format: Format, calm: bool, entries: seq<Entry>,
                          changed: Option<PlanError>)
    requires Covers(fs, target, entries) && AllUnder(target, entries) && changed.Some?
    requires exists x <- entries ::
      if UnderTarget(target, x.path) then Judged(fs, weather, x) == changed else changed == Some(OutsideTarget)
    ensures Hindered(fs, target, weather, format, calm, RefusalOf(changed.value))
  {
    hide Observed, Distinct, ParentsFirst;
    var x :| x in entries && if UnderTarget(target, x.path) then Judged(fs, weather, x) == changed else changed == Some(OutsideTarget);
    assert Below(fs, target, x.path);
    if x.path in weather.interrupted { assert InterruptedAt(fs, target, weather, x.path); }
    if x.path in weather.unseen { assert UnreadAt(fs, target, weather, x.path); }
  }

  method WalkTarget(fs: Fs, ghost home: map<ObjId, seq<Name>>, target: seq<Name>, first: Entry, weather: Weather,
                    walk: PlanWalk)
    returns (e: Option<Refusal>)
    requires Tree(fs, home) && walk.Valid()
    requires walk.listed == [] && walk.waiting == multiset{} && walk.storage.entries.spill == null
    requires walk.storage.estimatedBytes == 0
    requires target != [] && first.path == target && Observed(fs, target) == Some(first.snapshot)
    requires AllUnder(target, [first])
    modifies walk.Rep
    ensures fresh(walk.Rep - old(walk.Rep))
    ensures e.None? ==>
      && walk.Valid() && AllUnder(target, walk.listed) && walk.calm == old(walk.calm) && Covers(fs, target, walk.listed)
      && (first.snapshot.kind != Directory ==> walk.storage.entries.spill == null)
      && Unopposed(target, weather, walk.listed, first.snapshot.kind == Directory)
    ensures e == Some(MemoryLimit) ==>
      first.snapshot.kind != Directory && Required(walk.storage.entries.format, first) > walk.storage.maximumBytes
    ensures e.Some? && e.value != MemoryLimit ==>
      Hindered(fs, target, weather, walk.storage.entries.format, old(walk.calm), e.value)
  {
    hide Observed, Resolve, Fs.Valid, Tree, Covers, AllUnder, Walked, PlanWalk.Valid, Fits, PlanFits, Hindered;
    hide PlannedBytes, ResultBound;
    TreeIsValid(fs, home);
    ghost var format, calm := walk.storage.entries.format, walk.calm;
    FirstFits(fs, target, weather, format, calm, first);
    var folder := first.snapshot.kind == Directory;
    e := walk.List(first, folder);
    if e.Some? { return; }
    assert walk.listed == [first];
    WalkStarts(fs, target, first);
    if folder {
      e := walk.Queue(first);
      if e.Some? { return; }
      assert walk.waiting == multiset{first};
      e := Walk(fs, home, target, weather, walk);
      NeverMemory(fs, target, weather, format, calm);
    } else {
      WalkCovers(fs, target, walk.listed, {});
    }
  }

  lemma NeverMemory(fs: Fs, target: seq<Name>, weather: Weather, format: Format, calm: bool)
    ensures !Hindered(fs, target, weather, format, calm, MemoryLimit)
  {
  }

  lemma FirstFits(fs: Fs, target: seq<Name>, weather: Weather, format: Format, calm: bool, first: Entry)
    requires target != [] && first.path == target && Observed(fs, target) == Some(first.snapshot)
    ensures !calm || !Fits(format, [] + [first]) ==> Hindered(fs, target, weather, format, calm, StorageTrouble)
    ensures (exists some: seq<Entry> :: multiset(some) <= multiset{} + multiset{first} && !PlanFits(format, some)) ==>
      Hindered(fs, target, weather, format, calm, StorageTrouble)
  {
    hide Observed, AllFit;
    assert [] + [first] == [first];
    StorageHinders(fs, target, weather, format, calm, [first]);
    if some: seq<Entry> :| multiset(some) <= multiset{} + multiset{first} && !PlanFits(format, some) {
      forall e <- some
        ensures e == first
      {
        assert e in multiset(some);
      }
      if |some| >= 2 {
        assert some[0] in some && some[1] in some;
        TwiceInBag(some, 0, 1);
      }
      StorageHinders(fs, target, weather, format, calm, some);
    }
  }

  lemma TargetFits(fs: Fs, target: seq<Name>, first: Entry)
    requires target != [] && (forall name <- target :: IsComponent(name))
    requires first.path == target && Observed(fs, target) == Some(first.snapshot)
    ensures AllUnder(target, [first])
  {
  }
}
