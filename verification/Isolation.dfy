/** One entry's removal: its name is exchanged with a placeholder's, what the placeholder's name then
    holds is checked twice and unlinked, and the placeholder is moved aside, checked and unlinked.
    Every failure on the way puts the entry back. */
module Isolation {
  import opened Outcomes
  import opened FileSystem

  datatype Entry = Entry(path: seq<Name>, snapshot: Snapshot)

  /** Why an entry failed: one value for each message the executor writes. */
  datatype Trouble =
    | ParentUnreadable
    | NoPlaceholder
    | PlaceholderLeft
    | CancelCleanup
    | DisappearedCleanup
    | IsolationRefused
    | RefusedCleanup
    | Unreadable
    | UnreadableRecovery
    | ChangedRecovery
    | IsolatedGoneCleanup
    | DeletedCleanup
    | FolderRecovery
    | RemovalRefused
    | RemovalRecovery

  datatype Outcome = Deleted | Changed | Missing | Failed(trouble: Trouble) | Unattempted

  datatype Attempt = Attempt(outcome: Outcome, links: Option<LinkCount>, refused: bool, noLinkSurvived: bool)

  /** The executor has left no name of its own behind, as far as its report says. */
  predicate Tidy(outcome: Outcome) {
    outcome.Failed? ==>
      outcome.trouble in {ParentUnreadable, NoPlaceholder, IsolationRefused, Unreadable, RemovalRefused}
  }

  /** The reviewed object was unlinked by this attempt. */
  predicate TargetRemoved(outcome: Outcome) {
    outcome == Deleted || outcome == Failed(DeletedCleanup)
  }

  /** The system refused the exchange that isolates the entry. */
  predicate ExchangeRefused(outcome: Outcome) {
    outcome == Failed(IsolationRefused) || outcome == Failed(RefusedCleanup)
  }

  predicate MatchesForExecution(expected: Snapshot, actual: Snapshot) {
    && SameObject(expected, actual)
    && expected.kind == actual.kind
    && (expected.kind == Directory
        || (expected.apparent == actual.apparent && expected.blocks == actual.blocks
            && expected.modified == actual.modified))
  }

  /** What is seen is what was reviewed: the same object of the same kind and, unless it is a folder, with the
      same sizes and time of modification. Its links may have changed. */
  ghost predicate AsReviewed(expected: Snapshot, actual: Snapshot) {
    && actual.id == expected.id && actual.reparse == expected.reparse && actual.kind == expected.kind
    && (actual.kind != Directory ==> actual.(links := expected.links) == expected)
  }

  /** The executor's comparison is exactly that. */
  lemma MatchesExactly(expected: Snapshot, actual: Snapshot)
    ensures MatchesForExecution(expected, actual) <==> AsReviewed(expected, actual)
  {
  }

  /** The object that a path of folder names leads to. */
  function Resolve(names: Names, path: seq<Name>): Option<ObjId> {
    if path == [] then Some(ROOT) else
      match Resolve(names, path[..|path| - 1])
      case None => None
      case Some(folder) =>
        var s := Slot(folder, path[|path| - 1]);
        if s in names then Some(names[s]) else None
  }

  function SlotAt(names: Names, path: seq<Name>): Option<Slot> {
    if path == [] then None else
      match Resolve(names, path[..|path| - 1])
      case None => None
      case Some(folder) => Some(Slot(folder, path[|path| - 1]))
  }

  /** The path's parent is there, and is a folder. */
  predicate LeadsTo(fs: Fs, path: seq<Name>) {
    SlotAt(fs.names, path).Some? && fs.IsFolder(SlotAt(fs.names, path).value.folder)
  }

  const ATTEMPTS := 128

  /** What a clean-up did to the placeholder: unlinked it, or unlinked nothing. Only one that unlinked
      nothing can have been refused. */
  ghost predicate Cleared(a: World, b: World, placeholder: ObjId, done: bool) {
    && b.made == a.made
    && a.unlinked <= b.unlinked
    && (if done then |b.unlinked| == |a.unlinked| + 1 && b.unlinked[|a.unlinked|].id == placeholder
        else b.unlinked == a.unlinked)
    && Balks(a, b, placeholder, done)
  }

  ghost predicate Balks(a: World, b: World, placeholder: ObjId, done: bool) {
    a.balked <= b.balked && b.balked <= if done then a.balked else a.balked + {placeholder}
  }

  /** On a quiet volume where the placeholder stands as it was made, a clean-up that is not done was
      refused. */
  ghost predicate Answered(a: World, b: World, standing: bool, placeholder: ObjId, done: bool) {
    Quiet(a.script) && standing && !done ==> placeholder in b.balked
  }

  /** On a quiet volume where nothing stands in its way, a step that is not done met a refused call. */
  ghost predicate Hampered(a: World, clear: bool, done: bool) {
    Quiet(a.script) && clear && !done ==> !Faultless(a.script)
  }

  /** Something on the way to the path's name is no folder. */
  ghost predicate Blocked(fs: Fs, path: seq<Name>) {
    exists k: nat | k < |path| :: BlockedAt(fs, path, k)
  }

  ghost predicate BlockedAt(fs: Fs, path: seq<Name>, k: nat)
    requires k <= |path|
  {
    Resolve(fs.names, path[..k]).Some? && !fs.IsFolder(Resolve(fs.names, path[..k]).value)
  }

  method OpenParent(v: Volume, path: seq<Name>) returns (r: Answer<ObjId, Error>)
    requires v.w.Valid() && path != []
    modifies v
    ensures v.w.Valid() && Evolved(old(v.w), v.w) && OwnKept(old(v.w), v.w)
    ensures r.Ok? ==> v.w.fs.IsFolder(r.value)
    ensures Quiet(old(v.w).script) ==> v.w.fs == old(v.w).fs
    ensures Quiet(old(v.w).script) && r.Ok? ==>
      SlotAt(v.w.fs.names, path) == Some(Slot(r.value, path[|path| - 1]))
    ensures Clean(old(v.w).script) ==> v.w.soft == old(v.w).soft
    ensures Clean(old(v.w).script) && LeadsTo(v.w.fs, path) ==> r.Ok?
    ensures r.Ok? ==> v.w.script == After(old(v.w).script, |path| - 1)
    ensures r.Err? ==> r.error in {NotFound, Other}
    ensures Quiet(old(v.w).script) && r == Err(NotFound) ==> SlotAt(v.w.fs.names, path) == None
    ensures Quiet(old(v.w).script) && r == Err(Other) ==> !Faultless(old(v.w).script) || Blocked(v.w.fs, path)
  {
    hide Bound, FactsKept, Evolved, World.Valid, Fs.Valid, Quiet, Clean, Faultless, Undenied;
    hide After, Later;
    Evolution();
    AfterNone(v.w.script);
    RootIsFolder(v.w);
    var folder := ROOT;
    var depth := 0;
    while depth < |path| - 1
      invariant 0 <= depth <= |path| - 1
      invariant v.w.Valid() && Evolved(old(v.w), v.w) && OwnKept(old(v.w), v.w)
      invariant v.w.fs.IsFolder(folder) && v.w.script == After(old(v.w).script, depth)
      invariant Quiet(old(v.w).script) ==> v.w.fs == old(v.w).fs
      invariant Quiet(old(v.w).script) ==> Resolve(v.w.fs.names, path[..depth]) == Some(folder)
      invariant Clean(old(v.w).script) ==> v.w.soft == old(v.w).soft
    {
      ghost var before := v.w;
      AfterOneMore(old(v.w).script, depth);
      var step := v.Pass(None);
      FolderStays(before, v.w, folder);
      var s := Slot(folder, path[depth]);
      assert path[..depth + 1][..depth] == path[..depth];
      if s !in v.w.fs.names {
        if Quiet(old(v.w).script) { Unresolved(v.w.fs.names, path, depth); }
        return Err(NotFound);
      }
      if Clean(old(v.w).script) && !v.w.fs.IsFolder(v.w.fs.names[s]) && depth < |path| - 2 {
        assert path[..depth + 2][..depth + 1] == path[..depth + 1];
        ghost var below := Slot(v.w.fs.names[s], path[depth + 1]);
        if below in v.w.fs.names { OnlyInFolders(v.w, below); }
        Unresolved(v.w.fs.names, path, depth + 1);
      }
      if Quiet(old(v.w).script) && !v.w.fs.IsFolder(v.w.fs.names[s]) {
        assert BlockedAt(v.w.fs, path, depth + 1);
      }
      if step.fault.Some? || !v.w.fs.IsFolder(v.w.fs.names[s]) {
        return Err(Other);
      }
      folder := v.w.fs.names[s];
      depth := depth + 1;
    }
    r := Ok(folder);
  }

  lemma RootIsFolder(w: World)
    requires w.Valid()
    ensures w.fs.IsFolder(ROOT)
  {
  }

  lemma OnlyInFolders(w: World, s: Slot)
    requires w.Valid() && s in w.fs.names
    ensures w.fs.IsFolder(s.folder)
  {
  }

  lemma Unresolved(names: Names, path: seq<Name>, depth: nat)
    requires depth < |path| - 1 && Resolve(names, path[..depth + 1]) == None
    ensures SlotAt(names, path) == None
  {
    for k := depth + 1 to |path| - 1
      invariant Resolve(names, path[..k]) == None
    {
      assert path[..k + 1][..k] == path[..k];
    }
  }

  /** Unlinks a placeholder where it stands, once it is seen to be the one expected there. */
  method RemoveVerifiedPlaceholder(v: Volume, s: Slot, expected: Snapshot) returns (done: bool)
    requires v.w.Valid() && expected.kind == File
    modifies v
    ensures v.w.Valid() && Evolved(old(v.w), v.w)
    ensures Cleared(old(v.w), v.w, expected.id, done)
    ensures Quiet(old(v.w).script) ==>
      if done then s in old(v.w).fs.names && old(v.w).fs.names[s] == expected.id
                   && v.w.fs.names == old(v.w).fs.names - {s}
      else v.w.fs.names == old(v.w).fs.names
    ensures Clean(old(v.w).script) ==> v.w.soft == old(v.w).soft
    ensures Clean(old(v.w).script) && Shows(old(v.w).fs, s, expected) ==> done
    ensures Answered(old(v.w), v.w, Shows(old(v.w).fs, s, expected), expected.id, done)
    ensures Hampered(old(v.w), Shows(old(v.w).fs, s, expected), done)
  {
    hide Bound, FactsKept, Fs.Links;
    Evolution();
    var r := v.Inspect(s, Some(expected.id));
    if r.Err? || r.value != expected { return false; }
    ghost var checked := v.w;
    var e := v.Unlink(s, false, Some(expected.id));
    done := e.None?;
  }

  /** The exchange stands: the placeholder is under the entry's name, and something under its own. */
  ghost predicate Stands(fs: Fs, original: Slot, detached: Slot, placeholder: Snapshot) {
    Shows(fs, original, placeholder) && detached in fs.names && fs.IsFolder(original.folder)
  }

  /** A file that is exchanged looks the same under the other name. */
  lemma SwapShows(fs: Fs, from: Slot, to: Slot, file: Snapshot)
    requires Shows(fs, from, file) && file.kind == File && to in fs.names && fs.IsFolder(from.folder)
    ensures Shows(fs.Swap(from, to), to, file)
  {
    SwapLinks(fs.names, from, to, file.id);
  }

  /** Puts the entry back under its own name, and removes the placeholder that stood there. */
  method RestoreDetached(v: Volume, original: Slot, detached: Slot, placeholder: Snapshot) returns (done: bool)
    requires v.w.Valid() && placeholder.kind == File
    modifies v
    ensures v.w.Valid() && Evolved(old(v.w), v.w)
    ensures Cleared(old(v.w), v.w, placeholder.id, done)
    ensures Quiet(old(v.w).script) && done ==> Restored(old(v.w).fs.names, v.w.fs.names, original, detached)
    ensures Answered(old(v.w), v.w, Stands(old(v.w).fs, original, detached, placeholder), placeholder.id, done)
    ensures Hampered(old(v.w), Stands(old(v.w).fs, original, detached, placeholder), done)
  {
    hide Bound, FactsKept, Fs.Links, Fs.Valid, World.Valid, Evolved, Quiet, Clean, Faultless, Undenied, Swapped;
    Evolution();
    if Stands(v.w.fs, original, detached, placeholder) { SwapShows(v.w.fs, original, detached, placeholder); }
    var r := v.Inspect(original, Some(placeholder.id));
    if r.Err? || r.value != placeholder { return false; }
    var e := v.Exchange(original, detached, Some(placeholder.id));
    if e.Some? { return false; }
    done := RemoveVerifiedPlaceholder(v, detached, placeholder);
  }

  method DrawName(v: Volume) returns (name: Option<Name>)
    requires v.w.Valid()
    modifies v
    ensures v.w == old(v.w).(drawn := old(v.w).drawn + 1)
    ensures name == v.draw(old(v.w).drawn)
  {
    name := v.draw(v.w.drawn);
    v.w := v.w.(drawn := v.w.drawn + 1);
  }

  lemma DrawEvolves(w: World, drawn: nat)
    requires w.Valid() && w.drawn <= drawn
    ensures Evolved(w, w.(drawn := drawn)) && w.(drawn := drawn).Valid()
  {
    hide Bound;
  }

  /** The names drawn before this one were all given, and this one is free in the folder. */
  predicate Offers(names: Names, draw: nat -> Option<Name>, folder: ObjId, from: nat, n: nat) {
    from <= n && (forall i | from <= i <= n :: draw(i).Some?) && Slot(folder, draw(n).value) !in names
  }

  /** One of the next names drawn is free in the folder. */
  predicate Offered(w: World, draw: nat -> Option<Name>, folder: ObjId, tries: nat) {
    exists n | w.drawn <= n < w.drawn + tries :: Offers(w.fs.names, draw, folder, w.drawn, n)
  }

  /** The names drawn so far, all of them taken. */
  predicate Exhausted(names: Names, draw: nat -> Option<Name>, folder: ObjId, from: nat, n: nat) {
    forall i | from <= i < n :: draw(i).Some? && Slot(folder, draw(i).value) in names
  }

  lemma FolderStays(a: World, b: World, o: ObjId)
    requires Evolved(a, b) && a.fs.IsFolder(o)
    ensures b.fs.IsFolder(o)
  {
  }

  lemma ExhaustedNext(names: Names, draw: nat -> Option<Name>, s: Slot, from: nat, last: nat, tried: nat)
    requires tried > 0 ==> last == from + tried - 1 && draw(last) == Some(s.name) && s in names
    requires tried > 0 ==> Exhausted(names, draw, s.folder, from, last)
    ensures Exhausted(names, draw, s.folder, from, from + tried)
  {
  }

  lemma SameOffered(a: World, b: World, draw: nat -> Option<Name>, folder: ObjId)
    requires a.fs == b.fs && a.drawn == b.drawn
    ensures forall tries :: Offered(a, draw, folder, tries) == Offered(b, draw, folder, tries)
  {
  }

  lemma NoneOffered(w: World, draw: nat -> Option<Name>, folder: ObjId, tries: nat, n: nat)
    requires w.drawn <= n && Exhausted(w.fs.names, draw, folder, w.drawn, n)
    requires n == w.drawn + tries || draw(n).None?
    ensures !Offered(w, draw, folder, tries)
  {
  }

  /** Renames the placeholder away from the entry's own name, replacing nothing: to the private name the entry
      has left, and to newly drawn ones as long as they are taken. */
  method MoveAside(v: Volume, original: Slot, detached: Slot, placeholder: ObjId) returns (private: Option<Slot>)
    requires v.w.Valid() && v.w.fs.IsFolder(original.folder) && original.folder == detached.folder
    modifies v
    ensures v.w.Valid() && Evolved(old(v.w), v.w)
    ensures Cleared(old(v.w), v.w, placeholder, false) && (private.Some? ==> v.w.balked == old(v.w).balked)
    ensures Quiet(old(v.w).script) ==>
      if private.None? then v.w.fs == old(v.w).fs && (original in v.w.fs.names ==> placeholder in v.w.balked)
      else && original in old(v.w).fs.names && private.value !in old(v.w).fs.names
           && private.value.folder == original.folder && v.w.fs == old(v.w).fs.Rebind(original, private.value)
    ensures Clean(old(v.w).script) ==> v.w.soft == old(v.w).soft
    ensures Hampered(old(v.w), original in old(v.w).fs.names && detached !in old(v.w).fs.names, private.Some?)
    ensures Clean(old(v.w).script) && original in old(v.w).fs.names && private.None? ==>
      detached in old(v.w).fs.names && !Offered(old(v.w), v.draw, original.folder, ATTEMPTS - 1)
  {
    hide Bound, FactsKept, Fs.Valid, Fs.IsFolder, Evolved, World.Valid, Quiet, Clean, Faultless, Undenied, Offered;
    hide Exhausted, Fs.Rebind;
    Evolution();
    ghost var start, last := v.w, v.w.drawn;
    ExhaustedNext(start.fs.names, v.draw, detached, last, last, 0);
    var next := detached;
    var attempts := 0;
    while attempts < ATTEMPTS
      invariant 0 <= attempts <= ATTEMPTS
      invariant v.w.Valid() && Evolved(start, v.w)
      invariant v.w.made == start.made && v.w.unlinked == start.unlinked && v.w.balked == start.balked
      invariant v.w.drawn == start.drawn + attempts && next.folder == original.folder
      invariant Quiet(start.script) ==> v.w.fs == start.fs
      invariant Clean(start.script) ==> v.w.soft == start.soft
      invariant attempts > 0 && Quiet(start.script) ==> detached in start.fs.names || !Faultless(start.script)
      invariant attempts == 0 ==> next == detached
      invariant attempts > 0 ==> last == start.drawn + attempts - 1 && v.draw(last) == Some(next.name)
      invariant Clean(start.script) && original in start.fs.names && attempts > 0 ==>
        detached in start.fs.names && Exhausted(start.fs.names, v.draw, original.folder, start.drawn, last)
    {
      FolderStays(start, v.w, next.folder);
      var e := v.RenameNoReplace(original, next, Some(placeholder));
      if e.None? { return Some(next); }
      if e != Some(Exists) { return None; }
      ghost var refused := v.w;
      if Clean(start.script) && original in start.fs.names {
        ExhaustedNext(start.fs.names, v.draw, next, start.drawn, last, attempts);
      }
      var drawn := DrawName(v);
      DrawEvolves(refused, v.w.drawn);
      if drawn.None? {
        if Clean(start.script) && original in start.fs.names {
          NoneOffered(start, v.draw, original.folder, ATTEMPTS - 1, refused.drawn);
        }
        v.Refuse(Some(placeholder));
        return None;
      }
      last := refused.drawn;
      next := Slot(original.folder, drawn.value);
      attempts := attempts + 1;
    }
    if Clean(start.script) && original in start.fs.names {
      NoneOffered(start, v.draw, original.folder, ATTEMPTS - 1, last);
    }
    v.Refuse(Some(placeholder));
    private := None;
  }

  /** Clears the deleted entry's own name: the placeholder there is checked, moved aside, checked again and
      unlinked. */
  method FinalizePlaceholder(v: Volume, original: Slot, detached: Slot, placeholder: Snapshot)
    returns (done: bool)
    requires v.w.Valid() && placeholder.kind == File && v.w.fs.IsFolder(original.folder)
    requires original.folder == detached.folder
    modifies v
    ensures v.w.Valid() && Evolved(old(v.w), v.w)
    ensures Cleared(old(v.w), v.w, placeholder.id, done)
    ensures Quiet(old(v.w).script) && done ==>
      && original in old(v.w).fs.names && old(v.w).fs.names[original] == placeholder.id
      && v.w.fs.names == old(v.w).fs.names - {original}
    ensures Clean(old(v.w).script) ==> v.w.soft == old(v.w).soft
    ensures Clean(old(v.w).script) && Shows(old(v.w).fs, original, placeholder) ==>
      done || (detached in old(v.w).fs.names && !Offered(old(v.w), v.draw, original.folder, ATTEMPTS - 1))
    ensures Answered(old(v.w), v.w, Shows(old(v.w).fs, original, placeholder), placeholder.id, done)
    ensures Hampered(old(v.w), Shows(old(v.w).fs, original, placeholder) && detached !in old(v.w).fs.names, done)
  {
    hide Bound, FactsKept, Fs.Links, Evolved, World.Valid, Quiet, Clean, Faultless, Undenied, Fs.Stat, Offered;
    Evolution();
    ghost var start := v.w;
    var r := v.Inspect(original, Some(placeholder.id));
    if r.Err? || r.value != placeholder { return false; }
    FoldersStay(start, v.w, original.folder);
    if Clean(start.script) { SameOffered(start, v.w, v.draw, original.folder); }
    var private := MoveAside(v, original, detached, placeholder.id);
    if private.None? { return false; }
    if Quiet(start.script) {
      RebindShows(start.fs, original, private.value, placeholder);
    }
    done := RemoveVerifiedPlaceholder(v, private.value, placeholder);
  }

  /** A file that moves to a free name looks the same there. */
  lemma RebindShows(fs: Fs, from: Slot, to: Slot, file: Snapshot)
    requires Shows(fs, from, file) && file.kind == File && to !in fs.names && fs.IsFolder(to.folder)
    ensures Shows(fs.Rebind(from, to), to, file)
  {
    RebindLinks(fs.names, from, to);
  }

  /** A new file can be made at a name. */
  predicate Makable(w: World, s: Slot) {
    w.fs.IsFolder(s.folder) && w.fs.Live(s.folder) && s !in w.fs.names
  }

  /** One file was made, is noted as refused, and stays: nothing else changed. */
  ghost predicate LeftAt(a: World, b: World, s: Slot) {
    exists p: ObjId :: LeftAs(a, b, s, p)
  }

  ghost predicate LeftAs(a: World, b: World, s: Slot, p: ObjId) {
    && p !in a.fs.facts && b.made == a.made + {p} && b.balked == a.balked + {p}
    && (Quiet(a.script) ==> p == a.fs.clock && IsMade(a.fs, b.fs, s))
  }

  predicate IsMade(a: Fs, b: Fs, s: Slot) {
    s !in a.names && b == a.Create(s, EmptyFile(a.clock))
  }

  /** Makes an empty file at a name, unless the name is taken, and reads what it is. A file whose metadata
      is refused after it was made is left where it is. */
  method MakePlaceholder(v: Volume, s: Slot) returns (r: Answer<Snapshot, Option<Trouble>>)
    requires v.w.Valid()
    modifies v
    ensures v.w.Valid() && Evolved(old(v.w), v.w)
    ensures v.w.unlinked == old(v.w).unlinked && v.w.drawn == old(v.w).drawn
    ensures r.Ok? ==> r.value.kind == File && r.value.id !in old(v.w).fs.facts
    ensures r.Ok? ==> v.w.made == old(v.w).made + {r.value.id} && v.w.balked == old(v.w).balked
    ensures r.Err? ==> r.error in {None, Some(NoPlaceholder), Some(PlaceholderLeft)}
    ensures r.Err? ==> if r.error == Some(PlaceholderLeft) then LeftAt(old(v.w), v.w, s) else
      v.w.made == old(v.w).made && v.w.balked == old(v.w).balked
    ensures Quiet(old(v.w).script) && r.Ok? ==>
      IsMade(old(v.w).fs, v.w.fs, s) && r.value.id == old(v.w).fs.clock && Shows(v.w.fs, s, r.value)
    ensures Quiet(old(v.w).script) && r.Err? && r.error != Some(PlaceholderLeft) ==> v.w.fs == old(v.w).fs
    ensures Quiet(old(v.w).script) && Makable(old(v.w), s) && Upcoming(old(v.w).script).fault.None? ==>
      if Upcoming(Later(old(v.w).script)).fault.Some? then r == Err(Some(PlaceholderLeft)) else r.Ok?
    ensures Clean(old(v.w).script) ==> v.w.soft == old(v.w).soft
    ensures r == Err(Some(PlaceholderLeft)) ==> !Faultless(old(v.w).script)
    ensures Quiet(old(v.w).script) && Faultless(old(v.w).script) && old(v.w).fs.Live(s.folder) && old(v.w).fs.IsFolder(s.folder) ==>
      if s in old(v.w).fs.names then r == Err(None) else r.Ok?
  {
    hide Bound, FactsKept, Fs.Links, Fs.Valid, Evolved, Quiet, Clean, Faultless, Undenied, World.Valid;
    Evolution();
    ghost var start := v.w;
    var made := v.CreateNew(s);
    if made.Err? { return Err(if made.error == Exists then None else Some(NoPlaceholder)); }
    assert Quiet(start.script) ==> IsMade(start.fs, v.w.fs, s);
    ghost var created := v.w;
    var seen := v.InspectObject(made.value, Some(made.value));
    FoldersStay(created, v.w, made.value);
    if seen.Err? {
      assert LeftAs(start, v.w, s, made.value);
      return Err(Some(PlaceholderLeft));
    }
    r := Ok(seen.value);
  }

  /** The name was drawn between the two. */
  ghost predicate Drawn(a: World, b: World, draw: nat -> Option<Name>, name: Name) {
    exists n | a.drawn <= n < b.drawn :: draw(n) == Some(name)
  }

  /** The same under an unpredictable name, and another one as long as the name is taken. */
  method CreatePlaceholder(v: Volume, folder: ObjId) returns (r: Answer<(Name, Snapshot), Trouble>)
    requires v.w.Valid()
    modifies v
    ensures v.w.Valid() && Evolved(old(v.w), v.w)
    ensures v.w.unlinked == old(v.w).unlinked
    ensures r.Ok? ==> r.value.1.kind == File && r.value.1.id !in old(v.w).fs.facts
    ensures r.Ok? ==> v.w.made == old(v.w).made + {r.value.1.id} && v.w.balked == old(v.w).balked
    ensures r.Err? ==> r.error == PlaceholderLeft || r.error == NoPlaceholder
    ensures r == Err(NoPlaceholder) ==> v.w.made == old(v.w).made && v.w.balked == old(v.w).balked
    ensures r == Err(PlaceholderLeft) ==> LeftBehind(old(v.w), v.w, v.draw, folder)
    ensures Quiet(old(v.w).script) && r.Ok? ==>
      && IsMade(old(v.w).fs, v.w.fs, Slot(folder, r.value.0)) && r.value.1.id == old(v.w).fs.clock
      && Shows(v.w.fs, Slot(folder, r.value.0), r.value.1)
    ensures Quiet(old(v.w).script) && r == Err(NoPlaceholder) ==> v.w.fs == old(v.w).fs
    ensures Quiet(old(v.w).script) && FirstMakable(old(v.w), v.draw, folder) ==>
      if Upcoming(Later(old(v.w).script)).fault.Some? then r == Err(PlaceholderLeft) else r.Ok?
    ensures Clean(old(v.w).script) ==> v.w.soft == old(v.w).soft
    ensures Quiet(old(v.w).script) && Faultless(old(v.w).script) && Roomy(old(v.w), v.draw, folder) ==> r.Ok?
    ensures r == Err(PlaceholderLeft) ==> !Faultless(old(v.w).script)
    ensures r.Ok? ==> Drawn(old(v.w), v.w, v.draw, r.value.0)
  {
    hide Bound, FactsKept, Fs.Links, Fs.Valid, Evolved, Offered, Quiet, Clean, Faultless, Undenied, World.Valid;
    hide Fs.Look, IsMade, Fs.Live, LeftAt, LeftBehind, Shows, Later, Upcoming;
    Evolution();
    ghost var start := v.w;
    ghost var roomy := Quiet(start.script) && Faultless(start.script) && Roomy(start, v.draw, folder);
    var attempts := 0;
    while attempts < ATTEMPTS
      invariant 0 <= attempts <= ATTEMPTS
      invariant v.w.Valid() && Evolved(start, v.w)
      invariant v.w.unlinked == start.unlinked && v.w.made == start.made && v.w.balked == start.balked
      invariant v.w.drawn == start.drawn + attempts
      invariant Quiet(start.script) ==> v.w.fs == start.fs
      invariant Clean(start.script) ==> v.w.soft == start.soft
      invariant attempts == 0 ==> v.w == start
      invariant attempts > 0 && Quiet(start.script) ==> !FirstMakable(start, v.draw, folder)
      invariant roomy ==> Exhausted(start.fs.names, v.draw, folder, start.drawn, v.w.drawn)
    {
      ghost var before := v.w;
      var name := DrawName(v);
      DrawEvolves(before, v.w.drawn);
      if name.None? {
        if roomy { NoneOffered(start, v.draw, folder, ATTEMPTS, before.drawn); }
        return Err(NoPlaceholder);
      }
      ghost var drawn := v.w;
      var made := MakePlaceholder(v, Slot(folder, name.value));
      if made.Ok? {
        StillNew(start, before, made.value.id);
        assert v.draw(before.drawn) == Some(name.value);
        return Ok((name.value, made.value));
      }
      if made.error == Some(PlaceholderLeft) {
        LeftFrom(start, drawn, v.w, v.draw, folder, before.drawn);
      }
      if made.error.Some? { return Err(made.error.value); }
      attempts := attempts + 1;
    }
    if roomy { NoneOffered(start, v.draw, folder, ATTEMPTS, v.w.drawn); }
    r := Err(NoPlaceholder);
  }

  /** A file can be created in the folder, and one of the names that will be tried is free there. */
  predicate Roomy(w: World, draw: nat -> Option<Name>, folder: ObjId) {
    w.fs.IsFolder(folder) && w.fs.Live(folder) && Offered(w, draw, folder, ATTEMPTS)
  }

  /** The first name tried is free, and the system creates the file. */
  predicate FirstMakable(w: World, draw: nat -> Option<Name>, folder: ObjId) {
    draw(w.drawn).Some? && Makable(w, Slot(folder, draw(w.drawn).value)) && Upcoming(w.script).fault.None?
  }

  /** One file was made under a name drawn for it, and stays. */
  ghost predicate LeftBehind(a: World, b: World, draw: nat -> Option<Name>, folder: ObjId) {
    exists n: nat | a.drawn <= n < b.drawn && draw(n).Some? :: LeftAt(a, b, Slot(folder, draw(n).value))
  }

  lemma StillNew(a: World, b: World, o: ObjId)
    requires Evolved(a, b) && o !in b.fs.facts
    ensures o !in a.fs.facts
  {
  }

  lemma LeftFrom(a: World, m: World, b: World, draw: nat -> Option<Name>, folder: ObjId, n: nat)
    requires Evolved(a, m) && m.made == a.made && m.balked == a.balked && (Quiet(a.script) ==> m.fs == a.fs)
    requires a.drawn <= n < b.drawn && draw(n).Some? && LeftAt(m, b, Slot(folder, draw(n).value))
    ensures LeftBehind(a, b, draw, folder)
  {
    var p: ObjId :| LeftAs(m, b, Slot(folder, draw(n).value), p);
    StillNew(a, m, p);
    assert LeftAs(a, b, Slot(folder, draw(n).value), p);
  }

  /** No placeholder stays in a folder, so the promise goes: not so when the one just made cannot be
      inspected. */
  method PlaceholderStays() returns (v: Volume, r: Answer<(Name, Snapshot), Trouble>)
    ensures fresh(v) && r == Err(PlaceholderLeft)
    ensures v.w.fs.names == map[Slot(ROOT, "private") := 1] && v.w.made == {1}
  {
    var root := Facts(Directory, false, 0, None, None);
    var refused := Idle().(fault := Some(Refused));
    var w := World(Fs(map[], map[ROOT := root], 1), {}, [], {}, {}, {}, [Idle(), refused], false, false, 0);
    v := new Volume(w, n => Some("private"));
    r := CreatePlaceholder(v, ROOT);
  }

  /** What the executor unlinked between two moments: the reviewed object first if it went, the
      placeholder last if it is known to be gone, and nothing else. */
  ghost predicate Logged(a: World, b: World, expected: Snapshot, placeholder: ObjId, outcome: Outcome) {
    && b.made == a.made
    && a.unlinked <= b.unlinked
    && var mine := b.unlinked[|a.unlinked|..];
    && var target := if TargetRemoved(outcome) then 1 else 0;
    && |mine| == target + (if Tidy(outcome) then 1 else 0)
    && (TargetRemoved(outcome) ==> AsReviewed(expected, mine[0]))
    && (Tidy(outcome) ==> mine[target].id == placeholder)
    && Balks(a, b, placeholder, Tidy(outcome))
  }

  /** On a quiet volume: the entry is back under its own name, and the placeholder's is free. */
  ghost predicate Restored(a: Names, b: Names, original: Slot, detached: Slot) {
    original in a && detached in a && b == Swapped(a, original, detached) - {detached}
  }

  /** On a quiet volume, from the exchange on: the entry went, with its name, or it is back under it; or the
      clean-up was refused. */
  ghost predicate Settled(a: World, b: World, original: Slot, detached: Slot, placeholder: Snapshot,
                          expected: Snapshot, outcome: Outcome) {
    && Answered(a, b, Isolated(a.fs, original, detached, placeholder, expected), placeholder.id, Tidy(outcome))
    && (Quiet(a.script) && Tidy(outcome) && detached in a.fs.names ==>
          if outcome != Deleted then Restored(a.fs.names, b.fs.names, original, detached) else
            && original in a.fs.names && a.fs.names[detached] == expected.id
            && !(expected.kind == Directory && a.fs.HasChildren(expected.id))
            && b.fs.names == a.fs.names - {detached} - {original})
  }

  /** The exchange stands, and the placeholder is not itself the reviewed object. */
  ghost predicate Isolated(fs: Fs, original: Slot, detached: Slot, placeholder: Snapshot, expected: Snapshot) {
    Stands(fs, original, detached, placeholder) && placeholder.id != expected.id
  }

  /** An attempt that nothing disturbed: the entry is deleted, and its last link is seen to go with it
      exactly when it had one. */
  ghost predicate Unhindered(a: World, b: World, expected: Snapshot, attempt: Attempt) {
    && attempt.outcome == Deleted && !attempt.refused && b.soft == a.soft
    && attempt.noLinkSurvived == (expected.kind != Directory && a.fs.Links(expected.id) == 1)
    && attempt.links == if attempt.noLinkSurvived then Some(1) else None
  }

  /** The exchange has been made, and the entry can go. */
  ghost predicate Removable(fs: Fs, original: Slot, detached: Slot, placeholder: Snapshot, expected: Snapshot) {
    && Shows(fs, original, placeholder) && placeholder.id != expected.id && original != detached
    && detached in fs.names && fs.names[detached] in fs.facts
    && AsReviewed(expected, fs.Stat(detached))
    && !(expected.kind == Directory && fs.HasChildren(expected.id))
  }

  /** What is known of the links of an object the executor removed. */
  ghost predicate LinksKnown(a: World, b: World, expected: Snapshot, attempt: Attempt) {
    && (TargetRemoved(attempt.outcome) && expected.id in a.fs.facts ==> a.fs.Named(expected.id))
    && (attempt.noLinkSurvived ==>
          TargetRemoved(attempt.outcome) && expected.kind != Directory && !b.fs.Named(expected.id))
    && (attempt.outcome == Deleted && expected.kind != Directory && attempt.links.Some? ==> attempt.noLinkSurvived)
  }

  /** The same of an attempt that began earlier, when nothing of the executor happened in between. */
  lemma FromStart(a: World, m: World, b: World, original: Slot, detached: Slot, placeholder: Snapshot,
                  expected: Snapshot, attempt: Attempt)
    requires a.Valid() && Evolved(a, m) && OwnKept(a, m) && (Quiet(a.script) ==> m.fs == a.fs)
    requires Logged(m, b, expected, placeholder.id, attempt.outcome)
    requires LinksKnown(m, b, expected, attempt)
    requires Settled(m, b, original, detached, placeholder, expected, attempt.outcome)
    ensures Logged(a, b, expected, placeholder.id, attempt.outcome)
    ensures LinksKnown(a, b, expected, attempt)
    ensures Settled(a, b, original, detached, placeholder, expected, attempt.outcome)
  {
    hide Bound, Fs.Valid, FactsKept, AsReviewed;
    LinksKnownBefore(a, m, b, expected, attempt);
  }

  lemma LinksKnownBefore(a: World, m: World, b: World, expected: Snapshot, attempt: Attempt)
    requires a.Valid() && Evolved(a, m) && LinksKnown(m, b, expected, attempt)
    ensures LinksKnown(a, b, expected, attempt)
  {
    if expected.id in a.fs.facts && m.fs.Named(expected.id) {
      RootUnnamed(m);
      FoldersStay(a, m, expected.id);
      GoneStaysGone(a, m, expected.id);
    }
  }

  lemma RootUnnamed(w: World)
    requires w.Valid()
    ensures !w.fs.Named(ROOT)
  {
  }

  /** The entry's name holds what was reviewed, and it can go. */
  ghost predicate CanGo(fs: Fs, s: Slot, expected: Snapshot) {
    && s in fs.names && fs.names[s] in fs.facts && AsReviewed(expected, fs.Stat(s))
    && !(expected.kind == Directory && fs.HasChildren(expected.id))
  }

  /** What an outcome after the exchange says of the entry, on a quiet volume: it changed if it could not go, it
      went only if it could, and every failure is a refused call's. */
  ghost predicate Judged(a: World, original: Slot, detached: Slot, placeholder: Snapshot, expected: Snapshot,
                         outcome: Outcome) {
    Quiet(a.script) && Isolated(a.fs, original, detached, placeholder, expected) ==>
      && outcome != Missing && outcome != Unattempted
      && (outcome == Changed ==> !CanGo(a.fs, detached, expected))
      && (TargetRemoved(outcome) ==> CanGo(a.fs, detached, expected))
      && (outcome.Failed? ==> !Faultless(a.script))
  }

  /** A look at the detached name that does not find what was reviewed. */
  lemma JudgedChanged(a: World, original: Slot, detached: Slot, placeholder: Snapshot, expected: Snapshot, seen: Snapshot)
    requires Quiet(a.script) ==> Shows(a.fs, detached, seen)
    requires !AsReviewed(expected, seen)
    ensures Judged(a, original, detached, placeholder, expected, Changed)
  {
  }

  lemma JudgedBefore(a: World, m: World, original: Slot, detached: Slot, placeholder: Snapshot, expected: Snapshot,
                     outcome: Outcome)
    requires Evolved(a, m) && (Quiet(a.script) ==> m.fs == a.fs)
    requires Judged(m, original, detached, placeholder, expected, outcome)
    ensures Judged(a, original, detached, placeholder, expected, outcome)
  {
  }

  /** Everything after the exchange: `detached` holds the entry, `original` the placeholder. */
  method RemoveIsolated(v: Volume, original: Slot, detached: Slot, placeholder: Snapshot, expected: Snapshot)
    returns (a: Attempt)
    requires v.w.Valid() && placeholder.kind == File && v.w.fs.IsFolder(original.folder)
    requires original.folder == detached.folder
    modifies v
    ensures v.w.Valid() && Evolved(old(v.w), v.w)
    ensures Logged(old(v.w), v.w, expected, placeholder.id, a.outcome)
    ensures LinksKnown(old(v.w), v.w, expected, a)
    ensures Settled(old(v.w), v.w, original, detached, placeholder, expected, a.outcome)
    ensures Judged(old(v.w), original, detached, placeholder, expected, a.outcome)
    ensures Quiet(old(v.w).script) && detached in old(v.w).fs.names ==> a.outcome != Missing
    ensures a.outcome !in {Unattempted, Failed(CancelCleanup)} && !a.refused && !ExchangeRefused(a.outcome)
    ensures Quiet(old(v.w).script) && Faultless(old(v.w).script) && !TargetRemoved(a.outcome) ==>
      forall seen | Shows(old(v.w).fs, detached, seen) :: a.links == seen.links
    ensures Clean(old(v.w).script) && Removable(old(v.w).fs, original, detached, placeholder, expected) ==>
      Unhindered(old(v.w), v.w, expected, a)
  {
    hide Bound, FactsKept, Fs.Valid, World.Valid, Evolved, AsReviewed, Fs.Look;
    hide Logged, LinksKnown, Settled, Quiet, Clean, Faultless, Undenied, MatchesForExecution;
    Evolution();
    ghost var start := v.w;
    var links := expected.links;
    var paused := v.Pass(None);
    var first := v.Inspect(detached, None);
    FoldersStay(start, v.w, original.folder);
    ghost var now := v.w;
    if first.Err? {
      a := GiveUp(v, first.error, original, detached, placeholder, expected, links);
      FromStart(start, now, v.w, original, detached, placeholder, expected, a);
      return;
    }
    links := first.value.links;
    MatchesExactly(expected, first.value);
    if AsReviewed(expected, first.value) { SeenFacts(now, detached, first.value, expected); }
    if !MatchesForExecution(expected, first.value) {
      JudgedChanged(start, original, detached, placeholder, expected, first.value);
      a := PutBack(v, original, detached, placeholder, expected, links, Changed, ChangedRecovery);
      FromStart(start, now, v.w, original, detached, placeholder, expected, a);
      return;
    }
    // Other processes go on while the first look is judged.
    paused := v.Pass(None);
    var second := v.Inspect(detached, None);
    FoldersStay(start, v.w, original.folder);
    now := v.w;
    if second.Err? {
      a := GiveUp(v, second.error, original, detached, placeholder, expected, links);
      FromStart(start, now, v.w, original, detached, placeholder, expected, a);
      return;
    }
    MatchesExactly(expected, second.value);
    if !MatchesForExecution(expected, second.value) {
      JudgedChanged(start, original, detached, placeholder, expected, second.value);
      a := PutBack(v, original, detached, placeholder, expected, links, Changed, ChangedRecovery);
    } else {
      SeenFacts(now, detached, second.value, expected);
      a := RemoveChecked(v, original, detached, placeholder, expected, second.value, first.value.links == Some(1));
    }
    FromStart(start, now, v.w, original, detached, placeholder, expected, a);
  }

  /** The detached name could not be read, or is gone. */
  method GiveUp(v: Volume, error: Error, original: Slot, detached: Slot, placeholder: Snapshot, expected: Snapshot,
                links: Option<LinkCount>)
    returns (a: Attempt)
    requires v.w.Valid() && placeholder.kind == File && v.w.fs.IsFolder(original.folder)
    requires original.folder == detached.folder
    requires error == NotFound ==> detached !in v.w.fs.names
    modifies v
    ensures v.w.Valid() && Evolved(old(v.w), v.w)
    ensures Logged(old(v.w), v.w, expected, placeholder.id, a.outcome)
    ensures LinksKnown(old(v.w), v.w, expected, a)
    ensures Settled(old(v.w), v.w, original, detached, placeholder, expected, a.outcome)
    ensures if error == NotFound then a.outcome in {Missing, Failed(IsolatedGoneCleanup)}
            else a.outcome in {Failed(Unreadable), Failed(UnreadableRecovery)}
    ensures !a.refused
  {
    hide Bound, FactsKept, Fs.Valid, World.Valid, Evolved, AsReviewed, Quiet, Restored;
    ghost var start := v.w;
    if error == NotFound {
      var done := FinalizePlaceholder(v, original, detached, placeholder);
      a := Attempt(if done then Missing else Failed(IsolatedGoneCleanup), links, false, false);
      LoggedByClearing(start, v.w, expected, placeholder.id, a.outcome);
    } else {
      a := PutBack(v, original, detached, placeholder, expected, links, Failed(Unreadable), UnreadableRecovery);
    }
  }

  /** Puts the entry back and says why it stays, in one of two ways. */
  method PutBack(v: Volume, original: Slot, detached: Slot, placeholder: Snapshot, expected: Snapshot,
                 links: Option<LinkCount>, whenDone: Outcome, otherwise: Trouble)
    returns (a: Attempt)
    requires v.w.Valid() && placeholder.kind == File
    requires Tidy(whenDone) && !TargetRemoved(whenDone) && !Tidy(Failed(otherwise)) && otherwise != DeletedCleanup
    modifies v
    ensures v.w.Valid() && Evolved(old(v.w), v.w)
    ensures Logged(old(v.w), v.w, expected, placeholder.id, a.outcome)
    ensures LinksKnown(old(v.w), v.w, expected, a)
    ensures Settled(old(v.w), v.w, original, detached, placeholder, expected, a.outcome)
    ensures (a.outcome == whenDone || a.outcome == Failed(otherwise)) && !a.refused && a.links == links
    ensures Hampered(old(v.w), Isolated(old(v.w).fs, original, detached, placeholder, expected), a.outcome == whenDone)
  {
    hide Bound, FactsKept, Fs.Valid, World.Valid, Evolved, AsReviewed, Quiet, Restored;
    ghost var start := v.w;
    var restored := RestoreDetached(v, original, detached, placeholder);
    a := Attempt(if restored then whenDone else Failed(otherwise), links, false, false);
    LoggedByClearing(start, v.w, expected, placeholder.id, a.outcome);
  }

  lemma LoggedByClearing(a: World, b: World, expected: Snapshot, placeholder: ObjId, outcome: Outcome)
    requires Cleared(a, b, placeholder, Tidy(outcome)) && !TargetRemoved(outcome)
    ensures Logged(a, b, expected, placeholder, outcome)
  {
  }

  lemma LoggedByRemoval(a: World, m: World, b: World, expected: Snapshot, placeholder: ObjId, outcome: Outcome)
    requires m.made == a.made && a.unlinked <= m.unlinked && |m.unlinked| == |a.unlinked| + 1 && m.balked == a.balked
    requires AsReviewed(expected, m.unlinked[|a.unlinked|])
    requires Cleared(m, b, placeholder, outcome == Deleted) && TargetRemoved(outcome)
    ensures Logged(a, b, expected, placeholder, outcome)
  {
    assert b.unlinked[|a.unlinked|] == m.unlinked[|a.unlinked|];
  }

  /** Whether the object's last link is gone, as far as a reference to it tells. */
  method SeeGone(v: Volume, reference: Option<ObjId>, o: ObjId) returns (gone: bool)
    requires v.w.Valid() && o in v.w.fs.facts && (reference.Some? ==> reference.value == o)
    modifies v
    ensures v.w.Valid() && Evolved(old(v.w), v.w) && OwnKept(old(v.w), v.w)
    ensures Quiet(old(v.w).script) ==> v.w.fs == old(v.w).fs
    ensures Clean(old(v.w).script) ==> v.w.soft == old(v.w).soft
    ensures gone ==> reference.Some? && !v.w.fs.Named(o)
    ensures Clean(old(v.w).script) && reference.Some? ==> (gone <==> !old(v.w).fs.Named(o))
  {
    hide Bound, FactsKept, Fs.Valid, World.Valid, Evolved, Quiet, Clean, Faultless, Undenied;
    Evolution();
    gone := false;
    if reference.Some? {
      var left := v.ReadLinks(reference.value);
      gone := left == Some(0);
      NoLinks(v.w.fs.names, o);
    }
  }

  /** Unlinks a name whose object was just seen to be the reviewed one, and counts the links that
      outlive it through a reference made before. */
  method TakeOut(v: Volume, detached: Slot, expected: Snapshot, seen: Snapshot, single: bool)
    returns (e: Option<Error>, links: Option<LinkCount>, survived: bool)
    requires v.w.Valid() && Shows(v.w.fs, detached, seen) && AsReviewed(expected, seen)
    modifies v
    ensures v.w.Valid() && Evolved(old(v.w), v.w)
    ensures e.Some? ==> OwnKept(old(v.w), v.w) && e.value in {NotEmpty, Other} && !survived && links == seen.links
    ensures e == Some(Other) ==> !Faultless(old(v.w).script)
    ensures Quiet(old(v.w).script) && e == Some(NotEmpty) ==>
      expected.kind == Directory && old(v.w).fs.HasChildren(expected.id)
    ensures e.None? ==> v.w.made == old(v.w).made && |v.w.unlinked| == |old(v.w).unlinked| + 1
    ensures v.w.balked == old(v.w).balked
    ensures e.None? ==> AsReviewed(expected, v.w.unlinked[|old(v.w).unlinked|])
    ensures survived ==> e.None? && expected.kind != Directory && !v.w.fs.Named(expected.id)
    ensures e.None? && expected.kind != Directory && links.Some? ==> survived
    ensures expected.id in v.w.fs.facts && expected.id != ROOT && old(v.w).fs.Named(expected.id)
    ensures Quiet(old(v.w).script) ==> v.w.fs == if e.None? then old(v.w).fs.Drop(detached) else old(v.w).fs
    ensures Quiet(old(v.w).script) && e.None? ==>
      !(expected.kind == Directory && old(v.w).fs.HasChildren(expected.id))
    ensures Clean(old(v.w).script) ==> v.w.soft == old(v.w).soft
    ensures Clean(old(v.w).script) && !(expected.kind == Directory && old(v.w).fs.HasChildren(expected.id)) ==>
      e.None? && links == if survived then Some(1) else None
    ensures Clean(old(v.w).script) && e.None? && (seen.links == Some(1) <==> single) ==>
      (survived <==> seen.links == Some(1))
  {
    hide Bound, FactsKept, Fs.Valid, World.Valid, Evolved, AsReviewed, Fs.Look, Shows, SameContent, Spares;
    hide Quiet, Clean, Faultless, Undenied, Fs.Reported, Fs.Drop, Fs.Named;
    Evolution();
    SeenFacts(v.w, detached, seen, expected);
    ghost var start := v.w;
    links := seen.links;
    var reference: Option<ObjId> := None;
    if expected.kind != Directory && single {
      reference := v.OpenReference(detached, expected);
    }
    ghost var before := v.w;
    FoldersStay(start, before, expected.id);
    e := v.Unlink(detached, expected.kind == Directory, None);
    if e.None? {
      SameContentMatches(expected, seen, before.fs.facts[expected.id], v.w.unlinked[|before.unlinked|]);
    }
    survived := false;
    if e.None? && expected.kind != Directory {
      ghost var removed := v.w;
      FoldersStay(before, removed, expected.id);
      survived := SeeGone(v, reference, expected.id);
      if !survived { links := None; }
      if Quiet(start.script) { LastDrop(start.fs, detached, expected); }
    }
    FoldersStay(start, v.w, expected.id);
  }

  lemma SeenFacts(w: World, s: Slot, seen: Snapshot, expected: Snapshot)
    requires w.Valid() && Shows(w.fs, s, seen) && AsReviewed(expected, seen)
    ensures s in w.fs.names && w.fs.names[s] == expected.id && seen.id == expected.id
    ensures expected.id in w.fs.facts && expected.id != ROOT && w.fs.Named(expected.id)
    ensures ContentOf(seen) == w.fs.facts[expected.id] && SameObject(expected, w.fs.Stat(s))
    ensures seen.kind == expected.kind && w.fs.IsFolder(expected.id) == (expected.kind == Directory)
    ensures seen.links == if expected.kind == Directory then None else Some(w.fs.Reported(expected.id))
    ensures SameContent(ContentOf(seen), ContentOf(seen))
  {
    HeldIsBound(w.fs.names, s);
  }

  lemma SameContentMatches(expected: Snapshot, seen: Snapshot, between: Facts, last: Snapshot)
    requires AsReviewed(expected, seen) && last.id == seen.id
    requires SameContent(ContentOf(seen), between) && SameContent(between, ContentOf(last))
    ensures AsReviewed(expected, last)
  {
  }

  /** The removal was refused, or the folder is not empty: the entry goes back. */
  method KeepEntry(v: Volume, original: Slot, detached: Slot, placeholder: Snapshot, expected: Snapshot,
                   links: Option<LinkCount>, e: Error, ghost start: World)
    returns (a: Attempt)
    requires start.Valid() && v.w.Valid() && placeholder.kind == File && e in {NotEmpty, Other}
    requires Evolved(start, v.w) && OwnKept(start, v.w) && (Quiet(start.script) ==> v.w.fs == start.fs)
    requires e == Other ==> !Faultless(start.script)
    requires Quiet(start.script) && e == NotEmpty ==> expected.kind == Directory && start.fs.HasChildren(expected.id)
    modifies v
    ensures v.w.Valid() && Evolved(start, v.w)
    ensures Logged(start, v.w, expected, placeholder.id, a.outcome)
    ensures LinksKnown(start, v.w, expected, a)
    ensures Settled(start, v.w, original, detached, placeholder, expected, a.outcome)
    ensures Judged(start, original, detached, placeholder, expected, a.outcome)
    ensures a.outcome in {Changed, Failed(FolderRecovery), Failed(RemovalRefused), Failed(RemovalRecovery)}
    ensures !a.refused && a.links == links
  {
    hide Bound, FactsKept, Fs.Valid, World.Valid, Evolved, AsReviewed, Restored, Settled, Logged, Quiet, Clean;
    hide Faultless, Undenied;
    hide LinksKnown, Judged, Isolated, Hampered;
    Evolution();
    ghost var taken := v.w;
    a := PutBack(v, original, detached, placeholder, expected, links,
                 if e == NotEmpty then Changed else Failed(RemovalRefused),
                 if e == NotEmpty then FolderRecovery else RemovalRecovery);
    FromStart(start, taken, v.w, original, detached, placeholder, expected, a);
    JudgedByRefusal(start, taken, original, detached, placeholder, expected, e, a.outcome);
  }

  /** The object has been removed: the placeholder under its name goes too. */
  method ClearUp(v: Volume, original: Slot, detached: Slot, placeholder: Snapshot, expected: Snapshot,
                 links: Option<LinkCount>, survived: bool, ghost start: World, ghost seen: Snapshot)
    returns (a: Attempt)
    requires start.Valid() && v.w.Valid() && placeholder.kind == File && v.w.fs.IsFolder(original.folder)
    requires original.folder == detached.folder && Evolved(start, v.w) && start.fs.IsFolder(original.folder)
    requires Shows(start.fs, detached, seen) && AsReviewed(expected, seen)
    requires v.w.made == start.made && |v.w.unlinked| == |start.unlinked| + 1 && v.w.balked == start.balked
    requires AsReviewed(expected, v.w.unlinked[|start.unlinked|])
    requires survived ==> expected.kind != Directory && !v.w.fs.Named(expected.id)
    requires expected.kind != Directory && links.Some? ==> survived
    requires expected.id in v.w.fs.facts && expected.id != ROOT && start.fs.Named(expected.id)
    requires Quiet(start.script) ==>
      v.w.fs == start.fs.Drop(detached) && !(expected.kind == Directory && start.fs.HasChildren(expected.id))
    modifies v
    ensures v.w.Valid() && Evolved(start, v.w)
    ensures Logged(start, v.w, expected, placeholder.id, a.outcome)
    ensures LinksKnown(start, v.w, expected, a)
    ensures Settled(start, v.w, original, detached, placeholder, expected, a.outcome)
    ensures Judged(start, original, detached, placeholder, expected, a.outcome)
    ensures a.outcome in {Deleted, Failed(DeletedCleanup)} && !a.refused
    ensures a.links == links && a.noLinkSurvived == survived
    ensures Clean(start.script) && Removable(start.fs, original, detached, placeholder, expected) ==>
      a.outcome == Deleted && v.w.soft == old(v.w).soft
  {
    hide Bound, FactsKept, Fs.Valid, World.Valid, Evolved, AsReviewed, Fs.Look, Restored, Settled, Logged, Quiet;
    hide Fs.Drop, Fs.HasChildren, Fs.Named, Cleared, Offered, Stands, Balks;
    hide Clean, Faultless, Undenied, Removable, Unhindered, Shows, LinksKnown, Judged, Isolated, Hampered, Answered;
    Evolution();
    SeenFacts(start, detached, seen, expected);
    if Removable(start.fs, original, detached, placeholder, expected) {
      RemovableMeans(start.fs, original, detached, placeholder, expected);
    }
    ghost var taken := v.w;
    var done := FinalizePlaceholder(v, original, detached, placeholder);
    a := Attempt(if done then Deleted else Failed(DeletedCleanup), links, false, survived);
    if survived { GoneStaysGone(taken, v.w, expected.id); }
    RemovalTold(start, taken, v.w, original, detached, placeholder, expected, seen, a);
  }

  /** What a removal and the clean-up after it say together. */
  lemma RemovalTold(a: World, m: World, b: World, original: Slot, detached: Slot, placeholder: Snapshot,
                    expected: Snapshot, seen: Snapshot, attempt: Attempt)
    requires a.Valid() && Evolved(a, m) && Shows(a.fs, detached, seen) && AsReviewed(expected, seen)
    requires attempt.outcome in {Deleted, Failed(DeletedCleanup)} && placeholder.kind == File
    requires original.folder == detached.folder
    requires m.made == a.made && |m.unlinked| == |a.unlinked| + 1 && m.balked == a.balked
    requires AsReviewed(expected, m.unlinked[|a.unlinked|])
    requires a.fs.Named(expected.id)
    requires attempt.noLinkSurvived ==> expected.kind != Directory && !b.fs.Named(expected.id)
    requires expected.kind != Directory && attempt.links.Some? ==> attempt.noLinkSurvived
    requires Quiet(a.script) ==>
      m.fs == a.fs.Drop(detached) && !(expected.kind == Directory && a.fs.HasChildren(expected.id))
    requires Cleared(m, b, placeholder.id, attempt.outcome == Deleted)
    requires Quiet(m.script) && attempt.outcome == Deleted ==>
      && original in m.fs.names && m.fs.names[original] == placeholder.id && b.fs.names == m.fs.names - {original}
    requires Answered(m, b, Shows(m.fs, original, placeholder), placeholder.id, attempt.outcome == Deleted)
    requires Hampered(m, Shows(m.fs, original, placeholder) && detached !in m.fs.names, attempt.outcome == Deleted)
    ensures Logged(a, b, expected, placeholder.id, attempt.outcome)
    ensures LinksKnown(a, b, expected, attempt)
    ensures Settled(a, b, original, detached, placeholder, expected, attempt.outcome)
    ensures Judged(a, original, detached, placeholder, expected, attempt.outcome)
  {
    hide Bound, FactsKept, Fs.Valid, World.Valid, Evolved, AsReviewed, Fs.Look, Restored, Settled, Logged, Quiet;
    hide Fs.HasChildren, Fs.Named, Cleared, Shows, LinksKnown, Judged, Hampered, Answered, Fs.Drop;
    Evolution();
    SeenFacts(a, detached, seen, expected);
    LinksKnownByRemoval(a, b, expected, attempt);
    SettledByRemoval(a, m, b, original, detached, placeholder, expected, attempt.outcome);
    JudgedByRemoval(a, m, original, detached, placeholder, expected, seen, attempt.outcome);
    LogGrows(a, m);
    LoggedByRemoval(a, m, b, expected, placeholder.id, attempt.outcome);
  }

  /** The removal, and the clean-up after it. */
  method RemoveChecked(v: Volume, original: Slot, detached: Slot, placeholder: Snapshot, expected: Snapshot,
                       seen: Snapshot, single: bool)
    returns (a: Attempt)
    requires v.w.Valid() && placeholder.kind == File && v.w.fs.IsFolder(original.folder)
    requires original.folder == detached.folder
    requires Shows(v.w.fs, detached, seen) && AsReviewed(expected, seen)
    modifies v
    ensures v.w.Valid() && Evolved(old(v.w), v.w)
    ensures Logged(old(v.w), v.w, expected, placeholder.id, a.outcome)
    ensures LinksKnown(old(v.w), v.w, expected, a)
    ensures Settled(old(v.w), v.w, original, detached, placeholder, expected, a.outcome)
    ensures Judged(old(v.w), original, detached, placeholder, expected, a.outcome)
    ensures a.outcome !in {Missing, Unattempted, Failed(CancelCleanup)} && !a.refused && !ExchangeRefused(a.outcome)
    ensures !TargetRemoved(a.outcome) ==> a.links == seen.links
    ensures Clean(old(v.w).script) && Removable(old(v.w).fs, original, detached, placeholder, expected) ==>
      (single <==> seen.links == Some(1)) ==> Unhindered(old(v.w), v.w, expected, a)
  {
    hide Bound, FactsKept, Fs.Valid, World.Valid, Evolved, AsReviewed, Fs.Look, Restored, Settled, Logged, Quiet;
    hide Clean, Faultless, Undenied, Removable, Unhindered, Shows, LinksKnown, Judged, Isolated, Hampered, Answered;
    Evolution();
    ghost var start := v.w;
    SeenFacts(start, detached, seen, expected);
    var e, links, survived := TakeOut(v, detached, expected, seen, single);
    FoldersStay(start, v.w, original.folder);
    if Removable(start.fs, original, detached, placeholder, expected) {
      RemovableMeans(start.fs, original, detached, placeholder, expected);
    }
    if e.Some? {
      a := KeepEntry(v, original, detached, placeholder, expected, links, e.value, start);
      return;
    }
    a := ClearUp(v, original, detached, placeholder, expected, links, survived, start, seen);
    if a.outcome == Deleted && v.w.soft == start.soft { UnhinderedByRemoval(start, v.w, expected, seen, a); }
  }

  lemma JudgedByRefusal(a: World, m: World, original: Slot, detached: Slot, placeholder: Snapshot, expected: Snapshot,
                        e: Error, outcome: Outcome)
    requires Evolved(a, m) && (Quiet(a.script) ==> m.fs == a.fs) && e in {NotEmpty, Other}
    requires e == Other ==> !Faultless(a.script)
    requires Quiet(a.script) && e == NotEmpty ==> expected.kind == Directory && a.fs.HasChildren(expected.id)
    requires outcome == (if e == NotEmpty then Changed else Failed(RemovalRefused))
             || outcome == Failed(if e == NotEmpty then FolderRecovery else RemovalRecovery)
    requires Hampered(m, Isolated(m.fs, original, detached, placeholder, expected),
                      outcome == if e == NotEmpty then Changed else Failed(RemovalRefused))
    ensures Judged(a, original, detached, placeholder, expected, outcome)
  {
    hide Evolved, Fs.Valid, World.Valid, Shows, Quiet, Faultless, FactsKept, AsReviewed, Fs.Stat;
    Evolution();
  }

  lemma JudgedByRemoval(a: World, m: World, original: Slot, detached: Slot, placeholder: Snapshot, expected: Snapshot,
                        seen: Snapshot, outcome: Outcome)
    requires Evolved(a, m) && Shows(a.fs, detached, seen) && AsReviewed(expected, seen) && TargetRemoved(outcome)
    requires Quiet(a.script) ==> m.fs == a.fs.Drop(detached)
    requires Quiet(a.script) ==> !(expected.kind == Directory && a.fs.HasChildren(expected.id))
    requires Hampered(m, Shows(m.fs, original, placeholder) && detached !in m.fs.names, outcome == Deleted)
    requires placeholder.kind == File && original.folder == detached.folder
    ensures Judged(a, original, detached, placeholder, expected, outcome)
  {
    if Quiet(a.script) && Isolated(a.fs, original, detached, placeholder, expected) {
      DropShows(a.fs, detached, original, placeholder);
    }
  }

  lemma RemovableMeans(fs: Fs, original: Slot, detached: Slot, placeholder: Snapshot, expected: Snapshot)
    requires Removable(fs, original, detached, placeholder, expected)
    ensures !(expected.kind == Directory && fs.HasChildren(expected.id))
    ensures fs.IsFolder(detached.folder) && placeholder.kind == File ==>
      Shows(fs.Drop(detached), original, placeholder) && detached !in fs.Drop(detached).names
  {
    if fs.IsFolder(detached.folder) && placeholder.kind == File {
      DropShows(fs, detached, original, placeholder);
    }
  }

  lemma UnhinderedByRemoval(a: World, b: World, expected: Snapshot, seen: Snapshot, attempt: Attempt)
    requires attempt.outcome == Deleted && !attempt.refused && b.soft == a.soft
    requires seen.links == if expected.kind == Directory then None else Some(a.fs.Reported(expected.id))
    ensures attempt.noLinkSurvived == (seen.links == Some(1)) ==>
      attempt.links == (if attempt.noLinkSurvived then Some(1) else None) ==> Unhindered(a, b, expected, attempt)
  {
  }

  lemma LinksKnownByRemoval(a: World, b: World, expected: Snapshot, attempt: Attempt)
    requires a.fs.Named(expected.id) && TargetRemoved(attempt.outcome)
    requires attempt.noLinkSurvived ==> expected.kind != Directory && !b.fs.Named(expected.id)
    requires expected.kind != Directory && attempt.links.Some? ==> attempt.noLinkSurvived
    ensures LinksKnown(a, b, expected, attempt)
  {
  }

  lemma SettledByRemoval(a: World, m: World, b: World, original: Slot, detached: Slot, placeholder: Snapshot,
                         expected: Snapshot, outcome: Outcome)
    requires detached in a.fs.names && TargetRemoved(outcome) && Evolved(a, m) && placeholder.kind == File
    requires Answered(m, b, Shows(m.fs, original, placeholder), placeholder.id, Tidy(outcome))
    requires Quiet(a.script) ==> m.fs == a.fs.Drop(detached) && a.fs.names[detached] == expected.id
    requires Quiet(a.script) ==> !(expected.kind == Directory && a.fs.HasChildren(expected.id))
    requires Quiet(a.script) && outcome == Deleted ==>
      original in m.fs.names && b.fs.names == m.fs.names - {original}
    requires original.folder == detached.folder
    ensures Settled(a, b, original, detached, placeholder, expected, outcome)
  {
    if Quiet(a.script) && Isolated(a.fs, original, detached, placeholder, expected) {
      DropShows(a.fs, detached, original, placeholder);
    }
  }

  lemma LogGrows(a: World, b: World)
    requires Evolved(a, b)
    ensures a.unlinked <= b.unlinked
  {
  }

  /** Unlinking another object changes nothing of a file. */
  lemma DropShows(fs: Fs, s: Slot, other: Slot, file: Snapshot)
    requires s in fs.names && fs.IsFolder(s.folder)
    requires Shows(fs, other, file) && file.kind == File && fs.names[s] != fs.names[other]
    ensures Shows(fs.Drop(s), other, file)
  {
    DropLinks(fs.names, s, fs.names[other]);
  }

  /** A file that showed one link has none when that name is gone, and one that showed more has some. */
  lemma LastDrop(fs: Fs, s: Slot, expected: Snapshot)
    requires s in fs.names && fs.names[s] == expected.id
    ensures (fs.Reported(expected.id) == 1) == !fs.Drop(s).Named(expected.id)
  {
    DropLinks(fs.names, s, expected.id);
    NoLinks(fs.names - {s}, expected.id);
  }

  lemma NoLinks(names: Names, o: ObjId)
    ensures |SlotsOf(names, o)| == 0 <==> !Bound(names, o)
  {
    if Bound(names, o) {
      var s :| s in names && names[s] == o;
      assert s in SlotsOf(names, o);
    }
    if |SlotsOf(names, o)| != 0 {
      var s :| s in SlotsOf(names, o);
    }
  }

  /** Everything an attempt unlinked is either the reviewed object, first and only if its removal is
      reported, or a placeholder the attempt made. Every placeholder it made is among them, and none was
      noted as refused, unless a clean-up is reported failed; then no placeholder is. */
  ghost predicate EntryLogged(a: World, b: World, expected: Snapshot, outcome: Outcome) {
    && a.unlinked <= b.unlinked
    && (forall i | |a.unlinked| <= i < |b.unlinked| ::
          || (i == |a.unlinked| && TargetRemoved(outcome))
          || b.unlinked[i].id in b.made - a.made)
    && (TargetRemoved(outcome) ==>
          |a.unlinked| < |b.unlinked| && AsReviewed(expected, b.unlinked[|a.unlinked|]))
    && (Tidy(outcome) ==>
          forall p <- b.made - a.made :: exists i | |a.unlinked| <= i < |b.unlinked| :: b.unlinked[i].id == p)
    && (!Tidy(outcome) ==> |b.unlinked| == |a.unlinked| + if TargetRemoved(outcome) then 1 else 0)
    && a.balked <= b.balked && b.balked <= if Tidy(outcome) then a.balked else a.balked + (b.made - a.made)
  }

  /** On a quiet volume: exactly the entry's name is gone, or none is; or the placeholder that was made is
      noted as refused. */
  ghost predicate EntrySettled(a: World, b: World, entry: Entry, outcome: Outcome) {
    Quiet(a.script) && entry.snapshot.id in a.fs.facts ==>
      if !Tidy(outcome) then b.made - a.made <= b.balked
      else if outcome != Deleted then b.fs.names == a.fs.names else
        var s := SlotAt(a.fs.names, entry.path);
        && s.Some? && s.value in a.fs.names && a.fs.names[s.value] == entry.snapshot.id
        && !(entry.snapshot.kind == Directory && a.fs.HasChildren(entry.snapshot.id))
        && b.fs.names == a.fs.names - {s.value}
  }

  /** Nothing stands in the way of removing the entry. */
  ghost predicate Ready(a: World, draw: nat -> Option<Name>, entry: Entry) {
    && LeadsTo(a.fs, entry.path)
    && var s := SlotAt(a.fs.names, entry.path).value;
    && Roomy(a, draw, s.folder)
    && s in a.fs.names && a.fs.names[s] in a.fs.facts
    && AsReviewed(entry.snapshot, a.fs.Stat(s))
    && !(entry.snapshot.kind == Directory && a.fs.HasChildren(entry.snapshot.id))
  }

  /** On a quiet volume, once the placeholder is made: the entry's name and the placeholder's are gone,
      or only the placeholder's is; or its clean-up was refused. */
  ghost predicate Concluded(a: World, b: World, original: Slot, detached: Slot, placeholder: Snapshot,
                            expected: Snapshot, outcome: Outcome) {
    Quiet(a.script) && Shows(a.fs, detached, placeholder) && placeholder.id != expected.id ==>
      if !Tidy(outcome) then placeholder.id in b.balked
      else if outcome != Deleted then b.fs.names == a.fs.names - {detached} else
        && original in a.fs.names && a.fs.names[original] == expected.id
        && !(expected.kind == Directory && a.fs.HasChildren(expected.id))
        && b.fs.names == a.fs.names - {detached} - {original}
  }

  /** The placeholder is made, and the entry can go. */
  ghost predicate Isolable(fs: Fs, original: Slot, detached: Slot, placeholder: Snapshot, expected: Snapshot) {
    && Shows(fs, detached, placeholder) && placeholder.id != expected.id && original != detached
    && original in fs.names && fs.names[original] in fs.facts
    && AsReviewed(expected, fs.Stat(original))
    && !(expected.kind == Directory && fs.HasChildren(expected.id))
  }

  lemma ExchangeIsolates(fs: Fs, original: Slot, detached: Slot, placeholder: Snapshot, expected: Snapshot)
    requires Isolable(fs, original, detached, placeholder, expected) && original.folder == detached.folder
    requires fs.IsFolder(original.folder) && placeholder.kind == File
    ensures Removable(fs.Swap(detached, original), original, detached, placeholder, expected)
    ensures fs.Swap(detached, original).Links(expected.id) == fs.Links(expected.id)
  {
    SwapLinks(fs.names, detached, original, expected.id);
    SwapLinks(fs.names, detached, original, placeholder.id);
  }

  lemma ExchangeConcludes(a: World, m: World, b: World, original: Slot, detached: Slot, placeholder: Snapshot,
                          expected: Snapshot, outcome: Outcome)
    requires original.folder == detached.folder && a.fs.IsFolder(detached.folder) && placeholder.kind == File
    requires Quiet(a.script) ==> Quiet(m.script) && detached in a.fs.names && original in a.fs.names
                                 && m.fs == a.fs.Swap(detached, original)
    requires Settled(m, b, original, detached, placeholder, expected, outcome)
    ensures Concluded(a, b, original, detached, placeholder, expected, outcome)
  {
    if Quiet(a.script) && Shows(a.fs, detached, placeholder) && placeholder.id != expected.id {
      if !Tidy(outcome) {
        SwapShows(a.fs, detached, original, placeholder);
      } else if outcome == Deleted {
        assert a.fs.HasChildren(expected.id) ==> m.fs.HasChildren(expected.id) by {
          if a.fs.HasChildren(expected.id) {
            var s :| s in a.fs.names && s.folder == expected.id;
            assert s in m.fs.names;
          }
        }
        assert a.fs.names - {detached} - {original} == m.fs.names - {detached} - {original};
      } else {
        assert Swapped(m.fs.names, original, detached) - {detached} == a.fs.names - {detached};
      }
    }
  }

  /** What an outcome from the placeholder's creation on says of the entry, on a quiet volume. */
  ghost predicate Ruled(a: World, original: Slot, detached: Slot, placeholder: Snapshot, expected: Snapshot,
                        outcome: Outcome) {
    Quiet(a.script) && Shows(a.fs, detached, placeholder) && placeholder.id != expected.id ==>
      && (outcome == Missing ==> original !in a.fs.names)
      && (outcome == Changed ==> original in a.fs.names && !CanGo(a.fs, original, expected))
      && (TargetRemoved(outcome) ==> CanGo(a.fs, original, expected))
      && (outcome == Unattempted ==> !Undenied(a.script))
      && (outcome.Failed? ==> !Faultless(a.script))
  }

  /** After an exchange, what was under one name is under the other, and can go or not as before. */
  lemma SwapCanGo(fs: Fs, from: Slot, to: Slot, expected: Snapshot)
    requires from in fs.names && to in fs.names && fs.IsFolder(from.folder)
    ensures CanGo(fs.Swap(from, to), from, expected) <==> CanGo(fs, to, expected)
  {
    var now := fs.Swap(from, to);
    assert fs.HasChildren(expected.id) <==> now.HasChildren(expected.id) by {
      assert forall s :: s in now.names <==> s in fs.names;
    }
    assert now.names[from] == fs.names[to];
  }

  lemma ExchangeRules(a: World, m: World, original: Slot, detached: Slot, placeholder: Snapshot, expected: Snapshot,
                      outcome: Outcome)
    requires Evolved(a, m) && original.folder == detached.folder && a.fs.IsFolder(detached.folder)
    requires placeholder.kind == File
    requires Quiet(a.script) ==> detached in a.fs.names && original in a.fs.names
                                 && m.fs == a.fs.Swap(detached, original)
    requires Judged(m, original, detached, placeholder, expected, outcome)
    ensures Ruled(a, original, detached, placeholder, expected, outcome)
  {
    if Quiet(a.script) && Shows(a.fs, detached, placeholder) && placeholder.id != expected.id {
      SwapShows(a.fs, detached, original, placeholder);
      SwapCanGo(a.fs, detached, original, expected);
    }
  }

  /** An attempt that ended before the exchange. */
  lemma RuledEarly(a: World, m: World, original: Slot, detached: Slot, placeholder: Snapshot, expected: Snapshot,
                   whenDone: Outcome, otherwise: Trouble, done: bool)
    requires Evolved(a, m) && (Quiet(a.script) ==> m.fs == a.fs)
    requires Hampered(m, Shows(m.fs, detached, placeholder), done)
    requires whenDone == Unattempted ==> !Undenied(a.script)
    requires Quiet(a.script) && whenDone == Missing && detached in a.fs.names ==> original !in a.fs.names
    requires whenDone in {Unattempted, Missing, Failed(IsolationRefused)} && otherwise != DeletedCleanup
    requires whenDone == Failed(IsolationRefused) ==> !Faultless(a.script)
    ensures Ruled(a, original, detached, placeholder, expected, if done then whenDone else Failed(otherwise))
  {
  }

  /** Before the exchange, or when it was refused: the placeholder goes, and the entry stays as it is. */
  method DropPlaceholder(v: Volume, original: Slot, detached: Slot, placeholder: Snapshot, expected: Snapshot,
                         whenDone: Outcome, otherwise: Trouble, refused: bool, ghost start: World)
    returns (a: Attempt)
    requires start.Valid() && v.w.Valid() && placeholder.kind == File && Evolved(start, v.w) && OwnKept(start, v.w)
    requires Quiet(start.script) ==> v.w.fs == start.fs
    requires (whenDone == Unattempted && otherwise == CancelCleanup) || (whenDone == Missing && otherwise == DisappearedCleanup)
             || (whenDone == Failed(IsolationRefused) && otherwise == RefusedCleanup)
    requires whenDone == Unattempted ==> !Undenied(start.script)
    requires Quiet(start.script) && whenDone == Missing && detached in start.fs.names ==> original !in start.fs.names
    requires whenDone == Failed(IsolationRefused) ==> !Faultless(start.script)
    modifies v
    ensures v.w.Valid() && Evolved(start, v.w)
    ensures Logged(start, v.w, expected, placeholder.id, a.outcome)
    ensures LinksKnown(start, v.w, expected, a)
    ensures Concluded(start, v.w, original, detached, placeholder, expected, a.outcome)
    ensures Ruled(start, original, detached, placeholder, expected, a.outcome)
    ensures a.outcome in {whenDone, Failed(otherwise)} && a.refused == refused
    ensures old(v.w).soft ==> v.w.soft
  {
    hide Bound, FactsKept, Fs.Valid, World.Valid, Evolved, AsReviewed, Fs.Stat, Ruled, Hampered;
    hide Quiet, Clean, Faultless, Undenied;
    Evolution();
    ghost var before := v.w;
    var done := RemoveVerifiedPlaceholder(v, detached, placeholder);
    SoftStays(before, v.w);
    RuledEarly(start, before, original, detached, placeholder, expected, whenDone, otherwise, done);
    a := Attempt(if done then whenDone else Failed(otherwise), expected.links, refused, false);
    LoggedByClearing(start, v.w, expected, placeholder.id, a.outcome);
  }

  /** From the placeholder's creation on. */
  method RemoveBehindPlaceholder(v: Volume, original: Slot, detached: Slot, placeholder: Snapshot, expected: Snapshot)
    returns (a: Attempt)
    requires v.w.Valid() && placeholder.kind == File && v.w.fs.IsFolder(original.folder)
    requires original.folder == detached.folder
    modifies v
    ensures v.w.Valid() && Evolved(old(v.w), v.w)
    ensures Logged(old(v.w), v.w, expected, placeholder.id, a.outcome)
    ensures LinksKnown(old(v.w), v.w, expected, a)
    ensures Concluded(old(v.w), v.w, original, detached, placeholder, expected, a.outcome)
    ensures Ruled(old(v.w), original, detached, placeholder, expected, a.outcome)
    ensures a.refused <==> ExchangeRefused(a.outcome)
    ensures Upcoming(old(v.w).script).deny <==> a.outcome in {Unattempted, Failed(CancelCleanup)}
    ensures a.outcome in {Unattempted, Failed(CancelCleanup)} ==> v.w.soft
    ensures Clean(old(v.w).script) && Isolable(old(v.w).fs, original, detached, placeholder, expected) ==>
      Unhindered(old(v.w), v.w, expected, a)
  {
    hide Bound, FactsKept, Fs.Valid, World.Valid, Evolved, AsReviewed, Fs.Stat, Ruled, Judged, Hampered;
    hide Removable, Settled, Clean, Quiet, Faultless, Undenied, Swapped;
    Evolution();
    ghost var start := v.w;
    var begun := v.Gate();
    if !begun {
      ghost var stopped := v.w;
      v.w := v.w.(soft := true);
      SoftEvolves(stopped);
      a := DropPlaceholder(v, original, detached, placeholder, expected, Unattempted, CancelCleanup, false, start);
      return;
    }
    var e := v.Exchange(detached, original, None);
    if e == Some(NotFound) {
      a := DropPlaceholder(v, original, detached, placeholder, expected, Missing, DisappearedCleanup, false, start);
      return;
    }
    if e.Some? {
      a := DropPlaceholder(v, original, detached, placeholder, expected, Failed(IsolationRefused), RefusedCleanup, true,
                           start);
      return;
    }
    ghost var isolated := v.w;
    FoldersStay(start, v.w, original.folder);
    if Clean(start.script) && Isolable(start.fs, original, detached, placeholder, expected) {
      ExchangeIsolates(start.fs, original, detached, placeholder, expected);
    }
    a := RemoveIsolated(v, original, detached, placeholder, expected);
    ExchangeRules(start, isolated, original, detached, placeholder, expected, a.outcome);
    ExchangeConcludes(start, isolated, v.w, original, detached, placeholder, expected, a.outcome);
    LinksKnownBefore(start, isolated, v.w, expected, a);
  }

  lemma SoftStays(a: World, b: World)
    requires Evolved(a, b)
    ensures a.soft ==> b.soft
  {
  }

  lemma SoftEvolves(w: World)
    requires w.Valid()
    ensures w.(soft := true).Valid() && Evolved(w, w.(soft := true))
  {
    EvolvedSelf(w);
  }

  lemma EntryLoggedFrom(a: World, m: World, b: World, expected: Snapshot, placeholder: ObjId, outcome: Outcome)
    requires a.Valid() && placeholder !in a.fs.facts
    requires m.unlinked == a.unlinked && m.made == a.made + {placeholder} && m.balked == a.balked
    requires Logged(m, b, expected, placeholder, outcome)
    ensures EntryLogged(a, b, expected, outcome) && b.made == m.made
  {
    assert b.made - a.made == {placeholder};
    var mine := b.unlinked[|a.unlinked|..];
    assert forall i | |a.unlinked| <= i < |b.unlinked| :: b.unlinked[i] == mine[i - |a.unlinked|];
    if Tidy(outcome) {
      assert b.unlinked[|a.unlinked| + (if TargetRemoved(outcome) then 1 else 0)].id == placeholder;
    }
  }

  lemma EntrySettledFrom(a: World, m: World, b: World, entry: Entry, original: Slot, detached: Slot,
                         placeholder: Snapshot, outcome: Outcome)
    requires a.Valid() && m.made == a.made + {placeholder.id} && b.made == m.made
    requires Concluded(m, b, original, detached, placeholder, entry.snapshot, outcome)
    requires original.folder == detached.folder && placeholder.id !in a.fs.facts
    requires Quiet(a.script) ==>
      && Quiet(m.script) && SlotAt(a.fs.names, entry.path) == Some(original)
      && detached !in a.fs.names && m.fs.names == a.fs.names[detached := placeholder.id]
      && Shows(m.fs, detached, placeholder)
    ensures EntrySettled(a, b, entry, outcome)
  {
    if Quiet(a.script) && Tidy(outcome) && entry.snapshot.id in a.fs.facts {
      if outcome == Deleted {
        assert a.fs.HasChildren(entry.snapshot.id) ==> m.fs.HasChildren(entry.snapshot.id) by {
          if a.fs.HasChildren(entry.snapshot.id) {
            var s :| s in a.fs.names && s.folder == entry.snapshot.id;
            assert s in m.fs.names;
          }
        }
        assert m.fs.names - {detached} - {original} == a.fs.names - {original};
      } else {
        assert m.fs.names - {detached} == a.fs.names;
      }
    }
  }

  lemma PlaceholderIsolable(a: World, draw: nat -> Option<Name>, entry: Entry, original: Slot, detached: Slot,
                            placeholder: Snapshot)
    requires a.Valid() && Ready(a, draw, entry) && SlotAt(a.fs.names, entry.path) == Some(original)
    requires detached !in a.fs.names && detached.folder == original.folder && placeholder.kind == File
    requires Shows(a.fs.Create(detached, EmptyFile(a.fs.clock)), detached, placeholder)
    ensures Isolable(a.fs.Create(detached, EmptyFile(a.fs.clock)), original, detached, placeholder, entry.snapshot)
    ensures a.fs.Create(detached, EmptyFile(a.fs.clock)).Links(entry.snapshot.id) == a.fs.Links(entry.snapshot.id)
  {
    PutLinks(a.fs.names, detached, a.fs.clock, entry.snapshot.id);
    var b := a.fs.Create(detached, EmptyFile(a.fs.clock));
    forall s <- b.names
      ensures entry.snapshot.kind == Directory ==> s.folder != entry.snapshot.id
    {
      assert (if s == detached then original else s) in a.fs.names;
    }
  }

  lemma UnhinderedBefore(a: World, m: World, b: World, expected: Snapshot, attempt: Attempt)
    requires Unhindered(m, b, expected, attempt)
    requires m.soft == a.soft && m.fs.Links(expected.id) == a.fs.Links(expected.id)
    ensures Unhindered(a, b, expected, attempt)
  {
  }

  lemma ReadyMeans(a: World, draw: nat -> Option<Name>, entry: Entry)
    requires Ready(a, draw, entry)
    ensures LeadsTo(a.fs, entry.path) && SlotAt(a.fs.names, entry.path).Some?
    ensures Roomy(a, draw, SlotAt(a.fs.names, entry.path).value.folder)
  {
  }

  /** An attempt that ended before there was a placeholder to isolate the entry with: nothing was made, or
      the placeholder that was made stays. */
  lemma StoppedEarly(a: World, b: World, entry: Entry, attempt: Attempt)
    requires a.Valid() && Evolved(a, b) && b.unlinked == a.unlinked
    requires if Tidy(attempt.outcome) then b.made == a.made && b.balked == a.balked
             else b.balked == a.balked + (b.made - a.made)
    requires !TargetRemoved(attempt.outcome) && !attempt.noLinkSurvived
    requires Quiet(a.script) && Tidy(attempt.outcome) ==> b.fs == a.fs
    ensures EntryLogged(a, b, entry.snapshot, attempt.outcome)
    ensures LinksKnown(a, b, entry.snapshot, attempt)
    ensures EntrySettled(a, b, entry, attempt.outcome)
  {
  }

  lemma LeftIsMade(a: World, m: World, b: World, draw: nat -> Option<Name>, folder: ObjId)
    requires m.Valid() && OwnKept(a, m) && Evolved(a, m) && LeftBehind(m, b, draw, folder)
    ensures b.balked == a.balked + (b.made - a.made)
  {
    var n: nat :| m.drawn <= n < b.drawn && draw(n).Some? && LeftAt(m, b, Slot(folder, draw(n).value));
    var p: ObjId :| LeftAs(m, b, Slot(folder, draw(n).value), p);
    assert b.made - a.made == {p};
  }

  /** The entry's name holds what was reviewed, and it can go. */
  ghost predicate EntryCanGo(fs: Fs, entry: Entry) {
    SlotAt(fs.names, entry.path).Some? && CanGo(fs, SlotAt(fs.names, entry.path).value, entry.snapshot)
  }

  /** What an outcome says of a quiet volume before the attempt. The entry was deleted only if its name held what
      was reviewed, and no folder with contents. It was missing only if its name was free. It changed only if its
      path led nowhere or its name held something else or more than was reviewed; or if its name was free but one
      of the private names drawn was that very name. A failure was a refused call's, or there was a file on the
      way, or no room for a placeholder; and an entry was left only at a closed gate. */
  ghost predicate Reasoned(a: World, b: World, draw: nat -> Option<Name>, entry: Entry, outcome: Outcome) {
    var s := SlotAt(a.fs.names, entry.path);
    Quiet(a.script) && entry.snapshot.id in a.fs.facts ==>
      match outcome
      case Deleted => EntryCanGo(a.fs, entry)
      case Missing => s.Some? && s.value !in a.fs.names
      case Changed =>
        && !EntryCanGo(a.fs, entry)
        && (s.Some? && s.value !in a.fs.names ==> Drawn(a, b, draw, s.value.name))
      case Unattempted => !Undenied(a.script)
      case Failed(trouble) =>
        && (trouble == DeletedCleanup ==> EntryCanGo(a.fs, entry))
        && (|| !Faultless(a.script)
            || (trouble == ParentUnreadable && Blocked(a.fs, entry.path))
            || (trouble == NoPlaceholder && s.Some? && !Roomy(a, draw, s.value.folder)))
  }

  lemma ReasonedEarly(a: World, b: World, draw: nat -> Option<Name>, entry: Entry, outcome: Outcome)
    requires outcome in {Changed, Unattempted, Failed(ParentUnreadable), Failed(NoPlaceholder), Failed(PlaceholderLeft)}
    requires Quiet(a.script) ==>
      match outcome
      case Changed => SlotAt(a.fs.names, entry.path) == None
      case Unattempted => !Undenied(a.script)
      case Failed(ParentUnreadable) => !Faultless(a.script) || Blocked(a.fs, entry.path)
      case Failed(NoPlaceholder) =>
        || !Faultless(a.script)
        || (SlotAt(a.fs.names, entry.path).Some? && !Roomy(a, draw, SlotAt(a.fs.names, entry.path).value.folder))
      case _ => !Faultless(a.script)
    ensures Reasoned(a, b, draw, entry, outcome)
  {
  }

  /** A placeholder under another name changes nothing of whether the entry can go. */
  lemma CreateCanGo(fs: Fs, original: Slot, detached: Slot, expected: Snapshot)
    requires fs.Valid() && detached !in fs.names && original.folder == detached.folder && fs.IsFolder(detached.folder)
    requires expected.id in fs.facts
    ensures CanGo(fs.Create(detached, EmptyFile(fs.clock)), original, expected) <==> CanGo(fs, original, expected)
  {
    var now := fs.Create(detached, EmptyFile(fs.clock));
    assert now.names == fs.names[detached := fs.clock];
    if original in fs.names && fs.names[original] == expected.id {
      assert fs.HasChildren(expected.id) <==> now.HasChildren(expected.id) by {
        if fs.HasChildren(expected.id) {
          var s :| s in fs.names && s.folder == expected.id;
          assert s in now.names;
        }
        if now.HasChildren(expected.id) {
          var s :| s in now.names && s.folder == expected.id;
          assert (if s == detached then original else s) in fs.names;
        }
      }
    }
  }

  lemma ReasonedFrom(a: World, m: World, b: World, draw: nat -> Option<Name>, entry: Entry, original: Slot, detached: Slot,
                     placeholder: Snapshot, outcome: Outcome)
    requires a.Valid() && Evolved(a, m)
    requires Ruled(m, original, detached, placeholder, entry.snapshot, outcome)
    requires original.folder == detached.folder && placeholder.id !in a.fs.facts && Drawn(a, b, draw, detached.name)
    requires Quiet(a.script) ==>
      && SlotAt(a.fs.names, entry.path) == Some(original) && a.fs.IsFolder(detached.folder)
      && detached !in a.fs.names && m.fs == a.fs.Create(detached, EmptyFile(a.fs.clock))
      && Shows(m.fs, detached, placeholder)
    ensures Reasoned(a, b, draw, entry, outcome)
  {
    if Quiet(a.script) && entry.snapshot.id in a.fs.facts {
      CreateCanGo(a.fs, original, detached, entry.snapshot);
      hide CanGo, Drawn, Roomy, Shows;
      assert m.fs.names == a.fs.names[detached := a.fs.clock];
    }
  }

  lemma SameRoom(a: World, b: World, draw: nat -> Option<Name>, folder: ObjId)
    requires a.drawn == b.drawn
    ensures a.fs == b.fs ==> Roomy(a, draw, folder) == Roomy(b, draw, folder)
  {
  }

  /** Where no call is refused, no gate closed, and there is room for a placeholder under another name than the
      entry's, the outcome is what the entry's name says: deleted exactly if it holds what was reviewed and can
      go, missing exactly if it is free, and changed otherwise. */
  lemma OutcomeExactly(a: World, b: World, draw: nat -> Option<Name>, entry: Entry, outcome: Outcome)
    requires Reasoned(a, b, draw, entry, outcome) && entry.snapshot.id in a.fs.facts
    requires Quiet(a.script) && Faultless(a.script) && Undenied(a.script)
    requires SlotAt(a.fs.names, entry.path).Some? && !Blocked(a.fs, entry.path)
    requires Roomy(a, draw, SlotAt(a.fs.names, entry.path).value.folder)
    requires !Drawn(a, b, draw, SlotAt(a.fs.names, entry.path).value.name)
    ensures outcome == if SlotAt(a.fs.names, entry.path).value !in a.fs.names then Missing
                       else if EntryCanGo(a.fs, entry) then Deleted else Changed
  {
  }

  lemma DrawnBetween(a: World, m: World, c: World, b: World, draw: nat -> Option<Name>, name: Name)
    requires Drawn(m, c, draw, name) && Evolved(a, m) && Evolved(c, b)
    ensures Drawn(a, b, draw, name)
  {
  }

  /** The rest of an attempt, once the placeholder is made in the entry's folder. */
  method ExecuteWith(v: Volume, entry: Entry, folder: ObjId, name: Name, placeholder: Snapshot, ghost start: World,
                     ghost before: World)
    returns (a: Attempt)
    requires start.Valid() && v.w.Valid() && entry.path != [] && placeholder.kind == File && v.w.fs.IsFolder(folder)
    requires Evolved(start, before) && OwnKept(start, before) && Evolved(before, v.w) && Evolved(start, v.w)
    requires v.w.unlinked == before.unlinked && placeholder.id !in before.fs.facts
    requires v.w.made == before.made + {placeholder.id} && v.w.balked == before.balked
    requires Drawn(before, v.w, v.draw, name)
    requires Quiet(start.script) ==>
      && before.fs == start.fs && start.fs.IsFolder(folder)
      && SlotAt(start.fs.names, entry.path) == Some(Slot(folder, entry.path[|entry.path| - 1]))
      && IsMade(start.fs, v.w.fs, Slot(folder, name)) && placeholder.id == start.fs.clock
      && Shows(v.w.fs, Slot(folder, name), placeholder)
    requires Clean(start.script) ==> v.w.soft == start.soft
    modifies v
    ensures v.w.Valid() && Evolved(start, v.w)
    ensures EntryLogged(start, v.w, entry.snapshot, a.outcome)
    ensures LinksKnown(start, v.w, entry.snapshot, a)
    ensures EntrySettled(start, v.w, entry, a.outcome)
    ensures Reasoned(start, v.w, v.draw, entry, a.outcome)
    ensures a.refused <==> ExchangeRefused(a.outcome)
    ensures a.outcome == Failed(CancelCleanup) ==> v.w.soft
    ensures Clean(start.script) && Ready(start, v.draw, entry) ==> Unhindered(start, v.w, entry.snapshot, a)
  {
    hide Bound, FactsKept, Fs.Valid, World.Valid, Evolved, Fs.Stat, AsReviewed, Ready, Quiet, Clean, Faultless;
    hide Undenied, Reasoned, Ruled, Roomy, Drawn, Resolve, Shows;
    hide EntryLogged, LinksKnown, EntrySettled, Unhindered, Logged, Concluded, Isolable;
    Evolution();
    ghost var created := v.w;
    ghost var ready := Clean(start.script) && Ready(start, v.draw, entry);
    var original, detached := Slot(folder, entry.path[|entry.path| - 1]), Slot(folder, name);
    if placeholder.id in start.fs.facts { FoldersStay(start, before, placeholder.id); }
    if ready { PlaceholderIsolable(start, v.draw, entry, original, detached, placeholder); }
    a := RemoveBehindPlaceholder(v, original, detached, placeholder, entry.snapshot);
    if ready { UnhinderedBefore(start, created, v.w, entry.snapshot, a); }
    DrawnBetween(start, before, created, v.w, v.draw, detached.name);
    ReasonedFrom(start, created, v.w, v.draw, entry, original, detached, placeholder, a.outcome);
    EntryLoggedFrom(start, created, v.w, entry.snapshot, placeholder.id, a.outcome);
    LinksKnownBefore(start, created, v.w, entry.snapshot, a);
    assert Quiet(start.script) ==> created.fs.names == start.fs.names[detached := placeholder.id];
    EntrySettledFrom(start, created, v.w, entry, original, detached, placeholder, a.outcome);
  }

  /** One entry, from opening its folder to its outcome. */
  method ExecuteEntry(v: Volume, entry: Entry) returns (a: Attempt)
    requires v.w.Valid() && entry.path != []
    modifies v
    ensures v.w.Valid() && Evolved(old(v.w), v.w)
    ensures EntryLogged(old(v.w), v.w, entry.snapshot, a.outcome)
    ensures LinksKnown(old(v.w), v.w, entry.snapshot, a)
    ensures EntrySettled(old(v.w), v.w, entry, a.outcome)
    ensures Reasoned(old(v.w), v.w, v.draw, entry, a.outcome)
    ensures a.refused <==> ExchangeRefused(a.outcome)
    ensures Upcoming(After(old(v.w).script, |entry.path| - 1)).deny ==>
      && a.outcome in {Unattempted, Changed, Failed(ParentUnreadable)}
      && v.w.made == old(v.w).made && v.w.unlinked == old(v.w).unlinked
    ensures a.outcome == Failed(CancelCleanup) ==> v.w.soft
    ensures Clean(old(v.w).script) && Ready(old(v.w), v.draw, entry) ==>
      Unhindered(old(v.w), v.w, entry.snapshot, a)
  {
    hide Bound, FactsKept, Fs.Valid, World.Valid, Evolved, Fs.Stat, AsReviewed, Ready, Quiet, Clean, Faultless;
    hide Undenied;
    hide Reasoned, Ruled, Blocked, Roomy, Drawn;
    hide EntryLogged, LinksKnown, EntrySettled, Unhindered, Logged, Concluded, Isolable, Resolve, Shows, Blocked;
    hide FirstMakable, After, Upcoming, Later;
    Evolution();
    ghost var start := v.w;
    ghost var ready := Clean(start.script) && Ready(start, v.draw, entry);
    if ready { ReadyMeans(start, v.draw, entry); }
    var expected := entry.snapshot;
    var links := expected.links;
    var parent := OpenParent(v, entry.path);
    if parent.Err? {
      a := Attempt(if parent.error == NotFound then Changed else Failed(ParentUnreadable), links, false, false);
      ReasonedEarly(start, v.w, v.draw, entry, a.outcome);
      StoppedEarly(start, v.w, entry, a);
      return;
    }
    ghost var inside := v.w;
    var claimed := v.Gate();
    if !claimed {
      a := Attempt(Unattempted, links, false, false);
      ReasonedEarly(start, v.w, v.draw, entry, a.outcome);
      StoppedEarly(start, v.w, entry, a);
      return;
    }
    var folder := parent.value;
    ghost var gated := v.w;
    var made := CreatePlaceholder(v, folder);
    if made.Err? {
      if made.error == PlaceholderLeft { LeftIsMade(start, gated, v.w, v.draw, folder); }
      a := Attempt(Failed(made.error), links, false, false);
      SameRoom(start, gated, v.draw, folder);
      ReasonedEarly(start, v.w, v.draw, entry, a.outcome);
      StoppedEarly(start, v.w, entry, a);
      return;
    }
    FoldersStay(inside, v.w, folder);
    a := ExecuteWith(v, entry, folder, made.value.0, made.value.1, start, gated);
  }
}
