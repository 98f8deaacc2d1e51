/** A file system as the deletion executor meets it: names bound to objects, other processes that
    change it between any two of the executor's system calls, and system calls that may fail. */
module FileSystem {
  import opened Outcomes

  type Name = string

  /** A device and inode pair. An identifier is never given to a second object. */
  type ObjId = nat

  const ROOT: ObjId := 0

  datatype Kind = Directory | File | Link

  datatype Slot = Slot(folder: ObjId, name: Name)

  datatype Facts = Facts(kind: Kind, reparse: bool, apparent: nat, blocks: Option<nat>, modified: Option<nat>)

  /** A link count as the system reports it. */
  type LinkCount = n: nat | n <= U64_MAX

  datatype Snapshot = Snapshot(id: ObjId, reparse: bool, links: Option<LinkCount>, kind: Kind, apparent: nat,
                               blocks: Option<nat>, modified: Option<nat>)

  type Names = map<Slot, ObjId>

  predicate Bound(names: Names, o: ObjId) {
    exists s <- names :: names[s] == o
  }

  function SlotsOf(names: Names, o: ObjId): set<Slot> {
    set s | s in names && names[s] == o
  }

  function Swapped(names: Names, a: Slot, b: Slot): Names
    requires a in names && b in names
  {
    names[a := names[b]][b := names[a]]
  }

  function Rebound(names: Names, from: Slot, to: Slot): Names
    requires from in names
  {
    (names - {from})[to := names[from]]
  }

  /** `clock` only grows: it gives every change its own time and every new object its own number. */
  datatype Fs = Fs(names: Names, facts: map<ObjId, Facts>, clock: nat)
  {
    predicate IsFolder(o: ObjId) {
      o in facts && facts[o].kind == Directory
    }

    ghost predicate Valid() {
      && IsFolder(ROOT)
      && (forall o <- facts :: o < clock)
      && Fits(names)
    }

    /** Names that could be this volume's: in folders, of objects it knows, none of them the root. */
    ghost predicate Fits(now: Names) {
      forall s <- now :: IsFolder(s.folder) && now[s] in facts && now[s] != ROOT
    }

    function Links(o: ObjId): nat {
      |SlotsOf(names, o)|
    }

    function Reported(o: ObjId): LinkCount {
      if Links(o) > U64_MAX then U64_MAX else Links(o)
    }

    predicate Named(o: ObjId) {
      Bound(names, o)
    }

    predicate HasChildren(o: ObjId) {
      exists s <- names :: s.folder == o
    }

    predicate Live(o: ObjId) {
      o == ROOT || Named(o)
    }

    /** What a stat of the object reports. The link count of a folder is not modelled. */
    function Look(o: ObjId): Snapshot
      requires o in facts
    {
      var f := facts[o];
      Snapshot(o, f.reparse, if f.kind == Directory then None else Some(Reported(o)),
               f.kind, f.apparent, f.blocks, f.modified)
    }

    function Stat(s: Slot): Snapshot
      requires s in names && names[s] in facts
    {
      Look(names[s])
    }

    /** The volume with other names, made in or taken from `folder`: changing a folder's names moves
        the folder's own modification time. */
    function With(now: Names, folder: ObjId): Fs {
      if folder in facts
      then Fs(now, facts[folder := facts[folder].(modified := Some(clock))], clock + 1)
      else Fs(now, facts, clock)
    }

    function Put(s: Slot, o: ObjId): Fs {
      With(names[s := o], s.folder)
    }

    function Create(s: Slot, f: Facts): Fs {
      Fs(names, facts[clock := f], clock + 1).Put(s, clock)
    }

    function Drop(s: Slot): Fs {
      With(names - {s}, s.folder)
    }

    function Swap(a: Slot, b: Slot): Fs
      requires a in names && b in names
    {
      With(Swapped(names, a, b), a.folder)
    }

    function Rebind(from: Slot, to: Slot): Fs
      requires from in names
    {
      With(Rebound(names, from, to), to.folder)
    }
  }

  /** The facts that no system call of the executor changes: everything but a folder's own
      modification time. */
  ghost predicate FactsKept(a: Fs, b: Fs) {
    forall o <- a.facts :: o in b.facts && b.facts[o] == a.facts[o].(modified := b.facts[o].modified) &&
      (a.facts[o].kind != Directory ==> b.facts[o] == a.facts[o])
  }

  /** No object is forgotten, and none becomes another kind of object. */
  ghost predicate KindsKept(a: Fs, b: Fs) {
    a.facts.Keys <= b.facts.Keys && forall o <- a.facts :: b.facts[o].kind == a.facts[o].kind
  }

  lemma WithKeeps(fs: Fs, now: Names, folder: ObjId)
    requires fs.Valid() && fs.IsFolder(folder) && fs.Fits(now)
    ensures fs.With(now, folder).Valid() && KindsKept(fs, fs.With(now, folder))
    ensures FactsKept(fs, fs.With(now, folder)) && fs.With(now, folder).facts.Keys == fs.facts.Keys
    ensures fs.With(now, folder).names == now
  {
  }

  lemma HeldIsBound(names: Names, s: Slot)
    requires s in names
    ensures Bound(names, names[s])
  {
  }

  lemma PutNames(names: Names, s: Slot, o: ObjId, p: ObjId)
    requires s !in names
    ensures Bound(names[s := o], p) <==> Bound(names, p) || p == o
  {
    assert names[s := o][s] == o;
    if Bound(names, p) {
      var k :| k in names && names[k] == p;
      assert names[s := o][k] == p;
    }
  }

  lemma DropNames(names: Names, s: Slot, p: ObjId)
    requires s in names
    ensures Bound(names - {s}, p) ==> Bound(names, p)
    ensures p != names[s] ==> (Bound(names - {s}, p) <==> Bound(names, p))
  {
    if Bound(names, p) && p != names[s] {
      var k :| k in names && names[k] == p;
      assert (names - {s})[k] == p;
    }
  }

  /** Moving a name to a free one loses no object. */
  lemma RebindNames(names: Names, from: Slot, to: Slot, p: ObjId)
    requires from in names && to !in names
    ensures Bound(Rebound(names, from, to), p) <==> Bound(names, p)
  {
    var t := Rebound(names, from, to);
    assert t[to] == names[from];
    if Bound(names, p) {
      var k :| k in names && names[k] == p;
      assert if k == from then t[to] == p else t[k] == p;
    }
    if Bound(t, p) {
      var k :| k in t && t[k] == p;
      assert if k == to then names[from] == p else names[k] == p;
    }
  }

  /** Exchanging two names loses no object. */
  lemma SwapNames(names: Names, a: Slot, b: Slot, p: ObjId)
    requires a in names && b in names
    ensures Bound(Swapped(names, a, b), p) <==> Bound(names, p)
  {
    var t := Swapped(names, a, b);
    if Bound(names, p) {
      var k :| k in names && names[k] == p;
      assert t[if k == a then b else if k == b then a else k] == p;
    }
    if Bound(t, p) {
      var k :| k in t && t[k] == p;
      assert names[if k == a then b else if k == b then a else k] == p;
    }
  }

  /** Nor does it change how many names an object has. */
  lemma SwapLinks(names: Names, a: Slot, b: Slot, p: ObjId)
    requires a in names && b in names
    ensures |SlotsOf(Swapped(names, a, b), p)| == |SlotsOf(names, p)|
  {
    if names[a] == names[b] {
      assert Swapped(names, a, b) == names;
    } else if p == names[a] {
      SwapSlots(names, a, b);
    } else if p == names[b] {
      assert Swapped(names, a, b) == Swapped(names, b, a);
      SwapSlots(names, b, a);
    } else {
      assert SlotsOf(Swapped(names, a, b), p) == SlotsOf(names, p);
    }
  }

  lemma DropLinks(names: Names, s: Slot, p: ObjId)
    requires s in names
    ensures |SlotsOf(names - {s}, p)| == |SlotsOf(names, p)| - (if p == names[s] then 1 else 0)
  {
    assert s in SlotsOf(names, names[s]);
    assert SlotsOf(names - {s}, p) == SlotsOf(names, p) - {s};
  }

  lemma PutLinks(names: Names, s: Slot, o: ObjId, p: ObjId)
    requires s !in names
    ensures |SlotsOf(names[s := o], p)| == |SlotsOf(names, p)| + (if p == o then 1 else 0)
  {
    assert SlotsOf(names[s := o], p) == SlotsOf(names, p) + (if p == o then {s} else {});
  }

  lemma RebindLinks(names: Names, from: Slot, to: Slot)
    requires from in names && to !in names
    ensures |SlotsOf(Rebound(names, from, to), names[from])| == |SlotsOf(names, names[from])|
  {
    assert SlotsOf(Rebound(names, from, to), names[from]) == SlotsOf(names, names[from]) - {from} + {to};
  }

  lemma SwapSlots(names: Names, a: Slot, b: Slot)
    requires a in names && b in names && names[a] != names[b]
    ensures SlotsOf(Swapped(names, a, b), names[a]) == SlotsOf(names, names[a]) - {a} + {b}
    ensures |SlotsOf(Swapped(names, a, b), names[a])| == |SlotsOf(names, names[a])|
  {
    assert SlotsOf(Swapped(names, a, b), names[a]) == SlotsOf(names, names[a]) - {a} + {b};
  }

  /** A move of another process. One that does not apply to the volume as it is changes nothing. */
  datatype Move =
    | Make(slot: Slot, facts: Facts)
    | Remove(slot: Slot)
    | AddLink(from: Slot, to: Slot)
    | Rename(from: Slot, to: Slot)
    | Exchange(left: Slot, right: Slot)
    | Edit(id: ObjId, facts: Facts)

  datatype Fault = Refused | Taken

  /** What happens just before one system call, and whether the system refuses the call itself.
      `soft` and `hard` are cancellations asked for by then; `deny` is the answer of a gate. */
  datatype Step = Step(moves: seq<Move>, fault: Option<Fault>, soft: bool, hard: bool, deny: bool)

  function Idle(): Step {
    Step([], None, false, false, false)
  }

  ghost predicate Quiet(script: seq<Step>) {
    forall i | 0 <= i < |script| :: script[i].moves == []
  }

  /** The system refuses no call. */
  ghost predicate Faultless(script: seq<Step>) {
    forall i | 0 <= i < |script| :: script[i].fault.None?
  }

  /** No gate is closed. */
  ghost predicate Undenied(script: seq<Step>) {
    forall i | 0 <= i < |script| :: !script[i].deny
  }

  ghost predicate Clean(script: seq<Step>) {
    forall i | 0 <= i < |script| :: script[i] == Idle()
  }

  /** The volume with what has happened to its objects: the ones the executor made, what each of its
      unlinks removed, the objects whose last name another process or the executor took, and the made ones
      for which the system refused a step of their making or clearing away. */
  datatype World = World(fs: Fs, made: set<ObjId>, unlinked: seq<Snapshot>, envFreed: set<ObjId>,
                         ownFreed: set<ObjId>, balked: set<ObjId>, script: seq<Step>, soft: bool, hard: bool,
                         drawn: nat)
  {
    ghost predicate Valid() {
      && fs.Valid()
      && made <= fs.facts.Keys && ROOT !in made
      && OnRecord(ownFreed, unlinked)
      && Accounted(fs.names, fs.facts.Keys, envFreed, ownFreed)
    }
  }

  ghost predicate OnRecord(freed: set<ObjId>, unlinked: seq<Snapshot>) {
    forall o <- freed :: exists r <- unlinked :: r.id == o
  }

  /** No object is lost: it has a name exactly while neither side took its last one. */
  ghost predicate Accounted(names: Names, known: set<ObjId>, others: set<ObjId>, own: set<ObjId>) {
    && others <= known && own <= known
    && forall o <- known :: o != ROOT ==> (Bound(names, o) <==> o !in others && o !in own)
  }

  /** What any run of the executor, whatever else happens on the volume, keeps of the past. */
  ghost predicate Evolved(a: World, b: World) {
    && b.Valid()
    && KindsKept(a.fs, b.fs)
    && a.made <= b.made && a.made == b.made * a.fs.facts.Keys
    && a.unlinked <= b.unlinked
    && a.envFreed <= b.envFreed && a.ownFreed <= b.ownFreed
    && a.balked <= b.balked && (a.soft ==> b.soft) && (a.hard ==> b.hard) && a.drawn <= b.drawn
    && (Quiet(a.script) ==> Quiet(b.script) && FactsKept(a.fs, b.fs) && a.envFreed == b.envFreed)
    && (Clean(a.script) ==> Clean(b.script) && a.hard == b.hard)
    && (Faultless(a.script) ==> Faultless(b.script)) && (Undenied(a.script) ==> Undenied(b.script))
  }

  /** An object without a name never gets one again. */
  lemma GoneStaysGone(a: World, b: World, o: ObjId)
    requires a.Valid() && Evolved(a, b) && o in a.fs.facts && o != ROOT
    ensures b.fs.Named(o) ==> a.fs.Named(o)
  {
  }

  function FreedByOthers(w: World, o: ObjId): World {
    if w.fs.Named(o) then w else w.(envFreed := w.envFreed + {o})
  }

  function FreedBySelf(w: World, o: ObjId): World {
    if w.fs.Named(o) then w else w.(ownFreed := w.ownFreed + {o})
  }

  function Removed(w: World, s: Slot): World
    requires s in w.fs.names
  {
    FreedByOthers(w.(fs := w.fs.Drop(s)), w.fs.names[s])
  }

  function Apply(w: World, move: Move): World {
    match move
    case Make(s, facts) =>
      if w.fs.IsFolder(s.folder) && s !in w.fs.names then w.(fs := w.fs.Create(s, facts)) else w
    case Remove(s) =>
      if s in w.fs.names && !w.fs.HasChildren(w.fs.names[s]) then Removed(w, s) else w
    case AddLink(s, t) =>
      if s in w.fs.names && !w.fs.IsFolder(w.fs.names[s]) && t !in w.fs.names && w.fs.IsFolder(t.folder)
      then w.(fs := w.fs.Put(t, w.fs.names[s])) else w
    case Rename(s, t) =>
      if s !in w.fs.names || s == t || !w.fs.IsFolder(t.folder) then w
      else if t !in w.fs.names then w.(fs := w.fs.Rebind(s, t))
      else if w.fs.HasChildren(w.fs.names[t]) then w
      else var v := Removed(w, t); v.(fs := v.fs.Rebind(s, t))
    case Exchange(s, t) =>
      if s in w.fs.names && t in w.fs.names then w.(fs := w.fs.Swap(s, t)) else w
    case Edit(id, facts) =>
      if id in w.fs.facts && facts.kind == w.fs.facts[id].kind
      then w.(fs := w.fs.(facts := w.fs.facts[id := facts])) else w
  }

  /** The executor's own history is the same in two worlds. */
  ghost predicate OwnKept(a: World, b: World) {
    && a.made == b.made && a.unlinked == b.unlinked && a.ownFreed == b.ownFreed && a.drawn == b.drawn
    && a.balked == b.balked
  }

  ghost predicate Disturbed(a: World, b: World) {
    && b.Valid() && OwnKept(a, b) && KindsKept(a.fs, b.fs) && a.envFreed <= b.envFreed
    && a.script == b.script && a.soft == b.soft && a.hard == b.hard
  }

  /** Another set of names for the same objects. */
  lemma RenamedKeeps(w: World, now: Names, folder: ObjId)
    requires w.Valid() && w.fs.IsFolder(folder) && w.fs.Fits(now)
    requires forall o <- w.fs.facts :: Bound(now, o) == Bound(w.fs.names, o)
    ensures Disturbed(w, w.(fs := w.fs.With(now, folder)))
    ensures FactsKept(w.fs, w.fs.With(now, folder))
  {
    hide Bound, Fs.Valid, KindsKept, Fs.Fits, FactsKept;
    WithKeeps(w.fs, now, folder);
  }

  lemma RebindKeeps(w: World, s: Slot, t: Slot)
    requires w.Valid() && s in w.fs.names && t !in w.fs.names && w.fs.IsFolder(t.folder)
    ensures Disturbed(w, w.(fs := w.fs.Rebind(s, t))) && FactsKept(w.fs, w.fs.Rebind(s, t))
  {
    hide Bound;
    var now := Rebound(w.fs.names, s, t);
    forall p { RebindNames(w.fs.names, s, t, p); }
    RenamedKeeps(w, now, t.folder);
  }

  lemma LinkKeeps(w: World, s: Slot, t: Slot)
    requires w.Valid() && s in w.fs.names && t !in w.fs.names && w.fs.IsFolder(t.folder)
    ensures Disturbed(w, w.(fs := w.fs.Put(t, w.fs.names[s])))
  {
    hide Bound;
    var now := w.fs.names[t := w.fs.names[s]];
    HeldIsBound(w.fs.names, s);
    forall p { PutNames(w.fs.names, t, w.fs.names[s], p); }
    RenamedKeeps(w, now, t.folder);
  }

  lemma SwapKeeps(w: World, s: Slot, t: Slot)
    requires w.Valid() && s in w.fs.names && t in w.fs.names
    ensures Disturbed(w, w.(fs := w.fs.Swap(s, t))) && FactsKept(w.fs, w.fs.Swap(s, t))
  {
    hide Bound;
    var now := Swapped(w.fs.names, s, t);
    forall p { SwapNames(w.fs.names, s, t, p); }
    RenamedKeeps(w, now, s.folder);
  }

  /** A name is taken away: only its object can lose its last one. */
  lemma DropAccounted(names: Names, s: Slot, known: set<ObjId>, others: set<ObjId>, own: set<ObjId>)
    requires s in names && names[s] in known && names[s] != ROOT && Accounted(names, known, others, own)
    ensures names[s] !in others && names[s] !in own
    ensures Bound(names - {s}, names[s]) ==> Accounted(names - {s}, known, others, own)
    ensures !Bound(names - {s}, names[s]) ==>
      && Accounted(names - {s}, known, others + {names[s]}, own)
      && Accounted(names - {s}, known, others, own + {names[s]})
  {
    hide Bound;
    HeldIsBound(names, s);
    forall p { DropNames(names, s, p); }
  }

  /** What is known of a name that is there. */
  lemma HeldFacts(fs: Fs, s: Slot)
    requires fs.Valid() && s in fs.names
    ensures fs.names[s] in fs.facts && fs.names[s] != ROOT && fs.IsFolder(s.folder)
    ensures fs.Fits(fs.names - {s})
  {
  }

  lemma RemovedKeeps(w: World, s: Slot)
    requires w.Valid() && s in w.fs.names
    ensures Disturbed(w, Removed(w, s)) && Removed(w, s).fs == w.fs.Drop(s)
  {
    hide Bound, Fs.Valid, KindsKept, Fs.Fits, FactsKept, Accounted, OnRecord, Fs.With;
    HeldFacts(w.fs, s);
    WithKeeps(w.fs, w.fs.names - {s}, s.folder);
    DropAccounted(w.fs.names, s, w.fs.facts.Keys, w.envFreed, w.ownFreed);
  }

  lemma CreateAccounted(names: Names, s: Slot, o: ObjId, known: set<ObjId>, others: set<ObjId>, own: set<ObjId>)
    requires s !in names && o !in known && Accounted(names, known, others, own)
    ensures Accounted(names[s := o], known + {o}, others, own)
  {
    hide Bound;
    forall p <- known + {o}
      ensures p != ROOT ==> (Bound(names[s := o], p) <==> p !in others && p !in own)
    {
      PutNames(names, s, o, p);
    }
  }

  lemma CreateKeeps(w: World, s: Slot, facts: Facts)
    requires w.Valid() && w.fs.IsFolder(s.folder) && s !in w.fs.names
    ensures w.fs.clock !in w.fs.facts
    ensures Disturbed(w, w.(fs := w.fs.Create(s, facts))) && FactsKept(w.fs, w.fs.Create(s, facts))
  {
    hide Bound, Fs.Valid, KindsKept, Fs.Fits, FactsKept, Accounted, OnRecord, Fs.With;
    var o, names := w.fs.clock, w.fs.names[s := w.fs.clock];
    var known := Fs(w.fs.names, w.fs.facts[o := facts], o + 1);
    NewObject(w.fs, s, facts);
    WithKeeps(known, names, s.folder);
    FactsKeptTwice(w.fs, known, known.With(names, s.folder));
    KindsKeptTwice(w.fs, known, known.With(names, s.folder));
    CreateAccounted(w.fs.names, s, o, w.fs.facts.Keys, w.envFreed, w.ownFreed);
  }

  lemma NewObject(fs: Fs, s: Slot, facts: Facts)
    requires fs.Valid() && fs.IsFolder(s.folder) && s !in fs.names
    ensures fs.clock !in fs.facts
    ensures var known := Fs(fs.names, fs.facts[fs.clock := facts], fs.clock + 1);
            && known.Valid() && known.Fits(fs.names[s := fs.clock]) && known.IsFolder(s.folder)
            && KindsKept(fs, known) && FactsKept(fs, known) && known.facts.Keys == fs.facts.Keys + {fs.clock}
  {
  }

  lemma KindsKeptTwice(a: Fs, b: Fs, c: Fs)
    requires KindsKept(a, b) && KindsKept(b, c)
    ensures KindsKept(a, c)
  {
  }

  /** Whatever another process does, no object is lost. */
  lemma MoveDisturbs(w: World, move: Move)
    requires w.Valid()
    ensures Disturbed(w, Apply(w, move))
  {
    hide Bound, World.Valid, Fs.With, Swapped, Rebound;
    match move
    case Make(s, facts) => if w.fs.IsFolder(s.folder) && s !in w.fs.names { CreateKeeps(w, s, facts); }
    case Remove(s) => if s in w.fs.names { RemovedKeeps(w, s); }
    case AddLink(s, t) =>
      if s in w.fs.names && t !in w.fs.names && w.fs.IsFolder(t.folder) { LinkKeeps(w, s, t); }
    case Rename(s, t) => RenameDisturbs(w, s, t);
    case Exchange(s, t) => if s in w.fs.names && t in w.fs.names { SwapKeeps(w, s, t); }
    case Edit(id, facts) => EditDisturbs(w, id, facts);
  }

  lemma RenameDisturbs(w: World, s: Slot, t: Slot)
    requires w.Valid()
    ensures Disturbed(w, Apply(w, Rename(s, t)))
  {
    hide Bound, World.Valid, Rebound;
    if s in w.fs.names && s != t && w.fs.IsFolder(t.folder) {
      if t !in w.fs.names {
        RebindKeeps(w, s, t);
      } else if !w.fs.HasChildren(w.fs.names[t]) {
        RemovedKeeps(w, t);
        RebindKeeps(Removed(w, t), s, t);
      }
    }
  }

  lemma EditDisturbs(w: World, id: ObjId, facts: Facts)
    requires w.Valid()
    ensures Disturbed(w, Apply(w, Edit(id, facts)))
  {
    hide Bound, Accounted;
    var v := Apply(w, Edit(id, facts));
    assert v.fs.facts.Keys == w.fs.facts.Keys;
    assert v.fs.Valid();
  }

  /** The name keeps its object, and the object what the executor compares of it. */
  predicate Spares(a: Fs, b: Fs, s: Slot) {
    s in a.names && a.names[s] in a.facts ==>
      && s in b.names && b.names[s] == a.names[s] && a.names[s] in b.facts
      && SameContent(a.facts[a.names[s]], b.facts[a.names[s]])
  }

  predicate SameContent(a: Facts, b: Facts) {
    a == b.(modified := a.modified) && (a.kind != Directory ==> a == b)
  }

  /** The moves made in one gap, without those that would take the guarded name from its object or
      edit the object. Other names of it may still be made and removed. */
  function Play(w: World, moves: seq<Move>, guard: Option<Slot>): World
    decreases |moves|
  {
    if moves == [] then w else
      var v := Apply(w, moves[0]);
      Play(if guard.None? || Spares(w.fs, v.fs, guard.value) then v else w, moves[1..], guard)
  }

  lemma PlayDisturbs(w: World, moves: seq<Move>, guard: Option<Slot>)
    requires w.Valid()
    ensures Disturbed(w, Play(w, moves, guard))
    ensures guard.Some? ==> Spares(w.fs, Play(w, moves, guard).fs, guard.value)
    decreases |moves|
  {
    hide Bound;
    if moves != [] {
      MoveDisturbs(w, moves[0]);
      var v := Apply(w, moves[0]);
      PlayDisturbs(if guard.None? || Spares(w.fs, v.fs, guard.value) then v else w, moves[1..], guard);
    }
  }

  /** The world after one gap. */
  function Passed(w: World, guard: Option<Slot>): World {
    var step := Upcoming(w.script);
    Play(w, step.moves, guard).(script := Later(w.script),
                                soft := w.soft || step.soft, hard := w.hard || step.hard)
  }

  lemma PassedEvolves(w: World, guard: Option<Slot>)
    requires w.Valid()
    ensures Passed(w, guard).Valid() && Evolved(w, Passed(w, guard)) && OwnKept(w, Passed(w, guard))
    ensures guard.Some? ==> Spares(w.fs, Passed(w, guard).fs, guard.value)
    ensures Quiet(w.script) ==> Passed(w, guard).fs == w.fs
    ensures Clean(w.script) ==> Upcoming(w.script) == Idle()
    ensures Clean(w.script) ==> Passed(w, guard).soft == w.soft
    ensures Passed(w, guard).script == Later(w.script)
    ensures Upcoming(w.script).fault.Some? ==> !Faultless(w.script)
    ensures Upcoming(w.script).deny ==> !Undenied(w.script)
  {
    hide Bound, Spares;
    var step := Upcoming(w.script);
    PlayDisturbs(w, step.moves, guard);
    assert Quiet(w.script) ==> Play(w, step.moves, guard) == w;
  }

  /** One change of the names by the executor. */
  lemma ChangeEvolves(a: World, b: World)
    requires a.Valid() && Disturbed(a, b) && FactsKept(a.fs, b.fs) && a.envFreed == b.envFreed
    ensures Evolved(a, b)
  {
    hide Bound, Fs.Valid;
  }

  lemma EvolvedTwice(a: World, b: World, c: World)
    requires a.Valid() && Evolved(a, b) && Evolved(b, c)
    ensures Evolved(a, c)
  {
    hide Bound, Fs.Valid;
    if Quiet(a.script) {
      FactsKeptTwice(a.fs, b.fs, c.fs);
    }
  }

  lemma EvolvedSelf(a: World)
    requires a.Valid()
    ensures Evolved(a, a)
  {
  }

  /** That is a preorder; what follows from it without its details. */
  lemma Evolution()
    ensures forall a: World {:trigger Evolved(a, a)} :: a.Valid() ==> Evolved(a, a)
    ensures forall a: World, b: World, c: World {:trigger Evolved(a, b), Evolved(b, c)} ::
      a.Valid() && Evolved(a, b) && Evolved(b, c) ==> Evolved(a, c)
    ensures forall script {:trigger Clean(script)} :: Clean(script) ==> Quiet(script) && Faultless(script)
    ensures forall a: World, b: World {:trigger Evolved(a, b)} :: Evolved(a, b) ==>
      && b.Valid() && (Quiet(a.script) ==> Quiet(b.script)) && (Clean(a.script) ==> Clean(b.script))
      && (Faultless(a.script) ==> Faultless(b.script)) && (Undenied(a.script) ==> Undenied(b.script))
  {
    forall a: World | a.Valid() ensures Evolved(a, a) {
      EvolvedSelf(a);
    }
    forall script: seq<Step> | Clean(script) ensures Quiet(script) && Faultless(script) {
    }
    hide Bound, Fs.Valid, FactsKept, Quiet, Clean, Faultless, Undenied;
    forall a: World, b: World, c: World | a.Valid() && Evolved(a, b) && Evolved(b, c)
      ensures Evolved(a, c)
    {
      EvolvedTwice(a, b, c);
    }
  }

  lemma FoldersStay(a: World, b: World, o: ObjId)
    requires Evolved(a, b) && o in a.fs.facts
    ensures o in b.fs.facts && b.fs.facts[o].kind == a.fs.facts[o].kind && b.fs.IsFolder(o) == a.fs.IsFolder(o)
  {
  }

  lemma FactsKeptTwice(a: Fs, b: Fs, c: Fs)
    requires FactsKept(a, b) && FactsKept(b, c)
    ensures FactsKept(a, c)
  {
  }

  lemma SwapEvolves(w: World, a: Slot, b: Slot)
    requires w.Valid() && a in w.fs.names && b in w.fs.names
    ensures Evolved(w, w.(fs := w.fs.Swap(a, b))) && OwnKept(w, w.(fs := w.fs.Swap(a, b)))
  {
    hide Bound, Swapped;
    SwapKeeps(w, a, b);
    ChangeEvolves(w, w.(fs := w.fs.Swap(a, b)));
  }

  lemma RebindEvolves(w: World, from: Slot, to: Slot)
    requires w.Valid() && from in w.fs.names && to !in w.fs.names && w.fs.IsFolder(to.folder)
    ensures Evolved(w, w.(fs := w.fs.Rebind(from, to))) && OwnKept(w, w.(fs := w.fs.Rebind(from, to)))
  {
    hide Bound, Rebound;
    RebindKeeps(w, from, to);
    ChangeEvolves(w, w.(fs := w.fs.Rebind(from, to)));
  }

  function EmptyFile(time: nat): Facts {
    Facts(File, false, 0, Some(0), Some(time))
  }

  /** The world once the executor has created a file. */
  function Created(w: World, s: Slot, facts: Facts): World {
    w.(fs := w.fs.Create(s, facts), made := w.made + {w.fs.clock})
  }

  lemma CreateEvolves(w: World, s: Slot, facts: Facts)
    requires w.Valid() && w.fs.IsFolder(s.folder) && s !in w.fs.names
    ensures Evolved(w, Created(w, s, facts))
    ensures w.fs.clock !in w.fs.facts && w.fs.clock != ROOT
    ensures s.folder != w.fs.clock && Created(w, s, facts).fs.facts[w.fs.clock] == facts
  {
    hide Bound, Fs.Named;
    CreateKeeps(w, s, facts);
  }

  /** The world once the executor has removed a name. */
  function Dropped(w: World, s: Slot): World
    requires s in w.fs.names && w.fs.names[s] in w.fs.facts
  {
    FreedBySelf(w.(fs := w.fs.Drop(s), unlinked := w.unlinked + [w.fs.Stat(s)]), w.fs.names[s])
  }

  /** The executor unlinked one name of `o`: what it removed is on record, and what the executor
      compares of the object was the same just before. */
  ghost predicate Unlinked(a: World, b: World, o: ObjId) {
    && o in a.fs.facts
    && |b.unlinked| == |a.unlinked| + 1 && a.unlinked == b.unlinked[..|a.unlinked|]
    && b.unlinked[|a.unlinked|].id == o
    && SameContent(a.fs.facts[o], ContentOf(b.unlinked[|a.unlinked|]))
    && b.made == a.made && b.drawn == a.drawn && b.balked == a.balked
    && b.ownFreed == if b.fs.Named(o) then a.ownFreed else a.ownFreed + {o}
  }

  function ContentOf(s: Snapshot): Facts {
    Facts(s.kind, s.reparse, s.apparent, s.blocks, s.modified)
  }

  lemma DropKeeps(w: World, s: Slot)
    requires w.Valid() && s in w.fs.names
    ensures w.fs.names[s] in w.fs.facts && Dropped(w, s).fs == w.fs.Drop(s) && Dropped(w, s).Valid()
    ensures KindsKept(w.fs, w.fs.Drop(s)) && FactsKept(w.fs, w.fs.Drop(s))
  {
    hide Bound, Fs.Valid, KindsKept, Fs.Fits, FactsKept, Accounted, Fs.Stat, OnRecord, Fs.With;
    HeldFacts(w.fs, s);
    StatContent(w.fs, s);
    RecordAppended(w.ownFreed, w.unlinked, w.fs.Stat(s));
    WithKeeps(w.fs, w.fs.names - {s}, s.folder);
    DropAccounted(w.fs.names, s, w.fs.facts.Keys, w.envFreed, w.ownFreed);
  }

  lemma RecordAppended(freed: set<ObjId>, unlinked: seq<Snapshot>, r: Snapshot)
    requires OnRecord(freed, unlinked)
    ensures OnRecord(freed, unlinked + [r]) && OnRecord(freed + {r.id}, unlinked + [r])
  {
    forall o <- freed + {r.id}
      ensures exists x <- unlinked + [r] :: x.id == o
    {
      if o == r.id {
        assert r in unlinked + [r];
      } else {
        var x :| x in unlinked && x.id == o;
        assert x in unlinked + [r];
      }
    }
  }

  lemma StatContent(fs: Fs, s: Slot)
    requires s in fs.names && fs.names[s] in fs.facts
    ensures fs.Stat(s).id == fs.names[s] && ContentOf(fs.Stat(s)) == fs.facts[fs.names[s]]
  {
  }

  lemma DropEvolves(w: World, s: Slot)
    requires w.Valid() && s in w.fs.names
    ensures w.fs.names[s] in w.fs.facts && Dropped(w, s).fs == w.fs.Drop(s)
    ensures Evolved(w, Dropped(w, s)) && Unlinked(w, Dropped(w, s), w.fs.names[s])
  {
    hide Bound, Fs.Valid, Fs.Stat, FactsKept, KindsKept, Accounted, OnRecord, Fs.With;
    DropKeeps(w, s);
    StatContent(w.fs, s);
  }

  lemma SparedUnlinked(a: World, b: World, c: World, s: Slot)
    requires a.Valid() && s in a.fs.names && Spares(a.fs, b.fs, s) && OwnKept(a, b) && Evolved(a, b)
    requires s in b.fs.names && Unlinked(b, c, b.fs.names[s])
    ensures Unlinked(a, c, a.fs.names[s])
  {
    hide Bound;
  }

  /** Unlinking a guarded name after a gap is unlinking the object the name had before the gap. */
  lemma UnlinkedAfterGap(a: World, b: World, s: Slot)
    requires a.Valid() && s in a.fs.names && Spares(a.fs, b.fs, s) && OwnKept(a, b) && Evolved(a, b)
    ensures s in b.fs.names && b.fs.names[s] == a.fs.names[s] && b.fs.names[s] in b.fs.facts
    ensures Dropped(b, s).fs == b.fs.Drop(s) && Dropped(b, s).Valid()
    ensures Evolved(a, Dropped(b, s)) && Unlinked(a, Dropped(b, s), a.fs.names[s])
  {
    HeldFacts(a.fs, s);
    assert b.Valid() && s in b.fs.names && b.fs.names[s] == a.fs.names[s];
    hide *;
    DropEvolves(b, s);
    Evolution();
    SparedUnlinked(a, b, Dropped(b, s), s);
  }

  datatype Error = NotFound | Exists | NotEmpty | Other

  predicate SameObject(expected: Snapshot, actual: Snapshot) {
    expected.id == actual.id && expected.reparse == actual.reparse
  }

  predicate Shows(fs: Fs, s: Slot, expected: Snapshot) {
    s in fs.names && fs.names[s] in fs.facts && fs.Stat(s) == expected
  }

  /** A refused call leaves its mark on the placeholder it was about, if it was about one. */
  function Blamed(w: World, about: Option<ObjId>, refused: bool): World {
    if refused && about.Some? then w.(balked := w.balked + {about.value}) else w
  }

  lemma BlamedEvolves(w: World, about: Option<ObjId>, refused: bool)
    requires w.Valid()
    ensures Blamed(w, about, refused).Valid() && Evolved(w, Blamed(w, about, refused))
  {
    hide Bound, Fs.Valid;
    EvolvedSelf(w);
  }

  lemma FaultKinds(fault: Option<Fault>)
    ensures fault in {None, Some(Refused), Some(Taken)}
  {
    if fault.Some? && fault.value.Refused? {
    }
  }

  /** What comes next in a script. */
  function Upcoming(script: seq<Step>): Step {
    if script == [] then Idle() else script[0]
  }

  function Later(script: seq<Step>): seq<Step> {
    if script == [] then [] else script[1..]
  }

  /** The steps left once some have been taken. */
  function After(script: seq<Step>, taken: nat): seq<Step> {
    if taken > |script| then [] else script[taken..]
  }

  lemma AfterNone(script: seq<Step>)
    ensures After(script, 0) == script
  {
  }

  lemma AfterOneMore(script: seq<Step>, taken: nat)
    ensures Later(After(script, taken)) == After(script, taken + 1)
  {
  }

  /** What an unlink answers when no other process is about: an empty folder and anything else goes, unless the
      call is refused. */
  ghost predicate UnlinkAnswers(a: World, b: World, s: Slot, folder: bool, e: Option<Error>)
    requires s in a.fs.names
  {
    var filled := folder && a.fs.HasChildren(a.fs.names[s]);
    && (Quiet(a.script) ==>
          && b.fs == (if e.None? then a.fs.Drop(s) else a.fs)
          && (e.None? ==> !filled) && (e == Some(NotEmpty) ==> filled))
    && (Clean(a.script) ==> b.soft == a.soft && (!filled ==> e.None?))
  }

  lemma UnlinkAnswered(a: World, m: World, b: World, s: Slot, folder: bool, e: Option<Error>)
    requires s in a.fs.names && s in m.fs.names && (Quiet(a.script) ==> m.fs == a.fs)
    requires Clean(a.script) ==> Quiet(a.script) && Faultless(a.script) && m.soft == a.soft
    requires e == Some(Other) ==> !Faultless(a.script) && b == m.(balked := b.balked)
    requires e == Some(NotEmpty) ==> b == m && folder && m.fs.HasChildren(m.fs.names[s])
    requires e.None? ==> !(folder && m.fs.HasChildren(m.fs.names[s])) && m.fs.names[s] in m.fs.facts && b == Dropped(m, s)
    requires e.Some? ==> e.value in {Other, NotEmpty}
    ensures UnlinkAnswers(a, b, s, folder, e)
  {
    hide Quiet, Clean, Faultless, Fs.HasChildren;
  }

  lemma BlameKept(a: World, b: World, about: Option<ObjId>)
    requires OwnKept(a, b)
    ensures OwnKept(Blamed(a, about, false), b) && OwnKept(Blamed(a, about, true), Blamed(b, about, true))
    ensures Blamed(b, about, true) == b.(balked := Blamed(b, about, true).balked)
  {
  }

  /** The system calls of the executor. A call about a placeholder, to make it or to clear it away, says
      which. Before each of them the next step of the script happens. */
  class Volume {
    var w: World
    const draw: nat -> Option<Name>

    constructor (w: World, draw: nat -> Option<Name>)
      ensures this.w == w && this.draw == draw
    {
      this.w, this.draw := w, draw;
    }

    /** The gap before a system call: one step of the script, and nothing once it has run out. */
    method Pass(guard: Option<Slot>) returns (step: Step)
      requires w.Valid()
      modifies this
      ensures w.Valid() && Evolved(old(w), w) && OwnKept(old(w), w)
      ensures guard.Some? ==> Spares(old(w).fs, w.fs, guard.value)
      ensures Quiet(old(w).script) ==> w.fs == old(w).fs
      ensures Clean(old(w).script) ==> step == Idle() && w.soft == old(w).soft
      ensures step == Upcoming(old(w).script) && w.script == Later(old(w).script)
      ensures step.fault.Some? ==> !Faultless(old(w).script)
      ensures step.deny ==> !Undenied(old(w).script)
    {
      hide *;
      PassedEvolves(w, guard);
      step := Upcoming(w.script);
      w := Passed(w, guard);
    }

    /** Notes the refusal of a call. */
    method Refuse(about: Option<ObjId>)
      requires w.Valid()
      modifies this
      ensures w == Blamed(old(w), about, true) && w.Valid() && Evolved(old(w), w)
      ensures forall a: World {:trigger Evolved(a, old(w))} :: a.Valid() && Evolved(a, old(w)) ==> Evolved(a, w)
    {
      hide *;
      BlamedEvolves(w, about, true);
      Evolution();
      w := Blamed(w, about, true);
    }

    method Inspect(s: Slot, about: Option<ObjId>) returns (r: Answer<Snapshot, Error>)
      requires w.Valid()
      modifies this
      ensures w.Valid() && Evolved(old(w), w) && OwnKept(Blamed(old(w), about, r == Err(Other)), w)
      ensures r.Ok? ==> Shows(w.fs, s, r.value)
      ensures r == Err(NotFound) ==> s !in w.fs.names
      ensures r == Err(Other) ==> s in w.fs.names && !Faultless(old(w).script)
      ensures r.Err? ==> r.error in {NotFound, Other}
      ensures Quiet(old(w).script) ==> w.fs == old(w).fs
      ensures Clean(old(w).script) ==> w.soft == old(w).soft && (r.Ok? <==> s in w.fs.names)
    {
      Evolution();
      var step := Pass(None);
      if s !in w.fs.names { return Err(NotFound); }
      if step.fault.Some? {
        Refuse(about);
        return Err(Other);
      }
      return Ok(w.fs.Stat(s));
    }

    /** The metadata of an object held open. */
    method InspectObject(o: ObjId, about: Option<ObjId>) returns (r: Answer<Snapshot, Error>)
      requires w.Valid() && o in w.fs.facts
      modifies this
      ensures w.Valid() && Evolved(old(w), w) && OwnKept(Blamed(old(w), about, r.Err?), w)
      ensures r.Err? <==> Upcoming(old(w).script).fault.Some?
      ensures r.Err? ==> !Faultless(old(w).script)
      ensures r.Ok? ==> o in w.fs.facts && r.value == w.fs.Look(o)
      ensures Quiet(old(w).script) ==> w.fs == old(w).fs
      ensures Clean(old(w).script) ==> w.soft == old(w).soft && r.Ok?
    {
      Evolution();
      var step := Pass(None);
      if step.fault.Some? {
        Refuse(about);
        return Err(Other);
      }
      return Ok(w.fs.Look(o));
    }

    /** A gate before a mutation: the reader may have asked to stop. */
    method Gate() returns (granted: bool)
      requires w.Valid()
      modifies this
      ensures w.Valid() && Evolved(old(w), w) && OwnKept(old(w), w)
      ensures Quiet(old(w).script) ==> w.fs == old(w).fs
      ensures Clean(old(w).script) ==> w.soft == old(w).soft && granted
      ensures granted == !Upcoming(old(w).script).deny
      ensures !granted ==> !Undenied(old(w).script)
    {
      var step := Pass(None);
      granted := !step.deny;
    }

    /** A reference to the object at a name that was checked just before, if it is the expected one. */
    method OpenReference(s: Slot, expected: Snapshot) returns (reference: Option<ObjId>)
      requires w.Valid() && s in w.fs.names
      modifies this
      ensures w.Valid() && Evolved(old(w), w) && OwnKept(old(w), w)
      ensures Spares(old(w).fs, w.fs, s) && s in w.fs.names && w.fs.names[s] == old(w).fs.names[s]
      ensures reference.Some? ==> reference.value == w.fs.names[s]
      ensures Quiet(old(w).script) ==> w.fs == old(w).fs
      ensures Clean(old(w).script) ==> w.soft == old(w).soft
      ensures Clean(old(w).script) && SameObject(expected, w.fs.Stat(s)) ==> reference.Some?
    {
      var step := Pass(Some(s));
      var found := w.fs.Stat(s);
      reference := if step.fault.None? && SameObject(expected, found)
      then Some(found.id) else None;
    }

    /** Creates a file at a name that is not there yet. */
    method CreateNew(s: Slot) returns (r: Answer<ObjId, Error>)
      requires w.Valid()
      modifies this
      ensures w.Valid() && Evolved(old(w), w)
      ensures r.Err? ==> OwnKept(old(w), w)
      ensures r.Ok? ==> OwnKept(old(w).(made := old(w).made + {r.value}), w)
      ensures r.Ok? ==> r.value !in old(w).fs.facts && s in w.fs.names && w.fs.names[s] == r.value
      ensures r.Ok? ==> r.value in w.fs.facts && w.fs.facts[r.value].kind == File
      ensures Quiet(old(w).script) ==>
        w.fs == if r.Ok? then old(w).fs.Create(s, EmptyFile(old(w).fs.clock)) else old(w).fs
      ensures Quiet(old(w).script) && r.Ok? ==> s !in old(w).fs.names && r.value == old(w).fs.clock
      ensures Clean(old(w).script) ==> w.soft == old(w).soft
      ensures Quiet(old(w).script) && s !in old(w).fs.names && old(w).fs.Live(s.folder) && old(w).fs.IsFolder(s.folder)
        ==> (r.Ok? <==> Upcoming(old(w).script).fault.None?)
      ensures Quiet(old(w).script) && Faultless(old(w).script) && old(w).fs.Live(s.folder) && old(w).fs.IsFolder(s.folder) ==>
        if s in old(w).fs.names then r == Err(Exists) else r.Ok?
      ensures w.script == Later(old(w).script)
    {
      hide Bound, Fs.Valid, Swapped, Rebound, FactsKept;
      var step := Pass(None);
      FaultKinds(step.fault);
      if step.fault == Some(Refused) { return Err(Other); }
      if step.fault == Some(Taken) || s in w.fs.names { return Err(Exists); }
      if !w.fs.IsFolder(s.folder) || !w.fs.Live(s.folder) { return Err(NotFound); }
      var facts := EmptyFile(w.fs.clock);
      CreateEvolves(w, s, facts);
      EvolvedTwice(old(w), w, Created(w, s, facts));
      r := Ok(w.fs.clock);
      w := Created(w, s, facts);
    }

    method Exchange(a: Slot, b: Slot, about: Option<ObjId>) returns (e: Option<Error>)
      requires w.Valid()
      modifies this
      ensures w.Valid() && Evolved(old(w), w) && OwnKept(Blamed(old(w), about, e == Some(Other)), w)
      ensures e == Some(Other) ==> !Faultless(old(w).script)
      ensures e.Some? ==> e.value in {NotFound, Other}
      ensures Quiet(old(w).script) ==>
        if e.None? then a in old(w).fs.names && b in old(w).fs.names && w.fs == old(w).fs.Swap(a, b)
        else w.fs == old(w).fs
      ensures Quiet(old(w).script) && e == Some(NotFound) ==> a !in w.fs.names || b !in w.fs.names
      ensures Clean(old(w).script) ==> w.soft == old(w).soft
      ensures Clean(old(w).script) && a in old(w).fs.names && b in old(w).fs.names ==> e.None?
    {
      hide Bound, Fs.Valid, Swapped, Rebound, FactsKept;
      var step := Pass(None);
      if a !in w.fs.names || b !in w.fs.names { return Some(NotFound); }
      if step.fault.Some? {
        Refuse(about);
        return Some(Other);
      }
      SwapEvolves(w, a, b);
      EvolvedTwice(old(w), w, w.(fs := w.fs.Swap(a, b)));
      w := w.(fs := w.fs.Swap(a, b));
      e := None;
    }

    method RenameNoReplace(from: Slot, to: Slot, about: Option<ObjId>) returns (e: Option<Error>)
      requires w.Valid() && w.fs.IsFolder(to.folder)
      modifies this
      ensures w.Valid() && Evolved(old(w), w) && OwnKept(Blamed(old(w), about, e == Some(Other)), w)
      ensures e == Some(Other) ==> !Faultless(old(w).script)
      ensures e.Some? ==> e.value in {NotFound, Exists, Other}
      ensures Quiet(old(w).script) && e == Some(NotFound) ==> from !in old(w).fs.names
      ensures Quiet(old(w).script) && e == Some(Exists) ==> to in old(w).fs.names || !Faultless(old(w).script)
      ensures Clean(old(w).script) && from in old(w).fs.names ==> e.None? || (e == Some(Exists) && to in old(w).fs.names)
      ensures Quiet(old(w).script) ==>
        if e.None? then from in old(w).fs.names && to !in old(w).fs.names && w.fs == old(w).fs.Rebind(from, to)
        else w.fs == old(w).fs
      ensures Clean(old(w).script) ==> w.soft == old(w).soft
      ensures Clean(old(w).script) && from in old(w).fs.names && to !in old(w).fs.names ==> e.None?
    {
      hide Bound, Fs.Valid, Swapped, Rebound, FactsKept;
      var step := Pass(None);
      if from !in w.fs.names { return Some(NotFound); }
      if to in w.fs.names || step.fault == Some(Taken) { return Some(Exists); }
      if step.fault.Some? {
        Refuse(about);
        return Some(Other);
      }
      RebindEvolves(w, from, to);
      EvolvedTwice(old(w), w, w.(fs := w.fs.Rebind(from, to)));
      w := w.(fs := w.fs.Rebind(from, to));
      e := None;
    }

    /** Removes a name that was checked just before: an empty folder, or anything else. */
    method Unlink(s: Slot, folder: bool, about: Option<ObjId>) returns (e: Option<Error>)
      requires w.Valid() && s in w.fs.names && w.fs.IsFolder(w.fs.names[s]) == folder
      modifies this
      ensures w.Valid() && Evolved(old(w), w)
      ensures e.Some? ==> OwnKept(Blamed(old(w), about, e == Some(Other)), w)
      ensures e == Some(Other) ==> !Faultless(old(w).script)
      ensures e.Some? ==> e.value in {NotEmpty, Other} && (e == Some(NotEmpty) ==> folder)
      ensures e.None? ==> Unlinked(old(w), w, old(w).fs.names[s])
      ensures UnlinkAnswers(old(w), w, s, folder, e)
    {
      hide *;
      Evolution();
      ghost var start := w;
      var step := Pass(Some(s));
      ghost var spared := w;
      UnlinkedAfterGap(start, spared, s);
      BlameKept(start, spared, about);
      if step.fault.Some? {
        Refuse(about);
        UnlinkAnswered(start, spared, w, s, folder, Some(Other));
        return Some(Other);
      }
      if folder && w.fs.HasChildren(w.fs.names[s]) {
        UnlinkAnswered(start, spared, w, s, folder, Some(NotEmpty));
        return Some(NotEmpty);
      }
      w := Dropped(w, s);
      UnlinkAnswered(start, spared, w, s, folder, None);
      e := None;
    }

    /** How many links an object has, read through a reference that outlives its names. */
    method ReadLinks(o: ObjId) returns (links: Option<LinkCount>)
      requires w.Valid()
      modifies this
      ensures w.Valid() && Evolved(old(w), w) && OwnKept(old(w), w)
      ensures links.Some? ==> links.value == w.fs.Reported(o)
      ensures Quiet(old(w).script) ==> w.fs == old(w).fs
      ensures Clean(old(w).script) ==> w.soft == old(w).soft && links.Some?
    {
      var step := Pass(None);
      links := if step.fault.Some? then None else Some(w.fs.Reported(o));
    }
  }
}
