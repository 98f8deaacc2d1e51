/** The plan's entries and the walk's pending folders: resident until they outgrow their bound, in a spill
    file from then on, and the same either way to whoever reads them. */
module PlanStore {
  import opened Outcomes
  import opened LittleEndian
  import opened FileSystem
  import opened Spill
  import opened Records

  /** Why a reader of the plan stops: the file fails, an entry is outside the target, or it is not what was
      reviewed, cannot be looked at, or the reader was asked to stop. */
  datatype PlanError = Storage | OutsideTarget | Differs | Unseen | Interrupted

  predicate IsComponent(name: Name) {
    name != "" && name != "." && name != ".."
  }

  /** The path is the target's, or lies below it. */
  predicate UnderTarget(target: seq<Name>, path: seq<Name>) {
    target != [] && target <= path && forall name <- path :: IsComponent(name)
  }

  /** Where spill files come from: each creation may fail, and each file has its own fortune. */
  class SpillStore {
    const looks: Cell -> byte
    var fortunes: seq<Option<seq<Io>>>

    constructor (looks: Cell -> byte, fortunes: seq<Option<seq<Io>>>)
      ensures this.looks == looks && this.fortunes == fortunes
    {
      this.looks, this.fortunes := looks, fortunes;
    }

    method Create(maximumPayload: nat) returns (spill: RecordSpill?)
      modifies this
      ensures spill != null ==> fresh(spill) && spill.Valid() && spill.Whole()
      ensures spill != null ==> spill.contents == [] && spill.reservation == 0 && spill.maximumPayload == maximumPayload
      ensures old(fortunes) == [] ==> fortunes == [] && spill != null && spill.ios == []
    {
      var fortune := if fortunes == [] then Some([]) else fortunes[0];
      fortunes := if fortunes == [] then [] else fortunes[1..];
      if fortune.None? { return null; }
      spill := new RecordSpill(maximumPayload, looks, fortune.value);
    }
  }

  function Texts(format: Format, entries: seq<Entry>): (texts: seq<Text>)
    ensures |texts| == |entries|
  {
    seq(|entries|, i requires 0 <= i < |entries| => format.planText(entries[i]))
  }

  lemma TextsAppended(format: Format, entries: seq<Entry>, entry: Entry)
    ensures Texts(format, entries + [entry]) == Texts(format, entries) + [format.planText(entry)]
  {
  }

  lemma NoTexts(format: Format)
    ensures Texts(format, []) == []
  {
  }

  lemma TextsLast(format: Format, entries: seq<Entry>, texts: seq<Text>, text: Text)
    requires Texts(format, entries) == texts + [text]
    ensures entries != [] && text == format.planText(entries[|entries| - 1])
    ensures texts == Texts(format, entries[..|entries| - 1])
  {
    assert Texts(format, entries)[|entries| - 1] == text;
    assert texts == (texts + [text])[..|texts|];
  }

  lemma PlanRead(format: Format, entry: Entry)
    requires format.Lawful()
    ensures format.readPlan(format.planText(entry)) == Some(entry)
  {
  }

  /** The first entry that keeps a reader from going on, and why. */
  function FirstProblem(entries: seq<Entry>, target: seq<Name>, judge: Entry -> Option<PlanError>): Option<PlanError> {
    if entries == [] then None
    else if !UnderTarget(target, entries[0].path) then Some(OutsideTarget)
    else if judge(entries[0]).Some? then judge(entries[0])
    else FirstProblem(entries[1..], target, judge)
  }

  lemma {:induction false} FirstProblemAt(entries: seq<Entry>, k: nat, target: seq<Name>,
                                          judge: Entry -> Option<PlanError>)
    requires k <= |entries|
    requires forall e <- entries[..k] :: UnderTarget(target, e.path) && judge(e).None?
    ensures FirstProblem(entries, target, judge) == FirstProblem(entries[k..], target, judge)
  {
    if k > 0 {
      assert entries[0] in entries[..k];
      assert entries[1..][..k - 1] == entries[..k][1..];
      FirstProblemAt(entries[1..], k - 1, target, judge);
      assert entries[1..][k - 1..] == entries[k..];
    } else {
      assert entries[0..] == entries;
    }
  }

  /** There is none exactly when no entry is one. */
  lemma {:induction false} NoProblem(entries: seq<Entry>, target: seq<Name>, judge: Entry -> Option<PlanError>)
    ensures FirstProblem(entries, target, judge) == None <==>
            forall e <- entries :: UnderTarget(target, e.path) && judge(e).None?
  {
    if entries != [] {
      NoProblem(entries[1..], target, judge);
      assert forall e <- entries :: e == entries[0] || e in entries[1..];
    }
  }

  /** A problem is some entry's. */
  lemma {:induction false} ProblemOf(entries: seq<Entry>, target: seq<Name>, judge: Entry -> Option<PlanError>)
    ensures FirstProblem(entries, target, judge).Some? ==> exists e <- entries ::
      if UnderTarget(target, e.path) then judge(e) == FirstProblem(entries, target, judge)
      else FirstProblem(entries, target, judge) == Some(OutsideTarget)
  {
    if entries != [] {
      ProblemOf(entries[1..], target, judge);
      assert entries[0] in entries && forall e <- entries[1..] :: e in entries;
    }
  }

  /** The records of these entries can be written to one file. */
  ghost predicate PlanFits(format: Format, entries: seq<Entry>) {
    && |entries| <= U64_MAX && |Log(Texts(format, entries))| <= U64_MAX
    && forall e <- entries :: |format.planText(e)| <= MAX_PLAN_RECORD_BYTES
  }

  /** A record that a file with the entries before it does not take. */
  lemma RecordRefused(format: Format, entries: seq<Entry>, k: nat)
    requires k < |entries|
    requires || |format.planText(entries[k])| > MAX_PLAN_RECORD_BYTES || k == U64_MAX
             || |Log(Texts(format, entries[..k]))| + FrameBytes(|format.planText(entries[k])|) > U64_MAX
    ensures !PlanFits(format, entries)
  {
    hide Log, Frame;
    LogSplits(Texts(format, entries), k);
    assert Texts(format, entries)[..k] == Texts(format, entries[..k]);
    assert entries[k] in entries;
  }

  lemma PrefixFits(format: Format, entries: seq<Entry>, k: nat)
    requires PlanFits(format, entries) && k <= |entries|
    ensures PlanFits(format, entries[..k])
  {
    hide Log, Frame;
    if k < |entries| { LogSplits(Texts(format, entries), k); }
    assert Texts(format, entries)[..k] == Texts(format, entries[..k]);
    assert Texts(format, entries)[..|entries|] == Texts(format, entries);
  }

  lemma FewEnough(format: Format, entries: seq<Entry>)
    requires PlanFits(format, entries)
    ensures |entries| <= U64_MAX
  {
  }

  /** Writes one more entry to the file that holds these. */
  method AppendEntry(spill: RecordSpill, format: Format, entry: Entry, ghost entries: seq<Entry>)
    returns (e: Option<SpillError>)
    requires spill.Valid() && spill.contents == Texts(format, entries)
    requires spill.maximumPayload == MAX_PLAN_RECORD_BYTES
    modifies spill
    ensures spill.Valid() && (e.None? ==> spill.Whole() && |entries| < U64_MAX)
    ensures spill.contents == Texts(format, if e.None? then entries + [entry] else entries)
    ensures old(spill.ios == [] && spill.Whole()) ==>
      spill.ios == [] && spill.Whole() && (e.Some? ==> !PlanFits(format, entries + [entry]))
  {
    hide Log, Frame, Format.Lawful;
    spill.ValidIsSound();
    assert (entries + [entry])[..|entries|] == entries;
    TextsAppended(format, entries, entry);
    e := spill.Append(format.planText(entry), true);
    spill.ValidIsSound();
    if e.Some? && e.value in {TooLong, Overflow} {
      RecordRefused(format, entries + [entry], |entries|);
    }
  }

  class PlanEntries {
    var resident: seq<Entry>
    var spill: RecordSpill?
    const format: Format
    ghost var contents: seq<Entry>

    ghost function Repr(): set<object>
      reads this
    {
      {this} + if spill == null then {} else {spill}
    }

    ghost predicate Valid()
      reads this, spill
    {
      && format.Lawful() && |contents| <= U64_MAX
      && if spill == null then resident == contents else
           && resident == [] && spill.Valid() && spill.contents == Texts(format, contents)
           && spill.maximumPayload == MAX_PLAN_RECORD_BYTES
    }

    /** The plan's storage does what it is asked to. */
    ghost predicate Untroubled()
      reads this, spill
    {
      spill != null ==> spill.ios == [] && spill.Whole()
    }

    constructor (format: Format)
      requires format.Lawful()
      ensures Valid() && Untroubled() && contents == [] && spill == null && this.format == format
    {
      resident, spill, contents := [], null, [];
      this.format := format;
    }

    lemma CountIsLength()
      requires Valid()
      ensures Count() == |contents|
    {
    }

    function Count(): nat
      reads this, spill
    {
      if spill == null then |resident| else spill.records
    }

    /** Adds an entry. The first one that is to be spilled takes every entry before it to the file. */
    method Push(entry: Entry, spillNow: bool, store: SpillStore) returns (e: Option<SpillError>)
      requires Valid() && store !in Repr()
      modifies Repr(), store
      ensures Valid() && fresh(Repr() - old(Repr()))
      ensures e.None? ==> contents == old(contents) + [entry]
      ensures e.None? ==> (spill != null <==> old(spill) != null || spillNow)
      ensures e.Some? ==>
        contents == if spillNow && spill == null && |old(contents)| < U64_MAX then [] else old(contents)
      ensures old(spill) != null ==> spill == old(spill)
      ensures old(Untroubled()) && old(store.fortunes) == [] ==>
        store.fortunes == [] && Untroubled() && (e.Some? ==> !PlanFits(format, old(contents) + [entry]))
    {
      CountIsLength();
      ghost var all := contents + [entry];
      assert all[..|all| - 1] == contents;
      if PlanFits(format, all) { FewEnough(format, all); }
      hide Format.Lawful, RecordSpill.Valid, Texts, PlanFits;
      if Count() == U64_MAX { return Some(Overflow); }
      if spillNow && spill == null {
        e := Migrate(store);
        if e.Some? {
          if PlanFits(format, all) { PrefixFits(format, all, |all| - 1); }
          return;
        }
      }
      if spill == null {
        resident := resident + [entry];
        contents := contents + [entry];
        return None;
      }
      e := PushSpilled(entry);
    }

    method PushSpilled(entry: Entry) returns (e: Option<SpillError>)
      requires Valid() && spill != null
      modifies this`contents, spill
      ensures Valid() && contents == old(contents) + if e.None? then [entry] else []
      ensures old(Untroubled()) ==> Untroubled() && (e.Some? ==> !PlanFits(format, old(contents) + [entry]))
    {
      hide Format.Lawful, RecordSpill.Valid, Texts, PlanFits;
      e := AppendEntry(spill, format, entry, contents);
      if e.None? { contents := contents + [entry]; }
    }

    /** Moves every resident entry to a spill file. A move that fails leaves the plan empty. */
    method Migrate(store: SpillStore) returns (e: Option<SpillError>)
      requires Valid() && spill == null
      modifies this, store
      ensures Valid()
      ensures e.None? ==> contents == old(contents) && spill != null && fresh(spill)
      ensures e.Some? ==> contents == [] && spill == null
      ensures old(store.fortunes) == [] ==>
        store.fortunes == [] && Untroubled() && (e.Some? ==> !PlanFits(format, old(contents)))
    {
      hide Format.Lawful, RecordSpill.Valid, Texts, PlanFits, Log, Frame;
      var retained := resident;
      resident, contents := [], [];
      var spilled := store.Create(MAX_PLAN_RECORD_BYTES);
      if spilled == null { return Some(System); }
      var k := 0;
      NoTexts(format);
      assert retained[..0] == [];
      while k < |retained|
        invariant 0 <= k <= |retained| && fresh(spilled) && spilled.Valid() && spilled.Whole()
        invariant spilled.contents == Texts(format, retained[..k])
        invariant spilled.maximumPayload == MAX_PLAN_RECORD_BYTES
        invariant spill == null && resident == [] && contents == [] && format.Lawful()
        invariant old(store.fortunes) == [] ==> spilled.ios == [] && store.fortunes == []
      {
        assert retained[..k + 1] == retained[..k] + [retained[k]];
        e := AppendEntry(spilled, format, retained[k], retained[..k]);
        if e.Some? {
          if PlanFits(format, retained) { PrefixFits(format, retained, k + 1); }
          return;
        }
        k := k + 1;
      }
      assert retained[..k] == retained;
      spill, contents := spilled, retained;
      e := None;
    }

    /** Reads the entries first to last, until one is outside the target or is judged to be a problem. */
    method TryForEach(target: seq<Name>, judge: Entry -> Option<PlanError>) returns (e: Option<PlanError>)
      requires Valid()
      modifies if spill == null then {} else {spill}`ios
      ensures Valid() && contents == old(contents)
      ensures e == FirstProblem(contents, target, judge) || (e == Some(Storage) && spill != null)
      ensures old(Untroubled()) ==> Untroubled() && e == FirstProblem(contents, target, judge)
    {
      hide Format.Lawful;
      if spill == null {
        var k := 0;
        while k < |resident|
          invariant 0 <= k <= |resident|
          invariant forall e <- resident[..k] :: UnderTarget(target, e.path) && judge(e).None?
        {
          FirstProblemAt(resident, k, target, judge);
          if !UnderTarget(target, resident[k].path) { return Some(OutsideTarget); }
          if judge(resident[k]).Some? { return judge(resident[k]); }
          k := k + 1;
        }
        FirstProblemAt(resident, k, target, judge);
        return None;
      }
      var format := format;
      var welcome := (text: Text) =>
        var entry := format.readPlan(text);
        entry.Some? && UnderTarget(target, entry.value.path) && judge(entry.value).None?;
      spill.ValidIsSound();
      var seen, broken, refused := spill.Visit(welcome);
      if broken.Some? { return Some(Storage); }
      forall e <- contents[..|seen|]
        ensures UnderTarget(target, e.path) && judge(e).None?
      {
        PlanRead(format, e);
        var i :| 0 <= i < |seen| && contents[i] == e;
        assert seen[i] == format.planText(e) && seen[i] in seen;
      }
      FirstProblemAt(contents, |seen|, target, judge);
      if refused.Some? {
        PlanRead(format, contents[|seen|]);
        var first := format.readPlan(refused.value);
        e := if UnderTarget(target, first.value.path) then judge(first.value) else Some(OutsideTarget);
      } else {
        e := None;
      }
    }

    /** Takes the last entry. */
    method PopReverse(target: seq<Name>) returns (r: Answer<Option<Entry>, PlanError>)
      requires Valid()
      modifies Repr()
      ensures Valid() && spill == old(spill)
      ensures r == Ok(None) ==> contents == old(contents) == []
      ensures r.Ok? && r.value.Some? ==>
        old(contents) == contents + [r.value.value] && UnderTarget(target, r.value.value.path)
      ensures r == Err(OutsideTarget) ==> old(contents) != []
      ensures r == Err(OutsideTarget) ==>
        contents == if spill == null then old(contents) else old(contents)[..|old(contents)| - 1]
      ensures r == Err(Storage) ==> contents == old(contents)
      ensures old(Untroubled()) ==> Untroubled()
      ensures r == Err(OutsideTarget) ==> !UnderTarget(target, old(contents)[|old(contents)| - 1].path)
      ensures r.Err? ==> r.error == OutsideTarget || (r.error == Storage && spill != null)
      ensures old(Untroubled()) ==>
        && r != Err(Storage)
        && (r.Ok? <==> old(contents) == [] || UnderTarget(target, old(contents)[|old(contents)| - 1].path))
    {
      hide Format.Lawful, RecordSpill.Valid, Texts, UnderTarget;
      if spill == null {
        if resident == [] { return Ok(None); }
        var entry := resident[|resident| - 1];
        if !UnderTarget(target, entry.path) { return Err(OutsideTarget); }
        resident := resident[..|resident| - 1];
        contents := resident;
        return Ok(Some(entry));
      }
      spill.ValidIsSound();
      var popped := spill.Pop();
      if popped.Err? { return Err(Storage); }
      if popped.value.None? {
        assert |Texts(format, contents)| == |contents|;
        return Ok(None);
      }
      TextsLast(format, contents, spill.contents, popped.value.value);
      PlanRead(format, contents[|contents| - 1]);
      contents := contents[..|contents| - 1];
      var entry := format.readPlan(popped.value.value);
      if entry.None? { return Err(Storage); }
      if !UnderTarget(target, entry.value.path) { return Err(OutsideTarget); }
      r := Ok(entry);
    }
  }

  /** The two forms of a plan differ in one thing: an entry outside the target stays in the resident one, and is
      gone from the spilled one. */
  method FormsDiffer(format: Format, entry: Entry, target: seq<Name>, store: SpillStore)
    returns (resident: PlanEntries, spilled: PlanEntries)
    requires format.Lawful() && !UnderTarget(target, entry.path) && PlanFits(format, [entry]) && store.fortunes == []
    modifies store
    ensures fresh(resident) && fresh(spilled) && resident.contents == [entry] && spilled.contents == []
  {
    hide Format.Lawful, RecordSpill.Valid, Texts, PlanFits, UnderTarget, PlanEntries.Valid;
    assert [] + [entry] == [entry] && [entry][|[entry]| - 1] == entry;
    resident := new PlanEntries(format);
    var kept := resident.Push(entry, false, store);
    var first := resident.PopReverse(target);
    spilled := new PlanEntries(format);
    var written := spilled.Push(entry, true, store);
    var second := spilled.PopReverse(target);
    assert first == second == Err(OutsideTarget);
  }

  const MAX_RESIDENT_DIRECTORY_TASKS := 64

  /** The folders still to be read. In what order they come back depends on how many there are: only that
      each comes back once is kept. */
  class PendingDirectories {
    var resident: seq<Entry>
    var spill: RecordSpill?
    const format: Format
    ghost var spilled: seq<Entry>

    ghost function Repr(): set<object>
      reads this
    {
      {this} + if spill == null then {} else {spill}
    }

    ghost predicate Valid()
      reads this, spill
    {
      && format.Lawful() && |resident| <= MAX_RESIDENT_DIRECTORY_TASKS && |spilled| <= U64_MAX
      && if spill == null then spilled == [] else
           && spill.Valid() && spill.contents == Texts(format, spilled)
           && spill.maximumPayload == MAX_PLAN_RECORD_BYTES
    }

    ghost function Bag(): multiset<Entry>
      reads this
    {
      multiset(resident) + multiset(spilled)
    }

    ghost predicate Untroubled()
      reads this, spill
    {
      spill != null ==> spill.ios == [] && spill.Whole()
    }

    constructor (format: Format)
      requires format.Lawful()
      ensures Valid() && Untroubled() && Bag() == multiset{} && spill == null && this.format == format
    {
      resident, spill, spilled := [], null, [];
      this.format := format;
    }

    method Push(entry: Entry, store: SpillStore) returns (e: Option<SpillError>)
      requires Valid() && store !in Repr()
      modifies Repr(), store
      ensures Valid() && fresh(Repr() - old(Repr()))
      ensures Bag() == old(Bag()) + if e.None? then multiset{entry} else multiset{}
      ensures old(Untroubled()) && old(store.fortunes) == [] ==>
        store.fortunes == [] && Untroubled() && (e.Some? ==> !PlanFits(format, old(spilled) + [entry]))
    {
      hide Format.Lawful, RecordSpill.Valid, Texts, PlanFits;
      if |resident| < MAX_RESIDENT_DIRECTORY_TASKS {
        resident := resident + [entry];
        return None;
      }
      if spill == null {
        NoTexts(format);
        var made := store.Create(MAX_PLAN_RECORD_BYTES);
        if made == null { return Some(System); }
        spill := made;
      }
      e := AppendEntry(spill, format, entry, spilled);
      if e.None? { spilled := spilled + [entry]; }
    }

    method Pop(target: seq<Name>) returns (r: Answer<Option<Entry>, PlanError>)
      requires Valid()
      modifies Repr()
      ensures Valid() && spill == old(spill)
      ensures r == Ok(None) ==> old(Bag()) == Bag() == multiset{}
      ensures r.Ok? && r.value.Some? ==> old(Bag()) == Bag() + multiset{r.value.value}
      ensures old(Untroubled()) ==> Untroubled()
      ensures old(Untroubled()) && (forall e <- old(Bag()) :: UnderTarget(target, e.path)) ==> r.Ok?
    {
      hide Format.Lawful, RecordSpill.Valid, Texts, UnderTarget;
      var entry: Option<Entry>;
      if resident != [] {
        var last := |resident| - 1;
        entry := Some(resident[last]);
        assert resident == resident[..last] + [resident[last]];
        resident := resident[..last];
      } else {
        var popped := PopSpilled();
        if popped.Err? { return Err(popped.error); }
        entry := popped.value;
      }
      if entry.Some? && !UnderTarget(target, entry.value.path) { return Err(OutsideTarget); }
      r := Ok(entry);
    }

    method PopSpilled() returns (r: Answer<Option<Entry>, PlanError>)
      requires Valid()
      modifies this`spilled, if spill == null then {} else {spill}
      ensures Valid() && spill == old(spill) && resident == old(resident)
      ensures r.Ok? ==> old(spilled) == spilled + if r.value.Some? then [r.value.value] else []
      ensures r == Ok(None) ==> spilled == []
      ensures |spilled| <= |old(spilled)|
      ensures old(Untroubled()) ==> Untroubled() && r.Ok?
    {
      hide Format.Lawful, RecordSpill.Valid, Texts;
      if spill == null { return Ok(None); }
      spill.ValidIsSound();
      var popped := spill.Pop();
      if popped.Err? { return Err(Storage); }
      if popped.value.None? {
        assert |Texts(format, spilled)| == |spilled|;
        return Ok(None);
      }
      TextsLast(format, spilled, spill.contents, popped.value.value);
      var read := format.readPlan(popped.value.value);
      ghost var last := |spilled| - 1;
      PlanRead(format, spilled[last]);
      spilled := spilled[..last];
      r := if read.None? then Err(Storage) else Ok(read);
    }
  }
}
