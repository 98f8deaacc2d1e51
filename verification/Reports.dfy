/** The results of a run: room for them is reserved entry by entry before the reader consents, and they
    stay resident or go to a spill file as the plan did. */
module Reports {
  import opened Outcomes
  import opened FileSystem
  import opened Spill
  import opened Records
  import opened PlanStore

  /** The bytes that the results of these entries may take in a spill file. */
  function TotalCapacity(format: Format, entries: seq<Entry>): nat {
    if entries == [] then 0 else
      TotalCapacity(format, entries[..|entries| - 1]) + FrameBytes(format.Capacity(entries[|entries| - 1]))
  }

  /** The bytes that they may take in memory. */
  function TotalBound(format: Format, entries: seq<Entry>): nat {
    if entries == [] then 0 else
      TotalBound(format, entries[..|entries| - 1]) + ResultBound(format, entries[|entries| - 1])
  }

  lemma TotalsAppended(format: Format, entries: seq<Entry>, entry: Entry)
    ensures TotalCapacity(format, entries + [entry])
         == TotalCapacity(format, entries) + FrameBytes(format.Capacity(entry))
    ensures TotalBound(format, entries + [entry]) == TotalBound(format, entries) + ResultBound(format, entry)
  {
    assert (entries + [entry])[..|entries|] == entries;
  }

  /** No entry's result is larger than a record may be. */
  ghost predicate Recordable(format: Format, entries: seq<Entry>) {
    forall e <- entries :: format.Capacity(e) <= MAX_RESULT_RECORD_BYTES
  }

  /** The results of these entries can be reserved for in one file. */
  ghost predicate ResultsFit(format: Format, entries: seq<Entry>) {
    Recordable(format, entries) && TotalCapacity(format, entries) <= U64_MAX
  }

  class PlannedResultStorage {
    const format: Format
    const maximumBytes: nat
    var potentialBytes: nat
    var spill: RecordSpill?
    ghost var planned: seq<Entry>

    ghost function Repr(): set<object>
      reads this
    {
      {this} + if spill == null then {} else {spill}
    }

    ghost predicate Valid()
      reads this, spill
    {
      && TotalCapacity(format, planned) <= U64_MAX
      && if spill == null then potentialBytes == TotalCapacity(format, planned) else
        && spill.Valid() && spill.Whole() && spill.contents == []
        && spill.maximumPayload == MAX_RESULT_RECORD_BYTES && spill.reservation == TotalCapacity(format, planned)
    }

    ghost predicate Untroubled()
      reads this, spill
    {
      spill != null ==> spill.ios == []
    }

    constructor (format: Format, maximumBytes: nat)
      ensures Valid() && Untroubled() && planned == [] && spill == null
      ensures this.format == format && this.maximumBytes == maximumBytes
    {
      this.format, this.maximumBytes := format, maximumBytes;
      potentialBytes, spill, planned := 0, null, [];
    }

    /** Reserves room for one entry's result; from the first spilled entry on, in a spill file, for every
        entry before it too. */
    method ReserveFor(entry: Entry, spillNow: bool, store: SpillStore) returns (e: Option<SpillError>)
      requires Valid() && store !in Repr()
      modifies Repr(), store
      ensures fresh(Repr() - old(Repr()))
      ensures e.None? ==> Valid() && planned == old(planned) + [entry]
      ensures e.None? ==> (spill != null <==> old(spill) != null || spillNow)
      ensures e.None? ==> format.Capacity(entry) <= MAX_RESULT_RECORD_BYTES
      ensures old(Untroubled()) && old(store.fortunes) == [] ==>
        store.fortunes == [] && Untroubled() && (e.Some? ==> !ResultsFit(format, old(planned) + [entry]))
    {
      hide RecordSpill.Valid, Format.Capacity, TotalCapacity, TotalBound, ResultBound;
      assert entry in planned + [entry];
      if format.Capacity(entry) > MAX_RESULT_RECORD_BYTES { return Some(TooLong); }
      TotalsAppended(format, planned, entry);
      var record := FrameBytes(format.Capacity(entry));
      var next := record + if spill == null then potentialBytes else spill.reservation;
      if next > U64_MAX { return Some(Overflow); }
      if spill != null {
        e := spill.ReserveTo(next);
        if e.Some? { return; }
      } else if spillNow {
        var made := store.Create(MAX_RESULT_RECORD_BYTES);
        if made == null { return Some(System); }
        e := made.ReserveTo(next);
        if e.Some? { return; }
        spill := made;
      } else {
        potentialBytes := next;
      }
      planned := planned + [entry];
      e := None;
    }
  }

  /** The entry a result is for was the run's target, and is gone. */
  predicate RemovesTarget(r: Result, target: seq<Name>) {
    r.entry.path == target && (r.verdict == Deleted || r.verdict == Missing)
  }

  const U128_MAX: nat := 0xFFFF_FFFF_FFFF_FFFF_FFFF_FFFF_FFFF_FFFF

  function SatAdd64(a: nat, b: nat): nat {
    if a + b > U64_MAX then U64_MAX else a + b
  }

  function SatAdd128(a: nat, b: nat): nat {
    if a + b > U128_MAX then U128_MAX else a + b
  }

  datatype Summary = Summary(deleted: nat, changed: nat, missing: nat, failed: nat, unattempted: nat,
                             apparent: nat, freed: nat, otherLinks: bool)
  {
    function Note(r: Result): Summary {
      match r.verdict
      case Deleted =>
        this.(deleted := SatAdd64(deleted, 1), apparent := SatAdd128(apparent, r.entry.snapshot.apparent),
              freed := SatAdd128(freed, FreedBytes(r)))
      case Changed(_) => this.(changed := SatAdd64(changed, 1))
      case Missing => this.(missing := SatAdd64(missing, 1))
      case Failed(_) => this.(failed := SatAdd64(failed, 1))
      case Unattempted => this.(unattempted := SatAdd64(unattempted, 1))
    }

    function Total(): nat {
      deleted + changed + missing + failed + unattempted
    }
  }

  const NOTHING := Summary(0, 0, 0, 0, 0, 0, 0, false)

  /** The allocated bytes that a result counts as freed: those of a file or link with one link left. */
  function FreedBytes(r: Result): nat {
    if r.verdict == Deleted && r.entry.snapshot.kind != Directory && r.entry.snapshot.links == Some(1)
       && r.entry.snapshot.blocks.Some?
    then r.entry.snapshot.blocks.value else 0
  }

  function Noted(results: seq<Result>): Summary {
    if results == [] then NOTHING else Noted(results[..|results| - 1]).Note(results[|results| - 1])
  }

  lemma NotedAppended(results: seq<Result>, r: Result)
    ensures Noted(results + [r]) == Noted(results).Note(r)
  {
    assert (results + [r])[..|results|] == results;
  }

  /** Counting a result has nothing to do with the flag of other links. */
  lemma FlagIsApart(summary: Summary, r: Result, flag: bool)
    ensures summary.(otherLinks := flag).Note(r) == summary.Note(r).(otherLinks := flag)
  {
  }

  /** The five counts are of the results, each counted once. */
  lemma {:induction false} CountsAddUp(results: seq<Result>)
    requires |results| <= U64_MAX
    ensures Noted(results).Total() == |results| && !Noted(results).otherLinks
  {
    if results != [] {
      CountsAddUp(results[..|results| - 1]);
    }
  }

  /** How many of the results have such a verdict. */
  ghost function Ended(results: seq<Result>, so: Verdict -> bool): nat {
    |set i | 0 <= i < |results| && so(results[i].verdict)|
  }

  lemma EndedAppended(results: seq<Result>, r: Result, so: Verdict -> bool)
    ensures Ended(results + [r], so) == Ended(results, so) + if so(r.verdict) then 1 else 0
  {
    var before := set i | 0 <= i < |results| && so(results[i].verdict);
    var after := set i | 0 <= i < |results + [r]| && so((results + [r])[i].verdict);
    assert after == before + if so(r.verdict) then {|results|} else {};
  }

  lemma NoneEnded()
    ensures forall so :: Ended([], so) == 0
  {
  }

  function Capped(n: nat, most: nat): nat {
    if n > most then most else n
  }

  /** The logical bytes of the entries reported deleted. */
  function ApparentSum(results: seq<Result>): nat {
    if results == [] then 0 else
      var r := results[|results| - 1];
      ApparentSum(results[..|results| - 1]) + if r.verdict == Deleted then r.entry.snapshot.apparent else 0
  }

  /** Each count is of the results with its own verdict, and the logical bytes are those of the deleted ones, up
      to the largest numbers they can hold. */
  lemma {:induction false} CountsAreOfTheirVerdicts(results: seq<Result>)
    ensures Noted(results).deleted == Capped(Ended(results, (v: Verdict) => v.Deleted?), U64_MAX)
    ensures Noted(results).changed == Capped(Ended(results, (v: Verdict) => v.Changed?), U64_MAX)
    ensures Noted(results).missing == Capped(Ended(results, (v: Verdict) => v.Missing?), U64_MAX)
    ensures Noted(results).failed == Capped(Ended(results, (v: Verdict) => v.Failed?), U64_MAX)
    ensures Noted(results).unattempted == Capped(Ended(results, (v: Verdict) => v.Unattempted?), U64_MAX)
    ensures Noted(results).apparent == Capped(ApparentSum(results), U128_MAX)
  {
    hide Ended, FreedBytes;
    if results == [] {
      NoneEnded();
    } else {
      var before, r := results[..|results| - 1], results[|results| - 1];
      assert results == before + [r];
      CountsAreOfTheirVerdicts(before);
      EndedAppended(before, r, (v: Verdict) => v.Deleted?);
      EndedAppended(before, r, (v: Verdict) => v.Changed?);
      EndedAppended(before, r, (v: Verdict) => v.Missing?);
      EndedAppended(before, r, (v: Verdict) => v.Failed?);
      EndedAppended(before, r, (v: Verdict) => v.Unattempted?);
    }
  }

  function ResultTexts(format: Format, results: seq<Result>): (texts: seq<Text>)
    ensures |texts| == |results|
  {
    seq(|results|, i requires 0 <= i < |results| => format.ResultText(results[i]))
  }

  lemma ResultTextsAppended(format: Format, results: seq<Result>, r: Result)
    ensures ResultTexts(format, results + [r]) == ResultTexts(format, results) + [format.ResultText(r)]
  {
  }

  /** The result as it is kept: its detail bounded. */
  function Kept(r: Result): Result {
    match r.verdict
    case Changed(detail) => r.(verdict := Changed(Bounded(detail)))
    case Failed(detail) => r.(verdict := Failed(Bounded(detail)))
    case _ => r
  }

  method BoundDetail(r: Result) returns (kept: Result)
    ensures kept == Kept(r)
  {
    kept := r;
    if r.verdict.Changed? {
      var detail := BoundedDetail(r.verdict.detail);
      kept := r.(verdict := Changed(detail));
    } else if r.verdict.Failed? {
      var detail := BoundedDetail(r.verdict.detail);
      kept := r.(verdict := Failed(detail));
    }
  }

  lemma KeptIsShort(r: Result)
    ensures DetailBytes(Kept(r).verdict) <= MAX_DETAIL_BYTES && Kept(r).entry == r.entry
    ensures FreedBytes(Kept(r)) == FreedBytes(r)
  {
  }

  /** In a spill file with this reservation, and these results already in it, there is room for one more. */
  predicate Storable(format: Format, reservation: nat, results: seq<Result>, kept: Result) {
    && |format.ResultText(kept)| <= MAX_RESULT_RECORD_BYTES && |results| < U64_MAX
    && TakenBytes(format, results) + FrameBytes(|format.ResultText(kept)|) <= reservation
    && TakenBytes(format, results) + FrameBytes(|format.ResultText(kept)|) <= U64_MAX
  }

  class ResultCollector {
    var resident: seq<Result>
    var estimatedBytes: nat
    var spill: RecordSpill?
    var summary: Summary
    var targetRemoved: bool
    const target: seq<Name>
    const maximumBytes: nat
    const format: Format
    /** The results that were stored, and the ones that were counted: the last one counted may be one that
        could not be stored. */
    ghost var results: seq<Result>
    ghost var noted: seq<Result>

    ghost function Repr(): set<object>
      reads this
    {
      {this} + if spill == null then {} else {spill}
    }

    ghost predicate Valid()
      reads this, spill
    {
      && results <= noted && |noted| <= |results| + 1
      && summary == Noted(noted).(otherLinks := summary.otherLinks)
      && (targetRemoved <==> exists r <- noted :: RemovesTarget(r, target))
      && if spill == null then resident == results else
           && resident == [] && spill.Valid() && spill.contents == ResultTexts(format, results)
           && spill.maximumPayload == MAX_RESULT_RECORD_BYTES
    }

    /** The results of these entries will all be stored, whatever they say. */
    ghost predicate HasRoomFor(entries: seq<Entry>)
      reads this, spill
    {
      && Recordable(format, entries)
      && |results| + |entries| <= U64_MAX
      && if spill == null then maximumBytes >= USIZE_MAX || estimatedBytes + TotalBound(format, entries) <= maximumBytes
         else
           && spill.Whole() && spill.ios == [] && spill.reservation <= U64_MAX
           && spill.length + TotalCapacity(format, entries) <= spill.reservation
    }

    /** The file, if there is one, is as it was left and does what it is asked to. */
    ghost predicate Steady()
      reads this, spill
    {
      spill != null ==> spill.ios == [] && spill.Whole()
    }

    function Reserved(): nat
      reads this, spill
    {
      if spill == null then 0 else spill.reservation
    }

    /** There is room for this result. */
    ghost predicate Fits(kept: Result)
      reads this, spill
    {
      if spill == null then SatAdd(estimatedBytes, ResultBytes(format, kept)) <= maximumBytes
      else Storable(format, spill.reservation, results, kept)
    }

    /** Takes over the room that was reserved for a plan. */
    constructor (storage: PlannedResultStorage, target: seq<Name>)
      requires storage.Valid()
      ensures Valid() && results == noted == [] && !targetRemoved && summary == NOTHING
      ensures this.target == target && format == storage.format && maximumBytes == storage.maximumBytes
      ensures spill == storage.spill && estimatedBytes == 0
      ensures storage.Untroubled() ==> Steady()
      ensures spill != null ==> Reserved() == TotalCapacity(format, storage.planned)
    {
      this.target, format, maximumBytes := target, storage.format, storage.maximumBytes;
      resident, estimatedBytes, summary, targetRemoved := [], 0, NOTHING, false;
      spill, results, noted := storage.spill, [], [];
    }

    lemma LengthIsTaken()
      requires Valid() && spill != null
      ensures spill.length == TakenBytes(format, results) && spill.maximumPayload == MAX_RESULT_RECORD_BYTES
    {
      TakenIsLogged(format, results);
    }

    method NoteOtherLinks()
      requires Valid()
      modifies this`summary
      ensures Valid() && summary == old(summary).(otherLinks := true)
    {
      summary := summary.(otherLinks := true);
    }

    /** Counts a result and stores it. It is counted even when it cannot be stored. */
    method Push(result: Result, ghost planned: Entry, ghost rest: seq<Entry>) returns (e: Option<SpillError>)
      requires Valid() && results == noted
      modifies Repr()
      ensures Valid() && spill == old(spill)
      ensures noted == old(noted) + [Kept(result)] && summary.otherLinks == old(summary).otherLinks
      ensures results == if e.None? then noted else old(results)
      ensures old(HasRoomFor(rest + [planned])) && SameButLinks(planned, result.entry) ==>
        e.None? && HasRoomFor(rest)
      ensures old(Steady()) ==> Steady() && (e.None? <==> old(Fits(Kept(result))))
      ensures Reserved() == old(Reserved())
    {
      hide RecordSpill.Valid, Format.Capacity, Format.ResultText, ResultTexts, TotalCapacity, TotalBound, Recordable;
      hide ResultBound, ResultBytes, Noted, Kept, RemovesTarget, SameButLinks;
      var kept := BoundDetail(result);
      if spill != null { LengthIsTaken(); }
      if HasRoomFor(rest + [planned]) && SameButLinks(planned, result.entry) {
        KeptIsShort(result);
        TotalsAppended(format, rest, planned);
        RecordableLast(format, rest, planned, kept);
      }
      Note(kept);
      if spill == null {
        e := StoreResident(kept);
      } else {
        e := StoreSpilled(kept);
      }
    }

    method Note(kept: Result)
      requires summary == Noted(noted).(otherLinks := summary.otherLinks)
      requires targetRemoved <==> exists r <- noted :: RemovesTarget(r, target)
      modifies this`summary, this`targetRemoved, this`noted
      ensures noted == old(noted) + [kept] && summary == Noted(noted).(otherLinks := old(summary).otherLinks)
      ensures targetRemoved <==> exists r <- noted :: RemovesTarget(r, target)
    {
      hide RemovesTarget, Noted, Summary.Note;
      targetRemoved := targetRemoved || RemovesTarget(kept, target);
      FlagIsApart(Noted(noted), kept, summary.otherLinks);
      summary := summary.Note(kept);
      NotedAppended(noted, kept);
      assert forall r <- noted + [kept] :: r in noted || r == kept;
      assert forall r <- noted :: r in noted + [kept];
      assert kept in noted + [kept];
      noted := noted + [kept];
    }

    method StoreResident(kept: Result) returns (e: Option<SpillError>)
      requires spill == null && resident == results
      modifies this`resident, this`estimatedBytes, this`results
      ensures resident == results == old(results) + if e.None? then [kept] else []
      ensures var next := SatAdd(old(estimatedBytes), ResultBytes(format, kept));
              && (e.None? <==> next <= maximumBytes)
              && estimatedBytes == if e.None? then next else old(estimatedBytes)
    {
      var next := SatAdd(estimatedBytes, ResultBytes(format, kept));
      if next > maximumBytes { return Some(Denied); }
      estimatedBytes := next;
      resident := resident + [kept];
      results := results + [kept];
      e := None;
    }

    method StoreSpilled(kept: Result) returns (e: Option<SpillError>)
      requires spill != null && spill.Valid() && spill.contents == ResultTexts(format, results)
      modifies spill, this`results
      ensures spill.Valid() && spill.contents == ResultTexts(format, results)
      ensures results == old(results) + if e.None? then [kept] else []
      ensures spill.reservation == old(spill.reservation)
      ensures old(Takes(spill, |results|, |format.ResultText(kept)|)) ==>
        && e.None? && spill.Whole() && spill.ios == []
        && spill.length == old(spill.length) + FrameBytes(|format.ResultText(kept)|)
      ensures old(spill.Whole() && spill.ios == []) ==>
        && spill.Whole() && spill.ios == []
        && (e.None? <==> old(Granted(spill, |results|, |format.ResultText(kept)|)))
    {
      hide RecordSpill.Valid, Format.ResultText;
      spill.ValidIsSound();
      e := spill.Append(format.ResultText(kept), false);
      spill.ValidIsSound();
      if e.None? {
        ResultTextsAppended(format, results, kept);
        results := results + [kept];
      }
    }
  }

  /** A reserved record of so many bytes can be appended. */
  ghost predicate Takes(spill: RecordSpill, records: nat, bytes: nat)
    reads spill
  {
    && spill.Whole() && spill.ios == [] && records < U64_MAX && bytes <= spill.maximumPayload
    && spill.length + FrameBytes(bytes) <= spill.reservation <= U64_MAX
  }

  ghost predicate Granted(spill: RecordSpill, records: nat, bytes: nat)
    reads spill
  {
    && records < U64_MAX && bytes <= spill.maximumPayload
    && spill.length + FrameBytes(bytes) <= spill.reservation && spill.length + FrameBytes(bytes) <= U64_MAX
  }

  lemma RecordableLast(format: Format, rest: seq<Entry>, planned: Entry, kept: Result)
    requires Recordable(format, rest + [planned]) && SameButLinks(planned, kept.entry)
    requires DetailBytes(kept.verdict) <= MAX_DETAIL_BYTES
    ensures Recordable(format, rest)
    ensures |format.ResultText(kept)| <= format.Capacity(planned) <= MAX_RESULT_RECORD_BYTES
    ensures ResultBytes(format, kept) <= ResultBound(format, planned)
  {
    assert planned in rest + [planned];
    ResultFits(format, planned, kept);
    ResultBytesBounded(format, kept);
  }

  /** What a report keeps of a run's results. */
  class DeletionEntries {
    const resident: seq<Result>
    const spill: RecordSpill?
    const target: seq<Name>
    const records: nat
    const summary: Summary
    const targetRemoved: bool
    const complete: bool
    const format: Format
    ghost const results: seq<Result>

    ghost predicate Valid()
      reads this, spill
    {
      && records == |results|
      && if spill == null then resident == results else
           spill.Valid() && spill.contents == ResultTexts(format, results)
    }

    constructor (collector: ResultCollector, complete: bool)
      requires collector.Valid()
      ensures Valid() && results == collector.results && this.complete == complete
      ensures summary == collector.summary && targetRemoved == collector.targetRemoved
      ensures spill == collector.spill && format == collector.format && target == collector.target
    {
      resident, spill, target := collector.resident, collector.spill, collector.target;
      records := if collector.spill == null then |collector.resident| else collector.spill.records;
      summary, targetRemoved, this.complete := collector.summary, collector.targetRemoved, complete;
      format, results := collector.format, collector.results;
    }

    /** Reads the report's results in order, up to the first that cannot be read. */
    method Iterate() returns (read: seq<Result>, whole: bool)
      requires Valid() && format.Lawful()
      modifies if spill == null then {} else {spill}`ios
      ensures Valid() && read <= results
      ensures whole ==> read == results
      ensures spill == null ==> whole
      ensures spill != null && old(spill.ios) == [] && spill.Whole() && (forall r <- results :: UnderTarget(target, r.entry.path))
        ==> whole
    {
      hide Format.Lawful, Format.ResultText, RecordSpill.Valid;
      if spill == null { return resident, true; }
      read, whole := [], false;
      var offset, remaining := 0, records;
      EmptyLog();
      assert spill.contents[..0] == [];
      while remaining > 0
        invariant 0 <= remaining <= records && read == results[..records - remaining]
        invariant Valid() && spill.contents == old(spill.contents) && offset == Offset(spill.contents, records - remaining)
        invariant old(spill.ios) == [] ==> spill.ios == []
        decreases remaining
      {
        ghost var k := records - remaining;
        spill.ValidIsSound();
        var record := spill.ReadAt(offset);
        assert offset == Offset(spill.contents, k) && k < |spill.contents|;
        assert spill.Valid();
        assert record == Ok((spill.contents[k], Offset(spill.contents, k + 1))) || record == Err(System) || record == Err(Resized);
        assert record == Err(Resized) ==> !spill.Whole();
        assert old(spill.ios) == [] ==> record != Err(System);
        if record.Err? { return; }
        assert record.value == (spill.contents[k], Offset(spill.contents, k + 1));
        assert spill.contents[k] == format.ResultText(results[k]);
        ResultRead(format, results[k]);
        var result := format.readResult(record.value.0);
        if result.None? || !UnderTarget(target, result.value.entry.path) { return; }
        assert results[k] in results && results[..k + 1] == results[..k] + [results[k]];
        read := read + [result.value];
        offset, remaining := record.value.1, remaining - 1;
      }
      assert results[..records] == results;
      whole := true;
    }
  }

  lemma ResultRead(format: Format, r: Result)
    requires format.Lawful()
    ensures format.readResult(format.ResultText(r)) == Some(r)
  {
  }

  /** A detail of control characters, each of which takes six bytes when it is written. */
  predicate AllControl(detail: Text) {
    forall b <- detail :: b == 1
  }

  lemma {:induction false} ControlEscapes(detail: Text)
    requires AllControl(detail)
    ensures |Escape(detail)| == MAX_ESCAPED_BYTES * |detail|
  {
    if detail != [] {
      assert detail[0] in detail;
      assert forall b <- detail[1..] :: b in detail;
      ControlEscapes(detail[1..]);
    }
  }

  function ControlBytes(n: nat): (detail: Text)
    ensures |detail| == n && AllControl(detail)
  {
    if n == 0 then [] else [1] + ControlBytes(n - 1)
  }

  /** The result of an entry that takes the most room. */
  function LargestResult(entry: Entry): Result {
    Result(entry.(snapshot := entry.snapshot.(links := Some(U64_MAX))), Changed(ControlBytes(MAX_DETAIL_BYTES)))
  }

  lemma {:induction false} DecimalLow(n: nat, digits: nat)
    requires n >= Pow10(digits)
    ensures Pow10(digits) > 0 && |Decimal(n)| > digits
  {
    if digits > 0 {
      assert n / 10 >= Pow10(digits - 1);
      DecimalLow(n / 10, digits - 1);
    }
  }

  lemma WidestLinks(links: Option<LinkCount>)
    ensures |LinksText(links)| <= |LinksText(Some(U64_MAX))| == 20
  {
    U64Digits(U64_MAX);
    assert Pow10(5) == 100000;
    assert Pow10(10) == 10000000000;
    assert Pow10(15) == 1000000000000000;
    assert Pow10(19) == 10000000000000000000;
    DecimalLow(U64_MAX, 19);
    if links.Some? { U64Digits(links.value); }
  }

  /** No result of the entry is larger. */
  lemma LargestIsLargest(format: Format, planned: Entry, r: Result)
    requires SameButLinks(planned, r.entry) && DetailBytes(r.verdict) <= MAX_DETAIL_BYTES
    ensures |format.ResultText(r)| <= |format.ResultText(LargestResult(planned))|
  {
    assert WithoutLinks(planned) == WithoutLinks(r.entry) == WithoutLinks(LargestResult(planned).entry);
    WidestLinks(r.entry.snapshot.links);
    ControlEscapes(ControlBytes(MAX_DETAIL_BYTES));
    if r.verdict.Changed? || r.verdict.Failed? { EscapeBound(r.verdict.detail); }
  }

  /** The bytes that results take in a spill file. */
  function TakenBytes(format: Format, results: seq<Result>): nat {
    if results == [] then 0 else
      TakenBytes(format, results[..|results| - 1]) + FrameBytes(|format.ResultText(results[|results| - 1])|)
  }

  lemma {:induction false} TakenByFirst(format: Format, results: seq<Result>)
    requires results != []
    ensures TakenBytes(format, results) == FrameBytes(|format.ResultText(results[0])|) + TakenBytes(format, results[1..])
  {
    var last := |results| - 1;
    if last > 0 {
      TakenByFirst(format, results[..last]);
      assert results[..last][1..] == results[1..][..last - 1];
    }
  }

  /** What the results of a run take is what its file holds. */
  lemma {:induction false} TakenIsLogged(format: Format, results: seq<Result>)
    ensures |Log(ResultTexts(format, results))| == TakenBytes(format, results)
  {
    hide Frame, Log, Format.ResultText, ResultTexts;
    if results == [] {
      NoResultTexts(format);
    } else {
      var before, last := results[..|results| - 1], results[|results| - 1];
      TakenIsLogged(format, before);
      ResultTextsAppended(format, before, last);
      assert results == before + [last];
      LogAppended(ResultTexts(format, before), format.ResultText(last));
      FrameIsLong(|Log(ResultTexts(format, before))|, format.ResultText(last));
    }
  }

  lemma NoResultTexts(format: Format)
    ensures |Log(ResultTexts(format, []))| == 0
  {
    EmptyLog();
    assert ResultTexts(format, []) == [];
  }

  lemma FrameIsLong(offset: nat, payload: Bytes)
    ensures |Frame(offset, payload)| == FrameBytes(|payload|)
  {
  }

  /** The results of a whole plan, last entry first. */
  predicate InReverse(planned: seq<Entry>, results: seq<Result>) {
    |results| == |planned| && forall i | 0 <= i < |planned| :: SameButLinks(planned[|planned| - 1 - i], results[i].entry)
  }

  /** What is reserved for an entry beyond what every result of it repeats, before its links and verdict. */
  const SHARE := |CHANGED| + |CLOSE| + MAX_DETAIL_BYTES * MAX_ESCAPED_BYTES + ENVELOPE_BYTES

  /** What a result leaves of the room reserved for its entry. */
  function Remainder(planned: Entry, r: Result): int {
    SHARE + |LinksText(planned.snapshot.links)| - |LinksText(r.entry.snapshot.links)| - |VerdictText(r.verdict)|
  }

  function Remainders(planned: seq<Entry>, results: seq<Result>): int
    requires |results| == |planned|
  {
    if planned == [] then 0 else
      Remainders(planned[..|planned| - 1], results[1..]) + Remainder(planned[|planned| - 1], results[0])
  }

  lemma RemainderIsLeft(format: Format, planned: Entry, r: Result)
    requires SameButLinks(planned, r.entry)
    ensures format.Capacity(planned) == |format.ResultText(r)| + Remainder(planned, r)
  {
    assert WithoutLinks(planned) == WithoutLinks(r.entry) && Escape([]) == [];
  }

  lemma {:induction false} RemaindersAreLeft(format: Format, planned: seq<Entry>, results: seq<Result>)
    requires InReverse(planned, results)
    ensures TotalCapacity(format, planned) == TakenBytes(format, results) + Remainders(planned, results)
  {
    hide Format.Capacity, Format.ResultText, Remainder, SameButLinks;
    if planned != [] {
      var last := |planned| - 1;
      assert SameButLinks(planned[last - 0], results[0].entry);
      forall i | 0 <= i < last
        ensures SameButLinks(planned[..last][last - 1 - i], results[1..][i].entry)
      {
        assert SameButLinks(planned[|planned| - 1 - (i + 1)], results[i + 1].entry);
      }
      RemaindersAreLeft(format, planned[..last], results[1..]);
      RemainderIsLeft(format, planned[last], results[0]);
      TakenByFirst(format, results);
    }
  }

  /** How long a marker is: its path with its escaping, its reviewed facts, and its detail as it is written. */
  function MarkerBytes(format: Format, marker: Result): nat
    requires marker.verdict.Failed?
  {
    var fixed := WithoutLinks(marker.entry);
    |format.head(fixed)| + |LinksText(marker.entry.snapshot.links)| + |format.middle(fixed)|
      + |Escape(marker.verdict.detail)| + |FAILED| + |CLOSE| + 1
  }

  /** The marker of an unreadable plan can be stored after all the plan's results exactly if its frame fits
      what they left of their shares. */
  lemma MarkerFitsExactly(format: Format, planned: seq<Entry>, results: seq<Result>, marker: Result)
    requires InReverse(planned, results) && 0 < |planned| < U64_MAX
    requires Recordable(format, planned) && TotalCapacity(format, planned) <= U64_MAX
    requires marker.verdict.Failed? && |marker.verdict.detail| <= MAX_DETAIL_BYTES && marker.entry == planned[0]
    ensures Storable(format, TotalCapacity(format, planned), results, marker) <==>
            FrameBytes(MarkerBytes(format, marker)) <= Remainders(planned, results)
  {
    hide Format.Capacity, Format.ResultText;
    RemaindersAreLeft(format, planned, results);
    MarkerSize(format, marker);
    ResultFits(format, planned[0], marker);
    assert planned[0] in planned;
  }

  lemma MarkerSize(format: Format, marker: Result)
    requires marker.verdict.Failed?
    ensures |format.ResultText(marker)| == MarkerBytes(format, marker)
  {
  }

  /** So it can miss: after the one entry of a plan, deleted, it fits exactly if what it repeats of the entry,
      with the two link counts between them, and its detail take at most 775 bytes. A longer path is enough
      to lose it. */
  lemma MarkerNeedsAShare(format: Format, entry: Entry, r: Result, marker: Result)
    requires SameButLinks(entry, r.entry) && r.verdict == Deleted && format.Capacity(entry) <= MAX_RESULT_RECORD_BYTES
    requires marker.verdict.Failed? && |marker.verdict.detail| <= MAX_DETAIL_BYTES && marker.entry == entry
    ensures Storable(format, TotalCapacity(format, [entry]), [r], marker) <==>
            |format.head(WithoutLinks(entry))| + |format.middle(WithoutLinks(entry))|
              + |LinksText(r.entry.snapshot.links)| + |Escape(marker.verdict.detail)| <= 775
  {
    assert [entry][..0] == [] && [r][1..] == [] && [] + [entry] == [entry];
    TotalsAppended(format, [], entry);
    MarkerFitsExactly(format, [entry], [r], marker);
  }

  /** Deleted results leave at least 834 bytes each, so with more entries it takes a longer path. */
  lemma {:induction false} DeletedRemainders(planned: seq<Entry>, results: seq<Result>)
    requires |results| == |planned| && forall r <- results :: r.verdict == Deleted
    requires forall r <- results :: r.entry.snapshot.links in {None, Some(1)}
    ensures Remainders(planned, results) >= 834 * |planned|
  {
    if planned != [] {
      assert results[0] in results && forall r <- results[1..] :: r in results;
      DeletedRemainders(planned[..|planned| - 1], results[1..]);
      if planned[|planned| - 1].snapshot.links.Some? { U64Digits(planned[|planned| - 1].snapshot.links.value); }
    }
  }
}
