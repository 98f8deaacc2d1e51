/** The history of deletion reports: a place is kept in it for every deletion that is allowed to start, in
    number and in bytes. */
module History {
  import opened Outcomes
  import FileSystem
  import Records

  type Path = seq<FileSystem.Name>

  const MAX_REPORTS := 32
  const MAX_WORK_ITEMS := 4
  const MINIMUM_PLAN_BYTES := 4 * 1024
  const USIZE_MAX := Records.USIZE_MAX

  datatype Report = Report(work: nat, estimatedBytes: nat)

  /** A deletion on the rail, with the budget its plan was granted. */
  datatype Item = Item(id: nat, path: Path, historyBytes: nat)

  datatype Answer = Started(id: nat) | HistoryFull | QueueFull | OverlappingTarget

  function ReportBytes(reports: seq<Report>): nat {
    if reports == [] then 0 else ReportBytes(reports[..|reports| - 1]) + reports[|reports| - 1].estimatedBytes
  }

  function GrantedBytes(items: seq<Item>): nat {
    if items == [] then 0 else GrantedBytes(items[..|items| - 1]) + items[|items| - 1].historyBytes
  }

  lemma {:induction false} ReportBytesSplit(a: seq<Report>, b: seq<Report>)
    ensures ReportBytes(a + b) == ReportBytes(a) + ReportBytes(b)
  {
    if b == [] {
      assert a + b == a;
    } else {
      assert (a + b)[..|a + b| - 1] == a + b[..|b| - 1];
      ReportBytesSplit(a, b[..|b| - 1]);
    }
  }

  lemma {:induction false} GrantedBytesSplit(a: seq<Item>, b: seq<Item>)
    ensures GrantedBytes(a + b) == GrantedBytes(a) + GrantedBytes(b)
  {
    if b == [] {
      assert a + b == a;
    } else {
      assert (a + b)[..|a + b| - 1] == a + b[..|b| - 1];
      GrantedBytesSplit(a, b[..|b| - 1]);
    }
  }

  lemma GrantedOne(item: Item)
    ensures GrantedBytes([item]) == item.historyBytes
  {
    assert [item][..0] == [];
  }

  lemma {:induction false} GrantedWithout(items: seq<Item>, i: nat)
    requires i < |items|
    ensures GrantedBytes(items) == GrantedBytes(Without(items, i)) + items[i].historyBytes
    decreases |items|
  {
    var last := |items| - 1;
    if i < last {
      GrantedWithout(items[..last], i);
      assert Without(items, i)[..last - 1] == Without(items[..last], i);
    } else {
      assert Without(items, i) == items[..last];
    }
  }

  function Without(items: seq<Item>, i: nat): (rest: seq<Item>)
    requires i < |items|
    ensures |rest| == |items| - 1
  {
    items[..i] + items[i + 1..]
  }

  /** One target is the other's, or lies below it. */
  predicate Overlap(a: Path, b: Path) {
    a <= b || b <= a
  }

  function SatSub(a: nat, b: nat): nat {
    if a < b then 0 else a - b
  }

  function SatAdd(a: nat, b: nat): nat {
    if a + b > USIZE_MAX then USIZE_MAX else a + b
  }

  /** The deletion history and the rail of deletions under way. */
  class DeletionHistory {
    const limit: nat
    var reports: seq<Report>
    var bytes: nat
    var items: seq<Item>
    var nextId: nat

    /** Reports and budgets fit the limits together, so that each budget can become a report. */
    ghost predicate Valid()
      reads this
    {
      && limit <= USIZE_MAX && bytes == ReportBytes(reports)
      && bytes + GrantedBytes(items) <= limit
      && |reports| + |items| <= MAX_REPORTS && |items| <= MAX_WORK_ITEMS
      && (forall item <- items :: item.id < nextId)
      && (forall i, j | 0 <= i < j < |items| :: items[i].id != items[j].id && !Overlap(items[i].path, items[j].path))
    }

    /** The reports fit the limits. */
    ghost predicate Within()
      reads this
    {
      limit <= USIZE_MAX && bytes == ReportBytes(reports) <= limit && |reports| <= MAX_REPORTS
    }

    constructor (limit: nat)
      requires limit <= USIZE_MAX
      ensures Valid() && reports == [] && items == [] && this.limit == limit
    {
      this.limit, reports, bytes, items, nextId := limit, [], 0, [], 0;
    }

    function RoomBytes(): nat
      reads this
    {
      SatSub(limit, bytes)
    }

    /** The budgets of the deletions under way. */
    method BytesInFlight() returns (sum: nat)
      requires Valid()
      ensures sum == GrantedBytes(items)
    {
      sum := 0;
      assert items[..0] == [];
      for k := 0 to |items|
        invariant sum == GrantedBytes(items[..k])
      {
        assert items[..k + 1][..k] == items[..k];
        GrantedBytesSplit(items[..k + 1], items[k + 1..]);
        assert items == items[..k + 1] + items[k + 1..];
        sum := SatAdd(sum, items[k].historyBytes);
      }
      assert items[..|items|] == items;
    }

    method RemainingBytes() returns (remaining: nat)
      requires Valid()
      ensures remaining == limit - bytes - GrantedBytes(items)
    {
      var inFlight := BytesInFlight();
      remaining := SatSub(RoomBytes(), inFlight);
    }

    /** Starts a deletion if its report will find a place, with half of the room that is left. */
    method RequestDeletion(path: Path) returns (answer: Answer, maximumBytes: nat)
      requires Valid()
      modifies this`items, this`nextId
      ensures Valid()
      ensures var room := limit - bytes - GrantedBytes(old(items));
              && (answer == HistoryFull <==> |reports| + |old(items)| >= MAX_REPORTS || room < MINIMUM_PLAN_BYTES)
              && (answer.Started? ==> maximumBytes == room / 2 && maximumBytes >= MINIMUM_PLAN_BYTES / 2)
      ensures answer == QueueFull <==> answer != HistoryFull && |old(items)| >= MAX_WORK_ITEMS
      ensures answer == OverlappingTarget <==>
              answer != HistoryFull && answer != QueueFull && exists item <- old(items) :: Overlap(item.path, path)
      ensures answer.Started? ==> items == old(items) + [Item(answer.id, path, maximumBytes)]
                                  && forall item <- old(items) :: item.id != answer.id
      ensures !answer.Started? ==> items == old(items)
    {
      maximumBytes := 0;
      var remaining := RemainingBytes();
      if SatAdd(|reports|, |items|) >= MAX_REPORTS || remaining < MINIMUM_PLAN_BYTES {
        return HistoryFull, 0;
      }
      maximumBytes := remaining / 2;
      if |items| >= MAX_WORK_ITEMS { return QueueFull, maximumBytes; }
      if exists item <- items :: Overlap(item.path, path) { return OverlappingTarget, maximumBytes; }
      answer := Started(nextId);
      Enqueue(path, maximumBytes);
    }

    method Enqueue(path: Path, maximumBytes: nat)
      requires Valid() && |items| < MAX_WORK_ITEMS && |reports| + |items| < MAX_REPORTS
      requires bytes + GrantedBytes(items) + maximumBytes <= limit
      requires forall item <- items :: !Overlap(item.path, path)
      modifies this`items, this`nextId
      ensures Valid() && items == old(items) + [Item(old(nextId), path, maximumBytes)]
    {
      var item := Item(nextId, path, maximumBytes);
      GrantedBytesSplit(items, [item]);
      GrantedOne(item);
      items := items + [item];
      nextId := nextId + 1;
    }

    /** The deletion leaves the rail without a report: it was cancelled, or its plan was refused. */
    method Cancel(id: nat)
      requires Valid()
      modifies this`items
      ensures Valid()
      ensures forall item :: item in items <==> item in old(items) && item.id != id
    {
      TakeOff(id);
    }

    method TakeOff(id: nat)
      requires Valid()
      modifies this`items
      ensures Valid()
      ensures forall item :: item in items <==> item in old(items) && item.id != id
      ensures forall item <- old(items) | item.id == id ::
        |items| == |old(items)| - 1 && GrantedBytes(items) == GrantedBytes(old(items)) - item.historyBytes
    {
      var i := 0;
      while i < |items| && items[i].id != id
        invariant 0 <= i <= |items|
        invariant forall k | 0 <= k < i :: items[k].id != id
      {
        i := i + 1;
      }
      if i < |items| { RemoveAt(i); }
    }

    method RemoveAt(i: nat)
      requires Valid() && i < |items|
      modifies this`items
      ensures Valid() && items == Without(old(items), i)
      ensures GrantedBytes(items) == GrantedBytes(old(items)) - old(items)[i].historyBytes
      ensures forall item :: item in items <==> item in old(items) && item.id != old(items)[i].id
    {
      hide Overlap, GrantedBytes, ReportBytes;
      GrantedWithout(items, i);
      LeftBehind(items, i);
      hide Without;
      items := Without(items, i);
    }

    /** The deletion is over: the history takes its report if there is a place for it, which there is for every
        report that is charged within the budget its deletion was granted. */
    method Complete(id: nat, estimatedBytes: nat)
      requires Valid()
      modifies this`items, this`reports, this`bytes
      ensures Within() && forall item :: item in items <==> item in old(items) && item.id != id
      ensures reports == old(reports) +
        if |old(reports)| < MAX_REPORTS && estimatedBytes <= limit - old(bytes) then [Report(id, estimatedBytes)] else []
      ensures (exists item <- old(items) :: item.id == id && estimatedBytes <= item.historyBytes) ==>
        Valid() && reports == old(reports) + [Report(id, estimatedBytes)]
      ensures reports == old(reports) ==> Valid()
    {
      hide GrantedBytes, Overlap;
      TakeOff(id);
      if |reports| < MAX_REPORTS && estimatedBytes <= RoomBytes() {
        ReportBytesSplit(reports, [Report(id, estimatedBytes)]);
        assert [Report(id, estimatedBytes)][..0] == [];
        bytes := SatAdd(bytes, estimatedBytes);
        reports := reports + [Report(id, estimatedBytes)];
      }
    }

    /** The reports that an export wrote are dropped; those of deletions that finished meanwhile stay. */
    method DropExported(exported: nat)
      requires Valid()
      modifies this`reports, this`bytes
      ensures Valid()
      ensures reports == old(reports)[if exported < |old(reports)| then exported else |old(reports)|..]
    {
      var n := if exported < |reports| then exported else |reports|;
      assert reports == reports[..n] + reports[n..];
      ReportBytesSplit(reports[..n], reports[n..]);
      var freed := SumBytes(reports[..n]);
      bytes := SatSub(bytes, freed);
      reports := reports[n..];
    }
  }

  method SumBytes(reports: seq<Report>) returns (sum: nat)
    ensures ReportBytes(reports) <= USIZE_MAX ==> sum == ReportBytes(reports)
  {
    sum := 0;
    assert reports[..0] == [];
    for k := 0 to |reports|
      invariant ReportBytes(reports) <= USIZE_MAX ==> sum == ReportBytes(reports[..k])
    {
      assert reports[..k + 1][..k] == reports[..k];
      assert reports == reports[..k + 1] + reports[k + 1..];
      ReportBytesSplit(reports[..k + 1], reports[k + 1..]);
      sum := SatAdd(sum, reports[k].estimatedBytes);
    }
    assert reports[..|reports|] == reports;
  }

  /** Only the one deletion leaves the rail. */
  lemma LeftBehind(items: seq<Item>, i: nat)
    requires i < |items|
    requires forall j, k | 0 <= j < k < |items| :: items[j].id != items[k].id && !Overlap(items[j].path, items[k].path)
    ensures forall item :: item in Without(items, i) <==> item in items && item.id != items[i].id
    ensures var rest := Without(items, i); forall j, k | 0 <= j < k < |rest| ::
      rest[j].id != rest[k].id && !Overlap(rest[j].path, rest[k].path)
  {
    var rest := Without(items, i);
    assert forall k | 0 <= k < |rest| :: rest[k] == items[if k < i then k else k + 1];
    forall item | item in items && item.id != items[i].id
      ensures item in rest
    {
      var k :| 0 <= k < |items| && items[k] == item;
      assert rest[if k < i then k else k - 1] == item;
    }
  }
}
