/** The deletion spill file: records framed by their length on both sides, each with an authentication
    tag over its offset, its length and its payload. It is a stack, a queue and a random-access file. */
module Spill {
  import opened Outcomes
  import opened LittleEndian

  const LENGTH_BYTES := 8
  const MAC_BYTES := 32

  type Bytes = seq<byte>

  /** What a tag is computed over. Two different stamps never have the same tag, and no other bytes pass
      for one: this stands for the keyed hash of section 2 of RFC 2104. */
  datatype Stamp = Stamp(offset: nat, header: Bytes, payload: Bytes)

  /** One byte of the file: a plain one, or the byte of a tag at an index. */
  datatype Cell = Plain(value: byte) | Tagged(stamp: Stamp, index: nat)

  datatype SpillError = TooLong | Overflow | Resized | Denied | Truncated | Inconsistent | Forged | Leftover | System

  function Plains(bytes: Bytes): (cells: seq<Cell>)
    ensures |cells| == |bytes|
  {
    seq(|bytes|, i requires 0 <= i < |bytes| => Plain(bytes[i]))
  }

  function Tag(stamp: Stamp): (cells: seq<Cell>)
    ensures |cells| == MAC_BYTES
  {
    seq(MAC_BYTES, i requires 0 <= i < MAC_BYTES => Tagged(stamp, i))
  }

  function Header(payload: Bytes): (header: Bytes)
    ensures |header| == LENGTH_BYTES
  {
    Le(|payload|, LENGTH_BYTES)
  }

  function Frame(offset: nat, payload: Bytes): (cells: seq<Cell>)
    ensures |cells| == |payload| + 2 * LENGTH_BYTES + MAC_BYTES
  {
    var header := Header(payload);
    Plains(header) + Plains(payload) + Tag(Stamp(offset, header, payload)) + Plains(header)
  }

  function FrameBytes(payload: nat): nat {
    payload + 2 * LENGTH_BYTES + MAC_BYTES
  }

  /** The file that holds these payloads, first pushed first. */
  function Log(payloads: seq<Bytes>): seq<Cell> {
    if payloads == [] then [] else
      var before := Log(payloads[..|payloads| - 1]);
      before + Frame(|before|, payloads[|payloads| - 1])
  }

  /** How bytes read: a byte of a tag may look like any number. */
  function Seen(cells: seq<Cell>, looks: Cell -> byte): (bytes: Bytes)
    ensures |bytes| == |cells|
  {
    seq(|cells|, i requires 0 <= i < |cells| => if cells[i].Plain? then cells[i].value else looks(cells[i]))
  }

  /** One record read at an offset of a file whose content may be anything. */
  function ReadRecord(file: seq<Cell>, looks: Cell -> byte, maximum: nat, offset: nat, end: nat)
    : (r: Answer<(Bytes, nat), SpillError>)
  {
    var headerEnd := offset + LENGTH_BYTES;
    if headerEnd > U64_MAX then Err(Overflow)
    else if headerEnd > end then Err(Truncated)
    else if headerEnd > |file| then Err(System)
    else
      var header := Seen(file[offset..headerEnd], looks);
      var length := FromLe(header);
      if length > maximum then Err(TooLong)
      else if FrameBytes(length) > U64_MAX || offset + FrameBytes(length) > U64_MAX then Err(Overflow)
      else if offset + FrameBytes(length) > end then Err(Truncated)
      else if offset + FrameBytes(length) > |file| then Err(System)
      else
        var payload := Seen(file[headerEnd..headerEnd + length], looks);
        var tag := file[headerEnd + length..headerEnd + length + MAC_BYTES];
        var trailer := Seen(file[headerEnd + length + MAC_BYTES..offset + FrameBytes(length)], looks);
        if trailer != header then Err(Inconsistent)
        else if tag != Tag(Stamp(offset, header, payload)) then Err(Forged)
        else Ok((payload, offset + FrameBytes(length)))
  }

  lemma U64Width()
    ensures Pow256(LENGTH_BYTES) == U64_MAX + 1
  {
    assert Pow256(2) == 0x1_0000;
    assert Pow256(4) == 0x1_0000_0000;
    assert Pow256(6) == 0x1_0000_0000_0000;
  }

  lemma SeenPlains(bytes: Bytes, looks: Cell -> byte)
    ensures Seen(Plains(bytes), looks) == bytes
  {
  }

  lemma SliceOfSlice<T>(whole: seq<T>, at: nat, part: seq<T>, i: nat, j: nat)
    requires at + |part| <= |whole| && whole[at..at + |part|] == part && i <= j <= |part|
    ensures whole[at + i..at + j] == part[i..j]
  {
    forall k | 0 <= k < j - i
      ensures whole[at + i..at + j][k] == part[i..j][k]
    {
      assert whole[at..at + |part|][i + k] == whole[at + i + k];
    }
  }

  lemma FrameParts(offset: nat, payload: Bytes)
    ensures var frame, header, tag := Frame(offset, payload), Header(payload), LENGTH_BYTES + |payload|;
            && frame[..LENGTH_BYTES] == Plains(header) && frame[LENGTH_BYTES..tag] == Plains(payload)
            && frame[tag..tag + MAC_BYTES] == Tag(Stamp(offset, header, payload))
            && frame[tag + MAC_BYTES..] == Plains(header)
  {
  }

  /** A frame that stands at its offset reads as its payload. */
  lemma ReadFrame(file: seq<Cell>, looks: Cell -> byte, maximum: nat, offset: nat, end: nat, payload: Bytes)
    requires |payload| <= maximum && offset + FrameBytes(|payload|) <= end <= |file| && end <= U64_MAX
    requires file[offset..offset + FrameBytes(|payload|)] == Frame(offset, payload)
    ensures ReadRecord(file, looks, maximum, offset, end) == Ok((payload, offset + FrameBytes(|payload|)))
  {
    var frame, header := Frame(offset, payload), Header(payload);
    var headerEnd := offset + LENGTH_BYTES;
    FrameParts(offset, payload);
    var tag := LENGTH_BYTES + |payload|;
    SliceOfSlice(file, offset, frame, 0, LENGTH_BYTES);
    SliceOfSlice(file, offset, frame, LENGTH_BYTES, tag);
    SliceOfSlice(file, offset, frame, tag, tag + MAC_BYTES);
    SliceOfSlice(file, offset, frame, tag + MAC_BYTES, |frame|);
    SeenPlains(header, looks);
    SeenPlains(payload, looks);
    U64Width();
    FromLeOfLe(|payload|, LENGTH_BYTES);
  }

  /** Whatever the file holds, a record that is accepted carries the tag of its offset and payload. */
  lemma AcceptedIsStamped(file: seq<Cell>, looks: Cell -> byte, maximum: nat, offset: nat, end: nat)
    requires ReadRecord(file, looks, maximum, offset, end).Ok?
    ensures var (payload, next) := ReadRecord(file, looks, maximum, offset, end).value;
            && next == offset + FrameBytes(|payload|) && next <= end && next <= |file| && |payload| <= maximum
            && Tagged(Stamp(offset, Header(payload), payload), 0) in file
  {
    var (payload, next) := ReadRecord(file, looks, maximum, offset, end).value;
    var header := Seen(file[offset..offset + LENGTH_BYTES], looks);
    LeOfFromLe(header);
    var tagAt := offset + LENGTH_BYTES + |payload|;
    assert file[tagAt] == file[tagAt..tagAt + MAC_BYTES][0] == Tag(Stamp(offset, header, payload))[0];
  }

  /** Where each record starts. */
  function Offset(payloads: seq<Bytes>, k: nat): nat
    requires k <= |payloads|
  {
    |Log(payloads[..k])|
  }

  lemma {:induction false} LogSplits(payloads: seq<Bytes>, k: nat)
    requires k < |payloads|
    ensures Offset(payloads, k + 1) == Offset(payloads, k) + FrameBytes(|payloads[k]|) <= |Log(payloads)|
    ensures Log(payloads)[Offset(payloads, k)..Offset(payloads, k + 1)] == Frame(Offset(payloads, k), payloads[k])
    decreases |payloads|
  {
    assert payloads[..k + 1][..k] == payloads[..k];
    if k == |payloads| - 1 {
      assert payloads[..k + 1] == payloads;
    } else {
      var init := payloads[..|payloads| - 1];
      assert init[..k] == payloads[..k] && init[..k + 1] == payloads[..k + 1];
      LogSplits(init, k);
      assert Log(payloads)[..|Log(init)|] == Log(init);
    }
  }

  /** Reading at the start of a record gives it, and the start of the next. */
  lemma ReadAtRecord(file: seq<Cell>, looks: Cell -> byte, maximum: nat, payloads: seq<Bytes>, k: nat)
    requires k < |payloads| && |payloads[k]| <= maximum
    requires |Log(payloads)| <= |file| && file[..|Log(payloads)|] == Log(payloads) && |Log(payloads)| <= U64_MAX
    ensures ReadRecord(file, looks, maximum, Offset(payloads, k), |Log(payloads)|)
         == Ok((payloads[k], Offset(payloads, k + 1)))
  {
    hide Frame, ReadRecord, Log;
    LogSplits(payloads, k);
    var a, b := Offset(payloads, k), Offset(payloads, k + 1);
    assert file[0..|Log(payloads)|] == Log(payloads);
    SliceOfSlice(file, 0, Log(payloads), a, b);
    ReadFrame(file, looks, maximum, a, |Log(payloads)|, payloads[k]);
  }

  ghost predicate StampedBy(cells: seq<Cell>, issued: set<Stamp>) {
    forall c <- cells :: c.Tagged? ==> c.stamp in issued
  }

  lemma LogAppended(payloads: seq<Bytes>, payload: Bytes)
    ensures Log(payloads + [payload]) == Log(payloads) + Frame(|Log(payloads)|, payload)
  {
    assert (payloads + [payload])[..|payloads|] == payloads;
  }

  lemma StampsAppended(file: seq<Cell>, issued: set<Stamp>, offset: nat, payload: Bytes, cut: nat)
    requires StampedBy(file, issued) && cut <= FrameBytes(|payload|)
    ensures StampedBy(file + Frame(offset, payload)[..cut], issued + {Stamp(offset, Header(payload), payload)})
  {
  }

  lemma StampedPrefix(file: seq<Cell>, issued: set<Stamp>, end: nat)
    requires StampedBy(file, issued) && end <= |file|
    ensures StampedBy(file[..end], issued)
  {
  }

  lemma StampInFile(file: seq<Cell>, issued: set<Stamp>, stamp: Stamp)
    requires StampedBy(file, issued) && Tagged(stamp, 0) in file
    ensures stamp in issued
  {
  }

  lemma EmptyLog()
    ensures Log([]) == []
  {
  }

  /** The last record of a file, found from the length at its end, and where it starts. */
  function LastRecord(file: seq<Cell>, looks: Cell -> byte, maximum: nat, length: nat)
    : Answer<(Bytes, nat), SpillError>
    requires |file| == length
  {
    if length < LENGTH_BYTES then Err(Truncated) else
      var size := FromLe(Seen(file[length - LENGTH_BYTES..], looks));
      if size > maximum then Err(TooLong)
      else if FrameBytes(size) > U64_MAX then Err(Overflow)
      else if FrameBytes(size) > length then Err(Truncated)
      else
        var start := length - FrameBytes(size);
        match ReadRecord(file, looks, maximum, start, length)
        case Err(e) => Err(e)
        case Ok((payload, end)) => if end != length then Err(Inconsistent) else Ok((payload, start))
  }

  lemma LastIsStamped(file: seq<Cell>, looks: Cell -> byte, maximum: nat, length: nat, issued: set<Stamp>)
    requires |file| == length && LastRecord(file, looks, maximum, length).Ok? && StampedBy(file, issued)
    ensures var (payload, start) := LastRecord(file, looks, maximum, length).value;
            start <= length && Stamp(start, Header(payload), payload) in issued && StampedBy(file[..start], issued)
  {
    hide ReadRecord, Seen, Tag;
    var (payload, start) := LastRecord(file, looks, maximum, length).value;
    AcceptedIsStamped(file, looks, maximum, start, length);
    StampInFile(file, issued, Stamp(start, Header(payload), payload));
    StampedPrefix(file, issued, start);
  }

  /** A file that ends with a frame ends with its payload's length. */
  lemma LengthAtTheEnd(before: seq<Cell>, looks: Cell -> byte, payload: Bytes)
    requires |before| + FrameBytes(|payload|) <= U64_MAX
    ensures var file := before + Frame(|before|, payload);
            && |file| == |before| + FrameBytes(|payload|)
            && FromLe(Seen(file[|file| - LENGTH_BYTES..], looks)) == |payload|
  {
    hide Frame;
    var frame := Frame(|before|, payload);
    FrameParts(|before|, payload);
    var file := before + frame;
    assert file[|file| - LENGTH_BYTES..] == frame[|frame| - LENGTH_BYTES..];
    SeenPlains(Header(payload), looks);
    U64Width();
    FromLeOfLe(|payload|, LENGTH_BYTES);
  }

  lemma LastOfLog(file: seq<Cell>, looks: Cell -> byte, maximum: nat, payloads: seq<Bytes>)
    requires payloads != [] && file == Log(payloads) && |file| <= U64_MAX && |payloads[|payloads| - 1]| <= maximum
    ensures var init := payloads[..|payloads| - 1];
            && LastRecord(file, looks, maximum, |file|) == Ok((payloads[|payloads| - 1], |Log(init)|))
            && |Log(init)| <= |file| && file[..|Log(init)|] == Log(init)
  {
    hide Frame, ReadRecord, Seen, FromLe;
    var before, payload := Log(payloads[..|payloads| - 1]), payloads[|payloads| - 1];
    var frame := Frame(|before|, payload);
    FrameParts(|before|, payload);
    assert file == before + frame;
    LengthAtTheEnd(before, looks, payload);
    assert file[|before|..|before| + |frame|] == frame;
    ReadFrame(file, looks, maximum, |before|, |file|, payload);
  }

  /** What the system does with one operation: whether the file can be sized, read and shortened, whether
      the storage quota grants a growth, and after how many bytes a write fails. */
  datatype Io = Io(works: bool, granted: bool, cut: Option<nat>)

  class RecordSpill {
    var file: seq<Cell>
    var length: nat
    var records: nat
    var reservation: nat
    var ios: seq<Io>
    const maximumPayload: nat
    const looks: Cell -> byte
    /** The payloads that the owner pushed and has not popped, and every tag it ever computed. */
    ghost var contents: seq<Bytes>
    ghost var issued: set<Stamp>

    /** No one but the owner makes tags, whatever else was written to the file. */
    ghost predicate Sound()
      reads this
    {
      StampedBy(file, issued)
    }

    ghost predicate Valid()
      reads this
    {
      && Sound()
      && length == |Log(contents)| <= |file| && file[..length] == Log(contents)
      && records == |contents| && length <= reservation && length <= U64_MAX && records <= U64_MAX
      && forall p <- contents :: |p| <= maximumPayload
    }

    lemma ValidIsSound()
      requires Valid()
      ensures Sound() && length <= U64_MAX && length <= reservation && records == |contents| <= U64_MAX
    {
    }

    /** The file is as long as the owner left it. */
    predicate Whole()
      reads this
    {
      |file| == length
    }

    constructor (maximumPayload: nat, looks: Cell -> byte, ios: seq<Io>)
      ensures Valid() && Whole() && contents == [] && reservation == 0
      ensures this.maximumPayload == maximumPayload && this.looks == looks && this.ios == ios
    {
      file, length, records, reservation := [], 0, 0, 0;
      this.maximumPayload, this.looks, this.ios := maximumPayload, looks, ios;
      contents, issued := [], {};
    }

    method NextIo() returns (io: Io)
      modifies this`ios
      ensures old(ios) == [] ==> io == Io(true, true, None) && ios == []
      ensures old(ios) != [] ==> io == old(ios)[0] && ios == old(ios)[1..]
    {
      if ios == [] {
        io := Io(true, true, None);
      } else {
        io, ios := ios[0], ios[1..];
      }
    }

    /** Makes room for `bytes` in the storage quota, before anything is written. */
    method ReserveTo(bytes: nat) returns (e: Option<SpillError>)
      requires Valid()
      modifies this`reservation, this`ios
      ensures Valid()
      ensures e == None || e == Some(Denied)
      ensures reservation == if e.None? && bytes > old(reservation) then bytes else old(reservation)
      ensures old(ios) == [] ==> ios == [] && e.None?
    {
      var io := NextIo();
      if bytes <= reservation { return None; }
      if !io.granted { return Some(Denied); }
      reservation := bytes;
      e := None;
    }

    /** Adds a record. The file may have been changed by others, as long as it is as long as it was left. */
    method Append(payload: Bytes, grow: bool) returns (e: Option<SpillError>)
      requires Sound() && length <= U64_MAX && records <= U64_MAX
      modifies this`file, this`length, this`records, this`reservation, this`ios, this`contents, this`issued
      ensures Sound() && length <= U64_MAX && records <= U64_MAX && (old(Valid()) ==> Valid())
      ensures e.None? ==> contents == old(contents) + [payload] && Whole()
      ensures e.None? ==> file == old(file) + Frame(old(length), payload)
      ensures e.None? ==> length == old(length) + FrameBytes(|payload|) && |payload| <= maximumPayload
      ensures e.Some? ==> contents == old(contents) && length == old(length) && old(file) <= file
      ensures reservation >= old(reservation) && (!grow ==> reservation == old(reservation))
      ensures e.None? && grow ==> reservation == if length > old(reservation) then length else old(reservation)
      ensures e == Some(Denied) && !grow ==> old(length) + FrameBytes(|payload|) > old(reservation)
      ensures e == Some(TooLong) ==> |payload| > maximumPayload
      ensures e == Some(Overflow) ==>
        old(length) + FrameBytes(|payload|) > U64_MAX || old(records) == U64_MAX
      ensures e == Some(Resized) ==> !old(Whole())
      ensures old(ios) == [] ==> ios == [] && e != Some(System) && (grow ==> e != Some(Denied))
      ensures e.None? || e.value in {TooLong, Overflow, Resized, Denied, System}
      ensures old(Whole()) && e.Some? && e.value != System ==> Whole()
    {
      hide Frame, Log, StampedBy;
      var io := NextIo();
      if |payload| > maximumPayload { return Some(TooLong); }
      var next := length + FrameBytes(|payload|);
      if next > U64_MAX || records + 1 > U64_MAX { return Some(Overflow); }
      if !io.works { return Some(System); }
      if |file| != length { return Some(Resized); }
      if grow {
        if next > reservation {
          if !io.granted { return Some(Denied); }
          reservation := next;
        }
      } else if next > reservation {
        return Some(Denied);
      }
      var written := WriteFrame(payload, io.cut);
      e := if written then None else Some(System);
    }

    /** Writes one framed record at the end of the file, or the first part of it. */
    method WriteFrame(payload: Bytes, cut: Option<nat>) returns (whole: bool)
      requires Sound() && Whole() && |payload| <= maximumPayload && records + 1 <= U64_MAX
      requires length + FrameBytes(|payload|) <= reservation && length + FrameBytes(|payload|) <= U64_MAX
      modifies this`file, this`length, this`records, this`contents, this`issued
      ensures Sound() && records <= U64_MAX && (old(Valid()) ==> Valid())
      ensures whole ==> contents == old(contents) + [payload] && Whole() && file == old(file) + Frame(old(length), payload)
      ensures whole ==> length == old(length) + FrameBytes(|payload|)
      ensures !whole ==> contents == old(contents) && length == old(length) && cut.Some? && old(file) <= file
    {
      hide Frame, Log, StampedBy;
      var frame := Frame(length, payload);
      whole := !(cut.Some? && cut.value < |frame|);
      var written := if whole then |frame| else cut.value;
      StampsAppended(file, issued, length, payload, written);
      issued := issued + {Stamp(length, Header(payload), payload)};
      assert frame[..|frame|] == frame;
      assert file[..length] == file;
      file := file + frame[..written];
      if whole {
        LogAppended(contents, payload);
        length, records, contents := length + |frame|, records + 1, contents + [payload];
      }
    }

    /** Takes the last record off. Whatever the file holds, what it returns was pushed at that offset. */
    method Pop() returns (r: Answer<Option<Bytes>, SpillError>)
      requires Sound() && length <= U64_MAX
      modifies this`file, this`length, this`records, this`reservation, this`ios, this`contents
      ensures Sound() && length <= old(length)
      ensures r.Ok? && r.value.Some? ==> Stamp(length, Header(r.value.value), r.value.value) in issued
      ensures r.Err? ==> Unmoved()
      ensures old(Valid()) && r == Ok(None) ==> contents == [] && Unmoved() && Whole()
      ensures old(Valid()) && r.Ok? && r.value.Some? ==>
        && Whole() && old(contents) == contents + [r.value.value]
        && reservation == if old(reservation) < length then old(reservation) else length
      ensures old(Valid()) ==> Valid()
      ensures old(Valid()) && r.Err? ==> r.error == System || (r.error == Resized && !old(Whole()))
      ensures old(ios) == [] ==> ios == [] && (old(Valid()) && old(Whole()) ==> r.Ok?)
    {
      hide Frame, Log, StampedBy, LastRecord;
      var io := NextIo();
      if !io.works { return Err(System); }
      if |file| != length { return Err(Resized); }
      if records == 0 {
        if Valid() && contents == [] { EmptyLog(); }
        return if length == 0 then Ok(None) else Err(Leftover);
      }
      if Valid() { LastOfLog(file, looks, maximumPayload, contents); }
      var record := LastRecord(file, looks, maximumPayload, length);
      if record.Err? { return Err(record.error); }
      if io.cut.Some? { return Err(System); }
      var (payload, start) := record.value;
      LastIsStamped(file, looks, maximumPayload, length, issued);
      Shorten(payload, start);
      r := Ok(Some(payload));
    }

    /** The file ends where its last record began. */
    method Shorten(payload: Bytes, start: nat)
      requires StampedBy(file, issued) && Whole() && records > 0 && start <= length && StampedBy(file[..start], issued)
      requires Valid() ==> contents != [] && payload == contents[|contents| - 1]
                           && start == |Log(contents[..|contents| - 1])| && file[..start] == Log(contents[..|contents| - 1])
      modifies this`file, this`length, this`records, this`reservation, this`contents
      ensures Sound() && length == start && Whole() && (old(Valid()) ==> Valid() && old(contents) == contents + [payload])
      ensures reservation == if old(reservation) < start then old(reservation) else start
    {
      hide Frame, Log, StampedBy;
      if Valid() {
        assert contents[..|contents| - 1] + [payload] == contents;
        contents := contents[..|contents| - 1];
      }
      file, length, records := file[..start], start, records - 1;
      reservation := if reservation < start then reservation else start;
    }

    /** Nothing but the system's own mood has changed. */
    twostate predicate Unmoved()
      reads this
    {
      && file == old(file) && length == old(length) && records == old(records)
      && reservation == old(reservation) && contents == old(contents)
    }

    /** One record at an offset, and where the next one starts. */
    method ReadAt(offset: nat) returns (r: Answer<(Bytes, nat), SpillError>)
      requires Sound()
      modifies this`ios
      ensures Sound() && (old(Valid()) ==> Valid())
      ensures r.Ok? ==> Stamp(offset, Header(r.value.0), r.value.0) in issued
      ensures Valid() ==> forall k | 0 <= k < |contents| && offset == Offset(contents, k) ::
        || r == Ok((contents[k], Offset(contents, k + 1)))
        || (r == Err(System) && old(ios) != [])
        || (r == Err(Resized) && !Whole())
      ensures old(ios) == [] ==> ios == []
    {
      hide Frame, Log, StampedBy, ReadRecord;
      var io := NextIo();
      if !io.works { return Err(System); }
      if |file| != length { return Err(Resized); }
      r := ReadRecord(file, looks, maximumPayload, offset, length);
      if r.Ok? {
        AcceptedIsStamped(file, looks, maximumPayload, offset, length);
        StampInFile(file, issued, Stamp(offset, Header(r.value.0), r.value.0));
      }
      if Valid() {
        forall k | 0 <= k < |contents| && offset == Offset(contents, k)
          ensures r == Ok((contents[k], Offset(contents, k + 1)))
        {
          ReadAtRecord(file, looks, maximumPayload, contents, k);
        }
      }
    }

    /** Hands every record to a visitor, first pushed first, until the visitor refuses one. Whatever the file
        holds, a record that is handed over was pushed at the offset it is read from. */
    method Visit(accepts: Bytes -> bool) returns (seen: seq<Bytes>, e: Option<SpillError>, refused: Option<Bytes>)
      requires Sound()
      modifies this`ios
      ensures forall p <- seen :: accepts(p) && Issued(p)
      ensures refused.Some? ==> e.None? && !accepts(refused.value) && Issued(refused.value)
      ensures e.None? && refused.None? ==> |seen| == records
      ensures Valid() ==> seen <= contents && (refused.Some? ==> |seen| < |contents| && refused.value == contents[|seen|])
      ensures Valid() && e.None? && refused.None? ==> seen == contents
      ensures Valid() && e.Some? ==> e == Some(System) || (e == Some(Resized) && !Whole())
      ensures old(ios) == [] ==> ios == [] && (Valid() && Whole() ==> e.None?)
    {
      hide Frame, Log, StampedBy, ReadRecord;
      seen, e, refused := [], None, None;
      var io := NextIo();
      if !io.works { return [], Some(System), None; }
      if |file| != length { return [], Some(Resized), None; }
      ghost var rest := ios;
      var offset, k := 0, 0;
      assert contents[..0] == [];
      EmptyLog();
      while k < records
        invariant 0 <= k <= records && |seen| == k && ios == rest
        invariant Valid() ==> offset == Offset(contents, k) && seen == contents[..k]
        invariant forall p <- seen :: accepts(p) && Issued(p)
        invariant e.None? && refused.None?
      {
        if Valid() { ReadAtRecord(file, looks, maximumPayload, contents, k); }
        var record := ReadRecord(file, looks, maximumPayload, offset, length);
        if record.Err? {
          e := Some(record.error);
          return;
        }
        AcceptedIsStamped(file, looks, maximumPayload, offset, length);
        StampInFile(file, issued, Stamp(offset, Header(record.value.0), record.value.0));
        if !accepts(record.value.0) {
          refused := Some(record.value.0);
          return;
        }
        seen := seen + [record.value.0];
        offset := record.value.1;
        k := k + 1;
      }
      assert Valid() ==> contents[..k] == contents;
      if offset != length { e := Some(Leftover); }
    }

    /** The owner made a tag for this payload. */
    ghost predicate Issued(payload: Bytes)
      reads this
    {
      exists offset: nat :: Stamp(offset, Header(payload), payload) in issued
    }
  }
}
