/** What a deletion's report says of one entry, how it is written down, and how much room that takes. */
module Records {
  import opened Outcomes
  import opened LittleEndian
  import opened FileSystem
  import opened Spill
  import Isolation

  type Entry = Isolation.Entry

  type Text = seq<byte>

  /** Texts are the bytes of UTF-8. */
  datatype Verdict = Deleted | Changed(detail: Text) | Missing | Failed(detail: Text) | Unattempted

  datatype Result = Result(entry: Entry, verdict: Verdict)

  const MAX_DETAIL_BYTES := 128
  const MAX_ESCAPED_BYTES := 6
  const ENVELOPE_BYTES := 64
  const MAX_PLAN_RECORD_BYTES := 1024 * 1024
  const MAX_RESULT_RECORD_BYTES := MAX_PLAN_RECORD_BYTES + MAX_DETAIL_BYTES * MAX_ESCAPED_BYTES + ENVELOPE_BYTES

  const ELLIPSIS: Text := [0xE2, 0x80, 0xA6]

  // ---- details ----

  predicate IsContinuation(b: byte) {
    0x80 <= b < 0xC0
  }

  predicate IsBoundary(text: Text, i: nat)
    requires i <= |text|
  {
    i == 0 || i == |text| || !IsContinuation(text[i])
  }

  /** How many bytes the character that starts with `lead` has; none when no character does. */
  function CharBytes(lead: byte): nat {
    if lead < 0x80 then 1 else if lead < 0xC2 then 0 else if lead < 0xE0 then 2
    else if lead < 0xF0 then 3 else if lead < 0xF5 then 4 else 0
  }

  ghost predicate IsUtf8(text: Text) {
    text == [] ||
    var n := CharBytes(text[0]);
    0 < n <= |text| && (forall i | 1 <= i < n :: IsContinuation(text[i])) && IsUtf8(text[n..])
  }

  function LastBoundary(text: Text, i: nat): (end: nat)
    requires i <= |text|
    ensures end <= i
  {
    if IsBoundary(text, i) then i else LastBoundary(text, i - 1)
  }

  function Bounded(detail: Text): Text {
    if |detail| <= MAX_DETAIL_BYTES then detail
    else detail[..LastBoundary(detail, MAX_DETAIL_BYTES - |ELLIPSIS|)] + ELLIPSIS
  }

  method BoundedDetail(detail: Text) returns (bounded: Text)
    ensures bounded == Bounded(detail)
  {
    if |detail| <= MAX_DETAIL_BYTES { return detail; }
    var end := MAX_DETAIL_BYTES - |ELLIPSIS|;
    while !IsBoundary(detail, end)
      invariant 0 <= end <= MAX_DETAIL_BYTES - |ELLIPSIS|
      invariant LastBoundary(detail, end) == LastBoundary(detail, MAX_DETAIL_BYTES - |ELLIPSIS|)
      decreases end
    {
      end := end - 1;
    }
    bounded := detail[..end] + ELLIPSIS;
  }

  lemma {:induction false} Utf8Prefix(text: Text, i: nat)
    requires IsUtf8(text) && i <= |text| && IsBoundary(text, i)
    ensures IsUtf8(text[..i])
    decreases |text|
  {
    if 0 < i < |text| {
      var n := CharBytes(text[0]);
      assert i >= n;
      Utf8Prefix(text[n..], i - n);
      assert text[..i][n..] == text[n..][..i - n];
    } else if i == |text| {
      assert text[..i] == text;
    }
  }

  /** In a valid text, a character boundary is never more than three bytes back. */
  lemma {:induction false} BoundaryIsNear(text: Text, i: nat)
    requires IsUtf8(text) && i <= |text|
    ensures LastBoundary(text, i) + 3 >= i
    ensures IsBoundary(text, LastBoundary(text, i))
    decreases |text|
  {
    if 0 < i < |text| {
      var n := CharBytes(text[0]);
      if i < n {
        LastBoundaryFrom(text, i, 0);
      } else {
        BoundaryIsNear(text[n..], i - n);
        var j := LastBoundary(text[n..], i - n);
        if j == 0 { BoundaryAfterChar(text, n); }
        LastBoundaryFrom(text, i, n + j);
      }
    }
  }

  lemma BoundaryAfterChar(text: Text, n: nat)
    requires IsUtf8(text) && text != [] && n == CharBytes(text[0])
    ensures IsBoundary(text, n)
  {
  }

  lemma {:induction false} LastBoundaryFrom(text: Text, i: nat, j: nat)
    requires j <= i <= |text| && IsBoundary(text, j)
    ensures j <= LastBoundary(text, i) && IsBoundary(text, LastBoundary(text, i))
  {
    if !IsBoundary(text, i) {
      LastBoundaryFrom(text, i - 1, j);
    }
  }

  lemma {:induction false} Utf8Concat(a: Text, b: Text)
    requires IsUtf8(a) && IsUtf8(b)
    ensures IsUtf8(a + b)
    decreases |a|
  {
    if a == [] {
      assert a + b == b;
    } else {
      var n := CharBytes(a[0]);
      Utf8Concat(a[n..], b);
      assert (a + b)[n..] == a[n..] + b;
    }
  }

  /** A bounded detail fits, stays readable, and loses no more than it must. */
  lemma BoundedIsShort(detail: Text)
    requires IsUtf8(detail)
    ensures |Bounded(detail)| <= MAX_DETAIL_BYTES && IsUtf8(Bounded(detail))
    ensures |detail| > MAX_DETAIL_BYTES ==>
      && |Bounded(detail)| >= MAX_DETAIL_BYTES - 3
      && Bounded(detail)[..|Bounded(detail)| - |ELLIPSIS|] <= detail
  {
    if |detail| > MAX_DETAIL_BYTES {
      var end := LastBoundary(detail, MAX_DETAIL_BYTES - |ELLIPSIS|);
      BoundaryIsNear(detail, MAX_DETAIL_BYTES - |ELLIPSIS|);
      Utf8Prefix(detail, end);
      assert ELLIPSIS[3..] == [];
      Utf8Concat(detail[..end], ELLIPSIS);
    }
  }

  // ---- the written form ----

  function HexDigit(n: int): byte
    requires 0 <= n < 16
  {
    (if n < 10 then 48 + n else 87 + n) as byte
  }

  /** One byte of a string as section 7 of RFC 8259 lets it stand between quotes. */
  function EscapeByte(b: byte): Text {
    if b == 34 || b == 92 then [92, b]
    else if b == 8 then [92, 98] else if b == 9 then [92, 116] else if b == 10 then [92, 110]
    else if b == 12 then [92, 102] else if b == 13 then [92, 114]
    else if b < 32 then [92, 117, 48, 48, HexDigit(b as int / 16), HexDigit(b as int % 16)]
    else [b]
  }

  function Escape(text: Text): Text {
    if text == [] then [] else EscapeByte(text[0]) + Escape(text[1..])
  }

  lemma {:induction false} EscapeBound(text: Text)
    ensures |Escape(text)| <= MAX_ESCAPED_BYTES * |text|
  {
    if text != [] {
      EscapeBound(text[1..]);
    }
  }

  function Decimal(n: nat): Text {
    if n < 10 then [(48 + n) as byte] else Decimal(n / 10) + [(48 + n % 10) as byte]
  }

  function Pow10(k: nat): nat {
    if k == 0 then 1 else 10 * Pow10(k - 1)
  }

  lemma {:induction false} DecimalBound(n: nat, digits: nat)
    requires digits > 0 && n < Pow10(digits)
    ensures 1 <= |Decimal(n)| <= digits
  {
    if n >= 10 {
      DecimalBound(n / 10, digits - 1);
    }
  }

  lemma U64Digits(n: nat)
    requires n <= U64_MAX
    ensures 1 <= |Decimal(n)| <= 20
  {
    assert Pow10(5) == 100000;
    assert Pow10(10) == 10000000000;
    assert Pow10(15) == 1000000000000000;
    DecimalBound(n, 20);
  }

  /** `null`, `"deleted"` and so on. */
  const NULL: Text := [110, 117, 108, 108]
  const DELETED: Text := [34, 100, 101, 108, 101, 116, 101, 100, 34]
  const MISSING: Text := [34, 109, 105, 115, 115, 105, 110, 103, 34]
  const UNATTEMPTED: Text := [34, 117, 110, 97, 116, 116, 101, 109, 112, 116, 101, 100, 34]
  const CHANGED: Text := [123, 34, 99, 104, 97, 110, 103, 101, 100, 34, 58, 34]
  const FAILED: Text := [123, 34, 102, 97, 105, 108, 101, 100, 34, 58, 34]
  const CLOSE: Text := [34, 125]

  function LinksText(links: Option<LinkCount>): Text {
    match links
    case None => NULL
    case Some(n) => Decimal(n)
  }

  function VerdictText(verdict: Verdict): Text {
    match verdict
    case Deleted => DELETED
    case Missing => MISSING
    case Unattempted => UNATTEMPTED
    case Changed(detail) => CHANGED + Escape(detail) + CLOSE
    case Failed(detail) => FAILED + Escape(detail) + CLOSE
  }

  predicate SameButLinks(a: Entry, b: Entry) {
    a == b.(snapshot := b.snapshot.(links := a.snapshot.links))
  }

  function WithoutLinks(entry: Entry): Entry {
    entry.(snapshot := entry.snapshot.(links := None))
  }

  /** How the parts of a record that a run does not change are written, the path with its escaping among
      them, how records are read back, and how large the resident forms are. */
  datatype Format = Format(head: Entry -> Text, middle: Entry -> Text,
                           planText: Entry -> Text, readPlan: Text -> Option<Entry>,
                           readResult: Text -> Option<Result>,
                           plannedSize: nat, resultSize: nat)
  {
    function ResultText(r: Result): Text {
      var fixed := WithoutLinks(r.entry);
      head(fixed) + LinksText(r.entry.snapshot.links) + middle(fixed) + VerdictText(r.verdict) + [125]
    }

    /** What is read back is what was written. */
    ghost predicate Lawful() {
      && (forall e :: readPlan(planText(e)) == Some(e))
      && (forall r :: readResult(ResultText(r)) == Some(r))
    }

    /** The room reserved for an entry's result before the reader consents. */
    function Capacity(entry: Entry): nat {
      |ResultText(Result(entry, Changed([])))| + MAX_DETAIL_BYTES * MAX_ESCAPED_BYTES + ENVELOPE_BYTES
    }
  }

  function DetailBytes(verdict: Verdict): nat {
    if verdict.Changed? || verdict.Failed? then |verdict.detail| else 0
  }

  /** Whatever its verdict, its bounded detail and its link count, a result fits the room reserved for its
      entry. */
  lemma ResultFits(format: Format, planned: Entry, r: Result)
    requires SameButLinks(planned, r.entry)
    requires DetailBytes(r.verdict) <= MAX_DETAIL_BYTES
    ensures |format.ResultText(r)| <= format.Capacity(planned)
  {
    assert WithoutLinks(planned) == WithoutLinks(r.entry);
    if planned.snapshot.links.Some? { U64Digits(planned.snapshot.links.value); }
    if r.entry.snapshot.links.Some? { U64Digits(r.entry.snapshot.links.value); }
    if r.verdict.Changed? || r.verdict.Failed? { EscapeBound(r.verdict.detail); }
    assert Escape([]) == [];
  }

  // ---- resident sizes ----

  const USIZE_MAX := U64_MAX

  function SatAdd(a: nat, b: nat): nat {
    if a + b > USIZE_MAX then USIZE_MAX else a + b
  }

  function PathBytes(path: seq<Name>): nat {
    if path == [] then 0
    else if |path| == 1 then |path[0]|
    else PathBytes(path[..|path| - 1]) + 1 + |path[|path| - 1]|
  }

  function PathRoom(path: seq<Name>): nat {
    SatAdd(0, 2 * PathBytes(path))
  }

  function PlannedBytes(format: Format, entry: Entry): nat {
    SatAdd(SatAdd(format.plannedSize, PathRoom(entry.path)), 128)
  }

  function ResultBytes(format: Format, r: Result): nat {
    SatAdd(SatAdd(SatAdd(format.resultSize, PathRoom(r.entry.path)), DetailBytes(r.verdict)), 128)
  }

  function ResultBound(format: Format, entry: Entry): nat {
    SatAdd(SatAdd(SatAdd(format.resultSize, PathRoom(entry.path)), MAX_DETAIL_BYTES), 128)
  }

  lemma ResultBytesBounded(format: Format, r: Result)
    requires DetailBytes(r.verdict) <= MAX_DETAIL_BYTES
    ensures ResultBytes(format, r) <= ResultBound(format, r.entry)
  {
  }
}
